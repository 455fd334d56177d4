// How the tables of a later state relate to those of an earlier one.
module RunHistory {
  import opened Sql
  import opened TaskLog
  import opened TaskCell
  import opened PlanningOutput
  import opened Idempotency
  import opened Planning
  import opened PlanningInvariants
  import opened PlanningHandoff
  import opened PlanningDecision
  import opened PlanningTheorems
  import opened TaskQueue
  import opened TaskInvariants
  import opened Promotion
  import opened PromotionTheorems
  import opened LedgerInvariants
  import opened Runs
  import opened RunSteps

  // ------------------------------------------------------------------ what stays in every later state

  // An open task moves on under the same pins, a closed one stays as it is in all four tables.
  ghost predicate CellLater(c: Cell, d: Cell) {
    && SamePins(c.task, d.task) && c.events <= d.events
    && c.task.attempts <= d.task.attempts && c.task.generation <= d.task.generation && c.task.rowVersion <= d.task.rowVersion
    && (d.task.generation == c.task.generation ==> d.task.owner == c.task.owner || d.task.owner == None)
    && (IsTerminal(c.task.state) ==> d == c)
  }

  ghost predicate QueueLater(q: Queue, p: Queue) {
    forall k :: k in q.tasks ==> k in p.tasks && CellLater(CellOf(q, k), CellOf(p, k))
  }

  // Rows are only added; a run or a brief that is no longer current never is again.
  ghost predicate StoreLater(s: Store, t: Store) {
    && Extends(s, t)
    && (forall r :: r in s.runs && r in t.runs && t.runs[r].current ==> s.runs[r].current)
    && (forall b :: b in s.briefs && b in t.briefs && t.briefs[b].current ==> s.briefs[b].current)
    && s.packs.Keys <= t.packs.Keys && EntriesFrozen(s, t) && s.acceptances <= t.acceptances
    && (forall k :: k in s.evidence ==> k in t.evidence && t.evidence[k] == s.evidence[k])
    && (forall k :: k in s.records ==> k in t.records && t.records[k] == s.records[k])
  }

  ghost predicate Later(w: World, v: World) {
    w.now <= v.now && StoreLater(w.store, v.store) && QueueLater(w.queue, v.queue) && LedgerLater(w.ledger, v.ledger)
  }

  // ------------------------------------------------------------------ one step

  lemma StepIsLater(c: Cell, d: Cell)
    requires CellStep(c, d)
    ensures CellLater(c, d)
  {
  }

  lemma QueueStepIsLater(q: Queue, p: Queue, now: int)
    requires QueueStep(q, p, now)
    ensures QueueLater(q, p)
  {
    hide CellStep, CellOf;
    forall k | k in q.tasks
      ensures k in p.tasks && CellLater(CellOf(q, k), CellOf(p, k))
    {
      if CellOf(p, k) != CellOf(q, k) {
        StepIsLater(CellOf(q, k), CellOf(p, k));
      }
    }
  }

  lemma BesideLater(s: Store, t: Store)
    requires Beside(s, t) && (t.records == s.records || OneRecord(s, t))
    ensures StoreLater(s, t)
  {
  }

  lemma PersistedLater(s: Store, a: PersistArgs, t: Store)
    requires RunsOk(s) && Persisted(s, a, t)
    ensures StoreLater(s, t)
  {
    hide RunsOk, Extends, Kept, RunsStep;
    PersistedKept(s, a, t);
    KeptExtends(s, t);
    StepLosesCurrent(s.runs, a, t.runs);
  }

  lemma StepLosesCurrent(runs: map<Key, Run>, a: PersistArgs, after: map<Key, Run>)
    requires RunsStep(runs, a, after)
    ensures forall r :: r in runs && r in after && after[r].current ==> runs[r].current
  {
  }

  lemma ReviewLater(s: Store, a: ReviewArgs, t: Store)
    requires ReviewStep(s, a, t)
    ensures StoreLater(s, t)
  {
    hide Extends, AcceptancesOf;
    ReviewExtends(s, a, t);
  }

  lemma DecideLater(s: Store, a: DecideArgs, t: Store)
    requires DecideStep(s, a, t)
    ensures StoreLater(s, t)
  {
    hide Extends;
    DecideExtends(s, a, t);
  }

  lemma StoreStepLater(s: Store, t: Store)
    requires RunsOk(s) && StoreStep(s, t)
    ensures StoreLater(s, t)
  {
    hide RunsOk, StoreLater, Beside, OneRecord, Grounded, IsRipe, Persisted, ReviewStep, DecideStep;
    if a :| Persisted(s, a, t) {
      PersistedLater(s, a, t);
    } else if a :| ReviewStep(s, a, t) && Grounded(s, a) {
      ReviewLater(s, a, t);
    } else if a :| DecideStep(s, a, t) && IsRipe(s, a) {
      DecideLater(s, a, t);
    } else {
      BesideLater(s, t);
    }
  }

  lemma MomentLater(w: World, m: Moment, rules: Rules)
    requires WorldInv(w, rules) && Happens(w, m, rules)
    ensures Later(w, m.after)
  {
    hide *;
    MomentSteps(w, m, rules);
    StepsInv(w, m.after, rules);
    WorldCells(w, rules);
    InvCases(w.store);
    StoreStepLater(w.store, m.after.store);
    QueueStepIsLater(w.queue, m.after.queue, m.after.now);
    LaterFrom(w, m.after);
  }

  lemma LaterFrom(w: World, v: World)
    requires w.now <= v.now && StoreLater(w.store, v.store) && QueueLater(w.queue, v.queue) && LedgerLater(w.ledger, v.ledger)
    ensures Later(w, v)
  {
    hide StoreLater, QueueLater, LedgerLater;
  }

  lemma LaterTables(w: World, v: World)
    requires Later(w, v)
    ensures QueueLater(w.queue, v.queue) && StoreLater(w.store, v.store) && LedgerLater(w.ledger, v.ledger) && w.now <= v.now
  {
    hide QueueLater, StoreLater, LedgerLater;
  }

  // ------------------------------------------------------------------ along a run

  lemma CellLaterTrans(a: Cell, b: Cell, c: Cell)
    requires CellLater(a, b) && CellLater(b, c)
    ensures CellLater(a, c)
  {
    hide IsTerminal;
    assert a.events <= c.events;
  }

  lemma QueueLaterTrans(q: Queue, p: Queue, r: Queue)
    requires QueueLater(q, p) && QueueLater(p, r)
    ensures QueueLater(q, r)
  {
    hide CellLater, CellOf;
    forall k | k in q.tasks
      ensures k in r.tasks && CellLater(CellOf(q, k), CellOf(r, k))
    {
      CellLaterTrans(CellOf(q, k), CellOf(p, k), CellOf(r, k));
    }
  }

  lemma ExtendsTrans(s: Store, t: Store, u: Store)
    requires Extends(s, t) && Extends(t, u)
    ensures Extends(s, u)
  {
  }

  lemma StoreLaterTrans(s: Store, t: Store, u: Store)
    requires StoreLater(s, t) && StoreLater(t, u)
    ensures StoreLater(s, u)
  {
    hide Extends;
    ExtendsTrans(s, t, u);
    RunsTrans(s, t, u);
    RowsTrans(s, t, u);
  }

  lemma RunsTrans(s: Store, t: Store, u: Store)
    requires StoreLater(s, t) && StoreLater(t, u)
    ensures forall r :: r in s.runs && r in u.runs && u.runs[r].current ==> s.runs[r].current
    ensures forall b :: b in s.briefs && b in u.briefs && u.briefs[b].current ==> s.briefs[b].current
  {
  }

  lemma RowsTrans(s: Store, t: Store, u: Store)
    requires StoreLater(s, t) && StoreLater(t, u)
    ensures s.packs.Keys <= u.packs.Keys && EntriesFrozen(s, u) && s.acceptances <= u.acceptances
    ensures forall k :: k in s.evidence ==> k in u.evidence && u.evidence[k] == s.evidence[k]
    ensures forall k :: k in s.records ==> k in u.records && u.records[k] == s.records[k]
  {
    hide Extends;
  }

  lemma LaterTrans(w: World, v: World, u: World)
    requires Later(w, v) && Later(v, u)
    ensures Later(w, u)
  {
    hide StoreLater, QueueLater, LedgerLater;
    StoreLaterTrans(w.store, v.store, u.store);
    QueueLaterTrans(w.queue, v.queue, u.queue);
    assert LedgerLater(w.ledger, u.ledger) by { LedgerLaterTrans(w.ledger, v.ledger, u.ledger); }
  }

  lemma LedgerLaterTrans(l: Ledger, m: Ledger, n: Ledger)
    requires LedgerLater(l, m) && LedgerLater(m, n)
    ensures LedgerLater(l, n)
  {
  }

  lemma SameLater(w: World)
    ensures Later(w, w)
  {
  }

  // Whatever happens, nothing that was written is lost, and nothing that was closed reopens.
  lemma {:induction false} RunLater(w: World, run: seq<Moment>, rules: Rules)
    requires WorldInv(w, rules) && IsRun(w, run, rules)
    ensures Later(w, Last(w, run))
    decreases |run|
  {
    hide WorldInv, IsRun, Happens, Last, Later;
    if run == [] {
      LastOfNone(w);
      SameLater(w);
    } else {
      var init, m := run[..|run| - 1], run[|run| - 1];
      assert run == init + [m];
      OneMore(w, init, m, rules);
      RunLater(w, init, rules);
      RunKeeps(w, init, rules);
      MomentLater(Last(w, init), m, rules);
      LaterTrans(w, Last(w, init), m.after);
    }
  }

  // The same between two states of which the first is reachable.
  lemma ReachableLater(w: World, run: seq<Moment>, rules: Rules)
    requires Reachable(w, rules) && IsRun(w, run, rules)
    ensures WorldInv(w, rules) && WorldInv(Last(w, run), rules) && Later(w, Last(w, run))
  {
    hide *;
    ReachableInv(w, rules);
    RunKeeps(w, run, rules);
    RunLater(w, run, rules);
  }
}
