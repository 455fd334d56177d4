// The executions of a task agree with its other tables as long as every start, fail and finalize
// names its generation, and not longer.
module RunAgreement {
  import opened Sql
  import opened TaskLog
  import opened TaskCell
  import opened PlanningOutput
  import opened Idempotency
  import opened Planning
  import opened PlanningInvariants
  import opened PlanningHandoff
  import opened TaskQueue
  import opened TaskInvariants
  import opened Promotion
  import opened LedgerInvariants
  import opened Runs
  import opened RunSteps
  import opened RunFairness

  // ------------------------------------------------------------------ one call

  lemma CreateAgreesAll(s: Store, q: Queue, a: CreateArgs, now: int, t: Store, p: Queue, reply: TaskReply)
    requires CasesOk(s) && AllAgree(q) && CreateKey(a) !in s.records && CreateTask(s, q, a, now) == Ok((t, p, reply))
    ensures AllAgree(p)
  {
    hide AllAgree, Agrees, CasesOk, CreateTask, CreateCell, Put, PinsValid, HasEffective, CaseAt;
    CreateExactly(s, q, a, now);
    CreateAgrees(PinsOf(a), a.request, a.actor, now);
    PutNeedsAgreement(q, Key(a.org, a.task), CreateCell(PinsOf(a), a.request, a.actor, now));
  }

  lemma CancelAgreesAll(s: Store, q: Queue, a: CancelArgs, now: int, t: Store, p: Queue, reply: TaskReply)
    requires AllAgree(q) && CancelKey(a) !in s.records && CancelTask(s, q, a, now) == Ok((t, p, reply))
    ensures AllAgree(p)
  {
    hide AllAgree, Agrees, CellsOk, CancelTask, CancelCell, Put, Unclosable, IsTerminal, CellOf;
    AgreementCoheres(q);
    CancelExactly(s, q, a, now);
    var k := Key(a.org, a.task);
    CellAgrees(q, k);
    CancelAgrees(CellOf(q, k), now);
    PutNeedsAgreement(q, k, CancelCell(CellOf(q, k), now).value);
  }

  lemma ClaimAgreesAll(q: Queue, worker: string, choice: Option<Key>, now: int, p: Queue, lease: Option<Lease>)
    requires AllAgree(q) && IsChoice(q, choice, now) && ClaimTask(q, worker, choice, now) == Ok((p, lease))
    ensures AllAgree(p)
  {
    hide AllAgree, Agrees, CellsOk, ClaimTask, ClaimCell, Put, IsOverdue, IsWorker, IsChoice, CellOf;
    AgreementCoheres(q);
    ClaimExactly(q, worker, choice, now);
    if choice.Some? {
      CellAgrees(q, choice.value);
      ClaimAgrees(CellOf(q, choice.value), worker, now);
      PutNeedsAgreement(q, choice.value, ClaimCell(CellOf(q, choice.value), worker, now).value.0);
    }
  }

  lemma HeartbeatAgreesAll(q: Queue, k: Key, worker: string, generation: Option<nat>, now: int, p: Queue)
    requires AllAgree(q) && HeartbeatTask(q, k, worker, generation, now) == Ok(p)
    ensures AllAgree(p)
  {
    hide AllAgree, Agrees, HeartbeatCell, Put, CellOf;
    CellAgrees(q, k);
    HeartbeatAgrees(CellOf(q, k), worker, generation, now);
    PutNeedsAgreement(q, k, HeartbeatCell(CellOf(q, k), worker, generation, now).value);
  }

  lemma OwnerAgrees(w: World, call: Call, v: World, answer: Answer, rules: Rules)
    requires WorldInv(w, rules) && AllAgree(w.queue) && Unrecorded(w, call) && (call.CreateCall? || call.CancelCall? || call.FinalizeCall?)
    requires Apply(w, call, rules) == Ok((v, answer))
    ensures AllAgree(v.queue) <==> NamesGeneration(call)
  {
    hide *;
    CallIs(w, call, rules);
    WorldCells(w, rules);
    InvCases(w.store);
    KeyIs(w, call);
    NamedIs(call);
    match call
    case CreateCall(a) =>
      OnTaskOk(w, CreateTask(w.store, w.queue, a, w.now), v, answer);
      CreateAgreesAll(w.store, w.queue, a, w.now, v.store, v.queue, answer.task);
    case CancelCall(a) =>
      OnTaskOk(w, CancelTask(w.store, w.queue, a, w.now), v, answer);
      CancelAgreesAll(w.store, w.queue, a, w.now, v.store, v.queue, answer.task);
    case FinalizeCall(a) =>
      OnFinalizeOk(w, FinalizeTask(w.store, w.queue, a, w.now), v, answer);
      FinalizeKeepsExactly(w.store, w.queue, a, w.now);
  }

  lemma NamedIs(call: Call)
    ensures match call
            case StartCall(_, _, generation, _) => NamesGeneration(call) <==> generation.Some?
            case FailCall(_, _, generation, _, _, _) => NamesGeneration(call) <==> generation.Some?
            case FinalizeCall(a) => NamesGeneration(call) <==> a.generation.Some?
            case _ => NamesGeneration(call)
  {
  }

  lemma WorkerAgrees(w: World, call: Call, v: World, answer: Answer, rules: Rules)
    requires AllAgree(w.queue) && Chosen(w, call) && (call.ClaimCall? || call.StartCall? || call.HeartbeatCall? || call.FailCall?)
    requires Apply(w, call, rules) == Ok((v, answer))
    ensures AllAgree(v.queue) <==> NamesGeneration(call)
  {
    hide *;
    CallIs(w, call, rules);
    NamedIs(call);
    match call
    case ClaimCall(worker, choice) =>
      OnClaimOk(w, ClaimTask(w.queue, worker, choice, w.now), v, answer);
      ChosenHead(w, worker, choice);
      ClaimAgreesAll(w.queue, worker, choice, w.now, v.queue, answer.lease);
    case StartCall(k, worker, generation, input) =>
      OnQueueOk(w, StartTask(w.queue, k, worker, generation, input, w.now), v, answer);
      StartKeepsExactly(w.queue, k, worker, generation, input, w.now);
    case HeartbeatCall(k, worker, generation) =>
      OnQueueOk(w, HeartbeatTask(w.queue, k, worker, generation, w.now), v, answer);
      HeartbeatAgreesAll(w.queue, k, worker, generation, w.now, v.queue);
    case FailCall(k, worker, generation, code, retryable, fallback) =>
      OnQueueOk(w, FailTask(w.queue, k, worker, generation, code, retryable, fallback, w.now), v, answer);
      FailKeepsExactly(w.queue, k, worker, generation, code, retryable, fallback, w.now);
  }

  lemma CallAgrees(w: World, call: Call, v: World, answer: Answer, rules: Rules)
    requires WorldInv(w, rules) && AllAgree(w.queue) && Chosen(w, call) && Apply(w, call, rules) == Ok((v, answer))
    ensures AllAgree(v.queue) <==> NamesGeneration(call)
  {
    hide *;
    NamedIs(call);
    if !Unrecorded(w, call) {
      RecordedChangesNothing(w, call, v, answer, rules);
      RecordedNames(w, call);
    } else if call.CreateCall? || call.CancelCall? || call.FinalizeCall? {
      OwnerAgrees(w, call, v, answer, rules);
    } else if call.ClaimCall? || call.StartCall? || call.HeartbeatCall? || call.FailCall? {
      WorkerAgrees(w, call, v, answer, rules);
    } else {
      QueueUntouched(w, call, v, answer, rules);
    }
  }

  lemma RecordedNames(w: World, call: Call)
    requires !Unrecorded(w, call)
    ensures NamesGeneration(call)
  {
  }

  // Exactly when the tables stay in agreement: from a state in which they agree, a moment leaves
  // them in agreement if and only if its call raises or names its generation.
  lemma MomentAgreesExactly(w: World, m: Moment, rules: Rules)
    requires WorldInv(w, rules) && AllAgree(w.queue) && Happens(w, m, rules)
    ensures AllAgree(m.after.queue) <==> m.outcome.Err? || NamesGeneration(m.call)
  {
    hide *;
    MomentCall(w, m, rules);
    TickInv(w, m.wait, rules);
    if m.outcome.Ok? {
      MomentOk(w, m, m.outcome.value, rules);
      CallAgrees(Tick(w, m.wait), m.call, m.after, m.outcome.value, rules);
    } else {
      MomentErr(w, m, m.outcome.error, rules);
    }
  }

  // ------------------------------------------------------------------ runs that name their generations

  // Every call of the run raises or names its generation.
  predicate IsNamed(run: seq<Moment>) {
    forall i :: 0 <= i < |run| ==> run[i].outcome.Err? || NamesGeneration(run[i].call)
  }

  // A state that such a run reaches from the empty tables.
  ghost predicate ReachableNamed(w: World, rules: Rules) {
    exists now, run :: IsRun(Start(now), run, rules) && IsNamed(run) && w == Last(Start(now), run)
  }

  lemma {:induction false} NamedKeeps(w: World, run: seq<Moment>, rules: Rules)
    requires WorldInv(w, rules) && AllAgree(w.queue) && IsRun(w, run, rules) && IsNamed(run)
    ensures AllAgree(Last(w, run).queue)
    decreases |run|
  {
    hide WorldInv, IsRun, Happens, Last, AllAgree, NamesGeneration;
    if run == [] {
      LastOfNone(w);
    } else {
      var init, m := run[..|run| - 1], run[|run| - 1];
      assert run == init + [m];
      assert m == run[|run| - 1];
      forall i | 0 <= i < |init|
        ensures init[i].outcome.Err? || NamesGeneration(init[i].call)
      {
        assert init[i] == run[i];
      }
      OneMore(w, init, m, rules);
      RunKeeps(w, init, rules);
      NamedKeeps(w, init, rules);
      MomentAgreesExactly(Last(w, init), m, rules);
    }
  }

  lemma StartAgreement(now: int)
    ensures AllAgree(Start(now).queue)
  {
    hide Agrees;
  }

  lemma NamedAgrees(w: World, rules: Rules)
    requires ReachableNamed(w, rules)
    ensures AllAgree(w.queue) && Reachable(w, rules)
  {
    hide WorldInv, IsRun, Last, AllAgree, IsNamed;
    var now, run :| IsRun(Start(now), run, rules) && IsNamed(run) && w == Last(Start(now), run);
    StartInv(now, rules);
    StartAgreement(now);
    NamedKeeps(Start(now), run, rules);
  }

  // ------------------------------------------------------------------ the tables of one task

  // What the four tables say about one task when all agree.
  ghost predicate TablesAgree(q: Queue, k: Key) {
    && k in q.tasks && k in q.executions && k in q.events
    && var t, rows := q.tasks[k], q.executions[k];
       && t.generation == t.attempts == |rows| <= MAX_ATTEMPTS && t.state != Succeeded
       && (t.state == Queued ==> t.attempts < MAX_ATTEMPTS)
       && (k in q.dispatch <==> !IsTerminal(t.state))
       && (IsHeld(t.state) ==> k in q.dispatch && t.expires == Some(q.dispatch[k]) && t.owner.Some?)
       && (forall i :: 0 <= i < |rows| ==> rows[i].attempt == i + 1 && rows[i].generation == i + 1)
       && (forall i :: 0 <= i < |rows| ==>
             (TaskCell.IsOpen(rows[i]) <==> IsHeld(t.state) && i == |rows| - 1))
       && (IsHeld(t.state) ==> |rows| > 0 && rows[|rows| - 1].status == if t.state == Running then XRunning else XLeased)
  }

  lemma OpenRows(t: Task, rows: seq<Execution>)
    requires ExecutionsAgree(t, rows)
    ensures |rows| == t.attempts
    ensures forall i :: 0 <= i < |rows| ==> rows[i].attempt == i + 1 && rows[i].generation == i + 1
    ensures forall i :: 0 <= i < |rows| ==> (TaskCell.IsOpen(rows[i]) <==> IsHeld(t.state) && i == |rows| - 1)
    ensures IsHeld(t.state) ==> |rows| > 0 && rows[|rows| - 1].status == if t.state == Running then XRunning else XLeased
  {
  }

  lemma AgreementTables(q: Queue, k: Key)
    requires AllAgree(q) && k in q.tasks
    ensures TablesAgree(q, k)
  {
    hide LogAgrees, Audited, ExecutionsAgree, TaskCell.IsOpen;
    CellAgrees(q, k);
    AgreementBounds(CellOf(q, k));
    OpenRows(q.tasks[k], q.executions[k]);
  }

  lemma FourTablesAgree(w: World, k: Key, rules: Rules)
    requires ReachableNamed(w, rules) && k in w.queue.tasks
    ensures TablesAgree(w.queue, k)
  {
    hide *;
    NamedAgrees(w, rules);
    AgreementTables(w.queue, k);
  }

  ghost predicate HistoryTold(q: Queue, k: Key) {
    k in q.tasks && Audited(q.tasks[k], RowsOf(q.executions, k))
  }

  // Its executions tell its history: every attempt before the last one was given up for a retry;
  // the last one carries the task's outcome, result and code, and its measured duration.
  lemma ExecutionsTellHistory(w: World, k: Key, rules: Rules)
    requires ReachableNamed(w, rules) && k in w.queue.tasks
    ensures HistoryTold(w.queue, k)
  {
    hide *;
    NamedAgrees(w, rules);
    CellAgrees(w.queue, k);
    AgreementAudits(w.queue, k);
  }

  lemma AgreementAudits(q: Queue, k: Key)
    requires k in q.tasks && Agrees(CellOf(q, k))
    ensures HistoryTold(q, k)
  {
    hide Audited, ExecutionsAgree, Coheres;
  }
}
