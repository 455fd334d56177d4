// Theorems about the task tables over whole runs of calls.
module RunTheorems {
  import opened Sql
  import opened TaskLog
  import opened TaskCell
  import opened PlanningOutput
  import opened Idempotency
  import opened Planning
  import opened PlanningInvariants
  import opened PlanningHandoff
  import opened PlanningDecision
  import opened TaskQueue
  import opened TaskInvariants
  import opened Promotion
  import opened PromotionTheorems
  import opened LedgerInvariants
  import opened Runs
  import opened RunSteps
  import opened RunHistory

  // ------------------------------------------------------------------ fencing

  // From the moment a lease is issued: the task's generation never falls below it, and while it
  // is the newest one nobody but its worker can hold the task.
  ghost predicate Fenced(q: Queue, lease: Lease, worker: string) {
    && lease.task in q.tasks && q.tasks[lease.task].generation >= lease.generation
    && (q.tasks[lease.task].generation == lease.generation ==> q.tasks[lease.task].owner in {None, Some(worker)})
  }

  lemma ClaimFences(q: Queue, worker: string, choice: Option<Key>, now: int, p: Queue, lease: Lease)
    requires CellsOk(q) && IsChoice(q, choice, now) && ClaimTask(q, worker, choice, now) == Ok((p, Some(lease)))
    ensures Fenced(p, lease, worker)
  {
    hide IsChoice, Coheres, ClaimCell, CellsOk, IsOverdue, IsWorker, ClaimTask, Put, CellOf;
    ClaimExactly(q, worker, choice, now);
    CellCoheres(q, choice.value);
    ClaimCoheres(CellOf(q, choice.value), worker, now);
    PutIs(q, choice.value, ClaimCell(CellOf(q, choice.value), worker, now).value.0);
  }

  lemma FenceStays(q: Queue, p: Queue, lease: Lease, worker: string)
    requires Fenced(q, lease, worker) && QueueLater(q, p)
    ensures Fenced(p, lease, worker)
  {
    assert CellLater(CellOf(q, lease.task), CellOf(p, lease.task));
  }

  // A worker's call: the task, the name and the generation that it carries.
  predicate Carries(call: Call, k: Key, worker: string, generation: nat) {
    match call
    case StartCall(task, name, g, _) => task == k && name == worker && g == Some(generation)
    case HeartbeatCall(task, name, g) => task == k && name == worker && g == Some(generation)
    case FailCall(task, name, g, _, _, _) => task == k && name == worker && g == Some(generation)
    case FinalizeCall(a) => Key(a.org, a.task) == k && a.worker == worker && a.generation == Some(generation)
    case _ => false
  }

  lemma StaleCallFails(w: World, lease: Lease, holder: string, call: Call, worker: string, generation: nat, rules: Rules)
    requires Fenced(w.queue, lease, holder) && Carries(call, lease.task, worker, generation)
    requires generation < lease.generation || (generation == lease.generation && worker != holder)
    ensures Apply(w, call, rules).Err?
  {
    hide *;
    CallIs(w, call, rules);
    CarriedBy(call, lease.task, worker, generation);
    match call
    case StartCall(k, _, g, input) => StaleStart(w, lease, holder, worker, generation, input);
    case HeartbeatCall(k, _, g) => StaleHeartbeat(w, lease, holder, worker, generation);
    case FailCall(k, _, g, code, retryable, fallback) => StaleFail(w, lease, holder, worker, generation, code, retryable, fallback);
    case FinalizeCall(a) => StaleFinalize(w, lease, holder, worker, generation, a);
  }

  lemma CarriedBy(call: Call, k: Key, worker: string, generation: nat)
    requires Carries(call, k, worker, generation)
    ensures match call
            case StartCall(task, name, g, _) => task == k && name == worker && g == Some(generation)
            case HeartbeatCall(task, name, g) => task == k && name == worker && g == Some(generation)
            case FailCall(task, name, g, _, _, _) => task == k && name == worker && g == Some(generation)
            case FinalizeCall(a) => Key(a.org, a.task) == k && a.worker == worker && a.generation == Some(generation)
            case _ => false
  {
  }

  lemma StaleStart(w: World, lease: Lease, holder: string, worker: string, generation: nat, input: Option<string>)
    requires Fenced(w.queue, lease, holder) && (generation < lease.generation || (generation == lease.generation && worker != holder))
    ensures OnQueue(w, StartTask(w.queue, lease.task, worker, Some(generation), input, w.now)).Err?
  {
    hide StartRows, Append, IsSha256;
  }

  lemma StaleHeartbeat(w: World, lease: Lease, holder: string, worker: string, generation: nat)
    requires Fenced(w.queue, lease, holder) && (generation < lease.generation || (generation == lease.generation && worker != holder))
    ensures OnQueue(w, HeartbeatTask(w.queue, lease.task, worker, Some(generation), w.now)).Err?
  {
  }

  lemma StaleFail(w: World, lease: Lease, holder: string, worker: string, generation: nat, code: Option<string>, retryable: bool, fallback: Option<bool>)
    requires Fenced(w.queue, lease, holder) && (generation < lease.generation || (generation == lease.generation && worker != holder))
    ensures OnQueue(w, FailTask(w.queue, lease.task, worker, Some(generation), code, retryable, fallback, w.now)).Err?
  {
    hide RetryCell, GiveUpCell;
  }

  lemma StaleFinalize(w: World, lease: Lease, holder: string, worker: string, generation: nat, a: FinalizeArgs)
    requires Fenced(w.queue, lease, holder) && (generation < lease.generation || (generation == lease.generation && worker != holder))
    requires Key(a.org, a.task) == lease.task && a.worker == worker && a.generation == Some(generation)
    ensures OnFinalize(w, FinalizeTask(w.store, w.queue, a, w.now)).Err?
  {
    hide PersistResult, FinalizeCell;
  }

  lemma ClaimMomentFences(w: World, m: Moment, worker: string, choice: Option<Key>, lease: Lease, rules: Rules)
    requires WorldInv(w, rules) && Happens(w, m, rules) && m.call == ClaimCall(worker, choice) && m.outcome == Ok(Granted(Some(lease)))
    ensures Fenced(m.after.queue, lease, worker)
  {
    hide *;
    WorldCells(w, rules);
    MomentCall(w, m, rules);
    MomentOk(w, m, Granted(Some(lease)), rules);
    TickInv(w, m.wait, rules);
    var v := Tick(w, m.wait);
    CallIs(v, m.call, rules);
    OnClaimOk(v, ClaimTask(v.queue, worker, choice, v.now), m.after, Granted(Some(lease)));
    ChosenHead(v, worker, choice);
    ClaimFences(v.queue, worker, choice, v.now, m.after.queue, lease);
  }

  // Once a lease is issued, no call under an older generation and no call of another worker under
  // this one ever succeeds or changes anything, whatever happens in between.
  lemma FencedForever(w: World, claim: Moment, holder: string, choice: Option<Key>, lease: Lease, run: seq<Moment>,
                      stale: Moment, worker: string, generation: nat, rules: Rules)
    requires Reachable(w, rules) && IsRun(w, [claim] + run + [stale], rules)
    requires claim.call == ClaimCall(holder, choice) && claim.outcome == Ok(Granted(Some(lease)))
    requires Carries(stale.call, lease.task, worker, generation)
    requires generation < lease.generation || (generation == lease.generation && worker != holder)
    ensures stale.outcome.Err? && stale.after == Tick(Last(claim.after, run), stale.wait)
  {
    hide *;
    Parts(w, claim, run, stale, rules);
    ReachableInv(w, rules);
    ClaimMomentFences(w, claim, holder, choice, lease, rules);
    MomentSteps(w, claim, rules);
    StepsInv(w, claim.after, rules);
    RunLater(claim.after, run, rules);
    LaterTables(claim.after, Last(claim.after, run));
    FenceStays(claim.after.queue, Last(claim.after, run).queue, lease, holder);
    StaleMomentFails(Last(claim.after, run), lease, holder, stale, worker, generation, rules);
  }

  lemma StaleMomentFails(w: World, lease: Lease, holder: string, m: Moment, worker: string, generation: nat, rules: Rules)
    requires Fenced(w.queue, lease, holder) && Carries(m.call, lease.task, worker, generation)
    requires generation < lease.generation || (generation == lease.generation && worker != holder)
    requires Happens(w, m, rules)
    ensures m.outcome.Err? && m.after == Tick(w, m.wait)
  {
    hide *;
    TickTables(w, m.wait);
    StaleCallFails(Tick(w, m.wait), lease, holder, m.call, worker, generation, rules);
    if m.outcome.Ok? {
      MomentOk(w, m, m.outcome.value, rules);
    } else {
      MomentErr(w, m, m.outcome.error, rules);
    }
  }

  // ------------------------------------------------------------------ closed tasks

  predicate Closed(q: Queue, k: Key) {
    k in q.tasks && IsTerminal(q.tasks[k].state)
  }

  // The rows of the task are the same in all four tables.
  predicate SameRows(q: Queue, p: Queue, k: Key) {
    k in q.tasks && k in p.tasks && CellOf(p, k) == CellOf(q, k)
  }

  // The four tables never change again for a closed task.
  lemma ClosedForever(w: World, k: Key, run: seq<Moment>, rules: Rules)
    requires Reachable(w, rules) && IsRun(w, run, rules) && Closed(w.queue, k)
    ensures SameRows(w.queue, Last(w, run).queue, k)
  {
    hide *;
    ReachableLater(w, run, rules);
    LaterTables(w, Last(w, run));
    ClosedCell(w.queue, Last(w, run).queue, k);
  }

  lemma ClosedCell(q: Queue, p: Queue, k: Key)
    requires QueueLater(q, p) && Closed(q, k)
    ensures SameRows(q, p, k)
  {
    assert CellLater(CellOf(q, k), CellOf(p, k));
  }

  // After one successful finalize of a task, no further one ever succeeds or changes anything.
  lemma OneFinalize(w: World, first: Moment, a: FinalizeArgs, run: seq<Moment>, second: Moment, b: FinalizeArgs, rules: Rules)
    requires Reachable(w, rules) && IsRun(w, [first] + run + [second], rules)
    requires first.call == FinalizeCall(a) && first.outcome.Ok?
    requires second.call == FinalizeCall(b) && b.org == a.org && b.task == a.task
    ensures second.outcome == Err(NV010) && second.after == Tick(Last(first.after, run), second.wait)
  {
    hide *;
    var k, u := Key(a.org, a.task), Last(first.after, run);
    Parts(w, first, run, second, rules);
    ReachableInv(w, rules);
    MomentSteps(w, first, rules);
    StepsInv(w, first.after, rules);
    FinalizedIsClosed(w, first, a, rules);
    RunLater(first.after, run, rules);
    LaterTables(first.after, u);
    ClosedCell(first.after.queue, u.queue, k);
    ClosedRefuses(first.after.queue, u, second, k, b, rules);
  }

  lemma FinalizedIsClosed(w: World, m: Moment, a: FinalizeArgs, rules: Rules)
    requires m.call == FinalizeCall(a) && m.outcome.Ok? && Happens(w, m, rules)
    ensures Closed(m.after.queue, Key(a.org, a.task))
  {
    hide *;
    MomentOk(w, m, m.outcome.value, rules);
    var v := Tick(w, m.wait);
    CallIs(v, m.call, rules);
    OnFinalizeOk(v, FinalizeTask(v.store, v.queue, a, v.now), m.after, m.outcome.value);
    FinalizeCloses(v.store, v.queue, a, v.now, m.after.store, m.after.queue);
  }

  lemma FinalizeCloses(s: Store, q: Queue, a: FinalizeArgs, now: int, t: Store, p: Queue)
    requires FinalizeTask(s, q, a, now) == Ok((t, p))
    ensures Closed(p, Key(a.org, a.task))
  {
    hide PersistResult, Append, Close, HoldsLease;
  }

  lemma ClosedRefuses(q: Queue, u: World, m: Moment, k: Key, b: FinalizeArgs, rules: Rules)
    requires Closed(q, k) && SameRows(q, u.queue, k) && k == Key(b.org, b.task)
    requires m.call == FinalizeCall(b) && Happens(u, m, rules)
    ensures m.outcome == Err(NV010) && m.after == Tick(u, m.wait)
  {
    hide *;
    var v := Tick(u, m.wait);
    TickTables(u, m.wait);
    CallIs(v, m.call, rules);
    ClosedTaskRefuses(q, v, k, b);
    if m.outcome.Ok? {
      MomentOk(u, m, m.outcome.value, rules);
    } else {
      MomentErr(u, m, m.outcome.error, rules);
    }
  }

  lemma ClosedTaskRefuses(q: Queue, v: World, k: Key, b: FinalizeArgs)
    requires Closed(q, k) && SameRows(q, v.queue, k) && k == Key(b.org, b.task)
    ensures OnFinalize(v, FinalizeTask(v.store, v.queue, b, v.now)) == Err(NV010)
  {
    hide PersistResult, FinalizeCell;
    assert v.queue.tasks[k] == CellOf(v.queue, k).task;
  }

  // ------------------------------------------------------------------ the event log

  // `p` is a later state of the task tables than `q`. The log has only grown; replaying what was
  // appended on top of the row of `q` gives the row of `p`: state, attempts, result, terminal code.
  ghost predicate CatchesUp(q: Queue, p: Queue, k: Key) {
    && k in q.tasks && k in p.tasks
    && var seen, log := RowsOf(q.events, k), RowsOf(p.events, k);
       && seen <= log
       && Replay(seen) == ViewOf(q.tasks[k])
       && ReplayFrom(ViewOf(q.tasks[k]), log[|seen|..]) == ViewOf(p.tasks[k])
       && Numbered(log) && |log| == p.tasks[k].rowVersion + Reclaims(log) <= 10
  }

  // A reader who has replayed a task's log at one time has to replay only what came since.
  lemma ReplayCatchesUp(w: World, k: Key, run: seq<Moment>, rules: Rules)
    requires Reachable(w, rules) && IsRun(w, run, rules) && k in w.queue.tasks
    ensures CatchesUp(w.queue, Last(w, run).queue, k)
  {
    hide *;
    var v := Last(w, run);
    ReachableLater(w, run, rules);
    LaterTables(w, v);
    LaterLog(w.queue, v.queue, k);
    WorldLog(w, k, rules);
    WorldLog(v, k, rules);
    SuffixCatchesUp(w.queue, v.queue, k);
  }

  ghost predicate LogStands(q: Queue, k: Key) {
    k in q.tasks
    && var log := RowsOf(q.events, k);
       Replay(log) == ViewOf(q.tasks[k]) && Numbered(log) && |log| == q.tasks[k].rowVersion + Reclaims(log) <= 10
  }

  lemma SuffixCatchesUp(q: Queue, p: Queue, k: Key)
    requires LogStands(q, k) && LogStands(p, k) && RowsOf(q.events, k) <= RowsOf(p.events, k)
    ensures CatchesUp(q, p, k)
  {
    hide RowsOf, ViewOf, Reclaims, Numbered, ReplayFrom;
    var seen, log := RowsOf(q.events, k), RowsOf(p.events, k);
    assert log == seen + log[|seen|..];
    ReplaySuffix(Empty, seen, log[|seen|..]);
  }

  lemma LaterLog(q: Queue, p: Queue, k: Key)
    requires QueueLater(q, p) && k in q.tasks
    ensures k in p.tasks && RowsOf(q.events, k) <= RowsOf(p.events, k)
  {
    assert CellLater(CellOf(q, k), CellOf(p, k));
  }

  lemma WorldLog(w: World, k: Key, rules: Rules)
    requires WorldInv(w, rules) && k in w.queue.tasks
    ensures LogStands(w.queue, k)
  {
    hide *;
    WorldCells(w, rules);
    CellLog(w.queue, k);
  }

  lemma CellLog(q: Queue, k: Key)
    requires CellsOk(q) && k in q.tasks
    ensures LogStands(q, k)
  {
    hide CellsOk, Replay, Reclaims, Numbered, ExecutionsAgree, Audited, ViewOf;
    CellCoheres(q, k);
    AgreementBounds(CellOf(q, k));
  }

  lemma LogVersion(q: Queue, k: Key)
    requires LogStands(q, k)
    ensures k in q.tasks && q.tasks[k].rowVersion <= 10
  {
    hide Replay, Reclaims, Numbered, ViewOf;
  }

  // ------------------------------------------------------------------ progress

  predicate Changed(q: Queue, p: Queue, k: Key) {
    k in q.tasks && k in p.tasks && p.tasks[k].rowVersion != q.tasks[k].rowVersion
  }

  // The moments of a run that change the row version of a task.
  function Changes(w: World, run: seq<Moment>, k: Key): nat
    decreases |run|
  {
    if run == [] then 0
    else
      var init, m := run[..|run| - 1], run[|run| - 1];
      Changes(w, init, k) + if Changed(Last(w, init).queue, m.after.queue, k) then 1 else 0
  }

  // One change is one row version, and uses up the measure.
  predicate Counted(t: Task, u: Task, changes: nat) {
    u.rowVersion == t.rowVersion + changes && changes <= Measure(t) - Measure(u)
  }

  lemma ChangeFalls(q: Queue, p: Queue, k: Key, now: int)
    requires QueueStep(q, p, now) && k in q.tasks
    ensures k in p.tasks && Counted(q.tasks[k], p.tasks[k], if Changed(q, p, k) then 1 else 0)
  {
    hide Moves;
    if CellOf(p, k) == CellOf(q, k) {
      assert p.tasks[k] == CellOf(p, k).task == q.tasks[k];
    } else {
      assert CellStep(CellOf(q, k), CellOf(p, k));
    }
  }

  ghost predicate CountedIn(q: Queue, p: Queue, k: Key, changes: nat) {
    k in q.tasks && k in p.tasks && Counted(q.tasks[k], p.tasks[k], changes) && p.tasks[k].rowVersion <= 10
  }

  // The row versions count the changes exactly, and every change uses up the measure; so no task
  // changes more than nine times after its creation, however long the run is.
  lemma ChangesAreBounded(w: World, run: seq<Moment>, k: Key, rules: Rules)
    requires Reachable(w, rules) && IsRun(w, run, rules) && k in w.queue.tasks
    ensures CountedIn(w.queue, Last(w, run).queue, k, Changes(w, run, k))
  {
    hide *;
    ReachableInv(w, rules);
    ChangesFrom(w, run, k, rules);
  }

  lemma {:induction false} ChangesFrom(w: World, run: seq<Moment>, k: Key, rules: Rules)
    requires WorldInv(w, rules) && IsRun(w, run, rules) && k in w.queue.tasks
    ensures CountedIn(w.queue, Last(w, run).queue, k, Changes(w, run, k))
    decreases |run|
  {
    hide WorldInv, IsRun, Happens, Last, Measure, QueueStep, LogStands, Changed;
    if run == [] {
      LastOfNone(w);
      WorldLog(w, k, rules);
      LogVersion(w.queue, k);
    } else {
      var init, m := run[..|run| - 1], run[|run| - 1];
      assert run == init + [m];
      OneMore(w, init, m, rules);
      RunKeeps(w, init, rules);
      ChangesFrom(w, init, k, rules);
      MomentSteps(Last(w, init), m, rules);
      StepsInv(Last(w, init), m.after, rules);
      ChangeFalls(Last(w, init).queue, m.after.queue, k, m.after.now);
      WorldLog(m.after, k, rules);
      LogVersion(m.after.queue, k);
    }
  }
}
