// Who is served when: who may write a task's rows, bounded overtaking in the dispatch queue, and
// what blocks it.
module RunFairness {
  import opened Sql
  import opened TaskLog
  import opened TaskCell
  import opened PlanningOutput
  import opened Idempotency
  import opened Planning
  import opened PlanningInvariants
  import opened PlanningHandoff
  import opened TaskQueue
  import opened TaskInvariants
  import opened Promotion
  import opened LedgerInvariants
  import opened Runs
  import opened RunSteps
  import opened RunHistory
  import opened RunTheorems

  // The task's open execution is too old for its duration column.
  predicate Overdue(q: Queue, k: Key, now: int) {
    k in q.tasks && IsOverdue(CellOf(q, k), now)
  }

  // ------------------------------------------------------------------ who writes a task's rows

  predicate HeldBy(q: Queue, k: Key, worker: string, generation: Option<nat>, now: int) {
    k in q.tasks && HoldsLease(q.tasks[k], worker, generation, now)
  }

  predicate IsCancelled(q: Queue, k: Key) {
    k in q.tasks && q.tasks[k].state == Cancelled
  }

  // The calls that can change the rows of task `k`: its cancel, a claim that takes it while it is
  // not overdue, and the worker who holds its lease.
  predicate Writes(w: World, call: Call, v: World, k: Key) {
    match call
    case CancelCall(a) => k == Key(a.org, a.task) && !Overdue(w.queue, k, w.now) && IsCancelled(v.queue, k)
    case ClaimCall(_, choice) => choice == Some(k) && !Overdue(w.queue, k, w.now)
    case StartCall(task, worker, generation, _) => task == k && HeldBy(w.queue, k, worker, generation, w.now)
    case HeartbeatCall(task, worker, generation) => task == k && HeldBy(w.queue, k, worker, generation, w.now)
    case FailCall(task, worker, generation, _, _, _) => task == k && HeldBy(w.queue, k, worker, generation, w.now)
    case FinalizeCall(a) => k == Key(a.org, a.task) && HeldBy(w.queue, k, a.worker, a.generation, w.now)
    case _ => false
  }

  lemma PutOther(q: Queue, j: Key, c: Cell, k: Key)
    requires k in q.tasks
    ensures j != k ==> SameRows(q, Put(q, j, c), k)
  {
  }

  lemma CreateWrites(s: Store, q: Queue, a: CreateArgs, now: int, t: Store, p: Queue, reply: TaskReply, k: Key)
    requires CasesOk(s) && CreateKey(a) !in s.records && CreateTask(s, q, a, now) == Ok((t, p, reply)) && k in q.tasks
    ensures SameRows(q, p, k)
  {
    hide CasesOk, CreateTask, CreateCell, Put, SameRows, PinsValid, HasEffective, CaseAt;
    CreateExactly(s, q, a, now);
    PutOther(q, Key(a.org, a.task), CreateCell(PinsOf(a), a.request, a.actor, now), k);
  }

  lemma CancelWrites(s: Store, q: Queue, a: CancelArgs, now: int, t: Store, p: Queue, reply: TaskReply, k: Key)
    requires CellsOk(q) && CancelKey(a) !in s.records && CancelTask(s, q, a, now) == Ok((t, p, reply)) && k in q.tasks
    ensures SameRows(q, p, k) || (k == Key(a.org, a.task) && !Overdue(q, k, now) && IsCancelled(p, k))
  {
    hide CellsOk, CancelTask, CancelCell, Put, SameRows, IsOverdue, Unclosable, IsTerminal, CellOf, Coheres;
    CancelExactly(s, q, a, now);
    var j := Key(a.org, a.task);
    PutOther(q, j, CancelCell(CellOf(q, j), now).value, k);
    CellCoheres(q, j);
    ClosableIsNotOverdue(CellOf(q, j), now);
    CancelMoves(CellOf(q, j), now);
    PutIs(q, j, CancelCell(CellOf(q, j), now).value);
  }

  lemma ClaimWrites(q: Queue, worker: string, choice: Option<Key>, now: int, p: Queue, lease: Option<Lease>, k: Key)
    requires CellsOk(q) && IsChoice(q, choice, now) && ClaimTask(q, worker, choice, now) == Ok((p, lease)) && k in q.tasks
    ensures SameRows(q, p, k) || (choice == Some(k) && !Overdue(q, k, now))
    ensures choice.Some? ==> choice.value in p.dispatch ==> p.dispatch[choice.value] > now
  {
    hide CellsOk, ClaimTask, ClaimCell, Put, SameRows, IsOverdue, IsWorker, IsChoice, CellOf;
    ClaimExactly(q, worker, choice, now);
    if choice.Some? {
      PutOther(q, choice.value, ClaimCell(CellOf(q, choice.value), worker, now).value.0, k);
      PutDispatch(q, choice.value, ClaimCell(CellOf(q, choice.value), worker, now).value.0);
    } else {
      Unchanged(q, k);
    }
  }

  lemma Unchanged(q: Queue, k: Key)
    requires k in q.tasks
    ensures SameRows(q, q, k)
  {
  }

  lemma PutDispatch(q: Queue, k: Key, c: Cell)
    ensures k in Put(q, k, c).dispatch <==> c.dispatch.Some?
    ensures k in Put(q, k, c).dispatch ==> Put(q, k, c).dispatch[k] == c.dispatch.value
  {
  }

  lemma StartWrites(q: Queue, j: Key, worker: string, generation: Option<nat>, input: Option<string>, now: int, p: Queue, k: Key)
    requires StartTask(q, j, worker, generation, input, now) == Ok(p) && k in q.tasks
    ensures SameRows(q, p, k) || (j == k && HeldBy(q, k, worker, generation, now))
  {
    hide StartRows, Append, Put, SameRows, IsSha256;
    PutOther(q, j, StartCell(CellOf(q, j), worker, generation, input, now).value, k);
  }

  lemma HeartbeatWrites(q: Queue, j: Key, worker: string, generation: Option<nat>, now: int, p: Queue, k: Key)
    requires HeartbeatTask(q, j, worker, generation, now) == Ok(p) && k in q.tasks
    ensures SameRows(q, p, k) || (j == k && HeldBy(q, k, worker, generation, now))
  {
    hide Put, SameRows;
    PutOther(q, j, HeartbeatCell(CellOf(q, j), worker, generation, now).value, k);
  }

  lemma FailWrites(q: Queue, j: Key, worker: string, generation: Option<nat>, code: Option<string>, retryable: bool, fallback: Option<bool>,
                   now: int, p: Queue, k: Key)
    requires FailTask(q, j, worker, generation, code, retryable, fallback, now) == Ok(p) && k in q.tasks
    ensures SameRows(q, p, k) || (j == k && HeldBy(q, k, worker, generation, now))
  {
    hide RetryCell, GiveUpCell, Put, SameRows;
    PutOther(q, j, FailCell(CellOf(q, j), worker, generation, code, retryable, fallback, now).value, k);
  }

  lemma FinalizeWrites(s: Store, q: Queue, a: FinalizeArgs, now: int, t: Store, p: Queue, k: Key)
    requires FinalizeTask(s, q, a, now) == Ok((t, p)) && k in q.tasks
    ensures SameRows(q, p, k) || (k == Key(a.org, a.task) && HeldBy(q, k, a.worker, a.generation, now))
  {
    hide PersistResult, FinalizeCell, Put, SameRows;
    var j := Key(a.org, a.task);
    PutOther(q, j, FinalizeCell(CellOf(q, j), a.generation, Key(a.org, a.run), ClosingState(a.target), a.reason, a.outputHash, now).value, k);
  }

  // The two sides of a call: its writer, or nothing.
  ghost predicate WrittenOrSame(w: World, call: Call, v: World, k: Key) {
    SameRows(w.queue, v.queue, k) || Writes(w, call, v, k)
  }

  lemma OwnerWrites(w: World, call: Call, v: World, answer: Answer, k: Key, rules: Rules)
    requires WorldInv(w, rules) && Unrecorded(w, call) && k in w.queue.tasks
    requires call.CreateCall? || call.CancelCall? || call.FinalizeCall?
    requires Apply(w, call, rules) == Ok((v, answer))
    ensures WrittenOrSame(w, call, v, k)
  {
    hide *;
    CallIs(w, call, rules);
    WorldCells(w, rules);
    InvCases(w.store);
    KeyIs(w, call);
    match call {
      case CreateCall(a) =>
        OnTaskOk(w, CreateTask(w.store, w.queue, a, w.now), v, answer);
        CreateWrites(w.store, w.queue, a, w.now, v.store, v.queue, answer.task, k);
      case CancelCall(a) =>
        OnTaskOk(w, CancelTask(w.store, w.queue, a, w.now), v, answer);
        CancelWrites(w.store, w.queue, a, w.now, v.store, v.queue, answer.task, k);
      case FinalizeCall(a) =>
        OnFinalizeOk(w, FinalizeTask(w.store, w.queue, a, w.now), v, answer);
        FinalizeWrites(w.store, w.queue, a, w.now, v.store, v.queue, k);
    }
    WrittenFrom(w, call, v, k);
  }

  // Folding the cases into the predicate.
  lemma WrittenFrom(w: World, call: Call, v: World, k: Key)
    requires SameRows(w.queue, v.queue, k)
             || match call
                case CancelCall(a) => k == Key(a.org, a.task) && !Overdue(w.queue, k, w.now) && IsCancelled(v.queue, k)
                case ClaimCall(_, choice) => choice == Some(k) && !Overdue(w.queue, k, w.now)
                case StartCall(task, worker, generation, _) => task == k && HeldBy(w.queue, k, worker, generation, w.now)
                case HeartbeatCall(task, worker, generation) => task == k && HeldBy(w.queue, k, worker, generation, w.now)
                case FailCall(task, worker, generation, _, _, _) => task == k && HeldBy(w.queue, k, worker, generation, w.now)
                case FinalizeCall(a) => k == Key(a.org, a.task) && HeldBy(w.queue, k, a.worker, a.generation, w.now)
                case _ => false
    ensures WrittenOrSame(w, call, v, k)
  {
    hide SameRows, Overdue, HeldBy, IsCancelled;
  }

  lemma WorkerWrites(w: World, call: Call, v: World, answer: Answer, k: Key, rules: Rules)
    requires WorldInv(w, rules) && Chosen(w, call) && k in w.queue.tasks
    requires call.ClaimCall? || call.StartCall? || call.HeartbeatCall? || call.FailCall?
    requires Apply(w, call, rules) == Ok((v, answer))
    ensures WrittenOrSame(w, call, v, k)
  {
    hide *;
    CallIs(w, call, rules);
    WorldCells(w, rules);
    match call {
      case ClaimCall(worker, choice) =>
        OnClaimOk(w, ClaimTask(w.queue, worker, choice, w.now), v, answer);
        ChosenHead(w, worker, choice);
        ClaimWrites(w.queue, worker, choice, w.now, v.queue, answer.lease, k);
      case StartCall(j, worker, generation, input) =>
        OnQueueOk(w, StartTask(w.queue, j, worker, generation, input, w.now), v, answer);
        StartWrites(w.queue, j, worker, generation, input, w.now, v.queue, k);
      case HeartbeatCall(j, worker, generation) =>
        OnQueueOk(w, HeartbeatTask(w.queue, j, worker, generation, w.now), v, answer);
        HeartbeatWrites(w.queue, j, worker, generation, w.now, v.queue, k);
      case FailCall(j, worker, generation, code, retryable, fallback) =>
        OnQueueOk(w, FailTask(w.queue, j, worker, generation, code, retryable, fallback, w.now), v, answer);
        FailWrites(w.queue, j, worker, generation, code, retryable, fallback, w.now, v.queue, k);
    }
    WrittenFrom(w, call, v, k);
  }

  lemma QueueUntouched(w: World, call: Call, v: World, answer: Answer, rules: Rules)
    requires !(call.CreateCall? || call.CancelCall? || call.FinalizeCall? || call.ClaimCall? || call.StartCall? || call.HeartbeatCall? || call.FailCall?)
    requires Apply(w, call, rules) == Ok((v, answer))
    ensures v.queue == w.queue
  {
    hide PublishRevision, TransitionCase, AddParticipants, PersistPack, PersistEvidence, PersistResult, ReviewRun, DecideBrief, CreateTask, CancelTask,
         ClaimTask, StartTask, HeartbeatTask, FailTask, FinalizeTask, ImportCandidate, VerifyCandidate;
  }

  lemma CallWrites(w: World, call: Call, v: World, answer: Answer, k: Key, rules: Rules)
    requires WorldInv(w, rules) && Chosen(w, call) && k in w.queue.tasks
    requires Apply(w, call, rules) == Ok((v, answer))
    ensures WrittenOrSame(w, call, v, k)
  {
    hide *;
    Unchanged(w.queue, k);
    if !Unrecorded(w, call) {
      RecordedChangesNothing(w, call, v, answer, rules);
      WrittenFrom(w, call, v, k);
    } else if call.CreateCall? || call.CancelCall? || call.FinalizeCall? {
      OwnerWrites(w, call, v, answer, k, rules);
    } else if call.ClaimCall? || call.StartCall? || call.HeartbeatCall? || call.FailCall? {
      WorkerWrites(w, call, v, answer, k, rules);
    } else {
      QueueUntouched(w, call, v, answer, rules);
      WrittenFrom(w, call, v, k);
    }
  }

  // In every moment of every run the rows of a task in all four tables stay as they are, unless
  // the moment is its cancel, a claim that takes it, or a call of the worker who holds its lease;
  // and a claim or a cancel never gets past an overdue execution.
  lemma OnlyWritersWrite(w: World, m: Moment, k: Key, rules: Rules)
    requires Reachable(w, rules) && Happens(w, m, rules) && k in w.queue.tasks
    ensures WrittenOrSame(Tick(w, m.wait), m.call, m.after, k)
    ensures m.outcome.Err? ==> SameRows(w.queue, m.after.queue, k)
  {
    hide *;
    ReachableInv(w, rules);
    MomentWrites(w, m, k, rules);
  }

  lemma MomentWrites(w: World, m: Moment, k: Key, rules: Rules)
    requires WorldInv(w, rules) && Happens(w, m, rules) && k in w.queue.tasks
    ensures WrittenOrSame(Tick(w, m.wait), m.call, m.after, k)
    ensures m.outcome.Err? ==> SameRows(w.queue, m.after.queue, k)
  {
    hide *;
    MomentCall(w, m, rules);
    TickInv(w, m.wait, rules);
    Unchanged(w.queue, k);
    if m.outcome.Ok? {
      MomentOk(w, m, m.outcome.value, rules);
      CallWrites(Tick(w, m.wait), m.call, m.after, m.outcome.value, k, rules);
    } else {
      MomentErr(w, m, m.outcome.error, rules);
      WrittenFrom(Tick(w, m.wait), m.call, m.after, k);
    }
  }

  // ------------------------------------------------------------------ claims

  // A claim under a proper name raises exactly when its head is overdue: a lease whose execution
  // began more than 2^31 - 1 milliseconds ago.
  lemma ClaimRaises(w: World, m: Moment, worker: string, choice: Option<Key>, rules: Rules)
    requires Reachable(w, rules) && Happens(w, m, rules) && m.call == ClaimCall(worker, choice) && IsWorker(worker)
    ensures m.outcome.Err? <==> exists k :: choice == Some(k) && Overdue(w.queue, k, w.now + m.wait)
  {
    hide *;
    ReachableInv(w, rules);
    ClaimMoment(w, m, worker, choice, rules);
  }

  lemma ClaimMoment(w: World, m: Moment, worker: string, choice: Option<Key>, rules: Rules)
    requires WorldInv(w, rules) && Happens(w, m, rules) && m.call == ClaimCall(worker, choice)
    ensures IsChoice(w.queue, choice, w.now + m.wait) && m.after.now == w.now + m.wait
    ensures IsWorker(worker) ==> (m.outcome.Err? <==> exists k :: choice == Some(k) && Overdue(w.queue, k, w.now + m.wait))
    ensures m.outcome.Ok? ==> exists lease :: ClaimTask(w.queue, worker, choice, w.now + m.wait) == Ok((m.after.queue, lease))
    ensures m.outcome.Err? ==> m.after.queue == w.queue
  {
    hide *;
    var v := Tick(w, m.wait);
    TickTables(w, m.wait);
    WorldCells(w, rules);
    MomentCall(w, m, rules);
    ChosenHead(v, worker, choice);
    CallIs(v, m.call, rules);
    ClaimErr(w.queue, worker, choice, v.now, v);
    if m.outcome.Ok? {
      MomentOk(w, m, m.outcome.value, rules);
      OnClaimOk(v, ClaimTask(v.queue, worker, choice, v.now), m.after, m.outcome.value);
    } else {
      MomentErr(w, m, m.outcome.error, rules);
    }
  }

  lemma ClaimErr(q: Queue, worker: string, choice: Option<Key>, now: int, v: World)
    requires CellsOk(q) && IsChoice(q, choice, now)
    ensures IsWorker(worker) ==>
              (OnClaim(v, ClaimTask(q, worker, choice, now)).Err? <==> exists k :: choice == Some(k) && Overdue(q, k, now))
  {
    hide CellsOk, IsChoice, ClaimTask, IsWorker, IsOverdue, CellOf;
    ClaimExactly(q, worker, choice, now);
    if choice.Some? {
      assert Some(choice.value) == choice;
    }
  }

  // The claims of a run that do not raise.
  function GoodClaims(run: seq<Moment>): nat
    decreases |run|
  {
    if run == [] then 0
    else
      var m := run[|run| - 1];
      GoodClaims(run[..|run| - 1]) + if m.call.ClaimCall? && m.outcome.Ok? then 1 else 0
  }

  // ------------------------------------------------------------------ overtaking

  // The dispatch rows that a claim would take before the task's own; ties count as ahead.
  function Ahead(q: Queue, k: Key): set<Key> {
    set j | j in q.dispatch && k in q.dispatch && j != k && NotAfter(q, j, k)
  }

  // A queued task whose dispatch row lies in the past.
  predicate Waits(q: Queue, k: Key, now: int) {
    k in q.tasks && q.tasks[k].state == Queued && k in q.dispatch && q.dispatch[k] < now
  }

  // Still waiting with the same row; nobody new is ahead.
  predicate StillWaits(q: Queue, p: Queue, k: Key) {
    SameRows(q, p, k) && Ahead(p, k) <= Ahead(q, k)
  }

  predicate Served(p: Queue, k: Key) {
    k in p.tasks && p.tasks[k].state in {TaskState.Leased, Cancelled}
  }

  // The task is served in some state along the run.
  predicate ServedIn(run: seq<Moment>, k: Key) {
    exists i :: 0 <= i < |run| && Served(run[i].after.queue, k)
  }

  predicate InPast(q: Queue, k: Key, now: int) {
    k in q.dispatch && q.dispatch[k] < now
  }

  // The row is where it was, with nobody new ahead of it.
  predicate KeepsPlace(q: Queue, p: Queue, k: Key) {
    k in q.dispatch && k in p.dispatch && p.dispatch[k] == q.dispatch[k] && Ahead(p, k) <= Ahead(q, k)
  }

  // A row in the past keeps its place, as long as it is not written.
  lemma NobodyGetsAhead(q: Queue, p: Queue, k: Key, now: int)
    requires QueueStep(q, p, now) && SameRows(q, p, k) && InPast(q, k, now)
    ensures KeepsPlace(q, p, k)
  {
    hide CellStep;
    assert CellOf(p, k).dispatch == CellOf(q, k).dispatch;
  }

  // One step of any function: the task is served, or waits on with nobody new ahead of it.
  lemma NobodyOvertakes(q: Queue, p: Queue, k: Key, now: int)
    requires QueueStep(q, p, now) && Waits(q, k, now)
    ensures Served(p, k) || (StillWaits(q, p, k) && Waits(p, k, now))
  {
    hide Moves, MovesDown, Ahead;
    if CellOf(p, k) == CellOf(q, k) {
      NobodyGetsAhead(q, p, k, now);
      assert p.tasks[k] == CellOf(p, k).task == q.tasks[k];
    } else {
      assert CellStep(CellOf(q, k), CellOf(p, k));
      assert p.tasks[k] == CellOf(p, k).task;
    }
  }

  lemma SomeoneIsDue(q: Queue, choice: Option<Key>, k: Key, now: int)
    requires IsChoice(q, choice, now) && InPast(q, k, now)
    ensures choice.Some?
    ensures choice.value == k || choice.value in Ahead(q, k)
  {
  }

  // A claim that does not raise and leaves the row of `k` alone takes one of the rows ahead away.
  lemma ClaimMovesUp(q: Queue, worker: string, choice: Option<Key>, k: Key, now: int, p: Queue, lease: Option<Lease>)
    requires CellsOk(q) && IsChoice(q, choice, now) && ClaimTask(q, worker, choice, now) == Ok((p, lease))
    requires InPast(q, k, now) && KeepsPlace(q, p, k)
    ensures |Ahead(p, k)| < |Ahead(q, k)|
  {
    hide CellsOk, ClaimTask, IsChoice, Ahead;
    SomeoneIsDue(q, choice, k, now);
    DueTask(q, choice, now);
    ClaimWrites(q, worker, choice, now, p, lease, choice.value);
    LeavesAhead(p, choice.value, k, now);
    Fewer(Ahead(p, k), Ahead(q, k), choice.value);
  }

  lemma DueTask(q: Queue, choice: Option<Key>, now: int)
    requires CellsOk(q) && IsChoice(q, choice, now)
    ensures choice.Some? ==> choice.value in q.tasks
  {
    hide Coheres;
  }

  lemma LeavesAhead(p: Queue, j: Key, k: Key, now: int)
    requires j in p.dispatch ==> p.dispatch[j] > now
    requires k in p.dispatch && p.dispatch[k] < now
    ensures j != k && j !in Ahead(p, k)
  {
  }

  lemma Fewer(part: set<Key>, all: set<Key>, x: Key)
    requires part <= all && x in all && x !in part
    ensures |part| < |all|
  {
    assert part <= all - {x};
    Smaller(part, all - {x});
  }

  lemma {:induction false} Smaller(part: set<Key>, all: set<Key>)
    requires part <= all
    ensures |part| <= |all|
    decreases part
  {
    if part != {} {
      var x :| x in part;
      Smaller(part - {x}, all - {x});
    }
  }

  // What a moment does to the rows ahead of a row that it does not write.
  lemma MomentMovesUp(w: World, m: Moment, k: Key, rules: Rules)
    requires WorldInv(w, rules) && Happens(w, m, rules) && SameRows(w.queue, m.after.queue, k) && InPast(w.queue, k, w.now)
    ensures KeepsPlace(w.queue, m.after.queue, k) && Ahead(m.after.queue, k) <= Ahead(w.queue, k)
    ensures |Ahead(m.after.queue, k)| + (if m.call.ClaimCall? && m.outcome.Ok? then 1 else 0) <= |Ahead(w.queue, k)|
  {
    hide WorldInv, Happens, SameRows, Ahead, QueueStep, IsChoice, CellsOk, Inv, QueueInv, LedgerInv, Linked, Overdue, IsWorker, ClaimTask, StoreStep, LedgerLater, Steps;
    MomentSteps(w, m, rules);
    StepsInv(w, m.after, rules);
    NobodyGetsAhead(w.queue, m.after.queue, k, m.after.now);
    Smaller(Ahead(m.after.queue, k), Ahead(w.queue, k));
    if m.call.ClaimCall? && m.outcome.Ok? {
      WorldCells(w, rules);
      ClaimMoment(w, m, m.call.worker, m.call.choice, rules);
      var lease :| ClaimTask(w.queue, m.call.worker, m.call.choice, w.now + m.wait) == Ok((m.after.queue, lease));
      ClaimMovesUp(w.queue, m.call.worker, m.call.choice, k, w.now + m.wait, m.after.queue, lease);
    }
  }

  // Along a run: the task was served, or it waits on, and every good claim took a row ahead away.
  ghost predicate MovesUp(w: World, run: seq<Moment>, k: Key) {
    || ServedIn(run, k)
    || (Waits(Last(w, run).queue, k, Last(w, run).now) && |Ahead(Last(w, run).queue, k)| + GoodClaims(run) <= |Ahead(w.queue, k)|)
  }

  lemma {:induction false} RunMovesUp(w: World, run: seq<Moment>, k: Key, rules: Rules)
    requires WorldInv(w, rules) && IsRun(w, run, rules) && Waits(w.queue, k, w.now)
    ensures MovesUp(w, run, k)
    decreases |run|
  {
    hide WorldInv, IsRun, Happens, Last, Ahead, Served, SameRows, Waits;
    if run == [] {
      LastOfNone(w);
    } else {
      var init, m := run[..|run| - 1], run[|run| - 1];
      assert run == init + [m];
      OneMore(w, init, m, rules);
      RunKeeps(w, init, rules);
      RunMovesUp(w, init, k, rules);
      if ServedIn(init, k) {
        var i :| 0 <= i < |init| && Served(init[i].after.queue, k);
        assert Served(run[i].after.queue, k);
      } else {
        MomentServes(Last(w, init), m, k, rules);
        assert Served(m.after.queue, k) ==> Served(run[|init|].after.queue, k);
      }
    }
  }

  lemma MomentServes(w: World, m: Moment, k: Key, rules: Rules)
    requires WorldInv(w, rules) && Happens(w, m, rules) && Waits(w.queue, k, w.now)
    ensures || Served(m.after.queue, k)
            || (&& SameRows(w.queue, m.after.queue, k) && Waits(m.after.queue, k, m.after.now) && Ahead(m.after.queue, k) <= Ahead(w.queue, k)
                && |Ahead(m.after.queue, k)| + (if m.call.ClaimCall? && m.outcome.Ok? then 1 else 0) <= |Ahead(w.queue, k)|)
  {
    hide *;
    MomentSteps(w, m, rules);
    StepsInv(w, m.after, rules);
    WaitsOn(w.queue, k, w.now, m.after.now);
    NobodyOvertakes(w.queue, m.after.queue, k, m.after.now);
    if !Served(m.after.queue, k) {
      StillParts(w.queue, m.after.queue, k);
      MomentMovesUp(w, m, k, rules);
    }
  }

  lemma StillParts(q: Queue, p: Queue, k: Key)
    requires StillWaits(q, p, k)
    ensures SameRows(q, p, k) && Ahead(p, k) <= Ahead(q, k)
  {
    hide SameRows, Ahead;
  }

  lemma WaitsOn(q: Queue, k: Key, now: int, later: int)
    requires Waits(q, k, now) && now <= later
    ensures Waits(q, k, later) && InPast(q, k, now) && k in q.tasks
  {
  }

  // A waiting task with n rows ahead is claimed or cancelled at the latest by the (n+1)-th claim
  // that does not raise, whatever else happens in between.
  lemma BoundedOvertaking(w: World, run: seq<Moment>, k: Key, rules: Rules)
    requires Reachable(w, rules) && IsRun(w, run, rules) && Waits(w.queue, k, w.now)
    requires GoodClaims(run) > |Ahead(w.queue, k)|
    ensures ServedIn(run, k)
  {
    hide *;
    ReachableInv(w, rules);
    RunMovesUp(w, run, k, rules);
    NotAll(w, run, k);
  }

  lemma NotAll(w: World, run: seq<Moment>, k: Key)
    requires MovesUp(w, run, k) && GoodClaims(run) > |Ahead(w.queue, k)|
    ensures ServedIn(run, k)
  {
    hide ServedIn, GoodClaims, Ahead, Waits, Last;
  }

  // ------------------------------------------------------------------ overdue rows ahead

  // A row in the past whose task is overdue.
  predicate Blocks(q: Queue, j: Key, now: int) {
    Overdue(q, j, now) && j in q.dispatch && q.dispatch[j] < now
  }

  lemma BlocksOn(q: Queue, p: Queue, j: Key, now: int, later: int)
    requires Blocks(q, j, now) && SameRows(q, p, j) && now <= later
    ensures Blocks(p, j, later)
  {
    assert CellOf(p, j).dispatch == CellOf(q, j).dispatch;
  }

  // Its lease has run out, so nobody holds it.
  lemma NobodyHolds(q: Queue, j: Key, worker: string, generation: Option<nat>, now: int)
    requires CellsOk(q) && Blocks(q, j, now)
    ensures !HeldBy(q, j, worker, generation, now)
  {
    hide ExecutionsAgree, Audited, LogAgrees;
    CellCoheres(q, j);
  }

  // So nobody writes its rows.
  lemma BlockedStays(w: World, m: Moment, j: Key, rules: Rules)
    requires WorldInv(w, rules) && Happens(w, m, rules) && Blocks(w.queue, j, w.now)
    ensures SameRows(w.queue, m.after.queue, j) && Blocks(m.after.queue, j, m.after.now)
  {
    hide *;
    var v := Tick(w, m.wait);
    TickTables(w, m.wait);
    WorldCells(w, rules);
    MomentCall(w, m, rules);
    BlockedTask(w.queue, j, w.now);
    MomentWrites(w, m, j, rules);
    Unchanged(w.queue, j);
    BlocksOn(w.queue, w.queue, j, w.now, v.now);
    NoWriter(v, m.call, m.after, j);
    BlocksOn(w.queue, m.after.queue, j, w.now, m.after.now);
  }

  lemma BlockedTask(q: Queue, j: Key, now: int)
    requires Blocks(q, j, now)
    ensures j in q.tasks && InPast(q, j, now) && Overdue(q, j, now)
  {
    hide IsOverdue;
  }

  lemma NoWriter(w: World, call: Call, v: World, j: Key)
    requires CellsOk(w.queue) && Blocks(w.queue, j, w.now) && WrittenOrSame(w, call, v, j)
    ensures SameRows(w.queue, v.queue, j)
  {
    hide CellsOk, SameRows, Overdue, HeldBy, IsCancelled, Blocks;
    BlockedTask(w.queue, j, w.now);
    forall worker, generation
      ensures !HeldBy(w.queue, j, worker, generation, w.now)
    {
      NobodyHolds(w.queue, j, worker, generation, w.now);
    }
  }

  // An overdue row in the past never moves again: no call of anybody changes it in any run. And
  // only as many claims can still succeed as there were rows ahead of it.
  lemma BlockedForever(w: World, run: seq<Moment>, j: Key, rules: Rules)
    requires Reachable(w, rules) && IsRun(w, run, rules) && Blocks(w.queue, j, w.now)
    ensures SameRows(w.queue, Last(w, run).queue, j) && GoodClaims(run) <= |Ahead(w.queue, j)|
  {
    hide *;
    ReachableInv(w, rules);
    BlockedFrom(w, run, j, rules);
  }

  lemma {:induction false} BlockedFrom(w: World, run: seq<Moment>, j: Key, rules: Rules)
    requires WorldInv(w, rules) && IsRun(w, run, rules) && Blocks(w.queue, j, w.now)
    ensures SameRows(w.queue, Last(w, run).queue, j) && Blocks(Last(w, run).queue, j, Last(w, run).now)
    ensures Ahead(Last(w, run).queue, j) <= Ahead(w.queue, j)
    ensures |Ahead(Last(w, run).queue, j)| + GoodClaims(run) <= |Ahead(w.queue, j)|
    decreases |run|
  {
    hide WorldInv, IsRun, Happens, Last, Ahead, Blocks, CellOf;
    if run == [] {
      LastOfNone(w);
      BlockedTask(w.queue, j, w.now);
    } else {
      var init, m := run[..|run| - 1], run[|run| - 1];
      assert run == init + [m];
      OneMore(w, init, m, rules);
      RunKeeps(w, init, rules);
      BlockedFrom(w, init, j, rules);
      BlockedTask(Last(w, init).queue, j, Last(w, init).now);
      BlockedStays(Last(w, init), m, j, rules);
      MomentMovesUp(Last(w, init), m, j, rules);
    }
  }

  // Strictly behind: no tie.
  predicate Behind(q: Queue, j: Key, k: Key) {
    j in q.dispatch && k in q.dispatch && NotAfter(q, j, k) && !NotAfter(q, k, j)
  }

  // Never leased: the rows are as they were, unless the task was cancelled.
  predicate Starved(q: Queue, p: Queue, k: Key) {
    SameRows(q, p, k) || IsCancelled(p, k)
  }

  lemma ChoiceIsAhead(q: Queue, choice: Option<Key>, j: Key, k: Key, now: int)
    requires IsChoice(q, choice, now) && Behind(q, j, k) && InPast(q, j, now)
    ensures choice != Some(k)
  {
  }

  lemma StarvingMoment(w: World, m: Moment, j: Key, k: Key, rules: Rules)
    requires WorldInv(w, rules) && Happens(w, m, rules) && Blocks(w.queue, j, w.now) && Waits(w.queue, k, w.now) && Behind(w.queue, j, k)
    ensures SameRows(w.queue, m.after.queue, k) || IsCancelled(m.after.queue, k)
  {
    hide *;
    var v := Tick(w, m.wait);
    TickTables(w, m.wait);
    WorldCells(w, rules);
    MomentCall(w, m, rules);
    WaitsOn(w.queue, k, w.now, w.now);
    BlockedTask(w.queue, j, w.now);
    MomentWrites(w, m, k, rules);
    if m.call.ClaimCall? {
      ChosenHead(v, m.call.worker, m.call.choice);
      Unchanged(w.queue, j);
      BlocksOn(w.queue, w.queue, j, w.now, v.now);
      BlockedTask(w.queue, j, v.now);
      ChoiceIsAhead(v.queue, m.call.choice, j, k, v.now);
    }
    OnlyCancel(v, m.call, m.after, k);
  }

  lemma OnlyCancel(w: World, call: Call, v: World, k: Key)
    requires WrittenOrSame(w, call, v, k) && k in w.queue.tasks && w.queue.tasks[k].state == Queued
    requires call.ClaimCall? ==> call.choice != Some(k)
    ensures SameRows(w.queue, v.queue, k) || IsCancelled(v.queue, k)
  {
    hide SameRows, Overdue, IsCancelled;
  }

  // A task that waits strictly behind an overdue row is never leased in any run: it keeps its
  // rows, or somebody cancels it.
  lemma StarvesForever(w: World, run: seq<Moment>, j: Key, k: Key, rules: Rules)
    requires Reachable(w, rules) && IsRun(w, run, rules)
    requires Blocks(w.queue, j, w.now) && Waits(w.queue, k, w.now) && Behind(w.queue, j, k)
    ensures Starved(w.queue, Last(w, run).queue, k)
  {
    hide *;
    ReachableInv(w, rules);
    StarvesFrom(w, run, j, k, rules);
  }

  lemma {:induction false} StarvesFrom(w: World, run: seq<Moment>, j: Key, k: Key, rules: Rules)
    requires WorldInv(w, rules) && IsRun(w, run, rules)
    requires Blocks(w.queue, j, w.now) && Waits(w.queue, k, w.now) && Behind(w.queue, j, k)
    ensures Starved(w.queue, Last(w, run).queue, k)
    decreases |run|
  {
    hide WorldInv, IsRun, Happens, Last, Blocks, Waits, Behind, SameRows, IsCancelled, Closed;
    if run == [] {
      LastOfNone(w);
      WaitsOn(w.queue, k, w.now, w.now);
      Unchanged(w.queue, k);
    } else {
      var init, m := run[..|run| - 1], run[|run| - 1];
      assert run == init + [m];
      OneMore(w, init, m, rules);
      RunKeeps(w, init, rules);
      RunLater(w, init, rules);
      LaterTables(w, Last(w, init));
      StarvesFrom(w, init, j, k, rules);
      BlockedFrom(w, init, j, rules);
      var u := Last(w, init);
      if IsCancelled(u.queue, k) {
        MomentLater(u, m, rules);
        LaterTables(u, m.after);
        CancelledStays(u.queue, m.after.queue, k);
      } else {
        SameWaits(w.queue, u.queue, j, k, w.now, u.now);
        StarvingMoment(u, m, j, k, rules);
        SameTwice(w.queue, u.queue, m.after.queue, k);
      }
    }
  }

  lemma CancelledStays(q: Queue, p: Queue, k: Key)
    requires QueueLater(q, p) && IsCancelled(q, k)
    ensures IsCancelled(p, k)
  {
    hide QueueLater, SameRows;
    ClosedCell(q, p, k);
    SameTask(q, p, k);
  }

  lemma SameTask(q: Queue, p: Queue, k: Key)
    requires SameRows(q, p, k)
    ensures k in q.tasks && k in p.tasks && p.tasks[k] == q.tasks[k] && (k in p.dispatch <==> k in q.dispatch)
    ensures k in p.dispatch ==> p.dispatch[k] == q.dispatch[k]
  {
    assert CellOf(p, k).task == p.tasks[k] && CellOf(q, k).task == q.tasks[k];
    assert CellOf(p, k).dispatch == CellOf(q, k).dispatch;
  }

  lemma SameTwice(q: Queue, p: Queue, r: Queue, k: Key)
    requires SameRows(q, p, k)
    ensures SameRows(p, r, k) ==> SameRows(q, r, k)
  {
  }

  lemma SameWaits(q: Queue, p: Queue, j: Key, k: Key, now: int, later: int)
    requires SameRows(q, p, j) && SameRows(q, p, k) && now <= later
    ensures Waits(q, k, now) ==> Waits(p, k, later)
    ensures Behind(q, j, k) ==> Behind(p, j, k)
    ensures j in Ahead(q, k) ==> j in Ahead(p, k)
  {
    hide SameRows;
    SameTask(q, p, j);
    SameTask(q, p, k);
  }

  // How a row becomes overdue: a lease was handed out, and 2^31 milliseconds later nobody has
  // touched the task.
  lemma AbandonedLeaseBlocks(w: World, claim: Moment, holder: string, choice: Option<Key>, lease: Lease, run: seq<Moment>, rules: Rules)
    requires Reachable(w, rules) && IsRun(w, [claim] + run, rules)
    requires claim.call == ClaimCall(holder, choice) && claim.outcome == Ok(Granted(Some(lease)))
    requires SameRows(claim.after.queue, Last(claim.after, run).queue, lease.task)
    requires Last(claim.after, run).now >= claim.after.now + 1000 * (MAX_INTEGER + 1)
    ensures Blocks(Last(claim.after, run).queue, lease.task, Last(claim.after, run).now)
  {
    hide *;
    ReachableInv(w, rules);
    WorldCells(w, rules);
    FirstOf(w, claim, run, rules);
    ClaimMoment(w, claim, holder, choice, rules);
    MomentOk(w, claim, Granted(Some(lease)), rules);
    var v := Tick(w, claim.wait);
    TickTables(w, claim.wait);
    CallIs(v, claim.call, rules);
    OnClaimOk(v, ClaimTask(v.queue, holder, choice, v.now), claim.after, Granted(Some(lease)));
    FreshLeaseBlocks(v.queue, holder, choice, v.now, claim.after.queue, lease, Last(claim.after, run).now);
    BlocksOn(claim.after.queue, Last(claim.after, run).queue, lease.task, Last(claim.after, run).now, Last(claim.after, run).now);
  }

  lemma FreshLeaseBlocks(q: Queue, worker: string, choice: Option<Key>, now: int, p: Queue, lease: Lease, later: int)
    requires CellsOk(q) && IsChoice(q, choice, now) && ClaimTask(q, worker, choice, now) == Ok((p, Some(lease)))
    requires later >= now + 1000 * (MAX_INTEGER + 1)
    ensures Blocks(p, lease.task, later)
  {
    hide Coheres, ClaimCell, IsWorker, ClaimTask, CellsOk, Put, IsOverdue, CellOf;
    ClaimExactly(q, worker, choice, now);
    CellCoheres(q, choice.value);
    ClaimCoheres(CellOf(q, choice.value), worker, now);
    var cell := ClaimCell(CellOf(q, choice.value), worker, now).value.0;
    PutIs(q, choice.value, cell);
    FreshLease(CellOf(q, choice.value), worker, now, later);
    PutDispatch(q, choice.value, cell);
  }

  lemma FreshLease(c: Cell, worker: string, now: int, later: int)
    requires ClaimCell(c, worker, now).Ok? && ClaimCell(c, worker, now).value.1
    requires later >= now + 1000 * (MAX_INTEGER + 1)
    ensures IsOverdue(ClaimCell(c, worker, now).value.0, later)
  {
    hide Close, Append;
  }

  // ------------------------------------------------------------------ exactly when claims serve

  predicate ImmediateClaim(m: Moment) {
    m.wait == 0 && m.call.ClaimCall? && IsWorker(m.call.worker)
  }

  predicate ImmediateClaims(run: seq<Moment>) {
    forall i :: 0 <= i < |run| ==> ImmediateClaim(run[i])
  }

  predicate OverdueAhead(q: Queue, k: Key, now: int) {
    exists j :: j in Ahead(q, k) && Overdue(q, j, now)
  }

  // With no overdue row ahead: every immediate claim succeeds, until the task is served.
  ghost predicate ServesOrClaims(w: World, run: seq<Moment>, k: Key) {
    || ServedIn(run, k)
    || (&& Last(w, run).now == w.now && Waits(Last(w, run).queue, k, w.now) && !OverdueAhead(Last(w, run).queue, k, w.now)
        && GoodClaims(run) == |run|)
  }

  lemma {:induction false} ClaimsServe(w: World, run: seq<Moment>, k: Key, rules: Rules)
    requires WorldInv(w, rules) && IsRun(w, run, rules) && Waits(w.queue, k, w.now)
    requires ImmediateClaims(run) && !OverdueAhead(w.queue, k, w.now)
    ensures ServesOrClaims(w, run, k)
    decreases |run|
  {
    hide WorldInv, IsRun, Happens, Last, Ahead, Served, SameRows, Waits, OverdueAhead, ImmediateClaim;
    if run == [] {
      LastOfNone(w);
    } else {
      var init, m := run[..|run| - 1], run[|run| - 1];
      assert run == init + [m];
      assert ImmediateClaim(m);
      forall i | 0 <= i < |init|
        ensures ImmediateClaim(init[i])
      {
        assert init[i] == run[i];
      }
      OneMore(w, init, m, rules);
      RunKeeps(w, init, rules);
      ClaimsServe(w, init, k, rules);
      if ServedIn(init, k) {
        var i :| 0 <= i < |init| && Served(init[i].after.queue, k);
        assert Served(run[i].after.queue, k);
      } else {
        ImmediateParts(m);
        ClaimServes(Last(w, init), m, k, rules);
        assert Served(m.after.queue, k) ==> Served(run[|init|].after.queue, k);
      }
    }
  }

  lemma ImmediateParts(m: Moment)
    requires ImmediateClaim(m)
    ensures m.wait == 0 && m.call.ClaimCall?
    ensures IsWorker(m.call.worker) && m.call == ClaimCall(m.call.worker, m.call.choice)
  {
    hide IsWorker;
  }

  lemma ClaimServes(w: World, m: Moment, k: Key, rules: Rules)
    requires WorldInv(w, rules) && Happens(w, m, rules) && Waits(w.queue, k, w.now) && ImmediateClaim(m) && !OverdueAhead(w.queue, k, w.now)
    ensures m.outcome.Ok? && m.after.now == w.now
    ensures Served(m.after.queue, k) || (Waits(m.after.queue, k, w.now) && !OverdueAhead(m.after.queue, k, w.now))
  {
    hide *;
    ImmediateParts(m);
    ClaimMoment(w, m, m.call.worker, m.call.choice, rules);
    MomentServes(w, m, k, rules);
    WorldCells(w, rules);
    WaitsOn(w.queue, k, w.now, w.now);
    HeadNotOverdue(w.queue, m.call.choice, k, w.now);
    if !Served(m.after.queue, k) {
      var lease :| ClaimTask(w.queue, m.call.worker, m.call.choice, w.now + m.wait) == Ok((m.after.queue, lease));
      NoneOverdue(w.queue, m.call.worker, m.call.choice, k, w.now, m.after.queue, lease);
    }
  }

  lemma HeadNotOverdue(q: Queue, choice: Option<Key>, k: Key, now: int)
    requires IsChoice(q, choice, now) && Waits(q, k, now) && !OverdueAhead(q, k, now)
    ensures forall h :: choice == Some(h) ==> !Overdue(q, h, now)
  {
    hide Ahead;
    SomeoneIsDue(q, choice, k, now);
  }

  // The rows that are still ahead are those that were there, and none of them was written.
  lemma NoneOverdue(q: Queue, worker: string, choice: Option<Key>, k: Key, now: int, p: Queue, lease: Option<Lease>)
    requires CellsOk(q) && IsChoice(q, choice, now) && ClaimTask(q, worker, choice, now) == Ok((p, lease))
    requires Waits(q, k, now) && !OverdueAhead(q, k, now) && SameRows(q, p, k) && Ahead(p, k) <= Ahead(q, k)
    ensures !OverdueAhead(p, k, now)
  {
    hide CellsOk, IsChoice, ClaimTask, IsOverdue, Ahead, SameRows;
    SameTask(q, p, k);
    if OverdueAhead(p, k, now) {
      var j :| j in Ahead(p, k) && Overdue(p, j, now);
      AheadTask(q, j, k);
      ClaimWrites(q, worker, choice, now, p, lease, j);
      if choice == Some(j) {
        LeavesAhead(p, j, k, now);
      } else {
        SameOverdue(q, p, j, now);
      }
      assert false;
    }
  }

  lemma AheadTask(q: Queue, j: Key, k: Key)
    requires CellsOk(q) && j in Ahead(q, k)
    ensures j in q.tasks && j in q.dispatch && j != k
  {
    hide Coheres;
  }

  lemma SameOverdue(q: Queue, p: Queue, j: Key, now: int)
    requires SameRows(q, p, j)
    ensures Overdue(p, j, now) <==> Overdue(q, j, now)
  {
    hide IsOverdue;
  }

  // With an overdue row ahead, claims can go on for ever without serving the task: first the rows
  // before the overdue one, and then every claim raises.
  ghost predicate Starving(w: World, run: seq<Moment>, j: Key, k: Key) {
    && Last(w, run).now == w.now && Waits(Last(w, run).queue, k, w.now) && Blocks(Last(w, run).queue, j, w.now)
    && j in Ahead(Last(w, run).queue, k) && !ServedIn(run, k) && ImmediateClaims(run)
  }

  lemma {:induction false} StarvingRun(w: World, j: Key, k: Key, n: nat, rules: Rules) returns (run: seq<Moment>)
    requires WorldInv(w, rules) && Waits(w.queue, k, w.now) && Blocks(w.queue, j, w.now) && j in Ahead(w.queue, k)
    ensures IsRun(w, run, rules) && |run| == n && Starving(w, run, j, k)
    decreases n
  {
    hide WorldInv, IsRun, Happens, Last, Ahead, Served, SameRows, Waits, Blocks, ImmediateClaim;
    if n == 0 {
      run := [];
      LastOfNone(w);
      NoneIsRun(w, rules);
    } else {
      var init := StarvingRun(w, j, k, n - 1, rules);
      RunKeeps(w, init, rules);
      var m := StarvingClaim(Last(w, init), j, k, rules);
      OneMore(w, init, m, rules);
      run := init + [m];
      forall i | 0 <= i < |run|
        ensures ImmediateClaim(run[i]) && !Served(run[i].after.queue, k)
      {
        if i < |init| {
          assert run[i] == init[i];
          assert !Served(init[i].after.queue, k);
        }
      }
    }
  }

  lemma StarvingClaim(w: World, j: Key, k: Key, rules: Rules) returns (m: Moment)
    requires WorldInv(w, rules) && Waits(w.queue, k, w.now) && Blocks(w.queue, j, w.now) && j in Ahead(w.queue, k)
    ensures Happens(w, m, rules) && ImmediateClaim(m) && m.after.now == w.now
    ensures !Served(m.after.queue, k) && Waits(m.after.queue, k, w.now) && Blocks(m.after.queue, j, w.now) && j in Ahead(m.after.queue, k)
  {
    hide *;
    var h := SomeHead(w.queue, j, k, w.now);
    ProperName();
    ClaimChosen(w, "worker", h);
    m := CanHappen(w, 0, ClaimCall("worker", Some(h)), rules);
    TickTables(w, 0);
    MomentCall(w, m, rules);
    IsImmediate(m, h);
    WaitsOn(w.queue, k, w.now, w.now);
    BlockedStays(w, m, j, rules);
    MomentWrites(w, m, k, rules);
    NotWritten(Tick(w, 0), m.call, m.after, h, k);
    SameWaits(w.queue, m.after.queue, j, k, w.now, w.now);
    NotServed(m.after.queue, k, w.now);
  }

  lemma ProperName()
    ensures IsWorker("worker")
  {
    assert "worker"[0] != ' ';
  }

  lemma IsImmediate(m: Moment, h: Key)
    requires m.wait == 0 && m.call == ClaimCall("worker", Some(h)) && IsWorker("worker")
    ensures ImmediateClaim(m)
  {
    hide IsWorker;
  }

  lemma ClaimChosen(w: World, worker: string, h: Key)
    requires IsHead(w.queue, h, w.now)
    ensures Chosen(Tick(w, 0), ClaimCall(worker, Some(h)))
  {
    hide IsHead;
  }

  lemma NotWritten(w: World, call: Call, v: World, h: Key, k: Key)
    requires WrittenOrSame(w, call, v, k) && call.ClaimCall? && call.choice == Some(h) && h != k
    ensures SameRows(w.queue, v.queue, k)
  {
    hide SameRows, Overdue;
  }

  lemma NotServed(q: Queue, k: Key, now: int)
    requires Waits(q, k, now)
    ensures !Served(q, k)
  {
  }

  // A head other than the waiting task: the overdue row itself, when it is one.
  lemma SomeHead(q: Queue, j: Key, k: Key, now: int) returns (h: Key)
    requires Blocks(q, j, now) && j in Ahead(q, k) && Waits(q, k, now)
    ensures IsHead(q, h, now) && h != k
  {
    hide Overdue;
    var due := set x | x in q.dispatch && IsDue(q, x, now);
    assert j in due;
    h := LeastOf(q, due);
    assert IsHead(q, h, now);
    if h == k {
      h := j;
    }
  }

  lemma {:induction false} LeastOf(q: Queue, keys: set<Key>) returns (h: Key)
    requires keys != {} && keys <= q.dispatch.Keys
    ensures h in keys && forall x :: x in keys ==> NotAfter(q, h, x)
    decreases keys
  {
    var x :| x in keys;
    var rest := keys - {x};
    h := x;
    if rest != {} {
      var least := LeastOf(q, rest);
      h := if NotAfter(q, x, least) then x else least;
    }
    forall y | y in keys
      ensures NotAfter(q, h, y)
    {
      assert y == x || y in rest;
    }
  }

  // Exactly when claiming serves a waiting task: one more immediate claim than there are rows
  // ahead of it always serves it, if and only if none of those rows is overdue now.
  lemma ClaimsServeExactly(w: World, k: Key, rules: Rules)
    requires Reachable(w, rules) && Waits(w.queue, k, w.now)
    ensures (forall run :: IsRun(w, run, rules) && ImmediateClaims(run) && |run| == |Ahead(w.queue, k)| + 1 ==> ServedIn(run, k))
            <==> !OverdueAhead(w.queue, k, w.now)
  {
    hide *;
    ReachableInv(w, rules);
    if OverdueAhead(w.queue, k, w.now) {
      var j := OverdueRow(w.queue, k, w.now);
      var run := StarvingRun(w, j, k, |Ahead(w.queue, k)| + 1, rules);
      StarvingParts(w, run, j, k);
    } else {
      forall run | IsRun(w, run, rules) && ImmediateClaims(run) && |run| == |Ahead(w.queue, k)| + 1
        ensures ServedIn(run, k)
      {
        ClaimsServe(w, run, k, rules);
        if !ServedIn(run, k) {
          AllClaimsGood(w, run, k);
          BoundedOvertaking(w, run, k, rules);
        }
      }
    }
  }

  lemma OverdueRow(q: Queue, k: Key, now: int) returns (j: Key)
    requires OverdueAhead(q, k, now) && Waits(q, k, now)
    ensures j in Ahead(q, k) && Blocks(q, j, now)
  {
    hide Overdue;
    j :| j in Ahead(q, k) && Overdue(q, j, now);
  }

  lemma StarvingParts(w: World, run: seq<Moment>, j: Key, k: Key)
    requires Starving(w, run, j, k)
    ensures ImmediateClaims(run) && !ServedIn(run, k)
  {
    hide ImmediateClaims, ServedIn, Last, Waits, Blocks, Ahead;
  }

  lemma AllClaimsGood(w: World, run: seq<Moment>, k: Key)
    requires ServesOrClaims(w, run, k) && !ServedIn(run, k)
    ensures GoodClaims(run) == |run|
  {
    hide ServedIn, Last, Waits, OverdueAhead, GoodClaims;
  }
}
