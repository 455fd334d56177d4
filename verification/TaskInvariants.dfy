// What every function of the task authority keeps, over all tasks at once.
module TaskInvariants {
  import opened Sql
  import opened TaskLog
  import opened TaskCell
  import opened PlanningOutput
  import opened Idempotency
  import opened Planning
  import opened PlanningInvariants
  import opened PlanningHandoff
  import opened TaskQueue

  // ------------------------------------------------------------------ the invariant

  // Task, dispatch row and event log of every task agree, and its executions are numbered.
  ghost predicate CellsOk(q: Queue) {
    Linked(q) && forall k :: k in q.tasks ==> Coheres(CellOf(q, k))
  }

  // A task is pinned to rows that exist, in its own organization.
  ghost predicate PinsOk(s: Store, q: Queue) {
    forall k :: k in q.tasks ==>
      var pins := q.tasks[k].pins;
      && k.org == pins.caseKey.org == pins.pack.org
      && pins.policy == POLICY && pins.pack in s.packs
      && RevisionKey(pins.caseKey, pins.revision) in s.revisions
  }

  // The partial unique index: one effective task for the same inputs.
  ghost predicate EffectiveOk(q: Queue) {
    forall j, k | j in q.tasks && k in q.tasks && IsEffective(q.tasks[j].state) && IsEffective(q.tasks[k].state) ::
      q.tasks[j].pins == q.tasks[k].pins ==> j == k
  }

  // The run that a task points to was made for exactly the task's inputs and outcome.
  ghost predicate ResultAgrees(s: Store, t: Task) {
    t.result.Some? ==>
      && t.result.value in s.runs
      && var run := s.runs[t.result.value];
         && run.caseKey == t.pins.caseKey && run.revision == t.pins.revision
         && run.pack == t.pins.pack && run.policy == t.pins.policy
         && (match run.state
             case ReviewRequired => t.state == WaitingReview
             case RunBlocked => t.state == Blocked
             case RunFailed => t.state == Failed
             case _ => false)
  }

  ghost predicate ResultsOk(s: Store, q: Queue) {
    && (forall k :: k in q.tasks ==> ResultAgrees(s, q.tasks[k]))
    && (forall j, k | j in q.tasks && k in q.tasks && q.tasks[j].result.Some? ::
          q.tasks[j].result == q.tasks[k].result ==> j == k)
  }

  function CancelledTasks(q: Queue): set<Key> {
    set k | k in q.tasks && q.tasks[k].state == Cancelled
  }

  // Create records stand for the tasks, cancel records for the cancelled ones.
  ghost predicate TaskRecordsOk(s: Store, q: Queue) {
    && Bijective(s.records, TaskCreate, q.tasks.Keys)
    && Bijective(s.records, TaskCancel, CancelledTasks(q))
  }

  ghost predicate QueueInv(s: Store, q: Queue) {
    CellsOk(q) && PinsOk(s, q) && EffectiveOk(q) && ResultsOk(s, q) && TaskRecordsOk(s, q)
  }

  lemma EmptyQueue()
    ensures QueueInv(EMPTY, NO_TASKS)
  {
    hide Coheres;
  }

  // ------------------------------------------------------------------ one task moves

  predicate SamePins(t: Task, u: Task) {
    u.pins == t.pins && u.requestHash == t.requestHash && u.createdBy == t.createdBy
  }

  // An open task moves on: generations never go back, and under one generation the lease stays
  // with the worker it was given to.
  predicate Moves(t: Task, u: Task) {
    && SamePins(t, u) && !IsTerminal(t.state)
    && t.attempts <= u.attempts && t.generation <= u.generation && t.rowVersion <= u.rowVersion
    && (u.generation == t.generation ==> u.owner == t.owner || u.owner == None)
  }

  function StateRank(state: TaskState): nat {
    match state case Leased => 3 case Running => 2 case Queued => 1 case _ => 0
  }

  // Attempts left, then the rank of the state, as one number.
  function Measure(t: Task): int {
    4 * (MAX_ATTEMPTS - t.attempts) + StateRank(t.state)
  }

  predicate MovesDown(t: Task, u: Task) {
    Moves(t, u) && u.rowVersion == t.rowVersion + 1 && Measure(u) < Measure(t)
  }

  lemma CancelMoves(c: Cell, now: int)
    requires Coheres(c) && !IsTerminal(c.task.state) && CancelCell(c, now).Ok?
    ensures MovesDown(c.task, CancelCell(c, now).value.task) && CancelCell(c, now).value.task.state == Cancelled
    ensures CancelCell(c, now).value.task.result == None
  {
    hide Close, Append, LogAgrees;
    AgreementBounds(c);
  }

  lemma ClaimMoves(c: Cell, worker: string, now: int)
    requires Coheres(c) && c.dispatch.Some? && c.dispatch.value <= now && ClaimCell(c, worker, now).Ok?
    ensures var after := ClaimCell(c, worker, now).value.0.task;
            MovesDown(c.task, after) && after.state in {Leased, Failed} && after.result == None
  {
    hide Close, Append, LogAgrees;
    AgreementBounds(c);
  }

  lemma StartMoves(c: Cell, worker: string, generation: Option<nat>, input: Option<string>, now: int)
    requires Coheres(c) && StartCell(c, worker, generation, input, now).Ok?
    ensures var after := StartCell(c, worker, generation, input, now).value.task;
            MovesDown(c.task, after) && after.state == Running && after.result == None
  {
    hide StartRows, Append, LogAgrees, IsSha256;
    AgreementBounds(c);
  }

  lemma HeartbeatMoves(c: Cell, worker: string, generation: Option<nat>, now: int)
    requires Coheres(c) && HeartbeatCell(c, worker, generation, now).Ok?
    ensures var after := HeartbeatCell(c, worker, generation, now).value;
            && Moves(c.task, after.task) && after.task == c.task.(expires := Some(now + LEASE)) && after.task.result == None
            && after == c.(task := after.task, dispatch := Some(now + LEASE))
  {
    hide Append, LogAgrees;
    AgreementBounds(c);
  }

  lemma FailMoves(c: Cell, worker: string, generation: Option<nat>, code: Option<string>, retryable: bool, fallback: Option<bool>, now: int)
    requires Coheres(c) && FailCell(c, worker, generation, code, retryable, fallback, now).Ok?
    ensures var after := FailCell(c, worker, generation, code, retryable, fallback, now).value.task;
            MovesDown(c.task, after) && after.state in {Queued, TimedOut, Blocked, Failed} && after.result == None
  {
    hide CloseFailed, Append, LogAgrees;
    AgreementBounds(c);
  }

  lemma FinalizeMoves(c: Cell, worker: string, generation: Option<nat>, run: Key, state: TaskState, reason: Option<string>, output: Option<string>, now: int)
    requires Coheres(c) && HoldsLease(c.task, worker, generation, now) && state in {WaitingReview, Blocked, Failed}
    requires FinalizeCell(c, generation, run, state, reason, output, now).Ok?
    ensures var after := FinalizeCell(c, generation, run, state, reason, output, now).value.task;
            MovesDown(c.task, after) && after.state == state && after.result == Some(run)
    ensures c.task.result == None
  {
    hide Close, Append, LogAgrees;
    AgreementBounds(c);
  }

  // ------------------------------------------------------------------ one cell is written back

  lemma PutIs(q: Queue, k: Key, c: Cell)
    ensures k in Put(q, k, c).tasks && Put(q, k, c).tasks[k] == c.task && CellOf(Put(q, k, c), k) == c
  {
  }

  lemma PutCell(q: Queue, k: Key, c: Cell, j: Key)
    requires Linked(q) && (j in q.tasks || j == k)
    ensures Linked(Put(q, k, c)) && j in Put(q, k, c).tasks
    ensures CellOf(Put(q, k, c), j) == if j == k then c else CellOf(q, j)
  {
  }

  lemma PutCells(q: Queue, k: Key, c: Cell)
    requires CellsOk(q) && Coheres(c)
    ensures CellsOk(Put(q, k, c))
    ensures CellOf(Put(q, k, c), k) == c
    ensures forall j :: j in q.tasks && j != k ==> CellOf(Put(q, k, c), j) == CellOf(q, j)
  {
    hide Coheres, CellOf, Linked;
    PutCell(q, k, c, k);
    forall j | j in q.tasks && j != k
      ensures CellOf(Put(q, k, c), j) == CellOf(q, j) && Coheres(CellOf(q, j))
    {
      PutCell(q, k, c, j);
    }
  }

  lemma PutPins(s: Store, q: Queue, k: Key, c: Cell)
    requires PinsOk(s, q) && k in q.tasks && SamePins(q.tasks[k], c.task)
    ensures PinsOk(s, Put(q, k, c))
  {
  }

  lemma PutEffective(q: Queue, k: Key, c: Cell)
    requires EffectiveOk(q) && k in q.tasks && SamePins(q.tasks[k], c.task) && !IsTerminal(q.tasks[k].state)
    ensures EffectiveOk(Put(q, k, c))
  {
    assert q.tasks[k].state.Queued? || IsHeld(q.tasks[k].state);
  }

  lemma PutResults(s: Store, q: Queue, k: Key, c: Cell)
    requires ResultsOk(s, q) && k in q.tasks && c.task.result == None
    ensures ResultsOk(s, Put(q, k, c))
  {
  }

  lemma PutRecords(s: Store, q: Queue, k: Key, c: Cell)
    requires TaskRecordsOk(s, q) && k in q.tasks
    requires c.task.state != Cancelled && q.tasks[k].state != Cancelled
    ensures TaskRecordsOk(s, Put(q, k, c))
  {
    hide Bijective;
    assert Put(q, k, c).tasks.Keys == q.tasks.Keys;
    assert CancelledTasks(Put(q, k, c)) == CancelledTasks(q);
  }

  // Writing back a task that moved on without a result and without being cancelled.
  lemma PutKeeps(s: Store, q: Queue, k: Key, c: Cell)
    requires QueueInv(s, q) && k in q.tasks && Coheres(c) && Moves(q.tasks[k], c.task)
    requires c.task.result == None && c.task.state != Cancelled
    ensures QueueInv(s, Put(q, k, c))
  {
    hide CellsOk, PinsOk, EffectiveOk, ResultsOk, TaskRecordsOk, Coheres, Put;
    PutCells(q, k, c);
    PutPins(s, q, k, c);
    PutEffective(q, k, c);
    PutResults(s, q, k, c);
    PutRecords(s, q, k, c);
  }

  // ------------------------------------------------------------------ what the planning side may do

  // Packs, revisions and runs stay; only a run's current flag may change.
  ghost predicate Grows(s: Store, t: Store) {
    && s.packs.Keys <= t.packs.Keys && s.revisions.Keys <= t.revisions.Keys
    && forall r :: r in s.runs ==> r in t.runs && t.runs[r] == s.runs[r].(current := t.runs[r].current)
  }

  lemma GrowthKeeps(s: Store, t: Store, q: Queue)
    requires Grows(s, t) && PinsOk(s, q) && ResultsOk(s, q)
    ensures PinsOk(t, q) && ResultsOk(t, q)
  {
    forall k | k in q.tasks
      ensures ResultAgrees(t, q.tasks[k])
    {
      assert ResultAgrees(s, q.tasks[k]);
    }
  }

  // A record of another operation leaves the task records alone.
  lemma OtherRecord(s: Store, t: Store, q: Queue, k: RecordKey, request: string, response: Key)
    requires TaskRecordsOk(s, q) && k !in s.records && t.records == Insert(s.records, k, request, response)
    requires k.operation != TaskCreate && k.operation != TaskCancel
    ensures TaskRecordsOk(t, q)
  {
    hide Bijective;
    InsertBijective(s.records, k, request, response, TaskCreate, q.tasks.Keys);
    InsertBijective(s.records, k, request, response, TaskCancel, CancelledTasks(q));
  }

  lemma PlanningStepKeeps(s: Store, t: Store, q: Queue)
    requires QueueInv(s, q) && Grows(s, t) && TaskRecordsOk(t, q)
    ensures QueueInv(t, q)
  {
    hide CellsOk, EffectiveOk, TaskRecordsOk, Grows;
    GrowthKeeps(s, t, q);
  }

  // ------------------------------------------------------------------ create

  // In a reachable state only the caller's own inputs decide: the index, the foreign keys and
  // the record table never refuse what the checks let through.
  lemma CreateExactly(s: Store, q: Queue, a: CreateArgs, now: int)
    requires CasesOk(s) && CreateKey(a) !in s.records
    ensures CreateTask(s, q, a, now).Ok? <==>
              && PinsValid(a)
              && Participant(Key(a.org, a.caseId), a.actor, Advisor) in s.participants
              && CaseAt(s, Key(a.org, a.caseId), a.revision, InPlanning) && PinsOf(a).pack in s.packs
              && !HasEffective(q.tasks, PinsOf(a))
              && Key(a.org, a.task) !in q.tasks
    ensures CreateTask(s, q, a, now).Ok? ==>
              var k := Key(a.org, a.task);
              var created := Put(q, k, CreateCell(PinsOf(a), a.request, a.actor, now));
              CreateTask(s, q, a, now).value
              == (s.(records := Insert(s.records, CreateKey(a), a.request, k)), created, TaskReply(k, Some(NewTask(PinsOf(a), a.request, a.actor)), false))
  {
    hide HasEffective, Append;
  }

  lemma CreateKeeps(s: Store, q: Queue, a: CreateArgs, now: int)
    requires Inv(s) && QueueInv(s, q) && CreateKey(a) !in s.records && CreateTask(s, q, a, now).Ok?
    ensures var (t, p, _) := CreateTask(s, q, a, now).value;
            Inv(t) && QueueInv(t, p) && Grows(s, t) && Beside(s, t) && Key(a.org, a.task) !in q.tasks
  {
    hide CreateTask, CreateCell, Put, CellsOk, PinsOk, EffectiveOk, ResultsOk, TaskRecordsOk, Beside;
    hide CasesOk, RunsOk, ChainsOk, ReviewsOk, HandoffOk, BriefsOk, DecisionsOk, EvidenceOk, OutputsOk, RecordsOk, HasEffective, PinsValid, PinnedOk;
    CreateExactly(s, q, a, now);
    var k := Key(a.org, a.task);
    var t := s.(records := Insert(s.records, CreateKey(a), a.request, k));
    var cell := CreateCell(PinsOf(a), a.request, a.actor, now);
    CreateCoheres(PinsOf(a), a.request, a.actor, now);
    PutCells(q, k, cell);
    CreatePins(s, t, q, a, now);
    CreateEffective(q, a, now);
    CreateResults(s, t, q, a, now);
    CreateRecords(s, t, q, a, now);
    TaskRecordKeeps(s, t, CreateKey(a), a.request, k);
  }

  lemma CreatePins(s: Store, t: Store, q: Queue, a: CreateArgs, now: int)
    requires CasesOk(s) && PinsOk(s, q) && PinsValid(a)
    requires CaseAt(s, Key(a.org, a.caseId), a.revision, InPlanning) && PinsOf(a).pack in s.packs
    requires t.packs == s.packs && t.revisions == s.revisions
    ensures PinsOk(t, Put(q, Key(a.org, a.task), CreateCell(PinsOf(a), a.request, a.actor, now)))
  {
    hide Append, IsSha256;
  }

  lemma CreateEffective(q: Queue, a: CreateArgs, now: int)
    requires EffectiveOk(q) && !HasEffective(q.tasks, PinsOf(a)) && Key(a.org, a.task) !in q.tasks
    ensures EffectiveOk(Put(q, Key(a.org, a.task), CreateCell(PinsOf(a), a.request, a.actor, now)))
  {
    hide Append;
  }

  lemma CreateResults(s: Store, t: Store, q: Queue, a: CreateArgs, now: int)
    requires ResultsOk(s, q) && t.runs == s.runs
    ensures ResultsOk(t, Put(q, Key(a.org, a.task), CreateCell(PinsOf(a), a.request, a.actor, now)))
  {
    hide Append;
    forall k | k in q.tasks
      ensures ResultAgrees(t, q.tasks[k])
    {
      assert ResultAgrees(s, q.tasks[k]);
    }
  }

  lemma CreateRecords(s: Store, t: Store, q: Queue, a: CreateArgs, now: int)
    requires TaskRecordsOk(s, q) && CreateKey(a) !in s.records && Key(a.org, a.task) !in q.tasks
    requires t.records == Insert(s.records, CreateKey(a), a.request, Key(a.org, a.task))
    ensures TaskRecordsOk(t, Put(q, Key(a.org, a.task), CreateCell(PinsOf(a), a.request, a.actor, now)))
  {
    hide Append, Bijective;
    var k := Key(a.org, a.task);
    var p := Put(q, k, CreateCell(PinsOf(a), a.request, a.actor, now));
    InsertBijective(s.records, CreateKey(a), a.request, k, TaskCreate, q.tasks.Keys);
    InsertBijective(s.records, CreateKey(a), a.request, k, TaskCancel, CancelledTasks(q));
    assert p.tasks.Keys == q.tasks.Keys + {k};
    assert CancelledTasks(p) == CancelledTasks(q);
  }

  // A task record changes nothing that the planning invariant reads.
  lemma TaskRecordKeeps(s: Store, t: Store, k: RecordKey, request: string, response: Key)
    requires Inv(s) && k !in s.records && k.operation != AdvisorReview && k.operation != FamilyDecision
    requires t == s.(records := Insert(s.records, k, request, response))
    ensures Inv(t) && Beside(s, t) && Grows(s, t)
  {
    hide RunsOk, ChainsOk, ReviewsOk, HandoffOk, BriefsOk, DecisionsOk, EvidenceOk, OutputsOk, Bijective, Beside, PinnedOk;
    InsertBijective(s.records, k, request, response, AdvisorReview, s.reviews.Keys);
    InsertBijective(s.records, k, request, response, FamilyDecision, s.decisions.Keys);
    GrowthBeside(s, t);
    CasesFrame(s, t);
    EvidenceUntouched(s, t);
    BesideInv(s, t);
  }

  lemma EvidenceUntouched(s: Store, t: Store)
    requires EvidenceOk(s) && t.packs == s.packs && t.entries == s.entries && t.evidence == s.evidence
    ensures EvidenceOk(t)
  {
    hide Provenance;
  }

  // ------------------------------------------------------------------ cancel

  // A first cancel succeeds exactly when its target is current and open, and its last execution can
  // be closed.
  lemma CancelExactly(s: Store, q: Queue, a: CancelArgs, now: int)
    requires CellsOk(q) && CancelKey(a) !in s.records
    ensures CancelTask(s, q, a, now).Ok? <==>
              && Key(a.org, a.task) in q.tasks
              && Participant(q.tasks[Key(a.org, a.task)].pins.caseKey, a.actor, Advisor) in s.participants
              && IsExpected(q.tasks[Key(a.org, a.task)], a.expected) && !IsTerminal(q.tasks[Key(a.org, a.task)].state)
              && !Unclosable(CellOf(q, Key(a.org, a.task)), now)
              && |a.key| == 64 && |a.request| == 64
    ensures CancelTask(s, q, a, now).Ok? ==>
              var k := Key(a.org, a.task);
              && CancelCell(CellOf(q, k), now).Ok?
              && CancelTask(s, q, a, now).value.0 == s.(records := Insert(s.records, CancelKey(a), a.request, k))
              && CancelTask(s, q, a, now).value.1 == Put(q, k, CancelCell(CellOf(q, k), now).value)
              && CancelTask(s, q, a, now).value.2.id == k
  {
    hide CancelCell, Coheres, IsTerminal, Unclosable, CellsOk, CellOf, Put;
    var k := Key(a.org, a.task);
    if k in q.tasks && !IsTerminal(q.tasks[k].state) {
      CellCoheres(q, k);
      CancelCoheres(CellOf(q, k), now);
    }
  }

  lemma CancelKeeps(s: Store, q: Queue, a: CancelArgs, now: int)
    requires Inv(s) && QueueInv(s, q) && CancelKey(a) !in s.records && CancelTask(s, q, a, now).Ok?
    ensures var (t, p, _) := CancelTask(s, q, a, now).value;
            Inv(t) && QueueInv(t, p) && Grows(s, t) && Beside(s, t)
  {
    hide CancelTask, CancelCell, Put, CellsOk, PinsOk, EffectiveOk, ResultsOk, TaskRecordsOk, Coheres, Inv, Beside, Grows, Unclosable;
    CancelExactly(s, q, a, now);
    var k := Key(a.org, a.task);
    var t := s.(records := Insert(s.records, CancelKey(a), a.request, k));
    CellCoheres(q, k);
    CancelCoheres(CellOf(q, k), now);
    CancelMoves(CellOf(q, k), now);
    var c := CancelCell(CellOf(q, k), now).value;
    PutCells(q, k, c);
    PutPins(s, q, k, c);
    PutEffective(q, k, c);
    PutResults(s, q, k, c);
    TaskRecordKeeps(s, t, CancelKey(a), a.request, k);
    GrowthKeeps(s, t, Put(q, k, c));
    CancelRecords(s, t, q, a, c);
  }

  lemma CellCoheres(q: Queue, k: Key)
    requires CellsOk(q) && k in q.tasks
    ensures Coheres(CellOf(q, k)) && CellOf(q, k).task == q.tasks[k]
  {
    hide Coheres;
  }

  lemma CancelRecords(s: Store, t: Store, q: Queue, a: CancelArgs, c: Cell)
    requires TaskRecordsOk(s, q) && CancelKey(a) !in s.records && Key(a.org, a.task) in q.tasks
    requires !IsTerminal(q.tasks[Key(a.org, a.task)].state) && c.task.state == Cancelled
    requires t.records == Insert(s.records, CancelKey(a), a.request, Key(a.org, a.task))
    ensures TaskRecordsOk(t, Put(q, Key(a.org, a.task), c))
  {
    hide Bijective;
    var k := Key(a.org, a.task);
    InsertBijective(s.records, CancelKey(a), a.request, k, TaskCreate, q.tasks.Keys);
    InsertBijective(s.records, CancelKey(a), a.request, k, TaskCancel, CancelledTasks(q));
    assert Put(q, k, c).tasks.Keys == q.tasks.Keys;
    assert CancelledTasks(Put(q, k, c)) == CancelledTasks(q) + {k};
  }

  // ------------------------------------------------------------------ claim and the worker's calls

  // A claim raises exactly for a bad worker name or an overdue head; otherwise it hands out a
  // lease or closes an exhausted task, and the head leaves the due rows.
  lemma ClaimExactly(q: Queue, worker: string, choice: Option<Key>, now: int)
    requires CellsOk(q) && IsChoice(q, choice, now)
    ensures ClaimTask(q, worker, choice, now).Err? <==>
              !IsWorker(worker) || (choice.Some? && choice.value in q.tasks && IsOverdue(CellOf(q, choice.value), now))
    ensures ClaimTask(q, worker, choice, now).Ok? && choice.None? ==> ClaimTask(q, worker, choice, now).value == (q, None)
    ensures ClaimTask(q, worker, choice, now).Ok? && choice.Some? ==>
              && choice.value in q.tasks
              && CellOf(q, choice.value).dispatch == Some(q.dispatch[choice.value]) && q.dispatch[choice.value] <= now
              && ClaimCell(CellOf(q, choice.value), worker, now).Ok?
              && var (cell, leased) := ClaimCell(CellOf(q, choice.value), worker, now).value;
                 && ClaimTask(q, worker, choice, now).value
                    == (Put(q, choice.value, cell), if leased then Some(Lease(choice.value, cell.task.generation)) else None)
                 && (leased <==> q.tasks[choice.value].attempts < MAX_ATTEMPTS)
                 && cell.dispatch == if leased then Some(now + LEASE) else None
  {
    hide Coheres, ClaimCell, IsOverdue, IsWorker;
    if choice.Some? {
      CellCoheres(q, choice.value);
      ClaimCoheres(CellOf(q, choice.value), worker, now);
    }
  }

  lemma ClaimKeeps(s: Store, q: Queue, worker: string, choice: Option<Key>, now: int)
    requires QueueInv(s, q) && IsChoice(q, choice, now) && ClaimTask(q, worker, choice, now).Ok?
    ensures QueueInv(s, ClaimTask(q, worker, choice, now).value.0)
  {
    hide QueueInv, ClaimTask, ClaimCell, IsChoice, Put, Coheres, IsOverdue, IsWorker;
    assert CellsOk(q) by { QueueCells(s, q); }
    ClaimExactly(q, worker, choice, now);
    if choice.Some? {
      CellCoheres(q, choice.value);
      ClaimCoheres(CellOf(q, choice.value), worker, now);
      ClaimMoves(CellOf(q, choice.value), worker, now);
      PutKeeps(s, q, choice.value, ClaimCell(CellOf(q, choice.value), worker, now).value.0);
    }
  }

  lemma QueueCells(s: Store, q: Queue)
    requires QueueInv(s, q)
    ensures CellsOk(q)
  {
  }

  lemma StartKeeps(s: Store, q: Queue, k: Key, worker: string, generation: Option<nat>, input: Option<string>, now: int)
    requires QueueInv(s, q) && StartTask(q, k, worker, generation, input, now).Ok?
    ensures QueueInv(s, StartTask(q, k, worker, generation, input, now).value)
  {
    hide QueueInv, StartCell, Put, Coheres;
    QueueCells(s, q);
    CellCoheres(q, k);
    StartCoheres(CellOf(q, k), worker, generation, input, now);
    StartMoves(CellOf(q, k), worker, generation, input, now);
    PutKeeps(s, q, k, StartCell(CellOf(q, k), worker, generation, input, now).value);
  }

  lemma HeartbeatKeeps(s: Store, q: Queue, k: Key, worker: string, generation: Option<nat>, now: int)
    requires QueueInv(s, q) && HeartbeatTask(q, k, worker, generation, now).Ok?
    ensures QueueInv(s, HeartbeatTask(q, k, worker, generation, now).value)
  {
    hide QueueInv, HeartbeatCell, Put, Coheres;
    QueueCells(s, q);
    CellCoheres(q, k);
    HeartbeatCoheres(CellOf(q, k), worker, generation, now);
    HeartbeatMoves(CellOf(q, k), worker, generation, now);
    PutKeeps(s, q, k, HeartbeatCell(CellOf(q, k), worker, generation, now).value);
  }

  lemma FailKeeps(s: Store, q: Queue, k: Key, worker: string, generation: Option<nat>, code: Option<string>, retryable: bool, fallback: Option<bool>, now: int)
    requires QueueInv(s, q) && FailTask(q, k, worker, generation, code, retryable, fallback, now).Ok?
    ensures QueueInv(s, FailTask(q, k, worker, generation, code, retryable, fallback, now).value)
  {
    hide QueueInv, FailCell, Put, Coheres;
    QueueCells(s, q);
    CellCoheres(q, k);
    FailCoheres(CellOf(q, k), worker, generation, code, retryable, fallback, now);
    FailMoves(CellOf(q, k), worker, generation, code, retryable, fallback, now);
    PutKeeps(s, q, k, FailCell(CellOf(q, k), worker, generation, code, retryable, fallback, now).value);
  }

  // ------------------------------------------------------------------ finalize

  // A finalize succeeds exactly under a live lease, for a result that planning accepts, while
  // the execution's duration still fits, which is not looked at under a NULL generation. In
  // particular a case that has left planning, or has a newer revision, makes it change nothing.
  lemma FinalizeExactly(s: Store, q: Queue, a: FinalizeArgs, now: int)
    requires RunsOk(s) && CellsOk(q)
    ensures FinalizeTask(s, q, a, now).Ok? <==>
              && Key(a.org, a.task) in q.tasks
              && HoldsLease(q.tasks[Key(a.org, a.task)], a.worker, a.generation, now)
              && Persistable(s, ResultArgs(a, q.tasks[Key(a.org, a.task)].pins))
              && (a.generation.Some? ==> !IsOverdue(CellOf(q, Key(a.org, a.task)), now))
    ensures FinalizeTask(s, q, a, now).Ok? ==>
              var k := Key(a.org, a.task);
              var stored := PersistResult(s, ResultArgs(a, q.tasks[k].pins));
              var closed := FinalizeCell(CellOf(q, k), a.generation, Key(a.org, a.run), ClosingState(a.target), a.reason, a.outputHash, now);
              IsTerminalRun(a.target) && stored.Ok? && closed.Ok? && FinalizeTask(s, q, a, now).value == (stored.value, Put(q, k, closed.value))
  {
    hide RunsOk, CellsOk, PersistResult, FinalizeCell, Put, HoldsLease, Coheres, IsOverdue, CaseAt;
    var k := Key(a.org, a.task);
    if k in q.tasks && HoldsLease(q.tasks[k], a.worker, a.generation, now) {
      PersistExactly(s, ResultArgs(a, q.tasks[k].pins));
      CellCoheres(q, k);
      FinalizeCoheres(CellOf(q, k), a.worker, a.generation, Key(a.org, a.run), ClosingState(a.target), a.reason, a.outputHash, now);
    }
  }

  lemma FinalizeKeeps(s: Store, q: Queue, a: FinalizeArgs, now: int)
    requires Inv(s) && QueueInv(s, q) && FinalizeTask(s, q, a, now).Ok?
    ensures var (t, p) := FinalizeTask(s, q, a, now).value; Inv(t) && QueueInv(t, p) && Grows(s, t)
  {
    hide Inv, CellsOk, PinsOk, EffectiveOk, ResultsOk, TaskRecordsOk, PersistResult, FinalizeCell, Put, HoldsLease, Coheres, IsOverdue;
    hide Persistable, Persisted, Grows, FinalizeTask, IsTerminalRun, CellOf, RunsOk;
    assert RunsOk(s) by { InvParts(s); }
    FinalizeExactly(s, q, a, now);
    var k := Key(a.org, a.task);
    var pins := q.tasks[k].pins;
    var args := ResultArgs(a, pins);
    var state := ClosingState(a.target);
    PersistKeeps(s, args);
    var t := PersistResult(s, args).value;
    PersistedGrows(s, args, t);
    CellCoheres(q, k);
    FinalizeCoheres(CellOf(q, k), a.worker, a.generation, Key(a.org, a.run), state, a.reason, a.outputHash, now);
    FinalizeMoves(CellOf(q, k), a.worker, a.generation, Key(a.org, a.run), state, a.reason, a.outputHash, now);
    var c := FinalizeCell(CellOf(q, k), a.generation, Key(a.org, a.run), state, a.reason, a.outputHash, now).value;
    PutCells(q, k, c);
    PutPins(s, q, k, c);
    PutEffective(q, k, c);
    PinsGrow(s, t, Put(q, k, c));
    FinalizeResults(s, t, q, a, c);
    FinalizeRecords(s, t, q, k, c, args);
  }

  lemma PersistedGrows(s: Store, args: PersistArgs, t: Store)
    requires Persisted(s, args, t)
    ensures Grows(s, t)
  {
    hide RunsStep;
    StepKeeps(s.runs, args, t.runs);
  }

  lemma PinsGrow(s: Store, t: Store, q: Queue)
    requires Grows(s, t) && PinsOk(s, q)
    ensures PinsOk(t, q)
  {
  }

  lemma FinalizeRecords(s: Store, t: Store, q: Queue, k: Key, c: Cell, args: PersistArgs)
    requires TaskRecordsOk(s, q) && k in q.tasks && Persisted(s, args, t)
    requires c.task.state != Cancelled && q.tasks[k].state != Cancelled
    ensures TaskRecordsOk(t, Put(q, k, c))
  {
    hide Put, CancelledTasks, RunsStep, Bijective;
    PutRecords(s, q, k, c);
  }

  // The new run is nobody else's result, and repeats the task's pins.
  lemma FinalizeResults(s: Store, t: Store, q: Queue, a: FinalizeArgs, c: Cell)
    requires Key(a.org, a.task) in q.tasks && PinsOk(s, q) && ResultsOk(s, q)
    requires Persisted(s, ResultArgs(a, q.tasks[Key(a.org, a.task)].pins), t) && Grows(s, t)
    requires SamePins(q.tasks[Key(a.org, a.task)], c.task) && c.task.state == ClosingState(a.target) && c.task.result == Some(Key(a.org, a.run))
    ensures ResultsOk(t, Put(q, Key(a.org, a.task), c))
  {
    hide PinsOk, ResultAgrees, Grows, RunsStep;
    var k := Key(a.org, a.task);
    NewResult(s, t, q, a, c);
    forall j | j in q.tasks
      ensures ResultAgrees(t, q.tasks[j]) && (q.tasks[j].result.Some? ==> q.tasks[j].result != c.task.result)
    {
      OldResult(s, t, q.tasks[j], ResultArgs(a, q.tasks[k].pins));
    }
  }

  lemma NewResult(s: Store, t: Store, q: Queue, a: FinalizeArgs, c: Cell)
    requires Key(a.org, a.task) in q.tasks && PinsOk(s, q)
    requires Persisted(s, ResultArgs(a, q.tasks[Key(a.org, a.task)].pins), t)
    requires SamePins(q.tasks[Key(a.org, a.task)], c.task) && c.task.state == ClosingState(a.target) && c.task.result == Some(Key(a.org, a.run))
    ensures ResultAgrees(t, c.task)
  {
  }

  lemma OldResult(s: Store, t: Store, u: Task, args: PersistArgs)
    requires ResultAgrees(s, u) && Grows(s, t) && Persisted(s, args, t)
    ensures ResultAgrees(t, u)
    ensures u.result.Some? ==> u.result.value != RunOf(args)
  {
  }

  // ------------------------------------------------------------------ a NULL generation

  // The four tables of every task agree, executions and all.
  ghost predicate AllAgree(q: Queue) {
    Linked(q) && forall k :: k in q.tasks ==> Agrees(CellOf(q, k))
  }

  lemma AgreementCoheres(q: Queue)
    requires AllAgree(q)
    ensures CellsOk(q) && Linked(q)
  {
    hide Coheres, CellOf, ExecutionsAgree, Audited;
  }

  lemma CellAgrees(q: Queue, k: Key)
    requires AllAgree(q) && k in q.tasks
    ensures Agrees(CellOf(q, k)) && CellOf(q, k).task == q.tasks[k]
  {
    hide Agrees;
  }

  lemma PutNeedsAgreement(q: Queue, k: Key, c: Cell)
    requires AllAgree(q)
    ensures AllAgree(Put(q, k, c)) <==> Agrees(c)
  {
    hide Agrees, CellOf, Linked, Put;
    PutIs(q, k, c);
    PutLinked(q, k, c);
    if AllAgree(Put(q, k, c)) {
      CellAgrees(Put(q, k, c), k);
    }
    if Agrees(c) {
      forall j | j in Put(q, k, c).tasks
        ensures Agrees(CellOf(Put(q, k, c), j))
      {
        PutTasks(q, k, c, j);
        PutCell(q, k, c, j);
      }
    }
  }

  lemma PutTasks(q: Queue, k: Key, c: Cell, j: Key)
    ensures j in Put(q, k, c).tasks <==> j in q.tasks || j == k
  {
  }

  // The fences of start, fail and finalize let a NULL generation pass. The four tables agree after
  // a successful call exactly when it named its generation.
  lemma StartKeepsExactly(q: Queue, k: Key, worker: string, generation: Option<nat>, input: Option<string>, now: int)
    requires AllAgree(q) && StartTask(q, k, worker, generation, input, now).Ok?
    ensures AllAgree(StartTask(q, k, worker, generation, input, now).value) <==> generation.Some?
  {
    hide AllAgree, Agrees, StartCell, Put, IsSha256;
    CellAgrees(q, k);
    StartNeedsGeneration(CellOf(q, k), worker, generation, input, now);
    PutNeedsAgreement(q, k, StartCell(CellOf(q, k), worker, generation, input, now).value);
  }

  lemma FailKeepsExactly(q: Queue, k: Key, worker: string, generation: Option<nat>, code: Option<string>, retryable: bool, fallback: Option<bool>, now: int)
    requires AllAgree(q) && FailTask(q, k, worker, generation, code, retryable, fallback, now).Ok?
    ensures AllAgree(FailTask(q, k, worker, generation, code, retryable, fallback, now).value) <==> generation.Some?
  {
    hide AllAgree, Agrees, FailCell, Put;
    CellAgrees(q, k);
    FailNeedsGeneration(CellOf(q, k), worker, generation, code, retryable, fallback, now);
    PutNeedsAgreement(q, k, FailCell(CellOf(q, k), worker, generation, code, retryable, fallback, now).value);
  }

  lemma FinalizeKeepsExactly(s: Store, q: Queue, a: FinalizeArgs, now: int)
    requires RunsOk(s) && AllAgree(q) && FinalizeTask(s, q, a, now).Ok?
    ensures AllAgree(FinalizeTask(s, q, a, now).value.1) <==> a.generation.Some?
  {
    hide RunsOk, CellsOk, AllAgree, Agrees, FinalizeTask, FinalizeCell, Put, PersistResult, HoldsLease, Persistable, IsOverdue;
    AgreementCoheres(q);
    FinalizeExactly(s, q, a, now);
    var k := Key(a.org, a.task);
    CellAgrees(q, k);
    FinalizeNeedsGeneration(CellOf(q, k), a.worker, a.generation, Key(a.org, a.run), ClosingState(a.target), a.reason, a.outputHash, now);
    PutNeedsAgreement(q, k, FinalizeCell(CellOf(q, k), a.generation, Key(a.org, a.run), ClosingState(a.target), a.reason, a.outputHash, now).value);
  }
}
