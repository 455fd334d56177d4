// The lease protocol over all tasks: four tables, and the functions of the task authority.
module TaskQueue {
  import opened Sql
  import opened TaskLog
  import opened TaskCell
  import opened PlanningOutput
  import opened Idempotency
  import opened Planning

  // Execution rows and event rows are grouped by their task.
  datatype Queue = Queue(
    tasks: map<Key, Task>,
    executions: map<Key, seq<Execution>>,
    events: map<Key, seq<Event>>,
    dispatch: map<Key, int>)

  const NO_TASKS := Queue(map[], map[], map[], map[])

  // The foreign keys of the three dependent tables: every group belongs to a task.
  predicate Linked(q: Queue) {
    q.executions.Keys == q.tasks.Keys && q.events.Keys == q.tasks.Keys && q.dispatch.Keys <= q.tasks.Keys
  }

  function RowsOf<T>(rows: map<Key, seq<T>>, k: Key): seq<T> {
    if k in rows then rows[k] else []
  }

  function CellOf(q: Queue, k: Key): Cell
    requires k in q.tasks
  {
    Cell(q.tasks[k], RowsOf(q.executions, k), RowsOf(q.events, k), if k in q.dispatch then Some(q.dispatch[k]) else None)
  }

  function Put(q: Queue, k: Key, c: Cell): Queue {
    Queue(
      q.tasks[k := c.task],
      q.executions[k := c.executions],
      q.events[k := c.events],
      if c.dispatch.Some? then q.dispatch[k := c.dispatch.value] else q.dispatch - {k})
  }

  lemma PutLinked(q: Queue, k: Key, c: Cell)
    requires Linked(q)
    ensures Linked(Put(q, k, c))
  {
  }

  function PutResult(q: Queue, k: Key, r: Result<Cell>): Result<Queue> {
    match r case Err(e) => Err(e) case Ok(c) => Ok(Put(q, k, c))
  }

  // ------------------------------------------------------------------ create

  const POLICY := "m3a-policy-v1"

  // What create and cancel answer: the task's row as it is after the call.
  datatype TaskReply = TaskReply(id: Key, row: Option<Task>, replayed: bool)

  function RowReply(q: Queue, k: Key, replayed: bool): TaskReply {
    TaskReply(k, if k in q.tasks then Some(q.tasks[k]) else None, replayed)
  }

  datatype CreateArgs = CreateArgs(
    org: nat, actor: nat, caseId: nat, task: nat, revision: int, pack: nat, packVersion: int,
    policy: string, request: string, key: string)

  function CreateKey(a: CreateArgs): RecordKey { RecordKey(a.org, a.actor, TaskCreate, a.key) }

  function PinsOf(a: CreateArgs): Pins {
    Pins(Key(a.org, a.caseId), a.revision, PackKey(a.org, a.pack, a.packVersion), a.policy)
  }

  predicate HasEffective(tasks: map<Key, Task>, pins: Pins) {
    exists k :: k in tasks && tasks[k].pins == pins && IsEffective(tasks[k].state)
  }

  predicate PinsValid(a: CreateArgs) {
    a.policy == POLICY && a.revision > 0 && a.packVersion > 0 && IsSha256(a.request) && IsSha256(a.key)
  }

  function CreateTask(s: Store, q: Queue, a: CreateArgs, now: int): Result<(Store, Queue, TaskReply)> {
    var c, k, pins := Key(a.org, a.caseId), Key(a.org, a.task), PinsOf(a);
    match Lookup(s.records, CreateKey(a), a.request)
    case Mismatch => Err(NV008)
    case Replayed(reply) => Ok((s, q, RowReply(q, reply.id, true)))
    case Fresh =>
      if !PinsValid(a) then Err(NV006)
      else if Participant(c, a.actor, Advisor) !in s.participants then Err(NV007)
      else if !CaseAt(s, c, a.revision, InPlanning) || pins.pack !in s.packs then Err(NV003)
      else if HasEffective(q.tasks, pins) then Err(NV009)
      else if k in q.tasks then Err(UniqueViolation)
      else if RevisionKey(c, a.revision) !in s.revisions then Err(ForeignKeyViolation)
      else
        var created := Put(q, k, CreateCell(pins, a.request, a.actor, now));
        if !Insertable(s.records, CreateKey(a), a.request) then Err(CheckViolation)
        else Ok((s.(records := Insert(s.records, CreateKey(a), a.request, k)), created, RowReply(created, k, false)))
  }

  // ------------------------------------------------------------------ cancel

  datatype CancelArgs = CancelArgs(org: nat, actor: nat, task: nat, expected: Option<int>, request: string, key: string)

  function CancelKey(a: CancelArgs): RecordKey { RecordKey(a.org, a.actor, TaskCancel, a.key) }

  // A NULL expectation skips the version test.
  predicate IsExpected(t: Task, expected: Option<int>) {
    expected.Some? ==> t.rowVersion == expected.value
  }

  function CancelTask(s: Store, q: Queue, a: CancelArgs, now: int): Result<(Store, Queue, TaskReply)> {
    var k := Key(a.org, a.task);
    match Lookup(s.records, CancelKey(a), a.request)
    case Mismatch => Err(NV008)
    case Replayed(reply) => Ok((s, q, RowReply(q, reply.id, true)))
    case Fresh =>
      if k !in q.tasks || Participant(q.tasks[k].pins.caseKey, a.actor, Advisor) !in s.participants then Err(NV007)
      else if !IsExpected(q.tasks[k], a.expected) || IsTerminal(q.tasks[k].state) then Err(NV003)
      else match CancelCell(CellOf(q, k), now)
        case Err(e) => Err(e)
        case Ok(cell) =>
          var cancelled := Put(q, k, cell);
          if !Insertable(s.records, CancelKey(a), a.request) then Err(CheckViolation)
          else Ok((s.(records := Insert(s.records, CancelKey(a), a.request, k)), cancelled, RowReply(cancelled, k, false)))
  }

  // ------------------------------------------------------------------ claim

  // The order of the dispatch rows. Rows of two organizations can tie.
  predicate NotAfter(q: Queue, j: Key, k: Key)
    requires j in q.dispatch && k in q.dispatch
  {
    q.dispatch[j] < q.dispatch[k] || (q.dispatch[j] == q.dispatch[k] && j.id <= k.id)
  }

  predicate IsDue(q: Queue, k: Key, now: int) {
    k in q.dispatch && q.dispatch[k] <= now
  }

  // A row that ORDER BY available_at, task_id LIMIT 1 can return.
  predicate IsHead(q: Queue, k: Key, now: int) {
    IsDue(q, k, now) && forall j :: j in q.dispatch && IsDue(q, j, now) ==> NotAfter(q, k, j)
  }

  predicate IsChoice(q: Queue, choice: Option<Key>, now: int) {
    if choice.Some? then IsHead(q, choice.value, now) else forall j :: j in q.dispatch ==> !IsDue(q, j, now)
  }

  predicate IsWorker(worker: string) {
    !IsBlank(worker) && |worker| <= 200
  }

  datatype Lease = Lease(task: Key, generation: nat)

  function ClaimTask(q: Queue, worker: string, choice: Option<Key>, now: int): Result<(Queue, Option<Lease>)> {
    if !IsWorker(worker) then Err(NV006)
    else match choice
      case None => Ok((q, None))
      case Some(k) =>
        if k !in q.tasks then Ok((q.(dispatch := q.dispatch - {k}), None))
        else match ClaimCell(CellOf(q, k), worker, now)
          case Err(e) => Err(e)
          case Ok((cell, leased)) =>
            Ok((Put(q, k, cell), if leased then Some(Lease(k, cell.task.generation)) else None))
  }

  // ------------------------------------------------------------------ the worker's calls

  function StartTask(q: Queue, k: Key, worker: string, generation: Option<nat>, input: Option<string>, now: int): Result<Queue> {
    if input.Some? && !IsSha256(input.value) then Err(NV006)
    else if k !in q.tasks then Err(NV010)
    else PutResult(q, k, StartCell(CellOf(q, k), worker, generation, input, now))
  }

  function HeartbeatTask(q: Queue, k: Key, worker: string, generation: Option<nat>, now: int): Result<Queue> {
    if k !in q.tasks then Err(NV010)
    else PutResult(q, k, HeartbeatCell(CellOf(q, k), worker, generation, now))
  }

  function FailTask(q: Queue, k: Key, worker: string, generation: Option<nat>, code: Option<string>, retryable: bool, fallback: Option<bool>, now: int): Result<Queue> {
    if fallback != IsFallback(code) then Err(NV006)
    else if k !in q.tasks then Err(NV010)
    else PutResult(q, k, FailCell(CellOf(q, k), worker, generation, code, retryable, fallback, now))
  }

  datatype FinalizeArgs = FinalizeArgs(
    org: nat, task: nat, worker: string, generation: Option<nat>, run: nat, evidenceHash: string, target: RunState,
    reason: Option<string>, outputHash: Option<string>, output: Output, supersedes: Option<nat>)

  // The planning result under the task's own pins.
  function ResultArgs(a: FinalizeArgs, pins: Pins): PersistArgs {
    PersistArgs(a.org, a.run, pins.caseKey.id, pins.revision, pins.pack, pins.policy, a.evidenceHash,
                a.target, a.reason, a.outputHash, a.supersedes, a.output)
  }

  function ClosingState(target: RunState): TaskState {
    match target case ReviewRequired => WaitingReview case RunBlocked => Blocked case _ => Failed
  }

  function FinalizeTask(s: Store, q: Queue, a: FinalizeArgs, now: int): Result<(Store, Queue)> {
    var k := Key(a.org, a.task);
    if k !in q.tasks || !HoldsLease(q.tasks[k], a.worker, a.generation, now) then Err(NV010)
    else if !IsTerminalRun(a.target) then Err(NV006)
    else match PersistResult(s, ResultArgs(a, q.tasks[k].pins))
      case Err(e) => Err(e)
      case Ok(stored) =>
        match FinalizeCell(CellOf(q, k), a.generation, Key(a.org, a.run), ClosingState(a.target), a.reason, a.outputHash, now)
        case Err(e) => Err(e)
        case Ok(cell) => Ok((stored, Put(q, k, cell)))
  }
}
