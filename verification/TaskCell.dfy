// All rows of one task: the task row, its executions, its event log and its dispatch row, and
// what each function of the lease protocol does to them. Time is in microseconds.
module TaskCell {
  import opened Sql
  import opened TaskLog

  const LEASE := 60_000_000

  // The inputs a task is pinned to.
  datatype Pins = Pins(caseKey: Key, revision: int, pack: PackKey, policy: string)

  datatype Task = Task(
    pins: Pins,
    requestHash: string,
    createdBy: nat,
    rowVersion: nat,
    state: TaskState,
    attempts: nat,
    owner: Option<string>,
    generation: nat,
    expires: Option<int>,
    result: Option<Key>,
    code: Option<string>)

  datatype ExecutionStatus =
    XLeased | XRunning | XSucceeded | XRetryScheduled | XBlocked | XTimedOut | XFailed | XCancelled

  datatype Execution = Execution(
    attempt: nat,
    generation: nat,
    status: ExecutionStatus,
    retryable: bool,
    fallback: bool,
    input: Option<string>,
    output: Option<string>,
    result: Option<Key>,
    publicCode: Option<string>,
    durationMs: Option<nat>,
    startedAt: Option<int>,
    finishedAt: Option<int>,
    createdAt: int)

  predicate IsOpen(e: Execution) {
    e.status == XLeased || e.status == XRunning
  }

  datatype Cell = Cell(task: Task, executions: seq<Execution>, events: seq<Event>, dispatch: Option<int>)

  predicate IsHeld(state: TaskState) {
    state == Leased || state == Running
  }

  // ------------------------------------------------------------------ closing an execution

  function StartOf(e: Execution): int {
    if e.startedAt.Some? then e.startedAt.value else e.createdAt
  }

  // Whole milliseconds since the execution began, before the cast to a 32-bit column.
  function Elapsed(e: Execution, now: int): int {
    (now - StartOf(e)) / 1000
  }

  function Max(a: int, b: int): int { if a < b then b else a }

  // How an UPDATE closes one execution row; the values differ per caller.
  datatype Closing = Closing(
    status: ExecutionStatus,
    retryable: bool,
    fallback: Option<bool>,
    output: Option<string>,
    result: Option<Key>,
    publicCode: Option<string>)

  function CloseRow(e: Execution, how: Closing, now: int): Execution {
    e.(status := how.status,
       retryable := how.retryable,
       fallback := if how.fallback.Some? then how.fallback.value else e.fallback,
       output := if how.output.Some? then how.output else e.output,
       result := if how.result.Some? then how.result else e.result,
       publicCode := how.publicCode,
       durationMs := Some(Max(0, Elapsed(e, now))),
       finishedAt := Some(now))
  }

  // WHERE lease_generation = ...: a NULL generation equals none.
  predicate Matches(e: Execution, generation: Option<nat>, onlyOpen: bool) {
    generation == Some(e.generation) && (onlyOpen ==> IsOpen(e))
  }

  // The UPDATE of the executions of one generation. The duration is cast to a 32-bit integer;
  // a row that is too old for it makes the whole statement raise.
  function Close(rows: seq<Execution>, generation: Option<nat>, onlyOpen: bool, how: Closing, now: int): Result<seq<Execution>> {
    if exists i :: 0 <= i < |rows| && Matches(rows[i], generation, onlyOpen) && Elapsed(rows[i], now) > MAX_INTEGER
    then Err(NumericOverflow)
    else Ok(seq(|rows|, i requires 0 <= i < |rows| =>
      if Matches(rows[i], generation, onlyOpen) then CloseRow(rows[i], how, now) else rows[i]))
  }

  // ------------------------------------------------------------------ the functions

  function NewTask(pins: Pins, requestHash: string, actor: nat): Task {
    Task(pins, requestHash, actor, 1, Queued, 0, None, 0, None, None, None)
  }

  function CreateCell(pins: Pins, requestHash: string, actor: nat, now: int): Cell {
    Cell(NewTask(pins, requestHash, actor), [], Append([], EQueued, Preparing, Some("queued"), 0, None), Some(now))
  }

  function CancelCell(c: Cell, now: int): Result<Cell> {
    match Close(c.executions, Some(c.task.generation), true, Closing(XCancelled, false, None, None, None, Some("cancelled")), now)
    case Err(e) => Err(e)
    case Ok(executions) =>
      Ok(Cell(
        c.task.(state := Cancelled, rowVersion := c.task.rowVersion + 1, owner := None, expires := None, code := Some("cancelled")),
        executions,
        Append(c.events, ECancelled, StatusCancelled, Some("cancelled"), c.task.attempts, None),
        None))
  }

  // A new lease for the next attempt; `reclaimed` when an expired one was taken over.
  function LeaseCell(c: Cell, worker: string, reclaimed: bool, now: int): Result<Cell> {
    var attempt, generation := c.task.attempts + 1, c.task.generation + 1;
    if attempt > MAX_ATTEMPTS then Err(CheckViolation)
    else if exists i :: 0 <= i < |c.executions| && (c.executions[i].attempt == attempt || c.executions[i].generation == generation)
    then Err(UniqueViolation)
    else
      var logged := if reclaimed
        then Append(c.events, ELeaseReclaimed, Preparing, Some("lease_expired"), attempt, None) else c.events;
      Ok(Cell(
        c.task.(state := Leased, rowVersion := c.task.rowVersion + 1, attempts := attempt, owner := Some(worker),
                generation := generation, expires := Some(now + LEASE), code := None),
        c.executions + [Execution(attempt, generation, XLeased, false, false, None, None, None, None, None, None, None, now)],
        Append(logged, ELeaseAcquired, Preparing, Some("lease_acquired"), attempt, None),
        Some(now + LEASE)))
  }

  // The claim of a due dispatch row. The flag tells whether the worker got a lease.
  function ClaimCell(c: Cell, worker: string, now: int): Result<(Cell, bool)> {
    if IsTerminal(c.task.state) then Ok((c.(dispatch := None), false))
    else if IsHeld(c.task.state) then
      if c.task.expires.Some? && c.task.expires.value > now then Ok((c.(dispatch := c.task.expires), false))
      else if c.task.attempts >= MAX_ATTEMPTS then
        match Close(c.executions, Some(c.task.generation), true, Closing(XFailed, false, None, None, None, Some("lease_expired")), now)
        case Err(e) => Err(e)
        case Ok(executions) =>
          Ok((Cell(
            c.task.(state := Failed, rowVersion := c.task.rowVersion + 1, owner := None, expires := None, code := Some("lease_expired")),
            executions,
            Append(c.events, EFailed, StatusFailed, Some("lease_expired"), c.task.attempts, None),
            None), false))
      else
        match Close(c.executions, Some(c.task.generation), true, Closing(XRetryScheduled, true, None, None, None, Some("lease_expired")), now)
        case Err(e) => Err(e)
        case Ok(executions) => WithLease(LeaseCell(c.(executions := executions), worker, true, now))
    else WithLease(LeaseCell(c, worker, false, now))
  }

  function WithLease(r: Result<Cell>): Result<(Cell, bool)> {
    match r case Err(e) => Err(e) case Ok(c) => Ok((c, true))
  }

  // The fence in front of a worker's start, fail and finalize. It refuses a generation that
  // differs from the task's; a comparison with NULL refuses nothing.
  predicate HoldsLease(t: Task, worker: string, generation: Option<nat>, now: int) {
    && IsHeld(t.state)
    && t.owner == Some(worker)
    && (generation.Some? ==> t.generation == generation.value)
    && t.expires.Some? && t.expires.value > now
  }

  function StartCell(c: Cell, worker: string, generation: Option<nat>, input: Option<string>, now: int): Result<Cell> {
    if input.Some? && !IsSha256(input.value) then Err(NV006)
    else if c.task.state != Leased || !HoldsLease(c.task, worker, generation, now) then Err(NV010)
    else Ok(Cell(
      c.task.(state := Running, rowVersion := c.task.rowVersion + 1),
      StartRows(c.executions, generation, input, now),
      Append(c.events, EExecutionStarted, Preparing, Some("execution_started"), c.task.attempts, None),
      c.dispatch))
  }

  function StartRows(rows: seq<Execution>, generation: Option<nat>, input: Option<string>, now: int): seq<Execution> {
    seq(|rows|, i requires 0 <= i < |rows| =>
      if Matches(rows[i], generation, false)
      then rows[i].(status := XRunning, input := input, startedAt := Some(now)) else rows[i])
  }

  // The lease is looked for by equality, so a NULL generation finds none. The UPDATE of the
  // dispatch row touches nothing when there is none.
  function HeartbeatCell(c: Cell, worker: string, generation: Option<nat>, now: int): Result<Cell> {
    if generation.None? || !HoldsLease(c.task, worker, generation, now) then Err(NV010)
    else Ok(c.(task := c.task.(expires := Some(now + LEASE)),
               dispatch := if c.dispatch.Some? then Some(now + LEASE) else None))
  }

  function FailureState(code: Option<string>): TaskState {
    if code == Some("deadline_exceeded") then TimedOut else if code == Some("required_evidence_gap") then Blocked else Failed
  }

  // p_code = 'fallback_authority', which is NULL for a NULL code.
  function IsFallback(code: Option<string>): Option<bool> {
    if code.Some? then Some(code.value == "fallback_authority") else None
  }

  // The UPDATE of a failure. The fallback column takes no NULL.
  function CloseFailed(rows: seq<Execution>, generation: Option<nat>, how: Closing, now: int): Result<seq<Execution>> {
    match Close(rows, generation, false, how, now)
    case Err(e) => Err(e)
    case Ok(closed) =>
      if how.fallback.None? && exists i :: 0 <= i < |rows| && Matches(rows[i], generation, false) then Err(NotNullViolation)
      else Ok(closed)
  }

  function ExecutionStatusOf(state: TaskState): ExecutionStatus {
    match state
    case Blocked => XBlocked
    case TimedOut => XTimedOut
    case WaitingReview => XSucceeded
    case _ => XFailed
  }

  function EventOf(state: TaskState): EventCode {
    match state
    case Blocked => EBlocked
    case TimedOut => ETimedOut
    case WaitingReview => EWaitingReview
    case _ => EFailed
  }

  function RetryCell(c: Cell, generation: Option<nat>, code: Option<string>, fallback: Option<bool>, now: int): Result<Cell> {
    match CloseFailed(c.executions, generation, Closing(XRetryScheduled, true, fallback, None, None, code), now)
    case Err(e) => Err(e)
    case Ok(executions) =>
      Ok(Cell(
        c.task.(state := Queued, rowVersion := c.task.rowVersion + 1, owner := None, expires := None, code := None),
        executions,
        Append(c.events, ERetryScheduled, Preparing, code, c.task.attempts, None),
        if c.dispatch.Some? then Some(now) else None))
  }

  function GiveUpCell(c: Cell, generation: Option<nat>, code: Option<string>, fallback: Option<bool>, now: int): Result<Cell> {
    var state := FailureState(code);
    match CloseFailed(c.executions, generation, Closing(ExecutionStatusOf(state), false, fallback, None, None, code), now)
    case Err(e) => Err(e)
    case Ok(executions) =>
      Ok(Cell(
        c.task.(state := state, rowVersion := c.task.rowVersion + 1, owner := None, expires := None, code := code),
        executions,
        Append(c.events, EventOf(state), StatusOf(EventOf(state)), code, c.task.attempts, None),
        None))
  }

  function FailCell(c: Cell, worker: string, generation: Option<nat>, code: Option<string>, retryable: bool, fallback: Option<bool>, now: int): Result<Cell> {
    if fallback != IsFallback(code) then Err(NV006)
    else if !HoldsLease(c.task, worker, generation, now) then Err(NV010)
    else if retryable && c.task.attempts < MAX_ATTEMPTS then RetryCell(c, generation, code, fallback, now)
    else GiveUpCell(c, generation, code, fallback, now)
  }

  // The task side of a finalize, once the planning result is stored. `state` is the task's
  // closing state: waiting for review, blocked or failed.
  function FinalizeCell(c: Cell, generation: Option<nat>, run: Key, state: TaskState, reason: Option<string>, output: Option<string>, now: int): Result<Cell> {
    match Close(c.executions, generation, false, Closing(ExecutionStatusOf(state), false, None, output, Some(run), reason), now)
    case Err(e) => Err(e)
    case Ok(executions) =>
      Ok(Cell(
        c.task.(state := state, rowVersion := c.task.rowVersion + 1, owner := None, expires := None, result := Some(run),
                code := if state == WaitingReview then None else reason),
        executions,
        Append(c.events, EventOf(state), StatusOf(EventOf(state)), reason, c.task.attempts, Some(run)),
        None))
  }

  // ------------------------------------------------------------------ agreement of the four tables

  function ViewOf(t: Task): View {
    View(t.state, t.attempts, t.result, t.code)
  }

  // The execution rows are attempts 1, 2, ... in order, each under the generation of its number,
  // and under a lease the last one is open.
  predicate RowsNumbered(t: Task, rows: seq<Execution>) {
    && |rows| == t.attempts
    && (forall i :: 0 <= i < |rows| ==> rows[i].attempt == i + 1 && rows[i].generation == i + 1)
    && (IsHeld(t.state) ==> |rows| > 0 && IsOpen(rows[|rows| - 1]))
  }

  // Only the last one can be open, exactly while a lease is held, and it has the task's own status.
  predicate ExecutionsAgree(t: Task, rows: seq<Execution>) {
    && RowsNumbered(t, rows)
    && (forall i :: 0 <= i < |rows| - 1 ==> !IsOpen(rows[i]))
    && (t.state == Leased ==> |rows| > 0 && rows[|rows| - 1].status == XLeased)
    && (t.state == Running ==> |rows| > 0 && rows[|rows| - 1].status == XRunning)
    && (!IsHeld(t.state) && |rows| > 0 ==> !IsOpen(rows[|rows| - 1]))
  }

  predicate LeaseAgrees(t: Task) {
    if IsHeld(t.state) then t.owner.Some? && t.expires.Some? else t.owner == None && t.expires == None
  }

  predicate DispatchAgrees(t: Task, dispatch: Option<int>) {
    && (dispatch.Some? <==> !IsTerminal(t.state))
    && (IsHeld(t.state) ==> dispatch == t.expires)
  }

  predicate LogAgrees(t: Task, events: seq<Event>) {
    && Numbered(events)
    && Replay(events) == ViewOf(t)
    && |events| == t.rowVersion + Reclaims(events)
  }

  // An open row has nothing of its outcome yet; a closed one has its end, its duration in whole
  // milliseconds from its start (or, never started, from its creation) and a code for a fallback.
  predicate RowAudited(e: Execution) {
    && (e.input.Some? ==> e.startedAt.Some?)
    && if IsOpen(e) then
         && e.finishedAt.None? && e.durationMs.None? && e.output.None? && e.result.None? && e.publicCode.None?
         && !e.retryable && !e.fallback && (e.status == XRunning <==> e.startedAt.Some?)
       else
         && e.finishedAt.Some? && e.durationMs == Some(Max(0, Elapsed(e, e.finishedAt.value))) && e.durationMs.value <= MAX_INTEGER
         && (e.retryable <==> e.status == XRetryScheduled)
         && (e.fallback ==> e.publicCode == Some("fallback_authority"))
  }

  // How the last execution of a task in some state ended, or stands.
  predicate LastStatus(state: TaskState, status: ExecutionStatus) {
    match state
    case Queued => status == XRetryScheduled
    case Leased => status == XLeased
    case Running => status == XRunning
    case WaitingReview => status == XSucceeded
    case Blocked => status == XBlocked
    case TimedOut => status == XTimedOut
    case Failed => status == XFailed
    case Cancelled => status == XCancelled || status == XRetryScheduled
    case Succeeded => false
  }

  // The executions tell the task's history: every attempt before the last one was given up for a
  // retry; the last one has the task's outcome, its result and its code.
  predicate Audited(t: Task, rows: seq<Execution>) {
    && (forall i :: 0 <= i < |rows| ==> RowAudited(rows[i]))
    && (forall i :: 0 <= i < |rows| - 1 ==> rows[i].status == XRetryScheduled && rows[i].result == None)
    && (|rows| > 0 ==>
          var last := rows[|rows| - 1];
          && LastStatus(t.state, last.status) && last.result == t.result
          && (t.state in {Blocked, TimedOut, Failed} ==> last.publicCode == t.code))
  }

  // What every call keeps: task, dispatch row and event log agree, and the executions are numbered.
  predicate Coheres(c: Cell) {
    && c.task.generation == c.task.attempts
    && RowsNumbered(c.task, c.executions)
    && LeaseAgrees(c.task)
    && DispatchAgrees(c.task, c.dispatch)
    && LogAgrees(c.task, c.events)
  }

  // What every call keeps that names its generation: the executions agree with them, too.
  predicate Agrees(c: Cell) {
    Coheres(c) && ExecutionsAgree(c.task, c.executions) && Audited(c.task, c.executions)
  }

  // What coherence implies on its own: the attempt bound and the length of the log.
  lemma AgreementBounds(c: Cell)
    requires Coheres(c)
    ensures c.task.attempts <= MAX_ATTEMPTS
    ensures c.task.state == Queued ==> c.task.attempts < MAX_ATTEMPTS
    ensures IsHeld(c.task.state) ==> c.task.attempts >= 1
    ensures c.task.state != Succeeded
    ensures c.task.state == WaitingReview ==> c.task.result.Some?
    ensures !IsTerminal(c.task.state) ==> c.task.result == None && c.task.code == None
    ensures c.task.rowVersion <= |c.events| <= 10
  {
    LogIsBounded(c.events);
  }

  // ------------------------------------------------------------------ the log, one event at a time

  // One more event of the grammar and one more row version keep log and row in step.
  lemma LogStep(t: Task, events: seq<Event>, code: EventCode, publicCode: Option<string>, attempt: nat, result: Option<Key>, after: Task)
    requires LogAgrees(t, events)
    requires code != ELeaseReclaimed && after.rowVersion == t.rowVersion + 1
    requires forall n: nat :: Advance(ViewOf(t), Event(n, code, StatusOf(code), publicCode, attempt, result)) == ViewOf(after)
    ensures LogAgrees(after, Append(events, code, StatusOf(code), publicCode, attempt, result))
  {
    hide Append, Advance, Replay, Reclaims;
    AppendNumbered(events, code, StatusOf(code), publicCode, attempt, result);
  }

  // A reclaim logs two events for one row version.
  lemma ReclaimStep(t: Task, events: seq<Event>, attempt: nat, after: Task)
    requires LogAgrees(t, events) && IsHeld(t.state) && t.attempts < MAX_ATTEMPTS && attempt == t.attempts + 1
    requires ViewOf(after) == View(Leased, attempt, None, None) && after.rowVersion == t.rowVersion + 1
    ensures LogAgrees(after, Append(Append(events, ELeaseReclaimed, Preparing, Some("lease_expired"), attempt, None),
                                    ELeaseAcquired, Preparing, Some("lease_acquired"), attempt, None))
  {
    hide Append, Replay, Reclaims;
    AppendNumbered(events, ELeaseReclaimed, Preparing, Some("lease_expired"), attempt, None);
    var logged := Append(events, ELeaseReclaimed, Preparing, Some("lease_expired"), attempt, None);
    AppendNumbered(logged, ELeaseAcquired, Preparing, Some("lease_acquired"), attempt, None);
  }

  // ------------------------------------------------------------------ every function keeps coherence

  // The last execution is open and too old for its duration column.
  predicate Unclosable(c: Cell, now: int) {
    && |c.executions| > 0
    && IsOpen(c.executions[|c.executions| - 1])
    && Elapsed(c.executions[|c.executions| - 1], now) > MAX_INTEGER
  }

  // Closing the rows of the newest generation raises exactly on the last one's age, and never
  // changes the numbering.
  lemma CloseNewest(t: Task, rows: seq<Execution>, onlyOpen: bool, how: Closing, now: int)
    requires RowsNumbered(t, rows)
    ensures var r := Close(rows, Some(t.attempts), onlyOpen, how, now);
            && (r.Err? <==> |rows| > 0 && (onlyOpen ==> IsOpen(rows[|rows| - 1])) && Elapsed(rows[|rows| - 1], now) > MAX_INTEGER)
            && (r.Err? ==> r == Err(NumericOverflow))
            && (r.Ok? ==> SameNumbers(rows, r.value))
  {
    if |rows| > 0 {
      assert Matches(rows[|rows| - 1], Some(t.attempts), onlyOpen) <==> (onlyOpen ==> IsOpen(rows[|rows| - 1]));
    }
  }

  predicate SameNumbers(rows: seq<Execution>, after: seq<Execution>) {
    |after| == |rows| && forall i :: 0 <= i < |rows| ==> after[i].attempt == rows[i].attempt && after[i].generation == rows[i].generation
  }

  lemma CloseNumbers(rows: seq<Execution>, generation: Option<nat>, onlyOpen: bool, how: Closing, now: int)
    ensures var r := Close(rows, generation, onlyOpen, how, now); r.Ok? ==> SameNumbers(rows, r.value)
  {
  }

  lemma CancelCoheres(c: Cell, now: int)
    requires Coheres(c) && !IsTerminal(c.task.state)
    ensures CancelCell(c, now).Err? <==> Unclosable(c, now)
    ensures CancelCell(c, now).Ok? ==> Coheres(CancelCell(c, now).value)
  {
    hide Close, CloseRow, Append, LogAgrees;
    CloseNewest(c.task, c.executions, true, Closing(XCancelled, false, None, None, None, Some("cancelled")), now);
    AgreementBounds(c);
    if CancelCell(c, now).Ok? {
      LogStep(c.task, c.events, ECancelled, Some("cancelled"), c.task.attempts, None, CancelCell(c, now).value.task);
    }
  }

  // Leasing never meets an attempt number or a generation again.
  lemma LeaseCoheres(c: Cell, worker: string, reclaimed: bool, now: int)
    requires c.task.generation == c.task.attempts < MAX_ATTEMPTS && |c.executions| == c.task.attempts
    requires forall i :: 0 <= i < |c.executions| ==> c.executions[i].attempt == i + 1 && c.executions[i].generation == i + 1
    requires LogAgrees(c.task, c.events) && c.task.result == None
    requires if reclaimed then IsHeld(c.task.state) else c.task.state == Queued && c.task.code == None
    ensures LeaseCell(c, worker, reclaimed, now).Ok? && Coheres(LeaseCell(c, worker, reclaimed, now).value)
  {
    hide Append, LogAgrees;
    var after := LeaseCell(c, worker, reclaimed, now).value;
    var attempt := c.task.attempts + 1;
    if reclaimed {
      ReclaimStep(c.task, c.events, attempt, after.task);
    } else {
      LogStep(c.task, c.events, ELeaseAcquired, Some("lease_acquired"), attempt, None, after.task);
    }
  }

  lemma LeaseFacts(c: Cell, worker: string, reclaimed: bool, now: int)
    requires LeaseCell(c, worker, reclaimed, now).Ok?
    ensures var after := LeaseCell(c, worker, reclaimed, now).value;
            after.task.state == Leased && after.task.owner == Some(worker)
            && after.task.generation == c.task.generation + 1 && after.dispatch == Some(now + LEASE)
  {
    hide Append;
  }

  // The open execution began so long ago that its duration no longer fits its column.
  predicate IsOverdue(c: Cell, now: int) {
    && IsHeld(c.task.state)
    && |c.executions| > 0
    && Elapsed(c.executions[|c.executions| - 1], now) > MAX_INTEGER
  }

  lemma ClosableIsNotOverdue(c: Cell, now: int)
    requires Coheres(c) && !Unclosable(c, now)
    ensures !IsOverdue(c, now)
  {
    hide LogAgrees, LeaseAgrees, DispatchAgrees;
  }

  // A claim of a due row never trips a constraint: it hands out a lease or closes an exhausted
  // task, unless the open execution is too old for its duration column. In particular the
  // branches for closed tasks and for leases that still run are never taken.
  lemma ClaimCoheres(c: Cell, worker: string, now: int)
    requires Coheres(c) && c.dispatch.Some? && c.dispatch.value <= now
    ensures ClaimCell(c, worker, now).Err? <==> IsOverdue(c, now)
    ensures ClaimCell(c, worker, now).Err? ==> ClaimCell(c, worker, now) == Err(NumericOverflow)
    ensures ClaimCell(c, worker, now).Ok? ==>
              var (after, leased) := ClaimCell(c, worker, now).value;
              && Coheres(after)
              && (leased <==> c.task.attempts < MAX_ATTEMPTS)
              && (leased ==> after.task.state == Leased && after.task.owner == Some(worker)
                             && after.task.generation == c.task.generation + 1
                             && after.dispatch == Some(now + LEASE))
              && (!leased ==> after.task.state == Failed && after.dispatch == None)
  {
    hide CloseRow, Close, Append, LogAgrees, LeaseCell;
    AgreementBounds(c);
    if IsHeld(c.task.state) {
      if c.task.attempts >= MAX_ATTEMPTS {
        CloseNewest(c.task, c.executions, true, Closing(XFailed, false, None, None, None, Some("lease_expired")), now);
        if ClaimCell(c, worker, now).Ok? {
          LogStep(c.task, c.events, EFailed, Some("lease_expired"), c.task.attempts, None, ClaimCell(c, worker, now).value.0.task);
        }
      } else {
        ReclaimCoheres(c, worker, now);
      }
    } else {
      LeaseCoheres(c, worker, false, now);
      LeaseFacts(c, worker, false, now);
    }
  }

  lemma ReclaimCoheres(c: Cell, worker: string, now: int)
    requires Coheres(c) && IsHeld(c.task.state) && 1 <= c.task.attempts < MAX_ATTEMPTS
    requires c.task.result == None && c.dispatch.Some? && c.dispatch.value <= now
    ensures ClaimCell(c, worker, now).Err? <==> IsOverdue(c, now)
    ensures ClaimCell(c, worker, now).Err? ==> ClaimCell(c, worker, now) == Err(NumericOverflow)
    ensures ClaimCell(c, worker, now).Ok? ==>
              var (after, leased) := ClaimCell(c, worker, now).value;
              leased && Coheres(after) && after.task.state == Leased && after.task.owner == Some(worker)
              && after.task.generation == c.task.generation + 1 && after.dispatch == Some(now + LEASE)
  {
    hide Append, LogAgrees, LeaseCell, CloseRow, Close;
    var how := Closing(XRetryScheduled, true, None, None, None, Some("lease_expired"));
    CloseNewest(c.task, c.executions, true, how, now);
    var closed := Close(c.executions, Some(c.task.generation), true, how, now);
    if closed.Ok? {
      var freed := c.(executions := closed.value);
      LeaseCoheres(freed, worker, true, now);
      LeaseFacts(freed, worker, true, now);
    }
  }

  lemma StartCoheres(c: Cell, worker: string, generation: Option<nat>, input: Option<string>, now: int)
    requires Coheres(c)
    ensures StartCell(c, worker, generation, input, now).Ok? ==> Coheres(StartCell(c, worker, generation, input, now).value)
  {
    hide Append, LogAgrees, IsSha256;
    AgreementBounds(c);
    if StartCell(c, worker, generation, input, now).Ok? {
      LogStep(c.task, c.events, EExecutionStarted, Some("execution_started"), c.task.attempts, None,
              StartCell(c, worker, generation, input, now).value.task);
    }
  }

  lemma HeartbeatCoheres(c: Cell, worker: string, generation: Option<nat>, now: int)
    requires Coheres(c)
    ensures HeartbeatCell(c, worker, generation, now).Ok? ==> Coheres(HeartbeatCell(c, worker, generation, now).value)
  {
    hide Numbered, Replay, Reclaims;
  }

  lemma FailCoheres(c: Cell, worker: string, generation: Option<nat>, code: Option<string>, retryable: bool, fallback: Option<bool>, now: int)
    requires Coheres(c)
    ensures FailCell(c, worker, generation, code, retryable, fallback, now).Ok? ==>
              Coheres(FailCell(c, worker, generation, code, retryable, fallback, now).value)
  {
    hide FailCell, Coheres, RetryCell, GiveUpCell;
    FailBranches(c, worker, generation, code, retryable, fallback, now);
    if FailCell(c, worker, generation, code, retryable, fallback, now).Ok? {
      if retryable && c.task.attempts < MAX_ATTEMPTS {
        RetryCoheres(c, generation, code, fallback, now);
      } else {
        GiveUpCoheres(c, generation, code, fallback, now);
      }
    }
  }

  lemma FailBranches(c: Cell, worker: string, generation: Option<nat>, code: Option<string>, retryable: bool, fallback: Option<bool>, now: int)
    ensures FailCell(c, worker, generation, code, retryable, fallback, now).Ok? ==>
              && HoldsLease(c.task, worker, generation, now)
              && FailCell(c, worker, generation, code, retryable, fallback, now) ==
                 if retryable && c.task.attempts < MAX_ATTEMPTS then RetryCell(c, generation, code, fallback, now)
                 else GiveUpCell(c, generation, code, fallback, now)
  {
    hide RetryCell, GiveUpCell;
  }

  lemma RetryCoheres(c: Cell, generation: Option<nat>, code: Option<string>, fallback: Option<bool>, now: int)
    requires Coheres(c) && IsHeld(c.task.state) && c.task.attempts < MAX_ATTEMPTS
    ensures var r := RetryCell(c, generation, code, fallback, now); r.Ok? ==> Coheres(r.value)
  {
    hide Append, LogAgrees, Close;
    AgreementBounds(c);
    var r := RetryCell(c, generation, code, fallback, now);
    CloseNumbers(c.executions, generation, false, Closing(XRetryScheduled, true, fallback, None, None, code), now);
    if r.Ok? {
      LogStep(c.task, c.events, ERetryScheduled, code, c.task.attempts, None, r.value.task);
    }
  }

  lemma GiveUpCoheres(c: Cell, generation: Option<nat>, code: Option<string>, fallback: Option<bool>, now: int)
    requires Coheres(c) && IsHeld(c.task.state)
    ensures var r := GiveUpCell(c, generation, code, fallback, now); r.Ok? ==> Coheres(r.value)
  {
    hide Append, LogAgrees, Close;
    AgreementBounds(c);
    var r, state := GiveUpCell(c, generation, code, fallback, now), FailureState(code);
    CloseNumbers(c.executions, generation, false, Closing(ExecutionStatusOf(state), false, fallback, None, None, code), now);
    if r.Ok? {
      LogStep(c.task, c.events, EventOf(state), code, c.task.attempts, None, r.value.task);
    }
  }

  lemma FinalizeCoheres(c: Cell, worker: string, generation: Option<nat>, run: Key, state: TaskState, reason: Option<string>, output: Option<string>, now: int)
    requires Coheres(c) && HoldsLease(c.task, worker, generation, now)
    requires state == WaitingReview || state == Blocked || state == Failed
    ensures FinalizeCell(c, generation, run, state, reason, output, now).Err? <==> generation.Some? && IsOverdue(c, now)
    ensures FinalizeCell(c, generation, run, state, reason, output, now).Ok? ==> Coheres(FinalizeCell(c, generation, run, state, reason, output, now).value)
  {
    hide CloseRow, Append, LogAgrees, Close;
    AgreementBounds(c);
    var how := Closing(ExecutionStatusOf(state), false, None, output, Some(run), reason);
    if generation.Some? {
      CloseNewest(c.task, c.executions, false, how, now);
    } else {
      NothingToClose(c.executions, false, how, now);
    }
    if FinalizeCell(c, generation, run, state, reason, output, now).Ok? {
      LogStep(c.task, c.events, EventOf(state), reason, c.task.attempts, Some(run),
              FinalizeCell(c, generation, run, state, reason, output, now).value.task);
    }
  }

  // A NULL generation closes nothing.
  lemma NothingToClose(rows: seq<Execution>, onlyOpen: bool, how: Closing, now: int)
    ensures Close(rows, None, onlyOpen, how, now) == Ok(rows) && SameNumbers(rows, rows)
  {
    var closed := Close(rows, None, onlyOpen, how, now);
    assert closed.Ok? && closed.value == rows;
  }

  // ------------------------------------------------------------------ naming its generation, every function keeps the agreement

  lemma CreateAgrees(pins: Pins, requestHash: string, actor: nat, now: int)
    ensures Agrees(CreateCell(pins, requestHash, actor, now))
  {
    hide Append, Replay, Reclaims;
    AppendNumbered([], EQueued, Preparing, Some("queued"), 0, None);
    EmptyLog();
  }

  lemma CreateCoheres(pins: Pins, requestHash: string, actor: nat, now: int)
    ensures Coheres(CreateCell(pins, requestHash, actor, now))
  {
    hide Coheres, CreateCell, ExecutionsAgree, Audited;
    CreateAgrees(pins, requestHash, actor, now);
  }

  lemma EmptyLog()
    ensures Replay([]) == Empty && Reclaims([]) == 0 && Numbered([])
  {
  }

  // Attempts 1 to n, none of them open.
  predicate ClosedAttempts(rows: seq<Execution>, n: nat) {
    && |rows| == n
    && forall i :: 0 <= i < n ==> rows[i].attempt == i + 1 && rows[i].generation == i + 1 && !IsOpen(rows[i])
  }

  // Closing the rows of the newest generation closes the last one and no other.
  lemma CloseLast(t: Task, rows: seq<Execution>, onlyOpen: bool, how: Closing, now: int)
    requires ExecutionsAgree(t, rows)
    requires how.status != XLeased && how.status != XRunning
    requires onlyOpen || IsHeld(t.state)
    ensures var r := Close(rows, Some(t.attempts), onlyOpen, how, now);
            && (r.Err? <==> IsHeld(t.state) && |rows| > 0 && Elapsed(rows[|rows| - 1], now) > MAX_INTEGER)
            && (r.Err? ==> r == Err(NumericOverflow))
            && (r.Ok? ==>
                  && ClosedAttempts(r.value, t.attempts)
                  && (forall i :: 0 <= i < |rows| - 1 ==> r.value[i] == rows[i])
                  && (|rows| > 0 ==>
                        var last := rows[|rows| - 1];
                        r.value[|rows| - 1] == if IsHeld(t.state) then CloseRow(last, how, now) else last))
  {
    if |rows| > 0 {
      assert Matches(rows[|rows| - 1], Some(t.attempts), onlyOpen) <==> IsHeld(t.state);
      forall i | 0 <= i < |rows| - 1
        ensures !Matches(rows[i], Some(t.attempts), onlyOpen)
      {
      }
    }
  }

  // Closing the last row with an outcome that fits the task's new state.
  lemma CloseAudited(t: Task, rows: seq<Execution>, onlyOpen: bool, how: Closing, now: int, u: Task)
    requires ExecutionsAgree(t, rows) && Audited(t, rows) && Close(rows, Some(t.attempts), onlyOpen, how, now).Ok?
    requires how.status != XLeased && how.status != XRunning && (onlyOpen || IsHeld(t.state))
    requires (how.retryable <==> how.status == XRetryScheduled)
             && (how.fallback == Some(true) ==> how.publicCode == Some("fallback_authority"))
    requires IsHeld(t.state) ==>
               && LastStatus(u.state, how.status) && u.result == how.result
               && (u.state in {Blocked, TimedOut, Failed} ==> how.publicCode == u.code)
    requires !IsHeld(t.state) ==> t.state == Queued && u.state == Cancelled && u.result == t.result
    ensures Audited(u, Close(rows, Some(t.attempts), onlyOpen, how, now).value)
  {
    hide Close, Audited, CloseRow;
    CloseLast(t, rows, onlyOpen, how, now);
    var closed := Close(rows, Some(t.attempts), onlyOpen, how, now).value;
    assert |closed| == |rows|;
    if |rows| > 0 {
      var last := |rows| - 1;
      AuditedParts(t, rows);
      if IsHeld(t.state) {
        CloseRowAudited(rows[last], how, now);
      }
      AuditedFrom(u, closed);
    } else {
      AuditedFrom(u, closed);
    }
  }

  lemma AuditedParts(t: Task, rows: seq<Execution>)
    requires Audited(t, rows) && |rows| > 0
    ensures forall i :: 0 <= i < |rows| ==> RowAudited(rows[i])
    ensures forall i :: 0 <= i < |rows| - 1 ==> rows[i].status == XRetryScheduled && rows[i].result == None
    ensures LastStatus(t.state, rows[|rows| - 1].status) && rows[|rows| - 1].result == t.result
  {
    hide RowAudited;
  }

  lemma AuditedFrom(t: Task, rows: seq<Execution>)
    requires forall i :: 0 <= i < |rows| ==> RowAudited(rows[i])
    requires forall i :: 0 <= i < |rows| - 1 ==> rows[i].status == XRetryScheduled && rows[i].result == None
    requires |rows| > 0 ==>
               && LastStatus(t.state, rows[|rows| - 1].status) && rows[|rows| - 1].result == t.result
               && (t.state in {Blocked, TimedOut, Failed} ==> rows[|rows| - 1].publicCode == t.code)
    ensures Audited(t, rows)
  {
    hide RowAudited;
  }

  lemma CloseRowAudited(e: Execution, how: Closing, now: int)
    requires RowAudited(e) && IsOpen(e) && Elapsed(e, now) <= MAX_INTEGER
    requires how.status != XLeased && how.status != XRunning
    requires (how.retryable <==> how.status == XRetryScheduled) && (how.fallback == Some(true) ==> how.publicCode == Some("fallback_authority"))
    ensures RowAudited(CloseRow(e, how, now))
    ensures CloseRow(e, how, now).status == how.status && CloseRow(e, how, now).result == how.result
    ensures CloseRow(e, how, now).publicCode == how.publicCode
  {
    assert Elapsed(CloseRow(e, how, now), now) == Elapsed(e, now);
  }

  // A new attempt on top of attempts that were all given up for a retry.
  lemma LeaseAudited(c: Cell, worker: string, reclaimed: bool, now: int)
    requires LeaseCell(c, worker, reclaimed, now).Ok? && c.task.result == None
    requires forall i :: 0 <= i < |c.executions| ==> RowAudited(c.executions[i]) && c.executions[i].status == XRetryScheduled && c.executions[i].result == None
    ensures Audited(LeaseCell(c, worker, reclaimed, now).value.task, LeaseCell(c, worker, reclaimed, now).value.executions)
  {
    hide Append;
  }

  lemma QueuedRetried(t: Task, rows: seq<Execution>)
    requires Audited(t, rows) && t.state == Queued && t.result == None
    ensures forall i :: 0 <= i < |rows| ==> RowAudited(rows[i]) && rows[i].status == XRetryScheduled && rows[i].result == None
  {
    hide RowAudited;
  }

  lemma CancelAgrees(c: Cell, now: int)
    requires Agrees(c) && !IsTerminal(c.task.state)
    ensures CancelCell(c, now).Ok? ==> Agrees(CancelCell(c, now).value)
  {
    hide CloseRow, Close, Append, Coheres, Audited;
    CancelCoheres(c, now);
    SameGeneration(c);
    CloseLast(c.task, c.executions, true, Closing(XCancelled, false, None, None, None, Some("cancelled")), now);
    if CancelCell(c, now).Ok? {
      CloseAudited(c.task, c.executions, true, Closing(XCancelled, false, None, None, None, Some("cancelled")), now, CancelCell(c, now).value.task);
    }
  }

  lemma SameGeneration(c: Cell)
    requires Coheres(c)
    ensures c.task.generation == c.task.attempts <= MAX_ATTEMPTS
    ensures c.task.state == Queued ==> c.task.attempts < MAX_ATTEMPTS
    ensures !IsTerminal(c.task.state) ==> c.task.result == None && c.task.code == None
    ensures IsHeld(c.task.state) ==> c.task.attempts >= 1
    ensures c.task.state == Queued || IsHeld(c.task.state) || IsTerminal(c.task.state)
    ensures c.dispatch.Some? ==> !IsTerminal(c.task.state)
  {
    hide LogAgrees, LeaseAgrees, RowsNumbered;
    AgreementBounds(c);
  }

  // Leasing on top of closed attempts.
  lemma LeaseExecutions(c: Cell, worker: string, reclaimed: bool, now: int)
    requires c.task.generation == c.task.attempts < MAX_ATTEMPTS && ClosedAttempts(c.executions, c.task.attempts)
    requires LeaseCell(c, worker, reclaimed, now).Ok?
    ensures ExecutionsAgree(LeaseCell(c, worker, reclaimed, now).value.task, LeaseCell(c, worker, reclaimed, now).value.executions)
  {
    hide Append;
  }

  lemma ClaimAgrees(c: Cell, worker: string, now: int)
    requires Agrees(c) && c.dispatch.Some? && c.dispatch.value <= now
    ensures ClaimCell(c, worker, now).Ok? ==> Agrees(ClaimCell(c, worker, now).value.0)
  {
    hide CloseRow, Close, Append, Coheres, LeaseCell, Audited, RowAudited, ExecutionsAgree;
    ClaimCoheres(c, worker, now);
    SameGeneration(c);
    if ClaimCell(c, worker, now).Ok? {
      if IsHeld(c.task.state) && c.task.attempts >= MAX_ATTEMPTS {
        ExhaustedAgrees(c, worker, now);
      } else if IsHeld(c.task.state) {
        ReclaimAgrees(c, worker, now);
      } else {
        QueuedAgrees(c, worker, now);
      }
    }
  }

  lemma ExhaustedAgrees(c: Cell, worker: string, now: int)
    requires Agrees(c) && IsHeld(c.task.state) && c.task.attempts >= MAX_ATTEMPTS && ClaimCell(c, worker, now).Ok?
    requires c.dispatch.Some? && c.dispatch.value <= now
    ensures var d := ClaimCell(c, worker, now).value.0; ExecutionsAgree(d.task, d.executions) && Audited(d.task, d.executions)
  {
    hide CloseRow, Close, Append, LogAgrees, LeaseCell, Audited;
    AgreementBounds(c);
    CloseLast(c.task, c.executions, true, Closing(XFailed, false, None, None, None, Some("lease_expired")), now);
    CloseAudited(c.task, c.executions, true, Closing(XFailed, false, None, None, None, Some("lease_expired")), now, ClaimCell(c, worker, now).value.0.task);
  }

  lemma QueuedAgrees(c: Cell, worker: string, now: int)
    requires Agrees(c) && c.task.state == Queued && ClaimCell(c, worker, now).Ok?
    ensures var d := ClaimCell(c, worker, now).value.0; ExecutionsAgree(d.task, d.executions) && Audited(d.task, d.executions)
  {
    hide CloseRow, Close, Append, LogAgrees, LeaseCell, Audited, RowAudited;
    AgreementBounds(c);
    QueuedRetried(c.task, c.executions);
    LeaseExecutions(c, worker, false, now);
    LeaseAudited(c, worker, false, now);
  }

  lemma ReclaimAgrees(c: Cell, worker: string, now: int)
    requires Agrees(c) && IsHeld(c.task.state) && 1 <= c.task.attempts < MAX_ATTEMPTS && ClaimCell(c, worker, now).Ok?
    requires c.task.result == None && c.dispatch.Some? && c.dispatch.value <= now
    ensures var d := ClaimCell(c, worker, now).value.0; ExecutionsAgree(d.task, d.executions) && Audited(d.task, d.executions)
  {
    hide Append, LogAgrees, LeaseCell, CloseRow, Close, Audited, RowAudited;
    var how := Closing(XRetryScheduled, true, None, None, None, Some("lease_expired"));
    CloseLast(c.task, c.executions, true, how, now);
    var closed := Close(c.executions, Some(c.task.generation), true, how, now);
    var freed, given := c.(executions := closed.value), c.task.(state := Queued, code := None);
    CloseAudited(c.task, c.executions, true, how, now, given);
    QueuedRetried(given, closed.value);
    LeaseExecutions(freed, worker, true, now);
    LeaseAudited(freed, worker, true, now);
  }

  lemma StartAgrees(c: Cell, worker: string, generation: nat, input: Option<string>, now: int)
    requires Agrees(c)
    ensures StartCell(c, worker, Some(generation), input, now).Ok? ==> Agrees(StartCell(c, worker, Some(generation), input, now).value)
  {
    hide Append, LogAgrees, IsSha256;
    StartCoheres(c, worker, Some(generation), input, now);
  }

  lemma HeartbeatAgrees(c: Cell, worker: string, generation: Option<nat>, now: int)
    requires Agrees(c)
    ensures HeartbeatCell(c, worker, generation, now).Ok? ==> Agrees(HeartbeatCell(c, worker, generation, now).value)
  {
    hide LogAgrees;
    HeartbeatCoheres(c, worker, generation, now);
  }

  // Under a generation, a failure needs a code: without one the fallback column would be NULL.
  lemma FailNeedsCode(c: Cell, worker: string, generation: nat, code: Option<string>, retryable: bool, fallback: Option<bool>, now: int)
    requires Coheres(c) && FailCell(c, worker, Some(generation), code, retryable, fallback, now).Ok?
    ensures code.Some? && fallback == Some(code.value == "fallback_authority") && HoldsLease(c.task, worker, Some(generation), now)
  {
    hide Append, LogAgrees, Close;
    AgreementBounds(c);
    assert HoldsLease(c.task, worker, Some(generation), now) ==> Matches(c.executions[|c.executions| - 1], Some(generation), false);
  }

  lemma FailAgrees(c: Cell, worker: string, generation: nat, code: Option<string>, retryable: bool, fallback: Option<bool>, now: int)
    requires Agrees(c)
    ensures FailCell(c, worker, Some(generation), code, retryable, fallback, now).Ok? ==>
              Agrees(FailCell(c, worker, Some(generation), code, retryable, fallback, now).value)
  {
    hide FailCell, Coheres, ExecutionsAgree, Audited;
    if FailCell(c, worker, Some(generation), code, retryable, fallback, now).Ok? {
      FailCoheres(c, worker, Some(generation), code, retryable, fallback, now);
      FailNeedsCode(c, worker, generation, code, retryable, fallback, now);
      if retryable && c.task.attempts < MAX_ATTEMPTS {
        RetryAgrees(c, worker, generation, code.value, now);
      } else {
        GiveUpAgrees(c, worker, generation, code.value, retryable, now);
      }
    }
  }

  lemma RetryAgrees(c: Cell, worker: string, generation: nat, code: string, now: int)
    requires Agrees(c) && HoldsLease(c.task, worker, Some(generation), now) && c.task.attempts < MAX_ATTEMPTS
    ensures var r := FailCell(c, worker, Some(generation), Some(code), true, Some(code == "fallback_authority"), now);
            r.Ok? ==> ExecutionsAgree(r.value.task, r.value.executions) && Audited(r.value.task, r.value.executions)
  {
    hide Append, LogAgrees, Close, CloseRow, Audited;
    AgreementBounds(c);
    var fallback := code == "fallback_authority";
    var r := FailCell(c, worker, Some(generation), Some(code), true, Some(fallback), now);
    CloseLast(c.task, c.executions, false, Closing(XRetryScheduled, true, Some(fallback), None, None, Some(code)), now);
    if r.Ok? {
      CloseAudited(c.task, c.executions, false, Closing(XRetryScheduled, true, Some(fallback), None, None, Some(code)), now, r.value.task);
    }
  }

  lemma GiveUpAgrees(c: Cell, worker: string, generation: nat, code: string, retryable: bool, now: int)
    requires Agrees(c) && HoldsLease(c.task, worker, Some(generation), now)
    requires !(retryable && c.task.attempts < MAX_ATTEMPTS)
    ensures var r := FailCell(c, worker, Some(generation), Some(code), retryable, Some(code == "fallback_authority"), now);
            r.Ok? ==> ExecutionsAgree(r.value.task, r.value.executions) && Audited(r.value.task, r.value.executions)
  {
    hide Append, LogAgrees, Close, CloseRow, Audited;
    AgreementBounds(c);
    var fallback := code == "fallback_authority";
    var r := FailCell(c, worker, Some(generation), Some(code), retryable, Some(fallback), now);
    var state := FailureState(Some(code));
    CloseLast(c.task, c.executions, false, Closing(ExecutionStatusOf(state), false, Some(fallback), None, None, Some(code)), now);
    if r.Ok? {
      CloseAudited(c.task, c.executions, false, Closing(ExecutionStatusOf(state), false, Some(fallback), None, None, Some(code)), now, r.value.task);
    }
  }

  lemma FinalizeAgrees(c: Cell, worker: string, generation: nat, run: Key, state: TaskState, reason: Option<string>, output: Option<string>, now: int)
    requires Agrees(c) && HoldsLease(c.task, worker, Some(generation), now)
    requires state == WaitingReview || state == Blocked || state == Failed
    ensures FinalizeCell(c, Some(generation), run, state, reason, output, now).Ok? ==>
              Agrees(FinalizeCell(c, Some(generation), run, state, reason, output, now).value)
  {
    hide CloseRow, Append, Coheres, Close, Audited;
    FinalizeCoheres(c, worker, Some(generation), run, state, reason, output, now);
    SameGeneration(c);
    CloseLast(c.task, c.executions, false, Closing(ExecutionStatusOf(state), false, None, output, Some(run), reason), now);
    if FinalizeCell(c, Some(generation), run, state, reason, output, now).Ok? {
      CloseAudited(c.task, c.executions, false, Closing(ExecutionStatusOf(state), false, None, output, Some(run), reason), now,
                   FinalizeCell(c, Some(generation), run, state, reason, output, now).value.task);
    }
  }

  // ------------------------------------------------------------------ a NULL generation

  // A start, fail or finalize with a NULL generation passes the fence of whoever holds the lease,
  // moves the task and leaves its execution behind: what a successful call leaves agrees exactly
  // when the call named a generation.
  lemma StartNeedsGeneration(c: Cell, worker: string, generation: Option<nat>, input: Option<string>, now: int)
    requires Agrees(c) && StartCell(c, worker, generation, input, now).Ok?
    ensures Agrees(StartCell(c, worker, generation, input, now).value) <==> generation.Some?
  {
    hide Append, LogAgrees, IsSha256, Audited;
    if generation.Some? {
      StartAgrees(c, worker, generation.value, input, now);
    } else {
      assert StartCell(c, worker, generation, input, now).value.executions == c.executions;
    }
  }

  lemma FailNeedsGeneration(c: Cell, worker: string, generation: Option<nat>, code: Option<string>, retryable: bool, fallback: Option<bool>, now: int)
    requires Agrees(c) && FailCell(c, worker, generation, code, retryable, fallback, now).Ok?
    ensures Agrees(FailCell(c, worker, generation, code, retryable, fallback, now).value) <==> generation.Some?
  {
    hide Append, LogAgrees, Audited, CloseRow;
    if generation.Some? {
      FailAgrees(c, worker, generation.value, code, retryable, fallback, now);
    } else {
      assert FailCell(c, worker, generation, code, retryable, fallback, now).value.executions == c.executions;
    }
  }

  lemma FinalizeNeedsGeneration(c: Cell, worker: string, generation: Option<nat>, run: Key, state: TaskState, reason: Option<string>, output: Option<string>, now: int)
    requires Agrees(c) && HoldsLease(c.task, worker, generation, now) && (state == WaitingReview || state == Blocked || state == Failed)
    requires FinalizeCell(c, generation, run, state, reason, output, now).Ok?
    ensures Agrees(FinalizeCell(c, generation, run, state, reason, output, now).value) <==> generation.Some?
  {
    hide Append, LogAgrees, Audited, CloseRow;
    if generation.Some? {
      FinalizeAgrees(c, worker, generation.value, run, state, reason, output, now);
    } else {
      assert FinalizeCell(c, generation, run, state, reason, output, now).value.executions == c.executions;
    }
  }
}
