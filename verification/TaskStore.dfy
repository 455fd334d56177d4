// The four task tables as updatable tables beside the planning database. Every method is one
// transaction: it changes the tables row by row, and an error leaves all of them as they were.
module TaskStore {
  import opened Sql
  import opened TaskLog
  import opened TaskCell
  import opened PlanningOutput
  import opened Idempotency
  import opened Planning
  import opened TaskQueue
  import opened PlanningStore

  class TaskStore {
    const planning: PlanningStore
    var tasks: map<Key, Task>
    var executions: map<Key, seq<Execution>>
    var events: map<Key, seq<Event>>
    var dispatch: map<Key, int>

    function Tables(): Queue
      reads this
    {
      Queue(tasks, executions, events, dispatch)
    }

    ghost predicate Valid()
      reads this
    {
      Linked(Tables())
    }

    constructor (planning: PlanningStore)
      ensures Valid() && Tables() == NO_TASKS && this.planning == planning
    {
      this.planning := planning;
      tasks, executions, events, dispatch := map[], map[], map[], map[];
    }

    // The effect of a transaction on the task tables alone.
    ghost predicate Committed(before: Queue, outcome: Result<Queue>, error: Option<Error>)
      reads this
    {
      match outcome
      case Err(e) => error == Some(e) && Tables() == before
      case Ok(after) => error == None && Tables() == after
    }

    // One more event row, numbered after the highest number of the task's log.
    method AppendEvent(k: Key, code: EventCode, status: PublicStatus, publicCode: Option<string>, attempt: nat, result: Option<Key>)
      modifies this`events
      ensures events == old(events)[k := Append(RowsOf(old(events), k), code, status, publicCode, attempt, result)]
    {
      var log := RowsOf(events, k);
      events := events[k := log + [Event(MaxSequence(log) + 1, code, status, publicCode, attempt, result)]];
    }

    method Create(a: CreateArgs, now: int) returns (r: Result<TaskReply>)
      requires Valid()
      modifies this, planning`records
      ensures Valid()
      ensures match CreateTask(old(planning.Tables()), old(Tables()), a, now)
              case Err(e) => r == Err(e) && Tables() == old(Tables()) && planning.Tables() == old(planning.Tables())
              case Ok((s, q, reply)) => r == Ok(reply) && Tables() == q && planning.Tables() == s
    {
      hide PinsValid, HasEffective, Linked, IsSha256, CaseAt, Insertable, Insert, CreateCell, Put;
      var c, k, pins, key := Key(a.org, a.caseId), Key(a.org, a.task), PinsOf(a), CreateKey(a);
      var prior := Lookup(planning.records, key, a.request);
      if prior.Mismatch? {
        return Err(NV008);
      }
      if prior.Replayed? {
        return Ok(RowReply(Tables(), prior.reply.id, true));
      }
      if !PinsValid(a) {
        return Err(NV006);
      }
      if Participant(c, a.actor, Advisor) !in planning.participants {
        return Err(NV007);
      }
      if !CaseAt(planning.Tables(), c, a.revision, InPlanning) || pins.pack !in planning.packs {
        return Err(NV003);
      }
      if HasEffective(tasks, pins) {
        return Err(NV009);
      }
      if k in tasks {
        return Err(UniqueViolation);
      }
      if RevisionKey(c, a.revision) !in planning.revisions {
        return Err(ForeignKeyViolation);
      }
      if !Insertable(planning.records, key, a.request) {
        return Err(CheckViolation);
      }
      CreateRows(k, pins, a.request, a.actor, now);
      planning.records := Insert(planning.records, key, a.request, k);
      return Ok(RowReply(Tables(), k, false));
    }

    // The task rows of a create.
    method CreateRows(k: Key, pins: Pins, request: string, actor: nat, now: int)
      requires Valid() && k !in tasks
      modifies this
      ensures Valid() && Tables() == Put(old(Tables()), k, CreateCell(pins, request, actor, now))
    {
      hide Append, Linked;
      ghost var before := Tables();
      Unlinked(k);
      tasks := tasks[k := NewTask(pins, request, actor)];
      executions := executions[k := []];
      dispatch := dispatch[k := now];
      AppendEvent(k, EQueued, Preparing, Some("queued"), 0, None);
      PutLinked(before, k, CreateCell(pins, request, actor, now));
    }

    lemma DispatchStays(before: Queue)
      requires Linked(before) && tasks == before.tasks && executions == before.executions && events == before.events
      requires dispatch.Keys <= before.dispatch.Keys
      ensures Valid()
    {
    }

    lemma Unlinked(k: Key)
      requires Valid() && k !in tasks
      ensures RowsOf(executions, k) == [] && RowsOf(events, k) == [] && k !in dispatch
    {
    }

    // UPDATE of the executions of one generation: every row of it is closed, or the statement raises.
    method CloseExecutions(k: Key, generation: Option<nat>, onlyOpen: bool, how: Closing, now: int) returns (error: Option<Error>)
      requires k in tasks
      modifies this`executions
      ensures match Close(RowsOf(old(executions), k), generation, onlyOpen, how, now)
              case Err(e) => error == Some(e) && executions == old(executions)
              case Ok(rows) => error == None && executions == old(executions)[k := rows]
    {
      hide CloseRow;
      var rows := RowsOf(executions, k);
      for i := 0 to |rows|
        invariant executions == old(executions)
        invariant forall j :: 0 <= j < i ==> !(Matches(rows[j], generation, onlyOpen) && Elapsed(rows[j], now) > MAX_INTEGER)
      {
        if Matches(rows[i], generation, onlyOpen) && Elapsed(rows[i], now) > MAX_INTEGER {
          return Some(NumericOverflow);
        }
      }
      executions := executions[k := seq(|rows|, i requires 0 <= i < |rows| =>
        if Matches(rows[i], generation, onlyOpen) then CloseRow(rows[i], how, now) else rows[i])];
      return None;
    }

    method Cancel(a: CancelArgs, now: int) returns (r: Result<TaskReply>)
      requires Valid()
      modifies this, planning`records
      ensures Valid()
      ensures match CancelTask(old(planning.Tables()), old(Tables()), a, now)
              case Err(e) => r == Err(e) && Tables() == old(Tables()) && planning.Tables() == old(planning.Tables())
              case Ok((s, q, reply)) => r == Ok(reply) && Tables() == q && planning.Tables() == s
    {
      hide Linked, IsTerminal, Insertable, Insert, IsExpected, CancelCell, CellOf, Put;
      var k, key := Key(a.org, a.task), CancelKey(a);
      var prior := Lookup(planning.records, key, a.request);
      if prior.Mismatch? {
        return Err(NV008);
      }
      if prior.Replayed? {
        return Ok(RowReply(Tables(), prior.reply.id, true));
      }
      if k !in tasks || Participant(tasks[k].pins.caseKey, a.actor, Advisor) !in planning.participants {
        return Err(NV007);
      }
      var selected := tasks[k];
      if !IsExpected(selected, a.expected) || IsTerminal(selected.state) {
        return Err(NV003);
      }
      var saved := Tables();
      var error := CancelRows(k, now);
      if error.Some? {
        return Err(error.value);
      }
      if !Insertable(planning.records, key, a.request) {
        tasks, executions, events, dispatch := saved.tasks, saved.executions, saved.events, saved.dispatch;
        return Err(CheckViolation);
      }
      planning.records := Insert(planning.records, key, a.request, k);
      return Ok(RowReply(Tables(), k, false));
    }

    // The task rows of a cancel.
    method CancelRows(k: Key, now: int) returns (error: Option<Error>)
      requires Valid() && k in tasks
      modifies this
      ensures Valid()
      ensures match CancelCell(CellOf(old(Tables()), k), now)
              case Err(e) => error == Some(e) && Tables() == old(Tables())
              case Ok(cell) => error == None && Tables() == Put(old(Tables()), k, cell)
    {
      hide Append, Linked, Close;
      ghost var before := Tables();
      LinkedRows(k);
      var selected := tasks[k];
      error := CloseExecutions(k, Some(selected.generation), true, Closing(XCancelled, false, None, None, None, Some("cancelled")), now);
      if error.None? {
        tasks := tasks[k := selected.(state := Cancelled, rowVersion := selected.rowVersion + 1, owner := None, expires := None, code := Some("cancelled"))];
        dispatch := dispatch - {k};
        AppendEvent(k, ECancelled, StatusCancelled, Some("cancelled"), selected.attempts, None);
        PutLinked(before, k, CancelCell(CellOf(before, k), now).value);
      }
    }

    // SELECT ... WHERE available_at <= now ORDER BY available_at, task_id LIMIT 1.
    method NextDue(now: int) returns (choice: Option<Key>)
      ensures IsChoice(Tables(), choice, now)
    {
      choice := None;
      var rest := dispatch.Keys;
      while rest != {}
        invariant rest <= dispatch.Keys
        invariant choice.None? ==> forall j :: j in dispatch && j !in rest ==> !IsDue(Tables(), j, now)
        invariant choice.Some? ==> IsDue(Tables(), choice.value, now)
        invariant choice.Some? ==> forall j :: j in dispatch && j !in rest && IsDue(Tables(), j, now) ==> NotAfter(Tables(), choice.value, j)
        decreases rest
      {
        var k :| k in rest;
        rest := rest - {k};
        if dispatch[k] <= now && (choice.None? || NotAfter(Tables(), k, choice.value)) {
          choice := Some(k);
        }
      }
    }

    lemma LinkedRows(k: Key)
      requires Valid() && k in tasks
      ensures k in executions && k in events
      ensures CellOf(Tables(), k) == Cell(tasks[k], executions[k], events[k], if k in dispatch then Some(dispatch[k]) else None)
    {
    }

    ghost predicate Claimed(before: Queue, k: Key, worker: string, now: int, r: Result<Option<Lease>>)
      requires k in before.tasks
      reads this
    {
      match ClaimCell(CellOf(before, k), worker, now)
      case Err(e) => r == Err(e) && Tables() == before
      case Ok((cell, leased)) =>
        r == Ok(if leased then Some(Lease(k, cell.task.generation)) else None) && Tables() == Put(before, k, cell)
    }

    // An exhausted task whose lease has run out.
    method GiveUp(k: Key, worker: string, now: int) returns (r: Result<Option<Lease>>)
      requires Valid() && k in tasks && IsHeld(tasks[k].state) && !(tasks[k].expires.Some? && tasks[k].expires.value > now)
      requires tasks[k].attempts >= MAX_ATTEMPTS
      modifies this
      ensures Valid()
      ensures Claimed(old(Tables()), k, worker, now, r)
    {
      hide Append, Close, Linked;
      ghost var before := Tables();
      LinkedRows(k);
      var selected := tasks[k];
      var error := CloseExecutions(k, Some(selected.generation), true, Closing(XFailed, false, None, None, None, Some("lease_expired")), now);
      if error.Some? {
        return Err(error.value);
      }
      tasks := tasks[k := selected.(state := Failed, rowVersion := selected.rowVersion + 1, owner := None, expires := None, code := Some("lease_expired"))];
      dispatch := dispatch - {k};
      AppendEvent(k, EFailed, StatusFailed, Some("lease_expired"), selected.attempts, None);
      PutLinked(before, k, ClaimCell(CellOf(before, k), worker, now).value.0);
      return Ok(None);
    }

    // A lease on a queued task, or on one whose lease has run out.
    method Grant(k: Key, worker: string, now: int) returns (r: Result<Option<Lease>>)
      requires Valid() && k in tasks && !IsTerminal(tasks[k].state)
      requires IsHeld(tasks[k].state) ==> !(tasks[k].expires.Some? && tasks[k].expires.value > now) && tasks[k].attempts < MAX_ATTEMPTS
      modifies this
      ensures Valid()
      ensures Claimed(old(Tables()), k, worker, now, r)
    {
      hide Append, Close, LeaseCell, Linked, IsTerminal;
      ghost var before := Tables();
      LinkedRows(k);
      var selected, saved := tasks[k], executions;
      var reclaimed := IsHeld(selected.state);
      if reclaimed {
        var error := CloseExecutions(k, Some(selected.generation), true, Closing(XRetryScheduled, true, None, None, None, Some("lease_expired")), now);
        if error.Some? {
          return Err(error.value);
        }
      }
      var refused := WriteLease(k, worker, reclaimed, now);
      if refused.Some? {
        executions := saved;
        return Err(refused.value);
      }
      assert Tables() == Put(before, k, ClaimCell(CellOf(before, k), worker, now).value.0);
      PutLinked(before, k, ClaimCell(CellOf(before, k), worker, now).value.0);
      return Ok(Some(Lease(k, selected.generation + 1)));
    }

    // The task row, the dispatch row, a new execution row and the events of a lease.
    method WriteLease(k: Key, worker: string, reclaimed: bool, now: int) returns (error: Option<Error>)
      requires k in tasks && k in executions && k in events
      modifies this
      ensures match LeaseCell(CellOf(old(Tables()), k), worker, reclaimed, now)
              case Err(e) => error == Some(e) && Tables() == old(Tables())
              case Ok(cell) => error == None && Tables() == Put(old(Tables()), k, cell) && cell.task.generation == old(tasks[k].generation) + 1
    {
      hide Append, LeaseCell, CellOf, Put;
      ghost var before := Tables();
      LeaseRows(before, k, worker, reclaimed, now);
      var selected := tasks[k];
      var attempt, generation, expires := selected.attempts + 1, selected.generation + 1, now + LEASE;
      if attempt > MAX_ATTEMPTS {
        return Some(CheckViolation);
      }
      var rows := executions[k];
      if exists i :: 0 <= i < |rows| && (rows[i].attempt == attempt || rows[i].generation == generation) {
        return Some(UniqueViolation);
      }
      tasks := tasks[k := selected.(state := Leased, rowVersion := selected.rowVersion + 1, attempts := attempt, owner := Some(worker),
                                    generation := generation, expires := Some(expires), code := None)];
      dispatch := dispatch[k := expires];
      executions := executions[k := rows + [Execution(attempt, generation, XLeased, false, false, None, None, None, None, None, None, None, now)]];
      if reclaimed {
        AppendEvent(k, ELeaseReclaimed, Preparing, Some("lease_expired"), attempt, None);
      }
      AppendEvent(k, ELeaseAcquired, Preparing, Some("lease_acquired"), attempt, None);
      return None;
    }

    lemma LeaseRows(q: Queue, k: Key, worker: string, reclaimed: bool, now: int)
      requires k in q.tasks && k in q.executions && k in q.events
      ensures var t, rows := q.tasks[k], q.executions[k];
              var attempt, generation, expires := t.attempts + 1, t.generation + 1, now + LEASE;
              var r := LeaseCell(CellOf(q, k), worker, reclaimed, now);
              if attempt > MAX_ATTEMPTS then r == Err(CheckViolation)
              else if exists i :: 0 <= i < |rows| && (rows[i].attempt == attempt || rows[i].generation == generation) then r == Err(UniqueViolation)
              else
                && r.Ok? && r.value.task.generation == generation
                && Put(q, k, r.value) == Queue(
                     q.tasks[k := t.(state := Leased, rowVersion := t.rowVersion + 1, attempts := attempt, owner := Some(worker),
                                     generation := generation, expires := Some(expires), code := None)],
                     q.executions[k := rows + [Execution(attempt, generation, XLeased, false, false, None, None, None, None, None, None, None, now)]],
                     q.events[k := r.value.events],
                     q.dispatch[k := expires])
                && r.value.events == Append(
                     if reclaimed then Append(q.events[k], ELeaseReclaimed, Preparing, Some("lease_expired"), attempt, None) else q.events[k],
                     ELeaseAcquired, Preparing, Some("lease_acquired"), attempt, None)
    {
      hide Append;
    }

    // The head row that the call has looked at is a ghost result.
    method Claim(worker: string, now: int) returns (r: Result<Option<Lease>>, ghost choice: Option<Key>)
      requires Valid()
      modifies this
      ensures Valid()
      ensures IsChoice(old(Tables()), choice, now)
      ensures match ClaimTask(old(Tables()), worker, choice, now)
              case Err(e) => r == Err(e) && Tables() == old(Tables())
              case Ok((q, lease)) => r == Ok(lease) && Tables() == q
    {
      hide Append, Linked, Close, IsChoice, IsWorker, LeaseCell;
      ghost var before := Tables();
      var head := NextDue(now);
      choice := head;
      if !IsWorker(worker) {
        r := Err(NV006);
        return;
      }
      if head.None? {
        r := Ok(None);
        return;
      }
      var k := head.value;
      if k !in tasks {
        dispatch := dispatch - {k};
        DispatchStays(before);
        r := Ok(None);
        return;
      }
      LinkedRows(k);
      var selected := tasks[k];
      if IsTerminal(selected.state) {
        dispatch := dispatch - {k};
        assert Tables() == Put(before, k, ClaimCell(CellOf(before, k), worker, now).value.0);
        PutLinked(before, k, ClaimCell(CellOf(before, k), worker, now).value.0);
        r := Ok(None);
        return;
      }
      if IsHeld(selected.state) {
        if selected.expires.Some? && selected.expires.value > now {
          dispatch := dispatch[k := selected.expires.value];
          assert Tables() == Put(before, k, ClaimCell(CellOf(before, k), worker, now).value.0);
          PutLinked(before, k, ClaimCell(CellOf(before, k), worker, now).value.0);
          r := Ok(None);
          return;
        }
        if selected.attempts >= MAX_ATTEMPTS {
          r := GiveUp(k, worker, now);
          return;
        }
      }
      r := Grant(k, worker, now);
    }

    method Start(k: Key, worker: string, generation: Option<nat>, input: Option<string>, now: int) returns (error: Option<Error>)
      requires Valid()
      modifies this
      ensures Valid()
      ensures Committed(old(Tables()), StartTask(old(Tables()), k, worker, generation, input, now), error)
    {
      hide Append, Linked, IsSha256, HoldsLease;
      ghost var before := Tables();
      if input.Some? && !IsSha256(input.value) {
        return Some(NV006);
      }
      if k !in tasks || tasks[k].state != Leased || !HoldsLease(tasks[k], worker, generation, now) {
        return Some(NV010);
      }
      LinkedRows(k);
      var selected := tasks[k];
      tasks := tasks[k := selected.(state := Running, rowVersion := selected.rowVersion + 1)];
      executions := executions[k := StartRows(executions[k], generation, input, now)];
      AppendEvent(k, EExecutionStarted, Preparing, Some("execution_started"), selected.attempts, None);
      assert Tables() == Put(before, k, StartCell(CellOf(before, k), worker, generation, input, now).value);
      PutLinked(before, k, StartCell(CellOf(before, k), worker, generation, input, now).value);
      return None;
    }

    method Heartbeat(k: Key, worker: string, generation: Option<nat>, now: int) returns (error: Option<Error>)
      requires Valid()
      modifies this`tasks, this`dispatch
      ensures Valid()
      ensures Committed(old(Tables()), HeartbeatTask(old(Tables()), k, worker, generation, now), error)
    {
      hide Linked, HoldsLease;
      ghost var before := Tables();
      var expires := now + LEASE;
      if k !in tasks || generation.None? || !HoldsLease(tasks[k], worker, generation, now) {
        return Some(NV010);
      }
      LinkedRows(k);
      tasks := tasks[k := tasks[k].(expires := Some(expires))];
      if k in dispatch {
        dispatch := dispatch[k := expires];
      }
      assert Tables() == Put(before, k, HeartbeatCell(CellOf(before, k), worker, generation, now).value);
      PutLinked(before, k, HeartbeatCell(CellOf(before, k), worker, generation, now).value);
      return None;
    }

    // The UPDATE of a failure, which raises for a fallback that is NULL.
    method CloseFailedExecutions(k: Key, generation: Option<nat>, how: Closing, now: int) returns (error: Option<Error>)
      requires k in tasks
      modifies this`executions
      ensures match CloseFailed(RowsOf(old(executions), k), generation, how, now)
              case Err(e) => error == Some(e) && executions == old(executions)
              case Ok(rows) => error == None && executions == old(executions)[k := rows]
    {
      hide Close;
      var saved, rows := executions, RowsOf(executions, k);
      error := CloseExecutions(k, generation, false, how, now);
      if error == None && how.fallback.None? && exists i :: 0 <= i < |rows| && Matches(rows[i], generation, false) {
        executions := saved;
        error := Some(NotNullViolation);
      }
    }

    method ScheduleRetry(k: Key, generation: Option<nat>, code: Option<string>, fallback: Option<bool>, now: int) returns (error: Option<Error>)
      requires Valid() && k in tasks && k in executions && k in events
      modifies this
      ensures Valid()
      ensures Committed(old(Tables()), PutResult(old(Tables()), k, RetryCell(CellOf(old(Tables()), k), generation, code, fallback, now)), error)
    {
      hide Append, CloseFailed, Linked;
      ghost var before := Tables();
      var selected := tasks[k];
      error := CloseFailedExecutions(k, generation, Closing(XRetryScheduled, true, fallback, None, None, code), now);
      if error.Some? {
        return;
      }
      tasks := tasks[k := selected.(state := Queued, rowVersion := selected.rowVersion + 1, owner := None, expires := None, code := None)];
      if k in dispatch {
        dispatch := dispatch[k := now];
      }
      AppendEvent(k, ERetryScheduled, Preparing, code, selected.attempts, None);
      assert Tables() == Put(before, k, RetryCell(CellOf(before, k), generation, code, fallback, now).value);
      PutLinked(before, k, RetryCell(CellOf(before, k), generation, code, fallback, now).value);
    }

    method CloseAsFailed(k: Key, generation: Option<nat>, code: Option<string>, fallback: Option<bool>, now: int) returns (error: Option<Error>)
      requires Valid() && k in tasks && k in executions && k in events
      modifies this
      ensures Valid()
      ensures Committed(old(Tables()), PutResult(old(Tables()), k, GiveUpCell(CellOf(old(Tables()), k), generation, code, fallback, now)), error)
    {
      hide Append, CloseFailed, Linked, FailureState, EventOf, StatusOf, ExecutionStatusOf;
      ghost var before := Tables();
      var selected := tasks[k];
      var state := FailureState(code);
      error := CloseFailedExecutions(k, generation, Closing(ExecutionStatusOf(state), false, fallback, None, None, code), now);
      if error.Some? {
        return;
      }
      tasks := tasks[k := selected.(state := state, rowVersion := selected.rowVersion + 1, owner := None, expires := None, code := code)];
      dispatch := dispatch - {k};
      AppendEvent(k, EventOf(state), StatusOf(EventOf(state)), code, selected.attempts, None);
      PutLinked(before, k, GiveUpCell(CellOf(before, k), generation, code, fallback, now).value);
    }

    method Fail(k: Key, worker: string, generation: Option<nat>, code: Option<string>, retryable: bool, fallback: Option<bool>, now: int)
      returns (error: Option<Error>)
      requires Valid()
      modifies this
      ensures Valid()
      ensures Committed(old(Tables()), FailTask(old(Tables()), k, worker, generation, code, retryable, fallback, now), error)
    {
      hide HoldsLease, RetryCell, GiveUpCell, Linked, Put;
      if fallback != IsFallback(code) {
        return Some(NV006);
      }
      if k !in tasks || !HoldsLease(tasks[k], worker, generation, now) {
        return Some(NV010);
      }
      LinkedRows(k);
      if retryable && tasks[k].attempts < MAX_ATTEMPTS {
        error := ScheduleRetry(k, generation, code, fallback, now);
      } else {
        error := CloseAsFailed(k, generation, code, fallback, now);
      }
    }

    // The task side of a stored planning result.
    method CloseWithResult(k: Key, generation: Option<nat>, run: Key, state: TaskState, reason: Option<string>, output: Option<string>, now: int)
      returns (error: Option<Error>)
      requires Valid() && k in tasks && k in executions && k in events
      modifies this
      ensures Valid()
      ensures Committed(old(Tables()), PutResult(old(Tables()), k, FinalizeCell(CellOf(old(Tables()), k), generation, run, state, reason, output, now)), error)
    {
      hide Append, Close, Linked, EventOf, StatusOf, ExecutionStatusOf;
      ghost var before := Tables();
      var selected := tasks[k];
      error := CloseExecutions(k, generation, false, Closing(ExecutionStatusOf(state), false, None, output, Some(run), reason), now);
      if error.Some? {
        return;
      }
      tasks := tasks[k := selected.(state := state, rowVersion := selected.rowVersion + 1, owner := None, expires := None, result := Some(run),
                                    code := if state == WaitingReview then None else reason)];
      dispatch := dispatch - {k};
      AppendEvent(k, EventOf(state), StatusOf(EventOf(state)), reason, selected.attempts, Some(run));
      PutLinked(before, k, FinalizeCell(CellOf(before, k), generation, run, state, reason, output, now).value);
    }

    // The planning result first, then the task. A planning result that the task side cannot
    // follow is rolled back with it.
    method Finalize(a: FinalizeArgs, now: int) returns (error: Option<Error>)
      requires Valid()
      modifies this, planning`runs, planning`rows, planning`cases
      ensures Valid()
      ensures match FinalizeTask(old(planning.Tables()), old(Tables()), a, now)
              case Err(e) => error == Some(e) && Tables() == old(Tables()) && planning.Tables() == old(planning.Tables())
              case Ok((s, q)) => error == None && Tables() == q && planning.Tables() == s
    {
      hide Linked, HoldsLease, PersistResult, FinalizeCell, Put;
      var k := Key(a.org, a.task);
      if k !in tasks || !HoldsLease(tasks[k], a.worker, a.generation, now) {
        return Some(NV010);
      }
      if !IsTerminalRun(a.target) {
        return Some(NV006);
      }
      LinkedRows(k);
      var runs, rows, cases := planning.runs, planning.rows, planning.cases;
      error := planning.PersistResult(ResultArgs(a, tasks[k].pins));
      if error.Some? {
        return;
      }
      error := CloseWithResult(k, a.generation, Key(a.org, a.run), ClosingState(a.target), a.reason, a.outputHash, now);
      if error.Some? {
        planning.runs, planning.rows, planning.cases := runs, rows, cases;
      }
    }
  }
}
