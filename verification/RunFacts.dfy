// What whole runs guarantee to callers: tables that agree, effects that happen once, and results
// that stay.
module RunFacts {
  import opened Sql
  import opened TaskLog
  import opened TaskCell
  import opened PlanningOutput
  import opened Idempotency
  import opened Planning
  import opened PlanningInvariants
  import opened PlanningHandoff
  import opened PlanningDecision
  import opened PlanningTheorems
  import opened TaskQueue
  import opened TaskInvariants
  import opened Promotion
  import opened PromotionTheorems
  import opened LedgerInvariants
  import opened Runs
  import opened RunSteps
  import opened RunHistory

  // ------------------------------------------------------------------ the tables of one task

  // What the tables say about one task in every reachable state: it has one execution for each
  // attempt, under the generation of its number, and the last one is open while a lease is held;
  // it has a dispatch row exactly while it is open, at the lease end while a lease is held.
  ghost predicate TablesCohere(q: Queue, k: Key) {
    && k in q.tasks && k in q.executions && k in q.events
    && var t, rows := q.tasks[k], q.executions[k];
       && t.generation == t.attempts == |rows| <= MAX_ATTEMPTS && t.state != Succeeded
       && (t.state == Queued ==> t.attempts < MAX_ATTEMPTS)
       && (k in q.dispatch <==> !IsTerminal(t.state))
       && (IsHeld(t.state) ==> k in q.dispatch && t.expires == Some(q.dispatch[k]) && t.owner.Some?)
       && (forall i :: 0 <= i < |rows| ==> rows[i].attempt == i + 1 && rows[i].generation == i + 1)
       && (IsHeld(t.state) ==> |rows| > 0 && TaskCell.IsOpen(rows[|rows| - 1]))
  }

  lemma CoherenceTables(q: Queue, k: Key)
    requires CellsOk(q) && k in q.tasks
    ensures TablesCohere(q, k)
  {
    hide LogAgrees, TaskCell.IsOpen;
    CellCoheres(q, k);
    AgreementBounds(CellOf(q, k));
  }

  lemma TablesStayCoherent(w: World, k: Key, rules: Rules)
    requires Reachable(w, rules) && k in w.queue.tasks
    ensures TablesCohere(w.queue, k)
  {
    hide *;
    ReachableInv(w, rules);
    WorldCells(w, rules);
    CoherenceTables(w.queue, k);
  }

  predicate IsWaiting(q: Queue, k: Key) {
    k in q.tasks && q.tasks[k].state == WaitingReview
  }

  // A task that waits for review points to a handed-off run with exactly its pins, and no other
  // task points to that run.
  lemma WaitingTaskHasItsRun(w: World, k: Key, rules: Rules)
    requires IsWaiting(w.queue, k) && Reachable(w, rules)
    ensures ReviewableResult(w.store, w.queue, k)
  {
    hide *;
    ReachableInv(w, rules);
    WorldCells(w, rules);
    WaitingResult(w.store, w.queue, k);
  }

  ghost predicate ReviewableResult(s: Store, q: Queue, k: Key) {
    k in q.tasks
    && var t := q.tasks[k];
    && t.result.Some? && t.result.value in s.runs
    && (var run := s.runs[t.result.value];
        && run.state == ReviewRequired && run.caseKey == t.pins.caseKey && run.revision == t.pins.revision
        && run.pack == t.pins.pack && run.policy == t.pins.policy)
    && forall j :: j in q.tasks && q.tasks[j].result == t.result ==> j == k
  }

  lemma WaitingResult(s: Store, q: Queue, k: Key)
    requires IsWaiting(q, k) && QueueInv(s, q)
    ensures ReviewableResult(s, q, k)
  {
    hide TaskRecordsOk, PinsOk, EffectiveOk, Coheres;
    CellCoheres(q, k);
    AgreementBounds(CellOf(q, k));
    assert ResultAgrees(s, q.tasks[k]);
  }

  predicate EffectiveTwins(q: Queue, j: Key, k: Key) {
    && j in q.tasks && k in q.tasks && q.tasks[j].pins == q.tasks[k].pins
    && IsEffective(q.tasks[j].state) && IsEffective(q.tasks[k].state)
  }

  // No two effective tasks have the same inputs.
  lemma OneEffectiveTask(w: World, j: Key, k: Key, rules: Rules)
    requires EffectiveTwins(w.queue, j, k) && Reachable(w, rules)
    ensures j == k
  {
    hide *;
    ReachableInv(w, rules);
    WorldCells(w, rules);
    EffectiveIsUnique(w.store, w.queue, j, k);
  }

  lemma EffectiveIsUnique(s: Store, q: Queue, j: Key, k: Key)
    requires EffectiveTwins(q, j, k) && QueueInv(s, q)
    ensures j == k
  {
    hide CellsOk, PinsOk, ResultsOk, TaskRecordsOk;
  }

  // The case has left planning, or has a newer revision than the task's.
  predicate IsStale(s: Store, q: Queue, k: Key) {
    k in q.tasks && !CaseAt(s, q.tasks[k].pins.caseKey, q.tasks[k].pins.revision, InPlanning)
  }

  // A result for a stale case changes nothing.
  lemma StaleResultChangesNothing(w: World, m: Moment, a: FinalizeArgs, rules: Rules)
    requires Happens(w, m, rules) && m.call == FinalizeCall(a) && IsStale(w.store, w.queue, Key(a.org, a.task)) && Reachable(w, rules)
    ensures m.outcome.Err? && m.after == Tick(w, m.wait)
  {
    hide *;
    var v := Tick(w, m.wait);
    TickTables(w, m.wait);
    ReachableInv(w, rules);
    WorldCells(w, rules);
    QueuePins(w.store, w.queue);
    StaleFinalize(w.store, w.queue, a, v.now);
    CallIs(v, m.call, rules);
    if m.outcome.Ok? {
      MomentOk(w, m, m.outcome.value, rules);
      OnFinalizeOk(v, FinalizeTask(v.store, v.queue, a, v.now), m.after, m.outcome.value);
    } else {
      MomentErr(w, m, m.outcome.error, rules);
    }
  }

  lemma QueuePins(s: Store, q: Queue)
    requires QueueInv(s, q)
    ensures PinsOk(s, q)
  {
    hide CellsOk, PinsOk, EffectiveOk, ResultsOk, TaskRecordsOk;
  }

  lemma StaleFinalize(s: Store, q: Queue, a: FinalizeArgs, now: int)
    requires PinsOk(s, q) && IsStale(s, q, Key(a.org, a.task))
    ensures FinalizeTask(s, q, a, now).Err?
  {
    hide PersistResult, FinalizeCell, HoldsLease, CaseAt;
    var k := Key(a.org, a.task);
    assert CaseOf(ResultArgs(a, q.tasks[k].pins)) == q.tasks[k].pins.caseKey;
    StaleResult(s, ResultArgs(a, q.tasks[k].pins));
  }

  lemma StaleResult(s: Store, a: PersistArgs)
    requires !CaseAt(s, CaseOf(a), a.revision, InPlanning)
    ensures PersistResult(s, a).Err?
  {
    hide StoreOutput, Retire, ClaimsOf, GuardRun, HandOff, IsSha256;
  }

  // ------------------------------------------------------------------ effects happen once

  function AnswerId(answer: Answer): Option<Key> {
    match answer
    case Replied(reply) => Some(reply.id)
    case TaskReplied(reply) => Some(reply.id)
    case Verified(reply) => Some(reply.id)
    case _ => None
  }

  predicate IsReplay(answer: Answer) {
    match answer
    case Replied(reply) => reply.replayed
    case TaskReplied(reply) => reply.replayed
    case Verified(reply) => reply.replayed
    case _ => false
  }

  function RecordOf(w: World, call: Call): Option<Record> {
    if KeyOf(call).Some? && KeyOf(call).value in w.store.records then Some(w.store.records[KeyOf(call).value]) else None
  }

  // Answered from a record: the same request gets the recorded answer, another one an error, and
  // nothing changes.
  predicate AnsweredFrom(w: World, m: Moment, record: Option<Record>) {
    && record.Some? && m.after == Tick(w, m.wait)
    && if RequestOf(m.call) != record.value.request then m.outcome == Err(NV008)
       else m.outcome.Ok? && AnswerId(m.outcome.value) == Some(record.value.response) && IsReplay(m.outcome.value)
  }

  // The same before the time is told.
  ghost predicate AppliedFrom(w: World, call: Call, record: Record, outcome: Outcome) {
    if RequestOf(call) != record.request then outcome == Err(NV008)
    else outcome.Ok? && outcome.value.0 == w && AnswerId(outcome.value.1) == Some(record.response) && IsReplay(outcome.value.1)
  }

  lemma ApplyRecorded(w: World, call: Call, record: Record, rules: Rules)
    requires RecordOf(w, call) == Some(record)
    ensures AppliedFrom(w, call, record, Apply(w, call, rules))
  {
    hide PinsValid, HasEffective, CancelCell, CreateCell, ReviewTarget, DecideTarget, ContractOk, EvidenceAccepted, VerifyRefusal, ApproveCandidate, Conclude,
         PublishRevision, TransitionCase, AddParticipants, PersistPack, PersistEvidence, PersistResult, ClaimTask, StartTask, HeartbeatTask, FailTask, FinalizeTask,
         ReviewRefusal, DecideRefusal, RecordDecision, WithReview, MoveCase, CaseAt, Put, Values;
  }

  // A call whose key is on record is answered from the record alone.
  lemma RecordAnswers(w: World, m: Moment, rules: Rules)
    requires Happens(w, m, rules) && !Unrecorded(w, m.call)
    ensures AnsweredFrom(w, m, RecordOf(w, m.call))
  {
    hide Happens, Apply, AnswerId, IsReplay, KeyOf, RequestOf;
    var v, record := Tick(w, m.wait), RecordOf(w, m.call).value;
    ApplyRecorded(v, m.call, record, rules);
    if m.outcome.Ok? {
      MomentOk(w, m, m.outcome.value, rules);
    } else {
      MomentErr(w, m, m.outcome.error, rules);
    }
  }

  // The first successful call writes its record: its request and the id that it answers.
  predicate FirstAnswer(m: Moment) {
    && m.outcome.Ok? && AnswerId(m.outcome.value).Some? && !IsReplay(m.outcome.value)
    && RecordOf(m.after, m.call) == Some(Record(RequestOf(m.call), AnswerId(m.outcome.value).value))
  }

  ghost predicate Recorded(v: World, k: RecordKey, request: string, response: Key) {
    k in v.store.records && v.store.records[k] == Record(request, response)
  }

  lemma InsertedRecord(w: World, v: World, k: RecordKey, request: string, response: Key)
    requires v.store.records == Insert(w.store.records, k, request, response)
    ensures Recorded(v, k, request, response)
  {
  }

  lemma ReviewRecord(s: Store, a: ReviewArgs, date: Option<int>, version: nat, t: Store, reply: Reply)
    requires ReviewKey(a) !in s.records && ReviewRun(s, a, date, version) == Ok((t, reply))
    ensures t.records == Insert(s.records, ReviewKey(a), a.request, Key(a.org, a.review)) && reply == Reply(Key(a.org, a.review), false)
  {
    hide ReviewRun, ReviewTarget, ReviewRefusal, WithReview;
    ReviewExactly(s, a, date, version);
  }

  lemma DecideRecord(s: Store, a: DecideArgs, pick: Option<nat>, t: Store, reply: Reply)
    requires DecideKey(a) !in s.records && DecideBrief(s, a, pick) == Ok((t, reply))
    ensures t.records == Insert(s.records, DecideKey(a), a.request, Key(a.org, a.decision)) && reply == Reply(Key(a.org, a.decision), false)
  {
    hide DecideBrief, DecideTarget, DecideRefusal, NewDecision, NewTimeline;
    DecideExactly(s, a, pick);
  }

  // What the six recorded calls write and answer.
  ghost predicate Writes(call: Call, v: World, answer: Answer) {
    match call
    case ReviewCall(a, _, _) => Recorded(v, ReviewKey(a), a.request, Key(a.org, a.review)) && answer == Replied(Reply(Key(a.org, a.review), false))
    case DecideCall(a, _) => Recorded(v, DecideKey(a), a.request, Key(a.org, a.decision)) && answer == Replied(Reply(Key(a.org, a.decision), false))
    case CreateCall(a) =>
      Recorded(v, CreateKey(a), a.request, Key(a.org, a.task)) && answer.TaskReplied? && answer.task.id == Key(a.org, a.task) && !answer.task.replayed
    case CancelCall(a) =>
      Recorded(v, CancelKey(a), a.request, Key(a.org, a.task)) && answer.TaskReplied? && answer.task.id == Key(a.org, a.task) && !answer.task.replayed
    case ImportCall(a) => Recorded(v, ImportKey(a), a.request, Key(a.org, a.candidate)) && answer == Replied(Reply(Key(a.org, a.candidate), false))
    case VerifyCall(a, _) =>
      Recorded(v, VerifyKey(a), a.request, Key(a.org, a.verification)) && answer.Verified?
      && answer.verified.id == Key(a.org, a.verification) && !answer.verified.replayed
    case _ => false
  }

  lemma PlanningWrites(w: World, call: Call, v: World, answer: Answer, rules: Rules)
    requires Unrecorded(w, call) && (call.ReviewCall? || call.DecideCall?)
    requires Apply(w, call, rules) == Ok((v, answer))
    ensures Writes(call, v, answer)
  {
    hide Apply, Insert, Recorded, ReviewKey, DecideKey, Unrecorded,
         PublishRevision, TransitionCase, AddParticipants, PersistPack, PersistEvidence, PersistResult, ReviewRun, DecideBrief, CreateTask, CancelTask,
         ClaimTask, StartTask, HeartbeatTask, FailTask, FinalizeTask, ImportCandidate, VerifyCandidate;
    CallIs(w, call, rules);
    KeyIs(w, call);
    match call
    case ReviewCall(a, date, version) =>
      OnRecordedOk(w, ReviewRun(w.store, a, date, version), v, answer);
      ReviewRecord(w.store, a, date, version, v.store, answer.reply);
      InsertedRecord(w, v, ReviewKey(a), a.request, Key(a.org, a.review));
    case DecideCall(a, pick) =>
      OnRecordedOk(w, DecideBrief(w.store, a, pick), v, answer);
      DecideRecord(w.store, a, pick, v.store, answer.reply);
      InsertedRecord(w, v, DecideKey(a), a.request, Key(a.org, a.decision));
  }

  lemma TaskWrites(w: World, call: Call, v: World, answer: Answer, rules: Rules)
    requires WorldInv(w, rules) && Unrecorded(w, call) && (call.CreateCall? || call.CancelCall?)
    requires Apply(w, call, rules) == Ok((v, answer))
    ensures Writes(call, v, answer)
  {
    hide Apply, Insert, Recorded, CreateKey, CancelKey, Unrecorded, WorldInv, CellsOk, Inv, QueueInv, LedgerInv, Linked, CasesOk, EvidenceOk,
         RecordsOk, RunsOk,
         PublishRevision, TransitionCase, AddParticipants, PersistPack, PersistEvidence, PersistResult, ReviewRun, DecideBrief, CreateTask, CancelTask,
         ClaimTask, StartTask, HeartbeatTask, FailTask, FinalizeTask, ImportCandidate, VerifyCandidate;
    WorldCells(w, rules);
    InvCases(w.store);
    CallIs(w, call, rules);
    KeyIs(w, call);
    match call
    case CreateCall(a) =>
      OnTaskOk(w, CreateTask(w.store, w.queue, a, w.now), v, answer);
      CreateRecord(w.store, w.queue, a, w.now, v.store, v.queue, answer.task);
      InsertedRecord(w, v, CreateKey(a), a.request, Key(a.org, a.task));
    case CancelCall(a) =>
      OnTaskOk(w, CancelTask(w.store, w.queue, a, w.now), v, answer);
      CancelRecord(w.store, w.queue, a, w.now, v.store, v.queue, answer.task);
      InsertedRecord(w, v, CancelKey(a), a.request, Key(a.org, a.task));
  }

  lemma LedgerWrites(w: World, call: Call, v: World, answer: Answer, rules: Rules)
    requires WorldInv(w, rules) && Chosen(w, call) && Unrecorded(w, call) && (call.ImportCall? || call.VerifyCall?)
    requires Apply(w, call, rules) == Ok((v, answer))
    ensures Writes(call, v, answer)
  {
    hide Apply, Insert, Recorded, ImportKey, VerifyKey, Unrecorded, WorldInv, CellsOk, Inv, QueueInv, LedgerInv, Linked, CasesOk,
         EvidenceOk, RecordsOk, RunsOk, NextPackVersion, Chosen,
         PublishRevision, TransitionCase, AddParticipants, PersistPack, PersistEvidence, PersistResult, ReviewRun, DecideBrief, CreateTask, CancelTask,
         ClaimTask, StartTask, HeartbeatTask, FailTask, FinalizeTask, ImportCandidate, VerifyCandidate;
    WorldCells(w, rules);
    InvCases(w.store);
    CallIs(w, call, rules);
    KeyIs(w, call);
    match call
    case ImportCall(a) =>
      OnImportOk(w, ImportCandidate(w.store, w.ledger, a, rules), v, answer);
      ImportRecord(w.store, w.ledger, a, rules, v.store, v.ledger, answer.reply);
      InsertedRecord(w, v, ImportKey(a), a.request, Key(a.org, a.candidate));
    case VerifyCall(a, version) =>
      ChosenVersion(w, a, version);
      OnVerifyOk(w, VerifyCandidate(w.store, w.ledger, a, rules, version), v, answer);
      VerifyRecord(w.store, w.ledger, a, rules, version, v.store, v.ledger, answer.verified);
      InsertedRecord(w, v, VerifyKey(a), a.request, Key(a.org, a.verification));
  }

  lemma WrittenIsFirst(m: Moment, answer: Answer)
    requires m.outcome == Ok(answer) && Writes(m.call, m.after, answer)
    ensures FirstAnswer(m)
  {
  }

  lemma FirstCallRecords(w: World, m: Moment, rules: Rules)
    requires WorldInv(w, rules) && Happens(w, m, rules) && KeyOf(m.call).Some? && Unrecorded(w, m.call) && m.outcome.Ok?
    ensures FirstAnswer(m)
  {
    hide *;
    var v, answer := Tick(w, m.wait), m.outcome.value;
    TickInv(w, m.wait, rules);
    SameUnrecorded(w, v, m.call);
    MomentCall(w, m, rules);
    MomentOk(w, m, answer, rules);
    RecordedKinds(m.call);
    if m.call.ReviewCall? || m.call.DecideCall? {
      PlanningWrites(v, m.call, m.after, answer, rules);
    } else if m.call.CreateCall? || m.call.CancelCall? {
      TaskWrites(v, m.call, m.after, answer, rules);
    } else {
      LedgerWrites(v, m.call, m.after, answer, rules);
    }
    WrittenIsFirst(m, answer);
  }

  lemma SameUnrecorded(w: World, v: World, call: Call)
    requires v.store == w.store
    ensures Unrecorded(v, call) == Unrecorded(w, call)
  {
  }

  lemma RecordedKinds(call: Call)
    requires KeyOf(call).Some?
    ensures call.ReviewCall? || call.DecideCall? || call.CreateCall? || call.CancelCall? || call.ImportCall? || call.VerifyCall?
  {
  }

  lemma RecordStays(w: World, v: World, call: Call, again: Call)
    requires Later(w, v) && KeyOf(again) == KeyOf(call) && RecordOf(w, call).Some?
    ensures RecordOf(v, again) == RecordOf(w, call) && !Unrecorded(v, again)
  {
    hide Extends, QueueLater, LedgerLater, EntriesFrozen, KeyOf;
  }

  // Exactly once: after a first success, however long afterwards, a call with the same key gets
  // the same id for the same request and an error for another one, and changes nothing.
  lemma ExactlyOnce(w: World, first: Moment, run: seq<Moment>, again: Moment, rules: Rules)
    requires Reachable(w, rules) && IsRun(w, [first] + run + [again], rules)
    requires KeyOf(first.call).Some? && Unrecorded(w, first.call) && first.outcome.Ok? && KeyOf(again.call) == KeyOf(first.call)
    ensures FirstAnswer(first) && AnsweredFrom(Last(first.after, run), again, RecordOf(first.after, first.call))
  {
    hide *;
    var u := Last(first.after, run);
    Parts(w, first, run, again, rules);
    ReachableInv(w, rules);
    FirstCallRecords(w, first, rules);
    FirstRecord(first);
    MomentSteps(w, first, rules);
    StepsInv(w, first.after, rules);
    RunLater(first.after, run, rules);
    RecordStays(first.after, u, first.call, again.call);
    RecordAnswers(u, again, rules);
  }

  lemma FirstRecord(m: Moment)
    requires FirstAnswer(m)
    ensures RecordOf(m.after, m.call).Some?
  {
    hide RecordOf, AnswerId, IsReplay, RequestOf;
  }

  // The records of every operation are in bijection with the rows that it made: tasks, cancelled
  // tasks, reviews, decisions, candidates and verifications.
  ghost predicate OneRecordPerEffect(w: World) {
    && Bijective(w.store.records, TaskCreate, w.queue.tasks.Keys)
    && Bijective(w.store.records, TaskCancel, CancelledTasks(w.queue))
    && Bijective(w.store.records, AdvisorReview, w.store.reviews.Keys)
    && Bijective(w.store.records, FamilyDecision, w.store.decisions.Keys)
    && Bijective(w.store.records, CandidateImport, w.ledger.candidates.Keys)
    && Bijective(w.store.records, CandidateVerify, w.ledger.verifications.Keys)
  }

  // So there are exactly as many records as rows.
  ghost predicate AsManyRecords(w: World) {
    && |KeysOf(w.store.records, TaskCreate)| == |w.queue.tasks.Keys|
    && |KeysOf(w.store.records, TaskCancel)| == |CancelledTasks(w.queue)|
    && |KeysOf(w.store.records, AdvisorReview)| == |w.store.reviews.Keys|
    && |KeysOf(w.store.records, FamilyDecision)| == |w.store.decisions.Keys|
    && |KeysOf(w.store.records, CandidateImport)| == |w.ledger.candidates.Keys|
    && |KeysOf(w.store.records, CandidateVerify)| == |w.ledger.verifications.Keys|
  }

  lemma RecordsCountEffects(w: World, rules: Rules)
    requires Reachable(w, rules)
    ensures OneRecordPerEffect(w) && AsManyRecords(w)
  {
    hide *;
    ReachableInv(w, rules);
    WorldCells(w, rules);
    InvCases(w.store);
    QueueRecords(w.store, w.queue);
    LedgerRecords(w.store, w.ledger, rules);
    RecordsOneToOne(w);
    RecordsCounted(w);
  }

  lemma RecordsOneToOne(w: World)
    requires RecordsOk(w.store) && TaskRecordsOk(w.store, w.queue) && LedgerRecordsOk(w.store, w.ledger)
    ensures OneRecordPerEffect(w)
  {
    hide Bijective, CancelledTasks;
  }

  lemma RecordsCounted(w: World)
    requires OneRecordPerEffect(w)
    ensures AsManyRecords(w)
  {
    hide Bijective, KeysOf, CancelledTasks;
    RecordCount(w.store.records, TaskCreate, w.queue.tasks.Keys);
    RecordCount(w.store.records, TaskCancel, CancelledTasks(w.queue));
    RecordCount(w.store.records, AdvisorReview, w.store.reviews.Keys);
    RecordCount(w.store.records, FamilyDecision, w.store.decisions.Keys);
    RecordCount(w.store.records, CandidateImport, w.ledger.candidates.Keys);
    RecordCount(w.store.records, CandidateVerify, w.ledger.verifications.Keys);
  }

  // ------------------------------------------------------------------ results stay

  ghost predicate SameResult(s: Store, t: Store, r: Key) {
    && r in s.runs && r in s.rows && r in t.runs && r in t.rows
    && t.rows[r] == s.rows[r] && t.runs[r] == s.runs[r].(current := t.runs[r].current)
    && (t.runs[r].current ==> s.runs[r].current)
  }

  // The rows of a run never change, and a run that was superseded is never current again.
  lemma ResultsStay(w: World, run: seq<Moment>, r: Key, rules: Rules)
    requires Reachable(w, rules) && IsRun(w, run, rules) && r in w.store.runs
    ensures SameResult(w.store, Last(w, run).store, r)
  {
    hide *;
    ReachableInv(w, rules);
    RunLater(w, run, rules);
    LaterTables(w, Last(w, run));
    WorldCells(w, rules);
    InvCases(w.store);
    LaterResult(w.store, Last(w, run).store, r);
  }

  lemma LaterResult(s: Store, t: Store, r: Key)
    requires StoreLater(s, t) && RunsOk(s) && r in s.runs
    ensures SameResult(s, t, r)
  {
  }

  // A brief keeps what the advisor approved: in every later state its projection is the one
  // recomputed from its run and review, and only its current flag can have gone.
  ghost predicate BriefStands(s: Store, t: Store, b: Key) {
    && b in s.briefs && b in t.briefs && t.briefs[b] == s.briefs[b].(current := t.briefs[b].current)
    && BriefAgrees(t, b) && SameResult(s, t, s.briefs[b].run)
  }

  lemma BriefStaysTrue(w: World, run: seq<Moment>, b: Key, rules: Rules)
    requires Reachable(w, rules) && IsRun(w, run, rules) && b in w.store.briefs
    ensures BriefStands(w.store, Last(w, run).store, b)
  {
    hide *;
    ReachableInv(w, rules);
    var v := Last(w, run);
    RunLater(w, run, rules);
    RunKeeps(w, run, rules);
    LaterTables(w, v);
    WorldCells(w, rules);
    WorldCells(v, rules);
    InvCases(w.store);
    BriefLater(w.store, v.store, b);
  }

  lemma BriefLater(s: Store, t: Store, b: Key)
    requires StoreLater(s, t) && Inv(s) && Inv(t) && b in s.briefs
    ensures BriefStands(s, t, b)
  {
    hide CasesOk, ChainsOk, ReviewsOk, HandoffOk, DecisionsOk, EvidenceOk, OutputsOk, RecordsOk, SameResult, CanonicalProjection, Eligible, DistinctIds, PinnedOk;
    assert BriefAgrees(s, b) && BriefAgrees(t, b);
    LaterResult(s, t, s.briefs[b].run);
  }

  // The pinned inputs stay: the entries of a stored pack never change, so the brief's source date
  // is the latest snapshot of its pack in every later state, and the accepted risks are exactly
  // those of the reviews, each about evidence that the reviewed rows lean on.
  ghost predicate PinsStand(s: Store, t: Store) {
    && EntriesFrozen(s, t) && s.acceptances <= t.acceptances && PinnedOk(t)
  }

  lemma PinnedFactsStay(w: World, run: seq<Moment>, rules: Rules)
    requires Reachable(w, rules) && IsRun(w, run, rules)
    ensures PinsStand(w.store, Last(w, run).store)
  {
    hide *;
    var v := Last(w, run);
    ReachableInv(w, rules);
    RunLater(w, run, rules);
    RunKeeps(w, run, rules);
    LaterTables(w, v);
    WorldCells(v, rules);
    InvParts(v.store);
    LaterPins(w.store, v.store);
  }

  lemma LaterPins(s: Store, t: Store)
    requires StoreLater(s, t) && PinnedOk(t)
    ensures PinsStand(s, t)
  {
    hide PinnedOk, EntriesFrozen, Extends;
  }

  // An accepted interval stays sound: later revisions, runs and packs change none of the facts
  // that it was tested against.
  ghost predicate DecisionStands(s: Store, t: Store, d: Key) {
    && d in s.decisions && d in t.decisions && t.decisions[d] == s.decisions[d]
    && SameResult(s, t, t.decisions[d].run) && IntervalSound(s, d) && IntervalSound(t, d)
    && CeilingOf(t, t.briefs[t.decisions[d].brief]) == CeilingOf(s, s.briefs[s.decisions[d].brief])
  }

  lemma DecisionStaysSound(w: World, run: seq<Moment>, d: Key, rules: Rules)
    requires Reachable(w, rules) && IsRun(w, run, rules) && d in w.store.decisions
    ensures DecisionStands(w.store, Last(w, run).store, d)
  {
    hide *;
    var v := Last(w, run);
    ReachableLater(w, run, rules);
    LaterTables(w, v);
    WorldCells(w, rules);
    WorldCells(v, rules);
    InvParts(w.store);
    InvParts(v.store);
    DecisionLater(w.store, v.store, d);
  }

  lemma DecisionLater(s: Store, t: Store, d: Key)
    requires StoreLater(s, t) && RunsOk(s) && CasesOk(s) && DecisionsOk(s) && DecisionsOk(t) && BriefsOk(s) && d in s.decisions
    ensures DecisionStands(s, t, d)
  {
    hide StoreLater, RunsOk, DecisionsOk, IntervalSound, SameResult, CostInCny, BriefsOk, CasesOk;
    KeptDecision(s, t, d);
    AcceptedBudget(s, d);
    AcceptedBudget(t, d);
    DecidedRun(s, d);
    LaterResult(s, t, s.decisions[d].run);
    KeptBrief(s, t, s.decisions[d].brief);
  }

  lemma DecidedRun(s: Store, d: Key)
    requires DecisionsOk(s) && BriefsOk(s) && d in s.decisions
    ensures s.decisions[d].run in s.runs && s.decisions[d].brief in s.briefs
  {
    hide BudgetAgrees, TimelineAgrees, CanonicalProjection;
    assert DecisionAgrees(s, d) && BriefAgrees(s, s.decisions[d].brief);
  }

  // A brief and the revision that it is pinned to.
  lemma KeptBrief(s: Store, t: Store, b: Key)
    requires StoreLater(s, t) && BriefsOk(s) && b in s.briefs
    ensures b in t.briefs && CeilingOf(t, t.briefs[b]) == CeilingOf(s, s.briefs[b])
  {
    hide CanonicalProjection;
    assert BriefAgrees(s, b);
  }

  lemma KeptDecision(s: Store, t: Store, d: Key)
    requires StoreLater(s, t) && d in s.decisions
    ensures d in t.decisions && t.decisions[d] == s.decisions[d]
    ensures forall k :: k in s.revisions ==> k in t.revisions && t.revisions[k] == s.revisions[k]
  {
  }

  // ------------------------------------------------------------------ cases in reachable states

  // As many hand-offs of a case as reviews that sent it back, and one more past planning.
  predicate HandoffsBalance(s: Store, c: Key) {
    c in s.cases && |HandedOff(s, c)| == |SendBacks(s, c)| + (if PastPlanning(s.cases[c].state) then 1 else 0)
  }

  // Every hand-off of a case was answered by one review that sent it back, except the one that
  // keeps the case past planning.
  lemma HandoffsAreAnswered(w: World, c: Key, rules: Rules)
    requires Reachable(w, rules) && c in w.store.cases
    ensures HandoffsBalance(w.store, c)
  {
    hide *;
    ReachableInv(w, rules);
    WorldCells(w, rules);
    InvParts(w.store);
    HandoffConservation(w.store, c);
    BalanceFrom(w.store, c);
  }

  lemma BalanceFrom(s: Store, c: Key)
    requires c in s.cases && |HandedOff(s, c)| == |SendBacks(s, c)| + (if PastPlanning(s.cases[c].state) then 1 else 0)
    ensures HandoffsBalance(s, c)
  {
    hide HandedOff, SendBacks, PastPlanning;
  }

  // The review behind the decided brief approved exactly the decided route.
  predicate ApprovedRoute(s: Store, d: Key) {
    && d in s.decisions && s.decisions[d].brief in s.briefs && s.briefs[s.decisions[d].brief].review in s.reviews
    && s.reviews[s.briefs[s.decisions[d].brief].review].eligible == [s.decisions[d].route]
  }

  // A decision is about the one route that the advisor approved.
  lemma DecisionIsApproved(w: World, d: Key, rules: Rules)
    requires Reachable(w, rules) && d in w.store.decisions
    ensures ApprovedRoute(w.store, d)
  {
    hide *;
    ReachableInv(w, rules);
    WorldCells(w, rules);
    InvParts(w.store);
    DecisionTakesTheRoute(w.store, d);
    ApprovedFrom(w.store, d);
  }

  lemma ApprovedFrom(s: Store, d: Key)
    requires d in s.decisions && s.decisions[d].brief in s.briefs && s.briefs[s.decisions[d].brief].review in s.reviews
    requires s.reviews[s.briefs[s.decisions[d].brief].review].eligible == [s.decisions[d].route]
    ensures ApprovedRoute(s, d)
  {
  }

  // Plan ready is having a decision, and having a timeline; family review is having a current brief.
  ghost predicate StatesAreRows(s: Store, c: Key) {
    && c in s.cases
    && (s.cases[c].state == PlanReady <==> exists d :: d in s.decisions && s.decisions[d].caseKey == c)
    && (s.cases[c].state == PlanReady <==>
          exists x :: x in s.timelines && s.timelines[x].decision in s.decisions && s.decisions[s.timelines[x].decision].caseKey == c)
    && (s.cases[c].state == InFamilyReview <==> exists b :: b in s.briefs && s.briefs[b].caseKey == c && s.briefs[b].current)
  }

  lemma PlanReadyIsDecided(w: World, c: Key, rules: Rules)
    requires Reachable(w, rules) && c in w.store.cases
    ensures StatesAreRows(w.store, c)
  {
    hide *;
    ReachableInv(w, rules);
    WorldCells(w, rules);
    InvParts(w.store);
    StatesFrom(w.store, c);
  }

  lemma StatesFrom(s: Store, c: Key)
    requires BriefsOk(s) && DecisionsOk(s) && c in s.cases
    ensures StatesAreRows(s, c)
  {
    hide BriefsOk, DecisionsOk;
    PlanReadyExactly(s, c);
  }

  // A case has at most one current run; a run is superseded at most once, and then it is not
  // current; following supersession never returns to a run, not even across cases.
  ghost predicate FormsChains(runs: map<Key, Run>) {
    && (forall q, r | q in runs && r in runs && runs[q].current && runs[r].current :: runs[q].caseKey == runs[r].caseKey ==> q == r)
    && (forall q, r | q in runs && r in runs && runs[q].supersedes.Some? :: runs[q].supersedes == runs[r].supersedes ==> q == r)
    && (forall r :: r in runs && runs[r].supersedes.Some? ==> runs[r].supersedes.value in runs && !runs[runs[r].supersedes.value].current)
    && (forall path | SupersessionPath(runs, path) && |path| >= 2 :: path[0] != path[|path| - 1])
  }

  lemma SupersessionFormsChains(w: World, rules: Rules)
    requires Reachable(w, rules)
    ensures FormsChains(w.store.runs)
  {
    hide *;
    ReachableInv(w, rules);
    WorldCells(w, rules);
    InvParts(w.store);
    ChainsFormed(w.store);
  }

  lemma ChainsFormed(s: Store)
    requires RunsOk(s) && ChainsOk(s)
    ensures FormsChains(s.runs)
  {
    hide SupersessionPath, Ranked;
    forall path | SupersessionPath(s.runs, path) && |path| >= 2
      ensures path[0] != path[|path| - 1]
    {
      NoSupersessionCycle(s, path);
    }
  }

  // ------------------------------------------------------------------ promotions

  // Only tables that a promotion writes.
  lemma SameVersion(s: Store, t: Store, u: Store, org: nat, version: int, evidence: nat)
    requires NewVersion(s, t, org, version, evidence) && u.packs == t.packs && u.entries == t.entries && u.evidence == t.evidence
    ensures NewVersion(s, u, org, version, evidence)
  {
    hide Provenance, ClaimTaken, SameSource;
  }

  lemma VerifyPromotes(s: Store, l: Ledger, a: VerifyArgs, rules: Rules, version: int, t: Store, m: Ledger, reply: VerifyReply, attested: Attestation)
    requires EvidenceOk(s) && NextPackVersion(s.packs, a.org, BASE_PACK, version) && VerifyKey(a) !in s.records
    requires VerifyCandidate(s, l, a, rules, version) == Ok((t, m, reply)) && AttestationOf(a.verdict) == Some(attested)
    ensures attested.evidence.Some? && NewVersion(s, t, a.org, version, attested.evidence.value)
  {
    hide VerifyCandidate, VerifyRefusal, VerdictStands, AfterVerdict, AfterPromotion, EvidenceOk, NextPackVersion, NewVerification, Insert, FreshIds, NewVersion, EntryValid,
         CopiedOk, PromotedBy;
    VerifyExactly(s, l, a, rules, version);
    VerdictParts(s, l, a, rules, version);
    var manifest := rules.digest(a.baseManifest, attested.sha256, version);
    PromotionPreservesPack(s, a.org, attested, version, manifest);
    SameVersion(s, AfterPromotion(s, a.org, attested, version, manifest), t, a.org, version, attested.evidence.value);
  }

  // A verification that approves, in any reachable state.
  lemma ApprovalPromotes(w: World, m: Moment, a: VerifyArgs, version: int, attested: Attestation, evidence: nat, rules: Rules)
    requires Reachable(w, rules) && Happens(w, m, rules) && m.call == VerifyCall(a, version) && Unrecorded(w, m.call) && m.outcome.Ok?
    requires AttestationOf(a.verdict) == Some(attested) && attested.evidence == Some(evidence)
    ensures NewVersion(w.store, m.after.store, a.org, version, evidence)
  {
    hide *;
    var v := Tick(w, m.wait);
    TickTables(w, m.wait);
    ReachableInv(w, rules);
    WorldCells(w, rules);
    InvCases(w.store);
    MomentCall(w, m, rules);
    MomentOk(w, m, m.outcome.value, rules);
    CallIs(v, m.call, rules);
    OnVerifyOk(v, VerifyCandidate(v.store, v.ledger, a, rules, version), m.after, m.outcome.value);
    KeyIs(w, m.call);
    ChosenVersion(v, a, version);
    VerifyPromotes(w.store, w.ledger, a, rules, version, m.after.store, m.after.ledger, m.outcome.value.verified, attested);
  }

  // The promoted version in any later state `u`: nothing was added to its entries; its program fit
  // is still the external evidence alone; the claims copied from the baseline are still there, on
  // the baseline's sources; every row of it passes the provenance trigger.
  ghost predicate VersionStands(s: Store, t: Store, u: Store, org: nat, version: int, evidence: nat) {
    var to := PackKey(org, BASE_PACK, version);
    && to in u.packs
    && (forall k :: k in u.entries && k.pack == to ==> k in t.entries && t.entries[k] == u.entries[k])
    && (forall k :: k in u.evidence && u.evidence[k].pack == to ==> Provenance(u.entries, u.evidence[k]))
    && (forall k :: k in u.evidence && u.evidence[k].pack == to && u.evidence[k].claim == PROGRAM_FIT ==>
          k == Key(org, evidence) && u.evidence[k].authority == ExternallyVerified)
    && (forall claim :: claim in COPIED_CLAIMS && ClaimTaken(s.evidence, Base(org), claim) ==> ClaimTaken(u.evidence, to, claim))
    && (forall k :: k in u.evidence && u.evidence[k].pack == to ==> FromBaseline(s.evidence, Base(org), u.evidence[k]))
  }

  // A copied claim that the baseline has leans on the baseline's source.
  ghost predicate FromBaseline(evidence: map<Key, Evidence>, from: PackKey, e: Evidence) {
    e.claim in COPIED_CLAIMS && ClaimTaken(evidence, from, e.claim) ==> SameSource(evidence, from, e)
  }

  lemma LaterEvidence(t: Store, u: Store, to: PackKey)
    requires StoreLater(t, u) && to in t.packs
    ensures to in u.packs
    ensures forall k :: k in u.entries && k.pack == to ==> k in t.entries && t.entries[k] == u.entries[k]
    ensures forall k :: k in t.evidence ==> k in u.evidence && u.evidence[k] == t.evidence[k]
  {
    hide Extends;
  }

  lemma ClaimStays(t: Store, u: Store, to: PackKey, claim: string)
    requires ClaimTaken(t.evidence, to, claim)
    requires forall k :: k in t.evidence ==> k in u.evidence && u.evidence[k] == t.evidence[k]
    ensures ClaimTaken(u.evidence, to, claim)
  {
  }

  // A later row of a claim that the version had is that very row.
  lemma OldRow(t: Store, u: Store, to: PackKey, k: Key)
    requires EvidenceOk(u) && k in u.evidence && u.evidence[k].pack == to && ClaimTaken(t.evidence, to, u.evidence[k].claim)
    requires forall j :: j in t.evidence ==> j in u.evidence && u.evidence[j] == t.evidence[j]
    ensures k in t.evidence && t.evidence[k] == u.evidence[k]
  {
    hide Provenance, IsSha256;
    var j :| j in t.evidence && t.evidence[j].pack == to && t.evidence[j].claim == u.evidence[k].claim;
    assert u.evidence[j] == t.evidence[j];
  }

  lemma VersionRows(s: Store, t: Store, org: nat, version: int, evidence: nat)
    requires NewVersion(s, t, org, version, evidence)
    ensures var to := PackKey(org, BASE_PACK, version);
            && to in t.packs && ClaimTaken(t.evidence, to, PROGRAM_FIT)
            && (forall claim :: claim in COPIED_CLAIMS && ClaimTaken(s.evidence, Base(org), claim) ==> ClaimTaken(t.evidence, to, claim))
            && (forall k :: k in t.evidence && t.evidence[k].pack == to ==>
                  if t.evidence[k].claim == PROGRAM_FIT
                  then k == Key(org, evidence) && t.evidence[k].authority == ExternallyVerified
                  else SameSource(s.evidence, Base(org), t.evidence[k]))
  {
    hide Provenance, SameSource;
  }

  lemma VersionLater(s: Store, t: Store, u: Store, org: nat, version: int, evidence: nat)
    requires NewVersion(s, t, org, version, evidence) && StoreLater(t, u) && EvidenceOk(u)
    ensures VersionStands(s, t, u, org, version, evidence)
  {
    hide NewVersion, StoreLater, Provenance, SameSource, IsSha256, ClaimTaken;
    var to := PackKey(org, BASE_PACK, version);
    VersionRows(s, t, org, version, evidence);
    LaterEvidence(t, u, to);
    forall claim | claim in COPIED_CLAIMS && ClaimTaken(s.evidence, Base(org), claim)
      ensures ClaimTaken(u.evidence, to, claim)
    {
      ClaimStays(t, u, to, claim);
    }
    forall k | k in u.evidence && u.evidence[k].pack == to
      ensures u.evidence[k].claim == PROGRAM_FIT ==> k == Key(org, evidence) && u.evidence[k].authority == ExternallyVerified
      ensures FromBaseline(s.evidence, Base(org), u.evidence[k])
    {
      if ClaimTaken(t.evidence, to, u.evidence[k].claim) {
        OldRow(t, u, to, k);
      }
    }
  }

  // An approved promotion keeps the baseline's provenance, when it is made and for ever after.
  lemma PromotionStands(w: World, m: Moment, a: VerifyArgs, version: int, attested: Attestation, evidence: nat, run: seq<Moment>, rules: Rules)
    requires Reachable(w, rules) && IsRun(w, [m] + run, rules)
    requires m.call == VerifyCall(a, version) && Unrecorded(w, m.call) && m.outcome.Ok?
    requires AttestationOf(a.verdict) == Some(attested) && attested.evidence == Some(evidence)
    ensures NewVersion(w.store, m.after.store, a.org, version, evidence)
    ensures VersionStands(w.store, m.after.store, Last(m.after, run).store, a.org, version, evidence)
  {
    hide *;
    FirstOf(w, m, run, rules);
    ApprovalPromotes(w, m, a, version, attested, evidence, rules);
    ReachableInv(w, rules);
    MomentSteps(w, m, rules);
    StepsInv(w, m.after, rules);
    RunKeeps(m.after, run, rules);
    RunLater(m.after, run, rules);
    LaterTables(m.after, Last(m.after, run));
    WorldCells(Last(m.after, run), rules);
    InvCases(Last(m.after, run).store);
    VersionLater(w.store, m.after.store, Last(m.after, run).store, a.org, version, evidence);
  }
}
