// What one call does to the tables, kind by kind: the invariant of all tables, and how each group
// of tables moves.
module RunSteps {
  import opened Sql
  import opened TaskLog
  import opened TaskCell
  import opened PlanningOutput
  import opened Idempotency
  import opened Planning
  import opened PlanningInvariants
  import opened PlanningHandoff
  import opened PlanningDecision
  import opened PlanningTheorems
  import opened TaskQueue
  import opened TaskInvariants
  import opened Promotion
  import opened PromotionTheorems
  import opened LedgerInvariants
  import opened Runs

  // ------------------------------------------------------------------ the invariant of all tables

  ghost predicate WorldInv(w: World, rules: Rules) {
    Inv(w.store) && QueueInv(w.store, w.queue) && LedgerInv(w.store, w.ledger, rules)
  }

  lemma StartInv(now: int, rules: Rules)
    ensures WorldInv(Start(now), rules)
  {
    hide Inv, QueueInv, LedgerInv;
    EmptyInv();
    EmptyQueue();
    EmptyLedger(rules);
  }

  // The planning tables move; task and candidate rows stay, and their records with them.
  ghost predicate OthersStay(s: Store, t: Store) {
    && Grows(s, t) && LedgerGrows(s, t)
    && (t.records == s.records
        || exists k, request, response ::
             k !in s.records && k.operation in {AdvisorReview, FamilyDecision} && t.records == Insert(s.records, k, request, response))
  }

  lemma OthersKeep(w: World, t: Store, rules: Rules)
    requires WorldInv(w, rules) && Inv(t) && OthersStay(w.store, t)
    ensures WorldInv(w.(store := t), rules)
  {
    hide Inv, CellsOk, PinsOk, EffectiveOk, ResultsOk, TaskRecordsOk, Grows, LedgerGrows, LedgerInv;
    var s := w.store;
    assert LedgerRecordsOk(s, w.ledger) by { LedgerRecords(s, w.ledger, rules); }
    if t.records == s.records {
      SameRecords(s, t, w.queue, w.ledger);
    } else {
      var k, request, response :| k !in s.records && k.operation in {AdvisorReview, FamilyDecision} && t.records == Insert(s.records, k, request, response);
      OtherRecord(s, t, w.queue, k, request, response);
      OtherLedgerRecord(s, t, w.ledger, k, request, response);
    }
    PlanningStepKeeps(s, t, w.queue);
    LedgerStays(s, t, w.ledger, rules);
  }

  lemma LedgerRecords(s: Store, l: Ledger, rules: Rules)
    requires LedgerInv(s, l, rules)
    ensures LedgerRecordsOk(s, l)
  {
    hide CandidateAgrees, VerificationAgrees, VerificationsDistinct, LedgerRecordsOk;
  }

  lemma SameRecords(s: Store, t: Store, q: Queue, l: Ledger)
    requires TaskRecordsOk(s, q) && LedgerRecordsOk(s, l) && t.records == s.records
    ensures TaskRecordsOk(t, q) && LedgerRecordsOk(t, l)
  {
    hide Bijective;
  }

  lemma BesideGrows(s: Store, t: Store)
    requires Beside(s, t)
    ensures Grows(s, t) && LedgerGrows(s, t)
  {
  }

  lemma InvCases(s: Store)
    requires Inv(s)
    ensures CasesOk(s) && EvidenceOk(s) && RecordsOk(s) && RunsOk(s)
  {
    hide CasesOk, RunsOk, ChainsOk, ReviewsOk, HandoffOk, BriefsOk, DecisionsOk, EvidenceOk, OutputsOk, RecordsOk, PinnedOk;
  }

  lemma WorldCells(w: World, rules: Rules)
    requires WorldInv(w, rules)
    ensures CellsOk(w.queue) && Linked(w.queue) && Inv(w.store) && QueueInv(w.store, w.queue) && LedgerInv(w.store, w.ledger, rules)
  {
    hide Inv, LedgerInv, PinsOk, EffectiveOk, ResultsOk, TaskRecordsOk, Coheres;
  }

  // ------------------------------------------------------------------ one step of the task tables

  // A task row that changed: it moved down its measure with one more row version, or only its
  // lease was prolonged. A queued task can only be leased or cancelled.
  ghost predicate CellStep(c: Cell, d: Cell) {
    && Moves(c.task, d.task) && c.events <= d.events
    && (MovesDown(c.task, d.task)
        || (d.events == c.events && d.executions == c.executions && d.task == c.task.(expires := d.task.expires)))
    && (c.task.state == Queued ==> d.task.state in {TaskState.Leased, Cancelled})
  }

  // No step puts a dispatch row into the past.
  ghost predicate QueueStep(q: Queue, p: Queue, now: int) {
    && (forall k :: k in q.tasks ==> k in p.tasks && (CellOf(p, k) == CellOf(q, k) || CellStep(CellOf(q, k), CellOf(p, k))))
    && (forall k :: k in p.dispatch ==> p.dispatch[k] >= now || (k in q.dispatch && p.dispatch[k] == q.dispatch[k]))
  }

  lemma SameQueue(q: Queue, now: int)
    ensures QueueStep(q, q, now)
  {
    hide CellStep;
  }

  lemma PutStep(q: Queue, k: Key, c: Cell, now: int)
    requires Linked(q) && (k in q.tasks ==> CellStep(CellOf(q, k), c))
    requires c.dispatch.Some? ==> c.dispatch.value >= now
    ensures QueueStep(q, Put(q, k, c), now)
  {
    hide CellStep;
    forall j | j in q.tasks
      ensures j in Put(q, k, c).tasks
      ensures j != k ==> CellOf(Put(q, k, c), j) == CellOf(q, j)
      ensures j == k ==> CellOf(Put(q, k, c), j) == c
    {
    }
  }

  lemma CancelStep(c: Cell, now: int)
    requires Coheres(c) && !IsTerminal(c.task.state) && CancelCell(c, now).Ok?
    ensures CellStep(c, CancelCell(c, now).value) && CancelCell(c, now).value.dispatch == None
  {
    hide Close, Coheres, Moves, MovesDown;
    CancelMoves(c, now);
    assert MovesDown(c.task, CancelCell(c, now).value.task) ==> Moves(c.task, CancelCell(c, now).value.task) by { DownMoves(c.task, CancelCell(c, now).value.task); }
  }

  lemma DownMoves(t: Task, u: Task)
    ensures MovesDown(t, u) ==> Moves(t, u)
  {
  }

  lemma ClaimStep(c: Cell, worker: string, now: int)
    requires Coheres(c) && c.dispatch.Some? && c.dispatch.value <= now && ClaimCell(c, worker, now).Ok?
    ensures var d := ClaimCell(c, worker, now).value.0; CellStep(c, d) && (d.dispatch.Some? ==> d.dispatch.value > now)
  {
    hide Close, LogAgrees, ExecutionsAgree, Audited, Moves, MovesDown;
    ClaimMoves(c, worker, now);
    AgreementBounds(c);
    DownMoves(c.task, ClaimCell(c, worker, now).value.0.task);
  }

  lemma StartStep(c: Cell, worker: string, generation: Option<nat>, input: Option<string>, now: int)
    requires Coheres(c) && StartCell(c, worker, generation, input, now).Ok?
    ensures var d := StartCell(c, worker, generation, input, now).value; CellStep(c, d) && (d.dispatch.Some? ==> d.dispatch.value > now)
  {
    hide LogAgrees, ExecutionsAgree, Audited, Moves, MovesDown, IsSha256, StartRows;
    StartMoves(c, worker, generation, input, now);
    DownMoves(c.task, StartCell(c, worker, generation, input, now).value.task);
  }

  lemma HeartbeatStep(c: Cell, worker: string, generation: Option<nat>, now: int)
    requires Coheres(c) && HeartbeatCell(c, worker, generation, now).Ok?
    ensures var d := HeartbeatCell(c, worker, generation, now).value; CellStep(c, d) && (d.dispatch.Some? ==> d.dispatch.value > now)
  {
    hide LogAgrees, ExecutionsAgree, Audited, Moves, MovesDown;
    HeartbeatMoves(c, worker, generation, now);
  }

  lemma FailStep(c: Cell, worker: string, generation: Option<nat>, code: Option<string>, retryable: bool, fallback: Option<bool>, now: int)
    requires Coheres(c) && FailCell(c, worker, generation, code, retryable, fallback, now).Ok?
    ensures var d := FailCell(c, worker, generation, code, retryable, fallback, now).value;
            CellStep(c, d) && (d.dispatch.Some? ==> d.dispatch.value >= now)
  {
    hide CloseFailed, LogAgrees, ExecutionsAgree, Audited, Moves, MovesDown;
    FailMoves(c, worker, generation, code, retryable, fallback, now);
    DownMoves(c.task, FailCell(c, worker, generation, code, retryable, fallback, now).value.task);
  }

  lemma FinalizeStep(c: Cell, worker: string, generation: Option<nat>, run: Key, state: TaskState, reason: Option<string>, output: Option<string>, now: int)
    requires Coheres(c) && HoldsLease(c.task, worker, generation, now) && state in {WaitingReview, Blocked, Failed}
    requires FinalizeCell(c, generation, run, state, reason, output, now).Ok?
    ensures var d := FinalizeCell(c, generation, run, state, reason, output, now).value; CellStep(c, d) && d.dispatch == None
  {
    hide Close, LogAgrees, ExecutionsAgree, Audited, Moves, MovesDown;
    FinalizeMoves(c, worker, generation, run, state, reason, output, now);
    DownMoves(c.task, FinalizeCell(c, generation, run, state, reason, output, now).value.task);
  }

  lemma ClaimQueueStep(q: Queue, worker: string, choice: Option<Key>, now: int)
    requires CellsOk(q) && IsChoice(q, choice, now) && ClaimTask(q, worker, choice, now).Ok?
    ensures QueueStep(q, ClaimTask(q, worker, choice, now).value.0, now)
  {
    hide QueueStep, CellStep, ClaimTask, ClaimCell, IsChoice, Coheres, Put, IsOverdue, IsWorker;
    ClaimExactly(q, worker, choice, now);
    if choice.Some? {
      CellCoheres(q, choice.value);
      ClaimStep(CellOf(q, choice.value), worker, now);
      PutStep(q, choice.value, ClaimCell(CellOf(q, choice.value), worker, now).value.0, now);
    } else {
      SameQueue(q, now);
    }
  }

  lemma StartQueueStep(q: Queue, k: Key, worker: string, generation: Option<nat>, input: Option<string>, now: int)
    requires CellsOk(q) && StartTask(q, k, worker, generation, input, now).Ok?
    ensures QueueStep(q, StartTask(q, k, worker, generation, input, now).value, now)
  {
    hide QueueStep, CellStep, StartCell, Coheres, Put, IsSha256;
    CellCoheres(q, k);
    StartStep(CellOf(q, k), worker, generation, input, now);
    PutStep(q, k, StartCell(CellOf(q, k), worker, generation, input, now).value, now);
  }

  lemma HeartbeatQueueStep(q: Queue, k: Key, worker: string, generation: Option<nat>, now: int)
    requires CellsOk(q) && HeartbeatTask(q, k, worker, generation, now).Ok?
    ensures QueueStep(q, HeartbeatTask(q, k, worker, generation, now).value, now)
  {
    hide QueueStep, CellStep, HeartbeatCell, Coheres, Put;
    CellCoheres(q, k);
    HeartbeatStep(CellOf(q, k), worker, generation, now);
    PutStep(q, k, HeartbeatCell(CellOf(q, k), worker, generation, now).value, now);
  }

  lemma FailQueueStep(q: Queue, k: Key, worker: string, generation: Option<nat>, code: Option<string>, retryable: bool, fallback: Option<bool>, now: int)
    requires CellsOk(q) && FailTask(q, k, worker, generation, code, retryable, fallback, now).Ok?
    ensures QueueStep(q, FailTask(q, k, worker, generation, code, retryable, fallback, now).value, now)
  {
    hide QueueStep, CellStep, FailCell, Coheres, Put;
    CellCoheres(q, k);
    FailStep(CellOf(q, k), worker, generation, code, retryable, fallback, now);
    PutStep(q, k, FailCell(CellOf(q, k), worker, generation, code, retryable, fallback, now).value, now);
  }

  lemma CreateQueueStep(s: Store, q: Queue, a: CreateArgs, now: int, t: Store, p: Queue, reply: TaskReply)
    requires CasesOk(s) && CellsOk(q) && CreateKey(a) !in s.records && CreateTask(s, q, a, now) == Ok((t, p, reply))
    ensures QueueStep(q, p, now)
  {
    hide QueueStep, CellStep, CreateTask, CreateCell, Put, CasesOk, Coheres, PinsValid, HasEffective, CaseAt;
    CreateExactly(s, q, a, now);
    CreateDispatch(a, now);
    PutStep(q, Key(a.org, a.task), CreateCell(PinsOf(a), a.request, a.actor, now), now);
  }

  lemma CreateDispatch(a: CreateArgs, now: int)
    ensures CreateCell(PinsOf(a), a.request, a.actor, now).dispatch == Some(now)
  {
  }

  lemma CancelQueueStep(s: Store, q: Queue, a: CancelArgs, now: int, t: Store, p: Queue, reply: TaskReply)
    requires CellsOk(q) && CancelKey(a) !in s.records && CancelTask(s, q, a, now) == Ok((t, p, reply))
    ensures QueueStep(q, p, now)
  {
    hide QueueStep, CellStep, CancelTask, CancelCell, Put, Coheres, Unclosable, IsTerminal, CellsOk;
    CancelExactly(s, q, a, now);
    var k := Key(a.org, a.task);
    CellCoheres(q, k);
    CancelStep(CellOf(q, k), now);
    assert Linked(q) by { CellsLinked(q); }
    PutStep(q, k, CancelCell(CellOf(q, k), now).value, now);
  }

  lemma CellsLinked(q: Queue)
    requires CellsOk(q)
    ensures Linked(q)
  {
    hide Coheres, Linked;
  }

  lemma FinalizeQueueStep(s: Store, q: Queue, a: FinalizeArgs, now: int, t: Store, p: Queue)
    requires RunsOk(s) && CellsOk(q) && FinalizeTask(s, q, a, now) == Ok((t, p))
    ensures QueueStep(q, p, now)
  {
    hide QueueStep, CellStep, FinalizeTask, FinalizeCell, Put, Coheres, IsOverdue, CellsOk, RunsOk, HoldsLease, PersistResult, Persistable;
    FinalizeExactly(s, q, a, now);
    var k := Key(a.org, a.task);
    CellCoheres(q, k);
    FinalizeStep(CellOf(q, k), a.worker, a.generation, Key(a.org, a.run), ClosingState(a.target), a.reason, a.outputHash, now);
    assert Linked(q) by { CellsLinked(q); }
    PutStep(q, k, FinalizeCell(CellOf(q, k), a.generation, Key(a.org, a.run), ClosingState(a.target), a.reason, a.outputHash, now).value, now);
  }

  // ------------------------------------------------------------------ one step of the other tables

  ghost predicate OneRecord(s: Store, t: Store) {
    exists k, request, response :: k !in s.records && t.records == Insert(s.records, k, request, response)
  }

  // Every call that succeeds does one of four things to the planning tables, or nothing.
  ghost predicate StoreStep(s: Store, t: Store) {
    || (Beside(s, t) && (t.records == s.records || OneRecord(s, t)))
    || (exists a :: Persisted(s, a, t))
    || (exists a :: ReviewStep(s, a, t) && Grounded(s, a))
    || (exists a :: DecideStep(s, a, t) && IsRipe(s, a))
  }

  ghost predicate LedgerLater(l: Ledger, m: Ledger) {
    && (forall c :: c in l.candidates ==> c in m.candidates && m.candidates[c] == l.candidates[c])
    && (forall v :: v in l.verifications ==> v in m.verifications && m.verifications[v] == l.verifications[v])
  }

  lemma OneMoreCandidate(l: Ledger, id: Key, m: Ledger)
    requires id !in l.candidates && id in m.candidates && m == l.(candidates := l.candidates[id := m.candidates[id]])
    ensures LedgerLater(l, m)
  {
  }

  lemma OneMoreVerification(l: Ledger, id: Key, m: Ledger)
    requires id !in l.verifications && id in m.verifications && m == l.(verifications := l.verifications[id := m.verifications[id]])
    ensures LedgerLater(l, m)
  {
  }

  // The tables of `v` follow those of `w` by one call.
  ghost predicate Steps(w: World, v: World, rules: Rules) {
    && w.now <= v.now && WorldInv(v, rules)
    && StoreStep(w.store, v.store) && QueueStep(w.queue, v.queue, v.now) && LedgerLater(w.ledger, v.ledger)
  }

  lemma SameStore(s: Store)
    ensures StoreStep(s, s)
  {
    hide OneRecord, Persisted, ReviewStep, DecideStep, Grounded, IsRipe;
  }

  lemma SameLedger(l: Ledger)
    ensures LedgerLater(l, l)
  {
  }

  lemma BesideStep(s: Store, t: Store)
    requires Beside(s, t) && t.records == s.records
    ensures StoreStep(s, t) && OthersStay(s, t)
  {
    hide Grounded, IsRipe, Beside, Grows, LedgerGrows, Persisted, ReviewStep, DecideStep;
    BesideGrows(s, t);
  }

  lemma RecordedStep(s: Store, t: Store, k: RecordKey, request: string, response: Key)
    requires Beside(s, t) && k !in s.records && t.records == Insert(s.records, k, request, response)
    ensures StoreStep(s, t)
  {
    hide Grounded, IsRipe, Beside, Persisted, ReviewStep, DecideStep, Insert;
    assert OneRecord(s, t);
  }

  lemma PersistedStep(s: Store, a: PersistArgs, t: Store)
    requires Persisted(s, a, t)
    ensures StoreStep(s, t) && OthersStay(s, t)
  {
    hide Grounded, IsRipe, Persisted, Beside, ReviewStep, DecideStep, OneRecord, Grows, LedgerGrows;
    PersistedGrows(s, a, t);
    PersistedStays(s, a, t);
  }

  lemma PersistedStays(s: Store, a: PersistArgs, t: Store)
    requires Persisted(s, a, t)
    ensures LedgerGrows(s, t) && t.records == s.records
  {
    hide RunsStep;
  }

  lemma ReviewIsStep(s: Store, a: ReviewArgs, t: Store)
    requires ReviewStep(s, a, t) && Grounded(s, a)
    ensures StoreStep(s, t) && OthersStay(s, t)
  {
    hide Grounded, IsRipe, Persisted, Beside, ReviewStep, DecideStep, OneRecord, Grows, LedgerGrows, Insert, ReviewKey;
    ReviewStays(s, a, t);
  }

  lemma ReviewStays(s: Store, a: ReviewArgs, t: Store)
    requires ReviewStep(s, a, t)
    ensures Grows(s, t) && LedgerGrows(s, t) && ReviewKey(a).operation == AdvisorReview
    ensures ReviewKey(a) !in s.records && t.records == Insert(s.records, ReviewKey(a), a.request, Key(a.org, a.review))
  {
  }

  lemma DecideIsStep(s: Store, a: DecideArgs, t: Store)
    requires DecideStep(s, a, t) && IsRipe(s, a)
    ensures StoreStep(s, t) && OthersStay(s, t)
  {
    hide Grounded, IsRipe, Persisted, Beside, ReviewStep, DecideStep, OneRecord, Grows, LedgerGrows, Insert, DecideKey;
    DecideStays(s, a, t);
  }

  lemma DecideStays(s: Store, a: DecideArgs, t: Store)
    requires DecideStep(s, a, t)
    ensures Grows(s, t) && LedgerGrows(s, t) && DecideKey(a).operation == FamilyDecision
    ensures DecideKey(a) !in s.records && t.records == Insert(s.records, DecideKey(a), a.request, Key(a.org, a.decision))
  {
  }

  // ------------------------------------------------------------------ from tables to worlds

  lemma SameWorld(w: World, rules: Rules)
    requires WorldInv(w, rules)
    ensures Steps(w, w, rules)
  {
    hide *;
    SameStore(w.store);
    SameQueue(w.queue, w.now);
    SameLedger(w.ledger);
    StepsFrom(w, w, rules);
  }

  lemma StepsFrom(w: World, v: World, rules: Rules)
    requires w.now <= v.now && WorldInv(v, rules)
    requires StoreStep(w.store, v.store) && QueueStep(w.queue, v.queue, v.now) && LedgerLater(w.ledger, v.ledger)
    ensures Steps(w, v, rules)
  {
    hide WorldInv, StoreStep, QueueStep, LedgerLater;
  }

  // Only planning tables move.
  lemma StoreSteps(w: World, t: Store, rules: Rules)
    requires WorldInv(w, rules) && Inv(t) && StoreStep(w.store, t) && OthersStay(w.store, t)
    ensures Steps(w, w.(store := t), rules)
  {
    hide *;
    OthersKeep(w, t, rules);
    SameQueue(w.queue, w.now);
    SameLedger(w.ledger);
    StepsFrom(w, w.(store := t), rules);
  }

  // Only task tables move.
  lemma QueueSteps(w: World, q: Queue, rules: Rules)
    requires WorldInv(w, rules) && QueueInv(w.store, q) && QueueStep(w.queue, q, w.now)
    ensures Steps(w, w.(queue := q), rules)
  {
    hide Inv, QueueInv, LedgerInv, StoreStep, QueueStep, LedgerLater;
    SameStore(w.store);
    SameLedger(w.ledger);
  }

  // Planning and task tables move together.
  lemma BothStep(w: World, t: Store, q: Queue, rules: Rules)
    requires WorldInv(w, rules) && Inv(t) && QueueInv(t, q) && LedgerGrows(w.store, t) && LedgerRecordsOk(t, w.ledger)
    requires StoreStep(w.store, t) && QueueStep(w.queue, q, w.now)
    ensures Steps(w, w.(store := t, queue := q), rules)
  {
    hide Inv, QueueInv, LedgerInv, StoreStep, QueueStep, LedgerLater, LedgerRecordsOk, LedgerGrows;
    LedgerStays(w.store, t, w.ledger, rules);
    SameLedger(w.ledger);
  }

  // Pack tables and candidates move together.
  lemma LedgerSteps(w: World, t: Store, l: Ledger, rules: Rules)
    requires WorldInv(w, rules) && Inv(t) && QueueInv(t, w.queue) && LedgerInv(t, l, rules) && StoreStep(w.store, t) && LedgerLater(w.ledger, l)
    ensures Steps(w, w.(store := t, ledger := l), rules)
  {
    hide Inv, QueueInv, LedgerInv, StoreStep, QueueStep, LedgerLater;
    SameQueue(w.queue, w.now);
  }

  // ------------------------------------------------------------------ the calls, kind by kind

  lemma AddingSteps(w: World, t: Store, rules: Rules)
    requires WorldInv(w, rules) && Inv(t) && Beside(w.store, t) && t.records == w.store.records
    ensures Steps(w, w.(store := t), rules)
  {
    hide *;
    BesideStep(w.store, t);
    StoreSteps(w, t, rules);
  }

  lemma PublishSteps(w: World, c: Key, expected: Option<int>, revision: int, facts: Revision, t: Store, rules: Rules)
    requires WorldInv(w, rules) && PublishRevision(w.store, c, expected, revision, facts) == Ok(t)
    ensures Steps(w, w.(store := t), rules)
  {
    hide WorldInv, Inv, Beside, Steps;
    WorldCells(w, rules);
    PublishKeeps(w.store, c, expected, revision, facts);
    AddingSteps(w, t, rules);
  }

  lemma TransitionSteps(w: World, c: Key, from: CaseState, to: CaseState, t: Store, rules: Rules)
    requires WorldInv(w, rules) && TransitionCase(w.store, c, from, to) == Ok(t)
    ensures Steps(w, w.(store := t), rules)
  {
    hide WorldInv, Inv, Beside, Steps, GuardCase;
    WorldCells(w, rules);
    TransitionKeeps(w.store, c, from, to);
    AddingSteps(w, t, rules);
  }

  lemma ParticipantsSteps(w: World, c: Key, advisor: nat, student: nat, parent: nat, t: Store, rules: Rules)
    requires WorldInv(w, rules) && AddParticipants(w.store, c, advisor, student, parent) == Ok(t)
    ensures Steps(w, w.(store := t), rules)
  {
    hide WorldInv, Inv, Beside, Steps;
    WorldCells(w, rules);
    ParticipantsKeep(w.store, c, advisor, student, parent);
    AddingSteps(w, t, rules);
  }

  lemma PackSteps(w: World, pack: PackKey, manifest: string, items: seq<NewEntry>, t: Store, rules: Rules)
    requires WorldInv(w, rules) && PersistPack(w.store, pack, manifest, items) == Ok(t)
    ensures Steps(w, w.(store := t), rules)
  {
    hide WorldInv, Inv, Beside, Steps, InsertEntries, IsSha256;
    WorldCells(w, rules);
    PackKeeps(w.store, pack, manifest, items);
    AddingSteps(w, t, rules);
  }

  lemma EvidenceSteps(w: World, id: Key, e: Evidence, t: Store, rules: Rules)
    requires WorldInv(w, rules) && PersistEvidence(w.store, id, e) == Ok(t)
    ensures Steps(w, w.(store := t), rules)
  {
    hide WorldInv, Inv, Beside, Steps, Provenance, ClaimTaken, IsSha256;
    WorldCells(w, rules);
    EvidenceKeeps(w.store, id, e);
    AddingSteps(w, t, rules);
  }

  lemma ResultSteps(w: World, a: PersistArgs, t: Store, rules: Rules)
    requires WorldInv(w, rules) && PersistResult(w.store, a) == Ok(t)
    ensures Steps(w, w.(store := t), rules)
  {
    hide *;
    WorldCells(w, rules);
    PersistKeeps(w.store, a);
    PersistedStep(w.store, a, t);
    StoreSteps(w, t, rules);
  }

  lemma ChosenReview(w: World, a: ReviewArgs, date: Option<int>, version: nat)
    requires Chosen(w, ReviewCall(a, date, version))
    ensures NextReviewVersion(w.store.reviews, Key(a.org, a.run), version)
    ensures Key(a.org, a.run) in w.store.runs ==> IsSourceDate(w.store.entries, w.store.runs[Key(a.org, a.run)].pack, date)
  {
    hide NextReviewVersion, IsSourceDate;
  }

  lemma ReviewSteps(w: World, a: ReviewArgs, date: Option<int>, version: nat, t: Store, reply: Reply, rules: Rules)
    requires WorldInv(w, rules) && Chosen(w, ReviewCall(a, date, version)) && ReviewKey(a) !in w.store.records
    requires ReviewRun(w.store, a, date, version) == Ok((t, reply))
    ensures Steps(w, w.(store := t), rules)
  {
    hide *;
    WorldCells(w, rules);
    ChosenReview(w, a, date, version);
    ReviewKeeps(w.store, a, date, version);
    ReviewExactly(w.store, a, date, version);
    ReviewIsGrounded(w.store, a, date);
    ReviewIsStep(w.store, a, t);
    StoreSteps(w, t, rules);
  }

  lemma ChosenDecision(w: World, a: DecideArgs, pick: Option<nat>)
    requires Chosen(w, DecideCall(a, pick))
    ensures Key(a.org, a.brief) in w.store.briefs && w.store.briefs[Key(a.org, a.brief)].run in w.store.rows
            ==> CostPick(w.store.rows[w.store.briefs[Key(a.org, a.brief)].run], pick)
  {
    hide CostPick;
  }

  lemma DecideSteps(w: World, a: DecideArgs, pick: Option<nat>, t: Store, reply: Reply, rules: Rules)
    requires WorldInv(w, rules) && Chosen(w, DecideCall(a, pick)) && DecideKey(a) !in w.store.records
    requires DecideBrief(w.store, a, pick) == Ok((t, reply))
    ensures Steps(w, w.(store := t), rules)
  {
    hide *;
    WorldCells(w, rules);
    ChosenDecision(w, a, pick);
    DecideKeeps(w.store, a, pick);
    DecideExactly(w.store, a, pick);
    AcceptedIsRipe(w.store, a, pick);
    DecideIsStep(w.store, a, t);
    StoreSteps(w, t, rules);
  }

  // Create and cancel write task rows and a record, and nothing else.
  lemma TaskSteps(w: World, t: Store, q: Queue, k: RecordKey, request: string, response: Key, rules: Rules)
    requires WorldInv(w, rules) && Inv(t) && QueueInv(t, q) && Beside(w.store, t) && QueueStep(w.queue, q, w.now)
    requires k !in w.store.records && k.operation in {TaskCreate, TaskCancel} && t.records == Insert(w.store.records, k, request, response)
    ensures Steps(w, w.(store := t, queue := q), rules)
  {
    hide *;
    WorldCells(w, rules);
    LedgerRecords(w.store, w.ledger, rules);
    OtherLedgerRecord(w.store, t, w.ledger, k, request, response);
    BesideGrows(w.store, t);
    RecordedStep(w.store, t, k, request, response);
    BothStep(w, t, q, rules);
  }

  lemma CreateSteps(w: World, a: CreateArgs, t: Store, q: Queue, reply: TaskReply, rules: Rules)
    requires WorldInv(w, rules) && CreateKey(a) !in w.store.records && CreateTask(w.store, w.queue, a, w.now) == Ok((t, q, reply))
    ensures Steps(w, w.(store := t, queue := q), rules)
  {
    hide *;
    WorldCells(w, rules);
    InvCases(w.store);
    CreateKeeps(w.store, w.queue, a, w.now);
    CreateRecord(w.store, w.queue, a, w.now, t, q, reply);
    CreateQueueStep(w.store, w.queue, a, w.now, t, q, reply);
    TaskSteps(w, t, q, CreateKey(a), a.request, Key(a.org, a.task), rules);
  }

  lemma CreateRecord(s: Store, q: Queue, a: CreateArgs, now: int, t: Store, p: Queue, reply: TaskReply)
    requires CasesOk(s) && CreateKey(a) !in s.records && CreateTask(s, q, a, now) == Ok((t, p, reply))
    ensures t.records == Insert(s.records, CreateKey(a), a.request, Key(a.org, a.task)) && CreateKey(a).operation == TaskCreate
    ensures reply.id == Key(a.org, a.task) && !reply.replayed
  {
    hide CreateTask, CasesOk, Put, CreateCell, Insert, PinsValid, HasEffective, CaseAt;
    CreateExactly(s, q, a, now);
  }

  lemma CancelSteps(w: World, a: CancelArgs, t: Store, q: Queue, reply: TaskReply, rules: Rules)
    requires WorldInv(w, rules) && CancelKey(a) !in w.store.records && CancelTask(w.store, w.queue, a, w.now) == Ok((t, q, reply))
    ensures Steps(w, w.(store := t, queue := q), rules)
  {
    hide *;
    WorldCells(w, rules);
    CancelKeeps(w.store, w.queue, a, w.now);
    CancelRecord(w.store, w.queue, a, w.now, t, q, reply);
    CancelQueueStep(w.store, w.queue, a, w.now, t, q, reply);
    TaskSteps(w, t, q, CancelKey(a), a.request, Key(a.org, a.task), rules);
  }

  lemma CancelRecord(s: Store, q: Queue, a: CancelArgs, now: int, t: Store, p: Queue, reply: TaskReply)
    requires CellsOk(q) && CancelKey(a) !in s.records && CancelTask(s, q, a, now) == Ok((t, p, reply))
    ensures t.records == Insert(s.records, CancelKey(a), a.request, Key(a.org, a.task)) && CancelKey(a).operation == TaskCancel
    ensures reply.id == Key(a.org, a.task) && !reply.replayed
  {
    hide CancelCell, CellsOk, IsTerminal, Put, IsExpected;
  }

  lemma FinalizeSteps(w: World, a: FinalizeArgs, t: Store, q: Queue, rules: Rules)
    requires WorldInv(w, rules) && FinalizeTask(w.store, w.queue, a, w.now) == Ok((t, q))
    ensures Steps(w, w.(store := t, queue := q), rules)
  {
    hide *;
    WorldCells(w, rules);
    InvCases(w.store);
    FinalizeKeeps(w.store, w.queue, a, w.now);
    FinalizeQueueStep(w.store, w.queue, a, w.now, t, q);
    FinalizePersists(w.store, w.queue, a, w.now, t, q);
    var args := ResultArgs(a, w.queue.tasks[Key(a.org, a.task)].pins);
    PersistedStep(w.store, args, t);
    PersistedStays(w.store, args, t);
    LedgerRecords(w.store, w.ledger, rules);
    SameLedgerRecords(w.store, t, w.ledger);
    BothStep(w, t, q, rules);
  }

  lemma FinalizePersists(s: Store, q: Queue, a: FinalizeArgs, now: int, t: Store, p: Queue)
    requires RunsOk(s) && FinalizeTask(s, q, a, now) == Ok((t, p))
    ensures Key(a.org, a.task) in q.tasks
    ensures Persisted(s, ResultArgs(a, q.tasks[Key(a.org, a.task)].pins), t)
  {
    hide RunsOk, PersistResult, FinalizeCell, Put, HoldsLease, Persisted, Persistable;
    PersistExactly(s, ResultArgs(a, q.tasks[Key(a.org, a.task)].pins));
  }

  lemma SameLedgerRecords(s: Store, t: Store, l: Ledger)
    requires LedgerRecordsOk(s, l) && t.records == s.records
    ensures LedgerRecordsOk(t, l)
  {
    hide Bijective;
  }

  lemma ClaimSteps(w: World, worker: string, choice: Option<Key>, q: Queue, lease: Option<Lease>, rules: Rules)
    requires WorldInv(w, rules) && IsChoice(w.queue, choice, w.now) && ClaimTask(w.queue, worker, choice, w.now) == Ok((q, lease))
    ensures Steps(w, w.(queue := q), rules)
  {
    hide *;
    WorldCells(w, rules);
    ClaimKeeps(w.store, w.queue, worker, choice, w.now);
    ClaimQueueStep(w.queue, worker, choice, w.now);
    QueueSteps(w, q, rules);
  }

  lemma StartSteps(w: World, k: Key, worker: string, generation: Option<nat>, input: Option<string>, q: Queue, rules: Rules)
    requires WorldInv(w, rules) && StartTask(w.queue, k, worker, generation, input, w.now) == Ok(q)
    ensures Steps(w, w.(queue := q), rules)
  {
    hide *;
    WorldCells(w, rules);
    StartKeeps(w.store, w.queue, k, worker, generation, input, w.now);
    StartQueueStep(w.queue, k, worker, generation, input, w.now);
    QueueSteps(w, q, rules);
  }

  lemma HeartbeatSteps(w: World, k: Key, worker: string, generation: Option<nat>, q: Queue, rules: Rules)
    requires WorldInv(w, rules) && HeartbeatTask(w.queue, k, worker, generation, w.now) == Ok(q)
    ensures Steps(w, w.(queue := q), rules)
  {
    hide *;
    WorldCells(w, rules);
    HeartbeatKeeps(w.store, w.queue, k, worker, generation, w.now);
    HeartbeatQueueStep(w.queue, k, worker, generation, w.now);
    QueueSteps(w, q, rules);
  }

  lemma FailSteps(w: World, k: Key, worker: string, generation: Option<nat>, code: Option<string>, retryable: bool, fallback: Option<bool>, q: Queue, rules: Rules)
    requires WorldInv(w, rules) && FailTask(w.queue, k, worker, generation, code, retryable, fallback, w.now) == Ok(q)
    ensures Steps(w, w.(queue := q), rules)
  {
    hide *;
    WorldCells(w, rules);
    FailKeeps(w.store, w.queue, k, worker, generation, code, retryable, fallback, w.now);
    FailQueueStep(w.queue, k, worker, generation, code, retryable, fallback, w.now);
    QueueSteps(w, q, rules);
  }

  lemma ImportSteps(w: World, a: ImportArgs, t: Store, l: Ledger, reply: Reply, rules: Rules)
    requires WorldInv(w, rules) && ImportKey(a) !in w.store.records && ImportCandidate(w.store, w.ledger, a, rules) == Ok((t, l, reply))
    ensures Steps(w, w.(store := t, ledger := l), rules)
  {
    hide *;
    WorldCells(w, rules);
    InvCases(w.store);
    var k, response := ImportKey(a), Key(a.org, a.candidate);
    ImportKeeps(w.store, w.ledger, a, rules);
    ImportRecord(w.store, w.ledger, a, rules, t, l, reply);
    TaskRecordKeeps(w.store, t, k, a.request, response);
    RecordedStep(w.store, t, k, a.request, response);
    QueueRecords(w.store, w.queue);
    OtherRecord(w.store, t, w.queue, k, a.request, response);
    PlanningStepKeeps(w.store, t, w.queue);
    OneMoreCandidate(w.ledger, response, l);
    LedgerSteps(w, t, l, rules);
  }

  lemma QueueRecords(s: Store, q: Queue)
    requires QueueInv(s, q)
    ensures TaskRecordsOk(s, q)
  {
    hide CellsOk, PinsOk, EffectiveOk, ResultsOk, TaskRecordsOk;
  }

  lemma ImportRecord(s: Store, l: Ledger, a: ImportArgs, rules: Rules, t: Store, m: Ledger, reply: Reply)
    requires CasesOk(s) && ImportKey(a) !in s.records && ImportCandidate(s, l, a, rules) == Ok((t, m, reply))
    ensures var k, response := ImportKey(a), Key(a.org, a.candidate);
            && t.records == Insert(s.records, k, a.request, response) && t == s.(records := t.records) && k.operation == CandidateImport
            && response !in l.candidates && response in m.candidates && m == l.(candidates := l.candidates[response := m.candidates[response]])
            && reply == Reply(response, false)
  {
    hide CasesOk, ImportCandidate, EvidenceAccepted, ContractOk, Values, Insert, CaseAt;
    ImportExactly(s, l, a, rules);
  }

  lemma VerifySteps(w: World, a: VerifyArgs, version: int, v: World, reply: VerifyReply, rules: Rules)
    requires WorldInv(w, rules) && VerifyKey(a) !in w.store.records && Chosen(w, VerifyCall(a, version))
    requires v.queue == w.queue && v.now == w.now
    requires VerifyCandidate(w.store, w.ledger, a, rules, version) == Ok((v.store, v.ledger, reply))
    ensures Steps(w, v, rules)
  {
    hide *;
    ChosenVersion(w, a, version);
    var t, l := v.store, v.ledger;
    assert v == w.(store := t, ledger := l);
    WorldCells(w, rules);
    InvCases(w.store);
    var k, response := VerifyKey(a), Key(a.org, a.verification);
    VerifyKeeps(w.store, w.ledger, a, rules, version);
    VerifyRecord(w.store, w.ledger, a, rules, version, t, l, reply);
    VerifiedKeeps(w.store, t, k, a.request, response);
    RecordedStep(w.store, t, k, a.request, response);
    QueueRecords(w.store, w.queue);
    OtherRecord(w.store, t, w.queue, k, a.request, response);
    PlanningStepKeeps(w.store, t, w.queue);
    OneMoreVerification(w.ledger, response, l);
    LedgerSteps(w, t, l, rules);
  }

  lemma VerifyRecord(s: Store, l: Ledger, a: VerifyArgs, rules: Rules, version: int, t: Store, m: Ledger, reply: VerifyReply)
    requires EvidenceOk(s) && NextPackVersion(s.packs, a.org, BASE_PACK, version)
    requires VerifyKey(a) !in s.records && VerifyCandidate(s, l, a, rules, version) == Ok((t, m, reply))
    ensures var k, response := VerifyKey(a), Key(a.org, a.verification);
            && k.operation == CandidateVerify && t.records == Insert(s.records, k, a.request, response)
            && response !in l.verifications && response in m.verifications && m == l.(verifications := l.verifications[response := m.verifications[response]])
            && reply.id == response && !reply.replayed
  {
    hide VerifyCandidate, VerifyRefusal, VerdictStands, AfterVerdict, EvidenceOk, NextPackVersion, NewVerification, Insert;
    VerifyExactly(s, l, a, rules, version);
    FreshVerification(s, l, a, rules, version);
    assert AfterVerdict(s, a, rules, version).records == s.records by { VerdictRecords(s, l, a, rules, version); }
  }

  lemma VerdictRecords(s: Store, l: Ledger, a: VerifyArgs, rules: Rules, version: int)
    requires EvidenceOk(s) && NextPackVersion(s.packs, a.org, BASE_PACK, version) && VerdictStands(s, l, a, rules, version)
    ensures AfterVerdict(s, a, rules, version).records == s.records
  {
    hide EvidenceOk, NextPackVersion, VerdictStands, AfterVerdict, PromotedBy, LedgerGrows;
    VerdictKeepsEvidence(s, l, a, rules, version);
  }

  lemma VerifiedKeeps(s: Store, t: Store, k: RecordKey, request: string, response: Key)
    requires Inv(s) && EvidenceOk(t) && LedgerGrows(s, t) && k !in s.records && k.operation == CandidateVerify
    requires t == s.(packs := t.packs, entries := t.entries, evidence := t.evidence, records := t.records)
    requires t.records == Insert(s.records, k, request, response)
    ensures Inv(t) && Beside(s, t) && Grows(s, t)
  {
    hide CasesOk, RunsOk, ChainsOk, ReviewsOk, HandoffOk, BriefsOk, DecisionsOk, EvidenceOk, OutputsOk, Bijective, PinnedOk;
    InsertBijective(s.records, k, request, response, AdvisorReview, s.reviews.Keys);
    InsertBijective(s.records, k, request, response, FamilyDecision, s.decisions.Keys);
    GrowthBeside(s, t);
    CasesFrame(s, t);
    BesideInv(s, t);
  }

  // ------------------------------------------------------------------ every call

  // What a call computes, for the case at hand.
  lemma CallIs(w: World, call: Call, rules: Rules)
    ensures match call
            case Publish(c, expected, revision, facts) => Apply(w, call, rules) == OnStore(w, PublishRevision(w.store, c, expected, revision, facts))
            case Transition(c, from, to) => Apply(w, call, rules) == OnStore(w, TransitionCase(w.store, c, from, to))
            case Participants(c, advisor, student, parent) => Apply(w, call, rules) == OnStore(w, AddParticipants(w.store, c, advisor, student, parent))
            case StorePack(pack, manifest, items) => Apply(w, call, rules) == OnStore(w, PersistPack(w.store, pack, manifest, items))
            case StoreEvidence(id, e) => Apply(w, call, rules) == OnStore(w, PersistEvidence(w.store, id, e))
            case StoreResult(a) => Apply(w, call, rules) == OnStore(w, PersistResult(w.store, a))
            case ReviewCall(a, date, version) => Apply(w, call, rules) == OnRecorded(w, ReviewRun(w.store, a, date, version))
            case DecideCall(a, pick) => Apply(w, call, rules) == OnRecorded(w, DecideBrief(w.store, a, pick))
            case CreateCall(a) => Apply(w, call, rules) == OnTask(w, CreateTask(w.store, w.queue, a, w.now))
            case CancelCall(a) => Apply(w, call, rules) == OnTask(w, CancelTask(w.store, w.queue, a, w.now))
            case ClaimCall(worker, choice) => Apply(w, call, rules) == OnClaim(w, ClaimTask(w.queue, worker, choice, w.now))
            case StartCall(k, worker, generation, input) => Apply(w, call, rules) == OnQueue(w, StartTask(w.queue, k, worker, generation, input, w.now))
            case HeartbeatCall(k, worker, generation) => Apply(w, call, rules) == OnQueue(w, HeartbeatTask(w.queue, k, worker, generation, w.now))
            case FailCall(k, worker, generation, code, retryable, fallback) =>
              Apply(w, call, rules) == OnQueue(w, FailTask(w.queue, k, worker, generation, code, retryable, fallback, w.now))
            case FinalizeCall(a) => Apply(w, call, rules) == OnFinalize(w, FinalizeTask(w.store, w.queue, a, w.now))
            case ImportCall(a) => Apply(w, call, rules) == OnImport(w, ImportCandidate(w.store, w.ledger, a, rules))
            case VerifyCall(a, version) => Apply(w, call, rules) == OnVerify(w, VerifyCandidate(w.store, w.ledger, a, rules, version))
  {
    hide PublishRevision, TransitionCase, AddParticipants, PersistPack, PersistEvidence, PersistResult, ReviewRun, DecideBrief, CreateTask, CancelTask,
         ClaimTask, StartTask, HeartbeatTask, FailTask, FinalizeTask, ImportCandidate, VerifyCandidate;
  }

  // Which tables a successful call has replaced.
  lemma OnStoreOk(w: World, r: Result<Store>, v: World, answer: Answer)
    requires OnStore(w, r) == Ok((v, answer))
    ensures r == Ok(v.store) && v == w.(store := v.store)
  {
  }

  lemma OnRecordedOk(w: World, r: Result<(Store, Reply)>, v: World, answer: Answer)
    requires OnRecorded(w, r) == Ok((v, answer))
    ensures answer.Replied? && r == Ok((v.store, answer.reply)) && v == w.(store := v.store)
  {
  }

  lemma OnTaskOk(w: World, r: Result<(Store, Queue, TaskReply)>, v: World, answer: Answer)
    requires OnTask(w, r) == Ok((v, answer))
    ensures answer.TaskReplied? && r == Ok((v.store, v.queue, answer.task)) && v == w.(store := v.store, queue := v.queue)
  {
  }

  lemma OnQueueOk(w: World, r: Result<Queue>, v: World, answer: Answer)
    requires OnQueue(w, r) == Ok((v, answer))
    ensures r == Ok(v.queue) && v == w.(queue := v.queue)
  {
  }

  lemma OnClaimOk(w: World, r: Result<(Queue, Option<Lease>)>, v: World, answer: Answer)
    requires OnClaim(w, r) == Ok((v, answer))
    ensures answer.Granted? && r == Ok((v.queue, answer.lease)) && v == w.(queue := v.queue)
  {
  }

  lemma OnFinalizeOk(w: World, r: Result<(Store, Queue)>, v: World, answer: Answer)
    requires OnFinalize(w, r) == Ok((v, answer))
    ensures r == Ok((v.store, v.queue)) && v == w.(store := v.store, queue := v.queue)
  {
  }

  lemma OnImportOk(w: World, r: Result<(Store, Ledger, Reply)>, v: World, answer: Answer)
    requires OnImport(w, r) == Ok((v, answer))
    ensures answer.Replied? && r == Ok((v.store, v.ledger, answer.reply)) && v == w.(store := v.store, ledger := v.ledger)
  {
  }

  lemma OnVerifyOk(w: World, r: Result<(Store, Ledger, VerifyReply)>, v: World, answer: Answer)
    requires OnVerify(w, r) == Ok((v, answer))
    ensures answer.Verified? && r == Ok((v.store, v.ledger, answer.verified)) && v == w.(store := v.store, ledger := v.ledger)
  {
  }

  // A call whose key is on record changes nothing.
  lemma RecordedChangesNothing(w: World, call: Call, v: World, answer: Answer, rules: Rules)
    requires !Unrecorded(w, call) && Apply(w, call, rules) == Ok((v, answer))
    ensures v == w
  {
    hide PublishRevision, TransitionCase, AddParticipants, PersistPack, PersistEvidence, PersistResult, ClaimTask, StartTask, HeartbeatTask, FailTask,
         FinalizeTask, ReviewTarget, ReviewRefusal, DecideTarget, DecideRefusal, PinsValid, HasEffective, CancelCell, CreateCell, EvidenceAccepted,
         ContractOk, VerifyRefusal, ApproveCandidate, Conclude, WithReview, RecordDecision, Put, Values;
  }

  lemma PlanningCall(w: World, call: Call, v: World, answer: Answer, rules: Rules)
    requires WorldInv(w, rules) && Chosen(w, call) && Unrecorded(w, call)
    requires call.Publish? || call.Transition? || call.Participants? || call.StorePack? || call.StoreEvidence? || call.StoreResult? || call.ReviewCall? || call.DecideCall?
    requires Apply(w, call, rules) == Ok((v, answer))
    ensures Steps(w, v, rules)
  {
    hide *;
    CallIs(w, call, rules);
    match call
    case Publish(c, expected, revision, facts) =>
      OnStoreOk(w, PublishRevision(w.store, c, expected, revision, facts), v, answer);
      PublishSteps(w, c, expected, revision, facts, v.store, rules);
    case Transition(c, from, to) =>
      OnStoreOk(w, TransitionCase(w.store, c, from, to), v, answer);
      TransitionSteps(w, c, from, to, v.store, rules);
    case Participants(c, advisor, student, parent) =>
      OnStoreOk(w, AddParticipants(w.store, c, advisor, student, parent), v, answer);
      ParticipantsSteps(w, c, advisor, student, parent, v.store, rules);
    case StorePack(pack, manifest, items) =>
      OnStoreOk(w, PersistPack(w.store, pack, manifest, items), v, answer);
      PackSteps(w, pack, manifest, items, v.store, rules);
    case StoreEvidence(id, e) =>
      OnStoreOk(w, PersistEvidence(w.store, id, e), v, answer);
      EvidenceSteps(w, id, e, v.store, rules);
    case StoreResult(a) =>
      OnStoreOk(w, PersistResult(w.store, a), v, answer);
      ResultSteps(w, a, v.store, rules);
    case ReviewCall(a, date, version) =>
      KeyIs(w, call);
      OnRecordedOk(w, ReviewRun(w.store, a, date, version), v, answer);
      ReviewSteps(w, a, date, version, v.store, answer.reply, rules);
    case DecideCall(a, pick) =>
      KeyIs(w, call);
      OnRecordedOk(w, DecideBrief(w.store, a, pick), v, answer);
      DecideSteps(w, a, pick, v.store, answer.reply, rules);
  }

  lemma KeyIs(w: World, call: Call)
    requires Unrecorded(w, call)
    ensures match call
            case ReviewCall(a, _, _) => ReviewKey(a) !in w.store.records
            case DecideCall(a, _) => DecideKey(a) !in w.store.records
            case CreateCall(a) => CreateKey(a) !in w.store.records
            case CancelCall(a) => CancelKey(a) !in w.store.records
            case ImportCall(a) => ImportKey(a) !in w.store.records
            case VerifyCall(a, _) => VerifyKey(a) !in w.store.records
            case _ => true
  {
  }

  lemma TaskCall(w: World, call: Call, v: World, answer: Answer, rules: Rules)
    requires WorldInv(w, rules) && Unrecorded(w, call)
    requires call.CreateCall? || call.CancelCall? || call.FinalizeCall?
    requires Apply(w, call, rules) == Ok((v, answer))
    ensures Steps(w, v, rules)
  {
    hide *;
    CallIs(w, call, rules);
    KeyIs(w, call);
    match call
    case CreateCall(a) =>
      OnTaskOk(w, CreateTask(w.store, w.queue, a, w.now), v, answer);
      CreateSteps(w, a, v.store, v.queue, answer.task, rules);
    case CancelCall(a) =>
      OnTaskOk(w, CancelTask(w.store, w.queue, a, w.now), v, answer);
      CancelSteps(w, a, v.store, v.queue, answer.task, rules);
    case FinalizeCall(a) =>
        OnFinalizeOk(w, FinalizeTask(w.store, w.queue, a, w.now), v, answer);
      FinalizeSteps(w, a, v.store, v.queue, rules);
  }

  lemma WorkerCall(w: World, call: Call, v: World, answer: Answer, rules: Rules)
    requires WorldInv(w, rules) && Chosen(w, call)
    requires call.ClaimCall? || call.StartCall? || call.HeartbeatCall? || call.FailCall?
    requires Apply(w, call, rules) == Ok((v, answer))
    ensures Steps(w, v, rules)
  {
    hide *;
    CallIs(w, call, rules);
    match call
    case ClaimCall(worker, choice) =>
      ChosenHead(w, worker, choice);
      OnClaimOk(w, ClaimTask(w.queue, worker, choice, w.now), v, answer);
      ClaimSteps(w, worker, choice, v.queue, answer.lease, rules);
    case StartCall(k, worker, generation, input) =>
      OnQueueOk(w, StartTask(w.queue, k, worker, generation, input, w.now), v, answer);
      StartSteps(w, k, worker, generation, input, v.queue, rules);
    case HeartbeatCall(k, worker, generation) =>
      OnQueueOk(w, HeartbeatTask(w.queue, k, worker, generation, w.now), v, answer);
      HeartbeatSteps(w, k, worker, generation, v.queue, rules);
    case FailCall(k, worker, generation, code, retryable, fallback) =>
      OnQueueOk(w, FailTask(w.queue, k, worker, generation, code, retryable, fallback, w.now), v, answer);
      FailSteps(w, k, worker, generation, code, retryable, fallback, v.queue, rules);
  }

  lemma ChosenHead(w: World, worker: string, choice: Option<Key>)
    requires Chosen(w, ClaimCall(worker, choice))
    ensures IsChoice(w.queue, choice, w.now)
  {
    hide IsChoice;
  }

  lemma LedgerCall(w: World, call: Call, v: World, answer: Answer, rules: Rules)
    requires WorldInv(w, rules) && Chosen(w, call) && Unrecorded(w, call)
    requires call.ImportCall? || call.VerifyCall?
    requires Apply(w, call, rules) == Ok((v, answer))
    ensures Steps(w, v, rules)
  {
    hide *;
    CallIs(w, call, rules);
    KeyIs(w, call);
    match call
    case ImportCall(a) =>
      OnImportOk(w, ImportCandidate(w.store, w.ledger, a, rules), v, answer);
      ImportSteps(w, a, v.store, v.ledger, answer.reply, rules);
    case VerifyCall(a, version) =>
      OnVerifyOk(w, VerifyCandidate(w.store, w.ledger, a, rules, version), v, answer);
      VerifySteps(w, a, version, v, answer.verified, rules);
  }

  lemma ChosenVersion(w: World, a: VerifyArgs, version: int)
    requires Chosen(w, VerifyCall(a, version))
    ensures NextPackVersion(w.store.packs, a.org, BASE_PACK, version)
  {
    hide NextPackVersion;
  }

  lemma CallSteps(w: World, call: Call, v: World, answer: Answer, rules: Rules)
    requires WorldInv(w, rules) && Chosen(w, call) && Apply(w, call, rules) == Ok((v, answer))
    ensures Steps(w, v, rules)
  {
    hide *;
    if !Unrecorded(w, call) {
      RecordedChangesNothing(w, call, v, answer, rules);
      SameWorld(w, rules);
    } else if call.CreateCall? || call.CancelCall? || call.FinalizeCall? {
      TaskCall(w, call, v, answer, rules);
    } else if call.ClaimCall? || call.StartCall? || call.HeartbeatCall? || call.FailCall? {
      WorkerCall(w, call, v, answer, rules);
    } else if call.ImportCall? || call.VerifyCall? {
      LedgerCall(w, call, v, answer, rules);
    } else {
      PlanningCall(w, call, v, answer, rules);
    }
  }

  // What a moment shows of its call.
  lemma MomentCall(w: World, m: Moment, rules: Rules)
    requires Happens(w, m, rules)
    ensures Chosen(Tick(w, m.wait), m.call) && m.after.now == w.now + m.wait
  {
    hide Chosen, Apply;
    HappensIs(w, m, rules);
    SameTime(Tick(w, m.wait), m.call, rules);
  }

  lemma SameTime(w: World, call: Call, rules: Rules)
    ensures forall v: World, answer :: Apply(w, call, rules) == Ok((v, answer)) ==> v.now == w.now
  {
    hide PublishRevision, TransitionCase, AddParticipants, PersistPack, PersistEvidence, PersistResult, ReviewRun, DecideBrief, CreateTask, CancelTask,
         ClaimTask, StartTask, HeartbeatTask, FailTask, FinalizeTask, ImportCandidate, VerifyCandidate;
  }

  lemma MomentOk(w: World, m: Moment, answer: Answer, rules: Rules)
    requires Happens(w, m, rules) && m.outcome == Ok(answer)
    ensures Apply(Tick(w, m.wait), m.call, rules) == Ok((m.after, answer))
  {
    hide Chosen, Apply;
    HappensIs(w, m, rules);
  }

  lemma MomentErr(w: World, m: Moment, e: Error, rules: Rules)
    requires Happens(w, m, rules) && m.outcome == Err(e)
    ensures Apply(Tick(w, m.wait), m.call, rules) == Err(e) && m.after == Tick(w, m.wait)
  {
    hide Chosen, Apply;
    HappensIs(w, m, rules);
  }

  // A call that can be made has a moment.
  lemma CanHappen(w: World, wait: nat, call: Call, rules: Rules) returns (m: Moment)
    requires Chosen(Tick(w, wait), call)
    ensures Happens(w, m, rules) && m.wait == wait && m.call == call
  {
    hide Apply, Chosen;
    var r := Apply(Tick(w, wait), call, rules);
    m := if r.Ok? then Moment(wait, call, Ok(r.value.1), r.value.0) else Moment(wait, call, Err(r.error), Tick(w, wait));
    HappensIs(w, m, rules);
  }

  lemma TickInv(w: World, wait: nat, rules: Rules)
    requires WorldInv(w, rules)
    ensures WorldInv(Tick(w, wait), rules)
    ensures Tick(w, wait) == w.(now := w.now + wait)
  {
    hide Inv, QueueInv, LedgerInv;
  }

  lemma TickTables(w: World, wait: nat)
    ensures Tick(w, wait) == w.(now := w.now + wait)
  {
  }

  lemma FromTick(w: World, wait: nat, v: World, rules: Rules)
    requires Steps(Tick(w, wait), v, rules)
    ensures Steps(w, v, rules)
  {
    hide WorldInv, StoreStep, QueueStep, LedgerLater;
  }

  // Whatever the call and its outcome: every moment keeps the invariant of all tables and moves
  // each group of tables by a step of its own kind.
  lemma MomentSteps(w: World, m: Moment, rules: Rules)
    requires WorldInv(w, rules) && Happens(w, m, rules)
    ensures Steps(w, m.after, rules)
  {
    hide *;
    MomentCall(w, m, rules);
    TickInv(w, m.wait, rules);
    if m.outcome.Ok? {
      MomentOk(w, m, m.outcome.value, rules);
      CallSteps(Tick(w, m.wait), m.call, m.after, m.outcome.value, rules);
    } else {
      MomentErr(w, m, m.outcome.error, rules);
      SameWorld(m.after, rules);
    }
    FromTick(w, m.wait, m.after, rules);
  }

  lemma StepsInv(w: World, v: World, rules: Rules)
    requires Steps(w, v, rules)
    ensures WorldInv(v, rules) && StoreStep(w.store, v.store) && QueueStep(w.queue, v.queue, v.now) && LedgerLater(w.ledger, v.ledger) && w.now <= v.now
  {
    hide WorldInv, StoreStep, QueueStep, LedgerLater;
  }

  // ------------------------------------------------------------------ every run

  lemma {:induction false} RunKeeps(w: World, run: seq<Moment>, rules: Rules)
    requires WorldInv(w, rules) && IsRun(w, run, rules)
    ensures WorldInv(Last(w, run), rules)
    decreases |run|
  {
    hide WorldInv, IsRun, Happens, Last;
    if run == [] {
      LastOfNone(w);
    } else {
      var init, m := run[..|run| - 1], run[|run| - 1];
      assert run == init + [m];
      OneMore(w, init, m, rules);
      RunKeeps(w, init, rules);
      MomentSteps(Last(w, init), m, rules);
      StepsInv(Last(w, init), m.after, rules);
    }
  }

  lemma LastOfNone(w: World)
    ensures Last(w, []) == w
  {
  }

  // Every state that any run of calls reaches from the empty tables keeps every invariant.
  lemma ReachableInv(w: World, rules: Rules)
    requires Reachable(w, rules)
    ensures WorldInv(w, rules)
  {
    hide WorldInv, IsRun, Last;
    var now, run :| IsRun(Start(now), run, rules) && w == Last(Start(now), run);
    StartInv(now, rules);
    RunKeeps(Start(now), run, rules);
  }
}
