// Concrete runs from the empty tables: they show that the theorems are about something, and that
// what they rule out under a condition does happen without it.
module RunWitness {
  import opened Sql
  import opened TaskLog
  import opened TaskCell
  import opened PlanningOutput
  import opened OutputLayout
  import opened Idempotency
  import opened Planning
  import opened PlanningInvariants
  import opened PlanningHandoff
  import opened PlanningDecision
  import opened PlanningTheorems
  import opened TaskQueue
  import opened TaskInvariants
  import opened Promotion
  import opened PromotionTheorems
  import opened LedgerInvariants
  import opened Runs
  import opened RunSteps
  import opened RunTheorems
  import opened RunFairness
  import opened RunFacts
  import opened RunAgreement
  import opened RunCases

  // ------------------------------------------------------------------ going on from a reachable state

  lemma Next(w: World, wait: nat, call: Call, v: World, answer: Answer, rules: Rules)
    requires Reachable(w, rules) && Chosen(Tick(w, wait), call)
    requires Apply(Tick(w, wait), call, rules) == Ok((v, answer))
    ensures Reachable(v, rules)
  {
    hide *;
    var m := Moves(w, wait, call, v, answer, rules);
    MomentReaches(w, m, rules);
  }

  lemma Moves(w: World, wait: nat, call: Call, v: World, answer: Answer, rules: Rules) returns (m: Moment)
    requires Chosen(Tick(w, wait), call) && Apply(Tick(w, wait), call, rules) == Ok((v, answer))
    ensures Happens(w, m, rules) && m.call == call && m.outcome == Ok(answer) && m.after == v
  {
    hide *;
    m := CanHappen(w, wait, call, rules);
    if m.outcome.Ok? {
      MomentOk(w, m, m.outcome.value, rules);
    } else {
      MomentErr(w, m, m.outcome.error, rules);
    }
  }

  // Calls whose arguments say it all.
  lemma IsFree(w: World, call: Call)
    requires !call.ReviewCall? && !call.DecideCall? && !call.ClaimCall? && !call.VerifyCall?
    ensures Chosen(w, call)
  {
  }

  lemma OnStoreIs(w: World, s: Store)
    ensures OnStore(w, Ok(s)) == Ok((w.(store := s), Done))
  {
  }

  lemma OnTaskIs(w: World, s: Store, q: Queue, reply: TaskReply)
    ensures OnTask(w, Ok((s, q, reply))) == Ok((w.(store := s, queue := q), TaskReplied(reply)))
  {
  }

  lemma OnQueueIs(w: World, q: Queue)
    ensures OnQueue(w, Ok(q)) == Ok((w.(queue := q), Done))
  {
  }

  lemma OnImportIs(w: World, s: Store, l: Ledger, reply: Reply)
    ensures OnImport(w, Ok((s, l, reply))) == Ok((w.(store := s, ledger := l), Replied(reply)))
  {
  }

  lemma OnVerifyIs(w: World, s: Store, l: Ledger, reply: VerifyReply)
    ensures OnVerify(w, Ok((s, l, reply))) == Ok((w.(store := s, ledger := l), Verified(reply)))
  {
  }

  lemma MomentReaches(w: World, m: Moment, rules: Rules)
    requires Reachable(w, rules) && Happens(w, m, rules)
    ensures Reachable(m.after, rules)
  {
    hide IsRun;
    ReachableOn(w, [m], rules);
  }

  function At(s: Store, q: Queue, now: int): World { World(s, q, NO_CANDIDATES, now) }

  // A call that only writes planning tables.
  lemma NextStore(s: Store, call: Call, t: Store, rules: Rules)
    requires Reachable(At(s, NO_TASKS, 0), rules)
    requires match call
             case Publish(c, expected, revision, facts) => PublishRevision(s, c, expected, revision, facts) == Ok(t)
             case Transition(c, from, to) => TransitionCase(s, c, from, to) == Ok(t)
             case Participants(c, advisor, student, parent) => AddParticipants(s, c, advisor, student, parent) == Ok(t)
             case StorePack(pack, manifest, items) => PersistPack(s, pack, manifest, items) == Ok(t)
             case StoreResult(a) => PersistResult(s, a) == Ok(t)
             case _ => false
    ensures Reachable(At(t, NO_TASKS, 0), rules)
  {
    hide Reachable, PublishRevision, TransitionCase, AddParticipants, PersistPack, PersistEvidence, PersistResult, ReviewRun, DecideBrief, CreateTask, CancelTask,
         ClaimTask, StartTask, HeartbeatTask, FailTask, FinalizeTask, ImportCandidate, VerifyCandidate, NO_TASKS;
    Next(At(s, NO_TASKS, 0), 0, call, At(t, NO_TASKS, 0), Done, rules);
  }

  // ------------------------------------------------------------------ a case in planning

  const CASE := Key(1, 1)

  function Hash(c: char): string {
    seq(64, i => c)
  }

  lemma HashIsSha(c: char)
    requires '0' <= c <= '9'
    ensures IsSha256(Hash(c)) && |Hash(c)| == 64
  {
  }

  lemma HashesDiffer()
    ensures Hash('0') != Hash('1')
  {
    assert Hash('0')[0] != Hash('1')[0];
  }

  function PackOf(id: nat): PackKey { PackKey(1, id, 1) }

  function Published(facts: Revision): Store {
    EMPTY.(revisions := map[RevisionKey(CASE, 1) := facts], cases := map[CASE := Case(Intake, 1)])
  }

  function InPlan(facts: Revision): Store { Published(facts).(cases := map[CASE := Case(InPlanning, 1)]) }

  function WithAdvisor(facts: Revision): Store {
    InPlan(facts).(participants := {Participant(CASE, 1, Advisor), Participant(CASE, 2, Student), Participant(CASE, 3, Parent)})
  }

  lemma ReachPlanning(facts: Revision, rules: Rules)
    ensures Reachable(At(WithAdvisor(facts), NO_TASKS, 0), rules)
  {
    hide *;
    StartReachable(0, rules);
    StartIsEmpty();
    PlanningOps(facts);
    NextStore(EMPTY, Publish(CASE, None, 1, facts), Published(facts), rules);
    NextStore(Published(facts), Transition(CASE, Intake, InPlanning), InPlan(facts), rules);
    NextStore(InPlan(facts), Participants(CASE, 1, 2, 3), WithAdvisor(facts), rules);
  }

  lemma StartIsEmpty()
    ensures Start(0) == At(EMPTY, NO_TASKS, 0)
  {
  }

  lemma PlanningOps(facts: Revision)
    ensures PublishRevision(EMPTY, CASE, None, 1, facts) == Ok(Published(facts))
    ensures TransitionCase(Published(facts), CASE, Intake, InPlanning) == Ok(InPlan(facts))
    ensures AddParticipants(InPlan(facts), CASE, 1, 2, 3) == Ok(WithAdvisor(facts))
  {
    assert Published(facts).cases[CASE := Case(InPlanning, 1)] == InPlan(facts).cases;
    assert {} + WithAdvisor(facts).participants == WithAdvisor(facts).participants;
  }

  // ------------------------------------------------------------------ packs

  const ENTRY := Entry("a", Hash('0'), 7, "p", "i", "u", 1, "link_only", "government", [], [])

  // With or without its one entry.
  function Entries(full: bool): map<EntryKey, Entry> {
    if full then map[EntryKey(PackOf(1), 1) := ENTRY] else map[]
  }

  function Items(full: bool): seq<NewEntry> {
    if full then [NewEntry(1, ENTRY)] else []
  }

  function OnePack(facts: Revision, full: bool): Store {
    WithAdvisor(facts).(packs := map[PackOf(1) := Pack(Hash('0'))], entries := Entries(full))
  }

  function TwoPacks(facts: Revision): Store {
    OnePack(facts, false).(packs := map[PackOf(1) := Pack(Hash('0')), PackOf(2) := Pack(Hash('0'))])
  }

  lemma PackOps(facts: Revision, full: bool)
    ensures PersistPack(WithAdvisor(facts), PackOf(1), Hash('0'), Items(full)) == Ok(OnePack(facts, full))
    ensures PersistPack(OnePack(facts, false), PackOf(2), Hash('0'), []) == Ok(TwoPacks(facts))
  {
    hide IsSha256, Hash;
    HashIsSha('0');
    hide InsertEntries, ENTRY;
    ItemsStored(full);
    assert InsertEntries(OnePack(facts, false).entries, PackOf(2), []) == Ok(OnePack(facts, false).entries) by { NoItems(PackOf(2)); }
    assert PackOf(1) != PackOf(2);
    assert map[][PackOf(1) := Pack(Hash('0'))] == OnePack(facts, full).packs;
  }

  lemma ItemsStored(full: bool)
    ensures InsertEntries(map[], PackOf(1), Items(full)) == Ok(Entries(full))
  {
    hide EntryValid;
    EntryIsValid();
    if full {
      assert Items(full)[1..] == [];
      var one: map<EntryKey, Entry> := map[][EntryKey(PackOf(1), 1) := ENTRY];
      assert one == Entries(full);
    }
  }

  lemma NoItems(pack: PackKey)
    ensures InsertEntries(map[], pack, []) == Ok(map[])
  {
  }

  lemma EntryIsValid()
    ensures EntryValid(ENTRY)
  {
    hide IsSha256, Hash;
    HashIsSha('0');
  }

  lemma ReachPack(facts: Revision, full: bool, rules: Rules)
    ensures Reachable(At(OnePack(facts, full), NO_TASKS, 0), rules)
  {
    hide *;
    ReachPlanning(facts, rules);
    PackOps(facts, full);
    NextStore(WithAdvisor(facts), StorePack(PackOf(1), Hash('0'), Items(full)), OnePack(facts, full), rules);
  }

  // ------------------------------------------------------------------ a run under review

  const RUN := Key(1, 1)
  const OUTPUT := Output([Route("australia", "recommended_with_condition", "r", [])], [], [])
  const ROWS := NO_ROWS.(routes := map[1 := RouteRow("australia", "recommended_with_condition", "r")])

  function ResultOf(): PersistArgs {
    PersistArgs(1, 1, 1, 1, PackOf(1), POLICY, Hash('0'), ReviewRequired, None, Some(Hash('0')), None, OUTPUT)
  }

  lemma OneRoute(claims: Claims)
    ensures StoreOutput(claims, OUTPUT) == Ok(ROWS)
  {
    assert OUTPUT.routes[1..] == [];
    assert map[][1 := RouteRow("australia", "recommended_with_condition", "r")] == ROWS.routes;
  }

  // The case is under review with a run that is pinned to the pack.
  ghost predicate UnderReview(w: World, facts: Revision, full: bool) {
    && w == At(w.store, NO_TASKS, 0)
    && w.store == OnePack(facts, full).(cases := map[CASE := Case(InAdvisorReview, 1)], runs := map[RUN := FinishedRun(ResultOf())], rows := map[RUN := ROWS])
  }

  lemma ReachReview(facts: Revision, full: bool, rules: Rules) returns (w: World)
    ensures Reachable(w, rules) && UnderReview(w, facts, full)
  {
    hide *;
    ReachPack(facts, full, rules);
    var s := OnePack(facts, full);
    var t := ResultStored(facts, full);
    NextStore(s, StoreResult(ResultOf()), t, rules);
    w := At(t, NO_TASKS, 0);
    AtStore(t);
  }

  lemma AtStore(t: Store)
    ensures At(t, NO_TASKS, 0).store == t
  {
  }

  lemma ResultStored(facts: Revision, full: bool) returns (t: Store)
    ensures PersistResult(OnePack(facts, full), ResultOf()) == Ok(t) && UnderReview(At(t, NO_TASKS, 0), facts, full)
  {
    hide IsSha256, Hash, StoreOutput, Entries, ClaimsOf, OUTPUT, ROWS, HandOff;
    HashIsSha('0');
    var s, a := OnePack(facts, full), ResultOf();
    OneRoute(ClaimsOf(s.evidence, a.pack));
    t := Handed(facts, full);
    ResultHandsOff(facts, full);
  }

  function Handed(facts: Revision, full: bool): Store {
    OnePack(facts, full).(cases := map[CASE := Case(InAdvisorReview, 1)], runs := map[RUN := FinishedRun(ResultOf())], rows := map[RUN := ROWS])
  }

  lemma ResultHandsOff(facts: Revision, full: bool)
    ensures var s := OnePack(facts, full);
            HandOff(s.(runs := s.runs[RUN := FinishedRun(ResultOf())], rows := s.rows[RUN := ROWS]), ResultOf()) == Ok(Handed(facts, full))
  {
    hide Hash, Entries, OUTPUT, ROWS, GuardCase;
    var s, t := OnePack(facts, full), Handed(facts, full);
    var stored := s.(runs := s.runs[RUN := FinishedRun(ResultOf())], rows := s.rows[RUN := ROWS]);
    assert stored.runs == t.runs && stored.rows == t.rows;
    GuardFindsRun(stored, CASE, RUN);
    assert stored.cases[CASE := Case(InAdvisorReview, 1)] == t.cases;
  }

  lemma GuardFindsRun(t: Store, c: Key, r: Key)
    requires c in t.cases && t.cases[c].state == InPlanning
    requires r in t.runs && t.runs[r].caseKey == c && t.runs[r].revision == t.cases[c].revision && t.runs[r].current && t.runs[r].state == ReviewRequired
    ensures GuardCase(t, c, InAdvisorReview)
  {
  }

  // ------------------------------------------------------------------ cases get stuck

  const FACTS := Revision(Some("2027-02"), None)

  // Stuck although a run is under review: only the pack lacks an entry, or only the revision an
  // intake.
  ghost predicate StuckByPack(s: Store, c: Key) {
    c in s.cases && Stuck(s, c) && !Stranded(s, c) && HasIntake(s, c, s.cases[c].revision)
  }

  ghost predicate StuckByIntake(s: Store, c: Key) {
    c in s.cases && Stuck(s, c) && !Stranded(s, c) && forall r :: r in s.runs && IsUnderReview(s, c, r) ==> HasEntry(s, s.runs[r].pack)
  }

  lemma EmptyPackSticks(w: World)
    requires UnderReview(w, FACTS, false)
    ensures StuckByPack(w.store, CASE)
  {
    hide Hash, ROWS;
    assert IsUnderReview(w.store, CASE, RUN);
  }

  lemma NoIntakeSticks(w: World)
    requires UnderReview(w, Revision(None, None), true)
    ensures StuckByIntake(w.store, CASE)
  {
    hide Hash, ROWS, ENTRY;
    assert IsUnderReview(w.store, CASE, RUN);
    assert EntryKey(PackOf(1), 1) in w.store.entries;
  }

  lemma ReviewState(w: World, facts: Revision)
    requires UnderReview(w, facts, true)
    ensures InState(w.store, CASE, InAdvisorReview) && PublishRevision(w.store, CASE, Some(1), 2, facts).Ok?
    ensures facts.intake.Some? ==> !Stuck(w.store, CASE)
  {
    hide Hash, ROWS, ENTRY;
    assert IsUnderReview(w.store, CASE, RUN);
    assert EntryKey(PackOf(1), 1) in w.store.entries;
  }

  // The moment strands a case that could be reviewed: it publishes a revision of it, or it stores a
  // result of another case that supersedes its run.
  ghost predicate Strands(w: World, m: Moment, c: Key, rules: Rules) {
    Happens(w, m, rules) && m.outcome.Ok? && InState(w.store, c, InAdvisorReview) && !Stuck(w.store, c) && Stranded(m.after.store, c)
  }

  predicate IsPublishing(m: Moment) { m.call.Publish? }

  predicate IsForeignResult(w: World, m: Moment, c: Key) {
    m.call.StoreResult? && SupersedesForeign(w.store, m.call.result, c)
  }

  // Each of the four ways to get stuck is taken by some run: an empty pack, a revision without an
  // intake, a revision that is published during the review, and a result of another case that
  // supersedes the run under review.
  lemma CasesGetStuck(rules: Rules)
    ensures exists w, c :: Reachable(w, rules) && StuckByPack(w.store, c)
    ensures exists w, c :: Reachable(w, rules) && StuckByIntake(w.store, c)
    ensures exists w, m, c :: Reachable(w, rules) && Strands(w, m, c, rules) && IsPublishing(m)
    ensures exists w, m, c :: Reachable(w, rules) && Strands(w, m, c, rules) && IsForeignResult(w, m, c)
  {
    hide *;
    var w := ReachReview(FACTS, false, rules);
    EmptyPackSticks(w);
    assert Reachable(w, rules) && StuckByPack(w.store, CASE);
    var v := ReachReview(Revision(None, None), true, rules);
    NoIntakeSticks(v);
    assert Reachable(v, rules) && StuckByIntake(v.store, CASE);
    PublishingHappens(rules);
    ForeignResultHappens(rules);
  }

  lemma PublishingHappens(rules: Rules)
    ensures exists w, m, c :: Reachable(w, rules) && Strands(w, m, c, rules) && IsPublishing(m)
  {
    hide *;
    var w := ReachReview(FACTS, true, rules);
    ReviewState(w, FACTS);
    FactsHaveIntake();
    var m := PublishSecond(w, FACTS, rules);
    PublishingStrands(w, m, CASE, Some(1), 2, FACTS, rules);
    StrandsIs(w, m, rules);
    assert Reachable(w, rules) && Strands(w, m, CASE, rules) && IsPublishing(m);
  }

  lemma FactsHaveIntake()
    ensures FACTS.intake.Some?
  {
  }

  lemma StrandsIs(w: World, m: Moment, rules: Rules)
    ensures Strands(w, m, CASE, rules) <==>
              && Happens(w, m, rules) && m.outcome.Ok? && InState(w.store, CASE, InAdvisorReview)
              && !Stuck(w.store, CASE) && Stranded(m.after.store, CASE)
    ensures IsPublishing(m) <==> m.call.Publish?
  {
    hide Happens, InState, Stuck, Stranded;
  }

  lemma PublishSecond(w: World, facts: Revision, rules: Rules) returns (m: Moment)
    requires PublishRevision(w.store, CASE, Some(1), 2, facts).Ok?
    ensures Happens(w, m, rules) && m.call == Publish(CASE, Some(1), 2, facts) && m.outcome.Ok?
  {
    hide *;
    var call := Publish(CASE, Some(1), 2, facts);
    PublishIsFree(w, facts);
    m := CanHappen(w, 0, call, rules);
    TickTables(w, 0);
    CallIs(Tick(w, 0), call, rules);
    OnStoreErr(Tick(w, 0), PublishRevision(w.store, CASE, Some(1), 2, facts));
    if m.outcome.Err? {
      MomentErr(w, m, m.outcome.error, rules);
    }
  }

  lemma PublishIsFree(w: World, facts: Revision)
    ensures Chosen(Tick(w, 0), Publish(CASE, Some(1), 2, facts))
  {
  }

  lemma OnStoreErr(w: World, r: Result<Store>)
    ensures OnStore(w, r).Err? <==> r.Err?
  {
  }

  // ------------------------------------------------------------------ a result of another case

  const OTHER := Key(1, 2)

  // A result of the second case that supersedes the run of the first one.
  function ForeignResult(): PersistArgs {
    PersistArgs(1, 2, 2, 1, PackOf(1), POLICY, Hash('0'), ReviewRequired, None, Some(Hash('0')), Some(1), OUTPUT)
  }

  function WithOther(s: Store): Store {
    s.(revisions := s.revisions[RevisionKey(OTHER, 1) := FACTS], cases := s.cases[OTHER := Case(InPlanning, 1)])
  }

  function OtherPublished(s: Store): Store {
    s.(revisions := s.revisions[RevisionKey(OTHER, 1) := FACTS], cases := s.cases[OTHER := Case(Intake, 1)])
  }

  lemma ReachOther(w: World, rules: Rules)
    requires Reachable(w, rules) && UnderReview(w, FACTS, true)
    ensures Reachable(At(WithOther(w.store), NO_TASKS, 0), rules)
  {
    hide *;
    OtherIsNew(w);
    OtherCase(w.store);
    NextStore(w.store, Publish(OTHER, None, 1, FACTS), OtherPublished(w.store), rules);
    NextStore(OtherPublished(w.store), Transition(OTHER, Intake, InPlanning), WithOther(w.store), rules);
  }

  lemma OtherIsNew(w: World)
    requires UnderReview(w, FACTS, true)
    ensures w == At(w.store, NO_TASKS, 0) && OTHER !in w.store.cases && RevisionKey(OTHER, 1) !in w.store.revisions
  {
    hide Hash, ROWS, Entries;
  }

  lemma OtherCase(s: Store)
    requires OTHER !in s.cases && RevisionKey(OTHER, 1) !in s.revisions
    ensures PublishRevision(s, OTHER, None, 1, FACTS) == Ok(OtherPublished(s))
    ensures TransitionCase(OtherPublished(s), OTHER, Intake, InPlanning) == Ok(WithOther(s))
  {
    assert OtherPublished(s).cases[OTHER := Case(InPlanning, 1)] == WithOther(s).cases;
  }

  lemma ForeignIsPersistable(w: World)
    requires UnderReview(w, FACTS, true)
    ensures Persistable(WithOther(w.store), ForeignResult())
  {
    hide IsSha256, Hash, ROWS, Entries, OUTPUT, Acceptable, ClaimsOf;
    HashIsSha('0');
    var s, a := WithOther(w.store), ForeignResult();
    OutputAcceptable(ClaimsOf(s.evidence, a.pack));
    assert CaseOf(a) == OTHER && OTHER != CASE && RunOf(a) !in s.runs;
  }

  lemma OutputAcceptable(claims: Claims)
    ensures Acceptable(claims, OUTPUT)
  {
    hide Acceptable, StoreOutput, OUTPUT, ROWS;
    OneRoute(claims);
    OutputStored(claims, OUTPUT);
  }

  lemma ForeignSupersedes(w: World)
    requires UnderReview(w, FACTS, true)
    ensures SupersedesForeign(WithOther(w.store), ForeignResult(), CASE) && InState(WithOther(w.store), CASE, InAdvisorReview)
  {
    hide Hash, ROWS, Entries, OUTPUT;
  }

  lemma OtherLeavesReview(w: World)
    requires UnderReview(w, FACTS, true)
    ensures !Stuck(WithOther(w.store), CASE)
  {
    hide Hash, ROWS, ENTRY, OUTPUT;
    var s := WithOther(w.store);
    assert IsUnderReview(s, CASE, RUN);
    assert EntryKey(PackOf(1), 1) in s.entries;
  }

  lemma ForeignResultHappens(rules: Rules)
    ensures exists w, m, c :: Reachable(w, rules) && Strands(w, m, c, rules) && IsForeignResult(w, m, c)
  {
    hide *;
    var v := ReachReview(FACTS, true, rules);
    ReachOther(v, rules);
    var w, a := At(WithOther(v.store), NO_TASKS, 0), ForeignResult();
    AtStore(WithOther(v.store));
    ForeignIsPersistable(v);
    ForeignSupersedes(v);
    OtherLeavesReview(v);
    ReachableInv(w, rules);
    WorldCells(w, rules);
    InvCases(w.store);
    PersistExactly(w.store, a);
    var m := StoreMoment(w, a, PersistResult(w.store, a).value, rules);
    StoresIs(w, m, a);
    ForeignSupersessionStrands(w, m, a, CASE, rules);
    StrandsIs(w, m, rules);
    ForeignIs(w, m, a);
    assert Reachable(w, rules) && Strands(w, m, CASE, rules) && IsForeignResult(w, m, CASE);
  }

  lemma ForeignIs(w: World, m: Moment, a: PersistArgs)
    requires m.call == StoreResult(a) && SupersedesForeign(w.store, a, CASE)
    ensures IsForeignResult(w, m, CASE)
  {
    hide SupersedesForeign;
  }

  lemma StoresIs(w: World, m: Moment, a: PersistArgs)
    requires m.call == StoreResult(a)
    ensures Stores(w, m, a)
  {
  }

  lemma StoreMoment(w: World, a: PersistArgs, t: Store, rules: Rules) returns (m: Moment)
    requires PersistResult(w.store, a) == Ok(t)
    ensures Happens(w, m, rules) && m.call == StoreResult(a) && m.outcome.Ok?
  {
    hide *;
    var v, call := Tick(w, 0), StoreResult(a);
    TickTables(w, 0);
    IsFree(v, call);
    CallIs(v, call, rules);
    OnStoreIs(v, t);
    m := Moves(w, 0, call, v.(store := t), Done, rules);
  }

  // ------------------------------------------------------------------ a brief, and a decision without facts

  const BRIEF := Key(1, 1)

  function Approval(): ReviewArgs {
    ReviewArgs(1, 1, 1, 1, 1, Approve, 1, [1], [], Some(1), Some(CanonicalProjection(ROWS, [1], [], "2027-02")), Some(7), Hash('0'), Hash('0'))
  }

  // The case waits for its family, with a brief about its first revision.
  ghost predicate WithBrief(w: World) {
    && w.queue == NO_TASKS && w.store.cases == map[CASE := Case(InFamilyReview, 1)] && w.store.revisions == map[RevisionKey(CASE, 1) := FACTS]
    && w.store.rows == map[RUN := ROWS] && w.store.participants == WithAdvisor(FACTS).participants && w.store.decisions == map[] && w.store.timelines == map[]
    && BRIEF in w.store.briefs && w.store.briefs.Keys == {BRIEF}
    && (var b := w.store.briefs[BRIEF]; b.caseKey == CASE && b.revision == 1 && b.run == RUN && b.current)
    && (forall k :: k in w.store.records ==> k.operation == AdvisorReview)
  }

  lemma ApprovalAllowed(w: World)
    requires UnderReview(w, FACTS, true)
    ensures ReviewAllowed(w.store, Approval(), Some(7)) && ReviewKey(Approval()) !in w.store.records
  {
    hide Hash, CanonicalProjection, IsSha256, ENTRY;
    HashIsSha('0');
    var s, a := w.store, Approval();
    assert ReviewTarget(s, a);
    assert Eligible(s.rows[RUN], 1);
    assert ReviewRefusal(s, a, Some(7)) == None;
  }

  lemma ApprovalChosen(w: World)
    requires UnderReview(w, FACTS, true)
    ensures Chosen(Tick(w, 0), ReviewCall(Approval(), Some(7), 1))
  {
    hide Hash, CanonicalProjection, ROWS;
    assert EntryKey(PackOf(1), 1) in w.store.entries;
  }

  lemma ApprovalTables(w: World, v: World)
    requires UnderReview(w, FACTS, true) && ReviewAllowed(w.store, Approval(), Some(7))
    requires v == w.(store := AfterReview(w.store, Approval(), Some(7), 1))
    ensures WithBrief(v)
  {
    hide Hash, CanonicalProjection, ROWS, ENTRY, ReviewRefusal, AcceptancesOf;
    NotRefused(w.store, Approval(), Some(7));
    assert v.store.briefs[BRIEF] == NewBrief(w.store, Approval(), 7);
  }

  lemma ReachBrief(rules: Rules) returns (v: World)
    ensures Reachable(v, rules) && WithBrief(v)
  {
    hide *;
    var w := ReachReview(FACTS, true, rules);
    ApprovalAllowed(w);
    ApprovalChosen(w);
    var a := Approval();
    ReviewExactly(w.store, a, Some(7), 1);
    v := w.(store := AfterReview(w.store, a, Some(7), 1));
    ApprovalTables(w, v);
    TickTables(w, 0);
    var call := ReviewCall(a, Some(7), 1);
    CallIs(Tick(w, 0), call, rules);
    RecordedAnswer(Tick(w, 0), v.store, Reply(Key(a.org, a.review), false));
    Next(w, 0, call, v, Replied(Reply(Key(a.org, a.review), false)), rules);
  }

  lemma RecordedAnswer(w: World, t: Store, reply: Reply)
    ensures OnRecorded(w, Ok((t, reply))) == Ok((w.(store := t), Replied(reply)))
  {
  }

  function Attempt(): DecideArgs {
    DecideArgs(1, 2, Student, 1, 1, 1, 1, 1, 1, 1, "CNY", {}, 2, "direct", 1, [], Hash('0'), Hash('0'))
  }

  lemma BriefIsDecidable(w: World)
    requires WithBrief(w)
    ensures Decidable(w.store, CASE) && CanDecide(w.store, CASE, Attempt()) && !BothFacts(w.store, BRIEF)
  {
    hide Hash;
    HashIsSha('0');
    IntakeIsSupported();
    var s := w.store;
    assert Payable(s.rows[RUN], None, CeilingOf(s, s.briefs[BRIEF]));
    assert DecidableBrief(s, CASE, BRIEF);
  }

  lemma IntakeIsSupported()
    ensures SupportedIntake("2027-02") && YearOf("2027-02") == 2027
  {
    assert "2027-02"[4..] == "-02";
  }

  // Some run decides on a budget that no fact supports: its run has no cost row and its revision no
  // ceiling.
  lemma UnsupportedDecision(rules: Rules)
    ensures exists w, m, b :: Reachable(w, rules) && Happens(w, m, rules) && Accepted(w, m, b) && !IsSupported(w, m, b)
  {
    hide *;
    var w := ReachBrief(rules);
    BriefIsDecidable(w);
    ReachableInv(w, rules);
    var m := OwnDecisionMoment(w, CASE, Attempt(), rules);
    OnlyBrief(w, m);
    AcceptedSupport(w, m, BRIEF, rules);
    assert Reachable(w, rules) && Happens(w, m, rules) && Accepted(w, m, BRIEF) && !IsSupported(w, m, BRIEF);
  }

  lemma OnlyBrief(w: World, m: Moment)
    requires WithBrief(w) && Decides(w, m, CASE) && m.outcome.Ok?
    ensures Accepted(w, m, BRIEF)
  {
    hide Unrecorded, ROWS;
  }

  lemma FamilyState(w: World)
    requires WithBrief(w)
    ensures InState(w.store, CASE, InFamilyReview) && PublishRevision(w.store, CASE, Some(1), 2, FACTS).Ok?
  {
    hide ROWS, Hash;
  }

  // And some run parks its case.
  lemma CasesGetParked(rules: Rules)
    ensures exists w, c :: Reachable(w, rules) && Parked(w.store, c)
  {
    hide *;
    var w := ReachBrief(rules);
    FamilyState(w);
    var m := PublishSecond(w, FACTS, rules);
    PublishingParks(w, m, CASE, Some(1), 2, FACTS, rules);
    MomentReaches(w, m, rules);
    assert Reachable(m.after, rules) && Parked(m.after.store, CASE);
  }

  // ------------------------------------------------------------------ tasks

  const FIRST := Key(1, 1)
  const SECOND := Key(1, 2)
  const CREATED_LATER: nat := 100_000_000
  const LONG: nat := 3_000_000_000_000
  const MUCH_LATER: nat := CREATED_LATER + LONG

  function CreateOf(task: nat, hash: char): CreateArgs {
    CreateArgs(1, 1, 1, task, 1, task, 1, POLICY, Hash(hash), Hash(hash))
  }

  function Noted(s: Store, a: CreateArgs): Store {
    s.(records := Insert(s.records, CreateKey(a), a.request, Key(a.org, a.task)))
  }

  function Once(): Store { Noted(TwoPacks(FACTS), CreateOf(1, '0')) }

  function Twice(): Store { Noted(Once(), CreateOf(2, '1')) }

  function Cell1(): Cell { CreateCell(PinsOf(CreateOf(1, '0')), Hash('0'), 1, 0) }

  function Cell2(): Cell { CreateCell(PinsOf(CreateOf(2, '1')), Hash('1'), 1, CREATED_LATER) }

  function Queue1(): Queue { Put(NO_TASKS, FIRST, Cell1()) }

  function LeasedCell(): Cell {
    Cell(
      Cell1().task.(state := TaskState.Leased, rowVersion := 2, attempts := 1, owner := Some("worker"), generation := 1, expires := Some(LEASE)),
      [Execution(1, 1, XLeased, false, false, None, None, None, None, None, None, None, 0)],
      Append(Cell1().events, ELeaseAcquired, Preparing, Some("lease_acquired"), 1, None),
      Some(LEASE))
  }

  function Queue2(): Queue { Put(Queue1(), FIRST, LeasedCell()) }

  function Queue3(): Queue { Put(Queue2(), SECOND, Cell2()) }

  lemma FirstCreate()
    ensures CreateTask(TwoPacks(FACTS), NO_TASKS, CreateOf(1, '0'), 0) == Ok((Once(), Queue1(), TaskReply(FIRST, Some(Cell1().task), false)))
  {
    hide IsSha256, Append, Hash;
    HashIsSha('0');
  }

  lemma FirstClaim()
    ensures IsChoice(Queue1(), Some(FIRST), 0)
    ensures ClaimTask(Queue1(), "worker", Some(FIRST), 0) == Ok((Queue2(), Some(Lease(FIRST, 1))))
  {
    hide IsSha256, Append, Hash, IsWorker;
    ProperName();
    assert CellOf(Queue1(), FIRST) == Cell1();
    FirstLease();
  }

  lemma FirstLease()
    ensures ClaimCell(Cell1(), "worker", 0) == Ok((LeasedCell(), true))
  {
    hide IsSha256, Append, Hash;
    var lease := LeaseCell(Cell1(), "worker", false, 0);
    assert lease.value.executions == LeasedCell().executions;
    assert lease.value.task == LeasedCell().task && lease.value.events == LeasedCell().events;
  }

  lemma SecondCreate()
    ensures CreateTask(Once(), Queue2(), CreateOf(2, '1'), CREATED_LATER) == Ok((Twice(), Queue3(), TaskReply(SECOND, Some(Cell2().task), false)))
  {
    hide IsSha256, Append, Hash, Queue2, LeasedCell, Once, TwoPacks, Insert;
    HashIsSha('1');
    TasksSoFar();
    OnceFacts();
  }

  lemma OnceFacts()
    ensures var s := Once();
            && CaseAt(s, CASE, 1, InPlanning) && RevisionKey(CASE, 1) in s.revisions && PackOf(2) in s.packs
            && Participant(CASE, 1, Advisor) in s.participants && CreateKey(CreateOf(2, '1')) !in s.records
    ensures PackOf(1) != PackOf(2)
  {
    hide Hash;
    HashesDiffer();
  }

  lemma TasksSoFar()
    ensures SECOND !in Queue2().tasks
    ensures forall k :: k in Queue2().tasks ==> Queue2().tasks[k].pins == PinsOf(CreateOf(1, '0'))
  {
    hide Append, Hash;
  }

  lemma ReachTask(rules: Rules)
    ensures Reachable(At(Once(), Queue1(), 0), rules)
  {
    hide *;
    ReachPack(FACTS, false, rules);
    PackOps(FACTS, false);
    NextStore(OnePack(FACTS, false), StorePack(PackOf(2), Hash('0'), []), TwoPacks(FACTS), rules);
    FirstCreate();
    NextCreate(TwoPacks(FACTS), NO_TASKS, 0, 0, CreateOf(1, '0'), Once(), Queue1(), TaskReply(FIRST, Some(Cell1().task), false), rules);
  }

  lemma ReachLease(rules: Rules)
    ensures Reachable(At(Once(), Queue2(), 0), rules)
  {
    hide *;
    ReachTask(rules);
    FirstClaim();
    NextClaim(Once(), Queue1(), 0, "worker", FIRST, Queue2(), Some(Lease(FIRST, 1)), rules);
  }

  lemma NextCreate(s: Store, q: Queue, now: int, wait: nat, a: CreateArgs, t: Store, p: Queue, reply: TaskReply, rules: Rules)
    requires Reachable(At(s, q, now), rules) && CreateTask(s, q, a, now + wait) == Ok((t, p, reply))
    ensures Reachable(At(t, p, now + wait), rules)
  {
    hide Reachable, PublishRevision, TransitionCase, AddParticipants, PersistPack, PersistEvidence, PersistResult, ReviewRun, DecideBrief, CreateTask, CancelTask,
         ClaimTask, StartTask, HeartbeatTask, FailTask, FinalizeTask, ImportCandidate, VerifyCandidate;
    Next(At(s, q, now), wait, CreateCall(a), At(t, p, now + wait), TaskReplied(reply), rules);
  }

  lemma NextClaim(s: Store, q: Queue, now: int, worker: string, head: Key, p: Queue, lease: Option<Lease>, rules: Rules)
    requires Reachable(At(s, q, now), rules) && IsChoice(q, Some(head), now) && ClaimTask(q, worker, Some(head), now) == Ok((p, lease))
    ensures Reachable(At(s, p, now), rules)
  {
    hide Reachable, PublishRevision, TransitionCase, AddParticipants, PersistPack, PersistEvidence, PersistResult, ReviewRun, DecideBrief, CreateTask, CancelTask,
         ClaimTask, StartTask, HeartbeatTask, FailTask, FinalizeTask, ImportCandidate, VerifyCandidate, IsChoice;
    Next(At(s, q, now), 0, ClaimCall(worker, Some(head)), At(s, p, now), Granted(lease), rules);
  }

  // ------------------------------------------------------------------ a start that names no generation

  lemma NullStart()
    ensures var r := StartTask(Queue2(), FIRST, "worker", None, None, 0); r.Ok? && FIRST in r.value.tasks && !TablesAgree(r.value, FIRST)
    ensures TablesAgree(Queue2(), FIRST)
  {
    hide Append, Hash;
    assert CellOf(Queue2(), FIRST) == LeasedCell();
    assert StartRows(LeasedCell().executions, None, None, 0) == LeasedCell().executions;
  }

  // The call succeeds and leaves the tables of a task apart that agreed before.
  ghost predicate TearsApart(w: World, m: Moment, k: Key, rules: Rules) {
    Happens(w, m, rules) && m.outcome.Ok? && TablesAgree(w.queue, k) && k in m.after.queue.tasks && !TablesAgree(m.after.queue, k)
  }

  // Without a generation, the holder's start moves the task and leaves its execution behind: in
  // some reachable state, tables that agree come apart.
  lemma NullGenerationTearsTables(rules: Rules)
    ensures exists w, m: Moment, k :: Reachable(w, rules) && !NamesGeneration(m.call) && TearsApart(w, m, k, rules)
  {
    hide *;
    ReachLease(rules);
    NullStart();
    var w := At(Once(), Queue2(), 0);
    AtTables(Once(), Queue2(), 0);
    var m := StartMoment(w, FIRST, "worker", StartTask(Queue2(), FIRST, "worker", None, None, 0).value, rules);
    NamedIs(m.call);
    TornIs(w, m, rules);
    assert Reachable(w, rules) && !NamesGeneration(m.call) && TearsApart(w, m, FIRST, rules);
  }

  lemma StartMoment(w: World, k: Key, worker: string, q: Queue, rules: Rules) returns (m: Moment)
    requires StartTask(w.queue, k, worker, None, None, w.now) == Ok(q)
    ensures Happens(w, m, rules) && m.call == StartCall(k, worker, None, None) && m.outcome == Ok(Done) && m.after.queue == q
  {
    hide *;
    var v, call := Tick(w, 0), StartCall(k, worker, None, None);
    TickTables(w, 0);
    IsFree(v, call);
    CallIs(v, call, rules);
    OnQueueIs(v, q);
    m := Moves(w, 0, call, v.(queue := q), Done, rules);
  }

  lemma TornIs(w: World, m: Moment, rules: Rules)
    requires Happens(w, m, rules) && m.outcome.Ok? && TablesAgree(w.queue, FIRST) && !TablesAgree(m.after.queue, FIRST) && FIRST in m.after.queue.tasks
    ensures TearsApart(w, m, FIRST, rules)
  {
    hide Happens, TablesAgree;
  }

  lemma AtTables(s: Store, q: Queue, now: int)
    ensures At(s, q, now).store == s && At(s, q, now).queue == q && At(s, q, now).now == now
  {
  }

  // ------------------------------------------------------------------ a cancel that expects no version

  function BlindCancel(): CancelArgs { CancelArgs(1, 1, 1, None, Hash('0'), Hash('0')) }

  // The call cancels a task without saying which version of it the caller has seen.
  predicate CancelsUnseen(w: World, m: Moment) {
    && m.call.CancelCall? && m.call.cancel.expected.None? && m.outcome.Ok?
    && var k := Key(m.call.cancel.org, m.call.cancel.task);
       && k in w.queue.tasks && w.queue.tasks[k].state != Cancelled
       && k in m.after.queue.tasks && m.after.queue.tasks[k].state == Cancelled
  }

  lemma BlindCancelSucceeds()
    ensures var r := CancelTask(Once(), Queue1(), BlindCancel(), 0);
            r.Ok? && FIRST in Queue1().tasks && Queue1().tasks[FIRST].state == Queued
            && FIRST in r.value.1.tasks && r.value.1.tasks[FIRST].state == Cancelled
  {
    hide IsSha256, Append, Hash;
    HashIsSha('0');
    assert CellOf(Queue1(), FIRST) == Cell1();
  }

  // Some reachable task is cancelled by a call without an expected version.
  lemma NullVersionCancels(rules: Rules)
    ensures exists w, m :: Reachable(w, rules) && Happens(w, m, rules) && CancelsUnseen(w, m)
  {
    hide *;
    ReachTask(rules);
    BlindCancelSucceeds();
    var w := At(Once(), Queue1(), 0);
    AtTables(Once(), Queue1(), 0);
    var (s, q, reply) := CancelTask(Once(), Queue1(), BlindCancel(), 0).value;
    var m := CancelMoment(w, BlindCancel(), s, q, reply, rules);
    BlindCancelIs(w, m);
    assert Reachable(w, rules) && Happens(w, m, rules) && CancelsUnseen(w, m);
  }

  lemma CancelMoment(w: World, a: CancelArgs, s: Store, q: Queue, reply: TaskReply, rules: Rules) returns (m: Moment)
    requires CancelTask(w.store, w.queue, a, w.now) == Ok((s, q, reply))
    ensures Happens(w, m, rules) && m.call == CancelCall(a) && m.outcome == Ok(TaskReplied(reply)) && m.after.queue == q
  {
    hide *;
    var v, call := Tick(w, 0), CancelCall(a);
    TickTables(w, 0);
    IsFree(v, call);
    CallIs(v, call, rules);
    OnTaskIs(v, s, q, reply);
    m := Moves(w, 0, call, v.(store := s, queue := q), TaskReplied(reply), rules);
  }

  lemma BlindCancelIs(w: World, m: Moment)
    requires m.call == CancelCall(BlindCancel()) && m.outcome.Ok?
    requires FIRST in w.queue.tasks && w.queue.tasks[FIRST].state == Queued
    requires FIRST in m.after.queue.tasks && m.after.queue.tasks[FIRST].state == Cancelled
    ensures CancelsUnseen(w, m)
  {
    hide Hash;
  }

  // ------------------------------------------------------------------ waiting for ever

  lemma LateClaim()
    ensures IsChoice(Queue3(), Some(FIRST), MUCH_LATER)
  {
    hide Append, Hash, IsSha256;
    assert CellOf(Queue3(), FIRST) == LeasedCell();
  }

  // The second task waits behind the first one, whose execution is by then too old.
  lemma SecondWaits()
    ensures Waits(Queue3(), SECOND, MUCH_LATER) && Ahead(Queue3(), SECOND) == {FIRST}
    ensures Blocks(Queue3(), FIRST, MUCH_LATER) && Behind(Queue3(), FIRST, SECOND)
  {
    hide Append, Hash;
    assert CellOf(Queue3(), FIRST) == LeasedCell();
  }

  // The failed claim lets the time pass.
  lemma ReachWaiting(rules: Rules) returns (w: World)
    ensures Reachable(w, rules) && w.queue == Queue3() && w.now == MUCH_LATER
  {
    hide *;
    ReachLease(rules);
    SecondCreate();
    NextCreate(Once(), Queue2(), 0, CREATED_LATER, CreateOf(2, '1'), Twice(), Queue3(), TaskReply(SECOND, Some(Cell2().task), false), rules);
    var v := At(Twice(), Queue3(), 0 + CREATED_LATER);
    AtTables(Twice(), Queue3(), 0 + CREATED_LATER);
    TickTables(v, LONG);
    LateClaim();
    LastIsLater();
    LateChosen(v);
    var m := CanHappen(v, LONG, ClaimCall("worker", Some(FIRST)), rules);
    MomentReaches(v, m, rules);
    ReachableInv(v, rules);
    ProperName();
    SecondWaits();
    ClaimMoment(v, m, "worker", Some(FIRST), rules);
    BlockedTask(Queue3(), FIRST, MUCH_LATER);
    assert Some(FIRST) == Some(FIRST) && Overdue(v.queue, FIRST, v.now + m.wait);
    w := m.after;
  }

  lemma LastIsLater()
    ensures 0 + CREATED_LATER + LONG == MUCH_LATER
  {
  }

  lemma LateChosen(v: World)
    requires v.now + LONG == MUCH_LATER && IsChoice(v.queue, Some(FIRST), MUCH_LATER)
    ensures Chosen(Tick(v, LONG), ClaimCall("worker", Some(FIRST)))
  {
    hide IsChoice;
  }

  // A reachable state in which a task waits with one row ahead of it, strictly, and will never be
  // leased: the row ahead is an overdue lease.
  lemma WaitingCanBeForever(rules: Rules)
    ensures exists w, k, head ::
              Reachable(w, rules) && Waits(w.queue, k, w.now) && Ahead(w.queue, k) == {head} && Blocks(w.queue, head, w.now) && Behind(w.queue, head, k)
  {
    hide *;
    var w := ReachWaiting(rules);
    SecondWaits();
    assert Reachable(w, rules) && Waits(w.queue, SECOND, w.now) && Ahead(w.queue, SECOND) == {FIRST} && Blocks(w.queue, FIRST, w.now) && Behind(w.queue, FIRST, SECOND);
  }

  // ------------------------------------------------------------------ a candidate that nothing cites

  const UNCITED := Item("e", Some("https://a.edu"), "https://a.edu", "2026-01-01T00:00:00Z", None, None)

  function ImportOf(): ImportArgs {
    ImportArgs(1, 1, 1, 1, 1, CONTRACT, Hash('0'), "r", 1, Hash('0'), [Some(UNCITED)], Hash('0'), Hash('0'))
  }

  // The import succeeds with an item that has a null status.
  ghost predicate ImportsUncited(w: World, a: ImportArgs, rules: Rules) {
    ImportCandidate(w.store, w.ledger, a, rules).Ok? && exists i :: 0 <= i < |a.evidence| && NullStatus(a.evidence[i])
  }

  lemma UncitedAccepted(w: World, rules: Rules)
    requires w.store == WithAdvisor(FACTS) && w.ledger == NO_CANDIDATES
    requires rules.isTimestamp("2026-01-01T00:00:00Z") && rules.isPublicSource("https://a.edu")
    ensures ImportsUncited(w, ImportOf(), rules)
  {
    hide IsSha256, Hash, CONTRACT;
    HashIsSha('0');
    var items := ImportOf().evidence;
    assert Values(items) == [UNCITED];
    assert OnlySource(Values(items), 0);
    assert NullStatus(items[0]);
  }

  // With any tests for times and sources that know these two texts, some run imports a candidate
  // whose only item is neither cited nor verified.
  lemma UncitedCandidate(rules: Rules)
    requires rules.isTimestamp("2026-01-01T00:00:00Z") && rules.isPublicSource("https://a.edu")
    ensures exists w, a :: Reachable(w, rules) && ImportsUncited(w, a, rules)
  {
    hide *;
    ReachPlanning(FACTS, rules);
    var w := At(WithAdvisor(FACTS), NO_TASKS, 0);
    AtLedger(WithAdvisor(FACTS));
    UncitedAccepted(w, rules);
    assert Reachable(w, rules) && ImportsUncited(w, ImportOf(), rules);
  }

  lemma AtLedger(s: Store)
    ensures At(s, NO_TASKS, 0).store == s && At(s, NO_TASKS, 0).ledger == NO_CANDIDATES
  {
  }

  // ------------------------------------------------------------------ a promotion without a decision

  const MANIFEST_HEAD := "84350ea5705d9681d3e6550e1bd06e33"

  lemma HeadIsHex(i: nat)
    requires i < 32
    ensures '0' <= MANIFEST_HEAD[i] <= '9' || 'a' <= MANIFEST_HEAD[i] <= 'f'
  {
  }

  lemma SameHead(i: nat)
    requires i < 32
    ensures BASE_MANIFEST[i] == MANIFEST_HEAD[i]
  {
  }

  lemma ManifestIsSha()
    ensures IsSha256(BASE_MANIFEST)
  {
    forall i | 0 <= i < 64
      ensures '0' <= BASE_MANIFEST[i] <= '9' || 'a' <= BASE_MANIFEST[i] <= 'f'
    {
      if i < 32 {
        HeadIsHex(i);
        SameHead(i);
      }
    }
  }

  // The baseline is stored without evidence, and a candidate is imported.
  function BaseStore(): Store {
    WithAdvisor(FACTS).(packs := map[Base(1) := Pack(BASE_MANIFEST)])
  }

  const CANDIDATE := Key(1, 1)

  function ImportedStore(): Store {
    BaseStore().(records := Insert(map[], ImportKey(ImportOf()), Hash('0'), CANDIDATE))
  }

  function ImportedLedger(): Ledger {
    Ledger(map[CANDIDATE := Candidate(CASE, 1, [UNCITED], Hash('0'), 1)], map[])
  }

  lemma BaseStored()
    ensures PersistPack(WithAdvisor(FACTS), Base(1), BASE_MANIFEST, []) == Ok(BaseStore())
  {
    hide IsSha256;
    ManifestIsSha();
    assert map[][Base(1) := Pack(BASE_MANIFEST)] == BaseStore().packs;
  }

  lemma CandidateImported(rules: Rules)
    requires rules.isTimestamp("2026-01-01T00:00:00Z") && rules.isPublicSource("https://a.edu")
    ensures ImportCandidate(BaseStore(), NO_CANDIDATES, ImportOf(), rules) == Ok((ImportedStore(), ImportedLedger(), Reply(CANDIDATE, false)))
  {
    hide IsSha256, Hash, CONTRACT, BASE_MANIFEST;
    HashIsSha('0');
    var items := ImportOf().evidence;
    assert Values(items) == [UNCITED];
    assert OnlySource(Values(items), 0);
    assert map[][CANDIDATE := Candidate(CASE, 1, [UNCITED], Hash('0'), 1)] == ImportedLedger().candidates;
  }

  lemma ReachImported(rules: Rules) returns (w: World)
    requires rules.isTimestamp("2026-01-01T00:00:00Z") && rules.isPublicSource("https://a.edu")
    ensures Reachable(w, rules) && w.store == ImportedStore() && w.ledger == ImportedLedger()
  {
    hide *;
    ReachPlanning(FACTS, rules);
    BaseStored();
    NextStore(WithAdvisor(FACTS), StorePack(Base(1), BASE_MANIFEST, []), BaseStore(), rules);
    CandidateImported(rules);
    var v := At(BaseStore(), NO_TASKS, 0);
    AtLedger(BaseStore());
    w := NextImport(v, ImportOf(), ImportedStore(), ImportedLedger(), Reply(CANDIDATE, false), rules);
  }

  lemma NextImport(v: World, a: ImportArgs, s: Store, l: Ledger, reply: Reply, rules: Rules) returns (w: World)
    requires Reachable(v, rules) && ImportCandidate(v.store, v.ledger, a, rules) == Ok((s, l, reply))
    ensures Reachable(w, rules) && w.store == s && w.ledger == l
  {
    hide *;
    var u, call := Tick(v, 0), ImportCall(a);
    TickTables(v, 0);
    IsFree(u, call);
    CallIs(u, call, rules);
    OnImportIs(u, s, l, reply);
    w := u.(store := s, ledger := l);
    Next(v, 0, call, w, Replied(reply), rules);
  }

  const FIVE_COPIES := [
    CopyItem("australia_tuition", Some(1)), CopyItem("australia_living_cost", Some(2)), CopyItem("australia_fx", Some(3)),
    CopyItem("japan_program_fit", Some(4)), CopyItem("australia_ranking", Some(5))]

  function Attested(): Attestation {
    Attestation(Some("https://a.edu"), "p", "i", 7, 1, "link_only", "institutional", "a", 1, Hash('0'),
                ["applicant_eligibility", "intake_availability"], Some(9), Some(9), FIVE_COPIES)
  }

  function Undecided(): VerifyArgs {
    VerifyArgs(1, 1, 1, 1, 1, "e", NullVerdict(Attested()), "r", BASE_PACK, BASE_VERSION, BASE_MANIFEST, BASE_RAW_MANIFEST, 1, Hash('0'), Hash('0'))
  }

  lemma NothingToCopy(from: PackKey, to: PackKey, copied: seq<CopyItem>)
    ensures Copies(map[], from, to, copied) == map[]
  {
    hide Copies;
    CopiesOnly(map[], from, to, copied);
  }

  lemma UndecidedPasses()
    ensures VerifyRefusal(ImportedStore(), ImportedLedger(), Undecided()) == None
  {
    hide IsSha256, Hash, BASE_MANIFEST, BASE_RAW_MANIFEST, Attested;
    HashIsSha('0');
    assert !IsBlank("r") by { assert "r"[0] != ' '; }
    assert Selected([UNCITED], "e") == Some(UNCITED);
  }

  lemma UndecidedStands(rules: Rules)
    ensures VerdictStands(ImportedStore(), ImportedLedger(), Undecided(), rules, 2)
  {
    hide IsSha256, Hash, BASE_MANIFEST, BASE_RAW_MANIFEST, Copies, FIVE_COPIES, CopiedOk, AttestationOk;
    NothingToCopy(Base(1), PackKey(1, BASE_PACK, 2), FIVE_COPIES);
    FiveCopiesOk();
    AttestedOk(rules);
    assert Selected([UNCITED], "e") == Some(UNCITED);
  }

  lemma AttestedOk(rules: Rules)
    ensures AttestationOk(Attested(), UNCITED, rules)
  {
    hide IsSha256, Hash, FIVE_COPIES;
    HashIsSha('0');
    assert !IsBlank("p") by { assert "p"[0] != ' '; }
    assert !IsBlank("i") by { assert "i"[0] != ' '; }
    assert !IsBlank("a") by { assert "a"[0] != ' '; }
    var t := Attested();
    assert t.gaps[0] == "applicant_eligibility" && t.gaps[1] == "intake_availability";
  }

  lemma FiveCopiesOk()
    ensures CopiedOk(FIVE_COPIES)
  {
  }

  lemma UndecidedIsNew()
    ensures VerifyKey(Undecided()) !in ImportedStore().records && KeyOf(VerifyCall(Undecided(), 2)) == Some(VerifyKey(Undecided()))
    ensures Undecided().org == 1 && AttestationOf(Undecided().verdict) == Some(Attested()) && Attested().evidence == Some(9)
  {
    hide Hash, BASE_MANIFEST, FIVE_COPIES;
  }

  lemma UndecidedIsUnrecorded(w: World, m: Moment)
    requires w.store == ImportedStore() && m.call == VerifyCall(Undecided(), 2)
    ensures Unrecorded(w, m.call)
  {
    hide Undecided, ImportedStore;
    UndecidedIsNew();
  }

  lemma SecondIsNext()
    ensures NextPackVersion(ImportedStore().packs, 1, BASE_PACK, 2)
  {
    hide Hash, BASE_MANIFEST;
    var packs := ImportedStore().packs;
    assert packs == map[Base(1) := Pack(BASE_MANIFEST)];
    assert Base(1) in packs;
  }

  // The call promotes without a decision, and the new version of the pack lacks a claim that the
  // call lists for copying.
  ghost predicate PromotesWithout(w: World, m: Moment, claim: string) {
    && m.call.VerifyCall? && m.call.verify.verdict.NullVerdict? && Unrecorded(w, m.call) && m.outcome.Ok?
    && (exists i :: 0 <= i < |m.call.verify.verdict.attestation.copied| && m.call.verify.verdict.attestation.copied[i].claim == claim)
    && var to := PackKey(m.call.verify.org, BASE_PACK, m.call.next);
       to !in w.store.packs && to in m.after.store.packs && !ClaimTaken(m.after.store.evidence, to, claim)
  }

  lemma VersionLacks(w: World, m: Moment)
    requires NewVersion(w.store, m.after.store, 1, 2, 9) && w.store == ImportedStore()
    requires m.call == VerifyCall(Undecided(), 2) && Unrecorded(w, m.call) && m.outcome.Ok?
    ensures PromotesWithout(w, m, "australia_tuition")
  {
    hide Hash, BASE_MANIFEST, Provenance, SameSource, Unrecorded;
    var to := PackKey(1, BASE_PACK, 2);
    assert !ClaimTaken(w.store.evidence, Base(1), "australia_tuition");
    assert FIVE_COPIES[0].claim == "australia_tuition";
  }

  // With the same tests, some run imports a candidate, promotes it without a decision, and gets a
  // new version of the pack without the tuition claim: its baseline had none.
  lemma NullDecisionPromotes(rules: Rules)
    requires rules.isTimestamp("2026-01-01T00:00:00Z") && rules.isPublicSource("https://a.edu")
    ensures exists w, m, claim :: Reachable(w, rules) && Happens(w, m, rules) && PromotesWithout(w, m, claim)
  {
    hide *;
    var w := ReachImported(rules);
    ReachableInv(w, rules);
    WorldCells(w, rules);
    InvParts(w.store);
    UndecidedVerifies(w, rules);
    UndecidedIsNew();
    var a := Undecided();
    var m := VerifyMoment(w, a, 2, rules);
    UndecidedIsUnrecorded(w, m);
    assert [m] + [] == [m];
    HappensRun(w, m, rules);
    PromotionStands(w, m, a, 2, Attested(), 9, [], rules);
    VersionLacks(w, m);
    assert Reachable(w, rules) && Happens(w, m, rules) && PromotesWithout(w, m, "australia_tuition");
  }

  lemma HappensRun(w: World, m: Moment, rules: Rules)
    requires Happens(w, m, rules)
    ensures IsRun(w, [m], rules)
  {
    hide IsRun;
  }

  // The verification succeeds with a version that the selection returns.
  ghost predicate Verifies(w: World, a: VerifyArgs, version: int, rules: Rules) {
    NextPackVersion(w.store.packs, a.org, BASE_PACK, version) && VerifyCandidate(w.store, w.ledger, a, rules, version).Ok?
  }

  lemma VerifyMoment(w: World, a: VerifyArgs, version: int, rules: Rules) returns (m: Moment)
    requires Verifies(w, a, version, rules)
    ensures Happens(w, m, rules) && m.call == VerifyCall(a, version) && m.outcome.Ok?
  {
    hide *;
    var v, call := Tick(w, 0), VerifyCall(a, version);
    TickTables(w, 0);
    var s, l, reply := Verifying(w, a, version, rules);
    VersionChosen(v, a, version);
    CallIs(v, call, rules);
    OnVerifyIs(v, s, l, reply);
    m := Moves(w, 0, call, v.(store := s, ledger := l), Verified(reply), rules);
  }

  lemma Verifying(w: World, a: VerifyArgs, version: int, rules: Rules) returns (s: Store, l: Ledger, reply: VerifyReply)
    requires Verifies(w, a, version, rules)
    ensures NextPackVersion(w.store.packs, a.org, BASE_PACK, version) && VerifyCandidate(w.store, w.ledger, a, rules, version) == Ok((s, l, reply))
  {
    hide NextPackVersion, VerifyCandidate;
    var r := VerifyCandidate(w.store, w.ledger, a, rules, version).value;
    s, l, reply := r.0, r.1, r.2;
  }

  lemma UndecidedVerifies(w: World, rules: Rules)
    requires EvidenceOk(w.store) && w.store == ImportedStore() && w.ledger == ImportedLedger()
    ensures Verifies(w, Undecided(), 2, rules)
  {
    hide *;
    UndecidedPasses();
    UndecidedStands(rules);
    UndecidedIsNew();
    SecondIsNext();
    VerifyExactly(w.store, w.ledger, Undecided(), rules, 2);
    VerifiesIs(w, Undecided(), 2, rules);
  }

  lemma VerifiesIs(w: World, a: VerifyArgs, version: int, rules: Rules)
    requires NextPackVersion(w.store.packs, a.org, BASE_PACK, version) && VerifyCandidate(w.store, w.ledger, a, rules, version).Ok?
    ensures Verifies(w, a, version, rules)
  {
    hide NextPackVersion, VerifyCandidate;
  }

  lemma VersionChosen(w: World, a: VerifyArgs, version: int)
    requires NextPackVersion(w.store.packs, a.org, BASE_PACK, version)
    ensures Chosen(w, VerifyCall(a, version))
  {
    hide NextPackVersion;
  }
}
