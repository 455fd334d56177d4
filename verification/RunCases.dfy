// Cases over whole runs: those that nobody can move any more, exactly when a review or a decision
// is possible, and what an accepted budget rests on.
module RunCases {
  import opened Sql
  import opened PlanningOutput
  import opened Idempotency
  import opened Planning
  import opened PlanningInvariants
  import opened PlanningHandoff
  import opened PlanningDecision
  import opened PlanningTheorems
  import opened TaskQueue
  import opened TaskInvariants
  import opened Promotion
  import opened LedgerInvariants
  import opened Runs
  import opened RunSteps
  import opened RunHistory

  predicate InState(s: Store, c: Key, state: CaseState) {
    c in s.cases && s.cases[c].state == state
  }

  // A review of the case by the actor, not yet on record.
  predicate Reviews(w: World, m: Moment, c: Key, actor: nat) {
    m.call.ReviewCall? && Key(m.call.review.org, m.call.review.caseId) == c && m.call.review.actor == actor && Unrecorded(w, m.call)
  }

  // ------------------------------------------------------------------ stuck cases

  lemma ReviewMoment(w: World, m: Moment, a: ReviewArgs, date: Option<int>, version: nat, rules: Rules)
    requires Happens(w, m, rules) && m.call == ReviewCall(a, date, version) && Unrecorded(w, m.call) && m.outcome.Ok?
    ensures ReviewAllowed(w.store, a, date) && Grounded(w.store, a)
  {
    hide *;
    var v := Tick(w, m.wait);
    TickTables(w, m.wait);
    MomentCall(w, m, rules);
    MomentOk(w, m, m.outcome.value, rules);
    CallIs(v, m.call, rules);
    OnRecordedOk(v, ReviewRun(v.store, a, date, version), m.after, m.outcome.value);
    KeyIs(w, m.call);
    ChosenReview(v, a, date, version);
    ReviewExactly(w.store, a, date, version);
    ReviewIsGrounded(w.store, a, date);
  }

  // Every new review of a stuck case is refused, whoever makes it, approvals and rejections alike.
  lemma StuckRefusesReviews(w: World, m: Moment, c: Key, actor: nat, rules: Rules)
    requires Reachable(w, rules) && Happens(w, m, rules) && Stuck(w.store, c) && Reviews(w, m, c, actor)
    ensures m.outcome.Err? && m.after == Tick(w, m.wait)
  {
    hide *;
    ReachableInv(w, rules);
    WorldCells(w, rules);
    InvCases(w.store);
    ReviewsParts(w, m, c, actor);
    if m.outcome.Ok? {
      ReviewMoment(w, m, m.call.review, m.call.date, m.call.version, rules);
      GroundedIsNotStuck(w.store, m.call.review);
    } else {
      MomentErr(w, m, m.outcome.error, rules);
    }
  }

  lemma ReviewsParts(w: World, m: Moment, c: Key, actor: nat)
    requires Reviews(w, m, c, actor)
    ensures m.call.ReviewCall? && Key(m.call.review.org, m.call.review.caseId) == c && m.call.review.actor == actor && Unrecorded(w, m.call)
    ensures m.call == ReviewCall(m.call.review, m.call.date, m.call.version)
  {
    hide Unrecorded;
  }

  lemma IsReview(w: World, m: Moment, c: Key, actor: nat, a: ReviewArgs, date: Option<int>, version: nat)
    requires m.call == ReviewCall(a, date, version) && Key(a.org, a.caseId) == c && a.actor == actor && ReviewKey(a) !in w.store.records
    ensures Reviews(w, m, c, actor) && Unrecorded(w, m.call)
  {
  }

  // The attempt that shows that a case is not stuck.
  lemma SendBackMoment(w: World, c: Key, actor: nat, review: nat, key: string, request: string, rules: Rules) returns (m: Moment)
    requires WorldInv(w, rules) && CanTry(w.store, c, actor, review, key, request) && !Stuck(w.store, c)
    ensures Happens(w, m, rules) && Reviews(w, m, c, actor) && m.outcome.Ok?
  {
    hide *;
    WorldCells(w, rules);
    var a, date := SendBackSucceeds(w.store, c, actor, review, key, request);
    var call := ReviewCall(a, Some(date), 1);
    TickTables(w, 0);
    ReviewChosen(w, a, date);
    m := CanHappen(w, 0, call, rules);
    FreshKey(w.store, c, actor, review, key, request, a);
    IsReview(w, m, c, actor, a, Some(date), 1);
    CallIs(Tick(w, 0), call, rules);
    OnRecordedErr(Tick(w, 0), ReviewRun(w.store, a, Some(date), 1));
    if m.outcome.Err? {
      MomentErr(w, m, m.outcome.error, rules);
    }
  }

  lemma OnRecordedErr(w: World, r: Result<(Store, Reply)>)
    ensures OnRecorded(w, r).Err? <==> r.Err?
  {
  }

  lemma ReviewChosen(w: World, a: ReviewArgs, date: int)
    requires NextReviewVersion(w.store.reviews, Key(a.org, a.run), 1)
    requires Key(a.org, a.run) in w.store.runs ==> IsSourceDate(w.store.entries, w.store.runs[Key(a.org, a.run)].pack, Some(date))
    ensures Chosen(Tick(w, 0), ReviewCall(a, Some(date), 1))
  {
    hide NextReviewVersion, IsSourceDate;
  }

  lemma FreshKey(s: Store, c: Key, actor: nat, review: nat, key: string, request: string, a: ReviewArgs)
    requires CanTry(s, c, actor, review, key, request) && Key(a.org, a.caseId) == c && a.actor == actor && a.key == key
    ensures ReviewKey(a) !in s.records
  {
  }

  // Exactly when a review is possible: an assigned advisor of a case under review, with an id and a
  // key of its own to spend, has some review that succeeds, if and only if the case is not stuck.
  lemma ReviewableExactly(w: World, c: Key, actor: nat, review: nat, key: string, request: string, rules: Rules)
    requires Reachable(w, rules) && CanTry(w.store, c, actor, review, key, request)
    ensures (exists m :: Happens(w, m, rules) && Reviews(w, m, c, actor) && m.outcome.Ok?) <==> !Stuck(w.store, c)
  {
    hide *;
    ReachableInv(w, rules);
    if Stuck(w.store, c) {
      forall m | Happens(w, m, rules) && Reviews(w, m, c, actor)
        ensures m.outcome.Err?
      {
        StuckRefusesReviews(w, m, c, actor, rules);
      }
    } else {
      var m := SendBackMoment(w, c, actor, review, key, request, rules);
      assert Happens(w, m, rules) && Reviews(w, m, c, actor) && m.outcome.Ok?;
    }
  }

  // ------------------------------------------------------------------ approvals

  predicate Approves(w: World, m: Moment, c: Key, actor: nat) {
    Reviews(w, m, c, actor) && m.call.review.action == Approve
  }

  lemma ApprovesParts(w: World, m: Moment, c: Key, actor: nat)
    requires Approves(w, m, c, actor)
    ensures Reviews(w, m, c, actor) && m.call.ReviewCall? && m.call.review.action == Approve
  {
    hide Unrecorded;
  }

  lemma IsApproval(w: World, m: Moment, c: Key, actor: nat, a: ReviewArgs, date: Option<int>, version: nat)
    requires m.call == ReviewCall(a, date, version) && Key(a.org, a.caseId) == c && a.actor == actor && ReviewKey(a) !in w.store.records && a.action == Approve
    ensures Approves(w, m, c, actor)
  {
  }

  lemma ApprovalMoment(w: World, c: Key, actor: nat, review: nat, brief: nat, key: string, request: string, rules: Rules) returns (m: Moment)
    requires WorldInv(w, rules) && CanTry(w.store, c, actor, review, key, request) && Key(c.org, brief) !in w.store.briefs && Approvable(w.store, c)
    ensures Happens(w, m, rules) && Approves(w, m, c, actor) && m.outcome.Ok?
  {
    hide *;
    WorldCells(w, rules);
    var a, date := ApprovalSucceeds(w.store, c, actor, review, brief, key, request);
    var call := ReviewCall(a, Some(date), 1);
    TickTables(w, 0);
    ReviewChosen(w, a, date);
    m := CanHappen(w, 0, call, rules);
    FreshKey(w.store, c, actor, review, key, request, a);
    IsApproval(w, m, c, actor, a, Some(date), 1);
    CallIs(Tick(w, 0), call, rules);
    OnRecordedErr(Tick(w, 0), ReviewRun(w.store, a, Some(date), 1));
    if m.outcome.Err? {
      MomentErr(w, m, m.outcome.error, rules);
    }
  }

  // Exactly when an approval is possible: an assigned advisor with unused ids and an unused key has
  // some approval that succeeds, if and only if the case is not stuck, and its run recommends an
  // Australian route and has an output hash.
  lemma ApprovableExactly(w: World, c: Key, actor: nat, review: nat, brief: nat, key: string, request: string, rules: Rules)
    requires Reachable(w, rules) && CanTry(w.store, c, actor, review, key, request) && Key(c.org, brief) !in w.store.briefs
    ensures (exists m :: Happens(w, m, rules) && Approves(w, m, c, actor) && m.outcome.Ok?) <==> Approvable(w.store, c)
  {
    hide *;
    ReachableInv(w, rules);
    if Approvable(w.store, c) {
      var m := ApprovalMoment(w, c, actor, review, brief, key, request, rules);
      assert Happens(w, m, rules) && Approves(w, m, c, actor) && m.outcome.Ok?;
    } else {
      WorldCells(w, rules);
      InvCases(w.store);
      forall m | Happens(w, m, rules) && Approves(w, m, c, actor)
        ensures m.outcome.Err?
      {
        if m.outcome.Ok? {
          ApprovesParts(w, m, c, actor);
          ReviewsParts(w, m, c, actor);
          ReviewMoment(w, m, m.call.review, m.call.date, m.call.version, rules);
          AcceptedIsApprovable(w.store, m.call.review, m.call.date);
        }
      }
    }
  }

  // ------------------------------------------------------------------ stuck for ever

  // What no step does to a stuck case: it leaves advisor review, or gets a new run.
  ghost predicate LeavesCase(s: Store, t: Store, c: Key) {
    && c in t.cases && t.cases[c].state == InAdvisorReview
    && forall r :: r in t.runs && r !in s.runs ==> t.runs[r].caseKey != c
  }

  lemma BesideLeaves(s: Store, t: Store, c: Key)
    requires Beside(s, t) && InState(s, c, InAdvisorReview)
    ensures LeavesCase(s, t, c)
  {
  }

  lemma PersistLeaves(s: Store, a: PersistArgs, t: Store, c: Key)
    requires Persisted(s, a, t) && InState(s, c, InAdvisorReview)
    ensures LeavesCase(s, t, c)
  {
    hide StoreOutput, ClaimsOf;
  }

  lemma ReviewLeaves(s: Store, a: ReviewArgs, t: Store, c: Key)
    requires ReviewStep(s, a, t) && InState(s, c, InAdvisorReview) && Key(a.org, a.caseId) != c
    ensures LeavesCase(s, t, c)
  {
  }

  lemma DecideLeaves(s: Store, a: DecideArgs, t: Store, c: Key)
    requires DecideStep(s, a, t) && InState(s, c, InAdvisorReview)
    ensures LeavesCase(s, t, c)
  {
  }

  lemma StuckIsUnderReview(s: Store, c: Key)
    requires Stuck(s, c)
    ensures InState(s, c, InAdvisorReview)
  {
    hide HasEntry, HasIntake, Stranded;
  }

  lemma StepLeavesCase(s: Store, t: Store, c: Key)
    requires StoreStep(s, t) && RunsOk(s) && Stuck(s, c)
    ensures LeavesCase(s, t, c)
  {
    hide LeavesCase, Stuck, RunsOk, Beside, OneRecord, Persisted, ReviewStep, DecideStep, Grounded, IsRipe;
    StuckIsUnderReview(s, c);
    if a :| Persisted(s, a, t) {
      PersistLeaves(s, a, t, c);
    } else if a :| ReviewStep(s, a, t) && Grounded(s, a) {
      GroundedIsNotStuck(s, a);
      ReviewLeaves(s, a, t, c);
    } else if a :| DecideStep(s, a, t) && IsRipe(s, a) {
      DecideLeaves(s, a, t, c);
    } else {
      BesideLeaves(s, t, c);
    }
  }

  // A run of the case that is under review later was under review before, unless a newer revision
  // was published, and then no run is.
  lemma StillUnderReview(s: Store, t: Store, c: Key, r: Key)
    requires StoreLater(s, t) && LeavesCase(s, t, c) && CasesOk(s) && RunsOk(s) && CasesOk(t) && c in s.cases
    requires IsUnderReview(t, c, r)
    ensures IsUnderReview(s, c, r) && s.cases[c].revision == t.cases[c].revision && r in s.runs && t.runs[r].pack == s.runs[r].pack
  {
    hide StoreLater, CasesOk, RunsOk;
    SameRun(s, t, r);
    RevisionsGrow(s, t, c);
    RunRevision(s, r);
    KnownRevision(s, c, s.runs[r].revision);
  }

  lemma SameRun(s: Store, t: Store, r: Key)
    requires StoreLater(s, t) && r in s.runs
    ensures r in t.runs && t.runs[r] == s.runs[r].(current := t.runs[r].current) && (t.runs[r].current ==> s.runs[r].current)
  {
  }

  lemma RunRevision(s: Store, r: Key)
    requires RunsOk(s) && r in s.runs
    ensures RevisionKey(s.runs[r].caseKey, s.runs[r].revision) in s.revisions
  {
  }

  lemma StillEmpty(s: Store, t: Store, pack: PackKey)
    requires StoreLater(s, t) && pack in s.packs && !HasEntry(s, pack)
    ensures !HasEntry(t, pack)
  {
    hide Extends;
  }

  lemma SameIntake(s: Store, t: Store, c: Key, revision: int)
    requires StoreLater(s, t) && RevisionKey(c, revision) in s.revisions
    ensures HasIntake(t, c, revision) == HasIntake(s, c, revision)
  {
  }

  lemma StaysStuck(s: Store, t: Store, c: Key)
    requires Stuck(s, c) && StoreLater(s, t) && LeavesCase(s, t, c) && CasesOk(s) && RunsOk(s) && CasesOk(t)
    ensures Stuck(t, c)
  {
    hide StoreLater, CasesOk, RunsOk, HasIntake, HasEntry, IsUnderReview;
    if !Stranded(t, c) {
      var r :| r in t.runs && IsUnderReview(t, c, r);
      StillUnderReview(s, t, c, r);
      CaseRevision(s, c);
      SameIntake(s, t, c, s.cases[c].revision);
      OnlyUnderReview(s, c, r);
      RunPack(s, r);
      if !HasEntry(s, s.runs[r].pack) {
        StillEmpty(s, t, s.runs[r].pack);
      }
    }
  }

  lemma CaseRevision(s: Store, c: Key)
    requires CasesOk(s) && c in s.cases
    ensures RevisionKey(c, s.cases[c].revision) in s.revisions
  {
  }

  lemma OnlyUnderReview(s: Store, c: Key, r: Key)
    requires RunsOk(s) && IsUnderReview(s, c, r)
    ensures forall q :: IsUnderReview(s, c, q) ==> q == r
  {
  }

  lemma MomentStaysStuck(w: World, m: Moment, c: Key, rules: Rules)
    requires WorldInv(w, rules) && Happens(w, m, rules) && Stuck(w.store, c)
    ensures Stuck(m.after.store, c)
  {
    hide *;
    MomentSteps(w, m, rules);
    StepsInv(w, m.after, rules);
    WorldCells(w, rules);
    WorldCells(m.after, rules);
    InvCases(w.store);
    InvCases(m.after.store);
    StepLeavesCase(w.store, m.after.store, c);
    StoreStepLater(w.store, m.after.store);
    StaysStuck(w.store, m.after.store, c);
  }

  // A stuck case stays stuck in every run: no call of anybody brings it back.
  lemma StuckForever(w: World, run: seq<Moment>, c: Key, rules: Rules)
    requires Reachable(w, rules) && IsRun(w, run, rules) && Stuck(w.store, c)
    ensures Stuck(Last(w, run).store, c)
  {
    hide *;
    ReachableInv(w, rules);
    StuckFrom(w, run, c, rules);
  }

  lemma {:induction false} StuckFrom(w: World, run: seq<Moment>, c: Key, rules: Rules)
    requires WorldInv(w, rules) && IsRun(w, run, rules) && Stuck(w.store, c)
    ensures Stuck(Last(w, run).store, c)
    decreases |run|
  {
    hide WorldInv, IsRun, Happens, Last, Stuck;
    if run == [] {
      LastOfNone(w);
    } else {
      var init, m := run[..|run| - 1], run[|run| - 1];
      assert run == init + [m];
      OneMore(w, init, m, rules);
      RunKeeps(w, init, rules);
      StuckFrom(w, init, c, rules);
      MomentStaysStuck(Last(w, init), m, c, rules);
    }
  }

  // ------------------------------------------------------------------ how a case gets stuck

  lemma PublishMoment(w: World, m: Moment, c: Key, expected: Option<int>, revision: int, facts: Revision, rules: Rules)
    requires Happens(w, m, rules) && m.call == Publish(c, expected, revision, facts) && m.outcome.Ok?
    ensures PublishRevision(w.store, c, expected, revision, facts) == Ok(m.after.store)
  {
    hide *;
    TickTables(w, m.wait);
    MomentOk(w, m, m.outcome.value, rules);
    CallIs(Tick(w, m.wait), m.call, rules);
    OnStoreOk(Tick(w, m.wait), PublishRevision(w.store, c, expected, revision, facts), m.after, m.outcome.value);
  }

  lemma PublishedRevision(s: Store, c: Key, expected: Option<int>, revision: int, facts: Revision, t: Store)
    requires CasesOk(s) && RunsOk(s) && c in s.cases && PublishRevision(s, c, expected, revision, facts) == Ok(t)
    ensures c in t.cases && t.cases[c] == Case(s.cases[c].state, s.cases[c].revision + 1) && t.runs == s.runs && t.briefs == s.briefs
    ensures forall r :: r in s.runs && s.runs[r].caseKey == c ==> s.runs[r].revision <= s.cases[c].revision
  {
  }

  // A new revision that is published while the advisor reviews strands the case.
  lemma PublishingStrands(w: World, m: Moment, c: Key, expected: Option<int>, revision: int, facts: Revision, rules: Rules)
    requires Reachable(w, rules) && Happens(w, m, rules) && m.call == Publish(c, expected, revision, facts) && m.outcome.Ok?
    requires InState(w.store, c, InAdvisorReview)
    ensures Stranded(m.after.store, c) && Stuck(m.after.store, c)
  {
    hide *;
    ReachableInv(w, rules);
    WorldCells(w, rules);
    InvCases(w.store);
    StateParts(w.store, c, InAdvisorReview);
    PublishMoment(w, m, c, expected, revision, facts, rules);
    PublishedRevision(w.store, c, expected, revision, facts, m.after.store);
    OldRunsOnly(m.after.store, c, w.store.cases[c].revision);
  }

  lemma StateParts(s: Store, c: Key, state: CaseState)
    requires InState(s, c, state)
    ensures c in s.cases && s.cases[c].state == state
  {
  }

  lemma OldRunsOnly(t: Store, c: Key, before: int)
    requires c in t.cases && t.cases[c] == Case(InAdvisorReview, before + 1)
    requires forall r :: r in t.runs && t.runs[r].caseKey == c ==> t.runs[r].revision <= before
    ensures Stranded(t, c) && Stuck(t, c)
  {
    hide HasEntry, HasIntake;
  }

  // The moment stores the result: on its own, or in a finalize under the task's pins.
  predicate Stores(w: World, m: Moment, a: PersistArgs) {
    match m.call
    case StoreResult(result) => a == result
    case FinalizeCall(f) => Key(f.org, f.task) in w.queue.tasks && a == ResultArgs(f, w.queue.tasks[Key(f.org, f.task)].pins)
    case _ => false
  }

  lemma StoresParts(w: World, m: Moment, a: PersistArgs)
    requires Stores(w, m, a)
    ensures m.call == StoreResult(a) || m.call.FinalizeCall?
    ensures m.call.FinalizeCall? ==> (var f := m.call.finalize; Key(f.org, f.task) in w.queue.tasks && a == ResultArgs(f, w.queue.tasks[Key(f.org, f.task)].pins))
  {
    hide ResultArgs;
  }

  lemma StoredResult(w: World, m: Moment, a: PersistArgs, rules: Rules)
    requires RunsOk(w.store) && Happens(w, m, rules) && Stores(w, m, a) && m.outcome.Ok?
    ensures Persisted(w.store, a, m.after.store)
  {
    hide *;
    var v := Tick(w, m.wait);
    TickTables(w, m.wait);
    StoresParts(w, m, a);
    MomentOk(w, m, m.outcome.value, rules);
    CallIs(v, m.call, rules);
    match m.call
    case StoreResult(result) =>
      OnStoreOk(v, PersistResult(w.store, a), m.after, m.outcome.value);
      PersistExactly(w.store, a);
    case FinalizeCall(f) =>
      OnFinalizeOk(v, FinalizeTask(v.store, v.queue, f, v.now), m.after, m.outcome.value);
      FinalizePersists(v.store, v.queue, f, v.now, m.after.store, m.after.queue);
  }

  // So does a result of another case that supersedes its run, stored alone or in a finalize:
  // nothing ties the superseded run to the case of the new one.
  lemma ForeignSupersessionStrands(w: World, m: Moment, a: PersistArgs, c: Key, rules: Rules)
    requires Reachable(w, rules) && Happens(w, m, rules) && Stores(w, m, a) && m.outcome.Ok?
    requires InState(w.store, c, InAdvisorReview) && SupersedesForeign(w.store, a, c)
    ensures Stranded(m.after.store, c) && Stuck(m.after.store, c)
  {
    hide *;
    ReachableInv(w, rules);
    WorldCells(w, rules);
    InvCases(w.store);
    StoredResult(w, m, a, rules);
    SupersededStrands(w.store, a, m.after.store, c);
  }

  // The result is of another case than the run that it supersedes.
  predicate SupersedesForeign(s: Store, a: PersistArgs, c: Key) {
    && a.supersedes.Some? && Key(a.org, a.supersedes.value) in s.runs
    && s.runs[Key(a.org, a.supersedes.value)].caseKey == c && c != CaseOf(a)
  }

  lemma SupersededStrands(s: Store, a: PersistArgs, t: Store, c: Key)
    requires RunsOk(s) && Persisted(s, a, t) && SupersedesForeign(s, a, c) && InState(s, c, InAdvisorReview)
    ensures Stranded(t, c) && Stuck(t, c)
  {
    hide StoreOutput, ClaimsOf, HasEntry, HasIntake;
    forall r | r in t.runs && t.runs[r].caseKey == c
      ensures !t.runs[r].current
    {
      assert r in s.runs;
    }
  }

  // ------------------------------------------------------------------ parked cases

  predicate Decides(w: World, m: Moment, c: Key) {
    && m.call.DecideCall? && Unrecorded(w, m.call)
    && var b := Key(m.call.decide.org, m.call.decide.brief);
       b in w.store.briefs && w.store.briefs[b].caseKey == c
  }

  // A new revision that is published while the family decides parks the case.
  lemma PublishingParks(w: World, m: Moment, c: Key, expected: Option<int>, revision: int, facts: Revision, rules: Rules)
    requires Reachable(w, rules) && Happens(w, m, rules) && m.call == Publish(c, expected, revision, facts) && m.outcome.Ok?
    requires InState(w.store, c, InFamilyReview)
    ensures Parked(m.after.store, c)
  {
    hide *;
    ReachableInv(w, rules);
    WorldCells(w, rules);
    InvParts(w.store);
    StateParts(w.store, c, InFamilyReview);
    PublishMoment(w, m, c, expected, revision, facts, rules);
    PublishedRevision(w.store, c, expected, revision, facts, m.after.store);
    OldBriefsOnly(w.store, m.after.store, c);
  }

  lemma OldBriefsOnly(s: Store, t: Store, c: Key)
    requires BriefsOk(s) && CasesOk(s) && c in s.cases && c in t.cases && t.briefs == s.briefs
    requires t.cases[c] == Case(InFamilyReview, s.cases[c].revision + 1)
    ensures Parked(t, c)
  {
    hide CanonicalProjection;
    forall b | b in s.briefs && s.briefs[b].caseKey == c
      ensures s.briefs[b].revision <= s.cases[c].revision
    {
      assert BriefAgrees(s, b);
    }
  }

  // Every new decision on a brief of a parked case is refused.
  lemma ParkedRefusesDecisions(w: World, m: Moment, c: Key, rules: Rules)
    requires Happens(w, m, rules) && Parked(w.store, c) && Decides(w, m, c)
    ensures m.outcome == Err(NV003) && m.after == Tick(w, m.wait)
  {
    hide *;
    var v := Tick(w, m.wait);
    TickTables(w, m.wait);
    DecidesParts(w, m, c);
    var a, pick := m.call.decide, m.call.pick;
    KeyIs(w, m.call);
    CallIs(v, m.call, rules);
    ParkedRefuses(w.store, c, a, pick);
    OnRecordedRefused(v, NV003);
    if m.outcome.Ok? {
      MomentOk(w, m, m.outcome.value, rules);
    } else {
      MomentErr(w, m, m.outcome.error, rules);
    }
  }

  lemma OnRecordedRefused(w: World, e: Error)
    ensures OnRecorded(w, Err(e)) == Err(e)
  {
  }

  lemma DecidesParts(w: World, m: Moment, c: Key)
    requires Decides(w, m, c)
    ensures m.call.DecideCall? && m.call == DecideCall(m.call.decide, m.call.pick) && Unrecorded(w, m.call)
    ensures Key(m.call.decide.org, m.call.decide.brief) in w.store.briefs
    ensures w.store.briefs[Key(m.call.decide.org, m.call.decide.brief)].caseKey == c
  {
    hide Unrecorded;
  }

  lemma RevisionsGrow(s: Store, t: Store, c: Key)
    requires StoreLater(s, t) && CasesOk(s) && CasesOk(t) && c in s.cases && c in t.cases
    ensures s.cases[c].revision <= t.cases[c].revision
  {
    assert RevisionKey(c, s.cases[c].revision) in s.revisions;
  }

  // The one brief of a case in family review, and its revision.
  lemma BriefOfCase(s: Store, c: Key) returns (b: Key)
    requires BriefsOk(s) && InState(s, c, InFamilyReview)
    ensures b in s.briefs && s.briefs[b].caseKey == c && s.briefs[b].current
    ensures forall d :: d in s.briefs && s.briefs[d].caseKey == c ==> d == b
    ensures RevisionKey(c, s.briefs[b].revision) in s.revisions
  {
    hide CanonicalProjection, Eligible, DistinctIds;
    assert Settled(s.cases[c].state);
    b :| b in s.briefs && s.briefs[b].caseKey == c;
    assert BriefAgrees(s, b);
  }

  lemma KnownRevision(s: Store, c: Key, revision: int)
    requires CasesOk(s) && RevisionKey(c, revision) in s.revisions && c in s.cases
    ensures revision <= s.cases[c].revision
  {
  }

  lemma SameBrief(s: Store, t: Store, b: Key)
    requires StoreLater(s, t) && b in s.briefs
    ensures b in t.briefs && t.briefs[b].revision == s.briefs[b].revision && t.briefs[b].caseKey == s.briefs[b].caseKey
  {
  }

  lemma OldBriefs(s: Store, t: Store, c: Key)
    requires StoreLater(s, t) && CasesOk(s) && BriefsOk(s) && BriefsOk(t) && Parked(s, c)
    requires InState(t, c, InFamilyReview) && s.cases[c].revision <= t.cases[c].revision
    ensures Parked(t, c)
  {
    hide StoreLater, CasesOk, BriefsOk;
    var b := BriefOfCase(s, c);
    var d := BriefOfCase(t, c);
    KnownRevision(s, c, s.briefs[b].revision);
    SameBrief(s, t, b);
    assert d == b;
  }

  // ------------------------------------------------------------------ undecidable for ever

  // The case waits for its family, and no decision on its brief is possible.
  ghost predicate Undecidable(s: Store, c: Key) {
    InState(s, c, InFamilyReview) && !Decidable(s, c)
  }

  lemma PersistedFamily(s: Store, a: PersistArgs, t: Store, c: Key)
    requires Persisted(s, a, t) && InState(s, c, InFamilyReview)
    ensures InState(t, c, InFamilyReview)
  {
    hide StoreOutput, ClaimsOf, RunsStep;
  }

  lemma ReviewedFamily(s: Store, a: ReviewArgs, t: Store, c: Key)
    requires ReviewStep(s, a, t) && InState(s, c, InFamilyReview)
    ensures InState(t, c, InFamilyReview)
  {
  }

  lemma DecidedFamily(s: Store, a: DecideArgs, t: Store, c: Key)
    requires DecideStep(s, a, t) && IsRipe(s, a) && Undecidable(s, c)
    ensures InState(t, c, InFamilyReview)
  {
    hide Decidable;
  }

  lemma BesideFamily(s: Store, t: Store, c: Key)
    requires Beside(s, t) && InState(s, c, InFamilyReview)
    ensures InState(t, c, InFamilyReview)
  {
  }

  lemma StaysInFamily(s: Store, t: Store, c: Key)
    requires StoreStep(s, t) && Undecidable(s, c)
    ensures InState(t, c, InFamilyReview)
  {
    hide Decidable, InState, Beside, OneRecord, Persisted, ReviewStep, DecideStep, Grounded, IsRipe;
    if a :| Persisted(s, a, t) {
      PersistedFamily(s, a, t, c);
    } else if a :| ReviewStep(s, a, t) && Grounded(s, a) {
      ReviewedFamily(s, a, t, c);
    } else if a :| DecideStep(s, a, t) && IsRipe(s, a) {
      DecidedFamily(s, a, t, c);
    } else {
      BesideFamily(s, t, c);
    }
  }

  // Brief, run rows and pinned revision are frozen, and revisions only grow: what is decidable later
  // was decidable before.
  lemma DecidableBefore(s: Store, t: Store, c: Key)
    requires StoreLater(s, t) && CasesOk(s) && CasesOk(t) && BriefsOk(s) && BriefsOk(t)
    requires InState(s, c, InFamilyReview) && InState(t, c, InFamilyReview) && Decidable(t, c)
    ensures Decidable(s, c)
  {
    hide StoreLater, CasesOk, BriefsOk, DecidableBrief;
    var b := BriefOfCase(s, c);
    var d := BriefToDecide(t, c);
    SameBrief(s, t, b);
    DecidableParts(t, c, d);
    BriefIs(t, c, d);
    OneBrief(t, c, b, d);
    KnownRevision(s, c, s.briefs[b].revision);
    RevisionsGrow(s, t, c);
    BriefParts(s, b);
    FrozenBrief(s, t, b);
    SameDecidable(s, t, c, b);
  }

  lemma BriefIs(t: Store, c: Key, d: Key)
    requires AwaitsDecision(t, c, d)
    ensures d in t.briefs && t.briefs[d].caseKey == c && c in t.cases && t.briefs[d].revision == t.cases[c].revision
  {
  }

  lemma OneBrief(t: Store, c: Key, b: Key, d: Key)
    requires BriefsOk(t) && b in t.briefs && d in t.briefs && t.briefs[b].caseKey == t.briefs[d].caseKey
    ensures b == d
  {
    hide BriefAgrees;
  }

  // All that a decision reads of a brief.
  ghost predicate SameFacts(s: Store, t: Store, b: Key) {
    && b in s.briefs && b in t.briefs && t.briefs[b] == s.briefs[b].(current := t.briefs[b].current)
    && s.briefs[b].run in s.rows && s.briefs[b].run in t.rows && t.rows[s.briefs[b].run] == s.rows[s.briefs[b].run]
    && var pinned := RevisionKey(s.briefs[b].caseKey, s.briefs[b].revision);
       pinned in s.revisions && pinned in t.revisions && t.revisions[pinned] == s.revisions[pinned]
  }

  lemma FrozenBrief(s: Store, t: Store, b: Key)
    requires StoreLater(s, t) && b in s.briefs && s.briefs[b].run in s.rows && RevisionKey(s.briefs[b].caseKey, s.briefs[b].revision) in s.revisions
    ensures SameFacts(s, t, b)
  {
  }

  lemma SameDecidable(s: Store, t: Store, c: Key, b: Key)
    requires SameFacts(s, t, b) && s.briefs[b].current && s.briefs[b].caseKey == c && InState(s, c, InFamilyReview)
    requires s.briefs[b].revision == s.cases[c].revision && DecidableBrief(t, c, b)
    ensures Decidable(s, c)
  {
    hide Payable, SupportedIntake, YearOf;
    var pick :| Payable(t.rows[t.briefs[b].run], pick, CeilingOf(t, t.briefs[b]));
    assert Payable(s.rows[s.briefs[b].run], pick, CeilingOf(s, s.briefs[b]));
    assert DecidableBrief(s, c, b);
  }

  lemma MomentStaysUndecidable(w: World, m: Moment, c: Key, rules: Rules)
    requires WorldInv(w, rules) && Happens(w, m, rules) && Undecidable(w.store, c)
    ensures Undecidable(m.after.store, c)
  {
    hide *;
    MomentSteps(w, m, rules);
    StepsInv(w, m.after, rules);
    WorldCells(w, rules);
    WorldCells(m.after, rules);
    InvParts(w.store);
    InvParts(m.after.store);
    StoreStepLater(w.store, m.after.store);
    StaysInFamily(w.store, m.after.store, c);
    UndecidableParts(w.store, c);
    if Decidable(m.after.store, c) {
      DecidableBefore(w.store, m.after.store, c);
    }
    UndecidableFrom(m.after.store, c);
  }

  lemma UndecidableParts(s: Store, c: Key)
    requires Undecidable(s, c)
    ensures InState(s, c, InFamilyReview) && !Decidable(s, c)
  {
    hide Decidable, InState;
  }

  lemma UndecidableFrom(s: Store, c: Key)
    requires InState(s, c, InFamilyReview) && !Decidable(s, c)
    ensures Undecidable(s, c)
  {
    hide Decidable, InState;
  }

  // A case in family review that is not decidable now never will be: in every run it keeps waiting,
  // and never gets to a decision or a plan.
  lemma UndecidableForever(w: World, run: seq<Moment>, c: Key, rules: Rules)
    requires Reachable(w, rules) && IsRun(w, run, rules) && Undecidable(w.store, c)
    ensures Undecidable(Last(w, run).store, c)
  {
    hide *;
    ReachableInv(w, rules);
    UndecidableAlong(w, run, c, rules);
  }

  lemma {:induction false} UndecidableAlong(w: World, run: seq<Moment>, c: Key, rules: Rules)
    requires WorldInv(w, rules) && IsRun(w, run, rules) && Undecidable(w.store, c)
    ensures Undecidable(Last(w, run).store, c)
    decreases |run|
  {
    hide WorldInv, IsRun, Happens, Last, Undecidable;
    if run == [] {
      LastOfNone(w);
    } else {
      var init, m := run[..|run| - 1], run[|run| - 1];
      assert run == init + [m];
      OneMore(w, init, m, rules);
      RunKeeps(w, init, rules);
      UndecidableAlong(w, init, c, rules);
      MomentStaysUndecidable(Last(w, init), m, c, rules);
    }
  }

  // A parked case is one of these, and stays parked.
  lemma ParkedForever(w: World, run: seq<Moment>, c: Key, rules: Rules)
    requires Reachable(w, rules) && IsRun(w, run, rules) && Parked(w.store, c)
    ensures Parked(Last(w, run).store, c) && Undecidable(Last(w, run).store, c)
  {
    hide *;
    var v := Last(w, run);
    ParkedIsNotDecidable(w.store, c);
    ParkedState(w.store, c);
    UndecidableFrom(w.store, c);
    UndecidableForever(w, run, c, rules);
    UndecidableParts(v.store, c);
    ReachableLater(w, run, rules);
    LaterTables(w, v);
    WorldCells(w, rules);
    WorldCells(v, rules);
    InvParts(w.store);
    InvParts(v.store);
    StateParts(w.store, c, InFamilyReview);
    StateParts(v.store, c, InFamilyReview);
    RevisionsGrow(w.store, v.store, c);
    OldBriefs(w.store, v.store, c);
  }

  lemma ParkedState(s: Store, c: Key)
    requires Parked(s, c)
    ensures InState(s, c, InFamilyReview)
  {
  }

  // ------------------------------------------------------------------ decisions

  lemma DecideMoment(w: World, m: Moment, a: DecideArgs, pick: Option<nat>, rules: Rules)
    requires Happens(w, m, rules) && m.call == DecideCall(a, pick) && Unrecorded(w, m.call) && m.outcome.Ok?
    ensures DecideAllowed(w.store, a, pick) && PickLegal(w.store, a, pick)
  {
    hide *;
    var v := Tick(w, m.wait);
    TickTables(w, m.wait);
    MomentCall(w, m, rules);
    MomentOk(w, m, m.outcome.value, rules);
    CallIs(v, m.call, rules);
    OnRecordedOk(v, DecideBrief(v.store, a, pick), m.after, m.outcome.value);
    KeyIs(w, m.call);
    ChosenDecision(v, a, pick);
    DecideExactly(w.store, a, pick);
    PickIsLegal(w.store, a, pick);
  }

  // The picked cost row is one that the selection can return.
  predicate PickLegal(s: Store, a: DecideArgs, pick: Option<nat>) {
    var b := Key(a.org, a.brief);
    b in s.briefs && (s.briefs[b].run in s.rows ==> CostPick(s.rows[s.briefs[b].run], pick))
  }

  lemma PickIsLegal(s: Store, a: DecideArgs, pick: Option<nat>)
    requires DecideAllowed(s, a, pick)
    requires Key(a.org, a.brief) in s.briefs && s.briefs[Key(a.org, a.brief)].run in s.rows
             ==> CostPick(s.rows[s.briefs[Key(a.org, a.brief)].run], pick)
    ensures PickLegal(s, a, pick)
  {
    hide DecideRefusal, CostPick;
  }

  lemma PickParts(s: Store, a: DecideArgs, pick: Option<nat>)
    requires PickLegal(s, a, pick)
    ensures Key(a.org, a.brief) in s.briefs
    ensures s.briefs[Key(a.org, a.brief)].run in s.rows ==> CostPick(s.rows[s.briefs[Key(a.org, a.brief)].run], pick)
  {
    hide CostPick;
  }

  // Exactly when a decision is possible: some decision on a brief of the case succeeds if and only
  // if the brief is about the newest revision, the pinned intake has a timeline, and some
  // interval fits the cost and the ceiling as far as they are there.
  lemma DecidableExactly(w: World, c: Key, a: DecideArgs, rules: Rules)
    requires Reachable(w, rules) && CanDecide(w.store, c, a)
    ensures (exists m :: Happens(w, m, rules) && Decides(w, m, c) && m.outcome.Ok?) <==> Decidable(w.store, c)
  {
    hide *;
    ReachableInv(w, rules);
    if Decidable(w.store, c) {
      var m := OwnDecisionMoment(w, c, a, rules);
      assert Happens(w, m, rules) && Decides(w, m, c) && m.outcome.Ok?;
    } else {
      forall m | Happens(w, m, rules) && Decides(w, m, c)
        ensures m.outcome.Err?
      {
        if m.outcome.Ok? {
          DecidesParts(w, m, c);
          DecideMoment(w, m, m.call.decide, m.call.pick, rules);
          PickParts(w.store, m.call.decide, m.call.pick);
          AcceptedIsDecidable(w.store, m.call.decide, m.call.pick, c);
        }
      }
    }
  }

  lemma OwnDecisionMoment(w: World, c: Key, a: DecideArgs, rules: Rules) returns (m: Moment)
    requires WorldInv(w, rules) && CanDecide(w.store, c, a) && Decidable(w.store, c)
    ensures Happens(w, m, rules) && Decides(w, m, c) && m.outcome.Ok?
  {
    hide *;
    WorldCells(w, rules);
    var d, pick := DecisionSucceeds(w.store, c, a);
    var call := DecideCall(d, pick);
    TickTables(w, 0);
    DecisionChosen(w, d, pick);
    m := CanHappen(w, 0, call, rules);
    AttemptParts(w.store, c, a);
    IsDecision(w, m, c, d, pick);
    CallIs(Tick(w, 0), call, rules);
    OnRecordedErr(Tick(w, 0), DecideBrief(w.store, d, pick));
    if m.outcome.Err? {
      MomentErr(w, m, m.outcome.error, rules);
    }
  }

  lemma DecisionChosen(w: World, d: DecideArgs, pick: Option<nat>)
    requires Key(d.org, d.brief) in w.store.briefs && w.store.briefs[Key(d.org, d.brief)].run in w.store.rows
             ==> CostPick(w.store.rows[w.store.briefs[Key(d.org, d.brief)].run], pick)
    ensures Chosen(Tick(w, 0), DecideCall(d, pick))
  {
    hide CostPick;
  }

  lemma IsDecision(w: World, m: Moment, c: Key, d: DecideArgs, pick: Option<nat>)
    requires m.call == DecideCall(d, pick) && DecideKey(d) !in w.store.records
    requires Key(d.org, d.brief) in w.store.briefs && w.store.briefs[Key(d.org, d.brief)].caseKey == c
    ensures Decides(w, m, c)
  {
  }

  // ------------------------------------------------------------------ what an accepted budget rests on

  // A new decision on the brief that succeeds.
  predicate Accepted(w: World, m: Moment, b: Key) {
    m.call.DecideCall? && Key(m.call.decide.org, m.call.decide.brief) == b && Unrecorded(w, m.call) && m.outcome.Ok?
  }

  ghost predicate IsSupported(w: World, m: Moment, b: Key) {
    m.call.DecideCall? && Supported(w.store, b, m.call.decide.min, m.call.decide.max)
  }

  // An accepted decision is supported by both facts, its cost and its ceiling, exactly when both
  // are there.
  lemma AcceptedSupport(w: World, m: Moment, b: Key, rules: Rules)
    requires Reachable(w, rules) && Happens(w, m, rules) && Accepted(w, m, b)
    ensures IsSupported(w, m, b) <==> BothFacts(w.store, b)
  {
    hide *;
    AcceptedParts(w, m, b);
    var a, pick := m.call.decide, m.call.pick;
    DecideMoment(w, m, a, pick, rules);
    PickParts(w.store, a, pick);
    ReachableInv(w, rules);
    WorldCells(w, rules);
    InvParts(w.store);
    BriefParts(w.store, b);
    AcceptedIsSupported(w.store, a, pick);
    SupportedIs(w, m, b);
  }

  lemma AcceptedParts(w: World, m: Moment, b: Key)
    requires Accepted(w, m, b)
    ensures m.call.DecideCall? && Key(m.call.decide.org, m.call.decide.brief) == b && Unrecorded(w, m.call) && m.outcome.Ok?
    ensures m.call == DecideCall(m.call.decide, m.call.pick)
  {
    hide Unrecorded;
  }

  lemma SupportedIs(w: World, m: Moment, b: Key)
    requires m.call.DecideCall?
    ensures IsSupported(w, m, b) <==> Supported(w.store, b, m.call.decide.min, m.call.decide.max)
  {
    hide Supported;
  }

  // The budget test protects the family exactly when both facts are there: for a brief on which
  // some decision succeeds, every decision that succeeds is supported by the cost and by the
  // ceiling, if and only if the run has an Australian cost row and the pinned revision a ceiling.
  lemma BudgetNeedsFacts(w: World, m: Moment, b: Key, rules: Rules)
    requires Reachable(w, rules) && Happens(w, m, rules) && Accepted(w, m, b)
    ensures (forall n :: Happens(w, n, rules) && Accepted(w, n, b) ==> IsSupported(w, n, b)) <==> BothFacts(w.store, b)
  {
    hide *;
    AcceptedSupport(w, m, b, rules);
    if BothFacts(w.store, b) {
      forall n | Happens(w, n, rules) && Accepted(w, n, b)
        ensures IsSupported(w, n, b)
      {
        AcceptedSupport(w, n, b, rules);
      }
    }
  }
}
