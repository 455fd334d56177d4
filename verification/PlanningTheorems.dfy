// Consequences of the planning invariant that no single function shows.
module PlanningTheorems {
  import opened Sql
  import opened PlanningOutput
  import opened Idempotency
  import opened Planning
  import opened PlanningInvariants
  import opened PlanningDecision

  // ------------------------------------------------------------------ hand-off conservation

  function HandedOff(s: Store, c: Key): set<Key> {
    set r | r in s.runs && s.runs[r].caseKey == c && s.runs[r].state == ReviewRequired
  }

  function SendBacks(s: Store, c: Key): set<Key> {
    set a | a in s.reviews && s.reviews[a].caseKey == c && s.reviews[a].action != Approve
  }

  function RunsOf(reviews: map<Key, Review>, ids: set<Key>): set<Key>
    requires ids <= reviews.Keys
  {
    set a | a in ids :: reviews[a].run
  }

  lemma {:induction false} ImageSize(reviews: map<Key, Review>, ids: set<Key>)
    requires ids <= reviews.Keys
    requires forall a, b :: a in ids && b in ids && reviews[a].run == reviews[b].run ==> a == b
    ensures |RunsOf(reviews, ids)| == |ids|
    decreases |ids|
  {
    if ids != {} {
      var a :| a in ids;
      var rest := ids - {a};
      ImageSize(reviews, rest);
      assert RunsOf(reviews, ids) == RunsOf(reviews, rest) + {reviews[a].run};
      assert reviews[a].run !in RunsOf(reviews, rest);
    } else {
      assert RunsOf(reviews, ids) == {};
    }
  }

  // Every hand-off of a case was answered by one review that sent it back, except the hand-off
  // that keeps the case past planning.
  lemma HandoffConservation(s: Store, c: Key)
    requires ReviewsOk(s) && HandoffOk(s) && c in s.cases
    ensures |HandedOff(s, c)| == |SendBacks(s, c)| + (if PastPlanning(s.cases[c].state) then 1 else 0)
  {
    hide *;
    SendBackRows(s, c);
    var answered := RunsOf(s.reviews, SendBacks(s, c));
    ImageSize(s.reviews, SendBacks(s, c));
    SendBacksAnswer(s, c);
    if PastPlanning(s.cases[c].state) {
      var open := OpenHandoff(s, c);
      AllButOne(HandedOff(s, c), answered, open);
    } else {
      NoneOpen(s, c);
      assert HandedOff(s, c) == answered;
    }
  }

  lemma SendBackRows(s: Store, c: Key)
    requires ReviewsOk(s)
    ensures SendBacks(s, c) <= s.reviews.Keys
    ensures forall a, b :: a in SendBacks(s, c) && b in SendBacks(s, c) && s.reviews[a].run == s.reviews[b].run ==> a == b
  {
    hide ReviewAgrees;
  }

  lemma AllButOne(all: set<Key>, part: set<Key>, x: Key)
    requires part <= all && x in all && forall y :: y in all ==> (y in part <==> y != x)
    ensures |all| == |part| + 1
  {
    assert all == part + {x};
  }

  // Past planning, one handed-off run of the case is open, and no other one.
  lemma OpenHandoff(s: Store, c: Key) returns (open: Key)
    requires HandoffOk(s) && c in s.cases && PastPlanning(s.cases[c].state)
    ensures open in HandedOff(s, c) && IsOpen(s, open)
    ensures forall r :: r in HandedOff(s, c) ==> (!IsOpen(s, r) <==> r != open)
  {
    hide Reviewed, SentBack;
    open :| IsOpen(s, open) && s.runs[open].caseKey == c;
  }

  lemma NoneOpen(s: Store, c: Key)
    requires HandoffOk(s) && c in s.cases && !PastPlanning(s.cases[c].state)
    ensures forall r :: r in HandedOff(s, c) ==> !IsOpen(s, r)
  {
    hide Reviewed, SentBack;
  }

  // The runs answered by a send-back are the handed-off runs that are not open.
  lemma SendBacksAnswer(s: Store, c: Key)
    requires ReviewsOk(s)
    ensures SendBacks(s, c) <= s.reviews.Keys
    ensures RunsOf(s.reviews, SendBacks(s, c)) <= HandedOff(s, c)
    ensures forall r :: r in HandedOff(s, c) ==> (r in RunsOf(s.reviews, SendBacks(s, c)) <==> !IsOpen(s, r))
  {
    AnsweredHandedOff(s, c);
    forall r | r in HandedOff(s, c)
      ensures r in RunsOf(s.reviews, SendBacks(s, c)) <==> !IsOpen(s, r)
    {
      if SentBack(s.reviews, r) {
        var a :| a in s.reviews && s.reviews[a].run == r && s.reviews[a].action != Approve;
        assert ReviewAgrees(s, a) && a in SendBacks(s, c);
      }
    }
  }

  lemma AnsweredHandedOff(s: Store, c: Key)
    requires ReviewsOk(s)
    ensures SendBacks(s, c) <= s.reviews.Keys
    ensures RunsOf(s.reviews, SendBacks(s, c)) <= HandedOff(s, c)
  {
    forall r | r in RunsOf(s.reviews, SendBacks(s, c))
      ensures r in HandedOff(s, c)
    {
      var a :| a in SendBacks(s, c) && s.reviews[a].run == r;
      assert ReviewAgrees(s, a);
    }
  }

  // ------------------------------------------------------------------ supersession

  // Each run of the path supersedes the next one.
  predicate SupersessionPath(runs: map<Key, Run>, path: seq<Key>) {
    && (forall i :: 0 <= i < |path| ==> path[i] in runs)
    && forall i :: 0 <= i < |path| - 1 ==> runs[path[i]].supersedes == Some(path[i + 1])
  }

  lemma {:induction false} RankFalls(runs: map<Key, Run>, rank: map<Key, nat>, path: seq<Key>)
    requires Ranked(runs, rank) && SupersessionPath(runs, path) && |path| >= 2
    ensures rank[path[|path| - 1]] < rank[path[0]]
    decreases |path|
  {
    var last := path[|path| - 1];
    assert runs[path[|path| - 2]].supersedes == Some(last);
    if |path| > 2 {
      RankFalls(runs, rank, path[..|path| - 1]);
    }
  }

  // Following supersession never comes back to a run, not even across cases.
  lemma NoSupersessionCycle(s: Store, path: seq<Key>)
    requires ChainsOk(s) && SupersessionPath(s.runs, path) && |path| >= 2
    ensures path[0] != path[|path| - 1]
  {
    var rank :| Ranked(s.runs, rank);
    RankFalls(s.runs, rank, path);
  }

  // ------------------------------------------------------------------ briefs and decisions

  lemma SingleRoute(rows: Rows, eligible: seq<nat>)
    requires eligible != [] && DistinctIds(eligible)
    requires forall i :: 0 <= i < |eligible| ==> Eligible(rows, eligible[i])
    requires forall j, k :: j in rows.routes && k in rows.routes && rows.routes[j].country == rows.routes[k].country ==> j == k
    ensures |eligible| == 1
  {
    var last := |eligible| - 1;
    assert eligible[0] == eligible[last];
  }

  // An approval names exactly one route: the Australian one.
  lemma OneEligibleRoute(s: Store, b: Key)
    requires BriefsOk(s) && OutputsOk(s) && b in s.briefs
    ensures s.briefs[b].review in s.reviews && |s.reviews[s.briefs[b].review].eligible| == 1
  {
    hide CanonicalProjection, LinkValid, CostProvenance, CostValid, Supports, ClaimsOf;
    assert BriefAgrees(s, b);
    var rows := s.rows[s.briefs[b].run];
    assert RowsProven(ClaimsOf(s.evidence, s.runs[s.briefs[b].run].pack), rows);
    SingleRoute(rows, s.reviews[s.briefs[b].review].eligible);
  }

  // So the family can only choose that route.
  lemma DecisionTakesTheRoute(s: Store, d: Key)
    requires BriefsOk(s) && OutputsOk(s) && DecisionsOk(s) && d in s.decisions
    ensures s.decisions[d].brief in s.briefs && s.briefs[s.decisions[d].brief].review in s.reviews
    ensures s.reviews[s.briefs[s.decisions[d].brief].review].eligible == [s.decisions[d].route]
  {
    hide BriefsOk, OutputsOk, DecisionsOk;
    DecidedRoute(s, d);
    OneEligibleRoute(s, s.decisions[d].brief);
  }

  lemma DecidedRoute(s: Store, d: Key)
    requires DecisionsOk(s) && d in s.decisions
    ensures s.decisions[d].brief in s.briefs && s.briefs[s.decisions[d].brief].review in s.reviews
    ensures s.decisions[d].route in s.reviews[s.briefs[s.decisions[d].brief].review].eligible
  {
    hide BudgetAgrees, TimelineAgrees;
    assert DecisionAgrees(s, d);
  }

  // A case has a decision and a timeline exactly when it is plan ready, and exactly one of each.
  lemma PlanReadyExactly(s: Store, c: Key)
    requires BriefsOk(s) && DecisionsOk(s) && c in s.cases
    ensures s.cases[c].state == PlanReady <==> exists d :: d in s.decisions && s.decisions[d].caseKey == c
    ensures s.cases[c].state == PlanReady <==>
              exists x :: x in s.timelines && s.timelines[x].decision in s.decisions && s.decisions[s.timelines[x].decision].caseKey == c
    ensures s.cases[c].state == InFamilyReview <==> exists b :: b in s.briefs && s.briefs[b].caseKey == c && s.briefs[b].current
  {
    hide BriefAgrees, DecisionAgrees;
    if s.cases[c].state == PlanReady {
      var d :| d in s.decisions && s.decisions[d].caseKey == c;
      var x :| x in s.timelines && s.timelines[x].decision == d;
    }
    if s.cases[c].state == InFamilyReview {
      assert Settled(s.cases[c].state);
      var b :| b in s.briefs && s.briefs[b].caseKey == c;
    }
  }

  ghost predicate OneAustralianCost(rows: Rows, k: nat) {
    IsAustralianCost(rows, k) && forall j :: IsAustralianCost(rows, j) ==> j == k
  }

  predicate CostWithin(rows: Rows, k: nat, min: int, max: int) {
    IsAustralianCost(rows, k) && min <= CostInCny(rows.costs[k]) <= max
  }

  // The ceiling of the revision that a brief is pinned to.
  function CeilingOf(s: Store, brief: Brief): Option<int> {
    var pinned := RevisionKey(brief.caseKey, brief.revision);
    if pinned in s.revisions then s.revisions[pinned].hardCeiling else None
  }

  // What an accepted interval owes to the facts: it ends below the pinned ceiling, if there is
  // one; it contains a converted Australian cost of the run, if there is one, and the only one
  // when there is only one.
  ghost predicate IntervalSound(s: Store, d: Key) {
    && d in s.decisions && s.decisions[d].brief in s.briefs && s.decisions[d].run in s.rows
    && var decision, rows := s.decisions[d], s.rows[s.decisions[d].run];
       && (CeilingOf(s, s.briefs[decision.brief]).Some? ==> decision.max <= CeilingOf(s, s.briefs[decision.brief]).value)
       && ((exists k :: IsAustralianCost(rows, k)) ==> exists k :: CostWithin(rows, k, decision.min, decision.max))
       && (forall k :: OneAustralianCost(rows, k) ==> CostWithin(rows, k, decision.min, decision.max))
  }

  lemma AcceptedBudget(s: Store, d: Key)
    requires DecisionsOk(s) && d in s.decisions
    ensures IntervalSound(s, d)
  {
    hide CostInCny, DecisionsOk;
    DecisionBudget(s, d);
    var decision, rows := s.decisions[d], s.rows[s.decisions[d].run];
    if k :| IsAustralianCost(rows, k) {
      var j :| IsAustralianCost(rows, j) && decision.min <= CostInCny(rows.costs[j]) <= decision.max;
      assert CostWithin(rows, j, decision.min, decision.max);
    }
  }

  lemma DecisionBudget(s: Store, d: Key)
    requires DecisionsOk(s) && d in s.decisions
    ensures BudgetAgrees(s, s.decisions[d])
  {
    hide BudgetAgrees, TimelineAgrees;
    assert DecisionAgrees(s, d);
  }

  // Both facts that the budget test is about.
  ghost predicate BothFacts(s: Store, b: Key) {
    && b in s.briefs && s.briefs[b].run in s.rows
    && (exists k :: IsAustralianCost(s.rows[s.briefs[b].run], k))
    && CeilingOf(s, s.briefs[b]).Some?
  }

  // An interval that the facts support: it contains a converted cost and ends below the ceiling.
  ghost predicate Supported(s: Store, b: Key, min: int, max: int) {
    && b in s.briefs && s.briefs[b].run in s.rows
    && (exists k :: CostWithin(s.rows[s.briefs[b].run], k, min, max))
    && CeilingOf(s, s.briefs[b]).Some? && max <= CeilingOf(s, s.briefs[b]).value
  }

  // An accepted decision is supported exactly when both facts are there.
  lemma AcceptedIsSupported(s: Store, a: DecideArgs, pick: Option<nat>)
    requires DecideAllowed(s, a, pick) && s.briefs[Key(a.org, a.brief)].run in s.rows && CostPick(s.rows[s.briefs[Key(a.org, a.brief)].run], pick)
    ensures Supported(s, Key(a.org, a.brief), a.min, a.max) <==> BothFacts(s, Key(a.org, a.brief))
  {
    hide DecideRefusal, CostInCny, SupportedIntake, Milestones, YearOf, Eligible;
    DecisionNotRefused(s, a, pick);
    var rows := s.rows[s.briefs[Key(a.org, a.brief)].run];
    if BothFacts(s, Key(a.org, a.brief)) {
      var k :| IsAustralianCost(rows, k);
      assert pick.Some? && CostWithin(rows, pick.value, a.min, a.max);
    }
  }

  // ------------------------------------------------------------------ stuck cases

  // The case's current run at its current revision.
  predicate IsUnderReview(s: Store, c: Key, r: Key)
    ensures IsUnderReview(s, c, r) ==> c in s.cases && r in s.runs
  {
    c in s.cases && r in s.runs && s.runs[r].caseKey == c && s.runs[r].current && s.runs[r].revision == s.cases[c].revision
  }

  // A case in advisor review without a run to review: its hand-off was superseded from another
  // case, or a newer revision was published meanwhile.
  predicate Stranded(s: Store, c: Key) {
    && c in s.cases && s.cases[c].state == InAdvisorReview
    && forall r :: r in s.runs ==> !IsUnderReview(s, c, r)
  }

  predicate HasIntake(s: Store, c: Key, revision: int) {
    RevisionKey(c, revision) in s.revisions && s.revisions[RevisionKey(c, revision)].intake.Some?
  }

  predicate HasEntry(s: Store, pack: PackKey) {
    exists k :: k in s.entries && k.pack == pack
  }

  // A case in advisor review that no advisor can review: it is stranded, its revision names no
  // intake, or its run is pinned to a pack without entries.
  predicate Stuck(s: Store, c: Key) {
    && c in s.cases && s.cases[c].state == InAdvisorReview
    && (|| Stranded(s, c)
        || !HasIntake(s, c, s.cases[c].revision)
        || exists r :: r in s.runs && IsUnderReview(s, c, r) && !HasEntry(s, s.runs[r].pack))
  }

  // The facts that every review of a run reads.
  predicate Grounded(s: Store, a: ReviewArgs) {
    var c, r := Key(a.org, a.caseId), Key(a.org, a.run);
    && c in s.cases && s.cases[c].state == InAdvisorReview && s.cases[c].revision == a.revision
    && r in s.runs && IsUnderReview(s, c, r) && HasIntake(s, c, a.revision) && HasEntry(s, s.runs[r].pack)
  }

  lemma ReviewIsGrounded(s: Store, a: ReviewArgs, date: Option<int>)
    requires ReviewAllowed(s, a, date)
    requires Key(a.org, a.run) in s.runs ==> IsSourceDate(s.entries, s.runs[Key(a.org, a.run)].pack, date)
    ensures Grounded(s, a)
  {
    hide ReviewRefusal, RiskValid, Eligible, DistinctIds;
    NotRefused(s, a, date);
    var k :| k in s.entries && k.pack == s.runs[Key(a.org, a.run)].pack;
    assert HasEntry(s, s.runs[Key(a.org, a.run)].pack);
  }

  lemma GroundedIsNotStuck(s: Store, a: ReviewArgs)
    requires RunsOk(s) && Grounded(s, a)
    ensures !Stuck(s, Key(a.org, a.caseId))
  {
  }

  // Sending the case back to planning, with nothing attached.
  function SendBack(c: Key, run: nat, revision: int, actor: nat, review: nat, key: string, request: string): ReviewArgs {
    ReviewArgs(c.org, actor, c.id, run, revision, RequestRevision, review, [], [], None, None, None, key, request)
  }

  // The latest snapshot date of a pack with entries.
  lemma SourceDate(s: Store, pack: PackKey) returns (date: int)
    requires HasEntry(s, pack)
    ensures IsSourceDate(s.entries, pack, Some(date))
  {
    var keys := set k | k in s.entries && k.pack == pack;
    var k :| k in s.entries && k.pack == pack;
    assert k in keys;
    date := LatestOf(s.entries, keys);
  }

  lemma {:induction false} LatestOf(entries: map<EntryKey, Entry>, keys: set<EntryKey>) returns (date: int)
    requires keys != {} && keys <= entries.Keys
    ensures exists k :: k in keys && entries[k].snapshot == date
    ensures forall k :: k in keys ==> entries[k].snapshot <= date
    decreases keys
  {
    var x :| x in keys;
    date := entries[x].snapshot;
    if keys != {x} {
      var rest := LatestOf(entries, keys - {x});
      if rest > date {
        var k :| k in keys - {x} && entries[k].snapshot == rest;
        date := rest;
        assert k in keys && entries[k].snapshot == date;
      }
    }
  }

  // An advisor's attempt with an id and a key of its own.
  ghost predicate CanTry(s: Store, c: Key, actor: nat, review: nat, key: string, request: string) {
    && c in s.cases && s.cases[c].state == InAdvisorReview
    && Participant(c, actor, Advisor) in s.participants && Key(c.org, review) !in s.reviews
    && RecordKey(c.org, actor, AdvisorReview, key) !in s.records && |key| == 64 && |request| == 64
  }

  // A case that is not stuck can be sent back.
  lemma SendBackSucceeds(s: Store, c: Key, actor: nat, review: nat, key: string, request: string) returns (a: ReviewArgs, date: int)
    requires Inv(s) && CanTry(s, c, actor, review, key, request) && !Stuck(s, c)
    ensures Key(a.org, a.caseId) == c && a.actor == actor && a.key == key && Key(a.org, a.run) in s.runs
    ensures IsSourceDate(s.entries, s.runs[Key(a.org, a.run)].pack, Some(date)) && NextReviewVersion(s.reviews, Key(a.org, a.run), 1)
    ensures ReviewRun(s, a, Some(date), 1).Ok?
  {
    hide *;
    InvParts(s);
    TryParts(s, c, actor, review, key, request);
    var r := RunToReview(s, c);
    UnderReviewParts(s, c, r);
    date := SourceDate(s, s.runs[r].pack);
    a := SendBack(c, r.id, s.cases[c].revision, actor, review, key, request);
    SendBackAllowed(s, c, r, actor, review, date, key, request);
    ReviewExactly(s, a, Some(date), 1);
  }

  lemma TryParts(s: Store, c: Key, actor: nat, review: nat, key: string, request: string)
    requires CanTry(s, c, actor, review, key, request)
    ensures c in s.cases && s.cases[c].state == InAdvisorReview
  {
  }

  lemma RunToReview(s: Store, c: Key) returns (r: Key)
    requires c in s.cases && s.cases[c].state == InAdvisorReview && !Stuck(s, c)
    ensures r in s.runs && IsUnderReview(s, c, r) && HasEntry(s, s.runs[r].pack) && HasIntake(s, c, s.cases[c].revision)
  {
    hide HasEntry, HasIntake;
    r :| r in s.runs && IsUnderReview(s, c, r);
  }

  lemma UnderReviewParts(s: Store, c: Key, r: Key)
    requires RunsOk(s) && HandoffOk(s) && c in s.cases && s.cases[c].state == InAdvisorReview && r in s.runs && IsUnderReview(s, c, r)
    ensures Key(c.org, r.id) == r && NextReviewVersion(s.reviews, r, 1)
    ensures s.runs[r].state == ReviewRequired && r in s.rows
  {
    hide IsOpen;
    assert !Reviewed(s.reviews, r);
  }

  lemma SendBackAllowed(s: Store, c: Key, r: Key, actor: nat, review: nat, date: int, key: string, request: string)
    requires CanTry(s, c, actor, review, key, request) && r in s.runs && IsUnderReview(s, c, r) && HasIntake(s, c, s.cases[c].revision)
    requires Key(c.org, r.id) == r && s.runs[r].state == ReviewRequired && r in s.rows
    ensures var a := SendBack(c, r.id, s.cases[c].revision, actor, review, key, request);
            && ReviewAllowed(s, a, Some(date)) && ReviewKey(a) !in s.records
            && Key(a.org, a.caseId) == c && Key(a.org, a.run) == r && a.actor == actor && a.key == key
  {
    var a := SendBack(c, r.id, s.cases[c].revision, actor, review, key, request);
    assert Key(a.org, a.caseId) == c;
    assert ReviewTarget(s, a);
    assert ReviewRefusal(s, a, Some(date)) == None;
  }

  // A case that an advisor can approve: it is not stuck, and its run recommends an Australian route
  // and has an output hash.
  ghost predicate Approvable(s: Store, c: Key) {
    !Stuck(s, c) && exists r :: r in s.runs && r in s.rows && CanApprove(s, c, r)
  }

  ghost predicate CanApprove(s: Store, c: Key, r: Key)
    requires r in s.runs && r in s.rows
  {
    IsUnderReview(s, c, r) && s.runs[r].outputHash.Some? && exists route :: Eligible(s.rows[r], route)
  }

  lemma AcceptedIsApprovable(s: Store, a: ReviewArgs, date: Option<int>)
    requires RunsOk(s) && ReviewAllowed(s, a, date) && a.action == Approve && Grounded(s, a)
    ensures Approvable(s, Key(a.org, a.caseId))
  {
    hide ReviewRefusal, RiskValid, DistinctIds, Stuck, RunsOk, HasEntry, HasIntake, Eligible;
    NotRefused(s, a, date);
    GroundedIsNotStuck(s, a);
    var r := Key(a.org, a.run);
    assert Eligible(s.rows[r], a.eligible[0]);
    assert CanApprove(s, Key(a.org, a.caseId), r);
  }

  // The approval of one route, with nothing risked.
  function ApprovalOf(s: Store, c: Key, r: Key, route: nat, actor: nat, review: nat, brief: nat, date: int, key: string, request: string): ReviewArgs
    requires c in s.cases && HasIntake(s, c, s.cases[c].revision) && r in s.rows
  {
    var intake := s.revisions[RevisionKey(c, s.cases[c].revision)].intake.value;
    ReviewArgs(c.org, actor, c.id, r.id, s.cases[c].revision, Approve, review, [route], [], Some(brief),
               Some(CanonicalProjection(s.rows[r], [route], [], intake)), Some(date), key, request)
  }

  // An approvable case can be approved.
  lemma ApprovalSucceeds(s: Store, c: Key, actor: nat, review: nat, brief: nat, key: string, request: string) returns (a: ReviewArgs, date: int)
    requires Inv(s) && CanTry(s, c, actor, review, key, request) && Key(c.org, brief) !in s.briefs && Approvable(s, c)
    ensures Key(a.org, a.caseId) == c && a.actor == actor && a.key == key && a.action == Approve && Key(a.org, a.run) in s.runs
    ensures IsSourceDate(s.entries, s.runs[Key(a.org, a.run)].pack, Some(date)) && NextReviewVersion(s.reviews, Key(a.org, a.run), 1)
    ensures ReviewRun(s, a, Some(date), 1).Ok?
  {
    hide *;
    InvParts(s);
    TryParts(s, c, actor, review, key, request);
    var r, route := RouteToApprove(s, c);
    UnderReviewParts(s, c, r);
    date := SourceDate(s, s.runs[r].pack);
    a := ApprovalOf(s, c, r, route, actor, review, brief, date, key, request);
    ApprovalIsAllowed(s, c, r, route, actor, review, brief, date, key, request);
    ReviewExactly(s, a, Some(date), 1);
  }

  lemma RouteToApprove(s: Store, c: Key) returns (r: Key, route: nat)
    requires RunsOk(s) && c in s.cases && s.cases[c].state == InAdvisorReview && Approvable(s, c)
    ensures r in s.runs && r in s.rows && IsUnderReview(s, c, r) && s.runs[r].outputHash.Some? && Eligible(s.rows[r], route)
    ensures HasEntry(s, s.runs[r].pack) && HasIntake(s, c, s.cases[c].revision)
  {
    hide HasEntry, HasIntake, Eligible, RunsOk;
    r :| r in s.runs && r in s.rows && CanApprove(s, c, r);
    route :| Eligible(s.rows[r], route);
  }

  lemma NoBriefYet(s: Store, c: Key)
    requires BriefsOk(s) && c in s.cases && s.cases[c].state == InAdvisorReview
    ensures forall b :: b in s.briefs ==> s.briefs[b].caseKey != c
  {
    hide BriefAgrees;
  }

  lemma ApprovalIsAllowed(s: Store, c: Key, r: Key, route: nat, actor: nat, review: nat, brief: nat, date: int, key: string, request: string)
    requires BriefsOk(s) && CanTry(s, c, actor, review, key, request) && Key(c.org, brief) !in s.briefs
    requires r in s.runs && r in s.rows && IsUnderReview(s, c, r) && s.runs[r].outputHash.Some? && Eligible(s.rows[r], route)
    requires HasIntake(s, c, s.cases[c].revision) && Key(c.org, r.id) == r && s.runs[r].state == ReviewRequired
    ensures var a := ApprovalOf(s, c, r, route, actor, review, brief, date, key, request);
            && ReviewAllowed(s, a, Some(date)) && ReviewKey(a) !in s.records
            && Key(a.org, a.caseId) == c && Key(a.org, a.run) == r && a.actor == actor && a.key == key && a.action == Approve
  {
    hide BriefsOk, CanonicalProjection, Eligible;
    NoBriefYet(s, c);
    var a := ApprovalOf(s, c, r, route, actor, review, brief, date, key, request);
    assert Key(a.org, a.caseId) == c;
    assert ReviewTarget(s, a);
    assert ReviewRefusal(s, a, Some(date)) == None;
  }

  // ------------------------------------------------------------------ parked cases

  // A case in family review whose brief is about an older revision.
  predicate Parked(s: Store, c: Key) {
    && c in s.cases && s.cases[c].state == InFamilyReview
    && forall b :: b in s.briefs && s.briefs[b].caseKey == c && s.briefs[b].current ==> s.briefs[b].revision != s.cases[c].revision
  }

  lemma ParkedRefuses(s: Store, c: Key, a: DecideArgs, pick: Option<nat>)
    requires Parked(s, c) && DecideKey(a) !in s.records && Key(a.org, a.brief) in s.briefs && s.briefs[Key(a.org, a.brief)].caseKey == c
    ensures DecideBrief(s, a, pick) == Err(NV003)
  {
    hide DecideRefusal, RecordDecision;
  }

  // ------------------------------------------------------------------ decidable cases

  // The brief is current, about the case's newest revision, and the case waits for its family.
  predicate AwaitsDecision(s: Store, c: Key, b: Key) {
    && c in s.cases && s.cases[c].state == InFamilyReview
    && b in s.briefs && s.briefs[b].caseKey == c && s.briefs[b].current && s.briefs[b].revision == s.cases[c].revision
  }

  // The pinned intake has a timeline.
  predicate Schedulable(s: Store, c: Key, revision: int) {
    HasIntake(s, c, revision)
    && var intake := s.revisions[RevisionKey(c, revision)].intake.value;
       SupportedIntake(intake) && YearOf(intake) >= 2
  }

  // Some interval passes the budget test against this cost row and ceiling.
  predicate Payable(rows: Rows, pick: Option<nat>, ceiling: Option<int>) {
    && CostPick(rows, pick)
    && match pick
       case None => ceiling.Some? ==> ceiling.value >= 1
       case Some(k) => !CostOverflows(rows.costs[k]) && 1 <= CostInCny(rows.costs[k]) && (ceiling.Some? ==> CostInCny(rows.costs[k]) <= ceiling.value)
  }

  // A case that its family can decide now.
  ghost predicate Decidable(s: Store, c: Key) {
    exists b :: b in s.briefs && DecidableBrief(s, c, b)
  }

  ghost predicate DecidableBrief(s: Store, c: Key, b: Key) {
    && AwaitsDecision(s, c, b) && s.briefs[b].run in s.rows && Schedulable(s, c, s.briefs[b].revision)
    && exists pick :: Payable(s.rows[s.briefs[b].run], pick, CeilingOf(s, s.briefs[b]))
  }

  lemma ParkedIsNotDecidable(s: Store, c: Key)
    requires Parked(s, c)
    ensures !Decidable(s, c)
  {
    hide Payable, Schedulable;
  }

  // The decision is on a brief of a decidable case.
  ghost predicate IsRipe(s: Store, a: DecideArgs) {
    Key(a.org, a.brief) in s.briefs && Decidable(s, s.briefs[Key(a.org, a.brief)].caseKey)
  }

  lemma AcceptedIsRipe(s: Store, a: DecideArgs, pick: Option<nat>)
    requires DecideAllowed(s, a, pick)
    requires Key(a.org, a.brief) in s.briefs && s.briefs[Key(a.org, a.brief)].run in s.rows
             ==> CostPick(s.rows[s.briefs[Key(a.org, a.brief)].run], pick)
    ensures IsRipe(s, a)
  {
    hide DecideRefusal, CostPick, Decidable;
    AcceptedIsDecidable(s, a, pick, s.briefs[Key(a.org, a.brief)].caseKey);
  }

  lemma AcceptedIsDecidable(s: Store, a: DecideArgs, pick: Option<nat>, c: Key)
    requires DecideAllowed(s, a, pick) && s.briefs[Key(a.org, a.brief)].caseKey == c
    requires s.briefs[Key(a.org, a.brief)].run in s.rows ==> CostPick(s.rows[s.briefs[Key(a.org, a.brief)].run], pick)
    ensures Decidable(s, c)
  {
    hide CostInCny, SupportedIntake, Milestones, YearOf, Eligible, MayDecide;
    DecisionNotRefused(s, a, pick);
    var b := Key(a.org, a.brief);
    AcceptedIsPayable(s, a, pick);
    assert DecidableBrief(s, c, b);
  }

  lemma AcceptedIsPayable(s: Store, a: DecideArgs, pick: Option<nat>)
    requires DecideAllowed(s, a, pick)
    ensures var b := s.briefs[Key(a.org, a.brief)];
            && b.run in s.rows && Schedulable(s, b.caseKey, b.revision)
            && (CostPick(s.rows[b.run], pick) ==> Payable(s.rows[b.run], pick, CeilingOf(s, b)))
  {
    hide CostInCny, SupportedIntake, Milestones, YearOf, Eligible, MayDecide;
  }

  // A family member's attempt with ids and a key of its own.
  ghost predicate CanDecide(s: Store, c: Key, a: DecideArgs) {
    && InFamily(s, c) && a.org == c.org
    && Participant(c, a.actor, Student) in s.participants && DecideKey(a) !in s.records && |a.key| == 64 && |a.request| == 64
    && Key(a.org, a.decision) !in s.decisions && Key(a.org, a.timeline) !in s.timelines
    && forall d :: d in s.decisions && d.org == a.org ==> s.decisions[d].receipt != a.receipt
  }

  predicate InFamily(s: Store, c: Key) {
    c in s.cases && s.cases[c].state == InFamilyReview
  }

  function AmountOf(rows: Rows, pick: Option<nat>): int {
    if pick.Some? && pick.value in rows.costs then CostInCny(rows.costs[pick.value]) else 1
  }

  // The student's own decision for the one eligible route, at exactly the known cost.
  function OwnDecision(s: Store, b: Key, a: DecideArgs, pick: Option<nat>): DecideArgs
    requires b in s.briefs && s.briefs[b].run in s.rows && s.briefs[b].review in s.reviews && s.reviews[s.briefs[b].review].eligible != []
    requires Schedulable(s, s.briefs[b].caseKey, s.briefs[b].revision)
  {
    var brief := s.briefs[b];
    var amount := AmountOf(s.rows[brief.run], pick);
    a.(role := Student, brief := b.id, version := brief.version, route := s.reviews[brief.review].eligible[0], min := amount, max := amount,
       currency := "CNY", tradeOffs := {"budget_elasticity"}, madeBy := a.actor, source := "direct",
       milestones := Milestones(YearOf(s.revisions[RevisionKey(brief.caseKey, brief.revision)].intake.value)))
  }

  lemma DecisionSucceeds(s: Store, c: Key, a: DecideArgs) returns (d: DecideArgs, pick: Option<nat>)
    requires Inv(s) && CanDecide(s, c, a) && Decidable(s, c)
    ensures DecideKey(d) == DecideKey(a) && Key(d.org, d.brief) in s.briefs && s.briefs[Key(d.org, d.brief)].caseKey == c
    ensures s.briefs[Key(d.org, d.brief)].run in s.rows && CostPick(s.rows[s.briefs[Key(d.org, d.brief)].run], pick)
    ensures DecideBrief(s, d, pick).Ok?
  {
    hide *;
    InvParts(s);
    var b := BriefToDecide(s, c);
    pick := PickToPay(s, c, b);
    DecidableParts(s, c, b);
    AttemptParts(s, c, a);
    BriefParts(s, b);
    d := OwnDecision(s, b, a, pick);
    OwnDecisionAllowed(s, c, b, a, pick);
    DecideExactly(s, d, pick);
  }

  lemma AttemptParts(s: Store, c: Key, a: DecideArgs)
    requires CanDecide(s, c, a)
    ensures DecideKey(a) !in s.records && a.org == c.org
  {
  }

  lemma BriefToDecide(s: Store, c: Key) returns (b: Key)
    requires Decidable(s, c)
    ensures b in s.briefs && DecidableBrief(s, c, b)
  {
    hide DecidableBrief;
    b :| b in s.briefs && DecidableBrief(s, c, b);
  }

  lemma DecidableParts(s: Store, c: Key, b: Key)
    requires DecidableBrief(s, c, b)
    ensures AwaitsDecision(s, c, b) && b in s.briefs && s.briefs[b].caseKey == c && s.briefs[b].run in s.rows && Schedulable(s, c, s.briefs[b].revision)
  {
    hide Payable, Schedulable;
  }

  lemma PickToPay(s: Store, c: Key, b: Key) returns (pick: Option<nat>)
    requires b in s.briefs && DecidableBrief(s, c, b)
    ensures s.briefs[b].run in s.rows && Payable(s.rows[s.briefs[b].run], pick, CeilingOf(s, s.briefs[b]))
    ensures CostPick(s.rows[s.briefs[b].run], pick)
  {
    hide CostPick, Schedulable, CostInCny;
    pick :| Payable(s.rows[s.briefs[b].run], pick, CeilingOf(s, s.briefs[b]));
  }

  lemma BriefParts(s: Store, b: Key)
    requires BriefsOk(s) && b in s.briefs
    ensures var brief := s.briefs[b];
            && b.org == brief.caseKey.org && brief.run in s.rows && brief.review in s.reviews
            && s.reviews[brief.review].action == Approve && s.reviews[brief.review].eligible != []
            && Eligible(s.rows[brief.run], s.reviews[brief.review].eligible[0])
  {
    hide CanonicalProjection, Eligible, DistinctIds;
    assert BriefAgrees(s, b);
  }

  // Nobody has decided on the brief yet: its case would be plan ready.
  lemma UndecidedBrief(s: Store, c: Key, b: Key)
    requires DecisionsOk(s) && AwaitsDecision(s, c, b)
    ensures forall d :: d in s.decisions ==> s.decisions[d].brief != b
  {
    hide BudgetAgrees, TimelineAgrees;
    forall d | d in s.decisions
      ensures s.decisions[d].brief != b
    {
      assert DecisionAgrees(s, d);
    }
  }

  lemma OwnDecisionAllowed(s: Store, c: Key, b: Key, a: DecideArgs, pick: Option<nat>)
    requires DecisionsOk(s) && CanDecide(s, c, a) && AwaitsDecision(s, c, b) && s.briefs[b].caseKey == c && Schedulable(s, c, s.briefs[b].revision)
    requires b.org == c.org && s.briefs[b].run in s.rows && s.briefs[b].review in s.reviews
    requires s.reviews[s.briefs[b].review].action == Approve && s.reviews[s.briefs[b].review].eligible != []
    requires Eligible(s.rows[s.briefs[b].run], s.reviews[s.briefs[b].review].eligible[0])
    requires Payable(s.rows[s.briefs[b].run], pick, CeilingOf(s, s.briefs[b]))
    ensures var d := OwnDecision(s, b, a, pick);
            DecideAllowed(s, d, pick) && DecideKey(d) == DecideKey(a) && Key(d.org, d.brief) == b
  {
    hide DecisionsOk, CostInCny, SupportedIntake, Milestones, YearOf, Eligible;
    UndecidedBrief(s, c, b);
    var d := OwnDecision(s, b, a, pick);
    assert Key(d.org, d.brief) == b;
    assert DecideTarget(s, d);
    OwnBudget(s, b, d, pick);
    assert DecideRefusal(s, d, pick) == None;
  }

  lemma OwnBudget(s: Store, b: Key, d: DecideArgs, pick: Option<nat>)
    requires b in s.briefs && s.briefs[b].run in s.rows && Payable(s.rows[s.briefs[b].run], pick, CeilingOf(s, s.briefs[b]))
    requires d.min == d.max == AmountOf(s.rows[s.briefs[b].run], pick)
    ensures !BudgetRefused(PickedCost(s.rows[s.briefs[b].run], pick), CeilingOf(s, s.briefs[b]), d.min, d.max) && 0 < d.min
    ensures pick.Some? ==> pick.value in s.rows[s.briefs[b].run].costs && !CostOverflows(s.rows[s.briefs[b].run].costs[pick.value])
  {
    hide CostInCny;
  }
}
