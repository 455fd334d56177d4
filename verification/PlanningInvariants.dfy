// What every function of the planning tables keeps, in every reachable state.
module PlanningInvariants {
  import opened Sql
  import opened PlanningOutput
  import opened Idempotency
  import opened Planning

  predicate PastPlanning(state: CaseState) {
    state != Intake && state != InPlanning
  }

  // The case has reached the family: it has an approved brief.
  predicate Settled(state: CaseState) {
    state == InFamilyReview || state == PlanReady
  }

  // Revisions of a case are exactly 1 to its current one; `decided` never outlives a call.
  ghost predicate CasesOk(s: Store) {
    && (forall c :: c in s.cases ==> s.cases[c].revision >= 1 && s.cases[c].state != Decided)
    && (forall k :: k in s.revisions <==> k.caseKey in s.cases && 1 <= k.revision <= s.cases[k.caseKey].revision)
  }

  // All runs are finished, pinned to rows that exist, and a case has at most one current run.
  ghost predicate RunsOk(s: Store) {
    && s.rows.Keys == s.runs.Keys
    && (forall r :: r in s.runs ==>
          var run := s.runs[r];
          && IsTerminalRun(run.state) && run.pack in s.packs
          && r.org == run.caseKey.org == run.pack.org
          && RevisionKey(run.caseKey, run.revision) in s.revisions)
    && (forall q, r | q in s.runs && r in s.runs && s.runs[q].current && s.runs[r].current ::
          s.runs[q].caseKey == s.runs[r].caseKey ==> q == r)
  }

  // Every supersession points down in rank, so no chain of them ever returns.
  ghost predicate Ranked(runs: map<Key, Run>, rank: map<Key, nat>) {
    && rank.Keys == runs.Keys
    && forall r :: r in runs && runs[r].supersedes.Some? ==>
         runs[r].supersedes.value in runs && rank[runs[r].supersedes.value] < rank[r]
  }

  ghost predicate ChainsOk(s: Store) {
    && (forall r :: r in s.runs && s.runs[r].supersedes.Some? ==>
          s.runs[r].supersedes.value in s.runs && !s.runs[s.runs[r].supersedes.value].current)
    && (forall q, r | q in s.runs && r in s.runs && s.runs[q].supersedes.Some? ::
          s.runs[q].supersedes == s.runs[r].supersedes ==> q == r)
    && exists rank :: Ranked(s.runs, rank)
  }

  predicate Reviewed(reviews: map<Key, Review>, r: Key) {
    exists a :: a in reviews && reviews[a].run == r
  }

  predicate SentBack(reviews: map<Key, Review>, r: Key) {
    exists a :: a in reviews && reviews[a].run == r && reviews[a].action != Approve
  }

  // A handed-off run that no advisor has sent back.
  predicate IsOpen(s: Store, r: Key)
    ensures IsOpen(s, r) ==> r in s.runs
  {
    r in s.runs && s.runs[r].state == ReviewRequired && !SentBack(s.reviews, r)
  }

  // A review belongs to a handed-off run of its case and revision, and is the run's first.
  ghost predicate ReviewAgrees(s: Store, a: Key)
    requires a in s.reviews
  {
    var review := s.reviews[a];
    && review.run in s.runs && s.runs[review.run].state == ReviewRequired
    && s.runs[review.run].caseKey == review.caseKey && s.runs[review.run].revision == review.revision
    && a.org == review.caseKey.org && review.version == 1 && review.action != OtherAction
    && (review.action == Approve ==> review.caseKey in s.cases && Settled(s.cases[review.caseKey].state))
  }

  ghost predicate ReviewsOk(s: Store) {
    && (forall a :: a in s.reviews ==> ReviewAgrees(s, a))
    && (forall a, b :: a in s.reviews && b in s.reviews && s.reviews[a].run == s.reviews[b].run ==> a == b)
  }

  // A case is past planning exactly when one handed-off run is open, and then only one is.
  ghost predicate HandoffOk(s: Store) {
    && (forall r :: IsOpen(s, r) ==> s.runs[r].caseKey in s.cases && PastPlanning(s.cases[s.runs[r].caseKey].state))
    && (forall q, r :: IsOpen(s, q) && IsOpen(s, r) && s.runs[q].caseKey == s.runs[r].caseKey ==> q == r)
    && (forall c :: c in s.cases && PastPlanning(s.cases[c].state) ==> exists r :: IsOpen(s, r) && s.runs[r].caseKey == c)
    && (forall r | r in s.runs && s.runs[r].current && s.runs[r].caseKey in s.cases ::
          s.cases[s.runs[r].caseKey].state == InAdvisorReview ==> s.runs[r].state == ReviewRequired && !Reviewed(s.reviews, r))
  }

  // A brief repeats the pins of its run and review, and its projection is the one recomputed from them.
  ghost predicate BriefAgrees(s: Store, b: Key)
    requires b in s.briefs
  {
    var brief := s.briefs[b];
    && b.org == brief.caseKey.org && brief.version == 1
    && brief.review in s.reviews && brief.run in s.runs && brief.run in s.rows
    && (var review := s.reviews[brief.review];
        && review.action == Approve && review.run == brief.run
        && review.caseKey == brief.caseKey && review.revision == brief.revision
        && (forall i :: 0 <= i < |review.eligible| ==> Eligible(s.rows[brief.run], review.eligible[i]))
        && review.eligible != [] && DistinctIds(review.eligible)
        && (var pinned := RevisionKey(brief.caseKey, brief.revision);
            && pinned in s.revisions && s.revisions[pinned].intake.Some?
            && brief.projection == CanonicalProjection(s.rows[brief.run], review.eligible, review.risks, s.revisions[pinned].intake.value)))
    && (var run := s.runs[brief.run];
        && run.caseKey == brief.caseKey && run.revision == brief.revision && run.policy == brief.policy && run.pack == brief.pack
        && run.evidenceHash == brief.evidenceHash && run.outputHash == Some(brief.outputHash))
  }

  // One brief per case that reached the family, current exactly while the family decides.
  ghost predicate BriefsOk(s: Store) {
    && (forall b :: b in s.briefs ==>
          && BriefAgrees(s, b)
          && s.briefs[b].caseKey in s.cases
          && Settled(s.cases[s.briefs[b].caseKey].state)
          && (s.briefs[b].current <==> s.cases[s.briefs[b].caseKey].state == InFamilyReview))
    && (forall a, b :: a in s.briefs && b in s.briefs && s.briefs[a].caseKey == s.briefs[b].caseKey ==> a == b)
    && (forall c :: c in s.cases && Settled(s.cases[c].state) ==> exists b :: b in s.briefs && s.briefs[b].caseKey == c)
  }

  // What the budget test of a decision guarantees: each bound holds for the facts that exist.
  ghost predicate BudgetAgrees(s: Store, d: Decision) {
    && d.brief in s.briefs && d.run in s.rows
    && var brief := s.briefs[d.brief];
       var pinned := RevisionKey(brief.caseKey, brief.revision);
       && pinned in s.revisions
       && (forall ceiling :: s.revisions[pinned].hardCeiling == Some(ceiling) ==> d.max <= ceiling)
       && ((exists k :: IsAustralianCost(s.rows[d.run], k)) ==>
             exists k :: IsAustralianCost(s.rows[d.run], k) && d.min <= CostInCny(s.rows[d.run].costs[k]) <= d.max)
  }

  ghost predicate DecisionAgrees(s: Store, d: Key)
    requires d in s.decisions
  {
    var decision := s.decisions[d];
    && d.org == decision.caseKey.org
    && decision.brief in s.briefs
    && (var brief := s.briefs[decision.brief];
        && brief.caseKey == decision.caseKey && brief.run == decision.run
        && brief.review in s.reviews && decision.route in s.reviews[brief.review].eligible)
    && 0 < decision.min <= decision.max
    && "budget_elasticity" in decision.tradeOffs
    && BudgetAgrees(s, decision)
  }

  ghost predicate TimelineAgrees(s: Store, t: Key)
    requires t in s.timelines
  {
    var timeline := s.timelines[t];
    && timeline.decision in s.decisions
    && s.decisions[timeline.decision].brief in s.briefs
    && var brief := s.briefs[s.decisions[timeline.decision].brief];
       var pinned := RevisionKey(brief.caseKey, brief.revision);
       && pinned in s.revisions && s.revisions[pinned].intake == Some(timeline.intake)
       && SupportedIntake(timeline.intake) && timeline.milestones == Milestones(YearOf(timeline.intake))
  }

  // One decision with one timeline for every case that is plan ready, and for no other.
  ghost predicate DecisionsOk(s: Store) {
    && (forall d :: d in s.decisions ==>
          && DecisionAgrees(s, d)
          && s.decisions[d].caseKey in s.cases && s.cases[s.decisions[d].caseKey].state == PlanReady)
    && (forall d, e :: d in s.decisions && e in s.decisions && s.decisions[d].caseKey == s.decisions[e].caseKey ==> d == e)
    && (forall c :: c in s.cases && s.cases[c].state == PlanReady ==> exists d :: d in s.decisions && s.decisions[d].caseKey == c)
    && (forall t :: t in s.timelines ==> TimelineAgrees(s, t))
    && (forall t, u :: t in s.timelines && u in s.timelines && s.timelines[t].decision == s.timelines[u].decision ==> t == u)
    && (forall d :: d in s.decisions ==> exists t :: t in s.timelines && s.timelines[t].decision == d)
  }

  // Evidence rows pass the provenance trigger, and a claim has one evidence row per pack version.
  ghost predicate EvidenceOk(s: Store) {
    && (forall k :: k in s.entries ==> k.pack in s.packs)
    && (forall k :: k in s.evidence ==>
          Provenance(s.entries, s.evidence[k]) && k.org == s.evidence[k].pack.org && IsSha256(s.evidence[k].sha256))
    && (forall j, k | j in s.evidence && k in s.evidence && s.evidence[j].pack == s.evidence[k].pack ::
          s.evidence[j].claim == s.evidence[k].claim ==> j == k)
  }

  // Stored rows only lean on evidence of the run's own pack, with the claim their role asks for.
  ghost predicate RowsProven(claims: Claims, rows: Rows) {
    && (forall l :: l in rows.links ==> LinkValid(claims, l.evidence, l.role))
    && (forall k :: k in rows.costs ==> CostProvenance(claims, rows.costs[k]) && CostValid(rows.costs[k]))
    && (forall k :: k in rows.rankings ==> Supports(claims, rows.rankings[k].evidence, "australia_ranking"))
    && (forall j, k :: j in rows.routes && k in rows.routes && rows.routes[j].country == rows.routes[k].country ==> j == k)
  }

  ghost predicate OutputsOk(s: Store) {
    forall r :: r in s.runs && r in s.rows ==> RowsProven(ClaimsOf(s.evidence, s.runs[r].pack), s.rows[r])
  }

  ghost predicate RecordsOk(s: Store) {
    && Bijective(s.records, AdvisorReview, s.reviews.Keys)
    && Bijective(s.records, FamilyDecision, s.decisions.Keys)
  }

  // The risks of a review are on record one by one, and each concerns evidence of the run's pack
  // that the reviewed rows lean on.
  ghost predicate RisksAgree(s: Store, a: Key)
    requires a in s.reviews
  {
    var review := s.reviews[a];
    && review.run in s.runs && review.run in s.rows
    && forall i :: 0 <= i < |review.risks| ==>
         && RiskValid(s, review.run, review.risks[i])
         && Acceptance(a, review.risks[i].evidence, review.risks[i].kind, review.risks[i].reason) in s.acceptances
  }

  // Accepted risks are exactly those of the reviews, and a brief's source date is the latest
  // snapshot of its pack: the entries of a stored pack never change.
  ghost predicate PinnedOk(s: Store) {
    && (forall a :: a in s.reviews ==> RisksAgree(s, a))
    && (forall x :: x in s.acceptances ==> x.review in s.reviews && Risk(x.evidence, x.kind, x.reason) in s.reviews[x.review].risks)
    && (forall b :: b in s.briefs ==> s.briefs[b].pack in s.packs && IsSourceDate(s.entries, s.briefs[b].pack, Some(s.briefs[b].sourceDate)))
  }

  ghost predicate Inv(s: Store) {
    && CasesOk(s) && RunsOk(s) && ChainsOk(s) && ReviewsOk(s) && HandoffOk(s) && BriefsOk(s) && DecisionsOk(s)
    && EvidenceOk(s) && OutputsOk(s) && RecordsOk(s) && PinnedOk(s)
  }

  lemma InvParts(s: Store)
    requires Inv(s)
    ensures CasesOk(s) && RunsOk(s) && ChainsOk(s) && ReviewsOk(s) && HandoffOk(s) && BriefsOk(s) && DecisionsOk(s)
    ensures EvidenceOk(s) && OutputsOk(s) && RecordsOk(s) && PinnedOk(s)
  {
    hide CasesOk, RunsOk, ChainsOk, ReviewsOk, HandoffOk, BriefsOk, DecisionsOk, EvidenceOk, OutputsOk, RecordsOk, PinnedOk;
  }

  lemma EmptyInv()
    ensures Inv(EMPTY)
  {
    hide CasesOk, RunsOk, ChainsOk, ReviewsOk, HandoffOk, BriefsOk, DecisionsOk, EvidenceOk, OutputsOk, RecordsOk, PinnedOk;
    EmptyCases();
    EmptyBriefs();
    EmptyEvidence();
  }

  lemma EmptyCases()
    ensures CasesOk(EMPTY) && RunsOk(EMPTY) && ChainsOk(EMPTY) && ReviewsOk(EMPTY) && HandoffOk(EMPTY)
  {
    assert Ranked(EMPTY.runs, map[]);
  }

  lemma EmptyBriefs()
    ensures BriefsOk(EMPTY) && DecisionsOk(EMPTY)
  {
    hide BriefAgrees, DecisionAgrees, TimelineAgrees;
  }

  lemma EmptyEvidence()
    ensures EvidenceOk(EMPTY) && OutputsOk(EMPTY) && RecordsOk(EMPTY) && PinnedOk(EMPTY)
  {
    hide RowsProven, Provenance, RisksAgree, IsSourceDate;
  }

  // ------------------------------------------------------------------ steps beside the review path

  // Entries are only added, and only to packs that were not there.
  ghost predicate EntriesFrozen(s: Store, t: Store) {
    && (forall k :: k in s.entries ==> k in t.entries && t.entries[k] == s.entries[k])
    && (forall k :: k in t.entries && k.pack in s.packs ==> k in s.entries)
  }

  // No run, review, brief, decision or timeline changes; cases only start or enter planning,
  // and revisions, packs, entries and evidence only grow.
  ghost predicate Beside(s: Store, t: Store) {
    && t.runs == s.runs && t.rows == s.rows && t.reviews == s.reviews && t.briefs == s.briefs
    && t.decisions == s.decisions && t.timelines == s.timelines && t.acceptances == s.acceptances && EntriesFrozen(s, t)
    && (forall c :: c in s.cases ==>
          c in t.cases && (t.cases[c].state == s.cases[c].state || (s.cases[c].state == Intake && t.cases[c].state == InPlanning)))
    && (forall c :: c in t.cases && c !in s.cases ==> t.cases[c].state == Intake)
    && (forall k :: k in s.revisions ==> k in t.revisions && t.revisions[k] == s.revisions[k])
    && s.packs.Keys <= t.packs.Keys
    && (forall k :: k in s.evidence ==> k in t.evidence && t.evidence[k] == s.evidence[k])
  }

  lemma BesideRuns(s: Store, t: Store)
    requires Beside(s, t) && RunsOk(s) && ChainsOk(s)
    ensures RunsOk(t) && ChainsOk(t)
  {
    var rank :| Ranked(s.runs, rank);
    assert Ranked(t.runs, rank);
  }

  lemma SameOpen(s: Store, t: Store, r: Key)
    requires t.runs == s.runs && t.reviews == s.reviews
    ensures Reviewed(t.reviews, r) == Reviewed(s.reviews, r) && IsOpen(t, r) == IsOpen(s, r)
  {
  }

  lemma BesideReviews(s: Store, t: Store)
    requires Beside(s, t) && ReviewsOk(s)
    ensures ReviewsOk(t)
  {
  }

  lemma BesideHandoff(s: Store, t: Store)
    requires Beside(s, t) && RunsOk(s) && CasesOk(s) && HandoffOk(s)
    ensures HandoffOk(t)
  {
    hide IsOpen, Reviewed, RunsOk, CasesOk;
    forall r
      ensures IsOpen(t, r) == IsOpen(s, r)
    {
      SameOpen(s, t, r);
    }
    BesideOpenExists(s, t);
    forall r | IsOpen(t, r)
      ensures t.runs[r].caseKey in t.cases && PastPlanning(t.cases[t.runs[r].caseKey].state)
    {
      assert IsOpen(s, r);
    }
    forall r | r in t.runs && t.runs[r].current && t.runs[r].caseKey in t.cases && t.cases[t.runs[r].caseKey].state == InAdvisorReview
      ensures t.runs[r].state == ReviewRequired && !Reviewed(t.reviews, r)
    {
      BesideCase(s, t, t.runs[r].caseKey);
    }
  }

  lemma BesideCase(s: Store, t: Store, c: Key)
    requires Beside(s, t) && c in t.cases && PastPlanning(t.cases[c].state)
    ensures c in s.cases && s.cases[c].state == t.cases[c].state
  {
  }

  lemma BesideOpenExists(s: Store, t: Store)
    requires Beside(s, t) && HandoffOk(s)
    requires forall r :: IsOpen(t, r) == IsOpen(s, r)
    ensures forall c :: c in t.cases && PastPlanning(t.cases[c].state) ==> exists r :: IsOpen(t, r) && t.runs[r].caseKey == c
  {
    hide IsOpen, Reviewed;
    forall c | c in t.cases && PastPlanning(t.cases[c].state)
      ensures exists r :: IsOpen(t, r) && t.runs[r].caseKey == c
    {
      BesideCase(s, t, c);
      var r :| IsOpen(s, r) && s.runs[r].caseKey == c;
      assert IsOpen(t, r);
    }
  }

  // Runs keep everything but their current flag, finished rows stay, no case enters or leaves
  // the family's side, and reviews, briefs, decisions and timelines are the same.
  ghost predicate Kept(s: Store, t: Store) {
    && (forall r :: r in s.runs ==> r in t.runs && t.runs[r] == s.runs[r].(current := t.runs[r].current))
    && (forall r :: r in s.rows ==> r in t.rows && t.rows[r] == s.rows[r])
    && t.reviews == s.reviews && t.briefs == s.briefs && t.decisions == s.decisions && t.timelines == s.timelines
    && (forall c :: c in s.cases && Settled(s.cases[c].state) ==> c in t.cases && t.cases[c].state == s.cases[c].state)
    && (forall c :: c in t.cases && Settled(t.cases[c].state) ==> c in s.cases && t.cases[c].state == s.cases[c].state)
    && (forall k :: k in s.revisions ==> k in t.revisions && t.revisions[k] == s.revisions[k])
  }

  lemma BesideKept(s: Store, t: Store)
    requires Beside(s, t)
    ensures Kept(s, t)
  {
  }

  // Rows are only added; runs and briefs may change nothing but their current flag.
  ghost predicate Extends(s: Store, t: Store) {
    && (forall r :: r in s.runs ==> r in t.runs && t.runs[r] == s.runs[r].(current := t.runs[r].current))
    && (forall r :: r in s.rows ==> r in t.rows && t.rows[r] == s.rows[r])
    && (forall a :: a in s.reviews ==> a in t.reviews && t.reviews[a] == s.reviews[a])
    && (forall b :: b in s.briefs ==> b in t.briefs && t.briefs[b] == s.briefs[b].(current := t.briefs[b].current))
    && (forall d :: d in s.decisions ==> d in t.decisions && t.decisions[d] == s.decisions[d])
    && (forall x :: x in s.timelines ==> x in t.timelines && t.timelines[x] == s.timelines[x])
    && (forall k :: k in s.revisions ==> k in t.revisions && t.revisions[k] == s.revisions[k])
  }

  lemma KeptExtends(s: Store, t: Store)
    requires Kept(s, t)
    ensures Extends(s, t)
  {
  }

  lemma ExtendBrief(s: Store, t: Store, b: Key)
    requires Extends(s, t) && b in s.briefs && BriefAgrees(s, b)
    ensures BriefAgrees(t, b)
  {
    hide CanonicalProjection, Eligible, DistinctIds;
  }

  lemma ExtendDecision(s: Store, t: Store, d: Key)
    requires Extends(s, t) && d in s.decisions && DecisionAgrees(s, d)
    ensures DecisionAgrees(t, d)
  {
    hide IsAustralianCost, CostInCny;
  }

  lemma ExtendTimeline(s: Store, t: Store, x: Key)
    requires Extends(s, t) && x in s.timelines && TimelineAgrees(s, x)
    ensures TimelineAgrees(t, x)
  {
    hide SupportedIntake, Milestones, YearOf;
  }

  lemma KeptBriefs(s: Store, t: Store)
    requires Kept(s, t) && BriefsOk(s)
    ensures BriefsOk(t)
  {
    hide BriefAgrees;
    KeptExtends(s, t);
    forall b | b in t.briefs
      ensures BriefAgrees(t, b)
    {
      ExtendBrief(s, t, b);
    }
    KeptBriefStates(s, t);
  }

  lemma KeptBriefStates(s: Store, t: Store)
    requires Kept(s, t) && BriefsOk(s)
    ensures forall b :: b in t.briefs ==>
              && t.briefs[b].caseKey in t.cases && Settled(t.cases[t.briefs[b].caseKey].state)
              && (t.briefs[b].current <==> t.cases[t.briefs[b].caseKey].state == InFamilyReview)
    ensures forall c :: c in t.cases && Settled(t.cases[c].state) ==> exists b :: b in t.briefs && t.briefs[b].caseKey == c
  {
    hide BriefAgrees;
    forall c | c in t.cases && Settled(t.cases[c].state)
      ensures exists b :: b in t.briefs && t.briefs[b].caseKey == c
    {
      var b :| b in s.briefs && s.briefs[b].caseKey == c;
    }
  }

  // Decisions stand while rows are only added and the same cases are plan ready.
  lemma SameDecisions(s: Store, t: Store)
    requires Extends(s, t) && DecisionsOk(s) && t.decisions == s.decisions && t.timelines == s.timelines
    requires forall c :: c in s.cases && s.cases[c].state == PlanReady ==> c in t.cases && t.cases[c].state == PlanReady
    requires forall c :: c in t.cases && t.cases[c].state == PlanReady ==> c in s.cases && s.cases[c].state == PlanReady
    ensures DecisionsOk(t)
  {
    hide DecisionAgrees, TimelineAgrees, Extends;
    forall d | d in t.decisions
      ensures DecisionAgrees(t, d)
    {
      ExtendDecision(s, t, d);
    }
    forall x | x in t.timelines
      ensures TimelineAgrees(t, x)
    {
      ExtendTimeline(s, t, x);
    }
  }

  lemma KeptDecisions(s: Store, t: Store)
    requires Kept(s, t) && DecisionsOk(s)
    ensures DecisionsOk(t)
  {
    hide DecisionsOk, Extends;
    KeptExtends(s, t);
    forall c | c in s.cases && s.cases[c].state == PlanReady
      ensures c in t.cases && t.cases[c].state == PlanReady
    {
      assert Settled(s.cases[c].state);
    }
    forall c | c in t.cases && t.cases[c].state == PlanReady
      ensures c in s.cases && s.cases[c].state == PlanReady
    {
      assert Settled(t.cases[c].state);
    }
    SameDecisions(s, t);
  }

  lemma MoreClaims(claims: Claims, more: Claims, rows: Rows)
    requires RowsProven(claims, rows)
    requires forall k :: k in claims ==> k in more && more[k] == claims[k]
    ensures RowsProven(more, rows)
  {
    hide LikeProgramFit;
  }

  lemma BesideOutputs(s: Store, t: Store)
    requires Beside(s, t) && OutputsOk(s)
    ensures OutputsOk(t)
  {
    hide RowsProven;
    forall r | r in t.runs && r in t.rows
      ensures RowsProven(ClaimsOf(t.evidence, t.runs[r].pack), t.rows[r])
    {
      MoreClaims(ClaimsOf(s.evidence, s.runs[r].pack), ClaimsOf(t.evidence, s.runs[r].pack), s.rows[r]);
    }
  }

  lemma FrozenDate(s: Store, t: Store, pack: PackKey, date: int)
    requires EntriesFrozen(s, t) && pack in s.packs && IsSourceDate(s.entries, pack, Some(date))
    ensures IsSourceDate(t.entries, pack, Some(date))
  {
  }

  // Pinned facts stay while reviews, their runs' rows and the acceptances stay.
  lemma PinnedStays(s: Store, t: Store)
    requires PinnedOk(s) && EntriesFrozen(s, t) && s.packs.Keys <= t.packs.Keys && t.reviews == s.reviews && t.acceptances == s.acceptances
    requires forall r :: r in s.runs ==> r in t.runs && t.runs[r] == s.runs[r].(current := t.runs[r].current)
    requires forall r :: r in s.rows ==> r in t.rows && t.rows[r] == s.rows[r]
    requires forall k :: k in s.evidence ==> k in t.evidence && t.evidence[k] == s.evidence[k]
    requires t.briefs.Keys == s.briefs.Keys
    requires forall b :: b in s.briefs ==> t.briefs[b].pack == s.briefs[b].pack && t.briefs[b].sourceDate == s.briefs[b].sourceDate
    ensures PinnedOk(t)
  {
    hide RisksAgree, IsSourceDate, EntriesFrozen;
    forall a | a in t.reviews
      ensures RisksAgree(t, a)
    {
      RisksStay(s, t, a);
    }
    forall b | b in t.briefs
      ensures t.briefs[b].pack in t.packs && IsSourceDate(t.entries, t.briefs[b].pack, Some(t.briefs[b].sourceDate))
    {
      FrozenDate(s, t, s.briefs[b].pack, s.briefs[b].sourceDate);
    }
  }

  lemma RisksStay(s: Store, t: Store, a: Key)
    requires a in s.reviews && RisksAgree(s, a) && a in t.reviews && t.reviews[a] == s.reviews[a] && s.acceptances <= t.acceptances
    requires forall r :: r in s.runs ==> r in t.runs && t.runs[r] == s.runs[r].(current := t.runs[r].current)
    requires forall r :: r in s.rows ==> r in t.rows && t.rows[r] == s.rows[r]
    requires forall k :: k in s.evidence ==> k in t.evidence && t.evidence[k] == s.evidence[k]
    ensures RisksAgree(t, a)
  {
    hide UsedBy, IsBlank;
  }

  lemma BesidePinned(s: Store, t: Store)
    requires Beside(s, t) && PinnedOk(s)
    ensures PinnedOk(t)
  {
    hide PinnedOk, EntriesFrozen;
    PinnedStays(s, t);
  }

  // A step beside the review path keeps the whole invariant, given the parts it may touch.
  lemma BesideInv(s: Store, t: Store)
    requires Inv(s) && Beside(s, t) && CasesOk(t) && EvidenceOk(t) && RecordsOk(t)
    ensures Inv(t)
  {
    hide Beside, Kept, CasesOk, RunsOk, ChainsOk, ReviewsOk, HandoffOk, BriefsOk, DecisionsOk, EvidenceOk, OutputsOk, RecordsOk, PinnedOk;
    BesideRuns(s, t);
    BesideReviews(s, t);
    BesideHandoff(s, t);
    BesideKept(s, t);
    KeptBriefs(s, t);
    KeptDecisions(s, t);
    BesideOutputs(s, t);
    BesidePinned(s, t);
  }

  // Publishing never meets an existing revision: an accepted call is exactly the next one.
  lemma PublishKeeps(s: Store, c: Key, expected: Option<int>, revision: int, facts: Revision)
    requires Inv(s)
    ensures var r := PublishRevision(s, c, expected, revision, facts);
            && (r.Ok? <==>
                  && expected == (if c in s.cases then Some(s.cases[c].revision) else None)
                  && revision == (if expected.Some? then expected.value + 1 else 1))
            && (r.Ok? ==> Inv(r.value) && Beside(s, r.value))
  {
    hide RunsOk, ChainsOk, ReviewsOk, HandoffOk, BriefsOk, DecisionsOk, EvidenceOk, OutputsOk, RecordsOk, Beside, PinnedOk;
    var r := PublishRevision(s, c, expected, revision, facts);
    if r.Ok? {
      EvidenceFrame(s, r.value);
      PublishBeside(s, c, expected, revision, facts);
      BesideInv(s, r.value);
    }
  }

  lemma PublishBeside(s: Store, c: Key, expected: Option<int>, revision: int, facts: Revision)
    requires PublishRevision(s, c, expected, revision, facts).Ok?
    ensures Beside(s, PublishRevision(s, c, expected, revision, facts).value)
  {
  }

  lemma EvidenceFrame(s: Store, t: Store)
    requires EvidenceOk(s) && RecordsOk(s)
    requires t.packs == s.packs && t.entries == s.entries && t.evidence == s.evidence
    requires t.records == s.records && t.reviews == s.reviews && t.decisions == s.decisions
    ensures EvidenceOk(t) && RecordsOk(t)
  {
  }

  lemma TransitionKeeps(s: Store, c: Key, expected: CaseState, target: CaseState)
    requires Inv(s)
    ensures var r := TransitionCase(s, c, expected, target);
            && (r.Ok? <==> expected == Intake && target == InPlanning && c in s.cases && s.cases[c].state == Intake)
            && (r.Ok? ==> Inv(r.value) && Beside(s, r.value))
  {
    hide RunsOk, ChainsOk, ReviewsOk, HandoffOk, BriefsOk, DecisionsOk, EvidenceOk, OutputsOk, RecordsOk, PinnedOk;
    var r := TransitionCase(s, c, expected, target);
    if r.Ok? {
      EvidenceFrame(s, r.value);
      BesideInv(s, r.value);
    }
  }

  lemma ParticipantsKeep(s: Store, c: Key, advisor: nat, student: nat, parent: nat)
    requires Inv(s)
    ensures var r := AddParticipants(s, c, advisor, student, parent); r.Ok? ==> Inv(r.value) && Beside(s, r.value)
  {
    hide RunsOk, ChainsOk, ReviewsOk, HandoffOk, BriefsOk, DecisionsOk, EvidenceOk, OutputsOk, RecordsOk, PinnedOk;
    var r := AddParticipants(s, c, advisor, student, parent);
    if r.Ok? {
      EvidenceFrame(s, r.value);
      BesideInv(s, r.value);
    }
  }

  // ------------------------------------------------------------------ packs and evidence

  lemma {:induction false} EntriesAdded(entries: map<EntryKey, Entry>, pack: PackKey, items: seq<NewEntry>)
    requires InsertEntries(entries, pack, items).Ok?
    ensures var after := InsertEntries(entries, pack, items).value;
            && (forall k :: k in entries ==> k in after && after[k] == entries[k])
            && (forall k :: k in after && k !in entries ==> k.pack == pack)
    decreases |items|
  {
    hide EntryValid;
    if items != [] {
      EntriesAdded(entries[EntryKey(pack, items[0].id) := items[0].entry], pack, items[1..]);
    }
  }

  // Packs, entries and evidence only grow, and nothing else changes.
  lemma GrowthBeside(s: Store, t: Store)
    requires t == s.(packs := t.packs, entries := t.entries, evidence := t.evidence, records := t.records)
    requires s.packs.Keys <= t.packs.Keys && EntriesFrozen(s, t)
    requires forall k :: k in s.evidence ==> k in t.evidence && t.evidence[k] == s.evidence[k]
    ensures Beside(s, t)
  {
  }

  lemma PackKeeps(s: Store, pack: PackKey, manifest: string, items: seq<NewEntry>)
    requires Inv(s)
    ensures var r := PersistPack(s, pack, manifest, items); r.Ok? ==> Inv(r.value) && Beside(s, r.value)
  {
    hide CasesOk, RunsOk, ChainsOk, ReviewsOk, HandoffOk, BriefsOk, DecisionsOk, OutputsOk, RecordsOk, InsertEntries, IsSha256, Beside, PinnedOk;
    var r := PersistPack(s, pack, manifest, items);
    if r.Ok? {
      EntriesAdded(s.entries, pack, items);
      RecordsFrame(s, r.value);
      GrowthBeside(s, r.value);
      CasesFrame(s, r.value);
      BesideInv(s, r.value);
    }
  }

  lemma CasesFrame(s: Store, t: Store)
    requires CasesOk(s) && t.cases == s.cases && t.revisions == s.revisions
    ensures CasesOk(t)
  {
  }

  lemma RecordsFrame(s: Store, t: Store)
    requires RecordsOk(s) && t.records == s.records && t.reviews == s.reviews && t.decisions == s.decisions
    ensures RecordsOk(t)
  {
  }

  lemma EvidenceKeeps(s: Store, id: Key, e: Evidence)
    requires Inv(s)
    ensures var r := PersistEvidence(s, id, e); r.Ok? ==> Inv(r.value) && Beside(s, r.value)
  {
    hide CasesOk, RunsOk, ChainsOk, ReviewsOk, HandoffOk, BriefsOk, DecisionsOk, OutputsOk, RecordsOk, IsSha256, Beside, Provenance, PinnedOk;
    var r := PersistEvidence(s, id, e);
    if r.Ok? {
      RecordsFrame(s, r.value);
      GrowthBeside(s, r.value);
      CasesFrame(s, r.value);
      BesideInv(s, r.value);
    }
  }
}
