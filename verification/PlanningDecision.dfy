// Advisor reviews and family decisions: exactly when they succeed and what they keep.
module PlanningDecision {
  import opened Sql
  import opened PlanningOutput
  import opened Idempotency
  import opened Planning
  import opened PlanningInvariants

  // ------------------------------------------------------------------ review

  predicate ReviewAllowed(s: Store, a: ReviewArgs, date: Option<int>) {
    && Participant(Key(a.org, a.caseId), a.actor, Advisor) in s.participants
    && ReviewTarget(s, a)
    && ReviewRefusal(s, a, date) == None
    && |a.key| == 64 && |a.request| == 64
  }

  function NextState(a: ReviewArgs): CaseState {
    if a.action == Approve then InFamilyReview else InPlanning
  }

  // The tables after a new review: the review, its accepted risks, the brief, the case, the record.
  function AfterReview(s: Store, a: ReviewArgs, date: Option<int>, version: nat): Store
    requires ReviewAllowed(s, a, date)
  {
    var c := Key(a.org, a.caseId);
    var t := WithReview(s, a, date, version);
    t.(cases := s.cases[c := Case(NextState(a), a.revision)],
       records := Insert(s.records, ReviewKey(a), a.request, Key(a.org, a.review)))
  }

  // A run under review has never been reviewed, so the computed version is always one.
  lemma FirstReview(s: Store, a: ReviewArgs, version: nat)
    requires HandoffOk(s) && ReviewTarget(s, a) && NextReviewVersion(s.reviews, Key(a.org, a.run), version)
    ensures version == 1 && !Reviewed(s.reviews, Key(a.org, a.run)) && IsOpen(s, Key(a.org, a.run))
  {
    var r := Key(a.org, a.run);
    assert !Reviewed(s.reviews, r);
    assert SentBack(s.reviews, r) || version > 1 ==> Reviewed(s.reviews, r);
  }

  // What a review that is not refused has shown.
  lemma NotRefused(s: Store, a: ReviewArgs, date: Option<int>)
    requires ReviewTarget(s, a) && ReviewRefusal(s, a, date) == None
    ensures a.action != OtherAction && Key(a.org, a.review) !in s.reviews && date.Some?
    ensures var pinned := RevisionKey(Key(a.org, a.caseId), a.revision);
            pinned in s.revisions && s.revisions[pinned].intake.Some?
    ensures DistinctIds(a.eligible)
    ensures forall i :: 0 <= i < |a.risks| ==> RiskValid(s, Key(a.org, a.run), a.risks[i])
    ensures a.action != Approve ==> a.eligible == [] && a.risks == []
    ensures a.action == Approve ==>
              && a.brief.Some? && Key(a.org, a.brief.value) !in s.briefs && s.runs[Key(a.org, a.run)].outputHash.Some?
              && a.eligible != [] && (forall i :: 0 <= i < |a.eligible| ==> Eligible(s.rows[Key(a.org, a.run)], a.eligible[i]))
  {
    hide CanonicalProjection, DistinctRisks, Eligible, RiskValid, DistinctIds;
  }

  lemma GuardFindsBrief(t: Store, c: Key, b: Key)
    requires c in t.cases && t.cases[c].state == InAdvisorReview
    requires b in t.briefs && t.briefs[b].caseKey == c && t.briefs[b].revision == t.cases[c].revision && t.briefs[b].current
    ensures GuardCase(t, c, InFamilyReview)
  {
  }

  lemma GuardFindsReview(t: Store, c: Key, a: Key)
    requires c in t.cases && t.cases[c].state == InAdvisorReview
    requires a in t.reviews && t.reviews[a].caseKey == c && t.reviews[a].revision == t.cases[c].revision
    requires t.reviews[a].action in {Reject, RequestRevision} && t.reviews[a].run in t.runs && t.runs[t.reviews[a].run].current
    ensures GuardCase(t, c, InPlanning)
  {
  }

  // The case guard always finds what the same call has just written.
  lemma ReviewMoves(s: Store, a: ReviewArgs, date: Option<int>, version: nat)
    requires ReviewTarget(s, a) && ReviewRefusal(s, a, date) == None
    ensures var t := WithReview(s, a, date, version);
            && t.records == s.records
            && MoveCase(t, Key(a.org, a.caseId), InAdvisorReview, NextState(a))
               == Ok(t.(cases := s.cases[Key(a.org, a.caseId) := Case(NextState(a), a.revision)]))
  {
    hide CanonicalProjection, DistinctIds, DistinctRisks, Eligible, RiskValid, GuardCase, ReviewRefusal, AcceptancesOf, NewBrief;
    NotRefused(s, a, date);
    GuardAdmits(s, a, date, version);
  }

  lemma GuardAdmits(s: Store, a: ReviewArgs, date: Option<int>, version: nat)
    requires ReviewTarget(s, a) && ReviewRefusal(s, a, date) == None
    ensures GuardCase(WithReview(s, a, date, version), Key(a.org, a.caseId), NextState(a))
  {
    hide CanonicalProjection, DistinctIds, DistinctRisks, Eligible, RiskValid, GuardCase, ReviewRefusal, AcceptancesOf;
    NotRefused(s, a, date);
    var c := Key(a.org, a.caseId);
    var t := WithReview(s, a, date, version);
    if a.action == Approve {
      assert t.briefs[Key(a.org, a.brief.value)] == NewBrief(s, a, date.value);
      GuardFindsBrief(t, c, Key(a.org, a.brief.value));
    } else {
      assert t.reviews[Key(a.org, a.review)] == NewReview(a, version);
      GuardFindsReview(t, c, Key(a.org, a.review));
    }
  }

  // A first call with a key succeeds exactly when the review is allowed.
  lemma ReviewExactly(s: Store, a: ReviewArgs, date: Option<int>, version: nat)
    requires ReviewKey(a) !in s.records
    ensures ReviewRun(s, a, date, version).Ok? <==> ReviewAllowed(s, a, date)
    ensures ReviewRun(s, a, date, version).Ok? ==>
              ReviewRun(s, a, date, version).value == (AfterReview(s, a, date, version), Reply(Key(a.org, a.review), false))
  {
    hide ReviewTarget, ReviewRefusal, WithReview, MoveCase;
    if Participant(Key(a.org, a.caseId), a.actor, Advisor) in s.participants && ReviewTarget(s, a) && ReviewRefusal(s, a, date) == None {
      ReviewMoves(s, a, date, version);
    }
  }

  // ------------------------------------------------------------------ what a review keeps

  // The part of the change that the invariants read.
  ghost predicate ReviewStep(s: Store, a: ReviewArgs, t: Store) {
    var c, r, id := Key(a.org, a.caseId), Key(a.org, a.run), Key(a.org, a.review);
    && r in s.runs && r in s.rows && s.runs[r].caseKey == c && s.runs[r].revision == a.revision
    && s.runs[r].state == ReviewRequired && s.runs[r].current
    && CaseAt(s, c, a.revision, InAdvisorReview)
    && id !in s.reviews && a.action != OtherAction
    && t.reviews == s.reviews[id := NewReview(a, 1)]
    && t.cases == s.cases[c := Case(NextState(a), a.revision)]
    && t.runs == s.runs && t.rows == s.rows && t.revisions == s.revisions && t.packs == s.packs && t.entries == s.entries
    && t.evidence == s.evidence && t.decisions == s.decisions && t.timelines == s.timelines
    && t.acceptances == s.acceptances + AcceptancesOf(a)
    && ReviewKey(a) !in s.records && t.records == Insert(s.records, ReviewKey(a), a.request, id)
    && (if a.action == Approve then
          && a.brief.Some? && Key(a.org, a.brief.value) !in s.briefs
          && Key(a.org, a.brief.value) in t.briefs
          && t.briefs == s.briefs[Key(a.org, a.brief.value) := t.briefs[Key(a.org, a.brief.value)]]
        else t.briefs == s.briefs)
  }

  lemma ReviewShape(s: Store, a: ReviewArgs, date: Option<int>)
    requires ReviewAllowed(s, a, date) && ReviewKey(a) !in s.records
    ensures ReviewStep(s, a, AfterReview(s, a, date, 1))
  {
    hide CanonicalProjection, DistinctIds, DistinctRisks, Eligible, RiskValid, GuardCase, ReviewRefusal, AcceptancesOf;
    NotRefused(s, a, date);
  }

  lemma NewBriefAgrees(s: Store, a: ReviewArgs, date: Option<int>)
    requires ReviewAllowed(s, a, date) && a.action == Approve
    ensures a.brief.Some? && Key(a.org, a.brief.value) in AfterReview(s, a, date, 1).briefs
    ensures BriefAgrees(AfterReview(s, a, date, 1), Key(a.org, a.brief.value))
    ensures AfterReview(s, a, date, 1).briefs[Key(a.org, a.brief.value)].current
    ensures AfterReview(s, a, date, 1).briefs[Key(a.org, a.brief.value)].caseKey == Key(a.org, a.caseId)
  {
    hide CanonicalProjection, DistinctIds, DistinctRisks, Eligible, RiskValid, GuardCase, ReviewRefusal, AcceptancesOf;
    NotRefused(s, a, date);
    var b := Key(a.org, a.brief.value);
    assert AfterReview(s, a, date, 1).briefs[b] == NewBrief(s, a, date.value);
    assert AfterReview(s, a, date, 1).reviews[Key(a.org, a.review)] == NewReview(a, 1);
  }

  lemma ReviewOpen(s: Store, a: ReviewArgs, t: Store, q: Key)
    requires ReviewStep(s, a, t)
    ensures q != Key(a.org, a.run) ==> Reviewed(t.reviews, q) == Reviewed(s.reviews, q) && IsOpen(t, q) == IsOpen(s, q)
    ensures q == Key(a.org, a.run) ==> IsOpen(t, q) == (IsOpen(s, q) && a.action == Approve)
  {
    var id := Key(a.org, a.review);
    if q != Key(a.org, a.run) {
      assert forall x :: x in t.reviews && t.reviews[x].run == q ==> x in s.reviews && s.reviews[x] == t.reviews[x];
      assert forall x :: x in s.reviews ==> x in t.reviews && t.reviews[x] == s.reviews[x];
    } else {
      assert t.reviews[id].run == q;
      assert forall x :: x in s.reviews ==> x in t.reviews && t.reviews[x] == s.reviews[x];
      assert forall x :: x in t.reviews && x != id ==> x in s.reviews && s.reviews[x] == t.reviews[x];
    }
  }

  lemma ReviewReviews(s: Store, a: ReviewArgs, t: Store)
    requires ReviewsOk(s) && HandoffOk(s) && RunsOk(s) && ReviewStep(s, a, t)
    ensures ReviewsOk(t)
  {
    hide HandoffOk, ReviewAgrees, RunsOk;
    ReviewOnce(s, a, t);
    forall x | x in t.reviews
      ensures ReviewAgrees(t, x)
    {
      if x == Key(a.org, a.review) {
        NewReviewAgrees(s, a, t);
      } else {
        OldReviewAgrees(s, a, t, x);
      }
    }
  }

  lemma NewReviewAgrees(s: Store, a: ReviewArgs, t: Store)
    requires RunsOk(s) && ReviewStep(s, a, t)
    ensures ReviewAgrees(t, Key(a.org, a.review))
  {
    assert t.reviews[Key(a.org, a.review)] == NewReview(a, 1);
  }

  lemma OldReviewAgrees(s: Store, a: ReviewArgs, t: Store, x: Key)
    requires x in s.reviews && ReviewAgrees(s, x) && ReviewStep(s, a, t)
    ensures ReviewAgrees(t, x)
  {
    assert t.reviews[x] == s.reviews[x];
  }

  lemma ReviewOnce(s: Store, a: ReviewArgs, t: Store)
    requires ReviewsOk(s) && HandoffOk(s) && ReviewStep(s, a, t)
    ensures forall x, y :: x in t.reviews && y in t.reviews && t.reviews[x].run == t.reviews[y].run ==> x == y
  {
    hide IsOpen;
    var id, r := Key(a.org, a.review), Key(a.org, a.run);
    assert !Reviewed(s.reviews, r);
    assert forall x :: x in s.reviews ==> s.reviews[x].run != r;
    assert t.reviews[id].run == r;
    assert forall x :: x in t.reviews && x != id ==> x in s.reviews && t.reviews[x] == s.reviews[x];
  }

  lemma ReviewHandoff(s: Store, a: ReviewArgs, t: Store)
    requires HandoffOk(s) && RunsOk(s) && ReviewStep(s, a, t)
    ensures HandoffOk(t)
  {
    hide IsOpen, Reviewed, RunsOk;
    var c, r := Key(a.org, a.caseId), Key(a.org, a.run);
    assert IsOpen(s, r) by { CurrentIsOpen(s, r); }
    forall q
      ensures q != r ==> Reviewed(t.reviews, q) == Reviewed(s.reviews, q) && IsOpen(t, q) == IsOpen(s, q)
      ensures q == r ==> IsOpen(t, q) == (a.action == Approve)
    {
      ReviewOpen(s, a, t, q);
    }
    ReviewOpenExists(s, a, t);
    forall q | IsOpen(t, q)
      ensures IsOpen(s, q) && (a.action != Approve ==> s.runs[q].caseKey != c)
    {
    }
    forall q | q in t.runs && t.runs[q].current && t.runs[q].caseKey in t.cases && t.cases[t.runs[q].caseKey].state == InAdvisorReview
      ensures t.runs[q].state == ReviewRequired && !Reviewed(t.reviews, q)
    {
      assert t.runs[q].caseKey != c;
    }
  }

  lemma CurrentIsOpen(s: Store, r: Key)
    requires HandoffOk(s) && r in s.runs && s.runs[r].current && s.runs[r].caseKey in s.cases
    requires s.cases[s.runs[r].caseKey].state == InAdvisorReview
    ensures IsOpen(s, r) && !Reviewed(s.reviews, r)
  {
    assert !Reviewed(s.reviews, r);
    assert SentBack(s.reviews, r) ==> Reviewed(s.reviews, r);
  }

  lemma ReviewOpenExists(s: Store, a: ReviewArgs, t: Store)
    requires HandoffOk(s) && ReviewStep(s, a, t)
    requires forall q :: q != Key(a.org, a.run) ==> IsOpen(t, q) == IsOpen(s, q)
    requires IsOpen(t, Key(a.org, a.run)) == (a.action == Approve)
    ensures forall d :: d in t.cases && PastPlanning(t.cases[d].state) ==> exists q :: IsOpen(t, q) && t.runs[q].caseKey == d
  {
    hide IsOpen, Reviewed;
    var c, r := Key(a.org, a.caseId), Key(a.org, a.run);
    forall d | d in t.cases && PastPlanning(t.cases[d].state)
      ensures exists q :: IsOpen(t, q) && t.runs[q].caseKey == d
    {
      if d == c {
        assert IsOpen(t, r);
      } else {
        var q :| IsOpen(s, q) && s.runs[q].caseKey == d;
        assert IsOpen(t, q);
      }
    }
  }

  lemma ReviewExtends(s: Store, a: ReviewArgs, t: Store)
    requires ReviewStep(s, a, t)
    ensures Extends(s, t)
  {
    if a.action == Approve {
      assert forall b :: b in s.briefs ==> b in t.briefs && t.briefs[b] == s.briefs[b];
    }
  }

  ghost predicate NewBriefIn(a: ReviewArgs, t: Store) {
    a.action == Approve ==>
      && a.brief.Some? && Key(a.org, a.brief.value) in t.briefs
      && BriefAgrees(t, Key(a.org, a.brief.value))
      && t.briefs[Key(a.org, a.brief.value)].current && t.briefs[Key(a.org, a.brief.value)].caseKey == Key(a.org, a.caseId)
  }

  // The case had no brief before: briefs belong to cases that reached the family.
  lemma ReviewBriefs(s: Store, a: ReviewArgs, t: Store)
    requires BriefsOk(s) && ReviewStep(s, a, t) && NewBriefIn(a, t)
    ensures BriefsOk(t)
  {
    hide BriefAgrees, Extends;
    ReviewBriefRows(s, a, t);
    ReviewOneBrief(s, a, t);
    ReviewBriefStates(s, a, t);
  }

  lemma ReviewBriefRows(s: Store, a: ReviewArgs, t: Store)
    requires BriefsOk(s) && ReviewStep(s, a, t) && NewBriefIn(a, t)
    ensures forall b :: b in t.briefs ==> BriefAgrees(t, b)
  {
    hide BriefAgrees, Extends;
    ReviewExtends(s, a, t);
    forall b | b in t.briefs
      ensures BriefAgrees(t, b)
    {
      if b in s.briefs {
        ExtendBrief(s, t, b);
      }
    }
  }

  lemma ReviewOneBrief(s: Store, a: ReviewArgs, t: Store)
    requires BriefsOk(s) && ReviewStep(s, a, t) && NewBriefIn(a, t)
    ensures forall b, d :: b in t.briefs && d in t.briefs && t.briefs[b].caseKey == t.briefs[d].caseKey ==> b == d
  {
    hide BriefAgrees;
    assert forall b :: b in s.briefs ==> s.briefs[b].caseKey != Key(a.org, a.caseId);
    assert forall b :: b in t.briefs && (a.action != Approve || b != Key(a.org, a.brief.value)) ==> b in s.briefs && t.briefs[b] == s.briefs[b];
  }

  lemma ReviewBriefStates(s: Store, a: ReviewArgs, t: Store)
    requires BriefsOk(s) && ReviewStep(s, a, t) && NewBriefIn(a, t)
    ensures forall b :: b in t.briefs ==>
              && t.briefs[b].caseKey in t.cases && Settled(t.cases[t.briefs[b].caseKey].state)
              && (t.briefs[b].current <==> t.cases[t.briefs[b].caseKey].state == InFamilyReview)
    ensures forall d :: d in t.cases && Settled(t.cases[d].state) ==> exists b :: b in t.briefs && t.briefs[b].caseKey == d
  {
    hide ReviewStep, BriefsOk, NewBriefIn;
    ReviewBriefRowStates(s, a, t);
    ReviewSettled(s, a, t);
  }

  lemma ReviewBriefRowStates(s: Store, a: ReviewArgs, t: Store)
    requires BriefsOk(s) && ReviewStep(s, a, t) && NewBriefIn(a, t)
    ensures forall b :: b in t.briefs ==>
              && t.briefs[b].caseKey in t.cases && Settled(t.cases[t.briefs[b].caseKey].state)
              && (t.briefs[b].current <==> t.cases[t.briefs[b].caseKey].state == InFamilyReview)
  {
    hide BriefAgrees;
    forall b | b in t.briefs && (a.action != Approve || b != Key(a.org, a.brief.value))
      ensures b in s.briefs && t.briefs[b] == s.briefs[b] && s.briefs[b].caseKey != Key(a.org, a.caseId)
    {
    }
  }

  lemma ReviewSettled(s: Store, a: ReviewArgs, t: Store)
    requires BriefsOk(s) && ReviewStep(s, a, t) && NewBriefIn(a, t)
    ensures forall d :: d in t.cases && Settled(t.cases[d].state) ==> exists b :: b in t.briefs && t.briefs[b].caseKey == d
  {
    hide BriefAgrees;
    forall d | d in t.cases && Settled(t.cases[d].state)
      ensures exists b :: b in t.briefs && t.briefs[b].caseKey == d
    {
      if d != Key(a.org, a.caseId) {
        var b :| b in s.briefs && s.briefs[b].caseKey == d;
        assert b in t.briefs;
      }
    }
  }

  lemma ReviewDecisions(s: Store, a: ReviewArgs, t: Store)
    requires DecisionsOk(s) && ReviewStep(s, a, t)
    ensures DecisionsOk(t)
  {
    hide DecisionsOk, Extends;
    ReviewExtends(s, a, t);
    SameDecisions(s, t);
  }

  lemma ReviewRecords(s: Store, a: ReviewArgs, t: Store)
    requires RecordsOk(s) && ReviewStep(s, a, t)
    ensures RecordsOk(t)
  {
    hide Bijective;
    var id := Key(a.org, a.review);
    InsertBijective(s.records, ReviewKey(a), a.request, id, AdvisorReview, s.reviews.Keys);
    InsertBijective(s.records, ReviewKey(a), a.request, id, FamilyDecision, s.decisions.Keys);
    assert t.reviews.Keys == s.reviews.Keys + {id};
  }

  lemma ReviewRest(s: Store, a: ReviewArgs, t: Store)
    requires CasesOk(s) && RunsOk(s) && EvidenceOk(s) && OutputsOk(s) && ReviewStep(s, a, t)
    ensures CasesOk(t) && RunsOk(t) && EvidenceOk(t) && OutputsOk(t)
  {
    hide RowsProven, Provenance, RunsOk, EvidenceOk, OutputsOk, PinnedOk;
    RowsFrame(s, t);
  }

  lemma RowsFrame(s: Store, t: Store)
    requires RunsOk(s) && EvidenceOk(s) && OutputsOk(s)
    requires t.runs == s.runs && t.rows == s.rows && t.revisions == s.revisions
    requires t.packs == s.packs && t.entries == s.entries && t.evidence == s.evidence
    ensures RunsOk(t) && EvidenceOk(t) && OutputsOk(t)
  {
    hide RowsProven, Provenance;
  }

  lemma ReviewChains(s: Store, a: ReviewArgs, t: Store)
    requires ChainsOk(s) && ReviewStep(s, a, t)
    ensures ChainsOk(t)
  {
    hide ChainsOk;
    SameChains(s, t);
  }

  lemma ReviewPinned(s: Store, a: ReviewArgs, date: Option<int>)
    requires RunsOk(s) && PinnedOk(s) && ReviewAllowed(s, a, date)
    requires Key(a.org, a.run) in s.runs && IsSourceDate(s.entries, s.runs[Key(a.org, a.run)].pack, date)
    ensures PinnedOk(AfterReview(s, a, date, 1))
  {
    hide CanonicalProjection, DistinctIds, DistinctRisks, Eligible, RiskValid, GuardCase, ReviewRefusal, IsSourceDate, RunsOk, RisksAgree, AcceptancesOf;
    NotRefused(s, a, date);
    var t := AfterReview(s, a, date, 1);
    forall x | x in t.reviews
      ensures RisksAgree(t, x)
    {
      if x == Key(a.org, a.review) {
        NewRisksAgree(s, a, date);
      } else {
        RisksStay(s, t, x);
      }
    }
    NewAcceptances(a);
    if a.action == Approve {
      assert t.briefs[Key(a.org, a.brief.value)] == NewBrief(s, a, date.value);
      assert s.runs[Key(a.org, a.run)].pack in s.packs by { RunPack(s, Key(a.org, a.run)); }
    }
  }

  lemma TargetRun(s: Store, a: ReviewArgs)
    requires ReviewTarget(s, a)
    ensures Key(a.org, a.run) in s.runs
  {
  }

  lemma RunPack(s: Store, r: Key)
    requires RunsOk(s) && r in s.runs
    ensures s.runs[r].pack in s.packs
  {
  }

  lemma NewAcceptances(a: ReviewArgs)
    ensures forall x :: x in AcceptancesOf(a) ==> x.review == Key(a.org, a.review) && Risk(x.evidence, x.kind, x.reason) in a.risks
    ensures forall i :: 0 <= i < |a.risks| ==>
              Acceptance(Key(a.org, a.review), a.risks[i].evidence, a.risks[i].kind, a.risks[i].reason) in AcceptancesOf(a)
  {
    forall x | x in AcceptancesOf(a)
      ensures x.review == Key(a.org, a.review) && Risk(x.evidence, x.kind, x.reason) in a.risks
    {
      var i :| 0 <= i < |a.risks| && x == Acceptance(Key(a.org, a.review), a.risks[i].evidence, a.risks[i].kind, a.risks[i].reason);
      assert a.risks[i] == Risk(x.evidence, x.kind, x.reason);
    }
  }

  lemma NewRisksAgree(s: Store, a: ReviewArgs, date: Option<int>)
    requires ReviewAllowed(s, a, date)
    ensures RisksAgree(AfterReview(s, a, date, 1), Key(a.org, a.review))
  {
    hide CanonicalProjection, DistinctIds, DistinctRisks, Eligible, GuardCase, ReviewRefusal, AcceptancesOf, UsedBy, IsBlank;
    NotRefused(s, a, date);
    NewAcceptances(a);
    assert AfterReview(s, a, date, 1).reviews[Key(a.org, a.review)] == NewReview(a, 1);
  }

  // A review keeps every part of the invariant; its version is one.
  lemma ReviewKeeps(s: Store, a: ReviewArgs, date: Option<int>, version: nat)
    requires Inv(s) && ReviewKey(a) !in s.records && ReviewRun(s, a, date, version).Ok?
    requires NextReviewVersion(s.reviews, Key(a.org, a.run), version)
    requires Key(a.org, a.run) in s.runs ==> IsSourceDate(s.entries, s.runs[Key(a.org, a.run)].pack, date)
    ensures version == 1 && Inv(ReviewRun(s, a, date, version).value.0)
    ensures ReviewStep(s, a, ReviewRun(s, a, date, version).value.0)
  {
    hide ReviewRun, AfterReview, ReviewTarget, ReviewStep, ReviewRefusal, NextReviewVersion, BriefAgrees, IsSourceDate;
    hide CasesOk, RunsOk, ChainsOk, ReviewsOk, HandoffOk, BriefsOk, DecisionsOk, EvidenceOk, OutputsOk, RecordsOk, PinnedOk;
    ReviewExactly(s, a, date, version);
    assert Key(a.org, a.run) in s.runs by { TargetRun(s, a); }
    FirstReview(s, a, version);
    ReviewShape(s, a, date);
    var t := AfterReview(s, a, date, 1);
    if a.action == Approve {
      NewBriefAgrees(s, a, date);
    }
    ReviewReviews(s, a, t);
    ReviewHandoff(s, a, t);
    ReviewBriefs(s, a, t);
    ReviewDecisions(s, a, t);
    ReviewRecords(s, a, t);
    ReviewRest(s, a, t);
    ReviewChains(s, a, t);
    ReviewPinned(s, a, date);
  }

  // ------------------------------------------------------------------ decision

  predicate DecideAllowed(s: Store, a: DecideArgs, pick: Option<nat>) {
    DecideTarget(s, a) && DecideRefusal(s, a, pick) == None && |a.key| == 64 && |a.request| == 64
  }

  // The tables after a new decision: decision, timeline, the case plan ready, the brief retired, the record.
  function AfterDecision(s: Store, a: DecideArgs): Store
    requires DecideTarget(s, a)
  {
    var b, id := Key(a.org, a.brief), Key(a.org, a.decision);
    var c := s.briefs[b].caseKey;
    s.(decisions := s.decisions[id := NewDecision(s, a)],
       timelines := s.timelines[Key(a.org, a.timeline) := NewTimeline(s, a)],
       cases := s.cases[c := Case(PlanReady, s.cases[c].revision)],
       briefs := s.briefs[b := s.briefs[b].(current := false)],
       records := Insert(s.records, DecideKey(a), a.request, id))
  }

  function PickedCost(rows: Rows, pick: Option<nat>): Option<int> {
    if pick.Some? && pick.value in rows.costs then Some(CostInCny(rows.costs[pick.value])) else None
  }

  // What a decision that is not refused has shown.
  lemma DecisionNotRefused(s: Store, a: DecideArgs, pick: Option<nat>)
    requires DecideTarget(s, a) && DecideRefusal(s, a, pick) == None
    ensures var b := s.briefs[Key(a.org, a.brief)];
            var pinned := RevisionKey(b.caseKey, b.revision);
            && b.run in s.rows && Eligible(s.rows[b.run], a.route)
            && b.review in s.reviews && a.route in s.reviews[b.review].eligible
            && 0 < a.min <= a.max && "budget_elasticity" in a.tradeOffs
            && pinned in s.revisions && s.revisions[pinned].intake.Some? && SupportedIntake(s.revisions[pinned].intake.value)
            && !BudgetRefused(PickedCost(s.rows[b.run], pick), s.revisions[pinned].hardCeiling, a.min, a.max)
            && a.milestones == Milestones(YearOf(s.revisions[pinned].intake.value))
    ensures Key(a.org, a.decision) !in s.decisions && Key(a.org, a.timeline) !in s.timelines
    ensures forall d :: d in s.decisions ==> s.decisions[d].brief != Key(a.org, a.brief)
  {
    hide MayDecide, Eligible, CostOverflows, CostInCny, BudgetRefused, SupportedIntake, YearOf, Milestones;
  }

  lemma GuardFindsDecision(t: Store, c: Key, d: Key)
    requires c in t.cases && t.cases[c].state == InFamilyReview && d in t.decisions && t.decisions[d].caseKey == c
    ensures GuardCase(t, c, Decided)
  {
  }

  lemma GuardFindsTimeline(t: Store, c: Key, d: Key, x: Key)
    requires c in t.cases && t.cases[c].state == Decided && d in t.decisions && t.decisions[d].caseKey == c
    requires x in t.timelines && t.timelines[x].decision == d
    ensures GuardCase(t, c, PlanReady)
  {
  }

  // Both case guards find the rows that the call has just written.
  lemma DecisionMoves(s: Store, a: DecideArgs)
    requires DecideTarget(s, a) && DecideKey(a) !in s.records
    ensures RecordDecision(s, a) ==
              if |a.key| == 64 && |a.request| == 64 then Ok((AfterDecision(s, a), Reply(Key(a.org, a.decision), false))) else Err(CheckViolation)
  {
    hide GuardCase, NewTimeline, NewDecision;
    var b, id, x := Key(a.org, a.brief), Key(a.org, a.decision), Key(a.org, a.timeline);
    var c := s.briefs[b].caseKey;
    NewRows(s, a);
    var first := s.(decisions := s.decisions[id := NewDecision(s, a)]);
    GuardFindsDecision(first, c, id);
    var decided := first.(cases := s.cases[c := s.cases[c].(state := Decided)]);
    GuardFindsTimeline(decided.(timelines := s.timelines[x := NewTimeline(s, a)]), c, id, x);
    assert decided.cases[c := decided.cases[c].(state := PlanReady)] == s.cases[c := Case(PlanReady, s.cases[c].revision)];
  }

  lemma NewRows(s: Store, a: DecideArgs)
    requires DecideTarget(s, a)
    ensures NewDecision(s, a).caseKey == s.briefs[Key(a.org, a.brief)].caseKey
    ensures NewTimeline(s, a).decision == Key(a.org, a.decision)
  {
  }

  // A first call with a key succeeds exactly when the decision is allowed.
  lemma DecideExactly(s: Store, a: DecideArgs, pick: Option<nat>)
    requires DecideKey(a) !in s.records
    ensures DecideBrief(s, a, pick).Ok? <==> DecideAllowed(s, a, pick)
    ensures DecideBrief(s, a, pick).Ok? ==> DecideBrief(s, a, pick).value == (AfterDecision(s, a), Reply(Key(a.org, a.decision), false))
  {
    hide DecideTarget, DecideRefusal, RecordDecision, AfterDecision;
    if DecideTarget(s, a) {
      DecisionMoves(s, a);
    }
  }

  // ------------------------------------------------------------------ what a decision keeps

  ghost predicate DecideStep(s: Store, a: DecideArgs, t: Store) {
    var b, id, x := Key(a.org, a.brief), Key(a.org, a.decision), Key(a.org, a.timeline);
    && b in s.briefs && s.briefs[b].current && id !in s.decisions && x !in s.timelines
    && CaseAt(s, s.briefs[b].caseKey, s.briefs[b].revision, InFamilyReview)
    && id in t.decisions && t.decisions == s.decisions[id := t.decisions[id]]
    && t.decisions[id].caseKey == s.briefs[b].caseKey && t.decisions[id].brief == b
    && x in t.timelines && t.timelines == s.timelines[x := t.timelines[x]] && t.timelines[x].decision == id
    && t.cases == s.cases[s.briefs[b].caseKey := Case(PlanReady, s.briefs[b].revision)]
    && t.briefs == s.briefs[b := s.briefs[b].(current := false)]
    && t.runs == s.runs && t.rows == s.rows && t.revisions == s.revisions && t.packs == s.packs && t.entries == s.entries
    && t.evidence == s.evidence && t.reviews == s.reviews && t.acceptances == s.acceptances
    && DecideKey(a) !in s.records && t.records == Insert(s.records, DecideKey(a), a.request, id)
  }

  lemma DecideShape(s: Store, a: DecideArgs, pick: Option<nat>)
    requires DecideAllowed(s, a, pick) && DecideKey(a) !in s.records
    ensures DecideStep(s, a, AfterDecision(s, a))
  {
    hide DecideRefusal, NewTimeline;
    DecisionNotRefused(s, a, pick);
    NewRows(s, a);
  }

  lemma NewDecisionAgrees(s: Store, a: DecideArgs, pick: Option<nat>)
    requires BriefsOk(s) && DecideAllowed(s, a, pick)
    requires CostPick(s.rows[s.briefs[Key(a.org, a.brief)].run], pick)
    ensures DecisionAgrees(AfterDecision(s, a), Key(a.org, a.decision))
  {
    hide DecideRefusal, CostInCny, SupportedIntake, Milestones, YearOf, Eligible, CanonicalProjection, DistinctIds, BudgetAgrees, BudgetRefused;
    DecisionNotRefused(s, a, pick);
    assert BriefAgrees(s, Key(a.org, a.brief));
    assert AfterDecision(s, a).decisions[Key(a.org, a.decision)] == NewDecision(s, a);
    NewBudgetAgrees(s, a, pick);
  }

  lemma NewBudgetAgrees(s: Store, a: DecideArgs, pick: Option<nat>)
    requires DecideAllowed(s, a, pick)
    requires s.briefs[Key(a.org, a.brief)].run in s.rows && CostPick(s.rows[s.briefs[Key(a.org, a.brief)].run], pick)
    ensures BudgetAgrees(AfterDecision(s, a), NewDecision(s, a))
  {
    hide DecideRefusal, CostInCny, SupportedIntake, Milestones, YearOf, Eligible;
    DecisionNotRefused(s, a, pick);
    var rows := s.rows[s.briefs[Key(a.org, a.brief)].run];
    if k :| IsAustralianCost(rows, k) {
      assert pick.Some? && IsAustralianCost(rows, pick.value);
      assert a.min <= CostInCny(rows.costs[pick.value]) <= a.max;
    }
  }

  lemma NewTimelineAgrees(s: Store, a: DecideArgs, pick: Option<nat>)
    requires DecideAllowed(s, a, pick)
    ensures TimelineAgrees(AfterDecision(s, a), Key(a.org, a.timeline))
  {
    hide DecideRefusal, SupportedIntake, Milestones, YearOf, Eligible, BudgetRefused;
    DecisionNotRefused(s, a, pick);
    assert AfterDecision(s, a).decisions[Key(a.org, a.decision)] == NewDecision(s, a);
    assert AfterDecision(s, a).timelines[Key(a.org, a.timeline)] == NewTimeline(s, a);
  }

  lemma DecideExtends(s: Store, a: DecideArgs, t: Store)
    requires DecideStep(s, a, t)
    ensures Extends(s, t)
  {
  }

  lemma DecideBriefs(s: Store, a: DecideArgs, t: Store)
    requires BriefsOk(s) && DecideStep(s, a, t)
    ensures BriefsOk(t)
  {
    hide BriefAgrees, DecideStep, Settled;
    DecideBriefRows(s, a, t);
    DecideBriefStates(s, a, t);
  }

  lemma DecideBriefRows(s: Store, a: DecideArgs, t: Store)
    requires BriefsOk(s) && DecideStep(s, a, t)
    ensures forall b :: b in t.briefs ==> BriefAgrees(t, b)
  {
    hide BriefAgrees, Extends;
    DecideExtends(s, a, t);
    forall b | b in t.briefs
      ensures BriefAgrees(t, b)
    {
      ExtendBrief(s, t, b);
    }
  }

  lemma DecideBriefStates(s: Store, a: DecideArgs, t: Store)
    requires BriefsOk(s) && DecideStep(s, a, t)
    ensures t.briefs.Keys == s.briefs.Keys
    ensures forall b :: b in t.briefs ==>
              && t.briefs[b].caseKey == s.briefs[b].caseKey && s.briefs[b].caseKey in t.cases && Settled(t.cases[s.briefs[b].caseKey].state)
              && (t.briefs[b].current <==> t.cases[s.briefs[b].caseKey].state == InFamilyReview)
    ensures forall c :: c in t.cases && Settled(t.cases[c].state) ==> exists b :: b in t.briefs && t.briefs[b].caseKey == c
  {
    hide BriefAgrees, NewDecision, NewTimeline, DecideRefusal, Insert;
    forall b | b in s.briefs && b != Key(a.org, a.brief)
      ensures t.briefs[b] == s.briefs[b] && s.briefs[b].caseKey != s.briefs[Key(a.org, a.brief)].caseKey
    {
    }
    forall c | c in t.cases && Settled(t.cases[c].state)
      ensures exists b :: b in t.briefs && t.briefs[b].caseKey == c
    {
      assert Settled(s.cases[c].state);
      var b :| b in s.briefs && s.briefs[b].caseKey == c;
      assert b in t.briefs;
    }
  }

  // The case had no decision before: decisions belong to cases that are plan ready.
  lemma DecideDecisions(s: Store, a: DecideArgs, t: Store)
    requires DecisionsOk(s) && DecideStep(s, a, t)
    requires DecisionAgrees(t, Key(a.org, a.decision)) && TimelineAgrees(t, Key(a.org, a.timeline))
    ensures DecisionsOk(t)
  {
    hide DecisionAgrees, TimelineAgrees, Extends;
    DecideRowsAgree(s, a, t);
    DecideOneDecision(s, a, t);
    DecideOneTimeline(s, a, t);
  }

  lemma DecideRowsAgree(s: Store, a: DecideArgs, t: Store)
    requires DecisionsOk(s) && DecideStep(s, a, t)
    requires DecisionAgrees(t, Key(a.org, a.decision)) && TimelineAgrees(t, Key(a.org, a.timeline))
    ensures forall d :: d in t.decisions ==> DecisionAgrees(t, d)
    ensures forall x :: x in t.timelines ==> TimelineAgrees(t, x)
  {
    hide DecisionAgrees, TimelineAgrees, Extends;
    DecideExtends(s, a, t);
    forall d | d in t.decisions
      ensures DecisionAgrees(t, d)
    {
      if d != Key(a.org, a.decision) {
        ExtendDecision(s, t, d);
      }
    }
    forall x | x in t.timelines
      ensures TimelineAgrees(t, x)
    {
      if x != Key(a.org, a.timeline) {
        ExtendTimeline(s, t, x);
      }
    }
  }

  lemma DecideOneDecision(s: Store, a: DecideArgs, t: Store)
    requires DecisionsOk(s) && DecideStep(s, a, t)
    ensures forall d :: d in t.decisions ==> t.decisions[d].caseKey in t.cases && t.cases[t.decisions[d].caseKey].state == PlanReady
    ensures forall d, e :: d in t.decisions && e in t.decisions && t.decisions[d].caseKey == t.decisions[e].caseKey ==> d == e
    ensures forall c :: c in t.cases && t.cases[c].state == PlanReady ==> exists d :: d in t.decisions && t.decisions[d].caseKey == c
  {
    hide DecideStep, DecisionsOk;
    DecideOldDecisions(s, a, t);
    DecideReady(s, a, t);
  }

  lemma DecideOldDecisions(s: Store, a: DecideArgs, t: Store)
    requires DecisionsOk(s) && DecideStep(s, a, t)
    ensures forall d :: d in t.decisions ==> t.decisions[d].caseKey in t.cases && t.cases[t.decisions[d].caseKey].state == PlanReady
    ensures forall d, e :: d in t.decisions && e in t.decisions && t.decisions[d].caseKey == t.decisions[e].caseKey ==> d == e
  {
    hide DecisionAgrees, TimelineAgrees;
    forall d | d in t.decisions && d != Key(a.org, a.decision)
      ensures d in s.decisions && t.decisions[d] == s.decisions[d] && s.decisions[d].caseKey != s.briefs[Key(a.org, a.brief)].caseKey
    {
    }
  }

  lemma DecideReady(s: Store, a: DecideArgs, t: Store)
    requires DecisionsOk(s) && DecideStep(s, a, t)
    ensures forall c :: c in t.cases && t.cases[c].state == PlanReady ==> exists d :: d in t.decisions && t.decisions[d].caseKey == c
  {
    hide DecisionAgrees, TimelineAgrees;
    forall e | e in t.cases && t.cases[e].state == PlanReady
      ensures exists d :: d in t.decisions && t.decisions[d].caseKey == e
    {
      if e == s.briefs[Key(a.org, a.brief)].caseKey {
        assert Key(a.org, a.decision) in t.decisions;
      } else {
        var d :| d in s.decisions && s.decisions[d].caseKey == e;
        assert d in t.decisions && t.decisions[d] == s.decisions[d];
      }
    }
  }

  lemma DecideOneTimeline(s: Store, a: DecideArgs, t: Store)
    requires DecisionsOk(s) && DecideStep(s, a, t)
    ensures forall x, y :: x in t.timelines && y in t.timelines && t.timelines[x].decision == t.timelines[y].decision ==> x == y
    ensures forall d :: d in t.decisions ==> exists x :: x in t.timelines && t.timelines[x].decision == d
  {
    hide DecisionAgrees;
    var id, x := Key(a.org, a.decision), Key(a.org, a.timeline);
    forall y | y in t.timelines && y != x
      ensures y in s.timelines && t.timelines[y] == s.timelines[y] && s.timelines[y].decision != id
    {
      assert TimelineAgrees(s, y);
    }
    forall d | d in t.decisions
      ensures exists y :: y in t.timelines && t.timelines[y].decision == d
    {
      if d == id {
        assert x in t.timelines;
      } else {
        var y :| y in s.timelines && s.timelines[y].decision == d;
        assert y in t.timelines && t.timelines[y] == s.timelines[y];
      }
    }
  }

  lemma DecideRecords(s: Store, a: DecideArgs, t: Store)
    requires RecordsOk(s) && DecideStep(s, a, t)
    ensures RecordsOk(t)
  {
    hide Bijective;
    var id := Key(a.org, a.decision);
    InsertBijective(s.records, DecideKey(a), a.request, id, AdvisorReview, s.reviews.Keys);
    InsertBijective(s.records, DecideKey(a), a.request, id, FamilyDecision, s.decisions.Keys);
    assert t.decisions.Keys == s.decisions.Keys + {id};
  }

  lemma DecideReviews(s: Store, a: DecideArgs, t: Store)
    requires ReviewsOk(s) && DecideStep(s, a, t)
    ensures ReviewsOk(t)
  {
    hide ReviewAgrees;
    forall x | x in t.reviews
      ensures ReviewAgrees(t, x)
    {
      DecideReview(s, a, t, x);
    }
  }

  lemma DecideReview(s: Store, a: DecideArgs, t: Store, x: Key)
    requires x in s.reviews && ReviewAgrees(s, x) && DecideStep(s, a, t)
    ensures ReviewAgrees(t, x)
  {
  }

  lemma DecideHandoff(s: Store, a: DecideArgs, t: Store)
    requires HandoffOk(s) && DecideStep(s, a, t)
    ensures HandoffOk(t)
  {
    hide IsOpen, Reviewed;
    forall q
      ensures IsOpen(t, q) == IsOpen(s, q)
    {
      SameOpen(s, t, q);
    }
    forall c | c in t.cases && PastPlanning(t.cases[c].state)
      ensures exists r :: IsOpen(t, r) && t.runs[r].caseKey == c
    {
      var r :| IsOpen(s, r) && s.runs[r].caseKey == c;
      assert IsOpen(t, r);
    }
  }

  lemma DecideRest(s: Store, a: DecideArgs, t: Store)
    requires CasesOk(s) && ChainsOk(s) && RunsOk(s) && EvidenceOk(s) && OutputsOk(s) && DecideStep(s, a, t)
    ensures CasesOk(t) && ChainsOk(t) && RunsOk(t) && EvidenceOk(t) && OutputsOk(t)
  {
    hide CasesOk, ChainsOk, RunsOk, EvidenceOk, OutputsOk;
    RowsFrame(s, t);
    DecideCases(s, a, t);
    SameChains(s, t);
  }

  lemma DecideCases(s: Store, a: DecideArgs, t: Store)
    requires CasesOk(s) && DecideStep(s, a, t)
    ensures CasesOk(t)
  {
  }

  lemma SameChains(s: Store, t: Store)
    requires ChainsOk(s) && t.runs == s.runs
    ensures ChainsOk(t)
  {
    var rank :| Ranked(s.runs, rank);
    assert Ranked(t.runs, rank);
  }

  lemma DecidePinned(s: Store, a: DecideArgs, t: Store)
    requires PinnedOk(s) && DecideStep(s, a, t)
    ensures PinnedOk(t)
  {
    hide PinnedOk;
    PinnedStays(s, t);
  }

  // A decision keeps every part of the invariant.
  lemma DecideKeeps(s: Store, a: DecideArgs, pick: Option<nat>)
    requires Inv(s) && DecideKey(a) !in s.records && DecideBrief(s, a, pick).Ok?
    requires Key(a.org, a.brief) in s.briefs && s.briefs[Key(a.org, a.brief)].run in s.rows
             ==> CostPick(s.rows[s.briefs[Key(a.org, a.brief)].run], pick)
    ensures Inv(DecideBrief(s, a, pick).value.0)
    ensures DecideStep(s, a, DecideBrief(s, a, pick).value.0)
  {
    hide DecideBrief, AfterDecision, DecideRefusal, DecideStep, BriefAgrees, DecisionAgrees, TimelineAgrees, CostPick;
    hide CasesOk, RunsOk, ChainsOk, ReviewsOk, HandoffOk, DecisionsOk, EvidenceOk, OutputsOk, RecordsOk, PinnedOk;
    DecideExactly(s, a, pick);
    DecideShape(s, a, pick);
    DecisionNotRefused(s, a, pick);
    NewDecisionAgrees(s, a, pick);
    NewTimelineAgrees(s, a, pick);
    var t := AfterDecision(s, a);
    DecideReviews(s, a, t);
    DecideHandoff(s, a, t);
    DecideBriefs(s, a, t);
    DecideDecisions(s, a, t);
    DecideRecords(s, a, t);
    DecideRest(s, a, t);
    DecidePinned(s, a, t);
  }
}
