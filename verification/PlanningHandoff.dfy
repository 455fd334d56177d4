// Storing a planning result: supersession of runs and the hand-off of the case to its advisor.
module PlanningHandoff {
  import opened Sql
  import opened PlanningOutput
  import opened OutputLayout
  import opened Idempotency
  import opened Planning
  import opened PlanningInvariants

  predicate Supersedes(a: PersistArgs, r: Key) {
    r.org == a.org && a.supersedes == Some(r.id)
  }

  // What a caller can check beforehand. No trigger appears here: in a reachable state neither
  // the run guard nor the case guard ever refuses.
  ghost predicate Persistable(s: Store, a: PersistArgs) {
    && IsTerminalRun(a.target)
    && CaseAt(s, CaseOf(a), a.revision, InPlanning)
    && (a.supersedes.Some? ==> Key(a.org, a.supersedes.value) in s.runs && s.runs[Key(a.org, a.supersedes.value)].current)
    && a.pack.org == a.org && a.pack in s.packs
    && IsSha256(a.evidenceHash)
    && RunOf(a) !in s.runs
    && (forall r :: r in s.runs && s.runs[r].current && s.runs[r].caseKey == CaseOf(a) ==> Supersedes(a, r))
    && Acceptable(ClaimsOf(s.evidence, a.pack), a.output)
    && (a.outputHash.Some? ==> IsSha256(a.outputHash.value))
  }

  // The run table after a result: one new run, and the superseded one no longer current.
  ghost predicate RunsStep(runs: map<Key, Run>, a: PersistArgs, after: map<Key, Run>) {
    var r := RunOf(a);
    && r !in runs && after.Keys == runs.Keys + {r} && after[r] == FinishedRun(a)
    && (forall q :: q in runs ==> after[q] == if Supersedes(a, q) then runs[q].(current := false) else runs[q])
    && (forall q :: q in after && after[q].current && after[q].caseKey == CaseOf(a) ==> q == r)
    && (a.supersedes.Some? ==> Key(a.org, a.supersedes.value) in runs && runs[Key(a.org, a.supersedes.value)].current)
  }

  // The tables after an accepted result.
  ghost predicate Persisted(s: Store, a: PersistArgs, t: Store) {
    var c, r := CaseOf(a), RunOf(a);
    && RunsStep(s.runs, a, t.runs)
    && r in t.rows && t.rows == s.rows[r := t.rows[r]]
    && StoreOutput(ClaimsOf(s.evidence, a.pack), a.output) == Ok(t.rows[r])
    && CaseAt(s, c, a.revision, InPlanning)
    && t.cases == (if a.target == ReviewRequired then s.cases[c := Case(InAdvisorReview, a.revision)] else s.cases)
    && IsTerminalRun(a.target) && a.pack.org == a.org && a.pack in s.packs
    && t.revisions == s.revisions && t.packs == s.packs && t.entries == s.entries && t.evidence == s.evidence
    && t.participants == s.participants && t.reviews == s.reviews && t.acceptances == s.acceptances
    && t.briefs == s.briefs && t.decisions == s.decisions && t.timelines == s.timelines && t.records == s.records
  }

  lemma RetireShape(s: Store, a: PersistArgs)
    requires RunsOk(s)
    ensures var r := Retire(s.runs, a.org, a.supersedes);
            && (r.Ok? <==> (a.supersedes.Some? ==>
                  Key(a.org, a.supersedes.value) in s.runs && s.runs[Key(a.org, a.supersedes.value)].current))
            && (r.Ok? ==>
                  && r.value.Keys == s.runs.Keys
                  && forall q :: q in s.runs ==> r.value[q] == if Supersedes(a, q) then s.runs[q].(current := false) else s.runs[q])
  {
  }

  // The tables with the retired runs, the new run and its rows, and the case moved on.
  function AfterPersist(s: Store, a: PersistArgs, retired: map<Key, Run>, rows: Rows): Store {
    s.(runs := retired[RunOf(a) := FinishedRun(a)],
       rows := s.rows[RunOf(a) := rows],
       cases := if a.target == ReviewRequired then s.cases[CaseOf(a) := Case(InAdvisorReview, a.revision)] else s.cases)
  }

  lemma FreshRunFinishes(a: PersistArgs)
    ensures IsTerminalRun(a.target) ==> GuardRun(NewRun(a), FinishedRun(a)) == None
  {
  }

  // The result of storing, once every check is decided.
  lemma PersistBranches(s: Store, a: PersistArgs)
    ensures PersistResult(s, a).Ok? <==>
              && IsTerminalRun(a.target) && CaseAt(s, CaseOf(a), a.revision, InPlanning)
              && Retire(s.runs, a.org, a.supersedes).Ok? && a.pack.org == a.org && a.pack in s.packs && IsSha256(a.evidenceHash)
              && RunOf(a) !in Retire(s.runs, a.org, a.supersedes).value
              && !HasCurrent(Retire(s.runs, a.org, a.supersedes).value, CaseOf(a))
              && StoreOutput(ClaimsOf(s.evidence, a.pack), a.output).Ok?
              && (a.outputHash.Some? ==> IsSha256(a.outputHash.value))
    ensures PersistResult(s, a).Ok? ==>
              PersistResult(s, a).value == AfterPersist(s, a, Retire(s.runs, a.org, a.supersedes).value,
                                                        StoreOutput(ClaimsOf(s.evidence, a.pack), a.output).value)
  {
    hide StoreOutput, Retire, ClaimsOf, IsSha256, HandOff, HasCurrent, GuardRun, MoveCase, NewRun, FinishedRun;
    FreshRunFinishes(a);
    var retired := Retire(s.runs, a.org, a.supersedes);
    var stored := StoreOutput(ClaimsOf(s.evidence, a.pack), a.output);
    if retired.Ok? && stored.Ok? && CaseAt(s, CaseOf(a), a.revision, InPlanning) && IsTerminalRun(a.target) {
      HandOffMoves(s.(runs := retired.value[RunOf(a) := FinishedRun(a)], rows := s.rows[RunOf(a) := stored.value]), a);
    }
  }

  // Storing succeeds exactly when the caller's own inputs are in order.
  lemma PersistExactly(s: Store, a: PersistArgs)
    requires RunsOk(s)
    ensures PersistResult(s, a).Ok? <==> Persistable(s, a)
    ensures PersistResult(s, a).Ok? ==> Persisted(s, a, PersistResult(s, a).value)
  {
    hide RunsOk, PersistResult, Persistable, Persisted;
    PersistAccepts(s, a);
    if PersistResult(s, a).Ok? {
      PersistShape(s, a);
    }
  }

  lemma PersistAccepts(s: Store, a: PersistArgs)
    requires RunsOk(s)
    ensures PersistResult(s, a).Ok? <==> Persistable(s, a)
  {
    hide RunsOk, StoreOutput, Acceptable, Retire, ClaimsOf, IsSha256, HasCurrent, PersistResult, Layout, Flat, Stored, AfterPersist;
    RetireShape(s, a);
    OutputStored(ClaimsOf(s.evidence, a.pack), a.output);
    PersistBranches(s, a);
    if Retire(s.runs, a.org, a.supersedes).Ok? {
      RetiredCurrent(s, a, Retire(s.runs, a.org, a.supersedes).value);
    }
  }

  lemma PersistShape(s: Store, a: PersistArgs)
    requires RunsOk(s) && PersistResult(s, a).Ok?
    ensures Persisted(s, a, PersistResult(s, a).value)
  {
    hide RunsOk, StoreOutput, Retire, ClaimsOf, IsSha256, HasCurrent, RunsStep, PersistResult;
    RetireShape(s, a);
    PersistBranches(s, a);
    var retired := Retire(s.runs, a.org, a.supersedes).value;
    NewRunsStep(s, a, retired, retired[RunOf(a) := FinishedRun(a)]);
  }

  lemma RetiredCurrent(s: Store, a: PersistArgs, retired: map<Key, Run>)
    requires retired.Keys == s.runs.Keys
    requires forall q :: q in s.runs ==> retired[q] == if Supersedes(a, q) then s.runs[q].(current := false) else s.runs[q]
    ensures !HasCurrent(retired, CaseOf(a)) <==>
              forall r :: r in s.runs && s.runs[r].current && s.runs[r].caseKey == CaseOf(a) ==> Supersedes(a, r)
  {
    if !HasCurrent(retired, CaseOf(a)) {
      forall r | r in s.runs && s.runs[r].current && s.runs[r].caseKey == CaseOf(a)
        ensures Supersedes(a, r)
      {
        assert r in retired;
      }
    }
  }

  lemma NewRunsStep(s: Store, a: PersistArgs, retired: map<Key, Run>, after: map<Key, Run>)
    requires retired.Keys == s.runs.Keys && RunOf(a) !in retired && after == retired[RunOf(a) := FinishedRun(a)]
    requires forall q :: q in s.runs ==> retired[q] == if Supersedes(a, q) then s.runs[q].(current := false) else s.runs[q]
    requires !HasCurrent(retired, CaseOf(a))
    requires a.supersedes.Some? ==> Key(a.org, a.supersedes.value) in s.runs && s.runs[Key(a.org, a.supersedes.value)].current
    ensures RunsStep(s.runs, a, after)
  {
  }

  // The case guard finds the run that was just stored.
  lemma HandOffMoves(t: Store, a: PersistArgs)
    requires RunOf(a) in t.runs && t.runs[RunOf(a)] == FinishedRun(a)
    requires CaseAt(t, CaseOf(a), a.revision, InPlanning)
    ensures HandOff(t, a) == Ok(if a.target == ReviewRequired
                               then t.(cases := t.cases[CaseOf(a) := Case(InAdvisorReview, a.revision)]) else t)
  {
  }

  // ------------------------------------------------------------------ what it keeps

  lemma PersistCases(s: Store, a: PersistArgs, t: Store)
    requires CasesOk(s) && Persisted(s, a, t)
    ensures CasesOk(t)
  {
    hide StoreOutput, ClaimsOf, RunsStep;
  }

  lemma PersistRuns(s: Store, a: PersistArgs, t: Store)
    requires CasesOk(s) && RunsOk(s) && Persisted(s, a, t)
    ensures RunsOk(t)
  {
    hide StoreOutput, ClaimsOf, CasesOk, RunsStep;
    PersistRunPins(s, a, t);
    PersistOneCurrent(s, a, t);
  }

  lemma PersistRunPins(s: Store, a: PersistArgs, t: Store)
    requires CasesOk(s) && RunsOk(s) && Persisted(s, a, t)
    ensures t.rows.Keys == t.runs.Keys
    ensures forall r :: r in t.runs ==>
              var run := t.runs[r];
              && IsTerminalRun(run.state) && run.pack in t.packs
              && r.org == run.caseKey.org == run.pack.org
              && RevisionKey(run.caseKey, run.revision) in t.revisions
  {
    hide StoreOutput, ClaimsOf;
    assert RevisionKey(CaseOf(a), a.revision) in s.revisions;
    forall r | r in t.runs
      ensures r != RunOf(a) ==> r in s.runs && t.runs[r] == s.runs[r].(current := t.runs[r].current)
    {
    }
  }

  lemma PersistOneCurrent(s: Store, a: PersistArgs, t: Store)
    requires RunsOk(s) && RunsStep(s.runs, a, t.runs)
    ensures forall q, r | q in t.runs && r in t.runs && t.runs[q].current && t.runs[r].current ::
              t.runs[q].caseKey == t.runs[r].caseKey ==> q == r
  {
    forall r | r in t.runs && t.runs[r].current && r != RunOf(a)
      ensures r in s.runs && s.runs[r].current && s.runs[r].caseKey == t.runs[r].caseKey && t.runs[r].caseKey != CaseOf(a)
    {
    }
  }

  lemma PersistChains(s: Store, a: PersistArgs, t: Store)
    requires ChainsOk(s) && RunsStep(s.runs, a, t.runs)
    ensures ChainsOk(t)
  {
    PersistRank(s, a, t);
    PersistInjective(s, a, t);
  }

  lemma StepKeeps(runs: map<Key, Run>, a: PersistArgs, after: map<Key, Run>)
    requires RunsStep(runs, a, after)
    ensures forall q :: q in runs ==> q in after && after[q] == runs[q].(current := after[q].current)
    ensures forall q :: q in runs ==> after[q].supersedes == runs[q].supersedes
  {
  }

  lemma PersistRank(s: Store, a: PersistArgs, t: Store)
    requires ChainsOk(s) && RunsStep(s.runs, a, t.runs)
    ensures exists rank :: Ranked(t.runs, rank)
  {
    StepKeeps(s.runs, a, t.runs);
    RankOneMore(s.runs, RunOf(a), t.runs);
  }

  // One more run on top of the ranking: above the run it supersedes.
  lemma RankOneMore(runs: map<Key, Run>, r: Key, after: map<Key, Run>)
    requires exists rank :: Ranked(runs, rank)
    requires r !in runs && after.Keys == runs.Keys + {r}
    requires forall q :: q in runs ==> after[q].supersedes == runs[q].supersedes
    requires after[r].supersedes.Some? ==> after[r].supersedes.value in runs
    ensures exists rank :: Ranked(after, rank)
  {
    var rank :| Ranked(runs, rank);
    var above := if after[r].supersedes.Some? then rank[after[r].supersedes.value] + 1 else 0;
    var longer := rank[r := above];
    forall q | q in after && after[q].supersedes.Some?
      ensures after[q].supersedes.value in after && longer[after[q].supersedes.value] < longer[q]
    {
      if q != r {
        assert runs[q].supersedes.value in runs && rank[runs[q].supersedes.value] < rank[q];
      }
    }
    assert Ranked(after, longer);
  }

  // Only a current run can be superseded, and it is current no longer.
  lemma PersistInjective(s: Store, a: PersistArgs, t: Store)
    requires ChainsOk(s) && RunsStep(s.runs, a, t.runs)
    ensures forall p, q | p in t.runs && q in t.runs && t.runs[p].supersedes.Some? :: t.runs[p].supersedes == t.runs[q].supersedes ==> p == q
    ensures forall q :: q in t.runs && t.runs[q].supersedes.Some? ==>
              t.runs[q].supersedes.value in t.runs && !t.runs[t.runs[q].supersedes.value].current
  {
    hide Ranked;
    var r := RunOf(a);
    forall q | q in t.runs && t.runs[q].supersedes.Some?
      ensures q in s.runs ==> s.runs[q].supersedes == t.runs[q].supersedes && t.runs[q].supersedes.value in s.runs && !s.runs[t.runs[q].supersedes.value].current
      ensures q == r ==> t.runs[q].supersedes.value in s.runs && s.runs[t.runs[q].supersedes.value].current
      ensures t.runs[q].supersedes.value in t.runs && !t.runs[t.runs[q].supersedes.value].current
    {
    }
  }

  lemma PersistReviews(s: Store, a: PersistArgs, t: Store)
    requires ReviewsOk(s) && Persisted(s, a, t)
    ensures ReviewsOk(t)
  {
    hide StoreOutput, ClaimsOf, RunsStep, ReviewAgrees;
    StepKeeps(s.runs, a, t.runs);
    forall x | x in t.reviews
      ensures ReviewAgrees(t, x)
    {
      PersistReview(s, a, t, x);
    }
  }

  lemma PersistReview(s: Store, a: PersistArgs, t: Store, x: Key)
    requires x in s.reviews && ReviewAgrees(s, x) && Persisted(s, a, t)
    ensures ReviewAgrees(t, x)
  {
    hide StoreOutput, ClaimsOf, RunsStep;
    StepKeeps(s.runs, a, t.runs);
  }

  lemma PersistOpen(s: Store, a: PersistArgs, t: Store, q: Key)
    requires ReviewsOk(s) && RunsStep(s.runs, a, t.runs) && t.reviews == s.reviews
    ensures q != RunOf(a) ==> IsOpen(t, q) == IsOpen(s, q)
    ensures q == RunOf(a) ==> !Reviewed(t.reviews, q) && (IsOpen(t, q) <==> a.target == ReviewRequired)
  {
    if q == RunOf(a) {
      assert forall x :: x in s.reviews ==> s.reviews[x].run != q;
    }
  }

  lemma PersistHandoff(s: Store, a: PersistArgs, t: Store)
    requires ReviewsOk(s) && HandoffOk(s) && Persisted(s, a, t)
    requires RunsOk(s)
    ensures HandoffOk(t)
  {
    hide IsOpen, Reviewed, ReviewsOk, StoreOutput, ClaimsOf, RunsOk, RunsStep;
    forall q
      ensures q != RunOf(a) ==> IsOpen(t, q) == IsOpen(s, q)
      ensures q == RunOf(a) ==> !Reviewed(t.reviews, q) && (IsOpen(t, q) <==> a.target == ReviewRequired)
    {
      PersistOpen(s, a, t, q);
    }
    PersistOpenOnce(s, a, t);
    PersistOpenExists(s, a, t);
    PersistUnreviewed(s, a, t);
  }

  lemma PersistUnreviewed(s: Store, a: PersistArgs, t: Store)
    requires RunsOk(s) && ReviewsOk(s) && HandoffOk(s) && Persisted(s, a, t)
    ensures forall r | r in t.runs && t.runs[r].current && t.runs[r].caseKey in t.cases ::
              t.cases[t.runs[r].caseKey].state == InAdvisorReview ==> t.runs[r].state == ReviewRequired && !Reviewed(t.reviews, r)
  {
    hide StoreOutput, ClaimsOf, Reviewed, IsOpen;
    PersistOpen(s, a, t, RunOf(a));
    forall r | r in t.runs && t.runs[r].current && t.runs[r].caseKey in t.cases && t.cases[t.runs[r].caseKey].state == InAdvisorReview
      ensures t.runs[r].state == ReviewRequired && !Reviewed(t.reviews, r)
    {
      if r != RunOf(a) {
        assert t.runs[r].caseKey != CaseOf(a);
        assert s.runs[r].current && s.cases[s.runs[r].caseKey].state == InAdvisorReview;
      }
    }
  }

  lemma PersistOpenOnce(s: Store, a: PersistArgs, t: Store)
    requires HandoffOk(s) && Persisted(s, a, t)
    requires forall q :: q != RunOf(a) ==> IsOpen(t, q) == IsOpen(s, q)
    requires IsOpen(t, RunOf(a)) <==> a.target == ReviewRequired
    ensures forall p, q :: IsOpen(t, p) && IsOpen(t, q) && t.runs[p].caseKey == t.runs[q].caseKey ==> p == q
    ensures forall q :: IsOpen(t, q) ==> t.runs[q].caseKey in t.cases && PastPlanning(t.cases[t.runs[q].caseKey].state)
  {
    hide IsOpen, Reviewed, StoreOutput, ClaimsOf;
    var c, r := CaseOf(a), RunOf(a);
    forall q | IsOpen(t, q) && q != r
      ensures IsOpen(s, q) && t.runs[q].caseKey == s.runs[q].caseKey
      ensures t.runs[q].caseKey != c
    {
    }
  }

  lemma PersistOpenExists(s: Store, a: PersistArgs, t: Store)
    requires HandoffOk(s) && Persisted(s, a, t)
    requires forall q :: q != RunOf(a) ==> IsOpen(t, q) == IsOpen(s, q)
    requires IsOpen(t, RunOf(a)) <==> a.target == ReviewRequired
    ensures forall d :: d in t.cases && PastPlanning(t.cases[d].state) ==> exists q :: IsOpen(t, q) && t.runs[q].caseKey == d
  {
    hide IsOpen, Reviewed, StoreOutput, ClaimsOf;
    var c, r := CaseOf(a), RunOf(a);
    forall d | d in t.cases && PastPlanning(t.cases[d].state)
      ensures exists q :: IsOpen(t, q) && t.runs[q].caseKey == d
    {
      if d == c {
        assert IsOpen(t, r) && t.runs[r].caseKey == c;
      } else {
        var q :| IsOpen(s, q) && s.runs[q].caseKey == d;
        assert q != r;
        assert IsOpen(t, q) && t.runs[q].caseKey == d;
      }
    }
  }

  // The rows of a finished run stay as they are, so a stored projection stays the recomputed one.
  lemma PersistedKept(s: Store, a: PersistArgs, t: Store)
    requires RunsOk(s) && Persisted(s, a, t)
    ensures Kept(s, t)
  {
    hide StoreOutput, ClaimsOf, RunsStep;
    StepKeeps(s.runs, a, t.runs);
    assert RunOf(a) !in s.rows by { FreshRun(s, a, t); }
    CasesUnsettled(s, a, t);
  }

  lemma FreshRun(s: Store, a: PersistArgs, t: Store)
    requires RunsOk(s) && RunsStep(s.runs, a, t.runs)
    ensures RunOf(a) !in s.rows
  {
  }

  lemma CasesUnsettled(s: Store, a: PersistArgs, t: Store)
    requires Persisted(s, a, t)
    ensures forall c :: c in s.cases && Settled(s.cases[c].state) ==> c in t.cases && t.cases[c].state == s.cases[c].state
    ensures forall c :: c in t.cases && Settled(t.cases[c].state) ==> c in s.cases && t.cases[c].state == s.cases[c].state
  {
    hide StoreOutput, ClaimsOf, RunsStep;
  }

  lemma PersistOutputs(s: Store, a: PersistArgs, t: Store)
    requires RunsOk(s) && OutputsOk(s) && Persisted(s, a, t)
    ensures OutputsOk(t)
  {
    hide RowsProven, StoreOutput, ClaimsOf;
    var claims := ClaimsOf(s.evidence, a.pack);
    StoredRowsProven(claims, a.output);
    forall r | r in t.runs && r in t.rows
      ensures RowsProven(ClaimsOf(t.evidence, t.runs[r].pack), t.rows[r])
    {
      if r != RunOf(a) {
        assert RowsProven(ClaimsOf(s.evidence, s.runs[r].pack), s.rows[r]);
      }
    }
  }

  // Every stored link, cost and ranking leans on evidence of the run's pack with a fitting claim.
  lemma StoredRowsProven(claims: Claims, output: Output)
    requires StoreOutput(claims, output).Ok?
    ensures RowsProven(claims, StoreOutput(claims, output).value)
  {
    hide StoreOutput, CostProvenance, CostValid, Supports, RankingValid, Flat;
    OutputStored(claims, output);
    var rows := StoreOutput(claims, output).value;
    LinksProven(claims, output, rows);
    CountriesDistinct(output, rows);
  }

  lemma CountriesDistinct(output: Output, rows: Rows)
    requires Layout(rows, RouteRows(output.routes), Flat(0, output.routes)) && OneRoutePerCountry(RouteRows(output.routes))
    ensures forall j, k :: j in rows.routes && k in rows.routes && rows.routes[j].country == rows.routes[k].country ==> j == k
  {
    hide Flat;
    var list := RouteRows(output.routes);
    forall j, k | j in rows.routes && k in rows.routes && rows.routes[j].country == rows.routes[k].country
      ensures j == k
    {
      assert rows.routes[j] == list[j - 1] && rows.routes[k] == list[k - 1];
    }
  }

  lemma LinksProven(claims: Claims, output: Output, rows: Rows)
    requires Layout(rows, RouteRows(output.routes), Flat(0, output.routes)) && Acceptable(claims, output)
    ensures forall l :: l in rows.links ==> LinkValid(claims, l.evidence, l.role)
  {
    hide LinkValid, CostProvenance, CostValid, Supports, RankingValid;
    var flat := Flat(0, output.routes);
    FlatAcceptable(claims, 0, output.routes);
    forall l | l in rows.links
      ensures LinkValid(claims, l.evidence, l.role)
    {
      var d := flat[l.dimension - 1].dimension;
      assert DimensionAcceptable(claims, d) && EvidenceUse(l.evidence, l.role) in d.uses;
    }
  }

  lemma {:induction false} FlatAcceptable(claims: Claims, last: nat, routes: seq<Route>)
    requires forall i :: 0 <= i < |routes| ==> RouteAcceptable(claims, routes[i])
    ensures forall i :: 0 <= i < |Flat(last, routes)| ==> DimensionAcceptable(claims, Flat(last, routes)[i].dimension)
    decreases |routes|
  {
    hide DimensionAcceptable;
    if routes != [] {
      FlatAcceptable(claims, last + 1, routes[1..]);
      assert RouteAcceptable(claims, routes[0]);
    }
  }

  lemma PersistFrames(s: Store, a: PersistArgs, t: Store)
    requires EvidenceOk(s) && RecordsOk(s) && Persisted(s, a, t)
    ensures EvidenceOk(t) && RecordsOk(t)
  {
  }

  lemma PersistPinned(s: Store, a: PersistArgs, t: Store)
    requires RunsOk(s) && PinnedOk(s) && Persisted(s, a, t)
    ensures PinnedOk(t)
  {
    hide StoreOutput, ClaimsOf, RunsStep, PinnedOk;
    StepKeeps(s.runs, a, t.runs);
    assert RunOf(a) !in s.rows by { FreshRun(s, a, t); }
    PinnedStays(s, t);
  }

  // A stored planning result keeps every part of the invariant.
  lemma PersistKeeps(s: Store, a: PersistArgs)
    requires Inv(s) && PersistResult(s, a).Ok?
    ensures Inv(PersistResult(s, a).value) && Persisted(s, a, PersistResult(s, a).value)
  {
    hide PersistResult, Kept, RunsStep, StoreOutput, CasesOk, RunsOk, ChainsOk, ReviewsOk, HandoffOk, BriefsOk, DecisionsOk, EvidenceOk, OutputsOk, RecordsOk, PinnedOk;
    PersistExactly(s, a);
    var t := PersistResult(s, a).value;
    PersistCases(s, a, t);
    PersistRuns(s, a, t);
    PersistChains(s, a, t);
    PersistReviews(s, a, t);
    PersistHandoff(s, a, t);
    PersistedKept(s, a, t);
    KeptBriefs(s, t);
    KeptDecisions(s, t);
    PersistOutputs(s, a, t);
    PersistFrames(s, a, t);
    PersistPinned(s, a, t);
  }
}
