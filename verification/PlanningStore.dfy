// The planning tables as one updatable database. Every method is one transaction: it reads and
// changes the tables step by step, and an error leaves all of them as they were.
module PlanningStore {
  import opened Sql
  import opened PlanningOutput
  import opened Idempotency
  import opened Planning

  class PlanningStore {
    var cases: map<Key, Case>
    var revisions: map<RevisionKey, Revision>
    var packs: map<PackKey, Pack>
    var entries: map<EntryKey, Entry>
    var evidence: map<Key, Evidence>
    var runs: map<Key, Run>
    var rows: map<Key, Rows>
    var participants: set<Participant>
    var reviews: map<Key, Review>
    var acceptances: set<Acceptance>
    var briefs: map<Key, Brief>
    var decisions: map<Key, Decision>
    var timelines: map<Key, Timeline>
    var records: Records

    function Tables(): Store
      reads this
    {
      Store(cases, revisions, packs, entries, evidence, runs, rows, participants,
            reviews, acceptances, briefs, decisions, timelines, records)
    }

    constructor ()
      ensures Tables() == EMPTY
    {
      cases, revisions, packs, entries, evidence := map[], map[], map[], map[], map[];
      runs, rows, participants, reviews, acceptances := map[], map[], {}, map[], {};
      briefs, decisions, timelines, records := map[], map[], map[], map[];
    }

    // The effect of a transaction without a reply.
    ghost predicate Committed(before: Store, outcome: Result<Store>, error: Option<Error>)
      reads this
    {
      match outcome
      case Err(e) => error == Some(e) && Tables() == before
      case Ok(after) => error == None && Tables() == after
    }

    ghost predicate Replied(before: Store, outcome: Result<(Store, Reply)>, r: Result<Reply>)
      reads this
    {
      match outcome
      case Err(e) => r == Err(e) && Tables() == before
      case Ok(after) => r == Ok(after.1) && Tables() == after.0
    }

    lemma RepliedIs(before: Store, outcome: Result<(Store, Reply)>, r: Result<Reply>)
      ensures Replied(before, outcome, r) <==>
                match outcome
                case Err(e) => r == Err(e) && Tables() == before
                case Ok((after, reply)) => r == Ok(reply) && Tables() == after
    {
    }

    lemma TablesAre()
      ensures Tables() == Store(cases, revisions, packs, entries, evidence, runs, rows, participants,
                                reviews, acceptances, briefs, decisions, timelines, records)
    {
    }

    // The same for a review and for a decision with their full replies.
    ghost predicate AnsweredReview(before: Store, a: ReviewArgs, outcome: Result<(Store, Reply)>, r: Result<ReviewReply>)
      reads this
    {
      match outcome
      case Err(e) => r == Err(e) && Tables() == before
      case Ok(after) => r.Ok? && ReviewAnswer(after.0, a, after.1, r.value) && Tables() == after.0
    }

    ghost predicate AnsweredDecision(before: Store, a: DecideArgs, outcome: Result<(Store, Reply)>, r: Result<DecideReply>)
      reads this
    {
      match outcome
      case Err(e) => r == Err(e) && Tables() == before
      case Ok(after) => r.Ok? && DecideAnswer(after.0, a, after.1, r.value) && Tables() == after.0
    }

    method PublishRevision(c: Key, expected: Option<int>, revision: int, facts: Revision) returns (error: Option<Error>)
      modifies this`cases, this`revisions
      ensures Committed(old(Tables()), Planning.PublishRevision(old(Tables()), c, expected, revision, facts), error)
    {
      var actual: Option<int> := None;
      var state := Intake;
      if c in cases {
        actual := Some(cases[c].revision);
        state := cases[c].state;
      }
      if actual != expected || revision != (if expected.Some? then expected.value else 0) + 1 {
        return Some(NV003);
      }
      if revision <= 0 {
        return Some(CheckViolation);
      }
      if RevisionKey(c, revision) in revisions {
        return Some(UniqueViolation);
      }
      revisions := revisions[RevisionKey(c, revision) := facts];
      cases := cases[c := Case(state, revision)];
      return None;
    }

    method TransitionCase(c: Key, expected: CaseState, target: CaseState) returns (error: Option<Error>)
      modifies this`cases
      ensures Committed(old(Tables()), Planning.TransitionCase(old(Tables()), c, expected, target), error)
    {
      if !(expected == Intake && target == InPlanning) {
        return Some(NV006);
      }
      if c !in cases || cases[c].state != expected {
        return Some(NV006);
      }
      cases := cases[c := cases[c].(state := target)];
      return None;
    }

    method AddParticipants(c: Key, advisor: nat, student: nat, parent: nat) returns (error: Option<Error>)
      modifies this`participants
      ensures Committed(old(Tables()), Planning.AddParticipants(old(Tables()), c, advisor, student, parent), error)
    {
      if c !in cases {
        return Some(ForeignKeyViolation);
      }
      participants := participants + {Participant(c, advisor, Advisor), Participant(c, student, Student), Participant(c, parent, Parent)};
      return None;
    }

    // The pack row, then its entries one by one.
    method PersistPack(pack: PackKey, manifest: string, items: seq<NewEntry>) returns (error: Option<Error>)
      modifies this`packs, this`entries
      ensures Committed(old(Tables()), Planning.PersistPack(old(Tables()), pack, manifest, items), error)
    {
      hide EntryValid, IsSha256;
      if pack.version <= 0 || !IsSha256(manifest) {
        return Some(CheckViolation);
      }
      if pack in packs {
        return Some(UniqueViolation);
      }
      var inserted := entries;
      for i := 0 to |items|
        invariant InsertEntries(entries, pack, items) == InsertEntries(inserted, pack, items[i..])
      {
        var item := items[i];
        assert items[i..][1..] == items[i + 1..];
        if !EntryValid(item.entry) {
          return Some(CheckViolation);
        }
        if EntryKey(pack, item.id) in inserted {
          return Some(UniqueViolation);
        }
        inserted := inserted[EntryKey(pack, item.id) := item.entry];
      }
      packs := packs[pack := Pack(manifest)];
      entries := inserted;
      return None;
    }

    method PersistEvidence(id: Key, e: Evidence) returns (error: Option<Error>)
      modifies this`evidence
      ensures Committed(old(Tables()), Planning.PersistEvidence(old(Tables()), id, e), error)
    {
      hide IsSha256;
      if e.pack.org != id.org || !Provenance(entries, e) {
        return Some(NV004);
      }
      if !IsSha256(e.sha256) {
        return Some(CheckViolation);
      }
      if id in evidence || ClaimTaken(evidence, e.pack, e.claim) {
        return Some(UniqueViolation);
      }
      evidence := evidence[id := e];
      return None;
    }

    // Supersede, insert the run, store its output, finish the run, hand the case over.
    method PersistResult(a: PersistArgs) returns (error: Option<Error>)
      modifies this`runs, this`rows, this`cases
      ensures Committed(old(Tables()), Planning.PersistResult(old(Tables()), a), error)
    {
      hide IsSha256, StoreOutput, GuardCase, GuardRun, HandOff, NewRun, FinishedRun, ClaimsOf, HasCurrent;
      if !IsTerminalRun(a.target) {
        return Some(NV006);
      }
      var c, id := CaseOf(a), RunOf(a);
      if !(c in cases && cases[c].revision == a.revision && cases[c].state == InPlanning) {
        return Some(NV003);
      }
      var working := runs;
      if a.supersedes.Some? {
        var k := Key(a.org, a.supersedes.value);
        if k !in working || !working[k].current {
          return Some(NV003);
        }
        var refused := GuardRun(working[k], working[k].(current := false));
        if refused.Some? {
          return refused;
        }
        working := working[k := working[k].(current := false)];
      }
      if a.pack.org != a.org || a.pack !in packs {
        return Some(ForeignKeyViolation);
      }
      if !IsSha256(a.evidenceHash) {
        return Some(CheckViolation);
      }
      if id in working || HasCurrent(working, c) {
        return Some(UniqueViolation);
      }
      var stored := InsertOutput(ClaimsOf(evidence, a.pack), a.output);
      if stored.Err? {
        return Some(stored.error);
      }
      if a.outputHash.Some? && !IsSha256(a.outputHash.value) {
        return Some(CheckViolation);
      }
      var refused := GuardRun(NewRun(a), FinishedRun(a));
      if refused.Some? {
        return refused;
      }
      working := working[id := FinishedRun(a)];
      var output := rows[id := stored.value];
      assert Planning.PersistResult(Tables(), a) == HandOff(Tables().(runs := working, rows := output), a);
      error := WriteRun(a, working, output);
    }

    // The new run and its rows, and the trigger that hands the case over.
    method WriteRun(a: PersistArgs, working: map<Key, Run>, output: map<Key, Rows>) returns (error: Option<Error>)
      requires CaseAt(Tables(), CaseOf(a), a.revision, InPlanning)
      modifies this`runs, this`rows, this`cases
      ensures Committed(old(Tables()), HandOff(old(Tables()).(runs := working, rows := output), a), error)
    {
      hide GuardCase;
      var c := CaseOf(a);
      if a.target == ReviewRequired {
        if !GuardCase(Tables().(runs := working, rows := output), c, InAdvisorReview) {
          return Some(NV006);
        }
        cases := cases[c := cases[c].(state := InAdvisorReview)];
      }
      runs, rows := working, output;
      return None;
    }

    // SELECT max(snapshot_date) over the entries of a pack.
    method LatestSnapshot(pack: PackKey) returns (date: Option<int>)
      ensures IsSourceDate(entries, pack, date)
    {
      date := None;
      var rest := entries.Keys;
      while rest != {}
        invariant rest <= entries.Keys
        invariant date.None? ==> forall k :: k in entries && k !in rest ==> k.pack != pack
        invariant date.Some? ==> exists k :: k in entries && k.pack == pack && entries[k].snapshot == date.value
        invariant date.Some? ==> forall k :: k in entries && k !in rest && k.pack == pack ==> entries[k].snapshot <= date.value
        decreases rest
      {
        var k :| k in rest;
        rest := rest - {k};
        if k.pack == pack && (date.None? || entries[k].snapshot > date.value) {
          date := Some(entries[k].snapshot);
        }
      }
    }

    // SELECT COALESCE(max(review_version), 0) + 1 over the reviews of a run.
    method NextVersion(run: Key) returns (version: nat)
      ensures NextReviewVersion(reviews, run, version)
    {
      version := 1;
      var rest := reviews.Keys;
      while rest != {}
        invariant rest <= reviews.Keys && version >= 1
        invariant forall k :: k in reviews && k !in rest && reviews[k].run == run ==> reviews[k].version < version
        invariant version > 1 ==> exists k :: k in reviews && reviews[k].run == run && reviews[k].version == version - 1
        decreases rest
      {
        var k :| k in rest;
        rest := rest - {k};
        if reviews[k].run == run && reviews[k].version >= version {
          version := reviews[k].version + 1;
        }
      }
    }

    // The aggregates that a review reads.
    ghost predicate ReviewFacts(s: Store, a: ReviewArgs, date: Option<int>, version: nat) {
      && (Key(a.org, a.run) in s.runs ==> IsSourceDate(s.entries, s.runs[Key(a.org, a.run)].pack, date))
      && NextReviewVersion(s.reviews, Key(a.org, a.run), version)
    }

    // The dates and versions are ghost results: they tell which aggregates the call has read.
    method ReviewRun(a: ReviewArgs) returns (r: Result<ReviewReply>, ghost date: Option<int>, ghost version: nat)
      modifies this`reviews, this`acceptances, this`briefs, this`cases, this`records
      ensures ReviewFacts(old(Tables()), a, date, version)
      ensures AnsweredReview(old(Tables()), a, Planning.ReviewRun(old(Tables()), a, date, version), r)
    {
      hide ReviewTarget, ReviewRefusal, GuardCase, AcceptancesOf, WithReview, IsSourceDate, NextReviewVersion, Planning.ReviewRun;
      ghost var before := Tables();
      var c, run, id, key := Key(a.org, a.caseId), Key(a.org, a.run), Key(a.org, a.review), ReviewKey(a);
      var latest: Option<int> := None;
      if run in runs {
        latest := LatestSnapshot(runs[run].pack);
      }
      var next := NextVersion(run);
      date, version := latest, next;
      ReviewBranches(before, a, date, version);
      var prior := Lookup(records, key, a.request);
      if prior.Mismatch? {
        r := Err(NV008);
        return;
      }
      if prior.Replayed? {
        var brief := FindBrief(prior.reply.id);
        r := Ok(ReviewReply(prior.reply.id, brief, StateOf(cases, c), true));
        return;
      }
      if Participant(c, a.actor, Advisor) !in participants {
        r := Err(NV007);
        return;
      }
      if !ReviewTarget(Tables(), a) {
        r := Err(NV003);
        return;
      }
      var refusal := ReviewRefusal(Tables(), a, latest);
      if refusal.Some? {
        r := Err(refusal.value);
        return;
      }
      var target := if a.action == Approve then InFamilyReview else InPlanning;
      var written := WriteReview(a, latest, next, target);
      r := match written case Err(e) => Err(e) case Ok(reply) => Ok(ReviewReply(reply.id, BriefNamed(a), StateOf(cases, c), false));
    }

    method FindBrief(review: Key) returns (b: Option<Key>)
      ensures BriefOn(briefs, review, b)
    {
      if exists k :: k in briefs && briefs[k].review == review {
        var k :| k in briefs && briefs[k].review == review;
        return Some(k);
      }
      return None;
    }

    // The writes of a review that nothing refuses: the review, its accepted risks, the brief,
    // the case's move through its trigger, and the record.
    method WriteReview(a: ReviewArgs, date: Option<int>, version: nat, target: CaseState) returns (r: Result<Reply>)
      requires ReviewTarget(Tables(), a) && ReviewRefusal(Tables(), a, date) == None
      modifies this`reviews, this`acceptances, this`briefs, this`cases, this`records
      ensures Replied(old(Tables()), Reviewed(old(Tables()), a, date, version, target), r) && (r.Ok? ==> !r.value.replayed)
    {
      hide ReviewTarget, ReviewRefusal, GuardCase, WithReview, AcceptancesOf, NewReview, Reviewed, Insertable;
      var c, id, key := Key(a.org, a.caseId), Key(a.org, a.review), ReviewKey(a);
      ReviewWritten(Tables(), a, date, version, target);
      var written := WithReview(Tables(), a, date, version);
      if !GuardCase(written, c, target) {
        return Err(NV006);
      }
      if !Insertable(records, key, a.request) {
        return Err(CheckViolation);
      }
      var accepted := AcceptRisks(id, a.risks, a);
      reviews := reviews[id := NewReview(a, version)];
      acceptances := accepted;
      briefs := written.briefs;
      cases := cases[c := cases[c].(state := target)];
      records := Insert(records, key, a.request, id);
      return Ok(Reply(id, false));
    }

    lemma ReviewWritten(s: Store, a: ReviewArgs, date: Option<int>, version: nat, target: CaseState)
      requires ReviewTarget(s, a) && ReviewRefusal(s, a, date) == None
      ensures var c, id, written := Key(a.org, a.caseId), Key(a.org, a.review), WithReview(s, a, date, version);
              && c in s.cases && written.cases == s.cases
              && Reviewed(s, a, date, version, target) ==
                   if !GuardCase(written, c, target) then Err(NV006)
                   else if !Insertable(s.records, ReviewKey(a), a.request) then Err(CheckViolation)
                   else Ok((s.(reviews := s.reviews[id := NewReview(a, version)],
                               acceptances := s.acceptances + AcceptancesOf(a),
                               briefs := written.briefs,
                               cases := s.cases[c := s.cases[c].(state := target)],
                               records := Insert(s.records, ReviewKey(a), a.request, id)), Reply(id, false)))
    {
      hide ReviewTarget, ReviewRefusal, GuardCase, AcceptancesOf, NewReview, NewBrief, Insertable, Insert;
      ReviewFits(s, a);
    }

    ghost function Reviewed(s: Store, a: ReviewArgs, date: Option<int>, version: nat, target: CaseState): Result<(Store, Reply)>
      requires ReviewTarget(s, a) && ReviewRefusal(s, a, date) == None
    {
      match MoveCase(WithReview(s, a, date, version), Key(a.org, a.caseId), InAdvisorReview, target)
      case Err(e) => Err(e)
      case Ok(moved) =>
        if !Insertable(moved.records, ReviewKey(a), a.request) then Err(CheckViolation)
        else Ok((moved.(records := Insert(moved.records, ReviewKey(a), a.request, Key(a.org, a.review))), Reply(Key(a.org, a.review), false)))
    }

    lemma ReviewBranches(s: Store, a: ReviewArgs, date: Option<int>, version: nat)
      ensures var prior, r := Lookup(s.records, ReviewKey(a), a.request), Planning.ReviewRun(s, a, date, version);
              && (prior.Mismatch? ==> r == Err(NV008))
              && (prior.Replayed? ==> r == Ok((s, prior.reply)))
              && (prior.Fresh? ==>
                    if Participant(Key(a.org, a.caseId), a.actor, Advisor) !in s.participants then r == Err(NV007)
                    else if !ReviewTarget(s, a) then r == Err(NV003)
                    else if ReviewRefusal(s, a, date).Some? then r == Err(ReviewRefusal(s, a, date).value)
                    else r == Reviewed(s, a, date, version, if a.action == Approve then InFamilyReview else InPlanning))
    {
      hide ReviewTarget, ReviewRefusal, WithReview, MoveCase, Insertable;
    }

    lemma ReviewFits(s: Store, a: ReviewArgs)
      requires ReviewTarget(s, a)
      ensures Key(a.org, a.caseId) in s.cases && s.cases[Key(a.org, a.caseId)].state == InAdvisorReview
    {
    }

    // One acceptance row per risk item.
    method AcceptRisks(id: Key, risks: seq<Risk>, ghost a: ReviewArgs) returns (all: set<Acceptance>)
      requires id == Key(a.org, a.review) && risks == a.risks
      ensures all == acceptances + AcceptancesOf(a)
    {
      all := acceptances;
      for i := 0 to |risks|
        invariant all == acceptances + set j | 0 <= j < i :: Acceptance(id, risks[j].evidence, risks[j].kind, risks[j].reason)
      {
        all := all + {Acceptance(id, risks[i].evidence, risks[i].kind, risks[i].reason)};
      }
    }

    // Any one Australian cost row of the brief's run, or none when there is none.
    ghost predicate DecideFacts(s: Store, a: DecideArgs, pick: Option<nat>) {
      var b := Key(a.org, a.brief);
      b in s.briefs && s.briefs[b].run in s.rows ==> CostPick(s.rows[s.briefs[b].run], pick)
    }

    method PickCost(table: Rows) returns (pick: Option<nat>)
      ensures CostPick(table, pick)
    {
      if exists k :: k in table.costs && table.costs[k].country == "australia" {
        var k :| k in table.costs && table.costs[k].country == "australia";
        return Some(k);
      }
      return None;
    }

    method DecideBrief(a: DecideArgs) returns (r: Result<DecideReply>, ghost pick: Option<nat>)
      modifies this`decisions, this`timelines, this`cases, this`briefs, this`records
      ensures DecideFacts(old(Tables()), a, pick)
      ensures AnsweredDecision(old(Tables()), a, Planning.DecideBrief(old(Tables()), a, pick), r)
    {
      hide DecideTarget, DecideRefusal, RecordDecision, CostPick;
      var b, key := Key(a.org, a.brief), DecideKey(a);
      var picked: Option<nat> := None;
      if b in briefs && briefs[b].run in rows {
        picked := PickCost(rows[briefs[b].run]);
      }
      pick := picked;
      var prior := Lookup(records, key, a.request);
      if prior.Mismatch? {
        r := Err(NV008);
        return;
      }
      if prior.Replayed? {
        var timeline := FindTimeline(prior.reply.id);
        r := Ok(DecideReply(prior.reply.id, ReceiptOf(decisions, prior.reply.id), timeline, true));
        return;
      }
      if !DecideTarget(Tables(), a) {
        r := Err(NV003);
        return;
      }
      var refusal := DecideRefusal(Tables(), a, picked);
      if refusal.Some? {
        r := Err(refusal.value);
        return;
      }
      var written := WriteDecision(a);
      r := match written case Err(e) => Err(e) case Ok(reply) => Ok(DecideReply(reply.id, Some(a.receipt), Some(Key(a.org, a.timeline)), false));
    }

    method FindTimeline(decision: Key) returns (t: Option<Key>)
      ensures TimelineOn(timelines, decision, t)
    {
      if exists k :: k in timelines && timelines[k].decision == decision {
        var k :| k in timelines && timelines[k].decision == decision;
        return Some(k);
      }
      return None;
    }

    // The writes of a decision: the decision, the case to decided, the timeline, the case to
    // plan ready, the brief retired, and the record.
    method WriteDecision(a: DecideArgs) returns (r: Result<Reply>)
      requires DecideTarget(Tables(), a)
      modifies this`decisions, this`timelines, this`cases, this`briefs, this`records
      ensures Replied(old(Tables()), RecordDecision(old(Tables()), a), r) && (r.Ok? ==> !r.value.replayed)
    {
      hide *;
      var s := Tables();
      TablesAre();
      DecisionWritten(s, a);
      var b, id, key := Key(a.org, a.brief), Key(a.org, a.decision), DecideKey(a);
      var c := s.briefs[b].caseKey;
      var decided := WithDecision(s, a);
      if !GuardCase(decided, c, CaseState.Decided) {
        r := Err(NV006);
        RepliedIs(s, RecordDecision(s, a), r);
        return;
      }
      var planned := WithTimeline(decided, s, a);
      if !GuardCase(planned, c, PlanReady) {
        r := Err(NV006);
        RepliedIs(s, RecordDecision(s, a), r);
        return;
      }
      if !Insertable(records, key, a.request) {
        r := Err(CheckViolation);
        RepliedIs(s, RecordDecision(s, a), r);
        return;
      }
      StorePlan(planned.decisions, planned.timelines, planned.cases[c := planned.cases[c].(state := PlanReady)],
                briefs[b := briefs[b].(current := false)], Insert(records, key, a.request, id));
      r := Ok(Reply(id, false));
      RepliedIs(s, RecordDecision(s, a), r);
    }

    // The five tables that a decision changes.
    method StorePlan(decided: map<Key, Decision>, planned: map<Key, Timeline>, moved: map<Key, Case>, retired: map<Key, Brief>, recorded: Records)
      modifies this`decisions, this`timelines, this`cases, this`briefs, this`records
      ensures Tables() == old(Tables()).(decisions := decided, timelines := planned, cases := moved, briefs := retired, records := recorded)
    {
      decisions, timelines := decided, planned;
      cases, briefs, records := moved, retired, recorded;
    }

    // The tables with the decision, and then with its timeline and the case that it decides.
    function WithDecision(s: Store, a: DecideArgs): Store
      requires DecideTarget(s, a)
    {
      s.(decisions := s.decisions[Key(a.org, a.decision) := NewDecision(s, a)])
    }

    function WithTimeline(decided: Store, s: Store, a: DecideArgs): Store
      requires DecideTarget(s, a)
    {
      var c := s.briefs[Key(a.org, a.brief)].caseKey;
      decided.(cases := s.cases[c := s.cases[c].(state := CaseState.Decided)],
               timelines := s.timelines[Key(a.org, a.timeline) := NewTimeline(s, a)])
    }

    lemma DecisionWritten(s: Store, a: DecideArgs)
      requires DecideTarget(s, a)
      ensures Key(a.org, a.brief) in s.briefs && s.briefs[Key(a.org, a.brief)].caseKey in s.cases
      ensures var b, id := Key(a.org, a.brief), Key(a.org, a.decision);
              var c := s.briefs[b].caseKey;
              var decided := WithDecision(s, a);
              var planned := WithTimeline(decided, s, a);
              && c in decided.cases && c in planned.cases
              && RecordDecision(s, a) ==
                   if !GuardCase(decided, c, CaseState.Decided) then Err(NV006)
                   else if !GuardCase(planned, c, PlanReady) then Err(NV006)
                   else if !Insertable(s.records, DecideKey(a), a.request) then Err(CheckViolation)
                   else Ok((Store(planned.cases[c := planned.cases[c].(state := PlanReady)], s.revisions, s.packs, s.entries, s.evidence,
                                  s.runs, s.rows, s.participants, s.reviews, s.acceptances, s.briefs[b := s.briefs[b].(current := false)],
                                  planned.decisions, planned.timelines, Insert(s.records, DecideKey(a), a.request, id)), Reply(id, false)))
    {
      hide GuardCase, NewTimeline, NewDecision, Insertable, Insert;
    }
  }
}
