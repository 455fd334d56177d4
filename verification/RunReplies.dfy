// The full replies of reviews and decisions over whole runs: a repeated call names the same brief,
// receipt and timeline as the first one, however much has happened since.
module RunReplies {
  import opened Sql
  import opened TaskLog
  import opened TaskCell
  import opened PlanningOutput
  import opened Idempotency
  import opened Planning
  import opened PlanningInvariants
  import opened PlanningHandoff
  import opened PlanningDecision
  import opened PlanningTheorems
  import opened TaskQueue
  import opened TaskInvariants
  import opened Promotion
  import opened LedgerInvariants
  import opened Runs
  import opened RunSteps
  import opened RunHistory
  import opened RunFacts

  // The moment is a call that succeeds with this full reply.
  predicate ReviewReplies(m: Moment, r: ReviewReply) {
    && m.call.ReviewCall? && m.outcome.Ok? && m.outcome.value.Replied?
    && ReviewAnswer(m.after.store, m.call.review, m.outcome.value.reply, r)
  }

  predicate DecideReplies(m: Moment, r: DecideReply) {
    && m.call.DecideCall? && m.outcome.Ok? && m.outcome.value.Replied?
    && DecideAnswer(m.after.store, m.call.decide, m.outcome.value.reply, r)
  }

  // ------------------------------------------------------------------ reviews

  // A first reply names the review's brief, and names one exactly for an approval.
  predicate ReviewStands(t: Store, r: ReviewReply) {
    && r.review in t.reviews && BriefOn(t.briefs, r.review, r.brief)
    && (r.brief.Some? <==> t.reviews[r.review].action == Approve)
  }

  lemma FirstReviewStands(s: Store, a: ReviewArgs, date: Option<int>, version: nat, t: Store, reply: Reply, r: ReviewReply)
    requires BriefsOk(s) && ReviewKey(a) !in s.records && ReviewRun(s, a, date, version) == Ok((t, reply)) && ReviewAnswer(t, a, reply, r)
    ensures ReviewStands(t, r) && !r.replayed && r.review == reply.id
  {
    hide ReviewRun, ReviewAllowed, AfterReview, CanonicalProjection, Eligible, DistinctIds;
    ReviewExactly(s, a, date, version);
    NewBriefStands(s, a, date, version);
  }

  lemma NewBriefStands(s: Store, a: ReviewArgs, date: Option<int>, version: nat)
    requires BriefsOk(s) && ReviewAllowed(s, a, date)
    ensures var t, id := AfterReview(s, a, date, version), Key(a.org, a.review);
            && id in t.reviews && BriefOn(t.briefs, id, BriefNamed(a))
            && (BriefNamed(a).Some? <==> t.reviews[id].action == Approve)
  {
    hide CanonicalProjection, Eligible, DistinctIds, DistinctRisks, AcceptancesOf, RiskValid, ReviewTarget, Insert, BriefsOk;
    var id := Key(a.org, a.review);
    assert id !in s.reviews;
    NoBriefOn(s, id);
  }

  lemma NoBriefOn(s: Store, id: Key)
    requires BriefsOk(s) && id !in s.reviews
    ensures BriefOn(s.briefs, id, None)
  {
    hide CanonicalProjection, Eligible, DistinctIds;
    forall b | b in s.briefs
      ensures s.briefs[b].review != id
    {
      assert BriefAgrees(s, b);
    }
  }

  // What a later state looks up is what the first reply named: only an approval has a brief, and
  // only one.
  lemma BriefFoundAgain(t: Store, u: Store, r: ReviewReply, b: Option<Key>)
    requires StoreLater(t, u) && BriefsOk(u) && ReviewStands(t, r) && BriefOn(u.briefs, r.review, b)
    ensures b == r.brief
  {
    hide BriefsOk;
    if r.brief.Some? {
      OneBriefOn(u, r.review, r.brief.value);
    } else if b.Some? {
      BriefIsApproved(u, b.value);
    }
  }

  lemma BriefIsApproved(u: Store, b: Key)
    requires BriefsOk(u) && b in u.briefs
    ensures u.briefs[b].review in u.reviews && u.reviews[u.briefs[b].review].action == Approve
    ensures u.reviews[u.briefs[b].review].caseKey == u.briefs[b].caseKey
  {
    hide CanonicalProjection, Eligible, DistinctIds;
    assert BriefAgrees(u, b);
  }

  lemma OneBriefOn(u: Store, review: Key, b: Key)
    requires BriefsOk(u) && b in u.briefs && u.briefs[b].review == review
    ensures forall d :: d in u.briefs && u.briefs[d].review == review ==> d == b
  {
    hide BriefAgrees;
    BriefIsApproved(u, b);
    forall d | d in u.briefs && u.briefs[d].review == review
      ensures d == b
    {
      BriefIsApproved(u, d);
    }
  }

  lemma FirstReviewReply(w: World, m: Moment, r: ReviewReply, rules: Rules)
    requires WorldInv(w, rules) && Happens(w, m, rules) && Unrecorded(w, m.call) && ReviewReplies(m, r)
    ensures ReviewStands(m.after.store, r) && !r.replayed && AnswerIs(m, r.review)
  {
    hide *;
    var a, date, version, reply := ReviewReplyParts(m, r);
    var v := Tick(w, m.wait);
    TickTables(w, m.wait);
    MomentOk(w, m, Replied(reply), rules);
    CallIs(v, m.call, rules);
    OnRecordedOk(v, ReviewRun(v.store, a, date, version), m.after, Replied(reply));
    KeyIs(w, m.call);
    WorldCells(w, rules);
    InvParts(w.store);
    FirstReviewStands(w.store, a, date, version, m.after.store, reply, r);
    RepliedId(m, reply);
  }

  lemma ReviewReplyParts(m: Moment, r: ReviewReply) returns (a: ReviewArgs, date: Option<int>, version: nat, reply: Reply)
    requires ReviewReplies(m, r)
    ensures m.call == ReviewCall(a, date, version) && m.outcome == Ok(Replied(reply)) && ReviewAnswer(m.after.store, a, reply, r)
  {
    hide ReviewAnswer;
    a, date, version, reply := m.call.review, m.call.date, m.call.version, m.outcome.value.reply;
  }

  predicate AnswerIs(m: Moment, id: Key) {
    m.outcome.Ok? && AnswerId(m.outcome.value) == Some(id)
  }

  lemma RepliedId(m: Moment, reply: Reply)
    requires m.outcome == Ok(Replied(reply))
    ensures AnswerIs(m, reply.id)
  {
  }

  // However long after a first review, a repetition that succeeds names the same review and the
  // same brief; only the state that it tells is the case's state of that time.
  lemma ReviewRepliesRepeat(w: World, first: Moment, run: seq<Moment>, again: Moment, x: ReviewReply, y: ReviewReply, rules: Rules)
    requires Reachable(w, rules) && IsRun(w, [first] + run + [again], rules)
    requires Unrecorded(w, first.call) && KeyOf(again.call) == KeyOf(first.call)
    requires ReviewReplies(first, x) && ReviewReplies(again, y)
    ensures !x.replayed && y == ReviewReply(x.review, x.brief, y.state, true)
  {
    hide *;
    var u := Last(first.after, run);
    Parts(w, first, run, again, rules);
    ReachableInv(w, rules);
    FirstReviewReply(w, first, x, rules);
    var a, date, version, reply := ReviewReplyParts(first, x);
    var b, otherDate, otherVersion, second := ReviewReplyParts(again, y);
    RecordedKey(first.call);
    ExactlyOnce(w, first, run, again, rules);
    SameAnswer(u, first, again, x.review, second);
    LaterState(w, first, run, rules);
    ReplayedReview(again.after.store, b, second, y);
    BriefFoundAgain(first.after.store, u.store, x, y.brief);
  }

  lemma RecordedKey(call: Call)
    requires call.ReviewCall? || call.DecideCall?
    ensures KeyOf(call).Some?
  {
  }

  // A replay tells the first id and leaves the tables as they are.
  lemma SameAnswer(u: World, first: Moment, again: Moment, id: Key, reply: Reply)
    requires FirstAnswer(first) && AnswerIs(first, id) && AnsweredFrom(u, again, RecordOf(first.after, first.call))
    requires again.outcome == Ok(Replied(reply))
    ensures reply == Reply(id, true) && again.after.store == u.store
  {
    hide RequestOf, RecordOf;
  }

  lemma LaterState(w: World, first: Moment, run: seq<Moment>, rules: Rules)
    requires Reachable(w, rules) && Happens(w, first, rules) && IsRun(first.after, run, rules)
    ensures StoreLater(first.after.store, Last(first.after, run).store) && Inv(Last(first.after, run).store)
    ensures BriefsOk(Last(first.after, run).store) && DecisionsOk(Last(first.after, run).store)
  {
    hide *;
    var u := Last(first.after, run);
    ReachableInv(w, rules);
    MomentSteps(w, first, rules);
    StepsInv(w, first.after, rules);
    RunKeeps(first.after, run, rules);
    RunLater(first.after, run, rules);
    LaterTables(first.after, u);
    WorldCells(u, rules);
    InvParts(u.store);
  }

  lemma ReplayedReview(t: Store, a: ReviewArgs, reply: Reply, r: ReviewReply)
    requires ReviewAnswer(t, a, reply, r) && reply.replayed
    ensures r.review == reply.id && r.replayed && BriefOn(t.briefs, r.review, r.brief)
  {
    hide BriefOn;
  }

  // ------------------------------------------------------------------ decisions

  // A first reply names the decision's receipt and its timeline.
  predicate DecisionStands(t: Store, r: DecideReply) {
    && r.decision in t.decisions && r.receipt == Some(t.decisions[r.decision].receipt)
    && r.timeline.Some? && TimelineOn(t.timelines, r.decision, r.timeline)
  }

  lemma FirstDecisionStands(s: Store, a: DecideArgs, pick: Option<nat>, t: Store, reply: Reply, r: DecideReply)
    requires DecideKey(a) !in s.records && DecideBrief(s, a, pick) == Ok((t, reply)) && DecideAnswer(t, a, reply, r)
    ensures DecisionStands(t, r) && !r.replayed && r.decision == reply.id
  {
    hide DecideBrief, DecideTarget, DecideRefusal, Insert, Milestones;
    DecideExactly(s, a, pick);
  }

  lemma TimelineFoundAgain(t: Store, u: Store, r: DecideReply, x: Option<Key>)
    requires StoreLater(t, u) && DecisionsOk(u) && DecisionStands(t, r) && TimelineOn(u.timelines, r.decision, x)
    ensures ReceiptOf(u.decisions, r.decision) == r.receipt && x == r.timeline
  {
    hide DecisionAgrees, TimelineAgrees;
    var k := r.timeline.value;
    assert k in u.timelines && u.timelines[k].decision == r.decision;
  }

  lemma FirstDecideReply(w: World, m: Moment, r: DecideReply, rules: Rules)
    requires WorldInv(w, rules) && Happens(w, m, rules) && Unrecorded(w, m.call) && DecideReplies(m, r)
    ensures DecisionStands(m.after.store, r) && !r.replayed && AnswerIs(m, r.decision)
  {
    hide *;
    var a, pick, reply := DecideReplyParts(m, r);
    var v := Tick(w, m.wait);
    TickTables(w, m.wait);
    MomentOk(w, m, Replied(reply), rules);
    CallIs(v, m.call, rules);
    OnRecordedOk(v, DecideBrief(v.store, a, pick), m.after, Replied(reply));
    KeyIs(w, m.call);
    FirstDecisionStands(w.store, a, pick, m.after.store, reply, r);
    RepliedId(m, reply);
  }

  lemma DecideReplyParts(m: Moment, r: DecideReply) returns (a: DecideArgs, pick: Option<nat>, reply: Reply)
    requires DecideReplies(m, r)
    ensures m.call == DecideCall(a, pick) && m.outcome == Ok(Replied(reply)) && DecideAnswer(m.after.store, a, reply, r)
  {
    hide DecideAnswer;
    a, pick, reply := m.call.decide, m.call.pick, m.outcome.value.reply;
  }

  lemma ReplayedDecision(t: Store, a: DecideArgs, reply: Reply, r: DecideReply)
    requires DecideAnswer(t, a, reply, r) && reply.replayed
    ensures r.decision == reply.id && r.replayed && r.receipt == ReceiptOf(t.decisions, r.decision) && TimelineOn(t.timelines, r.decision, r.timeline)
  {
    hide TimelineOn, ReceiptOf;
  }

  // However long after a first decision, a repetition that succeeds gives the same reply but for
  // the replay flag.
  lemma DecideRepliesRepeat(w: World, first: Moment, run: seq<Moment>, again: Moment, x: DecideReply, y: DecideReply, rules: Rules)
    requires Reachable(w, rules) && IsRun(w, [first] + run + [again], rules)
    requires Unrecorded(w, first.call) && KeyOf(again.call) == KeyOf(first.call)
    requires DecideReplies(first, x) && DecideReplies(again, y)
    ensures !x.replayed && y == x.(replayed := true)
  {
    hide *;
    var u := Last(first.after, run);
    Parts(w, first, run, again, rules);
    ReachableInv(w, rules);
    FirstDecideReply(w, first, x, rules);
    var a, pick, reply := DecideReplyParts(first, x);
    var b, otherPick, second := DecideReplyParts(again, y);
    RecordedKey(first.call);
    ExactlyOnce(w, first, run, again, rules);
    SameAnswer(u, first, again, x.decision, second);
    LaterState(w, first, run, rules);
    ReplayedDecision(again.after.store, b, second, y);
    TimelineFoundAgain(first.after.store, u.store, x, y.timeline);
  }
}
