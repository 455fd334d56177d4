// Cases, source packs, evidence, planning runs, reviews, briefs, decisions and timelines: the
// tables of one database and the functions that change them. Every function either yields the
// new tables or an error that rolls everything back.
module Planning {
  import opened Sql
  import opened PlanningOutput
  import opened Idempotency

  datatype CaseState = Intake | InPlanning | InAdvisorReview | InFamilyReview | Decided | PlanReady
  datatype Case = Case(state: CaseState, revision: int)
  datatype RevisionKey = RevisionKey(caseKey: Key, revision: int)

  // The facts of a revision that later steps read.
  datatype Revision = Revision(intake: Option<string>, hardCeiling: Option<int>)

  datatype Pack = Pack(manifest: string)
  datatype EntryKey = EntryKey(pack: PackKey, id: nat)
  datatype Entry = Entry(
    path: string, sha256: string, snapshot: int, publisher: string, institution: string, url: string,
    freshness: int, redistribution: string, evidenceClass: string, coverage: seq<string>, gaps: seq<string>)
  datatype Authority = UntrustedCandidate | AcceptedSyntheticDemo | ExternallyVerified
  datatype Evidence = Evidence(pack: PackKey, entry: nat, claim: string, authority: Authority, sha256: string)

  datatype RunState = Draft | CollectingEvidence | Synthesizing | RunFailed | RunBlocked | ReviewRequired
  datatype Run = Run(
    caseKey: Key, revision: int, pack: PackKey, policy: string, evidenceHash: string,
    state: RunState, reason: Option<string>, outputHash: Option<string>, supersedes: Option<Key>, current: bool)

  datatype Role = Advisor | Student | Parent | OtherRole
  datatype Participant = Participant(caseKey: Key, actor: nat, role: Role)

  datatype Action = Approve | Reject | RequestRevision | OtherAction
  datatype Risk = Risk(evidence: nat, kind: string, reason: string)
  datatype Acceptance = Acceptance(review: Key, evidence: nat, kind: string, reason: string)
  datatype Review = Review(
    caseKey: Key, revision: int, run: Key, version: nat, actor: nat, action: Action, eligible: seq<nat>, risks: seq<Risk>)

  datatype RouteView = RouteView(id: nat, row: RouteRow)
  datatype Projection = Projection(routes: seq<RouteView>, eligible: seq<nat>, risks: seq<Risk>, intake: string)
  datatype Brief = Brief(
    caseKey: Key, revision: int, run: Key, review: Key, version: int, policy: string, pack: PackKey,
    evidenceHash: string, outputHash: string, sourceDate: int, projection: Projection, current: bool)

  datatype Date = Date(year: int, month: int, day: int)
  datatype Milestone = Milestone(key: string, due: Date)
  datatype Decision = Decision(
    receipt: nat, caseKey: Key, brief: Key, briefVersion: int, run: Key, route: nat,
    min: int, max: int, tradeOffs: set<string>, madeBy: nat, recordedBy: nat, source: string)
  datatype Timeline = Timeline(decision: Key, country: string, intake: string, milestones: seq<Milestone>)

  datatype Store = Store(
    cases: map<Key, Case>,
    revisions: map<RevisionKey, Revision>,
    packs: map<PackKey, Pack>,
    entries: map<EntryKey, Entry>,
    evidence: map<Key, Evidence>,
    runs: map<Key, Run>,
    rows: map<Key, Rows>,
    participants: set<Participant>,
    reviews: map<Key, Review>,
    acceptances: set<Acceptance>,
    briefs: map<Key, Brief>,
    decisions: map<Key, Decision>,
    timelines: map<Key, Timeline>,
    records: Records)

  const EMPTY := Store(map[], map[], map[], map[], map[], map[], map[], {}, map[], {}, map[], map[], map[], map[])

  // ------------------------------------------------------------------ triggers

  predicate IsTerminalRun(state: RunState) {
    state == RunFailed || state == RunBlocked || state == ReviewRequired
  }

  // The trigger on updates of a planning run.
  function GuardRun(before: Run, after: Run): Option<Error> {
    if IsTerminalRun(before.state) then
      if before.current && !after.current && after == before.(current := after.current, supersedes := after.supersedes)
      then None else Some(NV005)
    else if !(|| (before.state == Draft && after.state in {CollectingEvidence, RunFailed})
              || (before.state == CollectingEvidence && after.state in {Synthesizing, RunFailed})
              || (before.state == Synthesizing && IsTerminalRun(after.state))) then Some(NV006)
    else if !(&& after.caseKey == before.caseKey && after.revision == before.revision && after.pack == before.pack
              && after.policy == before.policy && after.evidenceHash == before.evidenceHash) then Some(NV005)
    else None
  }

  // The trigger on changes of a case's state.
  predicate GuardCase(s: Store, c: Key, to: CaseState)
    requires c in s.cases
  {
    var from, revision := s.cases[c].state, s.cases[c].revision;
    || from == to
    || (from == Intake && to == InPlanning)
    || (from == InPlanning && to == InAdvisorReview
        && exists r :: r in s.runs && s.runs[r].caseKey == c && s.runs[r].revision == revision
                       && s.runs[r].current && s.runs[r].state == ReviewRequired)
    || (from == InAdvisorReview && to == InFamilyReview
        && exists b :: b in s.briefs && s.briefs[b].caseKey == c && s.briefs[b].revision == revision && s.briefs[b].current)
    || (from == InAdvisorReview && to == InPlanning
        && exists a :: a in s.reviews && s.reviews[a].caseKey == c && s.reviews[a].revision == revision
                       && s.reviews[a].action in {Reject, RequestRevision}
                       && s.reviews[a].run in s.runs && s.runs[s.reviews[a].run].current)
    || (from == InFamilyReview && to == Decided && exists d :: d in s.decisions && s.decisions[d].caseKey == c)
    || (from == Decided && to == PlanReady
        && exists d, t :: d in s.decisions && t in s.timelines && s.decisions[d].caseKey == c && s.timelines[t].decision == d)
  }

  // UPDATE ... SET state=to WHERE state=from: no row is touched when the state differs.
  function MoveCase(s: Store, c: Key, from: CaseState, to: CaseState): Result<Store> {
    if c !in s.cases || s.cases[c].state != from then Ok(s)
    else if !GuardCase(s, c, to) then Err(NV006)
    else Ok(s.(cases := s.cases[c := s.cases[c].(state := to)]))
  }

  // The provenance trigger on evidence rows.
  predicate Provenance(entries: map<EntryKey, Entry>, e: Evidence) {
    var k := EntryKey(e.pack, e.entry);
    k in entries && entries[k].sha256 == e.sha256 && e.claim in entries[k].coverage
  }

  // ------------------------------------------------------------------ cases and revisions

  // The first revision creates the case.
  function PublishRevision(s: Store, c: Key, expected: Option<int>, revision: int, facts: Revision): Result<Store> {
    var actual := if c in s.cases then Some(s.cases[c].revision) else None;
    if actual != expected || revision != (if expected.Some? then expected.value else 0) + 1 then Err(NV003)
    else if revision <= 0 then Err(CheckViolation)
    else if RevisionKey(c, revision) in s.revisions then Err(UniqueViolation)
    else
      var state := if c in s.cases then s.cases[c].state else Intake;
      Ok(s.(revisions := s.revisions[RevisionKey(c, revision) := facts], cases := s.cases[c := Case(state, revision)]))
  }

  function TransitionCase(s: Store, c: Key, expected: CaseState, target: CaseState): Result<Store> {
    if !(expected == Intake && target == InPlanning) then Err(NV006)
    else if c !in s.cases || s.cases[c].state != expected then Err(NV006)
    else MoveCase(s, c, expected, target)
  }

  // Rows that are there already are left as they are.
  function AddParticipants(s: Store, c: Key, advisor: nat, student: nat, parent: nat): Result<Store> {
    if c !in s.cases then Err(ForeignKeyViolation)
    else Ok(s.(participants := s.participants
      + {Participant(c, advisor, Advisor), Participant(c, student, Student), Participant(c, parent, Parent)}))
  }

  // ------------------------------------------------------------------ source packs and evidence

  predicate EntryValid(e: Entry) {
    && IsSafePath(e.path) && IsSha256(e.sha256) && e.freshness > 0
    && e.redistribution in {"synthetic_public", "link_only"}
    && e.evidenceClass in {"synthetic_demo", "institutional", "government"}
  }

  datatype NewEntry = NewEntry(id: nat, entry: Entry)

  function InsertEntries(entries: map<EntryKey, Entry>, pack: PackKey, items: seq<NewEntry>): Result<map<EntryKey, Entry>>
    decreases |items|
  {
    if items == [] then Ok(entries)
    else if !EntryValid(items[0].entry) then Err(CheckViolation)
    else if EntryKey(pack, items[0].id) in entries then Err(UniqueViolation)
    else InsertEntries(entries[EntryKey(pack, items[0].id) := items[0].entry], pack, items[1..])
  }

  function PersistPack(s: Store, pack: PackKey, manifest: string, items: seq<NewEntry>): Result<Store> {
    if pack.version <= 0 || !IsSha256(manifest) then Err(CheckViolation)
    else if pack in s.packs then Err(UniqueViolation)
    else match InsertEntries(s.entries, pack, items)
      case Err(e) => Err(e)
      case Ok(entries) => Ok(s.(packs := s.packs[pack := Pack(manifest)], entries := entries))
  }

  predicate ClaimTaken(evidence: map<Key, Evidence>, pack: PackKey, claim: string) {
    exists k :: k in evidence && evidence[k].pack == pack && evidence[k].claim == claim
  }

  function PersistEvidence(s: Store, id: Key, e: Evidence): Result<Store> {
    if e.pack.org != id.org || !Provenance(s.entries, e) then Err(NV004)
    else if !IsSha256(e.sha256) then Err(CheckViolation)
    else if id in s.evidence || ClaimTaken(s.evidence, e.pack, e.claim) then Err(UniqueViolation)
    else Ok(s.(evidence := s.evidence[id := e]))
  }

  // Claims of the evidence of one pack version, by evidence id.
  function ClaimsOf(evidence: map<Key, Evidence>, pack: PackKey): Claims {
    map k | k in evidence && evidence[k].pack == pack && k.org == pack.org :: k.id := evidence[k].claim
  }

  // ------------------------------------------------------------------ planning runs

  datatype PersistArgs = PersistArgs(
    org: nat, run: nat, caseId: nat, revision: int, pack: PackKey, policy: string, evidenceHash: string,
    target: RunState, reason: Option<string>, outputHash: Option<string>, supersedes: Option<nat>, output: Output)

  function CaseOf(a: PersistArgs): Key { Key(a.org, a.caseId) }
  function RunOf(a: PersistArgs): Key { Key(a.org, a.run) }

  predicate CaseAt(s: Store, c: Key, revision: int, state: CaseState) {
    c in s.cases && s.cases[c].revision == revision && s.cases[c].state == state
  }

  // The superseded run loses its current flag, through the run trigger.
  function Retire(runs: map<Key, Run>, org: nat, supersedes: Option<nat>): Result<map<Key, Run>> {
    if supersedes.None? then Ok(runs)
    else
      var k := Key(org, supersedes.value);
      if k !in runs || !runs[k].current then Err(NV003)
      else
        var retired := runs[k].(current := false);
        match GuardRun(runs[k], retired)
        case Some(e) => Err(e)
        case None => Ok(runs[k := retired])
  }

  predicate HasCurrent(runs: map<Key, Run>, c: Key) {
    exists r :: r in runs && runs[r].caseKey == c && runs[r].current
  }

  function NewRun(a: PersistArgs): Run {
    Run(CaseOf(a), a.revision, a.pack, a.policy, a.evidenceHash, Synthesizing, None, None,
        if a.supersedes.Some? then Some(Key(a.org, a.supersedes.value)) else None, true)
  }

  function FinishedRun(a: PersistArgs): Run {
    NewRun(a).(state := a.target, reason := a.reason, outputHash := a.outputHash)
  }

  function PersistResult(s: Store, a: PersistArgs): Result<Store> {
    if !IsTerminalRun(a.target) then Err(NV006)
    else if !CaseAt(s, CaseOf(a), a.revision, InPlanning) then Err(NV003)
    else match Retire(s.runs, a.org, a.supersedes)
      case Err(e) => Err(e)
      case Ok(runs) =>
        if a.pack.org != a.org || a.pack !in s.packs then Err(ForeignKeyViolation)
        else if !IsSha256(a.evidenceHash) then Err(CheckViolation)
        else if RunOf(a) in runs || HasCurrent(runs, CaseOf(a)) then Err(UniqueViolation)
        else match StoreOutput(ClaimsOf(s.evidence, a.pack), a.output)
          case Err(e) => Err(e)
          case Ok(rows) =>
            if a.outputHash.Some? && !IsSha256(a.outputHash.value) then Err(CheckViolation)
            else match GuardRun(NewRun(a), FinishedRun(a))
              case Some(e) => Err(e)
              case None =>
                HandOff(s.(runs := runs[RunOf(a) := FinishedRun(a)], rows := s.rows[RunOf(a) := rows]), a)
  }

  // The trigger behind the final update: a reviewable current run moves its case on.
  function HandOff(s: Store, a: PersistArgs): Result<Store> {
    if a.target != ReviewRequired then Ok(s)
    else if !CaseAt(s, CaseOf(a), a.revision, InPlanning) then Err(NV003)
    else MoveCase(s, CaseOf(a), InPlanning, InAdvisorReview)
  }

  // ------------------------------------------------------------------ advisor review

  datatype ReviewArgs = ReviewArgs(
    org: nat, actor: nat, caseId: nat, run: nat, revision: int, action: Action, review: nat,
    eligible: seq<nat>, risks: seq<Risk>, brief: Option<nat>,
    projection: Option<Projection>, sourceDate: Option<int>, key: string, request: string)

  // The latest snapshot date of a pack's entries: the maximum, when there is an entry.
  predicate IsSourceDate(entries: map<EntryKey, Entry>, pack: PackKey, date: Option<int>) {
    if date.None? then forall k :: k in entries ==> k.pack != pack
    else
      && (exists k :: k in entries && k.pack == pack && entries[k].snapshot == date.value)
      && forall k :: k in entries && k.pack == pack ==> entries[k].snapshot <= date.value
  }

  // The number of the route of a country, searched from the highest number down.
  function RouteOf(routes: map<nat, RouteRow>, country: string, below: nat): Option<nat> {
    if below == 0 then None
    else if below in routes && routes[below].country == country then Some(below)
    else RouteOf(routes, country, below - 1)
  }

  // At most one route per country, in the order of the countries' names.
  function RouteViews(routes: map<nat, RouteRow>): seq<RouteView> {
    ViewsOf(routes, "australia") + ViewsOf(routes, "japan") + ViewsOf(routes, "malaysia")
  }

  function ViewsOf(routes: map<nat, RouteRow>, country: string): seq<RouteView> {
    var id := RouteOf(routes, country, |routes|);
    if id.Some? && id.value in routes then [RouteView(id.value, routes[id.value])] else []
  }

  function CanonicalProjection(rows: Rows, eligible: seq<nat>, risks: seq<Risk>, intake: string): Projection {
    Projection(RouteViews(rows.routes), eligible, risks, intake)
  }

  predicate DistinctIds(s: seq<nat>) {
    forall i, j :: 0 <= i < j < |s| ==> s[i] != s[j]
  }

  predicate DistinctRisks(s: seq<Risk>) {
    forall i, j :: 0 <= i < j < |s| ==> s[i].evidence != s[j].evidence || s[i].kind != s[j].kind
  }

  predicate UsedBy(rows: Rows, evidence: nat) {
    || (exists l :: l in rows.links && l.evidence == evidence)
    || (exists k :: k in rows.costs && evidence in {rows.costs[k].tuitionEvidence, rows.costs[k].livingEvidence, rows.costs[k].fxEvidence})
    || (exists k :: k in rows.rankings && rows.rankings[k].evidence == evidence)
  }

  predicate InPack(evidence: map<Key, Evidence>, pack: PackKey, id: nat) {
    Key(pack.org, id) in evidence && evidence[Key(pack.org, id)].pack == pack
  }

  predicate RiskValid(s: Store, run: Key, risk: Risk)
    requires run in s.runs && run in s.rows
  {
    && risk.kind in {"optional", "stale", "unverified"}
    && !IsBlank(risk.reason)
    && InPack(s.evidence, s.runs[run].pack, risk.evidence)
    && UsedBy(s.rows[run], risk.evidence)
  }

  // A route that the fixed timeline can serve.
  predicate Eligible(rows: Rows, route: nat) {
    && route in rows.routes
    && rows.routes[route].country == "australia"
    && rows.routes[route].outcome == "recommended_with_condition"
  }

  function ReviewKey(a: ReviewArgs): RecordKey { RecordKey(a.org, a.actor, AdvisorReview, a.key) }

  // One more than the highest version of the run's reviews.
  predicate NextReviewVersion(reviews: map<Key, Review>, run: Key, version: nat) {
    && (forall k :: k in reviews && reviews[k].run == run ==> reviews[k].version < version)
    && (version > 1 ==> exists k :: k in reviews && reviews[k].run == run && reviews[k].version == version - 1)
    && version >= 1
  }

  // The call is up to date: the run is the case's current reviewable run at the case's revision.
  predicate ReviewTarget(s: Store, a: ReviewArgs) {
    var c, r := Key(a.org, a.caseId), Key(a.org, a.run);
    && r in s.runs && r in s.rows
    && s.runs[r].caseKey == c && s.runs[r].revision == a.revision
    && s.runs[r].state == ReviewRequired && s.runs[r].current
    && CaseAt(s, c, a.revision, InAdvisorReview)
  }

  // Everything a review checks once its target is known to be current. `date` is the latest
  // snapshot date of the run's pack.
  function ReviewRefusal(s: Store, a: ReviewArgs, date: Option<int>): Option<Error>
    requires ReviewTarget(s, a)
  {
    var c, r := Key(a.org, a.caseId), Key(a.org, a.run);
    var pinned := RevisionKey(c, a.revision);
    if a.action == OtherAction then Some(NV006)
    else if a.action != Approve && (a.eligible != [] || a.risks != [] || a.brief.Some?) then Some(NV006)
    else if !DistinctIds(a.eligible) || !DistinctRisks(a.risks) then Some(NV006)
    else if date.None? || pinned !in s.revisions || s.revisions[pinned].intake.None? then Some(NV006)
    else if Key(a.org, a.review) in s.reviews then Some(UniqueViolation)
    else if exists i :: 0 <= i < |a.risks| && !RiskValid(s, r, a.risks[i]) then Some(NV006)
    else if a.action == Approve then
      var projection := CanonicalProjection(s.rows[r], a.eligible, a.risks, s.revisions[pinned].intake.value);
      if a.sourceDate != date || a.projection != Some(projection) then Some(NV006)
      else if a.brief.None? || a.eligible == [] || exists i :: 0 <= i < |a.eligible| && !Eligible(s.rows[r], a.eligible[i])
      then Some(NV006)
      else if s.runs[r].outputHash.None? then Some(CheckViolation)
      else if Key(a.org, a.brief.value) in s.briefs || (exists b :: b in s.briefs && s.briefs[b].caseKey == c && s.briefs[b].current)
      then Some(UniqueViolation)
      else None
    else None
  }

  function NewReview(a: ReviewArgs, version: nat): Review {
    Review(Key(a.org, a.caseId), a.revision, Key(a.org, a.run), version, a.actor, a.action, a.eligible, a.risks)
  }

  function NewBrief(s: Store, a: ReviewArgs, date: int): Brief
    requires ReviewTarget(s, a) && RevisionKey(Key(a.org, a.caseId), a.revision) in s.revisions
    requires s.revisions[RevisionKey(Key(a.org, a.caseId), a.revision)].intake.Some?
    requires s.runs[Key(a.org, a.run)].outputHash.Some?
  {
    var r := Key(a.org, a.run);
    var run := s.runs[r];
    var intake := s.revisions[RevisionKey(run.caseKey, a.revision)].intake.value;
    Brief(run.caseKey, a.revision, r, Key(a.org, a.review), 1, run.policy, run.pack, run.evidenceHash, run.outputHash.value,
          date, CanonicalProjection(s.rows[r], a.eligible, a.risks, intake), true)
  }

  function AcceptancesOf(a: ReviewArgs): set<Acceptance> {
    set i | 0 <= i < |a.risks| :: Acceptance(Key(a.org, a.review), a.risks[i].evidence, a.risks[i].kind, a.risks[i].reason)
  }

  // The tables with the review and its accepted risks, and with the brief when it approves.
  function WithReview(s: Store, a: ReviewArgs, date: Option<int>, version: nat): Store
    requires ReviewTarget(s, a) && ReviewRefusal(s, a, date) == None
  {
    s.(reviews := s.reviews[Key(a.org, a.review) := NewReview(a, version)],
       acceptances := s.acceptances + AcceptancesOf(a),
       briefs := if a.action == Approve then s.briefs[Key(a.org, a.brief.value) := NewBrief(s, a, date.value)] else s.briefs)
  }

  function ReviewRun(s: Store, a: ReviewArgs, date: Option<int>, version: nat): Result<(Store, Reply)> {
    var c, id := Key(a.org, a.caseId), Key(a.org, a.review);
    match Lookup(s.records, ReviewKey(a), a.request)
    case Mismatch => Err(NV008)
    case Replayed(reply) => Ok((s, reply))
    case Fresh =>
      if Participant(c, a.actor, Advisor) !in s.participants then Err(NV007)
      else if !ReviewTarget(s, a) then Err(NV003)
      else if ReviewRefusal(s, a, date).Some? then Err(ReviewRefusal(s, a, date).value)
      else
        var target := if a.action == Approve then InFamilyReview else InPlanning;
        match MoveCase(WithReview(s, a, date, version), c, InAdvisorReview, target)
        case Err(e) => Err(e)
        case Ok(moved) =>
          if !Insertable(moved.records, ReviewKey(a), a.request) then Err(CheckViolation)
          else Ok((moved.(records := Insert(moved.records, ReviewKey(a), a.request, id)), Reply(id, false)))
  }

  // What a review answers: its id, its brief, and the state of the case that the call names. A
  // repetition looks up the brief of the recorded review.
  datatype ReviewReply = ReviewReply(review: Key, brief: Option<Key>, state: Option<CaseState>, replayed: bool)

  function BriefNamed(a: ReviewArgs): Option<Key> {
    match a.brief case None => None case Some(id) => Some(Key(a.org, id))
  }

  function StateOf(cases: map<Key, Case>, c: Key): Option<CaseState> {
    if c in cases then Some(cases[c].state) else None
  }

  // The brief of the review, when it has one.
  predicate BriefOn(briefs: map<Key, Brief>, review: Key, b: Option<Key>) {
    match b
    case Some(k) => k in briefs && briefs[k].review == review
    case None => forall k :: k in briefs ==> briefs[k].review != review
  }

  predicate ReviewAnswer(t: Store, a: ReviewArgs, reply: Reply, r: ReviewReply) {
    && r.review == reply.id && r.replayed == reply.replayed
    && r.state == StateOf(t.cases, Key(a.org, a.caseId))
    && if reply.replayed then BriefOn(t.briefs, reply.id, r.brief) else r.brief == BriefNamed(a)
  }

  // ------------------------------------------------------------------ family decision

  datatype DecideArgs = DecideArgs(
    org: nat, actor: nat, role: Role, brief: nat, version: int, decision: nat, receipt: nat, route: nat,
    min: int, max: int, currency: string, tradeOffs: set<string>, madeBy: nat, source: string,
    timeline: nat, milestones: seq<Milestone>, key: string, request: string)

  function DecideKey(a: DecideArgs): RecordKey { RecordKey(a.org, a.actor, FamilyDecision, a.key) }

  predicate DecideTarget(s: Store, a: DecideArgs) {
    var b := Key(a.org, a.brief);
    && b in s.briefs && s.briefs[b].version == a.version && s.briefs[b].current
    && CaseAt(s, s.briefs[b].caseKey, s.briefs[b].revision, InFamilyReview)
  }

  predicate MayDecide(s: Store, a: DecideArgs, c: Key) {
    && (match a.role
        case Student => a.actor == a.madeBy && a.source == "direct"
        case Parent => a.actor == a.madeBy && a.source == "direct"
        case Advisor => a.source == "family_consultation"
                        && (Participant(c, a.madeBy, Student) in s.participants || Participant(c, a.madeBy, Parent) in s.participants)
        case OtherRole => false)
    && Participant(c, a.actor, a.role) in s.participants
  }

  // Numeric rounding of a positive amount to whole minor units, halves up.
  function Round(x: real): int { (x + 0.5).Floor }

  function CostInCny(c: Cost): int {
    Round((c.tuition + c.living) as real * c.fx)
  }

  predicate IsAustralianCost(rows: Rows, k: nat) {
    k in rows.costs && rows.costs[k].country == "australia"
  }

  // SELECT ... INTO without an order takes any one matching row, or NULL when there is none.
  predicate CostPick(rows: Rows, pick: Option<nat>) {
    if pick.Some? then IsAustralianCost(rows, pick.value) else forall k :: k in rows.costs ==> rows.costs[k].country != "australia"
  }

  predicate CostOverflows(c: Cost) {
    c.tuition + c.living > MAX_BIGINT || CostInCny(c) > MAX_BIGINT
  }

  // The budget test, read as SQL does: a comparison with NULL refuses nothing.
  predicate BudgetRefused(cost: Option<int>, ceiling: Option<int>, min: int, max: int) {
    (cost.Some? && !(min <= cost.value <= max)) || (ceiling.Some? && max > ceiling.value)
  }

  predicate IsDigit(c: char) { '0' <= c <= '9' }

  // Four digits, then "-02".
  predicate SupportedIntake(intake: string) {
    |intake| == 7 && (forall i :: 0 <= i < 4 ==> IsDigit(intake[i])) && intake[4..] == "-02"
  }

  function YearOf(intake: string): int
    requires SupportedIntake(intake)
  {
    var d := (i: int) requires 0 <= i < 4 => intake[i] as int - '0' as int;
    1000 * d(0) + 100 * d(1) + 10 * d(2) + d(3)
  }

  function Milestones(year: int): seq<Milestone> {
    [Milestone("documents", Date(year - 1, 9, 1)), Milestone("application", Date(year - 1, 10, 15)),
     Milestone("visa", Date(year - 1, 12, 15)), Milestone("arrival", Date(year, 1, 20))]
  }

  // Everything a decision checks once its brief is known to be current. There is no year zero,
  // so intakes of the years 0 and 1 have no timeline.
  function DecideRefusal(s: Store, a: DecideArgs, pick: Option<nat>): Option<Error>
    requires DecideTarget(s, a)
  {
    var b := s.briefs[Key(a.org, a.brief)];
    var pinned := RevisionKey(b.caseKey, b.revision);
    if !MayDecide(s, a, b.caseKey) then Some(NV007)
    else if b.run !in s.rows || !Eligible(s.rows[b.run], a.route) then Some(NV006)
    else if b.review !in s.reviews || s.reviews[b.review].action != Approve || a.route !in s.reviews[b.review].eligible then Some(NV006)
    else if a.currency != "CNY" || a.min <= 0 || a.max < a.min then Some(NV006)
    else if "budget_elasticity" !in a.tradeOffs || pinned !in s.revisions then Some(NV006)
    else if pick.Some? && pick.value in s.rows[b.run].costs && CostOverflows(s.rows[b.run].costs[pick.value]) then Some(NumericOverflow)
    else if BudgetRefused(
      if pick.Some? && pick.value in s.rows[b.run].costs then Some(CostInCny(s.rows[b.run].costs[pick.value])) else None,
      s.revisions[pinned].hardCeiling, a.min, a.max) then Some(NV006)
    else if s.revisions[pinned].intake.None? || !SupportedIntake(s.revisions[pinned].intake.value) then Some(NV006)
    else
      var year := YearOf(s.revisions[pinned].intake.value);
      if year < 2 then Some(CheckViolation)
      else if a.milestones != Milestones(year) then Some(NV006)
      else if Key(a.org, a.decision) in s.decisions || Key(a.org, a.timeline) in s.timelines
           || (exists d :: d in s.decisions && ((d.org == a.org && s.decisions[d].receipt == a.receipt) || s.decisions[d].brief == Key(a.org, a.brief)))
      then Some(UniqueViolation)
      else None
  }

  function NewDecision(s: Store, a: DecideArgs): Decision
    requires DecideTarget(s, a)
  {
    var b := s.briefs[Key(a.org, a.brief)];
    Decision(a.receipt, b.caseKey, Key(a.org, a.brief), a.version, b.run, a.route, a.min, a.max, a.tradeOffs, a.madeBy, a.actor, a.source)
  }

  function DecideBrief(s: Store, a: DecideArgs, pick: Option<nat>): Result<(Store, Reply)> {
    match Lookup(s.records, DecideKey(a), a.request)
    case Mismatch => Err(NV008)
    case Replayed(reply) => Ok((s, reply))
    case Fresh =>
      if !DecideTarget(s, a) then Err(NV003)
      else if DecideRefusal(s, a, pick).Some? then Err(DecideRefusal(s, a, pick).value)
      else RecordDecision(s, a)
  }

  // What a decision answers: its id, its receipt and its timeline, looked up in a repetition.
  datatype DecideReply = DecideReply(decision: Key, receipt: Option<nat>, timeline: Option<Key>, replayed: bool)

  function ReceiptOf(decisions: map<Key, Decision>, d: Key): Option<nat> {
    if d in decisions then Some(decisions[d].receipt) else None
  }

  // The timeline of the decision, when it has one.
  predicate TimelineOn(timelines: map<Key, Timeline>, decision: Key, t: Option<Key>) {
    match t
    case Some(k) => k in timelines && timelines[k].decision == decision
    case None => forall k :: k in timelines ==> timelines[k].decision != decision
  }

  predicate DecideAnswer(t: Store, a: DecideArgs, reply: Reply, r: DecideReply) {
    && r.decision == reply.id && r.replayed == reply.replayed
    && if reply.replayed then r.receipt == ReceiptOf(t.decisions, reply.id) && TimelineOn(t.timelines, reply.id, r.timeline)
       else r.receipt == Some(a.receipt) && r.timeline == Some(Key(a.org, a.timeline))
  }

  function NewTimeline(s: Store, a: DecideArgs): Timeline
    requires DecideTarget(s, a)
  {
    var b := s.briefs[Key(a.org, a.brief)];
    var pinned := RevisionKey(b.caseKey, b.revision);
    var intake := if pinned in s.revisions && s.revisions[pinned].intake.Some? then s.revisions[pinned].intake.value else "";
    Timeline(Key(a.org, a.decision), "australia", intake, a.milestones)
  }

  // Decision, case to decided, timeline, case to plan ready, brief retired, record.
  function RecordDecision(s: Store, a: DecideArgs): Result<(Store, Reply)>
    requires DecideTarget(s, a)
  {
    var b, id := Key(a.org, a.brief), Key(a.org, a.decision);
    var c := s.briefs[b].caseKey;
    match MoveCase(s.(decisions := s.decisions[id := NewDecision(s, a)]), c, InFamilyReview, Decided)
    case Err(e) => Err(e)
    case Ok(decided) =>
      match MoveCase(decided.(timelines := s.timelines[Key(a.org, a.timeline) := NewTimeline(s, a)]), c, Decided, PlanReady)
      case Err(e) => Err(e)
      case Ok(ready) =>
        if !Insertable(s.records, DecideKey(a), a.request) then Err(CheckViolation)
        else Ok((ready.(briefs := s.briefs[b := s.briefs[b].(current := false)],
                        records := Insert(s.records, DecideKey(a), a.request, id)), Reply(id, false)))
  }
}
