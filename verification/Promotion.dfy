// Research candidates and their verification: an approved candidate becomes a new version of
// the baseline source pack, with one claim replaced.
module Promotion {
  import opened Sql
  import opened PlanningOutput
  import opened Idempotency
  import opened Planning

  const PROGRAM_FIT := "australia_program_fit"
  const COPIED_CLAIMS := {"australia_tuition", "australia_living_cost", "australia_fx", "japan_program_fit", "australia_ranking"}
  const BASE_PACK := 0x50000000_0000_0000_0000_000000000001
  const BASE_VERSION := 1
  const BASE_MANIFEST := "84350ea5705d9681d3e6550e1bd06e3340a9fcf0e7e7bbed4478ed3403405f28"
  const BASE_RAW_MANIFEST := "5d455d2c409c322e093f3a116387f3cef0fb7ea0f7357fec5e76e9da5b3a2a25"

  // The text tests that stay opaque, and the digest that names a new manifest.
  datatype Rules = Rules(
    isTimestamp: string -> bool,
    isPublicSource: string -> bool,
    digest: (string, string, int) -> string)

  // ------------------------------------------------------------------ tables

  // One object of the evidence array with its six fields. The two status fields can be JSON null.
  datatype Item = Item(
    id: string, url: Option<string>, identity: string, retrievedAt: string,
    citation: Option<string>, verification: Option<string>)

  datatype Candidate = Candidate(caseKey: Key, revision: int, evidence: seq<Item>, request: string, createdBy: nat)

  datatype Promoted = Promoted(version: int, entry: nat, evidence: nat, url: string, sha256: string)

  // `promoted` is there exactly for an approval.
  datatype Verification = Verification(
    candidate: Key, caseKey: Key, revision: int, actor: nat, evidenceId: string, promoted: Option<Promoted>)

  datatype Ledger = Ledger(candidates: map<Key, Candidate>, verifications: map<Key, Verification>)

  const NO_CANDIDATES := Ledger(map[], map[])

  // ------------------------------------------------------------------ import

  datatype Contract = Contract(
    release: string, commit: string, schema: string, fixture: string, profile: string,
    artifactId: string, artifactKind: string, mediaType: string)

  const CONTRACT := Contract(
    "v0.1.3", "87b2a8e335385eb865086f7a69fe2b190567cfa2", "dra.downstream-consumer.v1",
    "cc602576115ff9b41b0f07fa5f6ee88db15424760a78ab4611675e62e19a8157", "generic",
    "research-report.md", "research_report_markdown", "text/markdown")

  // An element of the array that is no object with the six fields and their types is None.
  datatype ImportArgs = ImportArgs(
    org: nat, actor: nat, caseId: nat, candidate: nat, revision: int, contract: Contract,
    requestIdentity: string, runId: string, byteLength: int, artifactSha: string,
    evidence: seq<Option<Item>>, request: string, key: string)

  function ImportKey(a: ImportArgs): RecordKey { RecordKey(a.org, a.actor, CandidateImport, a.key) }

  // A comparison with JSON null refuses nothing.
  predicate ItemOk(item: Item, rules: Rules) {
    && 1 <= |item.id| <= 200 && 1 <= |item.identity| <= 2048
    && rules.isTimestamp(item.retrievedAt)
    && (item.citation.Some? ==> item.citation.value == "cited")
    && (item.verification.Some? ==> item.verification.value in {"verified", "unverified"})
  }

  predicate SourceOk(item: Item, rules: Rules) {
    item.url.Some? ==> rules.isPublicSource(item.url.value) && item.identity == item.url.value
  }

  predicate ItemsOk(items: seq<Item>, rules: Rules) {
    && (forall i :: 0 <= i < |items| ==> ItemOk(items[i], rules) && SourceOk(items[i], rules))
    && forall i, j :: 0 <= i < j < |items| ==> items[i].id != items[j].id
  }

  // Exactly one item, at place `p`, names a source.
  predicate OnlySource(items: seq<Item>, p: nat) {
    && p < |items| && items[p].url.Some?
    && forall i :: 0 <= i < |items| && items[i].url.Some? ==> i == p
  }

  function Values(items: seq<Option<Item>>): seq<Item>
    requires forall i :: 0 <= i < |items| ==> items[i].Some?
  {
    seq(|items|, i requires 0 <= i < |items| => items[i].value)
  }

  predicate EvidenceAccepted(items: seq<Option<Item>>, rules: Rules) {
    && (forall i :: 0 <= i < |items| ==> items[i].Some?)
    && ItemsOk(Values(items), rules)
    && exists p :: 0 <= p < |items| && OnlySource(Values(items), p)
  }

  predicate ContractOk(a: ImportArgs) {
    && a.contract == CONTRACT && 1 <= a.byteLength <= 1_048_576
    && IsSha256(a.requestIdentity) && IsSha256(a.artifactSha) && IsSha256(a.request) && IsSha256(a.key)
    && a.evidence != []
  }

  function ImportCandidate(s: Store, l: Ledger, a: ImportArgs, rules: Rules): Result<(Store, Ledger, Reply)> {
    var c, id := Key(a.org, a.caseId), Key(a.org, a.candidate);
    match Lookup(s.records, ImportKey(a), a.request)
    case Mismatch => Err(NV008)
    case Replayed(reply) => Ok((s, l, reply))
    case Fresh =>
      if !ContractOk(a) || !EvidenceAccepted(a.evidence, rules) then Err(NV011)
      else if Participant(c, a.actor, Advisor) !in s.participants then Err(NV007)
      else if !CaseAt(s, c, a.revision, InPlanning) then Err(NV003)
      else if !(1 <= |a.runId| <= 200) then Err(CheckViolation)
      else if id in l.candidates then Err(UniqueViolation)
      else if RevisionKey(c, a.revision) !in s.revisions then Err(ForeignKeyViolation)
      else if !Insertable(s.records, ImportKey(a), a.request) then Err(CheckViolation)
      else
        var candidate := Candidate(c, a.revision, Values(a.evidence), a.request, a.actor);
        Ok((s.(records := Insert(s.records, ImportKey(a), a.request, id)),
            l.(candidates := l.candidates[id := candidate]), Reply(id, false)))
  }

  // ------------------------------------------------------------------ verification

  // A copied claim; the id is None when the text is no evidence id.
  datatype CopyItem = CopyItem(claim: string, id: Option<nat>)

  datatype Attestation = Attestation(
    url: Option<string>, publisher: string, institution: string, snapshot: int, freshness: int,
    redistribution: string, evidenceClass: string, path: string, byteLength: int, sha256: string,
    gaps: seq<string>, entry: Option<nat>, evidence: Option<nat>, copied: seq<CopyItem>)

  // A rejection says whether the call carried any attestation all the same. A NULL decision is
  // neither refused nor a rejection: the call goes on as an approval.
  datatype Verdict = Approved(attestation: Attestation) | Rejected(attested: bool) | NullVerdict(attestation: Attestation) | OtherVerdict

  function AttestationOf(verdict: Verdict): Option<Attestation> {
    match verdict
    case Approved(t) => Some(t)
    case NullVerdict(t) => Some(t)
    case _ => None
  }

  datatype VerifyArgs = VerifyArgs(
    org: nat, actor: nat, caseId: nat, candidate: nat, revision: int, evidenceId: string,
    verdict: Verdict, reason: string, basePack: nat, baseVersion: int, baseManifest: string, baseRawManifest: string,
    verification: nat, request: string, key: string)

  datatype VerifyReply = VerifyReply(id: Key, row: Option<Verification>, replayed: bool)

  function VerifyKey(a: VerifyArgs): RecordKey { RecordKey(a.org, a.actor, CandidateVerify, a.key) }

  function Base(org: nat): PackKey { PackKey(org, BASE_PACK, BASE_VERSION) }

  // The first item with the id.
  function Selected(items: seq<Item>, id: string): Option<Item>
    decreases |items|
  {
    if items == [] then None else if items[0].id == id then Some(items[0]) else Selected(items[1..], id)
  }

  predicate SelectedOk(selected: Option<Item>) {
    && selected.Some?
    && (selected.value.citation.Some? ==> selected.value.citation.value == "cited")
    && selected.value.url.Some? && selected.value.identity == selected.value.url.value
  }

  predicate VerificationContract(a: VerifyArgs) {
    && !a.verdict.OtherVerdict? && !IsBlank(a.reason) && |a.reason| <= 2000
    && IsSha256(a.request) && IsSha256(a.key)
    && a.basePack == BASE_PACK && a.baseVersion == BASE_VERSION
    && a.baseManifest == BASE_MANIFEST && a.baseRawManifest == BASE_RAW_MANIFEST
  }

  predicate StartsWithHttps(url: string) {
    |url| >= 8 && url[..8] == "https://"
  }

  predicate AttestationOk(t: Attestation, selected: Item, rules: Rules) {
    && t.url == selected.url && t.url.Some? && StartsWithHttps(t.url.value)
    && !IsBlank(t.publisher) && !IsBlank(t.institution) && t.freshness > 0
    && t.redistribution == "link_only" && t.evidenceClass in {"institutional", "government"}
    && !IsBlank(t.path) && IsSafePath(t.path) && t.byteLength > 0 && IsSha256(t.sha256)
    && "applicant_eligibility" in t.gaps && "intake_availability" in t.gaps
    && t.entry.Some? && t.evidence.Some?
  }

  // Five pairs with distinct ids and the five claims, each once.
  predicate CopiedOk(copied: seq<CopyItem>) {
    && |copied| == 5
    && (forall i, j :: 0 <= i < j < |copied| ==> copied[i].claim != copied[j].claim)
    && (forall i :: 0 <= i < |copied| ==> copied[i].id.Some? && copied[i].claim in COPIED_CLAIMS)
    && forall i, j :: 0 <= i < j < |copied| ==> copied[i].id != copied[j].id
  }

  // Everything that is checked before the verdicts part ways.
  function VerifyRefusal(s: Store, l: Ledger, a: VerifyArgs): Option<Error> {
    var c, id := Key(a.org, a.caseId), Key(a.org, a.candidate);
    if Participant(c, a.actor, Advisor) !in s.participants then Some(NV007)
    else if id !in l.candidates || l.candidates[id].caseKey != c || l.candidates[id].revision != a.revision then Some(NV007)
    else if !CaseAt(s, c, a.revision, InPlanning) then Some(NV003)
    else if exists v :: v in l.verifications && l.verifications[v].candidate == id then Some(NV012)
    else if !SelectedOk(Selected(l.candidates[id].evidence, a.evidenceId)) then Some(NV011)
    else if !VerificationContract(a) then Some(NV011)
    else None
  }

  // One more than the highest version of the pack.
  predicate NextPackVersion(packs: map<PackKey, Pack>, org: nat, id: nat, version: int) {
    && (forall p :: p in packs && p.org == org && p.id == id ==> p.version < version)
    && (version == 1 || exists p :: p in packs && p.org == org && p.id == id && p.version == version - 1)
  }

  // The array without the elements equal to `claim`.
  function Without(coverage: seq<string>, claim: string): seq<string> {
    if coverage == [] then []
    else if coverage[0] == claim then Without(coverage[1..], claim)
    else [coverage[0]] + Without(coverage[1..], claim)
  }

  function CopyOf(e: Entry): Entry {
    e.(coverage := Without(e.coverage, PROGRAM_FIT))
  }

  function CopiedEntries(entries: map<EntryKey, Entry>, from: PackKey, to: PackKey): map<EntryKey, Entry> {
    map k | k in entries && k.pack == from :: EntryKey(to, k.id) := CopyOf(entries[k])
  }

  // The unique constraint on claims makes this the only row of the join.
  ghost function ClaimRow(evidence: map<Key, Evidence>, pack: PackKey, claim: string): Option<Evidence> {
    if ClaimTaken(evidence, pack, claim)
    then var k :| k in evidence && evidence[k].pack == pack && evidence[k].claim == claim; Some(evidence[k])
    else None
  }

  // One evidence row per copied claim that the baseline has, each through the provenance trigger.
  ghost function CopyEvidence(s: Store, from: PackKey, to: PackKey, copied: seq<CopyItem>): Result<Store>
    decreases |copied|
  {
    if copied == [] then Ok(s)
    else
      var row := ClaimRow(s.evidence, from, copied[0].claim);
      if row.None? || copied[0].claim == PROGRAM_FIT || copied[0].id.None? then CopyEvidence(s, from, to, copied[1..])
      else match PersistEvidence(s, Key(to.org, copied[0].id.value), Evidence(to, row.value.entry, copied[0].claim, AcceptedSyntheticDemo, row.value.sha256))
        case Err(e) => Err(e)
        case Ok(t) => CopyEvidence(t, from, to, copied[1..])
  }

  function ExternalEntry(t: Attestation): Entry
    requires t.url.Some?
  {
    Entry(t.path, t.sha256, t.snapshot, t.publisher, t.institution, t.url.value, t.freshness, "link_only", t.evidenceClass, [PROGRAM_FIT], t.gaps)
  }

  // The new pack version: the baseline's entries without the replaced claim, its other evidence,
  // and the external entry with its evidence.
  ghost function Promote(s: Store, org: nat, t: Attestation, version: int, manifest: string): Result<Store>
    requires t.url.Some? && t.entry.Some? && t.evidence.Some?
  {
    var from, to := Base(org), PackKey(org, BASE_PACK, version);
    if to in s.packs then Err(UniqueViolation)
    else match CopyEvidence(s.(packs := s.packs[to := Pack(manifest)], entries := s.entries + CopiedEntries(s.entries, from, to)), from, to, t.copied)
      case Err(e) => Err(e)
      case Ok(copied) =>
        var k := EntryKey(to, t.entry.value);
        if k in copied.entries then Err(UniqueViolation)
        else if !EntryValid(ExternalEntry(t)) then Err(CheckViolation)
        else PersistEvidence(copied.(entries := copied.entries[k := ExternalEntry(t)]), Key(org, t.evidence.value),
                             Evidence(to, t.entry.value, PROGRAM_FIT, ExternallyVerified, t.sha256))
  }

  // The verification row and the record; one approval per case and revision.
  function Conclude(s: Store, l: Ledger, a: VerifyArgs, promoted: Option<Promoted>): Result<(Store, Ledger, VerifyReply)> {
    var id := Key(a.org, a.verification);
    var row := Verification(Key(a.org, a.candidate), Key(a.org, a.caseId), a.revision, a.actor, a.evidenceId, promoted);
    if Base(a.org) !in s.packs then Err(ForeignKeyViolation)
    else if id in l.verifications then Err(UniqueViolation)
    else if promoted.Some? && HasApproval(l, row.caseKey, row.revision) then Err(UniqueViolation)
    else if !Insertable(s.records, VerifyKey(a), a.request) then Err(CheckViolation)
    else Ok((s.(records := Insert(s.records, VerifyKey(a), a.request, id)),
             l.(verifications := l.verifications[id := row]), VerifyReply(id, Some(row), false)))
  }

  predicate HasApproval(l: Ledger, c: Key, revision: int) {
    exists v :: v in l.verifications && l.verifications[v].caseKey == c && l.verifications[v].revision == revision && l.verifications[v].promoted.Some?
  }

  function PromotedRow(t: Attestation, version: int): Promoted
    requires t.url.Some? && t.entry.Some? && t.evidence.Some?
  {
    Promoted(version, t.entry.value, t.evidence.value, t.url.value, t.sha256)
  }

  ghost function ApproveCandidate(s: Store, l: Ledger, a: VerifyArgs, t: Attestation, rules: Rules, version: int): Result<(Store, Ledger, VerifyReply)> {
    var candidate := Key(a.org, a.candidate);
    if candidate !in l.candidates || Selected(l.candidates[candidate].evidence, a.evidenceId).None?
       || !AttestationOk(t, Selected(l.candidates[candidate].evidence, a.evidenceId).value, rules) then Err(NV011)
    else if Base(a.org) !in s.packs || s.packs[Base(a.org)].manifest != a.baseManifest then Err(NV011)
    else if !CopiedOk(t.copied) then Err(NV011)
    else match Promote(s, a.org, t, version, rules.digest(a.baseManifest, t.sha256, version))
      case Err(e) => Err(e)
      case Ok(stored) => Conclude(stored, l, a, Some(PromotedRow(t, version)))
  }

  // The handler around the whole function turns a unique violation into a conflict.
  function Handled<T>(r: Result<T>): Result<T> {
    if r == Err(UniqueViolation) then Err(NV012) else r
  }

  ghost function VerifyCandidate(s: Store, l: Ledger, a: VerifyArgs, rules: Rules, version: int): Result<(Store, Ledger, VerifyReply)> {
    match Lookup(s.records, VerifyKey(a), a.request)
    case Mismatch => Err(NV008)
    case Replayed(reply) =>
      Ok((s, l, VerifyReply(reply.id, if reply.id in l.verifications then Some(l.verifications[reply.id]) else None, true)))
    case Fresh =>
      if VerifyRefusal(s, l, a).Some? then Err(VerifyRefusal(s, l, a).value)
      else match a.verdict
        case Rejected(attested) => if attested then Err(NV011) else Handled(Conclude(s, l, a, None))
        case Approved(t) => Handled(ApproveCandidate(s, l, a, t, rules, version))
        case NullVerdict(t) => Handled(ApproveCandidate(s, l, a, t, rules, version))
        case OtherVerdict => Err(NV011)
  }
}
