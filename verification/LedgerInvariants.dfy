// What imports and verifications keep: the candidate ledger beside the planning tables.
module LedgerInvariants {
  import opened Sql
  import opened PlanningOutput
  import opened Idempotency
  import opened Planning
  import opened PlanningInvariants
  import opened Promotion
  import opened PromotionTheorems

  // ------------------------------------------------------------------ the invariant

  // A candidate's evidence kept its contract, and one item of it names a source.
  ghost predicate CandidateAgrees(s: Store, l: Ledger, rules: Rules, c: Key)
    requires c in l.candidates
  {
    var candidate := l.candidates[c];
    && c.org == candidate.caseKey.org && RevisionKey(candidate.caseKey, candidate.revision) in s.revisions
    && ItemsOk(candidate.evidence, rules)
    && exists p :: OnlySource(candidate.evidence, p)
  }

  // What an approval put into the pack tables is still there.
  ghost predicate PromotedAgrees(s: Store, org: nat, p: Promoted) {
    var to := PackKey(org, BASE_PACK, p.version);
    && BASE_VERSION < p.version && to in s.packs
    && Key(org, p.evidence) in s.evidence
    && s.evidence[Key(org, p.evidence)] == Evidence(to, p.entry, PROGRAM_FIT, ExternallyVerified, p.sha256)
  }

  ghost predicate VerificationAgrees(s: Store, l: Ledger, v: Key)
    requires v in l.verifications
  {
    var row := l.verifications[v];
    && v.org == row.candidate.org && row.candidate in l.candidates && Base(v.org) in s.packs
    && (var candidate := l.candidates[row.candidate];
        && candidate.caseKey == row.caseKey && candidate.revision == row.revision
        && SelectedOk(Selected(candidate.evidence, row.evidenceId))
        && (row.promoted.Some? ==>
              && PromotedAgrees(s, v.org, row.promoted.value)
              && Selected(candidate.evidence, row.evidenceId).value.url == Some(row.promoted.value.url)))
  }

  // One verification per candidate, one approval per case and revision, one per pack version.
  ghost predicate VerificationsDistinct(l: Ledger) {
    && (forall v, w :: v in l.verifications && w in l.verifications && l.verifications[v].candidate == l.verifications[w].candidate ==> v == w)
    && (forall v, w | v in l.verifications && w in l.verifications && l.verifications[v].promoted.Some? && l.verifications[w].promoted.Some? ::
          l.verifications[v].caseKey == l.verifications[w].caseKey && l.verifications[v].revision == l.verifications[w].revision ==> v == w)
    && (forall v, w | v in l.verifications && w in l.verifications && l.verifications[v].promoted.Some? && l.verifications[w].promoted.Some? ::
          v.org == w.org && l.verifications[v].promoted.value.version == l.verifications[w].promoted.value.version ==> v == w)
  }

  ghost predicate LedgerRecordsOk(s: Store, l: Ledger) {
    && Bijective(s.records, CandidateImport, l.candidates.Keys)
    && Bijective(s.records, CandidateVerify, l.verifications.Keys)
  }

  ghost predicate LedgerInv(s: Store, l: Ledger, rules: Rules) {
    && (forall c :: c in l.candidates ==> CandidateAgrees(s, l, rules, c))
    && (forall v :: v in l.verifications ==> VerificationAgrees(s, l, v))
    && VerificationsDistinct(l)
    && LedgerRecordsOk(s, l)
  }

  lemma EmptyLedger(rules: Rules)
    ensures LedgerInv(EMPTY, NO_CANDIDATES, rules)
  {
    hide CandidateAgrees, VerificationAgrees;
  }

  // ------------------------------------------------------------------ the selected item

  lemma {:induction false} SelectedAt(items: seq<Item>, id: string)
    requires Selected(items, id).Some?
    ensures exists i :: 0 <= i < |items| && items[i].id == id && items[i] == Selected(items, id).value
    decreases |items|
  {
    if items[0].id != id {
      SelectedAt(items[1..], id);
      var i :| 0 <= i < |items[1..]| && items[1..][i].id == id && items[1..][i] == Selected(items[1..], id).value;
      assert items[i + 1] == items[1..][i];
    }
  }

  // A verification can only be about the one item that names a source.
  lemma SelectedIsTheSource(s: Store, l: Ledger, rules: Rules, v: Key, p: nat)
    requires LedgerInv(s, l, rules) && v in l.verifications
    requires l.verifications[v].candidate in l.candidates
    requires OnlySource(l.candidates[l.verifications[v].candidate].evidence, p)
    ensures var items := l.candidates[l.verifications[v].candidate].evidence;
            && items[p].id == l.verifications[v].evidenceId
            && forall i :: 0 <= i < |items| && items[i].id == l.verifications[v].evidenceId ==> i == p
  {
    hide LedgerRecordsOk, VerificationsDistinct, ItemOk, SourceOk, PromotedAgrees;
    assert VerificationAgrees(s, l, v) && CandidateAgrees(s, l, rules, l.verifications[v].candidate);
    SelectedAt(l.candidates[l.verifications[v].candidate].evidence, l.verifications[v].evidenceId);
  }

  // ------------------------------------------------------------------ planning steps

  ghost predicate LedgerGrows(s: Store, t: Store) {
    && s.packs.Keys <= t.packs.Keys && s.revisions.Keys <= t.revisions.Keys && EntriesFrozen(s, t)
    && forall k :: k in s.evidence ==> k in t.evidence && t.evidence[k] == s.evidence[k]
  }

  lemma LedgerRows(s: Store, t: Store, l: Ledger, rules: Rules)
    requires LedgerInv(s, l, rules) && LedgerGrows(s, t)
    ensures forall c :: c in l.candidates ==> CandidateAgrees(t, l, rules, c)
    ensures forall v :: v in l.verifications ==> VerificationAgrees(t, l, v)
  {
    hide CandidateAgrees, VerificationAgrees, LedgerRecordsOk, VerificationsDistinct;
    forall c | c in l.candidates
      ensures CandidateAgrees(t, l, rules, c)
    {
      CandidateStays(s, t, l, rules, c);
    }
    forall v | v in l.verifications
      ensures VerificationAgrees(t, l, v)
    {
      VerificationStays(s, t, l, v);
    }
  }

  lemma CandidateStays(s: Store, t: Store, l: Ledger, rules: Rules, c: Key)
    requires c in l.candidates && CandidateAgrees(s, l, rules, c) && LedgerGrows(s, t)
    ensures CandidateAgrees(t, l, rules, c)
  {
    hide ItemsOk, OnlySource;
  }

  lemma VerificationStays(s: Store, t: Store, l: Ledger, v: Key)
    requires v in l.verifications && VerificationAgrees(s, l, v) && LedgerGrows(s, t)
    ensures VerificationAgrees(t, l, v)
  {
    hide SelectedOk, Selected;
  }

  lemma LedgerStays(s: Store, t: Store, l: Ledger, rules: Rules)
    requires LedgerInv(s, l, rules) && LedgerGrows(s, t) && LedgerRecordsOk(t, l)
    ensures LedgerInv(t, l, rules)
  {
    hide CandidateAgrees, VerificationAgrees, LedgerRecordsOk, VerificationsDistinct;
    LedgerRows(s, t, l, rules);
  }

  lemma OtherLedgerRecord(s: Store, t: Store, l: Ledger, k: RecordKey, request: string, response: Key)
    requires LedgerRecordsOk(s, l) && k !in s.records && t.records == Insert(s.records, k, request, response)
    requires k.operation != CandidateImport && k.operation != CandidateVerify
    ensures LedgerRecordsOk(t, l)
  {
    hide Bijective;
    InsertBijective(s.records, k, request, response, CandidateImport, l.candidates.Keys);
    InsertBijective(s.records, k, request, response, CandidateVerify, l.verifications.Keys);
  }

  // ------------------------------------------------------------------ import

  lemma ImportExactly(s: Store, l: Ledger, a: ImportArgs, rules: Rules)
    requires CasesOk(s) && ImportKey(a) !in s.records
    ensures ImportCandidate(s, l, a, rules).Ok? <==>
              && ContractOk(a) && EvidenceAccepted(a.evidence, rules)
              && Participant(Key(a.org, a.caseId), a.actor, Advisor) in s.participants
              && CaseAt(s, Key(a.org, a.caseId), a.revision, InPlanning)
              && 1 <= |a.runId| <= 200 && Key(a.org, a.candidate) !in l.candidates
    ensures ImportCandidate(s, l, a, rules).Ok? ==>
              var id := Key(a.org, a.candidate);
              ImportCandidate(s, l, a, rules).value ==
                (s.(records := Insert(s.records, ImportKey(a), a.request, id)),
                 l.(candidates := l.candidates[id := Candidate(Key(a.org, a.caseId), a.revision, Values(a.evidence), a.request, a.actor)]),
                 Reply(id, false))
  {
    hide EvidenceAccepted, Values;
  }

  lemma ImportKeeps(s: Store, l: Ledger, a: ImportArgs, rules: Rules)
    requires Inv(s) && LedgerInv(s, l, rules) && ImportKey(a) !in s.records && ImportCandidate(s, l, a, rules).Ok?
    ensures var (t, m, _) := ImportCandidate(s, l, a, rules).value;
            LedgerInv(t, m, rules) && t == s.(records := t.records) && LedgerGrows(s, t)
  {
    hide ImportCandidate, LedgerRecordsOk, VerificationAgrees, CandidateAgrees, EvidenceAccepted, Values, ContractOk;
    hide CasesOk, RunsOk, ChainsOk, ReviewsOk, HandoffOk, BriefsOk, DecisionsOk, EvidenceOk, OutputsOk, RecordsOk, PinnedOk;
    ImportExactly(s, l, a, rules);
    var id := Key(a.org, a.candidate);
    var (t, m, _) := ImportCandidate(s, l, a, rules).value;
    LedgerRows(s, t, l, rules);
    forall c | c in m.candidates
      ensures CandidateAgrees(t, m, rules, c)
    {
      if c == id {
        ImportedAgrees(s, t, m, a, rules);
      } else {
        OldCandidate(t, l, m, rules, c);
      }
    }
    forall v | v in m.verifications
      ensures VerificationAgrees(t, m, v)
    {
      OldVerification(t, l, m, v, id);
    }
    ImportRecords(s, t, l, m, a);
  }

  lemma OldCandidate(t: Store, l: Ledger, m: Ledger, rules: Rules, c: Key)
    requires c in l.candidates && c in m.candidates && m.candidates[c] == l.candidates[c] && CandidateAgrees(t, l, rules, c)
    ensures CandidateAgrees(t, m, rules, c)
  {
    hide ItemsOk, OnlySource;
  }

  lemma OldVerification(t: Store, l: Ledger, m: Ledger, v: Key, id: Key)
    requires v in l.verifications && m.verifications == l.verifications && VerificationAgrees(t, l, v)
    requires id !in l.candidates && id in m.candidates && m.candidates == l.candidates[id := m.candidates[id]]
    ensures VerificationAgrees(t, m, v)
  {
    hide SelectedOk, Selected, PromotedAgrees;
  }

  lemma ImportedAgrees(s: Store, t: Store, m: Ledger, a: ImportArgs, rules: Rules)
    requires CasesOk(s) && t.revisions == s.revisions && CaseAt(s, Key(a.org, a.caseId), a.revision, InPlanning)
    requires EvidenceAccepted(a.evidence, rules) && Key(a.org, a.candidate) in m.candidates
    requires m.candidates[Key(a.org, a.candidate)] == Candidate(Key(a.org, a.caseId), a.revision, Values(a.evidence), a.request, a.actor)
    ensures CandidateAgrees(t, m, rules, Key(a.org, a.candidate))
  {
    hide ItemsOk, OnlySource, Values;
  }

  lemma ImportRecords(s: Store, t: Store, l: Ledger, m: Ledger, a: ImportArgs)
    requires LedgerRecordsOk(s, l) && ImportKey(a) !in s.records && Key(a.org, a.candidate) !in l.candidates
    requires t.records == Insert(s.records, ImportKey(a), a.request, Key(a.org, a.candidate))
    requires m.candidates.Keys == l.candidates.Keys + {Key(a.org, a.candidate)} && m.verifications == l.verifications
    ensures LedgerRecordsOk(t, m)
  {
    hide Bijective;
    InsertBijective(s.records, ImportKey(a), a.request, Key(a.org, a.candidate), CandidateImport, l.candidates.Keys);
    InsertBijective(s.records, ImportKey(a), a.request, Key(a.org, a.candidate), CandidateVerify, l.verifications.Keys);
  }

  // A status that is JSON null.
  predicate NullStatus(item: Option<Item>) {
    item.Some? && (item.value.citation.None? || item.value.verification.None?)
  }

  // What the contract asks of an item: it is cited, and says whether it was verified.
  predicate IsVetted(item: Option<Item>) {
    item.Some? && item.value.citation == Some("cited") && item.value.verification in {Some("verified"), Some("unverified")}
  }

  // The items of an accepted array are all vetted exactly when no status of theirs is null.
  lemma VettedExactly(s: Store, l: Ledger, a: ImportArgs, rules: Rules)
    requires CasesOk(s) && ImportKey(a) !in s.records && ImportCandidate(s, l, a, rules).Ok?
    ensures (forall i :: 0 <= i < |a.evidence| ==> IsVetted(a.evidence[i])) <==> (forall i :: 0 <= i < |a.evidence| ==> !NullStatus(a.evidence[i]))
  {
    hide ImportCandidate, CasesOk, ContractOk, OnlySource, SourceOk;
    ImportExactly(s, l, a, rules);
    forall i | 0 <= i < |a.evidence|
      ensures IsVetted(a.evidence[i]) <==> !NullStatus(a.evidence[i])
    {
      assert Values(a.evidence)[i] == a.evidence[i].value;
    }
  }

  // Nulling both statuses of any item of an accepted array.
  function WithoutStatuses(a: ImportArgs, i: nat): ImportArgs
    requires i < |a.evidence| && a.evidence[i].Some?
  {
    a.(evidence := a.evidence[i := Some(a.evidence[i].value.(citation := None, verification := None))])
  }

  // Null statuses are never what an import is refused for.
  lemma NullStatusesAccepted(s: Store, l: Ledger, a: ImportArgs, i: nat, rules: Rules)
    requires CasesOk(s) && ImportKey(a) !in s.records && ImportCandidate(s, l, a, rules).Ok?
    requires i < |a.evidence| && a.evidence[i].Some?
    ensures ImportCandidate(s, l, WithoutStatuses(a, i), rules).Ok? && NullStatus(WithoutStatuses(a, i).evidence[i])
  {
    hide ImportCandidate, CasesOk, EvidenceAccepted, IsSha256, CaseAt, CONTRACT;
    ImportExactly(s, l, a, rules);
    ImportExactly(s, l, WithoutStatuses(a, i), rules);
    StillAccepted(a, i, rules);
  }

  lemma StillAccepted(a: ImportArgs, i: nat, rules: Rules)
    requires EvidenceAccepted(a.evidence, rules) && i < |a.evidence| && a.evidence[i].Some?
    ensures EvidenceAccepted(WithoutStatuses(a, i).evidence, rules)
  {
    var before, after := Values(a.evidence), Values(WithoutStatuses(a, i).evidence);
    forall j | 0 <= j < |after|
      ensures after[j].id == before[j].id && after[j].url == before[j].url && ItemOk(after[j], rules) && SourceOk(after[j], rules)
    {
      assert ItemOk(before[j], rules) && SourceOk(before[j], rules);
    }
    var p: nat :| p < |a.evidence| && OnlySource(before, p);
    assert OnlySource(after, p);
  }

  // ------------------------------------------------------------------ verification

  function SelectedBy(l: Ledger, a: VerifyArgs): Option<Item> {
    var id := Key(a.org, a.candidate);
    if id in l.candidates then Selected(l.candidates[id].evidence, a.evidenceId) else None
  }

  // What the verdict itself has to bring.
  ghost predicate VerdictStands(s: Store, l: Ledger, a: VerifyArgs, rules: Rules, version: int) {
    && Base(a.org) in s.packs && Key(a.org, a.verification) !in l.verifications
    && match a.verdict
       case Rejected(attested) => !attested
       case OtherVerdict => false
       case _ =>
         var t := a.verdict.attestation;
         && SelectedBy(l, a).Some? && AttestationOk(t, SelectedBy(l, a).value, rules)
         && s.packs[Base(a.org)].manifest == BASE_MANIFEST
         && CopiedOk(t.copied) && FreshIds(s, a.org, t, version)
         && !HasApproval(l, Key(a.org, a.caseId), a.revision)
  }

  lemma AttestationIsEntry(t: Attestation, selected: Item, rules: Rules)
    requires AttestationOk(t, selected, rules)
    ensures t.url.Some? && t.entry.Some? && t.evidence.Some? && EntryValid(ExternalEntry(t))
  {
    hide IsSha256;
  }

  // The tables that a verdict leaves, before its verification row and its record.
  ghost function AfterVerdict(s: Store, a: VerifyArgs, rules: Rules, version: int): Store {
    var t := AttestationOf(a.verdict);
    if t.Some? && IsAttested(t.value)
    then AfterPromotion(s, a.org, t.value, version, rules.digest(a.baseManifest, t.value.sha256, version)) else s
  }

  function PromotedBy(a: VerifyArgs, version: int): Option<Promoted> {
    var t := AttestationOf(a.verdict);
    if t.Some? && t.value.url.Some? && t.value.entry.Some? && t.value.evidence.Some? then Some(PromotedRow(t.value, version)) else None
  }

  function NewVerification(a: VerifyArgs, version: int): Verification {
    Verification(Key(a.org, a.candidate), Key(a.org, a.caseId), a.revision, a.actor, a.evidenceId, PromotedBy(a, version))
  }

  // A first verification succeeds exactly when its target is current and its verdict stands; no
  // trigger and no constraint beyond the caller's own ids can refuse it.
  lemma VerifyExactly(s: Store, l: Ledger, a: VerifyArgs, rules: Rules, version: int)
    requires EvidenceOk(s) && VerifyKey(a) !in s.records && NextPackVersion(s.packs, a.org, BASE_PACK, version)
    ensures VerifyCandidate(s, l, a, rules, version).Ok? <==> VerifyRefusal(s, l, a) == None && VerdictStands(s, l, a, rules, version)
    ensures VerifyCandidate(s, l, a, rules, version).Ok? ==>
              var id, stored := Key(a.org, a.verification), AfterVerdict(s, a, rules, version);
              VerifyCandidate(s, l, a, rules, version).value ==
                (stored.(records := Insert(s.records, VerifyKey(a), a.request, id)),
                 l.(verifications := l.verifications[id := NewVerification(a, version)]),
                 VerifyReply(id, Some(NewVerification(a, version)), false))
  {
    hide EvidenceOk, VerifyRefusal, Promote, AfterPromotion, FreshIds, IsAttested, AttestationOk, CopiedOk, HasApproval, NextPackVersion, Conclude, Insert;
    if VerifyRefusal(s, l, a).None? {
      NotRefusedKey(s, l, a);
      match a.verdict
      case Rejected(attested) => ConcludeExactly(s, l, a, None);
      case Approved(t) => ApproveExactly(s, l, a, t, rules, version);
      case NullVerdict(t) => ApproveExactly(s, l, a, t, rules, version);
      case OtherVerdict =>
    }
  }

  // A NULL decision promotes exactly as an approval does.
  lemma NullVerdictApproves(s: Store, l: Ledger, a: VerifyArgs, t: Attestation, rules: Rules, version: int)
    ensures VerifyCandidate(s, l, a.(verdict := NullVerdict(t)), rules, version) == VerifyCandidate(s, l, a.(verdict := Approved(t)), rules, version)
  {
    hide ApproveCandidate, VerifyRefusal;
    SameButVerdict(s, l, a.(verdict := NullVerdict(t)), a.(verdict := Approved(t)), t, rules, version);
  }

  lemma SameButVerdict(s: Store, l: Ledger, a: VerifyArgs, b: VerifyArgs, t: Attestation, rules: Rules, version: int)
    requires b == a.(verdict := b.verdict) && !a.verdict.OtherVerdict? && !b.verdict.OtherVerdict?
    ensures VerifyRefusal(s, l, a) == VerifyRefusal(s, l, b)
    ensures ApproveCandidate(s, l, a, t, rules, version) == ApproveCandidate(s, l, b, t, rules, version)
  {
    hide Promote, AttestationOk, CopiedOk, SelectedOk, Selected, CaseAt, Conclude;
    forall stored, promoted
      ensures Conclude(stored, l, a, promoted) == Conclude(stored, l, b, promoted)
    {
      SameConclusion(stored, l, a, b, promoted);
    }
  }

  lemma SameConclusion(s: Store, l: Ledger, a: VerifyArgs, b: VerifyArgs, promoted: Option<Promoted>)
    requires b == a.(verdict := b.verdict)
    ensures Conclude(s, l, a, promoted) == Conclude(s, l, b, promoted)
  {
  }

  lemma NotRefusedKey(s: Store, l: Ledger, a: VerifyArgs)
    requires VerifyRefusal(s, l, a).None?
    ensures |a.key| == 64 && |a.request| == 64 && a.baseManifest == BASE_MANIFEST && a.verdict != OtherVerdict
    ensures Key(a.org, a.candidate) in l.candidates && SelectedOk(SelectedBy(l, a))
    ensures CaseAt(s, Key(a.org, a.caseId), a.revision, InPlanning)
    ensures l.candidates[Key(a.org, a.candidate)].caseKey == Key(a.org, a.caseId) && l.candidates[Key(a.org, a.candidate)].revision == a.revision
    ensures forall v :: v in l.verifications ==> l.verifications[v].candidate != Key(a.org, a.candidate)
  {
    hide SelectedOk, Selected;
  }

  lemma ConcludeExactly(s: Store, l: Ledger, a: VerifyArgs, promoted: Option<Promoted>)
    requires |a.key| == 64 && |a.request| == 64 && VerifyKey(a) !in s.records
    ensures Conclude(s, l, a, promoted).Ok? <==>
              && Base(a.org) in s.packs && Key(a.org, a.verification) !in l.verifications
              && (promoted.Some? ==> !HasApproval(l, Key(a.org, a.caseId), a.revision))
    ensures Conclude(s, l, a, promoted).Ok? ==>
              var id := Key(a.org, a.verification);
              var row := Verification(Key(a.org, a.candidate), Key(a.org, a.caseId), a.revision, a.actor, a.evidenceId, promoted);
              Conclude(s, l, a, promoted).value ==
                (s.(records := Insert(s.records, VerifyKey(a), a.request, id)),
                 l.(verifications := l.verifications[id := row]), VerifyReply(id, Some(row), false))
  {
    hide HasApproval;
  }

  // The three checks of an approval, and the promotion behind them.
  ghost predicate ApprovalChecks(s: Store, l: Ledger, a: VerifyArgs, t: Attestation, rules: Rules) {
    && SelectedBy(l, a).Some? && AttestationOk(t, SelectedBy(l, a).value, rules)
    && Base(a.org) in s.packs && s.packs[Base(a.org)].manifest == a.baseManifest && CopiedOk(t.copied)
  }

  lemma ApproveBranches(s: Store, l: Ledger, a: VerifyArgs, t: Attestation, rules: Rules, version: int)
    requires Key(a.org, a.candidate) in l.candidates
    ensures !ApprovalChecks(s, l, a, t, rules) ==> ApproveCandidate(s, l, a, t, rules, version).Err?
    ensures ApprovalChecks(s, l, a, t, rules) ==>
              && t.url.Some? && t.entry.Some? && t.evidence.Some? && IsAttested(t)
              && ApproveCandidate(s, l, a, t, rules, version) ==
                 match Promote(s, a.org, t, version, rules.digest(a.baseManifest, t.sha256, version))
                 case Err(e) => Err(e)
                 case Ok(stored) => Conclude(stored, l, a, Some(PromotedRow(t, version)))
  {
    hide Promote, AttestationOk, CopiedOk, Conclude, EntryValid, Selected;
    if ApprovalChecks(s, l, a, t, rules) {
      AttestationIsEntry(t, SelectedBy(l, a).value, rules);
    }
  }

  lemma ApproveExactly(s: Store, l: Ledger, a: VerifyArgs, t: Attestation, rules: Rules, version: int)
    requires EvidenceOk(s) && VerifyKey(a) !in s.records && NextPackVersion(s.packs, a.org, BASE_PACK, version)
    requires VerifyRefusal(s, l, a).None? && AttestationOf(a.verdict) == Some(t)
    ensures ApproveCandidate(s, l, a, t, rules, version).Ok? <==> VerdictStands(s, l, a, rules, version)
    ensures ApproveCandidate(s, l, a, t, rules, version).Ok? ==>
              var id, stored := Key(a.org, a.verification), AfterVerdict(s, a, rules, version);
              ApproveCandidate(s, l, a, t, rules, version).value ==
                (stored.(records := Insert(s.records, VerifyKey(a), a.request, id)),
                 l.(verifications := l.verifications[id := NewVerification(a, version)]),
                 VerifyReply(id, Some(NewVerification(a, version)), false))
  {
    hide EvidenceOk, VerifyRefusal, Promote, FreshIds, AttestationOk, CopiedOk, HasApproval, NextPackVersion, Conclude, Insert, ApproveCandidate, AfterPromotion,
         IsAttested, Selected, PromotedRow;
    NotRefusedKey(s, l, a);
    ApproveBranches(s, l, a, t, rules, version);
    if ApprovalChecks(s, l, a, t, rules) {
      var manifest := rules.digest(a.baseManifest, t.sha256, version);
      PromoteExactly(s, a.org, t, version, manifest);
      if FreshIds(s, a.org, t, version) {
        PromotedBase(s, a.org, t, version, manifest);
        ConcludeExactly(AfterPromotion(s, a.org, t, version, manifest), l, a, Some(PromotedRow(t, version)));
      }
    }
  }

  lemma PromotedBase(s: Store, org: nat, t: Attestation, version: int, manifest: string)
    requires IsAttested(t)
    ensures s.packs.Keys <= AfterPromotion(s, org, t, version, manifest).packs.Keys
    ensures AfterPromotion(s, org, t, version, manifest).records == s.records
  {
    hide IsAttested, Copies, CopiedEntries, ExternalEntry;
  }

  // ------------------------------------------------------------------ what a verification keeps

  lemma PromotionKeepsEvidence(s: Store, org: nat, t: Attestation, version: int, manifest: string)
    requires EvidenceOk(s) && IsAttested(t) && Base(org) in s.packs && NextPackVersion(s.packs, org, BASE_PACK, version)
    requires FreshIds(s, org, t, version)
    ensures EvidenceOk(AfterPromotion(s, org, t, version, manifest))
    ensures LedgerGrows(s, AfterPromotion(s, org, t, version, manifest))
    ensures Key(org, t.evidence.value) in AfterPromotion(s, org, t, version, manifest).evidence
    ensures PromotedAgrees(AfterPromotion(s, org, t, version, manifest), org, PromotedRow(t, version))
  {
    hide IsSha256, EntryValid, Copies, CopiedEntries, Provenance, ExternalEntry, CopiedOk, NextPackVersion, FreshIds, EvidenceOk;
    PromotedOldRows(s, org, t, version, manifest);
    PromotedProvenance(s, org, t, version, manifest);
    PromotedKeys(s, org, t, version, manifest);
    PromotedFrozen(s, org, t, version, manifest);
    PromotedOneClaim(s, org, t, version, manifest);
    assert BASE_VERSION < version by { PreparedReady(s, org, version, manifest, t.copied); }
    EvidenceFromParts(AfterPromotion(s, org, t, version, manifest));
  }

  lemma EvidenceFromParts(s: Store)
    requires forall k :: k in s.entries ==> k.pack in s.packs
    requires forall k :: k in s.evidence ==> Provenance(s.entries, s.evidence[k]) && IsSha256(s.evidence[k].sha256)
    requires forall k :: k in s.evidence ==> k.org == s.evidence[k].pack.org
    requires OneRowPerClaim(s.evidence)
    ensures EvidenceOk(s)
  {
    hide IsSha256, Provenance;
  }

  lemma PromotedKeys(s: Store, org: nat, t: Attestation, version: int, manifest: string)
    requires EvidenceOk(s) && IsAttested(t)
    ensures var after := AfterPromotion(s, org, t, version, manifest);
            && (forall k :: k in after.entries ==> k.pack in after.packs)
            && (forall k :: k in after.evidence ==> k.org == after.evidence[k].pack.org)
  {
    hide IsSha256, EntryValid, Copies, CopiedEntries, Provenance, ExternalEntry, ClaimTaken, ClaimRow, CopiedOk;
    var from, to := Base(org), PackKey(org, BASE_PACK, version);
    CopiedEntriesAt(s.entries, from, to, t.entry.value);
    var copies := Copies(s.evidence, from, to, t.copied);
    forall k | k in copies
      ensures k.org == copies[k].pack.org
    {
      CopyHome(s.evidence, from, to, t.copied, k);
    }
  }

  // A promotion adds entries to its own new version only.
  lemma PromotedFrozen(s: Store, org: nat, t: Attestation, version: int, manifest: string)
    requires EvidenceOk(s) && IsAttested(t) && FreshIds(s, org, t, version) && NextPackVersion(s.packs, org, BASE_PACK, version)
    ensures EntriesFrozen(s, AfterPromotion(s, org, t, version, manifest))
  {
    hide IsSha256, EntryValid, Copies, CopiedEntries, Provenance, ExternalEntry, CopiedOk, FreshIds, EvidenceOk;
    PromotedOldRows(s, org, t, version, manifest);
    CopiedEntriesAt(s.entries, Base(org), PackKey(org, BASE_PACK, version), t.entry.value);
  }

  lemma CopyHome(evidence: map<Key, Evidence>, from: PackKey, to: PackKey, copied: seq<CopyItem>, k: Key)
    requires k in Copies(evidence, from, to, copied)
    ensures k.org == to.org && Copies(evidence, from, to, copied)[k].pack == to
  {
    hide Copies, ClaimRow, ClaimTaken;
    CopiesOnly(evidence, from, to, copied);
  }

  // Two rows of one claim in the new version would be two copies of one item, or a copied
  // program fit.
  lemma PromotedOneClaim(s: Store, org: nat, t: Attestation, version: int, manifest: string)
    requires EvidenceOk(s) && IsAttested(t) && NextPackVersion(s.packs, org, BASE_PACK, version)
    ensures OneRowPerClaim(AfterPromotion(s, org, t, version, manifest).evidence)
  {
    hide IsSha256, EntryValid, Copies, CopiedEntries, Provenance, ExternalEntry, ClaimTaken, ClaimRow, CopiedOk, OneRowPerClaim;
    var from, to := Base(org), PackKey(org, BASE_PACK, version);
    var copies := Copies(s.evidence, from, to, t.copied);
    NoEvidenceYet(s, to, PROGRAM_FIT);
    assert OneRowPerClaim(s.evidence) by { OneRow(s); }
    CopiesDistinct(s.evidence, from, to, t.copied);
    forall k | k in copies
      ensures copies[k].pack == to && copies[k].claim != PROGRAM_FIT
    {
      CopyHome(s.evidence, from, to, t.copied, k);
      CopyClaim(s.evidence, from, to, t.copied, k);
    }
    Merged(s.evidence, copies, Key(org, t.evidence.value), Evidence(to, t.entry.value, PROGRAM_FIT, ExternallyVerified, t.sha256));
  }

  lemma OneRow(s: Store)
    requires EvidenceOk(s)
    ensures OneRowPerClaim(s.evidence)
  {
    hide Provenance, IsSha256;
  }

  lemma CopyClaim(evidence: map<Key, Evidence>, from: PackKey, to: PackKey, copied: seq<CopyItem>, k: Key)
    requires CopiedOk(copied) && k in Copies(evidence, from, to, copied)
    ensures Copies(evidence, from, to, copied)[k].claim != PROGRAM_FIT
  {
    hide Copies, ClaimRow, ClaimTaken;
    CopiesOnly(evidence, from, to, copied);
  }

  lemma CopiesDistinct(evidence: map<Key, Evidence>, from: PackKey, to: PackKey, copied: seq<CopyItem>)
    requires CopiedOk(copied)
    ensures OneRowPerClaim(Copies(evidence, from, to, copied))
  {
    hide Copies, ClaimRow, ClaimTaken;
    CopiesOnly(evidence, from, to, copied);
    var copies := Copies(evidence, from, to, copied);
    forall j, k | j in copies && k in copies && copies[j].claim == copies[k].claim
      ensures j == k
    {
      var m :| 0 <= m < |copied| && copied[m].id == Some(j.id) && j.org == to.org && ClaimTaken(evidence, from, copied[m].claim) && copies[j] == CopiedRow(evidence, from, to, copied[m].claim);
      var n :| 0 <= n < |copied| && copied[n].id == Some(k.id) && k.org == to.org && ClaimTaken(evidence, from, copied[n].claim) && copies[k] == CopiedRow(evidence, from, to, copied[n].claim);
      assert copied[m].claim == copied[n].claim;
    }
  }

  lemma Merged(evidence: map<Key, Evidence>, copies: map<Key, Evidence>, k: Key, row: Evidence)
    requires OneRowPerClaim(evidence) && OneRowPerClaim(copies)
    requires forall j :: j in evidence ==> evidence[j].pack != row.pack
    requires forall j :: j in copies ==> copies[j].pack == row.pack && copies[j].claim != row.claim
    ensures OneRowPerClaim((evidence + copies)[k := row])
  {
  }

  // The part of the tables that a verdict touches.
  ghost predicate OnlyPacks(s: Store, t: Store) {
    t == s.(packs := t.packs, entries := t.entries, evidence := t.evidence)
  }

  lemma VerdictKeepsEvidence(s: Store, l: Ledger, a: VerifyArgs, rules: Rules, version: int)
    requires EvidenceOk(s) && NextPackVersion(s.packs, a.org, BASE_PACK, version) && VerdictStands(s, l, a, rules, version)
    ensures var t := AfterVerdict(s, a, rules, version);
            && EvidenceOk(t) && LedgerGrows(s, t) && OnlyPacks(s, t)
            && (PromotedBy(a, version).Some? ==> PromotedAgrees(t, a.org, PromotedBy(a, version).value))
            && (PromotedBy(a, version).Some? <==> AttestationOf(a.verdict).Some?)
  {
    hide *;
    VerdictParts(s, l, a, rules, version);
    if AttestationOf(a.verdict).Some? {
      var t := AttestationOf(a.verdict).value;
      PromotionKeepsEvidence(s, a.org, t, version, rules.digest(a.baseManifest, t.sha256, version));
      PromotionOnlyPacks(s, a.org, t, version, rules.digest(a.baseManifest, t.sha256, version));
    } else {
      SameGrows(s);
    }
  }

  lemma VerdictParts(s: Store, l: Ledger, a: VerifyArgs, rules: Rules, version: int)
    requires VerdictStands(s, l, a, rules, version)
    ensures Base(a.org) in s.packs
    ensures AttestationOf(a.verdict).Some? ==>
              var t := AttestationOf(a.verdict).value;
              && IsAttested(t) && FreshIds(s, a.org, t, version)
              && AfterVerdict(s, a, rules, version) == AfterPromotion(s, a.org, t, version, rules.digest(a.baseManifest, t.sha256, version))
              && PromotedBy(a, version) == Some(PromotedRow(t, version))
    ensures AttestationOf(a.verdict).None? ==> AfterVerdict(s, a, rules, version) == s && PromotedBy(a, version).None?
  {
    hide IsSha256, FreshIds, AttestationOk, CopiedOk, HasApproval, EntryValid, AfterPromotion, SelectedBy;
    if AttestationOf(a.verdict).Some? {
      AttestationIsEntry(AttestationOf(a.verdict).value, SelectedBy(l, a).value, rules);
    }
  }

  lemma PromotionOnlyPacks(s: Store, org: nat, t: Attestation, version: int, manifest: string)
    requires IsAttested(t)
    ensures OnlyPacks(s, AfterPromotion(s, org, t, version, manifest))
  {
    hide IsAttested, Copies, CopiedEntries, ExternalEntry;
  }

  lemma SameGrows(s: Store)
    ensures LedgerGrows(s, s) && OnlyPacks(s, s)
  {
  }

  lemma VerdictUrl(s: Store, l: Ledger, a: VerifyArgs, rules: Rules, version: int)
    requires VerdictStands(s, l, a, rules, version) && PromotedBy(a, version).Some?
    ensures SelectedBy(l, a).Some? && SelectedBy(l, a).value.url == Some(PromotedBy(a, version).value.url)
    ensures !HasApproval(l, Key(a.org, a.caseId), a.revision)
  {
    hide IsSha256, FreshIds, CopiedOk, HasApproval, Selected;
  }

  // A new verification keeps the ledger and the planning invariant.
  lemma VerifyKeeps(s: Store, l: Ledger, a: VerifyArgs, rules: Rules, version: int)
    requires Inv(s) && LedgerInv(s, l, rules) && VerifyKey(a) !in s.records && NextPackVersion(s.packs, a.org, BASE_PACK, version)
    requires VerifyCandidate(s, l, a, rules, version).Ok?
    ensures var (t, m, _) := VerifyCandidate(s, l, a, rules, version).value;
            && LedgerInv(t, m, rules) && LedgerGrows(s, t) && EvidenceOk(t)
            && t == s.(packs := t.packs, entries := t.entries, evidence := t.evidence, records := t.records)
            && t.records == Insert(s.records, VerifyKey(a), a.request, Key(a.org, a.verification))
  {
    hide VerifyCandidate, VerifyRefusal, LedgerRecordsOk, VerificationAgrees, CandidateAgrees, VerdictStands, AfterVerdict, PromotedBy, NextPackVersion, VerificationsDistinct;
    hide CasesOk, RunsOk, ChainsOk, ReviewsOk, HandoffOk, BriefsOk, DecisionsOk, EvidenceOk, OutputsOk, RecordsOk, PromotedAgrees, PinnedOk;
    VerifyExactly(s, l, a, rules, version);
    VerdictKeepsEvidence(s, l, a, rules, version);
    var id, stored := Key(a.org, a.verification), AfterVerdict(s, a, rules, version);
    var (t, m, _) := VerifyCandidate(s, l, a, rules, version).value;
    EvidenceRecord(stored, t);
    LedgerRows(s, t, l, rules);
    assert id !in l.verifications by { FreshVerification(s, l, a, rules, version); }
    forall c | c in m.candidates
      ensures CandidateAgrees(t, m, rules, c)
    {
      OldCandidate(t, l, m, rules, c);
    }
    forall v | v in m.verifications
      ensures VerificationAgrees(t, m, v)
    {
      if v == id {
        if PromotedBy(a, version).Some? {
          PromotedStays(stored, t, a.org, PromotedBy(a, version).value);
        }
        NewVerificationAgrees(s, t, l, m, a, rules, version);
      } else {
        KeptVerification(t, l, m, v);
      }
    }
    NewVerificationDistinct(s, l, m, a, rules, version);
    VerifyRecords(s, t, l, m, a);
  }

  lemma EvidenceRecord(s: Store, t: Store)
    requires EvidenceOk(s) && t == s.(records := t.records)
    ensures EvidenceOk(t)
  {
    hide IsSha256, Provenance;
  }

  lemma FreshVerification(s: Store, l: Ledger, a: VerifyArgs, rules: Rules, version: int)
    requires VerdictStands(s, l, a, rules, version)
    ensures Key(a.org, a.verification) !in l.verifications && Base(a.org) in s.packs
  {
    hide AttestationOk, FreshIds, CopiedOk, HasApproval;
  }

  lemma KeptVerification(t: Store, l: Ledger, m: Ledger, v: Key)
    requires v in l.verifications && v in m.verifications && m.verifications[v] == l.verifications[v]
    requires m.candidates == l.candidates && VerificationAgrees(t, l, v)
    ensures VerificationAgrees(t, m, v)
  {
    hide SelectedOk, Selected, PromotedAgrees;
  }

  lemma NewVerificationAgrees(s: Store, t: Store, l: Ledger, m: Ledger, a: VerifyArgs, rules: Rules, version: int)
    requires VerifyRefusal(s, l, a).None? && VerdictStands(s, l, a, rules, version) && LedgerGrows(s, t)
    requires PromotedBy(a, version).Some? ==> PromotedAgrees(t, a.org, PromotedBy(a, version).value)
    requires m == l.(verifications := l.verifications[Key(a.org, a.verification) := NewVerification(a, version)])
    ensures VerificationAgrees(t, m, Key(a.org, a.verification))
  {
    hide VerifyRefusal, VerdictStands, PromotedBy, PromotedAgrees, SelectedOk, Selected;
    NotRefusedKey(s, l, a);
    FreshVerification(s, l, a, rules, version);
    if PromotedBy(a, version).Some? {
      VerdictUrl(s, l, a, rules, version);
    }
  }

  lemma PromotedStays(s: Store, t: Store, org: nat, p: Promoted)
    requires PromotedAgrees(s, org, p) && t == s.(records := t.records)
    ensures PromotedAgrees(t, org, p)
  {
  }

  // The new row differs from every old one in candidate, in approved revision and in version.
  lemma NewVerificationDistinct(s: Store, l: Ledger, m: Ledger, a: VerifyArgs, rules: Rules, version: int)
    requires LedgerInv(s, l, rules) && VerifyRefusal(s, l, a).None? && VerdictStands(s, l, a, rules, version)
    requires NextPackVersion(s.packs, a.org, BASE_PACK, version)
    requires m == l.(verifications := l.verifications[Key(a.org, a.verification) := NewVerification(a, version)])
    ensures VerificationsDistinct(m)
  {
    hide LedgerInv, VerifyRefusal, VerdictStands, SelectedOk, Selected, HasApproval, PromotedBy, NextPackVersion, VerificationsDistinct;
    var id := Key(a.org, a.verification);
    NotRefusedKey(s, l, a);
    assert VerificationsDistinct(l) by { LedgerDistinct(s, l, rules); }
    if PromotedBy(a, version).Some? {
      VerdictUrl(s, l, a, rules, version);
      NoApproval(l, Key(a.org, a.caseId), a.revision);
      assert PromotedBy(a, version).value.version == version by { VersionBy(a, version); }
    }
    forall v | v in l.verifications && l.verifications[v].promoted.Some? && v.org == a.org
      ensures l.verifications[v].promoted.value.version < version
    {
      OldVersion(s, l, rules, v, version);
    }
    FreshVerification(s, l, a, rules, version);
    OneMoreDistinct(l, m, id, NewVerification(a, version));
  }

  lemma LedgerDistinct(s: Store, l: Ledger, rules: Rules)
    requires LedgerInv(s, l, rules)
    ensures VerificationsDistinct(l)
  {
    hide CandidateAgrees, VerificationAgrees, LedgerRecordsOk;
  }

  lemma NoApproval(l: Ledger, c: Key, revision: int)
    requires !HasApproval(l, c, revision)
    ensures forall v :: v in l.verifications && l.verifications[v].promoted.Some? ==>
              l.verifications[v].caseKey != c || l.verifications[v].revision != revision
  {
  }

  lemma VersionBy(a: VerifyArgs, version: int)
    requires PromotedBy(a, version).Some?
    ensures PromotedBy(a, version).value.version == version
  {
  }

  lemma OldVersion(s: Store, l: Ledger, rules: Rules, v: Key, version: int)
    requires LedgerInv(s, l, rules) && v in l.verifications && l.verifications[v].promoted.Some?
    requires NextPackVersion(s.packs, v.org, BASE_PACK, version)
    ensures l.verifications[v].promoted.value.version < version
  {
    hide CandidateAgrees, LedgerRecordsOk, VerificationsDistinct, SelectedOk, Selected;
    assert VerificationAgrees(s, l, v);
  }

  lemma OneMoreDistinct(l: Ledger, m: Ledger, id: Key, row: Verification)
    requires VerificationsDistinct(l) && id !in l.verifications && m.verifications == l.verifications[id := row]
    requires forall v :: v in l.verifications ==> l.verifications[v].candidate != row.candidate
    requires row.promoted.Some? ==> forall v :: v in l.verifications && l.verifications[v].promoted.Some? ==>
               && (l.verifications[v].caseKey != row.caseKey || l.verifications[v].revision != row.revision)
               && (v.org == id.org ==> l.verifications[v].promoted.value.version != row.promoted.value.version)
    ensures VerificationsDistinct(m)
  {
  }

  lemma VerifyRecords(s: Store, t: Store, l: Ledger, m: Ledger, a: VerifyArgs)
    requires LedgerRecordsOk(s, l) && VerifyKey(a) !in s.records && Key(a.org, a.verification) !in l.verifications
    requires t.records == Insert(s.records, VerifyKey(a), a.request, Key(a.org, a.verification))
    requires m.verifications.Keys == l.verifications.Keys + {Key(a.org, a.verification)} && m.candidates == l.candidates
    ensures LedgerRecordsOk(t, m)
  {
    hide Bijective;
    InsertBijective(s.records, VerifyKey(a), a.request, Key(a.org, a.verification), CandidateImport, l.candidates.Keys);
    InsertBijective(s.records, VerifyKey(a), a.request, Key(a.org, a.verification), CandidateVerify, l.verifications.Keys);
  }
}
