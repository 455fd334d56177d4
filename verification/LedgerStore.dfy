// The candidate ledger as updatable tables beside the planning database. Every method is one
// transaction; what it has written before an error is put back.
module LedgerStore {
  import opened Sql
  import opened PlanningOutput
  import opened Idempotency
  import opened Planning
  import opened Promotion
  import opened PromotionTheorems
  import opened PlanningStore

  class LedgerStore {
    const planning: PlanningStore
    const rules: Rules
    var candidates: map<Key, Candidate>
    var verifications: map<Key, Verification>

    function Tables(): Ledger
      reads this
    {
      Ledger(candidates, verifications)
    }

    constructor (planning: PlanningStore, rules: Rules)
      ensures Tables() == NO_CANDIDATES && this.planning == planning && this.rules == rules
    {
      this.planning, this.rules := planning, rules;
      candidates, verifications := map[], map[];
    }

    // The loop over the evidence array: every element keeps its contract, no id comes twice, and
    // exactly one element names a source.
    method CheckEvidence(items: seq<Option<Item>>) returns (ok: bool)
      ensures ok <==> EvidenceAccepted(items, rules)
    {
      hide ItemOk, SourceOk, ItemsOk, OnlySource;
      var seen: seq<string> := [];
      var promotable := 0;
      ghost var source: nat := 0;
      for n := 0 to |items|
        invariant forall i :: 0 <= i < n ==> items[i].Some?
        invariant forall i :: 0 <= i < n ==> ItemOk(items[i].value, rules) && SourceOk(items[i].value, rules)
        invariant |seen| == n && forall i :: 0 <= i < n ==> seen[i] == items[i].value.id
        invariant forall i, j :: 0 <= i < j < n ==> items[i].value.id != items[j].value.id
        invariant promotable == 0 ==> forall i :: 0 <= i < n ==> items[i].value.url.None?
        invariant promotable == 1 ==> source < n && items[source].value.url.Some? && forall i :: 0 <= i < n && items[i].value.url.Some? ==> i == source
        invariant promotable > 1 ==> exists i, j :: 0 <= i < j < n && items[i].value.url.Some? && items[j].value.url.Some?
        invariant promotable >= 0
      {
        if items[n].None? || !ItemOk(items[n].value, rules) || items[n].value.id in seen {
          Refused(items, n);
          return false;
        }
        seen := seen + [items[n].value.id];
        if items[n].value.url.Some? {
          promotable := promotable + 1;
          if promotable == 1 {
            source := n;
          }
          if !SourceOk(items[n].value, rules) {
            Refused(items, n);
            return false;
          }
        } else {
          NoSource(items[n].value);
        }
      }
      Counted(items, promotable, source);
      return promotable == 1;
    }

    lemma NoSource(item: Item)
      requires item.url.None?
      ensures SourceOk(item, rules)
    {
    }

    lemma Refused(items: seq<Option<Item>>, n: nat)
      requires n < |items|
      requires items[n].None? || !ItemOk(items[n].value, rules) || !SourceOk(items[n].value, rules)
               || exists i :: 0 <= i < n && items[i].Some? && items[i].value.id == items[n].value.id
      ensures !EvidenceAccepted(items, rules)
    {
      hide ItemOk, SourceOk, OnlySource;
      if forall i :: 0 <= i < |items| ==> items[i].Some? {
        assert Values(items)[n] == items[n].value;
        if ItemOk(items[n].value, rules) && SourceOk(items[n].value, rules) {
          var i :| 0 <= i < n && items[i].value.id == items[n].value.id;
          assert Values(items)[i].id == Values(items)[n].id;
        }
      }
    }

    // Counting to one is having a single source.
    lemma Counted(items: seq<Option<Item>>, promotable: int, source: nat)
      requires forall i :: 0 <= i < |items| ==> items[i].Some? && ItemOk(items[i].value, rules) && SourceOk(items[i].value, rules)
      requires forall i, j :: 0 <= i < j < |items| ==> items[i].value.id != items[j].value.id
      requires promotable == 0 ==> forall i :: 0 <= i < |items| ==> items[i].value.url.None?
      requires promotable == 1 ==> source < |items| && items[source].value.url.Some? && forall i :: 0 <= i < |items| && items[i].value.url.Some? ==> i == source
      requires promotable > 1 ==> exists i, j :: 0 <= i < j < |items| && items[i].value.url.Some? && items[j].value.url.Some?
      requires promotable >= 0
      ensures EvidenceAccepted(items, rules) <==> promotable == 1
    {
      hide ItemOk, SourceOk;
      var values := Values(items);
      assert forall i :: 0 <= i < |items| ==> values[i] == items[i].value;
      if promotable == 1 {
        assert OnlySource(values, source);
      }
    }

    method Import(a: ImportArgs) returns (r: Result<Reply>)
      modifies this`candidates, planning`records
      ensures match ImportCandidate(old(planning.Tables()), old(Tables()), a, rules)
              case Err(e) => r == Err(e) && Tables() == old(Tables()) && planning.Tables() == old(planning.Tables())
              case Ok((s, l, reply)) => r == Ok(reply) && Tables() == l && planning.Tables() == s
    {
      hide ContractOk, ItemsOk, EvidenceAccepted, Values;
      var c, id, key := Key(a.org, a.caseId), Key(a.org, a.candidate), ImportKey(a);
      var prior := Lookup(planning.records, key, a.request);
      if prior.Mismatch? {
        return Err(NV008);
      }
      if prior.Replayed? {
        return Ok(prior.reply);
      }
      if !ContractOk(a) {
        return Err(NV011);
      }
      var accepted := CheckEvidence(a.evidence);
      if !accepted {
        return Err(NV011);
      }
      if Participant(c, a.actor, Advisor) !in planning.participants {
        return Err(NV007);
      }
      if !CaseAt(planning.Tables(), c, a.revision, InPlanning) {
        return Err(NV003);
      }
      if !(1 <= |a.runId| <= 200) {
        return Err(CheckViolation);
      }
      if id in candidates {
        return Err(UniqueViolation);
      }
      if RevisionKey(c, a.revision) !in planning.revisions {
        return Err(ForeignKeyViolation);
      }
      if !Insertable(planning.records, key, a.request) {
        return Err(CheckViolation);
      }
      AllItems(a.evidence);
      candidates := candidates[id := Candidate(c, a.revision, Values(a.evidence), a.request, a.actor)];
      planning.records := Insert(planning.records, key, a.request, id);
      return Ok(Reply(id, false));
    }

    lemma AllItems(items: seq<Option<Item>>)
      requires EvidenceAccepted(items, rules)
      ensures forall i :: 0 <= i < |items| ==> items[i].Some?
    {
    }

    // SELECT COALESCE(max(version), 0) + 1 over the versions of a pack.
    method NextVersion(org: nat, id: nat) returns (version: int)
      requires forall p :: p in planning.packs ==> p.version > 0
      ensures NextPackVersion(planning.packs, org, id, version)
    {
      version := 1;
      var rest := planning.packs.Keys;
      while rest != {}
        invariant rest <= planning.packs.Keys && version >= 1
        invariant forall p :: p in planning.packs && p !in rest && p.org == org && p.id == id ==> p.version < version
        invariant version == 1 || exists p :: p in planning.packs && p.org == org && p.id == id && p.version == version - 1
        decreases rest
      {
        var p :| p in rest;
        rest := rest - {p};
        if p.org == org && p.id == id && p.version >= version {
          version := p.version + 1;
        }
      }
    }

    // INSERT ... SELECT of the copied claims, row by row through the provenance trigger.
    method CopyRows(from: PackKey, to: PackKey, copied: seq<CopyItem>) returns (error: Option<Error>)
      requires OneRowPerClaim(planning.evidence)
      modifies planning`evidence
      ensures match CopyEvidence(old(planning.Tables()), from, to, copied)
              case Err(e) => error == Some(e)
              case Ok(t) => error == None && planning.Tables() == t
    {
      hide PersistEvidence, ClaimRow;
      for i := 0 to |copied|
        invariant OneRowPerClaim(planning.evidence)
        invariant CopyEvidence(old(planning.Tables()), from, to, copied) == CopyEvidence(planning.Tables(), from, to, copied[i..])
      {
        var item := copied[i];
        assert copied[i..][0] == item && copied[i..][1..] == copied[i + 1..];
        var evidence := planning.evidence;
        ghost var before := planning.Tables();
        if ClaimTaken(evidence, from, item.claim) && item.claim != PROGRAM_FIT && item.id.Some? {
          var k :| k in evidence && evidence[k].pack == from && evidence[k].claim == item.claim;
          ClaimRowIs(evidence, k);
          var row := Evidence(to, evidence[k].entry, item.claim, AcceptedSyntheticDemo, evidence[k].sha256);
          error := planning.PersistEvidence(Key(to.org, item.id.value), row);
          if error.Some? {
            return;
          }
          StaysOneRow(before, Key(to.org, item.id.value), row);
        } else {
          NoRow(evidence, from, item.claim);
        }
      }
      assert copied[|copied|..] == [];
      error := None;
    }

    lemma StaysOneRow(s: Store, k: Key, row: Evidence)
      requires OneRowPerClaim(s.evidence) && PersistEvidence(s, k, row).Ok?
      ensures OneRowPerClaim(PersistEvidence(s, k, row).value.evidence)
    {
      hide Provenance, IsSha256;
    }

    lemma NoRow(evidence: map<Key, Evidence>, pack: PackKey, claim: string)
      ensures ClaimRow(evidence, pack, claim).None? <==> !ClaimTaken(evidence, pack, claim)
    {
    }

    // The new pack version with its rows. An error takes all of them back.
    method PromotePack(org: nat, t: Attestation, version: int, manifest: string) returns (error: Option<Error>)
      requires t.url.Some? && t.entry.Some? && t.evidence.Some? && OneRowPerClaim(planning.evidence)
      modifies planning`packs, planning`entries, planning`evidence
      ensures match Promote(old(planning.Tables()), org, t, version, manifest)
              case Err(e) => error == Some(e) && planning.Tables() == old(planning.Tables())
              case Ok(after) => error == None && planning.Tables() == after
    {
      hide PersistEvidence, CopyEvidence, CopiedEntries, EntryValid, OneRowPerClaim, ExternalEntry;
      var from, to := Base(org), PackKey(org, BASE_PACK, version);
      if to in planning.packs {
        return Some(UniqueViolation);
      }
      var packs, entries, evidence := planning.packs, planning.entries, planning.evidence;
      planning.packs := planning.packs[to := Pack(manifest)];
      planning.entries := planning.entries + CopiedEntries(planning.entries, from, to);
      error := CopyRows(from, to, t.copied);
      if error == None {
        error := AddExternal(EntryKey(to, t.entry.value), ExternalEntry(t), Key(org, t.evidence.value),
                             Evidence(to, t.entry.value, PROGRAM_FIT, ExternallyVerified, t.sha256));
      }
      if error.Some? {
        planning.packs, planning.entries, planning.evidence := packs, entries, evidence;
      }
    }

    // The external entry and its evidence.
    method AddExternal(k: EntryKey, entry: Entry, id: Key, row: Evidence) returns (error: Option<Error>)
      modifies planning`entries, planning`evidence
      ensures error == (if k in old(planning.entries) then Some(UniqueViolation)
                        else if !EntryValid(entry) then Some(CheckViolation)
                        else match PersistEvidence(old(planning.Tables()).(entries := old(planning.entries)[k := entry]), id, row)
                             case Err(e) => Some(e)
                             case Ok(_) => None)
      ensures error == None ==>
                Ok(planning.Tables()) == PersistEvidence(old(planning.Tables()).(entries := old(planning.entries)[k := entry]), id, row)
    {
      hide PersistEvidence, EntryValid;
      if k in planning.entries {
        return Some(UniqueViolation);
      }
      if !EntryValid(entry) {
        return Some(CheckViolation);
      }
      planning.entries := planning.entries[k := entry];
      error := planning.PersistEvidence(id, row);
    }

    // The verification row and the record, or the conflict that the handler reports.
    method Record(a: VerifyArgs, promoted: Option<Promoted>) returns (r: Result<VerifyReply>)
      modifies this`verifications, planning`records
      ensures match Conclude(old(planning.Tables()), old(Tables()), a, promoted)
              case Err(e) => r == Err(e) && Tables() == old(Tables()) && planning.Tables() == old(planning.Tables())
              case Ok((s, l, reply)) => r == Ok(reply) && Tables() == l && planning.Tables() == s
    {
      hide HasApproval;
      var id, key, c := Key(a.org, a.verification), VerifyKey(a), Key(a.org, a.caseId);
      if Base(a.org) !in planning.packs {
        return Err(ForeignKeyViolation);
      }
      if id in verifications || (promoted.Some? && HasApproval(Tables(), c, a.revision)) {
        return Err(UniqueViolation);
      }
      if !Insertable(planning.records, key, a.request) {
        return Err(CheckViolation);
      }
      var row := Verification(Key(a.org, a.candidate), c, a.revision, a.actor, a.evidenceId, promoted);
      verifications := verifications[id := row];
      planning.records := Insert(planning.records, key, a.request, id);
      return Ok(VerifyReply(id, Some(row), false));
    }

    // An approval: the attestation, the baseline, the copies, then the writes.
    method ApproveIt(a: VerifyArgs, t: Attestation, version: int) returns (r: Result<VerifyReply>)
      requires OneRowPerClaim(planning.evidence)
      modifies this`verifications, planning`packs, planning`entries, planning`evidence, planning`records
      ensures match ApproveCandidate(old(planning.Tables()), old(Tables()), a, t, rules, version)
              case Err(e) => r == Err(e) && Tables() == old(Tables()) && planning.Tables() == old(planning.Tables())
              case Ok((s, l, reply)) => r == Ok(reply) && Tables() == l && planning.Tables() == s
    {
      hide Promote, Conclude, AttestationOk, CopiedOk, OneRowPerClaim, Selected;
      var id := Key(a.org, a.candidate);
      if id !in candidates {
        return Err(NV011);
      }
      var selected := Selected(candidates[id].evidence, a.evidenceId);
      if selected.None? || !AttestationOk(t, selected.value, rules) {
        return Err(NV011);
      }
      if Base(a.org) !in planning.packs || planning.packs[Base(a.org)].manifest != a.baseManifest {
        return Err(NV011);
      }
      if !CopiedOk(t.copied) {
        return Err(NV011);
      }
      Attested(t, selected.value);
      var packs, entries, evidence := planning.packs, planning.entries, planning.evidence;
      var error := PromotePack(a.org, t, version, rules.digest(a.baseManifest, t.sha256, version));
      if error.Some? {
        return Err(error.value);
      }
      r := Record(a, Some(PromotedRow(t, version)));
      if r.Err? {
        planning.packs, planning.entries, planning.evidence := packs, entries, evidence;
      }
    }

    lemma Attested(t: Attestation, selected: Item)
      requires AttestationOk(t, selected, rules)
      ensures t.url.Some? && t.entry.Some? && t.evidence.Some?
    {
    }

    method Verify(a: VerifyArgs) returns (r: Result<VerifyReply>, ghost version: int)
      requires OneRowPerClaim(planning.evidence) && forall p :: p in planning.packs ==> p.version > 0
      modifies this`verifications, planning`packs, planning`entries, planning`evidence, planning`records
      ensures NextPackVersion(old(planning.packs), a.org, BASE_PACK, version)
      ensures match VerifyCandidate(old(planning.Tables()), old(Tables()), a, rules, version)
              case Err(e) => r == Err(e) && Tables() == old(Tables()) && planning.Tables() == old(planning.Tables())
              case Ok((s, l, reply)) => r == Ok(reply) && Tables() == l && planning.Tables() == s
    {
      hide ApproveCandidate, Conclude, VerifyRefusal, OneRowPerClaim, NextPackVersion;
      var next := NextVersion(a.org, BASE_PACK);
      version := next;
      var prior := Lookup(planning.records, VerifyKey(a), a.request);
      if prior.Mismatch? {
        r := Err(NV008);
        return;
      }
      if prior.Replayed? {
        var id := prior.reply.id;
        r := Ok(VerifyReply(id, if id in verifications then Some(verifications[id]) else None, true));
        return;
      }
      var refusal := VerifyRefusal(planning.Tables(), Tables(), a);
      if refusal.Some? {
        r := Err(refusal.value);
        return;
      }
      match a.verdict
      case Rejected(attested) =>
        if attested {
          r := Err(NV011);
          return;
        }
        r := Record(a, None);
        r := Handled(r);
      case Approved(t) =>
        r := ApproveIt(a, t, next);
        r := Handled(r);
      case NullVerdict(t) =>
        r := ApproveIt(a, t, next);
        r := Handled(r);
      case OtherVerdict =>
        r := Err(NV011);
    }
  }
}
