// What an approved candidate adds to a source pack, and what the candidate ledger keeps.
module PromotionTheorems {
  import opened Sql
  import opened PlanningOutput
  import opened Idempotency
  import opened Planning
  import opened PlanningInvariants
  import opened Promotion

  // ------------------------------------------------------------------ copied evidence

  ghost predicate OneRowPerClaim(evidence: map<Key, Evidence>) {
    forall j, k | j in evidence && k in evidence && evidence[j].pack == evidence[k].pack ::
      evidence[j].claim == evidence[k].claim ==> j == k
  }

  lemma ClaimRowIs(evidence: map<Key, Evidence>, k: Key)
    requires OneRowPerClaim(evidence) && k in evidence
    ensures ClaimRow(evidence, evidence[k].pack, evidence[k].claim) == Some(evidence[k])
  {
    assert ClaimTaken(evidence, evidence[k].pack, evidence[k].claim);
  }

  ghost function CopiedRow(evidence: map<Key, Evidence>, from: PackKey, to: PackKey, claim: string): Evidence
    requires ClaimTaken(evidence, from, claim)
  {
    var row := ClaimRow(evidence, from, claim).value;
    Evidence(to, row.entry, claim, AcceptedSyntheticDemo, row.sha256)
  }

  predicate DistinctCopies(copied: seq<CopyItem>) {
    && (forall i, j :: 0 <= i < j < |copied| ==> copied[i].claim != copied[j].claim)
    && (forall i :: 0 <= i < |copied| ==> copied[i].id.Some? && copied[i].claim != PROGRAM_FIT)
    && forall i, j :: 0 <= i < j < |copied| ==> copied[i].id != copied[j].id
  }

  // The copies of all claims that the baseline has, by evidence id.
  ghost function Copies(evidence: map<Key, Evidence>, from: PackKey, to: PackKey, copied: seq<CopyItem>): map<Key, Evidence>
    decreases |copied|
  {
    if copied == [] then map[]
    else
      var rest := Copies(evidence, from, to, copied[1..]);
      if ClaimTaken(evidence, from, copied[0].claim) && copied[0].id.Some?
      then rest[Key(to.org, copied[0].id.value) := CopiedRow(evidence, from, to, copied[0].claim)] else rest
  }

  // Every row of `from` has an entry in `to` that still covers its claim.
  ghost predicate Covered(s: Store, from: PackKey, to: PackKey) {
    forall k :: k in s.evidence && s.evidence[k].pack == from && s.evidence[k].claim != PROGRAM_FIT ==>
      && IsSha256(s.evidence[k].sha256)
      && Provenance(s.entries, Evidence(to, s.evidence[k].entry, s.evidence[k].claim, AcceptedSyntheticDemo, s.evidence[k].sha256))
  }

  ghost predicate CopyReady(s: Store, from: PackKey, to: PackKey, copied: seq<CopyItem>) {
    && OneRowPerClaim(s.evidence) && Covered(s, from, to) && DistinctCopies(copied) && from != to
    && forall i :: 0 <= i < |copied| ==> !ClaimTaken(s.evidence, to, copied[i].claim)
  }

  // Copying succeeds exactly when the ids are free, and adds exactly the copies.
  lemma {:induction false} CopyExactly(s: Store, from: PackKey, to: PackKey, copied: seq<CopyItem>)
    requires CopyReady(s, from, to, copied)
    ensures CopyEvidence(s, from, to, copied).Ok? <==> Copies(s.evidence, from, to, copied).Keys !! s.evidence.Keys
    ensures CopyEvidence(s, from, to, copied).Ok? ==>
              CopyEvidence(s, from, to, copied).value == s.(evidence := s.evidence + Copies(s.evidence, from, to, copied))
    ensures CopyEvidence(s, from, to, copied).Err? ==> CopyEvidence(s, from, to, copied) == Err(UniqueViolation)
    decreases |copied|
  {
    hide CopyReady, PersistEvidence, DistinctCopies, ClaimTaken, ClaimRow;
    if copied == [] {
      assert s.evidence + map[] == s.evidence;
    } else {
      FirstItem(s, from, to, copied);
      if ClaimTaken(s.evidence, from, copied[0].claim) {
        CopyOne(s, from, to, copied);
        var k, row := Key(to.org, copied[0].id.value), CopiedRow(s.evidence, from, to, copied[0].claim);
        var r := PersistEvidence(s, k, row);
        if r.Ok? {
          CopyExactly(r.value, from, to, copied[1..]);
          CopiesFirst(s.evidence, r.value.evidence, from, to, copied);
        } else {
          assert k in Copies(s.evidence, from, to, copied);
        }
      } else {
        CopyExactly(s, from, to, copied[1..]);
      }
    }
  }

  lemma CopiesFirst(evidence: map<Key, Evidence>, after: map<Key, Evidence>, from: PackKey, to: PackKey, copied: seq<CopyItem>)
    requires DistinctCopies(copied) && copied != [] && ClaimTaken(evidence, from, copied[0].claim) && SameRows(evidence, after, from)
    requires Key(to.org, copied[0].id.value) !in evidence
    requires after == evidence[Key(to.org, copied[0].id.value) := CopiedRow(evidence, from, to, copied[0].claim)]
    ensures evidence + Copies(evidence, from, to, copied) == after + Copies(after, from, to, copied[1..])
    ensures Copies(evidence, from, to, copied).Keys !! evidence.Keys <==> Copies(after, from, to, copied[1..]).Keys !! after.Keys
  {
    hide ClaimTaken, CopiedRow, SameRows;
    CopiesSame(evidence, after, from, to, copied[1..]);
    FreshId(evidence, from, to, copied);
  }

  ghost predicate SameRows(evidence: map<Key, Evidence>, after: map<Key, Evidence>, from: PackKey) {
    forall claim ::
      && ClaimTaken(after, from, claim) == ClaimTaken(evidence, from, claim)
      && ClaimRow(after, from, claim) == ClaimRow(evidence, from, claim)
  }

  lemma {:induction false} CopiesSame(evidence: map<Key, Evidence>, after: map<Key, Evidence>, from: PackKey, to: PackKey, copied: seq<CopyItem>)
    requires SameRows(evidence, after, from)
    ensures Copies(after, from, to, copied) == Copies(evidence, from, to, copied)
    decreases |copied|
  {
    hide ClaimTaken, ClaimRow;
    if copied != [] {
      CopiesSame(evidence, after, from, to, copied[1..]);
    }
  }

  // The first id is not used again.
  lemma FreshId(evidence: map<Key, Evidence>, from: PackKey, to: PackKey, copied: seq<CopyItem>)
    requires DistinctCopies(copied) && copied != []
    ensures Key(to.org, copied[0].id.value) !in Copies(evidence, from, to, copied[1..])
  {
    hide ClaimTaken, ClaimRow;
    CopiesOnly(evidence, from, to, copied[1..]);
  }

  // Every copy comes from one of the items, and every item whose claim is there has its copy.
  lemma {:induction false} CopiesOnly(evidence: map<Key, Evidence>, from: PackKey, to: PackKey, copied: seq<CopyItem>)
    ensures forall k :: k in Copies(evidence, from, to, copied) ==>
              exists i :: 0 <= i < |copied| && copied[i].id == Some(k.id) && k.org == to.org
                          && ClaimTaken(evidence, from, copied[i].claim)
                          && Copies(evidence, from, to, copied)[k] == CopiedRow(evidence, from, to, copied[i].claim)
    decreases |copied|
  {
    hide ClaimTaken, ClaimRow;
    if copied != [] {
      var all, rest := Copies(evidence, from, to, copied), Copies(evidence, from, to, copied[1..]);
      CopiesOnly(evidence, from, to, copied[1..]);
      forall k | k in all
        ensures exists i :: 0 <= i < |copied| && copied[i].id == Some(k.id) && k.org == to.org
                            && ClaimTaken(evidence, from, copied[i].claim) && all[k] == CopiedRow(evidence, from, to, copied[i].claim)
      {
        if k in rest && all[k] == rest[k] {
          var i :| 0 <= i < |copied[1..]| && copied[1..][i].id == Some(k.id)
                   && ClaimTaken(evidence, from, copied[1..][i].claim) && rest[k] == CopiedRow(evidence, from, to, copied[1..][i].claim);
          assert copied[i + 1] == copied[1..][i];
        }
      }
    }
  }

  lemma {:induction false} CopiesHas(evidence: map<Key, Evidence>, from: PackKey, to: PackKey, copied: seq<CopyItem>, i: nat)
    requires DistinctCopies(copied) && i < |copied| && ClaimTaken(evidence, from, copied[i].claim)
    ensures Key(to.org, copied[i].id.value) in Copies(evidence, from, to, copied)
    ensures Copies(evidence, from, to, copied)[Key(to.org, copied[i].id.value)] == CopiedRow(evidence, from, to, copied[i].claim)
    decreases |copied|
  {
    hide ClaimTaken, ClaimRow;
    if i > 0 {
      assert copied[1..][i - 1] == copied[i];
      FreshId(evidence, from, to, copied);
      CopiesHas(evidence, from, to, copied[1..], i - 1);
    }
  }

  lemma FirstItem(s: Store, from: PackKey, to: PackKey, copied: seq<CopyItem>)
    requires CopyReady(s, from, to, copied) && copied != []
    ensures DistinctCopies(copied) && DistinctCopies(copied[1..])
    ensures copied[0].id.Some? && copied[0].claim != PROGRAM_FIT
    ensures !ClaimTaken(s.evidence, from, copied[0].claim) ==> CopyReady(s, from, to, copied[1..])
    ensures ClaimRow(s.evidence, from, copied[0].claim).Some? <==> ClaimTaken(s.evidence, from, copied[0].claim)
  {
    hide ClaimTaken, Covered, OneRowPerClaim;
  }

  lemma CopyOne(s: Store, from: PackKey, to: PackKey, copied: seq<CopyItem>)
    requires CopyReady(s, from, to, copied) && copied != [] && ClaimTaken(s.evidence, from, copied[0].claim)
    ensures copied[0].id.Some?
    ensures var k := Key(to.org, copied[0].id.value);
            var row := CopiedRow(s.evidence, from, to, copied[0].claim);
            var r := PersistEvidence(s, k, row);
            && (r.Ok? <==> k !in s.evidence)
            && (r.Err? ==> r == Err(UniqueViolation))
            && (r.Ok? ==>
                  && r.value == s.(evidence := s.evidence[k := row])
                  && CopyReady(r.value, from, to, copied[1..])
                  && SameRows(s.evidence, r.value.evidence, from))
  {
    hide DistinctCopies, IsSha256, Provenance, ClaimTaken, Covered, OneRowPerClaim;
    FirstItem(s, from, to, copied);
    var k := Key(to.org, copied[0].id.value);
    var row := CopiedRow(s.evidence, from, to, copied[0].claim);
    RowPasses(s, from, to, copied[0].claim);
    if k !in s.evidence {
      StillReady(s, from, to, copied, k, row);
      AllClaimsSame(s.evidence, k, row, from);
    }
  }

  lemma RowPasses(s: Store, from: PackKey, to: PackKey, claim: string)
    requires OneRowPerClaim(s.evidence) && Covered(s, from, to) && ClaimTaken(s.evidence, from, claim) && claim != PROGRAM_FIT
    ensures var row := CopiedRow(s.evidence, from, to, claim);
            row.pack == to && row.claim == claim && IsSha256(row.sha256) && Provenance(s.entries, row)
  {
    hide IsSha256, Provenance;
    var k :| k in s.evidence && s.evidence[k].pack == from && s.evidence[k].claim == claim;
    ClaimRowIs(s.evidence, k);
  }

  lemma StillReady(s: Store, from: PackKey, to: PackKey, copied: seq<CopyItem>, k: Key, row: Evidence)
    requires CopyReady(s, from, to, copied) && copied != [] && k !in s.evidence
    requires row.pack == to && row.claim == copied[0].claim
    ensures CopyReady(s.(evidence := s.evidence[k := row]), from, to, copied[1..])
  {
    hide IsSha256, Provenance;
    assert !ClaimTaken(s.evidence, to, copied[0].claim);
    var after := s.evidence[k := row];
    forall i | 0 <= i < |copied[1..]|
      ensures !ClaimTaken(after, to, copied[1..][i].claim)
    {
      assert !ClaimTaken(s.evidence, to, copied[i + 1].claim);
      assert copied[i + 1].claim != copied[0].claim;
    }
  }

  // A row of another pack does not change what the baseline has.
  lemma SameClaims(evidence: map<Key, Evidence>, k: Key, row: Evidence, from: PackKey, claim: string)
    requires OneRowPerClaim(evidence) && k !in evidence && row.pack != from && !ClaimTaken(evidence, row.pack, row.claim)
    ensures ClaimTaken(evidence[k := row], from, claim) == ClaimTaken(evidence, from, claim)
    ensures ClaimRow(evidence[k := row], from, claim) == ClaimRow(evidence, from, claim)
  {
    var after := evidence[k := row];
    if ClaimTaken(evidence, from, claim) {
      var j :| j in evidence && evidence[j].pack == from && evidence[j].claim == claim;
      assert after[j] == evidence[j];
      ClaimRowIs(evidence, j);
      ClaimRowIs(after, j);
    } else {
      assert forall j :: j in after && after[j].pack == from ==> j in evidence && after[j] == evidence[j];
    }
  }

  lemma AllClaimsSame(evidence: map<Key, Evidence>, k: Key, row: Evidence, from: PackKey)
    requires OneRowPerClaim(evidence) && k !in evidence && row.pack != from && !ClaimTaken(evidence, row.pack, row.claim)
    ensures SameRows(evidence, evidence[k := row], from)
  {
    hide ClaimTaken, ClaimRow, OneRowPerClaim;
    forall claim: string
      ensures ClaimTaken(evidence[k := row], from, claim) == ClaimTaken(evidence, from, claim)
      ensures ClaimRow(evidence[k := row], from, claim) == ClaimRow(evidence, from, claim)
    {
      SameClaims(evidence, k, row, from, claim);
    }
  }

  // ------------------------------------------------------------------ the new pack version

  lemma {:induction false} WithoutExactly(coverage: seq<string>, claim: string)
    ensures forall c :: c in Without(coverage, claim) <==> c in coverage && c != claim
    decreases |coverage|
  {
    if coverage != [] {
      WithoutExactly(coverage[1..], claim);
      assert forall c :: c in coverage <==> c == coverage[0] || c in coverage[1..];
    }
  }

  predicate IsAttested(t: Attestation) {
    t.url.Some? && t.entry.Some? && t.evidence.Some? && EntryValid(ExternalEntry(t)) && CopiedOk(t.copied)
  }

  // The tables before the evidence is copied.
  function Prepared(s: Store, org: nat, version: int, manifest: string): Store {
    var from, to := Base(org), PackKey(org, BASE_PACK, version);
    s.(packs := s.packs[to := Pack(manifest)], entries := s.entries + CopiedEntries(s.entries, from, to))
  }

  lemma CopiedEntriesAt(entries: map<EntryKey, Entry>, from: PackKey, to: PackKey, id: nat)
    ensures EntryKey(to, id) in CopiedEntries(entries, from, to) <==> EntryKey(from, id) in entries
    ensures EntryKey(from, id) in entries ==> CopiedEntries(entries, from, to)[EntryKey(to, id)] == CopyOf(entries[EntryKey(from, id)])
    ensures forall k :: k in CopiedEntries(entries, from, to) ==> k.pack == to
  {
    hide CopyOf;
    if EntryKey(from, id) in entries {
      assert EntryKey(to, EntryKey(from, id).id) in CopiedEntries(entries, from, to);
    }
  }

  // The baseline's evidence finds its entries again in the new version.
  lemma PreparedReady(s: Store, org: nat, version: int, manifest: string, copied: seq<CopyItem>)
    requires EvidenceOk(s) && CopiedOk(copied) && Base(org) in s.packs && NextPackVersion(s.packs, org, BASE_PACK, version)
    ensures CopyReady(Prepared(s, org, version, manifest), Base(org), PackKey(org, BASE_PACK, version), copied)
    ensures PackKey(org, BASE_PACK, version) !in s.packs && BASE_VERSION < version
  {
    hide IsSha256, CopyOf, CopiedEntries, Provenance;
    var from, to := Base(org), PackKey(org, BASE_PACK, version);
    assert to !in s.packs && BASE_VERSION < version;
    PreparedCovers(s, org, version, manifest);
    forall i | 0 <= i < |copied|
      ensures !ClaimTaken(s.evidence, to, copied[i].claim) && copied[i].claim != PROGRAM_FIT
    {
      NoEvidenceYet(s, to, copied[i].claim);
    }
  }

  lemma NoEvidenceYet(s: Store, to: PackKey, claim: string)
    requires EvidenceOk(s) && to !in s.packs
    ensures !ClaimTaken(s.evidence, to, claim)
    ensures forall k :: k in s.evidence ==> s.evidence[k].pack != to
    ensures forall k :: k in s.entries ==> k.pack != to
  {
    hide IsSha256;
  }

  lemma PreparedCovers(s: Store, org: nat, version: int, manifest: string)
    requires EvidenceOk(s)
    ensures Covered(Prepared(s, org, version, manifest), Base(org), PackKey(org, BASE_PACK, version))
  {
    hide IsSha256, CopiedEntries, Provenance, Prepared;
    var from, to := Base(org), PackKey(org, BASE_PACK, version);
    assert Prepared(s, org, version, manifest).evidence == s.evidence by { PreparedEvidence(s, org, version, manifest); }
    forall k | k in s.evidence && s.evidence[k].pack == from && s.evidence[k].claim != PROGRAM_FIT
      ensures IsSha256(s.evidence[k].sha256)
      ensures Provenance(Prepared(s, org, version, manifest).entries,
                         Evidence(to, s.evidence[k].entry, s.evidence[k].claim, AcceptedSyntheticDemo, s.evidence[k].sha256))
    {
      CopyCovers(s, org, version, manifest, s.evidence[k]);
    }
  }

  lemma PreparedEvidence(s: Store, org: nat, version: int, manifest: string)
    ensures Prepared(s, org, version, manifest).evidence == s.evidence
  {
  }

  lemma CopyCovers(s: Store, org: nat, version: int, manifest: string, e: Evidence)
    requires Provenance(s.entries, e) && e.pack == Base(org) && e.claim != PROGRAM_FIT
    ensures Provenance(Prepared(s, org, version, manifest).entries,
                       Evidence(PackKey(org, BASE_PACK, version), e.entry, e.claim, AcceptedSyntheticDemo, e.sha256))
  {
    hide CopiedEntries, Without;
    CopiedEntriesAt(s.entries, Base(org), PackKey(org, BASE_PACK, version), e.entry);
    WithoutExactly(s.entries[EntryKey(Base(org), e.entry)].coverage, PROGRAM_FIT);
  }

  // The tables after a promotion.
  ghost function AfterPromotion(s: Store, org: nat, t: Attestation, version: int, manifest: string): Store
    requires IsAttested(t)
  {
    var from, to := Base(org), PackKey(org, BASE_PACK, version);
    s.(packs := s.packs[to := Pack(manifest)],
       entries := (s.entries + CopiedEntries(s.entries, from, to))[EntryKey(to, t.entry.value) := ExternalEntry(t)],
       evidence := (s.evidence + Copies(s.evidence, from, to, t.copied))
         [Key(org, t.evidence.value) := Evidence(to, t.entry.value, PROGRAM_FIT, ExternallyVerified, t.sha256)])
  }

  // The ids that a caller has to choose fresh.
  ghost predicate FreshIds(s: Store, org: nat, t: Attestation, version: int)
    requires t.entry.Some? && t.evidence.Some?
  {
    var copies := Copies(s.evidence, Base(org), PackKey(org, BASE_PACK, version), t.copied);
    && copies.Keys !! s.evidence.Keys
    && EntryKey(Base(org), t.entry.value) !in s.entries
    && Key(org, t.evidence.value) !in s.evidence && Key(org, t.evidence.value) !in copies
  }

  // The provenance trigger never refuses a promotion: only the caller's ids can.
  lemma PromoteExactly(s: Store, org: nat, t: Attestation, version: int, manifest: string)
    requires EvidenceOk(s) && IsAttested(t) && Base(org) in s.packs && NextPackVersion(s.packs, org, BASE_PACK, version)
    ensures Promote(s, org, t, version, manifest).Ok? <==> FreshIds(s, org, t, version)
    ensures Promote(s, org, t, version, manifest) == if FreshIds(s, org, t, version)
            then Ok(AfterPromotion(s, org, t, version, manifest)) else Err(UniqueViolation)
  {
    hide CopyReady, CopyEvidence, Copies, CopiedEntries, IsSha256, CopiedOk, NextPackVersion, EvidenceOk, PersistEvidence, EntryValid;
    var from, to := Base(org), PackKey(org, BASE_PACK, version);
    var prepared := Prepared(s, org, version, manifest);
    PreparedReady(s, org, version, manifest, t.copied);
    CopyExactly(prepared, from, to, t.copied);
    CopiedEntriesAt(s.entries, from, to, t.entry.value);
    NoEvidenceYet(s, to, PROGRAM_FIT);
    if CopyEvidence(prepared, from, to, t.copied).Ok? && EntryKey(from, t.entry.value) !in s.entries {
      var copied := CopyEvidence(prepared, from, to, t.copied).value;
      CopiesLeaveFit(s.evidence, from, to, t.copied);
      ExternalPasses(copied, org, t, version);
    }
  }

  lemma CopiesLeaveFit(evidence: map<Key, Evidence>, from: PackKey, to: PackKey, copied: seq<CopyItem>)
    requires CopiedOk(copied) && !ClaimTaken(evidence, to, PROGRAM_FIT)
    ensures !ClaimTaken(evidence + Copies(evidence, from, to, copied), to, PROGRAM_FIT)
  {
    hide Copies, ClaimRow;
    CopiesOnly(evidence, from, to, copied);
    var copies := Copies(evidence, from, to, copied);
    forall k | k in copies
      ensures copies[k].claim != PROGRAM_FIT
    {
      var i :| 0 <= i < |copied| && ClaimTaken(evidence, from, copied[i].claim) && copies[k] == CopiedRow(evidence, from, to, copied[i].claim);
    }
  }

  lemma ExternalPasses(copied: Store, org: nat, t: Attestation, version: int)
    requires IsAttested(t) && !ClaimTaken(copied.evidence, PackKey(org, BASE_PACK, version), PROGRAM_FIT)
    ensures var to := PackKey(org, BASE_PACK, version);
            var s := copied.(entries := copied.entries[EntryKey(to, t.entry.value) := ExternalEntry(t)]);
            var row := Evidence(to, t.entry.value, PROGRAM_FIT, ExternallyVerified, t.sha256);
            PersistEvidence(s, Key(org, t.evidence.value), row)
            == if Key(org, t.evidence.value) in copied.evidence then Err(UniqueViolation)
               else Ok(s.(evidence := s.evidence[Key(org, t.evidence.value) := row]))
  {
    hide IsSha256, ClaimTaken, CopiedOk;
  }

  // ------------------------------------------------------------------ what the promotion preserves

  // The new version in the tables `t`, in terms of the baseline in the tables `s`: every row passes
  // the provenance trigger; the copied claims are exactly those of the five that the baseline has,
  // on the same entry with the same hash; the only program-fit row is the external one; everything
  // older is as it was.
  ghost predicate NewVersion(s: Store, t: Store, org: nat, version: int, evidence: nat) {
    var to, external := PackKey(org, BASE_PACK, version), Key(org, evidence);
    && to in t.packs && external in t.evidence && t.evidence[external].pack == to && t.evidence[external].claim == PROGRAM_FIT
    && (forall k :: k in t.evidence && t.evidence[k].pack == to ==> Provenance(t.entries, t.evidence[k]))
    && (forall claim :: claim in COPIED_CLAIMS ==> (ClaimTaken(t.evidence, to, claim) <==> ClaimTaken(s.evidence, Base(org), claim)))
    && (forall k :: k in t.evidence && t.evidence[k].pack == to ==>
          if t.evidence[k].claim == PROGRAM_FIT
          then k == external && t.evidence[k].authority == ExternallyVerified
          else t.evidence[k].claim in COPIED_CLAIMS && SameSource(s.evidence, Base(org), t.evidence[k]))
    && (forall p :: p in s.packs && p.org == org && p.id == BASE_PACK ==> p.version < version)
    && (forall k :: k in s.evidence ==> k in t.evidence && t.evidence[k] == s.evidence[k])
    && (forall k :: k in s.entries ==> k in t.entries && t.entries[k] == s.entries[k])
  }

  lemma PromotionPreservesPack(s: Store, org: nat, t: Attestation, version: int, manifest: string)
    requires EvidenceOk(s) && IsAttested(t) && Base(org) in s.packs && NextPackVersion(s.packs, org, BASE_PACK, version)
    requires FreshIds(s, org, t, version)
    ensures NewVersion(s, AfterPromotion(s, org, t, version, manifest), org, version, t.evidence.value)
  {
    hide IsSha256, NextPackVersion, IsAttested, FreshIds, Copies, CopiedEntries, Provenance, ClaimTaken, ClaimRow, SameSource, ExternalEntry;
    PromotedRows(s, org, t, version, manifest);
    PromotedOldRows(s, org, t, version, manifest);
    PromotedProvenance(s, org, t, version, manifest);
    PromotedClaims(s, org, t, version, manifest);
    assert forall p :: p in s.packs && p.org == org && p.id == BASE_PACK ==> p.version < version by { VersionsBelow(s.packs, org, version); }
  }

  lemma VersionsBelow(packs: map<PackKey, Pack>, org: nat, version: int)
    requires NextPackVersion(packs, org, BASE_PACK, version)
    ensures forall p :: p in packs && p.org == org && p.id == BASE_PACK ==> p.version < version
  {
  }

  // The baseline's row of the same claim has this entry and this hash.
  ghost predicate SameSource(evidence: map<Key, Evidence>, from: PackKey, e: Evidence) {
    exists k :: k in evidence && evidence[k].pack == from && evidence[k].claim == e.claim
                && evidence[k].entry == e.entry && evidence[k].sha256 == e.sha256
  }

  lemma CopiedSource(evidence: map<Key, Evidence>, from: PackKey, to: PackKey, claim: string)
    requires OneRowPerClaim(evidence) && ClaimTaken(evidence, from, claim)
    ensures SameSource(evidence, from, CopiedRow(evidence, from, to, claim))
  {
    var k :| k in evidence && evidence[k].pack == from && evidence[k].claim == claim;
    ClaimRowIs(evidence, k);
  }

  // Every row of the new version is the external one or a copy.
  lemma PromotedRows(s: Store, org: nat, t: Attestation, version: int, manifest: string)
    requires EvidenceOk(s) && IsAttested(t) && NextPackVersion(s.packs, org, BASE_PACK, version)
    ensures var after, to := AfterPromotion(s, org, t, version, manifest), PackKey(org, BASE_PACK, version);
            forall k :: k in after.evidence && after.evidence[k].pack == to ==>
              if after.evidence[k].claim == PROGRAM_FIT
              then k == Key(org, t.evidence.value) && after.evidence[k].authority == ExternallyVerified
              else after.evidence[k].claim in COPIED_CLAIMS && SameSource(s.evidence, Base(org), after.evidence[k])
  {
    hide IsSha256, EntryValid, Copies, CopiedEntries, Provenance, ClaimRow, ExternalEntry;
    var from, to := Base(org), PackKey(org, BASE_PACK, version);
    var after := AfterPromotion(s, org, t, version, manifest);
    var copies := Copies(s.evidence, from, to, t.copied);
    NoEvidenceYet(s, to, PROGRAM_FIT);
    forall k | k in copies
      ensures copies[k].claim in COPIED_CLAIMS && SameSource(s.evidence, from, copies[k])
    {
      CopyNamed(s.evidence, from, to, t.copied, k);
    }
  }

  lemma CopyNamed(evidence: map<Key, Evidence>, from: PackKey, to: PackKey, copied: seq<CopyItem>, k: Key)
    requires OneRowPerClaim(evidence) && CopiedOk(copied) && k in Copies(evidence, from, to, copied)
    ensures Copies(evidence, from, to, copied)[k].claim in COPIED_CLAIMS
    ensures SameSource(evidence, from, Copies(evidence, from, to, copied)[k])
  {
    hide Copies, ClaimRow, ClaimTaken, OneRowPerClaim, SameSource;
    var copies := Copies(evidence, from, to, copied);
    CopiesOnly(evidence, from, to, copied);
    var i :| 0 <= i < |copied| && ClaimTaken(evidence, from, copied[i].claim) && copies[k] == CopiedRow(evidence, from, to, copied[i].claim);
    CopiedSource(evidence, from, to, copied[i].claim);
  }

  lemma PromotedOldRows(s: Store, org: nat, t: Attestation, version: int, manifest: string)
    requires EvidenceOk(s) && IsAttested(t) && FreshIds(s, org, t, version) && NextPackVersion(s.packs, org, BASE_PACK, version)
    ensures var after := AfterPromotion(s, org, t, version, manifest);
            && (forall k :: k in s.evidence ==> k in after.evidence && after.evidence[k] == s.evidence[k])
            && (forall k :: k in s.entries ==> k in after.entries && after.entries[k] == s.entries[k])
  {
    hide IsSha256, EntryValid, Copies, CopiedEntries, ExternalEntry, CopiedOk;
    var from, to := Base(org), PackKey(org, BASE_PACK, version);
    NoEvidenceYet(s, to, PROGRAM_FIT);
    CopiedEntriesAt(s.entries, from, to, t.entry.value);
  }

  lemma MoreEntries(entries: map<EntryKey, Entry>, more: map<EntryKey, Entry>, e: Evidence)
    requires Provenance(entries, e) && forall k :: k in entries ==> k in more && more[k] == entries[k]
    ensures Provenance(more, e)
  {
  }

  lemma ExternalProvenance(s: Store, org: nat, t: Attestation, version: int, manifest: string)
    requires IsAttested(t)
    ensures Provenance(AfterPromotion(s, org, t, version, manifest).entries,
                       Evidence(PackKey(org, BASE_PACK, version), t.entry.value, PROGRAM_FIT, ExternallyVerified, t.sha256))
    ensures IsSha256(t.sha256)
  {
    hide IsSha256, Copies, CopiedEntries, CopiedOk;
  }

  lemma PromotedProvenance(s: Store, org: nat, t: Attestation, version: int, manifest: string)
    requires EvidenceOk(s) && IsAttested(t) && FreshIds(s, org, t, version) && Base(org) in s.packs && NextPackVersion(s.packs, org, BASE_PACK, version)
    ensures var after := AfterPromotion(s, org, t, version, manifest);
            forall k :: k in after.evidence ==> Provenance(after.entries, after.evidence[k]) && IsSha256(after.evidence[k].sha256)
  {
    hide IsSha256, Copies, CopiedEntries, CopiedOk, NextPackVersion, FreshIds, Provenance;
    var from, to := Base(org), PackKey(org, BASE_PACK, version);
    var after, prepared := AfterPromotion(s, org, t, version, manifest), Prepared(s, org, version, manifest);
    PromotedOldRows(s, org, t, version, manifest);
    NewEntryKey(s, org, t, version);
    ExternalProvenance(s, org, t, version, manifest);
    CopiesOnly(s.evidence, from, to, t.copied);
    var copies := Copies(s.evidence, from, to, t.copied);
    forall k | k in after.evidence
      ensures Provenance(after.entries, after.evidence[k]) && IsSha256(after.evidence[k].sha256)
    {
      if k != Key(org, t.evidence.value) {
        if k in copies {
          CopyPasses(s, org, t.copied, version, manifest, k);
          MoreEntries(prepared.entries, after.entries, copies[k]);
        } else {
          MoreEntries(s.entries, after.entries, s.evidence[k]);
        }
      }
    }
  }

  lemma NewEntryKey(s: Store, org: nat, t: Attestation, version: int)
    requires EvidenceOk(s) && IsAttested(t) && FreshIds(s, org, t, version) && NextPackVersion(s.packs, org, BASE_PACK, version)
    ensures EntryKey(PackKey(org, BASE_PACK, version), t.entry.value) !in s.entries
    ensures EntryKey(PackKey(org, BASE_PACK, version), t.entry.value) !in CopiedEntries(s.entries, Base(org), PackKey(org, BASE_PACK, version))
  {
    hide IsSha256, Copies, CopiedEntries, CopiedOk;
    NoEvidenceYet(s, PackKey(org, BASE_PACK, version), PROGRAM_FIT);
    CopiedEntriesAt(s.entries, Base(org), PackKey(org, BASE_PACK, version), t.entry.value);
  }

  lemma CopyPasses(s: Store, org: nat, copied: seq<CopyItem>, version: int, manifest: string, k: Key)
    requires EvidenceOk(s) && CopiedOk(copied) && k in Copies(s.evidence, Base(org), PackKey(org, BASE_PACK, version), copied)
    ensures var e := Copies(s.evidence, Base(org), PackKey(org, BASE_PACK, version), copied)[k];
            IsSha256(e.sha256) && Provenance(Prepared(s, org, version, manifest).entries, e)
  {
    hide IsSha256, Copies, CopiedEntries, Provenance, ClaimRow;
    var from, to := Base(org), PackKey(org, BASE_PACK, version);
    var copies := Copies(s.evidence, from, to, copied);
    PreparedCovers(s, org, version, manifest);
    CopiesOnly(s.evidence, from, to, copied);
    var i :| 0 <= i < |copied| && ClaimTaken(s.evidence, from, copied[i].claim) && copies[k] == CopiedRow(s.evidence, from, to, copied[i].claim);
    CopiedDistinct(copied);
    RowPasses(Prepared(s, org, version, manifest), from, to, copied[i].claim);
  }

  lemma PromotedClaims(s: Store, org: nat, t: Attestation, version: int, manifest: string)
    requires EvidenceOk(s) && IsAttested(t) && FreshIds(s, org, t, version) && NextPackVersion(s.packs, org, BASE_PACK, version)
    ensures var after, to := AfterPromotion(s, org, t, version, manifest), PackKey(org, BASE_PACK, version);
            forall claim :: claim in COPIED_CLAIMS ==> (ClaimTaken(after.evidence, to, claim) <==> ClaimTaken(s.evidence, Base(org), claim))
  {
    hide IsSha256, EntryValid, Copies, CopiedEntries, Provenance, ClaimRow, ExternalEntry, CopiedOk, NextPackVersion, EvidenceOk;
    var from, to := Base(org), PackKey(org, BASE_PACK, version);
    var after := AfterPromotion(s, org, t, version, manifest);
    PromotedRows(s, org, t, version, manifest);
    CopiedDistinct(t.copied);
    forall claim | claim in COPIED_CLAIMS
      ensures ClaimTaken(after.evidence, to, claim) <==> ClaimTaken(s.evidence, from, claim)
    {
      if ClaimTaken(s.evidence, from, claim) {
        CopiedPlace(t.copied, claim);
        var i :| 0 <= i < |t.copied| && t.copied[i].claim == claim;
        CopiesHas(s.evidence, from, to, t.copied, i);
        assert after.evidence[Key(org, t.copied[i].id.value)] == CopiedRow(s.evidence, from, to, claim);
      }
      if ClaimTaken(after.evidence, to, claim) {
        var k :| k in after.evidence && after.evidence[k].pack == to && after.evidence[k].claim == claim;
        assert SameSource(s.evidence, from, after.evidence[k]);
      }
    }
  }

  // Five distinct claims out of five are all five.
  lemma CopiedPlace(copied: seq<CopyItem>, claim: string)
    requires CopiedOk(copied) && claim in COPIED_CLAIMS
    ensures exists i :: 0 <= i < |copied| && copied[i].claim == claim
  {
    FiveClaims();
    ClaimCount(copied);
    SameSize(ClaimsNamed(copied), COPIED_CLAIMS);
  }

  lemma CopiedDistinct(copied: seq<CopyItem>)
    requires CopiedOk(copied)
    ensures DistinctCopies(copied)
  {
  }

  function ClaimsNamed(copied: seq<CopyItem>): set<string> {
    set i | 0 <= i < |copied| :: copied[i].claim
  }

  lemma {:induction false} ClaimCount(copied: seq<CopyItem>)
    requires forall i, j :: 0 <= i < j < |copied| ==> copied[i].claim != copied[j].claim
    ensures |ClaimsNamed(copied)| == |copied|
    decreases |copied|
  {
    if copied == [] {
      assert ClaimsNamed(copied) == {};
    } else {
      var init, last := copied[..|copied| - 1], copied[|copied| - 1];
      ClaimCount(init);
      forall c
        ensures c in ClaimsNamed(copied) <==> c in ClaimsNamed(init) || c == last.claim
      {
        if c in ClaimsNamed(init) {
          var i :| 0 <= i < |init| && init[i].claim == c;
          assert copied[i].claim == c;
        }
      }
      assert ClaimsNamed(copied) == ClaimsNamed(init) + {last.claim};
      assert last.claim !in ClaimsNamed(init);
    }
  }

  lemma SameSize(part: set<string>, all: set<string>)
    requires part <= all && |part| == |all|
    ensures part == all
  {
    assert |all - part| == |all| - |all * part|;
    assert all * part == part;
    assert all == part + (all - part);
  }

  lemma FiveClaims()
    ensures |COPIED_CLAIMS| == 5
  {
    var tuition, living, fx, japan, ranking :=
      "australia_tuition", "australia_living_cost", "australia_fx", "japan_program_fit", "australia_ranking";
    assert tuition[0] != japan[0] && ranking[0] != japan[0] && tuition[10] != ranking[10];
    assert |tuition| == |japan| == |ranking| == 17 && |living| == 21 && |fx| == 12;
    assert COPIED_CLAIMS == {tuition, living, fx, japan, ranking};
    Five(tuition, living, fx, japan, ranking);
  }

  lemma Five(a: string, b: string, c: string, d: string, e: string)
    requires a != b && a != c && a != d && a != e && b != c && b != d && b != e && c != d && c != e && d != e
    ensures |{a, b, c, d, e}| == 5
  {
    assert {a, b, c, d, e} == {a, b} + {c} + {d} + {e};
  }
}
