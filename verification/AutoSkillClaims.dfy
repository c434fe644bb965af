/**
 * When a purge reaches the claim it was asked for. A claim identifier digests the source and what
 * was claimed, so forgetting the same source twice with nothing to claim repeats the identifier.
 */
module AutoSkillClaims {
  import opened Common
  import opened AutoSkillModel
  import opened AutoSkillEvidence

  ghost predicate IsScrubbed(r: Revision) {
    r.sessions.0.Scrubbed? && r.sessions.1.Scrubbed? && r.project.Scrubbed?
  }

  /** Nothing of a tombstoned claim is left: no record, and no source on its revisions. */
  ghost predicate Erased(s: State) {
    forall c :: c in s.claims ==> ClaimOk(c) && (c.phase == ClaimTombstoned ==> ErasedFor(c, s.evidence, s.revisions))
  }

  ghost predicate ClaimOk(c: Claim) {
    c.id == ClaimId(c.kind, c.source, c.evidence, c.revisions)
  }

  ghost predicate KnownRecord(s: State, e: EvidenceRecord) {
    exists f :: f in s.evidence && f.value == e.value
  }

  /** Except by a purge, revisions keep everything but their phase, and a new one has a new hash. */
  ghost predicate RevisionsGrow(revisions: seq<Revision>, revisions': seq<Revision>) {
    && |revisions| <= |revisions'|
    && (forall i :: 0 <= i < |revisions| ==> revisions'[i] == revisions[i].(phase := revisions'[i].phase))
    && (forall i :: |revisions| <= i < |revisions'| ==> !HasRevision(revisions, revisions'[i].hash))
  }

  lemma OperationsGrow(s: State, op: Op)
    requires !op.OpPurgeFinish?
    ensures RevisionsGrow(s.revisions, Apply(s, op).revisions)
  {
    hide PointerFor, PutPointer, PutJob, StageRefused, Independent, AffectedHashes, AffectedJobs, ForgottenEvidence,
      DropHashes;
    if op.OpFail? {
      FailureMoves(s, op.hash);
    }
  }

  lemma RecordsKnown(s: State, op: Op)
    requires !op.OpPurgeFinish?
    ensures forall e :: e in Apply(s, op).evidence ==> KnownRecord(s, e) || forall c :: c in s.claims ==>
      e.value.id !in c.evidence
  {
    hide PointerFor, PutPointer, PutJob, Independent, AffectedHashes, AffectedJobs, ForgottenEvidence, DropHashes;
    var t := Apply(s, op);
    forall e | e in t.evidence ensures KnownRecord(s, e) || forall c :: c in s.claims ==> e.value.id !in c.evidence {
      var i :| 0 <= i < |t.evidence| && t.evidence[i] == e;
      if i < |s.evidence| {
        assert s.evidence[i] in s.evidence && t.evidence[i].value == s.evidence[i].value;
      }
    }
  }

  ghost predicate ErasedFor(c: Claim, evidence: seq<EvidenceRecord>, revisions: seq<Revision>) {
    && (forall e :: e in evidence ==> e.value.id !in c.evidence)
    && (forall i :: 0 <= i < |revisions| && revisions[i].hash in c.revisions ==> IsScrubbed(revisions[i]))
  }

  lemma ErasedStays(s: State, t: State, c: Claim)
    requires c in s.claims && ErasedFor(c, s.evidence, s.revisions) && RevisionsGrow(s.revisions, t.revisions)
    requires forall h :: h in c.revisions ==> HasRevision(s.revisions, h)
    requires forall e :: e in t.evidence ==> KnownRecord(s, e) || forall d :: d in s.claims ==>
      e.value.id !in d.evidence
    ensures ErasedFor(c, t.evidence, t.revisions)
  {}

  lemma ApplyErases(s: State, op: Op)
    requires Inv(s) && Erased(s)
    ensures Erased(Apply(s, op))
  {
    var t := Apply(s, op);
    if op.OpPurgeFinish? {
      PurgeErases(s, op.claim);
    } else {
      OperationsGrow(s, op);
      RecordsKnown(s, op);
      hide EvidenceOk, JobsOk, ReferencesOk;
      forall c | c in t.claims
        ensures ClaimOk(c) && (c.phase == ClaimTombstoned ==> ErasedFor(c, t.evidence, t.revisions)) {
        ClaimsComeFrom(s, op, c);
        if c.phase == ClaimTombstoned {
          ErasedStays(s, t, c);
        }
      }
    }
  }

  lemma ClaimsComeFrom(s: State, op: Op, c: Claim)
    requires Erased(s) && !op.OpPurgeFinish? && c in Apply(s, op).claims
    ensures ClaimOk(c) && (c.phase == ClaimTombstoned ==> c in s.claims)
  {
    hide ErasedFor;
    var i :| 0 <= i < |Apply(s, op).claims| && Apply(s, op).claims[i] == c;
    if i < |s.claims| {
      assert s.claims[i] in s.claims && ClaimOk(s.claims[i]);
    }
  }

  lemma PurgeErases(s: State, id: ClaimId)
    requires Inv(s) && Erased(s)
    ensures Erased(PurgeFinish(s, id))
  {
    if PurgeReady(s, id) {
      hide JobsOk, RevisionsOk, ReferencesOk, ErasedFor;
      var t := PurgeFinish(s, id);
      var claim := ClaimById(s.claims, id).value;
      FirstClaim(s.claims, id, ClaimTombstoned);
      forall c | c in t.claims
        ensures ClaimOk(c) && (c.phase == ClaimTombstoned ==> ErasedFor(c, t.evidence, t.revisions)) {
        var i :| 0 <= i < |t.claims| && t.claims[i] == c;
        assert s.claims[i] in s.claims && ClaimOk(s.claims[i]);
        if c.phase == ClaimTombstoned {
          PurgeErasesOne(s, claim, s.claims[i]);
          SameListsErased(s.claims[i], c, t.evidence, t.revisions);
        }
      }
    }
  }

  lemma SameListsErased(c: Claim, d: Claim, evidence: seq<EvidenceRecord>, revisions: seq<Revision>)
    requires ErasedFor(c, evidence, revisions) && c.evidence == d.evidence && c.revisions == d.revisions
    ensures ErasedFor(d, evidence, revisions)
  {}

  lemma PurgeErasesOne(s: State, claim: Claim, c: Claim)
    requires EvidenceOk(s.evidence, s.claims) && c in s.claims && (c == claim || ErasedFor(c, s.evidence, s.revisions))
    ensures ErasedFor(c, Filter(s.evidence, (e: EvidenceRecord) => e.status != EvidenceClaimed),
                      UpdateIf(s.revisions, (r: Revision) => r.hash in claim.revisions, Tombstone))
  {}

  /** Only the first claim with the identifier changes. */
  lemma {:induction false} FirstClaim(claims: seq<Claim>, id: ClaimId, phase: ClaimPhase)
    requires ClaimById(claims, id).Some?
    ensures var r := SetClaimPhase(claims, id, phase);
      forall i :: 0 <= i < |claims| && r[i] != claims[i] ==> claims[i] == ClaimById(claims, id).value
  {
    if claims[0].id != id {
      FirstClaim(claims[1..], id, phase);
    }
  }

  lemma {:induction false} RunErases(s: State, ops: seq<Op>)
    requires Inv(s) && Erased(s)
    ensures Inv(Run(s, ops)) && Erased(Run(s, ops))
    decreases |ops|
  {
    if ops != [] {
      ApplyKeeps(s, ops[0]);
      ApplyErases(s, ops[0]);
      hide Inv, Erased, Apply;
      RunErases(Apply(s, ops[0]), ops[1..]);
    }
  }

  /** What a tombstoned claim covered is gone in every reachable state, and stays gone. */
  lemma PurgedStaysErased(ops: seq<Op>, c: Claim)
    requires c in Run(EMPTY, ops).claims && c.phase == ClaimTombstoned
    ensures forall e :: e in Run(EMPTY, ops).evidence ==> e.value.id !in c.evidence
    ensures forall r :: r in Run(EMPTY, ops).revisions && r.hash in c.revisions ==> IsScrubbed(r)
  {
    RunErases(EMPTY, ops);
  }

  // ---- repeated identifiers ------------------------------------------------------------------

  ghost predicate EmptyTwin(claims: seq<Claim>, kind: SourceKind, source: Name) {
    exists c :: c in claims && c.kind == kind && c.source == source && c.evidence == {} && c.revisions == {}
  }

  /** Everything a new claim lists is still there, so a tombstoned claim lists none of it. */
  lemma ListedIsPresent(s: State, kind: SourceKind, source: Name, c: Claim)
    requires Inv(s) && Erased(s) && c in s.claims && c.phase == ClaimTombstoned
    ensures ForgottenEvidence(s, kind, source) !! c.evidence
    ensures AffectedHashes(s, kind, source) !! c.revisions
  {
    assert ErasedFor(c, s.evidence, s.revisions);
    forall j | j in DependentJobs(s, kind, source) ensures j.first !in c.evidence && j.second !in c.evidence {
      assert Backed(s.evidence, j);
      var a, b :| Backs(s.evidence, j, a, b);
    }
    forall r | r in s.revisions && r.hash in c.revisions
      ensures !Affected(DependentJobs(s, kind, source), kind, source, r)
    {
      var i :| 0 <= i < |s.revisions| && s.revisions[i] == r;
      assert IsScrubbed(s.revisions[i]);
    }
  }

  lemma {:induction false} FirstById(claims: seq<Claim>, c: Claim)
    ensures ClaimById(claims + [c], c.id) == if ClaimById(claims, c.id).Some? then ClaimById(claims, c.id) else Some(c)
    ensures ClaimById(claims, c.id).Some? <==> exists d :: d in claims && d.id == c.id
  {
    if claims == [] {
      assert claims + [c] == [c];
    } else {
      assert (claims + [c])[1..] == claims[1..] + [c];
      FirstById(claims[1..], c);
    }
  }

  /**
   * Forgetting a source adds a claim, and purging its identifier reaches that claim exactly unless
   * an earlier forget of the same source claimed nothing and this one claims nothing either.
   */
  lemma PurgeReachesClaim(ops: seq<Op>, kind: SourceKind, source: Name)
    requires !PendingClaim(Run(EMPTY, ops), kind, source)
    ensures var s := Run(EMPTY, ops);
      var c := NewClaim(s, kind, source);
      var found := ClaimById(ClaimBySource(s, kind, source).claims, c.id);
      && (found == Some(c) <==> !(c.evidence == {} && c.revisions == {} && EmptyTwin(s.claims, kind, source)))
      && found.Some? && (found != Some(c) ==> found.value.phase == ClaimTombstoned)
  {
    var s := Run(EMPTY, ops);
    RunErases(EMPTY, ops);
    hide Run, Inv;
    var c := NewClaim(s, kind, source);
    FirstById(s.claims, c);
    if d :| d in s.claims && d.id == c.id {
      assert ClaimOk(d);
      assert d.kind == kind && d.source == source && d.phase == ClaimTombstoned;
      ListedIsPresent(s, kind, source, d);
      assert c.evidence == d.evidence == c.evidence * d.evidence && c.revisions == c.revisions * d.revisions;
    }
    if EmptyTwin(s.claims, kind, source) && c.evidence == {} && c.revisions == {} {
      var d :| d in s.claims && d.kind == kind && d.source == source && d.evidence == {} && d.revisions == {};
      assert ClaimOk(d) && d.id == c.id;
    }
  }

  /** An earlier claim has the same identifier. */
  ghost predicate Shadowed(claims: seq<Claim>, k: nat) {
    k < |claims| && exists i :: 0 <= i < k && claims[i].id == claims[k].id
  }

  lemma {:induction false} SetsAtMostFirst(claims: seq<Claim>, id: ClaimId, phase: ClaimPhase, i: nat, k: nat)
    requires i < k < |claims| && claims[i].id == claims[k].id
    ensures SetClaimPhase(claims, id, phase)[k] == claims[k]
  {
    if claims[0].id != id {
      if i == 0 {
        NeverSets(claims[1..], id, phase, k - 1);
      } else {
        SetsAtMostFirst(claims[1..], id, phase, i - 1, k - 1);
      }
    }
  }

  lemma {:induction false} NeverSets(claims: seq<Claim>, id: ClaimId, phase: ClaimPhase, k: nat)
    requires k < |claims| && claims[k].id != id
    ensures SetClaimPhase(claims, id, phase)[k] == claims[k]
  {
    if k > 0 && claims[0].id != id {
      NeverSets(claims[1..], id, phase, k - 1);
    }
  }

  lemma ShadowedStays(s: State, op: Op, k: nat)
    requires Shadowed(s.claims, k)
    ensures Shadowed(Apply(s, op).claims, k) && Apply(s, op).claims[k] == s.claims[k]
  {
    hide StageRefused, PointerFor, PutPointer, PutJob, Independent, AffectedHashes, AffectedJobs, ForgottenEvidence,
      DropHashes;
    var i :| 0 <= i < k && s.claims[i].id == s.claims[k].id;
    if op.OpPurgeBegin? {
      SetsAtMostFirst(s.claims, op.claim, Purging, i, k);
    }
    if op.OpPurgeFinish? {
      SetsAtMostFirst(s.claims, op.claim, ClaimTombstoned, i, k);
    }
    assert Apply(s, op).claims[i].id == s.claims[i].id;
  }

  lemma {:induction false} ShadowedForever(s: State, ops: seq<Op>, k: nat)
    requires Shadowed(s.claims, k)
    ensures Shadowed(Run(s, ops).claims, k) && Run(s, ops).claims[k] == s.claims[k]
    decreases |ops|
  {
    if ops != [] {
      ShadowedStays(s, ops[0], k);
      hide Shadowed, Apply;
      ShadowedForever(Apply(s, ops[0]), ops[1..], k);
    }
  }

  /**
   * A source forgotten again with nothing to claim, after it was forgotten once with nothing to claim:
   * in every continuation the second claim stays as it is, and the source stays pending.
   */
  lemma RepeatedForgetIsStuck(ops: seq<Op>, kind: SourceKind, source: Name, more: seq<Op>)
    requires var s := Run(EMPTY, ops);
      && !PendingClaim(s, kind, source) && EmptyTwin(s.claims, kind, source)
      && ForgottenEvidence(s, kind, source) == {} && AffectedHashes(s, kind, source) == {}
    ensures var s := Run(EMPTY, ops);
      var t := Run(ClaimBySource(s, kind, source), more);
      && |s.claims| < |t.claims| && t.claims[|s.claims|] == NewClaim(s, kind, source)
      && t.claims[|s.claims|].phase == ForgetClaimed && PendingClaim(t, kind, source)
  {
    var s := Run(EMPTY, ops);
    RunErases(EMPTY, ops);
    hide Run, Inv, ForgottenEvidence, AffectedHashes, AffectedJobs, DropHashes, ErasedFor;
    var t := ClaimBySource(s, kind, source);
    var d :| d in s.claims && d.kind == kind && d.source == source && d.evidence == {} && d.revisions == {};
    var i :| 0 <= i < |s.claims| && s.claims[i] == d;
    assert ClaimOk(d) && t.claims == s.claims + [NewClaim(s, kind, source)] && t.claims[i] == d;
    assert Shadowed(t.claims, |s.claims|);
    ShadowedForever(t, more, |s.claims|);
    assert Run(t, more).claims[|s.claims|] in Run(t, more).claims;
  }

  /** Such a run exists for every source: forget it, purge, and forget it again. */
  lemma ForgetTwice(kind: SourceKind, source: Name)
    ensures var id := ClaimId(kind, source, {}, {});
      var s := Run(EMPTY, [OpClaim(kind, source), OpPurgeBegin(id), OpPurgeFinish(id)]);
      && !PendingClaim(s, kind, source) && EmptyTwin(s.claims, kind, source)
      && ForgottenEvidence(s, kind, source) == {} && AffectedHashes(s, kind, source) == {}
  {
    hide Run;
    var id := ClaimId(kind, source, {}, {});
    var c := Claim(id, kind, source, {}, {}, ForgetClaimed);
    var claimed, purging := EMPTY.(claims := [c]), EMPTY.(claims := [c.(phase := Purging)]);
    var purged := EMPTY.(claims := [c.(phase := ClaimTombstoned)]);
    var ops := [OpClaim(kind, source), OpPurgeBegin(id), OpPurgeFinish(id)];
    ForgetsOnce(kind, source);
    assert c.(phase := ClaimTombstoned) in purged.claims;
    hide Apply;
    RunSteps(ops, [EMPTY, claimed, purging, purged]);
  }

  lemma ForgetsOnce(kind: SourceKind, source: Name)
    ensures var id := ClaimId(kind, source, {}, {});
      var c := Claim(id, kind, source, {}, {}, ForgetClaimed);
      var claimed, purging := EMPTY.(claims := [c]), EMPTY.(claims := [c.(phase := Purging)]);
      && Apply(EMPTY, OpClaim(kind, source)) == claimed && Apply(claimed, OpPurgeBegin(id)) == purging
      && Apply(purging, OpPurgeFinish(id)) == EMPTY.(claims := [c.(phase := ClaimTombstoned)])
  {
    var c := Claim(ClaimId(kind, source, {}, {}), kind, source, {}, {}, ForgetClaimed);
    hide ClaimBySource, PurgeBegin, PurgeFinish, Stage, ConfirmReply, AdvanceJob, Quarantine, Prepare, Activate,
      PermanentFailure;
    NothingToClaim(EMPTY, kind, source);
    PurgesOnly(c);
  }

  lemma PurgesOnly(c: Claim)
    requires c.phase == ForgetClaimed
    ensures PurgeBegin(EMPTY.(claims := [c]), c.id) == EMPTY.(claims := [c.(phase := Purging)])
    ensures PurgeFinish(EMPTY.(claims := [c.(phase := Purging)]), c.id) ==
      EMPTY.(claims := [c.(phase := ClaimTombstoned)])
  {}

  lemma NothingToClaim(s: State, kind: SourceKind, source: Name)
    requires s == EMPTY.(claims := s.claims) && !PendingClaim(s, kind, source)
    ensures ClaimBySource(s, kind, source) ==
      s.(claims := s.claims + [Claim(ClaimId(kind, source, {}, {}), kind, source, {}, {}, ForgetClaimed)])
  {
    assert ForgottenEvidence(s, kind, source) == {};
    assert AffectedHashes(s, kind, source) == {};
  }
}
