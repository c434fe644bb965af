/**
 * One skill at a time: what a skill can rely on whatever happens to the others, including failures of
 * theirs that revive a claimed revision. The first failure of a skill after its activation is clean.
 */
module AutoSkillFallback {
  import opened Common
  import opened AutoSkillModel
  import opened AutoSkillEvidence
  import opened AutoSkillPointers

  // ---- what every run keeps ---------------------------------------------------------------------------------

  /** A revision of the skill with this hash exists and has left its preparation. */
  ghost predicate Known(revisions: seq<Revision>, hash: Name, scope: Name, identity: Name) {
    exists r :: r in revisions && r.hash == hash && Of(r, scope, identity) && r.phase != RevPrepared
  }

  predicate Of(r: Revision, scope: Name, identity: Name) { r.scope == scope && r.identity == identity }

  predicate For(p: Pointer, scope: Name, identity: Name) { p.scope == scope && p.identity == identity }

  /** Both hashes of a pointer are revisions of its own skill, whatever their phase. */
  ghost predicate PointerKnown(revisions: seq<Revision>, p: Pointer) {
    && Known(revisions, p.active, p.scope, p.identity)
    && (p.previous.Some? ==> Known(revisions, p.previous.value, p.scope, p.identity))
  }

  ghost predicate PointersKnown(revisions: seq<Revision>, pointers: seq<Pointer>) {
    forall p :: p in pointers ==> PointerKnown(revisions, p)
  }

  ghost predicate Structure(s: State) {
    && KeysUnique(s.pointers) && PointersKnown(s.revisions, s.pointers)
    && ChainsDescend(s.revisions) && JobRevisions(s.jobs, s.revisions)
  }

  lemma KnownSurvives(revisions: seq<Revision>, revisions': seq<Revision>, p: Pointer)
    requires RevisionsMoved(revisions, revisions') && PointerKnown(revisions, p)
    ensures PointerKnown(revisions', p)
  {
    var i :| 0 <= i < |revisions| && revisions[i].hash == p.active && Of(revisions[i], p.scope, p.identity) &&
      revisions[i].phase != RevPrepared;
    assert revisions'[i] in revisions';
    if p.previous.Some? {
      var k :| 0 <= k < |revisions| && revisions[k].hash == p.previous.value &&
        Of(revisions[k], p.scope, p.identity) && revisions[k].phase != RevPrepared;
      assert revisions'[k] in revisions';
    }
  }

  lemma JobStepKeepsStructure(s: State, op: Op)
    requires Inv(s) && Structure(s) && (op.OpAdvance? || op.OpQuarantine?)
    ensures Structure(Apply(s, op))
  {
    hide EvidenceOk, RevisionsOk, ReferencesOk, KeysUnique, PointersKnown, ChainsDescend, JobRevisions;
    var t := Apply(s, op);
    if t != s {
      var job := JobById(s.jobs, op.job).value;
      JobKeyUnique(s.jobs, job, job.(phase := if op.OpAdvance? then Next(op.step) else Quarantined));
      JobRevisionsSurvive(s.jobs, t.jobs, s.revisions, t.revisions);
    }
  }

  lemma ConfirmKeepsStructure(s: State, id: Name, session: Name, turn: Name)
    requires Structure(s)
    ensures Structure(ConfirmReply(s, id, session, turn))
  {}

  lemma PrepareKeepsStructure(s: State, id: JobId, m: Manifest)
    requires Inv(s) && Structure(s)
    ensures Structure(Prepare(s, id, m))
  {
    hide EvidenceOk, JobsOk, ChainsDescend, JobRevisions, EvidenceFor;
    if !PrepareRefused(s, id, m) {
      PrepareKeepsJobRevisions(s, id, m);
      if RevisionByHash(s.revisions, m.hash).None? {
        var job := JobById(s.jobs, id).value;
        var r := PreparedRevision(s, job, m);
        if r.previous.Some? {
          assert PointerKnown(s.revisions, PointerFor(s.pointers, job.scope, job.identity).value);
        }
        AppendKeepsChains(s.revisions, r);
        forall p | p in s.pointers ensures PointerKnown(s.revisions + [r], p) {
          assert PointerKnown(s.revisions, p);
        }
      }
    }
  }

  lemma ActivateKeepsStructure(s: State, id: JobId, hash: Name, readable: bool)
    requires Inv(s) && Structure(s)
    ensures Structure(Activate(s, id, hash, readable))
  {
    hide Inv, KeysUnique, ChainsDescend, JobRevisions, PutPointer, PutJob;
    if !ActivateRefused(s, id, hash) {
      PreparedMatches(s, id, hash);
      var job, r := JobById(s.jobs, id).value, RevisionByHash(s.revisions, hash).value;
      var t := Activate(s, id, hash, readable);
      JobKeyUnique(s.jobs, job, job.(phase := JobActive));
      assert RevisionsMoved(s.revisions, t.revisions);
      ChainsSurvive(s.revisions, t.revisions);
      JobRevisionsSurvive(s.jobs, t.jobs, s.revisions, t.revisions);
      var o := PointerFor(s.pointers, job.scope, job.identity);
      var p := Pointer(job.scope, job.identity, hash, ActiveHash(o));
      PutPointerKeeps(s.pointers, p);
      hide ActivatedRevisions;
      forall q | q in t.pointers ensures PointerKnown(t.revisions, q) {
        if q == p {
          var i :| 0 <= i < |s.revisions| && s.revisions[i] == r;
          assert t.revisions[i] in t.revisions;
          if o.Some? {
            KnownSurvives(s.revisions, t.revisions, o.value);
          }
        } else {
          KnownSurvives(s.revisions, t.revisions, q);
        }
      }
    }
  }

  /** The pointer of an effective failure, and the revision of the skill that it names as previous. */
  lemma TargetOf(s: State, hash: Name) returns (p: Pointer, t: Revision)
    requires HashesUnique(s.revisions) && PointersKnown(s.revisions, s.pointers)
    requires !FailureIgnored(s, hash) && FallbackTarget(s, hash).Some?
    ensures p == FailingPointer(s, hash) && p in s.pointers && p.active == hash
    ensures t in s.revisions && Of(t, p.scope, p.identity) && p.previous == Some(t.hash) &&
      RevisionByHash(s.revisions, t.hash) == Some(t)
  {
    hide RevisionByHash, PointerFor;
    p := FailingPointer(s, hash);
    assert PointerKnown(s.revisions, p);
    var k :| 0 <= k < |s.revisions| && s.revisions[k].hash == p.previous.value &&
      Of(s.revisions[k], p.scope, p.identity);
    t := s.revisions[k];
    FoundByHash(s.revisions, k);
  }

  function FailingPointer(s: State, hash: Name): (p: Pointer)
    requires !FailureIgnored(s, hash)
    ensures For(p, RevisionByHash(s.revisions, hash).value.scope, RevisionByHash(s.revisions, hash).value.identity)
  {
    var r := RevisionByHash(s.revisions, hash).value;
    PointerFor(s.pointers, r.scope, r.identity).value
  }

  /** What an effective failure does, when its pointer names a previous revision. */
  lemma FallsBackTo(s: State, hash: Name, t: Revision)
    requires HashesUnique(s.revisions) && !FailureIgnored(s, hash) && FallbackTarget(s, hash) == Some(t.hash) &&
      t in s.revisions
    ensures var p := FailingPointer(s, hash);
      PermanentFailure(s, hash) == s.(revisions := FallenBack(s.revisions, hash, t.hash),
                                      pointers := PutPointer(s.pointers, Pointer(p.scope, p.identity, t.hash,
                                        t.previous)))
  {
    var k :| 0 <= k < |s.revisions| && s.revisions[k] == t;
    FoundByHash(SetRevisionPhase(s.revisions, hash, Demoted), k);
    hide RevisionByHash, PointerFor, SetRevisionPhase, PutPointer, HashesUnique;
  }

  lemma FoundByHash(revisions: seq<Revision>, k: nat)
    requires HashesUnique(revisions) && k < |revisions|
    ensures RevisionByHash(revisions, revisions[k].hash) == Some(revisions[k])
  {
    assert revisions[k] in revisions;
  }

  lemma FallbackKnown(revisions: seq<Revision>, pointers: seq<Pointer>, p: Pointer, t: Revision)
    requires KeysUnique(pointers) && PointersKnown(revisions, pointers) && ChainsDescend(revisions)
    requires t in revisions && Of(t, p.scope, p.identity)
    ensures var revisions', pointers' := FallenBack(revisions, p.active, t.hash),
      PutPointer(pointers, Pointer(p.scope, p.identity, t.hash, t.previous));
      RevisionsMoved(revisions, revisions') && KeysUnique(pointers') && PointersKnown(revisions', pointers')
  {
    var revisions', q := FallenBack(revisions, p.active, t.hash), Pointer(p.scope, p.identity, t.hash, t.previous);
    FallenBackAt(revisions, p.active, t.hash);
    PutPointerKeeps(pointers, q);
    hide KeysUnique, PutPointer, FallenBack;
    var k :| 0 <= k < |revisions| && revisions[k] == t;
    assert revisions'[k] in revisions' && revisions'[k].phase == RevActive;
    if t.previous.Some? {
      assert HasEarlier(revisions, k);
      var m :| Precedes(revisions, m, k, t.previous.value);
      assert revisions'[m] in revisions';
    }
    forall o | o in PutPointer(pointers, q) ensures PointerKnown(revisions', o) {
      if o != q {
        KnownSurvives(revisions, revisions', o);
      }
    }
  }

  lemma FailureKeepsStructure(s: State, hash: Name)
    requires Inv(s) && Structure(s)
    ensures Structure(PermanentFailure(s, hash))
  {
    InvHashes(s);
    hide Inv, KeysUnique, ChainsDescend, JobRevisions, PutPointer, Filter, PointersKnown, PermanentFailure,
      HashesUnique;
    if FailureIgnored(s, hash) {
      SameAfterIgnored(s, hash);
    } else {
      var t := PermanentFailure(s, hash);
      if FallbackTarget(s, hash).Some? {
        var p, to := TargetOf(s, hash);
        FallsBackTo(s, hash, to);
        FallbackKnown(s.revisions, s.pointers, p, to);
      } else {
        Removes(s, hash);
        RemovedKnown(s.revisions, s.pointers, FailingPointer(s, hash));
      }
      hide RevisionsMoved;
      ChainsSurvive(s.revisions, t.revisions);
      JobRevisionsSurvive(s.jobs, t.jobs, s.revisions, t.revisions);
    }
  }

  lemma SameAfterIgnored(s: State, hash: Name)
    requires FailureIgnored(s, hash)
    ensures PermanentFailure(s, hash) == s
  {}

  lemma Removes(s: State, hash: Name)
    requires !FailureIgnored(s, hash) && FallbackTarget(s, hash).None?
    ensures PermanentFailure(s, hash) ==
      s.(revisions := SetRevisionPhase(s.revisions, hash, Demoted),
        pointers := WithoutKey(s.pointers, FailingPointer(s, hash)))
  {}

  lemma RemovedKnown(revisions: seq<Revision>, pointers: seq<Pointer>, p: Pointer)
    requires KeysUnique(pointers) && PointersKnown(revisions, pointers)
    ensures var revisions', pointers' := SetRevisionPhase(revisions, p.active, Demoted), WithoutKey(pointers, p);
      RevisionsMoved(revisions, revisions') && KeysUnique(pointers') && PointersKnown(revisions', pointers')
  {
    FilterKeepsPairs(pointers, (q: Pointer) => !(q.scope == p.scope && q.identity == p.identity),
                     (x: Pointer, y: Pointer) => !(x.scope == y.scope && x.identity == y.identity));
    forall q | q in WithoutKey(pointers, p) ensures PointerKnown(SetRevisionPhase(revisions, p.active, Demoted), q) {
      KnownSurvives(revisions, SetRevisionPhase(revisions, p.active, Demoted), q);
    }
  }

  lemma ClaimKeepsStructure(s: State, kind: SourceKind, source: Name)
    requires Structure(s)
    ensures Structure(ClaimBySource(s, kind, source))
  {
    hide KeysUnique, ChainsDescend, JobRevisions, NewClaim, AffectedJobs, DropHashes, Filter, PointerKnown;
    if !PendingClaim(s, kind, source) {
      var c, t := NewClaim(s, kind, source), ClaimBySource(s, kind, source);
      assert t.revisions == ClaimRevisions(s.revisions, c.revisions);
      assert RevisionsMoved(s.revisions, t.revisions);
      ChainsSurvive(s.revisions, t.revisions);
      JobRevisionsSurvive(s.jobs, t.jobs, s.revisions, t.revisions);
      DroppedFrom(s.pointers, c.revisions);
      forall q | q in t.pointers ensures PointerKnown(t.revisions, q) {
        assert ComesFrom(s.pointers, c.revisions, q);
        var p :| p in s.pointers && p.active !in c.revisions && Stripped(p, c.revisions, q);
        KnownSurvives(s.revisions, t.revisions, p);
        StrippedKnown(t.revisions, p, c.revisions, q);
      }
    }
  }

  lemma StrippedKnown(revisions: seq<Revision>, p: Pointer, hashes: set<Name>, q: Pointer)
    requires PointerKnown(revisions, p) && Stripped(p, hashes, q)
    ensures PointerKnown(revisions, q)
  {}

  lemma PurgeKeepsStructure(s: State, id: ClaimId)
    requires Structure(s)
    ensures Structure(PurgeFinish(s, id))
  {
    hide KeysUnique, ChainsDescend, JobRevisions, Filter, PointerKnown;
    if PurgeReady(s, id) {
      var t := PurgeFinish(s, id);
      assert RevisionsMoved(s.revisions, t.revisions);
      ChainsSurvive(s.revisions, t.revisions);
      JobRevisionsSurvive(s.jobs, t.jobs, s.revisions, t.revisions);
      forall q | q in t.pointers ensures PointerKnown(t.revisions, q) {
        KnownSurvives(s.revisions, t.revisions, q);
      }
    }
  }

  lemma ApplyKeepsStructure(s: State, op: Op)
    requires Inv(s) && Structure(s)
    ensures Structure(Apply(s, op))
  {
    hide Inv, KeysUnique, PointersKnown, ChainsDescend, JobRevisions;
    match op
    case OpStage(e) =>
    case OpConfirm(id, session, turn) => ConfirmKeepsStructure(s, id, session, turn);
    case OpAdvance(job, step) => JobStepKeepsStructure(s, op);
    case OpQuarantine(job) => JobStepKeepsStructure(s, op);
    case OpPrepare(job, m) => PrepareKeepsStructure(s, job, m);
    case OpActivate(job, hash, readable) => ActivateKeepsStructure(s, job, hash, readable);
    case OpFail(hash) => FailureKeepsStructure(s, hash);
    case OpClaim(kind, source) => ClaimKeepsStructure(s, kind, source);
    case OpPurgeBegin(id) =>
    case OpPurgeFinish(id) => PurgeKeepsStructure(s, id);
    case OpNotification(revision, from, to) =>
    case OpReopen =>
  }

  // ---- one skill ------------------------------------------------------------------------------------------------

  predicate Gone(r: Revision) { r.phase in {RevClaimed, Tombstoned} }

  /** The pointer of the skill targets an active revision, and no claim lists a revision of it that is not gone. */
  ghost predicate Sound(s: State, scope: Name, identity: Name) {
    Targeted(s.revisions, s.pointers, scope, identity) && Unlisted(s.revisions, s.claims, scope, identity)
  }

  ghost predicate Targeted(revisions: seq<Revision>, pointers: seq<Pointer>, scope: Name, identity: Name) {
    forall p :: p in pointers && For(p, scope, identity) ==> HasTarget(revisions, p)
  }

  ghost predicate Unlisted(revisions: seq<Revision>, claims: seq<Claim>, scope: Name, identity: Name) {
    forall r :: r in revisions && Of(r, scope, identity) && !Gone(r) ==> !ListedBy(claims, r.hash)
  }

  /** The pointer of the skill names no previous revision, or one that was demoted and not claimed. */
  ghost predicate FallbackSafe(s: State, scope: Name, identity: Name) {
    forall p :: p in s.pointers && For(p, scope, identity) && p.previous.Some? ==>
      DemotedAt(s.revisions, p.previous.value, scope, identity)
  }

  ghost predicate DemotedAt(revisions: seq<Revision>, hash: Name, scope: Name, identity: Name) {
    exists r :: r in revisions && r.hash == hash && Of(r, scope, identity) && r.phase == Demoted
  }

  /** A step that leaves the skill alone, up to tombstoning what is gone and preparing revisions. */
  ghost predicate Untouched(s: State, t: State, scope: Name, identity: Name) {
    && (forall p :: p in t.pointers && For(p, scope, identity) ==> p in s.pointers)
    && |s.revisions| <= |t.revisions|
    && (forall i :: 0 <= i < |s.revisions| ==>
      Of(t.revisions[i], scope, identity) == Of(s.revisions[i], scope, identity))
    && (forall i :: 0 <= i < |s.revisions| && Of(s.revisions[i], scope, identity) ==>
          t.revisions[i] == s.revisions[i] || (Gone(s.revisions[i]) && Gone(t.revisions[i])))
    && (forall i :: |s.revisions| <= i < |t.revisions| ==> !ListedBy(t.claims, t.revisions[i].hash))
    && (forall h :: ListedBy(t.claims, h) ==> ListedBy(s.claims, h))
  }

  lemma UntouchedKeeps(s: State, t: State, scope: Name, identity: Name)
    requires Sound(s, scope, identity) && Untouched(s, t, scope, identity)
    ensures Sound(t, scope, identity) && (FallbackSafe(s, scope, identity) ==> FallbackSafe(t, scope, identity))
  {
    forall p | p in t.pointers && For(p, scope, identity) ensures HasTarget(t.revisions, p) {
      assert HasTarget(s.revisions, p);
      var i :| 0 <= i < |s.revisions| && Targets(p, s.revisions[i]) && s.revisions[i].phase == RevActive;
      assert t.revisions[i] in t.revisions;
    }
    forall r | r in t.revisions && Of(r, scope, identity) && !Gone(r) ensures !ListedBy(t.claims, r.hash) {
      var i :| 0 <= i < |t.revisions| && t.revisions[i] == r;
      assert i < |s.revisions| ==> s.revisions[i] == r && s.revisions[i] in s.revisions;
    }
    if FallbackSafe(s, scope, identity) {
      forall p | p in t.pointers && For(p, scope, identity) && p.previous.Some?
        ensures DemotedAt(t.revisions, p.previous.value, scope, identity) {
        assert DemotedAt(s.revisions, p.previous.value, scope, identity);
        var i :| 0 <= i < |s.revisions| && s.revisions[i].hash == p.previous.value &&
          Of(s.revisions[i], scope, identity) && s.revisions[i].phase == Demoted;
        assert t.revisions[i] in t.revisions;
      }
    }
  }

  /** Operations on evidence, jobs and notifications. */
  predicate Quiet(op: Op) {
    op.OpStage? || op.OpConfirm? || op.OpAdvance? || op.OpQuarantine? || op.OpNotification? || op.OpReopen?
  }

  lemma QuietUntouched(s: State, op: Op, scope: Name, identity: Name)
    requires Quiet(op)
    ensures Untouched(s, Apply(s, op), scope, identity)
  {
    var t := Apply(s, op);
    assert t.pointers == s.pointers && t.revisions == s.revisions && t.claims == s.claims;
  }

  lemma PrepareUntouched(s: State, id: JobId, m: Manifest, scope: Name, identity: Name)
    requires Inv(s)
    ensures Untouched(s, Prepare(s, id, m), scope, identity)
  {
    hide EvidenceOk, JobsOk, ReferencesOk, EvidenceFor, PointerFor, PutJob;
    var t := Prepare(s, id, m);
    if |t.revisions| > |s.revisions| {
      var r := t.revisions[|s.revisions|];
      assert r.hash == m.hash && !HasRevision(s.revisions, m.hash);
      assert !ListedBy(s.claims, r.hash);
    }
  }

  /** The revision of a job, and the one it replaces, are of the job's skill. */
  lemma ReplacesOwn(s: State, id: JobId, hash: Name, i: nat)
    requires Inv(s) && Structure(s) && !ActivateRefused(s, id, hash) && i < |s.revisions|
    requires s.revisions[i].hash == hash || RevisionByHash(s.revisions, hash).value.previous ==
      Some(s.revisions[i].hash)
    ensures var j := JobById(s.jobs, id).value; Of(s.revisions[i], j.scope, j.identity)
  {
    PreparedMatches(s, id, hash);
    var r := RevisionByHash(s.revisions, hash).value;
    hide Inv, KeysUnique, PointersKnown, JobRevisions, RevisionByHash, JobById;
    var a :| 0 <= a < |s.revisions| && s.revisions[a] == r;
    if s.revisions[i].hash != hash {
      assert HasEarlier(s.revisions, a);
      var k :| Precedes(s.revisions, k, a, r.previous.value);
    }
  }

  lemma OtherActivation(s: State, id: JobId, hash: Name, readable: bool, scope: Name, identity: Name)
    requires Inv(s) && Structure(s) && !ActivateRefused(s, id, hash)
    requires var j := JobById(s.jobs, id).value; !(j.scope == scope && j.identity == identity)
    ensures Untouched(s, Activate(s, id, hash, readable), scope, identity)
  {
    var j, t := JobById(s.jobs, id).value, Activate(s, id, hash, readable);
    PutPointerKeeps(s.pointers, Pointer(j.scope, j.identity, hash,
      ActiveHash(PointerFor(s.pointers, j.scope, j.identity))));
    forall i | 0 <= i < |s.revisions| && Of(s.revisions[i], scope, identity) ensures t.revisions[i] == s.revisions[i] {
      if s.revisions[i].hash == hash || RevisionByHash(s.revisions, hash).value.previous == Some(s.revisions[i].hash) {
        ReplacesOwn(s, id, hash, i);
      }
    }
    hide Inv, Structure, PutPointer, RevisionByHash, JobById, PointerFor, PutJob, ActivatedRevisions, ListedBy;
  }

  predicate FailsSkill(s: State, op: Op, scope: Name, identity: Name) {
    op.OpFail? && !FailureIgnored(s, op.hash) && Of(RevisionByHash(s.revisions, op.hash).value, scope, identity)
  }

  lemma OtherFailure(s: State, hash: Name, scope: Name, identity: Name)
    requires HashesUnique(s.revisions) && Structure(s) && !FailsSkill(s, OpFail(hash), scope, identity)
    ensures Untouched(s, PermanentFailure(s, hash), scope, identity)
  {
    hide KeysUnique, ChainsDescend, JobRevisions, PutPointer, PermanentFailure, PointersKnown, RevisionByHash,
      PointerFor;
    if FailureIgnored(s, hash) {
      SameAfterIgnored(s, hash);
    } else {
      var t, p := PermanentFailure(s, hash), FailingPointer(s, hash);
      if FallbackTarget(s, hash).Some? {
        var o, to := TargetOf(s, hash);
        FallsBackTo(s, hash, to);
        FallenBackAt(s.revisions, hash, to.hash);
        PutPointerKeeps(s.pointers, Pointer(p.scope, p.identity, to.hash, to.previous));
        hide FallenBack;
      } else {
        Removes(s, hash);
      }
      hide ListedBy, SetRevisionPhase, WithoutKey;
    }
  }

  lemma PurgeUntouched(s: State, op: Op, scope: Name, identity: Name)
    requires Sound(s, scope, identity) && (op.OpPurgeBegin? || op.OpPurgeFinish?)
    ensures Untouched(s, Apply(s, op), scope, identity)
  {
    var t := Apply(s, op);
    if t != s {
      var phase := if op.OpPurgeBegin? then Purging else ClaimTombstoned;
      ClaimPhases(s.claims, op.claim, phase);
      var c := ClaimById(s.claims, op.claim).value;
      assert t.claims == SetClaimPhase(s.claims, op.claim, phase);
      forall h ensures ListedBy(t.claims, h) <==> ListedBy(s.claims, h) {
        ClaimPhasesKeepListing(s.claims, t.claims, h);
      }
      forall i | 0 <= i < |s.revisions| && Of(s.revisions[i], scope, identity)
        ensures t.revisions[i] == s.revisions[i] || (Gone(s.revisions[i]) && Gone(t.revisions[i]))
      {
        assert s.revisions[i] in s.revisions;
        assert s.revisions[i].hash in c.revisions ==> ListedBy(s.claims, s.revisions[i].hash);
      }
    }
  }

  lemma ClaimKeepsSkill(s: State, kind: SourceKind, source: Name, scope: Name, identity: Name)
    requires KeysUnique(s.pointers) && Sound(s, scope, identity)
    ensures var t := ClaimBySource(s, kind, source);
      Sound(t, scope, identity) && (FallbackSafe(s, scope, identity) ==> FallbackSafe(t, scope, identity))
  {
    if !PendingClaim(s, kind, source) {
      var c, t := NewClaim(s, kind, source), ClaimBySource(s, kind, source);
      assert t.revisions == ClaimRevisions(s.revisions, c.revisions) && t.claims == s.claims + [c];
      DroppedFrom(s.pointers, c.revisions);
      hide AffectedHashes, ForgottenEvidence, AffectedJobs, DropHashes, KeysUnique, NewClaim;
      forall q | q in t.pointers && For(q, scope, identity)
        ensures HasTarget(t.revisions, q)
        ensures FallbackSafe(s, scope, identity) && q.previous.Some? ==>
          DemotedAt(t.revisions, q.previous.value, scope, identity)
      {
        assert ComesFrom(s.pointers, c.revisions, q);
        var p :| p in s.pointers && p.active !in c.revisions && Stripped(p, c.revisions, q);
        ClaimSparesTarget(s.revisions, c.revisions, p, q);
        if FallbackSafe(s, scope, identity) && q.previous.Some? {
          ClaimSparesDemoted(s.revisions, c.revisions, q.previous.value, scope, identity);
        }
      }
      forall r | r in t.revisions && Of(r, scope, identity) && !Gone(r) ensures !ListedBy(t.claims, r.hash) {
        var i :| 0 <= i < |t.revisions| && t.revisions[i] == r;
        assert s.revisions[i] == r && r in s.revisions && r.hash !in c.revisions;
      }
    }
  }

  lemma ClaimSparesTarget(revisions: seq<Revision>, hashes: set<Name>, p: Pointer, q: Pointer)
    requires HasTarget(revisions, p) && p.active !in hashes && Stripped(p, hashes, q)
    ensures HasTarget(ClaimRevisions(revisions, hashes), q)
  {
    var i :| 0 <= i < |revisions| && Targets(p, revisions[i]) && revisions[i].phase == RevActive;
    var now := ClaimRevisions(revisions, hashes);
    assert now[i] in now && Targets(q, now[i]);
  }

  lemma ClaimSparesDemoted(revisions: seq<Revision>, hashes: set<Name>, hash: Name, scope: Name, identity: Name)
    requires DemotedAt(revisions, hash, scope, identity) && hash !in hashes
    ensures DemotedAt(ClaimRevisions(revisions, hashes), hash, scope, identity)
  {
    var i :| 0 <= i < |revisions| && revisions[i].hash == hash && Of(revisions[i], scope, identity) &&
      revisions[i].phase == Demoted;
    assert ClaimRevisions(revisions, hashes)[i] in ClaimRevisions(revisions, hashes);
  }

  /** Phases may move, but nothing of the skill that was gone comes back. */
  lemma StaysUnlisted(revisions: seq<Revision>, revisions': seq<Revision>, claims: seq<Claim>, scope: Name,
      identity: Name)
    requires Unlisted(revisions, claims, scope, identity) && RevisionsMoved(revisions, revisions')
    requires forall i :: 0 <= i < |revisions| && Of(revisions[i], scope, identity) && Gone(revisions[i]) ==>
      Gone(revisions'[i])
    ensures Unlisted(revisions', claims, scope, identity)
  {
    forall r | r in revisions' && Of(r, scope, identity) && !Gone(r) ensures !ListedBy(claims, r.hash) {
      var i :| 0 <= i < |revisions'| && revisions'[i] == r;
      assert revisions[i] in revisions;
    }
  }

  lemma OneTarget(revisions: seq<Revision>, pointers: seq<Pointer>, q: Pointer, a: nat)
    requires a < |revisions| && Targets(q, revisions[a]) && revisions[a].phase == RevActive
    requires forall p :: p in pointers && For(p, q.scope, q.identity) ==> p == q
    ensures Targeted(revisions, pointers, q.scope, q.identity)
  {
    assert revisions[a] in revisions;
  }

  /** An activation of the skill demotes the target of its pointer, which it then names as previous. */
  lemma DemotesTarget(revisions: seq<Revision>, pointers: seq<Pointer>, r: Revision)
    requires Targeted(revisions, pointers, r.scope, r.identity) && HashesUnique(revisions) && r in revisions &&
      r.phase == RevPrepared
    requires r.previous.Some? && exists o ::
      o in pointers && For(o, r.scope, r.identity) && o.active == r.previous.value
    ensures DemotedAt(ActivatedRevisions(revisions, r.hash, r.previous), r.previous.value, r.scope, r.identity)
  {
    hide ActivatedRevisions;
    var o :| o in pointers && For(o, r.scope, r.identity) && o.active == r.previous.value;
    assert HasTarget(revisions, o);
    var k :| 0 <= k < |revisions| && Targets(o, revisions[k]) && revisions[k].phase == RevActive;
    var now := ActivatedRevisions(revisions, r.hash, r.previous);
    assert now[k] in now && now[k].phase == Demoted;
  }

  lemma ActivatesTarget(revisions: seq<Revision>, pointers': seq<Pointer>, r: Revision)
    requires r in revisions
    requires forall q :: q in pointers' && For(q, r.scope, r.identity) ==>
      q == Pointer(r.scope, r.identity, r.hash, r.previous)
    ensures var now := ActivatedRevisions(revisions, r.hash, r.previous);
      Targeted(now, pointers', r.scope, r.identity) && RevisionsMoved(revisions, now)
  {
    var a :| 0 <= a < |revisions| && revisions[a] == r;
    OneTarget(ActivatedRevisions(revisions, r.hash, r.previous), pointers',
      Pointer(r.scope, r.identity, r.hash, r.previous), a);
    hide ActivatedRevisions;
  }

  lemma Retargets(s: State, t: State, r: Revision)
    requires Sound(s, r.scope, r.identity) && HashesUnique(s.revisions) && r in s.revisions && r.phase == RevPrepared
    requires t.revisions == ActivatedRevisions(s.revisions, r.hash, r.previous) && t.claims == s.claims
    requires forall q :: q in t.pointers && For(q, r.scope, r.identity) ==>
      q == Pointer(r.scope, r.identity, r.hash, r.previous)
    requires r.previous.Some? ==>
      exists o :: o in s.pointers && For(o, r.scope, r.identity) && o.active == r.previous.value
    ensures Sound(t, r.scope, r.identity) && FallbackSafe(t, r.scope, r.identity)
  {
    if r.previous.Some? {
      DemotesTarget(s.revisions, s.pointers, r);
    }
    ActivatesTarget(s.revisions, t.pointers, r);
    GoneStays(s.revisions, r.hash, r.previous);
    hide ActivatedRevisions, Targeted, Unlisted, DemotedAt, HashesUnique;
    StaysUnlisted(s.revisions, t.revisions, t.claims, r.scope, r.identity);
  }

  lemma GoneStays(revisions: seq<Revision>, hash: Name, previous: Option<Name>)
    requires HashesUnique(revisions) && exists r :: r in revisions && r.hash == hash && !Gone(r)
    ensures var now := ActivatedRevisions(revisions, hash, previous);
      forall i :: 0 <= i < |revisions| && Gone(revisions[i]) ==> Gone(now[i])
  {
    hide ActivatedRevisions;
  }

  lemma OwnActivation(s: State, id: JobId, hash: Name, readable: bool)
    requires Inv(s) && Structure(s) && !ActivateRefused(s, id, hash)
    requires var j := JobById(s.jobs, id).value; Sound(s, j.scope, j.identity)
    ensures var j, t := JobById(s.jobs, id).value, Activate(s, id, hash, readable);
      Sound(t, j.scope, j.identity) && FallbackSafe(t, j.scope, j.identity)
  {
    PreparedMatches(s, id, hash);
    var j, r := JobById(s.jobs, id).value, RevisionByHash(s.revisions, hash).value;
    PutPointerKeeps(s.pointers, Pointer(j.scope, j.identity, hash,
      ActiveHash(PointerFor(s.pointers, j.scope, j.identity))));
    hide Inv, Structure, PutPointer, PointerFor, RevisionByHash, JobById, PutJob, ActivatedRevisions, Sound,
      FallbackSafe, HashesUnique;
    Retargets(s, Activate(s, id, hash, readable), r);
  }

  lemma FallsBackSoundly(revisions: seq<Revision>, pointers: seq<Pointer>, claims: seq<Claim>, p: Pointer, t: Revision)
    requires KeysUnique(pointers) && HashesUnique(revisions) && Unlisted(revisions, claims, p.scope, p.identity)
    requires t in revisions && Of(t, p.scope, p.identity) && t.phase == Demoted
    requires exists r :: r in revisions && r.hash == p.active && r.phase == RevActive
    ensures var now, q := FallenBack(revisions, p.active, t.hash), Pointer(p.scope, p.identity, t.hash, t.previous);
      Targeted(now, PutPointer(pointers, q), p.scope, p.identity) && Unlisted(now, claims, p.scope, p.identity)
  {
    var now, q := FallenBack(revisions, p.active, t.hash), Pointer(p.scope, p.identity, t.hash, t.previous);
    FallenBackAt(revisions, p.active, t.hash);
    PutPointerKeeps(pointers, q);
    hide FallenBack, PutPointer, KeysUnique, Unlisted;
    var k :| 0 <= k < |revisions| && revisions[k] == t;
    OneTarget(now, PutPointer(pointers, q), q, k);
    StaysUnlisted(revisions, now, claims, p.scope, p.identity);
  }

  /** A clean failure of the skill leaves it with an active target, or without a pointer. */
  lemma OwnFailure(s: State, hash: Name)
    requires HashesUnique(s.revisions) && Structure(s) && !FailureIgnored(s, hash) && CleanFailure(s, hash)
    requires var r := RevisionByHash(s.revisions, hash).value; Sound(s, r.scope, r.identity)
    ensures var r := RevisionByHash(s.revisions, hash).value; Sound(PermanentFailure(s, hash), r.scope, r.identity)
  {
    hide KeysUnique, ChainsDescend, JobRevisions, PutPointer, PermanentFailure, PointersKnown, RevisionByHash,
      PointerFor, Targeted, Unlisted;
    var t, p, r := PermanentFailure(s, hash), FailingPointer(s, hash), RevisionByHash(s.revisions, hash).value;
    if FallbackTarget(s, hash).Some? {
      var o, to := TargetOf(s, hash);
      FallsBackTo(s, hash, to);
      hide HashesUnique, FallenBack;
      FallsBackSoundly(s.revisions, s.pointers, s.claims, p, to);
    } else {
      Removes(s, hash);
      RemovedSoundly(s.revisions, s.pointers, s.claims, p);
    }
  }

  lemma RemovedSoundly(revisions: seq<Revision>, pointers: seq<Pointer>, claims: seq<Claim>, p: Pointer)
    requires HashesUnique(revisions) && Unlisted(revisions, claims, p.scope, p.identity)
    requires exists r :: r in revisions && r.hash == p.active && r.phase == RevActive
    ensures var now := SetRevisionPhase(revisions, p.active, Demoted);
      Targeted(now, WithoutKey(pointers, p), p.scope, p.identity) && Unlisted(now, claims, p.scope, p.identity)
  {
    hide Unlisted;
    StaysUnlisted(revisions, SetRevisionPhase(revisions, p.active, Demoted), claims, p.scope, p.identity);
  }

  // ---- runs --------------------------------------------------------------------------------------------------------

  lemma ApplyKeepsSkill(s: State, op: Op, scope: Name, identity: Name)
    requires Inv(s) && Structure(s) && Sound(s, scope, identity)
    requires FailsSkill(s, op, scope, identity) ==> CleanFailure(s, op.hash)
    ensures Sound(Apply(s, op), scope, identity)
    ensures FallbackSafe(s, scope, identity) && !FailsSkill(s, op, scope, identity) ==>
      FallbackSafe(Apply(s, op), scope, identity)
  {
    InvHashes(s);
    StructureKeys(s);
    hide Inv, Structure, Sound, FallbackSafe, Untouched, CleanFailure, HashesUnique, KeysUnique, Stage, ConfirmReply,
      AdvanceJob, Quarantine,
         Prepare, Activate, PermanentFailure, ClaimBySource, PurgeBegin, PurgeFinish, SetNotification, Reopen;
    var t := Apply(s, op);
    if Quiet(op) {
      QuietUntouched(s, op, scope, identity);
      UntouchedKeeps(s, t, scope, identity);
    } else if op.OpPrepare? {
      PrepareUntouched(s, op.job, op.manifest, scope, identity);
      UntouchedKeeps(s, t, scope, identity);
    } else if op.OpPurgeBegin? || op.OpPurgeFinish? {
      PurgeUntouched(s, op, scope, identity);
      UntouchedKeeps(s, t, scope, identity);
    } else if op.OpClaim? {
      ClaimKeepsSkill(s, op.kind, op.source, scope, identity);
    } else if op.OpFail? {
      if FailsSkill(s, op, scope, identity) {
        OwnFailure(s, op.hash);
      } else {
        OtherFailure(s, op.hash, scope, identity);
        UntouchedKeeps(s, t, scope, identity);
      }
    } else {
      ActivationKeepsSkill(s, op.job, op.hash, op.readable, scope, identity);
    }
  }

  lemma StructureKeys(s: State)
    requires Structure(s)
    ensures KeysUnique(s.pointers)
  {}

  lemma ActivationKeepsSkill(s: State, id: JobId, hash: Name, readable: bool, scope: Name, identity: Name)
    requires Inv(s) && Structure(s) && Sound(s, scope, identity)
    ensures var t := Activate(s, id, hash, readable);
      Sound(t, scope, identity) && (FallbackSafe(s, scope, identity) ==> FallbackSafe(t, scope, identity))
  {
    hide Inv, Structure, Sound, FallbackSafe, Untouched, Activate;
    var t := Activate(s, id, hash, readable);
    if ActivateRefused(s, id, hash) {
      RefusedActivation(s, id, hash, readable);
    } else {
      var j := JobById(s.jobs, id).value;
      if j.scope == scope && j.identity == identity {
        OwnActivation(s, id, hash, readable);
      } else {
        OtherActivation(s, id, hash, readable, scope, identity);
        UntouchedKeeps(s, t, scope, identity);
      }
    }
  }

  lemma RefusedActivation(s: State, id: JobId, hash: Name, readable: bool)
    requires ActivateRefused(s, id, hash)
    ensures Activate(s, id, hash, readable) == s
  {}

  /** Every failure of this skill in the run falls back to a demoted revision; those of others need not. */
  predicate CleanFor(s: State, ops: seq<Op>, scope: Name, identity: Name)
    decreases |ops|
  {
    ops != [] ==>
      && (FailsSkill(s, ops[0], scope, identity) ==> CleanFailure(s, ops[0].hash))
      && CleanFor(Apply(s, ops[0]), ops[1..], scope, identity)
  }

  /** No effective failure of this skill occurs in the run. */
  predicate NoFailureOf(s: State, ops: seq<Op>, scope: Name, identity: Name)
    decreases |ops|
  {
    ops != [] ==> !FailsSkill(s, ops[0], scope, identity) && NoFailureOf(Apply(s, ops[0]), ops[1..], scope, identity)
  }

  lemma {:induction false} SoundOverRun(s: State, ops: seq<Op>, scope: Name, identity: Name)
    requires Inv(s) && Structure(s) && Sound(s, scope, identity) && CleanFor(s, ops, scope, identity)
    ensures var t := Run(s, ops); Inv(t) && Structure(t) && Sound(t, scope, identity)
    ensures FallbackSafe(s, scope, identity) && NoFailureOf(s, ops, scope, identity) ==>
      FallbackSafe(Run(s, ops), scope, identity)
    decreases |ops|
  {
    hide Inv, Structure, Sound, FallbackSafe, Apply, FailsSkill, CleanFailure;
    if ops != [] {
      ApplyKeeps(s, ops[0]);
      ApplyKeepsStructure(s, ops[0]);
      ApplyKeepsSkill(s, ops[0], scope, identity);
      SoundOverRun(Apply(s, ops[0]), ops[1..], scope, identity);
    }
  }

  lemma {:induction false} NoneIsClean(s: State, ops: seq<Op>, scope: Name, identity: Name)
    requires NoFailureOf(s, ops, scope, identity)
    ensures CleanFor(s, ops, scope, identity)
    decreases |ops|
  {
    if ops != [] {
      hide Apply, FailsSkill, CleanFailure;
      NoneIsClean(Apply(s, ops[0]), ops[1..], scope, identity);
    }
  }

  lemma SafeIsClean(s: State, hash: Name)
    requires HashesUnique(s.revisions) && !FailureIgnored(s, hash)
    requires var r := RevisionByHash(s.revisions, hash).value; FallbackSafe(s, r.scope, r.identity)
    ensures CleanFailure(s, hash)
  {
    var r, target := RevisionByHash(s.revisions, hash).value, FallbackTarget(s, hash);
    if target.Some? {
      assert DemotedAt(s.revisions, target.value, r.scope, r.identity);
    }
  }

  lemma StartIsSound(scope: Name, identity: Name)
    ensures Inv(EMPTY) && Structure(EMPTY) && Sound(EMPTY, scope, identity)
  {}

  /**
   * After any run in which the earlier failures of the skill were clean, whatever claims, purges and
   * failures of other skills come between, the first failure of a skill after its activation is clean.
   */
  lemma FirstFailureIsClean(before: seq<Op>, id: JobId, hash: Name, readable: bool, ops: seq<Op>, failed: Name)
    requires !ActivateRefused(Run(EMPTY, before), id, hash)
    requires var s := Run(EMPTY, before);
      var j, t := JobById(s.jobs, id).value, Activate(s, id, hash, readable);
      && CleanFor(EMPTY, before, j.scope, j.identity) && NoFailureOf(t, ops, j.scope, j.identity)
      && FailsSkill(Run(t, ops), OpFail(failed), j.scope, j.identity)
    ensures CleanFailure(Run(Activate(Run(EMPTY, before), id, hash, readable), ops), failed)
  {
    var s := Run(EMPTY, before);
    var j, t := JobById(s.jobs, id).value, Activate(s, id, hash, readable);
    hide Inv, Structure, Sound, FallbackSafe, CleanFor, NoFailureOf, Activate, CleanFailure, Run, ActivateRefused,
      HashesUnique;
    StartIsSound(j.scope, j.identity);
    SoundOverRun(EMPTY, before, j.scope, j.identity);
    ActivateKeeps(s, id, hash, readable);
    ActivateKeepsStructure(s, id, hash, readable);
    OwnActivation(s, id, hash, readable);
    NoneIsClean(t, ops, j.scope, j.identity);
    SoundOverRun(t, ops, j.scope, j.identity);
    InvHashes(Run(t, ops));
    SafeIsClean(Run(t, ops), failed);
  }

  /** Over the same runs, the pointer of the skill always targets an active revision of it that no claim lists. */
  lemma OwnPointerIsSound(ops: seq<Op>, p: Pointer)
    requires p in Run(EMPTY, ops).pointers && CleanFor(EMPTY, ops, p.scope, p.identity)
    ensures exists r ::
      r in Run(EMPTY, ops).revisions && Targets(p, r) && r.phase == RevActive &&
      !ListedBy(Run(EMPTY, ops).claims, r.hash)
  {
    StartIsSound(p.scope, p.identity);
    SoundOverRun(EMPTY, ops, p.scope, p.identity);
    var s := Run(EMPTY, ops);
    hide Run, Inv, Structure;
    assert HasTarget(s.revisions, p);
  }
}
