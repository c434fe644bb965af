/**
 * Pointers, fallback chains and the revisions a claim forgot.
 *
 * A permanent failure falls back to the previous hash of the pointer and refills it from the
 * revision record. A claim clears pointers but not the records, so the second of two fallbacks
 * can reach a claimed revision. Runs in which no fallback does that keep the invariant below.
 */
module AutoSkillPointers {
  import opened Common
  import opened AutoSkillModel
  import opened AutoSkillEvidence

  ghost predicate SameSkill(r: Revision, q: Revision) {
    r.scope == q.scope && r.identity == q.identity
  }

  ghost predicate KeysUnique(pointers: seq<Pointer>) {
    forall i, j :: 0 <= i < j < |pointers| ==>
      !(pointers[i].scope == pointers[j].scope && pointers[i].identity == pointers[j].identity)
  }

  ghost predicate Targets(p: Pointer, r: Revision) {
    r.hash == p.active && r.scope == p.scope && r.identity == p.identity
  }

  /** The active revisions are exactly the targets of the pointers. */
  ghost predicate ActiveAreTargets(revisions: seq<Revision>, pointers: seq<Pointer>) {
    && (forall p {:trigger HasTarget(revisions, p)} :: p in pointers ==> HasTarget(revisions, p))
    && (forall r {:trigger HasPointer(pointers, r)} :: r in revisions && r.phase == RevActive ==>
      HasPointer(pointers, r))
  }

  ghost predicate HasTarget(revisions: seq<Revision>, p: Pointer) {
    exists r :: r in revisions && Targets(p, r) && r.phase == RevActive
  }

  ghost predicate HasPointer(pointers: seq<Pointer>, r: Revision) {
    exists p :: p in pointers && Targets(p, r)
  }

  /** Position `k` holds the revision `hash`, earlier than position `i`, of the same skill, once active. */
  ghost predicate Precedes(revisions: seq<Revision>, k: int, i: int, hash: Name) {
    && 0 <= k < i < |revisions|
    && revisions[k].hash == hash && SameSkill(revisions[k], revisions[i]) && revisions[k].phase != RevPrepared
  }

  /** Previous hashes strictly descend in the order of creation. */
  ghost predicate ChainsDescend(revisions: seq<Revision>) {
    forall i {:trigger HasEarlier(revisions, i)} ::
      0 <= i < |revisions| && revisions[i].previous.Some? ==> HasEarlier(revisions, i)
  }

  ghost predicate HasEarlier(revisions: seq<Revision>, i: int) {
    && 0 <= i < |revisions| && revisions[i].previous.Some?
    && exists k :: Precedes(revisions, k, i, revisions[i].previous.value)
  }

  ghost predicate PreviousAt(revisions: seq<Revision>, p: Pointer, k: int, i: int) {
    && p.previous.Some? && Precedes(revisions, k, i, p.previous.value)
    && revisions[i].hash == p.active && revisions[k].phase != RevActive
  }

  ghost predicate PreviousDescend(revisions: seq<Revision>, pointers: seq<Pointer>) {
    forall p :: p in pointers && p.previous.Some? ==> exists k, i :: PreviousAt(revisions, p, k, i)
  }

  ghost predicate ListedBy(claims: seq<Claim>, hash: Name) {
    exists c :: c in claims && hash in c.revisions
  }

  /** A revision is claimed or tombstoned exactly when some claim lists it. */
  ghost predicate ClaimsMatch(revisions: seq<Revision>, claims: seq<Claim>) {
    forall r :: r in revisions ==> (r.phase in {RevClaimed, Tombstoned} <==> ListedBy(claims, r.hash))
  }

  ghost predicate RevisionOfJob(j: Job, r: Revision) {
    j.revision == Some(r.hash) && r.job == j.id && r.scope == j.scope && r.identity == j.identity &&
      r.previous == j.base
  }

  ghost predicate JobRevisions(jobs: seq<Job>, revisions: seq<Revision>) {
    forall j :: j in jobs && j.revision.Some? ==> exists r :: r in revisions && RevisionOfJob(j, r)
  }

  ghost predicate PInv(s: State) {
    && KeysUnique(s.pointers)
    && ActiveAreTargets(s.revisions, s.pointers)
    && ChainsDescend(s.revisions)
    && PreviousDescend(s.revisions, s.pointers)
    && ClaimsMatch(s.revisions, s.claims)
    && JobRevisions(s.jobs, s.revisions)
  }

  /** What a caller can check before reporting a failure: the fallback was demoted, not claimed. */
  predicate CleanFailure(s: State, hash: Name) {
    FailureIgnored(s, hash) || FallbackTarget(s, hash).None? ||
    (var r := RevisionByHash(s.revisions, FallbackTarget(s, hash).value); r.Some? && r.value.phase == Demoted)
  }

  predicate Clean(s: State, op: Op) {
    op.OpFail? ==> CleanFailure(s, op.hash)
  }

  // ---- frames ------------------------------------------------------------------------------------

  /** Revisions that keep everything but their phase and scrubbed sources, and are never prepared anew. */
  ghost predicate RevisionsMoved(revisions: seq<Revision>, revisions': seq<Revision>) {
    && |revisions'| == |revisions|
    && (forall i :: 0 <= i < |revisions| ==>
          && revisions'[i] == revisions[i].(phase := revisions'[i].phase, sessions := revisions'[i].sessions,
            project := revisions'[i].project)
          && (revisions'[i].phase == RevPrepared ==> revisions[i].phase == RevPrepared))
  }

  lemma ChainsSurvive(revisions: seq<Revision>, revisions': seq<Revision>)
    requires ChainsDescend(revisions) && RevisionsMoved(revisions, revisions')
    ensures ChainsDescend(revisions')
  {
    forall i | 0 <= i < |revisions'| && revisions'[i].previous.Some?
      ensures HasEarlier(revisions', i)
    {
      assert HasEarlier(revisions, i);
      var k :| Precedes(revisions, k, i, revisions[i].previous.value);
      assert Precedes(revisions', k, i, revisions'[i].previous.value);
    }
  }

  lemma JobRevisionsSurvive(jobs: seq<Job>, jobs': seq<Job>, revisions: seq<Revision>, revisions': seq<Revision>)
    requires JobRevisions(jobs, revisions) && RevisionsMoved(revisions, revisions')
    requires |jobs'| == |jobs| && forall i :: 0 <= i < |jobs| ==> jobs'[i] == jobs[i].(phase := jobs'[i].phase)
    ensures JobRevisions(jobs', revisions')
  {
    forall j | j in jobs' && j.revision.Some? ensures exists r :: r in revisions' && RevisionOfJob(j, r) {
      var n :| 0 <= n < |jobs'| && jobs'[n] == j;
      assert jobs[n] in jobs;
      var i :| 0 <= i < |revisions| && RevisionOfJob(jobs[n], revisions[i]);
      assert revisions'[i] in revisions' && RevisionOfJob(j, revisions'[i]);
    }
  }

  /** Jobs that keep everything but their phase. */
  lemma JobPhasesKeep(s: State, jobs': seq<Job>)
    requires PInv(s) && |jobs'| == |s.jobs|
    requires forall i :: 0 <= i < |jobs'| ==> jobs'[i] == s.jobs[i].(phase := jobs'[i].phase)
    ensures PInv(s.(jobs := jobs'))
  {
    hide ActiveAreTargets, PreviousDescend, ClaimsMatch;
    JobRevisionsSurvive(s.jobs, jobs', s.revisions, s.revisions);
  }

  lemma JobKeyUnique(jobs: seq<Job>, job: Job, job': Job)
    requires forall i, j :: 0 <= i < j < |jobs| ==> jobs[i].id != jobs[j].id
    requires job in jobs && job' == job.(phase := job'.phase)
    ensures forall i :: 0 <= i < |jobs| ==> PutJob(jobs, job')[i] == jobs[i].(phase := PutJob(jobs, job')[i].phase)
  {}

  lemma AppendJobKeeps(s: State, j: Job)
    requires PInv(s) && j.revision.None?
    ensures PInv(s.(jobs := s.jobs + [j]))
  {}

  // ---- each operation ----------------------------------------------------------------------------

  lemma AppendKeepsChains(revisions: seq<Revision>, r: Revision)
    requires ChainsDescend(revisions)
    requires r.previous.Some? ==>
      exists q :: q in revisions && q.hash == r.previous.value && SameSkill(q, r) && q.phase != RevPrepared
    ensures ChainsDescend(revisions + [r])
  {
    var revisions' := revisions + [r];
    forall i | 0 <= i < |revisions'| && revisions'[i].previous.Some?
      ensures HasEarlier(revisions', i)
    {
      if i < |revisions| {
        assert HasEarlier(revisions, i);
        var k :| Precedes(revisions, k, i, revisions[i].previous.value);
        assert Precedes(revisions', k, i, revisions'[i].previous.value);
      } else {
        var q :| q in revisions && q.hash == r.previous.value && SameSkill(q, r) && q.phase != RevPrepared;
        var k :| 0 <= k < |revisions| && revisions[k] == q;
        assert Precedes(revisions', k, i, revisions'[i].previous.value);
      }
    }
  }

  lemma AppendKeepsPrevious(revisions: seq<Revision>, pointers: seq<Pointer>, r: Revision)
    requires PreviousDescend(revisions, pointers)
    ensures PreviousDescend(revisions + [r], pointers)
  {
    forall p | p in pointers && p.previous.Some? ensures exists k, i :: PreviousAt(revisions + [r], p, k, i) {
      var k, i :| PreviousAt(revisions, p, k, i);
      assert PreviousAt(revisions + [r], p, k, i);
    }
  }

  lemma AppendKeepsTargets(revisions: seq<Revision>, pointers: seq<Pointer>, claims: seq<Claim>, r: Revision)
    requires ActiveAreTargets(revisions, pointers) && ClaimsMatch(revisions, claims)
    requires r.phase == RevPrepared && !ListedBy(claims, r.hash)
    ensures ActiveAreTargets(revisions + [r], pointers) && ClaimsMatch(revisions + [r], claims)
  {
    forall p | p in pointers ensures HasTarget(revisions + [r], p) {
      assert HasTarget(revisions, p);
      var q :| q in revisions && Targets(p, q) && q.phase == RevActive;
      assert q in revisions + [r];
    }
  }

  lemma PrepareKeepsPointers(s: State, id: JobId, m: Manifest)
    requires Inv(s) && PInv(s)
    ensures PInv(Prepare(s, id, m))
  {
    hide EvidenceOk, JobsOk, ChainsDescend, PreviousDescend, ClaimsMatch, JobRevisions, EvidenceFor;
    if !PrepareRefused(s, id, m) {
      PrepareKeepsJobRevisions(s, id, m);
      if RevisionByHash(s.revisions, m.hash).None? {
        var job := JobById(s.jobs, id).value;
        var r := PreparedRevision(s, job, m);
        if r.previous.Some? {
          var p := PointerFor(s.pointers, job.scope, job.identity).value;
          assert HasTarget(s.revisions, p);
          var q :| q in s.revisions && Targets(p, q) && q.phase == RevActive;
          assert SameSkill(q, r);
        }
        AppendKeepsChains(s.revisions, r);
        AppendKeepsPrevious(s.revisions, s.pointers, r);
        assert !HasRevision(s.revisions, r.hash);
        AppendKeepsTargets(s.revisions, s.pointers, s.claims, r);
      }
    }
  }

  lemma PrepareKeepsJobRevisions(s: State, id: JobId, m: Manifest)
    requires Inv(s) && JobRevisions(s.jobs, s.revisions) && !PrepareRefused(s, id, m)
    ensures JobRevisions(Prepare(s, id, m).jobs, Prepare(s, id, m).revisions)
  {
    hide EvidenceOk, RevisionsOk, ReferencesOk;
    var job := JobById(s.jobs, id).value;
    var r := PreparedRevision(s, job, m);
    var t := Prepare(s, id, m);
    assert r in t.revisions;
    forall j | j in t.jobs && j.revision.Some? ensures exists q :: q in t.revisions && RevisionOfJob(j, q) {
      if j.id == id {
        assert RevisionOfJob(j, r);
      } else {
        assert j in s.jobs;
        var q :| q in s.revisions && RevisionOfJob(j, q);
        assert q in t.revisions;
      }
    }
  }

  ghost predicate HashesUnique(revisions: seq<Revision>) {
    forall i, j :: 0 <= i < j < |revisions| ==> revisions[i].hash != revisions[j].hash
  }

  lemma InvHashes(s: State)
    requires Inv(s)
    ensures HashesUnique(s.revisions)
  {}

  /** A pointer written under its key is the only one there. */
  lemma PutPointerKeeps(pointers: seq<Pointer>, p: Pointer)
    requires KeysUnique(pointers)
    ensures var r := PutPointer(pointers, p);
      && KeysUnique(r) && p in r
      && (forall q :: q in r && q != p ==> q in pointers && !(q.scope == p.scope && q.identity == p.identity))
      && (forall q :: q in pointers && !(q.scope == p.scope && q.identity == p.identity) ==> q in r)
  {
    var r := PutPointer(pointers, p);
    if PointerFor(pointers, p.scope, p.identity).Some? {
      var i :| 0 <= i < |pointers| && pointers[i] == PointerFor(pointers, p.scope, p.identity).value;
      assert r[i] == p;
      assert forall j :: 0 <= j < |pointers| && j != i ==> r[j] == pointers[j];
    } else {
      assert forall q :: q in pointers ==> !(q.scope == p.scope && q.identity == p.identity);
    }
  }

  ghost predicate OfKey(p: Pointer, r: Revision) {
    r.scope == p.scope && r.identity == p.identity
  }

  /** The pointer of one skill now targets position `a`; the active revisions of other skills stay. */
  ghost predicate Retargeted(revisions: seq<Revision>, revisions': seq<Revision>, p: Pointer, a: int) {
    && RevisionsMoved(revisions, revisions')
    && 0 <= a < |revisions| && Targets(p, revisions[a])
    && (forall i :: 0 <= i < |revisions| ==>
          (revisions'[i].phase == RevActive <==>
            i == a || (revisions[i].phase == RevActive && !OfKey(p, revisions[i]))))
  }

  lemma RetargetKeepsTargets(revisions: seq<Revision>, revisions': seq<Revision>, pointers: seq<Pointer>, p: Pointer,
      a: int)
    requires KeysUnique(pointers) && ActiveAreTargets(revisions, pointers) && Retargeted(revisions, revisions', p, a)
    ensures KeysUnique(PutPointer(pointers, p)) && ActiveAreTargets(revisions', PutPointer(pointers, p))
  {
    var pointers' := PutPointer(pointers, p);
    PutPointerKeeps(pointers, p);
    hide PutPointer, KeysUnique;
    forall q | q in pointers' ensures HasTarget(revisions', q) {
      if q == p {
        assert revisions'[a] in revisions' && Targets(p, revisions'[a]);
      } else {
        assert HasTarget(revisions, q);
        var i :| 0 <= i < |revisions| && Targets(q, revisions[i]) && revisions[i].phase == RevActive;
        assert revisions'[i] in revisions' && Targets(q, revisions'[i]);
      }
    }
    forall q | q in revisions' && q.phase == RevActive ensures HasPointer(pointers', q) {
      var i :| 0 <= i < |revisions'| && revisions'[i] == q;
      if i == a {
        assert Targets(p, q);
      } else {
        assert HasPointer(pointers, revisions[i]);
        var o :| o in pointers && Targets(o, revisions[i]);
        assert o in pointers' && Targets(o, q);
      }
    }
  }

  lemma RetargetKeepsPrevious(revisions: seq<Revision>, revisions': seq<Revision>, pointers: seq<Pointer>, p: Pointer,
      a: int, k: int)
    requires KeysUnique(pointers) && ActiveAreTargets(revisions, pointers) && Retargeted(revisions, revisions', p, a)
    requires HashesUnique(revisions) && PreviousDescend(revisions, pointers)
    requires p.previous.Some? ==> PreviousAt(revisions', p, k, a)
    ensures PreviousDescend(revisions', PutPointer(pointers, p))
  {
    PutPointerKeeps(pointers, p);
    hide PutPointer, KeysUnique;
    forall q | q in PutPointer(pointers, p) && q.previous.Some? ensures exists m, i :: PreviousAt(revisions', q, m, i) {
      if q == p {
        assert PreviousAt(revisions', p, k, a);
      } else {
        var m, i :| PreviousAt(revisions, q, m, i);
        assert HasTarget(revisions, q);
        assert !OfKey(p, revisions[m]);
        assert PreviousAt(revisions', q, m, i);
      }
    }
  }

  /** Nothing of the skill of a pointer is active but its target. */
  lemma OnlyTargetActive(revisions: seq<Revision>, pointers: seq<Pointer>, p: Pointer)
    requires KeysUnique(pointers) && ActiveAreTargets(revisions, pointers) && p in pointers
    ensures forall r :: r in revisions && OfKey(p, r) && r.phase == RevActive ==> r.hash == p.active
  {
    forall r | r in revisions && OfKey(p, r) && r.phase == RevActive ensures r.hash == p.active {
      assert HasPointer(pointers, r);
    }
  }

  /** Activation retargets the pointer of the skill, and its previous hash is the one demoted. */
  lemma ActivateRetargets(revisions: seq<Revision>, pointers: seq<Pointer>, r: Revision) returns (a: int, k: int)
    requires KeysUnique(pointers) && ActiveAreTargets(revisions, pointers) && HashesUnique(revisions) &&
      ChainsDescend(revisions)
    requires r in revisions && r.phase == RevPrepared
    requires r.previous == ActiveHash(PointerFor(pointers, r.scope, r.identity))
    ensures var p, revisions' := Pointer(r.scope, r.identity, r.hash, r.previous),
      ActivatedRevisions(revisions, r.hash, r.previous);
      Retargeted(revisions, revisions', p, a) && (p.previous.Some? ==> PreviousAt(revisions', p, k, a))
  {
    k := 0;
    a :| 0 <= a < |revisions| && revisions[a] == r;
    var p, revisions' := Pointer(r.scope, r.identity, r.hash, r.previous),
      ActivatedRevisions(revisions, r.hash, r.previous);
    var o := PointerFor(pointers, r.scope, r.identity);
    if o.Some? {
      OnlyTargetActive(revisions, pointers, o.value);
      assert HasEarlier(revisions, a);
      k :| Precedes(revisions, k, a, r.previous.value);
    } else {
      forall q | q in revisions && OfKey(p, q) ensures q.phase != RevActive {
        assert q.phase == RevActive ==> HasPointer(pointers, q);
      }
    }
  }

  lemma ClaimsSurvive(revisions: seq<Revision>, revisions': seq<Revision>, claims: seq<Claim>)
    requires ClaimsMatch(revisions, claims) && RevisionsMoved(revisions, revisions')
    requires forall i :: 0 <= i < |revisions| ==>
      (revisions'[i].phase in {RevClaimed, Tombstoned} <==> revisions[i].phase in {RevClaimed, Tombstoned})
    ensures ClaimsMatch(revisions', claims)
  {
    forall q | q in revisions' ensures q.phase in {RevClaimed, Tombstoned} <==> ListedBy(claims, q.hash) {
      var i :| 0 <= i < |revisions'| && revisions'[i] == q;
      assert revisions[i] in revisions;
    }
  }

  /** The prepared revision of a job carries the job's skill and base. */
  lemma PreparedMatches(s: State, id: JobId, hash: Name)
    requires Inv(s) && JobRevisions(s.jobs, s.revisions) && !ActivateRefused(s, id, hash)
    ensures HashesUnique(s.revisions)
    ensures forall i, j :: 0 <= i < j < |s.jobs| ==> s.jobs[i].id != s.jobs[j].id
    ensures RevisionOfJob(JobById(s.jobs, id).value, RevisionByHash(s.revisions, hash).value)
  {
    hide EvidenceOk, Backed, EvidenceGone, RevisionBacked, HasJob, ReferencesOk;
    var q :| q in s.revisions && RevisionOfJob(JobById(s.jobs, id).value, q);
  }

  lemma ActivateKeepsPointers(s: State, id: JobId, hash: Name, readable: bool)
    requires Inv(s) && PInv(s)
    ensures PInv(Activate(s, id, hash, readable))
  {
    hide Inv, KeysUnique, ActiveAreTargets, ChainsDescend, PreviousDescend, ClaimsMatch, JobRevisions,
         PointerFor, RevisionByHash, JobById, PutJob, PutPointer, ActivatedRevisions, Retargeted;
    if !ActivateRefused(s, id, hash) {
      PreparedMatches(s, id, hash);
      var job := JobById(s.jobs, id).value;
      var r := RevisionByHash(s.revisions, hash).value;
      JobKeyUnique(s.jobs, job, job.(phase := JobActive));
      var revisions' := ActivatedRevisions(s.revisions, hash, r.previous);
      assert RevisionsMoved(s.revisions, revisions');
      ChainsSurvive(s.revisions, revisions');
      ClaimsSurvive(s.revisions, revisions', s.claims);
      JobRevisionsSurvive(s.jobs, PutJob(s.jobs, job.(phase := JobActive)), s.revisions, revisions');
      var p := Pointer(r.scope, r.identity, r.hash, r.previous);
      var a, k := ActivateRetargets(s.revisions, s.pointers, r);
      RetargetKeepsTargets(s.revisions, revisions', s.pointers, p, a);
      RetargetKeepsPrevious(s.revisions, revisions', s.pointers, p, a, k);
    }
  }

  /** A clean failure retargets the pointer to the demoted revision it named. */
  lemma FallbackRetargets(revisions: seq<Revision>, pointers: seq<Pointer>, p: Pointer, t: Revision)
      returns (a: int, k: int)
    requires KeysUnique(pointers) && ActiveAreTargets(revisions, pointers) && HashesUnique(revisions)
    requires ChainsDescend(revisions) && PreviousDescend(revisions, pointers)
    requires p in pointers && p.previous == Some(t.hash) && t in revisions && t.phase == Demoted
    ensures var p', revisions' := Pointer(p.scope, p.identity, t.hash, t.previous),
      FallenBack(revisions, p.active, t.hash);
      Retargeted(revisions, revisions', p', a) && (p'.previous.Some? ==> PreviousAt(revisions', p', k, a))
  {
    k := 0;
    OnlyTargetActive(revisions, pointers, p);
    var m, n :| PreviousAt(revisions, p, m, n);
    assert HasTarget(revisions, p);
    hide KeysUnique, ActiveAreTargets, PreviousDescend;
    a := m;
    assert revisions[a] == t;
    if t.previous.Some? {
      assert HasEarlier(revisions, a);
      k :| Precedes(revisions, k, a, t.previous.value);
    }
    hide ChainsDescend;
    FallenBackAt(revisions, p.active, t.hash);
  }

  lemma FallenBackAt(revisions: seq<Revision>, from: Name, to: Name)
    ensures var q := FallenBack(revisions, from, to);
      |q| == |revisions| && forall i :: 0 <= i < |q| ==>
        q[i] == revisions[i].(phase := if revisions[i].hash == to then RevActive
                                       else if revisions[i].hash == from then Demoted else revisions[i].phase)
  {}

  function FallenBack(revisions: seq<Revision>, from: Name, to: Name): (q: seq<Revision>) {
    SetRevisionPhase(SetRevisionPhase(revisions, from, Demoted), to, RevActive)
  }

  function WithoutKey(pointers: seq<Pointer>, p: Pointer): (r: seq<Pointer>)
    ensures forall q :: q in r <==> q in pointers && !(q.scope == p.scope && q.identity == p.identity)
  {
    Filter(pointers, (q: Pointer) => !(q.scope == p.scope && q.identity == p.identity))
  }

  lemma RemovedKeepsTargets(revisions: seq<Revision>, pointers: seq<Pointer>, p: Pointer)
    requires KeysUnique(pointers) && ActiveAreTargets(revisions, pointers) && p in pointers
    requires HashesUnique(revisions)
    ensures ActiveAreTargets(SetRevisionPhase(revisions, p.active, Demoted), WithoutKey(pointers, p))
  {
    OnlyTargetActive(revisions, pointers, p);
    assert HasTarget(revisions, p);
    hide KeysUnique, SetRevisionPhase, WithoutKey;
    var pointers', revisions' := WithoutKey(pointers, p), SetRevisionPhase(revisions, p.active, Demoted);
    forall q | q in pointers' ensures HasTarget(revisions', q) {
      assert HasTarget(revisions, q);
      var i :| 0 <= i < |revisions| && Targets(q, revisions[i]) && revisions[i].phase == RevActive;
      assert revisions'[i] == revisions[i] && revisions'[i] in revisions';
    }
    forall q | q in revisions' && q.phase == RevActive ensures HasPointer(pointers', q) {
      var i :| 0 <= i < |revisions'| && revisions'[i] == q;
      assert revisions[i] == q && HasPointer(pointers, q);
    }
  }

  lemma RemovedKeepsOthers(revisions: seq<Revision>, pointers: seq<Pointer>, p: Pointer)
    requires KeysUnique(pointers) && PreviousDescend(revisions, pointers)
    ensures KeysUnique(WithoutKey(pointers, p))
    ensures PreviousDescend(SetRevisionPhase(revisions, p.active, Demoted), WithoutKey(pointers, p))
  {
    FilterKeepsPairs(pointers, (q: Pointer) => !(q.scope == p.scope && q.identity == p.identity),
                     (x: Pointer, y: Pointer) => !(x.scope == y.scope && x.identity == y.identity));
    var revisions' := SetRevisionPhase(revisions, p.active, Demoted);
    forall q | q in WithoutKey(pointers, p) && q.previous.Some? ensures exists k, i :: PreviousAt(revisions', q, k, i) {
      var k, i :| PreviousAt(revisions, q, k, i);
      assert PreviousAt(revisions', q, k, i);
    }
  }

  lemma FallbackKeepsPointers(s: State, hash: Name)
    requires HashesUnique(s.revisions) && PInv(s)
    requires !FailureIgnored(s, hash) && CleanFailure(s, hash) && FallbackTarget(s, hash).Some?
    ensures PInv(PermanentFailure(s, hash))
  {
    hide KeysUnique, ActiveAreTargets, ChainsDescend, PreviousDescend, ClaimsMatch, JobRevisions, Filter, Retargeted,
      PointerFor, RevisionByHash, SetRevisionPhase, PutPointer;
    var r := RevisionByHash(s.revisions, hash).value;
    var p := PointerFor(s.pointers, r.scope, r.identity).value;
    var t := RevisionByHash(s.revisions, p.previous.value).value;
    var revisions' := FallenBack(s.revisions, hash, t.hash);
    assert RevisionsMoved(s.revisions, revisions');
    ChainsSurvive(s.revisions, revisions');
    ClaimsSurvive(s.revisions, revisions', s.claims);
    JobRevisionsSurvive(s.jobs, s.jobs, s.revisions, revisions');
    var a, k := FallbackRetargets(s.revisions, s.pointers, p, t);
    var p' := Pointer(p.scope, p.identity, t.hash, t.previous);
    RetargetKeepsTargets(s.revisions, revisions', s.pointers, p', a);
    RetargetKeepsPrevious(s.revisions, revisions', s.pointers, p', a, k);
    var fallback := RevisionByHash(SetRevisionPhase(s.revisions, hash, Demoted), t.hash);
    assert t in SetRevisionPhase(s.revisions, hash, Demoted);
    assert fallback == Some(t);
  }

  lemma FailureKeepsPointers(s: State, hash: Name)
    requires HashesUnique(s.revisions) && PInv(s) && CleanFailure(s, hash)
    ensures PInv(PermanentFailure(s, hash))
  {
    if !FailureIgnored(s, hash) {
      if FallbackTarget(s, hash).Some? {
        FallbackKeepsPointers(s, hash);
      } else {
        hide KeysUnique, ActiveAreTargets, ChainsDescend, PreviousDescend, ClaimsMatch, JobRevisions;
        var r := RevisionByHash(s.revisions, hash).value;
        var revisions' := SetRevisionPhase(s.revisions, hash, Demoted);
        assert RevisionsMoved(s.revisions, revisions');
        ChainsSurvive(s.revisions, revisions');
        ClaimsSurvive(s.revisions, revisions', s.claims);
        JobRevisionsSurvive(s.jobs, s.jobs, s.revisions, revisions');
        var p := PointerFor(s.pointers, r.scope, r.identity).value;
        RemovedKeepsTargets(s.revisions, s.pointers, p);
        RemovedKeepsOthers(s.revisions, s.pointers, p);
      }
    }
  }

  function ClaimRevisions(revisions: seq<Revision>, hashes: set<Name>): (q: seq<Revision>) {
    UpdateIf(revisions, (r: Revision) => r.hash in hashes, (r: Revision) => r.(phase := RevClaimed))
  }

  /** Where the surviving pointers come from. */
  lemma DroppedFrom(pointers: seq<Pointer>, hashes: set<Name>)
    requires KeysUnique(pointers)
    ensures var r := DropHashes(pointers, hashes);
      && KeysUnique(r)
      && (forall q {:trigger ComesFrom(pointers, hashes, q)} :: q in r ==> ComesFrom(pointers, hashes, q))
      && (forall p {:trigger LeadsTo(r, hashes, p)} :: p in pointers && p.active !in hashes ==> LeadsTo(r, hashes, p))
  {
    var kept := Filter(pointers, (p: Pointer) => p.active !in hashes);
    FilterKeepsPairs(pointers, (p: Pointer) => p.active !in hashes,
      (x: Pointer, y: Pointer) => !(x.scope == y.scope && x.identity == y.identity));
    var r := DropHashes(pointers, hashes);
    forall q | q in r ensures ComesFrom(pointers, hashes, q) {
      var i :| 0 <= i < |r| && r[i] == q;
      assert kept[i] in kept && Stripped(kept[i], hashes, q);
    }
    forall p | p in pointers && p.active !in hashes ensures LeadsTo(r, hashes, p) {
      var i :| 0 <= i < |kept| && kept[i] == p;
      assert r[i] in r && Stripped(p, hashes, r[i]);
    }
  }

  ghost predicate ComesFrom(pointers: seq<Pointer>, hashes: set<Name>, q: Pointer) {
    exists p :: p in pointers && p.active !in hashes && Stripped(p, hashes, q)
  }

  ghost predicate LeadsTo(pointers': seq<Pointer>, hashes: set<Name>, p: Pointer) {
    exists q :: q in pointers' && Stripped(p, hashes, q)
  }

  ghost predicate Stripped(p: Pointer, hashes: set<Name>, q: Pointer) {
    q == if p.previous.Some? && p.previous.value in hashes then p.(previous := None) else p
  }

  lemma ClaimKeepsTargets(revisions: seq<Revision>, pointers: seq<Pointer>, hashes: set<Name>)
    requires KeysUnique(pointers) && ActiveAreTargets(revisions, pointers)
    ensures KeysUnique(DropHashes(pointers, hashes))
    ensures ActiveAreTargets(ClaimRevisions(revisions, hashes), DropHashes(pointers, hashes))
  {
    var pointers', revisions' := DropHashes(pointers, hashes), ClaimRevisions(revisions, hashes);
    DroppedFrom(pointers, hashes);
    hide DropHashes, KeysUnique;
    forall q | q in pointers' ensures HasTarget(revisions', q) {
      assert ComesFrom(pointers, hashes, q);
      var p :| p in pointers && p.active !in hashes && Stripped(p, hashes, q);
      assert HasTarget(revisions, p);
      var i :| 0 <= i < |revisions| && Targets(p, revisions[i]) && revisions[i].phase == RevActive;
      assert revisions'[i] == revisions[i] && revisions'[i] in revisions' && Targets(q, revisions'[i]);
    }
    forall r | r in revisions' && r.phase == RevActive ensures HasPointer(pointers', r) {
      var i :| 0 <= i < |revisions'| && revisions'[i] == r;
      assert revisions[i] == r && HasPointer(pointers, r);
      var p :| p in pointers && Targets(p, r);
      assert LeadsTo(pointers', hashes, p);
      var q :| q in pointers' && Stripped(p, hashes, q);
      assert Targets(q, r);
    }
  }

  lemma ClaimKeepsPrevious(revisions: seq<Revision>, pointers: seq<Pointer>, hashes: set<Name>)
    requires KeysUnique(pointers) && PreviousDescend(revisions, pointers)
    ensures PreviousDescend(ClaimRevisions(revisions, hashes), DropHashes(pointers, hashes))
  {
    DroppedFrom(pointers, hashes);
    forall q | q in DropHashes(pointers, hashes) && q.previous.Some?
      ensures exists k, i :: PreviousAt(ClaimRevisions(revisions, hashes), q, k, i)
    {
      assert ComesFrom(pointers, hashes, q);
      var p :| p in pointers && p.active !in hashes && Stripped(p, hashes, q);
      var k, i :| PreviousAt(revisions, p, k, i);
      assert PreviousAt(ClaimRevisions(revisions, hashes), q, k, i);
    }
  }

  lemma NewClaimMatches(s: State, kind: SourceKind, source: Name)
    requires HashesUnique(s.revisions) && ClaimsMatch(s.revisions, s.claims)
    ensures var c := NewClaim(s, kind, source); ClaimsMatch(ClaimRevisions(s.revisions, c.revisions), s.claims + [c])
  {
    var c := NewClaim(s, kind, source);
    var claims' := s.claims + [c];
    var revisions' := ClaimRevisions(s.revisions, c.revisions);
    forall r | r in revisions' ensures r.phase in {RevClaimed, Tombstoned} <==> ListedBy(claims', r.hash) {
      var i :| 0 <= i < |revisions'| && revisions'[i] == r;
      assert s.revisions[i] in s.revisions;
      assert c in claims' && forall d :: d in s.claims ==> d in claims';
      assert ListedBy(claims', r.hash) <==> r.hash in c.revisions || ListedBy(s.claims, r.hash);
    }
  }

  lemma ClaimKeepsPointers(s: State, kind: SourceKind, source: Name)
    requires HashesUnique(s.revisions) && PInv(s)
    ensures PInv(ClaimBySource(s, kind, source))
  {
    hide KeysUnique, ActiveAreTargets, ChainsDescend, PreviousDescend, ClaimsMatch, JobRevisions, NewClaim,
      AffectedJobs, DropHashes, Filter;
    if !PendingClaim(s, kind, source) {
      var c := NewClaim(s, kind, source);
      var t := ClaimBySource(s, kind, source);
      assert t.revisions == ClaimRevisions(s.revisions, c.revisions);
      assert RevisionsMoved(s.revisions, t.revisions);
      ChainsSurvive(s.revisions, t.revisions);
      JobRevisionsSurvive(s.jobs, t.jobs, s.revisions, t.revisions);
      ClaimKeepsTargets(s.revisions, s.pointers, c.revisions);
      ClaimKeepsPrevious(s.revisions, s.pointers, c.revisions);
      NewClaimMatches(s, kind, source);
    }
  }

  lemma ClaimPhasesKeepListing(claims: seq<Claim>, claims': seq<Claim>, hash: Name)
    requires ClaimsMoved(claims, claims')
    ensures ListedBy(claims, hash) <==> ListedBy(claims', hash)
  {
    if i :| 0 <= i < |claims| && hash in claims[i].revisions {
      assert claims[i] in claims && claims'[i] in claims';
    }
  }

  lemma ClaimPhasesKeepPointers(s: State, claims': seq<Claim>)
    requires PInv(s) && ClaimsMoved(s.claims, claims')
    ensures PInv(s.(claims := claims'))
  {
    forall r | r in s.revisions ensures r.phase in {RevClaimed, Tombstoned} <==> ListedBy(claims', r.hash) {
      ClaimPhasesKeepListing(s.claims, claims', r.hash);
    }
  }

  lemma PurgeKeepsPointers(s: State, id: ClaimId)
    requires HashesUnique(s.revisions) && PInv(s) && PurgeReady(s, id)
    ensures PInv(PurgeFinish(s, id))
  {
    var c := ClaimById(s.claims, id).value;
    var revisions' := UpdateIf(s.revisions, (r: Revision) => r.hash in c.revisions, Tombstone);
    forall i | 0 <= i < |s.revisions|
      ensures revisions'[i] == s.revisions[i] || (s.revisions[i].phase in {RevClaimed, Tombstoned} &&
        revisions'[i] == Tombstone(s.revisions[i]))
    {
      assert s.revisions[i] in s.revisions;
      assert s.revisions[i].hash in c.revisions ==> ListedBy(s.claims, s.revisions[i].hash);
    }
    TombstoningKeepsPointers(s, revisions');
    ClaimPhases(s.claims, id, ClaimTombstoned);
    ClaimPhasesKeepPointers(s.(revisions := revisions'), SetClaimPhase(s.claims, id, ClaimTombstoned));
  }

  lemma TombstoningKeepsPointers(s: State, revisions': seq<Revision>)
    requires PInv(s) && |revisions'| == |s.revisions|
    requires forall i :: 0 <= i < |s.revisions| ==>
      revisions'[i] == s.revisions[i] || (s.revisions[i].phase in {RevClaimed, Tombstoned} &&
        revisions'[i] == Tombstone(s.revisions[i]))
    ensures PInv(s.(revisions := revisions'))
  {
    hide KeysUnique, ChainsDescend, JobRevisions, ClaimsMatch;
    assert RevisionsMoved(s.revisions, revisions');
    ChainsSurvive(s.revisions, revisions');
    JobRevisionsSurvive(s.jobs, s.jobs, s.revisions, revisions');
    ClaimsSurvive(s.revisions, revisions', s.claims);
    forall p | p in s.pointers ensures HasTarget(revisions', p) {
      assert HasTarget(s.revisions, p);
      var i :| 0 <= i < |s.revisions| && Targets(p, s.revisions[i]) && s.revisions[i].phase == RevActive;
      assert revisions'[i] in revisions';
    }
    forall r | r in revisions' && r.phase == RevActive ensures HasPointer(s.pointers, r) {
      assert r in s.revisions;
    }
    forall p | p in s.pointers && p.previous.Some? ensures exists k, i :: PreviousAt(revisions', p, k, i) {
      var k, i :| PreviousAt(s.revisions, p, k, i);
      assert PreviousAt(revisions', p, k, i);
    }
  }

  // ---- runs ----------------------------------------------------------------------------------------

  lemma ApplyKeepsPointers(s: State, op: Op)
    requires Inv(s) && PInv(s) && Clean(s, op)
    ensures PInv(Apply(s, op))
  {
    hide EvidenceOk, JobsOk, ReferencesOk, KeysUnique, ActiveAreTargets, ChainsDescend, PreviousDescend, ClaimsMatch,
      JobRevisions;
    assert HashesUnique(s.revisions);
    match op
    case OpStage(e) =>
    case OpConfirm(id, session, turn) => ConfirmKeepsPointers(s, id, session, turn);
    case OpAdvance(job, step) => JobStepKeepsPointers(s, op);
    case OpQuarantine(job) => JobStepKeepsPointers(s, op);
    case OpPrepare(job, m) => PrepareKeepsPointers(s, job, m);
    case OpActivate(job, hash, readable) => ActivateKeepsPointers(s, job, hash, readable);
    case OpFail(hash) => FailureKeepsPointers(s, hash);
    case OpClaim(kind, source) => ClaimKeepsPointers(s, kind, source);
    case OpPurgeBegin(id) =>
      if Apply(s, op) != s {
        ClaimPhases(s.claims, id, Purging);
        ClaimPhasesKeepPointers(s, SetClaimPhase(s.claims, id, Purging));
      }
    case OpPurgeFinish(id) =>
      if PurgeReady(s, id) {
        PurgeKeepsPointers(s, id);
      }
    case OpNotification(revision, from, to) =>
    case OpReopen =>
  }

  lemma ConfirmKeepsPointers(s: State, id: Name, session: Name, turn: Name)
    requires PInv(s)
    ensures PInv(ConfirmReply(s, id, session, turn))
  {
    var t := ConfirmReply(s, id, session, turn);
    if |t.jobs| > |s.jobs| {
      AppendJobKeeps(s, t.jobs[|s.jobs|]);
    }
  }

  lemma JobStepKeepsPointers(s: State, op: Op)
    requires Inv(s) && PInv(s) && (op.OpAdvance? || op.OpQuarantine?)
    ensures PInv(Apply(s, op))
  {
    hide EvidenceOk, RevisionsOk, ReferencesOk, KeysUnique, ActiveAreTargets, ChainsDescend, PreviousDescend,
      ClaimsMatch, JobRevisions;
    var t := Apply(s, op);
    if t != s {
      var job := JobById(s.jobs, op.job).value;
      JobKeyUnique(s.jobs, job, job.(phase := if op.OpAdvance? then Next(op.step) else Quarantined));
      JobPhasesKeep(s, t.jobs);
    }
  }

  /** No failure in the run falls back to a claimed revision. */
  predicate CleanRun(s: State, ops: seq<Op>)
    decreases |ops|
  {
    ops != [] ==> Clean(s, ops[0]) && CleanRun(Apply(s, ops[0]), ops[1..])
  }

  lemma {:induction false} CleanRunKeeps(s: State, ops: seq<Op>)
    requires Inv(s) && PInv(s) && CleanRun(s, ops)
    ensures Inv(Run(s, ops)) && PInv(Run(s, ops))
    decreases |ops|
  {
    hide Inv, PInv, Clean, Apply;
    if ops != [] {
      ApplyKeeps(s, ops[0]);
      ApplyKeepsPointers(s, ops[0]);
      CleanRunKeeps(Apply(s, ops[0]), ops[1..]);
    }
  }

  /**
   * In every clean run the active revisions are exactly the pointer targets, each skill has at most
   * one, and previous hashes strictly descend in the order in which revisions were created.
   */
  lemma PointersOverCleanRuns(ops: seq<Op>)
    requires CleanRun(EMPTY, ops)
    ensures var s := Run(EMPTY, ops);
      && (forall r :: r in s.revisions ==> (r.phase == RevActive <==> HasPointer(s.pointers, r)))
      && (forall r, q ::
            r in s.revisions && q in s.revisions && r.phase == RevActive && q.phase == RevActive && SameSkill(r, q)
            ==> r == q)
      && (forall i :: 0 <= i < |s.revisions| && s.revisions[i].previous.Some? ==>
            exists k :: 0 <= k < i && Some(s.revisions[k].hash) == s.revisions[i].previous &&
              SameSkill(s.revisions[k], s.revisions[i]))
  {
    assert Inv(EMPTY) && PInv(EMPTY);
    hide Inv, ClaimsMatch, JobRevisions, PreviousDescend;
    CleanRunKeeps(EMPTY, ops);
    var s := Run(EMPTY, ops);
    InvHashes(s);
    forall r | r in s.revisions && HasPointer(s.pointers, r) ensures r.phase == RevActive {
      var p :| p in s.pointers && Targets(p, r);
      assert HasTarget(s.revisions, p);
    }
    forall r, q | r in s.revisions && q in s.revisions && r.phase == RevActive && q.phase == RevActive &&
      SameSkill(r, q) ensures r == q {
      assert HasPointer(s.pointers, r) && HasPointer(s.pointers, q);
    }
    forall i | 0 <= i < |s.revisions| && s.revisions[i].previous.Some?
      ensures exists k ::
        0 <= k < i && Some(s.revisions[k].hash) == s.revisions[i].previous && SameSkill(s.revisions[k], s.revisions[i])
    {
      assert HasEarlier(s.revisions, i);
      var k :| Precedes(s.revisions, k, i, s.revisions[i].previous.value);
    }
  }

  /** The failing family, exactly: a failure breaks the invariant if and only if its fallback was claimed. */
  lemma FailureKeepsExactly(s: State, hash: Name)
    requires Inv(s) && PInv(s)
    ensures PInv(PermanentFailure(s, hash)) <==> CleanFailure(s, hash)
  {
    hide Inv, KeysUnique, ActiveAreTargets, ChainsDescend, JobRevisions;
    InvHashes(s);
    if CleanFailure(s, hash) {
      FailureKeepsPointers(s, hash);
    } else {
      var r := RevisionByHash(s.revisions, hash).value;
      var p := PointerFor(s.pointers, r.scope, r.identity).value;
      var k, i :| PreviousAt(s.revisions, p, k, i);
      var t := s.revisions[k];
      assert t in s.revisions && RevisionByHash(s.revisions, t.hash) == Some(t);
      assert ListedBy(s.claims, t.hash);
      var revisions' := PermanentFailure(s, hash).revisions;
      assert revisions' == FallenBack(s.revisions, hash, t.hash);
      assert revisions'[k].phase == RevActive && revisions'[k] in revisions';
    }
  }
}
