/**
 * What every operation of the auto-skill store keeps about evidence, jobs and claims, and the
 * referential integrity that `validState` checks when a store is opened.
 */
module AutoSkillEvidence {
  import opened Common
  import opened AutoSkillModel

  // ---- the invariant -------------------------------------------------------------------------

  /** Forgetting sticks: a claimed identifier, or a source with a pending claim, has no usable record. */
  ghost predicate EvidenceOk(evidence: seq<EvidenceRecord>, claims: seq<Claim>) {
    && (forall i, j :: 0 <= i < j < |evidence| ==> evidence[i].value.id != evidence[j].value.id)
    && (forall e, c :: e in evidence && c in claims && e.value.id in c.evidence ==> e.status == EvidenceClaimed)
    && (forall e, c ::
          e in evidence && c in claims && c.phase != ClaimTombstoned && FromSource(c.kind, c.source, e.value)
          ==> e.status == EvidenceClaimed)
  }

  /** `a` and `b` are the two live records of `j`, from two sessions, of the workflow of `j`. */
  ghost predicate Backs(evidence: seq<EvidenceRecord>, j: Job, a: EvidenceRecord, b: EvidenceRecord) {
    && a in evidence && b in evidence && a.status.Live? && b.status.Live?
    && a.value.id == j.first && b.value.id == j.second
    && a.value.session != b.value.session
    && JobOfWorkflow(j, a.value) && JobOfWorkflow(j, b.value)
  }

  ghost predicate Backed(evidence: seq<EvidenceRecord>, j: Job) {
    exists a, b :: Backs(evidence, j, a, b)
  }

  ghost predicate SameWork(j: Job, k: Job) {
    j.scope == k.scope && j.identity == k.identity && j.fingerprint == k.fingerprint
  }

  ghost predicate JobsOk(evidence: seq<EvidenceRecord>, jobs: seq<Job>, claims: seq<Claim>) {
    && (forall i, j :: 0 <= i < j < |jobs| ==> jobs[i].id != jobs[j].id)
    && (forall j :: j in jobs ==> j.id == JobId(j.scope, j.identity, j.first, j.second))
    && (forall j :: j in jobs && j.phase != Forgotten ==> Backed(evidence, j))
    && (forall j, k :: j in jobs && k in jobs && j.phase != Forgotten && k.phase != Forgotten && SameWork(j, k) ==>
      j == k)
    && (forall j :: j in jobs && j.phase == Forgotten ==> EvidenceGone(claims, j))
  }

  ghost predicate EvidenceGone(claims: seq<Claim>, j: Job) {
    exists c :: c in claims && j.first in c.evidence && j.second in c.evidence
  }

  ghost predicate SourcesOf(r: Revision, a: EvidenceRecord, b: EvidenceRecord) {
    r.sessions == (Plain(a.value.session), Plain(b.value.session)) && r.project == Plain(a.value.project)
  }

  ghost predicate RevisionBacked(evidence: seq<EvidenceRecord>, j: Job, r: Revision) {
    && r.phase !in {RevClaimed, Tombstoned}
    && exists a, b :: Backs(evidence, j, a, b) && SourcesOf(r, a, b)
  }

  ghost predicate HasRevision(revisions: seq<Revision>, hash: Name) {
    exists r :: r in revisions && r.hash == hash
  }

  ghost predicate HasJob(jobs: seq<Job>, r: Revision) {
    exists j :: j in jobs && j.id == r.job && j.scope == r.scope && j.identity == r.identity
  }

  ghost predicate RevisionsOk(evidence: seq<EvidenceRecord>, jobs: seq<Job>, revisions: seq<Revision>,
      claims: seq<Claim>) {
    && (forall i, j :: 0 <= i < j < |revisions| ==> revisions[i].hash != revisions[j].hash)
    && (forall r :: r in revisions ==> HasJob(jobs, r))
    && (forall r, j ::
          r in revisions && j in jobs && j.id == r.job && j.phase != Forgotten ==> RevisionBacked(evidence, j, r))
    && (forall c, h :: c in claims && h in c.revisions ==> HasRevision(revisions, h))
    && (forall c, r, j ::
          c in claims && r in revisions && r.hash in c.revisions && j in jobs && j.id == r.job
          ==> j.phase == Forgotten)
  }

  ghost predicate ReferencesOk(revisions: seq<Revision>, pointers: seq<Pointer>, notifications: seq<Notification>) {
    && (forall r {:trigger HasRevision(revisions, r.previous.value)} ::
          r in revisions && r.previous.Some? ==> HasRevision(revisions, r.previous.value))
    && (forall p :: p in pointers ==> HasRevision(revisions, p.active))
    && (forall p :: p in pointers && p.previous.Some? ==> HasRevision(revisions, p.previous.value))
    && (forall n :: n in notifications ==> HasRevision(revisions, n.revision))
  }

  ghost predicate Inv(s: State) {
    && EvidenceOk(s.evidence, s.claims)
    && JobsOk(s.evidence, s.jobs, s.claims)
    && RevisionsOk(s.evidence, s.jobs, s.revisions, s.claims)
    && ReferencesOk(s.revisions, s.pointers, s.notifications)
  }

  // ---- frame lemmas ---------------------------------------------------------------------------

  /** The records of a job keep backing it when they survive in the new evidence. */
  lemma BackingSurvives(evidence: seq<EvidenceRecord>, evidence': seq<EvidenceRecord>, j: Job)
    requires Backed(evidence, j)
    requires forall e :: e in evidence && e.status.Live? && (e.value.id == j.first || e.value.id == j.second) ==>
      e in evidence'
    ensures Backed(evidence', j)
    ensures forall r :: RevisionBacked(evidence, j, r) ==> RevisionBacked(evidence', j, r)
  {
    var a, b :| Backs(evidence, j, a, b);
    assert Backs(evidence', j, a, b);
    forall r | RevisionBacked(evidence, j, r) ensures RevisionBacked(evidence', j, r) {
      var c, d :| Backs(evidence, j, c, d) && SourcesOf(r, c, d);
      assert Backs(evidence', j, c, d);
    }
  }

  /** New evidence that keeps the live records of every remembered job. */
  lemma EvidenceChange(s: State, evidence': seq<EvidenceRecord>)
    requires Inv(s) && EvidenceOk(evidence', s.claims)
    requires forall e :: e in s.evidence && e.status.Live? ==> e in evidence'
    ensures Inv(s.(evidence := evidence'))
  {
    forall j | j in s.jobs && j.phase != Forgotten
      ensures Backed(evidence', j) && forall r :: RevisionBacked(s.evidence, j, r) ==> RevisionBacked(evidence', j, r)
    {
      BackingSurvives(s.evidence, evidence', j);
    }
  }

  /** A job may move between phases other than `Forgotten`. */
  lemma JobPhaseChange(s: State, job: Job, job': Job)
    requires Inv(s) && job in s.jobs
    requires job.phase != Forgotten && job'.phase != Forgotten
    requires job' == job.(phase := job'.phase, revision := job'.revision)
    ensures Inv(s.(jobs := PutJob(s.jobs, job')))
  {
    hide EvidenceOk, ReferencesOk;
    var jobs' := PutJob(s.jobs, job');
    forall i | 0 <= i < |jobs'|
      ensures jobs'[i].id == s.jobs[i].id
      ensures jobs'[i] == if s.jobs[i] == job then job' else s.jobs[i]
    {}
    assert forall a, b, e :: Backs(e, job, a, b) ==> Backs(e, job', a, b);
    assert Backed(s.evidence, job) ==> Backed(s.evidence, job');
    forall r | r in s.revisions ensures HasJob(jobs', r) {
      var i :| 0 <= i < |s.jobs| && s.jobs[i].id == r.job && s.jobs[i].scope == r.scope &&
        s.jobs[i].identity == r.identity;
      assert jobs'[i] in jobs';
    }
    forall r | RevisionBacked(s.evidence, job, r) ensures RevisionBacked(s.evidence, job', r) {
      var c, d :| Backs(s.evidence, job, c, d) && SourcesOf(r, c, d);
      assert Backs(s.evidence, job', c, d);
    }
  }

  /** Revisions may be activated and demoted; nothing else about them changes. */
  lemma RevisionPhaseChange(s: State, revisions': seq<Revision>)
    requires Inv(s) && PhasesMoved(s.revisions, revisions')
    ensures Inv(s.(revisions := revisions'))
    ensures forall h :: HasRevision(s.revisions, h) ==> HasRevision(revisions', h)
  {
    forall h | HasRevision(s.revisions, h) ensures HasRevision(revisions', h) {
      var i :| 0 <= i < |s.revisions| && s.revisions[i].hash == h;
      assert revisions'[i] in revisions';
    }
    forall r | r in revisions' ensures HasJob(s.jobs, r) {
      var i :| 0 <= i < |revisions'| && revisions'[i] == r;
      assert HasJob(s.jobs, s.revisions[i]);
    }
    forall r, j | r in revisions' && j in s.jobs && j.id == r.job && j.phase != Forgotten
      ensures RevisionBacked(s.evidence, j, r)
    {
      var i :| 0 <= i < |revisions'| && revisions'[i] == r;
      assert RevisionBacked(s.evidence, j, s.revisions[i]);
      var a, b :| Backs(s.evidence, j, a, b) && SourcesOf(s.revisions[i], a, b);
      assert SourcesOf(r, a, b);
    }
  }

  // ---- every operation keeps the invariant ----------------------------------------------------

  lemma StageKeeps(s: State, e: Evidence)
    requires Inv(s)
    ensures Inv(Stage(s, e))
  {
    if !StageRefused(s, e) {
      EvidenceChange(s, s.evidence + [EvidenceRecord(e, PendingReply)]);
    }
  }

  /** What the scan selects: live records of the workflow, from pairwise distinct sessions. */
  lemma {:induction false} IndependentSelects(evidence: seq<EvidenceRecord>, e: Evidence, seen: set<Name>)
    ensures var r := Independent(evidence, e, seen);
      && (forall x :: x in r ==>
        x in evidence && x.status.Live? && SameWorkflow(x.value, e) && x.value.session !in seen)
      && (forall i, j :: 0 <= i < j < |r| ==> r[i].value.session != r[j].value.session)
  {
    if evidence != [] {
      var h := evidence[0];
      if h.status.Live? && SameWorkflow(h.value, e) && h.value.session !in seen {
        IndependentSelects(evidence[1..], e, seen + {h.value.session});
      } else {
        IndependentSelects(evidence[1..], e, seen);
      }
    }
  }

  ghost predicate Selectable(x: EvidenceRecord, e: Evidence) {
    x.status.Live? && SameWorkflow(x.value, e)
  }

  ghost predicate HasSession(r: seq<EvidenceRecord>, session: Name) {
    exists y :: y in r && y.value.session == session
  }

  /** The scan misses no session. */
  lemma {:induction false} IndependentComplete(evidence: seq<EvidenceRecord>, e: Evidence, seen: set<Name>,
      x: EvidenceRecord)
    requires x in evidence && Selectable(x, e) && x.value.session !in seen
    ensures HasSession(Independent(evidence, e, seen), x.value.session)
  {
    var h := evidence[0];
    var picked := Selectable(h, e) && h.value.session !in seen;
    var rest := Independent(evidence[1..], e, if picked then seen + {h.value.session} else seen);
    assert Independent(evidence, e, seen) == if picked then [h] + rest else rest;
    if picked && h.value.session == x.value.session {
      assert ([h] + rest)[0] == h;
    } else {
      assert x != h;
      IndependentComplete(evidence[1..], e, if picked then seen + {h.value.session} else seen, x);
      var y :| y in rest && y.value.session == x.value.session;
      assert y in [h] + rest;
    }
  }

  ghost predicate TwoSessions(evidence: seq<EvidenceRecord>, e: Evidence) {
    exists x, y :: x in evidence && y in evidence && Selectable(x, e) && Selectable(y, e) &&
      x.value.session != y.value.session
  }

  /** A job is queued exactly when the workflow has live records from two sessions and no remembered job. */
  lemma QueuedExactly(s: State, e: Evidence)
    ensures |ConfirmEvidence(s, e).jobs| == |s.jobs| + 1 <==>
      TwoSessions(s.evidence, e) && forall j :: j in s.jobs && JobOfWorkflow(j, e) ==> j.phase == Forgotten
  {
    var r := Independent(s.evidence, e, {});
    IndependentSelects(s.evidence, e, {});
    if |r| >= 2 {
      assert r[0] in r && r[1] in r;
    }
    if TwoSessions(s.evidence, e) {
      var x, y :| x in s.evidence && y in s.evidence && Selectable(x, e) && Selectable(y, e) &&
        x.value.session != y.value.session;
      IndependentComplete(s.evidence, e, {}, x);
      IndependentComplete(s.evidence, e, {}, y);
      hide Independent;
      var i :| 0 <= i < |r| && r[i].value.session == x.value.session;
      var j :| 0 <= j < |r| && r[j].value.session == y.value.session;
      assert i != j;
    }
  }

  lemma ConfirmEvidenceKeeps(s: State, e: Evidence)
    requires Inv(s)
    ensures Inv(ConfirmEvidence(s, e))
  {
    hide ReferencesOk;
    var independent := Independent(s.evidence, e, {});
    IndependentSelects(s.evidence, e, {});
    var s' := ConfirmEvidence(s, e);
    if s' != s {
      var x, y := independent[0], independent[1];
      assert x in independent && y in independent;
      var j := s'.jobs[|s.jobs|];
      assert Backs(s.evidence, j, x, y) || Backs(s.evidence, j, y, x);
      forall k | k in s.jobs ensures k.id != j.id {
        if k.phase == Forgotten {
          assert EvidenceGone(s.claims, k);
          assert k.first !in {j.first, j.second} || k.second !in {j.first, j.second};
        } else {
          var a, b :| Backs(s.evidence, k, a, b);
        }
      }
    }
  }

  lemma ConfirmReplyKeeps(s: State, id: Name, session: Name, turn: Name)
    requires Inv(s)
    ensures Inv(ConfirmReply(s, id, session, turn))
  {
    var pending := Find(s.evidence, (r: EvidenceRecord) => PendingFor(r, id, session, turn));
    if pending.Some? {
      var live := UpdateIf(s.evidence, (r: EvidenceRecord) => PendingFor(r, id, session, turn),
                           (r: EvidenceRecord) => r.(status := Live));
      forall e | e in s.evidence && e.status.Live? ensures e in live {
        var i :| 0 <= i < |s.evidence| && s.evidence[i] == e;
        assert live[i] == e;
      }
      EvidenceChange(s, live);
      ConfirmEvidenceKeeps(s.(evidence := live), pending.value.value);
    }
  }

  lemma AdvanceJobKeeps(s: State, id: JobId, w: WorkerStep)
    requires Inv(s)
    ensures Inv(AdvanceJob(s, id, w))
  {
    var job := JobById(s.jobs, id);
    if job.Some? && job.value.phase == Expected(w) {
      JobPhaseChange(s, job.value, job.value.(phase := Next(w)));
    }
  }

  lemma QuarantineKeeps(s: State, id: JobId)
    requires Inv(s)
    ensures Inv(Quarantine(s, id))
  {
    var job := JobById(s.jobs, id);
    if job.Some? && job.value.phase !in {JobActive, Forgotten} {
      JobPhaseChange(s, job.value, job.value.(phase := Quarantined));
    }
  }

  lemma PrepareKeeps(s: State, id: JobId, m: Manifest)
    requires Inv(s)
    ensures Inv(Prepare(s, id, m))
  {
    if !PrepareRefused(s, id, m) {
      var job := JobById(s.jobs, id).value;
      var r := PreparedRevision(s, job, m);
      var s1 := s;
      if RevisionByHash(s.revisions, m.hash).None? {
        s1 := s.(revisions := s.revisions + [r]);
        PreparedRevisionBacked(s, job, m);
        AppendRevision(s, r, job);
      }
      JobPhaseChange(s1, job, job.(phase := JobPrepared, revision := Some(m.hash)));
    }
  }

  lemma PreparedRevisionBacked(s: State, job: Job, m: Manifest)
    requires Inv(s) && job in s.jobs && job.phase != Forgotten && EvidenceFor(s.evidence, job).Some?
    ensures RevisionBacked(s.evidence, job, PreparedRevision(s, job, m))
  {
    var a, b :| Backs(s.evidence, job, a, b);
    assert EvidenceFor(s.evidence, job).value == (a.value, b.value);
    assert SourcesOf(PreparedRevision(s, job, m), a, b);
  }

  lemma AppendRevision(s: State, r: Revision, job: Job)
    requires Inv(s) && job in s.jobs && r.job == job.id && r.scope == job.scope && r.identity == job.identity
    requires RevisionByHash(s.revisions, r.hash).None?
    requires RevisionBacked(s.evidence, job, r)
    requires r.previous == ActiveHash(PointerFor(s.pointers, job.scope, job.identity))
    ensures Inv(s.(revisions := s.revisions + [r]))
  {
    hide EvidenceOk, RevisionBacked, PointerFor;
    AppendKeepsReferences(s.revisions, r, s.pointers, s.notifications);
    assert !HasRevision(s.revisions, r.hash);
    AppendKeepsRevisions(s, r, job);
    hide JobsOk, RevisionsOk, ReferencesOk;
  }

  lemma AppendKeepsReferences(revisions: seq<Revision>, r: Revision, pointers: seq<Pointer>,
      notifications: seq<Notification>)
    requires ReferencesOk(revisions, pointers, notifications)
    requires r.previous.Some? ==> exists p :: p in pointers && p.active == r.previous.value
    ensures ReferencesOk(revisions + [r], pointers, notifications)
  {
    forall h | HasRevision(revisions, h) ensures HasRevision(revisions + [r], h) {
      var q :| q in revisions && q.hash == h;
      assert q in revisions + [r];
    }
  }

  lemma AppendKeepsRevisions(s: State, r: Revision, job: Job)
    requires JobsOk(s.evidence, s.jobs, s.claims) && RevisionsOk(s.evidence, s.jobs, s.revisions, s.claims)
    requires job in s.jobs && r.job == job.id && r.scope == job.scope && r.identity == job.identity
    requires !HasRevision(s.revisions, r.hash) && RevisionBacked(s.evidence, job, r)
    ensures RevisionsOk(s.evidence, s.jobs, s.revisions + [r], s.claims)
  {
    hide RevisionBacked, Backed, EvidenceGone;
    var revisions' := s.revisions + [r];
    forall h | HasRevision(s.revisions, h) ensures HasRevision(revisions', h) {
      var q :| q in s.revisions && q.hash == h;
      assert q in revisions';
    }
    assert HasJob(s.jobs, r);
    assert forall j :: j in s.jobs && j.id == r.job ==> j == job;
    assert forall c :: c in s.claims ==> r.hash !in c.revisions;
    assert forall q :: q in revisions' ==> q == r || q in s.revisions;
  }

  /** `revisions'` differs from `revisions` only in activated and demoted phases. */
  ghost predicate PhasesMoved(revisions: seq<Revision>, revisions': seq<Revision>) {
    && |revisions'| == |revisions|
    && (forall i :: 0 <= i < |revisions'| ==>
          && revisions'[i] == revisions[i].(phase := revisions'[i].phase)
          && (revisions'[i].phase == revisions[i].phase || revisions'[i].phase in {RevActive, Demoted}))
  }

  lemma ActivationMoves(revisions: seq<Revision>, hash: Name, previous: Option<Name>)
    ensures PhasesMoved(revisions, ActivatedRevisions(revisions, hash, previous))
  {
    var demoted :=
      UpdateIf(revisions, (r: Revision) => previous == Some(r.hash) && r.phase == RevActive,
               (r: Revision) => r.(phase := Demoted));
    assert PhasesMoved(revisions, demoted);
  }

  lemma FailureMoves(s: State, hash: Name)
    ensures PhasesMoved(s.revisions, PermanentFailure(s, hash).revisions)
  {
    var demoted := SetRevisionPhase(s.revisions, hash, Demoted);
    assert PhasesMoved(s.revisions, demoted);
  }

  lemma ActivateKeeps(s: State, id: JobId, hash: Name, readable: bool)
    requires Inv(s)
    ensures Inv(Activate(s, id, hash, readable))
  {
    if !ActivateRefused(s, id, hash) {
      var job := JobById(s.jobs, id).value;
      var revision := RevisionByHash(s.revisions, hash).value;
      var revisions' := ActivatedRevisions(s.revisions, hash, revision.previous);
      ActivationMoves(s.revisions, hash, revision.previous);
      RevisionPhaseChange(s, revisions');
      JobPhaseChange(s.(revisions := revisions'), job, job.(phase := JobActive));
      assert HasRevision(s.revisions, hash);
      var pointer := Pointer(job.scope, job.identity, hash,
        ActiveHash(PointerFor(s.pointers, job.scope, job.identity)));
      PutPointerRefers(revisions', s.pointers, pointer);
    }
  }

  lemma PutPointerRefers(revisions: seq<Revision>, pointers: seq<Pointer>, p: Pointer)
    requires ReferencesOk(revisions, pointers, [])
    requires HasRevision(revisions, p.active) && (p.previous.Some? ==> HasRevision(revisions, p.previous.value))
    ensures ReferencesOk(revisions, PutPointer(pointers, p), [])
  {
    var pointers' := PutPointer(pointers, p);
    assert forall q :: q in pointers' ==> q == p || q in pointers;
  }

  lemma FallbackRefers(s: State, hash: Name)
    requires Inv(s) && !FailureIgnored(s, hash) && FallbackTarget(s, hash).Some?
    ensures ReferencesOk(PermanentFailure(s, hash).revisions, PermanentFailure(s, hash).pointers, [])
  {
    hide EvidenceOk, JobsOk, RevisionsOk, PointerFor, RevisionByHash, SetRevisionPhase, PutPointer, Filter;
    var revision := RevisionByHash(s.revisions, hash).value;
    var target := FallbackTarget(s, hash).value;
    var demoted := SetRevisionPhase(s.revisions, hash, Demoted);
    var revisions' := PermanentFailure(s, hash).revisions;
    assert PhasesMoved(s.revisions, demoted);
    RevisionPhaseChange(s, demoted);
    FailureMoves(s, hash);
    RevisionPhaseChange(s, revisions');
    var fallback := RevisionByHash(demoted, target);
    var previous := if fallback.Some? then fallback.value.previous else None;
    if fallback.Some? {
      var i :| 0 <= i < |demoted| && demoted[i] == fallback.value;
      assert s.revisions[i] in s.revisions && s.revisions[i].previous == previous;
    }
    PutPointerRefers(revisions', s.pointers, Pointer(revision.scope, revision.identity, target, previous));
  }

  lemma PermanentFailureKeeps(s: State, hash: Name)
    requires Inv(s)
    ensures Inv(PermanentFailure(s, hash))
  {
    if !FailureIgnored(s, hash) {
      FailureMoves(s, hash);
      RevisionPhaseChange(s, PermanentFailure(s, hash).revisions);
      if FallbackTarget(s, hash).Some? {
        FallbackRefers(s, hash);
      }
    }
  }

  // ---- forgetting -----------------------------------------------------------------------------

  /** The jobs a claim forgets through revisions are the ones it forgets through evidence. */
  lemma AffectedAreDependent(s: State, kind: SourceKind, source: Name, j: Job)
    requires Inv(s) && j in s.jobs && j.phase != Forgotten && j.id in AffectedJobs(s, kind, source)
    ensures Dependent(s.evidence, kind, source, j)
  {
    var dependent := DependentJobs(s, kind, source);
    if r :| r in s.revisions && Affected(dependent, kind, source, r) && r.job == j.id
            && RevisionFromSource(kind, source, r) {
      assert RevisionBacked(s.evidence, j, r);
      var a, b :| Backs(s.evidence, j, a, b) && SourcesOf(r, a, b);
    } else {
      var k :| k in dependent && k.id == j.id;
      assert k == j;
    }
  }

  /** Two remembered jobs never share a record. */
  lemma OneJobPerRecord(evidence: seq<EvidenceRecord>, jobs: seq<Job>, claims: seq<Claim>, j: Job, k: Job, e: Name)
    requires EvidenceOk(evidence, claims) && JobsOk(evidence, jobs, claims)
    requires j in jobs && k in jobs && j.phase != Forgotten && k.phase != Forgotten
    requires e in {j.first, j.second} && e in {k.first, k.second}
    ensures j == k
  {
    var a, b :| Backs(evidence, j, a, b);
    var c, d :| Backs(evidence, k, c, d);
    assert SameWork(j, k);
  }

  /** A claim that forgets a record of a job forgets the job. */
  lemma ForgottenAreDependent(s: State, kind: SourceKind, source: Name, j: Job, e: EvidenceRecord)
    requires EvidenceOk(s.evidence, s.claims) && JobsOk(s.evidence, s.jobs, s.claims)
    requires j in s.jobs && j.phase != Forgotten
    requires e in s.evidence && (e.value.id == j.first || e.value.id == j.second)
    requires e.value.id in ForgottenEvidence(s, kind, source)
    ensures Dependent(s.evidence, kind, source, j)
  {
    if !FromSource(kind, source, e.value) {
      assert forall f :: f in s.evidence && f.value.id == e.value.id ==> f == e;
      var k :| k in DependentJobs(s, kind, source) && (k.first == e.value.id || k.second == e.value.id);
      OneJobPerRecord(s.evidence, s.jobs, s.claims, j, k, e.value.id);
    }
  }

  lemma ClaimKeepsEvidence(s: State, kind: SourceKind, source: Name)
    requires Inv(s) && !PendingClaim(s, kind, source)
    ensures var t := ClaimBySource(s, kind, source); EvidenceOk(t.evidence, t.claims)
  {
    var t := ClaimBySource(s, kind, source);
    var c := NewClaim(s, kind, source);
    forall e, d | e in t.evidence && d in t.claims &&
        (e.value.id in d.evidence || (d.phase != ClaimTombstoned && FromSource(d.kind, d.source, e.value)))
      ensures e.status == EvidenceClaimed
    {
      var i :| 0 <= i < |t.evidence| && t.evidence[i] == e;
      var f := s.evidence[i];
      assert f in s.evidence && f.value == e.value;
      if d == c {
        assert e.value.id in c.evidence;
      } else {
        assert d in s.claims;
      }
    }
  }

  lemma ClaimKeepsJob(s: State, kind: SourceKind, source: Name, j: Job)
    requires Inv(s) && !PendingClaim(s, kind, source) && j in s.jobs
    ensures var t := ClaimBySource(s, kind, source);
      if j.phase == Forgotten || j.id in AffectedJobs(s, kind, source) then EvidenceGone(t.claims, j)
      else Backed(t.evidence, j) && forall r :: RevisionBacked(s.evidence, j, r) ==> RevisionBacked(t.evidence, j, r)
  {
    hide RevisionsOk, ReferencesOk, RevisionBacked;
    var t := ClaimBySource(s, kind, source);
    if j.phase == Forgotten {
      var d :| d in s.claims && j.first in d.evidence && j.second in d.evidence;
      assert d in t.claims;
    } else if j.id in AffectedJobs(s, kind, source) {
      AffectedAreDependent(s, kind, source, j);
      assert j in DependentJobs(s, kind, source);
      assert NewClaim(s, kind, source) in t.claims;
    } else {
      assert j !in DependentJobs(s, kind, source);
      forall e | e in s.evidence && e.status.Live? && (e.value.id == j.first || e.value.id == j.second)
        ensures e in t.evidence
      {
        if e.value.id in ForgottenEvidence(s, kind, source) {
          ForgottenAreDependent(s, kind, source, j, e);
        }
        var k :| 0 <= k < |s.evidence| && s.evidence[k] == e;
        assert t.evidence[k] == e;
      }
      BackingSurvives(s.evidence, t.evidence, j);
    }
  }

  lemma ClaimKeepsJobs(s: State, kind: SourceKind, source: Name)
    requires Inv(s) && !PendingClaim(s, kind, source)
    ensures var t := ClaimBySource(s, kind, source); JobsOk(t.evidence, t.jobs, t.claims)
  {
    hide RevisionsOk, ReferencesOk, Backed, NewClaim;
    var t := ClaimBySource(s, kind, source);
    forall i | 0 <= i < |t.jobs|
      ensures if t.jobs[i].phase == Forgotten then EvidenceGone(t.claims, t.jobs[i])
              else t.jobs[i] == s.jobs[i] && Backed(t.evidence, t.jobs[i])
      ensures t.jobs[i] == s.jobs[i].(phase := t.jobs[i].phase)
    {
      assert s.jobs[i] in s.jobs;
      ClaimKeepsJob(s, kind, source, s.jobs[i]);
      assert EvidenceGone(t.claims, s.jobs[i]) ==> EvidenceGone(t.claims, s.jobs[i].(phase := Forgotten));
    }
  }

  lemma AffectedHashForgetsJob(s: State, kind: SourceKind, source: Name, r: Revision)
    requires forall i, j :: 0 <= i < j < |s.revisions| ==> s.revisions[i].hash != s.revisions[j].hash
    requires r in s.revisions && r.hash in AffectedHashes(s, kind, source)
    ensures r.job in AffectedJobs(s, kind, source)
  {
    var q :| q in s.revisions && Affected(DependentJobs(s, kind, source), kind, source, q) && q.hash == r.hash;
    assert q == r;
  }

  /** A revision of a remembered job is neither claimed nor loses its sources. */
  lemma ClaimKeepsRevision(s: State, kind: SourceKind, source: Name, r: Revision, j: Job)
    requires Inv(s) && !PendingClaim(s, kind, source)
    requires r in s.revisions && j in s.jobs && j.id == r.job
    requires j.phase != Forgotten && j.id !in AffectedJobs(s, kind, source)
    ensures RevisionBacked(ClaimBySource(s, kind, source).evidence, j, r)
    ensures r.hash !in AffectedHashes(s, kind, source)
    ensures forall d :: d in s.claims ==> r.hash !in d.revisions
  {
    ClaimKeepsJob(s, kind, source, j);
    if r.hash in AffectedHashes(s, kind, source) {
      AffectedHashForgetsJob(s, kind, source, r);
    }
  }

  lemma JobsSurvive(jobs: seq<Job>, jobs': seq<Job>, revisions: seq<Revision>, revisions': seq<Revision>)
    requires |jobs'| == |jobs| && forall i :: 0 <= i < |jobs| ==> jobs'[i] == jobs[i].(phase := jobs'[i].phase)
    requires |revisions'| == |revisions|
    requires forall i :: 0 <= i < |revisions| ==>
      revisions'[i].job == revisions[i].job && revisions'[i].scope == revisions[i].scope &&
        revisions'[i].identity == revisions[i].identity
    requires forall r :: r in revisions ==> HasJob(jobs, r)
    ensures forall r :: r in revisions' ==> HasJob(jobs', r)
  {
    forall r | r in revisions' ensures HasJob(jobs', r) {
      var i :| 0 <= i < |revisions'| && revisions'[i] == r;
      assert HasJob(jobs, revisions[i]);
      var k :| 0 <= k < |jobs| && jobs[k].id == r.job && jobs[k].scope == r.scope && jobs[k].identity == r.identity;
      assert jobs'[k] in jobs';
    }
  }

  lemma ClaimKeepsBacking(s: State, kind: SourceKind, source: Name, r: Revision, j: Job)
    requires Inv(s) && !PendingClaim(s, kind, source)
    requires var t := ClaimBySource(s, kind, source);
      r in t.revisions && j in t.jobs && j.id == r.job && j.phase != Forgotten
    ensures var t := ClaimBySource(s, kind, source);
      RevisionBacked(t.evidence, j, r) && forall d :: d in t.claims ==> r.hash !in d.revisions
  {
    hide Inv, AffectedHashes, AffectedJobs, RevisionBacked;
    var t := ClaimBySource(s, kind, source);
    var i :| 0 <= i < |t.revisions| && t.revisions[i] == r;
    var k :| 0 <= k < |t.jobs| && t.jobs[k] == j;
    assert s.jobs[k] == j;
    ClaimKeepsRevision(s, kind, source, s.revisions[i], j);
  }

  lemma ClaimKeepsRevisions(s: State, kind: SourceKind, source: Name)
    requires Inv(s) && !PendingClaim(s, kind, source)
    ensures var t := ClaimBySource(s, kind, source); RevisionsOk(t.evidence, t.jobs, t.revisions, t.claims)
  {
    hide EvidenceOk, JobsOk, RevisionBacked, NewClaim, AffectedJobs;
    var t := ClaimBySource(s, kind, source);
    ClaimHashesExist(s, kind, source);
    JobsSurvive(s.jobs, t.jobs, s.revisions, t.revisions);
    forall r, j | r in t.revisions && j in t.jobs && j.id == r.job && j.phase != Forgotten
      ensures RevisionBacked(t.evidence, j, r)
    {
      ClaimKeepsBacking(s, kind, source, r, j);
    }
    forall c, r, j | c in t.claims && r in t.revisions && r.hash in c.revisions && j in t.jobs && j.id == r.job
      ensures j.phase == Forgotten
    {
      if j.phase != Forgotten {
        ClaimKeepsBacking(s, kind, source, r, j);
      }
    }
  }

  lemma ClaimHashesExist(s: State, kind: SourceKind, source: Name)
    requires !PendingClaim(s, kind, source)
    requires forall c, h :: c in s.claims && h in c.revisions ==> HasRevision(s.revisions, h)
    ensures var t := ClaimBySource(s, kind, source);
      forall c, h :: c in t.claims && h in c.revisions ==> HasRevision(t.revisions, h)
  {
    HashesSurvive(s.revisions, ClaimBySource(s, kind, source).revisions);
    assert forall h :: h in NewClaim(s, kind, source).revisions ==> HasRevision(s.revisions, h);
  }

  lemma HashesSurvive(revisions: seq<Revision>, revisions': seq<Revision>)
    requires |revisions'| == |revisions| && forall i :: 0 <= i < |revisions| ==> revisions'[i].hash == revisions[i].hash
    ensures forall h :: HasRevision(revisions, h) ==> HasRevision(revisions', h)
  {
    forall h | HasRevision(revisions, h) ensures HasRevision(revisions', h) {
      var i :| 0 <= i < |revisions| && revisions[i].hash == h;
      assert revisions'[i] in revisions';
    }
  }

  lemma ClaimBySourceKeeps(s: State, kind: SourceKind, source: Name)
    requires Inv(s)
    ensures Inv(ClaimBySource(s, kind, source))
  {
    hide EvidenceOk, JobsOk, RevisionsOk, NewClaim, AffectedJobs;
    if !PendingClaim(s, kind, source) {
      ClaimKeepsEvidence(s, kind, source);
      ClaimKeepsJobs(s, kind, source);
      ClaimKeepsRevisions(s, kind, source);
      HashesSurvive(s.revisions, ClaimBySource(s, kind, source).revisions);
    }
  }

  /** Only the claim a purge finds changes phase, and a tombstone is never lifted. */
  lemma {:induction false} ClaimPhases(claims: seq<Claim>, id: ClaimId, phase: ClaimPhase)
    requires ClaimById(claims, id).Some? && ClaimById(claims, id).value.phase != ClaimTombstoned
    ensures var r := SetClaimPhase(claims, id, phase);
      forall i :: 0 <= i < |claims| ==>
        r[i] == claims[i].(phase := r[i].phase) && (claims[i].phase == ClaimTombstoned ==>
          r[i].phase == ClaimTombstoned)
  {
    if claims[0].id != id {
      ClaimPhases(claims[1..], id, phase);
    }
  }

  ghost predicate ClaimsMoved(claims: seq<Claim>, claims': seq<Claim>) {
    && |claims'| == |claims|
    && (forall i :: 0 <= i < |claims| ==>
          && claims'[i] == claims[i].(phase := claims'[i].phase)
          && (claims[i].phase == ClaimTombstoned ==> claims'[i].phase == ClaimTombstoned))
  }

  lemma ClaimPhaseChange(s: State, claims': seq<Claim>)
    requires Inv(s) && ClaimsMoved(s.claims, claims')
    ensures Inv(s.(claims := claims'))
  {
    forall c | c in claims'
      ensures exists d ::
        d in s.claims && c == d.(phase := c.phase) && (d.phase == ClaimTombstoned ==> c.phase == ClaimTombstoned)
    {
      var i :| 0 <= i < |claims'| && claims'[i] == c;
      assert s.claims[i] in s.claims;
    }
    forall j | j in s.jobs && j.phase == Forgotten ensures EvidenceGone(claims', j) {
      var i :| 0 <= i < |s.claims| && j.first in s.claims[i].evidence && j.second in s.claims[i].evidence;
      assert claims'[i] in claims';
    }
  }

  lemma PurgeBeginKeeps(s: State, id: ClaimId)
    requires Inv(s)
    ensures Inv(PurgeBegin(s, id))
  {
    var claim := ClaimById(s.claims, id);
    if claim.Some? && claim.value.phase != ClaimTombstoned {
      ClaimPhases(s.claims, id, Purging);
      ClaimPhaseChange(s, SetClaimPhase(s.claims, id, Purging));
    }
  }

  lemma TombstonesKeep(s: State, c: Claim)
    requires Inv(s) && c in s.claims
    ensures Inv(s.(revisions := UpdateIf(s.revisions, (r: Revision) => r.hash in c.revisions, Tombstone)))
  {
    hide EvidenceOk, JobsOk, RevisionBacked;
    var revisions' := UpdateIf(s.revisions, (r: Revision) => r.hash in c.revisions, Tombstone);
    HashesSurvive(s.revisions, revisions');
    JobsSurvive(s.jobs, s.jobs, s.revisions, revisions');
    forall r | r in revisions' ensures TombstoneOf(s.revisions, c, r) {
      var i :| 0 <= i < |revisions'| && revisions'[i] == r;
      assert s.revisions[i] in s.revisions;
    }
  }

  ghost predicate TombstoneOf(revisions: seq<Revision>, c: Claim, r: Revision) {
    exists q :: q in revisions && q.hash == r.hash && q.job == r.job && q.previous == r.previous &&
      (r == q || q.hash in c.revisions)
  }

  lemma PurgeFinishKeeps(s: State, id: ClaimId)
    requires Inv(s)
    ensures Inv(PurgeFinish(s, id))
  {
    if PurgeReady(s, id) {
      var claim := ClaimById(s.claims, id).value;
      TombstonesKeep(s, claim);
      var s1 := s.(revisions := UpdateIf(s.revisions, (r: Revision) => r.hash in claim.revisions, Tombstone));
      var keep := (e: EvidenceRecord) => e.status != EvidenceClaimed;
      FilterKeepsPairs(s.evidence, keep, (x: EvidenceRecord, y: EvidenceRecord) => x.value.id != y.value.id);
      EvidenceChange(s1, Filter(s.evidence, keep));
      ClaimPhases(s.claims, id, ClaimTombstoned);
      ClaimPhaseChange(s1.(evidence := Filter(s.evidence, keep)), SetClaimPhase(s.claims, id, ClaimTombstoned));
    }
  }

  lemma NotificationsKeep(s: State, notifications': seq<Notification>)
    requires Inv(s) && |notifications'| == |s.notifications|
    requires forall i :: 0 <= i < |notifications'| ==> notifications'[i].revision == s.notifications[i].revision
    ensures Inv(s.(notifications := notifications'))
  {
    forall n | n in notifications' ensures HasRevision(s.revisions, n.revision) {
      var i :| 0 <= i < |notifications'| && notifications'[i] == n;
      assert s.notifications[i] in s.notifications;
    }
  }

  lemma ApplyKeeps(s: State, op: Op)
    requires Inv(s)
    ensures Inv(Apply(s, op))
  {
    hide Inv, Stage, ConfirmReply, AdvanceJob, Quarantine, Prepare, Activate, PermanentFailure, ClaimBySource,
      PurgeBegin, PurgeFinish;
    match op
    case OpStage(e) => StageKeeps(s, e);
    case OpConfirm(id, session, turn) => ConfirmReplyKeeps(s, id, session, turn);
    case OpAdvance(job, step) => AdvanceJobKeeps(s, job, step);
    case OpQuarantine(job) => QuarantineKeeps(s, job);
    case OpPrepare(job, m) => PrepareKeeps(s, job, m);
    case OpActivate(job, hash, readable) => ActivateKeeps(s, job, hash, readable);
    case OpFail(hash) => PermanentFailureKeeps(s, hash);
    case OpClaim(kind, source) => ClaimBySourceKeeps(s, kind, source);
    case OpPurgeBegin(id) => PurgeBeginKeeps(s, id);
    case OpPurgeFinish(id) => PurgeFinishKeeps(s, id);
    case OpNotification(revision, from, to) => NotificationsKeep(s, Apply(s, op).notifications);
    case OpReopen => NotificationsKeep(s, Reopen(s).notifications);
  }

  lemma {:induction false} RunKeeps(s: State, ops: seq<Op>)
    requires Inv(s)
    ensures Inv(Run(s, ops))
    decreases |ops|
  {
    if ops != [] {
      ApplyKeeps(s, ops[0]);
      RunKeeps(Apply(s, ops[0]), ops[1..]);
    }
  }

  // ---- what follows for every run ---------------------------------------------------------------

  /** The cross-record checks of `validState`, in its order. */
  ghost predicate ValidState(s: State) {
    && (forall i, j :: 0 <= i < j < |s.evidence| ==> s.evidence[i].value.id != s.evidence[j].value.id)
    && (forall i, j :: 0 <= i < j < |s.jobs| ==> s.jobs[i].id != s.jobs[j].id)
    && (forall j :: j in s.jobs && j.phase != Forgotten ==>
          (exists e :: e in s.evidence && e.value.id == j.first) &&
            (exists e :: e in s.evidence && e.value.id == j.second))
    && (forall r :: r in s.revisions ==> exists j :: j in s.jobs && j.id == r.job)
    && (forall i, j :: 0 <= i < j < |s.revisions| ==> s.revisions[i].hash != s.revisions[j].hash)
    && (forall p :: p in s.pointers ==>
          HasRevision(s.revisions, p.active) && (p.previous.Some? ==> HasRevision(s.revisions, p.previous.value)))
    && (forall n :: n in s.notifications ==> HasRevision(s.revisions, n.revision))
  }

  /** Every state a run of the store can persist is accepted when the store is opened again. */
  lemma EveryRunStaysValid(ops: seq<Op>)
    ensures ValidState(Run(EMPTY, ops))
  {
    RunKeeps(EMPTY, ops);
    var s := Run(EMPTY, ops);
    forall j | j in s.jobs && j.phase != Forgotten
      ensures (exists e :: e in s.evidence && e.value.id == j.first) &&
        (exists e :: e in s.evidence && e.value.id == j.second)
    {
      var a, b :| Backs(s.evidence, j, a, b);
    }
  }

  /** Evidence closure: whatever was forgotten, the worker finds both records of every remembered job. */
  lemma EvidenceNeverMissing(ops: seq<Op>, j: Job)
    requires j in Run(EMPTY, ops).jobs && j.phase != Forgotten
    ensures var r := EvidenceFor(Run(EMPTY, ops).evidence, j);
      && r.Some?
      && r.value.0.id == j.first && r.value.1.id == j.second
      && r.value.0.session != r.value.1.session
      && JobOfWorkflow(j, r.value.0) && JobOfWorkflow(j, r.value.1)
    ensures forall k :: k in Run(EMPTY, ops).jobs && k.phase != Forgotten && SameWork(j, k) ==> k == j
  {
    RunKeeps(EMPTY, ops);
    var a, b :| Backs(Run(EMPTY, ops).evidence, j, a, b);
  }

  ghost predicate Claimed(s: State, id: Name) {
    exists c :: c in s.claims && id in c.evidence
  }

  lemma {:induction false} ClaimsStay(s: State, ops: seq<Op>, id: Name)
    requires Inv(s) && Claimed(s, id)
    ensures Claimed(Run(s, ops), id)
    decreases |ops|
  {
    if ops != [] {
      ApplyKeeps(s, ops[0]);
      ClaimStays(s, ops[0], id);
      hide Inv, Claimed, Apply;
      ClaimsStay(Apply(s, ops[0]), ops[1..], id);
    }
  }

  lemma ClaimStays(s: State, op: Op, id: Name)
    requires Claimed(s, id)
    ensures Claimed(Apply(s, op), id)
  {
    hide StageRefused, Independent, PrepareRefused, ActivateRefused, FailureIgnored, NewClaim, DropHashes,
      AffectedJobs, PutPointer, PutJob;
    var t := Apply(s, op);
    var i :| 0 <= i < |s.claims| && id in s.claims[i].evidence;
    assert |s.claims| <= |t.claims| && t.claims[i].evidence == s.claims[i].evidence;
  }

  /**
   * Forgetting sticks: in every continuation of a run the identifier of a claimed record is never
   * live or pending again and never staged again, and a source with a pending claim has no record
   * that could still be used.
   */
  lemma ForgettingSticks(ops: seq<Op>, more: seq<Op>, id: Name)
    requires Claimed(Run(EMPTY, ops), id)
    ensures var s := Run(Run(EMPTY, ops), more);
      && (forall e :: e in s.evidence && e.value.id == id ==> e.status == EvidenceClaimed)
      && (forall e: Evidence :: e.id == id ==> Stage(s, e) == s)
      && (forall e, c ::
            e in s.evidence && c in s.claims && c.phase != ClaimTombstoned && FromSource(c.kind, c.source, e.value)
            ==> e.status == EvidenceClaimed)
  {
    RunKeeps(EMPTY, ops);
    RunKeeps(Run(EMPTY, ops), more);
    ClaimsStay(Run(EMPTY, ops), more, id);
  }
}
