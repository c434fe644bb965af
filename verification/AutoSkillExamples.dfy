/** Concrete runs that show where the store falls short of the simplest statement of its promise. */
module AutoSkillExamples {
  import opened Common
  import opened AutoSkillModel
  import opened AutoSkillEvidence
  import opened AutoSkillPointers

  /** Evidence `n`: its own session and receipt, one scope and identity, workflow `fp`. */
  function Ev(n: Name, fp: Name): (e: Evidence) { Evidence(n, n, n, 0, 0, 0, fp, {n}) }

  function LearnedJob(n: Name): (id: JobId) { JobId(0, 0, n, n + 1) }

  /** Two sessions confirm one workflow and the worker takes the job to an active revision. */
  function Learn(n: Name, fp: Name, hash: Name): (ops: seq<Op>) {
    [OpStage(Ev(n, fp)), OpStage(Ev(n + 1, fp)), OpConfirm(n, n, n), OpConfirm(n + 1, n + 1, n + 1),
     OpAdvance(LearnedJob(n), ToGenerated), OpAdvance(LearnedJob(n), ToValidated),
       OpAdvance(LearnedJob(n), ToShadowVerified),
     OpPrepare(LearnedJob(n), Manifest(hash, 0, 0)), OpActivate(LearnedJob(n), hash, true)]
  }

  ghost predicate Fresh(s: State, n: Name, fp: Name, hash: Name) {
    && s.claims == []
    && (forall r :: r in s.evidence ==>
      r.value.id !in {n, n + 1} && r.value.receipts !! {n, n + 1} && r.value.fingerprint != fp)
    && (forall j :: j in s.jobs ==> j.id != LearnedJob(n) && j.fingerprint != fp)
    && (forall r :: r in s.revisions ==> r.hash != hash)
    && (forall x :: x in s.notifications ==> x.revision != hash)
  }

  function Job0(s: State, n: Name, fp: Name, phase: JobPhase, revision: Option<Name>): (j: Job) {
    Job(LearnedJob(n), 0, 0, fp, n, n + 1, phase, ActiveHash(PointerFor(s.pointers, 0, 0)), revision)
  }

  function Rev0(s: State, n: Name, hash: Name): (r: Revision) {
    Revision(hash, 0, 0, LearnedJob(n), RevPrepared, ActiveHash(PointerFor(s.pointers, 0, 0)),
      (Plain(n), Plain(n + 1)), Plain(0))
  }

  function Staged(s: State, n: Name, fp: Name, a: EvidenceStatus, b: EvidenceStatus): (t: State) {
    s.(evidence := s.evidence + [EvidenceRecord(Ev(n, fp), a), EvidenceRecord(Ev(n + 1, fp), b)])
  }

  function WithJob(s: State, n: Name, fp: Name, phase: JobPhase, revision: Option<Name>): (t: State) {
    var t := Staged(s, n, fp, Live, Live);
    t.(jobs := t.jobs + [Job0(s, n, fp, phase, revision)])
  }

  function Learned(s: State, n: Name, fp: Name, hash: Name): (t: State) {
    var previous := ActiveHash(PointerFor(s.pointers, 0, 0));
    WithJob(s, n, fp, JobActive, Some(hash)).(
      revisions := ActivatedRevisions(s.revisions + [Rev0(s, n, hash)], hash, previous),
      pointers := PutPointer(s.pointers, Pointer(0, 0, hash, previous)),
      notifications := s.notifications + [Notification(hash, NotePending)])
  }

  lemma {:induction false} IndependentSkips(evidence: seq<EvidenceRecord>, rest: seq<EvidenceRecord>, e: Evidence,
      seen: set<Name>)
    requires forall r :: r in evidence ==> !SameWorkflow(r.value, e)
    ensures Independent(evidence + rest, e, seen) == Independent(rest, e, seen)
  {
    if evidence == [] {
      assert evidence + rest == rest;
    } else {
      assert (evidence + rest)[1..] == evidence[1..] + rest;
      IndependentSkips(evidence[1..], rest, e, seen);
    }
  }

  lemma IndependentOfTwo(x: EvidenceRecord, y: EvidenceRecord, e: Evidence)
    requires x.status.Live? && SameWorkflow(x.value, e) && SameWorkflow(y.value, e) &&
      x.value.session != y.value.session
    ensures Independent([x, y], e, {}) == if y.status.Live? then [x, y] else [x]
  {
    var seen := {x.value.session};
    assert [x, y][1..] == [y] && [y][1..] == [] && {} + seen == seen;
    assert Independent([y], e, seen) == if y.status.Live? then [y] else [];
  }

  lemma StagesBoth(s: State, n: Name, fp: Name, hash: Name)
    requires Fresh(s, n, fp, hash)
    ensures Stage(Stage(s, Ev(n, fp)), Ev(n + 1, fp)) == Staged(s, n, fp, PendingReply, PendingReply)
  {
    var t := Stage(s, Ev(n, fp));
    assert t.evidence == s.evidence + [EvidenceRecord(Ev(n, fp), PendingReply)];
    assert !StageRefused(t, Ev(n + 1, fp));
    assert Stage(t, Ev(n + 1, fp)).evidence == Staged(s, n, fp, PendingReply, PendingReply).evidence;
  }

  lemma ConfirmsFirst(s: State, n: Name, fp: Name, hash: Name)
    requires Fresh(s, n, fp, hash)
    ensures ConfirmReply(Staged(s, n, fp, PendingReply, PendingReply), n, n, n) == Staged(s, n, fp, Live, PendingReply)
  {
    var t := Staged(s, n, fp, PendingReply, PendingReply);
    var pending := (r: EvidenceRecord) => PendingFor(r, n, n, n);
    assert t.evidence[|s.evidence|] in t.evidence;
    assert Find(t.evidence, pending) == Some(EvidenceRecord(Ev(n, fp), PendingReply));
    var live := UpdateIf(t.evidence, pending, (r: EvidenceRecord) => r.(status := Live));
    assert live == Staged(s, n, fp, Live, PendingReply).evidence;
    var two := [EvidenceRecord(Ev(n, fp), Live), EvidenceRecord(Ev(n + 1, fp), PendingReply)];
    IndependentSkips(s.evidence, two, Ev(n, fp), {});
    IndependentOfTwo(two[0], two[1], Ev(n, fp));
  }

  lemma ConfirmsSecond(s: State, n: Name, fp: Name, hash: Name)
    requires Fresh(s, n, fp, hash)
    ensures ConfirmReply(Staged(s, n, fp, Live, PendingReply), n + 1, n + 1, n + 1) == WithJob(s, n, fp, Queued, None)
  {
    var t := Staged(s, n, fp, Live, PendingReply);
    var e := Ev(n + 1, fp);
    var pending := (r: EvidenceRecord) => PendingFor(r, n + 1, n + 1, n + 1);
    assert t.evidence[|s.evidence| + 1] in t.evidence;
    assert Find(t.evidence, pending) == Some(EvidenceRecord(e, PendingReply));
    var live := UpdateIf(t.evidence, pending, (r: EvidenceRecord) => r.(status := Live));
    assert live == Staged(s, n, fp, Live, Live).evidence;
    var two := [EvidenceRecord(Ev(n, fp), Live), EvidenceRecord(e, Live)];
    IndependentSkips(s.evidence, two, e, {});
    IndependentOfTwo(two[0], two[1], e);
  }

  lemma Advances(s: State, n: Name, fp: Name, hash: Name, w: WorkerStep)
    requires Fresh(s, n, fp, hash)
    ensures AdvanceJob(WithJob(s, n, fp, Expected(w), None), LearnedJob(n), w) == WithJob(s, n, fp, Next(w), None)
  {
    LastJob(s, n, fp, Expected(w), None, Next(w), None, hash);
  }

  lemma LastJob(s: State, n: Name, fp: Name, phase: JobPhase, revision: Option<Name>, phase': JobPhase,
      revision': Option<Name>, hash: Name)
    requires Fresh(s, n, fp, hash)
    ensures var t := WithJob(s, n, fp, phase, revision);
      && JobById(t.jobs, LearnedJob(n)) == Some(Job0(s, n, fp, phase, revision))
      && PutJob(t.jobs, Job0(s, n, fp, phase', revision')) == WithJob(s, n, fp, phase', revision').jobs
  {
    var t := WithJob(s, n, fp, phase, revision);
    assert t.jobs[|s.jobs|] in t.jobs;
  }

  lemma Prepares(s: State, n: Name, fp: Name, hash: Name)
    requires Fresh(s, n, fp, hash)
    ensures Prepare(WithJob(s, n, fp, ShadowVerified, None), LearnedJob(n), Manifest(hash, 0, 0))
         == WithJob(s, n, fp, JobPrepared, Some(hash)).(revisions := s.revisions + [Rev0(s, n, hash)])
  {
    var t := WithJob(s, n, fp, ShadowVerified, None);
    LastJob(s, n, fp, ShadowVerified, None, JobPrepared, Some(hash), hash);
    FindsBoth(s, n, fp, hash);
    assert RevisionByHash(s.revisions, hash).None?;
    hide EvidenceFor, RevisionByHash, PointerFor, JobById, PutJob, Fresh;
  }

  lemma FindsBoth(s: State, n: Name, fp: Name, hash: Name)
    requires Fresh(s, n, fp, hash)
    ensures var t := WithJob(s, n, fp, ShadowVerified, None);
      EvidenceFor(t.evidence, Job0(s, n, fp, ShadowVerified, None)) == Some((Ev(n, fp), Ev(n + 1, fp)))
  {
    var t := WithJob(s, n, fp, ShadowVerified, None);
    assert t.evidence[|s.evidence|] in t.evidence && t.evidence[|s.evidence| + 1] in t.evidence;
    hide PointerFor;
  }

  lemma Activates(s: State, n: Name, fp: Name, hash: Name)
    requires Fresh(s, n, fp, hash)
    ensures Activate(WithJob(s, n, fp, JobPrepared, Some(hash)).(revisions := s.revisions + [Rev0(s, n, hash)]),
      LearnedJob(n), hash, true)
         == Learned(s, n, fp, hash)
  {
    LastJob(s, n, fp, JobPrepared, Some(hash), JobActive, Some(hash), hash);
    var revisions := s.revisions + [Rev0(s, n, hash)];
    assert revisions[|s.revisions|] in revisions;
    assert RevisionByHash(revisions, hash) == Some(Rev0(s, n, hash));
  }

  /** The first seven operations take the job to the point where it can be prepared. */
  lemma Verifies(s: State, n: Name, fp: Name, hash: Name)
    requires Fresh(s, n, fp, hash)
    ensures Run(s, Learn(n, fp, hash)[..7]) == WithJob(s, n, fp, ShadowVerified, None)
  {
    hide Stage, ConfirmReply, AdvanceJob, Prepare, Activate, Staged, WithJob, Fresh, Ev, LearnedJob;
    StagesBoth(s, n, fp, hash);
    ConfirmsFirst(s, n, fp, hash);
    ConfirmsSecond(s, n, fp, hash);
    Advances(s, n, fp, hash, ToGenerated);
    Advances(s, n, fp, hash, ToValidated);
    Advances(s, n, fp, hash, ToShadowVerified);
    RunSteps(Learn(n, fp, hash)[..7], [s, Stage(s, Ev(n, fp)), Staged(s, n, fp, PendingReply, PendingReply),
      Staged(s, n, fp, Live, PendingReply), WithJob(s, n, fp, Queued, None), WithJob(s, n, fp, Generated, None),
      WithJob(s, n, fp, Validated, None), WithJob(s, n, fp, ShadowVerified, None)]);
  }

  lemma Learns(s: State, n: Name, fp: Name, hash: Name)
    requires Fresh(s, n, fp, hash)
    ensures Run(s, Learn(n, fp, hash)) == Learned(s, n, fp, hash)
  {
    hide Stage, ConfirmReply, AdvanceJob, Prepare, Activate, Staged, WithJob, Learned, Fresh, Ev, LearnedJob, Rev0;
    StagesBoth(s, n, fp, hash);
    ConfirmsFirst(s, n, fp, hash);
    ConfirmsSecond(s, n, fp, hash);
    Advances(s, n, fp, hash, ToGenerated);
    Advances(s, n, fp, hash, ToValidated);
    Advances(s, n, fp, hash, ToShadowVerified);
    Prepares(s, n, fp, hash);
    Activates(s, n, fp, hash);
    RunSteps(Learn(n, fp, hash), [s, Stage(s, Ev(n, fp)), Staged(s, n, fp, PendingReply, PendingReply),
      Staged(s, n, fp, Live, PendingReply), WithJob(s, n, fp, Queued, None), WithJob(s, n, fp, Generated, None),
      WithJob(s, n, fp, Validated, None), WithJob(s, n, fp, ShadowVerified, None),
      WithJob(s, n, fp, JobPrepared, Some(hash)).(revisions := s.revisions + [Rev0(s, n, hash)]),
        Learned(s, n, fp, hash)]);
  }

  /** What one more learned revision leaves behind, when revision `active` led before. */
  lemma LearnedShape(s: State, n: Name, fp: Name, hash: Name, active: Option<Name>)
    requires Fresh(s, n, fp, hash) && active == ActiveHash(PointerFor(s.pointers, 0, 0))
    requires |s.pointers| <= 1 && forall p :: p in s.pointers ==> p.scope == p.identity == 0
    ensures var t := Run(s, Learn(n, fp, hash));
      && t.pointers == [Pointer(0, 0, hash, active)] && t.claims == []
      && t.evidence == s.evidence + [EvidenceRecord(Ev(n, fp), Live), EvidenceRecord(Ev(n + 1, fp), Live)]
      && t.jobs == s.jobs + [Job(LearnedJob(n), 0, 0, fp, n, n + 1, JobActive, active, Some(hash))]
      && |t.revisions| == |s.revisions| + 1
      && t.revisions[|s.revisions|] == Revision(hash, 0, 0, LearnedJob(n), RevActive, active,
        (Plain(n), Plain(n + 1)), Plain(0))
      && (forall i :: 0 <= i < |s.revisions| ==>
            && (active == Some(s.revisions[i].hash) && s.revisions[i].phase == RevActive ==>
              t.revisions[i] == s.revisions[i].(phase := Demoted))
            && (!(active == Some(s.revisions[i].hash) && s.revisions[i].phase == RevActive) ==>
              t.revisions[i] == s.revisions[i]))
      && t.notifications == s.notifications + [Notification(hash, NotePending)]
  {
    Learns(s, n, fp, hash);
  }

  lemma StaysFresh(s: State, n: Name, fp: Name, hash: Name, active: Option<Name>, m: Name, gp: Name, other: Name)
    requires Fresh(s, n, fp, hash) && active == ActiveHash(PointerFor(s.pointers, 0, 0))
    requires |s.pointers| <= 1 && forall p :: p in s.pointers ==> p.scope == p.identity == 0
    requires Fresh(s, m, gp, other) && n + 1 < m && fp != gp && hash != other
    ensures Fresh(Run(s, Learn(n, fp, hash)), m, gp, other)
  {
    hide Run, Learn;
    LearnedShape(s, n, fp, hash, active);
    var t := Run(s, Learn(n, fp, hash));
    forall r | r in t.revisions ensures r.hash != other {
      var i :| 0 <= i < |t.revisions| && t.revisions[i] == r;
      assert i < |s.revisions| ==> s.revisions[i] in s.revisions;
    }
  }

  /** Three revisions of one skill, each learned from two sessions of its own. */
  function ThreeRevisions(): (ops: seq<Op>) {
    Learn(1, 11, 101) + Learn(3, 12, 102) + Learn(5, 13, 103)
  }

  /** The three revisions, their phases, and the one pointer. */
  ghost predicate Trio(s: State, a: RevisionPhase, b: RevisionPhase, c: RevisionPhase, pointer: Pointer) {
    && |s.revisions| == 3
    && s.revisions[0] == Revision(101, 0, 0, LearnedJob(1), a, None, (Plain(1), Plain(2)), Plain(0))
    && s.revisions[1] == Revision(102, 0, 0, LearnedJob(3), b, Some(101), (Plain(3), Plain(4)), Plain(0))
    && s.revisions[2] == Revision(103, 0, 0, LearnedJob(5), c, Some(102), (Plain(5), Plain(6)), Plain(0))
    && s.pointers == [pointer]
  }

  ghost predicate OnlyFirstFromSessionOne(s: State) {
    && s.claims == []
    && EvidenceRecord(Ev(1, 11), Live) in s.evidence
    && (forall e :: e in s.evidence && e.value.session == 1 ==> e.value.id == 1)
    && (forall j :: j in s.jobs && (j.first == 1 || j.second == 1) ==> j.id == LearnedJob(1))
  }

  lemma StaysOnlyFirst(s: State, n: Name, fp: Name, hash: Name, active: Option<Name>)
    requires Fresh(s, n, fp, hash) && active == ActiveHash(PointerFor(s.pointers, 0, 0)) && 1 < n
    requires |s.pointers| <= 1 && forall p :: p in s.pointers ==> p.scope == p.identity == 0
    requires OnlyFirstFromSessionOne(s)
    ensures OnlyFirstFromSessionOne(Run(s, Learn(n, fp, hash)))
  {
    hide Run, Learn, Fresh;
    LearnedShape(s, n, fp, hash, active);
  }

  lemma OneLearned()
    ensures var s := Run(EMPTY, Learn(1, 11, 101));
      && s.revisions == [Revision(101, 0, 0, LearnedJob(1), RevActive, None, (Plain(1), Plain(2)), Plain(0))]
      && s.pointers == [Pointer(0, 0, 101, None)] && OnlyFirstFromSessionOne(s)
      && Fresh(s, 3, 12, 102) && Fresh(s, 5, 13, 103)
  {
    hide Learn, Run;
    assert Fresh(EMPTY, 1, 11, 101) && Fresh(EMPTY, 3, 12, 102) && Fresh(EMPTY, 5, 13, 103);
    hide Fresh;
    LearnedShape(EMPTY, 1, 11, 101, None);
    StaysFresh(EMPTY, 1, 11, 101, None, 3, 12, 102);
    StaysFresh(EMPTY, 1, 11, 101, None, 5, 13, 103);
  }

  lemma TwoLearned()
    ensures var s := Run(EMPTY, Learn(1, 11, 101) + Learn(3, 12, 102));
      && |s.revisions| == 2
      && s.revisions[0] == Revision(101, 0, 0, LearnedJob(1), Demoted, None, (Plain(1), Plain(2)), Plain(0))
      && s.revisions[1] == Revision(102, 0, 0, LearnedJob(3), RevActive, Some(101), (Plain(3), Plain(4)), Plain(0))
      && s.pointers == [Pointer(0, 0, 102, Some(101))] && OnlyFirstFromSessionOne(s) && Fresh(s, 5, 13, 103)
  {
    hide Learn, Run, Fresh, OnlyFirstFromSessionOne;
    OneLearned();
    var s := Run(EMPTY, Learn(1, 11, 101));
    assert PointerFor(s.pointers, 0, 0) == Some(s.pointers[0]);
    LearnedShape(s, 3, 12, 102, Some(101));
    StaysFresh(s, 3, 12, 102, Some(101), 5, 13, 103);
    StaysOnlyFirst(s, 3, 12, 102, Some(101));
    RunAppends(EMPTY, Learn(1, 11, 101), Learn(3, 12, 102));
  }

  lemma ThreeLearned()
    ensures var s := Run(EMPTY, ThreeRevisions());
      Trio(s, Demoted, Demoted, RevActive, Pointer(0, 0, 103, Some(102))) && OnlyFirstFromSessionOne(s)
  {
    hide Learn, Run, Fresh, OnlyFirstFromSessionOne;
    TwoLearned();
    var s := Run(EMPTY, Learn(1, 11, 101) + Learn(3, 12, 102));
    assert PointerFor(s.pointers, 0, 0) == Some(s.pointers[0]);
    LearnedShape(s, 5, 13, 103, Some(102));
    StaysOnlyFirst(s, 5, 13, 103, Some(102));
    RunAppends(EMPTY, Learn(1, 11, 101) + Learn(3, 12, 102), Learn(5, 13, 103));
  }

  lemma ForgetFirst(s: State)
    requires Trio(s, Demoted, Demoted, RevActive, Pointer(0, 0, 103, Some(102))) && OnlyFirstFromSessionOne(s)
    ensures var t := ClaimBySource(s, Session, 1);
      && Trio(t, RevClaimed, Demoted, RevActive, Pointer(0, 0, 103, Some(102))) && ListedBy(t.claims, 101)
      && |t.claims| == 1 && t.claims[0].phase == ForgetClaimed && 101 in t.claims[0].revisions
  {
    var dependent := DependentJobs(s, Session, 1);
    assert forall j :: j in dependent ==> j.id == LearnedJob(1);
    assert forall i :: 0 <= i < 3 ==> s.revisions[i] in s.revisions;
    assert Affected(dependent, Session, 1, s.revisions[0]);
    assert AffectedHashes(s, Session, 1) == {101};
    hide AffectedHashes, DependentJobs;
    assert DropHashes(s.pointers, {101}) == s.pointers;
    assert NewClaim(s, Session, 1) in ClaimBySource(s, Session, 1).claims;
  }

  lemma Fails(s: State, i: nat, k: nat, hash: Name, target: Name)
    requires HashesUnique(s.revisions) && s.pointers == [Pointer(0, 0, hash, Some(target))]
    requires k < i < |s.revisions| && s.revisions[i].hash == hash && s.revisions[k].hash == target
    requires s.revisions[i].phase == RevActive && s.revisions[i].scope == s.revisions[i].identity == 0
    ensures CleanFailure(s, hash) <==> s.revisions[k].phase == Demoted
    ensures var t := PermanentFailure(s, hash);
      && t.revisions == s.revisions[i := s.revisions[i].(phase := Demoted)][k := s.revisions[k].(phase := RevActive)]
      && t.pointers == [Pointer(0, 0, target, s.revisions[k].previous)] && t.claims == s.claims
  {
    assert s.revisions[i] in s.revisions && s.revisions[k] in s.revisions;
    assert RevisionByHash(s.revisions, hash) == Some(s.revisions[i]) &&
      RevisionByHash(s.revisions, target) == Some(s.revisions[k]);
    assert PointerFor(s.pointers, 0, 0) == Some(s.pointers[0]);
    hide RevisionByHash, PointerFor, SetRevisionPhase;
    var demoted := SetRevisionPhase(s.revisions, hash, Demoted);
    assert demoted[k] in demoted && RevisionByHash(demoted, target) == Some(demoted[k]);
  }

  /**
   * The condition is needed. Session 1 is forgotten, so revision 101 is claimed. The first failure
   * falls back cleanly to 102 and refills the pointer with 101; the second makes the claimed 101 active.
   */
  lemma TwoFailuresRevive()
    ensures var claimed := ClaimBySource(Run(EMPTY, ThreeRevisions()), Session, 1);
      var once := PermanentFailure(claimed, 103);
      var twice := PermanentFailure(once, 102);
      && Trio(claimed, RevClaimed, Demoted, RevActive, Pointer(0, 0, 103, Some(102)))
      && CleanFailure(claimed, 103) && Trio(once, RevClaimed, RevActive, Demoted, Pointer(0, 0, 102, Some(101)))
      && !CleanFailure(once, 102) && Trio(twice, RevActive, Demoted, Demoted, Pointer(0, 0, 101, None))
      && ListedBy(twice.claims, 101)
      && |twice.claims| == 1 && twice.claims[0].phase == ForgetClaimed && 101 in twice.claims[0].revisions
  {
    hide Run, ThreeRevisions, ClaimBySource, PermanentFailure, CleanFailure, OnlyFirstFromSessionOne;
    ThreeLearned();
    var s := Run(EMPTY, ThreeRevisions());
    ForgetFirst(s);
    var claimed := ClaimBySource(s, Session, 1);
    Fails(claimed, 2, 1, 103, 102);
    Fails(PermanentFailure(claimed, 103), 1, 0, 102, 101);
  }
}
