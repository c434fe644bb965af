/**
 * Runs from an empty directory that leave a revision on disk without its artifact: one with a refused
 * marker, and one with a fallback to a claimed revision. On the way: every run of operations can be
 * carried out file by file.
 */
module AutoSkillDurableExample {
  import opened Common
  import opened AutoSkillModel
  import opened AutoSkillDurable
  import opened AutoSkillDurableProofs
  import X = AutoSkillExamples

  function Running(f: Files, mem: State): (s: Sys) { Sys(f, Up(mem, false, Ready)) }

  /** An operation with all its file steps, back to the idle store. */
  function Completed(op: Op, id: Id): (steps: seq<Step>) {
    Persisted(op, id) + [Advance(id, 0), Advance(id, 0)]
  }

  predicate Plainly(op: Op) { Simple(op) && (op.OpActivate? ==> op.readable) }

  lemma CallCompletes(f: Files, mem: State, op: Op, id: Id)
    requires Plainly(op) && Unused(f, id)
    ensures After(Running(f, mem), Completed(op, id)) == Running(f.(disk := Apply(mem, op)), Apply(mem, op))
  {
    hide Apply, After;
    var s, next := Running(f, mem), Apply(mem, op);
    var empty, full := MarkerFile(id, ForState, false), MarkerFile(id, ForState, true);
    var marked := f.markers + {empty} - {empty} + {full};
    var s1 := Sys(f, Up(next, false, Persisting(Alone)));
    var s2 := Sys(f.(markers := f.markers + {empty}), Up(next, false, StateMarking(Alone, id)));
    var s3 := Sys(f.(markers := marked), Up(next, false, StateMarked(Alone, id)));
    var s4 := Sys(f.(markers := marked, stateTemps := f.stateTemps + {id}), Up(next, false, StateTemp(Alone, id)));
    var s5 := Sys(f.(markers := marked, stateTemps := f.stateTemps + {id} - {id}, disk := next),
      Up(next, false, StateRenamed(Alone, id)));
    assert marked - {full} == f.markers && f.stateTemps + {id} - {id} == f.stateTemps;
    var s6 := Sys(f.(disk := next), Up(next, false, Finishing(Alone)));
    AfterSteps(Completed(op, id), [s, s1, s2, s3, s4, s5, s6, Running(f.(disk := next), next)]);
  }

  function CompletedAll(ops: seq<Op>, id: Id): (steps: seq<Step>) {
    if ops == [] then [] else Completed(ops[0], id) + CompletedAll(ops[1..], id)
  }

  lemma {:induction false} CallsComplete(f: Files, mem: State, ops: seq<Op>, id: Id)
    requires Unused(f, id) && f.disk == mem && forall op :: op in ops ==> Plainly(op)
    ensures After(Running(f, mem), CompletedAll(ops, id)) == Running(f.(disk := Run(mem, ops)), Run(mem, ops))
    decreases |ops|
  {
    if ops != [] {
      var g, next := f.(disk := Apply(mem, ops[0])), Apply(mem, ops[0]);
      assert ops[0] in ops;
      CallCompletes(f, mem, ops[0], id);
      hide Apply, Do;
      AfterAppends(Running(f, mem), Completed(ops[0], id), CompletedAll(ops[1..], id));
      CallsComplete(g, next, ops[1..], id);
    }
  }

  const DIRECTORY := Files(EMPTY, {}, {}, {}, {})

  lemma Opens()
    ensures After(Sys(DIRECTORY, Down), [Open, FinishOpen]) == Running(DIRECTORY, EMPTY)
  {
    hide After;
    assert Reopen(EMPTY) == EMPTY;
    AfterSteps([Open, FinishOpen], [Sys(DIRECTORY, Down), Sys(DIRECTORY, Opening({})), Running(DIRECTORY, EMPTY)]);
  }

  /** The store up to a verified job. */
  function Before(): (ops: seq<Op>) { X.Learn(1, 11, 101)[..7] }

  lemma BeforePrepare()
    ensures Run(EMPTY, Before()) == X.WithJob(EMPTY, 1, 11, ShadowVerified, None)
    ensures forall op :: op in Before() ==> Plainly(op)
  {
    hide Run;
    assert X.Fresh(EMPTY, 1, 11, 101);
    X.Verifies(EMPTY, 1, 11, 101);
    hide X.Fresh, X.WithJob, X.Ev, X.LearnedJob;
  }

  const MANIFEST := Manifest(101, 0, 0)

  /** The job is prepared up to its published artifact. */
  lemma Publishes(f: Files, mem: State)
    requires Unused(f, 1) && MANIFEST.hash !in f.artifacts
    ensures var marker := MarkerFile(1, ForArtifact(101), true);
      After(Running(f, mem), [CallPrepare(X.LearnedJob(1), MANIFEST, 1), Advance(1, 0), Advance(1, 0),
        Advance(1, 0)]) ==
      Sys(f.(markers := f.markers + {marker}, artifacts := f.artifacts + {101}),
        Up(mem, false, ArtifactReady(1, X.LearnedJob(1), MANIFEST, true)))
  {
    hide After, X.LearnedJob;
    var job, empty, full := X.LearnedJob(1), MarkerFile(1, ForArtifact(101), false),
      MarkerFile(1, ForArtifact(101), true);
    assert f.markers + {empty} - {empty} + {full} == f.markers + {full};
    assert f.artifactTemps + {1} - {1} == f.artifactTemps;
    var marked := f.(markers := f.markers + {full});
    AfterSteps([CallPrepare(job, MANIFEST, 1), Advance(1, 0), Advance(1, 0), Advance(1, 0)],
      [Running(f, mem),
       Sys(f.(markers := f.markers + {empty}), Up(mem, false, ArtifactMarking(1, job, MANIFEST))),
       Sys(marked, Up(mem, false, ArtifactMarked(1, job, MANIFEST))),
       Sys(marked.(artifactTemps := f.artifactTemps + {1}), Up(mem, false, ArtifactTemp(1, job, MANIFEST))),
       Sys(marked.(artifacts := f.artifacts + {101}), Up(mem, false, ArtifactReady(1, job, MANIFEST, true)))]);
  }

  lemma Accepted()
    ensures var mem := X.WithJob(EMPTY, 1, 11, ShadowVerified, None);
      var t := Prepare(mem, X.LearnedJob(1), MANIFEST);
      && !PrepareRefused(mem, X.LearnedJob(1), MANIFEST)
      && LiveHash(Apply(t, OpStage(X.Ev(9, 99))), 101)
  {
    var mem := X.WithJob(EMPTY, 1, 11, ShadowVerified, None);
    assert X.Fresh(EMPTY, 1, 11, 101) && mem.revisions == [];
    X.Prepares(EMPTY, 1, 11, 101);
    hide X.Fresh, X.WithJob, X.LearnedJob, PrepareRefused, StageRefused;
    var t := Prepare(mem, X.LearnedJob(1), MANIFEST);
    assert t.revisions[0] == X.Rev0(EMPTY, 1, 101) && t.revisions[0] in t.revisions;
  }

  /** Open, learn up to the published artifact, fail to create the state marker, and save once more. */
  function RefusalRun(): (steps: seq<Step>) {
    [Open, FinishOpen] + CompletedAll(Before(), 0) +
    [CallPrepare(X.LearnedJob(1), MANIFEST, 1), Advance(1, 0), Advance(1, 0), Advance(1, 0)] +
    ([Advance(2, 0), Fail(false, false), Advance(2, 0), Advance(2, 0)] + Persisted(OpStage(X.Ev(9, 99)), 2))
  }

  /** Reachable from nothing: a prepared revision on disk without its artifact. */
  lemma RefusalIsReachable()
    ensures Initial(Sys(DIRECTORY, Down))
    ensures var f := After(Sys(DIRECTORY, Down), RefusalRun()).files; LiveHash(f.disk, 101) && 101 !in f.artifacts
  {
    hide After, Do, Run, Before, CompletedAll, LiveHash, PrepareRefused, Prepare, Apply, X.WithJob, X.LearnedJob,
      X.Ev, Persisted;
    var start, mem := Sys(DIRECTORY, Down), X.WithJob(EMPTY, 1, 11, ShadowVerified, None);
    var a, b := [Open, FinishOpen], CompletedAll(Before(), 0);
    var c := [CallPrepare(X.LearnedJob(1), MANIFEST, 1), Advance(1, 0), Advance(1, 0), Advance(1, 0)];
    var d := [Advance(2, 0), Fail(false, false), Advance(2, 0), Advance(2, 0)] + Persisted(OpStage(X.Ev(9, 99)), 2);
    Opens();
    BeforePrepare();
    CallsComplete(DIRECTORY, EMPTY, Before(), 0);
    Publishes(DIRECTORY.(disk := mem), mem);
    Accepted();
    var s := After(Running(DIRECTORY.(disk := mem), mem), c);
    RefusalLosesArtifact(s, OpStage(X.Ev(9, 99)), 2, false);
    AfterAppends(start, a, b);
    AfterAppends(start, a + b, c);
    AfterAppends(start, a + b + c, d);
  }

  // ---- every run can be carried out -------------------------------------------------------------------------

  /** Nothing is under way, and the state file is up to date. */
  predicate AtRest(f: Files, mem: State) {
    f.disk == mem && f.markers == {} && f.stateTemps == {} && f.artifactTemps == {}
  }

  /** A state save inside a preparation, from the changed state in memory to the idle store. */
  lemma SavesPrepared(f: Files, mem: State, hash: Name, created: bool)
    requires f.markers == {MarkerFile(1, ForArtifact(hash), true)} && f.stateTemps == {} && f.artifactTemps == {}
    ensures After(Sys(f, Up(mem, false, Persisting(InPrepare(1, hash, created)))),
                  [Advance(2, 0), Advance(2, 0), Advance(2, 0), Advance(2, 0), Advance(2, 0), Advance(2, 0)]) ==
      Running(f.(disk := mem, markers := {}), mem)
  {
    hide After;
    var c, own := InPrepare(1, hash, created), MarkerFile(1, ForArtifact(hash), true);
    var empty, full := MarkerFile(2, ForState, false), MarkerFile(2, ForState, true);
    var g := f.(markers := f.markers + {empty} - {empty} + {full});
    assert g.markers == {own, full} && {own, full} - {full} == {own} && {own} - {own} == {};
    AfterSteps([Advance(2, 0), Advance(2, 0), Advance(2, 0), Advance(2, 0), Advance(2, 0), Advance(2, 0)],
      [Sys(f, Up(mem, false, Persisting(c))),
       Sys(f.(markers := f.markers + {empty}), Up(mem, false, StateMarking(c, 2))),
       Sys(g, Up(mem, false, StateMarked(c, 2))),
       Sys(g.(stateTemps := {2}), Up(mem, false, StateTemp(c, 2))),
       Sys(g.(disk := mem), Up(mem, false, StateRenamed(c, 2))),
       Sys(f.(disk := mem, markers := {own}), Up(mem, false, Finishing(c))),
       Running(f.(disk := mem, markers := {}), mem)]);
  }

  /** A preparation with all its file steps, whether its artifact exists or not. */
  lemma PreparesDurably(f: Files, mem: State, job: JobId, m: Manifest) returns (steps: seq<Step>, g: Files)
    requires AtRest(f, mem)
    ensures After(Running(f, mem), steps) == Running(g, Prepare(mem, job, m)) && AtRest(g, Prepare(mem, job, m))
  {
    hide Prepare, PrepareRefused, After;
    if PrepareRefused(mem, job, m) {
      steps, g := [], f;
      SameAfterNothing(f, mem, job, m);
    } else {
      var next := Prepare(mem, job, m);
      var created := m.hash !in f.artifacts;
      var empty, full := MarkerFile(1, ForArtifact(m.hash), false), MarkerFile(1, ForArtifact(m.hash), true);
      var marked := f.(markers := {full});
      var published := marked.(artifacts := f.artifacts + {m.hash});
      var s0, s1 := Running(f, mem), Sys(f.(markers := {empty}), Up(mem, false, ArtifactMarking(1, job, m)));
      var s2 := Sys(marked, Up(mem, false, ArtifactMarked(1, job, m)));
      var s4 := Sys(published, Up(mem, false, ArtifactReady(1, job, m, created)));
      var s5 := Sys(published, Up(next, false, Persisting(InPrepare(1, m.hash, created))));
      assert {empty} - {empty} + {full} == {full} && {} + {empty} == {empty};
      var first: seq<Step>;
      if created {
        var s3 := Sys(marked.(artifactTemps := {1}), Up(mem, false, ArtifactTemp(1, job, m)));
        first := [CallPrepare(job, m, 1), Advance(1, 0), Advance(1, 0), Advance(1, 0), Advance(1, 0)];
        AfterSteps(first, [s0, s1, s2, s3, s4, s5]);
      } else {
        assert published == marked;
        first := [CallPrepare(job, m, 1), Advance(1, 0), Advance(1, 0), Advance(1, 0)];
        AfterSteps(first, [s0, s1, s2, s4, s5]);
      }
      var second := [Advance(2, 0), Advance(2, 0), Advance(2, 0), Advance(2, 0), Advance(2, 0), Advance(2, 0)];
      steps, g := first + second, published.(disk := next, markers := {});
      SavesPrepared(published, next, m.hash, created);
      AfterAppends(s0, first, second);
    }
  }

  lemma SameAfterNothing(f: Files, mem: State, job: JobId, m: Manifest)
    requires PrepareRefused(mem, job, m)
    ensures After(Running(f, mem), []) == Running(f, Prepare(mem, job, m)) && Prepare(mem, job, m) == mem
  {}

  /** Any run of operations of a store at rest can be carried out file by file, with these effects in this order. */
  lemma {:induction false} RunsDurably(f: Files, mem: State, ops: seq<Op>) returns (steps: seq<Step>, g: Files)
    requires AtRest(f, mem) && forall op :: op in ops ==> Plainly(op) || op.OpPrepare?
    ensures After(Running(f, mem), steps) == Running(g, Run(mem, ops)) && AtRest(g, Run(mem, ops))
    decreases |ops|
  {
    if ops == [] {
      steps, g := [], f;
    } else {
      var op := ops[0];
      var first: seq<Step>, h: Files;
      var next := Apply(mem, op);
      assert op in ops;
      if op.OpPrepare? {
        first, h := PreparesDurably(f, mem, op.job, op.manifest);
      } else {
        first, h := Completed(op, 1), f.(disk := next);
        CallCompletes(f, mem, op, 1);
      }
      hide Apply, Do, Completed;
      var rest: seq<Step>;
      rest, g := RunsDurably(h, next, ops[1..]);
      steps := first + rest;
      AfterAppends(Running(f, mem), first, rest);
    }
  }

  // ---- a fallback to a claimed revision ---------------------------------------------------------------------

  /** The first save of a purge. */
  lemma SavesPurging(f: Files, mem: State, id: ClaimId)
    requires f.markers == {} && f.stateTemps == {} && f.artifactTemps == {}
    ensures After(Sys(f, Up(mem, false, Persisting(InPurge(id, false)))),
                  [Advance(2, 0), Advance(2, 0), Advance(2, 0), Advance(2, 0), Advance(2, 0)]) ==
      Sys(f.(disk := mem), Up(mem, false, Finishing(InPurge(id, false))))
  {
    hide After;
    var c, empty, full := InPurge(id, false), MarkerFile(2, ForState, false), MarkerFile(2, ForState, true);
    assert {} + {empty} - {empty} + {full} == {full} && {full} - {full} == {};
    AfterSteps([Advance(2, 0), Advance(2, 0), Advance(2, 0), Advance(2, 0), Advance(2, 0)],
      [Sys(f, Up(mem, false, Persisting(c))),
       Sys(f.(markers := {empty}), Up(mem, false, StateMarking(c, 2))),
       Sys(f.(markers := {full}), Up(mem, false, StateMarked(c, 2))),
       Sys(f.(markers := {full}, stateTemps := {2}), Up(mem, false, StateTemp(c, 2))),
       Sys(f.(markers := {full}, disk := mem), Up(mem, false, StateRenamed(c, 2))),
       Sys(f.(disk := mem), Up(mem, false, Finishing(c)))]);
  }

  /** A purge of a claim that lists a live revision, up to the removal of its artifact. */
  lemma PurgeLoses(f: Files, mem: State, id: ClaimId, hash: Name) returns (steps: seq<Step>)
    requires AtRest(f, mem) && ClaimById(mem.claims, id).Some? &&
      ClaimById(mem.claims, id).value.phase != ClaimTombstoned
    requires hash in ClaimById(mem.claims, id).value.revisions && LiveHash(mem, hash)
    ensures var g := After(Running(f, mem), steps).files; LiveHash(g.disk, hash) && hash !in g.artifacts
  {
    var begun := PurgeBegin(mem, id);
    BeginsPurge(mem, id);
    assert LiveHash(begun, hash);
    hide After, LiveHash, ClaimById, PurgeBegin;
    var save := [Advance(2, 0), Advance(2, 0), Advance(2, 0), Advance(2, 0), Advance(2, 0)];
    var s, t := Sys(f, Up(begun, false, Persisting(InPurge(id, false)))), f.(disk := begun);
    OneStep(Running(f, mem), CallPurge(id), s);
    SavesPurging(f, begun, id);
    var u := Sys(t, Up(begun, false, Finishing(InPurge(id, false))));
    var v := DeletesOne(t, begun, id, hash);
    steps := [CallPurge(id)] + save + [Advance(2, 0), Advance(2, hash)];
    AfterAppends(Running(f, mem), [CallPurge(id)], save);
    AfterAppends(Running(f, mem), [CallPurge(id)] + save, [Advance(2, 0), Advance(2, hash)]);
  }

  lemma OneStep(s: Sys, step: Step, t: Sys)
    requires Do(s, step) == t
    ensures After(s, [step]) == t
  {
    hide Do, After;
    AfterSteps([step], [s, t]);
  }

  lemma DeletesOne(f: Files, mem: State, id: ClaimId, hash: Name) returns (v: Sys)
    requires PurgeReady(mem, id) && hash in ClaimById(mem.claims, id).value.revisions
    ensures v == After(Sys(f, Up(mem, false, Finishing(InPurge(id, false)))), [Advance(2, 0), Advance(2, hash)])
    ensures v.files == f.(artifacts := f.artifacts - {hash})
  {
    hide After, ClaimById;
    var todo := ClaimById(mem.claims, id).value.revisions;
    v := Sys(f.(artifacts := f.artifacts - {hash}), Up(mem, false, Deleting(id, todo - {hash})));
    AfterSteps([Advance(2, 0), Advance(2, hash)],
      [Sys(f, Up(mem, false, Finishing(InPurge(id, false)))), Sys(f, Up(mem, false, Deleting(id, todo))), v]);
  }

  lemma BeginsPurge(mem: State, id: ClaimId)
    requires ClaimById(mem.claims, id).Some? && ClaimById(mem.claims, id).value.phase != ClaimTombstoned
    ensures PurgeBegin(mem, id).revisions == mem.revisions && PurgeReady(PurgeBegin(mem, id), id)
    ensures ClaimById(PurgeBegin(mem, id).claims, id).value.revisions == ClaimById(mem.claims, id).value.revisions
  {
    FindsChanged(mem.claims, id);
  }

  lemma {:induction false} FindsChanged(claims: seq<Claim>, id: ClaimId)
    requires ClaimById(claims, id).Some?
    ensures ClaimById(SetClaimPhase(claims, id, Purging), id) == Some(ClaimById(claims, id).value.(phase := Purging))
  {
    if claims[0].id != id {
      FindsChanged(claims[1..], id);
      assert SetClaimPhase(claims, id, Purging)[1..] == SetClaimPhase(claims[1..], id, Purging);
    }
  }

  /** The operations after which a claimed revision is active again. */
  function RevivalRun(): (ops: seq<Op>) { X.ThreeRevisions() + [OpClaim(Session, 1), OpFail(103), OpFail(102)] }

  lemma LearningIsDurable(n: Name, fp: Name, hash: Name)
    ensures forall op :: op in X.Learn(n, fp, hash) ==> Plainly(op) || op.OpPrepare?
  {
    hide X.Ev, X.LearnedJob;
  }

  lemma RevivalIsDurable()
    ensures forall op :: op in RevivalRun() ==> Plainly(op) || op.OpPrepare?
  {
    LearningIsDurable(1, 11, 101);
    LearningIsDurable(3, 12, 102);
    LearningIsDurable(5, 13, 103);
    hide X.Learn;
  }

  lemma Revives()
    ensures var s := Run(EMPTY, RevivalRun());
      && LiveHash(s, 101) && |s.claims| == 1 && s.claims[0].phase == ForgetClaimed && 101 in s.claims[0].revisions
  {
    hide Run, X.ThreeRevisions, ClaimBySource, PermanentFailure;
    X.TwoFailuresRevive();
    var learned := Run(EMPTY, X.ThreeRevisions());
    var claimed := ClaimBySource(learned, Session, 1);
    var last := [OpClaim(Session, 1), OpFail(103), OpFail(102)];
    var once := PermanentFailure(claimed, 103);
    RunSteps(last, [learned, claimed, once, PermanentFailure(once, 102)]);
    RunAppends(EMPTY, X.ThreeRevisions(), last);
    var s := PermanentFailure(once, 102);
    assert s.revisions[0] in s.revisions;
  }

  /** Reachable from nothing: a revision that a second failure made active again loses its artifact to a purge. */
  lemma RevivalLosesArtifact() returns (steps: seq<Step>)
    ensures Initial(Sys(DIRECTORY, Down))
    ensures var f := After(Sys(DIRECTORY, Down), steps).files; LiveHash(f.disk, 101) && 101 !in f.artifacts
  {
    hide After, Do, Run, RevivalRun, LiveHash;
    Opens();
    RevivalIsDurable();
    Revives();
    var mem := Run(EMPTY, RevivalRun());
    var a, f := RunsDurably(DIRECTORY, EMPTY, RevivalRun());
    FindsOnly(mem.claims);
    var b := PurgeLoses(f, mem, mem.claims[0].id, 101);
    var start := Sys(DIRECTORY, Down);
    steps := [Open, FinishOpen] + a + b;
    AfterAppends(start, [Open, FinishOpen], a);
    AfterAppends(start, [Open, FinishOpen] + a, b);
  }

  lemma FindsOnly(claims: seq<Claim>)
    requires |claims| == 1
    ensures ClaimById(claims, claims[0].id) == Some(claims[0])
  {}
}
