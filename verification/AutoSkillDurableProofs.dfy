/**
 * What the files look like at every crash point, and what recovery leaves: the artifact of every
 * prepared, active or demoted revision is there, and nothing else is.
 */
module AutoSkillDurableProofs {
  import opened Common
  import opened AutoSkillModel
  import E = AutoSkillEvidence
  import P = AutoSkillPointers
  import opened AutoSkillDurable

  // ---- live revisions ---------------------------------------------------------------------------

  predicate LivePhase(p: RevisionPhase) { p in {RevPrepared, RevActive, Demoted} }

  ghost predicate LiveHash(st: State, h: Name) {
    exists r :: r in st.revisions && r.hash == h && LivePhase(r.phase)
  }

  /** Every prepared, active or demoted revision has its artifact directory. */
  ghost predicate Present(st: State, artifacts: set<Name>) {
    forall h {:trigger LiveHash(st, h)} :: LiveHash(st, h) ==> h in artifacts
  }

  ghost predicate Covers(st: State, older: State) {
    forall h {:trigger References(older, h)} :: References(older, h) ==> References(st, h)
  }

  /** Revisions of `t` at the positions of `s` keep their hash; live ones were live. */
  ghost predicate NoNewLive(s: seq<Revision>, t: seq<Revision>) {
    |s| == |t| && forall i :: 0 <= i < |s| ==>
      t[i].hash == s[i].hash && (LivePhase(t[i].phase) ==> LiveAt(s, t[i].hash))
  }

  ghost predicate LiveAt(s: seq<Revision>, h: Name) {
    exists r :: r in s && r.hash == h && LivePhase(r.phase)
  }

  lemma NoNewLiveKeeps(s: State, t: State)
    requires NoNewLive(s.revisions, t.revisions)
    ensures Covers(t, s) && forall artifacts :: Present(s, artifacts) ==> Present(t, artifacts)
  {
    forall h | References(s, h) ensures References(t, h) {
      var i :| 0 <= i < |s.revisions| && s.revisions[i].hash == h;
      assert t.revisions[i] in t.revisions;
    }
    forall h | LiveHash(t, h) ensures LiveHash(s, h) {
      var i :| 0 <= i < |t.revisions| && t.revisions[i].hash == h && LivePhase(t.revisions[i].phase);
      assert LiveAt(s.revisions, h);
    }
  }

  lemma OperationsKeepArtifacts(s: State, op: Op)
    requires P.Clean(s, op) && !op.OpPrepare?
    ensures NoNewLive(s.revisions, Apply(s, op).revisions)
  {
    hide PointerFor, PutPointer, PutJob, StageRefused, Independent, AffectedHashes, AffectedJobs, ForgottenEvidence,
      DropHashes;
    forall i | 0 <= i < |s.revisions| && LivePhase(s.revisions[i].phase)
      ensures LiveAt(s.revisions, s.revisions[i].hash) {
      assert s.revisions[i] in s.revisions;
    }
  }

  lemma PrepareKeepsArtifacts(s: State, id: JobId, m: Manifest, artifacts: set<Name>)
    requires Present(s, artifacts) && m.hash in artifacts && !PrepareRefused(s, id, m)
    ensures var t := Prepare(s, id, m);
      Present(t, artifacts) && Covers(t, s) && References(t, m.hash) && LiveHash(t, m.hash)
  {
    hide PointerFor, PutJob, EvidenceFor;
    var t := Prepare(s, id, m);
    assert PreparedRevision(s, JobById(s.jobs, id).value, m) in t.revisions;
    forall h | LiveHash(t, h) ensures h in artifacts {
      assert LiveHash(s, h) || h == m.hash;
    }
  }

  // ---- the invariant --------------------------------------------------------------------------------

  ghost predicate StateOk(st: State) { E.Inv(st) && P.PInv(st) }

  /** The artifact marker of the running call, unless it is the reason why its artifact may exist. */
  function OwnMarker(p: Process): (r: Option<Id>) {
    match p
    case Up(_, _, task) =>
      (match task
       case ArtifactMarking(i, _, _) => Some(i)
       case ArtifactMarked(i, _, _) => Some(i)
       case ArtifactTemp(i, _, _) => Some(i)
       case ArtifactReady(i, _, _, created) => if created then None else Some(i)
       case Persisting(c) => OwnIn(c)
       case StateMarking(c, _) => OwnIn(c)
       case StateMarked(c, _) => OwnIn(c)
       case StateTemp(c, _) => OwnIn(c)
       case StateRenamed(c, _) => OwnIn(c)
       case Finishing(c) => AnyIn(c)
       case UnwindTemp(c, _) => OwnIn(c)
       case UnwindState(c, _) => OwnIn(c)
       case UnwindArtifact(c) => OwnIn(c)
       case UnwindMarker(c) => AnyIn(c)
       case _ => None)
    case Reconciling(_, m, next) => if next == CleanMarker then Some(m.id) else None
    case _ => None
  }

  function OwnIn(c: Context): (r: Option<Id>) { if c.InPrepare? && !c.created then Some(c.marker) else None }
  function AnyIn(c: Context): (r: Option<Id>) { if c.InPrepare? then Some(c.marker) else None }

  ghost predicate Marked(markers: set<MarkerFile>, own: Option<Id>, h: Name) {
    exists m :: m in markers && m.filled && m.kind == ForArtifact(h) && Some(m.id) != own
  }

  /** Every artifact is mentioned by the state file or covered by a marker. */
  ghost predicate Justified(f: Files, own: Option<Id>) {
    forall h :: h in f.artifacts ==> References(f.disk, h) || Marked(f.markers, own, h)
  }

  ghost predicate TempsMarked(f: Files) {
    && (forall t :: t in f.stateTemps ==> MarkerFile(t, ForState, true) in f.markers)
    && (forall t :: t in f.artifactTemps ==> exists h :: MarkerFile(t, ForArtifact(h), true) in f.markers)
    && (forall m, n :: m in f.markers && n in f.markers && m.id == n.id ==> m == n)
  }

  /** The call runs under its artifact marker; what it published was needed by nobody before. */
  ghost predicate ContextOk(f: Files, c: Context) {
    c.InPrepare? ==>
      && MarkerFile(c.marker, ForArtifact(c.hash), true) in f.markers
      && c.marker !in f.artifactTemps
      && (c.created ==> !LiveHash(f.disk, c.hash))
  }

  ghost predicate PersistOk(f: Files, mem: State, c: Context) {
    ContextOk(f, c) && (c.InPrepare? ==> References(mem, c.hash) && LiveHash(mem, c.hash) && c.hash in f.artifacts)
  }

  ghost predicate UnwindOk(f: Files, mem: State, poisoned: bool, c: Context) {
    ContextOk(f, c) && (c.InPrepare? && c.created ==> poisoned || !LiveHash(mem, c.hash))
  }

  ghost predicate TaskOk(f: Files, mem: State, poisoned: bool, task: Task) {
    match task
    case Ready => true
    case ArtifactMarking(i, _, m) =>
      !poisoned && MarkerFile(i, ForArtifact(m.hash), false) in f.markers && i !in f.artifactTemps
    case ArtifactMarked(i, _, m) =>
      !poisoned && MarkerFile(i, ForArtifact(m.hash), true) in f.markers && i !in f.artifactTemps
    case ArtifactTemp(i, _, m) =>
      !poisoned && MarkerFile(i, ForArtifact(m.hash), true) in f.markers && m.hash !in f.artifacts
    case ArtifactReady(i, _, m, created) =>
      !poisoned && ContextOk(f, InPrepare(i, m.hash, created)) && m.hash in f.artifacts &&
        (created ==> !LiveHash(mem, m.hash))
    case Persisting(c) => !poisoned && PersistOk(f, mem, c)
    case StateMarking(c, i) =>
      !poisoned && PersistOk(f, mem, c) && MarkerFile(i, ForState, false) in f.markers && i !in f.stateTemps
    case StateMarked(c, i) =>
      !poisoned && PersistOk(f, mem, c) && MarkerFile(i, ForState, true) in f.markers && i !in f.stateTemps
    case StateTemp(c, i) => !poisoned && PersistOk(f, mem, c) && MarkerFile(i, ForState, true) in f.markers
    case StateRenamed(c, i) =>
      !poisoned && f.disk == mem && i !in f.stateTemps && RenamedOk(f, c) && (c.InPrepare? ==> c.marker != i)
    case Finishing(c) => !poisoned && f.disk == mem && RenamedOk(f, c)
    case Deleting(claim, todo) => !poisoned && f.disk == mem && forall h :: h in todo ==> !LiveHash(mem, h)
    case UnwindTemp(c, i) => UnwindOk(f, mem, poisoned, c) && MarkerFile(i, ForState, true) in f.markers
    case UnwindState(c, i) => UnwindOk(f, mem, poisoned, c) && MarkerFile(i, ForState, true) in f.markers &&
      i !in f.stateTemps
    case UnwindArtifact(c) => UnwindOk(f, mem, poisoned, c)
    case UnwindMarker(c) => c.InPrepare? ==> c.marker !in f.artifactTemps
  }

  ghost predicate RenamedOk(f: Files, c: Context) {
    c.InPrepare? ==>
      && MarkerFile(c.marker, ForArtifact(c.hash), true) in f.markers
      && c.marker !in f.artifactTemps
      && References(f.disk, c.hash)
  }

  ghost predicate ProcessOk(f: Files, p: Process) {
    match p
    case Down => true
    case Opening(todo) => todo == f.markers
    case Reconciling(todo, m, next) =>
      && f.markers == todo + {m} && m !in todo
      && (next != CleanTemp ==> m.id !in f.stateTemps + f.artifactTemps)
    case Up(mem, poisoned, task) =>
      && StateOk(mem) && Covers(mem, f.disk)
      && (!poisoned ==> Present(mem, f.artifacts))
      && TaskOk(f, mem, poisoned, task)
  }

  ghost predicate SysInv(s: Sys) {
    && StateOk(s.files.disk)
    && Present(s.files.disk, s.files.artifacts)
    && TempsMarked(s.files)
    && Justified(s.files, OwnMarker(s.process))
    && ProcessOk(s.files, s.process)
  }

  /** Creating the state marker fails inside a `prepare` that published its artifact. */
  predicate RefusedInPrepare(p: Process, step: Step) {
    && p.Up? && step.Fail?
    && ((p.task.Persisting? && !step.poison && p.task.context.InPrepare? && p.task.context.created)
        || (p.task.StateMarking? && p.task.context.InPrepare? && p.task.context.created))
  }

  /** A failure that falls back to a claimed revision, reported to a store that takes the call. */
  predicate FallsBackToClaimed(p: Process, step: Step) {
    p.Up? && !p.poisoned && p.task == Ready && step.Call? && !P.Clean(p.mem, step.op)
  }

  predicate CleanStep(s: Sys, step: Step) { !RefusedInPrepare(s.process, step) && !FallsBackToClaimed(s.process, step) }

  // ---- every step keeps it ------------------------------------------------------------------------------

  lemma RecoveryKeeps(s: Sys, step: Step)
    requires SysInv(s) && (step.Open? || step.Pick? || step.Clean? || step.Crash?)
    ensures SysInv(Do(s, step))
  {
    hide StateOk;
  }

  lemma ReopenOk(st: State)
    requires StateOk(st)
    ensures StateOk(Reopen(st)) && Reopen(st).revisions == st.revisions
  {
    E.ApplyKeeps(st, OpReopen);
    P.ApplyKeepsPointers(st, OpReopen);
  }

  lemma OperationOk(st: State, op: Op)
    requires StateOk(st) && P.Clean(st, op)
    ensures StateOk(Apply(st, op))
  {
    E.ApplyKeeps(st, op);
    P.ApplyKeepsPointers(st, op);
  }

  lemma SameRevisions(s: State, t: State)
    requires t.revisions == s.revisions
    ensures Covers(t, s) && forall artifacts :: Present(s, artifacts) ==> Present(t, artifacts)
  {
    forall h | LiveHash(t, h) ensures LiveHash(s, h) {}
  }

  lemma FinishOpenKeeps(s: Sys)
    requires SysInv(s)
    ensures SysInv(Do(s, FinishOpen))
  {
    ReopenOk(s.files.disk);
    SameRevisions(s.files.disk, Reopen(s.files.disk));
    hide StateOk, Reopen, TempsMarked, Justified, Present, Covers;
  }

  lemma OperationMem(mem: State, op: Op, disk: State, artifacts: set<Name>)
    requires StateOk(mem) && P.Clean(mem, op) && !op.OpPrepare? && Covers(mem, disk) && Present(mem, artifacts)
    ensures StateOk(Apply(mem, op)) && Covers(Apply(mem, op), disk) && Present(Apply(mem, op), artifacts)
  {
    OperationOk(mem, op);
    OperationsKeepArtifacts(mem, op);
    hide Apply, StateOk, P.Clean;
    NoNewLiveKeeps(mem, Apply(mem, op));
    hide NoNewLive, Covers, Present;
    CoversChain(Apply(mem, op), mem, disk);
  }

  lemma CallKeeps(s: Sys, op: Op)
    requires SysInv(s) && CleanStep(s, Call(op))
    ensures SysInv(Do(s, Call(op)))
  {
    hide Apply, StateOk, TempsMarked, Justified, P.Clean, Present, Covers, References;
    if Do(s, Call(op)) != s {
      OperationMem(s.process.mem, op, s.files.disk, s.files.artifacts);
    }
  }

  lemma CoversChain(a: State, b: State, c: State)
    requires Covers(a, b) && Covers(b, c)
    ensures Covers(a, c)
  {}

  lemma CallPrepareKeeps(s: Sys, job: JobId, m: Manifest, id: Id)
    requires SysInv(s)
    ensures SysInv(Do(s, CallPrepare(job, m, id)))
  {
    hide StateOk, Present, Covers, References;
  }

  lemma PurgeBeginOk(st: State, claim: ClaimId)
    requires StateOk(st)
    ensures StateOk(PurgeBegin(st, claim)) && PurgeBegin(st, claim).revisions == st.revisions
  {
    hide StateOk, Stage, ConfirmReply, AdvanceJob, Quarantine, Prepare, Activate, PermanentFailure, ClaimBySource,
      PurgeFinish;
    OperationOk(st, OpPurgeBegin(claim));
  }

  lemma CallPurgeKeeps(s: Sys, claim: ClaimId)
    requires SysInv(s)
    ensures SysInv(Do(s, CallPurge(claim)))
  {
    hide StateOk, TempsMarked, Justified, Present, Covers, References, LiveHash, ClaimById, PurgeBegin;
    if s.process.Up? {
      var mem := s.process.mem;
      PurgeBeginOk(mem, claim);
      SameRevisions(mem, PurgeBegin(mem, claim));
      CoversChain(PurgeBegin(mem, claim), mem, s.files.disk);
    }
  }

  predicate ArtifactTask(t: Task) {
    t.ArtifactMarking? || t.ArtifactMarked? || t.ArtifactTemp? || t.ArtifactReady?
  }

  // ---- the effects of a call, one file at a time -------------------------------------------------------

  lemma MarkArtifactKeeps(s: Sys, id: Id, hash: Name)
    requires SysInv(s) && s.process.Up? && s.process.task.ArtifactMarking?
    ensures SysInv(Forward(s, id, hash))
  {
    hide StateOk, Present, Covers, References;
  }

  lemma PublishArtifactKeeps(s: Sys, id: Id, hash: Name)
    requires SysInv(s) && s.process.Up? && (s.process.task.ArtifactMarked? || s.process.task.ArtifactTemp?)
    ensures SysInv(Forward(s, id, hash))
  {
    hide StateOk, Covers, References, LiveHash;
  }

  lemma PrepareKeeps(s: Sys, id: Id, hash: Name)
    requires SysInv(s) && s.process.Up? && s.process.task.ArtifactReady?
    ensures SysInv(Forward(s, id, hash))
  {
    hide StateOk, Prepare, PrepareRefused, References, Covers, Present, Justified, TempsMarked, LiveHash;
    var mem, task := s.process.mem, s.process.task;
    if !PrepareRefused(mem, task.job, task.m) {
      OperationOk(mem, OpPrepare(task.job, task.m));
      PrepareKeepsArtifacts(mem, task.job, task.m, s.files.artifacts);
      CoversChain(Prepare(mem, task.job, task.m), mem, s.files.disk);
    }
  }

  lemma MarkStateKeeps(s: Sys, id: Id, hash: Name)
    requires SysInv(s) && s.process.Up?
    requires s.process.task.Persisting? || s.process.task.StateMarking? || s.process.task.StateMarked?
    ensures SysInv(Forward(s, id, hash))
  {
    hide StateOk, Present, Covers, References, LiveHash;
  }

  lemma RenameKeeps(s: Sys, id: Id, hash: Name)
    requires SysInv(s) && s.process.Up? && s.process.task.StateTemp?
    ensures SysInv(Forward(s, id, hash))
  {
    hide StateOk, Present, LiveHash, References;
  }

  lemma UnmarkStateKeeps(s: Sys, id: Id, hash: Name)
    requires SysInv(s) && s.process.Up? && s.process.task.StateRenamed?
    ensures SysInv(Forward(s, id, hash))
  {
    hide StateOk, Present, LiveHash, References, Covers;
  }

  /** What a pending claim lists is claimed or tombstoned, so its artifacts can go. */
  lemma ClaimedNotLive(st: State, claim: ClaimId)
    requires StateOk(st) && PurgeReady(st, claim)
    ensures forall h :: h in ClaimById(st.claims, claim).value.revisions ==> !LiveHash(st, h)
  {
    hide E.Inv, P.KeysUnique, P.ActiveAreTargets, P.ChainsDescend, P.PreviousDescend, P.JobRevisions;
    var c := ClaimById(st.claims, claim).value;
    forall r | r in st.revisions && r.hash in c.revisions ensures !LivePhase(r.phase) {
      assert P.ListedBy(st.claims, r.hash);
    }
  }

  lemma FinishKeeps(s: Sys, id: Id, hash: Name)
    requires SysInv(s) && s.process.Up? && s.process.task.Finishing?
    ensures SysInv(Forward(s, id, hash))
  {
    var c := s.process.task.context;
    if c.InPurge? && PurgeReady(s.process.mem, c.claim) {
      ClaimedNotLive(s.process.mem, c.claim);
    }
    hide StateOk, Present, LiveHash, References, Covers, ClaimById;
  }

  lemma DeleteKeeps(s: Sys, id: Id, hash: Name)
    requires SysInv(s) && s.process.Up? && s.process.task.Deleting?
    ensures SysInv(Forward(s, id, hash))
  {
    hide StateOk, LiveHash, References, PurgeFinish;
    var mem, op := s.process.mem, OpPurgeFinish(s.process.task.claim);
    OperationOk(mem, op);
    OperationsKeepArtifacts(mem, op);
    NoNewLiveKeeps(mem, Apply(mem, op));
    hide NoNewLive;
  }

  lemma UnwindKeeps(s: Sys, id: Id, hash: Name)
    requires SysInv(s) && s.process.Up?
    requires var t := s.process.task; t.UnwindTemp? || t.UnwindState? || t.UnwindArtifact? || t.UnwindMarker?
    ensures SysInv(Forward(s, id, hash))
  {
    hide StateOk, LiveHash, References, Covers;
  }

  lemma ThrowInPrepareKeeps(s: Sys, poison: bool, resolved: bool)
    requires SysInv(s) && s.process.Up? && ArtifactTask(s.process.task)
    ensures SysInv(Throw(s, poison, resolved))
  {
    hide StateOk, LiveHash, References, Covers, Present;
  }

  lemma ThrowInPersistKeeps(s: Sys, poison: bool, resolved: bool)
    requires SysInv(s) && s.process.Up? && !ArtifactTask(s.process.task) && CleanStep(s, Fail(poison, resolved))
    ensures SysInv(Throw(s, poison, resolved))
  {
    hide StateOk, LiveHash, References, Covers, Present;
  }

  lemma ForwardKeeps(s: Sys, id: Id, hash: Name)
    requires SysInv(s) && s.process.Up?
    ensures SysInv(Forward(s, id, hash))
  {
    hide SysInv;
    match s.process.task
    case Ready =>
    case ArtifactMarking(_, _, _) => MarkArtifactKeeps(s, id, hash);
    case ArtifactMarked(_, _, _) => PublishArtifactKeeps(s, id, hash);
    case ArtifactTemp(_, _, _) => PublishArtifactKeeps(s, id, hash);
    case ArtifactReady(_, _, _, _) => PrepareKeeps(s, id, hash);
    case Persisting(_) => MarkStateKeeps(s, id, hash);
    case StateMarking(_, _) => MarkStateKeeps(s, id, hash);
    case StateMarked(_, _) => MarkStateKeeps(s, id, hash);
    case StateTemp(_, _) => RenameKeeps(s, id, hash);
    case StateRenamed(_, _) => UnmarkStateKeeps(s, id, hash);
    case Finishing(_) => FinishKeeps(s, id, hash);
    case Deleting(_, _) => DeleteKeeps(s, id, hash);
    case _ => UnwindKeeps(s, id, hash);
  }

  lemma StepKeeps(s: Sys, step: Step)
    requires SysInv(s) && CleanStep(s, step)
    ensures SysInv(Do(s, step))
  {
    hide SysInv, CleanStep, Forward, Throw, Apply;
    match step
    case FinishOpen => FinishOpenKeeps(s);
    case Call(op) => CallKeeps(s, op);
    case CallPrepare(job, m, id) => CallPrepareKeeps(s, job, m, id);
    case CallPurge(claim) => CallPurgeKeeps(s, claim);
    case Advance(id, hash) => if s.process.Up? { ForwardKeeps(s, id, hash); }
    case Fail(poison, resolved) => if s.process.Up? {
        if ArtifactTask(s.process.task) { ThrowInPrepareKeeps(s, poison, resolved); }
        else { ThrowInPersistKeeps(s, poison, resolved); }
      }
    case _ => RecoveryKeeps(s, step);
  }

  /** The excluded steps, exactly: a step breaks the invariant if and only if it is one of the two. */
  lemma StepKeepsExactly(s: Sys, step: Step)
    requires SysInv(s)
    ensures SysInv(Do(s, step)) <==> CleanStep(s, step)
  {
    hide SysInv, Do, RefusedInPrepare, FallsBackToClaimed;
    if CleanStep(s, step) {
      StepKeeps(s, step);
    } else if RefusedInPrepare(s.process, step) {
      RefusalBreaks(s, step);
    } else {
      DirtyFallbackBreaks(s, step);
    }
  }

  lemma RefusalBreaks(s: Sys, step: Step)
    requires SysInv(s) && RefusedInPrepare(s.process, step)
    ensures !SysInv(Do(s, step))
  {
    hide StateOk, LiveHash, References, Covers, Present, Justified, TempsMarked;
    assert Do(s, step).process == s.process.(task := UnwindArtifact(s.process.task.context));
  }

  lemma DirtyFallbackBreaks(s: Sys, step: Step)
    requires SysInv(s) && FallsBackToClaimed(s.process, step)
    ensures !SysInv(Do(s, step))
  {
    hide E.Inv, P.PInv, References, Covers, Present, Justified, TempsMarked, PermanentFailure, P.CleanFailure, TaskOk;
    P.FailureKeepsExactly(s.process.mem, step.op.hash);
    assert Do(s, step).process.Up? && Do(s, step).process.mem == PermanentFailure(s.process.mem, step.op.hash);
  }

  // ---- runs ----------------------------------------------------------------------------------------------

  /** No failure falls back to a claimed revision, and no marker is refused inside `prepare`. */
  predicate CleanSteps(s: Sys, steps: seq<Step>)
    decreases |steps|
  {
    steps != [] ==> CleanStep(s, steps[0]) && CleanSteps(Do(s, steps[0]), steps[1..])
  }

  lemma {:induction false} StepsKeep(s: Sys, steps: seq<Step>)
    requires SysInv(s) && CleanSteps(s, steps)
    ensures SysInv(After(s, steps))
    decreases |steps|
  {
    hide SysInv, Do, CleanStep;
    if steps != [] {
      StepKeeps(s, steps[0]);
      StepsKeep(Do(s, steps[0]), steps[1..]);
    }
  }

  lemma InitialOk(s: Sys)
    requires Initial(s)
    ensures SysInv(s)
  {}

  /**
   * At every crash point of every clean run, each prepared, active or demoted revision in the state
   * file has its artifact, and each temporary and each artifact that the state does not mention has
   * a marker by which recovery will find it.
   */
  lemma EveryCrashPoint(start: Sys, steps: seq<Step>)
    requires Initial(start) && CleanSteps(start, steps)
    ensures var f := After(start, steps).files;
      && (forall r :: r in f.disk.revisions && LivePhase(r.phase) ==> r.hash in f.artifacts)
      && (forall h :: h in f.artifacts && !References(f.disk, h) ==>
        exists m :: m in f.markers && m.filled && m.kind == ForArtifact(h))
      && (forall t :: t in f.stateTemps ==> MarkerFile(t, ForState, true) in f.markers)
      && (forall t :: t in f.artifactTemps ==> exists h :: MarkerFile(t, ForArtifact(h), true) in f.markers)
  {
    InitialOk(start);
    StepsKeep(start, steps);
    var f := After(start, steps).files;
    hide StateOk, ProcessOk, After, CleanSteps;
    forall r | r in f.disk.revisions && LivePhase(r.phase) ensures r.hash in f.artifacts {
      assert LiveHash(f.disk, r.hash);
    }
    forall h | h in f.artifacts && !References(f.disk, h) ensures exists m ::
      m in f.markers && m.filled && m.kind == ForArtifact(h) {
      assert Marked(f.markers, OwnMarker(After(start, steps).process), h);
    }
  }

  /**
   * Recovery always ends in an open store: when its last marker is gone there is no temporary, the
   * store opens, and every artifact left is one the state file mentions.
   */
  lemma RecoveryOpens(start: Sys, steps: seq<Step>)
    requires Initial(start) && CleanSteps(start, steps)
    requires After(start, steps).process == Opening({})
    ensures var s := After(start, steps);
      && Do(s, FinishOpen).process.Up? && Do(s, FinishOpen).files == s.files
      && s.files.markers == {} && s.files.stateTemps == {} && s.files.artifactTemps == {}
      && (forall h :: h in s.files.artifacts ==> References(s.files.disk, h))
  {
    InitialOk(start);
    StepsKeep(start, steps);
    var s := After(start, steps);
    hide StateOk, After, CleanSteps, Present, References;
    assert s.files.markers == {};
    assert s.files.stateTemps == {} && s.files.artifactTemps == {};
  }

  // ---- the excluded step ---------------------------------------------------------------------------------

  /** The steps of an operation that persists without trouble. */
  function Persisted(op: Op, id: Id): (steps: seq<Step>) {
    [Call(op), Advance(id, 0), Advance(id, 0), Advance(id, 0), Advance(id, 0)]
  }

  /**
   * Why a refused marker inside `prepare` is excluded: the artifact is removed and the store is not
   * poisoned, so the next operation that persists writes a prepared revision without an artifact.
   */
  lemma RefusalLosesArtifact(s: Sys, op: Op, id: Id, resolved: bool)
    requires s.process.Up? && !s.process.poisoned && s.process.task.ArtifactReady? && s.process.task.created
    requires !PrepareRefused(s.process.mem, s.process.task.job, s.process.task.m)
    requires Simple(op) && !op.OpActivate? && Unused(s.files, id)
    requires LiveHash(Apply(Prepare(s.process.mem, s.process.task.job, s.process.task.m), op), s.process.task.m.hash)
    ensures var h := s.process.task.m.hash;
      var f := After(s, [Advance(id, 0), Fail(false, resolved), Advance(id, 0), Advance(id, 0)] +
        Persisted(op, id)).files;
      LiveHash(f.disk, h) && h !in f.artifacts
  {
    var t := s.process.task;
    var mem := Prepare(s.process.mem, t.job, t.m);
    hide LiveHash, Prepare, PrepareRefused, Apply;
    var f := s.files.(artifacts := s.files.artifacts - {t.m.hash},
      markers := s.files.markers - {MarkerFile(t.id, ForArtifact(t.m.hash), true)});
    var steps := [Advance(id, 0), Fail(false, resolved), Advance(id, 0), Advance(id, 0)];
    UnwindsTo(s, id, resolved, mem, f);
    hide Do;
    AfterAppends(s, steps, Persisted(op, id));
    PersistsTo(Sys(f, Up(mem, false, Ready)), op, id);
  }

  lemma UnwindsTo(s: Sys, id: Id, resolved: bool, mem: State, f: Files)
    requires s.process.Up? && !s.process.poisoned && s.process.task.ArtifactReady? && s.process.task.created
    requires var t := s.process.task;
      && !PrepareRefused(s.process.mem, t.job, t.m) && mem == Prepare(s.process.mem, t.job, t.m)
      && f == s.files.(artifacts := s.files.artifacts - {t.m.hash},
        markers := s.files.markers - {MarkerFile(t.id, ForArtifact(t.m.hash), true)})
    ensures After(s, [Advance(id, 0), Fail(false, resolved), Advance(id, 0), Advance(id, 0)]) ==
      Sys(f, Up(mem, false, Ready))
  {
    hide Prepare, PrepareRefused, After;
    var t := s.process.task;
    var c := InPrepare(t.id, t.m.hash, true);
    var s1 := Sys(s.files, Up(mem, false, Persisting(c)));
    var s2 := Sys(s.files, Up(mem, false, UnwindArtifact(c)));
    var s3 := Sys(s.files.(artifacts := f.artifacts), Up(mem, false, UnwindMarker(c)));
    AfterSteps([Advance(id, 0), Fail(false, resolved), Advance(id, 0), Advance(id, 0)],
      [s, s1, s2, s3, Sys(f, Up(mem, false, Ready))]);
  }

  lemma PersistsTo(s: Sys, op: Op, id: Id)
    requires s.process.Up? && !s.process.poisoned && s.process.task == Ready
    requires Simple(op) && !op.OpActivate? && Unused(s.files, id)
    ensures var f := After(s, Persisted(op, id)).files;
      f.disk == Apply(s.process.mem, op) && f.artifacts == s.files.artifacts
  {
    hide Apply, Unused;
    var steps := Persisted(op, id);
    assert steps[1..] == Saving(id);
    assert Do(s, steps[0]) == Sys(s.files, Up(Apply(s.process.mem, op), false, Persisting(Alone)));
    hide Do;
    assert After(s, steps) == After(Do(s, steps[0]), steps[1..]);
    hide After;
    Saves(s.files, Apply(s.process.mem, op), id);
  }

  /** The file steps of `persist`, up to the rename. */
  function Saving(id: Id): (steps: seq<Step>) { [Advance(id, 0), Advance(id, 0), Advance(id, 0), Advance(id, 0)] }

  lemma Saves(f: Files, mem: State, id: Id)
    requires Unused(f, id)
    ensures var g := After(Sys(f, Up(mem, false, Persisting(Alone))), Saving(id)).files;
      g.disk == mem && g.artifacts == f.artifacts
  {
    hide After;
    var empty, full := MarkerFile(id, ForState, false), MarkerFile(id, ForState, true);
    var g := f.(markers := f.markers + {empty} - {empty} + {full});
    var s1 := Sys(f, Up(mem, false, Persisting(Alone)));
    var s2 := Sys(f.(markers := f.markers + {empty}), Up(mem, false, StateMarking(Alone, id)));
    var s3 := Sys(g, Up(mem, false, StateMarked(Alone, id)));
    var s4 := Sys(g.(stateTemps := f.stateTemps + {id}), Up(mem, false, StateTemp(Alone, id)));
    var s5 := Sys(g.(stateTemps := f.stateTemps + {id} - {id}, disk := mem), Up(mem, false, StateRenamed(Alone, id)));
    AfterSteps(Saving(id), [s1, s2, s3, s4, s5]);
  }

  lemma {:induction false} AfterSteps(steps: seq<Step>, states: seq<Sys>)
    requires |states| == |steps| + 1 && forall i :: 0 <= i < |steps| ==> states[i + 1] == Do(states[i], steps[i])
    ensures After(states[0], steps) == states[|steps|]
    decreases |steps|
  {
    if steps != [] {
      AfterSteps(steps[1..], states[1..]);
    }
  }

  lemma {:induction false} AfterAppends(s: Sys, a: seq<Step>, b: seq<Step>)
    ensures After(s, a + b) == After(After(s, a), b)
    decreases |a|
  {
    if a == [] {
      assert a + b == b;
    } else {
      assert (a + b)[1..] == a[1..] + b;
      AfterAppends(Do(s, a[0]), a[1..], b);
    }
  }
}
