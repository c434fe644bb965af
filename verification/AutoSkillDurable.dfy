/**
 * One store process and its files, step by step (packages/app/src/auto-skill-store.ts): `persist`,
 * `prepare` with its artifact directory, `purgeClaim`, failures that unwind, crashes between any
 * two file steps, and recovery by the next process, which can crash as well.
 *
 * A marker and its temporary share an identifier, a rename is atomic, a removal does not fail.
 */
module AutoSkillDurable {
  import opened Common
  import opened AutoSkillModel

  type Id = nat

  datatype MarkerKind = ForState | ForArtifact(hash: Name)

  /** A marker file is created empty and then filled; an empty one has no temporary. */
  datatype MarkerFile = MarkerFile(id: Id, kind: MarkerKind, filled: bool)

  datatype Files = Files(
    disk: State, artifacts: set<Name>, stateTemps: set<Id>, artifactTemps: set<Id>, markers: set<MarkerFile>)

  /** The call that `persist` runs in; `created` is whether this call published the artifact. */
  datatype Context =
    | Alone
    | InPrepare(marker: Id, hash: Name, created: bool)
    | InPurge(claim: ClaimId, last: bool)

  datatype Task =
    | Ready
    | ArtifactMarking(id: Id, job: JobId, m: Manifest)
    | ArtifactMarked(id: Id, job: JobId, m: Manifest)
    | ArtifactTemp(id: Id, job: JobId, m: Manifest)
    | ArtifactReady(id: Id, job: JobId, m: Manifest, created: bool)
    | Persisting(context: Context)
    | StateMarking(context: Context, id: Id)
    | StateMarked(context: Context, id: Id)
    | StateTemp(context: Context, id: Id)
    | StateRenamed(context: Context, id: Id)
    | Finishing(context: Context)
    | Deleting(claim: ClaimId, todo: set<Name>)
    | UnwindTemp(context: Context, id: Id)
    | UnwindState(context: Context, id: Id)
    | UnwindArtifact(context: Context)
    | UnwindMarker(context: Context)

  datatype Cleaning = CleanTemp | CleanArtifact | CleanMarker

  datatype Process =
    | Down
    | Opening(todo: set<MarkerFile>)
    | Reconciling(todo: set<MarkerFile>, marker: MarkerFile, next: Cleaning)
    | Up(mem: State, poisoned: bool, task: Task)

  datatype Sys = Sys(files: Files, process: Process)

  predicate Initial(s: Sys) { s == Sys(Files(EMPTY, {}, {}, {}, {}), Down) }

  // ---- recovery ----------------------------------------------------------------------------------

  predicate References(st: State, hash: Name) {
    exists r :: r in st.revisions && r.hash == hash
  }

  /** `reconcileDeadTemporary`. */
  function DropTemp(f: Files, m: MarkerFile): (r: Files) {
    if !m.filled then f
    else if m.kind.ForState? then f.(stateTemps := f.stateTemps - {m.id})
    else f.(artifactTemps := f.artifactTemps - {m.id})
  }

  /** `reconcileDeadArtifact`: a directory that the state does not mention is removed. */
  function DropArtifact(f: Files, m: MarkerFile): (r: Files) {
    if !m.filled || m.kind.ForState? || References(f.disk, m.kind.hash) then f
    else f.(artifacts := f.artifacts - {m.kind.hash})
  }

  function DropMarker(f: Files, m: MarkerFile): (r: Files) {
    f.(markers := f.markers - {m})
  }

  // ---- steps ---------------------------------------------------------------------------------------

  predicate Unused(f: Files, id: Id) {
    id !in f.stateTemps && id !in f.artifactTemps && forall m :: m in f.markers ==> m.id != id
  }

  /** Operations that change the state in memory and persist it once. */
  predicate Simple(op: Op) {
    !(op.OpPrepare? || op.OpPurgeBegin? || op.OpPurgeFinish? || op.OpReopen?)
  }

  datatype Step =
    | Open | Pick(marker: MarkerFile) | Clean | FinishOpen
    | Call(op: Op) | CallPrepare(job: JobId, m: Manifest, id: Id) | CallPurge(claim: ClaimId)
    | Advance(id: Id, hash: Name)
    | Fail(poison: bool, resolved: bool)
    | Crash

  function Working(s: Sys, files: Files, task: Task): (r: Sys)
    requires s.process.Up?
  {
    Sys(files, s.process.(task := task))
  }

  /** The next file effect of the running call. */
  function Forward(s: Sys, id: Id, hash: Name): (r: Sys)
    requires s.process.Up?
  {
    var f, mem := s.files, s.process.mem;
    match s.process.task
    case Ready => s
    case ArtifactMarking(i, j, m) =>
      var empty, full := MarkerFile(i, ForArtifact(m.hash), false), MarkerFile(i, ForArtifact(m.hash), true);
      Working(s, f.(markers := f.markers - {empty} + {full}), ArtifactMarked(i, j, m))
    case ArtifactMarked(i, j, m) =>
      if m.hash in f.artifacts then Working(s, f, ArtifactReady(i, j, m, false))
      else Working(s, f.(artifactTemps := f.artifactTemps + {i}), ArtifactTemp(i, j, m))
    case ArtifactTemp(i, j, m) =>
      Working(s, f.(artifactTemps := f.artifactTemps - {i}, artifacts := f.artifacts + {m.hash}),
        ArtifactReady(i, j, m, true))
    case ArtifactReady(i, j, m, created) =>
      if PrepareRefused(mem, j, m) then Working(s, f, UnwindArtifact(InPrepare(i, m.hash, created)))
      else s.(process := s.process.(mem := Prepare(mem, j, m), task := Persisting(InPrepare(i, m.hash, created))))
    case Persisting(c) =>
      if !Unused(f, id) then s
      else Working(s, f.(markers := f.markers + {MarkerFile(id, ForState, false)}), StateMarking(c, id))
    case StateMarking(c, i) =>
      Working(s, f.(markers := f.markers - {MarkerFile(i, ForState, false)} + {MarkerFile(i, ForState, true)}),
        StateMarked(c, i))
    case StateMarked(c, i) =>
      Working(s, f.(stateTemps := f.stateTemps + {i}), StateTemp(c, i))
    case StateTemp(c, i) =>
      Working(s, f.(stateTemps := f.stateTemps - {i}, disk := mem), StateRenamed(c, i))
    case StateRenamed(c, i) =>
      Working(s, DropMarker(f, MarkerFile(i, ForState, true)), Finishing(c))
    case Finishing(c) =>
      (match c
       case Alone => Working(s, f, Ready)
       case InPrepare(i, h, _) => Working(s, DropMarker(f, MarkerFile(i, ForArtifact(h), true)), Ready)
       case InPurge(claim, last) =>
         if last || !PurgeReady(mem, claim) then Working(s, f, Ready)
         else Working(s, f, Deleting(claim, ClaimById(mem.claims, claim).value.revisions)))
    case Deleting(claim, todo) =>
      if hash in todo then Working(s, f.(artifacts := f.artifacts - {hash}), Deleting(claim, todo - {hash}))
      else if todo != {} then s
      else s.(process := s.process.(mem := PurgeFinish(mem, claim), task := Persisting(InPurge(claim, true))))
    case UnwindTemp(c, i) =>
      Working(s, f.(stateTemps := f.stateTemps - {i}), UnwindState(c, i))
    case UnwindState(c, i) =>
      Working(s, DropMarker(f, MarkerFile(i, ForState, true)), UnwindArtifact(c))
    case UnwindArtifact(c) =>
      Working(s, if c.InPrepare? && c.created then f.(artifacts := f.artifacts - {c.hash}) else f, UnwindMarker(c))
    case UnwindMarker(c) =>
      Working(s, if c.InPrepare? then DropMarker(f, MarkerFile(c.marker, ForArtifact(c.hash), true)) else f, Ready)
  }

  /**
   * The running call throws. Inside the `try` of `persist`, and on a refused `ensureWritable`, the
   * store is poisoned; a marker that cannot be created does not poison it.
   */
  function Throw(s: Sys, poison: bool, resolved: bool): (r: Sys)
    requires s.process.Up?
  {
    var f := s.files;
    var sick := s.(process := s.process.(poisoned := true));
    var same := if poison then sick else s;
    match s.process.task
    case ArtifactMarking(i, j, m) => Working(s, f, Ready)
    case ArtifactMarked(i, j, m) => Working(same, f, UnwindArtifact(InPrepare(i, m.hash, false)))
    case ArtifactTemp(i, j, m) =>
      Working(same, f.(artifactTemps := f.artifactTemps - {i}), UnwindArtifact(InPrepare(i, m.hash, false)))
    case ArtifactReady(i, j, m, created) => Working(same, f, UnwindArtifact(InPrepare(i, m.hash, created)))
    case Persisting(c) => Working(same, f, UnwindArtifact(c))
    case StateMarking(c, i) => Working(s, f, UnwindArtifact(c))
    case StateMarked(c, i) => Working(sick, f, UnwindTemp(c, i))
    case StateTemp(c, i) => Working(sick, f, UnwindTemp(c, i))
    case StateRenamed(c, i) =>
      // an unresolved rename keeps its markers for the next process
      if !resolved then Working(sick, f, Ready)
      else Working(sick, DropMarker(f, MarkerFile(i, ForState, true)), UnwindMarker(c))
    case _ => s
  }

  function Do(s: Sys, step: Step): (r: Sys) {
    var p, f := s.process, s.files;
    match step
    case Open => if p.Down? then s.(process := Opening(f.markers)) else s
    case Pick(m) =>
      if p.Opening? && m in p.todo then s.(process := Reconciling(p.todo - {m}, m, CleanTemp)) else s
    case Clean =>
      if !p.Reconciling? then s
      else (match p.next
            case CleanTemp => Sys(DropTemp(f, p.marker), p.(next := CleanArtifact))
            case CleanArtifact => Sys(DropArtifact(f, p.marker), p.(next := CleanMarker))
            case CleanMarker => Sys(DropMarker(f, p.marker), Opening(p.todo)))
    case FinishOpen =>
      if !p.Opening? || p.todo != {} then s
      else if f.stateTemps + f.artifactTemps != {} then s.(process := Down)
      else
        var mem := Reopen(f.disk);
        s.(process := Up(mem, false, if mem == f.disk then Ready else Persisting(Alone)))
    case Call(op) =>
      if !p.Up? || p.poisoned || p.task != Ready || !Simple(op) then s
      else
        // an activation whose artifact cannot be read throws before `persist`
        var task := if op.OpActivate? && !op.readable then Ready else Persisting(Alone);
        s.(process := p.(mem := Apply(p.mem, op), task := task))
    case CallPrepare(job, m, id) =>
      if !p.Up? || p.poisoned || p.task != Ready || !Unused(f, id) then s
      else Working(s, f.(markers := f.markers + {MarkerFile(id, ForArtifact(m.hash), false)}),
        ArtifactMarking(id, job, m))
    case CallPurge(claim) =>
      if !p.Up? || p.poisoned || p.task != Ready || ClaimById(p.mem.claims, claim).None? then s
      else if ClaimById(p.mem.claims, claim).value.phase == ClaimTombstoned then s
      else s.(process := p.(mem := PurgeBegin(p.mem, claim), task := Persisting(InPurge(claim, false))))
    case Advance(id, hash) => if p.Up? then Forward(s, id, hash) else s
    case Fail(poison, resolved) => if p.Up? then Throw(s, poison, resolved) else s
    case Crash => s.(process := Down)
  }

  function After(s: Sys, steps: seq<Step>): (r: Sys)
    decreases |steps|
  {
    if steps == [] then s else After(Do(s, steps[0]), steps[1..])
  }
}
