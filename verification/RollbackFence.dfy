/**
 * The file protocol between ordinary store handles and the rollback updater
 * (packages/app/src/auto-skill-store.ts): a writer publishes a marker and then looks for the
 * barrier and the epoch; the updater raises the barrier and then looks for markers.
 *
 * Any number of handles, in any number of processes, take file steps in any order; a process can
 * die between any two of its steps. One updater runs at a time and can fail or crash anywhere.
 * A rename is atomic and exclusive creation is test-and-set.
 */
module RollbackFence {
  import opened AutoSkillModel

  // ---- the state file and its rollback certificates -----------------------------------------

  /** A certificate digests the state without its certificates, and the target commit. */
  datatype Certificate = Certificate(state: State, target: Name)
  datatype StoreFile = StoreFile(state: State, certificates: set<Certificate>)

  predicate Drained(s: State) {
    && s.evidence == [] && s.pointers == []
    && (forall j :: j in s.jobs ==> j.phase == Forgotten)
    && (forall r :: r in s.revisions ==> r.phase == Tombstoned)
    && (forall c :: c in s.claims ==> c.phase == ClaimTombstoned)
  }

  /** `stateHasRollbackCertificate`. */
  predicate HasCertificate(f: StoreFile, c: Certificate) {
    Drained(f.state) && c in f.certificates && c.state == f.state
  }

  predicate HasClaimedNotification(s: State) {
    exists n :: n in s.notifications && n.status == NoteClaimed
  }

  // ---- processes and files ---------------------------------------------------------------------

  /** What a handle has done so far in its current operation. */
  datatype Stage =
    | Outset          // entered a mutating method
    | ArtifactMarked  // created the artifact marker
    | ArtifactDone    // published the artifact directory
    | Enter           // entered `persist`
    | Marked          // created the state marker
    | Written         // wrote the temporary state file

  /** `ensureWritable` looks for the barrier, then compares the epoch, then lets the stage go on. */
  datatype Gate = AtBarrier | AtEpoch | Through

  datatype Pc =
    | Closed | OpenedBarrier | OpenedEpoch
    | Idle
    | At(stage: Stage, gate: Gate)
    | Renamed
    | Failing(poison: bool)
    | Poisoned

  datatype Handle = Handle(pid: nat, pc: Pc, epoch: nat)

  datatype MarkerKind = StateMarker | ArtifactMarker
  datatype Marker = Marker(handle: nat, kind: MarkerKind)

  /** `Malformed` is a barrier file whose writer died before its content was complete. */
  datatype Barrier = Absent | Malformed | Preparing(target: Name) | Certified(target: Name, certificate: Certificate)

  datatype Task = ToPrepare | ToVerify | ToResume

  datatype Updater =
    | Quiet
    | Starting(target: Name)                                   // store opened, no barrier yet
    | Listing(task: Task)                                      // the barrier is up
    | Probing(task: Task, todo: set<Marker>, dead: set<Marker>)
    | Reconciling(task: Task, dead: set<Marker>)
    | Clear(task: Task)                                        // no writer is in flight
    | Rotated
    | Maintaining(task: Task, mem: StoreFile)
    | Sealing(certificate: Certificate)
    | Sealed                                                   // barrier renamed, not yet synced
    | Lifting                                                  // epoch rotated, barrier still there

  /** History: who replaced what. */
  datatype Write = StateBy(handle: nat) | ArtifactBy(handle: nat) | ByUpdater

  datatype Sys = Sys(
    barrier: Barrier, epoch: nat, disk: StoreFile, markers: set<Marker>,
    handles: seq<Handle>, dead: set<nat>, updater: Updater,
    fence: nat, log: seq<Write>)

  predicate Initial(s: Sys) {
    && s.barrier == Absent && s.markers == {} && s.dead == {} && s.updater == Quiet
    && s.fence == 0 && s.log == []
    && (forall h :: h in s.handles ==> h.pc == Closed)
  }

  predicate Alive(s: Sys, h: nat) { h < |s.handles| && s.handles[h].pid !in s.dead }

  /** The owner of a marker is probed by its process identifier. */
  predicate OwnerDead(s: Sys, m: Marker) { m.handle < |s.handles| && s.handles[m.handle].pid in s.dead }

  // ---- steps of a handle -------------------------------------------------------------------------

  datatype Action =
    | LookForBarrierToOpen | ReadEpoch | Sweep(marker: Marker) | FinishOpen
    | Begin | LookForBarrier | CompareEpoch
    | MarkArtifact | PublishArtifact(created: bool) | Proceed | MarkState | WriteTemporary
    | PublishState(file: StoreFile)
    | Refused | Abort(poison: bool) | Cleanup(resolved: bool)

  function SetPc(s: Sys, h: nat, pc: Pc): (r: Sys)
    requires h < |s.handles|
  {
    s.(handles := s.handles[h := s.handles[h].(pc := pc)])
  }

  function MarkersOf(h: nat): (r: set<Marker>) { {Marker(h, StateMarker), Marker(h, ArtifactMarker)} }

  function Act(s: Sys, h: nat, a: Action): (r: Sys)
    requires Alive(s, h)
  {
    var pc := s.handles[h].pc;
    match a
    case LookForBarrierToOpen =>
      if pc == Closed && s.barrier == Absent then SetPc(s, h, OpenedBarrier) else s
    case ReadEpoch =>
      if pc == OpenedBarrier then s.(handles := s.handles[h := s.handles[h].(pc := OpenedEpoch, epoch := s.epoch)])
        else s
    case Sweep(m) =>
      if pc == OpenedEpoch && OwnerDead(s, m) then s.(markers := s.markers - {m}) else s
    case FinishOpen =>
      if pc == OpenedEpoch then SetPc(s, h, Idle) else s
    case Begin =>
      if pc == Idle then SetPc(s, h, At(Outset, AtBarrier)) else s
    case LookForBarrier =>
      if !pc.At? || pc.gate != AtBarrier then s
      else SetPc(s, h, if s.barrier == Absent then At(pc.stage, AtEpoch) else Failing(true))
    case CompareEpoch =>
      if !pc.At? || pc.gate != AtEpoch then s
      else SetPc(s, h, if s.handles[h].epoch == s.epoch then At(pc.stage, Through) else Failing(true))
    case MarkArtifact =>
      if pc != At(Outset, Through) then s
      else SetPc(s.(markers := s.markers + {Marker(h, ArtifactMarker)}), h, At(ArtifactMarked, AtBarrier))
    case PublishArtifact(created) =>
      if pc != At(ArtifactMarked, Through) then s
      else SetPc(if created then s.(log := s.log + [ArtifactBy(h)]) else s, h, At(ArtifactDone, AtBarrier))
    case Proceed =>
      if pc == At(Outset, Through) || pc == At(ArtifactDone, Through) then SetPc(s, h, At(Enter, AtBarrier)) else s
    case MarkState =>
      if pc != At(Enter, Through) then s
      else SetPc(s.(markers := s.markers + {Marker(h, StateMarker)}), h, At(Marked, AtBarrier))
    case WriteTemporary =>
      if pc == At(Marked, Through) then SetPc(s, h, At(Written, AtBarrier)) else s
    case PublishState(file) =>
      if pc != At(Written, Through) then s
      else SetPc(s.(disk := file, log := s.log + [StateBy(h)]), h, Renamed)
    case Refused =>
      // creating the state marker failed: the handle is not poisoned
      if pc == At(Enter, Through) then SetPc(s, h, Failing(false)) else s
    case Abort(poison) =>
      // inside the `try` of `persist` the handle is always poisoned; before it, only by a refused check
      if pc == Renamed || (pc.At? && pc.stage in {Marked, Written}) then SetPc(s, h, Failing(true))
      else if pc.At? then SetPc(s, h, Failing(poison))
      else s
    case Cleanup(resolved) =>
      // the markers stay behind when a rename could not be proved durable
      if pc != Renamed && !pc.Failing? then s
      else
        var next := if pc == Renamed || !pc.poison then Idle else Poisoned;
        if resolved then SetPc(s.(markers := s.markers - MarkersOf(h)), h, next) else SetPc(s, h, Poisoned)
  }

  // ---- steps of the updater ----------------------------------------------------------------------

  datatype Command =
    | StartPrepare(target: Name) | Raise(torn: bool) | StartTask(task: Task)
    | List | Probe(marker: Marker) | EndProbe | Reconcile(marker: Marker) | EndReconcile
    | Rotate | OpenStore | PublishReopened | Purge(claim: ClaimId) | Certify
    | Seal | Return | Lift | Fail | Crash

  /** A failed preparation withdraws its barrier; a failed check leaves it. */
  function FailTask(s: Sys, t: Task): (r: Sys) {
    if t == ToPrepare then s.(barrier := Absent, updater := Quiet) else s.(updater := Quiet)
  }

  function TaskOf(u: Updater): (t: Task) {
    match u
    case Listing(t) => t
    case Probing(t, _, _) => t
    case Reconciling(t, _) => t
    case Clear(t) => t
    case Maintaining(t, _) => t
    case Lifting => ToResume
    case _ => ToPrepare
  }

  function PublishMaintained(s: Sys, mem: StoreFile): (r: Sys)
    requires s.updater.Maintaining?
  {
    s.(disk := mem, log := s.log + [ByUpdater], updater := Maintaining(s.updater.task, mem))
  }

  function Reopened(f: StoreFile): (r: StoreFile) { f.(state := Reopen(f.state)) }

  /** With a certified barrier, verifying and resuming need the certificate to match the state. */
  predicate Verified(s: Sys, mem: StoreFile) {
    s.barrier.Certified? && HasCertificate(mem, s.barrier.certificate)
  }

  function Execute(s: Sys, c: Command): (r: Sys) {
    var u := s.updater;
    match c
    case StartPrepare(target) =>
      if u != Quiet then s
      else if s.barrier == Absent then s.(updater := Starting(target))
      else if s.barrier == Preparing(target) then s.(updater := Listing(ToPrepare))
      else if s.barrier.Certified? && s.barrier.target == target then s.(updater := Listing(ToVerify))
      else s
    case Raise(torn) =>
      if !u.Starting? then s
      else if torn then s.(barrier := Malformed, updater := Quiet)
      else s.(barrier := Preparing(u.target), updater := Listing(ToPrepare))
    case StartTask(task) =>
      if u == Quiet && s.barrier.Certified? && task != ToPrepare then s.(updater := Listing(task)) else s
    case List =>
      if u.Listing? then s.(updater := Probing(u.task, s.markers, {})) else s
    case Probe(m) =>
      if !u.Probing? || m !in u.todo then s
      else if OwnerDead(s, m) then s.(updater := Probing(u.task, u.todo - {m}, u.dead + {m}))
      else FailTask(s, u.task)
    case EndProbe =>
      if u.Probing? && u.todo == {} then s.(updater := Reconciling(u.task, u.dead)) else s
    case Reconcile(m) =>
      if u.Reconciling? && m in u.dead then s.(markers := s.markers - {m}, updater := Reconciling(u.task, u.dead - {m}))
      else if (u.Starting? || u.Maintaining?) && OwnerDead(s, m) then s.(markers := s.markers - {m}) // opening a store
      else s
    case EndReconcile =>
      if u.Reconciling? && u.dead == {} then s.(updater := Clear(u.task)) else s
    case Rotate =>
      if u == Clear(ToPrepare) then s.(epoch := s.epoch + 1, updater := Rotated)
      else if u.Maintaining? && u.task == ToResume && Verified(s, u.mem)
      then s.(epoch := s.epoch + 1, fence := s.epoch + 1, updater := Lifting)
      else s
    case OpenStore =>
      if u == Rotated then s.(updater := Maintaining(ToPrepare, s.disk))
      else if u.Clear? && u.task != ToPrepare then s.(updater := Maintaining(u.task, s.disk))
      else s
    case PublishReopened =>
      // opening a store turns claimed notifications into ambiguous ones and persists that
      if u.Maintaining? && HasClaimedNotification(u.mem.state) then PublishMaintained(s, Reopened(u.mem))
      else if u.Starting? && HasClaimedNotification(s.disk.state)
        then s.(disk := Reopened(s.disk), log := s.log + [ByUpdater])
      else s
    case Purge(claim) =>
      if u.Maintaining? && u.task == ToPrepare && PurgeReady(u.mem.state, claim)
      then PublishMaintained(s, u.mem.(state := PurgeFinish(u.mem.state, claim)))
      else s
    case Certify =>
      if !u.Maintaining? || u.task != ToPrepare || !s.barrier.Preparing? || HasClaimedNotification(u.mem.state) then s
      else if !Drained(u.mem.state) then FailTask(s, ToPrepare)
      else
        var c := Certificate(u.mem.state, s.barrier.target);
        if c in u.mem.certificates then s.(updater := Sealing(c))
        else
          var file := u.mem.(certificates := u.mem.certificates + {c});
          s.(disk := file, log := s.log + [ByUpdater], updater := Sealing(c))
    case Seal =>
      if u.Sealing? && s.barrier.Preparing?
      then s.(barrier := Certified(s.barrier.target, u.certificate), updater := Updater.Sealed) else s
    case Return =>
      if u == Updater.Sealed || (u.Maintaining? && u.task == ToVerify) then s.(updater := Quiet) else s
    case Lift =>
      if u == Lifting then s.(barrier := Absent, updater := Quiet) else s
    case Fail =>
      if u == Quiet then s else if u.Starting? then s.(updater := Quiet) else FailTask(s, TaskOf(u))
    case Crash =>
      s.(updater := Quiet)
  }

  // ---- runs ----------------------------------------------------------------------------------------

  datatype Step = ByHandle(handle: nat, action: Action) | ByCommand(command: Command) | Die(pid: nat)

  function Do(s: Sys, step: Step): (r: Sys) {
    match step
    case ByHandle(h, a) => if Alive(s, h) then Act(s, h, a) else s
    case ByCommand(c) => Execute(s, c)
    case Die(pid) => s.(dead := s.dead + {pid})
  }

  function After(s: Sys, steps: seq<Step>): (r: Sys)
    decreases |steps|
  {
    if steps == [] then s else After(Do(s, steps[0]), steps[1..])
  }
}
