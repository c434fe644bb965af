/**
 * What the rollback protocol guarantees over every run: once the updater's scan has passed, no
 * ordinary handle replaces anything until the barrier is gone; a handle opened before a
 * certification never publishes after it; a certified state file keeps its bytes.
 */
module RollbackFenceProofs {
  import opened AutoSkillModel
  import opened RollbackFence

  /** The marker that covers the next rename of a handle in this stage. */
  function Covering(h: nat, stage: Stage): (m: Marker) {
    Marker(h, if stage == ArtifactMarked then ArtifactMarker else StateMarker)
  }

  /** The handle has seen no barrier and its next rename asks no more about it. */
  predicate Committed(pc: Pc) {
    pc.At? && pc.stage in {ArtifactMarked, Written} && pc.gate != AtBarrier
  }

  predicate HoldsMarker(pc: Pc) {
    pc.At? && pc.stage in {ArtifactMarked, Marked, Written}
  }

  ghost predicate Covered(s: Sys) {
    forall h: nat :: Alive(s, h) && HoldsMarker(s.handles[h].pc) ==> Covering(h, s.handles[h].pc.stage) in s.markers
  }

  ghost predicate NoneCommitted(s: Sys) {
    forall h: nat :: Alive(s, h) ==> !Committed(s.handles[h].pc)
  }

  /** While markers are probed, every handle that could still rename is on the list. */
  ghost predicate CommittedListed(s: Sys, todo: set<Marker>) {
    forall h: nat :: Alive(s, h) && Committed(s.handles[h].pc) ==> Covering(h, s.handles[h].pc.stage) in todo
  }

  predicate PastScan(u: Updater) {
    match u
    case Quiet => false
    case Starting(_) => false
    case Listing(_) => false
    case Probing(_, _, _) => false
    case _ => true
  }

  /** The barrier is up and no live handle can rename without seeing it. */
  ghost predicate Closed(s: Sys) {
    s.barrier != Absent && NoneCommitted(s)
  }

  ghost predicate FenceInv(s: Sys) {
    && Covered(s)
    && (s.barrier.Certified? || PastScan(s.updater) ==> Closed(s))
    && (s.updater.Probing? ==> s.barrier != Absent && CommittedListed(s, s.updater.todo))
    && (s.updater.Listing? ==> s.barrier != Absent)
    && (s.updater.Starting? ==> s.barrier == Absent)
    && (s.updater.Probing? ==> OwnersDead(s, s.updater.dead))
    && (s.updater.Reconciling? ==> OwnersDead(s, s.updater.dead))
  }

  ghost predicate OwnersDead(s: Sys, dead: set<Marker>) {
    forall m :: m in dead ==> OwnerDead(s, m)
  }

  ghost predicate EpochInv(s: Sys) {
    && s.fence <= s.epoch
    && (forall h: nat :: Alive(s, h) && s.handles[h].epoch < s.fence && Committed(s.handles[h].pc) ==>
      s.handles[h].pc.gate != Through)
    && (forall h :: 0 <= h < |s.handles| && s.handles[h].pc !in {Pc.Closed, OpenedBarrier} ==>
      s.handles[h].epoch <= s.epoch)
  }

  /** The certificate on the barrier, or about to be put there, matches the file. */
  ghost predicate CertificateInv(s: Sys) {
    && (s.barrier.Certified? ==> HasCertificate(s.disk, s.barrier.certificate) && !HasClaimedNotification(s.disk.state))
    && (s.updater.Sealing? ==> HasCertificate(s.disk, s.updater.certificate) && !HasClaimedNotification(s.disk.state))
    && (s.updater.Maintaining? ==> s.updater.mem == s.disk)
    && TaskMatches(s.updater, s.barrier)
  }

  /** A preparation works under a preparing barrier, the other tasks under a certified one. */
  predicate TaskMatches(u: Updater, b: Barrier) {
    match u
    case Quiet => true
    case Starting(_) => true
    case Sealed => b.Certified?
    case _ => if TaskOf(u) == ToPrepare then b.Preparing? else b.Certified?
  }

  lemma ActKeepsFence(s: Sys, h: nat, a: Action)
    requires FenceInv(s) && Alive(s, h)
    ensures FenceInv(Act(s, h, a))
  {}

  lemma ExecuteKeepsFence(s: Sys, c: Command)
    requires FenceInv(s)
    ensures FenceInv(Execute(s, c))
  {}

  lemma KeepsFence(s: Sys, step: Step)
    requires FenceInv(s)
    ensures FenceInv(Do(s, step))
  {
    hide Act, Execute;
    match step
    case ByHandle(h, a) => if Alive(s, h) { ActKeepsFence(s, h, a); }
    case ByCommand(c) => ExecuteKeepsFence(s, c);
    case Die(_) =>
  }

  /** Under a closed barrier an ordinary handle replaces nothing. */
  lemma ClosedStopsHandles(s: Sys, h: nat, a: Action)
    requires Closed(s) && Alive(s, h)
    ensures var t := Act(s, h, a);
      t.disk == s.disk && t.log == s.log && t.barrier == s.barrier && t.updater == s.updater && Closed(t)
  {}

  lemma ActKeepsEpoch(s: Sys, h: nat, a: Action)
    requires EpochInv(s) && Alive(s, h)
    ensures EpochInv(Act(s, h, a))
  {}

  lemma ExecuteKeepsEpoch(s: Sys, c: Command)
    requires FenceInv(s) && EpochInv(s)
    ensures EpochInv(Execute(s, c))
  {}

  lemma ActKeepsCertificate(s: Sys, h: nat, a: Action)
    requires FenceInv(s) && CertificateInv(s) && Alive(s, h)
    ensures CertificateInv(Act(s, h, a))
  {
    if s.barrier.Certified? || PastScan(s.updater) {
      ClosedStopsHandles(s, h, a);
      hide Act;
    }
  }

  lemma ExecuteKeepsCertificate(s: Sys, c: Command)
    requires CertificateInv(s)
    ensures CertificateInv(Execute(s, c))
  {
    hide PurgeFinish, PurgeReady, Drained;
  }

  // ---- runs ----------------------------------------------------------------------------------------

  ghost predicate Inv(s: Sys) {
    FenceInv(s) && EpochInv(s) && CertificateInv(s)
  }

  lemma StepKeeps(s: Sys, step: Step)
    requires Inv(s)
    ensures Inv(Do(s, step))
  {
    KeepsFence(s, step);
    hide FenceInv, CertificateInv, Act, Execute;
    match step
    case ByHandle(h, a) => if Alive(s, h) { ActKeepsEpoch(s, h, a); ActKeepsCertificate(s, h, a); }
    case ByCommand(c) => ExecuteKeepsEpoch(s, c); ExecuteKeepsCertificate(s, c);
    case Die(_) => DeathKeeps(s, step.pid);
  }

  lemma DeathKeeps(s: Sys, pid: nat)
    requires EpochInv(s) && CertificateInv(s)
    ensures EpochInv(Do(s, Die(pid))) && CertificateInv(Do(s, Die(pid)))
  {}

  lemma {:induction false} RunKeeps(s: Sys, steps: seq<Step>)
    requires Inv(s)
    ensures Inv(After(s, steps))
    decreases |steps|
  {
    if steps != [] {
      StepKeeps(s, steps[0]);
      hide Inv, Do;
      RunKeeps(Do(s, steps[0]), steps[1..]);
    }
  }

  lemma InitialInv(s: Sys)
    requires Initial(s)
    ensures Inv(s)
  {
    forall h: nat | h < |s.handles| ensures s.handles[h].pc == Pc.Closed {
      assert s.handles[h] in s.handles;
    }
  }

  /** The barrier file exists after every step. */
  predicate BarrierStays(s: Sys, steps: seq<Step>)
    decreases |steps|
  {
    steps != [] ==> Do(s, steps[0]).barrier != Absent && BarrierStays(Do(s, steps[0]), steps[1..])
  }

  /** `now` continues `was`, and no write in between is by a handle that `who` selects. */
  ghost predicate NoWritesBy(was: seq<Write>, now: seq<Write>, who: nat -> bool) {
    && was <= now
    && (forall k :: |was| <= k < |now| ==> now[k] == ByUpdater || !who(now[k].handle))
  }

  lemma NoWritesChain(a: seq<Write>, b: seq<Write>, c: seq<Write>, who: nat -> bool)
    requires NoWritesBy(a, b, who) && NoWritesBy(b, c, who)
    ensures NoWritesBy(a, c, who)
  {}

  lemma ClosedStep(s: Sys, step: Step)
    requires Closed(s) && Do(s, step).barrier != Absent
    ensures Closed(Do(s, step)) && NoWritesBy(s.log, Do(s, step).log, h => true)
  {
    match step
    case ByHandle(h, a) => if Alive(s, h) { ClosedStopsHandles(s, h, a); hide Act, Closed; }
    case ByCommand(c) => ClosedExecute(s, c);
    case Die(_) =>
  }

  lemma ClosedExecute(s: Sys, c: Command)
    requires Closed(s) && Execute(s, c).barrier != Absent
    ensures Closed(Execute(s, c)) && NoWritesBy(s.log, Execute(s, c).log, h => true)
  {
    hide PurgeFinish, PurgeReady, Drained, HasClaimedNotification, Reopened;
    var t := Execute(s, c);
    assert t.handles == s.handles && t.dead == s.dead;
    assert t.log == s.log || t.log == s.log + [ByUpdater];
  }

  lemma {:induction false} ClosedRun(s: Sys, steps: seq<Step>)
    requires Closed(s) && BarrierStays(s, steps)
    ensures Closed(After(s, steps)) && NoWritesBy(s.log, After(s, steps).log, h => true)
    decreases |steps|
  {
    if steps != [] {
      var t := Do(s, steps[0]);
      ClosedStep(s, steps[0]);
      hide Closed, Do, NoWritesBy;
      ClosedRun(t, steps[1..]);
      NoWritesChain(s.log, t.log, After(s, steps).log, h => true);
    }
  }

  /**
   * Rollback fence: from the moment the updater's marker scan has passed until the barrier file is
   * removed, only the updater replaces the state file or publishes an artifact, whatever the
   * handles do, whichever processes die, and even if the updater itself crashes.
   */
  lemma ScanExcludesWriters(start: Sys, before: seq<Step>, after: seq<Step>)
    requires Initial(start)
    requires PastScan(After(start, before).updater) && BarrierStays(After(start, before), after)
    ensures NoWritesBy(After(start, before).log, After(After(start, before), after).log, h => true)
  {
    InitialInv(start);
    RunKeeps(start, before);
    ClosedRun(After(start, before), after);
  }

  // ---- certified state -------------------------------------------------------------------------------

  lemma CertifiedStep(s: Sys, step: Step)
    requires Inv(s) && s.barrier.Certified? && Do(s, step).barrier != Absent
    ensures Do(s, step).disk == s.disk && Do(s, step).barrier == s.barrier
  {
    match step
    case ByHandle(h, a) => if Alive(s, h) { ClosedStopsHandles(s, h, a); hide Act; }
    case ByCommand(c) => hide PurgeFinish, PurgeReady, Drained;
    case Die(_) =>
  }

  lemma {:induction false} CertifiedRun(s: Sys, steps: seq<Step>)
    requires Inv(s) && s.barrier.Certified? && BarrierStays(s, steps)
    ensures After(s, steps).disk == s.disk && After(s, steps).barrier == s.barrier
    decreases |steps|
  {
    if steps != [] {
      CertifiedStep(s, steps[0]);
      StepKeeps(s, steps[0]);
      hide Inv, Do;
      CertifiedRun(Do(s, steps[0]), steps[1..]);
    }
  }

  /** A certified state file carries its certificate and keeps its bytes until the barrier is lifted. */
  lemma CertifiedStateIsFrozen(start: Sys, before: seq<Step>, after: seq<Step>)
    requires Initial(start)
    requires After(start, before).barrier.Certified? && BarrierStays(After(start, before), after)
    ensures After(After(start, before), after).disk == After(start, before).disk
    ensures HasCertificate(After(start, before).disk, After(start, before).barrier.certificate)
  {
    InitialInv(start);
    RunKeeps(start, before);
    CertifiedRun(After(start, before), after);
  }

  // ---- epoch fence -----------------------------------------------------------------------------------

  predicate HasReadEpoch(pc: Pc) { pc !in {Pc.Closed, OpenedBarrier} }

  /** The preparation has succeeded and its barrier is not being lifted. */
  predicate StandsCertified(s: Sys) {
    s.barrier.Certified? && s.updater != Updater.Sealed && s.updater != Lifting
  }

  /** A handle of the past: the certified barrier stands, or a later epoch has fenced it off. */
  ghost predicate Fenced(s: Sys, h: nat) {
    && h < |s.handles| && HasReadEpoch(s.handles[h].pc)
    && (StandsCertified(s) || s.handles[h].epoch < s.fence)
  }

  lemma FencedAct(s: Sys, h: nat, g: nat, a: Action)
    requires FenceInv(s) && EpochInv(s) && Fenced(s, h) && Alive(s, g)
    ensures Fenced(Act(s, g, a), h) && NoWritesBy(s.log, Act(s, g, a).log, x => x == h)
  {
    if s.barrier.Certified? {
      ClosedStopsHandles(s, g, a);
    }
  }

  lemma FencedExecute(s: Sys, h: nat, c: Command)
    requires FenceInv(s) && EpochInv(s) && CertificateInv(s) && Fenced(s, h)
    ensures Fenced(Execute(s, c), h) && NoWritesBy(s.log, Execute(s, c).log, x => x == h)
  {
    hide PurgeFinish, PurgeReady, Drained;
  }

  lemma FencedStep(s: Sys, h: nat, step: Step)
    requires Inv(s) && Fenced(s, h)
    ensures Fenced(Do(s, step), h) && NoWritesBy(s.log, Do(s, step).log, x => x == h)
  {
    hide FenceInv, EpochInv, CertificateInv, Act, Execute;
    match step
    case ByHandle(g, a) => if Alive(s, g) { FencedAct(s, h, g, a); }
    case ByCommand(c) => FencedExecute(s, h, c);
    case Die(_) =>
  }

  lemma {:induction false} FencedRun(s: Sys, h: nat, steps: seq<Step>)
    requires Inv(s) && Fenced(s, h)
    ensures NoWritesBy(s.log, After(s, steps).log, x => x == h)
    decreases |steps|
  {
    if steps != [] {
      var t := Do(s, steps[0]);
      FencedStep(s, h, steps[0]);
      StepKeeps(s, steps[0]);
      hide Inv, Do, NoWritesBy, Fenced;
      FencedRun(t, h, steps[1..]);
      NoWritesChain(s.log, t.log, After(s, steps).log, x => x == h);
    }
  }

  /**
   * Epoch fence: a handle that had read its epoch when a preparation stood certified never
   * publishes again, in any continuation: not under the barrier, not after roll-forward lifts it,
   * and not if it was opened between the two epoch rotations.
   */
  lemma OldHandlesNeverPublish(start: Sys, before: seq<Step>, after: seq<Step>, h: nat)
    requires Initial(start)
    requires var s := After(start, before);
      StandsCertified(s) && h < |s.handles| && HasReadEpoch(s.handles[h].pc)
    ensures NoWritesBy(After(start, before).log, After(After(start, before), after).log, x => x == h)
  {
    InitialInv(start);
    RunKeeps(start, before);
    FencedRun(After(start, before), h, after);
  }
}
