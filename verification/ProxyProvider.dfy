/**
 * `transcribe` of the proxy provider (packages/app/src/deepgram-proxy-provider.ts): every await can
 * fail, and on every path the hold it took is left open or closed with a charge that covers what
 * the request really cost.
 */
module ProxyProvider {
  import opened Common
  import opened SpendLedger

  datatype Staging = StageOk | StageRefused | StageThrew
  datatype Reserving = ReserveOk | ReserveRefused | ReserveThrew(held: bool)
  datatype Preparing = PrepareOk | PrepareRefused | PrepareThrew
  /** A malformed answer, or one above the maximum, counts as thrown. */
  datatype Dispatching = DispatchOk(duration: nat) | DispatchNone | DispatchAttempted | DispatchThrew
  datatype Cancelling = CancelOk | CancelClaimed | CancelAmbiguous | CancelThrew

  /** What the ports answer during one call, whether each deadline check passes, and the true cost. */
  datatype World = World(
    capability: bool, deadlines: seq<bool>, stage: Staging, reserve: Reserving, prepare: Preparing,
    dispatch: Dispatching, settles: seq<bool>, cancel: Cancelling, cost: nat)

  predicate Passes(flags: seq<bool>, i: nat) { i < |flags| && flags[i] }

  /** How far the call gets before something fails. */
  predicate HasPermit(w: World) {
    w.capability && Passes(w.deadlines, 0) && w.stage == StageOk && Passes(w.deadlines, 1) &&
    w.reserve == ReserveOk && Passes(w.deadlines, 2) && w.prepare == PrepareOk
  }

  predicate Dispatches(w: World) { HasPermit(w) && Passes(w.deadlines, 3) }

  /** What the ports promise about the cost, which is never above the maximum. */
  predicate Truthful(w: World, maximum: nat) {
    && w.cost <= maximum
    && (!HasPermit(w) ==> w.cost == 0)
    && (HasPermit(w) && !Dispatches(w) && w.cancel == CancelOk ==> w.cost == 0)
    && (Dispatches(w) && w.dispatch == DispatchNone ==> w.cost == 0)
    && (Dispatches(w) && w.dispatch.DispatchOk? ==> w.cost <= w.dispatch.duration <= maximum)
  }

  /** What became of the hold in the ledger. */
  datatype Hold = NoHold | StillOpen | Closed(outcome: Outcome)

  predicate Covers(h: Hold, maximum: nat, cost: nat) {
    match h
    case NoHold => cost == 0
    case StillOpen => cost <= maximum
    case Closed(o) => cost <= Charge(o, maximum, maximum)
  }

  /** The ledger took a hold for this call. */
  predicate TakesHold(w: World) {
    && w.capability && Passes(w.deadlines, 0) && w.stage == StageOk && Passes(w.deadlines, 1)
    && w.reserve in {ReserveOk, ReserveThrew(true)}
  }

  /** The outcome that the `finally` block settles with. */
  function LastOutcome(w: World): (o: Outcome) {
    if Dispatches(w) then Ambiguous
    else if HasPermit(w) && w.cancel != CancelOk then Ambiguous
    else Released
  }

  /** What one call leaves in the ledger, by what its ports answer. */
  function HoldOf(w: World): (h: Hold) {
    if !TakesHold(w) then NoHold
    else if w.reserve != ReserveOk then StillOpen
    else if Dispatches(w) && w.dispatch != DispatchThrew then
      if Passes(w.settles, 0) then
        Closed(match w.dispatch case DispatchOk(d) => Settled(d) case DispatchNone => Released case _ => Ambiguous)
      else if Passes(w.settles, 1) then Closed(Ambiguous)
      else StillOpen
    else if Passes(w.settles, 0) then Closed(LastOutcome(w))
    else StillOpen
  }

  datatype Reply = Transcript(duration: nat) | Failed | Busy

  /** Whatever fails, the hold is left open or closed with a charge that covers the true cost. */
  lemma HoldCovers(w: World, maximum: nat)
    requires Truthful(w, maximum)
    ensures Covers(HoldOf(w), maximum, w.cost)
  {}

  class Provider {
    const maximum: nat
    var active: bool

    constructor (maximum: nat)
      ensures this.maximum == maximum && !active
    {
      this.maximum, this.active := maximum, false;
    }

    method Transcribe(w: World) returns (reply: Reply, hold: Hold, settlements: nat)
      requires Truthful(w, maximum)
      modifies this
      ensures old(active) ==> reply == Busy && hold == NoHold && active
      ensures !old(active) ==> !active && hold == HoldOf(w) && Covers(hold, maximum, w.cost)
      ensures settlements <= 2 && (hold.Closed? ==> settlements >= 1 && Passes(w.settles, settlements - 1))
      ensures reply.Transcript? ==>
        Dispatches(w) && w.dispatch == DispatchOk(reply.duration) && hold == Closed(Settled(reply.duration))
    {
      settlements := 0;
      if active {
        return Busy, NoHold, 0;
      }
      active := true;
      reply, hold := Failed, NoHold;
      var ticket, permit, reservation, terminal, dispatchCalled := false, false, false, false, false;
      // the try block: leaving it early means an exception was thrown
      if w.capability && Passes(w.deadlines, 0) && w.stage == StageOk {
        ticket := true;
        if Passes(w.deadlines, 1) {
          reservation := w.reserve == ReserveOk;
          if reservation || (w.reserve.ReserveThrew? && w.reserve.held) {
            hold := StillOpen;
          }
          if reservation && Passes(w.deadlines, 2) && w.prepare == PrepareOk {
            permit := true;
            if Passes(w.deadlines, 3) {
              dispatchCalled := true;
              if w.dispatch != DispatchThrew {
                var outcome := match w.dispatch
                  case DispatchOk(d) => Settled(d)
                  case DispatchNone => Released
                  case _ => Ambiguous;
                if Passes(w.settles, 0) {
                  hold, terminal := Closed(outcome), true;
                  if w.dispatch.DispatchOk? && Passes(w.deadlines, 4) {
                    reply := Transcript(w.dispatch.duration);
                  }
                }
                settlements := 1;
              }
            }
          }
        }
      }
      // the finally block
      if reservation && !terminal {
        var outcome := if dispatchCalled then Ambiguous else Released;
        if !dispatchCalled && permit {
          outcome := if w.cancel == CancelOk then Released else Ambiguous;
        }
        if Passes(w.settles, settlements) {
          hold := Closed(outcome);
        }
        settlements := settlements + 1;
      }
      active := false;
    }
  }
}
