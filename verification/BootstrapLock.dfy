/**
 * The lock-plus-compare-and-swap save of the Brain bootstrap store
 * (packages/app/src/brain-bootstrap-store.ts), for any number of concurrent savers that take one
 * file effect at a time and can fail or die after each. Exclusive creation is test-and-set, a
 * rename is atomic, and the nonce of a saver is its index.
 */
module BootstrapLock {
  import opened Common

  datatype State = State(revision: nat, body: nat)

  /** `Garbled` is a lock whose creator died or failed before its content was written. */
  datatype Lock = Free | Held(saver: nat) | Garbled

  datatype Pc =
    | Start
    | Looked                       // saw no lock
    | Created                      // created the lock
    | Owning                       // read its own nonce back
    | Cleared                      // the current revision is the one before
    | Already                      // the same content is already published
    | TempWritten
    | Rechecked                    // still owns the lock
    | Renamed
    | Cleaning(acquired: bool, failed: bool)
    | Releasing(failed: bool)      // read its own nonce again, about to remove the lock
    | Done(failed: bool)

  datatype Saver = Saver(state: State, pc: Pc, dead: bool)

  /** `published` is history: every state that was renamed into place. */
  datatype Sys = Sys(lock: Lock, target: Option<State>, temps: set<nat>, savers: seq<Saver>, published: seq<State>)

  predicate Initial(s: Sys) {
    && s.lock == Free && s.target.None? && s.temps == {} && s.published == []
    && (forall v :: v in s.savers ==> v.pc == Start && !v.dead)
  }

  datatype Step =
    | Next(saver: nat)
    | Abort(saver: nat, torn: bool)  // an effect fails; `torn`: creating the lock, half way
    | Die(saver: nat, torn: bool)
    | Doctor                       // an operator removes an abandoned lock

  function SetPc(s: Sys, i: nat, pc: Pc): (r: Sys)
    requires i < |s.savers|
  {
    s.(savers := s.savers[i := s.savers[i].(pc := pc)])
  }

  predicate Follows(target: Option<State>, state: State) {
    state.revision == if target.None? then 1 else target.value.revision + 1
  }

  function Advance(s: Sys, i: nat): (r: Sys)
    requires i < |s.savers|
  {
    var v := s.savers[i];
    match v.pc
    case Start => SetPc(s, i, if s.lock == Free then Looked else Cleaning(false, true))
    case Looked =>
      if s.lock == Free then SetPc(s.(lock := Held(i)), i, Created) else SetPc(s, i, Cleaning(false, true))
    case Created => SetPc(s, i, if s.lock == Held(i) then Owning else Cleaning(true, true))
    case Owning =>
      if s.target == Some(v.state) then SetPc(s, i, Already)
      else SetPc(s, i, if Follows(s.target, v.state) then Cleared else Cleaning(true, true))
    case Cleared =>
      if i in s.temps then SetPc(s, i, Cleaning(true, true)) else SetPc(s.(temps := s.temps + {i}), i, TempWritten)
    case Already => SetPc(s, i, Cleaning(true, false))
    case TempWritten => SetPc(s, i, if s.lock == Held(i) then Rechecked else Cleaning(true, true))
    case Rechecked =>
      SetPc(s.(target := Some(v.state), temps := s.temps - {i}, published := s.published + [v.state]), i, Renamed)
    case Renamed => SetPc(s, i, Cleaning(true, false))
    case Cleaning(acquired, failed) =>
      SetPc(s.(temps := s.temps - {i}), i, if acquired && s.lock == Held(i) then Releasing(failed) else Done(failed))
    case Releasing(failed) => SetPc(s.(lock := Free), i, Done(failed))
    case Done(_) => s
  }

  /** From creating the lock to removing it. */
  predicate Acquired(pc: Pc) {
    match pc
    case Start => false
    case Looked => false
    case Cleaning(acquired, _) => acquired
    case Done(_) => false
    case _ => true
  }

  function Fail(s: Sys, i: nat): (r: Sys)
    requires i < |s.savers|
  {
    var pc := s.savers[i].pc;
    match pc
    case Cleaning(_, _) => SetPc(s, i, Done(true))
    case Releasing(_) => SetPc(s, i, Done(true))
    case Done(_) => s
    case _ => SetPc(s, i, Cleaning(Acquired(pc), true))
  }

  /** No saver is behind the lock: its owner died, or finished without being able to remove it. */
  predicate Abandoned(s: Sys) {
    || s.lock == Garbled
    || (s.lock.Held? && s.lock.saver < |s.savers| && (s.savers[s.lock.saver].dead || s.savers[s.lock.saver].pc.Done?))
  }

  function Do(s: Sys, step: Step): (r: Sys) {
    match step
    case Next(i) => if i < |s.savers| && !s.savers[i].dead then Advance(s, i) else s
    case Abort(i, torn) =>
      if i >= |s.savers| || s.savers[i].dead then s
      else if torn && s.savers[i].pc == Looked && s.lock == Free then Fail(s.(lock := Garbled), i)
      else Fail(s, i)
    case Die(i, torn) =>
      if i >= |s.savers| then s
      else
        var gone := s.(savers := s.savers[i := s.savers[i].(dead := true)]);
        if torn && !s.savers[i].dead && s.savers[i].pc == Looked && s.lock == Free then gone.(lock := Garbled) else gone
    case Doctor => if Abandoned(s) then s.(lock := Free) else s
  }

  function After(s: Sys, steps: seq<Step>): (r: Sys)
    decreases |steps|
  {
    if steps == [] then s else After(Do(s, steps[0]), steps[1..])
  }

  // ---- the invariant --------------------------------------------------------------------------------------

  ghost predicate Numbered(s: Sys) {
    && (forall k :: 0 <= k < |s.published| ==> s.published[k].revision == k + 1)
    && s.target == if s.published == [] then None else Some(s.published[|s.published| - 1])
  }

  predicate Alive(s: Sys, i: nat) { i < |s.savers| && !s.savers[i].dead }

  ghost predicate LockInv(s: Sys) {
    forall i: nat :: Alive(s, i) && Acquired(s.savers[i].pc) ==> s.lock == Held(i)
  }

  ghost predicate CompareInv(s: Sys) {
    forall i: nat :: Alive(s, i) && s.savers[i].pc in {Cleared, TempWritten, Rechecked} ==>
      Follows(s.target, s.savers[i].state)
  }

  predicate Claims(pc: Pc) {
    pc == Already || pc == Renamed || (pc.Cleaning? && !pc.failed) || (pc.Releasing? && !pc.failed) ||
      (pc.Done? && !pc.failed)
  }

  ghost predicate SuccessInv(s: Sys) {
    forall v :: v in s.savers && Claims(v.pc) ==> v.state in s.published
  }

  ghost predicate SysInv(s: Sys) {
    Numbered(s) && LockInv(s) && CompareInv(s) && SuccessInv(s)
  }

  lemma AdvanceKeepsLock(s: Sys, i: nat)
    requires LockInv(s) && CompareInv(s) && Alive(s, i)
    ensures LockInv(Advance(s, i)) && CompareInv(Advance(s, i))
  {}

  lemma AdvanceKeepsNumbers(s: Sys, i: nat)
    requires SysInv(s) && Alive(s, i)
    ensures Numbered(Advance(s, i))
  {}

  lemma AdvanceKeepsSuccess(s: Sys, i: nat)
    requires Numbered(s) && SuccessInv(s) && i < |s.savers|
    ensures SuccessInv(Advance(s, i))
  {
    var t := Advance(s, i);
    assert s.savers[i] in s.savers;
    forall v | v in t.savers && Claims(v.pc) ensures v.state in t.published {
      var k :| 0 <= k < |t.savers| && t.savers[k] == v;
      assert s.savers[k] in s.savers;
      if k == i && s.savers[i].pc == Rechecked {
        assert t.published[|s.published|] == v.state;
      }
      assert forall x :: x in s.published ==> x in t.published;
    }
  }

  lemma FailKeeps(s: Sys, i: nat)
    requires SysInv(s) && Alive(s, i)
    ensures SysInv(Fail(s, i))
  {
    var t := Fail(s, i);
    forall v | v in t.savers && Claims(v.pc) ensures v.state in t.published {
      var k :| 0 <= k < |t.savers| && t.savers[k] == v;
      assert s.savers[k] in s.savers;
    }
  }

  lemma DeathKeeps(s: Sys, i: nat, torn: bool)
    requires SysInv(s)
    ensures SysInv(Do(s, Die(i, torn)))
  {
    var t := Do(s, Die(i, torn));
    forall v | v in t.savers && Claims(v.pc) ensures v.state in t.published {
      var k :| 0 <= k < |t.savers| && t.savers[k] == v;
      assert s.savers[k] in s.savers;
    }
  }

  lemma StepKeeps(s: Sys, step: Step)
    requires SysInv(s)
    ensures SysInv(Do(s, step))
  {
    match step
    case Next(i) =>
      if Alive(s, i) {
        AdvanceKeepsLock(s, i);
        AdvanceKeepsNumbers(s, i);
        AdvanceKeepsSuccess(s, i);
        hide Advance, Numbered, LockInv, CompareInv, SuccessInv;
      }
    case Abort(i, torn) =>
      if Alive(s, i) {
        FailKeeps(if torn && s.savers[i].pc == Looked && s.lock == Free then s.(lock := Garbled) else s, i);
        hide Fail;
      }
    case Die(i, torn) => DeathKeeps(s, i, torn);
    case Doctor =>
  }

  lemma {:induction false} RunKeeps(s: Sys, steps: seq<Step>)
    requires SysInv(s)
    ensures SysInv(After(s, steps))
    decreases |steps|
  {
    if steps != [] {
      StepKeeps(s, steps[0]);
      hide SysInv, Do;
      RunKeeps(Do(s, steps[0]), steps[1..]);
    }
  }

  lemma InitialOk(s: Sys)
    requires Initial(s)
    ensures SysInv(s)
  {
    forall i | 0 <= i < |s.savers| ensures s.savers[i].pc == Start {
      assert s.savers[i] in s.savers;
    }
  }

  // ---- theorems -------------------------------------------------------------------------------------------

  /** The published states have revisions 1, 2, 3, ... and the file is the last of them. */
  lemma RevisionsHaveNoGaps(start: Sys, steps: seq<Step>)
    requires Initial(start)
    ensures var s := After(start, steps);
      && (forall k :: 0 <= k < |s.published| ==> s.published[k].revision == k + 1)
      && s.target == if s.published == [] then None else Some(s.published[|s.published| - 1])
  {
    InitialOk(start);
    RunKeeps(start, steps);
  }

  /** At most one live saver is between creating the lock and removing it. */
  lemma OneInside(start: Sys, steps: seq<Step>, i: nat, j: nat)
    requires Initial(start)
    requires var s := After(start, steps);
      Alive(s, i) && Alive(s, j) && Acquired(s.savers[i].pc) && Acquired(s.savers[j].pc)
    ensures i == j
  {
    InitialOk(start);
    RunKeeps(start, steps);
  }

  /** A save that succeeds had exactly its content published. */
  lemma SuccessWasPublished(start: Sys, steps: seq<Step>, i: nat)
    requires Initial(start) && i < |After(start, steps).savers| && After(start, steps).savers[i].pc == Done(false)
    ensures After(start, steps).savers[i].state in After(start, steps).published
  {
    InitialOk(start);
    RunKeeps(start, steps);
    var s := After(start, steps);
    assert s.savers[i] in s.savers;
  }

  lemma {:induction false} PublishedGrows(s: Sys, steps: seq<Step>)
    ensures s.published <= After(s, steps).published && |After(s, steps).savers| == |s.savers|
    ensures forall i :: 0 <= i < |s.savers| ==> After(s, steps).savers[i].state == s.savers[i].state
    decreases |steps|
  {
    if steps != [] {
      PublishedGrows(Do(s, steps[0]), steps[1..]);
    }
  }

  /** Of two saves of different content with the same revision, at most one succeeds. */
  lemma OneWinnerPerRevision(start: Sys, steps: seq<Step>, i: nat, j: nat)
    requires Initial(start)
    requires var s := After(start, steps);
      && i < |s.savers| && j < |s.savers| && s.savers[i].pc == Done(false) && s.savers[j].pc == Done(false)
      && s.savers[i].state.revision == s.savers[j].state.revision
    ensures After(start, steps).savers[i].state == After(start, steps).savers[j].state
  {
    SuccessWasPublished(start, steps, i);
    SuccessWasPublished(start, steps, j);
    RevisionsHaveNoGaps(start, steps);
    var s := After(start, steps);
    hide After;
    var k :| 0 <= k < |s.published| && s.published[k] == s.savers[i].state;
    var l :| 0 <= l < |s.published| && s.published[l] == s.savers[j].state;
  }
}
