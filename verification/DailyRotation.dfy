/**
 * The nightly session rotation and its notice (packages/app/src/daily-session-rotation.ts) as a log
 * of phases: every record is saved before it is believed, the switch itself is a compare-and-swap
 * of the project registry, and a crash can fall between any two effects.
 */
module DailyRotation {
  import opened Common

  datatype Session = Named(name: nat) | Daily(project: nat, source: Session, generation: nat, date: nat)

  datatype Active = Active(project: nat, session: Session, generation: nat)

  datatype Phase = Preparing | Switched | RestartRequested | Dispatching | Delivered | Ambiguous | CancelledStale

  datatype Record = Record(date: nat, project: nat, source: Session, generation: nat, phase: Phase)

  /** A notice on its way: the record it was started from, and whether it went out. */
  datatype Sending = Idle | Waiting(record: Record, sent: bool)

  /** `switches` and `sends` are history: the dates of the switches made and of the notices sent. */
  datatype Sys = Sys(active: Active, record: Option<Record>, sending: Sending, switches: seq<nat>, sends: seq<nat>)

  function SourceOf(r: Record): (a: Active) { Active(r.project, r.source, r.generation) }

  /** The session that a rotation creates has an identity fixed by what it replaces and by the date. */
  function TargetOf(r: Record): (a: Active) {
    Active(r.project, Daily(r.project, r.source, r.generation, r.date), r.generation + 1)
  }

  datatype Event =
    | Prepare(date: nat)          // the first half of `rotate`
    | Settle                      // `continueRotation` up to the switch, and after it
    | Switch                      // `rotateSession`
    | MarkRestart(date: nat)
    | StartSend | Send | FinishSend(ok: bool)   // `recoverNotification` around its await
    | Crash
    | Select(project: nat, session: Session)    // somebody else selects a session

  /** Nothing to prepare: this date has a record that was not cancelled. */
  predicate Recorded(r: Option<Record>, date: nat) {
    r.Some? && r.value.date == date && r.value.phase != CancelledStale
  }

  function Happen(s: Sys, e: Event): (t: Sys) {
    match e
    case Prepare(date) =>
      if Recorded(s.record, date) then s
      else s.(record := Some(Record(date, s.active.project, s.active.session, s.active.generation, Preparing)))
    case Settle =>
      if s.record.None? || s.record.value.phase != Preparing then s
      else if s.active == TargetOf(s.record.value) then s.(record := Some(s.record.value.(phase := Switched)))
      else if s.active != SourceOf(s.record.value) then s.(record := Some(s.record.value.(phase := CancelledStale)))
      else s
    case Switch =>
      if s.record.None? || s.record.value.phase != Preparing || s.active != SourceOf(s.record.value) then s
      else s.(active := TargetOf(s.record.value), switches := s.switches + [s.record.value.date])
    case MarkRestart(date) =>
      if s.record.None? || s.record.value.date != date || s.record.value.phase != Switched then s
      else s.(record := Some(s.record.value.(phase := RestartRequested)))
    case StartSend =>
      if s.record.None? then s
      else if s.record.value.phase == Dispatching then s.(record := Some(s.record.value.(phase := Ambiguous)))
      else if s.record.value.phase !in {Switched, RestartRequested} then s
      else
        var d := s.record.value.(phase := Dispatching);
        s.(record := Some(d), sending := Waiting(d, false))
    case Send =>
      if s.sending.Idle? || s.sending.sent then s
      else s.(sending := s.sending.(sent := true), sends := s.sends + [s.sending.record.date])
    case FinishSend(ok) =>
      if s.sending.Idle? then s
      else s.(record := Some(s.sending.record.(phase := if ok then Delivered else Ambiguous)), sending := Idle)
    case Crash => s.(sending := Idle)
    case Select(project, session) => s.(active := Active(project, session, s.active.generation + 1))
  }

  function After(s: Sys, events: seq<Event>): (t: Sys)
    decreases |events|
  {
    if events == [] then s else After(Happen(s, events[0]), events[1..])
  }

  predicate Initial(s: Sys) { s.record.None? && s.sending.Idle? && s.switches == [] && s.sends == [] }

  // ---- clean runs ---------------------------------------------------------------------------------------

  /**
   * What must not happen: a selection that leaves, or forges, the session of an unfinished rotation;
   * and a new record while a notice is awaited, or for a date that is not after the last one, when
   * that date or a later one has switched.
   */
  predicate Harmful(s: Sys, e: Event) {
    match e
    case Select(project, session) =>
      && s.record.Some? && s.record.value.phase == Preparing
      && TargetOf(s.record.value) in {s.active, Active(project, session, s.active.generation + 1)}
    case Prepare(date) =>
      && s.record.Some? && !Recorded(s.record, date)
      && (s.sending.Waiting? || (date < s.record.value.date && exists d :: d in s.switches && date <= d))
    case _ => false
  }

  predicate CleanRun(s: Sys, events: seq<Event>)
    decreases |events|
  {
    events != [] ==> !Harmful(s, events[0]) && CleanRun(Happen(s, events[0]), events[1..])
  }

  function Count(dates: seq<nat>, date: nat): (n: nat) { multiset(dates)[date] }

  lemma CountAppend(dates: seq<nat>, d: nat, date: nat)
    ensures Count(dates + [d], date) == Count(dates, date) + if d == date then 1 else 0
  {}

  lemma Counted(dates: seq<nat>, d: nat)
    ensures Count(dates, d) > 0 <==> d in dates
  {}

  /** No date switches twice or is announced twice, and a date past its preparation switched once. */
  predicate Good(s: Sys, date: nat) {
    && Count(s.switches, date) <= 1 && Count(s.sends, date) <= 1
    && (Recorded(s.record, date) && s.record.value.phase != Preparing ==> Count(s.switches, date) == 1)
  }

  /** Somebody else has selected another session since the record was made. */
  predicate Overtaken(s: Sys, r: Record) {
    s.active != SourceOf(r) && s.active != TargetOf(r) && s.active.generation > r.generation
  }

  /** Where the switch of the recorded date stands. */
  predicate SwitchOk(s: Sys, r: Record) {
    match r.phase
    case Preparing =>
      || (s.active == SourceOf(r) && Count(s.switches, r.date) == 0)
      || (s.active == TargetOf(r) && Count(s.switches, r.date) == 1)
      || (Overtaken(s, r) && Count(s.switches, r.date) == 0)
    case CancelledStale => Count(s.switches, r.date) == 0
    case _ => Count(s.switches, r.date) == 1
  }

  predicate SendOk(s: Sys, r: Record) {
    && (r.phase in {Preparing, Switched, RestartRequested, CancelledStale} ==>
      Count(s.sends, r.date) == 0 && s.sending.Idle?)
    && (s.sending.Waiting? ==> s.sending.record.date == r.date && (!s.sending.sent ==> Count(s.sends, r.date) == 0))
    && (s.sending.Waiting? ==> s.sending.record.phase == Dispatching)
  }

  ghost predicate Inv(s: Sys) {
    && (forall d :: Count(s.sends, d) <= Count(s.switches, d) <= 1)
    && (s.record.None? ==> s.switches == [] && s.sends == [] && s.sending.Idle?)
    && (s.record.Some? ==>
          && SwitchOk(s, s.record.value) && SendOk(s, s.record.value)
          && (forall d :: d > s.record.value.date ==> Count(s.switches, d) == 0))
  }

  lemma SwitchKeeps(s: Sys)
    requires Inv(s)
    ensures Inv(Happen(s, Switch))
  {
    var t := Happen(s, Switch);
    if t != s {
      var date := s.record.value.date;
      forall d ensures Count(t.switches, d) == Count(s.switches, d) + if d == date then 1 else 0 {
        CountAppend(s.switches, date, d);
      }
      hide Count;
    }
  }

  lemma SendKeeps(s: Sys)
    requires Inv(s)
    ensures Inv(Happen(s, Send))
  {
    var t := Happen(s, Send);
    if t != s {
      var date := s.sending.record.date;
      forall d ensures Count(t.sends, d) == Count(s.sends, d) + if d == date then 1 else 0 {
        CountAppend(s.sends, date, d);
      }
      hide Count;
    }
  }

  /** An earlier date may be prepared only if no date from it on has switched. */
  lemma PrepareKeeps(s: Sys, date: nat)
    requires Inv(s) && !Harmful(s, Prepare(date))
    ensures Inv(Happen(s, Prepare(date)))
  {
    assert Count([], 0) == 0;
    if s.record.Some? && !Recorded(s.record, date) {
      forall d | date <= d ensures Count(s.switches, d) == 0 {
        Counted(s.switches, d);
      }
    }
    hide Count;
  }

  lemma RecordKeeps(s: Sys, e: Event)
    requires Inv(s) && !Harmful(s, e) && !e.Switch? && !e.Send? && !e.Prepare?
    ensures Inv(Happen(s, e))
  {
    hide Count;
  }

  lemma HappenKeeps(s: Sys, e: Event)
    requires Inv(s) && !Harmful(s, e)
    ensures Inv(Happen(s, e))
  {
    hide Inv, Happen, Harmful;
    match e
    case Switch => SwitchKeeps(s);
    case Send => SendKeeps(s);
    case Prepare(date) => PrepareKeeps(s, date);
    case _ => RecordKeeps(s, e);
  }

  lemma {:induction false} RunKeeps(s: Sys, events: seq<Event>)
    requires Inv(s) && CleanRun(s, events)
    ensures Inv(After(s, events))
    decreases |events|
  {
    if events != [] {
      HappenKeeps(s, events[0]);
      hide Inv, Happen, Harmful;
      RunKeeps(Happen(s, events[0]), events[1..]);
    }
  }

  lemma InvIsGood(s: Sys, date: nat)
    requires Inv(s)
    ensures Good(s, date)
  {}

  // ---- theorems -----------------------------------------------------------------------------------------

  /** Selections, cancelled rotations, crashes and repeated dates included. */
  lemma OneSwitchOneNotice(start: Sys, events: seq<Event>, date: nat)
    requires Initial(start) && CleanRun(start, events)
    ensures Good(After(start, events), date)
  {
    assert Inv(start);
    RunKeeps(start, events);
    InvIsGood(After(start, events), date);
  }

  /** Days that do not run backwards never do harm unless a notice is awaited. */
  lemma ForwardIsHarmless(s: Sys, date: nat)
    requires s.sending.Idle? && (s.record.Some? ==> s.record.value.date <= date)
    ensures !Harmful(s, Prepare(date))
  {}

  /** A run that harms: further clean events break the promise for some date. */
  ghost predicate Breaks(s: Sys, more: seq<Event>, date: nat) {
    CleanRun(s, more) && !Good(After(s, more), date)
  }

  lemma CleanAfterThree(s: Sys, a: Event, b: Event, c: Event)
    requires !Harmful(s, a) && !Harmful(Happen(s, a), b) && !Harmful(Happen(Happen(s, a), b), c)
    ensures CleanRun(s, [a, b, c]) && After(s, [a, b, c]) == Happen(Happen(Happen(s, a), b), c)
  {
    var t := Happen(s, a);
    var u := Happen(t, b);
    hide Harmful, Happen;
    assert [a, b, c][1..] == [b, c] && [b, c][1..] == [c] && [c][1..] == [];
    assert CleanRun(Happen(u, c), []) && After(Happen(u, c), []) == Happen(u, c);
    assert CleanRun(u, [c]) && After(u, [c]) == Happen(u, c);
    assert CleanRun(t, [b, c]) && After(t, [b, c]) == After(u, [c]);
  }

  /** Leaving the session of an unfinished rotation: it is cancelled, and its date switches again. */
  lemma LeavingHarms(s: Sys, project: nat, session: Session) returns (more: seq<Event>)
    requires Inv(s) && s.record.Some? && s.record.value.phase == Preparing && s.active == TargetOf(s.record.value)
    ensures Breaks(Happen(s, Select(project, session)), more, s.record.value.date)
  {
    var date := s.record.value.date;
    var t := Happen(s, Select(project, session));
    more := [Settle, Prepare(date), Switch];
    CleanAfterThree(t, Settle, Prepare(date), Switch);
    CountAppend(s.switches, date, date);
    hide After, CleanRun, Count;
  }

  /** Selecting the session that the rotation would create: the date counts as switched, and never did. */
  lemma ForgingHarms(s: Sys, project: nat, session: Session) returns (more: seq<Event>)
    requires Inv(s) && s.record.Some? && s.record.value.phase == Preparing
    requires Active(project, session, s.active.generation + 1) == TargetOf(s.record.value)
    ensures Breaks(Happen(s, Select(project, session)), more, s.record.value.date)
  {
    var t := Happen(s, Select(project, session));
    more := [Settle, Crash, Crash];
    CleanAfterThree(t, Settle, Crash, Crash);
    hide After, CleanRun, Count;
  }

  /** A date before one that has switched, or that has switched itself, makes one of them switch again. */
  lemma EarlierHarms(s: Sys, date: nat, d: nat) returns (more: seq<Event>)
    requires Inv(s) && s.record.Some? && !Recorded(s.record, date) && d in s.switches && date <= d
    ensures Breaks(Happen(s, Prepare(date)), more, d)
  {
    var t := Happen(s, Prepare(date));
    Counted(s.switches, d);
    CountAppend(s.switches, d, d);
    if d == date {
      more := [Switch, Crash, Crash];
      CleanAfterThree(t, Switch, Crash, Crash);
    } else {
      more := [Crash, Prepare(d), Switch];
      CleanAfterThree(t, Crash, Prepare(d), Switch);
    }
    hide After, CleanRun, Count;
  }

  /** A later date during an awaited notice: the finished notice writes back the older record. */
  lemma OverlapHarms(s: Sys, date: nat) returns (more: seq<Event>)
    requires Inv(s) && s.record.Some? && s.sending.Waiting? && s.record.value.date < date
    ensures Breaks(Happen(s, Prepare(date)), more, date)
  {
    var t := Happen(s, Prepare(date));
    var u := Happen(t, Switch);
    more := [Switch] + [FinishSend(true), Prepare(date), Switch];
    CleanAfterThree(u, FinishSend(true), Prepare(date), Switch);
    assert more[1..] == [FinishSend(true), Prepare(date), Switch];
    assert CleanRun(t, more) && After(t, more) == After(u, more[1..]);
    CountAppend(s.switches, date, date);
    CountAppend(s.switches + [date], date, date);
    hide After, CleanRun, Count;
  }

  lemma HarmfulBreaks(s: Sys, e: Event)
    requires Inv(s) && Harmful(s, e)
    ensures exists more, date :: Breaks(Happen(s, e), more, date)
  {
    match e
    case Select(project, session) =>
      if s.active == TargetOf(s.record.value) {
        var more := LeavingHarms(s, project, session);
      } else {
        var more := ForgingHarms(s, project, session);
      }
    case Prepare(date) =>
      if exists d :: d in s.switches && date <= d {
        var d :| d in s.switches && date <= d;
        var more := EarlierHarms(s, date, d);
      } else {
        Counted(s.switches, s.record.value.date);
        var more := OverlapHarms(s, date);
      }
  }

  /** The condition is exact: after any clean run, an event does harm if and only if it is one of those. */
  lemma HarmExactly(start: Sys, events: seq<Event>, e: Event)
    requires Initial(start) && CleanRun(start, events)
    ensures var s := After(start, events);
      Harmful(s, e) <==> exists more, date :: Breaks(Happen(s, e), more, date)
  {
    assert Inv(start);
    RunKeeps(start, events);
    var s := After(start, events);
    hide After, CleanRun, Inv, Harmful, Happen;
    if Harmful(s, e) {
      HarmfulBreaks(s, e);
    } else {
      HappenKeeps(s, e);
      forall more, date ensures !Breaks(Happen(s, e), more, date) {
        if CleanRun(Happen(s, e), more) {
          RunKeeps(Happen(s, e), more);
          InvIsGood(After(Happen(s, e), more), date);
        }
      }
    }
  }

  /** The effects of one `rotate` that is not interrupted. */
  function Rotation(date: nat): (events: seq<Event>) { [Prepare(date), Settle, Switch, Settle] }

  lemma AfterFour(s: Sys, a: Event, b: Event, c: Event, d: Event)
    ensures After(s, [a, b, c, d]) == Happen(Happen(Happen(Happen(s, a), b), c), d)
  {
    assert [a, b, c, d][1..] == [b, c, d] && [b, c, d][1..] == [c, d] && [c, d][1..] == [d] && [d][1..] == [];
    assert After(s, [a, b, c, d]) == After(Happen(s, a), [b, c, d]);
    assert After(Happen(s, a), [b, c, d]) == After(Happen(Happen(s, a), b), [c, d]);
    assert After(Happen(Happen(s, a), b), [c, d]) == After(Happen(Happen(Happen(s, a), b), c), [d]);
    hide Happen;
  }

  /** What an uninterrupted `rotate` does. */
  function Rotated(s: Sys, date: nat): (t: Sys) {
    var p := Happen(s, Prepare(date));
    var r := p.record.value;
    if r.phase != Preparing then p
    else if p.active == TargetOf(r) then p.(record := Some(r.(phase := Switched)))
    else if p.active != SourceOf(r) then p.(record := Some(r.(phase := CancelledStale)))
    else p.(active := TargetOf(r), switches := p.switches + [r.date], record := Some(r.(phase := Switched)))
  }

  lemma RotationIs(s: Sys, date: nat)
    ensures After(s, Rotation(date)) == Rotated(s, date)
  {
    AfterFour(s, Prepare(date), Settle, Switch, Settle);
    hide After;
  }

  lemma RotatedKeeps(s: Sys, date: nat)
    requires Inv(s) && !Harmful(s, Prepare(date))
    ensures Inv(Rotated(s, date)) && Rotated(s, date).record.Some? && Rotated(s, date).record.value.date == date
    ensures Rotated(s, date).record.value.phase != Preparing
    ensures Rotated(s, date).record.value.phase == CancelledStale <==> IsOvertaken(s, date)
  {
    RotationIs(s, date);
    AfterFour(s, Prepare(date), Settle, Switch, Settle);
    hide After;
    var p := Happen(s, Prepare(date));
    HappenKeeps(s, Prepare(date));
    HappenKeeps(p, Settle);
    HappenKeeps(Happen(p, Settle), Switch);
    HappenKeeps(Happen(Happen(p, Settle), Switch), Settle);
    assert SwitchOk(p, p.record.value);
    hide Inv, Count;
  }

  /** A prepared rotation of the date has been overtaken by a selection. */
  predicate IsOvertaken(s: Sys, date: nat) {
    && s.record.Some? && s.record.value.date == date && s.record.value.phase == Preparing
    && s.active !in {SourceOf(s.record.value), TargetOf(s.record.value)}
  }

  predicate Succeeded(s: Sys, date: nat) {
    Recorded(s.record, date) && s.record.value.phase != Preparing && Count(s.switches, date) == 1
  }

  /**
   * Retrying the date succeeds from wherever a crash left it, unless a selection overtook it; then the
   * retry is cancelled without a switch and the next one succeeds.
   */
  lemma RetrySucceeds(start: Sys, events: seq<Event>, date: nat)
    requires Initial(start) && CleanRun(start, events) && !Harmful(After(start, events), Prepare(date))
    ensures var s := After(start, events);
      var t := After(s, Rotation(date));
      if IsOvertaken(s, date)
      then t.record == Some(s.record.value.(phase := CancelledStale)) && t.switches == s.switches &&
           Count(t.switches, date) == 0 && Succeeded(After(t, Rotation(date)), date)
      else Succeeded(t, date)
  {
    assert Inv(start);
    RunKeeps(start, events);
    var s := After(start, events);
    RotationIs(s, date);
    RotatedKeeps(s, date);
    var t := Rotated(s, date);
    assert SwitchOk(t, t.record.value);
    if IsOvertaken(s, date) {
      RotationIs(t, date);
      assert t.sending.Idle?;
      RotatedKeeps(t, date);
      assert SwitchOk(Rotated(t, date), Rotated(t, date).record.value);
      hide After, Count;
    }
  }

  /**
   * A rotation of a date without a record, in any state with an awaited notice of another date: the
   * finished notice writes back the record it started from, and the retry switches again.
   */
  lemma OverlapSwitchesTwice(s: Sys, date: nat, ok: bool)
    requires s.sending.Waiting? && s.sending.record.date != date && !Recorded(s.record, date)
    ensures After(After(After(s, Rotation(date)), [FinishSend(ok)]), Rotation(date)).switches ==
      s.switches + [date] + [date]
  {
    hide After, Rotation, Rotated;
    NewDateSwitches(s, date);
    var t := Rotated(s, date);
    RotationIs(s, date);
    AfterOne(t, FinishSend(ok));
    var u := Happen(t, FinishSend(ok));
    NewDateSwitches(u, date);
    RotationIs(u, date);
  }

  /** A date without a record switches at once. */
  lemma NewDateSwitches(s: Sys, date: nat)
    requires !Recorded(s.record, date)
    ensures var r := Record(date, s.active.project, s.active.session, s.active.generation, Switched);
      Rotated(s, date) == Sys(TargetOf(r), Some(r), s.sending, s.switches + [date], s.sends)
  {}

  lemma AfterOne(s: Sys, e: Event)
    ensures After(s, [e]) == Happen(s, e)
  {
    assert [e][1..] == [];
  }

  // ---- the object ----------------------------------------------------------------------------------------

  datatype Reply = Done | Stale
  datatype Notified = NothingToSend | WasDelivered | WasAmbiguous

  class Rotator {
    var sys: Sys

    constructor (active: Active)
      ensures sys == Sys(active, None, Idle, [], [])
    {
      sys := Sys(active, None, Idle, [], []);
    }

    method Publish(r: Record)
      modifies this
      ensures sys == old(sys).(record := Some(r))
    {
      sys := sys.(record := Some(r));
    }

    /** `rotate` with `continueRotation`. */
    method Rotate(date: nat) returns (r: Reply)
      modifies this
      ensures sys == After(old(sys), Rotation(date))
      ensures r == Stale <==> sys.record.Some? && sys.record.value.phase == CancelledStale
    {
      RotationIs(sys, date);
      hide After;
      if !Recorded(sys.record, date) {
        Publish(Record(date, sys.active.project, sys.active.session, sys.active.generation, Preparing));
      }
      var record := sys.record.value;
      if record.phase != Preparing {
        return Done;
      }
      if sys.active == TargetOf(record) {
        Publish(record.(phase := Switched));
        return Done;
      }
      if sys.active != SourceOf(record) {
        Publish(record.(phase := CancelledStale));
        return Stale;
      }
      sys := sys.(active := TargetOf(record), switches := sys.switches + [record.date]);
      Publish(record.(phase := Switched));
      r := Done;
    }

    /** `recoverNotification`; `ok` is whether the port accepts the notice. */
    method RecoverNotification(ok: bool) returns (r: Notified)
      requires sys.sending.Idle?
      modifies this
      ensures sys == if r == NothingToSend then old(sys)
                     else if old(sys).record.Some? && old(sys).record.value.phase == Dispatching
                       then Happen(old(sys), StartSend)
                     else Happen(Happen(Happen(old(sys), StartSend), Send), FinishSend(ok))
      ensures r == NothingToSend <==>
        old(sys).record.None? || old(sys).record.value.phase !in {Switched, RestartRequested, Dispatching}
      ensures r == WasDelivered ==>
        sys.record.Some? && Count(sys.sends, sys.record.value.date) == Count(old(sys).sends, sys.record.value.date) + 1
    {
      if sys.record.None? || sys.record.value.phase !in {Switched, RestartRequested, Dispatching} {
        return NothingToSend;
      }
      var record := sys.record.value;
      if record.phase == Dispatching {
        Publish(record.(phase := Ambiguous));
        return WasAmbiguous;
      }
      var dispatching := record.(phase := Dispatching);
      Publish(dispatching);
      CountAppend(sys.sends, dispatching.date, dispatching.date);
      sys := sys.(sends := sys.sends + [dispatching.date]);
      Publish(dispatching.(phase := if ok then Delivered else Ambiguous));
      r := if ok then WasDelivered else WasAmbiguous;
    }
  }
}
