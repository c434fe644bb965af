/**
 * The ledger and the provider together, over every run of requests, settlements, crashes and days in
 * any order: the cap always holds, and what the requests of one day really cost stays within it as
 * long as the ledger of the day is not forgotten.
 */
module SpendRuns {
  import opened Common
  import opened SpendLedger
  import opened ProxyProvider

  /**
   * History of one request: the day it reserved, its hold, its true cost, what its call leaves of the
   * hold, and what the ledger charged when the hold was closed. Its position is its key.
   */
  datatype Entry = Entry(day: nat, reserved: nat, cost: nat, hold: Hold, charged: Option<nat>)

  datatype Sys = Sys(disk: Option<Ledger>, today: nat, entries: seq<Entry>)

  datatype Step =
    | SetDay(day: nat)
    | Begin(w: World, maximum: nat)           // a call of the provider, up to its reservation
    | Finish(key: nat)                        // what that call settles, perhaps on another day, or never
    | Close(key: nat, outcome: Outcome)       // a settlement through a recovered handle

  predicate Initial(s: Sys) { s.disk.None? && s.entries == [] }

  function Closing(s: Sys, k: nat, o: Outcome): (r: Sys) {
    var l := Today(s.disk, s.today);
    if k >= |s.entries| || k !in l.open then s
    else
      var e := s.entries[k];
      s.(disk := Some(SettledLedger(l, k, o, e.reserved)),
         entries := s.entries[k := e.(charged := Some(Charge(o, l.open[k], e.reserved)))])
  }

  /** A call takes a hold only if the ledger can afford it: otherwise no such call happens. */
  ghost function Do(s: Sys, step: Step, limit: nat): (r: Sys) {
    match step
    case SetDay(day) => s.(today := day)
    case Begin(w, maximum) =>
      var l := Today(s.disk, s.today);
      if !TakesHold(w) then s.(entries := s.entries + [Entry(s.today, 0, w.cost, NoHold, None)])
      else if !Affordable(l, maximum, limit) then s
      else s.(disk := Some(Reserved(l, |s.entries|, maximum)),
              entries := s.entries + [Entry(s.today, maximum, w.cost, HoldOf(w), None)])
    case Finish(k) =>
      if k >= |s.entries| || !s.entries[k].hold.Closed? then s else Closing(s, k, s.entries[k].hold.outcome)
    case Close(k, o) => Closing(s, k, o)
  }

  ghost function After(s: Sys, steps: seq<Step>, limit: nat): (r: Sys)
    decreases |steps|
  {
    if steps == [] then s else After(Do(s, steps[0], limit), steps[1..], limit)
  }

  // ---- the cap ------------------------------------------------------------------------------------------

  ghost predicate Within(s: Sys, limit: nat) {
    s.disk.Some? ==>
      && s.disk.value.spent + SumOpen(s.disk.value.open) <= limit
      && forall k :: k in s.disk.value.open ==> k < |s.entries|
  }

  lemma ClosingWithin(s: Sys, k: nat, o: Outcome, limit: nat)
    requires Within(s, limit)
    ensures Within(Closing(s, k, o), limit)
  {
    var l := Today(s.disk, s.today);
    if k in l.open {
      SumRemove(l.open, k);
      hide SumOpen;
    }
  }

  lemma StepWithin(s: Sys, step: Step, limit: nat)
    requires Within(s, limit)
    ensures Within(Do(s, step, limit), limit)
  {
    match step
    case Begin(w, maximum) =>
      var l := Today(s.disk, s.today);
      assert |s.entries| !in l.open;
      SumAdd(l.open, |s.entries|, maximum);
      hide SumOpen, HoldOf, TakesHold;
    case Finish(k) =>
      if k < |s.entries| && s.entries[k].hold.Closed? {
        ClosingWithin(s, k, s.entries[k].hold.outcome, limit);
      }
    case Close(k, o) => ClosingWithin(s, k, o, limit);
    case SetDay(_) =>
  }

  lemma {:induction false} RunWithin(s: Sys, steps: seq<Step>, limit: nat)
    requires Within(s, limit)
    ensures Within(After(s, steps, limit), limit)
    decreases |steps|
  {
    if steps != [] {
      StepWithin(s, steps[0], limit);
      hide Within, Do;
      RunWithin(Do(s, steps[0], limit), steps[1..], limit);
    }
  }

  /** Spent plus open holds never exceeds the daily limit, whatever the clock and the callers do. */
  lemma CapHolds(start: Sys, steps: seq<Step>, limit: nat)
    requires Initial(start)
    ensures var s := After(start, steps, limit);
      Today(s.disk, s.today).spent + SumOpen(Today(s.disk, s.today).open) <= limit
  {
    RunWithin(start, steps, limit);
  }

  // ---- bills ------------------------------------------------------------------------------------------

  function Billed(e: Entry): (n: nat) { if e.charged.Some? then e.charged.value else e.reserved }

  /** What the ledger counts, or counted last, for the reservations of a day. */
  function Bill(entries: seq<Entry>, day: nat): (n: nat) {
    if entries == [] then 0
    else Bill(entries[..|entries| - 1], day) +
         (if entries[|entries| - 1].day == day then Billed(entries[|entries| - 1]) else 0)
  }

  function Cost(entries: seq<Entry>, day: nat): (n: nat) {
    if entries == [] then 0
    else Cost(entries[..|entries| - 1], day) +
         (if entries[|entries| - 1].day == day then entries[|entries| - 1].cost else 0)
  }

  lemma BillAppend(entries: seq<Entry>, e: Entry, day: nat)
    ensures Bill(entries + [e], day) == Bill(entries, day) + if e.day == day then Billed(e) else 0
  {
    assert (entries + [e])[..|entries|] == entries;
  }

  lemma CostAppend(entries: seq<Entry>, e: Entry, day: nat)
    ensures Cost(entries + [e], day) == Cost(entries, day) + if e.day == day then e.cost else 0
  {
    assert (entries + [e])[..|entries|] == entries;
  }

  lemma {:induction false} BillUpdate(entries: seq<Entry>, k: nat, e: Entry, day: nat)
    requires k < |entries| && e.day == entries[k].day
    ensures Bill(entries[k := e], day) == Bill(entries, day) + if e.day == day then Billed(e) - Billed(entries[k])
      else 0
  {
    var n := |entries| - 1;
    if k == n {
      assert entries[k := e][..n] == entries[..n];
    } else {
      assert entries[k := e][..n] == entries[..n][k := e];
      BillUpdate(entries[..n], k, e, day);
    }
  }

  lemma {:induction false} CostWithinBill(entries: seq<Entry>, day: nat)
    requires forall e :: e in entries ==> e.cost <= Billed(e)
    ensures Cost(entries, day) <= Bill(entries, day)
  {
    if entries != [] {
      CostWithinBill(entries[..|entries| - 1], day);
      assert entries[|entries| - 1] in entries;
    }
  }

  // ---- the invariant ------------------------------------------------------------------------------------

  /** The ledger holds another day, or nothing, although today has been billed. */
  predicate Forgotten(s: Sys) {
    Bill(s.entries, s.today) > 0 && (s.disk.None? || s.disk.value.day != s.today)
  }

  /** The ports answer truthfully, and a recovered handle covers the cost; nothing is asked of what a call settles. */
  predicate Answers(s: Sys, step: Step) {
    match step
    case Begin(w, maximum) => Truthful(w, maximum)
    case Close(k, o) => k < |s.entries| && s.entries[k].cost <= Charge(o, s.entries[k].reserved, s.entries[k].reserved)
    case _ => true
  }

  ghost predicate AllAnswer(s: Sys, steps: seq<Step>, limit: nat)
    decreases |steps|
  {
    steps != [] ==> Answers(s, steps[0]) && AllAnswer(Do(s, steps[0], limit), steps[1..], limit)
  }

  /** And a call that takes a hold finds the ledger of its day. */
  predicate StepOk(s: Sys, step: Step) {
    Answers(s, step) && (step.Begin? && TakesHold(step.w) ==> !Forgotten(s))
  }

  ghost predicate StepsOk(s: Sys, steps: seq<Step>, limit: nat)
    decreases |steps|
  {
    steps != [] ==> StepOk(s, steps[0]) && StepsOk(Do(s, steps[0], limit), steps[1..], limit)
  }

  predicate EntryOk(e: Entry) {
    e.cost <= Billed(e) <= e.reserved && Covers(e.hold, e.reserved, e.cost)
  }

  /** The ledger on disk is the bill of its day, and every hold in it is an open one. */
  ghost predicate LedgerOk(l: Ledger, entries: seq<Entry>) {
    && l.spent + SumOpen(l.open) == Bill(entries, l.day)
    && (forall k :: k in l.open ==>
          k < |entries| && entries[k].day == l.day && entries[k].charged.None? && l.open[k] == entries[k].reserved)
  }

  ghost predicate SysInv(s: Sys, limit: nat) {
    && (s.disk.Some? ==> LedgerOk(s.disk.value, s.entries))
    && (forall e :: e in s.entries ==> EntryOk(e))
    && (forall day :: Bill(s.entries, day) <= limit)
  }

  lemma TodayOk(s: Sys, limit: nat)
    requires SysInv(s, limit) && !Forgotten(s)
    ensures LedgerOk(Today(s.disk, s.today), s.entries)
  {}

  lemma BeginKeepsLedger(l: Ledger, entries: seq<Entry>, e: Entry)
    requires LedgerOk(l, entries) && e.day == l.day && e.charged.None?
    ensures LedgerOk(Reserved(l, |entries|, e.reserved), entries + [e])
  {
    assert |entries| !in l.open;
    SumAdd(l.open, |entries|, e.reserved);
    BillAppend(entries, e, l.day);
    hide SumOpen, Bill;
  }

  lemma BeginKeeps(s: Sys, w: World, maximum: nat, limit: nat)
    requires SysInv(s, limit) && StepOk(s, Begin(w, maximum))
    ensures SysInv(Do(s, Begin(w, maximum), limit), limit)
  {
    HoldCovers(w, maximum);
    var e := if TakesHold(w) then Entry(s.today, maximum, w.cost, HoldOf(w), None)
      else Entry(s.today, 0, w.cost, NoHold, None);
    forall day ensures Bill(s.entries + [e], day) == Bill(s.entries, day) + if day == s.today then e.reserved else 0 {
      BillAppend(s.entries, e, day);
    }
    assert EntryOk(e);
    if TakesHold(w) {
      TodayOk(s, limit);
      BeginKeepsLedger(Today(s.disk, s.today), s.entries, e);
    }
    hide SumOpen, Bill, HoldOf, EntryOk, TakesHold, Truthful;
  }

  lemma ClosingKeeps(s: Sys, k: nat, o: Outcome, limit: nat)
    requires SysInv(s, limit) && k < |s.entries| &&
      s.entries[k].cost <= Charge(o, s.entries[k].reserved, s.entries[k].reserved)
    ensures SysInv(Closing(s, k, o), limit)
  {
    var l := Today(s.disk, s.today);
    if k in l.open {
      var e := s.entries[k];
      var n := Charge(o, l.open[k], e.reserved);
      var f := e.(charged := Some(n));
      var t := Closing(s, k, o);
      SumRemove(l.open, k);
      forall day ensures Bill(t.entries, day) == Bill(s.entries, day) + if day == l.day then n - e.reserved else 0 {
        BillUpdate(s.entries, k, f, day);
      }
      forall x | x in t.entries ensures EntryOk(x) {
        assert x == f || x in s.entries;
        assert e in s.entries;
      }
      hide SumOpen, Bill, EntryOk;
    }
  }

  lemma StepKeeps(s: Sys, step: Step, limit: nat)
    requires SysInv(s, limit) && StepOk(s, step)
    ensures SysInv(Do(s, step, limit), limit)
  {
    match step
    case SetDay(_) =>
    case Begin(w, maximum) => BeginKeeps(s, w, maximum, limit);
    case Close(k, o) => ClosingKeeps(s, k, o, limit);
    case Finish(k) =>
      if k < |s.entries| && s.entries[k].hold.Closed? {
        assert s.entries[k] in s.entries;
        ClosingKeeps(s, k, s.entries[k].hold.outcome, limit);
      }
  }

  lemma {:induction false} RunKeeps(s: Sys, steps: seq<Step>, limit: nat)
    requires SysInv(s, limit) && StepsOk(s, steps, limit)
    ensures SysInv(After(s, steps, limit), limit)
    decreases |steps|
  {
    if steps != [] {
      StepKeeps(s, steps[0], limit);
      hide SysInv, Do, StepOk;
      RunKeeps(Do(s, steps[0], limit), steps[1..], limit);
    }
  }

  lemma {:induction false} InitialOk(s: Sys, limit: nat)
    requires Initial(s)
    ensures SysInv(s, limit)
  {
    forall day ensures Bill(s.entries, day) == 0 {}
  }

  // ---- the real cost of a day -----------------------------------------------------------------------------

  /** What the requests of any one day really cost, settled or not, stays within the limit. */
  lemma RealCostWithinCap(start: Sys, steps: seq<Step>, limit: nat, day: nat)
    requires Initial(start) && StepsOk(start, steps, limit)
    ensures Cost(After(start, steps, limit).entries, day) <= limit
  {
    InitialOk(start, limit);
    RunKeeps(start, steps, limit);
    var s := After(start, steps, limit);
    CostWithinBill(s.entries, day);
    assert Bill(s.entries, day) <= limit;
  }

  /** A truthful call that holds and costs everything, and is never settled. */
  function Costly(amount: nat): (w: World) {
    World(true, [true, true, true, true], StageOk, ReserveOk, PrepareOk, DispatchAttempted, [], CancelOk, amount)
  }

  lemma CostlyHolds(amount: nat)
    ensures Truthful(Costly(amount), amount) && TakesHold(Costly(amount)) && HoldOf(Costly(amount)) == StillOpen
  {}

  lemma EmptyAffords(s: Sys, limit: nat)
    requires s.disk.None? || s.disk.value.day != s.today
    ensures Affordable(Today(s.disk, s.today), limit, limit)
  {}

  /** Exactly when the next call of today is safe: if and only if today has not been forgotten. */
  lemma OverspendsExactly(start: Sys, steps: seq<Step>, limit: nat)
    requires Initial(start) && StepsOk(start, steps, limit)
    ensures var s := After(start, steps, limit);
      Forgotten(s) <==> exists w, maximum ::
        Truthful(w, maximum) && Bill(Do(s, Begin(w, maximum), limit).entries, s.today) > limit
  {
    InitialOk(start, limit);
    RunKeeps(start, steps, limit);
    var s := After(start, steps, limit);
    hide After, StepsOk;
    if Forgotten(s) {
      var w := Costly(limit);
      CostlyHolds(limit);
      EmptyAffords(s, limit);
      BillAppend(s.entries, Entry(s.today, limit, w.cost, HoldOf(w), None), s.today);
      assert Bill(Do(s, Begin(w, limit), limit).entries, s.today) > limit;
    } else {
      forall w, maximum | Truthful(w, maximum) ensures Bill(Do(s, Begin(w, maximum), limit).entries, s.today) <= limit {
        BeginKeeps(s, w, maximum, limit);
      }
    }
  }

  /** In every state in which a day that cost something is forgotten, it can cost more than the limit. */
  lemma ForgottenOverspends(s: Sys, limit: nat)
    requires Forgotten(s) && Cost(s.entries, s.today) > 0
    ensures Truthful(Costly(limit), limit) && Cost(Do(s, Begin(Costly(limit), limit), limit).entries, s.today) > limit
  {
    var w := Costly(limit);
    CostlyHolds(limit);
    EmptyAffords(s, limit);
    CostAppend(s.entries, Entry(s.today, limit, w.cost, HoldOf(w), None), s.today);
  }

  // ---- clocks -------------------------------------------------------------------------------------------------

  predicate Forward(day: nat, steps: seq<Step>)
    decreases |steps|
  {
    steps != [] ==>
      && (steps[0].SetDay? ==> day <= steps[0].day)
      && Forward(if steps[0].SetDay? then steps[0].day else day, steps[1..])
  }

  /** Only days up to that of the ledger have been billed. */
  ghost predicate Ordered(s: Sys) {
    && (s.disk.Some? ==> s.disk.value.day <= s.today)
    && forall day: nat :: Bill(s.entries, day) > 0 ==> s.disk.Some? && day <= s.disk.value.day
  }

  lemma ClosingOrdered(s: Sys, k: nat, o: Outcome, limit: nat)
    requires SysInv(s, limit) && Ordered(s)
    ensures Ordered(Closing(s, k, o))
  {
    var l := Today(s.disk, s.today);
    if k in l.open && k < |s.entries| {
      var f := s.entries[k].(charged := Some(Charge(o, l.open[k], s.entries[k].reserved)));
      var t := Closing(s, k, o);
      assert f.day == l.day && t.entries == s.entries[k := f] && t.disk.value.day == s.disk.value.day;
      forall day: nat | Bill(t.entries, day) > 0 ensures day <= t.disk.value.day {
        BillUpdate(s.entries, k, f, day);
      }
    }
  }

  lemma StepOrdered(s: Sys, step: Step, limit: nat)
    requires SysInv(s, limit) && Ordered(s) && (step.SetDay? ==> s.today <= step.day)
    ensures Ordered(Do(s, step, limit))
  {
    match step
    case SetDay(_) =>
    case Close(k, o) => ClosingOrdered(s, k, o, limit);
    case Finish(k) =>
      if k < |s.entries| && s.entries[k].hold.Closed? {
        ClosingOrdered(s, k, s.entries[k].hold.outcome, limit);
      }
    case Begin(w, maximum) =>
      var e := if TakesHold(w) then Entry(s.today, maximum, w.cost, HoldOf(w), None)
        else Entry(s.today, 0, w.cost, NoHold, None);
      forall day: nat ensures Bill(s.entries + [e], day) == Bill(s.entries, day) + if day == s.today then e.reserved
        else 0 {
        BillAppend(s.entries, e, day);
      }
      hide Bill, SumOpen, HoldOf;
  }

  lemma {:induction false} ForwardKeeps(s: Sys, steps: seq<Step>, limit: nat)
    requires SysInv(s, limit) && Ordered(s) && Forward(s.today, steps) && AllAnswer(s, steps, limit)
    ensures StepsOk(s, steps, limit)
    decreases |steps|
  {
    if steps != [] {
      assert !Forgotten(s);
      StepKeeps(s, steps[0], limit);
      StepOrdered(s, steps[0], limit);
      assert Do(s, steps[0], limit).today == if steps[0].SetDay? then steps[0].day else s.today;
      hide SysInv, Ordered, Do, Answers, Forgotten;
      ForwardKeeps(Do(s, steps[0], limit), steps[1..], limit);
    }
  }

  /** If days do not run backwards, no day is ever forgotten, and truthful ports are all it takes. */
  lemma ForwardClockIsEnough(start: Sys, steps: seq<Step>, limit: nat, day: nat)
    requires Initial(start) && Forward(start.today, steps) && AllAnswer(start, steps, limit)
    ensures Cost(After(start, steps, limit).entries, day) <= limit
  {
    InitialOk(start, limit);
    ForwardKeeps(start, steps, limit);
    RealCostWithinCap(start, steps, limit, day);
  }

  function CostlyEntry(day: nat, limit: nat): (e: Entry) { Entry(day, limit, limit, StillOpen, None) }

  lemma CostlyDay(s: Sys, day: nat, limit: nat)
    requires s.disk.Some? ==> s.disk.value.day != day
    ensures After(s, [SetDay(day), Begin(Costly(limit), limit)], limit) ==
      Sys(Some(Ledger(day, 0, map[|s.entries| := limit])), day, s.entries + [CostlyEntry(day, limit)])
  {
    var t := Do(s, SetDay(day), limit);
    var u := Do(t, Begin(Costly(limit), limit), limit);
    CostlyHolds(limit);
    EmptyAffords(t, limit);
    assert map[][|s.entries| := limit] == map[|s.entries| := limit];
    var steps := [SetDay(day), Begin(Costly(limit), limit)];
    assert steps[1..] == [Begin(Costly(limit), limit)] && steps[1..][1..] == [];
    assert After(t, steps[1..], limit) == After(u, [], limit);
    hide HoldOf, TakesHold;
  }

  /** A clock that runs back: two truthful calls of day 1 cost twice the limit. */
  lemma ClockBackOverspends(start: Sys, limit: nat)
    requires Initial(start)
    ensures var call := Begin(Costly(limit), limit);
      var a := After(start, [SetDay(1), call], limit);
      var b := After(a, [SetDay(2), call], limit);
      Cost(After(b, [SetDay(1), call], limit).entries, 1) == 2 * limit
  {
    hide After;
    CostlyDay(start, 1, limit);
    var a := Sys(Some(Ledger(1, 0, map[0 := limit])), 1, [CostlyEntry(1, limit)]);
    CostlyDay(a, 2, limit);
    var b := Sys(Some(Ledger(2, 0, map[1 := limit])), 2, a.entries + [CostlyEntry(2, limit)]);
    CostlyDay(b, 1, limit);
    CostAppend([], CostlyEntry(1, limit), 1);
    assert [] + [CostlyEntry(1, limit)] == a.entries;
    CostAppend(a.entries, CostlyEntry(2, limit), 1);
    CostAppend(b.entries, CostlyEntry(1, limit), 1);
  }
}
