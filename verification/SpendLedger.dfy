/**
 * The durable daily cap on billable audio behind the proxy provider
 * (packages/app/src/deepgram-runtime.ts, `makeNodeDeepgramProxySpendAuthority`): reserve, settle and
 * recover over a ledger that is empty on a new day and refuses everything when it cannot be read.
 */
module SpendLedger {
  import opened Common

  type Key = nat

  datatype Ledger = Ledger(day: nat, spent: nat, open: map<Key, nat>)

  datatype Outcome = Settled(billable: int) | Ambiguous | Released

  ghost function SumOpen(open: map<Key, nat>): (n: nat) {
    if open == map[] then 0 else
      var k :| k in open;
      open[k] + SumOpen(open - {k})
  }

  /** The sum does not depend on the order in which entries are taken. */
  lemma {:induction false} SumRemove(open: map<Key, nat>, k: Key)
    requires k in open
    ensures SumOpen(open) == open[k] + SumOpen(open - {k})
    decreases open
  {
    var j :| j in open && SumOpen(open) == open[j] + SumOpen(open - {j});
    if j != k {
      SumRemove(open - {j}, k);
      assert open - {j} - {k} == open - {k} - {j};
      SumRemove(open - {k}, j);
    }
  }

  lemma SumAdd(open: map<Key, nat>, k: Key, n: nat)
    requires k !in open
    ensures SumOpen(open[k := n]) == SumOpen(open) + n
  {
    SumRemove(open[k := n], k);
    assert open[k := n] - {k} == open;
  }

  /** What the ledger on disk counts for today. */
  function Today(disk: Option<Ledger>, today: nat): (l: Ledger) {
    if disk.Some? && disk.value.day == today then disk.value else Ledger(today, 0, map[])
  }

  ghost predicate Affordable(l: Ledger, amount: nat, limit: nat) {
    l.spent + SumOpen(l.open) + amount <= limit
  }

  function Reserved(l: Ledger, key: Key, amount: nat): (r: Ledger) {
    l.(open := l.open[key := amount])
  }

  function Clamp(n: int, bound: nat): (r: nat) { if n < 0 then 0 else if n < bound then n else bound }

  /** What an outcome costs the ledger: never more than the hold. */
  function Charge(o: Outcome, held: nat, reserved: nat): (n: nat)
    ensures n <= held
  {
    match o
    case Settled(b) => Clamp(b, if held < reserved then held else reserved)
    case Ambiguous => held
    case Released => 0
  }

  function SettledLedger(l: Ledger, key: Key, o: Outcome, reserved: nat): (r: Ledger)
    requires key in l.open
  {
    l.(open := l.open - {key}, spent := l.spent + Charge(o, l.open[key], reserved))
  }

  /** A handle to one hold; `settled` makes a second settlement a no-op. */
  class Reservation {
    const key: Key
    const reserved: nat
    var settled: bool

    constructor (key: Key, reserved: nat)
      ensures this.key == key && this.reserved == reserved && !settled
    {
      this.key, this.reserved, this.settled := key, reserved, false;
    }
  }

  class Authority {
    const limit: nat
    var disk: Option<Ledger>

    constructor (limit: nat)
      ensures this.limit == limit && disk.None?
    {
      this.limit, this.disk := limit, None;
    }

    /** Sums the open holds one by one, as `committed` does. */
    static method Committed(l: Ledger) returns (n: nat)
      ensures n == l.spent + SumOpen(l.open)
    {
      n := l.spent;
      var rest := l.open;
      while rest != map[]
        invariant n + SumOpen(rest) == l.spent + SumOpen(l.open)
        decreases |rest|
      {
        var k :| k in rest;
        SumRemove(rest, k);
        n := n + rest[k];
        rest := rest - {k};
      }
    }

    /** `readable` is whether the ledger file parses; `key` is fresh randomness. */
    method Reserve(today: nat, readable: bool, amount: nat, key: Key) returns (r: Reservation?)
      requires disk.Some? ==> key !in disk.value.open
      modifies this
      ensures r != null <==> readable && Affordable(Today(old(disk), today), amount, limit)
      ensures r == null ==> disk == old(disk)
      ensures r != null ==> disk == Some(Reserved(Today(old(disk), today), key, amount))
      ensures r != null ==> fresh(r) && r.key == key && r.reserved == amount && !r.settled
      ensures r != null ==> disk.value.spent + SumOpen(disk.value.open) <= limit
    {
      if !readable {
        return null;
      }
      var l := Today(disk, today);
      var n := Committed(l);
      if n + amount > limit {
        return null;
      }
      SumAdd(l.open, key, amount);
      disk := Some(Reserved(l, key, amount));
      r := new Reservation(key, amount);
    }

    method Recover(today: nat, readable: bool, key: Key) returns (r: Reservation?)
      ensures r != null <==> readable && key in Today(disk, today).open
      ensures r != null ==> r.key == key && r.reserved == Today(disk, today).open[key] && !r.settled
    {
      var l := Today(disk, today);
      if !readable || key !in l.open {
        return null;
      }
      r := new Reservation(key, l.open[key]);
    }

    /** `saved` is whether the file could be written; an unsaved settlement can be tried again. */
    method Settle(r: Reservation, today: nat, readable: bool, saved: bool, o: Outcome) returns (threw: bool)
      modifies this, r
      ensures threw <==> !old(r.settled) && (!readable || (r.key in Today(old(disk), today).open && !saved))
      ensures old(r.settled) || threw || r.key !in Today(old(disk), today).open ==> disk == old(disk)
      ensures !old(r.settled) && !threw && r.key in Today(old(disk), today).open ==>
        disk == Some(SettledLedger(Today(old(disk), today), r.key, o, r.reserved))
      ensures r.settled == (old(r.settled) || !threw)
    {
      if r.settled {
        return false;
      }
      if !readable {
        return true;
      }
      var l := Today(disk, today);
      if r.key in l.open {
        if !saved {
          return true;
        }
        disk := Some(SettledLedger(l, r.key, o, r.reserved));
      }
      r.settled := true;
      threw := false;
    }
  }
}
