/** JavaScript strings as UTF-16 code units, their sort order, and records sorted by key. */
module Texts {

  type CodeUnit = u: int | 0 <= u < 0x10000
  type Text = seq<CodeUnit>

  /** The order of `Array.prototype.sort` on strings: by code units. */
  predicate Less(a: Text, b: Text)
    decreases |a|
  {
    if b == [] then false
    else if a == [] then true
    else a[0] < b[0] || (a[0] == b[0] && Less(a[1..], b[1..]))
  }

  lemma {:induction false} LessTransitive(a: Text, b: Text, c: Text)
    requires Less(a, b) && Less(b, c)
    ensures Less(a, c)
    decreases |a|
  {
    if a != [] && a[0] == b[0] && b[0] == c[0] {
      LessTransitive(a[1..], b[1..], c[1..]);
    }
  }

  lemma {:induction false} LessIrreflexive(a: Text)
    ensures !Less(a, a)
    decreases |a|
  {
    if a != [] {
      LessIrreflexive(a[1..]);
    }
  }

  lemma {:induction false} LessTotal(a: Text, b: Text)
    ensures a == b || Less(a, b) || Less(b, a)
    decreases |a|
  {
    if a != [] && b != [] && a[0] == b[0] {
      LessTotal(a[1..], b[1..]);
      if a[1..] == b[1..] {
        assert a == [a[0]] + a[1..] && b == [b[0]] + b[1..];
      }
    }
  }

  // ---- records -------------------------------------------------------------------------------------

  /** One entry of a record. */
  datatype Field<+V> = Field(key: Text, value: V)

  ghost predicate Sorted<V>(fields: seq<Field<V>>) {
    forall i, j :: 0 <= i < j < |fields| ==> Less(fields[i].key, fields[j].key)
  }

  ghost predicate DistinctKeys<V>(fields: seq<Field<V>>) {
    forall i, j :: 0 <= i < j < |fields| ==> fields[i].key != fields[j].key
  }

  function Insert<V>(f: Field<V>, fields: seq<Field<V>>): (r: seq<Field<V>>)
    ensures |r| == |fields| + 1
  {
    if fields == [] then [f]
    else if Less(fields[0].key, f.key) then [fields[0]] + Insert(f, fields[1..])
    else [f] + fields
  }

  /** A record with its keys sorted. */
  function Sort<V>(fields: seq<Field<V>>): (r: seq<Field<V>>)
    ensures |r| == |fields|
  {
    if fields == [] then [] else Insert(fields[0], Sort(fields[1..]))
  }

  lemma {:induction false} InsertKeeps<V>(f: Field<V>, fields: seq<Field<V>>)
    ensures multiset(Insert(f, fields)) == multiset(fields) + multiset{f}
  {
    if fields != [] {
      InsertKeeps(f, fields[1..]);
      assert fields == [fields[0]] + fields[1..];
    }
  }

  lemma {:induction false} SortKeeps<V>(fields: seq<Field<V>>)
    ensures multiset(Sort(fields)) == multiset(fields)
  {
    if fields != [] {
      SortKeeps(fields[1..]);
      InsertKeeps(fields[0], Sort(fields[1..]));
      assert fields == [fields[0]] + fields[1..];
    }
  }

  lemma SameElement<V>(a: seq<Field<V>>, b: seq<Field<V>>, x: Field<V>)
    requires multiset(a) == multiset(b)
    ensures x in a <==> x in b
  {
    assert x in multiset(a) <==> x in multiset(b);
  }

  lemma {:induction false} InsertSorts<V>(f: Field<V>, fields: seq<Field<V>>)
    requires Sorted(fields) && forall g :: g in fields ==> g.key != f.key
    ensures Sorted(Insert(f, fields))
  {
    var r := Insert(f, fields);
    if fields != [] {
      var h, rest := fields[0], fields[1..];
      if Less(h.key, f.key) {
        InsertSorts(f, rest);
        InsertKeeps(f, rest);
        assert r == [h] + Insert(f, rest);
        forall j | 0 < j < |r| ensures Less(h.key, r[j].key) {
          assert r[j] == Insert(f, rest)[j - 1] && r[j] in multiset(Insert(f, rest));
          assert r[j] == f || r[j] in multiset(rest);
        }
      } else {
        LessTotal(f.key, h.key);
        assert h in fields;
        forall j | 0 < j < |r| ensures Less(f.key, r[j].key) {
          if j > 1 {
            LessTransitive(f.key, h.key, r[j].key);
          }
        }
      }
    }
  }

  lemma {:induction false} SortSorts<V>(fields: seq<Field<V>>)
    requires DistinctKeys(fields)
    ensures Sorted(Sort(fields))
  {
    if fields != [] {
      var rest := fields[1..];
      SortSorts(rest);
      SortKeeps(rest);
      forall g | g in Sort(rest) ensures g.key != fields[0].key {
        SameElement(Sort(rest), rest, g);
        var i :| 0 <= i < |rest| && rest[i] == g;
        assert fields[0].key != fields[i + 1].key;
      }
      InsertSorts(fields[0], Sort(rest));
    }
  }

  /** Two sorted records with the same entries are the same sequence. */
  lemma {:induction false} SortedUnique<V>(a: seq<Field<V>>, b: seq<Field<V>>)
    requires Sorted(a) && Sorted(b) && forall x :: x in a <==> x in b
    ensures a == b
  {
    if a == [] {
      assert forall i :: 0 <= i < |b| ==> b[i] in b;
    } else {
      assert a[0] in a;
      assert b != [];
      HeadsEqual(a, b);
      TailsSame(a, b);
      TailsSame(b, a);
      SortedUnique(a[1..], b[1..]);
      assert a == [a[0]] + a[1..] && b == [b[0]] + b[1..];
    }
  }

  lemma HeadsEqual<V>(a: seq<Field<V>>, b: seq<Field<V>>)
    requires a != [] && b != [] && Sorted(a) && Sorted(b) && forall x :: x in a <==> x in b
    ensures a[0] == b[0]
  {
    assert a[0] in b && b[0] in a;
    var i :| 0 <= i < |b| && b[i] == a[0];
    var j :| 0 <= j < |a| && a[j] == b[0];
    if i > 0 && j > 0 {
      LessTransitive(b[0].key, a[0].key, b[0].key);
      LessIrreflexive(b[0].key);
    }
  }

  lemma TailsSame<V>(a: seq<Field<V>>, b: seq<Field<V>>)
    requires a != [] && b != [] && a[0] == b[0] && Sorted(a) && forall x :: x in a <==> x in b
    ensures forall x :: x in a[1..] ==> x in b[1..]
  {
    forall x | x in a[1..] ensures x in b[1..] {
      var i :| 0 <= i < |a[1..]| && a[1..][i] == x;
      assert a[i + 1] == x && x in b;
      if x == a[0] {
        LessIrreflexive(x.key);
      }
      var j :| 0 <= j < |b| && b[j] == x;
      assert j > 0 && b[1..][j - 1] == x;
    }
  }

  /** Sorting depends only on the entries: the order of insertion is lost, and nothing else. */
  lemma SortExact<V>(a: seq<Field<V>>, b: seq<Field<V>>)
    requires DistinctKeys(a) && DistinctKeys(b)
    ensures Sort(a) == Sort(b) <==> multiset(a) == multiset(b)
  {
    SortKeeps(a);
    SortKeeps(b);
    if multiset(a) == multiset(b) {
      SortSorts(a);
      SortSorts(b);
      forall x ensures x in Sort(a) <==> x in Sort(b) {
        SameElement(Sort(a), Sort(b), x);
      }
      SortedUnique(Sort(a), Sort(b));
    }
  }
}
