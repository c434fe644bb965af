/**
 * The canonical encoder under every projection and plan hash
 * (packages/app/src/docker-container-selected-projection.ts): null, booleans, integers, strings as
 * `JSON.stringify` writes them, arrays, and records with sorted keys. Equal encodings mean equal values.
 */
module Canonical {
  import opened Texts

  datatype Value =
    | Null
    | Bool(b: bool)
    | Int(n: int)
    | Str(s: Text)
    | Arr(items: seq<Value>)
    | Rec(fields: seq<Field<Value>>)

  // ---- strings ----------------------------------------------------------------------------------------

  const QUOTE: CodeUnit := 0x22
  const BACKSLASH: CodeUnit := 0x5C

  predicate High(u: CodeUnit) { 0xD800 <= u < 0xDC00 }
  predicate Low(u: CodeUnit) { 0xDC00 <= u < 0xE000 }

  predicate PairAt(s: Text) { |s| >= 2 && High(s[0]) && Low(s[1]) }

  function HexDigit(d: int): (u: CodeUnit)
    requires 0 <= d < 16
  {
    if d < 10 then 0x30 + d else 0x57 + d
  }

  function Hex4(u: CodeUnit): (r: Text) {
    [HexDigit(u / 4096), HexDigit(u / 256 % 16), HexDigit(u / 16 % 16), HexDigit(u % 16)]
  }

  /** The letter of a two-character escape, or 0 if there is none. */
  function ShortEscape(u: CodeUnit): (r: CodeUnit) {
    if u == QUOTE then QUOTE else if u == BACKSLASH then BACKSLASH
    else if u == 8 then 0x62 else if u == 9 then 0x74 else if u == 10 then 0x6E
    else if u == 12 then 0x66 else if u == 13 then 0x72 else 0
  }

  predicate LongEscape(u: CodeUnit) { ShortEscape(u) == 0 && (u < 0x20 || High(u) || Low(u)) }

  /** How many code units the next token of a string takes: a surrogate pair is one token. */
  function TokenLength(s: Text): (n: nat)
    requires s != []
    ensures 1 <= n <= |s|
  {
    if PairAt(s) then 2 else 1
  }

  function Token(s: Text): (r: Text)
    requires s != []
  {
    if PairAt(s) then s[..2]
    else if ShortEscape(s[0]) != 0 then [BACKSLASH, ShortEscape(s[0])]
    else if LongEscape(s[0]) then [BACKSLASH, 0x75] + Hex4(s[0])
    else [s[0]]
  }

  function Escape(s: Text): (r: Text)
    decreases |s|
  {
    if s == [] then [] else Token(s) + Escape(s[TokenLength(s)..])
  }

  function Quoted(s: Text): (r: Text) { [QUOTE] + Escape(s) + [QUOTE] }

  // ---- numbers ------------------------------------------------------------------------------------------

  function Decimal(n: nat): (r: Text) {
    if n < 10 then [0x30 + n] else Decimal(n / 10) + [0x30 + n % 10]
  }

  function Number(n: int): (r: Text) { if n < 0 then [0x2D] + Decimal(-n) else Decimal(n) }

  // ---- values -------------------------------------------------------------------------------------------

  const NULL: Text := [0x6E, 0x75, 0x6C, 0x6C]
  const TRUE: Text := [0x74, 0x72, 0x75, 0x65]
  const FALSE: Text := [0x66, 0x61, 0x6C, 0x73, 0x65]
  const COMMA: CodeUnit := 0x2C
  const COLON: CodeUnit := 0x3A

  /** Writes a value with its record fields in the order given. */
  function Print(v: Value): (r: Text)
    decreases v
  {
    match v
    case Null => NULL
    case Bool(b) => if b then TRUE else FALSE
    case Int(n) => Number(n)
    case Str(s) => Quoted(s)
    case Arr(items) => [0x5B] + (if items == [] then [0x5D] else PrintItems(items))
    case Rec(fields) => [0x7B] + (if fields == [] then [0x7D] else PrintFields(fields))
  }

  /** Comma-separated items up to and including the closing bracket. */
  function PrintItems(items: seq<Value>): (r: Text)
    requires items != []
    decreases items
  {
    Print(items[0]) + if |items| == 1 then [0x5D] else [COMMA] + PrintItems(items[1..])
  }

  function PrintFields(fields: seq<Field<Value>>): (r: Text)
    requires fields != []
    decreases fields
  {
    Quoted(fields[0].key) + [COLON] + Print(fields[0].value) +
    if |fields| == 1 then [0x7D] else [COMMA] + PrintFields(fields[1..])
  }

  // ---- strings decode uniquely --------------------------------------------------------------------------

  lemma HexInjective(u: CodeUnit, v: CodeUnit)
    requires Hex4(u) == Hex4(v)
    ensures u == v
  {
    HexDigits(u);
    HexDigits(v);
    forall i | 0 <= i < 4 ensures Hex4(u)[i] == Hex4(v)[i] {}
    HexDigitInjective(u / 4096, v / 4096);
    HexDigitInjective(u / 256 % 16, v / 256 % 16);
    HexDigitInjective(u / 16 % 16, v / 16 % 16);
    HexDigitInjective(u % 16, v % 16);
  }

  lemma HexDigits(u: CodeUnit)
    ensures u == u / 4096 * 4096 + u / 256 % 16 * 256 + u / 16 % 16 * 16 + u % 16
  {
    Nibble(u);
    Nibble(u / 16);
    Nibble(u / 256);
    assert u / 256 == u / 16 / 16 by { Divides(u, 16); }
    assert u / 4096 == u / 256 / 16 by { Divides(u, 256); }
  }

  lemma Nibble(n: int)
    ensures n == n / 16 * 16 + n % 16
  {}

  /** Dividing twice is dividing once. */
  lemma Divides(n: nat, d: nat)
    requires d == 16 || d == 256
    ensures n / (d * 16) == n / d / 16
  {
    var q, r := n / (d * 16), n % (d * 16);
    if d == 16 {
      assert n == q * 256 + r && 0 <= r < 256;
      assert n / 16 == q * 16 + r / 16;
    } else {
      assert n == q * 4096 + r && 0 <= r < 4096;
      assert n / 256 == q * 16 + r / 256;
    }
  }

  lemma HexDigitInjective(a: int, b: int)
    requires 0 <= a < 16 && 0 <= b < 16 && HexDigit(a) == HexDigit(b)
    ensures a == b
  {}

  /** The first token of an escaped string can be read off its text. */
  lemma TokenDecodes(x: Text, y: Text, r: Text, s: Text)
    requires x != [] && y != [] && Token(x) + r == Token(y) + s
    ensures TokenLength(x) == TokenLength(y) && x[..TokenLength(x)] == y[..TokenLength(y)] && r == s
  {
    var a, b := Token(x) + r, Token(y) + s;
    assert a[0] == b[0] && Token(x)[0] == a[0] && Token(y)[0] == b[0];
    assert PairAt(x) <==> PairAt(y);
    assert a[1..] == b[1..];
    if PairAt(x) {
      assert a[1] == x[1] && b[1] == y[1];
      assert a[2..] == r && b[2..] == s;
    } else if a[0] == BACKSLASH {
      assert a[1] == Token(x)[1] && b[1] == Token(y)[1];
      if LongEscape(x[0]) {
        assert a[2..6] == Hex4(x[0]) && b[2..6] == Hex4(y[0]);
        HexInjective(x[0], y[0]);
        assert a[6..] == r && b[6..] == s;
      } else {
        assert a[2..] == r && b[2..] == s;
      }
    } else {
      assert a[1..] == r && b[1..] == s;
    }
  }

  /** The escaped string, its closing quote, and what follows. */
  function Closed(x: Text, r: Text): (t: Text) { Escape(x) + [QUOTE] + r }

  lemma ClosedStart(x: Text, r: Text)
    ensures Closed(x, r) != [] && (Closed(x, r)[0] == QUOTE <==> x == [])
    ensures x == [] ==> Closed(x, r)[1..] == r
    ensures x != [] ==> Closed(x, r) == Token(x) + Closed(x[TokenLength(x)..], r)
  {
    if x == [] {
      DropFirst(QUOTE, [], r);
    } else {
      var e := Escape(x[TokenLength(x)..]);
      assert Escape(x) == Token(x) + e;
      TokenStart(x);
      hide Token, Escape, TokenLength;
      Regroup(Token(x), e, [QUOTE]);
      Regroup(Token(x), e + [QUOTE], r);
    }
  }

  lemma TokenStart(x: Text)
    requires x != []
    ensures Token(x) != [] && Token(x)[0] != QUOTE
  {}

  lemma {:induction false} ClosedDecodes(x: Text, y: Text, r: Text, s: Text)
    requires Closed(x, r) == Closed(y, s)
    ensures x == y && r == s
    decreases |x|
  {
    ClosedStart(x, r);
    ClosedStart(y, s);
    hide Closed, Token;
    if x != [] {
      var x', y' := x[TokenLength(x)..], y[TokenLength(y)..];
      TokenDecodes(x, y, Closed(x', r), Closed(y', s));
      ClosedDecodes(x', y', r, s);
      assert x == x[..TokenLength(x)] + x' && y == y[..TokenLength(y)] + y';
    }
  }

  lemma QuotedDecodes(x: Text, y: Text, r: Text, s: Text)
    requires Quoted(x) + r == Quoted(y) + s
    ensures x == y && r == s
  {
    assert (Quoted(x) + r)[1..] == Closed(x, r);
    assert (Quoted(y) + s)[1..] == Closed(y, s);
    ClosedDecodes(x, y, r, s);
  }

  lemma QuotedStart(x: Text)
    ensures Quoted(x) != [] && Quoted(x)[0] == QUOTE
  {}

  lemma DropFirst(c: CodeUnit, t: Text, r: Text)
    ensures ([c] + t + r)[1..] == t + r && ([c] + t + r)[0] == c
    ensures [] + r == r && [c] + [] == [c]
  {}

  lemma Regroup(p: Text, m: Text, r: Text)
    ensures p + m + r == p + (m + r)
  {}

  lemma RegroupField(q: Text, p: Text, m: Text, r: Text)
    ensures q + [COLON] + p + m + r == q + ([COLON] + (p + (m + r)))
  {}

  // ---- numbers decode uniquely --------------------------------------------------------------------------

  predicate Digit(u: CodeUnit) { 0x30 <= u <= 0x39 }

  predicate NoDigit(r: Text) { r == [] || !Digit(r[0]) }

  function ValueOf(digits: Text): (n: int) {
    if digits == [] then 0 else ValueOf(digits[..|digits| - 1]) * 10 + digits[|digits| - 1] as int - 0x30
  }

  lemma {:induction false} DecimalValue(n: nat)
    ensures Decimal(n) != [] && ValueOf(Decimal(n)) == n && forall u :: u in Decimal(n) ==> Digit(u)
  {
    if n >= 10 {
      DecimalValue(n / 10);
      assert Decimal(n)[..|Decimal(n)| - 1] == Decimal(n / 10);
    } else {
      assert Decimal(n)[..0] == [];
    }
  }

  /** How many digits a text starts with. */
  function DigitRun(t: Text): (n: nat) {
    if NoDigit(t) then 0 else 1 + DigitRun(t[1..])
  }

  lemma {:induction false} RunOfDigits(d: Text, r: Text)
    requires NoDigit(r) && forall u :: u in d ==> Digit(u)
    ensures DigitRun(d + r) == |d|
  {
    if d == [] {
      assert d + r == r;
    } else {
      assert (d + r)[1..] == d[1..] + r;
      assert d[0] in d;
      RunOfDigits(d[1..], r);
    }
  }

  /** Digits end where the next text does not start with one. */
  lemma DigitsEnd(d: Text, e: Text, r: Text, s: Text)
    requires d + r == e + s && NoDigit(r) && NoDigit(s)
    requires (forall u :: u in d ==> Digit(u)) && (forall u :: u in e ==> Digit(u))
    ensures d == e && r == s
  {
    RunOfDigits(d, r);
    RunOfDigits(e, s);
    assert d == (d + r)[..|d|] && e == (e + s)[..|e|];
    assert r == (d + r)[|d|..] && s == (e + s)[|e|..];
  }

  lemma NumberDecodes(m: int, n: int, r: Text, s: Text)
    requires Number(m) + r == Number(n) + s && NoDigit(r) && NoDigit(s)
    ensures m == n && r == s
  {
    NumberStart(m, r);
    NumberStart(n, s);
    hide Number;
    DigitsEnd(Decimal(Magnitude(m)), Decimal(Magnitude(n)), r, s);
  }

  function Magnitude(n: int): (m: nat) { if n < 0 then -n else n }

  lemma NumberStart(n: int, r: Text)
    ensures var d := Decimal(Magnitude(n));
      && ValueOf(d) == Magnitude(n) && (forall u :: u in d ==> Digit(u))
      && Number(n) != [] && ((Number(n) + r)[0] == 0x2D <==> n < 0)
      && (if n < 0 then (Number(n) + r)[1..] == d + r else Number(n) == d)
      && (n >= 0 ==> Digit(Number(n)[0]))
  {
    hide Decimal, ValueOf;
    var d := Decimal(Magnitude(n));
    DecimalValue(Magnitude(n));
    assert d[0] in d;
    DropFirst(0x2D, d, r);
  }

  // ---- values decode uniquely -------------------------------------------------------------------------------

  function ItemsOf(items: seq<Value>): (r: Text)
    decreases items, 0
  {
    if items == [] then [0x5D] else PrintItems(items)
  }

  function FieldsOf(fields: seq<Field<Value>>): (r: Text)
    decreases fields, 0
  {
    if fields == [] then [0x7D] else PrintFields(fields)
  }

  /** What follows the first item: the closing bracket, or a comma and the other items. */
  function MoreItems(items: seq<Value>): (r: Text)
    requires items != []
  {
    if |items| == 1 then [0x5D] else [COMMA] + PrintItems(items[1..])
  }

  function MoreFields(fields: seq<Field<Value>>): (r: Text)
    requires fields != []
  {
    if |fields| == 1 then [0x7D] else [COMMA] + PrintFields(fields[1..])
  }

  /** The first code unit tells the kind of a value. */
  lemma PrintStart(v: Value, r: Text)
    ensures Print(v) != []
    ensures var u := (Print(v) + r)[0];
      && u != 0x5D && u != 0x7D && u != COMMA
      && (v.Null? <==> u == 0x6E) && (v.Bool? && v.b <==> u == 0x74) && (v.Bool? && !v.b <==> u == 0x66)
      && (v.Int? <==> u == 0x2D || Digit(u)) && (v.Str? <==> u == QUOTE) && (v.Arr? <==> u == 0x5B) &&
        (v.Rec? <==> u == 0x7B)
  {
    if v.Int? {
      NumberStart(v.n, r);
    }
    hide Number, Quoted;
  }

  /** What a value leaves of the text once its kind is known. */
  lemma PrintRest(v: Value, r: Text)
    ensures v.Null? ==> |Print(v)| == 4 && (Print(v) + r)[4..] == r
    ensures v.Bool? ==> var n := if v.b then 4 else 5; |Print(v)| == n && (Print(v) + r)[n..] == r
    ensures v.Arr? ==> (Print(v) + r)[1..] == ItemsOf(v.items) + r
    ensures v.Rec? ==> (Print(v) + r)[1..] == FieldsOf(v.fields) + r
    ensures v.Int? ==> Print(v) == Number(v.n)
    ensures v.Str? ==> Print(v) == Quoted(v.s)
  {
    hide Number, Quoted, PrintItems, PrintFields;
  }

  /** A printed value can be read off any text it starts, if no digit follows. */
  lemma {:induction false} PrintDecodes(v: Value, w: Value, r: Text, s: Text)
    requires Print(v) + r == Print(w) + s && NoDigit(r) && NoDigit(s)
    ensures v == w && r == s
    decreases v, 1
  {
    PrintStart(v, r);
    PrintStart(w, s);
    PrintRest(v, r);
    PrintRest(w, s);
    hide Print, Number, Quoted, ItemsOf, FieldsOf;
    match v
    case Null =>
    case Bool(t) =>
    case Int(n) => NumberDecodes(n, w.n, r, s);
    case Str(t) => QuotedDecodes(t, w.s, r, s);
    case Arr(items) => ItemsDecode(items, w.items, r, s);
    case Rec(fields) => FieldsDecode(fields, w.fields, r, s);
  }

  lemma ItemsStart(xs: seq<Value>, r: Text)
    ensures ItemsOf(xs) != [] && ((ItemsOf(xs) + r)[0] == 0x5D <==> xs == [])
    ensures xs == [] ==> (ItemsOf(xs) + r)[1..] == r
    ensures xs != [] ==>
      var more := MoreItems(xs) + r;
      && ItemsOf(xs) + r == Print(xs[0]) + more && NoDigit(more) && more != []
      && (more[0] == 0x5D <==> |xs| == 1)
      && more[1..] == if |xs| == 1 then r else ItemsOf(xs[1..]) + r
  {
    hide Print;
    if xs == [] {
      DropFirst(0x5D, [], r);
    } else {
      PrintStart(xs[0], MoreItems(xs) + r);
      assert ItemsOf(xs) == Print(xs[0]) + MoreItems(xs);
      Regroup(Print(xs[0]), MoreItems(xs), r);
      DropFirst(0x5D, [], r);
      DropFirst(COMMA, ItemsOf(xs[1..]), r);
      hide PrintItems;
    }
  }

  lemma {:induction false} ItemsDecode(xs: seq<Value>, ys: seq<Value>, r: Text, s: Text)
    requires ItemsOf(xs) + r == ItemsOf(ys) + s
    ensures xs == ys && r == s
    decreases xs, 0
  {
    ItemsStart(xs, r);
    ItemsStart(ys, s);
    hide ItemsOf, MoreItems, Print;
    if xs != [] {
      PrintDecodes(xs[0], ys[0], MoreItems(xs) + r, MoreItems(ys) + s);
      if |xs| > 1 {
        ItemsDecode(xs[1..], ys[1..], r, s);
      }
      assert xs == [xs[0]] + xs[1..] && ys == [ys[0]] + ys[1..];
    }
  }

  lemma FieldsStart(xs: seq<Field<Value>>, r: Text)
    ensures FieldsOf(xs) != [] && ((FieldsOf(xs) + r)[0] == 0x7D <==> xs == [])
    ensures xs == [] ==> (FieldsOf(xs) + r)[1..] == r
    ensures xs != [] ==>
      var more := MoreFields(xs) + r;
      && FieldsOf(xs) + r == Quoted(xs[0].key) + ([COLON] + (Print(xs[0].value) + more)) && NoDigit(more) && more != []
      && (more[0] == 0x7D <==> |xs| == 1)
      && more[1..] == if |xs| == 1 then r else FieldsOf(xs[1..]) + r
  {
    hide Print, Quoted, Escape;
    if xs == [] {
      DropFirst(0x7D, [], r);
    } else {
      var q, p, m := Quoted(xs[0].key), Print(xs[0].value), MoreFields(xs);
      assert FieldsOf(xs) == q + [COLON] + p + m;
      QuotedStart(xs[0].key);
      RegroupField(q, p, m, r);
      DropFirst(0x7D, [], r);
      DropFirst(COMMA, FieldsOf(xs[1..]), r);
      hide PrintFields;
    }
  }

  lemma {:induction false} FieldsDecode(xs: seq<Field<Value>>, ys: seq<Field<Value>>, r: Text, s: Text)
    requires FieldsOf(xs) + r == FieldsOf(ys) + s
    ensures xs == ys && r == s
    decreases xs, 0
  {
    FieldsStart(xs, r);
    FieldsStart(ys, s);
    hide FieldsOf, MoreFields, Print, Quoted;
    if xs != [] {
      var a, b := Print(xs[0].value) + (MoreFields(xs) + r), Print(ys[0].value) + (MoreFields(ys) + s);
      QuotedDecodes(xs[0].key, ys[0].key, [COLON] + a, [COLON] + b);
      assert ([COLON] + a)[1..] == a && ([COLON] + b)[1..] == b;
      PrintDecodes(xs[0].value, ys[0].value, MoreFields(xs) + r, MoreFields(ys) + s);
      if |xs| > 1 {
        FieldsDecode(xs[1..], ys[1..], r, s);
      }
      assert xs == [xs[0]] + xs[1..] && ys == [ys[0]] + ys[1..];
    }
  }

  // ---- the encoder ----------------------------------------------------------------------------------------

  /** The value with the keys of every record sorted. */
  function Normal(v: Value): (r: Value)
    decreases v
  {
    match v
    case Arr(items) => Arr(NormalItems(items))
    case Rec(fields) => Rec(Sort(NormalFields(fields)))
    case _ => v
  }

  function NormalItems(items: seq<Value>): (r: seq<Value>)
    ensures |r| == |items|
    decreases items
  {
    if items == [] then [] else [Normal(items[0])] + NormalItems(items[1..])
  }

  function NormalFields(fields: seq<Field<Value>>): (r: seq<Field<Value>>)
    ensures |r| == |fields| && forall i :: 0 <= i < |r| ==> r[i].key == fields[i].key
    decreases fields
  {
    if fields == [] then [] else [Field(fields[0].key, Normal(fields[0].value))] + NormalFields(fields[1..])
  }

  /** `canonical`, before its length limit. */
  function Encode(v: Value): (r: Text) { Print(Normal(v)) }

  /** Unique decodability: values encode alike exactly if they are equal up to the order of record keys. */
  lemma EncodeExact(v: Value, w: Value)
    ensures Encode(v) == Encode(w) <==> Normal(v) == Normal(w)
  {
    if Encode(v) == Encode(w) {
      assert Encode(v) + [] == Print(Normal(v)) + [] == Print(Normal(w)) + [];
      PrintDecodes(Normal(v), Normal(w), [], []);
    }
  }

  /** For records: the same entries, in whatever order they were inserted. */
  lemma EncodeRecords(a: seq<Field<Value>>, b: seq<Field<Value>>)
    requires DistinctKeys(a) && DistinctKeys(b)
    ensures Encode(Rec(a)) == Encode(Rec(b)) <==> multiset(NormalFields(a)) == multiset(NormalFields(b))
  {
    EncodeExact(Rec(a), Rec(b));
    SortExact(NormalFields(a), NormalFields(b));
  }

  // ---- records with the same keys ----------------------------------------------------------------------------

  ghost predicate SameKeys<V>(a: seq<Field<V>>, b: seq<Field<V>>) {
    |a| == |b| && forall i :: 0 <= i < |a| ==> a[i].key == b[i].key
  }

  lemma {:induction false} InsertInjective<V>(f: Field<V>, g: Field<V>, a: seq<Field<V>>, b: seq<Field<V>>)
    requires f.key == g.key && SameKeys(a, b)
    ensures SameKeys(Insert(f, a), Insert(g, b))
    ensures Insert(f, a) == Insert(g, b) ==> f == g && a == b
  {
    if a != [] {
      if Less(a[0].key, f.key) {
        InsertInjective(f, g, a[1..], b[1..]);
        assert Insert(f, a)[1..] == Insert(f, a[1..]) && Insert(g, b)[1..] == Insert(g, b[1..]);
        assert a == [a[0]] + a[1..] && b == [b[0]] + b[1..];
      } else {
        assert Insert(f, a)[1..] == a && Insert(g, b)[1..] == b;
      }
    }
  }

  /** Sorting moves entries by their keys only. */
  lemma {:induction false} SortInjective<V>(a: seq<Field<V>>, b: seq<Field<V>>)
    requires SameKeys(a, b)
    ensures SameKeys(Sort(a), Sort(b))
    ensures Sort(a) == Sort(b) ==> a == b
  {
    if a != [] {
      SortInjective(a[1..], b[1..]);
      InsertInjective(a[0], b[0], Sort(a[1..]), Sort(b[1..]));
      assert a == [a[0]] + a[1..] && b == [b[0]] + b[1..];
    }
  }

  lemma {:induction false} NormalFieldAt(fields: seq<Field<Value>>, i: nat)
    requires i < |fields|
    ensures NormalFields(fields)[i] == Field(fields[i].key, Normal(fields[i].value))
  {
    if i > 0 {
      NormalFieldAt(fields[1..], i - 1);
    }
  }

  /** Records printed from the same list of keys are equal value by value. */
  lemma FieldsDetermined(a: seq<Field<Value>>, b: seq<Field<Value>>)
    requires SameKeys(a, b) && Normal(Rec(a)) == Normal(Rec(b))
    ensures forall i :: 0 <= i < |a| ==> Normal(a[i].value) == Normal(b[i].value)
  {
    SortInjective(NormalFields(a), NormalFields(b));
    forall i | 0 <= i < |a| ensures Normal(a[i].value) == Normal(b[i].value) {
      NormalFieldAt(a, i);
      NormalFieldAt(b, i);
    }
  }

  // ---- the text is well formed ----------------------------------------------------------------------------------

  /** No surrogate stands alone, so the text has exactly one UTF-8 form. */
  predicate WellFormed(t: Text)
    decreases |t|
  {
    if t == [] then true
    else if PairAt(t) then WellFormed(t[2..])
    else !High(t[0]) && !Low(t[0]) && WellFormed(t[1..])
  }

  lemma {:induction false} WellFormedAppend(a: Text, b: Text)
    requires WellFormed(a) && WellFormed(b)
    ensures WellFormed(a + b)
    decreases |a|
  {
    if a == [] {
      assert a + b == b;
    } else if PairAt(a) {
      assert (a + b)[2..] == a[2..] + b;
      WellFormedAppend(a[2..], b);
    } else {
      assert (a + b)[1..] == a[1..] + b;
      WellFormedAppend(a[1..], b);
    }
  }

  predicate Plain(t: Text) { forall i :: 0 <= i < |t| ==> t[i] < 0xD800 }

  lemma {:induction false} PlainWellFormed(t: Text)
    requires Plain(t)
    ensures WellFormed(t)
  {
    if t != [] {
      PlainWellFormed(t[1..]);
    }
  }

  lemma {:induction false} EscapeWellFormed(s: Text)
    ensures WellFormed(Escape(s))
    decreases |s|
  {
    if s != [] {
      EscapeWellFormed(s[TokenLength(s)..]);
      if PairAt(s) {
        assert Token(s)[2..] == [];
      } else if ShortEscape(s[0]) == 0 && !LongEscape(s[0]) {
        assert Token(s)[1..] == [];
      } else {
        PlainWellFormed(Token(s));
      }
      WellFormedAppend(Token(s), Escape(s[TokenLength(s)..]));
    }
  }

  lemma QuotedWellFormed(s: Text)
    ensures WellFormed(Quoted(s))
  {
    EscapeWellFormed(s);
    PlainWellFormed([QUOTE]);
    WellFormedAppend([QUOTE], Escape(s));
    WellFormedAppend([QUOTE] + Escape(s), [QUOTE]);
  }

  lemma {:induction false} PrintWellFormed(v: Value)
    ensures WellFormed(Print(v))
    decreases v, 1
  {
    hide WellFormed, Quoted, Number;
    match v
    case Null => PlainWellFormed(NULL);
    case Bool(b) => PlainWellFormed(Print(v));
    case Int(n) => NumberWellFormed(n);
    case Str(s) => QuotedWellFormed(s);
    case Arr(items) =>
      ItemsWellFormed(items);
      PlainWellFormed([0x5B]);
      WellFormedAppend([0x5B], ItemsOf(items));
    case Rec(fields) =>
      FieldsWellFormed(fields);
      PlainWellFormed([0x7B]);
      WellFormedAppend([0x7B], FieldsOf(fields));
  }

  lemma NumberWellFormed(n: int)
    ensures WellFormed(Number(n))
  {
    var d := Decimal(Magnitude(n));
    DecimalValue(Magnitude(n));
    forall i | 0 <= i < |d| ensures d[i] < 0xD800 {
      assert d[i] in d;
    }
    PlainWellFormed(d);
    PlainWellFormed([0x2D]);
    WellFormedAppend([0x2D], Decimal(Magnitude(n)));
  }

  lemma {:induction false} ItemsWellFormed(items: seq<Value>)
    ensures WellFormed(ItemsOf(items))
    decreases items, 0
  {
    hide WellFormed;
    PlainWellFormed([0x5D]);
    if items != [] {
      PrintWellFormed(items[0]);
      ItemsWellFormed(items[1..]);
      PlainWellFormed([COMMA]);
      WellFormedAppend([COMMA], ItemsOf(items[1..]));
      WellFormedAppend(Print(items[0]), MoreItems(items));
    }
  }

  lemma {:induction false} FieldsWellFormed(fields: seq<Field<Value>>)
    ensures WellFormed(FieldsOf(fields))
    decreases fields, 0
  {
    hide WellFormed, Quoted;
    PlainWellFormed([0x7D]);
    if fields != [] {
      var q, p, m := Quoted(fields[0].key), Print(fields[0].value), MoreFields(fields);
      QuotedWellFormed(fields[0].key);
      PrintWellFormed(fields[0].value);
      FieldsWellFormed(fields[1..]);
      PlainWellFormed([COMMA]);
      PlainWellFormed([COLON]);
      WellFormedAppend([COMMA], FieldsOf(fields[1..]));
      WellFormedAppend(q, [COLON]);
      WellFormedAppend(q + [COLON], p);
      WellFormedAppend(q + [COLON] + p, m);
    }
  }

  // ---- lines --------------------------------------------------------------------------------------------------

  const NEWLINE: CodeUnit := 10

  /** `JSON.stringify` leaves no newline in its text: it can be stored on one line. */
  predicate OneLine(t: Text) { NEWLINE !in t }

  lemma OneLineAppend(a: Text, b: Text)
    requires OneLine(a) && OneLine(b)
    ensures OneLine(a + b)
  {}

  lemma {:induction false} EscapeOneLine(s: Text)
    ensures OneLine(Escape(s))
    decreases |s|
  {
    if s != [] {
      EscapeOneLine(s[TokenLength(s)..]);
      assert OneLine(Token(s));
      OneLineAppend(Token(s), Escape(s[TokenLength(s)..]));
    }
  }

  lemma QuotedOneLine(s: Text)
    ensures OneLine(Quoted(s))
  {
    EscapeOneLine(s);
    OneLineAppend([QUOTE], Escape(s));
    OneLineAppend([QUOTE] + Escape(s), [QUOTE]);
  }

  lemma NumberOneLine(n: int)
    ensures OneLine(Number(n))
  {
    DecimalValue(Magnitude(n));
    OneLineAppend([0x2D], Decimal(Magnitude(n)));
  }

  lemma {:induction false} PrintOneLine(v: Value)
    ensures OneLine(Print(v))
    decreases v, 1
  {
    hide OneLine, Quoted, Number;
    match v
    case Null => assert OneLine(NULL) by { PlainLine(NULL); }
    case Bool(b) => PlainLine(Print(v));
    case Int(n) => NumberOneLine(n);
    case Str(s) => QuotedOneLine(s);
    case Arr(items) =>
      ItemsOneLine(items);
      PlainLine([0x5B]);
      OneLineAppend([0x5B], ItemsOf(items));
    case Rec(fields) =>
      FieldsOneLine(fields);
      PlainLine([0x7B]);
      OneLineAppend([0x7B], FieldsOf(fields));
  }

  lemma PlainLine(t: Text)
    requires forall i :: 0 <= i < |t| ==> t[i] != NEWLINE
    ensures OneLine(t)
  {}

  lemma {:induction false} ItemsOneLine(items: seq<Value>)
    ensures OneLine(ItemsOf(items))
    decreases items, 0
  {
    hide OneLine;
    PlainLine([0x5D]);
    if items != [] {
      PrintOneLine(items[0]);
      ItemsOneLine(items[1..]);
      PlainLine([COMMA]);
      OneLineAppend([COMMA], ItemsOf(items[1..]));
      OneLineAppend(Print(items[0]), MoreItems(items));
    }
  }

  lemma {:induction false} FieldsOneLine(fields: seq<Field<Value>>)
    ensures OneLine(FieldsOf(fields))
    decreases fields, 0
  {
    hide OneLine, Quoted;
    PlainLine([0x7D]);
    if fields != [] {
      var q, p, m := Quoted(fields[0].key), Print(fields[0].value), MoreFields(fields);
      QuotedOneLine(fields[0].key);
      PrintOneLine(fields[0].value);
      FieldsOneLine(fields[1..]);
      PlainLine([COMMA]);
      PlainLine([COLON]);
      OneLineAppend([COMMA], FieldsOf(fields[1..]));
      OneLineAppend(q, [COLON]);
      OneLineAppend(q + [COLON], p);
      OneLineAppend(q + [COLON] + p, m);
    }
  }

  /** White space that `trim` removes. */
  predicate Space(u: CodeUnit) {
    9 <= u <= 13 || u in {0x20, 0xA0, 0x1680, 0x2028, 0x2029, 0x202F, 0x205F, 0x3000, 0xFEFF} || 0x2000 <= u <= 0x200A
  }

  /** A printed value ends in a character that is not white space. */
  lemma {:induction false} PrintEnds(v: Value)
    ensures Print(v) != [] && !Space(Print(v)[|Print(v)| - 1])
    decreases v
  {
    match v
    case Null =>
    case Bool(_) =>
    case Int(n) => NumberEnds(n);
    case Str(s) => assert Quoted(s)[|Quoted(s)| - 1] == QUOTE;
    case Arr(items) => ItemsEnd(items);
    case Rec(fields) => FieldsEnd(fields);
  }

  lemma NumberEnds(n: int)
    ensures Number(n) != [] && !Space(Number(n)[|Number(n)| - 1])
  {
    var d := Decimal(Magnitude(n));
    DecimalValue(Magnitude(n));
    hide Decimal, ValueOf;
    assert d[|d| - 1] in d;
    assert Number(n)[|Number(n)| - 1] == d[|d| - 1];
  }

  lemma {:induction false} ItemsEnd(items: seq<Value>)
    ensures ItemsOf(items) != [] && ItemsOf(items)[|ItemsOf(items)| - 1] == 0x5D
  {
    hide Print;
    if |items| > 1 {
      ItemsEnd(items[1..]);
    }
  }

  lemma {:induction false} FieldsEnd(fields: seq<Field<Value>>)
    ensures FieldsOf(fields) != [] && FieldsOf(fields)[|FieldsOf(fields)| - 1] == 0x7D
  {
    hide Print, Quoted;
    if |fields| > 1 {
      FieldsEnd(fields[1..]);
    }
  }
}
