/**
 * Printing a projection and reading it back: exactly when the inspect document of a sealed request
 * normalizes to the projection it was made from, and that hashes match exactly equal projections.
 */
module DockerRoundTrip {
  import opened Common
  import opened Texts
  import Canonical
  import opened DockerProjection

  // ---- ownership labels -------------------------------------------------------------------------------------

  function OwnershipKeys(): (ks: seq<Text>) { [VERSION, INSTALLATION, OWNER, SESSION, OPERATION, KIND, ROLE, POLICY] }

  /** The two code units after the common start tell the keys apart. */
  function Code(k: Text): (n: int)
    requires |k| > 19
  {
    k[18] as int * 256 + k[19] as int
  }

  lemma KeyCodes()
    ensures |VERSION| > 19 && |INSTALLATION| > 19 && |OWNER| > 19 && |SESSION| > 19
    ensures |OPERATION| > 19 && |KIND| > 19 && |ROLE| > 19 && |POLICY| > 19
    ensures Code(VERSION) == 0x7665 && Code(INSTALLATION) == 0x696e && Code(OWNER) == 0x6f77 && Code(SESSION) == 0x7365
    ensures Code(OPERATION) == 0x6f70 && Code(KIND) == 0x6b69 && Code(ROLE) == 0x726f && Code(POLICY) == 0x706f
  {}

  lemma KeysDistinct()
    ensures forall i, j :: 0 <= i < j < 8 ==> OwnershipKeys()[i] != OwnershipKeys()[j]
  {
    KeyCodes();
    var keys := OwnershipKeys();
    var codes := [0x7665, 0x696e, 0x6f77, 0x7365, 0x6f70, 0x6b69, 0x726f, 0x706f];
    forall i | 0 <= i < 8 ensures |keys[i]| > 19 && Code(keys[i]) == codes[i] {}
    hide OwnershipKeys, Code;
    forall i, j | 0 <= i < j < 8 ensures keys[i] != keys[j] {
      assert codes[i] != codes[j];
    }
  }

  lemma KeysReserved()
    ensures forall k :: k in OWNERSHIP ==> Reserved(k)
  {}

  lemma {:induction false} DistinctSize(ts: seq<Text>)
    requires forall i, j :: 0 <= i < j < |ts| ==> ts[i] != ts[j]
    ensures |set t | t in ts| == |ts|
  {
    if ts != [] {
      var n := |ts| - 1;
      DistinctSize(ts[..n]);
      assert ts == ts[..n] + [ts[n]];
      assert (set t | t in ts) == (set t | t in ts[..n]) + {ts[n]};
      assert ts[n] !in ts[..n];
    }
  }

  lemma EightKeys()
    ensures |OWNERSHIP| == 8
  {
    KeysDistinct();
    DistinctSize(OwnershipKeys());
    assert OWNERSHIP == set t | t in OwnershipKeys();
  }

  lemma OwnershipFacts(d: Descriptor)
    ensures |OwnershipLabels(d)| == 8 && DistinctKeys(OwnershipLabels(d))
    ensures forall f :: f in OwnershipLabels(d) ==> f.key in OWNERSHIP && Reserved(f.key)
  {
    KeysDistinct();
    KeysReserved();
    var o := OwnershipLabels(d);
    forall i | 0 <= i < 8 ensures o[i].key == OwnershipKeys()[i] {}
  }

  // ---- records ------------------------------------------------------------------------------------------------

  lemma {:induction false} LookupIn(r: StringRecord, f: Field<Text>)
    requires DistinctKeys(r) && f in r
    ensures Lookup(r, f.key) == Some(f.value)
  {
    if r[0] != f {
      var i :| 0 <= i < |r| && r[i] == f;
      assert r[1..][i - 1] == f;
      LookupIn(r[1..], f);
    }
  }

  lemma {:induction false} InsertBytes(f: Field<Text>, r: StringRecord)
    ensures RecordBytes(Insert(f, r)) == Bytes(f.key) + Bytes(f.value) + RecordBytes(r)
  {
    if r != [] && Less(r[0].key, f.key) {
      InsertBytes(f, r[1..]);
      assert Insert(f, r)[1..] == Insert(f, r[1..]);
    } else {
      assert Insert(f, r)[1..] == r;
    }
  }

  lemma {:induction false} SortBytes(r: StringRecord)
    ensures RecordBytes(Sort(r)) == RecordBytes(r)
  {
    if r != [] {
      SortBytes(r[1..]);
      InsertBytes(r[0], Sort(r[1..]));
    }
  }

  lemma {:induction false} AppendBytes(a: StringRecord, b: StringRecord)
    ensures RecordBytes(a + b) == RecordBytes(a) + RecordBytes(b)
  {
    if a == [] {
      assert a + b == b;
    } else {
      assert (a + b)[1..] == a[1..] + b;
      AppendBytes(a[1..], b);
    }
  }

  lemma SortedDistinct(r: StringRecord)
    requires Sorted(r)
    ensures DistinctKeys(r)
  {
    forall i, j | 0 <= i < j < |r| ensures r[i].key != r[j].key {
      LessIrreflexive(r[i].key);
    }
  }

  lemma SortElements(r: StringRecord)
    ensures forall f :: f in Sort(r) <==> f in r
  {
    SortKeeps(r);
    forall f ensures f in Sort(r) <==> f in r {
      SameElement(Sort(r), r, f);
    }
  }

  /** Sorting what is sorted changes nothing. */
  lemma SortTwice(r: StringRecord)
    requires DistinctKeys(r)
    ensures Sort(Sort(r)) == Sort(r)
  {
    SortSorts(r);
    SortedDistinct(Sort(r));
    SortSorts(Sort(r));
    SortElements(Sort(r));
    SortedUnique(Sort(Sort(r)), Sort(r));
  }

  lemma {:induction false} FilterSorted(r: StringRecord, p: Field<Text> -> bool)
    requires Sorted(r)
    ensures Sorted(Filter(r, p))
  {
    FilterKeepsPairs(r, p, (f: Field<Text>, g: Field<Text>) => Less(f.key, g.key));
  }

  // ---- the sealed labels -----------------------------------------------------------------------------------------

  function Sealed(l: StringRecord, d: Descriptor): (s: StringRecord) { Sort(l + OwnershipLabels(d)) }

  ghost predicate Unreserved(l: StringRecord) { forall f :: f in l ==> !Reserved(f.key) }

  lemma SealedFacts(l: StringRecord, d: Descriptor)
    requires DistinctKeys(l) && Unreserved(l)
    ensures Sorted(Sealed(l, d)) && DistinctKeys(Sealed(l, d)) && Sort(Sealed(l, d)) == Sealed(l, d)
    ensures forall f :: f in Sealed(l, d) <==> f in l || f in OwnershipLabels(d)
    ensures |Sealed(l, d)| == |l| + 8 && RecordBytes(Sealed(l, d)) == RecordBytes(l) + RecordBytes(OwnershipLabels(d))
  {
    var o := OwnershipLabels(d);
    OwnershipFacts(d);
    hide OwnershipLabels;
    DistinctTogether(l, o);
    SortSorts(l + o);
    SortedDistinct(Sort(l + o));
    SortTwice(l + o);
    SortElements(l + o);
    SortBytes(l + o);
    AppendBytes(l, o);
  }

  lemma DistinctTogether(l: StringRecord, o: StringRecord)
    requires DistinctKeys(l) && DistinctKeys(o) && Unreserved(l) && forall f :: f in o ==> Reserved(f.key)
    ensures DistinctKeys(l + o)
  {
    var r := l + o;
    forall i, j | 0 <= i < j < |r| ensures r[i].key != r[j].key {
      if i < |l| <= j {
        assert r[i] in l && r[j] in o;
      }
    }
  }

  /** Reading the sealed labels drops the ownership labels and nothing else. */
  lemma SealedKept(l: StringRecord, d: Descriptor)
    requires DistinctKeys(l) && Unreserved(l)
    ensures Kept(Sealed(l, d)) == Kept(l)
    ensures ReservedCount(Sealed(l, d)) == 8
  {
    var s, o := Sealed(l, d), OwnershipLabels(d);
    var free, owned := (f: Field<Text>) => !Reserved(f.key), (f: Field<Text>) => Reserved(f.key);
    OwnershipFacts(d);
    SealedFacts(l, d);
    hide OwnershipLabels, Sealed;
    SortSorts(l);
    SortElements(l);
    FilterSorted(Sort(l), free);
    FilterSorted(s, free);
    SortedUnique(Filter(s, free), Filter(Sort(l), free));
    FilterSorted(s, owned);
    SortSorts(o);
    SortElements(o);
    SortedUnique(Filter(s, owned), Sort(o));
  }

  lemma NothingReserved(l: StringRecord)
    requires LabelsOk(l, false)
    ensures Unreserved(l)
  {
    var owned := (f: Field<Text>) => Reserved(f.key);
    SortElements(l);
    forall f | f in l ensures !Reserved(f.key) {
      assert Filter(Sort(l), owned) == [];
      assert f !in Filter(Sort(l), owned);
    }
  }

  ghost predicate Carries(s: StringRecord, d: Descriptor) {
    && Lookup(s, VERSION) == Some(Ascii("1")) && Lookup(s, ROLE) == Some(Ascii("worker")) &&
      Lookup(s, KIND) == Some(KindName(d.kind))
    && Lookup(s, INSTALLATION) == Some(d.installation) && Lookup(s, OWNER) == Some(d.owner) &&
      Lookup(s, SESSION) == Some(d.session)
    && Lookup(s, OPERATION) == Some(d.operation) && Lookup(s, POLICY) == Some(d.policy)
  }

  lemma SealedCarries(s: StringRecord, d: Descriptor)
    requires DistinctKeys(s) && forall f :: f in OwnershipLabels(d) ==> f in s
    ensures Carries(s, d)
  {
    hide Ascii;
    LookupIn(s, Field(VERSION, Ascii("1")));
    LookupIn(s, Field(INSTALLATION, d.installation));
    LookupIn(s, Field(OWNER, d.owner));
    LookupIn(s, Field(SESSION, d.session));
    LookupIn(s, Field(OPERATION, d.operation));
    LookupIn(s, Field(KIND, KindName(d.kind)));
    LookupIn(s, Field(ROLE, Ascii("worker")));
    LookupIn(s, Field(POLICY, d.policy));
  }

  lemma CarriedIdentity(s: StringRecord, d: Descriptor)
    requires Carries(s, d) && DescriptorOk(d)
    ensures Identity(s) == Some(d.kind)
  {
    KindsDiffer();
    hide Lookup, IsHash, Ascii;
    forall key | key in {INSTALLATION, OWNER, SESSION, OPERATION, POLICY}
      ensures Lookup(s, key).Some? && IsHash(Lookup(s, key).value)
    {}
    match d.kind
    case Whisper =>
    case LeaseBoundDockerBash =>
  }

  lemma NothingReservedIn(e: Expected)
    requires Expect(e).Some?
    ensures Unreserved(OrEmpty(e.config.labels))
  {
    NothingReserved(OrEmpty(e.config.labels));
  }

  /** The identity read from the sealed labels is the descriptor's. */
  lemma SealedIdentity(l: StringRecord, d: Descriptor)
    requires DistinctKeys(l) && Unreserved(l) && DescriptorOk(d)
    ensures Identity(Sealed(l, d)) == Some(d.kind)
  {
    SealedFacts(l, d);
    SealedCarries(Sealed(l, d), d);
    CarriedIdentity(Sealed(l, d), d);
  }

  lemma KindsDiffer()
    ensures KindName(Whisper) != KindName(LeaseBoundDockerBash)
  {
    assert |KindName(Whisper)| == 7 && |KindName(LeaseBoundDockerBash)| == 23;
  }

  lemma OwnershipValues(d: Descriptor)
    requires DescriptorOk(d)
    ensures forall f :: f in OwnershipLabels(d) ==> NoNul(f.value)
  {
    NoNulText("1");
    NoNulText("worker");
    NoNulText("whisper");
    NoNulText("lease-bound-docker-bash");
  }

  lemma NoNulText(s: string)
    requires forall c :: c in s ==> 0 < c as int < 128
    ensures NoNul(Ascii(s))
  {
    forall i | 0 <= i < |s| ensures Ascii(s)[i] != 0 {
      assert s[i] in s;
    }
  }

  /** What a caller can compute before creating: room for eight more labels, and for all of them twice. */
  predicate Fits(e: Expected, d: Descriptor) {
    var l, o := OrEmpty(e.config.labels), OwnershipLabels(d);
    && |l| + 8 <= MAX_ITEMS
    && ExpectedBytes(e) + RecordBytes(l) + 2 * RecordBytes(o) + 10 <= MAX_TEXT_BYTES
  }

  lemma {:induction false} AsciiBytes(t: Text)
    requires forall i :: 0 <= i < |t| ==> t[i] < 0x80
    ensures Bytes(t) == |t|
  {
    if t != [] {
      AsciiBytes(t[1..]);
    }
  }

  lemma FixedBytes()
    ensures Total([Ascii("NONE")]) + Bytes(Ascii("nofile")) == 10
  {
    AsciiBytes(Ascii("NONE"));
    AsciiBytes(Ascii("nofile"));
    assert Total([Ascii("NONE")]) == Bytes(Ascii("NONE"));
  }

  /** The document that comes back for a sealed request. */
  function Document(e: Expected, d: Descriptor): (i: Inspect)
    requires e.config.labels.Some?
  {
    Inspect(e.imageId, e.config.(healthcheck := [Ascii("NONE")], labels := Some(Sealed(e.config.labels.value, d))),
      e.host, e.mounts)
  }

  lemma SealsTo(e: Expected, d: Descriptor)
    requires Expect(e).Some? && e.config.labels.Some? && DistinctKeys(e.config.labels.value)
    ensures SealRequest(Template(e), d).Some?
    ensures Echo(SealRequest(Template(e), d).value, e.imageId) == Document(e, d)
  {
    hide Policy, TextsOk, Ascii, Sort, NoNul, ExpectedBytes, MountsOk, IsImageId, RecordOk, FixedOk, LabelsOk,
      Reserved, NoNulls, OwnershipLabels;
    NothingReserved(e.config.labels.value);
    TemplateHost(e);
    var t, s := Template(e), SealRequest(Template(e), d).value;
    assert t.config.labels == e.config.labels && t.config == e.config.(healthcheck := [Ascii("NONE")]);
    assert s.config == t.config.(labels := Some(Sealed(e.config.labels.value, d)));
  }

  lemma TemplateHost(e: Expected)
    requires HostOk(e.host)
    ensures Template(e).host == e.host
  {
    hide TextsOk, Ascii, RecordOk, NoNul;
  }

  lemma DocumentBytes(e: Expected, d: Descriptor)
    requires e.config.labels.Some? && DistinctKeys(e.config.labels.value) && Unreserved(e.config.labels.value)
    requires e.host.ulimitName == Ascii("nofile")
    ensures InspectBytes(Document(e, d)) ==
      ExpectedBytes(e) + RecordBytes(e.config.labels.value) + 2 * RecordBytes(OwnershipLabels(d)) + 10
  {
    SealedFacts(e.config.labels.value, d);
    FixedBytes();
    hide RecordBytes, Bytes, Total, Sealed, OwnershipLabels;
  }

  lemma DocumentLabels(l: StringRecord, d: Descriptor)
    requires LabelsOk(l, false) && DistinctKeys(l) && DescriptorOk(d)
    ensures LabelsOk(Sealed(l, d), true) <==> |l| + 8 <= MAX_ITEMS
  {
    NothingReserved(l);
    SealedFacts(l, d);
    SealedKept(l, d);
    EightKeys();
    OwnershipValues(d);
    OwnershipFacts(d);
    hide Sealed, OwnershipLabels, ReservedCount, NoNul;
  }

  /**
   * Print and parse: for every accepted projection, the inspect document of the sealed request
   * normalizes to that projection exactly if the labels fit; otherwise it is refused.
   */
  lemma RoundTrip(e: Expected, d: Descriptor)
    requires Expect(e).Some? && e.config.labels.Some? && DistinctKeys(e.config.labels.value)
    requires DescriptorOk(d) && d.kind == e.kind
    ensures SealRequest(Template(e), d).Some?
    ensures Observe(Echo(SealRequest(Template(e), d).value, e.imageId)) == if Fits(e, d) then Expect(e) else None
  {
    var l := e.config.labels.value;
    SealsTo(e, d);
    NothingReserved(l);
    SealedFacts(l, d);
    SealedKept(l, d);
    SealedIdentity(l, d);
    DocumentLabels(l, d);
    DocumentBytes(e, d);
    hide Sealed, Policy, LabelsOk, TextsOk, FixedOk, Identity, Kept, InspectBytes, ExpectedBytes, RecordBytes,
      IsImageId, MountsOk, RecordOk, NoNul, IsRuntime;
    hide SealRequest, Template, Echo;
    var i := Document(e, d);
    assert ConfigOf(i.config) == ConfigOf(e.config);
    assert ConfigOk(i.config, true) <==> |l| + 8 <= MAX_ITEMS;
  }
}
