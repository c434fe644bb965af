/**
 * The inspect normalizer as it runs: one text budget is threaded through every string, array and
 * record, and each of them can exhaust it (packages/app/src/docker-container-selected-projection.ts).
 */
module DockerReader {
  import opened Common
  import opened Texts
  import opened DockerProjection
  import opened DockerRoundTrip

  lemma {:induction false} TotalPrefix(ts: seq<Text>, i: nat)
    requires i < |ts|
    ensures Total(ts[..i + 1]) == Total(ts[..i]) + Bytes(ts[i])
    ensures Total(ts[..i + 1]) <= Total(ts)
  {
    if i == 0 {
      assert ts[..1][1..] == [] && ts[..0] == [];
    } else {
      TotalPrefix(ts[1..], i - 1);
      assert ts[..i + 1][1..] == ts[1..][..i] && ts[..i][1..] == ts[1..][..i - 1];
    }
  }

  lemma {:induction false} RecordPrefix(r: StringRecord, i: nat)
    requires i < |r|
    ensures RecordBytes(r[..i + 1]) == RecordBytes(r[..i]) + Bytes(r[i].key) + Bytes(r[i].value)
    ensures RecordBytes(r[..i + 1]) <= RecordBytes(r)
  {
    if i == 0 {
      assert r[..1][1..] == [] && r[..0] == [];
    } else {
      RecordPrefix(r[1..], i - 1);
      assert r[..i + 1][1..] == r[1..][..i] && r[..i][1..] == r[1..][..i - 1];
    }
  }

  lemma SortOk(r: StringRecord)
    ensures RecordOk(Sort(r)) <==> RecordOk(r)
  {
    SortElements(r);
  }

  class Budget {
    var used: nat

    constructor ()
      ensures used == 0
    {
      used := 0;
    }

    ghost predicate Within()
      reads this
    {
      used <= MAX_TEXT_BYTES
    }

    method Charge(t: Text) returns (ok: bool)
      requires Within()
      modifies this
      ensures Within()
      ensures ok <==> old(used) + Bytes(t) <= MAX_TEXT_BYTES
      ensures used == if ok then old(used) + Bytes(t) else old(used)
    {
      ok := Bytes(t) <= MAX_TEXT_BYTES - used;
      if ok {
        used := used + Bytes(t);
      }
    }

    method ReadText(t: Text) returns (ok: bool)
      requires Within()
      modifies this
      ensures Within()
      ensures ok <==> NoNul(t) && old(used) + Bytes(t) <= MAX_TEXT_BYTES
      ensures ok ==> used == old(used) + Bytes(t)
    {
      if !NoNul(t) {
        return false;
      }
      ok := Charge(t);
    }

    method ReadTexts(ts: seq<Text>) returns (ok: bool)
      requires Within()
      modifies this
      ensures Within()
      ensures ok <==> TextsOk(ts) && old(used) + Total(ts) <= MAX_TEXT_BYTES
      ensures ok ==> used == old(used) + Total(ts)
    {
      if |ts| > MAX_ITEMS {
        return false;
      }
      var i := 0;
      while i < |ts|
        invariant 0 <= i <= |ts| && Within()
        invariant forall k :: 0 <= k < i ==> NoNul(ts[k])
        invariant used == old(used) + Total(ts[..i])
      {
        TotalPrefix(ts, i);
        assert ts[i] in ts;
        ok := ReadText(ts[i]);
        if !ok {
          return;
        }
        i := i + 1;
      }
      assert ts[..i] == ts;
      ok := true;
    }

    /** The loop of `stringMap`: each key is charged before its value. */
    method ChargeFields(r: StringRecord) returns (ok: bool)
      requires Within() && |r| <= MAX_ITEMS
      modifies this
      ensures Within()
      ensures ok <==> RecordOk(r) && old(used) + RecordBytes(r) <= MAX_TEXT_BYTES
      ensures ok ==> used == old(used) + RecordBytes(r)
    {
      hide Bytes, NoNul;
      var i := 0;
      while i < |r|
        invariant 0 <= i <= |r| && Within()
        invariant forall k :: 0 <= k < i ==> NoNul(r[k].value)
        invariant used == old(used) + RecordBytes(r[..i])
      {
        RecordPrefix(r, i);
        assert r[i] in r;
        hide RecordBytes;
        ok := Charge(r[i].key);
        if ok {
          ok := ReadText(r[i].value);
        }
        if !ok {
          return;
        }
        i := i + 1;
      }
      assert r[..i] == r;
      ok := true;
    }

    /** `stringMap`: the entries in sorted order. */
    method ReadRecord(r: StringRecord) returns (ok: bool, sorted: StringRecord)
      requires Within()
      modifies this
      ensures Within() && sorted == Sort(r)
      ensures ok <==> RecordOk(r) && old(used) + RecordBytes(r) <= MAX_TEXT_BYTES
      ensures ok ==> used == old(used) + RecordBytes(r)
    {
      hide RecordBytes, NoNul;
      sorted := Sort(r);
      SortOk(r);
      SortBytes(r);
      hide Sort;
      if |sorted| > MAX_ITEMS {
        return false, sorted;
      }
      ok := ChargeFields(sorted);
    }

    /** The loop of `withoutOwnershipLabels`: counts the ownership labels while it keeps the others. */
    static method SplitLabels(sorted: StringRecord) returns (ok: bool, kept: StringRecord, count: nat)
      ensures ok <==> forall f :: f in sorted && Reserved(f.key) ==> f.key in OWNERSHIP
      ensures ok ==> kept == Filter(sorted, (f: Field<Text>) => !Reserved(f.key))
      ensures ok ==> count == |Filter(sorted, (f: Field<Text>) => Reserved(f.key))|
    {
      hide Reserved, Filter;
      kept, count := [], 0;
      var i := 0;
      var free, reserved := (f: Field<Text>) => !Reserved(f.key), (f: Field<Text>) => Reserved(f.key);
      assert sorted[..0] == [] && Filter(sorted[..0], free) == [] && Filter(sorted[..0], reserved) == [];
      while i < |sorted|
        invariant 0 <= i <= |sorted|
        invariant kept == Filter(sorted[..i], free) && count == |Filter(sorted[..i], reserved)|
        invariant forall k :: 0 <= k < i && Reserved(sorted[k].key) ==> sorted[k].key in OWNERSHIP
      {
        var f := sorted[i];
        assert f in sorted;
        FilterPrefix(sorted, i, free);
        FilterPrefix(sorted, i, reserved);
        if Reserved(f.key) {
          if f.key !in OWNERSHIP {
            return false, kept, count;
          }
          count := count + 1;
        } else {
          kept := kept + [f];
        }
        i := i + 1;
      }
      assert sorted[..i] == sorted;
      ok := true;
    }

    method ReadLabels(r: StringRecord, owned: bool) returns (ok: bool, kept: StringRecord)
      requires Within()
      modifies this
      ensures Within() && (ok ==> kept == Kept(r))
      ensures ok <==> LabelsOk(r, owned) && old(used) + RecordBytes(r) <= MAX_TEXT_BYTES
      ensures ok ==> used == old(used) + RecordBytes(r)
    {
      hide Reserved, RecordBytes, RecordOk;
      SortElements(r);
      var sorted;
      ok, sorted := ReadRecord(r);
      kept := [];
      if ok {
        var count;
        ok, kept, count := SplitLabels(sorted);
        ok := ok && count == if owned then |OWNERSHIP| else 0;
      }
    }

    /** `normalizeConfig` with ownership labels required. */
    method ReadConfig(c: RawConfig) returns (ok: bool, kept: StringRecord)
      requires Within()
      modifies this
      ensures Within() && (ok ==> kept == Kept(OrEmpty(c.labels)))
      ensures ok <==> ConfigOk(c, true) && c.healthcheck == [Ascii("NONE")] &&
                      old(used) + ConfigBytes(c) + Total(c.healthcheck) <= MAX_TEXT_BYTES
      ensures ok ==> used == old(used) + ConfigBytes(c) + Total(c.healthcheck)
    {
      hide Bytes, Total, RecordBytes, LabelsOk, NoNul, Kept, Ascii;
      kept := [];
      ok := ReadText(c.image);
      if ok { ok := ReadText(c.user); }
      if ok { ok := ReadTexts(OrEmpty(c.env)); }
      if ok { ok := ReadTexts(OrEmpty(c.entrypoint)); }
      if ok { ok := ReadTexts(OrEmpty(c.cmd)); }
      if ok { ok := ReadText(c.workingDir); }
      if ok { ok, kept := ReadLabels(OrEmpty(c.labels), true); }
      if ok { ok := ReadTexts(c.healthcheck); }
      if ok { ok := c.healthcheck == [Ascii("NONE")]; }
      if ok { ok := ReadText(c.stopSignal); }
      NoneIsText();
    }

    /** `normalizeHostConfig`. */
    method ReadHost(h: RawHost) returns (ok: bool)
      requires Within()
      modifies this
      ensures Within()
      ensures ok <==> HostOk(h) && old(used) + HostBytes(h) + Bytes(h.ulimitName) <= MAX_TEXT_BYTES
      ensures ok ==> used == old(used) + HostBytes(h) + Bytes(h.ulimitName)
    {
      hide Bytes, Total, RecordBytes, NoNul, Ascii, FixedOk, RecordOk;
      ok := FixedOk(h.fixed) && h.memorySwap == h.memory;
      if ok {
        FixedIsText(h.fixed);
        ok := ReadTexts(FixedTexts(h.fixed));
      }
      ok := ok && h.pidsLimit >= 1 && h.memory >= 1 && h.nanoCpus >= 1;
      if ok { ok := ReadText(h.runtime); }
      var sorted;
      if ok { ok, sorted := ReadRecord(OrEmpty(h.logConfig)); }
      if ok { ok, sorted := ReadRecord(OrEmpty(h.tmpfs)); }
      NofileIsText();
      if ok { ok := ReadText(h.ulimitName); }
      ok := ok && h.ulimitName == Ascii("nofile") && h.soft >= 1 && h.hard >= 1 && h.shmSize >= 1;
    }

    method ReadMounts(ms: seq<Mount>) returns (ok: bool)
      requires Within()
      modifies this
      ensures Within()
      ensures ok <==> MountsOk(ms) && old(used) + MountBytes(ms) <= MAX_TEXT_BYTES
    {
      hide Bytes, NoNul;
      if |ms| > 1 {
        return false;
      }
      if |ms| == 0 {
        return true;
      }
      assert ms == [ms[0]] && ms[1..] == [];
      ok := ReadText(ms[0].source);
      ok := ok && |ms[0].source| > 1 && ms[0].source[0] == 0x2F;
    }
  }

  lemma NoneIsText()
    ensures TextsOk([Ascii("NONE")])
  {
    NoNulText("NONE");
  }

  lemma NofileIsText()
    ensures NoNul(Ascii("nofile"))
  {
    NoNulText("nofile");
  }

  lemma FixedIsText(h: FixedHost)
    requires FixedOk(h)
    ensures TextsOk(FixedTexts(h))
  {
    hide FixedOk, Ascii, NoNul;
    NoNulText("ALL");
    NoNulText("no-new-privileges=true");
    NoNulText("seccomp=builtin");
    FixedParts(h);
    FixedCounts(h);
    var a, b, c := h.capAdd + h.capDrop, h.capAdd + h.capDrop + h.securityOpt,
      h.capAdd + h.capDrop + h.securityOpt + h.maskedPaths;
    AllTextAppend(h.capAdd, h.capDrop);
    AllTextAppend(a, h.securityOpt);
    AllTextAppend(b, h.maskedPaths);
    AllTextAppend(c, h.readonlyPaths);
  }

  lemma FixedParts(h: FixedHost)
    requires FixedOk(h)
    ensures h.capAdd == [] && h.capDrop == [Ascii("ALL")]
    ensures h.securityOpt == [Ascii("no-new-privileges=true"), Ascii("seccomp=builtin")]
    ensures AllText(h.maskedPaths) && AllText(h.readonlyPaths)
  {
    hide Ascii, NoNul;
  }

  ghost predicate AllText(ts: seq<Text>) { forall t :: t in ts ==> NoNul(t) }

  lemma AllTextAppend(a: seq<Text>, b: seq<Text>)
    requires AllText(a) && AllText(b)
    ensures AllText(a + b)
  {}

  lemma FixedCounts(h: FixedHost)
    requires FixedOk(h)
    ensures |h.maskedPaths| == 12 && |h.readonlyPaths| == 5
  {
    assert |multiset(h.maskedPaths)| == 12 && |multiset(h.readonlyPaths)| == 5;
  }

  /** The normalizer, step by step over one budget, reads exactly what `Observe` says. */
  method NormalizeInspect(d: Inspect) returns (r: Option<Projection>)
    ensures r == Observe(d)
  {
    hide Policy, Identity, ConfigOk, HostOk, MountsOk, IsImageId, RecordBytes, ConfigBytes, HostBytes, Bytes, Total,
      MountBytes, Kept, HostOf, Ascii;
    if !IsImageId(d.image) {
      return None;
    }
    var budget := new Budget();
    var ok, labels := budget.ReadRecord(OrEmpty(d.config.labels));
    if !ok {
      LabelsMatter(d);
      return None;
    }
    var kind := Identity(labels);
    if kind.None? {
      return None;
    }
    var kept;
    ok, kept := budget.ReadConfig(d.config);
    if ok { ok := budget.ReadHost(d.host); }
    if ok { ok := budget.ReadMounts(d.mounts); }
    if !ok {
      return None;
    }
    var c := d.config;
    var p := Projection(kind.value, d.image,
                        Config(c.image, c.user, OrEmpty(c.env), OrEmpty(c.entrypoint), OrEmpty(c.cmd), c.workingDir,
                               c.openStdin, c.stdinOnce, c.tty, kept, c.stopSignal),
                        HostOf(d.host), d.mounts);
    r := if Policy(p) then Some(p) else None;
  }

  lemma LabelsMatter(d: Inspect)
    ensures ConfigOk(d.config, true) ==> RecordOk(OrEmpty(d.config.labels))
  {}
}
