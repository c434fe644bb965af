/**
 * The projection hash: the canonical encoding of the whole normalized projection. An inspect
 * document matches a plan exactly if it normalizes to the plan's projection.
 */
module DockerHash {
  import opened Common
  import opened Texts
  import opened Canonical
  import opened DockerProjection
  import RoundTrips = DockerRoundTrip

  function F(key: string, value: Value): (f: Field<Value>) { Field(Ascii(key), value) }
  function S(s: string): (v: Value) { Str(Ascii(s)) }

  function Strs(ts: seq<Text>): (r: seq<Value>)
    ensures |r| == |ts| && forall i :: 0 <= i < |r| ==> r[i] == Str(ts[i])
  {
    seq(|ts|, i requires 0 <= i < |ts| => Str(ts[i]))
  }

  function Entries(r: StringRecord): (fs: seq<Field<Value>>)
    ensures |fs| == |r| && forall i :: 0 <= i < |r| ==> fs[i] == Field(r[i].key, Str(r[i].value))
  {
    seq(|r|, i requires 0 <= i < |r| => Field(r[i].key, Str(r[i].value)))
  }

  function ConfigFields(c: Config): (fs: seq<Field<Value>>) {
    [F("image", Str(c.image)), F("user", Str(c.user)), F("env", Arr(Strs(c.env))),
     F("entrypoint", Arr(Strs(c.entrypoint))), F("cmd", Arr(Strs(c.cmd))), F("workingDir", Str(c.workingDir)),
     F("openStdin", Bool(c.openStdin)), F("stdinOnce", Bool(c.stdinOnce)), F("tty", Bool(c.tty)),
     F("labels", Rec(Entries(c.labels))), F("healthcheckDisabled", Bool(true)), F("stopSignal", Str(c.stopSignal))]
  }

  function UlimitFields(h: Host): (fs: seq<Field<Value>>) {
    [F("name", S("nofile")), F("soft", Int(h.soft)), F("hard", Int(h.hard))]
  }

  function LogFields(h: Host): (fs: seq<Field<Value>>) {
    [F("type", S(if h.logType == LogLocal then "local" else "none")), F("config", Rec(Entries(h.logConfig)))]
  }

  function HostFields(h: Host): (fs: seq<Field<Value>>) {
    [F("pidsLimit", Int(h.pidsLimit)), F("memory", Int(h.memory)), F("memorySwap", Int(h.memory)),
     F("nanoCpus", Int(h.nanoCpus)), F("runtime", Str(h.runtime)), F("logConfig", Rec(LogFields(h))),
     F("tmpfs", Rec(Entries(h.tmpfs))), F("ulimits", Arr([Rec(UlimitFields(h))])), F("shmSize", Int(h.shmSize))] +
       FixedFields()
  }

  /** The members with one legal value; the paths have been sorted. */
  function FixedFields(): (fs: seq<Field<Value>>) {
    [F("networkMode", S("none")), F("readonlyRootfs", Bool(true)), F("privileged", Bool(false)),
     F("capAdd", Arr([])), F("capDrop", Arr([S("ALL")])),
     F("securityOpt", Arr([S("no-new-privileges=true"), S("seccomp=builtin")])), F("groupAdd", Arr([])),
     F("sysctls", Rec([])), F("maskedPaths", Arr(Strs(MASKED))), F("readonlyPaths", Arr(Strs(READONLY))),
     F("ipcMode", S("none")), F("pidMode", S("")), F("utsMode", S("")), F("cgroupnsMode", S("private")),
     F("usernsMode", S("")), F("restartPolicy", Rec([F("name", S("no")), F("maximumRetryCount", Int(0))])),
     F("autoRemove", Bool(false)), F("devices", Arr([])), F("deviceRequests", Arr([])), F("portBindings", Rec([])),
     F("publishAllPorts", Bool(false)), F("oomKillDisable", Bool(false)), F("oomScoreAdj", Int(0)),
       F("init", Bool(false))]
  }

  function MountFields(m: Mount): (fs: seq<Field<Value>>) {
    [F("type", S("bind")), F("source", Str(m.source)),
      F("destination", S(if m.destination == Input then "/input" else "/work")),
     F("readOnly", Bool(m.readOnly)), F("propagation", S("rprivate"))]
  }

  function MountValues(ms: seq<Mount>): (vs: seq<Value>)
    ensures |vs| == |ms| && forall i :: 0 <= i < |ms| ==> vs[i] == Rec(MountFields(ms[i]))
  {
    seq(|ms|, i requires 0 <= i < |ms| => Rec(MountFields(ms[i])))
  }

  function ProjectionFields(p: Projection): (fs: seq<Field<Value>>) {
    [F("version", Int(2)), F("resourceKind", S("container")), F("sidecarKind", Str(KindName(p.kind))),
      F("role", S("worker")),
     F("imageId", Str(p.imageId)), F("config", Rec(ConfigFields(p.config))), F("hostConfig", Rec(HostFields(p.host))),
     F("mounts", Arr(MountValues(p.mounts)))]
  }

  /** The text that is hashed; the digest is injective in it. */
  function HashInput(p: Projection): (t: Text) { Encode(Rec(ProjectionFields(p))) }

  /** Records of a normalized projection have their keys sorted. */
  ghost predicate Normalized(p: Projection) {
    Sorted(p.config.labels) && Sorted(p.host.logConfig) && Sorted(p.host.tmpfs)
  }

  // ---- every part is determined by its encoding ------------------------------------------------------------------

  lemma {:induction false} NormalItemAt(items: seq<Value>, i: nat)
    requires i < |items|
    ensures NormalItems(items)[i] == Normal(items[i])
  {
    if i > 0 {
      NormalItemAt(items[1..], i - 1);
    }
  }

  lemma StrsDetermined(a: seq<Text>, b: seq<Text>)
    requires Normal(Arr(Strs(a))) == Normal(Arr(Strs(b)))
    ensures a == b
  {
    var x, y := Strs(a), Strs(b);
    assert NormalItems(x) == NormalItems(y);
    forall i | 0 <= i < |a| ensures a[i] == b[i] {
      NormalItemAt(x, i);
      NormalItemAt(y, i);
    }
  }

  /** A sorted record is printed as it is. */
  lemma EntriesNormal(r: StringRecord)
    requires Sorted(r)
    ensures Normal(Rec(Entries(r))) == Rec(Entries(r))
  {
    var fs := Entries(r);
    forall i | 0 <= i < |fs| ensures NormalFields(fs)[i] == fs[i] {
      NormalFieldAt(fs, i);
    }
    assert NormalFields(fs) == fs;
    assert Sorted(fs);
    SortOfSorted(fs);
  }

  lemma SortOfSorted<V>(fs: seq<Field<V>>)
    requires Sorted(fs)
    ensures Sort(fs) == fs
  {
    forall i, j | 0 <= i < j < |fs| ensures fs[i].key != fs[j].key {
      LessIrreflexive(fs[i].key);
    }
    SortSorts(fs);
    SortKeeps(fs);
    forall x ensures x in Sort(fs) <==> x in fs {
      SameElement(Sort(fs), fs, x);
    }
    SortedUnique(Sort(fs), fs);
  }

  lemma EntriesDetermined(a: StringRecord, b: StringRecord)
    requires Sorted(a) && Sorted(b) && Normal(Rec(Entries(a))) == Normal(Rec(Entries(b)))
    ensures a == b
  {
    EntriesNormal(a);
    EntriesNormal(b);
    var x, y := Entries(a), Entries(b);
    assert x == y;
    forall i | 0 <= i < |a| ensures a[i] == b[i] {
      assert x[i] == y[i];
    }
  }

  lemma StrDetermined(a: Text, b: Text)
    requires Normal(Str(a)) == Normal(Str(b))
    ensures a == b
  {}

  lemma BoolDetermined(a: bool, b: bool)
    requires Normal(Bool(a)) == Normal(Bool(b))
    ensures a == b
  {}

  lemma FieldDetermined(a: seq<Field<Value>>, b: seq<Field<Value>>, i: nat)
    requires SameKeys(a, b) && Normal(Rec(a)) == Normal(Rec(b)) && i < |a|
    ensures Normal(a[i].value) == Normal(b[i].value)
  {
    FieldsDetermined(a, b);
  }

  lemma ConfigKeys(a: Config, b: Config)
    ensures |ConfigFields(a)| == 12 && SameKeys(ConfigFields(a), ConfigFields(b))
  {
    hide Ascii;
  }

  lemma ConfigTexts(a: Config, b: Config)
    requires Normal(Rec(ConfigFields(a))) == Normal(Rec(ConfigFields(b)))
    ensures a.image == b.image && a.user == b.user && a.workingDir == b.workingDir && a.stopSignal == b.stopSignal
  {
    hide Ascii, Normal;
    var x, y := ConfigFields(a), ConfigFields(b);
    ConfigKeys(a, b);
    FieldDetermined(x, y, 0);
    StrDetermined(a.image, b.image);
    FieldDetermined(x, y, 1);
    StrDetermined(a.user, b.user);
    FieldDetermined(x, y, 5);
    StrDetermined(a.workingDir, b.workingDir);
    FieldDetermined(x, y, 11);
    StrDetermined(a.stopSignal, b.stopSignal);
  }

  lemma ConfigFlags(a: Config, b: Config)
    requires Normal(Rec(ConfigFields(a))) == Normal(Rec(ConfigFields(b)))
    ensures a.openStdin == b.openStdin && a.stdinOnce == b.stdinOnce && a.tty == b.tty
  {
    hide Ascii, Normal;
    var x, y := ConfigFields(a), ConfigFields(b);
    ConfigKeys(a, b);
    FieldDetermined(x, y, 6);
    BoolDetermined(a.openStdin, b.openStdin);
    FieldDetermined(x, y, 7);
    BoolDetermined(a.stdinOnce, b.stdinOnce);
    FieldDetermined(x, y, 8);
    BoolDetermined(a.tty, b.tty);
  }

  lemma ConfigLists(a: Config, b: Config)
    requires Normal(Rec(ConfigFields(a))) == Normal(Rec(ConfigFields(b)))
    ensures a.env == b.env && a.entrypoint == b.entrypoint && a.cmd == b.cmd
  {
    hide Ascii, Normal, Strs;
    var x, y := ConfigFields(a), ConfigFields(b);
    ConfigKeys(a, b);
    FieldDetermined(x, y, 2);
    StrsDetermined(a.env, b.env);
    FieldDetermined(x, y, 3);
    StrsDetermined(a.entrypoint, b.entrypoint);
    FieldDetermined(x, y, 4);
    StrsDetermined(a.cmd, b.cmd);
  }

  lemma ConfigLabels(a: Config, b: Config)
    requires Sorted(a.labels) && Sorted(b.labels) && Normal(Rec(ConfigFields(a))) == Normal(Rec(ConfigFields(b)))
    ensures a.labels == b.labels
  {
    hide Ascii, Normal, Entries, Sorted;
    ConfigKeys(a, b);
    FieldDetermined(ConfigFields(a), ConfigFields(b), 9);
    EntriesDetermined(a.labels, b.labels);
  }

  lemma ConfigDetermined(a: Config, b: Config)
    requires Sorted(a.labels) && Sorted(b.labels) && Normal(Rec(ConfigFields(a))) == Normal(Rec(ConfigFields(b)))
    ensures a == b
  {
    hide Normal, ConfigFields, Sorted;
    ConfigTexts(a, b);
    ConfigFlags(a, b);
    ConfigLists(a, b);
    ConfigLabels(a, b);
  }

  lemma LogDetermined(a: Host, b: Host)
    requires Sorted(a.logConfig) && Sorted(b.logConfig) && Normal(Rec(LogFields(a))) == Normal(Rec(LogFields(b)))
    ensures a.logType == b.logType && a.logConfig == b.logConfig
  {
    var x, y := LogFields(a), LogFields(b);
    FieldsDetermined(x, y);
    assert x[0].value == y[0].value;
    assert |Ascii("local")| != |Ascii("none")|;
    hide Ascii, NormalItems, NormalFields, Sort, Entries;
    assert Normal(x[1].value) == Normal(y[1].value);
    EntriesDetermined(a.logConfig, b.logConfig);
  }

  lemma UlimitsDetermined(a: Host, b: Host)
    requires Normal(Arr([Rec(UlimitFields(a))])) == Normal(Arr([Rec(UlimitFields(b))]))
    ensures a.soft == b.soft && a.hard == b.hard
  {
    hide Ascii, NormalFields, Sort;
    var x, y := UlimitFields(a), UlimitFields(b);
    NormalItemAt([Rec(x)], 0);
    NormalItemAt([Rec(y)], 0);
    FieldsDetermined(x, y);
    assert x[1].value == Int(a.soft) && y[1].value == Int(b.soft) && x[2].value == Int(a.hard) &&
      y[2].value == Int(b.hard);
  }

  lemma HostDetermined(a: Host, b: Host)
    requires Sorted(a.logConfig) && Sorted(b.logConfig) && Sorted(a.tmpfs) && Sorted(b.tmpfs)
    requires Normal(Rec(HostFields(a))) == Normal(Rec(HostFields(b)))
    ensures a == b
  {
    hide Ascii, NormalItems, NormalFields, Sort, Entries, FixedFields, LogFields, UlimitFields;
    var x, y := HostFields(a), HostFields(b);
    FieldsDetermined(x, y);
    assert x[0].value == Int(a.pidsLimit) && y[0].value == Int(b.pidsLimit) && x[1].value == Int(a.memory) &&
      y[1].value == Int(b.memory);
    assert x[3].value == Int(a.nanoCpus) && y[3].value == Int(b.nanoCpus) && x[4].value == Str(a.runtime) &&
      y[4].value == Str(b.runtime);
    assert x[8].value == Int(a.shmSize) && y[8].value == Int(b.shmSize);
    assert Normal(x[5].value) == Normal(y[5].value);
    LogDetermined(a, b);
    assert Normal(x[6].value) == Normal(y[6].value);
    EntriesDetermined(a.tmpfs, b.tmpfs);
    assert Normal(x[7].value) == Normal(y[7].value);
    UlimitsDetermined(a, b);
  }

  lemma MountDetermined(a: Mount, b: Mount)
    requires Normal(Rec(MountFields(a))) == Normal(Rec(MountFields(b)))
    ensures a == b
  {
    assert |Ascii("/input")| != |Ascii("/work")|;
    hide Ascii, Normal;
    var x, y := MountFields(a), MountFields(b);
    FieldDetermined(x, y, 1);
    StrDetermined(a.source, b.source);
    FieldDetermined(x, y, 2);
    StrDetermined(x[2].value.s, y[2].value.s);
    FieldDetermined(x, y, 3);
    BoolDetermined(a.readOnly, b.readOnly);
  }

  lemma MountsDetermined(a: seq<Mount>, b: seq<Mount>)
    requires Normal(Arr(MountValues(a))) == Normal(Arr(MountValues(b)))
    ensures a == b
  {
    hide MountFields;
    var x, y := MountValues(a), MountValues(b);
    assert NormalItems(x) == NormalItems(y);
    forall i | 0 <= i < |a| ensures a[i] == b[i] {
      NormalItemAt(x, i);
      NormalItemAt(y, i);
      MountDetermined(a[i], b[i]);
    }
  }

  /** Equal hash inputs mean equal projections, and conversely. */
  lemma HashExact(p: Projection, q: Projection)
    requires Normalized(p) && Normalized(q)
    ensures HashInput(p) == HashInput(q) <==> p == q
  {
    if HashInput(p) == HashInput(q) {
      hide Ascii, Normal, ConfigFields, HostFields, MountValues, KindName;
      var x, y := ProjectionFields(p), ProjectionFields(q);
      EncodeExact(Rec(x), Rec(y));
      hide Encode;
      hide ProjectionFields, Sorted;
      HeadDetermined(p, q);
      PartsDetermined(p, q);
      ConfigDetermined(p.config, q.config);
      HostDetermined(p.host, q.host);
      MountsDetermined(p.mounts, q.mounts);
    }
  }

  lemma PartsDetermined(p: Projection, q: Projection)
    requires Normal(Rec(ProjectionFields(p))) == Normal(Rec(ProjectionFields(q)))
    ensures Normal(Rec(ConfigFields(p.config))) == Normal(Rec(ConfigFields(q.config)))
    ensures Normal(Rec(HostFields(p.host))) == Normal(Rec(HostFields(q.host)))
    ensures Normal(Arr(MountValues(p.mounts))) == Normal(Arr(MountValues(q.mounts)))
  {
    hide Ascii, Normal, ConfigFields, HostFields, MountValues, KindName;
    var x, y := ProjectionFields(p), ProjectionFields(q);
    FieldDetermined(x, y, 5);
    FieldDetermined(x, y, 6);
    FieldDetermined(x, y, 7);
  }

  lemma HeadDetermined(p: Projection, q: Projection)
    requires Normal(Rec(ProjectionFields(p))) == Normal(Rec(ProjectionFields(q)))
    ensures p.kind == q.kind && p.imageId == q.imageId
  {
    hide Ascii, Normal, ConfigFields, HostFields, MountValues, KindName;
    var x, y := ProjectionFields(p), ProjectionFields(q);
    FieldDetermined(x, y, 2);
    StrDetermined(KindName(p.kind), KindName(q.kind));
    KindsInjective(p.kind, q.kind);
    FieldDetermined(x, y, 4);
    StrDetermined(p.imageId, q.imageId);
  }

  lemma KindsInjective(k: SidecarKind, l: SidecarKind)
    requires KindName(k) == KindName(l)
    ensures k == l
  {
    assert |KindName(Whisper)| == 7 && |KindName(LeaseBoundDockerBash)| == 23;
  }

  /** No record has a key twice. */
  ghost predicate ProperRecords(c: RawConfig, h: RawHost) {
    DistinctKeys(OrEmpty(c.labels)) && DistinctKeys(OrEmpty(h.logConfig)) && DistinctKeys(OrEmpty(h.tmpfs))
  }

  /** What is read from an expected value or from an inspect document is normalized. */
  lemma ReadingsNormalized(c: RawConfig, h: RawHost)
    requires ProperRecords(c, h)
    ensures Sorted(ConfigOf(c).labels) && Sorted(HostOf(h).logConfig) && Sorted(HostOf(h).tmpfs)
  {
    SortSorts(OrEmpty(c.labels));
    SortSorts(OrEmpty(h.logConfig));
    SortSorts(OrEmpty(h.tmpfs));
    RoundTrips.FilterSorted(Sort(OrEmpty(c.labels)), (f: Field<Text>) => !Reserved(f.key));
  }

  const MAX_CANONICAL_BYTES := 1024 * 1024

  /** `hashProjection`; the canonical text is limited. */
  function HashOf(p: Option<Projection>): (h: Option<Text>) {
    if p.None? || Bytes(HashInput(p.value)) > MAX_CANONICAL_BYTES then None else Some(HashInput(p.value))
  }

  /** `...SelectedProjectionMatchesInspect`: same kind, same image, same hash. */
  predicate Matches(e: Expected, i: Inspect) {
    && HashOf(Expect(e)).Some? && HashOf(Observe(i)).Some?
    && Observe(i).value.kind == e.kind && Observe(i).value.imageId == e.imageId
    && HashOf(Observe(i)) == HashOf(Expect(e))
  }

  /** A document matches a plan exactly if it normalizes to the plan's projection. */
  lemma MatchExact(e: Expected, i: Inspect)
    requires ProperRecords(e.config, e.host) && ProperRecords(i.config, i.host)
    requires HashOf(Expect(e)).Some?
    ensures Matches(e, i) <==> Observe(i) == Expect(e)
  {
    ReadingsNormalized(e.config, e.host);
    ReadingsNormalized(i.config, i.host);
    ExpectShape(e);
    ObserveShape(i);
    hide Expect, Observe, HashInput, ConfigOf, HostOf;
    if Observe(i).Some? {
      HashExact(Observe(i).value, Expect(e).value);
    }
  }

  lemma ExpectShape(e: Expected)
    ensures Expect(e).Some? ==>
      Expect(e).value == Projection(e.kind, e.imageId, ConfigOf(e.config), HostOf(e.host), e.mounts)
  {
    hide Policy, ConfigOk, HostOk, MountsOk, ExpectedBytes, ConfigOf, HostOf;
  }

  lemma ObserveShape(i: Inspect)
    ensures Observe(i).Some? ==>
      Observe(i).value == Projection(Observe(i).value.kind, i.image, ConfigOf(i.config), HostOf(i.host), i.mounts)
  {
    hide Policy, ConfigOk, HostOk, MountsOk, InspectBytes, ConfigOf, HostOf, Identity;
  }

  /** End to end: a created container matches its own plan exactly if its labels fit. */
  lemma CreatedMatchesPlan(e: Expected, d: Descriptor)
    requires ProperRecords(e.config, e.host) && e.config.labels.Some? && HashOf(Expect(e)).Some?
    requires DescriptorOk(d) && d.kind == e.kind
    ensures SealRequest(Template(e), d).Some?
    ensures Matches(e, Echo(SealRequest(Template(e), d).value, e.imageId)) <==> RoundTrips.Fits(e, d)
  {
    RoundTrips.RoundTrip(e, d);
    hide Matches, Expect, Observe, HashInput;
    RoundTrips.NothingReservedIn(e);
    RoundTrips.SealsTo(e, d);
    RoundTrips.SealedFacts(e.config.labels.value, d);
    hide Template, SealRequest, Echo;
    MatchExact(e, RoundTrips.Document(e, d));
  }
}
