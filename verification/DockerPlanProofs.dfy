/**
 * Every plan that the code can make is recognized when its container is inspected: the limits on its
 * inputs leave room for the ownership labels and for charging all labels twice.
 */
module DockerPlanProofs {
  import opened Common
  import opened Texts
  import Canonical
  import opened DockerProjection
  import opened DockerRoundTrip
  import opened DockerHash
  import opened DockerPlan

  // ---- the environment ------------------------------------------------------------------------------------------

  lemma {:induction false} BytesAround(a: Text, u: CodeUnit, b: Text)
    requires u < 0x80
    ensures Bytes(a + [u] + b) == Bytes(a) + 1 + Bytes(b)
    decreases |a|
  {
    var t := a + [u] + b;
    if a == [] {
      assert t[1..] == b;
    } else if Canonical.PairAt(a) {
      assert t[2..] == a[2..] + [u] + b;
      BytesAround(a[2..], u, b);
    } else {
      assert !Canonical.PairAt(t);
      assert t[1..] == a[1..] + [u] + b;
      BytesAround(a[1..], u, b);
    }
  }

  lemma {:induction false} JoinBytes(r: StringRecord)
    ensures Total(JoinAll(r)) == RecordBytes(r) + |r|
  {
    if r != [] {
      assert JoinAll(r)[1..] == JoinAll(r[1..]);
      BytesAround(r[0].key, 0x3D, r[0].value);
      JoinBytes(r[1..]);
    }
  }

  /** Splitting at the first `=` loses nothing. */
  lemma SplitJoins(t: Text)
    requires NameLength(t) < |t|
    ensures Join(Split(t)) == t
  {
    hide NameLength;
    var n := NameLength(t);
    CutAt(t, n);
    var f := Split(t);
    assert f.key == t[..n] && f.value == t[n + 1..];
  }

  lemma CutAt(t: Text, n: nat)
    requires n < |t|
    ensures t[..n] + [t[n]] + t[n + 1..] == t
  {
    var r := t[..n] + [t[n]] + t[n + 1..];
    forall i | 0 <= i < |t| ensures r[i] == t[i] {
      if i > n {
        assert r[i] == t[n + 1..][i - n - 1];
      }
    }
  }

  lemma SplitAllJoins(env: seq<Text>)
    requires forall t :: t in env ==> NameLength(t) < |t|
    ensures JoinAll(SplitAll(env)) == env
  {
    forall i | 0 <= i < |env| ensures JoinAll(SplitAll(env))[i] == env[i] {
      SplitJoins(env[i]);
    }
  }

  lemma {:induction false} PutBytes(r: StringRecord, f: Field<Text>)
    ensures RecordBytes(Put(r, f)) <= RecordBytes(r) + Bytes(f.key) + Bytes(f.value) && |Put(r, f)| <= |r| + 1
  {
    if r == [] {
      assert Put(r, f)[1..] == [];
    } else if r[0].key == f.key {
      assert Put(r, f)[1..] == r[1..];
    } else {
      assert Put(r, f)[1..] == Put(r[1..], f);
      PutBytes(r[1..], f);
    }
  }

  lemma {:induction false} PutAllBytes(r: StringRecord, fs: StringRecord)
    ensures RecordBytes(PutAll(r, fs)) <= RecordBytes(r) + RecordBytes(fs) && |PutAll(r, fs)| <= |r| + |fs|
    decreases |fs|
  {
    if fs != [] {
      PutBytes(r, fs[0]);
      PutAllBytes(Put(r, fs[0]), fs[1..]);
    }
  }

  lemma EnvironmentBytes(env: seq<Text>, overrides: StringRecord)
    requires forall t :: t in env ==> NameLength(t) < |t|
    ensures Total(Environment(env, overrides)) <= Total(env) + RecordBytes(overrides) + |overrides|
    ensures |Environment(env, overrides)| <= |env| + |overrides|
  {
    var s, r := SplitAll(env), Resolved(env, overrides);
    SplitAllJoins(env);
    JoinBytes(s);
    PutAllBytes([], s);
    PutAllBytes(PutAll([], s), overrides);
    SortBytes(r);
    JoinBytes(Sort(r));
    hide Bytes, Sort, PutAll, JoinAll;
  }

  lemma {:induction false} PutFinds(r: StringRecord, f: Field<Text>, key: Text)
    ensures Lookup(Put(r, f), key) == if key == f.key then Some(f.value) else Lookup(r, key)
  {
    if r == [] {
      assert Put(r, f)[1..] == [];
    } else if r[0].key == f.key {
      assert Put(r, f)[1..] == r[1..];
    } else {
      assert Put(r, f)[1..] == Put(r[1..], f);
      PutFinds(r[1..], f, key);
    }
  }

  lemma {:induction false} LookupNone(r: StringRecord, key: Text)
    ensures Lookup(r, key).None? <==> forall f :: f in r ==> f.key != key
  {
    if r != [] {
      LookupNone(r[1..], key);
      assert r == [r[0]] + r[1..];
    }
  }

  lemma {:induction false} PutAllFinds(r: StringRecord, fs: StringRecord, key: Text)
    requires DistinctKeys(fs)
    ensures Lookup(PutAll(r, fs), key) == if Lookup(fs, key).Some? then Lookup(fs, key) else Lookup(r, key)
    decreases |fs|
  {
    if fs != [] {
      PutFinds(r, fs[0], key);
      PutAllFinds(Put(r, fs[0]), fs[1..], key);
      LookupNone(fs[1..], fs[0].key);
    }
  }

  /** Each name has the value of the override, if there is one, and otherwise that of the image. */
  lemma OverridesWin(env: seq<Text>, overrides: StringRecord, name: Text)
    requires DistinctKeys(SplitAll(env)) && DistinctKeys(overrides)
    ensures Lookup(Resolved(env, overrides), name) ==
      if Lookup(overrides, name).Some? then Lookup(overrides, name) else Lookup(SplitAll(env), name)
  {
    PutAllFinds([], SplitAll(env), name);
    PutAllFinds(PutAll([], SplitAll(env)), overrides, name);
  }

  // ---- fixed texts ------------------------------------------------------------------------------------------------

  lemma {:induction false} BytesBound(t: Text)
    ensures Bytes(t) <= 3 * |t|
    decreases |t|
  {
    if t != [] {
      BytesBound(t[1..]);
      if |t| >= 2 {
        BytesBound(t[2..]);
      }
    }
  }

  predicate Short(t: Text) { |t| <= 64 && NoNul(t) }

  lemma ShortText(s: string)
    requires |s| <= 64 && forall c :: c in s ==> 0 < c as int < 128
    ensures Short(Ascii(s)) && Bytes(Ascii(s)) <= 192
  {
    NoNulText(s);
    BytesBound(Ascii(s));
  }

  lemma {:induction false} ShortTotal(ts: seq<Text>)
    requires forall t :: t in ts ==> Short(t)
    ensures Total(ts) <= 192 * |ts|
  {
    if ts != [] {
      assert Short(ts[0]);
      BytesBound(ts[0]);
      ShortTotal(ts[1..]);
    }
  }

  lemma MaskedOne()
    ensures Short(Ascii("/proc/acpi")) && Short(Ascii("/proc/asound")) && Short(Ascii("/proc/interrupts")) &&
      Short(Ascii("/proc/kcore"))
  {
    hide Ascii, Short;
    ShortText("/proc/acpi");
    ShortText("/proc/asound");
    ShortText("/proc/interrupts");
    ShortText("/proc/kcore");
  }

  lemma MaskedTwo()
    ensures Short(Ascii("/proc/keys")) && Short(Ascii("/proc/latency_stats")) && Short(Ascii("/proc/sched_debug")) &&
      Short(Ascii("/proc/scsi"))
  {
    hide Ascii, Short;
    ShortText("/proc/keys");
    ShortText("/proc/latency_stats");
    ShortText("/proc/sched_debug");
    ShortText("/proc/scsi");
  }

  lemma MaskedThree()
    ensures Short(Ascii("/proc/timer_list")) && Short(Ascii("/proc/timer_stats"))
    ensures Short(Ascii("/sys/devices/virtual/powercap")) && Short(Ascii("/sys/firmware"))
  {
    hide Ascii, Short;
    ShortText("/proc/timer_list");
    ShortText("/proc/timer_stats");
    ShortText("/sys/devices/virtual/powercap");
    ShortText("/sys/firmware");
  }

  lemma ReadonlyShort()
    ensures Short(Ascii("/proc/bus")) && Short(Ascii("/proc/fs")) && Short(Ascii("/proc/irq")) &&
      Short(Ascii("/proc/sys"))
    ensures Short(Ascii("/proc/sysrq-trigger"))
  {
    hide Ascii, Short;
    ShortText("/proc/bus");
    ShortText("/proc/fs");
    ShortText("/proc/irq");
    ShortText("/proc/sys");
    ShortText("/proc/sysrq-trigger");
  }

  lemma PathsShort()
    ensures (forall t :: t in MASKED ==> Short(t)) && (forall t :: t in READONLY ==> Short(t))
    ensures |MASKED| == 12 && |READONLY| == 5
  {
    hide Ascii, Short;
    MaskedOne();
    MaskedTwo();
    MaskedThree();
    ReadonlyShort();
  }

  predicate AllShort(ts: seq<Text>) { forall t :: t in ts ==> Short(t) }

  lemma FixedBytes(h: FixedHost)
    requires AllShort(h.maskedPaths) && AllShort(h.readonlyPaths) && |h.maskedPaths| == 12 && |h.readonlyPaths| == 5
    requires h.capAdd == [] && |h.capDrop| == 1 && AllShort(h.capDrop) && |h.securityOpt| == 2 &&
      AllShort(h.securityOpt)
    ensures Total(FixedTexts(h)) <= 3840 && TextsOk(h.maskedPaths) && TextsOk(h.readonlyPaths)
  {
    ShortTotal(FixedTexts(h));
    hide Total;
  }

  lemma OptionsShort()
    ensures AllShort([Ascii("ALL")]) && AllShort([Ascii("no-new-privileges=true"), Ascii("seccomp=builtin")])
  {
    hide Ascii, Short;
    ShortText("ALL");
    ShortText("no-new-privileges=true");
    ShortText("seccomp=builtin");
  }

  lemma FixedAccepted()
    ensures FixedOk(Fixed()) && Total(FixedTexts(Fixed())) <= 3840
  {
    PathsShort();
    OptionsShort();
    assert AllShort(MASKED) && AllShort(READONLY);
    hide Ascii, Short, AllShort, Total, FixedTexts, TextsOk;
    FixedBytes(Fixed());
  }

  predicate Plain(s: string) { forall c :: c in s ==> 0 < c as int < 128 }

  lemma PlainJoin(a: string, b: string)
    requires Plain(a) && Plain(b)
    ensures Plain(a + b)
  {}

  lemma TmpfsOptionsBrief()
    ensures Brief(Ascii("rw,nosuid,nodev,noexec,size=67108864,mode=0700"))
  {
    hide Ascii, Bytes, NoNul;
    var a, b := "rw,nosuid,nodev,noexec,", "size=67108864,mode=0700";
    assert Plain(a) && Plain(b);
    PlainJoin(a, b);
    assert a + b == "rw,nosuid,nodev,noexec,size=67108864,mode=0700";
    ShortText(a + b);
  }

  predicate Brief(t: Text) { NoNul(t) && Bytes(t) <= 192 }

  lemma TmpfsBytes()
    ensures RecordOk(Tmpfs()) && RecordBytes(Tmpfs()) <= 384
  {
    TmpfsOptionsBrief();
    ShortText("/tmp");
    hide Ascii, Bytes, NoNul;
    assert Tmpfs()[1..] == [] && RecordBytes([]) == 0;
  }

  lemma {:induction false} SmallRecord(r: StringRecord)
    requires forall f :: f in r ==> |f.key| <= 64 && |f.value| <= 64
    ensures RecordBytes(r) <= 384 * |r|
  {
    if r != [] {
      assert r[0] in r;
      BytesBound(r[0].key);
      BytesBound(r[0].value);
      SmallRecord(r[1..]);
    }
  }

  lemma OwnershipBytes(d: Descriptor)
    requires DescriptorOk(d)
    ensures RecordBytes(OwnershipLabels(d)) <= 384 * 8
  {
    var o := OwnershipLabels(d);
    forall f | f in o ensures |f.key| <= 64 && |f.value| <= 64 {}
    SmallRecord(o);
  }

  lemma {:induction false} DecimalLength(n: nat, k: nat, bound: nat)
    requires k >= 1 && n < bound && bound == Tens(k)
    ensures 1 <= |Decimal(n)| <= k
  {
    if n >= 10 {
      assert k > 1 && bound == 10 * Tens(k - 1);
      DecimalLength(n / 10, k - 1, Tens(k - 1));
    }
  }

  function Tens(k: nat): (n: nat) { if k == 0 then 1 else 10 * Tens(k - 1) }

  lemma OverrideBytes(cpu: nat)
    requires cpu <= 8000
    ensures RecordBytes(Language()) <= 384 * 2 && RecordBytes(Language() + Python(cpu)) <= 384 * 8
    ensures |Language()| == 2 && |Language() + Python(cpu)| == 8
  {
    DecimalLength(Threads(cpu), 2, 100);
    SmallRecord(Language());
    var r := Language() + Python(cpu);
    forall f | f in r ensures |f.key| <= 64 && |f.value| <= 64 {}
    SmallRecord(r);
  }

  lemma RuntimeFacts(r: Runtime)
    ensures IsRuntime(RuntimeName(r)) && NoNul(RuntimeName(r)) && |RuntimeName(r)| <= 5
  {}

  lemma LogBytes(log: StringRecord, output: nat)
    requires log == [] || (log == BashLog(output) && output < 10000000)
    ensures RecordBytes(Sort(log)) <= 384 * 3
  {
    if log != [] {
      DecimalLength(output, 7, 10000000);
      forall f | f in log ensures |f.key| <= 64 && |f.value| <= 64 {}
    }
    SmallRecord(log);
    SortBytes(log);
  }

  lemma CommonHostBytes(l: Limits, runtime: Runtime, files: nat, logType: LogType, log: StringRecord)
    requires log == [] || (log == BashLog(l.output) && l.output < 10000000)
    ensures HostBytes(CommonHost(l, runtime, files, logType, log)) <= 6000
  {
    FixedAccepted();
    RuntimeFacts(runtime);
    BytesBound(RuntimeName(runtime));
    LogBytes(log, l.output);
    TmpfsBytes();
    hide Fixed, FixedTexts, Total, Bytes, RecordBytes, Sort, Tmpfs, RuntimeName, Ascii, BashLog, FixedOk;
  }

  lemma UserBytes()
    ensures Bytes(Ascii("65532:65532")) + Bytes(Ascii("SIGTERM")) <= 200
  {
    BytesBound(Ascii("65532:65532"));
    BytesBound(Ascii("SIGTERM"));
  }

  lemma ShellBytes(command: Text)
    ensures Total([Ascii("/bin/sh")]) <= 100 && Total([Ascii("-lc"), command]) <= 100 + Bytes(command) &&
      Bytes(Ascii("/work")) <= 100
  {
    BytesBound(Ascii("/bin/sh"));
    BytesBound(Ascii("-lc"));
    BytesBound(Ascii("/work"));
    assert [Ascii("/bin/sh")][1..] == [] && [Ascii("-lc"), command][1..] == [command] && [command][1..] == [];
    assert Total([command]) == Bytes(command) + Total([]);
    hide Bytes;
  }

  lemma MountOnly(m: Mount)
    ensures MountBytes([m]) == Bytes(m.source)
  {
    assert [m][1..] == [];
    assert MountBytes([]) == 0;
  }

  lemma WhisperBytes(m: Manifest, l: Limits, runtime: Runtime, root: Text)
    requires ManifestOk(m) && l.cpuMillicores <= 8000
    ensures ExpectedBytes(WhisperProjection(m, l, runtime, root)) <= MAX_MANIFEST_BYTES + Bytes(root) + 10000
  {
    var o := Language() + Python(l.cpuMillicores);
    OverrideBytes(l.cpuMillicores);
    EnvironmentBytes(m.env, o);
    CommonHostBytes(l, runtime, 256, LogNone, []);
    UserBytes();
    MountOnly(Mount(root, Destination.Input, true));
    hide Ascii, Bytes, Total, RecordBytes, Environment, Language, Python, CommonHost, HostBytes, MountBytes,
      IsImageId, NameLength;
  }

  lemma BashBytes(m: Manifest, l: Limits, runtime: Runtime, root: Text, command: Text)
    requires ManifestOk(m) && l.cpuMillicores <= 8000 && l.output < 10000000
    ensures ExpectedBytes(BashProjection(m, l, runtime, root, command)) <= MAX_MANIFEST_BYTES + Bytes(root) +
      Bytes(command) + 10000
  {
    OverrideBytes(l.cpuMillicores);
    EnvironmentBytes(m.env, Language());
    CommonHostBytes(l, runtime, 1024, LogLocal, BashLog(l.output));
    UserBytes();
    ShellBytes(command);
    MountOnly(Mount(root, Work, false));
    hide Ascii, Bytes, Total, RecordBytes, Environment, Language, Python, CommonHost, HostBytes, MountBytes,
      IsImageId, NameLength, BashLog;
  }

  lemma ProjectionBytes(i: Input)
    requires InputOk(i) && Constructible(i)
    ensures ExpectedBytes(ProjectionOf(i)) <= MAX_MANIFEST_BYTES + MAX_PATH_BYTES + MAX_COMMAND_BYTES + 10000
    ensures ProjectionOf(i).config.labels == Some(i.manifest.labels)
  {
    var m, l := i.manifest, i.limits;
    hide ManifestOk, ExpectedBytes, Ascii, Environment, CommonHost, Language, Python, BashLog, Bytes, NoNul;
    if i.WhisperInput? {
      WhisperBytes(m, l, i.runtime, i.root);
    } else {
      BashBytes(m, l, i.runtime, i.root, i.command);
    }
  }

  lemma LabelBytes(m: Manifest)
    requires ManifestOk(m)
    ensures RecordBytes(m.labels) <= MAX_MANIFEST_BYTES && |m.labels| <= 128
  {
    hide RecordBytes, Total, Bytes, IsImageId, NameLength, Reserved;
  }

  /** The limits on the inputs leave room for eight more labels and for all labels twice. */
  lemma PlansFit(i: Input, d: Descriptor)
    requires InputOk(i) && Constructible(i) && DescriptorOk(d)
    ensures Fits(ProjectionOf(i), d)
  {
    hide InputOk, Constructible, ProjectionOf, ExpectedBytes, OwnershipLabels, RecordBytes, DescriptorOk, ManifestOk;
    InputParts(i);
    OwnershipBytes(d);
    LabelBytes(i.manifest);
    ProjectionBytes(i);
  }

  lemma InputParts(i: Input)
    requires InputOk(i)
    ensures ManifestOk(i.manifest) && LimitsOk(i) && PathOk(i.root)
  {}

  lemma LogKeys(output: nat)
    ensures DistinctKeys(BashLog(output)) && DistinctKeys(Sort(BashLog(output)))
  {
    var r := BashLog(output);
    assert r[0].key[4] == 0x73 && r[1].key[4] == 0x66 && r[2].key[4] == 0x72;
    hide Ascii, Decimal;
    SortSorts(r);
    SortedDistinct(Sort(r));
  }

  lemma ProjectionRecords(i: Input)
    requires InputOk(i)
    ensures ProperRecords(ProjectionOf(i).config, ProjectionOf(i).host) && ProjectionOf(i).config.labels.Some?
  {
    LogKeys(i.limits.output);
    hide Ascii, Environment, IsImageId, Bytes, Total, RecordBytes, BashLog, Fixed;
    var none: StringRecord := [];
    assert Sort(none) == [];
    hide Sort;
  }

  /** End to end, without a condition: the container made for a plan is recognized as the plan's. */
  lemma EveryPlanIsRecognized(i: Input, d: Descriptor)
    requires InputOk(i) && CreatePlan(i).Some? && DescriptorOk(d) && d.kind == CreatePlan(i).value.kind
    ensures var e := CreatePlan(i).value;
      && SealRequest(Template(e), d).Some?
      && Matches(e, Echo(SealRequest(Template(e), d).value, e.imageId))
  {
    PlansFit(i, d);
    ProjectionRecords(i);
    hide InputOk, Constructible, ProjectionOf, HashOf, Expect, ProperRecords, Fits, Template, SealRequest, Echo,
      Matches, DescriptorOk;
    CreatedMatchesPlan(ProjectionOf(i), d);
  }

  // ---- which inputs give a projection --------------------------------------------------------------------

  lemma {:induction false} DecimalDigits(n: nat)
    ensures Decimal(n) != [] && (n > 0 ==> Decimal(n)[0] != 0x30) && forall u :: u in Decimal(n) ==> 0x30 <= u <= 0x39
  {
    if n >= 10 {
      DecimalDigits(n / 10);
    }
  }

  lemma OutputSize(n: nat)
    requires 1024 <= n <= 8 * 1024 * 1024
    ensures IsMaxSize(Decimal(n))
  {
    DecimalDigits(n);
    DecimalLength(n, 7, 10000000);
    assert |Decimal(n)| == |Decimal(n / 10)| + 1 && |Decimal(n / 10)| == |Decimal(n / 10 / 10)| + 1;
    assert |Decimal(n / 10 / 10)| == |Decimal(n / 10 / 10 / 10)| + 1 && n / 10 / 10 >= 10;
    assert Decimal(n)[0] in Decimal(n);
    hide Decimal;
  }

  lemma {:induction false} LessAfter(p: Text, a: Text, b: Text)
    requires Less(a, b)
    ensures Less(p + a, p + b)
  {
    if p == [] {
      assert p + a == a && p + b == b;
    } else {
      assert (p + a)[1..] == p[1..] + a && (p + b)[1..] == p[1..] + b;
      LessAfter(p[1..], a, b);
    }
  }

  lemma LogOrder()
    ensures Less(Ascii("compress"), Ascii("max-file")) && Less(Ascii("compress"), Ascii("max-size")) &&
      Less(Ascii("max-file"), Ascii("max-size"))
  {
    assert Ascii("max-file") == Ascii("max-") + Ascii("file") && Ascii("max-size") == Ascii("max-") + Ascii("size");
    LessAfter(Ascii("max-"), Ascii("file"), Ascii("size"));
  }

  /** Sorted, the log settings come in the order that the policy checks. */
  lemma LogSorted(output: nat)
    ensures var r := BashLog(output); Sort(r) == [r[2], r[1], r[0]] && Sort(Sort(r)) == Sort(r)
  {
    LogOrder();
    LogKeys(output);
    hide Ascii, Decimal, Less;
    var r := BashLog(output);
    var s := [r[2], r[1], r[0]];
    assert Sorted(s);
    SortSorts(r);
    SortElements(r);
    SortedUnique(Sort(r), s);
    SortTwice(r);
  }

  predicate Free(ts: seq<Text>) { forall t :: t in ts ==> NoNul(t) }

  /** Nothing that the image or the caller supplies holds a NUL. */
  predicate Printable(i: Input) {
    var c := ProjectionOf(i).config;
    && NoNul(c.image) && NoNul(c.workingDir) && Free(OrEmpty(c.env)) && Free(OrEmpty(c.entrypoint)) &&
      Free(OrEmpty(c.cmd))
    && forall f :: f in i.manifest.labels ==> NoNul(f.value)
  }

  lemma NoneReserved(l: StringRecord)
    requires Unreserved(l)
    ensures ReservedCount(l) == 0
  {
    var owned := (f: Field<Text>) => Reserved(f.key);
    SortElements(l);
    FilterNone(Sort(l), owned);
  }

  lemma {:induction false} FilterNone<T(!new)>(s: seq<T>, p: T -> bool)
    requires forall x :: x in s ==> !p(x)
    ensures Filter(s, p) == []
  {
    if s != [] {
      assert s[0] in s;
      FilterNone(s[1..], p);
    }
  }

  lemma ConfigOkExactly(c: RawConfig)
    requires NoNul(c.user) && NoNul(c.stopSignal) && Unreserved(OrEmpty(c.labels)) && |OrEmpty(c.labels)| <= 128
    requires |OrEmpty(c.env)| <= 136 && |OrEmpty(c.entrypoint)| <= 64 && |OrEmpty(c.cmd)| <= 64
    ensures ConfigOk(c, false) <==>
      && NoNul(c.image) && NoNul(c.workingDir) && Free(OrEmpty(c.env)) && Free(OrEmpty(c.entrypoint)) &&
        Free(OrEmpty(c.cmd))
      && forall f :: f in OrEmpty(c.labels) ==> NoNul(f.value)
  {
    NoneReserved(OrEmpty(c.labels));
    hide ReservedCount, NoNul, Reserved;
  }

  lemma UserFacts()
    ensures NoNul(Ascii("65532:65532")) && NoNul(Ascii("SIGTERM"))
  {
    NoNulText("65532:65532");
    NoNulText("SIGTERM");
  }

  lemma ConfigAccepted(i: Input)
    requires InputOk(i)
    ensures ConfigOk(ProjectionOf(i).config, false) <==> Printable(i)
  {
    var c, m := ProjectionOf(i).config, i.manifest;
    UserFacts();
    OverrideBytes(i.limits.cpuMillicores);
    EnvironmentBytes(m.env, if i.WhisperInput? then Language() + Python(i.limits.cpuMillicores) else Language());
    hide Ascii, Environment, Language, Python, CommonHost, IsImageId, ManifestBytes, Total, RecordBytes, Free, NoNul,
      ConfigOk, Bytes, NameLength, Reserved;
    ConfigOkExactly(c);
  }

  lemma LogFacts(i: Input)
    requires LimitsOk(i)
    ensures RecordOk(Sort(BashLog(i.limits.output))) || i.WhisperInput?
  {
    if i.BashInput? {
      LogSorted(i.limits.output);
      DecimalDigits(i.limits.output);
      NoNulText("1");
      NoNulText("false");
      hide Ascii, Decimal, Sort;
    }
  }

  lemma CommonHostOk(l: Limits, runtime: Runtime, files: nat, logType: LogType, log: StringRecord)
    requires l.pids >= 1 && l.memory >= 1 && l.cpuMillicores >= 1 && files >= 1 && RecordOk(Sort(log))
    ensures HostOk(CommonHost(l, runtime, files, logType, log))
  {
    FixedAccepted();
    RuntimeFacts(runtime);
    TmpfsBytes();
    hide FixedOk, Fixed, Ascii, RuntimeName, NoNul, Sort, Tmpfs, RecordOk;
  }

  lemma HostAccepted(i: Input)
    requires LimitsOk(i)
    ensures HostOk(ProjectionOf(i).host)
  {
    LogFacts(i);
    var none: StringRecord := [];
    assert Sort(none) == [];
    hide Ascii, Environment, Language, Python, CommonHost, HostOk, BashLog, Sort;
    if i.WhisperInput? {
      CommonHostOk(i.limits, i.runtime, 256, LogNone, []);
    } else {
      CommonHostOk(i.limits, i.runtime, 1024, LogLocal, BashLog(i.limits.output));
    }
  }

  lemma HostOfCommon(l: Limits, runtime: Runtime, files: nat, logType: LogType, log: StringRecord)
    requires Sort(Sort(log)) == Sort(log)
    ensures HostOf(CommonHost(l, runtime, files, logType, log)) ==
      Host(l.pids, l.memory, l.cpuMillicores * 1000000, RuntimeName(runtime), logType, Sort(log), Tmpfs(), files,
        files, 64 * 1024 * 1024)
  {
    var tmpfs := Tmpfs();
    assert tmpfs[1..] == [] && Sort(tmpfs) == tmpfs;
    hide Ascii, Fixed, RuntimeName, Tmpfs, Sort;
  }

  function Projected(e: Expected): (p: Projection) {
    Projection(e.kind, e.imageId, ConfigOf(e.config), HostOf(e.host), e.mounts)
  }

  predicate PolicyLimits(h: Host) {
    && 64 * 1024 * 1024 <= h.memory <= 16 * 1024 * 1024 * 1024 && 50000000 <= h.nanoCpus <= 8000000000
    && 8 <= h.pidsLimit <= 1024 && h.shmSize == 64 * 1024 * 1024 && IsRuntime(h.runtime) && h.tmpfs == Tmpfs() &&
      h.soft == h.hard
  }

  lemma WhisperPolicy(m: Manifest, l: Limits, runtime: Runtime, root: Text)
    requires LimitsOk(WhisperInput(m, l, runtime, root))
    ensures Policy(Projected(WhisperProjection(m, l, runtime, root)))
  {
    var p := Projected(WhisperProjection(m, l, runtime, root));
    RuntimeFacts(runtime);
    var none: StringRecord := [];
    assert Sort(none) == [] && Sort(Sort(none)) == Sort(none);
    HostOfCommon(l, runtime, 256, LogNone, none);
    hide HostOf, CommonHost, Ascii, Environment, Language, Python, RuntimeName, Sort, IsRuntime, Kept;
    assert PolicyLimits(p.host);
  }

  lemma BashPolicy(m: Manifest, l: Limits, runtime: Runtime, root: Text, command: Text)
    requires LimitsOk(BashInput(m, l, runtime, root, command))
    ensures Policy(Projected(BashProjection(m, l, runtime, root, command)))
  {
    var p := Projected(BashProjection(m, l, runtime, root, command));
    RuntimeFacts(runtime);
    LogSorted(l.output);
    OutputSize(l.output);
    HostOfCommon(l, runtime, 1024, LogLocal, BashLog(l.output));
    hide HostOf, CommonHost, Ascii, Environment, Language, Python, RuntimeName, Sort, IsRuntime, Kept, Decimal,
      IsMaxSize;
    assert PolicyLimits(p.host);
    var log := BashLog(l.output);
    assert p.host.logConfig == [log[2], log[1], log[0]];
    hide Policy;
    BashPolicyOf(p, log, command);
  }

  lemma BashPolicyOf(p: Projection, log: StringRecord, command: Text)
    requires PolicyLimits(p.host) && p.kind == LeaseBoundDockerBash && |log| == 3 &&
      p.host.logConfig == [log[2], log[1], log[0]]
    requires |p.mounts| == 1 && p.mounts[0].destination == Work && !p.mounts[0].readOnly &&
      p.config.user == Ascii("65532:65532")
    requires p.config.stopSignal == Ascii("SIGTERM") && !p.config.openStdin && !p.config.stdinOnce && !p.config.tty
    requires p.config.workingDir == Ascii("/work") && p.config.entrypoint == [Ascii("/bin/sh")] &&
      p.config.cmd == [Ascii("-lc"), command]
    requires log[2] == Field(Ascii("compress"), Ascii("false")) && log[1] == Field(Ascii("max-file"), Ascii("1"))
    requires log[0].key == Ascii("max-size") && IsMaxSize(log[0].value) && p.host.logType == LogLocal &&
      p.host.soft == 1024
    ensures Policy(p)
  {
    hide Ascii, IsRuntime, IsMaxSize;
  }

  lemma PolicyMet(i: Input)
    requires LimitsOk(i)
    ensures Policy(Projected(ProjectionOf(i)))
  {
    hide Policy, Projected, WhisperProjection, BashProjection, LimitsOk;
    match i
    case WhisperInput(m, l, runtime, root) => WhisperPolicy(m, l, runtime, root);
    case BashInput(m, l, runtime, root, command) => BashPolicy(m, l, runtime, root, command);
  }

  /** Nothing is missing, and the image and the mount are well formed. */
  lemma Complete(i: Input)
    requires InputOk(i)
    ensures NoNulls(ProjectionOf(i)) && IsImageId(ProjectionOf(i).imageId) && MountsOk(ProjectionOf(i).mounts)
  {
    hide Ascii, Environment, Language, Python, IsImageId, ManifestBytes, NameLength, Bytes, BashLog, Fixed, Tmpfs,
      RuntimeName, Sort, NoNul;
  }

  /** Of what a constructor accepts, the projection is refused if and only if one of its texts holds a NUL. */
  lemma ProjectionAcceptedExactly(i: Input)
    requires InputOk(i) && Constructible(i)
    ensures Expect(ProjectionOf(i)).Some? <==> Printable(i)
  {
    hide InputOk, Constructible, Printable, ProjectionOf, ConfigOk, HostOk, Policy, MountsOk, ExpectedBytes, ConfigOf,
      HostOf, IsImageId, NoNulls;
    InputParts(i);
    ConfigAccepted(i);
    HostAccepted(i);
    PolicyMet(i);
    ProjectionBytes(i);
    Complete(i);
  }
}
