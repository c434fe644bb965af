/**
 * The selected projection of an owned container: read from an expected value, printed as an Engine
 * create request, sealed with ownership labels, echoed by an inspect document, and read back
 * (packages/app/src/docker-container-selected-projection.ts and
 * packages/app/src/docker-code-owned-container-create-plan.ts).
 *
 * Documents are typed records; a nullable member is an option; a record of strings is a list of
 * entries with distinct keys in insertion order.
 */
module DockerProjection {
  import opened Common
  import opened Texts
  import Canonical

  const MAX_TEXT_BYTES := 1024 * 1024
  const MAX_ITEMS := 4096

  type StringRecord = seq<Field<Text>>

  // ---- texts ----------------------------------------------------------------------------------------------

  function Ascii(s: string): (t: Text)
    ensures |t| == |s| && forall i :: 0 <= i < |t| ==> t[i] == (s[i] as int) % 0x10000
  {
    seq(|s|, i requires 0 <= i < |s| => (s[i] as int) % 0x10000)
  }

  /** `Buffer.byteLength`: UTF-8, with three bytes for a surrogate that stands alone. */
  function Bytes(t: Text): (n: nat)
    decreases |t|
  {
    if t == [] then 0
    else if Canonical.PairAt(t) then 4 + Bytes(t[2..])
    else (if t[0] < 0x80 then 1 else if t[0] < 0x800 then 2 else 3) + Bytes(t[1..])
  }

  function Total(ts: seq<Text>): (n: nat) {
    if ts == [] then 0 else Bytes(ts[0]) + Total(ts[1..])
  }

  /** Keys and values of a record both count. */
  function RecordBytes(r: StringRecord): (n: nat) {
    if r == [] then 0 else Bytes(r[0].key) + Bytes(r[0].value) + RecordBytes(r[1..])
  }

  predicate NoNul(t: Text) { 0 !in t }

  predicate TextsOk(ts: seq<Text>) { |ts| <= MAX_ITEMS && forall t :: t in ts ==> NoNul(t) }

  predicate RecordOk(r: StringRecord) { |r| <= MAX_ITEMS && forall f :: f in r ==> NoNul(f.value) }

  predicate LowerHex(t: Text, n: nat) {
    |t| == n && forall u :: u in t ==> 0x30 <= u <= 0x39 || 0x61 <= u <= 0x66
  }

  predicate IsHash(t: Text) { LowerHex(t, 64) }

  predicate IsImageId(t: Text) { |t| == 71 && t[..7] == Ascii("sha256:") && LowerHex(t[7..], 64) }

  predicate Alphanumeric(u: CodeUnit) { 0x30 <= u <= 0x39 || 0x41 <= u <= 0x5A || 0x61 <= u <= 0x7A }

  predicate IsRuntime(t: Text) {
    1 <= |t| <= 64 && Alphanumeric(t[0]) && forall u :: u in t ==> Alphanumeric(u) || u in {0x2E, 0x5F, 0x2D}
  }

  predicate IsMaxSize(t: Text) {
    4 <= |t| <= 7 && 0x31 <= t[0] <= 0x39 && forall u :: u in t ==> 0x30 <= u <= 0x39
  }

  function Lookup(r: StringRecord, key: Text): (v: Option<Text>) {
    if r == [] then None else if r[0].key == key then Some(r[0].value) else Lookup(r[1..], key)
  }

  // ---- documents --------------------------------------------------------------------------------------------

  datatype SidecarKind = Whisper | LeaseBoundDockerBash
  datatype LogType = LogLocal | LogNone
  datatype Destination = Input | Work

  /** The host settings that must have one value. */
  datatype FixedHost = FixedHost(
    networkMode: Text, readonlyRootfs: bool, privileged: bool,
    capAdd: seq<Text>, capDrop: seq<Text>, securityOpt: seq<Text>, groupAdd: nat, sysctls: nat,
    maskedPaths: seq<Text>, readonlyPaths: seq<Text>,
    ipcMode: Text, pidMode: Text, utsMode: Text, cgroupnsMode: Text, usernsMode: Text,
    restartName: Text, restartCount: int, autoRemove: bool,
    devices: nat, deviceRequests: nat, portBindings: nat,
    publishAllPorts: bool, oomKillDisable: bool, oomScoreAdj: int, init: bool)

  datatype RawConfig = RawConfig(
    image: Text, user: Text, env: Option<seq<Text>>, entrypoint: Option<seq<Text>>, cmd: Option<seq<Text>>,
    workingDir: Text, openStdin: bool, stdinOnce: bool, tty: bool,
    labels: Option<StringRecord>, healthcheck: seq<Text>, stopSignal: Text)

  datatype RawHost = RawHost(
    fixed: FixedHost, pidsLimit: int, memory: int, memorySwap: int, nanoCpus: int, runtime: Text,
    logType: LogType, logConfig: Option<StringRecord>, tmpfs: Option<StringRecord>,
    ulimitName: Text, soft: int, hard: int, shmSize: int)

  datatype Mount = Mount(source: Text, destination: Destination, readOnly: bool)

  /** An expected value: no member is null, and the healthcheck is a flag that must be true. */
  datatype Expected = Expected(
    kind: SidecarKind, imageId: Text, config: RawConfig, host: RawHost, mounts: seq<Mount>)

  /** The members of an inspect document that are selected. */
  datatype Inspect = Inspect(image: Text, config: RawConfig, host: RawHost, mounts: seq<Mount>)

  /** A create request: the Engine places mounts under the host configuration. */
  datatype Request = Request(config: RawConfig, host: RawHost, mounts: seq<Mount>)

  datatype Config = Config(
    image: Text, user: Text, env: seq<Text>, entrypoint: seq<Text>, cmd: seq<Text>,
    workingDir: Text, openStdin: bool, stdinOnce: bool, tty: bool, labels: StringRecord, stopSignal: Text)

  datatype Host = Host(
    pidsLimit: int, memory: int, nanoCpus: int, runtime: Text, logType: LogType,
    logConfig: StringRecord, tmpfs: StringRecord, soft: int, hard: int, shmSize: int)

  /** The normalized projection; members with one legal value are left out. */
  datatype Projection = Projection(
    kind: SidecarKind, imageId: Text, config: Config, host: Host, mounts: seq<Mount>)

  // ---- constants ----------------------------------------------------------------------------------------------

  const MASKED: seq<Text> := [
    Ascii("/proc/acpi"), Ascii("/proc/asound"), Ascii("/proc/interrupts"), Ascii("/proc/kcore"),
    Ascii("/proc/keys"), Ascii("/proc/latency_stats"), Ascii("/proc/sched_debug"), Ascii("/proc/scsi"),
    Ascii("/proc/timer_list"), Ascii("/proc/timer_stats"), Ascii("/sys/devices/virtual/powercap"),
    Ascii("/sys/firmware")]

  const READONLY: seq<Text> := [
    Ascii("/proc/bus"), Ascii("/proc/fs"), Ascii("/proc/irq"), Ascii("/proc/sys"), Ascii("/proc/sysrq-trigger")]

  /** The paths may come in any order; everything else is fixed. */
  predicate FixedOk(h: FixedHost) {
    && h == FixedHost(
         Ascii("none"), true, false, [], [Ascii("ALL")],
         [Ascii("no-new-privileges=true"), Ascii("seccomp=builtin")], 0, 0,
         h.maskedPaths, h.readonlyPaths, Ascii("none"), [], [], Ascii("private"), [],
         Ascii("no"), 0, false, 0, 0, 0, false, false, 0, false)
    && multiset(h.maskedPaths) == multiset(MASKED) && multiset(h.readonlyPaths) == multiset(READONLY)
    && TextsOk(h.maskedPaths) && TextsOk(h.readonlyPaths)
  }

  function FixedTexts(h: FixedHost): (ts: seq<Text>) {
    h.capAdd + h.capDrop + h.securityOpt + h.maskedPaths + h.readonlyPaths
  }

  const PREFIX: Text := Ascii("com.aisy.")
  const VERSION: Text := Ascii("com.aisy.resource.version")
  const INSTALLATION: Text := Ascii("com.aisy.resource.installation")
  const OWNER: Text := Ascii("com.aisy.resource.owner")
  const SESSION: Text := Ascii("com.aisy.resource.session")
  const OPERATION: Text := Ascii("com.aisy.resource.operation")
  const KIND: Text := Ascii("com.aisy.resource.kind")
  const ROLE: Text := Ascii("com.aisy.resource.role")
  const POLICY: Text := Ascii("com.aisy.resource.policy")

  const OWNERSHIP: set<Text> := {VERSION, INSTALLATION, OWNER, SESSION, OPERATION, KIND, ROLE, POLICY}

  predicate Reserved(key: Text) { PREFIX <= key }

  function KindName(k: SidecarKind): (t: Text) {
    match k case Whisper => Ascii("whisper") case LeaseBoundDockerBash => Ascii("lease-bound-docker-bash")
  }

  // ---- reading ------------------------------------------------------------------------------------------------

  function OrEmpty<T>(o: Option<seq<T>>): (s: seq<T>) { if o.Some? then o.value else [] }

  function Kept(r: StringRecord): (s: StringRecord) { Filter(Sort(r), (f: Field<Text>) => !Reserved(f.key)) }

  function ReservedCount(r: StringRecord): (n: nat) { |Filter(Sort(r), (f: Field<Text>) => Reserved(f.key))| }

  /** `withoutOwnershipLabels`: reserved keys must be ownership labels, none of them or all of them. */
  predicate LabelsOk(r: StringRecord, owned: bool) {
    && RecordOk(r)
    && (forall f :: f in r && Reserved(f.key) ==> f.key in OWNERSHIP)
    && ReservedCount(r) == if owned then |OWNERSHIP| else 0
  }

  predicate ConfigOk(c: RawConfig, owned: bool) {
    && NoNul(c.image) && NoNul(c.user) && NoNul(c.workingDir) && NoNul(c.stopSignal)
    && TextsOk(OrEmpty(c.env)) && TextsOk(OrEmpty(c.entrypoint)) && TextsOk(OrEmpty(c.cmd))
    && LabelsOk(OrEmpty(c.labels), owned)
  }

  function ConfigOf(c: RawConfig): (r: Config) {
    Config(c.image, c.user, OrEmpty(c.env), OrEmpty(c.entrypoint), OrEmpty(c.cmd), c.workingDir,
           c.openStdin, c.stdinOnce, c.tty, Kept(OrEmpty(c.labels)), c.stopSignal)
  }

  function ConfigBytes(c: RawConfig): (n: nat) {
    Bytes(c.image) + Bytes(c.user) + Total(OrEmpty(c.env)) + Total(OrEmpty(c.entrypoint)) + Total(OrEmpty(c.cmd)) +
    Bytes(c.workingDir) + RecordBytes(OrEmpty(c.labels)) + Bytes(c.stopSignal)
  }

  predicate HostOk(h: RawHost) {
    && FixedOk(h.fixed)
    && h.pidsLimit >= 1 && h.memory >= 1 && h.memorySwap == h.memory && h.nanoCpus >= 1 && h.shmSize >= 1
    && h.soft >= 1 && h.hard >= 1 && h.ulimitName == Ascii("nofile")
    && NoNul(h.runtime) && RecordOk(OrEmpty(h.logConfig)) && RecordOk(OrEmpty(h.tmpfs))
  }

  function HostOf(h: RawHost): (r: Host) {
    Host(h.pidsLimit, h.memory, h.nanoCpus, h.runtime, h.logType,
         Sort(OrEmpty(h.logConfig)), Sort(OrEmpty(h.tmpfs)), h.soft, h.hard, h.shmSize)
  }

  function HostBytes(h: RawHost): (n: nat) {
    Total(FixedTexts(h.fixed)) + Bytes(h.runtime) + RecordBytes(OrEmpty(h.logConfig)) + RecordBytes(OrEmpty(h.tmpfs))
  }

  predicate MountsOk(ms: seq<Mount>) {
    |ms| <= 1 && forall m :: m in ms ==> NoNul(m.source) && |m.source| > 1 && m.source[0] == 0x2F
  }

  function MountBytes(ms: seq<Mount>): (n: nat) { if ms == [] then 0 else Bytes(ms[0].source) + MountBytes(ms[1..]) }

  /** `validateSelectedSidecarPolicy`. */
  predicate Policy(p: Projection) {
    && |p.mounts| == 1
    && p.config.user == Ascii("65532:65532") && p.config.stopSignal == Ascii("SIGTERM")
    && 64 * 1024 * 1024 <= p.host.memory <= 16 * 1024 * 1024 * 1024
    && 50000000 <= p.host.nanoCpus <= 8000000000 && 8 <= p.host.pidsLimit <= 1024
    && p.host.shmSize == 64 * 1024 * 1024 && IsRuntime(p.host.runtime)
    && p.host.tmpfs == [Field(Ascii("/tmp"), Ascii("rw,nosuid,nodev,noexec,size=67108864,mode=0700"))]
    && p.host.soft == p.host.hard
    && !p.config.stdinOnce && !p.config.tty
    && match p.kind
       case Whisper =>
         p.mounts[0].destination == Input && p.mounts[0].readOnly && p.config.openStdin &&
         p.host.logType == LogNone && p.host.logConfig == [] && p.host.soft == 256
       case LeaseBoundDockerBash =>
         && p.mounts[0].destination == Work && !p.mounts[0].readOnly && !p.config.openStdin
         && p.config.workingDir == Ascii("/work") && p.config.entrypoint == [Ascii("/bin/sh")]
         && |p.config.cmd| == 2 && p.config.cmd[0] == Ascii("-lc") && p.host.logType == LogLocal
         && |p.host.logConfig| == 3 && p.host.logConfig[0] == Field(Ascii("compress"), Ascii("false"))
         && p.host.logConfig[1] == Field(Ascii("max-file"), Ascii("1"))
         && p.host.logConfig[2].key == Ascii("max-size") && IsMaxSize(p.host.logConfig[2].value)
         && p.host.soft == 1024
  }

  predicate NoNulls(e: Expected) {
    && e.config.env.Some? && e.config.entrypoint.Some? && e.config.cmd.Some?
    && e.host.logConfig.Some? && e.host.tmpfs.Some?
  }

  function ExpectedBytes(e: Expected): (n: nat) {
    ConfigBytes(e.config) + HostBytes(e.host) + MountBytes(e.mounts)
  }

  /** `expectedProjection`. */
  function Expect(e: Expected): (r: Option<Projection>) {
    var p := Projection(e.kind, e.imageId, ConfigOf(e.config), HostOf(e.host), e.mounts);
    if !NoNulls(e) || !IsImageId(e.imageId) || !ConfigOk(e.config, false) || !HostOk(e.host) || !MountsOk(e.mounts)
      then None
    else if ExpectedBytes(e) > MAX_TEXT_BYTES || !Policy(p) then None
    else Some(p)
  }

  /** `sidecarIdentity`: what the ownership labels say about the container. */
  function Identity(labels: StringRecord): (k: Option<SidecarKind>) {
    if Lookup(labels, ROLE) != Some(Ascii("worker")) || Lookup(labels, VERSION) != Some(Ascii("1")) then None
    else if exists key :: key in {INSTALLATION, OWNER, SESSION, OPERATION, POLICY} &&
                          (Lookup(labels, key).None? || !IsHash(Lookup(labels, key).value)) then None
    else if Lookup(labels, KIND) == Some(KindName(Whisper)) then Some(Whisper)
    else if Lookup(labels, KIND) == Some(KindName(LeaseBoundDockerBash)) then Some(LeaseBoundDockerBash)
    else None
  }

  /** Labels are charged once for the identity and again with the configuration. */
  function InspectBytes(d: Inspect): (n: nat) {
    RecordBytes(OrEmpty(d.config.labels)) + ConfigBytes(d.config) + Total(d.config.healthcheck) +
    HostBytes(d.host) + Bytes(d.host.ulimitName) + MountBytes(d.mounts)
  }

  /** `normalizeOwnedDockerContainerInspectProjectionV2`, up to the hash. */
  function Observe(d: Inspect): (r: Option<Projection>) {
    var kind := Identity(Sort(OrEmpty(d.config.labels)));
    if !IsImageId(d.image) || kind.None? || !ConfigOk(d.config, true) || !HostOk(d.host) || !MountsOk(d.mounts)
      then None
    else if d.config.healthcheck != [Ascii("NONE")] || InspectBytes(d) > MAX_TEXT_BYTES then None
    else
      var p := Projection(kind.value, d.image, ConfigOf(d.config), HostOf(d.host), d.mounts);
      if Policy(p) then Some(p) else None
  }

  // ---- printing -------------------------------------------------------------------------------------------------

  /** `requestTemplate`. */
  function Template(e: Expected): (r: Request) {
    Request(e.config.(healthcheck := [Ascii("NONE")]),
            e.host.(fixed := e.host.fixed.(restartName := Ascii("no"), restartCount := 0, autoRemove := false,
                                           publishAllPorts := false, oomKillDisable := false, oomScoreAdj := 0,
                                             init := false),
                    ulimitName := Ascii("nofile")),
            e.mounts)
  }

  datatype Descriptor = Descriptor(
    installation: Text, owner: Text, session: Text, operation: Text, kind: SidecarKind, policy: Text)

  predicate DescriptorOk(d: Descriptor) {
    IsHash(d.installation) && IsHash(d.owner) && IsHash(d.session) && IsHash(d.operation) && IsHash(d.policy)
  }

  function OwnershipLabels(d: Descriptor): (r: StringRecord) {
    [Field(VERSION, Ascii("1")), Field(INSTALLATION, d.installation), Field(OWNER, d.owner), Field(SESSION, d.session),
     Field(OPERATION, d.operation), Field(KIND, KindName(d.kind)), Field(ROLE, Ascii("worker")),
       Field(POLICY, d.policy)]
  }

  /** `sealRequestBody`: the template's labels and the ownership labels, sorted. */
  function SealRequest(r: Request, d: Descriptor): (s: Option<Request>) {
    if r.config.labels.None? || exists f :: f in r.config.labels.value && Reserved(f.key) then None
    else Some(r.(config := r.config.(labels := Some(Sort(r.config.labels.value + OwnershipLabels(d))))))
  }

  /** The Engine's inspect document for a created container: what was requested, and the image. */
  function Echo(r: Request, imageId: Text): (d: Inspect) {
    Inspect(imageId, r.config, r.host, r.mounts)
  }
}
