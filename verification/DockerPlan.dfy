/**
 * How container plans are made (packages/app/src/docker-code-owned-container-create-plan.ts): from an
 * image manifest, the limits of a draft, a sandbox runtime, a directory and, for bash, a command. The
 * limits that those inputs carry are those of docker-image-runtime-manifest.ts,
 * docker-sidecar-code-owned-plans.ts and docker-sidecar-filesystem-evidence.ts.
 */
module DockerPlan {
  import opened Common
  import opened Texts
  import opened DockerProjection
  import opened DockerHash

  const MAX_MANIFEST_BYTES := 256 * 1024
  const MAX_COMMAND_BYTES := 128 * 1024
  const MAX_PATH_BYTES := 16 * 1024

  // ---- inputs -----------------------------------------------------------------------------------------------

  /** The members of an image manifest that plans use. */
  datatype Manifest = Manifest(
    imageReference: Text, imageId: Text, env: seq<Text>, entrypoint: seq<Text>, cmd: seq<Text>, workingDir: Text,
    labels: StringRecord, volumes: nat, exposedPorts: nat, onBuild: nat)

  function ManifestBytes(m: Manifest): (n: nat) {
    Bytes(m.imageReference) + Bytes(m.imageId) + Total(m.env) + Total(m.entrypoint) + Total(m.cmd) +
    Bytes(m.workingDir) + RecordBytes(m.labels)
  }

  /** What every manifest satisfies: one text budget for everything, and names in the environment. */
  ghost predicate ManifestOk(m: Manifest) {
    && IsImageId(m.imageId) && |m.env| <= 128 && |m.entrypoint| <= 64 && |m.cmd| <= 64 && |m.labels| <= 128
    && ManifestBytes(m) <= MAX_MANIFEST_BYTES
    && DistinctKeys(m.labels) && (forall f :: f in m.labels ==> !Reserved(f.key))
    && forall t :: t in m.env ==> 1 <= NameLength(t) < |t|
  }

  datatype Limits = Limits(memory: nat, cpuMillicores: nat, pids: nat, output: nat)

  datatype Runtime = Runc | Runsc

  function RuntimeName(r: Runtime): (t: Text) { match r case Runc => Ascii("runc") case Runsc => Ascii("runsc") }

  datatype Input =
    | WhisperInput(manifest: Manifest, limits: Limits, runtime: Runtime, root: Text)
    | BashInput(manifest: Manifest, limits: Limits, runtime: Runtime, root: Text, command: Text)

  predicate LimitsOk(i: Input) {
    var l := i.limits;
    match i
    case WhisperInput(_, _, _, _) =>
      3 * 1024 * 1024 * 1024 <= l.memory <= 16 * 1024 * 1024 * 1024 && 2000 <= l.cpuMillicores <= 8000 &&
        64 <= l.pids <= 256
    case BashInput(_, _, _, _, _) =>
      && 64 * 1024 * 1024 <= l.memory <= 8 * 1024 * 1024 * 1024 && 50 <= l.cpuMillicores <= 8000 && 8 <= l.pids <= 1024
      && 1024 <= l.output <= 8 * 1024 * 1024
  }

  predicate PathOk(t: Text) { |t| > 1 && t[0] == 0x2F && NoNul(t) && Bytes(t) <= MAX_PATH_BYTES }

  ghost predicate InputOk(i: Input) { ManifestOk(i.manifest) && LimitsOk(i) && PathOk(i.root) }

  // ---- the environment ------------------------------------------------------------------------------------------

  /** `indexOf('=')`, or the length. */
  function NameLength(t: Text): (n: nat)
    ensures n <= |t| && (n < |t| ==> t[n] == 0x3D)
  {
    if t == [] || t[0] == 0x3D then 0 else 1 + NameLength(t[1..])
  }

  function Split(t: Text): (f: Field<Text>) {
    var n := NameLength(t);
    Field(t[..n], if n < |t| then t[n + 1..] else [])
  }

  function Join(f: Field<Text>): (t: Text) { f.key + [0x3D] + f.value }

  function SplitAll(env: seq<Text>): (r: StringRecord)
    ensures |r| == |env|
  {
    seq(|env|, i requires 0 <= i < |env| => Split(env[i]))
  }

  function JoinAll(r: StringRecord): (env: seq<Text>)
    ensures |env| == |r| && forall i :: 0 <= i < |r| ==> env[i] == Join(r[i])
  {
    seq(|r|, i requires 0 <= i < |r| => Join(r[i]))
  }

  /** `Map.set`. */
  function Put(r: StringRecord, f: Field<Text>): (s: StringRecord) {
    if r == [] then [f] else if r[0].key == f.key then [f] + r[1..] else [r[0]] + Put(r[1..], f)
  }

  function PutAll(r: StringRecord, fs: StringRecord): (s: StringRecord)
    decreases |fs|
  {
    if fs == [] then r else PutAll(Put(r, fs[0]), fs[1..])
  }

  function Resolved(env: seq<Text>, overrides: StringRecord): (r: StringRecord) {
    PutAll(PutAll([], SplitAll(env)), overrides)
  }

  /** `resolvedEnvironment`. */
  function Environment(env: seq<Text>, overrides: StringRecord): (r: seq<Text>) {
    JoinAll(Sort(Resolved(env, overrides)))
  }

  function Language(): (r: StringRecord) {
    [Field(Ascii("LANG"), Ascii("C.UTF-8")), Field(Ascii("LC_ALL"), Ascii("C.UTF-8"))]
  }

  function Threads(cpuMillicores: nat): (n: nat) { if cpuMillicores < 2000 then 1 else cpuMillicores / 1000 }

  function Python(cpuMillicores: nat): (r: StringRecord) {
    [Field(Ascii("PYTHONNOUSERSITE"), [0x31]), Field(Ascii("PYTHONDONTWRITEBYTECODE"), [0x31]),
      Field(Ascii("PYTHONSAFEPATH"), [0x31]),
     Field(Ascii("HF_HUB_OFFLINE"), [0x31]), Field(Ascii("TRANSFORMERS_OFFLINE"), [0x31]),
     Field(Ascii("OMP_NUM_THREADS"), Decimal(Threads(cpuMillicores)))]
  }

  // ---- projections ------------------------------------------------------------------------------------------------

  function Decimal(n: nat): (t: Text) { if n < 10 then [0x30 + n] else Decimal(n / 10) + [0x30 + n % 10] }

  function Fixed(): (h: FixedHost) {
    FixedHost(
      Ascii("none"), true, false, [], [Ascii("ALL")],
      [Ascii("no-new-privileges=true"), Ascii("seccomp=builtin")], 0, 0,
      MASKED, READONLY, Ascii("none"), [], [], Ascii("private"), [],
      Ascii("no"), 0, false, 0, 0, 0, false, false, 0, false)
  }

  function Tmpfs(): (r: StringRecord) {
    [Field(Ascii("/tmp"), Ascii("rw,nosuid,nodev,noexec,size=67108864,mode=0700"))]
  }

  /** `commonHostConfig`. */
  function CommonHost(l: Limits, runtime: Runtime, files: nat, logType: LogType, log: StringRecord): (h: RawHost) {
    RawHost(Fixed(), l.pids, l.memory, l.memory, l.cpuMillicores * 1000000, RuntimeName(runtime), logType,
      Some(Sort(log)),
            Some(Tmpfs()), Ascii("nofile"), files, files, 64 * 1024 * 1024)
  }

  function BashLog(output: nat): (r: StringRecord) {
    [Field(Ascii("max-size"), Decimal(output)), Field(Ascii("max-file"), Ascii("1")),
      Field(Ascii("compress"), Ascii("false"))]
  }

  function WhisperProjection(m: Manifest, l: Limits, runtime: Runtime, root: Text): (e: Expected) {
    Expected(
      Whisper, m.imageId,
      RawConfig(m.imageReference, Ascii("65532:65532"), Some(Environment(m.env, Language() + Python(l.cpuMillicores))),
                Some(m.entrypoint), Some(m.cmd), m.workingDir, true, false, false, Some(m.labels), [],
                  Ascii("SIGTERM")),
      CommonHost(l, runtime, 256, LogNone, []), [Mount(root, Destination.Input, true)])
  }

  function BashProjection(m: Manifest, l: Limits, runtime: Runtime, root: Text, command: Text): (e: Expected) {
    Expected(
      LeaseBoundDockerBash, m.imageId,
      RawConfig(m.imageReference, Ascii("65532:65532"), Some(Environment(m.env, Language())),
                Some([Ascii("/bin/sh")]), Some([Ascii("-lc"), command]), Ascii("/work"), false, false, false,
                Some(m.labels), [], Ascii("SIGTERM")),
      CommonHost(l, runtime, 1024, LogLocal, BashLog(l.output)), [Mount(root, Work, false)])
  }

  function ProjectionOf(i: Input): (e: Expected) {
    match i
    case WhisperInput(m, l, runtime, root) => WhisperProjection(m, l, runtime, root)
    case BashInput(m, l, runtime, root, command) => BashProjection(m, l, runtime, root, command)
  }

  // ---- plans -------------------------------------------------------------------------------------------------------

  predicate ImageUsable(m: Manifest) { m.volumes == 0 && m.exposedPorts == 0 && m.onBuild == 0 }

  predicate Absolute(t: Text) { t != [] && t[0] == 0x2F }

  /** What each constructor itself demands. */
  predicate Constructible(i: Input) {
    && ImageUsable(i.manifest)
    && match i
       case WhisperInput(m, _, _, _) => m.entrypoint != [] && Absolute(m.entrypoint[0]) && Absolute(m.workingDir)
       case BashInput(_, _, _, _, c) => c != [] && NoNul(c) && Bytes(c) <= MAX_COMMAND_BYTES
  }

  /** The two constructors with `makePlan`: no plan without a projection that can be hashed. */
  function CreatePlan(i: Input): (r: Option<Expected>) {
    if Constructible(i) && HashOf(Expect(ProjectionOf(i))).Some? then Some(ProjectionOf(i)) else None
  }
}
