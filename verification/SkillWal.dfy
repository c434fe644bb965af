/**
 * The write-ahead log around the two files of a skill activation
 * (packages/app/src/active-skill-store.ts). Activation, startup recovery and rollback are each a list
 * of durable writes computed from the files; a crash or an exception applies only a prefix.
 * A digest is the text it digests, and every write is atomic.
 */
module SkillWal {
  import opened Common

  type Name = nat
  type Content = nat

  datatype Entry = Entry(version: nat, hash: Content, meta: nat)
  type Manifest = map<Name, Entry>

  datatype Phase = Prepared | SkillWritten | ManifestWritten | Committed | RolledBack

  datatype Wal = Wal(
    operation: nat, phase: Phase, name: Name,
    previousManifest: Option<Manifest>, previousSkill: Option<Content>,
    nextManifest: Manifest, nextSkill: Content)

  datatype Files = Files(wal: Option<Wal>, skills: map<Name, Content>, manifest: Option<Manifest>)

  /** An activation request; `base` is the identity it replaces. */
  datatype Activation = Activation(
    operation: nat, name: Name, version: nat, text: Content, meta: nat, base: Option<(nat, Content)>)

  // ---- durable writes -------------------------------------------------------------------------------------

  datatype Write =
    | PutWal(wal: Wal)
    | PutSkill(name: Name, skill: Option<Content>)
    | PutManifest(manifest: Option<Manifest>)

  function Perform(f: Files, w: Write): (r: Files) {
    match w
    case PutWal(wal) => f.(wal := Some(wal))
    case PutSkill(name, skill) => f.(skills := if skill.Some? then f.skills[name := skill.value] else f.skills - {name})
    case PutManifest(m) => f.(manifest := m)
  }

  function PerformAll(f: Files, ws: seq<Write>): (r: Files)
    decreases |ws|
  {
    if ws == [] then f else PerformAll(Perform(f, ws[0]), ws[1..])
  }

  function SkillOf(f: Files, name: Name): (s: Option<Content>) {
    if name in f.skills then Some(f.skills[name]) else None
  }

  // ---- identities ------------------------------------------------------------------------------------------

  datatype Identity = Absent | Present(version: nat, text: Content) | Refused

  /** `currentIdentity`: the manifest's entry, if the skill file carries the bytes it names. */
  function Current(f: Files, name: Name): (i: Identity) {
    if f.manifest.None? || name !in f.manifest.value then Absent
    else if name !in f.skills || f.skills[name] != f.manifest.value[name].hash then Refused
    else Present(f.manifest.value[name].version, f.skills[name])
  }

  // ---- what the log owns -------------------------------------------------------------------------------------

  predicate MatchesPrevious(f: Files, w: Wal) {
    SkillOf(f, w.name) == w.previousSkill && f.manifest == w.previousManifest
  }

  predicate OwnsSkillWritten(f: Files, w: Wal) {
    SkillOf(f, w.name) == Some(w.nextSkill) && f.manifest == w.previousManifest
  }

  predicate OwnsManifestWritten(f: Files, w: Wal) {
    SkillOf(f, w.name) == Some(w.nextSkill) && f.manifest == Some(w.nextManifest)
  }

  function Restore(w: Wal): (ws: seq<Write>) { [PutSkill(w.name, w.previousSkill), PutManifest(w.previousManifest)] }

  // ---- activation ---------------------------------------------------------------------------------------------

  predicate SameActivation(w: Wal, a: Activation) {
    && w.name == a.name && w.nextSkill == a.text
    && a.name in w.nextManifest && w.nextManifest[a.name] == Entry(a.version, a.text, a.meta)
  }

  predicate BaseMatches(f: Files, a: Activation) {
    if a.base.None? then Current(f, a.name) == Absent && a.name !in f.skills
    else Current(f, a.name) == Present(a.base.value.0, a.base.value.1)
  }

  function NewWal(f: Files, a: Activation): (w: Wal) {
    var base := if f.manifest.Some? then f.manifest.value else map[];
    Wal(a.operation, Prepared, a.name, f.manifest, SkillOf(f, a.name),
      base[a.name := Entry(a.version, a.text, a.meta)], a.text)
  }

  /** `prepareActivation`: the writes it makes, or none if it refuses. */
  function PrepareWrites(f: Files, a: Activation): (r: Option<seq<Write>>) {
    if f.wal.Some? && f.wal.value.operation == a.operation && f.wal.value.phase != RolledBack then
      if SameActivation(f.wal.value, a) then Some([]) else None
    else if f.wal.Some? && f.wal.value.phase !in {RolledBack, Committed} then None
    else if BaseMatches(f, a) then Some([PutWal(NewWal(f, a))])
    else None
  }

  predicate MayPublish(f: Files, w: Wal) {
    match w.phase
    case Prepared => MatchesPrevious(f, w)
    case SkillWritten => OwnsSkillWritten(f, w)
    case ManifestWritten => OwnsManifestWritten(f, w)
    case _ => false
  }

  function PublishWrites(w: Wal): (ws: seq<Write>) {
    [PutSkill(w.name, Some(w.nextSkill)), PutWal(w.(phase := SkillWritten)), PutManifest(Some(w.nextManifest)),
     PutWal(w.(phase := ManifestWritten)), PutWal(w.(phase := Committed))]
  }

  /** `activateSkill`. */
  function ActivateWrites(f: Files, a: Activation): (ws: seq<Write>) {
    var prepare := PrepareWrites(f, a);
    if prepare.None? then []
    else
      var g := PerformAll(f, prepare.value);
      if g.wal.Some? && MayPublish(g, g.wal.value) then prepare.value + PublishWrites(g.wal.value) else prepare.value
  }

  // ---- recovery and rollback ------------------------------------------------------------------------------------

  /** What opening the store does with the log it finds. */
  function RecoveryWrites(f: Files): (ws: seq<Write>) {
    if f.wal.None? then []
    else
      var w := f.wal.value;
      var undone := PutWal(w.(phase := RolledBack));
      match w.phase
      case Prepared => [undone]
      case SkillWritten => if OwnsSkillWritten(f, w) then Restore(w) + [undone] else [undone]
      case ManifestWritten => [PutWal(w.(phase := if OwnsManifestWritten(f, w) then Committed else RolledBack))]
      case _ => []
  }

  function RollbackWrites(f: Files, operation: nat): (ws: seq<Write>) {
    if f.wal.None? || f.wal.value.operation != operation then []
    else
      var w := f.wal.value;
      var undone := PutWal(w.(phase := RolledBack));
      match w.phase
      case RolledBack => []
      case Prepared => [undone]
      case SkillWritten => if OwnsSkillWritten(f, w) then Restore(w) + [undone] else []
      case _ => if OwnsManifestWritten(f, w) then Restore(w) + [undone] else []
  }

  // ---- runs --------------------------------------------------------------------------------------------------------

  /** A call that stops after `writes` durable writes; more than it makes means it completes. */
  datatype Event = Activate(writes: nat) | Recover(writes: nat) | Rollback(writes: nat)

  function WritesOf(f: Files, a: Activation, e: Event): (ws: seq<Write>) {
    match e
    case Activate(_) => ActivateWrites(f, a)
    case Recover(_) => RecoveryWrites(f)
    case Rollback(_) => RollbackWrites(f, a.operation)
  }

  function Happen(f: Files, a: Activation, e: Event): (r: Files) {
    var ws := WritesOf(f, a, e);
    PerformAll(f, if e.writes < |ws| then ws[..e.writes] else ws)
  }

  function After(f: Files, a: Activation, events: seq<Event>): (r: Files)
    decreases |events|
  {
    if events == [] then f else After(Happen(f, a, events[0]), a, events[1..])
  }
}
