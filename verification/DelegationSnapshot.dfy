/**
 * The hash-sealed three-file snapshot of a delegation (packages/app/src/delegation-persistence.ts):
 * a shard with one JSON line per entry, a checkpoint, and a manifest, committed last, that carries
 * the digests of the other two. A digest is the text it digests; indentation is left out.
 */
module DelegationSnapshot {
  import opened Common
  import opened Texts
  import opened Canonical

  // ---- the line encoding --------------------------------------------------------------------------------

  /** Entries as lines, each closed by a newline. */
  function ShardText(entries: seq<Value>): (t: Text) {
    if entries == [] then [] else Print(entries[0]) + [NEWLINE] + ShardText(entries[1..])
  }

  function TrimEnd(t: Text): (r: Text)
    decreases |t|
  {
    if t != [] && Space(t[|t| - 1]) then TrimEnd(t[..|t| - 1]) else t
  }

  predicate Blank(t: Text) { forall u :: u in t ==> Space(u) }

  /** `split('\\n')`. */
  function Split(t: Text): (lines: seq<Text>)
    ensures lines != []
    decreases |t|
  {
    if t == [] then [[]]
    else
      var rest := Split(t[1..]);
      if t[0] == NEWLINE then [[]] + rest else [[t[0]] + rest[0]] + rest[1..]
  }

  /** `JSON.parse` on texts that `JSON.stringify` wrote: it gives back the value. */
  ghost function Parse(t: Text): (v: Option<Value>) {
    if v :| Print(v) == t then Some(v) else None
  }

  lemma ParsePrinted(v: Value)
    ensures Parse(Print(v)) == Some(v)
  {
    var w := Parse(Print(v)).value;
    assert Print(w) + [] == Print(v) + [];
    PrintDecodes(w, v, [], []);
  }

  ghost function ParseLines(lines: seq<Text>): (vs: Option<seq<Value>>) {
    if lines == [] then Some([])
    else
      var v, rest := Parse(lines[0]), ParseLines(lines[1..]);
      if v.None? || rest.None? then None else Some([v.value] + rest.value)
  }

  /** `parseShard`. */
  ghost function ParseShard(t: Text): (vs: Option<seq<Value>>) {
    if Blank(t) then Some([]) else ParseLines(Split(TrimEnd(t)))
  }

  function Lines(entries: seq<Value>): (lines: seq<Text>)
    ensures |lines| == |entries|
  {
    if entries == [] then [] else [Print(entries[0])] + Lines(entries[1..])
  }

  lemma {:induction false} SplitLine(line: Text, rest: Text)
    requires OneLine(line)
    ensures Split(line + [NEWLINE] + rest) == [line] + Split(rest)
    ensures Split(line) == [line]
    decreases |line|
  {
    if line == [] {
      assert line + [NEWLINE] + rest == [NEWLINE] + rest;
      assert ([NEWLINE] + rest)[1..] == rest;
    } else {
      var t := line + [NEWLINE] + rest;
      assert t[1..] == line[1..] + [NEWLINE] + rest && t[0] == line[0];
      SplitLine(line[1..], rest);
      assert line == [line[0]] + line[1..];
    }
  }

  /** The shard without its last newline. */
  function Body(entries: seq<Value>): (t: Text)
    requires entries != []
  {
    if |entries| == 1 then Print(entries[0]) else Print(entries[0]) + [NEWLINE] + Body(entries[1..])
  }

  lemma {:induction false} BodyFacts(entries: seq<Value>)
    requires entries != []
    ensures ShardText(entries) == Body(entries) + [NEWLINE]
    ensures Body(entries) != [] && !Space(Body(entries)[|Body(entries)| - 1])
    ensures Split(Body(entries)) == Lines(entries)
  {
    PrintEnds(entries[0]);
    PrintOneLine(entries[0]);
    hide Print;
    if |entries| == 1 {
      SplitLine(Print(entries[0]), []);
      assert ShardText(entries[1..]) == [];
      assert Lines(entries[1..]) == [];
    } else {
      BodyFacts(entries[1..]);
      SplitLine(Print(entries[0]), Body(entries[1..]));
    }
  }

  lemma {:induction false} ParseLinesBack(entries: seq<Value>)
    ensures ParseLines(Lines(entries)) == Some(entries)
  {
    if entries != [] {
      ParsePrinted(entries[0]);
      ParseLinesBack(entries[1..]);
      assert Lines(entries)[1..] == Lines(entries[1..]);
      assert entries == [entries[0]] + entries[1..];
    }
  }

  /** The line encoding loses nothing. */
  lemma ShardRoundTrip(entries: seq<Value>)
    ensures ParseShard(ShardText(entries)) == Some(entries)
  {
    if entries != [] {
      var b := Body(entries);
      var t := ShardText(entries);
      BodyFacts(entries);
      assert t[|b|] == NEWLINE && t[..|b|] == b;
      assert TrimEnd(t) == TrimEnd(b) == b;
      assert b[|b| - 1] == t[|b| - 1] && t[|b| - 1] in t;
      ParseLinesBack(entries);
    }
  }

  // ---- snapshots --------------------------------------------------------------------------------------------

  datatype Snapshot = Snapshot(entries: seq<Value>, checkpoint: Value, state: Value)

  datatype Manifest = Manifest(shardDigest: Text, checkpointDigest: Text, state: Value)

  datatype Files = Files(shard: Option<Text>, checkpoint: Option<Text>, manifest: Option<Manifest>,
      quarantine: Option<nat>)

  const EMPTY := Files(None, None, None, None)

  function CheckpointText(v: Value): (t: Text) { Print(v) + [NEWLINE] }

  function ManifestOf(s: Snapshot): (m: Manifest) {
    Manifest(ShardText(s.entries), CheckpointText(s.checkpoint), s.state)
  }

  /** `save`, stopped after `k` of its three atomic writes. */
  function Saved(f: Files, s: Snapshot, k: nat): (r: Files) {
    f.(shard := if k >= 1 then Some(ShardText(s.entries)) else f.shard,
       checkpoint := if k >= 2 then Some(CheckpointText(s.checkpoint)) else f.checkpoint,
       manifest := if k >= 3 then Some(ManifestOf(s)) else f.manifest)
  }

  datatype Loaded = Nothing | Whole(snapshot: Snapshot) | Torn | InQuarantine(reason: nat)

  ghost function ParseCheckpoint(t: Text): (v: Option<Value>) {
    if t != [] && t[|t| - 1] == NEWLINE then Parse(t[..|t| - 1]) else None
  }

  /** `load`. */
  ghost function Load(f: Files): (l: Loaded) {
    if f.quarantine.Some? then InQuarantine(f.quarantine.value)
    else if f.manifest.None? && f.shard.None? && f.checkpoint.None? then Nothing
    else if f.manifest.None? || f.shard.None? || f.checkpoint.None? then Torn
    else if f.manifest.value.shardDigest != f.shard.value || f.manifest.value.checkpointDigest != f.checkpoint.value
      then Torn
    else
      var entries, checkpoint := ParseShard(f.shard.value), ParseCheckpoint(f.checkpoint.value);
      if entries.None? || checkpoint.None? then Torn
      else Whole(Snapshot(entries.value, checkpoint.value, f.manifest.value.state))
  }

  /** The object that writes the files in order. */
  class Store {
    var files: Files

    constructor ()
      ensures files == EMPTY
    {
      files := EMPTY;
    }

    method Save(s: Snapshot)
      modifies this
      ensures files == Saved(old(files), s, 3)
    {
      files := files.(shard := Some(ShardText(s.entries)));
      files := files.(checkpoint := Some(CheckpointText(s.checkpoint)));
      files := files.(manifest := Some(Manifest(ShardText(s.entries), CheckpointText(s.checkpoint), s.state)));
    }

    method Quarantine(reason: nat)
      modifies this
      ensures files == old(files).(quarantine := Some(reason))
    {
      files := files.(quarantine := Some(reason));
    }
  }

  // ---- runs ---------------------------------------------------------------------------------------------------

  /** A save that stops after some of its writes, or a quarantine. */
  datatype Event = Save(snapshot: Snapshot, writes: nat) | Quarantine(reason: nat)

  function Happen(f: Files, e: Event): (r: Files) {
    match e
    case Save(s, k) => Saved(f, s, k)
    case Quarantine(reason) => f.(quarantine := Some(reason))
  }

  function After(f: Files, events: seq<Event>): (r: Files)
    decreases |events|
  {
    if events == [] then f else After(Happen(f, events[0]), events[1..])
  }

  /** The last snapshot whose manifest was committed. */
  function LastCommitted(events: seq<Event>): (s: Option<Snapshot>) {
    if events == [] then None
    else
      var e := events[|events| - 1];
      if e.Save? && e.writes >= 3 then Some(e.snapshot) else LastCommitted(events[..|events| - 1])
  }

  predicate Quarantines(events: seq<Event>) { exists e :: e in events && e.Quarantine? }

  lemma {:induction false} AfterLast(f: Files, events: seq<Event>)
    requires events != []
    ensures After(f, events) == Happen(After(f, events[..|events| - 1]), events[|events| - 1])
    decreases |events|
  {
    var n := |events| - 1;
    if n == 0 {
      assert events[1..] == [] && events[..0] == [];
    } else {
      AfterLast(Happen(f, events[0]), events[1..]);
      assert events[1..][..n - 1] == events[..n][1..];
    }
  }

  lemma {:induction false} ManifestIsLast(events: seq<Event>)
    ensures var f := After(EMPTY, events);
      && f.manifest == (if LastCommitted(events).Some? then Some(ManifestOf(LastCommitted(events).value)) else None)
      && (f.quarantine.Some? <==> Quarantines(events))
      && (f.manifest.Some? ==> f.shard.Some? && f.checkpoint.Some?)
    decreases |events|
  {
    if events != [] {
      AfterLast(EMPTY, events);
      var n := |events| - 1;
      ManifestIsLast(events[..n]);
      assert events == events[..n] + [events[n]];
    }
  }

  /** The files that a committed snapshot wrote. */
  ghost predicate Intact(f: Files, s: Snapshot) {
    f.shard == Some(ShardText(s.entries)) && f.checkpoint == Some(CheckpointText(s.checkpoint))
  }

  lemma LoadsBack(f: Files, s: Snapshot)
    requires f.quarantine.None? && f.manifest == Some(ManifestOf(s)) && Intact(f, s)
    ensures Load(f) == Whole(s)
  {
    ShardRoundTrip(s.entries);
    var t := CheckpointText(s.checkpoint);
    assert t[|t| - 1] == NEWLINE && t[..|t| - 1] == Print(s.checkpoint);
    ParsePrinted(s.checkpoint);
  }

  /**
   * Torn-snapshot detection: after any completed and interrupted saves, `load` gives exactly the last
   * snapshot whose manifest was committed, if its two other files are still the ones it sealed;
   * otherwise it reports the tear. Nothing else can be loaded.
   */
  lemma LoadIsLastCommitted(events: seq<Event>)
    requires !Quarantines(events)
    ensures var f := After(EMPTY, events);
      match LastCommitted(events)
      case None => Load(f) in {Nothing, Torn}
      case Some(s) => Load(f) == if Intact(f, s) then Whole(s) else Torn
  {
    ManifestIsLast(events);
    var f := After(EMPTY, events);
    if LastCommitted(events).Some? && Intact(f, LastCommitted(events).value) {
      LoadsBack(f, LastCommitted(events).value);
    }
  }

  /** A completed save is what the next load returns. */
  lemma CompletedSaveLoads(events: seq<Event>, s: Snapshot)
    requires !Quarantines(events)
    ensures Load(After(EMPTY, events + [Save(s, 3)])) == Whole(s)
  {
    var all := events + [Save(s, 3)];
    AfterLast(EMPTY, all);
    assert all[..|all| - 1] == events;
    ManifestIsLast(events);
    LoadsBack(After(EMPTY, all), s);
  }

  /** Quarantine is permanent. */
  lemma QuarantineIsPermanent(events: seq<Event>)
    requires Quarantines(events)
    ensures Load(After(EMPTY, events)).InQuarantine?
  {
    ManifestIsLast(events);
  }
}
