/**
 * Runs of many activations, recoveries and rollbacks, of any operations and skills, in any order and
 * each stopped after any durable write: no call has to complete before the next one starts.
 */
module SkillWalRuns {
  import opened Common
  import opened SkillWal

  datatype Call = Call(a: Activation, e: Event)

  function AfterCalls(f: Files, calls: seq<Call>): (r: Files)
    decreases |calls|
  {
    if calls == [] then f else AfterCalls(Happen(f, calls[0].a, calls[0].e), calls[1..])
  }

  function Listed(m: Option<Manifest>, n: Name): (r: Option<Entry>) {
    if m.Some? && n in m.value then Some(m.value[n]) else None
  }

  /** The entry that an activation of the skill asks for. */
  ghost predicate Requested(calls: seq<Call>, n: Name, entry: Entry) {
    exists c :: c in calls && c.a.name == n && entry == Entry(c.a.version, c.a.text, c.a.meta)
  }

  ghost predicate Named(calls: seq<Call>, n: Name) { exists c :: c in calls && c.a.name == n }

  /** Each entry is one of the start or a requested one, and no entry of the start is missing. */
  ghost predicate ManifestOk(m: Option<Manifest>, start: Files, calls: seq<Call>) {
    forall n :: Listed(m, n) == Listed(start.manifest, n) ||
      (Listed(m, n).Some? && Requested(calls, n, Listed(m, n).value))
  }

  /** The bytes of a skill are those of the start, those of a requested version, or none if there were none. */
  ghost predicate SkillOk(skill: Option<Content>, n: Name, start: Files, calls: seq<Call>) {
    skill == SkillOf(start, n) || (skill.Some? && exists c :: c in calls && c.a.name == n && c.a.text == skill.value)
  }

  ghost predicate LogOk(w: Wal, start: Files, calls: seq<Call>) {
    && ManifestOk(w.previousManifest, start, calls) && ManifestOk(Some(w.nextManifest), start, calls)
    && SkillOk(w.previousSkill, w.name, start, calls) && SkillOk(Some(w.nextSkill), w.name, start, calls)
  }

  ghost predicate FilesOk(f: Files, start: Files, calls: seq<Call>) {
    && ManifestOk(f.manifest, start, calls) && (f.wal.Some? ==> LogOk(f.wal.value, start, calls))
    && forall n :: SkillOk(SkillOf(f, n), n, start, calls)
  }

  ghost predicate WriteOk(w: Write, start: Files, calls: seq<Call>) {
    match w
    case PutWal(wal) => LogOk(wal, start, calls)
    case PutSkill(name, skill) => SkillOk(skill, name, start, calls)
    case PutManifest(m) => ManifestOk(m, start, calls)
  }

  lemma PerformOk(f: Files, w: Write, start: Files, calls: seq<Call>)
    requires FilesOk(f, start, calls) && WriteOk(w, start, calls)
    ensures FilesOk(Perform(f, w), start, calls)
  {
    hide ManifestOk, LogOk, SkillOk;
    var g := Perform(f, w);
    forall n ensures SkillOk(SkillOf(g, n), n, start, calls) {
      assert SkillOf(g, n) == if w.PutSkill? && n == w.name then w.skill else SkillOf(f, n);
    }
  }

  ghost predicate WritesOk(ws: seq<Write>, start: Files, calls: seq<Call>) {
    forall w :: w in ws ==> WriteOk(w, start, calls)
  }

  lemma {:induction false} PerformAllOk(f: Files, ws: seq<Write>, start: Files, calls: seq<Call>)
    requires FilesOk(f, start, calls) && WritesOk(ws, start, calls)
    ensures FilesOk(PerformAll(f, ws), start, calls)
    decreases |ws|
  {
    if ws != [] {
      assert ws[0] in ws;
      PerformOk(f, ws[0], start, calls);
      hide FilesOk, WriteOk, Perform;
      PerformAllOk(Perform(f, ws[0]), ws[1..], start, calls);
    }
  }

  lemma PublishOk(w: Wal, start: Files, calls: seq<Call>)
    requires LogOk(w, start, calls)
    ensures WritesOk(PublishWrites(w), start, calls)
  {
    hide ManifestOk, SkillOk;
  }

  lemma RestoreOk(w: Wal, start: Files, calls: seq<Call>)
    requires LogOk(w, start, calls)
    ensures WritesOk(Restore(w) + [PutWal(w.(phase := RolledBack))], start, calls)
  {
    hide ManifestOk, SkillOk;
  }

  lemma NewLogOk(f: Files, a: Activation, e: Event, start: Files, calls: seq<Call>)
    requires FilesOk(f, start, calls) && Call(a, e) in calls
    ensures LogOk(NewWal(f, a), start, calls)
  {
    var w := NewWal(f, a);
    var entry := Entry(a.version, a.text, a.meta);
    assert Requested(calls, a.name, entry);
    forall n ensures Listed(Some(w.nextManifest), n) == if n == a.name then Some(entry) else Listed(f.manifest, n) {}
    assert Call(a, e).a.name == a.name;
    hide Requested;
  }

  lemma ActivateOk(f: Files, a: Activation, e: Event, start: Files, calls: seq<Call>)
    requires FilesOk(f, start, calls) && Call(a, e) in calls
    ensures WritesOk(ActivateWrites(f, a), start, calls)
  {
    NewLogOk(f, a, e, start, calls);
    hide ManifestOk, SkillOk, LogOk, NewWal;
    if PrepareWrites(f, a).Some? {
      var p := PrepareWrites(f, a).value;
      assert WritesOk(p, start, calls);
      PerformAllOk(f, p, start, calls);
      var g := PerformAll(f, p);
      if g.wal.Some? {
        PublishOk(g.wal.value, start, calls);
        hide PublishWrites, WriteOk, PerformAll, PrepareWrites;
      }
    }
  }

  lemma UndoOk(f: Files, a: Activation, e: Event, start: Files, calls: seq<Call>)
    requires FilesOk(f, start, calls) && !e.Activate?
    ensures WritesOk(WritesOf(f, a, e), start, calls)
  {
    if f.wal.Some? {
      RestoreOk(f.wal.value, start, calls);
      assert forall phase :: LogOk(f.wal.value.(phase := phase), start, calls);
    }
    hide ManifestOk, SkillOk, LogOk;
  }

  lemma CallOk(f: Files, a: Activation, e: Event, start: Files, calls: seq<Call>)
    requires FilesOk(f, start, calls) && Call(a, e) in calls
    ensures FilesOk(Happen(f, a, e), start, calls)
  {
    if e.Activate? {
      ActivateOk(f, a, e, start, calls);
    } else {
      UndoOk(f, a, e, start, calls);
    }
    hide FilesOk, WriteOk, ActivateWrites, RecoveryWrites, RollbackWrites;
    var ws := WritesOf(f, a, e);
    PerformAllOk(f, if e.writes < |ws| then ws[..e.writes] else ws, start, calls);
  }

  lemma {:induction false} CallsOk(f: Files, more: seq<Call>, start: Files, calls: seq<Call>)
    requires FilesOk(f, start, calls) && forall c :: c in more ==> c in calls
    ensures FilesOk(AfterCalls(f, more), start, calls)
    decreases |more|
  {
    if more != [] {
      var c := more[0];
      assert Call(c.a, c.e) in calls;
      CallOk(f, c.a, c.e, start, calls);
      hide FilesOk, Happen;
      CallsOk(Happen(f, c.a, c.e), more[1..], start, calls);
    }
  }

  /**
   * From a store without a log, after any calls: the identity of a skill is the version and the text
   * of one request, or those it had at the start, or a refusal; a skill that was listed never becomes
   * absent; and a skill that no call names does not change.
   */
  lemma IdentityOverCalls(start: Files, calls: seq<Call>, n: Name)
    requires start.wal.None?
    ensures var i := Current(AfterCalls(start, calls), n);
      && (i.Absent? ==> Current(start, n) == Absent)
      && (i.Present? ==>
            || (Listed(start.manifest, n).Some? && Listed(start.manifest, n).value.version == i.version &&
                Listed(start.manifest, n).value.hash == i.text)
            || exists c :: c in calls && c.a.name == n && c.a.version == i.version && c.a.text == i.text)
      && (!Named(calls, n) ==> i == Current(start, n))
  {
    assert FilesOk(start, start, calls);
    CallsOk(start, calls, start, calls);
    var f := AfterCalls(start, calls);
    hide AfterCalls;
    assert SkillOk(SkillOf(f, n), n, start, calls);
    assert Listed(f.manifest, n) == Listed(start.manifest, n) ||
      (Listed(f.manifest, n).Some? && Requested(calls, n, Listed(f.manifest, n).value));
  }
}
