/**
 * What the skill and manifest files can be after any sequence of activations, recoveries and
 * rollbacks that stop after any durable write.
 */
module SkillWalProofs {
  import opened Common
  import opened SkillWal

  // ---- prefixes of the write lists ------------------------------------------------------------------------

  function WithSkill(f: Files, name: Name, skill: Option<Content>): (r: Files) { Perform(f, PutSkill(name, skill)) }

  /** The files after `k` writes of a publication. */
  function Publishing(f: Files, w: Wal, k: nat): (r: Files) {
    var g := if k >= 1 then WithSkill(f, w.name, Some(w.nextSkill)) else f;
    Files(if k >= 5 then Some(w.(phase := Committed)) else if k >= 4 then Some(w.(phase := ManifestWritten))
          else if k >= 2 then Some(w.(phase := SkillWritten)) else f.wal,
          g.skills, if k >= 3 then Some(w.nextManifest) else f.manifest)
  }

  /** The files after `k` writes of a restore that ends with the log rolled back. */
  function Restoring(f: Files, w: Wal, k: nat): (r: Files) {
    var g := if k >= 1 then WithSkill(f, w.name, w.previousSkill) else f;
    Files(if k >= 3 then Some(w.(phase := RolledBack)) else f.wal,
          g.skills, if k >= 2 then w.previousManifest else f.manifest)
  }

  lemma {:induction false} PerformMore(f: Files, ws: seq<Write>, k: nat)
    requires k < |ws|
    ensures PerformAll(f, ws[..k + 1]) == Perform(PerformAll(f, ws[..k]), ws[k])
    decreases |ws|
  {
    if k == 0 {
      assert ws[..1][1..] == [] && ws[..0] == [];
    } else {
      PerformMore(Perform(f, ws[0]), ws[1..], k - 1);
      assert ws[..k + 1][1..] == ws[1..][..k] && ws[..k][1..] == ws[1..][..k - 1];
    }
  }

  lemma PerformOne(f: Files, w: Write)
    ensures PerformAll(f, [w]) == Perform(f, w)
  {
    assert [w][1..] == [];
  }

  lemma {:induction false} PublishPrefix(f: Files, w: Wal, k: nat)
    requires k <= 5
    ensures PerformAll(f, PublishWrites(w)[..k]) == Publishing(f, w, k)
  {
    if k > 0 {
      PublishPrefix(f, w, k - 1);
      PerformMore(f, PublishWrites(w), k - 1);
    }
  }

  lemma {:induction false} RestorePrefix(f: Files, w: Wal, k: nat)
    requires k <= 3
    ensures PerformAll(f, (Restore(w) + [PutWal(w.(phase := RolledBack))])[..k]) == Restoring(f, w, k)
  {
    if k > 0 {
      RestorePrefix(f, w, k - 1);
      PerformMore(f, Restore(w) + [PutWal(w.(phase := RolledBack))], k - 1);
    }
  }

  lemma {:induction false} PerformAppend(f: Files, a: seq<Write>, b: seq<Write>)
    ensures PerformAll(f, a + b) == PerformAll(PerformAll(f, a), b)
    decreases |a|
  {
    if a == [] {
      assert a + b == b;
    } else {
      assert (a + b)[1..] == a[1..] + b;
      PerformAppend(Perform(f, a[0]), a[1..], b);
    }
  }

  // ---- the two pairs of contents -----------------------------------------------------------------------------

  ghost predicate Settled(start: Files, a: Activation) {
    start.wal.Some? ==> start.wal.value.operation != a.operation && start.wal.value.phase in {RolledBack, Committed}
  }

  function NextManifest(start: Files, a: Activation): (m: Manifest) { NewWal(start, a).nextManifest }

  predicate OldSkill(f: Files, start: Files, a: Activation) { SkillOf(f, a.name) == SkillOf(start, a.name) }
  predicate NewSkill(f: Files, a: Activation) { SkillOf(f, a.name) == Some(a.text) }
  predicate OldManifest(f: Files, start: Files) { f.manifest == start.manifest }
  predicate NewManifest(f: Files, start: Files, a: Activation) { f.manifest == Some(NextManifest(start, a)) }

  predicate OldPair(f: Files, start: Files, a: Activation) { OldSkill(f, start, a) && OldManifest(f, start) }
  predicate NewPair(f: Files, start: Files, a: Activation) { NewSkill(f, a) && NewManifest(f, start, a) }

  predicate PreviousIsOld(w: Wal, start: Files, a: Activation) {
    w.previousSkill == SkillOf(start, a.name) && w.previousManifest == start.manifest
  }

  predicate PreviousIsNew(w: Wal, start: Files, a: Activation) {
    w.previousSkill == Some(a.text) && w.previousManifest == Some(NextManifest(start, a))
  }

  /** The log of this operation. */
  predicate OwnLog(w: Wal, start: Files, a: Activation) {
    && w.operation == a.operation && w.name == a.name && w.nextSkill == a.text &&
      w.nextManifest == NextManifest(start, a)
    && (PreviousIsOld(w, start, a) || PreviousIsNew(w, start, a))
  }

  /** The skills of other names are never touched. */
  predicate OthersKept(f: Files, start: Files, a: Activation) { f.skills - {a.name} == start.skills - {a.name} }

  /** Either nothing has happened, or the log is this operation's and each file has an old or a new content. */
  ghost predicate WalInv(f: Files, start: Files, a: Activation) {
    && OthersKept(f, start, a)
    && (OldSkill(f, start, a) || NewSkill(f, a)) && (OldManifest(f, start) || NewManifest(f, start, a))
    && ((f.wal == start.wal && OldPair(f, start, a)) ||
      (BaseMatches(start, a) && f.wal.Some? && OwnLog(f.wal.value, start, a)))
  }

  predicate Mine(f: Files, start: Files, a: Activation) {
    BaseMatches(start, a) && f.wal.Some? && OwnLog(f.wal.value, start, a)
  }

  lemma SkillWritten1(f: Files, start: Files, a: Activation, skill: Option<Content>)
    requires OthersKept(f, start, a)
    ensures OthersKept(WithSkill(f, a.name, skill), start, a) && SkillOf(WithSkill(f, a.name, skill), a.name) == skill
  {
    assert WithSkill(f, a.name, skill).skills - {a.name} == f.skills - {a.name};
  }

  lemma PublishingKeeps(f: Files, start: Files, a: Activation, k: nat)
    requires WalInv(f, start, a) && Mine(f, start, a)
    ensures WalInv(Publishing(f, f.wal.value, k), start, a)
  {
    SkillWritten1(f, start, a, Some(a.text));
  }

  lemma RestoringKeeps(f: Files, start: Files, a: Activation, k: nat)
    requires WalInv(f, start, a) && Mine(f, start, a)
    ensures WalInv(Restoring(f, f.wal.value, k), start, a)
  {
    SkillWritten1(f, start, a, f.wal.value.previousSkill);
  }

  /** A new log is started only from the old contents, or from the new ones. */
  lemma PrepareKeeps(f: Files, start: Files, a: Activation)
    requires WalInv(f, start, a) && BaseMatches(f, a) && BaseMatches(start, a)
    ensures OwnLog(NewWal(f, a), start, a)
    ensures if PreviousIsOld(NewWal(f, a), start, a) then OldPair(f, start, a) else NewPair(f, start, a)
  {
    if OldManifest(f, start) {
      assert OldSkill(f, start, a);
    } else {
      assert NewSkill(f, a);
      assert NextManifest(start, a)[a.name := Entry(a.version, a.text, a.meta)] == NextManifest(start, a);
    }
  }

  /** How far a call got. */
  function Stop(e: Event, ws: seq<Write>): (k: nat)
    ensures k <= |ws|
  {
    if e.writes < |ws| then e.writes else |ws|
  }

  lemma HappenIs(f: Files, a: Activation, e: Event)
    ensures var ws := WritesOf(f, a, e); Happen(f, a, e) == PerformAll(f, ws[..Stop(e, ws)])
  {
    var ws := WritesOf(f, a, e);
    assert ws[..|ws|] == ws;
  }

  /** Starting from the untouched files, nothing but an accepted preparation writes. */
  lemma UntouchedWrites(f: Files, start: Files, a: Activation)
    requires Settled(start, a) && f.wal == start.wal
    ensures RecoveryWrites(f) == [] && RollbackWrites(f, a.operation) == []
    ensures PrepareWrites(f, a).Some? ==> PrepareWrites(f, a).value == [PutWal(NewWal(f, a))] && BaseMatches(f, a)
  {}

  lemma SameBase(f: Files, start: Files, a: Activation)
    requires WalInv(f, start, a) && f.wal == start.wal && OldPair(f, start, a)
    ensures BaseMatches(f, a) <==> BaseMatches(start, a)
  {
    assert SkillOf(f, a.name) == SkillOf(start, a.name);
  }

  /** The first write of a preparation. */
  lemma PreparedIs(f: Files, start: Files, a: Activation)
    requires Settled(start, a) && WalInv(f, start, a) && PrepareWrites(f, a).Some?
    ensures var g := PerformAll(f, PrepareWrites(f, a).value);
      && WalInv(g, start, a) && Mine(g, start, a)
      && |PrepareWrites(f, a).value| <= 1
      && (PrepareWrites(f, a).value == [] ==> g == f)
      && (PrepareWrites(f, a).value != [] ==>
            && g == f.(wal := Some(NewWal(f, a))) && BaseMatches(f, a)
            && (if PreviousIsOld(g.wal.value, start, a) then OldPair(g, start, a) else NewPair(g, start, a)))
  {
    var p := PrepareWrites(f, a).value;
    if f.wal == start.wal && OldPair(f, start, a) && !Mine(f, start, a) {
      UntouchedWrites(f, start, a);
      SameBase(f, start, a);
    }
    if p != [] {
      assert p == [PutWal(NewWal(f, a))] && p[1..] == [];
      PrepareKeeps(f, start, a);
    }
  }

  lemma ActivatePrefix(f: Files, start: Files, a: Activation, k: nat)
    requires Settled(start, a) && WalInv(f, start, a) && k <= |ActivateWrites(f, a)|
    ensures var r := PerformAll(f, ActivateWrites(f, a)[..k]);
      || r == f
      || (PrepareWrites(f, a).Some? &&
          var g := PerformAll(f, PrepareWrites(f, a).value);
          r == g || (k > |PrepareWrites(f, a).value| && MayPublish(g, g.wal.value) &&
                     r == Publishing(g, g.wal.value, k - |PrepareWrites(f, a).value|)))
  {
    var ws := ActivateWrites(f, a);
    if PrepareWrites(f, a).Some? {
      PreparedIs(f, start, a);
      var p := PrepareWrites(f, a).value;
      var g := PerformAll(f, p);
      if k <= |p| {
        assert ws[..k] == p[..k];
        assert k == |p| ==> p[..k] == p;
        assert k == 0 ==> p[..k] == [];
      } else {
        assert ws == p + PublishWrites(g.wal.value);
        assert ws[..k] == p + PublishWrites(g.wal.value)[..k - |p|];
        PerformAppend(f, p, PublishWrites(g.wal.value)[..k - |p|]);
        PublishPrefix(g, g.wal.value, k - |p|);
      }
    }
  }

  /** A recovery or a rollback changes the log only, or restores. */
  lemma UndoPrefix(f: Files, start: Files, a: Activation, e: Event, k: nat)
    requires Settled(start, a) && WalInv(f, start, a) && !e.Activate? && k <= |WritesOf(f, a, e)|
    ensures var r := PerformAll(f, WritesOf(f, a, e)[..k]);
      || r == f
      || (Mine(f, start, a) && r.wal.Some? && r == f.(wal := Some(f.wal.value.(phase := r.wal.value.phase))) &&
        r.wal.value.phase in {RolledBack, Committed}
          && (e.Recover? && f.wal.value.phase == SkillWritten ==>
            r.wal.value.phase == RolledBack && !OwnsSkillWritten(f, f.wal.value))
          && (r.wal.value.phase == Committed ==> OwnsManifestWritten(f, f.wal.value))
          && (e.Rollback? ==> f.wal.value.phase == Prepared))
      || (Mine(f, start, a) && k > 0 && r == Restoring(f, f.wal.value, k) &&
        f.wal.value.phase !in {Prepared, RolledBack}
          && (if f.wal.value.phase == SkillWritten then OwnsSkillWritten(f, f.wal.value)
            else e.Rollback? && OwnsManifestWritten(f, f.wal.value)))
  {
    var ws := WritesOf(f, a, e);
    if !Mine(f, start, a) {
      UntouchedWrites(f, start, a);
      assert ws[..k] == [];
    } else {
      var w := f.wal.value;
      if |ws| == 3 {
        assert ws == Restore(w) + [PutWal(w.(phase := RolledBack))];
        RestorePrefix(f, w, k);
        assert k == 0 ==> ws[..k] == [];
      } else if |ws| == 1 {
        assert ws[..k] == if k == 0 then [] else ws;
        assert ws[1..] == [];
      } else {
        assert ws == [] && ws[..k] == [];
      }
    }
  }

  lemma HappenKeeps(f: Files, start: Files, a: Activation, e: Event)
    requires Settled(start, a) && WalInv(f, start, a)
    ensures WalInv(Happen(f, a, e), start, a)
  {
    HappenIs(f, a, e);
    var k := Stop(e, WritesOf(f, a, e));
    if e.Activate? {
      ActivatePrefix(f, start, a, k);
      if PrepareWrites(f, a).Some? {
        PreparedIs(f, start, a);
        if k > |PrepareWrites(f, a).value| {
          PublishingKeeps(PerformAll(f, PrepareWrites(f, a).value), start, a, k - |PrepareWrites(f, a).value|);
        }
      }
    } else {
      UndoPrefix(f, start, a, e, k);
      if Mine(f, start, a) {
        RestoringKeeps(f, start, a, k);
      }
    }
  }

  lemma {:induction false} RunKeeps(f: Files, start: Files, a: Activation, events: seq<Event>)
    requires Settled(start, a) && WalInv(f, start, a)
    ensures WalInv(After(f, a, events), start, a)
    decreases |events|
  {
    if events != [] {
      HappenKeeps(f, start, a, events[0]);
      hide WalInv, Happen;
      RunKeeps(Happen(f, a, events[0]), start, a, events[1..]);
    }
  }

  // ---- theorems ---------------------------------------------------------------------------------------------------

  /**
   * Whatever is interrupted, the current identity is the old one, the new one or a refusal, never a
   * version of one with the text of the other; and no other skill changes.
   */
  lemma IdentityIsNeverMixed(start: Files, a: Activation, events: seq<Event>)
    requires Settled(start, a)
    ensures Current(After(start, a, events), a.name) in {Current(start, a.name), Present(a.version, a.text), Refused}
    ensures forall n :: n != a.name ==> Current(After(start, a, events), n) == Current(start, n)
  {
    RunKeeps(start, start, a, events);
    var f := After(start, a, events);
    hide After;
    IdentityFrom(f, start, a);
    forall n | n != a.name ensures Current(f, n) == Current(start, n) {
      assert n in f.skills <==> n in f.skills - {a.name};
      assert n in start.skills <==> n in start.skills - {a.name};
      assert n in f.skills ==> f.skills[n] == (f.skills - {a.name})[n];
    }
  }

  lemma IdentityFrom(f: Files, start: Files, a: Activation)
    requires WalInv(f, start, a)
    ensures Current(f, a.name) in {Current(start, a.name), Present(a.version, a.text), Refused}
  {
    if OldManifest(f, start) && !OldSkill(f, start, a) {
      assert BaseMatches(start, a);
    }
  }

  // ---- torn pairs -------------------------------------------------------------------------------------------

  /**
   * The call stops right after it wrote other bytes into the skill file, and the log does not say so:
   * recovery knows of the bytes only from a log in phase `SkillWritten`.
   */
  predicate Tears(f: Files, a: Activation, e: Event) {
    var ws := WritesOf(f, a, e);
    && 0 < e.writes < |ws| && ws[e.writes - 1].PutSkill? && ws[e.writes - 1].skill != SkillOf(f, a.name)
    && match e
       case Activate(_) => true
       case Recover(_) => false
       case Rollback(_) => f.wal.Some? && f.wal.value.phase != SkillWritten
  }

  predicate NoTear(f: Files, a: Activation, events: seq<Event>)
    decreases |events|
  {
    events != [] ==> !Tears(f, a, events[0]) && NoTear(Happen(f, a, events[0]), a, events[1..])
  }

  /** What each phase of the log says about the files. */
  predicate PhasePair(f: Files, start: Files, a: Activation, phase: Phase) {
    match phase
    case Prepared => OldPair(f, start, a)
    case SkillWritten => (NewSkill(f, a) && OldManifest(f, start)) || NewPair(f, start, a) || OldPair(f, start, a)
    case _ => NewPair(f, start, a) || OldPair(f, start, a)
  }

  ghost predicate PhaseInv(f: Files, start: Files, a: Activation) {
    && WalInv(f, start, a)
    && (Mine(f, start, a) ==>
          if PreviousIsOld(f.wal.value, start, a) then PhasePair(f, start, a, f.wal.value.phase)
            else NewPair(f, start, a))
    && (!Mine(f, start, a) ==> OldPair(f, start, a))
  }

  /** Writing the bytes that are already there changes nothing. */
  lemma SameSkill(f: Files, name: Name, skill: Option<Content>)
    requires SkillOf(f, name) == skill
    ensures WithSkill(f, name, skill) == f
  {
    assert WithSkill(f, name, skill).skills == f.skills;
  }

  lemma PublishingPhase(g: Files, start: Files, a: Activation, j: nat)
    requires PhaseInv(g, start, a) && Mine(g, start, a) && MayPublish(g, g.wal.value)
    requires j == 1 ==> NewSkill(g, a)
    ensures PhaseInv(Publishing(g, g.wal.value, j), start, a)
  {
    if j == 1 {
      SameSkill(g, a.name, Some(a.text));
    }
    PublishingKeeps(g, start, a, j);
    SkillWritten1(g, start, a, Some(a.text));
  }

  lemma RestoringPhase(f: Files, start: Files, a: Activation, k: nat)
    requires PhaseInv(f, start, a) && Mine(f, start, a) && k > 0
    requires var w := f.wal.value;
      if w.phase == SkillWritten then OwnsSkillWritten(f, w)
      else (w.phase in {ManifestWritten, Committed} && OwnsManifestWritten(f, w) &&
            (k == 1 ==> SkillOf(f, a.name) == w.previousSkill))
    ensures PhaseInv(Restoring(f, f.wal.value, k), start, a)
  {
    if f.wal.value.phase != SkillWritten && k == 1 {
      SameSkill(f, a.name, f.wal.value.previousSkill);
    }
    RestoringKeeps(f, start, a, k);
    SkillWritten1(f, start, a, f.wal.value.previousSkill);
  }

  lemma PreparedPhase(f: Files, start: Files, a: Activation)
    requires Settled(start, a) && PhaseInv(f, start, a) && PrepareWrites(f, a).Some?
    ensures PhaseInv(PerformAll(f, PrepareWrites(f, a).value), start, a)
  {
    PreparedIs(f, start, a);
  }

  lemma ActivatePhase(f: Files, start: Files, a: Activation, e: Event)
    requires Settled(start, a) && PhaseInv(f, start, a) && e.Activate? && !Tears(f, a, e)
    ensures PhaseInv(Happen(f, a, e), start, a)
  {
    HappenIs(f, a, e);
    var ws := WritesOf(f, a, e);
    var k := Stop(e, ws);
    ActivatePrefix(f, start, a, k);
    if PrepareWrites(f, a).Some? {
      var p := PrepareWrites(f, a).value;
      var g := PerformAll(f, p);
      PreparedIs(f, start, a);
      PreparedPhase(f, start, a);
      if k > |p| && MayPublish(g, g.wal.value) {
        assert ws == p + PublishWrites(g.wal.value);
        assert ws[|p|] == PutSkill(a.name, Some(a.text)) && |ws| == |p| + 5;
        assert SkillOf(g, a.name) == SkillOf(f, a.name);
        PublishingPhase(g, start, a, k - |p|);
      }
    }
  }

  lemma UndoPhase(f: Files, start: Files, a: Activation, e: Event)
    requires Settled(start, a) && PhaseInv(f, start, a) && !e.Activate? && !Tears(f, a, e)
    ensures PhaseInv(Happen(f, a, e), start, a)
  {
    HappenIs(f, a, e);
    var ws := WritesOf(f, a, e);
    var k := Stop(e, ws);
    UndoPrefix(f, start, a, e, k);
    if Mine(f, start, a) {
      var w, r := f.wal.value, PerformAll(f, ws[..k]);
      if k > 0 && r == Restoring(f, w, k) && w.phase !in {Prepared, RolledBack} &&
         (if w.phase == SkillWritten then OwnsSkillWritten(f, w) else e.Rollback? && OwnsManifestWritten(f, w)) {
        if w.phase != SkillWritten {
          assert ws == Restore(w) + [PutWal(w.(phase := RolledBack))] && ws[0] == PutSkill(a.name, w.previousSkill);
        }
        RestoringPhase(f, start, a, k);
      } else {
        HappenKeeps(f, start, a, e);
      }
    }
  }

  lemma {:induction false} RunPhase(f: Files, start: Files, a: Activation, events: seq<Event>)
    requires Settled(start, a) && PhaseInv(f, start, a) && NoTear(f, a, events)
    ensures PhaseInv(After(f, a, events), start, a)
    decreases |events|
  {
    if events != [] {
      if events[0].Activate? {
        ActivatePhase(f, start, a, events[0]);
      } else {
        UndoPhase(f, start, a, events[0]);
      }
      hide PhaseInv, Happen, Tears;
      RunPhase(Happen(f, a, events[0]), start, a, events[1..]);
    }
  }

  /** A recovery that is not interrupted. */
  function Recovered(f: Files): (r: Files) { PerformAll(f, RecoveryWrites(f)) }

  lemma RecoveredIs(f: Files, start: Files, a: Activation)
    requires Settled(start, a) && PhaseInv(f, start, a)
    ensures PhaseInv(Recovered(f), start, a)
    ensures Recovered(f).wal.Some? ==> Recovered(f).wal.value.phase in {RolledBack, Committed}
  {
    var ws := RecoveryWrites(f);
    var e := Recover(|ws|);
    HappenIs(f, a, e);
    assert ws[..|ws|] == ws;
    UndoPhase(f, start, a, e);
    if |ws| == 3 {
      RestorePrefix(f, f.wal.value, 3);
    } else if |ws| == 1 {
      assert ws[1..] == [];
    }
  }

  predicate Whole(f: Files, start: Files, a: Activation) { OldPair(f, start, a) || NewPair(f, start, a) }

  /**
   * If no call tears, an activation interrupted at any durable write and recovered, however often
   * the recovery is interrupted itself, leaves both files old or both files new.
   */
  lemma RecoveryIsAtomic(start: Files, a: Activation, events: seq<Event>)
    requires Settled(start, a) && NoTear(start, a, events)
    ensures Whole(Recovered(After(start, a, events)), start, a)
  {
    assert PhaseInv(start, start, a) by { StartPhase(start, a); }
    RunPhase(start, start, a, events);
    RecoveredIs(After(start, a, events), start, a);
  }

  lemma StartPhase(start: Files, a: Activation)
    requires Settled(start, a)
    ensures PhaseInv(start, start, a)
  {}

  /** Where the old files differ from the new ones in the skill, they differ in the manifest. */
  lemma BothDiffer(start: Files, a: Activation)
    requires BaseMatches(start, a) && SkillOf(start, a.name) != Some(a.text)
    ensures start.manifest != Some(NextManifest(start, a))
  {
    assert NextManifest(start, a)[a.name].hash == a.text;
  }

  /**
   * An activation that tears: recovery leaves the new skill beside the old manifest, and the identity
   * is a refusal if the skill was active before, and absent if it was not.
   */
  lemma SkillWindow(f: Files, start: Files, a: Activation, e: Event)
    requires Settled(start, a) && PhaseInv(f, start, a) && e.Activate? && Tears(f, a, e)
    ensures var g := Recovered(Happen(f, a, e));
      && NewSkill(g, a) && OldManifest(g, start) && !Whole(g, start, a)
      && Current(g, a.name) == if a.base.None? then Absent else Refused
  {
    HappenIs(f, a, e);
    var ws := WritesOf(f, a, e);
    var p := PrepareWrites(f, a).value;
    PreparedIs(f, start, a);
    PreparedPhase(f, start, a);
    var g := PerformAll(f, p);
    var w := g.wal.value;
    assert ws == p + PublishWrites(w) && SkillOf(g, a.name) == SkillOf(f, a.name);
    assert e.writes == |p| + 1;
    assert ws[..|p| + 1] == p + PublishWrites(w)[..1];
    PerformAppend(f, p, PublishWrites(w)[..1]);
    PublishPrefix(g, w, 1);
    assert w.phase == Prepared;
    var h := Publishing(g, w, 1);
    SkillWritten1(g, start, a, Some(a.text));
    assert RecoveryWrites(h) == [PutWal(w.(phase := RolledBack))];
    PerformOne(h, PutWal(w.(phase := RolledBack)));
    BothDiffer(start, a);
  }

  /**
   * A rollback that tears, of a committed activation or of one whose manifest is written: recovery
   * leaves the old skill beside the new manifest, and the identity is a refusal.
   */
  lemma RollbackWindow(f: Files, start: Files, a: Activation, e: Event)
    requires Settled(start, a) && PhaseInv(f, start, a) && e.Rollback? && Tears(f, a, e)
    ensures var g := Recovered(Happen(f, a, e));
      OldSkill(g, start, a) && NewManifest(g, start, a) && !Whole(g, start, a) && Current(g, a.name) == Refused
  {
    HappenIs(f, a, e);
    UndoPrefix(f, start, a, e, 1);
    var w, ws := f.wal.value, RollbackWrites(f, a.operation);
    assert ws == Restore(w) + [PutWal(w.(phase := RolledBack))] && e.writes == 1;
    RestorePrefix(f, w, 1);
    SkillWritten1(f, start, a, w.previousSkill);
    var h := Restoring(f, w, 1);
    if w.phase == ManifestWritten {
      PerformOne(h, PutWal(w.(phase := RolledBack)));
    }
    BothDiffer(start, a);
  }

  /** The condition is exact: after calls that do not tear, recovery after the next fails if and only if it tears. */
  lemma AtomicExactly(start: Files, a: Activation, events: seq<Event>, e: Event)
    requires Settled(start, a) && NoTear(start, a, events)
    ensures var f := After(start, a, events); Whole(Recovered(Happen(f, a, e)), start, a) <==> !Tears(f, a, e)
  {
    StartPhase(start, a);
    RunPhase(start, start, a, events);
    var f := After(start, a, events);
    hide After, NoTear;
    if Tears(f, a, e) {
      if e.Activate? {
        SkillWindow(f, start, a, e);
      } else {
        RollbackWindow(f, start, a, e);
      }
    } else {
      if e.Activate? {
        ActivatePhase(f, start, a, e);
      } else {
        UndoPhase(f, start, a, e);
      }
      RecoveredIs(Happen(f, a, e), start, a);
      hide Happen, Tears;
    }
  }

  /**
   * Whatever the files hold when the store opens, edited by others or not: recovery never changes
   * the manifest, and it changes a skill only from the bytes this log wrote, under the manifest the
   * log found, to the bytes it replaced.
   */
  lemma RecoveryTouchesOnlyItsOwn(f: Files, writes: nat, n: Name)
    ensures var ws := RecoveryWrites(f);
      var r := PerformAll(f, if writes < |ws| then ws[..writes] else ws);
      && r.manifest == f.manifest
      && (SkillOf(r, n) != SkillOf(f, n) ==>
            && f.wal.Some? && n == f.wal.value.name && f.wal.value.phase == SkillWritten
            && OwnsSkillWritten(f, f.wal.value) && SkillOf(r, n) == f.wal.value.previousSkill)
  {
    var ws := RecoveryWrites(f);
    var k := if writes < |ws| then writes else |ws|;
    assert ws[..|ws|] == ws;
    if |ws| == 3 {
      RestorePrefix(f, f.wal.value, k);
    } else if |ws| == 1 {
      assert ws[..k] == if k == 0 then [] else ws;
      assert ws[1..] == [];
    }
  }
}
