/**
 * `mutationInFlight` (packages/app/src/auto-skill-store.ts): the loops that inventory the markers
 * of a store directory and reconcile what dead writers left behind.
 */
module AutoSkillRecovery {
  import opened Common
  import opened AutoSkillModel
  import opened AutoSkillDurable
  import Proofs = AutoSkillDurableProofs

  datatype Outcome = Threw | InFlight(value: bool)

  /** The artifacts that a set of markers gives away because the state does not mention them. */
  function Unclaimed(disk: State, markers: set<MarkerFile>): (r: set<Name>) {
    set m | m in markers && m.filled && m.kind.ForArtifact? && !References(disk, m.kind.hash) :: m.kind.hash
  }

  function TempsOf(markers: set<MarkerFile>, state: bool): (r: set<Id>) {
    set m | m in markers && m.filled && m.kind.ForState? == state :: m.id
  }

  /** What is left once every writer that owned one of `markers` has been reconciled. */
  function Recovered(f: Files, markers: set<MarkerFile>): (r: Files) {
    f.(artifacts := f.artifacts - Unclaimed(f.disk, markers),
       stateTemps := f.stateTemps - TempsOf(markers, true),
       artifactTemps := f.artifactTemps - TempsOf(markers, false),
       markers := f.markers - markers)
  }

  /** A store directory. `corrupt` is whether its state file fails to parse or to validate. */
  class StoreRoot {
    var files: Files
    const corrupt: bool

    constructor (files: Files, corrupt: bool)
      ensures this.files == files && this.corrupt == corrupt
    {
      this.files := files;
      this.corrupt := corrupt;
    }

    /** `reconcileDeadTemporary`, `reconcileDeadArtifact` and the removal of the marker itself. */
    method Reconcile(m: MarkerFile) returns (threw: bool)
      modifies this`files
      ensures threw == (corrupt && m.filled && m.kind.ForArtifact?)
      ensures !threw ==> files == Recovered(old(files), {m})
      ensures threw ==>
        files.disk == old(files.disk) && files.artifacts == old(files.artifacts) && files.markers == old(files.markers)
    {
      ReconciledAlone(files, m);
      files := DropTemp(files, m);
      if m.filled && m.kind.ForArtifact? {
        if corrupt {
          return true;
        }
        files := DropArtifact(files, m);
      }
      files := DropMarker(files, m);
      threw := false;
    }

    /** The first loop: lists every marker once and probes its owner; a malformed marker throws. */
    method Inventory(malformed: set<MarkerFile>, live: set<MarkerFile>)
        returns (ok: bool, inventory: seq<MarkerFile>, anyLive: bool)
      ensures ok == (files.markers !! malformed)
      ensures ok ==> anyLive == (files.markers * live != {})
      ensures ok ==> (forall m :: m in inventory <==> m in files.markers)
    {
      inventory, anyLive := [], false;
      var listing := files.markers;
      while listing != {}
        invariant listing <= files.markers
        invariant forall m :: m in inventory <==> m in files.markers - listing
        invariant files.markers - listing !! malformed
        invariant anyLive == ((files.markers - listing) * live != {})
        decreases |listing|
      {
        var m :| m in listing;
        if m in malformed {
          return false, [], false;
        }
        anyLive := anyLive || m in live;
        inventory := inventory + [m];
        listing := listing - {m};
      }
      ok := true;
    }

    /** The second loop, over dead owners only. A corrupt state file stops it before any artifact is touched. */
    method ReconcileAll(inventory: seq<MarkerFile>) returns (threw: bool)
      modifies this`files
      ensures files.disk == old(files.disk)
      ensures threw == (corrupt && !Unmarked(Elements(inventory)))
      ensures !threw ==> files == Recovered(old(files), Elements(inventory))
      ensures threw ==> files.artifacts == old(files.artifacts)
    {
      var i := 0;
      assert inventory[..0] == [];
      while i < |inventory|
        invariant 0 <= i <= |inventory|
        invariant files == Recovered(old(files), Elements(inventory[..i]))
        invariant corrupt ==> Unmarked(Elements(inventory[..i]))
      {
        assert inventory[..i + 1] == inventory[..i] + [inventory[i]];
        assert Elements(inventory[..i + 1]) == Elements(inventory[..i]) + {inventory[i]};
        RecoverOne(old(files), Elements(inventory[..i]), inventory[i]);
        hide Recovered;
        threw := Reconcile(inventory[i]);
        if threw {
          NothingUnclaimed(old(files), Elements(inventory[..i]));
          assert inventory[i] in Elements(inventory);
          return;
        }
        i := i + 1;
      }
      assert inventory[..i] == inventory;
      threw := false;
    }

    /**
     * `malformed` are the markers that do not parse, `live` those whose owner answers a signal.
     * With a malformed marker or a live owner nothing changes. Otherwise every dead writer is
     * reconciled, unless the state file is corrupt: then no artifact is touched.
     */
    method MutationInFlight(malformed: set<MarkerFile>, live: set<MarkerFile>) returns (r: Outcome)
      modifies this`files
      ensures files.disk == old(files.disk)
      ensures !(old(files.markers) !! malformed) ==> r == Threw && files == old(files)
      ensures old(files.markers) !! malformed && old(files.markers) * live != {} ==>
        r == InFlight(true) && files == old(files)
      ensures old(files.markers) !! malformed && old(files.markers) * live == {} ==>
        if corrupt && !Unmarked(old(files.markers)) then r == Threw && files.artifacts == old(files.artifacts)
        else (files == Recovered(old(files), old(files.markers)) &&
              r == InFlight(files.stateTemps + files.artifactTemps != {}))
    {
      hide Recovered;
      var ok, inventory, anyLive := Inventory(malformed, live);
      if !ok {
        return Threw;
      }
      if anyLive {
        return InFlight(true);
      }
      assert Elements(inventory) == files.markers;
      var threw := ReconcileAll(inventory);
      r := if threw then Threw else InFlight(files.stateTemps + files.artifactTemps != {});
    }
  }

  function Elements(ms: seq<MarkerFile>): (r: set<MarkerFile>) { set m | m in ms }

  predicate Unmarked(markers: set<MarkerFile>) {
    forall m :: m in markers ==> !(m.filled && m.kind.ForArtifact?)
  }

  lemma NothingUnclaimed(f: Files, markers: set<MarkerFile>)
    requires Unmarked(markers)
    ensures Recovered(f, markers).artifacts == f.artifacts
  {
    assert Unclaimed(f.disk, markers) == {};
  }

  /** Temporary, artifact and marker of one dead writer, removed one after the other. */
  lemma ReconciledAlone(f: Files, m: MarkerFile)
    ensures DropMarker(DropArtifact(DropTemp(f, m), m), m) == Recovered(f, {m})
  {
    assert TempsOf({m}, true) == if m.filled && m.kind.ForState? then {m.id} else {};
    assert TempsOf({m}, false) == if m.filled && !m.kind.ForState? then {m.id} else {};
    assert Unclaimed(f.disk, {m}) ==
      if m.filled && m.kind.ForArtifact? && !References(f.disk, m.kind.hash) then {m.kind.hash} else {};
  }

  /** Dead writers can be reconciled one at a time. */
  lemma RecoverOne(f: Files, done: set<MarkerFile>, m: MarkerFile)
    ensures Recovered(Recovered(f, done), {m}) == Recovered(f, done + {m})
  {
    var r, s := Recovered(f, done), Recovered(f, done + {m});
    assert TempsOf({m}, true) == if m.filled && m.kind.ForState? then {m.id} else {};
    assert TempsOf({m}, false) == if m.filled && !m.kind.ForState? then {m.id} else {};
    assert Unclaimed(f.disk, {m}) ==
      if m.filled && m.kind.ForArtifact? && !References(f.disk, m.kind.hash) then {m.kind.hash} else {};
    assert TempsOf(done + {m}, true) == TempsOf(done, true) + if m.filled && m.kind.ForState? then {m.id} else {};
    assert TempsOf(done + {m}, false) == TempsOf(done, false) + if m.filled && !m.kind.ForState? then {m.id} else {};
    assert Unclaimed(f.disk, done + {m}) == Unclaimed(f.disk, done) +
      if m.filled && m.kind.ForArtifact? && !References(f.disk, m.kind.hash) then {m.kind.hash} else {};
    assert f.markers - done - {m} == f.markers - (done + {m});
  }

  /**
   * Dead-writer recovery: at every crash point of every clean run, once all owners are dead, what
   * recovery leaves has the same state, no temporary and no marker, has lost no artifact that the
   * state mentions, and has no artifact that it does not mention.
   */
  lemma RecoveredIsComplete(start: Sys, steps: seq<Step>)
    requires Initial(start) && Proofs.CleanSteps(start, steps)
    ensures var f := After(start, steps).files;
      var r := Recovered(f, f.markers);
      && r.disk == f.disk
      && r.stateTemps == {} && r.artifactTemps == {} && r.markers == {}
      && (forall h :: h in f.artifacts && References(f.disk, h) ==> h in r.artifacts)
      && (forall h :: h in r.artifacts ==> References(f.disk, h))
      && (forall v :: v in f.disk.revisions && Proofs.LivePhase(v.phase) ==> v.hash in r.artifacts)
  {
    Proofs.EveryCrashPoint(start, steps);
    var f := After(start, steps).files;
    hide After, Proofs.CleanSteps;
    var r := Recovered(f, f.markers);
    forall t | t in f.stateTemps ensures t in TempsOf(f.markers, true) {
      assert MarkerFile(t, ForState, true) in f.markers;
    }
    forall t | t in f.artifactTemps ensures t in TempsOf(f.markers, false) {
      var h :| MarkerFile(t, ForArtifact(h), true) in f.markers;
    }
    forall v | v in f.disk.revisions && Proofs.LivePhase(v.phase) ensures v.hash in r.artifacts {
      assert References(f.disk, v.hash);
    }
  }
}
