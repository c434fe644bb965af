/**
 * The store object that overwrites the three files step by step
 * (packages/app/src/active-skill-store.ts); each call performs exactly its list of durable writes.
 */
module SkillStore {
  import opened Common
  import opened SkillWal
  import opened SkillWalProofs

  datatype Reply = Activated | AlreadyCommitted | Conflict

  class Store {
    var files: Files

    /** Opening the store recovers what the log says. */
    constructor (files: Files)
      ensures this.files == Recovered(files)
    {
      this.files := files;
      new;
      Recover();
    }

    method SaveWal(w: Wal)
      modifies this
      ensures files == Perform(old(files), PutWal(w))
    {
      files := files.(wal := Some(w));
    }

    method SaveSkill(name: Name, skill: Option<Content>)
      modifies this
      ensures files == Perform(old(files), PutSkill(name, skill))
    {
      files := files.(skills := if skill.Some? then files.skills[name := skill.value] else files.skills - {name});
    }

    method SaveManifest(m: Option<Manifest>)
      modifies this
      ensures files == Perform(old(files), PutManifest(m))
    {
      files := files.(manifest := m);
    }

    method Recover()
      modifies this
      ensures files == Recovered(old(files))
    {
      if files.wal.None? {
        return;
      }
      var w := files.wal.value;
      ghost var was := files;
      if w.phase == Prepared {
        SaveWal(w.(phase := RolledBack));
        PerformOne(was, PutWal(w.(phase := RolledBack)));
      } else if w.phase == SkillWritten {
        if OwnsSkillWritten(files, w) {
          SaveSkill(w.name, w.previousSkill);
          SaveManifest(w.previousManifest);
          SaveWal(w.(phase := RolledBack));
          RestorePrefix(was, w, 3);
          assert (Restore(w) + [PutWal(w.(phase := RolledBack))])[..3] == RecoveryWrites(was);
        } else {
          SaveWal(w.(phase := RolledBack));
          PerformOne(was, PutWal(w.(phase := RolledBack)));
        }
      } else if w.phase == ManifestWritten {
        var phase := if OwnsManifestWritten(files, w) then Committed else RolledBack;
        SaveWal(w.(phase := phase));
        PerformOne(was, PutWal(w.(phase := phase)));
      }
    }

    /** `activateSkill`: prepares, checks what it owns, and publishes both files. */
    method Activate(a: Activation) returns (r: Reply)
      modifies this
      ensures files == PerformAll(old(files), ActivateWrites(old(files), a))
      ensures r == Activated ==> Current(files, a.name) == Present(a.version, a.text)
    {
      ghost var was := files;
      var starting := true;
      if files.wal.Some? {
        var w := files.wal.value;
        if w.operation == a.operation && w.phase != RolledBack {
          if !SameActivation(w, a) {
            return Conflict;
          }
          starting := false;
        } else if w.phase != RolledBack && w.phase != Committed {
          return Conflict;
        }
      }
      ghost var p: seq<Write> := [];
      if starting {
        if !BaseMatches(files, a) {
          return Conflict;
        }
        p := [PutWal(NewWal(files, a))];
        PerformOne(files, p[0]);
        SaveWal(NewWal(files, a));
      }
      assert PrepareWrites(was, a) == Some(p) && files == PerformAll(was, p);
      var w := files.wal.value;
      if w.phase == Committed {
        return AlreadyCommitted;
      }
      if !MayPublish(files, w) {
        return Conflict;
      }
      ghost var prepared := files;
      SaveSkill(w.name, Some(w.nextSkill));
      SaveWal(w.(phase := SkillWritten));
      SaveManifest(Some(w.nextManifest));
      SaveWal(w.(phase := ManifestWritten));
      SaveWal(w.(phase := Committed));
      PublishPrefix(prepared, w, 5);
      assert PublishWrites(w)[..5] == PublishWrites(w);
      PerformAppend(was, p, PublishWrites(w));
      r := Activated;
    }
  }
}
