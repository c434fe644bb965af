/**
 * The store object itself (packages/app/src/auto-skill-store.ts): the methods that work through
 * loops over its arrays, each proved to compute the operation of the lifecycle model.
 */
module AutoSkillStore {
  import opened Common
  import M = AutoSkillModel
  import opened E = AutoSkillEvidence
  import P = AutoSkillPointers

  type Name = M.Name

  datatype Confirmation = Counted | Duplicate | Queued(job: M.JobId)
  datatype JobReply = JobNotFound | JobCasFailed | JobMoved(job: M.Job)
  datatype PrepareReply =
    | PrepareNotFound | PrepareCasFailed | PrepareConflict | EvidenceMissing | PreparedAs(revision: M.Revision)

  datatype ActivateReply =
    | ActivateNotFound | ActivateCasFailed | ActivateConflict | ArtifactCorrupt | ActivatedAs(revision: M.Revision)

  datatype Purged = ClaimMissing | AlreadyDone | Done

  // ---- lemmas about the loops ----------------------------------------------------------------------

  predicate Matches(r: M.EvidenceRecord, e: M.Evidence) {
    r.status.Live? && M.SameWorkflow(r.value, e)
  }

  lemma {:induction false} IndependentOfMatching(evidence: seq<M.EvidenceRecord>, e: M.Evidence, seen: set<Name>)
    ensures M.Independent(Filter(evidence, (r: M.EvidenceRecord) => Matches(r, e)), e, seen) ==
      M.Independent(evidence, e, seen)
  {
    if evidence != [] {
      var p := (r: M.EvidenceRecord) => Matches(r, e);
      var rest := Filter(evidence[1..], p);
      if p(evidence[0]) {
        assert Filter(evidence, p) == [evidence[0]] + rest;
        assert ([evidence[0]] + rest)[1..] == rest;
      }
      IndependentOfMatching(evidence[1..], e, if p(evidence[0]) && evidence[0].value.session !in seen
                                              then seen + {evidence[0].value.session} else seen);
    }
  }

  /** What `claimBySource` does to the pointers for one revision. */
  function DropHash(pointers: seq<M.Pointer>, hash: Name): (r: seq<M.Pointer>) {
    UpdateIf(Filter(pointers, (p: M.Pointer) => p.active != hash), (p: M.Pointer) => p.previous == Some(hash),
             (p: M.Pointer) => p.(previous := None))
  }

  function Strip(p: M.Pointer, hashes: set<Name>): (r: M.Pointer) {
    if p.previous.Some? && p.previous.value in hashes then p.(previous := None) else p
  }

  lemma DropHashesHead(pointers: seq<M.Pointer>, hashes: set<Name>)
    requires pointers != []
    ensures M.DropHashes(pointers, hashes) ==
      (if pointers[0].active in hashes then [] else [Strip(pointers[0], hashes)]) + M.DropHashes(pointers[1..], hashes)
  {}

  lemma DropHashHead(pointers: seq<M.Pointer>, hash: Name)
    requires pointers != []
    ensures DropHash(pointers, hash) ==
      (if pointers[0].active == hash then [] else [Strip(pointers[0], {hash})]) + DropHash(pointers[1..], hash)
  {}

  /** Dropping one hash at a time drops the set. */
  lemma {:induction false} DropOneMore(pointers: seq<M.Pointer>, hashes: set<Name>, hash: Name)
    ensures DropHash(M.DropHashes(pointers, hashes), hash) == M.DropHashes(pointers, hashes + {hash})
  {
    if pointers != [] {
      var rest := pointers[1..];
      DropOneMore(rest, hashes, hash);
      DropHashesHead(pointers, hashes);
      DropHashesHead(pointers, hashes + {hash});
      if pointers[0].active !in hashes {
        var s := [Strip(pointers[0], hashes)] + M.DropHashes(rest, hashes);
        assert s[1..] == M.DropHashes(rest, hashes);
        DropHashHead(s, hash);
      }
    }
  }

  lemma {:induction false} DropNone(pointers: seq<M.Pointer>)
    ensures M.DropHashes(pointers, {}) == pointers
  {
    if pointers != [] {
      DropHashesHead(pointers, {});
      DropNone(pointers[1..]);
    }
  }

  ghost predicate JobsForgotten(was: seq<M.Job>, now: seq<M.Job>, ids: set<M.JobId>) {
    |now| == |was| && forall i :: 0 <= i < |was| ==>
      now[i] == if was[i].id in ids then was[i].(phase := M.Forgotten) else was[i]
  }

  ghost predicate RecordsForgotten(was: seq<M.EvidenceRecord>, now: seq<M.EvidenceRecord>, ids: set<Name>) {
    |now| == |was| && forall i :: 0 <= i < |was| ==>
      now[i] == if was[i].value.id in ids then was[i].(status := M.EvidenceClaimed) else was[i]
  }

  ghost predicate RevisionsClaimed(was: seq<M.Revision>, now: seq<M.Revision>, hashes: set<Name>) {
    |now| == |was| && forall i :: 0 <= i < |was| ==>
      now[i] == if was[i].hash in hashes then was[i].(phase := M.RevClaimed) else was[i]
  }

  predicate UniqueHashes(revisions: seq<M.Revision>) {
    forall i, j :: 0 <= i < j < |revisions| ==> revisions[i].hash != revisions[j].hash
  }

  predicate UniqueJobs(jobs: seq<M.Job>) { forall i, j :: 0 <= i < j < |jobs| ==> jobs[i].id != jobs[j].id }

  function MarkRecord(evidence: seq<M.EvidenceRecord>, id: Name): (r: seq<M.EvidenceRecord>) {
    UpdateIf(evidence, (e: M.EvidenceRecord) => e.value.id == id,
      (e: M.EvidenceRecord) => e.(status := M.EvidenceClaimed))
  }

  function JobIds(jobs: seq<M.Job>): (r: set<M.JobId>) { set j | j in jobs :: j.id }
  function EvidenceIds(jobs: seq<M.Job>): (r: set<Name>) {
    (set j | j in jobs :: j.first) + (set j | j in jobs :: j.second)
  }
  function Hashes(revisions: seq<M.Revision>): (r: set<Name>) { set r | r in revisions :: r.hash }
  function Owners(revisions: seq<M.Revision>): (r: set<M.JobId>) { set r | r in revisions :: r.job }

  lemma OneJob(jobs: seq<M.Job>, job: M.Job)
    requires UniqueJobs(jobs) && job in jobs
    ensures forall i :: 0 <= i < |jobs| && jobs[i].id == job.id ==> jobs[i] == job
  {}

  lemma {:induction false} FirstJob(jobs: seq<M.Job>, i: nat)
    requires i < |jobs| && forall k :: 0 <= k < i ==> jobs[k].id != jobs[i].id
    ensures M.JobById(jobs, jobs[i].id) == Some(jobs[i])
  {
    if i > 0 {
      FirstJob(jobs[1..], i - 1);
    }
  }

  lemma {:induction false} FirstRevision(revisions: seq<M.Revision>, i: nat)
    requires i < |revisions| && forall k :: 0 <= k < i ==> revisions[k].hash != revisions[i].hash
    ensures M.RevisionByHash(revisions, revisions[i].hash) == Some(revisions[i])
  {
    if i > 0 {
      FirstRevision(revisions[1..], i - 1);
    }
  }

  lemma {:induction false} FirstPointer(pointers: seq<M.Pointer>, i: nat)
    requires i < |pointers|
    requires forall k :: 0 <= k < i ==>
      !(pointers[k].scope == pointers[i].scope && pointers[k].identity == pointers[i].identity)
    ensures M.PointerFor(pointers, pointers[i].scope, pointers[i].identity) == Some(pointers[i])
  {
    if i > 0 {
      FirstPointer(pointers[1..], i - 1);
    }
  }

  /** Replacing at one index is replacing by identifier. */
  lemma PutOneJob(jobs: seq<M.Job>, i: nat, job: M.Job)
    requires UniqueJobs(jobs) && i < |jobs| && job.id == jobs[i].id
    ensures jobs[i := job] == M.PutJob(jobs, job)
  {}

  lemma PutOnePointer(pointers: seq<M.Pointer>, n: nat, p: M.Pointer)
    requires P.KeysUnique(pointers) && n <= |pointers|
    requires n < |pointers| ==> pointers[n].scope == p.scope && pointers[n].identity == p.identity
    requires n == |pointers| <==> M.PointerFor(pointers, p.scope, p.identity).None?
    ensures M.PutPointer(pointers, p) == if n < |pointers| then pointers[n := p] else pointers + [p]
  {}

  lemma SetOnePhase(revisions: seq<M.Revision>, i: nat, phase: M.RevisionPhase)
    requires UniqueHashes(revisions) && i < |revisions|
    ensures revisions[i := revisions[i].(phase := phase)] == M.SetRevisionPhase(revisions, revisions[i].hash, phase)
    ensures UniqueHashes(revisions[i := revisions[i].(phase := phase)])
  {}

  lemma FallbackPhase(revisions: seq<M.Revision>, k: nat, target: Name)
    requires UniqueHashes(revisions) && k <= |revisions|
    requires if k < |revisions| then revisions[k].hash == target else forall r :: r in revisions ==> r.hash != target
    ensures M.SetRevisionPhase(revisions, target, M.RevActive) ==
      if k < |revisions| then revisions[k := revisions[k].(phase := M.RevActive)] else revisions
  {}

  lemma ActivatedOne(was: seq<M.Revision>, now: seq<M.Revision>, k: nat, previous: Option<Name>)
    requires UniqueHashes(was)
    requires k < |was| && was[k].phase == M.RevPrepared && |now| == |was| && now[k] == was[k].(phase := M.RevActive)
    requires forall i :: 0 <= i < |was| && i != k ==>
      now[i] == if previous == Some(was[i].hash) && was[i].phase == M.RevActive then was[i].(phase := M.Demoted)
        else was[i]
    ensures now == M.ActivatedRevisions(was, was[k].hash, previous)
  {}

  lemma PrefixSets(jobs: seq<M.Job>, i: nat)
    requires i < |jobs|
    ensures JobIds(jobs[..i + 1]) == JobIds(jobs[..i]) + {jobs[i].id}
    ensures EvidenceIds(jobs[..i + 1]) == EvidenceIds(jobs[..i]) + {jobs[i].first, jobs[i].second}
  {
    assert jobs[..i + 1] == jobs[..i] + [jobs[i]];
  }

  lemma PrefixHashes(revisions: seq<M.Revision>, i: nat)
    requires i < |revisions|
    ensures Hashes(revisions[..i + 1]) == Hashes(revisions[..i]) + {revisions[i].hash}
    ensures Owners(revisions[..i + 1]) == Owners(revisions[..i]) + {revisions[i].job}
  {
    assert revisions[..i + 1] == revisions[..i] + [revisions[i]];
  }

  class Store {
    var state: M.State

    constructor ()
      ensures state == M.EMPTY
    {
      state := M.EMPTY;
    }

    static method IndexOfJob(jobs: seq<M.Job>, id: M.JobId) returns (i: nat)
      ensures i <= |jobs| && (i < |jobs| ==> jobs[i].id == id && M.JobById(jobs, id) == Some(jobs[i]))
      ensures i == |jobs| <==> M.JobById(jobs, id).None?
    {
      i := 0;
      while i < |jobs|
        invariant 0 <= i <= |jobs| && forall k :: 0 <= k < i ==> jobs[k].id != id
      {
        if jobs[i].id == id {
          FirstJob(jobs, i);
          return;
        }
        i := i + 1;
      }
      assert forall j :: j in jobs ==> j.id != id;
    }

    static method IndexOfRevision(revisions: seq<M.Revision>, hash: Name) returns (i: nat)
      ensures i <= |revisions| && (i < |revisions| ==>
        revisions[i].hash == hash && M.RevisionByHash(revisions, hash) == Some(revisions[i]))
      ensures i == |revisions| <==> M.RevisionByHash(revisions, hash).None?
    {
      i := 0;
      while i < |revisions|
        invariant 0 <= i <= |revisions| && forall k :: 0 <= k < i ==> revisions[k].hash != hash
      {
        if revisions[i].hash == hash {
          FirstRevision(revisions, i);
          return;
        }
        i := i + 1;
      }
      assert forall r :: r in revisions ==> r.hash != hash;
    }

    static method IndexOfPointer(pointers: seq<M.Pointer>, scope: Name, identity: Name) returns (i: nat)
      ensures i <= |pointers|
      ensures i < |pointers| ==> M.PointerFor(pointers, scope, identity) == Some(pointers[i])
      ensures i == |pointers| <==> M.PointerFor(pointers, scope, identity).None?
    {
      i := 0;
      while i < |pointers|
        invariant 0 <= i <= |pointers|
        invariant forall k :: 0 <= k < i ==> !(pointers[k].scope == scope && pointers[k].identity == identity)
      {
        if pointers[i].scope == scope && pointers[i].identity == identity {
          FirstPointer(pointers, i);
          return;
        }
        i := i + 1;
      }
      assert forall p :: p in pointers ==> !(p.scope == scope && p.identity == identity);
    }

    /** Whether a claim forbids the record: it lists it, or it waits for the record's source. */
    static method ClaimForbids(claims: seq<M.Claim>, e: M.Evidence) returns (r: bool)
      ensures r <==> exists c :: c in claims && Forbids(c, e)
    {
      r := false;
      for i := 0 to |claims|
        invariant r <==> exists k :: 0 <= k < i && Forbids(claims[k], e)
      {
        r := r || Forbids(claims[i], e);
      }
    }

    static method Repeats(evidence: seq<M.EvidenceRecord>, e: M.Evidence) returns (r: bool)
      ensures r <==> exists k :: k in evidence && k.value.id == e.id
    {
      for i := 0 to |evidence|
        invariant forall k :: 0 <= k < i ==> evidence[k].value.id != e.id
      {
        if evidence[i].value.id == e.id {
          return true;
        }
      }
      r := false;
    }

    static method SharesReceipt(evidence: seq<M.EvidenceRecord>, e: M.Evidence) returns (r: bool)
      ensures r <==> exists k :: k in evidence && k.value.receipts * e.receipts != {}
    {
      for i := 0 to |evidence|
        invariant forall k :: 0 <= k < i ==> evidence[k].value.receipts * e.receipts == {}
      {
        if evidence[i].value.receipts * e.receipts != {} {
          return true;
        }
      }
      r := false;
    }

    /** The three scans: a record is staged exactly once, and never under a claim. */
    method Stage(e: M.Evidence) returns (staged: bool)
      modifies this
      ensures state == M.Stage(old(state), e)
      ensures staged ==> M.EvidenceRecord(e, M.PendingReply) in state.evidence && M.StageRefused(state, e)
      ensures staged ==> forall k :: k in old(state.evidence) ==>
        k.value.id != e.id && k.value.receipts * e.receipts == {}
      ensures staged ==> forall c :: c in state.claims ==> !Forbids(c, e)
      ensures !staged ==> state == old(state) && M.StageRefused(state, e)
    {
      staged := false;
      var forbidden := ClaimForbids(state.claims, e);
      if forbidden {
        return;
      }
      var repeated := Repeats(state.evidence, e);
      if repeated {
        return;
      }
      var shared := SharesReceipt(state.evidence, e);
      if shared {
        return;
      }
      assert !M.StageRefused(state, e) by {
        assert forall c :: c in state.claims ==> !Forbids(c, e);
      }
      var record := M.EvidenceRecord(e, M.PendingReply);
      state := state.(evidence := state.evidence + [record]);
      assert record in state.evidence && record.value.id == e.id;
      staged := true;
    }

    /** A compare-and-swap on the phase of one job. */
    method AdvanceJob(id: M.JobId, w: M.WorkerStep) returns (r: JobReply)
      requires UniqueJobs(state.jobs)
      modifies this
      ensures state == M.AdvanceJob(old(state), id, w)
      ensures r == JobNotFound <==> M.JobById(old(state.jobs), id).None?
      ensures r.JobMoved? <==>
        M.JobById(old(state.jobs), id).Some? && M.JobById(old(state.jobs), id).value.phase == M.Expected(w)
    {
      var i := IndexOfJob(state.jobs, id);
      if i == |state.jobs| {
        return JobNotFound;
      }
      var job := state.jobs[i];
      if job.phase != M.Expected(w) {
        return JobCasFailed;
      }
      var moved := job.(phase := M.Next(w));
      PutOneJob(state.jobs, i, moved);
      state := state.(jobs := state.jobs[i := moved]);
      r := JobMoved(moved);
    }

    /** `prepare`, without its artifact. */
    method Prepare(id: M.JobId, m: M.Manifest) returns (r: PrepareReply)
      requires UniqueJobs(state.jobs)
      modifies this
      ensures state == M.Prepare(old(state), id, m)
      ensures r.PreparedAs? <==> !M.PrepareRefused(old(state), id, m)
      ensures r.PreparedAs? ==>
        r.revision.hash == m.hash && r.revision.phase == M.RevPrepared && r.revision in state.revisions
    {
      var i := IndexOfJob(state.jobs, id);
      if i == |state.jobs| {
        return PrepareNotFound;
      }
      var job := state.jobs[i];
      if job.phase != M.ShadowVerified || job.identity != m.identity || job.scope != m.scope {
        return PrepareCasFailed;
      }
      var pointer := M.PointerFor(state.pointers, job.scope, job.identity);
      if M.ActiveHash(pointer) != job.base {
        return PrepareConflict;
      }
      var evidence := M.EvidenceFor(state.evidence, job);
      if evidence.None? {
        return EvidenceMissing;
      }
      var (a, b) := evidence.value;
      var revision := M.Revision(m.hash, job.scope, job.identity, job.id, M.RevPrepared, M.ActiveHash(pointer),
                                 (M.Plain(a.session), M.Plain(b.session)), M.Plain(a.project));
      var k := IndexOfRevision(state.revisions, m.hash);
      if k < |state.revisions| && state.revisions[k] != revision {
        return PrepareConflict;
      }
      hide M.EvidenceFor, M.PointerFor, M.RevisionByHash, M.JobById;
      var prepared := job.(phase := M.JobPrepared, revision := Some(m.hash));
      PutOneJob(state.jobs, i, prepared);
      hide M.PutJob;
      if k == |state.revisions| {
        state := state.(revisions := state.revisions + [revision]);
        assert state.revisions[k] == revision;
      }
      state := state.(jobs := state.jobs[i := prepared]);
      r := PreparedAs(revision);
    }

    /** `activate`: the state changes in memory even if the artifact then cannot be read. */
    method Activate(id: M.JobId, hash: Name, readable: bool) returns (r: ActivateReply)
      requires UniqueJobs(state.jobs) && UniqueHashes(state.revisions) && P.KeysUnique(state.pointers)
      modifies this
      ensures state == M.Activate(old(state), id, hash, readable)
      ensures r.ActivatedAs? || r == ArtifactCorrupt <==> !M.ActivateRefused(old(state), id, hash)
      ensures r.ActivatedAs? ==>
        r.revision.hash == hash && r.revision.phase == M.RevActive && r.revision in state.revisions
    {
      hide M.PutPointer, M.ActivatedRevisions, M.PutJob, M.PointerFor, M.RevisionByHash, M.JobById, UniqueJobs,
        UniqueHashes, P.KeysUnique;
      var i := IndexOfJob(state.jobs, id);
      if i == |state.jobs| {
        return ActivateNotFound;
      }
      var job := state.jobs[i];
      var k := IndexOfRevision(state.revisions, hash);
      if job.phase != M.JobPrepared || job.revision != Some(hash) || k == |state.revisions| {
        return ActivateCasFailed;
      }
      var revision := state.revisions[k];
      if revision.phase != M.RevPrepared {
        return ActivateCasFailed;
      }
      var n := IndexOfPointer(state.pointers, job.scope, job.identity);
      var active := if n < |state.pointers| then Some(state.pointers[n].active) else None;
      if active != job.base {
        return ActivateConflict;
      }
      var pointer := M.Pointer(job.scope, job.identity, hash, active);
      PutOnePointer(state.pointers, n, pointer);
      state := state.(pointers := if n < |state.pointers| then state.pointers[n := pointer]
        else state.pointers + [pointer]);
      var revisions := ActivateAt(state.revisions, k);
      state := state.(revisions := revisions);
      var activated := job.(phase := M.JobActive);
      PutOneJob(state.jobs, i, activated);
      state := state.(jobs := state.jobs[i := activated]);
      if !readable {
        return ArtifactCorrupt;
      }
      if !(exists x :: x in state.notifications && x.revision == hash) {
        state := state.(notifications := state.notifications + [M.Notification(hash, M.NotePending)]);
      }
      r := ActivatedAs(state.revisions[k]);
    }

    /** Demotes the revision that was active before and activates the one at `k`. */
    static method ActivateAt(revisions: seq<M.Revision>, k: nat) returns (now: seq<M.Revision>)
      requires UniqueHashes(revisions) && k < |revisions| && revisions[k].phase == M.RevPrepared
      ensures now == M.ActivatedRevisions(revisions, revisions[k].hash, revisions[k].previous)
      ensures |now| == |revisions| && now[k] == revisions[k].(phase := M.RevActive)
    {
      now := DemotePrevious(revisions, revisions[k].previous);
      now := now[k := revisions[k].(phase := M.RevActive)];
      ActivatedOne(revisions, now, k, revisions[k].previous);
    }

    /** Demotes the first revision with the previous hash that is active. */
    static method DemotePrevious(revisions: seq<M.Revision>, previous: Option<Name>) returns (now: seq<M.Revision>)
      requires UniqueHashes(revisions)
      ensures |now| == |revisions|
      ensures forall i :: 0 <= i < |now| ==>
        now[i] == if previous == Some(revisions[i].hash) && revisions[i].phase == M.RevActive
          then revisions[i].(phase := M.Demoted) else revisions[i]
    {
      now := revisions;
      if previous.None? {
        return;
      }
      var i := 0;
      while i < |revisions|
        invariant 0 <= i <= |revisions| && now == revisions
        invariant forall k :: 0 <= k < i ==> !(revisions[k].hash == previous.value && revisions[k].phase == M.RevActive)
      {
        if revisions[i].hash == previous.value && revisions[i].phase == M.RevActive {
          now := now[i := revisions[i].(phase := M.Demoted)];
          return;
        }
        i := i + 1;
      }
    }

    /** `permanentFailure`: demotes the active revision and falls back to the pointer's previous one. */
    method PermanentFailure(hash: Name) returns (ignored: bool)
      requires UniqueHashes(state.revisions) && P.KeysUnique(state.pointers)
      modifies this
      ensures state == M.PermanentFailure(old(state), hash)
      ensures ignored <==> M.FailureIgnored(old(state), hash)
    {
      hide M.PutPointer, M.SetRevisionPhase, M.PointerFor, M.RevisionByHash, P.KeysUnique, UniqueHashes;
      var i := IndexOfRevision(state.revisions, hash);
      if i == |state.revisions| || state.revisions[i].phase != M.RevActive {
        return true;
      }
      var revision := state.revisions[i];
      var n := IndexOfPointer(state.pointers, revision.scope, revision.identity);
      if n == |state.pointers| || state.pointers[n].active != hash {
        return true;
      }
      var pointer := state.pointers[n];
      SetOnePhase(state.revisions, i, M.Demoted);
      state := state.(revisions := state.revisions[i := revision.(phase := M.Demoted)]);
      if pointer.previous.None? {
        state := state.(pointers := Filter(state.pointers,
          (p: M.Pointer) => !(p.scope == revision.scope && p.identity == revision.identity)));
      } else {
        var target := pointer.previous.value;
        var k := IndexOfRevision(state.revisions, target);
        var previous := if k < |state.revisions| then state.revisions[k].previous else None;
        var moved := M.Pointer(revision.scope, revision.identity, target, previous);
        PutOnePointer(state.pointers, n, moved);
        state := state.(pointers := state.pointers[n := moved]);
        FallbackPhase(state.revisions, k, target);
        if k < |state.revisions| {
          state := state.(revisions := state.revisions[k := state.revisions[k].(phase := M.RevActive)]);
        }
      }
      ignored := false;
    }

    /** The selection loop: the first live record of each session, in order. */
    static method SelectIndependent(evidence: seq<M.EvidenceRecord>, e: M.Evidence)
        returns (independent: seq<M.EvidenceRecord>)
      ensures independent == M.Independent(evidence, e, {})
    {
      var matching := Filter(evidence, (r: M.EvidenceRecord) => Matches(r, e));
      IndependentOfMatching(evidence, e, {});
      independent := [];
      var sessions, i := {}, 0;
      while i < |matching|
        invariant 0 <= i <= |matching|
        invariant independent + M.Independent(matching[i..], e, sessions) == M.Independent(evidence, e, {})
      {
        var item := matching[i];
        assert item in matching && Matches(item, e);
        assert matching[i..][1..] == matching[i + 1..];
        if item.value.session !in sessions {
          sessions := sessions + {item.value.session};
          independent := independent + [item];
        }
        i := i + 1;
      }
    }

    /** Counts one live record per session and queues a job at the second. */
    method ConfirmEvidence(e: M.Evidence) returns (r: Confirmation)
      modifies this
      ensures state == M.ConfirmEvidence(old(state), e)
      ensures r == Counted <==> |M.Independent(old(state.evidence), e, {})| < 2
      ensures r.Queued? <==> |state.jobs| == |old(state.jobs)| + 1
      ensures r.Queued? ==> state.jobs[|old(state.jobs)|].id == r.job
    {
      var independent := SelectIndependent(state.evidence, e);
      hide M.Independent;
      if |independent| < 2 {
        return Counted;
      }
      if exists j :: j in state.jobs && M.JobOfWorkflow(j, e) && j.phase != M.Forgotten {
        return Duplicate;
      }
      var job := M.NewJob(state, e, independent[0].value.id, independent[1].value.id);
      state := state.(jobs := state.jobs + [job]);
      r := Queued(job.id);
    }

    /** The loop over dependent jobs: each is forgotten and both its records are claimed. */
    method ForgetJobs(dependent: seq<M.Job>) returns (forgotten: set<Name>)
      requires UniqueJobs(state.jobs) && forall j :: j in dependent ==> j in state.jobs
      modifies this
      ensures state == old(state).(jobs := state.jobs, evidence := state.evidence)
      ensures forgotten == EvidenceIds(dependent)
      ensures JobsForgotten(old(state.jobs), state.jobs, JobIds(dependent))
      ensures RecordsForgotten(old(state.evidence), state.evidence, forgotten)
    {
      forgotten := {};
      var i := 0;
      while i < |dependent|
        invariant 0 <= i <= |dependent|
        invariant state == old(state).(jobs := state.jobs, evidence := state.evidence)
        invariant forgotten == EvidenceIds(dependent[..i])
        invariant JobsForgotten(old(state.jobs), state.jobs, JobIds(dependent[..i]))
        invariant RecordsForgotten(old(state.evidence), state.evidence, forgotten)
      {
        var job := dependent[i];
        PrefixSets(dependent, i);
        OneJob(old(state.jobs), job);
        hide JobIds, EvidenceIds;
        state := state.(jobs := M.PutJob(state.jobs, job.(phase := M.Forgotten)),
                        evidence := MarkRecord(MarkRecord(state.evidence, job.first), job.second));
        forgotten := forgotten + {job.first, job.second};
        i := i + 1;
      }
      assert dependent[..i] == dependent;
    }

    /** The loop over affected revisions: each is claimed and leaves the pointers, its job is forgotten. */
    method ClaimRevisions(affected: seq<M.Revision>)
      requires UniqueHashes(state.revisions)
      requires forall r :: r in affected ==> r in state.revisions
      modifies this
      ensures state == old(state).(jobs := state.jobs, revisions := state.revisions, pointers := state.pointers)
      ensures RevisionsClaimed(old(state.revisions), state.revisions, Hashes(affected))
      ensures JobsForgotten(old(state.jobs), state.jobs, Owners(affected))
      ensures state.pointers == M.DropHashes(old(state.pointers), Hashes(affected))
    {
      DropNone(state.pointers);
      assert Hashes(affected[..0]) == {};
      var i := 0;
      while i < |affected|
        invariant 0 <= i <= |affected|
        invariant state == old(state).(jobs := state.jobs, revisions := state.revisions, pointers := state.pointers)
        invariant RevisionsClaimed(old(state.revisions), state.revisions, Hashes(affected[..i]))
        invariant JobsForgotten(old(state.jobs), state.jobs, Owners(affected[..i]))
        invariant state.pointers == M.DropHashes(old(state.pointers), Hashes(affected[..i]))
      {
        var revision := affected[i];
        PrefixHashes(affected, i);
        DropOneMore(old(state.pointers), Hashes(affected[..i]), revision.hash);
        hide Hashes, Owners, DropHash, M.DropHashes;
        state := state.(revisions := M.SetRevisionPhase(state.revisions, revision.hash, M.RevClaimed),
                        pointers := DropHash(state.pointers, revision.hash),
                        jobs := UpdateIf(state.jobs, (j: M.Job) => j.id == revision.job && j.phase != M.Forgotten,
                                         (j: M.Job) => j.(phase := M.Forgotten)));
        i := i + 1;
      }
      assert affected[..i] == affected;
    }

    /** The last loop: every remaining record of the source is claimed. */
    static method ForgetRecords(evidence: seq<M.EvidenceRecord>, kind: M.SourceKind, source: Name)
      returns (now: seq<M.EvidenceRecord>, ids: set<Name>)
      requires forall i, j :: 0 <= i < j < |evidence| ==> evidence[i].value.id != evidence[j].value.id
      ensures ids == SourceIds(evidence, kind, source)
      ensures RecordsForgotten(evidence, now, ids)
    {
      now, ids := evidence, {};
      var i := 0;
      while i < |evidence|
        invariant 0 <= i <= |evidence| == |now|
        invariant ids == SourceIds(evidence[..i], kind, source)
        invariant forall k :: i <= k < |evidence| ==> now[k] == evidence[k] && evidence[k].value.id !in ids
        invariant forall k :: 0 <= k < i ==>
          now[k] == if evidence[k].value.id in ids then evidence[k].(status := M.EvidenceClaimed) else evidence[k]
      {
        PrefixSource(evidence, i, kind, source);
        hide SourceIds;
        if M.FromSource(kind, source, evidence[i].value) {
          ids := ids + {evidence[i].value.id};
          now := now[i := evidence[i].(status := M.EvidenceClaimed)];
        }
        i := i + 1;
      }
      assert evidence[..i] == evidence;
    }

    /** Forgets a source: the three loops together are the set-based operation of the model. */
    method ClaimBySource(kind: M.SourceKind, source: Name) returns (claim: M.ClaimId, affected: nat)
      requires Inv(state)
      modifies this
      ensures state == M.ClaimBySource(old(state), kind, source)
      ensures HasPending(state.claims, kind, source, claim, affected)
    {
      hide M.ClaimBySource;
      var existing := Find(state.claims, (c: M.Claim) => c.kind == kind && c.source == source &&
        c.phase != M.ClaimTombstoned);
      if existing.Some? {
        AlreadyPending(state, kind, source, existing.value);
        return existing.value.id, |existing.value.revisions|;
      }
      ghost var was := state;
      UniqueKeys(was);
      hide Inv;
      var dependent := DependentSeq(state, kind, source);
      var revisions := AffectedSeq(state, kind, source);
      var forgotten := ForgetJobs(dependent);
      ghost var jobs, evidence := state.jobs, state.evidence;
      ClaimRevisions(revisions);
      var hashes := Hashes(revisions);
      state := state.(notifications := Filter(state.notifications, (n: M.Notification) => n.status != M.NotePending ||
        n.revision !in hashes));
      SameIds(was.evidence, evidence, forgotten, kind, source);
      var records, ids := ForgetRecords(state.evidence, kind, source);
      state := state.(evidence := records);
      claim := M.ClaimId(kind, source, forgotten + ids, hashes);
      var record := M.Claim(claim, kind, source, forgotten + ids, hashes, M.ForgetClaimed);
      Assembles(was, kind, source, jobs, state.jobs, evidence, state.evidence, state.revisions);
      state := state.(claims := state.claims + [record]);
      affected := |hashes|;
      assert record in state.claims;
    }

    /** The loop over a claim's revisions: each is tombstoned and loses its sources. */
    static method TombstoneAll(revisions: seq<M.Revision>, hashes: set<Name>) returns (now: seq<M.Revision>)
      ensures now == UpdateIf(revisions, (r: M.Revision) => r.hash in hashes, M.Tombstone)
    {
      now := revisions;
      var todo := hashes;
      while todo != {}
        invariant todo <= hashes && |now| == |revisions|
        invariant forall i :: 0 <= i < |now| ==>
          now[i] == if revisions[i].hash in hashes - todo then M.Tombstone(revisions[i]) else revisions[i]
        decreases |todo|
      {
        var hash :| hash in todo;
        now := UpdateIf(now, (r: M.Revision) => r.hash == hash, M.Tombstone);
        todo := todo - {hash};
      }
    }

    /** Marks the claim, tombstones its revisions, drops every claimed record, and settles the claim. */
    method PurgeClaim(id: M.ClaimId) returns (r: Purged)
      modifies this
      ensures state == M.PurgeFinish(M.PurgeBegin(old(state), id), id)
      ensures r == ClaimMissing <==> forall c :: c in old(state.claims) ==> c.id != id
      ensures r == AlreadyDone ==> state == old(state)
      ensures r == Done ==>
        M.ClaimById(state.claims, id).Some? && M.ClaimById(state.claims, id).value.phase == M.ClaimTombstoned
    {
      var claim := M.ClaimById(state.claims, id);
      if claim.None? {
        return ClaimMissing;
      }
      if claim.value.phase == M.ClaimTombstoned {
        assert claim.value in state.claims;
        return AlreadyDone;
      }
      PurgePhases(state.claims, id);
      hide M.SetClaimPhase, M.ClaimById;
      state := state.(claims := M.SetClaimPhase(state.claims, id, M.Purging));
      var revisions := TombstoneAll(state.revisions, claim.value.revisions);
      state := state.(revisions := revisions,
                      evidence := Filter(state.evidence, (e: M.EvidenceRecord) => e.status != M.EvidenceClaimed),
                      claims := M.SetClaimPhase(state.claims, id, M.ClaimTombstoned));
      r := Done;
    }

    /** Purges every claim that was left purging, and those whose source is archived. */
    method RecoverForgetClaims(archived: set<(M.SourceKind, Name)>) returns (count: nat)
      modifies this
      ensures state == PurgeEach(old(state), PendingIds(old(state).claims, archived))
      ensures count == |Filter(old(state).claims, (c: M.Claim) => IsPending(c, archived))|
    {
      var ids := PendingIds(state.claims, archived);
      var i := 0;
      while i < |ids|
        invariant 0 <= i <= |ids|
        invariant PurgeEach(state, ids[i..]) == PurgeEach(old(state), ids)
      {
        assert ids[i..][1..] == ids[i + 1..];
        hide M.PurgeFinish, M.PurgeBegin;
        var r := PurgeClaim(ids[i]);
        i := i + 1;
      }
      count := |ids|;
    }
  }

  /** What forbids a record to be staged. */
  predicate Forbids(c: M.Claim, e: M.Evidence) {
    e.id in c.evidence || (c.phase != M.ClaimTombstoned && M.FromSource(c.kind, c.source, e))
  }

  predicate IsPending(c: M.Claim, archived: set<(M.SourceKind, Name)>) {
    c.phase == M.Purging || (c.phase == M.ForgetClaimed && (c.kind, c.source) in archived)
  }

  function PendingIds(claims: seq<M.Claim>, archived: set<(M.SourceKind, Name)>): (r: seq<M.ClaimId>)
    ensures |r| == |Filter(claims, (c: M.Claim) => IsPending(c, archived))|
    ensures forall id :: id in r <==> exists c :: c in claims && IsPending(c, archived) && c.id == id
  {
    var pending := Filter(claims, (c: M.Claim) => IsPending(c, archived));
    var ids := seq(|pending|, i requires 0 <= i < |pending| => pending[i].id);
    assert forall i :: 0 <= i < |pending| ==> pending[i] in pending && ids[i] == pending[i].id && ids[i] in ids;
    ids
  }

  function PurgeEach(s: M.State, ids: seq<M.ClaimId>): (t: M.State)
    decreases |ids|
  {
    if ids == [] then s else PurgeEach(M.PurgeFinish(M.PurgeBegin(s, ids[0]), ids[0]), ids[1..])
  }

  predicate IsFirst(claims: seq<M.Claim>, i: nat)
    requires i < |claims|
  {
    forall k :: 0 <= k < i ==> claims[k].id != claims[i].id
  }

  lemma PurgeSetsFirst(s: M.State, id: M.ClaimId)
    ensures var t := M.PurgeFinish(M.PurgeBegin(s, id), id);
      && |t.claims| == |s.claims|
      && forall i :: 0 <= i < |s.claims| ==>
           t.claims[i] == if s.claims[i].id == id && IsFirst(s.claims, i)
             then s.claims[i].(phase := M.ClaimTombstoned) else s.claims[i]
  {
    PurgedClaims(s, id);
    hide M.PurgeFinish, M.PurgeBegin;
    if M.ClaimById(s.claims, id).Some? {
      var k := FirstAt(s.claims, id, M.ClaimTombstoned);
      hide M.SetClaimPhase, M.ClaimById;
      forall i | 0 <= i < |s.claims| && s.claims[i].id == id ensures IsFirst(s.claims, i) <==> i == k {}
      assert s.claims[k].phase == M.ClaimTombstoned ==>
        s.claims[k := s.claims[k].(phase := M.ClaimTombstoned)] == s.claims;
    } else {
      forall i | 0 <= i < |s.claims| ensures s.claims[i].id != id {
        assert s.claims[i] in s.claims;
      }
    }
  }

  lemma {:induction false} PurgeEachSetsFirst(s: M.State, ids: seq<M.ClaimId>)
    ensures var t := PurgeEach(s, ids);
      && |t.claims| == |s.claims|
      && forall i :: 0 <= i < |s.claims| ==>
           t.claims[i] == if s.claims[i].id in ids && IsFirst(s.claims, i)
             then s.claims[i].(phase := M.ClaimTombstoned) else s.claims[i]
    decreases |ids|
  {
    if ids != [] {
      PurgeSetsFirst(s, ids[0]);
      var u := M.PurgeFinish(M.PurgeBegin(s, ids[0]), ids[0]);
      hide M.PurgeFinish, M.PurgeBegin;
      assert forall i :: 0 <= i < |s.claims| ==> u.claims[i].id == s.claims[i].id;
      assert forall i :: 0 <= i < |s.claims| ==> IsFirst(u.claims, i) == IsFirst(s.claims, i);
      PurgeEachSetsFirst(u, ids[1..]);
    }
  }

  /**
   * What the recovery loop leaves: exactly the first claims with a pending identifier are tombstoned,
   * the others stay, and if purging claims are first with their identifier none is left half purged.
   */
  lemma RecoveryCompletes(s: M.State, archived: set<(M.SourceKind, Name)>)
    requires PurgingFirst(s.claims)
    ensures var t := PurgeEach(s, PendingIds(s.claims, archived));
      && |t.claims| == |s.claims|
      && (forall c :: c in t.claims ==> c.phase != M.Purging)
      && (forall i :: 0 <= i < |s.claims| && t.claims[i] != s.claims[i] ==>
            t.claims[i] == s.claims[i].(phase := M.ClaimTombstoned) && IsFirst(s.claims, i) &&
            exists c :: c in s.claims && c.id == s.claims[i].id && IsPending(c, archived))
      && (forall i :: 0 <= i < |s.claims| && IsPending(s.claims[i], archived) && IsFirst(s.claims, i) ==>
        t.claims[i].phase == M.ClaimTombstoned)
  {
    var ids := PendingIds(s.claims, archived);
    PurgeEachSetsFirst(s, ids);
    var t := PurgeEach(s, ids);
    hide PurgeEach, PendingIds;
    forall i | 0 <= i < |t.claims| ensures t.claims[i].phase != M.Purging {
      assert s.claims[i] in s.claims;
      assert s.claims[i].phase == M.Purging ==> IsFirst(s.claims, i);
    }
  }

  /** A claim being purged is the first with its identifier. */
  ghost predicate PurgingFirst(claims: seq<M.Claim>) {
    forall i, k :: 0 <= k < i < |claims| && claims[i].phase == M.Purging ==> claims[k].id != claims[i].id
  }

  /** A phase is set on the first claim with the identifier, and on no other. */
  lemma FirstAt(claims: seq<M.Claim>, id: M.ClaimId, phase: M.ClaimPhase) returns (k: nat)
    requires M.ClaimById(claims, id).Some?
    ensures k < |claims| && claims[k].id == id && M.ClaimById(claims, id) == Some(claims[k])
    ensures forall i :: 0 <= i < k ==> claims[i].id != id
    ensures M.SetClaimPhase(claims, id, phase) == claims[k := claims[k].(phase := phase)]
  {
    var i :| 0 <= i < |claims| && claims[i].id == id;
    k := FirstIndex(claims, id, i);
    FirstMatch(claims, id, k);
    SetsFirst(claims, id, phase, k);
  }

  lemma {:induction false} FirstIndex(claims: seq<M.Claim>, id: M.ClaimId, i: nat) returns (k: nat)
    requires i < |claims| && claims[i].id == id
    ensures k <= i && claims[k].id == id && forall j :: 0 <= j < k ==> claims[j].id != id
  {
    if claims[0].id == id {
      k := 0;
    } else {
      var m := FirstIndex(claims[1..], id, i - 1);
      k := m + 1;
    }
  }

  lemma {:induction false} SetsFirst(claims: seq<M.Claim>, id: M.ClaimId, phase: M.ClaimPhase, k: nat)
    requires k < |claims| && claims[k].id == id && forall j :: 0 <= j < k ==> claims[j].id != id
    ensures M.SetClaimPhase(claims, id, phase) == claims[k := claims[k].(phase := phase)]
  {
    if k > 0 {
      SetsFirst(claims[1..], id, phase, k - 1);
      assert M.SetClaimPhase(claims, id, phase) == [claims[0]] + M.SetClaimPhase(claims[1..], id, phase);
    } else {
      assert M.SetClaimPhase(claims, id, phase) == [claims[0].(phase := phase)] + claims[1..];
    }
  }

  lemma {:induction false} FirstMatch(claims: seq<M.Claim>, id: M.ClaimId, k: nat)
    requires k < |claims| && claims[k].id == id && forall i :: 0 <= i < k ==> claims[i].id != id
    ensures M.ClaimById(claims, id) == Some(claims[k])
  {
    if k > 0 {
      FirstMatch(claims[1..], id, k - 1);
    }
  }

  /** Both saves of a purge change the same claim. */
  lemma PurgePhases(claims: seq<M.Claim>, id: M.ClaimId)
    requires M.ClaimById(claims, id).Some?
    ensures var c := M.ClaimById(claims, id).value;
      var purging := M.SetClaimPhase(claims, id, M.Purging);
      && M.ClaimById(purging, id) == Some(c.(phase := M.Purging))
      && M.SetClaimPhase(purging, id, M.ClaimTombstoned) == M.SetClaimPhase(claims, id, M.ClaimTombstoned)
      && M.ClaimById(M.SetClaimPhase(claims, id, M.ClaimTombstoned), id) == Some(c.(phase := M.ClaimTombstoned))
  {
    var k := FirstAt(claims, id, M.Purging);
    var m := FirstAt(claims, id, M.ClaimTombstoned);
    var purging := M.SetClaimPhase(claims, id, M.Purging);
    FirstMatch(purging, id, k);
    var l := FirstAt(purging, id, M.ClaimTombstoned);
    FirstMatch(M.SetClaimPhase(claims, id, M.ClaimTombstoned), id, k);
  }

  lemma PurgedClaims(s: M.State, id: M.ClaimId)
    ensures M.PurgeFinish(M.PurgeBegin(s, id), id).claims ==
      if M.ClaimById(s.claims, id).Some? && M.ClaimById(s.claims, id).value.phase != M.ClaimTombstoned
      then M.SetClaimPhase(s.claims, id, M.ClaimTombstoned) else s.claims
  {
    if M.ClaimById(s.claims, id).Some? {
      PurgePhases(s.claims, id);
    }
    hide M.SetClaimPhase, M.ClaimById;
  }

  lemma ApplyKeepsFirst(s: M.State, op: M.Op)
    requires PurgingFirst(s.claims)
    ensures PurgingFirst(M.Apply(s, op).claims)
  {
    hide M.SetClaimPhase, M.StageRefused, M.Independent, M.PrepareRefused, M.ActivateRefused, M.FailureIgnored,
      M.NewClaim;
    if op.OpPurgeBegin? && M.ClaimById(s.claims, op.claim).Some? {
      var k := FirstAt(s.claims, op.claim, M.Purging);
    } else if op.OpPurgeFinish? && M.ClaimById(s.claims, op.claim).Some? {
      var k := FirstAt(s.claims, op.claim, M.ClaimTombstoned);
    } else if op.OpClaim? {
      assert M.NewClaim(s, op.kind, op.source).phase == M.ForgetClaimed by { NewClaimPhase(s, op.kind, op.source); }
    }
  }

  lemma NewClaimPhase(s: M.State, kind: M.SourceKind, source: Name)
    ensures M.NewClaim(s, kind, source).phase == M.ForgetClaimed
  {}

  lemma FilterKeepsKeys(pointers: seq<M.Pointer>, p: M.Pointer -> bool)
    requires P.KeysUnique(pointers)
    ensures P.KeysUnique(Filter(pointers, p))
  {
    FilterKeepsPairs(pointers, p, (a: M.Pointer, b: M.Pointer) => !(a.scope == b.scope && a.identity == b.identity));
  }

  lemma ApplyKeepsKeys(s: M.State, op: M.Op)
    requires P.KeysUnique(s.pointers)
    ensures P.KeysUnique(M.Apply(s, op).pointers)
  {
    hide M.PutPointer, M.StageRefused, M.Independent, M.PrepareRefused, M.NewClaim, M.PointerFor, M.RevisionByHash,
      M.JobById;
    match op
    case OpActivate(id, hash, _) =>
      if !M.ActivateRefused(s, id, hash) {
        var job := M.JobById(s.jobs, id).value;
        P.PutPointerKeeps(s.pointers, M.Pointer(job.scope, job.identity, hash,
          M.ActiveHash(M.PointerFor(s.pointers, job.scope, job.identity))));
      }
    case OpFail(hash) =>
      if !M.FailureIgnored(s, hash) {
        var r := M.RevisionByHash(s.revisions, hash).value;
        FilterKeepsKeys(s.pointers, (p: M.Pointer) => !(p.scope == r.scope && p.identity == r.identity));
        if M.FallbackTarget(s, hash).Some? {
          var target := M.FallbackTarget(s, hash).value;
          var fallback := M.RevisionByHash(M.SetRevisionPhase(s.revisions, hash, M.Demoted), target);
          P.PutPointerKeeps(s.pointers, M.Pointer(r.scope, r.identity, target, if fallback.Some?
            then fallback.value.previous else None));
        }
      }
    case OpClaim(kind, source) =>
      if !M.PendingClaim(s, kind, source) {
        var hashes := M.NewClaim(s, kind, source).revisions;
        FilterKeepsKeys(s.pointers, (p: M.Pointer) => p.active !in hashes);
      }
    case _ =>
  }

  /** So `Activate` and `PermanentFailure` may be called in every reachable state, clean or not. */
  lemma {:induction false} KeysUniqueOverRuns(s: M.State, ops: seq<M.Op>)
    requires P.KeysUnique(s.pointers)
    ensures P.KeysUnique(M.Run(s, ops).pointers)
    decreases |ops|
  {
    if ops != [] {
      ApplyKeepsKeys(s, ops[0]);
      hide M.Apply, P.KeysUnique;
      KeysUniqueOverRuns(M.Apply(s, ops[0]), ops[1..]);
    }
  }

  /** So `RecoverForgetClaims` may be called in every reachable state. */
  lemma {:induction false} PurgingFirstOverRuns(s: M.State, ops: seq<M.Op>)
    requires PurgingFirst(s.claims)
    ensures PurgingFirst(M.Run(s, ops).claims)
    decreases |ops|
  {
    if ops != [] {
      ApplyKeepsFirst(s, ops[0]);
      hide M.Apply, PurgingFirst;
      PurgingFirstOverRuns(M.Apply(s, ops[0]), ops[1..]);
    }
  }

  ghost predicate HasPending(claims: seq<M.Claim>, kind: M.SourceKind, source: Name, id: M.ClaimId, affected: nat) {
    exists c :: c in claims && c.id == id && c.kind == kind && c.source == source && c.phase != M.ClaimTombstoned &&
      |c.revisions| == affected
  }

  function SourceIds(evidence: seq<M.EvidenceRecord>, kind: M.SourceKind, source: Name): (r: set<Name>) {
    set e | e in evidence && M.FromSource(kind, source, e.value) :: e.value.id
  }

  lemma PrefixSource(evidence: seq<M.EvidenceRecord>, i: nat, kind: M.SourceKind, source: Name)
    requires i < |evidence|
    ensures SourceIds(evidence[..i + 1], kind, source) == SourceIds(evidence[..i], kind, source) +
      if M.FromSource(kind, source, evidence[i].value) then {evidence[i].value.id} else {}
  {
    assert evidence[..i + 1] == evidence[..i] + [evidence[i]];
  }

  function DependentSeq(s: M.State, kind: M.SourceKind, source: Name): (r: seq<M.Job>) {
    Filter(s.jobs, (j: M.Job) => M.Dependent(s.evidence, kind, source, j))
  }

  function AffectedSeq(s: M.State, kind: M.SourceKind, source: Name): (r: seq<M.Revision>) {
    var dependent := M.DependentJobs(s, kind, source);
    Filter(s.revisions, (r: M.Revision) => M.Affected(dependent, kind, source, r))
  }

  lemma UniqueKeys(s: M.State)
    requires Inv(s)
    ensures UniqueJobs(s.jobs)
    ensures UniqueHashes(s.revisions)
    ensures forall i, j :: 0 <= i < j < |s.evidence| ==> s.evidence[i].value.id != s.evidence[j].value.id
  {}

  lemma AlreadyPending(s: M.State, kind: M.SourceKind, source: Name, c: M.Claim)
    requires c in s.claims && c.kind == kind && c.source == source && c.phase != M.ClaimTombstoned
    ensures M.ClaimBySource(s, kind, source) == s
  {
    assert M.PendingClaim(s, kind, source);
  }

  lemma SameIds(was: seq<M.EvidenceRecord>, now: seq<M.EvidenceRecord>, ids: set<Name>, kind: M.SourceKind,
      source: Name)
    requires RecordsForgotten(was, now, ids)
    requires forall i, j :: 0 <= i < j < |was| ==> was[i].value.id != was[j].value.id
    ensures forall i, j :: 0 <= i < j < |now| ==> now[i].value.id != now[j].value.id
    ensures SourceIds(now, kind, source) == SourceIds(was, kind, source)
  {
    forall i | 0 <= i < |was| ensures was[i].value == now[i].value && was[i] in was && now[i] in now {}
    forall x | x in SourceIds(was, kind, source) ensures x in SourceIds(now, kind, source) {
      var i :| 0 <= i < |was| && was[i].value.id == x && M.FromSource(kind, source, was[i].value);
      assert now[i] in now;
    }
  }

  lemma ListedEvidence(s: M.State, kind: M.SourceKind, source: Name)
    ensures EvidenceIds(DependentSeq(s, kind, source)) + SourceIds(s.evidence, kind, source) ==
      M.ForgottenEvidence(s, kind, source)
  {
    hide M.Dependent, M.FromSource;
  }

  lemma ListedJobs(s: M.State, kind: M.SourceKind, source: Name)
    ensures JobIds(DependentSeq(s, kind, source)) + Owners(AffectedSeq(s, kind, source)) ==
      M.AffectedJobs(s, kind, source)
    ensures Hashes(AffectedSeq(s, kind, source)) == M.AffectedHashes(s, kind, source)
  {
    hide M.Dependent, M.Affected;
  }

  /** The arrays that the loops leave are those of the set-based operation. */
  lemma Assembles(s: M.State, kind: M.SourceKind, source: Name, jobs: seq<M.Job>, jobs': seq<M.Job>,
                  evidence: seq<M.EvidenceRecord>, evidence': seq<M.EvidenceRecord>, revisions': seq<M.Revision>)
    requires !M.PendingClaim(s, kind, source)
    requires JobsForgotten(s.jobs, jobs, JobIds(DependentSeq(s, kind, source)))
    requires JobsForgotten(jobs, jobs', Owners(AffectedSeq(s, kind, source)))
    requires RecordsForgotten(s.evidence, evidence, EvidenceIds(DependentSeq(s, kind, source)))
    requires RecordsForgotten(evidence, evidence', SourceIds(s.evidence, kind, source))
    requires RevisionsClaimed(s.revisions, revisions', Hashes(AffectedSeq(s, kind, source)))
    ensures var c := M.NewClaim(s, kind, source);
      var hashes := Hashes(AffectedSeq(s, kind, source));
      && c == M.Claim(c.id, kind, source, EvidenceIds(DependentSeq(s, kind, source)) +
        SourceIds(s.evidence, kind, source), hashes, M.ForgetClaimed)
      && c.id == M.ClaimId(kind, source, c.evidence, c.revisions)
      && M.ClaimBySource(s, kind, source) ==
        M.State(evidence', jobs', revisions', M.DropHashes(s.pointers, hashes),
                Filter(s.notifications, (n: M.Notification) => n.status != M.NotePending || n.revision !in hashes),
                  s.claims + [c])
  {
    ListedEvidence(s, kind, source);
    ListedJobs(s, kind, source);
    hide EvidenceIds, SourceIds, JobIds, Owners, Hashes, DependentSeq, AffectedSeq, M.ForgottenEvidence,
      M.AffectedJobs, M.AffectedHashes, M.DropHashes;
    var t := M.ClaimBySource(s, kind, source);
    assert t.jobs == jobs';
    assert t.evidence == evidence';
    assert t.revisions == revisions';
  }
}
