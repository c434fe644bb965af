/**
 * The durable state of the auto-skill store and the operations on it
 * (packages/app/src/auto-skill-store.ts).
 *
 * Every SHA-256 identifier is a free constructor over what is hashed, so digests are
 * injective and their domains are disjoint. A sorted list of digests is a set.
 */
module AutoSkillModel {
  import opened Common

  /** An opaque string: a session, a project, a scope key, a skill identity, a digest. */
  type Name = nat

  /** A source identifier as a revision stores it; a purge replaces it by its digest. */
  datatype Source = Plain(name: Name) | Scrubbed(inner: Source)
  datatype SourceKind = Session | Project

  datatype Evidence = Evidence(
    id: Name, session: Name, turn: Name, project: Name,
    scope: Name, identity: Name, fingerprint: Name, receipts: set<Name>)
  datatype EvidenceStatus = PendingReply | Live | EvidenceClaimed
  datatype EvidenceRecord = EvidenceRecord(value: Evidence, status: EvidenceStatus)

  datatype JobId = JobId(scope: Name, identity: Name, first: Name, second: Name)
  datatype JobPhase =
    | Queued | Generated | Validated | ShadowVerified | JobPrepared | JobActive
    | Quarantined | Forgotten
  datatype Job = Job(
    id: JobId, scope: Name, identity: Name, fingerprint: Name,
    first: Name, second: Name, phase: JobPhase,
    base: Option<Name>, revision: Option<Name>)

  datatype RevisionPhase = RevPrepared | RevActive | Demoted | RevClaimed | Tombstoned
  datatype Revision = Revision(
    hash: Name, scope: Name, identity: Name, job: JobId, phase: RevisionPhase,
    previous: Option<Name>, sessions: (Source, Source), project: Source)

  datatype Pointer = Pointer(scope: Name, identity: Name, active: Name, previous: Option<Name>)

  datatype NotificationStatus = NotePending | NoteClaimed | NoteSent | NoteAmbiguous
  datatype Notification = Notification(revision: Name, status: NotificationStatus)

  datatype ClaimPhase = ForgetClaimed | Purging | ClaimTombstoned
  datatype ClaimId = ClaimId(kind: SourceKind, source: Name, evidence: set<Name>, revisions: set<Name>)
  datatype Claim = Claim(
    id: ClaimId, kind: SourceKind, source: Name,
    evidence: set<Name>, revisions: set<Name>, phase: ClaimPhase)

  datatype State = State(
    evidence: seq<EvidenceRecord>, jobs: seq<Job>, revisions: seq<Revision>,
    pointers: seq<Pointer>, notifications: seq<Notification>, claims: seq<Claim>)

  const EMPTY := State([], [], [], [], [], [])

  // ---- lookups -------------------------------------------------------------------------

  predicate FromSource(kind: SourceKind, source: Name, e: Evidence) {
    match kind
    case Session => e.session == source
    case Project => e.project == source
  }

  predicate RevisionFromSource(kind: SourceKind, source: Name, r: Revision) {
    match kind
    case Session => r.sessions.0 == Plain(source) || r.sessions.1 == Plain(source)
    case Project => r.project == Plain(source)
  }

  function JobById(jobs: seq<Job>, id: JobId): (r: Option<Job>)
    ensures if r.Some? then r.value in jobs && r.value.id == id else forall j :: j in jobs ==> j.id != id
  {
    Find(jobs, (j: Job) => j.id == id)
  }

  function RevisionByHash(revisions: seq<Revision>, hash: Name): (r: Option<Revision>)
    ensures if r.Some? then r.value in revisions && r.value.hash == hash else forall q :: q in revisions ==>
      q.hash != hash
  {
    Find(revisions, (r: Revision) => r.hash == hash)
  }

  function PointerFor(pointers: seq<Pointer>, scope: Name, identity: Name): (r: Option<Pointer>)
    ensures if r.Some? then r.value in pointers && r.value.scope == scope && r.value.identity == identity
            else forall p :: p in pointers ==> !(p.scope == scope && p.identity == identity)
  {
    Find(pointers, (p: Pointer) => p.scope == scope && p.identity == identity)
  }

  function ActiveHash(p: Option<Pointer>): (r: Option<Name>) {
    if p.Some? then Some(p.value.active) else None
  }

  predicate SameWorkflow(e: Evidence, f: Evidence) {
    e.scope == f.scope && e.identity == f.identity && e.fingerprint == f.fingerprint
  }

  predicate JobOfWorkflow(j: Job, e: Evidence) {
    j.scope == e.scope && j.identity == e.identity && j.fingerprint == e.fingerprint
  }

  function PutJob(jobs: seq<Job>, job: Job): (r: seq<Job>)
    ensures |r| == |jobs| && forall i :: 0 <= i < |r| ==> r[i] == if jobs[i].id == job.id then job else jobs[i]
  {
    UpdateIf(jobs, (j: Job) => j.id == job.id, (j: Job) => job)
  }

  function SetRevisionPhase(revisions: seq<Revision>, hash: Name, phase: RevisionPhase): (r: seq<Revision>)
    ensures |r| == |revisions|
    ensures forall i :: 0 <= i < |r| ==>
      r[i] == if revisions[i].hash == hash then revisions[i].(phase := phase) else revisions[i]
  {
    UpdateIf(revisions, (r: Revision) => r.hash == hash, (r: Revision) => r.(phase := phase))
  }

  // ---- staging and confirming evidence ---------------------------------------------------

  predicate StageRefused(s: State, e: Evidence) {
    || (exists c :: c in s.claims &&
          (e.id in c.evidence || (c.phase != ClaimTombstoned && FromSource(c.kind, c.source, e))))
    || (exists r :: r in s.evidence && (r.value.id == e.id || r.value.receipts * e.receipts != {}))
  }

  function Stage(s: State, e: Evidence): (r: State) {
    if StageRefused(s, e) then s
    else s.(evidence := s.evidence + [EvidenceRecord(e, PendingReply)])
  }

  /** One live record per session, in order, of the workflow of `e`. */
  function Independent(evidence: seq<EvidenceRecord>, e: Evidence, seen: set<Name>): (r: seq<EvidenceRecord>) {
    if evidence == [] then []
    else
      var h := evidence[0];
      if h.status.Live? && SameWorkflow(h.value, e) && h.value.session !in seen
      then [h] + Independent(evidence[1..], e, seen + {h.value.session})
      else Independent(evidence[1..], e, seen)
  }

  function NewJob(s: State, e: Evidence, a: Name, b: Name): (j: Job) {
    var first, second := if a <= b then a else b, if a <= b then b else a;
    Job(JobId(e.scope, e.identity, first, second), e.scope, e.identity, e.fingerprint,
        first, second, Queued, ActiveHash(PointerFor(s.pointers, e.scope, e.identity)), None)
  }

  /** Queues a job once two independent live records of one workflow exist. */
  function ConfirmEvidence(s: State, e: Evidence): (r: State) {
    var independent := Independent(s.evidence, e, {});
    if |independent| < 2 then s
    else if exists j :: j in s.jobs && JobOfWorkflow(j, e) && j.phase != Forgotten then s
    else s.(jobs := s.jobs + [NewJob(s, e, independent[0].value.id, independent[1].value.id)])
  }

  predicate PendingFor(r: EvidenceRecord, id: Name, session: Name, turn: Name) {
    r.status.PendingReply? && r.value.id == id && r.value.session == session && r.value.turn == turn
  }

  function ConfirmReply(s: State, id: Name, session: Name, turn: Name): (r: State) {
    var pending := Find(s.evidence, (r: EvidenceRecord) => PendingFor(r, id, session, turn));
    if pending.None? then s
    else
      var live := UpdateIf(s.evidence, (r: EvidenceRecord) => PendingFor(r, id, session, turn),
                           (r: EvidenceRecord) => r.(status := Live));
      ConfirmEvidence(s.(evidence := live), pending.value.value)
  }

  // ---- jobs ------------------------------------------------------------------------------

  /** The three phase transitions the worker drives (auto-skill-worker.ts). */
  datatype WorkerStep = ToGenerated | ToValidated | ToShadowVerified

  function Expected(w: WorkerStep): (p: JobPhase) {
    match w case ToGenerated => Queued case ToValidated => Generated case ToShadowVerified => Validated
  }

  function Next(w: WorkerStep): (p: JobPhase) {
    match w case ToGenerated => Generated case ToValidated => Validated case ToShadowVerified => ShadowVerified
  }

  function AdvanceJob(s: State, id: JobId, w: WorkerStep): (r: State) {
    var job := JobById(s.jobs, id);
    if job.None? || job.value.phase != Expected(w) then s
    else s.(jobs := PutJob(s.jobs, job.value.(phase := Next(w))))
  }

  function Quarantine(s: State, id: JobId): (r: State) {
    var job := JobById(s.jobs, id);
    if job.None? || job.value.phase in {JobActive, Forgotten} then s
    else s.(jobs := PutJob(s.jobs, job.value.(phase := Quarantined)))
  }

  /** `evidenceFor`: both records must be present and live. */
  function EvidenceFor(evidence: seq<EvidenceRecord>, job: Job): (r: Option<(Evidence, Evidence)>) {
    var a := Find(evidence, (e: EvidenceRecord) => e.status.Live? && e.value.id == job.first);
    var b := Find(evidence, (e: EvidenceRecord) => e.status.Live? && e.value.id == job.second);
    if a.Some? && b.Some? then Some((a.value.value, b.value.value)) else None
  }

  datatype Manifest = Manifest(hash: Name, scope: Name, identity: Name)

  predicate PrepareRefused(s: State, id: JobId, m: Manifest) {
    var job := JobById(s.jobs, id);
    || job.None?
    || job.value.phase != ShadowVerified
    || job.value.identity != m.identity || job.value.scope != m.scope
    || ActiveHash(PointerFor(s.pointers, job.value.scope, job.value.identity)) != job.value.base
    || EvidenceFor(s.evidence, job.value).None?
    || (var existing := RevisionByHash(s.revisions, m.hash);
        existing.Some? && existing.value != PreparedRevision(s, job.value, m))
  }

  function PreparedRevision(s: State, job: Job, m: Manifest): (r: Revision)
    requires EvidenceFor(s.evidence, job).Some?
  {
    var (a, b) := EvidenceFor(s.evidence, job).value;
    Revision(m.hash, job.scope, job.identity, job.id, RevPrepared,
             ActiveHash(PointerFor(s.pointers, job.scope, job.identity)),
             (Plain(a.session), Plain(b.session)), Plain(a.project))
  }

  function Prepare(s: State, id: JobId, m: Manifest): (r: State) {
    if PrepareRefused(s, id, m) then s
    else
      var job := JobById(s.jobs, id).value;
      var revisions := if RevisionByHash(s.revisions, m.hash).Some? then s.revisions
                       else s.revisions + [PreparedRevision(s, job, m)];
      s.(revisions := revisions,
         jobs := PutJob(s.jobs, job.(phase := JobPrepared, revision := Some(m.hash))))
  }

  // ---- activation and fallback -------------------------------------------------------------

  predicate ActivateRefused(s: State, id: JobId, hash: Name) {
    var job := JobById(s.jobs, id);
    var revision := RevisionByHash(s.revisions, hash);
    || job.None? || job.value.phase != JobPrepared || job.value.revision != Some(hash)
    || revision.None? || revision.value.phase != RevPrepared
    || ActiveHash(PointerFor(s.pointers, job.value.scope, job.value.identity)) != job.value.base
  }

  function PutPointer(pointers: seq<Pointer>, p: Pointer): (r: seq<Pointer>) {
    if PointerFor(pointers, p.scope, p.identity).None? then pointers + [p]
    else UpdateIf(pointers, (q: Pointer) => q.scope == p.scope && q.identity == p.identity, (q: Pointer) => p)
  }

  /** The revision that was active before is demoted, the prepared one becomes active. */
  function ActivatedRevisions(revisions: seq<Revision>, hash: Name, previous: Option<Name>): (r: seq<Revision>)
    ensures |r| == |revisions|
    ensures forall i :: 0 <= i < |r| ==>
      r[i] == revisions[i].(phase := if revisions[i].hash == hash then RevActive
                                     else if previous == Some(revisions[i].hash) && revisions[i].phase == RevActive
                                       then Demoted
                                     else revisions[i].phase)
  {
    var demoted :=
      UpdateIf(revisions, (r: Revision) => previous == Some(r.hash) && r.phase == RevActive,
               (r: Revision) => r.(phase := Demoted));
    SetRevisionPhase(demoted, hash, RevActive)
  }

  /**
   * `readable` is whether the artifact can be read back. When it cannot, the call throws after
   * the state was changed in memory and before the notification is added.
   */
  function Activate(s: State, id: JobId, hash: Name, readable: bool): (r: State) {
    if ActivateRefused(s, id, hash) then s
    else
      var job := JobById(s.jobs, id).value;
      var revision := RevisionByHash(s.revisions, hash).value;
      var pointer := PointerFor(s.pointers, job.scope, job.identity);
      s.(pointers := PutPointer(s.pointers, Pointer(job.scope, job.identity, hash, ActiveHash(pointer))),
         revisions := ActivatedRevisions(s.revisions, hash, revision.previous),
         jobs := PutJob(s.jobs, job.(phase := JobActive)),
         notifications :=
           if !readable || (exists n :: n in s.notifications && n.revision == hash) then s.notifications
           else s.notifications + [Notification(hash, NotePending)])
  }

  predicate FailureIgnored(s: State, hash: Name) {
    var revision := RevisionByHash(s.revisions, hash);
    || revision.None? || revision.value.phase != RevActive
    || ActiveHash(PointerFor(s.pointers, revision.value.scope, revision.value.identity)) != Some(hash)
  }

  /** Where a failure of `hash` falls back to: the previous hash of its pointer. */
  function FallbackTarget(s: State, hash: Name): (r: Option<Name>)
    requires !FailureIgnored(s, hash)
  {
    var revision := RevisionByHash(s.revisions, hash).value;
    PointerFor(s.pointers, revision.scope, revision.identity).value.previous
  }

  function PermanentFailure(s: State, hash: Name): (r: State) {
    if FailureIgnored(s, hash) then s
    else
      var revision := RevisionByHash(s.revisions, hash).value;
      var demoted := SetRevisionPhase(s.revisions, hash, Demoted);
      match FallbackTarget(s, hash)
      case None =>
        s.(revisions := demoted,
           pointers := Filter(s.pointers,
             (p: Pointer) => !(p.scope == revision.scope && p.identity == revision.identity)))
      case Some(target) =>
        var fallback := RevisionByHash(demoted, target);
        s.(revisions := SetRevisionPhase(demoted, target, RevActive),
           pointers := PutPointer(s.pointers, Pointer(revision.scope, revision.identity, target,
             if fallback.Some? then fallback.value.previous else None)))
  }

  // ---- forgetting --------------------------------------------------------------------------

  predicate Dependent(evidence: seq<EvidenceRecord>, kind: SourceKind, source: Name, j: Job) {
    && j.phase != Forgotten
    && (exists e :: e in evidence && (e.value.id == j.first || e.value.id == j.second) &&
                    FromSource(kind, source, e.value))
  }

  function DependentJobs(s: State, kind: SourceKind, source: Name): (r: set<Job>) {
    set j | j in s.jobs && Dependent(s.evidence, kind, source, j)
  }

  predicate Affected(dependent: set<Job>, kind: SourceKind, source: Name, r: Revision) {
    && r.phase != Tombstoned
    && ((exists j :: j in dependent && j.id == r.job) || RevisionFromSource(kind, source, r))
  }

  function AffectedHashes(s: State, kind: SourceKind, source: Name): (r: set<Name>) {
    set r | r in s.revisions && Affected(DependentJobs(s, kind, source), kind, source, r) :: r.hash
  }

  function AffectedJobs(s: State, kind: SourceKind, source: Name): (r: set<JobId>) {
    (set j | j in DependentJobs(s, kind, source) :: j.id) +
    (set r | r in s.revisions && Affected(DependentJobs(s, kind, source), kind, source, r) :: r.job)
  }

  function ForgottenEvidence(s: State, kind: SourceKind, source: Name): (r: set<Name>) {
    (set j | j in DependentJobs(s, kind, source) :: j.first) +
    (set j | j in DependentJobs(s, kind, source) :: j.second) +
    (set e | e in s.evidence && FromSource(kind, source, e.value) :: e.value.id)
  }

  function DropHashes(pointers: seq<Pointer>, hashes: set<Name>): (r: seq<Pointer>) {
    UpdateIf(Filter(pointers, (p: Pointer) => p.active !in hashes),
             (p: Pointer) => p.previous.Some? && p.previous.value in hashes,
             (p: Pointer) => p.(previous := None))
  }

  predicate PendingClaim(s: State, kind: SourceKind, source: Name) {
    exists c :: c in s.claims && c.kind == kind && c.source == source && c.phase != ClaimTombstoned
  }

  function NewClaim(s: State, kind: SourceKind, source: Name): (c: Claim) {
    var evidence, hashes := ForgottenEvidence(s, kind, source), AffectedHashes(s, kind, source);
    Claim(ClaimId(kind, source, evidence, hashes), kind, source, evidence, hashes, ForgetClaimed)
  }

  function ClaimBySource(s: State, kind: SourceKind, source: Name): (r: State) {
    if PendingClaim(s, kind, source) then s
    else
      var c := NewClaim(s, kind, source);
      var jobs := AffectedJobs(s, kind, source);
      State(
        UpdateIf(s.evidence, (e: EvidenceRecord) => e.value.id in c.evidence,
                 (e: EvidenceRecord) => e.(status := EvidenceClaimed)),
        UpdateIf(s.jobs, (j: Job) => j.id in jobs, (j: Job) => j.(phase := Forgotten)),
        UpdateIf(s.revisions, (r: Revision) => r.hash in c.revisions, (r: Revision) => r.(phase := RevClaimed)),
        DropHashes(s.pointers, c.revisions),
        Filter(s.notifications, (n: Notification) => n.status != NotePending || n.revision !in c.revisions),
        s.claims + [c])
  }

  function ClaimById(claims: seq<Claim>, id: ClaimId): (r: Option<Claim>)
    ensures r.Some? ==> r.value in claims && r.value.id == id
  {
    Find(claims, (c: Claim) => c.id == id)
  }

  /** Changes the phase of the first claim with this identifier: identifiers can repeat. */
  function SetClaimPhase(claims: seq<Claim>, id: ClaimId, phase: ClaimPhase): (r: seq<Claim>)
    ensures |r| == |claims|
    ensures forall i :: 0 <= i < |claims| ==> r[i] == claims[i] || r[i] == claims[i].(phase := phase)
  {
    if claims == [] then []
    else if claims[0].id == id then [claims[0].(phase := phase)] + claims[1..]
    else [claims[0]] + SetClaimPhase(claims[1..], id, phase)
  }

  function PurgeBegin(s: State, id: ClaimId): (r: State) {
    var claim := ClaimById(s.claims, id);
    if claim.None? || claim.value.phase == ClaimTombstoned then s
    else s.(claims := SetClaimPhase(s.claims, id, Purging))
  }

  function Tombstone(r: Revision): (t: Revision) {
    r.(phase := Tombstoned, sessions := (Scrubbed(r.sessions.0), Scrubbed(r.sessions.1)),
       project := Scrubbed(r.project))
  }

  predicate PurgeReady(s: State, id: ClaimId) {
    var claim := ClaimById(s.claims, id);
    claim.Some? && claim.value.phase == Purging
  }

  function PurgeFinish(s: State, id: ClaimId): (r: State) {
    if !PurgeReady(s, id) then s
    else
      var claim := ClaimById(s.claims, id).value;
      s.(revisions := UpdateIf(s.revisions, (r: Revision) => r.hash in claim.revisions, Tombstone),
         evidence := Filter(s.evidence, (e: EvidenceRecord) => e.status != EvidenceClaimed),
         claims := SetClaimPhase(s.claims, id, ClaimTombstoned))
  }

  // ---- notifications -------------------------------------------------------------------------

  /** `claimNotification` takes the first pending one, `completeNotification` settles a claimed one. */
  function SetNotification(s: State, revision: Name, from: NotificationStatus, to: NotificationStatus): (r: State) {
    s.(notifications :=
         UpdateIf(s.notifications, (n: Notification) => n.revision == revision && n.status == from,
                  (n: Notification) => n.(status := to)))
  }

  /** Opening the store turns every claimed notification into an ambiguous one. */
  function Reopen(s: State): (r: State) {
    s.(notifications := UpdateIf(s.notifications, (n: Notification) => n.status == NoteClaimed,
                                 (n: Notification) => n.(status := NoteAmbiguous)))
  }

  // ---- runs -----------------------------------------------------------------------------------

  datatype Op =
    | OpStage(e: Evidence)
    | OpConfirm(id: Name, session: Name, turn: Name)
    | OpAdvance(job: JobId, step: WorkerStep)
    | OpQuarantine(job: JobId)
    | OpPrepare(job: JobId, manifest: Manifest)
    | OpActivate(job: JobId, hash: Name, readable: bool)
    | OpFail(hash: Name)
    | OpClaim(kind: SourceKind, source: Name)
    | OpPurgeBegin(claim: ClaimId)
    | OpPurgeFinish(claim: ClaimId)
    | OpNotification(revision: Name, from: NotificationStatus, to: NotificationStatus)
    | OpReopen

  function Apply(s: State, op: Op): (r: State) {
    match op
    case OpStage(e) => Stage(s, e)
    case OpConfirm(id, session, turn) => ConfirmReply(s, id, session, turn)
    case OpAdvance(job, step) => AdvanceJob(s, job, step)
    case OpQuarantine(job) => Quarantine(s, job)
    case OpPrepare(job, m) => Prepare(s, job, m)
    case OpActivate(job, hash, readable) => Activate(s, job, hash, readable)
    case OpFail(hash) => PermanentFailure(s, hash)
    case OpClaim(kind, source) => ClaimBySource(s, kind, source)
    case OpPurgeBegin(id) => PurgeBegin(s, id)
    case OpPurgeFinish(id) => PurgeFinish(s, id)
    case OpNotification(revision, from, to) => SetNotification(s, revision, from, to)
    case OpReopen => Reopen(s)
  }

  /** The state after a run of operations from `s`. */
  function Run(s: State, ops: seq<Op>): (r: State)
    decreases |ops|
  {
    if ops == [] then s else Run(Apply(s, ops[0]), ops[1..])
  }

  lemma {:induction false} RunSteps(ops: seq<Op>, states: seq<State>)
    requires |states| == |ops| + 1 && forall i :: 0 <= i < |ops| ==> states[i + 1] == Apply(states[i], ops[i])
    ensures Run(states[0], ops) == states[|ops|]
    decreases |ops|
  {
    if ops != [] {
      RunSteps(ops[1..], states[1..]);
    }
  }

  lemma {:induction false} RunAppends(s: State, a: seq<Op>, b: seq<Op>)
    ensures Run(s, a + b) == Run(Run(s, a), b)
    decreases |a|
  {
    if a == [] {
      assert a + b == b;
    } else {
      assert (a + b)[1..] == a[1..] + b;
      RunAppends(Apply(s, a[0]), a[1..], b);
    }
  }
}
