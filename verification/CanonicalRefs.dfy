/** The synchronous pieces of canonical-ref reconciliation: what is selected,
    which stored record is current, what an observation must bind, how a
    checkpoint is saved, and the provider seam the refs obey. */
module CanonicalRefs {
  import opened Basics
  import opened Authority
  import opened CohortLanding

  /** One reconciler: its Project, its qualified provider, and the bindings it
      covers, listed in the Source Space order the source sorts them into. */
  datatype Config = Config(
    projectId: Id, providerId: Id, fencingObserved: bool, qualificationReceipt: string, bindings: seq<Binding>)

  predicate IsOid(oid: Oid) {
    && (|oid| == 40 || |oid| == 64)
    && forall c | c in oid :: '0' <= c <= '9' || 'a' <= c <= 'f'
  }

  // ------------------------------------------------------------------- selection

  predicate BindingSelectable(s: Snapshot, project: Project, revision: ProjectRevision, parent: ProjectRevision, b: Binding) {
    && b.space in project.sourceSpaceIds
    && b.space in s.repositories && s.repositories[b.space] == b.repository
    && RefNameWellFormed(b.ref)
    && b.space in revision.snapshots && IsOid(revision.snapshots[b.space])
    && b.space in parent.snapshots && IsOid(parent.snapshots[b.space])
  }

  function Spaces(bindings: seq<Binding>): (spaces: seq<Id>)
    ensures |spaces| == |bindings| && forall i | 0 <= i < |spaces| :: spaces[i] == bindings[i].space
  {
    seq(|bindings|, i requires 0 <= i < |bindings| => bindings[i].space)
  }

  function Repositories(bindings: seq<Binding>): (repositories: seq<Id>)
    ensures |repositories| == |bindings| && forall i | 0 <= i < |repositories| :: repositories[i] == bindings[i].repository
  {
    seq(|bindings|, i requires 0 <= i < |bindings| => bindings[i].repository)
  }

  function ParentOf(s: Snapshot, revision: ProjectRevision): Option<ProjectRevision> {
    if revision.parent.Some? && revision.parent.value in s.projectRevisions
    then Some(s.projectRevisions[revision.parent.value]) else None
  }

  /** The provider is qualified and the bindings cover the Project's spaces
      exactly, each bound to its own enrolled repository and to two commits. */
  predicate Coverable(s: Snapshot, c: Config) {
    && c.fencingObserved && c.qualificationReceipt != "" && c.providerId != ""
    && HasCanonical(s, c.projectId)
    && var project := s.projects[c.projectId];
    var revision := CanonicalRevision(s, c.projectId);
    var parent := ParentOf(s, revision);
    && parent.Some? && parent.value.projectId == c.projectId
    && |c.bindings| == |project.sourceSpaceIds|
    && Distinct(Spaces(c.bindings))
    && Distinct(Repositories(c.bindings))
    && forall b | b in c.bindings :: BindingSelectable(s, project, revision, parent.value, b)
  }

  function Selected(s: Snapshot, c: Config): (refs: seq<SelectedRef>)
    requires Coverable(s, c)
    ensures |refs| == |c.bindings|
  {
    var revision := CanonicalRevision(s, c.projectId);
    var parent := ParentOf(s, revision).value;
    seq(|c.bindings|, i requires 0 <= i < |c.bindings| =>
      var b := c.bindings[i];
      assert b in c.bindings;
      SelectedRef(b, revision.snapshots[b.space], parent.snapshots[b.space]))
  }

  // -------------------------------------------------------------- current record

  /** An idempotency entry that carries this Landing's immutable result. */
  predicate LandingAt(s: Snapshot, key: Key, landingId: Id, projectId: Id, revisionId: Id, epoch: nat, policyVersion: string) {
    && key in s.idempotency
    && s.idempotency[key].result.LandingResult?
    && var result := s.idempotency[key].result;
    && result.landing.id == landingId
    && result.landing.projectId == projectId
    && result.landing.projectRevisionId == revisionId
    && result.version == epoch
    && result.policyVersion == policyVersion
  }

  /** The stored record is the exact one for the current selection. */
  predicate RecordCurrent(s: Snapshot, c: Config) {
    && Coverable(s, c)
    && c.projectId in s.projections
    && var record := s.projections[c.projectId];
    && record.projectId == c.projectId
    && record.projectRevisionId == s.canonicalByProject[c.projectId]
    && record.providerId == c.providerId
    && record.qualificationReceipt == c.qualificationReceipt
    && record.epoch > 0
    && record.bindings == Selected(s, c)
    && record.landingId in s.landings
    && exists key | key in s.idempotency ::
         LandingAt(s, key, record.landingId, record.projectId, record.projectRevisionId, record.epoch, record.policyVersion)
  }

  function CurrentRecord(s: Snapshot, c: Config): Option<ProjectionRecord> {
    if RecordCurrent(s, c) then Some(s.projections[c.projectId]) else None
  }

  /** A Landing result for the revision, complete enough to begin from. */
  predicate BeginsFrom(a: Snapshot, revisionId: Id, key: Key) {
    && key in a.idempotency && a.idempotency[key].result.LandingResult?
    && a.idempotency[key].result.landing.projectRevisionId == revisionId
    && a.idempotency[key].result.version != 0
    && a.idempotency[key].result.policyVersion != ""
  }

  function NewRecord(a: Snapshot, c: Config, key: Key, recordId: Id): ProjectionRecord
    requires Coverable(a, c) && BeginsFrom(a, a.canonicalByProject[c.projectId], key)
  {
    var result := a.idempotency[key].result;
    ProjectionRecord(recordId, c.projectId, a.canonicalByProject[c.projectId], result.landing.id, c.providerId,
                     c.qualificationReceipt, result.version, result.policyVersion, Pending, Selected(a, c), map[], map[])
  }

  // ---------------------------------------------------------------- observations

  predicate ObservationBound(v: Observation, c: Config, binding: Binding, challenge: Id) {
    && v.providerId == c.providerId
    && v.binding == binding
    && v.challenge == challenge
    && v.receipt != ""
    && (v.oid.Some? ==> IsOid(v.oid.value))
  }

  /** The provider state binds the exact Landing epoch and candidate. */
  predicate Exact(v: Observation, record: ProjectionRecord, target: SelectedRef) {
    && v.epoch == record.epoch
    && v.projectRevisionId == Some(record.projectRevisionId)
    && v.candidate == Some(target.desired)
    && v.oid == Some(target.desired)
  }

  predicate SealedOnRecord(c: Config, record: ProjectionRecord, i: nat)
    requires i < |record.bindings|
  {
    var target := record.bindings[i];
    && target.binding.space in record.sealed
    && var sealed := record.sealed[target.binding.space];
    && sealed.sealed
    && ObservationBound(sealed, c, target.binding, sealed.challenge)
    && Exact(sealed, record, target)
  }

  // ----------------------------------------------------------------- checkpoints

  datatype Saved = Replay | Written(next: Snapshot) | Halted

  function CheckpointPrint(record: ProjectionRecord, phase: Phase, generation: Option<nat>): Fingerprint {
    CheckpointFingerprint(record.id, record.projectRevisionId, record.epoch, record.bindings, phase, generation)
  }

  /** The snapshot a checkpoint commits. */
  function Checkpointed(s: Snapshot, record: ProjectionRecord, phase: Phase, generation: Option<nat>, auditId: Id): Snapshot {
    var key := CheckpointKey(record.id, phase, generation);
    s.(version := s.version + 1,
       projections := s.projections[record.projectId := record],
       idempotency := s.idempotency[key := Entry(CheckpointPrint(record, phase, generation), CheckpointResult(record, s.version + 1))],
       audit := s.audit + [AuditEvent(auditId, s.version + 1, key)])
  }

  function Save(s: Snapshot, record: ProjectionRecord, phase: Phase, generation: Option<nat>, auditId: Id): Saved {
    var key := CheckpointKey(record.id, phase, generation);
    if record.projectId !in s.canonicalByProject || s.canonicalByProject[record.projectId] != record.projectRevisionId then
      Halted
    else if key in s.idempotency then
      if s.idempotency[key].fingerprint == CheckpointPrint(record, phase, generation) then Replay else Halted
    else
      var existing := if record.projectId in s.projections then Some(s.projections[record.projectId]) else None;
      if phase != BeginPhase && (existing.None? || existing.value.id != record.id || existing.value.state == Complete) then
        Halted
      else if phase == BeginPhase && existing.Some? && existing.value.projectRevisionId == record.projectRevisionId then
        Halted
      else
        Written(Checkpointed(s, record, phase, generation, auditId))
  }

  // --------------------------------------------------------------- provider seam

  datatype RefState = RefState(
    oid: Option<Oid>, generation: nat, epoch: nat, projectRevisionId: Option<Id>, candidate: Option<Oid>, sealed: bool)

  datatype RefRequest = RefRequest(
    target: SelectedRef, projectRevisionId: Id, epoch: nat, expectedGeneration: nat, expectedOid: Option<Oid>)

  /** What an honest observation of a ref reports. */
  function Report(r: RefState, c: Config, binding: Binding, challenge: Id, receipt: string): Observation {
    Observation(c.providerId, binding, r.oid, r.generation, r.epoch, r.projectRevisionId, r.candidate, r.sealed, challenge, receipt)
  }

  /** The ref is sealed at the record's epoch, for its revision, with the commit
      it asks for. */
  predicate SealedExactly(r: RefState, record: ProjectionRecord, target: SelectedRef) {
    && r.sealed
    && r.epoch == record.epoch
    && r.projectRevisionId == Some(record.projectRevisionId)
    && r.candidate == Some(target.desired)
    && r.oid == Some(target.desired)
  }

  /** The rule every canonical writer obeys: each write is a new generation,
      the epoch never drops, and a sealed epoch admits only a later one. */
  predicate LegalWrite(before: RefState, after: RefState) {
    && after.generation > before.generation
    && after.epoch >= before.epoch
    && (before.sealed ==> after.epoch > before.epoch)
  }

  predicate RepairAccepted(r: RefState, q: RefRequest) {
    && r.generation == q.expectedGeneration
    && r.oid == q.expectedOid
    && (q.epoch > r.epoch
        || (q.epoch == r.epoch && !r.sealed
            && r.projectRevisionId == Some(q.projectRevisionId) && r.candidate == Some(q.target.desired)))
  }

  /** What an iteration asks of the provider, at the state it observed. */
  function RequestFor(record: ProjectionRecord, target: SelectedRef, v: Observation): RefRequest {
    RefRequest(target, record.projectRevisionId, record.epoch, v.generation, v.oid)
  }

  /** An observation on which reconciliation stops rather than repairs. */
  predicate Competing(v: Observation, record: ProjectionRecord, target: SelectedRef) {
    || v.epoch > record.epoch
    || (v.epoch == record.epoch && (v.projectRevisionId != Some(record.projectRevisionId) || v.candidate != Some(target.desired)))
    || (v.oid != Some(target.base) && v.oid != Some(target.desired))
  }

  function Repaired(r: RefState, q: RefRequest): RefState {
    RefState(Some(q.target.desired), r.generation + 1, q.epoch, Some(q.projectRevisionId), Some(q.target.desired), false)
  }

  predicate SealAccepted(r: RefState, q: RefRequest) {
    && r.generation == q.expectedGeneration
    && r.oid == Some(q.target.desired)
    && r.epoch == q.epoch
    && r.projectRevisionId == Some(q.projectRevisionId)
    && r.candidate == Some(q.target.desired)
    && !r.sealed
  }

  function SealedRef(r: RefState): RefState {
    r.(sealed := true, generation := r.generation + 1)
  }
}
