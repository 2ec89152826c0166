/** The part of an Authority snapshot that Landing and reconciliation read and
    write. Records are keyed by their ids, as in the source's plain objects. */
module Authority {
  import opened Basics

  type Id = string
  type Oid = string

  datatype Project = Project(id: Id, sourceSpaceIds: seq<Id>)

  datatype ProjectRevision = ProjectRevision(
    id: Id, projectId: Id, snapshots: map<Id, Oid>, parent: Option<Id>,
    landedIds: seq<Id>, cohortId: Option<Id>)

  datatype ProjectView = ProjectView(id: Id, projectRevisionId: Id, visibleSourceSpaceIds: seq<Id>)

  datatype WorkspaceState = Open | Blocked | Closed
  datatype Workspace = Workspace(
    id: Id, changeId: Option<Id>, projectViewId: Id, projectRevisionId: Id, state: WorkspaceState)

  datatype ChangeStatus = Active | Submitted | Landed
  datatype Change = Change(
    id: Id, projectId: Id, status: ChangeStatus, latestRevisionId: Option<Id>,
    baseProjectRevisionId: Id, workspaceId: Option<Id>)

  datatype ChangeRevision = ChangeRevision(
    id: Id, changeId: Id, projectRevisionId: Id, declaredBase: Option<Id>,
    workspaceId: Option<Id>, projectViewId: Id, snapshots: map<Id, Oid>, conflictIds: seq<Id>)
  {
    /** The declared base, or the Project Revision when none is declared. */
    function Base(): Id {
      if declaredBase.Some? then declaredBase.value else projectRevisionId
    }
  }

  datatype Landing = Landing(
    id: Id, projectId: Id, cohortId: Id, changeIds: seq<Id>, changeRevisionIds: seq<Id>,
    previous: Id, projectRevisionId: Id)

  // ----- external refs -----

  datatype Binding = Binding(space: Id, repository: Id, ref: string)

  /** A binding with the commit its Landing selected and the one it replaces. */
  datatype SelectedRef = SelectedRef(binding: Binding, desired: Oid, base: Oid)

  datatype Observation = Observation(
    providerId: Id, binding: Binding, oid: Option<Oid>, generation: nat, epoch: nat,
    projectRevisionId: Option<Id>, candidate: Option<Oid>, sealed: bool, challenge: Id, receipt: string)

  datatype ProjectionState = Pending | Complete

  datatype ProjectionRecord = ProjectionRecord(
    id: Id, projectId: Id, projectRevisionId: Id, landingId: Id, providerId: Id,
    qualificationReceipt: string, epoch: nat, policyVersion: string, state: ProjectionState,
    bindings: seq<SelectedRef>, repaired: map<Id, Observation>, sealed: map<Id, Observation>)

  // ----- idempotency and audit -----

  datatype Phase = BeginPhase | RepairedPhase(space: Id) | SealedPhase(space: Id) | CompletePhase

  /** Idempotency keys. The source builds them as text; they are kept apart here. */
  datatype Key =
    | CohortKey(cohortId: Id)
    | CheckpointKey(recordId: Id, phase: Phase, generation: Option<nat>)
    | OtherKey(text: string)

  datatype Member = Member(changeId: Id, changeRevisionId: Id)

  datatype Fingerprint =
    | CohortFingerprint(projectId: Id, cohortId: Id, members: seq<Member>, expected: Id)
    | CheckpointFingerprint(recordId: Id, projectRevisionId: Id, epoch: nat, bindings: seq<SelectedRef>,
                            phase: Phase, generation: Option<nat>)
    | OtherFingerprint(text: string)

  datatype Result =
    | LandingResult(landing: Landing, version: nat, policyVersion: string)
    | CheckpointResult(record: ProjectionRecord, version: nat)
    | OtherResult(text: string)

  datatype Entry = Entry(fingerprint: Fingerprint, result: Result)

  datatype AuditEvent = AuditEvent(id: Id, stateVersion: nat, key: Key)

  datatype Snapshot = Snapshot(
    version: nat,
    projects: map<Id, Project>,
    repositories: map<Id, Id>,
    projectRevisions: map<Id, ProjectRevision>,
    projectViews: map<Id, ProjectView>,
    workspaces: map<Id, Workspace>,
    changes: map<Id, Change>,
    changeRevisions: map<Id, ChangeRevision>,
    canonicalByProject: map<Id, Id>,
    landings: map<Id, Landing>,
    projections: map<Id, ProjectionRecord>,
    idempotency: map<Key, Entry>,
    audit: seq<AuditEvent>)

  /** The store's compare-and-swap: a prepared successor replaces the current
      snapshot only if nothing was committed since it was loaded. */
  predicate FenceOpen(current: Snapshot, previous: Snapshot, next: Snapshot) {
    current.version == previous.version && next.version == previous.version + 1
  }
}
