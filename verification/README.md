# Anyam change control: a verified model

This project models the parts of the Anyam change-control plane that keep several
actors from destroying each other's work, and proves what those parts promise. It is
written for Dafny 4.11; `dafny verify dfyconfig.toml` checks all of it.

Three groups of modules follow the repository's own structure.

**Fenced Landing and reconciliation.** A Landing selects the next canonical Project
Revision by compare-and-swap on a versioned snapshot. A reconciler then drives external
repository refs to that selection through repair, seal and complete checkpoints, and the
next Landing opens only after fresh probes of a complete record.

- `Authority`: the typed snapshot both sides read and write, and the store's version fence.
- `CohortLanding`: composing a cohort, committing a selection, planning a projection.
- `CanonicalRefs`: the synchronous pieces of reconciliation and the provider's seam rule.
- `FencedLanding`, `LandingInvariants`, `FencedLandingSafety`: Landings and reconcile workers
  as one state machine split at every await. Any number of workers overlap and may be
  killed anywhere; requests arrive late, twice or never; repair and seal replies are
  arbitrary; other writers obey only the epoch floor and the seal rule. Only `observe` is
  taken to be honest: it reports the ref as it was at some moment during the call.
- `RefLag`: how far refs lag behind the canonical selection when reconcilers are their only
  writers, and exactly which runs keep the bound.
- `ProtocolRuns`, `SmallProject`, `StaleLoop`, `LostSeal`: runs of the protocol built from their
  start, step by step, and the two that end where nobody wants them to.
- `Reconciliation`: one reconcile call at a time over a store and a provider it updates in
  place, killed at any await and restarted: what it leaves, and when it completes.
- `AuthorityStore`, `AuthorityHistory`: the SQLite store over row maps, with rollback;
  interleaved clients; the audit order and its chain digest.
- `AuthorityEncoding`: the typed snapshot written as those rows, so that a Landing or checkpoint
  is stored and read back unchanged exactly when the version fence is open.

**Artifacts Workspaces.**

- `AncestryWalk`: the explicit-stack ancestry walk of an observation.
- `NamespaceInventory`: the absence check over an untrusted paged listing.
- `WorkspaceCustody`, `WorkspaceStore`: issuing, forking and revoking under interleaving, lost
  replies, crashes and failed custody writes; the custody store.
- `QualificationCleanup`: the qualification ledger and the guarded deletion of owned repositories.
- `RecoveryScanner`, `RecoveryRestore`: the duplicate-member scanner and the all-or-nothing restore.

**Compare-and-swap state machines.**

- `LocalComposition`, `LocalChanges`: the in-memory Change coordinator.
- `ProviderOperations`: digest-chained operation checkpoints under overlapping calls.

## What the code does not do

Four promises turn out narrower than the code's structure suggests. Each is kept as the
code has it, with the case that fails and the condition under which the promise holds.

- The reconcile loop runs over the bindings of the record it entered with but reloads the
  record in each iteration (`src/cloudflare/canonical-ref-reconciliation.ts:161-162`). A loop
  that outlives its record can write a commit that is neither the canonical revision's nor
  its parent's, under the newest epoch: `StaleLoop.StaleLoopRun` gives a whole run of
  reconcilers alone, from a Project just imported, that ends so. The bound holds in every
  state of a run if and only if every repair applied asked for one of those two commits
  (`RefLag.RefsHoldRecentIff`), and with its epoch if and only if every repair applied asked
  for the commit of the Landing whose epoch it carries (`RefLag.RefsStayOneBehindIff`). Runs
  whose suspended loops run over the bindings of the record they hold are among them
  (`RefLag.RefsStayOneBehind`).
- A checkpoint saves a copy of the record loaded before the awaits, and its replay branch
  does not write again (lines 127-136). With two workers at once a seal can vanish from the
  record for good: `Reconciliation.OverlapLosesSeal` says from where, and `LostSeal.LostSealRun`
  is a whole run of two workers that gets there. With one worker at a time a call left alone
  completes if and only if no seal was lost and every ref can still be brought to the
  selection (`Reconciliation.CanonicalRefReconciler.Reconcile`).
- `revokeWorkspace` does not read the token ids again at its end
  (`src/cloudflare/artifacts-workspace.ts:308-314`). Over every state with the record it read
  and whatever happens next, success means that no token is left if and only if, in that
  record, no mint was pending, no id was listed, or the inventory was known to be unknown
  (`WorkspaceCustody.SafeToReadIff`). `WorkspaceCustody.RevocationCanMislead` is a whole run, from
  the forking of a Workspace, in which a revocation succeeds while a token lives.
- The local coordinator's composition depends on member order
  (`src/change-control/local.ts:925-949`). `LocalComposition` states exactly which orders it
  accepts, gives a cohort it accepts in one order only and one it refuses in both, and proves
  that whatever it accepts is the order-independent composition of the hosted Landing.

## Assumptions

- Refs are written only under epochs issued by Landings of their own Project: a repository is
  bound to one Project.
- Ids minted by the code (revisions, Landings, records, Changes, Workspaces, tokens) are
  fresh. Digests have no collisions.
- JSON text is identified with the value it encodes; idempotency keys, which the source
  builds as text, are kept as structured values; bindings are listed in the order the source
  sorts them into.
- The policy's answer to a cohort, with its Evidence and Approval checks, is an arbitrary
  allow-or-deny with a policy version. Authorization is an arbitrary allow or deny.
- Commits of other Projects or other commands change anything except this Project's
  selection, its reconciliation record, and what was recorded before.

## Model

| member | source | states |
|---|---|---|
| CohortLanding.CompositionIsUnique | src/cloudflare/cohort-landing.ts:67-88 | a cohort has at most one composition: per Source Space the changed snapshot its members agree on, else the canonical one |
| CohortLanding.CompositionIgnoresOrder | src/cloudflare/cohort-landing.ts:80-87 | whether members agree, and what they compose to, is the same for every order of the same members |
| CohortLanding.ComposeMember | src/cloudflare/cohort-landing.ts:78-87 | folding one more member succeeds exactly when it agrees with the members before it, and then the updates are exactly the proposals so far |
| CohortLanding.ComposeMembers | src/cloudflare/cohort-landing.ts:67-88 | succeeds exactly when every member is ready and all agree; the result is the composition |
| CohortLanding.LandMembers | src/cloudflare/cohort-landing.ts:111-115 | marks exactly the member Changes landed and closes exactly their Workspaces |
| CohortLanding.CommitSelection | src/cloudflare/cohort-landing.ts:62-124 | a selection is prepared exactly when the cohort is selectable under an allowing policy, and it is the snapshot the protocol commits, over the composed snapshots |
| CohortLanding.LineageIsUnique | src/cloudflare/cohort-landing.ts:143-155 | the ancestors of a revision form at most one complete lineage |
| CohortLanding.KnownInLineage | src/cloudflare/cohort-landing.ts:143-155 | the ancestor walk terminates; it finds the lineage complete, or reports a repeated or missing ancestor exactly when there is one; the observed commit is known exactly when the lineage selects it |
| CohortLanding.CanonicalRefProjectionPlan | src/cloudflare/cohort-landing.ts:129-159 | the plan succeeds exactly when a canonical revision is stored, the bindings are plannable and of distinct spaces and, if there is one, the lineage is complete; a binding is marked blocked exactly when its observed commit is non-null and absent from the lineage |
| FencedLandingSafety.NextKeepsInv | src/cloudflare/canonical-ref-reconciliation.ts:146-219 | every step of the protocol keeps the lineage, Landing, record, worker and epoch invariants, and changes the selection or completes a record only as allowed |
| FencedLandingSafety.CompletionCertifies | src/cloudflare/canonical-ref-reconciliation.ts:190-210 | while a stored record is complete and current, every bound ref is sealed at its Landing's epoch with the desired commit |
| FencedLandingSafety.LaterLandingIsFenced | src/cloudflare/cohort-landing.ts:53-60 | a step that selects a later revision uses a higher epoch and starts from such a certified completion, whose record covers every Source Space of the Project with its enrolled repository |
| FencedLandingSafety.CompletingIsCertified | src/cloudflare/canonical-ref-reconciliation.ts:190-197 | a step that completes a record leaves every bound ref sealed for it |
| FencedLandingSafety.LandsOnce | src/cloudflare/cohort-landing.ts:39-59 | two stored Landings that share a cohort or a Change Revision are one Landing |
| FencedLandingSafety.LineageIsHistory | src/cloudflare/cohort-landing.ts:143-155 | the canonical revision's lineage is exactly the selections made, newest first: finite, acyclic and complete, so the projection walk meets none of its lineage errors |
| FencedLandingSafety.RunKeepsInv | src/cloudflare/canonical-ref-reconciliation.ts:22-27 | the invariants hold in every state of every run from an unlanded Project |
| FencedLandingSafety.RunStepsOk | src/cloudflare/canonical-ref-reconciliation.ts:146-219 | every step of every run is one the invariants allow |
| FencedLandingSafety.EveryCompletionCertifies | src/cloudflare/canonical-ref-reconciliation.ts:146-219 | in every run, whenever a record becomes complete, all bound refs are sealed at that Landing's epoch with the desired commit |
| FencedLandingSafety.EveryLandingIsFenced | src/cloudflare/cohort-landing.ts:53-60 | in every run Landing epochs strictly increase, and each Landing after the first commits from a certified completion that covers every Source Space of the Project |
| RefLag.NextKeepsLag | src/cloudflare/canonical-ref-reconciliation.ts:161-189 | with reconcilers as the only writers, a step keeps each covered ref at the last selection or the one before, as long as a repair it applies asks for the commit of the selection whose epoch it carries |
| RefLag.RefsStayOneBehindIff | src/cloudflare/canonical-ref-reconciliation.ts:161-189 | in every state of a run each covered ref carries the epoch and commit of the canonical selection or of the one before it, if and only if every repair applied asked for the commit of the selection whose epoch it carried |
| RefLag.RefsHoldRecentIff | src/cloudflare/canonical-ref-reconciliation.ts:161-189 | in every state of a run each covered ref holds the canonical revision's commit or its parent's, if and only if every repair applied asked for one of those two |
| RefLag.RefsStayOneBehind | src/cloudflare/canonical-ref-reconciliation.ts:80-95 | in every state of a run whose suspended loops run over the bindings of the record they hold, each covered ref holds the canonical revision's commit or its parent's |
| RefLag.RepairKeepsIff | src/cloudflare/canonical-ref-reconciliation.ts:161-171 | an accepted repair keeps its ref one behind if and only if the loop's target names the commit the reloaded record selects |
| ProtocolRuns.FinishCall | src/cloudflare/canonical-ref-reconciliation.ts:161-197 | from any reached state in which a call is at its i-th target and the targets left are behind, a run exists that seals them, passes the probes and completes the record, other workers and the selection untouched |
| ProtocolRuns.LandOnce | src/cloudflare/cohort-landing.ts:53-60 | from any reached state at rest every request the Authority accepts, if the configuration covers what it selects, can be landed, at once or through the probes; every ref is then behind the new selection |
| StaleLoop.StaleLoopRun | src/cloudflare/canonical-ref-reconciliation.ts:161-171 | a run of one configuration's reconcilers and three Landings, from a Project just imported, whose last state holds a ref at neither the canonical revision's commit nor its parent's |
| SmallProject.SmallProjectExists | src/cloudflare/canonical-ref-reconciliation.ts:80-95 | such a Project and such commits exist |
| LostSeal.LostSealRun | src/cloudflare/canonical-ref-reconciliation.ts:127-136 | a run of two overlapping workers, from a Project just imported, whose last state is one that no reconcile call completes from because a seal is lost |
| Reconciliation.CanonicalRefReconciler.SaveCheckpoint | src/cloudflare/canonical-ref-reconciliation.ts:122-144 | a checkpoint replays, halts or writes exactly as its key, fingerprint and the stored record decide; only a written one changes the store |
| Reconciliation.CanonicalRefReconciler.RepairTarget | src/cloudflare/canonical-ref-reconciliation.ts:167-176 | however it ends, a repair leaves the call resumable; it is declined only when the ref cannot reach the selection; answered, the ref is there |
| Reconciliation.CanonicalRefReconciler.SealTarget | src/cloudflare/canonical-ref-reconciliation.ts:178-184 | a seal call on a ref at the selection is never declined, and however it ends the call stays resumable |
| Reconciliation.CanonicalRefReconciler.RecordSeal | src/cloudflare/canonical-ref-reconciliation.ts:185-188 | afterwards the record lists the target exactly when its seal was not lost |
| Reconciliation.CanonicalRefReconciler.ProcessTarget | src/cloudflare/canonical-ref-reconciliation.ts:161-189 | one iteration, ended anywhere, keeps the state resumable and touches one ref; it halts only on a ref that cannot reach the selection |
| Reconciliation.CanonicalRefReconciler.ProcessTargets | src/cloudflare/canonical-ref-reconciliation.ts:161-189 | the loop leaves every target sealed, or names one that hinders it, and never rewrites a ref already sealed at the epoch |
| Reconciliation.CanonicalRefReconciler.AssertSealed | src/cloudflare/canonical-ref-reconciliation.ts:199-210 | the completing probes pass exactly when the record lists every target |
| Reconciliation.CanonicalRefReconciler.Reconcile | src/cloudflare/canonical-ref-reconciliation.ts:146-197 | killed at any await it leaves a state the next call can take up with the same prospects; left alone it completes if and only if every ref can reach the selection and no seal was lost; sealed refs stay as they are |
| Reconciliation.RestartUntilDone | src/cloudflare/canonical-ref-reconciliation.ts:146-197 | killed and restarted any number of times and then left alone, it completes whenever it could at the start |
| Reconciliation.OverlapLosesSeal | src/cloudflare/canonical-ref-reconciliation.ts:127-136 | when one worker awaits the answer to its repair and another has the ref sealed and saved, the first one's save loses that seal, so that no later call completes |
| Reconciliation.CompletionIsAtCanonical | src/cloudflare/canonical-ref-reconciliation.ts:190-197 | a completion leaves every covered ref at the canonical revision's commit |
| Reconciliation.LandingCanComplete | src/cloudflare/cohort-landing.ts:103-122 | a Landing made from there leaves a state from which a reconcile call completes |
| AuthorityStore.ReadsUnique | src/cloudflare/authority-sqlite.ts:220-238 | rows read back as exactly one snapshot |
| AuthorityStore.RoundTrip | src/cloudflare/authority-sqlite.ts:220-252 | storing and loading returns the snapshot itself if and only if its audit is ordered by version and id under distinct ids |
| AuthorityStore.CommitRefinesReplace | src/cloudflare/authority-sqlite.ts:240-275 | on rows that represent the previous snapshot, committing the difference leaves the rows that rewriting everything would |
| AuthorityStore.RepresentationUnique | src/cloudflare/authority-sqlite.ts:240-252 | only one set of rows represents a snapshot |
| AuthorityStore.AcceptsExactly | src/cloudflare/authority-sqlite.ts:254-275 | on such rows a commit is accepted exactly when it advances the version by one, keeps what was recorded, and has distinct audit ids |
| AuthorityStore.AuthoritySQLiteStore.Load | src/cloudflare/authority-sqlite.ts:201-238 | returns what the rows read as, nothing when there is no meta row, an error for another protocol or Realm |
| AuthorityStore.AuthoritySQLiteStore.DiffCollection | src/cloudflare/authority-sqlite.ts:302-313 | deletes, adds and updates exactly the rows of the collection that differ, and no row of another |
| AuthorityStore.AuthoritySQLiteStore.Commit | src/cloudflare/authority-sqlite.ts:254-275 | commits exactly when accepted and leaves the difference applied; whatever fails, and after however many writes, every row is as before |
| AuthorityStore.AuthoritySQLiteStore.Replace | src/cloudflare/authority-sqlite.ts:240-252 | leaves rows that represent the snapshot, or changes nothing |
| AuthorityHistory.CommitsFromLatest | src/cloudflare/authority-sqlite.ts:254-263 | an accepted commit was computed from the latest snapshot |
| AuthorityHistory.HistoryIsLinear | src/cloudflare/authority-sqlite.ts:177-196 | however clients load, compute and commit, the store's history is one chain: one snapshot per version, each computed from the one before, and nothing recorded ever changes or goes |
| AuthorityHistory.AppendingCommitReadsBack | src/cloudflare/authority-sqlite.ts:254-275 | a commit that keeps what was recorded and appends one event stamped with the new version is accepted, and reloading returns exactly what it wrote |
| AuthorityEncoding.EncodedNames | src/cloudflare/authority-sqlite.ts:220-238 | the stored snapshot determines the Authority's records |
| AuthorityEncoding.SelectionAppends | src/cloudflare/cohort-landing.ts:116-122 | a Landing's snapshot keeps what was recorded, advances the version by one and appends one event stamped with it |
| AuthorityEncoding.CheckpointAppends | src/cloudflare/canonical-ref-reconciliation.ts:137-144 | so does every checkpoint that is written |
| AuthorityEncoding.CommitStores | src/cloudflare/authority-sqlite.ts:254-275 | such a commit over rows that hold the records is accepted, and whoever loads next reads exactly the records committed |
| AuthorityEncoding.StoreFence | src/cloudflare/authority-sqlite.ts:254-263 | the store accepts it if and only if the version fence is open, given that equal versions mean equal snapshots |
| AuthorityHistory.AuditChainDigest | src/cloudflare/authority-recovery.ts:99-103 | the loop computes the chain digest of the audit |
| AuthorityHistory.DigestNamesSequence | src/cloudflare/authority-recovery.ts:99-103 | without collisions equal chain digests mean equal event sequences |
| AuthorityHistory.EqualDigestsEqualAudits | src/cloudflare/authority-recovery.ts:99-103 | two stored snapshots have equal digests exactly when their audit rows are equal |
| AncestryWalk.Walk | src/cloudflare/artifacts-workspace.ts:173-189 | the walk ends on every commit graph; it returns exactly the commits reachable through all parents when all read back whole and none is its own ancestor; among whole commits it reports a cycle exactly when one is reachable, and an unreachable base exactly then |
| AncestryWalk.CycleFound | src/cloudflare/artifacts-workspace.ts:178-180 | meeting an open commit again closes a reachable cycle |
| AncestryWalk.DoneIsReachable | src/cloudflare/artifacts-workspace.ts:173-189 | when the stack is empty the commits done are exactly the reachable ones, and there is no cycle |
| NamespaceInventory.ReadPage | src/cloudflare/artifacts-workspace.ts:80-86 | a page is taken exactly when its entries are readable, new and distinct and none is the target |
| NamespaceInventory.TakePage | src/cloudflare/artifacts-workspace.ts:74-93 | one page's verdict, exact for a proper page of a listing |
| NamespaceInventory.AssertAbsent | src/cloudflare/artifacts-workspace.ts:66-94 | whatever the provider replies, at most max(1, total) pages are read; a normal return means exactly total distinct names without the target; on a complete listing the answer is exact |
| NamespaceInventory.AbsenceIsReal | src/cloudflare/artifacts-workspace.ts:64-66 | over a stable inventory of as many names as announced, a normal return proves the name unused |
| WorkspaceCustody.NextKeepsInv | src/cloudflare/artifacts-workspace.ts:230-319 | every step of issue, fork and revoke, with lost replies, crashes and failed custody writes, keeps the custody invariant |
| WorkspaceCustody.EveryTokenAccounted | src/cloudflare/artifacts-workspace.ts:245-319 | in every state of every run each live token is listed, or the record is pending or says its inventory is unknown |
| WorkspaceCustody.NothingReleasedAfterBlock | src/cloudflare/artifacts-workspace.ts:261-264 | once blocked a Workspace stays so, and no credential is released afterwards |
| WorkspaceCustody.NoTokenAfterRevocation | src/cloudflare/artifacts-workspace.ts:295-319 | after a successful revocation that found nothing pending no token is alive, then or later |
| WorkspaceCustody.SafeToReadIff | src/cloudflare/artifacts-workspace.ts:295-319 | over every state with the record a revocation is about to read, and everything that may follow, its success leaves no token if and only if that record has no mint pending, lists no id, or says its inventory is unknown |
| WorkspaceCustody.OverlapMisleads | src/cloudflare/artifacts-workspace.ts:308-314 | a revocation about to read a record that lists an id, under a known inventory, while an issue awaits its mint has a course in which it succeeds and the new token lives |
| WorkspaceCustody.RevocationCanMislead | src/cloudflare/artifacts-workspace.ts:308-314 | a run from the empty world that ends with a revocation succeeding while a token lives |
| WorkspaceStore.MemoryArtifactsWorkspaceStore.Reserve | src/cloudflare/artifacts-workspace-store.ts:35-41 | reserves exactly when the Workspace and the repository name are both free |
| WorkspaceStore.MemoryArtifactsWorkspaceStore.Repository | src/cloudflare/artifacts-workspace-store.ts:43 | finds a record enrolled for the repository exactly when there is one |
| WorkspaceStore.MemoryArtifactsWorkspaceStore.Change | src/cloudflare/artifacts-workspace-store.ts:44-49 | applies an update to one record, or changes nothing when it throws |
| WorkspaceStore.MemoryArtifactsWorkspaceStore.Release | src/cloudflare/artifacts-workspace-store.ts:50 | drops a reservation unless its Workspace was revoked |
| RecoveryScanner.Scan | src/cloudflare/artifacts-recovery.ts:27-44 | the token loop with its container stack accepts exactly what folding the tokens accepts |
| RecoveryScanner.PrintedTokens | src/cloudflare/artifacts-recovery.ts:28 | the lexer reads back exactly the tokens of a written JSON value, whatever blanks and escapes it has and whatever follows |
| RecoveryScanner.Decodes | src/cloudflare/artifacts-recovery.ts:39 | decoding a written name returns the name meant, with every escape |
| RecoveryScanner.ScannerIsExact | src/cloudflare/artifacts-recovery.ts:23-46 | a written JSON value is accepted exactly when no object in it, at any depth, repeats a decoded member name |
| RecoveryRestore.NoRowLost | src/cloudflare/artifacts-recovery.ts:154 | the conflict-ignoring inserts lose no row exactly when no two incoming rows clash |
| RecoveryRestore.ArtifactsRecoveryStore.InsertAll | src/cloudflare/artifacts-recovery.ts:154-155 | the insert loops, and that the tables' unique constraints hold after them |
| RecoveryRestore.ArtifactsRecoveryStore.Restore | src/cloudflare/artifacts-recovery.ts:141-158 | succeeds exactly when the checkpoint validates, the rows present validate, and each is in the checkpoint unchanged; then the store holds the checkpoint, else nothing changes |
| LocalComposition.InOrderExactly | src/change-control/local.ts:925-949 | the local rule is agreement plus: a changed space is not named with the base's snapshot by a later member |
| LocalComposition.FoldComposes | src/change-control/local.ts:925-949 | whatever the local fold accepts is the composition the hosted Landing computes |
| LocalComposition.OrderMatters | src/change-control/local.ts:937-938 | an agreeing cohort that is accepted in one order and refused in the other |
| LocalComposition.NoOrderHelps | src/change-control/local.ts:937-938 | an agreeing cohort that is refused in both orders |
| LocalComposition.FoldMember | src/change-control/local.ts:926-947 | folding one member stops exactly on a foreign space or a snapshot out of order |
| LocalComposition.ComposeInOrder | src/change-control/local.ts:925-949 | succeeds exactly on cohorts in order within the Project's spaces, with the composition as result |
| LocalChanges.LandsOnce | src/change-control/local.ts:826-977 | in a consistent state no Change Revision is landed twice |
| LocalChanges.RevisionsAreChain | src/change-control/local.ts:647-690 | a Change's revisions are exactly one chain, numbered from 1, each the parent of the next, ending at its latest |
| LocalChanges.ChainIsUnique | src/change-control/local.ts:647-690 | no other chain has them |
| LocalChanges.PublishKeeps | src/change-control/local.ts:657-714 | publishing keeps every Change's revisions one chain numbered 1..n that ends at its latest |
| LocalChanges.ResolveKeeps | src/change-control/local.ts:547-571 | resolving a Conflict keeps active Workspaces free of open Conflicts and blocked ones with some |
| LocalChanges.FreshIsPublishable | src/change-control/local.ts:717-751 | nothing stops a publication from a Workspace just attached |
| LocalChanges.LandKeeps | src/change-control/local.ts:950-963 | advancing the selection keeps the lineage: one child per revision, landed revisions based on the parent |
| LocalChanges.LocalChangeCoordinator.CreateWorkspace | src/change-control/local.ts:404-442 | a Workspace is made exactly from a View that discloses what its known Project Revision selects and can be materialized |
| LocalChanges.LocalChangeCoordinator.CreateChange | src/change-control/local.ts:444-488 | a Change is attached exactly to a known, active, unattached Workspace |
| LocalChanges.LocalChangeCoordinator.RegisterConflict | src/change-control/local.ts:490-545 | a Conflict is recorded exactly on the Change's own Workspace and mounted spaces, and blocks it |
| LocalChanges.LocalChangeCoordinator.ResolveConflict | src/change-control/local.ts:547-571 | the Conflict is resolved and its Workspace is active exactly when it has no other open one, even if it had been closed |
| LocalChanges.LocalChangeCoordinator.PublishRevision | src/change-control/local.ts:573-715 | publishes exactly when allowed, the next number over the Workspace's base and mounts, naming the Conflicts given or else exactly the Change's in that Workspace; a refusal changes nothing |
| LocalChanges.LocalChangeCoordinator.RebaseChange | src/change-control/local.ts:717-755 | succeeds exactly when the new Workspace can be made: its publication cannot fail; the old Workspace is closed and unbound; otherwise nothing changes |
| LocalChanges.LocalChangeCoordinator.HandoffChange | src/change-control/local.ts:757-763 | hands over the attached Workspace and changes nothing else |
| LocalChanges.LocalChangeCoordinator.RevertChange | src/change-control/local.ts:765-812 | accepts exactly the first revision of a landed cohort, so only landed ones, over the canonical base |
| LocalChanges.LocalChangeCoordinator.LandCohort | src/change-control/local.ts:826-977 | lands exactly the landable cohorts, advancing to their composition; a refused Landing changes nothing |
| ProviderOperations.DigestNamesRecord | src/cloudflare/customer-provider-operation.ts:261-282 | verified records with one digest are one record |
| ProviderOperations.OperationStore.Put | src/cloudflare/customer-provider-operation.ts:339-350 | replaces the record exactly when the stored digest is the one expected |
| ProviderOperations.SwapIsCurrent | src/cloudflare/customer-provider-operation.ts:339-350 | a swap that succeeds replaces exactly the record it was computed from |
| ProviderOperations.NextKeepsInv | src/cloudflare/customer-provider-operation.ts:454-546 | every step of run, resume, callback and cleanup keeps the stored histories and the suspended calls sound |
| ProviderOperations.OperationsAdvance | src/cloudflare/customer-provider-operation.ts:760-768 | over any overlap of calls each stored record passes its own digest, attempts count up by one, no digest recurs, and a succeeded operation stays so with its read-back |
| QualificationCleanup.SettleKeeps | src/cloudflare/artifacts-workspace-qualification.ts:223-235 | marking and calling a deletion keeps the invariant: no resource already marked, or still listing a token, is deleted |
| QualificationCleanup.AdvanceKeeps | src/cloudflare/artifacts-workspace-qualification.ts:199-248 | moving on to the next resource or the verdict keeps the invariant |
| QualificationCleanup.NextKeepsInv | src/cloudflare/artifacts-workspace-qualification.ts:175-248 | every step of acquisition and of overlapping or interrupted cleanups keeps the invariant |
| QualificationCleanup.DeletedOnce | src/cloudflare/artifacts-workspace-qualification.ts:229-234 | over all cleanups the guarded deletion is called at most once for a resource, and only with no token recorded |
| QualificationCleanup.StatesOnlyRise | src/cloudflare/artifacts-workspace-qualification.ts:229-235 | no resource goes back to an earlier state |
| QualificationCleanup.ConfirmedMeansGone | src/cloudflare/artifacts-workspace-qualification.ts:241-243 | a confirmed cleanup left every resource reserved or deleted |

## Left out

- Reconciliation.CanonicalRefReconciler.Reconcile: is stated for states a call can be left in; what the code does on snapshots that do not cover the Project is in the `FencedLanding` stretches, which start from any snapshot.
- RefLag.RefsStayOneBehind: holds for runs whose suspended loops are current, because the code reloads the record and not the bindings; the two equivalences beside it have no such condition (see above).
- WorkspaceCustody.NoTokenAfterRevocation: is stated for revocations that found nothing pending, because the code does not read the ids again; `SafeToReadIff` says exactly when success can be trusted (see above).
- AuthorityEncoding.EncodedNames: the texts of records are arbitrary, given that different records have different texts; the collections the snapshot does not model are kept as they are.
- NamespaceInventory.AssertAbsent: the authorization checked before each page is not modelled.
- AncestryWalk.Walk: returns the commits as a set; sorting them, the request checks and the second reading of the head are not modelled.
- RecoveryRestore.ArtifactsRecoveryStore.Restore: the field-by-field consistency of rows with an Authority is an arbitrary predicate on the sets of rows; sorting by row key is not modelled.
- RecoveryScanner.ScannerIsExact: is about text that is a written JSON value, which the parse before the scan ensures.
- LocalChanges.LocalChangeCoordinator.CreateWorkspace: the mount and filesystem checks of materialization are one allow-or-refuse argument.
- LocalChanges.LocalChangeCoordinator.RevertChange: the code recognizes only the first revision of a landed cohort, so a later one is refused although it landed.
- ProviderOperations.OperationsAdvance: restoring a recovery bundle, which may put older records back in memory, is not a step.
- QualificationCleanup.NextKeepsInv: credential fingerprints and the metadata scan are reduced to the flag that says a guard is pending; a deletion's outcome at the provider is arbitrary.
- Schema creation, migrations, index introspection and storage receipts of the SQLite stores.
- The adapter's normalization of snapshots and its lineage assertion; snapshots are taken as normalized.
- Receipts, messages, recovery actions, clocks, and the collaboration entries inside audit events.
- Hashing, signing and the recovery bundle around the audit chain digest.
- The HTTP, Git, GitHub and Cloudflare adapters, the UI, the CLI, collaboration policy, mirrors, promotions and releases.
