/** Cohort Landing: composing member snapshots, selecting the next canonical
    Project Revision, and the read-only projection plan over its lineage. */
module CohortLanding {
  import opened Basics
  import opened Authority

  datatype Request = Request(cohortId: Id, members: seq<Member>, expected: Id)

  /** What the injected policy evaluation decided about a request. */
  datatype Review = Deny | Allow(policyVersion: string)

  datatype Refusal = NotFound | Conflict | StaleState | Indeterminate

  /** Identifiers minted for one selection. */
  datatype Minted = Minted(projectRevisionId: Id, landingId: Id, auditId: Id)

  // ---------------------------------------------------------------- composition

  /** The revision proposes a snapshot for the space that differs from the base. */
  predicate Proposes(base: map<Id, Oid>, revision: ChangeRevision, space: Id) {
    && space in revision.snapshots
    && !(space in base && base[space] == revision.snapshots[space])
  }

  /** No two members propose different snapshots for one Source Space. */
  ghost predicate Agree(base: map<Id, Oid>, revisions: seq<ChangeRevision>) {
    forall a, b, space | a in revisions && b in revisions && Proposes(base, a, space) && Proposes(base, b, space) ::
      a.snapshots[space] == b.snapshots[space]
  }

  ghost predicate Proposed(base: map<Id, Oid>, revisions: seq<ChangeRevision>, space: Id, oid: Oid) {
    exists r | r in revisions :: Proposes(base, r, space) && r.snapshots[space] == oid
  }

  /** Each space holds the snapshot some member proposes for it, or the base's. */
  ghost predicate IsComposition(base: map<Id, Oid>, revisions: seq<ChangeRevision>, out: map<Id, Oid>) {
    && (forall space | space in base :: space in out)
    && (forall space, oid | Proposed(base, revisions, space, oid) :: space in out && out[space] == oid)
    && (forall space | space in out :: Proposed(base, revisions, space, out[space])
                                       || (space in base && out[space] == base[space]
                                           && forall oid :: !Proposed(base, revisions, space, oid)))
  }

  lemma CompositionIsUnique(base: map<Id, Oid>, revisions: seq<ChangeRevision>, a: map<Id, Oid>, b: map<Id, Oid>)
    requires IsComposition(base, revisions, a) && IsComposition(base, revisions, b)
    ensures a == b
  {
    forall space | space in a || space in b
      ensures space in a && space in b && a[space] == b[space]
    {
      if oid :| Proposed(base, revisions, space, oid) {
      } else {
        assert space in base;
      }
    }
  }

  /** Member order does not matter: a cohort and any reordering of it agree or
      disagree together, and compose to the same snapshots. */
  lemma CompositionIgnoresOrder(base: map<Id, Oid>, xs: seq<ChangeRevision>, ys: seq<ChangeRevision>, out: map<Id, Oid>)
    requires multiset(xs) == multiset(ys)
    ensures Agree(base, xs) <==> Agree(base, ys)
    ensures IsComposition(base, xs, out) <==> IsComposition(base, ys, out)
  {
    forall r
      ensures r in xs <==> r in ys
    {
      assert r in multiset(xs) <==> r in multiset(ys);
    }
    forall space, oid
      ensures Proposed(base, xs, space, oid) <==> Proposed(base, ys, space, oid)
    {
    }
  }

  /** The updates hold the proposals of the members seen, and those of one more
      member for the spaces already visited. */
  ghost predicate Partial(base: map<Id, Oid>, seen: seq<ChangeRevision>, revision: ChangeRevision, rest: set<Id>, updates: map<Id, Oid>) {
    && (forall space | space in updates ::
          Proposed(base, seen, space, updates[space])
          || (space !in rest && Proposes(base, revision, space) && updates[space] == revision.snapshots[space]))
    && (forall space, oid | Proposed(base, seen, space, oid) :: space in updates && updates[space] == oid)
    && (forall space | Proposes(base, revision, space) && space !in rest ::
          space in updates && updates[space] == revision.snapshots[space])
  }

  /** Folds one member's entries into the updates gathered so far, stopping on
      an incompatible proposal. A snapshot equal to the base is not an update. */
  method ComposeMember(base: map<Id, Oid>, ghost seen: seq<ChangeRevision>, revision: ChangeRevision,
                       before: map<Id, Oid>, snapshotsBefore: map<Id, Oid>)
    returns (agreed: bool, updates: map<Id, Oid>, snapshots: map<Id, Oid>)
    requires Gathered(base, seen, before, snapshotsBefore)
    ensures agreed <==> Agree(base, seen + [revision])
    ensures agreed ==> Gathered(base, seen + [revision], updates, snapshots)
  {
    updates, snapshots := before, snapshotsBefore;
    var rest := revision.snapshots.Keys;
    while rest != {}
      invariant rest <= revision.snapshots.Keys
      invariant snapshots == base + updates
      invariant Partial(base, seen, revision, rest, updates)
    {
      var space :| space in rest;
      var snapshot := revision.snapshots[space];
      if space in base && snapshot == base[space] {
        rest := rest - {space};
        continue;
      }
      if space in updates && updates[space] != snapshot {
        Disagreement(base, seen, revision, space, updates[space]);
        agreed := false;
        return;
      }
      PartialStep(base, seen, revision, rest, updates, space);
      UnionUpdate(base, updates, space, snapshot);
      rest := rest - {space};
      updates := updates[space := snapshot];
      snapshots := snapshots[space := snapshot];
    }
    agreed := true;
    GatheredNext(base, seen, revision, updates);
  }

  lemma PartialStep(base: map<Id, Oid>, seen: seq<ChangeRevision>, revision: ChangeRevision, rest: set<Id>, updates: map<Id, Oid>, space: Id)
    requires Partial(base, seen, revision, rest, updates)
    requires space in rest && Proposes(base, revision, space)
    requires space in updates ==> updates[space] == revision.snapshots[space]
    ensures Partial(base, seen, revision, rest - {space}, updates[space := revision.snapshots[space]])
  {
  }

  lemma UnionUpdate(base: map<Id, Oid>, updates: map<Id, Oid>, space: Id, snapshot: Oid)
    ensures (base + updates)[space := snapshot] == base + updates[space := snapshot]
  {
  }

  lemma Disagreement(base: map<Id, Oid>, seen: seq<ChangeRevision>, revision: ChangeRevision, space: Id, oid: Oid)
    requires Proposes(base, revision, space) && Proposed(base, seen, space, oid) && oid != revision.snapshots[space]
    ensures !Agree(base, seen + [revision])
  {
    var all := seen + [revision];
    var other :| other in seen && Proposes(base, other, space) && other.snapshots[space] == oid;
    assert all[|seen|] == revision && other in all;
  }

  /** The updates are exactly the proposals of the members seen so far. */
  ghost predicate Gathered(base: map<Id, Oid>, seen: seq<ChangeRevision>, updates: map<Id, Oid>, snapshots: map<Id, Oid>) {
    && Agree(base, seen)
    && (forall space | space in updates :: Proposed(base, seen, space, updates[space]))
    && (forall space, oid | Proposed(base, seen, space, oid) :: space in updates && updates[space] == oid)
    && snapshots == base + updates
  }

  lemma GatheredNext(base: map<Id, Oid>, seen: seq<ChangeRevision>, revision: ChangeRevision, updates: map<Id, Oid>)
    requires Agree(base, seen)
    requires forall space | space in updates ::
               Proposed(base, seen, space, updates[space])
               || (Proposes(base, revision, space) && updates[space] == revision.snapshots[space])
    requires forall space, oid | Proposed(base, seen, space, oid) :: space in updates && updates[space] == oid
    requires forall space | Proposes(base, revision, space) ::
               space in updates && updates[space] == revision.snapshots[space]
    ensures Gathered(base, seen + [revision], updates, base + updates)
  {
    var all := seen + [revision];
    assert all[|seen|] == revision;
    forall space, oid | Proposed(base, all, space, oid)
      ensures space in updates && updates[space] == oid
    {
      var r :| r in all && Proposes(base, r, space) && r.snapshots[space] == oid;
      if r in seen {
        assert Proposed(base, seen, space, oid);
      } else {
        assert r == revision;
      }
    }
    forall space | space in updates
      ensures Proposed(base, all, space, updates[space])
    {
      if Proposed(base, seen, space, updates[space]) {
        var r :| r in seen && Proposes(base, r, space) && r.snapshots[space] == updates[space];
        assert r in all;
      }
    }
    forall a, b, space | a in all && b in all && Proposes(base, a, space) && Proposes(base, b, space)
      ensures a.snapshots[space] == b.snapshots[space]
    {
      assert Proposed(base, all, space, a.snapshots[space]);
      assert Proposed(base, all, space, b.snapshots[space]);
    }
  }

  // ------------------------------------------------------------------ selection

  /** The member is submitted at its latest canonical-base revision, its
      Workspace and View are ready, and it covers exactly its disclosed View. */
  predicate MemberReady(s: Snapshot, project: Project, actual: Id, member: Member) {
    && member.changeId in s.changes
    && member.changeRevisionId in s.changeRevisions
    && var change := s.changes[member.changeId];
    var revision := s.changeRevisions[member.changeRevisionId];
    && change.projectId == project.id
    && revision.changeId == change.id
    && change.status == Submitted
    && change.latestRevisionId == Some(revision.id)
    && change.baseProjectRevisionId == actual
    && revision.Base() == actual
    && revision.conflictIds == []
    && change.workspaceId.Some?
    && change.workspaceId.value in s.workspaces
    && var workspace := s.workspaces[change.workspaceId.value];
    && workspace.projectViewId in s.projectViews
    && var view := s.projectViews[workspace.projectViewId];
    && workspace.state == Open
    && workspace.changeId == Some(change.id)
    && revision.workspaceId == Some(workspace.id)
    && revision.projectViewId == view.id
    && workspace.projectRevisionId == actual
    && view.projectRevisionId == actual
    && |revision.snapshots| > 0
    && |revision.snapshots| == |view.visibleSourceSpaceIds|
    && forall space | space in revision.snapshots ::
         && space in project.sourceSpaceIds
         && space in view.visibleSourceSpaceIds
         && !Blank(revision.snapshots[space])
  }

  function Revisions(s: Snapshot, members: seq<Member>): (rs: seq<ChangeRevision>)
    requires forall m | m in members :: m.changeRevisionId in s.changeRevisions
    ensures |rs| == |members|
    ensures forall i | 0 <= i < |rs| :: rs[i] == s.changeRevisions[members[i].changeRevisionId]
  {
    seq(|members|, i requires 0 <= i < |members| => s.changeRevisions[members[i].changeRevisionId])
  }

  function ChangeIds(members: seq<Member>): (ids: seq<Id>)
    ensures |ids| == |members| && forall i | 0 <= i < |ids| :: ids[i] == members[i].changeId
  {
    seq(|members|, i requires 0 <= i < |members| => members[i].changeId)
  }

  function RevisionIds(members: seq<Member>): (ids: seq<Id>)
    ensures |ids| == |members| && forall i | 0 <= i < |ids| :: ids[i] == members[i].changeRevisionId
  {
    seq(|members|, i requires 0 <= i < |members| => members[i].changeRevisionId)
  }

  /** The Project has a canonical revision of its own. */
  predicate HasCanonical(s: Snapshot, p: Id) {
    && p in s.projects && s.projects[p].id == p
    && p in s.canonicalByProject
    && s.canonicalByProject[p] in s.projectRevisions
    && s.projectRevisions[s.canonicalByProject[p]].projectId == p
  }

  function CanonicalRevision(s: Snapshot, p: Id): ProjectRevision
    requires HasCanonical(s, p)
  {
    s.projectRevisions[s.canonicalByProject[p]]
  }

  predicate RequestWellFormed(request: Request) {
    && !Blank(request.cohortId)
    && request.members != []
    && Distinct(ChangeIds(request.members))
    && Distinct(RevisionIds(request.members))
  }

  /** Every member is ready and no two of them disagree. */
  ghost predicate Composable(s: Snapshot, project: Project, actual: Id, members: seq<Member>, base: map<Id, Oid>) {
    && (forall m | m in members :: MemberReady(s, project, actual, m))
    && Agree(base, Revisions(s, members))
  }

  /** A cohort may be selected: every member is ready, the members agree, and
      the policy allows it under a named version. */
  ghost predicate Selectable(s: Snapshot, p: Id, request: Request, review: Review)
    requires HasCanonical(s, p)
  {
    && Composable(s, s.projects[p], s.canonicalByProject[p], request.members, CanonicalRevision(s, p).snapshots)
    && review.Allow?
    && review.policyVersion != ""
  }

  function LandedChanges(s: Snapshot, ids: seq<Id>): map<Id, Change> {
    map id | id in s.changes :: if id in ids then s.changes[id].(status := Landed) else s.changes[id]
  }

  predicate HoldsWorkspace(s: Snapshot, ids: seq<Id>, w: Id) {
    exists id | id in ids :: id in s.changes && s.changes[id].workspaceId == Some(w)
  }

  function ClosedWorkspaces(s: Snapshot, ids: seq<Id>): map<Id, Workspace> {
    map w | w in s.workspaces ::
      if HoldsWorkspace(s, ids, w) then s.workspaces[w].(state := Closed) else s.workspaces[w]
  }

  function NextRevision(s: Snapshot, p: Id, request: Request, minted: Minted, composed: map<Id, Oid>): ProjectRevision
    requires HasCanonical(s, p)
  {
    ProjectRevision(minted.projectRevisionId, p, composed, Some(s.canonicalByProject[p]),
                    RevisionIds(request.members), Some(request.cohortId))
  }

  function NextLanding(s: Snapshot, p: Id, request: Request, minted: Minted): Landing
    requires HasCanonical(s, p)
  {
    Landing(minted.landingId, p, request.cohortId, ChangeIds(request.members), RevisionIds(request.members),
            s.canonicalByProject[p], minted.projectRevisionId)
  }

  function RequestFingerprint(p: Id, request: Request): Fingerprint {
    CohortFingerprint(p, request.cohortId, request.members, request.expected)
  }

  /** The snapshot a selection commits. */
  function Selection(s: Snapshot, p: Id, request: Request, policyVersion: string, minted: Minted, composed: map<Id, Oid>): Snapshot
    requires HasCanonical(s, p)
  {
    var landing := NextLanding(s, p, request, minted);
    var key := CohortKey(request.cohortId);
    s.(version := s.version + 1,
       projectRevisions := s.projectRevisions[minted.projectRevisionId := NextRevision(s, p, request, minted, composed)],
       canonicalByProject := s.canonicalByProject[p := minted.projectRevisionId],
       landings := s.landings[minted.landingId := landing],
       changes := LandedChanges(s, ChangeIds(request.members)),
       workspaces := ClosedWorkspaces(s, ChangeIds(request.members)),
       idempotency := s.idempotency[key := Entry(RequestFingerprint(p, request),
                                                 LandingResult(landing, s.version + 1, policyVersion))],
       audit := s.audit + [AuditEvent(minted.auditId, s.version + 1, key)])
  }

  /** The first members are ready and `seen` lists their revisions. */
  ghost predicate Checked(s: Snapshot, project: Project, actual: Id, members: seq<Member>, seen: seq<ChangeRevision>) {
    && |seen| <= |members|
    && forall j | 0 <= j < |seen| ::
         && MemberReady(s, project, actual, members[j])
         && seen[j] == s.changeRevisions[members[j].changeRevisionId]
  }

  /** Every member is checked ready and folded into one composition. */
  method ComposeMembers(s: Snapshot, project: Project, actual: Id, members: seq<Member>, base: map<Id, Oid>)
    returns (r: Outcome<map<Id, Oid>, Refusal>)
    ensures r.Ok? <==> Composable(s, project, actual, members, base)
    ensures r.Ok? ==> IsComposition(base, Revisions(s, members), r.value)
  {
    var snapshots := base;
    var updates: map<Id, Oid> := map[];
    ghost var seen: seq<ChangeRevision> := [];
    assert base + updates == base;
    for i := 0 to |members|
      invariant |seen| == i
      invariant Checked(s, project, actual, members, seen)
      invariant Gathered(base, seen, updates, snapshots)
    {
      if !MemberReady(s, project, actual, members[i]) {
        return Stop(Conflict);
      }
      var revision := s.changeRevisions[members[i].changeRevisionId];
      var agreed;
      agreed, updates, snapshots := ComposeMember(base, seen, revision, updates, snapshots);
      CheckedStep(s, project, actual, members, seen);
      seen := seen + [revision];
      if !agreed {
        RefusalStands(s, project, actual, members, base, seen);
        return Stop(Conflict);
      }
    }
    CheckedAll(s, project, actual, members, seen);
    return Ok(snapshots);
  }

  lemma CheckedStep(s: Snapshot, project: Project, actual: Id, members: seq<Member>, seen: seq<ChangeRevision>)
    requires Checked(s, project, actual, members, seen) && |seen| < |members|
    requires MemberReady(s, project, actual, members[|seen|])
    ensures Checked(s, project, actual, members, seen + [s.changeRevisions[members[|seen|].changeRevisionId]])
  {
  }

  lemma CheckedAll(s: Snapshot, project: Project, actual: Id, members: seq<Member>, seen: seq<ChangeRevision>)
    requires Checked(s, project, actual, members, seen) && |seen| == |members|
    ensures forall m | m in members :: MemberReady(s, project, actual, m)
    ensures seen == Revisions(s, members)
  {
  }

  /** A disagreement among the members seen so far refuses the whole cohort. */
  lemma RefusalStands(s: Snapshot, project: Project, actual: Id, members: seq<Member>, base: map<Id, Oid>, seen: seq<ChangeRevision>)
    requires Checked(s, project, actual, members, seen) && !Agree(base, seen)
    ensures !Composable(s, project, actual, members, base)
  {
    if Composable(s, project, actual, members, base) {
      var all := Revisions(s, members);
      forall r | r in seen
        ensures r in all
      {
        var j :| 0 <= j < |seen| && seen[j] == r;
        assert all[j] == r;
      }
    }
  }

  /** Marks every member landed and its Workspace closed. */
  method LandMembers(s: Snapshot, ids: seq<Id>) returns (changes: map<Id, Change>, workspaces: map<Id, Workspace>)
    requires forall id | id in ids :: id in s.changes && s.changes[id].workspaceId.Some? && s.changes[id].workspaceId.value in s.workspaces
    ensures changes == LandedChanges(s, ids) && workspaces == ClosedWorkspaces(s, ids)
  {
    changes, workspaces := s.changes, s.workspaces;
    for i := 0 to |ids|
      invariant changes == LandedChanges(s, ids[..i])
      invariant workspaces == ClosedWorkspaces(s, ids[..i])
    {
      var id := ids[i];
      ClosingOneMore(s, ids[..i], id);
      assert ids[..i + 1] == ids[..i] + [id];
      var w := changes[id].workspaceId.value;
      changes := changes[id := changes[id].(status := Landed)];
      workspaces := workspaces[w := workspaces[w].(state := Closed)];
    }
    assert ids[..|ids|] == ids;
  }

  /** Validates and composes every member, consults the policy, and builds the
      successor snapshot; the loaded snapshot itself is never modified. */
  method CommitSelection(previous: Snapshot, p: Id, request: Request, review: Review, minted: Minted)
    returns (r: Outcome<Snapshot, Refusal>)
    requires HasCanonical(previous, p)
    ensures r.Ok? <==> Selectable(previous, p, request, review)
    ensures r.Ok? ==> exists composed ::
              && IsComposition(CanonicalRevision(previous, p).snapshots, Revisions(previous, request.members), composed)
              && r.value == Selection(previous, p, request, review.policyVersion, minted, composed)
  {
    var actual := previous.canonicalByProject[p];
    var base := previous.projectRevisions[actual].snapshots;
    var composition := ComposeMembers(previous, previous.projects[p], actual, request.members, base);
    if composition.Stop? {
      return Stop(composition.error);
    }
    var snapshots := composition.value;
    if review.Deny? || review.policyVersion == "" {
      return Stop(Conflict);
    }
    assert forall i | 0 <= i < |request.members| :: request.members[i] in request.members;
    var changes, workspaces := LandMembers(previous, ChangeIds(request.members));
    var landing := NextLanding(previous, p, request, minted);
    var key := CohortKey(request.cohortId);
    var version := previous.version + 1;
    var next := previous.(
      version := version,
      projectRevisions := previous.projectRevisions[minted.projectRevisionId := NextRevision(previous, p, request, minted, snapshots)],
      canonicalByProject := previous.canonicalByProject[p := minted.projectRevisionId],
      landings := previous.landings[landing.id := landing],
      changes := changes,
      workspaces := workspaces,
      idempotency := previous.idempotency[key := Entry(RequestFingerprint(p, request), LandingResult(landing, version, review.policyVersion))],
      audit := previous.audit + [AuditEvent(minted.auditId, version, key)]);
    assert next == Selection(previous, p, request, review.policyVersion, minted, snapshots);
    return Ok(next);
  }

  lemma ClosingOneMore(s: Snapshot, ids: seq<Id>, id: Id)
    requires id in s.changes && s.changes[id].workspaceId.Some? && s.changes[id].workspaceId.value in s.workspaces
    ensures var w := s.changes[id].workspaceId.value;
            ClosedWorkspaces(s, ids + [id])
              == ClosedWorkspaces(s, ids)[w := ClosedWorkspaces(s, ids)[w].(state := Closed)]
    ensures LandedChanges(s, ids + [id]) == LandedChanges(s, ids)[id := LandedChanges(s, ids)[id].(status := Landed)]
    ensures LandedChanges(s, ids)[id].workspaceId == s.changes[id].workspaceId
  {
    var more := ids + [id];
    assert more[|ids|] == id && forall x | x in ids :: x in more;
    assert forall x | x in more :: x in ids || x == id;
    var w := s.changes[id].workspaceId.value;
    assert HoldsWorkspace(s, more, w);
    forall v | v in s.workspaces && v != w
      ensures HoldsWorkspace(s, more, v) <==> HoldsWorkspace(s, ids, v)
    {
    }
  }

  // ------------------------------------------------------------------ admission

  predicate HasLanded(revision: ProjectRevision) {
    revision.landedIds != [] || revision.cohortId.Some?
  }

  /** How a request is received before any member is looked at. */
  datatype Admission =
    | Replayed(landing: Landing)
    | Refused(refusal: Refusal)
    | Gated      // a later Landing: completion must be verified afresh first
    | Admitted   // the first Landing of the Project

  function Admit(s: Snapshot, p: Id, request: Request): Admission {
    var key := CohortKey(request.cohortId);
    if !RequestWellFormed(request) then
      Refused(Conflict)
    else if key in s.idempotency then
      if s.idempotency[key].fingerprint != RequestFingerprint(p, request) || !s.idempotency[key].result.LandingResult?
      then Refused(Conflict)
      else Replayed(s.idempotency[key].result.landing)
    else if p !in s.canonicalByProject || s.canonicalByProject[p] != request.expected then
      Refused(StaleState)
    else if !HasCanonical(s, p) then
      Refused(Indeterminate)
    else if HasLanded(CanonicalRevision(s, p)) then
      Gated
    else
      Admitted
  }

  // ------------------------------------------------------------- projection plan

  /** The complete parent chain of a revision, newest first: every link exists
      in the Project, none repeats, and the last has no parent. */
  ghost predicate IsLineage(revisions: map<Id, ProjectRevision>, p: Id, start: Id, chain: seq<Id>) {
    && IsPath(revisions, start, chain)
    && Distinct(chain)
    && (forall id | id in chain :: revisions[id].projectId == p)
    && revisions[chain[|chain| - 1]].parent.None?
  }

  ghost predicate IsPath(revisions: map<Id, ProjectRevision>, start: Id, path: seq<Id>) {
    && path != [] && path[0] == start
    && (forall id | id in path :: id in revisions)
    && forall i | 0 <= i < |path| - 1 :: revisions[path[i]].parent == Some(path[i + 1])
  }

  /** Some revision of the chain recorded this commit for the space. */
  ghost predicate Recorded(revisions: map<Id, ProjectRevision>, chain: seq<Id>, space: Id, oid: Oid)
    requires forall id | id in chain :: id in revisions
  {
    exists id | id in chain :: space in revisions[id].snapshots && revisions[id].snapshots[space] == oid
  }

  /** Parent links are deterministic: every path from the start is a prefix of the lineage. */
  lemma {:induction false} PathIsPrefix(revisions: map<Id, ProjectRevision>, p: Id, start: Id, chain: seq<Id>, path: seq<Id>)
    requires IsLineage(revisions, p, start, chain) && IsPath(revisions, start, path)
    ensures |path| <= |chain| && path == chain[..|path|]
  {
    if |path| > 1 {
      var shorter := path[..|path| - 1];
      assert IsPath(revisions, start, shorter);
      PathIsPrefix(revisions, p, start, chain, shorter);
      var k := |path| - 2;
      assert chain[k] == shorter[k] == path[k];
      assert revisions[path[k]].parent == Some(path[k + 1]);
      assert path == shorter + [path[k + 1]];
    }
  }

  lemma LineageIsUnique(revisions: map<Id, ProjectRevision>, p: Id, start: Id, a: seq<Id>, b: seq<Id>)
    requires IsLineage(revisions, p, start, a) && IsLineage(revisions, p, start, b)
    ensures a == b
  {
    PathIsPrefix(revisions, p, start, a, b);
    PathIsPrefix(revisions, p, start, b, a);
  }

  lemma RepeatedAncestor(revisions: map<Id, ProjectRevision>, p: Id, start: Id, path: seq<Id>, again: Id)
    requires again in path && IsPath(revisions, start, path + [again])
    ensures !exists chain :: IsLineage(revisions, p, start, chain)
  {
    if chain :| IsLineage(revisions, p, start, chain) {
      PathIsPrefix(revisions, p, start, chain, path + [again]);
      var i :| 0 <= i < |path| && path[i] == again;
      LineageStep(chain, path + [again], i);
      assert false;
    }
  }

  lemma LineageStep(chain: seq<Id>, path: seq<Id>, i: nat)
    requires |path| <= |chain| && path == chain[..|path|]
    requires i < |path| - 1 && path[i] == path[|path| - 1]
    ensures !Distinct(chain)
  {
    assert chain[i] == path[i] && chain[|path| - 1] == path[|path| - 1];
  }

  lemma MissingAncestor(revisions: map<Id, ProjectRevision>, p: Id, start: Id, path: seq<Id>)
    requires IsPath(revisions, start, path)
    requires revisions[path[|path| - 1]].parent.Some?
    requires var parent := revisions[path[|path| - 1]].parent.value;
             parent in revisions ==> revisions[parent].projectId != p
    ensures !exists chain :: IsLineage(revisions, p, start, chain)
  {
    if chain :| IsLineage(revisions, p, start, chain) {
      LineageContinues(revisions, p, start, chain, path);
      assert false;
    }
  }

  /** Where a path stops at a revision with a parent, the lineage goes on to it. */
  lemma LineageContinues(revisions: map<Id, ProjectRevision>, p: Id, start: Id, chain: seq<Id>, path: seq<Id>)
    requires IsLineage(revisions, p, start, chain) && IsPath(revisions, start, path)
    requires revisions[path[|path| - 1]].parent.Some?
    ensures var parent := revisions[path[|path| - 1]].parent.value;
            parent in chain && parent in revisions && revisions[parent].projectId == p
  {
    PathIsPrefix(revisions, p, start, chain, path);
    assert path[|path| - 1] == chain[|path| - 1];
    assert chain[|path|] in chain;
  }

  /** Walks the lineage of `start`, remembering whether the observed commit was
      recorded for the space; stops on a repeated or missing ancestor. */
  method KnownInLineage(revisions: map<Id, ProjectRevision>, p: Id, start: Id, space: Id, observed: Option<Oid>)
    returns (r: Outcome<bool, Refusal>)
    requires start in revisions && revisions[start].projectId == p
    ensures r.Ok? <==> exists chain :: IsLineage(revisions, p, start, chain)
    ensures forall chain | IsLineage(revisions, p, start, chain) && r.Ok? ::
              r.value <==> observed.None? || Recorded(revisions, chain, space, observed.value)
  {
    var ancestor := start;
    var visited: set<Id> := {};
    var known := observed.None?;
    ghost var path: seq<Id> := [];
    while true
      invariant ancestor in revisions && revisions[ancestor].projectId == p
      invariant visited <= revisions.Keys
      invariant forall id :: id in visited <==> id in path
      invariant Distinct(path)
      invariant forall id | id in path :: revisions[id].projectId == p
      invariant IsPath(revisions, start, path + [ancestor])
      invariant known <==> observed.None? || Recorded(revisions, path, space, observed.value)
      decreases revisions.Keys - visited
    {
      var revision := revisions[ancestor];
      var longer := path + [ancestor];
      if ancestor in visited {
        RepeatedAncestor(revisions, p, start, path, ancestor);
        return Stop(Indeterminate);
      }
      visited := visited + {ancestor};
      if space in revision.snapshots && Some(revision.snapshots[space]) == observed {
        known := true;
      }
      assert known <==> observed.None? || Recorded(revisions, longer, space, observed.value) by {
        assert longer[|path|] == ancestor;
        assert forall id | id in path :: id in longer;
      }
      path := longer;
      if revision.parent.None? {
        assert IsLineage(revisions, p, start, path);
        forall chain | IsLineage(revisions, p, start, chain)
          ensures chain == path
        {
          LineageIsUnique(revisions, p, start, chain, path);
        }
        return Ok(known);
      }
      var parent := revision.parent.value;
      if parent !in revisions || revisions[parent].projectId != p {
        MissingAncestor(revisions, p, start, path);
        return Stop(Indeterminate);
      }
      ancestor := parent;
    }
  }

  datatype ObservedRef = ObservedRef(binding: Binding, observed: Option<Oid>)

  datatype PlanStatus = Current | PendingRepair | BlockedRef

  datatype PlannedRef = PlannedRef(binding: Binding, desired: Oid, status: PlanStatus)

  predicate RefNameWellFormed(ref: string) {
    |ref| >= 5 && ref[..5] == "refs/" && forall c | c in ref :: !IsSpace(c)
  }

  /** The binding names the enrolled repository of a space the revision selects. */
  predicate Plannable(s: Snapshot, revision: ProjectRevision, binding: Binding) {
    && binding.space in revision.snapshots
    && revision.snapshots[binding.space] != ""
    && binding.space in s.repositories
    && s.repositories[binding.space] != ""
    && s.repositories[binding.space] == binding.repository
    && RefNameWellFormed(binding.ref)
  }

  /** The status the plan owes a ref: blocked exactly when its commit is there
      but the Project's lineage never recorded it. */
  ghost predicate PlanStatusHolds(s: Snapshot, revision: ProjectRevision, chain: seq<Id>, o: ObservedRef, planned: PlannedRef)
    requires forall id | id in chain :: id in s.projectRevisions
  {
    && planned.binding == o.binding
    && o.binding.space in revision.snapshots
    && planned.desired == revision.snapshots[o.binding.space]
    && (planned.status.Current? <==> o.observed == Some(planned.desired))
    && (planned.status.BlockedRef? <==>
          o.observed.Some? && !Recorded(s.projectRevisions, chain, o.binding.space, o.observed.value))
  }

  /** A canonical revision of the Project is stored: all that a plan reads. */
  predicate HasSelection(s: Snapshot, p: Id) {
    && p in s.canonicalByProject
    && s.canonicalByProject[p] in s.projectRevisions
    && s.projectRevisions[s.canonicalByProject[p]].projectId == p
  }

  ghost predicate HasLineage(s: Snapshot, p: Id) {
    p in s.canonicalByProject && exists chain :: IsLineage(s.projectRevisions, p, s.canonicalByProject[p], chain)
  }

  /** The bindings of a plan: enrolled, and of distinct spaces. */
  predicate AllPlannable(s: Snapshot, p: Id, refs: seq<ObservedRef>)
    requires HasSelection(s, p)
  {
    && (forall o | o in refs :: Plannable(s, s.projectRevisions[s.canonicalByProject[p]], o.binding))
    && Distinct(seq(|refs|, i requires 0 <= i < |refs| => refs[i].binding.space))
  }

  /** The read-only repair plan for the bound refs. */
  method CanonicalRefProjectionPlan(s: Snapshot, p: Id, refs: seq<ObservedRef>)
    returns (r: Outcome<seq<PlannedRef>, Refusal>)
    ensures r.Ok? <==> HasSelection(s, p) && AllPlannable(s, p, refs) && (refs == [] || HasLineage(s, p))
    ensures r.Ok? ==> |r.value| == |refs|
    ensures r.Ok? ==> forall chain, i | IsLineage(s.projectRevisions, p, s.canonicalByProject[p], chain) && 0 <= i < |refs| ::
              PlanStatusHolds(s, s.projectRevisions[s.canonicalByProject[p]], chain, refs[i], r.value[i])
  {
    if !HasSelection(s, p) {
      return Stop(Indeterminate);
    }
    var start := s.canonicalByProject[p];
    var revision := s.projectRevisions[start];
    var seen: set<Id> := {};
    var planned: seq<PlannedRef> := [];
    ghost var spaces := seq(|refs|, i requires 0 <= i < |refs| => refs[i].binding.space);
    for i := 0 to |refs|
      invariant |planned| == i
      invariant forall space :: space in seen <==> space in spaces[..i]
      invariant Distinct(spaces[..i])
      invariant forall j | 0 <= j < i :: Plannable(s, revision, refs[j].binding)
      invariant i > 0 ==> HasLineage(s, p)
      invariant forall chain, j | IsLineage(s.projectRevisions, p, start, chain) && 0 <= j < i ::
                  PlanStatusHolds(s, revision, chain, refs[j], planned[j])
    {
      var binding, observed := refs[i].binding, refs[i].observed;
      assert spaces[..i + 1] == spaces[..i] + [binding.space];
      if !Plannable(s, revision, binding) || binding.space in seen {
        if binding.space in seen {
          RepeatedSpace(spaces, i);
        }
        return Stop(Conflict);
      }
      var known := KnownInLineage(s.projectRevisions, p, start, binding.space, observed);
      if known.Stop? {
        return Stop(known.error);
      }
      var desired := revision.snapshots[binding.space];
      var status := if observed == Some(desired) then Current else if known.value then PendingRepair else BlockedRef;
      forall chain | IsLineage(s.projectRevisions, p, start, chain)
        ensures PlanStatusHolds(s, revision, chain, refs[i], PlannedRef(binding, desired, status))
      {
        assert chain[0] in chain;
      }
      seen := seen + {binding.space};
      planned := planned + [PlannedRef(binding, desired, status)];
    }
    assert spaces[..|refs|] == spaces;
    return Ok(planned);
  }

  lemma RepeatedSpace(spaces: seq<Id>, i: nat)
    requires i < |spaces| && spaces[i] in spaces[..i]
    ensures !Distinct(spaces)
  {
    var j :| 0 <= j < i && spaces[..i][j] == spaces[i];
    assert spaces[j] == spaces[i];
  }
}
