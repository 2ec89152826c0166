/** The local Change coordinator: Workspaces, Conflicts, Change Revisions and
    Landings of one Project, kept in memory and changed one call at a time. */
module LocalChanges {
  import opened Basics
  import opened Authority
  import opened CohortLanding
  import opened LocalComposition

  datatype Mount = Mount(space: Id, snapshot: Oid)

  datatype Activity = Working | Hindered | Finished   // active, blocked, closed
  datatype LocalWorkspace = LocalWorkspace(
    id: Id, projectRevisionId: Id, viewId: Id, mounts: seq<Mount>, activity: Activity, changeId: Option<Id>, actorId: Option<Id>)

  datatype LocalChange = LocalChange(
    id: Id, base: Id, status: ChangeStatus, latest: Option<Id>, workspaceId: Option<Id>, reverts: Option<Id>)

  /** A published revision, its number in its Change, and the one before it. */
  datatype Published = Published(core: ChangeRevision, sequence: nat, parent: Option<Id>)

  datatype LocalConflict = LocalConflict(id: Id, changeId: Id, workspaceId: Id, spaces: seq<Id>, open: bool, resolution: Option<Id>)

  datatype View = View(id: Id, projectRevisionId: Id, visible: seq<Id>, disclosed: map<Id, Oid>)

  datatype ChangeError =
    | UnknownProjectRevision | ProjectMismatch | WorkspaceNotFound | WorkspaceState | ChangeWorkspaceMismatch
    | WorkspaceRefused | WorkspaceSource | ChangeNotFound | ConflictNotFound | ConflictOpen | ConflictChangeMismatch
    | RevisionNotFound | RevisionNotLatest | LandingRefused | StaleCanonical | BaseMismatch | RevertNotFound

  /** Everything the coordinator keeps. */
  datatype State = State(
    projectId: Id, spaces: seq<Id>, initial: Id, canonical: Id,
    projectRevisions: map<Id, ProjectRevision>, workspaces: map<Id, LocalWorkspace>, changes: map<Id, LocalChange>,
    revisions: map<Id, Published>, conflicts: map<Id, LocalConflict>)

  // ------------------------------------------------------------------------ invariants

  /** Records lie under their ids and name records that exist. */
  predicate Referential(s: State) {
    && (forall id | id in s.projectRevisions :: s.projectRevisions[id].id == id)
    && (forall id | id in s.workspaces :: s.workspaces[id].id == id)
    && (forall id | id in s.changes :: s.changes[id].id == id
                                       && (s.changes[id].workspaceId.Some? ==> s.changes[id].workspaceId.value in s.workspaces))
    && (forall id | id in s.revisions :: s.revisions[id].core.id == id && s.revisions[id].core.changeId in s.changes)
    && (forall id | id in s.conflicts :: s.conflicts[id].id == id && s.conflicts[id].workspaceId in s.workspaces
                                         && s.conflicts[id].changeId in s.changes)
  }

  /** The revision is the first of its Change, or follows the one it names. */
  predicate FollowsParent(s: State, id: Id)
    requires id in s.revisions
  {
    var r := s.revisions[id];
    r.sequence >= 1 &&
    if r.parent.None? then r.sequence == 1
    else
      && r.parent.value in s.revisions
      && var p := s.revisions[r.parent.value];
      p.core.changeId == r.core.changeId && r.sequence == p.sequence + 1
  }

  /** Each Change's revisions are one chain numbered 1..n that ends at its
      latest: every number once, each linked to the one before. */
  ghost predicate Chained(s: State) {
    && (forall id {:trigger FollowsParent(s, id)} | id in s.revisions :: FollowsParent(s, id))
    && NumbersUnique(s.revisions)
    && (forall id {:trigger EndsChain(s, id)} | id in s.revisions :: EndsChain(s, id))
    && (forall c {:trigger LatestKnown(s, c)} | c in s.changes :: LatestKnown(s, c))
  }

  predicate NumbersUnique(revisions: map<Id, Published>) {
    forall a, b | a in revisions && b in revisions && revisions[a].core.changeId == revisions[b].core.changeId
                  && revisions[a].sequence == revisions[b].sequence :: a == b
  }

  predicate LatestKnown(s: State, c: Id)
    requires c in s.changes
  {
    s.changes[c].latest.Some? ==> s.changes[c].latest.value in s.revisions && s.revisions[s.changes[c].latest.value].core.changeId == c
  }

  /** The Change has a latest revision, numbered at least as high. */
  predicate EndsChain(s: State, id: Id)
    requires id in s.revisions
  {
    var c := s.revisions[id].core.changeId;
    && c in s.changes && s.changes[c].latest.Some? && LatestKnown(s, c)
    && s.changes[c].latest.value in s.revisions
    && s.revisions[id].sequence <= s.revisions[s.changes[c].latest.value].sequence
  }

  predicate OpenIn(s: State, w: Id, id: Id) {
    id in s.conflicts && s.conflicts[id].workspaceId == w && s.conflicts[id].open
  }

  /** An active Workspace has no open Conflict, a blocked one has some. */
  ghost predicate ConflictsBlock(s: State) {
    && (forall w | w in s.workspaces && s.workspaces[w].activity == Working :: forall id :: !OpenIn(s, w, id))
    && (forall w | w in s.workspaces && s.workspaces[w].activity == Hindered :: exists id :: OpenIn(s, w, id))
  }

  predicate LandedIn(s: State, p: Id, r: Id) {
    p in s.projectRevisions && r in s.projectRevisions[p].landedIds
  }

  predicate Descends(s: State, p: Id)
    requires p in s.projectRevisions
  {
    && s.projectRevisions[p].parent.Some?
    && s.projectRevisions[p].parent.value in s.projectRevisions && s.projectRevisions[p].parent.value != s.canonical
    && Distinct(s.projectRevisions[p].landedIds)
  }

  /** Each later Project Revision is the child of another one, no two are
      children of the same, the canonical one has no child, and what it landed
      was based on its parent. */
  ghost predicate Lineage(s: State) {
    && s.canonical in s.projectRevisions && s.initial in s.projectRevisions
    && (forall p {:trigger Descends(s, p)} | p in s.projectRevisions && p != s.initial :: Descends(s, p))
    && (forall p, q | p in s.projectRevisions && q in s.projectRevisions && p != s.initial && q != s.initial
                      && s.projectRevisions[p].parent == s.projectRevisions[q].parent :: p == q)
    && (forall p, r | LandedIn(s, p, r) && p != s.initial ::
          r in s.revisions && Some(s.revisions[r].core.Base()) == s.projectRevisions[p].parent)
    && (forall r | r in s.revisions :: !LandedIn(s, s.initial, r))
  }

  ghost predicate Consistent(s: State) {
    Referential(s) && Chained(s) && ConflictsBlock(s) && Lineage(s)
  }

  /** No Change Revision is landed twice. */
  lemma LandsOnce(s: State, p: Id, q: Id, r: Id)
    requires Lineage(s) && LandedIn(s, p, r) && LandedIn(s, q, r) && r in s.revisions
    ensures p == q && multiset(s.projectRevisions[p].landedIds)[r] == 1
  {
    var ids := s.projectRevisions[p].landedIds;
    assert p != s.initial && q != s.initial && Descends(s, p);
    OccursOnce(ids, r);
  }

  lemma {:induction false} OccursOnce(ids: seq<Id>, id: Id)
    requires Distinct(ids)
    ensures multiset(ids)[id] == if id in ids then 1 else 0
  {
    if ids != [] {
      var n := |ids| - 1;
      assert ids == ids[..n] + [ids[n]];
      OccursOnce(ids[..n], id);
      assert ids[n] !in ids[..n];
    }
  }

  /** The i-th revision of the chain: its number, and the one before it. */
  predicate IsLink(s: State, changeId: Id, chain: seq<Id>, i: nat)
    requires i < |chain|
  {
    && chain[i] in s.revisions
    && s.revisions[chain[i]].core.changeId == changeId && s.revisions[chain[i]].sequence == i + 1
    && s.revisions[chain[i]].parent == (if i == 0 then None else Some(chain[i - 1]))
  }

  /** Revisions of one Change, numbered from 1, each the parent of the next. */
  ghost predicate IsChain(s: State, changeId: Id, chain: seq<Id>) {
    forall i {:trigger IsLink(s, changeId, chain, i)} | 0 <= i < |chain| :: IsLink(s, changeId, chain, i)
  }

  lemma {:induction false} ChainTo(s: State, id: Id) returns (chain: seq<Id>)
    requires Chained(s) && id in s.revisions
    ensures IsChain(s, s.revisions[id].core.changeId, chain)
    ensures |chain| == s.revisions[id].sequence > 0 && chain[|chain| - 1] == id
    decreases s.revisions[id].sequence
  {
    assert FollowsParent(s, id);
    if s.revisions[id].parent.None? {
      chain := [id];
    } else {
      var before := ChainTo(s, s.revisions[id].parent.value);
      chain := before + [id];
      forall i | 0 <= i < |before|
        ensures IsLink(s, s.revisions[id].core.changeId, chain, i)
      {
        assert IsLink(s, s.revisions[id].core.changeId, before, i);
      }
    }
  }

  lemma SameNumber(revisions: map<Id, Published>, a: Id, b: Id)
    requires NumbersUnique(revisions) && a in revisions && b in revisions
    requires revisions[a].core.changeId == revisions[b].core.changeId && revisions[a].sequence == revisions[b].sequence
    ensures a == b
  {
  }

  /** A Change's revisions are exactly one such chain, and its latest ends it. */
  lemma RevisionsAreChain(s: State, changeId: Id) returns (chain: seq<Id>)
    requires Chained(s) && changeId in s.changes
    ensures IsChain(s, changeId, chain)
    ensures forall id :: id in chain <==> id in s.revisions && s.revisions[id].core.changeId == changeId
    ensures s.changes[changeId].latest == (if chain == [] then None else Some(chain[|chain| - 1]))
  {
    assert LatestKnown(s, changeId);
    chain := [];
    if s.changes[changeId].latest.Some? {
      chain := ChainTo(s, s.changes[changeId].latest.value);
    }
    forall id | id in chain
      ensures id in s.revisions && s.revisions[id].core.changeId == changeId
    {
      var i :| 0 <= i < |chain| && chain[i] == id;
      assert IsLink(s, changeId, chain, i);
    }
    forall id | id in s.revisions && s.revisions[id].core.changeId == changeId
      ensures id in chain
    {
      assert EndsChain(s, id) && FollowsParent(s, id);
      var i := s.revisions[id].sequence - 1;
      assert IsLink(s, changeId, chain, i);
      SameNumber(s.revisions, id, chain[i]);
    }
  }

  /** No other chain has them. */
  lemma ChainIsUnique(s: State, changeId: Id, a: seq<Id>, b: seq<Id>)
    requires NumbersUnique(s.revisions) && IsChain(s, changeId, a) && IsChain(s, changeId, b) && |a| <= |b|
    ensures a == b[..|a|]
  {
    forall i | 0 <= i < |a|
      ensures a[i] == b[i]
    {
      assert IsLink(s, changeId, a, i) && IsLink(s, changeId, b, i);
      SameNumber(s.revisions, a[i], b[i]);
    }
  }

  // ------------------------------------------------------------------ effects of calls

  function MountsOf(view: View): seq<Mount>
    requires forall space | space in view.visible :: space in view.disclosed
  {
    seq(|view.visible|, i requires 0 <= i < |view.visible| => Mount(view.visible[i], view.disclosed[view.visible[i]]))
  }

  /** The View discloses exactly what its Project Revision selects, and can be
      materialized; the filesystem checks are the last argument. */
  predicate Disclosable(s: State, view: View, materialized: bool) {
    && view.projectRevisionId in s.projectRevisions
    && s.projectRevisions[view.projectRevisionId].projectId == s.projectId
    && (forall space | space in view.visible ::
          && space in view.disclosed
          && space in s.projectRevisions[view.projectRevisionId].snapshots
          && s.projectRevisions[view.projectRevisionId].snapshots[space] == view.disclosed[space])
    && materialized
  }

  function NewWorkspace(view: View, id: Id, actor: Option<Id>): LocalWorkspace
    requires forall space | space in view.visible :: space in view.disclosed
  {
    LocalWorkspace(id, view.projectRevisionId, view.id, MountsOf(view), Working, None, actor)
  }

  predicate Relevant(s: State, changeId: Id, w: Id, id: Id) {
    id in s.conflicts && s.conflicts[id].changeId == changeId && s.conflicts[id].workspaceId == w
  }

  /** Resolved Conflicts of the Change and Workspace name the revision. */
  function Attributed(s: State, changeId: Id, w: Id, revisionId: Id): map<Id, LocalConflict> {
    map id | id in s.conflicts ::
      if Relevant(s, changeId, w, id) && !s.conflicts[id].open then s.conflicts[id].(resolution := Some(revisionId)) else s.conflicts[id]
  }

  function Mounted(workspace: LocalWorkspace): set<Id> {
    set mount | mount in workspace.mounts :: mount.space
  }

  predicate SnapshotsFit(workspace: LocalWorkspace, snapshots: map<Id, Oid>) {
    && snapshots.Keys == Mounted(workspace) && |snapshots| == |workspace.mounts|
    && forall space | space in snapshots :: !Blank(snapshots[space])
  }

  /** The Workspace asked for, or the one the Change is attached to. */
  function From(change: LocalChange, workspaceId: Option<Id>): Option<Id> {
    if workspaceId.Some? then workspaceId else change.workspaceId
  }

  /** A revision may be published from the Workspace. */
  ghost predicate Publishable(s: State, changeId: Id, w: Id, snapshots: Option<map<Id, Oid>>, conflictIds: Option<seq<Id>>) {
    && changeId in s.changes && w in s.workspaces
    && s.changes[changeId].workspaceId == Some(w)
    && s.workspaces[w].activity != Finished
    && (conflictIds.Some? ==> forall id | id in conflictIds.value :: Relevant(s, changeId, w, id))
    && (forall id | Relevant(s, changeId, w, id) :: !s.conflicts[id].open)
    && (snapshots.Some? ==> SnapshotsFit(s.workspaces[w], snapshots.value))
  }

  /** The Conflicts a revision names: those given, or else every one of the
      Change in the Workspace, once. */
  ghost predicate NamesConflicts(s: State, changeId: Id, w: Id, conflictIds: Option<seq<Id>>, named: seq<Id>) {
    if conflictIds.Some? then named == conflictIds.value
    else Distinct(named) && forall id :: id in named <==> Relevant(s, changeId, w, id)
  }

  /** The revision published: next in its Change, over the Workspace's base. */
  ghost predicate IsNextRevision(s: State, changeId: Id, w: Id, snapshots: Option<map<Id, Oid>>, conflictIds: Option<seq<Id>>, id: Id, r: Published)
    requires changeId in s.changes && w in s.workspaces
  {
    var latest := s.changes[changeId].latest;
    && r.core.id == id && r.core.changeId == changeId && r.core.workspaceId == Some(w)
    && r.core.Base() == s.workspaces[w].projectRevisionId && r.core.projectViewId == s.workspaces[w].viewId
    && r.parent == latest
    && r.sequence == (if latest.Some? && latest.value in s.revisions then s.revisions[latest.value].sequence else 0) + 1
    && NamesConflicts(s, changeId, w, conflictIds, r.core.conflictIds)
    && r.core.snapshots.Keys == Mounted(s.workspaces[w])
    && (snapshots.Some? ==> r.core.snapshots == snapshots.value)
    && (snapshots.None? ==> forall space | space in r.core.snapshots :: Mount(space, r.core.snapshots[space]) in s.workspaces[w].mounts)
  }

  function PublishedState(s: State, changeId: Id, w: Id, r: Published): State
    requires changeId in s.changes
  {
    s.(revisions := s.revisions[r.core.id := r],
       changes := s.changes[changeId := s.changes[changeId].(latest := Some(r.core.id), status := Submitted, workspaceId := Some(w))],
       conflicts := Attributed(s, changeId, w, r.core.id))
  }

  /** The Change as it is attached to a rebased Workspace, before publishing. */
  function Attached(s: State, changeId: Id, workspace: LocalWorkspace): State
    requires changeId in s.changes
  {
    s.(workspaces := s.workspaces[workspace.id := workspace.(changeId := Some(changeId))],
       changes := s.changes[changeId := s.changes[changeId].(base := workspace.projectRevisionId, workspaceId := Some(workspace.id), status := Active)])
  }

  function ClosedBehind(s: State, previous: Option<LocalWorkspace>): State {
    if previous.None? then s
    else s.(workspaces := s.workspaces[previous.value.id := previous.value.(changeId := None, activity := Finished)])
  }

  // --------------------------------------------------------------- what calls preserve

  lemma WorkspaceKeeps(s: State, w: LocalWorkspace)
    requires Consistent(s) && w.activity == Working && w.id !in s.workspaces
    ensures Consistent(s.(workspaces := s.workspaces[w.id := w]))
  {
    var t := s.(workspaces := s.workspaces[w.id := w]);
    ChainedKept(s, t);
    LineageKept(s, t);
    forall id
      ensures !OpenIn(t, w.id, id)
    {
    }
    ConflictsKept(s, t);
  }

  /** Chains depend on revisions and the Changes' latest alone. */
  lemma ChainedKept(s: State, t: State)
    requires Chained(s) && t.revisions == s.revisions
    requires forall c | c in s.changes :: c in t.changes && t.changes[c].latest == s.changes[c].latest
    requires forall c | c in t.changes && c !in s.changes :: t.changes[c].latest.None?
    ensures Chained(t)
  {
    forall id | id in t.revisions
      ensures FollowsParent(t, id) && EndsChain(t, id)
    {
      assert FollowsParent(s, id) && EndsChain(s, id);
    }
    forall c | c in t.changes
      ensures LatestKnown(t, c)
    {
      assert c in s.changes ==> LatestKnown(s, c);
    }
  }

  /** A Workspace whose Conflicts are untouched keeps its activity's meaning. */
  lemma ConflictsKept(s: State, t: State)
    requires ConflictsBlock(s)
    requires forall w, id :: OpenIn(t, w, id) <==> OpenIn(s, w, id)
    requires forall w | w in t.workspaces && t.workspaces[w].activity != Finished ::
               || (w in s.workspaces && s.workspaces[w].activity == t.workspaces[w].activity)
               || (t.workspaces[w].activity == Working && forall id :: !OpenIn(t, w, id))
    ensures ConflictsBlock(t)
  {
    forall w | w in t.workspaces && t.workspaces[w].activity == Hindered
      ensures exists id :: OpenIn(t, w, id)
    {
      var id :| OpenIn(s, w, id);
      assert OpenIn(t, w, id);
    }
  }

  lemma LineageKept(s: State, t: State)
    requires Lineage(s) && t.projectRevisions == s.projectRevisions && t.canonical == s.canonical && t.initial == s.initial
    requires forall r | r in s.revisions :: r in t.revisions && t.revisions[r] == s.revisions[r]
    requires forall r | r in t.revisions && r !in s.revisions :: !LandedIn(s, s.initial, r)
    ensures Lineage(t)
  {
    forall p | p in t.projectRevisions && p != t.initial
      ensures Descends(t, p)
    {
      assert Descends(s, p);
    }
    forall p, r | LandedIn(t, p, r) && p != t.initial
      ensures r in t.revisions && Some(t.revisions[r].core.Base()) == t.projectRevisions[p].parent
    {
      assert LandedIn(s, p, r);
    }
    forall r | r in t.revisions
      ensures !LandedIn(t, t.initial, r)
    {
      assert !LandedIn(s, s.initial, r);
    }
  }

  lemma ChangeKeeps(s: State, c: LocalChange)
    requires Consistent(s) && c.id !in s.changes && c.latest.None?
    requires c.workspaceId.Some? ==> c.workspaceId.value in s.workspaces
    ensures Consistent(s.(changes := s.changes[c.id := c]))
  {
    var t := s.(changes := s.changes[c.id := c]);
    ChainedKept(s, t);
    ConflictsKept(s, t);
    LineageKept(s, t);
  }

  function Registered(s: State, conflict: LocalConflict): State
    requires conflict.workspaceId in s.workspaces
  {
    s.(conflicts := s.conflicts[conflict.id := conflict],
       workspaces := s.workspaces[conflict.workspaceId := s.workspaces[conflict.workspaceId].(activity := Hindered)])
  }

  lemma RegisterBlocks(s: State, conflict: LocalConflict)
    requires ConflictsBlock(s) && conflict.id !in s.conflicts && conflict.open && conflict.workspaceId in s.workspaces
    ensures ConflictsBlock(Registered(s, conflict))
  {
    var w := conflict.workspaceId;
    var t := Registered(s, conflict);
    assert OpenIn(t, w, conflict.id);
    forall v, id | v != w
      ensures OpenIn(t, v, id) <==> OpenIn(s, v, id)
    {
    }
    forall v | v in t.workspaces && v != w && t.workspaces[v].activity == Hindered
      ensures exists id :: OpenIn(t, v, id)
    {
      var id :| OpenIn(s, v, id);
      assert OpenIn(t, v, id);
    }
  }

  lemma RegisterKeeps(s: State, conflict: LocalConflict)
    requires Consistent(s) && conflict.id !in s.conflicts && conflict.open
    requires conflict.workspaceId in s.workspaces && conflict.changeId in s.changes
    ensures Consistent(Registered(s, conflict))
  {
    var t := Registered(s, conflict);
    ChainedKept(s, t);
    LineageKept(s, t);
    RegisterBlocks(s, conflict);
  }

  /** One Conflict resolved: its Workspace is active once none is open. */
  ghost function Resolved(s: State, c: Id): State
    requires c in s.conflicts && s.conflicts[c].workspaceId in s.workspaces
  {
    var w := s.conflicts[c].workspaceId;
    s.(conflicts := s.conflicts[c := s.conflicts[c].(open := false)],
       workspaces := s.workspaces[w := s.workspaces[w].(activity := if OthersOpen(s, c) then Hindered else Working)])
  }

  ghost predicate OthersOpen(s: State, c: Id)
    requires c in s.conflicts
  {
    exists id :: id != c && OpenIn(s, s.conflicts[c].workspaceId, id)
  }

  predicate HasOpen(conflicts: map<Id, LocalConflict>, w: Id) {
    exists id | id in conflicts :: conflicts[id].workspaceId == w && conflicts[id].open
  }

  lemma OpenElsewhere(s: State, c: Id, updated: LocalConflict)
    requires c in s.conflicts && updated == s.conflicts[c].(open := false)
    ensures HasOpen(s.conflicts[c := updated], updated.workspaceId) <==> OthersOpen(s, c)
  {
    if id :| id in s.conflicts && id != c && s.conflicts[id].workspaceId == updated.workspaceId && s.conflicts[id].open {
      assert OpenIn(s, updated.workspaceId, id);
      assert s.conflicts[c := updated][id].open;
    }
  }

  lemma ResolveBlocks(s: State, c: Id)
    requires ConflictsBlock(s) && c in s.conflicts && s.conflicts[c].workspaceId in s.workspaces
    ensures ConflictsBlock(Resolved(s, c))
  {
    var w := s.conflicts[c].workspaceId;
    var t := Resolved(s, c);
    forall v, id
      ensures OpenIn(t, v, id) <==> OpenIn(s, v, id) && id != c
    {
    }
    forall v | v in t.workspaces && t.workspaces[v].activity == Hindered
      ensures exists id :: OpenIn(t, v, id)
    {
      if v == w {
        var id :| id != c && OpenIn(s, w, id);
        assert OpenIn(t, w, id);
      } else {
        var id :| OpenIn(s, v, id);
        assert OpenIn(t, v, id);
      }
    }
  }

  lemma ResolveKeeps(s: State, c: Id)
    requires Consistent(s) && c in s.conflicts
    ensures Consistent(Resolved(s, c))
  {
    var t := Resolved(s, c);
    ChainedKept(s, t);
    LineageKept(s, t);
    ResolveBlocks(s, c);
  }

  /** The new revision is numbered above every other one of its Change. */
  lemma NextIsHighest(s: State, changeId: Id, w: Id, snapshots: Option<map<Id, Oid>>, conflictIds: Option<seq<Id>>, id: Id, r: Published)
    requires Chained(s) && changeId in s.changes && w in s.workspaces
    requires IsNextRevision(s, changeId, w, snapshots, conflictIds, id, r)
    ensures forall a | a in s.revisions && s.revisions[a].core.changeId == changeId :: s.revisions[a].sequence < r.sequence
  {
    forall a | a in s.revisions && s.revisions[a].core.changeId == changeId
      ensures s.revisions[a].sequence < r.sequence
    {
      assert EndsChain(s, a);
    }
  }

  lemma PublishLinks(s: State, changeId: Id, w: Id, snapshots: Option<map<Id, Oid>>, conflictIds: Option<seq<Id>>, id: Id, r: Published, a: Id)
    requires Chained(s) && changeId in s.changes && w in s.workspaces && id !in s.revisions
    requires IsNextRevision(s, changeId, w, snapshots, conflictIds, id, r)
    requires a in PublishedState(s, changeId, w, r).revisions
    ensures var t := PublishedState(s, changeId, w, r); FollowsParent(t, a) && EndsChain(t, a)
  {
    NextIsHighest(s, changeId, w, snapshots, conflictIds, id, r);
    assert LatestKnown(s, changeId);
    if a != id {
      assert FollowsParent(s, a) && EndsChain(s, a);
    }
  }

  lemma PublishChains(s: State, changeId: Id, w: Id, snapshots: Option<map<Id, Oid>>, conflictIds: Option<seq<Id>>, id: Id, r: Published)
    requires Chained(s) && changeId in s.changes && w in s.workspaces && id !in s.revisions
    requires IsNextRevision(s, changeId, w, snapshots, conflictIds, id, r)
    ensures Chained(PublishedState(s, changeId, w, r))
  {
    var t := PublishedState(s, changeId, w, r);
    forall a | a in t.revisions
      ensures FollowsParent(t, a) && EndsChain(t, a)
    {
      PublishLinks(s, changeId, w, snapshots, conflictIds, id, r, a);
    }
    forall c | c in t.changes
      ensures LatestKnown(t, c)
    {
      assert LatestKnown(s, c);
    }
    NextIsHighest(s, changeId, w, snapshots, conflictIds, id, r);
    HigherIsUnique(s.revisions, id, r);
  }

  lemma HigherIsUnique(revisions: map<Id, Published>, id: Id, r: Published)
    requires NumbersUnique(revisions)
    requires forall a | a in revisions && revisions[a].core.changeId == r.core.changeId :: revisions[a].sequence < r.sequence
    ensures NumbersUnique(revisions[id := r])
  {
  }

  lemma PublishRefers(s: State, changeId: Id, w: Id, snapshots: Option<map<Id, Oid>>, conflictIds: Option<seq<Id>>, id: Id, r: Published)
    requires Referential(s) && changeId in s.changes && w in s.workspaces
    requires IsNextRevision(s, changeId, w, snapshots, conflictIds, id, r)
    ensures Referential(PublishedState(s, changeId, w, r))
  {
  }

  lemma PublishKeeps(s: State, changeId: Id, w: Id, snapshots: Option<map<Id, Oid>>, conflictIds: Option<seq<Id>>, id: Id, r: Published)
    requires Consistent(s) && changeId in s.changes && w in s.workspaces && id !in s.revisions && !LandedIn(s, s.initial, id)
    requires IsNextRevision(s, changeId, w, snapshots, conflictIds, id, r)
    ensures Consistent(PublishedState(s, changeId, w, r))
  {
    var t := PublishedState(s, changeId, w, r);
    PublishChains(s, changeId, w, snapshots, conflictIds, id, r);
    PublishRefers(s, changeId, w, snapshots, conflictIds, id, r);
    assert r.core.id == id;
    PublishElsewhere(s, t, id);
  }

  lemma PublishElsewhere(s: State, t: State, id: Id)
    requires ConflictsBlock(s) && Lineage(s) && !LandedIn(s, s.initial, id) && id !in s.revisions
    requires t.projectRevisions == s.projectRevisions && t.canonical == s.canonical && t.initial == s.initial
    requires t.workspaces == s.workspaces && t.conflicts.Keys == s.conflicts.Keys
    requires forall c | c in s.conflicts :: t.conflicts[c].workspaceId == s.conflicts[c].workspaceId && t.conflicts[c].open == s.conflicts[c].open
    requires t.revisions.Keys == s.revisions.Keys + {id} && forall r | r in s.revisions :: t.revisions[r] == s.revisions[r]
    ensures ConflictsBlock(t) && Lineage(t)
  {
    ConflictsKept(s, t);
    LineageKept(s, t);
  }

  /** A Change attached elsewhere, or landed, with the revisions it has. */
  lemma UpdateKeeps(s: State, c: LocalChange)
    requires Consistent(s) && c.id in s.changes && c.latest == s.changes[c.id].latest
    requires c.workspaceId.Some? ==> c.workspaceId.value in s.workspaces
    ensures Consistent(s.(changes := s.changes[c.id := c]))
  {
    var t := s.(changes := s.changes[c.id := c]);
    ChainedKept(s, t);
    ConflictsKept(s, t);
    LineageKept(s, t);
  }

  /** A Workspace rebound or handed over, its activity unchanged. */
  lemma TouchKeeps(s: State, w: LocalWorkspace)
    requires Consistent(s) && w.id in s.workspaces && w.activity == s.workspaces[w.id].activity
    ensures Consistent(s.(workspaces := s.workspaces[w.id := w]))
  {
    var t := s.(workspaces := s.workspaces[w.id := w]);
    TouchRefers(s, w);
    ChainedKept(s, t);
    ConflictsKept(s, t);
    LineageKept(s, t);
  }

  lemma TouchRefers(s: State, w: LocalWorkspace)
    requires Referential(s)
    ensures Referential(s.(workspaces := s.workspaces[w.id := w]))
  {
  }

  lemma AttachKeeps(s: State, changeId: Id, workspace: LocalWorkspace)
    requires Consistent(s) && changeId in s.changes && workspace.id !in s.workspaces && workspace.activity == Working
    ensures Consistent(Attached(s, changeId, workspace))
  {
    var w := workspace.(changeId := Some(changeId));
    WorkspaceKeeps(s, w);
    UpdateKeeps(s.(workspaces := s.workspaces[w.id := w]), Attached(s, changeId, workspace).changes[changeId]);
  }

  lemma AttachStored(s: State, changeId: Id, w: LocalWorkspace)
    requires changeId in s.changes
    ensures Attached(s.(workspaces := s.workspaces[w.id := w]), changeId, w) == Attached(s, changeId, w)
  {
    var bound := w.(changeId := Some(changeId));
    assert s.workspaces[w.id := w][w.id := bound] == s.workspaces[w.id := bound];
  }

  /** A Workspace just made has no Conflict, so nothing stops a publication. */
  lemma FreshIsPublishable(s: State, changeId: Id, workspace: LocalWorkspace)
    requires Consistent(s) && changeId in s.changes && workspace.id !in s.workspaces && workspace.activity == Working
    ensures Publishable(Attached(s, changeId, workspace), changeId, workspace.id, None, None)
  {
  }

  lemma CloseKeeps(s: State, previous: Option<LocalWorkspace>)
    requires Consistent(s) && (previous.Some? ==> previous.value.id in s.workspaces)
    ensures Consistent(ClosedBehind(s, previous))
  {
    var t := ClosedBehind(s, previous);
    ChainedKept(s, t);
    ConflictsKept(s, t);
    LineageKept(s, t);
  }

  // --------------------------------------------------------------------------- landing

  /** The member names a Change's latest revision, with no open Conflict. */
  ghost predicate MemberSelectable(s: State, m: Member) {
    && m.changeId in s.changes && m.changeRevisionId in s.revisions
    && s.revisions[m.changeRevisionId].core.changeId == m.changeId
    && s.changes[m.changeId].latest == Some(m.changeRevisionId)
    && forall id | id in s.conflicts :: !(s.conflicts[id].changeId == m.changeId && s.conflicts[id].open
                                          && Some(s.conflicts[id].workspaceId) == s.revisions[m.changeRevisionId].core.workspaceId)
  }

  predicate OnCanonical(s: State, m: Member) {
    && m.changeId in s.changes && m.changeRevisionId in s.revisions
    && s.revisions[m.changeRevisionId].core.Base() == s.canonical && s.changes[m.changeId].base == s.canonical
  }

  function Cores(s: State, members: seq<Member>): (revisions: seq<ChangeRevision>)
    requires forall m | m in members :: m.changeRevisionId in s.revisions
    ensures |revisions| == |members|
  {
    seq(|members|, i requires 0 <= i < |members| => s.revisions[members[i].changeRevisionId].core)
  }

  /** Exactly the cohorts that land. */
  ghost predicate Landable(s: State, members: seq<Member>, expected: Id)
    requires s.canonical in s.projectRevisions
  {
    && members != [] && Distinct(ChangeIds(members))
    && (forall m | m in members :: MemberSelectable(s, m))
    && s.canonical == expected
    && (forall m | m in members :: OnCanonical(s, m))
    && (forall r | r in Cores(s, members) :: WithinSpaces(s.spaces, r))
    && InOrder(s.projectRevisions[s.canonical].snapshots, Cores(s, members))
  }

  function LandedState(s: State, next: ProjectRevision, changeIds: seq<Id>): State {
    s.(canonical := next.id,
       projectRevisions := s.projectRevisions[next.id := next],
       changes := map c | c in s.changes :: if c in changeIds then s.changes[c].(status := Landed) else s.changes[c])
  }

  lemma LandLineage(s: State, next: ProjectRevision, changeIds: seq<Id>)
    requires Lineage(s) && next.id !in s.projectRevisions && next.parent == Some(s.canonical) && Distinct(next.landedIds)
    requires forall r | r in next.landedIds :: r in s.revisions && s.revisions[r].core.Base() == s.canonical
    ensures Lineage(LandedState(s, next, changeIds))
  {
    var t := LandedState(s, next, changeIds);
    forall p | p in t.projectRevisions && p != t.initial
      ensures Descends(t, p)
    {
      if p != next.id {
        assert Descends(s, p);
      }
    }
    forall p | p in s.projectRevisions && p != s.initial
      ensures s.projectRevisions[p].parent != Some(s.canonical)
    {
      assert Descends(s, p);
    }
    forall p, r | LandedIn(t, p, r) && p != t.initial
      ensures r in t.revisions && Some(t.revisions[r].core.Base()) == t.projectRevisions[p].parent
    {
      if p != next.id {
        assert LandedIn(s, p, r);
      }
    }
    forall r | r in t.revisions
      ensures !LandedIn(t, t.initial, r)
    {
      assert !LandedIn(s, s.initial, r);
    }
  }

  lemma LandKeeps(s: State, next: ProjectRevision, changeIds: seq<Id>)
    requires Consistent(s) && next.id !in s.projectRevisions && next.parent == Some(s.canonical) && Distinct(next.landedIds)
    requires forall r | r in next.landedIds :: r in s.revisions && s.revisions[r].core.Base() == s.canonical
    ensures Consistent(LandedState(s, next, changeIds))
  {
    var t := LandedState(s, next, changeIds);
    LandLineage(s, next, changeIds);
    ChainedKept(s, t);
    ConflictsKept(s, t);
  }

  /** Distinct Changes have distinct latest revisions. */
  lemma MembersDistinct(s: State, members: seq<Member>)
    requires Distinct(ChangeIds(members)) && forall m | m in members :: MemberSelectable(s, m)
    ensures Distinct(RevisionIds(members))
  {
    forall i, j | 0 <= i < j < |members|
      ensures RevisionIds(members)[i] != RevisionIds(members)[j]
    {
      assert MemberSelectable(s, members[i]) && MemberSelectable(s, members[j]);
      assert ChangeIds(members)[i] != ChangeIds(members)[j];
    }
  }

  lemma FirstIsLanded(s: State, r: Id)
    requires exists p | p in s.projectRevisions :: s.projectRevisions[p].landedIds != [] && s.projectRevisions[p].landedIds[0] == r
    ensures exists p :: LandedIn(s, p, r)
  {
    var p :| p in s.projectRevisions && s.projectRevisions[p].landedIds != [] && s.projectRevisions[p].landedIds[0] == r;
    assert LandedIn(s, p, r);
  }

  lemma MembersBased(s: State, members: seq<Member>)
    requires forall m | m in members :: OnCanonical(s, m)
    ensures forall r | r in RevisionIds(members) :: r in s.revisions && s.revisions[r].core.Base() == s.canonical
  {
    forall r | r in RevisionIds(members)
      ensures r in s.revisions && s.revisions[r].core.Base() == s.canonical
    {
      var i :| 0 <= i < |members| && RevisionIds(members)[i] == r;
      assert OnCanonical(s, members[i]);
    }
  }

  lemma SameState(s: State, t: State)
    requires s == t && Consistent(t)
    ensures Consistent(s)
  {
  }

  // ----------------------------------------------------------------------- coordinator

  class LocalChangeCoordinator {
    const projectId: Id
    const spaces: seq<Id>
    const initial: Id
    var canonical: Id
    var projectRevisions: map<Id, ProjectRevision>
    var workspaces: map<Id, LocalWorkspace>
    var changes: map<Id, LocalChange>
    var revisions: map<Id, Published>
    var conflicts: map<Id, LocalConflict>

    constructor (projectId: Id, spaces: seq<Id>, canonicalRevision: ProjectRevision)
      ensures Valid()
      ensures Current() == State(projectId, spaces, canonicalRevision.id, canonicalRevision.id,
                                 map[canonicalRevision.id := canonicalRevision], map[], map[], map[], map[])
    {
      this.projectId, this.spaces, initial := projectId, spaces, canonicalRevision.id;
      canonical := canonicalRevision.id;
      projectRevisions := map[canonicalRevision.id := canonicalRevision];
      workspaces, changes, revisions, conflicts := map[], map[], map[], map[];
    }

    function Current(): State
      reads this
    {
      State(projectId, spaces, initial, canonical, projectRevisions, workspaces, changes, revisions, conflicts)
    }

    ghost predicate Valid()
      reads this
    {
      Consistent(Current())
    }

    method CreateWorkspace(view: View, materialized: bool, actor: Option<Id>, id: Id) returns (r: Outcome<LocalWorkspace, ChangeError>)
      requires Valid() && id !in workspaces
      modifies this`workspaces
      ensures Valid()
      ensures r.Ok? <==> Disclosable(old(Current()), view, materialized)
      ensures r.Ok? ==> r.value == NewWorkspace(view, id, actor)
                        && Current() == old(Current()).(workspaces := old(workspaces)[id := r.value])
      ensures r.Stop? ==> Current() == old(Current())
    {
      if view.projectRevisionId !in projectRevisions {
        return Stop(UnknownProjectRevision);
      }
      var projectRevision := projectRevisions[view.projectRevisionId];
      if projectRevision.projectId != projectId {
        return Stop(ProjectMismatch);
      }
      for i := 0 to |view.visible|
        invariant forall j | 0 <= j < i :: var space := view.visible[j];
                    space in view.disclosed && space in projectRevision.snapshots && projectRevision.snapshots[space] == view.disclosed[space]
      {
        var space := view.visible[i];
        if space !in view.disclosed || space !in projectRevision.snapshots || projectRevision.snapshots[space] != view.disclosed[space] {
          return Stop(WorkspaceSource);
        }
      }
      if !materialized {
        return Stop(WorkspaceRefused);
      }
      var workspace := NewWorkspace(view, id, actor);
      WorkspaceKeeps(Current(), workspace);
      workspaces := workspaces[id := workspace];
      r := Ok(workspace);
    }

    method CreateChange(workspaceId: Id, id: Id) returns (r: Outcome<LocalChange, ChangeError>)
      requires Valid() && id !in changes
      modifies this`changes, this`workspaces
      ensures Valid()
      ensures r.Ok? <==> workspaceId in old(workspaces) && old(workspaces)[workspaceId].activity == Working && old(workspaces)[workspaceId].changeId.None?
      ensures r.Ok? ==>
                && r.value == LocalChange(id, old(workspaces)[workspaceId].projectRevisionId, Active, None, Some(workspaceId), None)
                && Current() == old(Current()).(changes := old(changes)[id := r.value],
                                                workspaces := old(workspaces)[workspaceId := old(workspaces)[workspaceId].(changeId := Some(id))])
      ensures r.Stop? ==> Current() == old(Current())
    {
      if workspaceId !in workspaces {
        return Stop(WorkspaceNotFound);
      }
      var workspace := workspaces[workspaceId];
      if workspace.activity != Working {
        return Stop(WorkspaceState);
      }
      if workspace.changeId.Some? {
        return Stop(ChangeWorkspaceMismatch);
      }
      var change := LocalChange(id, workspace.projectRevisionId, Active, None, Some(workspaceId), None);
      ChangeKeeps(Current(), change);
      changes := changes[id := change];
      TouchKeeps(Current(), workspace.(changeId := Some(id)));
      workspaces := workspaces[workspaceId := workspace.(changeId := Some(id))];
      r := Ok(change);
    }

    method RegisterConflict(changeId: Id, workspaceId: Id, named: seq<Id>, id: Id) returns (r: Outcome<LocalConflict, ChangeError>)
      requires Valid() && id !in conflicts
      modifies this`conflicts, this`workspaces
      ensures Valid()
      ensures r.Ok? <==> && changeId in old(changes) && workspaceId in old(workspaces) && old(changes)[changeId].workspaceId == Some(workspaceId)
                         && forall space | space in named :: space in spaces && space in Mounted(old(workspaces)[workspaceId])
      ensures r.Ok? ==> r.value == LocalConflict(id, changeId, workspaceId, named, true, None) && Current() == Registered(old(Current()), r.value)
      ensures r.Stop? ==> Current() == old(Current())
    {
      if changeId !in changes {
        return Stop(ChangeNotFound);
      }
      if workspaceId !in workspaces {
        return Stop(WorkspaceNotFound);
      }
      if changes[changeId].workspaceId != Some(workspaceId) {
        return Stop(ChangeWorkspaceMismatch);
      }
      if exists space | space in named :: space !in spaces || space !in Mounted(workspaces[workspaceId]) {
        return Stop(WorkspaceSource);
      }
      var conflict := LocalConflict(id, changeId, workspaceId, named, true, None);
      RegisterKeeps(Current(), conflict);
      conflicts := conflicts[id := conflict];
      workspaces := workspaces[workspaceId := workspaces[workspaceId].(activity := Hindered)];
      r := Ok(conflict);
    }

    /** Resolves a Conflict. Its Workspace is active again once it has no open
        Conflict left, even if it had been closed. */
    method ResolveConflict(id: Id) returns (r: Outcome<LocalConflict, ChangeError>)
      requires Valid()
      modifies this`conflicts, this`workspaces
      ensures Valid()
      ensures r.Ok? <==> id in old(conflicts)
      ensures r.Ok? ==> r.value == old(conflicts)[id].(open := false) && Current() == Resolved(old(Current()), id)
      ensures r.Stop? ==> Current() == old(Current())
    {
      if id !in conflicts {
        return Stop(ConflictNotFound);
      }
      ResolveKeeps(Current(), id);
      var updated := conflicts[id].(open := false);
      var hasOpen := HasOpen(conflicts[id := updated], updated.workspaceId);
      assert hasOpen <==> OthersOpen(Current(), id) by {
        OpenElsewhere(Current(), id, updated);
      }
      conflicts := conflicts[id := updated];
      workspaces := workspaces[updated.workspaceId := workspaces[updated.workspaceId].(activity := if hasOpen then Hindered else Working)];
      r := Ok(updated);
    }

    /** The Conflicts of a Change in a Workspace, and whether one is open. */
    method RelevantConflicts(changeId: Id, w: Id) returns (ids: seq<Id>, anyOpen: bool)
      ensures Distinct(ids) && forall id :: id in ids <==> Relevant(Current(), changeId, w, id)
      ensures anyOpen <==> exists id :: Relevant(Current(), changeId, w, id) && conflicts[id].open
    {
      ids, anyOpen := [], false;
      var rest := conflicts.Keys;
      while rest != {}
        invariant rest <= conflicts.Keys
        invariant Distinct(ids) && forall id :: id in ids <==> Relevant(Current(), changeId, w, id) && id !in rest
        invariant anyOpen <==> exists id :: Relevant(Current(), changeId, w, id) && id !in rest && conflicts[id].open
      {
        var id :| id in rest;
        if conflicts[id].changeId == changeId && conflicts[id].workspaceId == w {
          assert Relevant(Current(), changeId, w, id);
          ids := ids + [id];
          anyOpen := anyOpen || conflicts[id].open;
        }
        rest := rest - {id};
      }
    }

    /** The checks before a publication: the Workspace to publish from and the
        Conflicts it concerns. */
    method CheckPublishable(changeId: Id, workspaceId: Option<Id>, snapshots: Option<map<Id, Oid>>, conflictIds: Option<seq<Id>>)
      returns (r: Outcome<(Id, seq<Id>), ChangeError>)
      ensures r.Ok? <==> && changeId in changes
                         && From(changes[changeId], workspaceId).Some?
                         && Publishable(Current(), changeId, From(changes[changeId], workspaceId).value, snapshots, conflictIds)
      ensures r.Ok? ==> Some(r.value.0) == From(changes[changeId], workspaceId)
                        && NamesConflicts(Current(), changeId, r.value.0, None, r.value.1)
      ensures r == Stop(ConflictNotFound) ==> conflictIds.Some? && exists id | id in conflictIds.value :: id !in conflicts
    {
      if changeId !in changes {
        return Stop(ChangeNotFound);
      }
      var attached := From(changes[changeId], workspaceId);
      if attached.None? || attached.value !in workspaces {
        return Stop(WorkspaceNotFound);
      }
      var w := attached.value;
      if changes[changeId].workspaceId != Some(w) {
        return Stop(ChangeWorkspaceMismatch);
      }
      if workspaces[w].activity == Finished {
        return Stop(WorkspaceState);
      }
      var relevant, anyOpen := RelevantConflicts(changeId, w);
      var given := if conflictIds.Some? then conflictIds.value else [];
      for i := 0 to |given|
        invariant forall j | 0 <= j < i :: Relevant(Current(), changeId, w, given[j])
      {
        assert given[i] in given;
        if given[i] !in conflicts {
          return Stop(ConflictNotFound);
        }
        if conflicts[given[i]].changeId != changeId || conflicts[given[i]].workspaceId != w {
          return Stop(ConflictChangeMismatch);
        }
      }
      if anyOpen {
        return Stop(ConflictOpen);
      }
      if snapshots.Some? && !SnapshotsFit(workspaces[w], snapshots.value) {
        return Stop(WorkspaceSource);
      }
      r := Ok((w, relevant));
    }

    /** Publishes the next revision of a Change from its Workspace. */
    method PublishRevision(changeId: Id, workspaceId: Option<Id>, snapshots: Option<map<Id, Oid>>, conflictIds: Option<seq<Id>>, id: Id)
      returns (r: Outcome<Published, ChangeError>)
      requires Valid() && id !in revisions && !LandedIn(Current(), initial, id)
      modifies this`revisions, this`changes, this`conflicts
      ensures Valid()
      ensures r.Ok? <==> && changeId in old(changes)
                         && From(old(changes)[changeId], workspaceId).Some?
                         && Publishable(old(Current()), changeId, From(old(changes)[changeId], workspaceId).value, snapshots, conflictIds)
      ensures r.Ok? ==> var w := From(old(changes)[changeId], workspaceId).value;
                        && IsNextRevision(old(Current()), changeId, w, snapshots, conflictIds, id, r.value)
                        && Current() == PublishedState(old(Current()), changeId, w, r.value)
      ensures r.Stop? ==> Current() == old(Current())
    {
      var checked := CheckPublishable(changeId, workspaceId, snapshots, conflictIds);
      if checked.Stop? {
        return Stop(checked.error);
      }
      var w := checked.value.0;
      var revision := NextRevision(changeId, w, snapshots, conflictIds, checked.value.1, id);
      PublishKeeps(Current(), changeId, w, snapshots, conflictIds, id, revision);
      ghost var t := PublishedState(Current(), changeId, w, revision);
      RecordRevision(changeId, w, revision);
      SameState(Current(), t);
      r := Ok(revision);
    }

    method RecordRevision(changeId: Id, w: Id, r: Published)
      requires changeId in changes
      modifies this`revisions, this`changes, this`conflicts
      ensures Current() == PublishedState(old(Current()), changeId, w, r)
    {
      conflicts := Attributed(Current(), changeId, w, r.core.id);
      revisions := revisions[r.core.id := r];
      changes := changes[changeId := changes[changeId].(latest := Some(r.core.id), status := Submitted, workspaceId := Some(w))];
    }

    method NextRevision(changeId: Id, w: Id, snapshots: Option<map<Id, Oid>>, conflictIds: Option<seq<Id>>, relevant: seq<Id>, id: Id)
      returns (r: Published)
      requires NamesConflicts(Current(), changeId, w, None, relevant)
      requires Valid() && changeId in changes && w in workspaces && (snapshots.Some? ==> SnapshotsFit(workspaces[w], snapshots.value))
      ensures IsNextRevision(Current(), changeId, w, snapshots, conflictIds, id, r)
    {
      var workspace := workspaces[w];
      var latest := changes[changeId].latest;
      assert LatestKnown(Current(), changeId);
      var prior := if latest.Some? && latest.value in revisions then Some(revisions[latest.value]) else None;
      r := Published(
        ChangeRevision(id, changeId, workspace.projectRevisionId, Some(workspace.projectRevisionId), Some(w), workspace.viewId,
                       Snapshots(workspace, snapshots), if conflictIds.Some? then conflictIds.value else relevant),
        (if prior.Some? then prior.value.sequence else 0) + 1, if prior.Some? then Some(prior.value.core.id) else None);
    }

    /** Attaches a Change to a Workspace made from another View and publishes
        there. The publication cannot fail: the call stops only where the
        Workspace could not be made, and then nothing has changed. */
    method RebaseChange(changeId: Id, view: View, materialized: bool, actor: Option<Id>, workspaceId: Id, revisionId: Id)
      returns (r: Outcome<Published, ChangeError>)
      requires Valid() && workspaceId !in workspaces && revisionId !in revisions && !LandedIn(Current(), initial, revisionId)
      modifies this
      ensures Valid()
      ensures r.Ok? <==> changeId in old(changes) && Disclosable(old(Current()), view, materialized)
      ensures r.Stop? ==> Current() == old(Current())
      ensures r.Ok? ==>
                && changeId in old(changes)
                && (forall space | space in view.visible :: space in view.disclosed)
                && var previous := old(changes)[changeId].workspaceId;
                && (previous.Some? ==> previous.value in old(workspaces))
                && var attached := Attached(old(Current()), changeId, NewWorkspace(view, workspaceId, actor));
                && IsNextRevision(attached, changeId, workspaceId, None, None, revisionId, r.value)
                && Current() == ClosedBehind(PublishedState(attached, changeId, workspaceId, r.value),
                                             if previous.Some? then Some(old(workspaces)[previous.value]) else None)
    {
      ghost var s := Current();
      var made := AttachNew(changeId, view, materialized, actor, workspaceId);
      if made.Stop? {
        return Stop(made.error);
      }
      FreshIsPublishable(s, changeId, NewWorkspace(view, workspaceId, actor));
      r := PublishRevision(changeId, Some(workspaceId), None, None, revisionId);
      assert r.Ok?;
      CloseKeeps(Current(), made.value);
      ghost var t := ClosedBehind(Current(), made.value);
      CloseWorkspace(made.value);
      SameState(Current(), t);
    }

    /** Makes the Workspace of a rebase and attaches the Change; yields the one
        it was attached to before. */
    method AttachNew(changeId: Id, view: View, materialized: bool, actor: Option<Id>, workspaceId: Id)
      returns (r: Outcome<Option<LocalWorkspace>, ChangeError>)
      requires Valid() && workspaceId !in workspaces
      modifies this`workspaces, this`changes
      ensures Valid()
      ensures r.Ok? <==> changeId in old(changes) && Disclosable(old(Current()), view, materialized)
      ensures r.Stop? ==> Current() == old(Current())
      ensures r.Ok? ==>
                && var previous := old(changes)[changeId].workspaceId;
                && r.value == (if previous.Some? && previous.value in old(workspaces) then Some(old(workspaces)[previous.value]) else None)
                && (previous.Some? ==> previous.value in old(workspaces))
                && (r.value.Some? ==> r.value.value.id in old(workspaces))
                && Current() == Attached(old(Current()), changeId, NewWorkspace(view, workspaceId, actor))
    {
      if changeId !in changes {
        return Stop(ChangeNotFound);
      }
      ghost var s := Current();
      var change := changes[changeId];
      var previous := if change.workspaceId.Some? then Some(workspaces[change.workspaceId.value]) else None;
      var made := CreateWorkspace(view, materialized, actor, workspaceId);
      if made.Stop? {
        return Stop(made.error);
      }
      AttachKeeps(s, changeId, made.value);
      AttachStored(s, changeId, made.value);
      AttachChange(changeId, made.value);
      SameState(Current(), Attached(s, changeId, made.value));
      r := Ok(previous);
    }

    method AttachChange(changeId: Id, workspace: LocalWorkspace)
      requires changeId in changes
      modifies this`workspaces, this`changes
      ensures Current() == Attached(old(Current()), changeId, workspace)
    {
      workspaces := workspaces[workspace.id := workspace.(changeId := Some(changeId))];
      changes := changes[changeId := changes[changeId].(base := workspace.projectRevisionId, workspaceId := Some(workspace.id), status := Active)];
    }

    method CloseWorkspace(previous: Option<LocalWorkspace>)
      modifies this`workspaces
      ensures Current() == ClosedBehind(old(Current()), previous)
    {
      if previous.Some? {
        workspaces := workspaces[previous.value.id := previous.value.(changeId := None, activity := Finished)];
      }
    }

    method HandoffChange(changeId: Id, actor: Id) returns (r: Outcome<LocalWorkspace, ChangeError>)
      requires Valid()
      modifies this`workspaces
      ensures Valid()
      ensures r.Ok? <==> changeId in old(changes) && old(changes)[changeId].workspaceId.Some?
      ensures r.Ok? ==> && r.value.id in old(workspaces) && old(changes)[changeId].workspaceId == Some(r.value.id)
                        && r.value == old(workspaces)[r.value.id].(actorId := Some(actor))
                        && Current() == old(Current()).(workspaces := old(workspaces)[r.value.id := r.value])
      ensures r.Stop? ==> Current() == old(Current())
    {
      if changeId !in changes {
        return Stop(ChangeNotFound);
      }
      if changes[changeId].workspaceId.None? {
        return Stop(WorkspaceNotFound);
      }
      var w := workspaces[changes[changeId].workspaceId.value].(actorId := Some(actor));
      TouchKeeps(Current(), w);
      workspaces := workspaces[w.id := w];
      r := Ok(w);
    }

    /** Starts a Change that reverts a landed revision. Only the first revision
        of a landed cohort is recognized. */
    method RevertChange(revisionId: Id, workspaceId: Option<Id>, id: Id) returns (r: Outcome<LocalChange, ChangeError>)
      requires Valid() && id !in changes
      modifies this`changes
      ensures Valid()
      ensures r.Ok? <==> && revisionId in old(revisions)
                         && (exists p | p in projectRevisions :: projectRevisions[p].landedIds != [] && projectRevisions[p].landedIds[0] == revisionId)
                         && (workspaceId.Some? ==> workspaceId.value in workspaces && workspaces[workspaceId.value].projectRevisionId == canonical)
      ensures r.Ok? ==> && r.value == LocalChange(id, canonical, Active, None, workspaceId, Some(revisionId))
                        && Current() == old(Current()).(changes := old(changes)[id := r.value])
                        && exists p :: LandedIn(Current(), p, revisionId)
      ensures r.Stop? ==> Current() == old(Current())
    {
      if revisionId !in revisions {
        return Stop(RevertNotFound);
      }
      if !(exists p | p in projectRevisions :: projectRevisions[p].landedIds != [] && projectRevisions[p].landedIds[0] == revisionId) {
        return Stop(RevertNotFound);
      }
      if workspaceId.Some? && workspaceId.value !in workspaces {
        return Stop(WorkspaceNotFound);
      }
      if workspaceId.Some? && workspaces[workspaceId.value].projectRevisionId != canonical {
        return Stop(BaseMismatch);
      }
      var change := LocalChange(id, canonical, Active, None, workspaceId, Some(revisionId));
      ChangeKeeps(Current(), change);
      changes := changes[id := change];
      FirstIsLanded(Current(), revisionId);
      r := Ok(change);
    }

    /** Whether every member names a Change's latest revision without an open
        Conflict. */
    method SelectMembers(members: seq<Member>) returns (error: Option<ChangeError>)
      ensures error.None? <==> forall m | m in members :: MemberSelectable(Current(), m)
    {
      for i := 0 to |members|
        invariant forall m | m in members[..i] :: MemberSelectable(Current(), m)
      {
        var m := members[i];
        assert members[..i + 1] == members[..i] + [m] && m in members;
        if m.changeId !in changes {
          return Some(ChangeNotFound);
        }
        if m.changeRevisionId !in revisions || revisions[m.changeRevisionId].core.changeId != m.changeId {
          return Some(RevisionNotFound);
        }
        if changes[m.changeId].latest != Some(m.changeRevisionId) {
          return Some(RevisionNotLatest);
        }
        if exists id | id in conflicts :: conflicts[id].changeId == m.changeId && conflicts[id].open
                                          && Some(conflicts[id].workspaceId) == revisions[m.changeRevisionId].core.workspaceId {
          return Some(LandingRefused);
        }
      }
      assert members[..|members|] == members;
      error := None;
    }

    /** Lands a cohort: the canonical selection advances to the composition of
        its members. A refused Landing changes nothing. */
    method LandCohort(members: seq<Member>, expected: Id, cohortId: Option<Id>, nextId: Id) returns (r: Outcome<ProjectRevision, ChangeError>)
      requires Valid() && nextId !in projectRevisions
      modifies this`canonical, this`projectRevisions, this`changes
      ensures Valid()
      ensures r.Ok? <==> Landable(old(Current()), members, expected)
      ensures r.Ok? ==>
                && r.value.id == nextId && r.value.projectId == projectId && r.value.parent == Some(old(canonical))
                && r.value.landedIds == RevisionIds(members) && r.value.cohortId == cohortId
                && IsComposition(old(projectRevisions)[old(canonical)].snapshots, Cores(old(Current()), members), r.value.snapshots)
                && Current() == LandedState(old(Current()), r.value, ChangeIds(members))
      ensures r.Stop? ==> Current() == old(Current())
    {
      var composed := ComposeCohort(members, expected);
      if composed.Stop? {
        return Stop(composed.error);
      }
      var next := ProjectRevision(nextId, projectId, composed.value, Some(canonical), RevisionIds(members), cohortId);
      MembersDistinct(Current(), members);
      MembersBased(Current(), members);
      LandKeeps(Current(), next, ChangeIds(members));
      ghost var t := LandedState(Current(), next, ChangeIds(members));
      Advance(next, ChangeIds(members));
      SameState(Current(), t);
      r := Ok(next);
    }

    /** Every check of a Landing, and the composition it would select. */
    method ComposeCohort(members: seq<Member>, expected: Id) returns (r: Outcome<map<Id, Oid>, ChangeError>)
      requires canonical in projectRevisions
      ensures r.Ok? <==> Landable(Current(), members, expected)
      ensures r.Ok? ==> IsComposition(projectRevisions[canonical].snapshots, Cores(Current(), members), r.value)
    {
      if members == [] || !Distinct(ChangeIds(members)) {
        return Stop(LandingRefused);
      }
      var refused := SelectMembers(members);
      if refused.Some? {
        return Stop(refused.value);
      }
      if canonical != expected {
        return Stop(StaleCanonical);
      }
      if exists m | m in members :: revisions[m.changeRevisionId].core.Base() != canonical || changes[m.changeId].base != canonical {
        return Stop(BaseMismatch);
      }
      var composed := ComposeInOrder(spaces, projectRevisions[canonical].snapshots, Cores(Current(), members));
      if composed.Stop? {
        return Stop(LandingRefused);
      }
      r := Ok(composed.value);
    }

    /** The compare-and-swap's writes. */
    method Advance(next: ProjectRevision, changeIds: seq<Id>)
      modifies this`canonical, this`projectRevisions, this`changes
      ensures Current() == LandedState(old(Current()), next, changeIds)
    {
      projectRevisions := projectRevisions[next.id := next];
      changes := map c | c in changes :: if c in changeIds then changes[c].(status := Landed) else changes[c];
      canonical := next.id;
    }
  }

  /** The snapshots a revision records: the ones given, or the mounts'. */
  function Snapshots(workspace: LocalWorkspace, snapshots: Option<map<Id, Oid>>): (r: map<Id, Oid>)
    requires snapshots.Some? ==> SnapshotsFit(workspace, snapshots.value)
    ensures r.Keys == Mounted(workspace)
    ensures snapshots.Some? ==> r == snapshots.value
    ensures snapshots.None? ==> forall space | space in r :: Mount(space, r[space]) in workspace.mounts
  {
    if snapshots.Some? then snapshots.value else MountMap(workspace.mounts)
  }

  function MountMap(mounts: seq<Mount>): (r: map<Id, Oid>)
    ensures r.Keys == (set mount | mount in mounts :: mount.space)
    ensures forall space | space in r :: Mount(space, r[space]) in mounts
  {
    if mounts == [] then map[]
    else
      var last := mounts[|mounts| - 1];
      assert mounts == mounts[..|mounts| - 1] + [last];
      MountMap(mounts[..|mounts| - 1])[last.space := last.snapshot]
  }
}
