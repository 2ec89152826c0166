/** One small Project with two Source Spaces, and the Landings that move the
    second of them from commit to commit. */
module SmallProject {
  import opened Basics
  import opened Authority
  import opened CohortLanding
  import opened CanonicalRefs
  import opened FencedLanding
  import opened LandingInvariants
  import opened FencedLandingSafety
  import opened RefLag
  import opened Reconciliation
  import opened ProtocolRuns

  /** Its names, and the commit at which its first space stays. */
  datatype Names = Names(p: Id, root: Id, first: Binding, second: Binding, provider: Id, receipt: string, still: Oid)

  predicate Apart(n: Names) {
    && n.first.space != n.second.space && n.first.repository != n.second.repository
    && RefNameWellFormed(n.first.ref) && RefNameWellFormed(n.second.ref)
    && n.provider != "" && n.receipt != "" && IsOid(n.still)
  }

  function Covering(n: Names): Config {
    Config(n.p, n.provider, true, n.receipt, [n.first, n.second])
  }

  function Spread(n: Names, oid: Oid): map<Id, Oid> {
    map[n.first.space := n.still, n.second.space := oid]
  }

  /** The second space has just been imported at a commit. */
  function Imported(n: Names, oid: Oid): Cluster {
    var root := ProjectRevision(n.root, n.p, Spread(n, oid), None, [], None);
    var a := Snapshot(0, map[n.p := Project(n.p, [n.first.space, n.second.space])],
                      map[n.first.space := n.first.repository, n.second.space := n.second.repository],
                      map[n.root := root], map[], map[], map[], map[], map[n.p := n.root], map[], map[], map[], []);
    Cluster(a, map[n.first := RefState(Some(n.still), 0, 0, None, None, false), n.second := RefState(Some(oid), 0, 0, None, None, false)],
            {}, map[], [Turn(n.root, 0)])
  }

  /** The enrolment stands and the canonical revision selects the commit. */
  predicate Selects(n: Names, a: Snapshot, oid: Oid) {
    && n.p in a.projects && a.projects[n.p] == Project(n.p, [n.first.space, n.second.space])
    && n.first.space in a.repositories && a.repositories[n.first.space] == n.first.repository
    && n.second.space in a.repositories && a.repositories[n.second.space] == n.second.repository
    && HasCanonical(a, n.p) && CanonicalRevision(a, n.p).id == a.canonicalByProject[n.p]
    && CanonicalRevision(a, n.p).snapshots == Spread(n, oid)
  }

  lemma ImportRests(n: Names, oid: Oid)
    requires Apart(n)
    ensures AtRest(Covering(n), Imported(n, oid)) && Selects(n, Imported(n, oid).authority, oid)
  {
    var s := Imported(n, oid);
    assert AtTurn(s.authority, s.refs[n.first], s.history[0], n.first);
    assert AtTurn(s.authority, s.refs[n.second], s.history[0], n.second);
    ReachStart(Covering(n), s);
  }

  /** Such a Project and such commits. */
  lemma SmallProjectExists() returns (n: Names, a: Oid, b: Oid, d: Oid)
    ensures Apart(n) && IsOid(a) && IsOid(b) && IsOid(d) && a != b && a != d && b != d
  {
    n := Names("p", "0", Binding("f", "F", "refs/f"), Binding("s", "S", "refs/s"), "v", "q", seq(40, _ => 'e'));
    a, b, d := seq(40, _ => 'a'), seq(40, _ => 'b'), seq(40, _ => 'd');
    assert a[0] == 'a' && b[0] == 'b' && d[0] == 'd';
  }

  // ----------------------------------------------------------------- a change to land

  function RequestOf(a: Snapshot, p: Id, id: Id): Request
    requires HasCanonical(a, p)
  {
    Request(id, [Member(id, id)], a.canonicalByProject[p])
  }

  function ChangedBy(n: Names, a: Snapshot, id: Id, oid: Oid): ChangeRevision
    requires HasCanonical(a, n.p)
  {
    ChangeRevision(id, id, a.canonicalByProject[n.p], None, Some(id), id, map[n.second.space := oid], [])
  }

  /** A Change of the second space is submitted from a Workspace of its own. */
  function Submit(n: Names, a: Snapshot, id: Id, oid: Oid): Snapshot
    requires HasCanonical(a, n.p)
  {
    var base := a.canonicalByProject[n.p];
    a.(version := a.version + 1,
       changes := a.changes[id := Change(id, n.p, Submitted, Some(id), base, Some(id))],
       changeRevisions := a.changeRevisions[id := ChangedBy(n, a, id, oid)],
       workspaces := a.workspaces[id := Workspace(id, Some(id), id, base, Open)],
       projectViews := a.projectViews[id := ProjectView(id, base, [n.second.space])])
  }

  lemma SubmitIsAllowed(n: Names, a: Snapshot, id: Id, oid: Oid)
    requires HasCanonical(a, n.p) && id !in a.changeRevisions
    ensures OtherCommitAllowed(n.p, a, Submit(n, a, id, oid))
  {
  }

  lemma SubmitStays(n: Names, a: Snapshot, refs: map<Binding, RefState>, id: Id, oid: Oid)
    requires HasCanonical(a, n.p) && AtCanonical(a, refs, Covering(n)) && ResultsKnown(a, n.p)
    ensures var a' := Submit(n, a, id, oid);
            && HasCanonical(a', n.p) && AtCanonical(a', refs, Covering(n)) && ResultsKnown(a', n.p)
            && CanonicalRevision(a', n.p) == CanonicalRevision(a, n.p)
            && (HasRecord(a, Covering(n)) ==> HasRecord(a', Covering(n)))
  {
  }

  lemma SubmitRests(n: Names, s: Cluster, id: Id, oid: Oid) returns (t: Cluster)
    requires AtRest(Covering(n), s) && id !in s.authority.changeRevisions
    ensures AtRest(Covering(n), t) && t == s.(authority := Submit(n, s.authority, id, oid))
  {
    var c, a' := Covering(n), Submit(n, s.authority, id, oid);
    t := s.(authority := a');
    SubmitIsAllowed(n, s.authority, id, oid);
    Reach(c, s, OtherCommit(a'), t);
    SubmitStays(n, s.authority, s.refs, id, oid);
    if HasLanded(CanonicalRevision(s.authority, n.p)) {
      SubmitDone(n, s, t, id, oid);
    }
  }

  lemma SubmitDone(n: Names, s: Cluster, t: Cluster, id: Id, oid: Oid)
    requires RecordDone(Covering(n), s) && HasCanonical(s.authority, n.p) && Reached(Covering(n), t)
    requires t == s.(authority := Submit(n, s.authority, id, oid))
    ensures RecordDone(Covering(n), t)
  {
    var epoch :| DoneAt(Covering(n), s, epoch);
    SubmitRecovers(n, s.authority, s.refs, id, oid);
    assert DoneAt(Covering(n), t, epoch);
  }

  lemma SubmitRecovers(n: Names, a: Snapshot, refs: map<Binding, RefState>, id: Id, oid: Oid)
    requires HasCanonical(a, n.p) && HasRecord(a, Covering(n))
    requires Recoverable(a, refs, Covering(n), a.projections[n.p].epoch)
    ensures Recoverable(Submit(n, a, id, oid), refs, Covering(n), a.projections[n.p].epoch)
  {
    var c := Covering(n);
    var a' := Submit(n, a, id, oid);
    var record := a.projections[n.p];
    assert Selected(a', c) == Selected(a, c);
    var key :| key in a.idempotency
               && LandingAt(a, key, record.landingId, record.projectId, record.projectRevisionId, record.epoch, record.policyVersion);
    assert LandingAt(a', key, record.landingId, record.projectId, record.projectRevisionId, record.epoch, record.policyVersion);
    forall target | target in record.bindings
      ensures EntryFits(refs, c, record, target) && CheckpointsFit(a', refs, record, target)
    {
      assert EntryFits(refs, c, record, target) && CheckpointsFit(a, refs, record, target);
    }
  }

  // ------------------------------------------------------------------------ its landing

  lemma OidIsText(oid: Oid)
    requires IsOid(oid)
    ensures !Blank(oid)
  {
    assert oid[0] in oid && !IsSpace(oid[0]);
  }

  lemma MemberIsReady(n: Names, a: Snapshot, id: Id, oid: Oid, was: Oid)
    requires Selects(n, a, was) && IsOid(oid)
    ensures MemberReady(Submit(n, a, id, oid), a.projects[n.p], a.canonicalByProject[n.p], Member(id, id))
  {
    OidIsText(oid);
  }

  lemma Composes(n: Names, a: Snapshot, id: Id, oid: Oid, was: Oid)
    requires Selects(n, a, was) && oid != was && n.first.space != n.second.space
    ensures IsComposition(Spread(n, was), [ChangedBy(n, a, id, oid)], Spread(n, oid)) && Agree(Spread(n, was), [ChangedBy(n, a, id, oid)])
  {
    var r := ChangedBy(n, a, id, oid);
    assert Proposes(Spread(n, was), r, n.second.space);
    assert Proposed(Spread(n, was), [r], n.second.space, oid);
    assert forall o :: !Proposed(Spread(n, was), [r], n.first.space, o);
  }

  /** What is obtained for the Landing. */
  function Supplied(n: Names, id: Id, oid: Oid): Supply {
    Supply(id, id, id, id, OtherKey(""), Allow("policy"), Minted(id, id, id), Spread(n, oid))
  }

  function CohortIds(a: Snapshot): set<Id> {
    set key | key in a.idempotency && key.CohortKey? :: key.cohortId
  }

  predicate Unused(a: Snapshot, id: Id) {
    && !Blank(id) && id !in a.changeRevisions && id !in a.projectRevisions && id !in a.landings
    && id !in RecordIds(a) && id !in CohortIds(a)
  }

  lemma SecondSelectable(n: Names, a: Snapshot, id: Id, oid: Oid, was: Oid)
    requires Apart(n) && Selects(n, a, was) && IsOid(oid) && oid != was
    ensures var a', request := Submit(n, a, id, oid), RequestOf(a, n.p, id);
            && Selectable(a', n.p, request, Allow("policy"))
            && Revisions(a', request.members) == [ChangedBy(n, a, id, oid)]
            && IsComposition(CanonicalRevision(a', n.p).snapshots, Revisions(a', request.members), Spread(n, oid))
  {
    MemberIsReady(n, a, id, oid, was);
    Composes(n, a, id, oid, was);
    assert Revisions(Submit(n, a, id, oid), [Member(id, id)]) == [ChangedBy(n, a, id, oid)];
  }

  lemma SecondLands(n: Names, a: Snapshot, id: Id, oid: Oid, was: Oid)
    requires Apart(n) && Selects(n, a, was) && Unused(a, id) && IsOid(oid) && IsOid(was) && oid != was
    ensures Lands(Submit(n, a, id, oid), Covering(n), RequestOf(a, n.p, id), Supplied(n, id, oid))
  {
    SecondSelectable(n, a, id, oid, was);
    assert CohortKey(id) !in a.idempotency;
    LandingCovers(n, Submit(n, a, id, oid), id, oid, was);
  }

  lemma LandingCovers(n: Names, a: Snapshot, id: Id, oid: Oid, was: Oid)
    requires Apart(n) && Selects(n, a, was) && IsOid(oid) && IsOid(was) && id !in a.projectRevisions
    ensures var a' := AfterLanding(a, Covering(n), RequestOf(a, n.p, id), Supplied(n, id, oid));
            && Coverable(a', Covering(n)) && Selects(n, a', oid)
            && Selected(a', Covering(n)) == [SelectedRef(n.first, n.still, n.still), SelectedRef(n.second, oid, was)]
  {
    var c := Covering(n);
    var a' := AfterLanding(a, c, RequestOf(a, n.p, id), Supplied(n, id, oid));
    assert ParentOf(a', CanonicalRevision(a', n.p)) == Some(CanonicalRevision(a, n.p));
    assert Spaces(c.bindings) == [n.first.space, n.second.space];
    assert Repositories(c.bindings) == [n.first.repository, n.second.repository];
  }

  /** The last two selections and the commits they picked for the second space. */
  predicate WentFrom(n: Names, s: Cluster, was: Oid, oid: Oid) {
    && |s.history| > 1
    && Commits(s.authority, LastTurn(s.history), n.second.space, oid)
    && Commits(s.authority, s.history[|s.history| - 2], n.second.space, was)
  }

  lemma LandingMoves(n: Names, s: Cluster, id: Id, oid: Oid, was: Oid)
    requires HasCanonical(s.authority, n.p) && LineageInv(n.p, s.authority, s.history) && Selects(n, s.authority, was)
    requires id !in s.authority.projectRevisions && n.first.space != n.second.space
    ensures WentFrom(n, Advanced(s, Covering(n), RequestOf(s.authority, n.p, id), Supplied(n, id, oid)), was, oid)
  {
  }

  lemma UnusedId(a: Snapshot) returns (id: Id)
    ensures Unused(a, id)
  {
    var used := a.changeRevisions.Keys + a.projectRevisions.Keys + a.landings.Keys + RecordIds(a) + CohortIds(a);
    id := FreshId(used);
    assert id !in used;
  }

  /** From rest, a Landing that moves the second space. */
  lemma MoveSecond(n: Names, s: Cluster, was: Oid, oid: Oid, w: nat) returns (t: Cluster)
    requires Apart(n) && AtRest(Covering(n), s) && Selects(n, s.authority, was) && w !in s.workers
    requires IsOid(was) && IsOid(oid) && was != oid
    ensures JustLanded(Covering(n), t) && Selects(n, t.authority, oid) && WentFrom(n, t, was, oid)
    ensures Selected(t.authority, Covering(n)) == [SelectedRef(n.first, n.still, n.still), SelectedRef(n.second, oid, was)]
    ensures t.refs == s.refs && t.workers == s.workers
  {
    var id := UnusedId(s.authority);
    var u := SubmitRests(n, s, id, oid);
    SecondLands(n, s.authority, id, oid, was);
    t := Moved(n, u, id, oid, was, w);
  }

  lemma Moved(n: Names, u: Cluster, id: Id, oid: Oid, was: Oid, w: nat) returns (t: Cluster)
    requires Apart(n) && AtRest(Covering(n), u) && Selects(n, u.authority, was) && w !in u.workers
    requires IsOid(was) && IsOid(oid) && id !in u.authority.projectRevisions
    requires Lands(u.authority, Covering(n), RequestOf(u.authority, n.p, id), Supplied(n, id, oid))
    ensures JustLanded(Covering(n), t) && Selects(n, t.authority, oid) && WentFrom(n, t, was, oid)
    ensures Selected(t.authority, Covering(n)) == [SelectedRef(n.first, n.still, n.still), SelectedRef(n.second, oid, was)]
    ensures t.refs == u.refs && t.workers == u.workers
  {
    var c, request, env := Covering(n), RequestOf(u.authority, n.p, id), Supplied(n, id, oid);
    LandOnce(c, u, w, request, env);
    LandingCovers(n, u.authority, id, oid, was);
    ReachedInv(c, u);
    LandingMoves(n, u, id, oid, was);
    t := Advanced(u, c, request, env);
  }

  lemma ReachedInv(c: Config, s: Cluster)
    requires Reached(c, s)
    ensures Inv(c.projectId, s)
  {
    var run, steps :| EndsIn(c, run, steps, s);
    RunKeepsInv(c.projectId, run, steps, |steps|);
  }
}
