/** How the local coordinator composes a cohort: member by member, each over
    what the ones before it left. */
module LocalComposition {
  import opened Basics
  import opened Authority
  import opened CohortLanding

  /** The snapshots after every member has been written over the base in turn. */
  function Folded(base: map<Id, Oid>, revisions: seq<ChangeRevision>): map<Id, Oid> {
    if revisions == [] then base
    else Folded(base, revisions[..|revisions| - 1]) + revisions[|revisions| - 1].snapshots
  }

  /** A space once changed is restated unchanged by every later member naming it. */
  ghost predicate InOrder(base: map<Id, Oid>, revisions: seq<ChangeRevision>) {
    forall i, j, space | 0 <= i < j < |revisions| && Proposes(base, revisions[i], space) && space in revisions[j].snapshots ::
      revisions[j].snapshots[space] == revisions[i].snapshots[space]
  }

  /** The local order rule is agreement, and no later member that names a
      changed space with the base's snapshot. */
  lemma InOrderExactly(base: map<Id, Oid>, revisions: seq<ChangeRevision>)
    ensures InOrder(base, revisions)
            <==> && Agree(base, revisions)
                 && forall i, j, space | 0 <= i < j < |revisions| && Proposes(base, revisions[i], space) && space in revisions[j].snapshots ::
                      Proposes(base, revisions[j], space)
  {
    if InOrder(base, revisions) {
      forall a, b, space | a in revisions && b in revisions && Proposes(base, a, space) && Proposes(base, b, space)
        ensures a.snapshots[space] == b.snapshots[space]
      {
        var i :| 0 <= i < |revisions| && revisions[i] == a;
        var j :| 0 <= j < |revisions| && revisions[j] == b;
      }
    }
  }

  lemma {:induction false} FoldedHolds(base: map<Id, Oid>, revisions: seq<ChangeRevision>, space: Id)
    requires InOrder(base, revisions)
    ensures forall r | r in revisions && Proposes(base, r, space) :: space in Folded(base, revisions) && Folded(base, revisions)[space] == r.snapshots[space]
    ensures space in Folded(base, revisions) && (space in base ==> Folded(base, revisions)[space] != base[space]) ==>
              Proposed(base, revisions, space, Folded(base, revisions)[space])
    ensures space in base ==> space in Folded(base, revisions)
  {
    if revisions != [] {
      var n := |revisions| - 1;
      var front := revisions[..n];
      FoldedHolds(base, front, space);
      assert revisions == front + [revisions[n]];
      if space in revisions[n].snapshots {
        assert revisions[n] in revisions;
        forall r | r in revisions && Proposes(base, r, space)
          ensures r.snapshots[space] == revisions[n].snapshots[space]
        {
          var i :| 0 <= i < |revisions| && revisions[i] == r;
        }
      } else if Proposed(base, front, space, if space in Folded(base, front) then Folded(base, front)[space] else "") {
        var r :| r in front && Proposes(base, r, space) && r.snapshots[space] == Folded(base, front)[space];
        assert r in revisions;
      }
    }
  }

  /** Whatever the local fold accepts is the composition: the one the hosted
      Landing computes from the same members, in any order. */
  lemma {:induction false} FoldComposes(base: map<Id, Oid>, revisions: seq<ChangeRevision>)
    requires InOrder(base, revisions)
    ensures Agree(base, revisions) && IsComposition(base, revisions, Folded(base, revisions))
  {
    InOrderExactly(base, revisions);
    var out := Folded(base, revisions);
    forall space
      ensures space in base ==> space in out
      ensures forall oid | Proposed(base, revisions, space, oid) :: space in out && out[space] == oid
      ensures space in out ==> Proposed(base, revisions, space, out[space])
                               || (space in base && out[space] == base[space] && forall oid :: !Proposed(base, revisions, space, oid))
    {
      FoldedHolds(base, revisions, space);
    }
  }

  function Naming(snapshots: map<Id, Oid>): ChangeRevision {
    ChangeRevision("", "", "", None, None, "", snapshots, [])
  }

  /** A cohort whose members agree can be accepted in one order and refused in
      the other. */
  lemma OrderMatters(space: Id, kept: Oid, changed: Oid)
    requires kept != changed
    ensures var base, changes, restates := map[space := kept], Naming(map[space := changed]), Naming(map[space := kept]);
            && InOrder(base, [restates, changes]) && !InOrder(base, [changes, restates])
            && Agree(base, [changes, restates])
  {
    var base, changes, restates := map[space := kept], Naming(map[space := changed]), Naming(map[space := kept]);
    var xs, ys := [changes, restates], [restates, changes];
    assert Proposes(base, xs[0], space) && space in xs[1].snapshots && xs[1].snapshots[space] != xs[0].snapshots[space];
    assert forall i | 0 <= i < |ys| - 1 :: ys[i] == restates;
  }

  /** ...or be refused in every order, though its members agree. */
  lemma NoOrderHelps(s: Id, t: Id, kept: Oid, changed: Oid)
    requires s != t && kept != changed
    ensures var base := map[s := kept, t := kept];
            var a, b := Naming(map[s := changed, t := kept]), Naming(map[s := kept, t := changed]);
            Agree(base, [a, b]) && !InOrder(base, [a, b]) && !InOrder(base, [b, a])
  {
    var base := map[s := kept, t := kept];
    var a, b := Naming(map[s := changed, t := kept]), Naming(map[s := kept, t := changed]);
    var xs, ys := [a, b], [b, a];
    assert Proposes(base, xs[0], s) && s in xs[1].snapshots && xs[1].snapshots[s] != xs[0].snapshots[s];
    assert Proposes(base, ys[0], t) && t in ys[1].snapshots && ys[1].snapshots[t] != ys[0].snapshots[t];
  }

  // ------------------------------------------------------------------------ the fold

  datatype Incompatible = SourceSpaceInvalid | LandingBlocked

  /** Every space the member names belongs to the Project. */
  predicate WithinSpaces(spaces: seq<Id>, revision: ChangeRevision) {
    forall space | space in revision.snapshots :: space in spaces
  }

  /** What the fold has written once some of a member's entries are in. */
  ghost predicate Midway(before: map<Id, Oid>, revision: ChangeRevision, rest: set<Id>, next: map<Id, Oid>) {
    && (forall space :: space in next <==> space in before || (space in revision.snapshots && space !in rest))
    && forall space | space in next ::
         next[space] == if space in revision.snapshots && space !in rest then revision.snapshots[space] else before[space]
  }

  /** One member over what the ones before it left. */
  method FoldMember(spaces: seq<Id>, base: map<Id, Oid>, ghost seen: seq<ChangeRevision>, revision: ChangeRevision, before: map<Id, Oid>)
    returns (r: Outcome<map<Id, Oid>, Incompatible>)
    requires InOrder(base, seen) && before == Folded(base, seen)
    ensures r.Ok? <==> WithinSpaces(spaces, revision) && InOrder(base, seen + [revision])
    ensures r.Ok? ==> r.value == Folded(base, seen + [revision])
    ensures r == Stop(SourceSpaceInvalid) ==> !WithinSpaces(spaces, revision)
    ensures r == Stop(LandingBlocked) ==> !InOrder(base, seen + [revision])
  {
    var next := before;
    var rest := revision.snapshots.Keys;
    while rest != {}
      invariant rest <= revision.snapshots.Keys && Midway(before, revision, rest, next)
      invariant forall space | space in revision.snapshots && space !in rest :: space in spaces && Compatible(base, seen, revision, space)
    {
      var space :| space in rest;
      var snapshot := revision.snapshots[space];
      RefusedExactly(base, seen, revision, space, before);
      if space !in spaces {
        return Stop(SourceSpaceInvalid);
      }
      if Refused(base, next, space, snapshot) {
        NotCompatible(base, seen, revision, space);
        return Stop(LandingBlocked);
      }
      MidwayStep(before, revision, rest, next, space);
      rest := rest - {space};
      next := next[space := snapshot];
    }
    FoldedOne(base, seen, revision);
    assert next == before + revision.snapshots;
    r := Ok(next);
  }

  /** An earlier member has set the space to something else than the base's. */
  predicate Refused(base: map<Id, Oid>, next: map<Id, Oid>, space: Id, snapshot: Oid) {
    space in next && next[space] != snapshot && !(space in base && next[space] == base[space])
  }

  lemma {:induction false} RefusedExactly(base: map<Id, Oid>, seen: seq<ChangeRevision>, revision: ChangeRevision, space: Id, before: map<Id, Oid>)
    requires InOrder(base, seen) && before == Folded(base, seen) && space in revision.snapshots
    ensures Refused(base, before, space, revision.snapshots[space]) <==> !Compatible(base, seen, revision, space)
  {
    FoldedHolds(base, seen, space);
  }

  lemma MidwayStep(before: map<Id, Oid>, revision: ChangeRevision, rest: set<Id>, next: map<Id, Oid>, space: Id)
    requires Midway(before, revision, rest, next) && space in rest && rest <= revision.snapshots.Keys
    ensures Midway(before, revision, rest - {space}, next[space := revision.snapshots[space]])
  {
  }

  ghost predicate Compatible(base: map<Id, Oid>, seen: seq<ChangeRevision>, revision: ChangeRevision, space: Id)
    requires space in revision.snapshots
  {
    forall r | r in seen && Proposes(base, r, space) :: r.snapshots[space] == revision.snapshots[space]
  }

  lemma NotCompatible(base: map<Id, Oid>, seen: seq<ChangeRevision>, revision: ChangeRevision, space: Id)
    requires space in revision.snapshots && !Compatible(base, seen, revision, space)
    ensures !InOrder(base, seen + [revision])
  {
    var r :| r in seen && Proposes(base, r, space) && r.snapshots[space] != revision.snapshots[space];
    var i :| 0 <= i < |seen| && seen[i] == r;
    var all := seen + [revision];
    assert all[i] == r && all[|seen|] == revision;
  }

  lemma {:induction false} FoldedOne(base: map<Id, Oid>, seen: seq<ChangeRevision>, revision: ChangeRevision)
    requires InOrder(base, seen)
    requires forall space | space in revision.snapshots :: Compatible(base, seen, revision, space)
    ensures InOrder(base, seen + [revision])
    ensures Folded(base, seen + [revision]) == Folded(base, seen) + revision.snapshots
  {
    var all := seen + [revision];
    assert all[..|seen|] == seen;
    forall i, j, space | 0 <= i < j < |all| && Proposes(base, all[i], space) && space in all[j].snapshots
      ensures all[j].snapshots[space] == all[i].snapshots[space]
    {
      if j == |seen| {
        assert all[i] in seen && Compatible(base, seen, revision, space);
      }
    }
  }

  /** The whole cohort: accepted exactly in order, and then the composition. */
  method ComposeInOrder(spaces: seq<Id>, base: map<Id, Oid>, revisions: seq<ChangeRevision>) returns (r: Outcome<map<Id, Oid>, Incompatible>)
    ensures r.Ok? <==> (forall revision | revision in revisions :: WithinSpaces(spaces, revision)) && InOrder(base, revisions)
    ensures r.Ok? ==> IsComposition(base, revisions, r.value)
  {
    var next := base;
    for i := 0 to |revisions|
      invariant forall revision | revision in revisions[..i] :: WithinSpaces(spaces, revision)
      invariant InOrder(base, revisions[..i]) && next == Folded(base, revisions[..i])
    {
      assert revisions[..i + 1] == revisions[..i] + [revisions[i]];
      var folded := FoldMember(spaces, base, revisions[..i], revisions[i], next);
      if folded.Stop? {
        InOrderPrefix(base, revisions, i + 1);
        return folded;
      }
      next := folded.value;
    }
    assert revisions[..|revisions|] == revisions;
    FoldComposes(base, revisions);
    r := Ok(next);
  }

  lemma InOrderPrefix(base: map<Id, Oid>, revisions: seq<ChangeRevision>, n: nat)
    requires n <= |revisions|
    ensures InOrder(base, revisions) ==> InOrder(base, revisions[..n])
  {
    if InOrder(base, revisions) {
      forall i, j, space | 0 <= i < j < n && Proposes(base, revisions[..n][i], space) && space in revisions[..n][j].snapshots
        ensures revisions[..n][j].snapshots[space] == revisions[..n][i].snapshots[space]
      {
        assert revisions[..n][i] == revisions[i] && revisions[..n][j] == revisions[j];
      }
    }
  }
}
