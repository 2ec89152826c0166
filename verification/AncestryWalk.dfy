/** The ancestry walk of a Workspace observation: an explicit stack of commits
    to read and markers for commits whose parents are all done. */
module AncestryWalk {
  import opened Basics

  type Oid = string

  predicate IsSha1(oid: Oid) {
    |oid| == 40 && forall c | c in oid :: '0' <= c <= '9' || 'a' <= c <= 'f'
  }

  /** What the provider returns for a commit; it may lack a parent list. */
  datatype Commit = Commit(hash: Oid, treeHash: Oid, parents: Option<seq<Oid>>)

  type Graph = map<Oid, Commit>

  datatype Mark = Mark(hash: Oid, complete: bool)

  datatype Ancestry = Ancestors(commits: set<Oid>) | Cycle | Malformed | BaseUnreachable

  // ------------------------------------------------------------------ reachability

  /** The commit reads back as itself, whole, and the head with its known tree. */
  predicate Sound(graph: Graph, head: Commit, hash: Oid) {
    && hash in graph
    && graph[hash].hash == hash
    && IsSha1(graph[hash].treeHash)
    && graph[hash].parents.Some?
    && (forall parent | parent in graph[hash].parents.value :: IsSha1(parent))
    && (hash == head.hash ==> graph[hash].treeHash == head.treeHash)
  }

  function Parents(graph: Graph, hash: Oid): seq<Oid> {
    if hash in graph && graph[hash].parents.Some? then graph[hash].parents.value else []
  }

  /** Each commit of the path is a parent of the one before it. */
  predicate IsPath(graph: Graph, path: seq<Oid>) {
    forall i | 0 <= i < |path| - 1 :: path[i + 1] in Parents(graph, path[i])
  }

  predicate Joins(graph: Graph, path: seq<Oid>, from: Oid, to: Oid) {
    path != [] && path[0] == from && path[|path| - 1] == to && IsPath(graph, path)
  }

  ghost predicate Reaches(graph: Graph, from: Oid, to: Oid) {
    exists path :: Joins(graph, path, from, to)
  }

  /** Some commit reachable from the head is its own proper ancestor. */
  ghost predicate Cyclic(graph: Graph, head: Oid) {
    exists path, hash :: Reaches(graph, head, hash) && Joins(graph, path, hash, hash) && |path| > 1
  }

  /** Every commit reachable from the head reads back whole. */
  ghost predicate AllSound(graph: Graph, head: Commit) {
    forall hash | Reaches(graph, head.hash, hash) :: Sound(graph, head, hash)
  }

  lemma ReachesSelf(graph: Graph, hash: Oid)
    ensures Reaches(graph, hash, hash)
  {
    assert Joins(graph, [hash], hash, hash);
  }

  lemma ReachesParent(graph: Graph, from: Oid, to: Oid, parent: Oid)
    requires Reaches(graph, from, to) && parent in Parents(graph, to)
    ensures Reaches(graph, from, parent)
  {
    var path :| Joins(graph, path, from, to);
    assert Joins(graph, path + [parent], from, parent);
  }

  // ----------------------------------------------------------------- the open walk

  /** A commit being visited and those of its parents still on the stack. */
  datatype Frame = Frame(node: Oid, rest: seq<Oid>)

  function Unread(hashes: seq<Oid>): (marks: seq<Mark>)
    ensures |marks| == |hashes|
    ensures forall i | 0 <= i < |marks| :: marks[i] == Mark(hashes[i], false)
  {
    seq(|hashes|, i requires 0 <= i < |hashes| => Mark(hashes[i], false))
  }

  /** The stack spelled out by its open frames. */
  function Flat(frames: seq<Frame>): seq<Mark> {
    if frames == [] then []
    else
      var top := frames[|frames| - 1];
      Flat(frames[..|frames| - 1]) + [Mark(top.node, true)] + Unread(top.rest)
  }

  ghost predicate FrameOk(graph: Graph, commits: set<Oid>, frames: seq<Frame>, k: nat)
    requires k < |frames|
  {
    && (k + 1 < |frames| ==> frames[k + 1].node in Parents(graph, frames[k].node))
    && (forall parent | parent in frames[k].rest :: parent in Parents(graph, frames[k].node))
    && (forall parent | parent in Parents(graph, frames[k].node) ::
          || parent in commits || parent in frames[k].rest
          || (k + 1 < |frames| && parent == frames[k + 1].node))
  }

  ghost predicate FramesOk(graph: Graph, head: Commit, visiting: set<Oid>, commits: set<Oid>, frames: seq<Frame>) {
    && (frames != [] ==> frames[0].node == head.hash)
    && (forall k | 0 <= k < |frames| :: FrameOk(graph, commits, frames, k))
    && (forall k | 0 <= k < |frames| :: frames[k].node in visiting)
    && (forall hash | hash in visiting :: exists k | 0 <= k < |frames| :: frames[k].node == hash)
    && (forall j, k | 0 <= j < k < |frames| :: frames[j].node != frames[k].node)
  }

  /** The commits done: closed under parents, and ranked below their children. */
  ghost predicate DoneOk(graph: Graph, commits: set<Oid>, rank: map<Oid, nat>) {
    && rank.Keys == commits
    && forall hash | hash in commits :: forall parent | parent in Parents(graph, hash) :: parent in commits && rank[parent] < rank[hash]
  }

  ghost predicate SeenOk(graph: Graph, head: Commit, visiting: set<Oid>, commits: set<Oid>) {
    && visiting !! commits
    && forall hash | hash in visiting + commits :: Sound(graph, head, hash) && Reaches(graph, head.hash, hash)
  }

  // ------------------------------------------------------------------ what is found

  /** Meeting an open commit again closes a cycle through the frames above it. */
  lemma CycleFound(graph: Graph, head: Commit, visiting: set<Oid>, commits: set<Oid>, frames: seq<Frame>, j: nat)
    requires SeenOk(graph, head, visiting, commits) && FramesOk(graph, head, visiting, commits, frames)
    requires j < |frames| && frames[j].node in Parents(graph, frames[|frames| - 1].node)
    ensures Cyclic(graph, head.hash)
  {
    var n := |frames| - j;
    var path := seq(n + 1, i requires 0 <= i <= n => if i < n then frames[j + i].node else frames[j].node);
    forall i | 0 <= i < |path| - 1
      ensures path[i + 1] in Parents(graph, path[i])
    {
      assert FrameOk(graph, commits, frames, j + i);
    }
    assert Joins(graph, path, frames[j].node, frames[j].node);
  }

  lemma {:induction false} RankFalls(graph: Graph, commits: set<Oid>, rank: map<Oid, nat>, path: seq<Oid>)
    requires DoneOk(graph, commits, rank) && IsPath(graph, path) && path != [] && path[0] in commits
    ensures path[|path| - 1] in commits
    ensures |path| > 1 ==> rank[path[|path| - 1]] < rank[path[0]]
  {
    if |path| > 1 {
      var front := path[..|path| - 1];
      RankFalls(graph, commits, rank, front);
      assert path[|path| - 1] in Parents(graph, front[|front| - 1]);
    }
  }

  lemma DoneIsReachable(graph: Graph, head: Commit, commits: set<Oid>, rank: map<Oid, nat>)
    requires SeenOk(graph, head, {}, commits) && DoneOk(graph, commits, rank) && head.hash in commits
    ensures forall hash :: hash in commits <==> Reaches(graph, head.hash, hash)
    ensures AllSound(graph, head) && !Cyclic(graph, head.hash)
  {
    forall hash | Reaches(graph, head.hash, hash)
      ensures hash in commits
    {
      var path :| Joins(graph, path, head.hash, hash);
      RankFalls(graph, commits, rank, path);
    }
    forall path, hash | Reaches(graph, head.hash, hash) && Joins(graph, path, hash, hash)
      ensures |path| <= 1
    {
      RankFalls(graph, commits, rank, path);
    }
  }

  // -------------------------------------------------------------------- every step

  /** A parent that is done already is dropped from the open commit's list. */
  lemma Skip(graph: Graph, head: Commit, visiting: set<Oid>, commits: set<Oid>, frames: seq<Frame>)
    requires frames != [] && frames[|frames| - 1].rest != []
    requires FramesOk(graph, head, visiting, commits, frames)
    requires var rest := frames[|frames| - 1].rest; rest[|rest| - 1] in commits
    ensures FramesOk(graph, head, visiting, commits, Popped(frames))
  {
    var n := |frames| - 1;
    var frames' := Popped(frames);
    forall k | 0 <= k < |frames'|
      ensures FrameOk(graph, commits, frames', k)
    {
      assert FrameOk(graph, commits, frames, k);
    }
    forall hash | hash in visiting
      ensures exists k | 0 <= k < |frames'| :: frames'[k].node == hash
    {
      var k :| 0 <= k < |frames| && frames[k].node == hash;
      assert frames'[k].node == hash;
    }
  }

  /** The frames once the top one's last unread parent is taken off. */
  function Popped(frames: seq<Frame>): seq<Frame>
    requires frames != [] && frames[|frames| - 1].rest != []
  {
    var n := |frames| - 1;
    frames[n := Frame(frames[n].node, frames[n].rest[..|frames[n].rest| - 1])]
  }

  lemma FlatPopped(frames: seq<Frame>)
    requires frames != [] && frames[|frames| - 1].rest != []
    ensures var rest := frames[|frames| - 1].rest;
            Flat(frames) == Flat(Popped(frames)) + [Mark(rest[|rest| - 1], false)]
  {
    var n := |frames| - 1;
    var rest := frames[n].rest;
    assert Popped(frames)[..n] == frames[..n];
    assert Unread(rest) == Unread(rest[..|rest| - 1]) + [Mark(rest[|rest| - 1], false)];
  }

  lemma {:induction false} FlatPushed(frames: seq<Frame>, hash: Oid, parents: seq<Oid>)
    ensures Flat(frames + [Frame(hash, parents)]) == Flat(frames) + [Mark(hash, true)] + Unread(parents)
  {
    assert (frames + [Frame(hash, parents)])[..|frames|] == frames;
  }

  /** An unread parent is opened. */
  lemma Open(graph: Graph, head: Commit, visiting: set<Oid>, commits: set<Oid>, frames: seq<Frame>, hash: Oid)
    requires frames != [] && frames[|frames| - 1].rest != []
    requires SeenOk(graph, head, visiting, commits) && FramesOk(graph, head, visiting, commits, frames)
    requires var rest := frames[|frames| - 1].rest; hash == rest[|rest| - 1]
    requires hash !in commits && hash !in visiting && Sound(graph, head, hash)
    ensures SeenOk(graph, head, visiting + {hash}, commits)
    ensures FramesOk(graph, head, visiting + {hash}, commits, Popped(frames) + [Frame(hash, Parents(graph, hash))])
  {
    var n := |frames| - 1;
    var top := frames[n];
    assert FrameOk(graph, commits, frames, n);
    assert hash in top.rest;
    ReachesParent(graph, head.hash, top.node, hash);
    var frames' := Popped(frames) + [Frame(hash, Parents(graph, hash))];
    forall k | 0 <= k < |frames'|
      ensures FrameOk(graph, commits, frames', k)
    {
      if k < n {
        assert FrameOk(graph, commits, frames, k);
      } else if k == n {
        assert top.rest == top.rest[..|top.rest| - 1] + [hash];
      }
    }
    forall other | other in visiting + {hash}
      ensures exists k | 0 <= k < |frames'| :: frames'[k].node == other
    {
      if other == hash {
        assert frames'[n + 1].node == hash;
      } else {
        var k :| 0 <= k < |frames| && frames[k].node == other;
        assert frames'[k].node == other;
      }
    }
  }

  lemma OpenHead(graph: Graph, head: Commit)
    requires Sound(graph, head, head.hash)
    ensures SeenOk(graph, head, {head.hash}, {})
    ensures FramesOk(graph, head, {head.hash}, {}, [Frame(head.hash, Parents(graph, head.hash))])
  {
    var frames := [Frame(head.hash, Parents(graph, head.hash))];
    ReachesSelf(graph, head.hash);
    assert frames[0].node == head.hash;
    assert FrameOk(graph, {}, frames, 0);
  }

  /** A commit whose parents are all done is done. */
  lemma Close(graph: Graph, head: Commit, visiting: set<Oid>, commits: set<Oid>, rank: map<Oid, nat>, frames: seq<Frame>, high: nat)
    requires frames != [] && frames[|frames| - 1].rest == []
    requires SeenOk(graph, head, visiting, commits) && FramesOk(graph, head, visiting, commits, frames) && DoneOk(graph, commits, rank)
    requires forall hash | hash in rank :: rank[hash] < high
    ensures var n := |frames| - 1;
            var hash := frames[n].node;
            && hash in visiting
            && SeenOk(graph, head, visiting - {hash}, commits + {hash})
            && FramesOk(graph, head, visiting - {hash}, commits + {hash}, frames[..n])
            && DoneOk(graph, commits + {hash}, rank[hash := high])
  {
    var n := |frames| - 1;
    var hash := frames[n].node;
    assert FrameOk(graph, commits, frames, n);
    var frames' := frames[..n];
    forall k | 0 <= k < n
      ensures FrameOk(graph, commits + {hash}, frames', k)
    {
      assert FrameOk(graph, commits, frames, k);
    }
    forall other | other in visiting - {hash}
      ensures exists k | 0 <= k < |frames'| :: frames'[k].node == other
    {
      var k :| 0 <= k < |frames| && frames[k].node == other;
      assert frames'[k].node == other;
    }
  }

  /** The walk's state: not begun, or an open walk spelled out by its frames. */
  ghost predicate Walking(graph: Graph, head: Commit, pending: seq<Mark>, visiting: set<Oid>, commits: set<Oid>,
                          frames: seq<Frame>, rank: map<Oid, nat>, high: nat) {
    && SeenOk(graph, head, visiting, commits) && DoneOk(graph, commits, rank)
    && (forall hash | hash in rank :: rank[hash] < high)
    && if head.hash in visiting + commits
       then pending == Flat(frames) && FramesOk(graph, head, visiting, commits, frames)
       else pending == [Mark(head.hash, false)] && visiting == {} && commits == {}
  }

  /** What lies on top of the stack. */
  lemma TopOf(graph: Graph, head: Commit, pending: seq<Mark>, visiting: set<Oid>, commits: set<Oid>,
              frames: seq<Frame>, rank: map<Oid, nat>, high: nat)
    requires Walking(graph, head, pending, visiting, commits, frames, rank, high) && pending != []
    ensures var item := pending[|pending| - 1];
            if head.hash !in visiting + commits then item == Mark(head.hash, false) && pending == [item]
            else
              && frames != []
              && var top := frames[|frames| - 1];
              if top.rest == []
              then item == Mark(top.node, true) && pending[..|pending| - 1] == Flat(frames[..|frames| - 1])
              else item == Mark(top.rest[|top.rest| - 1], false) && pending[..|pending| - 1] == Flat(Popped(frames))
                   && item.hash in Parents(graph, top.node)
  {
    if head.hash in visiting + commits {
      var n := |frames| - 1;
      if frames[n].rest != [] {
        FlatPopped(frames);
        assert FrameOk(graph, commits, frames, n);
      } else {
        assert Unread([]) == [];
      }
    }
  }

  /** A commit comes off the stack with all its parents done. */
  lemma WalkCloses(graph: Graph, head: Commit, pending: seq<Mark>, visiting: set<Oid>, commits: set<Oid>,
                   frames: seq<Frame>, rank: map<Oid, nat>, high: nat)
    requires Walking(graph, head, pending, visiting, commits, frames, rank, high)
    requires pending != [] && pending[|pending| - 1].complete
    ensures var hash := pending[|pending| - 1].hash;
            && frames != [] && hash in visiting && hash !in commits
            && Walking(graph, head, pending[..|pending| - 1], visiting - {hash}, commits + {hash},
                       frames[..|frames| - 1], rank[hash := high], high + 1)
  {
    TopOf(graph, head, pending, visiting, commits, frames, rank, high);
    Close(graph, head, visiting, commits, rank, frames, high);
    var hash := pending[|pending| - 1].hash;
    assert visiting - {hash} + (commits + {hash}) == visiting + commits;
  }

  /** A commit not met before comes off the stack and is opened. */
  lemma WalkOpens(graph: Graph, head: Commit, pending: seq<Mark>, visiting: set<Oid>, commits: set<Oid>,
                  frames: seq<Frame>, rank: map<Oid, nat>, high: nat) returns (longer: seq<Frame>)
    requires Walking(graph, head, pending, visiting, commits, frames, rank, high)
    requires pending != [] && !pending[|pending| - 1].complete
    requires var hash := pending[|pending| - 1].hash; hash !in visiting && hash !in commits && Sound(graph, head, hash)
    ensures var hash := pending[|pending| - 1].hash;
            Walking(graph, head, pending[..|pending| - 1] + [Mark(hash, true)] + Unread(Parents(graph, hash)), visiting + {hash}, commits,
                    longer, rank, high)
  {
    TopOf(graph, head, pending, visiting, commits, frames, rank, high);
    var hash := pending[|pending| - 1].hash;
    if head.hash !in visiting + commits {
      OpenHead(graph, head);
      longer := [Frame(head.hash, Parents(graph, head.hash))];
      FlatPushed([], head.hash, Parents(graph, head.hash));
      assert [] + longer == longer;
    } else {
      Open(graph, head, visiting, commits, frames, hash);
      FlatPushed(Popped(frames), hash, Parents(graph, hash));
      longer := Popped(frames) + [Frame(hash, Parents(graph, hash))];
    }
  }

  /** The walk over the provider's commits, and the check of the base. */
  method Walk(graph: Graph, head: Commit, base: Oid) returns (r: Ancestry)
    ensures r.Ancestors? ==> forall hash :: hash in r.commits <==> Reaches(graph, head.hash, hash)
    ensures r.Ancestors? <==> AllSound(graph, head) && !Cyclic(graph, head.hash) && Reaches(graph, head.hash, base)
    ensures r.BaseUnreachable? <==> AllSound(graph, head) && !Cyclic(graph, head.hash) && !Reaches(graph, head.hash, base)
    ensures r.Cycle? ==> Cyclic(graph, head.hash)
    ensures AllSound(graph, head) ==> (r.Cycle? <==> Cyclic(graph, head.hash))
    ensures r.Malformed? ==> !AllSound(graph, head)
  {
    var commits: set<Oid> := {};
    var visiting: set<Oid> := {};
    var pending := [Mark(head.hash, false)];
    ghost var frames: seq<Frame> := [];
    ghost var rank: map<Oid, nat> := map[];
    ghost var high := 0;
    while pending != []
      invariant Walking(graph, head, pending, visiting, commits, frames, rank, high)
      decreases graph.Keys - (visiting + commits), |pending|
    {
      ghost var before := pending;
      var item := pending[|pending| - 1];
      pending := pending[..|pending| - 1];
      if item.complete {
        WalkCloses(graph, head, before, visiting, commits, frames, rank, high);
        assert visiting - {item.hash} + (commits + {item.hash}) == visiting + commits;
        visiting := visiting - {item.hash};
        commits := commits + {item.hash};
        rank, high, frames := rank[item.hash := high], high + 1, frames[..|frames| - 1];
        continue;
      }
      TopOf(graph, head, before, visiting, commits, frames, rank, high);
      if item.hash in commits {
        Skip(graph, head, visiting, commits, frames);
        frames := Popped(frames);
        continue;
      }
      if item.hash in visiting {
        ghost var j :| 0 <= j < |frames| && frames[j].node == item.hash;
        CycleFound(graph, head, visiting, commits, frames, j);
        return Cycle;
      }
      if !Sound(graph, head, item.hash) {
        ReachedUnsound(graph, head, visiting, commits, frames, item.hash);
        return Malformed;
      }
      frames := WalkOpens(graph, head, before, visiting, commits, frames, rank, high);
      visiting := visiting + {item.hash};
      pending := pending + [Mark(item.hash, true)] + Unread(graph[item.hash].parents.value);
    }
    assert frames == [];
    DoneIsReachable(graph, head, commits, rank);
    r := if base in commits then Ancestors(commits) else BaseUnreachable;
  }

  lemma ReachedUnsound(graph: Graph, head: Commit, visiting: set<Oid>, commits: set<Oid>, frames: seq<Frame>, hash: Oid)
    requires SeenOk(graph, head, visiting, commits) && !Sound(graph, head, hash)
    requires hash == head.hash || (frames != [] && FramesOk(graph, head, visiting, commits, frames)
                                   && hash in Parents(graph, frames[|frames| - 1].node))
    ensures !AllSound(graph, head)
  {
    ReachesSelf(graph, head.hash);
    if hash != head.hash {
      ReachesParent(graph, head.hash, frames[|frames| - 1].node, hash);
    }
    assert Reaches(graph, head.hash, hash);
  }
}
