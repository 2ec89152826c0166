/** What clients that share one store leave behind: a single chain of snapshots
    whose records only grow, and an audit whose chain digest a reload keeps. */
module AuthorityHistory {
  import opened Basics
  import opened AuthorityStore

  // ------------------------------------------------------------- concurrent clients

  /** One accepted commit: the snapshot it was computed from, what it wrote, and
      what the rows read as afterwards. */
  datatype Link = Link(base: Snapshot, written: Snapshot, read: Snapshot)

  /** The shared rows, each client's loaded copy, the snapshot the store began
      with, and every commit since. */
  datatype World = World(rows: Rows, copies: map<nat, Snapshot>, first: Snapshot, chain: seq<Link>)

  function Latest(w: World): Snapshot {
    if w.chain == [] then w.first else w.chain[|w.chain| - 1].read
  }

  function At(w: World, k: nat): Snapshot
    requires k <= |w.chain|
  {
    if k == 0 then w.first else w.chain[k - 1].read
  }

  datatype Step =
    | LoadStep(client: nat, copy: Snapshot)
    | CommitStep(client: nat, next: Snapshot, rows: Rows, read: Snapshot)
    | RejectStep(client: nat, next: Snapshot)

  /** Clients compute whatever they like from the copy they loaded last. */
  ghost predicate Next(w: World, step: Step, w': World) {
    match step
    case LoadStep(client, copy) =>
      Reads(w.rows, copy) && w' == w.(copies := w.copies[client := copy])
    case CommitStep(client, next, rows, read) =>
      && client in w.copies && next.protocol == Protocol && next.realmId == w.copies[client].realmId
      && Accepts(w.rows, w.copies[client], next)
      && Committed(w.rows, w.copies[client], next, rows) && Reads(rows, read)
      && w' == w.(rows := rows, chain := w.chain + [Link(w.copies[client], next, read)])
    case RejectStep(client, next) =>
      client in w.copies && !Accepts(w.rows, w.copies[client], next) && w' == w
  }

  ghost predicate Init(w: World) {
    && w.copies == map[] && w.chain == []
    && Reads(w.rows, w.first) && Listed(w.rows) && w.first.protocol == Protocol
  }

  /** Each commit was computed from the snapshot the one before it left, took
      its version one further, and kept everything recorded. */
  ghost predicate LinkOk(w: World, k: nat)
    requires k < |w.chain|
  {
    var link := w.chain[k];
    && link.base == At(w, k)
    && link.read.version == link.base.version + 1 == link.written.version
    && link.read.realmId == link.base.realmId
    && Immutable(link.base.idempotency, link.read.idempotency)
    && Immutable(ById(link.base.audit), ById(link.read.audit))
    && Distinct(Ids(link.read.audit)) && ReadOrdered(link.read.audit)
  }

  ghost predicate Chained(w: World) {
    forall k | 0 <= k < |w.chain| :: LinkOk(w, k)
  }

  ghost predicate Inv(w: World) {
    && Reads(w.rows, Latest(w)) && Listed(w.rows) && Latest(w).protocol == Protocol
    && Chained(w)
    && (forall client | client in w.copies :: exists k | 0 <= k <= |w.chain| :: w.copies[client] == At(w, k))
  }

  lemma VersionsAdvance(w: World, k: nat)
    requires Chained(w) && k <= |w.chain|
    ensures At(w, k).version == w.first.version + k
    ensures At(w, k).realmId == w.first.realmId
  {
    if k > 0 {
      VersionsAdvance(w, k - 1);
      assert LinkOk(w, k - 1);
    }
  }

  /** An accepted commit was computed from the latest snapshot. */
  lemma CommitsFromLatest(w: World, client: nat, next: Snapshot)
    requires Inv(w) && client in w.copies && Accepts(w.rows, w.copies[client], next)
    ensures w.copies[client] == Latest(w)
  {
    var k :| 0 <= k <= |w.chain| && w.copies[client] == At(w, k);
    VersionsAdvance(w, k);
    VersionsAdvance(w, |w.chain|);
    assert Latest(w) == At(w, |w.chain|);
  }

  lemma CommitKeepsInv(w: World, client: nat, next: Snapshot, rows: Rows, read: Snapshot, w': World)
    requires Inv(w) && Next(w, CommitStep(client, next, rows, read), w')
    ensures Inv(w') && Represent(rows, next)
  {
    CommitsFromLatest(w, client, next);
    ReadsRepresents(w.rows, Latest(w));
    CommitRefinesReplace(w.rows, Latest(w), next, rows);
    RepresentListed(rows, next);
    forall k | 0 <= k < |w'.chain|
      ensures LinkOk(w', k)
    {
      if k < |w.chain| {
        assert LinkOk(w, k);
        assert At(w', k) == At(w, k);
      } else {
        assert At(w', k) == Latest(w);
      }
    }
    CopiesKept(w, w');
  }

  lemma CopiesKept(w: World, w': World)
    requires |w.chain| <= |w'.chain| && w'.first == w.first && w'.chain[..|w.chain|] == w.chain && w'.copies == w.copies
    requires forall client | client in w.copies :: exists k | 0 <= k <= |w.chain| :: w.copies[client] == At(w, k)
    ensures forall client | client in w'.copies :: exists k | 0 <= k <= |w'.chain| :: w'.copies[client] == At(w', k)
  {
    forall client | client in w'.copies
      ensures exists k | 0 <= k <= |w'.chain| :: w'.copies[client] == At(w', k)
    {
      var k :| 0 <= k <= |w.chain| && w.copies[client] == At(w, k);
      assert k > 0 ==> w'.chain[..|w.chain|][k - 1] == w.chain[k - 1];
      assert At(w', k) == At(w, k);
    }
  }

  lemma LoadKeepsInv(w: World, client: nat, copy: Snapshot, w': World)
    requires Inv(w) && Next(w, LoadStep(client, copy), w')
    ensures Inv(w')
  {
    ReadsUnique(w.rows, copy, Latest(w));
    assert copy == At(w, |w.chain|);
    forall k | 0 <= k < |w'.chain|
      ensures LinkOk(w', k)
    {
      assert LinkOk(w, k) && At(w', k) == At(w, k);
    }
    forall c | c in w'.copies
      ensures exists k | 0 <= k <= |w'.chain| :: w'.copies[c] == At(w', k)
    {
      if c == client {
        assert w'.copies[c] == At(w', |w.chain|);
      } else {
        var k :| 0 <= k <= |w.chain| && w.copies[c] == At(w, k);
        assert w'.copies[c] == At(w', k);
      }
    }
  }

  lemma NextKeepsInv(w: World, step: Step, w': World)
    requires Inv(w) && Next(w, step, w')
    ensures Inv(w')
    ensures w'.first == w.first && w.chain <= w'.chain
  {
    match step
    case LoadStep(client, copy) => LoadKeepsInv(w, client, copy, w');
    case CommitStep(client, next, rows, read) => CommitKeepsInv(w, client, next, rows, read, w');
    case RejectStep(_, _) =>
  }

  ghost predicate IsRun(run: seq<World>, steps: seq<Step>) {
    && |run| == |steps| + 1
    && Init(run[0])
    && forall i | 0 <= i < |steps| :: Next(run[i], steps[i], run[i + 1])
  }

  lemma {:induction false} RunKeepsInv(run: seq<World>, steps: seq<Step>, k: nat)
    requires IsRun(run, steps) && k < |run|
    ensures Inv(run[k])
  {
    if k > 0 {
      RunKeepsInv(run, steps, k - 1);
      NextKeepsInv(run[k - 1], steps[k - 1], run[k]);
    }
  }

  lemma ImmutableTrans<K, V>(a: map<K, V>, b: map<K, V>, c: map<K, V>)
    requires Immutable(a, b) && Immutable(b, c)
    ensures Immutable(a, c)
  {
  }

  lemma {:induction false} RecordsGrow(w: World, i: nat, j: nat)
    requires Chained(w) && i <= j <= |w.chain|
    ensures Immutable(At(w, i).idempotency, At(w, j).idempotency)
    ensures Immutable(ById(At(w, i).audit), ById(At(w, j).audit))
  {
    if i < j {
      RecordsGrow(w, i, j - 1);
      assert LinkOk(w, j - 1);
      ImmutableTrans(At(w, i).idempotency, At(w, j - 1).idempotency, At(w, j).idempotency);
      ImmutableTrans(ById(At(w, i).audit), ById(At(w, j - 1).audit), ById(At(w, j).audit));
    }
  }

  /** Whatever clients do, the store's history is one chain: the k-th commit was
      computed from what the one before it left and wrote version first + k, so
      no update is lost; and nothing recorded ever changes or goes. */
  lemma HistoryIsLinear(run: seq<World>, steps: seq<Step>, n: nat, i: nat, j: nat)
    requires IsRun(run, steps) && n < |run| && i <= j <= |run[n].chain|
    ensures var w := run[n];
            && At(w, j).version == w.first.version + j
            && (j > 0 ==> w.chain[j - 1].base == At(w, j - 1))
            && Immutable(At(w, i).idempotency, At(w, j).idempotency)
            && Immutable(ById(At(w, i).audit), ById(At(w, j).audit))
  {
    RunKeepsInv(run, steps, n);
    VersionsAdvance(run[n], j);
    RecordsGrow(run[n], i, j);
    if j > 0 {
      assert LinkOk(run[n], j - 1);
    }
  }

  // -------------------------------------------------------------- reloading an audit

  /** How Landings and checkpoints write the audit: one event, stamped with the
      version the commit makes. */
  predicate AppendsOne(previous: Snapshot, next: Snapshot) {
    && |next.audit| == |previous.audit| + 1
    && next.audit[..|previous.audit|] == previous.audit
    && var event := next.audit[|previous.audit|];
    && event.stateVersion == next.version
    && event.id !in ById(previous.audit)
  }

  predicate StampedSoFar(s: Snapshot) {
    forall event | event in s.audit :: event.stateVersion <= s.version
  }

  lemma AppendingStaysOrdered(previous: Snapshot, next: Snapshot)
    requires ReadOrdered(previous.audit) && Distinct(Ids(previous.audit)) && StampedSoFar(previous)
    requires AppendsOne(previous, next) && next.version == previous.version + 1
    ensures ReadOrdered(next.audit) && Distinct(Ids(next.audit)) && StampedSoFar(next)
  {
    var event := next.audit[|previous.audit|];
    assert next.audit == previous.audit + [event];
    forall x | x in previous.audit
      ensures Before(x, event) && x.id != event.id
    {
      assert x.id in ById(previous.audit);
    }
    Snoc(previous.audit, event);
  }

  /** Such a commit over freshly read rows is accepted when it keeps what was
      recorded, and reloading returns exactly the snapshot it wrote. */
  lemma AppendingCommitReadsBack(rows: Rows, previous: Snapshot, next: Snapshot, rows': Rows, t: Snapshot)
    requires Reads(rows, previous) && Listed(rows) && previous.protocol == Protocol && StampedSoFar(previous)
    requires Covered(next) && next.version == previous.version + 1 && AppendsOne(previous, next)
    requires Immutable(previous.idempotency, next.idempotency)
    ensures Accepts(rows, previous, next)
    ensures Committed(rows, previous, next, rows') && Reads(rows', t) ==> t == next && StampedSoFar(t)
  {
    AppendingStaysOrdered(previous, next);
    ReadsRepresents(rows, previous);
    AppendKeepsEvents(previous.audit, next.audit);
    AcceptsExactly(rows, previous, next);
    if Committed(rows, previous, next, rows') && Reads(rows', t) {
      CommitRefinesReplace(rows, previous, next, rows');
      RoundTrip(rows', next, t);
    }
  }

  lemma {:induction false} AppendKeepsEvents(previous: seq<Event>, next: seq<Event>)
    requires |next| == |previous| + 1 && next[..|previous|] == previous
    requires next[|previous|].id !in ById(previous)
    ensures Immutable(ById(previous), ById(next))
  {
  }

  // -------------------------------------------------------------------- chain digest

  /** The digest of an audit: each event hashed together with the digest so far. */
  function ChainDigest<D>(genesis: D, hash: (D, Event) -> D, events: seq<Event>): D {
    if events == [] then genesis
    else hash(ChainDigest(genesis, hash, events[..|events| - 1]), events[|events| - 1])
  }

  method AuditChainDigest<D>(genesis: D, hash: (D, Event) -> D, s: Snapshot) returns (previous: D)
    ensures previous == ChainDigest(genesis, hash, s.audit)
  {
    previous := genesis;
    for i := 0 to |s.audit|
      invariant previous == ChainDigest(genesis, hash, s.audit[..i])
    {
      assert s.audit[..i + 1][..i] == s.audit[..i];
      previous := hash(previous, s.audit[i]);
    }
    assert s.audit[..|s.audit|] == s.audit;
  }

  /** No two inputs collide, and no hash is the genesis text. */
  ghost predicate CollisionFree<D(!new)>(genesis: D, hash: (D, Event) -> D) {
    && (forall d, e, d', e' :: hash(d, e) == hash(d', e') ==> d == d' && e == e')
    && (forall d, e :: hash(d, e) != genesis)
  }

  lemma {:induction false} DigestNamesSequence<D(!new)>(genesis: D, hash: (D, Event) -> D, xs: seq<Event>, ys: seq<Event>)
    requires CollisionFree(genesis, hash)
    requires ChainDigest(genesis, hash, xs) == ChainDigest(genesis, hash, ys)
    ensures xs == ys
  {
    if xs != [] && ys != [] {
      DigestNamesSequence(genesis, hash, xs[..|xs| - 1], ys[..|ys| - 1]);
      assert xs == xs[..|xs| - 1] + [xs[|xs| - 1]] && ys == ys[..|ys| - 1] + [ys[|ys| - 1]];
    }
  }

  /** Two stored snapshots with equal digests hold the same audit rows. */
  lemma EqualDigestsEqualAudits<D(!new)>(genesis: D, hash: (D, Event) -> D, rows: Rows, s: Snapshot, rows': Rows, t: Snapshot)
    requires CollisionFree(genesis, hash) && Reads(rows, s) && Reads(rows', t)
    ensures ChainDigest(genesis, hash, s.audit) == ChainDigest(genesis, hash, t.audit) <==> rows.audit == rows'.audit
  {
    if ChainDigest(genesis, hash, s.audit) == ChainDigest(genesis, hash, t.audit) {
      DigestNamesSequence(genesis, hash, s.audit, t.audit);
    }
    if rows.audit == rows'.audit {
      ReadBackUnique(s.audit, t.audit);
    }
  }
}
