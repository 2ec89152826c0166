/** The Authority's SQLite store: a snapshot kept as rows, replaced whole or
    committed as a difference, under a version fence. JSON text is identified
    with the value it encodes. */
module AuthorityStore {
  import opened Basics

  type Id = string
  type Payload = string

  const Protocol := "anyam.authority-plane/v1"

  /** Names of entity collections; rows may carry names the store does not list. */
  datatype Collection =
    | Projects | SourceSpaces | ProjectRevisions | Intents | IntentComments | PullRequests | ProjectViews
    | Workspaces | Changes | ChangeRevisions | Runs | RunnerProfiles | RunnerAttempts | RunDetails | Evidence
    | Artifacts | Landings | CanonicalRefProjections | Releases | Targets | Promotions | Mirrors
    | MirrorOperations | MirrorCheckpoints | ExternalProposals | MirrorDeliveries | CanonicalByProject
    | Unlisted(name: string)

  const EntityCollections: seq<Collection> := [
    Projects, SourceSpaces, ProjectRevisions, Intents, IntentComments, PullRequests, ProjectViews, Workspaces,
    Changes, ChangeRevisions, Runs, RunnerProfiles, RunnerAttempts, RunDetails, Evidence, Artifacts, Landings,
    CanonicalRefProjections, Releases, Targets, Promotions, Mirrors, MirrorOperations, MirrorCheckpoints,
    ExternalProposals, MirrorDeliveries, CanonicalByProject]

  /** Where the store lists a collection. */
  function Rank(c: Collection): nat {
    match c
    case Projects => 0 case SourceSpaces => 1 case ProjectRevisions => 2 case Intents => 3
    case IntentComments => 4 case PullRequests => 5 case ProjectViews => 6 case Workspaces => 7
    case Changes => 8 case ChangeRevisions => 9 case Runs => 10 case RunnerProfiles => 11
    case RunnerAttempts => 12 case RunDetails => 13 case Evidence => 14 case Artifacts => 15
    case Landings => 16 case CanonicalRefProjections => 17 case Releases => 18 case Targets => 19
    case Promotions => 20 case Mirrors => 21 case MirrorOperations => 22 case MirrorCheckpoints => 23
    case ExternalProposals => 24 case MirrorDeliveries => 25 case CanonicalByProject => 26
    case Unlisted(_) => 27
  }

  predicate IsListed(c: Collection) {
    !c.Unlisted?
  }

  lemma ListedAtRank()
    ensures forall i | 0 <= i < |EntityCollections| :: Rank(EntityCollections[i]) == i && IsListed(EntityCollections[i])
  {
  }

  lemma ListedHasRank(c: Collection)
    requires IsListed(c)
    ensures Rank(c) < |EntityCollections| && EntityCollections[Rank(c)] == c
  {
  }

  /** The list names every listed collection, once. */
  lemma ListedOnce()
    ensures Distinct(EntityCollections)
    ensures forall c :: c in EntityCollections <==> IsListed(c)
  {
    ListedAtRank();
    assert forall i, j | 0 <= i < j < |EntityCollections| :: Rank(EntityCollections[i]) != Rank(EntityCollections[j]);
    forall c | IsListed(c)
      ensures c in EntityCollections
    {
      ListedHasRank(c);
    }
  }

  datatype Event = Event(id: Id, stateVersion: nat, body: Payload)
  datatype Recorded = Recorded(fingerprint: string, result: Payload)

  datatype Snapshot = Snapshot(
    protocol: string, realmId: Id, version: nat, collections: map<Collection, map<Id, Payload>>,
    idempotency: map<string, Recorded>, audit: seq<Event>)

  datatype EntityKey = EntityKey(collection: Collection, id: Id)
  datatype Meta = Meta(protocol: string, realmId: Id, version: nat)
  datatype Rows = Rows(meta: Option<Meta>, entities: map<EntityKey, Payload>, audit: map<Id, Event>, idempotency: map<string, Recorded>)

  datatype StoreError =
    | RealmMismatch | NoopMismatch | VersionTransitionInvalid | ProtocolMismatch | StaleVersion | MetaMissing
    | CollectionMalformed | IdempotencyImmutable | AuditDuplicate | AuditImmutable | KeyTaken

  function Get<K, V>(m: map<K, V>, key: K): Option<V> {
    if key in m then Some(m[key]) else None
  }

  lemma SameLookups<K, V>(m: map<K, V>, n: map<K, V>)
    requires forall key :: Get(m, key) == Get(n, key)
    ensures m == n
  {
    assert forall key :: (key in m <==> Get(m, key).Some?) && (key in n <==> Get(n, key).Some?);
    forall key | key in m
      ensures m[key] == n[key]
    {
      assert Get(m, key) == Get(n, key);
    }
  }

  // ----------------------------------------------------------------- what rows say

  ghost predicate Covered(s: Snapshot) {
    forall c :: c in s.collections <==> IsListed(c)
  }

  function EntityOf(s: Snapshot, key: EntityKey): Option<Payload> {
    if IsListed(key.collection) && key.collection in s.collections then Get(s.collections[key.collection], key.id) else None
  }

  /** The events by id; a later event takes an id already used. */
  function ById(events: seq<Event>): (m: map<Id, Event>)
    ensures forall id | id in m :: m[id].id == id && m[id] in events
    ensures forall event | event in events :: event.id in m
  {
    if events == [] then map[]
    else
      var last := events[|events| - 1];
      ById(events[..|events| - 1])[last.id := last]
  }

  function Ids(events: seq<Event>): (ids: seq<Id>)
    ensures |ids| == |events| && forall i | 0 <= i < |events| :: ids[i] == events[i].id
  {
    seq(|events|, i requires 0 <= i < |events| => events[i].id)
  }

  /** The rows represent the snapshot: what writing it from scratch leaves. */
  ghost predicate Represent(rows: Rows, s: Snapshot) {
    && rows.meta == Some(Meta(s.protocol, s.realmId, s.version))
    && (forall key :: Get(rows.entities, key) == EntityOf(s, key))
    && rows.audit == ById(s.audit)
    && rows.idempotency == s.idempotency
  }

  lemma RepresentationUnique(rows: Rows, rows': Rows, s: Snapshot)
    requires Represent(rows, s) && Represent(rows', s)
    ensures rows == rows'
  {
    SameLookups(rows.entities, rows'.entities);
  }

  // ------------------------------------------------------------ reading audit back

  /** Text order of ids, as the database compares them. */
  predicate TextBefore(s: string, t: string) {
    t != [] && (s == [] || s[0] < t[0] || (s[0] == t[0] && TextBefore(s[1..], t[1..])))
  }

  lemma {:induction false} TextTotal(s: string, t: string)
    ensures TextBefore(s, t) || TextBefore(t, s) || s == t
    ensures !(TextBefore(s, t) && TextBefore(t, s))
  {
    if s != [] && t != [] {
      TextTotal(s[1..], t[1..]);
      assert s == [s[0]] + s[1..] && t == [t[0]] + t[1..];
    }
  }

  lemma {:induction false} TextTrans(s: string, t: string, u: string)
    requires TextBefore(s, t) && TextBefore(t, u)
    ensures TextBefore(s, u)
  {
    if s != [] && s[0] == t[0] && t[0] == u[0] {
      TextTrans(s[1..], t[1..], u[1..]);
    }
  }

  predicate Before(d: Event, e: Event) {
    d.stateVersion < e.stateVersion || (d.stateVersion == e.stateVersion && TextBefore(d.id, e.id))
  }

  /** Ordered by state version and then id, as the audit rows are read. */
  predicate ReadOrdered(events: seq<Event>) {
    forall i, j | 0 <= i < j < |events| :: Before(events[i], events[j])
  }

  lemma BeforeTrans(d: Event, e: Event, f: Event)
    requires Before(d, e) && Before(e, f)
    ensures Before(d, f) && !Before(e, d)
  {
    TextTotal(d.id, e.id);
    if d.stateVersion == e.stateVersion == f.stateVersion {
      TextTrans(d.id, e.id, f.id);
    }
  }

  /** Events in reading order are determined by their set. */
  lemma OrderUnique(xs: seq<Event>, ys: seq<Event>)
    requires ReadOrdered(xs) && ReadOrdered(ys)
    requires forall e :: e in xs <==> e in ys
    ensures xs == ys
  {
    assert ys != [] ==> ys[0] in ys;
    if xs != [] {
      var m, n := |xs| - 1, |ys| - 1;
      var x := xs[m];
      assert x in ys;
      var y := ys[n];
      assert y in xs;
      assert x == y by {
        var i :| 0 <= i < |xs| && xs[i] == y;
        var j :| 0 <= j < |ys| && ys[j] == x;
        if i < m && j < n {
          BeforeTrans(x, y, x);
        }
      }
      Elements(xs);
      Elements(ys);
      forall e
        ensures e in xs[..m] <==> e in ys[..n]
      {
      }
      OrderUnique(xs[..m], ys[..n]);
      assert xs == xs[..m] + [x] && ys == ys[..n] + [y];
    }
  }

  lemma Elements(events: seq<Event>)
    requires ReadOrdered(events) && events != []
    ensures var n := |events| - 1;
            forall e :: e in events[..n] <==> e in events && e != events[n]
  {
    var n := |events| - 1;
    forall e | e in events && e != events[n]
      ensures e in events[..n]
    {
      var i :| 0 <= i < |events| && events[i] == e;
      assert events[..n][i] == e;
    }
    forall e | e in events[..n]
      ensures e != events[n]
    {
      var i :| 0 <= i < n && events[i] == e;
      TextTotal(events[n].id, events[n].id);
    }
  }

  lemma {:induction false} ByIdFinds(events: seq<Event>, e: Event)
    requires Distinct(Ids(events)) && e in events
    ensures e.id in ById(events) && ById(events)[e.id] == e
  {
    var n := |events| - 1;
    if e != events[n] {
      var i :| 0 <= i < |events| && events[i] == e;
      assert Ids(events)[i] == e.id && Ids(events)[n] == events[n].id;
      assert events[..n][i] == e;
      DistinctPrefix(events, n);
      ByIdFinds(events[..n], e);
    }
  }

  lemma DistinctPrefix(events: seq<Event>, n: nat)
    requires Distinct(Ids(events)) && n <= |events|
    ensures Distinct(Ids(events[..n]))
  {
    assert Ids(events[..n]) == Ids(events)[..n];
  }

  /** Reading rows orders the events; nothing else about them can differ. */
  lemma {:induction false} ReadBackUnique(xs: seq<Event>, ys: seq<Event>)
    requires Distinct(Ids(xs)) && Distinct(Ids(ys)) && ReadOrdered(xs) && ReadOrdered(ys)
    requires ById(xs) == ById(ys)
    ensures xs == ys
  {
    forall e
      ensures e in xs <==> e in ys
    {
      if e in xs {
        ByIdFinds(xs, e);
      }
      if e in ys {
        ByIdFinds(ys, e);
      }
    }
    OrderUnique(xs, ys);
  }

  // ------------------------------------------------------------------ what is read

  function CollectionRows(entities: map<EntityKey, Payload>, collection: Collection): map<Id, Payload> {
    map key | key in entities && key.collection == collection :: key.id := entities[key]
  }

  ghost predicate Reads(rows: Rows, s: Snapshot) {
    && rows.meta == Some(Meta(s.protocol, s.realmId, s.version))
    && Covered(s) && (forall c | IsListed(c) :: s.collections[c] == CollectionRows(rows.entities, c))
    && s.idempotency == rows.idempotency
    && Distinct(Ids(s.audit)) && ReadOrdered(s.audit) && ById(s.audit) == rows.audit
  }

  /** Every entity row belongs to a listed collection. */
  predicate Listed(rows: Rows) {
    forall key | key in rows.entities :: IsListed(key.collection)
  }

  lemma ReadsRepresents(rows: Rows, s: Snapshot)
    requires Reads(rows, s) && Listed(rows)
    ensures Represent(rows, s) && Covered(s)
  {
    forall key
      ensures Get(rows.entities, key) == EntityOf(s, key)
    {
      if IsListed(key.collection) {
        assert s.collections[key.collection] == CollectionRows(rows.entities, key.collection);
        if key in rows.entities {
          assert key.id in CollectionRows(rows.entities, key.collection);
        }
        if key.id in CollectionRows(rows.entities, key.collection) {
          assert EntityKey(key.collection, key.id) == key;
        }
      }
    }
  }

  lemma RepresentListed(rows: Rows, s: Snapshot)
    requires Represent(rows, s)
    ensures Listed(rows)
  {
    forall key | key in rows.entities
      ensures IsListed(key.collection)
    {
      assert Get(rows.entities, key) == EntityOf(s, key);
    }
  }

  lemma RepresentReads(rows: Rows, s: Snapshot)
    requires Represent(rows, s) && Covered(s)
    ensures forall c | IsListed(c) :: s.collections[c] == CollectionRows(rows.entities, c)
  {
    forall c | IsListed(c)
      ensures s.collections[c] == CollectionRows(rows.entities, c)
    {
      forall id
        ensures Get(s.collections[c], id) == Get(CollectionRows(rows.entities, c), id)
      {
        assert Get(rows.entities, EntityKey(c, id)) == EntityOf(s, EntityKey(c, id));
      }
      SameLookups(s.collections[c], CollectionRows(rows.entities, c));
    }
  }

  lemma ReadsUnique(rows: Rows, s: Snapshot, t: Snapshot)
    requires Reads(rows, s) && Reads(rows, t)
    ensures s == t
  {
    ReadBackUnique(s.audit, t.audit);
  }

  /** Storing and loading returns the snapshot itself exactly when its audit is
      in reading order under distinct ids. */
  lemma RoundTrip(rows: Rows, s: Snapshot, t: Snapshot)
    requires Represent(rows, s) && Covered(s) && Reads(rows, t)
    ensures t == s <==> ReadOrdered(s.audit) && Distinct(Ids(s.audit))
  {
    RepresentReads(rows, s);
    if ReadOrdered(s.audit) && Distinct(Ids(s.audit)) {
      ReadsUnique(rows, s, t);
    }
  }

  // ------------------------------------------------------------- what a commit does

  /** A collection's difference, seen from one row. */
  function DiffLookup(entities: map<EntityKey, Payload>, before: map<Id, Payload>, after: map<Id, Payload>, key: EntityKey): Option<Payload> {
    if key.id in after then
      if key.id in before && before[key.id] == after[key.id] then Get(entities, key) else Some(after[key.id])
    else if key.id in before then None
    else Get(entities, key)
  }

  predicate Immutable<K, V(==)>(previous: map<K, V>, next: map<K, V>) {
    forall key | key in previous :: key in next && next[key] == previous[key]
  }

  /** No row is there yet under a key that the next map adds. */
  predicate Insertable<K, V>(rows: map<K, V>, previous: map<K, V>, next: map<K, V>) {
    forall key | key in next && key !in previous :: key !in rows
  }

  function Added<K, V>(rows: map<K, V>, previous: map<K, V>, next: map<K, V>): map<K, V> {
    rows + (next - previous.Keys)
  }

  /** The version fence as the stored rows see it. */
  predicate Fenced(rows: Rows, previous: Snapshot, next: Snapshot) {
    && next.version == previous.version + 1
    && rows.meta.Some?
    && rows.meta.value == Meta(Protocol, previous.realmId, previous.version)
  }

  /** Neither snapshot lacks a collection. */
  ghost predicate BothWhole(previous: Snapshot, next: Snapshot) {
    forall c | IsListed(c) :: c in previous.collections && c in next.collections
  }

  ghost predicate EntitiesDiffed(entities: map<EntityKey, Payload>, previous: Snapshot, next: Snapshot, entities': map<EntityKey, Payload>)
    requires BothWhole(previous, next)
  {
    forall key :: Get(entities', key) ==
      if IsListed(key.collection)
      then DiffLookup(entities, previous.collections[key.collection], next.collections[key.collection], key)
      else Get(entities, key)
  }

  ghost predicate Accepts(rows: Rows, previous: Snapshot, next: Snapshot) {
    && Fenced(rows, previous, next)
    && BothWhole(previous, next)
    && RecordsAccepted(rows.idempotency, rows.audit, previous, next)
  }

  /** What was recorded before stays, and what is added is new to the rows. */
  predicate RecordsAccepted(idempotency: map<string, Recorded>, audit: map<Id, Event>, previous: Snapshot, next: Snapshot) {
    && Immutable(previous.idempotency, next.idempotency)
    && Insertable(idempotency, previous.idempotency, next.idempotency)
    && Distinct(Ids(next.audit))
    && Immutable(ById(previous.audit), ById(next.audit))
    && Insertable(audit, ById(previous.audit), ById(next.audit))
  }

  /** What an accepted commit leaves, whatever the rows were. */
  ghost predicate Committed(rows: Rows, previous: Snapshot, next: Snapshot, rows': Rows)
    requires Accepts(rows, previous, next)
  {
    && rows'.meta == Some(Meta(next.protocol, next.realmId, next.version))
    && EntitiesDiffed(rows.entities, previous, next, rows'.entities)
    && rows'.idempotency == Added(rows.idempotency, previous.idempotency, next.idempotency)
    && rows'.audit == Added(rows.audit, ById(previous.audit), ById(next.audit))
  }

  /** On rows that represent the previous snapshot, committing the difference is
      rewriting everything. */
  lemma CommitRefinesReplace(rows: Rows, previous: Snapshot, next: Snapshot, rows': Rows)
    requires Represent(rows, previous) && Accepts(rows, previous, next) && Committed(rows, previous, next, rows')
    ensures Represent(rows', next)
  {
    forall key
      ensures Get(rows'.entities, key) == EntityOf(next, key)
    {
      assert Get(rows.entities, key) == EntityOf(previous, key);
    }
    AddedIsNext(previous.idempotency, next.idempotency);
    AddedIsNext(ById(previous.audit), ById(next.audit));
  }

  lemma AddedIsNext<K, V>(previous: map<K, V>, next: map<K, V>)
    requires Immutable(previous, next)
    ensures Added(previous, previous, next) == next
  {
  }

  /** On such rows the fence and the immutability of what was recorded are all
      that is left to check. */
  lemma SelfInsertable<K, V>(previous: map<K, V>, next: map<K, V>)
    ensures Insertable(previous, previous, next)
  {
  }

  lemma AcceptsExactly(rows: Rows, previous: Snapshot, next: Snapshot)
    requires Represent(rows, previous) && Covered(previous) && Covered(next) && previous.protocol == Protocol
    ensures Accepts(rows, previous, next)
            <==> && next.version == previous.version + 1
                 && Immutable(previous.idempotency, next.idempotency)
                 && Distinct(Ids(next.audit)) && Immutable(ById(previous.audit), ById(next.audit))
  {
    SelfInsertable(previous.idempotency, next.idempotency);
    SelfInsertable(ById(previous.audit), ById(next.audit));
    assert BothWhole(previous, next);
  }

  // --------------------------------------------------------------------- the store

  class AuthoritySQLiteStore {
    var meta: Option<Meta>
    var entityRows: map<EntityKey, Payload>
    var auditRows: map<Id, Event>
    var idempotencyRows: map<string, Recorded>

    constructor ()
      ensures Stored() == Rows(None, map[], map[], map[])
    {
      meta, entityRows, auditRows, idempotencyRows := None, map[], map[], map[];
    }

    function Stored(): Rows
      reads this
    {
      Rows(meta, entityRows, auditRows, idempotencyRows)
    }

    /** The rows the meta row admits: none at all, or this Realm's, at the version
        expected; then every snapshot they read as is this Realm's, so written. */
    method RequireMeta(realmId: Id, expected: Option<nat>) returns (r: Outcome<Option<Meta>, StoreError>)
      ensures r.Ok? ==> r.value == meta
      ensures r.Ok? ==> forall s | Reads(Stored(), s) ::
                s.protocol == Protocol && s.realmId == realmId && (expected.Some? ==> s.version == expected.value)
      ensures r.Ok? && r.value.Some? ==> r.value.value == Meta(Protocol, realmId, if expected.Some? then expected.value else r.value.value.version)
      ensures r.Stop? ==> meta.Some? && (expected.Some? ==> meta.value != Meta(Protocol, realmId, expected.value))
      ensures r.Stop? && expected.None? ==> meta.value != Meta(Protocol, realmId, meta.value.version)
      ensures r == Stop(StaleVersion) ==> meta.value.protocol == Protocol && meta.value.realmId == realmId
    {
      if meta.None? { return Ok(None); }
      if meta.value.protocol != Protocol { return Stop(ProtocolMismatch); }
      if meta.value.realmId != realmId { return Stop(RealmMismatch); }
      if expected.Some? && meta.value.version != expected.value { return Stop(StaleVersion); }
      r := Ok(meta);
    }

    /** The audit rows in reading order. */
    method OrderedAudit() returns (events: seq<Event>)
      requires forall id | id in auditRows :: auditRows[id].id == id
      ensures ReadOrdered(events) && Distinct(Ids(events)) && ById(events) == auditRows
    {
      var ids := auditRows.Keys;
      events := [];
      while ids != {}
        invariant ids <= auditRows.Keys
        invariant ReadOrdered(events) && Distinct(Ids(events))
        invariant ById(events) == auditRows - ids
      {
        var id :| id in ids;
        InsertKeeps(events, auditRows[id]);
        events := Insert(events, auditRows[id]);
        ids := ids - {id};
      }
    }

    /** The entity rows, gathered by collection. */
    method ReadCollections(listed: seq<Collection>) returns (collections: map<Collection, map<Id, Payload>>)
      requires Distinct(listed) && forall c :: c in listed <==> IsListed(c)
      ensures forall c :: c in collections <==> IsListed(c)
      ensures forall c | IsListed(c) :: collections[c] == CollectionRows(entityRows, c)
    {
      collections := map[];
      for i := 0 to |listed|
        invariant forall c :: c in collections <==> c in listed[..i]
        invariant forall c | c in collections :: collections[c] == CollectionRows(entityRows, c)
      {
        collections := collections[listed[i] := CollectionRows(entityRows, listed[i])];
        assert listed[..i + 1] == listed[..i] + [listed[i]];
      }
      assert listed[..|listed|] == listed;
    }

    method Load(realmId: Id) returns (r: Outcome<Option<Snapshot>, StoreError>)
      requires forall id | id in auditRows :: auditRows[id].id == id
      ensures r.Ok? && r.value.Some? ==> Reads(Stored(), r.value.value) && r.value.value.protocol == Protocol && r.value.value.realmId == realmId
      ensures r.Ok? && r.value.None? <==> meta.None?
      ensures r.Stop? <==> meta.Some? && (meta.value.protocol != Protocol || meta.value.realmId != realmId)
    {
      var row := RequireMeta(realmId, None);
      if row.Stop? { return Stop(row.error); }
      if row.value.None? { return Ok(None); }
      ListedOnce();
      var collections := ReadCollections(EntityCollections);
      var events := OrderedAudit();
      var m := row.value.value;
      r := Ok(Some(Snapshot(m.protocol, m.realmId, m.version, collections, idempotencyRows, events)));
    }

    method WriteIdempotency(key: string, record: Recorded) returns (written: bool)
      modifies this`idempotencyRows
      ensures written <==> key !in old(idempotencyRows)
      ensures idempotencyRows == if written then old(idempotencyRows)[key := record] else old(idempotencyRows)
    {
      written := key !in idempotencyRows;
      if written { idempotencyRows := idempotencyRows[key := record]; }
    }

    method WriteAudit(event: Event) returns (written: bool)
      modifies this`auditRows
      ensures written <==> event.id !in old(auditRows)
      ensures auditRows == if written then old(auditRows)[event.id := event] else old(auditRows)
    {
      written := event.id !in auditRows;
      if written { auditRows := auditRows[event.id := event]; }
    }

    /** Inserts the entities of one collection; their keys must be free. */
    method WriteCollection(collection: Collection, entities: map<Id, Payload>)
      requires forall key | key in entityRows :: key.collection != collection
      modifies this`entityRows
      ensures forall key :: Get(entityRows, key) ==
                if key.collection == collection then Get(entities, key.id) else Get(old(entityRows), key)
    {
      var ids := entities.Keys;
      while ids != {}
        invariant ids <= entities.Keys
        invariant forall key :: Get(entityRows, key) ==
                    if key.collection != collection then Get(old(entityRows), key)
                    else if key.id in ids then None else Get(entities, key.id)
      {
        var id :| id in ids;
        assert Get(entityRows, EntityKey(collection, id)) == None;
        entityRows := entityRows[EntityKey(collection, id) := entities[id]];
        ids := ids - {id};
      }
    }

    /** The statement for one entity, if any. */
    method DiffRow(before: map<Id, Payload>, after: map<Id, Payload>, key: EntityKey)
      requires key.id in before || key.id in after
      modifies this`entityRows
      ensures Get(entityRows, key) == DiffLookup(old(entityRows), before, after, key)
      ensures forall other | other != key :: Get(entityRows, other) == Get(old(entityRows), other)
    {
      if key.id !in after {
        entityRows := entityRows - {key};
      } else if key.id !in before || before[key.id] != after[key.id] {
        entityRows := entityRows[key := after[key.id]];
      }
    }

    /** Deletes, adds and updates the rows of one collection that differ. */
    method DiffCollection(before: map<Id, Payload>, after: map<Id, Payload>, collection: Collection)
      modifies this`entityRows
      ensures forall key :: Get(entityRows, key) ==
                if key.collection == collection then DiffLookup(old(entityRows), before, after, key) else Get(old(entityRows), key)
    {
      var ids := before.Keys + after.Keys;
      while ids != {}
        invariant ids <= before.Keys + after.Keys
        invariant forall key :: Get(entityRows, key) ==
                    if key.collection == collection && key.id !in ids
                    then DiffLookup(old(entityRows), before, after, key) else Get(old(entityRows), key)
      {
        var id :| id in ids;
        DiffRow(before, after, EntityKey(collection, id));
        ids := ids - {id};
      }
    }

    /** The statements of a commit, in order; a failure leaves them half done. */
    method DiffAll(listed: seq<Collection>, previous: Snapshot, next: Snapshot) returns (ok: bool)
      requires Distinct(listed) && forall c :: c in listed <==> IsListed(c)
      modifies this`entityRows
      ensures ok <==> BothWhole(previous, next)
      ensures ok ==> EntitiesDiffed(old(entityRows), previous, next, entityRows)
    {
      var i := 0;
      while i < |listed|
        invariant 0 <= i <= |listed|
        invariant forall c | c in listed[..i] :: c in previous.collections && c in next.collections
        invariant forall key :: Get(entityRows, key) ==
                    if key.collection in listed[..i]
                    then DiffLookup(old(entityRows), previous.collections[key.collection], next.collections[key.collection], key)
                    else Get(old(entityRows), key)
      {
        var c := listed[i];
        if c !in previous.collections || c !in next.collections { return false; }
        DiffCollection(previous.collections[c], next.collections[c], c);
        assert listed[..i + 1] == listed[..i] + [c];
        i := i + 1;
      }
      assert listed[..i] == listed;
      ok := true;
    }

    method AddIdempotency(previous: map<string, Recorded>, next: map<string, Recorded>) returns (ok: bool)
      modifies this`idempotencyRows
      ensures ok <==> Insertable(old(idempotencyRows), previous, next)
      ensures ok ==> idempotencyRows == Added(old(idempotencyRows), previous, next)
    {
      var keys := next.Keys - previous.Keys;
      ghost var done: map<string, Recorded> := map[];
      assert old(idempotencyRows) + done == old(idempotencyRows);
      while keys != {}
        invariant keys <= next.Keys - previous.Keys
        invariant done.Keys == next.Keys - previous.Keys - keys
        invariant forall key | key in done :: done[key] == next[key] && key !in old(idempotencyRows)
        invariant idempotencyRows == old(idempotencyRows) + done
      {
        var key :| key in keys;
        var written := WriteIdempotency(key, next[key]);
        if !written { return false; }
        done := done[key := next[key]];
        keys := keys - {key};
      }
      assert done == next - previous.Keys;
      ok := true;
    }

    method AddAudit(previous: seq<Event>, next: seq<Event>) returns (ok: bool)
      requires Distinct(Ids(next))
      modifies this`auditRows
      ensures ok <==> Insertable(old(auditRows), ById(previous), ById(next))
      ensures ok ==> auditRows == Added(old(auditRows), ById(previous), ById(next))
    {
      var known := ById(previous);
      var i := 0;
      assert next[..0] == [];
      AddedNothing(auditRows, known);
      while i < |next|
        invariant 0 <= i <= |next|
        invariant Insertable(old(auditRows), known, ById(next[..i]))
        invariant auditRows == Added(old(auditRows), known, ById(next[..i]))
      {
        var event := next[i];
        assert next[..i + 1][..i] == next[..i];
        FreshEvent(next, i);
        ByIdFinds(next, event);
        AddedOne(old(auditRows), known, ById(next[..i]), event.id, event);
        if event.id !in known {
          var written := WriteAudit(event);
          if !written { return false; }
        }
        i := i + 1;
      }
      assert next[..i] == next;
      ok := true;
    }

    method DiffEntities(previous: Snapshot, next: Snapshot) returns (ok: bool)
      modifies this`entityRows
      ensures ok <==> BothWhole(previous, next)
      ensures ok ==> EntitiesDiffed(old(entityRows), previous, next, entityRows)
    {
      ListedOnce();
      ok := DiffAll(EntityCollections, previous, next);
    }

    method CheckFence(previous: Snapshot, next: Snapshot) returns (open: bool)
      requires next.version == previous.version + 1
      ensures open <==> Fenced(Stored(), previous, next)
    {
      var row := RequireMeta(previous.realmId, Some(previous.version));
      open := row.Ok? && row.value.Some?;
    }

    /** The body of a commit's transaction. */
    method CommitStatements(previous: Snapshot, next: Snapshot) returns (ok: bool)
      requires next.version == previous.version + 1 && next.realmId == previous.realmId
      modifies this
      ensures ok <==> Accepts(old(Stored()), previous, next)
      ensures ok ==> Committed(old(Stored()), previous, next, Stored())
    {
      ok := CheckFence(previous, next);
      if !ok { return; }
      meta := Some(Meta(next.protocol, next.realmId, next.version));
      ok := DiffEntities(previous, next);
      if !ok { return; }
      ok := DiffRecords(previous, next);
    }

    method DiffRecords(previous: Snapshot, next: Snapshot) returns (ok: bool)
      modifies this`idempotencyRows, this`auditRows
      ensures ok <==> RecordsAccepted(old(idempotencyRows), old(auditRows), previous, next)
      ensures ok ==> idempotencyRows == Added(old(idempotencyRows), previous.idempotency, next.idempotency)
      ensures ok ==> auditRows == Added(old(auditRows), ById(previous.audit), ById(next.audit))
    {
      if !Immutable(previous.idempotency, next.idempotency) { return false; }
      ok := AddIdempotency(previous.idempotency, next.idempotency);
      if !ok { return; }
      if !Distinct(Ids(next.audit)) { return false; }
      if !Immutable(ById(previous.audit), ById(next.audit)) { return false; }
      ok := AddAudit(previous.audit, next.audit);
    }

    /** Commits the difference in one transaction; whatever fails, and however
        late, no row is changed. */
    method Commit(previous: Snapshot, next: Snapshot) returns (ok: bool)
      modifies this
      ensures ok <==> previous.realmId == next.realmId
                      && (if next.version == previous.version then next == previous else Accepts(old(Stored()), previous, next))
      ensures ok && next.version != previous.version ==> Committed(old(Stored()), previous, next, Stored())
      ensures !ok || next.version == previous.version ==> Stored() == old(Stored())
    {
      if previous.realmId != next.realmId { return false; }
      if next.version == previous.version { return previous == next; }
      if next.version != previous.version + 1 { return false; }
      var savedMeta, savedEntities, savedAudit, savedIdempotency := meta, entityRows, auditRows, idempotencyRows;
      ok := CommitStatements(previous, next);
      if !ok {
        meta, entityRows, auditRows, idempotencyRows := savedMeta, savedEntities, savedAudit, savedIdempotency;
      }
    }

    method WriteAll(listed: seq<Collection>, s: Snapshot) returns (ok: bool)
      requires Distinct(listed) && forall c :: c in listed <==> IsListed(c)
      requires entityRows == map[]
      modifies this`entityRows
      ensures ok <==> forall c | IsListed(c) :: c in s.collections
      ensures ok ==> forall key :: Get(entityRows, key) == EntityOf(s, key)
    {
      var i := 0;
      while i < |listed|
        invariant 0 <= i <= |listed|
        invariant forall c | c in listed[..i] :: c in s.collections
        invariant forall key :: Get(entityRows, key) == if key.collection in listed[..i] then EntityOf(s, key) else None
      {
        var c := listed[i];
        if c !in s.collections { return false; }
        assert c !in listed[..i];
        forall key | key in entityRows
          ensures key.collection != c
        {
          assert Get(entityRows, key).Some?;
        }
        WriteCollection(c, s.collections[c]);
        assert listed[..i + 1] == listed[..i] + [c];
        i := i + 1;
      }
      assert listed[..i] == listed;
      ok := true;
    }

    /** Rewrites everything in one transaction. */
    method Replace(s: Snapshot) returns (ok: bool)
      modifies this
      ensures ok <==> (forall c | IsListed(c) :: c in s.collections) && Distinct(Ids(s.audit))
      ensures ok ==> Represent(Stored(), s)
      ensures !ok ==> Stored() == old(Stored())
    {
      var savedMeta, savedEntities, savedAudit, savedIdempotency := meta, entityRows, auditRows, idempotencyRows;
      entityRows, auditRows, idempotencyRows := map[], map[], map[];
      meta := Some(Meta(s.protocol, s.realmId, s.version));
      ListedOnce();
      ok := WriteAll(EntityCollections, s);
      if ok {
        ok := WriteRecords(s);
      }
      if !ok {
        meta, entityRows, auditRows, idempotencyRows := savedMeta, savedEntities, savedAudit, savedIdempotency;
      }
    }

    method WriteRecords(s: Snapshot) returns (ok: bool)
      requires auditRows == map[] && idempotencyRows == map[]
      modifies this`auditRows, this`idempotencyRows
      ensures ok <==> Distinct(Ids(s.audit))
      ensures ok ==> auditRows == ById(s.audit) && idempotencyRows == s.idempotency
    {
      ok := InsertAudit(s.audit);
      if !ok { return; }
      var none: map<string, Recorded> := map[];
      ok := AddIdempotency(none, s.idempotency);
      assert s.idempotency - none.Keys == s.idempotency;
    }

    method InsertAudit(events: seq<Event>) returns (ok: bool)
      requires auditRows == map[]
      modifies this`auditRows
      ensures ok <==> Distinct(Ids(events))
      ensures ok ==> auditRows == ById(events)
    {
      var i := 0;
      while i < |events|
        invariant 0 <= i <= |events|
        invariant Distinct(Ids(events[..i]))
        invariant auditRows == ById(events[..i])
      {
        PrefixStep(events, i);
        var written := WriteAudit(events[i]);
        if !written { return false; }
        i := i + 1;
      }
      assert events[..i] == events;
      ok := true;
    }
  }

  // ------------------------------------------------------------ inserting in order

  function Insert(events: seq<Event>, e: Event): (r: seq<Event>)
    ensures |r| == |events| + 1
    ensures forall x :: x in r <==> x in events || x == e
  {
    if events == [] || Before(events[|events| - 1], e) then events + [e]
    else
      var n := |events| - 1;
      assert events == events[..n] + [events[n]];
      Insert(events[..n], e) + [events[n]]
  }

  lemma FreshEvent(events: seq<Event>, i: nat)
    requires Distinct(Ids(events)) && i < |events|
    ensures events[i].id !in ById(events[..i])
  {
    forall x | x in events[..i]
      ensures x.id != events[i].id
    {
      var j :| 0 <= j < i && events[j] == x;
      assert Ids(events)[j] == x.id && Ids(events)[i] == events[i].id;
    }
  }

  lemma {:induction false} FreshId(events: seq<Event>, id: Id)
    requires id !in ById(events)
    ensures id !in Ids(events)
  {
    forall i | 0 <= i < |events|
      ensures Ids(events)[i] != id
    {
      assert events[i] in events;
    }
  }

  lemma TakenTwice(events: seq<Event>, i: nat)
    requires i < |events| && events[i].id in ById(events[..i])
    ensures !Distinct(Ids(events))
  {
    var x := ById(events[..i])[events[i].id];
    var j :| 0 <= j < i && events[..i][j] == x;
    assert Ids(events)[j] == Ids(events)[i];
  }

  lemma PrefixStep(events: seq<Event>, i: nat)
    requires i < |events| && Distinct(Ids(events[..i]))
    ensures ById(events[..i + 1]) == ById(events[..i])[events[i].id := events[i]]
    ensures events[i].id in ById(events[..i]) ==> !Distinct(Ids(events))
    ensures events[i].id !in ById(events[..i]) ==> Distinct(Ids(events[..i + 1]))
  {
    assert events[..i + 1][..i] == events[..i];
    assert Ids(events[..i + 1]) == Ids(events[..i]) + [events[i].id];
    if events[i].id in ById(events[..i]) {
      TakenTwice(events, i);
    } else {
      FreshId(events[..i], events[i].id);
    }
  }

  lemma AddedNothing<K, V>(rows: map<K, V>, previous: map<K, V>)
    ensures Added(rows, previous, map[]) == rows
  {
  }

  /** Inserting one more key, unless it was there before. */
  lemma AddedOne<K, V>(rows: map<K, V>, previous: map<K, V>, part: map<K, V>, key: K, value: V)
    requires key !in part
    ensures Added(rows, previous, part[key := value])
         == if key in previous then Added(rows, previous, part) else Added(rows, previous, part)[key := value]
    ensures key in Added(rows, previous, part) <==> key in rows
  {
    assert part[key := value] - previous.Keys
        == if key in previous then part - previous.Keys else (part - previous.Keys)[key := value];
  }

  predicate AllBefore(events: seq<Event>, e: Event) {
    forall x | x in events :: Before(x, e) && x.id != e.id
  }

  lemma {:induction false} Snoc(events: seq<Event>, e: Event)
    requires ReadOrdered(events) && Distinct(Ids(events)) && AllBefore(events, e)
    ensures ReadOrdered(events + [e]) && Distinct(Ids(events + [e]))
    ensures ById(events + [e]) == ById(events)[e.id := e]
  {
    assert (events + [e])[..|events|] == events;
    assert Ids(events + [e]) == Ids(events) + [e.id];
  }

  lemma Unsnoc(events: seq<Event>)
    requires ReadOrdered(events) && Distinct(Ids(events)) && events != []
    ensures var n := |events| - 1;
            && events == events[..n] + [events[n]]
            && ReadOrdered(events[..n]) && Distinct(Ids(events[..n])) && AllBefore(events[..n], events[n])
  {
    var n := |events| - 1;
    DistinctPrefix(events, n);
    forall x | x in events[..n]
      ensures Before(x, events[n]) && x.id != events[n].id
    {
      var i :| 0 <= i < n && events[i] == x;
      assert Ids(events)[i] == x.id && Ids(events)[n] == events[n].id;
    }
  }

  lemma UpdatesCommute<K, V>(m: map<K, V>, k: K, v: V, l: K, w: V)
    requires k != l
    ensures m[k := v][l := w] == m[l := w][k := v]
  {
  }

  lemma {:induction false} InsertKeeps(events: seq<Event>, e: Event)
    requires ReadOrdered(events) && Distinct(Ids(events)) && e.id !in ById(events)
    ensures ReadOrdered(Insert(events, e)) && Distinct(Ids(Insert(events, e)))
    ensures ById(Insert(events, e)) == ById(events)[e.id := e]
  {
    if events == [] {
      Snoc([], e);
      return;
    }
    var n := |events| - 1;
    var front, last := events[..n], events[n];
    Unsnoc(events);
    if Before(last, e) {
      forall x | x in events
        ensures Before(x, e) && x.id != e.id
      {
        assert x.id in ById(events);
        if x in front {
          BeforeTrans(x, last, e);
        }
      }
      Snoc(events, e);
    } else {
      TextTotal(last.id, e.id);
      assert last.id in ById(events);
      InsertKeeps(front, e);
      Snoc(Insert(front, e), last);
      assert Insert(events, e) == Insert(front, e) + [last];
      assert ById(events) == ById(front)[last.id := last];
      UpdatesCommute(ById(front), e.id, e, last.id, last);
    }
  }
}
