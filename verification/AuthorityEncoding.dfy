/** The records Landing and reconciliation work on, written as the rows of the
    Authority's store: what they commit is accepted exactly when the version
    fence they rely on is open, and is read back unchanged. */
module AuthorityEncoding {
  import opened Basics
  import A = Authority
  import L = CohortLanding
  import R = CanonicalRefs
  import opened AuthorityStore
  import opened AuthorityHistory

  /** How each kind of record is written as text, and what the store holds
      beside them. */
  datatype Encoding = Encoding(
    realmId: Id,
    project: A.Project -> Payload,
    repository: A.Id -> Payload,
    projectRevision: A.ProjectRevision -> Payload,
    projectView: A.ProjectView -> Payload,
    workspace: A.Workspace -> Payload,
    change: A.Change -> Payload,
    changeRevision: A.ChangeRevision -> Payload,
    canonical: A.Id -> Payload,
    landing: A.Landing -> Payload,
    projection: A.ProjectionRecord -> Payload,
    key: A.Key -> string,
    fingerprint: A.Fingerprint -> string,
    result: A.Result -> Payload,
    audited: A.Key -> Payload,
    others: map<Collection, map<Id, Payload>>)

  ghost predicate Injective<X(!new), Y(!new)>(f: X -> Y) {
    forall x, y :: f(x) == f(y) ==> x == y
  }

  /** Different records are written differently. */
  ghost predicate Faithful(e: Encoding) {
    && Injective(e.project) && Injective(e.repository) && Injective(e.projectRevision) && Injective(e.projectView)
    && Injective(e.workspace) && Injective(e.change) && Injective(e.changeRevision) && Injective(e.canonical)
    && Injective(e.landing) && Injective(e.projection)
    && Injective(e.key) && Injective(e.fingerprint) && Injective(e.result) && Injective(e.audited)
  }

  function Texts<X>(f: X -> Payload, items: map<Id, X>): (texts: map<Id, Payload>)
    ensures texts.Keys == items.Keys && forall id | id in items :: texts[id] == f(items[id])
  {
    map id | id in items :: f(items[id])
  }

  function CollectionOf(e: Encoding, a: A.Snapshot, c: Collection): map<Id, Payload> {
    match c
    case Projects => Texts(e.project, a.projects)
    case SourceSpaces => Texts(e.repository, a.repositories)
    case ProjectRevisions => Texts(e.projectRevision, a.projectRevisions)
    case ProjectViews => Texts(e.projectView, a.projectViews)
    case Workspaces => Texts(e.workspace, a.workspaces)
    case Changes => Texts(e.change, a.changes)
    case ChangeRevisions => Texts(e.changeRevision, a.changeRevisions)
    case CanonicalByProject => Texts(e.canonical, a.canonicalByProject)
    case Landings => Texts(e.landing, a.landings)
    case CanonicalRefProjections => Texts(e.projection, a.projections)
    case _ => if c in e.others then e.others[c] else map[]
  }

  ghost function EncodedEntries(e: Encoding, idempotency: map<A.Key, A.Entry>): (m: map<string, Recorded>)
    requires Injective(e.key)
    ensures forall key | key in idempotency :: e.key(key) in m && m[e.key(key)] == EncodedEntry(e, idempotency[key])
    ensures forall text | text in m :: exists key | key in idempotency :: e.key(key) == text
  {
    map key | key in idempotency :: e.key(key) := EncodedEntry(e, idempotency[key])
  }

  function EncodedEntry(e: Encoding, entry: A.Entry): Recorded {
    Recorded(e.fingerprint(entry.fingerprint), e.result(entry.result))
  }

  function EncodedEvent(e: Encoding, event: A.AuditEvent): Event {
    Event(event.id, event.stateVersion, e.audited(event.key))
  }

  function EncodedEvents(e: Encoding, audit: seq<A.AuditEvent>): (events: seq<Event>)
    ensures |events| == |audit| && forall i | 0 <= i < |audit| :: events[i] == EncodedEvent(e, audit[i])
  {
    seq(|audit|, i requires 0 <= i < |audit| => EncodedEvent(e, audit[i]))
  }

  ghost function Encoded(e: Encoding, a: A.Snapshot): Snapshot
    requires Faithful(e)
  {
    Snapshot(Protocol, e.realmId, a.version,
             map c | c in EntityCollections :: CollectionOf(e, a, c),
             EncodedEntries(e, a.idempotency), EncodedEvents(e, a.audit))
  }

  lemma EncodedCovers(e: Encoding, a: A.Snapshot)
    requires Faithful(e)
    ensures Covered(Encoded(e, a))
    ensures forall c | IsListed(c) :: Encoded(e, a).collections[c] == CollectionOf(e, a, c)
  {
    ListedOnce();
  }

  // ------------------------------------------------------------- nothing is confused

  lemma TextsName<X(!new)>(f: X -> Payload, items: map<Id, X>, others: map<Id, X>)
    requires Injective(f) && Texts(f, items) == Texts(f, others)
    ensures items == others
  {
    assert items.Keys == others.Keys;
    forall id | id in items
      ensures items[id] == others[id]
    {
      assert Texts(f, items)[id] == f(items[id]) && Texts(f, others)[id] == f(others[id]);
    }
  }

  lemma EntriesName(e: Encoding, items: map<A.Key, A.Entry>, others: map<A.Key, A.Entry>)
    requires Faithful(e) && EncodedEntries(e, items) == EncodedEntries(e, others)
    ensures items == others
  {
    EntriesWithin(e, items, others);
    EntriesWithin(e, others, items);
    assert items.Keys == others.Keys;
  }

  lemma EntriesWithin(e: Encoding, items: map<A.Key, A.Entry>, others: map<A.Key, A.Entry>)
    requires Faithful(e) && EncodedEntries(e, items) == EncodedEntries(e, others)
    ensures forall key | key in items :: key in others && others[key] == items[key]
  {
    forall key | key in items
      ensures key in others && others[key] == items[key]
    {
      assert e.key(key) in EncodedEntries(e, others);
      var other :| other in others && e.key(other) == e.key(key);
      assert EncodedEntry(e, items[key]) == EncodedEntry(e, others[key]);
    }
  }

  lemma EventsName(e: Encoding, audit: seq<A.AuditEvent>, other: seq<A.AuditEvent>)
    requires Faithful(e) && EncodedEvents(e, audit) == EncodedEvents(e, other)
    ensures audit == other
  {
    assert |audit| == |other|;
    forall i | 0 <= i < |audit|
      ensures audit[i] == other[i]
    {
      assert EncodedEvents(e, audit)[i] == EncodedEvents(e, other)[i];
    }
  }

  lemma CollectionsAgree(e: Encoding, a: A.Snapshot, b: A.Snapshot, c: Collection)
    requires Faithful(e) && Encoded(e, a) == Encoded(e, b) && IsListed(c)
    ensures CollectionOf(e, a, c) == CollectionOf(e, b, c)
  {
    EncodedCovers(e, a);
    EncodedCovers(e, b);
  }

  /** A collection of what is selected determines its records. */
  lemma SelectionNames(e: Encoding, a: A.Snapshot, b: A.Snapshot, c: Collection)
    requires Faithful(e) && CollectionOf(e, a, c) == CollectionOf(e, b, c)
    ensures c == Projects ==> a.projects == b.projects
    ensures c == SourceSpaces ==> a.repositories == b.repositories
    ensures c == ProjectRevisions ==> a.projectRevisions == b.projectRevisions
    ensures c == ProjectViews ==> a.projectViews == b.projectViews
    ensures c == CanonicalByProject ==> a.canonicalByProject == b.canonicalByProject
  {
    match c
    case Projects => TextsName(e.project, a.projects, b.projects);
    case SourceSpaces => TextsName(e.repository, a.repositories, b.repositories);
    case ProjectRevisions => TextsName(e.projectRevision, a.projectRevisions, b.projectRevisions);
    case ProjectViews => TextsName(e.projectView, a.projectViews, b.projectViews);
    case CanonicalByProject => TextsName(e.canonical, a.canonicalByProject, b.canonicalByProject);
    case _ =>
  }

  /** So does a collection of the work under way. */
  lemma WorkNames(e: Encoding, a: A.Snapshot, b: A.Snapshot, c: Collection)
    requires Faithful(e) && CollectionOf(e, a, c) == CollectionOf(e, b, c)
    ensures c == Workspaces ==> a.workspaces == b.workspaces
    ensures c == Changes ==> a.changes == b.changes
    ensures c == ChangeRevisions ==> a.changeRevisions == b.changeRevisions
    ensures c == Landings ==> a.landings == b.landings
    ensures c == CanonicalRefProjections ==> a.projections == b.projections
  {
    match c
    case Workspaces => TextsName(e.workspace, a.workspaces, b.workspaces);
    case Changes => TextsName(e.change, a.changes, b.changes);
    case ChangeRevisions => TextsName(e.changeRevision, a.changeRevisions, b.changeRevisions);
    case Landings => TextsName(e.landing, a.landings, b.landings);
    case CanonicalRefProjections => TextsName(e.projection, a.projections, b.projections);
    case _ =>
  }

  /** The stored snapshot determines the records. */
  lemma EncodedNames(e: Encoding, a: A.Snapshot, b: A.Snapshot)
    requires Faithful(e) && Encoded(e, a) == Encoded(e, b)
    ensures a == b
  {
    forall c | IsListed(c)
      ensures CollectionOf(e, a, c) == CollectionOf(e, b, c)
    {
      CollectionsAgree(e, a, b, c);
    }
    SelectionNames(e, a, b, Projects);
    SelectionNames(e, a, b, SourceSpaces);
    SelectionNames(e, a, b, ProjectRevisions);
    SelectionNames(e, a, b, ProjectViews);
    SelectionNames(e, a, b, CanonicalByProject);
    WorkNames(e, a, b, Workspaces);
    WorkNames(e, a, b, Changes);
    WorkNames(e, a, b, ChangeRevisions);
    WorkNames(e, a, b, Landings);
    WorkNames(e, a, b, CanonicalRefProjections);
    EntriesName(e, a.idempotency, b.idempotency);
    EventsName(e, a.audit, b.audit);
  }

  // ------------------------------------------------------- what Landings and checkpoints commit

  /** The next version, with one event more and nothing recorded before changed. */
  predicate Appends(a: A.Snapshot, next: A.Snapshot) {
    && next.version == a.version + 1
    && (forall key | key in a.idempotency :: key in next.idempotency && next.idempotency[key] == a.idempotency[key])
    && |next.audit| == |a.audit| + 1 && next.audit[..|a.audit|] == a.audit
    && var event := next.audit[|a.audit|];
    event.stateVersion == next.version && forall other | other in a.audit :: other.id != event.id
  }

  predicate Stamped(a: A.Snapshot) {
    forall event | event in a.audit :: event.stateVersion <= a.version
  }

  /** A Landing's snapshot, when its cohort was not received before. */
  lemma SelectionAppends(a: A.Snapshot, p: A.Id, request: L.Request, policyVersion: string, minted: L.Minted, composed: map<A.Id, A.Oid>)
    requires L.HasCanonical(a, p) && A.CohortKey(request.cohortId) !in a.idempotency
    requires forall event | event in a.audit :: event.id != minted.auditId
    ensures Appends(a, L.Selection(a, p, request, policyVersion, minted, composed))
  {
  }

  /** The snapshot of a checkpoint that is written. */
  lemma CheckpointAppends(a: A.Snapshot, record: A.ProjectionRecord, phase: A.Phase, generation: Option<nat>, auditId: A.Id)
    requires R.Save(a, record, phase, generation, auditId).Written?
    requires forall event | event in a.audit :: event.id != auditId
    ensures Appends(a, R.Save(a, record, phase, generation, auditId).next)
  {
  }

  lemma EventsAppended(e: Encoding, a: A.Snapshot, next: A.Snapshot)
    requires Faithful(e) && Appends(a, next)
    ensures AppendsOne(Encoded(e, a), Encoded(e, next))
  {
    var events, events' := EncodedEvents(e, a.audit), EncodedEvents(e, next.audit);
    forall i | 0 <= i < |events|
      ensures events'[i] == events[i]
    {
      assert next.audit[..|a.audit|][i] == a.audit[i];
    }
    assert events'[..|events|] == events;
    if next.audit[|a.audit|].id in ById(events) {
      IdKnown(e, a.audit, next.audit[|a.audit|].id);
    }
  }

  lemma IdKnown(e: Encoding, audit: seq<A.AuditEvent>, id: Id)
    requires id in ById(EncodedEvents(e, audit))
    ensures exists event :: event in audit && event.id == id
  {
    var event := ById(EncodedEvents(e, audit))[id];
    var i :| 0 <= i < |audit| && EncodedEvents(e, audit)[i] == event;
    assert audit[i] in audit;
  }

  lemma EntriesKept(e: Encoding, a: A.Snapshot, next: A.Snapshot)
    requires Faithful(e) && Appends(a, next)
    ensures Immutable(Encoded(e, a).idempotency, Encoded(e, next).idempotency)
  {
    var before, after := EncodedEntries(e, a.idempotency), EncodedEntries(e, next.idempotency);
    forall text | text in before
      ensures text in after && after[text] == before[text]
    {
      var key :| key in a.idempotency && e.key(key) == text;
    }
  }

  lemma StampsEncoded(e: Encoding, a: A.Snapshot)
    requires Faithful(e) && Stamped(a)
    ensures StampedSoFar(Encoded(e, a))
  {
    forall event | event in EncodedEvents(e, a.audit)
      ensures event.stateVersion <= a.version
    {
      var i :| 0 <= i < |a.audit| && EncodedEvents(e, a.audit)[i] == event;
      assert a.audit[i] in a.audit;
    }
  }

  lemma AppendsStamped(a: A.Snapshot, next: A.Snapshot)
    requires Stamped(a) && Appends(a, next)
    ensures Stamped(next)
  {
    forall event | event in next.audit
      ensures event.stateVersion <= next.version
    {
      var i :| 0 <= i < |next.audit| && next.audit[i] == event;
      if i < |a.audit| {
        assert next.audit[..|a.audit|][i] == event;
      }
    }
  }

  /** Over rows that hold the records, such a commit is accepted, and whoever
      loads next reads exactly the records committed. */
  lemma CommitStores(e: Encoding, a: A.Snapshot, next: A.Snapshot, rows: Rows, rows': Rows, t: Snapshot)
    requires Faithful(e) && Reads(rows, Encoded(e, a)) && Listed(rows) && Stamped(a) && Appends(a, next)
    ensures Accepts(rows, Encoded(e, a), Encoded(e, next)) && Stamped(next)
    ensures Committed(rows, Encoded(e, a), Encoded(e, next), rows') ==> (Reads(rows', t) ==> t == Encoded(e, next))
  {
    EncodedCovers(e, next);
    EventsAppended(e, a, next);
    EntriesKept(e, a, next);
    StampsEncoded(e, a);
    AppendsStamped(a, next);
    AppendingCommitReadsBack(rows, Encoded(e, a), Encoded(e, next), rows', t);
  }

  /** The store accepts such a commit exactly when the fence is open, provided
      the snapshot it was prepared from is stored if its version is: what every
      client of one store has. */
  lemma StoreFence(e: Encoding, current: A.Snapshot, previous: A.Snapshot, next: A.Snapshot, rows: Rows)
    requires Faithful(e) && Reads(rows, Encoded(e, current)) && Listed(rows) && Stamped(current) && Appends(previous, next)
    requires previous.version == current.version ==> previous == current
    ensures Accepts(rows, Encoded(e, previous), Encoded(e, next)) <==> A.FenceOpen(current, previous, next)
  {
    if previous.version == current.version {
      CommitStores(e, current, next, rows, rows, Encoded(e, current));
    }
  }
}
