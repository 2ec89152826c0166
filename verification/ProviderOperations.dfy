/** Customer provider operations: a record per operation, replaced only by
    compare-and-swap on the digest of its checkpoint, while runs, resumes,
    callbacks and cleanups overlap. The digest is free of collisions: it keeps
    what it was computed from. */
module ProviderOperations {
  import opened Basics

  type Id = string

  datatype Phase = Pending | Succeeded | Degraded | Blocked | Indeterminate

  datatype CheckpointId = CheckpointId(operationId: Id, state: Phase, attempts: nat, previous: Option<CheckpointId>)

  datatype Checkpoint = Checkpoint(
    checkpointId: CheckpointId, stateDigest: Digest, state: Phase, attempts: nat, accepted: seq<string>, pending: seq<string>)

  /** What an operation is bound to for good. */
  datatype Identity = Identity(
    realmId: Id, installationId: Id, operationId: Id, idempotencyKey: Id, surface: string, failureMode: string,
    payloadDigest: string, resourceKey: string, owner: (Id, Id, Id))

  datatype Cleanup = Cleanup(succeeded: bool, deleted: seq<string>, remaining: seq<string>)

  datatype Record = Record(
    identity: Identity, state: Phase, providerOperationId: Option<Id>, providerStatus: Option<string>,
    partialEffects: seq<string>, outputDigest: Option<string>, readBackDigest: Option<string>,
    callback: Option<Digest>, cleanup: Option<Cleanup>, updatedAt: nat, checkpoint: Checkpoint)

  /** Blank stands for the "pending" placeholder a digest is computed over. */
  datatype Digest = Blank | DigestOf(content: Record)

  // ------------------------------------------------------------------------- records

  function StateDigest(r: Record): Digest {
    DigestOf(r.(checkpoint := r.checkpoint.(stateDigest := Blank)))
  }

  /** The record's own digest matches what it says. */
  predicate Verified(r: Record) {
    r.checkpoint.stateDigest == StateDigest(r)
  }

  function WithCheckpoint(r: Record, previous: Option<Checkpoint>, accepted: seq<string>, pending: seq<string>): Record {
    var id := CheckpointId(r.identity.operationId, r.state, if previous.Some? then previous.value.attempts else 0,
                           if previous.Some? then Some(previous.value.checkpointId) else None);
    var provisional := r.(checkpoint := Checkpoint(id, Blank, r.state, if previous.Some? then previous.value.attempts + 1 else 0, accepted, pending));
    provisional.(checkpoint := provisional.checkpoint.(stateDigest := StateDigest(provisional)))
  }

  function InitialRecord(identity: Identity, now: nat): Record {
    var empty := Checkpoint(CheckpointId(identity.operationId, Pending, 0, None), Blank, Pending, 0, [], []);
    WithCheckpoint(Record(identity, Pending, None, None, [], None, None, None, None, now, empty), None, [], [identity.resourceKey])
  }

  /** The next record: a patched copy under a new checkpoint. */
  function NextRecord(r: Record, patched: Record, now: nat, accepted: seq<string>, pending: seq<string>): Record {
    WithCheckpoint(patched.(updatedAt := now), Some(r.checkpoint), accepted, pending)
  }

  /** Verified records with one digest are one record. */
  lemma DigestNamesRecord(r: Record, t: Record)
    requires Verified(r) && Verified(t) && r.checkpoint.stateDigest == t.checkpoint.stateDigest
    ensures r == t
  {
    var a, b := r.(checkpoint := r.checkpoint.(stateDigest := Blank)), t.(checkpoint := t.checkpoint.(stateDigest := Blank));
    assert a == b;
    assert r == a.(checkpoint := a.checkpoint.(stateDigest := r.checkpoint.stateDigest));
    assert t == b.(checkpoint := b.checkpoint.(stateDigest := t.checkpoint.stateDigest));
  }

  // --------------------------------------------------------------------- transitions

  datatype Status = Accepted | Failed | Unknown
  datatype Observation = Observation(
    status: Status, providerOperationId: Id, providerStatus: string, outputDigest: Option<string>,
    partialEffects: seq<string>, retryable: bool)

  datatype ReadBack = ReadBack(present: bool, digest: Option<string>)

  datatype Callback = Callback(providerOperationId: Id, expected: Digest, outputDigest: Option<string>)

  function Or<T>(a: Option<T>, b: Option<T>): Option<T> {
    if a.Some? then a else b
  }

  predicate Deferred(providerStatus: string) {
    providerStatus in {"transport-accepted", "transport-duplicate-or-partial", "instance-created"}
  }

  predicate HasDigest(b: ReadBack) {
    b.digest.Some? && b.digest.value != ""
  }

  function Nonempty(text: Option<string>): Option<string> {
    if text == Some("") then None else text
  }

  function Retried(r: Record, now: nat): Record {
    NextRecord(r, r.(state := Pending), now, r.checkpoint.accepted, [r.identity.resourceKey])
  }

  function FailedRecord(r: Record, o: Observation, now: nat): Record {
    NextRecord(r, r.(state := if o.status == Unknown then Indeterminate else if o.retryable then Degraded else Blocked,
                     providerOperationId := Some(o.providerOperationId), providerStatus := Some(o.providerStatus),
                     partialEffects := o.partialEffects, outputDigest := Or(Nonempty(o.outputDigest), r.outputDigest),
                     callback := if Deferred(o.providerStatus) then Some(r.checkpoint.stateDigest) else r.callback),
               now, o.partialEffects, [r.identity.resourceKey])
  }

  /** The read-back of an accepted effect settles the operation, or leaves it
      to be reconciled. */
  function VerifiedRecord(r: Record, o: Observation, b: ReadBack, now: nat): Record {
    var output := Nonempty(o.outputDigest);
    if !b.present || !HasDigest(b) || (output.Some? && b.digest != output) then
      NextRecord(r, r.(state := Indeterminate, providerOperationId := Some(o.providerOperationId),
                       providerStatus := Some(o.providerStatus), partialEffects := o.partialEffects,
                       outputDigest := Or(output, r.outputDigest), readBackDigest := Or(Nonempty(b.digest), r.readBackDigest)),
                 now, o.partialEffects, [r.identity.resourceKey])
    else
      NextRecord(r, r.(state := Succeeded, providerOperationId := Some(o.providerOperationId),
                       providerStatus := Some(o.providerStatus), partialEffects := o.partialEffects,
                       outputDigest := Or(output, r.outputDigest), readBackDigest := b.digest),
                 now, [r.identity.resourceKey], [])
  }

  function CalledBack(r: Record, c: Callback, b: ReadBack, now: nat): Record {
    NextRecord(r, r.(state := Succeeded, providerOperationId := Some(c.providerOperationId),
                     providerStatus := Some("callback-accepted"), outputDigest := Or(Nonempty(c.outputDigest), r.outputDigest),
                     readBackDigest := b.digest, callback := None),
               now, [r.identity.resourceKey], [])
  }

  function CleanedUp(r: Record, cleanup: Cleanup, now: nat): Record {
    NextRecord(r, r.(cleanup := Some(cleanup)), now, r.checkpoint.accepted, r.checkpoint.pending)
  }

  predicate Resumable(r: Record) {
    r.state == Degraded || r.state == Indeterminate || (r.state == Blocked && r.providerStatus == Some("401-authorization-revoked"))
  }

  /** The callback was emitted against the record's checkpoint, or against the
      one it was deferred from. */
  predicate CallbackCurrent(r: Record, c: Callback) {
    && (r.checkpoint.stateDigest == c.expected || r.callback == Some(c.expected))
    && (r.providerOperationId.Some? && r.providerOperationId.value != "" ==> r.providerOperationId.value == c.providerOperationId)
  }

  // ---------------------------------------------------------------------------- store

  /** The stored digest is the one expected; nothing stored where nothing is. */
  predicate Expected(records: map<Id, Record>, operationId: Id, expected: Option<Digest>) {
    expected == if operationId in records then Some(records[operationId].checkpoint.stateDigest) else None
  }

  class OperationStore {
    var records: map<Id, Record>

    constructor ()
      ensures records == map[]
    {
      records := map[];
    }

    method Get(operationId: Id) returns (r: Option<Record>)
      ensures r == if operationId in records then Some(records[operationId]) else None
    {
      r := if operationId in records then Some(records[operationId]) else None;
    }

    /** Replaces the record if it still has the digest expected. */
    method Put(record: Record, expected: Option<Digest>) returns (stored: bool)
      modifies this
      ensures stored <==> Expected(old(records), record.identity.operationId, expected)
      ensures records == if stored then old(records)[record.identity.operationId := record] else old(records)
    {
      var current := Get(record.identity.operationId);
      if (if current.Some? then Some(current.value.checkpoint.stateDigest) else None) != expected {
        return false;
      }
      records := records[record.identity.operationId := record];
      stored := true;
    }
  }

  // ------------------------------------------------------------------ overlapping calls

  /** A call at one of its awaits, with the record it loaded. */
  datatype Task =
    | Executing(record: Record)
    | Verifying(record: Record, o: Observation)
    | Calling(record: Record, c: Callback)
    | Cleaning(record: Record)
    | Putting(base: Option<Record>, next: Record, thenExecute: bool)

  /** `stored` lists the records an operation has had, in order. */
  datatype World = World(records: map<Id, Record>, tasks: map<nat, Task>, stored: map<Id, seq<Record>>)

  datatype Step =
    | Run(n: nat, identity: Identity, now: nat)
    | Resume(n: nat, operationId: Id, now: nat)
    | ExecuteReply(n: nat, o: Observation, now: nat)
    | VerifyReply(n: nat, b: ReadBack, now: nat)
    | AcceptCallback(n: nat, operationId: Id, c: Callback)
    | CallbackReply(n: nat, b: ReadBack, now: nat)
    | BeginCleanup(n: nat, operationId: Id)
    | CleanupReply(n: nat, cleanup: Cleanup, now: nat)
    | Put(n: nat)
    | Kill(n: nat)

  function History(w: World, operationId: Id): seq<Record> {
    if operationId in w.stored then w.stored[operationId] else []
  }

  function Suspend(w: World, n: nat, task: Task): World {
    w.(tasks := w.tasks[n := task])
  }

  function End(w: World, n: nat): World {
    w.(tasks := w.tasks - {n})
  }

  function Write(w: World, r: Record): World {
    var id := r.identity.operationId;
    w.(records := w.records[id := r], stored := w.stored[id := History(w, id) + [r]])
  }

  function ExpectedDigest(base: Option<Record>): Option<Digest> {
    if base.Some? then Some(base.value.checkpoint.stateDigest) else None
  }

  predicate Next(w: World, step: Step, w': World) {
    match step
    case Run(n, identity, now) => // a known operation is returned as it is
      && n !in w.tasks
      && w' == if identity.operationId in w.records then w
               else Suspend(w, n, Putting(None, InitialRecord(identity, now), true))
    case Resume(n, id, now) =>
      && n !in w.tasks && id in w.records
      && var r := w.records[id];
      w' == if r.state == Pending then Suspend(w, n, Executing(r))
            else if Resumable(r) then Suspend(w, n, Putting(Some(r), Retried(r, now), true))
            else w
    case ExecuteReply(n, o, now) => // an exception counts as an unknown status
      && n in w.tasks && w.tasks[n].Executing?
      && var r := w.tasks[n].record;
      w' == if o.status != Accepted then Suspend(w, n, Putting(Some(r), FailedRecord(r, o, now), false))
            else Suspend(w, n, Verifying(r, o))
    case VerifyReply(n, b, now) =>
      && n in w.tasks && w.tasks[n].Verifying?
      && var r := w.tasks[n].record;
      w' == Suspend(w, n, Putting(Some(r), VerifiedRecord(r, w.tasks[n].o, b, now), false))
    case AcceptCallback(n, id, c) =>
      && n !in w.tasks && id in w.records
      && w' == if CallbackCurrent(w.records[id], c) then Suspend(w, n, Calling(w.records[id], c)) else w
    case CallbackReply(n, b, now) =>
      && n in w.tasks && w.tasks[n].Calling?
      && var r := w.tasks[n].record;
      w' == if b.present && HasDigest(b) then Suspend(w, n, Putting(Some(r), CalledBack(r, w.tasks[n].c, b, now), false))
            else End(w, n)
    case BeginCleanup(n, id) =>
      && n !in w.tasks && id in w.records
      && var r := w.records[id];
      w' == if r.cleanup.Some? && r.cleanup.value.succeeded then w else Suspend(w, n, Cleaning(r))
    case CleanupReply(n, cleanup, now) =>
      && n in w.tasks && w.tasks[n].Cleaning?
      && var r := w.tasks[n].record;
      w' == Suspend(w, n, Putting(Some(r), CleanedUp(r, cleanup, now), false))
    case Put(n) =>
      && n in w.tasks && w.tasks[n].Putting?
      && var task := w.tasks[n];
      w' == if Expected(w.records, task.next.identity.operationId, ExpectedDigest(task.base))
            then if task.thenExecute then Suspend(Write(w, task.next), n, Executing(task.next)) else End(Write(w, task.next), n)
            else End(w, n)
    case Kill(n) => w' == End(w, n)
  }

  predicate Init(w: World) {
    w == World(map[], map[], map[])
  }

  // ------------------------------------------------------------------------- invariant

  /** A succeeded operation has its read-back on record. */
  predicate Settled(r: Record) {
    r.state == Succeeded ==> r.readBackDigest.Some? && r.readBackDigest.value != ""
  }

  /** One record takes another's place: same identity, one more attempt, and
      success is kept. */
  predicate Succeeds(before: Record, after: Record) {
    && Verified(after) && Settled(after)
    && after.identity == before.identity
    && after.checkpoint.attempts == before.checkpoint.attempts + 1
    && after.checkpoint.state == after.state
    && (before.state == Succeeded ==> after.state == Succeeded)
  }

  predicate Begins(r: Record) {
    Verified(r) && r.state == Pending && r.checkpoint.state == Pending && r.checkpoint.attempts == 0
  }

  predicate EntryOk(id: Id, history: seq<Record>, i: nat)
    requires i < |history|
  {
    && Verified(history[i]) && Settled(history[i]) && history[i].identity.operationId == id
    && if i == 0 then Begins(history[0]) else Succeeds(history[i - 1], history[i])
  }

  ghost predicate HistoryOk(id: Id, history: seq<Record>) {
    history != [] && forall i: nat {:trigger EntryOk(id, history, i)} | i < |history| :: EntryOk(id, history, i)
  }

  /** The operation has had this record. */
  predicate Held(stored: map<Id, seq<Record>>, r: Record) {
    r.identity.operationId in stored && r in stored[r.identity.operationId]
  }

  predicate TaskOk(stored: map<Id, seq<Record>>, task: Task) {
    match task
    case Executing(r) => Held(stored, r) && r.state == Pending
    case Verifying(r, _) => Held(stored, r) && r.state == Pending
    case Calling(r, _) => Held(stored, r)
    case Cleaning(r) => Held(stored, r)
    case Putting(base, next, thenExecute) =>
      && (thenExecute ==> next.state == Pending)
      && if base.None? then Begins(next) else Held(stored, base.value) && Succeeds(base.value, next)
  }

  ghost predicate StoredOk(records: map<Id, Record>, stored: map<Id, seq<Record>>, id: Id)
    requires id in stored
  {
    HistoryOk(id, stored[id]) && id in records && records[id] == stored[id][|stored[id]| - 1]
  }

  ghost predicate RecordsInv(records: map<Id, Record>, stored: map<Id, seq<Record>>) {
    && records.Keys == stored.Keys
    && forall id {:trigger StoredOk(records, stored, id)} | id in stored :: StoredOk(records, stored, id)
  }

  predicate TasksInv(stored: map<Id, seq<Record>>, tasks: map<nat, Task>) {
    forall n {:trigger TaskOk(stored, tasks[n])} | n in tasks :: TaskOk(stored, tasks[n])
  }

  ghost predicate Inv(w: World) {
    RecordsInv(w.records, w.stored) && TasksInv(w.stored, w.tasks)
  }

  // ------------------------------------------------------------------------ every step

  lemma HeldIsSound(records: map<Id, Record>, stored: map<Id, seq<Record>>, r: Record)
    requires RecordsInv(records, stored) && Held(stored, r)
    ensures Verified(r) && Settled(r)
  {
    var id := r.identity.operationId;
    assert StoredOk(records, stored, id);
    var i :| 0 <= i < |stored[id]| && stored[id][i] == r;
    assert EntryOk(id, stored[id], i);
  }

  lemma CurrentIsHeld(records: map<Id, Record>, stored: map<Id, seq<Record>>, id: Id)
    requires RecordsInv(records, stored) && id in records
    ensures Held(stored, records[id]) && Verified(records[id]) && Settled(records[id]) && records[id].identity.operationId == id
  {
    assert StoredOk(records, stored, id);
    assert EntryOk(id, stored[id], |stored[id]| - 1);
  }

  /** A compare-and-swap that succeeds replaces exactly the record it was
      computed from. */
  lemma SwapIsCurrent(records: map<Id, Record>, stored: map<Id, seq<Record>>, base: Record)
    requires RecordsInv(records, stored) && Held(stored, base)
    requires Expected(records, base.identity.operationId, ExpectedDigest(Some(base)))
    ensures base.identity.operationId in records && records[base.identity.operationId] == base
  {
    HeldIsSound(records, stored, base);
    CurrentIsHeld(records, stored, base.identity.operationId);
    DigestNamesRecord(base, records[base.identity.operationId]);
  }

  lemma HistoryGrows(id: Id, history: seq<Record>, next: Record)
    requires next.identity.operationId == id && Verified(next) && Settled(next)
    requires if history == [] then Begins(next) else HistoryOk(id, history) && Succeeds(history[|history| - 1], next)
    ensures HistoryOk(id, history + [next])
  {
    var all := history + [next];
    forall i: nat | i < |all|
      ensures EntryOk(id, all, i)
    {
      if i < |history| {
        assert EntryOk(id, history, i);
      }
    }
  }

  lemma WriteRecords(records: map<Id, Record>, stored: map<Id, seq<Record>>, base: Option<Record>, next: Record)
    requires RecordsInv(records, stored) && TaskOk(stored, Putting(base, next, false))
    requires Expected(records, next.identity.operationId, ExpectedDigest(base))
    ensures var id := next.identity.operationId;
            var history := if id in stored then stored[id] else [];
            RecordsInv(records[id := next], stored[id := history + [next]])
  {
    var id := next.identity.operationId;
    var history := if id in stored then stored[id] else [];
    if base.Some? {
      SwapIsCurrent(records, stored, base.value);
      assert StoredOk(records, stored, id);
    }
    HistoryGrows(id, history, next);
    var records', stored' := records[id := next], stored[id := history + [next]];
    forall other | other in stored'
      ensures StoredOk(records', stored', other)
    {
      if other != id {
        assert StoredOk(records, stored, other);
      }
    }
  }

  lemma TasksStay(stored: map<Id, seq<Record>>, stored': map<Id, seq<Record>>, tasks: map<nat, Task>)
    requires TasksInv(stored, tasks)
    requires forall r | Held(stored, r) :: Held(stored', r)
    ensures TasksInv(stored', tasks)
  {
    forall n | n in tasks
      ensures TaskOk(stored', tasks[n])
    {
      assert TaskOk(stored, tasks[n]);
    }
  }

  lemma WriteKeeps(w: World, base: Option<Record>, next: Record)
    requires Inv(w) && TaskOk(w.stored, Putting(base, next, false))
    requires Expected(w.records, next.identity.operationId, ExpectedDigest(base))
    ensures Inv(Write(w, next)) && Held(Write(w, next).stored, next)
  {
    WriteRecords(w.records, w.stored, base, next);
    TasksStay(w.stored, Write(w, next).stored, w.tasks);
  }

  lemma SuspendKeeps(w: World, n: nat, task: Task)
    requires Inv(w) && TaskOk(w.stored, task)
    ensures Inv(Suspend(w, n, task))
  {
    var tasks := w.tasks[n := task];
    forall m | m in tasks
      ensures TaskOk(w.stored, tasks[m])
    {
      if m != n {
        assert TaskOk(w.stored, w.tasks[m]);
      }
    }
  }

  lemma EndKeeps(w: World, n: nat)
    requires Inv(w)
    ensures Inv(End(w, n))
  {
    var tasks := w.tasks - {n};
    forall m | m in tasks
      ensures TaskOk(w.stored, tasks[m])
    {
      assert TaskOk(w.stored, w.tasks[m]);
    }
  }

  lemma PutKeeps(w: World, n: nat, w': World)
    requires Inv(w) && Next(w, Put(n), w')
    ensures Inv(w')
  {
    var task := w.tasks[n];
    assert TaskOk(w.stored, task);
    if Expected(w.records, task.next.identity.operationId, ExpectedDigest(task.base)) {
      WriteKeeps(w, task.base, task.next);
      if task.thenExecute {
        SuspendKeeps(Write(w, task.next), n, Executing(task.next));
      } else {
        EndKeeps(Write(w, task.next), n);
      }
    } else {
      EndKeeps(w, n);
    }
  }

  lemma BeginKeeps(w: World, step: Step, w': World)
    requires Inv(w) && Next(w, step, w') && (step.Run? || step.Resume? || step.AcceptCallback? || step.BeginCleanup?)
    ensures Inv(w')
  {
    match step
    case Run(n, identity, now) =>
      if identity.operationId !in w.records {
        SuspendKeeps(w, n, Putting(None, InitialRecord(identity, now), true));
      }
    case Resume(n, id, now) =>
      var r := w.records[id];
      CurrentIsHeld(w.records, w.stored, id);
      if r.state == Pending {
        SuspendKeeps(w, n, Executing(r));
      } else if Resumable(r) {
        SuspendKeeps(w, n, Putting(Some(r), Retried(r, now), true));
      }
    case AcceptCallback(n, id, c) =>
      CurrentIsHeld(w.records, w.stored, id);
      if CallbackCurrent(w.records[id], c) {
        SuspendKeeps(w, n, Calling(w.records[id], c));
      }
    case BeginCleanup(n, id) =>
      CurrentIsHeld(w.records, w.stored, id);
      if w' != w {
        SuspendKeeps(w, n, Cleaning(w.records[id]));
      }
    case _ =>
  }

  lemma ReplyKeeps(w: World, step: Step, w': World)
    requires Inv(w) && Next(w, step, w') && (step.ExecuteReply? || step.VerifyReply? || step.CallbackReply? || step.CleanupReply?)
    ensures Inv(w')
  {
    assert TaskOk(w.stored, w.tasks[step.n]);
    var r := w.tasks[step.n].record;
    HeldIsSound(w.records, w.stored, r);
    match step
    case ExecuteReply(n, o, now) =>
      if o.status != Accepted {
        SuspendKeeps(w, n, Putting(Some(r), FailedRecord(r, o, now), false));
      } else {
        SuspendKeeps(w, n, Verifying(r, o));
      }
    case VerifyReply(n, b, now) =>
      SuspendKeeps(w, n, Putting(Some(r), VerifiedRecord(r, w.tasks[n].o, b, now), false));
    case CallbackReply(n, b, now) =>
      if b.present && HasDigest(b) {
        SuspendKeeps(w, n, Putting(Some(r), CalledBack(r, w.tasks[n].c, b, now), false));
      } else {
        EndKeeps(w, n);
      }
    case CleanupReply(n, cleanup, now) =>
      SuspendKeeps(w, n, Putting(Some(r), CleanedUp(r, cleanup, now), false));
    case _ =>
  }

  lemma NextKeepsInv(w: World, step: Step, w': World)
    requires Inv(w) && Next(w, step, w')
    ensures Inv(w')
  {
    match step
    case Put(n) => PutKeeps(w, n, w');
    case Kill(n) => EndKeeps(w, n);
    case Run(_, _, _) => BeginKeeps(w, step, w');
    case Resume(_, _, _) => BeginKeeps(w, step, w');
    case AcceptCallback(_, _, _) => BeginKeeps(w, step, w');
    case BeginCleanup(_, _) => BeginKeeps(w, step, w');
    case _ => ReplyKeeps(w, step, w');
  }

  // ------------------------------------------------------------------------------ runs

  ghost predicate IsRun(run: seq<World>, steps: seq<Step>) {
    && |run| == |steps| + 1
    && Init(run[0])
    && forall i {:trigger Follows(run, steps, i)} | 0 <= i < |steps| :: Follows(run, steps, i)
  }

  predicate Follows(run: seq<World>, steps: seq<Step>, i: nat)
    requires i < |steps| && |run| == |steps| + 1
  {
    Next(run[i], steps[i], run[i + 1])
  }

  lemma {:induction false} RunKeepsInv(run: seq<World>, steps: seq<Step>, k: nat)
    requires IsRun(run, steps) && k < |run|
    ensures Inv(run[k])
  {
    if k > 0 {
      RunKeepsInv(run, steps, k - 1);
      assert Follows(run, steps, k - 1);
      NextKeepsInv(run[k - 1], steps[k - 1], run[k]);
    }
  }

  lemma {:induction false} AttemptsCount(id: Id, history: seq<Record>, i: nat)
    requires HistoryOk(id, history) && i < |history|
    ensures history[i].checkpoint.attempts == i
  {
    if i > 0 {
      AttemptsCount(id, history, i - 1);
    }
    assert EntryOk(id, history, i);
  }

  lemma {:induction false} SuccessStays(id: Id, history: seq<Record>, i: nat, j: nat)
    requires HistoryOk(id, history) && i <= j < |history| && history[i].state == Succeeded
    ensures history[j].state == Succeeded
  {
    if i < j {
      SuccessStays(id, history, i, j - 1);
      assert EntryOk(id, history, j);
    }
  }

  lemma DigestsDiffer(r: Record, t: Record)
    requires Verified(r) && Verified(t)
    ensures r.checkpoint.attempts != t.checkpoint.attempts ==> r.checkpoint.stateDigest != t.checkpoint.stateDigest
  {
    if r.checkpoint.stateDigest == t.checkpoint.stateDigest {
      DigestNamesRecord(r, t);
    }
  }

  /** Over any overlap of calls, the records an operation has had: each passes
      its own digest, the i-th is its i-th attempt, no digest is ever used
      twice, and once succeeded it stays so with a read-back on record. */
  lemma OperationsAdvance(run: seq<World>, steps: seq<Step>, k: nat, id: Id, i: nat, j: nat)
    requires IsRun(run, steps) && k < |run| && id in run[k].stored && i <= j < |run[k].stored[id]|
    ensures var history := run[k].stored[id];
            && Verified(history[i]) && history[i].checkpoint.attempts == i
            && (i < j ==> history[i].checkpoint.stateDigest != history[j].checkpoint.stateDigest)
            && (history[i].state == Succeeded ==> history[j].state == Succeeded && history[j].readBackDigest.Some?
                                                  && history[j].readBackDigest.value != "")
            && id in run[k].records && run[k].records[id] == history[|history| - 1]
  {
    RunKeepsInv(run, steps, k);
    var history := run[k].stored[id];
    assert StoredOk(run[k].records, run[k].stored, id);
    assert EntryOk(id, history, i) && EntryOk(id, history, j);
    AttemptsCount(id, history, i);
    AttemptsCount(id, history, j);
    if history[i].state == Succeeded {
      SuccessStays(id, history, i, j);
    }
    DigestsDiffer(history[i], history[j]);
  }
}
