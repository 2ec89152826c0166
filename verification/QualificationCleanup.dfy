/** Cleaning up after a qualification run: one run acquires repositories, then
    cleanups, repeated, overlapping or interrupted, delete what it owns. */
module QualificationCleanup {
  import opened Basics

  type Id = string

  datatype ResourceState = Reserved | ForkPending | Owned | DeletePending | Deleted

  datatype Resource = Resource(state: ResourceState, repositoryId: Option<Id>, tokenIds: seq<Id>, retiredTokenIds: seq<Id>,
                               mintPending: bool, guardPending: bool)

  datatype Qualification = Running | Passed | Refused
  datatype Cleanup = Open | Confirmed | Required

  datatype Run = Run(qualification: Qualification, cleanup: Cleanup, resources: seq<Resource>)

  // -------------------------------------------------------------------------- ledger

  class QualificationLedger {
    var runs: map<Id, Run>

    constructor ()
      ensures runs == map[]
    {
      runs := map[];
    }

    /** Adds a run; one already there is never overwritten. */
    method Reserve(runId: Id, run: Run) returns (reserved: bool)
      modifies this
      ensures runs.Keys == old(runs).Keys + {runId}
      ensures forall id | id in old(runs) :: runs[id] == old(runs)[id]
      ensures reserved <==> runId !in old(runs)
      ensures reserved ==> runs[runId] == run
    {
      reserved := runId !in runs;
      if reserved {
        runs := runs[runId := run];
      }
    }

    method Read(runId: Id) returns (r: Option<Run>)
      ensures r == if runId in runs then Some(runs[runId]) else None
    {
      r := if runId in runs then Some(runs[runId]) else None;
    }

    /** Applies an update that may throw; then nothing changes. */
    method Change(runId: Id, update: Run -> Option<Run>) returns (changed: bool)
      modifies this
      ensures runs.Keys == old(runs).Keys
      ensures forall id | id in runs && id != runId :: runs[id] == old(runs)[id]
      ensures changed <==> runId in old(runs) && update(old(runs)[runId]).Some?
      ensures changed ==> update(old(runs)[runId]) == Some(runs[runId])
      ensures !changed ==> runs == old(runs)
    {
      if runId !in runs || update(runs[runId]).None? {
        return false;
      }
      runs := runs[runId := update(runs[runId]).value];
      changed := true;
    }
  }

  // -------------------------------------------------------------------------- actors

  /** The acquiring run is sequential: idle, waiting for one provider call, or over. */
  datatype Acquirer = Idle | ForkCalled(i: nat) | MintCalled(i: nat) | Over

  /** What a cleanup is doing with one resource. */
  datatype Stage =
    | Getting
    | Revoking(ids: seq<Id>)
    | Listing
    | RevokingActive(ids: seq<Id>)
    | Relisting
    | Deleting

  /** A cleanup at one of its awaits; `snapshot` is what it read at its start. */
  datatype Worker =
    | Authorizing(snapshot: seq<Resource>)
    | Looping(snapshot: seq<Resource>, i: nat, confirmed: bool, stage: Stage)

  /** `deletions` lists the guarded deletions called: the resource, and the
      tokens recorded for it at that moment. */
  datatype Deletion = Deletion(i: nat, tokenIds: seq<Id>)
  datatype World = World(run: Run, acquirer: Acquirer, forked: set<nat>, workers: map<nat, Worker>, deletions: seq<Deletion>)

  function Retired(r: Resource, id: Id): Resource {
    r.(tokenIds := Without(r.tokenIds, id),
       retiredTokenIds := if id in r.retiredTokenIds then r.retiredTokenIds else r.retiredTokenIds + [id])
  }

  function AllRetired(r: Resource, ids: seq<Id>): (t: Resource)
    ensures t.state == r.state && t.mintPending == r.mintPending
    ensures forall id :: id in t.tokenIds <==> id in r.tokenIds && id !in ids
    decreases |ids|
  {
    if ids == [] then r else AllRetired(Retired(r, ids[0]), ids[1..])
  }

  function Noted(r: Resource, id: Id): Resource {
    if id in r.tokenIds then r else r.(tokenIds := r.tokenIds + [id])
  }

  function SetResource(w: World, i: nat, r: Resource): World
    requires i < |w.run.resources|
  {
    w.(run := w.run.(resources := w.run.resources[i := r]))
  }

  function SetCleanup(w: World, cleanup: Cleanup): World {
    w.(run := w.run.(cleanup := cleanup))
  }

  function End(w: World, n: nat): World {
    w.(workers := w.workers - {n})
  }

  function Wait(w: World, n: nat, worker: Worker): World {
    w.(workers := w.workers[n := worker])
  }

  /** On to the next resource that needs work, or to the verdict. */
  function Advance(w: World, n: nat, snapshot: seq<Resource>, i: nat, confirmed: bool): World
    requires i <= |snapshot|
    decreases |snapshot| - i
  {
    if i == |snapshot| then End(SetCleanup(w, if confirmed then Confirmed else Required), n)
    else
      var r := snapshot[i];
      if r.state == Reserved || r.state == Deleted then Advance(w, n, snapshot, i + 1, confirmed)
      else if r.state == DeletePending || r.repositoryId.None? then Advance(w, n, snapshot, i + 1, false)
      else Wait(w, n, Looping(snapshot, i, confirmed, Getting))
  }

  /** This resource's cleanup failed; the others are still tried. */
  function Fail(w: World, n: nat, worker: Worker): World
    requires worker.Looping? && worker.i < |worker.snapshot|
  {
    Advance(w, n, worker.snapshot, worker.i + 1, false)
  }

  function AtStage(w: World, n: nat, worker: Worker, stage: Stage): World
    requires worker.Looping?
  {
    Wait(w, n, worker.(stage := stage))
  }

  /** The listing shows no active token: settle the token records and, if none is
      left, mark the deletion and call it. All of it is one synchronous stretch. */
  function Settle(w: World, n: nat, worker: Worker, guarded: bool): World
    requires worker.Looping? && worker.i < |worker.snapshot| && worker.i < |w.run.resources|
  {
    var i := worker.i;
    var r := AllRetired(w.run.resources[i], worker.snapshot[i].tokenIds);
    if r.tokenIds != [] || r.mintPending != worker.snapshot[i].mintPending then Fail(SetResource(w, i, r), n, worker)
    else
      var settled := r.(mintPending := false);
      if !guarded || settled.state != Owned then Fail(SetResource(w, i, settled), n, worker)
      else
        AtStage(SetResource(w, i, settled.(state := DeletePending)).(deletions := w.deletions + [Deletion(i, settled.tokenIds)]), n, worker, Deleting)
  }

  datatype Step =
    | ForkCall(i: nat)
    | ForkReply(newId: Id)
    | MintCall(i: nat)
    | MintReply(id: Option<Id>)
    | AcquirerRevokes(i: nat, tokenId: Id)
    | AcquirerEnds(result: Option<Qualification>)
    | GuardSettled(i: nat)
    | PublicWhileRunning
    | BeginCleanup(n: nat)
    | Authorized(n: nat, granted: bool)
    | Got(n: nat, same: bool)
    | RevokeReply(n: nat, retired: bool)
    | Listed(n: nat, active: Option<seq<Id>>)
    | ActiveReply(n: nat, retired: bool)
    | Relisted(n: nat, active: Option<seq<Id>>, guarded: bool)
    | DeleteReply(n: nat, deleted: bool)
    | Abort(n: nat, custody: bool)

  /** The cleanup is at this stage of a resource it read. */
  predicate At(w: World, n: nat) {
    && n in w.workers && w.workers[n].Looping?
    && w.workers[n].i < |w.workers[n].snapshot| && w.workers[n].i < |w.run.resources|
  }

  predicate Next(w: World, step: Step, w': World) {
    match step
    case ForkCall(i) => // each selection is forked at most once
      && w.acquirer == Idle && i < |w.run.resources| && i !in w.forked
      && w' == SetResource(w, i, w.run.resources[i].(state := ForkPending, guardPending := true)).(acquirer := ForkCalled(i), forked := w.forked + {i})
    case ForkReply(newId) =>
      && w.acquirer.ForkCalled? && w.acquirer.i < |w.run.resources|
      && w' == SetResource(w, w.acquirer.i, w.run.resources[w.acquirer.i].(repositoryId := Some(newId), state := Owned)).(acquirer := Idle)
    case MintCall(i) =>
      && w.acquirer == Idle && i < |w.run.resources|
      && w' == SetResource(w, i, w.run.resources[i].(mintPending := true, guardPending := true)).(acquirer := MintCalled(i))
    case MintReply(id) =>
      && w.acquirer.MintCalled? && w.acquirer.i < |w.run.resources|
      && var i := w.acquirer.i;
      var r := w.run.resources[i];
      w' == SetResource(w, i, if id.Some? then r.(tokenIds := r.tokenIds + [id.value], mintPending := false) else r.(guardPending := false)).(acquirer := Idle)
    case AcquirerRevokes(i, tokenId) =>
      w.acquirer == Idle && i < |w.run.resources| && w' == SetResource(w, i, Retired(w.run.resources[i], tokenId))
    case AcquirerEnds(result) => // passed, blocked, or interrupted without a word
      && w.acquirer != Over && result != Some(Running)
      && w' == w.(acquirer := Over, run := if result.Some? then w.run.(qualification := result.value) else w.run)
    case GuardSettled(i) =>
      i < |w.run.resources| && w' == SetResource(w, i, w.run.resources[i].(guardPending := false))
    case PublicWhileRunning => // a running invocation is left to its own cleanup
      w.run.qualification == Running && w' == SetCleanup(w, Required)
    case BeginCleanup(n) =>
      n !in w.workers && w.acquirer == Over && w' == Wait(w, n, Authorizing(w.run.resources))
    case Authorized(n, granted) =>
      && n in w.workers && w.workers[n].Authorizing?
      && w' == if !granted || exists r | r in w.run.resources :: r.guardPending then End(SetCleanup(w, Required), n)
               else Advance(w, n, w.workers[n].snapshot, 0, true)
    case Got(n, same) =>
      && At(w, n) && w.workers[n].stage == Getting
      && var worker := w.workers[n];
      var ids := worker.snapshot[worker.i].tokenIds;
      w' == if !same then Fail(w, n, worker) else AtStage(w, n, worker, if ids == [] then Listing else Revoking(ids))
    case RevokeReply(n, retired) =>
      && At(w, n) && w.workers[n].stage.Revoking? && w.workers[n].stage.ids != []
      && var worker := w.workers[n];
      var ids := worker.stage.ids;
      var u := if retired then SetResource(w, worker.i, Retired(w.run.resources[worker.i], ids[0])) else w;
      w' == AtStage(u, n, worker, if |ids| == 1 then Listing else Revoking(ids[1..]))
    case Listed(n, active) =>
      && At(w, n) && w.workers[n].stage == Listing
      && var worker := w.workers[n];
      w' == if active.None? then Fail(w, n, worker)
            else if active.value == [] then AtStage(w, n, worker, Relisting)
            else AtStage(SetResource(w, worker.i, Noted(w.run.resources[worker.i], active.value[0])), n, worker, RevokingActive(active.value))
    case ActiveReply(n, retired) =>
      && At(w, n) && w.workers[n].stage.RevokingActive? && w.workers[n].stage.ids != []
      && var worker := w.workers[n];
      var ids := worker.stage.ids;
      var r := Retired(w.run.resources[worker.i], ids[0]);
      w' == if !retired then Fail(w, n, worker)
            else if |ids| == 1 then AtStage(SetResource(w, worker.i, r), n, worker, Relisting)
            else AtStage(SetResource(w, worker.i, Noted(r, ids[1])), n, worker, RevokingActive(ids[1..]))
    case Relisted(n, active, guarded) =>
      && At(w, n) && w.workers[n].stage == Relisting
      && w' == if active != Some([]) then Fail(w, n, w.workers[n]) else Settle(w, n, w.workers[n], guarded)
    case DeleteReply(n, deleted) =>
      && At(w, n) && w.workers[n].stage == Deleting
      && var worker := w.workers[n];
      w' == if deleted then Advance(SetResource(w, worker.i, w.run.resources[worker.i].(state := Deleted)), n, worker.snapshot, worker.i + 1, worker.confirmed)
            else Fail(w, n, worker)
    case Abort(n, custody) => // the ledger failed, or the process died
      n in w.workers && w' == End(if custody then SetCleanup(w, Required) else w, n)
  }

  predicate Init(w: World) {
    && w.run.qualification == Running && w.run.cleanup == Open && w.acquirer == Idle && w.forked == {}
    && w.workers == map[] && w.deletions == []
    && forall r | r in w.run.resources :: r == Resource(Reserved, None, [], [], false, false)
  }

  // ---------------------------------------------------------------------- invariant

  function Rank(s: ResourceState): nat {
    match s
    case Reserved => 0 case ForkPending => 1 case Owned => 2 case DeletePending => 3 case Deleted => 4
  }

  predicate Gone(r: Resource) {
    r.state == Reserved || r.state == Deleted
  }

  /** Once acquiring is over, what was reserved stays so and states only rise. */
  predicate Later(r: Resource, r': Resource) {
    Rank(r.state) <= Rank(r'.state) && (r.state == Reserved ==> r'.state == Reserved)
  }

  predicate SnapshotOk(snapshot: seq<Resource>, resources: seq<Resource>) {
    |snapshot| == |resources| && forall j | 0 <= j < |resources| :: Later(snapshot[j], resources[j])
  }

  predicate WorkerOk(resources: seq<Resource>, worker: Worker) {
    && SnapshotOk(worker.snapshot, resources)
    && (worker.Looping? ==>
          && worker.i < |resources|
          && (worker.confirmed ==> forall j | 0 <= j < worker.i :: Gone(resources[j]))
          && !Gone(worker.snapshot[worker.i])
          && (worker.stage == Deleting ==> Rank(resources[worker.i].state) >= Rank(DeletePending)))
  }

  predicate AcquirerOk(w: World) {
    && (w.acquirer.ForkCalled? ==> w.acquirer.i < |w.run.resources| && w.run.resources[w.acquirer.i].state == ForkPending)
    && (w.acquirer != Over ==> forall j | 0 <= j < |w.run.resources| :: Rank(w.run.resources[j].state) <= Rank(Owned))
    && (forall j | 0 <= j < |w.run.resources| && w.run.resources[j].state != Reserved :: j in w.forked)
  }

  predicate DeletionsOk(resources: seq<Resource>, deletions: seq<Deletion>) {
    && (forall d | d in deletions :: d.i < |resources| && d.tokenIds == [] && Rank(resources[d.i].state) >= Rank(DeletePending))
    && forall j, k | 0 <= j < k < |deletions| :: deletions[j].i != deletions[k].i
  }

  predicate Inv(w: World) {
    && AcquirerOk(w)
    && DeletionsOk(w.run.resources, w.deletions)
    && (w.workers != map[] || w.run.cleanup == Confirmed ==> w.acquirer == Over)
    && (forall n | n in w.workers :: WorkerOk(w.run.resources, w.workers[n]))
    && (w.run.cleanup == Confirmed ==> forall r | r in w.run.resources :: Gone(r))
  }

  // ----------------------------------------------------------------------- every step

  /** A record update that leaves the state, or moves it towards deletion. */
  predicate Forward(r: Resource, r': Resource) {
    Later(r, r') && (Gone(r) ==> Gone(r'))
  }

  lemma ForwardKeepsWorker(resources: seq<Resource>, i: nat, r: Resource, worker: Worker)
    requires i < |resources| && Forward(resources[i], r) && WorkerOk(resources, worker)
    ensures WorkerOk(resources[i := r], worker)
  {
  }

  lemma SetKeeps(w: World, i: nat, r: Resource)
    requires Inv(w) && w.acquirer == Over && i < |w.run.resources| && Forward(w.run.resources[i], r)
    ensures Inv(SetResource(w, i, r))
  {
    var u := SetResource(w, i, r);
    forall n | n in u.workers
      ensures WorkerOk(u.run.resources, u.workers[n])
    {
      ForwardKeepsWorker(w.run.resources, i, r, w.workers[n]);
    }
    forall j | 0 <= j < |u.run.resources| && u.run.resources[j].state != Reserved
      ensures j in u.forked
    {
      assert w.run.resources[j].state != Reserved;
    }
  }

  lemma WaitKeeps(w: World, n: nat, worker: Worker)
    requires Inv(w) && w.acquirer == Over && WorkerOk(w.run.resources, worker)
    ensures Inv(Wait(w, n, worker))
  {
  }

  lemma EndKeeps(w: World, n: nat)
    requires Inv(w)
    ensures Inv(End(w, n))
  {
  }

  lemma CleanupKeeps(w: World, cleanup: Cleanup)
    requires Inv(w)
    requires cleanup == Confirmed ==> w.acquirer == Over && forall r | r in w.run.resources :: Gone(r)
    ensures Inv(SetCleanup(w, cleanup))
  {
    var u := SetCleanup(w, cleanup);
    assert u.run.resources == w.run.resources;
  }

  /** The verdict is confirmed only when every resource is reserved or deleted. */
  lemma {:induction false} AdvanceKeeps(w: World, n: nat, snapshot: seq<Resource>, i: nat, confirmed: bool)
    requires Inv(w) && w.acquirer == Over && SnapshotOk(snapshot, w.run.resources) && i <= |snapshot|
    requires confirmed ==> forall j | 0 <= j < i :: Gone(w.run.resources[j])
    ensures Inv(Advance(w, n, snapshot, i, confirmed))
    decreases |snapshot| - i
  {
    if i == |snapshot| {
      CleanupKeeps(w, if confirmed then Confirmed else Required);
      EndKeeps(SetCleanup(w, if confirmed then Confirmed else Required), n);
    } else {
      var r := snapshot[i];
      assert Later(r, w.run.resources[i]);
      if r.state == Reserved || r.state == Deleted {
        AdvanceKeeps(w, n, snapshot, i + 1, confirmed);
      } else if r.state == DeletePending || r.repositoryId.None? {
        AdvanceKeeps(w, n, snapshot, i + 1, false);
      } else {
        WaitKeeps(w, n, Looping(snapshot, i, confirmed, Getting));
      }
    }
  }

  lemma FailKeeps(w: World, n: nat, worker: Worker)
    requires Inv(w) && w.acquirer == Over && worker.Looping? && WorkerOk(w.run.resources, worker)
    ensures Inv(Fail(w, n, worker))
  {
    AdvanceKeeps(w, n, worker.snapshot, worker.i + 1, false);
  }

  lemma StageKeeps(w: World, n: nat, worker: Worker, stage: Stage)
    requires Inv(w) && w.acquirer == Over && worker.Looping? && WorkerOk(w.run.resources, worker)
    requires stage == Deleting ==> Rank(w.run.resources[worker.i].state) >= Rank(DeletePending)
    ensures Inv(AtStage(w, n, worker, stage))
  {
    WaitKeeps(w, n, worker.(stage := stage));
  }

  /** A record update by a worker, and its next stage. */
  lemma UpdateKeeps(w: World, n: nat, r: Resource, stage: Stage)
    requires Inv(w) && At(w, n) && stage != Deleting
    requires r.state == w.run.resources[w.workers[n].i].state
    ensures Inv(AtStage(SetResource(w, w.workers[n].i, r), n, w.workers[n], stage))
  {
    var worker := w.workers[n];
    SetKeeps(w, worker.i, r);
    ForwardKeepsWorker(w.run.resources, worker.i, r, worker);
    StageKeeps(SetResource(w, worker.i, r), n, worker, stage);
  }

  /** The deletion is marked before it is called: a resource already marked, or
      one that still lists a token, is never deleted again. */
  lemma SettleKeeps(w: World, n: nat, guarded: bool)
    requires Inv(w) && At(w, n)
    ensures Inv(Settle(w, n, w.workers[n], guarded))
  {
    var worker := w.workers[n];
    var i := worker.i;
    var r := AllRetired(w.run.resources[i], worker.snapshot[i].tokenIds);
    var settled := r.(mintPending := false);
    if r.tokenIds != [] || r.mintPending != worker.snapshot[i].mintPending {
      SetKeeps(w, i, r);
      ForwardKeepsWorker(w.run.resources, i, r, worker);
      FailKeeps(SetResource(w, i, r), n, worker);
    } else if !guarded || settled.state != Owned {
      SetKeeps(w, i, settled);
      ForwardKeepsWorker(w.run.resources, i, settled, worker);
      FailKeeps(SetResource(w, i, settled), n, worker);
    } else {
      var marked := settled.(state := DeletePending);
      var u := SetResource(w, i, marked);
      SetKeeps(w, i, marked);
      ForwardKeepsWorker(w.run.resources, i, marked, worker);
      DeleteKeeps(w, u, Deletion(i, settled.tokenIds));
      StageKeeps(u.(deletions := w.deletions + [Deletion(i, settled.tokenIds)]), n, worker, Deleting);
    }
  }

  lemma DeleteKeeps(w: World, u: World, d: Deletion)
    requires Inv(w) && Inv(u) && u.deletions == w.deletions && |u.run.resources| == |w.run.resources|
    requires d.i < |w.run.resources| && d.tokenIds == [] && w.run.resources[d.i].state == Owned && u.run.resources[d.i].state == DeletePending
    ensures Inv(u.(deletions := w.deletions + [d]))
  {
    var all := w.deletions + [d];
    forall j, k | 0 <= j < k < |all|
      ensures all[j].i != all[k].i
    {
      if k == |w.deletions| {
        assert w.deletions[j] in w.deletions;
      }
    }
  }

  lemma AcquireKeeps(w: World, step: Step, w': World)
    requires Inv(w) && Next(w, step, w')
    requires step.ForkCall? || step.ForkReply? || step.MintCall? || step.MintReply? || step.AcquirerRevokes? || step.AcquirerEnds?
    ensures Inv(w')
  {
  }

  lemma GuardKeeps(w: World, i: nat, w': World)
    requires Inv(w) && Next(w, GuardSettled(i), w')
    ensures Inv(w')
  {
    if w.acquirer == Over {
      SetKeeps(w, i, w.run.resources[i].(guardPending := false));
    }
  }

  lemma BeginKeeps(w: World, step: Step, w': World)
    requires Inv(w) && Next(w, step, w') && (step.PublicWhileRunning? || step.BeginCleanup? || step.Authorized? || step.Abort?)
    ensures Inv(w')
  {
    match step
    case PublicWhileRunning => CleanupKeeps(w, Required);
    case BeginCleanup(n) => WaitKeeps(w, n, Authorizing(w.run.resources));
    case Authorized(n, granted) =>
      if !granted || exists r | r in w.run.resources :: r.guardPending {
        CleanupKeeps(w, Required);
        EndKeeps(SetCleanup(w, Required), n);
      } else {
        AdvanceKeeps(w, n, w.workers[n].snapshot, 0, true);
      }
    case Abort(n, custody) =>
      CleanupKeeps(w, Required);
      EndKeeps(if custody then SetCleanup(w, Required) else w, n);
    case _ =>
  }

  lemma RevokeKeeps(w: World, step: Step, w': World)
    requires Inv(w) && Next(w, step, w') && (step.Got? || step.RevokeReply? || step.Listed? || step.ActiveReply?)
    ensures Inv(w')
  {
    var n := step.n;
    var worker := w.workers[n];
    var r := w.run.resources[worker.i];
    match step
    case Got(_, same) =>
      FailKeeps(w, n, worker);
      StageKeeps(w, n, worker, if worker.snapshot[worker.i].tokenIds == [] then Listing else Revoking(worker.snapshot[worker.i].tokenIds));
    case RevokeReply(_, retired) =>
      var ids := worker.stage.ids;
      var stage := if |ids| == 1 then Listing else Revoking(ids[1..]);
      UpdateKeeps(w, n, Retired(r, ids[0]), stage);
      StageKeeps(w, n, worker, stage);
    case Listed(_, active) =>
      FailKeeps(w, n, worker);
      StageKeeps(w, n, worker, Relisting);
      if active.Some? && active.value != [] {
        UpdateKeeps(w, n, Noted(r, active.value[0]), RevokingActive(active.value));
      }
    case ActiveReply(_, retired) =>
      var ids := worker.stage.ids;
      var struck := Retired(r, ids[0]);
      FailKeeps(w, n, worker);
      UpdateKeeps(w, n, struck, Relisting);
      if |ids| > 1 {
        UpdateKeeps(w, n, Noted(struck, ids[1]), RevokingActive(ids[1..]));
      }
    case _ =>
  }

  lemma RelistedKeeps(w: World, n: nat, active: Option<seq<Id>>, guarded: bool, w': World)
    requires Inv(w) && Next(w, Relisted(n, active, guarded), w')
    ensures Inv(w')
  {
    FailKeeps(w, n, w.workers[n]);
    SettleKeeps(w, n, guarded);
  }

  lemma {:induction false} DoneKeeps(w: World, n: nat)
    requires Inv(w) && At(w, n) && w.workers[n].stage == Deleting
    ensures var worker := w.workers[n];
            var u := SetResource(w, worker.i, w.run.resources[worker.i].(state := Deleted));
            Inv(Advance(u, n, worker.snapshot, worker.i + 1, worker.confirmed))
  {
    var worker := w.workers[n];
    var r := w.run.resources[worker.i].(state := Deleted);
    assert WorkerOk(w.run.resources, worker);
    SetKeeps(w, worker.i, r);
    ForwardKeepsWorker(w.run.resources, worker.i, r, worker);
    AdvanceKeeps(SetResource(w, worker.i, r), n, worker.snapshot, worker.i + 1, worker.confirmed);
  }

  lemma DeletedKeeps(w: World, n: nat, deleted: bool, w': World)
    requires Inv(w) && Next(w, DeleteReply(n, deleted), w')
    ensures Inv(w')
  {
    var worker := w.workers[n];
    if deleted {
      DoneKeeps(w, n);
    } else {
      FailKeeps(w, n, worker);
    }
  }

  lemma NextKeepsInv(w: World, step: Step, w': World)
    requires Inv(w) && Next(w, step, w')
    ensures Inv(w')
  {
    if step.ForkCall? || step.ForkReply? || step.MintCall? || step.MintReply? || step.AcquirerRevokes? || step.AcquirerEnds? {
      AcquireKeeps(w, step, w');
    } else if step.GuardSettled? {
      GuardKeeps(w, step.i, w');
    } else if step.PublicWhileRunning? || step.BeginCleanup? || step.Authorized? || step.Abort? {
      BeginKeeps(w, step, w');
    } else if step.Relisted? {
      RelistedKeeps(w, step.n, step.active, step.guarded, w');
    } else if step.DeleteReply? {
      DeletedKeeps(w, step.n, step.deleted, w');
    } else {
      RevokeKeeps(w, step, w');
    }
  }

  /** No step takes a resource back to an earlier state. */
  predicate Risen(w: World, w': World) {
    && |w'.run.resources| == |w.run.resources|
    && forall i | 0 <= i < |w.run.resources| :: Rank(w.run.resources[i].state) <= Rank(w'.run.resources[i].state)
  }

  lemma {:induction false} AdvanceRecords(w: World, n: nat, snapshot: seq<Resource>, i: nat, confirmed: bool)
    requires i <= |snapshot|
    ensures Advance(w, n, snapshot, i, confirmed).run.resources == w.run.resources
    ensures Advance(w, n, snapshot, i, confirmed).deletions == w.deletions
    decreases |snapshot| - i
  {
    if i < |snapshot| {
      AdvanceRecords(w, n, snapshot, i + 1, confirmed);
      AdvanceRecords(w, n, snapshot, i + 1, false);
    }
  }

  lemma SettleRises(w: World, n: nat, guarded: bool)
    requires At(w, n)
    ensures Risen(w, Settle(w, n, w.workers[n], guarded))
  {
    var worker := w.workers[n];
    var i := worker.i;
    var r := AllRetired(w.run.resources[i], worker.snapshot[i].tokenIds);
    AdvanceRecords(SetResource(w, i, r), n, worker.snapshot, i + 1, false);
    AdvanceRecords(SetResource(w, i, r.(mintPending := false)), n, worker.snapshot, i + 1, false);
  }

  lemma RelistedRises(w: World, n: nat, active: Option<seq<Id>>, guarded: bool, w': World)
    requires Next(w, Relisted(n, active, guarded), w')
    ensures Risen(w, w')
  {
    var worker := w.workers[n];
    AdvanceRecords(w, n, worker.snapshot, worker.i + 1, false);
    SettleRises(w, n, guarded);
  }

  lemma DeletedRises(w: World, n: nat, deleted: bool, w': World)
    requires Next(w, DeleteReply(n, deleted), w')
    ensures Risen(w, w')
  {
    var worker := w.workers[n];
    AdvanceRecords(w, n, worker.snapshot, worker.i + 1, false);
    AdvanceRecords(SetResource(w, worker.i, w.run.resources[worker.i].(state := Deleted)), n, worker.snapshot, worker.i + 1, worker.confirmed);
  }

  lemma RevokeRises(w: World, step: Step, w': World)
    requires Next(w, step, w') && (step.Got? || step.Listed? || step.ActiveReply?)
    ensures Risen(w, w')
  {
    var worker := w.workers[step.n];
    AdvanceRecords(w, step.n, worker.snapshot, worker.i + 1, false);
  }

  lemma NextRises(w: World, step: Step, w': World)
    requires Inv(w) && Next(w, step, w')
    ensures Risen(w, w')
  {
    if step.Authorized? {
      AdvanceRecords(w, step.n, w.workers[step.n].snapshot, 0, true);
    } else if step.Got? || step.Listed? || step.ActiveReply? {
      RevokeRises(w, step, w');
    } else if step.Relisted? {
      RelistedRises(w, step.n, step.active, step.guarded, w');
    } else if step.DeleteReply? {
      DeletedRises(w, step.n, step.deleted, w');
    }
  }

  // ----------------------------------------------------------------------------- runs

  ghost predicate IsRun(run: seq<World>, steps: seq<Step>) {
    && |run| == |steps| + 1
    && Init(run[0])
    && forall i {:trigger Follows(run, steps, i)} | 0 <= i < |steps| :: Follows(run, steps, i)
  }

  predicate Follows(run: seq<World>, steps: seq<Step>, i: nat)
    requires i < |steps| && |run| == |steps| + 1
  {
    Next(run[i], steps[i], run[i + 1])
  }

  lemma InitKeeps(w: World)
    requires Init(w)
    ensures Inv(w)
  {
    assert forall j | 0 <= j < |w.run.resources| :: w.run.resources[j] in w.run.resources;
  }

  lemma {:induction false} RunKeepsInv(run: seq<World>, steps: seq<Step>, k: nat)
    requires IsRun(run, steps) && k < |run|
    ensures Inv(run[k])
  {
    if k > 0 {
      RunKeepsInv(run, steps, k - 1);
      assert Follows(run, steps, k - 1);
      NextKeepsInv(run[k - 1], steps[k - 1], run[k]);
    } else {
      InitKeeps(run[0]);
    }
  }

  /** Over all cleanups the guarded deletion is called at most once for a
      resource, and only when no token is recorded for it. */
  lemma DeletedOnce(run: seq<World>, steps: seq<Step>, k: nat, j: nat, l: nat)
    requires IsRun(run, steps) && k < |run| && j <= l < |run[k].deletions|
    ensures run[k].deletions[j].tokenIds == []
    ensures run[k].deletions[j].i == run[k].deletions[l].i ==> j == l
  {
    RunKeepsInv(run, steps, k);
    assert run[k].deletions[j] in run[k].deletions;
  }

  lemma {:induction false} StatesOnlyRise(run: seq<World>, steps: seq<Step>, j: nat, k: nat)
    requires IsRun(run, steps) && j <= k < |run|
    ensures Risen(run[j], run[k])
  {
    if j < k {
      StatesOnlyRise(run, steps, j, k - 1);
      RunKeepsInv(run, steps, k - 1);
      assert Follows(run, steps, k - 1);
      NextRises(run[k - 1], steps[k - 1], run[k]);
    }
  }

  /** A confirmed cleanup left every resource reserved or deleted. */
  lemma ConfirmedMeansGone(run: seq<World>, steps: seq<Step>, k: nat, i: nat)
    requires IsRun(run, steps) && k < |run| && run[k].run.cleanup == Confirmed && i < |run[k].run.resources|
    ensures Gone(run[k].run.resources[i])
  {
    RunKeepsInv(run, steps, k);
    assert run[k].run.resources[i] in run[k].run.resources;
  }
}
