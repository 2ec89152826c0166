/** Landing and reconciliation as one protocol, split at every await: any number
    of reconcile workers and Landings run interleaved, may be killed at any
    await, and share their refs with other writers. */
module FencedLanding {
  import opened Basics
  import opened Authority
  import opened CohortLanding
  import opened CanonicalRefs

  // ---------------------------------------------------------------------- states

  /** What a finished round of probes is for. */
  datatype Duty = Completing | Rechecking | Selecting(previous: Snapshot, request: Request)

  /** A worker suspended at one of its awaits. `targets` are the bindings its
      loop runs over; `record` is the copy it loaded last. */
  datatype Worker =
    | Observing(c: Config, targets: seq<SelectedRef>, record: ProjectionRecord, i: nat, challenge: Id, reply: Option<Observation>)
    | Repairing(c: Config, targets: seq<SelectedRef>, record: ProjectionRecord, i: nat, before: Observation, challenge: Id)
    | Sealing(c: Config, targets: seq<SelectedRef>, record: ProjectionRecord, i: nat, before: Observation, challenge: Id)
    | Probing(c: Config, record: ProjectionRecord, i: nat, challenge: Id, reply: Option<Observation>, duty: Duty)
  {
    predicate Shaped() {
      if Probing? then i < |record.bindings| else i < |targets|
    }
  }

  /** One canonical selection and the epoch its Landing was given. */
  datatype Turn = Turn(revisionId: Id, epoch: nat)

  /** `sent` keeps every request ever put on the wire: it may arrive late, more
      than once, or never. `history` lists the canonical selections in order. */
  datatype Cluster = Cluster(
    authority: Snapshot, refs: map<Binding, RefState>, sent: set<RefRequest>, workers: map<nat, Worker>, history: seq<Turn>)

  /** Values a synchronous stretch obtains from outside: fresh ids, the policy's
      answer, the composition, and where a Landing result was found. */
  datatype Supply = Supply(
    recordId: Id, auditId: Id, secondAuditId: Id, challenge: Id, landingKey: Key, review: Review, minted: Minted, composed: map<Id, Oid>)

  /** What one synchronous stretch leaves: the stored snapshot, the next await
      if the worker reaches one, and a request if it sent one. */
  datatype Effect = Effect(authority: Snapshot, worker: Option<Worker>, request: Option<RefRequest>)

  function Halt(a: Snapshot): Effect {
    Effect(a, None, None)
  }

  // -------------------------------------------------------------- worker stretches

  ghost predicate SelectionCommits(a: Snapshot, p: Id, previous: Snapshot, request: Request, env: Supply) {
    && HasCanonical(previous, p)
    && Selectable(previous, p, request, env.review)
    && IsComposition(CanonicalRevision(previous, p).snapshots, Revisions(previous, request.members), env.composed)
    && FenceOpen(a, previous, Selection(previous, p, request, env.review.policyVersion, env.minted, env.composed))
  }

  ghost function CommitOrHalt(a: Snapshot, p: Id, previous: Snapshot, request: Request, env: Supply): Effect {
    if SelectionCommits(a, p, previous, request, env)
    then Halt(Selection(previous, p, request, env.review.policyVersion, env.minted, env.composed))
    else Halt(a)
  }

  ghost function Conclude(a: Snapshot, c: Config, record: ProjectionRecord, duty: Duty, env: Supply): (e: Effect)
    ensures e.worker.Some? ==> e.worker.value.c == c
  {
    match duty
    case Rechecking => Halt(a)
    case Selecting(previous, request) => CommitOrHalt(a, c.projectId, previous, request, env)
    case Completing =>
      var saved := Save(a, record.(state := Complete), CompletePhase, None, env.auditId);
      if saved.Written? then Halt(saved.next) else Halt(a)
  }

  ghost function ProbeNext(a: Snapshot, c: Config, record: ProjectionRecord, i: nat, duty: Duty, env: Supply): (e: Effect)
    requires i <= |record.bindings|
    ensures e.worker.Some? ==> e.worker.value.c == c
  {
    if i == |record.bindings| then Conclude(a, c, record, duty, env)
    else if SealedOnRecord(c, record, i) then Effect(a, Some(Probing(c, record, i, env.challenge, None, duty)), None)
    else Halt(a)
  }

  ghost function StartProbing(a: Snapshot, c: Config, record: ProjectionRecord, duty: Duty, env: Supply): (e: Effect)
    ensures e.worker.Some? ==> e.worker.value.c == c
  {
    if |record.sealed| != |record.bindings| then Halt(a) else ProbeNext(a, c, record, 0, duty, env)
  }

  /** The top of the loop: reload the record, then observe the next target, or
      start the completing probes once none is left. */
  ghost function NextTarget(a: Snapshot, c: Config, targets: seq<SelectedRef>, i: nat, env: Supply): (e: Effect)
    requires i <= |targets|
    ensures e.worker.Some? ==> e.worker.value.c == c
  {
    match CurrentRecord(a, c)
    case None => Halt(a)
    case Some(record) =>
      if i < |targets|
      then Effect(a, Some(Observing(c, targets, record, i, env.challenge, None)), None)
      else StartProbing(a, c, record, Completing, env)
  }

  ghost function SaveSeal(a: Snapshot, c: Config, targets: seq<SelectedRef>, record: ProjectionRecord, i: nat, v: Observation, env: Supply): (e: Effect)
    requires i < |targets|
    ensures e.worker.Some? ==> e.worker.value.c == c
  {
    match Save(a, record, SealedPhase(targets[i].binding.space), Some(v.generation), env.auditId)
    case Halted => Halt(a)
    case Replay => NextTarget(a, c, targets, i + 1, env)
    case Written(next) => NextTarget(next, c, targets, i + 1, env)
  }

  ghost function RecordSeal(a: Snapshot, c: Config, targets: seq<SelectedRef>, record: ProjectionRecord, i: nat, v: Observation, env: Supply): (e: Effect)
    requires i < |targets|
    ensures e.worker.Some? ==> e.worker.value.c == c
  {
    var space := targets[i].binding.space;
    if space in record.sealed && record.sealed[space].generation == v.generation && v.sealed then
      NextTarget(a, c, targets, i + 1, env)
    else
      SaveSeal(a, c, targets, record.(sealed := record.sealed[space := v]), i, v, env)
  }

  ghost function SealOrRecord(a: Snapshot, c: Config, targets: seq<SelectedRef>, record: ProjectionRecord, i: nat, v: Observation, env: Supply): (e: Effect)
    requires i < |targets|
    ensures e.worker.Some? ==> e.worker.value.c == c
  {
    if !Exact(v, record, targets[i]) then Halt(a)
    else if !v.sealed then
      Effect(a, Some(Sealing(c, targets, record, i, v, env.challenge)), Some(RequestFor(record, targets[i], v)))
    else RecordSeal(a, c, targets, record, i, v, env)
  }

  ghost function HandleObserve(a: Snapshot, w: Worker, env: Supply): (e: Effect)
    requires w.Observing? && w.Shaped() && w.reply.Some?
    ensures e.worker.Some? ==> e.worker.value.c == w.c
  {
    var target, v := w.targets[w.i], w.reply.value;
    if !ObservationBound(v, w.c, target.binding, w.challenge) || Competing(v, w.record, target) then Halt(a)
    else if v.epoch != w.record.epoch || v.oid != Some(target.desired) then
      Effect(a, Some(Repairing(w.c, w.targets, w.record, w.i, v, env.challenge)), Some(RequestFor(w.record, target, v)))
    else SealOrRecord(a, w.c, w.targets, w.record, w.i, v, env)
  }

  ghost function RecordRepair(a: Snapshot, c: Config, targets: seq<SelectedRef>, record: ProjectionRecord, i: nat, v: Observation, env: Supply): (e: Effect)
    requires i < |targets|
    ensures e.worker.Some? ==> e.worker.value.c == c
  {
    match Save(a, record, RepairedPhase(targets[i].binding.space), Some(v.generation), env.auditId)
    case Halted => Halt(a)
    case Replay => SealOrRecord(a, c, targets, record, i, v, env)
    case Written(next) => SealOrRecord(next, c, targets, record, i, v, env.(auditId := env.secondAuditId))
  }

  ghost function HandleRepair(a: Snapshot, w: Worker, v: Observation, env: Supply): (e: Effect)
    requires w.Repairing? && w.Shaped()
    ensures e.worker.Some? ==> e.worker.value.c == w.c
  {
    var target := w.targets[w.i];
    if !ObservationBound(v, w.c, target.binding, w.challenge) || !Exact(v, w.record, target) || v.generation <= w.before.generation
    then Halt(a)
    else RecordRepair(a, w.c, w.targets, w.record.(repaired := w.record.repaired[target.binding.space := v]), w.i, v, env)
  }

  ghost function HandleSeal(a: Snapshot, w: Worker, v: Observation, env: Supply): (e: Effect)
    requires w.Sealing? && w.Shaped()
    ensures e.worker.Some? ==> e.worker.value.c == w.c
  {
    var target := w.targets[w.i];
    if !ObservationBound(v, w.c, target.binding, w.challenge) || !Exact(v, w.record, target)
       || !v.sealed || v.generation <= w.before.generation
    then Halt(a)
    else RecordSeal(a, w.c, w.targets, w.record, w.i, v, env)
  }

  ghost function HandleProbe(a: Snapshot, w: Worker, env: Supply): (e: Effect)
    requires w.Probing? && w.Shaped() && w.reply.Some?
    ensures e.worker.Some? ==> e.worker.value.c == w.c
  {
    var target, v := w.record.bindings[w.i], w.reply.value;
    if !ObservationBound(v, w.c, target.binding, w.challenge) || !Exact(v, w.record, target) || !v.sealed
       || target.binding.space !in w.record.sealed || v.generation != w.record.sealed[target.binding.space].generation
    then Halt(a)
    else ProbeNext(a, w.c, w.record, w.i + 1, w.duty, env)
  }

  ghost function BeginRecord(a: Snapshot, c: Config, record: ProjectionRecord, env: Supply): (e: Effect)
    ensures e.worker.Some? ==> e.worker.value.c == c
  {
    match Save(a, record, BeginPhase, None, env.auditId)
    case Written(next) => EnterLoop(next, c, env.(auditId := env.secondAuditId))
    case _ => Halt(a)
  }

  /** Loads, begins a record when none exists for the selection, and enters the
      loop, or re-probes a record that is complete already. */
  ghost function StartReconcile(a: Snapshot, c: Config, env: Supply): (e: Effect)
    ensures e.worker.Some? ==> e.worker.value.c == c
  {
    if !Coverable(a, c) then Halt(a)
    else
      var revisionId := a.canonicalByProject[c.projectId];
      if c.projectId in a.projections && a.projections[c.projectId].projectRevisionId == revisionId then
        EnterLoop(a, c, env)
      else if !BeginsFrom(a, revisionId, env.landingKey) then
        Halt(a)
      else
        BeginRecord(a, c, NewRecord(a, c, env.landingKey, env.recordId), env)
  }

  ghost function EnterLoop(a: Snapshot, c: Config, env: Supply): (e: Effect)
    ensures e.worker.Some? ==> e.worker.value.c == c
  {
    match CurrentRecord(a, c)
    case None => Halt(a)
    case Some(record) =>
      if record.state == Complete then StartProbing(a, c, record, Rechecking, env)
      else NextTarget(a, c, record.bindings, 0, env)
  }

  /** A Landing request: the first one commits at once, a later one only after
      probing that the stored completion still holds. */
  ghost function StartLanding(a: Snapshot, c: Config, request: Request, env: Supply): (e: Effect)
    ensures e.worker.Some? ==> e.worker.value.c == c
  {
    match Admit(a, c.projectId, request)
    case Replayed(_) => Halt(a)
    case Refused(_) => Halt(a)
    case Admitted => CommitOrHalt(a, c.projectId, a, request, env)
    case Gated =>
      match CurrentRecord(a, c)
      case None => Halt(a)
      case Some(record) =>
        if record.state != Complete then Halt(a)
        else StartProbing(a, c, record, Selecting(a, request), env)
  }

  // ----------------------------------------------------------------------- steps

  datatype Step =
    | Reconcile(w: nat, c: Config, env: Supply)
    | Land(w: nat, c: Config, request: Request, env: Supply)
    | Answer(w: nat, receipt: string)
    | ObserveReply(w: nat, env: Supply)
    | ProbeReply(w: nat, env: Supply)
    | RepairReply(w: nat, v: Observation, env: Supply)
    | SealReply(w: nat, v: Observation, env: Supply)
    | Kill(w: nat)
    | ArriveRepair(q: RefRequest)
    | ArriveSeal(q: RefRequest)
    | OtherWriter(b: Binding, after: RefState)
    | OtherCommit(next: Snapshot)

  function LastTurn(history: seq<Turn>): Turn
    requires history != []
  {
    history[|history| - 1]
  }

  /** A later Authority commit that is not about this Project's selection: it
      may add records and change enrolment, but not what was recorded before. */
  predicate OtherCommitAllowed(p: Id, a: Snapshot, next: Snapshot) {
    && next.version == a.version + 1
    && (p in next.canonicalByProject <==> p in a.canonicalByProject)
    && (p in a.canonicalByProject ==> next.canonicalByProject[p] == a.canonicalByProject[p])
    && (p in next.projections <==> p in a.projections)
    && (p in a.projections ==> next.projections[p] == a.projections[p])
    && (forall id | id in a.projectRevisions :: id in next.projectRevisions && next.projectRevisions[id] == a.projectRevisions[id])
    && (forall id | id in a.changeRevisions :: id in next.changeRevisions && next.changeRevisions[id] == a.changeRevisions[id])
    && (forall key | key in a.idempotency :: key in next.idempotency && next.idempotency[key] == a.idempotency[key])
    && (forall key | key in next.idempotency && key !in a.idempotency ::
          next.idempotency[key].result.LandingResult? ==> next.idempotency[key].result.landing.projectId != p)
  }

  /** Ids obtained for a stretch are not in use. */
  predicate MintedFresh(a: Snapshot, env: Supply) {
    && env.minted.projectRevisionId !in a.projectRevisions
    && env.minted.landingId !in a.landings
  }

  predicate FreshFor(a: Snapshot, env: Supply) {
    && MintedFresh(a, env)
    && (forall key | key in a.idempotency :: key.CheckpointKey? ==> key.recordId != env.recordId)
  }

  function Settle(p: Id, s: Cluster, w: nat, e: Effect): Cluster {
    s.(authority := e.authority,
       workers := if e.worker.Some? then s.workers[w := e.worker.value] else s.workers - {w},
       sent := if e.request.Some? then s.sent + {e.request.value} else s.sent,
       history := if p in e.authority.canonicalByProject && p in s.authority.canonicalByProject
                     && e.authority.canonicalByProject[p] != s.authority.canonicalByProject[p]
                  then s.history + [Turn(e.authority.canonicalByProject[p], e.authority.version)]
                  else s.history)
  }

  /** The worker holds a suspended call that this step resumes. */
  predicate Resumes(s: Cluster, w: nat) {
    w in s.workers && s.workers[w].Shaped()
  }

  ghost predicate Next(p: Id, s: Cluster, step: Step, t: Cluster) {
    match step
    case Reconcile(w, c, env) =>
      w !in s.workers && c.projectId == p && FreshFor(s.authority, env) && t == Settle(p, s, w, StartReconcile(s.authority, c, env))
    case Land(w, c, request, env) =>
      w !in s.workers && c.projectId == p && FreshFor(s.authority, env) && t == Settle(p, s, w, StartLanding(s.authority, c, request, env))
    case Answer(w, receipt) => // an observation is honest: it reports the ref as it is at this moment
      && Resumes(s, w)
      && var worker := s.workers[w];
      && (worker.Observing? || worker.Probing?)
      && var binding := if worker.Observing? then worker.targets[worker.i].binding else worker.record.bindings[worker.i].binding;
      && binding in s.refs
      && t == s.(workers := s.workers[w := worker.(reply := Some(Report(s.refs[binding], worker.c, binding, worker.challenge, receipt)))])
    case ObserveReply(w, env) =>
      && Resumes(s, w) && s.workers[w].Observing? && s.workers[w].reply.Some? && FreshFor(s.authority, env)
      && t == Settle(p, s, w, HandleObserve(s.authority, s.workers[w], env))
    case ProbeReply(w, env) =>
      && Resumes(s, w) && s.workers[w].Probing? && s.workers[w].reply.Some? && FreshFor(s.authority, env)
      && t == Settle(p, s, w, HandleProbe(s.authority, s.workers[w], env))
    case RepairReply(w, v, env) => // whatever the provider answers
      && Resumes(s, w) && s.workers[w].Repairing? && FreshFor(s.authority, env)
      && t == Settle(p, s, w, HandleRepair(s.authority, s.workers[w], v, env))
    case SealReply(w, v, env) =>
      && Resumes(s, w) && s.workers[w].Sealing? && FreshFor(s.authority, env)
      && t == Settle(p, s, w, HandleSeal(s.authority, s.workers[w], v, env))
    case Kill(w) => t == s.(workers := s.workers - {w})
    case ArriveRepair(q) =>
      && q in s.sent && q.target.binding in s.refs && RepairAccepted(s.refs[q.target.binding], q)
      && t == s.(refs := s.refs[q.target.binding := Repaired(s.refs[q.target.binding], q)])
    case ArriveSeal(q) =>
      && q in s.sent && q.target.binding in s.refs && SealAccepted(s.refs[q.target.binding], q)
      && t == s.(refs := s.refs[q.target.binding := SealedRef(s.refs[q.target.binding])])
    case OtherWriter(b, after) => // epochs are issued by Landings only
      && b in s.refs && LegalWrite(s.refs[b], after)
      && s.history != [] && after.epoch <= LastTurn(s.history).epoch
      && t == s.(refs := s.refs[b := after])
    case OtherCommit(next) =>
      OtherCommitAllowed(p, s.authority, next) && t == s.(authority := next)
  }

  /** Before any Landing: an unlanded canonical revision and refs at epoch zero. */
  ghost predicate Init(p: Id, s: Cluster) {
    && p in s.authority.canonicalByProject
    && s.authority.canonicalByProject[p] in s.authority.projectRevisions
    && var root := s.authority.projectRevisions[s.authority.canonicalByProject[p]];
    && root.projectId == p && root.parent.None? && !HasLanded(root)
    && s.history == [Turn(s.authority.canonicalByProject[p], 0)]
    && p !in s.authority.projections
    && (forall key | key in s.authority.idempotency :: s.authority.idempotency[key].result.LandingResult? ==>
          s.authority.idempotency[key].result.landing.projectId != p)
    && (forall b | b in s.refs :: s.refs[b].epoch == 0)
    && s.sent == {} && s.workers == map[]
  }
}
