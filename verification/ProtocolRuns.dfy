/** Building runs of the protocol from their start: one worker's whole call, and
    a Landing, as steps that follow one another. */
module ProtocolRuns {
  import opened Basics
  import opened Authority
  import opened CohortLanding
  import opened CanonicalRefs
  import opened FencedLanding
  import opened LandingInvariants
  import opened FencedLandingSafety
  import opened RefLag
  import opened Reconciliation

  // ------------------------------------------------------------------ reaching states

  ghost predicate EndsIn(c: Config, run: seq<Cluster>, steps: seq<Step>, s: Cluster) {
    OwnRun(c.projectId, c, run, steps) && run[|steps|] == s
  }

  /** Some run of reconcilers with this configuration alone ends in the state. */
  ghost predicate Reached(c: Config, s: Cluster) {
    exists run: seq<Cluster>, steps: seq<Step> :: EndsIn(c, run, steps, s)
  }

  lemma ReachStart(c: Config, s: Cluster)
    requires LagInit(c.projectId, c, s)
    ensures Reached(c, s)
  {
    var run: seq<Cluster>, steps: seq<Step> := [s], [];
    assert EndsIn(c, run, steps, s);
  }

  lemma Reach(c: Config, s: Cluster, step: Step, t: Cluster)
    requires Reached(c, s) && Next(c.projectId, s, step, t) && OwnStep(c, step)
    ensures Reached(c, t)
  {
    var run, steps :| EndsIn(c, run, steps, s);
    var run', steps' := run + [t], steps + [step];
    forall i | 0 <= i < |steps'|
      ensures Next(c.projectId, run'[i], steps'[i], run'[i + 1]) && OwnStep(c, steps'[i])
    {
      if i < |steps| {
        assert run'[i] == run[i] && run'[i + 1] == run[i + 1] && steps'[i] == steps[i];
      }
    }
    assert EndsIn(c, run', steps', t);
  }

  /** An id longer than those in use. */
  lemma FreshId(used: set<Id>) returns (id: Id)
    ensures !Blank(id) && forall other | other in used :: |other| < |id|
    decreases |used|
  {
    if used == {} {
      id := "x";
      assert 'x' in id;
    } else {
      var u :| u in used;
      var shorter := FreshId(used - {u});
      id := u + shorter;
      var k :| k in shorter && !IsSpace(k);
      assert k in id;
    }
  }

  function RecordIds(a: Snapshot): set<Id> {
    set key | key in a.idempotency && key.CheckpointKey? :: key.recordId
  }

  lemma FreshSupply(a: Snapshot) returns (env: Supply)
    ensures FreshFor(a, env)
  {
    var id := FreshId(a.projectRevisions.Keys + a.landings.Keys + RecordIds(a));
    env := Supply(id, id, id, id, OtherKey(""), Deny, Minted(id, id, id), map[]);
    assert id !in a.projectRevisions.Keys + a.landings.Keys + RecordIds(a);
  }

  // ------------------------------------------------------------ what a call leaves alone

  /** The Authority but for its projections, its checkpoints and its audit. */
  predicate SameSelection(a: Snapshot, b: Snapshot) {
    b.version >= a.version && b == a.(version := b.version, projections := b.projections, idempotency := b.idempotency, audit := b.audit)
  }

  /** The other workers are where they were and nothing was selected. */
  predicate Kept(s: Cluster, t: Cluster, w: nat) {
    && SameSelection(s.authority, t.authority)
    && t.history == s.history && t.refs.Keys == s.refs.Keys
    && t.workers - {w} == s.workers - {w}
  }

  /** A target whose ref no writer has taken to the epoch yet. */
  predicate Behind(refs: map<Binding, RefState>, epoch: nat, target: SelectedRef) {
    && target.binding in refs
    && refs[target.binding].epoch < epoch
    && (refs[target.binding].oid == Some(target.base) || refs[target.binding].oid == Some(target.desired))
  }

  /** Where the loop is before its i-th target, or before its first probe. */
  function LoopWorker(c: Config, record: ProjectionRecord, i: nat, challenge: Id): Worker {
    if i < |record.bindings| then Observing(c, record.bindings, record, i, challenge, None)
    else Probing(c, record, 0, challenge, None, Completing)
  }

  /** The Authority's record and refs partway through a call that nobody else
      disturbs. */
  ghost predicate Partway(a: Snapshot, refs: map<Binding, RefState>, c: Config, i: nat) {
    && Going(a, refs, c) && ResultsKnown(a, c.projectId)
    && var record := a.projections[c.projectId];
    && record.epoch <= a.version && 0 < |record.bindings| && i <= |record.bindings|
    && (forall j | 0 <= j < i :: record.bindings[j].binding.space in record.sealed)
    && (forall j | i <= j < |record.bindings| :: Behind(refs, record.epoch, record.bindings[j]))
  }

  ghost predicate Stands(c: Config, s: Cluster, w: nat, i: nat, challenge: Id) {
    && Reached(c, s) && Partway(s.authority, s.refs, c, i)
    && w in s.workers && s.workers[w] == LoopWorker(c, s.authority.projections[c.projectId], i, challenge)
  }

  /** A worker whose loop is before its i-th target, or before its first probe. */
  ghost predicate AtTarget(c: Config, s: Cluster, w: nat, i: nat) {
    exists challenge :: Stands(c, s, w, i, challenge)
  }

  lemma Aside(workers: map<nat, Worker>, w: nat, worker: Worker)
    requires w !in workers
    ensures workers[w := worker] - {w} == workers
  {
  }

  lemma Twice(workers: map<nat, Worker>, w: nat, x: Worker, y: Worker)
    ensures workers[w := x][w := y] == workers[w := y]
  {
  }

  lemma Idle(workers: map<nat, Worker>, w: nat)
    requires w !in workers
    ensures workers - {w} == workers
  {
  }

  /** The earlier targets are listed, the later ones behind. */
  predicate Between(a: Snapshot, refs: map<Binding, RefState>, c: Config, i: nat)
    requires c.projectId in a.projections
  {
    var record := a.projections[c.projectId];
    && (forall j | 0 <= j < i && j < |record.bindings| :: record.bindings[j].binding.space in record.sealed)
    && (forall j | i < j < |record.bindings| :: Behind(refs, record.epoch, record.bindings[j]))
  }

  // -------------------------------------------------------------- steps of one iteration

  function AskedBinding(worker: Worker): Binding
    requires worker.Shaped() && (worker.Observing? || worker.Probing?)
  {
    if worker.Observing? then worker.targets[worker.i].binding else worker.record.bindings[worker.i].binding
  }

  /** The worker with its ref observed now. */
  function WithAnswer(s: Cluster, worker: Worker): Worker
    requires worker.Shaped() && (worker.Observing? || worker.Probing?) && AskedBinding(worker) in s.refs
  {
    worker.(reply := Some(Report(s.refs[AskedBinding(worker)], worker.c, AskedBinding(worker), worker.challenge, "observed")))
  }

  lemma AnswerStep(c: Config, s: Cluster, w: nat) returns (t: Cluster)
    requires Reached(c, s) && w in s.workers
    requires var worker := s.workers[w];
             worker.Shaped() && (worker.Observing? || worker.Probing?) && AskedBinding(worker) in s.refs
    ensures Reached(c, t) && t == s.(workers := s.workers[w := WithAnswer(s, s.workers[w])])
  {
    t := s.(workers := s.workers[w := WithAnswer(s, s.workers[w])]);
    Reach(c, s, Answer(w, "observed"), t);
  }

  /** The state once a stretch that selects nothing has settled. */
  function After(s: Cluster, w: nat, e: Effect): Cluster {
    s.(authority := e.authority,
       workers := if e.worker.Some? then s.workers[w := e.worker.value] else s.workers - {w},
       sent := if e.request.Some? then s.sent + {e.request.value} else s.sent)
  }

  lemma ObserveStep(c: Config, s: Cluster, w: nat, env: Supply)
    requires Reached(c, s) && w in s.workers && s.workers[w].Observing? && s.workers[w].Shaped() && s.workers[w].reply.Some?
    requires FreshFor(s.authority, env) && Quiet(s.authority, HandleObserve(s.authority, s.workers[w], env))
    ensures Reached(c, After(s, w, HandleObserve(s.authority, s.workers[w], env)))
  {
    Reach(c, s, ObserveReply(w, env), After(s, w, HandleObserve(s.authority, s.workers[w], env)));
  }

  lemma RepairStep(c: Config, s: Cluster, w: nat, v: Observation, env: Supply)
    requires Reached(c, s) && w in s.workers && s.workers[w].Repairing? && s.workers[w].Shaped()
    requires FreshFor(s.authority, env) && Quiet(s.authority, HandleRepair(s.authority, s.workers[w], v, env))
    ensures Reached(c, After(s, w, HandleRepair(s.authority, s.workers[w], v, env)))
  {
    Reach(c, s, RepairReply(w, v, env), After(s, w, HandleRepair(s.authority, s.workers[w], v, env)));
  }

  lemma SealStep(c: Config, s: Cluster, w: nat, v: Observation, env: Supply)
    requires Reached(c, s) && w in s.workers && s.workers[w].Sealing? && s.workers[w].Shaped()
    requires FreshFor(s.authority, env) && Quiet(s.authority, HandleSeal(s.authority, s.workers[w], v, env))
    ensures Reached(c, After(s, w, HandleSeal(s.authority, s.workers[w], v, env)))
  {
    Reach(c, s, SealReply(w, v, env), After(s, w, HandleSeal(s.authority, s.workers[w], v, env)));
  }

  lemma ProbeStep(c: Config, s: Cluster, w: nat, env: Supply)
    requires Reached(c, s) && w in s.workers && s.workers[w].Probing? && s.workers[w].Shaped() && s.workers[w].reply.Some?
    requires FreshFor(s.authority, env) && Quiet(s.authority, HandleProbe(s.authority, s.workers[w], env))
    ensures Reached(c, After(s, w, HandleProbe(s.authority, s.workers[w], env)))
  {
    Reach(c, s, ProbeReply(w, env), After(s, w, HandleProbe(s.authority, s.workers[w], env)));
  }

  /** The i-th target of the current record. */
  lemma TargetAt(a: Snapshot, refs: map<Binding, RefState>, c: Config, i: nat)
    requires Going(a, refs, c) && i < |c.bindings|
    ensures var record := a.projections[c.projectId];
            && record.bindings == Selected(a, c) && record.bindings[i] in record.bindings
            && record.bindings[i].binding == c.bindings[i] && c.bindings[i] in refs
            && IsOid(record.bindings[i].desired) && IsOid(record.bindings[i].base)
            && EntryFits(refs, c, record, record.bindings[i]) && CheckpointsFit(a, refs, record, record.bindings[i])
  {
    TargetOids(a, c, i);
  }

  /** What was seen of the i-th target. */
  function Seen(s: Cluster, c: Config, target: SelectedRef, challenge: Id): Observation
    requires target.binding in s.refs
  {
    Report(s.refs[target.binding], c, target.binding, challenge, "observed")
  }

  /** Observe a target that is behind, and send its repair. */
  lemma SendRepair(c: Config, s: Cluster, w: nat, i: nat, challenge: Id) returns (t: Cluster, next: Id)
    requires Stands(c, s, w, i, challenge) && i < |c.bindings|
    ensures Reached(c, t)
    ensures var record := s.authority.projections[c.projectId];
            && |record.bindings| == |c.bindings|
            && var target := record.bindings[i];
            && target.binding in s.refs
            && var seen := Seen(s, c, target, challenge);
            && t == s.(workers := s.workers[w := Repairing(c, record.bindings, record, i, seen, next)],
                       sent := s.sent + {RequestFor(record, target, seen)})
  {
    TargetAt(s.authority, s.refs, c, i);
    var env := FreshSupply(s.authority);
    next := env.challenge;
    var u := AnswerStep(c, s, w);
    var e := HandleObserve(s.authority, u.workers[w], env);
    ObserveStep(c, u, w, env);
    t := After(u, w, e);
    Twice(s.workers, w, u.workers[w], e.worker.value);
  }

  /** The repair sent for the target reaches the provider. */
  lemma ApplyRepair(c: Config, s: Cluster, i: nat, seen: Observation) returns (t: Cluster)
    requires Reached(c, s) && Partway(s.authority, s.refs, c, i) && i < |c.bindings|
    requires |s.authority.projections[c.projectId].bindings| == |c.bindings|
    requires var record := s.authority.projections[c.projectId];
             var target := record.bindings[i];
             && target.binding in s.refs && seen == Seen(s, c, target, seen.challenge)
             && RequestFor(record, target, seen) in s.sent
    ensures Reached(c, t)
    ensures var record := s.authority.projections[c.projectId];
            var b := record.bindings[i].binding;
            && t == s.(refs := s.refs[b := Repaired(s.refs[b], RequestFor(record, record.bindings[i], seen))])
            && Going(t.authority, t.refs, c)
            && NoCheckpointAt(s.authority, record, RepairedPhase(b.space), t.refs[b].generation)
            && b.space !in record.sealed
            && forall j | i < j < |record.bindings| :: Behind(t.refs, record.epoch, record.bindings[j])
  {
    var record := s.authority.projections[c.projectId];
    var target := record.bindings[i];
    TargetAt(s.authority, s.refs, c, i);
    var q := RequestFor(record, target, seen);
    t := s.(refs := s.refs[target.binding := Repaired(s.refs[target.binding], q)]);
    Reach(c, s, ArriveRepair(q), t);
    RepairAdvances(s.authority, s.refs, c, i, seen);
    OthersBehind(s.authority, s.refs, t.refs[target.binding], c, i);
  }

  /** A write of one target's ref leaves the later ones behind. */
  lemma OthersBehind(a: Snapshot, refs: map<Binding, RefState>, after: RefState, c: Config, i: nat)
    requires Going(a, refs, c) && i < |c.bindings|
    requires |a.projections[c.projectId].bindings| == |c.bindings|
    requires var record := a.projections[c.projectId];
             forall j | i < j < |record.bindings| :: Behind(refs, record.epoch, record.bindings[j])
    ensures var record := a.projections[c.projectId];
            forall j | i < j < |record.bindings| :: Behind(refs[record.bindings[i].binding := after], record.epoch, record.bindings[j])
  {
    var record := a.projections[c.projectId];
    forall j | i < j < |record.bindings|
      ensures Behind(refs[record.bindings[i].binding := after], record.epoch, record.bindings[j])
    {
      TargetsApart(a, c, i, j);
    }
  }

  /** A worker with its repair applied and its answer on the way. */
  ghost predicate AwaitsRepair(c: Config, s: Cluster, w: nat, i: nat, seen: Observation, challenge: Id) {
    && Reached(c, s) && Going(s.authority, s.refs, c) && ResultsKnown(s.authority, c.projectId)
    && var record := s.authority.projections[c.projectId];
    && record.epoch <= s.authority.version && i < |c.bindings| && |record.bindings| == |c.bindings|
    && w in s.workers && s.workers[w] == Repairing(c, record.bindings, record, i, seen, challenge)
    && var target := record.bindings[i];
    && target.binding in s.refs && !s.refs[target.binding].sealed && s.refs[target.binding].generation > seen.generation
    && target.binding.space !in record.sealed
    && Exact(Report(s.refs[target.binding], c, target.binding, challenge, "repaired"), record, target)
    && NoCheckpointAt(s.authority, record, RepairedPhase(target.binding.space), s.refs[target.binding].generation)
  }

  /** The checkpoint that records a repair. */
  function RepairSaved(a: Snapshot, c: Config, space: Id, v: Observation, auditId: Id): Snapshot
    requires c.projectId in a.projections
  {
    var record := a.projections[c.projectId];
    Checkpointed(a, record.(repaired := record.repaired[space := v]), RepairedPhase(space), Some(v.generation), auditId)
  }

  /** The answer to the repair is recorded and the seal sent. */
  lemma RecordRepaired(c: Config, s: Cluster, w: nat, i: nat, seen: Observation, challenge: Id) returns (t: Cluster, next: Id, auditId: Id)
    requires AwaitsRepair(c, s, w, i, seen, challenge)
    ensures Reached(c, t)
    ensures var target := s.authority.projections[c.projectId].bindings[i];
            var v := Report(s.refs[target.binding], c, target.binding, challenge, "repaired");
            var a' := RepairSaved(s.authority, c, target.binding.space, v, auditId);
            && Advance(s.authority, s.refs, a', s.refs, c, i)
            && c.projectId in a'.projections
            && var record' := a'.projections[c.projectId];
            && t == s.(authority := a', workers := s.workers[w := Sealing(c, record'.bindings, record', i, v, next)],
                       sent := s.sent + {RequestFor(record', target, v)})
  {
    var a, refs := s.authority, s.refs;
    var record := a.projections[c.projectId];
    var target := record.bindings[i];
    var v := Report(refs[target.binding], c, target.binding, challenge, "repaired");
    TargetAt(a, refs, c, i);
    var env := FreshSupply(a);
    next, auditId := env.challenge, env.auditId;
    RepairSaveAdvances(a, refs, c, i, v, auditId);
    var a' := RepairSaved(a, c, target.binding.space, v, auditId);
    var record' := record.(repaired := record.repaired[target.binding.space := v]);
    var e := Effect(a', Some(Sealing(c, record.bindings, record', i, v, next)), Some(RequestFor(record', target, v)));
    assert HandleRepair(a, s.workers[w], v, env) == RecordRepair(a, c, record.bindings, record', i, v, env);
    assert SealOrRecord(a', c, record.bindings, record', i, v, env.(auditId := env.secondAuditId)) == e;
    RepairStep(c, s, w, v, env);
    t := After(s, w, e);
  }

  /** A worker with its seal sent, for a ref that is at the selection. */
  ghost predicate AwaitsSeal(c: Config, s: Cluster, w: nat, i: nat, seen: Observation, challenge: Id) {
    && Reached(c, s) && Going(s.authority, s.refs, c) && ResultsKnown(s.authority, c.projectId)
    && var record := s.authority.projections[c.projectId];
    && record.epoch <= s.authority.version && i < |c.bindings| && |record.bindings| == |c.bindings|
    && w in s.workers && s.workers[w] == Sealing(c, record.bindings, record, i, seen, challenge)
    && var target := record.bindings[i];
    && target.binding in s.refs
    && seen == Report(s.refs[target.binding], c, target.binding, seen.challenge, seen.receipt)
    && Exact(seen, record, target) && !seen.sealed && target.binding.space !in record.sealed
    && RequestFor(record, target, seen) in s.sent
  }

  /** The seal reaches the provider. */
  lemma ApplySeal(c: Config, s: Cluster, w: nat, i: nat, seen: Observation, challenge: Id) returns (t: Cluster)
    requires AwaitsSeal(c, s, w, i, seen, challenge)
    ensures Reached(c, t)
    ensures var record := s.authority.projections[c.projectId];
            var target := record.bindings[i];
            && t == s.(refs := s.refs[target.binding := SealedRef(s.refs[target.binding])])
            && Going(t.authority, t.refs, c)
            && SealedExactly(t.refs[target.binding], record, target)
            && !SealLost(s.authority, t.refs[target.binding], record, target.binding.space)
  {
    var a, refs := s.authority, s.refs;
    var record := a.projections[c.projectId];
    var target := record.bindings[i];
    TargetAt(a, refs, c, i);
    t := s.(refs := refs[target.binding := SealedRef(refs[target.binding])]);
    Reach(c, s, ArriveSeal(RequestFor(record, target, seen)), t);
    SealAdvances(a, refs, c, i, seen);
  }

  /** The checkpoint that records a seal. */
  function SealSaved(a: Snapshot, c: Config, space: Id, v: Observation, auditId: Id): Snapshot
    requires c.projectId in a.projections
  {
    var record := a.projections[c.projectId];
    Checkpointed(a, record.(sealed := record.sealed[space := v]), SealedPhase(space), Some(v.generation), auditId)
  }

  /** The answer to the seal is recorded. */
  lemma RecordSealed(a: Snapshot, refs: map<Binding, RefState>, c: Config, w: Worker, i: nat, env: Supply)
    requires Going(a, refs, c) && i < |c.bindings|
    requires var record := a.projections[c.projectId];
             && |record.bindings| == |c.bindings|
             && w.Sealing? && w.c == c && w.targets == record.bindings && w.record == record && w.i == i
             && var target := record.bindings[i];
             && target.binding in refs && SealedExactly(refs[target.binding], record, target)
             && refs[target.binding].generation > w.before.generation && target.binding.space !in record.sealed
             && !SealLost(a, refs[target.binding], record, target.binding.space)
    ensures var target := a.projections[c.projectId].bindings[i];
            var v := Report(refs[target.binding], c, target.binding, w.challenge, "sealed");
            var a' := SealSaved(a, c, target.binding.space, v, env.auditId);
            && Advance(a, refs, a', refs, c, i)
            && HandleSeal(a, w, v, env) == NextTarget(a', c, w.targets, i + 1, env)
  {
    var target := a.projections[c.projectId].bindings[i];
    TargetAt(a, refs, c, i);
    SealSaveAdvances(a, refs, c, i, Report(refs[target.binding], c, target.binding, w.challenge, "sealed"), env.auditId);
  }

  /** Where the loop goes once a target is done. */
  lemma LoopGoesOn(a: Snapshot, refs: map<Binding, RefState>, c: Config, i: nat, env: Supply)
    requires Partway(a, refs, c, i)
    ensures NextTarget(a, c, a.projections[c.projectId].bindings, i, env) == Effect(a, Some(LoopWorker(c, a.projections[c.projectId], i, env.challenge)), None)
  {
    var record := a.projections[c.projectId];
    if i == |record.bindings| {
      CoverageCount(a, refs, c, record);
      EntryAt(a, refs, c, record, 0);
    }
  }

  /** One more target sealed and listed. */
  lemma PartwayNext(a: Snapshot, refs: map<Binding, RefState>, a': Snapshot, c: Config, i: nat, v: Observation, auditId: Id)
    requires Going(a, refs, c) && ResultsKnown(a, c.projectId) && i < |c.bindings|
    requires var record := a.projections[c.projectId];
             && record.epoch <= a.version && |record.bindings| == |c.bindings| && Between(a, refs, c, i)
             && a' == SealSaved(a, c, record.bindings[i].binding.space, v, auditId)
    requires Going(a', refs, c)
    ensures Partway(a', refs, c, i + 1) && SameSelection(a, a')
    ensures a'.projections[c.projectId].bindings == a.projections[c.projectId].bindings
  {
    RevisionKnown(a, c);
  }

  lemma RevisionKnown(a: Snapshot, c: Config)
    requires RecordCurrent(a, c)
    ensures a.projections[c.projectId].projectRevisionId in a.projectRevisions
  {
  }

  /** What the checkpoint of a seal's answer leaves. */
  lemma SealLeaves(a: Snapshot, refs: map<Binding, RefState>, c: Config, w: Worker, i: nat, env: Supply) returns (a': Snapshot)
    requires Going(a, refs, c) && ResultsKnown(a, c.projectId) && i < |c.bindings|
    requires var record := a.projections[c.projectId];
             && record.epoch <= a.version && |record.bindings| == |c.bindings| && Between(a, refs, c, i)
             && w.Sealing? && w.c == c && w.targets == record.bindings && w.record == record && w.i == i
             && var target := record.bindings[i];
             && target.binding in refs && SealedExactly(refs[target.binding], record, target)
             && refs[target.binding].generation > w.before.generation && target.binding.space !in record.sealed
             && !SealLost(a, refs[target.binding], record, target.binding.space)
    ensures Partway(a', refs, c, i + 1) && SameSelection(a, a')
    ensures a'.projections[c.projectId].bindings == a.projections[c.projectId].bindings
    ensures var target := a.projections[c.projectId].bindings[i];
            HandleSeal(a, w, Report(refs[target.binding], c, target.binding, w.challenge, "sealed"), env)
            == NextTarget(a', c, w.targets, i + 1, env)
  {
    var target := a.projections[c.projectId].bindings[i];
    var v := Report(refs[target.binding], c, target.binding, w.challenge, "sealed");
    RecordSealed(a, refs, c, w, i, env);
    a' := SealSaved(a, c, target.binding.space, v, env.auditId);
    PartwayNext(a, refs, a', c, i, v, env.auditId);
  }

  /** And where its stretch ends. */
  lemma SealEffect(a: Snapshot, refs: map<Binding, RefState>, c: Config, w: Worker, i: nat, env: Supply) returns (a': Snapshot)
    requires Going(a, refs, c) && ResultsKnown(a, c.projectId) && i < |c.bindings|
    requires var record := a.projections[c.projectId];
             && record.epoch <= a.version && |record.bindings| == |c.bindings| && Between(a, refs, c, i)
             && w.Sealing? && w.c == c && w.targets == record.bindings && w.record == record && w.i == i
             && var target := record.bindings[i];
             && target.binding in refs && SealedExactly(refs[target.binding], record, target)
             && refs[target.binding].generation > w.before.generation && target.binding.space !in record.sealed
             && !SealLost(a, refs[target.binding], record, target.binding.space)
    ensures Partway(a', refs, c, i + 1) && SameSelection(a, a')
    ensures a'.projections[c.projectId].bindings == a.projections[c.projectId].bindings
    ensures var target := a.projections[c.projectId].bindings[i];
            HandleSeal(a, w, Report(refs[target.binding], c, target.binding, w.challenge, "sealed"), env)
            == Effect(a', Some(LoopWorker(c, a'.projections[c.projectId], i + 1, env.challenge)), None)
  {
    a' := SealLeaves(a, refs, c, w, i, env);
    LoopGoesOn(a', refs, c, i + 1, env);
  }

  /** The seal of the i-th target is applied and its answer on the way; the later
      targets are still behind. */
  ghost predicate SealApplied(c: Config, s: Cluster, w: nat, i: nat) {
    && Reached(c, s) && Going(s.authority, s.refs, c) && ResultsKnown(s.authority, c.projectId) && i < |c.bindings|
    && w in s.workers && s.workers[w].Sealing?
    && var a, refs, worker := s.authority, s.refs, s.workers[w];
    var record := a.projections[c.projectId];
    && record.epoch <= a.version && |record.bindings| == |c.bindings| && Between(a, refs, c, i)
    && worker == Sealing(c, record.bindings, record, i, worker.before, worker.challenge)
    && var target := record.bindings[i];
    && target.binding in refs && SealedExactly(refs[target.binding], record, target)
    && refs[target.binding].generation > worker.before.generation && target.binding.space !in record.sealed
    && !SealLost(a, refs[target.binding], record, target.binding.space)
  }

  lemma SealIsApplied(c: Config, s: Cluster, w: nat, i: nat, seen: Observation, challenge: Id) returns (t: Cluster)
    requires AwaitsSeal(c, s, w, i, seen, challenge)
    requires Between(s.authority, s.refs, c, i)
    ensures SealApplied(c, t, w, i) && t == s.(refs := t.refs) && t.refs.Keys == s.refs.Keys
  {
    var target := s.authority.projections[c.projectId].bindings[i];
    t := ApplySeal(c, s, w, i, seen, challenge);
    OthersBehind(s.authority, s.refs, t.refs[target.binding], c, i);
  }

  lemma SealRecorded(c: Config, s: Cluster, w: nat, i: nat) returns (t: Cluster)
    requires SealApplied(c, s, w, i)
    ensures AtTarget(c, t, w, i + 1) && Kept(s, t, w)
    ensures t.authority.projections[c.projectId].bindings == s.authority.projections[c.projectId].bindings
  {
    var a, worker := s.authority, s.workers[w];
    var target := a.projections[c.projectId].bindings[i];
    var env := FreshSupply(a);
    var a' := SealEffect(a, s.refs, c, worker, i, env);
    var v := Report(s.refs[target.binding], c, target.binding, worker.challenge, "sealed");
    SealStep(c, s, w, v, env);
    t := After(s, w, HandleSeal(a, worker, v, env));
    assert Stands(c, t, w, i + 1, env.challenge);
  }

  // -------------------------------------------------------------------- one iteration

  /** A target observed behind, its repair sent and applied. */
  lemma RepairIsApplied(c: Config, s: Cluster, w: nat, i: nat, challenge: Id) returns (t: Cluster, seen: Observation, next: Id)
    requires Stands(c, s, w, i, challenge) && i < |c.bindings|
    ensures AwaitsRepair(c, t, w, i, seen, next) && Kept(s, t, w) && t.authority == s.authority
    ensures Between(t.authority, t.refs, c, i)
  {
    var record := s.authority.projections[c.projectId];
    TargetAt(s.authority, s.refs, c, i);
    seen := Seen(s, c, record.bindings[i], challenge);
    var u;
    u, next := SendRepair(c, s, w, i, challenge);
    t := ApplyRepair(c, u, i, seen);
  }

  /** The record once a repair is on it. */
  lemma RepairedRecord(a: Snapshot, refs: map<Binding, RefState>, c: Config, i: nat, v: Observation, auditId: Id)
    requires Going(a, refs, c) && ResultsKnown(a, c.projectId) && Between(a, refs, c, i)
    requires i < |a.projections[c.projectId].bindings|
    ensures var a' := RepairSaved(a, c, a.projections[c.projectId].bindings[i].binding.space, v, auditId);
            && ResultsKnown(a', c.projectId) && SameSelection(a, a') && c.projectId in a'.projections
            && Between(a', refs, c, i)
            && a'.projections[c.projectId] == a.projections[c.projectId].(repaired := a'.projections[c.projectId].repaired)
  {
    RevisionKnown(a, c);
  }

  lemma RepairIsRecorded(c: Config, s: Cluster, w: nat, i: nat, seen: Observation, challenge: Id) returns (t: Cluster, v: Observation, next: Id)
    requires AwaitsRepair(c, s, w, i, seen, challenge) && Between(s.authority, s.refs, c, i)
    ensures AwaitsSeal(c, t, w, i, v, next) && Between(t.authority, t.refs, c, i) && Kept(s, t, w) && t.refs == s.refs
    ensures t.authority.projections[c.projectId].bindings == s.authority.projections[c.projectId].bindings
  {
    var target := s.authority.projections[c.projectId].bindings[i];
    v := Report(s.refs[target.binding], c, target.binding, challenge, "repaired");
    var auditId;
    t, next, auditId := RecordRepaired(c, s, w, i, seen, challenge);
    RepairedRecord(s.authority, s.refs, c, i, v, auditId);
  }

  lemma Iterate(c: Config, s: Cluster, w: nat, i: nat) returns (t: Cluster)
    requires AtTarget(c, s, w, i) && i < |c.bindings|
    ensures AtTarget(c, t, w, i + 1) && Kept(s, t, w)
    ensures t.authority.projections[c.projectId].bindings == s.authority.projections[c.projectId].bindings
  {
    var challenge :| Stands(c, s, w, i, challenge);
    var u, seen, challenge' := RepairIsApplied(c, s, w, i, challenge);
    var x, v, challenge'' := RepairIsRecorded(c, u, w, i, seen, challenge');
    var y := SealIsApplied(c, x, w, i, v, challenge'');
    t := SealRecorded(c, y, w, i);
    KeptTrans(s, u, x, w);
    KeptTrans(s, x, y, w);
    KeptTrans(s, y, t, w);
  }

  lemma KeptTrans(s: Cluster, t: Cluster, u: Cluster, w: nat)
    requires Kept(s, t, w) && Kept(t, u, w)
    ensures Kept(s, u, w)
  {
  }

  /** The rest of the loop. */
  lemma {:induction false} RunLoop(c: Config, s: Cluster, w: nat, i: nat) returns (t: Cluster)
    requires AtTarget(c, s, w, i) && i <= |c.bindings|
    ensures AtTarget(c, t, w, |c.bindings|) && Kept(s, t, w)
    decreases |c.bindings| - i
  {
    t := s;
    if i < |c.bindings| {
      var u := Iterate(c, s, w, i);
      t := RunLoop(c, u, w, i + 1);
      KeptTrans(s, u, t, w);
    }
  }

  // ------------------------------------------------------------------ a round of probes

  /** A worker at its i-th probe of a record whose targets are all sealed. */
  ghost predicate AtProbe(c: Config, s: Cluster, w: nat, i: nat, duty: Duty) {
    && Reached(c, s) && Probed(s.authority, s.refs, c)
    && var record := s.authority.projections[c.projectId];
    && i < |record.bindings|
    && w in s.workers && s.workers[w].Probing?
    && s.workers[w] == Probing(c, record, i, s.workers[w].challenge, None, duty)
  }

  /** Every target of the record is sealed and listed. */
  ghost predicate Probed(a: Snapshot, refs: map<Binding, RefState>, c: Config) {
    && RecordCurrent(a, c) && (forall b | b in c.bindings :: b in refs)
    && RecordFits(a, refs, c, a.projections[c.projectId]) && AllListed(a.projections[c.projectId])
  }

  /** The last probe of the round, answered. */
  ghost predicate AtLastReply(c: Config, s: Cluster, w: nat, duty: Duty) {
    && Reached(c, s) && Probed(s.authority, s.refs, c)
    && w in s.workers && s.workers[w].Probing? && s.workers[w].Shaped() && s.workers[w].reply.Some?
    && forall env :: HandleProbe(s.authority, s.workers[w], env) == Conclude(s.authority, c, s.authority.projections[c.projectId], duty, env)
  }

  /** The answered probe passes, and the next target, if any, is on the record. */
  ghost predicate Passes(a: Snapshot, c: Config, worker: Worker, record: ProjectionRecord, i: nat, duty: Duty) {
    && worker.Probing? && worker.Shaped() && worker.reply.Some? && i < |record.bindings|
    && (forall env :: HandleProbe(a, worker, env) == ProbeNext(a, c, record, i + 1, duty, env))
    && (i + 1 < |record.bindings| ==> SealedOnRecord(c, record, i + 1))
  }

  lemma ListedIsSealed(a: Snapshot, refs: map<Binding, RefState>, c: Config, i: nat)
    requires Probed(a, refs, c) && i < |a.projections[c.projectId].bindings|
    ensures SealedOnRecord(c, a.projections[c.projectId], i)
  {
    EntryAt(a, refs, c, a.projections[c.projectId], i);
  }

  lemma ProbePasses(a: Snapshot, refs: map<Binding, RefState>, c: Config, worker: Worker)
    requires Probed(a, refs, c)
    requires var record := a.projections[c.projectId];
             && worker.Probing? && worker.Shaped() && worker.c == c && worker.record == record && worker.reply.Some?
             && var b := record.bindings[worker.i].binding;
             b in refs && worker.reply.value == Report(refs[b], c, b, worker.challenge, "observed")
    ensures Passes(a, c, worker, worker.record, worker.i, worker.duty)
  {
    EntryPasses(a, refs, c, worker);
    if worker.i + 1 < |worker.record.bindings| {
      ListedIsSealed(a, refs, c, worker.i + 1);
    }
  }

  lemma EntryPasses(a: Snapshot, refs: map<Binding, RefState>, c: Config, worker: Worker)
    requires Probed(a, refs, c)
    requires var record := a.projections[c.projectId];
             && worker.Probing? && worker.Shaped() && worker.c == c && worker.record == record && worker.reply.Some?
             && var b := record.bindings[worker.i].binding;
             b in refs && worker.reply.value == Report(refs[b], c, b, worker.challenge, "observed")
    ensures forall env :: HandleProbe(a, worker, env) == ProbeNext(a, c, worker.record, worker.i + 1, worker.duty, env)
  {
    EntryAt(a, refs, c, worker.record, worker.i);
  }

  lemma ProbeAnswered(c: Config, s: Cluster, w: nat, i: nat, duty: Duty) returns (t: Cluster)
    requires AtProbe(c, s, w, i, duty)
    ensures Reached(c, t) && Kept(s, t, w) && t == s.(workers := t.workers)
    ensures w in t.workers && Passes(t.authority, c, t.workers[w], s.authority.projections[c.projectId], i, duty)
  {
    EntryAt(s.authority, s.refs, c, s.authority.projections[c.projectId], i);
    t := AnswerStep(c, s, w);
    ProbePasses(s.authority, s.refs, c, t.workers[w]);
  }

  lemma ProbeOne(c: Config, s: Cluster, w: nat, i: nat, duty: Duty) returns (t: Cluster)
    requires AtProbe(c, s, w, i, duty) && i + 1 < |s.authority.projections[c.projectId].bindings|
    ensures AtProbe(c, t, w, i + 1, duty) && Kept(s, t, w) && t == s.(workers := t.workers)
  {
    var u := ProbeAnswered(c, s, w, i, duty);
    var env := FreshSupply(u.authority);
    ProbeStep(c, u, w, env);
    t := After(u, w, HandleProbe(u.authority, u.workers[w], env));
  }

  lemma {:induction false} ProbeAll(c: Config, s: Cluster, w: nat, i: nat, duty: Duty) returns (t: Cluster)
    requires AtProbe(c, s, w, i, duty)
    ensures AtLastReply(c, t, w, duty) && Kept(s, t, w) && t == s.(workers := t.workers)
    decreases |s.authority.projections[c.projectId].bindings| - i
  {
    if i + 1 < |s.authority.projections[c.projectId].bindings| {
      var u := ProbeOne(c, s, w, i, duty);
      t := ProbeAll(c, u, w, i + 1, duty);
    } else {
      t := ProbeAnswered(c, s, w, i, duty);
    }
  }

  // ------------------------------------------------------------------------ completing

  ghost predicate DoneAt(c: Config, s: Cluster, epoch: nat) {
    && Reached(c, s) && ResultsKnown(s.authority, c.projectId) && c.bindings != []
    && HasRecord(s.authority, c)
    && var record := s.authority.projections[c.projectId];
    && record.state == Complete && record.epoch == epoch <= s.authority.version
    && Recoverable(s.authority, s.refs, c, epoch)
  }

  /** The selection's record is complete. */
  ghost predicate RecordDone(c: Config, s: Cluster) {
    exists epoch :: DoneAt(c, s, epoch)
  }

  lemma GoingRecovers(a: Snapshot, refs: map<Binding, RefState>, c: Config)
    requires Going(a, refs, c)
    ensures HasRecord(a, c) && Recoverable(a, refs, c, a.projections[c.projectId].epoch)
  {
  }

  /** The completing stretch. */
  lemma CompletesRecord(a: Snapshot, refs: map<Binding, RefState>, c: Config, env: Supply) returns (a': Snapshot)
    requires Going(a, refs, c) && ResultsKnown(a, c.projectId) && AllListed(a.projections[c.projectId])
    requires a.projections[c.projectId].epoch <= a.version
    ensures Conclude(a, c, a.projections[c.projectId], Completing, env) == Halt(a')
    ensures SameSelection(a, a') && ResultsKnown(a', c.projectId) && HasRecord(a', c)
    ensures var record := a'.projections[c.projectId];
            record.state == Complete && record.epoch <= a'.version && Recoverable(a', refs, c, record.epoch)
  {
    var record := a.projections[c.projectId];
    GoingRecovers(a, refs, c);
    CompletionFits(a, refs, c, env.auditId, record.epoch);
    a' := Checkpointed(a, record.(state := Complete), CompletePhase, None, env.auditId);
    RevisionKnown(a, c);
  }

  lemma CompleteStep(c: Config, s: Cluster, w: nat) returns (t: Cluster)
    requires AtLastReply(c, s, w, Completing) && ResultsKnown(s.authority, c.projectId) && c.bindings != []
    requires Going(s.authority, s.refs, c) && s.authority.projections[c.projectId].epoch <= s.authority.version
    ensures RecordDone(c, t) && Kept(s, t, w) && t.refs == s.refs && t.workers == s.workers - {w}
  {
    var env := FreshSupply(s.authority);
    var a' := CompletesRecord(s.authority, s.refs, c, env);
    ProbeStep(c, s, w, env);
    t := After(s, w, Halt(a'));
    assert DoneAt(c, t, a'.projections[c.projectId].epoch);
  }

  /** A whole call from where its loop is. */
  lemma FinishCall(c: Config, s: Cluster, w: nat, i: nat) returns (t: Cluster)
    requires AtTarget(c, s, w, i) && i <= |c.bindings|
    ensures RecordDone(c, t) && Kept(s, t, w) && t.workers == s.workers - {w}
  {
    var u := RunLoop(c, s, w, i);
    TargetAt(u.authority, u.refs, c, 0);
    var x := ProbeAll(c, u, w, 0, Completing);
    t := CompleteStep(c, x, w);
    KeptTrans(s, u, x, w);
    KeptTrans(s, x, t, w);
  }

  // ------------------------------------------------------------------------- beginning

  /** A Landing has just been made and no ref is at its epoch yet. */
  ghost predicate JustLanded(c: Config, s: Cluster) {
    && Reached(c, s) && ResultsKnown(s.authority, c.projectId) && c.bindings != []
    && Recoverable(s.authority, s.refs, c, s.authority.version) && !HasRecord(s.authority, c)
    && AllBehind(s.refs, s.authority.version, Selected(s.authority, c))
  }

  ghost predicate AllBehind(refs: map<Binding, RefState>, epoch: nat, targets: seq<SelectedRef>) {
    forall target | target in targets :: Behind(refs, epoch, target)
  }

  /** The stretch that begins a record. */
  lemma BeginEffect(a: Snapshot, refs: map<Binding, RefState>, c: Config, supply: Supply) returns (a': Snapshot, env: Supply)
    requires Recoverable(a, refs, c, a.version) && !HasRecord(a, c) && ResultsKnown(a, c.projectId) && FreshFor(a, supply) && c.bindings != []
    requires AllBehind(refs, a.version, Selected(a, c))
    ensures FreshFor(a, env) && SameSelection(a, a') && Partway(a', refs, c, 0)
    ensures a'.projections[c.projectId].bindings == Selected(a, c) && a'.projections[c.projectId].sealed == map[]
    ensures StartReconcile(a, c, env) == Effect(a', Some(LoopWorker(c, a'.projections[c.projectId], 0, env.challenge)), None)
  {
    var key :| key in a.idempotency && LandsCanonical(a, c, key);
    env := supply.(landingKey := key);
    BeginFits(a, refs, c, key, env.recordId, env.auditId, a.version);
    var record := NewRecord(a, c, key, env.recordId);
    a' := Checkpointed(a, record, BeginPhase, None, env.auditId);
    BeginsPartway(a, refs, c, record, a');
    LoopGoesOn(a', refs, c, 0, env.(auditId := env.secondAuditId));
    assert StartReconcile(a, c, env) == EnterLoop(a', c, env.(auditId := env.secondAuditId));
  }

  lemma BeginsPartway(a: Snapshot, refs: map<Binding, RefState>, c: Config, record: ProjectionRecord, a': Snapshot)
    requires ResultsKnown(a, c.projectId) && Coverable(a, c) && c.bindings != [] && AllBehind(refs, a.version, Selected(a, c))
    requires record.projectId == c.projectId && record.state == Pending && record.epoch == a.version && record.bindings == Selected(a, c)
    requires record.projectRevisionId in a.projectRevisions
    requires exists auditId :: a' == Checkpointed(a, record, BeginPhase, None, auditId)
    requires Recoverable(a', refs, c, a.version) && HasRecord(a', c)
    ensures Partway(a', refs, c, 0)
  {
    forall j | 0 <= j < |record.bindings|
      ensures Behind(refs, record.epoch, record.bindings[j])
    {
      assert record.bindings[j] in Selected(a, c);
    }
  }

  /** A worker loads the selection and begins its record. */
  lemma BeginCall(c: Config, s: Cluster, w: nat) returns (t: Cluster)
    requires JustLanded(c, s) && w !in s.workers
    ensures AtTarget(c, t, w, 0) && Kept(s, t, w) && t.refs == s.refs
    ensures t.authority.projections[c.projectId].bindings == Selected(s.authority, c)
    ensures t.authority.projections[c.projectId].sealed == map[]
  {
    var supply := FreshSupply(s.authority);
    var a', env := BeginEffect(s.authority, s.refs, c, supply);
    t := After(s, w, StartReconcile(s.authority, c, env));
    Reach(c, s, Reconcile(w, c, env), t);
    assert Stands(c, t, w, 0, env.challenge);
  }

  /** A worker joins a call under way. */
  lemma JoinCall(c: Config, s: Cluster, w: nat) returns (t: Cluster, challenge: Id)
    requires Reached(c, s) && Going(s.authority, s.refs, c) && c.bindings != [] && w !in s.workers
    ensures Reached(c, t) && |s.authority.projections[c.projectId].bindings| > 0
    ensures t == s.(workers := s.workers[w := LoopWorker(c, s.authority.projections[c.projectId], 0, challenge)])
  {
    TargetAt(s.authority, s.refs, c, 0);
    var env := FreshSupply(s.authority);
    challenge := env.challenge;
    var record := s.authority.projections[c.projectId];
    assert StartReconcile(s.authority, c, env) == EnterLoop(s.authority, c, env);
    t := After(s, w, StartReconcile(s.authority, c, env));
    assert t == s.(workers := s.workers[w := LoopWorker(c, record, 0, challenge)]);
    Reach(c, s, Reconcile(w, c, env), t);
  }

  // --------------------------------------------------------------------------- landing

  /** Every ref is at the canonical selection, and that is recorded unless it
      was never landed. */
  ghost predicate AtRest(c: Config, s: Cluster) {
    && Reached(c, s) && ResultsKnown(s.authority, c.projectId) && c.bindings != []
    && HasCanonical(s.authority, c.projectId) && AtCanonical(s.authority, s.refs, c)
    && (HasLanded(CanonicalRevision(s.authority, c.projectId)) ==> RecordDone(c, s))
  }

  lemma DoneRests(c: Config, s: Cluster)
    requires RecordDone(c, s)
    ensures AtRest(c, s)
  {
    var epoch :| DoneAt(c, s, epoch);
    CompleteMeans(s.authority, s.refs, c, epoch);
    CompletionIsAtCanonical(s.authority, s.refs, c, epoch);
  }

  /** The Authority accepts the request and the values obtained for it. */
  ghost predicate Lands(a: Snapshot, c: Config, request: Request, env: Supply) {
    && HasCanonical(a, c.projectId) && FreshFor(a, env)
    && RequestWellFormed(request) && CohortKey(request.cohortId) !in a.idempotency
    && request.expected == a.canonicalByProject[c.projectId]
    && Selectable(a, c.projectId, request, env.review)
    && IsComposition(CanonicalRevision(a, c.projectId).snapshots, Revisions(a, request.members), env.composed)
    && Coverable(AfterLanding(a, c, request, env), c)
  }

  function AfterLanding(a: Snapshot, c: Config, request: Request, env: Supply): Snapshot
    requires HasCanonical(a, c.projectId)
  {
    Selection(a, c.projectId, request, if env.review.Allow? then env.review.policyVersion else "", env.minted, env.composed)
  }

  /** The cluster once the selection is committed. */
  function Advanced(s: Cluster, c: Config, request: Request, env: Supply): Cluster
    requires HasCanonical(s.authority, c.projectId)
  {
    var a' := AfterLanding(s.authority, c, request, env);
    s.(authority := a', history := s.history + [Turn(env.minted.projectRevisionId, a'.version)])
  }

  lemma LandedIsBehind(c: Config, s: Cluster, request: Request, env: Supply)
    requires AtRest(c, s) && Lands(s.authority, c, request, env)
    requires Reached(c, Advanced(s, c, request, env))
    ensures JustLanded(c, Advanced(s, c, request, env))
  {
    var a, a' := s.authority, AfterLanding(s.authority, c, request, env);
    LandingCanComplete(a, s.refs, c, request, env.review.policyVersion, env.minted, env.composed);
    forall target | target in Selected(a', c)
      ensures Behind(s.refs, a'.version, target)
    {
      var j :| 0 <= j < |c.bindings| && Selected(a', c)[j] == target;
      TargetOids(a', c, j);
    }
  }

  lemma RequestCommits(a: Snapshot, c: Config, request: Request, env: Supply)
    requires Lands(a, c, request, env)
    ensures CommitOrHalt(a, c.projectId, a, request, env) == Halt(AfterLanding(a, c, request, env))
  {
  }

  /** A completed record passes the first checks of a round of probes. */
  lemma DoneIsProbed(a: Snapshot, refs: map<Binding, RefState>, c: Config)
    requires HasRecord(a, c) && a.projections[c.projectId].state == Complete && c.bindings != []
    requires Recoverable(a, refs, c, a.projections[c.projectId].epoch)
    ensures var record := a.projections[c.projectId];
            && Probed(a, refs, c) && |record.bindings| > 0
            && |record.sealed| == |record.bindings| && SealedOnRecord(c, record, 0)
  {
    CompleteMeans(a, refs, c, a.projections[c.projectId].epoch);
    CoverageCount(a, refs, c, a.projections[c.projectId]);
    EntryAt(a, refs, c, a.projections[c.projectId], 0);
  }

  lemma GateEffect(a: Snapshot, c: Config, request: Request, env: Supply)
    requires Lands(a, c, request, env) && HasLanded(CanonicalRevision(a, c.projectId)) && RecordCurrent(a, c)
    requires var record := a.projections[c.projectId];
             record.state == Complete && |record.bindings| > 0 && |record.sealed| == |record.bindings| && SealedOnRecord(c, record, 0)
    ensures StartLanding(a, c, request, env)
         == Effect(a, Some(Probing(c, a.projections[c.projectId], 0, env.challenge, None, Selecting(a, request))), None)
  {
    assert Admit(a, c.projectId, request) == Gated;
    assert CurrentRecord(a, c) == Some(a.projections[c.projectId]);
  }

  /** A later Landing starts its probes. */
  lemma GateOpens(c: Config, s: Cluster, w: nat, request: Request, env: Supply) returns (t: Cluster)
    requires RecordDone(c, s) && w !in s.workers && Lands(s.authority, c, request, env)
    requires HasLanded(CanonicalRevision(s.authority, c.projectId))
    ensures AtProbe(c, t, w, 0, Selecting(s.authority, request)) && t == s.(workers := t.workers)
    ensures t.workers - {w} == s.workers
  {
    DoneIsProbed(s.authority, s.refs, c);
    GateEffect(s.authority, c, request, env);
    t := After(s, w, StartLanding(s.authority, c, request, env));
    Aside(s.workers, w, t.workers[w]);
    Reach(c, s, Land(w, c, request, env), t);
  }

  /** The selection once the probes passed, or at once. */
  lemma CommitStep(c: Config, s: Cluster, w: nat, step: Step, e: Effect, request: Request, env: Supply, t: Cluster)
    requires Reached(c, s) && OwnStep(c, step) && Lands(s.authority, c, request, env)
    requires e == Halt(AfterLanding(s.authority, c, request, env))
    requires Next(c.projectId, s, step, Settle(c.projectId, s, w, e))
    requires t == Advanced(s, c, request, env).(workers := s.workers - {w})
    ensures Reached(c, t)
  {
    assert t == Settle(c.projectId, s, w, e);
    Reach(c, s, step, t);
  }

  lemma LandLater(c: Config, s: Cluster, w: nat, request: Request, env: Supply)
    requires RecordDone(c, s) && w !in s.workers && Lands(s.authority, c, request, env)
    requires HasLanded(CanonicalRevision(s.authority, c.projectId))
    ensures Reached(c, Advanced(s, c, request, env))
  {
    var u := GateOpens(c, s, w, request, env);
    var x := ProbeAll(c, u, w, 0, Selecting(s.authority, request));
    RequestCommits(s.authority, c, request, env);
    CommitStep(c, x, w, ProbeReply(w, env), Halt(AfterLanding(s.authority, c, request, env)), request, env, Advanced(s, c, request, env));
  }

  lemma LandFirst(c: Config, s: Cluster, w: nat, request: Request, env: Supply)
    requires Reached(c, s) && w !in s.workers && Lands(s.authority, c, request, env)
    requires !HasLanded(CanonicalRevision(s.authority, c.projectId))
    ensures Reached(c, Advanced(s, c, request, env))
  {
    Idle(s.workers, w);
    RequestCommits(s.authority, c, request, env);
    CommitStep(c, s, w, Land(w, c, request, env), Halt(AfterLanding(s.authority, c, request, env)), request, env, Advanced(s, c, request, env));
  }

  /** A Landing from rest, by an idle worker. */
  lemma LandOnce(c: Config, s: Cluster, w: nat, request: Request, env: Supply)
    requires AtRest(c, s) && w !in s.workers && Lands(s.authority, c, request, env)
    ensures JustLanded(c, Advanced(s, c, request, env))
  {
    if HasLanded(CanonicalRevision(s.authority, c.projectId)) {
      LandLater(c, s, w, request, env);
    } else {
      LandFirst(c, s, w, request, env);
    }
    LandedIsBehind(c, s, request, env);
  }
}
