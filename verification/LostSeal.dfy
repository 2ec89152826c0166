/** Two workers on one ref: a run in which the second one's seal is recorded and
    then overwritten by the first one's older copy of the record. */
module LostSeal {
  import opened Basics
  import opened Authority
  import opened CohortLanding
  import opened CanonicalRefs
  import opened FencedLanding
  import opened LandingInvariants
  import opened FencedLandingSafety
  import opened RefLag
  import opened Reconciliation
  import opened ProtocolRuns
  import opened SmallProject
  import opened StaleLoop

  /** While A waits for the answer to its repair, B joins, finds the ref repaired
      and sends its seal. */
  lemma JoinsAndSeals(c: Config, s: Cluster, seen: Observation, challenge: Id) returns (t: Cluster, v: Observation, next: Id)
    requires AwaitsRepair(c, s, 1, 0, seen, challenge) && 0 !in s.workers
    ensures Reached(c, t)
    ensures var record := s.authority.projections[c.projectId];
            var b := record.bindings[0].binding;
            && v == Report(s.refs[b], c, b, v.challenge, "observed")
            && t == s.(workers := s.workers[0 := Sealing(c, record.bindings, record, 0, v, next)],
                       sent := s.sent + {RequestFor(record, record.bindings[0], v)})
  {
    var record := s.authority.projections[c.projectId];
    var b := record.bindings[0].binding;
    TargetAt(s.authority, s.refs, c, 0);
    var u, challenge' := JoinCall(c, s, 0);
    var x := AnswerStep(c, u, 0);
    var env := FreshSupply(s.authority);
    v, next := Report(s.refs[b], c, b, challenge', "observed"), env.challenge;
    SealsWhatItSees(s.authority, s.refs, c, x.workers[0], env);
    ObserveStep(c, x, 0, env);
    t := After(x, 0, HandleObserve(s.authority, x.workers[0], env));
    Twice(s.workers, 0, u.workers[0], x.workers[0]);
    Twice(s.workers, 0, x.workers[0], t.workers[0]);
  }

  lemma SealsWhatItSees(a: Snapshot, refs: map<Binding, RefState>, c: Config, w: Worker, env: Supply)
    requires Going(a, refs, c) && c.bindings != []
    requires var record := a.projections[c.projectId];
             && |record.bindings| > 0 && record.bindings[0].binding in refs
             && var b := record.bindings[0].binding;
             && w.Observing? && w == Observing(c, record.bindings, record, 0, w.challenge, Some(Report(refs[b], c, b, w.challenge, "observed")))
             && !refs[b].sealed && Exact(w.reply.value, record, record.bindings[0])
    ensures var record := a.projections[c.projectId];
            HandleObserve(a, w, env) == Effect(a, Some(Sealing(c, record.bindings, record, 0, w.reply.value, env.challenge)),
                                               Some(RequestFor(record, record.bindings[0], w.reply.value)))
  {
    TargetAt(a, refs, c, 0);
  }

  /** B's seal is applied. */
  lemma SealArrives(c: Config, s: Cluster, v: Observation) returns (t: Cluster)
    requires Reached(c, s) && Going(s.authority, s.refs, c) && |s.authority.projections[c.projectId].bindings| > 0
    requires var record := s.authority.projections[c.projectId];
             var b := record.bindings[0].binding;
             && b in s.refs && v == Report(s.refs[b], c, b, v.challenge, "observed")
             && !v.sealed && Exact(v, record, record.bindings[0])
             && RequestFor(record, record.bindings[0], v) in s.sent
    ensures Reached(c, t)
    ensures var b := s.authority.projections[c.projectId].bindings[0].binding; t == s.(refs := s.refs[b := SealedRef(s.refs[b])])
  {
    var record := s.authority.projections[c.projectId];
    var b := record.bindings[0].binding;
    t := s.(refs := s.refs[b := SealedRef(s.refs[b])]);
    Reach(c, s, ArriveSeal(RequestFor(record, record.bindings[0], v)), t);
  }

  /** Both answers arrive, B's first. */
  lemma BothAnswered(c: Config, s: Cluster, a: Snapshot, refs: map<Binding, RefState>, seen: Observation, v: Observation, chA: Id, chB: Id,
                     envB: Supply) returns (t: Cluster, envA: Supply)
    requires Reached(c, s) && s.authority == a && Going(a, refs, c) && |a.projections[c.projectId].bindings| > 0 && c.bindings != []
    requires FreshFor(a, envB)
    requires var record := a.projections[c.projectId];
             var b := record.bindings[0].binding;
             && b in refs && s.refs == refs[b := SealedRef(refs[b])]
             && v == Report(refs[b], c, b, v.challenge, "observed")
             && Overlapping(a, refs, c, 0, Report(refs[b], c, b, chA, "repaired"), Report(SealedRef(refs[b]), c, b, chB, "sealed"))
             && seen.generation < refs[b].generation
             && 0 in s.workers && s.workers[0] == Sealing(c, record.bindings, record, 0, v, chB)
             && 1 in s.workers && s.workers[1] == Repairing(c, record.bindings, record, 0, seen, chA)
    ensures Reached(c, t) && t.refs == s.refs
    ensures var record := a.projections[c.projectId];
            var b := record.bindings[0].binding;
            var answerA, answerB := Report(refs[b], c, b, chA, "repaired"), Report(SealedRef(refs[b]), c, b, chB, "sealed");
            t.authority == Overwritten(a, record, b.space, answerA, answerB, envA.auditId, envB.auditId)
  {
    var record := a.projections[c.projectId];
    var b := record.bindings[0].binding;
    var answerA, answerB := Report(refs[b], c, b, chA, "repaired"), Report(SealedRef(refs[b]), c, b, chB, "sealed");
    var u := SealAnswered(c, s, a, refs, v, chB, envB, answerA);
    envA := FreshSupply(u.authority);
    OverlapRepairs(a, refs, c, 0, seen, answerA, answerB, envA, envB.auditId);
    RepairStep(c, u, 1, answerA, envA);
    t := After(u, 1, HandleRepair(u.authority, u.workers[1], answerA, envA));
  }

  lemma SealAnswered(c: Config, s: Cluster, a: Snapshot, refs: map<Binding, RefState>, v: Observation, chB: Id, envB: Supply,
                     answerA: Observation) returns (t: Cluster)
    requires Reached(c, s) && s.authority == a && Going(a, refs, c) && |a.projections[c.projectId].bindings| > 0 && c.bindings != []
    requires FreshFor(a, envB)
    requires var record := a.projections[c.projectId];
             var b := record.bindings[0].binding;
             && b in refs && v == Report(refs[b], c, b, v.challenge, "observed")
             && Overlapping(a, refs, c, 0, answerA, Report(SealedRef(refs[b]), c, b, chB, "sealed"))
             && 0 in s.workers && s.workers[0] == Sealing(c, record.bindings, record, 0, v, chB)
    ensures Reached(c, t) && t.refs == s.refs && (1 in s.workers ==> 1 in t.workers && t.workers[1] == s.workers[1])
    ensures var record := a.projections[c.projectId];
            var b := record.bindings[0].binding;
            t.authority == SealedBy(a, record, b.space, Report(SealedRef(refs[b]), c, b, chB, "sealed"), envB.auditId)
  {
    var record := a.projections[c.projectId];
    var b := record.bindings[0].binding;
    var answerB := Report(SealedRef(refs[b]), c, b, chB, "sealed");
    TargetAt(a, refs, c, 0);
    OverlapSeals(a, refs, c, 0, answerA, answerB, envB);
    assert HandleSeal(a, s.workers[0], answerB, envB) == RecordSeal(a, c, record.bindings, record, 0, answerB, envB);
    SealStep(c, s, 0, answerB, envB);
    t := After(s, 0, HandleSeal(a, s.workers[0], answerB, envB));
  }

  // ------------------------------------------------------------------------ the run

  /** The record can still be taken up, but a seal it had is lost: no reconcile
      call completes from here. */
  ghost predicate Wedged(c: Config, s: Cluster) {
    exists epoch :: WedgedAt(c, s, epoch)
  }

  ghost predicate WedgedAt(c: Config, s: Cluster, epoch: nat) {
    && Recoverable(s.authority, s.refs, c, epoch)
    && !NoSealLost(s.authority, s.refs, c) && !CanComplete(s.authority, s.refs, c, epoch)
  }

  /** From a repair that waits for its answer to a seal that is lost. */
  lemma LosesSeal(c: Config, s: Cluster, seen: Observation, challenge: Id) returns (t: Cluster)
    requires AwaitsRepair(c, s, 1, 0, seen, challenge) && 0 !in s.workers
    ensures Reached(c, t) && Wedged(c, t)
  {
    var a, refs := s.authority, s.refs;
    var record := a.projections[c.projectId];
    var b := record.bindings[0].binding;
    TargetAt(a, refs, c, 0);
    var u, v, chB := JoinsAndSeals(c, s, seen, challenge);
    var x := SealArrives(c, u, v);
    var envB := FreshSupply(a);
    var answerA, answerB := Report(refs[b], c, b, challenge, "repaired"), Report(SealedRef(refs[b]), c, b, chB, "sealed");
    var envA;
    t, envA := BothAnswered(c, x, a, refs, seen, v, challenge, chB, envB);
    GoingRecovers(a, refs, c);
    OverwrittenFits(a, refs, c, 0, answerA, answerB, envA.auditId, envB.auditId, record.epoch);
    assert WedgedAt(c, t, record.epoch);
  }

  /** From a record just begun by the only worker. */
  lemma LosesFromStart(c: Config, s: Cluster) returns (t: Cluster)
    requires AtTarget(c, s, 1, 0) && s.workers.Keys == {1} && c.bindings != []
    ensures Reached(c, t) && Wedged(c, t)
  {
    var challenge :| Stands(c, s, 1, 0, challenge);
    var u, seen, challenge' := RepairIsApplied(c, s, 1, 0, challenge);
    OneWorker(s.workers, u.workers);
    t := LosesSeal(c, u, seen, challenge');
  }

  /** A run of two reconcile workers, from the import of the Project, whose last
      state is one no reconcile call completes from. */
  lemma LostSealRun(n: Names, a: Oid, b: Oid) returns (run: seq<Cluster>, steps: seq<Step>)
    requires Apart(n) && IsOid(a) && IsOid(b) && a != b
    ensures OwnRun(n.p, Covering(n), run, steps) && Wedged(Covering(n), run[|steps|])
  {
    var s := FirstBegun(n, a, b);
    var t := LosesFromStart(Covering(n), s);
    run, steps :| EndsIn(Covering(n), run, steps, t);
  }
}
