/** A loop that outlives its record: a run in which the bindings it captured two
    selections ago make it write a commit that neither the canonical selection
    nor the one before it names. */
module StaleLoop {
  import opened Basics
  import opened Authority
  import opened CohortLanding
  import opened CanonicalRefs
  import opened FencedLanding
  import opened LandingInvariants
  import opened FencedLandingSafety
  import opened RefLag
  import opened Reconciliation
  import opened ProtocolRuns
  import opened SmallProject

  /** A worker that was told its first ref is sealed, as its record lists, and
      whose next target wants the commit `desired` over `base`. */
  predicate Lingers(n: Names, worker: Worker, desired: Oid, base: Oid) {
    && worker.Observing? && worker.c == Covering(n) && worker.i == 0
    && worker.targets == worker.record.bindings
    && worker.targets == [SelectedRef(n.first, n.still, n.still), SelectedRef(n.second, desired, base)]
    && worker.reply.Some?
    && var v := worker.reply.value;
    && ObservationBound(v, worker.c, n.first, worker.challenge) && Exact(v, worker.record, worker.targets[0]) && v.sealed
    && n.first.space in worker.record.sealed && worker.record.sealed[n.first.space].generation == v.generation
  }

  /** While one worker is between its targets another one joins, and pauses. */
  lemma Lingering(n: Names, s: Cluster, w: nat, x: nat, desired: Oid, base: Oid) returns (t: Cluster, worker: Worker)
    requires AtTarget(Covering(n), s, w, 1) && x !in s.workers
    requires s.authority.projections[n.p].bindings == [SelectedRef(n.first, n.still, n.still), SelectedRef(n.second, desired, base)]
    ensures AtTarget(Covering(n), t, w, 1) && t == s.(workers := s.workers[x := worker]) && Lingers(n, worker, desired, base)
  {
    var c := Covering(n);
    var u, challenge := JoinCall(c, s, x);
    TargetAt(s.authority, s.refs, c, 0);
    worker := WithAnswer(u, u.workers[x]);
    t := AnswerStep(c, u, x);
    Twice(s.workers, x, u.workers[x], worker);
    JoinLingers(n, s, worker, challenge, desired, base);
    StillStands(c, s, t, w, 1);
  }

  /** A step of another worker that changes nothing else. */
  lemma StillStands(c: Config, s: Cluster, t: Cluster, w: nat, i: nat)
    requires AtTarget(c, s, w, i) && Reached(c, t) && t == s.(workers := t.workers)
    requires w in s.workers && w in t.workers && t.workers[w] == s.workers[w]
    ensures AtTarget(c, t, w, i)
  {
    var challenge :| Stands(c, s, w, i, challenge);
    assert Stands(c, t, w, i, challenge);
  }

  lemma JoinLingers(n: Names, s: Cluster, worker: Worker, challenge: Id, desired: Oid, base: Oid)
    requires Partway(s.authority, s.refs, Covering(n), 1) && n.first in s.refs
    requires s.authority.projections[n.p].bindings == [SelectedRef(n.first, n.still, n.still), SelectedRef(n.second, desired, base)]
    requires var record := s.authority.projections[n.p];
             worker == Observing(Covering(n), record.bindings, record, 0, challenge,
                                 Some(Report(s.refs[n.first], Covering(n), n.first, challenge, "observed")))
    ensures Lingers(n, worker, desired, base)
  {
    TargetAt(s.authority, s.refs, Covering(n), 0);
  }

  /** The paused loop wakes after a later record was begun: it moves on to its
      second target and reloads that record. */
  lemma Reloads(n: Names, s: Cluster, x: nat, desired: Oid, base: Oid) returns (t: Cluster, challenge: Id)
    requires Reached(Covering(n), s) && Going(s.authority, s.refs, Covering(n))
    requires x in s.workers && Lingers(n, s.workers[x], desired, base)
    ensures Reached(Covering(n), t)
    ensures t == s.(workers := s.workers[x := Observing(Covering(n), s.workers[x].targets, s.authority.projections[n.p], 1, challenge, None)])
  {
    var env := FreshSupply(s.authority);
    challenge := env.challenge;
    var record := s.authority.projections[n.p];
    assert CurrentRecord(s.authority, Covering(n)) == Some(record);
    var e := Effect(s.authority, Some(Observing(Covering(n), s.workers[x].targets, record, 1, challenge, None)), None);
    assert HandleObserve(s.authority, s.workers[x], env) == e;
    ObserveStep(Covering(n), s, x, env);
    t := After(s, x, e);
  }

  /** It then finds the ref at the commit it means to replace, and sends a repair
      of its own old commit under the newest epoch. */
  lemma SendsOld(n: Names, s: Cluster, x: nat, targets: seq<SelectedRef>, challenge: Id) returns (t: Cluster, q: RefRequest)
    requires Reached(Covering(n), s) && Going(s.authority, s.refs, Covering(n)) && n.second in s.refs
    requires |targets| > 1 && targets[1].binding == n.second && IsOid(targets[1].base)
    requires x in s.workers && s.workers[x] == Observing(Covering(n), targets, s.authority.projections[n.p], 1, challenge, None)
    requires s.refs[n.second].oid == Some(targets[1].base) && s.refs[n.second].epoch < s.authority.projections[n.p].epoch
    ensures Reached(Covering(n), t) && t == s.(workers := t.workers, sent := s.sent + {q})
    ensures q.target == targets[1] && RepairAccepted(s.refs[n.second], q)
  {
    var c, record := Covering(n), s.authority.projections[n.p];
    var env := FreshSupply(s.authority);
    var u := AnswerStep(c, s, x);
    var v := Report(s.refs[n.second], c, n.second, challenge, "observed");
    q := RequestFor(record, targets[1], v);
    ObserveStep(c, u, x, env);
    t := After(u, x, Effect(s.authority, Some(Repairing(c, targets, record, 1, v, env.challenge)), Some(q)));
  }

  lemma Overwrites(n: Names, s: Cluster, q: RefRequest, was: Oid, oid: Oid) returns (t: Cluster)
    requires Reached(Covering(n), s) && WentFrom(n, s, was, oid) && q in s.sent
    requires q.target.binding == n.second && n.second in s.refs && RepairAccepted(s.refs[n.second], q)
    requires q.target.desired != was && q.target.desired != oid
    ensures Reached(Covering(n), t) && t.history != [] && !HoldsRecent(t, n.second) && !OneBehind(t, n.second)
  {
    t := s.(refs := s.refs[n.second := Repaired(s.refs[n.second], q)]);
    Reach(Covering(n), s, ArriveRepair(q), t);
  }

  // ------------------------------------------------------------------------ the run

  /** A first Landing and its record begun. */
  lemma FirstBegun(n: Names, a: Oid, b: Oid) returns (t: Cluster)
    requires Apart(n) && IsOid(a) && IsOid(b) && a != b
    ensures AtTarget(Covering(n), t, 1, 0) && Selects(n, t.authority, b) && t.workers.Keys == {1}
    ensures t.authority.projections[n.p].bindings == [SelectedRef(n.first, n.still, n.still), SelectedRef(n.second, b, a)]
  {
    ImportRests(n, a);
    var s := MoveSecond(n, Imported(n, a), a, b, 1);
    t := BeginCall(Covering(n), s, 1);
    SelectsStays(n, s.authority, t.authority, b);
    OneWorker(s.workers, t.workers);
  }

  /** Its first target sealed. */
  lemma FirstTarget(n: Names, a: Oid, b: Oid) returns (t: Cluster)
    requires Apart(n) && IsOid(a) && IsOid(b) && a != b
    ensures AtTarget(Covering(n), t, 1, 1) && Selects(n, t.authority, b) && t.workers.Keys == {1}
    ensures t.authority.projections[n.p].bindings == [SelectedRef(n.first, n.still, n.still), SelectedRef(n.second, b, a)]
  {
    var s := FirstBegun(n, a, b);
    t := Iterate(Covering(n), s, 1, 0);
    SelectsStays(n, s.authority, t.authority, b);
    OneWorker(s.workers, t.workers);
  }

  lemma OneWorker(before: map<nat, Worker>, after: map<nat, Worker>)
    requires before.Keys <= {1} && after - {1} == before - {1} && 1 in after
    ensures after.Keys == {1}
  {
    assert forall x | x in after && x != 1 :: x in after - {1};
  }

  lemma OneLeft(workers: map<nat, Worker>, worker: Worker)
    requires workers.Keys == {1}
    ensures workers[0 := worker] - {1} == map[0 := worker]
  {
  }

  /** A first Landing, completed, with a second worker paused since its loop. */
  lemma FirstLanding(n: Names, a: Oid, b: Oid) returns (t: Cluster, worker: Worker)
    requires Apart(n) && IsOid(a) && IsOid(b) && a != b
    ensures RecordDone(Covering(n), t) && Selects(n, t.authority, b)
    ensures t.workers == map[0 := worker] && Lingers(n, worker, b, a)
  {
    var s := FirstTarget(n, a, b);
    var u;
    u, worker := Lingering(n, s, 1, 0, b, a);
    t := FinishCall(Covering(n), u, 1, 1);
    OneLeft(s.workers, worker);
    SelectsStays(n, u.authority, t.authority, b);
  }

  lemma SelectsStays(n: Names, a: Snapshot, b: Snapshot, oid: Oid)
    requires Selects(n, a, oid) && SameSelection(a, b)
    ensures Selects(n, b, oid)
  {
  }

  /** A Landing while a worker is paused, up to the beginning of its record. */
  lemma NextLanding(n: Names, s: Cluster, worker: Worker, was: Oid, oid: Oid) returns (t: Cluster)
    requires Apart(n) && RecordDone(Covering(n), s) && Selects(n, s.authority, was) && s.workers == map[0 := worker]
    requires IsOid(was) && IsOid(oid) && was != oid
    ensures AtTarget(Covering(n), t, 1, 0) && Selects(n, t.authority, oid) && WentFrom(n, t, was, oid)
    ensures t.workers - {1} == map[0 := worker]
    ensures n.second in t.refs && t.refs[n.second].oid == Some(was) && t.refs[n.second].epoch < t.authority.projections[n.p].epoch
  {
    var c := Covering(n);
    DoneRests(c, s);
    assert c.bindings[1] == n.second && n.second in c.bindings;
    var u := MoveSecond(n, s, was, oid, 1);
    t := BeginCall(c, u, 1);
    SelectsStays(n, u.authority, t.authority, oid);
    Idle(s.workers, 1);
    SecondIsBehind(n, t, was, oid);
  }

  lemma SecondIsBehind(n: Names, s: Cluster, was: Oid, oid: Oid)
    requires Partway(s.authority, s.refs, Covering(n), 0)
    requires s.authority.projections[n.p].bindings == [SelectedRef(n.first, n.still, n.still), SelectedRef(n.second, oid, was)]
    ensures n.second in s.refs && s.refs[n.second].epoch < s.authority.projections[n.p].epoch
  {
    assert Behind(s.refs, s.authority.projections[n.p].epoch, s.authority.projections[n.p].bindings[1]);
  }

  /** The second space goes from a to b, back to a, and on to d, with a worker
      asleep since b: it leaves the ref at b. */
  lemma Wakes(n: Names, s: Cluster, worker: Worker, a: Oid, b: Oid, d: Oid) returns (t: Cluster)
    requires Reached(Covering(n), s) && Going(s.authority, s.refs, Covering(n)) && WentFrom(n, s, a, d)
    requires 0 in s.workers && s.workers[0] == worker && Lingers(n, worker, b, a) && IsOid(a) && b != a && b != d
    requires n.second in s.refs && s.refs[n.second].oid == Some(a) && s.refs[n.second].epoch < s.authority.projections[n.p].epoch
    ensures Reached(Covering(n), t) && t.history != [] && !HoldsRecent(t, n.second) && !OneBehind(t, n.second)
  {
    var u, ch := Reloads(n, s, 0, b, a);
    var x, q := SendsOld(n, u, 0, worker.targets, ch);
    t := Overwrites(n, x, q, a, d);
  }

  /** A run of this configuration's reconcilers alone, from the import of the
      Project, whose last state holds the second ref at a commit two selections
      old. */
  lemma StaleLoopRun(n: Names, a: Oid, b: Oid, d: Oid) returns (run: seq<Cluster>, steps: seq<Step>)
    requires Apart(n) && IsOid(a) && IsOid(b) && IsOid(d) && a != b && a != d && b != d
    ensures OwnRun(n.p, Covering(n), run, steps) && n.second in Covering(n).bindings
    ensures var last := run[|steps|]; last.history != [] && !HoldsRecent(last, n.second) && !OneBehind(last, n.second)
  {
    var s1, worker := FirstLanding(n, a, b);
    var s2 := NextLanding(n, s1, worker, b, a);
    var s3 := FinishCall(Covering(n), s2, 1, 0);
    SelectsStays(n, s2.authority, s3.authority, a);
    var s4 := NextLanding(n, s3, worker, a, d);
    StillThere(s4.workers, worker);
    var t := Wakes(n, s4, worker, a, b, d);
    run, steps :| EndsIn(Covering(n), run, steps, t);
    assert Covering(n).bindings[1] == n.second;
  }

  lemma StillThere(workers: map<nat, Worker>, worker: Worker)
    requires workers - {1} == map[0 := worker]
    ensures 0 in workers && workers[0] == worker
  {
    assert 0 in workers - {1};
  }
}
