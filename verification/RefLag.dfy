/** How far external refs lag behind the canonical selection when reconcilers
    with one configuration are their only writers. */
module RefLag {
  import opened Basics
  import opened Authority
  import opened CohortLanding
  import opened CanonicalRefs
  import opened FencedLanding
  import opened LandingInvariants
  import opened FencedLandingSafety

  /** Every suspended loop still runs over the bindings of the record it holds.
      The source reloads the record in each iteration but not the bindings. */
  predicate LoopsCurrent(s: Cluster) {
    forall w | w in s.workers && !s.workers[w].Probing? :: s.workers[w].targets == s.workers[w].record.bindings
  }

  /** Nobody but reconcilers of this configuration writes refs. */
  predicate OwnStep(c: Config, step: Step) {
    && !step.OtherWriter?
    && (step.Reconcile? || step.Land? ==> step.c == c)
  }

  predicate Commits(a: Snapshot, turn: Turn, space: Id, oid: Oid) {
    && turn.revisionId in a.projectRevisions
    && space in a.projectRevisions[turn.revisionId].snapshots
    && a.projectRevisions[turn.revisionId].snapshots[space] == oid
  }

  /** The ref carries the epoch of the selection and the commit it selected. */
  predicate AtTurn(a: Snapshot, r: RefState, turn: Turn, b: Binding) {
    r.oid.Some? && r.epoch == turn.epoch && Commits(a, turn, b.space, r.oid.value)
  }

  predicate OneBehind(s: Cluster, b: Binding)
    requires s.history != []
  {
    && b in s.refs
    && (AtTurn(s.authority, s.refs[b], LastTurn(s.history), b)
        || (|s.history| > 1 && AtTurn(s.authority, s.refs[b], s.history[|s.history| - 2], b)))
  }

  /** The request asks for the commit of the selection whose epoch it carries. */
  ghost predicate AsksForItsTurn(s: Cluster, q: RefRequest) {
    exists turn | turn in s.history :: turn.epoch == q.epoch && Commits(s.authority, turn, q.target.binding.space, q.target.desired)
  }

  ghost predicate LagInv(c: Config, s: Cluster) {
    && s.history != []
    && (forall w | w in s.workers :: s.workers[w].c == c)
    && (forall b | b in c.bindings :: OneBehind(s, b))
  }

  /** Every request on the wire asks for its own turn's commit. */
  ghost predicate SentAsk(s: Cluster) {
    forall q | q in s.sent :: AsksForItsTurn(s, q)
  }

  /** A repair of a covered ref that is applied asks for its own turn's commit. */
  ghost predicate RepairAsks(c: Config, s: Cluster, step: Step) {
    step.ArriveRepair? && step.q.target.binding in c.bindings ==> AsksForItsTurn(s, step.q)
  }

  // ------------------------------------------------------------------- every step

  lemma CommitsKept(a: Snapshot, next: Snapshot, turn: Turn, space: Id, oid: Oid)
    requires Extends(a, next) && Commits(a, turn, space, oid)
    ensures Commits(next, turn, space, oid)
  {
  }

  lemma RequestsKept(p: Id, s: Cluster, t: Cluster)
    requires StepOk(p, s, t) && LoopsCurrent(t)
    requires SentAsk(s)
    ensures SentAsk(t)
  {
    forall q | q in t.sent
      ensures AsksForItsTurn(t, q)
    {
      if q in s.sent {
        AsksStays(s, t, q);
      } else {
        var w :| w in t.workers && Sends(t.workers[w], q);
        SentFromCurrentLoop(p, t, t.workers[w], q);
      }
    }
  }

  lemma AsksStays(s: Cluster, t: Cluster, q: RefRequest)
    requires AsksForItsTurn(s, q) && Extends(s.authority, t.authority) && s.history <= t.history
    ensures AsksForItsTurn(t, q)
  {
    var turn :| turn in s.history && turn.epoch == q.epoch && Commits(s.authority, turn, q.target.binding.space, q.target.desired);
    CommitsKept(s.authority, t.authority, turn, q.target.binding.space, q.target.desired);
    assert turn in t.history;
  }

  lemma SentFromCurrentLoop(p: Id, t: Cluster, w: Worker, q: RefRequest)
    requires WorkerInv(p, t.authority, t.refs, t.history, w)
    requires Sends(w, q) && w.targets == w.record.bindings
    ensures AsksForItsTurn(t, q)
  {
    var record := w.record;
    assert q.target in record.bindings;
    assert Turn(record.projectRevisionId, record.epoch) in t.history;
    assert Commits(t.authority, Turn(record.projectRevisionId, record.epoch), q.target.binding.space, q.target.desired);
  }

  /** A repair that asks for its own turn's commit is only accepted from the
      last selection, or changes nothing about the commit. */
  lemma ArrivalKeeps(p: Id, c: Config, s: Cluster, q: RefRequest, after: RefState)
    requires Inv(p, s) && LagInv(c, s)
    requires q.target.binding in s.refs && (q.target.binding in c.bindings && after == Repaired(s.refs[q.target.binding], q) ==> AsksForItsTurn(s, q))
    requires var r := s.refs[q.target.binding];
             || (RepairAccepted(r, q) && after == Repaired(r, q))
             || (SealAccepted(r, q) && after == SealedRef(r))
    ensures forall b | b in c.bindings :: OneBehind(s.(refs := s.refs[q.target.binding := after]), b)
  {
    var t := s.(refs := s.refs[q.target.binding := after]);
    forall b | b in c.bindings
      ensures OneBehind(t, b)
    {
      assert OneBehind(s, b);
      if b == q.target.binding && RepairAccepted(s.refs[b], q) && after == Repaired(s.refs[b], q) {
        RepairIsRecent(s, q);
      }
    }
  }

  lemma RepairIsRecent(s: Cluster, q: RefRequest)
    requires s.history != [] && forall i, j | 0 <= i < j < |s.history| :: s.history[i].epoch < s.history[j].epoch
    requires AsksForItsTurn(s, q) && OneBehind(s, q.target.binding) && RepairAccepted(s.refs[q.target.binding], q)
    ensures OneBehind(s.(refs := s.refs[q.target.binding := Repaired(s.refs[q.target.binding], q)]), q.target.binding)
  {
    var b := q.target.binding;
    var turn :| turn in s.history && turn.epoch == q.epoch && Commits(s.authority, turn, b.space, q.target.desired);
    LaterTurn(s.history, turn, s.refs[b].epoch);
    assert AtTurn(s.authority, Repaired(s.refs[b], q), turn, b);
  }

  /** An issued epoch at or above the last two is one of them. */
  lemma LaterTurn(history: seq<Turn>, turn: Turn, epoch: nat)
    requires turn in history && turn.epoch >= epoch
    requires forall i, j | 0 <= i < j < |history| :: history[i].epoch < history[j].epoch
    requires epoch == LastTurn(history).epoch || (|history| > 1 && epoch == history[|history| - 2].epoch)
    ensures turn == LastTurn(history) || (|history| > 1 && turn == history[|history| - 2])
  {
    var i :| 0 <= i < |history| && history[i] == turn;
  }

  /** When a later selection commits, every covered ref is at the one before. */
  lemma SelectionLeavesOneBehind(p: Id, c: Config, s: Cluster, t: Cluster)
    requires Inv(p, s) && LagInv(c, s) && StepOk(p, s, t) && t.refs == s.refs
    requires |t.history| == |s.history| + 1
    requires |s.history| > 1 ==> RecordCurrent(s.authority, c) && c.projectId == p
    ensures forall b | b in c.bindings :: OneBehind(t, b)
  {
    var a := s.authority;
    forall b | b in c.bindings
      ensures OneBehind(t, b)
    {
      assert OneBehind(s, b);
      if |s.history| > 1 {
        CompletedIsAtTurn(p, c, s, b);
      }
      CommitsKept(a, t.authority, LastTurn(s.history), b.space, s.refs[b].oid.value);
      assert t.history[|t.history| - 2] == LastTurn(s.history);
    }
  }

  /** A covered ref of a completed selection is at that selection. */
  lemma CompletedIsAtTurn(p: Id, c: Config, s: Cluster, b: Binding)
    requires Inv(p, s) && CurrentlyComplete(p, s.authority) && b in c.bindings
    requires RecordCurrent(s.authority, c) && c.projectId == p
    ensures b in s.refs && AtTurn(s.authority, s.refs[b], LastTurn(s.history), b)
  {
    var a := s.authority;
    CompletionCertifies(p, s);
    var i :| 0 <= i < |c.bindings| && c.bindings[i] == b;
    assert Selected(a, c)[i] in a.projections[p].bindings;
    SelectedAsks(a, c);
  }

  lemma QuietKeeps(p: Id, c: Config, s: Cluster, t: Cluster)
    requires LagInv(c, s) && StepOk(p, s, t) && t.refs == s.refs && t.history == s.history
    ensures forall b | b in c.bindings :: OneBehind(t, b)
  {
    forall b | b in c.bindings
      ensures OneBehind(t, b)
    {
      assert OneBehind(s, b);
    }
  }

  lemma WorkersKept(p: Id, c: Config, s: Cluster, step: Step, t: Cluster)
    requires (forall w | w in s.workers :: s.workers[w].c == c) && Next(p, s, step, t) && OwnStep(c, step)
    ensures forall w | w in t.workers :: t.workers[w].c == c
  {
  }

  lemma RefsOnlyArrive(p: Id, c: Config, s: Cluster, step: Step, t: Cluster)
    requires Next(p, s, step, t) && OwnStep(c, step)
    ensures t.refs == s.refs || step.ArriveRepair? || step.ArriveSeal?
    ensures step.ArriveRepair? || step.ArriveSeal? ==>
              && t.history == s.history && t.authority == s.authority && t.sent == s.sent
              && step.q in s.sent && step.q.target.binding in s.refs
              && var r := s.refs[step.q.target.binding];
              && (step.ArriveRepair? ==> RepairAccepted(r, step.q) && t.refs == s.refs[step.q.target.binding := Repaired(r, step.q)])
              && (step.ArriveSeal? ==> SealAccepted(r, step.q) && t.refs == s.refs[step.q.target.binding := SealedRef(r)])
  {
  }

  /** Every step keeps every covered ref at the last selection or the one
      before, as long as the repairs applied ask for their own turn's commit. */
  lemma NextKeepsLag(p: Id, c: Config, s: Cluster, step: Step, t: Cluster)
    requires Inv(p, s) && LagInv(c, s) && Next(p, s, step, t) && OwnStep(c, step)
    requires RepairAsks(c, s, step)
    ensures LagInv(c, t)
  {
    NextKeepsInv(p, s, step, t);
    WorkersKept(p, c, s, step, t);
    RefsOnlyArrive(p, c, s, step, t);
    if step.ArriveRepair? || step.ArriveSeal? {
      ArrivalStep(p, c, s, step, t);
    } else if t.history == s.history {
      QuietKeeps(p, c, s, t);
    } else {
      if |s.history| > 1 {
        SelectingCovers(p, s, step, t);
      }
      SelectionLeavesOneBehind(p, c, s, t);
    }
  }

  lemma ArrivalStep(p: Id, c: Config, s: Cluster, step: Step, t: Cluster)
    requires Inv(p, s) && LagInv(c, s) && RepairAsks(c, s, step) && (step.ArriveRepair? || step.ArriveSeal?)
    requires t.history == s.history && t.authority == s.authority && step.q.target.binding in s.refs
    requires var q := step.q;
             var r := s.refs[q.target.binding];
             if step.ArriveRepair? then RepairAccepted(r, q) && t.refs == s.refs[q.target.binding := Repaired(r, q)]
             else SealAccepted(r, q) && t.refs == s.refs[q.target.binding := SealedRef(r)]
    ensures forall b | b in c.bindings :: OneBehind(t, b)
  {
    var after := t.refs[step.q.target.binding];
    ArrivalKeeps(p, c, s, step.q, after);
    forall b | b in c.bindings
      ensures OneBehind(t, b)
    {
      assert OneBehind(s.(refs := s.refs[step.q.target.binding := after]), b);
    }
  }

  /** A repair that leaves its ref one behind asked for its own turn's commit. */
  lemma AppliedRepairAsked(p: Id, s: Cluster, step: Step, t: Cluster)
    requires Next(p, s, step, t) && step.ArriveRepair? && t.history != [] && OneBehind(t, step.q.target.binding)
    ensures AsksForItsTurn(s, step.q)
  {
    var r := t.refs[step.q.target.binding];
    assert r == Repaired(s.refs[step.q.target.binding], step.q);
    var turn :| turn in t.history && AtTurn(t.authority, r, turn, step.q.target.binding);
    assert turn in s.history;
  }

  // ------------------------------------------------------------------------ runs

  /** The covered refs start at the unlanded canonical revision's commits. */
  ghost predicate LagInit(p: Id, c: Config, s: Cluster) {
    && Init(p, s)
    && forall b | b in c.bindings :: b in s.refs && AtTurn(s.authority, s.refs[b], s.history[0], b)
  }

  /** A run in which only reconcilers of the configuration write refs. */
  ghost predicate OwnRun(p: Id, c: Config, run: seq<Cluster>, steps: seq<Step>) {
    && IsRun(p, run, steps) && LagInit(p, c, run[0])
    && forall i | 0 <= i < |steps| :: OwnStep(c, steps[i])
  }

  ghost predicate RunAsks(c: Config, run: seq<Cluster>, steps: seq<Step>, k: nat)
    requires k <= |steps| <= |run|
  {
    forall i {:trigger RepairAsks(c, run[i], steps[i])} | 0 <= i < k :: RepairAsks(c, run[i], steps[i])
  }

  lemma {:induction false} RunKeepsLag(p: Id, c: Config, run: seq<Cluster>, steps: seq<Step>, k: nat)
    requires OwnRun(p, c, run, steps) && k < |run| && RunAsks(c, run, steps, k)
    ensures LagInv(c, run[k])
  {
    if k > 0 {
      assert RepairAsks(c, run[k - 1], steps[k - 1]);
      RunKeepsLag(p, c, run, steps, k - 1);
      RunKeepsInv(p, run, steps, k - 1);
      NextKeepsLag(p, c, run[k - 1], steps[k - 1], run[k]);
    }
  }

  /** Exactly when every covered ref, in every state of a run, carries the epoch
      and the commit of the canonical selection or of the one before it: when
      every repair applied asked for the commit of the selection whose epoch it
      carried. */
  lemma RefsStayOneBehindIff(p: Id, c: Config, run: seq<Cluster>, steps: seq<Step>)
    requires OwnRun(p, c, run, steps)
    ensures (forall k | 0 <= k < |run| :: LagInv(c, run[k])) <==> RunAsks(c, run, steps, |steps|)
  {
    if RunAsks(c, run, steps, |steps|) {
      forall k | 0 <= k < |run|
        ensures LagInv(c, run[k])
      {
        RunKeepsLag(p, c, run, steps, k);
      }
    }
    if forall k | 0 <= k < |run| :: LagInv(c, run[k]) {
      forall i | 0 <= i < |steps|
        ensures RepairAsks(c, run[i], steps[i])
      {
        assert LagInv(c, run[i + 1]);
        if steps[i].ArriveRepair? && steps[i].q.target.binding in c.bindings {
          AppliedRepairAsked(p, run[i], steps[i], run[i + 1]);
        }
      }
    }
  }

  lemma {:induction false} CurrentLoopsAsk(p: Id, c: Config, run: seq<Cluster>, steps: seq<Step>, k: nat)
    requires IsRun(p, run, steps) && k < |run|
    requires forall i | 0 <= i < |run| :: LoopsCurrent(run[i])
    ensures SentAsk(run[k])
  {
    if k > 0 {
      CurrentLoopsAsk(p, c, run, steps, k - 1);
      RunKeepsInv(p, run, steps, k - 1);
      NextKeepsInv(p, run[k - 1], steps[k - 1], run[k]);
      RequestsKept(p, run[k - 1], run[k]);
    }
  }

  /** So it is in every run whose suspended loops stay current. */
  lemma RefsStayOneBehind(p: Id, c: Config, run: seq<Cluster>, steps: seq<Step>, k: nat, b: Binding)
    requires OwnRun(p, c, run, steps) && k < |run| && b in c.bindings
    requires forall i | 0 <= i < |run| :: LoopsCurrent(run[i])
    ensures run[k].history != [] && OneBehind(run[k], b)
  {
    forall i | 0 <= i < k
      ensures RepairAsks(c, run[i], steps[i])
    {
      CurrentLoopsAsk(p, c, run, steps, i);
      if steps[i].ArriveRepair? {
        assert Next(p, run[i], steps[i], run[i + 1]);
      }
    }
    RunKeepsLag(p, c, run, steps, k);
  }

  // ------------------------------------------------------------- the commits alone

  /** The commit is the one the canonical selection, or its parent, picked. */
  predicate IsRecent(s: Cluster, space: Id, oid: Oid)
    requires s.history != []
  {
    || Commits(s.authority, LastTurn(s.history), space, oid)
    || (|s.history| > 1 && Commits(s.authority, s.history[|s.history| - 2], space, oid))
  }

  predicate HoldsRecent(s: Cluster, b: Binding)
    requires s.history != []
  {
    b in s.refs && s.refs[b].oid.Some? && IsRecent(s, b.space, s.refs[b].oid.value)
  }

  /** Every covered ref holds the canonical revision's commit or its parent's. */
  ghost predicate AllRecent(c: Config, s: Cluster) {
    s.history != [] && forall b | b in c.bindings :: HoldsRecent(s, b)
  }

  /** A repair of a covered ref that is applied asks for such a commit. */
  predicate RepairRecent(c: Config, s: Cluster, step: Step) {
    step.ArriveRepair? && step.q.target.binding in c.bindings ==> s.history != [] && IsRecent(s, step.q.target.binding.space, step.q.target.desired)
  }

  lemma SelectionLeavesRecent(p: Id, c: Config, s: Cluster, t: Cluster)
    requires Inv(p, s) && AllRecent(c, s) && StepOk(p, s, t) && t.refs == s.refs
    requires |t.history| == |s.history| + 1
    requires |s.history| > 1 ==> RecordCurrent(s.authority, c) && c.projectId == p
    ensures AllRecent(c, t)
  {
    forall b | b in c.bindings
      ensures HoldsRecent(t, b)
    {
      assert HoldsRecent(s, b);
      if |s.history| > 1 {
        CompletedIsAtTurn(p, c, s, b);
      }
      CommitsKept(s.authority, t.authority, LastTurn(s.history), b.space, s.refs[b].oid.value);
      assert t.history[|t.history| - 2] == LastTurn(s.history);
    }
  }

  lemma NextKeepsRecent(p: Id, c: Config, s: Cluster, step: Step, t: Cluster)
    requires Inv(p, s) && Next(p, s, step, t) && OwnStep(c, step)
    requires AllRecent(c, s) && (forall w | w in s.workers :: s.workers[w].c == c) && RepairRecent(c, s, step)
    ensures AllRecent(c, t)
  {
    NextKeepsInv(p, s, step, t);
    RefsOnlyArrive(p, c, s, step, t);
    if step.ArriveRepair? || step.ArriveSeal? {
      forall b | b in c.bindings
        ensures HoldsRecent(t, b)
      {
        assert HoldsRecent(s, b);
      }
    } else if t.history == s.history {
      RecentKept(c, s, t);
    } else {
      if |s.history| > 1 {
        SelectingCovers(p, s, step, t);
      }
      SelectionLeavesRecent(p, c, s, t);
    }
  }

  lemma RecentKept(c: Config, s: Cluster, t: Cluster)
    requires AllRecent(c, s) && Extends(s.authority, t.authority) && t.refs == s.refs && t.history == s.history
    ensures AllRecent(c, t)
  {
    forall b | b in c.bindings
      ensures HoldsRecent(t, b)
    {
      assert HoldsRecent(s, b);
    }
  }

  ghost predicate RunRepairsRecent(c: Config, run: seq<Cluster>, steps: seq<Step>, k: nat)
    requires k <= |steps| <= |run|
  {
    forall i {:trigger RepairRecent(c, run[i], steps[i])} | 0 <= i < k :: RepairRecent(c, run[i], steps[i])
  }

  lemma {:induction false} RunKeepsRecent(p: Id, c: Config, run: seq<Cluster>, steps: seq<Step>, k: nat)
    requires OwnRun(p, c, run, steps) && k < |run| && RunRepairsRecent(c, run, steps, k)
    ensures AllRecent(c, run[k]) && forall w | w in run[k].workers :: run[k].workers[w].c == c
  {
    if k > 0 {
      assert RepairRecent(c, run[k - 1], steps[k - 1]);
      RunKeepsRecent(p, c, run, steps, k - 1);
      RunKeepsInv(p, run, steps, k - 1);
      NextKeepsRecent(p, c, run[k - 1], steps[k - 1], run[k]);
      WorkersKept(p, c, run[k - 1], steps[k - 1], run[k]);
    }
  }

  /** Exactly when every covered ref holds the canonical revision's commit or its
      parent's in every state of a run: when every repair applied asked for one
      of these two commits. */
  lemma RefsHoldRecentIff(p: Id, c: Config, run: seq<Cluster>, steps: seq<Step>)
    requires OwnRun(p, c, run, steps)
    ensures (forall k | 0 <= k < |run| :: AllRecent(c, run[k])) <==> RunRepairsRecent(c, run, steps, |steps|)
  {
    if RunRepairsRecent(c, run, steps, |steps|) {
      forall k | 0 <= k < |run|
        ensures AllRecent(c, run[k])
      {
        RunKeepsRecent(p, c, run, steps, k);
      }
    }
    if forall k | 0 <= k < |run| :: AllRecent(c, run[k]) {
      forall i | 0 <= i < |steps|
        ensures RepairRecent(c, run[i], steps[i])
      {
        assert AllRecent(c, run[i + 1]);
        if steps[i].ArriveRepair? && steps[i].q.target.binding in c.bindings {
          AppliedRepairRecent(p, run[i], steps[i], run[i + 1]);
        }
      }
    }
  }

  lemma AppliedRepairRecent(p: Id, s: Cluster, step: Step, t: Cluster)
    requires Next(p, s, step, t) && step.ArriveRepair? && t.history != [] && HoldsRecent(t, step.q.target.binding)
    ensures s.history != [] && IsRecent(s, step.q.target.binding.space, step.q.target.desired)
  {
    assert t.refs[step.q.target.binding] == Repaired(s.refs[step.q.target.binding], step.q);
  }

  // --------------------------------------------------- a loop older than its record

  /** The commit a suspended loop will ask for is the one its record selects. */
  predicate AsksForRecord(a: Snapshot, w: Worker)
    requires !w.Probing? && w.Shaped()
  {
    Commits(a, Turn(w.record.projectRevisionId, w.record.epoch), w.targets[w.i].binding.space, w.targets[w.i].desired)
  }

  /** Exactly when an accepted repair keeps its ref one behind: when the loop's
      target, taken from an older record or not, names the commit selected by
      the record reloaded before the repair. */
  lemma RepairKeepsIff(p: Id, c: Config, s: Cluster, w: Worker, q: RefRequest)
    requires Inv(p, s) && WorkerInv(p, s.authority, s.refs, s.history, w) && w.Repairing? && Sends(w, q)
    requires q.target.binding in s.refs && OneBehind(s, q.target.binding) && RepairAccepted(s.refs[q.target.binding], q)
    ensures OneBehind(s.(refs := s.refs[q.target.binding := Repaired(s.refs[q.target.binding], q)]), q.target.binding)
            <==> AsksForRecord(s.authority, w)
  {
    var b := q.target.binding;
    var after := Repaired(s.refs[b], q);
    var turn := Turn(w.record.projectRevisionId, w.record.epoch);
    assert turn in s.history;
    LaterTurn(s.history, turn, s.refs[b].epoch);
    EpochNamesTurn(s.history, turn);
    assert AsksForRecord(s.authority, w) <==> AtTurn(s.authority, after, turn, b);
  }

  lemma EpochNamesTurn(history: seq<Turn>, turn: Turn)
    requires turn in history
    requires forall i, j | 0 <= i < j < |history| :: history[i].epoch < history[j].epoch
    ensures forall other | other in history && other.epoch == turn.epoch :: other == turn
  {
    var i :| 0 <= i < |history| && history[i] == turn;
    forall other | other in history && other.epoch == turn.epoch
      ensures other == turn
    {
      var j :| 0 <= j < |history| && history[j] == other;
    }
  }
}
