/** What holds in every reachable state of the protocol, and what one
    synchronous stretch or one step must leave behind. */
module LandingInvariants {
  import opened Basics
  import opened Authority
  import opened CohortLanding
  import opened CanonicalRefs
  import opened FencedLanding

  /** The epoch and revision of a record are one of the selections made. */
  ghost predicate Issued(history: seq<Turn>, record: ProjectionRecord) {
    Turn(record.projectRevisionId, record.epoch) in history
  }

  /** The ref is sealed exactly for the record, or a later epoch has taken it. */
  predicate Settled(refs: map<Binding, RefState>, record: ProjectionRecord, i: nat)
    requires i < |record.bindings|
  {
    var target := record.bindings[i];
    && target.binding in refs
    && (SealedExactly(refs[target.binding], record, target) || refs[target.binding].epoch > record.epoch)
  }

  ghost predicate AllSettled(refs: map<Binding, RefState>, record: ProjectionRecord) {
    forall i | 0 <= i < |record.bindings| :: Settled(refs, record, i)
  }

  /** Every bound ref is sealed at the record's epoch with the desired commit. */
  ghost predicate AllSealed(refs: map<Binding, RefState>, record: ProjectionRecord) {
    forall target | target in record.bindings ::
      target.binding in refs && SealedExactly(refs[target.binding], record, target)
  }

  /** The canonical selections: each the child of the one before, never repeated,
      under strictly increasing epochs. */
  ghost predicate LineageInv(p: Id, a: Snapshot, history: seq<Turn>) {
    && history != []
    && p in a.canonicalByProject && a.canonicalByProject[p] == LastTurn(history).revisionId
    && LastTurn(history).epoch <= a.version
    && (forall i, j | 0 <= i < j < |history| ::
          history[i].revisionId != history[j].revisionId && history[i].epoch < history[j].epoch)
    && (forall i | 0 <= i < |history| :: history[i].revisionId in a.projectRevisions)
    && (forall i | 0 <= i < |history| :: a.projectRevisions[history[i].revisionId].projectId == p)
    && a.projectRevisions[history[0].revisionId].parent.None?
    && forall i | 0 < i < |history| ::
         && a.projectRevisions[history[i].revisionId].parent == Some(history[i - 1].revisionId)
         && HasLanded(a.projectRevisions[history[i].revisionId])
  }

  /** A Landing the Authority recorded, with the version it was given. */
  datatype Made = Made(landing: Landing, epoch: nat)

  predicate LandedBy(a: Snapshot, p: Id, key: Key) {
    && key in a.idempotency && a.idempotency[key].result.LandingResult?
    && a.idempotency[key].result.landing.projectId == p
  }

  function MadeLandings(p: Id, a: Snapshot): map<Key, Made> {
    map key | key in a.idempotency && LandedBy(a, p, key) ::
      Made(a.idempotency[key].result.landing, a.idempotency[key].result.version)
  }

  /** The Landing made the i-th selection. */
  predicate MadeTurn(history: seq<Turn>, made: Made, i: int) {
    && 0 < i < |history|
    && history[i] == Turn(made.landing.projectRevisionId, made.epoch)
    && history[i - 1].revisionId == made.landing.previous
  }

  /** The Landing is stored under its cohort's key, made one selection, and
      landed distinct Change Revisions based on that selection's predecessor. */
  ghost predicate MadeInv(revisions: map<Id, ChangeRevision>, history: seq<Turn>, key: Key, made: Made) {
    && key == CohortKey(made.landing.cohortId)
    && (exists i :: MadeTurn(history, made, i))
    && Distinct(made.landing.changeRevisionIds)
    && forall id | id in made.landing.changeRevisionIds :: id in revisions && revisions[id].Base() == made.landing.previous
  }

  ghost predicate LandingsInv(landings: map<Key, Made>, revisions: map<Id, ChangeRevision>, history: seq<Turn>) {
    && (forall key | key in landings :: MadeInv(revisions, history, key, landings[key]))
    && (forall k, l | k in landings && l in landings
                      && landings[k].landing.projectRevisionId == landings[l].landing.projectRevisionId :: k == l)
  }

  /** The record asks every ref for the commit its revision selected. */
  ghost predicate AsksForSelection(a: Snapshot, record: ProjectionRecord) {
    && record.projectRevisionId in a.projectRevisions
    && var snapshots := a.projectRevisions[record.projectRevisionId].snapshots;
    forall target | target in record.bindings ::
      target.binding.space in snapshots && target.desired == snapshots[target.binding.space]
  }

  ghost predicate RecordOk(p: Id, a: Snapshot, refs: map<Binding, RefState>, history: seq<Turn>, record: ProjectionRecord) {
    && record.projectId == p
    && Issued(history, record)
    && AsksForSelection(a, record)
    && (record.state == Complete ==> AllSettled(refs, record))
  }

  ghost predicate AuthorityInv(p: Id, a: Snapshot, refs: map<Binding, RefState>, history: seq<Turn>) {
    && LineageInv(p, a, history)
    && LandingsInv(MadeLandings(p, a), a.changeRevisions, history)
    && (p in a.projections && a.projections[p].state == Complete ==> RecordOk(p, a, refs, history, a.projections[p]))
  }

  ghost predicate DutyInv(p: Id, a: Snapshot, w: Worker)
    requires w.Probing?
  {
    w.duty.Selecting? ==>
      && w.duty.previous.version <= a.version
      && (w.duty.previous.version == a.version ==> w.duty.previous == a)
      && Admit(w.duty.previous, p, w.duty.request) == Gated
      && CurrentRecord(w.duty.previous, w.c) == Some(w.record)
      && w.record.state == Complete
  }

  ghost predicate WorkerInv(p: Id, a: Snapshot, refs: map<Binding, RefState>, history: seq<Turn>, w: Worker) {
    && w.c.projectId == p
    && w.Shaped()
    && RecordOk(p, a, refs, history, w.record)
    && (w.Probing? ==>
          && DutyInv(p, a, w)
          && (forall j | 0 <= j < w.i :: Settled(refs, w.record, j))
          && (w.reply.Some? && w.reply.value.sealed && Exact(w.reply.value, w.record, w.record.bindings[w.i])
              ==> Settled(refs, w.record, w.i)))
  }

  ghost predicate EpochsInv(refs: map<Binding, RefState>, sent: set<RefRequest>, epoch: nat) {
    && (forall b | b in refs :: refs[b].epoch <= epoch)
    && (forall q | q in sent :: q.epoch <= epoch)
  }

  ghost predicate Inv(p: Id, s: Cluster) {
    && AuthorityInv(p, s.authority, s.refs, s.history)
    && (forall w | w in s.workers :: WorkerInv(p, s.authority, s.refs, s.history, s.workers[w]))
    && EpochsInv(s.refs, s.sent, LastTurn(s.history).epoch)
  }

  // ---------------------------------------------------------- steps and stretches

  function HistoryAfter(p: Id, a: Snapshot, next: Snapshot, history: seq<Turn>): seq<Turn> {
    if p in next.canonicalByProject && p in a.canonicalByProject && next.canonicalByProject[p] != a.canonicalByProject[p]
    then history + [Turn(next.canonicalByProject[p], next.version)]
    else history
  }

  /** Later snapshots are told apart by their version. */
  predicate Extends(a: Snapshot, next: Snapshot) {
    && next.version >= a.version
    && (next.version == a.version ==> next == a)
    && forall id | id in a.projectRevisions :: id in next.projectRevisions && next.projectRevisions[id] == a.projectRevisions[id]
  }

  /** What a synchronous stretch must leave when it starts from snapshot `a`. */
  ghost predicate EffectOk(p: Id, a: Snapshot, refs: map<Binding, RefState>, history: seq<Turn>, e: Effect) {
    var after := HistoryAfter(p, a, e.authority, history);
    && AuthorityInv(p, e.authority, refs, after)
    && Extends(a, e.authority)
    && (e.worker.Some? ==> WorkerInv(p, e.authority, refs, after, e.worker.value))
    && (e.request.Some? ==> RequestOk(e, after))
    && (after != history && |history| > 1 ==> CurrentlyComplete(p, a))
    && (CompletesIn(p, a, e.authority) ==> CurrentlyComplete(p, e.authority))
  }

  /** The stored record is complete after the stretch and was not before. */
  predicate CompletesIn(p: Id, a: Snapshot, next: Snapshot) {
    && p in next.projections && next.projections[p].state == Complete
    && (p in a.projections ==> a.projections[p] != next.projections[p])
  }

  /** The Project's stored record is complete and is for the current selection. */
  predicate CurrentlyComplete(p: Id, a: Snapshot) {
    && p in a.canonicalByProject && p in a.projections
    && a.projections[p].state == Complete
    && a.projections[p].projectRevisionId == a.canonicalByProject[p]
  }

  /** The stored record is the exact one for the selection under a qualified
      configuration: one ref in the enrolled repository of every Source Space. */
  ghost predicate CoversProject(p: Id, a: Snapshot) {
    exists c: Config :: c.projectId == p && RecordCurrent(a, c)
  }

  /** The stretch selects nothing. */
  predicate Quiet(a: Snapshot, e: Effect) {
    e.authority.canonicalByProject == a.canonicalByProject
  }

  /** The worker is suspended on this request. */
  predicate Sends(w: Worker, q: RefRequest) {
    (w.Repairing? || w.Sealing?) && w.Shaped() && q == RequestFor(w.record, w.targets[w.i], w.before)
  }

  /** A request asks for the target its worker is at, under its record's epoch. */
  predicate RequestOk(e: Effect, history: seq<Turn>)
    requires e.request.Some? && history != []
  {
    && e.request.value.epoch <= LastTurn(history).epoch
    && e.worker.Some?
    && Sends(e.worker.value, e.request.value)
  }

  /** The probes passed so far, and what the round is for. */
  ghost predicate ProbesOk(p: Id, a: Snapshot, refs: map<Binding, RefState>, history: seq<Turn>,
                           c: Config, record: ProjectionRecord, i: nat, duty: Duty) {
    && c.projectId == p
    && i <= |record.bindings|
    && RecordOk(p, a, refs, history, record)
    && (forall j | 0 <= j < i :: Settled(refs, record, j))
    && (duty.Selecting? ==>
          && duty.previous.version <= a.version
          && (duty.previous.version == a.version ==> duty.previous == a)
          && Admit(duty.previous, p, duty.request) == Gated
          && CurrentRecord(duty.previous, c) == Some(record)
          && record.state == Complete)
  }

  /** What every step keeps and what it may change. */
  ghost predicate StepOk(p: Id, s: Cluster, t: Cluster) {
    && Inv(p, t)
    && s.history <= t.history && |t.history| <= |s.history| + 1
    && (t.history != s.history && |s.history| > 1 ==> CurrentlyComplete(p, s.authority))
    && (CompletesIn(p, s.authority, t.authority) ==> CurrentlyComplete(p, t.authority))
    && Extends(s.authority, t.authority)
    && (forall q | q in t.sent && q !in s.sent :: exists w | w in t.workers :: Sends(t.workers[w], q))
  }

  /** A step that selects does so under a later epoch and, after the first
      selection, from a certified completion that covers the Project; no
      selection is undone. */
  ghost predicate StepFenced(p: Id, s: Cluster, t: Cluster) {
    && s.history <= t.history
    && (t.history != s.history ==>
          && s.history != []
          && LastTurn(t.history).epoch > LastTurn(s.history).epoch
          && (|s.history| > 1 ==> CurrentlyComplete(p, s.authority) && AllSealed(s.refs, s.authority.projections[p])
                                  && CoversProject(p, s.authority)))
  }
}
