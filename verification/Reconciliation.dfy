/** One reconcile call at a time, against a provider that answers: what a call
    leaves when it is killed at any await, and when an uninterrupted one ends. */
module Reconciliation {
  import opened Basics
  import opened Authority
  import opened CohortLanding
  import opened CanonicalRefs
  import opened FencedLanding

  // ------------------------------------------------------------- what is recorded

  predicate HasRecord(a: Snapshot, c: Config) {
    && c.projectId in a.canonicalByProject
    && c.projectId in a.projections
    && a.projections[c.projectId].projectRevisionId == a.canonicalByProject[c.projectId]
  }

  /** A sealed entry on the record reports the ref as it stands. */
  predicate EntryFits(refs: map<Binding, RefState>, c: Config, record: ProjectionRecord, target: SelectedRef) {
    && target.binding in refs
    && (target.binding.space in record.sealed ==>
          var entry := record.sealed[target.binding.space];
          && entry.sealed
          && ObservationBound(entry, c, target.binding, entry.challenge)
          && Exact(entry, record, target)
          && SealedExactly(refs[target.binding], record, target)
          && entry.generation == refs[target.binding].generation)
  }

  /** Checkpoints saved for the space carry generations the ref has reached. */
  ghost predicate CheckpointsFit(a: Snapshot, refs: map<Binding, RefState>, record: ProjectionRecord, target: SelectedRef) {
    forall key | key in a.idempotency && key.CheckpointKey? && key.recordId == record.id
                 && (key.phase == RepairedPhase(target.binding.space) || key.phase == SealedPhase(target.binding.space)) ::
      && key.generation.Some?
      && target.binding in refs && key.generation.value <= refs[target.binding].generation
      && a.idempotency[key].fingerprint == CheckpointPrint(record, key.phase, key.generation)
  }

  ghost predicate RecordFits(a: Snapshot, refs: map<Binding, RefState>, c: Config, record: ProjectionRecord) {
    && (forall target | target in record.bindings :: EntryFits(refs, c, record, target) && CheckpointsFit(a, refs, record, target))
    && (forall space | space in record.sealed :: exists target | target in record.bindings :: target.binding.space == space)
    && (CheckpointKey(record.id, CompletePhase, None) in a.idempotency ==> record.state == Complete)
    && (record.state == Complete ==> forall target | target in record.bindings :: target.binding.space in record.sealed)
  }

  // ---------------------------------------------------------- when it can complete

  /** The ref can be brought to the record's selection: it is not ahead of it,
      holds one of the two commits, and is not sealed on the wrong one. */
  predicate Ready(r: RefState, revisionId: Id, epoch: nat, target: SelectedRef) {
    && r.epoch <= epoch
    && (r.epoch == epoch ==> r.projectRevisionId == Some(revisionId) && r.candidate == Some(target.desired))
    && (r.oid == Some(target.base) || r.oid == Some(target.desired))
    && (r.epoch == epoch && r.sealed ==> r.oid == Some(target.desired))
  }

  /** The seal the ref now has was checkpointed for the record, yet the record
      no longer lists it. */
  predicate SealLost(a: Snapshot, r: RefState, record: ProjectionRecord, space: Id) {
    && r.sealed && r.epoch == record.epoch
    && CheckpointKey(record.id, SealedPhase(space), Some(r.generation)) in a.idempotency
    && space !in record.sealed
  }

  ghost predicate AllReady(a: Snapshot, refs: map<Binding, RefState>, c: Config, epoch: nat)
    requires Coverable(a, c)
  {
    forall target | target in Selected(a, c) ::
      target.binding in refs && Ready(refs[target.binding], a.canonicalByProject[c.projectId], epoch, target)
  }

  ghost predicate NoSealLost(a: Snapshot, refs: map<Binding, RefState>, c: Config)
    requires Coverable(a, c)
  {
    HasRecord(a, c) ==>
      forall target | target in Selected(a, c) ::
        target.binding in refs && !SealLost(a, refs[target.binding], a.projections[c.projectId], target.binding.space)
  }

  /** The epoch of the current selection, from its record or its Landing. */
  ghost predicate EpochIs(a: Snapshot, c: Config, epoch: nat)
    requires Coverable(a, c)
  {
    if HasRecord(a, c) then a.projections[c.projectId].epoch == epoch
    else
      && (exists key | key in a.idempotency :: LandsCanonical(a, c, key))
      && forall key | LandsCanonical(a, c, key) ::
           && BeginsFrom(a, a.canonicalByProject[c.projectId], key)
           && a.idempotency[key].result.version == epoch
           && a.idempotency[key].result.landing.projectId == c.projectId
           && a.idempotency[key].result.landing.id in a.landings
  }

  predicate LandsCanonical(a: Snapshot, c: Config, key: Key) {
    && c.projectId in a.canonicalByProject
    && key in a.idempotency && a.idempotency[key].result.LandingResult?
    && a.idempotency[key].result.landing.projectRevisionId == a.canonicalByProject[c.projectId]
  }

  /** What a completed or killed call leaves, and the next one starts from. */
  ghost predicate Recoverable(a: Snapshot, refs: map<Binding, RefState>, c: Config, epoch: nat) {
    && Coverable(a, c)
    && (forall b | b in c.bindings :: b in refs)
    && EpochIs(a, c, epoch)
    && (HasRecord(a, c) ==> RecordCurrent(a, c) && RecordFits(a, refs, c, a.projections[c.projectId]))
  }

  // ------------------------------------------------------- effects of one iteration

  /** Progress on one target: later checkpoints of the same record, about that
      target's space only, and writes of that target's ref only. */
  ghost predicate Progress(a: Snapshot, refs: map<Binding, RefState>, a': Snapshot, refs': map<Binding, RefState>, c: Config, target: SelectedRef) {
    && a'.canonicalByProject == a.canonicalByProject && a'.projects == a.projects && a'.repositories == a.repositories
    && a'.projectRevisions == a.projectRevisions && a'.landings == a.landings
    && c.projectId in a.projections && c.projectId in a'.projections
    && var record := a.projections[c.projectId];
    var record' := a'.projections[c.projectId];
    && record' == record.(repaired := record'.repaired, sealed := record'.sealed)
    && (forall space | space != target.binding.space ::
          (space in record'.sealed <==> space in record.sealed) && (space in record.sealed ==> record'.sealed[space] == record.sealed[space]))
    && (forall key | key in a.idempotency :: key in a'.idempotency && a'.idempotency[key] == a.idempotency[key])
    && (forall key | key in a'.idempotency && key !in a.idempotency ::
          key.CheckpointKey? && key.recordId == record.id
          && (key.phase == RepairedPhase(target.binding.space) || key.phase == SealedPhase(target.binding.space)))
    && target.binding in refs && refs'.Keys == refs.Keys
    && (forall b | b in refs && b != target.binding :: refs'[b] == refs[b])
    && refs'[target.binding].generation >= refs[target.binding].generation
  }

  lemma ProgressTrans(a: Snapshot, refs: map<Binding, RefState>, b: Snapshot, refs': map<Binding, RefState>,
                      d: Snapshot, refs'': map<Binding, RefState>, c: Config, target: SelectedRef)
    requires Progress(a, refs, b, refs', c, target) && Progress(b, refs', d, refs'', c, target)
    ensures Progress(a, refs, d, refs'', c, target)
  {
  }

  lemma ProgressCurrent(a: Snapshot, refs: map<Binding, RefState>, a': Snapshot, refs': map<Binding, RefState>, c: Config, target: SelectedRef)
    requires Progress(a, refs, a', refs', c, target) && RecordCurrent(a, c)
    ensures RecordCurrent(a', c) && Selected(a', c) == Selected(a, c)
  {
    var record := a.projections[c.projectId];
    var key :| key in a.idempotency
               && LandingAt(a, key, record.landingId, record.projectId, record.projectRevisionId, record.epoch, record.policyVersion);
    assert LandingAt(a', key, record.landingId, record.projectId, record.projectRevisionId, record.epoch, record.policyVersion);
  }

  /** Progress on one target leaves the others as they were. */
  lemma ProgressElsewhere(a: Snapshot, refs: map<Binding, RefState>, a': Snapshot, refs': map<Binding, RefState>,
                          c: Config, target: SelectedRef, other: SelectedRef)
    requires Progress(a, refs, a', refs', c, target)
    requires other.binding != target.binding && other.binding.space != target.binding.space && other.binding in refs
    ensures var record, record' := a.projections[c.projectId], a'.projections[c.projectId];
            && (EntryFits(refs, c, record, other) ==> EntryFits(refs', c, record', other))
            && (CheckpointsFit(a, refs, record, other) ==> CheckpointsFit(a', refs', record', other))
            && (SealLost(a, refs[other.binding], record, other.binding.space)
                <==> SealLost(a', refs'[other.binding], record', other.binding.space))
  {
  }

  /** The targets of a record have distinct spaces and bindings. */
  lemma TargetsApart(a: Snapshot, c: Config, i: nat, j: nat)
    requires Coverable(a, c) && i < |c.bindings| && j < |c.bindings| && i != j
    ensures Selected(a, c)[i].binding.space != Selected(a, c)[j].binding.space
    ensures Selected(a, c)[i].binding != Selected(a, c)[j].binding
  {
    assert Spaces(c.bindings)[i] == c.bindings[i].space && Spaces(c.bindings)[j] == c.bindings[j].space;
  }

  lemma ProgressFits(a: Snapshot, refs: map<Binding, RefState>, a': Snapshot, refs': map<Binding, RefState>, c: Config, i: nat)
    requires RecordCurrent(a, c) && i < |c.bindings| && RecordFits(a, refs, c, a.projections[c.projectId])
    requires Progress(a, refs, a', refs', c, Selected(a, c)[i])
    requires EntryFits(refs', c, a'.projections[c.projectId], Selected(a, c)[i])
    requires CheckpointsFit(a', refs', a'.projections[c.projectId], Selected(a, c)[i])
    requires a.projections[c.projectId].state == Pending
    ensures RecordFits(a', refs', c, a'.projections[c.projectId])
  {
    var targets := Selected(a, c);
    var record, record' := a.projections[c.projectId], a'.projections[c.projectId];
    assert targets[i] in record.bindings;
    forall target | target in record'.bindings
      ensures EntryFits(refs', c, record', target) && CheckpointsFit(a', refs', record', target)
    {
      var j :| 0 <= j < |targets| && targets[j] == target;
      if j != i {
        TargetsApart(a, c, i, j);
        assert EntryFits(refs, c, record, target);
        ProgressElsewhere(a, refs, a', refs', c, targets[i], target);
      }
    }
    forall space | space in record'.sealed
      ensures exists target | target in record'.bindings :: target.binding.space == space
    {
      if space != targets[i].binding.space {
        assert space in record.sealed;
      }
    }
  }

  /** A write of a ref the record has no seal for. */
  lemma WriteFits(a: Snapshot, refs: map<Binding, RefState>, after: RefState, c: Config, i: nat)
    requires RecordCurrent(a, c) && i < |c.bindings| && RecordFits(a, refs, c, a.projections[c.projectId])
    requires a.projections[c.projectId].state == Pending
    requires var target := Selected(a, c)[i];
             && target.binding in refs && after.generation > refs[target.binding].generation
             && target.binding.space !in a.projections[c.projectId].sealed
    ensures var refs' := refs[Selected(a, c)[i].binding := after];
            && Progress(a, refs, a, refs', c, Selected(a, c)[i])
            && RecordFits(a, refs', c, a.projections[c.projectId])
  {
    var target := Selected(a, c)[i];
    var refs' := refs[target.binding := after];
    assert target in a.projections[c.projectId].bindings;
    assert CheckpointsFit(a, refs, a.projections[c.projectId], target);
    ProgressFits(a, refs, a, refs', c, i);
  }

  /** A checkpoint about one target, written under a key not used before. */
  lemma CheckpointFits(a: Snapshot, refs: map<Binding, RefState>, c: Config, i: nat, record': ProjectionRecord, phase: Phase, auditId: Id)
    requires RecordCurrent(a, c) && i < |c.bindings| && RecordFits(a, refs, c, a.projections[c.projectId])
    requires a.projections[c.projectId].state == Pending
    requires var target := Selected(a, c)[i];
             var record := a.projections[c.projectId];
             && target.binding in refs
             && (phase == RepairedPhase(target.binding.space) || phase == SealedPhase(target.binding.space))
             && record' == record.(repaired := record'.repaired, sealed := record'.sealed)
             && (record'.sealed == record.sealed
                 || (target.binding.space in record'.sealed && record'.sealed == record.sealed[target.binding.space := record'.sealed[target.binding.space]]))
             && EntryFits(refs, c, record', target)
             && CheckpointKey(record.id, phase, Some(refs[target.binding].generation)) !in a.idempotency
    ensures var next := Checkpointed(a, record', phase, Some(refs[Selected(a, c)[i].binding].generation), auditId);
            && Save(a, record', phase, Some(refs[Selected(a, c)[i].binding].generation), auditId) == Written(next)
            && Progress(a, refs, next, refs, c, Selected(a, c)[i])
            && RecordFits(next, refs, c, record')
            && next.projections[c.projectId] == record'
  {
    var target := Selected(a, c)[i];
    var record := a.projections[c.projectId];
    var next := Checkpointed(a, record', phase, Some(refs[target.binding].generation), auditId);
    assert target in record.bindings;
    assert CheckpointsFit(a, refs, record, target);
    ProgressFits(a, refs, next, refs, c, i);
  }

  // ------------------------------------------------------------ one target's steps

  /** A call under way: its record is current, pending and fits the refs. */
  ghost predicate Going(a: Snapshot, refs: map<Binding, RefState>, c: Config) {
    && RecordCurrent(a, c)
    && (forall b | b in c.bindings :: b in refs)
    && RecordFits(a, refs, c, a.projections[c.projectId])
    && a.projections[c.projectId].state == Pending
  }

  /** What steps on the i-th target leave: the call still under way, nothing
      else touched, the ref no further from completing than before, and a ref
      already sealed for the record untouched. */
  ghost predicate Advance(a: Snapshot, refs: map<Binding, RefState>, a': Snapshot, refs': map<Binding, RefState>, c: Config, i: nat)
    requires Going(a, refs, c) && i < |c.bindings|
  {
    var target := Selected(a, c)[i];
    var record := a.projections[c.projectId];
    && Going(a', refs', c)
    && target.binding in refs && Progress(a, refs, a', refs', c, target)
    && var r, r' := refs[target.binding], refs'[target.binding];
    && (Ready(r, record.projectRevisionId, record.epoch, target) <==> Ready(r', record.projectRevisionId, record.epoch, target))
    && (!Ready(r, record.projectRevisionId, record.epoch, target) ==> r' == r)
    && (SealLost(a, r, record, target.binding.space) <==> SealLost(a', r', a'.projections[c.projectId], target.binding.space))
    && (r.sealed && r.epoch == record.epoch ==> r' == r)
  }

  lemma AdvanceRefl(a: Snapshot, refs: map<Binding, RefState>, c: Config, i: nat)
    requires Going(a, refs, c) && i < |c.bindings|
    ensures Advance(a, refs, a, refs, c, i)
  {
    assert Selected(a, c)[i].binding == c.bindings[i];
  }

  lemma AdvanceTrans(a: Snapshot, refs: map<Binding, RefState>, b: Snapshot, refs': map<Binding, RefState>,
                     d: Snapshot, refs'': map<Binding, RefState>, c: Config, i: nat)
    requires Going(a, refs, c) && i < |c.bindings|
    requires Advance(a, refs, b, refs', c, i) && Advance(b, refs', d, refs'', c, i)
    ensures Advance(a, refs, d, refs'', c, i)
  {
    var target := Selected(a, c)[i];
    ProgressCurrent(a, refs, b, refs', c, target);
    ProgressTrans(a, refs, b, refs', d, refs'', c, target);
  }

  /** An accepted repair of a target that was not competing. */
  lemma RepairAdvances(a: Snapshot, refs: map<Binding, RefState>, c: Config, i: nat, v: Observation)
    requires Going(a, refs, c) && i < |c.bindings|
    requires var target := Selected(a, c)[i];
             var record := a.projections[c.projectId];
             && target.binding in refs
             && v == Report(refs[target.binding], c, target.binding, v.challenge, v.receipt)
             && !Competing(v, record, target)
             && (v.epoch != record.epoch || v.oid != Some(target.desired))
             && RepairAccepted(refs[target.binding], RequestFor(record, target, v))
    ensures var target := Selected(a, c)[i];
            Advance(a, refs, a, refs[target.binding := Repaired(refs[target.binding], RequestFor(a.projections[c.projectId], target, v))], c, i)
  {
    var target := Selected(a, c)[i];
    var record := a.projections[c.projectId];
    assert target in record.bindings;
    assert EntryFits(refs, c, record, target) && CheckpointsFit(a, refs, record, target);
    WriteFits(a, refs, Repaired(refs[target.binding], RequestFor(record, target, v)), c, i);
  }

  lemma SealAdvances(a: Snapshot, refs: map<Binding, RefState>, c: Config, i: nat, v: Observation)
    requires Going(a, refs, c) && i < |c.bindings|
    requires var target := Selected(a, c)[i];
             var record := a.projections[c.projectId];
             && target.binding in refs
             && v == Report(refs[target.binding], c, target.binding, v.challenge, v.receipt)
             && SealAccepted(refs[target.binding], RequestFor(record, target, v))
    ensures var target := Selected(a, c)[i];
            Advance(a, refs, a, refs[target.binding := SealedRef(refs[target.binding])], c, i)
  {
    var target := Selected(a, c)[i];
    var record := a.projections[c.projectId];
    assert target in record.bindings;
    assert EntryFits(refs, c, record, target) && CheckpointsFit(a, refs, record, target);
    WriteFits(a, refs, SealedRef(refs[target.binding]), c, i);
  }

  /** The ref has just been written, so its generation has no checkpoint yet. */
  predicate NoCheckpointAt(a: Snapshot, record: ProjectionRecord, phase: Phase, generation: nat) {
    CheckpointKey(record.id, phase, Some(generation)) !in a.idempotency
  }

  lemma RepairSaveAdvances(a: Snapshot, refs: map<Binding, RefState>, c: Config, i: nat, v: Observation, auditId: Id)
    requires Going(a, refs, c) && i < |c.bindings|
    requires var target := Selected(a, c)[i];
             var record := a.projections[c.projectId];
             && target.binding in refs && v.generation == refs[target.binding].generation
             && NoCheckpointAt(a, record, RepairedPhase(target.binding.space), v.generation)
    ensures var space := Selected(a, c)[i].binding.space;
            var record := a.projections[c.projectId];
            var record' := record.(repaired := record.repaired[space := v]);
            var next := Checkpointed(a, record', RepairedPhase(space), Some(v.generation), auditId);
            && Save(a, record', RepairedPhase(space), Some(v.generation), auditId) == Written(next)
            && Advance(a, refs, next, refs, c, i)
            && next.projections[c.projectId] == record'
            && (forall g | NoCheckpointAt(a, record, SealedPhase(space), g) :: NoCheckpointAt(next, record, SealedPhase(space), g))
  {
    var target := Selected(a, c)[i];
    var record := a.projections[c.projectId];
    var record' := record.(repaired := record.repaired[target.binding.space := v]);
    assert target in record.bindings;
    assert EntryFits(refs, c, record, target);
    CheckpointFits(a, refs, c, i, record', RepairedPhase(target.binding.space), auditId);
    ProgressCurrent(a, refs, Checkpointed(a, record', RepairedPhase(target.binding.space), Some(v.generation), auditId), refs, c, target);
  }

  /** Recording a sealed observation: its checkpoint is written, or was before. */
  lemma SealSaveAdvances(a: Snapshot, refs: map<Binding, RefState>, c: Config, i: nat, v: Observation, auditId: Id)
    requires Going(a, refs, c) && i < |c.bindings|
    requires var target := Selected(a, c)[i];
             var record := a.projections[c.projectId];
             && target.binding in refs
             && v == Report(refs[target.binding], c, target.binding, v.challenge, v.receipt) && v.receipt != ""
             && SealedExactly(refs[target.binding], record, target)
             && target.binding.space !in record.sealed
    ensures var target := Selected(a, c)[i];
            var space := target.binding.space;
            var record := a.projections[c.projectId];
            var record' := record.(sealed := record.sealed[space := v]);
            var next := Checkpointed(a, record', SealedPhase(space), Some(v.generation), auditId);
            if SealLost(a, refs[target.binding], record, space)
            then Save(a, record', SealedPhase(space), Some(v.generation), auditId) == Replay
            else
              && Save(a, record', SealedPhase(space), Some(v.generation), auditId) == Written(next)
              && Advance(a, refs, next, refs, c, i)
              && next.projections[c.projectId] == record'
  {
    var target := Selected(a, c)[i];
    var record := a.projections[c.projectId];
    var record' := record.(sealed := record.sealed[target.binding.space := v]);
    assert target in record.bindings;
    assert CheckpointsFit(a, refs, record, target);
    assert target.binding == c.bindings[i] && target.binding in c.bindings;
    if !SealLost(a, refs[target.binding], record, target.binding.space) {
      CheckpointFits(a, refs, c, i, record', SealedPhase(target.binding.space), auditId);
      ProgressCurrent(a, refs, Checkpointed(a, record', SealedPhase(target.binding.space), Some(v.generation), auditId), refs, c, target);
    }
  }

  lemma TargetOids(a: Snapshot, c: Config, i: nat)
    requires Coverable(a, c) && i < |c.bindings|
    ensures IsOid(Selected(a, c)[i].desired) && IsOid(Selected(a, c)[i].base)
    ensures Selected(a, c)[i].binding == c.bindings[i] && c.bindings[i] in c.bindings
  {
    assert c.bindings[i] in c.bindings;
    assert BindingSelectable(a, a.projects[c.projectId], CanonicalRevision(a, c.projectId), ParentOf(a, CanonicalRevision(a, c.projectId)).value, c.bindings[i]);
  }

  // ------------------------------------------------------------------ a whole loop

  /** Where the j-th target stands compared with an earlier moment of the call. */
  ghost predicate Alike(a: Snapshot, refs: map<Binding, RefState>, a': Snapshot, refs': map<Binding, RefState>, c: Config, target: SelectedRef)
    requires c.projectId in a.projections && c.projectId in a'.projections
  {
    var record, record' := a.projections[c.projectId], a'.projections[c.projectId];
    && target.binding in refs && target.binding in refs'
    && var r, r' := refs[target.binding], refs'[target.binding];
    && (Ready(r, record.projectRevisionId, record.epoch, target) <==> Ready(r', record'.projectRevisionId, record'.epoch, target))
    && (SealLost(a, r, record, target.binding.space) <==> SealLost(a', r', record', target.binding.space))
    && (r.sealed && r.epoch == record.epoch ==> r' == r)
  }

  /** What the iterations so far, on whichever targets, leave of the whole. */
  ghost predicate Walked(a: Snapshot, refs: map<Binding, RefState>, a': Snapshot, refs': map<Binding, RefState>, c: Config)
    requires Going(a, refs, c)
  {
    && Going(a', refs', c)
    && a'.canonicalByProject == a.canonicalByProject
    && a'.projections[c.projectId].epoch == a.projections[c.projectId].epoch
    && Selected(a', c) == Selected(a, c)
    && forall j | 0 <= j < |c.bindings| :: Alike(a, refs, a', refs', c, Selected(a, c)[j])
  }

  /** The target is sealed, and the record lists it unless its seal was lost. */
  ghost predicate Finished(a: Snapshot, refs: map<Binding, RefState>, c: Config, j: nat)
    requires Going(a, refs, c) && j < |c.bindings|
  {
    var target := Selected(a, c)[j];
    var record := a.projections[c.projectId];
    && target.binding in refs
    && SealedExactly(refs[target.binding], record, target)
    && (target.binding.space in record.sealed <==> !SealLost(a, refs[target.binding], record, target.binding.space))
  }

  ghost predicate Hindered(a: Snapshot, refs: map<Binding, RefState>, c: Config, j: nat)
    requires Going(a, refs, c) && j < |c.bindings|
  {
    var target := Selected(a, c)[j];
    target.binding in refs ==> !Ready(refs[target.binding], a.projections[c.projectId].projectRevisionId, a.projections[c.projectId].epoch, target)
  }

  lemma WalkedRefl(a: Snapshot, refs: map<Binding, RefState>, c: Config)
    requires Going(a, refs, c)
    ensures Walked(a, refs, a, refs, c)
  {
    forall j | 0 <= j < |c.bindings|
      ensures Alike(a, refs, a, refs, c, Selected(a, c)[j])
    {
      TargetOids(a, c, j);
    }
  }

  lemma AlikeElsewhere(a: Snapshot, refs: map<Binding, RefState>, a': Snapshot, refs': map<Binding, RefState>, c: Config, i: nat, j: nat)
    requires Going(a, refs, c) && i < |c.bindings| && j < |c.bindings| && i != j
    requires Advance(a, refs, a', refs', c, i)
    ensures Selected(a', c) == Selected(a, c)
    ensures Alike(a, refs, a', refs', c, Selected(a, c)[j])
    ensures Finished(a, refs, c, j) ==> Finished(a', refs', c, j)
  {
    var targets := Selected(a, c);
    ProgressCurrent(a, refs, a', refs', c, targets[i]);
    TargetOids(a, c, j);
    TargetsApart(a, c, i, j);
    ProgressElsewhere(a, refs, a', refs', c, targets[i], targets[j]);
  }

  lemma AlikeHere(a: Snapshot, refs: map<Binding, RefState>, a': Snapshot, refs': map<Binding, RefState>, c: Config, i: nat)
    requires Going(a, refs, c) && i < |c.bindings|
    requires Advance(a, refs, a', refs', c, i)
    ensures Selected(a', c) == Selected(a, c)
    ensures Alike(a, refs, a', refs', c, Selected(a, c)[i])
    ensures a'.canonicalByProject == a.canonicalByProject
    ensures a'.projections[c.projectId].epoch == a.projections[c.projectId].epoch
  {
    ProgressCurrent(a, refs, a', refs', c, Selected(a, c)[i]);
  }

  lemma WalkedStep(a: Snapshot, refs: map<Binding, RefState>, b: Snapshot, refs': map<Binding, RefState>,
                   d: Snapshot, refs'': map<Binding, RefState>, c: Config, i: nat)
    requires Going(a, refs, c) && i < |c.bindings|
    requires Walked(a, refs, b, refs', c) && Advance(b, refs', d, refs'', c, i)
    ensures Walked(a, refs, d, refs'', c)
    ensures forall j | 0 <= j < |c.bindings| && j != i && Finished(b, refs', c, j) :: Finished(d, refs'', c, j)
  {
    AlikeHere(b, refs', d, refs'', c, i);
    forall j | 0 <= j < |c.bindings|
      ensures Alike(a, refs, d, refs'', c, Selected(a, c)[j])
      ensures j != i && Finished(b, refs', c, j) ==> Finished(d, refs'', c, j)
    {
      if j != i {
        AlikeElsewhere(b, refs', d, refs'', c, i, j);
      }
      AlikeTrans(a, refs, b, refs', d, refs'', c, Selected(a, c)[j]);
    }
  }

  lemma AlikeTrans(a: Snapshot, refs: map<Binding, RefState>, b: Snapshot, refs': map<Binding, RefState>,
                   d: Snapshot, refs'': map<Binding, RefState>, c: Config, target: SelectedRef)
    requires c.projectId in a.projections && c.projectId in b.projections && c.projectId in d.projections
    requires a.projections[c.projectId].epoch == b.projections[c.projectId].epoch
    requires Alike(a, refs, b, refs', c, target) && Alike(b, refs', d, refs'', c, target)
    ensures Alike(a, refs, d, refs'', c, target)
  {
  }

  lemma DistinctCount(items: seq<Id>)
    requires Distinct(items)
    ensures |set item | item in items| == |items|
  {
    if items != [] {
      DistinctCount(items[1..]);
      assert (set item | item in items) == {items[0]} + (set item | item in items[1..]);
    }
  }

  lemma EntryAt(a: Snapshot, refs: map<Binding, RefState>, c: Config, record: ProjectionRecord, i: nat)
    requires RecordCurrent(a, c) && record == a.projections[c.projectId] && RecordFits(a, refs, c, record) && i < |record.bindings|
    ensures EntryFits(refs, c, record, record.bindings[i]) && IsOid(record.bindings[i].desired)
  {
    assert record.bindings[i] in record.bindings;
    TargetOids(a, c, i);
  }

  predicate AllListed(record: ProjectionRecord) {
    forall j | 0 <= j < |record.bindings| :: record.bindings[j].binding.space in record.sealed
  }

  predicate ListedBefore(record: ProjectionRecord, i: nat) {
    forall j | 0 <= j < i && j < |record.bindings| :: record.bindings[j].binding.space in record.sealed
  }

  lemma ListsOneMore(record: ProjectionRecord, i: nat)
    requires ListedBefore(record, i) && i < |record.bindings| && record.bindings[i].binding.space in record.sealed
    ensures ListedBefore(record, i + 1)
  {
  }

  /** A record that lists a seal for every target lists nothing else. */
  lemma CoverageCount(a: Snapshot, refs: map<Binding, RefState>, c: Config, record: ProjectionRecord)
    requires RecordCurrent(a, c) && record.bindings == Selected(a, c) && RecordFits(a, refs, c, record)
    requires AllListed(record)
    ensures |record.sealed| == |record.bindings|
  {
    var spaces := Spaces(c.bindings);
    forall space | space in record.sealed
      ensures space in spaces
    {
      var target :| target in record.bindings && target.binding.space == space;
      var j :| 0 <= j < |record.bindings| && record.bindings[j] == target;
      assert spaces[j] == space;
    }
    forall space | space in spaces
      ensures space in record.sealed
    {
      var j :| 0 <= j < |spaces| && spaces[j] == space;
      assert record.bindings[j] in record.bindings;
    }
    assert record.sealed.Keys == set item | item in spaces;
    DistinctCount(spaces);
  }

  // ---------------------------------------------------------------- a whole call

  /** No checkpoint names the record id yet. */
  predicate UnusedRecordId(a: Snapshot, recordId: Id) {
    forall key | key in a.idempotency && key.CheckpointKey? :: key.recordId != recordId
  }

  /** The record is complete and every ref is sealed at the Landing's epoch
      with the commit it selected. */
  ghost predicate CompleteAt(a: Snapshot, refs: map<Binding, RefState>, c: Config, epoch: nat)
    requires Coverable(a, c)
  {
    && RecordCurrent(a, c) && a.projections[c.projectId].state == Complete && a.projections[c.projectId].epoch == epoch
    && forall target | target in Selected(a, c) ::
         target.binding in refs && SealedExactly(refs[target.binding], a.projections[c.projectId], target)
  }

  /** What a call leaves of an earlier moment: a state the next call can take
      up, with the same prospects, and every ref sealed at the epoch as it was. */
  ghost predicate Resumable(a: Snapshot, refs: map<Binding, RefState>, a': Snapshot, refs': map<Binding, RefState>, c: Config, epoch: nat)
    requires Recoverable(a, refs, c, epoch)
  {
    && Recoverable(a', refs', c, epoch) && HasRecord(a', c)
    && (AllReady(a', refs', c, epoch) <==> AllReady(a, refs, c, epoch))
    && (NoSealLost(a', refs', c) <==> NoSealLost(a, refs, c))
    && forall b | b in c.bindings && refs[b].sealed && refs[b].epoch == epoch :: refs'[b] == refs[b]
  }

  /** The call can bring every ref to the selection and list every seal. */
  ghost predicate CanComplete(a: Snapshot, refs: map<Binding, RefState>, c: Config, epoch: nat)
    requires Coverable(a, c)
  {
    AllReady(a, refs, c, epoch) && NoSealLost(a, refs, c)
  }

  lemma ResumableRefl(a: Snapshot, refs: map<Binding, RefState>, c: Config, epoch: nat)
    requires Recoverable(a, refs, c, epoch) && HasRecord(a, c)
    ensures Resumable(a, refs, a, refs, c, epoch)
  {
  }

  lemma ResumableTrans(a: Snapshot, refs: map<Binding, RefState>, b: Snapshot, refs': map<Binding, RefState>,
                       d: Snapshot, refs'': map<Binding, RefState>, c: Config, epoch: nat)
    requires Recoverable(a, refs, c, epoch) && Resumable(a, refs, b, refs', c, epoch) && Resumable(b, refs', d, refs'', c, epoch)
    ensures Resumable(a, refs, d, refs'', c, epoch)
    ensures CanComplete(b, refs', c, epoch) <==> CanComplete(a, refs, c, epoch)
  {
  }

  lemma BeginFits(a: Snapshot, refs: map<Binding, RefState>, c: Config, key: Key, recordId: Id, auditId: Id, epoch: nat)
    requires Recoverable(a, refs, c, epoch) && !HasRecord(a, c) && LandsCanonical(a, c, key) && UnusedRecordId(a, recordId)
    ensures BeginsFrom(a, a.canonicalByProject[c.projectId], key)
    ensures var record := NewRecord(a, c, key, recordId);
            var next := Checkpointed(a, record, BeginPhase, None, auditId);
            && Save(a, record, BeginPhase, None, auditId) == Written(next)
            && Recoverable(next, refs, c, epoch) && HasRecord(next, c)
            && (AllReady(next, refs, c, epoch) <==> AllReady(a, refs, c, epoch))
            && NoSealLost(next, refs, c)
  {
    var record := NewRecord(a, c, key, recordId);
    var next := Checkpointed(a, record, BeginPhase, None, auditId);
    assert Selected(next, c) == Selected(a, c);
    assert LandingAt(next, key, record.landingId, record.projectId, record.projectRevisionId, record.epoch, record.policyVersion);
    forall target | target in Selected(next, c)
      ensures target.binding in refs && EntryFits(refs, c, record, target) && CheckpointsFit(next, refs, record, target)
      ensures !SealLost(next, refs[target.binding], record, target.binding.space)
    {
      var j :| 0 <= j < |c.bindings| && Selected(next, c)[j] == target;
      TargetOids(next, c, j);
    }
  }

  lemma CompleteMeans(a: Snapshot, refs: map<Binding, RefState>, c: Config, epoch: nat)
    requires Recoverable(a, refs, c, epoch) && HasRecord(a, c) && a.projections[c.projectId].state == Complete
    ensures CompleteAt(a, refs, c, epoch) && AllReady(a, refs, c, epoch) && NoSealLost(a, refs, c)
    ensures AllListed(a.projections[c.projectId])
  {
    var record := a.projections[c.projectId];
    forall target | target in Selected(a, c)
      ensures target.binding in refs && SealedExactly(refs[target.binding], record, target) && target.binding.space in record.sealed
    {
      assert EntryFits(refs, c, record, target);
    }
    forall j | 0 <= j < |record.bindings|
      ensures record.bindings[j].binding.space in record.sealed
    {
      assert record.bindings[j] in record.bindings;
    }
  }

  lemma WalkedMeans(a: Snapshot, refs: map<Binding, RefState>, a': Snapshot, refs': map<Binding, RefState>, c: Config, epoch: nat)
    requires Recoverable(a, refs, c, epoch) && Going(a, refs, c) && Walked(a, refs, a', refs', c)
    ensures Resumable(a, refs, a', refs', c, epoch)
    ensures (exists j | 0 <= j < |c.bindings| :: Hindered(a, refs, c, j)) ==> !AllReady(a, refs, c, epoch)
  {
    var targets := Selected(a, c);
    assert forall j | 0 <= j < |targets| :: Alike(a, refs, a', refs', c, targets[j]);
    forall b | b in c.bindings && refs[b].sealed && refs[b].epoch == epoch
      ensures refs'[b] == refs[b]
    {
      var j :| 0 <= j < |c.bindings| && c.bindings[j] == b;
      assert targets[j].binding == b && Alike(a, refs, a', refs', c, targets[j]);
    }
    if j :| 0 <= j < |c.bindings| && Hindered(a, refs, c, j) {
      assert targets[j] in targets;
    }
  }

  lemma FinishedMeans(a: Snapshot, refs: map<Binding, RefState>, c: Config, epoch: nat)
    requires Recoverable(a, refs, c, epoch) && Going(a, refs, c)
    requires forall j | 0 <= j < |c.bindings| :: Finished(a, refs, c, j)
    ensures AllReady(a, refs, c, epoch)
    ensures NoSealLost(a, refs, c) <==> AllListed(a.projections[c.projectId])
  {
    var targets := Selected(a, c);
    assert forall j | 0 <= j < |targets| :: targets[j] in targets && Finished(a, refs, c, j);
  }

  lemma CompletionFits(a: Snapshot, refs: map<Binding, RefState>, c: Config, auditId: Id, epoch: nat)
    requires Recoverable(a, refs, c, epoch) && Going(a, refs, c) && AllListed(a.projections[c.projectId])
    ensures var record := a.projections[c.projectId].(state := Complete);
            var next := Checkpointed(a, record, CompletePhase, None, auditId);
            && Save(a, record, CompletePhase, None, auditId) == Written(next)
            && Recoverable(next, refs, c, epoch) && CompleteAt(next, refs, c, epoch)
            && AllReady(next, refs, c, epoch) && NoSealLost(next, refs, c)
  {
    var record := a.projections[c.projectId];
    var next := Checkpointed(a, record.(state := Complete), CompletePhase, None, auditId);
    var key :| key in a.idempotency
               && LandingAt(a, key, record.landingId, record.projectId, record.projectRevisionId, record.epoch, record.policyVersion);
    assert LandingAt(next, key, record.landingId, record.projectId, record.projectRevisionId, record.epoch, record.policyVersion);
    assert Selected(next, c) == Selected(a, c);
    forall target | target in record.bindings
      ensures EntryFits(refs, c, record.(state := Complete), target) && CheckpointsFit(next, refs, record.(state := Complete), target)
      ensures target.binding.space in record.sealed
    {
      assert EntryFits(refs, c, record, target) && CheckpointsFit(a, refs, record, target);
    }
    CompleteMeans(next, refs, c, epoch);
  }

  /** Every stored Landing result and record names a stored revision. */
  predicate ResultsKnown(a: Snapshot, p: Id) {
    && (forall key | key in a.idempotency && a.idempotency[key].result.LandingResult? ::
          a.idempotency[key].result.landing.projectRevisionId in a.projectRevisions)
    && (p in a.projections ==> a.projections[p].projectRevisionId in a.projectRevisions)
  }

  /** Every covered ref holds the canonical revision's commit, under no later
      epoch: what the unlanded Project starts from and a completion leaves. */
  predicate AtCanonical(a: Snapshot, refs: map<Binding, RefState>, c: Config)
    requires HasCanonical(a, c.projectId)
  {
    var snapshots := CanonicalRevision(a, c.projectId).snapshots;
    forall b | b in c.bindings ::
      b in refs && refs[b].epoch <= a.version && b.space in snapshots && refs[b].oid == Some(snapshots[b.space])
  }

  lemma CompletionIsAtCanonical(a: Snapshot, refs: map<Binding, RefState>, c: Config, epoch: nat)
    requires Coverable(a, c) && CompleteAt(a, refs, c, epoch) && epoch <= a.version
    ensures AtCanonical(a, refs, c)
  {
    forall b | b in c.bindings
      ensures b in refs && SealedExactly(refs[b], a.projections[c.projectId], SelectedRef(b, CanonicalRevision(a, c.projectId).snapshots[b.space],
                                    ParentOf(a, CanonicalRevision(a, c.projectId)).value.snapshots[b.space]))
    {
      var j :| 0 <= j < |c.bindings| && c.bindings[j] == b;
      assert Selected(a, c)[j] in Selected(a, c);
    }
  }

  /** A Landing made while the refs are at the canonical commits leaves a state
      from which a reconcile call completes. */
  lemma LandingCanComplete(a: Snapshot, refs: map<Binding, RefState>, c: Config, request: Request, policyVersion: string,
                           minted: Minted, composed: map<Id, Oid>)
    requires HasCanonical(a, c.projectId) && AtCanonical(a, refs, c) && ResultsKnown(a, c.projectId)
    requires minted.projectRevisionId !in a.projectRevisions && policyVersion != ""
    requires Coverable(Selection(a, c.projectId, request, policyVersion, minted, composed), c)
    ensures var next := Selection(a, c.projectId, request, policyVersion, minted, composed);
            Recoverable(next, refs, c, next.version) && CanComplete(next, refs, c, next.version)
  {
    var next := Selection(a, c.projectId, request, policyVersion, minted, composed);
    assert CohortKey(request.cohortId) in next.idempotency && LandsCanonical(next, c, CohortKey(request.cohortId));
    forall key | LandsCanonical(next, c, key)
      ensures key == CohortKey(request.cohortId)
    {
    }
    forall target | target in Selected(next, c)
      ensures target.binding in refs && Ready(refs[target.binding], minted.projectRevisionId, next.version, target)
    {
      var j :| 0 <= j < |c.bindings| && Selected(next, c)[j] == target;
      TargetOids(next, c, j);
    }
  }

  // --------------------------------------------------------------------- provider

  /** A provider that answers every call at once and enforces the seam rule. */
  class FencedProvider {
    var refs: map<Binding, RefState>

    constructor (initial: map<Binding, RefState>)
      ensures refs == initial
    {
      refs := initial;
    }

    method Observe(c: Config, binding: Binding, challenge: Id) returns (v: Option<Observation>)
      ensures v == if binding in refs then Some(Report(refs[binding], c, binding, challenge, "observed")) else None
    {
      if binding in refs {
        v := Some(Report(refs[binding], c, binding, challenge, "observed"));
      } else {
        v := None;
      }
    }

    /** Applies an accepted repair and reports the new state; rejects otherwise. */
    method Repair(c: Config, q: RefRequest, challenge: Id) returns (v: Option<Observation>)
      modifies this
      ensures var b := q.target.binding;
              if b in old(refs) && RepairAccepted(old(refs)[b], q)
              then refs == old(refs)[b := Repaired(old(refs)[b], q)] && v == Some(Report(refs[b], c, b, challenge, "repaired"))
              else refs == old(refs) && v == None
    {
      var b := q.target.binding;
      if b in refs && RepairAccepted(refs[b], q) {
        refs := refs[b := Repaired(refs[b], q)];
        v := Some(Report(refs[b], c, b, challenge, "repaired"));
      } else {
        v := None;
      }
    }

    method Seal(c: Config, q: RefRequest, challenge: Id) returns (v: Option<Observation>)
      modifies this
      ensures var b := q.target.binding;
              if b in old(refs) && SealAccepted(old(refs)[b], q)
              then refs == old(refs)[b := SealedRef(old(refs)[b])] && v == Some(Report(refs[b], c, b, challenge, "sealed"))
              else refs == old(refs) && v == None
    {
      var b := q.target.binding;
      if b in refs && SealAccepted(refs[b], q) {
        refs := refs[b := SealedRef(refs[b])];
        v := Some(Report(refs[b], c, b, challenge, "sealed"));
      } else {
        v := None;
      }
    }
  }

  /** The stored snapshot, replaced only through its version fence. */
  class AuthorityCell {
    var current: Snapshot

    constructor (initial: Snapshot)
      ensures current == initial
    {
      current := initial;
    }

    method Commit(previous: Snapshot, next: Snapshot) returns (committed: bool)
      modifies this
      ensures committed <==> FenceOpen(old(current), previous, next)
      ensures current == if committed then next else old(current)
    {
      committed := FenceOpen(current, previous, next);
      if committed {
        current := next;
      }
    }
  }

  // ------------------------------------------------------------------- reconciler

  datatype Ending = Completed | Stopped | Killed

  /** How one iteration of the loop ends. */
  datatype Iteration = Continues | Halts | Dies

  /** What came of a provider call: its answer, a refusal, or a dead process. */
  datatype Reply = Answered(v: Observation) | Declined | Lost

  class CanonicalRefReconciler {
    const c: Config
    const store: AuthorityCell
    const provider: FencedProvider
    /** How many more awaits the process lives through. */
    var lifetime: nat

    constructor (c: Config, store: AuthorityCell, provider: FencedProvider, lifetime: nat)
      ensures this.c == c && this.store == store && this.provider == provider && this.lifetime == lifetime
    {
      this.c, this.store, this.provider, this.lifetime := c, store, provider, lifetime;
    }

    /** The current record, once one exists. */
    function Record(): ProjectionRecord
      reads this, store
      requires c.projectId in store.current.projections
    {
      store.current.projections[c.projectId]
    }

    ghost predicate UnderWay()
      reads this, store, provider
    {
      Going(store.current, provider.refs, c)
    }

    /** The process reaches an await; it may not come back from it. */
    method Await() returns (alive: bool)
      modifies this`lifetime
      ensures alive <==> old(lifetime) > 0
      ensures lifetime == if alive then old(lifetime) - 1 else old(lifetime)
    {
      alive := lifetime > 0;
      if alive {
        lifetime := lifetime - 1;
      }
    }

    /** Loads, checks and commits one checkpoint. */
    method SaveCheckpoint(record: ProjectionRecord, phase: Phase, generation: Option<nat>, auditId: Id) returns (saved: Saved)
      modifies store
      ensures saved == Save(old(store.current), record, phase, generation, auditId)
      ensures store.current == if saved.Written? then saved.next else old(store.current)
    {
      var previous := store.current;
      saved := Save(previous, record, phase, generation, auditId);
      if saved.Written? {
        var committed := store.Commit(previous, saved.next);
      }
    }

    /** The repair call and its checkpoint. */
    method RepairTarget(ghost i: nat, target: SelectedRef, seen: Observation, challenge: Id, auditId: Id) returns (reply: Reply)
      requires UnderWay() && i < |c.bindings| && target == Selected(store.current, c)[i]
      requires target.binding in provider.refs
      requires seen == Report(provider.refs[target.binding], c, target.binding, seen.challenge, seen.receipt)
      requires !Competing(seen, Record(), target) && (seen.epoch != Record().epoch || seen.oid != Some(target.desired))
      modifies this`lifetime, store, provider
      ensures Advance(old(store.current), old(provider.refs), store.current, provider.refs, c, i)
      ensures lifetime <= old(lifetime) <= lifetime + 2 && (reply.Lost? ==> old(lifetime) < 2)
      ensures reply.Declined? ==> !Ready(old(provider.refs)[target.binding], Record().projectRevisionId, Record().epoch, target)
      ensures reply.Answered? ==>
                && target.binding in provider.refs && reply.v.receipt != ""
                && reply.v == Report(provider.refs[target.binding], c, target.binding, reply.v.challenge, reply.v.receipt)
                && Exact(reply.v, Record(), target)
    {
      ghost var a, refs := store.current, provider.refs;
      TargetOids(a, c, i);
      AdvanceRefl(a, refs, c, i);
      var record := Record();
      var alive := Await();
      if !alive {
        return Lost;
      }
      var answer := provider.Repair(c, RequestFor(record, target, seen), challenge);
      if RepairAccepted(refs[target.binding], RequestFor(record, target, seen)) {
        RepairAdvances(a, refs, c, i, seen);
      }
      alive := Await();
      if !alive {
        return Lost;
      }
      if answer.None? || !ObservationBound(answer.value, c, target.binding, challenge)
         || !Exact(answer.value, record, target) || answer.value.generation <= seen.generation {
        return Declined;
      }
      var v := answer.value;
      ghost var written := provider.refs;
      assert target in record.bindings;
      assert CheckpointsFit(a, refs, record, target);
      assert NoCheckpointAt(a, record, RepairedPhase(target.binding.space), v.generation);
      RepairSaveAdvances(a, written, c, i, v, auditId);
      var saved := SaveCheckpoint(record.(repaired := record.repaired[target.binding.space := v]),
                                  RepairedPhase(target.binding.space), Some(v.generation), auditId);
      AdvanceTrans(a, refs, a, written, store.current, provider.refs, c, i);
      reply := Answered(v);
    }

    /** The seal call, for a ref at the selection that is not sealed yet. */
    method SealTarget(ghost i: nat, target: SelectedRef, seen: Observation, challenge: Id) returns (reply: Reply)
      requires UnderWay() && i < |c.bindings| && target == Selected(store.current, c)[i]
      requires target.binding in provider.refs
      requires seen == Report(provider.refs[target.binding], c, target.binding, seen.challenge, seen.receipt)
      requires Exact(seen, Record(), target) && !seen.sealed
      modifies this`lifetime, provider
      ensures Advance(old(store.current), old(provider.refs), store.current, provider.refs, c, i)
      ensures lifetime <= old(lifetime) <= lifetime + 2 && (reply.Lost? ==> old(lifetime) < 2)
      ensures !reply.Declined?
      ensures reply.Answered? ==>
                && target.binding in provider.refs && reply.v.receipt != ""
                && reply.v == Report(provider.refs[target.binding], c, target.binding, reply.v.challenge, reply.v.receipt)
                && SealedExactly(provider.refs[target.binding], Record(), target)
    {
      ghost var a, refs := store.current, provider.refs;
      TargetOids(a, c, i);
      AdvanceRefl(a, refs, c, i);
      var record := Record();
      var alive := Await();
      if !alive {
        return Lost;
      }
      var answer := provider.Seal(c, RequestFor(record, target, seen), challenge);
      SealAdvances(a, refs, c, i, seen);
      alive := Await();
      if !alive {
        return Lost;
      }
      if answer.None? || !ObservationBound(answer.value, c, target.binding, challenge)
         || !Exact(answer.value, record, target) || !answer.value.sealed || answer.value.generation <= seen.generation {
        return Declined;
      }
      reply := Answered(answer.value);
    }

    /** The sealed checkpoint, unless the record already has this seal. */
    method RecordSeal(ghost i: nat, target: SelectedRef, v: Observation, auditId: Id)
      requires UnderWay() && i < |c.bindings| && target == Selected(store.current, c)[i]
      requires target.binding in provider.refs && v.receipt != ""
      requires v == Report(provider.refs[target.binding], c, target.binding, v.challenge, v.receipt)
      requires SealedExactly(provider.refs[target.binding], Record(), target)
      modifies store
      ensures Advance(old(store.current), provider.refs, store.current, provider.refs, c, i)
      ensures target.binding.space in Record().sealed
              <==> !SealLost(store.current, provider.refs[target.binding], Record(), target.binding.space)
    {
      ghost var a := store.current;
      AdvanceRefl(a, provider.refs, c, i);
      var record := Record();
      var space := target.binding.space;
      assert target in record.bindings;
      assert EntryFits(provider.refs, c, record, target);
      if space in record.sealed && record.sealed[space].generation == v.generation && v.sealed {
        return;
      }
      SealSaveAdvances(a, provider.refs, c, i, v, auditId);
      var saved := SaveCheckpoint(record.(sealed := record.sealed[space := v]), SealedPhase(space), Some(v.generation), auditId);
    }

    /** The rest of an iteration, once the ref is at the selection. */
    method SealAndRecord(ghost i: nat, target: SelectedRef, seen: Observation, challenge: Id, auditId: Id) returns (iteration: Iteration)
      requires UnderWay() && i < |c.bindings| && target == Selected(store.current, c)[i]
      requires target.binding in provider.refs && seen.receipt != ""
      requires seen == Report(provider.refs[target.binding], c, target.binding, seen.challenge, seen.receipt)
      requires Exact(seen, Record(), target)
      modifies this`lifetime, store, provider
      ensures Advance(old(store.current), old(provider.refs), store.current, provider.refs, c, i)
      ensures lifetime <= old(lifetime) <= lifetime + 2 && (iteration.Dies? ==> old(lifetime) < 2)
      ensures !iteration.Halts? && target.binding in provider.refs
      ensures iteration.Continues? ==>
                && SealedExactly(provider.refs[target.binding], Record(), target)
                && (target.binding.space in Record().sealed
                    <==> !SealLost(store.current, provider.refs[target.binding], Record(), target.binding.space))
    {
      var v := seen;
      ghost var a, refs := store.current, provider.refs;
      AdvanceRefl(a, refs, c, i);
      if !v.sealed {
        var reply := SealTarget(i, target, v, challenge);
        if !reply.Answered? {
          return Dies;
        }
        v := reply.v;
      }
      ghost var b, refs' := store.current, provider.refs;
      ProgressCurrent(a, refs, b, refs', c, target);
      RecordSeal(i, target, v, auditId);
      AdvanceTrans(a, refs, b, refs', store.current, provider.refs, c, i);
      iteration := Continues;
    }

    /** One iteration of the loop. */
    method ProcessTarget(ghost i: nat, target: SelectedRef, challenges: (Id, Id, Id), auditIds: (Id, Id)) returns (iteration: Iteration)
      requires UnderWay() && i < |c.bindings| && target == Selected(store.current, c)[i]
      modifies this`lifetime, store, provider
      ensures Advance(old(store.current), old(provider.refs), store.current, provider.refs, c, i)
      ensures lifetime <= old(lifetime) <= lifetime + 6 && (iteration.Dies? ==> old(lifetime) < 6)
      ensures target.binding in old(provider.refs) && target.binding in provider.refs
      ensures iteration.Continues? ==>
                && SealedExactly(provider.refs[target.binding], Record(), target)
                && (target.binding.space in Record().sealed
                    <==> !SealLost(store.current, provider.refs[target.binding], Record(), target.binding.space))
      ensures iteration.Halts? ==> !Ready(old(provider.refs)[target.binding], Record().projectRevisionId, Record().epoch, target)
    {
      ghost var a, refs := store.current, provider.refs;
      TargetOids(a, c, i);
      AdvanceRefl(a, refs, c, i);
      var record := Record();
      var alive := Await();
      if !alive {
        return Dies;
      }
      var answer := provider.Observe(c, target.binding, challenges.0);
      alive := Await();
      if !alive {
        return Dies;
      }
      if answer.None? || !ObservationBound(answer.value, c, target.binding, challenges.0)
         || Competing(answer.value, record, target) {
        return Halts;
      }
      var v := answer.value;
      if v.epoch != record.epoch || v.oid != Some(target.desired) {
        var reply := RepairTarget(i, target, v, challenges.1, auditIds.0);
        if !reply.Answered? {
          return if reply.Lost? then Dies else Halts;
        }
        v := reply.v;
      }
      ghost var b, refs' := store.current, provider.refs;
      ProgressCurrent(a, refs, b, refs', c, target);
      iteration := SealAndRecord(i, target, v, challenges.2, auditIds.1);
      AdvanceTrans(a, refs, b, refs', store.current, provider.refs, c, i);
    }

    /** One completing probe: the target is listed as sealed and still observed
        at the generation listed. */
    method ProbeSealed(record: ProjectionRecord, i: nat, challenge: Id) returns (ending: Ending)
      requires i < |record.bindings| && EntryFits(provider.refs, c, record, record.bindings[i])
      requires IsOid(record.bindings[i].desired)
      modifies this`lifetime
      ensures lifetime <= old(lifetime) <= lifetime + 2 && (ending.Killed? ==> old(lifetime) < 2)
      ensures !ending.Killed? ==> (ending.Completed? <==> record.bindings[i].binding.space in record.sealed)
    {
      var target := record.bindings[i];
      if !SealedOnRecord(c, record, i) {
        return Stopped;
      }
      var alive := Await();
      if !alive {
        return Killed;
      }
      var answer := provider.Observe(c, target.binding, challenge);
      alive := Await();
      if !alive {
        return Killed;
      }
      if answer.None? || !ObservationBound(answer.value, c, target.binding, challenge) || !Exact(answer.value, record, target)
         || !answer.value.sealed || answer.value.generation != record.sealed[target.binding.space].generation {
        return Stopped;
      }
      ending := Completed;
    }

    /** The probes that complete a record. */
    method AssertSealed(record: ProjectionRecord, challenges: seq<Id>) returns (ending: Ending)
      requires RecordCurrent(store.current, c) && record == Record()
      requires RecordFits(store.current, provider.refs, c, record)
      requires |challenges| == |c.bindings|
      modifies this`lifetime
      ensures lifetime <= old(lifetime) <= lifetime + 2 * |c.bindings| && (ending.Killed? ==> old(lifetime) < 2 * |c.bindings|)
      ensures !ending.Killed? ==> (ending.Completed? <==> AllListed(record))
    {
      if |record.sealed| != |record.bindings| {
        if AllListed(record) {
          CoverageCount(store.current, provider.refs, c, record);
        }
        return Stopped;
      }
      ending := ProbeAll(record, challenges);
    }

    method ProbeAll(record: ProjectionRecord, challenges: seq<Id>) returns (ending: Ending)
      requires RecordCurrent(store.current, c) && record == Record()
      requires RecordFits(store.current, provider.refs, c, record)
      requires |challenges| == |c.bindings|
      modifies this`lifetime
      ensures lifetime <= old(lifetime) <= lifetime + 2 * |c.bindings| && (ending.Killed? ==> old(lifetime) < 2 * |c.bindings|)
      ensures !ending.Killed? ==> (ending.Completed? <==> AllListed(record))
    {
      var i := 0;
      ending := Completed;
      while i < |record.bindings|
        invariant 0 <= i <= |record.bindings|
        invariant lifetime <= old(lifetime) <= lifetime + 2 * i
        invariant ending.Completed?
        invariant ListedBefore(record, i)
      {
        EntryAt(store.current, provider.refs, c, record, i);
        ending := ProbeSealed(record, i, challenges[i]);
        if !ending.Completed? {
          return;
        }
        ListsOneMore(record, i);
        i := i + 1;
      }
    }

    /** The loop over the bindings of the record the call entered with. */
    method ProcessTargets(challenges: seq<(Id, Id, Id)>, auditIds: seq<(Id, Id)>) returns (iteration: Iteration)
      requires UnderWay() && |challenges| == |auditIds| == |c.bindings|
      modifies this`lifetime, store, provider
      ensures Walked(old(store.current), old(provider.refs), store.current, provider.refs, c)
      ensures lifetime <= old(lifetime) <= lifetime + 6 * |c.bindings| && (iteration.Dies? ==> old(lifetime) < 6 * |c.bindings|)
      ensures iteration.Continues? ==> forall j | 0 <= j < |c.bindings| :: Finished(store.current, provider.refs, c, j)
      ensures iteration.Halts? ==> exists j | 0 <= j < |c.bindings| :: Hindered(old(store.current), old(provider.refs), c, j)
    {
      ghost var a, refs := store.current, provider.refs;
      WalkedRefl(a, refs, c);
      var targets := Record().bindings;
      var i := 0;
      iteration := Continues;
      while i < |targets|
        invariant 0 <= i <= |targets| && iteration.Continues?
        invariant lifetime <= old(lifetime) <= lifetime + 6 * i
        invariant Walked(a, refs, store.current, provider.refs, c)
        invariant forall j | 0 <= j < i :: Finished(store.current, provider.refs, c, j)
      {
        ghost var b, refs' := store.current, provider.refs;
        iteration := ProcessTarget(i, targets[i], challenges[i], auditIds[i]);
        WalkedStep(a, refs, b, refs', store.current, provider.refs, c, i);
        if !iteration.Continues? {
          if iteration.Halts? {
            assert Alike(a, refs, b, refs', c, targets[i]);
            assert Hindered(a, refs, c, i);
          }
          return;
        }
        i := i + 1;
      }
    }

    /** Loads the record of the selection, beginning one when there is none. */
    method BeginIfMissing(recordId: Id, auditId: Id, ghost epoch: nat)
      requires Recoverable(store.current, provider.refs, c, epoch)
      requires HasRecord(store.current, c) || UnusedRecordId(store.current, recordId)
      modifies store
      ensures Resumable(old(store.current), old(provider.refs), store.current, provider.refs, c, epoch)
    {
      if !HasRecord(store.current, c) {
        var key :| key in store.current.idempotency && LandsCanonical(store.current, c, key);
        BeginFits(store.current, provider.refs, c, key, recordId, auditId, epoch);
        var saved := SaveCheckpoint(NewRecord(store.current, c, key, recordId), BeginPhase, None, auditId);
      }
    }

    /** After the loop: the completing probes, then the complete checkpoint. */
    method CompleteRecord(probes: seq<Id>, auditId: Id, ghost epoch: nat) returns (ending: Ending)
      requires UnderWay() && Recoverable(store.current, provider.refs, c, epoch)
      requires forall j | 0 <= j < |c.bindings| :: Finished(store.current, provider.refs, c, j)
      requires |probes| == |c.bindings|
      modifies this`lifetime, store
      ensures Resumable(old(store.current), old(provider.refs), store.current, provider.refs, c, epoch)
      ensures lifetime <= old(lifetime) <= lifetime + 2 * |c.bindings| && (ending.Killed? ==> old(lifetime) < 2 * |c.bindings|)
      ensures !ending.Killed? ==> (ending.Completed? <==> CanComplete(old(store.current), old(provider.refs), c, epoch))
      ensures ending.Completed? ==> CompleteAt(store.current, provider.refs, c, epoch)
    {
      FinishedMeans(store.current, provider.refs, c, epoch);
      var record := Record();
      ending := AssertSealed(record, probes);
      if ending.Completed? {
        CompletionFits(store.current, provider.refs, c, auditId, epoch);
        var saved := SaveCheckpoint(record.(state := Complete), CompletePhase, None, auditId);
      }
    }

    /** A reconcile call. Whenever it is killed it leaves a state another call
        can take up; left alone, it completes exactly when every ref can reach
        the selection and no seal was lost, and rewrites no sealed ref. */
    method Reconcile(recordId: Id, challenges: seq<(Id, Id, Id)>, probes: seq<Id>, auditIds: seq<(Id, Id)>,
                     beginAuditId: Id, completeAuditId: Id, ghost epoch: nat)
      returns (ending: Ending)
      requires Recoverable(store.current, provider.refs, c, epoch)
      requires HasRecord(store.current, c) || UnusedRecordId(store.current, recordId)
      requires |challenges| == |auditIds| == |probes| == |c.bindings|
      modifies this`lifetime, store, provider
      ensures Resumable(old(store.current), old(provider.refs), store.current, provider.refs, c, epoch)
      ensures ending.Killed? ==> old(lifetime) < 8 * |c.bindings|
      ensures !ending.Killed? ==> (ending.Completed? <==> CanComplete(old(store.current), old(provider.refs), c, epoch))
      ensures ending.Completed? ==> CompleteAt(store.current, provider.refs, c, epoch)
    {
      BeginIfMissing(recordId, beginAuditId, epoch);
      ghost var a, refs := store.current, provider.refs;
      ResumableRefl(a, refs, c, epoch);
      ResumableTrans(old(store.current), old(provider.refs), a, refs, a, refs, c, epoch);
      var record := Record();
      if record.state == Complete {
        CompleteMeans(a, refs, c, epoch);
        ending := AssertSealed(record, probes);
        return;
      }
      var iteration := ProcessTargets(challenges, auditIds);
      ghost var b, refs' := store.current, provider.refs;
      WalkedMeans(a, refs, b, refs', c, epoch);
      ResumableTrans(old(store.current), old(provider.refs), a, refs, b, refs', c, epoch);
      if !iteration.Continues? {
        return if iteration.Dies? then Killed else Stopped;
      }
      ending := CompleteRecord(probes, completeAuditId, epoch);
      ResumableTrans(old(store.current), old(provider.refs), b, refs', store.current, provider.refs, c, epoch);
    }
  }

  /** A worker killed and restarted any number of times, then left alone. Each
      restart is a new process with its own lifetime. */
  method RestartUntilDone(c: Config, store: AuthorityCell, provider: FencedProvider, lifetimes: seq<nat>,
                          recordId: Id, challenges: seq<(Id, Id, Id)>, probes: seq<Id>, auditIds: seq<(Id, Id)>,
                          beginAuditId: Id, completeAuditId: Id, ghost epoch: nat)
    requires Recoverable(store.current, provider.refs, c, epoch)
    requires HasRecord(store.current, c) || UnusedRecordId(store.current, recordId)
    requires |challenges| == |auditIds| == |probes| == |c.bindings|
    requires lifetimes != [] && lifetimes[|lifetimes| - 1] >= 8 * |c.bindings|
    modifies store, provider
    ensures Resumable(old(store.current), old(provider.refs), store.current, provider.refs, c, epoch)
    ensures CanComplete(old(store.current), old(provider.refs), c, epoch) ==> CompleteAt(store.current, provider.refs, c, epoch)
  {
    ghost var a, refs := store.current, provider.refs;
    var n := 0;
    while n < |lifetimes|
      invariant 0 <= n <= |lifetimes|
      invariant if n == 0 then store.current == a && provider.refs == refs
                else Resumable(a, refs, store.current, provider.refs, c, epoch)
      invariant n == |lifetimes| && CanComplete(a, refs, c, epoch) ==> CompleteAt(store.current, provider.refs, c, epoch)
    {
      ghost var b, refs' := store.current, provider.refs;
      var worker := new CanonicalRefReconciler(c, store, provider, lifetimes[n]);
      var ending := worker.Reconcile(recordId, challenges, probes, auditIds, beginAuditId, completeAuditId, epoch);
      if n > 0 {
        ResumableTrans(a, refs, b, refs', store.current, provider.refs, c, epoch);
      }
      n := n + 1;
    }
  }

  // ------------------------------------------------------------- two calls at once

  /** The record of A's copy, written over the one B saved. */
  function Overwritten(a: Snapshot, record: ProjectionRecord, space: Id, answerA: Observation, answerB: Observation, auditA: Id, auditB: Id): Snapshot {
    Checkpointed(
      SealedBy(a, record, space, answerB, auditB),
      record.(repaired := record.repaired[space := answerA]), RepairedPhase(space), Some(answerA.generation), auditA)
  }

  /** A has been answered that its repair was applied; B observed the repaired
      ref, had it sealed, and has been answered so. */
  ghost predicate Overlapping(a: Snapshot, refs: map<Binding, RefState>, c: Config, i: nat, answerA: Observation, answerB: Observation)
    requires Going(a, refs, c) && i < |c.bindings|
  {
    var target, record := Selected(a, c)[i], a.projections[c.projectId];
    && target.binding in refs && !refs[target.binding].sealed && target.binding.space !in record.sealed
    && answerA == Report(refs[target.binding], c, target.binding, answerA.challenge, "repaired")
    && Exact(answerA, record, target)
    && answerB == Report(SealedRef(refs[target.binding]), c, target.binding, answerB.challenge, "sealed")
    && NoCheckpointAt(a, record, RepairedPhase(target.binding.space), answerA.generation)
  }

  lemma NextTargetKeepsAuthority(a: Snapshot, c: Config, targets: seq<SelectedRef>, i: nat, env: Supply)
    requires i <= |targets| && CurrentRecord(a, c).Some? && |c.bindings| > 0
    ensures NextTarget(a, c, targets, i, env).authority == a
  {
  }

  lemma OverlapStretches(a: Snapshot, refs: map<Binding, RefState>, c: Config, i: nat, seen: Observation,
                         answerA: Observation, answerB: Observation, envA: Supply, envB: Supply)
    requires Going(a, refs, c) && i < |c.bindings| && Overlapping(a, refs, c, i, answerA, answerB)
    requires seen.generation < answerA.generation
    ensures var target, record := Selected(a, c)[i], a.projections[c.projectId];
            var afterB := RecordSeal(a, c, record.bindings, record, i, answerB, envB).authority;
            var afterA := HandleRepair(afterB, Repairing(c, record.bindings, record, i, seen, answerA.challenge), answerA, envA).authority;
            afterA == Overwritten(a, record, target.binding.space, answerA, answerB, envA.auditId, envB.auditId)
  {
    OverlapSeals(a, refs, c, i, answerA, answerB, envB);
    OverlapRepairs(a, refs, c, i, seen, answerA, answerB, envA, envB.auditId);
  }

  function SealedBy(a: Snapshot, record: ProjectionRecord, space: Id, answerB: Observation, auditB: Id): Snapshot {
    Checkpointed(a, record.(sealed := record.sealed[space := answerB]), SealedPhase(space), Some(answerB.generation), auditB)
  }

  lemma OverlapSeals(a: Snapshot, refs: map<Binding, RefState>, c: Config, i: nat, answerA: Observation, answerB: Observation, envB: Supply)
    requires Going(a, refs, c) && i < |c.bindings| && Overlapping(a, refs, c, i, answerA, answerB)
    ensures var target, record := Selected(a, c)[i], a.projections[c.projectId];
            RecordSeal(a, c, record.bindings, record, i, answerB, envB).authority
            == SealedBy(a, record, target.binding.space, answerB, envB.auditId)
  {
    var target, record := Selected(a, c)[i], a.projections[c.projectId];
    var refs' := refs[target.binding := SealedRef(refs[target.binding])];
    SealAdvances(a, refs, c, i, answerA);
    assert target in record.bindings;
    assert CheckpointsFit(a, refs, record, target);
    SealSaveAdvances(a, refs', c, i, answerB, envB.auditId);
    NextTargetKeepsAuthority(SealedBy(a, record, target.binding.space, answerB, envB.auditId), c, record.bindings, i + 1, envB);
  }

  lemma OverlapRepairs(a: Snapshot, refs: map<Binding, RefState>, c: Config, i: nat, seen: Observation,
                       answerA: Observation, answerB: Observation, envA: Supply, auditB: Id)
    requires Going(a, refs, c) && i < |c.bindings| && Overlapping(a, refs, c, i, answerA, answerB)
    requires seen.generation < answerA.generation
    ensures var target, record := Selected(a, c)[i], a.projections[c.projectId];
            var worker := Repairing(c, record.bindings, record, i, seen, answerA.challenge);
            HandleRepair(SealedBy(a, record, target.binding.space, answerB, auditB), worker, answerA, envA).authority
            == Overwritten(a, record, target.binding.space, answerA, answerB, envA.auditId, auditB)
  {
    var target, record := Selected(a, c)[i], a.projections[c.projectId];
    TargetOids(a, c, i);
    assert target in record.bindings;
  }

  lemma OverwrittenFits(a: Snapshot, refs: map<Binding, RefState>, c: Config, i: nat, answerA: Observation, answerB: Observation,
                        auditA: Id, auditB: Id, epoch: nat)
    requires Recoverable(a, refs, c, epoch) && Going(a, refs, c) && i < |c.bindings| && Overlapping(a, refs, c, i, answerA, answerB)
    ensures var target, record := Selected(a, c)[i], a.projections[c.projectId];
            var d := Overwritten(a, record, target.binding.space, answerA, answerB, auditA, auditB);
            var refs' := refs[target.binding := SealedRef(refs[target.binding])];
            && Recoverable(d, refs', c, epoch)
            && SealLost(d, refs'[target.binding], d.projections[c.projectId], target.binding.space)
            && Selected(d, c) == Selected(a, c)
  {
    var target, record := Selected(a, c)[i], a.projections[c.projectId];
    var refs' := refs[target.binding := SealedRef(refs[target.binding])];
    var d := Overwritten(a, record, target.binding.space, answerA, answerB, auditA, auditB);
    SealAdvances(a, refs, c, i, answerA);
    assert target in record.bindings;
    assert CheckpointsFit(a, refs', record, target);
    ProgressFits(a, refs', d, refs', c, i);
    ProgressCurrent(a, refs', d, refs', c, target);
  }

  /** Why one worker at a time: A has repaired a ref and waits for the answer
      while B, finding it repaired, seals it and saves. A then saves the copy of
      the record it loaded before, and B's seal is no longer listed, for good. */
  lemma OverlapLosesSeal(a: Snapshot, refs: map<Binding, RefState>, c: Config, i: nat, seen: Observation,
                         answerA: Observation, answerB: Observation, envA: Supply, envB: Supply, epoch: nat)
    requires Recoverable(a, refs, c, epoch) && Going(a, refs, c) && i < |c.bindings| && Overlapping(a, refs, c, i, answerA, answerB)
    requires seen.generation < answerA.generation
    ensures var target, record := Selected(a, c)[i], a.projections[c.projectId];
            var afterB := RecordSeal(a, c, record.bindings, record, i, answerB, envB).authority;
            var afterA := HandleRepair(afterB, Repairing(c, record.bindings, record, i, seen, answerA.challenge), answerA, envA).authority;
            var refs' := refs[target.binding := SealedRef(refs[target.binding])];
            && Recoverable(afterA, refs', c, epoch)
            && !NoSealLost(afterA, refs', c)
  {
    OverlapStretches(a, refs, c, i, seen, answerA, answerB, envA, envB);
    OverwrittenFits(a, refs, c, i, answerA, answerB, envA.auditId, envB.auditId, epoch);
  }
}
