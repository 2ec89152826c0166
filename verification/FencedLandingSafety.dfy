/** Safety of the interleaved protocol: what every step keeps, and what a
    completed record and a later Landing therefore certify. */
module FencedLandingSafety {
  import opened Basics
  import opened Authority
  import opened CohortLanding
  import opened CanonicalRefs
  import opened FencedLanding
  import opened LandingInvariants

  // -------------------------------------------------------- authority transitions

  /** Later records of the same selections keep the lineage. */
  lemma LineageStays(p: Id, a: Snapshot, next: Snapshot, history: seq<Turn>)
    requires LineageInv(p, a, history)
    requires p in next.canonicalByProject && next.canonicalByProject[p] == a.canonicalByProject[p]
    requires forall id | id in a.projectRevisions :: id in next.projectRevisions && next.projectRevisions[id] == a.projectRevisions[id]
    requires next.version >= a.version
    ensures LineageInv(p, next, history)
  {
  }

  lemma LandingsStay(p: Id, a: Snapshot, next: Snapshot)
    requires forall key | key in a.idempotency :: key in next.idempotency && next.idempotency[key] == a.idempotency[key]
    requires forall key | key in next.idempotency && key !in a.idempotency :: !LandedBy(next, p, key)
    ensures MadeLandings(p, next) == MadeLandings(p, a)
  {
  }

  lemma SaveKeeps(p: Id, a: Snapshot, refs: map<Binding, RefState>, history: seq<Turn>,
                  record: ProjectionRecord, phase: Phase, generation: Option<nat>, auditId: Id)
    requires AuthorityInv(p, a, refs, history)
    requires record.projectId == p
    requires record.state == Complete ==> RecordOk(p, a, refs, history, record)
    requires Save(a, record, phase, generation, auditId).Written?
    ensures var next := Save(a, record, phase, generation, auditId).next;
            && AuthorityInv(p, next, refs, history)
            && Extends(a, next)
            && next.canonicalByProject == a.canonicalByProject
            && (CompletesIn(p, a, next) ==> CurrentlyComplete(p, next))
  {
    var next := Save(a, record, phase, generation, auditId).next;
    LineageStays(p, a, next, history);
    LandingsStay(p, a, next);
  }

  lemma OtherCommitKeeps(p: Id, a: Snapshot, refs: map<Binding, RefState>, history: seq<Turn>, next: Snapshot)
    requires AuthorityInv(p, a, refs, history) && OtherCommitAllowed(p, a, next)
    ensures AuthorityInv(p, next, refs, history) && Extends(a, next)
  {
    LineageStays(p, a, next, history);
    LandingsStay(p, a, next);
    forall key | key in MadeLandings(p, next)
      ensures MadeInv(next.changeRevisions, history, key, MadeLandings(p, next)[key])
    {
      assert MadeInv(a.changeRevisions, history, key, MadeLandings(p, a)[key]);
    }
  }

  /** One more Landing, made on top of the last selection under an unused key. */
  lemma LandingsGrow(landings: map<Key, Made>, revisions: map<Id, ChangeRevision>, history: seq<Turn>, key: Key, made: Made)
    requires LandingsInv(landings, revisions, history) && history != []
    requires key == CohortKey(made.landing.cohortId)
    requires made.landing.previous == LastTurn(history).revisionId
    requires forall i | 0 <= i < |history| :: history[i].revisionId != made.landing.projectRevisionId
    requires Distinct(made.landing.changeRevisionIds)
    requires forall id | id in made.landing.changeRevisionIds :: id in revisions && revisions[id].Base() == made.landing.previous
    ensures LandingsInv(landings[key := made], revisions, history + [Turn(made.landing.projectRevisionId, made.epoch)])
  {
    var longer := history + [Turn(made.landing.projectRevisionId, made.epoch)];
    assert MadeTurn(longer, made, |history|);
    forall k | k in landings
      ensures MadeInv(revisions, longer, k, landings[k])
      ensures landings[k].landing.projectRevisionId != made.landing.projectRevisionId
    {
      assert MadeInv(revisions, history, k, landings[k]);
      var i :| MadeTurn(history, landings[k], i);
      assert MadeTurn(longer, landings[k], i);
    }
  }

  lemma SelectionLandings(p: Id, a: Snapshot, history: seq<Turn>, request: Request, env: Supply)
    requires LineageInv(p, a, history) && LandingsInv(MadeLandings(p, a), a.changeRevisions, history)
    requires MintedFresh(a, env) && HasCanonical(a, p) && Selectable(a, p, request, env.review) && RequestWellFormed(request)
    ensures var next := Selection(a, p, request, env.review.policyVersion, env.minted, env.composed);
            LandingsInv(MadeLandings(p, next), next.changeRevisions, history + [Turn(env.minted.projectRevisionId, a.version + 1)])
  {
    var next := Selection(a, p, request, env.review.policyVersion, env.minted, env.composed);
    var key := CohortKey(request.cohortId);
    var made := Made(NextLanding(a, p, request, env.minted), a.version + 1);
    MembersBased(p, a, request, env.review);
    LandingsGrow(MadeLandings(p, a), a.changeRevisions, history, key, made);
    MadeLandingsNext(p, a, next, key, made, env.review.policyVersion);
  }

  /** What a commit of the selection on the current snapshot leaves. */
  lemma SelectionKeeps(p: Id, a: Snapshot, refs: map<Binding, RefState>, history: seq<Turn>, request: Request, env: Supply)
    requires AuthorityInv(p, a, refs, history)
    requires MintedFresh(a, env) && HasCanonical(a, p) && env.review.Allow? && RequestWellFormed(request)
    requires var next := Selection(a, p, request, env.review.policyVersion, env.minted, env.composed);
             LandingsInv(MadeLandings(p, next), next.changeRevisions, history + [Turn(env.minted.projectRevisionId, a.version + 1)])
    ensures var next := Selection(a, p, request, env.review.policyVersion, env.minted, env.composed);
            && AuthorityInv(p, next, refs, history + [Turn(env.minted.projectRevisionId, a.version + 1)])
            && Extends(a, next)
  {
    var next := Selection(a, p, request, env.review.policyVersion, env.minted, env.composed);
    var longer := history + [Turn(env.minted.projectRevisionId, a.version + 1)];
    SelectionFrame(p, a, request, env);
    SelectionLineage(p, a, history, request, env);
    AuthorityGrows(p, a, next, refs, history, longer);
  }

  lemma SelectionFrame(p: Id, a: Snapshot, request: Request, env: Supply)
    requires HasCanonical(a, p) && env.review.Allow? && MintedFresh(a, env)
    ensures var next := Selection(a, p, request, env.review.policyVersion, env.minted, env.composed);
            && next.projections == a.projections
            && next.canonicalByProject == a.canonicalByProject[p := env.minted.projectRevisionId]
            && env.minted.projectRevisionId != a.canonicalByProject[p]
            && Extends(a, next)
  {
  }

  lemma AuthorityGrows(p: Id, a: Snapshot, next: Snapshot, refs: map<Binding, RefState>, history: seq<Turn>, longer: seq<Turn>)
    requires AuthorityInv(p, a, refs, history) && history <= longer
    requires LineageInv(p, next, longer) && LandingsInv(MadeLandings(p, next), next.changeRevisions, longer)
    requires Extends(a, next) && next.projections == a.projections
    ensures AuthorityInv(p, next, refs, longer)
  {
    if p in a.projections && a.projections[p].state == Complete {
      RecordKept(p, a, next, refs, history, longer, a.projections[p]);
    }
  }

  lemma RecordKept(p: Id, a: Snapshot, next: Snapshot, refs: map<Binding, RefState>, history: seq<Turn>, longer: seq<Turn>, record: ProjectionRecord)
    requires RecordOk(p, a, refs, history, record) && history <= longer
    requires forall id | id in a.projectRevisions :: id in next.projectRevisions && next.projectRevisions[id] == a.projectRevisions[id]
    ensures RecordOk(p, next, refs, longer, record)
  {
    assert forall turn | turn in history :: turn in longer;
  }

  lemma MembersBased(p: Id, a: Snapshot, request: Request, review: Review)
    requires HasCanonical(a, p) && Selectable(a, p, request, review)
    ensures forall id | id in RevisionIds(request.members) ::
              id in a.changeRevisions && a.changeRevisions[id].Base() == a.canonicalByProject[p]
  {
    forall id | id in RevisionIds(request.members)
      ensures id in a.changeRevisions && a.changeRevisions[id].Base() == a.canonicalByProject[p]
    {
      var i :| 0 <= i < |request.members| && request.members[i].changeRevisionId == id;
      assert MemberReady(a, a.projects[p], a.canonicalByProject[p], request.members[i]);
    }
  }

  lemma MadeLandingsNext(p: Id, a: Snapshot, next: Snapshot, key: Key, made: Made, policyVersion: string)
    requires key in next.idempotency && next.idempotency == a.idempotency[key := next.idempotency[key]]
    requires next.idempotency[key].result == LandingResult(made.landing, made.epoch, policyVersion) && made.landing.projectId == p
    ensures MadeLandings(p, next) == MadeLandings(p, a)[key := made]
  {
  }

  lemma SelectionLineage(p: Id, a: Snapshot, history: seq<Turn>, request: Request, env: Supply)
    requires LineageInv(p, a, history) && HasCanonical(a, p) && env.review.Allow?
    requires MintedFresh(a, env) && RequestWellFormed(request)
    ensures LineageInv(p, Selection(a, p, request, env.review.policyVersion, env.minted, env.composed),
                       history + [Turn(env.minted.projectRevisionId, a.version + 1)])
  {
    var revision := NextRevision(a, p, request, env.minted, env.composed);
    assert |RevisionIds(request.members)| > 0;
    LineageGrows(p, a, Selection(a, p, request, env.review.policyVersion, env.minted, env.composed), history, env.minted.projectRevisionId, revision);
  }

  lemma LineageGrows(p: Id, a: Snapshot, next: Snapshot, history: seq<Turn>, id: Id, revision: ProjectRevision)
    requires LineageInv(p, a, history)
    requires id !in a.projectRevisions && next.projectRevisions == a.projectRevisions[id := revision]
    requires revision.projectId == p && revision.parent == Some(LastTurn(history).revisionId) && HasLanded(revision)
    requires next.canonicalByProject == a.canonicalByProject[p := id]
    requires next.version == a.version + 1
    ensures LineageInv(p, next, history + [Turn(id, a.version + 1)])
  {
  }

  // --------------------------------------------------------------- worker effects

  lemma HaltOk(p: Id, a: Snapshot, refs: map<Binding, RefState>, history: seq<Turn>)
    requires AuthorityInv(p, a, refs, history)
    ensures EffectOk(p, a, refs, history, Halt(a))
  {
  }

  /** A stretch may go on from the snapshot its checkpoint wrote. */
  lemma EffectAfterSave(p: Id, a: Snapshot, next: Snapshot, refs: map<Binding, RefState>, history: seq<Turn>, e: Effect)
    requires Extends(a, next) && next.canonicalByProject == a.canonicalByProject
    requires CompletesIn(p, a, next) ==> CurrentlyComplete(p, next)
    requires EffectOk(p, next, refs, history, e) && Quiet(next, e)
    ensures EffectOk(p, a, refs, history, e) && Quiet(a, e)
  {
  }

  lemma IssuedEpoch(p: Id, a: Snapshot, history: seq<Turn>, record: ProjectionRecord)
    requires LineageInv(p, a, history) && Issued(history, record)
    ensures record.epoch <= LastTurn(history).epoch
    ensures record.projectRevisionId == a.canonicalByProject[p] ==> record.epoch == LastTurn(history).epoch
  {
    var i :| 0 <= i < |history| && history[i] == Turn(record.projectRevisionId, record.epoch);
  }

  lemma SelectedAsks(a: Snapshot, c: Config)
    requires Coverable(a, c)
    ensures var snapshots := CanonicalRevision(a, c.projectId).snapshots;
            forall target | target in Selected(a, c) ::
              target.binding.space in snapshots && target.desired == snapshots[target.binding.space]
  {
    var snapshots := CanonicalRevision(a, c.projectId).snapshots;
    forall target | target in Selected(a, c)
      ensures target.binding.space in snapshots && target.desired == snapshots[target.binding.space]
    {
      var i :| 0 <= i < |c.bindings| && Selected(a, c)[i] == target;
      assert c.bindings[i] in c.bindings;
    }
  }

  /** A record accepted as current carries an epoch some Landing issued. */
  lemma CurrentRecordOk(p: Id, a: Snapshot, refs: map<Binding, RefState>, history: seq<Turn>, c: Config)
    requires AuthorityInv(p, a, refs, history) && c.projectId == p && CurrentRecord(a, c).Some?
    ensures RecordOk(p, a, refs, history, CurrentRecord(a, c).value)
    ensures CurrentRecord(a, c).value.projectRevisionId == a.canonicalByProject[p]
  {
    var record := a.projections[p];
    var key :| key in a.idempotency
               && LandingAt(a, key, record.landingId, record.projectId, record.projectRevisionId, record.epoch, record.policyVersion);
    SelectedAsks(a, c);
    assert key in MadeLandings(p, a);
    assert MadeInv(a.changeRevisions, history, key, MadeLandings(p, a)[key]);
    var i :| MadeTurn(history, MadeLandings(p, a)[key], i);
  }

  lemma ConcludeOk(p: Id, a: Snapshot, refs: map<Binding, RefState>, history: seq<Turn>,
                   c: Config, record: ProjectionRecord, duty: Duty, env: Supply)
    requires AuthorityInv(p, a, refs, history) && MintedFresh(a, env)
    requires ProbesOk(p, a, refs, history, c, record, |record.bindings|, duty)
    ensures EffectOk(p, a, refs, history, Conclude(a, c, record, duty, env))
    ensures !duty.Selecting? ==> Quiet(a, Conclude(a, c, record, duty, env))
  {
    var e := Conclude(a, c, record, duty, env);
    HaltOk(p, a, refs, history);
    match duty
    case Rechecking => assert e == Halt(a);
    case Selecting(previous, request) =>
      CommitOk(p, a, refs, history, previous, request, env);
      assert e == CommitOrHalt(a, c.projectId, previous, request, env);
    case Completing => CompletingOk(p, a, refs, history, c, record, env);
  }

  lemma CompletingOk(p: Id, a: Snapshot, refs: map<Binding, RefState>, history: seq<Turn>, c: Config, record: ProjectionRecord, env: Supply)
    requires AuthorityInv(p, a, refs, history) && MintedFresh(a, env)
    requires ProbesOk(p, a, refs, history, c, record, |record.bindings|, Completing)
    ensures EffectOk(p, a, refs, history, Conclude(a, c, record, Completing, env))
    ensures Quiet(a, Conclude(a, c, record, Completing, env))
  {
    var complete := record.(state := Complete);
    assert forall j | 0 <= j < |record.bindings| :: Settled(refs, record, j) ==> Settled(refs, complete, j);
    if Save(a, complete, CompletePhase, None, env.auditId).Written? {
      SaveKeeps(p, a, refs, history, complete, CompletePhase, None, env.auditId);
    }
  }

  lemma SelectedEffect(p: Id, a: Snapshot, next: Snapshot, refs: map<Binding, RefState>, history: seq<Turn>)
    requires AuthorityInv(p, a, refs, history) && Extends(a, next)
    requires p in next.canonicalByProject && next.canonicalByProject[p] != a.canonicalByProject[p]
    requires next.projections == a.projections
    requires AuthorityInv(p, next, refs, history + [Turn(next.canonicalByProject[p], next.version)])
    requires |history| > 1 ==> CurrentlyComplete(p, a)
    ensures EffectOk(p, a, refs, history, Halt(next))
  {
  }

  /** Only an unlanded canonical revision is selected over without completion. */
  lemma GatedUnlessFirst(p: Id, a: Snapshot, history: seq<Turn>, request: Request)
    requires LineageInv(p, a, history)
    ensures Admit(a, p, request).Admitted? ==> |history| == 1
    ensures Admit(a, p, request).Admitted? || Admit(a, p, request).Gated? ==> RequestWellFormed(request)
  {
  }

  lemma CommitOk(p: Id, a: Snapshot, refs: map<Binding, RefState>, history: seq<Turn>, previous: Snapshot, request: Request, env: Supply)
    requires AuthorityInv(p, a, refs, history) && MintedFresh(a, env)
    requires previous.version == a.version ==> previous == a
    requires Admit(previous, p, request).Gated? || Admit(previous, p, request).Admitted?
    requires Admit(previous, p, request).Gated? && previous == a ==> CurrentlyComplete(p, a)
    ensures EffectOk(p, a, refs, history, CommitOrHalt(a, p, previous, request, env))
  {
    HaltOk(p, a, refs, history);
    if SelectionCommits(a, p, previous, request, env) {
      GatedUnlessFirst(p, a, history, request);
      SelectionLandings(p, a, history, request, env);
      var next := Selection(a, p, request, env.review.policyVersion, env.minted, env.composed);
      SelectingOk(p, a, refs, history, request, env, next);
      SelectedEffect(p, a, next, refs, history);
    }
  }

  lemma SelectingOk(p: Id, a: Snapshot, refs: map<Binding, RefState>, history: seq<Turn>, request: Request, env: Supply, next: Snapshot)
    requires AuthorityInv(p, a, refs, history) && MintedFresh(a, env)
    requires HasCanonical(a, p) && env.review.Allow? && RequestWellFormed(request)
    requires next == Selection(a, p, request, env.review.policyVersion, env.minted, env.composed)
    requires LandingsInv(MadeLandings(p, next), next.changeRevisions, history + [Turn(env.minted.projectRevisionId, a.version + 1)])
    ensures AuthorityInv(p, next, refs, history + [Turn(next.canonicalByProject[p], next.version)])
    ensures Extends(a, next) && next.projections == a.projections
    ensures p in next.canonicalByProject && next.canonicalByProject[p] != a.canonicalByProject[p]
  {
    SelectionFrame(p, a, request, env);
    SelectionKeeps(p, a, refs, history, request, env);
    assert Turn(next.canonicalByProject[p], next.version) == Turn(env.minted.projectRevisionId, a.version + 1);
  }

  lemma ProbeNextOk(p: Id, a: Snapshot, refs: map<Binding, RefState>, history: seq<Turn>,
                    c: Config, record: ProjectionRecord, i: nat, duty: Duty, env: Supply)
    requires AuthorityInv(p, a, refs, history) && MintedFresh(a, env)
    requires ProbesOk(p, a, refs, history, c, record, i, duty)
    ensures EffectOk(p, a, refs, history, ProbeNext(a, c, record, i, duty, env))
    ensures !duty.Selecting? ==> Quiet(a, ProbeNext(a, c, record, i, duty, env))
  {
    var e := ProbeNext(a, c, record, i, duty, env);
    HaltOk(p, a, refs, history);
    if i == |record.bindings| {
      ConcludeOk(p, a, refs, history, c, record, duty, env);
      assert e == Conclude(a, c, record, duty, env);
    } else if SealedOnRecord(c, record, i) {
      assert WorkerInv(p, a, refs, history, Probing(c, record, i, env.challenge, None, duty));
      assert e == Effect(a, Some(Probing(c, record, i, env.challenge, None, duty)), None);
    } else {
      assert e == Halt(a);
    }
  }

  lemma NextTargetOk(p: Id, a: Snapshot, refs: map<Binding, RefState>, history: seq<Turn>,
                     c: Config, targets: seq<SelectedRef>, i: nat, env: Supply)
    requires AuthorityInv(p, a, refs, history) && MintedFresh(a, env)
    requires c.projectId == p && i <= |targets|
    ensures EffectOk(p, a, refs, history, NextTarget(a, c, targets, i, env))
    ensures Quiet(a, NextTarget(a, c, targets, i, env))
  {
    if CurrentRecord(a, c).Some? {
      CurrentRecordOk(p, a, refs, history, c);
      if i == |targets| {
        var record := CurrentRecord(a, c).value;
        if |record.sealed| == |record.bindings| {
          ProbeNextOk(p, a, refs, history, c, record, 0, Completing, env);
        }
      }
    }
  }

  lemma SealedCopyOk(p: Id, a: Snapshot, refs: map<Binding, RefState>, history: seq<Turn>, record: ProjectionRecord,
                     sealed: map<Id, Observation>, repaired: map<Id, Observation>)
    requires RecordOk(p, a, refs, history, record)
    ensures RecordOk(p, a, refs, history, record.(sealed := sealed, repaired := repaired))
  {
    var copy := record.(sealed := sealed, repaired := repaired);
    if record.state == Complete {
      assert forall j | 0 <= j < |record.bindings| :: Settled(refs, record, j) ==> Settled(refs, copy, j);
    }
  }

  lemma SaveSealOk(p: Id, a: Snapshot, refs: map<Binding, RefState>, history: seq<Turn>,
                   c: Config, targets: seq<SelectedRef>, record: ProjectionRecord, i: nat, v: Observation, env: Supply)
    requires AuthorityInv(p, a, refs, history) && MintedFresh(a, env)
    requires c.projectId == p && i < |targets| && RecordOk(p, a, refs, history, record)
    ensures EffectOk(p, a, refs, history, SaveSeal(a, c, targets, record, i, v, env))
    ensures Quiet(a, SaveSeal(a, c, targets, record, i, v, env))
  {
    HaltOk(p, a, refs, history);
    var phase := SealedPhase(targets[i].binding.space);
    var saved := Save(a, record, phase, Some(v.generation), env.auditId);
    if saved.Replay? {
      NextTargetOk(p, a, refs, history, c, targets, i + 1, env);
    } else if saved.Written? {
      SaveKeeps(p, a, refs, history, record, phase, Some(v.generation), env.auditId);
      NextTargetOk(p, saved.next, refs, history, c, targets, i + 1, env);
      EffectAfterSave(p, a, saved.next, refs, history, NextTarget(saved.next, c, targets, i + 1, env));
    }
  }

  lemma RecordSealOk(p: Id, a: Snapshot, refs: map<Binding, RefState>, history: seq<Turn>,
                     c: Config, targets: seq<SelectedRef>, record: ProjectionRecord, i: nat, v: Observation, env: Supply)
    requires AuthorityInv(p, a, refs, history) && MintedFresh(a, env)
    requires c.projectId == p && i < |targets| && RecordOk(p, a, refs, history, record)
    ensures EffectOk(p, a, refs, history, RecordSeal(a, c, targets, record, i, v, env))
    ensures Quiet(a, RecordSeal(a, c, targets, record, i, v, env))
  {
    var copy := record.(sealed := record.sealed[targets[i].binding.space := v]);
    SealedCopyOk(p, a, refs, history, record, copy.sealed, copy.repaired);
    NextTargetOk(p, a, refs, history, c, targets, i + 1, env);
    SaveSealOk(p, a, refs, history, c, targets, copy, i, v, env);
  }

  lemma SealOrRecordOk(p: Id, a: Snapshot, refs: map<Binding, RefState>, history: seq<Turn>,
                       c: Config, targets: seq<SelectedRef>, record: ProjectionRecord, i: nat, v: Observation, env: Supply)
    requires AuthorityInv(p, a, refs, history) && MintedFresh(a, env)
    requires c.projectId == p && i < |targets| && RecordOk(p, a, refs, history, record)
    ensures EffectOk(p, a, refs, history, SealOrRecord(a, c, targets, record, i, v, env))
    ensures Quiet(a, SealOrRecord(a, c, targets, record, i, v, env))
  {
    var e := SealOrRecord(a, c, targets, record, i, v, env);
    HaltOk(p, a, refs, history);
    if !Exact(v, record, targets[i]) {
      assert e == Halt(a);
    } else if !v.sealed {
      SuspendOk(p, a, refs, history, Sealing(c, targets, record, i, v, env.challenge), RequestFor(record, targets[i], v));
      assert e == Effect(a, Some(Sealing(c, targets, record, i, v, env.challenge)), Some(RequestFor(record, targets[i], v)));
    } else {
      RecordSealOk(p, a, refs, history, c, targets, record, i, v, env);
      assert e == RecordSeal(a, c, targets, record, i, v, env);
    }
  }

  lemma HandleObserveOk(p: Id, a: Snapshot, refs: map<Binding, RefState>, history: seq<Turn>, w: Worker, env: Supply)
    requires AuthorityInv(p, a, refs, history) && MintedFresh(a, env)
    requires WorkerInv(p, a, refs, history, w) && w.Observing? && w.reply.Some?
    ensures EffectOk(p, a, refs, history, HandleObserve(a, w, env))
    ensures Quiet(a, HandleObserve(a, w, env))
  {
    var e := HandleObserve(a, w, env);
    var target, v := w.targets[w.i], w.reply.value;
    HaltOk(p, a, refs, history);
    if !ObservationBound(v, w.c, target.binding, w.challenge) || Competing(v, w.record, target) {
      assert e == Halt(a);
    } else if v.epoch != w.record.epoch || v.oid != Some(target.desired) {
      SuspendOk(p, a, refs, history, Repairing(w.c, w.targets, w.record, w.i, v, env.challenge), RequestFor(w.record, target, v));
      assert e == Effect(a, Some(Repairing(w.c, w.targets, w.record, w.i, v, env.challenge)), Some(RequestFor(w.record, target, v)));
    } else {
      SealOrRecordOk(p, a, refs, history, w.c, w.targets, w.record, w.i, v, env);
      assert e == SealOrRecord(a, w.c, w.targets, w.record, w.i, v, env);
    }
  }

  /** A worker suspended on a provider call it has just sent. */
  lemma SuspendOk(p: Id, a: Snapshot, refs: map<Binding, RefState>, history: seq<Turn>, w: Worker, q: RefRequest)
    requires AuthorityInv(p, a, refs, history) && !w.Probing? && Sends(w, q)
    requires w.c.projectId == p && RecordOk(p, a, refs, history, w.record)
    ensures EffectOk(p, a, refs, history, Effect(a, Some(w), Some(q)))
  {
    IssuedEpoch(p, a, history, w.record);
  }

  lemma RecordRepairOk(p: Id, a: Snapshot, refs: map<Binding, RefState>, history: seq<Turn>,
                       c: Config, targets: seq<SelectedRef>, record: ProjectionRecord, i: nat, v: Observation, env: Supply)
    requires AuthorityInv(p, a, refs, history) && MintedFresh(a, env)
    requires c.projectId == p && i < |targets| && RecordOk(p, a, refs, history, record)
    ensures EffectOk(p, a, refs, history, RecordRepair(a, c, targets, record, i, v, env))
    ensures Quiet(a, RecordRepair(a, c, targets, record, i, v, env))
  {
    var phase := RepairedPhase(targets[i].binding.space);
    var saved := Save(a, record, phase, Some(v.generation), env.auditId);
    if saved.Replay? {
      SealOrRecordOk(p, a, refs, history, c, targets, record, i, v, env);
    } else if saved.Written? {
      var later := env.(auditId := env.secondAuditId);
      SaveKeeps(p, a, refs, history, record, phase, Some(v.generation), env.auditId);
      SealOrRecordOk(p, saved.next, refs, history, c, targets, record, i, v, later);
      EffectAfterSave(p, a, saved.next, refs, history, SealOrRecord(saved.next, c, targets, record, i, v, later));
    }
  }

  lemma HandleRepairOk(p: Id, a: Snapshot, refs: map<Binding, RefState>, history: seq<Turn>, w: Worker, v: Observation, env: Supply)
    requires AuthorityInv(p, a, refs, history) && MintedFresh(a, env)
    requires WorkerInv(p, a, refs, history, w) && w.Repairing?
    ensures EffectOk(p, a, refs, history, HandleRepair(a, w, v, env))
    ensures Quiet(a, HandleRepair(a, w, v, env))
  {
    HaltOk(p, a, refs, history);
    var record := w.record.(repaired := w.record.repaired[w.targets[w.i].binding.space := v]);
    SealedCopyOk(p, a, refs, history, w.record, record.sealed, record.repaired);
    RecordRepairOk(p, a, refs, history, w.c, w.targets, record, w.i, v, env);
  }

  lemma HandleSealOk(p: Id, a: Snapshot, refs: map<Binding, RefState>, history: seq<Turn>, w: Worker, v: Observation, env: Supply)
    requires AuthorityInv(p, a, refs, history) && MintedFresh(a, env)
    requires WorkerInv(p, a, refs, history, w) && w.Sealing?
    ensures EffectOk(p, a, refs, history, HandleSeal(a, w, v, env))
    ensures Quiet(a, HandleSeal(a, w, v, env))
  {
    RecordSealOk(p, a, refs, history, w.c, w.targets, w.record, w.i, v, env);
  }

  lemma HandleProbeOk(p: Id, a: Snapshot, refs: map<Binding, RefState>, history: seq<Turn>, w: Worker, env: Supply)
    requires AuthorityInv(p, a, refs, history) && MintedFresh(a, env)
    requires WorkerInv(p, a, refs, history, w) && w.Probing? && w.reply.Some?
    ensures EffectOk(p, a, refs, history, HandleProbe(a, w, env))
  {
    var v := w.reply.value;
    if v.sealed && Exact(v, w.record, w.record.bindings[w.i]) {
      ProbeNextOk(p, a, refs, history, w.c, w.record, w.i + 1, w.duty, env);
    }
  }

  lemma EnterLoopOk(p: Id, a: Snapshot, refs: map<Binding, RefState>, history: seq<Turn>, c: Config, env: Supply)
    requires AuthorityInv(p, a, refs, history) && MintedFresh(a, env) && c.projectId == p
    ensures EffectOk(p, a, refs, history, EnterLoop(a, c, env))
    ensures Quiet(a, EnterLoop(a, c, env))
  {
    if CurrentRecord(a, c).Some? {
      var record := CurrentRecord(a, c).value;
      CurrentRecordOk(p, a, refs, history, c);
      if record.state == Complete {
        if |record.sealed| == |record.bindings| {
          ProbeNextOk(p, a, refs, history, c, record, 0, Rechecking, env);
        }
      } else {
        NextTargetOk(p, a, refs, history, c, record.bindings, 0, env);
      }
    }
  }

  lemma BeginRecordOk(p: Id, a: Snapshot, refs: map<Binding, RefState>, history: seq<Turn>, c: Config, record: ProjectionRecord, env: Supply)
    requires AuthorityInv(p, a, refs, history) && MintedFresh(a, env) && c.projectId == p
    requires record.projectId == p && record.state == Pending
    ensures EffectOk(p, a, refs, history, BeginRecord(a, c, record, env))
    ensures Quiet(a, BeginRecord(a, c, record, env))
  {
    HaltOk(p, a, refs, history);
    var saved := Save(a, record, BeginPhase, None, env.auditId);
    if saved.Written? {
      var later := env.(auditId := env.secondAuditId);
      SaveKeeps(p, a, refs, history, record, BeginPhase, None, env.auditId);
      EnterLoopOk(p, saved.next, refs, history, c, later);
      EffectAfterSave(p, a, saved.next, refs, history, EnterLoop(saved.next, c, later));
      assert BeginRecord(a, c, record, env) == EnterLoop(saved.next, c, later);
    } else {
      assert BeginRecord(a, c, record, env) == Halt(a);
    }
  }

  lemma StartReconcileOk(p: Id, a: Snapshot, refs: map<Binding, RefState>, history: seq<Turn>, c: Config, env: Supply)
    requires AuthorityInv(p, a, refs, history) && MintedFresh(a, env) && c.projectId == p
    ensures EffectOk(p, a, refs, history, StartReconcile(a, c, env))
    ensures Quiet(a, StartReconcile(a, c, env))
  {
    HaltOk(p, a, refs, history);
    EnterLoopOk(p, a, refs, history, c, env);
    if Coverable(a, c) && BeginsFrom(a, a.canonicalByProject[p], env.landingKey) {
      BeginRecordOk(p, a, refs, history, c, NewRecord(a, c, env.landingKey, env.recordId), env);
    }
  }

  lemma StartLandingOk(p: Id, a: Snapshot, refs: map<Binding, RefState>, history: seq<Turn>, c: Config, request: Request, env: Supply)
    requires AuthorityInv(p, a, refs, history) && MintedFresh(a, env) && c.projectId == p
    ensures EffectOk(p, a, refs, history, StartLanding(a, c, request, env))
  {
    HaltOk(p, a, refs, history);
    match Admit(a, p, request)
    case Replayed(_) =>
    case Refused(_) =>
    case Admitted => CommitOk(p, a, refs, history, a, request, env);
    case Gated =>
      if CurrentRecord(a, c).Some? && CurrentRecord(a, c).value.state == Complete {
        var record := CurrentRecord(a, c).value;
        CurrentRecordOk(p, a, refs, history, c);
        if |record.sealed| == |record.bindings| {
          ProbeNextOk(p, a, refs, history, c, record, 0, Selecting(a, request), env);
        }
      }
  }

  // ---------------------------------------------------------------- cluster steps

  lemma WorkerKept(p: Id, a: Snapshot, next: Snapshot, refs: map<Binding, RefState>, history: seq<Turn>, longer: seq<Turn>, w: Worker)
    requires WorkerInv(p, a, refs, history, w) && Extends(a, next) && history <= longer
    ensures WorkerInv(p, next, refs, longer, w)
  {
    assert forall turn | turn in history :: turn in longer;
  }

  lemma SettleKeeps(p: Id, s: Cluster, w: nat, e: Effect)
    requires Inv(p, s) && EffectOk(p, s.authority, s.refs, s.history, e)
    ensures StepOk(p, s, Settle(p, s, w, e))
  {
    SettleInv(p, s, w, e);
    SettleSends(p, s, w, e);
    var t := Settle(p, s, w, e);
    assert t.authority == e.authority && t.history == HistoryAfter(p, s.authority, e.authority, s.history);
  }

  lemma SettleSends(p: Id, s: Cluster, w: nat, e: Effect)
    requires e.request.Some? ==> e.worker.Some? && Sends(e.worker.value, e.request.value)
    ensures var t := Settle(p, s, w, e);
            forall q | q in t.sent && q !in s.sent :: exists v | v in t.workers :: Sends(t.workers[v], q)
  {
    var t := Settle(p, s, w, e);
    forall q | q in t.sent && q !in s.sent
      ensures exists v | v in t.workers :: Sends(t.workers[v], q)
    {
      assert Sends(t.workers[w], q);
    }
  }

  lemma SettleInv(p: Id, s: Cluster, w: nat, e: Effect)
    requires Inv(p, s) && EffectOk(p, s.authority, s.refs, s.history, e)
    ensures Inv(p, Settle(p, s, w, e))
  {
    var t := Settle(p, s, w, e);
    assert t.authority == e.authority && t.refs == s.refs && t.history == HistoryAfter(p, s.authority, e.authority, s.history);
    SettleWorkers(p, s, w, e);
    SettleEpochs(p, s, w, e);
  }

  lemma SettleWorkers(p: Id, s: Cluster, w: nat, e: Effect)
    requires Inv(p, s) && EffectOk(p, s.authority, s.refs, s.history, e)
    ensures var t := Settle(p, s, w, e);
            forall v | v in t.workers :: WorkerInv(p, t.authority, t.refs, t.history, t.workers[v])
  {
    var t := Settle(p, s, w, e);
    forall v | v in t.workers
      ensures WorkerInv(p, t.authority, t.refs, t.history, t.workers[v])
    {
      if v != w {
        WorkerKept(p, s.authority, t.authority, s.refs, s.history, t.history, s.workers[v]);
      }
    }
  }

  lemma SettleEpochs(p: Id, s: Cluster, w: nat, e: Effect)
    requires s.history != [] && LastTurn(s.history).epoch <= s.authority.version
    requires EpochsInv(s.refs, s.sent, LastTurn(s.history).epoch) && Extends(s.authority, e.authority)
    requires e.request.Some? ==> e.request.value.epoch <= LastTurn(HistoryAfter(p, s.authority, e.authority, s.history)).epoch
    ensures var t := Settle(p, s, w, e); EpochsInv(t.refs, t.sent, LastTurn(t.history).epoch)
  {
    var t := Settle(p, s, w, e);
    assert LastTurn(s.history).epoch <= LastTurn(t.history).epoch;
  }

  lemma SettledStays(refs: map<Binding, RefState>, b: Binding, after: RefState, record: ProjectionRecord, i: nat)
    requires b in refs && LegalWrite(refs[b], after) && i < |record.bindings|
    ensures Settled(refs, record, i) ==> Settled(refs[b := after], record, i)
  {
  }

  /** A legal write under an issued epoch, by whomever, keeps the invariant. */
  lemma WriteKeeps(p: Id, s: Cluster, b: Binding, after: RefState)
    requires Inv(p, s)
    requires b in s.refs && LegalWrite(s.refs[b], after) && after.epoch <= LastTurn(s.history).epoch
    ensures StepOk(p, s, s.(refs := s.refs[b := after]))
  {
    var t := s.(refs := s.refs[b := after]);
    forall record: ProjectionRecord, i | 0 <= i < |record.bindings| && Settled(s.refs, record, i)
      ensures Settled(t.refs, record, i)
    {
      SettledStays(s.refs, b, after, record, i);
    }
    forall v | v in t.workers
      ensures WorkerInv(p, t.authority, t.refs, t.history, t.workers[v])
    {
      assert WorkerInv(p, s.authority, s.refs, s.history, s.workers[v]);
    }
  }

  lemma AnswerKeeps(p: Id, s: Cluster, w: nat, receipt: string, t: Cluster)
    requires Inv(p, s) && Next(p, s, Answer(w, receipt), t)
    ensures StepOk(p, s, t)
  {
    forall v | v in t.workers
      ensures WorkerInv(p, t.authority, t.refs, t.history, t.workers[v])
    {
      assert WorkerInv(p, s.authority, s.refs, s.history, s.workers[v]);
    }
  }

  lemma OtherCommitStepKeeps(p: Id, s: Cluster, next: Snapshot)
    requires Inv(p, s) && OtherCommitAllowed(p, s.authority, next)
    ensures StepOk(p, s, s.(authority := next))
  {
    OtherCommitKeeps(p, s.authority, s.refs, s.history, next);
    forall v | v in s.workers
      ensures WorkerInv(p, next, s.refs, s.history, s.workers[v])
    {
      WorkerKept(p, s.authority, next, s.refs, s.history, s.history, s.workers[v]);
    }
  }

  lemma KillKeeps(p: Id, s: Cluster, w: nat)
    requires Inv(p, s)
    ensures StepOk(p, s, s.(workers := s.workers - {w}))
  {
  }

  lemma ReplyKeeps(p: Id, s: Cluster, step: Step, t: Cluster)
    requires Inv(p, s) && Next(p, s, step, t)
    requires step.ObserveReply? || step.ProbeReply? || step.RepairReply? || step.SealReply?
    ensures StepOk(p, s, t)
  {
    if step.ObserveReply? || step.ProbeReply? {
      ReadReplyKeeps(p, s, step, t);
    } else {
      WriteReplyKeeps(p, s, step, t);
    }
  }

  lemma ReadReplyKeeps(p: Id, s: Cluster, step: Step, t: Cluster)
    requires Inv(p, s) && Next(p, s, step, t) && (step.ObserveReply? || step.ProbeReply?)
    ensures StepOk(p, s, t)
  {
    var a, refs, history := s.authority, s.refs, s.history;
    var worker := s.workers[step.w];
    assert WorkerInv(p, a, refs, history, worker);
    match step
    case ObserveReply(w, env) =>
      HandleObserveOk(p, a, refs, history, worker, env);
      SettleKeeps(p, s, w, HandleObserve(a, worker, env));
    case ProbeReply(w, env) =>
      HandleProbeOk(p, a, refs, history, worker, env);
      SettleKeeps(p, s, w, HandleProbe(a, worker, env));
  }

  lemma WriteReplyKeeps(p: Id, s: Cluster, step: Step, t: Cluster)
    requires Inv(p, s) && Next(p, s, step, t) && (step.RepairReply? || step.SealReply?)
    ensures StepOk(p, s, t)
  {
    var a, refs, history := s.authority, s.refs, s.history;
    var worker := s.workers[step.w];
    assert WorkerInv(p, a, refs, history, worker);
    match step
    case RepairReply(w, v, env) =>
      HandleRepairOk(p, a, refs, history, worker, v, env);
      SettleKeeps(p, s, w, HandleRepair(a, worker, v, env));
    case SealReply(w, v, env) =>
      HandleSealOk(p, a, refs, history, worker, v, env);
      SettleKeeps(p, s, w, HandleSeal(a, worker, v, env));
  }

  lemma CallKeeps(p: Id, s: Cluster, step: Step, t: Cluster)
    requires Inv(p, s) && Next(p, s, step, t)
    requires step.Reconcile? || step.Land?
    ensures StepOk(p, s, t)
  {
    var a, refs, history := s.authority, s.refs, s.history;
    match step
    case Reconcile(w, c, env) =>
      StartReconcileOk(p, a, refs, history, c, env);
      SettleKeeps(p, s, w, StartReconcile(a, c, env));
    case Land(w, c, request, env) =>
      StartLandingOk(p, a, refs, history, c, request, env);
      SettleKeeps(p, s, w, StartLanding(a, c, request, env));
  }

  lemma WriteStepKeeps(p: Id, s: Cluster, step: Step, t: Cluster)
    requires Inv(p, s) && Next(p, s, step, t)
    requires step.ArriveRepair? || step.ArriveSeal? || step.OtherWriter?
    ensures StepOk(p, s, t)
  {
    match step
    case ArriveRepair(q) =>
      WriteKeeps(p, s, q.target.binding, Repaired(s.refs[q.target.binding], q));
    case ArriveSeal(q) =>
      WriteKeeps(p, s, q.target.binding, SealedRef(s.refs[q.target.binding]));
    case OtherWriter(b, after) =>
      WriteKeeps(p, s, b, after);
  }

  lemma NextKeepsInv(p: Id, s: Cluster, step: Step, t: Cluster)
    requires Inv(p, s) && Next(p, s, step, t)
    ensures StepOk(p, s, t)
  {
    if step.Reconcile? || step.Land? {
      CallKeeps(p, s, step, t);
    } else if step.ObserveReply? || step.ProbeReply? || step.RepairReply? || step.SealReply? {
      ReplyKeeps(p, s, step, t);
    } else if step.Answer? {
      AnswerKeeps(p, s, step.w, step.receipt, t);
    } else if step.Kill? {
      KillKeeps(p, s, step.w);
    } else if step.OtherCommit? {
      OtherCommitStepKeeps(p, s, step.next);
    } else {
      WriteStepKeeps(p, s, step, t);
    }
  }

  lemma InitInv(p: Id, s: Cluster)
    requires Init(p, s)
    ensures Inv(p, s)
  {
    assert MadeLandings(p, s.authority) == map[];
  }

  // -------------------------------------------------------------------- theorems

  /** While a record stands complete for the current selection, every ref it
      binds is sealed at that Landing's epoch with the desired commit. */
  lemma CompletionCertifies(p: Id, s: Cluster)
    requires Inv(p, s) && CurrentlyComplete(p, s.authority)
    ensures AllSealed(s.refs, s.authority.projections[p])
    ensures s.authority.projections[p].epoch == LastTurn(s.history).epoch
  {
    var record := s.authority.projections[p];
    IssuedEpoch(p, s.authority, s.history, record);
    forall target | target in record.bindings
      ensures target.binding in s.refs && SealedExactly(s.refs[target.binding], record, target)
    {
      var i :| 0 <= i < |record.bindings| && record.bindings[i] == target;
      assert Settled(s.refs, record, i);
    }
  }

  /** A round of probes selects only on the snapshot it verified. */
  lemma ProbedSelection(p: Id, s: Cluster, w: Worker, env: Supply)
    requires WorkerInv(p, s.authority, s.refs, s.history, w) && w.Probing? && w.reply.Some?
    requires !Quiet(s.authority, HandleProbe(s.authority, w, env))
    ensures RecordCurrent(s.authority, w.c) && w.c.projectId == p
  {
    assert w.duty.Selecting?;
  }

  /** A later selection is made by the probes of a worker whose configuration the
      completed record is the current one for. */
  lemma SelectingCovers(p: Id, s: Cluster, step: Step, t: Cluster)
    requires Inv(p, s) && Next(p, s, step, t)
    requires t.history != s.history && |s.history| > 1
    ensures step.Land? ==> RecordCurrent(s.authority, step.c) && step.c.projectId == p
    ensures !step.Land? ==> step.ProbeReply? && step.w in s.workers
                            && RecordCurrent(s.authority, s.workers[step.w].c) && s.workers[step.w].c.projectId == p
    ensures CoversProject(p, s.authority)
  {
    if step.Reconcile? {
      StartReconcileOk(p, s.authority, s.refs, s.history, step.c, step.env);
    } else if step.Land? {
      GatedSelects(s.authority, step.c, step.request, step.env, s.history);
    } else if step.ObserveReply? || step.RepairReply? || step.SealReply? {
      LoopIsQuiet(p, s, step, t);
    } else if step.ProbeReply? {
      ProbedSelection(p, s, s.workers[step.w], step.env);
    }
  }

  /** After the first selection a Landing call selects at once only over a
      complete record that has nothing to probe. */
  lemma GatedSelects(a: Snapshot, c: Config, request: Request, env: Supply, history: seq<Turn>)
    requires LineageInv(c.projectId, a, history) && |history| > 1
    ensures Quiet(a, StartLanding(a, c, request, env)) || RecordCurrent(a, c)
  {
    GatedUnlessFirst(c.projectId, a, history, request);
  }

  lemma LoopIsQuiet(p: Id, s: Cluster, step: Step, t: Cluster)
    requires Inv(p, s) && Next(p, s, step, t) && (step.ObserveReply? || step.RepairReply? || step.SealReply?)
    ensures t.history == s.history
  {
    var a, refs, history := s.authority, s.refs, s.history;
    assert WorkerInv(p, a, refs, history, s.workers[step.w]);
    match step
    case ObserveReply(w, env) => HandleObserveOk(p, a, refs, history, s.workers[w], env);
    case RepairReply(w, v, env) => HandleRepairOk(p, a, refs, history, s.workers[w], v, env);
    case SealReply(w, v, env) => HandleSealOk(p, a, refs, history, s.workers[w], v, env);
    case _ =>
  }

  /** A selection after the first commits only while the record of the one
      before stands complete, so all its refs are sealed, one in the enrolled
      repository of every Source Space of the Project; epochs increase. */
  lemma LaterLandingIsFenced(p: Id, s: Cluster, step: Step, t: Cluster)
    requires Inv(p, s) && Next(p, s, step, t)
    requires t.history != s.history
    ensures s.history < t.history && |t.history| == |s.history| + 1
    ensures LastTurn(t.history).epoch > LastTurn(s.history).epoch
    ensures |s.history| > 1 ==>
              CurrentlyComplete(p, s.authority) && AllSealed(s.refs, s.authority.projections[p]) && CoversProject(p, s.authority)
  {
    NextKeepsInv(p, s, step, t);
    if |s.history| > 1 {
      SelectingCovers(p, s, step, t);
      CompletionCertifies(p, s);
    }
  }

  /** A step that commits a record as complete does so while every ref the
      record binds is sealed at its epoch with the desired commit. */
  lemma CompletingIsCertified(p: Id, s: Cluster, t: Cluster)
    requires StepOk(p, s, t) && CompletesIn(p, s.authority, t.authority)
    ensures AllSealed(t.refs, t.authority.projections[p])
    ensures t.authority.projections[p].projectRevisionId == t.authority.canonicalByProject[p]
    ensures t.authority.projections[p].epoch == LastTurn(t.history).epoch
  {
    CompletionCertifies(p, t);
  }

  /** No Change Revision is landed twice, and no cohort makes two Landings. */
  lemma LandsOnce(p: Id, s: Cluster, k: Key, l: Key)
    requires Inv(p, s)
    requires k in MadeLandings(p, s.authority) && l in MadeLandings(p, s.authority)
    ensures Distinct(MadeLandings(p, s.authority)[k].landing.changeRevisionIds)
    ensures k != l ==> MadeLandings(p, s.authority)[k].landing.cohortId != MadeLandings(p, s.authority)[l].landing.cohortId
    ensures k != l ==> forall id | id in MadeLandings(p, s.authority)[k].landing.changeRevisionIds ::
                         id !in MadeLandings(p, s.authority)[l].landing.changeRevisionIds
  {
    var made := MadeLandings(p, s.authority);
    assert MadeInv(s.authority.changeRevisions, s.history, k, made[k]);
    assert MadeInv(s.authority.changeRevisions, s.history, l, made[l]);
    var i :| MadeTurn(s.history, made[k], i);
    var j :| MadeTurn(s.history, made[l], j);
    if k != l {
      assert i != j;
      assert made[k].landing.previous != made[l].landing.previous;
    }
  }

  /** The recorded selections, newest first. */
  function NewestFirst(history: seq<Turn>): (chain: seq<Id>)
    ensures |chain| == |history|
    ensures forall i | 0 <= i < |chain| :: chain[i] == history[|history| - 1 - i].revisionId
  {
    seq(|history|, i requires 0 <= i < |history| => history[|history| - 1 - i].revisionId)
  }

  /** The canonical lineage is complete and acyclic, and is the recorded history:
      the projection plan never stops on it. */
  lemma LineageIsHistory(p: Id, s: Cluster)
    requires Inv(p, s)
    ensures IsLineage(s.authority.projectRevisions, p, s.authority.canonicalByProject[p], NewestFirst(s.history))
  {
    var chain := NewestFirst(s.history);
    var revisions := s.authority.projectRevisions;
    forall i | 0 <= i < |chain| - 1
      ensures revisions[chain[i]].parent == Some(chain[i + 1])
    {
      var k := |chain| - 1 - i;
      assert revisions[s.history[k].revisionId].parent == Some(s.history[k - 1].revisionId);
    }
    forall i, j | 0 <= i < j < |chain|
      ensures chain[i] != chain[j]
    {
      assert s.history[|chain| - 1 - j].revisionId != s.history[|chain| - 1 - i].revisionId;
    }
  }

  // ------------------------------------------------------------------------ runs

  ghost predicate IsRun(p: Id, run: seq<Cluster>, steps: seq<Step>) {
    && |run| == |steps| + 1
    && Init(p, run[0])
    && forall i | 0 <= i < |steps| :: Next(p, run[i], steps[i], run[i + 1])
  }

  lemma {:induction false} RunKeepsInv(p: Id, run: seq<Cluster>, steps: seq<Step>, k: nat)
    requires IsRun(p, run, steps) && k < |run|
    ensures Inv(p, run[k])
  {
    if k == 0 {
      InitInv(p, run[0]);
    } else {
      RunKeepsInv(p, run, steps, k - 1);
      NextKeepsInv(p, run[k - 1], steps[k - 1], run[k]);
    }
  }

  lemma RunStepsOk(p: Id, run: seq<Cluster>, steps: seq<Step>)
    requires IsRun(p, run, steps)
    ensures forall k | 0 <= k < |run| :: Inv(p, run[k])
    ensures forall k | 0 <= k < |run| - 1 :: StepOk(p, run[k], run[k + 1])
  {
    forall k | 0 <= k < |run|
      ensures Inv(p, run[k])
      ensures k < |steps| ==> StepOk(p, run[k], run[k + 1])
    {
      RunKeepsInv(p, run, steps, k);
      if k < |steps| {
        NextKeepsInv(p, run[k], steps[k], run[k + 1]);
      }
    }
  }

  /** In every run: a complete record certifies sealed refs. */
  lemma EveryCompletionCertifies(p: Id, run: seq<Cluster>, steps: seq<Step>)
    requires IsRun(p, run, steps)
    ensures forall k | 0 <= k < |run| && CurrentlyComplete(p, run[k].authority) ::
              AllSealed(run[k].refs, run[k].authority.projections[p])
    ensures forall k | 0 <= k < |run| - 1 && CompletesIn(p, run[k].authority, run[k + 1].authority) ::
              AllSealed(run[k + 1].refs, run[k + 1].authority.projections[p])
  {
    RunStepsOk(p, run, steps);
    forall k | 0 <= k < |run| && CurrentlyComplete(p, run[k].authority)
      ensures AllSealed(run[k].refs, run[k].authority.projections[p])
    {
      CompletionCertifies(p, run[k]);
    }
    forall k | 0 <= k < |run| - 1 && CompletesIn(p, run[k].authority, run[k + 1].authority)
      ensures AllSealed(run[k + 1].refs, run[k + 1].authority.projections[p])
    {
      CompletingIsCertified(p, run[k], run[k + 1]);
    }
  }

  /** Every step of every run is fenced. */
  lemma EveryLandingIsFenced(p: Id, run: seq<Cluster>, steps: seq<Step>)
    requires IsRun(p, run, steps)
    ensures forall k | 0 <= k < |run| - 1 :: StepFenced(p, run[k], run[k + 1])
  {
    RunStepsOk(p, run, steps);
    forall k | 0 <= k < |run| - 1
      ensures StepFenced(p, run[k], run[k + 1])
    {
      if run[k + 1].history != run[k].history {
        LaterLandingIsFenced(p, run[k], steps[k], run[k + 1]);
      }
    }
  }
}
