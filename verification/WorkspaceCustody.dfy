/** Token custody of one Workspace: issuing, forking and revoking interleave at
    every await, replies are lost, processes die and custody writes fail. What
    the durable record must then still say about the tokens in the world. */
module WorkspaceCustody {
  import opened Basics

  type Id = string

  datatype Pending = Idle | Fork | Mint

  /** The durable record; `context` is set once the Workspace is enrolled. */
  datatype Record = Record(context: bool, tokenIds: seq<Id>, blocked: bool, unknownTokenInventory: bool, pending: Pending)

  /** A token at the provider. Its id may be empty: then it cannot be listed. */
  datatype Token = Token(serial: nat, id: Id)

  /** An operation at one of its awaits. */
  datatype Op =
    | Issuing                                   // before the mint is reserved
    | Minting                                   // createToken is on its way
    | Checking(t: Token)                        // the token is in hand, and listed if it has an id
    | Retiring(t: Token)                        // a rejected token is being revoked
    | Looking                                   // revocation: blocked, reading the repository
    | Retracting(ids: seq<Id>, quiet: bool)     // revocation: revoking the first of these ids
    | ForkChecking
    | Forking
    | ForkRetiring(t: Token)
    | ForkVerifying

  /** `calls` are mints and forks sent and not yet carried out, `made` the token
      each one made; either may happen after its operation has died. `holder`
      is the operation that reserved the record or its pending effect last.
      `succeeded` are the revocations that reported success; `revoked` says that
      one of them had found nothing pending when it read the ids. */
  datatype World = World(
    record: Option<Record>, live: set<Token>, calls: set<nat>, made: map<nat, Token>,
    ops: map<nat, Op>, begun: set<nat>, holder: nat, released: seq<Token>, succeeded: set<nat>, revoked: bool)

  // ------------------------------------------------------------- changes to the record

  function Listed(r: Record, t: Token): Record {
    r.(tokenIds := r.tokenIds + [t.id])
  }

  /** The rejected token was retired. */
  function Cleared(r: Record, t: Token): Record {
    r.(tokenIds := Without(r.tokenIds, t.id), pending := Idle)
  }

  /** The rejected token may still live. */
  function Abandoned(r: Record, t: Token): Record {
    r.(blocked := true, pending := Idle,
       tokenIds := if t.id != "" && t.id !in r.tokenIds then r.tokenIds + [t.id] else r.tokenIds,
       unknownTokenInventory := r.unknownTokenInventory || t.id == "")
  }

  /** What a rejected token leaves; either custody write may fail. */
  function Rejected(r: Record, t: Token, retired: bool, custody: bool, fallback: bool): Record {
    if retired && custody then Cleared(r, t) else if fallback then Abandoned(r, t) else r
  }

  function Lost(r: Record): Record {
    r.(blocked := true, unknownTokenInventory := true)
  }

  /** The last word of a revocation. */
  predicate Clean(r: Record) {
    !r.unknownTokenInventory && r.pending == Idle
  }

  // ----------------------------------------------------------------------------- steps

  datatype Step =
    | BeginIssue(n: nat)
    | Reserve(n: nat)
    | Arrive(n: nat, t: Token)
    | MintReply(n: nat, custody: bool)
    | MintLost(n: nat, custody: bool)
    | Fail(n: nat, custody: bool, fallback: bool)
    | Finish(n: nat)
    | RetireReply(n: nat, retired: bool, custody: bool, fallback: bool)
    | Retire(t: Token)
    | BeginRevoke(n: nat)
    | ReadIds(n: nat)
    | RetractReply(n: nat)
    | BeginFork(n: nat)
    | ForkGo(n: nat)
    | ForkFail(n: nat)
    | ForkReply(n: nat)
    | ForkRetired(n: nat)
    | ForkDone(n: nat)
    | Kill(n: nat)

  function End(w: World, n: nat): World {
    w.(ops := w.ops - {n})
  }

  function Wait(w: World, n: nat, op: Op): World {
    w.(ops := w.ops[n := op], begun := w.begun + {n})
  }

  function Write(w: World, r: Record): World {
    w.(record := Some(r))
  }

  /** A revocation moves to its next id, or concludes. `quiet` says that nothing
      was pending when the ids were read. */
  function Retract(w: World, n: nat, r: Record, ids: seq<Id>, quiet: bool): World {
    if ids != [] then Wait(w, n, Retracting(ids, quiet))
    else if Clean(r) then End(w, n).(succeeded := w.succeeded + {n}, revoked := w.revoked || quiet)
    else End(w, n)
  }

  predicate At(w: World, n: nat) {
    n in w.ops && w.record.Some?
  }

  /** A new token: its serial and its id, unless empty, were never seen. */
  predicate NewToken(w: World, t: Token) {
    forall m | m in w.made :: w.made[m].serial != t.serial && (t.id != "" ==> w.made[m].id != t.id)
  }

  predicate Next(w: World, step: Step, w': World) {
    match step
    case BeginIssue(n) =>
      n !in w.begun && w.record.Some? && w.record.value.context && w' == Wait(w, n, Issuing)
    case Reserve(n) =>
      && At(w, n) && w.ops[n] == Issuing
      && var r := w.record.value;
      w' == if !r.blocked && r.pending == Idle
            then Wait(Write(w, r.(pending := Mint)), n, Minting).(calls := w.calls + {n}, holder := n)
            else End(w, n)
    case Arrive(n, t) => // the provider carries out a mint or a fork
      n in w.calls && NewToken(w, t) && w' == w.(calls := w.calls - {n}, made := w.made[n := t], live := w.live + {t})
    case MintReply(n, custody) =>
      && At(w, n) && w.ops[n] == Minting && n in w.made
      && var t := w.made[n];
      w' == if t.id == "" then Wait(w, n, Checking(t))
            else if custody then Wait(Write(w, Listed(w.record.value, t)), n, Checking(t))
            else Wait(w, n, Retiring(t))
    case MintLost(n, custody) =>
      && At(w, n) && w.ops[n] == Minting
      && w' == End(if custody then Write(w, Lost(w.record.value)) else w, n)
    case Fail(n, custody, fallback) => // a check failed, or the grant is gone
      && At(w, n) && w.ops[n].Checking?
      && var t := w.ops[n].t;
      w' == if t.id != "" && t.id !in w.record.value.tokenIds
            then End(Write(w, Rejected(w.record.value, t, true, custody, fallback)), n)
            else Wait(w, n, Retiring(t))
    case Finish(n) => // the credential is handed out
      && At(w, n) && w.ops[n].Checking? && w.ops[n].t.id != "" && !w.record.value.blocked
      && w' == End(Write(w, w.record.value.(pending := Idle)), n).(released := w.released + [w.ops[n].t])
    case RetireReply(n, retired, custody, fallback) =>
      && At(w, n) && w.ops[n].Retiring? && (retired ==> w.ops[n].t !in w.live)
      && w' == End(Write(w, Rejected(w.record.value, w.ops[n].t, retired, custody, fallback)), n)
    case Retire(t) => // a revocation takes effect, or the token expires
      w' == w.(live := w.live - {t})
    case BeginRevoke(n) =>
      && n !in w.begun && w.record.Some?
      && var r := w.record.value.(blocked := true);
      w' == if r.context then Wait(Write(w, r), n, Looking)
            else if Clean(r) then Write(w, r).(begun := w.begun + {n}, succeeded := w.succeeded + {n}, revoked := true)
            else Write(w, r).(begun := w.begun + {n})
    case ReadIds(n) =>
      && At(w, n) && w.ops[n] == Looking
      && var r := w.record.value;
      w' == Retract(w, n, r, r.tokenIds, r.pending == Idle)
    case RetractReply(n) => // the provider confirms; otherwise the call just ends
      && At(w, n) && w.ops[n].Retracting? && w.ops[n].ids != []
      && var ids := w.ops[n].ids;
      && (forall t | t in w.live :: t.id != ids[0])
      && var r := w.record.value.(tokenIds := Without(w.record.value.tokenIds, ids[0]));
      w' == Retract(Write(w, r), n, r, ids[1..], w.ops[n].quiet)
    case BeginFork(n) =>
      n !in w.begun && w.record.None? && w' == Wait(Write(w, Record(false, [], false, false, Idle)), n, ForkChecking).(holder := n)
    case ForkGo(n) =>
      && At(w, n) && w.ops[n] == ForkChecking && !w.record.value.blocked
      && w' == Wait(Write(w, w.record.value.(pending := Fork)), n, Forking).(calls := w.calls + {n})
    case ForkFail(n) => // before any effect the reservation is released, unless revoked
      && At(w, n) && w.ops[n] == ForkChecking
      && w' == End(if w.record.value.blocked then w else w.(record := None), n)
    case ForkReply(n) =>
      At(w, n) && w.ops[n] == Forking && n in w.made && w' == Wait(w, n, ForkRetiring(w.made[n]))
    case ForkRetired(n) =>
      At(w, n) && w.ops[n].ForkRetiring? && w.ops[n].t !in w.live && w' == Wait(w, n, ForkVerifying)
    case ForkDone(n) =>
      && At(w, n) && w.ops[n] == ForkVerifying && !w.record.value.blocked
      && w' == End(Write(w, w.record.value.(context := true, pending := Idle)), n)
    case Kill(n) => w' == End(w, n)
  }

  predicate Init(w: World) {
    w == World(None, {}, {}, map[], map[], {}, 0, [], {}, false)
  }

  // ------------------------------------------------------------------------- invariant

  /** The property: a token in the world is listed, or the record says that it
      does not list everything. */
  predicate Accounted(w: World, t: Token) {
    && w.record.Some?
    && var r := w.record.value;
    (t.id != "" && t.id in r.tokenIds) || r.pending != Idle || r.unknownTokenInventory
  }

  /** The effect of operation m is what the record has pending, or is known to
      be unknown. */
  predicate Covered(w: World, m: nat) {
    && w.record.Some?
    && (w.record.value.unknownTokenInventory || (w.record.value.pending != Idle && w.holder == m))
  }

  predicate TokenOk(w: World, t: Token) {
    && w.record.Some?
    && exists m :: m in w.made && w.made[m] == t && (Covered(w, m) || (t.id != "" && t.id in w.record.value.tokenIds))
  }

  predicate OpOk(w: World, n: nat, op: Op) {
    && n in w.begun
    && (!op.ForkChecking? ==> w.record.Some?)
    && match op
       case Issuing => w.record.value.context && n !in w.made && n !in w.calls
       case Minting => w.record.value.context && w.record.value.pending == Mint && w.holder == n
       case Checking(t) => w.record.value.context && w.record.value.pending == Mint && w.holder == n && n in w.made && w.made[n] == t
                           && (t in w.live && t.id != "" ==> t.id in w.record.value.tokenIds)
       case Retiring(t) => w.record.value.context && w.record.value.pending == Mint && w.holder == n && n in w.made && w.made[n] == t
       case Looking => w.record.value.context && w.record.value.blocked
       case Retracting(ids, quiet) => w.record.value.context && w.record.value.blocked && ids != [] && (quiet ==> Drained(w, ids))
       case ForkChecking => w.record.Some? && Untouched(w) && w.holder == n && n !in w.made
       case Forking => w.record.value.pending == Fork && w.holder == n
       case ForkRetiring(t) => w.record.value.pending == Fork && w.holder == n && n in w.made && w.made[n] == t
       case ForkVerifying => w.record.value.pending == Fork && w.holder == n && n in w.made && w.made[n] !in w.live
  }

  /** Nothing is pending and, unless the inventory is unknown, every token in
      the world has one of these ids and none is on its way. */
  predicate Drained(w: World, ids: seq<Id>)
    requires w.record.Some?
  {
    && w.record.value.pending == Idle
    && (!w.record.value.unknownTokenInventory ==> w.calls == {} && forall t | t in w.live :: t.id != "" && t.id in ids)
  }

  /** A reservation before any effect. */
  predicate Untouched(w: World)
    requires w.record.Some?
  {
    !w.record.value.context && w.record.value.pending == Idle && w.record.value.tokenIds == [] && w.live == {} && w.calls == {}
  }

  predicate Inv(w: World) {
    && (w.record.None? ==> w.live == {} && w.calls == {} && w.ops == map[])
    && (w.record.Some? && !w.record.value.context ==> w.record.value.tokenIds == [])
    && (w.record.Some? && w.record.value.context ==> w.record.value.pending != Fork)
    && (forall t | t in w.live :: TokenOk(w, t))
    && (forall m | m in w.calls :: Covered(w, m) && m in w.begun && m !in w.made)
    && (forall m | m in w.made :: m in w.begun)
    && (forall m, n | m in w.made && n in w.made && m != n ::
          w.made[m] != w.made[n] && (w.made[m].id != "" ==> w.made[m].id != w.made[n].id))
    && (forall n | n in w.ops :: OpOk(w, n, w.ops[n]))
    && (w.revoked ==> w.record.Some? && w.record.value.blocked && Clean(w.record.value) && w.live == {} && w.calls == {})
  }

  // ------------------------------------------------------------------------ every step

  lemma BeginIssueKeeps(w: World, n: nat, w': World)
    requires Inv(w) && Next(w, BeginIssue(n), w')
    ensures Inv(w')
  {
  }

  lemma ReserveKeeps(w: World, n: nat, w': World)
    requires Inv(w) && Next(w, Reserve(n), w')
    ensures Inv(w')
  {
  }

  lemma ArriveKeeps(w: World, n: nat, t: Token, w': World)
    requires Inv(w) && Next(w, Arrive(n, t), w')
    ensures Inv(w')
  {
    assert w'.made[n] == t;
    forall other | other in w'.live
      ensures TokenOk(w', other)
    {
      if other != t {
        var m :| m in w.made && w.made[m] == other && (Covered(w, m) || (other.id != "" && other.id in w.record.value.tokenIds));
        assert w'.made[m] == other;
      }
    }
  }

  lemma MintReplyKeeps(w: World, n: nat, custody: bool, w': World)
    requires Inv(w) && Next(w, MintReply(n, custody), w')
    ensures Inv(w')
  {
  }

  lemma MintLostKeeps(w: World, n: nat, custody: bool, w': World)
    requires Inv(w) && Next(w, MintLost(n, custody), w')
    ensures Inv(w')
  {
  }

  lemma FailKeeps(w: World, n: nat, custody: bool, fallback: bool, w': World)
    requires Inv(w) && Next(w, Fail(n, custody, fallback), w')
    ensures Inv(w')
  {
  }

  lemma FinishKeeps(w: World, n: nat, w': World)
    requires Inv(w) && Next(w, Finish(n), w')
    ensures Inv(w')
  {
  }

  lemma RetireReplyKeeps(w: World, n: nat, retired: bool, custody: bool, fallback: bool, w': World)
    requires Inv(w) && Next(w, RetireReply(n, retired, custody, fallback), w')
    ensures Inv(w')
  {
  }

  lemma RetireKeeps(w: World, t: Token, w': World)
    requires Inv(w) && Next(w, Retire(t), w')
    ensures Inv(w')
  {
  }

  lemma BeginRevokeKeeps(w: World, n: nat, w': World)
    requires Inv(w) && Next(w, BeginRevoke(n), w')
    ensures Inv(w')
  {
  }

  lemma ReadIdsKeeps(w: World, n: nat, w': World)
    requires Inv(w) && Next(w, ReadIds(n), w')
    ensures Inv(w')
  {
  }

  /** Striking a retired id off the list. */
  lemma StrikeKeeps(w: World, n: nat, r: Record, ids: seq<Id>, quiet: bool)
    requires Inv(w) && At(w, n) && w.ops[n] == Retracting(ids, quiet) && ids != []
    requires forall t | t in w.live :: t.id != ids[0]
    requires r == w.record.value.(tokenIds := Without(w.record.value.tokenIds, ids[0]))
    ensures Inv(Write(w, r))
  {
    var u := Write(w, r);
    forall t | t in w.live
      ensures TokenOk(u, t)
    {
      assert TokenOk(w, t);
    }
  }

  /** Moving on once no token has the first id. */
  lemma AdvanceKeeps(w: World, n: nat, ids: seq<Id>, quiet: bool)
    requires Inv(w) && At(w, n) && w.ops[n] == Retracting(ids, quiet) && ids != []
    requires forall t | t in w.live :: t.id != ids[0]
    ensures Inv(Retract(w, n, w.record.value, ids[1..], quiet))
  {
    assert OpOk(w, n, w.ops[n]);
    assert forall t | t in w.live && t.id in ids :: t.id in ids[1..];
    if ids[1..] != [] {
      WaitKeeps(w, n, Retracting(ids[1..], quiet));
    } else if quiet && Clean(w.record.value) {
      assert forall t :: t !in w.live;
    }
  }

  lemma WaitKeeps(w: World, n: nat, op: Op)
    requires Inv(w) && At(w, n) && OpOk(w, n, op)
    ensures Inv(Wait(w, n, op))
  {
    var u := Wait(w, n, op);
    assert u.begun == w.begun;
    forall t | t in w.live
      ensures TokenOk(u, t)
    {
      assert TokenOk(w, t);
    }
  }

  lemma RetractReplyKeeps(w: World, n: nat, w': World)
    requires Inv(w) && Next(w, RetractReply(n), w')
    ensures Inv(w')
  {
    var ids, quiet := w.ops[n].ids, w.ops[n].quiet;
    var r := w.record.value.(tokenIds := Without(w.record.value.tokenIds, ids[0]));
    StrikeKeeps(w, n, r, ids, quiet);
    AdvanceKeeps(Write(w, r), n, ids, quiet);
  }

  lemma BeginForkKeeps(w: World, n: nat, w': World)
    requires Inv(w) && Next(w, BeginFork(n), w')
    ensures Inv(w')
  {
  }

  lemma ForkGoKeeps(w: World, n: nat, w': World)
    requires Inv(w) && Next(w, ForkGo(n), w')
    ensures Inv(w')
  {
  }

  lemma ForkFailKeeps(w: World, n: nat, w': World)
    requires Inv(w) && Next(w, ForkFail(n), w')
    ensures Inv(w')
  {
  }

  lemma ForkReplyKeeps(w: World, n: nat, w': World)
    requires Inv(w) && Next(w, ForkReply(n), w')
    ensures Inv(w')
  {
  }

  lemma ForkRetiredKeeps(w: World, n: nat, w': World)
    requires Inv(w) && Next(w, ForkRetired(n), w')
    ensures Inv(w')
  {
  }

  lemma ForkDoneKeeps(w: World, n: nat, w': World)
    requires Inv(w) && Next(w, ForkDone(n), w')
    ensures Inv(w')
  {
  }

  lemma KillKeeps(w: World, n: nat, w': World)
    requires Inv(w) && Next(w, Kill(n), w')
    ensures Inv(w')
  {
  }

  lemma NextKeepsInv(w: World, step: Step, w': World)
    requires Inv(w) && Next(w, step, w')
    ensures Inv(w')
  {
    match step
    case BeginIssue(n) => BeginIssueKeeps(w, n, w');
    case Reserve(n) => ReserveKeeps(w, n, w');
    case Arrive(n, t) => ArriveKeeps(w, n, t, w');
    case MintReply(n, custody) => MintReplyKeeps(w, n, custody, w');
    case MintLost(n, custody) => MintLostKeeps(w, n, custody, w');
    case Fail(n, custody, fallback) => FailKeeps(w, n, custody, fallback, w');
    case Finish(n) => FinishKeeps(w, n, w');
    case RetireReply(n, retired, custody, fallback) => RetireReplyKeeps(w, n, retired, custody, fallback, w');
    case Retire(t) => RetireKeeps(w, t, w');
    case BeginRevoke(n) => BeginRevokeKeeps(w, n, w');
    case ReadIds(n) => ReadIdsKeeps(w, n, w');
    case RetractReply(n) => RetractReplyKeeps(w, n, w');
    case BeginFork(n) => BeginForkKeeps(w, n, w');
    case ForkGo(n) => ForkGoKeeps(w, n, w');
    case ForkFail(n) => ForkFailKeeps(w, n, w');
    case ForkReply(n) => ForkReplyKeeps(w, n, w');
    case ForkRetired(n) => ForkRetiredKeeps(w, n, w');
    case ForkDone(n) => ForkDoneKeeps(w, n, w');
    case Kill(n) => KillKeeps(w, n, w');
  }

  predicate Blocked(w: World) {
    w.record.Some? && w.record.value.blocked
  }

  /** Once revoked, a Workspace stays so, and no credential is handed out. */
  lemma BlockedForGood(w: World, step: Step, w': World)
    requires Next(w, step, w') && Blocked(w)
    ensures Blocked(w') && w'.released == w.released
  {
  }

  // ------------------------------------------------------------------------------- runs

  ghost predicate IsRun(run: seq<World>, steps: seq<Step>) {
    && |run| == |steps| + 1
    && Init(run[0])
    && forall i | 0 <= i < |steps| :: Follows(run, steps, i)
  }

  predicate Follows(run: seq<World>, steps: seq<Step>, i: nat)
    requires i < |steps| && |run| == |steps| + 1
  {
    Next(run[i], steps[i], run[i + 1])
  }

  lemma {:induction false} RunKeepsInv(run: seq<World>, steps: seq<Step>, k: nat)
    requires IsRun(run, steps) && k < |run|
    ensures Inv(run[k])
  {
    if k > 0 {
      RunKeepsInv(run, steps, k - 1);
      assert Follows(run, steps, k - 1);
      NextKeepsInv(run[k - 1], steps[k - 1], run[k]);
    }
  }

  /** In every state of every run each token in the world is accounted for. */
  lemma EveryTokenAccounted(run: seq<World>, steps: seq<Step>, k: nat, t: Token)
    requires IsRun(run, steps) && k < |run| && t in run[k].live
    ensures Accounted(run[k], t)
  {
    RunKeepsInv(run, steps, k);
    assert TokenOk(run[k], t);
  }

  lemma StepStaysBlocked(run: seq<World>, steps: seq<Step>, k: nat)
    requires IsRun(run, steps) && k < |steps| && Blocked(run[k])
    ensures Blocked(run[k + 1]) && run[k + 1].released == run[k].released
  {
    assert Follows(run, steps, k);
    BlockedForGood(run[k], steps[k], run[k + 1]);
  }

  /** From the moment a Workspace is revoked no credential is ever released. */
  lemma {:induction false} NothingReleasedAfterBlock(run: seq<World>, steps: seq<Step>, i: nat, j: nat)
    requires IsRun(run, steps) && i <= j < |run| && Blocked(run[i])
    ensures Blocked(run[j]) && run[j].released == run[i].released
  {
    if i < j {
      NothingReleasedAfterBlock(run, steps, i, j - 1);
      StepStaysBlocked(run, steps, j - 1);
    }
  }

  lemma {:induction false} RevokedStays(run: seq<World>, steps: seq<Step>, i: nat, j: nat)
    requires IsRun(run, steps) && i <= j < |run| && run[i].revoked
    ensures run[j].revoked
  {
    if i < j {
      RevokedStays(run, steps, i, j - 1);
      assert Follows(run, steps, j - 1);
    }
  }

  /** After a revocation that found nothing pending when it read the ids, and
      succeeded, no token is in the world, then or ever. */
  lemma NoTokenAfterRevocation(run: seq<World>, steps: seq<Step>, i: nat, j: nat)
    requires IsRun(run, steps) && i <= j < |run| && run[i].revoked
    ensures run[j].live == {} && run[j].calls == {}
  {
    RevokedStays(run, steps, i, j);
    RunKeepsInv(run, steps, j);
  }

  // -------------------------------------------------- what a revocation's reading says

  /** A course of events from a world in which revocation n is about to read the
      record r. */
  ghost predicate Course(n: nat, r: Record, run: seq<World>, steps: seq<Step>) {
    && |run| == |steps| + 1 && steps != [] && steps[0] == ReadIds(n)
    && Inv(run[0]) && run[0].record == Some(r) && n in run[0].ops && run[0].ops[n] == Looking
    && forall i {:trigger Follows(run, steps, i)} | 0 <= i < |steps| :: Follows(run, steps, i)
  }

  /** The step makes the revocation report success. */
  predicate Succeeds(n: nat, w: World, w': World) {
    n in w'.succeeded && n !in w.succeeded
  }

  /** Whatever happens next, a success reported leaves no token in the world. */
  ghost predicate SafeToRead(r: Record) {
    forall n: nat, run: seq<World>, steps: seq<Step>, k: nat | Course(n, r, run, steps) && k < |steps| && Succeeds(n, run[k], run[k + 1]) :: run[k + 1].live == {}
  }

  /** What the revocation read: no mint is pending, or there is nothing to wait
      for, or the inventory is known to be unknown. */
  predicate NothingHidden(r: Record) {
    r.pending != Mint || r.tokenIds == [] || r.unknownTokenInventory
  }

  /** The revocation since it read: over, or going through ids it read, as quiet
      as the record was. */
  predicate SinceRead(w: World, n: nat, r: Record) {
    && n in w.begun && Blocked(w)
    && (r.unknownTokenInventory ==> w.record.value.unknownTokenInventory)
    && (n in w.ops ==> r.tokenIds != [] && w.ops[n].Retracting? && w.ops[n].quiet == (r.pending == Idle))
  }

  lemma ReadBegins(w: World, n: nat, w': World)
    requires Inv(w) && At(w, n) && w.ops[n] == Looking && Next(w, ReadIds(n), w')
    ensures SinceRead(w', n, w.record.value)
    ensures NothingHidden(w.record.value) && Succeeds(n, w, w') ==> w'.live == {}
  {
    assert OpOk(w, n, w.ops[n]);
    ReadIdsKeeps(w, n, w');
  }

  lemma SinceReadStays(w: World, n: nat, r: Record, step: Step, w': World)
    requires Inv(w) && Next(w, step, w') && SinceRead(w, n, r)
    ensures SinceRead(w', n, r)
  {
    BlockedForGood(w, step, w');
  }

  /** Only its last answer makes such a revocation succeed. */
  lemma SuccessIsLast(w: World, n: nat, r: Record, step: Step, w': World)
    requires Inv(w) && Next(w, step, w') && SinceRead(w, n, r) && Succeeds(n, w, w')
    ensures step == RetractReply(n) && At(w, n) && w.ops[n].Retracting?
    ensures w.ops[n].quiet ==> w'.revoked
    ensures !w.record.value.unknownTokenInventory
  {
  }

  lemma SafeStep(w: World, n: nat, r: Record, step: Step, w': World)
    requires Inv(w) && Next(w, step, w') && SinceRead(w, n, r) && NothingHidden(r) && r.pending != Fork
    requires Succeeds(n, w, w')
    ensures w'.live == {}
  {
    SuccessIsLast(w, n, r, step, w');
    NextKeepsInv(w, step, w');
  }

  lemma {:induction false} CourseKeeps(n: nat, r: Record, run: seq<World>, steps: seq<Step>, k: nat)
    requires Course(n, r, run, steps) && k < |run|
    ensures Inv(run[k]) && (k > 0 ==> SinceRead(run[k], n, r))
  {
    if k > 0 {
      CourseKeeps(n, r, run, steps, k - 1);
      assert Follows(run, steps, k - 1);
      NextKeepsInv(run[k - 1], steps[k - 1], run[k]);
      if k == 1 {
        ReadBegins(run[0], n, run[1]);
      } else {
        SinceReadStays(run[k - 1], n, r, steps[k - 1], run[k]);
      }
    }
  }

  lemma NothingHiddenIsSafe(r: Record)
    requires NothingHidden(r)
    ensures SafeToRead(r)
  {
    forall n: nat, run: seq<World>, steps: seq<Step>, k: nat | Course(n, r, run, steps) && k < |steps| && Succeeds(n, run[k], run[k + 1])
      ensures run[k + 1].live == {}
    {
      CourseKeeps(n, r, run, steps, k);
      assert Follows(run, steps, k);
      if k == 0 {
        ReadBegins(run[0], n, run[1]);
      } else {
        assert OpOk(run[0], n, Looking);
        SafeStep(run[k], n, r, steps[k], run[k + 1]);
      }
    }
  }

  // ----------------------------------------------------------- an issue that overlaps

  /** Some course from the world ends with the revocation succeeding while a
      token is still there. */
  ghost predicate CanMislead(w: World, n: nat) {
    exists run: seq<World>, steps: seq<Step> :: Misleads(w, n, run, steps)
  }

  ghost predicate Misleads(w: World, n: nat, run: seq<World>, steps: seq<Step>) {
    && |run| == |steps| + 1 && steps != [] && run[0] == w
    && (forall i {:trigger Follows(run, steps, i)} | 0 <= i < |steps| :: Follows(run, steps, i))
    && Succeeds(n, run[|steps| - 1], run[|steps|]) && run[|steps|].live != {}
  }

  lemma MisleadsNow(w: World, n: nat, step: Step, w': World)
    requires Next(w, step, w') && Succeeds(n, w, w') && w'.live != {}
    ensures CanMislead(w, n)
  {
    var run, steps := [w, w'], [step];
    assert Follows(run, steps, 0);
    assert Misleads(w, n, run, steps);
  }

  lemma MisleadsLater(w: World, n: nat, step: Step, w': World)
    requires Next(w, step, w') && CanMislead(w', n)
    ensures CanMislead(w, n)
  {
    var run, steps :| Misleads(w', n, run, steps);
    ConsCourse(w, step, run, steps);
    assert Misleads(w, n, [w] + run, [step] + steps);
  }

  lemma ConsCourse(w: World, step: Step, run: seq<World>, steps: seq<Step>)
    requires |run| == |steps| + 1 && Next(w, step, run[0])
    requires forall i {:trigger Follows(run, steps, i)} | 0 <= i < |steps| :: Follows(run, steps, i)
    ensures forall i {:trigger Follows([w] + run, [step] + steps, i)} | 0 <= i < |steps| + 1 :: Follows([w] + run, [step] + steps, i)
  {
    forall i | 0 <= i < |steps| + 1
      ensures Follows([w] + run, [step] + steps, i)
    {
      if i > 0 {
        assert Follows(run, steps, i - 1);
      }
    }
  }

  /** The ids read are retired one by one, and a token listed since is left. */
  lemma {:induction false} DrainMisleads(w: World, n: nat, t: Token)
    requires At(w, n) && w.ops[n].Retracting? && w.ops[n].ids != [] && n !in w.succeeded
    requires Clean(w.record.value) && t in w.live && t.id !in w.ops[n].ids
    ensures CanMislead(w, n)
    decreases |w.ops[n].ids|, |w.live|
  {
    var ids, quiet := w.ops[n].ids, w.ops[n].quiet;
    if x :| x in w.live && x.id == ids[0] {
      var u := w.(live := w.live - {x});
      DrainMisleads(u, n, t);
      MisleadsLater(w, n, Retire(x), u);
    } else {
      var r := w.record.value.(tokenIds := Without(w.record.value.tokenIds, ids[0]));
      var u := Retract(Write(w, r), n, r, ids[1..], quiet);
      assert Next(w, RetractReply(n), u);
      if |ids| == 1 {
        MisleadsNow(w, n, RetractReply(n), u);
      } else {
        DrainMisleads(u, n, t);
        MisleadsLater(w, n, RetractReply(n), u);
      }
    }
  }

  /** The revocation is about to read a record with a mint pending, an id listed
      and a known inventory, while an issue waits for its mint. */
  predicate Overlaps(w: World, issue: nat, n: nat) {
    && At(w, n) && w.ops[n] == Looking && n !in w.succeeded
    && issue in w.ops && w.ops[issue] == Minting && issue in w.calls && issue != n
    && w.record.value.pending == Mint && w.record.value.tokenIds != [] && !w.record.value.unknownTokenInventory
    && w.record.value.blocked
  }

  /** What the revocation does first: it takes the ids it read. */
  function AfterRead(w: World, n: nat): World
    requires w.record.Some?
  {
    Wait(w, n, Retracting(w.record.value.tokenIds, false))
  }

  /** The new token is listed after the ids were read, rejected because the
      Workspace is blocked, and not confirmed retired. */
  lemma OverlapAfterRead(w: World, issue: nat, n: nat, t: Token)
    requires Overlaps(w, issue, n) && NewToken(w, t) && t.id != "" && t.id !in w.record.value.tokenIds
    ensures Next(w, ReadIds(n), AfterRead(w, n)) && CanMislead(AfterRead(w, n), n)
  {
    var r := w.record.value;
    var w1 := AfterRead(w, n);
    var w2 := w1.(calls := w1.calls - {issue}, made := w1.made[issue := t], live := w1.live + {t});
    var w3 := Wait(Write(w2, Listed(r, t)), issue, Checking(t));
    var w4 := Wait(w3, issue, Retiring(t));
    var w5 := End(Write(w4, Listed(r, t).(pending := Idle)), issue);
    DrainMisleads(w5, n, t);
    assert Abandoned(Listed(r, t), t) == Listed(r, t).(pending := Idle);
    MisleadsLater(w4, n, RetireReply(issue, false, true, true), w5);
    MisleadsLater(w3, n, Fail(issue, true, true), w4);
    MisleadsLater(w2, n, MintReply(issue, true), w3);
    MisleadsLater(w1, n, Arrive(issue, t), w2);
  }

  /** Every such overlap can end with the revocation succeeding while the new
      token lives. */
  lemma OverlapMisleads(w: World, issue: nat, n: nat, t: Token)
    requires Overlaps(w, issue, n) && NewToken(w, t) && t.id != "" && t.id !in w.record.value.tokenIds
    ensures CanMislead(w, n)
  {
    OverlapAfterRead(w, issue, n, t);
    MisleadsLater(w, n, ReadIds(n), AfterRead(w, n));
  }

  /** An id longer than all of these. */
  function Longer(ids: seq<Id>): (id: Id)
    ensures id != "" && forall other | other in ids :: |other| < |id|
  {
    if ids == [] then "t" else Longer(ids[1..]) + ids[0]
  }

  /** A world in which a revocation reads the record while an issue waits. */
  function Waiting(r: Record): World {
    World(Some(r), {}, {0}, map[], map[0 := Minting, 1 := Looking], {0, 1}, 0, [], {}, false)
  }

  lemma HiddenIsUnsafe(r: Record)
    requires r.context && r.blocked && !NothingHidden(r)
    ensures !SafeToRead(r)
  {
    var w := Waiting(r);
    var t := Token(0, Longer(r.tokenIds));
    assert Inv(w);
    OverlapAfterRead(w, 0, 1, t);
    var run, steps :| Misleads(AfterRead(w, 1), 1, run, steps);
    ConsCourse(w, ReadIds(1), run, steps);
    var run', steps' := [w] + run, [ReadIds(1)] + steps;
    assert Course(1, r, run', steps');
    var k := |steps'| - 1;
    assert Succeeds(1, run'[k], run'[k + 1]) && run'[k + 1].live != {};
  }

  /** Exactly when a success is to be trusted, as far as the record read says:
      over all worlds with that record and all courses of events, success leaves
      no token if and only if no mint was pending, no id was listed, or the
      inventory was known to be unknown. */
  lemma SafeToReadIff(r: Record)
    requires r.context && r.blocked
    ensures SafeToRead(r) <==> NothingHidden(r)
  {
    if NothingHidden(r) {
      NothingHiddenIsSafe(r);
    } else {
      HiddenIsUnsafe(r);
    }
  }

  // ------------------------------------------------------------ such a run from the start

  /** The Workspace forked. */
  function Forked(): World {
    World(Some(Record(true, [], false, false, Idle)), {}, {}, map[0 := Token(0, "f")], map[], {0}, 0, [], {}, false)
  }

  lemma ForkOpens(w0: World)
    requires Init(w0)
    requires CanMislead(Forked(), 3)
    ensures CanMislead(w0, 3)
  {
    var f := Token(0, "f");
    var w1 := Wait(Write(w0, Record(false, [], false, false, Idle)), 0, ForkChecking).(holder := 0);
    var w2 := Wait(Write(w1, w1.record.value.(pending := Fork)), 0, Forking).(calls := w1.calls + {0});
    var w3 := w2.(calls := w2.calls - {0}, made := w2.made[0 := f], live := w2.live + {f});
    var w4 := Wait(w3, 0, ForkRetiring(f));
    var w5 := w4.(live := w4.live - {f});
    var w6 := Wait(w5, 0, ForkVerifying);
    assert End(Write(w6, w6.record.value.(context := true, pending := Idle)), 0) == Forked();
    MisleadsLater(w6, 3, ForkDone(0), Forked());
    MisleadsLater(w5, 3, ForkRetired(0), w6);
    MisleadsLater(w4, 3, Retire(f), w5);
    MisleadsLater(w3, 3, ForkReply(0), w4);
    MisleadsLater(w2, 3, Arrive(0, f), w3);
    MisleadsLater(w1, 3, ForkGo(0), w2);
    MisleadsLater(w0, 3, BeginFork(0), w1);
  }

  /** One credential issued. */
  function Issued(): World {
    World(Some(Record(true, ["a"], false, false, Idle)), {Token(1, "a")}, {}, map[0 := Token(0, "f"), 1 := Token(1, "a")],
          map[], {0, 1}, 1, [Token(1, "a")], {}, false)
  }

  lemma IssueOpens()
    requires CanMislead(Issued(), 3)
    ensures CanMislead(Forked(), 3)
  {
    var w0, a := Forked(), Token(1, "a");
    var w1 := Wait(w0, 1, Issuing);
    var w2 := Wait(Write(w1, w1.record.value.(pending := Mint)), 1, Minting).(calls := {1}, holder := 1);
    var w3 := w2.(calls := {}, made := w2.made[1 := a], live := {a});
    var w4 := Wait(Write(w3, Listed(w3.record.value, a)), 1, Checking(a));
    var w5 := End(Write(w4, w4.record.value.(pending := Idle)), 1).(released := w4.released + [a]);
    assert w4.record.value.tokenIds == ["a"];
    assert w5.record == Issued().record && w5.made == Issued().made && w5.begun == Issued().begun;
    assert w5.ops == map[] && w5.released == [a];
    assert w5 == Issued();
    MisleadsLater(w4, 3, Finish(1), w5);
    MisleadsLater(w3, 3, MintReply(1, true), w4);
    MisleadsLater(w2, 3, Arrive(1, a), w3);
    MisleadsLater(w1, 3, Reserve(1), w2);
    MisleadsLater(w0, 3, BeginIssue(1), w1);
  }

  lemma OverlapOpens()
    ensures CanMislead(Issued(), 3)
  {
    var w0 := Issued();
    var w1 := Wait(w0, 2, Issuing);
    var w2 := Wait(Write(w1, w1.record.value.(pending := Mint)), 2, Minting).(calls := {2}, holder := 2);
    var w3 := Wait(Write(w2, w2.record.value.(blocked := true)), 3, Looking);
    OverlapMisleads(w3, 2, 3, Token(2, "b"));
    MisleadsLater(w2, 3, BeginRevoke(3), w3);
    MisleadsLater(w1, 3, Reserve(2), w2);
    MisleadsLater(w0, 3, BeginIssue(2), w1);
  }

  /** A whole run, from the empty world, that ends with a revocation reporting
      success while a token lives: one Workspace forked, one credential issued
      and a second on its way when the revocation reads. */
  lemma RevocationCanMislead() returns (run: seq<World>, steps: seq<Step>)
    ensures IsRun(run, steps) && steps != []
    ensures Succeeds(3, run[|steps| - 1], run[|steps|]) && run[|steps|].live != {}
  {
    var w := World(None, {}, {}, map[], map[], {}, 0, [], {}, false);
    OverlapOpens();
    IssueOpens();
    ForkOpens(w);
    run, steps :| Misleads(w, 3, run, steps);
  }
}
