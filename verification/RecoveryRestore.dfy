/** Restoring Artifacts metadata: a whole incoming checkpoint is merged into the
    rows present, or nothing is changed. Rows of a checkpoint are compared as
    sets: the source sorts both sides by their unique row keys first. */
module RecoveryRestore {
  import opened Basics

  datatype WorkspaceRow = WorkspaceRow(
    rowKey: string, accountId: string, namespace: string, targetName: string, repositoryId: Option<string>, payload: string)

  datatype ObservationRow = ObservationRow(rowKey: string, manifest: string)

  datatype Checkpoint = Checkpoint(workspaces: seq<WorkspaceRow>, observations: seq<ObservationRow>)

  datatype RestoreError = InvalidSnapshot | Conflict

  // ---------------------------------------------------------------------- validation

  /** The two rows cannot both be stored. */
  predicate Clash(r: WorkspaceRow, t: WorkspaceRow) {
    || r.rowKey == t.rowKey
    || (r.accountId == t.accountId && r.namespace == t.namespace && r.targetName == t.targetName)
    || (r.repositoryId.Some? && r.repositoryId == t.repositoryId)
  }

  predicate NoClash(rows: seq<WorkspaceRow>) {
    forall i, j | 0 <= i < j < |rows| :: !Clash(rows[i], rows[j])
  }

  predicate DistinctKeys(rows: seq<ObservationRow>) {
    forall i, j | 0 <= i < j < |rows| :: rows[i].rowKey != rows[j].rowKey
  }

  function Elements<T>(rows: seq<T>): set<T> {
    set row | row in rows
  }

  /** Whether each row is consistent by itself and with an Authority. The long
      list of field checks is left open; it does not depend on order. */
  type Consistent = (set<WorkspaceRow>, set<ObservationRow>) -> bool

  predicate Parses(checkpoint: Checkpoint, consistent: Consistent) {
    && NoClash(checkpoint.workspaces)
    && DistinctKeys(checkpoint.observations)
    && consistent(Elements(checkpoint.workspaces), Elements(checkpoint.observations))
  }

  // ------------------------------------------------------------------------- the rows

  /** The tables as they are kept: rows under their keys, and no two that clash. */
  predicate Stored(rows: map<string, WorkspaceRow>) {
    && (forall key | key in rows :: rows[key].rowKey == key)
    && forall k, l | k in rows && l in rows && k != l :: !Clash(rows[k], rows[l])
  }

  predicate Keyed(rows: map<string, ObservationRow>) {
    forall key | key in rows :: rows[key].rowKey == key
  }

  /** INSERT ... ON CONFLICT DO NOTHING. */
  function Inserted(rows: map<string, WorkspaceRow>, row: WorkspaceRow): map<string, WorkspaceRow> {
    if exists key | key in rows :: Clash(rows[key], row) then rows else rows[row.rowKey := row]
  }

  function InsertedAll(rows: map<string, WorkspaceRow>, incoming: seq<WorkspaceRow>): map<string, WorkspaceRow> {
    if incoming == [] then rows
    else Inserted(InsertedAll(rows, incoming[..|incoming| - 1]), incoming[|incoming| - 1])
  }

  function AddedAll(rows: map<string, ObservationRow>, incoming: seq<ObservationRow>): map<string, ObservationRow> {
    if incoming == [] then rows
    else
      var front := AddedAll(rows, incoming[..|incoming| - 1]);
      var row := incoming[|incoming| - 1];
      if row.rowKey in front then front else front[row.rowKey := row]
  }

  lemma {:induction false} InsertedStored(rows: map<string, WorkspaceRow>, incoming: seq<WorkspaceRow>)
    requires Stored(rows)
    ensures Stored(InsertedAll(rows, incoming))
    ensures rows.Values <= InsertedAll(rows, incoming).Values <= rows.Values + Elements(incoming)
  {
    if incoming != [] {
      var n := |incoming| - 1;
      InsertedStored(rows, incoming[..n]);
      var front := InsertedAll(rows, incoming[..n]);
      InsertedOne(front, incoming[n]);
      assert Elements(incoming) == Elements(incoming[..n]) + {incoming[n]};
    }
  }

  lemma InsertedOne(rows: map<string, WorkspaceRow>, row: WorkspaceRow)
    requires Stored(rows)
    ensures Stored(Inserted(rows, row))
    ensures Inserted(rows, row).Values
         == if exists key | key in rows :: Clash(rows[key], row) then rows.Values else rows.Values + {row}
  {
    if !(exists key | key in rows :: Clash(rows[key], row)) {
      assert row.rowKey !in rows by {
        if row.rowKey in rows {
          assert Clash(rows[row.rowKey], row);
        }
      }
      var next := rows[row.rowKey := row];
      forall r | r in rows.Values + {row}
        ensures r in next.Values
      {
        if r != row {
          var key :| key in rows && rows[key] == r;
          assert next[key] == r;
        } else {
          assert next[row.rowKey] == row;
        }
      }
    }
  }

  /** The inserts that ignore conflicts lose no row exactly when no two incoming
      rows clash, given that every row present is among the incoming ones. */
  lemma {:induction false} NoRowLost(rows: map<string, WorkspaceRow>, incoming: seq<WorkspaceRow>)
    requires Stored(rows) && rows.Values <= Elements(incoming) && Distinct(incoming)
    ensures InsertedAll(rows, incoming).Values == Elements(incoming) <==> NoClash(incoming)
  {
    InsertedStored(rows, incoming);
    var all := InsertedAll(rows, incoming);
    if NoClash(incoming) {
      forall row | row in incoming
        ensures row in all.Values
      {
        ArrivesAll(rows, incoming, incoming, row);
      }
    }
    if all.Values == Elements(incoming) {
      forall i, j | 0 <= i < j < |incoming|
        ensures !Clash(incoming[i], incoming[j])
      {
        assert incoming[i] in all.Values && incoming[j] in all.Values;
        var k :| k in all && all[k] == incoming[i];
        var l :| l in all && all[l] == incoming[j];
      }
    }
  }

  /** A row of a clash-free checkpoint is present once its turn has come. */
  lemma {:induction false} ArrivesAll(rows: map<string, WorkspaceRow>, incoming: seq<WorkspaceRow>, part: seq<WorkspaceRow>, row: WorkspaceRow)
    requires Stored(rows) && rows.Values <= Elements(incoming) && NoClash(incoming)
    requires part <= incoming && row in part
    ensures row in InsertedAll(rows, part).Values
  {
    var n := |part| - 1;
    var front := InsertedAll(rows, part[..n]);
    InsertedStored(rows, part[..n]);
    InsertedOne(front, part[n]);
    if row in part[..n] {
      ArrivesAll(rows, incoming, part[..n], row);
    } else {
      assert row == part[n];
      if key :| key in front && Clash(front[key], row) {
        assert front[key] in front.Values;
        assert forall r | r in part[..n] :: r in incoming;
        assert front[key] in Elements(incoming);
        var i :| 0 <= i < |incoming| && incoming[i] == front[key];
        assert incoming[n] == row;
        assert i == n;
      }
    }
  }

  lemma {:induction false} AddedKeyed(rows: map<string, ObservationRow>, incoming: seq<ObservationRow>)
    requires Keyed(rows)
    ensures Keyed(AddedAll(rows, incoming))
    ensures rows.Values <= AddedAll(rows, incoming).Values <= rows.Values + Elements(incoming)
  {
    if incoming != [] {
      var n := |incoming| - 1;
      AddedKeyed(rows, incoming[..n]);
      var front := AddedAll(rows, incoming[..n]);
      var row := incoming[n];
      assert Elements(incoming) == Elements(incoming[..n]) + {row};
      if row.rowKey !in front {
        var next := front[row.rowKey := row];
        forall r | r in front.Values
          ensures r in next.Values
        {
          var key :| key in front && front[key] == r;
          assert next[key] == r;
        }
        forall r | r in next.Values
          ensures r == row || r in front.Values
        {
          var key :| key in next && next[key] == r;
          assert key != row.rowKey ==> front[key] == r;
        }
      }
    }
  }

  lemma {:induction false} AddsAll(rows: map<string, ObservationRow>, incoming: seq<ObservationRow>, part: seq<ObservationRow>, row: ObservationRow)
    requires Keyed(rows) && rows.Values <= Elements(incoming) && DistinctKeys(incoming)
    requires part <= incoming && row in part
    ensures row in AddedAll(rows, part).Values
  {
    var n := |part| - 1;
    var front := AddedAll(rows, part[..n]);
    AddedKeyed(rows, part[..n]);
    if row in part[..n] {
      AddsAll(rows, incoming, part[..n], row);
      AddedKeyed(front, [part[n]]);
      assert AddedAll(front, []) == front && [part[n]][..0] == [];
      assert AddedAll(front, [part[n]]) == AddedAll(rows, part);
    } else {
      assert row == part[n];
      if row.rowKey in front {
        var other := front[row.rowKey];
        assert other in front.Values;
        var i :| 0 <= i < |incoming| && incoming[i] == other;
        assert incoming[n] == row;
        assert i == n;
      } else {
        assert AddedAll(rows, part)[row.rowKey] == row;
      }
    }
  }

  // ------------------------------------------------------------------------ the store

  /** Every row is among the candidates, unchanged. */
  predicate Kept<T(==)>(current: set<T>, incoming: seq<T>) {
    forall row | row in current :: row in incoming
  }

  class ArtifactsRecoveryStore {
    var workspaces: map<string, WorkspaceRow>
    var observations: map<string, ObservationRow>

    constructor ()
      ensures Valid() && workspaces == map[] && observations == map[]
    {
      workspaces, observations := map[], map[];
    }

    /** The tables' unique constraints. */
    predicate Valid()
      reads this
    {
      Stored(workspaces) && Keyed(observations)
    }

    /** The rows present, if they validate against the Authority. */
    method Capture(consistent: Consistent) returns (r: Option<(set<WorkspaceRow>, set<ObservationRow>)>)
      requires Valid()
      ensures r == if consistent(workspaces.Values, observations.Values) then Some((workspaces.Values, observations.Values)) else None
    {
      r := if consistent(workspaces.Values, observations.Values) then Some((workspaces.Values, observations.Values)) else None;
    }

    method InsertAll(incoming: Checkpoint)
      requires Valid()
      modifies this
      ensures Valid()
      ensures workspaces == InsertedAll(old(workspaces), incoming.workspaces)
      ensures observations == AddedAll(old(observations), incoming.observations)
    {
      for i := 0 to |incoming.workspaces|
        invariant workspaces == InsertedAll(old(workspaces), incoming.workspaces[..i])
        invariant observations == old(observations)
      {
        var row := incoming.workspaces[i];
        assert incoming.workspaces[..i + 1][..i] == incoming.workspaces[..i];
        if !(exists key | key in workspaces :: Clash(workspaces[key], row)) {
          workspaces := workspaces[row.rowKey := row];
        }
      }
      assert incoming.workspaces[..|incoming.workspaces|] == incoming.workspaces;
      for i := 0 to |incoming.observations|
        invariant workspaces == InsertedAll(old(workspaces), incoming.workspaces)
        invariant observations == AddedAll(old(observations), incoming.observations[..i])
      {
        var row := incoming.observations[i];
        assert incoming.observations[..i + 1][..i] == incoming.observations[..i];
        if row.rowKey !in observations {
          observations := observations[row.rowKey := row];
        }
      }
      assert incoming.observations[..|incoming.observations|] == incoming.observations;
      InsertedStored(old(workspaces), incoming.workspaces);
      AddedKeyed(old(observations), incoming.observations);
    }

    /** Merges the checkpoint in one transaction. It succeeds exactly when the
        checkpoint validates for the target, the rows present validate for the
        current Authority, and each of them is in the checkpoint unchanged. The
        store then holds the checkpoint; otherwise nothing has changed. */
    method Restore(incoming: Checkpoint, current: Consistent, target: Consistent) returns (error: Option<RestoreError>)
      requires Valid()
      modifies this
      ensures Valid()
      ensures error.None? <==>
                && Parses(incoming, target)
                && current(old(workspaces).Values, old(observations).Values)
                && Kept(old(workspaces).Values, incoming.workspaces) && Kept(old(observations).Values, incoming.observations)
      ensures error.None? ==> workspaces.Values == Elements(incoming.workspaces) && observations.Values == Elements(incoming.observations)
      ensures error.Some? ==> workspaces == old(workspaces) && observations == old(observations)
      ensures error == Some(Conflict) ==> Parses(incoming, target) && current(old(workspaces).Values, old(observations).Values)
    {
      if !Parses(incoming, target) {
        return Some(InvalidSnapshot);
      }
      var savedWorkspaces, savedObservations := workspaces, observations;
      var before := Capture(current);
      if before.None? {
        return Some(InvalidSnapshot);
      }
      if !Kept(before.value.0, incoming.workspaces) || !Kept(before.value.1, incoming.observations) {
        return Some(Conflict);
      }
      InsertAll(incoming);
      NothingLost(savedWorkspaces, savedObservations, incoming);
      var after := Capture(target);
      var complete := after == Some((Elements(incoming.workspaces), Elements(incoming.observations)));
      EndTransaction(complete, savedWorkspaces, savedObservations);
      error := if complete then None else Some(Conflict);
    }

    /** Commits what was written, or puts the saved rows back. */
    method EndTransaction(commit: bool, savedWorkspaces: map<string, WorkspaceRow>, savedObservations: map<string, ObservationRow>)
      modifies this
      ensures workspaces == if commit then old(workspaces) else savedWorkspaces
      ensures observations == if commit then old(observations) else savedObservations
    {
      if !commit {
        workspaces, observations := savedWorkspaces, savedObservations;
      }
    }
  }

  lemma {:induction false} NothingLost(workspaces: map<string, WorkspaceRow>, observations: map<string, ObservationRow>, incoming: Checkpoint)
    requires Stored(workspaces) && Keyed(observations)
    requires NoClash(incoming.workspaces) && DistinctKeys(incoming.observations)
    requires Kept(workspaces.Values, incoming.workspaces) && Kept(observations.Values, incoming.observations)
    ensures InsertedAll(workspaces, incoming.workspaces).Values == Elements(incoming.workspaces)
    ensures AddedAll(observations, incoming.observations).Values == Elements(incoming.observations)
  {
    assert Distinct(incoming.workspaces);
    NoRowLost(workspaces, incoming.workspaces);
    AddedKeyed(observations, incoming.observations);
    forall row | row in incoming.observations
      ensures row in AddedAll(observations, incoming.observations).Values
    {
      AddsAll(observations, incoming.observations, incoming.observations, row);
    }
  }
}
