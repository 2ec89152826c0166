/** The custody store: one record per Workspace and Source Space, one Workspace
    per repository name. Every change is a transaction. */
module WorkspaceStore {
  import opened Basics
  import opened WorkspaceCustody

  datatype Key = Key(accountId: Id, namespace: Id, workspaceId: Id, sourceSpaceId: Id)

  datatype Selection = Selection(key: Key, targetName: string)

  datatype Entry = Entry(selection: Selection, record: Record, repositoryId: Option<Id>)

  /** The two selections name one provider repository. */
  predicate SameTarget(s: Selection, t: Selection) {
    s.key.accountId == t.key.accountId && s.key.namespace == t.key.namespace && s.targetName == t.targetName
  }

  class MemoryArtifactsWorkspaceStore {
    var records: map<Key, Entry>

    constructor ()
      ensures Valid() && records == map[]
    {
      records := map[];
    }

    /** Records lie under their selections' keys, and no repository has two. */
    predicate Valid()
      reads this
    {
      && (forall key | key in records :: records[key].selection.key == key)
      && forall k, l | k in records && l in records && SameTarget(records[k].selection, records[l].selection) :: k == l
    }

    /** Reserves the Workspace and its repository name, unless either is taken. */
    method Reserve(selection: Selection) returns (reserved: bool)
      requires Valid()
      modifies this
      ensures Valid()
      ensures reserved <==> selection.key !in old(records)
                            && forall key | key in old(records) :: !SameTarget(old(records)[key].selection, selection)
      ensures records == if reserved
                         then old(records)[selection.key := Entry(selection, Record(false, [], false, false, Idle), None)]
                         else old(records)
    {
      reserved := selection.key !in records && forall key | key in records :: !SameTarget(records[key].selection, selection);
      if reserved {
        records := records[selection.key := Entry(selection, Record(false, [], false, false, Idle), None)];
      }
    }

    method Read(key: Key) returns (r: Option<Entry>)
      ensures r == if key in records then Some(records[key]) else None
    {
      r := if key in records then Some(records[key]) else None;
    }

    /** The record enrolled for the repository. */
    method Repository(repositoryId: Id) returns (r: Option<Entry>)
      ensures r.Some? <==> exists key | key in records :: records[key].repositoryId == Some(repositoryId)
      ensures r.Some? ==> r.value in records.Values && r.value.repositoryId == Some(repositoryId)
    {
      var keys := records.Keys;
      r := None;
      while keys != {}
        invariant keys <= records.Keys && r.None?
        invariant forall key | key in records && key !in keys :: records[key].repositoryId != Some(repositoryId)
      {
        var key :| key in keys;
        if records[key].repositoryId == Some(repositoryId) {
          return Some(records[key]);
        }
        keys := keys - {key};
      }
    }

    /** Applies an update to one record; one that throws, or has no record to
        update, changes nothing. */
    method Change(key: Key, update: Entry -> Option<Entry>) returns (changed: bool)
      requires Valid()
      requires forall entry :: update(entry).Some? ==> update(entry).value.selection == entry.selection
      modifies this
      ensures Valid()
      ensures changed <==> key in old(records) && update(old(records)[key]).Some?
      ensures records == if changed then old(records)[key := update(old(records)[key]).value] else old(records)
    {
      if key !in records || update(records[key]).None? {
        return false;
      }
      records := records[key := update(records[key]).value];
      changed := true;
    }

    /** Drops a reservation, unless its Workspace has been revoked. */
    method Release(key: Key)
      requires Valid()
      modifies this
      ensures Valid()
      ensures records == if key in old(records) && !old(records)[key].record.blocked then old(records) - {key} else old(records)
    {
      if key in records && !records[key].record.blocked {
        records := records - {key};
      }
    }
  }
}
