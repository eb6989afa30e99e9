/**
 * The earlier, split form of the operation tracker
 * (PendingInstanceInsertsAndDeletes): pending instance inserts and pending
 * instance deletes are kept in two independent sets, and one refresh polls
 * the provider for both. Entries are plain objects held by identity.
 */
module PendingInsertsDeletes {
  import opened Compute

  /** An instance whose insert or delete operation has been started. */
  class PendingInstance {
    const name: string
    const zone: string
    const namePrefix: string
    const operationId: string

    constructor (name: string, zone: string, namePrefix: string, operationId: string)
      ensures this.name == name && this.zone == zone
      ensures this.namePrefix == namePrefix && this.operationId == operationId
    {
      this.name := name;
      this.zone := zone;
      this.namePrefix := namePrefix;
      this.operationId := operationId;
    }
  }

  /** The entry's operation is reported done by the provider. */
  predicate IsPendingDone(zoneOperations: ZoneOperations, p: PendingInstance)
  {
    IsZoneOperationDone(zoneOperations, p.zone, p.operationId)
  }

  /** The entries of `oldPending` whose operation the provider does not
      report done (the private one-set refresh). */
  function RefreshPending(zoneOperations: ZoneOperations, oldPending: set<PendingInstance>): (r: set<PendingInstance>)
    ensures r <= oldPending
    ensures forall p | p in oldPending :: p in r <==> zoneOperations(p.zone, p.operationId) != Operation(Done)
  {
    set p | p in oldPending && !IsPendingDone(zoneOperations, p)
  }

  /** An entry whose status query fails stays pending. */
  lemma FailedQueryKeepsPending(zoneOperations: ZoneOperations, oldPending: set<PendingInstance>, p: PendingInstance)
    requires p in oldPending && zoneOperations(p.zone, p.operationId) == IOException
    ensures p in RefreshPending(zoneOperations, oldPending)
  {
  }

  /** An entry reported "DONE" is dropped. */
  lemma DonePendingIsRemoved(zoneOperations: ZoneOperations, oldPending: set<PendingInstance>, p: PendingInstance)
    requires zoneOperations(p.zone, p.operationId) == Operation(Done)
    ensures p !in RefreshPending(zoneOperations, oldPending)
  {
  }

  /** When nothing is done, a refresh keeps every entry. */
  lemma NothingDoneKeepsAllPending(zoneOperations: ZoneOperations, oldPending: set<PendingInstance>)
    requires forall p | p in oldPending :: !IsPendingDone(zoneOperations, p)
    ensures RefreshPending(zoneOperations, oldPending) == oldPending
  {
  }

  /** Refreshing twice against the same provider answers drops nothing more. */
  lemma RefreshPendingIdempotent(zoneOperations: ZoneOperations, oldPending: set<PendingInstance>)
    ensures var once := RefreshPending(zoneOperations, oldPending);
      RefreshPending(zoneOperations, once) == once
  {
  }

  /** The names of the entries of `oldPending` that are not in `newPending`,
      each entry once, in some order. */
  method CompletedNames(oldPending: set<PendingInstance>, newPending: set<PendingInstance>)
      returns (completed: seq<PendingInstance>, names: seq<string>)
    ensures forall p :: p in completed <==> p in oldPending && p !in newPending
    ensures |completed| == |oldPending - newPending|
    ensures |names| == |completed| && forall i | 0 <= i < |completed| :: names[i] == completed[i].name
  {
    var remaining := oldPending - newPending;
    completed, names := [], [];
    while remaining != {}
      invariant remaining <= oldPending - newPending
      invariant forall p :: p in completed ==> p in oldPending && p !in newPending && p !in remaining
      invariant forall p | p in oldPending && p !in newPending :: p in completed || p in remaining
      invariant |completed| + |remaining| == |oldPending - newPending|
      invariant |names| == |completed| && forall i | 0 <= i < |completed| :: names[i] == completed[i].name
      decreases |remaining|
    {
      var p :| p in remaining;
      completed, names := completed + [p], names + [p.name];
      remaining := remaining - {p};
    }
  }

  /** Each name in `names` is that of an entry of `oldPending` the provider
      reports done, and every such entry's name is listed. */
  ghost predicate NamesDone(zoneOperations: ZoneOperations, oldPending: set<PendingInstance>, names: seq<string>)
  {
    forall n :: n in names <==> exists p :: p in oldPending && IsPendingDone(zoneOperations, p) && p.name == n
  }

  /** The names of the completed entries are those of the done entries. */
  lemma CompletedNamesAreDone(zoneOperations: ZoneOperations, oldPending: set<PendingInstance>,
                              completed: seq<PendingInstance>, names: seq<string>)
    requires forall p :: p in completed <==> p in oldPending && p !in RefreshPending(zoneOperations, oldPending)
    requires |names| == |completed| && forall i | 0 <= i < |completed| :: names[i] == completed[i].name
    ensures NamesDone(zoneOperations, oldPending, names)
  {
    forall n | n in names
      ensures exists p :: p in oldPending && IsPendingDone(zoneOperations, p) && p.name == n
    {
      var i :| 0 <= i < |names| && names[i] == n;
      assert completed[i] in completed;
    }
    forall p | p in oldPending && IsPendingDone(zoneOperations, p)
      ensures p.name in names
    {
      assert p in completed;
      var i :| 0 <= i < |completed| && completed[i] == p;
      assert names[i] == p.name;
    }
  }

  class PendingInstanceInsertsAndDeletes {
    var pendingInserts: set<PendingInstance>
    var pendingDeletes: set<PendingInstance>

    constructor ()
      ensures pendingInserts == {} && pendingDeletes == {}
    {
      pendingInserts := {};
      pendingDeletes := {};
    }

    /** Records a started insert; the pending deletes are untouched. */
    method EnqueueInsert(pendingInstance: PendingInstance)
      modifies this
      ensures pendingInserts == old(pendingInserts) + {pendingInstance}
      ensures pendingDeletes == old(pendingDeletes)
    {
      pendingInserts := pendingInserts + {pendingInstance};
    }

    /** Records a started delete; the pending inserts are untouched. */
    method EnqueueDelete(pendingInstance: PendingInstance)
      modifies this
      ensures pendingDeletes == old(pendingDeletes) + {pendingInstance}
      ensures pendingInserts == old(pendingInserts)
    {
      pendingDeletes := pendingDeletes + {pendingInstance};
    }

    /** Refreshes both sets against the same provider answers, each on its
        own, and returns the names of the entries dropped from each, one name
        per dropped entry; the ghost results list those entries in the order
        of their names. */
    method Refresh(zoneOperations: ZoneOperations)
        returns (completedInsertNames: seq<string>, completedDeleteNames: seq<string>,
                 ghost completedInserts: seq<PendingInstance>, ghost completedDeletes: seq<PendingInstance>)
      modifies this
      ensures pendingInserts == RefreshPending(zoneOperations, old(pendingInserts))
      ensures pendingDeletes == RefreshPending(zoneOperations, old(pendingDeletes))
      ensures forall p :: p in completedInserts <==> p in old(pendingInserts) && p !in pendingInserts
      ensures forall p :: p in completedDeletes <==> p in old(pendingDeletes) && p !in pendingDeletes
      ensures |completedInserts| == |old(pendingInserts) - pendingInserts|
      ensures |completedDeletes| == |old(pendingDeletes) - pendingDeletes|
      ensures |completedInsertNames| == |completedInserts|
      ensures forall i | 0 <= i < |completedInserts| :: completedInsertNames[i] == completedInserts[i].name
      ensures |completedDeleteNames| == |completedDeletes|
      ensures forall i | 0 <= i < |completedDeletes| :: completedDeleteNames[i] == completedDeletes[i].name
      ensures NamesDone(zoneOperations, old(pendingInserts), completedInsertNames)
      ensures NamesDone(zoneOperations, old(pendingDeletes), completedDeleteNames)
    {
      var newPendingInserts := RefreshPending(zoneOperations, pendingInserts);
      var newPendingDeletes := RefreshPending(zoneOperations, pendingDeletes);
      var droppedInserts, insertNames := CompletedNames(pendingInserts, newPendingInserts);
      var droppedDeletes, deleteNames := CompletedNames(pendingDeletes, newPendingDeletes);
      CompletedNamesAreDone(zoneOperations, pendingInserts, droppedInserts, insertNames);
      CompletedNamesAreDone(zoneOperations, pendingDeletes, droppedDeletes, deleteNames);
      completedInsertNames, completedDeleteNames := insertNames, deleteNames;
      completedInserts, completedDeletes := droppedInserts, droppedDeletes;
      pendingInserts := newPendingInserts;
      pendingDeletes := newPendingDeletes;
    }

    method GetPendingInserts() returns (r: set<PendingInstance>)
      ensures r == pendingInserts
    {
      r := pendingInserts;
    }

    method GetPendingDeletes() returns (r: set<PendingInstance>)
      ensures r == pendingDeletes
    {
      r := pendingDeletes;
    }
  }
}
