/**
 * The tracker of in-flight instance operations (InstanceOperationTracker).
 *
 * Operations are added as they are started; a poll asks the provider about
 * each one and drops those reported "DONE". Operations are plain objects
 * without value equality, so the pending set holds them by identity: two
 * distinct operation objects with the same four strings are two entries.
 */
module OperationTracker {
  import opened Compute

  /** One started operation on a provider instance. */
  class InstanceOperation {
    const name: string
    const zone: string
    const namePrefix: string
    const operationId: string

    constructor (name: string, zone: string, namePrefix: string, operationId: string)
      ensures this.name == name && this.zone == zone
      ensures this.namePrefix == namePrefix && this.operationId == operationId
    {
      this.name := name;
      this.zone := zone;
      this.namePrefix := namePrefix;
      this.operationId := operationId;
    }
  }

  /** The operation is reported done by the provider. */
  predicate IsOperationDone(zoneOperations: ZoneOperations, op: InstanceOperation)
  {
    IsZoneOperationDone(zoneOperations, op.zone, op.operationId)
  }

  /** The operations of `oldPending` that the provider does not report done. */
  function RemoveCompletedOperations(zoneOperations: ZoneOperations, oldPending: set<InstanceOperation>): (r: set<InstanceOperation>)
    ensures r <= oldPending
    ensures forall op | op in oldPending :: op in r <==> zoneOperations(op.zone, op.operationId) != Operation(Done)
  {
    set op | op in oldPending && !IsOperationDone(zoneOperations, op)
  }

  /** An operation whose status query fails stays pending. */
  lemma FailedQueryKeepsOperation(zoneOperations: ZoneOperations, oldPending: set<InstanceOperation>, op: InstanceOperation)
    requires op in oldPending && zoneOperations(op.zone, op.operationId) == IOException
    ensures op in RemoveCompletedOperations(zoneOperations, oldPending)
  {
  }

  /** An operation reported "DONE" is dropped. */
  lemma DoneOperationIsRemoved(zoneOperations: ZoneOperations, oldPending: set<InstanceOperation>, op: InstanceOperation)
    requires zoneOperations(op.zone, op.operationId) == Operation(Done)
    ensures op !in RemoveCompletedOperations(zoneOperations, oldPending)
  {
  }

  /** When nothing is done, polling keeps every operation. */
  lemma NothingDoneKeepsAll(zoneOperations: ZoneOperations, oldPending: set<InstanceOperation>)
    requires forall op | op in oldPending :: !IsOperationDone(zoneOperations, op)
    ensures RemoveCompletedOperations(zoneOperations, oldPending) == oldPending
  {
  }

  /** Polling twice against the same provider answers drops nothing more. */
  lemma RemoveCompletedIdempotent(zoneOperations: ZoneOperations, oldPending: set<InstanceOperation>)
    ensures var once := RemoveCompletedOperations(zoneOperations, oldPending);
      RemoveCompletedOperations(zoneOperations, once) == once
  {
  }

  /** Polling commutes with adding: an operation added before the poll is
      kept or dropped by the same rule as the others. */
  lemma RemoveCompletedDistributes(zoneOperations: ZoneOperations, a: set<InstanceOperation>, b: set<InstanceOperation>)
    ensures RemoveCompletedOperations(zoneOperations, a + b)
            == RemoveCompletedOperations(zoneOperations, a) + RemoveCompletedOperations(zoneOperations, b)
  {
  }

  /** The operations of `oldOps` that are not in `newOps`, in some order, each
      once, and their names in the same order. */
  method CompletedOperations(oldOps: set<InstanceOperation>, newOps: set<InstanceOperation>)
      returns (completed: seq<InstanceOperation>, names: seq<string>)
    ensures forall op :: op in completed <==> op in oldOps && op !in newOps
    ensures |completed| == |oldOps - newOps|
    ensures |names| == |completed| && forall i | 0 <= i < |completed| :: names[i] == completed[i].name
  {
    var remaining := oldOps - newOps;
    completed, names := [], [];
    while remaining != {}
      invariant remaining <= oldOps - newOps
      invariant forall op :: op in completed ==> op in oldOps && op !in newOps && op !in remaining
      invariant forall op | op in oldOps && op !in newOps :: op in completed || op in remaining
      invariant |completed| + |remaining| == |oldOps - newOps|
      invariant |names| == |completed| && forall i | 0 <= i < |completed| :: names[i] == completed[i].name
      decreases |remaining|
    {
      var op :| op in remaining;
      completed, names := completed + [op], names + [op.name];
      remaining := remaining - {op};
    }
  }

  class InstanceOperationTracker {
    var operations: set<InstanceOperation>

    constructor ()
      ensures operations == {}
    {
      operations := {};
    }

    /** Records a started operation; re-adding the same object changes nothing. */
    method Add(instanceOperation: InstanceOperation)
      modifies this
      ensures operations == old(operations) + {instanceOperation}
      ensures instanceOperation in old(operations) ==> operations == old(operations)
    {
      operations := operations + {instanceOperation};
    }

    /** Drops the operations the provider reports done and returns the names
        of the dropped operations, one name per dropped operation; `completed`
        lists those operations in the order of their names. */
    method RemoveCompleted(zoneOperations: ZoneOperations) returns (completedNames: seq<string>, ghost completed: seq<InstanceOperation>)
      modifies this
      ensures operations == RemoveCompletedOperations(zoneOperations, old(operations))
      ensures forall op :: op in completed <==> op in old(operations) && op !in operations
      ensures |completed| == |old(operations) - operations|
      ensures |completedNames| == |completed| && forall i | 0 <= i < |completed| :: completedNames[i] == completed[i].name
      ensures forall n :: n in completedNames <==>
        exists op :: op in old(operations) && IsOperationDone(zoneOperations, op) && op.name == n
    {
      var newOperations := RemoveCompletedOperations(zoneOperations, operations);
      var dropped, names := CompletedOperations(operations, newOperations);
      completed := dropped;
      forall n | n in names
        ensures exists op :: op in operations && IsOperationDone(zoneOperations, op) && op.name == n
      {
        var i :| 0 <= i < |names| && names[i] == n;
        assert completed[i] in completed;
      }
      forall op | op in operations && IsOperationDone(zoneOperations, op)
        ensures op.name in names
      {
        assert op in completed;
        var i :| 0 <= i < |completed| && completed[i] == op;
        assert names[i] == op.name;
      }
      completedNames := names;
      operations := newOperations;
    }

    /** The pending operations. */
    method Get() returns (r: set<InstanceOperation>)
      ensures r == operations
    {
      r := operations;
    }
  }

  /** Two operation objects with the same four strings are two entries of the
      tracker, and an operation never added is not among them. */
  method TrackDistinctObjects() returns (size: nat, containsOther: bool)
    ensures size == 2 && !containsOther
  {
    var tracker := new InstanceOperationTracker();
    var first := new InstanceOperation("instance1", "zone1", "prefix1", "1234");
    var second := new InstanceOperation("instance1", "zone1", "prefix1", "1234");
    var other := new InstanceOperation("instance3", "zone3", "prefix3", "abcd");
    tracker.Add(first);
    tracker.Add(second);
    var operations := tracker.Get();
    size := |operations|;
    containsOther := other in operations;
  }
}
