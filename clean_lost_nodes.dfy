/**
 * The periodic orphan sweep (CleanLostNodesWork).
 *
 * For every Compute Engine cloud the controller knows, the sweep lists the
 * provider's instances of that cloud and the names of the controller's own
 * nodes, and asks the provider to terminate each instance that is not
 * already stopping and has no node of that name. A terminate request that
 * fails with an I/O error is logged and the sweep goes on.
 */
module CleanLostNodes {
  import opened Seqs
  import opened Compute

  /** What the sweep reads of a Compute Engine cloud: its name, project, the
      provider's instances of the cloud and the names of its nodes. */
  datatype ComputeEngineCloud = ComputeEngineCloud(cloudName: string, projectId: string,
                                                   allInstances: seq<Instance>, allNodes: seq<string>)

  /** A cloud the controller knows: a Compute Engine cloud or some other kind. */
  datatype Cloud = ComputeEngine(computeEngine: ComputeEngineCloud) | OtherCloud(name: string)

  /** One asynchronous terminate request sent to the provider. */
  datatype TerminateCall = TerminateCall(projectId: string, zone: string, name: string)

  /** How the provider's client answers a terminate request. */
  datatype TerminateOutcome = Accepted | TerminateIOException

  /** The provider's client, as it answers during one sweep. */
  type TerminateClient = TerminateCall -> TerminateOutcome

  const Stopping: string := "STOPPING"

  /** Instances in any status but "STOPPING" are candidates for termination. */
  predicate ShouldTerminateStatus(status: string): (terminate: bool)
    ensures terminate <==> status != "STOPPING"
  {
    status != Stopping
  }

  /** The instance has no node of the same name. */
  predicate IsOrphaned(instance: Instance, nodes: set<string>): (orphaned: bool)
    ensures orphaned <==> forall n | n in nodes :: n != instance.name
  {
    instance.name !in nodes
  }

  /** The node names of the cloud, collected into a set. */
  function NodeSet(cloud: ComputeEngineCloud): (nodes: set<string>)
    ensures forall n :: n in nodes <==> n in cloud.allNodes
  {
    set n | n in cloud.allNodes
  }

  /** The first stream filter of the sweep. */
  function StatusFilter(): Instance -> bool
  {
    (instance: Instance) => ShouldTerminateStatus(instance.status)
  }

  /** The second stream filter of the sweep. */
  function OrphanFilter(nodes: set<string>): Instance -> bool
  {
    (instance: Instance) => IsOrphaned(instance, nodes)
  }

  /** Both filters at once. */
  function TerminationFilter(nodes: set<string>): Instance -> bool
  {
    (instance: Instance) => ShouldTerminateStatus(instance.status) && IsOrphaned(instance, nodes)
  }

  /** The instances the sweep terminates, in stream order: exactly those not
      stopping and without a node of their name. */
  function Orphans(cloud: ComputeEngineCloud): (r: seq<Instance>)
    ensures IsSubsequence(r, cloud.allInstances)
    ensures forall i | i in cloud.allInstances :: i in r <==> i.status != "STOPPING" && i.name !in cloud.allNodes
    ensures forall i | i in cloud.allInstances ::
      multiset(r)[i] == if i.status != "STOPPING" && i.name !in cloud.allNodes then multiset(cloud.allInstances)[i] else 0
    ensures forall i | i in r :: i in cloud.allInstances
  {
    Filter(TerminationFilter(NodeSet(cloud)), cloud.allInstances)
  }

  /** The two chained stream filters select the same instances, in the same
      order, as the single combined test. */
  lemma ChainedFiltersSelectOrphans(cloud: ComputeEngineCloud)
    ensures Filter(OrphanFilter(NodeSet(cloud)), Filter(StatusFilter(), cloud.allInstances)) == Orphans(cloud)
  {
    FilterFilter(StatusFilter(), OrphanFilter(NodeSet(cloud)), TerminationFilter(NodeSet(cloud)), cloud.allInstances);
  }

  /** The request that terminates `instance` of a cloud in project `projectId`. */
  function TerminateCallFor(projectId: string, instance: Instance): TerminateCall
  {
    TerminateCall(projectId, instance.zone, instance.name)
  }

  /** The requests for `instances`, one each, in order. */
  function CallsFor(projectId: string, instances: seq<Instance>): (r: seq<TerminateCall>)
    ensures |r| == |instances|
    ensures forall k | 0 <= k < |instances| :: r[k] == TerminateCallFor(projectId, instances[k])
  {
    seq(|instances|, k requires 0 <= k < |instances| => TerminateCallFor(projectId, instances[k]))
  }

  /** One more instance adds its request at the end. */
  lemma CallsForAppend(projectId: string, instances: seq<Instance>, instance: Instance)
    ensures CallsFor(projectId, instances + [instance]) == CallsFor(projectId, instances) + [TerminateCallFor(projectId, instance)]
  {
    var longer := CallsFor(projectId, instances + [instance]);
    assert forall k | 0 <= k < |instances| :: longer[k] == TerminateCallFor(projectId, instances[k]);
  }

  /** The requests the sweep of one cloud sends, in order. */
  function TerminateCalls(cloud: ComputeEngineCloud): seq<TerminateCall>
  {
    CallsFor(cloud.projectId, Orphans(cloud))
  }

  /** A request is sent for a cloud exactly when it names the cloud's
      project and the zone and name of an instance of the cloud that is not
      stopping and has no node of its name. */
  lemma TerminateCallsExactly(cloud: ComputeEngineCloud, call: TerminateCall)
    ensures call in TerminateCalls(cloud) <==>
      exists i :: i in cloud.allInstances && i.status != "STOPPING" && i.name !in cloud.allNodes
                  && call == TerminateCall(cloud.projectId, i.zone, i.name)
  {
    var orphans := Orphans(cloud);
    var calls := TerminateCalls(cloud);
    if call in calls {
      var k :| 0 <= k < |calls| && calls[k] == call;
      assert orphans[k] in orphans;
    }
    if exists i :: i in cloud.allInstances && i.status != "STOPPING" && i.name !in cloud.allNodes
                   && call == TerminateCall(cloud.projectId, i.zone, i.name) {
      var i :| i in cloud.allInstances && i.status != "STOPPING" && i.name !in cloud.allNodes
               && call == TerminateCall(cloud.projectId, i.zone, i.name);
      var k :| 0 <= k < |orphans| && orphans[k] == i;
      assert calls[k] == call;
    }
  }

  /** Sends one terminate request; an I/O error is reported, not raised. */
  method TerminateInstance(instance: Instance, cloud: ComputeEngineCloud, client: TerminateClient)
      returns (call: TerminateCall, outcome: TerminateOutcome)
    ensures call.projectId == cloud.projectId && call.zone == instance.zone && call.name == instance.name
    ensures outcome == client(call)
  {
    call := TerminateCall(cloud.projectId, instance.zone, instance.name);
    outcome := client(call);
  }

  /** Sweeps one cloud: the requests sent, in order, and those the client
      failed on. Every orphan gets its request whatever the client answers. */
  method CleanCloud(cloud: ComputeEngineCloud, client: TerminateClient)
      returns (calls: seq<TerminateCall>, failures: seq<TerminateCall>)
    ensures calls == TerminateCalls(cloud)
    ensures forall c :: c in failures <==> c in calls && client(c) == TerminateIOException
  {
    var nodes := NodeSet(cloud);
    var instances := cloud.allInstances;
    calls, failures := [], [];
    var i := 0;
    while i < |instances|
      invariant 0 <= i <= |instances|
      invariant calls == CallsFor(cloud.projectId, Filter(TerminationFilter(nodes), instances[..i]))
      invariant forall c :: c in failures <==> c in calls && client(c) == TerminateIOException
    {
      var instance := instances[i];
      ghost var kept := Filter(TerminationFilter(nodes), instances[..i]);
      assert instances[..i + 1] == instances[..i] + [instance];
      FilterAppend(TerminationFilter(nodes), instances[..i], instance);
      if ShouldTerminateStatus(instance.status) && IsOrphaned(instance, nodes) {
        CallsForAppend(cloud.projectId, kept, instance);
        var call, outcome := TerminateInstance(instance, cloud, client);
        calls := calls + [call];
        if outcome == TerminateIOException {
          failures := failures + [call];
        }
      }
      i := i + 1;
    }
    assert instances[..i] == instances;
  }

  /** The cloud is a Compute Engine cloud (the `instanceof` test). */
  predicate IsComputeEngine(cloud: Cloud)
  {
    cloud.ComputeEngine?
  }

  /** The Compute Engine clouds among `clouds`: the filter on the kind of
      cloud followed by the cast, so order and repetitions are kept. */
  function GetClouds(clouds: seq<Cloud>): (r: seq<ComputeEngineCloud>)
    ensures |r| == |Filter(IsComputeEngine, clouds)|
    ensures forall k | 0 <= k < |r| :: ComputeEngine(r[k]) == Filter(IsComputeEngine, clouds)[k]
    ensures forall ce :: ce in r <==> ComputeEngine(ce) in clouds
  {
    var kept := Filter(IsComputeEngine, clouds);
    FilterSatisfiesAt(IsComputeEngine, clouds);
    var r := seq(|kept|, k requires 0 <= k < |kept| => kept[k].computeEngine);
    assert forall ce | ComputeEngine(ce) in kept :: ce in r by {
      forall ce | ComputeEngine(ce) in kept
        ensures ce in r
      {
        var k :| 0 <= k < |kept| && kept[k] == ComputeEngine(ce);
        assert r[k] == ce;
      }
    }
    r
  }

  /** Clouds of other kinds are skipped. */
  lemma OtherCloudIsSkipped(clouds: seq<Cloud>, name: string)
    ensures GetClouds(clouds + [OtherCloud(name)]) == GetClouds(clouds)
  {
    FilterAppend(IsComputeEngine, clouds, OtherCloud(name));
  }

  /** The periodic run sweeps every Compute Engine cloud and no other: a
      request is sent exactly when some Compute Engine cloud among `clouds`
      has an orphan it names. */
  lemma DoRunCallsExactly(clouds: seq<Cloud>, call: TerminateCall)
    ensures call in FlatMap(TerminateCalls, GetClouds(clouds)) <==>
      exists ce :: ComputeEngine(ce) in clouds && call in TerminateCalls(ce)
  {
    FlatMapMembership(TerminateCalls, GetClouds(clouds), call);
  }

  /** One periodic run: sweeps the Compute Engine clouds in order and
      returns all requests sent and those the client failed on. */
  method DoRun(clouds: seq<Cloud>, client: TerminateClient)
      returns (calls: seq<TerminateCall>, failures: seq<TerminateCall>)
    ensures calls == FlatMap(TerminateCalls, GetClouds(clouds))
    ensures forall c :: c in failures <==> c in calls && client(c) == TerminateIOException
  {
    var ces := GetClouds(clouds);
    calls, failures := [], [];
    var i := 0;
    while i < |ces|
      invariant 0 <= i <= |ces|
      invariant calls == FlatMap(TerminateCalls, ces[..i])
      invariant forall c :: c in failures <==> c in calls && client(c) == TerminateIOException
    {
      var cloudCalls, cloudFailures := CleanCloud(ces[i], client);
      assert ces[..i + 1][..i] == ces[..i];
      calls := calls + cloudCalls;
      failures := failures + cloudFailures;
      i := i + 1;
    }
    assert ces[..i] == ces;
  }
}
