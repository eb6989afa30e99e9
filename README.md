# Compute Engine fleet bookkeeping, modelled in Dafny

This project models four pieces of the Jenkins Google Compute Engine plugin.
Each is sequential and its behaviour can be stated exactly:

- **The configuration/instance allocator** (`InstanceConfigurationPrioritizer`).
  It receives the eligible instance configurations, all known instances and the idle ("provisionable") instances.
  Phase A reuses an idle instance whose configuration label matches some configuration.
  Phase B otherwise picks a configuration that can still create an instance.
  Both phases choose round-robin over two process-wide Java `int` counters.
  The counters wrap around like 32-bit integers.
- **The operation tracker** (`InstanceOperationTracker`). It holds a set of started operations.
  A poll asks the provider about each operation and drops the ones reported `"DONE"`.
  A failed query counts as not done.
- **The split tracker** (`PendingInstanceInsertsAndDeletes`). It is the same logic over two independent sets.
  One set holds pending inserts and the other pending deletes.
- **The orphan sweep** (`CleanLostNodesWork`). For every Compute Engine cloud, it asks the provider to terminate each instance that is not `"STOPPING"` and has no node of its name.

Modules:

- `JavaInt` (`java_int.dfy`) covers Java `int` arithmetic: the 32-bit range, `x++` with wrap-around, `Math.abs`, and truncating `/` and `%`.
- `Seqs` (`seqs.dfy`) holds order-preserving filtering, filter composition and concatenation of per-element results. These are the shapes of the stream pipelines.
- `Compute` (`compute.dfy`) holds the provider's instance record and the zone-operation status query.
- `Prioritizer` (`prioritizer.dfy`), `OperationTracker` (`operation_tracker.dfy`), `PendingInsertsDeletes` (`pending_inserts_deletes.dfy`) and `CleanLostNodes` (`clean_lost_nodes.dfy`) model the four components.

How the model is built:

- The allocator's counters live in one shared `RoundRobinCounters` object, standing for the static fields.
  The method `GetConfigAndInstance` follows the source statement by statement.
  It is proved equal to the pure function `Allocate`, which returns the result and the new counter values.
  The properties are lemmas about `Allocate`.
- The tracker classes keep their sets in fields that the methods reassign.
  The provider's answers are a function parameter from (zone, operation id) to a status or an `IOException`.
- The sweep returns the terminate requests it sent, in order.
  The provider's terminate client is a function parameter.

Where the code and its design description disagree, the model follows the code:

- **Identity, not value equality.** Operations and pending instances do not override `equals`/`hashCode`, so a Java `HashSet` holds them by identity.
  The model makes them classes, so two distinct objects with the same four strings are two entries (`OperationTracker.TrackDistinctObjects`).
  Re-adding the same object changes nothing.
- **Uninitialised sets.** The set fields are never initialised in the source, so the first `add` would throw a `NullPointerException`.
  The model starts them empty, which is what the tracker's test expects.
- **Unlabelled instances.** An instance without the configuration label reads as the text `<no config label key found>`.
  Such an instance therefore matches a configuration whose name prefix is exactly that text (`Prioritizer.UnlabelledInstanceMatchesOnlyPlaceholder`).

One behaviour of the allocator as written is worth knowing. `Math.abs(Integer.MIN_VALUE)` is negative.
So when a counter has wrapped around to the least `int` and the list length does not divide 2^31, the index is negative and `List.get` throws `IndexOutOfBoundsException`.
The model keeps this behaviour as the result `OutOfBounds`:

- `Prioritizer.RoundRobinIndexInBounds` gives the exact condition.
- `Prioritizer.MinValueIndexOutOfBounds` gives the index −2 for three candidates.
- `Prioritizer.OutOfBoundsOnlyAtMinValue` shows that nothing else can cause it.

The line-157 check that the chosen configuration has an idle instance can never fail (`Prioritizer.TentativeConfigHasInstances`).

## Model

| member | source | states |
|---|---|---|
| `JavaInt.Wrap` | src/main/java/com/google/jenkins/plugins/computeengine/InstanceConfigurationPrioritizer.java:30-31 | 32-bit truncation: identity on the `int` range, shifts by 2^32 just above and just below it |
| `JavaInt.PostIncrement` | src/main/java/com/google/jenkins/plugins/computeengine/InstanceConfigurationPrioritizer.java:49 | `counter++` stores counter + 1, except that the greatest `int` wraps to the least; the stored value is smaller exactly at that wrap |
| `JavaInt.PostIncrementWraps` | src/main/java/com/google/jenkins/plugins/computeengine/InstanceConfigurationPrioritizer.java:49 | `counter++` stores the 32-bit truncation of counter + 1 |
| `JavaInt.Abs` | src/main/java/com/google/jenkins/plugins/computeengine/InstanceConfigurationPrioritizer.java:60 | `Math.abs` returns the value or its negation, and is negative exactly at the least `int` |
| `JavaInt.AbsWraps` | src/main/java/com/google/jenkins/plugins/computeengine/InstanceConfigurationPrioritizer.java:60 | `Math.abs` is the 32-bit truncation of the negation for negative values |
| `JavaInt.Rem` | src/main/java/com/google/jenkins/plugins/computeengine/InstanceConfigurationPrioritizer.java:49 | Java `%` by a positive size: quotient times size plus remainder is the dividend, remainder in [0, size) for a non-negative dividend and in (−size, 0] for a negative one |
| `Compute.IsZoneOperationDone` | src/main/java/com/google/jenkins/plugins/computeengine/InstanceOperationTracker.java:83-90 | done exactly when the provider answers status `"DONE"`; a failed query (`IOException`) is not done |
| `Prioritizer.FilterInstancesForConfig` | src/main/java/com/google/jenkins/plugins/computeengine/InstanceConfigurationPrioritizer.java:66-74 | the instances whose config label (placeholder when missing) equals the prefix, in order: a subsequence with each kept instance's multiplicity preserved and every other dropped |
| `Prioritizer.UnlabelledInstanceMatchesOnlyPlaceholder` | src/main/java/com/google/jenkins/plugins/computeengine/InstanceConfigurationPrioritizer.java:68-73 | an instance without the label matches a configuration exactly when its prefix is the placeholder text |
| `Prioritizer.FilterNonEmptyIff` | src/main/java/com/google/jenkins/plugins/computeengine/InstanceConfigurationPrioritizer.java:86-88 | `findAny().isPresent()` holds exactly when some instance is labelled for the configuration |
| `Prioritizer.FilterCount` | src/main/java/com/google/jenkins/plugins/computeengine/InstanceConfigurationPrioritizer.java:114-115 | the stream's `count()` is the number of instances labelled for the configuration |
| `Prioritizer.GetConfigsWithProvisionableInstances` | src/main/java/com/google/jenkins/plugins/computeengine/InstanceConfigurationPrioritizer.java:79-91 | the subsequence of configurations with at least one labelled idle instance (multiplicities kept); empty exactly when no configuration has one |
| `Prioritizer.GetProvisionableInstancesForConfig` | src/main/java/com/google/jenkins/plugins/computeengine/InstanceConfigurationPrioritizer.java:96-102 | the subsequence of idle instances labelled for the configuration, multiplicities kept |
| `Prioritizer.GetConfigsWithSpareCapacity` | src/main/java/com/google/jenkins/plugins/computeengine/InstanceConfigurationPrioritizer.java:107-118 | the subsequence of configurations whose maximum strictly exceeds their labelled-instance count; empty exactly when none does |
| `Prioritizer.TentativeConfigHasInstances` | src/main/java/com/google/jenkins/plugins/computeengine/InstanceConfigurationPrioritizer.java:150-157 | a configuration chosen in phase A always has a labelled idle instance, so the emptiness test cannot fail |
| `Prioritizer.RoundRobinIndex` | src/main/java/com/google/jenkins/plugins/computeengine/InstanceConfigurationPrioritizer.java:49 | `Math.abs(c) % n` lies strictly between −n and n, and is negative only when c is the least `int` |
| `Prioritizer.RoundRobinIndexInBounds` | src/main/java/com/google/jenkins/plugins/computeengine/InstanceConfigurationPrioritizer.java:49 | `Math.abs(c) % n` is a valid index exactly when c is not the least `int` or n divides 2^31; otherwise it is \|c\| mod n |
| `Prioritizer.MinValueIndexOutOfBounds` | src/main/java/com/google/jenkins/plugins/computeengine/InstanceConfigurationPrioritizer.java:49 | at the least `int` with three candidates the index is −2 |
| `Prioritizer.PickRoundRobin` | src/main/java/com/google/jenkins/plugins/computeengine/InstanceConfigurationPrioritizer.java:48-50 | a pick is an element of the list; an out-of-bounds index is negative and needs the counter at the least `int` |
| `Prioritizer.PickRoundRobinAt` | src/main/java/com/google/jenkins/plugins/computeengine/InstanceConfigurationPrioritizer.java:59-61 | away from the least `int` the pick is the element at \|counter\| mod size |
| `Prioritizer.SpareCapacityPhase` | src/main/java/com/google/jenkins/plugins/computeengine/InstanceConfigurationPrioritizer.java:164-175 | phase B answers null exactly when no configuration has spare capacity, and then keeps the configuration counter; otherwise it increments it; it never touches the instance counter; a choice is a spare-capacity configuration without an instance; an index exception needs the counter at the least `int` |
| `Prioritizer.Allocate` | src/main/java/com/google/jenkins/plugins/computeengine/InstanceConfigurationPrioritizer.java:141-176 | one allocation call leaves each counter unchanged or incremented once (with wrap-around); its results are characterised by the lemmas below |
| `Prioritizer.PhaseAChoosesInstance` | src/main/java/com/google/jenkins/plugins/computeengine/InstanceConfigurationPrioritizer.java:149-161 | when some configuration has a labelled idle instance, the call reuses an instance (or hits the out-of-bounds index) and advances the configuration counter |
| `Prioritizer.NoReuseMeansSpareCapacityPhase` | src/main/java/com/google/jenkins/plugins/computeengine/InstanceConfigurationPrioritizer.java:149-171 | when no configuration has a labelled idle instance, the call is phase B alone |
| `Prioritizer.ReuseChoiceIsLabelledInstance` | src/main/java/com/google/jenkins/plugins/computeengine/InstanceConfigurationPrioritizer.java:149-161 | a reuse result names a given configuration and an idle instance labelled for it, and both counters advance by one |
| `Prioritizer.FreshChoiceHasSpareCapacity` | src/main/java/com/google/jenkins/plugins/computeengine/InstanceConfigurationPrioritizer.java:164-171 | a result without an instance occurs only when no configuration has an idle instance; its configuration has spare capacity against all instances, and only the configuration counter advances |
| `Prioritizer.NoSuitableConfigIff` | src/main/java/com/google/jenkins/plugins/computeengine/InstanceConfigurationPrioritizer.java:141-176 | the result is null exactly when no configuration has an idle instance and none has spare capacity, and then neither counter changes |
| `Prioritizer.OutOfBoundsOnlyAtMinValue` | src/main/java/com/google/jenkins/plugins/computeengine/InstanceConfigurationPrioritizer.java:48-61 | the index exception needs one of the counters at the least `int` |
| `Prioritizer.FreshCapacityStep` | src/main/java/com/google/jenkins/plugins/computeengine/InstanceConfigurationPrioritizer.java:167-171 | with nothing to reuse and a non-negative counter, the call returns the spare configuration at counter mod n and advances only that counter |
| `Prioritizer.RepeatNthCall` | src/main/java/com/google/jenkins/plugins/computeengine/InstanceConfigurationPrioritizer.java:48-50 | calls that pick at their counter and advance it: call j of k picks the element at (c + j) mod n |
| `Prioritizer.FreshCapacityRoundRobin` | src/main/java/com/google/jenkins/plugins/computeengine/InstanceConfigurationPrioritizer.java:167-171 | k repeated phase-B calls over the same n configurations, from counter c, return the configurations at c, c+1, … mod n |
| `Prioritizer.RoundRobinIndexAlternates` | src/main/java/com/google/jenkins/plugins/computeengine/InstanceConfigurationPrioritizer.java:49 | over two candidates the index is 0 or 1 for every counter and flips at every increment, across the wrap from the greatest to the least `int` too |
| `Prioritizer.RepeatAlternates` | src/main/java/com/google/jenkins/plugins/computeengine/InstanceConfigurationPrioritizer.java:48-50 | calls that pick from two configurations at their counter: call j of k picks the one at (i + j) mod 2, i the first call's index, for every starting counter |
| `Prioritizer.AllocationCallAlternates` | src/main/java/com/google/jenkins/plugins/computeengine/InstanceConfigurationPrioritizer.java:164-171 | with nothing to reuse and two spare-capacity configurations, every allocation call picks the one at its counter's index and advances only that counter |
| `Prioritizer.RepeatAlternatingSharesEvenly` | src/main/java/com/google/jenkins/plugins/computeengine/InstanceConfigurationPrioritizer.java:48-50 | k calls alternating between two distinct configurations pick each k/2 times, rounded down or up |
| `Prioritizer.TwoConfigsShareEvenly` | src/main/java/com/google/jenkins/plugins/computeengine/InstanceConfigurationPrioritizer.java:164-171 | over two distinct eligible configurations, k phase-B calls from any counter, wrap-around included, pick each k/2 times, rounded down or up |
| `Prioritizer.RoundRobinCounters.constructor` | src/main/java/com/google/jenkins/plugins/computeengine/InstanceConfigurationPrioritizer.java:30-31 | both static counters start at 0 |
| `Prioritizer.InstanceConfigurationPrioritizer.constructor` | src/main/java/com/google/jenkins/plugins/computeengine/InstanceConfigurationPrioritizer.java:33-38 | stores the three keys and shares the counters |
| `Prioritizer.InstanceConfigurationPrioritizer.ChooseConfigFromList` | src/main/java/com/google/jenkins/plugins/computeengine/InstanceConfigurationPrioritizer.java:48-50 | returns the round-robin pick at the old configuration counter, increments that counter (with wrap-around) and leaves the other alone |
| `Prioritizer.InstanceConfigurationPrioritizer.ChooseInstanceFromList` | src/main/java/com/google/jenkins/plugins/computeengine/InstanceConfigurationPrioritizer.java:59-61 | returns the round-robin pick at the old instance counter, increments that counter and leaves the other alone |
| `Prioritizer.InstanceConfigurationPrioritizer.GetConfigAndInstance` | src/main/java/com/google/jenkins/plugins/computeengine/InstanceConfigurationPrioritizer.java:141-176 | result and new counters are those of `Allocate` on the old counters, so every lemma above applies to the method |
| `OperationTracker.InstanceOperation.constructor` | src/main/java/com/google/jenkins/plugins/computeengine/InstanceOperationTracker.java:36-41 | a fresh operation object holding the four strings |
| `OperationTracker.RemoveCompletedOperations` | src/main/java/com/google/jenkins/plugins/computeengine/InstanceOperationTracker.java:92-104 | a subset of the old set, keeping an operation exactly when the provider does not answer `"DONE"` for its zone and id |
| `OperationTracker.FailedQueryKeepsOperation` | src/main/java/com/google/jenkins/plugins/computeengine/InstanceOperationTracker.java:83-90 | an operation whose status query fails stays pending |
| `OperationTracker.DoneOperationIsRemoved` | src/main/java/com/google/jenkins/plugins/computeengine/InstanceOperationTracker.java:95-101 | an operation reported `"DONE"` is dropped |
| `OperationTracker.NothingDoneKeepsAll` | src/test/java/com/google/jenkins/plugins/computeengine/InstanceOperationTrackerTest.java:108-120 | when nothing is done, polling leaves the set unchanged |
| `OperationTracker.RemoveCompletedIdempotent` | src/main/java/com/google/jenkins/plugins/computeengine/InstanceOperationTracker.java:95-101 | polling again with the same answers drops nothing more |
| `OperationTracker.RemoveCompletedDistributes` | src/main/java/com/google/jenkins/plugins/computeengine/InstanceOperationTracker.java:96-101 | polling a union is the union of the polls: each operation is judged on its own |
| `OperationTracker.CompletedOperations` | src/main/java/com/google/jenkins/plugins/computeengine/InstanceOperationTracker.java:110-114 | lists every operation of the old set missing from the new one exactly once, with their names in the same order |
| `OperationTracker.InstanceOperationTracker.constructor` | src/main/java/com/google/jenkins/plugins/computeengine/InstanceOperationTracker.java:64-66 | the tracker starts with no operations |
| `OperationTracker.InstanceOperationTracker.Add` | src/main/java/com/google/jenkins/plugins/computeengine/InstanceOperationTracker.java:68-71 | the set gains exactly the given object; re-adding an object already there changes nothing |
| `OperationTracker.InstanceOperationTracker.RemoveCompleted` | src/main/java/com/google/jenkins/plugins/computeengine/InstanceOperationTracker.java:106-119 | the set becomes the poll of the old set; the returned names are those of the dropped operations, listed one by one and each exactly once, and these are exactly the done operations |
| `OperationTracker.InstanceOperationTracker.Get` | src/main/java/com/google/jenkins/plugins/computeengine/InstanceOperationTracker.java:121-123 | returns the current set and changes nothing |
| `OperationTracker.TrackDistinctObjects` | src/test/java/com/google/jenkins/plugins/computeengine/InstanceOperationTrackerTest.java:40-60 | two added objects (even with equal strings) give two entries, and an object never added is absent |
| `PendingInsertsDeletes.PendingInstance.constructor` | src/main/java/com/google/jenkins/plugins/computeengine/PendingInstanceInsertsAndDeletes.java:36-41 | a fresh entry holding the four strings |
| `PendingInsertsDeletes.RefreshPending` | src/main/java/com/google/jenkins/plugins/computeengine/PendingInstanceInsertsAndDeletes.java:98-109 | a subset of the old set, keeping an entry exactly when the provider does not answer `"DONE"` for it |
| `PendingInsertsDeletes.FailedQueryKeepsPending` | src/main/java/com/google/jenkins/plugins/computeengine/PendingInstanceInsertsAndDeletes.java:89-96 | an entry whose status query fails stays pending |
| `PendingInsertsDeletes.DonePendingIsRemoved` | src/main/java/com/google/jenkins/plugins/computeengine/PendingInstanceInsertsAndDeletes.java:100-106 | an entry reported `"DONE"` is dropped |
| `PendingInsertsDeletes.NothingDoneKeepsAllPending` | src/main/java/com/google/jenkins/plugins/computeengine/PendingInstanceInsertsAndDeletes.java:100-108 | when nothing is done, a refresh keeps the set |
| `PendingInsertsDeletes.RefreshPendingIdempotent` | src/main/java/com/google/jenkins/plugins/computeengine/PendingInstanceInsertsAndDeletes.java:98-109 | refreshing again with the same answers drops nothing more |
| `PendingInsertsDeletes.CompletedNames` | src/main/java/com/google/jenkins/plugins/computeengine/PendingInstanceInsertsAndDeletes.java:116-125 | lists every entry of the old set missing from the new one exactly once, with their names in the same order |
| `PendingInsertsDeletes.CompletedNamesAreDone` | src/main/java/com/google/jenkins/plugins/computeengine/PendingInstanceInsertsAndDeletes.java:116-120 | the names of the dropped entries are exactly the names of the entries reported done |
| `PendingInsertsDeletes.PendingInstanceInsertsAndDeletes.constructor` | src/main/java/com/google/jenkins/plugins/computeengine/PendingInstanceInsertsAndDeletes.java:65-67 | both sets start empty |
| `PendingInsertsDeletes.PendingInstanceInsertsAndDeletes.EnqueueInsert` | src/main/java/com/google/jenkins/plugins/computeengine/PendingInstanceInsertsAndDeletes.java:69-72 | the inserts gain exactly the entry; the deletes are unchanged |
| `PendingInsertsDeletes.PendingInstanceInsertsAndDeletes.EnqueueDelete` | src/main/java/com/google/jenkins/plugins/computeengine/PendingInstanceInsertsAndDeletes.java:74-77 | the deletes gain exactly the entry; the inserts are unchanged |
| `PendingInsertsDeletes.PendingInstanceInsertsAndDeletes.Refresh` | src/main/java/com/google/jenkins/plugins/computeengine/PendingInstanceInsertsAndDeletes.java:111-139 | each set becomes its own refresh, independent of the other; each returned name list holds the names of that set's dropped entries, each entry exactly once, and these are exactly its done entries |
| `PendingInsertsDeletes.PendingInstanceInsertsAndDeletes.GetPendingInserts` | src/main/java/com/google/jenkins/plugins/computeengine/PendingInstanceInsertsAndDeletes.java:141-143 | returns the current inserts and changes nothing |
| `PendingInsertsDeletes.PendingInstanceInsertsAndDeletes.GetPendingDeletes` | src/main/java/com/google/jenkins/plugins/computeengine/PendingInstanceInsertsAndDeletes.java:145-147 | returns the current deletes and changes nothing |
| `CleanLostNodes.ShouldTerminateStatus` | src/main/java/com/google/jenkins/plugins/computeengine/CleanLostNodesWork.java:86-88 | an instance is a candidate exactly when its status is not `"STOPPING"` |
| `CleanLostNodes.IsOrphaned` | src/main/java/com/google/jenkins/plugins/computeengine/CleanLostNodesWork.java:61-65 | an instance is orphaned exactly when no node has its name |
| `CleanLostNodes.NodeSet` | src/main/java/com/google/jenkins/plugins/computeengine/CleanLostNodesWork.java:54 | the collected set holds exactly the cloud's node names |
| `CleanLostNodes.Orphans` | src/main/java/com/google/jenkins/plugins/computeengine/CleanLostNodesWork.java:55-57 | the subsequence of the cloud's instances that are not `"STOPPING"` and have no node of their name, each kept instance as often as it is listed |
| `CleanLostNodes.ChainedFiltersSelectOrphans` | src/main/java/com/google/jenkins/plugins/computeengine/CleanLostNodesWork.java:56-57 | the status filter followed by the orphan filter keeps the same instances, in the same order, as the combined test |
| `CleanLostNodes.TerminateCallsExactly` | src/main/java/com/google/jenkins/plugins/computeengine/CleanLostNodesWork.java:51-76 | a request is sent for a cloud exactly when it carries the cloud's project and the zone and name of a non-stopping instance with no node of its name |
| `CleanLostNodes.TerminateInstance` | src/main/java/com/google/jenkins/plugins/computeengine/CleanLostNodesWork.java:67-77 | sends the request with the cloud's project and the instance's zone and name, and returns the client's answer instead of raising it |
| `CleanLostNodes.CleanCloud` | src/main/java/com/google/jenkins/plugins/computeengine/CleanLostNodesWork.java:51-59 | sends one request per orphan, in stream order, whatever the client answers; reports exactly the requests that failed |
| `CleanLostNodes.GetClouds` | src/main/java/com/google/jenkins/plugins/computeengine/CleanLostNodesWork.java:79-84 | position by position, the filter of the list on the Compute Engine kind, so order and repetitions are kept; a cloud is in the result exactly when it is listed |
| `CleanLostNodes.OtherCloudIsSkipped` | src/main/java/com/google/jenkins/plugins/computeengine/CleanLostNodesWork.java:81 | a cloud of another kind contributes nothing |
| `CleanLostNodes.DoRunCallsExactly` | src/main/java/com/google/jenkins/plugins/computeengine/CleanLostNodesWork.java:46-49 | a run sends a request exactly when some Compute Engine cloud among the clouds sends it |
| `CleanLostNodes.DoRun` | src/main/java/com/google/jenkins/plugins/computeengine/CleanLostNodesWork.java:46-49 | sends the sweeps of the Compute Engine clouds one after another and reports exactly the failed requests |

## Left out

- Logging (`log.fine`, `log.warning`, `logger.log`) and the building of log messages are left out. They have no behavioural content. The completed-name lists that feed the log lines are returned from `RemoveCompleted` and `Refresh`.
- The Compute Engine API calls are left out as calls. `getZoneOperation`/`cloud.getCompute()` is a function parameter giving the provider's answer per (zone, operation id), fixed for the duration of one poll. The project id it also carries is fixed per cloud.
- The terminate client is a function parameter. `getAllInstances` and `getAllNodes` are fields of the cloud record, so their own failures are not modelled.
- Jenkins plumbing is left out: `PeriodicWork` scheduling, `getRecurrencePeriod` (one hour) and the `@Extension`/`@Symbol` registration. `Jenkins.get().clouds` is an input list.
- Concurrency is left out. There is no synchronisation in the source. Races on the static counters and on the set fields are not modelled.
- Unchecked exceptions are left out. A `RuntimeException` from the status query is not caught by the source, and only the `IOException` path is modelled. A `null` status is not modelled either.
- `CLOUD_PREFIX` and `CLOUD_ID_LABEL_KEY` are stored by the constructor but never used. The model keeps them as fields only.
- `maxNumInstancesToCreate` is compared with a `long` count. The model compares unbounded integers, which agree for every list that fits in memory.
- OperationTracker.InstanceOperationTracker.Add, OperationTracker.InstanceOperationTracker.Get, PendingInsertsDeletes.PendingInstanceInsertsAndDeletes.EnqueueInsert, PendingInsertsDeletes.PendingInstanceInsertsAndDeletes.EnqueueDelete, PendingInsertsDeletes.PendingInstanceInsertsAndDeletes.GetPendingInserts and PendingInsertsDeletes.PendingInstanceInsertsAndDeletes.GetPendingDeletes: the sets are values in the model. It does not capture that the source adds to the set object in place and that the getters hand out that live object, so that a set obtained earlier sees later additions and a caller can change the tracker through it.
- The iteration order of a Java `HashSet` is unspecified. `CompletedOperations` and `CompletedNames` choose the order arbitrarily, and their contracts hold for every order.
- Prioritizer.FreshCapacityRoundRobin: stated only from a non-negative counter with c + k at most `Integer.MAX_VALUE`. It does not cover a run in which the counter wraps around, because after the wrap the pick follows `Math.abs` of a negative counter rather than c + j.
- Prioritizer.TwoConfigsShareEvenly: stated for two configurations only, not for n; for n that does not divide 2^31 the wrap to the least `int` throws instead.
- Prioritizer.RepeatNthCall: stated under the same non-wrapping bound.
