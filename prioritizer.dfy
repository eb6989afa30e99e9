/**
 * The configuration/instance allocator (InstanceConfigurationPrioritizer).
 *
 * Given the eligible configurations, all known instances and the idle
 * ("provisionable") instances, it first tries to reuse an idle instance
 * labelled for some configuration, and otherwise picks a configuration that
 * still has spare capacity. Choices go round-robin over two process-wide
 * `int` counters, which wrap around like Java's 32-bit `int`.
 */
module Prioritizer {
  import opened JavaInt
  import opened Seqs
  import opened Compute

  datatype Option<T> = None | Some(value: T)

  /** A worker template: instances it creates carry its name prefix in the
      configuration label. */
  datatype InstanceConfiguration = InstanceConfiguration(namePrefix: string, maxNumInstancesToCreate: int)

  /** What a missing configuration label reads as. */
  const NoConfigLabel: string := "<no config label key found>"

  /** The instance's configuration label, or the placeholder when it has none. */
  function ConfigLabel(configLabelKey: string, instance: Instance): string
  {
    if configLabelKey in instance.labels then instance.labels[configLabelKey] else NoConfigLabel
  }

  /** The instance is associated with the configuration through its label. */
  predicate IsForConfig(configLabelKey: string, config: InstanceConfiguration, instance: Instance)
  {
    ConfigLabel(configLabelKey, instance) == config.namePrefix
  }

  /** Some instance of `instances` is labelled for `config`. */
  ghost predicate HasInstanceForConfig(configLabelKey: string, config: InstanceConfiguration, instances: seq<Instance>)
  {
    exists i :: i in instances && IsForConfig(configLabelKey, config, i)
  }

  /** How many instances of `instances` are labelled for `config`. */
  ghost function CountForConfig(configLabelKey: string, config: InstanceConfiguration, instances: seq<Instance>): nat
  {
    if instances == [] then 0
    else (if IsForConfig(configLabelKey, config, instances[0]) then 1 else 0)
         + CountForConfig(configLabelKey, config, instances[1..])
  }

  /** The configuration may still create one more instance. */
  ghost predicate HasSpareCapacity(configLabelKey: string, config: InstanceConfiguration, instances: seq<Instance>)
  {
    config.maxNumInstancesToCreate > CountForConfig(configLabelKey, config, instances)
  }

  /** The instances labelled for `config`, in order and with repetitions. */
  function FilterInstancesForConfig(configLabelKey: string, config: InstanceConfiguration, instances: seq<Instance>): (r: seq<Instance>)
    ensures IsSubsequence(r, instances)
    ensures forall i | i in instances ::
      multiset(r)[i] == if IsForConfig(configLabelKey, config, i) then multiset(instances)[i] else 0
    ensures forall i | i in r :: i in instances && IsForConfig(configLabelKey, config, i)
  {
    Filter(i => IsForConfig(configLabelKey, config, i), instances)
  }

  /** An instance with no configuration label is associated exactly with a
      configuration whose prefix is the placeholder text. */
  lemma UnlabelledInstanceMatchesOnlyPlaceholder(configLabelKey: string, config: InstanceConfiguration, instance: Instance)
    requires configLabelKey !in instance.labels
    ensures IsForConfig(configLabelKey, config, instance) <==> config.namePrefix == NoConfigLabel
  {
  }

  /** The filter finds something exactly when some instance is labelled for
      the configuration. */
  lemma FilterNonEmptyIff(configLabelKey: string, config: InstanceConfiguration, instances: seq<Instance>)
    ensures FilterInstancesForConfig(configLabelKey, config, instances) != []
            <==> HasInstanceForConfig(configLabelKey, config, instances)
  {
    var r := FilterInstancesForConfig(configLabelKey, config, instances);
    if r != [] {
      assert r[0] in r;
    }
  }

  /** The length of the filtered stream, which the source counts, is the
      number of labelled instances. */
  lemma {:induction false} FilterCount(configLabelKey: string, config: InstanceConfiguration, instances: seq<Instance>)
    ensures |FilterInstancesForConfig(configLabelKey, config, instances)| == CountForConfig(configLabelKey, config, instances)
    decreases |instances|
  {
    if instances != [] {
      FilterCount(configLabelKey, config, instances[1..]);
    }
  }

  /** The configurations, in order, that have at least one provisionable
      instance labelled for them. */
  function GetConfigsWithProvisionableInstances(configLabelKey: string, configs: seq<InstanceConfiguration>, provisionableInstances: seq<Instance>): (r: seq<InstanceConfiguration>)
    ensures IsSubsequence(r, configs)
    ensures forall c | c in configs ::
      multiset(r)[c] == if HasInstanceForConfig(configLabelKey, c, provisionableInstances) then multiset(configs)[c] else 0
    ensures forall c | c in r :: c in configs && HasInstanceForConfig(configLabelKey, c, provisionableInstances)
    ensures r == [] <==> forall c | c in configs :: !HasInstanceForConfig(configLabelKey, c, provisionableInstances)
  {
    forall c: InstanceConfiguration {
      FilterNonEmptyIff(configLabelKey, c, provisionableInstances);
    }
    FilterEmptyIff(c => FilterInstancesForConfig(configLabelKey, c, provisionableInstances) != [], configs);
    Filter(c => FilterInstancesForConfig(configLabelKey, c, provisionableInstances) != [], configs)
  }

  /** The provisionable instances labelled for `config`, in order. */
  function GetProvisionableInstancesForConfig(configLabelKey: string, config: InstanceConfiguration, provisionableInstances: seq<Instance>): (r: seq<Instance>)
    ensures IsSubsequence(r, provisionableInstances)
    ensures forall i | i in provisionableInstances ::
      multiset(r)[i] == if IsForConfig(configLabelKey, config, i) then multiset(provisionableInstances)[i] else 0
    ensures forall i | i in r :: i in provisionableInstances && IsForConfig(configLabelKey, config, i)
  {
    FilterInstancesForConfig(configLabelKey, config, provisionableInstances)
  }

  /** The configurations, in order, whose maximum exceeds the number of
      instances labelled for them. */
  function GetConfigsWithSpareCapacity(configLabelKey: string, configs: seq<InstanceConfiguration>, instances: seq<Instance>): (r: seq<InstanceConfiguration>)
    ensures IsSubsequence(r, configs)
    ensures forall c | c in configs ::
      multiset(r)[c] == if HasSpareCapacity(configLabelKey, c, instances) then multiset(configs)[c] else 0
    ensures forall c | c in r :: c in configs && HasSpareCapacity(configLabelKey, c, instances)
    ensures r == [] <==> forall c | c in configs :: !HasSpareCapacity(configLabelKey, c, instances)
  {
    forall c: InstanceConfiguration {
      FilterCount(configLabelKey, c, instances);
    }
    var p := (c: InstanceConfiguration) => c.maxNumInstancesToCreate > |FilterInstancesForConfig(configLabelKey, c, instances)|;
    FilterEmptyIff(p, configs);
    Filter(p, configs)
  }

  /** A configuration offered for reuse always has a matching instance, so
      the emptiness test that follows its choice never fails. */
  lemma TentativeConfigHasInstances(configLabelKey: string, configs: seq<InstanceConfiguration>, provisionableInstances: seq<Instance>, config: InstanceConfiguration)
    requires config in GetConfigsWithProvisionableInstances(configLabelKey, configs, provisionableInstances)
    ensures GetProvisionableInstancesForConfig(configLabelKey, config, provisionableInstances) != []
  {
    FilterNonEmptyIff(configLabelKey, config, provisionableInstances);
  }

  // ---------------------------------------------------------------------
  // Round-robin choice

  /** `Math.abs(counter) % size`, with Java's wrap-around and truncation. */
  function RoundRobinIndex(counter: Int32, size: int): (index: int)
    requires 0 < size
    ensures -size < index < size
    ensures index < 0 ==> counter == MinValue
  {
    Rem(Abs(counter), size)
  }

  /** The index lies in the list exactly when the counter is not the least
      `int`, or the size divides 2^31; away from the least `int` it is the
      counter's magnitude modulo the size. */
  lemma RoundRobinIndexInBounds(counter: Int32, size: int)
    requires 0 < size
    ensures 0 <= RoundRobinIndex(counter, size) < size <==> counter != MinValue || 0x8000_0000 % size == 0
    ensures counter != MinValue ==> RoundRobinIndex(counter, size) == (if counter < 0 then -counter else counter) % size
  {
  }

  /** The overflow guard is incomplete: at the least `int` and three
      candidates the index is negative and `List.get` throws. */
  lemma MinValueIndexOutOfBounds()
    ensures RoundRobinIndex(MinValue, 3) == -2
  {
  }

  /** The outcome of `list.get(Math.abs(counter) % list.size())`. */
  datatype Pick<T> = Picked(value: T) | IndexOutOfBounds(index: int)

  function PickRoundRobin<T>(s: seq<T>, counter: Int32): (r: Pick<T>)
    requires |s| > 0
    ensures r.Picked? ==> r.value in s
    ensures r.IndexOutOfBounds? ==> counter == MinValue && r.index < 0
  {
    RoundRobinIndexInBounds(counter, |s|);
    var index := RoundRobinIndex(counter, |s|);
    if 0 <= index < |s| then Picked(s[index]) else IndexOutOfBounds(index)
  }

  /** Away from the least `int`, the pick is the element at the counter's
      magnitude modulo the length. */
  lemma PickRoundRobinAt<T>(s: seq<T>, counter: Int32)
    requires |s| > 0 && counter != MinValue
    ensures PickRoundRobin(s, counter) == Picked(s[(if counter < 0 then -counter else counter) % |s|])
  {
    RoundRobinIndexInBounds(counter, |s|);
  }

  // ---------------------------------------------------------------------
  // The allocation decision

  /** A configuration to use, and the idle instance to reuse or none when a
      new instance is to be created. */
  datatype ConfigAndInstance = ConfigAndInstance(config: InstanceConfiguration, instance: Option<Instance>)

  /** The result of an allocation call: a choice, `null` (no suitable
      configuration), or the IndexOutOfBoundsException of a negative index. */
  datatype Allocation = Allocated(choice: ConfigAndInstance) | NoSuitableConfig | OutOfBounds(index: int)

  /** An allocation result together with the counters it leaves behind. */
  datatype AllocationStep = AllocationStep(result: Allocation, configsNext: Int32, instancesNext: Int32)

  /** Phase B: a configuration with spare capacity, no instance. */
  function SpareCapacityPhase(configLabelKey: string, configsNext: Int32, instancesNext: Int32,
                              configs: seq<InstanceConfiguration>, allInstances: seq<Instance>): (r: AllocationStep)
    ensures r.result.NoSuitableConfig? <==> GetConfigsWithSpareCapacity(configLabelKey, configs, allInstances) == []
    ensures r.configsNext == if r.result.NoSuitableConfig? then configsNext else PostIncrement(configsNext)
    ensures r.instancesNext == instancesNext
    ensures r.result.Allocated? ==>
      r.result.choice.instance == None && r.result.choice.config in GetConfigsWithSpareCapacity(configLabelKey, configs, allInstances)
    ensures r.result.OutOfBounds? ==> r.result.index < 0 && configsNext == MinValue
  {
    var spare := GetConfigsWithSpareCapacity(configLabelKey, configs, allInstances);
    if spare != [] then
      match PickRoundRobin(spare, configsNext)
      case IndexOutOfBounds(index) => AllocationStep(OutOfBounds(index), PostIncrement(configsNext), instancesNext)
      case Picked(config) => AllocationStep(Allocated(ConfigAndInstance(config, None)), PostIncrement(configsNext), instancesNext)
    else
      AllocationStep(NoSuitableConfig, configsNext, instancesNext)
  }

  /** One allocation call from the given counters: phase A (reuse an idle
      instance), falling through to phase B. */
  function Allocate(configLabelKey: string, configsNext: Int32, instancesNext: Int32,
                    configs: seq<InstanceConfiguration>, allInstances: seq<Instance>,
                    provisionableInstances: seq<Instance>): (r: AllocationStep)
    ensures r.configsNext == configsNext || r.configsNext == PostIncrement(configsNext)
    ensures r.instancesNext == instancesNext || r.instancesNext == PostIncrement(instancesNext)
  {
    var withInstances := GetConfigsWithProvisionableInstances(configLabelKey, configs, provisionableInstances);
    if provisionableInstances != [] && withInstances != [] then
      var configsNext' := PostIncrement(configsNext);
      match PickRoundRobin(withInstances, configsNext)
      case IndexOutOfBounds(index) => AllocationStep(OutOfBounds(index), configsNext', instancesNext)
      case Picked(tentative) =>
        var forConfig := GetProvisionableInstancesForConfig(configLabelKey, tentative, provisionableInstances);
        if forConfig != [] then
          var instancesNext' := PostIncrement(instancesNext);
          match PickRoundRobin(forConfig, instancesNext)
          case IndexOutOfBounds(index) => AllocationStep(OutOfBounds(index), configsNext', instancesNext')
          case Picked(instance) =>
            AllocationStep(Allocated(ConfigAndInstance(tentative, Some(instance))), configsNext', instancesNext')
        else
          SpareCapacityPhase(configLabelKey, configsNext', instancesNext, configs, allInstances)
    else
      SpareCapacityPhase(configLabelKey, configsNext, instancesNext, configs, allInstances)
  }

  /** Phase A only runs out of candidates by running into an index out of
      bounds: a picked configuration always has an idle instance. */
  lemma PhaseAChoosesInstance(configLabelKey: string, configsNext: Int32, instancesNext: Int32,
                              configs: seq<InstanceConfiguration>, allInstances: seq<Instance>,
                              provisionableInstances: seq<Instance>)
    requires exists c :: c in configs && HasInstanceForConfig(configLabelKey, c, provisionableInstances)
    ensures var step := Allocate(configLabelKey, configsNext, instancesNext, configs, allInstances, provisionableInstances);
      step.configsNext == PostIncrement(configsNext)
      && (step.result.OutOfBounds? || (step.result.Allocated? && step.result.choice.instance.Some?))
  {
    var c :| c in configs && HasInstanceForConfig(configLabelKey, c, provisionableInstances);
    var withInstances := GetConfigsWithProvisionableInstances(configLabelKey, configs, provisionableInstances);
    assert withInstances != [];
    assert provisionableInstances != [];
    var step := Allocate(configLabelKey, configsNext, instancesNext, configs, allInstances, provisionableInstances);
    match PickRoundRobin(withInstances, configsNext)
    case IndexOutOfBounds(index) =>
      assert step == AllocationStep(OutOfBounds(index), PostIncrement(configsNext), instancesNext);
    case Picked(tentative) =>
      TentativeConfigHasInstances(configLabelKey, configs, provisionableInstances, tentative);
      var forConfig := GetProvisionableInstancesForConfig(configLabelKey, tentative, provisionableInstances);
      assert forConfig != [];
      match PickRoundRobin(forConfig, instancesNext)
      case IndexOutOfBounds(index) =>
        assert step == AllocationStep(OutOfBounds(index), PostIncrement(configsNext), PostIncrement(instancesNext));
      case Picked(instance) =>
        assert step == AllocationStep(Allocated(ConfigAndInstance(tentative, Some(instance))),
                                      PostIncrement(configsNext), PostIncrement(instancesNext));
  }

  /** When no configuration has an idle instance, the call is phase B alone. */
  lemma NoReuseMeansSpareCapacityPhase(configLabelKey: string, configsNext: Int32, instancesNext: Int32,
                                       configs: seq<InstanceConfiguration>, allInstances: seq<Instance>,
                                       provisionableInstances: seq<Instance>)
    requires forall c | c in configs :: !HasInstanceForConfig(configLabelKey, c, provisionableInstances)
    ensures Allocate(configLabelKey, configsNext, instancesNext, configs, allInstances, provisionableInstances)
            == SpareCapacityPhase(configLabelKey, configsNext, instancesNext, configs, allInstances)
  {
  }

  /** A reuse result names one of the given configurations and one of the
      idle instances labelled for it; both counters advance by one. */
  lemma ReuseChoiceIsLabelledInstance(configLabelKey: string, configsNext: Int32, instancesNext: Int32,
                                      configs: seq<InstanceConfiguration>, allInstances: seq<Instance>,
                                      provisionableInstances: seq<Instance>)
    ensures var step := Allocate(configLabelKey, configsNext, instancesNext, configs, allInstances, provisionableInstances);
      step.result.Allocated? && step.result.choice.instance.Some? ==>
        && step.result.choice.config in configs
        && step.result.choice.instance.value in provisionableInstances
        && IsForConfig(configLabelKey, step.result.choice.config, step.result.choice.instance.value)
        && step.configsNext == PostIncrement(configsNext)
        && step.instancesNext == PostIncrement(instancesNext)
  {
    var withInstances := GetConfigsWithProvisionableInstances(configLabelKey, configs, provisionableInstances);
    if provisionableInstances != [] && withInstances != [] {
      match PickRoundRobin(withInstances, configsNext)
      case IndexOutOfBounds(_) =>
      case Picked(tentative) =>
        var forConfig := GetProvisionableInstancesForConfig(configLabelKey, tentative, provisionableInstances);
        if forConfig != [] {
          match PickRoundRobin(forConfig, instancesNext)
          case IndexOutOfBounds(_) =>
          case Picked(instance) =>
            assert instance in forConfig;
        }
    }
  }

  /** A result without an instance comes only when no configuration has an
      idle instance; its configuration has spare capacity with respect to all
      instances, and only the configuration counter advances. */
  lemma FreshChoiceHasSpareCapacity(configLabelKey: string, configsNext: Int32, instancesNext: Int32,
                                    configs: seq<InstanceConfiguration>, allInstances: seq<Instance>,
                                    provisionableInstances: seq<Instance>)
    ensures var step := Allocate(configLabelKey, configsNext, instancesNext, configs, allInstances, provisionableInstances);
      step.result.Allocated? && step.result.choice.instance.None? ==>
        && (forall c | c in configs :: !HasInstanceForConfig(configLabelKey, c, provisionableInstances))
        && step.result.choice.config in configs
        && HasSpareCapacity(configLabelKey, step.result.choice.config, allInstances)
        && step.configsNext == PostIncrement(configsNext)
        && step.instancesNext == instancesNext
  {
    if exists c :: c in configs && HasInstanceForConfig(configLabelKey, c, provisionableInstances) {
      PhaseAChoosesInstance(configLabelKey, configsNext, instancesNext, configs, allInstances, provisionableInstances);
    } else {
      NoReuseMeansSpareCapacityPhase(configLabelKey, configsNext, instancesNext, configs, allInstances, provisionableInstances);
    }
  }

  /** The call answers "no suitable configuration" exactly when no
      configuration has an idle instance and none has spare capacity, and
      then it leaves both counters as they were. */
  lemma NoSuitableConfigIff(configLabelKey: string, configsNext: Int32, instancesNext: Int32,
                            configs: seq<InstanceConfiguration>, allInstances: seq<Instance>,
                            provisionableInstances: seq<Instance>)
    ensures var step := Allocate(configLabelKey, configsNext, instancesNext, configs, allInstances, provisionableInstances);
      && (step.result == NoSuitableConfig <==>
            forall c | c in configs :: !HasInstanceForConfig(configLabelKey, c, provisionableInstances)
                                    && !HasSpareCapacity(configLabelKey, c, allInstances))
      && (step.result == NoSuitableConfig ==> step.configsNext == configsNext && step.instancesNext == instancesNext)
  {
    if exists c :: c in configs && HasInstanceForConfig(configLabelKey, c, provisionableInstances) {
      PhaseAChoosesInstance(configLabelKey, configsNext, instancesNext, configs, allInstances, provisionableInstances);
    } else {
      NoReuseMeansSpareCapacityPhase(configLabelKey, configsNext, instancesNext, configs, allInstances, provisionableInstances);
    }
  }

  /** The index-out-of-bounds exception needs a counter at the least `int`;
      otherwise every call returns normally. */
  lemma OutOfBoundsOnlyAtMinValue(configLabelKey: string, configsNext: Int32, instancesNext: Int32,
                                  configs: seq<InstanceConfiguration>, allInstances: seq<Instance>,
                                  provisionableInstances: seq<Instance>)
    ensures var step := Allocate(configLabelKey, configsNext, instancesNext, configs, allInstances, provisionableInstances);
      step.result.OutOfBounds? ==> step.result.index < 0 && (configsNext == MinValue || instancesNext == MinValue)
  {
    var withInstances := GetConfigsWithProvisionableInstances(configLabelKey, configs, provisionableInstances);
    if provisionableInstances != [] && withInstances != [] {
      match PickRoundRobin(withInstances, configsNext)
      case IndexOutOfBounds(_) =>
      case Picked(tentative) =>
        var forConfig := GetProvisionableInstancesForConfig(configLabelKey, tentative, provisionableInstances);
        if forConfig != [] {
          var pick := PickRoundRobin(forConfig, instancesNext);
        }
    }
  }

  /** With no idle instance to reuse, a call picks the spare-capacity
      configuration at the configuration counter and advances only it. */
  lemma FreshCapacityStep(configLabelKey: string, configsNext: Int32, instancesNext: Int32,
                          configs: seq<InstanceConfiguration>, allInstances: seq<Instance>,
                          provisionableInstances: seq<Instance>)
    requires GetConfigsWithProvisionableInstances(configLabelKey, configs, provisionableInstances) == []
    requires GetConfigsWithSpareCapacity(configLabelKey, configs, allInstances) != []
    requires 0 <= configsNext
    ensures var spare := GetConfigsWithSpareCapacity(configLabelKey, configs, allInstances);
      Allocate(configLabelKey, configsNext, instancesNext, configs, allInstances, provisionableInstances)
      == AllocationStep(Allocated(ConfigAndInstance(spare[configsNext % |spare|], None)),
                        PostIncrement(configsNext), instancesNext)
  {
    NoReuseMeansSpareCapacityPhase(configLabelKey, configsNext, instancesNext, configs, allInstances, provisionableInstances);
    PickRoundRobinAt(GetConfigsWithSpareCapacity(configLabelKey, configs, allInstances), configsNext);
  }

  /** The results of `k` successive calls of `call`, each starting from the
      counters the previous one left behind. */
  function Repeat(call: (Int32, Int32) -> AllocationStep, configsNext: Int32, instancesNext: Int32, k: nat): seq<Allocation>
    decreases k
  {
    if k == 0 then []
    else
      var step := call(configsNext, instancesNext);
      [step.result] + Repeat(call, step.configsNext, step.instancesNext, k - 1)
  }

  /** One allocation call with the inputs fixed and the counters open. */
  function AllocationCall(configLabelKey: string, configs: seq<InstanceConfiguration>, allInstances: seq<Instance>,
                          provisionableInstances: seq<Instance>): (Int32, Int32) -> AllocationStep
  {
    (configsNext: Int32, instancesNext: Int32) =>
      Allocate(configLabelKey, configsNext, instancesNext, configs, allInstances, provisionableInstances)
  }

  /** The results of `k` successive allocation calls with unchanged inputs. */
  function RepeatedAllocations(configLabelKey: string, configsNext: Int32, instancesNext: Int32,
                               configs: seq<InstanceConfiguration>, allInstances: seq<Instance>,
                               provisionableInstances: seq<Instance>, k: nat): seq<Allocation>
  {
    Repeat(AllocationCall(configLabelKey, configs, allInstances, provisionableInstances), configsNext, instancesNext, k)
  }

  /** A call that picks from `spare` at its configuration counter. */
  ghost predicate PicksRoundRobin(call: (Int32, Int32) -> AllocationStep, spare: seq<InstanceConfiguration>, instancesNext: Int32)
    requires |spare| > 0
  {
    forall c: Int32 | 0 <= c ::
      call(c, instancesNext) == AllocationStep(Allocated(ConfigAndInstance(spare[c % |spare|], None)), PostIncrement(c), instancesNext)
  }

  /** Call `j` of `k` repeated round-robin calls picks the element at
      `(c + j) mod n`, as long as the counter does not overflow. */
  lemma {:induction false} RepeatNthCall(call: (Int32, Int32) -> AllocationStep, spare: seq<InstanceConfiguration>,
                                         configsNext: Int32, instancesNext: Int32, k: nat, j: nat)
    requires |spare| > 0 && PicksRoundRobin(call, spare, instancesNext)
    requires 0 <= configsNext && configsNext + k <= MaxValue && j < k
    ensures |Repeat(call, configsNext, instancesNext, k)| == k
    ensures Repeat(call, configsNext, instancesNext, k)[j]
            == Allocated(ConfigAndInstance(spare[(configsNext + j) % |spare|], None))
    decreases k
  {
    var results := Repeat(call, configsNext, instancesNext, k);
    assert call(configsNext, instancesNext).configsNext == configsNext + 1;
    var rest := Repeat(call, configsNext + 1, instancesNext, k - 1);
    assert results == [results[0]] + rest;
    if j > 0 {
      RepeatNthCall(call, spare, configsNext + 1, instancesNext, k - 1, j - 1);
      assert configsNext + 1 + (j - 1) == configsNext + j;
    } else if k > 1 {
      RepeatNthCall(call, spare, configsNext + 1, instancesNext, k - 1, 0);
    }
  }

  /** A sequence that alternates between two distinct values holds each of
      them half of its length times, rounded down or up. */
  lemma {:induction false} AlternatingSharesEvenly<T>(s: seq<T>, values: seq<T>, start: nat, t: nat)
    requires |values| == 2 && values[0] != values[1] && t < 2
    requires forall j | 0 <= j < |s| :: s[j] == values[(start + j) % 2]
    ensures var count := multiset(s)[values[t]];
      |s| <= 2 * count + 1 && 2 * count <= |s| + 1
    decreases |s|
  {
    if |s| == 1 {
      assert s == [s[0]];
    } else if |s| >= 2 {
      assert s[0] == values[start % 2] && s[1] == values[(start + 1) % 2];
      assert (s[0] == values[t]) != (s[1] == values[t]);
      assert s == [s[0], s[1]] + s[2..];
      assert multiset(s)[values[t]] == multiset(s[2..])[values[t]] + 1;
      forall j | 0 <= j < |s[2..]|
        ensures s[2..][j] == values[(start + 2 + j) % 2]
      {
        assert s[2..][j] == s[j + 2];
      }
      AlternatingSharesEvenly(s[2..], values, start + 2, t);
    }
  }

  /** With no idle instance to reuse, the allocation call picks round-robin
      among the configurations with spare capacity. */
  lemma AllocationCallPicksSpare(configLabelKey: string, instancesNext: Int32,
                                 configs: seq<InstanceConfiguration>, allInstances: seq<Instance>,
                                 provisionableInstances: seq<Instance>)
    requires GetConfigsWithProvisionableInstances(configLabelKey, configs, provisionableInstances) == []
    requires GetConfigsWithSpareCapacity(configLabelKey, configs, allInstances) != []
    ensures PicksRoundRobin(AllocationCall(configLabelKey, configs, allInstances, provisionableInstances),
                            GetConfigsWithSpareCapacity(configLabelKey, configs, allInstances), instancesNext)
  {
    forall c: Int32 | 0 <= c
      ensures AllocationCall(configLabelKey, configs, allInstances, provisionableInstances)(c, instancesNext)
              == Allocate(configLabelKey, c, instancesNext, configs, allInstances, provisionableInstances)
    {
    }
    forall c: Int32 | 0 <= c {
      FreshCapacityStep(configLabelKey, c, instancesNext, configs, allInstances, provisionableInstances);
    }
  }

  /** Repeated phase-B calls over the same eligible configurations, from a
      non-negative counter that does not overflow, cycle through them:
      call `j` picks the configuration at `(c + j) mod n`. */
  lemma FreshCapacityRoundRobin(configLabelKey: string, configsNext: Int32, instancesNext: Int32,
                                configs: seq<InstanceConfiguration>, allInstances: seq<Instance>,
                                provisionableInstances: seq<Instance>, k: nat)
    requires GetConfigsWithProvisionableInstances(configLabelKey, configs, provisionableInstances) == []
    requires GetConfigsWithSpareCapacity(configLabelKey, configs, allInstances) != []
    requires 0 <= configsNext && configsNext + k <= MaxValue
    ensures var spare := GetConfigsWithSpareCapacity(configLabelKey, configs, allInstances);
      var results := RepeatedAllocations(configLabelKey, configsNext, instancesNext, configs, allInstances, provisionableInstances, k);
      && |results| == k
      && forall j | 0 <= j < k :: results[j] == Allocated(ConfigAndInstance(spare[(configsNext + j) % |spare|], None))
  {
    var spare := GetConfigsWithSpareCapacity(configLabelKey, configs, allInstances);
    var call := AllocationCall(configLabelKey, configs, allInstances, provisionableInstances);
    AllocationCallPicksSpare(configLabelKey, instancesNext, configs, allInstances, provisionableInstances);
    if k > 0 {
      RepeatNthCall(call, spare, configsNext, instancesNext, k, 0);
    }
    forall j | 0 <= j < k
      ensures Repeat(call, configsNext, instancesNext, k)[j] == Allocated(ConfigAndInstance(spare[(configsNext + j) % |spare|], None))
    {
      RepeatNthCall(call, spare, configsNext, instancesNext, k, j);
    }
  }

  /** Fresh allocations that cycle through two distinct configurations
      pick each of them half of the time, rounded down or up. */
  lemma RoundRobinSharesEvenly(results: seq<Allocation>, spare: seq<InstanceConfiguration>, start: nat)
    requires |spare| == 2 && spare[0] != spare[1]
    requires forall j | 0 <= j < |results| :: results[j] == Allocated(ConfigAndInstance(spare[(start + j) % |spare|], None))
    ensures forall t | 0 <= t < 2 ::
      var picks := multiset(results)[Allocated(ConfigAndInstance(spare[t], None))];
      |results| <= 2 * picks + 1 && 2 * picks <= |results| + 1
  {
    var values := [Allocated(ConfigAndInstance(spare[0], None)), Allocated(ConfigAndInstance(spare[1], None))];
    forall j | 0 <= j < |results|
      ensures results[j] == values[(start + j) % 2]
    {
    }
    forall t | 0 <= t < 2
      ensures var picks := multiset(results)[Allocated(ConfigAndInstance(spare[t], None))];
        |results| <= 2 * picks + 1 && 2 * picks <= |results| + 1
    {
      assert values[t] == Allocated(ConfigAndInstance(spare[t], None));
      AlternatingSharesEvenly(results, values, start, t);
    }
  }

  /** Over two candidates the index alternates at every increment of the
      counter, across the wrap from the greatest to the least `int` too:
      2 divides 2^31, so the least `int` still gives index 0. */
  lemma RoundRobinIndexAlternates(counter: Int32)
    ensures 0 <= RoundRobinIndex(counter, 2) < 2
    ensures RoundRobinIndex(PostIncrement(counter), 2) == 1 - RoundRobinIndex(counter, 2)
  {
    RoundRobinIndexInBounds(counter, 2);
    RoundRobinIndexInBounds(PostIncrement(counter), 2);
  }

  /** A call that picks from two configurations at its configuration
      counter, for every counter value. */
  ghost predicate AlternatesBetween(call: (Int32, Int32) -> AllocationStep, spare: seq<InstanceConfiguration>, instancesNext: Int32)
    requires |spare| == 2
  {
    forall c: Int32 ::
      call(c, instancesNext) == AllocationStep(Allocated(ConfigAndInstance(spare[RoundRobinIndex(c, 2)], None)),
                                               PostIncrement(c), instancesNext)
  }

  /** Call `j` of `k` repeated calls that alternate between two
      configurations picks the one at `(i + j) mod 2`, where `i` is the
      index of the first call; wrap-around included. */
  lemma {:induction false} RepeatAlternates(call: (Int32, Int32) -> AllocationStep, spare: seq<InstanceConfiguration>,
                                            configsNext: Int32, instancesNext: Int32, k: nat, j: nat)
    requires |spare| == 2 && AlternatesBetween(call, spare, instancesNext)
    requires j < k
    ensures 0 <= RoundRobinIndex(configsNext, 2) < 2
    ensures |Repeat(call, configsNext, instancesNext, k)| == k
    ensures Repeat(call, configsNext, instancesNext, k)[j]
            == Allocated(ConfigAndInstance(spare[(RoundRobinIndex(configsNext, 2) + j) % 2], None))
    decreases k
  {
    RoundRobinIndexAlternates(configsNext);
    var next := PostIncrement(configsNext);
    assert call(configsNext, instancesNext).configsNext == next;
    var rest := Repeat(call, next, instancesNext, k - 1);
    assert Repeat(call, configsNext, instancesNext, k) == [Repeat(call, configsNext, instancesNext, k)[0]] + rest;
    if j > 0 {
      RepeatAlternates(call, spare, next, instancesNext, k - 1, j - 1);
      assert (RoundRobinIndex(next, 2) + (j - 1)) % 2 == (RoundRobinIndex(configsNext, 2) + j) % 2;
    } else if k > 1 {
      RepeatAlternates(call, spare, next, instancesNext, k - 1, 0);
    }
  }

  /** With nothing to reuse and two configurations with spare capacity, the
      allocation call alternates between them. */
  lemma AllocationCallAlternates(configLabelKey: string, instancesNext: Int32,
                                 configs: seq<InstanceConfiguration>, allInstances: seq<Instance>,
                                 provisionableInstances: seq<Instance>)
    requires GetConfigsWithProvisionableInstances(configLabelKey, configs, provisionableInstances) == []
    requires |GetConfigsWithSpareCapacity(configLabelKey, configs, allInstances)| == 2
    ensures AlternatesBetween(AllocationCall(configLabelKey, configs, allInstances, provisionableInstances),
                              GetConfigsWithSpareCapacity(configLabelKey, configs, allInstances), instancesNext)
  {
    var spare := GetConfigsWithSpareCapacity(configLabelKey, configs, allInstances);
    forall c: Int32
      ensures AllocationCall(configLabelKey, configs, allInstances, provisionableInstances)(c, instancesNext)
              == AllocationStep(Allocated(ConfigAndInstance(spare[RoundRobinIndex(c, 2)], None)), PostIncrement(c), instancesNext)
    {
      NoReuseMeansSpareCapacityPhase(configLabelKey, c, instancesNext, configs, allInstances, provisionableInstances);
      RoundRobinIndexAlternates(c);
      assert PickRoundRobin(spare, c) == Picked(spare[RoundRobinIndex(c, 2)]);
    }
  }

  /** Repeated calls that alternate between two distinct configurations
      pick each of them half of the time, rounded down or up. */
  lemma RepeatAlternatingSharesEvenly(call: (Int32, Int32) -> AllocationStep, spare: seq<InstanceConfiguration>,
                                      configsNext: Int32, instancesNext: Int32, k: nat)
    requires |spare| == 2 && spare[0] != spare[1] && AlternatesBetween(call, spare, instancesNext)
    ensures var results := Repeat(call, configsNext, instancesNext, k);
      forall t | 0 <= t < 2 ::
        var picks := multiset(results)[Allocated(ConfigAndInstance(spare[t], None))];
        k <= 2 * picks + 1 && 2 * picks <= k + 1
  {
    var results := Repeat(call, configsNext, instancesNext, k);
    RoundRobinIndexAlternates(configsNext);
    var start: nat := RoundRobinIndex(configsNext, 2);
    if k > 0 {
      RepeatAlternates(call, spare, configsNext, instancesNext, k, 0);
    }
    forall j | 0 <= j < |results|
      ensures results[j] == Allocated(ConfigAndInstance(spare[(start + j) % |spare|], None))
    {
      RepeatAlternates(call, spare, configsNext, instancesNext, k, j);
    }
    RoundRobinSharesEvenly(results, spare, start);
  }

  /** With two distinct eligible configurations and nothing to reuse, `k`
      successive calls from any counter, wrap-around included, pick each of
      them k/2 times, rounded down or up. */
  lemma TwoConfigsShareEvenly(configLabelKey: string, configsNext: Int32, instancesNext: Int32,
                              configs: seq<InstanceConfiguration>, allInstances: seq<Instance>,
                              provisionableInstances: seq<Instance>, k: nat)
    requires GetConfigsWithProvisionableInstances(configLabelKey, configs, provisionableInstances) == []
    requires var spare := GetConfigsWithSpareCapacity(configLabelKey, configs, allInstances);
      |spare| == 2 && spare[0] != spare[1]
    ensures var spare := GetConfigsWithSpareCapacity(configLabelKey, configs, allInstances);
      var results := RepeatedAllocations(configLabelKey, configsNext, instancesNext, configs, allInstances, provisionableInstances, k);
      forall t | 0 <= t < 2 ::
        var picks := multiset(results)[Allocated(ConfigAndInstance(spare[t], None))];
        k <= 2 * picks + 1 && 2 * picks <= k + 1
  {
    AllocationCallAlternates(configLabelKey, instancesNext, configs, allInstances, provisionableInstances);
    RepeatAlternatingSharesEvenly(AllocationCall(configLabelKey, configs, allInstances, provisionableInstances),
                                  GetConfigsWithSpareCapacity(configLabelKey, configs, allInstances), configsNext, instancesNext, k);
  }

  /** The process-wide round-robin counters (static fields in the source);
      every prioritizer shares one object of this class. */
  class RoundRobinCounters {
    var configsNext: Int32
    var instancesNext: Int32

    constructor ()
      ensures configsNext == 0 && instancesNext == 0
    {
      configsNext := 0;
      instancesNext := 0;
    }
  }

  class InstanceConfigurationPrioritizer {
    const cloudPrefix: string
    const configLabelKey: string
    const cloudIdLabelKey: string
    const counters: RoundRobinCounters

    constructor (cloudPrefix: string, configLabelKey: string, cloudIdLabelKey: string, counters: RoundRobinCounters)
      ensures this.cloudPrefix == cloudPrefix && this.configLabelKey == configLabelKey
      ensures this.cloudIdLabelKey == cloudIdLabelKey && this.counters == counters
    {
      this.cloudPrefix := cloudPrefix;
      this.configLabelKey := configLabelKey;
      this.cloudIdLabelKey := cloudIdLabelKey;
      this.counters := counters;
    }

    method ChooseConfigFromList(configs: seq<InstanceConfiguration>) returns (r: Pick<InstanceConfiguration>)
      requires |configs| > 0
      modifies counters
      ensures r == PickRoundRobin(configs, old(counters.configsNext))
      ensures counters.configsNext == PostIncrement(old(counters.configsNext))
      ensures counters.instancesNext == old(counters.instancesNext)
    {
      var index := RoundRobinIndex(counters.configsNext, |configs|);
      counters.configsNext := PostIncrement(counters.configsNext);
      if 0 <= index < |configs| {
        r := Picked(configs[index]);
      } else {
        r := IndexOutOfBounds(index);
      }
    }

    method ChooseInstanceFromList(instances: seq<Instance>) returns (r: Pick<Instance>)
      requires |instances| > 0
      modifies counters
      ensures r == PickRoundRobin(instances, old(counters.instancesNext))
      ensures counters.instancesNext == PostIncrement(old(counters.instancesNext))
      ensures counters.configsNext == old(counters.configsNext)
    {
      var index := RoundRobinIndex(counters.instancesNext, |instances|);
      counters.instancesNext := PostIncrement(counters.instancesNext);
      if 0 <= index < |instances| {
        r := Picked(instances[index]);
      } else {
        r := IndexOutOfBounds(index);
      }
    }

    method GetConfigAndInstance(configs: seq<InstanceConfiguration>, allInstances: seq<Instance>,
                                provisionableInstances: seq<Instance>) returns (r: Allocation)
      modifies counters
      ensures AllocationStep(r, counters.configsNext, counters.instancesNext)
              == Allocate(configLabelKey, old(counters.configsNext), old(counters.instancesNext),
                          configs, allInstances, provisionableInstances)
    {
      if provisionableInstances != [] {
        var withInstances := GetConfigsWithProvisionableInstances(configLabelKey, configs, provisionableInstances);
        if withInstances != [] {
          var tentative := ChooseConfigFromList(withInstances);
          match tentative
          case IndexOutOfBounds(index) =>
            return OutOfBounds(index);
          case Picked(tentativeConfig) =>
            var forConfig := GetProvisionableInstancesForConfig(configLabelKey, tentativeConfig, provisionableInstances);
            if forConfig != [] {
              var instance := ChooseInstanceFromList(forConfig);
              match instance
              case IndexOutOfBounds(index) =>
                return OutOfBounds(index);
              case Picked(chosen) =>
                return Allocated(ConfigAndInstance(tentativeConfig, Some(chosen)));
            }
        }
      }
      var spare := GetConfigsWithSpareCapacity(configLabelKey, configs, allInstances);
      if spare != [] {
        var config := ChooseConfigFromList(spare);
        match config
        case IndexOutOfBounds(index) =>
          return OutOfBounds(index);
        case Picked(chosen) =>
          return Allocated(ConfigAndInstance(chosen, None));
      }
      return NoSuitableConfig;
    }
  }
}
