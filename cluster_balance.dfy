/**
 * The cluster balance factor of `calculate_cluster_balance_factor`: for
 * each resource, the range (maximum minus minimum) of the hosts' usage
 * ratios `used / cap`; the factor is the weighted mean of `1 - range` over
 * the two resources, the prioritised one weighted `priority_weight` and the
 * other 1.
 */
module ClusterBalance {
  import opened Aggregates
  import opened Cluster

  /** The weight of the prioritised resource unless a caller passes one. */
  const DEFAULT_PRIORITY_WEIGHT: int := 10

  /** `host["cpu_used"] / host["cpu_cap"]` or `host["mem_used"] / host["mem_cap"]`. */
  function Ratio(host: Host, r: Resource): (ratio: real)
    requires Cap(host, r) != 0.0
    ensures Times(ratio, Cap(host, r)) == Used(host, r)
  {
    TimesQuotient(Cap(host, r), Used(host, r));
    Used(host, r) / Cap(host, r)
  }

  /** No host has a zero capacity (a division by zero otherwise). */
  predicate CapsNonZero(hosts: map<string, Host>)
  {
    forall name :: name in hosts ==> hosts[name].cpuCap != 0.0 && hosts[name].memCap != 0.0
  }

  /** `max` of the hosts' usage ratios for `r` (`max(memory_usages)` or `max(cpu_usages)`). */
  ghost function MaxRatio(hosts: map<string, Host>, r: Resource): (m: real)
    requires hosts != map[] && CapsNonZero(hosts)
    ensures exists name :: name in hosts && Ratio(hosts[name], r) == m
    ensures forall name :: name in hosts ==> Ratio(hosts[name], r) <= m
    decreases |hosts|
  {
    var k := Pick(hosts.Keys);
    var rest := hosts - {k};
    assert rest.Keys == hosts.Keys - {k};
    if rest == map[] then
      assert forall name :: name in hosts ==> name == k || name in rest;
      Ratio(hosts[k], r)
    else
      var m := MaxRatio(rest, r);
      assert forall name :: name in hosts ==> name == k || name in rest;
      if Ratio(hosts[k], r) <= m then m else Ratio(hosts[k], r)
  }

  /** `min` of the hosts' usage ratios for `r`. */
  ghost function MinRatio(hosts: map<string, Host>, r: Resource): (m: real)
    requires hosts != map[] && CapsNonZero(hosts)
    ensures exists name :: name in hosts && Ratio(hosts[name], r) == m
    ensures forall name :: name in hosts ==> m <= Ratio(hosts[name], r)
    decreases |hosts|
  {
    var k := Pick(hosts.Keys);
    var rest := hosts - {k};
    assert rest.Keys == hosts.Keys - {k};
    if rest == map[] then
      assert forall name :: name in hosts ==> name == k || name in rest;
      Ratio(hosts[k], r)
    else
      var m := MinRatio(rest, r);
      assert forall name :: name in hosts ==> name == k || name in rest;
      if m <= Ratio(hosts[k], r) then m else Ratio(hosts[k], r)
  }

  /** `max(usages) - min(usages)`: how far apart the hosts' usage of `r` is. */
  ghost function UsageRange(hosts: map<string, Host>, r: Resource): (range: real)
    requires hosts != map[] && CapsNonZero(hosts)
    ensures range >= 0.0
  {
    var name :| name in hosts;
    assert MinRatio(hosts, r) <= Ratio(hosts[name], r) <= MaxRatio(hosts, r);
    MaxRatio(hosts, r) - MinRatio(hosts, r)
  }

  /** `cpu_weight` and `memory_weight`: `priority_weight` for the prioritised resource, 1 for the other. */
  function Weight(r: Resource, priority: PriorityType, priorityWeight: int): (w: int)
    ensures w == (if r == priority then priorityWeight else 1)
  {
    match priority
    case Cpu => (match r case Cpu => priorityWeight case Memory => 1)
    case Memory => (match r case Cpu => 1 case Memory => priorityWeight)
  }

  /** `(x * a + y * b) / (a + b)`: the mean of `x` and `y` weighted `a` and `b`. */
  function WeightedMean(x: real, a: real, y: real, b: real): (mean: real)
    requires a + b != 0.0
    ensures Times(mean, a + b) == Times(x, a) + Times(y, b)
  {
    var total := Times(x, a) + Times(y, b);
    TimesQuotient(a + b, total);
    assert Times(total / (a + b), a + b) == Times(a + b, total / (a + b));
    total / (a + b)
  }

  /** `calculate_cluster_balance_factor(hosts, priority, priority_weight)`: never above 1 when no weight is negative. */
  ghost function BalanceFactor(hosts: map<string, Host>, priority: PriorityType,
                               priorityWeight: int := DEFAULT_PRIORITY_WEIGHT): (factor: real)
    requires hosts != map[] && CapsNonZero(hosts) && priorityWeight != -1
    ensures priorityWeight >= 0 ==> factor <= 1.0
  {
    var cw, mw := Weight(Cpu, priority, priorityWeight) as real, Weight(Memory, priority, priorityWeight) as real;
    var factor := WeightedMean(1.0 - UsageRange(hosts, Memory), mw, 1.0 - UsageRange(hosts, Cpu), cw);
    if priorityWeight >= 0 then
      WeightedMeanAtMostOne(1.0 - UsageRange(hosts, Memory), mw, 1.0 - UsageRange(hosts, Cpu), cw);
      factor
    else
      factor
  }

  /** Every host uses the same share of its capacity for `r`. */
  ghost predicate Uniform(hosts: map<string, Host>, r: Resource)
    requires CapsNonZero(hosts)
  {
    forall a, b :: a in hosts && b in hosts ==> Ratio(hosts[a], r) == Ratio(hosts[b], r)
  }

  /** The range is 0 exactly when all hosts have the same usage ratio. */
  lemma UsageRangeZero(hosts: map<string, Host>, r: Resource)
    requires hosts != map[] && CapsNonZero(hosts)
    ensures UsageRange(hosts, r) == 0.0 <==> Uniform(hosts, r)
  {
    var hi, lo := MaxRatio(hosts, r), MinRatio(hosts, r);
    if UsageRange(hosts, r) == 0.0 {
      forall a, b | a in hosts && b in hosts ensures Ratio(hosts[a], r) == Ratio(hosts[b], r) {
        assert lo <= Ratio(hosts[a], r) <= hi;
        assert lo <= Ratio(hosts[b], r) <= hi;
      }
    }
    if Uniform(hosts, r) {
      var a :| a in hosts && Ratio(hosts[a], r) == hi;
      var b :| b in hosts && Ratio(hosts[b], r) == lo;
    }
  }

  /** Ratios within `[0, 1]` keep the range within `[0, 1]`. */
  lemma UsageRangeAtMostOne(hosts: map<string, Host>, r: Resource)
    requires hosts != map[] && CapsNonZero(hosts)
    requires forall name :: name in hosts ==> 0.0 <= Ratio(hosts[name], r) <= 1.0
    ensures UsageRange(hosts, r) <= 1.0
  {
    var a :| a in hosts && Ratio(hosts[a], r) == MaxRatio(hosts, r);
    var b :| b in hosts && Ratio(hosts[b], r) == MinRatio(hosts, r);
  }

  /** A cluster whose hosts are all equally loaded, resource by resource, has balance factor 1. */
  lemma BalanceFactorUniform(hosts: map<string, Host>, priority: PriorityType, priorityWeight: int)
    requires hosts != map[] && CapsNonZero(hosts) && priorityWeight != -1
    requires Uniform(hosts, Cpu) && Uniform(hosts, Memory)
    ensures BalanceFactor(hosts, priority, priorityWeight) == 1.0
  {
    var cw, mw := Weight(Cpu, priority, priorityWeight) as real, Weight(Memory, priority, priorityWeight) as real;
    UsageRangeZero(hosts, Cpu);
    UsageRangeZero(hosts, Memory);
    assert 1.0 - UsageRange(hosts, Memory) == 1.0 && 1.0 - UsageRange(hosts, Cpu) == 1.0;
    WeightedMeanOfSame(1.0, mw, cw);
    assert BalanceFactor(hosts, priority, priorityWeight) == WeightedMean(1.0, mw, 1.0, cw);
  }

  /** With positive weights, the balance factor is 1 exactly when both resources are uniformly loaded. */
  lemma BalanceFactorOne(hosts: map<string, Host>, priority: PriorityType, priorityWeight: int)
    requires hosts != map[] && CapsNonZero(hosts) && priorityWeight >= 1
    ensures BalanceFactor(hosts, priority, priorityWeight) == 1.0 <==> Uniform(hosts, Cpu) && Uniform(hosts, Memory)
  {
    UsageRangeZero(hosts, Cpu);
    UsageRangeZero(hosts, Memory);
    WeightedMeanFull(1.0 - UsageRange(hosts, Memory), Weight(Memory, priority, priorityWeight) as real,
                     1.0 - UsageRange(hosts, Cpu), Weight(Cpu, priority, priorityWeight) as real);
  }

  /** With no negative weight and all ratios within `[0, 1]`, the balance factor lies in `[0, 1]`. */
  lemma BalanceFactorBounds(hosts: map<string, Host>, priority: PriorityType, priorityWeight: int)
    requires hosts != map[] && CapsNonZero(hosts) && priorityWeight >= 0
    requires forall name :: name in hosts ==> 0.0 <= Ratio(hosts[name], Cpu) <= 1.0
    requires forall name :: name in hosts ==> 0.0 <= Ratio(hosts[name], Memory) <= 1.0
    ensures 0.0 <= BalanceFactor(hosts, priority, priorityWeight) <= 1.0
  {
    UsageRangeAtMostOne(hosts, Cpu);
    UsageRangeAtMostOne(hosts, Memory);
    WeightedMeanNonNegative(1.0 - UsageRange(hosts, Memory), Weight(Memory, priority, priorityWeight) as real,
                            1.0 - UsageRange(hosts, Cpu), Weight(Cpu, priority, priorityWeight) as real);
  }

  /** The mean of a value with itself is that value. */
  lemma WeightedMeanOfSame(x: real, a: real, b: real)
    requires a + b != 0.0
    ensures WeightedMean(x, a, x, b) == x
  {
    var mean := WeightedMean(x, a, x, b);
    assert (mean - x) * (a + b) == 0.0;
  }

  /** Values at most 1 with weights that are not negative average to at most 1. */
  lemma WeightedMeanAtMostOne(x: real, a: real, y: real, b: real)
    requires x <= 1.0 && y <= 1.0 && a >= 0.0 && b >= 0.0 && a + b != 0.0
    ensures WeightedMean(x, a, y, b) <= 1.0
  {
    var mean := WeightedMean(x, a, y, b);
    TimesNonNegative(1.0 - x, a);
    TimesNonNegative(1.0 - y, b);
    assert Times(1.0 - mean, a + b) == Times(1.0 - x, a) + Times(1.0 - y, b);
  }

  /** Values that are not negative, with weights that are not negative, average to a value that is not negative. */
  lemma WeightedMeanNonNegative(x: real, a: real, y: real, b: real)
    requires x >= 0.0 && y >= 0.0 && a >= 0.0 && b >= 0.0 && a + b != 0.0
    ensures WeightedMean(x, a, y, b) >= 0.0
  {
    var mean := WeightedMean(x, a, y, b);
    TimesNonNegative(x, a);
    TimesNonNegative(y, b);
  }

  /** With positive weights, values at most 1 average to 1 exactly when both are 1. */
  lemma WeightedMeanFull(x: real, a: real, y: real, b: real)
    requires x <= 1.0 && y <= 1.0 && a > 0.0 && b > 0.0
    ensures WeightedMean(x, a, y, b) == 1.0 <==> x == 1.0 && y == 1.0
  {
    var mean := WeightedMean(x, a, y, b);
    TimesNonNegative(1.0 - x, a);
    TimesNonNegative(1.0 - y, b);
    assert Times(1.0 - mean, a + b) == Times(1.0 - x, a) + Times(1.0 - y, b);
    if x == 1.0 && y == 1.0 {
      WeightedMeanOfSame(1.0, a, b);
    }
  }

  /** The two hosts of the balance-factor test: one at half its capacities, one at full capacity. */
  function ExampleHosts(): (hosts: map<string, Host>)
    ensures hosts != map[] && CapsNonZero(hosts)
    ensures hosts.Keys == {"Host 1", "Host 2"}
    ensures forall r :: Ratio(hosts["Host 1"], r) == 0.5 && Ratio(hosts["Host 2"], r) == 1.0
  {
    var hosts := map[
      "Host 1" := Host("CPU", CPU_CAP as real / 2.0, MEMORY_CAP as real / 2.0, CPU_CAP as real, MEMORY_CAP as real),
      "Host 2" := Host("CPU", CPU_CAP as real, MEMORY_CAP as real, CPU_CAP as real, MEMORY_CAP as real)];
    assert "Host 1" in hosts && hosts.Keys == {"Host 1", "Host 2"};
    hosts
  }

  /** The test's cluster has balance factor 0.5 whichever resource is prioritised. */
  lemma BalanceFactorExample(priority: PriorityType)
    ensures BalanceFactor(ExampleHosts(), priority) == 0.5
  {
    ExampleRange(Cpu);
    ExampleRange(Memory);
    WeightedMeanOfSame(0.5, Weight(Memory, priority, DEFAULT_PRIORITY_WEIGHT) as real,
                       Weight(Cpu, priority, DEFAULT_PRIORITY_WEIGHT) as real);
  }

  lemma ExampleRange(r: Resource)
    ensures UsageRange(ExampleHosts(), r) == 0.5
  {
    var hosts := ExampleHosts();
    var hi, lo := MaxRatio(hosts, r), MinRatio(hosts, r);
    assert Ratio(hosts["Host 1"], r) == 0.5 && Ratio(hosts["Host 2"], r) == 1.0;
    assert hi == 1.0 && lo == 0.5;
  }
}
