/**
 * The workload generator: the random resource use of the VMs on one host,
 * the partition of the VMs over the hosts and their naming, the hosts'
 * aggregated loads, and the cluster balance factor.  Every random draw is
 * an input of the model, constrained to the range the generator draws it
 * from.
 */
module GenerateData {
  import opened Text
  import opened Aggregates
  import opened Cluster

  // generate_resource_use

  /** A value `random.random()` can return. */
  predicate IsDraw(x: real) {
    0.0 <= x < 1.0
  }

  /**
   * `[d * (total / sum(draws)) for d in draws]`: the draws rescaled to
   * sum to `total`.  The source divides by the sum of the draws.
   */
  function ResourceUse(draws: seq<real>, total: real): (use: seq<real>)
    requires Sum(draws) != 0.0
    ensures |use| == |draws|
  {
    Scale(draws, total / Sum(draws))
  }

  /** The rescaled draws sum to the requested total. */
  lemma ResourceUseSum(draws: seq<real>, total: real)
    requires Sum(draws) != 0.0
    ensures Sum(ResourceUse(draws, total)) == total
  {
    SumScale(draws, total / Sum(draws));
    TimesQuotient(Sum(draws), total);
  }

  /** Each VM's use stands to the total as its draw stands to the sum of the draws. */
  lemma ResourceUseProportional(draws: seq<real>, total: real, i: nat)
    requires Sum(draws) != 0.0 && i < |draws|
    ensures Times(ResourceUse(draws, total)[i], Sum(draws)) == Times(draws[i], total)
  {
    ScaleAt(draws, total / Sum(draws), i);
    TimesScaleBack(draws[i], total, Sum(draws));
  }

  /** With draws of `random.random()` and a non-negative total, every use is non-negative. */
  lemma ResourceUseNonNegative(draws: seq<real>, total: real, i: nat)
    requires Sum(draws) != 0.0 && i < |draws|
    requires forall k :: 0 <= k < |draws| ==> IsDraw(draws[k])
    requires total >= 0.0
    ensures ResourceUse(draws, total)[i] >= 0.0
  {
    SumNonNegative(draws);
    ScaleAt(draws, total / Sum(draws), i);
    QuotientNonNegative(total, Sum(draws));
    TimesNonNegative(draws[i], total / Sum(draws));
  }

  // generate_vms: how many VMs each host gets

  /** `math.floor(total_vms / (2 * total_hosts))`: the VMs every host gets at least. */
  function BaseVmCount(totalVms: nat, totalHosts: nat): (base: nat)
    requires totalHosts > 0
    ensures base * (2 * totalHosts) <= totalVms < (base + 1) * (2 * totalHosts)
  {
    NatQuotient(totalVms, 2 * totalHosts);
    totalVms / (2 * totalHosts)
  }

  lemma NatQuotient(n: nat, d: nat)
    requires d > 0
    ensures n / d >= 0
  {
  }

  /** `total_vms - base_vm_count * total_hosts`: the VMs shared out at random. */
  function RemainingVms(totalVms: nat, totalHosts: nat): (remaining: nat)
    requires totalHosts > 0
    ensures remaining + BaseVmCount(totalVms, totalHosts) * totalHosts == totalVms
    ensures totalVms > 0 ==> remaining > 0
  {
    var base := BaseVmCount(totalVms, totalHosts);
    assert base * totalHosts <= totalVms / 2 by {
      HalfBound(totalVms, totalHosts);
    }
    totalVms - base * totalHosts
  }

  /** `floor(n / (2 * h)) * h <= n / 2`. */
  lemma HalfBound(n: nat, h: nat)
    requires h > 0
    ensures (n / (2 * h)) * h <= n / 2
  {
    var q := n / (2 * h);
    assert q * (2 * h) <= n;
    assert q * (2 * h) == 2 * (q * h);
  }

  /**
   * `sorted(random.sample(range(1, remaining_vms), total_hosts - 1))`:
   * `count` distinct split points strictly inside `(0, remaining)`, in order.
   */
  predicate ValidSplits(splits: seq<int>, remaining: int, count: nat)
  {
    && |splits| == count
    && (forall i :: 0 <= i < |splits| ==> 1 <= splits[i] < remaining)
    && (forall i, j :: 0 <= i < j < |splits| ==> splits[i] < splits[j])
  }

  /** `[divides[i + 1] - divides[i] + base for i in range(len(divides) - 1)]`. */
  function Gaps(divides: seq<int>, base: int): (g: seq<int>)
    requires |divides| >= 1
    ensures |g| == |divides| - 1
  {
    seq(|divides| - 1, i requires 0 <= i < |divides| - 1 => divides[i + 1] - divides[i] + base)
  }

  /** `vms_per_host`: the gaps between `[0] + splits + [remaining_vms]`, each raised by the base count. */
  function VmsPerHost(totalVms: nat, totalHosts: nat, splits: seq<int>): (counts: seq<int>)
    requires totalHosts > 0 && |splits| == totalHosts - 1
    ensures |counts| == totalHosts
  {
    Gaps([0] + splits + [RemainingVms(totalVms, totalHosts)], BaseVmCount(totalVms, totalHosts))
  }

  lemma MulSucc(a: nat, b: int)
    ensures (a + 1) * b == a * b + b
  {
  }

  lemma MulComm(a: int, b: int, c: int)
    requires a == b
    ensures a * c == c * b
  {
  }

  /** The gaps telescope: they add up to the span of the points plus one base per gap. */
  lemma {:induction false} GapsSum(divides: seq<int>, base: int)
    requires |divides| >= 1
    ensures SumInts(Gaps(divides, base)) == divides[|divides| - 1] - divides[0] + (|divides| - 1) * base
    decreases |divides|
  {
    if |divides| > 1 {
      var tail := divides[1..];
      GapsSum(tail, base);
      assert Gaps(divides, base)[1..] == Gaps(tail, base);
      MulSucc(|tail| - 1, base);
    }
  }

  /** Split points in increasing order make every gap exceed the base count. */
  lemma GapsAboveBase(divides: seq<int>, base: int, i: nat)
    requires |divides| >= 1 && i < |divides| - 1
    requires forall a, b :: 0 <= a < b < |divides| ==> divides[a] < divides[b]
    ensures Gaps(divides, base)[i] >= base + 1
  {
  }

  /** The points `[0] + splits + [remaining]` increase strictly. */
  lemma DividesIncrease(splits: seq<int>, remaining: int, count: nat)
    requires ValidSplits(splits, remaining, count) && remaining >= 1
    ensures var divides := [0] + splits + [remaining];
      forall a, b :: 0 <= a < b < |divides| ==> divides[a] < divides[b]
  {
    var divides := [0] + splits + [remaining];
    forall a, b | 0 <= a < b < |divides| ensures divides[a] < divides[b] {
      if a > 0 {
        assert divides[a] == splits[a - 1];
      }
      if b < |divides| - 1 {
        assert divides[b] == splits[b - 1];
      }
    }
  }

  /**
   * The counts partition the VMs: one count per host, summing to
   * `total_vms`, none below the base count and, once there is a VM to
   * share out, every one above it, so that every host gets a VM.
   */
  lemma VmsPerHostPartition(totalVms: nat, totalHosts: nat, splits: seq<int>)
    requires totalHosts > 0
    requires ValidSplits(splits, RemainingVms(totalVms, totalHosts), totalHosts - 1)
    ensures SumInts(VmsPerHost(totalVms, totalHosts, splits)) == totalVms
    ensures forall h :: 0 <= h < totalHosts ==> VmsPerHost(totalVms, totalHosts, splits)[h] >= BaseVmCount(totalVms, totalHosts)
    ensures totalVms > 0 ==> forall h :: 0 <= h < totalHosts ==>
      VmsPerHost(totalVms, totalHosts, splits)[h] >= BaseVmCount(totalVms, totalHosts) + 1
  {
    var remaining, base := RemainingVms(totalVms, totalHosts), BaseVmCount(totalVms, totalHosts);
    var divides := [0] + splits + [remaining];
    GapsSum(divides, base);
    MulComm(|divides| - 1, totalHosts, base);
    if totalVms > 0 {
      DividesIncrease(splits, remaining, totalHosts - 1);
      forall h | 0 <= h < totalHosts ensures Gaps(divides, base)[h] >= base + 1 {
        GapsAboveBase(divides, base, h);
      }
    } else {
      assert splits == [];
    }
  }

  // generate_vms: the VMs

  /** `math.ceil(cap * 0.25)`: the least total a host's VMs may be given. */
  function LowTotal(cap: int): int
  {
    (cap + 3) / 4
  }

  /** A value of `range(math.ceil(cap * 0.25), math.floor(cap), 3)`. */
  predicate InTotalRange(x: int, cap: int)
  {
    LowTotal(cap) <= x < cap && (x - LowTotal(cap)) % 3 == 0
  }

  /** `random.sample(range(math.ceil(cap * 0.25), math.floor(cap), 3), count)`: distinct values of that range. */
  predicate ValidTotals(totals: seq<int>, cap: int, count: nat)
  {
    && |totals| == count
    && (forall i :: 0 <= i < |totals| ==> InTotalRange(totals[i], cap))
    && (forall i, j :: 0 <= i < j < |totals| ==> totals[i] != totals[j])
  }

  /** The `random.random()` draws of one call of `generate_resource_use` for `count` VMs. */
  predicate ValidDrawList(draws: seq<real>, count: int)
  {
    && |draws| == count
    && (forall k :: 0 <= k < |draws| ==> IsDraw(draws[k]))
    && Sum(draws) != 0.0
  }

  /**
   * Everything `generate_vms` draws at random: the split points, each
   * host's CPU and memory totals, and for each host the draws behind its
   * VMs' CPU and memory use.
   */
  datatype Draws = Draws(splits: seq<int>, cpuTotals: seq<int>, memTotals: seq<int>,
                         cpuDraws: seq<seq<real>>, memDraws: seq<seq<real>>)

  /** What the generator needs of the draws to compute the VMs of `hosts` hosts. */
  predicate Shaped(d: Draws, hosts: nat)
  {
    && |d.cpuTotals| == hosts && |d.memTotals| == hosts
    && |d.cpuDraws| == hosts && |d.memDraws| == hosts
    && (forall h :: 0 <= h < hosts ==> |d.cpuDraws[h]| == |d.memDraws[h]|)
    && (forall h :: 0 <= h < hosts ==> Sum(d.cpuDraws[h]) != 0.0 && Sum(d.memDraws[h]) != 0.0)
  }

  /** Draws that one run of `generate_vms(total_vms, total_hosts)` can make. */
  predicate ValidDraws(totalVms: nat, totalHosts: nat, d: Draws)
  {
    && totalHosts > 0
    && ValidSplits(d.splits, RemainingVms(totalVms, totalHosts), totalHosts - 1)
    && ValidTotals(d.cpuTotals, CPU_CAP, totalHosts)
    && ValidTotals(d.memTotals, MEMORY_CAP, totalHosts)
    && |d.cpuDraws| == totalHosts && |d.memDraws| == totalHosts
    && (forall h :: 0 <= h < totalHosts ==>
          && ValidDrawList(d.cpuDraws[h], VmsPerHost(totalVms, totalHosts, d.splits)[h])
          && ValidDrawList(d.memDraws[h], VmsPerHost(totalVms, totalHosts, d.splits)[h]))
  }

  lemma ValidDrawsShaped(totalVms: nat, totalHosts: nat, d: Draws)
    requires ValidDraws(totalVms, totalHosts, d)
    ensures Shaped(d, totalHosts)
  {
  }

  /** `generate_resource_use(num_vms, total_cpu[h])` for host index `h`. */
  function CpuUse(d: Draws, h: nat): (use: seq<real>)
    requires h < |d.cpuDraws| && h < |d.cpuTotals| && Sum(d.cpuDraws[h]) != 0.0
    ensures |use| == |d.cpuDraws[h]|
  {
    ResourceUse(d.cpuDraws[h], d.cpuTotals[h] as real)
  }

  /** `generate_resource_use(num_vms, total_memory[h])` for host index `h`. */
  function MemUse(d: Draws, h: nat): (use: seq<real>)
    requires h < |d.memDraws| && h < |d.memTotals| && Sum(d.memDraws[h]) != 0.0
    ensures |use| == |d.memDraws[h]|
  {
    ResourceUse(d.memDraws[h], d.memTotals[h] as real)
  }

  /** `zip(cpu_use, mem_use)` turned into VMs: all `"Running"` on `hostName`, in the order the inner loop creates them. */
  function HostVms(hostName: string, cpuUse: seq<real>, memUse: seq<real>): (block: seq<Vm>)
    requires |cpuUse| == |memUse|
    ensures |block| == |cpuUse|
  {
    seq(|cpuUse|, j requires 0 <= j < |cpuUse| => Vm("Running", hostName, cpuUse[j], memUse[j]))
  }

  /** The VMs of host index `h`. */
  function Block(d: Draws, hosts: nat, h: nat): (block: seq<Vm>)
    requires Shaped(d, hosts) && h < hosts
    ensures |block| == |d.cpuDraws[h]|
  {
    HostVms(HostName(h + 1), CpuUse(d, h), MemUse(d, h))
  }

  /** The VMs of the first `n` hosts, in creation order: VM `k` is entry `k - 1`. */
  function Layout(d: Draws, hosts: nat, n: nat): seq<Vm>
    requires Shaped(d, hosts) && n <= hosts
  {
    if n == 0 then [] else Layout(d, hosts, n - 1) + Block(d, hosts, n - 1)
  }

  /** The blocks of the first `n` hosts hold the first `n` counts' worth of VMs. */
  lemma {:induction false} LayoutSize(d: Draws, hosts: nat, counts: seq<int>, n: nat)
    requires Shaped(d, hosts) && n <= hosts && |counts| == hosts
    requires forall h :: 0 <= h < hosts ==> |d.cpuDraws[h]| == counts[h]
    ensures |Layout(d, hosts, n)| == SumInts(counts[..n])
  {
    if n > 0 {
      LayoutSize(d, hosts, counts, n - 1);
      SumIntsPrefix(counts, n - 1);
    }
  }

  /** Later hosts only append: the layout of `n` hosts is a prefix of that of `m >= n`. */
  lemma {:induction false} LayoutPrefix(d: Draws, hosts: nat, n: nat, m: nat, i: nat)
    requires Shaped(d, hosts) && n <= m <= hosts && i < |Layout(d, hosts, n)|
    ensures i < |Layout(d, hosts, m)| && Layout(d, hosts, m)[i] == Layout(d, hosts, n)[i]
    decreases m
  {
    if n < m {
      LayoutPrefix(d, hosts, n, m - 1, i);
    }
  }

  /**
   * VM `j` of host index `h` sits right after the VMs of the hosts before
   * it, in the layout of any `m > h` hosts.
   */
  lemma {:induction false} LayoutAt(d: Draws, hosts: nat, h: nat, j: nat, m: nat)
    requires Shaped(d, hosts) && h < m <= hosts && j < |d.cpuDraws[h]|
    ensures |Layout(d, hosts, h)| + j < |Layout(d, hosts, m)|
    ensures Layout(d, hosts, m)[|Layout(d, hosts, h)| + j] == Block(d, hosts, h)[j]
    decreases m
  {
    if m == h + 1 {
      LayoutNext(d, hosts, h, j);
    } else {
      LayoutAt(d, hosts, h, j, m - 1);
      LayoutGrows(d, hosts, m - 1, |Layout(d, hosts, h)| + j, Block(d, hosts, h)[j]);
    }
  }

  /** Host index `h`'s block follows the VMs of the hosts before it. */
  lemma LayoutNext(d: Draws, hosts: nat, h: nat, j: nat)
    requires Shaped(d, hosts) && h < hosts && j < |d.cpuDraws[h]|
    ensures |Layout(d, hosts, h)| + j < |Layout(d, hosts, h + 1)|
    ensures Layout(d, hosts, h + 1)[|Layout(d, hosts, h)| + j] == Block(d, hosts, h)[j]
  {
  }

  /** One more host keeps the entries already laid out. */
  lemma LayoutGrows(d: Draws, hosts: nat, n: nat, i: nat, vm: Vm)
    requires Shaped(d, hosts) && n < hosts && i < |Layout(d, hosts, n)| && Layout(d, hosts, n)[i] == vm
    ensures i < |Layout(d, hosts, n + 1)| && Layout(d, hosts, n + 1)[i] == vm
  {
  }

  /** The dictionary `{f"{prefix}{k}": s[k - 1] for k in 1..len(s)}`, built one key at a time. */
  function Numbered<T>(prefix: string, s: seq<T>): map<string, T>
  {
    if |s| == 0 then map[]
    else Numbered(prefix, s[..|s| - 1])[prefix + NatToString(|s|) := s[|s| - 1]]
  }

  /** Adding an entry at the end numbers it one past the others. */
  lemma NumberedSnoc<T>(prefix: string, s: seq<T>, x: T)
    ensures Numbered(prefix, s + [x]) == Numbered(prefix, s)[prefix + NatToString(|s| + 1) := x]
  {
    assert (s + [x])[..|s|] == s;
  }

  /** Numbering one more entry of `block` after `before`. */
  lemma NumberedExtend<T>(prefix: string, before: seq<T>, block: seq<T>, j: nat)
    requires j < |block|
    ensures Numbered(prefix, before + block[..j + 1])
         == Numbered(prefix, before + block[..j])[prefix + NatToString(|before| + j + 1) := block[j]]
  {
    assert before + block[..j + 1] == (before + block[..j]) + [block[j]];
    NumberedSnoc(prefix, before + block[..j], block[j]);
  }

  /** `prefix + str(k)` determines `k`. */
  lemma PrefixedInjective(prefix: string, a: nat, b: nat)
    requires prefix + NatToString(a) == prefix + NatToString(b)
    ensures a == b
  {
    assert NatToString(a) == (prefix + NatToString(a))[|prefix|..];
    assert NatToString(b) == (prefix + NatToString(b))[|prefix|..];
    NatToStringInjective(a, b);
  }

  /** The names `prefix + str(k)` for `k` in `1..n`. */
  ghost function NumberKeys(prefix: string, n: int): set<string>
  {
    set k: nat | 1 <= k <= n :: prefix + NatToString(k)
  }

  lemma NumberKeysSucc(prefix: string, n: nat)
    ensures NumberKeys(prefix, n + 1) == NumberKeys(prefix, n) + {prefix + NatToString(n + 1)}
  {
  }

  /** Entry `k - 1` is stored under the `k`-th name. */
  lemma {:induction false} NumberedAt<T>(prefix: string, s: seq<T>, k: nat)
    requires 1 <= k <= |s|
    ensures prefix + NatToString(k) in Numbered(prefix, s)
    ensures Numbered(prefix, s)[prefix + NatToString(k)] == s[k - 1]
    decreases |s|
  {
    var init := s[..|s| - 1];
    if k < |s| {
      NumberedAt(prefix, init, k);
      if prefix + NatToString(k) == prefix + NatToString(|s|) {
        PrefixedInjective(prefix, k, |s|);
      }
    }
  }

  /** The names are exactly the `k`-th names for `k` in `1..|s|`. */
  lemma {:induction false} NumberedKeys<T>(prefix: string, s: seq<T>)
    ensures Numbered(prefix, s).Keys == NumberKeys(prefix, |s|)
    decreases |s|
  {
    if |s| > 0 {
      NumberedKeys(prefix, s[..|s| - 1]);
      NumberKeysSucc(prefix, |s| - 1);
    }
  }

  /** The next name is not yet taken. */
  lemma NumberedFresh<T>(prefix: string, s: seq<T>)
    ensures prefix + NatToString(|s| + 1) !in Numbered(prefix, s)
  {
    NumberedKeys(prefix, s);
    if prefix + NatToString(|s| + 1) in NumberKeys(prefix, |s|) {
      var k: nat :| 1 <= k <= |s| && prefix + NatToString(|s| + 1) == prefix + NatToString(k);
      PrefixedInjective(prefix, k, |s| + 1);
    }
  }

  /** No two entries share a name: there are as many names as entries. */
  lemma {:induction false} NumberedSize<T>(prefix: string, s: seq<T>)
    ensures |Numbered(prefix, s)| == |s|
    decreases |s|
  {
    if |s| > 0 {
      var init := s[..|s| - 1];
      NumberedSize(prefix, init);
      NumberedFresh(prefix, init);
    }
  }

  /** There are `n` names numbered `1..n`. */
  lemma {:induction false} NumberKeysSize(prefix: string, n: nat)
    ensures |NumberKeys(prefix, n)| == n
  {
    if n > 0 {
      NumberKeysSize(prefix, n - 1);
      NumberKeysSucc(prefix, n - 1);
      if prefix + NatToString(n) in NumberKeys(prefix, n - 1) {
        var k: nat :| 1 <= k <= n - 1 && prefix + NatToString(n) == prefix + NatToString(k);
        PrefixedInjective(prefix, k, n);
      }
    }
  }

  /**
   * `generate_vms(total_vms, total_hosts)` with its random draws given:
   * the VMs `"VM 1"`, `"VM 2"`, ... in creation order.
   */
  method GenerateVms(totalVms: nat, totalHosts: nat, d: Draws) returns (vms: map<string, Vm>)
    requires ValidDraws(totalVms, totalHosts, d)
    ensures Shaped(d, totalHosts)
    ensures vms == Numbered("VM ", Layout(d, totalHosts, totalHosts))
  {
    ValidDrawsShaped(totalVms, totalHosts, d);
    var base := BaseVmCount(totalVms, totalHosts);
    var remaining := RemainingVms(totalVms, totalHosts);
    var divides := [0] + d.splits + [remaining];
    var vmsPerHost := Gaps(divides, base);
    vms := map[];
    var vmCount := 1;
    for host := 0 to |vmsPerHost|
      invariant vms == Numbered("VM ", Layout(d, totalHosts, host))
      invariant vmCount == |Layout(d, totalHosts, host)| + 1
    {
      var hostName := HostName(host + 1);
      var cpuUse := ResourceUse(d.cpuDraws[host], d.cpuTotals[host] as real);
      var memUse := ResourceUse(d.memDraws[host], d.memTotals[host] as real);
      vms, vmCount := AddHostVms(vms, vmCount, Layout(d, totalHosts, host), hostName, cpuUse, memUse);
    }
  }

  /** The inner loop of `generate_vms`: the VMs of one host, numbered on from `vmCount`. */
  method AddHostVms(vms: map<string, Vm>, vmCount: nat, ghost before: seq<Vm>,
                    hostName: string, cpuUse: seq<real>, memUse: seq<real>)
    returns (next: map<string, Vm>, nextCount: nat)
    requires |cpuUse| == |memUse|
    requires vms == Numbered("VM ", before) && vmCount == |before| + 1
    ensures next == Numbered("VM ", before + HostVms(hostName, cpuUse, memUse))
    ensures nextCount == |before| + |cpuUse| + 1
  {
    ghost var block := HostVms(hostName, cpuUse, memUse);
    next, nextCount := vms, vmCount;
    assert before + block[..0] == before;
    for j := 0 to |cpuUse|
      invariant next == Numbered("VM ", before + block[..j])
      invariant nextCount == |before| + j + 1
    {
      NumberedExtend("VM ", before, block, j);
      next := next[VmName(nextCount) := Vm("Running", hostName, cpuUse[j], memUse[j])];
      nextCount := nextCount + 1;
    }
    assert block[..|cpuUse|] == block;
  }

  // What generate_vms produces

  /** Each host's draws are as many as its VM count. */
  lemma BlockSizes(totalVms: nat, totalHosts: nat, d: Draws)
    requires ValidDraws(totalVms, totalHosts, d)
    ensures Shaped(d, totalHosts)
    ensures forall h :: 0 <= h < totalHosts ==> |d.cpuDraws[h]| == VmsPerHost(totalVms, totalHosts, d.splits)[h]
  {
  }

  /** Draws for `|counts|` hosts, `counts[h]` VMs on host index `h`. */
  predicate Fits(d: Draws, counts: seq<int>)
  {
    Shaped(d, |counts|) && forall h :: 0 <= h < |counts| ==> |d.cpuDraws[h]| == counts[h]
  }

  /** `generate_vms` creates `sum(counts)` VMs, named `"VM 1"`, `"VM 2"`, ... with no gap. */
  lemma GeneratedVmNames(d: Draws, counts: seq<int>)
    requires Fits(d, counts)
    ensures var vms := Numbered("VM ", Layout(d, |counts|, |counts|));
      vms.Keys == NumberKeys("VM ", SumInts(counts)) && |vms| == SumInts(counts)
  {
    var layout := Layout(d, |counts|, |counts|);
    LayoutSize(d, |counts|, counts, |counts|);
    assert counts[..|counts|] == counts;
    NumberedKeys("VM ", layout);
    NumberedSize("VM ", layout);
  }

  /**
   * VM number `offset + j + 1`, where `offset` is `sum(counts[..h])`, is
   * the `j`-th VM of host `"Host h+1"`: VMs are numbered consecutively
   * host after host, all `"Running"`, with the use computed for their host.
   */
  lemma GeneratedVm(d: Draws, counts: seq<int>, h: nat, j: nat, offset: nat)
    requires Fits(d, counts) && h < |counts| && j < counts[h]
    requires offset == SumInts(counts[..h])
    ensures var vms := Numbered("VM ", Layout(d, |counts|, |counts|));
      var name := VmName(offset + j + 1);
      && name in vms
      && vms[name] == Vm("Running", HostName(h + 1), CpuUse(d, h)[j], MemUse(d, h)[j])
  {
    var layout := Layout(d, |counts|, |counts|);
    LayoutSize(d, |counts|, counts, h);
    LayoutAt(d, |counts|, h, j, |counts|);
    assert layout[offset + j] == Block(d, |counts|, h)[j];
    NumberedAt("VM ", layout, offset + j + 1);
    assert VmName(offset + j + 1) == "VM " + NatToString(offset + j + 1);
  }

  /** The draws of a run of `generate_vms` fit its counts, which add up to `total_vms`. */
  lemma GeneratedCounts(totalVms: nat, totalHosts: nat, d: Draws)
    requires ValidDraws(totalVms, totalHosts, d)
    ensures Fits(d, VmsPerHost(totalVms, totalHosts, d.splits))
    ensures SumInts(VmsPerHost(totalVms, totalHosts, d.splits)) == totalVms
  {
    VmsPerHostPartition(totalVms, totalHosts, d.splits);
  }

  /** Every VM of the first `n` hosts is `"Running"` on one of `"Host 1"` to `"Host n"`. */
  lemma {:induction false} LayoutHosts(d: Draws, hosts: nat, n: nat, i: nat)
    requires Shaped(d, hosts) && n <= hosts && i < |Layout(d, hosts, n)|
    ensures Layout(d, hosts, n)[i].status == "Running"
    ensures Layout(d, hosts, n)[i].currentHost in NumberKeys("Host ", n)
  {
    var before := Layout(d, hosts, n - 1);
    NumberKeysSucc("Host ", n - 1);
    if i < |before| {
      LayoutHosts(d, hosts, n - 1, i);
    } else {
      assert Layout(d, hosts, n)[i] == Block(d, hosts, n - 1)[i - |before|];
    }
  }

  /** `{vm["current_host"] for vm in vms.values()}`. */
  function HostsInUse(vms: map<string, Vm>): set<string>
  {
    set k | k in vms :: vms[k].currentHost
  }

  /** Every generated VM is `"Running"` on one of `"Host 1"` to `"Host n"`. */
  lemma GeneratedVmsPlaced(d: Draws, hosts: nat)
    requires Shaped(d, hosts)
    ensures var vms := Numbered("VM ", Layout(d, hosts, hosts));
      forall key :: key in vms ==> vms[key].status == "Running" && vms[key].currentHost in NumberKeys("Host ", hosts)
  {
    var layout := Layout(d, hosts, hosts);
    NumberedKeys("VM ", layout);
    forall key | key in Numbered("VM ", layout)
      ensures Numbered("VM ", layout)[key].status == "Running"
      ensures Numbered("VM ", layout)[key].currentHost in NumberKeys("Host ", hosts)
    {
      var k: nat :| 1 <= k <= |layout| && key == "VM " + NatToString(k);
      NumberedAt("VM ", layout, k);
      LayoutHosts(d, hosts, hosts, k - 1);
    }
  }

  /** A host with at least one VM is in use. */
  lemma GeneratedHostUsed(d: Draws, counts: seq<int>, h: nat)
    requires Fits(d, counts) && h < |counts| && counts[h] >= 1
    ensures HostName(h + 1) in HostsInUse(Numbered("VM ", Layout(d, |counts|, |counts|)))
  {
    LayoutSize(d, |counts|, counts, h);
    GeneratedVm(d, counts, h, 0, |Layout(d, |counts|, h)|);
  }

  /**
   * When every host gets a VM, the VMs are all `"Running"` and use exactly
   * the hosts `"Host 1"` to `"Host n"`, which are `n` distinct hosts.
   */
  lemma GeneratedHostsInUse(d: Draws, counts: seq<int>)
    requires Fits(d, counts) && forall h :: 0 <= h < |counts| ==> counts[h] >= 1
    ensures var vms := Numbered("VM ", Layout(d, |counts|, |counts|));
      && (forall k :: k in vms ==> vms[k].status == "Running")
      && HostsInUse(vms) == NumberKeys("Host ", |counts|)
      && |HostsInUse(vms)| == |counts|
  {
    var vms := Numbered("VM ", Layout(d, |counts|, |counts|));
    GeneratedVmsPlaced(d, |counts|);
    forall name | name in NumberKeys("Host ", |counts|) ensures name in HostsInUse(vms) {
      var k: nat :| 1 <= k <= |counts| && name == "Host " + NatToString(k);
      GeneratedHostUsed(d, counts, k - 1);
    }
    NumberKeysSize("Host ", |counts|);
  }

  /**
   * `generate_vms(total_vms, total_hosts)` returns `total_vms` VMs, and
   * when there is at least one VM every one of the `total_hosts` hosts is in use.
   */
  lemma GeneratedVmsShape(totalVms: nat, totalHosts: nat, d: Draws)
    requires ValidDraws(totalVms, totalHosts, d)
    ensures var vms := Numbered("VM ", Layout(d, totalHosts, totalHosts));
      && |vms| == totalVms
      && (totalVms > 0 ==> HostsInUse(vms) == NumberKeys("Host ", totalHosts) && |HostsInUse(vms)| == totalHosts)
  {
    var counts := VmsPerHost(totalVms, totalHosts, d.splits);
    GeneratedCounts(totalVms, totalHosts, d);
    GeneratedVmNames(d, counts);
    if totalVms > 0 {
      VmsPerHostPartition(totalVms, totalHosts, d.splits);
      GeneratedHostsInUse(d, counts);
    }
  }

  // The loads the generated VMs put on each host

  /** What each VM of `s` puts on host `name`: its use of `r` if it runs there, else 0. */
  function Contributions(s: seq<Vm>, name: string, r: Resource): (c: seq<real>)
    ensures |c| == |s|
  {
    seq(|s|, i requires 0 <= i < |s| => if s[i].currentHost == name then Demand(s[i], r) else 0.0)
  }

  /** The same for a dictionary of VMs. */
  function LoadMap(vms: map<string, Vm>, name: string, r: Resource): (m: map<string, real>)
    ensures m.Keys == vms.Keys
  {
    map k | k in vms :: if vms[k].currentHost == name then Demand(vms[k], r) else 0.0
  }

  /** The total use of `r` by the VMs whose `current_host` is `name`. */
  ghost function HostLoad(vms: map<string, Vm>, name: string, r: Resource): real
  {
    SumValues(LoadMap(vms, name, r))
  }

  lemma ContributionsAppend(a: seq<Vm>, b: seq<Vm>, name: string, r: Resource)
    ensures Contributions(a + b, name, r) == Contributions(a, name, r) + Contributions(b, name, r)
  {
    var c := Contributions(a + b, name, r);
    forall i | 0 <= i < |c| ensures c[i] == (Contributions(a, name, r) + Contributions(b, name, r))[i] {
      if i >= |a| {
        assert (a + b)[i] == b[i - |a|];
      }
    }
  }

  /** A VM added under a new key adds its own load and leaves the others'. */
  lemma LoadMapAdd(vms: map<string, Vm>, key: string, x: Vm, name: string, r: Resource)
    requires key !in vms
    ensures LoadMap(vms[key := x], name, r) - {key} == LoadMap(vms, name, r)
    ensures LoadMap(vms[key := x], name, r)[key] == if x.currentHost == name then Demand(x, r) else 0.0
  {
  }

  lemma SplitLast<T>(s: seq<T>)
    requires |s| > 0
    ensures s == s[..|s| - 1] + [s[|s| - 1]]
  {
  }

  /** The loads a dictionary numbers entry by entry are those of the entries. */
  lemma {:induction false} NumberedLoad(prefix: string, s: seq<Vm>, name: string, r: Resource)
    ensures HostLoad(Numbered(prefix, s), name, r) == Sum(Contributions(s, name, r))
    decreases |s|
  {
    if |s| > 0 {
      var init, x := s[..|s| - 1], s[|s| - 1];
      var key := prefix + NatToString(|s|);
      var before := Numbered(prefix, init);
      NumberedLoad(prefix, init, name, r);
      NumberedFresh(prefix, init);
      LoadMapAdd(before, key, x, name, r);
      SumValuesRemove(LoadMap(before[key := x], name, r), key);
      SplitLast(s);
      ContributionsAppend(init, [x], name, r);
      SumAppend(Contributions(init, name, r), Contributions([x], name, r));
    }
  }

  /** `generate_resource_use` for resource `r` of host index `h`. */
  function UseOf(d: Draws, h: nat, r: Resource): (use: seq<real>)
    requires h < |d.cpuDraws| && h < |d.cpuTotals| && Sum(d.cpuDraws[h]) != 0.0
    requires h < |d.memDraws| && h < |d.memTotals| && Sum(d.memDraws[h]) != 0.0
  {
    match r
    case Cpu => CpuUse(d, h)
    case Memory => MemUse(d, h)
  }

  /** The drawn total of resource `r` for host index `h`. */
  function TotalOf(d: Draws, h: nat, r: Resource): int
    requires h < |d.cpuTotals| && h < |d.memTotals|
  {
    match r
    case Cpu => d.cpuTotals[h]
    case Memory => d.memTotals[h]
  }

  /** The VMs of one host put on it exactly their use of `r`, and nothing on any other host. */
  lemma HostVmsLoad(d: Draws, hosts: nat, h: nat, g: nat, r: Resource)
    requires Shaped(d, hosts) && h < hosts && g < hosts
    ensures Sum(Contributions(Block(d, hosts, g), HostName(h + 1), r)) == if g == h then TotalOf(d, h, r) as real else 0.0
  {
    var c := Contributions(Block(d, hosts, g), HostName(h + 1), r);
    if g == h {
      assert c == UseOf(d, h, r);
      match r
      case Cpu => ResourceUseSum(d.cpuDraws[h], d.cpuTotals[h] as real);
      case Memory => ResourceUseSum(d.memDraws[h], d.memTotals[h] as real);
    } else {
      forall i | 0 <= i < |c| ensures c[i] == 0.0 {
        if HostName(g + 1) == HostName(h + 1) {
          HostNameInjective(g + 1, h + 1);
        }
      }
      SumZeros(c);
    }
  }

  /** Of the first `n` hosts' VMs, those on host index `h` use its drawn total. */
  lemma {:induction false} LayoutLoad(d: Draws, hosts: nat, n: nat, h: nat, r: Resource)
    requires Shaped(d, hosts) && n <= hosts && h < hosts
    ensures Sum(Contributions(Layout(d, hosts, n), HostName(h + 1), r)) == if h < n then TotalOf(d, h, r) as real else 0.0
  {
    if n > 0 {
      LayoutLoad(d, hosts, n - 1, h, r);
      ContributionsAppend(Layout(d, hosts, n - 1), Block(d, hosts, n - 1), HostName(h + 1), r);
      SumAppend(Contributions(Layout(d, hosts, n - 1), HostName(h + 1), r),
                Contributions(Block(d, hosts, n - 1), HostName(h + 1), r));
      HostVmsLoad(d, hosts, h, n - 1, r);
    }
  }

  /** Each host's generated VMs use exactly the totals drawn for it. */
  lemma GeneratedLoad(d: Draws, hosts: nat, h: nat, r: Resource)
    requires Shaped(d, hosts) && h < hosts
    ensures HostLoad(Numbered("VM ", Layout(d, hosts, hosts)), HostName(h + 1), r) == TotalOf(d, h, r) as real
  {
    NumberedLoad("VM ", Layout(d, hosts, hosts), HostName(h + 1), r);
    LayoutLoad(d, hosts, hosts, h, r);
  }

  /**
   * No host starts over capacity: the VMs `generate_vms` puts on a host use
   * at least a quarter and less than all of its CPU and of its memory.
   */
  lemma GeneratedUnderCap(totalVms: nat, totalHosts: nat, d: Draws, h: nat)
    requires ValidDraws(totalVms, totalHosts, d) && h < totalHosts
    ensures var vms := Numbered("VM ", Layout(d, totalHosts, totalHosts));
      && LowTotal(CPU_CAP) as real <= HostLoad(vms, HostName(h + 1), Cpu) < CPU_CAP as real
      && LowTotal(MEMORY_CAP) as real <= HostLoad(vms, HostName(h + 1), Memory) < MEMORY_CAP as real
  {
    GeneratedLoad(d, totalHosts, h, Cpu);
    GeneratedLoad(d, totalHosts, h, Memory);
  }

  // generate_hosts

  /**
   * A `current_host` from which `int(name.split(" ")[1]) - 1` is an index
   * of a list of `hosts` entries: its second space-separated part is a
   * decimal number `k` with `k <= hosts`.  `k = 0` gives index -1, which
   * Python reads as the last entry.
   */
  predicate HostRef(name: string, hosts: nat)
  {
    var parts := Split(name, " ");
    && hosts >= 1
    && |parts| >= 2
    && |parts[1]| >= 1
    && (forall i :: 0 <= i < |parts[1]| ==> IsDigit(parts[1][i]))
    && ParseNat(parts[1]) <= hosts
  }

  /**
   * The index of `cpu_used` and `mem_used` a VM on host `name` adds to;
   * -1, an index of neither list here, when `name` is not such a reference.
   */
  function Slot(name: string, hosts: nat): (i: int)
    ensures HostRef(name, hosts) ==> 0 <= i < hosts
  {
    if HostRef(name, hosts) then
      var k := ParseNat(Split(name, " ")[1]);
      if k == 0 then hosts - 1 else k - 1
    else
      -1
  }

  predicate HostRefs(vms: map<string, Vm>, hosts: nat)
  {
    forall k :: k in vms ==> HostRef(vms[k].currentHost, hosts)
  }

  /** `host_index` as a function of `current_host`, for lists of `hosts` entries. */
  function SlotOf(hosts: nat): string -> int
  {
    name => Slot(name, hosts)
  }

  /** Every VM's host is mapped to an index of a list of `hosts` entries. */
  predicate InRange(vms: map<string, Vm>, slot: string -> int, hosts: nat)
  {
    forall k :: k in vms ==> 0 <= slot(vms[k].currentHost) < hosts
  }

  /** What each VM adds to entry `i` of the list for resource `r`. */
  function SlotMap(vms: map<string, Vm>, slot: string -> int, i: nat, r: Resource): (m: map<string, real>)
    ensures m.Keys == vms.Keys
  {
    map k | k in vms :: if slot(vms[k].currentHost) == i then Demand(vms[k], r) else 0.0
  }

  /** Entry `i` of the list for `r` once every VM is added. */
  ghost function SlotLoad(vms: map<string, Vm>, slot: string -> int, i: nat, r: Resource): real
  {
    SumValues(SlotMap(vms, slot, i, r))
  }

  /** The host records `generate_hosts` creates, in order: host `i + 1` gets entry `i` of both lists. */
  ghost function HostRows(vms: map<string, Vm>, hosts: nat): (rows: seq<Host>)
    ensures |rows| == hosts
  {
    seq(hosts, i requires 0 <= i < hosts =>
      Host("CPU", SlotLoad(vms, SlotOf(hosts), i, Cpu), SlotLoad(vms, SlotOf(hosts), i, Memory),
           CPU_CAP as real, MEMORY_CAP as real))
  }

  /** Taking one VM out of the dictionary takes its share out of the entry it adds to. */
  lemma SlotLoadRemove(vms: map<string, Vm>, slot: string -> int, k: string, i: nat, r: Resource)
    requires k in vms
    ensures SlotLoad(vms, slot, i, r)
         == (if slot(vms[k].currentHost) == i then Demand(vms[k], r) else 0.0) + SlotLoad(vms - {k}, slot, i, r)
  {
    SumValuesRemove(SlotMap(vms, slot, i, r), k);
    SlotMapRemove(vms, slot, k, i, r);
  }

  lemma SlotMapRemove(vms: map<string, Vm>, slot: string -> int, k: string, i: nat, r: Resource)
    ensures SlotMap(vms, slot, i, r) - {k} == SlotMap(vms - {k}, slot, i, r)
  {
    var a, b := SlotMap(vms, slot, i, r) - {k}, SlotMap(vms - {k}, slot, i, r);
    assert a.Keys == b.Keys;
    forall key | key in a ensures a[key] == b[key] {
      assert (vms - {k})[key] == vms[key];
    }
  }

  /** Numbering one more entry of `s`. */
  lemma NumberedStep<T>(prefix: string, s: seq<T>, i: nat)
    requires i < |s|
    ensures Numbered(prefix, s[..i + 1]) == Numbered(prefix, s[..i])[prefix + NatToString(i + 1) := s[i]]
  {
    assert s[..i + 1] == s[..i] + [s[i]];
    NumberedSnoc(prefix, s[..i], s[i]);
  }

  /**
   * The list `used` for resource `r` accounts for the VMs of `all` that are
   * not in `rest`: adding what `rest` still adds gives every entry's total.
   */
  ghost predicate Accounts(used: seq<real>, rest: map<string, Vm>, all: map<string, Vm>, slot: string -> int, r: Resource)
  {
    forall i :: 0 <= i < |used| ==> used[i] + SlotLoad(rest, slot, i, r) == SlotLoad(all, slot, i, r)
  }

  lemma AccountsStart(used: seq<real>, all: map<string, Vm>, slot: string -> int, r: Resource)
    requires forall i :: 0 <= i < |used| ==> used[i] == 0.0
    ensures Accounts(used, all, all, slot, r)
  {
  }

  /** Adding one more VM's use to the entry of its host. */
  lemma AccountsStep(before: seq<real>, rest: map<string, Vm>, all: map<string, Vm>,
                     slot: string -> int, k: string, r: Resource)
    requires Accounts(before, rest, all, slot, r) && k in rest
    requires 0 <= slot(rest[k].currentHost) < |before|
    ensures var i := slot(rest[k].currentHost);
      Accounts(before[i := before[i] + Demand(rest[k], r)], rest - {k}, all, slot, r)
  {
    var after := before[slot(rest[k].currentHost) := before[slot(rest[k].currentHost)] + Demand(rest[k], r)];
    forall i | 0 <= i < |after| ensures after[i] + SlotLoad(rest - {k}, slot, i, r) == SlotLoad(all, slot, i, r) {
      SlotLoadRemove(rest, slot, k, i, r);
    }
  }

  /** Once every VM is added, each entry holds its total. */
  lemma AccountsEnd(used: seq<real>, rest: map<string, Vm>, all: map<string, Vm>, slot: string -> int, r: Resource)
    requires Accounts(used, rest, all, slot, r) && rest == map[]
    ensures forall i :: 0 <= i < |used| ==> used[i] == SlotLoad(all, slot, i, r)
  {
    forall i | 0 <= i < |used| ensures used[i] == SlotLoad(all, slot, i, r) {
      SumValuesEmpty(SlotMap(rest, slot, i, r));
    }
  }

  /**
   * `used[host_index] += vm[r]` for the VM under key `k`, where `used` is
   * `cpu_used` (for `Cpu`) or `mem_used` (for `Memory`).
   */
  method AddVmUse(used: array<real>, rest: map<string, Vm>, ghost all: map<string, Vm>,
                  slot: string -> int, k: string, r: Resource)
    requires k in rest && 0 <= slot(rest[k].currentHost) < used.Length
    requires Accounts(used[..], rest, all, slot, r)
    modifies used
    ensures Accounts(used[..], rest - {k}, all, slot, r)
  {
    var index := slot(rest[k].currentHost);
    AccountsStep(used[..], rest, all, slot, k, r);
    AddAt(used, index, Demand(rest[k], r));
  }

  /** `used[index] += amount`. */
  method AddAt(used: array<real>, index: nat, amount: real)
    requires index < used.Length
    modifies used
    ensures used[..] == old(used[..])[index := old(used[..])[index] + amount]
  {
    used[index] := used[index] + amount;
  }

  /** One pass of the first loop of `generate_hosts`: some VM not yet added is added to both lists. */
  method AddNextVm(cpuUsed: array<real>, memUsed: array<real>, rest: map<string, Vm>, ghost all: map<string, Vm>,
                   slot: string -> int)
    returns (next: map<string, Vm>)
    requires rest != map[] && cpuUsed != memUsed && cpuUsed.Length == memUsed.Length
    requires InRange(rest, slot, cpuUsed.Length)
    requires Accounts(cpuUsed[..], rest, all, slot, Cpu) && Accounts(memUsed[..], rest, all, slot, Memory)
    modifies cpuUsed, memUsed
    ensures |next| < |rest| && InRange(next, slot, cpuUsed.Length)
    ensures Accounts(cpuUsed[..], next, all, slot, Cpu) && Accounts(memUsed[..], next, all, slot, Memory)
  {
    var k :| k in rest;
    AddVmUse(cpuUsed, rest, all, slot, k, Cpu);
    AddVmUse(memUsed, rest, all, slot, k, Memory);
    assert (rest - {k}).Keys == rest.Keys - {k};
    next := rest - {k};
  }

  /**
   * The first loop of `generate_hosts`: every VM's CPU and memory use added
   * to entry `slot(vm["current_host"])` of two lists of `total_hosts` zeros.
   */
  method SumUsePerHost(totalHosts: nat, vms: map<string, Vm>, slot: string -> int)
    returns (cpuUsed: array<real>, memUsed: array<real>)
    requires InRange(vms, slot, totalHosts)
    ensures fresh(cpuUsed) && fresh(memUsed)
    ensures cpuUsed.Length == totalHosts && memUsed.Length == totalHosts
    ensures forall i :: 0 <= i < totalHosts ==> cpuUsed[i] == SlotLoad(vms, slot, i, Cpu)
    ensures forall i :: 0 <= i < totalHosts ==> memUsed[i] == SlotLoad(vms, slot, i, Memory)
  {
    cpuUsed := new real[totalHosts](_ => 0.0);
    memUsed := new real[totalHosts](_ => 0.0);
    var rest := vms;
    AccountsStart(cpuUsed[..], vms, slot, Cpu);
    AccountsStart(memUsed[..], vms, slot, Memory);
    while rest != map[]
      invariant cpuUsed.Length == totalHosts && memUsed.Length == totalHosts
      invariant InRange(rest, slot, totalHosts)
      invariant Accounts(cpuUsed[..], rest, vms, slot, Cpu)
      invariant Accounts(memUsed[..], rest, vms, slot, Memory)
      decreases |rest|
    {
      rest := AddNextVm(cpuUsed, memUsed, rest, vms, slot);
    }
    AccountsEnd(cpuUsed[..], rest, vms, slot, Cpu);
    AccountsEnd(memUsed[..], rest, vms, slot, Memory);
  }

  /**
   * `generate_hosts(total_hosts, vms)`: sums the VMs' use per host, then
   * creates `"Host 1"`, `"Host 2"`, ... from those sums with the fixed
   * capacities.
   */
  method GenerateHosts(totalHosts: nat, vms: map<string, Vm>) returns (hosts: map<string, Host>)
    requires HostRefs(vms, totalHosts)
    ensures hosts == Numbered("Host ", HostRows(vms, totalHosts))
  {
    var cpuUsed, memUsed := SumUsePerHost(totalHosts, vms, SlotOf(totalHosts));
    ghost var rows := HostRows(vms, totalHosts);
    hosts := map[];
    for i := 0 to totalHosts
      invariant forall j :: 0 <= j < totalHosts ==> cpuUsed[j] == rows[j].cpuUsed && memUsed[j] == rows[j].memUsed
      invariant hosts == Numbered("Host ", rows[..i])
    {
      NumberedStep("Host ", rows, i);
      assert Host("CPU", cpuUsed[i], memUsed[i], CPU_CAP as real, MEMORY_CAP as real) == rows[i];
      hosts := hosts[HostName(i + 1) := Host("CPU", cpuUsed[i], memUsed[i], CPU_CAP as real, MEMORY_CAP as real)];
    }
    assert rows[..totalHosts] == rows;
  }

  // What generate_hosts produces

  /** `generate_hosts` creates exactly `"Host 1"` to `"Host total_hosts"`. */
  lemma GeneratedHostNames(totalHosts: nat, vms: map<string, Vm>)
    ensures var hosts := Numbered("Host ", HostRows(vms, totalHosts));
      hosts.Keys == NumberKeys("Host ", totalHosts) && |hosts| == totalHosts
  {
    NumberedKeys("Host ", HostRows(vms, totalHosts));
    NumberedSize("Host ", HostRows(vms, totalHosts));
  }

  /** Host `h + 1` has processor type `"CPU"`, the fixed capacities, and the use summed into entry `h`. */
  lemma GeneratedHost(totalHosts: nat, vms: map<string, Vm>, h: nat)
    requires h < totalHosts
    ensures var hosts := Numbered("Host ", HostRows(vms, totalHosts));
      && HostName(h + 1) in hosts
      && hosts[HostName(h + 1)] == Host("CPU", SlotLoad(vms, SlotOf(totalHosts), h, Cpu),
                                        SlotLoad(vms, SlotOf(totalHosts), h, Memory),
                                        CPU_CAP as real, MEMORY_CAP as real)
  {
    var rows := HostRows(vms, totalHosts);
    NumberedAt("Host ", rows, h + 1);
    assert HostName(h + 1) == "Host " + NatToString(h + 1);
    assert rows[h] == Host("CPU", SlotLoad(vms, SlotOf(totalHosts), h, Cpu),
                           SlotLoad(vms, SlotOf(totalHosts), h, Memory),
                           CPU_CAP as real, MEMORY_CAP as real);
  }

  /** `"Host j"` is read back as index `j - 1`. */
  lemma HostNameSlot(j: nat, hosts: nat)
    requires 1 <= j <= hosts
    ensures HostRef(HostName(j), hosts) && Slot(HostName(j), hosts) == j - 1
  {
    HostNameParses(j);
  }

  /** The names `"Host 1"` to `"Host n"`. */
  ghost predicate OnGeneratedHosts(vms: map<string, Vm>, hosts: nat)
  {
    forall key :: key in vms ==> vms[key].currentHost in NumberKeys("Host ", hosts)
  }

  lemma GeneratedHostsAreRefs(vms: map<string, Vm>, hosts: nat)
    requires OnGeneratedHosts(vms, hosts)
    ensures HostRefs(vms, hosts)
  {
    forall key | key in vms ensures HostRef(vms[key].currentHost, hosts) {
      var j: nat :| 1 <= j <= hosts && vms[key].currentHost == "Host " + NatToString(j);
      HostNameSlot(j, hosts);
    }
  }

  /** Among the hosts `"Host 1"` to `"Host n"`, `"Host k"` alone is read back as index `k - 1`. */
  lemma SlotOfGeneratedHost(name: string, hosts: nat, k: nat)
    requires name in NumberKeys("Host ", hosts) && 1 <= k <= hosts
    ensures (Slot(name, hosts) == k - 1) == (name == HostName(k))
  {
    var j: nat :| 1 <= j <= hosts && name == "Host " + NatToString(j);
    HostNameSlot(j, hosts);
    if HostName(j) == HostName(k) {
      HostNameInjective(j, k);
    }
  }

  /** `SlotOf` picks `"Host h+1"` alone out of the hosts `"Host 1"` to `"Host n"` as index `h`. */
  lemma SlotOfPicks(hosts: nat, h: nat)
    requires h < hosts
    ensures Picks(SlotOf(hosts), hosts, h, HostName(h + 1))
  {
    forall name | name in NumberKeys("Host ", hosts)
      ensures (SlotOf(hosts)(name) == h) == (name == HostName(h + 1))
    {
      SlotOfGeneratedHost(name, hosts, h + 1);
    }
  }

  /** Among the hosts `"Host 1"` to `"Host n"`, `slot` maps `name` alone to `i`. */
  ghost predicate Picks(slot: string -> int, hosts: nat, i: nat, name: string)
  {
    forall n :: n in NumberKeys("Host ", hosts) ==> ((slot(n) == i) == (n == name))
  }

  /** An index that picks out exactly the VMs on `name` gives that host's load. */
  lemma SlotLoadPicks(vms: map<string, Vm>, slot: string -> int, hosts: nat, i: nat, name: string, r: Resource)
    requires OnGeneratedHosts(vms, hosts)
    requires Picks(slot, hosts, i, name)
    ensures SlotLoad(vms, slot, i, r) == HostLoad(vms, name, r)
  {
    assert SlotMap(vms, slot, i, r) == LoadMap(vms, name, r);
  }

  /**
   * For VMs on the hosts `"Host 1"` to `"Host n"`, entry `h` of the lists
   * is the use of the VMs whose `current_host` is `"Host h+1"`, and 0 when
   * there is none.
   */
  lemma SlotLoadIsHostLoad(vms: map<string, Vm>, hosts: nat, h: nat, r: Resource)
    requires OnGeneratedHosts(vms, hosts) && h < hosts
    ensures SlotLoad(vms, SlotOf(hosts), h, r) == HostLoad(vms, HostName(h + 1), r)
  {
    SlotOfPicks(hosts, h);
    SlotLoadPicks(vms, SlotOf(hosts), hosts, h, HostName(h + 1), r);
  }

  /** A host no VM runs on carries no load. */
  lemma HostLoadUnused(vms: map<string, Vm>, name: string, r: Resource)
    requires name !in HostsInUse(vms)
    ensures HostLoad(vms, name, r) == 0.0
  {
    SumValuesZero(LoadMap(vms, name, r));
  }

  /**
   * For VMs on the hosts `"Host 1"` to `"Host n"`, each host records as used
   * the total use of the VMs whose `current_host` is that host.
   */
  lemma GeneratedHostRecord(totalHosts: nat, vms: map<string, Vm>, h: nat)
    requires OnGeneratedHosts(vms, totalHosts) && h < totalHosts
    ensures var hosts := Numbered("Host ", HostRows(vms, totalHosts));
      && HostName(h + 1) in hosts
      && hosts[HostName(h + 1)] == Host("CPU", HostLoad(vms, HostName(h + 1), Cpu), HostLoad(vms, HostName(h + 1), Memory),
                                        CPU_CAP as real, MEMORY_CAP as real)
  {
    GeneratedHost(totalHosts, vms, h);
    SlotLoadIsHostLoad(vms, totalHosts, h, Cpu);
    SlotLoadIsHostLoad(vms, totalHosts, h, Memory);
  }

  /** The VMs `generate_vms` lays out are on the hosts `generate_hosts` creates. */
  lemma LayoutOnGeneratedHosts(d: Draws, hosts: nat)
    requires Shaped(d, hosts)
    ensures OnGeneratedHosts(Numbered("VM ", Layout(d, hosts, hosts)), hosts)
  {
    GeneratedVmsPlaced(d, hosts);
  }

  /** So `generate_hosts` may be called on them. */
  lemma LayoutHostRefs(d: Draws, hosts: nat)
    requires Shaped(d, hosts)
    ensures HostRefs(Numbered("VM ", Layout(d, hosts, hosts)), hosts)
  {
    LayoutOnGeneratedHosts(d, hosts);
    GeneratedHostsAreRefs(Numbered("VM ", Layout(d, hosts, hosts)), hosts);
  }

  /** Each host generated for the VMs `generate_vms` lays out records the totals drawn for it. */
  lemma GeneratedHostTotals(d: Draws, hosts: nat, h: nat)
    requires Shaped(d, hosts) && h < hosts
    ensures var cluster := Numbered("Host ", HostRows(Numbered("VM ", Layout(d, hosts, hosts)), hosts));
      && HostName(h + 1) in cluster
      && cluster[HostName(h + 1)] == Host("CPU", d.cpuTotals[h] as real, d.memTotals[h] as real,
                                          CPU_CAP as real, MEMORY_CAP as real)
  {
    LayoutLoads(d, hosts, h);
    HostRecordOfLoads(hosts, Numbered("VM ", Layout(d, hosts, hosts)), h, d.cpuTotals[h] as real, d.memTotals[h] as real);
  }

  lemma HostRecordOfLoads(totalHosts: nat, vms: map<string, Vm>, h: nat, cpu: real, mem: real)
    requires OnGeneratedHosts(vms, totalHosts) && h < totalHosts
    requires HostLoad(vms, HostName(h + 1), Cpu) == cpu && HostLoad(vms, HostName(h + 1), Memory) == mem
    ensures var hosts := Numbered("Host ", HostRows(vms, totalHosts));
      HostName(h + 1) in hosts && hosts[HostName(h + 1)] == Host("CPU", cpu, mem, CPU_CAP as real, MEMORY_CAP as real)
  {
    GeneratedHostRecord(totalHosts, vms, h);
  }

  lemma LayoutLoads(d: Draws, hosts: nat, h: nat)
    requires Shaped(d, hosts) && h < hosts
    ensures var vms := Numbered("VM ", Layout(d, hosts, hosts));
      && OnGeneratedHosts(vms, hosts)
      && HostLoad(vms, HostName(h + 1), Cpu) == d.cpuTotals[h] as real
      && HostLoad(vms, HostName(h + 1), Memory) == d.memTotals[h] as real
  {
    LayoutOnGeneratedHosts(d, hosts);
    GeneratedLoad(d, hosts, h, Cpu);
    GeneratedLoad(d, hosts, h, Memory);
  }

  /**
   * The generated cluster, `generate_hosts(total_hosts, generate_vms(total_vms,
   * total_hosts))`: `generate_hosts` may be called, and each host starts
   * below its capacities.
   */
  lemma GeneratedClusterUnderCap(totalVms: nat, totalHosts: nat, d: Draws, h: nat)
    requires ValidDraws(totalVms, totalHosts, d) && h < totalHosts
    ensures var vms := Numbered("VM ", Layout(d, totalHosts, totalHosts));
      && HostRefs(vms, totalHosts)
      && var cluster := Numbered("Host ", HostRows(vms, totalHosts));
      && HostName(h + 1) in cluster
      && cluster[HostName(h + 1)].cpuUsed < cluster[HostName(h + 1)].cpuCap
      && cluster[HostName(h + 1)].memUsed < cluster[HostName(h + 1)].memCap
  {
    ValidDrawsShaped(totalVms, totalHosts, d);
    LayoutHostRefs(d, totalHosts);
    GeneratedHostTotals(d, totalHosts, h);
  }
}
