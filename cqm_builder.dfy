/**
 * `build_cqm` of the balancer: the constrained quadratic model that asks a
 * solver to place every VM on exactly one host while keeping each host's
 * CPU and memory load at or under its share of the total demand.
 *
 * The model's binaries and constraint labels are kept as small datatypes;
 * the strings dimod knows them by are `BinaryLabel` and `NameLabel`.  The
 * lemmas at the end show that constraint labels never collide, and that for
 * safe ids (see `Labels.SafeVmId`) the binaries' labels do not collide either
 * and split back into the VM and host they name.  With other ids two binaries
 * can share a label, which dimod would treat as one variable.
 */
module CqmBuilder {
  import opened Wrappers
  import opened Text
  import opened Aggregates
  import opened Cluster
  import opened Labels
  import opened CqmBalancer

  /** `Binary(f"{vm}_on_{host}")`: 1 when `vm` is to run on `host`. */
  datatype Binary = Assign(vm: string, host: string)

  /** The label dimod knows a binary by. */
  function BinaryLabel(b: Binary): (s: string)
    ensures SafeVmId(b.vm) && SafeHostId(b.host) ==> SplitLabel(s) == Some((b.vm, b.host))
  {
    if SafeVmId(b.vm) && SafeHostId(b.host) then
      LabelRoundTrip(b.vm, b.host);
      Label(b.vm, b.host)
    else
      Label(b.vm, b.host)
  }

  /** The label of a constraint: `f"cpu_{host}"`, `f"mem_{host}"` or `f"discrete_{vm}"`. */
  datatype Name = CpuCap(host: string) | MemCap(host: string) | Discrete(vm: string)

  function NameLabel(n: Name): (s: string)
    ensures |s| >= 4
    ensures (s[..4] == "cpu_") == n.CpuCap? && (s[..4] == "mem_") == n.MemCap?
    ensures !n.Discrete? ==> s[4..] == n.host
    ensures n.Discrete? ==> |s| >= 9 && s[..9] == "discrete_" && s[9..] == n.vm
  {
    match n
    case CpuCap(h) => "cpu_" + h
    case MemCap(h) => "mem_" + h
    case Discrete(v) =>
      assert ("discrete_" + v)[..4] == "disc";
      "discrete_" + v
  }

  /** The capacity constraint label of a host for a resource. */
  function CapName(r: Resource, host: string): Name
  {
    match r
    case Cpu => CpuCap(host)
    case Memory => MemCap(host)
  }

  /**
   * A constraint of the model: a weighted sum of binaries at most `rhs`
   * (hard when `weight` is None, soft with that weight otherwise), or a
   * one-hot group of binaries of which exactly one is 1.
   */
  datatype Constraint =
    | AtMost(lhs: map<Binary, real>, rhs: real, weight: Option<real>, penalty: string)
    | OneHot(variables: set<Binary>)

  /** The parts of a constrained quadratic model that `build_cqm` sets: a linear objective and labelled constraints. */
  datatype Cqm = Cqm(objective: map<Binary, real>, constraints: map<Name, Constraint>)

  /** The binaries a constraint mentions. */
  function Variables(c: Constraint): set<Binary>
  {
    match c
    case AtMost(lhs, _, _, _) => lhs.Keys
    case OneHot(vs) => vs
  }

  /** `cqm.variables`: every binary the objective or a constraint mentions. */
  function VariablesOf(cqm: Cqm): set<Binary>
  {
    cqm.objective.Keys + set n, x | n in cqm.constraints && x in Variables(cqm.constraints[n]) :: x
  }

  /** `cqm.add_constraint(..., label=n)` and `cqm.add_discrete(..., label=n)`; dimod refuses a label used before. */
  function AddConstraint(cqm: Cqm, n: Name, c: Constraint): (r: Cqm)
    requires n !in cqm.constraints
    ensures r.constraints.Keys == cqm.constraints.Keys + {n} && r.constraints[n] == c
    ensures forall k :: k in cqm.constraints ==> r.constraints[k] == cqm.constraints[k]
    ensures r.objective == cqm.objective
  {
    cqm.(constraints := cqm.constraints[n := c])
  }

  /** `{host_id: host_data["cpu_cap"] ...}` or the same for memory: what each host offers. */
  function Available(hosts: map<string, Host>, r: Resource): (avail: map<string, real>)
    ensures avail.Keys == hosts.Keys
  {
    map h | h in hosts :: Cap(hosts[h], r)
  }

  /** `host_cpu * total_requested / total_available`. */
  function Share(capacity: real, totalRequested: real, totalAvailable: real): (share: real)
    requires totalAvailable != 0.0
    ensures Times(share, totalAvailable) == Times(capacity, totalRequested)
  {
    TimesQuotient(totalAvailable, Times(capacity, totalRequested));
    Times(capacity, totalRequested) / totalAvailable
  }

  /** `balanced_cpu` / `balanced_mem`: each host's part of the total demand, in proportion to its capacity. */
  function Balanced(available: map<string, real>, totalRequested: real, totalAvailable: real): (b: map<string, real>)
    requires |available| > 0 ==> totalAvailable != 0.0
    ensures b.Keys == available.Keys
  {
    map h | h in available :: Share(available[h], totalRequested, totalAvailable)
  }

  /** The source divides by both total capacities whenever there is a host. */
  ghost predicate CanBalance(hosts: map<string, Host>)
  {
    |hosts| > 0 ==> SumValues(Available(hosts, Cpu)) != 0.0 && SumValues(Available(hosts, Memory)) != 0.0
  }

  /** The right-hand sides of the capacity constraints for `r`. */
  ghost function Target(vms: map<string, Vm>, hosts: map<string, Host>, r: Resource): (t: map<string, real>)
    requires CanBalance(hosts)
    ensures t.Keys == hosts.Keys
  {
    Balanced(Available(hosts, r), SumValues(Requested(vms, r)), SumValues(Available(hosts, r)))
  }

  /**
   * `quicksum(requested[vm] * Binary(f"{vm}_on_{host}") for vm in requested)`:
   * the load a placement puts on `host`.
   */
  function LoadSum(requested: map<string, real>, host: string): (sum: map<Binary, real>)
    ensures forall b :: b in sum <==> b.host == host && b.vm in requested
    ensures forall b :: b in sum ==> sum[b] == requested[b.vm]
  {
    map v | v in requested :: Assign(v, host) := requested[v]
  }

  /** The sum for `host` weighs the binary of each VM on that host by the VM's demand, and mentions no other binary. */
  lemma LoadSumTerms(requested: map<string, real>, host: string, b: Binary)
    ensures b in LoadSum(requested, host) <==> b.host == host && b.vm in requested
    ensures b in LoadSum(requested, host) ==> LoadSum(requested, host)[b] == requested[b.vm]
  {
  }

  /** `weight=1` for the soft constraint, none for the hard one. */
  function Weight(hard: bool): (weight: Option<real>)
    ensures weight.None? <==> hard
    ensures weight.Some? ==> weight.value == 1.0
  {
    if hard then None else Some(1.0)
  }

  /** What one resource brings to the model: each VM's demand and each host's target. */
  datatype Balance = Balance(requested: map<string, real>, target: map<string, real>)

  /** The demands and targets `build_cqm` computes for `r`. */
  ghost function BalanceOf(vms: map<string, Vm>, hosts: map<string, Host>, r: Resource): (b: Balance)
    requires CanBalance(hosts)
    ensures b.requested.Keys == vms.Keys && b.target.Keys == hosts.Keys
  {
    Balance(Requested(vms, r), Target(vms, hosts, r))
  }

  /** The capacity constraint on one host: its load at most its target. */
  function CapacityConstraint(b: Balance, hard: bool, h: string): Constraint
    requires h in b.target
  {
    AtMost(LoadSum(b.requested, h), b.target[h], Weight(hard), "quadratic")
  }

  /** The capacity constraints for `r` on the hosts in `done`. */
  function CapacityConstraints(b: Balance, r: Resource, hard: bool, done: set<string>): map<Name, Constraint>
    requires done <= b.target.Keys
  {
    map h | h in done :: CapName(r, h) := CapacityConstraint(b, hard, h)
  }

  /** `[f"{vm}_on_{host}" for host in hosts]`: the binaries that place `v` somewhere. */
  function Placements(v: string, hostIds: set<string>): set<Binary>
  {
    set h | h in hostIds :: Assign(v, h)
  }

  /** The one-hot constraints of the VMs in `done`. */
  function OneHots(done: set<string>, hostIds: set<string>): map<Name, Constraint>
  {
    map v | v in done :: Discrete(v) := OneHot(Placements(v, hostIds))
  }

  /** The model once the constraint loop has handled the hosts in `done`; the priority resource is hard. */
  function CapacityStage(cpu: Balance, mem: Balance, priority: PriorityType, done: set<string>): Cqm
    requires done <= cpu.target.Keys && done <= mem.target.Keys
  {
    Cqm(map[], CapacityConstraints(cpu, Cpu, priority == Cpu, done) + CapacityConstraints(mem, Memory, priority == Memory, done))
  }

  /** The model once the one-hot loop has handled the VMs in `placed`. */
  function OneHotStage(stage: Cqm, placed: set<string>, hostIds: set<string>): Cqm
  {
    stage.(constraints := stage.constraints + OneHots(placed, hostIds))
  }

  /** The model `build_cqm` returns. */
  ghost function CqmSpec(vms: map<string, Vm>, hosts: map<string, Host>, priority: PriorityType): (cqm: Cqm)
    requires CanBalance(hosts)
    ensures cqm.objective == map[]
  {
    var stage := CapacityStage(BalanceOf(vms, hosts, Cpu), BalanceOf(vms, hosts, Memory), priority, hosts.Keys);
    OneHotStage(stage, vms.Keys, hosts.Keys)
  }

  // The loops of build_cqm, step by step

  /** Moving one element from the pending set to the handled set keeps the handled set the complement. */
  lemma HandOver<T>(all: set<T>, todo: set<T>, x: T)
    requires x in todo && todo <= all
    ensures (all - todo) + {x} == all - (todo - {x})
  {
  }

  /** The capacity constraints for `r` are labelled by the handled hosts, and by nothing else. */
  lemma CapacityConstraintsKeys(b: Balance, r: Resource, hard: bool, done: set<string>, n: Name)
    requires done <= b.target.Keys
    ensures n in CapacityConstraints(b, r, hard, done) <==> !n.Discrete? && n == CapName(r, n.host) && n.host in done
  {
  }

  lemma CapacityConstraintsAdd(b: Balance, r: Resource, hard: bool, done: set<string>, h: string)
    requires done <= b.target.Keys && h in b.target && h !in done
    ensures CapName(r, h) !in CapacityConstraints(b, r, hard, done)
    ensures CapacityConstraints(b, r, hard, done + {h})
         == CapacityConstraints(b, r, hard, done)[CapName(r, h) := CapacityConstraint(b, hard, h)]
  {
    var m0 := CapacityConstraints(b, r, hard, done);
    var m1 := CapacityConstraints(b, r, hard, done + {h});
    var n := CapName(r, h);
    CapacityConstraintsKeys(b, r, hard, done, n);
    forall k ensures k in m1 <==> k in m0 || k == n {
      CapacityConstraintsKeys(b, r, hard, done, k);
      CapacityConstraintsKeys(b, r, hard, done + {h}, k);
    }
    forall k | k in m0 ensures m1[k] == m0[k] {
      CapacityConstraintsValue(b, r, hard, done, k);
      CapacityConstraintsValue(b, r, hard, done + {h}, k);
    }
    CapacityConstraintsValue(b, r, hard, done + {h}, n);
    MapInsert(m0, m1, n, CapacityConstraint(b, hard, h));
  }

  /** A map with one key more than `m0`, agreeing with it elsewhere, is `m0` updated at that key. */
  lemma MapInsert<K, V>(m0: map<K, V>, m1: map<K, V>, n: K, v: V)
    requires forall k :: k in m1 <==> k in m0 || k == n
    requires forall k :: k in m0 ==> m1[k] == m0[k]
    requires n in m1 && m1[n] == v
    ensures m1 == m0[n := v]
  {
  }

  /** The capacity constraint labelled `n` is the one of host `n.host`. */
  lemma CapacityConstraintsValue(b: Balance, r: Resource, hard: bool, done: set<string>, n: Name)
    requires done <= b.target.Keys && n in CapacityConstraints(b, r, hard, done)
    ensures !n.Discrete? && n.host in done
    ensures CapacityConstraints(b, r, hard, done)[n] == CapacityConstraint(b, hard, n.host)
  {
    CapacityConstraintsKeys(b, r, hard, done, n);
  }

  /** A CPU label is never a memory label. */
  lemma CapacityKeysApart(b: Balance, r: Resource, hard: bool, done: set<string>, n: Name)
    requires done <= b.target.Keys
    requires n in CapacityConstraints(b, r, hard, done)
    ensures n == CapName(r, n.host)
  {
  }

  /** Updating a union at a key the right operand lacks, then at a key the left operand lacks. */
  lemma UnionUpdate<K, V>(a: map<K, V>, b: map<K, V>, k1: K, v1: V, k2: K, v2: V)
    requires k1 !in b
    ensures (a + b)[k1 := v1][k2 := v2] == a[k1 := v1] + b[k2 := v2]
  {
  }

  /** One pass of the constraint loop adds the host's two capacity constraints under fresh labels. */
  lemma CapacityStageAdd(cpu: Balance, mem: Balance, priority: PriorityType, done: set<string>, h: string)
    requires done <= cpu.target.Keys && done <= mem.target.Keys && h in cpu.target && h in mem.target && h !in done
    ensures CpuCap(h) !in CapacityStage(cpu, mem, priority, done).constraints
    ensures MemCap(h) !in CapacityStage(cpu, mem, priority, done).constraints
    ensures AddConstraint(AddConstraint(CapacityStage(cpu, mem, priority, done), CpuCap(h), CapacityConstraint(cpu, priority == Cpu, h)),
                          MemCap(h), CapacityConstraint(mem, priority == Memory, h))
         == CapacityStage(cpu, mem, priority, done + {h})
  {
    var a := CapacityConstraints(cpu, Cpu, priority == Cpu, done);
    var b := CapacityConstraints(mem, Memory, priority == Memory, done);
    CapacityConstraintsAdd(cpu, Cpu, priority == Cpu, done, h);
    CapacityConstraintsAdd(mem, Memory, priority == Memory, done, h);
    if CpuCap(h) in b {
      CapacityKeysApart(mem, Memory, priority == Memory, done, CpuCap(h));
    }
    if MemCap(h) in a {
      CapacityKeysApart(cpu, Cpu, priority == Cpu, done, MemCap(h));
    }
    UnionUpdate(a, b, CpuCap(h), CapacityConstraint(cpu, priority == Cpu, h), MemCap(h), CapacityConstraint(mem, priority == Memory, h));
  }

  /** The constraint loop labels nothing as discrete. */
  lemma CapacityStageHasNoDiscrete(cpu: Balance, mem: Balance, priority: PriorityType, done: set<string>)
    requires done <= cpu.target.Keys && done <= mem.target.Keys
    ensures forall n :: n in CapacityStage(cpu, mem, priority, done).constraints ==> !n.Discrete?
  {
    forall n | n in CapacityStage(cpu, mem, priority, done).constraints ensures !n.Discrete? {
      if n in CapacityConstraints(cpu, Cpu, priority == Cpu, done) {
        CapacityKeysApart(cpu, Cpu, priority == Cpu, done, n);
      } else {
        CapacityKeysApart(mem, Memory, priority == Memory, done, n);
      }
    }
  }

  lemma OneHotsAdd(done: set<string>, hostIds: set<string>, v: string)
    requires v !in done
    ensures Discrete(v) !in OneHots(done, hostIds)
    ensures OneHots(done + {v}, hostIds) == OneHots(done, hostIds)[Discrete(v) := OneHot(Placements(v, hostIds))]
  {
    var m1 := OneHots(done + {v}, hostIds);
    assert m1.Keys == OneHots(done, hostIds).Keys + {Discrete(v)};
  }

  /** After the constraint loop, each handled host has its constraint for each resource. */
  lemma CapacityStageAt(cpu: Balance, mem: Balance, priority: PriorityType, done: set<string>, r: Resource, h: string)
    requires done <= cpu.target.Keys && done <= mem.target.Keys && h in done
    ensures CapName(r, h) in CapacityStage(cpu, mem, priority, done).constraints
    ensures !CapName(r, h).Discrete?
    ensures CapacityStage(cpu, mem, priority, done).constraints[CapName(r, h)]
         == CapacityConstraint(if r == Cpu then cpu else mem, priority == r, h)
  {
    var a := CapacityConstraints(cpu, Cpu, priority == Cpu, done);
    var b := CapacityConstraints(mem, Memory, priority == Memory, done);
    if r == Cpu {
      if CpuCap(h) in b {
        CapacityKeysApart(mem, Memory, priority == Memory, done, CpuCap(h));
      }
      assert a[CpuCap(h)] == CapacityConstraint(cpu, priority == Cpu, h);
    } else {
      assert b[MemCap(h)] == CapacityConstraint(mem, priority == Memory, h);
    }
  }

  /** The constraint loop names its constraints after the hosts it has handled. */
  lemma CapacityStageNames(cpu: Balance, mem: Balance, priority: PriorityType, done: set<string>, n: Name)
    requires done <= cpu.target.Keys && done <= mem.target.Keys
    ensures n in CapacityStage(cpu, mem, priority, done).constraints <==> !n.Discrete? && n.host in done
  {
    var a := CapacityConstraints(cpu, Cpu, priority == Cpu, done);
    var b := CapacityConstraints(mem, Memory, priority == Memory, done);
    if n in a {
      CapacityKeysApart(cpu, Cpu, priority == Cpu, done, n);
    }
    if n in b {
      CapacityKeysApart(mem, Memory, priority == Memory, done, n);
    }
    if !n.Discrete? && n.host in done {
      if n.CpuCap? {
        assert n == CapName(Cpu, n.host) && n in a;
      } else {
        assert n == CapName(Memory, n.host) && n in b;
      }
    }
  }

  /** The one-hot loop adds the names of the VMs it has handled. */
  lemma OneHotStageNames(stage: Cqm, placed: set<string>, hostIds: set<string>, n: Name)
    ensures n in OneHotStage(stage, placed, hostIds).constraints <==> n in stage.constraints || (n.Discrete? && n.vm in placed)
  {
    if n.Discrete? && n.vm in placed {
      assert n == Discrete(n.vm) && n in OneHots(placed, hostIds);
    }
  }

  /** The one-hot loop leaves the other constraints as they are. */
  lemma OneHotStageKeeps(stage: Cqm, placed: set<string>, hostIds: set<string>, n: Name)
    requires !n.Discrete? && n in stage.constraints
    ensures n in OneHotStage(stage, placed, hostIds).constraints
    ensures OneHotStage(stage, placed, hostIds).constraints[n] == stage.constraints[n]
  {
    assert n !in OneHots(placed, hostIds);
  }

  /** One pass of the one-hot loop adds the VM's group under a fresh label. */
  lemma OneHotStageAdd(stage: Cqm, placed: set<string>, hostIds: set<string>, v: string)
    requires v !in placed && Discrete(v) !in stage.constraints
    ensures Discrete(v) !in OneHotStage(stage, placed, hostIds).constraints
    ensures AddConstraint(OneHotStage(stage, placed, hostIds), Discrete(v), OneHot(Placements(v, hostIds)))
         == OneHotStage(stage, placed + {v}, hostIds)
  {
    OneHotsAdd(placed, hostIds, v);
    UnionUpdate(stage.constraints, OneHots(placed, hostIds), Discrete(v), OneHot(Placements(v, hostIds)),
                Discrete(v), OneHot(Placements(v, hostIds)));
  }

  /** `sum` holds, under the constraint label of each host in `done`, that host's weighted sum (`sum_cpu` or `sum_mem`). */
  predicate HoldsSums(sum: map<Name, map<Binary, real>>, requested: map<string, real>, r: Resource, done: set<string>)
  {
    forall h :: h in done ==> CapName(r, h) in sum && sum[CapName(r, h)] == LoadSum(requested, h)
  }

  lemma HoldsSumsAdd(sum: map<Name, map<Binary, real>>, requested: map<string, real>, r: Resource, done: set<string>, h: string)
    requires HoldsSums(sum, requested, r, done)
    ensures HoldsSums(sum[CapName(r, h) := LoadSum(requested, h)], requested, r, done + {h})
  {
  }

  /** The loop that forms `sum_cpu` and `sum_mem`: one weighted sum per host and resource. */
  method LoadSums(requestedCpu: map<string, real>, requestedMem: map<string, real>, hostIds: set<string>)
    returns (sumCpu: map<Name, map<Binary, real>>, sumMem: map<Name, map<Binary, real>>)
    ensures HoldsSums(sumCpu, requestedCpu, Cpu, hostIds) && HoldsSums(sumMem, requestedMem, Memory, hostIds)
  {
    sumCpu, sumMem := map[], map[];
    var done: set<string> := {};
    var todo := hostIds;
    while todo != {}
      invariant todo <= hostIds && done == hostIds - todo
      invariant HoldsSums(sumCpu, requestedCpu, Cpu, done) && HoldsSums(sumMem, requestedMem, Memory, done)
      decreases |todo|
    {
      var host :| host in todo;
      HoldsSumsAdd(sumCpu, requestedCpu, Cpu, done, host);
      HoldsSumsAdd(sumMem, requestedMem, Memory, done, host);
      sumCpu := sumCpu[CpuCap(host) := LoadSum(requestedCpu, host)];
      sumMem := sumMem[MemCap(host) := LoadSum(requestedMem, host)];
      HandOver(hostIds, todo, host);
      done := done + {host};
      todo := todo - {host};
    }
    assert done == hostIds;
  }

  /** One pass of the constraint loop: the host's CPU and memory constraints, the priority one hard and the other with weight 1. */
  method AddHostConstraints(cqm: Cqm, cpu: Balance, mem: Balance, cpuSum: map<Binary, real>, memSum: map<Binary, real>,
                            priority: PriorityType, ghost done: set<string>, host: string)
    returns (next: Cqm)
    requires host in cpu.target && host in mem.target
    requires cpuSum == LoadSum(cpu.requested, host) && memSum == LoadSum(mem.requested, host)
    requires done <= cpu.target.Keys && done <= mem.target.Keys && host !in done
    requires cqm == CapacityStage(cpu, mem, priority, done)
    ensures next == CapacityStage(cpu, mem, priority, done + {host})
  {
    CapacityStageAdd(cpu, mem, priority, done, host);
    if priority == Cpu {
      next := AddConstraint(cqm, CpuCap(host), AtMost(cpuSum, cpu.target[host], None, "quadratic"));
      next := AddConstraint(next, MemCap(host), AtMost(memSum, mem.target[host], Some(1.0), "quadratic"));
    } else {
      next := AddConstraint(cqm, CpuCap(host), AtMost(cpuSum, cpu.target[host], Some(1.0), "quadratic"));
      next := AddConstraint(next, MemCap(host), AtMost(memSum, mem.target[host], None, "quadratic"));
    }
  }

  /** The constraint loop over the hosts. */
  method AddCapacityConstraints(cpu: Balance, mem: Balance,
                                sumCpu: map<Name, map<Binary, real>>, sumMem: map<Name, map<Binary, real>>,
                                priority: PriorityType, hostIds: set<string>)
    returns (cqm: Cqm)
    requires hostIds <= cpu.target.Keys && hostIds <= mem.target.Keys
    requires HoldsSums(sumCpu, cpu.requested, Cpu, hostIds) && HoldsSums(sumMem, mem.requested, Memory, hostIds)
    ensures cqm == CapacityStage(cpu, mem, priority, hostIds)
  {
    cqm := Cqm(map[], map[]);
    var done: set<string> := {};
    var todo := hostIds;
    assert cqm == CapacityStage(cpu, mem, priority, done);
    while todo != {}
      invariant todo <= hostIds && done == hostIds - todo
      invariant cqm == CapacityStage(cpu, mem, priority, done)
      decreases |todo|
    {
      var host :| host in todo;
      cqm := AddHostConstraints(cqm, cpu, mem, sumCpu[CpuCap(host)], sumMem[MemCap(host)], priority, done, host);
      HandOver(hostIds, todo, host);
      done := done + {host};
      todo := todo - {host};
    }
    assert done == hostIds;
  }

  /** The discrete loop: one one-hot group per VM over its placements on all hosts. */
  method AddOneHots(stage: Cqm, vmIds: set<string>, hostIds: set<string>) returns (cqm: Cqm)
    requires forall n :: n in stage.constraints ==> !n.Discrete?
    ensures cqm == OneHotStage(stage, vmIds, hostIds)
  {
    cqm := stage;
    var placed: set<string> := {};
    var unplaced := vmIds;
    assert cqm == OneHotStage(stage, placed, hostIds);
    while unplaced != {}
      invariant unplaced <= vmIds && placed == vmIds - unplaced
      invariant cqm == OneHotStage(stage, placed, hostIds)
      decreases |unplaced|
    {
      var vm :| vm in unplaced;
      OneHotStageAdd(stage, placed, hostIds, vm);
      cqm := AddConstraint(cqm, Discrete(vm), OneHot(Placements(vm, hostIds)));
      HandOver(vmIds, unplaced, vm);
      placed := placed + {vm};
      unplaced := unplaced - {vm};
    }
    assert placed == vmIds;
  }

  /** The demands, the totals and the balanced targets `build_cqm` computes for one resource. */
  method BalanceFor(vms: map<string, Vm>, hosts: map<string, Host>, r: Resource) returns (b: Balance)
    requires CanBalance(hosts)
    ensures b == BalanceOf(vms, hosts, r)
  {
    var requested := Requested(vms, r);
    var totalRequested := SumOfValues(requested);
    var available := Available(hosts, r);
    var totalAvailable := SumOfValues(available);
    b := Balance(requested, Balanced(available, totalRequested, totalAvailable));
  }

  /**
   * `build_cqm(vms, hosts, priority)`: the per-host sums, the capacity
   * constraints with the priority resource hard and the other soft, and
   * one one-hot group per VM.
   */
  method BuildCqm(vms: map<string, Vm>, hosts: map<string, Host>, priority: PriorityType) returns (cqm: Cqm)
    requires CanBalance(hosts)
    ensures cqm == CqmSpec(vms, hosts, priority)
  {
    var cpu := BalanceFor(vms, hosts, Cpu);
    var mem := BalanceFor(vms, hosts, Memory);
    var sumCpu, sumMem := LoadSums(cpu.requested, mem.requested, hosts.Keys);
    cqm := AddCapacityConstraints(cpu, mem, sumCpu, sumMem, priority, hosts.Keys);
    CapacityStageHasNoDiscrete(cpu, mem, priority, hosts.Keys);
    cqm := AddOneHots(cqm, vms.Keys, hosts.Keys);
  }

  // What build_cqm builds

  /** The names `build_cqm` gives its constraints: two per host and one per VM. */
  predicate NamedBy(vmIds: set<string>, hostIds: set<string>, n: Name)
  {
    match n
    case CpuCap(h) => h in hostIds
    case MemCap(h) => h in hostIds
    case Discrete(v) => v in vmIds
  }

  /** Every VM paired with every host: the binaries of the model. */
  function Grid(vmIds: set<string>, hostIds: set<string>): set<Binary>
  {
    set v, h | v in vmIds && h in hostIds :: Assign(v, h)
  }

  /** The constraint on a host for a resource compares its load with its target; it is hard exactly for the priority resource, which `weight=1` softens otherwise. */
  lemma CapacityConstraintAt(vms: map<string, Vm>, hosts: map<string, Host>, priority: PriorityType, r: Resource, h: string)
    requires CanBalance(hosts) && h in hosts
    ensures CapName(r, h) in CqmSpec(vms, hosts, priority).constraints
    ensures CqmSpec(vms, hosts, priority).constraints[CapName(r, h)]
         == AtMost(LoadSum(Requested(vms, r), h), Target(vms, hosts, r)[h], if priority == r then None else Some(1.0), "quadratic")
  {
    var cpu, mem := BalanceOf(vms, hosts, Cpu), BalanceOf(vms, hosts, Memory);
    var stage := CapacityStage(cpu, mem, priority, hosts.Keys);
    CapacityStageAt(cpu, mem, priority, hosts.Keys, r, h);
    assert CqmSpec(vms, hosts, priority) == OneHotStage(stage, vms.Keys, hosts.Keys);
    OneHotStageKeeps(stage, vms.Keys, hosts.Keys, CapName(r, h));
    assert BalanceOf(vms, hosts, r) == if r == Cpu then cpu else mem;
  }

  /** The one-hot group of a VM holds its placement on each host. */
  lemma OneHotAt(vms: map<string, Vm>, hosts: map<string, Host>, priority: PriorityType, v: string)
    requires CanBalance(hosts) && v in vms
    ensures Discrete(v) in CqmSpec(vms, hosts, priority).constraints
    ensures CqmSpec(vms, hosts, priority).constraints[Discrete(v)] == OneHot(Placements(v, hosts.Keys))
  {
  }

  /** The constraints are named after the hosts and the VMs, and after nothing else. */
  lemma ConstraintNames(vms: map<string, Vm>, hosts: map<string, Host>, priority: PriorityType, n: Name)
    requires CanBalance(hosts)
    ensures n in CqmSpec(vms, hosts, priority).constraints <==> NamedBy(vms.Keys, hosts.Keys, n)
  {
    var cpu, mem := BalanceOf(vms, hosts, Cpu), BalanceOf(vms, hosts, Memory);
    var stage := CapacityStage(cpu, mem, priority, hosts.Keys);
    CapacityStageNames(cpu, mem, priority, hosts.Keys, n);
    OneHotStageNames(stage, vms.Keys, hosts.Keys, n);
    assert CqmSpec(vms, hosts, priority) == OneHotStage(stage, vms.Keys, hosts.Keys);
  }

  /** No objective is set: the model only asks for a feasible placement. */
  lemma NoObjective(vms: map<string, Vm>, hosts: map<string, Host>, priority: PriorityType)
    requires CanBalance(hosts)
    ensures CqmSpec(vms, hosts, priority).objective == map[]
  {
  }

  lemma {:induction false} CapacityConstraintsSize(b: Balance, r: Resource, hard: bool, done: set<string>)
    requires done <= b.target.Keys
    ensures |CapacityConstraints(b, r, hard, done)| == |done|
    decreases |done|
  {
    if done != {} {
      var h :| h in done;
      var rest := done - {h};
      CapacityConstraintsSize(b, r, hard, rest);
      CapacityConstraintsAdd(b, r, hard, rest, h);
      assert rest + {h} == done;
    } else {
      assert CapacityConstraints(b, r, hard, done).Keys == {};
    }
  }

  /** The constraint loop adds two constraints per host. */
  lemma CapacityStageSize(cpu: Balance, mem: Balance, priority: PriorityType, done: set<string>)
    requires done <= cpu.target.Keys && done <= mem.target.Keys
    ensures |CapacityStage(cpu, mem, priority, done).constraints| == 2 * |done|
  {
    var a := CapacityConstraints(cpu, Cpu, priority == Cpu, done);
    var b := CapacityConstraints(mem, Memory, priority == Memory, done);
    CapacityConstraintsSize(cpu, Cpu, priority == Cpu, done);
    CapacityConstraintsSize(mem, Memory, priority == Memory, done);
    forall n | n in a ensures n !in b {
      CapacityKeysApart(cpu, Cpu, priority == Cpu, done, n);
      if n in b {
        CapacityKeysApart(mem, Memory, priority == Memory, done, n);
      }
    }
    assert (a + b).Keys == a.Keys + b.Keys;
    assert a.Keys * b.Keys == {};
  }

  lemma {:induction false} OneHotsSize(done: set<string>, hostIds: set<string>)
    ensures |OneHots(done, hostIds)| == |done|
    decreases |done|
  {
    if done != {} {
      var v :| v in done;
      var rest := done - {v};
      OneHotsSize(rest, hostIds);
      OneHotsAdd(rest, hostIds, v);
      assert rest + {v} == done;
    } else {
      assert OneHots(done, hostIds).Keys == {};
    }
  }

  /** The one-hot loop adds one constraint per VM. */
  lemma OneHotStageSize(stage: Cqm, placed: set<string>, hostIds: set<string>)
    requires forall n :: n in stage.constraints ==> !n.Discrete?
    ensures |OneHotStage(stage, placed, hostIds).constraints| == |stage.constraints| + |placed|
  {
    var a, b := stage.constraints, OneHots(placed, hostIds);
    OneHotsSize(placed, hostIds);
    assert (a + b).Keys == a.Keys + b.Keys;
    assert a.Keys * b.Keys == {};
  }

  /** `len(cqm.constraints) == 2 * len(hosts) + len(vms)`. */
  lemma ConstraintCount(vms: map<string, Vm>, hosts: map<string, Host>, priority: PriorityType)
    requires CanBalance(hosts)
    ensures |CqmSpec(vms, hosts, priority).constraints| == 2 * |hosts| + |vms|
  {
    var cpu, mem := BalanceOf(vms, hosts, Cpu), BalanceOf(vms, hosts, Memory);
    var stage := CapacityStage(cpu, mem, priority, hosts.Keys);
    CapacityStageSize(cpu, mem, priority, hosts.Keys);
    CapacityStageHasNoDiscrete(cpu, mem, priority, hosts.Keys);
    OneHotStageSize(stage, vms.Keys, hosts.Keys);
    assert |hosts.Keys| == |hosts| && |vms.Keys| == |vms|;
  }

  /** A binary in a capacity constraint places a VM on a host. */
  lemma CapacityVariable(vms: map<string, Vm>, hosts: map<string, Host>, priority: PriorityType, r: Resource, h: string, x: Binary)
    requires CanBalance(hosts) && CapName(r, h) in CqmSpec(vms, hosts, priority).constraints
    requires x in Variables(CqmSpec(vms, hosts, priority).constraints[CapName(r, h)])
    ensures x in Grid(vms.Keys, hosts.Keys)
  {
    ConstraintNames(vms, hosts, priority, CapName(r, h));
    CapacityConstraintAt(vms, hosts, priority, r, h);
    LoadSumTerms(Requested(vms, r), h, x);
  }

  /** A binary in a one-hot constraint places a VM on a host. */
  lemma OneHotVariable(vms: map<string, Vm>, hosts: map<string, Host>, priority: PriorityType, v: string, x: Binary)
    requires CanBalance(hosts) && Discrete(v) in CqmSpec(vms, hosts, priority).constraints
    requires x in Variables(CqmSpec(vms, hosts, priority).constraints[Discrete(v)])
    ensures x in Grid(vms.Keys, hosts.Keys)
  {
    ConstraintNames(vms, hosts, priority, Discrete(v));
    OneHotAt(vms, hosts, priority, v);
  }

  /** A binary in any constraint places a VM on a host. */
  lemma ConstraintVariable(vms: map<string, Vm>, hosts: map<string, Host>, priority: PriorityType, n: Name, x: Binary)
    requires CanBalance(hosts) && n in CqmSpec(vms, hosts, priority).constraints
    requires x in Variables(CqmSpec(vms, hosts, priority).constraints[n])
    ensures x in Grid(vms.Keys, hosts.Keys)
  {
    match n
    case CpuCap(h) =>
      assert n == CapName(Cpu, h);
      CapacityVariable(vms, hosts, priority, Cpu, h, x);
    case MemCap(h) =>
      assert n == CapName(Memory, h);
      CapacityVariable(vms, hosts, priority, Memory, h, x);
    case Discrete(v) =>
      OneHotVariable(vms, hosts, priority, v, x);
  }

  /** Every binary of the model places a VM on a host. */
  lemma VariablesInGrid(vms: map<string, Vm>, hosts: map<string, Host>, priority: PriorityType, x: Binary)
    requires CanBalance(hosts) && x in VariablesOf(CqmSpec(vms, hosts, priority))
    ensures x in Grid(vms.Keys, hosts.Keys)
  {
    var cqm := CqmSpec(vms, hosts, priority);
    var n :| n in cqm.constraints && x in Variables(cqm.constraints[n]);
    ConstraintVariable(vms, hosts, priority, n, x);
  }

  /** Every placement of a VM on a host is a binary of the model, through the VM's one-hot group. */
  lemma GridInVariables(vms: map<string, Vm>, hosts: map<string, Host>, priority: PriorityType, x: Binary)
    requires CanBalance(hosts) && x in Grid(vms.Keys, hosts.Keys)
    ensures x in VariablesOf(CqmSpec(vms, hosts, priority))
  {
    var cqm := CqmSpec(vms, hosts, priority);
    OneHotAt(vms, hosts, priority, x.vm);
    assert x in Placements(x.vm, hosts.Keys);
    assert x in Variables(cqm.constraints[Discrete(x.vm)]);
  }

  /** The binaries of the model are exactly the placements of every VM on every host. */
  lemma VariablesAreGrid(vms: map<string, Vm>, hosts: map<string, Host>, priority: PriorityType)
    requires CanBalance(hosts)
    ensures VariablesOf(CqmSpec(vms, hosts, priority)) == Grid(vms.Keys, hosts.Keys)
  {
    forall x | x in VariablesOf(CqmSpec(vms, hosts, priority)) ensures x in Grid(vms.Keys, hosts.Keys) {
      VariablesInGrid(vms, hosts, priority, x);
    }
    forall x | x in Grid(vms.Keys, hosts.Keys) ensures x in VariablesOf(CqmSpec(vms, hosts, priority)) {
      GridInVariables(vms, hosts, priority, x);
    }
  }

  lemma {:induction false} PlacementsSize(v: string, hostIds: set<string>)
    ensures |Placements(v, hostIds)| == |hostIds|
    decreases |hostIds|
  {
    if hostIds != {} {
      var h :| h in hostIds;
      var rest := hostIds - {h};
      PlacementsSize(v, rest);
      assert Placements(v, hostIds) == Placements(v, rest) + {Assign(v, h)};
      assert Assign(v, h) !in Placements(v, rest);
    } else {
      assert Placements(v, hostIds) == {};
    }
  }

  /** The grid is one VM's placements and, apart from them, the grid of the other VMs. */
  lemma GridSplit(vmIds: set<string>, hostIds: set<string>, v: string)
    requires v in vmIds
    ensures Grid(vmIds, hostIds) == Grid(vmIds - {v}, hostIds) + Placements(v, hostIds)
    ensures Grid(vmIds - {v}, hostIds) * Placements(v, hostIds) == {}
  {
  }

  lemma MulSucc(a: nat, b: nat)
    ensures (a + 1) * b == a * b + b
  {
  }

  /** `len(vms) * len(hosts)` pairs. */
  lemma {:induction false} GridSize(vmIds: set<string>, hostIds: set<string>)
    ensures |Grid(vmIds, hostIds)| == |vmIds| * |hostIds|
    decreases |vmIds|
  {
    if vmIds != {} {
      var v :| v in vmIds;
      var rest := vmIds - {v};
      GridSize(rest, hostIds);
      PlacementsSize(v, hostIds);
      GridSplit(vmIds, hostIds, v);
      assert |vmIds| == |rest| + 1;
      MulSucc(|rest|, |hostIds|);
    } else {
      assert Grid(vmIds, hostIds) == {};
    }
  }

  /** One binary per (VM, host) pair; dimod's count of variables, the number of their labels, is `LabelCount`. */
  lemma VariableCount(vms: map<string, Vm>, hosts: map<string, Host>, priority: PriorityType)
    requires CanBalance(hosts)
    ensures |VariablesOf(CqmSpec(vms, hosts, priority))| == |hosts| * |vms|
  {
    VariablesAreGrid(vms, hosts, priority);
    GridSize(vms.Keys, hosts.Keys);
    assert |hosts.Keys| == |hosts| && |vms.Keys| == |vms|;
  }

  /**
   * The sizes the repository's test checks for two hosts and three VMs with
   * the generator's kind of names (`"VM k"`, `"Host k"`, which are safe): six
   * binaries with six distinct labels, and seven linear constraints, a count
   * the test writes as `len(hosts) * len(vms) + 1`, which for these sizes
   * equals `2 * len(hosts) + len(vms)`.
   */
  lemma TestSizes(vms: map<string, Vm>, hosts: map<string, Host>, priority: PriorityType)
    requires CanBalance(hosts) && |vms| == 3 && |hosts| == 2
    requires forall v :: v in vms ==> SafeVmId(v)
    requires forall h :: h in hosts ==> SafeHostId(h)
    ensures |VariablesOf(CqmSpec(vms, hosts, priority))| == |hosts| * |vms| == 6
    ensures |LabelsOf(VariablesOf(CqmSpec(vms, hosts, priority)))| == 6
    ensures |CqmSpec(vms, hosts, priority).constraints| == |hosts| * |vms| + 1 == 7
  {
    VariableCount(vms, hosts, priority);
    LabelCount(vms, hosts, priority);
    ConstraintCount(vms, hosts, priority);
  }

  /** `host_cpu * total_requested / total_available` scales the capacity by one ratio. */
  lemma ShareIsScaled(capacity: real, totalRequested: real, totalAvailable: real)
    requires totalAvailable != 0.0
    ensures Share(capacity, totalRequested, totalAvailable) == Times(capacity, totalRequested / totalAvailable)
  {
    var q := totalRequested / totalAvailable;
    assert totalRequested == q * totalAvailable;
    assert Times(capacity, totalRequested) == capacity * q * totalAvailable;
  }

  /** With at least one host, the targets share out exactly the total demand. */
  lemma TargetsShareDemand(vms: map<string, Vm>, hosts: map<string, Host>, r: Resource)
    requires CanBalance(hosts) && |hosts| > 0
    ensures SumValues(Target(vms, hosts, r)) == SumValues(Requested(vms, r))
  {
    var avail := Available(hosts, r);
    var total, demand := SumValues(avail), SumValues(Requested(vms, r));
    var t := Target(vms, hosts, r);
    var scaled := ScaleValues(avail, demand / total);
    forall h | h in t ensures t[h] == scaled[h] {
      ShareIsScaled(avail[h], demand, total);
      ScaleValuesAt(avail, demand / total, h);
    }
    assert t == scaled;
    SumValuesScale(avail, demand / total);
    TimesQuotient(total, demand);
  }


  /**
   * A host's target is its capacity's part of the total capacity, applied
   * to the total demand: target * total capacity == capacity * total demand.
   */
  lemma TargetProportional(vms: map<string, Vm>, hosts: map<string, Host>, r: Resource, h: string)
    requires CanBalance(hosts) && h in hosts
    ensures Times(Target(vms, hosts, r)[h], SumValues(Available(hosts, r))) == Times(Cap(hosts[h], r), SumValues(Requested(vms, r)))
  {
    assert h in hosts.Keys;
    var total, demand := SumValues(Available(hosts, r)), SumValues(Requested(vms, r));
    var capacity := Cap(hosts[h], r);
    assert total != 0.0;
    assert Target(vms, hosts, r)[h] == Share(capacity, demand, total);
    ShareTimesTotal(capacity, demand, total);
  }

  lemma ShareTimesTotal(capacity: real, totalRequested: real, totalAvailable: real)
    requires totalAvailable != 0.0
    ensures Times(Share(capacity, totalRequested, totalAvailable), totalAvailable) == Times(capacity, totalRequested)
  {
    var p := Times(capacity, totalRequested);
    assert p / totalAvailable * totalAvailable == p;
  }

  /** Distinct constraints carry distinct labels, so dimod accepts every `add_constraint` and `add_discrete`. */
  lemma NameLabelInjective(n1: Name, n2: Name)
    requires NameLabel(n1) == NameLabel(n2)
    ensures n1 == n2
  {
    var t := NameLabel(n1);
    assert t[0] == (if n1.CpuCap? then 'c' else if n1.MemCap? then 'm' else 'd');
    assert t[0] == (if n2.CpuCap? then 'c' else if n2.MemCap? then 'm' else 'd');
    match n1
    case CpuCap(h1) => PrefixInjective("cpu_", h1, n2.host);
    case MemCap(h1) => PrefixInjective("mem_", h1, n2.host);
    case Discrete(v1) => PrefixInjective("discrete_", v1, n2.vm);
  }

  /**
   * With ids that keep the labels unambiguous, each binary of the model has
   * its own label, and that label is an entry `format_results` accepts:
   * it splits back into the VM and the host the binary places.
   */
  lemma BinaryLabelsParse(vms: map<string, Vm>, hosts: map<string, Host>, priority: PriorityType, b: Binary)
    requires CanBalance(hosts)
    requires forall v :: v in vms ==> SafeVmId(v)
    requires forall h :: h in hosts ==> SafeHostId(h)
    requires b in VariablesOf(CqmSpec(vms, hosts, priority))
    ensures SplitLabel(BinaryLabel(b)) == Some((b.vm, b.host))
    ensures Accepted(vms.Keys, hosts.Keys, BinaryLabel(b))
  {
    VariablesAreGrid(vms, hosts, priority);
    LabelRoundTrip(b.vm, b.host);
  }

  lemma BinaryLabelsDistinct(vms: map<string, Vm>, hosts: map<string, Host>, priority: PriorityType, b1: Binary, b2: Binary)
    requires CanBalance(hosts)
    requires forall v :: v in vms ==> SafeVmId(v)
    requires forall h :: h in hosts ==> SafeHostId(h)
    requires b1 in VariablesOf(CqmSpec(vms, hosts, priority)) && b2 in VariablesOf(CqmSpec(vms, hosts, priority))
    requires BinaryLabel(b1) == BinaryLabel(b2)
    ensures b1 == b2
  {
    VariablesAreGrid(vms, hosts, priority);
    LabelInjective(b1.vm, b1.host, b2.vm, b2.host);
  }

  /** The labels dimod knows a set of binaries by; binaries with the same label are one dimod variable. */
  function LabelsOf(xs: set<Binary>): set<string>
  {
    set b | b in xs :: BinaryLabel(b)
  }

  /** Binaries with pairwise distinct labels have as many labels as binaries. */
  lemma {:induction false} LabelsOfSize(xs: set<Binary>)
    requires forall b1, b2 :: b1 in xs && b2 in xs && BinaryLabel(b1) == BinaryLabel(b2) ==> b1 == b2
    ensures |LabelsOf(xs)| == |xs|
    decreases |xs|
  {
    if xs != {} {
      var b :| b in xs;
      var rest := xs - {b};
      LabelsOfSize(rest);
      assert LabelsOf(xs) == LabelsOf(rest) + {BinaryLabel(b)};
      assert BinaryLabel(b) !in LabelsOf(rest);
    } else {
      assert LabelsOf(xs) == {};
    }
  }

  /** `len(cqm.variables) == len(hosts) * len(vms)` in dimod's terms: with safe ids, that many distinct labels. */
  lemma LabelCount(vms: map<string, Vm>, hosts: map<string, Host>, priority: PriorityType)
    requires CanBalance(hosts)
    requires forall v :: v in vms ==> SafeVmId(v)
    requires forall h :: h in hosts ==> SafeHostId(h)
    ensures |LabelsOf(VariablesOf(CqmSpec(vms, hosts, priority)))| == |hosts| * |vms|
  {
    var xs := VariablesOf(CqmSpec(vms, hosts, priority));
    VariableCount(vms, hosts, priority);
    forall b1, b2 | b1 in xs && b2 in xs && BinaryLabel(b1) == BinaryLabel(b2) ensures b1 == b2 {
      BinaryLabelsDistinct(vms, hosts, priority, b1, b2);
    }
    LabelsOfSize(xs);
  }

  /** With unsafe ids two binaries share a label: `"a_on"` on `"h"` and `"a"` on `"on_h"` are both `"a_on_on_h"`. */
  lemma LabelsMerge()
    ensures Assign("a_on", "h") != Assign("a", "on_h")
    ensures BinaryLabel(Assign("a_on", "h")) == BinaryLabel(Assign("a", "on_h")) == "a_on_on_h"
    ensures |LabelsOf({Assign("a_on", "h"), Assign("a", "on_h")})| == 1
  {
    var xs := {Assign("a_on", "h"), Assign("a", "on_h")};
    assert "a_on" + Separator + "h" == "a_on_on_h";
    assert "a" + Separator + "on_h" == "a_on_on_h";
    assert forall b :: b in xs ==> BinaryLabel(b) == "a_on_on_h";
    assert BinaryLabel(Assign("a", "on_h")) in LabelsOf(xs);
    assert LabelsOf(xs) == {"a_on_on_h"};
  }
}
