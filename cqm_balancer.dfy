/**
 * `format_results` of the balancer: it applies a solver's placement to the
 * VM and host dictionaries in place.  `build_cqm`, the other half of the
 * same source file, is the module CqmBuilder.
 */
module CqmBalancer {
  import opened Wrappers
  import opened Text
  import opened Aggregates
  import opened Cluster
  import opened Labels

  /** `{vm_id: vm_data["cpu"] ...}` or `{... vm_data["mem"] ...}`: what each VM requests. */
  function Requested(vms: map<string, Vm>, r: Resource): (req: map<string, real>)
    ensures req.Keys == vms.Keys
  {
    map v | v in vms :: Demand(vms[v], r)
  }

  /** How much of a resource each host has in use. */
  function UsedPerHost(hosts: map<string, Host>, r: Resource): (used: map<string, real>)
    ensures used.Keys == hosts.Keys
  {
    map h | h in hosts :: Used(hosts[h], r)
  }

  // ---------------------------------------------------------------------
  // format_results

  /** Why `format_results` stops at an entry of the plan. */
  datatype FormatError =
    | MalformedEntry(entry: string)  // the split does not give two pieces (ValueError)
    | UnknownVm(vm: string)          // `vms[vm_id]` raises KeyError
    | UnknownHost(host: string)      // `hosts[host_assignment]` raises KeyError

  /** The two dictionaries that `format_results` updates. */
  datatype Placement = Placement(vms: map<string, Vm>, hosts: map<string, Host>)

  /** The hosts after the first loop of `format_results`: every load reset to 0. */
  function ZeroLoads(hosts: map<string, Host>): (zeroed: map<string, Host>)
    ensures zeroed.Keys == hosts.Keys
    ensures forall h, r :: h in zeroed ==> Used(zeroed[h], r) == 0.0 && Cap(zeroed[h], r) == Cap(hosts[h], r)
    ensures forall h :: h in zeroed ==> zeroed[h].processorType == hosts[h].processorType
  {
    map h | h in hosts :: hosts[h].(cpuUsed := 0.0, memUsed := 0.0)
  }

  /**
   * One pass of the second loop: split the entry, look up the VM and the
   * host, add the VM's demands to the host and record the VM's new host.
   * Every lookup precedes every update, so a failing entry changes nothing.
   */
  function Apply(p: Placement, entry: string): (r: Result<Placement, FormatError>)
    ensures r.Success? <==> Accepted(p.vms.Keys, p.hosts.Keys, entry)
    ensures r.Success? ==> r.value.vms.Keys == p.vms.Keys && r.value.hosts.Keys == p.hosts.Keys
  {
    match SplitLabel(entry)
    case None => Failure(MalformedEntry(entry))
    case Some((v, h)) =>
      if v !in p.vms then Failure(UnknownVm(v))
      else if h !in p.hosts then Failure(UnknownHost(h))
      else
        var vm := p.vms[v];
        var host := p.hosts[h];
        Success(Placement(
          p.vms[v := vm.(currentHost := h)],
          p.hosts[h := host.(cpuUsed := host.cpuUsed + vm.cpu, memUsed := host.memUsed + vm.mem)]))
  }

  /** The state a run of the loop reaches and whether it got to the end of the plan. */
  datatype Run = Run(reached: Placement, outcome: Outcome<FormatError>)

  /** The second loop of `format_results`: apply the entries in order, stopping at the first that fails. */
  function RunPlan(p: Placement, plan: seq<string>): (r: Run)
    ensures r.reached.vms.Keys == p.vms.Keys && r.reached.hosts.Keys == p.hosts.Keys
    decreases |plan|
  {
    if |plan| == 0 then Run(p, Pass)
    else
      match Apply(p, plan[0])
      case Failure(e) => Run(p, Fail(e))
      case Success(q) => RunPlan(q, plan[1..])
  }

  /** The dictionaries of VMs and hosts that `format_results` mutates, and the function itself. */
  class Inventory {
    var vms: map<string, Vm>
    var hosts: map<string, Host>

    constructor (vms: map<string, Vm>, hosts: map<string, Host>)
      ensures this.vms == vms && this.hosts == hosts
    {
      this.vms := vms;
      this.hosts := hosts;
    }

    /** The first loop of `format_results`: every host's loads become 0. */
    method ResetLoads()
      modifies this
      ensures hosts == ZeroLoads(old(hosts)) && vms == old(vms)
    {
      var todo := hosts.Keys;
      while todo != {}
        invariant todo <= hosts.Keys == old(hosts).Keys
        invariant forall h :: h in hosts ==>
          hosts[h] == if h in todo then old(hosts)[h] else old(hosts)[h].(cpuUsed := 0.0, memUsed := 0.0)
        invariant vms == old(vms)
        decreases |todo|
      {
        var h :| h in todo;
        hosts := hosts[h := hosts[h].(cpuUsed := 0.0)];
        hosts := hosts[h := hosts[h].(memUsed := 0.0)];
        todo := todo - {h};
      }
      assert hosts == ZeroLoads(old(hosts));
    }

    /**
     * The body of the second loop of `format_results` for one entry; an
     * entry that raises leaves both dictionaries as they were.
     */
    method ApplyEntry(entry: string) returns (outcome: Outcome<FormatError>)
      modifies this
      ensures outcome.Pass? ==> Apply(Placement(old(vms), old(hosts)), entry) == Success(Placement(vms, hosts))
      ensures outcome.Fail? ==> Apply(Placement(old(vms), old(hosts)), entry) == Failure(outcome.error)
      ensures outcome.Fail? ==> vms == old(vms) && hosts == old(hosts)
    {
      var parts := Split(entry, Separator);
      if |parts| != 2 {
        return Fail(MalformedEntry(entry));
      }
      var vmId, hostAssignment := parts[0], parts[1];
      assert SplitLabel(entry) == Some((vmId, hostAssignment));
      if vmId !in vms {
        return Fail(UnknownVm(vmId));
      }
      var vm := vms[vmId];
      if hostAssignment !in hosts {
        return Fail(UnknownHost(hostAssignment));
      }
      hosts := hosts[hostAssignment := hosts[hostAssignment].(cpuUsed := hosts[hostAssignment].cpuUsed + vm.cpu)];
      hosts := hosts[hostAssignment := hosts[hostAssignment].(memUsed := hosts[hostAssignment].memUsed + vm.mem)];
      vms := vms[vmId := vms[vmId].(currentHost := hostAssignment)];
      ghost var host := old(hosts)[hostAssignment];
      assert hosts == old(hosts)[hostAssignment := host.(cpuUsed := host.cpuUsed + vm.cpu, memUsed := host.memUsed + vm.mem)];
      outcome := Pass;
    }

    /**
     * `format_results(plan, vms, hosts)`: resets every host's loads, then
     * applies the plan entry by entry, stopping at the first entry that raises.
     */
    method FormatResults(plan: seq<string>) returns (outcome: Outcome<FormatError>)
      modifies this
      ensures Run(Placement(vms, hosts), outcome) == RunPlan(Placement(old(vms), ZeroLoads(old(hosts))), plan)
    {
      ResetLoads();
      var i := 0;
      while i < |plan|
        invariant 0 <= i <= |plan|
        invariant RunPlan(Placement(vms, hosts), plan[i..]) == RunPlan(Placement(old(vms), ZeroLoads(old(hosts))), plan)
        decreases |plan| - i
      {
        ghost var before := Placement(vms, hosts);
        assert plan[i..][0] == plan[i] && plan[i..][1..] == plan[i + 1..];
        var step := ApplyEntry(plan[i]);
        if step.Fail? {
          return step;
        }
        i := i + 1;
      }
      assert plan[i..] == [];
      outcome := Pass;
    }
  }

  // What a run of a plan does

  /** An entry that the loop accepts: it splits into a known VM id and a known host id. */
  predicate Accepted(vmIds: set<string>, hostIds: set<string>, entry: string)
  {
    match SplitLabel(entry)
    case Some((v, h)) => v in vmIds && h in hostIds
    case None => false
  }

  /** The VM id an entry names (the entry itself when it does not split in two). */
  function VmOf(entry: string): string
  {
    match SplitLabel(entry)
    case Some((v, _)) => v
    case None => entry
  }

  /** The host a VM ends on: that of the last entry naming it, or `current` when no entry does. */
  function LastHost(plan: seq<string>, vm: string, current: string): string
    decreases |plan|
  {
    if |plan| == 0 then current
    else
      var next := match SplitLabel(plan[0])
        case Some((v, h)) => if v == vm then h else current
        case None => current;
      LastHost(plan[1..], vm, next)
  }

  /** What one entry adds to `host`'s use of `r`. */
  function EntryLoad(vms: map<string, Vm>, entry: string, host: string, r: Resource): real
  {
    match SplitLabel(entry)
    case Some((v, h)) => if h == host && v in vms then Demand(vms[v], r) else 0.0
    case None => 0.0
  }

  /** What all entries of a plan add to `host`'s use of `r`. */
  function PlanLoad(vms: map<string, Vm>, plan: seq<string>, host: string, r: Resource): real
    decreases |plan|
  {
    if |plan| == 0 then 0.0
    else EntryLoad(vms, plan[0], host, r) + PlanLoad(vms, plan[1..], host, r)
  }

  /**
   * A run changes no host field but the two loads and no VM field but
   * the current host.
   */
  lemma {:induction false} RunPlanFrame(p: Placement, plan: seq<string>)
    ensures var q := RunPlan(p, plan).reached;
      && (forall h :: h in p.hosts ==>
            q.hosts[h].(cpuUsed := 0.0, memUsed := 0.0) == p.hosts[h].(cpuUsed := 0.0, memUsed := 0.0))
      && (forall v :: v in p.vms ==> q.vms[v].(currentHost := "") == p.vms[v].(currentHost := ""))
    decreases |plan|
  {
    if |plan| > 0 {
      match Apply(p, plan[0])
      case Failure(_) =>
      case Success(q) =>
        RunPlanFrame(q, plan[1..]);
    }
  }

  /** A run gets to the end of the plan exactly when every entry is accepted. */
  lemma {:induction false} RunPlanPassIff(p: Placement, plan: seq<string>)
    ensures RunPlan(p, plan).outcome == Pass <==>
      forall i :: 0 <= i < |plan| ==> Accepted(p.vms.Keys, p.hosts.Keys, plan[i])
    decreases |plan|
  {
    if |plan| > 0 {
      AcceptedCons(p.vms.Keys, p.hosts.Keys, plan);
      match Apply(p, plan[0])
      case Failure(_) =>
      case Success(q) =>
        RunPlanPassIff(q, plan[1..]);
    }
  }

  /** Every entry of a non-empty plan is accepted exactly when its head and every entry of its tail are. */
  lemma AcceptedCons(vmIds: set<string>, hostIds: set<string>, plan: seq<string>)
    requires |plan| > 0
    ensures (forall i :: 0 <= i < |plan| ==> Accepted(vmIds, hostIds, plan[i])) <==>
      Accepted(vmIds, hostIds, plan[0]) && forall i :: 0 <= i < |plan[1..]| ==> Accepted(vmIds, hostIds, plan[1..][i])
  {
    assert forall i :: 1 <= i < |plan| ==> plan[1..][i - 1] == plan[i];
  }

  /** A failing run stops at the first rejected entry, in the state the entries before it reached. */
  lemma {:induction false} RunPlanStops(p: Placement, plan: seq<string>)
    requires RunPlan(p, plan).outcome.Fail?
    ensures exists k :: (0 <= k < |plan|
      && RunPlan(p, plan[..k]) == Run(RunPlan(p, plan).reached, Pass)
      && Apply(RunPlan(p, plan).reached, plan[k]) == Failure(RunPlan(p, plan).outcome.error))
    decreases |plan|
  {
    var run := RunPlan(p, plan);
    match Apply(p, plan[0])
    case Failure(e) =>
      assert plan[..0] == [];
    case Success(q) =>
      RunPlanStops(q, plan[1..]);
      var k :| 0 <= k < |plan[1..]|
        && RunPlan(q, plan[1..][..k]) == Run(run.reached, Pass)
        && Apply(run.reached, plan[1..][k]) == Failure(run.outcome.error);
      assert plan[..k + 1][0] == plan[0] && plan[..k + 1][1..] == plan[1..][..k];
      assert plan[1..][k] == plan[k + 1];
  }

  /** Loads computed from two VM dictionaries with the same keys and demands agree. */
  lemma {:induction false} PlanLoadSameDemands(a: map<string, Vm>, b: map<string, Vm>, plan: seq<string>, host: string, r: Resource)
    requires a.Keys == b.Keys
    requires forall v :: v in a ==> Demand(a[v], r) == Demand(b[v], r)
    ensures PlanLoad(a, plan, host, r) == PlanLoad(b, plan, host, r)
    decreases |plan|
  {
    if |plan| > 0 {
      PlanLoadSameDemands(a, b, plan[1..], host, r);
    }
  }

  /** After a complete run every host's use of a resource has grown by the demands of the entries naming it. */
  lemma {:induction false} RunPlanLoads(p: Placement, plan: seq<string>)
    requires RunPlan(p, plan).outcome == Pass
    ensures forall h, r :: h in p.hosts ==>
      Used(RunPlan(p, plan).reached.hosts[h], r) == Used(p.hosts[h], r) + PlanLoad(p.vms, plan, h, r)
    decreases |plan|
  {
    RunPlanFrame(p, plan);
    if |plan| > 0 {
      match Apply(p, plan[0])
      case Success(q) =>
        RunPlanLoads(q, plan[1..]);
        forall h, r | h in p.hosts
          ensures Used(RunPlan(p, plan).reached.hosts[h], r) == Used(p.hosts[h], r) + PlanLoad(p.vms, plan, h, r)
        {
          PlanLoadSameDemands(q.vms, p.vms, plan[1..], h, r);
          assert Used(q.hosts[h], r) == Used(p.hosts[h], r) + EntryLoad(p.vms, plan[0], h, r);
        }
    }
  }

  /** After a complete run every VM is on the host of the last entry that names it. */
  lemma {:induction false} RunPlanMoves(p: Placement, plan: seq<string>)
    requires RunPlan(p, plan).outcome == Pass
    ensures forall v :: v in p.vms ==>
      RunPlan(p, plan).reached.vms[v] == p.vms[v].(currentHost := LastHost(plan, v, p.vms[v].currentHost))
    decreases |plan|
  {
    RunPlanFrame(p, plan);
    if |plan| > 0 {
      match Apply(p, plan[0])
      case Success(q) =>
        RunPlanMoves(q, plan[1..]);
    }
  }

  // Conservation of load when the plan places every VM once

  /** Every entry splits in two, and the VM ids named are exactly the VMs, each once. */
  predicate NamesEachVmOnce(plan: seq<string>, vms: map<string, Vm>)
  {
    && (forall i :: 0 <= i < |plan| ==> SplitLabel(plan[i]).Some? && VmOf(plan[i]) in vms)
    && (forall i, j :: 0 <= i < j < |plan| ==> VmOf(plan[i]) != VmOf(plan[j]))
    && (forall v :: v in vms ==> exists i :: 0 <= i < |plan| && VmOf(plan[i]) == v)
  }

  /** What one entry's VM requests of `r`, whichever host it names. */
  function EntryDemand(vms: map<string, Vm>, entry: string, r: Resource): real
  {
    match SplitLabel(entry)
    case Some((v, _)) => if v in vms then Demand(vms[v], r) else 0.0
    case None => 0.0
  }

  /** What the VMs of all entries request of `r`. */
  function PlanDemand(vms: map<string, Vm>, plan: seq<string>, r: Resource): real
    decreases |plan|
  {
    if |plan| == 0 then 0.0
    else EntryDemand(vms, plan[0], r) + PlanDemand(vms, plan[1..], r)
  }

  /** The load a plan puts on each host. */
  function LoadPerHost(vms: map<string, Vm>, hostIds: set<string>, plan: seq<string>, r: Resource): map<string, real>
  {
    map h | h in hostIds :: PlanLoad(vms, plan, h, r)
  }

  /** `d` at `at`, 0 at every other key. */
  function Spike(keys: set<string>, at: string, d: real): map<string, real>
  {
    map h | h in keys :: if h == at then d else 0.0
  }

  /** The loads of a plan are those of its first entry plus those of the rest. */
  lemma LoadPerHostCons(vms: map<string, Vm>, hostIds: set<string>, plan: seq<string>, r: Resource)
    requires |plan| > 0 && Accepted(vms.Keys, hostIds, plan[0])
    ensures var e := SplitLabel(plan[0]).value;
      LoadPerHost(vms, hostIds, plan, r)
        == AddValues(Spike(hostIds, e.1, Demand(vms[e.0], r)), LoadPerHost(vms, hostIds, plan[1..], r))
  {
    var e := SplitLabel(plan[0]).value;
    forall h | h in hostIds
      ensures EntryLoad(vms, plan[0], h, r) == if h == e.1 then Demand(vms[e.0], r) else 0.0
    {
    }
  }

  /** Summed over the hosts, the loads of a plan of accepted entries are the demands of its VMs. */
  lemma {:induction false} SumLoadPerHost(vms: map<string, Vm>, hostIds: set<string>, plan: seq<string>, r: Resource)
    requires forall i :: 0 <= i < |plan| ==> Accepted(vms.Keys, hostIds, plan[i])
    ensures SumValues(LoadPerHost(vms, hostIds, plan, r)) == PlanDemand(vms, plan, r)
    decreases |plan|
  {
    if |plan| == 0 {
      SumValuesZero(LoadPerHost(vms, hostIds, plan, r));
    } else {
      assert Accepted(vms.Keys, hostIds, plan[0]);
      var e := SplitLabel(plan[0]).value;
      var spike := Spike(hostIds, e.1, Demand(vms[e.0], r));
      var rest := LoadPerHost(vms, hostIds, plan[1..], r);
      assert forall i :: 0 <= i < |plan[1..]| ==> plan[1..][i] == plan[i + 1];
      SumLoadPerHost(vms, hostIds, plan[1..], r);
      LoadPerHostCons(vms, hostIds, plan, r);
      SumValuesAdd(spike, rest);
      SumValuesSingle(spike, e.1);
    }
  }

  /** Demands of VMs that no entry names do not enter a plan's total. */
  lemma {:induction false} PlanDemandWithout(vms: map<string, Vm>, plan: seq<string>, v0: string, r: Resource)
    requires forall i :: 0 <= i < |plan| ==> VmOf(plan[i]) != v0
    ensures PlanDemand(vms - {v0}, plan, r) == PlanDemand(vms, plan, r)
    decreases |plan|
  {
    if |plan| > 0 {
      assert forall i :: 0 <= i < |plan[1..]| ==> plan[1..][i] == plan[i + 1];
      PlanDemandWithout(vms, plan[1..], v0, r);
    }
  }

  /** Dropping the first entry of a plan that names each VM once leaves one for the other VMs. */
  lemma NamesEachVmOnceTail(plan: seq<string>, vms: map<string, Vm>)
    requires |plan| > 0 && NamesEachVmOnce(plan, vms)
    ensures NamesEachVmOnce(plan[1..], vms - {VmOf(plan[0])})
    ensures forall i :: 0 <= i < |plan| - 1 ==> VmOf(plan[1..][i]) != VmOf(plan[0])
  {
    TailDistinct(plan);
    TailSplits(plan, vms);
    TailCovers(plan, vms);
  }

  /** The VMs a plan's tail names are distinct, and none is the head's. */
  lemma TailDistinct(plan: seq<string>)
    requires |plan| > 0 && forall i, j :: 0 <= i < j < |plan| ==> VmOf(plan[i]) != VmOf(plan[j])
    ensures forall i :: 0 <= i < |plan| - 1 ==> VmOf(plan[1..][i]) != VmOf(plan[0])
    ensures forall i, j :: 0 <= i < j < |plan| - 1 ==> VmOf(plan[1..][i]) != VmOf(plan[1..][j])
  {
    var tail := plan[1..];
    forall i | 0 <= i < |tail| ensures VmOf(tail[i]) != VmOf(plan[0]) {
      assert tail[i] == plan[i + 1];
      assert VmOf(plan[0]) != VmOf(plan[i + 1]);
    }
    forall i, j | 0 <= i < j < |tail| ensures VmOf(tail[i]) != VmOf(tail[j]) {
      assert tail[i] == plan[i + 1] && tail[j] == plan[j + 1];
    }
  }

  /** The tail's entries split and name VMs other than the head's. */
  lemma TailSplits(plan: seq<string>, vms: map<string, Vm>)
    requires |plan| > 0 && forall i :: 0 <= i < |plan| ==> SplitLabel(plan[i]).Some? && VmOf(plan[i]) in vms
    requires forall i :: 0 <= i < |plan| - 1 ==> VmOf(plan[1..][i]) != VmOf(plan[0])
    ensures forall i :: 0 <= i < |plan| - 1 ==> SplitLabel(plan[1..][i]).Some? && VmOf(plan[1..][i]) in vms - {VmOf(plan[0])}
  {
    var tail := plan[1..];
    forall i | 0 <= i < |tail| ensures SplitLabel(tail[i]).Some? && VmOf(tail[i]) in vms - {VmOf(plan[0])} {
      assert tail[i] == plan[i + 1];
    }
  }

  /** Every VM but the head's is named in the tail. */
  lemma TailCovers(plan: seq<string>, vms: map<string, Vm>)
    requires |plan| > 0 && forall v :: v in vms ==> exists i :: 0 <= i < |plan| && VmOf(plan[i]) == v
    ensures forall v :: v in vms - {VmOf(plan[0])} ==> exists i :: 0 <= i < |plan| - 1 && VmOf(plan[1..][i]) == v
  {
    var tail := plan[1..];
    forall v | v in vms - {VmOf(plan[0])} ensures exists i :: 0 <= i < |tail| && VmOf(tail[i]) == v {
      var i :| 0 <= i < |plan| && VmOf(plan[i]) == v;
      assert i != 0;
      assert tail[i - 1] == plan[i];
    }
  }

  lemma RequestedRemove(vms: map<string, Vm>, v0: string, r: Resource)
    ensures Requested(vms, r) - {v0} == Requested(vms - {v0}, r)
  {
  }

  /** A plan that names each VM once demands what the VMs request in total. */
  lemma {:induction false} PlanDemandAll(vms: map<string, Vm>, plan: seq<string>, r: Resource)
    requires NamesEachVmOnce(plan, vms)
    ensures PlanDemand(vms, plan, r) == SumValues(Requested(vms, r))
    decreases |plan|
  {
    if |plan| == 0 {
      assert vms.Keys == {};
      SumValuesEmpty(Requested(vms, r));
    } else {
      var v0 := VmOf(plan[0]);
      var others := vms - {v0};
      assert SplitLabel(plan[0]).Some? && v0 in vms;
      NamesEachVmOnceTail(plan, vms);
      PlanDemandAll(others, plan[1..], r);
      PlanDemandWithout(vms, plan[1..], v0, r);
      assert EntryDemand(vms, plan[0], r) == Requested(vms, r)[v0];
      RequestedRemove(vms, v0, r);
      SumValuesRemove(Requested(vms, r), v0);
      var here := EntryDemand(vms, plan[0], r);
      var later := PlanDemand(vms, plan[1..], r);
      assert PlanDemand(vms, plan, r) == here + later;
      assert later == SumValues(Requested(others, r));
      assert SumValues(Requested(vms, r)) == here + SumValues(Requested(others, r));
    }
  }

  /**
   * `format_results` conserves load: when the plan places each VM exactly
   * once on a known host, the hosts' loads add up to what the VMs request.
   */
  lemma FormatResultsConserves(plan: seq<string>, vms: map<string, Vm>, hosts: map<string, Host>, r: Resource)
    requires RunPlan(Placement(vms, ZeroLoads(hosts)), plan).outcome == Pass
    requires NamesEachVmOnce(plan, vms)
    ensures SumValues(UsedPerHost(RunPlan(Placement(vms, ZeroLoads(hosts)), plan).reached.hosts, r))
         == SumValues(Requested(vms, r))
  {
    var p := Placement(vms, ZeroLoads(hosts));
    RunPlanPassIff(p, plan);
    RunFromZeroLoads(plan, vms, hosts, r);
    SumLoadPerHost(vms, hosts.Keys, plan, r);
    PlanDemandAll(vms, plan, r);
  }

  /** Started from zero, a complete run leaves each host with exactly the load of the entries naming it. */
  lemma RunFromZeroLoads(plan: seq<string>, vms: map<string, Vm>, hosts: map<string, Host>, r: Resource)
    requires RunPlan(Placement(vms, ZeroLoads(hosts)), plan).outcome == Pass
    ensures UsedPerHost(RunPlan(Placement(vms, ZeroLoads(hosts)), plan).reached.hosts, r)
         == LoadPerHost(vms, hosts.Keys, plan, r)
  {
    var p := Placement(vms, ZeroLoads(hosts));
    var q := RunPlan(p, plan).reached;
    RunPlanFrame(p, plan);
    RunPlanLoads(p, plan);
    forall h | h in hosts ensures Used(q.hosts[h], r) == PlanLoad(vms, plan, h, r) {
      assert Used(p.hosts[h], r) == 0.0;
    }
  }

  /** The labels of the repository's own example split as intended. */
  lemma SplitsAsLabel(vm: string, host: string)
    requires '_' !in vm && '_' !in host
    ensures SplitLabel(vm + "_on_" + host) == Some((vm, host))
  {
    NoUnderscoreIsSafe(vm);
    NoUnderscoreIsSafe(host);
    LabelRoundTrip(vm, host);
  }

  lemma ExampleLastHost(vm1: string, vm2: string, vm3: string, host1: string, host2: string)
    requires '_' !in vm1 && '_' !in vm2 && '_' !in vm3 && '_' !in host1 && '_' !in host2
    requires vm1 != vm2 && vm3 != vm2
    ensures LastHost([Label(vm1, host1), Label(vm2, host1), Label(vm3, host2)], vm2, host2) == host1
  {
    var plan := [Label(vm1, host1), Label(vm2, host1), Label(vm3, host2)];
    var tail := plan[1..];
    var last := tail[1..];
    SplitsAsLabel(vm1, host1);
    SplitsAsLabel(vm2, host1);
    SplitsAsLabel(vm3, host2);
    assert plan[0] == Label(vm1, host1) && tail[0] == Label(vm2, host1) && last[0] == Label(vm3, host2);
    assert last[1..] == [];
    assert LastHost(last, vm2, host1) == host1;
    assert LastHost(tail, vm2, host2) == LastHost(last, vm2, host1);
  }

  lemma ExamplePlanLoad(vms: map<string, Vm>, vm1: string, vm2: string, vm3: string, host1: string, host2: string, r: Resource)
    requires '_' !in vm1 && '_' !in vm2 && '_' !in vm3 && '_' !in host1 && '_' !in host2
    requires host1 != host2 && vm1 in vms && vm2 in vms && vm3 in vms
    ensures var plan := [Label(vm1, host1), Label(vm2, host1), Label(vm3, host2)];
      && PlanLoad(vms, plan, host1, r) == Demand(vms[vm1], r) + Demand(vms[vm2], r)
      && PlanLoad(vms, plan, host2, r) == Demand(vms[vm3], r)
  {
    var x, y, z := Label(vm1, host1), Label(vm2, host1), Label(vm3, host2);
    PlanLoadOfThree(vms, x, y, z, host1, r);
    PlanLoadOfThree(vms, x, y, z, host2, r);
    EntryLoadOfLabel(vms, vm1, host1, host1, r);
    EntryLoadOfLabel(vms, vm2, host1, host1, r);
    EntryLoadOfLabel(vms, vm3, host2, host1, r);
    EntryLoadOfLabel(vms, vm1, host1, host2, r);
    EntryLoadOfLabel(vms, vm2, host1, host2, r);
    EntryLoadOfLabel(vms, vm3, host2, host2, r);
  }

  /** A three-entry plan loads a host with the sum of its entries' loads. */
  lemma PlanLoadOfThree(vms: map<string, Vm>, x: string, y: string, z: string, host: string, r: Resource)
    ensures PlanLoad(vms, [x, y, z], host, r)
      == EntryLoad(vms, x, host, r) + EntryLoad(vms, y, host, r) + EntryLoad(vms, z, host, r)
  {
    assert [x, y, z][1..] == [y, z] && [y, z][1..] == [z] && [z][1..] == [];
    assert PlanLoad(vms, [z], host, r) == EntryLoad(vms, z, host, r) + PlanLoad(vms, [], host, r);
    assert PlanLoad(vms, [y, z], host, r) == EntryLoad(vms, y, host, r) + PlanLoad(vms, [z], host, r);
  }

  /** The label of a known VM on `h` loads `host` with the VM's demand exactly when `h` is `host`. */
  lemma EntryLoadOfLabel(vms: map<string, Vm>, vm: string, h: string, host: string, r: Resource)
    requires '_' !in vm && '_' !in h && vm in vms
    ensures EntryLoad(vms, Label(vm, h), host, r) == if h == host then Demand(vms[vm], r) else 0.0
  {
    SplitsAsLabel(vm, h);
  }

  lemma ExamplePasses(p: Placement, vm1: string, vm2: string, vm3: string, host1: string, host2: string)
    requires '_' !in vm1 && '_' !in vm2 && '_' !in vm3 && '_' !in host1 && '_' !in host2
    requires vm1 in p.vms && vm2 in p.vms && vm3 in p.vms && host1 in p.hosts && host2 in p.hosts
    ensures RunPlan(p, [Label(vm1, host1), Label(vm2, host1), Label(vm3, host2)]).outcome == Pass
  {
    var plan := [Label(vm1, host1), Label(vm2, host1), Label(vm3, host2)];
    SplitsAsLabel(vm1, host1);
    SplitsAsLabel(vm2, host1);
    SplitsAsLabel(vm3, host2);
    forall i | 0 <= i < |plan| ensures Accepted(p.vms.Keys, p.hosts.Keys, plan[i]) {
      if i == 0 {
        assert plan[i] == Label(vm1, host1);
      } else if i == 1 {
        assert plan[i] == Label(vm2, host1);
      } else {
        assert plan[i] == Label(vm3, host2);
      }
    }
    RunPlanPassIff(p, plan);
  }

  /**
   * The repository's example: three VMs with a quarter, a quarter and a
   * half of each capacity, the second and third on `host2`.
   */
  function ExampleVms(vm1: string, vm2: string, vm3: string, host1: string, host2: string): map<string, Vm>
  {
    var c, m := CPU_CAP as real, MEMORY_CAP as real;
    map[vm1 := Vm("Running", host1, c / 4.0, m / 4.0),
        vm2 := Vm("Running", host2, c / 4.0, m / 4.0),
        vm3 := Vm("Running", host2, c / 2.0, m / 2.0)]
  }

  /** The example's plan: the first two VMs on `host1`, the third on `host2`. */
  function ExamplePlan(vm1: string, vm2: string, vm3: string, host1: string, host2: string): seq<string>
  {
    [Label(vm1, host1), Label(vm2, host1), Label(vm3, host2)]
  }

  /** The example, for any ids without underscores: the plan passes and moves the second VM to `host1`. */
  lemma FormatResultsExample(vm1: string, vm2: string, vm3: string, host1: string, host2: string, hosts: map<string, Host>)
    requires '_' !in vm1 && '_' !in vm2 && '_' !in vm3 && '_' !in host1 && '_' !in host2
    requires vm1 != vm2 && vm1 != vm3 && vm2 != vm3 && host1 != host2
    requires hosts.Keys == {host1, host2}
    ensures var vms := ExampleVms(vm1, vm2, vm3, host1, host2);
      var run := RunPlan(Placement(vms, ZeroLoads(hosts)), ExamplePlan(vm1, vm2, vm3, host1, host2));
      && run.outcome == Pass
      && run.reached.vms.Keys == vms.Keys && run.reached.hosts.Keys == hosts.Keys
      && run.reached.vms[vm2].currentHost == host1
  {
    var vms := ExampleVms(vm1, vm2, vm3, host1, host2);
    var p := Placement(vms, ZeroLoads(hosts));
    ExamplePasses(p, vm1, vm2, vm3, host1, host2);
    RunPlanMoves(p, ExamplePlan(vm1, vm2, vm3, host1, host2));
    ExampleLastHost(vm1, vm2, vm3, host1, host2);
  }

  /**
   * The example's loads: whatever the hosts had in use before, the plan
   * leaves both with half of each capacity in use.
   */
  lemma FormatResultsExampleLoads(vm1: string, vm2: string, vm3: string, host1: string, host2: string, hosts: map<string, Host>)
    requires '_' !in vm1 && '_' !in vm2 && '_' !in vm3 && '_' !in host1 && '_' !in host2
    requires vm1 != vm2 && vm1 != vm3 && vm2 != vm3 && host1 != host2
    requires hosts.Keys == {host1, host2}
    ensures var q := RunPlan(Placement(ExampleVms(vm1, vm2, vm3, host1, host2), ZeroLoads(hosts)),
                             ExamplePlan(vm1, vm2, vm3, host1, host2)).reached;
      && q.hosts.Keys == hosts.Keys
      && q.hosts[host1].cpuUsed == q.hosts[host2].cpuUsed == CPU_CAP as real / 2.0
      && q.hosts[host1].memUsed == q.hosts[host2].memUsed == MEMORY_CAP as real / 2.0
  {
    var vms := ExampleVms(vm1, vm2, vm3, host1, host2);
    var p := Placement(vms, ZeroLoads(hosts));
    assert vms[vm1].cpu == vms[vm2].cpu == CPU_CAP as real / 4.0 && vms[vm3].cpu == CPU_CAP as real / 2.0;
    assert vms[vm1].mem == vms[vm2].mem == MEMORY_CAP as real / 4.0 && vms[vm3].mem == MEMORY_CAP as real / 2.0;
    assert Used(p.hosts[host1], Cpu) == 0.0 && Used(p.hosts[host2], Cpu) == 0.0;
    assert Used(p.hosts[host1], Memory) == 0.0 && Used(p.hosts[host2], Memory) == 0.0;
    ExampleRunLoads(p, vm1, vm2, vm3, host1, host2, Cpu);
    ExampleRunLoads(p, vm1, vm2, vm3, host1, host2, Memory);
  }

  /** From any placement holding the example's ids, the plan adds the first two VMs' demands to `host1` and the third's to `host2`. */
  lemma ExampleRunLoads(p: Placement, vm1: string, vm2: string, vm3: string, host1: string, host2: string, r: Resource)
    requires '_' !in vm1 && '_' !in vm2 && '_' !in vm3 && '_' !in host1 && '_' !in host2
    requires host1 != host2
    requires vm1 in p.vms && vm2 in p.vms && vm3 in p.vms && host1 in p.hosts && host2 in p.hosts
    ensures var q := RunPlan(p, ExamplePlan(vm1, vm2, vm3, host1, host2)).reached;
      && q.hosts.Keys == p.hosts.Keys
      && Used(q.hosts[host1], r) == Used(p.hosts[host1], r) + Demand(p.vms[vm1], r) + Demand(p.vms[vm2], r)
      && Used(q.hosts[host2], r) == Used(p.hosts[host2], r) + Demand(p.vms[vm3], r)
  {
    ExamplePasses(p, vm1, vm2, vm3, host1, host2);
    RunPlanLoads(p, ExamplePlan(vm1, vm2, vm3, host1, host2));
    ExamplePlanLoad(p.vms, vm1, vm2, vm3, host1, host2, r);
  }
}
