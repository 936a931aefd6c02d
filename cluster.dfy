/**
 * The entities the demo passes between its parts: virtual machines and
 * hosts (each a Python dictionary with fixed fields), the two resources,
 * and the names that the workload generator gives to both.
 */
module Cluster {
  import opened Text

  /** CPU capacity of every generated host. */
  const CPU_CAP: int := 167
  /** Memory capacity of every generated host. */
  const MEMORY_CAP: int := 1026

  /** The two balanced resources; also the demo's priority setting. */
  datatype Resource = Cpu | Memory

  /** Which resource the balancing favours. */
  type PriorityType = Resource

  /** A virtual machine: `{"status", "current_host", "cpu", "mem"}`. */
  datatype Vm = Vm(status: string, currentHost: string, cpu: real, mem: real)

  /** A host: `{"processor_type", "cpu_used", "mem_used", "cpu_cap", "mem_cap"}`. */
  datatype Host = Host(processorType: string, cpuUsed: real, memUsed: real, cpuCap: real, memCap: real)

  /** What a VM requests of a resource (`vm["cpu"]` or `vm["mem"]`). */
  function Demand(vm: Vm, r: Resource): real
  {
    match r
    case Cpu => vm.cpu
    case Memory => vm.mem
  }

  /** How much of a resource a host has in use (`cpu_used` or `mem_used`). */
  function Used(host: Host, r: Resource): real
  {
    match r
    case Cpu => host.cpuUsed
    case Memory => host.memUsed
  }

  /** A host's capacity for a resource (`cpu_cap` or `mem_cap`). */
  function Cap(host: Host, r: Resource): real
  {
    match r
    case Cpu => host.cpuCap
    case Memory => host.memCap
  }

  /** `f"VM {k}"`. */
  function VmName(k: nat): string
  {
    "VM " + NatToString(k)
  }

  /** `f"Host {k}"`. */
  function HostName(k: nat): string
  {
    "Host " + NatToString(k)
  }

  lemma VmNameInjective(j: nat, k: nat)
    requires VmName(j) == VmName(k)
    ensures j == k
  {
    assert NatToString(j) == VmName(j)[3..];
    assert NatToString(k) == VmName(k)[3..];
    NatToStringInjective(j, k);
  }

  lemma HostNameInjective(j: nat, k: nat)
    requires HostName(j) == HostName(k)
    ensures j == k
  {
    assert NatToString(j) == HostName(j)[5..];
    assert NatToString(k) == HostName(k)[5..];
    NatToStringInjective(j, k);
  }

  /** Generated names contain no underscore. */
  lemma GeneratedNamesHaveNoUnderscore(k: nat)
    ensures '_' !in VmName(k) && '_' !in HostName(k)
  {
    NatToStringHasNo(k, '_');
    assert forall c :: c in VmName(k) ==> c in "VM " || c in NatToString(k);
    assert forall c :: c in HostName(k) ==> c in "Host " || c in NatToString(k);
  }

  /**
   * `int(name.split(" ")[1])` recovers `k` from `f"Host {k}"`: the split
   * yields exactly `["Host", str(k)]`.
   */
  lemma {:induction false} HostNameParses(k: nat)
    ensures Split(HostName(k), " ") == ["Host", NatToString(k)]
    ensures ParseNat(NatToString(k)) == k
  {
    var digits := NatToString(k);
    NatToStringHasNo(k, ' ');
    CharNotContained("Host", ' ');
    CharNotContained(digits, ' ');
    assert HostName(k) == "Host" + " " + digits;
    SplitConcat("Host", " ", digits);
    SplitNoSep("Host", " ");
    SplitNoSep(digits, " ");
    ParseNatToString(k);
  }
}
