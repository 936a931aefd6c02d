# VM load balancing, modelled in Dafny

The demo balances virtual machines (VMs) across hosts. It generates an
unbalanced cluster at random and builds a constrained quadratic model (CQM)
of the placement problem for a hybrid solver. It reads the solver's answer
back into the VM and host dictionaries and scores the result with a
"cluster balance factor". Two interface callbacks compute CSS class names:
one collapses the settings column, the other magnifies one graph.

The project models that core, module by module:

- `Cluster` (`cluster.dfy`) holds the records. A VM is its status,
  current host, CPU and memory use. A host is its processor type, CPU and
  memory used, and both caps. The caps are `CPU_CAP = 167` and
  `MEMORY_CAP = 1026`. VMs are named `"VM k"` and hosts `"Host k"`.
- `Labels` (`labels.dfy`) covers the binary variable labels
  `f"{vm}_on_{host}"` and how `format_results` splits them again with
  `"_on_"`.
- `CqmBalancer` (`cqm_balancer.dfy`) covers `format_results`. It updates
  both dictionaries in place, so it is the class `Inventory`, whose map
  fields the methods `ResetLoads`, `ApplyEntry` and `FormatResults`
  update. The method is proved against the function `RunPlan`. `RunPlan`
  applies the entries in order and stops at the first one that would raise:
  - a label that does not split into two pieces (`ValueError`);
  - an unknown VM or an unknown host (`KeyError`).
- `CqmBuilder` (`cqm_builder.dfy`) covers `build_cqm`. The model is a
  value: a map from constraint names to constraints, plus the objective.
  The method `BuildCqm` runs the source's loops and is proved equal to the
  specification function `CqmSpec`. Lemmas then state what `CqmSpec`
  holds:
  - which constraints it holds, and their exact form;
  - which variables it holds;
  - how many of each;
  - that the balanced targets share out the total demand.
- `GenerateData` (`generate_data.dfy`) covers the generator functions. The
  random draws of `generate_vms` are an input value `Draws`, constrained to
  the ranges the source draws from. `GenerateVms`, `GenerateHosts` and the
  array loop `SumUsePerHost` are methods proved against specification
  functions. Lemmas then prove the generator's promises:
  - every VM count is at least the base count, and the counts sum to the
    total;
  - exactly one VM is numbered for each slot;
  - every host is used;
  - every host's load is inside its cap.
- `ClusterBalance` (`cluster_balance.dfy`) covers
  `calculate_cluster_balance_factor`, in exact real arithmetic.
- `DemoCallbacks` (`callbacks.dfy`) covers `toggle_left_column` and
  `magnify_graph`. The id of the button that fired is a parameter.
- `Text`, `Aggregates` and `Wrappers` hold shared helpers:
  - `Text`: `str.split`/`str.join`, decimal numbers, substring search;
  - `Aggregates`: `sum` over lists and dictionary values;
  - `Wrappers`: `Option`, `Result`, `Outcome`.

The comment at src/cqm_balancer.py:76 announces a balancing objective, but
`build_cqm` sets none. Balance comes only from the per-host capacity
constraints. The model follows the code, and `CqmBuilder.NoObjective`
states this.

The label round trip holds only for some VM ids, as `Labels.LabelRoundTrip`
states. A label splits back into its VM and host when two conditions hold.
The VM id must neither contain `"_on_"` nor end in `"_on"`. The host id
must not contain `"_on_"`. `Labels.LabelAmbiguity` shows what goes wrong
otherwise: `"a_on"` on `"h"` splits as VM `"a"` on host `"on_h"`. The names
the generator makes contain no underscore, so they are safe.

## Model

| member | source | states |
|---|---|---|
| Text.Split | src/cqm_balancer.py:39 | Python's `str.split(sep)`: there is always at least one piece |
| Text.SplitPiecesFree | src/cqm_balancer.py:39 | no piece of `s.split(sep)` contains `sep` |
| Text.JoinSplit | src/cqm_balancer.py:39 | joining the pieces of a split with the separator gives the string back |
| Cluster.HostNameParses | src/generate_data.py:103 | `"Host k"` splits on `" "` into `"Host"` and the decimal of `k`, and that decimal parses back to `k` |
| Cluster.VmNameInjective | src/generate_data.py:69-82 | VMs with different counter values get different names `"VM k"` |
| Cluster.HostNameInjective | src/generate_data.py:107-108 | hosts with different indices get different names `"Host k"` |
| Cluster.GeneratedNamesHaveNoUnderscore | src/generate_data.py:71-76 | no generated VM name or host name contains `'_'` |
| Labels.Label | src/cqm_balancer.py:93 | `f"{vm}_on_{host}"`: the VM id, then `"_on_"` at index `len(vm)`, then the host id |
| Labels.SplitLabel | src/cqm_balancer.py:39 | `None` exactly when `split("_on_")` does not give two pieces; otherwise the pieces are exactly that split, they rejoin with `"_on_"` to the entry, neither contains `"_on_"`, and the first ends at the first `"_on_"` |
| Labels.FirstPieceEndsAtSeparator | src/cqm_balancer.py:39 | when `split("_on_")` gives two pieces, the first is as long as the index of the first `"_on_"` |
| Labels.LabelRoundTrip | src/cqm_balancer.py:39 | a safe VM id and a safe host id come back from their label unchanged (the label is made at src/cqm_balancer.py:93) |
| Labels.LabelAmbiguity | src/cqm_balancer.py:39 | `"a_on_on_h"`, the label of VM `"a_on"` on host `"h"`, splits as VM `"a"` on host `"on_h"` |
| Labels.LabelInjective | src/cqm_balancer.py:93 | two labels of safe ids are equal only when both the VM ids and the host ids are |
| Labels.LabelInjectiveForHost | src/cqm_balancer.py:130 | on a fixed host, different VMs have different labels |
| Labels.NoUnderscoreIsSafe | src/cqm_balancer.py:93 | an id without `'_'` is safe on both sides of a label |
| CqmBalancer.Apply | src/cqm_balancer.py:39-45 | an entry is applied exactly when it splits into two pieces naming a known VM and a known host; the key sets stay the same |
| CqmBalancer.RunPlan | src/cqm_balancer.py:38-47 | running a plan keeps the VM and host key sets, as tests/test_cqm_balancer.py:60-61 checks |
| CqmBalancer.Inventory.ResetLoads | src/cqm_balancer.py:34-36 | every host's CPU and memory use becomes 0; nothing else changes |
| CqmBalancer.ZeroLoads | src/cqm_balancer.py:34-36 | the same hosts, each with CPU and memory use 0 and its caps and processor type unchanged |
| CqmBalancer.Inventory.ApplyEntry | src/cqm_balancer.py:39-45 | on success the new dictionaries are `Apply`'s result; on failure the error is `Apply`'s and both dictionaries are unchanged |
| CqmBalancer.Inventory.FormatResults | src/cqm_balancer.py:20-47 | the final dictionaries and the outcome are those of `RunPlan` started from the zeroed hosts |
| CqmBalancer.RunPlanFrame | src/cqm_balancer.py:38-45 | a run changes only the hosts' loads and the VMs' current hosts |
| CqmBalancer.RunPlanPassIff | src/cqm_balancer.py:38-45 | a run reaches the end of the plan exactly when every entry is accepted |
| CqmBalancer.RunPlanStops | src/cqm_balancer.py:38-45 | a failed run stops at an entry `k`: the entries before it succeed and reach the final state, and entry `k` fails with the reported error |
| CqmBalancer.RunPlanLoads | src/cqm_balancer.py:42-43 | after a complete run, each host's use is its starting use plus the demands of the entries naming it |
| CqmBalancer.RunPlanMoves | src/cqm_balancer.py:45 | after a complete run, each VM sits on the host of the last entry naming it, or where it was if none names it |
| CqmBalancer.SumLoadPerHost | src/cqm_balancer.py:42-43 | the loads that a valid plan adds, summed over all hosts, equal the total demand of its entries |
| CqmBalancer.PlanDemandAll | src/cqm_balancer.py:38-45 | a plan that names every VM exactly once carries the cluster's whole requested CPU or memory |
| CqmBalancer.RunFromZeroLoads | src/cqm_balancer.py:34-45 | from zeroed hosts, each host's final use is the sum of the demands placed on it |
| CqmBalancer.FormatResultsConserves | src/cqm_balancer.py:20-47 | a plan that names each VM once and runs to the end leaves a total use over hosts equal to the total requested |
| CqmBalancer.Requested | src/cqm_balancer.py:64-65 | the requested CPU or memory has one entry per VM |
| CqmBalancer.UsedPerHost | src/cqm_balancer.py:42-43 | the use per host has one entry per host |
| CqmBalancer.ExampleLastHost | tests/test_cqm_balancer.py:51-64 | in the test plan, the second VM ends on the first host |
| CqmBalancer.ExamplePlanLoad | tests/test_cqm_balancer.py:51-57 | in the test plan, the first host receives the first two VMs and the second host the third |
| CqmBalancer.ExamplePasses | tests/test_cqm_balancer.py:51-57 | the test plan is accepted entry by entry |
| CqmBalancer.FormatResultsExample | tests/test_cqm_balancer.py:13-64 | the test run succeeds, keeps both key sets and moves `"VM 2"` to `"Host 1"` |
| CqmBalancer.FormatResultsExampleLoads | tests/test_cqm_balancer.py:13-68 | after the test run, both hosts use half of each cap, so they are equal |
| CqmBuilder.AddConstraint | src/cqm_balancer.py:102-125 | adding a constraint under a fresh label adds exactly that label, keeps every other constraint and leaves the objective alone |
| CqmBuilder.Available | src/cqm_balancer.py:70-71 | the available CPU or memory has one entry per host |
| CqmBuilder.Balanced | src/cqm_balancer.py:78-85 | the balanced use has one entry per host |
| CqmBuilder.Target | src/cqm_balancer.py:64-85 | the balanced target is defined for every host |
| CqmBuilder.Share | src/cqm_balancer.py:79-83 | a host's balanced use × the total available = its cap × the total requested |
| CqmBuilder.LoadSum | src/cqm_balancer.py:92-97 | the sum for one host has a term for exactly the binaries of every VM on that host, each with that VM's request as coefficient |
| CqmBuilder.Weight | src/cqm_balancer.py:102-124 | a hard constraint has no weight; a soft one has weight 1 |
| CqmBuilder.NameLabel | src/cqm_balancer.py:104-130 | `cpu_{host}`, `mem_{host}` and `discrete_{vm}`: the prefix tells the kind of constraint and the rest is its host or VM |
| CqmBuilder.BinaryLabel | src/cqm_balancer.py:93 | with safe ids, `format_results` splits a binary's label back into its VM and host |
| CqmBuilder.CqmSpec | src/cqm_balancer.py:50-133 | the model `build_cqm` returns; its objective is empty, as no objective is set |
| CqmBuilder.BalanceOf | src/cqm_balancer.py:64-85 | requests are keyed by VM and targets by host |
| CqmBuilder.LoadSumTerms | src/cqm_balancer.py:92-97 | a host's sum has one term per VM, the binary of that VM on that host, with the VM's request as coefficient |
| CqmBuilder.LoadSums | src/cqm_balancer.py:89-97 | the loop builds, for every host, the CPU sum and the memory sum |
| CqmBuilder.CapacityStageAdd | src/cqm_balancer.py:99-125 | one pass of the host loop adds that host's CPU constraint and then its memory constraint, both under fresh labels |
| CqmBuilder.OneHotStageAdd | src/cqm_balancer.py:128-131 | one pass of the VM loop adds that VM's one-hot constraint under a fresh label |
| CqmBuilder.AddHostConstraints | src/cqm_balancer.py:99-125 | one pass of the host loop, as a method, gives the next stage of the model |
| CqmBuilder.AddCapacityConstraints | src/cqm_balancer.py:99-125 | the host loop gives the capacity constraints of all hosts |
| CqmBuilder.AddOneHots | src/cqm_balancer.py:127-131 | the VM loop adds every VM's one-hot constraint to the capacity stage |
| Aggregates.SumOfValues | src/cqm_balancer.py:67-74 | the loop over a dictionary's values computes their sum |
| CqmBuilder.BalanceFor | src/cqm_balancer.py:64-85 | computes the requests, totals and balanced targets of one resource |
| CqmBuilder.BuildCqm | src/cqm_balancer.py:50-133 | the model built is `CqmSpec` |
| CqmBuilder.CapacityConstraintAt | src/cqm_balancer.py:99-125 | for every host and resource, the model holds `cpu_{host}` or `mem_{host}`: that host's sum at most its balanced target, quadratic penalty, hard for the priority resource and soft with weight 1 for the other |
| CqmBuilder.OneHotAt | src/cqm_balancer.py:127-131 | for every VM, `discrete_{vm}` is a one-hot over exactly that VM's binaries on every host |
| CqmBuilder.ConstraintNames | src/cqm_balancer.py:99-131 | the model's constraints are exactly `cpu_`/`mem_` of each host and `discrete_` of each VM |
| CqmBuilder.NoObjective | src/cqm_balancer.py:87-133 | `build_cqm` sets no objective |
| CqmBuilder.ConstraintCount | src/cqm_balancer.py:99-131 | the model has `2·|hosts| + |vms|` constraints |
| CqmBuilder.VariablesAreGrid | src/cqm_balancer.py:89-131 | the variables are exactly the binaries of every VM on every host |
| CqmBuilder.VariableCount | tests/test_cqm_balancer.py:112-114 | there are `|hosts|·|vms|` (VM, host) pairs with a binary |
| CqmBuilder.LabelCount | tests/test_cqm_balancer.py:112-114 | with safe ids, the binaries have `|hosts|·|vms|` distinct labels, which is dimod's count of variables |
| CqmBuilder.LabelsOfSize | src/cqm_balancer.py:93 | binaries with pairwise different labels have as many labels as binaries |
| CqmBuilder.LabelsMerge | src/cqm_balancer.py:93 | VM `"a_on"` on host `"h"` and VM `"a"` on host `"on_h"` are different pairs with the same label `"a_on_on_h"`, so together they have one label |
| CqmBuilder.TestSizes | tests/test_cqm_balancer.py:70-120 | for three VMs and two hosts with safe ids: 6 binaries with 6 distinct labels and 7 constraints, which matches the test's `len(hosts) * len(vms) + 1` |
| CqmBuilder.TargetsShareDemand | src/cqm_balancer.py:78-85 | the balanced targets over all hosts sum to the total requested |
| CqmBuilder.TargetProportional | src/cqm_balancer.py:78-85 | target × total available = cap × total requested: each host's target is in proportion to its cap |
| CqmBuilder.ShareTimesTotal | src/cqm_balancer.py:79 | one host's share, times the total available, is its cap times the total requested |
| CqmBuilder.NameLabelInjective | src/cqm_balancer.py:104-130 | different constraint names have different labels |
| CqmBuilder.BinaryLabelsParse | src/cqm_balancer.py:93 | with safe ids, every binary's label splits back into its VM and host, and `format_results` accepts it (src/cqm_balancer.py:39-43) |
| CqmBuilder.BinaryLabelsDistinct | src/cqm_balancer.py:93 | with safe ids, different binaries of the model have different labels |
| GenerateData.ResourceUse | src/generate_data.py:22-35 | one use per draw |
| GenerateData.ResourceUseSum | src/generate_data.py:33-34 | the uses sum to `total_resource` |
| GenerateData.ResourceUseProportional | src/generate_data.py:33-34 | use `i` × the sum of the draws = draw `i` × the total: the uses are proportional to the draws |
| GenerateData.ResourceUseNonNegative | src/generate_data.py:32-34 | draws from `[0, 1)` and a non-negative total give non-negative uses |
| GenerateData.BaseVmCount | src/generate_data.py:53 | `total_vms // (2 * total_hosts)`: the largest count whose multiple of `2 * total_hosts` is at most `total_vms` |
| GenerateData.RemainingVms | src/generate_data.py:53-54 | base count × hosts + remaining = total VMs, and remaining > 0 when there is a VM |
| GenerateData.VmsPerHost | src/generate_data.py:60 | one count per host |
| GenerateData.DividesIncrease | src/generate_data.py:57-59 | `0`, the sorted sample from `range(1, remaining)` and `remaining` form a strictly increasing list |
| GenerateData.VmsPerHostPartition | src/generate_data.py:53-60 | the counts sum to `total_vms`, and each is at least the base count (plus one when there is a VM) |
| GenerateData.GenerateVms | src/generate_data.py:68-84 | the VMs are the hosts' blocks in host order, numbered `"VM 1"`, `"VM 2"`, … |
| GenerateData.AddHostVms | src/generate_data.py:75-82 | the inner loop appends one host's block to the numbering and advances the counter by its size |
| GenerateData.HostVms | src/generate_data.py:75-81 | one VM per draw of that host |
| GenerateData.GeneratedCounts | src/generate_data.py:53-73 | every host's draws match its count, and the counts sum to `total_vms` |
| GenerateData.GeneratedVmNames | tests/test_generate_data.py:14-17 | the VMs are exactly `"VM 1"` … `"VM n"`, one for each of the `total_vms` VMs |
| GenerateData.GeneratedVm | src/generate_data.py:70-81 | VM number `offset + j + 1` is host `h + 1`'s `j`-th VM: running, on `"Host h+1"`, with that host's `j`-th CPU and memory use |
| GenerateData.GeneratedVmsPlaced | src/generate_data.py:70-81 | every generated VM is running on one of `"Host 1"` … `"Host n"` |
| GenerateData.GeneratedHostUsed | src/generate_data.py:70-81 | a host whose count is at least 1 hosts a VM |
| GenerateData.GeneratedHostsInUse | tests/test_generate_data.py:19-21 | when every count is at least 1, the hosts in use are exactly the `total_hosts` hosts |
| GenerateData.GeneratedVmsShape | tests/test_generate_data.py:14-21 | `generate_vms` returns `total_vms` VMs, and when there is one VM the hosts in use are exactly the `total_hosts` hosts |
| GenerateData.NumberedLoad | src/generate_data.py:75-81 | a host's load over the numbered VMs is the sum of its VMs' contributions |
| GenerateData.GeneratedLoad | src/generate_data.py:63-81 | host `h + 1`'s VMs together use exactly `total_cpu[h]` CPU and `total_memory[h]` memory |
| GenerateData.GeneratedUnderCap | tests/test_generate_data.py:23-34 | each host's VMs use at least a quarter of each cap, rounded up, and stay below it |
| GenerateData.Slot | src/generate_data.py:103 | a well-formed `"Host k"` reference gives an index inside the lists (`k = 0` gives index -1, the last entry) |
| GenerateData.HostNameSlot | src/generate_data.py:103 | `"Host j"` for `1 <= j <= total_hosts` is a host reference whose index is `j - 1` |
| GenerateData.SlotMap | src/generate_data.py:102-105 | one contribution per VM |
| GenerateData.HostRows | src/generate_data.py:107-114 | one host record per index |
| GenerateData.SumUsePerHost | src/generate_data.py:100-105 | entry `i` of each list is the total use of the VMs whose host maps to `i` |
| GenerateData.GenerateHosts | src/generate_data.py:99-116 | the hosts are `HostRows` numbered `"Host 1"` … |
| GenerateData.GeneratedHostNames | tests/test_generate_data.py:60-63 | the hosts are exactly `"Host 1"` … `"Host n"`, `total_hosts` of them |
| GenerateData.GeneratedHost | src/generate_data.py:107-114 | `"Host h+1"` is a `"CPU"` host whose use is entry `h` of each list, with caps `CPU_CAP` and `MEMORY_CAP` |
| GenerateData.GeneratedHostRecord | src/generate_data.py:102-114 | for VMs on generated hosts, each host's use is the total demand of the VMs on it |
| GenerateData.GeneratedHostTotals | src/generate_data.py:63-114 | hosts generated from generated VMs use exactly the drawn totals |
| GenerateData.GeneratedClusterUnderCap | tests/test_generate_data.py:65-68 | every host generated from generated VMs uses less than its caps |
| ClusterBalance.Ratio | src/generate_data.py:140-141 | the ratio × the cap = the use |
| ClusterBalance.MaxRatio | src/generate_data.py:140-144 | `max` of the usage ratios: some host attains it and none exceeds it |
| ClusterBalance.MinRatio | src/generate_data.py:140-144 | `min` of the usage ratios: some host attains it and none is below it |
| ClusterBalance.UsageRange | src/generate_data.py:143-144 | the range of the ratios is non-negative |
| ClusterBalance.Weight | src/generate_data.py:132-137 | the priority resource gets `priority_weight` and the other gets 1 |
| ClusterBalance.WeightedMean | src/generate_data.py:147-149 | the mean × the total weight = the weighted sum of the two parts |
| ClusterBalance.BalanceFactor | src/generate_data.py:119-151 | with a non-negative weight the factor is at most 1 |
| ClusterBalance.UsageRangeZero | src/generate_data.py:140-144 | the range is 0 exactly when every host has the same ratio |
| ClusterBalance.UsageRangeAtMostOne | src/generate_data.py:140-144 | ratios in `[0, 1]` give a range of at most 1 |
| ClusterBalance.BalanceFactorUniform | src/generate_data.py:132-149 | a cluster where every host has the same CPU and the same memory ratio scores 1 |
| ClusterBalance.BalanceFactorOne | src/generate_data.py:132-149 | with `priority_weight >= 1`, the factor is 1 exactly when both resources are spread evenly |
| ClusterBalance.BalanceFactorBounds | src/generate_data.py:129-131 | the factor lies between 0 and 1 for a non-negative weight and hosts within their caps |
| ClusterBalance.ExampleHosts | tests/test_generate_data.py:72-87 | the test cluster: two hosts at half use and at full use |
| ClusterBalance.ExampleRange | tests/test_generate_data.py:72-87 | both ranges of the test cluster are 0.5 |
| ClusterBalance.BalanceFactorExample | tests/test_generate_data.py:70-93 | the test cluster scores 0.5, whichever resource has priority |
| DemoCallbacks.Tokens | demo_callbacks.py:49 | the empty class string has no tokens; otherwise the tokens joined with `" "` give the string back |
| DemoCallbacks.FirstIndex | demo_callbacks.py:51 | the position of the first occurrence |
| DemoCallbacks.RemoveFirst | demo_callbacks.py:51 | removing the first occurrence removes one copy and keeps the order of the rest |
| DemoCallbacks.CollapsedToken | demo_callbacks.py:49-50 | `"collapsed"` is a single token |
| DemoCallbacks.ToggleCollapsed | demo_callbacks.py:37-53 | without a `"collapsed"` token, the result's tokens are the old ones plus `"collapsed"`; with it, a non-empty result's tokens are the old ones minus the first `"collapsed"` |
| DemoCallbacks.RestRejoins | demo_callbacks.py:50-52 | the tokens left after removing `"collapsed"`, joined with spaces, split back into themselves |
| DemoCallbacks.ToggleAdds | demo_callbacks.py:53 | without a `"collapsed"` token, the toggle makes `"collapsed"` of `""` and `s + " collapsed"` of `s`, and the result has the token |
| DemoCallbacks.ToggleRemovesFirst | demo_callbacks.py:50-52 | with the token, the result is the other tokens joined by spaces and splits back into them |
| DemoCallbacks.ToggleTwice | demo_callbacks.py:37-53 | toggling twice restores a class string that had no `"collapsed"` token |
| DemoCallbacks.PyIndex | demo_callbacks.py:84-91 | Python indexing: valid exactly for `-n <= i < n`, negative indices counted from the end |
| DemoCallbacks.Repeat | demo_callbacks.py:85-88 | `[c] * n` is `n` copies of `c` |
| DemoCallbacks.MagnifyGraph | demo_callbacks.py:82-93 | a successful call returns one class per graph and one per button |
| DemoCallbacks.MagnifyResets | demo_callbacks.py:84-85 | clicking an expanded graph's button resets every graph to `"graph-element"` and every button to `"magnifying"` |
| DemoCallbacks.MagnifyExpands | demo_callbacks.py:87-93 | clicking any other graph's button expands that graph, hides the rest and shows its button as `"magnifying minus"`; the call fails with `IndexError` exactly when the index is outside the button list |
| DemoCallbacks.MagnifyOutOfRange | demo_callbacks.py:84 | an index outside the graph list raises `IndexError` |
| DemoCallbacks.MagnifyTwice | demo_callbacks.py:66-93 | two clicks on one button either expand and then reset, or reset and then expand the same graph again |

## Left out

- `get_solution` (src/cqm_balancer.py:136-153) is left out. It calls the remote hybrid solver. The model starts from its output, the plan handed to `format_results`.
- dimod itself is not modelled: `Binary`, `quicksum`, `ConstrainedQuadraticModel`. The model keeps only the labelled constraints and the objective that `build_cqm` sets. A constraint's linear sum is a map from binaries to coefficients.
- Python's float arithmetic and rounding are left out. All loads, ratios and the balance factor are exact reals.
- `random` is left out. Every draw of `generate_vms` is an input (`Draws`), constrained to the range the source draws from. `random.seed` is out with it, and so is `RANDOM_SEED` in demo_configs.py.
- Dictionary insertion order is not modelled. Dictionaries are maps, and loops over them pick any remaining key. No result depends on the order.
- Aliasing between the dictionaries passed to `format_results` and those it returns is left out. The returned dictionaries are the updated fields of `Inventory`.
- The other callbacks, the charts, the layout and the configuration constants are left out. Only the caps are kept. demo_interface.py, src/generate_charts.py and their tests are not part of this model.
- src/demo_enums.py is not part of this model. `PriorityType` is a choice between the two resources. The test's `PriorityType(0)` is therefore not identified, and `ClusterBalance.BalanceFactorExample` is proved for either priority.
- The click counts (`n_clicks`) of both callbacks are not used by the source, and they are not parameters here. `ctx.triggered_id["index"]` is a parameter.
- Inputs that make the source raise are preconditions. These are: `total_hosts = 0`; a sample larger than its range; a zero sum of draws; an empty cluster or `priority_weight = -1` in the balance factor; zero caps; zero total capacity in `build_cqm`; duplicate constraint labels; a `current_host` that does not name a host in `generate_hosts`.
- GenerateData.GenerateHosts: `int()` also accepts signs, underscores and surrounding spaces. The model's `HostRef` accepts only decimal digits after the space, so it demands more of its callers than the source does. Every generated host name meets it.
- GenerateData.HostRef: it does not require the first word to be `"Host"`. The source reads only the second word, and so does the model.
- ClusterBalance.BalanceFactorBounds: the lower bound needs every ratio in `[0, 1]`. With a host over its cap the source's factor can be negative.
- ClusterBalance.BalanceFactor: its own contract gives only the upper bound. The value is defined as the weighted mean, and the lemmas beside it state the rest.
- CqmBuilder.VariableCount: it counts (VM, host) pairs. dimod names a variable by its label. When ids are not safe, two pairs can share a label (`CqmBuilder.LabelsMerge`) and dimod then has fewer variables. `CqmBuilder.LabelCount` gives dimod's count for safe ids. How dimod merges the coefficients of a shared label is not modelled.
- CqmBuilder.TestSizes: the test counts "linear" constraints as `len(hosts) * len(vms) + 1`. The general count is `2·|hosts| + |vms|` (`CqmBuilder.ConstraintCount`). The two agree only for the test's sizes.
