# Scale-down safety of the Kubernetes-aware cloudpool proxy

A Dafny model of how the proxy scales a Kubernetes cluster down, and proofs of what it guarantees.
`dafny verify dfyconfig.toml` checks the whole project.

A cloudpool is a group of machines; some of them run Kubernetes worker nodes. The proxy stands between
a client and the pool. When a client asks for fewer machines, or for the termination of one machine, the
proxy judges which nodes can be given up, drains them, deletes them from the cluster and terminates
their machines. The model follows the layers of the code.

| layer | modules |
|---|---|
| records, library calls, resource accounting | `Kube`, `Resources` |
| quasi scheduler | `Constraints`, `Scheduling`, `SchedulingLaws`, `SchedulerImpl` |
| cluster, pool and API calls | `Cluster`, `ClientImpl`, `CallLaws` |
| what is promised, on the fields of the records | `Promises`, `PromiseLaws` |
| node scaler | `NodeScaler`, `VerdictLaws`, `DrainLaws`, `NodeScalerImpl` |
| proxy | `Proxy`, `RunLaws`, `RequestLaws`, `PartitionLaws`, `RemovalLaws`, `LogLaws`, `SizeLaws`, `OutcomeLaws`, `ResizeLaws`, `CasualtyLaws`, `BudgetLaws`, `SuccessLaws`, `CrashLaws`, `ErrorLaws`, `IdleLaws`, `PrefixLaws`, `ProxyImpl` |
| server and its lock | `Handler`, `Server` |
| inputs on which things go wrong | `Examples` |

Each operation appears twice: as a function on values (`Scheduling`, `NodeScaler`, `Proxy`), about which
the laws are proved, and as a method in the form of the source (`*Impl`), whose postcondition says that
it computes that function. So every law about the functions is a law about the loops. What the laws
promise is stated in `Promises` on the fields of the records, with their literal values and without the
program's own predicates.

## How the outside world is modelled

`Cluster.World` is the state of cluster and pool, a count of the API calls made, and a log of everything
attempted. `Cluster.Env` holds what the program does not control, and every result holds for each of its
values: which calls fail (`fails`, any function of the call number), where and under which name the
controllers recreate an evicted pod (`respawn`), what the libraries answer (`lib`), and what `sort.Slice`
returns (`sort`). A failed call has no effect. A run-time panic is an outcome of its own
(`NilDereference`, `Panic`, `Crash`), not a precondition.

Assumptions appear as preconditions of the results that need them:

- `Permutes`, `SortsByLoad`: sorting permutes, and orders what can be compared; ties may come in any order.
- `RoundsUp`: `MilliValue` and `Value` are monotone, keep zero, and map a positive amount to at least 1.
- `UniqueNames`, `UniqueOwners`, `UniquePods`: node names are unique, no machine belongs to two nodes, pods
  are identified by namespace and name.
- `NonNegative`, `NonNegativeRequests`, `HasCapacity`: amounts are not negative; allocatable ones are positive.
- `Healthy`: every node has capacity, no request is negative, every controller flag is set.

Resource amounts are integers in the finest unit, loads are exact reals extended by the infinities and
NaN that a division by zero yields.

## Where the code does something else than promised

- Required node affinity: Kubernetes documents that one matching term is enough; the code demands that all
  terms match, and accepts a pod whose term list is empty. `Constraints.AffinityStricterThanDocumented` is an
  example, `Constraints.AffinityAgreesWithDocumentedRule` the exact condition for agreement.
- A candidate node without allocatable CPU or memory has no comparable load. If all candidates are like
  that, `leastLoadedNode` returns nil and `Schedule` dereferences it:
  `SchedulingLaws.NilDereferenceHappens`, `SchedulingLaws.SchedulePanicsExactly`.
- `hasController` dereferences the controller flag of each owner reference up to the first controller; an
  unset flag before it is a panic: `VerdictLaws.ControllerLoop`.
- Through either of the two a verdict can panic, and with it the request: `Examples.CapacityPanicHappens` and
  `Examples.PanicHappens` are examples, `VerdictLaws.VerdictPanicsExactly` and `CrashLaws.CrashExactly` say exactly when, and
  `CrashLaws.HealthyNeverCrashes` when never.
- A handler that panics between Lock and Unlock never releases the lock: `Examples.WedgeHappens`,
  `Server.PanicWedgesServer`. This needs a request that crashes, and any such request can do it
  (`Server.WedgedMeansCrash`, `Server.CrashWedgesServer`); a healthy cluster rules it out
  (`Server.HealthyNeverWedged`).
- The aggregate capacity check is harmless if no remaining node is over-committed. An over-committed node
  can make it refuse pods that fit, even none at all (`SchedulingLaws.OvercommitMakesPrecheckReject`), but
  need not; `SchedulingLaws.PrecheckExactly` says exactly which pods that can be placed it refuses.
- A rollback also removes a drain taint that was there before the drain: `Examples.RollbackLosesTaint`,
  `DrainLaws.RollbackRestoresExactly`.
- A drain whose node cannot be deleted afterwards leaves the node tainted, and a machine that cannot be
  terminated is left without its node: `Examples.TaintHappens`, `Examples.OrphanHappens`.
  `CasualtyLaws.CasualtiesExactly` says exactly when either happens, `CasualtyLaws.AtMostOneCasualty` how often.
- Each victim is judged against a snapshot in which the other victims are still there. So victims that are
  within a disruption budget one by one can exceed it together, and one request can evict pods into
  nowhere and remove every worker: `Examples.JointlyTooMuch`. `BudgetLaws.BudgetsAddUp` says exactly when
  a successful request stays within a budget.
- `isMachineEvictable` gives "evictable is true" as the reason for a machine whose flag is false
  (`pkg/proxy/proxy.go:349-350`); the model has the reason `NotEvictable`.

## Model

| member | source | states |
|---|---|---|
| `Kube.FilterCounts` | pkg/kube/nodescaler.go:503-521 | a filter keeps every occurrence of the elements that pass and of nothing else |
| `Kube.SatisfiesAll` | pkg/kube/nodescaler.go:506-513 | the inner loop finds out whether all predicates hold, stopping at the first that does not |
| `Kube.FilterAll` | pkg/cloudpool/functions.go:28-46 | the loop over elements and predicates yields exactly the elements that satisfy all predicates, in order |
| `Resources.OneContainer` | pkg/kube/quasi_scheduler.go:429-430 | a container counts with exactly its `cpu` and its `memory` entry, and with 0 where it has none |
| `Resources.ContainersAddUp` | pkg/kube/quasi_scheduler.go:428-431 | every container counts, once |
| `Resources.RequestsAddUp` | pkg/kube/quasi_scheduler.go:435-455 | the request of a list of pods is that of all their containers together |
| `Resources.FreeIsTheRest` | pkg/kube/nodeinfo.go:30-77 | free is what the node reports as allocatable less what all containers on it request, for each resource under its own name |
| `Resources.PodSize` | pkg/kube/quasi_scheduler.go:424-433 | the loop sums the requests of all containers; a missing entry counts as zero |
| `Resources.SumRequests` | pkg/kube/quasi_scheduler.go:435-455 | the nested loops, with one running total, add up to the sum over the pods of the pod sizes |
| `Resources.NodeInfo.FreeAmount` | pkg/kube/nodeinfo.go:30-77 | free is allocatable minus what the pods on the node request |
| `Constraints.RequirementsAsSelector` | pkg/kube/quasi_scheduler.go:377-407 | an empty term selects nothing, one bad expression spoils the term, otherwise all expressions are required |
| `Constraints.FirstRepelling` | pkg/kube/quasi_scheduler.go:327-348 | a taint is reported exactly when some NoSchedule or NoExecute taint is not tolerated, and then it is such a one |
| `Constraints.CheckAccepts` | pkg/kube/quasi_scheduler.go:302-373 | the predicates tried in order accept a node exactly when the pod fits and taints, selector and affinity permit it |
| `Constraints.PermitsExactly` | pkg/kube/quasi_scheduler.go:317-407 | on the fields: every NoSchedule or NoExecute taint is tolerated, every selected label is there, every expression of every affinity term is well-formed and satisfied, and no term is empty |
| `Constraints.ReasonFitsMismatch` | pkg/kube/quasi_scheduler.go:276-373 | the reason for turning a node down is the first in the order CPU, memory, taints, selector, affinity, and is true of node and pod, amounts included |
| `Constraints.AffinityIsConjunction` | pkg/kube/quasi_scheduler.go:353-373 | the affinity loop accepts a node exactly when every term parses and selects it |
| `Constraints.AffinityAcceptsImpliesDocumentedRule` | pkg/kube/quasi_scheduler.go:353-407 | with at least one term, an accepted node satisfies every expression of every term, hence also the any-one-term rule |
| `Constraints.AffinityAgreesWithDocumentedRule` | pkg/kube/quasi_scheduler.go:353-407 | code and documented rule agree exactly when there is a term and the terms do not disagree on the node |
| `Constraints.AffinityOfOneTerm` | pkg/kube/quasi_scheduler.go:353-407 | with one term the two rules agree |
| `Constraints.AffinityStricterThanDocumented` | pkg/kube/quasi_scheduler.go:359-369 | two terms of which one matches: the documented rule admits the node, the code rejects it |
| `SchedulingLaws.ScheduleOutcomes` | pkg/kube/quasi_scheduler.go:223-243 | which outcome a call has: an error exactly without nodes, the reasons exactly if every node rejects the pod, a nil dereference exactly if there are candidates but none with a usable load, otherwise the first candidate of minimal load |
| `SchedulingLaws.LoadOfFittingNode` | pkg/kube/quasi_scheduler.go:139-153 | a node that some pod fits on has a load between 0 and 2 despite rounding, or no load if it lacks CPU or memory |
| `SchedulingLaws.LoadExactly` | pkg/kube/quasi_scheduler.go:139-153 | the load is the sum of the fractions of CPU (in milli-units) and memory (in whole units) that are not free |
| `SchedulingLaws.LoadOrder` | pkg/kube/quasi_scheduler.go:139-153 | of two nodes with equal metadata the one with less free is not less loaded, and more loaded if the rounded amounts differ |
| `SchedulingLaws.LoadCorners` | pkg/kube/quasi_scheduler.go:139-153 | an empty node has load 0, a full one 2, one full in one resource and empty in the other 1 |
| `SchedulingLaws.PlacingRaisesLoad` | pkg/kube/quasi_scheduler.go:237-242 | placing a pod never lowers the load of its node |
| `SchedulingLaws.ArgMinIsFirstMinimum` | pkg/kube/quasi_scheduler.go:411-421 | the running minimum is the first of minimal load; it is nil exactly when no load is below the start value |
| `SchedulingLaws.ScheduleChoosesLeastLoaded` | pkg/kube/quasi_scheduler.go:237-242 | a placed pod goes to the first candidate of minimal load |
| `SchedulingLaws.SchedulePanicsExactly` | pkg/kube/quasi_scheduler.go:232-241 | scheduling dereferences nil exactly when there are candidates and each lacks allocatable CPU or memory |
| `SchedulingLaws.NilDereferenceHappens` | pkg/kube/quasi_scheduler.go:238-241 | one node without allocatable amounts and a pod without requests make it happen |
| `SchedulingLaws.EvacuationPanicsExactly` | pkg/kube/nodescaler.go:236-252 | the evacuation check panics exactly when the pods pass the aggregate check and one of them, after those before it were placed, has candidates but none with a usable load |
| `SchedulingLaws.StuckMeansNoCapacity` | pkg/kube/quasi_scheduler.go:139-243 | that is exactly when all its candidates lack allocatable CPU or memory as the cluster reports them |
| `SchedulingLaws.CapacityPreventsPanic` | pkg/kube/nodescaler.go:236-252 | with allocatable CPU and memory on every node the evacuation check does not panic |
| `SchedulingLaws.RejectionsExplainEachNode` | pkg/kube/quasi_scheduler.go:276-298 | every rejected node has a reason, and each reason is one that a node of that name was rejected for |
| `SchedulingLaws.EvacuationErrorFits` | pkg/kube/nodescaler.go:236-252 | the error of the evacuation check is true: the amounts of the aggregate check are the sums and do not suffice, or every node turns the named pod down after those before it were placed, for true reasons |
| `SchedulingLaws.PlansAreValid` | pkg/kube/quasi_scheduler.go:223-243 | for any sound policy, a plan gives each pod a permitted node, no receiving node exceeds its capacity, and the final nodes are the initial ones plus the planned pods |
| `SchedulingLaws.EvacuationHasPlacement` | pkg/kube/nodescaler.go:236-252 | no error means that there is a placement of all pods within capacities and constraints |
| `SchedulingLaws.CapacityConserved` | pkg/kube/quasi_scheduler.go:189-243 | over any series of calls, total free CPU and memory shrink by exactly the requests of the placed pods |
| `SchedulingLaws.FreeNeverGrows` | pkg/kube/quasi_scheduler.go:223-243 | over any series of calls, no node gains free capacity or changes its metadata |
| `SchedulingLaws.RejectionIsPermanent` | pkg/kube/quasi_scheduler.go:223-373 | a pod rejected by every node is still rejected after any further series of calls |
| `SchedulingLaws.PrecheckRejectsOnlyHopelessPods` | pkg/kube/quasi_scheduler.go:252-270 | without over-committed nodes, pods with any capacity-respecting assignment pass the aggregate check |
| `SchedulingLaws.PrecheckIsTransparent` | pkg/kube/nodescaler.go:236-252 | without over-committed nodes, the same pods are accepted with and without the aggregate check |
| `SchedulingLaws.PrecheckExactly` | pkg/kube/nodescaler.go:236-252 | on any cluster, pods that can be placed are accepted exactly when they request no more than the initial free amounts sum to, which is when what is left does not sum to less than zero |
| `SchedulingLaws.OvercommitMakesPrecheckReject` | pkg/kube/quasi_scheduler.go:252-270 | with an over-committed node, even no pods at all are rejected |
| `SchedulerImpl.QuasiPodScheduler.constructor` | pkg/kube/quasi_scheduler.go:169-185 | the scheduler owns fresh, distinct copies that equal the given nodes |
| `SchedulerImpl.QuasiPodScheduler.TotalFreeAmount` | pkg/kube/quasi_scheduler.go:189-205 | the loop adds up the free amounts of all nodes |
| `SchedulerImpl.QuasiPodScheduler.VerifySchedulingViable` | pkg/kube/quasi_scheduler.go:252-270 | an error exactly when total requests exceed total free CPU, or else memory, with both amounts |
| `SchedulerImpl.QuasiPodScheduler.SchedulingCandidates` | pkg/kube/quasi_scheduler.go:276-298 | the loop yields the accepted nodes in order and the rejection reasons by name |
| `SchedulerImpl.QuasiPodScheduler.LeastLoadedNode` | pkg/kube/quasi_scheduler.go:411-421 | the loop yields the running minimum over the candidates' loads, or nil |
| `SchedulerImpl.QuasiPodScheduler.Schedule` | pkg/kube/quasi_scheduler.go:223-243 | a success appends the pod to exactly one node's list; a failure changes nothing |
| `SchedulerImpl.VerifyEvacuationFeasibility` | pkg/kube/nodescaler.go:236-252 | aggregate check, then pod after pod on copies; nothing that the caller holds is modified |
| `SchedulerImpl.FailureEndsPlan` | pkg/kube/nodescaler.go:244-250 | once a pod fails, the pods after it make no difference |
| `VerdictLaws.ReadsSnapshot` | pkg/kube/nodescaler.go:399-438 | reading all nodes changes nothing and yields the snapshot of the state unless a call fails |
| `VerdictLaws.VerdictIsOfSnapshot` | pkg/kube/nodescaler.go:168-230 | judging changes nothing; whatever fails, the verdict is the snapshot's or blames a failed call |
| `VerdictLaws.VerdictWithoutFailures` | pkg/kube/nodescaler.go:168-230 | without failing calls the verdict is the snapshot's |
| `VerdictLaws.ControllerLoop` | pkg/kube/nodescaler.go:543-550 | a controller is found, or a nil flag dereferenced, exactly when it comes before the other |
| `VerdictLaws.NoObstacleMeansMovable` | pkg/kube/nodescaler.go:206-213 | the loop passes exactly when each pod has no local storage and a controller |
| `VerdictLaws.CountIsMatching` | pkg/kube/nodescaler.go:383-388 | the counter is the number of pods whose labels the budget's selector matches |
| `VerdictLaws.NoObstacleMeansWithin` | pkg/kube/nodescaler.go:376-397 | the budgets pass exactly when each parses and matches no more of the pods, by their labels, than it allows |
| `VerdictLaws.AcceptedExactly` | pkg/kube/nodescaler.go:168-230 | on the fields: a node is accepted exactly when it has not opted out, a ready schedulable worker remains, each active pod outside kube-system has no host-path or empty-dir volume and a controller, the budgets allow it, and the placement succeeds |
| `VerdictLaws.MovePanicsExactly` | pkg/kube/nodescaler.go:206-213 | the loop panics exactly when it comes to a pod without local storage that has an unset flag before any controller, all pods before being movable |
| `VerdictLaws.VerdictPanicsExactly` | pkg/kube/nodescaler.go:168-230 | a verdict panics exactly when the node is unprotected, others remain, and an unset flag is met or, everything else being fine, a pod gets stuck |
| `VerdictLaws.HealthyNeverTrips` | pkg/kube/nodescaler.go:168-230 | no verdict panics on a healthy cluster |
| `VerdictLaws.AcceptedIsVetted` | pkg/kube/nodescaler.go:168-230 | on the fields: an accepted node has not opted out, its pods that have to leave can be moved, all budgets allow it, and there is a valid placement on other ready, schedulable workers |
| `VerdictLaws.VettedPrefixWithinBudget` | pkg/kube/nodescaler.go:376-397 | every prefix of the evictions of a vetted node is within each budget |
| `VerdictLaws.RefusalFits` | pkg/kube/nodescaler.go:168-230 | the reason for a refusal is the first in the order of the checks, and is true of node, pods, budgets and other nodes, names and amounts included |
| `DrainLaws.DrainLog` | pkg/kube/nodescaler.go:275-315 | success evicts each active non-system pod once in order; failure at the k-th attempts exactly k and rolls back once; failure before evicts nothing |
| `DrainLaws.MarkTaints` | pkg/kube/nodescaler.go:319-348 | after a successful marking the node carries a drain taint; if it had none, exactly `node-about-to-be-drained=true:NoSchedule` was added |
| `DrainLaws.MarkCloses` | pkg/kube/nodescaler.go:319-348 | then it admits no pod that does not tolerate this taint |
| `DrainLaws.ShutOutIsRejected` | pkg/kube/quasi_scheduler.go:327-338 | and the scheduler rejects such a pod |
| `DrainLaws.DrainEmpties` | pkg/kube/nodescaler.go:275-315 | after a successful drain the pods that had to leave are gone, unless someone recreates them |
| `DrainLaws.MarkKeepsNode` | pkg/kube/nodescaler.go:319-348 | marking changes nothing of the node but the drain taint |
| `DrainLaws.EvictionsKeepRest` | pkg/kube/nodescaler.go:284-312 | evictions change pods and nothing else, so the taint stays while they last |
| `DrainLaws.RollbackRestoresExactly` | pkg/kube/nodescaler.go:301-307 | a successful rollback restores the node exactly when it had no drain taint before |
| `DrainLaws.DrainFrame` | pkg/kube/nodescaler.go:275-315 | a drain, successful or not, touches no other node, no machine and no other pod; new pods are evicted ones recreated |
| `NodeScalerImpl.FilterNodes` | pkg/kube/nodescaler.go:503-521 | the loop yields the objects whose values pass, in order |
| `NodeScalerImpl.FilterVictimPods` | pkg/kube/nodescaler.go:554-572 | the pods judged and the pods evicted are the same active, non-system pods |
| `PromiseLaws.DepartingPods` | pkg/kube/nodescaler.go:523-531 | the pods judged and evicted are those outside kube-system that are pending or running, in order |
| `PromiseLaws.RemainingReceive` | pkg/kube/nodescaler.go:190-191 | the remaining nodes are the other ones that are ready, schedulable and run no API server |
| `PromiseLaws.MastersAre` | pkg/kube/nodescaler.go:451-471 | a master hosts a kube-system pod with the API server's label or name |
| `PromiseLaws.ActiveMachinesAre` | pkg/cloudpool/functions.go:15-26 | active machines are requested, pending or running and have an active membership |
| `NodeScalerImpl.HasControllerRef` | pkg/kube/nodescaler.go:543-550 | the loop computes the controller search, nil dereference included |
| `NodeScalerImpl.CheckMovable` | pkg/kube/nodescaler.go:206-213 | the loop yields the first pod that cannot be moved |
| `NodeScalerImpl.PodDisruptionBudgetsAllowEvacuation` | pkg/kube/nodescaler.go:376-397 | the counting loops yield the first budget that does not parse or is exceeded, with both counts |
| `NodeScalerImpl.DefaultNodeScaler.GetNodeInfos` | pkg/kube/nodescaler.go:399-438 | new node objects with the values that one call after the other returns, until a call fails |
| `NodeScalerImpl.DefaultNodeScaler.ListWorkerNodes` | pkg/kube/nodescaler.go:155-163 | the nodes that run no API server |
| `NodeScalerImpl.DefaultNodeScaler.IsScaleDownCandidate` | pkg/kube/nodescaler.go:168-230 | the verdict, with no change to any node object the caller holds |
| `NodeScalerImpl.DefaultNodeScaler.MarkUnschedulable` | pkg/kube/nodescaler.go:319-348 | reads the node again, and adds the taint unless it is there |
| `NodeScalerImpl.DefaultNodeScaler.MarkSchedulable` | pkg/kube/nodescaler.go:350-372 | reads the node again, and removes every drain taint |
| `NodeScalerImpl.DefaultNodeScaler.RunDeferred` | pkg/kube/nodescaler.go:300-308 | all deferred closures together perform at most one rollback, the one of the failed eviction |
| `NodeScalerImpl.DefaultNodeScaler.DrainNode` | pkg/kube/nodescaler.go:275-315 | the loop with its deferred closures is taint, evict in order, and one rollback on failure |
| `RequestLaws.PairsMatch` | pkg/proxy/proxy.go:326-338 | a pair's machine has its node's external ID; a node is paired exactly when some machine has it |
| `ProxyImpl.PairNodesWithMachines` | pkg/proxy/proxy.go:326-338 | after all loops every pair still points to the machine of its node, although it holds the address of a loop variable |
| `ProxyImpl.ProxyServer.IsScaleDownCandidate` | pkg/proxy/proxy.go:302-361 | a machine that is not evictable is refused, any other pair gets its node's verdict |
| `ProxyImpl.ProxyServer.PartitionScaleDownCandidates` | pkg/proxy/proxy.go:285-296 | the loop yields candidates and reasons, or stops at a panic |
| `ProxyImpl.ProxyServer.EvictAndTerminate` | pkg/proxy/proxy.go:241-265 | drain, delete and terminate, each only after the one before succeeded |
| `ProxyImpl.ProxyServer.RemoveVictims` | pkg/proxy/proxy.go:195-202 | the loop removes the first victims in order, up to the first failure |
| `ProxyImpl.ProxyServer.SetDesiredSize` | pkg/proxy/proxy.go:141-204 | the whole request, call by call |
| `ProxyImpl.ProxyServer.GetNodeWithExternalID` | pkg/proxy/proxy.go:267-279 | the first worker with the external ID, or the error |
| `ProxyImpl.ProxyServer.TerminateMachine` | pkg/proxy/proxy.go:208-233 | the whole request, call by call |
| `PartitionLaws.EveryPairIsAnswered` | pkg/proxy/proxy.go:285-312 | every pair is a candidate or has a rejection whose reason is true of it, and neither list holds anything else; a failed call is blamed only if one failed |
| `PartitionLaws.PartitionWithoutFailures` | pkg/proxy/proxy.go:285-312 | without failing calls it panics exactly when some verdict does, and the candidates are the acceptable pairs in order |
| `PartitionLaws.OrderIsIrrelevant` | pkg/proxy/proxy.go:285-296 | another order of the pairs gives the same candidates |
| `RequestLaws.RequestAccountable` | pkg/proxy/proxy.go:141-265 | in every run of either request, with failures anywhere, each attempted change is justified by the request's own log back to a verdict on the initial snapshot, and replaying the log gives the final state |
| `RequestLaws.TerminationsAreEarned` | pkg/proxy/proxy.go:141-265 | a terminated machine is evictable and belongs to a worker that the same request accepted; right before, each of its active non-system pods was evicted, in order and successfully, and then the node was deleted |
| `RequestLaws.EvictionsAreVetted` | pkg/proxy/proxy.go:180-265 | an evicted pod is active, outside kube-system, has a controller and no local storage, and is on an accepted, vetted node; at that moment the node is tainted and, unless it was so from the start, admits no pod that does not tolerate the taint |
| `BudgetLaws.BudgetsRespected` | pkg/kube/nodescaler.go:220-312 | at every point of either request, no more of the pods evicted from an accepted node match a budget's selector than it allows |
| `BudgetLaws.BudgetsAddUp` | pkg/proxy/proxy.go:180-203 | over a whole scale-down, the evicted pods that match a budget's selector are at most the sum over its victims, and on success exactly, so within the allowance if and only if that sum is |
| `RemovalLaws.RemovalStopsAtFailure` | pkg/proxy/proxy.go:194-202 | the victims before the failure are removed completely, those after it and everything else, pods included, are as before |
| `SizeLaws.EvictionKeepsMasters` | pkg/kube/nodescaler.go:451-471 | evicting a pod outside kube-system makes no master and unmakes none |
| `SizeLaws.RosterThroughout` | pkg/proxy/proxy.go:163-203 | at every point of a request, the active nodes are the initial ones without those deleted so far |
| `ResizeLaws.NeverBelowDesired` | pkg/proxy/proxy.go:163-203 | at no point, failures included, are there fewer active nodes than requested, or than at the start if these were fewer |
| `ResizeLaws.SuccessfulScaleDown` | pkg/proxy/proxy.go:176-203 | a success terminates exactly min(excess, candidates) machines, each with the decrement flag, and as many active nodes are gone |
| `ResizeLaws.NoExcessOnlyForwards` | pkg/proxy/proxy.go:166-175 | without excess nothing is drained, at most the size is forwarded |
| `ResizeLaws.RepeatOnlyForwards` | pkg/proxy/proxy.go:141-204 | after a success with enough candidates exactly the requested number is active, and the same request again only forwards |
| `CasualtyLaws.ScaleDownAftermath` | pkg/proxy/proxy.go:180-202 | the victims are the first of the sorted accepted pairs; a request that fails at one has removed those before it, with exactly their terminations and evictions on the log, and touched nothing after it, neither node, machine nor pod |
| `CasualtyLaws.CasualtiesExactly` | pkg/proxy/proxy.go:141-265 | for either request: an active machine has lost its node exactly when the last thing attempted was to terminate it in vain; an untainted node has become tainted exactly when the log ends with its failed deletion or with a rollback that could not read or update it |
| `CasualtyLaws.SetSizeOrphansExactly` | pkg/proxy/proxy.go:194-265 | for a new size, every machine whose termination fails at the end is such a machine |
| `CasualtyLaws.AtMostOneCasualty` | pkg/proxy/proxy.go:194-265 | at most one machine runs on without its node, at most one node newly carries the taint, and none of it after a success |
| `SuccessLaws.TerminatesLeastLoadedFirst` | pkg/proxy/proxy.go:180-202 | for any correct sort, the terminated machines are the first of the accepted ones in order of load |
| `SuccessLaws.OutcomeWithoutFailures` | pkg/proxy/proxy.go:141-204 | if no call fails, the initial state decides: panic exactly if there is excess and a pair trips its verdict, no candidate exactly if there is excess and none is acceptable, success otherwise |
| `SuccessLaws.ReachesDesiredSize` | pkg/proxy/proxy.go:141-204 | if no call fails, no verdict panics and candidates suffice, exactly the requested number of nodes is left, and the same request again drains nothing |
| `SuccessLaws.TerminationWithoutFailures` | pkg/proxy/proxy.go:208-265 | if no call fails, the initial state decides the outcome; only a success changes anything, and then that node and machine |
| `ErrorLaws.SetSizeErrors` | pkg/proxy/proxy.go:141-204 | for every pattern of failing calls, which error is reported: each client error exactly if certain calls failed, the scale-down error exactly if the log ends with a failed drain, deletion or termination, the lack of candidates with a true reason for each pair |
| `ErrorLaws.TerminateErrors` | pkg/proxy/proxy.go:208-279 | likewise; the node is not found exactly if no worker has the external ID |
| `ErrorLaws.TerminateAftermath` | pkg/proxy/proxy.go:208-265 | whatever calls fail, a success removes exactly the target after evicting its pods, with the decrement flag as given; otherwise no machine is terminated and only the target's node and pods are touched |
| `CallLaws.InfosExactly` | pkg/kube/nodescaler.go:399-438 | reading n nodes succeeds exactly when its 2n + 1 calls do, and then yields the snapshot |
| `CallLaws.PairRefusalFits` | pkg/proxy/proxy.go:302-361 | a pair is refused for a reason that is true of it, or because one of the calls failed |
| `CrashLaws.CrashMeans` | pkg/proxy/proxy.go:141-233 | whatever calls fail, a request panics only if a pair that it judges trips its verdict on the initial state |
| `CrashLaws.CrashExactly` | pkg/proxy/proxy.go:141-233 | if no call fails, it panics exactly then |
| `CrashLaws.HealthyNeverCrashes` | pkg/proxy/proxy.go:141-233 | no request panics on a healthy cluster, whatever calls fail |
| `CrashLaws.RunKeepsHealthy` | pkg/proxy/proxy.go:141-265 | a request leaves a healthy cluster healthy |
| `IdleLaws.IdleClusterShrinks` | pkg/proxy/proxy.go:176-203 | if no call fails, a cluster of two or more idle workers is scaled down to any requested size, zero included |
| `Handler.MicroStepSimulates` | pkg/proxy/proxy.go:141-265 | each single-call step of a handler stays on the way to the result of its request |
| `Handler.MicroStepDescends` | pkg/proxy/proxy.go:141-265 | each step comes closer to the end |
| `Handler.MicroStepIsOneCall` | pkg/proxy/proxy.go:141-265 | a step makes at most one API call and only adds to the log |
| `Handler.FinishRunsRequest` | pkg/proxy/proxy.go:141-265 | the steps, taken one after the other, are the request |
| `Server.ValidationAdmitsExactly` | pkg/cloudpool/types.go:48-80 | a message is admitted exactly when it states a non-negative size or a machine ID, and then as that request |
| `Server.StepKeepsInvariant` | pkg/proxy/server.go:75-146 | every step of every handler keeps mutual exclusion, serial execution, and that each process minds its message and each answer comes from its own turn |
| `Server.MutualExclusion` | pkg/proxy/server.go:98-137 | the lock is held exactly while a handler is inside, never by two |
| `Server.EveryRunIsSerial` | pkg/proxy/server.go:92-137 | for every interleaving, with arbitrary changes by others between the sections, the global log is a concatenation of whole logs of single valid requests, each from the state in which it got the lock, and a first part of the current one |
| `Server.EveryAnswerIsTrue` | pkg/proxy/server.go:75-146 | in every run, every answer is the outcome of one whole run of the request that the client's message states, from the state in which it got the lock; 200 is sent exactly if that run succeeded |
| `Server.OneTurnEach` | pkg/proxy/server.go:98-137 | different clients are answered from different turns |
| `Server.TurnedAwayRightly` | pkg/proxy/server.go:77-96 | a client is turned away only for a message that states no valid request, and only valid ones reach the proxy |
| `Server.ArrivalsStay` | pkg/proxy/server.go:75-146 | messages stay what they were |
| `Server.StateIsSequential` | pkg/proxy/server.go:98-137 | whenever the lock is free, cluster and pool are as if requests and changes by others had taken place one at a time |
| `Server.SectionsAreAccountable` | pkg/proxy/server.go:98-137 | what holds of a single request holds of each request in a concurrent run |
| `Server.HolderCanMove` | pkg/proxy/server.go:98-137 | the holder of the lock has a next step exactly when it has not panicked |
| `Server.PanicWedgesServer` | pkg/proxy/server.go:98-137 | after a panic inside the lock no request is ever carried out again |
| `Server.WedgedMeansCrash` | pkg/proxy/server.go:98-137 | a wedged server has come to a state on which a valid request crashes |
| `Server.CrashWedgesServer` | pkg/proxy/server.go:98-137 | every valid request that crashes on its own has a run that ends with a wedged server |
| `Server.HealthyNeverWedged` | pkg/proxy/server.go:98-137 | if the cluster is healthy at the start and others keep it so, no state of any run is wedged |
| `Examples.PanicHappens` | pkg/kube/nodescaler.go:543-550 | two workers, one with a pod whose controller flag is unset: a request to terminate its machine panics |
| `Examples.CapacityPanicHappens` | pkg/kube/quasi_scheduler.go:237-241 | two workers, one with a small pod, the other without allocatable amounts: a request to terminate the first one's machine panics |
| `Examples.WedgeHappens` | pkg/proxy/server.go:135-137 | a run that ends with a wedged server |
| `Examples.TaintHappens` | pkg/proxy/proxy.go:250-256 | two idle workers: if just the deletion fails, the node stays with the drain taint |
| `Examples.OrphanHappens` | pkg/proxy/proxy.go:257-264 | two idle workers: if just the termination fails, the machine runs on without its node |
| `Examples.RollbackLosesTaint` | pkg/kube/nodescaler.go:301-307 | a node that was tainted before loses the taint when an eviction fails |
| `Examples.JointlyTooMuch` | pkg/proxy/proxy.go:180-203 | two workers with one pod each and a budget that allows one disruption: both are accepted, both pods evicted, no worker is left |

## Left out

- HTTP routing, reading and decoding of bodies, response bodies, request forwarding and TLS; a message that cannot be read or decoded is turned away, and of a response only its status code is kept.
- Configuration, logging and the texts of errors; kinds of errors are kept.
- The code of libraries: tolerations, label requirements, selectors, quantity rounding and sorting are arbitrary functions. `labels.SelectorFromSet` is taken to be an exact match of all listed labels.
- `sort.Slice` works in place on a slice of pointers; the model takes the sorted list of pairs as a value.
- Floating point rounding of loads.
- The int32 width of the budget counter: the counter is unbounded, so fewer than 2^31 pods on a node are assumed.
- The time stamp of the drain taint.
- Changes to the cluster by others while a request holds the lock, other than pods recreated after their eviction, and requests that bypass the lock. Between locked sections others may change anything.
- Replacement machines that the pool may launch, and the time a machine takes to stop: a termination takes effect at once.
- Joint feasibility of several victims: the verdicts are on one snapshot, each victim for itself, and so is the promise of a place for its pods.
- Completeness of the greedy placement: it may miss placements that exist.
- A call that fails is taken to have had no effect.
