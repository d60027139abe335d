/** The quasi scheduler as functions on node values: filter, pick the least loaded candidate,
    append the pod to it. `SchedulerImpl.dfy` holds the in-place version. */
module Scheduling {
  import opened Kube
  import opened Resources
  import opened Constraints

  // ---- Node load ----

  /** A floating point load without rounding, but with the values that division by zero yields. */
  datatype Load = Num(value: real) | PosInf | NegInf | NaN

  /** The largest finite double, the start value of the running minimum. */
  const MAX_FLOAT64: real := 179769313486231570814527423731704356798070567525844996598917476803157260780028538760589558632766878171540458953514382464234321326889464182768467546703537516986049910576551282076245490090389328944075868508455133942304583236903222948165808559332123348274797826204144723168738177180919299881250404026184124858368.0

  function Quotient(a: int, b: int): Load {
    if b != 0 then Num(a as real / b as real)
    else if a > 0 then PosInf
    else if a < 0 then NegInf
    else NaN
  }

  function Plus(a: Load, b: Load): Load {
    match (a, b)
    case (Num(x), Num(y)) => Num(x + y)
    case (NaN, _) => NaN
    case (_, NaN) => NaN
    case (Num(_), _) => b
    case (_, Num(_)) => a
    case (PosInf, PosInf) => PosInf
    case (NegInf, NegInf) => NegInf
    case _ => NaN
  }

  predicate Less(a: Load, b: Load) {
    match (a, b)
    case (Num(x), Num(y)) => x < y
    case (NegInf, Num(_)) => true
    case (NegInf, PosInf) => true
    case (Num(_), PosInf) => true
    case _ => false
  }

  /** The sum of the allocated CPU and memory fractions. */
  function NodeLoad(lib: Library, node: NodeView): Load {
    var cpu := lib.milli(Allocatable(node.meta, CPU));
    var mem := lib.whole(Allocatable(node.meta, Memory));
    Plus(Quotient(cpu - lib.milli(Free(node, CPU)), cpu), Quotient(mem - lib.whole(Free(node, Memory)), mem))
  }

  // ---- One scheduling decision ----

  /** What a scheduler is configured with: the destination check, whose failure is the reason for a
      rejection, and the load function. */
  datatype Policy = Policy(check: (Pod, NodeView) -> Option<Mismatch>, load: NodeView -> Load)

  /** The four node predicates and the default load function. */
  function Standard(lib: Library): Policy {
    Policy((pod, node) => Check(lib, pod, node), node => NodeLoad(lib, node))
  }

  /** The nodes that pass every predicate, by index. */
  function Candidates(policy: Policy, nodes: seq<NodeView>, pod: Pod): (c: seq<nat>)
    ensures forall j :: 0 <= j < |c| ==> c[j] < |nodes| && policy.check(pod, nodes[c[j]]).None?
    ensures forall j, k :: 0 <= j < k < |c| ==> c[j] < c[k]
    ensures forall i :: 0 <= i < |nodes| && policy.check(pod, nodes[i]).None? ==> i in c
  {
    if nodes == [] then []
    else
      var k := |nodes| - 1;
      Candidates(policy, nodes[..k], pod) + if policy.check(pod, nodes[k]).None? then [k] else []
  }

  /** The reason for each rejected node, by node name. */
  function Rejections(policy: Policy, nodes: seq<NodeView>, pod: Pod): map<string, Mismatch> {
    if nodes == [] then map[]
    else
      var k := |nodes| - 1;
      var mismatch := policy.check(pod, nodes[k]);
      var rest := Rejections(policy, nodes[..k], pod);
      if mismatch.Some? then rest[nodes[k].meta.name := mismatch.value] else rest
  }

  /** The running minimum over a list of loads, as an index; `None` is the nil result. */
  function ArgMin(loads: seq<Load>): (r: Option<nat>)
    ensures r.Some? ==> r.value < |loads|
  {
    if loads == [] then None
    else
      var k := |loads| - 1;
      var best := ArgMin(loads[..k]);
      var minLoad := if best.None? then Num(MAX_FLOAT64) else loads[best.value];
      if Less(loads[k], minLoad) then Some(k) else best
  }

  function Loads(policy: Policy, nodes: seq<NodeView>, cands: seq<nat>): (loads: seq<Load>)
    requires forall j :: 0 <= j < |cands| ==> cands[j] < |nodes|
    ensures |loads| == |cands|
    ensures forall j :: 0 <= j < |cands| ==> loads[j] == policy.load(nodes[cands[j]])
  {
    seq(|cands|, j requires 0 <= j < |cands| => policy.load(nodes[cands[j]]))
  }

  /** `NilDereference` stands for the run-time panic that follows a nil least loaded node. */
  datatype Outcome =
    | NoSchedulableNodes
    | Unplaceable(mismatches: map<string, Mismatch>)
    | Placed(node: nat)
    | NilDereference

  function Schedule(policy: Policy, nodes: seq<NodeView>, pod: Pod): (o: Outcome)
    ensures o.Placed? ==> o.node < |nodes| && policy.check(pod, nodes[o.node]).None?
  {
    if nodes == [] then NoSchedulableNodes
    else
      var cands := Candidates(policy, nodes, pod);
      if cands == [] then Unplaceable(Rejections(policy, nodes, pod))
      else
        var best := ArgMin(Loads(policy, nodes, cands));
        if best.None? then NilDereference else Placed(cands[best.value])
  }

  function Place(nodes: seq<NodeView>, i: nat, pod: Pod): seq<NodeView>
    requires i < |nodes|
  {
    nodes[i := nodes[i].(pods := nodes[i].pods + [pod])]
  }

  // ---- Scheduling a group of pods ----

  datatype SchedulingError =
    | NoNodes
    | ClusterCapacity(resource: Resource, wanted: Quantity, free: Quantity)
    | PodUnplaceable(pod: string, mismatches: map<string, Mismatch>)

  datatype Plan =
    | Planned(nodes: seq<NodeView>, placement: seq<nat>)
    | Infeasible(error: SchedulingError)
    | Crashed

  /** One pod after the other, until the first failure. */
  function ScheduleAll(policy: Policy, nodes: seq<NodeView>, pods: seq<Pod>): (plan: Plan)
    ensures plan.Planned? ==> |plan.nodes| == |nodes| && |plan.placement| == |pods|
  {
    if pods == [] then Planned(nodes, [])
    else
      var sofar := ScheduleAll(policy, nodes, pods[..|pods| - 1]);
      var pod := pods[|pods| - 1];
      if sofar.Planned? then Extend(sofar, pod, Schedule(policy, sofar.nodes, pod)) else sofar
  }

  /** A plan after the outcome of scheduling one more pod. */
  function Extend(plan: Plan, pod: Pod, o: Outcome): Plan
    requires plan.Planned? && (o.Placed? ==> o.node < |plan.nodes|)
  {
    match o
    case NoSchedulableNodes => Infeasible(NoNodes)
    case Unplaceable(m) => Infeasible(PodUnplaceable(pod.name, m))
    case NilDereference => Crashed
    case Placed(i) => Planned(Place(plan.nodes, i, pod), plan.placement + [i])
  }

  function TotalFree(nodes: seq<NodeView>, r: Resource): Quantity {
    if nodes == [] then 0 else TotalFree(nodes[..|nodes| - 1], r) + Free(nodes[|nodes| - 1], r)
  }

  /** The cheap aggregate check made before any pod is placed. */
  function Precheck(nodes: seq<NodeView>, pods: seq<Pod>): Option<SchedulingError> {
    if TotalRequest(pods, CPU) > TotalFree(nodes, CPU) then
      Some(ClusterCapacity(CPU, TotalRequest(pods, CPU), TotalFree(nodes, CPU)))
    else if TotalRequest(pods, Memory) > TotalFree(nodes, Memory) then
      Some(ClusterCapacity(Memory, TotalRequest(pods, Memory), TotalFree(nodes, Memory)))
    else None
  }

  function VerifyEvacuation(lib: Library, nodes: seq<NodeView>, pods: seq<Pod>): Plan {
    var shortage := Precheck(nodes, pods);
    if shortage.Some? then Infeasible(shortage.value) else ScheduleAll(Standard(lib), nodes, pods)
  }

  // ---- What a placement is, independently of how it was found ----

  /** The requests that the first |placement| pods put on node `i`. */
  function Assigned(pods: seq<Pod>, placement: seq<nat>, i: nat, r: Resource): Quantity
    requires |placement| == |pods|
  {
    if pods == [] then 0
    else
      var k := |pods| - 1;
      Assigned(pods[..k], placement[..k], i, r) + if placement[k] == i then PodRequest(pods[k], r) else 0
  }

  ghost predicate FitsTogether(nodes: seq<NodeView>, pods: seq<Pod>, placement: seq<nat>) {
    && |placement| == |pods|
    && (forall k :: 0 <= k < |pods| ==> placement[k] < |nodes|)
    && (forall i, r :: i in placement ==>
         TotalRequest(nodes[i].pods, r) + Assigned(pods, placement, i, r) <= Allocatable(nodes[i].meta, r))
  }

  /** Every receiving node has room for its old and its new pods, and admits each new one. */
  ghost predicate ValidPlacement(lib: Library, nodes: seq<NodeView>, pods: seq<Pod>, placement: seq<nat>) {
    && FitsTogether(nodes, pods, placement)
    && (forall k :: 0 <= k < |pods| ==> Admits(lib, pods[k], nodes[placement[k]].meta))
  }

  /** The nodes after every pod has been put where `placement` says. */
  function PlaceAll(nodes: seq<NodeView>, pods: seq<Pod>, placement: seq<nat>): (after: seq<NodeView>)
    requires |placement| == |pods|
    requires forall k :: 0 <= k < |pods| ==> placement[k] < |nodes|
    ensures |after| == |nodes|
    ensures forall i :: 0 <= i < |nodes| ==> after[i].meta == nodes[i].meta
    ensures forall i, r :: 0 <= i < |nodes| ==>
              TotalRequest(after[i].pods, r) == TotalRequest(nodes[i].pods, r) + Assigned(pods, placement, i, r)
  {
    if pods == [] then nodes
    else
      var k := |pods| - 1;
      var before := PlaceAll(nodes, pods[..k], placement[..k]);
      assert forall r :: TotalRequest(before[placement[k]].pods + [pods[k]], r)
                         == TotalRequest(before[placement[k]].pods, r) + PodRequest(pods[k], r) by {
        forall r {
          TotalRequestSnoc(before[placement[k]].pods, pods[k], r);
        }
      }
      Place(before, placement[k], pods[k])
  }
}
