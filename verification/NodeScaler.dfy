/** The node scaler as functions on the world: listing nodes, judging whether a node may go, and
    draining it. `NodeScalerImpl.dfy` holds the loops. */
module NodeScaler {
  import opened Kube
  import opened Scheduling
  import opened Cluster

  const KUBE_SYSTEM := "kube-system"
  const COMPONENT_LABEL := "component"
  const API_SERVER := "kube-apiserver"
  const NO_SCALE_DOWN := "cluster-autoscaler.kubernetes.io/scale-down-disabled"
  const DRAIN_TAINT_KEY := "node-about-to-be-drained"
  const DRAIN_TAINT := Taint(DRAIN_TAINT_KEY, "true", NoSchedule)

  // ---- Node and pod predicates ----

  predicate RunsApiServer(pod: Pod, host: string) {
    && pod.namespace == KUBE_SYSTEM
    && (|| (COMPONENT_LABEL in pod.labels && pod.labels[COMPONENT_LABEL] == API_SERVER)
        || pod.name == "kube-apiserver-" + host)
  }

  predicate IsMaster(node: NodeView) {
    exists p :: p in node.pods && RunsApiServer(p, node.meta.name)
  }

  predicate IsReady(node: NodeView) {
    Condition("Ready", "True") in node.meta.conditions
  }

  predicate IsSchedulable(node: NodeView) {
    !node.meta.unschedulable
  }

  predicate IsNonSystem(pod: Pod) {
    pod.namespace != KUBE_SYSTEM
  }

  predicate IsActivePod(pod: Pod) {
    pod.phase == Pending || pod.phase == Running
  }

  predicate HasLocalStorage(pod: Pod) {
    exists v :: v in pod.volumes && (v.hostPath || v.emptyDir)
  }

  /** Whether an owner reference marks a controller. The loop dereferences the controller flag of
      each reference it looks at; `None` is the nil dereference. */
  function ControllerIn(owners: seq<Option<bool>>): Option<bool> {
    if owners == [] then Some(false)
    else if owners[0].None? then None
    else if owners[0].value then Some(true)
    else ControllerIn(owners[1..])
  }

  predicate IsProtected(node: Node) {
    NO_SCALE_DOWN in node.annotations && node.annotations[NO_SCALE_DOWN] == "true"
  }

  function Workers(infos: seq<NodeView>): seq<NodeView> {
    Filter(infos, (n: NodeView) => !IsMaster(n))
  }

  /** The nodes that evacuated pods may go to. */
  function Remaining(infos: seq<NodeView>, victim: string): seq<NodeView> {
    Filter(infos, (n: NodeView) => !IsMaster(n) && n.meta.name != victim && IsReady(n) && IsSchedulable(n))
  }

  /** The active pods outside the kube-system namespace: what is judged, and what is evicted. */
  function VictimPods(node: NodeView): seq<Pod> {
    Filter(node.pods, (p: Pod) => IsNonSystem(p) && IsActivePod(p))
  }

  // ---- Reading the cluster ----

  function GetNodeInfo(env: Env, w: World, name: string): Reply<Option<NodeView>> {
    var Reply(w1, node) := GetNode(env, w, name);
    if node.None? then Reply(w1, None)
    else
      var Reply(w2, pods) := Read(env, w1, PodsOn(w1.state, node.value.name));
      Reply(w2, if pods.None? then None else Some(NodeView(node.value, pods.value)))
  }

  /** One node after the other, until the first failed call. */
  function CollectInfos(env: Env, w: World, nodes: seq<Node>): Reply<Option<seq<NodeView>>> {
    if nodes == [] then Reply(w, Some([]))
    else
      var sofar := CollectInfos(env, w, nodes[..|nodes| - 1]);
      if sofar.r.None? then sofar
      else
        var Reply(w1, info) := GetNodeInfo(env, sofar.w, nodes[|nodes| - 1].name);
        Reply(w1, if info.None? then None else Some(sofar.r.value + [info.value]))
  }

  function GetNodeInfos(env: Env, w: World): Reply<Option<seq<NodeView>>> {
    var Reply(w1, nodes) := Read(env, w, w.state.nodes);
    if nodes.None? then Reply(w1, None) else CollectInfos(env, w1, nodes.value)
  }

  function ListWorkerNodes(env: Env, w: World): Reply<Option<seq<NodeView>>> {
    var Reply(w1, infos) := GetNodeInfos(env, w);
    Reply(w1, if infos.None? then None else Some(Workers(infos.value)))
  }

  // ---- Judging a node ----

  datatype Reason =
    | NotEvictable
    | Protected
    | CallFailed
    | NoEvacuationNodes
    | LocalStorage(pod: string)
    | NoController(pod: string)
    | BudgetUnparsable(budget: string)
    | BudgetViolated(budget: string, required: int, allowed: int)
    | EvacuationInfeasible(error: SchedulingError)

  /** A verdict is an acceptance, a refusal with its reason, or a run-time panic. */
  datatype Verdict = Accepted(evidence: Evidence) | Refused(reason: Reason) | Panic

  /** The first pod that cannot be moved. */
  function MoveObstacle(pods: seq<Pod>): Option<Verdict> {
    if pods == [] then None
    else if HasLocalStorage(pods[0]) then Some(Refused(LocalStorage(pods[0].name)))
    else
      var controller := ControllerIn(pods[0].owners);
      if controller.None? then Some(Panic)
      else if !controller.value then Some(Refused(NoController(pods[0].name)))
      else MoveObstacle(pods[1..])
  }

  predicate Covers(lib: Library, budget: Budget, pod: Pod) {
    lib.selectorMatches(budget.selector, pod.labels)
  }

  /** How many of the pods a disruption budget covers. */
  function CountCovered(lib: Library, budget: Budget, pods: seq<Pod>): nat {
    if pods == [] then 0
    else CountCovered(lib, budget, pods[..|pods| - 1]) + if Covers(lib, budget, pods[|pods| - 1]) then 1 else 0
  }

  function BudgetObstacle(lib: Library, budgets: seq<Budget>, pods: seq<Pod>): Option<Reason> {
    if budgets == [] then None
    else if !lib.selectorParses(budgets[0].selector) then Some(BudgetUnparsable(budgets[0].name))
    else
      var required := CountCovered(lib, budgets[0], pods);
      if required > budgets[0].allowed then Some(BudgetViolated(budgets[0].name, required, budgets[0].allowed))
      else BudgetObstacle(lib, budgets[1..], pods)
  }

  /** The part of the verdict that needs no disruption budgets. */
  function EarlyVerdict(node: NodeView, infos: seq<NodeView>): Option<Verdict> {
    if Remaining(infos, node.meta.name) == [] then Some(Refused(NoEvacuationNodes))
    else MoveObstacle(VictimPods(node))
  }

  /** The part that follows: budgets first, then the simulated placement. */
  function LateVerdict(lib: Library, node: NodeView, infos: seq<NodeView>, budgets: seq<Budget>): Verdict {
    var remaining := Remaining(infos, node.meta.name);
    var obstacle := BudgetObstacle(lib, budgets, VictimPods(node));
    if obstacle.Some? then Refused(obstacle.value)
    else
      match VerifyEvacuation(lib, remaining, VictimPods(node))
      case Planned(_, _) => Accepted(Evidence(remaining, budgets))
      case Infeasible(error) => Refused(EvacuationInfeasible(error))
      case Crashed => Panic
  }

  function IsScaleDownCandidate(env: Env, w: World, node: NodeView): Reply<Verdict> {
    if IsProtected(node.meta) then Reply(w, Refused(Protected))
    else
      var Reply(w1, infos) := GetNodeInfos(env, w);
      if infos.None? then Reply(w1, Refused(CallFailed))
      else
        var early := EarlyVerdict(node, infos.value);
        if early.Some? then Reply(w1, early.value)
        else
          var Reply(w2, budgets) := Read(env, w1, w1.state.budgets);
          if budgets.None? then Reply(w2, Refused(CallFailed))
          else Reply(w2, LateVerdict(env.lib, node, infos.value, budgets.value))
  }

  // ---- Draining a node ----

  predicate HasDrainTaint(taints: seq<Taint>) {
    exists t :: t in taints && t.key == DRAIN_TAINT_KEY
  }

  function WithoutDrainTaint(taints: seq<Taint>): seq<Taint> {
    Filter(taints, (t: Taint) => t.key != DRAIN_TAINT_KEY)
  }

  function MarkUnschedulable(env: Env, w: World, name: string): Reply<bool> {
    var Reply(w1, node) := GetNode(env, w, name);
    if node.None? then Reply(w1, false)
    else if HasDrainTaint(node.value.taints) then Reply(w1, true)
    else UpdateNode(env, w1, node.value.(taints := node.value.taints + [DRAIN_TAINT]))
  }

  function MarkSchedulable(env: Env, w: World, name: string): Reply<bool> {
    var Reply(w1, node) := GetNode(env, w, name);
    if node.None? then Reply(w1, false)
    else UpdateNode(env, w1, node.value.(taints := WithoutDrainTaint(node.value.taints)))
  }

  /** Evicts the pods in order, until the first eviction that fails. */
  function EvictAll(env: Env, w: World, host: string, pods: seq<Pod>): Reply<bool> {
    if pods == [] then Reply(w, true)
    else
      var sofar := EvictAll(env, w, host, pods[..|pods| - 1]);
      if sofar.r then EvictPod(env, sofar.w, host, pods[|pods| - 1]) else sofar
  }

  function RollBack(env: Env, w: World, name: string): World {
    MarkSchedulable(env, Emit(w, RollingBack(name)), name).w
  }

  /** Taint, evict, and remove the taint again if an eviction failed. */
  function DrainNode(env: Env, w: World, node: NodeView): Reply<bool> {
    var name := node.meta.name;
    var mark := MarkUnschedulable(env, w, name);
    if !mark.r then Reply(Emit(mark.w, Drained(name, false)), false)
    else
      var evicted := EvictAll(env, mark.w, name, VictimPods(node));
      if evicted.r then Reply(Emit(evicted.w, Drained(name, true)), true)
      else Reply(Emit(RollBack(env, evicted.w, name), Drained(name, false)), false)
  }
}
