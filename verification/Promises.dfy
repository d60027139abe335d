/** What the owner of a cluster cares about, stated on the fields of the records and with their literal
    values. The program's own predicates do not occur here; the laws show that they agree. */
module Promises {
  import opened Kube
  import opened Constraints
  import opened Cluster

  // ---- Nodes and pods ----

  predicate ApiServerOn(pod: Pod, host: string) {
    && pod.namespace == "kube-system"
    && (|| ("component" in pod.labels && pod.labels["component"] == "kube-apiserver")
        || pod.name == "kube-apiserver-" + host)
  }

  predicate HostsApiServer(pods: seq<Pod>, name: string) {
    exists p :: p in pods && p.nodeName == name && ApiServerOn(p, name)
  }

  /** The owner of the node asks that it be kept. */
  predicate OptedOut(node: Node) {
    var key := "cluster-autoscaler.kubernetes.io/scale-down-disabled";
    key in node.annotations && node.annotations[key] == "true"
  }

  /** A pod that a drain has to move. */
  predicate MustLeave(pod: Pod) {
    pod.namespace != "kube-system" && (pod.phase == Pending || pod.phase == Running)
  }

  /** The pods that have to leave a node, in their order. */
  function Departing(node: NodeView): seq<Pod> {
    Filter(node.pods, (p: Pod) => MustLeave(p))
  }

  predicate KeepsData(pod: Pod) {
    exists v :: v in pod.volumes && (v.hostPath || v.emptyDir)
  }

  /** Going through the owner references, `x` is the first controller flag that is not false. */
  ghost predicate FirstFlag(owners: seq<Option<bool>>, x: Option<bool>) {
    exists j :: 0 <= j < |owners| && owners[j] == x && forall i :: 0 <= i < j ==> owners[i] == Some(false)
  }

  /** A pod that can be moved: it leaves no data behind, and has a controller that recreates it. */
  ghost predicate Portable(pod: Pod) {
    !KeepsData(pod) && FirstFlag(pod.owners, Some(true))
  }

  /** A node that pods of `victim` may go to: another worker, ready and schedulable. */
  predicate MayReceive(view: NodeView, victim: string) {
    && view.meta.name != victim
    && !view.meta.unschedulable
    && Condition("Ready", "True") in view.meta.conditions
    && forall p :: p in view.pods ==> !ApiServerOn(p, view.meta.name)
  }

  /** The nodes that may receive the pods of `victim`. */
  function Receivers(views: seq<NodeView>, victim: string): seq<NodeView> {
    Filter(views, (v: NodeView) => MayReceive(v, victim))
  }

  // ---- Machines ----

  predicate ActiveMachine(m: Machine) {
    (m.state == Requested || m.state == MachinePending || m.state == MachineRunning) && m.active
  }

  predicate RunsOnActive(machines: seq<Machine>, id: string) {
    exists m :: m in machines && ActiveMachine(m) && m.id == id
  }

  // ---- Disruption budgets ----

  /** Which of the pods a budget's selector matches, by index. */
  function Matching(lib: Library, budget: Budget, pods: seq<Pod>): set<int> {
    set i | 0 <= i < |pods| && lib.selectorMatches(budget.selector, pods[i].labels)
  }

  /** The budget's selector is well-formed, and it allows all the pods to be disrupted. */
  predicate Allows(lib: Library, budget: Budget, pods: seq<Pod>) {
    lib.selectorParses(budget.selector) && |Matching(lib, budget, pods)| <= budget.allowed
  }

  // ---- The drain taint ----

  function DrainTaint(): Taint {
    Taint("node-about-to-be-drained", "true", NoSchedule)
  }

  predicate HasDrainKey(taints: seq<Taint>) {
    exists t :: t in taints && t.key == "node-about-to-be-drained"
  }

  predicate Tainted(s: State, name: string) {
    var node := FindNode(s.nodes, name);
    node.Some? && HasDrainKey(node.value.taints)
  }

  /** No pod may be scheduled onto the node unless it tolerates the drain taint. */
  ghost predicate ShutsOut(lib: Library, node: Node) {
    forall pod: Pod :: (forall o :: o in pod.tolerations ==> !lib.tolerates(o, DrainTaint())) ==> !Admits(lib, pod, node)
  }

  ghost predicate Closed(lib: Library, s: State, name: string) {
    var node := FindNode(s.nodes, name);
    node.Some? && ShutsOut(lib, node.value)
  }

  /** The drain taint is put on a node that has none with its key, or all taints with its key are removed. */
  predicate TaintStep(before: seq<Taint>, after: seq<Taint>) {
    || (!HasDrainKey(before) && after == before + [DrainTaint()])
    || after == Filter(before, (t: Taint) => t.key != "node-about-to-be-drained")
  }
}
