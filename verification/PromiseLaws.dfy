/** The program's predicates say on their own terms what the promises say on the fields. */
module PromiseLaws {
  import opened Kube
  import opened NodeScaler
  import opened Proxy
  import opened Promises

  lemma MastersAre(view: NodeView)
    ensures IsMaster(view) <==> exists p :: p in view.pods && ApiServerOn(p, view.meta.name)
  {
  }

  /** What a drain evicts is what has to leave. */
  lemma DepartingPods(node: NodeView)
    ensures VictimPods(node) == Departing(node)
  {
    FilterSame(node.pods, (p: Pod) => IsNonSystem(p) && IsActivePod(p), (p: Pod) => MustLeave(p));
  }

  lemma ReceiverIs(view: NodeView, victim: string)
    ensures !IsMaster(view) && view.meta.name != victim && IsReady(view) && IsSchedulable(view) <==> MayReceive(view, victim)
  {
  }

  /** Where the pods are supposed to go is where they may go. */
  lemma RemainingReceive(views: seq<NodeView>, victim: string)
    ensures Remaining(views, victim) == Receivers(views, victim)
  {
    hide IsMaster, IsReady, IsSchedulable, MayReceive;
    forall v ensures !IsMaster(v) && v.meta.name != victim && IsReady(v) && IsSchedulable(v) <==> MayReceive(v, victim) {
      ReceiverIs(v, victim);
    }
    FilterSame(views, (n: NodeView) => !IsMaster(n) && n.meta.name != victim && IsReady(n) && IsSchedulable(n),
               (v: NodeView) => MayReceive(v, victim));
  }

  lemma ProtectionIs(node: Node)
    ensures IsProtected(node) <==> OptedOut(node)
  {
  }

  lemma DrainKeyIs(taints: seq<Taint>)
    ensures HasDrainTaint(taints) <==> HasDrainKey(taints)
  {
  }

  lemma WithoutKeyIs(taints: seq<Taint>)
    ensures WithoutDrainTaint(taints) == Filter(taints, (t: Taint) => t.key != "node-about-to-be-drained")
  {
    FilterSame(taints, (t: Taint) => t.key != DRAIN_TAINT_KEY, (t: Taint) => t.key != "node-about-to-be-drained");
  }

  lemma ActiveMachinesAre(machines: seq<Machine>)
    ensures ActiveMachines(machines) == Filter(machines, (m: Machine) => ActiveMachine(m))
  {
    FilterSame(machines, (m: Machine) => IsActive(m), (m: Machine) => ActiveMachine(m));
  }
}
