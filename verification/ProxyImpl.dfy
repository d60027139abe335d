/** The proxy as it runs: pairs that point to nodes and machines, and the loops over them. */
module ProxyImpl {
  import opened Kube
  import opened Resources
  import opened Cluster
  import opened ClientImpl
  import opened NodeScaler
  import opened NodeScalerImpl
  import opened Proxy
  import opened PrefixLaws

  // ---- Pairing ----

  /** The memory cell of a loop variable, which lives on when its address was taken. */
  class MachineVar {
    var value: Machine

    constructor (value: Machine)
      ensures this.value == value
    {
      this.value := value;
    }
  }

  class NodeMachinePair {
    const node: NodeInfo
    const machine: MachineVar

    constructor (node: NodeInfo, machine: MachineVar)
      ensures this.node == node && this.machine == machine
    {
      this.node := node;
      this.machine := machine;
    }

    function View(): Pair
      reads node, machine
    {
      Pair(node.View(), machine.value)
    }
  }

  function PairViews(pairs: seq<NodeMachinePair>): (views: seq<Pair>)
    reads set p | p in pairs :: p.node
    reads set p | p in pairs :: p.machine
    ensures |views| == |pairs|
    ensures forall i :: 0 <= i < |pairs| ==> views[i] == pairs[i].View()
  {
    seq(|pairs|, i requires 0 <= i < |pairs|
                 reads set p | p in pairs :: p.node
                 reads set p | p in pairs :: p.machine => pairs[i].View())
  }

  lemma PairUpSnoc(nodes: seq<NodeView>, machines: seq<Machine>, i: nat)
    requires i < |nodes|
    ensures var found := FindMachine(machines, nodes[i].meta.externalID);
            && (found.Some? ==> PairUp(nodes[..i + 1], machines) == PairUp(nodes[..i], machines) + [Pair(nodes[i], found.value)])
            && (found.None? ==> PairUp(nodes[..i + 1], machines) == PairUp(nodes[..i], machines))
  {
    assert nodes[..i + 1][..i] == nodes[..i];
  }

  /** Looks for the machine of one node. The loop variable is one cell for the whole loop, and the
      pair takes its address; the loop ends there, so the cell keeps the machine that matched. */
  method PairNode(node: NodeInfo, machines: seq<Machine>) returns (pair: Option<NodeMachinePair>)
    ensures var found := FindMachine(machines, node.meta.externalID);
            && pair.Some? == found.Some?
            && (pair.Some? ==> pair.value.View() == Pair(node.View(), found.value)
                               && fresh(pair.value) && fresh(pair.value.machine) && pair.value.node == node)
  {
    if |machines| == 0 {
      return None;
    }
    var machine := new MachineVar(machines[0]);
    for j := 0 to |machines|
      invariant FindMachine(machines, node.meta.externalID) == FindMachine(machines[j..], node.meta.externalID)
    {
      machine.value := machines[j];
      if node.meta.externalID == machine.value.id {
        var found := new NodeMachinePair(node, machine);
        return Some(found);
      }
    }
    return None;
  }

  /** Every pair still shows the machine of its node after all loops have ended. */
  method PairNodesWithMachines(nodes: seq<NodeInfo>, machines: seq<Machine>) returns (pairs: seq<NodeMachinePair>)
    ensures PairViews(pairs) == PairUp(Views(nodes), machines)
    ensures forall p :: p in pairs ==> fresh(p) && fresh(p.machine) && p.node in nodes
  {
    pairs := [];
    for i := 0 to |nodes|
      invariant PairViews(pairs) == PairUp(Views(nodes)[..i], machines)
      invariant forall p :: p in pairs ==> fresh(p) && fresh(p.machine) && p.node in nodes
    {
      PairUpSnoc(Views(nodes), machines, i);
      var pair := PairNode(nodes[i], machines);
      if pair.Some? {
        assert PairViews(pairs + [pair.value]) == PairViews(pairs) + [pair.value.View()];
        pairs := pairs + [pair.value];
      }
    }
    assert Views(nodes)[..|nodes|] == Views(nodes);
  }

  // ---- The proxy ----

  class ProxyServer {
    const client: Client
    const scaler: DefaultNodeScaler

    ghost predicate Valid() {
      scaler.client == client
    }

    constructor (client: Client)
      ensures Valid() && this.client == client
    {
      this.client := client;
      scaler := new DefaultNodeScaler(client);
    }

    method IsScaleDownCandidate(pair: NodeMachinePair) returns (verdict: Verdict)
      requires Valid()
      modifies client
      ensures Reply(client.w, verdict) == JudgePair(client.env, old(client.w), pair.View())
    {
      hide NodeScaler.IsScaleDownCandidate;
      if !pair.machine.value.evictable {
        return Refused(NotEvictable);
      }
      verdict := scaler.IsScaleDownCandidate(pair.node);
      if verdict.Accepted? {
        client.Note(Judged(pair.View(), verdict.evidence));
      }
    }

    /** `ok` is false when a verdict panicked. */
    method PartitionScaleDownCandidates(pairs: seq<NodeMachinePair>)
        returns (candidates: seq<NodeMachinePair>, rejections: seq<Rejection>, ok: bool)
      requires Valid()
      modifies client
      ensures Reply(client.w, if ok then Some(Split(PairViews(candidates), rejections)) else None)
              == Partition(client.env, old(client.w), PairViews(pairs))
    {
      hide JudgePair;
      ghost var views := PairViews(pairs);
      candidates, rejections, ok := [], [], true;
      for i := 0 to |pairs|
        invariant ok && PairViews(pairs) == views
        invariant Partition(client.env, old(client.w), views[..i])
                  == Reply(client.w, Some(Split(PairViews(candidates), rejections)))
      {
        PartitionSnoc(client.env, old(client.w), views, i);
        var verdict := IsScaleDownCandidate(pairs[i]);
        match verdict
        case Accepted(_) =>
          assert PairViews(candidates + [pairs[i]]) == PairViews(candidates) + [pairs[i].View()];
          candidates := candidates + [pairs[i]];
        case Refused(reason) =>
          rejections := rejections + [Rejection(pairs[i].node.meta.name, reason)];
        case Panic =>
          PartitionStops(client.env, old(client.w), views, i + 1);
          ok := false;
          return;
      }
      assert views[..|pairs|] == views;
    }

    method EvictAndTerminate(victim: Pair, decrement: bool) returns (ok: bool)
      requires Valid()
      modifies client
      ensures Reply(client.w, ok) == Proxy.EvictAndTerminate(client.env, old(client.w), victim, decrement)
    {
      hide NodeScaler.DrainNode;
      ok := scaler.DrainNode(victim.node);
      if !ok {
        return;
      }
      ok := client.DeleteNode(victim.node.meta.name);
      if !ok {
        return;
      }
      ok := client.TerminateMachine(victim.machine.id, decrement);
    }

    /** The loop over the sorted candidates, up to the number of nodes to remove. */
    method RemoveVictims(sorted: seq<Pair>, nodesToRemove: nat) returns (ok: bool)
      requires Valid() && nodesToRemove <= |sorted|
      modifies client
      ensures Reply(client.w, ok) == RemoveAll(client.env, old(client.w), sorted[..nodesToRemove])
    {
      hide Proxy.EvictAndTerminate;
      ghost var victims := sorted[..nodesToRemove];
      for i := 0 to nodesToRemove
        invariant RemoveAll(client.env, old(client.w), victims[..i]) == Reply(client.w, true)
      {
        RemoveAllSnoc(client.env, old(client.w), victims, i);
        ok := EvictAndTerminate(sorted[i], true);
        if !ok {
          RemoveAllStops(client.env, old(client.w), victims, i + 1);
          return;
        }
      }
      assert victims[..nodesToRemove] == victims;
      return true;
    }

    method ListActiveMachines() returns (machines: Option<seq<Machine>>)
      modifies client
      ensures var r := Read(client.env, old(client.w), old(client.w).state.machines);
              client.w == r.w && machines == if r.r.None? then None else Some(ActiveMachines(r.r.value))
    {
      hide IsActive, Filter;
      var pool := client.GetMachinePool();
      if pool.None? {
        return None;
      }
      var active := FilterAll(pool.value, [(m: Machine) => IsActive(m)], (m: Machine) => IsActive(m));
      return Some(active);
    }

    method ScaleDown(pairs: seq<NodeMachinePair>, desired: int) returns (outcome: Outcome)
      requires Valid() && desired < |pairs|
      modifies client
      ensures Reply(client.w, outcome) == Proxy.ScaleDown(client.env, old(client.w), PairViews(pairs), desired)
    {
      hide Partition, RemoveAll;
      var excess := |pairs| - desired;
      var candidates, rejections, ok := PartitionScaleDownCandidates(pairs);
      if !ok {
        return Crash;
      }
      if |candidates| == 0 {
        return Failed(NoViableCandidate(rejections));
      }
      var sorted := client.env.sort(PairViews(candidates));
      var nodesToRemove := excess;
      if excess > |sorted| {
        nodesToRemove := |sorted|;
      }
      ok := RemoveVictims(sorted, nodesToRemove);
      return if ok then Done else Failed(ScaleDownError);
    }

    method SetDesiredSize(desired: int) returns (outcome: Outcome)
      requires Valid()
      modifies client
      ensures Reply(client.w, outcome) == Proxy.SetDesiredSize(client.env, old(client.w), desired)
    {
      hide NodeScaler.ListWorkerNodes, PairUp, ActiveMachines, Proxy.ScaleDown, ResizePool;
      var nodes := scaler.ListWorkerNodes();
      if nodes.None? {
        return Failed(KubernetesClientError);
      }
      var machines := ListActiveMachines();
      if machines.None? {
        return Failed(CloudPoolClientError);
      }
      var pairs := PairNodesWithMachines(nodes.value, machines.value);
      if desired >= |pairs| {
        var ok := client.SetDesiredSize(desired);
        return if ok then Done else Failed(CloudPoolClientError);
      }
      outcome := ScaleDown(pairs, desired);
    }

    /** The first worker node with the external ID. */
    method GetNodeWithExternalID(id: string) returns (node: Option<NodeInfo>, error: Error)
      requires Valid()
      modifies client
      ensures var r := NodeScaler.ListWorkerNodes(client.env, old(client.w));
              && client.w == r.w
              && (r.r.None? ==> node.None? && error == KubernetesClientError)
              && (r.r.Some? ==>
                    var found := NodeWithExternalID(r.r.value, id);
                    && node.Some? == found.Some?
                    && (node.Some? ==> node.value.View() == found.value)
                    && (node.None? ==> error == NodeNotFound))
    {
      hide NodeScaler.ListWorkerNodes;
      var nodes := scaler.ListWorkerNodes();
      if nodes.None? {
        return None, KubernetesClientError;
      }
      ghost var views := Views(nodes.value);
      for i := 0 to |nodes.value|
        invariant NodeWithExternalID(views, id) == NodeWithExternalID(views[i..], id)
      {
        if nodes.value[i].meta.externalID == id {
          return Some(nodes.value[i]), NodeNotFound;
        }
      }
      return None, NodeNotFound;
    }

    method TerminateMachine(id: string, decrement: bool) returns (outcome: Outcome)
      requires Valid()
      modifies client
      ensures Reply(client.w, outcome) == Proxy.TerminateMachine(client.env, old(client.w), id, decrement)
    {
      hide NodeScaler.ListWorkerNodes, NodeWithExternalID, JudgePair, Proxy.EvictAndTerminate;
      var node, error := GetNodeWithExternalID(id);
      if node.None? {
        return Failed(error);
      }
      var machine := client.GetMachine(id);
      if machine.None? {
        return Failed(CloudPoolClientError);
      }
      var cell := new MachineVar(machine.value);
      var victim := new NodeMachinePair(node.value, cell);
      ghost var view := victim.View();
      var verdict := IsScaleDownCandidate(victim);
      match verdict
      case Panic => return Crash;
      case Refused(_) => return Failed(ScaleDownError);
      case Accepted(_) =>
        var ok := EvictAndTerminate(victim.View(), decrement);
        return if ok then Done else Failed(KubernetesClientError);
    }

    /** The locked section of a handler. */
    method Handle(request: Request) returns (outcome: Outcome)
      requires Valid()
      modifies client
      ensures Reply(client.w, outcome) == Run(client.env, old(client.w), request)
    {
      hide Proxy.SetDesiredSize, Proxy.TerminateMachine;
      match request
      case SetSize(desired) => outcome := SetDesiredSize(desired);
      case Terminate(id, decrement) => outcome := TerminateMachine(id, decrement);
    }
  }
}
