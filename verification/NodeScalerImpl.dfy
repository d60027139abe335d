/** The node scaler as it runs: loops, early returns and deferred rollbacks over the client. */
module NodeScalerImpl {
  import opened Kube
  import opened Resources
  import opened Scheduling
  import opened SchedulerImpl
  import opened Cluster
  import opened ClientImpl
  import opened NodeScaler
  import opened PrefixLaws

  // ---- Filters ----

  /** The filter loop over node objects; it returns the objects themselves, not copies. */
  method FilterNodes(infos: seq<NodeInfo>, predicates: seq<NodeView -> bool>, ghost all: NodeView -> bool)
      returns (filtered: seq<NodeInfo>)
    requires forall x :: all(x) <==> forall p :: p in predicates ==> p(x)
    ensures Views(filtered) == Filter(Views(infos), all)
    ensures forall n :: n in filtered ==> n in infos
  {
    hide Filter;
    filtered := [];
    FilterNone(Views(infos)[..0], all);
    for i := 0 to |infos|
      invariant Views(filtered) == Filter(Views(infos)[..i], all)
      invariant forall n :: n in filtered ==> n in infos
    {
      var satisfied := SatisfiesAll(infos[i].View(), predicates);
      FilterSnoc(Views(infos)[..i], infos[i].View(), all);
      assert Views(infos)[..i + 1] == Views(infos)[..i] + [infos[i].View()];
      if satisfied {
        assert Views(filtered + [infos[i]]) == Views(filtered) + [infos[i].View()];
        filtered := filtered + [infos[i]];
      }
    }
    assert Views(infos)[..|infos|] == Views(infos);
  }

  method FilterWorkers(infos: seq<NodeInfo>) returns (workers: seq<NodeInfo>)
    ensures Views(workers) == Workers(Views(infos))
    ensures forall n :: n in workers ==> n in infos
  {
    hide IsMaster, Filter;
    workers := FilterNodes(infos, [(n: NodeView) => !IsMaster(n)], (n: NodeView) => !IsMaster(n));
  }

  method FilterRemaining(infos: seq<NodeInfo>, victim: string) returns (remaining: seq<NodeInfo>)
    ensures Views(remaining) == Remaining(Views(infos), victim)
  {
    hide IsMaster, IsReady, IsSchedulable, Filter;
    var predicates: seq<NodeView -> bool> := [
      (n: NodeView) => !IsMaster(n),
      (n: NodeView) => n.meta.name != victim,
      (n: NodeView) => IsReady(n),
      (n: NodeView) => IsSchedulable(n)];
    ghost var all := (n: NodeView) => !IsMaster(n) && n.meta.name != victim && IsReady(n) && IsSchedulable(n);
    forall n ensures all(n) <==> forall p :: p in predicates ==> p(n) {
      PassesFour(predicates, n);
    }
    remaining := FilterNodes(infos, predicates, all);
  }

  lemma PassesFour<T>(predicates: seq<T -> bool>, x: T)
    requires |predicates| == 4
    ensures (forall p :: p in predicates ==> p(x))
            <==> predicates[0](x) && predicates[1](x) && predicates[2](x) && predicates[3](x)
  {
    if forall p :: p in predicates ==> p(x) {
      assert forall i :: 0 <= i < 4 ==> predicates[i] in predicates;
    }
  }

  method FilterVictimPods(node: NodeView) returns (pods: seq<Pod>)
    ensures pods == VictimPods(node)
  {
    hide IsNonSystem, IsActivePod, Filter;
    var predicates: seq<Pod -> bool> := [(p: Pod) => IsNonSystem(p), (p: Pod) => IsActivePod(p)];
    ghost var all := (p: Pod) => IsNonSystem(p) && IsActivePod(p);
    forall pod ensures all(pod) <==> forall p :: p in predicates ==> p(pod) {
      if forall p :: p in predicates ==> p(pod) {
        assert predicates[0] in predicates && predicates[1] in predicates;
      }
    }
    pods := FilterAll(node.pods, predicates, all);
  }

  // ---- Checks on the pods to evacuate ----

  /** Looks for a controller among the owner references; `None` is the nil dereference. */
  method HasControllerRef(pod: Pod) returns (found: Option<bool>)
    ensures found == ControllerIn(pod.owners)
  {
    for i := 0 to |pod.owners|
      invariant ControllerIn(pod.owners) == ControllerIn(pod.owners[i..])
    {
      if pod.owners[i].None? {
        return None;
      }
      if pod.owners[i].value {
        return Some(true);
      }
    }
    return Some(false);
  }

  method CheckMovable(pods: seq<Pod>) returns (obstacle: Option<Verdict>)
    ensures obstacle == MoveObstacle(pods)
  {
    for i := 0 to |pods|
      invariant MoveObstacle(pods) == MoveObstacle(pods[i..])
    {
      if HasLocalStorage(pods[i]) {
        return Some(Refused(LocalStorage(pods[i].name)));
      }
      var controller := HasControllerRef(pods[i]);
      if controller.None? {
        return Some(Panic);
      }
      if !controller.value {
        return Some(Refused(NoController(pods[i].name)));
      }
    }
    return None;
  }

  /** Counts the matching pods of each budget in turn. */
  method PodDisruptionBudgetsAllowEvacuation(lib: Library, budgets: seq<Budget>, pods: seq<Pod>)
      returns (obstacle: Option<Reason>)
    ensures obstacle == BudgetObstacle(lib, budgets, pods)
  {
    for i := 0 to |budgets|
      invariant BudgetObstacle(lib, budgets, pods) == BudgetObstacle(lib, budgets[i..], pods)
    {
      if !lib.selectorParses(budgets[i].selector) {
        return Some(BudgetUnparsable(budgets[i].name));
      }
      var matching: nat := 0;
      for j := 0 to |pods|
        invariant matching == CountCovered(lib, budgets[i], pods[..j])
      {
        assert pods[..j + 1][..j] == pods[..j];
        if lib.selectorMatches(budgets[i].selector, pods[j].labels) {
          matching := matching + 1;
        }
      }
      assert pods[..|pods|] == pods;
      if matching > budgets[i].allowed {
        return Some(BudgetViolated(budgets[i].name, matching, budgets[i].allowed));
      }
    }
    return None;
  }

  lemma WithoutDrainTaintSnoc(taints: seq<Taint>, i: nat)
    requires i < |taints|
    ensures taints[i].key != DRAIN_TAINT_KEY ==>
              WithoutDrainTaint(taints[..i + 1]) == WithoutDrainTaint(taints[..i]) + [taints[i]]
    ensures taints[i].key == DRAIN_TAINT_KEY ==> WithoutDrainTaint(taints[..i + 1]) == WithoutDrainTaint(taints[..i])
  {
    FilterSnoc(taints[..i], taints[i], (t: Taint) => t.key != DRAIN_TAINT_KEY);
    assert taints[..i + 1] == taints[..i] + [taints[i]];
  }

  lemma NoTaints()
    ensures WithoutDrainTaint([]) == []
  {
  }

  // ---- The scaler ----

  class DefaultNodeScaler {
    const client: Client

    constructor (client: Client)
      ensures this.client == client
    {
      this.client := client;
    }

    method GetNodeInfo(name: string) returns (info: Option<NodeInfo>)
      modifies client
      ensures info.Some? ==> fresh(info.value)
      ensures Reply(client.w, if info.None? then None else Some(info.value.View()))
              == NodeScaler.GetNodeInfo(client.env, old(client.w), name)
    {
      var node := client.GetNode(name);
      if node.None? {
        return None;
      }
      var pods := client.ListPods(node.value.name);
      if pods.None? {
        return None;
      }
      var nodeInfo := new NodeInfo(node.value, pods.value);
      return Some(nodeInfo);
    }

    method GetNodeInfos() returns (infos: Option<seq<NodeInfo>>)
      modifies client
      ensures infos.Some? ==> fresh(infos.value)
      ensures Reply(client.w, if infos.None? then None else Some(Views(infos.value)))
              == NodeScaler.GetNodeInfos(client.env, old(client.w))
    {
      hide NodeScaler.GetNodeInfo;
      var nodes := client.ListNodes();
      if nodes.None? {
        return None;
      }
      ghost var start := client.w;
      var collected: seq<NodeInfo> := [];
      for i := 0 to |nodes.value|
        invariant fresh(collected)
        invariant CollectInfos(client.env, start, nodes.value[..i]) == Reply(client.w, Some(Views(collected)))
      {
        CollectSnoc(client.env, start, nodes.value, i);
        var info := GetNodeInfo(nodes.value[i].name);
        if info.None? {
          CollectStops(client.env, start, nodes.value, i + 1);
          return None;
        }
        assert Views(collected + [info.value]) == Views(collected) + [info.value.View()];
        collected := collected + [info.value];
      }
      assert nodes.value[..|nodes.value|] == nodes.value;
      return Some(collected);
    }

    method ListWorkerNodes() returns (workers: Option<seq<NodeInfo>>)
      modifies client
      ensures workers.Some? ==> fresh(workers.value)
      ensures Reply(client.w, if workers.None? then None else Some(Views(workers.value)))
              == NodeScaler.ListWorkerNodes(client.env, old(client.w))
    {
      hide NodeScaler.GetNodeInfos, Workers;
      var infos := GetNodeInfos();
      if infos.None? {
        return None;
      }
      var nonMasters := FilterWorkers(infos.value);
      assert fresh(nonMasters) by {
        forall i | 0 <= i < |nonMasters| ensures fresh(nonMasters[i]) {
          assert nonMasters[i] in infos.value;
        }
      }
      return Some(nonMasters);
    }

    /** Judges a node without changing it, any other node object, or the cluster. */
    method IsScaleDownCandidate(node: NodeInfo) returns (verdict: Verdict)
      modifies client
      ensures Reply(client.w, verdict) == NodeScaler.IsScaleDownCandidate(client.env, old(client.w), node.View())
    {
      hide NodeScaler.GetNodeInfos, Remaining, MoveObstacle, VictimPods, BudgetObstacle, VerifyEvacuation;
      var view := node.View();
      if IsProtected(view.meta) {
        return Refused(Protected);
      }
      var infos := GetNodeInfos();
      if infos.None? {
        return Refused(CallFailed);
      }
      ghost var views := Views(infos.value);
      var remaining := FilterRemaining(infos.value, view.meta.name);
      if |remaining| == 0 {
        return Refused(NoEvacuationNodes);
      }
      var pods := FilterVictimPods(view);
      var obstacle := CheckMovable(pods);
      if obstacle.Some? {
        return obstacle.value;
      }
      var budgets := client.PodDisruptionBudgets();
      if budgets.None? {
        return Refused(CallFailed);
      }
      var violation := PodDisruptionBudgetsAllowEvacuation(client.env.lib, budgets.value, pods);
      if violation.Some? {
        return Refused(violation.value);
      }
      var plan := VerifyEvacuationFeasibility(client.env.lib, pods, remaining);
      match plan
      case Planned(_, _) => return Accepted(Evidence(Views(remaining), budgets.value));
      case Infeasible(error) => return Refused(EvacuationInfeasible(error));
      case Crashed => return Panic;
    }

    method MarkUnschedulable(name: string) returns (ok: bool)
      modifies client
      ensures Reply(client.w, ok) == NodeScaler.MarkUnschedulable(client.env, old(client.w), name)
    {
      hide UpdateNode;
      var node := client.GetNode(name);
      if node.None? {
        return false;
      }
      var taints := node.value.taints;
      for i := 0 to |taints|
        invariant forall k :: 0 <= k < i ==> taints[k].key != DRAIN_TAINT_KEY
      {
        if taints[i].key == DRAIN_TAINT_KEY {
          assert taints[i] in taints;
          return true;
        }
      }
      ok := client.UpdateNode(node.value.(taints := taints + [DRAIN_TAINT]));
    }

    method MarkSchedulable(name: string) returns (ok: bool)
      modifies client
      ensures Reply(client.w, ok) == NodeScaler.MarkSchedulable(client.env, old(client.w), name)
    {
      hide UpdateNode, WithoutDrainTaint;
      var node := client.GetNode(name);
      if node.None? {
        return false;
      }
      var taints := node.value.taints;
      NoTaints();
      var taintsToKeep: seq<Taint> := [];
      for i := 0 to |taints|
        invariant client.w == Tick(old(client.w))
        invariant taintsToKeep == WithoutDrainTaint(taints[..i])
      {
        WithoutDrainTaintSnoc(taints, i);
        if taints[i].key != DRAIN_TAINT_KEY {
          taintsToKeep := taintsToKeep + [taints[i]];
        }
      }
      assert taints[..|taints|] == taints;
      ok := client.UpdateNode(node.value.(taints := taintsToKeep));
    }

    /** The deferred closures of a drain, last one first. Each looks at the eviction error of its own
        iteration; `failed[i]` says whether there was one. Only the last can have failed, so there is
        one rollback at most. */
    method RunDeferred(failed: seq<bool>, name: string)
      requires forall i :: 0 <= i < |failed| - 1 ==> !failed[i]
      modifies client
      ensures client.w == if failed != [] && failed[|failed| - 1] then RollBack(client.env, old(client.w), name)
                          else old(client.w)
    {
      hide NodeScaler.MarkSchedulable;
      var i := |failed|;
      while i > 0
        invariant 0 <= i <= |failed|
        invariant i == |failed| ==> client.w == old(client.w)
        invariant i < |failed| ==>
                    client.w == if failed[|failed| - 1] then RollBack(client.env, old(client.w), name) else old(client.w)
      {
        i := i - 1;
        if failed[i] {
          client.Note(RollingBack(name));
          var restored := MarkSchedulable(name);
        }
      }
    }

    /** Taints the node and evicts its pods one by one. Every iteration defers a closure, and all of
        them run when the method returns, at the end or at the first failed eviction. */
    method DrainNode(node: NodeView) returns (ok: bool)
      modifies client
      ensures Reply(client.w, ok) == NodeScaler.DrainNode(client.env, old(client.w), node)
    {
      hide NodeScaler.MarkUnschedulable, VictimPods, RollBack, EvictPod;
      var name := node.meta.name;
      ok := MarkUnschedulable(name);
      if !ok {
        client.Note(Drained(name, false));
        return;
      }
      ghost var marked := client.w;
      var pods := FilterVictimPods(node);
      var failed: seq<bool> := [];
      for i := 0 to |pods|
        invariant ok && |failed| == i && forall k :: 0 <= k < i ==> !failed[k]
        invariant EvictAll(client.env, marked, name, pods[..i]) == Reply(client.w, true)
      {
        EvictAllSnoc(client.env, marked, name, pods, i);
        ok := client.EvictPod(name, pods[i]);
        failed := failed + [!ok];
        if !ok {
          EvictAllStops(client.env, marked, name, pods, i + 1);
          break;
        }
      }
      assert pods[..|pods|] == pods;
      RunDeferred(failed, name);
      client.Note(Drained(name, ok));
    }
  }
}
