/** The API clients as objects: one connection to the cluster and the pool, whose world every call
    moves on. */
module ClientImpl {
  import opened Kube
  import opened Cluster

  class Client {
    const env: Env
    var w: World

    constructor (env: Env, w: World)
      ensures this.env == env && this.w == w
    {
      this.env := env;
      this.w := w;
    }

    method ListNodes() returns (nodes: Option<seq<Node>>)
      modifies this
      ensures Reply(w, nodes) == Read(env, old(w), old(w).state.nodes)
    {
      nodes := if env.fails(w.calls) then None else Some(w.state.nodes);
      w := Tick(w);
    }

    method GetNode(name: string) returns (node: Option<Node>)
      modifies this
      ensures Reply(w, node) == Cluster.GetNode(env, old(w), name)
    {
      node := if env.fails(w.calls) then None else FindNode(w.state.nodes, name);
      w := Tick(w);
    }

    method ListPods(nodeName: string) returns (pods: Option<seq<Pod>>)
      modifies this
      ensures Reply(w, pods) == Read(env, old(w), PodsOn(old(w).state, nodeName))
    {
      pods := if env.fails(w.calls) then None else Some(PodsOn(w.state, nodeName));
      w := Tick(w);
    }

    method PodDisruptionBudgets() returns (budgets: Option<seq<Budget>>)
      modifies this
      ensures Reply(w, budgets) == Read(env, old(w), old(w).state.budgets)
    {
      budgets := if env.fails(w.calls) then None else Some(w.state.budgets);
      w := Tick(w);
    }

    method GetMachinePool() returns (machines: Option<seq<Machine>>)
      modifies this
      ensures Reply(w, machines) == Read(env, old(w), old(w).state.machines)
    {
      machines := if env.fails(w.calls) then None else Some(w.state.machines);
      w := Tick(w);
    }

    method GetMachine(id: string) returns (machine: Option<Machine>)
      modifies this
      ensures Reply(w, machine) == Cluster.GetMachine(env, old(w), id)
    {
      machine := if env.fails(w.calls) then None else FindMachine(w.state.machines, id);
      w := Tick(w);
    }

    /** Carries out a change and puts it on the log, whether it worked or not. */
    method Commit(e: Event)
      modifies this
      ensures w == Emit(Tick(old(w)), e)
    {
      w := Emit(Tick(w), e);
    }

    /** Puts a mark on the log. */
    method Note(e: Event)
      modifies this
      ensures w == Emit(old(w), e)
    {
      w := Emit(w, e);
    }

    method UpdateNode(node: Node) returns (ok: bool)
      modifies this
      ensures Reply(w, ok) == Cluster.UpdateNode(env, old(w), node)
    {
      ok := !env.fails(w.calls) && FindNode(w.state.nodes, node.name).Some?;
      Commit(NodeUpdated(node, ok));
    }

    method DeleteNode(name: string) returns (ok: bool)
      modifies this
      ensures Reply(w, ok) == Cluster.DeleteNode(env, old(w), name)
    {
      ok := !env.fails(w.calls) && FindNode(w.state.nodes, name).Some?;
      Commit(NodeDeleted(name, ok));
    }

    method EvictPod(host: string, pod: Pod) returns (ok: bool)
      modifies this
      ensures Reply(w, ok) == Cluster.EvictPod(env, old(w), host, pod)
    {
      ok := !env.fails(w.calls) && exists p :: p in w.state.pods && SamePod(p, pod);
      var home := env.respawn(w.calls);
      var respawn := if home.None? then None else Some(pod.(nodeName := home.value.0, name := home.value.1));
      Commit(PodEvicted(host, pod, respawn, ok));
    }

    method TerminateMachine(id: string, decrement: bool) returns (ok: bool)
      modifies this
      ensures Reply(w, ok) == StopMachine(env, old(w), id, decrement)
    {
      ok := !env.fails(w.calls) && FindMachine(w.state.machines, id).Some?;
      Commit(MachineTerminated(id, decrement, ok));
    }

    method SetDesiredSize(size: int) returns (ok: bool)
      modifies this
      ensures Reply(w, ok) == ResizePool(env, old(w), size)
    {
      ok := !env.fails(w.calls);
      Commit(PoolResized(size, ok));
    }
  }
}
