/** The Kubernetes cluster and the cloudpool as the proxy meets them: a state, the calls that read
    and change it, and a log of everything that was attempted. Each call may fail. */
module Cluster {
  import opened Kube

  /** A worker node and the machine it runs on. */
  datatype Pair = Pair(node: NodeView, machine: Machine)

  /** What a verdict on a node was based on. */
  datatype Evidence = Evidence(remaining: seq<NodeView>, budgets: seq<Budget>)

  datatype State = State(
    nodes: seq<Node>,
    pods: seq<Pod>,
    budgets: seq<Budget>,
    machines: seq<Machine>,
    desiredSize: int)

  /** Attempted changes, with their success, and three marks that the proxy's own steps leave:
      a verdict, the start of a rollback and the end of a drain. */
  datatype Event =
    | NodeUpdated(node: Node, ok: bool)
    | PodEvicted(host: string, pod: Pod, respawn: Option<Pod>, ok: bool)
    | NodeDeleted(name: string, ok: bool)
    | MachineTerminated(id: string, decrement: bool, ok: bool)
    | PoolResized(size: int, ok: bool)
    | Judged(pair: Pair, evidence: Evidence)
    | RollingBack(name: string)
    | Drained(name: string, ok: bool)

  function ReplaceNode(nodes: seq<Node>, node: Node): (r: seq<Node>)
    ensures |r| == |nodes|
    ensures forall i :: 0 <= i < |nodes| ==> r[i] == if nodes[i].name == node.name then node else nodes[i]
  {
    seq(|nodes|, i requires 0 <= i < |nodes| => if nodes[i].name == node.name then node else nodes[i])
  }

  function WithoutNodes(nodes: seq<Node>, names: set<string>): seq<Node> {
    Filter(nodes, (n: Node) => n.name !in names)
  }

  predicate SamePod(p: Pod, q: Pod) {
    p.namespace == q.namespace && p.name == q.name
  }

  function WithoutPod(pods: seq<Pod>, pod: Pod): seq<Pod> {
    Filter(pods, (p: Pod) => !SamePod(p, pod))
  }

  function Stop(machines: seq<Machine>, ids: set<string>): (r: seq<Machine>)
    ensures |r| == |machines|
    ensures forall i :: 0 <= i < |machines| ==>
              r[i] == if machines[i].id in ids then machines[i].(state := Terminating) else machines[i]
  {
    seq(|machines|, i requires 0 <= i < |machines| =>
      if machines[i].id in ids then machines[i].(state := Terminating) else machines[i])
  }

  /** What an event does to the state; a failed call and a mark do nothing. */
  function Effect(s: State, e: Event): State {
    match e
    case NodeUpdated(node, true) => s.(nodes := ReplaceNode(s.nodes, node))
    case PodEvicted(_, pod, respawn, true) =>
      s.(pods := WithoutPod(s.pods, pod) + if respawn.Some? then [respawn.value] else [])
    case NodeDeleted(name, true) => s.(nodes := WithoutNodes(s.nodes, {name}))
    case MachineTerminated(id, decrement, true) =>
      s.(machines := Stop(s.machines, {id}), desiredSize := if decrement then s.desiredSize - 1 else s.desiredSize)
    case PoolResized(size, true) => s.(desiredSize := size)
    case _ => s
  }

  /** The state that a log leads to. */
  function Replay(s: State, log: seq<Event>): State {
    if log == [] then s else Effect(Replay(s, log[..|log| - 1]), log[|log| - 1])
  }

  /** `calls` counts the calls made so far. */
  datatype World = World(state: State, calls: nat, trace: seq<Event>)

  /** Everything outside the program's control: the library, which calls fail, where the controllers
      recreate an evicted pod and under which name, and how sort.Slice orders candidates. */
  datatype Env = Env(
    lib: Library,
    fails: nat -> bool,
    respawn: nat -> Option<(string, string)>,
    sort: seq<Pair> -> seq<Pair>)

  datatype Reply<+T> = Reply(w: World, r: T)

  function Tick(w: World): World {
    w.(calls := w.calls + 1)
  }

  function Emit(w: World, e: Event): World {
    World(Effect(w.state, e), w.calls, w.trace + [e])
  }

  // ---- Reads ----

  function FindNode(nodes: seq<Node>, name: string): (r: Option<Node>)
    ensures r.Some? ==> r.value in nodes && r.value.name == name
    ensures r.None? ==> forall n :: n in nodes ==> n.name != name
  {
    if nodes == [] then None
    else if nodes[0].name == name then Some(nodes[0])
    else FindNode(nodes[1..], name)
  }

  function FindMachine(machines: seq<Machine>, id: string): (r: Option<Machine>)
    ensures r.Some? ==> r.value in machines && r.value.id == id
    ensures r.None? ==> forall m :: m in machines ==> m.id != id
  {
    if machines == [] then None
    else if machines[0].id == id then Some(machines[0])
    else FindMachine(machines[1..], id)
  }

  function PodsOn(s: State, name: string): seq<Pod> {
    Filter(s.pods, (p: Pod) => p.nodeName == name)
  }

  /** A read that succeeds answers `value`. */
  function Read<T>(env: Env, w: World, value: T): Reply<Option<T>> {
    Reply(Tick(w), if env.fails(w.calls) then None else Some(value))
  }

  function GetNode(env: Env, w: World, name: string): Reply<Option<Node>> {
    Reply(Tick(w), if env.fails(w.calls) then None else FindNode(w.state.nodes, name))
  }

  function GetMachine(env: Env, w: World, id: string): Reply<Option<Machine>> {
    Reply(Tick(w), if env.fails(w.calls) then None else FindMachine(w.state.machines, id))
  }

  // ---- Changes ----

  function UpdateNode(env: Env, w: World, node: Node): Reply<bool> {
    var ok := !env.fails(w.calls) && FindNode(w.state.nodes, node.name).Some?;
    Reply(Emit(Tick(w), NodeUpdated(node, ok)), ok)
  }

  function DeleteNode(env: Env, w: World, name: string): Reply<bool> {
    var ok := !env.fails(w.calls) && FindNode(w.state.nodes, name).Some?;
    Reply(Emit(Tick(w), NodeDeleted(name, ok)), ok)
  }

  /** An eviction names the pod by namespace and name. */
  function EvictPod(env: Env, w: World, host: string, pod: Pod): Reply<bool> {
    var ok := !env.fails(w.calls) && exists p :: p in w.state.pods && SamePod(p, pod);
    var home := env.respawn(w.calls);
    var respawn := if home.None? then None else Some(pod.(nodeName := home.value.0, name := home.value.1));
    Reply(Emit(Tick(w), PodEvicted(host, pod, respawn, ok)), ok)
  }

  function StopMachine(env: Env, w: World, id: string, decrement: bool): Reply<bool> {
    var ok := !env.fails(w.calls) && FindMachine(w.state.machines, id).Some?;
    Reply(Emit(Tick(w), MachineTerminated(id, decrement, ok)), ok)
  }

  function ResizePool(env: Env, w: World, size: int): Reply<bool> {
    var ok := !env.fails(w.calls);
    Reply(Emit(Tick(w), PoolResized(size, ok)), ok)
  }

  // ---- Logs ----

  /** Nothing but the call counter moved. */
  predicate Quiet(w: World, w': World) {
    w'.state == w.state && w'.trace == w.trace
  }
}
