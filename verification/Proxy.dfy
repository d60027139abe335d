/** The proxy as functions on the world: pairing, partitioning, and removing victims one by one.
    `ProxyImpl.dfy` holds the loops. */
module Proxy {
  import opened Kube
  import opened Cluster
  import opened NodeScaler

  predicate IsAllocated(m: Machine) {
    m.state == Requested || m.state == MachinePending || m.state == MachineRunning
  }

  predicate IsActive(m: Machine) {
    IsAllocated(m) && m.active
  }

  function ActiveMachines(machines: seq<Machine>): seq<Machine> {
    Filter(machines, (m: Machine) => IsActive(m))
  }

  /** Each node with the first machine that carries its external ID; other nodes drop out. */
  function PairUp(nodes: seq<NodeView>, machines: seq<Machine>): (pairs: seq<Pair>) {
    if nodes == [] then []
    else
      var node := nodes[|nodes| - 1];
      var machine := FindMachine(machines, node.meta.externalID);
      PairUp(nodes[..|nodes| - 1], machines) + if machine.Some? then [Pair(node, machine.value)] else []
  }

  /** A pair's verdict; an acceptance is put on record together with its evidence. */
  function JudgePair(env: Env, w: World, pair: Pair): Reply<Verdict> {
    if !pair.machine.evictable then Reply(w, Refused(NotEvictable))
    else
      var Reply(w1, verdict) := IsScaleDownCandidate(env, w, pair.node);
      if verdict.Accepted? then Reply(Emit(w1, Judged(pair, verdict.evidence)), verdict) else Reply(w1, verdict)
  }

  datatype Rejection = Rejection(node: string, reason: Reason)

  datatype Split = Split(candidates: seq<Pair>, rejections: seq<Rejection>)

  function AddVerdict(split: Split, pair: Pair, verdict: Verdict): Option<Split> {
    match verdict
    case Accepted(_) => Some(split.(candidates := split.candidates + [pair]))
    case Refused(reason) => Some(split.(rejections := split.rejections + [Rejection(pair.node.meta.name, reason)]))
    case Panic => None
  }

  /** Judges the pairs in order; `None` means that a verdict panicked. */
  function Partition(env: Env, w: World, pairs: seq<Pair>): Reply<Option<Split>> {
    if pairs == [] then Reply(w, Some(Split([], [])))
    else
      var sofar := Partition(env, w, pairs[..|pairs| - 1]);
      if sofar.r.None? then sofar
      else
        var pair := pairs[|pairs| - 1];
        var Reply(w1, verdict) := JudgePair(env, sofar.w, pair);
        Reply(w1, AddVerdict(sofar.r.value, pair, verdict))
  }

  /** Drain, delete, terminate: each step only after the one before it succeeded. */
  function EvictAndTerminate(env: Env, w: World, victim: Pair, decrement: bool): Reply<bool> {
    var drain := DrainNode(env, w, victim.node);
    if !drain.r then drain
    else
      var delete := DeleteNode(env, drain.w, victim.node.meta.name);
      if !delete.r then delete
      else StopMachine(env, delete.w, victim.machine.id, decrement)
  }

  /** Removes the victims in order, until the first one that fails. */
  function RemoveAll(env: Env, w: World, victims: seq<Pair>): Reply<bool> {
    if victims == [] then Reply(w, true)
    else
      var sofar := RemoveAll(env, w, victims[..|victims| - 1]);
      if sofar.r then EvictAndTerminate(env, sofar.w, victims[|victims| - 1], true) else sofar
  }

  datatype Error =
    | KubernetesClientError
    | CloudPoolClientError
    | NodeNotFound
    | ScaleDownError
    | NoViableCandidate(rejections: seq<Rejection>)

  /** A request succeeds, fails with an error, or panics. */
  datatype Outcome = Done | Failed(error: Error) | Crash

  function Min(a: nat, b: nat): nat {
    if a <= b then a else b
  }

  function ScaleDown(env: Env, w: World, pairs: seq<Pair>, desired: int): Reply<Outcome>
    requires desired < |pairs|
  {
    var Reply(w1, split) := Partition(env, w, pairs);
    if split.None? then Reply(w1, Crash)
    else if split.value.candidates == [] then Reply(w1, Failed(NoViableCandidate(split.value.rejections)))
    else
      var Reply(w2, ok) := RemoveAll(env, w1, Victims(env, split.value.candidates, |pairs| - desired));
      Reply(w2, if ok then Done else Failed(ScaleDownError))
  }

  /** The least loaded candidates, as many as there are excess nodes if there are that many. */
  function Victims(env: Env, candidates: seq<Pair>, excess: nat): seq<Pair> {
    var sorted := env.sort(candidates);
    sorted[..Min(excess, |sorted|)]
  }

  function SetDesiredSize(env: Env, w: World, desired: int): Reply<Outcome> {
    var Reply(w1, nodes) := ListWorkerNodes(env, w);
    if nodes.None? then Reply(w1, Failed(KubernetesClientError))
    else
      var Reply(w2, machines) := Read(env, w1, w1.state.machines);
      if machines.None? then Reply(w2, Failed(CloudPoolClientError))
      else
        var pairs := PairUp(nodes.value, ActiveMachines(machines.value));
        if desired >= |pairs| then
          var Reply(w3, ok) := ResizePool(env, w2, desired);
          Reply(w3, if ok then Done else Failed(CloudPoolClientError))
        else ScaleDown(env, w2, pairs, desired)
  }

  function NodeWithExternalID(nodes: seq<NodeView>, id: string): (r: Option<NodeView>)
    ensures r.Some? ==> r.value in nodes && r.value.meta.externalID == id
    ensures r.None? ==> forall n :: n in nodes ==> n.meta.externalID != id
  {
    if nodes == [] then None
    else if nodes[0].meta.externalID == id then Some(nodes[0])
    else NodeWithExternalID(nodes[1..], id)
  }

  function TerminateMachine(env: Env, w: World, id: string, decrement: bool): Reply<Outcome> {
    var Reply(w1, nodes) := ListWorkerNodes(env, w);
    if nodes.None? then Reply(w1, Failed(KubernetesClientError))
    else
      var node := NodeWithExternalID(nodes.value, id);
      if node.None? then Reply(w1, Failed(NodeNotFound))
      else
        var Reply(w2, machine) := GetMachine(env, w1, id);
        if machine.None? then Reply(w2, Failed(CloudPoolClientError))
        else RemoveOne(env, w2, Pair(node.value, machine.value), decrement)
  }

  function RemoveOne(env: Env, w: World, victim: Pair, decrement: bool): Reply<Outcome> {
    var Reply(w1, verdict) := JudgePair(env, w, victim);
    match verdict
    case Panic => Reply(w1, Crash)
    case Refused(_) => Reply(w1, Failed(ScaleDownError))
    case Accepted(_) =>
      var Reply(w2, ok) := EvictAndTerminate(env, w1, victim, decrement);
      Reply(w2, if ok then Done else Failed(KubernetesClientError))
  }

  datatype Request = SetSize(desired: int) | Terminate(id: string, decrement: bool)

  function Run(env: Env, w: World, request: Request): Reply<Outcome> {
    match request
    case SetSize(desired) => SetDesiredSize(env, w, desired)
    case Terminate(id, decrement) => TerminateMachine(env, w, id, decrement)
  }
}
