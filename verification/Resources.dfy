/** Resource accounting of a node: what its pods request and what is left of its allocatable
    amounts. */
module Resources {
  import opened Kube

  function ResourceName(r: Resource): string {
    match r
    case CPU => "cpu"
    case Memory => "memory"
  }

  /** A missing entry of a resource list reads as a zero quantity. */
  function Amount(list: map<string, Quantity>, r: Resource): Quantity {
    if ResourceName(r) in list then list[ResourceName(r)] else 0
  }

  function ContainerTotal(containers: seq<Container>, r: Resource): Quantity {
    if containers == [] then 0
    else ContainerTotal(containers[..|containers| - 1], r) + Amount(containers[|containers| - 1].requests, r)
  }

  function PodRequest(pod: Pod, r: Resource): Quantity {
    ContainerTotal(pod.containers, r)
  }

  function TotalRequest(pods: seq<Pod>, r: Resource): Quantity {
    if pods == [] then 0
    else TotalRequest(pods[..|pods| - 1], r) + PodRequest(pods[|pods| - 1], r)
  }

  function Allocatable(node: Node, r: Resource): Quantity {
    Amount(node.allocatable, r)
  }

  function Free(node: NodeView, r: Resource): Quantity {
    Allocatable(node.meta, r) - TotalRequest(node.pods, r)
  }

  ghost predicate NonNegativeRequests(pods: seq<Pod>) {
    forall p, r :: p in pods ==> 0 <= PodRequest(p, r)
  }

  // ---- What the sums are ----

  /** A container counts with exactly what it requests under the resource's own name, or not at all. */
  lemma OneContainer(c: Container)
    ensures ContainerTotal([c], CPU) == if "cpu" in c.requests then c.requests["cpu"] else 0
    ensures ContainerTotal([c], Memory) == if "memory" in c.requests then c.requests["memory"] else 0
  {
    assert [c][..0] == [];
  }

  /** Every container counts, and counts once. */
  lemma {:induction false} ContainersAddUp(a: seq<Container>, b: seq<Container>, r: Resource)
    ensures ContainerTotal(a + b, r) == ContainerTotal(a, r) + ContainerTotal(b, r)
  {
    if b == [] {
      assert a + b == a;
    } else {
      var k := |b| - 1;
      ContainersAddUp(a, b[..k], r);
      assert (a + b)[..|a + b| - 1] == a + b[..k];
    }
  }

  /** All containers of a list of pods. */
  function AllContainers(pods: seq<Pod>): seq<Container> {
    if pods == [] then [] else AllContainers(pods[..|pods| - 1]) + pods[|pods| - 1].containers
  }

  /** The request of a list of pods is that of all their containers together. */
  lemma {:induction false} RequestsAddUp(pods: seq<Pod>, r: Resource)
    ensures TotalRequest(pods, r) == ContainerTotal(AllContainers(pods), r)
  {
    if pods != [] {
      var k := |pods| - 1;
      RequestsAddUp(pods[..k], r);
      ContainersAddUp(AllContainers(pods[..k]), pods[k].containers, r);
    }
  }

  /** What is free on a node: what it reports as allocatable, less what all its containers request. */
  lemma FreeIsTheRest(node: NodeView)
    ensures Free(node, CPU) == (if "cpu" in node.meta.allocatable then node.meta.allocatable["cpu"] else 0)
                               - ContainerTotal(AllContainers(node.pods), CPU)
    ensures Free(node, Memory) == (if "memory" in node.meta.allocatable then node.meta.allocatable["memory"] else 0)
                                  - ContainerTotal(AllContainers(node.pods), Memory)
  {
    RequestsAddUp(node.pods, CPU);
    RequestsAddUp(node.pods, Memory);
  }

  lemma TotalRequestSnoc(pods: seq<Pod>, pod: Pod, r: Resource)
    ensures TotalRequest(pods + [pod], r) == TotalRequest(pods, r) + PodRequest(pod, r)
  {
    assert (pods + [pod])[..|pods + [pod]| - 1] == pods;
  }

  lemma {:induction false} TotalRequestNonNegative(pods: seq<Pod>, r: Resource)
    requires NonNegativeRequests(pods)
    ensures 0 <= TotalRequest(pods, r)
  {
    if pods != [] {
      TotalRequestNonNegative(pods[..|pods| - 1], r);
    }
  }

  /** The summation loop of podSize, for one resource. */
  method PodSize(pod: Pod, r: Resource) returns (requested: Quantity)
    ensures requested == PodRequest(pod, r)
  {
    requested := 0;
    for i := 0 to |pod.containers|
      invariant requested == ContainerTotal(pod.containers[..i], r)
    {
      requested := requested + Amount(pod.containers[i].requests, r);
      assert pod.containers[..i + 1][..i] == pod.containers[..i];
    }
    assert pod.containers[..|pod.containers|] == pod.containers;
  }

  /** The nested summation over pods and their containers: totalCPURequests and totalMemRequests,
      and the allocated totals of a node. The running total is one variable across both loops. */
  method SumRequests(pods: seq<Pod>, r: Resource) returns (total: Quantity)
    ensures total == TotalRequest(pods, r)
  {
    total := 0;
    for i := 0 to |pods|
      invariant total == TotalRequest(pods[..i], r)
    {
      var containers := pods[i].containers;
      for j := 0 to |containers|
        invariant total == TotalRequest(pods[..i], r) + ContainerTotal(containers[..j], r)
      {
        total := total + Amount(containers[j].requests, r);
        assert containers[..j + 1][..j] == containers[..j];
      }
      assert containers[..|containers|] == containers;
      assert pods[..i + 1][..i] == pods[..i];
    }
    assert pods[..|pods|] == pods;
  }

  /** A node whose pod list the quasi scheduler extends in place. */
  class NodeInfo {
    const meta: Node
    var pods: seq<Pod>

    constructor (meta: Node, pods: seq<Pod>)
      ensures this.meta == meta && this.pods == pods
    {
      this.meta := meta;
      this.pods := pods;
    }

    function View(): NodeView
      reads this
    {
      NodeView(meta, pods)
    }

    method FreeAmount(r: Resource) returns (free: Quantity)
      ensures free == Free(View(), r)
    {
      free := Amount(meta.allocatable, r);
      var taken := SumRequests(pods, r);
      free := free - taken;
    }
  }

  function Views(nodes: seq<NodeInfo>): (views: seq<NodeView>)
    reads nodes
    ensures |views| == |nodes|
    ensures forall i :: 0 <= i < |nodes| ==> views[i] == nodes[i].View()
  {
    seq(|nodes|, i requires 0 <= i < |nodes| reads nodes => nodes[i].View())
  }
}
