/** Loops that stop at the first failure: what they did before it is all they do, and one more
    iteration extends them by one step. */
module PrefixLaws {
  import opened Kube
  import opened Cluster
  import opened NodeScaler
  import opened Proxy

  lemma EvictAllSnoc(env: Env, w: World, host: string, pods: seq<Pod>, k: nat)
    requires k < |pods| && EvictAll(env, w, host, pods[..k]).r
    ensures EvictAll(env, w, host, pods[..k + 1]) == EvictPod(env, EvictAll(env, w, host, pods[..k]).w, host, pods[k])
  {
    assert pods[..k + 1][..k] == pods[..k];
  }

  lemma {:induction false} EvictAllStops(env: Env, w: World, host: string, pods: seq<Pod>, k: nat)
    requires k <= |pods| && !EvictAll(env, w, host, pods[..k]).r
    ensures EvictAll(env, w, host, pods) == EvictAll(env, w, host, pods[..k])
    decreases |pods|
  {
    if k == |pods| {
      assert pods[..k] == pods;
    } else {
      assert pods[..|pods| - 1][..k] == pods[..k];
      EvictAllStops(env, w, host, pods[..|pods| - 1], k);
    }
  }

  lemma CollectSnoc(env: Env, w: World, nodes: seq<Node>, k: nat)
    requires k < |nodes| && CollectInfos(env, w, nodes[..k]).r.Some?
    ensures var sofar := CollectInfos(env, w, nodes[..k]);
            var next := GetNodeInfo(env, sofar.w, nodes[k].name);
            CollectInfos(env, w, nodes[..k + 1])
            == Reply(next.w, if next.r.None? then None else Some(sofar.r.value + [next.r.value]))
  {
    hide GetNodeInfo;
    assert nodes[..k + 1][..k] == nodes[..k];
  }

  lemma {:induction false} CollectStops(env: Env, w: World, nodes: seq<Node>, k: nat)
    requires k <= |nodes| && CollectInfos(env, w, nodes[..k]).r.None?
    ensures CollectInfos(env, w, nodes) == CollectInfos(env, w, nodes[..k])
    decreases |nodes|
  {
    hide GetNodeInfo;
    if k == |nodes| {
      assert nodes[..k] == nodes;
    } else {
      assert nodes[..|nodes| - 1][..k] == nodes[..k];
      CollectStops(env, w, nodes[..|nodes| - 1], k);
    }
  }

  lemma PartitionSnoc(env: Env, w: World, pairs: seq<Pair>, k: nat)
    requires k < |pairs| && Partition(env, w, pairs[..k]).r.Some?
    ensures var sofar := Partition(env, w, pairs[..k]);
            var next := JudgePair(env, sofar.w, pairs[k]);
            Partition(env, w, pairs[..k + 1]) == Reply(next.w, AddVerdict(sofar.r.value, pairs[k], next.r))
  {
    hide JudgePair;
    assert pairs[..k + 1][..k] == pairs[..k];
  }

  lemma {:induction false} PartitionStops(env: Env, w: World, pairs: seq<Pair>, k: nat)
    requires k <= |pairs| && Partition(env, w, pairs[..k]).r.None?
    ensures Partition(env, w, pairs) == Partition(env, w, pairs[..k])
    decreases |pairs|
  {
    hide JudgePair;
    if k == |pairs| {
      assert pairs[..k] == pairs;
    } else {
      assert pairs[..|pairs| - 1][..k] == pairs[..k];
      PartitionStops(env, w, pairs[..|pairs| - 1], k);
    }
  }

  lemma RemoveAllSnoc(env: Env, w: World, victims: seq<Pair>, k: nat)
    requires k < |victims| && RemoveAll(env, w, victims[..k]).r
    ensures RemoveAll(env, w, victims[..k + 1])
            == EvictAndTerminate(env, RemoveAll(env, w, victims[..k]).w, victims[k], true)
  {
    hide EvictAndTerminate;
    assert victims[..k + 1][..k] == victims[..k];
  }

  lemma {:induction false} RemoveAllStops(env: Env, w: World, victims: seq<Pair>, k: nat)
    requires k <= |victims| && !RemoveAll(env, w, victims[..k]).r
    ensures RemoveAll(env, w, victims) == RemoveAll(env, w, victims[..k])
    decreases |victims|
  {
    hide EvictAndTerminate;
    if k == |victims| {
      assert victims[..k] == victims;
    } else {
      assert victims[..|victims| - 1][..k] == victims[..k];
      RemoveAllStops(env, w, victims[..|victims| - 1], k);
    }
  }
}
