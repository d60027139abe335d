/** What a scale-down leaves behind, whether it completes or stops at a failing victim. */
module RemovalLaws {
  import opened Kube
  import opened Cluster
  import opened NodeScaler
  import opened DrainLaws
  import opened Proxy

  function Names(pairs: seq<Pair>): set<string> {
    set p | p in pairs :: p.node.meta.name
  }

  function Ids(pairs: seq<Pair>): set<string> {
    set p | p in pairs :: p.machine.id
  }

  /** All pods that draining these pairs may evict. */
  function PodsOf(pairs: seq<Pair>): seq<Pod> {
    if pairs == [] then [] else PodsOf(pairs[..|pairs| - 1]) + VictimPods(pairs[|pairs| - 1].node)
  }

  lemma WithoutSnoc(nodes: seq<Node>, node: Node, gone: set<string>)
    ensures node.name in gone ==> WithoutNodes(nodes + [node], gone) == WithoutNodes(nodes, gone)
    ensures node.name !in gone ==> WithoutNodes(nodes + [node], gone) == WithoutNodes(nodes, gone) + [node]
  {
    assert (nodes + [node])[..|nodes|] == nodes;
  }

  lemma {:induction false} WithoutNodesCompose(nodes: seq<Node>, a: set<string>, b: set<string>)
    ensures WithoutNodes(WithoutNodes(nodes, a), b) == WithoutNodes(nodes, a + b)
  {
    if nodes != [] {
      var k := |nodes| - 1;
      var front, node := nodes[..k], nodes[k];
      WithoutNodesCompose(front, a, b);
      assert nodes == front + [node];
      WithoutSnoc(front, node, a);
      WithoutSnoc(front, node, a + b);
      WithoutSnoc(WithoutNodes(front, a), node, b);
    }
  }

  lemma {:induction false} WithoutNobody(nodes: seq<Node>)
    ensures WithoutNodes(nodes, {}) == nodes
  {
    if nodes != [] {
      var k := |nodes| - 1;
      WithoutNobody(nodes[..k]);
      assert nodes == nodes[..k] + [nodes[k]];
    }
  }

  lemma StopCompose(machines: seq<Machine>, a: set<string>, b: set<string>)
    ensures Stop(Stop(machines, a), b) == Stop(machines, a + b)
  {
  }

  lemma {:induction false} FindWithout(nodes: seq<Node>, gone: set<string>, name: string)
    ensures FindNode(WithoutNodes(nodes, gone), name) == if name in gone then None else FindNode(nodes, name)
  {
    if nodes == [] {
      assert WithoutNodes([], gone) == [];
    } else {
      hide WithoutNodes;
      var k := |nodes| - 1;
      var front, node := nodes[..k], nodes[k];
      FindWithout(front, gone, name);
      assert nodes == front + [node];
      WithoutSnoc(front, node, gone);
      FindSnoc(front, node, name);
      FindSnoc(WithoutNodes(front, gone), node, name);
    }
  }

  lemma {:induction false} FindSnoc(nodes: seq<Node>, node: Node, name: string)
    ensures FindNode(nodes + [node], name) ==
            if FindNode(nodes, name).Some? then FindNode(nodes, name) else if node.name == name then Some(node) else None
  {
    if nodes != [] {
      FindSnoc(nodes[1..], node, name);
      assert (nodes + [node])[1..] == nodes[1..] + [node];
    }
  }

  // ---- One victim ----

  /** The state after a completed removal: the node is gone, its machine is stopped, every other node
      and machine is as before. */
  ghost predicate Removed(s: State, s': State, gone: set<string>, stopped: set<string>, size: int) {
    && s'.nodes == WithoutNodes(s.nodes, gone)
    && s'.machines == Stop(s.machines, stopped)
    && s'.budgets == s.budgets
    && s'.desiredSize == size
  }

  lemma RemovalFrame(env: Env, w: World, victim: Pair, decrement: bool)
    ensures var e := EvictAndTerminate(env, w, victim, decrement);
            && OthersStay(w.state, e.w.state, VictimPods(victim.node))
            && (e.r ==> Removed(w.state, e.w.state, {victim.node.meta.name}, {victim.machine.id},
                                if decrement then w.state.desiredSize - 1 else w.state.desiredSize))
            && (!e.r ==> OnlyNode(w.state, e.w.state, victim.node.meta.name))
  {
    hide DrainNode, WithoutNodes, VictimPods;
    var name := victim.node.meta.name;
    DrainFrame(env, w, victim.node);
    var drain := DrainNode(env, w, victim.node);
    WithoutNodesCompose(drain.w.state.nodes, {name}, {name});
    assert {name} + {name} == {name};
  }

  // ---- All victims ----

  lemma NamesSnoc(pairs: seq<Pair>, pair: Pair)
    ensures Names(pairs + [pair]) == Names(pairs) + {pair.node.meta.name}
    ensures Ids(pairs + [pair]) == Ids(pairs) + {pair.machine.id}
  {
    assert forall p :: p in pairs + [pair] <==> p in pairs || p == pair;
  }

  lemma NothingRemoved(s: State)
    ensures Removed(s, s, Names([]), Ids([]), s.desiredSize) && OthersStay(s, s, PodsOf([]))
  {
    assert Names([]) == {} && Ids([]) == {};
    WithoutNobody(s.nodes);
  }

  lemma RemovedThenRemoved(s: State, s1: State, s2: State, done: seq<Pair>, victim: Pair, size: int)
    requires Removed(s, s1, Names(done), Ids(done), size)
    requires Removed(s1, s2, {victim.node.meta.name}, {victim.machine.id}, s1.desiredSize - 1)
    ensures Removed(s, s2, Names(done + [victim]), Ids(done + [victim]), size - 1)
  {
    NamesSnoc(done, victim);
    WithoutNodesCompose(s.nodes, Names(done), {victim.node.meta.name});
    StopCompose(s.machines, Ids(done), {victim.machine.id});
  }

  /** How many victims are removed completely. */
  function Completed(env: Env, w: World, victims: seq<Pair>): (m: nat)
    ensures m <= |victims| && (RemoveAll(env, w, victims).r <==> m == |victims|)
  {
    if victims == [] then 0
    else
      var front := victims[..|victims| - 1];
      Completed(env, w, front) + if RemoveAll(env, w, victims).r then 1 else 0
  }

  /** The removals stop at the first victim that is not removed completely. */
  lemma {:induction false} StopsAt(env: Env, w: World, victims: seq<Pair>)
    ensures var m := Completed(env, w, victims); var before := RemoveAll(env, w, victims[..m]);
            && before.r
            && (m < |victims| ==> RemoveAll(env, w, victims) == EvictAndTerminate(env, before.w, victims[m], true))
  {
    hide EvictAndTerminate;
    if victims != [] {
      var k := |victims| - 1;
      StopsAt(env, w, victims[..k]);
      var m := Completed(env, w, victims[..k]);
      assert victims[..k][..m] == victims[..m];
      if RemoveAll(env, w, victims).r {
        assert victims[..k + 1] == victims;
      } else if m == k {
        assert victims[..m] == victims[..k];
      }
    }
  }

  lemma {:induction false} AllRemoved(env: Env, w: World, victims: seq<Pair>)
    requires RemoveAll(env, w, victims).r
    ensures var s' := RemoveAll(env, w, victims).w.state;
            && Removed(w.state, s', Names(victims), Ids(victims), w.state.desiredSize - |victims|)
            && OthersStay(w.state, s', PodsOf(victims))
  {
    hide EvictAndTerminate, VictimPods, Removed, OthersStay, Names, Ids;
    if victims == [] {
      NothingRemoved(w.state);
    } else {
      var k := |victims| - 1;
      AllRemoved(env, w, victims[..k]);
      var sofar := RemoveAll(env, w, victims[..k]);
      assert victims == victims[..k] + [victims[k]];
      RemovalFrame(env, sofar.w, victims[k], true);
      var r := EvictAndTerminate(env, sofar.w, victims[k], true);
      OthersStayThen(w.state, sofar.w.state, r.w.state, PodsOf(victims[..k]), VictimPods(victims[k].node));
      RemovedThenRemoved(w.state, sofar.w.state, r.w.state, victims[..k], victims[k], w.state.desiredSize - k);
    }
  }

  /** The state after the first `m` victims were removed; if there are more, the removal stopped at
      the next one, and touched no node but that one and no pods but those it is there to evict. */
  ghost predicate Aftermath(s: State, s': State, victims: seq<Pair>, m: nat) {
    && m <= |victims|
    && (m == |victims| ==> Removed(s, s', Names(victims), Ids(victims), s.desiredSize - m) && OthersStay(s, s', PodsOf(victims)))
    && (m < |victims| ==>
          && (exists s1 :: Removed(s, s1, Names(victims[..m]), Ids(victims[..m]), s.desiredSize - m)
                           && OnlyNode(s1, s', victims[m].node.meta.name))
          && OthersStay(s, s', PodsOf(victims[..m + 1])))
  }

  /** Removing a list of victims completes the first ones and, unless these are all, fails at the next:
      - the nodes and machines of the first ones are gone and stopped, and the pool is smaller by their
        number;
      - a failure may have touched the next node and evicted some of its pods, but every later victim and
        everything else is as before. */
  lemma RemovalStopsAtFailure(env: Env, w: World, victims: seq<Pair>)
    ensures Aftermath(w.state, RemoveAll(env, w, victims).w.state, victims, Completed(env, w, victims))
  {
    hide EvictAndTerminate, RemoveAll, Removed, OnlyNode, OthersStay, Names, Ids, VictimPods;
    var m := Completed(env, w, victims);
    StopsAt(env, w, victims);
    AllRemoved(env, w, victims[..m]);
    if m == |victims| {
      assert victims[..m] == victims;
    } else {
      var before := RemoveAll(env, w, victims[..m]);
      RemovalFrame(env, before.w, victims[m], true);
      OthersStayThen(w.state, before.w.state, RemoveAll(env, w, victims).w.state, PodsOf(victims[..m]), VictimPods(victims[m].node));
      assert victims[..m + 1][..m] == victims[..m];
    }
  }
}
