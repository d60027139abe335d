/** What a drain does and does not do: its log, the taint during evictions, the rollback, and the
    part of the state it leaves alone. */
module DrainLaws {
  import opened Kube
  import opened Cluster
  import opened NodeScaler
  import opened Constraints
  import opened Promises
  import opened PromiseLaws

  // ---- The log of a drain ----

  /** The evictions attempted: a prefix of the pods, in order, of which only the last may fail. */
  ghost predicate EvictionLog(log: seq<Event>, host: string, pods: seq<Pod>, ok: bool) {
    && |log| <= |pods|
    && (ok ==> |log| == |pods|)
    && (!ok ==> log != [])
    && (forall i :: 0 <= i < |log| ==>
          && log[i].PodEvicted? && log[i].host == host && log[i].pod == pods[i]
          && (log[i].ok <==> ok || i < |log| - 1))
  }

  lemma EvictionLogSnoc(log: seq<Event>, host: string, pods: seq<Pod>, e: Event)
    requires pods != [] && EvictionLog(log, host, pods[..|pods| - 1], true)
    requires e.PodEvicted? && e.host == host && e.pod == pods[|pods| - 1]
    ensures EvictionLog(log + [e], host, pods, e.ok)
  {
  }

  lemma EvictionLogOfMore(log: seq<Event>, host: string, pods: seq<Pod>)
    requires pods != [] && EvictionLog(log, host, pods[..|pods| - 1], false)
    ensures EvictionLog(log, host, pods, false)
  {
  }

  lemma {:induction false} EvictAllLog(env: Env, w: World, host: string, pods: seq<Pod>) returns (log: seq<Event>)
    ensures var e := EvictAll(env, w, host, pods);
            e.w.trace == w.trace + log && EvictionLog(log, host, pods, e.r)
  {
    log := [];
    if pods != [] {
      hide EvictionLog, Effect;
      var k := |pods| - 1;
      log := EvictAllLog(env, w, host, pods[..k]);
      var sofar := EvictAll(env, w, host, pods[..k]);
      if sofar.r {
        var e := EvictPod(env, sofar.w, host, pods[k]).w.trace[|sofar.w.trace|];
        EvictionLogSnoc(log, host, pods, e);
        log := log + [e];
      } else {
        EvictionLogOfMore(log, host, pods);
      }
    }
  }

  ghost predicate UpdatesOnly(log: seq<Event>, name: string) {
    |log| <= 1 && forall e :: e in log ==> e.NodeUpdated? && e.node.name == name
  }

  lemma MarkLog(env: Env, w: World, name: string) returns (log: seq<Event>)
    ensures var m := MarkUnschedulable(env, w, name);
            m.w.trace == w.trace + log && UpdatesOnly(log, name)
  {
    log := MarkUnschedulable(env, w, name).w.trace[|w.trace|..];
  }

  lemma RollBackLog(env: Env, w: World, name: string) returns (log: seq<Event>)
    ensures RollBack(env, w, name).trace == w.trace + [RollingBack(name)] + log && UpdatesOnly(log, name)
  {
    log := RollBack(env, w, name).trace[|w.trace| + 1..];
  }

  /** A drain's log, part by part. Success: every active non-system pod was evicted once, in order,
      and nothing was rolled back. Failure at the k-th eviction: exactly the first k were attempted,
      and exactly one rollback followed. Failure before: no eviction and no rollback. */
  lemma DrainLog(env: Env, w: World, node: NodeView)
      returns (mark: seq<Event>, evictions: seq<Event>, undo: seq<Event>)
    ensures var d := DrainNode(env, w, node); var name := node.meta.name;
            && d.w.trace == w.trace + mark + evictions + undo + [Drained(name, d.r)]
            && UpdatesOnly(mark, name)
            && (evictions != [] || d.r ==> EvictionLog(evictions, name, VictimPods(node), d.r))
            && (d.r || evictions == [] ==> undo == [])
            && (!d.r && evictions != [] ==> undo != [] && undo[0] == RollingBack(name) && UpdatesOnly(undo[1..], name))
  {
    var name := node.meta.name;
    evictions, undo := [], [];
    mark := MarkLog(env, w, name);
    var marked := MarkUnschedulable(env, w, name);
    if marked.r {
      evictions := EvictAllLog(env, marked.w, name, VictimPods(node));
      var evicted := EvictAll(env, marked.w, name, VictimPods(node));
      if !evicted.r {
        var rest := RollBackLog(env, evicted.w, name);
        undo := [RollingBack(name)] + rest;
        assert undo[1..] == rest;
      }
    }
  }

  // ---- The taint ----

  lemma {:induction false} FindReplaced(nodes: seq<Node>, node: Node)
    ensures FindNode(ReplaceNode(nodes, node), node.name) ==
            if FindNode(nodes, node.name).Some? then Some(node) else None
  {
    if nodes != [] {
      FindReplaced(nodes[1..], node);
      assert ReplaceNode(nodes, node)[1..] == ReplaceNode(nodes[1..], node);
    }
  }

  lemma {:induction false} FindReplacedOther(nodes: seq<Node>, node: Node, name: string)
    requires name != node.name
    ensures FindNode(ReplaceNode(nodes, node), name) == FindNode(nodes, name)
  {
    if nodes != [] {
      FindReplacedOther(nodes[1..], node, name);
      assert ReplaceNode(nodes, node)[1..] == ReplaceNode(nodes[1..], node);
    }
  }

  /** After a successful marking the node carries a drain taint; if it had none before, it carries the
      NoSchedule one, and nothing else of it has changed. */
  lemma MarkTaints(env: Env, w: World, name: string)
    requires MarkUnschedulable(env, w, name).r
    ensures var before := FindNode(w.state.nodes, name); var s' := MarkUnschedulable(env, w, name).w.state;
            && before.Some? && Tainted(s', name)
            && (!Tainted(w.state, name) ==>
                  FindNode(s'.nodes, name) == Some(before.value.(taints := before.value.taints + [DrainTaint()])))
  {
    hide FindNode;
    var g := GetNode(env, w, name);
    DrainKeyIs(g.r.value.taints);
    if !HasDrainTaint(g.r.value.taints) {
      var node := g.r.value.(taints := g.r.value.taints + [DRAIN_TAINT]);
      FindReplaced(w.state.nodes, node);
      assert node.taints[|node.taints| - 1].key == DRAIN_TAINT_KEY;
    }
  }

  /** A node with the drain taint takes no pod that does not tolerate it. */
  lemma DrainTaintShutsOut(lib: Library, node: Node)
    requires DrainTaint() in node.taints
    ensures ShutsOut(lib, node)
  {
  }

  /** So the quasi scheduler rejects such a pod. */
  lemma ShutOutIsRejected(lib: Library, pod: Pod, view: NodeView)
    requires ShutsOut(lib, view.meta) && forall o :: o in pod.tolerations ==> !lib.tolerates(o, DrainTaint())
    ensures Check(lib, pod, view).Some?
  {
    CheckAccepts(lib, pod, view);
    PermitsExactly(lib, pod, view.meta);
  }

  /** Hence a node that is marked for its drain is closed to new pods. */
  lemma MarkCloses(env: Env, w: World, name: string)
    requires MarkUnschedulable(env, w, name).r && !Tainted(w.state, name)
    ensures Closed(env.lib, MarkUnschedulable(env, w, name).w.state, name)
  {
    hide MarkUnschedulable, FindNode, ShutsOut;
    MarkTaints(env, w, name);
    DrainTaintShutsOut(env.lib, FindNode(MarkUnschedulable(env, w, name).w.state.nodes, name).value);
  }

  /** Evictions change pods only. */
  lemma {:induction false} EvictionsKeepRest(env: Env, w: World, host: string, pods: seq<Pod>)
    ensures EvictAll(env, w, host, pods).w.state == w.state.(pods := EvictAll(env, w, host, pods).w.state.pods)
  {
    if pods != [] {
      EvictionsKeepRest(env, w, host, pods[..|pods| - 1]);
    }
  }

  // ---- The rollback ----

  /** A drain's log that ends with a rollback whose update of the node succeeded. */
  predicate RolledBack(log: seq<Event>, name: string) {
    && |log| >= 3 && log[|log| - 3] == RollingBack(name)
    && log[|log| - 2].NodeUpdated? && log[|log| - 2].ok && log[|log| - 1] == Drained(name, false)
  }

  lemma {:induction false} WithoutAppendedTaint(taints: seq<Taint>)
    ensures WithoutDrainTaint(taints + [DRAIN_TAINT]) == WithoutDrainTaint(taints)
    ensures WithoutDrainTaint(taints) == taints <==> !HasDrainTaint(taints)
  {
    assert (taints + [DRAIN_TAINT])[..|taints|] == taints;
    if taints != [] {
      var k := |taints| - 1;
      WithoutAppendedTaint(taints[..k]);
      assert taints == taints[..k] + [taints[k]];
    }
  }

  /** Marking leaves the node as it was, up to the added taint. */
  lemma MarkKeepsNode(env: Env, w: World, name: string)
    requires MarkUnschedulable(env, w, name).r
    ensures var before := FindNode(w.state.nodes, name);
            var after := FindNode(MarkUnschedulable(env, w, name).w.state.nodes, name);
            && before.Some? && after.Some?
            && after.value == before.value.(taints := after.value.taints)
            && WithoutDrainTaint(after.value.taints) == WithoutDrainTaint(before.value.taints)
  {
    var g := GetNode(env, w, name);
    if !HasDrainTaint(g.r.value.taints) {
      FindReplaced(w.state.nodes, g.r.value.(taints := g.r.value.taints + [DRAIN_TAINT]));
      WithoutAppendedTaint(g.r.value.taints);
    }
  }

  lemma RollBackRemovesTaint(env: Env, w: World, name: string)
    requires FindNode(w.state.nodes, name).Some?
    requires var t := RollBack(env, w, name).trace; t[|t| - 1].NodeUpdated? && t[|t| - 1].ok
    ensures var before := FindNode(w.state.nodes, name).value;
            FindNode(RollBack(env, w, name).state.nodes, name)
            == Some(before.(taints := WithoutDrainTaint(before.taints)))
  {
    hide WithoutDrainTaint, FindNode;
    var before := FindNode(w.state.nodes, name).value;
    FindReplaced(w.state.nodes, before.(taints := WithoutDrainTaint(before.taints)));
  }

  /** Only a drain that failed at an eviction can end in a rollback. */
  lemma RolledBackMeans(env: Env, w: World, node: NodeView, log: seq<Event>)
    requires DrainNode(env, w, node).w.trace == w.trace + log && RolledBack(log, node.meta.name)
    ensures var marked := MarkUnschedulable(env, w, node.meta.name);
            var evicted := EvictAll(env, marked.w, node.meta.name, VictimPods(node));
            var t := RollBack(env, evicted.w, node.meta.name).trace;
            marked.r && !evicted.r && t[|t| - 1].NodeUpdated? && t[|t| - 1].ok
  {
    hide MarkUnschedulable, VictimPods, RollBack, EvictAll;
    var name := node.meta.name;
    var t := DrainNode(env, w, node).w.trace;
    assert t[|t| - 1] == log[|log| - 1] && t[|t| - 2] == log[|log| - 2];
    var marks := MarkLog(env, w, name);
    assert |t| >= |w.trace| + 3;
  }

  /** A successful rollback gives the node back its original metadata exactly when the node did not
      carry the drain taint before: a taint that was there already is removed as well. */
  lemma RollbackRestoresExactly(env: Env, w: World, node: NodeView, log: seq<Event>)
    requires DrainNode(env, w, node).w.trace == w.trace + log && RolledBack(log, node.meta.name)
    ensures var before := FindNode(w.state.nodes, node.meta.name);
            && before.Some?
            && (FindNode(DrainNode(env, w, node).w.state.nodes, node.meta.name) == before <==>
                !Tainted(w.state, node.meta.name))
  {
    hide MarkUnschedulable, EvictAll, RollBack, VictimPods, FindNode, HasDrainTaint, HasDrainKey;
    RolledBackMeans(env, w, node, log);
    RestoredNode(env, w, node.meta.name, VictimPods(node));
    DrainKeyIs(FindNode(w.state.nodes, node.meta.name).value.taints);
  }

  lemma RestoredNode(env: Env, w: World, name: string, pods: seq<Pod>)
    requires MarkUnschedulable(env, w, name).r
    requires var evicted := EvictAll(env, MarkUnschedulable(env, w, name).w, name, pods);
             var t := RollBack(env, evicted.w, name).trace;
             t[|t| - 1].NodeUpdated? && t[|t| - 1].ok
    ensures var before := FindNode(w.state.nodes, name);
            var evicted := EvictAll(env, MarkUnschedulable(env, w, name).w, name, pods);
            && before.Some?
            && (FindNode(RollBack(env, evicted.w, name).state.nodes, name) == before <==>
                !HasDrainTaint(before.value.taints))
  {
    var marked := MarkUnschedulable(env, w, name).w;
    MarkKeepsNode(env, w, name);
    EvictionsKeepRest(env, marked, name, pods);
    RollBackRemovesTaint(env, EvictAll(env, marked, name, pods).w, name);
    WithoutAppendedTaint(FindNode(w.state.nodes, name).value.taints);
  }

  // ---- What a drain leaves alone ----

  lemma {:induction false} WithoutReplaced(nodes: seq<Node>, node: Node)
    ensures WithoutNodes(ReplaceNode(nodes, node), {node.name}) == WithoutNodes(nodes, {node.name})
  {
    if nodes != [] {
      var k := |nodes| - 1;
      WithoutReplaced(nodes[..k], node);
      assert ReplaceNode(nodes, node)[..k] == ReplaceNode(nodes[..k], node);
    }
  }

  ghost predicate IsOneOf(pod: Pod, pods: seq<Pod>) {
    exists q :: q in pods && SamePod(pod, q)
  }

  /** `p` is `q` as a controller recreates it, on some node and under some name. */
  predicate Recreated(p: Pod, q: Pod) {
    p == q.(nodeName := p.nodeName, name := p.name)
  }

  /** Every pod that is not one of `victims` is still there, and every new pod is one of them recreated. */
  ghost predicate OthersStay(s: State, s': State, victims: seq<Pod>) {
    && (forall p :: p in s.pods && !IsOneOf(p, victims) ==> p in s'.pods)
    && (forall p :: p in s'.pods && p !in s.pods ==> exists q :: q in victims && Recreated(p, q))
  }

  lemma EvictOneOthersStay(env: Env, w: World, host: string, pod: Pod)
    ensures OthersStay(w.state, EvictPod(env, w, host, pod).w.state, [pod])
  {
    assert pod in [pod];
  }

  lemma OthersStayThen(s: State, s1: State, s2: State, a: seq<Pod>, b: seq<Pod>)
    requires OthersStay(s, s1, a) && OthersStay(s1, s2, b)
    ensures OthersStay(s, s2, a + b)
  {
    assert forall q :: q in a ==> q in a + b;
    assert forall q :: q in b ==> q in a + b;
    forall p | p in s.pods && !IsOneOf(p, a + b) ensures p in s2.pods {
      assert !IsOneOf(p, a) && !IsOneOf(p, b);
    }
  }

  lemma OthersStayFewer(s: State, s': State, a: seq<Pod>, b: seq<Pod>)
    requires OthersStay(s, s', a) && a <= b
    ensures OthersStay(s, s', b)
  {
    assert forall q :: q in a ==> q in b;
    forall p | p in s.pods && !IsOneOf(p, b) ensures p in s'.pods {
      assert !IsOneOf(p, a);
    }
  }

  lemma {:induction false} EvictAllOthersStay(env: Env, w: World, host: string, pods: seq<Pod>)
    ensures OthersStay(w.state, EvictAll(env, w, host, pods).w.state, pods)
  {
    if pods != [] {
      hide OthersStay, EvictPod;
      var k := |pods| - 1;
      assert pods == pods[..k] + [pods[k]];
      EvictAllOthersStay(env, w, host, pods[..k]);
      var sofar := EvictAll(env, w, host, pods[..k]);
      if sofar.r {
        EvictOneOthersStay(env, sofar.w, host, pods[k]);
        OthersStayThen(w.state, sofar.w.state, EvictPod(env, sofar.w, host, pods[k]).w.state, pods[..k], [pods[k]]);
      } else {
        OthersStayFewer(w.state, sofar.w.state, pods[..k], pods);
      }
    }
  }

  /** Without controllers that recreate pods, evicted pods are gone. */
  lemma {:induction false} EvictedAreGone(env: Env, w: World, host: string, pods: seq<Pod>)
    requires (forall i :: env.respawn(i).None?) && EvictAll(env, w, host, pods).r
    ensures forall p :: p in EvictAll(env, w, host, pods).w.state.pods ==> p in w.state.pods && !IsOneOf(p, pods)
  {
    if pods != [] {
      var k := |pods| - 1;
      EvictedAreGone(env, w, host, pods[..k]);
      var sofar := EvictAll(env, w, host, pods[..k]);
      forall p | p in EvictAll(env, w, host, pods).w.state.pods ensures p in w.state.pods && !IsOneOf(p, pods) {
        assert p in sofar.w.state.pods && !SamePod(p, pods[k]);
        assert forall q :: q in pods ==> q in pods[..k] || q == pods[k];
      }
    }
  }

  /** So a successful drain leaves none of the pods that have to leave, unless they are recreated. */
  lemma DrainEmpties(env: Env, w: World, node: NodeView)
    requires (forall i :: env.respawn(i).None?) && DrainNode(env, w, node).r
    ensures forall p :: p in DrainNode(env, w, node).w.state.pods ==> p in w.state.pods && !IsOneOf(p, Departing(node))
  {
    hide MarkUnschedulable, EvictAll, VictimPods, RollBack;
    var mark := MarkUnschedulable(env, w, node.meta.name);
    MarkKeepsPods(env, w, node.meta.name);
    EvictedAreGone(env, mark.w, node.meta.name, VictimPods(node));
    DepartingPods(node);
  }

  lemma MarkKeepsPods(env: Env, w: World, name: string)
    ensures MarkUnschedulable(env, w, name).w.state.pods == w.state.pods
  {
  }

  /** Same machines, budgets and pool size, same nodes except for the one called `name`. */
  ghost predicate OnlyNode(s: State, s': State, name: string) {
    && WithoutNodes(s'.nodes, {name}) == WithoutNodes(s.nodes, {name})
    && s'.machines == s.machines && s'.budgets == s.budgets && s'.desiredSize == s.desiredSize
  }

  lemma UpdateOnlyNode(env: Env, w: World, node: Node)
    ensures OnlyNode(w.state, UpdateNode(env, w, node).w.state, node.name)
    ensures UpdateNode(env, w, node).w.state.pods == w.state.pods
  {
    WithoutReplaced(w.state.nodes, node);
  }

  /** Whether it succeeds or fails, a drain touches no other node, no machine, and no pod but the
      ones it is there to evict. */
  lemma DrainFrame(env: Env, w: World, node: NodeView)
    ensures OnlyNode(w.state, DrainNode(env, w, node).w.state, node.meta.name)
    ensures OthersStay(w.state, DrainNode(env, w, node).w.state, VictimPods(node))
  {
    var name := node.meta.name;
    var g := GetNode(env, w, name);
    var marked := MarkUnschedulable(env, w, name);
    if g.r.Some? && !HasDrainTaint(g.r.value.taints) {
      UpdateOnlyNode(env, g.w, g.r.value.(taints := g.r.value.taints + [DRAIN_TAINT]));
    }
    if marked.r {
      var evicted := EvictAll(env, marked.w, name, VictimPods(node));
      EvictionsKeepRest(env, marked.w, name, VictimPods(node));
      EvictAllOthersStay(env, marked.w, name, VictimPods(node));
      if !evicted.r {
        RollBackFrame(env, evicted.w, name);
      }
    }
  }

  lemma RollBackFrame(env: Env, w: World, name: string)
    ensures OnlyNode(w.state, RollBack(env, w, name).state, name)
    ensures RollBack(env, w, name).state.pods == w.state.pods
  {
    var g := GetNode(env, Emit(w, RollingBack(name)), name);
    if g.r.Some? {
      UpdateOnlyNode(env, g.w, g.r.value.(taints := WithoutDrainTaint(g.r.value.taints)));
    }
  }
}
