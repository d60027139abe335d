/** The calls of the reading operations, counted: what they answer depends on exactly these calls. */
module CallLaws {
  import opened Kube
  import opened Cluster
  import opened NodeScaler
  import opened VerdictLaws
  import opened Proxy

  /** The same world after `k` more calls. */
  function Later(w: World, k: nat): World {
    w.(calls := w.calls + k)
  }

  /** The calls with these numbers succeed. */
  ghost predicate Succeeds(env: Env, from: nat, to: nat) {
    forall i :: from <= i < to ==> !env.fails(i)
  }

  /** Two calls for each node, all of which have to succeed. */
  lemma {:induction false} CollectCalls(env: Env, w: World, nodes: seq<Node>)
    requires forall n :: n in nodes ==> FindNode(w.state.nodes, n.name).Some?
    ensures var c := CollectInfos(env, w, nodes); var all := 2 * |nodes|;
            && w.calls <= c.w.calls <= w.calls + all
            && (c.r.Some? <==> Succeeds(env, w.calls, w.calls + all))
            && (c.r.Some? ==> c.w == Later(w, all))
            && (c.r.None? ==> !Succeeds(env, w.calls, c.w.calls))
  {
    hide GetNodeInfo, FindNode;
    if nodes != [] {
      var k := |nodes| - 1;
      CollectCalls(env, w, nodes[..k]);
      CollectReadsSnapshot(env, w, nodes[..k]);
      var sofar := CollectInfos(env, w, nodes[..k]);
      assert nodes[k] in nodes;
      if sofar.r.Some? {
        OneInfo(env, sofar.w, nodes[k].name);
      }
    }
  }

  lemma OneInfo(env: Env, w: World, name: string)
    requires FindNode(w.state.nodes, name).Some?
    ensures var r := GetNodeInfo(env, w, name);
            && w.calls < r.w.calls <= w.calls + 2
            && (r.r.Some? <==> !env.fails(w.calls) && !env.fails(w.calls + 1))
            && (r.r.Some? ==> r.w == Later(w, 2)) && (r.r.None? ==> env.fails(r.w.calls - 1))
  {
    hide PodsOn, FindNode;
  }

  /** Reading all nodes succeeds exactly when its 2n + 1 calls do, and then yields the snapshot. */
  lemma InfosExactly(env: Env, w: World)
    ensures var r := GetNodeInfos(env, w); var all := 2 * |w.state.nodes| + 1;
            && w.calls < r.w.calls <= w.calls + all
            && (r.r.Some? <==> Succeeds(env, w.calls, w.calls + all))
            && (r.r.Some? ==> r == Reply(Later(w, all), Some(Snapshot(w.state))))
            && (r.r.None? ==> Quiet(w, r.w) && !Succeeds(env, w.calls, r.w.calls))
  {
    hide CollectInfos, Snapshot;
    ReadsSnapshot(env, w);
    CollectCalls(env, Tick(w), w.state.nodes);
  }

  lemma ListExactly(env: Env, w: World)
    ensures var r := ListWorkerNodes(env, w); var all := 2 * |w.state.nodes| + 1;
            && (r.r.Some? <==> Succeeds(env, w.calls, w.calls + all))
            && (r.r.Some? ==> r == Reply(Later(w, all), Some(Workers(Snapshot(w.state)))))
            && (r.r.None? ==> Quiet(w, r.w))
  {
    hide GetNodeInfos, Snapshot, Workers;
    InfosExactly(env, w);
  }

  /** A verdict blames a failed call only if one of its calls failed. */
  lemma BlameIsJust(env: Env, w: World, node: NodeView)
    ensures var v := IsScaleDownCandidate(env, w, node);
            && w.calls <= v.w.calls
            && (v.r == Refused(CallFailed) ==> !Succeeds(env, w.calls, v.w.calls))
  {
    hide GetNodeInfos, Snapshot, EarlyVerdict, LateVerdict;
    InfosExactly(env, w);
    VerdictsBlameNobody(env.lib, w.state, node);
  }

  lemma VerdictsBlameNobody(lib: Library, s: State, node: NodeView)
    ensures EarlyVerdict(node, Snapshot(s)) != Some(Refused(CallFailed))
    ensures LateVerdict(lib, node, Snapshot(s), s.budgets) != Refused(CallFailed)
  {
    hide MoveObstacle, BudgetObstacle, Snapshot, VictimPods, Remaining;
    var pods := VictimPods(node);
    if MoveObstacle(pods).Some? && MoveObstacle(pods).value.Refused? {
      var k := MoveReason(pods);
    }
    if BudgetObstacle(lib, s.budgets, pods).Some? {
      var k := BudgetReason(lib, s.budgets, pods);
    }
  }

  /** The reason for refusing a pair is true on the snapshot, or a call failed. */
  lemma PairRefusalFits(env: Env, w: World, pair: Pair)
    ensures var j := JudgePair(env, w, pair);
            && w.calls <= j.w.calls
            && (j.r.Refused? ==> ReasonFits(env.lib, w.state, pair, j.r.reason))
            && (j.r == Refused(CallFailed) ==> !Succeeds(env, w.calls, j.w.calls))
  {
    hide IsScaleDownCandidate, SnapshotVerdict;
    VerdictIsOfSnapshot(env, w, pair.node);
    BlameIsJust(env, w, pair.node);
    if SnapshotVerdict(env.lib, w.state, pair.node).Refused? {
      RefusalFits(env.lib, w.state, pair);
    }
  }

  /** Judging an acceptable pair takes 2n + 2 calls, and accepts it if they succeed. */
  lemma JudgeWorks(env: Env, w: World, pair: Pair)
    requires Acceptable(env.lib, w.state, pair) && Succeeds(env, w.calls, w.calls + 2 * |w.state.nodes| + 2)
    ensures var j := JudgePair(env, w, pair);
            && j.r.Accepted? && j.w == Emit(Later(w, 2 * |w.state.nodes| + 2), Judged(pair, j.r.evidence))
  {
    hide GetNodeInfos, Snapshot, LateVerdict, Effect;
    InfosExactly(env, w);
    AcceptedIsNotEarly(env.lib, w.state, pair.node);
  }

  lemma AcceptedIsNotEarly(lib: Library, s: State, node: NodeView)
    requires SnapshotVerdict(lib, s, node).Accepted?
    ensures !IsProtected(node.meta) && EarlyVerdict(node, Snapshot(s)).None?
  {
    hide MoveObstacle, LateVerdict, Snapshot, VictimPods;
    NoObstacleMeansMovable(VictimPods(node));
  }
}
