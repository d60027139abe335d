/** A family of clusters on which every scale-down must succeed: the preconditions of the other laws
    can be met, and nothing spares the last worker. */
module IdleLaws {
  import opened Kube
  import opened Resources
  import opened Scheduling
  import opened SchedulingLaws
  import opened Cluster
  import opened NodeScaler
  import opened Promises
  import opened VerdictLaws
  import opened Proxy
  import opened RequestLaws
  import opened SizeLaws
  import opened OutcomeLaws
  import opened SuccessLaws

  predicate IdleNode(node: Node) {
    && !IsProtected(node) && !node.unschedulable && Condition("Ready", "True") in node.conditions
    && 0 <= Allocatable(node, CPU) && 0 <= Allocatable(node, Memory)
  }

  /** At least two workers, ready and without pods, all machines evictable, no budget exhausted. */
  predicate Idle(lib: Library, s: State) {
    && |s.nodes| >= 2 && s.pods == []
    && UniqueNames(s.nodes) && UniqueOwners(s)
    && (forall n :: n in s.nodes ==> IdleNode(n))
    && (forall m :: m in s.machines ==> m.evictable)
    && (forall b :: b in s.budgets ==> lib.selectorParses(b.selector) && 0 <= b.allowed)
  }

  lemma IdleView(lib: Library, s: State, view: NodeView)
    requires Idle(lib, s) && view in Snapshot(s)
    ensures view.pods == [] && Departing(view) == [] && view.meta in s.nodes && !IsMaster(view)
  {
    SnapshotNodes(s, view);
  }

  lemma AnotherNodeRemains(lib: Library, s: State, name: string)
    requires Idle(lib, s)
    ensures Receivers(Snapshot(s), name) != []
  {
    hide IsProtected, Allocatable, UniqueOwners, PodsOn;
    var j := if s.nodes[0].name == name then 1 else 0;
    FindsItself(s.nodes, j);
    var view := Snapshot(s)[j];
    assert s.nodes[j] in s.nodes && view in Snapshot(s);
    IdleView(lib, s, view);
    assert IdleNode(view.meta);
    assert view in Receivers(Snapshot(s), name);
  }

  lemma NoPodsFit(lib: Library, s: State, name: string)
    requires Idle(lib, s)
    ensures VerifyEvacuation(lib, Receivers(Snapshot(s), name), []).Planned?
  {
    hide Snapshot, Departing;
    var remaining := Receivers(Snapshot(s), name);
    forall n, r | n in remaining ensures 0 <= Free(n, r) {
      IdleView(lib, s, n);
      assert IdleNode(n.meta);
    }
    TotalFreeNonNegative(remaining, CPU);
    TotalFreeNonNegative(remaining, Memory);
  }

  lemma IdlePairIsAcceptable(lib: Library, s: State, p: Pair)
    requires Idle(lib, s) && p in Pairs(s)
    ensures Acceptable(lib, s, p) && !Trips(lib, s, p)
  {
    hide SnapshotVerdict, VerifyEvacuation, Pairs, Snapshot, Departing, Receivers;
    PairsEligible(s, p);
    IdleView(lib, s, p.node);
    AnotherNodeRemains(lib, s, p.node.meta.name);
    NoPodsFit(lib, s, p.node.meta.name);
    AcceptedExactly(lib, s, p.node);
  }

  lemma PairsEligible(s: State, p: Pair)
    requires p in Pairs(s)
    ensures p.node in Snapshot(s) && p.machine in s.machines
  {
    hide Snapshot;
    PairsAreEligible(s);
  }

  /** An idle cluster is scaled down to any size, zero included, if no call fails: each node is judged
      against a snapshot in which all the others are still there. */
  lemma IdleClusterShrinks(env: Env, s: State, calls: nat, desired: nat)
    requires NeverFails(env) && Permutes(env) && Idle(env.lib, s) && desired < |Roster(s)|
    ensures var r := SetDesiredSize(env, World(s, calls, []), desired);
            r.r == Done && |Roster(r.w.state)| == desired
  {
    forall p | p in Pairs(s) ensures Acceptable(env.lib, s, p) && !Trips(env.lib, s, p) {
      IdlePairIsAcceptable(env.lib, s, p);
    }
    hide SetDesiredSize, Roster, Pairs, Trips, Acceptable;
    FilterAllKept(Pairs(s), (p: Pair) => Acceptable(env.lib, s, p));
    PairsAreRoster(s);
    ReachesDesiredSize(env, s, calls, desired, env, calls);
  }
}
