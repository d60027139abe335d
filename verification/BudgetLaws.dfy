/** Disruption budgets: kept for each node on its own at every point of a request, and what that means
    for a request that removes several nodes. */
module BudgetLaws {
  import opened Kube
  import opened Cluster
  import opened NodeScaler
  import opened Promises
  import opened PromiseLaws
  import opened VerdictLaws
  import opened Proxy
  import opened RunLaws
  import opened RequestLaws
  import opened RemovalLaws
  import opened SizeLaws
  import opened LogLaws
  import opened OutcomeLaws
  import opened ResizeLaws
  import opened CasualtyLaws

  /** The evictions from each node are a prefix of the pods that its verdict was about. */
  ghost predicate EvictsPrefixes(s: State, log: seq<Event>) {
    forall view :: view in Snapshot(s) ==> Evictions(log, view.meta.name) <= VictimPods(view)
  }

  lemma SnapshotName(s: State, a: NodeView, b: NodeView)
    requires UniqueNames(s.nodes) && a in Snapshot(s) && b in Snapshot(s) && a.meta.name == b.meta.name
    ensures a == b
  {
    var i :| 0 <= i < |s.nodes| && Snapshot(s)[i] == a;
    var j :| 0 <= j < |s.nodes| && Snapshot(s)[j] == b;
    FindsItself(s.nodes, i);
    FindsItself(s.nodes, j);
    assert s.nodes[i].name == s.nodes[j].name;
  }

  lemma RemovalsEvictPrefixes(s: State, judged: seq<Event>, removals: seq<Event>, victims: seq<Pair>)
    requires UniqueNames(s.nodes) && DistinctNames(victims) && forall v :: v in victims ==> Eligible(s, v)
    requires EvictsOnly(removals, victims) && forall e :: e in judged ==> e.Judged?
    ensures EvictsPrefixes(s, judged + removals)
  {
    hide VictimPods, Snapshot, UniqueNames, DistinctNames, Terminations, Gone;
    forall view | view in Snapshot(s) ensures Evictions(judged + removals, view.meta.name) <= VictimPods(view) {
      EvictionsConcat(judged, removals, view.meta.name);
      NoEvictions(judged, view.meta.name);
      if view.meta.name in Names(victims) {
        var v :| v in victims && v.node.meta.name == view.meta.name;
        SnapshotName(s, v.node, view);
      }
    }
  }

  lemma SetSizeEvictsPrefixes(env: Env, s: State, calls: nat, desired: int)
    requires Permutes(env) && UniqueNames(s.nodes)
    ensures EvictsPrefixes(s, SetDesiredSize(env, World(s, calls, []), desired).w.trace)
  {
    hide SetDesiredSize, ScaleDown, DistinctNames, UniqueNames, Pairs, EvictsPrefixes, EvictsOnly, RemoveAll;
    var r := SetDesiredSize(env, World(s, calls, []), desired);
    var w := SetSizeCases(env, s, calls, desired);
    PairsAreRoster(s);
    if |r.w.trace| <= 1 && forall e :: e in r.w.trace ==> e.PoolResized? {
      NothingEvicted(s, r.w.trace);
    } else {
      var from, victims := ScaleDownShape(env, w, Pairs(s), desired);
      var removals := RemoveAllLog(env, from, victims);
      VictimsEligible(s, victims);
      RemovalsEvictPrefixes(s, from.trace, removals, victims);
    }
  }

  lemma NothingEvicted(s: State, log: seq<Event>)
    requires forall e :: e in log ==> !e.PodEvicted?
    ensures EvictsPrefixes(s, log)
  {
    forall view | view in Snapshot(s) ensures Evictions(log, view.meta.name) <= VictimPods(view) {
      NoEvictions(log, view.meta.name);
    }
  }

  lemma RemoveOneEvictsPrefixes(env: Env, s: State, w: World, victim: Pair, decrement: bool)
    requires UniqueNames(s.nodes) && w.state == s && w.trace == [] && victim.node in Snapshot(s)
    ensures EvictsPrefixes(s, RemoveOne(env, w, victim, decrement).w.trace)
  {
    hide JudgePair, EvictAndTerminate, EvictsPrefixes, UniqueNames;
    var judged := JudgeLog(env, w, victim);
    var j := JudgePair(env, w, victim);
    assert j.w.trace == judged;
    if j.r.Accepted? {
      var removal := RemovalLog(env, j.w, victim, decrement);
      OneEvictsPrefix(s, judged, removal, victim, decrement, EvictAndTerminate(env, j.w, victim, decrement).r);
    } else {
      NothingEvicted(s, judged);
    }
  }

  lemma OneEvictsPrefix(s: State, judged: seq<Event>, removal: seq<Event>, victim: Pair, decrement: bool, ok: bool)
    requires UniqueNames(s.nodes) && victim.node in Snapshot(s) && RemovalLogOf(removal, victim, decrement, ok)
    requires forall e :: e in judged ==> e.Judged?
    ensures EvictsPrefixes(s, judged + removal)
  {
    hide VictimPods, Snapshot, UniqueNames, Terminations, Gone;
    forall view | view in Snapshot(s) ensures Evictions(judged + removal, view.meta.name) <= VictimPods(view) {
      EvictionsConcat(judged, removal, view.meta.name);
      NoEvictions(judged, view.meta.name);
      if view.meta.name == victim.node.meta.name {
        SnapshotName(s, victim.node, view);
      }
    }
  }

  lemma TerminateEvictsPrefixes(env: Env, s: State, calls: nat, id: string, decrement: bool)
    requires UniqueNames(s.nodes)
    ensures EvictsPrefixes(s, TerminateMachine(env, World(s, calls, []), id, decrement).w.trace)
  {
    hide GetNodeInfos, RemoveOne, EvictsPrefixes, UniqueNames, Snapshot;
    var w := World(s, calls, []);
    ListWorkersReads(env, w);
    NothingEvicted(s, []);
    var nodes := ListWorkerNodes(env, w);
    if nodes.r.Some? {
      var node := NodeWithExternalID(nodes.r.value, id);
      if node.Some? {
        var machine := GetMachine(env, nodes.w, id);
        if machine.r.Some? {
          RemoveOneEvictsPrefixes(env, s, machine.w, Pair(node.value, machine.r.value), decrement);
        }
      }
    }
  }

  lemma RequestEvictsPrefixes(env: Env, s: State, calls: nat, request: Request)
    requires Permutes(env) && UniqueNames(s.nodes)
    ensures EvictsPrefixes(s, Run(env, World(s, calls, []), request).w.trace)
  {
    hide SetDesiredSize, TerminateMachine, EvictsPrefixes;
    match request
    case SetSize(desired) => SetSizeEvictsPrefixes(env, s, calls, desired);
    case Terminate(id, decrement) => TerminateEvictsPrefixes(env, s, calls, id, decrement);
  }

  /** For every accepted node, at every point of the request: of the pods evicted from it so far, no
      more are covered by a disruption budget than that budget allowed on the snapshot. */
  lemma BudgetsRespected(env: Env, s: State, calls: nat, request: Request, i: nat, k: nat, budget: Budget)
    requires Permutes(env) && UniqueNames(s.nodes)
    requires var t := Run(env, World(s, calls, []), request).w.trace;
             i < |t| && k <= |t| && t[i].Judged? && budget in t[i].evidence.budgets
    ensures var t := Run(env, World(s, calls, []), request).w.trace;
            |Matching(env.lib, budget, Evictions(t[..k], t[i].pair.node.meta.name))| <= budget.allowed
  {
    hide Run, Snapshot, UniqueNames, Matching, Departing, VictimPods, Receivers, EvictedAll;
    var t := Run(env, World(s, calls, []), request).w.trace;
    var node := t[i].pair.node;
    JustifiedAt(env, s, calls, request, i);
    RequestEvictsPrefixes(env, s, calls, request);
    EvictionsPrefix(t, k, node.meta.name);
    var n := |Evictions(t[..k], node.meta.name)|;
    DepartingPods(node);
    assert Evictions(t[..k], node.meta.name) == Departing(node)[..n];
    VettedPrefixWithinBudget(env.lib, s, node, t[i].evidence, n, budget);
  }

  // ---- Disruption budgets over a whole request ----

  /** How many of the pods that have to leave the nodes of these pairs a budget covers. */
  function CoveredOf(lib: Library, budget: Budget, victims: seq<Pair>): nat {
    if victims == [] then 0
    else
      CoveredOf(lib, budget, victims[..|victims| - 1])
      + |Matching(lib, budget, Departing(victims[|victims| - 1].node))|
  }

  lemma {:induction false} CountCoveredConcat(lib: Library, budget: Budget, a: seq<Pod>, b: seq<Pod>)
    ensures CountCovered(lib, budget, a + b) == CountCovered(lib, budget, a) + CountCovered(lib, budget, b)
  {
    if b == [] {
      assert a + b == a;
    } else {
      var k := |b| - 1;
      CountCoveredConcat(lib, budget, a, b[..k]);
      assert (a + b)[..|a + b| - 1] == a + b[..k];
    }
  }

  lemma {:induction false} CoveredOfPods(lib: Library, budget: Budget, victims: seq<Pair>)
    ensures CountCovered(lib, budget, PodsOf(victims)) == CoveredOf(lib, budget, victims)
  {
    if victims != [] {
      hide VictimPods;
      var k := |victims| - 1;
      CoveredOfPods(lib, budget, victims[..k]);
      CountCoveredConcat(lib, budget, PodsOf(victims[..k]), VictimPods(victims[k].node));
      DepartingPods(victims[k].node);
      CountIsMatching(lib, budget, Departing(victims[k].node));
    }
  }

  lemma {:induction false} PodsOfPrefix(victims: seq<Pair>, k: nat)
    requires k <= |victims|
    ensures PodsOf(victims[..k]) <= PodsOf(victims)
    decreases |victims|
  {
    hide VictimPods;
    if k == |victims| {
      assert victims[..k] == victims;
    } else {
      PodsOfPrefix(victims[..|victims| - 1], k);
      assert victims[..|victims| - 1][..k] == victims[..k];
    }
  }

  /** No budget is asked about the victims together. Over a whole scale-down, the evictions that a budget
      covers are at most those of all its victims, and exactly those if the request succeeds. So a
      successful request stays within the budget if and only if its victims do together. */
  lemma BudgetsAddUp(env: Env, s: State, calls: nat, desired: int, budget: Budget) returns (victims: seq<Pair>)
    requires Permutes(env) && UniqueNames(s.nodes) && desired < |Roster(s)|
    ensures var r := SetDesiredSize(env, World(s, calls, []), desired); var t := r.w.trace;
            var covered := |Matching(env.lib, budget, Evicted(t))|;
            && victims <= env.sort(AcceptedPairs(t))
            && (r.r.Done? ==> |victims| == Min(|Roster(s)| - desired, |AcceptedPairs(t)|))
            && covered <= CoveredOf(env.lib, budget, victims)
            && (r.r.Done? ==>
                  && covered == CoveredOf(env.lib, budget, victims)
                  && (covered <= budget.allowed <==> CoveredOf(env.lib, budget, victims) <= budget.allowed))
  {
    hide SetDesiredSize, Roster, UniqueNames, Aftermath, DistinctNames, Eligible, TakesFirst, CountCovered, PodsOf, Acceptances, Matching;
    var m;
    victims, m := ScaleDownAftermath(env, s, calls, desired);
    var r := SetDesiredSize(env, World(s, calls, []), desired);
    var evicted := Evicted(r.w.trace);
    CountIsMatching(env.lib, budget, evicted);
    CoveredOfPods(env.lib, budget, victims);
    PodsOfPrefix(victims, Min(m + 1, |victims|));
    assert evicted == PodsOf(victims)[..|evicted|];
    CountCoveredPrefix(env.lib, budget, PodsOf(victims), |evicted|);
    if r.r.Done? {
      assert victims[..m] == victims;
      assert evicted == PodsOf(victims);
    }
  }
}
