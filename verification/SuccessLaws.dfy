/** Which machines a scale-down takes, and exactly when it succeeds if no call fails. */
module SuccessLaws {
  import opened Kube
  import opened Scheduling
  import opened SchedulingLaws
  import opened Cluster
  import opened NodeScaler
  import opened VerdictLaws
  import opened DrainLaws
  import opened Proxy
  import opened RunLaws
  import opened RequestLaws
  import opened RemovalLaws
  import opened SizeLaws
  import opened LogLaws
  import opened OutcomeLaws
  import opened ResizeLaws
  import opened CasualtyLaws
  import opened PartitionLaws

  // ---- Least loaded first ----

  lemma NothingTaken(log: seq<Event>, ranking: seq<Pair>)
    requires forall e :: e in log ==> !e.MachineTerminated?
    ensures TakesFirst(log, ranking, 0)
  {
    NoTerminations(log);
  }

  lemma ScaleDownTakesFirst(env: Env, w: World, pairs: seq<Pair>, desired: int) returns (m: nat)
    requires desired < |pairs| && w.trace == []
    ensures var t := ScaleDown(env, w, pairs, desired).w.trace; var ranking := env.sort(AcceptedPairs(t));
            && m <= |ranking| && TakesFirst(t, ranking, m)
            && forall e :: e in t && e.Judged? ==> e.pair in pairs && Acceptable(env.lib, w.state, e.pair)
  {
    hide Partition, RemoveAll, TakesFirst, Victims, Acceptances, RemovalsLogOf, Acceptable;
    m := 0;
    var judged := PartitionLog(env, w, pairs);
    var split := Partition(env, w, pairs);
    assert split.w.trace == judged;
    if split.r.None? || split.r.value.candidates == [] {
      NothingTaken(judged, env.sort(AcceptedPairs(judged)));
    } else {
      var candidates := split.r.value.candidates;
      var victims := Victims(env, candidates, |pairs| - desired);
      var removals := RemoveAllLog(env, split.w, victims);
      m := Completed(env, split.w, victims);
      RankedRemovals(env, judged, removals, candidates, |pairs| - desired, m);
    }
  }

  lemma RankedRemovals(env: Env, judged: seq<Event>, removals: seq<Event>, candidates: seq<Pair>, excess: nat, m: nat)
    requires |judged| == |candidates| && forall i :: 0 <= i < |judged| ==> judged[i].Judged? && judged[i].pair == candidates[i]
    requires RemovalsLogOf(removals, Victims(env, candidates, excess), m)
    ensures m <= |env.sort(candidates)| && TakesFirst(judged + removals, env.sort(candidates), m)
    ensures AcceptedPairs(judged + removals) == candidates && forall e :: e in removals ==> !e.Judged?
  {
    hide Acceptances, Terminations, Gone, EvictsOnly, EvictsFirst;
    AcceptancesOf(judged, removals);
    TerminationsConcat(judged, removals);
  }

  /** Whatever calls fail: the machines that a request for a new size terminates are the first ones of
      its accepted pairs in order of load. So they go in order of load, and no accepted machine that is
      left running has a smaller load than one that was terminated. */
  lemma TerminatesLeastLoadedFirst(env: Env, s: State, calls: nat, desired: int) returns (ranking: seq<Pair>)
    requires SortsByLoad(env) && env.lib.RoundsUp()
    requires forall p :: p in Pairs(s) && Acceptable(env.lib, s, p) ==> HasCapacity(p.node.meta)
    ensures var t := SetDesiredSize(env, World(s, calls, []), desired).w.trace; var m := |Terminations(t)|;
            && multiset(ranking) == multiset(AcceptedPairs(t)) && ByLoad(env.lib, ranking)
            && m <= |ranking| && TakesFirst(t, ranking, m)
  {
    hide SetDesiredSize, ScaleDown, Pairs, HasCapacity, ByLoad, Acceptances, Acceptable, NodeLoad, Terminations;
    var t := SetDesiredSize(env, World(s, calls, []), desired).w.trace;
    ranking := env.sort(AcceptedPairs(t));
    var w := SetSizeCases(env, s, calls, desired);
    if forall e :: e in t ==> !e.MachineTerminated? && !e.Judged? {
      NothingTaken(t, ranking);
    } else {
      var m := ScaleDownTakesFirst(env, w, Pairs(s), desired);
    }
    forall p | p in AcceptedPairs(t) ensures NodeLoad(env.lib, p.node) != NaN {
      AcceptedFrom(t, p);
      LoadIsNumber(env.lib, p.node);
    }
  }

  lemma AcceptedFrom(log: seq<Event>, p: Pair)
    requires p in AcceptedPairs(log)
    ensures exists e :: e in log && e.Judged? && e.pair == p
  {
    var i :| 0 <= i < |AcceptedPairs(log)| && AcceptedPairs(log)[i] == p;
    assert Acceptances(log)[i] in Acceptances(log);
  }

  // ---- Without failing calls ----

  predicate UniquePods(pods: seq<Pod>) {
    forall i, j :: 0 <= i < j < |pods| ==> !SamePod(pods[i], pods[j])
  }

  lemma SameIsEqual(pods: seq<Pod>, p: Pod, q: Pod)
    requires UniquePods(pods) && p in pods && q in pods && SamePod(p, q)
    ensures p == q
  {
    var i :| 0 <= i < |pods| && pods[i] == p;
    var j :| 0 <= j < |pods| && pods[j] == q;
    assert i == j;
  }

  lemma {:induction false} FilterUnique(pods: seq<Pod>, f: Pod -> bool)
    requires UniquePods(pods)
    ensures UniquePods(Filter(pods, f))
  {
    if pods != [] {
      var k := |pods| - 1;
      FilterUnique(pods[..k], f);
      var kept := Filter(pods[..k], f);
      forall i | 0 <= i < |kept| ensures !SamePod(kept[i], pods[k]) {
        assert kept[i] in pods[..k];
      }
    }
  }

  lemma {:induction false} EvictAllSucceeds(env: Env, w: World, host: string, pods: seq<Pod>)
    requires NeverFails(env) && UniquePods(pods) && forall p :: p in pods ==> p in w.state.pods
    ensures EvictAll(env, w, host, pods).r
  {
    if pods != [] {
      var k := |pods| - 1;
      EvictAllSucceeds(env, w, host, pods[..k]);
      EvictAllOthersStay(env, w, host, pods[..k]);
      assert !IsOneOf(pods[k], pods[..k]);
      assert SamePod(pods[k], pods[k]) && pods[k] in pods;
    }
  }

  lemma MarkSucceeds(env: Env, w: World, name: string)
    requires NeverFails(env) && FindNode(w.state.nodes, name).Some?
    ensures MarkUnschedulable(env, w, name).r && MarkUnschedulable(env, w, name).w.state.pods == w.state.pods
  {
  }

  lemma DrainSucceeds(env: Env, w: World, node: NodeView)
    requires NeverFails(env) && FindNode(w.state.nodes, node.meta.name).Some?
    requires UniquePods(VictimPods(node)) && forall p :: p in VictimPods(node) ==> p in w.state.pods
    ensures DrainNode(env, w, node).r
    ensures FindNode(DrainNode(env, w, node).w.state.nodes, node.meta.name).Some?
  {
    hide VictimPods, RollBack, MarkUnschedulable, EvictAll, UniquePods;
    var name := node.meta.name;
    var mark := MarkUnschedulable(env, w, name);
    MarkSucceeds(env, w, name);
    MarkKeepsNode(env, w, name);
    EvictAllSucceeds(env, mark.w, name, VictimPods(node));
    EvictionsKeepRest(env, mark.w, name, VictimPods(node));
  }

  lemma RemovalSucceeds(env: Env, w: World, victim: Pair, decrement: bool)
    requires NeverFails(env) && FindNode(w.state.nodes, victim.node.meta.name).Some?
    requires UniquePods(VictimPods(victim.node)) && forall p :: p in VictimPods(victim.node) ==> p in w.state.pods
    requires FindMachine(w.state.machines, victim.machine.id).Some?
    ensures EvictAndTerminate(env, w, victim, decrement).r
  {
    hide DrainNode, VictimPods;
    DrainSucceeds(env, w, victim.node);
    DrainFrame(env, w, victim.node);
  }

  /** The pods to evict from a worker of the snapshot are pods of the cluster, on that node. */
  lemma VictimPodsAreThere(s: State, view: NodeView)
    requires UniquePods(s.pods) && view in Snapshot(s)
    ensures UniquePods(VictimPods(view))
    ensures forall p :: p in VictimPods(view) ==> p in s.pods && p.nodeName == view.meta.name
  {
    FilterUnique(s.pods, (p: Pod) => p.nodeName == view.meta.name);
    FilterUnique(view.pods, (p: Pod) => IsNonSystem(p) && IsActivePod(p));
  }

  lemma {:induction false} PodsOfAreThere(s: State, victims: seq<Pair>)
    requires UniquePods(s.pods) && forall v :: v in victims ==> v.node in Snapshot(s)
    ensures forall p :: p in PodsOf(victims) ==> p in s.pods && p.nodeName in Names(victims)
  {
    hide VictimPods, Snapshot, UniquePods, RemovalLaws.Names;
    if victims != [] {
      var k := |victims| - 1;
      PodsOfAreThere(s, victims[..k]);
      VictimPodsAreThere(s, victims[k].node);
      assert victims == victims[..k] + [victims[k]];
      NamesSnoc(victims[..k], victims[k]);
    }
  }

  lemma StillThere(machines: seq<Machine>, ids: set<string>, m: Machine)
    requires m in machines
    ensures FindMachine(Stop(machines, ids), m.id).Some?
  {
    var i :| 0 <= i < |machines| && machines[i] == m;
    assert Stop(machines, ids)[i] in Stop(machines, ids);
  }

  /** The removals before it leave a victim's pods where they are. */
  lemma PodsStillThere(s: State, now: State, before: seq<Pair>, victim: Pair, p: Pod)
    requires UniquePods(s.pods) && (forall v :: v in before ==> v.node in Snapshot(s)) && victim.node in Snapshot(s)
    requires victim.node.meta.name !in Names(before) && OthersStay(s, now, PodsOf(before)) && p in VictimPods(victim.node)
    ensures p in now.pods
  {
    hide Snapshot, VictimPods, PodsOf, UniquePods, Names;
    VictimPodsAreThere(s, victim.node);
    PodsOfAreThere(s, before);
    if IsOneOf(p, PodsOf(before)) {
      var q :| q in PodsOf(before) && SamePod(p, q);
      SameIsEqual(s.pods, p, q);
    }
  }

  lemma {:induction false} RemoveAllSucceeds(env: Env, w: World, victims: seq<Pair>)
    requires NeverFails(env) && UniquePods(w.state.pods) && DistinctNames(victims)
    requires forall v :: v in victims ==> Eligible(w.state, v)
    ensures RemoveAll(env, w, victims).r
  {
    hide EvictAndTerminate, UniquePods, OthersStay, Eligible, DistinctNames, Removed, Names, Ids, PodsOf;
    if victims != [] {
      var k := |victims| - 1;
      DistinctFront(victims, k);
      RemoveAllSucceeds(env, w, victims[..k]);
      var sofar := RemoveAll(env, w, victims[..k]);
      AllRemoved(env, w, victims[..k]);
      NextRemovalSucceeds(env, w.state, sofar.w, victims[..k], victims[k]);
    }
  }

  lemma DistinctFront(victims: seq<Pair>, k: nat)
    requires DistinctNames(victims) && k < |victims|
    ensures DistinctNames(victims[..k])
    ensures forall i :: 0 <= i < k ==> victims[..k][i].node.meta.name != victims[k].node.meta.name
  {
  }

  lemma NextRemovalSucceeds(env: Env, s: State, w: World, before: seq<Pair>, victim: Pair)
    requires NeverFails(env) && UniquePods(s.pods)
    requires (forall v :: v in before ==> Eligible(s, v)) && Eligible(s, victim)
    requires forall i :: 0 <= i < |before| ==> before[i].node.meta.name != victim.node.meta.name
    requires Removed(s, w.state, Names(before), Ids(before), s.desiredSize - |before|)
    requires OthersStay(s, w.state, PodsOf(before))
    ensures EvictAndTerminate(env, w, victim, true).r
  {
    hide VictimPods, Snapshot, UniquePods, OthersStay, IsMaster, EvictAndTerminate;
    SnapshotNodes(s, victim.node);
    FindWithout(s.nodes, Names(before), victim.node.meta.name);
    StillThere(s.machines, Ids(before), victim.machine);
    VictimPodsAreThere(s, victim.node);
    forall p | p in VictimPods(victim.node) ensures p in w.state.pods {
      PodsStillThere(s, w.state, before, victim, p);
    }
    RemovalSucceeds(env, w, victim, true);
  }

  lemma ReadsSucceed(env: Env, s: State, calls: nat, desired: int) returns (w: World)
    requires NeverFails(env)
    ensures w.state == s && w.trace == []
    ensures var r := SetDesiredSize(env, World(s, calls, []), desired);
            && (desired >= |Pairs(s)| ==> r.r == Done && r.w.trace == [PoolResized(desired, true)])
            && (desired < |Pairs(s)| ==> r == ScaleDown(env, w, Pairs(s), desired))
  {
    hide ScaleDown, Snapshot, PairUp, Workers, CollectInfos;
    var start := World(s, calls, []);
    ListSucceeds(env, start);
    var nodes := ListWorkerNodes(env, start);
    w := Read(env, nodes.w, nodes.w.state.machines).w;
  }

  /** If no call fails, the outcome is decided by the initial state alone: the request panics exactly
      when there is excess and some pair's verdict does, finds no candidate exactly when there is excess
      and no pair is acceptable, and succeeds in every other case. */
  lemma OutcomeWithoutFailures(env: Env, s: State, calls: nat, desired: int)
    requires NeverFails(env) && Permutes(env) && UniqueNames(s.nodes) && UniquePods(s.pods)
    ensures var r := SetDesiredSize(env, World(s, calls, []), desired);
            var excess := desired < |Roster(s)|;
            var panics := exists p :: p in Pairs(s) && Trips(env.lib, s, p);
            && (r.r.Crash? <==> excess && panics)
            && (r.r.Failed? <==> excess && !panics && AcceptedOf(env.lib, s, Pairs(s)) == [])
            && (r.r.Failed? ==> r.r.error.NoViableCandidate?)
            && (excess && r.r.Done? ==> AcceptedPairs(r.w.trace) == AcceptedOf(env.lib, s, Pairs(s)))
  {
    hide SetDesiredSize, ScaleDown, Pairs, Trips, UniqueNames, UniquePods, Roster, AcceptedOf, Acceptances;
    var w := ReadsSucceed(env, s, calls, desired);
    PairsAreRoster(s);
    if desired < |Pairs(s)| {
      ScaleDownWithoutFailures(env, w, Pairs(s), desired);
    }
  }

  lemma ScaleDownWithoutFailures(env: Env, w: World, pairs: seq<Pair>, desired: int)
    requires NeverFails(env) && Permutes(env) && UniquePods(w.state.pods) && desired < |pairs| && w.trace == []
    requires DistinctNames(pairs) && pairs == Pairs(w.state)
    ensures var r := ScaleDown(env, w, pairs, desired);
            var panics := exists p :: p in pairs && Trips(env.lib, w.state, p);
            && (r.r.Crash? <==> panics)
            && (r.r.Failed? <==> !panics && AcceptedOf(env.lib, w.state, pairs) == [])
            && (r.r.Failed? ==> r.r.error.NoViableCandidate?)
            && (r.r.Done? ==> AcceptedPairs(r.w.trace) == AcceptedOf(env.lib, w.state, pairs))
  {
    hide Partition, RemoveAll, Victims, Acceptances, AcceptedOf, Trips, DistinctNames, Pairs, UniquePods, Eligible, RemovalsLogOf;
    PartitionWithoutFailures(env, w, pairs);
    var judged := PartitionLog(env, w, pairs);
    var split := Partition(env, w, pairs);
    assert split.w.trace == judged;
    if split.r.Some? && split.r.value.candidates != [] {
      var candidates, excess := split.r.value.candidates, |pairs| - desired;
      CandidatesDistinct(env, w, pairs);
      VictimsDistinct(env, candidates, excess);
      VictimsAreCandidates(env, candidates, excess);
      var victims := Victims(env, candidates, excess);
      VictimsEligible(w.state, victims);
      RemoveAllSucceeds(env, split.w, victims);
      var removals := RemoveAllLog(env, split.w, victims);
      AcceptedAre(judged, removals, candidates, victims);
    }
  }

  lemma AcceptedAre(judged: seq<Event>, removals: seq<Event>, candidates: seq<Pair>, victims: seq<Pair>)
    requires |judged| == |candidates| && forall i :: 0 <= i < |judged| ==> judged[i].Judged? && judged[i].pair == candidates[i]
    requires RemovalsLogOf(removals, victims, |victims|)
    ensures AcceptedPairs(judged + removals) == candidates
  {
    hide Acceptances, Terminations, Gone;
    AcceptancesOf(judged, removals);
  }

  /** If no call fails, no verdict panics and there are enough acceptable nodes, a scale-down leaves
      exactly `desired` active nodes, and repeating the request drains nothing. */
  lemma ReachesDesiredSize(env: Env, s: State, calls: nat, desired: int, env': Env, calls': nat)
    requires NeverFails(env) && Permutes(env) && UniqueNames(s.nodes) && UniqueOwners(s) && UniquePods(s.pods)
    requires desired < |Roster(s)| && forall p :: p in Pairs(s) ==> !Trips(env.lib, s, p)
    requires |AcceptedOf(env.lib, s, Pairs(s))| >= |Roster(s)| - desired
    ensures var r := SetDesiredSize(env, World(s, calls, []), desired);
            var again := SetDesiredSize(env', World(r.w.state, calls', []), desired);
            && r.r == Done && |Roster(r.w.state)| == desired
            && (again.w.trace == [] || again.w.trace == [PoolResized(desired, again.r.Done?)])
  {
    hide SetDesiredSize, Roster, Acceptances, UniqueNames, UniqueOwners, UniquePods, Pairs, Trips, AcceptedOf;
    OutcomeWithoutFailures(env, s, calls, desired);
    RepeatOnlyForwards(env, s, calls, desired, env', calls');
  }

  // ---- Terminating one machine ----

  /** The outcome of a request to terminate a machine, as far as the initial state decides it. */
  ghost function TerminationOutcome(lib: Library, s: State, id: string): Proxy.Outcome {
    var node := NodeWithExternalID(Workers(Snapshot(s)), id);
    var machine := FindMachine(s.machines, id);
    if node.None? then Failed(NodeNotFound)
    else if machine.None? then Failed(CloudPoolClientError)
    else if Trips(lib, s, Pair(node.value, machine.value)) then Crash
    else if Acceptable(lib, s, Pair(node.value, machine.value)) then Done
    else Failed(ScaleDownError)
  }

  lemma ListSucceeds(env: Env, w: World)
    requires NeverFails(env)
    ensures ListWorkerNodes(env, w) == Reply(ListWorkerNodes(env, w).w, Some(Workers(Snapshot(w.state))))
    ensures Quiet(w, ListWorkerNodes(env, w).w)
  {
    hide Snapshot, Workers, CollectInfos;
    ListWorkersReads(env, w);
    CollectSucceeds(env, Tick(w), w.state.nodes);
  }

  lemma RemoveOneWithoutFailures(env: Env, w: World, victim: Pair, decrement: bool)
    requires NeverFails(env) && UniquePods(w.state.pods) && Eligible(w.state, victim)
    ensures var r := RemoveOne(env, w, victim, decrement);
            && (r.r.Crash? <==> Trips(env.lib, w.state, victim))
            && (r.r.Done? <==> Acceptable(env.lib, w.state, victim))
            && (r.r.Failed? ==> r.r.error == ScaleDownError)
            && (r.r.Done? ==> Removed(w.state, r.w.state, {victim.node.meta.name}, {victim.machine.id},
                                      if decrement then w.state.desiredSize - 1 else w.state.desiredSize))
            && (!r.r.Done? ==> r.w.state == w.state)
  {
    hide JudgePair, EvictAndTerminate, Trips, Acceptable, Removed, Snapshot, VictimPods, UniquePods, OthersStay;
    JudgeWithoutFailures(env, w, victim);
    var log := JudgeLog(env, w, victim);
    var j := JudgePair(env, w, victim);
    if j.r.Accepted? {
      SnapshotNodes(w.state, victim.node);
      VictimPodsAreThere(w.state, victim.node);
      RemovalSucceeds(env, j.w, victim, decrement);
      RemovalFrame(env, j.w, victim, decrement);
    }
  }

  /** If no call fails, the initial state decides the outcome of a termination; a success removes the
      node and stops the machine, anything else changes nothing. */
  lemma TerminationWithoutFailures(env: Env, s: State, calls: nat, id: string, decrement: bool)
    requires NeverFails(env) && UniquePods(s.pods)
    ensures var r := TerminateMachine(env, World(s, calls, []), id, decrement);
            && r.r == TerminationOutcome(env.lib, s, id)
            && (r.r.Done? ==>
                  Removed(s, r.w.state, {NodeWithExternalID(Workers(Snapshot(s)), id).value.meta.name}, {id},
                          if decrement then s.desiredSize - 1 else s.desiredSize))
            && (!r.r.Done? ==> r.w.state == s)
  {
    hide ListWorkerNodes, RemoveOne, Snapshot, Trips, Acceptable, Removed, UniquePods;
    var w := World(s, calls, []);
    ListSucceeds(env, w);
    var nodes := ListWorkerNodes(env, w);
    var node := NodeWithExternalID(nodes.r.value, id);
    var machine := FindMachine(s.machines, id);
    if node.Some? && machine.Some? {
      RemoveOneWithoutFailures(env, GetMachine(env, nodes.w, id).w, Pair(node.value, machine.value), decrement);
    }
  }
}
