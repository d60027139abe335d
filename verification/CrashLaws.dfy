/** When a request panics, in terms of the state in which it starts, and clusters on which none does. */
module CrashLaws {
  import opened Kube
  import opened Resources
  import opened SchedulingLaws
  import opened Cluster
  import opened NodeScaler
  import opened Promises
  import opened VerdictLaws
  import opened DrainLaws
  import opened Proxy
  import opened RunLaws
  import opened RequestLaws
  import opened SizeLaws
  import opened LogLaws
  import opened OutcomeLaws
  import opened ResizeLaws
  import opened PartitionLaws
  import opened SuccessLaws

  /** The pair that a request to terminate a machine is about. */
  function Target(s: State, id: string): Option<Pair> {
    var node := NodeWithExternalID(Workers(Snapshot(s)), id);
    var machine := FindMachine(s.machines, id);
    if node.None? || machine.None? then None else Some(Pair(node.value, machine.value))
  }

  /** A pair that the request judges trips the verdict: any pair if there is excess, or the target. */
  ghost predicate CrashesOn(lib: Library, s: State, request: Request) {
    match request
    case SetSize(desired) => desired < |Pairs(s)| && exists p :: p in Pairs(s) && Trips(lib, s, p)
    case Terminate(id, _) => Target(s, id).Some? && Trips(lib, s, Target(s, id).value)
  }

  lemma SetSizeCrash(env: Env, s: State, calls: nat, desired: int)
    ensures SetDesiredSize(env, World(s, calls, []), desired).r.Crash? ==> CrashesOn(env.lib, s, SetSize(desired))
  {
    hide SetDesiredSize, Partition, RemoveAll, Trips, Acceptable, Pairs;
    var w := SetSizeCases(env, s, calls, desired);
    if SetDesiredSize(env, World(s, calls, []), desired).r.Crash? {
      var log := PartitionLog(env, w, Pairs(s));
    }
  }

  lemma TerminateCrash(env: Env, s: State, calls: nat, id: string, decrement: bool)
    ensures TerminateMachine(env, World(s, calls, []), id, decrement).r.Crash? ==>
            CrashesOn(env.lib, s, Terminate(id, decrement))
  {
    hide GetNodeInfos, JudgePair, EvictAndTerminate, Snapshot, Workers, Trips, Acceptable;
    var w := World(s, calls, []);
    ListWorkersReads(env, w);
    var nodes := ListWorkerNodes(env, w);
    if TerminateMachine(env, w, id, decrement).r.Crash? {
      var machine := GetMachine(env, nodes.w, id);
      var log := JudgeLog(env, machine.w, Target(s, id).value);
    }
  }

  /** Whatever calls fail, a request panics only on a state that it crashes on. */
  lemma CrashMeans(env: Env, s: State, calls: nat, request: Request)
    requires Run(env, World(s, calls, []), request).r.Crash?
    ensures CrashesOn(env.lib, s, request)
  {
    hide SetDesiredSize, TerminateMachine, CrashesOn;
    match request
    case SetSize(desired) => SetSizeCrash(env, s, calls, desired);
    case Terminate(id, decrement) => TerminateCrash(env, s, calls, id, decrement);
  }

  /** If no call fails, it panics exactly then. */
  lemma CrashExactly(env: Env, s: State, calls: nat, request: Request)
    requires NeverFails(env)
    ensures Run(env, World(s, calls, []), request).r.Crash? <==> CrashesOn(env.lib, s, request)
  {
    hide SetDesiredSize, TerminateMachine, Pairs, Trips, Target, Partition, RemoveAll;
    if Run(env, World(s, calls, []), request).r.Crash? {
      CrashMeans(env, s, calls, request);
    }
    match request
    case SetSize(desired) =>
      var w := ReadsSucceed(env, s, calls, desired);
      PartitionWithoutFailures(env, w, Pairs(s));
    case Terminate(id, decrement) =>
      if CrashesOn(env.lib, s, request) {
        TerminateCrashes(env, s, calls, id, decrement);
      }
  }

  lemma TerminateCrashes(env: Env, s: State, calls: nat, id: string, decrement: bool)
    requires NeverFails(env) && CrashesOn(env.lib, s, Terminate(id, decrement))
    ensures TerminateMachine(env, World(s, calls, []), id, decrement).r.Crash?
  {
    hide ListWorkerNodes, JudgePair, EvictAndTerminate, Snapshot, Workers, Trips;
    var w := World(s, calls, []);
    ListSucceeds(env, w);
    var nodes := ListWorkerNodes(env, w);
    JudgeWithoutFailures(env, GetMachine(env, nodes.w, id).w, Target(s, id).value);
  }

  // ---- Healthy clusters ----

  lemma TargetIsEligible(s: State, id: string)
    requires Target(s, id).Some?
    ensures Eligible(s, Target(s, id).value)
  {
    hide Snapshot, IsMaster;
  }

  /** No request panics on a healthy cluster, whatever calls fail. */
  lemma HealthyNeverCrashes(env: Env, s: State, calls: nat, request: Request)
    requires env.lib.RoundsUp() && Healthy(s)
    ensures !Run(env, World(s, calls, []), request).r.Crash?
  {
    hide Run, Healthy, TripsOn, Target, Snapshot, Pairs;
    if Run(env, World(s, calls, []), request).r.Crash? {
      CrashMeans(env, s, calls, request);
      var p := TrippingPair(env.lib, s, request);
      HealthyNeverTrips(env.lib, s, p.node);
    }
  }

  lemma TrippingPair(lib: Library, s: State, request: Request) returns (p: Pair)
    requires CrashesOn(lib, s, request)
    ensures p.node in Snapshot(s) && TripsOn(lib, s, p.node)
  {
    hide Snapshot, TripsOn, Target;
    PairsAreEligible(s);
    match request
    case SetSize(_) =>
      p :| p in Pairs(s) && Trips(lib, s, p);
    case Terminate(id, _) =>
      TargetIsEligible(s, id);
      p := Target(s, id).value;
  }

  lemma HealthySnapshotPod(s: State, view: NodeView, pod: Pod)
    requires Healthy(s) && view in Snapshot(s) && pod in Departing(view)
    ensures HealthyPod(pod)
  {
    HealthyView(s, view);
  }

  lemma RecreatedIsHealthy(pod: Pod, other: Pod)
    requires HealthyPod(pod) && Recreated(other, pod)
    ensures HealthyPod(other)
  {
    assert forall r :: PodRequest(other, r) == PodRequest(pod, r);
  }

  lemma EvictionKeepsHealthy(lib: Library, s: State, past: seq<Event>, now: State, e: Event)
    requires Healthy(s) && Healthy(now) && Justified(lib, s, past, now, e) && e.PodEvicted?
    ensures Healthy(Effect(now, e))
  {
    hide HasCapacity, HealthyPod, Snapshot, Departing, Vetted, Tainted;
    if e.ok {
      var j :| j in past && Sustained(lib, s, j) && j.pair.node.meta.name == e.host && e.pod in Departing(j.pair.node);
      HealthySnapshotPod(s, j.pair.node, e.pod);
      if e.respawn.Some? {
        RecreatedIsHealthy(e.pod, e.respawn.value);
      }
    }
  }

  lemma EffectKeepsHealthy(lib: Library, s: State, past: seq<Event>, now: State, e: Event)
    requires Healthy(s) && Healthy(now) && Justified(lib, s, past, now, e)
    ensures Healthy(Effect(now, e))
  {
    hide HealthyPod, Sustained, EvictedAll, Tainted;
    match e
    case NodeUpdated(node, ok) =>
      assert HasCapacity(FindNode(now.nodes, node.name).value);
    case PodEvicted(_, _, _, _) => EvictionKeepsHealthy(lib, s, past, now, e);
    case _ =>
  }

  lemma {:induction false} LogKeepsHealthy(lib: Library, s: State, now: State, log: seq<Event>)
    requires Healthy(s) && Accountable(lib, s, now, log)
    ensures Healthy(now)
    decreases |log|
  {
    hide Justified, Healthy;
    if log != [] {
      var k := |log| - 1;
      AccountablePrefix(lib, s, now, log, k);
      LogKeepsHealthy(lib, s, Replay(s, log[..k]), log[..k]);
      EffectKeepsHealthy(lib, s, log[..k], Replay(s, log[..k]), log[k]);
    }
  }

  /** A request keeps a healthy cluster healthy, whatever calls fail. */
  lemma RunKeepsHealthy(env: Env, s: State, calls: nat, request: Request)
    requires Permutes(env) && Healthy(s)
    ensures Healthy(Run(env, World(s, calls, []), request).w.state)
  {
    hide Run, Healthy, Accountable;
    RequestAccountable(env, s, calls, request);
    var r := Run(env, World(s, calls, []), request);
    LogKeepsHealthy(env.lib, s, r.w.state, r.w.trace);
  }
}
