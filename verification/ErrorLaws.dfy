/** Which error a request reports, exactly, for every pattern of failing calls. */
module ErrorLaws {
  import opened Kube
  import opened Cluster
  import opened NodeScaler
  import opened Promises
  import opened PromiseLaws
  import opened VerdictLaws
  import opened CallLaws
  import opened DrainLaws
  import opened Proxy
  import opened RemovalLaws
  import opened LogLaws
  import opened OutcomeLaws
  import opened CasualtyLaws
  import opened PartitionLaws
  import opened CrashLaws

  /** The last thing on the log is a drain, a deletion or a termination that failed. */
  predicate EndsInFailure(log: seq<Event>) {
    log != [] &&
    match log[|log| - 1]
    case Drained(_, ok) => !ok
    case NodeDeleted(_, ok) => !ok
    case MachineTerminated(_, _, ok) => !ok
    case _ => false
  }

  lemma FailureEnds(env: Env, w: World, victim: Pair, decrement: bool)
    requires !EvictAndTerminate(env, w, victim, decrement).r
    ensures EndsInFailure(EvictAndTerminate(env, w, victim, decrement).w.trace)
  {
    hide MarkUnschedulable, EvictAll, RollBack, VictimPods;
  }

  lemma RemovalsEnd(env: Env, w: World, victims: seq<Pair>)
    requires Between(w.trace)
    ensures RemoveAll(env, w, victims).r <==> !EndsInFailure(RemoveAll(env, w, victims).w.trace)
  {
    hide RemoveAll, EvictAndTerminate;
    var m := Completed(env, w, victims);
    StopsAt(env, w, victims);
    AllRemovedEnds(env, w, victims[..m]);
    if m == |victims| {
      assert victims[..m] == victims;
    } else {
      FailureEnds(env, RemoveAll(env, w, victims[..m]).w, victims[m], true);
    }
  }

  lemma JudgingIsClean(log: seq<Event>)
    requires forall e :: e in log ==> e.Judged?
    ensures Between(log) && !EndsInFailure(log)
  {
    if log != [] {
      assert log[|log| - 1] in log;
    }
  }

  lemma ScaleDownErrors(env: Env, w: World, pairs: seq<Pair>, desired: int)
    requires desired < |pairs| && w.trace == []
    ensures var r := ScaleDown(env, w, pairs, desired);
            && (r.r == Failed(ScaleDownError) <==> EndsInFailure(r.w.trace))
            && (r.r.Failed? ==> r.r.error.ScaleDownError? || r.r.error.NoViableCandidate?)
            && (r.r.Failed? && r.r.error.NoViableCandidate? ==>
                  r.w.trace == [] && Answers(env.lib, w.state, Split([], r.r.error.rejections), pairs))
  {
    hide Partition, RemoveAll, Victims, Answers, ReasonFits, EndsInFailure, Between, Acceptable, Trips;
    var judged := PartitionLog(env, w, pairs);
    var split := Partition(env, w, pairs);
    assert split.w.trace == judged;
    JudgingIsClean(judged);
    if split.r.Some? {
      EveryPairIsAnswered(env, w, pairs);
      RemovalsEnd(env, split.w, Victims(env, split.r.value.candidates, |pairs| - desired));
    }
  }

  /** The error of a request for a new size tells what went wrong, and nothing else is reported:
      - the Kubernetes client error exactly if one of the 2n + 1 calls that list n nodes failed;
      - the cloudpool client error exactly if these succeeded, and the call for the pool failed or, without
        excess, the forwarded one;
      - the scale-down error exactly if the log ends with a failed drain, deletion or termination;
      - the lack of candidates only if nothing was changed, with a true reason for each pair.
      Without excess, a success has set the size and changed nothing else. */
  lemma SetSizeErrors(env: Env, s: State, calls: nat, desired: int)
    ensures var r := SetDesiredSize(env, World(s, calls, []), desired); var n := calls + 2 * |s.nodes| + 1;
            && (r.r == Failed(KubernetesClientError) <==> !Succeeds(env, calls, n))
            && (r.r == Failed(CloudPoolClientError) <==>
                Succeeds(env, calls, n) && (env.fails(n) || (desired >= |Pairs(s)| && env.fails(n + 1))))
            && (r.r == Failed(ScaleDownError) <==> EndsInFailure(r.w.trace))
            && r.r != Failed(NodeNotFound)
            && (r.r.Failed? && r.r.error.NoViableCandidate? ==>
                  desired < |Pairs(s)| && r.w.trace == [] && Answers(env.lib, s, Split([], r.r.error.rejections), Pairs(s)))
            && (desired >= |Pairs(s)| && r.r.Done? ==> r.w.state == s.(desiredSize := desired))
  {
    hide ListWorkerNodes, ScaleDown, Snapshot, Workers, PairUp, ActiveMachines, Answers;
    var w := World(s, calls, []);
    ListExactly(env, w);
    var nodes := ListWorkerNodes(env, w);
    if nodes.r.Some? {
      var machines := Read(env, nodes.w, nodes.w.state.machines);
      if machines.r.Some? && desired < |Pairs(s)| {
        ScaleDownErrors(env, machines.w, Pairs(s), desired);
      }
    }
  }

  // ---- Terminating one machine ----

  /** The worker with an external ID, as the cluster shows it. */
  ghost predicate IsWorkerWith(s: State, view: NodeView, id: string) {
    && view in Snapshot(s) && view.meta.externalID == id
    && forall p :: p in view.pods ==> !ApiServerOn(p, view.meta.name)
  }

  lemma WorkerFound(s: State, id: string)
    ensures var node := NodeWithExternalID(Workers(Snapshot(s)), id);
            && (node.Some? ==> IsWorkerWith(s, node.value, id))
            && (node.None? ==> forall view :: !IsWorkerWith(s, view, id))
  {
    hide Snapshot, IsMaster;
    var node := NodeWithExternalID(Workers(Snapshot(s)), id);
    if node.Some? {
      MastersAre(node.value);
    } else {
      forall view ensures !IsWorkerWith(s, view, id) {
        MastersAre(view);
        assert view in Snapshot(s) && !IsMaster(view) ==> view in Workers(Snapshot(s));
      }
    }
  }

  /** There is a reason against the pair, or one of the calls failed. */
  ghost predicate RefusedFor(env: Env, s: State, pair: Pair, from: nat, to: nat) {
    !Succeeds(env, from, to) || exists reason :: reason != CallFailed && ReasonFits(env.lib, s, pair, reason)
  }

  lemma RemoveOneErrors(env: Env, w: World, victim: Pair, decrement: bool)
    requires w.trace == []
    ensures var r := RemoveOne(env, w, victim, decrement);
            && (r.r == Failed(KubernetesClientError) <==> EndsInFailure(r.w.trace))
            && (r.r.Failed? ==> r.r.error.ScaleDownError? || r.r.error.KubernetesClientError?)
            && (r.r == Failed(ScaleDownError) ==>
                  r.w.trace == [] && r.w.state == w.state && RefusedFor(env, w.state, victim, w.calls, r.w.calls))
  {
    hide JudgePair, EvictAndTerminate, ReasonFits, Acceptable, Trips;
    var judged := JudgeLog(env, w, victim);
    PairRefusalFits(env, w, victim);
    var j := JudgePair(env, w, victim);
    assert j.w.trace == judged;
    if j.r.Accepted? {
      if EvictAndTerminate(env, j.w, victim, decrement).r {
        SuccessEnds(env, j.w, victim, decrement);
      } else {
        FailureEnds(env, j.w, victim, decrement);
      }
    }
  }

  /** What removing one pair does, by outcome. */
  ghost predicate RemovedOnly(s: State, r: Reply<Outcome>, victim: Pair, decrement: bool) {
    && OthersStay(s, r.w.state, Departing(victim.node))
    && (r.r.Done? ==>
          && Removed(s, r.w.state, {victim.node.meta.name}, {victim.machine.id},
                     if decrement then s.desiredSize - 1 else s.desiredSize)
          && Terminations(r.w.trace) == [MachineTerminated(victim.machine.id, decrement, true)]
          && Evicted(r.w.trace) == Departing(victim.node))
    && (!r.r.Done? ==> OnlyNode(s, r.w.state, victim.node.meta.name) && Terminations(r.w.trace) == [])
  }

  lemma RemoveOneEffect(env: Env, w: World, victim: Pair, decrement: bool)
    requires w.trace == []
    ensures RemovedOnly(w.state, RemoveOne(env, w, victim, decrement), victim, decrement)
  {
    hide JudgePair, EvictAndTerminate, Terminations, Evicted, Departing, VictimPods, OthersStay, Removed, OnlyNode, Acceptable, Trips, RemovalLogOf;
    DepartingPods(victim.node);
    var judged := JudgeLog(env, w, victim);
    var j := JudgePair(env, w, victim);
    assert j.w.trace == judged;
    AcceptancesOf(judged, []);
    NothingMoved(w.state, victim);
    if j.r.Accepted? {
      var removal := RemovalLog(env, j.w, victim, decrement);
      RemovalLogMeans(judged, removal, victim, decrement, EvictAndTerminate(env, j.w, victim, decrement).r);
      RemovalFrame(env, j.w, victim, decrement);
    }
  }

  lemma RemovalLogMeans(judged: seq<Event>, removal: seq<Event>, victim: Pair, decrement: bool, ok: bool)
    requires Terminations(judged) == [] && Evicted(judged) == [] && RemovalLogOf(removal, victim, decrement, ok)
    ensures Terminations(judged + removal) == (if ok then [MachineTerminated(victim.machine.id, decrement, true)] else [])
    ensures ok ==> Evicted(judged + removal) == VictimPods(victim.node)
  {
    hide Terminations, Evicted, VictimPods, Evictions;
    TerminationsConcat(judged, removal);
    EvictedConcat(judged, removal);
  }

  lemma NothingMoved(s: State, victim: Pair)
    ensures OnlyNode(s, s, victim.node.meta.name) && OthersStay(s, s, Departing(victim.node))
  {
  }

  /** The error of a request to terminate a machine tells what went wrong:
      - the Kubernetes client error exactly if one of the calls that list the nodes failed, or the log ends
        with a failed drain, deletion or termination;
      - the node is not found exactly if these calls succeeded and no worker has the external ID;
      - the cloudpool client error exactly if a worker has it, and the call for the machine failed or there
        is no such machine;
      - the scale-down error only if nothing was changed, for a reason that is true of the pair. */
  lemma TerminateErrors(env: Env, s: State, calls: nat, id: string, decrement: bool)
    ensures var r := TerminateMachine(env, World(s, calls, []), id, decrement); var n := calls + 2 * |s.nodes| + 1;
            && (r.r == Failed(KubernetesClientError) <==> !Succeeds(env, calls, n) || EndsInFailure(r.w.trace))
            && (r.r == Failed(NodeNotFound) <==> Succeeds(env, calls, n) && forall view :: !IsWorkerWith(s, view, id))
            && (r.r == Failed(CloudPoolClientError) <==>
                && Succeeds(env, calls, n) && (exists view :: IsWorkerWith(s, view, id))
                && (env.fails(n) || forall m :: m in s.machines ==> m.id != id))
            && (r.r.Failed? ==> !r.r.error.NoViableCandidate?)
            && (r.r == Failed(ScaleDownError) ==>
                  && r.w.trace == [] && r.w.state == s && Target(s, id).Some?
                  && RefusedFor(env, s, Target(s, id).value, calls, r.w.calls))
  {
    hide ListWorkerNodes, RemoveOne, Snapshot, Workers, ReasonFits, IsWorkerWith, FindMachine;
    var w := World(s, calls, []);
    ListExactly(env, w);
    WorkerFound(s, id);
    var nodes := ListWorkerNodes(env, w);
    if nodes.r.Some? && Target(s, id).Some? && !env.fails(nodes.w.calls) {
      var w2 := GetMachine(env, nodes.w, id).w;
      RemoveOneErrors(env, w2, Target(s, id).value, decrement);
    }
  }

  /** What a request to terminate a machine does, whatever calls fail: on success exactly the target is
      removed, after its pods were evicted; otherwise no machine is terminated, and nothing but the target's
      node and pods is touched. */
  lemma TerminateAftermath(env: Env, s: State, calls: nat, id: string, decrement: bool)
    ensures var r := TerminateMachine(env, World(s, calls, []), id, decrement);
            r.w.state != s || r.w.trace != [] || r.r.Done? ==>
              Target(s, id).Some? && Target(s, id).value.machine.id == id && RemovedOnly(s, r, Target(s, id).value, decrement)
  {
    hide ListWorkerNodes, RemoveOne, Snapshot, Workers, RemovedOnly;
    var w := World(s, calls, []);
    ListExactly(env, w);
    var nodes := ListWorkerNodes(env, w);
    if nodes.r.Some? && Target(s, id).Some? && !env.fails(nodes.w.calls) {
      var w2 := GetMachine(env, nodes.w, id).w;
      RemoveOneEffect(env, w2, Target(s, id).value, decrement);
    }
  }
}
