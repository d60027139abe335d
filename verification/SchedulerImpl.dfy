/** The quasi scheduler as it runs: its own copies of the nodes, whose pod lists grow in place. */
module SchedulerImpl {
  import opened Kube
  import opened Resources
  import opened Constraints
  import opened Scheduling

  class QuasiPodScheduler {
    const policy: Policy
    var nodes: seq<NodeInfo>

    ghost predicate Valid()
      reads this
    {
      forall i, j :: 0 <= i < j < |nodes| ==> nodes[i] != nodes[j]
    }

    function State(): seq<NodeView>
      reads this, nodes
    {
      Views(nodes)
    }

    /** Copies every node, so that later placements never reach the caller's nodes. */
    constructor (policy: Policy, source: seq<NodeInfo>)
      ensures Valid() && this.policy == policy
      ensures fresh(nodes)
      ensures State() == Views(source)
    {
      this.policy := policy;
      nodes := [];
      new;
      for i := 0 to |source|
        invariant |nodes| == i && Valid()
        invariant fresh(nodes)
        invariant forall k :: 0 <= k < i ==> nodes[k].View() == source[k].View()
      {
        var copied: seq<Pod> := [];
        for j := 0 to |source[i].pods|
          invariant copied == source[i].pods[..j]
        {
          copied := copied + [source[i].pods[j]];
        }
        var nodeCopy := new NodeInfo(source[i].meta, copied);
        nodes := nodes + [nodeCopy];
      }
    }

    method TotalFreeAmount(r: Resource) returns (total: Quantity)
      ensures total == TotalFree(State(), r)
    {
      total := 0;
      for i := 0 to |nodes|
        invariant total == TotalFree(State()[..i], r)
      {
        var free := nodes[i].FreeAmount(r);
        total := total + free;
        assert State()[..i + 1][..i] == State()[..i];
      }
      assert State()[..|nodes|] == State();
    }

    method VerifySchedulingViable(pods: seq<Pod>) returns (shortage: Option<SchedulingError>)
      ensures shortage == Precheck(State(), pods)
    {
      var neededCPU := SumRequests(pods, CPU);
      var freeCPU := TotalFreeAmount(CPU);
      if neededCPU > freeCPU {
        return Some(ClusterCapacity(CPU, neededCPU, freeCPU));
      }
      var neededMem := SumRequests(pods, Memory);
      var freeMem := TotalFreeAmount(Memory);
      if neededMem > freeMem {
        return Some(ClusterCapacity(Memory, neededMem, freeMem));
      }
      return None;
    }

    method SchedulingCandidates(pod: Pod) returns (cands: seq<nat>, rejections: map<string, Mismatch>)
      ensures cands == Candidates(policy, State(), pod)
      ensures rejections == Rejections(policy, State(), pod)
    {
      cands, rejections := [], map[];
      for i := 0 to |nodes|
        invariant cands == Candidates(policy, State()[..i], pod)
        invariant rejections == Rejections(policy, State()[..i], pod)
      {
        var mismatch := policy.check(pod, nodes[i].View());
        assert State()[..i + 1][..i] == State()[..i];
        if mismatch.Some? {
          rejections := rejections[nodes[i].meta.name := mismatch.value];
        } else {
          cands := cands + [i];
        }
      }
      assert State()[..|nodes|] == State();
    }

    /** The running minimum; `None` is the nil pointer. */
    method LeastLoadedNode(cands: seq<nat>) returns (least: Option<nat>)
      requires forall j :: 0 <= j < |cands| ==> cands[j] < |nodes|
      ensures var best := ArgMin(Loads(policy, State(), cands));
              least == if best.None? then None else Some(cands[best.value])
    {
      ghost var loads := Loads(policy, State(), cands);
      ghost var best: Option<nat> := None;
      least := None;
      var minLoad := Num(MAX_FLOAT64);
      for j := 0 to |cands|
        invariant best == ArgMin(loads[..j])
        invariant least == if best.None? then None else Some(cands[best.value])
        invariant minLoad == if best.None? then Num(MAX_FLOAT64) else loads[best.value]
      {
        var load := policy.load(nodes[cands[j]].View());
        assert loads[..j + 1][..j] == loads[..j];
        if Less(load, minLoad) {
          least, minLoad, best := Some(cands[j]), load, Some(j);
        }
      }
      assert loads[..|cands|] == loads;
    }

    /** Finds the node for a pod, without assigning it yet. */
    method FindNode(pod: Pod) returns (o: Outcome)
      ensures o == Scheduling.Schedule(policy, State(), pod)
    {
      hide Candidates, Rejections, ArgMin;
      ghost var state := State();
      if |nodes| == 0 {
        return NoSchedulableNodes;
      }
      var cands, rejections := SchedulingCandidates(pod);
      assert cands == Candidates(policy, state, pod) && rejections == Rejections(policy, state, pod);
      if |cands| == 0 {
        return Unplaceable(rejections);
      }
      var leastLoaded := LeastLoadedNode(cands);
      return if leastLoaded.None? then NilDereference else Placed(leastLoaded.value);
    }

    /** Places one pod. A success appends the pod to exactly one node; a failure changes nothing. */
    method Schedule(pod: Pod) returns (o: Outcome)
      requires Valid()
      modifies nodes
      ensures Valid() && nodes == old(nodes)
      ensures o == Scheduling.Schedule(policy, old(State()), pod)
      ensures o.Placed? ==> State() == Place(old(State()), o.node, pod)
      ensures !o.Placed? ==> State() == old(State())
    {
      hide Scheduling.Schedule;
      o := FindNode(pod);
      if o.Placed? {
        nodes[o.node].pods := nodes[o.node].pods + [pod];
      }
    }
  }

  /** Schedules the pods in order until one of them fails. */
  method SchedulePods(scheduler: QuasiPodScheduler, pods: seq<Pod>) returns (plan: Plan)
    requires scheduler.Valid()
    modifies scheduler.nodes
    ensures plan == ScheduleAll(scheduler.policy, old(scheduler.State()), pods)
  {
    ghost var start := scheduler.State();
    var policy := scheduler.policy;
    plan := Planned(scheduler.State(), []);
    for i := 0 to |pods|
      invariant scheduler.Valid() && scheduler.nodes == old(scheduler.nodes)
      invariant plan.Planned? && plan.nodes == scheduler.State()
      invariant plan == ScheduleAll(policy, start, pods[..i])
    {
      ScheduleAllSnoc(policy, start, pods, i);
      var o := scheduler.Schedule(pods[i]);
      plan := Extend(plan, pods[i], o);
      if !o.Placed? {
        FailureEndsPlan(policy, start, pods, i + 1);
        return;
      }
    }
    assert pods[..|pods|] == pods;
  }

  /** The evacuation check: the aggregate check, then one pod after the other on copied nodes. It
      modifies nothing that the caller can see. */
  method VerifyEvacuationFeasibility(lib: Library, pods: seq<Pod>, nodes: seq<NodeInfo>) returns (plan: Plan)
    ensures plan == VerifyEvacuation(lib, Views(nodes), pods)
  {
    ghost var start := Views(nodes);
    var policy := Standard(lib);
    var scheduler := new QuasiPodScheduler(policy, nodes);
    assert scheduler.State() == start;
    var shortage := scheduler.VerifySchedulingViable(pods);
    if shortage.Some? {
      return Infeasible(shortage.value);
    }
    plan := SchedulePods(scheduler, pods);
    assert Views(nodes) == start;
  }

  lemma ScheduleAllSnoc(policy: Policy, nodes: seq<NodeView>, pods: seq<Pod>, i: nat)
    requires i < |pods| && ScheduleAll(policy, nodes, pods[..i]).Planned?
    ensures var sofar := ScheduleAll(policy, nodes, pods[..i]);
            ScheduleAll(policy, nodes, pods[..i + 1])
            == Extend(sofar, pods[i], Scheduling.Schedule(policy, sofar.nodes, pods[i]))
  {
    assert pods[..i + 1][..i] == pods[..i];
  }

  /** Once a pod has failed, the pods after it make no difference. */
  lemma {:induction false} FailureEndsPlan(policy: Policy, nodes: seq<NodeView>, pods: seq<Pod>, i: nat)
    requires i <= |pods| && !ScheduleAll(policy, nodes, pods[..i]).Planned?
    ensures ScheduleAll(policy, nodes, pods) == ScheduleAll(policy, nodes, pods[..i])
    decreases |pods|
  {
    if i == |pods| {
      assert pods[..i] == pods;
    } else {
      var k := |pods| - 1;
      assert pods[..k][..i] == pods[..i];
      FailureEndsPlan(policy, nodes, pods[..k], i);
    }
  }
}
