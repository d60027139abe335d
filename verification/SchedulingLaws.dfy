/** What the quasi scheduler guarantees: loads of candidates, the choice of the least loaded one,
    sound placements, conservation of capacity, lasting rejections, and the harmlessness of the
    aggregate check. */
module SchedulingLaws {
  import opened Kube
  import opened Resources
  import opened Constraints
  import opened Scheduling

  // ---- Loads ----

  /** Amounts the API server accepts: nothing negative. */
  ghost predicate NonNegative(node: NodeView) {
    NonNegativeRequests(node.pods) && forall r :: 0 <= Allocatable(node.meta, r)
  }

  predicate HasCapacity(node: Node) {
    0 < Allocatable(node, CPU) && 0 < Allocatable(node, Memory)
  }

  lemma FractionBounds(f: Quantity -> int, total: Quantity, free: Quantity)
    requires Rounding(f) && 0 <= free <= total
    ensures total == 0 ==> Quotient(f(total) - f(free), f(total)) == NaN
    ensures 0 < total ==> var q := Quotient(f(total) - f(free), f(total)); q.Num? && 0.0 <= q.value <= 1.0
  {
    assert f(0) <= f(free) <= f(total);
    if 0 < total {
      var a, b := (f(total) - f(free)) as real, f(total) as real;
      assert 0.0 <= a <= b && 0.0 < b;
      assert a / b * b == a;
      assert 0.0 <= a / b <= 1.0;
    }
  }

  /** A node that some pod fits on has a load between 0 and 2, whatever the rounding, unless one of
      its allocatable amounts is zero: then its load is not a number. */
  lemma LoadOfFittingNode(lib: Library, pod: Pod, node: NodeView)
    requires lib.RoundsUp() && NonNegative(node) && NonNegativeRequests([pod]) && Fits(pod, node)
    ensures HasCapacity(node.meta) ==>
              NodeLoad(lib, node).Num? && 0.0 <= NodeLoad(lib, node).value <= 2.0
    ensures !HasCapacity(node.meta) ==> NodeLoad(lib, node) == NaN
  {
    assert pod in [pod];
    forall r ensures 0 <= Free(node, r) <= Allocatable(node.meta, r) {
      TotalRequestNonNegative(node.pods, r);
      assert 0 <= PodRequest(pod, r) <= Free(node, r);
    }
    FractionBounds(lib.milli, Allocatable(node.meta, CPU), Free(node, CPU));
    FractionBounds(lib.whole, Allocatable(node.meta, Memory), Free(node, Memory));
  }

  /** The load, without division: the sum of the fractions of CPU and memory that are not free, CPU in
      milli-units and memory in whole units, rounded as the library does. */
  lemma LoadExactly(lib: Library, node: NodeView)
    requires lib.RoundsUp() && HasCapacity(node.meta)
    ensures var load := NodeLoad(lib, node);
            var cpu, freeCPU := lib.milli(Allocatable(node.meta, CPU)) as real, lib.milli(Free(node, CPU)) as real;
            var mem, freeMem := lib.whole(Allocatable(node.meta, Memory)) as real, lib.whole(Free(node, Memory)) as real;
            && load.Num? && cpu > 0.0 && mem > 0.0
            && load.value * (cpu * mem) == (cpu - freeCPU) * mem + (mem - freeMem) * cpu
  {
    var cpu, freeCPU := lib.milli(Allocatable(node.meta, CPU)) as real, lib.milli(Free(node, CPU)) as real;
    var mem, freeMem := lib.whole(Allocatable(node.meta, Memory)) as real, lib.whole(Free(node, Memory)) as real;
    SumOfFractions(cpu - freeCPU, cpu, mem - freeMem, mem);
  }

  lemma SumOfFractions(a: real, b: real, c: real, d: real)
    requires b > 0.0 && d > 0.0
    ensures (a / b + c / d) * (b * d) == a * d + c * b
  {
    var x, y := a / b, c / d;
    assert x * b == a && y * d == c;
    calc {
      (x + y) * (b * d);
      x * (b * d) + y * (b * d);
      (x * b) * d + (y * d) * b;
    }
  }

  lemma FractionOrder(a: real, b: real, t: real)
    requires t > 0.0 && a <= b
    ensures a / t <= b / t && (a < b ==> a / t < b / t)
  {
    var x, y := a / t, b / t;
    assert x * t == a && y * t == b;
    assert (y - x) * t == b - a;
  }

  /** Loads order nodes of equal metadata by what is not free: the less free, the higher the load. */
  lemma LoadOrder(lib: Library, a: NodeView, b: NodeView)
    requires lib.RoundsUp() && HasCapacity(a.meta) && a.meta == b.meta
    requires lib.milli(Free(a, CPU)) <= lib.milli(Free(b, CPU)) && lib.whole(Free(a, Memory)) <= lib.whole(Free(b, Memory))
    ensures !Less(NodeLoad(lib, a), NodeLoad(lib, b))
    ensures lib.milli(Free(a, CPU)) < lib.milli(Free(b, CPU)) || lib.whole(Free(a, Memory)) < lib.whole(Free(b, Memory)) ==>
              Less(NodeLoad(lib, b), NodeLoad(lib, a))
  {
    hide Free, Allocatable;
    var cpu, mem := lib.milli(Allocatable(a.meta, CPU)), lib.whole(Allocatable(a.meta, Memory));
    assert 0 < cpu && 0 < mem by {
      CapacityCounts(lib, a.meta);
    }
    FractionOrder((cpu - lib.milli(Free(b, CPU))) as real, (cpu - lib.milli(Free(a, CPU))) as real, cpu as real);
    FractionOrder((mem - lib.whole(Free(b, Memory))) as real, (mem - lib.whole(Free(a, Memory))) as real, mem as real);
  }

  lemma CapacityCounts(lib: Library, node: Node)
    requires lib.RoundsUp() && HasCapacity(node)
    ensures 0 < lib.milli(Allocatable(node, CPU)) && 0 < lib.whole(Allocatable(node, Memory))
  {
  }

  /** So a node with less free CPU and memory never counts as less loaded. */
  lemma LessFreeIsMoreLoad(lib: Library, a: NodeView, b: NodeView)
    requires lib.RoundsUp() && HasCapacity(a.meta) && a.meta == b.meta && forall r :: Free(a, r) <= Free(b, r)
    ensures !Less(NodeLoad(lib, a), NodeLoad(lib, b))
  {
    hide Free, Allocatable, NodeLoad;
    LoadOrder(lib, a, b);
  }

  /** An empty node has load 0, a node with nothing free has load 2, and one that is full in one resource
      and empty in the other has load 1. */
  lemma LoadCorners(lib: Library, node: NodeView)
    requires lib.RoundsUp() && HasCapacity(node.meta)
    ensures (forall r :: TotalRequest(node.pods, r) == 0) ==> NodeLoad(lib, node) == Num(0.0)
    ensures (forall r :: Free(node, r) == 0) ==> NodeLoad(lib, node) == Num(2.0)
    ensures TotalRequest(node.pods, CPU) == 0 && Free(node, Memory) == 0 ==> NodeLoad(lib, node) == Num(1.0)
    ensures Free(node, CPU) == 0 && TotalRequest(node.pods, Memory) == 0 ==> NodeLoad(lib, node) == Num(1.0)
  {
    var cpu, mem := lib.milli(Allocatable(node.meta, CPU)), lib.whole(Allocatable(node.meta, Memory));
    CapacityCounts(lib, node.meta);
    assert (cpu - 0) as real / cpu as real == 1.0 && (mem - 0) as real / mem as real == 1.0;
    assert 0.0 / cpu as real == 0.0 && 0.0 / mem as real == 0.0;
  }

  /** Placing a pod never lowers the load of its node. */
  lemma PlacingRaisesLoad(lib: Library, nodes: seq<NodeView>, i: nat, pod: Pod)
    requires lib.RoundsUp() && i < |nodes| && HasCapacity(nodes[i].meta) && NonNegativeRequests([pod])
    ensures !Less(NodeLoad(lib, Place(nodes, i, pod)[i]), NodeLoad(lib, nodes[i]))
  {
    forall r ensures Free(Place(nodes, i, pod)[i], r) <= Free(nodes[i], r) {
      TotalRequestSnoc(nodes[i].pods, pod, r);
      assert pod in [pod];
      assert 0 <= PodRequest(pod, r);
    }
    hide NodeLoad, HasCapacity;
    LessFreeIsMoreLoad(lib, Place(nodes, i, pod)[i], nodes[i]);
  }

  // ---- The least loaded candidate ----

  predicate Comparable(l: Load) {
    Less(l, Num(MAX_FLOAT64))
  }

  /** Load `j` is usable, no load is smaller, and every usable earlier one is larger. */
  ghost predicate FirstMinimum(loads: seq<Load>, j: nat) {
    && j < |loads|
    && Comparable(loads[j])
    && (forall i :: 0 <= i < |loads| ==> !Less(loads[i], loads[j]))
    && (forall i :: 0 <= i < j && Comparable(loads[i]) ==> Less(loads[j], loads[i]))
  }

  /** The running minimum finds the first candidate of minimal load, and finds none exactly when no
      candidate has a load below the start value. */
  lemma {:induction false} ArgMinIsFirstMinimum(loads: seq<Load>)
    ensures ArgMin(loads).None? <==> forall i :: 0 <= i < |loads| ==> !Comparable(loads[i])
    ensures ArgMin(loads).Some? ==> FirstMinimum(loads, ArgMin(loads).value)
  {
    if loads != [] {
      var k := |loads| - 1;
      var front := loads[..k];
      ArgMinIsFirstMinimum(front);
      assert forall i :: 0 <= i < k ==> loads[i] == front[i];
    }
  }

  lemma CandidateLoad(lib: Library, node: NodeView, pod: Pod)
    requires lib.RoundsUp() && NonNegativeRequests([pod]) && NonNegative(node) && Check(lib, pod, node).None?
    ensures Comparable(NodeLoad(lib, node)) <==> HasCapacity(node.meta)
  {
    CheckAccepts(lib, pod, node);
    LoadOfFittingNode(lib, pod, node);
  }

  /** The chosen node is the first candidate of minimal load. */
  lemma ScheduleChoosesLeastLoaded(policy: Policy, nodes: seq<NodeView>, pod: Pod) returns (j: nat)
    requires Schedule(policy, nodes, pod).Placed?
    ensures FirstMinimum(Loads(policy, nodes, Candidates(policy, nodes, pod)), j)
    ensures Schedule(policy, nodes, pod).node == Candidates(policy, nodes, pod)[j]
  {
    var loads := Loads(policy, nodes, Candidates(policy, nodes, pod));
    ArgMinIsFirstMinimum(loads);
    j := ArgMin(loads).value;
  }

  /** Some node would take the pod, but none of those has a load below the start value of the minimum. */
  ghost predicate Stuck(policy: Policy, nodes: seq<NodeView>, pod: Pod) {
    var cands := Candidates(policy, nodes, pod);
    cands != [] && forall i :: 0 <= i < |cands| ==> !Comparable(policy.load(nodes[cands[i]]))
  }

  /** What comes of a scheduling call, case by case: an error if there are no nodes, the reasons if every
      node rejects the pod, a nil dereference if the pod is stuck, and otherwise the first candidate of
      minimal load. */
  lemma ScheduleOutcomes(policy: Policy, nodes: seq<NodeView>, pod: Pod)
    ensures var o := Schedule(policy, nodes, pod); var cands := Candidates(policy, nodes, pod);
            && (o == NoSchedulableNodes <==> nodes == [])
            && (o.Unplaceable? <==> nodes != [] && forall i :: 0 <= i < |nodes| ==> policy.check(pod, nodes[i]).Some?)
            && (o.Unplaceable? ==> o.mismatches == Rejections(policy, nodes, pod))
            && (o == NilDereference <==> Stuck(policy, nodes, pod))
            && (o.Placed? ==>
                  exists j :: 0 <= j < |cands| && o.node == cands[j] && FirstMinimum(Loads(policy, nodes, cands), j))
  {
    hide Candidates, Rejections, ArgMin;
    NoCandidates(policy, nodes, pod);
    var cands := Candidates(policy, nodes, pod);
    var loads := Loads(policy, nodes, cands);
    assert forall i :: 0 <= i < |cands| ==> loads[i] == policy.load(nodes[cands[i]]);
    ArgMinIsFirstMinimum(loads);
  }

  /** Scheduling panics exactly when there are candidates but each of them lacks allocatable CPU or
      memory. */
  lemma SchedulePanicsExactly(lib: Library, nodes: seq<NodeView>, pod: Pod)
    requires lib.RoundsUp() && NonNegativeRequests([pod])
    requires forall n :: n in nodes ==> NonNegative(n)
    ensures var cands := Candidates(Standard(lib), nodes, pod);
            Schedule(Standard(lib), nodes, pod) == NilDereference <==>
            cands != [] && forall i :: 0 <= i < |cands| ==> !HasCapacity(nodes[cands[i]].meta)
  {
    var cands := Candidates(Standard(lib), nodes, pod);
    var loads := Loads(Standard(lib), nodes, cands);
    forall i | 0 <= i < |cands|
      ensures Comparable(loads[i]) <==> HasCapacity(nodes[cands[i]].meta)
    {
      assert nodes[cands[i]] in nodes;
      CandidateLoad(lib, nodes[cands[i]], pod);
    }
    ArgMinIsFirstMinimum(loads);
  }

  /** A concrete cluster on which scheduling panics: one node that reports no allocatable amounts. */
  lemma NilDereferenceHappens(lib: Library, node: Node, pod: Pod)
    requires lib.RoundsUp()
    requires node.allocatable == map[] && node.taints == []
    requires pod.containers == [] && pod.nodeSelector == map[] && pod.affinity == None
    ensures Schedule(Standard(lib), [NodeView(node, [])], pod) == NilDereference
  {
    var view := NodeView(node, []);
    CheckAccepts(lib, pod, view);
    assert [view][..0] == [];
    assert Candidates(Standard(lib), [view], pod) == [0];
    SchedulePanicsExactly(lib, [view], pod);
  }

  // ---- Rejection reasons ----

  ghost predicate Explains(policy: Policy, nodes: seq<NodeView>, pod: Pod, name: string, why: Mismatch) {
    exists n :: n in nodes && n.meta.name == name && policy.check(pod, n) == Some(why)
  }

  /** Every rejected node gets a reason, and each reason is one that a node of that name was
      rejected for. */
  lemma {:induction false} RejectionsExplainEachNode(policy: Policy, nodes: seq<NodeView>, pod: Pod)
    ensures forall n :: n in nodes && policy.check(pod, n).Some? ==> n.meta.name in Rejections(policy, nodes, pod)
    ensures forall name :: name in Rejections(policy, nodes, pod) ==>
              Explains(policy, nodes, pod, name, Rejections(policy, nodes, pod)[name])
  {
    if nodes != [] {
      var k := |nodes| - 1;
      RejectionsExplainEachNode(policy, nodes[..k], pod);
      var rest := Rejections(policy, nodes[..k], pod);
      assert forall n :: n in nodes <==> n in nodes[..k] || n == nodes[k];
      forall name | name in rest
        ensures Explains(policy, nodes, pod, name, rest[name])
      {
        var n :| n in nodes[..k] && n.meta.name == name && policy.check(pod, n) == Some(rest[name]);
        assert n in nodes;
      }
    }
  }

  /** Under the standard policy every reason given for a node is true of a node of that name. */
  lemma RejectionsFit(lib: Library, nodes: seq<NodeView>, pod: Pod, name: string)
    requires name in Rejections(Standard(lib), nodes, pod)
    ensures exists n :: n in nodes && n.meta.name == name && Fitting(lib, pod, n, Rejections(Standard(lib), nodes, pod)[name])
  {
    hide Rejections, Fitting, Check;
    RejectionsExplainEachNode(Standard(lib), nodes, pod);
    var why := Rejections(Standard(lib), nodes, pod)[name];
    assert Explains(Standard(lib), nodes, pod, name, why);
    var n :| n in nodes && n.meta.name == name && Check(lib, pod, n) == Some(why);
    ReasonFitsMismatch(lib, pod, n);
  }

  // ---- Sound placements ----

  /** Adding a pod to a node that passes every predicate keeps a placement valid. */
  lemma ValidPlacementSnoc(lib: Library, nodes: seq<NodeView>, pods: seq<Pod>, placement: seq<nat>, pod: Pod, i: nat)
    requires ValidPlacement(lib, nodes, pods, placement) && i < |nodes|
    requires Fits(pod, PlaceAll(nodes, pods, placement)[i]) && Admits(lib, pod, nodes[i].meta)
    ensures ValidPlacement(lib, nodes, pods + [pod], placement + [i])
  {
    hide Admits, PlaceAll, TotalRequest, Allocatable, PodRequest;
    var pods', placement' := pods + [pod], placement + [i];
    assert pods'[..|pods|] == pods && placement'[..|pods|] == placement;
    forall j, r | j in placement'
      ensures TotalRequest(nodes[j].pods, r) + Assigned(pods', placement', j, r) <= Allocatable(nodes[j].meta, r)
    {
      if j == i {
        assert PodRequest(pod, r) <= Free(PlaceAll(nodes, pods, placement)[i], r);
      } else {
        assert j in placement;
      }
    }
  }

  /** A policy that accepts only nodes with room that admit the pod. */
  ghost predicate Sound(lib: Library, policy: Policy) {
    forall p, n :: policy.check(p, n).None? ==> Fits(p, n) && Admits(lib, p, n.meta)
  }

  lemma StandardIsSound(lib: Library)
    ensures Sound(lib, Standard(lib))
  {
    forall p, n ensures Check(lib, p, n).None? ==> Fits(p, n) && Admits(lib, p, n.meta) {
      CheckAccepts(lib, p, n);
      PermitsExactly(lib, p, n.meta);
    }
  }

  /** Whatever the scheduler plans is a valid placement of every pod, and the nodes it ends with
      are the start nodes with the pods put where the plan says. */
  lemma {:induction false} PlansAreValid(lib: Library, policy: Policy, nodes: seq<NodeView>, pods: seq<Pod>)
    requires Sound(lib, policy)
    requires ScheduleAll(policy, nodes, pods).Planned?
    ensures var plan := ScheduleAll(policy, nodes, pods);
            ValidPlacement(lib, nodes, pods, plan.placement) && plan.nodes == PlaceAll(nodes, pods, plan.placement)
  {
    hide Candidates, Rejections, Loads, ArgMin;
    if pods != [] {
      var k := |pods| - 1;
      PlansAreValid(lib, policy, nodes, pods[..k]);
      var before := ScheduleAll(policy, nodes, pods[..k]);
      var o := Schedule(policy, before.nodes, pods[k]);
      ValidPlacementSnoc(lib, nodes, pods[..k], before.placement, pods[k], o.node);
      assert pods[..k] + [pods[k]] == pods;
      assert (before.placement + [o.node])[..k] == before.placement;
    }
  }

  /** No error from the evacuation check means that a valid placement exists. */
  lemma EvacuationHasPlacement(lib: Library, nodes: seq<NodeView>, pods: seq<Pod>)
    requires VerifyEvacuation(lib, nodes, pods).Planned?
    ensures exists placement :: ValidPlacement(lib, nodes, pods, placement)
  {
    StandardIsSound(lib);
    PlansAreValid(lib, Standard(lib), nodes, pods);
  }

  // ---- When a plan panics ----

  lemma PlanSnoc(policy: Policy, nodes: seq<NodeView>, pods: seq<Pod>)
    requires pods != []
    ensures var k := |pods| - 1; var sofar := ScheduleAll(policy, nodes, pods[..k]);
            ScheduleAll(policy, nodes, pods).Crashed? <==>
            sofar.Crashed? || (sofar.Planned? && Stuck(policy, sofar.nodes, pods[k]))
  {
    hide Candidates, Rejections, ArgMin, Loads, Stuck;
    var k := |pods| - 1;
    var sofar := ScheduleAll(policy, nodes, pods[..k]);
    if sofar.Planned? {
      ScheduleOutcomes(policy, sofar.nodes, pods[k]);
    }
  }

  /** The first pods can be placed, and then the next one is stuck. */
  ghost predicate GetsStuckAt(policy: Policy, nodes: seq<NodeView>, pods: seq<Pod>, k: nat)
    requires k < |pods|
  {
    var plan := ScheduleAll(policy, nodes, pods[..k]);
    plan.Planned? && Stuck(policy, plan.nodes, pods[k])
  }

  ghost predicate GetsStuck(policy: Policy, nodes: seq<NodeView>, pods: seq<Pod>) {
    exists k :: 0 <= k < |pods| && GetsStuckAt(policy, nodes, pods, k)
  }

  lemma {:induction false} PlanPanicsExactly(policy: Policy, nodes: seq<NodeView>, pods: seq<Pod>)
    ensures ScheduleAll(policy, nodes, pods).Crashed? <==> GetsStuck(policy, nodes, pods)
  {
    hide ScheduleAll, Stuck;
    if pods == [] {
      NothingPlanned(policy, nodes);
    } else {
      var n := |pods| - 1;
      var front := pods[..n];
      PlanPanicsExactly(policy, nodes, front);
      PlanSnoc(policy, nodes, pods);
      assert forall k :: 0 <= k < n ==> front[..k] == pods[..k] && front[k] == pods[k];
      assert forall k :: 0 <= k < n ==> (GetsStuckAt(policy, nodes, front, k) <==> GetsStuckAt(policy, nodes, pods, k));
      assert GetsStuckAt(policy, nodes, pods, n) <==>
             ScheduleAll(policy, nodes, front).Planned? && Stuck(policy, ScheduleAll(policy, nodes, front).nodes, pods[n]);
    }
  }

  lemma NothingPlanned(policy: Policy, nodes: seq<NodeView>)
    ensures ScheduleAll(policy, nodes, []).Planned?
  {
  }

  /** The evacuation check panics exactly when the pods pass the aggregate check and one of them is stuck
      after those before it were placed. */
  lemma EvacuationPanicsExactly(lib: Library, nodes: seq<NodeView>, pods: seq<Pod>)
    ensures VerifyEvacuation(lib, nodes, pods).Crashed? <==>
            Precheck(nodes, pods).None? && GetsStuck(Standard(lib), nodes, pods)
  {
    hide ScheduleAll, Precheck, GetsStuck;
    PlanPanicsExactly(Standard(lib), nodes, pods);
  }

  /** Placing pods keeps a node's metadata, and its amounts non-negative. */
  lemma {:induction false} PlacedStaysNonNegative(lib: Library, nodes: seq<NodeView>, pods: seq<Pod>)
    requires NonNegativeRequests(pods) && (forall n :: n in nodes ==> NonNegative(n))
    requires ScheduleAll(Standard(lib), nodes, pods).Planned?
    ensures var after := ScheduleAll(Standard(lib), nodes, pods).nodes;
            forall i :: 0 <= i < |nodes| ==> after[i].meta == nodes[i].meta && NonNegative(after[i])
  {
    hide Schedule;
    if pods != [] {
      var k := |pods| - 1;
      PlacedStaysNonNegative(lib, nodes, pods[..k]);
      assert pods[k] in pods;
    } else {
      forall i | 0 <= i < |nodes| ensures NonNegative(nodes[i]) {
        assert nodes[i] in nodes;
      }
    }
  }

  /** A pod is stuck exactly when there are candidates and each of them, as reported by the cluster, lacks
      allocatable CPU or memory. */
  lemma StuckMeansNoCapacity(lib: Library, nodes: seq<NodeView>, pods: seq<Pod>, k: nat)
    requires lib.RoundsUp() && NonNegativeRequests(pods) && (forall n :: n in nodes ==> NonNegative(n)) && k < |pods|
    ensures GetsStuckAt(Standard(lib), nodes, pods, k) <==>
            var plan := ScheduleAll(Standard(lib), nodes, pods[..k]);
            && plan.Planned?
            && var cands := Candidates(Standard(lib), plan.nodes, pods[k]);
               cands != [] && forall i :: 0 <= i < |cands| ==> !HasCapacity(nodes[cands[i]].meta)
  {
    hide ScheduleAll, Schedule, HasCapacity, Candidates;
    var plan := ScheduleAll(Standard(lib), nodes, pods[..k]);
    if plan.Planned? {
      PlacedStaysNonNegative(lib, nodes, pods[..k]);
      var pod := pods[k];
      assert NonNegativeRequests([pod]) by {
        assert pod in pods;
      }
      forall n | n in plan.nodes ensures NonNegative(n) {
        var i :| 0 <= i < |plan.nodes| && plan.nodes[i] == n;
      }
      SchedulePanicsExactly(lib, plan.nodes, pod);
      ScheduleOutcomes(Standard(lib), plan.nodes, pod);
    }
  }

  /** So with capacity everywhere the evacuation check never panics. */
  lemma CapacityPreventsPanic(lib: Library, nodes: seq<NodeView>, pods: seq<Pod>)
    requires lib.RoundsUp() && NonNegativeRequests(pods)
    requires forall n :: n in nodes ==> NonNegative(n) && HasCapacity(n.meta)
    ensures !VerifyEvacuation(lib, nodes, pods).Crashed?
  {
    hide ScheduleAll, Candidates, HasCapacity, GetsStuckAt;
    EvacuationPanicsExactly(lib, nodes, pods);
    forall k | 0 <= k < |pods| ensures !GetsStuckAt(Standard(lib), nodes, pods, k) {
      StuckMeansNoCapacity(lib, nodes, pods, k);
      var plan := ScheduleAll(Standard(lib), nodes, pods[..k]);
      if plan.Planned? {
        var cands := Candidates(Standard(lib), plan.nodes, pods[k]);
        if cands != [] {
          assert nodes[cands[0]] in nodes;
          assert HasCapacity(nodes[cands[0]].meta);
        }
      }
    }
  }

  // ---- What an error says ----

  /** Pod `k` is the one that could not be placed: those before it could, every node turns it down in the
      state they leave, and each reason is true of a node of that name. */
  ghost predicate UnplaceableAt(lib: Library, nodes: seq<NodeView>, pods: seq<Pod>, k: nat, why: map<string, Mismatch>)
    requires k < |pods|
  {
    var plan := ScheduleAll(Standard(lib), nodes, pods[..k]);
    && plan.Planned?
    && (forall n :: n in plan.nodes ==> Check(lib, pods[k], n).Some? && n.meta.name in why)
    && (forall name :: name in why ==>
          exists n :: n in plan.nodes && n.meta.name == name && Fitting(lib, pods[k], n, why[name]))
  }

  /** The error of the evacuation check is true of the nodes and the pods, amounts included. */
  ghost predicate ErrorFits(lib: Library, nodes: seq<NodeView>, pods: seq<Pod>, error: SchedulingError) {
    match error
    case NoNodes => nodes == [] && pods != []
    case ClusterCapacity(r, wanted, free) => wanted == TotalRequest(pods, r) && free == TotalFree(nodes, r) && wanted > free
    case PodUnplaceable(name, why) =>
      exists k :: 0 <= k < |pods| && pods[k].name == name && UnplaceableAt(lib, nodes, pods, k, why)
  }

  lemma UnplaceableNow(lib: Library, nodes: seq<NodeView>, pods: seq<Pod>)
    requires pods != [] && var sofar := ScheduleAll(Standard(lib), nodes, pods[..|pods| - 1]);
             sofar.Planned? && Schedule(Standard(lib), sofar.nodes, pods[|pods| - 1]).Unplaceable?
    ensures var k := |pods| - 1; var sofar := ScheduleAll(Standard(lib), nodes, pods[..k]);
            UnplaceableAt(lib, nodes, pods, k, Schedule(Standard(lib), sofar.nodes, pods[k]).mismatches)
  {
    hide ScheduleAll, Schedule, Rejections, Candidates, Check, Fitting;
    var k := |pods| - 1;
    var now := ScheduleAll(Standard(lib), nodes, pods[..k]).nodes;
    ScheduleOutcomes(Standard(lib), now, pods[k]);
    RejectionsExplainEachNode(Standard(lib), now, pods[k]);
    forall name | name in Rejections(Standard(lib), now, pods[k])
      ensures exists n :: n in now && n.meta.name == name && Fitting(lib, pods[k], n, Rejections(Standard(lib), now, pods[k])[name])
    {
      RejectionsFit(lib, now, pods[k], name);
    }
    forall n | n in now ensures Check(lib, pods[k], n).Some? {
      var i :| 0 <= i < |now| && now[i] == n;
    }
  }

  lemma {:induction false} PlanErrorFits(lib: Library, nodes: seq<NodeView>, pods: seq<Pod>)
    requires ScheduleAll(Standard(lib), nodes, pods).Infeasible?
    ensures ErrorFits(lib, nodes, pods, ScheduleAll(Standard(lib), nodes, pods).error)
  {
    hide Schedule, Check, UnplaceableAt, TotalRequest, TotalFree;
    var k := |pods| - 1;
    var front := pods[..k];
    var sofar := ScheduleAll(Standard(lib), nodes, front);
    if sofar.Planned? {
      ScheduleOutcomes(Standard(lib), sofar.nodes, pods[k]);
      if Schedule(Standard(lib), sofar.nodes, pods[k]).Unplaceable? {
        UnplaceableNow(lib, nodes, pods);
      }
    } else {
      PlanErrorFits(lib, nodes, front);
      PlanNotCapacity(lib, nodes, front);
      if sofar.error.PodUnplaceable? {
        var i :| 0 <= i < |front| && front[i].name == sofar.error.pod && UnplaceableAt(lib, nodes, front, i, sofar.error.mismatches);
        SameUnplaceable(lib, nodes, pods, k, i, sofar.error.mismatches);
      }
    }
  }

  lemma SameUnplaceable(lib: Library, nodes: seq<NodeView>, pods: seq<Pod>, k: nat, i: nat, why: map<string, Mismatch>)
    requires i < k <= |pods| && UnplaceableAt(lib, nodes, pods[..k], i, why)
    ensures UnplaceableAt(lib, nodes, pods, i, why)
  {
    assert pods[..k][..i] == pods[..i];
  }

  lemma {:induction false} PlanNotCapacity(lib: Library, nodes: seq<NodeView>, pods: seq<Pod>)
    ensures var plan := ScheduleAll(Standard(lib), nodes, pods); plan.Infeasible? ==> !plan.error.ClusterCapacity?
  {
    hide Schedule;
    if pods != [] {
      PlanNotCapacity(lib, nodes, pods[..|pods| - 1]);
    }
  }

  lemma EvacuationErrorFits(lib: Library, nodes: seq<NodeView>, pods: seq<Pod>)
    requires VerifyEvacuation(lib, nodes, pods).Infeasible?
    ensures ErrorFits(lib, nodes, pods, VerifyEvacuation(lib, nodes, pods).error)
  {
    hide ScheduleAll, TotalRequest, TotalFree, UnplaceableAt;
    if Precheck(nodes, pods).None? {
      PlanErrorFits(lib, nodes, pods);
    }
  }

  // ---- Conservation ----

  lemma {:induction false} TotalFreePlace(nodes: seq<NodeView>, i: nat, pod: Pod, r: Resource)
    requires i < |nodes|
    ensures TotalFree(Place(nodes, i, pod), r) == TotalFree(nodes, r) - PodRequest(pod, r)
  {
    var k := |nodes| - 1;
    var after := Place(nodes, i, pod);
    TotalRequestSnoc(nodes[i].pods, pod, r);
    if i == k {
      assert after[..k] == nodes[..k];
    } else {
      TotalFreePlace(nodes[..k], i, pod, r);
      assert after[..k] == Place(nodes[..k], i, pod);
    }
  }

  lemma {:induction false} TotalFreePlaceAll(nodes: seq<NodeView>, pods: seq<Pod>, placement: seq<nat>, r: Resource)
    requires |placement| == |pods|
    requires forall k :: 0 <= k < |pods| ==> placement[k] < |nodes|
    ensures TotalFree(PlaceAll(nodes, pods, placement), r) == TotalFree(nodes, r) - TotalRequest(pods, r)
  {
    if pods != [] {
      var k := |pods| - 1;
      TotalFreePlaceAll(nodes, pods[..k], placement[..k], r);
      TotalFreePlace(PlaceAll(nodes, pods[..k], placement[..k]), placement[k], pods[k], r);
    }
  }

  /** The nodes after a series of scheduling calls, successful or not. */
  function AfterCalls(policy: Policy, nodes: seq<NodeView>, pods: seq<Pod>): (after: seq<NodeView>)
    ensures |after| == |nodes|
  {
    if pods == [] then nodes
    else
      var before := AfterCalls(policy, nodes, pods[..|pods| - 1]);
      var pod := pods[|pods| - 1];
      var o := Schedule(policy, before, pod);
      if o.Placed? then Place(before, o.node, pod) else before
  }

  /** The pods that those calls found a node for. */
  function PlacedPods(policy: Policy, nodes: seq<NodeView>, pods: seq<Pod>): seq<Pod> {
    if pods == [] then []
    else
      var k := |pods| - 1;
      PlacedPods(policy, nodes, pods[..k]) +
      if Schedule(policy, AfterCalls(policy, nodes, pods[..k]), pods[k]).Placed? then [pods[k]] else []
  }

  /** Free capacity is conserved over any series of calls: the total shrinks by exactly what the
      placed pods request. */
  lemma {:induction false} CapacityConserved(policy: Policy, nodes: seq<NodeView>, pods: seq<Pod>, r: Resource)
    ensures TotalFree(AfterCalls(policy, nodes, pods), r)
            == TotalFree(nodes, r) - TotalRequest(PlacedPods(policy, nodes, pods), r)
  {
    if pods != [] {
      var k := |pods| - 1;
      CapacityConserved(policy, nodes, pods[..k], r);
      var before := AfterCalls(policy, nodes, pods[..k]);
      var o := Schedule(policy, before, pods[k]);
      if o.Placed? {
        TotalFreePlace(before, o.node, pods[k], r);
        TotalRequestSnoc(PlacedPods(policy, nodes, pods[..k]), pods[k], r);
      } else {
        assert PlacedPods(policy, nodes, pods[..k]) + [] == PlacedPods(policy, nodes, pods[..k]);
      }
    }
  }

  /** Over any series of calls metadata stays and free capacity does not grow on any node. */
  lemma {:induction false} FreeNeverGrows(policy: Policy, nodes: seq<NodeView>, pods: seq<Pod>)
    requires NonNegativeRequests(pods)
    ensures forall i :: 0 <= i < |nodes| ==> AfterCalls(policy, nodes, pods)[i].meta == nodes[i].meta
    ensures forall i, r :: 0 <= i < |nodes| ==> Free(AfterCalls(policy, nodes, pods)[i], r) <= Free(nodes[i], r)
  {
    hide Schedule, Allocatable, TotalRequest, PodRequest;
    if pods != [] {
      var k := |pods| - 1;
      FreeNeverGrows(policy, nodes, pods[..k]);
      var before := AfterCalls(policy, nodes, pods[..k]);
      var o := Schedule(policy, before, pods[k]);
      if o.Placed? {
        forall r ensures Free(Place(before, o.node, pods[k])[o.node], r) <= Free(before[o.node], r) {
          TotalRequestSnoc(before[o.node].pods, pods[k], r);
          assert 0 <= PodRequest(pods[k], r);
        }
      }
    }
  }

  /** Nobody is a candidate exactly when every node is rejected. */
  lemma {:induction false} NoCandidates(policy: Policy, nodes: seq<NodeView>, pod: Pod)
    ensures Candidates(policy, nodes, pod) == [] <==> forall i :: 0 <= i < |nodes| ==> policy.check(pod, nodes[i]).Some?
  {
    if nodes != [] {
      var k := |nodes| - 1;
      NoCandidates(policy, nodes[..k], pod);
      assert forall i :: 0 <= i < k ==> nodes[..k][i] == nodes[i];
    }
  }

  lemma RejectionKept(lib: Library, pod: Pod, before: NodeView, after: NodeView)
    requires after.meta == before.meta && forall r :: Free(after, r) <= Free(before, r)
    requires Check(lib, pod, before).Some?
    ensures Check(lib, pod, after).Some?
  {
    CheckAccepts(lib, pod, before);
    CheckAccepts(lib, pod, after);
    if Fits(pod, after) {
      forall r ensures PodRequest(pod, r) <= Free(before, r) {
        assert PodRequest(pod, r) <= Free(after, r) <= Free(before, r);
      }
    }
  }

  /** A pod that every node rejects is still rejected after any further series of calls. */
  lemma RejectionIsPermanent(lib: Library, nodes: seq<NodeView>, pod: Pod, pods: seq<Pod>)
    requires NonNegativeRequests(pods)
    requires Schedule(Standard(lib), nodes, pod).Unplaceable?
    ensures Schedule(Standard(lib), AfterCalls(Standard(lib), nodes, pods), pod).Unplaceable?
  {
    FreeNeverGrows(Standard(lib), nodes, pods);
    var after := AfterCalls(Standard(lib), nodes, pods);
    NoCandidates(Standard(lib), nodes, pod);
    forall i | 0 <= i < |nodes|
      ensures Check(lib, pod, after[i]).Some?
    {
      RejectionKept(lib, pod, nodes[i], after[i]);
    }
    NoCandidates(Standard(lib), after, pod);
  }

  // ---- The aggregate check ----

  ghost predicate NotOvercommitted(nodes: seq<NodeView>) {
    forall n, r :: n in nodes ==> 0 <= Free(n, r)
  }

  lemma {:induction false} TotalFreeNonNegative(nodes: seq<NodeView>, r: Resource)
    requires NotOvercommitted(nodes)
    ensures 0 <= TotalFree(nodes, r)
  {
    if nodes != [] {
      TotalFreeNonNegative(nodes[..|nodes| - 1], r);
      assert nodes[|nodes| - 1] in nodes;
    }
  }

  /** The aggregate check never rejects a group of pods for which some assignment within the
      capacities exists, found by the scheduler or not. */
  lemma PrecheckRejectsOnlyHopelessPods(nodes: seq<NodeView>, pods: seq<Pod>, placement: seq<nat>)
    requires NotOvercommitted(nodes) && FitsTogether(nodes, pods, placement)
    ensures Precheck(nodes, pods).None?
  {
    var after := PlaceAll(nodes, pods, placement);
    forall r ensures TotalRequest(pods, r) <= TotalFree(nodes, r) {
      forall n, q | n in after ensures 0 <= Free(n, q) {
        var i :| 0 <= i < |after| && after[i] == n;
        if i !in placement {
          UnassignedIsZero(pods, placement, i, q);
          assert nodes[i] in nodes;
          assert 0 <= Free(nodes[i], q);
        }
      }
      TotalFreeNonNegative(after, r);
      TotalFreePlaceAll(nodes, pods, placement, r);
    }
  }

  lemma {:induction false} UnassignedIsZero(pods: seq<Pod>, placement: seq<nat>, i: nat, r: Resource)
    requires |placement| == |pods| && i !in placement
    ensures Assigned(pods, placement, i, r) == 0
  {
    if pods != [] {
      var k := |pods| - 1;
      UnassignedIsZero(pods[..k], placement[..k], i, r);
      assert placement[k] in placement;
    }
  }

  /** Leaving the aggregate check out would not change which pods are accepted. */
  lemma PrecheckIsTransparent(lib: Library, nodes: seq<NodeView>, pods: seq<Pod>)
    requires NotOvercommitted(nodes)
    ensures VerifyEvacuation(lib, nodes, pods).Planned? <==> ScheduleAll(Standard(lib), nodes, pods).Planned?
  {
    if ScheduleAll(Standard(lib), nodes, pods).Planned? {
      StandardIsSound(lib);
      PlansAreValid(lib, Standard(lib), nodes, pods);
      PrecheckRejectsOnlyHopelessPods(nodes, pods, ScheduleAll(Standard(lib), nodes, pods).placement);
    }
  }

  /** On any cluster, over-committed or not: pods that can be placed are accepted exactly when they
      request no more than the free amounts of all nodes sum up to, over-committed nodes counting as
      negative; that is, when what is left after placing them does not sum up to less than zero. */
  lemma PrecheckExactly(lib: Library, nodes: seq<NodeView>, pods: seq<Pod>)
    requires ScheduleAll(Standard(lib), nodes, pods).Planned?
    ensures VerifyEvacuation(lib, nodes, pods).Planned? <==> Suffices(nodes, pods)
    ensures Suffices(nodes, pods) <==> Suffices(ScheduleAll(Standard(lib), nodes, pods).nodes, [])
  {
    hide ScheduleAll, Precheck;
    PrecheckSums(nodes, pods);
    var after := ScheduleAll(Standard(lib), nodes, pods).nodes;
    forall r ensures TotalRequest([], r) <= TotalFree(after, r) <==> TotalRequest(pods, r) <= TotalFree(nodes, r) {
      PlanConserves(lib, nodes, pods, r);
    }
  }

  ghost predicate Suffices(nodes: seq<NodeView>, pods: seq<Pod>) {
    forall r :: TotalRequest(pods, r) <= TotalFree(nodes, r)
  }

  lemma PlanConserves(lib: Library, nodes: seq<NodeView>, pods: seq<Pod>, r: Resource)
    requires ScheduleAll(Standard(lib), nodes, pods).Planned?
    ensures TotalFree(ScheduleAll(Standard(lib), nodes, pods).nodes, r) == TotalFree(nodes, r) - TotalRequest(pods, r)
  {
    hide ScheduleAll;
    StandardIsSound(lib);
    PlansAreValid(lib, Standard(lib), nodes, pods);
    TotalFreePlaceAll(nodes, pods, ScheduleAll(Standard(lib), nodes, pods).placement, r);
  }

  lemma PrecheckSums(nodes: seq<NodeView>, pods: seq<Pod>)
    ensures Precheck(nodes, pods).None? <==> Suffices(nodes, pods)
  {
    if Precheck(nodes, pods).None? {
      forall r ensures TotalRequest(pods, r) <= TotalFree(nodes, r) {
        assert r == CPU || r == Memory;
      }
    } else {
      assert TotalRequest(pods, CPU) > TotalFree(nodes, CPU) || TotalRequest(pods, Memory) > TotalFree(nodes, Memory);
    }
  }

  /** With an over-committed node the aggregate check can reject even the evacuation of no pods. It need
      not, if other nodes make up for the deficit. */
  lemma OvercommitMakesPrecheckReject(lib: Library, node: NodeView)
    requires Free(node, CPU) < 0
    ensures ScheduleAll(Standard(lib), [node], []).Planned? && VerifyEvacuation(lib, [node], []).Infeasible?
  {
    assert [node][..0] == [];
    assert TotalFree([node], CPU) == Free(node, CPU);
  }
}
