/** What an accepted verdict is worth: it is a function of one snapshot of the cluster, and it
    implies that each pod to be evicted is movable, within its budgets, and has a place to go. */
module VerdictLaws {
  import opened Kube
  import opened Resources
  import opened Scheduling
  import opened SchedulingLaws
  import opened Cluster
  import opened NodeScaler
  import opened Promises
  import opened PromiseLaws

  // ---- One snapshot ----

  function ViewOf(s: State, node: Node): NodeView {
    var found := FindNode(s.nodes, node.name);
    NodeView(if found.Some? then found.value else node, PodsOn(s, node.name))
  }

  function SnapshotOf(s: State, nodes: seq<Node>): (views: seq<NodeView>)
    ensures |views| == |nodes|
    ensures forall i :: 0 <= i < |nodes| ==> views[i] == ViewOf(s, nodes[i])
  {
    seq(|nodes|, i requires 0 <= i < |nodes| => ViewOf(s, nodes[i]))
  }

  /** All nodes with their pods, as a run of successful reads sees them. */
  function Snapshot(s: State): seq<NodeView> {
    SnapshotOf(s, s.nodes)
  }

  lemma {:induction false} CollectReadsSnapshot(env: Env, w: World, nodes: seq<Node>)
    ensures var c := CollectInfos(env, w, nodes);
            Quiet(w, c.w) && (c.r.Some? ==> c.r.value == SnapshotOf(w.state, nodes))
  {
    hide PodsOn, FindNode;
    if nodes != [] {
      CollectReadsSnapshot(env, w, nodes[..|nodes| - 1]);
    }
  }

  /** Reading the nodes changes nothing, and yields the snapshot unless a call fails. */
  lemma ReadsSnapshot(env: Env, w: World)
    ensures var g := GetNodeInfos(env, w);
            Quiet(w, g.w) && (g.r.Some? ==> g.r.value == Snapshot(w.state))
  {
    CollectReadsSnapshot(env, Tick(w), w.state.nodes);
  }

  /** The verdict on a node if no call fails. */
  function SnapshotVerdict(lib: Library, s: State, node: NodeView): Verdict {
    if IsProtected(node.meta) then Refused(Protected)
    else
      var early := EarlyVerdict(node, Snapshot(s));
      if early.Some? then early.value else LateVerdict(lib, node, Snapshot(s), s.budgets)
  }

  /** The pair would be a candidate if no call failed. */
  predicate Acceptable(lib: Library, s: State, pair: Pair) {
    pair.machine.evictable && SnapshotVerdict(lib, s, pair.node).Accepted?
  }

  /** Judging changes nothing. Whatever calls fail, the verdict is the one for the snapshot, or a
      refusal that blames a failed call. */
  lemma VerdictIsOfSnapshot(env: Env, w: World, node: NodeView)
    ensures var v := IsScaleDownCandidate(env, w, node);
            && Quiet(w, v.w)
            && (v.r == SnapshotVerdict(env.lib, w.state, node) || v.r == Refused(CallFailed))
  {
    ReadsSnapshot(env, w);
  }

  ghost predicate NeverFails(env: Env) {
    forall i :: !env.fails(i)
  }

  lemma {:induction false} CollectSucceeds(env: Env, w: World, nodes: seq<Node>)
    requires NeverFails(env) && forall n :: n in nodes ==> FindNode(w.state.nodes, n.name).Some?
    ensures CollectInfos(env, w, nodes).r.Some?
  {
    if nodes != [] {
      CollectReadsSnapshot(env, w, nodes[..|nodes| - 1]);
      CollectSucceeds(env, w, nodes[..|nodes| - 1]);
    }
  }

  /** Without failing calls the verdict is exactly the one for the snapshot. */
  lemma VerdictWithoutFailures(env: Env, w: World, node: NodeView)
    requires NeverFails(env)
    ensures IsScaleDownCandidate(env, w, node).r == SnapshotVerdict(env.lib, w.state, node)
  {
    ReadsSnapshot(env, w);
    forall n | n in w.state.nodes ensures FindNode(w.state.nodes, n.name).Some? { }
    CollectSucceeds(env, Tick(w), w.state.nodes);
  }

  // ---- Movable pods ----

  /** The controller loop finds a controller exactly when one comes before any unset flag, and hits
      a nil flag exactly when one comes before any controller. */
  lemma {:induction false} ControllerLoop(owners: seq<Option<bool>>)
    ensures ControllerIn(owners) == Some(true) <==> FirstFlag(owners, Some(true))
    ensures ControllerIn(owners) == None <==> FirstFlag(owners, None)
  {
    if owners != [] && owners[0] == Some(false) {
      ControllerLoop(owners[1..]);
      ShiftFirst(owners, Some(true));
      ShiftFirst(owners, None);
    }
  }

  lemma ShiftFirst(owners: seq<Option<bool>>, x: Option<bool>)
    requires owners != [] && owners[0] == Some(false) && x != Some(false)
    ensures FirstFlag(owners, x) <==> FirstFlag(owners[1..], x)
  {
    var rest := owners[1..];
    if FirstFlag(owners, x) {
      var j :| 0 <= j < |owners| && owners[j] == x && forall i :: 0 <= i < j ==> owners[i] == Some(false);
      assert rest[j - 1] == x;
      assert forall i :: 0 <= i < j - 1 ==> rest[i] == owners[i + 1];
    }
    if FirstFlag(rest, x) {
      var j :| 0 <= j < |rest| && rest[j] == x && forall i :: 0 <= i < j ==> rest[i] == Some(false);
      assert owners[j + 1] == x;
      assert forall i :: 0 < i < j + 1 ==> owners[i] == rest[i - 1];
    }
  }

  lemma FirstPodMovable(pods: seq<Pod>)
    requires pods != []
    ensures MoveObstacle(pods).None? <==> Portable(pods[0]) && MoveObstacle(pods[1..]).None?
  {
    ControllerLoop(pods[0].owners);
    assert HasLocalStorage(pods[0]) <==> KeepsData(pods[0]);
  }

  lemma {:induction false} NoObstacleMeansMovable(pods: seq<Pod>)
    ensures MoveObstacle(pods).None? <==> forall p :: p in pods ==> Portable(p)
    ensures MoveObstacle(pods).Some? ==> !MoveObstacle(pods).value.Accepted?
  {
    if pods != [] {
      NoObstacleMeansMovable(pods[1..]);
      FirstPodMovable(pods);
      assert forall p :: p in pods <==> p == pods[0] || p in pods[1..];
    }
  }

  /** Going through the pods, the check comes to an unset controller flag: the pods before are movable, and
      this one has no local storage, and an unset flag before any controller. */
  ghost predicate MeetsUnsetFlag(pods: seq<Pod>) {
    exists k :: 0 <= k < |pods| && UnsetFlagAt(pods, k)
  }

  ghost predicate UnsetFlagAt(pods: seq<Pod>, k: nat)
    requires k < |pods|
  {
    && !KeepsData(pods[k]) && FirstFlag(pods[k].owners, None)
    && forall i :: 0 <= i < k ==> Portable(pods[i])
  }

  lemma {:induction false} MovePanicsExactly(pods: seq<Pod>)
    ensures MoveObstacle(pods) == Some(Panic) <==> MeetsUnsetFlag(pods)
  {
    if pods != [] {
      hide KeepsData, FirstFlag, Portable;
      var rest := pods[1..];
      MovePanicsExactly(rest);
      FirstPodPanics(pods);
      ShiftUnsetFlag(pods);
    }
  }

  lemma FirstPodPanics(pods: seq<Pod>)
    requires pods != []
    ensures MoveObstacle(pods) == Some(Panic) <==>
            UnsetFlagAt(pods, 0) || (Portable(pods[0]) && MoveObstacle(pods[1..]) == Some(Panic))
  {
    ControllerLoop(pods[0].owners);
  }

  lemma ShiftUnsetFlag(pods: seq<Pod>)
    requires pods != []
    ensures MeetsUnsetFlag(pods) <==> UnsetFlagAt(pods, 0) || (Portable(pods[0]) && MeetsUnsetFlag(pods[1..]))
  {
    hide KeepsData, FirstFlag, Portable;
    var rest := pods[1..];
    forall k | 0 <= k < |rest| ensures UnsetFlagAt(pods, k + 1) <==> Portable(pods[0]) && UnsetFlagAt(rest, k) {
      assert forall i :: 0 <= i < k ==> rest[i] == pods[i + 1];
      if Portable(pods[0]) && UnsetFlagAt(rest, k) {
        forall i | 0 <= i < k + 1 ensures Portable(pods[i]) {
          assert i > 0 ==> pods[i] == rest[i - 1];
        }
      }
      if UnsetFlagAt(pods, k + 1) {
        assert Portable(pods[0]);
        forall i | 0 <= i < k ensures Portable(rest[i]) {
          assert rest[i] == pods[i + 1];
        }
      }
    }
    if MeetsUnsetFlag(pods) {
      var k :| 0 <= k < |pods| && UnsetFlagAt(pods, k);
      if k > 0 {
        assert UnsetFlagAt(pods, (k - 1) + 1);
        assert UnsetFlagAt(rest, k - 1);
      }
    }
    if Portable(pods[0]) && MeetsUnsetFlag(rest) {
      var k :| 0 <= k < |rest| && UnsetFlagAt(rest, k);
      assert UnsetFlagAt(pods, k + 1);
    }
  }

  // ---- Disruption budgets ----

  /** Counting one by one gives the number of pods that the selector matches. */
  lemma {:induction false} CountIsMatching(lib: Library, budget: Budget, pods: seq<Pod>)
    ensures CountCovered(lib, budget, pods) == |Matching(lib, budget, pods)|
  {
    if pods != [] {
      var k := |pods| - 1;
      CountIsMatching(lib, budget, pods[..k]);
      MatchingSnoc(lib, budget, pods);
    }
  }

  lemma MatchingSnoc(lib: Library, budget: Budget, pods: seq<Pod>)
    requires pods != []
    ensures var k := |pods| - 1; var before := Matching(lib, budget, pods[..k]);
            && k !in before
            && Matching(lib, budget, pods)
               == if lib.selectorMatches(budget.selector, pods[k].labels) then before + {k} else before
  {
    var k := |pods| - 1;
    assert forall i :: 0 <= i < k ==> pods[..k][i] == pods[i];
  }

  lemma {:induction false} NoObstacleMeansWithin(lib: Library, budgets: seq<Budget>, pods: seq<Pod>)
    ensures BudgetObstacle(lib, budgets, pods).None? <==> forall b :: b in budgets ==> Allows(lib, b, pods)
  {
    if budgets != [] {
      NoObstacleMeansWithin(lib, budgets[1..], pods);
      CountIsMatching(lib, budgets[0], pods);
      assert BudgetObstacle(lib, budgets, pods).None? <==>
             Allows(lib, budgets[0], pods) && BudgetObstacle(lib, budgets[1..], pods).None?;
      assert forall b :: b in budgets <==> b == budgets[0] || b in budgets[1..];
    }
  }

  /** No prefix of the pods is covered more often than all of them. */
  lemma {:induction false} CountCoveredPrefix(lib: Library, budget: Budget, pods: seq<Pod>, k: nat)
    requires k <= |pods|
    ensures CountCovered(lib, budget, pods[..k]) <= CountCovered(lib, budget, pods)
    decreases |pods|
  {
    if k == |pods| {
      assert pods[..k] == pods;
    } else {
      CountCoveredPrefix(lib, budget, pods[..|pods| - 1], k);
      assert pods[..|pods| - 1][..k] == pods[..k];
    }
  }

  // ---- What acceptance means ----

  /** The node's owner has not opted out; the evidence is the part of the snapshot that may receive its
      pods, and all disruption budgets; each pod that has to leave can be moved; the budgets allow all of
      them to be disrupted; and there is a placement of them on the receiving nodes within capacities and
      constraints. */
  ghost predicate Vetted(lib: Library, s: State, node: NodeView, evidence: Evidence) {
    && !OptedOut(node.meta)
    && evidence.remaining == Receivers(Snapshot(s), node.meta.name) && evidence.remaining != []
    && evidence.budgets == s.budgets
    && (forall p :: p in Departing(node) ==> Portable(p))
    && (forall b :: b in evidence.budgets ==> |Matching(lib, b, Departing(node))| <= b.allowed)
    && (exists placement :: ValidPlacement(lib, evidence.remaining, Departing(node), placement))
  }

  /** A verdict is positive exactly when every check passes. */
  lemma AcceptedExactly(lib: Library, s: State, node: NodeView)
    ensures SnapshotVerdict(lib, s, node).Accepted? <==>
            && !OptedOut(node.meta)
            && Receivers(Snapshot(s), node.meta.name) != []
            && (forall p :: p in Departing(node) ==> Portable(p))
            && (forall b :: b in s.budgets ==> Allows(lib, b, Departing(node)))
            && VerifyEvacuation(lib, Receivers(Snapshot(s), node.meta.name), Departing(node)).Planned?
  {
    hide Snapshot, MoveObstacle, BudgetObstacle, VerifyEvacuation, Departing, Receivers, VictimPods, Remaining, Portable, Allows;
    DepartingPods(node);
    RemainingReceive(Snapshot(s), node.meta.name);
    NoObstacleMeansMovable(Departing(node));
    NoObstacleMeansWithin(lib, s.budgets, Departing(node));
  }

  /** The evidence that an acceptance names. */
  lemma AcceptedEvidence(lib: Library, s: State, node: NodeView)
    requires SnapshotVerdict(lib, s, node).Accepted?
    ensures SnapshotVerdict(lib, s, node).evidence == Evidence(Receivers(Snapshot(s), node.meta.name), s.budgets)
  {
    hide Snapshot, MoveObstacle, BudgetObstacle, VerifyEvacuation, Departing, Receivers, VictimPods, Remaining, Portable;
    RemainingReceive(Snapshot(s), node.meta.name);
    NoObstacleMeansMovable(VictimPods(node));
  }

  /** What makes a verdict panic: the node's owner has not opted out and there are other nodes to go to, and
      either the movability check comes to an unset controller flag, or movability and budgets are fine, the
      pods pass the aggregate check, and one of them gets stuck: it has candidates, but none with a load. */
  ghost predicate TripsOn(lib: Library, s: State, node: NodeView) {
    var receivers, pods := Receivers(Snapshot(s), node.meta.name), Departing(node);
    && !OptedOut(node.meta) && receivers != []
    && (|| MeetsUnsetFlag(pods)
        || (&& (forall p :: p in pods ==> Portable(p))
            && (forall b :: b in s.budgets ==> Allows(lib, b, pods))
            && Precheck(receivers, pods).None? && GetsStuck(Standard(lib), receivers, pods)))
  }

  /** Judging the pair panics if no call fails. */
  ghost predicate Trips(lib: Library, s: State, pair: Pair) {
    pair.machine.evictable && TripsOn(lib, s, pair.node)
  }

  /** A verdict panics exactly when the node trips it. */
  lemma VerdictPanicsExactly(lib: Library, s: State, node: NodeView)
    ensures SnapshotVerdict(lib, s, node).Panic? <==> TripsOn(lib, s, node)
  {
    hide VerifyEvacuation, GetsStuck, Precheck, MeetsUnsetFlag, MoveObstacle, BudgetObstacle, VictimPods, Departing,
         Remaining, Receivers, Allows, Portable, IsProtected, OptedOut, Snapshot;
    var pods, receivers := Departing(node), Receivers(Snapshot(s), node.meta.name);
    DepartingPods(node);
    RemainingReceive(Snapshot(s), node.meta.name);
    ProtectionIs(node.meta);
    NoObstacleMeansMovable(pods);
    NoObstacleMeansWithin(lib, s.budgets, pods);
    MovePanicsExactly(pods);
    EvacuationPanicsExactly(lib, receivers, pods);
  }

  /** A cluster that no verdict panics on: every node has allocatable CPU and memory, no request is
      negative, and every controller flag is set. */
  ghost predicate Healthy(s: State) {
    && (forall n :: n in s.nodes ==> HasCapacity(n))
    && (forall p :: p in s.pods ==> HealthyPod(p))
  }

  ghost predicate HealthyPod(pod: Pod) {
    None !in pod.owners && forall r :: 0 <= PodRequest(pod, r)
  }

  lemma HealthyView(s: State, view: NodeView)
    requires Healthy(s) && view in Snapshot(s)
    ensures HasCapacity(view.meta) && NonNegative(view) && forall p :: p in view.pods ==> HealthyPod(p)
  {
    var i :| 0 <= i < |s.nodes| && Snapshot(s)[i] == view;
    assert view.meta in s.nodes by {
      assert s.nodes[i] in s.nodes;
    }
    assert forall p :: p in view.pods ==> p in s.pods;
    forall r ensures 0 <= Allocatable(view.meta, r) {
      assert r == CPU || r == Memory;
    }
  }

  lemma HealthyNeverTrips(lib: Library, s: State, node: NodeView)
    requires lib.RoundsUp() && Healthy(s) && node in Snapshot(s)
    ensures !TripsOn(lib, s, node)
  {
    hide Snapshot, Healthy, HasCapacity, GetsStuck, Precheck, Portable, Allows, KeepsData, NonNegative;
    var pods, remaining := Departing(node), Receivers(Snapshot(s), node.meta.name);
    HealthyView(s, node);
    assert NonNegativeRequests(pods);
    forall n | n in remaining ensures NonNegative(n) && HasCapacity(n.meta) {
      HealthyView(s, n);
    }
    CapacityPreventsPanic(lib, remaining, pods);
    EvacuationPanicsExactly(lib, remaining, pods);
    forall k | 0 <= k < |pods| ensures !UnsetFlagAt(pods, k) {
      assert pods[k] in pods;
    }
  }

  /** An accepted node is vetted, by the evidence the verdict names. */
  lemma AcceptedIsVetted(lib: Library, s: State, node: NodeView)
    requires SnapshotVerdict(lib, s, node).Accepted?
    ensures Vetted(lib, s, node, SnapshotVerdict(lib, s, node).evidence)
  {
    hide SnapshotVerdict, Snapshot, VerifyEvacuation, ValidPlacement, Departing, Receivers, Portable, OptedOut, Matching;
    AcceptedExactly(lib, s, node);
    AcceptedEvidence(lib, s, node);
    EvacuationHasPlacement(lib, Receivers(Snapshot(s), node.meta.name), Departing(node));
    forall b | b in s.budgets ensures |Matching(lib, b, Departing(node))| <= b.allowed {
      assert Allows(lib, b, Departing(node));
    }
  }

  /** While a vetted node is drained, every prefix of the evictions is within each budget. */
  lemma VettedPrefixWithinBudget(lib: Library, s: State, node: NodeView, evidence: Evidence, k: nat, budget: Budget)
    requires Vetted(lib, s, node, evidence) && k <= |Departing(node)| && budget in evidence.budgets
    ensures |Matching(lib, budget, Departing(node)[..k])| <= budget.allowed
  {
    CountCoveredPrefix(lib, budget, Departing(node), k);
    CountIsMatching(lib, budget, Departing(node)[..k]);
    CountIsMatching(lib, budget, Departing(node));
  }

  // ---- What a refusal says ----

  /** Pod `k` is the first one that cannot be moved. */
  ghost predicate FirstFixed(pods: seq<Pod>, k: nat) {
    k < |pods| && forall i :: 0 <= i < k ==> Portable(pods[i])
  }

  /** Budget `k` is the first one that does not allow the pods to go. */
  ghost predicate FirstTight(lib: Library, budgets: seq<Budget>, pods: seq<Pod>, k: nat) {
    k < |budgets| && !Allows(lib, budgets[k], pods) && forall i :: 0 <= i < k ==> Allows(lib, budgets[i], pods)
  }

  /** The reason for a refusal is the first one, in the order of the checks, and it is true of the machine,
      the node, its pods, the budgets and the other nodes, amounts included. */
  ghost predicate ReasonFits(lib: Library, s: State, pair: Pair, reason: Reason) {
    var pods, receivers := Departing(pair.node), Receivers(Snapshot(s), pair.node.meta.name);
    var open := !OptedOut(pair.node.meta) && receivers != [];
    var portable := open && forall p :: p in pods ==> Portable(p);
    match reason
    case NotEvictable => !pair.machine.evictable
    case Protected => OptedOut(pair.node.meta)
    case CallFailed => true
    case NoEvacuationNodes => !OptedOut(pair.node.meta) && receivers == []
    case LocalStorage(name) => open && exists k: nat :: FirstFixed(pods, k) && pods[k].name == name && KeepsData(pods[k])
    case NoController(name) =>
      open && exists k: nat :: FirstFixed(pods, k) && pods[k].name == name && !KeepsData(pods[k])
                          && forall o :: o in pods[k].owners ==> o == Some(false)
    case BudgetUnparsable(name) =>
      portable && exists k: nat :: FirstTight(lib, s.budgets, pods, k) && s.budgets[k].name == name
                              && !lib.selectorParses(s.budgets[k].selector)
    case BudgetViolated(name, required, allowed) =>
      portable && exists k: nat :: FirstTight(lib, s.budgets, pods, k) && s.budgets[k].name == name
                              && allowed == s.budgets[k].allowed && required == |Matching(lib, s.budgets[k], pods)|
                              && required > allowed
    case EvacuationInfeasible(error) =>
      && portable && (forall b :: b in s.budgets ==> Allows(lib, b, pods))
      && ErrorFits(lib, receivers, pods, error)
  }

  lemma {:induction false} NoControllerMeans(owners: seq<Option<bool>>)
    requires ControllerIn(owners) == Some(false)
    ensures forall o :: o in owners ==> o == Some(false)
  {
    if owners != [] {
      NoControllerMeans(owners[1..]);
      assert forall o :: o in owners ==> o == owners[0] || o in owners[1..];
    }
  }

  lemma ShiftFixed(pods: seq<Pod>, k: nat)
    requires pods != [] && Portable(pods[0]) && FirstFixed(pods[1..], k)
    ensures FirstFixed(pods, k + 1) && pods[k + 1] == pods[1..][k]
  {
    hide Portable;
    forall i | 0 <= i < k + 1 ensures Portable(pods[i]) {
      assert i > 0 ==> pods[i] == pods[1..][i - 1];
    }
  }

  lemma {:induction false} MoveReason(pods: seq<Pod>) returns (k: nat)
    requires MoveObstacle(pods).Some? && MoveObstacle(pods).value.Refused?
    ensures FirstFixed(pods, k)
    ensures match MoveObstacle(pods).value.reason
            case LocalStorage(name) => pods[k].name == name && KeepsData(pods[k])
            case NoController(name) =>
              pods[k].name == name && !KeepsData(pods[k]) && forall o :: o in pods[k].owners ==> o == Some(false)
            case _ => false
  {
    k := 0;
    assert HasLocalStorage(pods[0]) <==> KeepsData(pods[0]);
    if !KeepsData(pods[0]) {
      ControllerLoop(pods[0].owners);
      if ControllerIn(pods[0].owners) == Some(false) {
        NoControllerMeans(pods[0].owners);
      } else {
        var j := MoveReason(pods[1..]);
        ShiftFixed(pods, j);
        k := j + 1;
      }
    }
  }

  lemma ShiftTight(lib: Library, budgets: seq<Budget>, pods: seq<Pod>, k: nat)
    requires budgets != [] && Allows(lib, budgets[0], pods) && FirstTight(lib, budgets[1..], pods, k)
    ensures FirstTight(lib, budgets, pods, k + 1) && budgets[k + 1] == budgets[1..][k]
  {
    hide Allows;
    forall i | 0 <= i < k + 1 ensures Allows(lib, budgets[i], pods) {
      assert i > 0 ==> budgets[i] == budgets[1..][i - 1];
    }
  }

  lemma {:induction false} BudgetReason(lib: Library, budgets: seq<Budget>, pods: seq<Pod>) returns (k: nat)
    requires BudgetObstacle(lib, budgets, pods).Some?
    ensures FirstTight(lib, budgets, pods, k)
    ensures match BudgetObstacle(lib, budgets, pods).value
            case BudgetUnparsable(name) => budgets[k].name == name && !lib.selectorParses(budgets[k].selector)
            case BudgetViolated(name, required, allowed) =>
              && budgets[k].name == name && allowed == budgets[k].allowed
              && required == |Matching(lib, budgets[k], pods)| && required > allowed
            case _ => false
  {
    hide Matching;
    k := 0;
    CountIsMatching(lib, budgets[0], pods);
    if lib.selectorParses(budgets[0].selector) && CountCovered(lib, budgets[0], pods) <= budgets[0].allowed {
      var j := BudgetReason(lib, budgets[1..], pods);
      ShiftTight(lib, budgets, pods, j);
      k := j + 1;
    }
  }

  lemma FixedInRange(pods: seq<Pod>)
    ensures forall k: nat :: FirstFixed(pods, k) ==> k < |pods|
  {
  }

  lemma TightInRange(lib: Library, budgets: seq<Budget>, pods: seq<Pod>)
    ensures forall k: nat :: FirstTight(lib, budgets, pods, k) ==> k < |budgets|
  {
  }

  /** Whatever refuses a node gives its true and first reason. */
  lemma RefusalFits(lib: Library, s: State, pair: Pair)
    requires SnapshotVerdict(lib, s, pair.node).Refused?
    ensures ReasonFits(lib, s, pair, SnapshotVerdict(lib, s, pair.node).reason)
    ensures !SnapshotVerdict(lib, s, pair.node).reason.CallFailed? && !SnapshotVerdict(lib, s, pair.node).reason.NotEvictable?
  {
    hide VerifyEvacuation, MoveObstacle, BudgetObstacle, VictimPods, Departing, Remaining, Receivers, KeepsData, Portable,
         IsProtected, OptedOut, Snapshot, ErrorFits, Matching, Allows, FirstFixed, FirstTight;
    var pods, receivers := Departing(pair.node), Receivers(Snapshot(s), pair.node.meta.name);
    DepartingPods(pair.node);
    RemainingReceive(Snapshot(s), pair.node.meta.name);
    ProtectionIs(pair.node.meta);
    NoObstacleMeansMovable(pods);
    NoObstacleMeansWithin(lib, s.budgets, pods);
    FixedInRange(pods);
    TightInRange(lib, s.budgets, pods);
    if MoveObstacle(pods).Some? && MoveObstacle(pods).value.Refused? {
      var k := MoveReason(pods);
    }
    if BudgetObstacle(lib, s.budgets, pods).Some? {
      var k := BudgetReason(lib, s.budgets, pods);
    }
    if VerifyEvacuation(lib, receivers, pods).Infeasible? {
      EvacuationErrorFits(lib, receivers, pods);
    }
  }
}
