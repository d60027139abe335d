/** Small clusters on which things go wrong, as counterparts of the exact conditions elsewhere. */
module Examples {
  import opened Kube
  import opened Resources
  import opened Constraints
  import opened Scheduling
  import opened SchedulingLaws
  import opened Cluster
  import opened NodeScaler
  import opened Promises
  import opened PromiseLaws
  import opened VerdictLaws
  import opened CallLaws
  import opened PrefixLaws
  import opened DrainLaws
  import opened Proxy
  import opened RequestLaws
  import opened SizeLaws
  import opened LogLaws
  import opened OutcomeLaws
  import opened CasualtyLaws
  import opened BudgetLaws
  import opened SuccessLaws
  import opened CrashLaws
  import opened Server

  // ---- Two workers ----

  function Worker(name: string, id: string): Node {
    Node(name, id, map[], map[], [], false, [Condition("Ready", "True")], map["cpu" := 1, "memory" := 1])
  }

  /** A running pod without requests and constraints. */
  function SmallPod(name: string, host: string, owners: seq<Option<bool>>): Pod {
    Pod(name, "default", map[], host, [], map[], [], None, [], owners, Running)
  }

  function Server1(): Machine {
    Machine("m1", MachineRunning, true, true)
  }

  function Server2(): Machine {
    Machine("m2", MachineRunning, true, true)
  }

  function TwoWorkers(pods: seq<Pod>, budgets: seq<Budget>): State {
    State([Worker("a", "m1"), Worker("b", "m2")], pods, budgets, [Server1(), Server2()], 2)
  }

  function ViewA(pods: seq<Pod>): NodeView {
    NodeView(Worker("a", "m1"), Filter(pods, (p: Pod) => p.nodeName == "a"))
  }

  function ViewB(pods: seq<Pod>): NodeView {
    NodeView(Worker("b", "m2"), Filter(pods, (p: Pod) => p.nodeName == "b"))
  }

  lemma DistinctLiterals()
    ensures "a" != "b" && "m1" != "m2" && "default" != KUBE_SYSTEM
  {
    assert "a"[0] != "b"[0] && "m1"[1] != "m2"[1] && "default"[0] != KUBE_SYSTEM[0];
  }

  lemma TwoWorkersSnapshot(pods: seq<Pod>, budgets: seq<Budget>)
    ensures Snapshot(TwoWorkers(pods, budgets)) == [ViewA(pods), ViewB(pods)]
    ensures UniqueNames(TwoWorkers(pods, budgets).nodes) && UniqueOwners(TwoWorkers(pods, budgets))
  {
    DistinctLiterals();
    var s := TwoWorkers(pods, budgets);
    FindsItself(s.nodes, 0);
    FindsItself(s.nodes, 1);
  }

  lemma BothAreWorkers(pods: seq<Pod>)
    requires forall p :: p in pods ==> p.namespace == "default"
    ensures !IsMaster(ViewA(pods)) && !IsMaster(ViewB(pods))
    ensures IsReady(ViewA(pods)) && IsReady(ViewB(pods)) && IsSchedulable(ViewA(pods)) && IsSchedulable(ViewB(pods))
  {
    DistinctLiterals();
  }

  lemma FilterTwo<T(!new)>(a: T, b: T, p: T -> bool)
    ensures p(a) && p(b) ==> Filter([a, b], p) == [a, b]
    ensures p(a) && !p(b) ==> Filter([a, b], p) == [a]
    ensures !p(a) && p(b) ==> Filter([a, b], p) == [b]
  {
    assert [a, b] == [a] + [b] && [a] == [] + [a];
    FilterSnoc([a], b, p);
    FilterSnoc([], a, p);
  }

  predicate GoodHost(view: NodeView) {
    !IsMaster(view) && IsReady(view) && IsSchedulable(view)
  }

  lemma RemainingOfTwo(a: NodeView, b: NodeView)
    requires GoodHost(a) && GoodHost(b) && a.meta.name != b.meta.name
    ensures Remaining([a, b], a.meta.name) == [b] && Remaining([a, b], b.meta.name) == [a]
    ensures Workers([a, b]) == [a, b]
  {
    hide IsMaster, IsReady, IsSchedulable;
    var v, w := a.meta.name, b.meta.name;
    FilterTwo(a, b, (n: NodeView) => !IsMaster(n) && n.meta.name != v && IsReady(n) && IsSchedulable(n));
    FilterTwo(a, b, (n: NodeView) => !IsMaster(n) && n.meta.name != w && IsReady(n) && IsSchedulable(n));
    FilterTwo(a, b, (n: NodeView) => !IsMaster(n));
  }

  /** Each worker has the other one to go to. */
  lemma OtherRemains(pods: seq<Pod>, budgets: seq<Budget>)
    requires forall p :: p in pods ==> p.namespace == "default"
    ensures var views := Snapshot(TwoWorkers(pods, budgets));
            Remaining(views, "a") == [ViewB(pods)] && Remaining(views, "b") == [ViewA(pods)]
    ensures var views := Snapshot(TwoWorkers(pods, budgets));
            Receivers(views, "a") == [ViewB(pods)] && Receivers(views, "b") == [ViewA(pods)]
    ensures Workers(Snapshot(TwoWorkers(pods, budgets))) == [ViewA(pods), ViewB(pods)]
  {
    RemainingReceive(Snapshot(TwoWorkers(pods, budgets)), "a");
    RemainingReceive(Snapshot(TwoWorkers(pods, budgets)), "b");
    hide Receivers, IsMaster, IsReady, IsSchedulable, ViewA, ViewB, Remaining, Workers, Snapshot, UniqueOwners, UniqueNames;
    DistinctLiterals();
    BothAreWorkers(pods);
    TwoWorkersSnapshot(pods, budgets);
    ViewNames(pods);
    RemainingOfTwo(ViewA(pods), ViewB(pods));
  }

  lemma ViewNames(pods: seq<Pod>)
    ensures ViewA(pods).meta.name == "a" && ViewB(pods).meta.name == "b"
  {
  }

  // ---- A request that panics, and a server that is wedged ----

  /** A pod on the first worker whose owner reference leaves the controller flag unset. */
  function Stray(): Pod {
    SmallPod("p", "a", [None])
  }

  lemma StrayIsJudged()
    ensures Departing(ViewA([Stray()])) == [Stray()]
  {
    DepartingPods(ViewA([Stray()]));
    DistinctLiterals();
    FilterAllKept([Stray()], (p: Pod) => p.nodeName == "a");
    FilterAllKept([Stray()], (p: Pod) => IsNonSystem(p) && IsActivePod(p));
  }

  lemma StrayTrips(lib: Library)
    ensures TripsOn(lib, TwoWorkers([Stray()], []), ViewA([Stray()]))
  {
    hide Receivers, Departing, Snapshot, GetsStuck, Precheck;
    StrayIsJudged();
    OtherRemains([Stray()], []);
    ViewNames([Stray()]);
    assert UnsetFlagAt([Stray()], 0) by {
      assert Stray().owners[0] == None;
    }
  }

  lemma TargetIsFirst(pods: seq<Pod>, budgets: seq<Budget>)
    requires forall p :: p in pods ==> p.namespace == "default"
    ensures Target(TwoWorkers(pods, budgets), "m1") == Some(Pair(ViewA(pods), Server1()))
  {
    hide Workers, Snapshot, Filter;
    OtherRemains(pods, budgets);
  }

  /** A request to terminate the first machine panics. */
  lemma PanicHappens(env: Env, calls: nat)
    requires NeverFails(env)
    ensures Run(env, World(TwoWorkers([Stray()], []), calls, []), Terminate("m1", true)).r == Crash
  {
    hide Run, TripsOn, Target, ViewA, TwoWorkers;
    var s := TwoWorkers([Stray()], []);
    TargetIsFirst([Stray()], []);
    StrayTrips(env.lib);
    CrashExactly(env, s, calls, Terminate("m1", true));
  }

  /** So a server that starts with this cluster can be wedged, and then remains so. */
  lemma WedgeHappens(env: Env, calls: nat) returns (run: seq<System>)
    requires NeverFails(env)
    ensures IsRun(env, run) && run[0].state == TwoWorkers([Stray()], []) && Wedged(run[|run| - 1])
  {
    hide Run, TwoWorkers, IsRun, Wedged;
    PanicHappens(env, calls);
    run := CrashWedgesServer(env, TwoWorkers([Stray()], []), calls, Terminate("m1", true));
  }

  // ---- Casualties of a failed termination ----

  /** Draining an untainted node without pods takes two calls. */
  lemma EmptyDrainWorks(env: Env, w: World, node: NodeView)
    requires FindNode(w.state.nodes, node.meta.name) == Some(node.meta) && node.meta.taints == [] && VictimPods(node) == []
    requires Succeeds(env, w.calls, w.calls + 2)
    ensures var d := DrainNode(env, w, node);
            d.r && d.w.calls == w.calls + 2 && FindNode(d.w.state.nodes, node.meta.name).Some? && d.w.state.machines == w.state.machines
  {
    hide FindNode, VictimPods;
    FindReplaced(w.state.nodes, node.meta.(taints := [DRAIN_TAINT]));
    assert node.meta.taints + [DRAIN_TAINT] == [DRAIN_TAINT];
  }

  lemma IdleIsAcceptable(lib: Library)
    ensures Acceptable(lib, TwoWorkers([], []), Pair(ViewA([]), Server1()))
    ensures VictimPods(ViewA([])) == []
  {
    hide Snapshot, Receivers, VerifyEvacuation, SnapshotVerdict;
    OtherRemains([], []);
    DepartingPods(ViewA([]));
    assert VictimPods(ViewA([])) == [];
    EmptyEvacuation(lib);
    AcceptedExactly(lib, TwoWorkers([], []), ViewA([]));
  }

  lemma EmptyEvacuation(lib: Library)
    ensures VerifyEvacuation(lib, [ViewB([])], []).Planned?
  {
    assert [ViewB([])][..0] == [];
    assert TotalFree([ViewB([])], CPU) == Resources.Free(ViewB([]), CPU) == 1;
    assert TotalFree([ViewB([])], Memory) == Resources.Free(ViewB([]), Memory) == 1;
  }

  /** A termination on the two idle workers takes twelve calls before the removal begins. */
  lemma TerminationReachesRemoval(env: Env) returns (w: World)
    requires Succeeds(env, 0, 12)
    ensures var victim := Pair(ViewA([]), Server1());
            && w.state == TwoWorkers([], []) && w.calls == 12
            && var e := EvictAndTerminate(env, w, victim, true);
               TerminateMachine(env, World(w.state, 0, []), "m1", true) == Reply(e.w, if e.r then Done else Failed(KubernetesClientError))
  {
    hide GetNodeInfos, Workers, Snapshot, JudgePair, EvictAndTerminate, ViewA, Acceptable;
    var s := TwoWorkers([], []);
    var w0 := World(s, 0, []);
    InfosExactly(env, w0);
    TargetIsFirst([], []);
    var w1 := GetMachine(env, Later(w0, 5), "m1").w;
    IdleIsAcceptable(env.lib);
    JudgeWorks(env, w1, Pair(ViewA([]), Server1()));
    w := JudgePair(env, w1, Pair(ViewA([]), Server1())).w;
  }

  /** If just the deletion fails, the node stays behind with the drain taint. */
  lemma TaintHappens(env: Env)
    requires Permutes(env) && Succeeds(env, 0, 14) && env.fails(14)
    ensures var s := TwoWorkers([], []);
            NewlyTainted(s, Run(env, World(s, 0, []), Terminate("m1", true)).w.state, "a")
  {
    hide TerminateMachine, ViewA, DrainNode, TwoWorkers, Tainted, NewlyTainted, Snapshot, UniqueNames, UniqueOwners;
    var s := TwoWorkers([], []);
    var w := TerminationReachesRemoval(env);
    FirstWorker();
    EmptyDrainWorks(env, w, ViewA([]));
    TwoWorkersSnapshot([], []);
    CasualtiesExactly(env, s, 0, Terminate("m1", true), "m1", "a");
  }

  lemma FirstWorker()
    ensures var s := TwoWorkers([], []); var view := ViewA([]);
            && view.meta.name == "a" && FindNode(s.nodes, "a") == Some(view.meta) && view.meta.taints == []
            && VictimPods(view) == [] && !Tainted(s, "a")
            && FindMachine(s.machines, "m1") == Some(Server1()) && RunsOnActive(s.machines, "m1")
  {
    assert Server1() in TwoWorkers([], []).machines;
  }

  /** If just the termination fails, the machine runs on without its node. */
  lemma OrphanHappens(env: Env)
    requires Permutes(env) && Succeeds(env, 0, 15) && env.fails(15)
    ensures var s := TwoWorkers([], []);
            Orphaned(s, Run(env, World(s, 0, []), Terminate("m1", true)).w.state, "m1")
  {
    hide TerminateMachine, ViewA, DrainNode, TwoWorkers, Tainted, Orphaned, Snapshot, UniqueNames, UniqueOwners, RunsOnActive;
    var s := TwoWorkers([], []);
    var w := TerminationReachesRemoval(env);
    FirstWorker();
    EmptyDrainWorks(env, w, ViewA([]));
    TwoWorkersSnapshot([], []);
    CasualtiesExactly(env, s, 0, Terminate("m1", true), "m1", "a");
  }

  // ---- A taint lost in a rollback ----

  /** If just the first eviction fails, a node that was tainted before loses all its drain taints. */
  lemma FailedEvictionUntaints(env: Env, w: World, view: NodeView, node: Node)
    requires FindNode(w.state.nodes, view.meta.name) == Some(node) && HasDrainTaint(node.taints) && VictimPods(view) != []
    requires !env.fails(w.calls) && env.fails(w.calls + 1) && !env.fails(w.calls + 2) && !env.fails(w.calls + 3)
    ensures FindNode(DrainNode(env, w, view).w.state.nodes, view.meta.name)
            == Some(node.(taints := WithoutDrainTaint(node.taints)))
  {
    hide FindNode, VictimPods, WithoutDrainTaint, HasDrainTaint, EvictAll;
    var name, pods := view.meta.name, VictimPods(view);
    var mark := MarkUnschedulable(env, w, name);
    NoEvictionYet(env, mark.w, name, pods);
    EvictAllSnoc(env, mark.w, name, pods, 0);
    EvictAllStops(env, mark.w, name, pods, 1);
    RollBackRemovesTaint(env, EvictAll(env, mark.w, name, pods).w, name);
  }

  lemma NoEvictionYet(env: Env, w: World, host: string, pods: seq<Pod>)
    ensures EvictAll(env, w, host, pods[..0]) == Reply(w, true)
  {
  }

  /** A concrete one: the taint was there before the drain, and is gone after its rollback. */
  lemma RollbackLosesTaint(env: Env, pod: Pod)
    requires !env.fails(0) && env.fails(1) && !env.fails(2) && !env.fails(3) && pod == SmallPod("p", "a", [Some(true)])
    ensures var node := Worker("a", "m1").(taints := [DRAIN_TAINT]);
            var w := World(State([node], [pod], [], [], 0), 0, []);
            FindNode(DrainNode(env, w, NodeView(node, [pod])).w.state.nodes, "a") == Some(node.(taints := []))
  {
    hide DrainNode;
    var node := Worker("a", "m1").(taints := [DRAIN_TAINT]);
    var w := World(State([node], [pod], [], [], 0), 0, []);
    DistinctLiterals();
    assert pod in VictimPods(NodeView(node, [pod]));
    assert DRAIN_TAINT in node.taints;
    FailedEvictionUntaints(env, w, NodeView(node, [pod]), node);
    OneDrainTaint();
  }

  lemma OneDrainTaint()
    ensures WithoutDrainTaint([DRAIN_TAINT]) == []
  {
  }

  // ---- Two victims that are fine one by one ----

  function PodA(): Pod {
    SmallPod("p", "a", [Some(true)])
  }

  function PodB(): Pod {
    SmallPod("q", "b", [Some(true)])
  }

  /** Covers both pods, and allows one disruption. */
  function Tight(): Budget {
    Budget("tight", LabelSelector(map[], []), 1)
  }

  function Paired(): State {
    TwoWorkers([PodA(), PodB()], [Tight()])
  }

  ghost predicate TightCovers(lib: Library) {
    lib.selectorParses(Tight().selector) && lib.selectorMatches(Tight().selector, map[])
  }

  lemma OnePodEach()
    ensures Departing(ViewA([PodA(), PodB()])) == [PodA()] && ViewA([PodA(), PodB()]).pods == [PodA()]
    ensures Departing(ViewB([PodA(), PodB()])) == [PodB()] && ViewB([PodA(), PodB()]).pods == [PodB()]
  {
    hide Filter, Departing;
    DistinctLiterals();
    FilterTwo(PodA(), PodB(), (p: Pod) => p.nodeName == "a");
    FilterTwo(PodA(), PodB(), (p: Pod) => p.nodeName == "b");
    KeepsPod(ViewA([PodA(), PodB()]), PodA());
    KeepsPod(ViewB([PodA(), PodB()]), PodB());
  }

  lemma KeepsPod(view: NodeView, pod: Pod)
    requires view.pods == [pod] && pod.namespace == "default" && pod.phase == Running
    ensures Departing(view) == [pod]
  {
    DistinctLiterals();
    FilterAllKept([pod], (p: Pod) => MustLeave(p));
  }

  /** A pod without requests and constraints finds a place on a worker that hosts such a pod. */
  lemma SmallPodFits(lib: Library, view: NodeView, pod: Pod, name: string, id: string)
    requires lib.RoundsUp() && view.meta == Worker(name, id) && (forall p :: p in view.pods ==> p.containers == [])
    requires pod == SmallPod(pod.name, pod.nodeName, pod.owners)
    ensures VerifyEvacuation(lib, [view], [pod]).Planned?
  {
    hide Schedule, Precheck, Check, TotalRequest, TotalFree;
    NoRequests(view.pods);
    NoRequests([pod]);
    WorkerFree(view, name, id);
    SmallPodPasses(lib, view, pod, name, id);
    OnlyHostTakes(lib, view, pod);
    OneNodeSuffices(view, pod);
    PrecheckSums([view], [pod]);
    assert [pod][..|[pod]| - 1] == [];
    assert ScheduleAll(Standard(lib), [view], []) == Planned([view], []);
    assert ScheduleAll(Standard(lib), [view], [pod]).Planned?;
  }

  lemma SmallPodPasses(lib: Library, view: NodeView, pod: Pod, name: string, id: string)
    requires view.meta == Worker(name, id) && (forall r :: Resources.Free(view, r) == 1)
    requires pod == SmallPod(pod.name, pod.nodeName, pod.owners)
    ensures Check(lib, pod, view).None?
  {
    hide Resources.Free;
    CheckAccepts(lib, pod, view);
  }

  lemma OneNodeSuffices(view: NodeView, pod: Pod)
    requires (forall r :: Resources.Free(view, r) == 1) && forall r :: TotalRequest([pod], r) == 0
    ensures Suffices([view], [pod])
  {
    hide Resources.Free, TotalRequest;
    forall r ensures TotalFree([view], r) == 1 {
      assert [view][..0] == [];
    }
  }

  lemma OnlyHostTakes(lib: Library, view: NodeView, pod: Pod)
    requires lib.RoundsUp() && NonNegativeRequests([pod]) && NonNegative(view) && HasCapacity(view.meta)
    requires Check(lib, pod, view).None?
    ensures Schedule(Standard(lib), [view], pod).Placed?
  {
    hide Schedule, Candidates, HasCapacity, NonNegative, Check;
    ScheduleOutcomes(Standard(lib), [view], pod);
    SchedulePanicsExactly(lib, [view], pod);
    var cands := Candidates(Standard(lib), [view], pod);
    if cands != [] {
      assert [view][cands[0]] == view;
    }
    assert [view][0] == view;
  }

  lemma {:induction false} NoRequests(pods: seq<Pod>)
    requires forall p :: p in pods ==> p.containers == []
    ensures NonNegativeRequests(pods) && forall r :: TotalRequest(pods, r) == 0
  {
    if pods != [] {
      NoRequests(pods[..|pods| - 1]);
    }
  }

  lemma WorkerFree(view: NodeView, name: string, id: string)
    requires view.meta == Worker(name, id) && NonNegativeRequests(view.pods) && forall r :: TotalRequest(view.pods, r) == 0
    ensures HasCapacity(view.meta) && NonNegative(view) && forall r :: Resources.Free(view, r) == 1
  {
    assert ResourceName(CPU) == "cpu" && ResourceName(Memory) == "memory";
    assert "cpu"[0] != "memory"[0];
    forall r ensures Allocatable(view.meta, r) == 1 {
      assert r == CPU || r == Memory;
    }
  }

  lemma BothAreAcceptable(lib: Library)
    requires lib.RoundsUp() && TightCovers(lib)
    ensures SnapshotVerdict(lib, Paired(), ViewA([PodA(), PodB()])).Accepted?
    ensures SnapshotVerdict(lib, Paired(), ViewB([PodA(), PodB()])).Accepted?
  {
    hide Snapshot, Receivers, VerifyEvacuation, SnapshotVerdict, Departing, Matching, Allows, Portable;
    var pods := [PodA(), PodB()];
    OnePodEach();
    OtherRemains(pods, [Tight()]);
    SmallPodFits(lib, ViewB(pods), PodA(), "b", "m2");
    SmallPodFits(lib, ViewA(pods), PodB(), "a", "m1");
    SmallPodIsMovable(PodA());
    SmallPodIsMovable(PodB());
    OneCovered(lib, PodA());
    OneCovered(lib, PodB());
    AcceptedExactly(lib, Paired(), ViewA(pods));
    AcceptedExactly(lib, Paired(), ViewB(pods));
  }

  lemma SmallPodIsMovable(pod: Pod)
    requires pod.volumes == [] && pod.owners == [Some(true)]
    ensures Portable(pod)
  {
    assert pod.owners[0] == Some(true);
  }

  lemma OneCovered(lib: Library, pod: Pod)
    requires TightCovers(lib) && pod.labels == map[]
    ensures |Matching(lib, Tight(), [pod])| == 1 && Allows(lib, Tight(), [pod])
  {
    assert Matching(lib, Tight(), [pod]) == {0};
  }

  lemma TwoPairs(pods: seq<Pod>, budgets: seq<Budget>)
    requires forall p :: p in pods ==> p.namespace == "default"
    ensures Pairs(TwoWorkers(pods, budgets)) == [Pair(ViewA(pods), Server1()), Pair(ViewB(pods), Server2())]
  {
    hide Snapshot, Workers, Filter;
    OtherRemains(pods, budgets);
    DistinctLiterals();
    var machines := [Server1(), Server2()];
    FilterAllKept(machines, (m: Machine) => IsActive(m));
    PairUpTwo(ViewA(pods), ViewB(pods), machines);
  }

  lemma PairUpTwo(a: NodeView, b: NodeView, machines: seq<Machine>)
    requires machines == [Server1(), Server2()] && a.meta.externalID == "m1" && b.meta.externalID == "m2"
    ensures PairUp([a, b], machines) == [Pair(a, Server1()), Pair(b, Server2())]
  {
    DistinctLiterals();
    assert [a, b][..1] == [a] && [a][..0] == [];
    assert machines[1..] == [Server2()];
    assert FindMachine(machines, "m1") == Some(Server1());
    assert FindMachine(machines, "m2") == Some(Server2());
    assert PairUp([a], machines) == [Pair(a, Server1())];
  }

  lemma {:induction false} CoveredEach(lib: Library, budget: Budget, victims: seq<Pair>)
    requires forall v :: v in victims ==> |Matching(lib, budget, Departing(v.node))| == 1
    ensures CoveredOf(lib, budget, victims) == |victims|
  {
    if victims != [] {
      CoveredEach(lib, budget, victims[..|victims| - 1]);
    }
  }

  lemma PairsAreFine(lib: Library, p: Pair)
    requires lib.RoundsUp() && TightCovers(lib) && p in Pairs(Paired())
    ensures Acceptable(lib, Paired(), p) && !Trips(lib, Paired(), p)
    ensures |Matching(lib, Tight(), Departing(p.node))| == 1
  {
    hide SnapshotVerdict, TripsOn, Departing, Pairs, Matching;
    TwoPairs([PodA(), PodB()], [Tight()]);
    BothAreAcceptable(lib);
    VerdictPanicsExactly(lib, Paired(), p.node);
    OnePodEach();
    OneCovered(lib, PodA());
    OneCovered(lib, PodB());
  }

  lemma PairedIsUnique()
    ensures UniqueNames(Paired().nodes) && UniqueOwners(Paired()) && UniquePods(Paired().pods)
  {
    hide Snapshot;
    TwoWorkersSnapshot([PodA(), PodB()], [Tight()]);
    assert "p"[0] != "q"[0];
  }

  /** Two workers with one pod each, and a budget that covers both pods and allows one disruption. Each
      worker is acceptable on its own, since the other could take its pod. A request for size zero accepts
      both, and succeeds: it evicts both pods, one more than the budget allows, and leaves no worker. */
  lemma JointlyTooMuch(env: Env, calls: nat)
    requires NeverFails(env) && Permutes(env) && env.lib.RoundsUp() && TightCovers(env.lib)
    ensures var r := SetDesiredSize(env, World(Paired(), calls, []), 0);
            && r.r == Done && |Roster(r.w.state)| == 0
            && |AcceptedPairs(r.w.trace)| == 2
            && |Matching(env.lib, Tight(), Evicted(r.w.trace))| == 2 && Tight().allowed == 1
  {
    var s := Paired();
    TwoPairs([PodA(), PodB()], [Tight()]);
    PairedIsUnique();
    PairsAreRoster(s);
    hide SetDesiredSize, Pairs, Roster, UniqueNames, UniqueOwners, UniquePods, Trips, Acceptable, Departing, Paired, Acceptances, Tight, Matching;
    forall p | p in Pairs(s)
      ensures Acceptable(env.lib, s, p) && !Trips(env.lib, s, p) && |Matching(env.lib, Tight(), Departing(p.node))| == 1
    {
      PairsAreFine(env.lib, p);
    }
    FilterAllKept(Pairs(s), (p: Pair) => Acceptable(env.lib, s, p));
    ReachesDesiredSize(env, s, calls, 0, env, calls);
    OutcomeWithoutFailures(env, s, calls, 0);
    var victims := BudgetsAddUp(env, s, calls, 0, Tight());
    VictimsAmong(env, Pairs(s), victims);
    CoveredEach(env.lib, Tight(), victims);
    TightAllowsOne();
  }

  lemma VictimsAmong(env: Env, pairs: seq<Pair>, victims: seq<Pair>)
    requires Permutes(env) && victims <= env.sort(pairs)
    ensures forall v :: v in victims ==> v in pairs
  {
    assert forall p :: p in env.sort(pairs) ==> p in multiset(env.sort(pairs));
    assert forall p :: p in multiset(pairs) ==> p in pairs;
  }

  lemma TightAllowsOne()
    ensures Tight().allowed == 1
  {
  }

  // ---- A panic for want of capacity ----

  /** A worker that reports no allocatable amounts. */
  function Bare(): Node {
    Worker("b", "m2").(allocatable := map[])
  }

  /** One worker with a small pod, which could only go to the bare one. */
  function OneBare(): State {
    TwoWorkers([PodA()], []).(nodes := [Worker("a", "m1"), Bare()])
  }

  function HostOfA(): NodeView {
    NodeView(Worker("a", "m1"), [PodA()])
  }

  lemma OneBareSnapshot()
    ensures Snapshot(OneBare()) == [HostOfA(), NodeView(Bare(), [])]
    ensures Receivers(Snapshot(OneBare()), "a") == [NodeView(Bare(), [])]
    ensures Workers(Snapshot(OneBare())) == [HostOfA(), NodeView(Bare(), [])]
  {
    hide Remaining, Workers, Receivers;
    DistinctLiterals();
    var s := OneBare();
    RemainingReceive([HostOfA(), NodeView(Bare(), [])], "a");
    FindsItself(s.nodes, 0);
    FindsItself(s.nodes, 1);
    FilterAllKept([PodA()], (p: Pod) => p.nodeName == "a");
    FilterNone([PodA()], (p: Pod) => p.nodeName == "b");
    RemainingOfTwo(HostOfA(), NodeView(Bare(), []));
  }

  lemma BareIsStuck(lib: Library)
    requires lib.RoundsUp()
    ensures Precheck([NodeView(Bare(), [])], [PodA()]).None?
    ensures GetsStuck(Standard(lib), [NodeView(Bare(), [])], [PodA()])
  {
    hide Stuck, Schedule, Precheck;
    var view := NodeView(Bare(), []);
    NoRequests([PodA()]);
    forall r ensures TotalFree([view], r) == 0 {
      assert [view][..0] == [];
    }
    PrecheckSums([view], [PodA()]);
    NilDereferenceHappens(lib, Bare(), PodA());
    ScheduleOutcomes(Standard(lib), [view], PodA());
    assert [PodA()][..0] == [];
    assert GetsStuckAt(Standard(lib), [view], [PodA()], 0);
  }

  /** A request to terminate the machine of the first worker panics in the scheduler. */
  lemma CapacityPanicHappens(env: Env, calls: nat)
    requires NeverFails(env) && env.lib.RoundsUp()
    ensures Run(env, World(OneBare(), calls, []), Terminate("m1", true)).r == Crash
  {
    hide Run, Snapshot, Receivers, Workers, Departing, GetsStuck, Precheck, Portable;
    var s := OneBare();
    OneBareSnapshot();
    KeepsPod(HostOfA(), PodA());
    SmallPodIsMovable(PodA());
    BareIsStuck(env.lib);
    assert TripsOn(env.lib, s, HostOfA());
    assert Target(s, "m1") == Some(Pair(HostOfA(), Server1()));
    CrashExactly(env, s, calls, Terminate("m1", true));
  }
}
