/** A request as a handler carries it out while it holds the update lock: small steps, each of which
    makes at most one API call, and a proof that they add up to the whole request. */
module Handler {
  import opened Kube
  import opened Cluster
  import opened NodeScaler
  import opened Proxy
  import opened PrefixLaws

  // ---- Listing nodes and their pods ----

  datatype ListStage =
    | ListStart
    | NextNode(nodes: seq<Node>, infos: seq<NodeView>)
    | PodsOfNode(nodes: seq<Node>, infos: seq<NodeView>, node: Node)

  datatype ListResult = Reading(w: World, stage: ListStage) | Listed(w: World, infos: Option<seq<NodeView>>)

  function ListStep(env: Env, w: World, stage: ListStage): ListResult {
    match stage
    case ListStart =>
      var Reply(w1, nodes) := Read(env, w, w.state.nodes);
      if nodes.None? then Listed(w1, None) else Reading(w1, NextNode(nodes.value, []))
    case NextNode(nodes, infos) =>
      if |infos| < |nodes| then
        var Reply(w1, node) := GetNode(env, w, nodes[|infos|].name);
        if node.None? then Listed(w1, None) else Reading(w1, PodsOfNode(nodes, infos, node.value))
      else Listed(w, Some(infos))
    case PodsOfNode(nodes, infos, node) =>
      var Reply(w1, pods) := Read(env, w, PodsOn(w.state, node.name));
      if pods.None? then Listed(w1, None) else Reading(w1, NextNode(nodes, infos + [NodeView(node, pods.value)]))
  }

  /** The listing that began in `at` has come to `stage` in `w`. */
  ghost predicate ListReached(env: Env, at: World, stage: ListStage, w: World) {
    match stage
    case ListStart => w == at
    case NextNode(nodes, infos) =>
      && !env.fails(at.calls) && nodes == at.state.nodes && |infos| <= |nodes|
      && CollectInfos(env, Tick(at), nodes[..|infos|]) == Reply(w, Some(infos))
    case PodsOfNode(nodes, infos, node) =>
      && !env.fails(at.calls) && nodes == at.state.nodes && |infos| < |nodes|
      && var sofar := CollectInfos(env, Tick(at), nodes[..|infos|]);
         sofar.r == Some(infos) && GetNode(env, sofar.w, nodes[|infos|].name) == Reply(w, Some(node))
  }

  lemma ListStartSimulates(env: Env, at: World)
    ensures var r := ListStep(env, at, ListStart);
            if r.Reading? then ListReached(env, at, r.stage, r.w) else GetNodeInfos(env, at) == Reply(r.w, r.infos)
  {
    assert at.state.nodes[..0] == [];
  }

  lemma NextNodeSimulates(env: Env, at: World, nodes: seq<Node>, infos: seq<NodeView>, w: World)
    requires ListReached(env, at, NextNode(nodes, infos), w)
    ensures var r := ListStep(env, w, NextNode(nodes, infos));
            if r.Reading? then ListReached(env, at, r.stage, r.w) else GetNodeInfos(env, at) == Reply(r.w, r.infos)
  {
    hide CollectInfos, FindNode, PodsOn;
    if |infos| < |nodes| {
      CollectSnoc(env, Tick(at), nodes, |infos|);
      if GetNode(env, w, nodes[|infos|].name).r.None? {
        CollectStops(env, Tick(at), nodes, |infos| + 1);
      }
    } else {
      assert nodes[..|infos|] == nodes;
    }
  }

  lemma PodsOfNodeSimulates(env: Env, at: World, nodes: seq<Node>, infos: seq<NodeView>, node: Node, w: World)
    requires ListReached(env, at, PodsOfNode(nodes, infos, node), w)
    ensures var r := ListStep(env, w, PodsOfNode(nodes, infos, node));
            if r.Reading? then ListReached(env, at, r.stage, r.w) else GetNodeInfos(env, at) == Reply(r.w, r.infos)
  {
    hide CollectInfos, FindNode, PodsOn;
    CollectSnoc(env, Tick(at), nodes, |infos|);
    if env.fails(w.calls) {
      CollectStops(env, Tick(at), nodes, |infos| + 1);
    }
  }

  lemma ListStepSimulates(env: Env, at: World, stage: ListStage, w: World)
    requires ListReached(env, at, stage, w)
    ensures var r := ListStep(env, w, stage);
            if r.Reading? then ListReached(env, at, r.stage, r.w) else GetNodeInfos(env, at) == Reply(r.w, r.infos)
  {
    hide CollectInfos, GetNodeInfos, ListStep;
    match stage
    case ListStart => ListStartSimulates(env, at);
    case NextNode(nodes, infos) => NextNodeSimulates(env, at, nodes, infos, w);
    case PodsOfNode(nodes, infos, node) => PodsOfNodeSimulates(env, at, nodes, infos, node, w);
  }

  // ---- Judging a pair ----

  datatype JudgeStage = JudgeStart | JudgeListing(list: ListStage) | JudgeBudgets(infos: seq<NodeView>)

  datatype JudgeResult = Pondering(w: World, stage: JudgeStage) | Decided(w: World, verdict: Verdict)

  /** Puts an acceptance on record. */
  function Conclude(w: World, pair: Pair, verdict: Verdict): JudgeResult {
    Decided(if verdict.Accepted? then Emit(w, Judged(pair, verdict.evidence)) else w, verdict)
  }

  function JudgeStep(env: Env, w: World, pair: Pair, stage: JudgeStage): JudgeResult {
    match stage
    case JudgeStart =>
      if !pair.machine.evictable then Decided(w, Refused(NotEvictable))
      else if IsProtected(pair.node.meta) then Decided(w, Refused(Protected))
      else Pondering(w, JudgeListing(ListStart))
    case JudgeListing(list) =>
      (match ListStep(env, w, list)
       case Reading(w1, list1) => Pondering(w1, JudgeListing(list1))
       case Listed(w1, infos) =>
         if infos.None? then Decided(w1, Refused(CallFailed))
         else
           var early := EarlyVerdict(pair.node, infos.value);
           if early.Some? then Conclude(w1, pair, early.value) else Pondering(w1, JudgeBudgets(infos.value)))
    case JudgeBudgets(infos) =>
      var Reply(w1, budgets) := Read(env, w, w.state.budgets);
      if budgets.None? then Decided(w1, Refused(CallFailed))
      else Conclude(w1, pair, LateVerdict(env.lib, pair.node, infos, budgets.value))
  }

  ghost predicate JudgeReached(env: Env, at: World, pair: Pair, stage: JudgeStage, w: World) {
    match stage
    case JudgeStart => w == at
    case JudgeListing(list) =>
      pair.machine.evictable && !IsProtected(pair.node.meta) && ListReached(env, at, list, w)
    case JudgeBudgets(infos) =>
      && pair.machine.evictable && !IsProtected(pair.node.meta)
      && GetNodeInfos(env, at) == Reply(w, Some(infos)) && EarlyVerdict(pair.node, infos).None?
  }

  lemma JudgeStepSimulates(env: Env, at: World, pair: Pair, stage: JudgeStage, w: World)
    requires JudgeReached(env, at, pair, stage, w)
    ensures match JudgeStep(env, w, pair, stage)
            case Pondering(w1, stage1) => JudgeReached(env, at, pair, stage1, w1)
            case Decided(w1, verdict) => JudgePair(env, at, pair) == Reply(w1, verdict)
  {
    hide ListStep, GetNodeInfos, EarlyVerdict, LateVerdict, IsProtected;
    match stage
    case JudgeStart =>
    case JudgeListing(list) =>
      ListStepSimulates(env, at, list, w);
    case JudgeBudgets(infos) =>
  }

  // ---- Removing a victim ----

  datatype Stage =
    | Marking
    | Tainting(node: Node)
    | Evicting(k: nat)
    | Undoing
    | Restoring(node: Node)
    | Deleting
    | Stopping

  datatype StageResult = Next(w: World, stage: Stage) | Finished(w: World, ok: bool)

  function GiveUp(w: World, name: string): StageResult {
    Finished(Emit(w, Drained(name, false)), false)
  }

  function RemovalStep(env: Env, victim: Pair, decrement: bool, w: World, stage: Stage): StageResult {
    var name := victim.node.meta.name;
    var pods := VictimPods(victim.node);
    match stage
    case Marking =>
      var Reply(w1, node) := GetNode(env, w, name);
      if node.None? then GiveUp(w1, name)
      else Next(w1, if HasDrainTaint(node.value.taints) then Evicting(0) else Tainting(node.value))
    case Tainting(node) =>
      var u := UpdateNode(env, w, node.(taints := node.taints + [DRAIN_TAINT]));
      if u.r then Next(u.w, Evicting(0)) else GiveUp(u.w, name)
    case Evicting(k) =>
      if k < |pods| then
        var e := EvictPod(env, w, name, pods[k]);
        Next(e.w, if e.r then Evicting(k + 1) else Undoing)
      else Next(Emit(w, Drained(name, true)), Deleting)
    case Undoing =>
      var Reply(w1, node) := GetNode(env, Emit(w, RollingBack(name)), name);
      if node.None? then GiveUp(w1, name) else Next(w1, Restoring(node.value))
    case Restoring(node) => GiveUp(UpdateNode(env, w, node.(taints := WithoutDrainTaint(node.taints))).w, name)
    case Deleting =>
      var d := DeleteNode(env, w, name);
      if d.r then Next(d.w, Stopping) else Finished(d.w, false)
    case Stopping =>
      var t := StopMachine(env, w, victim.machine.id, decrement);
      Finished(t.w, t.r)
  }

  /** The removal of `victim` that began in `at` has come to `stage` in `w`. */
  ghost predicate StageReached(env: Env, at: World, victim: Pair, stage: Stage, w: World) {
    var name := victim.node.meta.name;
    var pods := VictimPods(victim.node);
    var mark := MarkUnschedulable(env, at, name);
    match stage
    case Marking => w == at
    case Tainting(node) => GetNode(env, at, name) == Reply(w, Some(node)) && !HasDrainTaint(node.taints)
    case Evicting(k) => mark.r && k <= |pods| && EvictAll(env, mark.w, name, pods[..k]) == Reply(w, true)
    case Undoing => mark.r && EvictAll(env, mark.w, name, pods) == Reply(w, false)
    case Restoring(node) =>
      var evicted := EvictAll(env, mark.w, name, pods);
      mark.r && !evicted.r && GetNode(env, Emit(evicted.w, RollingBack(name)), name) == Reply(w, Some(node))
    case Deleting => DrainNode(env, at, victim.node) == Reply(w, true)
    case Stopping =>
      var drain := DrainNode(env, at, victim.node);
      drain.r && DeleteNode(env, drain.w, name) == Reply(w, true)
  }

  /** The steps that set the taint. */
  lemma MarkingSimulates(env: Env, at: World, victim: Pair, decrement: bool, stage: Stage, w: World)
    requires StageReached(env, at, victim, stage, w) && (stage.Marking? || stage.Tainting?)
    ensures match RemovalStep(env, victim, decrement, w, stage)
            case Next(w1, stage1) => StageReached(env, at, victim, stage1, w1)
            case Finished(w1, ok) => EvictAndTerminate(env, at, victim, decrement) == Reply(w1, ok)
  {
    hide VictimPods, UpdateNode, HasDrainTaint;
    assert VictimPods(victim.node)[..0] == [];
  }

  /** The steps that evict. */
  lemma EvictingSimulates(env: Env, at: World, victim: Pair, decrement: bool, k: nat, w: World)
    requires StageReached(env, at, victim, Evicting(k), w)
    ensures match RemovalStep(env, victim, decrement, w, Evicting(k))
            case Next(w1, stage1) => StageReached(env, at, victim, stage1, w1)
            case Finished(w1, ok) => EvictAndTerminate(env, at, victim, decrement) == Reply(w1, ok)
  {
    hide MarkUnschedulable, VictimPods, RollBack, EvictPod;
    var name, pods := victim.node.meta.name, VictimPods(victim.node);
    var mark := MarkUnschedulable(env, at, name);
    if k < |pods| {
      EvictAllSnoc(env, mark.w, name, pods, k);
      if !EvictPod(env, w, name, pods[k]).r {
        EvictAllStops(env, mark.w, name, pods, k + 1);
      }
    } else {
      assert pods[..k] == pods;
    }
  }

  /** The steps after the evictions. */
  lemma EndingSimulates(env: Env, at: World, victim: Pair, decrement: bool, stage: Stage, w: World)
    requires StageReached(env, at, victim, stage, w) && !stage.Marking? && !stage.Tainting? && !stage.Evicting?
    ensures match RemovalStep(env, victim, decrement, w, stage)
            case Next(w1, stage1) => StageReached(env, at, victim, stage1, w1)
            case Finished(w1, ok) => EvictAndTerminate(env, at, victim, decrement) == Reply(w1, ok)
  {
    hide MarkUnschedulable, VictimPods, EvictAll, UpdateNode, WithoutDrainTaint;
  }

  lemma RemovalStepSimulates(env: Env, at: World, victim: Pair, decrement: bool, stage: Stage, w: World)
    requires StageReached(env, at, victim, stage, w)
    ensures match RemovalStep(env, victim, decrement, w, stage)
            case Next(w1, stage1) => StageReached(env, at, victim, stage1, w1)
            case Finished(w1, ok) => EvictAndTerminate(env, at, victim, decrement) == Reply(w1, ok)
  {
    hide StageReached, RemovalStep, EvictAndTerminate;
    match stage
    case Marking => MarkingSimulates(env, at, victim, decrement, stage, w);
    case Tainting(_) => MarkingSimulates(env, at, victim, decrement, stage, w);
    case Evicting(k) => EvictingSimulates(env, at, victim, decrement, k, w);
    case _ => EndingSimulates(env, at, victim, decrement, stage, w);
  }

  // ---- A whole request ----

  /** The victims still to go; `from` only remembers the world before the first of them. */
  datatype Job = Bulk(from: World, victims: seq<Pair>, i: nat) | Single(victim: Pair, decrement: bool)

  /** Where a request stands. `from` and `at` only remember where a part of it began. */
  datatype Phase =
    | Listing(request: Request, list: ListStage)
    | Pooling(desired: int, workers: seq<NodeView>)
    | Fetching(id: string, decrement: bool, node: NodeView)
    | Resizing(desired: int)
    | Judging(from: World, pairs: seq<Pair>, i: nat, desired: int, split: Split, at: World, judge: JudgeStage)
    | JudgingOne(victim: Pair, decrement: bool, at: World, judge: JudgeStage)
    | Removing(job: Job, at: World, stage: Stage)
    | Ended(outcome: Outcome)

  function Begin(request: Request): Phase {
    Listing(request, ListStart)
  }

  function Current(job: Job): Pair
    requires job.Bulk? ==> job.i < |job.victims|
  {
    match job
    case Bulk(_, victims, i) => victims[i]
    case Single(victim, _) => victim
  }

  function Decrements(job: Job): bool {
    job.Bulk? || job.decrement
  }

  /** The next victim of a job, or its end. */
  function NextVictim(job: Job, w: World, ok: bool): Phase {
    match job
    case Bulk(from, victims, i) =>
      if !ok then Ended(Failed(ScaleDownError))
      else if i + 1 < |victims| then Removing(Bulk(from, victims, i + 1), w, Marking)
      else Ended(Done)
    case Single(_, _) => Ended(if ok then Done else Failed(KubernetesClientError))
  }

  predicate WellFormed(phase: Phase) {
    && (phase.Judging? ==> phase.i <= |phase.pairs| && phase.desired < |phase.pairs|)
    && (phase.Removing? && phase.job.Bulk? ==> phase.job.i < |phase.job.victims|)
  }

  datatype Progress = Progress(w: World, phase: Phase)

  function ListingStep(env: Env, w: World, request: Request, list: ListStage): (p: Progress)
    ensures WellFormed(p.phase)
  {
    match ListStep(env, w, list)
    case Reading(w1, list1) => Progress(w1, Listing(request, list1))
    case Listed(w1, infos) =>
      if infos.None? then Progress(w1, Ended(Failed(KubernetesClientError)))
      else
        var workers := Workers(infos.value);
        match request
        case SetSize(desired) => Progress(w1, Pooling(desired, workers))
        case Terminate(id, decrement) =>
          var node := NodeWithExternalID(workers, id);
          Progress(w1, if node.None? then Ended(Failed(NodeNotFound)) else Fetching(id, decrement, node.value))
  }

  function PoolingStep(env: Env, w: World, desired: int, workers: seq<NodeView>): (p: Progress)
    ensures WellFormed(p.phase)
  {
    var Reply(w1, machines) := Read(env, w, w.state.machines);
    if machines.None? then Progress(w1, Ended(Failed(CloudPoolClientError)))
    else
      var pairs := PairUp(workers, ActiveMachines(machines.value));
      Progress(w1, if desired >= |pairs| then Resizing(desired)
                   else Judging(w1, pairs, 0, desired, Split([], []), w1, JudgeStart))
  }

  function FetchingStep(env: Env, w: World, id: string, decrement: bool, node: NodeView): (p: Progress)
    ensures WellFormed(p.phase)
  {
    var Reply(w1, machine) := GetMachine(env, w, id);
    Progress(w1, if machine.None? then Ended(Failed(CloudPoolClientError))
                 else JudgingOne(Pair(node, machine.value), decrement, w1, JudgeStart))
  }

  function ResizingStep(env: Env, w: World, desired: int): Progress {
    var Reply(w1, ok) := ResizePool(env, w, desired);
    Progress(w1, Ended(if ok then Done else Failed(CloudPoolClientError)))
  }

  function JudgingStep(env: Env, w: World, phase: Phase): (p: Progress)
    requires WellFormed(phase) && phase.Judging?
    ensures WellFormed(p.phase)
  {
    var Judging(from, pairs, i, desired, split, at, judge) := phase;
    if i < |pairs| then
      match JudgeStep(env, w, pairs[i], judge)
      case Pondering(w1, judge1) => Progress(w1, Judging(from, pairs, i, desired, split, at, judge1))
      case Decided(w1, verdict) =>
        var split' := AddVerdict(split, pairs[i], verdict);
        Progress(w1, if split'.None? then Ended(Crash)
                     else Judging(from, pairs, i + 1, desired, split'.value, w1, JudgeStart))
    else if split.candidates == [] then Progress(w, Ended(Failed(NoViableCandidate(split.rejections))))
    else
      var victims := Victims(env, split.candidates, |pairs| - desired);
      Progress(w, if victims == [] then Ended(Done) else Removing(Bulk(w, victims, 0), w, Marking))
  }

  function JudgingOneStep(env: Env, w: World, phase: Phase): (p: Progress)
    requires phase.JudgingOne?
    ensures WellFormed(p.phase)
  {
    var JudgingOne(victim, decrement, at, judge) := phase;
    match JudgeStep(env, w, victim, judge)
    case Pondering(w1, judge1) => Progress(w1, JudgingOne(victim, decrement, at, judge1))
    case Decided(w1, verdict) =>
      match verdict
      case Panic => Progress(w1, Ended(Crash))
      case Refused(_) => Progress(w1, Ended(Failed(ScaleDownError)))
      case Accepted(_) => Progress(w1, Removing(Single(victim, decrement), w1, Marking))
  }

  function RemovingStep(env: Env, w: World, phase: Phase): (p: Progress)
    requires WellFormed(phase) && phase.Removing?
    ensures WellFormed(p.phase)
  {
    match RemovalStep(env, Current(phase.job), Decrements(phase.job), w, phase.stage)
    case Next(w1, stage) => Progress(w1, phase.(stage := stage))
    case Finished(w1, ok) => Progress(w1, NextVictim(phase.job, w1, ok))
  }

  function MicroStep(env: Env, w: World, phase: Phase): (p: Progress)
    requires WellFormed(phase) && !phase.Ended?
    ensures WellFormed(p.phase)
  {
    match phase
    case Listing(request, list) => ListingStep(env, w, request, list)
    case Pooling(desired, workers) => PoolingStep(env, w, desired, workers)
    case Fetching(id, decrement, node) => FetchingStep(env, w, id, decrement, node)
    case Resizing(desired) => ResizingStep(env, w, desired)
    case Judging(_, _, _, _, _, _, _) => JudgingStep(env, w, phase)
    case JudgingOne(_, _, _, _) => JudgingOneStep(env, w, phase)
    case Removing(_, _, _) => RemovingStep(env, w, phase)
  }

  // ---- The steps add up ----

  function Concluded(r: Reply<bool>, failure: Error): Reply<Outcome> {
    Reply(r.w, if r.r then Done else Failed(failure))
  }

  /** The request that began in `start` has come to `phase` in `w`. */
  ghost predicate Reached(env: Env, start: World, request: Request, phase: Phase, w: World) {
    WellFormed(phase) &&
    match phase
    case Listing(r, list) => r == request && ListReached(env, start, list, w)
    case Pooling(desired, workers) =>
      request == SetSize(desired) && ListWorkerNodes(env, start) == Reply(w, Some(workers))
    case Fetching(id, decrement, node) =>
      && request == Terminate(id, decrement)
      && var workers := ListWorkerNodes(env, start);
         workers.w == w && workers.r.Some? && NodeWithExternalID(workers.r.value, id) == Some(node)
    case Resizing(desired) =>
      Run(env, start, request) == Concluded(ResizePool(env, w, desired), CloudPoolClientError)
    case Judging(from, pairs, i, desired, split, at, judge) =>
      && Run(env, start, request) == ScaleDown(env, from, pairs, desired)
      && Partition(env, from, pairs[..i]) == Reply(at, Some(split))
      && (if i < |pairs| then JudgeReached(env, at, pairs[i], judge, w) else w == at)
    case JudgingOne(victim, decrement, at, judge) =>
      Run(env, start, request) == RemoveOne(env, at, victim, decrement) && JudgeReached(env, at, victim, judge, w)
    case Removing(Bulk(from, victims, i), at, stage) =>
      && Run(env, start, request) == Concluded(RemoveAll(env, from, victims), ScaleDownError)
      && RemoveAll(env, from, victims[..i]) == Reply(at, true)
      && StageReached(env, at, victims[i], stage, w)
    case Removing(Single(victim, decrement), at, stage) =>
      && Run(env, start, request) == Concluded(EvictAndTerminate(env, at, victim, decrement), KubernetesClientError)
      && StageReached(env, at, victim, stage, w)
    case Ended(outcome) => Run(env, start, request) == Reply(w, outcome)
  }

  lemma ListingSimulates(env: Env, start: World, request: Request, list: ListStage, w: World)
    requires Reached(env, start, request, Listing(request, list), w)
    ensures var p := ListingStep(env, w, request, list); Reached(env, start, request, p.phase, p.w)
  {
    hide GetNodeInfos, ListStep, ListReached, Workers;
    ListStepSimulates(env, start, list, w);
  }

  lemma PoolingSimulates(env: Env, start: World, desired: int, workers: seq<NodeView>, w: World)
    requires Reached(env, start, SetSize(desired), Pooling(desired, workers), w)
    ensures var p := PoolingStep(env, w, desired, workers); Reached(env, start, SetSize(desired), p.phase, p.w)
  {
    hide ListWorkerNodes, PairUp, ActiveMachines, ScaleDown, ResizePool;
    var p := PoolingStep(env, w, desired, workers);
    if p.phase.Judging? {
      assert p.phase.pairs[..0] == [];
    }
  }

  lemma FetchingSimulates(env: Env, start: World, id: string, decrement: bool, node: NodeView, w: World)
    requires Reached(env, start, Terminate(id, decrement), Fetching(id, decrement, node), w)
    ensures var p := FetchingStep(env, w, id, decrement, node);
            Reached(env, start, Terminate(id, decrement), p.phase, p.w)
  {
    hide ListWorkerNodes, RemoveOne;
  }

  lemma ResizingSimulates(env: Env, start: World, request: Request, desired: int, w: World)
    requires Reached(env, start, request, Resizing(desired), w)
    ensures var p := ResizingStep(env, w, desired); Reached(env, start, request, p.phase, p.w)
  {
    hide Run, ResizePool;
  }

  lemma JudgingSimulates(env: Env, start: World, request: Request, phase: Phase, w: World)
    requires phase.Judging? && Reached(env, start, request, phase, w)
    ensures var p := JudgingStep(env, w, phase); Reached(env, start, request, p.phase, p.w)
  {
    hide Run, JudgePair, EvictAndTerminate, Victims, JudgeStep;
    var Judging(from, pairs, i, desired, split, at, judge) := phase;
    if i < |pairs| {
      JudgeStepSimulates(env, at, pairs[i], judge, w);
      PartitionSnoc(env, from, pairs, i);
      if AddVerdict(split, pairs[i], JudgePair(env, at, pairs[i]).r).None? {
        PartitionStops(env, from, pairs, i + 1);
      }
    } else {
      assert pairs[..i] == pairs;
      var victims := Victims(env, split.candidates, |pairs| - desired);
      if victims != [] {
        assert victims[..0] == [];
      }
    }
  }

  lemma JudgingOneSimulates(env: Env, start: World, request: Request, phase: Phase, w: World)
    requires phase.JudgingOne? && Reached(env, start, request, phase, w)
    ensures var p := JudgingOneStep(env, w, phase); Reached(env, start, request, p.phase, p.w)
  {
    hide Run, JudgePair, EvictAndTerminate, JudgeStep, JudgeReached;
    JudgeStepSimulates(env, phase.at, phase.victim, phase.judge, w);
  }

  lemma RemovingSimulates(env: Env, start: World, request: Request, phase: Phase, w: World)
    requires phase.Removing? && Reached(env, start, request, phase, w)
    ensures var p := RemovingStep(env, w, phase); Reached(env, start, request, p.phase, p.w)
  {
    hide Run, EvictAndTerminate, RemovalStep;
    RemovalStepSimulates(env, phase.at, Current(phase.job), Decrements(phase.job), phase.stage, w);
    if phase.job.Bulk? {
      var Bulk(from, victims, i) := phase.job;
      RemoveAllSnoc(env, from, victims, i);
      if !EvictAndTerminate(env, phase.at, victims[i], true).r {
        RemoveAllStops(env, from, victims, i + 1);
      } else if i + 1 == |victims| {
        assert victims[..i + 1] == victims;
      }
    }
  }

  /** Each step leads on towards the outcome of the whole request. */
  lemma MicroStepSimulates(env: Env, start: World, request: Request, phase: Phase, w: World)
    requires !phase.Ended? && Reached(env, start, request, phase, w)
    ensures var p := MicroStep(env, w, phase); Reached(env, start, request, p.phase, p.w)
  {
    RequestOf(env, start, request, phase, w);
    hide Reached, ListingStep, PoolingStep, FetchingStep, ResizingStep, JudgingStep, JudgingOneStep, RemovingStep;
    match phase
    case Listing(_, list) => ListingSimulates(env, start, request, list, w);
    case Pooling(desired, workers) => PoolingSimulates(env, start, desired, workers, w);
    case Fetching(id, decrement, node) => FetchingSimulates(env, start, id, decrement, node, w);
    case Resizing(desired) => ResizingSimulates(env, start, request, desired, w);
    case Judging(_, _, _, _, _, _, _) => JudgingSimulates(env, start, request, phase, w);
    case JudgingOne(_, _, _, _) => JudgingOneSimulates(env, start, request, phase, w);
    case Removing(_, _, _) => RemovingSimulates(env, start, request, phase, w);
  }

  lemma RequestOf(env: Env, start: World, request: Request, phase: Phase, w: World)
    requires Reached(env, start, request, phase, w)
    ensures phase.Listing? ==> phase.request == request
    ensures phase.Pooling? ==> request == SetSize(phase.desired)
    ensures phase.Fetching? ==> request == Terminate(phase.id, phase.decrement)
  {
  }

  // ---- The steps come to an end ----

  function ListRank(list: ListStage): nat {
    if list.ListStart? then 2 else 1
  }

  function ListLeft(list: ListStage): nat {
    match list
    case ListStart => 0
    case NextNode(nodes, infos) => if |infos| < |nodes| then 2 * (|nodes| - |infos|) else 0
    case PodsOfNode(nodes, infos, _) => if |infos| < |nodes| then 2 * (|nodes| - |infos|) - 1 else 1
  }

  function JudgeRank(judge: JudgeStage): nat {
    match judge
    case JudgeStart => 4
    case JudgeListing(list) => ListRank(list) + 1
    case JudgeBudgets(_) => 1
  }

  function StageRank(victim: Pair, stage: Stage): nat {
    var n := |VictimPods(victim.node)|;
    match stage
    case Marking => n + 6
    case Tainting(_) => n + 5
    case Evicting(k) => if k < n then n - k + 4 else 4
    case Undoing => 2
    case Restoring(_) => 1
    case Deleting => 2
    case Stopping => 1
  }

  function PhaseRank(phase: Phase): nat {
    match phase
    case Listing(_, _) => 4
    case Pooling(_, _) => 3
    case Fetching(_, _, _) => 3
    case Resizing(_) => 2
    case Judging(_, _, _, _, _, _, _) => 2
    case JudgingOne(_, _, _, _) => 2
    case Removing(_, _, _) => 1
    case Ended(_) => 0
  }

  function PairsLeft(phase: Phase): nat
    requires WellFormed(phase)
  {
    match phase
    case Judging(_, pairs, i, _, _, _, _) => |pairs| - i
    case Removing(Bulk(_, victims, i), _, _) => |victims| - i
    case _ => 0
  }

  function PartRank(phase: Phase): nat {
    match phase
    case Listing(_, list) => ListRank(list)
    case Judging(_, _, _, _, _, _, judge) => JudgeRank(judge)
    case JudgingOne(_, _, _, judge) => JudgeRank(judge)
    case _ => 0
  }

  function StepsLeft(phase: Phase): nat
    requires WellFormed(phase)
  {
    match phase
    case Listing(_, list) => ListLeft(list)
    case Judging(_, _, _, _, _, _, JudgeListing(list)) => ListLeft(list)
    case JudgingOne(_, _, _, JudgeListing(list)) => ListLeft(list)
    case Removing(job, _, stage) => StageRank(Current(job), stage)
    case _ => 0
  }

  /** `p` is closer to the end than `q`. */
  predicate Closer(p: Phase, q: Phase)
    requires WellFormed(p) && WellFormed(q)
  {
    || PhaseRank(p) < PhaseRank(q)
    || (PhaseRank(p) == PhaseRank(q) && PairsLeft(p) < PairsLeft(q))
    || (PhaseRank(p) == PhaseRank(q) && PairsLeft(p) == PairsLeft(q) && PartRank(p) < PartRank(q))
    || (PhaseRank(p) == PhaseRank(q) && PairsLeft(p) == PairsLeft(q) && PartRank(p) == PartRank(q)
        && StepsLeft(p) < StepsLeft(q))
  }

  lemma ListStepDescends(env: Env, w: World, list: ListStage)
    ensures var r := ListStep(env, w, list);
            r.Reading? ==> ListRank(r.stage) < ListRank(list)
                           || (ListRank(r.stage) == ListRank(list) && ListLeft(r.stage) < ListLeft(list))
  {
  }

  /** Every step comes closer to the end of the request. */
  lemma MicroStepDescends(env: Env, w: World, phase: Phase)
    requires WellFormed(phase) && !phase.Ended?
    ensures Closer(MicroStep(env, w, phase).phase, phase)
  {
    hide VictimPods, EvictPod, UpdateNode, HasDrainTaint, ListStep, ListRank, ListLeft, EarlyVerdict, LateVerdict;
    match phase
    case Listing(_, list) => ListStepDescends(env, w, list);
    case Judging(_, pairs, i, _, _, _, judge) =>
      if judge.JudgeListing? {
        ListStepDescends(env, w, judge.list);
      }
      RankBounds();
    case JudgingOne(_, _, _, judge) =>
      if judge.JudgeListing? {
        ListStepDescends(env, w, judge.list);
      }
      RankBounds();
    case _ =>
  }

  lemma RankBounds()
    ensures forall list :: 1 <= ListRank(list) <= 2
  {
  }

  /** Runs a request from a given phase to its end. */
  function Finish(env: Env, w: World, phase: Phase): Reply<Outcome>
    requires WellFormed(phase)
    decreases PhaseRank(phase), PairsLeft(phase), PartRank(phase), StepsLeft(phase)
  {
    if phase.Ended? then Reply(w, phase.outcome)
    else
      var p := MicroStep(env, w, phase);
      MicroStepDescends(env, w, phase);
      Finish(env, p.w, p.phase)
  }

  lemma ReachedIsWellFormed(env: Env, start: World, request: Request, phase: Phase, w: World)
    requires Reached(env, start, request, phase, w)
    ensures WellFormed(phase) && (phase.Ended? ==> Run(env, start, request) == Reply(w, phase.outcome))
  {
    hide Run;
  }

  /** Taken one after the other, the steps of a handler carry out exactly its request. */
  lemma {:induction false} FinishRunsRequest(env: Env, start: World, request: Request, phase: Phase, w: World)
    requires WellFormed(phase) && Reached(env, start, request, phase, w)
    ensures Finish(env, w, phase) == Run(env, start, request)
    decreases PhaseRank(phase), PairsLeft(phase), PartRank(phase), StepsLeft(phase)
  {
    hide Reached, MicroStep, Run, PhaseRank, PairsLeft, PartRank, StepsLeft;
    ReachedIsWellFormed(env, start, request, phase, w);
    if !phase.Ended? {
      MicroStepSimulates(env, start, request, phase, w);
      MicroStepDescends(env, w, phase);
      var p := MicroStep(env, w, phase);
      FinishRunsRequest(env, start, request, p.phase, p.w);
    }
  }

  // ---- One call at a time ----

  /** At most one call was made, and the log only grew. */
  predicate OneCall(w: World, w': World) {
    && w.calls <= w'.calls <= w.calls + 1
    && w.trace <= w'.trace
  }

  lemma ListStepIsOneCall(env: Env, w: World, list: ListStage)
    ensures OneCall(w, ListStep(env, w, list).w)
  {
  }

  lemma JudgeStepIsOneCall(env: Env, w: World, pair: Pair, judge: JudgeStage)
    ensures OneCall(w, JudgeStep(env, w, pair, judge).w)
  {
    hide ListStep, EarlyVerdict, LateVerdict;
    if judge.JudgeListing? {
      ListStepIsOneCall(env, w, judge.list);
    }
  }

  lemma RemovalStepIsOneCall(env: Env, victim: Pair, decrement: bool, w: World, stage: Stage)
    ensures OneCall(w, RemovalStep(env, victim, decrement, w, stage).w)
  {
    hide VictimPods, HasDrainTaint, WithoutDrainTaint, Effect;
  }

  /** A step makes at most one API call. */
  lemma MicroStepIsOneCall(env: Env, w: World, phase: Phase)
    requires WellFormed(phase) && !phase.Ended?
    ensures OneCall(w, MicroStep(env, w, phase).w)
  {
    hide ListStep, JudgeStep, RemovalStep, PairUp, ActiveMachines, Victims, Effect, Workers;
    match phase
    case Listing(_, list) => ListStepIsOneCall(env, w, list);
    case Judging(_, pairs, i, _, _, _, judge) =>
      if i < |pairs| {
        JudgeStepIsOneCall(env, w, pairs[i], judge);
      }
    case JudgingOne(victim, _, _, judge) => JudgeStepIsOneCall(env, w, victim, judge);
    case Removing(job, _, stage) => RemovalStepIsOneCall(env, Current(job), Decrements(job), w, stage);
    case _ =>
  }
}
