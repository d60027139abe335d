/** Safety of whole requests, for every pattern of failing calls. */
module RequestLaws {
  import opened Kube
  import opened Cluster
  import opened NodeScaler
  import opened Promises
  import opened VerdictLaws
  import opened DrainLaws
  import opened RemovalLaws
  import opened Proxy
  import opened RunLaws

  // ---- Pairing ----

  /** A pair joins a listed node with a listed machine that carries its external ID, and a node is in
      a pair exactly when some machine does. */
  lemma {:induction false} PairsMatch(nodes: seq<NodeView>, machines: seq<Machine>)
    ensures forall p :: p in PairUp(nodes, machines) ==>
              p.node in nodes && p.machine in machines && p.machine.id == p.node.meta.externalID
    ensures forall n :: n in nodes ==>
              ((exists p :: p in PairUp(nodes, machines) && p.node == n) <==>
               (exists m :: m in machines && m.id == n.meta.externalID))
  {
    if nodes != [] {
      var k := |nodes| - 1;
      PairsMatch(nodes[..k], machines);
      var before, pairs := PairUp(nodes[..k], machines), PairUp(nodes, machines);
      assert forall p :: p in before ==> p in pairs;
      assert forall n :: n in nodes <==> n in nodes[..k] || n == nodes[k];
      var found := FindMachine(machines, nodes[k].meta.externalID);
      if found.Some? {
        assert Pair(nodes[k], found.value) in pairs;
      }
    }
  }

  lemma PairsAreEligible(s: State)
    ensures forall p :: p in PairUp(Workers(Snapshot(s)), ActiveMachines(s.machines)) ==>
              Eligible(s, p) && IsActive(p.machine)
  {
    PairsMatch(Workers(Snapshot(s)), ActiveMachines(s.machines));
  }

  // ---- Accountability of requests ----

  /** sort.Slice returns the same elements in some order. */
  ghost predicate Permutes(env: Env) {
    forall xs :: multiset(env.sort(xs)) == multiset(xs)
  }

  lemma VictimsAreCandidates(env: Env, candidates: seq<Pair>, excess: nat)
    requires Permutes(env)
    ensures |env.sort(candidates)| == |candidates|
    ensures forall v :: v in Victims(env, candidates, excess) ==> v in candidates
  {
    var sorted := env.sort(candidates);
    assert |multiset(sorted)| == |sorted| && |multiset(candidates)| == |candidates|;
    forall v | v in Victims(env, candidates, excess) ensures v in candidates {
      assert v in sorted;
      assert v in multiset(sorted);
      assert v in multiset(candidates);
    }
  }

  lemma ScaleDownAccountable(env: Env, s: State, w: World, pairs: seq<Pair>, desired: int)
    requires Permutes(env) && desired < |pairs|
    requires w.state == s && w.trace == [] && forall p :: p in pairs ==> Eligible(s, p)
    ensures var r := ScaleDown(env, w, pairs, desired);
            Accountable(env.lib, s, r.w.state, r.w.trace)
  {
    assert Accountable(env.lib, s, w.state, w.trace);
    hide Accountable, Eligible, OnRecord, EvictAndTerminate;
    PartitionAccountable(env, s, w, pairs);
    var split := Partition(env, w, pairs);
    if split.r.Some? && split.r.value.candidates != [] {
      VictimsAreCandidates(env, split.r.value.candidates, |pairs| - desired);
      RemoveAllAccountable(env, s, split.w, Victims(env, split.r.value.candidates, |pairs| - desired));
    }
  }

  lemma ListWorkersReads(env: Env, w: World)
    ensures var l := ListWorkerNodes(env, w);
            Quiet(w, l.w) && (l.r.Some? ==> l.r.value == Workers(Snapshot(w.state)))
  {
    ReadsSnapshot(env, w);
  }

  lemma ResizeAccountable(env: Env, s: State, w: World, size: int)
    requires w.state == s && w.trace == []
    ensures var r := ResizePool(env, w, size); Accountable(env.lib, s, r.w.state, r.w.trace)
  {
    var e := PoolResized(size, ResizePool(env, w, size).r);
    assert Justified(env.lib, s, [], s, e);
    assert Accountable(env.lib, s, s, []);
    hide Accountable, Justified;
    AccountableSnoc(env.lib, s, s, [], e);
  }

  lemma SetDesiredSizeAccountable(env: Env, s: State, calls: nat, desired: int)
    requires Permutes(env)
    ensures var r := SetDesiredSize(env, World(s, calls, []), desired);
            Accountable(env.lib, s, r.w.state, r.w.trace)
  {
    var w := World(s, calls, []);
    assert Accountable(env.lib, s, s, []);
    hide Accountable, Eligible, GetNodeInfos, ScaleDown, ResizePool, Snapshot, PairUp;
    ListWorkersReads(env, w);
    var nodes := ListWorkerNodes(env, w);
    if nodes.r.Some? {
      var machines := Read(env, nodes.w, nodes.w.state.machines);
      if machines.r.Some? {
        PairsAreEligible(s);
        var pairs := PairUp(nodes.r.value, ActiveMachines(machines.r.value));
        if desired >= |pairs| {
          ResizeAccountable(env, s, machines.w, desired);
        } else {
          ScaleDownAccountable(env, s, machines.w, pairs, desired);
        }
      }
    }
  }

  lemma RemoveOneAccountable(env: Env, s: State, w: World, pair: Pair, decrement: bool)
    requires w.state == s && w.trace == [] && Eligible(s, pair)
    ensures var r := RemoveOne(env, w, pair, decrement);
            Accountable(env.lib, s, r.w.state, r.w.trace)
  {
    assert Accountable(env.lib, s, w.state, w.trace);
    hide Accountable, Eligible, OnRecord, EvictAndTerminate, JudgePair;
    JudgeAccountable(env, s, w, pair);
    var j := JudgePair(env, w, pair);
    if j.r.Accepted? {
      RemovalAccountable(env, s, j.w, pair, decrement);
    }
  }

  lemma TerminateMachineAccountable(env: Env, s: State, calls: nat, id: string, decrement: bool)
    ensures var r := TerminateMachine(env, World(s, calls, []), id, decrement);
            Accountable(env.lib, s, r.w.state, r.w.trace)
  {
    var w := World(s, calls, []);
    assert Accountable(env.lib, s, s, []);
    hide Accountable, GetNodeInfos, RemoveOne, Snapshot;
    ListWorkersReads(env, w);
    var nodes := ListWorkerNodes(env, w);
    if nodes.r.Some? {
      var node := NodeWithExternalID(nodes.r.value, id);
      if node.Some? {
        var machine := GetMachine(env, nodes.w, id);
        if machine.r.Some? {
          RemoveOneAccountable(env, s, machine.w, Pair(node.value, machine.r.value), decrement);
        }
      }
    }
  }

  /** Whatever calls fail, each change that a request attempts is justified. */
  lemma RequestAccountable(env: Env, s: State, calls: nat, request: Request)
    requires Permutes(env)
    ensures var r := Run(env, World(s, calls, []), request);
            Accountable(env.lib, s, r.w.state, r.w.trace)
  {
    hide Accountable, SetDesiredSize, TerminateMachine;
    match request
    case SetSize(desired) => SetDesiredSizeAccountable(env, s, calls, desired);
    case Terminate(id, decrement) => TerminateMachineAccountable(env, s, calls, id, decrement);
  }

  // ---- Consequences ----

  lemma JustifiedAt(env: Env, s: State, calls: nat, request: Request, i: nat)
    requires Permutes(env) && i < |Run(env, World(s, calls, []), request).w.trace|
    ensures var t := Run(env, World(s, calls, []), request).w.trace;
            Justified(env.lib, s, t[..i], Replay(s, t[..i]), t[i])
  {
    hide Run, Justified;
    RequestAccountable(env, s, calls, request);
  }

  /** A machine is terminated only after its node was accepted on the initial snapshot, then each of its
      active non-system pods was evicted, in order and successfully, then the node was deleted, all within
      the same request. */
  lemma TerminationsAreEarned(env: Env, s: State, calls: nat, request: Request, i: nat)
      returns (accepted: nat)
    requires Permutes(env)
    requires var t := Run(env, World(s, calls, []), request).w.trace; i < |t| && t[i].MachineTerminated?
    ensures var t := Run(env, World(s, calls, []), request).w.trace;
            && accepted < i - 2
            && Sustained(env.lib, s, t[accepted])
            && t[accepted].pair.machine.id == t[i].id
            && t[i - 2] == Drained(t[accepted].pair.node.meta.name, true)
            && t[i - 1] == NodeDeleted(t[accepted].pair.node.meta.name, true)
            && EvictedAll(t[..i - 2], t[accepted].pair.node)
  {
    hide Run, Justified, Sustained, EvictedAll;
    JustifiedAt(env, s, calls, request, i);
    var t := Run(env, World(s, calls, []), request).w.trace;
    accepted := EarnedBy(env.lib, s, t[..i], Replay(s, t[..i]), t[i]);
    SustainedIsVerdict(env.lib, s, t[accepted]);
    assert t[..i][i - 2] == t[i - 2] && t[..i][i - 1] == t[i - 1] && t[..i][..i - 2] == t[..i - 2];
  }

  lemma EarnedBy(lib: Library, s: State, past: seq<Event>, now: State, e: Event) returns (accepted: nat)
    requires Justified(lib, s, past, now, e) && e.MachineTerminated?
    ensures |past| >= 2 && accepted < |past| && Sustained(lib, s, past[accepted])
    ensures past[accepted].pair.machine.id == e.id
    ensures past[|past| - 2] == Drained(past[accepted].pair.node.meta.name, true)
    ensures past[|past| - 1] == NodeDeleted(past[accepted].pair.node.meta.name, true)
    ensures EvictedAll(past[..|past| - 2], past[accepted].pair.node)
  {
    hide EvictedAll;
    var j :| j in past && Sustained(lib, s, j) && j.pair.machine.id == e.id
             && past[|past| - 2] == Drained(j.pair.node.meta.name, true)
             && past[|past| - 1] == NodeDeleted(j.pair.node.meta.name, true)
             && EvictedAll(past[..|past| - 2], j.pair.node);
    accepted :| accepted < |past| && past[accepted] == j;
  }

  lemma SustainedIsVerdict(lib: Library, s: State, e: Event)
    requires Sustained(lib, s, e)
    ensures e.Judged?
  {
  }

  // ---- The drain taint during a request ----

  /** A node that carries a drain taint now, and carried none at the start, carries the NoSchedule one. */
  ghost predicate TaintsTracked(s: State, now: State) {
    forall name :: Tainted(now, name) && !Tainted(s, name) ==> DrainTaint() in FindNode(now.nodes, name).value.taints
  }

  lemma UpdateTracked(s: State, now: State, node: Node)
    requires TaintsTracked(s, now) && FindNode(now.nodes, node.name).Some?
    requires TaintStep(FindNode(now.nodes, node.name).value.taints, node.taints)
    ensures TaintsTracked(s, now.(nodes := ReplaceNode(now.nodes, node)))
  {
    hide FindNode;
    var now' := now.(nodes := ReplaceNode(now.nodes, node));
    FindReplaced(now.nodes, node);
    forall name | Tainted(now', name) && !Tainted(s, name) ensures DrainTaint() in FindNode(now'.nodes, name).value.taints {
      if name != node.name {
        FindReplacedOther(now.nodes, node, name);
        assert Tainted(now, name);
      }
    }
  }

  lemma DeletionTracked(s: State, now: State, gone: string)
    requires TaintsTracked(s, now)
    ensures TaintsTracked(s, now.(nodes := WithoutNodes(now.nodes, {gone})))
  {
    hide FindNode, WithoutNodes;
    var now' := now.(nodes := WithoutNodes(now.nodes, {gone}));
    forall name | Tainted(now', name) && !Tainted(s, name) ensures DrainTaint() in FindNode(now'.nodes, name).value.taints {
      FindWithout(now.nodes, {gone}, name);
      assert Tainted(now, name);
    }
  }

  lemma EffectTracked(lib: Library, s: State, past: seq<Event>, now: State, e: Event)
    requires TaintsTracked(s, now) && Justified(lib, s, past, now, e)
    ensures TaintsTracked(s, Effect(now, e))
  {
    hide TaintsTracked, Sustained, EvictedAll, Tainted, TaintStep, ReplaceNode, WithoutNodes;
    match e
    case NodeUpdated(node, ok) =>
      UpdateTracked(s, now, node);
    case NodeDeleted(name, ok) =>
      DeletionTracked(s, now, name);
    case _ =>
      SameNodesTracked(s, now, Effect(now, e));
  }

  lemma SameNodesTracked(s: State, now: State, now': State)
    requires TaintsTracked(s, now) && now'.nodes == now.nodes
    ensures TaintsTracked(s, now')
  {
    assert forall name :: Tainted(now', name) <==> Tainted(now, name);
  }

  lemma {:induction false} LogTracked(lib: Library, s: State, log: seq<Event>, k: nat)
    requires k <= |log| && forall i :: 0 <= i < |log| ==> Justified(lib, s, log[..i], Replay(s, log[..i]), log[i])
    ensures TaintsTracked(s, Replay(s, log[..k]))
  {
    hide Justified, TaintsTracked;
    if k == 0 {
      StartTracked(s);
    } else {
      LogTracked(lib, s, log, k - 1);
      EffectTracked(lib, s, log[..k - 1], Replay(s, log[..k - 1]), log[k - 1]);
      assert log[..k][..k - 1] == log[..k - 1];
    }
  }

  lemma StartTracked(s: State)
    ensures TaintsTracked(s, s)
  {
  }

  /** A pod is evicted only if it has to leave a node that was accepted before, and can be moved; at that
      moment the node carries a drain taint and, unless it did so from the start, takes no pod that does
      not tolerate the taint. */
  lemma EvictionsAreVetted(env: Env, s: State, calls: nat, request: Request, i: nat)
      returns (accepted: nat)
    requires Permutes(env)
    requires var t := Run(env, World(s, calls, []), request).w.trace; i < |t| && t[i].PodEvicted?
    ensures var t := Run(env, World(s, calls, []), request).w.trace; var now := Replay(s, t[..i]);
            && accepted < i
            && Sustained(env.lib, s, t[accepted])
            && t[accepted].pair.node.meta.name == t[i].host
            && t[i].pod in t[accepted].pair.node.pods && MustLeave(t[i].pod) && Portable(t[i].pod)
            && Tainted(now, t[i].host) && (!Tainted(s, t[i].host) ==> Closed(env.lib, now, t[i].host))
  {
    hide Run, Justified, Sustained, Tainted, TaintsTracked, Closed;
    RequestAccountable(env, s, calls, request);
    var t := Run(env, World(s, calls, []), request).w.trace;
    accepted := VettedBy(env.lib, s, t[..i], Replay(s, t[..i]), t[i]);
    LogTracked(env.lib, s, t, i);
    if !Tainted(s, t[i].host) {
      TrackedIsClosed(env.lib, s, Replay(s, t[..i]), t[i].host);
    }
  }

  lemma TrackedIsClosed(lib: Library, s: State, now: State, name: string)
    requires TaintsTracked(s, now) && Tainted(now, name) && !Tainted(s, name)
    ensures Closed(lib, now, name)
  {
    hide ShutsOut, FindNode;
    DrainTaintShutsOut(lib, FindNode(now.nodes, name).value);
  }

  lemma VettedBy(lib: Library, s: State, past: seq<Event>, now: State, e: Event) returns (accepted: nat)
    requires Justified(lib, s, past, now, e) && e.PodEvicted?
    ensures accepted < |past| && Sustained(lib, s, past[accepted]) && past[accepted].pair.node.meta.name == e.host
    ensures e.pod in past[accepted].pair.node.pods && MustLeave(e.pod) && Portable(e.pod) && Tainted(now, e.host)
  {
    hide Tainted;
    var j :| j in past && Sustained(lib, s, j) && j.pair.node.meta.name == e.host && e.pod in Departing(j.pair.node);
    accepted :| accepted < |past| && past[accepted] == j;
  }
}
