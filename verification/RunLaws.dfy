/** Accountability of whole runs: whatever calls fail, every change that a request attempts is
    justified by what the same request did before, down to a verdict on the initial snapshot. */
module RunLaws {
  import opened Kube
  import opened Cluster
  import opened NodeScaler
  import opened Promises
  import opened PromiseLaws
  import opened VerdictLaws
  import opened DrainLaws
  import opened Proxy

  /** An acceptance on record: the machine is evictable and in the pool, the node is a worker of the
      snapshot, they belong together, and the node was vetted against the same snapshot. */
  ghost predicate Sustained(lib: Library, s: State, e: Event) {
    && e.Judged?
    && e.pair.machine.evictable
    && e.pair.machine in s.machines
    && e.pair.node in Snapshot(s)
    && (forall p :: p in e.pair.node.pods ==> !ApiServerOn(p, e.pair.node.meta.name))
    && e.pair.node.meta.externalID == e.pair.machine.id
    && Vetted(lib, s, e.pair.node, e.evidence)
  }

  ghost predicate SustainedFor(lib: Library, s: State, past: seq<Event>, name: string) {
    exists j :: j in past && Sustained(lib, s, j) && j.pair.node.meta.name == name
  }

  /** The log ends with the successful evictions of exactly the pods that have to leave, in order. */
  ghost predicate EvictedAll(log: seq<Event>, node: NodeView) {
    var pods := Departing(node);
    && |pods| <= |log|
    && forall i :: 0 <= i < |pods| ==>
         var e := log[|log| - |pods| + i];
         e.PodEvicted? && e.host == node.meta.name && e.pod == pods[i] && e.ok
  }

  /** What the request must have logged (`past`), and what must hold of the state (`now`), for it to
      attempt the change `e`. `s` is the state in which the request started.
      - a node is updated only by adding the drain taint or removing it, and evicted from only while it
        is tainted;
      - only pods of an accepted node are evicted, and recreated as they were but for node and name;
      - a drain counts as successful right after all pods of an accepted node were evicted;
      - a node is deleted right after its successful drain;
      - a machine is terminated right after its node's drain and deletion succeeded;
      - a rollback starts right after a failed eviction;
      - the pool is resized only by a request that has done nothing else. */
  ghost predicate Justified(lib: Library, s: State, past: seq<Event>, now: State, e: Event) {
    match e
    case NodeUpdated(node, _) =>
      && SustainedFor(lib, s, past, node.name)
      && FindNode(now.nodes, node.name).Some?
      && node == FindNode(now.nodes, node.name).value.(taints := node.taints)
      && TaintStep(FindNode(now.nodes, node.name).value.taints, node.taints)
    case PodEvicted(host, pod, respawn, _) =>
      && Tainted(now, host)
      && (respawn.Some? ==>
            respawn.value == pod.(nodeName := respawn.value.nodeName, name := respawn.value.name))
      && (exists j :: j in past && Sustained(lib, s, j) && j.pair.node.meta.name == host
                      && pod in Departing(j.pair.node))
    case NodeDeleted(name, _) =>
      && |past| >= 1 && past[|past| - 1] == Drained(name, true)
      && SustainedFor(lib, s, past, name)
    case MachineTerminated(id, _, _) =>
      && |past| >= 2
      && (exists j :: j in past && Sustained(lib, s, j) && j.pair.machine.id == id
                      && past[|past| - 2] == Drained(j.pair.node.meta.name, true)
                      && past[|past| - 1] == NodeDeleted(j.pair.node.meta.name, true)
                      && EvictedAll(past[..|past| - 2], j.pair.node))
    case PoolResized(_, _) => past == []
    case Judged(_, _) => Sustained(lib, s, e)
    case RollingBack(name) =>
      |past| >= 1 && past[|past| - 1].PodEvicted? && past[|past| - 1].host == name && !past[|past| - 1].ok
    case Drained(name, ok) =>
      exists j :: j in past && Sustained(lib, s, j) && j.pair.node.meta.name == name
                  && (ok ==> EvictedAll(past, j.pair.node))
  }

  /** The log leads from `s` to `now`, and each entry is justified at the point where it happened. */
  ghost predicate Accountable(lib: Library, s: State, now: State, log: seq<Event>) {
    && now == Replay(s, log)
    && (forall i :: 0 <= i < |log| ==> Justified(lib, s, log[..i], Replay(s, log[..i]), log[i]))
  }

  lemma AccountableSnoc(lib: Library, s: State, now: State, log: seq<Event>, e: Event)
    requires Accountable(lib, s, now, log) && Justified(lib, s, log, now, e)
    ensures Accountable(lib, s, Effect(now, e), log + [e])
  {
    hide Justified;
    var t := log + [e];
    assert t[..|log|] == log;
    forall i | 0 <= i < |t| ensures Justified(lib, s, t[..i], Replay(s, t[..i]), t[i]) {
      assert i < |log| ==> t[..i] == log[..i];
    }
  }

  ghost predicate OnRecord(lib: Library, s: State, past: seq<Event>, pair: Pair) {
    exists j :: j in past && Sustained(lib, s, j) && j.pair == pair
  }

  // ---- Drain ----

  lemma UpdateAccountable(env: Env, s: State, w: World, name: string, taints: seq<Taint>)
    requires Accountable(env.lib, s, w.state, w.trace)
    requires SustainedFor(env.lib, s, w.trace, name) && FindNode(w.state.nodes, name).Some?
    requires TaintStep(FindNode(w.state.nodes, name).value.taints, taints)
    ensures var u := UpdateNode(env, w, FindNode(w.state.nodes, name).value.(taints := taints));
            Accountable(env.lib, s, u.w.state, u.w.trace) && w.trace <= u.w.trace
  {
    hide Accountable, Sustained, TaintStep, FindNode;
    var node := FindNode(w.state.nodes, name).value.(taints := taints);
    var e := NodeUpdated(node, UpdateNode(env, w, node).r);
    assert Justified(env.lib, s, w.trace, w.state, e);
    AccountableSnoc(env.lib, s, w.state, w.trace, e);
  }

  lemma MarkAccountable(env: Env, s: State, w: World, name: string)
    requires Accountable(env.lib, s, w.state, w.trace)
    requires SustainedFor(env.lib, s, w.trace, name)
    ensures var m := MarkUnschedulable(env, w, name);
            Accountable(env.lib, s, m.w.state, m.w.trace) && w.trace <= m.w.trace
  {
    hide Accountable, Sustained;
    var g := GetNode(env, w, name);
    if g.r.Some? && !HasDrainTaint(g.r.value.taints) {
      DrainKeyIs(g.r.value.taints);
      UpdateAccountable(env, s, g.w, name, g.r.value.taints + [DRAIN_TAINT]);
    }
  }

  lemma {:induction false} EvictAllAccountable(env: Env, s: State, w: World, pair: Pair, pods: seq<Pod>)
    requires Accountable(env.lib, s, w.state, w.trace)
    requires OnRecord(env.lib, s, w.trace, pair) && Tainted(w.state, pair.node.meta.name)
    requires forall p :: p in pods ==> p in VictimPods(pair.node)
    ensures var e := EvictAll(env, w, pair.node.meta.name, pods);
            Accountable(env.lib, s, e.w.state, e.w.trace) && w.trace <= e.w.trace
  {
    hide Accountable, Sustained;
    if pods != [] {
      var k := |pods| - 1;
      var host := pair.node.meta.name;
      EvictAllAccountable(env, s, w, pair, pods[..k]);
      EvictionsKeepRest(env, w, host, pods[..k]);
      var sofar := EvictAll(env, w, host, pods[..k]);
      if sofar.r {
        assert pods[k] in pods;
        EvictOneAccountable(env, s, sofar.w, pair, pods[k]);
      }
    }
  }

  lemma EvictOneAccountable(env: Env, s: State, w: World, pair: Pair, pod: Pod)
    requires Accountable(env.lib, s, w.state, w.trace)
    requires OnRecord(env.lib, s, w.trace, pair) && Tainted(w.state, pair.node.meta.name)
    requires pod in VictimPods(pair.node)
    ensures var e := EvictPod(env, w, pair.node.meta.name, pod);
            Accountable(env.lib, s, e.w.state, e.w.trace) && w.trace <= e.w.trace
  {
    hide Accountable, Sustained, Departing, VictimPods, Tainted;
    DepartingPods(pair.node);
    var e := EvictPod(env, w, pair.node.meta.name, pod).w.trace[|w.trace|];
    assert Justified(env.lib, s, w.trace, w.state, e);
    AccountableSnoc(env.lib, s, w.state, w.trace, e);
  }

  lemma RollBackAccountable(env: Env, s: State, w: World, name: string)
    requires Accountable(env.lib, s, w.state, w.trace)
    requires SustainedFor(env.lib, s, w.trace, name)
    requires |w.trace| >= 1 && var last := w.trace[|w.trace| - 1]; last.PodEvicted? && last.host == name && !last.ok
    ensures Accountable(env.lib, s, RollBack(env, w, name).state, RollBack(env, w, name).trace) && w.trace <= RollBack(env, w, name).trace
  {
    hide Accountable, Sustained;
    assert Justified(env.lib, s, w.trace, w.state, RollingBack(name));
    AccountableSnoc(env.lib, s, w.state, w.trace, RollingBack(name));
    var w1 := Emit(w, RollingBack(name));
    SustainedLater(env.lib, s, w.trace, w1.trace, name);
    var g := GetNode(env, w1, name);
    if g.r.Some? {
      WithoutKeyIs(g.r.value.taints);
      UpdateAccountable(env, s, g.w, name, WithoutDrainTaint(g.r.value.taints));
    }
  }

  lemma SustainedLater(lib: Library, s: State, past: seq<Event>, later: seq<Event>, name: string)
    requires SustainedFor(lib, s, past, name) && past <= later
    ensures SustainedFor(lib, s, later, name)
  {
    var j :| j in past && Sustained(lib, s, j) && j.pair.node.meta.name == name;
    assert j in later;
  }

  lemma OnRecordLater(lib: Library, s: State, past: seq<Event>, later: seq<Event>, pair: Pair)
    requires OnRecord(lib, s, past, pair) && past <= later
    ensures OnRecord(lib, s, later, pair) && SustainedFor(lib, s, later, pair.node.meta.name)
  {
    var j :| j in past && Sustained(lib, s, j) && j.pair == pair;
    assert j in later;
  }

  lemma DrainEnds(env: Env, s: State, w: World, pair: Pair, ok: bool)
    requires Accountable(env.lib, s, w.state, w.trace) && OnRecord(env.lib, s, w.trace, pair)
    requires ok ==> EvictedAll(w.trace, pair.node)
    ensures Accountable(env.lib, s, w.state, w.trace + [Drained(pair.node.meta.name, ok)])
  {
    hide Accountable, Sustained, EvictedAll;
    var e := Drained(pair.node.meta.name, ok);
    assert Justified(env.lib, s, w.trace, w.state, e);
    AccountableSnoc(env.lib, s, w.state, w.trace, e);
  }

  lemma EvictPhaseAccountable(env: Env, s: State, w: World, pair: Pair)
    requires Accountable(env.lib, s, w.state, w.trace)
    requires OnRecord(env.lib, s, w.trace, pair) && Tainted(w.state, pair.node.meta.name)
    ensures var e := EvictAll(env, w, pair.node.meta.name, VictimPods(pair.node));
            var w' := if e.r then e.w else RollBack(env, e.w, pair.node.meta.name);
            && Accountable(env.lib, s, w'.state, w'.trace) && w.trace <= w'.trace
            && (e.r ==> EvictedAll(w'.trace, pair.node))
  {
    hide Accountable, Sustained, VictimPods, Departing, RollBack, EvictAll;
    var name := pair.node.meta.name;
    DepartingPods(pair.node);
    EvictAllAccountable(env, s, w, pair, VictimPods(pair.node));
    var e := EvictAll(env, w, name, VictimPods(pair.node));
    var log := EvictAllLog(env, w, name, VictimPods(pair.node));
    if !e.r {
      assert e.w.trace[|e.w.trace| - 1] == log[|log| - 1];
      OnRecordLater(env.lib, s, w.trace, e.w.trace, pair);
      RollBackAccountable(env, s, e.w, name);
    }
  }

  lemma MarkPhaseAccountable(env: Env, s: State, w: World, pair: Pair)
    requires Accountable(env.lib, s, w.state, w.trace)
    requires OnRecord(env.lib, s, w.trace, pair)
    ensures var m := MarkUnschedulable(env, w, pair.node.meta.name);
            && Accountable(env.lib, s, m.w.state, m.w.trace) && w.trace <= m.w.trace && OnRecord(env.lib, s, m.w.trace, pair)
            && SustainedFor(env.lib, s, m.w.trace, pair.node.meta.name)
            && (m.r ==> Tainted(m.w.state, pair.node.meta.name))
  {
    hide Accountable, Sustained;
    var name := pair.node.meta.name;
    OnRecordLater(env.lib, s, w.trace, w.trace, pair);
    MarkAccountable(env, s, w, name);
    OnRecordLater(env.lib, s, w.trace, MarkUnschedulable(env, w, name).w.trace, pair);
    if MarkUnschedulable(env, w, name).r {
      MarkTaints(env, w, name);
    }
  }

  lemma DrainAccountable(env: Env, s: State, w: World, pair: Pair)
    requires Accountable(env.lib, s, w.state, w.trace)
    requires OnRecord(env.lib, s, w.trace, pair)
    ensures var d := DrainNode(env, w, pair.node);
            && Accountable(env.lib, s, d.w.state, d.w.trace) && w.trace <= d.w.trace
            && |d.w.trace| >= 1 && d.w.trace[|d.w.trace| - 1] == Drained(pair.node.meta.name, d.r)
            && (d.r ==> EvictedAll(d.w.trace[..|d.w.trace| - 1], pair.node))
  {
    hide Accountable, OnRecord, SustainedFor, Tainted, MarkUnschedulable, RollBack, EvictAll, EvictedAll, VictimPods;
    var name := pair.node.meta.name;
    MarkPhaseAccountable(env, s, w, pair);
    var marked := MarkUnschedulable(env, w, name);
    if !marked.r {
      DrainEnds(env, s, marked.w, pair, false);
    } else {
      EvictPhaseAccountable(env, s, marked.w, pair);
      var e := EvictAll(env, marked.w, name, VictimPods(pair.node));
      var w' := if e.r then e.w else RollBack(env, e.w, name);
      OnRecordLater(env.lib, s, marked.w.trace, w'.trace, pair);
      DrainEnds(env, s, w', pair, e.r);
      assert (w'.trace + [Drained(name, e.r)])[..|w'.trace|] == w'.trace;
    }
  }

  // ---- Removal of victims ----

  lemma DeleteAccountable(env: Env, s: State, w: World, pair: Pair)
    requires Accountable(env.lib, s, w.state, w.trace) && OnRecord(env.lib, s, w.trace, pair)
    requires |w.trace| >= 1 && w.trace[|w.trace| - 1] == Drained(pair.node.meta.name, true)
    ensures var d := DeleteNode(env, w, pair.node.meta.name); Accountable(env.lib, s, d.w.state, d.w.trace)
  {
    hide Accountable, Sustained;
    var e := NodeDeleted(pair.node.meta.name, DeleteNode(env, w, pair.node.meta.name).r);
    OnRecordLater(env.lib, s, w.trace, w.trace, pair);
    assert Justified(env.lib, s, w.trace, w.state, e);
    AccountableSnoc(env.lib, s, w.state, w.trace, e);
  }

  lemma StopAccountable(env: Env, s: State, w: World, pair: Pair, decrement: bool)
    requires Accountable(env.lib, s, w.state, w.trace) && OnRecord(env.lib, s, w.trace, pair)
    requires |w.trace| >= 2 && w.trace[|w.trace| - 2] == Drained(pair.node.meta.name, true)
    requires w.trace[|w.trace| - 1] == NodeDeleted(pair.node.meta.name, true)
    requires EvictedAll(w.trace[..|w.trace| - 2], pair.node)
    ensures var t := StopMachine(env, w, pair.machine.id, decrement); Accountable(env.lib, s, t.w.state, t.w.trace)
  {
    hide Accountable, Sustained, EvictedAll;
    var e := MachineTerminated(pair.machine.id, decrement, StopMachine(env, w, pair.machine.id, decrement).r);
    assert Justified(env.lib, s, w.trace, w.state, e);
    AccountableSnoc(env.lib, s, w.state, w.trace, e);
  }

  lemma RemovalAccountable(env: Env, s: State, w: World, pair: Pair, decrement: bool)
    requires Accountable(env.lib, s, w.state, w.trace) && OnRecord(env.lib, s, w.trace, pair)
    ensures var e := EvictAndTerminate(env, w, pair, decrement);
            Accountable(env.lib, s, e.w.state, e.w.trace) && w.trace <= e.w.trace
  {
    hide Accountable, Sustained, EvictedAll, DrainNode;
    DrainAccountable(env, s, w, pair);
    var drain := DrainNode(env, w, pair.node);
    OnRecordLater(env.lib, s, w.trace, drain.w.trace, pair);
    if drain.r {
      DeleteAccountable(env, s, drain.w, pair);
      var delete := DeleteNode(env, drain.w, pair.node.meta.name);
      OnRecordLater(env.lib, s, w.trace, delete.w.trace, pair);
      if delete.r {
        assert delete.w.trace[..|delete.w.trace| - 2] == drain.w.trace[..|drain.w.trace| - 1];
        StopAccountable(env, s, delete.w, pair, decrement);
      }
    }
  }

  lemma {:induction false} RemoveAllAccountable(env: Env, s: State, w: World, victims: seq<Pair>)
    requires Accountable(env.lib, s, w.state, w.trace)
    requires forall v :: v in victims ==> OnRecord(env.lib, s, w.trace, v)
    ensures var r := RemoveAll(env, w, victims);
            Accountable(env.lib, s, r.w.state, r.w.trace) && w.trace <= r.w.trace
  {
    hide Accountable, Sustained;
    if victims != [] {
      var k := |victims| - 1;
      RemoveAllAccountable(env, s, w, victims[..k]);
      var sofar := RemoveAll(env, w, victims[..k]);
      if sofar.r {
        assert victims[k] in victims;
        OnRecordLater(env.lib, s, w.trace, sofar.w.trace, victims[k]);
        RemovalAccountable(env, s, sofar.w, victims[k], true);
      }
    }
  }

  // ---- Judging ----

  /** A pair that the request may judge: a worker of the snapshot with its own machine. */
  ghost predicate Eligible(s: State, pair: Pair) {
    && pair.node in Snapshot(s) && !IsMaster(pair.node)
    && pair.machine in s.machines
    && pair.node.meta.externalID == pair.machine.id
  }

  lemma RecordAccountable(env: Env, s: State, w: World, pair: Pair, evidence: Evidence)
    requires Accountable(env.lib, s, w.state, w.trace)
    requires Sustained(env.lib, s, Judged(pair, evidence))
    ensures var w' := Emit(w, Judged(pair, evidence));
            Accountable(env.lib, s, w'.state, w'.trace) && OnRecord(env.lib, s, w'.trace, pair)
  {
    hide Accountable, Sustained;
    var e := Judged(pair, evidence);
    assert Justified(env.lib, s, w.trace, w.state, e);
    AccountableSnoc(env.lib, s, w.state, w.trace, e);
    assert e in Emit(w, e).trace;
  }

  /** A verdict that is not positive leaves no trace; a positive one leaves one entry, and holds up. */
  lemma JudgeSustained(env: Env, w: World, pair: Pair)
    requires Eligible(w.state, pair)
    ensures var j := JudgePair(env, w, pair);
            && j.w.state == w.state
            && (!j.r.Accepted? ==> j.w.trace == w.trace)
            && (j.r.Accepted? ==> Sustained(env.lib, w.state, Judged(pair, j.r.evidence))
                                  && j.w.trace == w.trace + [Judged(pair, j.r.evidence)])
  {
    hide Vetted, SnapshotVerdict, IsScaleDownCandidate, IsMaster, Snapshot;
    MastersAre(pair.node);
    VerdictIsOfSnapshot(env, w, pair.node);
    if SnapshotVerdict(env.lib, w.state, pair.node).Accepted? {
      AcceptedIsVetted(env.lib, w.state, pair.node);
    }
  }

  lemma JudgeAccountable(env: Env, s: State, w: World, pair: Pair)
    requires Accountable(env.lib, s, w.state, w.trace) && w.state == s && Eligible(s, pair)
    ensures var j := JudgePair(env, w, pair);
            && Accountable(env.lib, s, j.w.state, j.w.trace) && w.trace <= j.w.trace && j.w.state == s
            && (j.r.Accepted? ==> OnRecord(env.lib, s, j.w.trace, pair))
  {
    hide Accountable, Sustained, IsScaleDownCandidate;
    JudgeSustained(env, w, pair);
    var j := JudgePair(env, w, pair);
    if j.r.Accepted? {
      RecordAccountable(env, s, w, pair, j.r.evidence);
    }
  }

  lemma {:induction false} PartitionAccountable(env: Env, s: State, w: World, pairs: seq<Pair>)
    requires Accountable(env.lib, s, w.state, w.trace) && w.state == s
    requires forall p :: p in pairs ==> Eligible(s, p)
    ensures var r := Partition(env, w, pairs);
            && Accountable(env.lib, s, r.w.state, r.w.trace) && r.w.state == s
            && (r.r.Some? ==> forall c :: c in r.r.value.candidates ==> OnRecord(env.lib, s, r.w.trace, c))
  {
    hide Accountable, Sustained;
    if pairs != [] {
      var k := |pairs| - 1;
      PartitionAccountable(env, s, w, pairs[..k]);
      var sofar := Partition(env, w, pairs[..k]);
      if sofar.r.Some? {
        JudgeAccountable(env, s, sofar.w, pairs[k]);
        var j := JudgePair(env, sofar.w, pairs[k]);
        forall c | c in sofar.r.value.candidates ensures OnRecord(env.lib, s, j.w.trace, c) {
          OnRecordLater(env.lib, s, sofar.w.trace, j.w.trace, c);
        }
      }
    }
  }
}
