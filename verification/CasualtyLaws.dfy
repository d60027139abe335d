/** What a failed scale-down leaves behind: which victims are gone, which machine has lost its node, and
    which node keeps the drain taint. */
module CasualtyLaws {
  import opened Kube
  import opened Cluster
  import opened NodeScaler
  import opened Promises
  import opened PromiseLaws
  import opened VerdictLaws
  import opened DrainLaws
  import opened Proxy
  import opened RunLaws
  import opened RequestLaws
  import opened RemovalLaws
  import opened SizeLaws
  import opened LogLaws
  import opened OutcomeLaws
  import opened ResizeLaws

  lemma VictimsEligible(s: State, victims: seq<Pair>)
    requires forall v :: v in victims ==> v in Pairs(s)
    ensures forall v :: v in victims ==> Eligible(s, v)
  {
    hide Eligible;
    PairsAreEligible(s);
  }

  lemma EmptyAftermath(s: State)
    ensures Aftermath(s, s, [], 0) && DistinctNames([]) && TakesFirst([], [], 0) && EvictsFirst([], [], 0)
  {
    NothingRemoved(s);
  }

  lemma AfterJudging(judged: seq<Event>, removals: seq<Event>, victims: seq<Pair>, m: nat)
    requires (forall e :: e in judged ==> e.Judged?) && RemovalsLogOf(removals, victims, m)
    ensures TakesFirst(judged + removals, victims, m) && EvictsFirst(judged + removals, victims, m)
    ensures AcceptedPairs(judged + removals) == AcceptedPairs(judged) && |AcceptedPairs(judged)| == |judged|
  {
    hide Terminations, Evicted, Acceptances, EvictsOnly, PodsOf;
    AcceptancesOf(judged, removals);
    TerminationsConcat(judged, removals);
    EvictedConcat(judged, removals);
  }

  /** The victims are the least loaded accepted pairs. A request that fails at a victim has completely
      removed the victims before it, and has not touched those after it, their pods included, nor
      anything else; its terminations are exactly those of the victims before. */
  lemma ScaleDownAftermath(env: Env, s: State, calls: nat, desired: int) returns (victims: seq<Pair>, m: nat)
    requires Permutes(env) && UniqueNames(s.nodes) && desired < |Roster(s)|
    ensures var r := SetDesiredSize(env, World(s, calls, []), desired); var t := r.w.trace;
            && Aftermath(s, r.w.state, victims, m)
            && victims <= env.sort(AcceptedPairs(t))
            && TakesFirst(t, victims, m) && EvictsFirst(t, victims, m)
            && (forall v :: v in victims ==> Eligible(s, v)) && DistinctNames(victims)
            && (r.r.Done? ==> m == |victims| == Min(|Roster(s)| - desired, |AcceptedPairs(t)|))
            && (m == |victims| ==> r.r.Done? || victims == [])
  {
    hide SetDesiredSize, ScaleDown, DistinctNames, Aftermath, UniqueNames, Pairs, TakesFirst, EvictsFirst, RemovalsLogOf, RemoveAll, Roster, Acceptances, AcceptedPairs;
    var r := SetDesiredSize(env, World(s, calls, []), desired);
    var w := SetSizeCases(env, s, calls, desired);
    PairsAreRoster(s);
    if r.w.trace == [] && r.w.state == s && r.r.Failed? {
      victims, m := [], 0;
      EmptyAftermath(s);
    } else {
      var from;
      from, victims := ScaleDownShape(env, w, Pairs(s), desired);
      m := Completed(env, from, victims);
      RemovalStopsAtFailure(env, from, victims);
      var removals := RemoveAllLog(env, from, victims);
      AfterJudging(from.trace, removals, victims, m);
      VictimsEligible(s, victims);
    }
  }

  // ---- The end of one removal ----

  predicate EndsWith(log: seq<Event>, e: Event) {
    log != [] && log[|log| - 1] == e
  }

  /** The request ended with a node that could not be deleted after its drain, or with a rollback that
      could not read or could not update the node. */
  predicate LeftTainted(log: seq<Event>, name: string) {
    var n := |log|;
    || EndsWith(log, NodeDeleted(name, false))
    || (n >= 2 && log[n - 2] == RollingBack(name) && log[n - 1] == Drained(name, false))
    || (n >= 3 && log[n - 3] == RollingBack(name) && log[n - 2].NodeUpdated? && !log[n - 2].ok
        && log[n - 1] == Drained(name, false))
  }

  /** The log of a request that is between two removals, or has not begun the first. */
  predicate Between(log: seq<Event>) {
    log == [] || var last := log[|log| - 1]; last.Judged? || (last.MachineTerminated? && last.ok)
  }

  lemma UntaintedIsClean(taints: seq<Taint>)
    ensures !HasDrainKey(WithoutDrainTaint(taints))
  {
    WithoutKeyIs(taints);
  }

  lemma RollBackTaint(env: Env, w: World, name: string)
    requires Tainted(w.state, name)
    ensures var r := RollBack(env, w, name);
            Tainted(r.state, name) <==> LeftTainted(r.trace + [Drained(name, false)], name)
  {
    hide FindNode, WithoutDrainTaint, HasDrainTaint;
    var g := GetNode(env, Emit(w, RollingBack(name)), name);
    if g.r.Some? {
      var node := g.r.value.(taints := WithoutDrainTaint(g.r.value.taints));
      FindReplaced(w.state.nodes, node);
      UntaintedIsClean(g.r.value.taints);
    }
  }

  lemma FailedMark(env: Env, w: World, name: string)
    requires Between(w.trace) && !MarkUnschedulable(env, w, name).r
    ensures var m := MarkUnschedulable(env, w, name);
            m.w.state.nodes == w.state.nodes && !LeftTainted(m.w.trace + [Drained(name, false)], name)
  {
    FailedMarkState(env, w, name);
    hide MarkUnschedulable;
    var marks := MarkLog(env, w, name);
    var t := MarkUnschedulable(env, w, name).w.trace + [Drained(name, false)];
    if marks == [] {
      assert |t| >= 2 ==> t[|t| - 2] == w.trace[|w.trace| - 1];
    } else {
      assert t[|t| - 2] == marks[0] && marks[0] in marks;
      assert |t| >= 3 ==> t[|t| - 3] == w.trace[|w.trace| - 1];
    }
  }

  lemma FailedMarkState(env: Env, w: World, name: string)
    requires !MarkUnschedulable(env, w, name).r
    ensures MarkUnschedulable(env, w, name).w.state.nodes == w.state.nodes
  {
    hide FindNode, HasDrainTaint;
  }

  /** A drain never deletes its node, and leaves it tainted if it succeeds. */
  lemma DrainLeaves(env: Env, w: World, node: NodeView)
    requires Between(w.trace)
    ensures var d := DrainNode(env, w, node); var name := node.meta.name;
            && (d.r ==> Tainted(d.w.state, name))
            && (!d.r && !Tainted(w.state, name) ==> (Tainted(d.w.state, name) <==> LeftTainted(d.w.trace, name)))
            && (!d.r && FindNode(w.state.nodes, name).Some? ==> FindNode(d.w.state.nodes, name).Some?)
            && d.w.trace != [] && d.w.trace[|d.w.trace| - 1] == Drained(name, d.r)
  {
    hide MarkUnschedulable, EvictAll, RollBack, Tainted, VictimPods, LeftTainted;
    var name := node.meta.name;
    var mark := MarkUnschedulable(env, w, name);
    if !mark.r {
      FailedMark(env, w, name);
      SameTaint(w.state, mark.w.state, name);
    } else {
      MarkTaints(env, w, name);
      var e := EvictAll(env, mark.w, name, VictimPods(node));
      EvictionsKeepRest(env, mark.w, name, VictimPods(node));
      SameTaint(mark.w.state, e.w.state, name);
      if !e.r {
        RollBackTaint(env, e.w, name);
        RollBackKeepsNode(env, e.w, name);
      }
    }
  }

  lemma SameTaint(s: State, s': State, name: string)
    requires s'.nodes == s.nodes
    ensures Tainted(s', name) <==> Tainted(s, name)
  {
  }

  lemma RollBackKeepsNode(env: Env, w: World, name: string)
    requires Tainted(w.state, name)
    ensures FindNode(RollBack(env, w, name).state.nodes, name).Some?
  {
    hide FindNode, WithoutDrainTaint, HasDrainTaint;
    var g := GetNode(env, Emit(w, RollingBack(name)), name);
    if g.r.Some? {
      FindReplaced(w.state.nodes, g.r.value.(taints := WithoutDrainTaint(g.r.value.taints)));
    }
  }

  /** A removal leaves an untainted node tainted exactly if its log ends accordingly, and a node is gone
      after a removal that fails exactly if what failed is the termination. */
  lemma RemovalEnd(env: Env, w: World, victim: Pair, decrement: bool)
    requires Between(w.trace) && FindNode(w.state.nodes, victim.node.meta.name).Some?
    ensures var e := EvictAndTerminate(env, w, victim, decrement);
            var name, id := victim.node.meta.name, victim.machine.id;
            && (!Tainted(w.state, name) ==> (Tainted(e.w.state, name) <==> LeftTainted(e.w.trace, name)))
            && (!e.r && FindNode(e.w.state.nodes, name).None? <==> EndsWith(e.w.trace, MachineTerminated(id, decrement, false)))
            && (forall other :: LeftTainted(e.w.trace, other) ==> other == name)
            && (forall e' :: EndsWith(e.w.trace, e') && e'.MachineTerminated? ==> e' == MachineTerminated(id, decrement, e.r))
            && (e.r ==> EndsWith(e.w.trace, MachineTerminated(id, decrement, true)))
  {
    hide DrainNode, FindNode, HasDrainKey, WithoutNodes;
    var name := victim.node.meta.name;
    DrainLeaves(env, w, victim.node);
    var drain := DrainNode(env, w, victim.node);
    if drain.r {
      FindWithout(drain.w.state.nodes, {name}, name);
    } else {
      LeftTaintedBy(env, w, victim.node);
    }
  }

  lemma LeftTaintedBy(env: Env, w: World, node: NodeView)
    requires !DrainNode(env, w, node).r
    ensures forall other :: LeftTainted(DrainNode(env, w, node).w.trace, other) ==> other == node.meta.name
  {
    hide MarkUnschedulable, EvictAll, RollBack, VictimPods;
  }

  // ---- Casualties ----

  /** A running machine whose node was deleted by the request. */
  ghost predicate Orphaned(s: State, s': State, id: string) {
    && (exists n :: n in s.nodes && n.externalID == id)
    && (forall n :: n in s'.nodes ==> n.externalID != id)
    && RunsOnActive(s'.machines, id)
  }

  ghost predicate NewlyTainted(s: State, s': State, name: string) {
    Tainted(s', name) && !Tainted(s, name)
  }

  lemma RemovedTaintsNobody(s: State, s': State, victims: seq<Pair>, size: int, name: string)
    requires Removed(s, s', Names(victims), Ids(victims), size)
    ensures !NewlyTainted(s, s', name)
  {
    FindWithout(s.nodes, Names(victims), name);
  }

  lemma OnlyNodeTainted(s: State, s': State, name: string, victim: string)
    requires OnlyNode(s, s', victim) && NewlyTainted(s, s', name)
    ensures name == victim
  {
    FindWithout(s.nodes, {victim}, name);
    FindWithout(s'.nodes, {victim}, name);
  }

  /** A machine that runs in the end was not stopped, so its node was not removed with the victims. */
  lemma RemovedOrphansNobody(s: State, s1: State, victims: seq<Pair>, size: int, n: Node)
    requires UniqueNames(s.nodes) && Removed(s, s1, Names(victims), Ids(victims), size)
    requires forall v :: v in victims ==> Eligible(s, v)
    requires n in s.nodes && RunsOnActive(s1.machines, n.externalID)
    ensures n.name !in Names(victims) && n in s1.nodes
  {
    if n.name in Names(victims) {
      var v :| v in victims && v.node.meta.name == n.name;
      SnapshotNodes(s, v.node);
      SameNameSameNode(s.nodes, n, v.node.meta);
      StoppedIsInactive(s.machines, Ids(victims), v.machine.id);
    }
  }

  lemma StoppedIsInactive(machines: seq<Machine>, ids: set<string>, id: string)
    requires id in ids
    ensures !RunsOnActive(Stop(machines, ids), id)
  {
    forall m | m in Stop(machines, ids) && m.id == id ensures !ActiveMachine(m) {
      var i :| 0 <= i < |machines| && Stop(machines, ids)[i] == m;
    }
  }

  lemma RemovedOrphans(s: State, s': State, victims: seq<Pair>, size: int, id: string)
    requires UniqueNames(s.nodes) && Removed(s, s', Names(victims), Ids(victims), size)
    requires forall v :: v in victims ==> Eligible(s, v)
    ensures !Orphaned(s, s', id)
  {
    hide Removed, Eligible, UniqueNames, RunsOnActive;
    if Orphaned(s, s', id) {
      var n :| n in s.nodes && n.externalID == id;
      RemovedOrphansNobody(s, s', victims, size, n);
    }
  }

  lemma OnlyNodeKeeps(s: State, s': State, name: string, n: Node)
    requires OnlyNode(s, s', name) && n in s.nodes && n !in s'.nodes
    ensures n.name == name
  {
    assert n !in WithoutNodes(s'.nodes, {name});
    assert n !in WithoutNodes(s.nodes, {name});
  }

  lemma EligibleNode(s: State, pair: Pair, n: Node)
    requires UniqueNames(s.nodes) && Eligible(s, pair) && n in s.nodes && n.name == pair.node.meta.name
    ensures n.externalID == pair.machine.id
  {
    SnapshotNodes(s, pair.node);
    SameNameSameNode(s.nodes, n, pair.node.meta);
  }

  /** A removal changes nothing of its node but the taints, as long as the node is there. */
  lemma DrainKeepsNode(env: Env, w: World, node: NodeView)
    requires FindNode(w.state.nodes, node.meta.name).Some?
    ensures var before := FindNode(w.state.nodes, node.meta.name).value;
            var after := FindNode(DrainNode(env, w, node).w.state.nodes, node.meta.name);
            after.Some? ==> SameButTaints(after.value, before)
  {
    hide MarkUnschedulable, EvictAll, RollBack, VictimPods, FindNode;
    var name := node.meta.name;
    var mark := MarkUnschedulable(env, w, name);
    if !mark.r {
      FailedMarkState(env, w, name);
    } else {
      MarkKeepsNode(env, w, name);
      var e := EvictAll(env, mark.w, name, VictimPods(node));
      EvictionsKeepRest(env, mark.w, name, VictimPods(node));
      RollBackKeepsRest(env, e.w, name);
    }
  }

  lemma RollBackKeepsRest(env: Env, w: World, name: string)
    requires FindNode(w.state.nodes, name).Some?
    ensures var before := FindNode(w.state.nodes, name).value; var after := FindNode(RollBack(env, w, name).state.nodes, name);
            after.Some? ==> SameButTaints(after.value, before)
  {
    hide FindNode, WithoutDrainTaint;
    var g := GetNode(env, Emit(w, RollingBack(name)), name);
    if g.r.Some? {
      FindReplaced(w.state.nodes, g.r.value.(taints := WithoutDrainTaint(g.r.value.taints)));
    }
  }

  lemma RemovalKeepsNode(env: Env, w: World, victim: Pair, decrement: bool)
    requires FindNode(w.state.nodes, victim.node.meta.name).Some?
    ensures var before := FindNode(w.state.nodes, victim.node.meta.name).value;
            var after := FindNode(EvictAndTerminate(env, w, victim, decrement).w.state.nodes, victim.node.meta.name);
            after.Some? ==> SameButTaints(after.value, before)
  {
    hide DrainNode, FindNode, WithoutNodes;
    DrainKeepsNode(env, w, victim.node);
    FindWithout(DrainNode(env, w, victim.node).w.state.nodes, {victim.node.meta.name}, victim.node.meta.name);
  }

  /** A removal of `victim` begins in `at`, after those of `before` were completed, and fails. */
  ghost predicate FailsAfter(env: Env, s: State, at: World, before: seq<Pair>, victim: Pair, decrement: bool) {
    && UniqueNames(s.nodes) && Eligible(s, victim) && (forall v :: v in before ==> Eligible(s, v))
    && victim.node.meta.name !in Names(before)
    && Removed(s, at.state, Names(before), Ids(before), at.state.desiredSize)
    && Between(at.trace) && !EvictAndTerminate(env, at, victim, decrement).r
  }

  lemma VictimThere(env: Env, s: State, at: World, before: seq<Pair>, victim: Pair, decrement: bool)
    requires FailsAfter(env, s, at, before, victim, decrement)
    ensures FindNode(at.state.nodes, victim.node.meta.name) == FindNode(s.nodes, victim.node.meta.name) == Some(victim.node.meta)
    ensures Between(at.trace) && OnlyNode(at.state, EvictAndTerminate(env, at, victim, decrement).w.state, victim.node.meta.name)
  {
    hide EvictAndTerminate, Snapshot, OthersStay;
    SnapshotNodes(s, victim.node);
    FindWithout(s.nodes, Names(before), victim.node.meta.name);
    SameNameSameNode(s.nodes, victim.node.meta, FindNode(s.nodes, victim.node.meta.name).value);
    RemovalFrame(env, at, victim, decrement);
  }

  lemma FailureTaint(env: Env, s: State, at: World, before: seq<Pair>, victim: Pair, decrement: bool, name: string)
    requires FailsAfter(env, s, at, before, victim, decrement)
    ensures var e := EvictAndTerminate(env, at, victim, decrement);
            NewlyTainted(s, e.w.state, name) <==> !Tainted(s, name) && LeftTainted(e.w.trace, name)
  {
    hide EvictAndTerminate, LeftTainted, FindNode, HasDrainTaint, Between, OnlyNode;
    VictimThere(env, s, at, before, victim, decrement);
    RemovalEnd(env, at, victim, decrement);
    var s' := EvictAndTerminate(env, at, victim, decrement).w.state;
    if name != victim.node.meta.name {
      RemovedTaintsNobody(s, at.state, before, at.state.desiredSize, name);
      if NewlyTainted(s, s', name) {
        OnlyNodeTainted(at.state, s', name, victim.node.meta.name);
      }
    }
  }

  lemma FailureOrphans(env: Env, s: State, at: World, before: seq<Pair>, victim: Pair, decrement: bool, id: string)
    requires FailsAfter(env, s, at, before, victim, decrement)
    requires Orphaned(s, EvictAndTerminate(env, at, victim, decrement).w.state, id)
    ensures EndsWith(EvictAndTerminate(env, at, victim, decrement).w.trace, MachineTerminated(id, decrement, false))
    ensures RunsOnActive(s.machines, id)
  {
    hide EvictAndTerminate, Eligible, UniqueNames, EndsWith, LeftTainted, Between, Tainted, WithoutNodes, FindNode;
    var s' := EvictAndTerminate(env, at, victim, decrement).w.state;
    var name := victim.node.meta.name;
    VictimThere(env, s, at, before, victim, decrement);
    StillActive(s.machines, Ids(before), id);
    var n :| n in s.nodes && n.externalID == id;
    RemovedOrphansNobody(s, at.state, before, at.state.desiredSize, n);
    OnlyNodeKeeps(at.state, s', name, n);
    EligibleNode(s, victim, n);
    SameNameSameNode(s.nodes, n, victim.node.meta);
    RemovalKeepsNode(env, at, victim, decrement);
    RemovalEnd(env, at, victim, decrement);
  }

  lemma StillActive(machines: seq<Machine>, ids: set<string>, id: string)
    ensures RunsOnActive(Stop(machines, ids), id) ==> RunsOnActive(machines, id) && id !in ids
    ensures RunsOnActive(machines, id) && id !in ids ==> RunsOnActive(Stop(machines, ids), id)
  {
    var stopped := Stop(machines, ids);
    if m :| m in stopped && ActiveMachine(m) && m.id == id {
      var i :| 0 <= i < |stopped| && stopped[i] == m;
      assert machines[i] == m;
    }
    if m :| m in machines && ActiveMachine(m) && m.id == id && id !in ids {
      var i :| 0 <= i < |machines| && machines[i] == m;
      assert stopped[i] == m;
    }
  }

  lemma OrphansFailure(env: Env, s: State, at: World, before: seq<Pair>, victim: Pair, decrement: bool, id: string)
    requires FailsAfter(env, s, at, before, victim, decrement) && UniqueOwners(s) && RunsOnActive(s.machines, id)
    requires EndsWith(EvictAndTerminate(env, at, victim, decrement).w.trace, MachineTerminated(id, decrement, false))
    ensures Orphaned(s, EvictAndTerminate(env, at, victim, decrement).w.state, id)
  {
    hide EvictAndTerminate, UniqueNames, LeftTainted, Between, Tainted, RunsOnActive, Snapshot, FindNode;
    var s' := EvictAndTerminate(env, at, victim, decrement).w.state;
    var name := victim.node.meta.name;
    VictimThere(env, s, at, before, victim, decrement);
    RemovalEnd(env, at, victim, decrement);
    SnapshotNodes(s, victim.node);
    forall v | v in before ensures v.machine.id != id {
      SnapshotNodes(s, v.node);
    }
    StillActive(s.machines, Ids(before), id);
    forall n | n in s'.nodes ensures n.externalID != id {
      assert n in WithoutNodes(s'.nodes, {name});
      assert n in s.nodes;
    }
  }

  lemma SuccessEnds(env: Env, w: World, victim: Pair, decrement: bool)
    requires EvictAndTerminate(env, w, victim, decrement).r
    ensures Between(EvictAndTerminate(env, w, victim, decrement).w.trace)
  {
    hide DrainNode;
  }

  lemma AllRemovedEnds(env: Env, w: World, victims: seq<Pair>)
    requires RemoveAll(env, w, victims).r && Between(w.trace)
    ensures Between(RemoveAll(env, w, victims).w.trace)
  {
    hide EvictAndTerminate, Between;
    if victims != [] {
      var k := |victims| - 1;
      SuccessEnds(env, RemoveAll(env, w, victims[..k]).w, victims[k], true);
    }
  }

  lemma BetweenIsClean(log: seq<Event>, id: string, decrement: bool, name: string)
    requires Between(log)
    ensures !LeftTainted(log, name) && !EndsWith(log, MachineTerminated(id, decrement, false))
  {
  }

  /** The two kinds of casualty, by the end of the log. */
  ghost predicate Tell(s: State, s': State, log: seq<Event>, decrement: bool, id: string, name: string) {
    && (NewlyTainted(s, s', name) <==> !Tainted(s, name) && LeftTainted(log, name))
    && (Orphaned(s, s', id) ==> EndsWith(log, MachineTerminated(id, decrement, false)) && RunsOnActive(s.machines, id))
    && (UniqueOwners(s) && EndsWith(log, MachineTerminated(id, decrement, false)) && RunsOnActive(s.machines, id) ==>
          Orphaned(s, s', id))
  }

  lemma FailureTells(env: Env, s: State, at: World, before: seq<Pair>, victim: Pair, decrement: bool, id: string, name: string)
    requires FailsAfter(env, s, at, before, victim, decrement)
    ensures var e := EvictAndTerminate(env, at, victim, decrement); Tell(s, e.w.state, e.w.trace, decrement, id, name)
  {
    hide FailsAfter, EvictAndTerminate, NewlyTainted, Orphaned, UniqueOwners, RunsOnActive, EndsWith, LeftTainted, Tainted;
    FailureTaint(env, s, at, before, victim, decrement, name);
    var e := EvictAndTerminate(env, at, victim, decrement);
    if Orphaned(s, e.w.state, id) {
      FailureOrphans(env, s, at, before, victim, decrement, id);
    }
    if UniqueOwners(s) && EndsWith(e.w.trace, MachineTerminated(id, decrement, false)) && RunsOnActive(s.machines, id) {
      OrphansFailure(env, s, at, before, victim, decrement, id);
    }
  }

  lemma SuccessTells(s: State, s': State, log: seq<Event>, victims: seq<Pair>, decrement: bool, id: string, name: string)
    requires UniqueNames(s.nodes) && Removed(s, s', Names(victims), Ids(victims), s'.desiredSize) && Between(log)
    requires forall v :: v in victims ==> Eligible(s, v)
    ensures Tell(s, s', log, decrement, id, name)
  {
    hide UniqueNames, Removed, Between, Eligible, NewlyTainted, Orphaned, EndsWith, LeftTainted;
    BetweenIsClean(log, id, decrement, name);
    RemovedTaintsNobody(s, s', victims, s'.desiredSize, name);
    RemovedOrphans(s, s', victims, s'.desiredSize, id);
  }

  lemma RemovalsTell(env: Env, w: World, victims: seq<Pair>, id: string, name: string)
    requires UniqueNames(w.state.nodes) && Between(w.trace) && DistinctNames(victims)
    requires forall v :: v in victims ==> Eligible(w.state, v)
    ensures var r := RemoveAll(env, w, victims); Tell(w.state, r.w.state, r.w.trace, true, id, name)
  {
    hide UniqueNames, Between, Eligible, RemoveAll, Tell, EvictAndTerminate, Removed, OthersStay, DistinctNames;
    var m := Completed(env, w, victims);
    var before := victims[..m];
    StopsAt(env, w, victims);
    AllRemoved(env, w, before);
    AllRemovedEnds(env, w, before);
    var at := RemoveAll(env, w, before).w;
    RemovedSize(w.state, at.state, before, w.state.desiredSize - m);
    if m == |victims| {
      assert before == victims;
      SuccessTells(w.state, at.state, at.trace, victims, true, id, name);
    } else {
      NewNameAt(victims, m);
      FailureTells(env, w.state, at, before, victims[m], true, id, name);
    }
  }

  lemma RemovedSize(s: State, s': State, victims: seq<Pair>, size: int)
    requires Removed(s, s', Names(victims), Ids(victims), size)
    ensures Removed(s, s', Names(victims), Ids(victims), s'.desiredSize)
  {
  }

  lemma NewNameAt(victims: seq<Pair>, m: nat)
    requires DistinctNames(victims) && m < |victims|
    ensures victims[m].node.meta.name !in Names(victims[..m])
  {
  }

  lemma QuietTells(s: State, s': State, log: seq<Event>, decrement: bool, id: string, name: string)
    requires s'.nodes == s.nodes && (log == [] || (|log| == 1 && log[0].PoolResized?) || Between(log))
    ensures Tell(s, s', log, decrement, id, name)
  {
  }

  lemma SetSizeTells(env: Env, s: State, calls: nat, desired: int, id: string, name: string)
    requires Permutes(env) && UniqueNames(s.nodes)
    ensures var r := SetDesiredSize(env, World(s, calls, []), desired); Tell(s, r.w.state, r.w.trace, true, id, name)
  {
    hide SetDesiredSize, ScaleDown, Tell, DistinctNames, UniqueNames, Pairs, RemoveAll, Acceptances, AcceptedPairs;
    var r := SetDesiredSize(env, World(s, calls, []), desired);
    var w := SetSizeCases(env, s, calls, desired);
    if r.w.state.nodes == s.nodes && (r.w.trace == [] || (|r.w.trace| == 1 && r.w.trace[0].PoolResized?)) {
      QuietTells(s, r.w.state, r.w.trace, true, id, name);
    } else {
      PairsAreRoster(s);
      var from, victims := ScaleDownShape(env, w, Pairs(s), desired);
      VictimsEligible(s, victims);
      RemovalsTell(env, from, victims, id, name);
    }
  }

  lemma RemoveOneTells(env: Env, w: World, victim: Pair, decrement: bool, id: string, name: string)
    requires UniqueNames(w.state.nodes) && w.trace == [] && Eligible(w.state, victim)
    ensures var r := RemoveOne(env, w, victim, decrement); Tell(w.state, r.w.state, r.w.trace, decrement, id, name)
  {
    hide JudgePair, EvictAndTerminate, Tell, UniqueNames, Eligible, Removed, OthersStay, VictimPods;
    var judged := JudgeLog(env, w, victim);
    var j := JudgePair(env, w, victim);
    assert j.w.trace == judged;
    if j.r.Accepted? {
      AcceptedOneTells(env, j.w, victim, decrement, id, name);
    } else {
      QuietTells(w.state, j.w.state, j.w.trace, decrement, id, name);
    }
  }

  lemma AcceptedOneTells(env: Env, w: World, victim: Pair, decrement: bool, id: string, name: string)
    requires UniqueNames(w.state.nodes) && Between(w.trace) && Eligible(w.state, victim)
    ensures var r := EvictAndTerminate(env, w, victim, decrement); Tell(w.state, r.w.state, r.w.trace, decrement, id, name)
  {
    hide EvictAndTerminate, Tell, UniqueNames, Eligible, Removed, OthersStay, VictimPods, Between;
    var e := EvictAndTerminate(env, w, victim, decrement);
    OneName(victim);
    if e.r {
      SuccessEnds(env, w, victim, decrement);
      RemovalFrame(env, w, victim, decrement);
      RemovedSize(w.state, e.w.state, [victim], if decrement then w.state.desiredSize - 1 else w.state.desiredSize);
      SuccessTells(w.state, e.w.state, e.w.trace, [victim], decrement, id, name);
    } else {
      NothingRemoved(w.state);
      FailureTells(env, w.state, w, [], victim, decrement, id, name);
    }
  }

  lemma OneName(victim: Pair)
    ensures Names([victim]) == {victim.node.meta.name} && Ids([victim]) == {victim.machine.id} && Names([]) == {}
  {
  }

  lemma TerminateTells(env: Env, s: State, calls: nat, victim: string, decrement: bool, id: string, name: string)
    requires UniqueNames(s.nodes)
    ensures var r := TerminateMachine(env, World(s, calls, []), victim, decrement);
            Tell(s, r.w.state, r.w.trace, decrement, id, name)
  {
    hide GetNodeInfos, RemoveOne, Tell, UniqueNames, Snapshot;
    var w := World(s, calls, []);
    ListWorkersReads(env, w);
    QuietTells(s, s, [], decrement, id, name);
    var nodes := ListWorkerNodes(env, w);
    if nodes.r.Some? {
      var node := NodeWithExternalID(nodes.r.value, victim);
      if node.Some? {
        var machine := GetMachine(env, nodes.w, victim);
        if machine.r.Some? {
          RemoveOneTells(env, machine.w, Pair(node.value, machine.r.value), decrement, id, name);
        }
      }
    }
  }

  predicate DecrementOf(request: Request) {
    request.SetSize? || request.decrement
  }

  /** Exactly when a request leaves a casualty, whatever calls fail: an active machine has lost its node
      if and only if the last thing the request attempted was to terminate it, in vain; an untainted node
      has become tainted if and only if the request ended with a failed deletion of it, or with a rollback
      that could not read or update it. */
  lemma CasualtiesExactly(env: Env, s: State, calls: nat, request: Request, id: string, name: string)
    requires Permutes(env) && UniqueNames(s.nodes) && UniqueOwners(s)
    ensures var r := Run(env, World(s, calls, []), request);
            && (Orphaned(s, r.w.state, id) <==>
                EndsWith(r.w.trace, MachineTerminated(id, DecrementOf(request), false)) && RunsOnActive(s.machines, id))
            && (NewlyTainted(s, r.w.state, name) <==> !Tainted(s, name) && LeftTainted(r.w.trace, name))
  {
    hide SetDesiredSize, TerminateMachine, Orphaned, NewlyTainted, EndsWith, LeftTainted, Tainted, RunsOnActive, UniqueNames, UniqueOwners;
    match request
    case SetSize(desired) => SetSizeTells(env, s, calls, desired, id, name);
    case Terminate(victim, decrement) => TerminateTells(env, s, calls, victim, decrement, id, name);
  }

  /** The machines that a request for a new size tries to terminate are active at the start. */
  lemma SetSizeOrphansExactly(env: Env, s: State, calls: nat, desired: int, id: string)
    requires Permutes(env) && UniqueNames(s.nodes) && UniqueOwners(s)
    ensures var r := SetDesiredSize(env, World(s, calls, []), desired);
            Orphaned(s, r.w.state, id) <==> EndsWith(r.w.trace, MachineTerminated(id, true, false))
  {
    hide SetDesiredSize, Orphaned, UniqueOwners, RunsOnActive, LeftTainted, NewlyTainted;
    SetSizeTells(env, s, calls, desired, id, "");
    var r := SetDesiredSize(env, World(s, calls, []), desired);
    if EndsWith(r.w.trace, MachineTerminated(id, true, false)) {
      TriedIsActive(env, s, calls, desired, id);
    }
  }

  lemma TriedIsActive(env: Env, s: State, calls: nat, desired: int, id: string)
    requires Permutes(env) && UniqueNames(s.nodes)
    requires EndsWith(SetDesiredSize(env, World(s, calls, []), desired).w.trace, MachineTerminated(id, true, false))
    ensures RunsOnActive(s.machines, id)
  {
    hide SetDesiredSize, ScaleDown, RunsOnActive, UniqueNames, DistinctNames, Pairs, RemoveAll, AcceptedPairs, EvictAndTerminate;
    var w := SetSizeCases(env, s, calls, desired);
    PairsAreRoster(s);
    var from, victims := ScaleDownShape(env, w, Pairs(s), desired);
    var m := Completed(env, from, victims);
    StopsAt(env, from, victims);
    if m == |victims| {
      assert victims[..m] == victims;
      AllRemovedEnds(env, from, victims);
      BetweenIsClean(RemoveAll(env, from, victims).w.trace, id, true, "");
    } else {
      LastAttempt(env, RemoveAll(env, from, victims[..m]).w, victims[m], true, id);
      PairIsActive(s, victims[m]);
    }
  }

  lemma LastAttempt(env: Env, w: World, victim: Pair, decrement: bool, id: string)
    requires EndsWith(EvictAndTerminate(env, w, victim, decrement).w.trace, MachineTerminated(id, decrement, false))
    ensures id == victim.machine.id
  {
    hide MarkUnschedulable, EvictAll, RollBack, VictimPods;
  }

  lemma PairIsActive(s: State, p: Pair)
    requires p in Pairs(s)
    ensures RunsOnActive(s.machines, p.machine.id)
  {
    PairsAreEligible(s);
  }

  /** At most one machine is left running without its node, and at most one surviving node newly
      carries the drain taint; a request that succeeds leaves neither. */
  lemma AtMostOneCasualty(env: Env, s: State, calls: nat, desired: int, id: string, id': string, name: string, name': string)
    requires Permutes(env) && UniqueNames(s.nodes)
    ensures var r := SetDesiredSize(env, World(s, calls, []), desired); var s' := r.w.state;
            && (Orphaned(s, s', id) && Orphaned(s, s', id') ==> id == id')
            && (NewlyTainted(s, s', name) && NewlyTainted(s, s', name') ==> name == name')
            && (r.r.Done? ==> !Orphaned(s, s', id) && !NewlyTainted(s, s', name))
  {
    hide SetDesiredSize, Orphaned, NewlyTainted, UniqueNames, UniqueOwners, RunsOnActive, Tainted;
    SetSizeTells(env, s, calls, desired, id, name);
    SetSizeTells(env, s, calls, desired, id', name');
    SuccessIsClean(env, s, calls, desired, id, name);
  }

  lemma SuccessIsClean(env: Env, s: State, calls: nat, desired: int, id: string, name: string)
    requires Permutes(env) && UniqueNames(s.nodes)
    ensures var r := SetDesiredSize(env, World(s, calls, []), desired);
            r.r.Done? ==> !LeftTainted(r.w.trace, name) && !EndsWith(r.w.trace, MachineTerminated(id, true, false))
  {
    hide SetDesiredSize, ScaleDown, UniqueNames, DistinctNames, Pairs, RemoveAll, AcceptedPairs;
    var r := SetDesiredSize(env, World(s, calls, []), desired);
    var w := SetSizeCases(env, s, calls, desired);
    PairsAreRoster(s);
    if r.r.Done? && desired < |Pairs(s)| {
      var from, victims := ScaleDownShape(env, w, Pairs(s), desired);
      AllRemovedEnds(env, from, victims);
      BetweenIsClean(r.w.trace, id, true, name);
    }
  }
}
