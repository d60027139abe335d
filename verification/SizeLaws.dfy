/** The number of active nodes during and after a scale-down. */
module SizeLaws {
  import opened Kube
  import opened Cluster
  import opened NodeScaler
  import opened Promises
  import opened PromiseLaws
  import opened VerdictLaws
  import opened RunLaws
  import opened RequestLaws

  // ---- Identities ----

  predicate UniqueNames(nodes: seq<Node>) {
    forall i, j :: 0 <= i < j < |nodes| ==> nodes[i].name != nodes[j].name
  }

  /** No machine belongs to two nodes. */
  predicate UniqueOwners(s: State) {
    forall m, n, n' ::
      (m in s.machines && n in s.nodes && n' in s.nodes && n.externalID == m.id && n'.externalID == m.id) ==>
      n.name == n'.name
  }

  lemma SameNameSameNode(nodes: seq<Node>, n: Node, n': Node)
    requires UniqueNames(nodes) && n in nodes && n' in nodes && n.name == n'.name
    ensures n == n'
  {
    var i :| 0 <= i < |nodes| && nodes[i] == n;
    var j :| 0 <= j < |nodes| && nodes[j] == n';
    assert i == j;
  }

  // ---- Active nodes ----

  lemma MastersHostApiServers(s: State, node: Node)
    ensures IsMaster(NodeView(node, PodsOn(s, node.name))) <==> HostsApiServer(s.pods, node.name)
  {
    var view := NodeView(node, PodsOn(s, node.name));
    MastersAre(view);
    if HostsApiServer(s.pods, node.name) {
      var p :| p in s.pods && p.nodeName == node.name && ApiServerOn(p, node.name);
      assert p in view.pods;
    }
  }

  /** A worker node that runs on an active machine of the pool. */
  predicate IsActiveNode(pods: seq<Pod>, machines: seq<Machine>, node: Node) {
    !HostsApiServer(pods, node.name) && RunsOnActive(machines, node.externalID)
  }

  /** The names of the active nodes. */
  function Roster(s: State): set<string> {
    set n | n in s.nodes && IsActiveNode(s.pods, s.machines, n) :: n.name
  }

  function Gone(log: seq<Event>): set<string> {
    set e | e in log && e.NodeDeleted? && e.ok :: e.name
  }

  /** Evicting a pod outside kube-system makes no master and unmakes none. */
  lemma EvictionKeepsMasters(s: State, e: Event, name: string)
    requires e.PodEvicted? && e.pod.namespace != "kube-system"
    requires e.respawn.Some? ==> e.respawn.value.namespace == e.pod.namespace
    ensures HostsApiServer(Effect(s, e).pods, name) <==> HostsApiServer(s.pods, name)
  {
    forall p | ApiServerOn(p, name) ensures p in s.pods <==> p in Effect(s, e).pods {
    }
  }

  lemma StopElsewhere(machines: seq<Machine>, id: string, other: string)
    requires other != id
    ensures RunsOnActive(Stop(machines, {id}), other) <==> RunsOnActive(machines, other)
  {
    var stopped := Stop(machines, {id});
    if m :| m in machines && ActiveMachine(m) && m.id == other {
      var i :| 0 <= i < |machines| && machines[i] == m;
      assert stopped[i] == m;
    }
    if m :| m in stopped && ActiveMachine(m) && m.id == other {
      var i :| 0 <= i < |stopped| && stopped[i] == m;
      assert machines[i] == m;
    }
  }

  // ---- Tracking the active nodes through a log ----

  predicate SameButTaints(a: Node, b: Node) {
    a == b.(taints := a.taints)
  }

  /** The nodes left are the start nodes without those gone, up to their taints. */
  ghost predicate NodesTracked(nodes: seq<Node>, now: seq<Node>, gone: set<string>) {
    && (forall n :: n in now ==> n.name !in gone && exists n0 :: n0 in nodes && SameButTaints(n, n0))
    && (forall n0 :: n0 in nodes && n0.name !in gone ==> exists n :: n in now && SameButTaints(n, n0))
  }

  /** Start nodes that are not gone have kept their role. */
  ghost predicate RolesTracked(s: State, pods: seq<Pod>, machines: seq<Machine>, gone: set<string>) {
    forall n0 :: n0 in s.nodes && n0.name !in gone ==>
      (IsActiveNode(pods, machines, n0) <==> IsActiveNode(s.pods, s.machines, n0))
  }

  ghost predicate Tracked(s: State, now: State, gone: set<string>) {
    NodesTracked(s.nodes, now.nodes, gone) && RolesTracked(s, now.pods, now.machines, gone)
  }

  /** Then the active nodes are those of the start state that are not gone. */
  lemma TrackedRoster(s: State, now: State, gone: set<string>)
    requires Tracked(s, now, gone)
    ensures Roster(now) == Roster(s) - gone
  {
    hide SameButTaints, IsActiveNode;
    forall name | name in Roster(now) ensures name in Roster(s) - gone {
      var n :| n in now.nodes && IsActiveNode(now.pods, now.machines, n) && n.name == name;
      var n0 :| n0 in s.nodes && SameButTaints(n, n0);
      SameRole(now.pods, now.machines, n, n0);
    }
    forall name | name in Roster(s) - gone ensures name in Roster(now) {
      var n0 :| n0 in s.nodes && IsActiveNode(s.pods, s.machines, n0) && n0.name == name;
      var n :| n in now.nodes && SameButTaints(n, n0);
      SameRole(now.pods, now.machines, n, n0);
    }
  }

  lemma SameRole(pods: seq<Pod>, machines: seq<Machine>, n: Node, n0: Node)
    requires SameButTaints(n, n0)
    ensures n.name == n0.name && (IsActiveNode(pods, machines, n) <==> IsActiveNode(pods, machines, n0))
  {
  }

  lemma TrackUpdate(nodes: seq<Node>, now: seq<Node>, gone: set<string>, node: Node)
    requires UniqueNames(nodes) && NodesTracked(nodes, now, gone)
    requires FindNode(now, node.name).Some? && SameButTaints(node, FindNode(now, node.name).value)
    ensures NodesTracked(nodes, ReplaceNode(now, node), gone)
  {
    var now' := ReplaceNode(now, node);
    var f := FindNode(now, node.name).value;
    var f0 :| f0 in nodes && SameButTaints(f, f0);
    forall n | n in now'
      ensures n.name !in gone && exists n0 :: n0 in nodes && SameButTaints(n, n0)
    {
      if n == node {
        assert SameButTaints(n, f0);
      } else {
        assert n in now;
      }
    }
    forall n0 | n0 in nodes && n0.name !in gone
      ensures exists n :: n in now' && SameButTaints(n, n0)
    {
      var n :| n in now && SameButTaints(n, n0);
      var i :| 0 <= i < |now| && now[i] == n;
      assert now'[i] in now';
      if n.name == node.name {
        SameNameSameNode(nodes, n0, f0);
      }
    }
  }

  lemma TrackDeletion(nodes: seq<Node>, now: seq<Node>, gone: set<string>, name: string)
    requires NodesTracked(nodes, now, gone)
    ensures NodesTracked(nodes, WithoutNodes(now, {name}), gone + {name})
  {
    hide SameButTaints;
    forall n0 | n0 in nodes && n0.name !in gone + {name}
      ensures exists n :: n in WithoutNodes(now, {name}) && SameButTaints(n, n0)
    {
      var n :| n in now && SameButTaints(n, n0);
      SameRole([], [], n, n0);
      assert n in WithoutNodes(now, {name});
    }
  }

  lemma TrackEviction(s: State, now: State, gone: set<string>, e: Event)
    requires RolesTracked(s, now.pods, now.machines, gone) && e.PodEvicted? && e.pod.namespace != "kube-system"
    requires e.respawn.Some? ==> e.respawn.value.namespace == e.pod.namespace
    ensures RolesTracked(s, Effect(now, e).pods, now.machines, gone)
  {
    forall n0 | n0 in s.nodes && n0.name !in gone
      ensures IsActiveNode(Effect(now, e).pods, now.machines, n0) <==> IsActiveNode(s.pods, s.machines, n0)
    {
      EvictionKeepsMasters(now, e, n0.name);
    }
  }

  lemma TrackTermination(s: State, pods: seq<Pod>, machines: seq<Machine>, gone: set<string>, id: string)
    requires RolesTracked(s, pods, machines, gone)
    requires forall n0 :: n0 in s.nodes && n0.name !in gone ==> n0.externalID != id
    ensures RolesTracked(s, pods, Stop(machines, {id}), gone)
  {
    forall n0 | n0 in s.nodes && n0.name !in gone
      ensures IsActiveNode(pods, Stop(machines, {id}), n0) <==> IsActiveNode(s.pods, s.machines, n0)
    {
      StopElsewhere(machines, id, n0.externalID);
    }
  }

  lemma GoneSnoc(log: seq<Event>, e: Event)
    ensures e.NodeDeleted? && e.ok ==> Gone(log + [e]) == Gone(log) + {e.name}
    ensures !(e.NodeDeleted? && e.ok) ==> Gone(log + [e]) == Gone(log)
  {
    assert forall x :: x in log + [e] <==> x in log || x == e;
  }

  /** Only the machine of a node that is already gone is ever terminated. */
  lemma TerminatedNodeIsGone(lib: Library, s: State, past: seq<Event>, now: State, e: Event)
    requires UniqueOwners(s) && Justified(lib, s, past, now, e) && e.MachineTerminated?
    ensures forall n0 :: n0 in s.nodes && n0.name !in Gone(past) ==> n0.externalID != e.id
  {
    var a := EarnedBy(lib, s, past, now, e);
    var pair := past[a].pair;
    assert past[|past| - 1] in past;
    assert pair.node.meta.name in Gone(past);
    SnapshotNodes(s, pair.node);
  }

  lemma SnapshotNodes(s: State, view: NodeView)
    requires view in Snapshot(s)
    ensures view.meta in s.nodes
  {
    var i :| 0 <= i < |s.nodes| && Snapshot(s)[i] == view;
    assert s.nodes[i] in s.nodes;
  }

  lemma TrackStep(lib: Library, s: State, past: seq<Event>, now: State, e: Event)
    requires UniqueNames(s.nodes) && UniqueOwners(s)
    requires Tracked(s, now, Gone(past)) && Justified(lib, s, past, now, e)
    ensures Tracked(s, Effect(now, e), Gone(past + [e]))
  {
    GoneSnoc(past, e);
    hide NodesTracked, RolesTracked, Gone, UniqueNames, UniqueOwners, WithoutNodes, Sustained, SustainedFor, Tainted;
    match e
    case NodeUpdated(node, ok) =>
      if ok {
        TrackUpdate(s.nodes, now.nodes, Gone(past), node);
      }
    case PodEvicted(host, pod, respawn, ok) =>
      if ok {
        TrackEviction(s, now, Gone(past), e);
      }
    case NodeDeleted(name, ok) =>
      if ok {
        TrackDeletion(s.nodes, now.nodes, Gone(past), name);
        RolesFewer(s, now, Gone(past), Gone(past) + {name});
      }
    case MachineTerminated(id, _, ok) =>
      if ok {
        TerminatedNodeIsGone(lib, s, past, now, e);
        TrackTermination(s, now.pods, now.machines, Gone(past), id);
      }
    case _ =>
  }

  lemma RolesFewer(s: State, now: State, gone: set<string>, more: set<string>)
    requires RolesTracked(s, now.pods, now.machines, gone) && gone <= more
    ensures RolesTracked(s, now.pods, now.machines, more)
  {
  }

  lemma AccountablePrefix(lib: Library, s: State, now: State, log: seq<Event>, k: nat)
    requires Accountable(lib, s, now, log) && k <= |log|
    ensures Accountable(lib, s, Replay(s, log[..k]), log[..k])
  {
    hide Justified;
    forall i | 0 <= i < k ensures Justified(lib, s, log[..k][..i], Replay(s, log[..k][..i]), log[..k][i]) {
      assert log[..k][..i] == log[..i];
    }
  }

  lemma {:induction false} TrackLog(lib: Library, s: State, now: State, log: seq<Event>)
    requires UniqueNames(s.nodes) && UniqueOwners(s) && Accountable(lib, s, now, log)
    ensures Tracked(s, now, Gone(log))
    decreases |log|
  {
    hide Justified, Tracked, UniqueNames, UniqueOwners, Gone;
    if log == [] {
      TrackedAtStart(s);
    } else {
      var k := |log| - 1;
      AccountablePrefix(lib, s, now, log, k);
      TrackLog(lib, s, Replay(s, log[..k]), log[..k]);
      TrackStep(lib, s, log[..k], Replay(s, log[..k]), log[k]);
      assert log[..k] + [log[k]] == log;
    }
  }

  lemma TrackedAtStart(s: State)
    ensures Tracked(s, s, Gone([]))
  {
    assert forall n :: n in s.nodes ==> SameButTaints(n, n);
  }

  /** At every point of an accountable run, the active nodes are the initial ones without those that
      were deleted so far. */
  lemma RosterThroughout(lib: Library, s: State, now: State, log: seq<Event>, k: nat)
    requires UniqueNames(s.nodes) && UniqueOwners(s) && Accountable(lib, s, now, log) && k <= |log|
    ensures Roster(Replay(s, log[..k])) == Roster(s) - Gone(log[..k])
    ensures Gone(log[..k]) <= Gone(log)
  {
    hide Accountable, Justified;
    AccountablePrefix(lib, s, now, log, k);
    TrackLog(lib, s, Replay(s, log[..k]), log[..k]);
    TrackedRoster(s, Replay(s, log[..k]), Gone(log[..k]));
  }
}
