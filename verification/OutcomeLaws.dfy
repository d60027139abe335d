/** What a request to resize the pool achieves, and what it never does on the way. */
module OutcomeLaws {
  import opened Kube
  import opened Scheduling
  import opened SchedulingLaws
  import opened Cluster
  import opened NodeScaler
  import opened Promises
  import opened VerdictLaws
  import opened Proxy
  import opened RequestLaws
  import opened RemovalLaws
  import opened SizeLaws
  import opened LogLaws

  // ---- Distinct pairs ----

  ghost predicate DistinctNames(pairs: seq<Pair>) {
    forall i, j :: 0 <= i < j < |pairs| ==> pairs[i].node.meta.name != pairs[j].node.meta.name
  }

  lemma {:induction false} DistinctByCount(pairs: seq<Pair>)
    ensures |Names(pairs)| <= |pairs|
    ensures DistinctNames(pairs) <==> |Names(pairs)| == |pairs|
  {
    if pairs == [] {
      assert Names(pairs) == {};
    } else {
      var k := |pairs| - 1;
      var front, last := pairs[..k], pairs[k];
      DistinctByCount(front);
      assert pairs == front + [last];
      NamesSnoc(front, last);
      if last.node.meta.name in Names(front) {
        assert Names(pairs) == Names(front);
        var p :| p in front && p.node.meta.name == last.node.meta.name;
        var i :| 0 <= i < k && pairs[i] == p;
        assert !DistinctNames(pairs);
      } else {
        assert DistinctNames(pairs) <==> DistinctNames(front) by {
          if DistinctNames(front) {
            forall i, j | 0 <= i < j < |pairs| ensures pairs[i].node.meta.name != pairs[j].node.meta.name {
              if j == k {
                assert front[i] in front;
              } else {
                assert pairs[i] == front[i] && pairs[j] == front[j];
              }
            }
          }
        }
      }
    }
  }

  /** Reordering keeps names distinct. */
  lemma PermutationDistinct(a: seq<Pair>, b: seq<Pair>)
    requires multiset(a) == multiset(b) && DistinctNames(a)
    ensures |a| == |b| && DistinctNames(b)
  {
    assert |multiset(a)| == |a| && |multiset(b)| == |b|;
    DistinctByCount(a);
    DistinctByCount(b);
    assert Names(a) == Names(b) by {
      assert forall p :: p in a <==> p in multiset(a);
      assert forall p :: p in b <==> p in multiset(b);
    }
  }

  // ---- The pairs that a request starts from ----

  function Pairs(s: State): seq<Pair> {
    PairUp(Workers(Snapshot(s)), ActiveMachines(s.machines))
  }

  lemma FindsItself(nodes: seq<Node>, i: nat)
    requires UniqueNames(nodes) && i < |nodes|
    ensures FindNode(nodes, nodes[i].name) == Some(nodes[i])
  {
    SameNameSameNode(nodes, nodes[i], FindNode(nodes, nodes[i].name).value);
  }

  lemma PairsSnoc(s: State, k: nat)
    requires UniqueNames(s.nodes) && k < |s.nodes|
    ensures var pairs := PairUp(Workers(SnapshotOf(s, s.nodes[..k])), ActiveMachines(s.machines));
            var pairs' := PairUp(Workers(SnapshotOf(s, s.nodes[..k + 1])), ActiveMachines(s.machines));
            && (IsActiveNode(s.pods, s.machines, s.nodes[k]) ==>
                  exists p :: pairs' == pairs + [p] && p.node.meta == s.nodes[k])
            && (!IsActiveNode(s.pods, s.machines, s.nodes[k]) ==> pairs' == pairs)
  {
    var view := ViewOf(s, s.nodes[k]);
    var views, active := SnapshotOf(s, s.nodes[..k]), ActiveMachines(s.machines);
    FindsItself(s.nodes, k);
    MastersHostApiServers(s, s.nodes[k]);
    assert SnapshotOf(s, s.nodes[..k + 1]) == views + [view];
    FilterSnoc(views, view, (n: NodeView) => !IsMaster(n));
    if !IsMaster(view) {
      assert Workers(views + [view]) == Workers(views) + [view];
      assert (Workers(views) + [view])[..|Workers(views)|] == Workers(views);
      var found := FindMachine(active, s.nodes[k].externalID);
      assert found.Some? <==> RunsOnActive(s.machines, s.nodes[k].externalID);
      if found.Some? {
        assert PairUp(Workers(views) + [view], active) == PairUp(Workers(views), active) + [Pair(view, found.value)];
      }
    }
  }

  function ActiveNames(s: State, nodes: seq<Node>): set<string> {
    set n | n in nodes && IsActiveNode(s.pods, s.machines, n) :: n.name
  }

  lemma ActiveNamesSnoc(s: State, nodes: seq<Node>, node: Node)
    ensures IsActiveNode(s.pods, s.machines, node) ==> ActiveNames(s, nodes + [node]) == ActiveNames(s, nodes) + {node.name}
    ensures !IsActiveNode(s.pods, s.machines, node) ==> ActiveNames(s, nodes + [node]) == ActiveNames(s, nodes)
  {
    hide IsActiveNode;
    assert forall n :: n in nodes + [node] <==> n in nodes || n == node;
  }

  lemma NewName(s: State, k: nat)
    requires UniqueNames(s.nodes) && k < |s.nodes|
    ensures s.nodes[k].name !in ActiveNames(s, s.nodes[..k])
  {
    hide IsActiveNode;
  }

  lemma DistinctSnoc(pairs: seq<Pair>, p: Pair)
    requires DistinctNames(pairs) && p.node.meta.name !in Names(pairs)
    ensures DistinctNames(pairs + [p])
  {
    forall i | 0 <= i < |pairs| ensures pairs[i].node.meta.name != p.node.meta.name {
      assert pairs[i].node.meta.name in Names(pairs);
    }
  }

  /** The pairs, in the order of the nodes, are exactly the active nodes. */
  lemma {:induction false} PairsOfPrefix(s: State, k: nat)
    requires UniqueNames(s.nodes) && k <= |s.nodes|
    ensures var pairs := PairUp(Workers(SnapshotOf(s, s.nodes[..k])), ActiveMachines(s.machines));
            DistinctNames(pairs) && Names(pairs) == ActiveNames(s, s.nodes[..k])
  {
    hide IsActiveNode, PairUp, SnapshotOf, Workers, ActiveMachines, DistinctNames, UniqueNames, ActiveNames, Names;
    if k == 0 {
      EmptySnapshot(s);
      NoActiveNames(s, s.nodes[..0]);
    } else {
      PairsOfPrefix(s, k - 1);
      PairsSnoc(s, k - 1);
      NewName(s, k - 1);
      assert s.nodes[..k] == s.nodes[..k - 1] + [s.nodes[k - 1]];
      ActiveNamesSnoc(s, s.nodes[..k - 1], s.nodes[k - 1]);
      if IsActiveNode(s.pods, s.machines, s.nodes[k - 1]) {
        var pairs := PairUp(Workers(SnapshotOf(s, s.nodes[..k - 1])), ActiveMachines(s.machines));
        var pairs' := PairUp(Workers(SnapshotOf(s, s.nodes[..k])), ActiveMachines(s.machines));
        var p :| pairs' == pairs + [p] && p.node.meta == s.nodes[k - 1];
        NamesSnoc(pairs, p);
        DistinctSnoc(pairs, p);
      }
    }
  }

  lemma NoActiveNames(s: State, nodes: seq<Node>)
    requires nodes == []
    ensures DistinctNames([]) && Names([]) == ActiveNames(s, nodes)
  {
  }

  lemma EmptySnapshot(s: State)
    ensures PairUp(Workers(SnapshotOf(s, s.nodes[..0])), ActiveMachines(s.machines)) == []
  {
  }

  lemma PairsAreRoster(s: State)
    requires UniqueNames(s.nodes)
    ensures DistinctNames(Pairs(s)) && Names(Pairs(s)) == Roster(s) && |Pairs(s)| == |Roster(s)|
  {
    PairsOfPrefix(s, |s.nodes|);
    assert s.nodes[..|s.nodes|] == s.nodes;
    DistinctByCount(Pairs(s));
  }

  // ---- Candidates and victims ----

  lemma {:induction false} CandidatesDistinct(env: Env, w: World, pairs: seq<Pair>)
    requires DistinctNames(pairs) && Partition(env, w, pairs).r.Some?
    ensures var candidates := Partition(env, w, pairs).r.value.candidates;
            DistinctNames(candidates) && forall c :: c in candidates ==> c in pairs
  {
    if pairs != [] {
      hide JudgePair;
      var k := |pairs| - 1;
      CandidatesDistinct(env, w, pairs[..k]);
      var before := Partition(env, w, pairs[..k]).r.value.candidates;
      forall i | 0 <= i < |before| ensures before[i].node.meta.name != pairs[k].node.meta.name {
        assert before[i] in before;
      }
    }
  }

  lemma VictimsDistinct(env: Env, candidates: seq<Pair>, excess: nat)
    requires Permutes(env) && DistinctNames(candidates)
    ensures var victims := Victims(env, candidates, excess);
            DistinctNames(victims) && |victims| == Min(excess, |candidates|)
  {
    PermutationDistinct(candidates, env.sort(candidates));
  }

  predicate NoNaN(lib: Library, pairs: seq<Pair>) {
    forall p :: p in pairs ==> NodeLoad(lib, p.node) != NaN
  }

  ghost predicate ByLoad(lib: Library, pairs: seq<Pair>) {
    forall i, j :: 0 <= i < j < |pairs| ==> !Less(NodeLoad(lib, pairs[j].node), NodeLoad(lib, pairs[i].node))
  }

  /** sort.Slice permutes, and it sorts whatever can be compared; ties may come in any order. */
  ghost predicate SortsByLoad(env: Env) {
    Permutes(env) && forall xs :: NoNaN(env.lib, xs) ==> ByLoad(env.lib, env.sort(xs))
  }

  lemma LoadIsNumber(lib: Library, node: NodeView)
    requires lib.RoundsUp() && HasCapacity(node.meta)
    ensures NodeLoad(lib, node).Num?
  {
  }

  // ---- Removing all victims ----

  /** The log of a removal of `victims` that completes the first `m` of them. */
  ghost predicate RemovalsLogOf(log: seq<Event>, victims: seq<Pair>, m: nat) {
    && m <= |victims|
    && Gone(log) <= Names(victims) && (m == |victims| ==> Gone(log) == Names(victims))
    && TakesFirst(log, victims, m)
    && (forall e :: e in log ==> !e.Judged?)
    && EvictsFirst(log, victims, m)
    && EvictsOnly(log, victims)
  }

  /** The successful terminations are those of the first `m` victims, with the pool size decremented. */
  ghost predicate TakesFirst(log: seq<Event>, victims: seq<Pair>, m: nat)
    requires m <= |victims|
  {
    && |Terminations(log)| == m
    && forall i :: 0 <= i < m ==> Terminations(log)[i] == MachineTerminated(victims[i].machine.id, true, true)
  }

  /** The pods evicted are those of the first `m` victims and some first ones of the next victim. */
  ghost predicate EvictsFirst(log: seq<Event>, victims: seq<Pair>, m: nat)
    requires m <= |victims|
  {
    PodsOf(victims[..m]) <= Evicted(log) <= PodsOf(victims[..Min(m + 1, |victims|)])
  }

  /** Evictions are from the victims' nodes only, and from each a prefix of what there is to evict. */
  ghost predicate EvictsOnly(log: seq<Event>, victims: seq<Pair>) {
    && (forall host :: host !in Names(victims) ==> Evictions(log, host) == [])
    && (DistinctNames(victims) ==>
          forall v :: v in victims ==> Evictions(log, v.node.meta.name) <= VictimPods(v.node))
  }

  lemma RemovalsThenOne(a: seq<Event>, b: seq<Event>, victims: seq<Pair>, victim: Pair, ok: bool)
    requires RemovalsLogOf(a, victims, |victims|) && RemovalLogOf(b, victim, true, ok)
    ensures RemovalsLogOf(a + b, victims + [victim], if ok then |victims| + 1 else |victims|)
  {
    hide Terminations, VictimPods, Gone, EvictsOnly, EvictsFirst, Evictions, Evicted;
    NamesSnoc(victims, victim);
    GoneConcat(a, b);
    TerminationsConcat(a, b);
    EvictedThenOne(a, b, victims, victim, ok);
    EvictionsThenOne(a, b, victims, victim, ok);
  }

  lemma EvictedThenOne(a: seq<Event>, b: seq<Event>, victims: seq<Pair>, victim: Pair, ok: bool)
    requires EvictsFirst(a, victims, |victims|) && RemovalLogOf(b, victim, true, ok)
    ensures EvictsFirst(a + b, victims + [victim], if ok then |victims| + 1 else |victims|)
  {
    hide Terminations, VictimPods, Gone, Evictions, Evicted;
    var all := victims + [victim];
    assert victims[..|victims|] == victims && all[..|victims|] == victims && all[..|all|] == all;
    EvictedConcat(a, b);
    assert PodsOf(all) == PodsOf(victims) + VictimPods(victim.node);
  }

  lemma EvictionsThenOne(a: seq<Event>, b: seq<Event>, victims: seq<Pair>, victim: Pair, ok: bool)
    requires EvictsOnly(a, victims) && RemovalLogOf(b, victim, true, ok)
    ensures EvictsOnly(a + b, victims + [victim])
  {
    hide Terminations, VictimPods, Gone, Evictions, Evicted;
    var all := victims + [victim];
    NamesSnoc(victims, victim);
    forall host | host !in Names(all) ensures Evictions(a + b, host) == [] {
      EvictionsConcat(a, b, host);
    }
    if DistinctNames(all) {
      DistinctSplit(victims, victim);
      forall v | v in all ensures Evictions(a + b, v.node.meta.name) <= VictimPods(v.node) {
        EvictionsConcat(a, b, v.node.meta.name);
        if v in victims {
          assert v.node.meta.name in Names(victims);
        }
      }
    }
  }

  lemma DistinctSplit(pairs: seq<Pair>, pair: Pair)
    requires DistinctNames(pairs + [pair])
    ensures DistinctNames(pairs) && pair.node.meta.name !in Names(pairs)
  {
    var all := pairs + [pair];
    assert forall i :: 0 <= i < |pairs| ==> all[i] == pairs[i];
    forall i | 0 <= i < |pairs| ensures pairs[i].node.meta.name != pair.node.meta.name {
      assert all[i] == pairs[i] && all[|pairs|] == pair;
    }
  }

  lemma NameDeterminesPair(pairs: seq<Pair>, u: Pair, v: Pair)
    requires DistinctNames(pairs) && u in pairs && v in pairs && u.node.meta.name == v.node.meta.name
    ensures u == v
  {
    var i :| 0 <= i < |pairs| && pairs[i] == u;
    var j :| 0 <= j < |pairs| && pairs[j] == v;
    assert i == j;
  }

  lemma RemovalsFewer(log: seq<Event>, victims: seq<Pair>, more: seq<Pair>, m: nat)
    requires RemovalsLogOf(log, victims, m) && m < |victims| && victims <= more
    ensures RemovalsLogOf(log, more, m)
  {
    hide Terminations, VictimPods, Gone, EvictsOnly, Evictions, Evicted;
    assert forall v :: v in victims ==> v in more;
    assert Names(victims) <= Names(more);
    assert more[..m] == victims[..m] && more[..m + 1] == victims[..m + 1];
    EvictionsFewer(log, victims, more);
  }

  lemma EvictionsFewer(log: seq<Event>, victims: seq<Pair>, more: seq<Pair>)
    requires EvictsOnly(log, victims) && victims <= more
    ensures EvictsOnly(log, more)
  {
    hide VictimPods, Evictions;
    assert forall v :: v in victims ==> v in more;
    assert Names(victims) <= Names(more);
    if DistinctNames(more) {
      assert DistinctNames(victims) by {
        assert forall i :: 0 <= i < |victims| ==> more[i] == victims[i];
      }
      forall v | v in more ensures Evictions(log, v.node.meta.name) <= VictimPods(v.node) {
        if v.node.meta.name in Names(victims) {
          var u :| u in victims && u.node.meta.name == v.node.meta.name;
          NameDeterminesPair(more, u, v);
        }
      }
    }
  }

  lemma {:induction false} RemoveAllLog(env: Env, w: World, victims: seq<Pair>) returns (log: seq<Event>)
    ensures RemoveAll(env, w, victims).w.trace == w.trace + log
    ensures RemovalsLogOf(log, victims, Completed(env, w, victims))
  {
    hide EvictAndTerminate, RemovalsLogOf, RemovalLogOf;
    if victims == [] {
      log := [];
      EmptyRemovals();
    } else {
      var k := |victims| - 1;
      log := RemoveAllLog(env, w, victims[..k]);
      var sofar := RemoveAll(env, w, victims[..k]);
      assert victims == victims[..k] + [victims[k]];
      if sofar.r {
        var more := RemovalLog(env, sofar.w, victims[k], true);
        RemovalsThenOne(log, more, victims[..k], victims[k], EvictAndTerminate(env, sofar.w, victims[k], true).r);
        log := log + more;
      } else {
        RemovalsFewer(log, victims[..k], victims, Completed(env, w, victims[..k]));
      }
    }
  }

  lemma EmptyRemovals()
    ensures RemovalsLogOf([], [], 0)
  {
    assert Names([]) == {};
  }

  // ---- The shape of a scale-down ----

  /** A scale-down first judges, which leaves one entry per candidate and nothing else, and then
      removes the victims, the first ones of the sorted candidates: as many as there are excess nodes, or
      as candidates if these are fewer. `from` is the world in between. */
  lemma ScaleDownShape(env: Env, w: World, pairs: seq<Pair>, desired: int) returns (from: World, victims: seq<Pair>)
    requires Permutes(env) && DistinctNames(pairs) && desired < |pairs| && w.trace == []
    ensures var r := ScaleDown(env, w, pairs, desired);
            && from.state == w.state && (forall e :: e in from.trace ==> e.Judged? && e.pair in pairs)
            && r.w == RemoveAll(env, from, victims).w
            && victims <= env.sort(AcceptedPairs(from.trace))
            && DistinctNames(victims) && |victims| <= |pairs| - desired && (forall v :: v in victims ==> v in pairs)
            && (r.r.Done? ==> RemoveAll(env, from, victims).r && |victims| == Min(|pairs| - desired, |from.trace|))
            && (RemoveAll(env, from, victims).r ==> r.r.Done? || victims == [])
  {
    hide DistinctNames, Partition, RemoveAll, Victims, AcceptedPairs, Acceptances;
    var judged := PartitionLog(env, w, pairs);
    var split := Partition(env, w, pairs);
    from := split.w;
    assert from.trace == judged;
    if split.r.None? || split.r.value.candidates == [] {
      victims := [];
      NoPairs(env, from);
    } else {
      var candidates, excess := split.r.value.candidates, |pairs| - desired;
      CandidatesDistinct(env, w, pairs);
      VictimsDistinct(env, candidates, excess);
      VictimsAreCandidates(env, candidates, excess);
      victims := Victims(env, candidates, excess);
      PrefixOfSorted(env, candidates, excess);
      JudgedCandidates(judged, candidates);
    }
  }

  lemma PrefixOfSorted(env: Env, candidates: seq<Pair>, excess: nat)
    ensures Victims(env, candidates, excess) <= env.sort(candidates)
  {
  }

  lemma JudgedCandidates(judged: seq<Event>, candidates: seq<Pair>)
    requires |judged| == |candidates| && forall i :: 0 <= i < |judged| ==> judged[i].Judged? && judged[i].pair == candidates[i]
    ensures AcceptedPairs(judged) == candidates
  {
    AcceptancesOf(judged, []);
  }

  lemma NoPairs(env: Env, w: World)
    ensures DistinctNames([]) && RemoveAll(env, w, []) == Reply(w, true)
  {
  }
}
