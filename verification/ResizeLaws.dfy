/** The guarantees of a request for a new pool size, for every pattern of failing calls. */
module ResizeLaws {
  import opened Kube
  import opened Cluster
  import opened NodeScaler
  import opened VerdictLaws
  import opened Proxy
  import opened RunLaws
  import opened RequestLaws
  import opened RemovalLaws
  import opened SizeLaws
  import opened LogLaws
  import opened OutcomeLaws

  /** A request for a new size stops at a failed read, or forwards the size, or scales down. */
  lemma SetSizeCases(env: Env, s: State, calls: nat, desired: int) returns (w: World)
    ensures var r := SetDesiredSize(env, World(s, calls, []), desired);
            || (r.w.trace == [] && r.w.state == s && r.r.Failed?)
            || (desired >= |Pairs(s)| && r.w.trace == [PoolResized(desired, r.r.Done?)]
                && r.w.state == Effect(s, PoolResized(desired, r.r.Done?)) && !r.r.Crash?)
            || (desired < |Pairs(s)| && w.state == s && w.trace == [] && r == ScaleDown(env, w, Pairs(s), desired))
  {
    hide GetNodeInfos, ScaleDown, Snapshot, PairUp, Workers;
    var start := World(s, calls, []);
    ListWorkersReads(env, start);
    var nodes := ListWorkerNodes(env, start);
    w := Read(env, nodes.w, nodes.w.state.machines).w;
  }

  /** The number of active nodes never drops below the requested size, or below what there was. */
  lemma NeverBelowDesired(env: Env, s: State, calls: nat, desired: int, k: nat)
    requires Permutes(env) && UniqueNames(s.nodes) && UniqueOwners(s)
    requires k <= |SetDesiredSize(env, World(s, calls, []), desired).w.trace|
    ensures var t := SetDesiredSize(env, World(s, calls, []), desired).w.trace;
            |Roster(Replay(s, t[..k]))| >= desired || Roster(Replay(s, t[..k])) == Roster(s)
  {
    hide SetDesiredSize, UniqueOwners, Roster, Accountable, Gone;
    var r := SetDesiredSize(env, World(s, calls, []), desired);
    SetDesiredSizeAccountable(env, s, calls, desired);
    RosterThroughout(env.lib, s, r.w.state, r.w.trace, k);
    GoneBound(env, s, calls, desired);
    var gone := Gone(r.w.trace[..k]);
    if gone == {} {
      assert Roster(s) - gone == Roster(s);
    } else {
      SubsetSize(gone, Gone(r.w.trace));
      SizeWithout(Roster(s), gone);
    }
  }

  lemma SubsetSize<T>(a: set<T>, b: set<T>)
    requires a <= b
    ensures |a| <= |b|
  {
    assert b == a + (b - a);
  }

  lemma SizeWithout<T>(a: set<T>, b: set<T>)
    ensures |a - b| >= |a| - |b|
    ensures b <= a ==> |a - b| == |a| - |b|
  {
    assert a == (a - b) + (a * b);
    SubsetSize(a * b, b);
    if b <= a {
      assert a * b == b;
    }
  }

  /** No more nodes are deleted than there is excess. */
  lemma GoneBound(env: Env, s: State, calls: nat, desired: int)
    requires Permutes(env) && UniqueNames(s.nodes)
    ensures var gone := Gone(SetDesiredSize(env, World(s, calls, []), desired).w.trace);
            gone == {} || |gone| <= |Roster(s)| - desired
  {
    hide SetDesiredSize, ScaleDown, DistinctNames, Roster, Terminations, RemoveAll, EvictsFirst, EvictsOnly;
    var r := SetDesiredSize(env, World(s, calls, []), desired);
    var w := SetSizeCases(env, s, calls, desired);
    PairsAreRoster(s);
    if r.w.trace != [] && desired < |Pairs(s)| {
      var from, victims := ScaleDownShape(env, w, Pairs(s), desired);
      var removals := RemoveAllLog(env, from, victims);
      GoneConcat(from.trace, removals);
      assert Gone(from.trace) == {};
      SubsetSize(Gone(removals), Names(victims));
      DistinctByCount(victims);
    }
  }

  lemma {:induction false} StillUnique(nodes: seq<Node>, gone: set<string>)
    requires UniqueNames(nodes)
    ensures UniqueNames(WithoutNodes(nodes, gone))
  {
    if nodes != [] {
      var k := |nodes| - 1;
      var front, last := nodes[..k], nodes[k];
      StillUnique(front, gone);
      assert nodes == front + [last];
      WithoutSnoc(front, last, gone);
      var kept := WithoutNodes(front, gone);
      forall i | 0 <= i < |kept| ensures kept[i].name != last.name {
        assert kept[i] in kept;
        var j :| 0 <= j < k && front[j] == kept[i];
        assert nodes[j] == kept[i];
      }
    }
  }

  /** A successful scale-down terminates exactly as many machines as there is excess, or as there are
      candidates if these are fewer; each termination decrements the pool; and as many active nodes
      are gone. With enough candidates exactly `desired` active nodes are left. */
  lemma SuccessfulScaleDown(env: Env, s: State, calls: nat, desired: int)
    requires Permutes(env) && UniqueNames(s.nodes) && UniqueOwners(s) && desired < |Roster(s)|
    requires SetDesiredSize(env, World(s, calls, []), desired).r.Done?
    ensures var r := SetDesiredSize(env, World(s, calls, []), desired);
            var n := |Terminations(r.w.trace)|;
            && n == Min(|Roster(s)| - desired, |Acceptances(r.w.trace)|)
            && (forall e :: e in Terminations(r.w.trace) ==> e.MachineTerminated? && e.decrement && e.ok)
            && |Roster(r.w.state)| == |Roster(s)| - n
            && r.w.state.desiredSize == s.desiredSize - n
            && UniqueNames(r.w.state.nodes)
  {
    hide SetDesiredSize, ScaleDown, DistinctNames, Roster, Terminations, Acceptances, UniqueNames, UniqueOwners, Gone, Names, RemoveAll, Pairs, AcceptedPairs;
    var r := SetDesiredSize(env, World(s, calls, []), desired);
    var w := SetSizeCases(env, s, calls, desired);
    PairsAreRoster(s);
    var from, victims := ScaleDownShape(env, w, Pairs(s), desired);
    SuccessLog(env, from, victims);
    SuccessState(env, from, victims);
    RosterAfter(env, s, calls, desired);
    VictimNames(victims, Pairs(s));
    DistinctByCount(victims);
    SizeWithout(Roster(s), Names(victims));
    StillUnique(s.nodes, Names(victims));
  }

  lemma SuccessLog(env: Env, from: World, victims: seq<Pair>)
    requires RemoveAll(env, from, victims).r && forall e :: e in from.trace ==> e.Judged?
    ensures var t := RemoveAll(env, from, victims).w.trace;
            && |Terminations(t)| == |victims| && Gone(t) == Names(victims) && |Acceptances(t)| == |from.trace|
            && (forall e :: e in Terminations(t) ==> e.MachineTerminated? && e.decrement && e.ok)
  {
    hide Terminations, Acceptances, Gone, Names, RemoveAll, EvictsFirst, EvictsOnly;
    var removals := RemoveAllLog(env, from, victims);
    AcceptancesOf(from.trace, removals);
    TerminationsConcat(from.trace, removals);
    assert [] + Terminations(removals) == Terminations(removals);
    GoneConcat(from.trace, removals);
  }

  lemma SuccessState(env: Env, from: World, victims: seq<Pair>)
    requires RemoveAll(env, from, victims).r
    ensures var s' := RemoveAll(env, from, victims).w.state;
            s'.nodes == WithoutNodes(from.state.nodes, Names(victims)) && s'.desiredSize == from.state.desiredSize - |victims|
  {
    hide RemoveAll, Names;
    AllRemoved(env, from, victims);
  }

  lemma VictimNames(victims: seq<Pair>, pairs: seq<Pair>)
    requires forall v :: v in victims ==> v in pairs
    ensures Names(victims) <= Names(pairs)
  {
  }

  lemma RosterAfter(env: Env, s: State, calls: nat, desired: int)
    requires Permutes(env) && UniqueNames(s.nodes) && UniqueOwners(s)
    ensures var r := SetDesiredSize(env, World(s, calls, []), desired);
            Roster(r.w.state) == Roster(s) - Gone(r.w.trace)
  {
    hide SetDesiredSize, UniqueNames, UniqueOwners, Roster, Gone;
    var r := SetDesiredSize(env, World(s, calls, []), desired);
    SetDesiredSizeAccountable(env, s, calls, desired);
    RosterThroughout(env.lib, s, r.w.state, r.w.trace, |r.w.trace|);
    assert r.w.trace[..|r.w.trace|] == r.w.trace;
  }

  /** Without excess a request drains nothing: at most it forwards the size. */
  lemma NoExcessOnlyForwards(env: Env, s: State, calls: nat, desired: int)
    requires UniqueNames(s.nodes) && |Roster(s)| <= desired
    ensures var r := SetDesiredSize(env, World(s, calls, []), desired);
            r.w.trace == [] || r.w.trace == [PoolResized(desired, r.r.Done?)]
  {
    hide SetDesiredSize, Roster;
    var w := SetSizeCases(env, s, calls, desired);
    PairsAreRoster(s);
  }

  /** Repeating a request that succeeded with enough candidates drains nothing more. */
  lemma RepeatOnlyForwards(env: Env, s: State, calls: nat, desired: int, env': Env, calls': nat)
    requires Permutes(env) && UniqueNames(s.nodes) && UniqueOwners(s) && desired < |Roster(s)|
    requires var r := SetDesiredSize(env, World(s, calls, []), desired);
             r.r.Done? && |Acceptances(r.w.trace)| >= |Roster(s)| - desired
    ensures var r := SetDesiredSize(env, World(s, calls, []), desired);
            var again := SetDesiredSize(env', World(r.w.state, calls', []), desired);
            && |Roster(r.w.state)| == desired
            && (again.w.trace == [] || again.w.trace == [PoolResized(desired, again.r.Done?)])
  {
    hide SetDesiredSize, Roster, Acceptances, UniqueNames, UniqueOwners, Terminations;
    SuccessfulScaleDown(env, s, calls, desired);
    NoExcessOnlyForwards(env', SetDesiredSize(env, World(s, calls, []), desired).w.state, calls', desired);
  }
}
