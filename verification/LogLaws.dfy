/** The log of a scale-down, victim by victim: what was evicted, deleted and terminated. */
module LogLaws {
  import opened Kube
  import opened Cluster
  import opened NodeScaler
  import opened VerdictLaws
  import opened DrainLaws
  import opened Proxy
  import opened SizeLaws

  /** The successful terminations. */
  function Terminations(log: seq<Event>): seq<Event> {
    Filter(log, (e: Event) => e.MachineTerminated? && e.ok)
  }

  /** The pods whose eviction from `host` was attempted, in order. */
  function Evictions(log: seq<Event>, host: string): seq<Pod> {
    if log == [] then []
    else
      var last := log[|log| - 1];
      var before := Evictions(log[..|log| - 1], host);
      if last.PodEvicted? && last.host == host then before + [last.pod] else before
  }

  /** The pods that were evicted, from whatever node, in order. */
  function Evicted(log: seq<Event>): seq<Pod> {
    if log == [] then []
    else
      var last := log[|log| - 1];
      var before := Evicted(log[..|log| - 1]);
      if last.PodEvicted? && last.ok then before + [last.pod] else before
  }

  lemma {:induction false} EvictedConcat(a: seq<Event>, b: seq<Event>)
    ensures Evicted(a + b) == Evicted(a) + Evicted(b)
  {
    if b == [] {
      assert a + b == a;
    } else {
      var k := |b| - 1;
      EvictedConcat(a, b[..k]);
      assert (a + b)[..|a + b| - 1] == a + b[..k];
    }
  }

  lemma {:induction false} NothingEvictedIn(log: seq<Event>)
    requires forall e :: e in log ==> !e.PodEvicted?
    ensures Evicted(log) == []
  {
    if log != [] {
      NothingEvictedIn(log[..|log| - 1]);
    }
  }

  lemma {:induction false} EvictedOf(log: seq<Event>, pods: seq<Pod>)
    requires |log| <= |pods|
    requires forall i :: 0 <= i < |log| ==> log[i].PodEvicted? && log[i].pod == pods[i] && log[i].ok
    ensures Evicted(log) == pods[..|log|]
  {
    if log != [] {
      var k := |log| - 1;
      EvictedOf(log[..k], pods);
      assert pods[..|log|] == pods[..k] + [pods[k]];
    }
  }

  /** Of a drain's evictions all succeed but the last one of a drain that fails. */
  lemma EvictedByDrain(log: seq<Event>, host: string, pods: seq<Pod>, ok: bool)
    requires EvictionLog(log, host, pods, ok)
    ensures Evicted(log) <= pods && (ok ==> Evicted(log) == pods)
  {
    if ok {
      EvictedOf(log, pods);
      assert pods[..|log|] == pods;
    } else {
      var k := |log| - 1;
      EvictedOf(log[..k], pods);
      assert Evicted(log) == Evicted(log[..k]);
    }
  }

  /** The acceptances in a log. */
  function Acceptances(log: seq<Event>): (r: seq<Event>)
    ensures forall i :: 0 <= i < |r| ==> r[i].Judged?
  {
    var r := Filter(log, (e: Event) => e.Judged?);
    assert forall i :: 0 <= i < |r| ==> r[i] in r;
    r
  }

  /** The pairs of the acceptances in a log. */
  function AcceptedPairs(log: seq<Event>): (pairs: seq<Pair>)
    ensures |pairs| == |Acceptances(log)|
    ensures forall i :: 0 <= i < |pairs| ==> pairs[i] == Acceptances(log)[i].pair
  {
    seq(|Acceptances(log)|, i requires 0 <= i < |Acceptances(log)| => Acceptances(log)[i].pair)
  }

  lemma AcceptancesOf(judged: seq<Event>, removals: seq<Event>)
    requires (forall e :: e in judged ==> e.Judged?) && (forall e :: e in removals ==> !e.Judged?)
    ensures Acceptances(judged + removals) == judged && Acceptances(judged) == judged
    ensures Gone(judged) == {} && Terminations(judged) == [] && Evicted(judged) == []
  {
    FilterConcat(judged, removals, (e: Event) => e.Judged?);
    FilterNone(removals, (e: Event) => e.Judged?);
    FilterAllKept(judged, (e: Event) => e.Judged?);
    NoTerminations(judged);
    NothingEvictedIn(judged);
  }

  lemma {:induction false} EvictionsConcat(a: seq<Event>, b: seq<Event>, host: string)
    ensures Evictions(a + b, host) == Evictions(a, host) + Evictions(b, host)
  {
    if b == [] {
      assert a + b == a;
    } else {
      var k := |b| - 1;
      EvictionsConcat(a, b[..k], host);
      assert (a + b)[..|a + b| - 1] == a + b[..k];
    }
  }

  lemma EvictionsPrefix(log: seq<Event>, k: nat, host: string)
    requires k <= |log|
    ensures Evictions(log[..k], host) <= Evictions(log, host)
  {
    EvictionsConcat(log[..k], log[k..], host);
    assert log[..k] + log[k..] == log;
  }

  lemma {:induction false} NoEvictions(log: seq<Event>, host: string)
    requires forall e :: e in log ==> !(e.PodEvicted? && e.host == host)
    ensures Evictions(log, host) == []
  {
    if log != [] {
      NoEvictions(log[..|log| - 1], host);
    }
  }

  lemma {:induction false} EvictionsOf(log: seq<Event>, host: string, pods: seq<Pod>)
    requires |log| <= |pods|
    requires forall i :: 0 <= i < |log| ==> log[i].PodEvicted? && log[i].host == host && log[i].pod == pods[i]
    ensures Evictions(log, host) == pods[..|log|]
  {
    if log != [] {
      var k := |log| - 1;
      EvictionsOf(log[..k], host, pods);
      assert pods[..|log|] == pods[..k] + [pods[k]];
    }
  }

  lemma TerminationsConcat(a: seq<Event>, b: seq<Event>)
    ensures Terminations(a + b) == Terminations(a) + Terminations(b)
  {
    FilterConcat(a, b, (e: Event) => e.MachineTerminated? && e.ok);
  }

  lemma NoTerminations(log: seq<Event>)
    requires forall e :: e in log ==> !(e.MachineTerminated? && e.ok)
    ensures Terminations(log) == []
  {
    FilterNone(log, (e: Event) => e.MachineTerminated? && e.ok);
  }

  lemma GoneConcat(a: seq<Event>, b: seq<Event>)
    ensures Gone(a + b) == Gone(a) + Gone(b)
  {
    assert forall e :: e in a + b <==> e in a || e in b;
  }

  // ---- Verdicts ----

  /** Nothing but acceptances of some of the pairs, one for each candidate, in order. */
  ghost predicate Records(log: seq<Event>, pairs: seq<Pair>, split: Option<Split>) {
    && (forall e :: e in log ==> e.Judged? && e.pair in pairs)
    && (split.Some? ==> |log| == |split.value.candidates|
                        && forall i :: 0 <= i < |log| ==> log[i].pair == split.value.candidates[i])
  }

  lemma {:induction false} PartitionLog(env: Env, w: World, pairs: seq<Pair>) returns (log: seq<Event>)
    ensures var r := Partition(env, w, pairs);
            && r.w.trace == w.trace + log && r.w.state == w.state && Records(log, pairs, r.r)
            && (forall e :: e in log ==> Acceptable(env.lib, w.state, e.pair))
            && (r.r.None? ==> exists p :: p in pairs && Trips(env.lib, w.state, p))
  {
    hide JudgePair, Records, Acceptable, Trips;
    log := [];
    if pairs == [] {
      NoRecords();
    } else {
      var k := |pairs| - 1;
      assert pairs == pairs[..k] + [pairs[k]];
      log := PartitionLog(env, w, pairs[..k]);
      var sofar := Partition(env, w, pairs[..k]);
      if sofar.r.Some? {
        var more := JudgeLog(env, sofar.w, pairs[k]);
        RecordsSnoc(log, more, pairs[..k], pairs[k], sofar.r.value, JudgePair(env, sofar.w, pairs[k]).r);
        assert pairs[k] in pairs;
        log := log + more;
      } else {
        RecordsOfMore(log, pairs[..k], pairs);
      }
    }
  }

  lemma NoRecords()
    ensures Records([], [], Some(Split([], [])))
  {
  }

  lemma RecordsOfMore(log: seq<Event>, pairs: seq<Pair>, more: seq<Pair>)
    requires Records(log, pairs, None) && pairs <= more
    ensures Records(log, more, None)
  {
    assert forall p :: p in pairs ==> p in more;
  }

  lemma RecordsSnoc(log: seq<Event>, more: seq<Event>, pairs: seq<Pair>, pair: Pair, split: Split, verdict: Verdict)
    requires Records(log, pairs, Some(split)) && |more| == if verdict.Accepted? then 1 else 0
    requires forall e :: e in more ==> e.Judged? && e.pair == pair
    ensures Records(log + more, pairs + [pair], AddVerdict(split, pair, verdict))
  {
  }

  lemma JudgeLog(env: Env, w: World, pair: Pair) returns (log: seq<Event>)
    ensures var j := JudgePair(env, w, pair);
            && j.w.trace == w.trace + log && j.w.state == w.state && (forall e :: e in log ==> e.Judged?)
            && |log| == (if j.r.Accepted? then 1 else 0) && (forall e :: e in log ==> e.pair == pair)
            && (j.r.Accepted? ==> Acceptable(env.lib, w.state, pair))
            && (j.r.Panic? ==> Trips(env.lib, w.state, pair))
  {
    hide IsScaleDownCandidate, SnapshotVerdict, TripsOn;
    VerdictIsOfSnapshot(env, w, pair.node);
    VerdictPanicsExactly(env.lib, w.state, pair.node);
    log := JudgePair(env, w, pair).w.trace[|w.trace|..];
  }

  // ---- One victim ----

  /** Evictions from the victim's node only, a prefix of its pods; its node deleted and its machine
      terminated if the removal succeeded, and no other. */
  ghost predicate RemovalLogOf(log: seq<Event>, victim: Pair, decrement: bool, ok: bool) {
    && Gone(log) <= {victim.node.meta.name} && (ok ==> Gone(log) == {victim.node.meta.name})
    && Terminations(log) == (if ok then [MachineTerminated(victim.machine.id, decrement, true)] else [])
    && (forall host :: host != victim.node.meta.name ==> Evictions(log, host) == [])
    && (forall e :: e in log ==> !e.Judged?)
    && Evictions(log, victim.node.meta.name) <= VictimPods(victim.node)
    && (ok ==> Evictions(log, victim.node.meta.name) == VictimPods(victim.node))
    && Evicted(log) <= VictimPods(victim.node) && (ok ==> Evicted(log) == VictimPods(victim.node))
  }

  /** No eviction, deletion, termination or verdict. */
  ghost predicate Silent(log: seq<Event>) {
    forall e :: e in log ==> !e.PodEvicted? && !e.NodeDeleted? && !e.MachineTerminated? && !e.Judged?
  }

  /** Silent parts around a log add nothing to its evictions, deletions and terminations. */
  lemma SilentAround(before: seq<Event>, log: seq<Event>, after: seq<Event>)
    requires Silent(before) && Silent(after)
    ensures Gone(before + log + after) == Gone(log)
    ensures Terminations(before + log + after) == Terminations(log)
    ensures Evicted(before + log + after) == Evicted(log)
    ensures forall host :: Evictions(before + log + after, host) == Evictions(log, host)
  {
    hide Terminations, Evicted;
    EvictedConcat(before + log, after);
    EvictedConcat(before, log);
    NothingEvictedIn(before);
    NothingEvictedIn(after);
    GoneConcat(before + log, after);
    GoneConcat(before, log);
    TerminationsConcat(before + log, after);
    TerminationsConcat(before, log);
    NoTerminations(before);
    NoTerminations(after);
    forall host ensures Evictions(before + log + after, host) == Evictions(log, host) {
      EvictionsConcat(before + log, after, host);
      EvictionsConcat(before, log, host);
      NoEvictions(before, host);
      NoEvictions(after, host);
    }
  }

  lemma UndoIsSilent(undo: seq<Event>, name: string, ok: bool)
    requires undo != [] ==> undo[0] == RollingBack(name) && UpdatesOnly(undo[1..], name)
    ensures Silent(undo + [Drained(name, ok)])
  {
    forall e | e in undo + [Drained(name, ok)]
      ensures !e.PodEvicted? && !e.NodeDeleted? && !e.MachineTerminated? && !e.Judged?
    {
      var i :| 0 <= i <= |undo| && (undo + [Drained(name, ok)])[i] == e;
      if 0 < i < |undo| {
        assert e == undo[1..][i - 1] && e in undo[1..];
      }
    }
  }

  lemma EvictionLogParts(log: seq<Event>, host: string, pods: seq<Pod>, ok: bool)
    requires EvictionLog(log, host, pods, ok)
    ensures Gone(log) == {} && Terminations(log) == [] && forall e :: e in log ==> !e.Judged?
    ensures forall other :: other != host ==> Evictions(log, other) == []
    ensures Evictions(log, host) == pods[..|log|]
    ensures Evicted(log) <= pods && (ok ==> Evicted(log) == pods)
  {
    hide Terminations;
    EvictedByDrain(log, host, pods, ok);
    NoTerminations(log);
    EvictionsOf(log, host, pods);
    forall other | other != host ensures Evictions(log, other) == [] {
      NoEvictions(log, other);
    }
  }

  lemma DrainLogParts(env: Env, w: World, node: NodeView) returns (log: seq<Event>)
    ensures var d := DrainNode(env, w, node);
            && d.w.trace == w.trace + log && Gone(log) == {} && Terminations(log) == []
            && (forall e :: e in log ==> !e.Judged?)
            && (forall host :: host != node.meta.name ==> Evictions(log, host) == [])
            && Evictions(log, node.meta.name) <= VictimPods(node)
            && (d.r ==> Evictions(log, node.meta.name) == VictimPods(node))
            && Evicted(log) <= VictimPods(node) && (d.r ==> Evicted(log) == VictimPods(node))
  {
    hide DrainNode, VictimPods, Terminations, Gone, EvictionLog;
    var name := node.meta.name;
    var ok := DrainNode(env, w, node).r;
    var mark, evictions, undo := DrainLog(env, w, node);
    log := mark + evictions + (undo + [Drained(name, ok)]);
    UndoIsSilent(undo, name, ok);
    SilentAround(mark, evictions, undo + [Drained(name, ok)]);
    if evictions != [] || ok {
      EvictionLogParts(evictions, name, VictimPods(node), ok);
      AllOf(evictions, name, VictimPods(node), ok);
    } else {
      EmptyLogParts();
    }
  }

  lemma AllOf(log: seq<Event>, host: string, pods: seq<Pod>, ok: bool)
    requires EvictionLog(log, host, pods, ok)
    ensures pods[..|log|] <= pods && (ok ==> pods[..|log|] == pods)
  {
  }

  lemma EmptyLogParts()
    ensures Gone([]) == {} && Terminations([]) == [] && Evicted([]) == [] && forall host :: Evictions([], host) == []
  {
  }

  /** What the log of a removal shows. */
  lemma RemovalLog(env: Env, w: World, victim: Pair, decrement: bool) returns (log: seq<Event>)
    ensures var e := EvictAndTerminate(env, w, victim, decrement);
            e.w.trace == w.trace + log && RemovalLogOf(log, victim, decrement, e.r)
  {
    hide DrainNode, VictimPods, Terminations, Gone, Evicted, Evictions;
    var name, id := victim.node.meta.name, victim.machine.id;
    log := DrainLogParts(env, w, victim.node);
    var drain := DrainNode(env, w, victim.node);
    if drain.r {
      var delete := DeleteNode(env, drain.w, name);
      var tail := [NodeDeleted(name, delete.r)];
      if delete.r {
        tail := tail + [MachineTerminated(id, decrement, StopMachine(env, delete.w, id, decrement).r)];
      }
      TailParts(log, tail, name, id, decrement);
      log := log + tail;
    }
  }

  lemma TailParts(log: seq<Event>, tail: seq<Event>, name: string, id: string, decrement: bool)
    requires Gone(log) == {} && Terminations(log) == []
    requires tail == [NodeDeleted(name, false)]
             || (exists ok :: tail == [NodeDeleted(name, true), MachineTerminated(id, decrement, ok)])
    ensures Gone(log + tail) <= {name} && (|tail| == 2 ==> Gone(log + tail) == {name})
    ensures |tail| == 2 && tail[1].ok ==> Terminations(log + tail) == [tail[1]]
    ensures |tail| == 2 && !tail[1].ok ==> Terminations(log + tail) == []
    ensures |tail| == 1 ==> Terminations(log + tail) == []
    ensures Evicted(log + tail) == Evicted(log)
    ensures forall host :: Evictions(log + tail, host) == Evictions(log, host)
  {
    hide Terminations;
    EvictedConcat(log, tail);
    NothingEvictedIn(tail);
    GoneConcat(log, tail);
    assert tail[0] in tail;
    forall host ensures Evictions(log + tail, host) == Evictions(log, host) {
      EvictionsConcat(log, tail, host);
      NoEvictions(tail, host);
    }
    TerminationsSnoc(log, tail[0]);
    if |tail| == 2 {
      TerminationsSnoc(log + [tail[0]], tail[1]);
      assert log + tail == log + [tail[0]] + [tail[1]];
    }
  }

  lemma TerminationsSnoc(log: seq<Event>, e: Event)
    ensures e.MachineTerminated? && e.ok ==> Terminations(log + [e]) == Terminations(log) + [e]
    ensures !(e.MachineTerminated? && e.ok) ==> Terminations(log + [e]) == Terminations(log)
  {
    FilterSnoc(log, e, (e: Event) => e.MachineTerminated? && e.ok);
  }
}
