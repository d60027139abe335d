/** Splitting the pairs into candidates and rejections: each pair ends up on exactly one side, and
    for a fixed cluster the sides do not depend on the order in which the pairs are judged. */
module PartitionLaws {
  import opened Kube
  import opened Cluster
  import opened NodeScaler
  import opened VerdictLaws
  import opened CallLaws
  import opened Proxy
  import opened LogLaws

  function AcceptedOf(lib: Library, s: State, pairs: seq<Pair>): seq<Pair> {
    Filter(pairs, (p: Pair) => Acceptable(lib, s, p))
  }

  /** A rejection names the node of the pair, and its reason is true of it. */
  ghost predicate Rejects(lib: Library, s: State, rejection: Rejection, pair: Pair) {
    rejection.node == pair.node.meta.name && ReasonFits(lib, s, pair, rejection.reason)
  }

  /** Every pair is a candidate or has a rejection with a reason that is true of it, and there is nothing
      else in either list. */
  ghost predicate Answers(lib: Library, s: State, split: Split, pairs: seq<Pair>) {
    && |split.candidates| + |split.rejections| == |pairs|
    && (forall p :: p in pairs ==> p in split.candidates || exists r :: r in split.rejections && Rejects(lib, s, r, p))
    && (forall c :: c in split.candidates ==> c in pairs)
    && (forall r :: r in split.rejections ==> exists p :: p in pairs && Rejects(lib, s, r, p))
  }

  lemma AnswersSnoc(lib: Library, s: State, split: Split, pairs: seq<Pair>, pair: Pair, verdict: Verdict)
    requires Answers(lib, s, split, pairs) && !verdict.Panic?
    requires verdict.Refused? ==> ReasonFits(lib, s, pair, verdict.reason)
    ensures Answers(lib, s, AddVerdict(split, pair, verdict).value, pairs + [pair])
  {
    hide ReasonFits;
    var all, more := pairs + [pair], AddVerdict(split, pair, verdict).value;
    assert forall p :: p in all <==> p in pairs || p == pair;
    assert forall r :: r in split.rejections ==> r in more.rejections;
    if verdict.Refused? {
      assert Rejection(pair.node.meta.name, verdict.reason) in more.rejections;
      assert Rejects(lib, s, Rejection(pair.node.meta.name, verdict.reason), pair);
    }
    forall p | p in all ensures p in more.candidates || exists r :: r in more.rejections && Rejects(lib, s, r, p) {
      if p in pairs && p !in split.candidates {
        var r :| r in split.rejections && Rejects(lib, s, r, p);
        assert r in more.rejections;
      }
    }
    forall r | r in more.rejections ensures exists p :: p in all && Rejects(lib, s, r, p) {
      if r in split.rejections {
        var p :| p in pairs && Rejects(lib, s, r, p);
        assert p in all;
      } else {
        assert pair in all;
      }
    }
  }

  lemma NothingToAnswer(lib: Library, s: State)
    ensures Answers(lib, s, Split([], []), [])
  {
  }

  /** A rejection that blames a failed call. */
  predicate Blames(split: Split) {
    exists r :: r in split.rejections && r.reason == CallFailed
  }

  lemma {:induction false} EveryPairIsAnswered(env: Env, w: World, pairs: seq<Pair>)
    requires Partition(env, w, pairs).r.Some?
    ensures var r := Partition(env, w, pairs);
            && Answers(env.lib, w.state, r.r.value, pairs)
            && w.calls <= r.w.calls && (Blames(r.r.value) ==> !Succeeds(env, w.calls, r.w.calls))
  {
    hide JudgePair, Answers, ReasonFits;
    if pairs == [] {
      NothingToAnswer(env.lib, w.state);
    } else {
      var k := |pairs| - 1;
      EveryPairIsAnswered(env, w, pairs[..k]);
      var log := PartitionLog(env, w, pairs[..k]);
      var sofar := Partition(env, w, pairs[..k]);
      PairRefusalFits(env, sofar.w, pairs[k]);
      var verdict := JudgePair(env, sofar.w, pairs[k]).r;
      AnswersSnoc(env.lib, w.state, sofar.r.value, pairs[..k], pairs[k], verdict);
      assert pairs == pairs[..k] + [pairs[k]];
    }
  }

  lemma JudgeWithoutFailures(env: Env, w: World, pair: Pair)
    requires NeverFails(env)
    ensures JudgePair(env, w, pair).r.Accepted? <==> Acceptable(env.lib, w.state, pair)
    ensures JudgePair(env, w, pair).r.Panic? <==> Trips(env.lib, w.state, pair)
  {
    hide IsScaleDownCandidate, SnapshotVerdict, TripsOn;
    VerdictWithoutFailures(env, w, pair.node);
    VerdictPanicsExactly(env.lib, w.state, pair.node);
  }

  /** Without failing calls the partition panics exactly when some verdict does, and otherwise the
      candidates are the acceptable pairs of the snapshot, in their order. */
  lemma {:induction false} PartitionWithoutFailures(env: Env, w: World, pairs: seq<Pair>)
    requires NeverFails(env)
    ensures var r := Partition(env, w, pairs).r;
            && (r.None? <==> exists p :: p in pairs && Trips(env.lib, w.state, p))
            && (r.Some? ==> r.value.candidates == AcceptedOf(env.lib, w.state, pairs))
  {
    hide JudgePair, Acceptable, Trips, AcceptedOf;
    if pairs == [] {
      NobodyAccepted(env.lib, w.state);
    } else {
      var front, last := pairs[..|pairs| - 1], pairs[|pairs| - 1];
      PartitionWithoutFailures(env, w, front);
      var log := PartitionLog(env, w, front);
      assert forall p :: p in pairs <==> p in front || p == last;
      assert pairs == front + [last];
      AcceptedSnoc(env.lib, w.state, front, last);
      if Partition(env, w, front).r.Some? {
        JudgeWithoutFailures(env, Partition(env, w, front).w, last);
      }
    }
  }

  lemma NobodyAccepted(lib: Library, s: State)
    ensures AcceptedOf(lib, s, []) == []
  {
  }

  lemma AcceptedSnoc(lib: Library, s: State, pairs: seq<Pair>, pair: Pair)
    ensures Acceptable(lib, s, pair) ==> AcceptedOf(lib, s, pairs + [pair]) == AcceptedOf(lib, s, pairs) + [pair]
    ensures !Acceptable(lib, s, pair) ==> AcceptedOf(lib, s, pairs + [pair]) == AcceptedOf(lib, s, pairs)
  {
    hide Acceptable;
    FilterSnoc(pairs, pair, (p: Pair) => Acceptable(lib, s, p));
  }

  /** Judging the same pairs in another order, and after other calls, gives the same candidates. */
  lemma OrderIsIrrelevant(env: Env, w: World, pairs: seq<Pair>, w': World, pairs': seq<Pair>)
    requires NeverFails(env) && w'.state == w.state && multiset(pairs') == multiset(pairs)
    ensures var r := Partition(env, w, pairs).r; var r' := Partition(env, w', pairs').r;
            && (r.None? <==> r'.None?)
            && (r.Some? ==> multiset(r.value.candidates) == multiset(r'.value.candidates))
  {
    hide Partition, Acceptable, Trips;
    PartitionWithoutFailures(env, w, pairs);
    PartitionWithoutFailures(env, w', pairs');
    assert forall p :: p in pairs <==> p in multiset(pairs);
    assert forall p :: p in pairs' <==> p in multiset(pairs');
    var a, b := AcceptedOf(env.lib, w.state, pairs), AcceptedOf(env.lib, w.state, pairs');
    forall p ensures multiset(a)[p] == multiset(b)[p] {
      FilterCounts(pairs, (p: Pair) => Acceptable(env.lib, w.state, p), p);
      FilterCounts(pairs', (p: Pair) => Acceptable(env.lib, w.state, p), p);
    }
    assert multiset(a) == multiset(b);
  }
}
