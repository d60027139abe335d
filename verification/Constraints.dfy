/** The node predicates that a pod destination has to pass: capacity, taints, node selector and
    required node affinity. */
module Constraints {
  import opened Kube
  import opened Resources

  /** Why a node was turned down for a pod. */
  datatype Mismatch =
    | Insufficient(resource: Resource, wanted: Quantity, free: Quantity)
    | TaintNotTolerated(taint: Taint)
    | SelectorMismatch
    | AffinityMismatch
    | AffinityUnparsable

  predicate Fits(pod: Pod, node: NodeView) {
    forall r :: PodRequest(pod, r) <= Free(node, r)
  }

  predicate Repels(taint: Taint) {
    taint.effect == NoSchedule || taint.effect == NoExecute
  }

  predicate HasToleration(lib: Library, pod: Pod, taint: Taint) {
    exists t :: t in pod.tolerations && lib.tolerates(t, taint)
  }

  predicate ToleratesTaints(lib: Library, pod: Pod, node: Node) {
    forall t :: t in node.taints && Repels(t) ==> HasToleration(lib, pod, t)
  }

  predicate SelectorPermits(pod: Pod, node: Node) {
    forall k :: k in pod.nodeSelector ==> k in node.labels && node.labels[k] == pod.nodeSelector[k]
  }

  datatype Selector = Nothing | All(requirements: seq<MatchExpression>)

  predicate Parses(lib: Library, expr: MatchExpression) {
    !expr.op.Unsupported? && lib.validRequirement(expr)
  }

  /** A term without expressions selects nothing; one bad expression spoils its whole term. */
  function AsSelector(lib: Library, term: seq<MatchExpression>): Option<Selector> {
    if term == [] then Some(Nothing)
    else if forall e :: e in term ==> Parses(lib, e) then Some(All(term))
    else None
  }

  method RequirementsAsSelector(lib: Library, term: seq<MatchExpression>) returns (selector: Option<Selector>)
    ensures selector == AsSelector(lib, term)
  {
    if |term| == 0 {
      return Some(Nothing);
    }
    var requirements: seq<MatchExpression> := [];
    for i := 0 to |term|
      invariant requirements == term[..i]
      invariant forall j :: 0 <= j < i ==> Parses(lib, term[j])
    {
      if term[i].op.Unsupported? || !lib.validRequirement(term[i]) {
        assert term[i] in term;
        return None;
      }
      requirements := requirements + [term[i]];
    }
    assert requirements == term;
    return Some(All(requirements));
  }

  predicate Selects(lib: Library, selector: Selector, labels: Labels) {
    match selector
    case Nothing => false
    case All(requirements) => forall e :: e in requirements ==> lib.satisfies(e, labels)
  }

  predicate TermMatches(lib: Library, term: seq<MatchExpression>, node: Node) {
    var selector := AsSelector(lib, term);
    selector.Some? && Selects(lib, selector.value, node.labels)
  }

  /** The affinity loop: the first term that does not parse or does not match ends it. */
  function CheckTerms(lib: Library, terms: seq<seq<MatchExpression>>, node: Node): Option<Mismatch> {
    if terms == [] then None
    else
      var selector := AsSelector(lib, terms[0]);
      if selector.None? then Some(AffinityUnparsable)
      else if !Selects(lib, selector.value, node.labels) then Some(AffinityMismatch)
      else CheckTerms(lib, terms[1..], node)
  }

  function CheckAffinity(lib: Library, pod: Pod, node: Node): Option<Mismatch> {
    if pod.affinity.None? then None else CheckTerms(lib, pod.affinity.value, node)
  }

  /** The taint loop reports the first taint that the pod does not tolerate. */
  function FirstRepelling(lib: Library, pod: Pod, taints: seq<Taint>): (r: Option<Taint>)
    ensures r.None? <==> forall t :: t in taints && Repels(t) ==> HasToleration(lib, pod, t)
    ensures r.Some? ==> r.value in taints && Repels(r.value) && !HasToleration(lib, pod, r.value)
  {
    if taints == [] then None
    else if Repels(taints[0]) && !HasToleration(lib, pod, taints[0]) then Some(taints[0])
    else
      assert taints == [taints[0]] + taints[1..];
      FirstRepelling(lib, pod, taints[1..])
  }

  /** The predicates in the order in which they are tried; the first failure is the reason. */
  function Check(lib: Library, pod: Pod, node: NodeView): Option<Mismatch> {
    if PodRequest(pod, CPU) > Free(node, CPU) then
      Some(Insufficient(CPU, PodRequest(pod, CPU), Free(node, CPU)))
    else if PodRequest(pod, Memory) > Free(node, Memory) then
      Some(Insufficient(Memory, PodRequest(pod, Memory), Free(node, Memory)))
    else
      var taint := FirstRepelling(lib, pod, node.meta.taints);
      if taint.Some? then Some(TaintNotTolerated(taint.value))
      else if !SelectorPermits(pod, node.meta) then Some(SelectorMismatch)
      else CheckAffinity(lib, pod, node.meta)
  }

  /** The part of the check that depends on the node's metadata only. */
  predicate Permits(lib: Library, pod: Pod, node: Node) {
    && ToleratesTaints(lib, pod, node)
    && SelectorPermits(pod, node)
    && CheckAffinity(lib, pod, node).None?
  }

  /** The same, on the fields: the pod tolerates every taint that keeps pods away, the node has every label
      that the pod selects, and satisfies every expression of every required affinity term; a term without
      expressions, or with one that is not well-formed, is satisfied by no node. */
  predicate Admits(lib: Library, pod: Pod, node: Node) {
    && (forall t :: t in node.taints && (t.effect == NoSchedule || t.effect == NoExecute) ==>
          exists o :: o in pod.tolerations && lib.tolerates(o, t))
    && (forall k :: k in pod.nodeSelector ==> k in node.labels && node.labels[k] == pod.nodeSelector[k])
    && (pod.affinity.Some? ==>
          forall term :: term in pod.affinity.value ==>
            term != [] && forall e :: e in term ==>
              !e.op.Unsupported? && lib.validRequirement(e) && lib.satisfies(e, node.labels))
  }

  lemma TermMatchesExactly(lib: Library, term: seq<MatchExpression>, node: Node)
    ensures TermMatches(lib, term, node) <==>
            term != [] && forall e :: e in term ==>
              !e.op.Unsupported? && lib.validRequirement(e) && lib.satisfies(e, node.labels)
  {
    if term != [] && forall e :: e in term ==> Parses(lib, e) && lib.satisfies(e, node.labels) {
      assert AsSelector(lib, term) == Some(All(term));
    }
  }

  lemma PermitsExactly(lib: Library, pod: Pod, node: Node)
    ensures Permits(lib, pod, node) <==> Admits(lib, pod, node)
  {
    hide TermMatches;
    if pod.affinity.Some? {
      AffinityIsConjunction(lib, pod.affinity.value, node);
      forall term ensures TermMatches(lib, term, node) <==>
                          term != [] && forall e :: e in term ==>
                            !e.op.Unsupported? && lib.validRequirement(e) && lib.satisfies(e, node.labels)
      {
        TermMatchesExactly(lib, term, node);
      }
    }
  }

  // ---- What a reason says ----

  /** The pod does not tolerate the taint, which keeps pods away. */
  predicate KeptAway(lib: Library, pod: Pod, t: Taint) {
    (t.effect == NoSchedule || t.effect == NoExecute) && forall o :: o in pod.tolerations ==> !lib.tolerates(o, t)
  }

  /** The node has every label that the pod selects. */
  predicate Selected(pod: Pod, node: Node) {
    forall k :: k in pod.nodeSelector ==> k in node.labels && node.labels[k] == pod.nodeSelector[k]
  }

  /** The reason for turning a node down is the first one, in the order CPU, memory, taints, selector,
      affinity, and it is true of the node and the pod, amounts included. */
  ghost predicate Fitting(lib: Library, pod: Pod, node: NodeView, why: Mismatch) {
    var fits := PodRequest(pod, CPU) <= Free(node, CPU) && PodRequest(pod, Memory) <= Free(node, Memory);
    var welcome := forall t :: t in node.meta.taints ==> !KeptAway(lib, pod, t);
    match why
    case Insufficient(r, wanted, free) =>
      && wanted == PodRequest(pod, r) && free == Free(node, r) && wanted > free
      && (r == Memory ==> PodRequest(pod, CPU) <= Free(node, CPU))
    case TaintNotTolerated(t) => fits && t in node.meta.taints && KeptAway(lib, pod, t)
    case SelectorMismatch => fits && welcome && !Selected(pod, node.meta)
    case AffinityMismatch =>
      && fits && welcome && Selected(pod, node.meta) && pod.affinity.Some?
      && exists term :: term in pod.affinity.value && (term == [] || exists e :: e in term && !lib.satisfies(e, node.meta.labels))
    case AffinityUnparsable =>
      && fits && welcome && Selected(pod, node.meta) && pod.affinity.Some?
      && exists term, e :: term in pod.affinity.value && e in term && (e.op.Unsupported? || !lib.validRequirement(e))
  }

  lemma {:induction false} TermReason(lib: Library, terms: seq<seq<MatchExpression>>, node: Node)
    requires CheckTerms(lib, terms, node).Some?
    ensures var why := CheckTerms(lib, terms, node).value;
            || (why == AffinityUnparsable
                && exists term, e :: term in terms && e in term && (e.op.Unsupported? || !lib.validRequirement(e)))
            || (why == AffinityMismatch
                && exists term :: term in terms && (term == [] || exists e :: e in term && !lib.satisfies(e, node.labels)))
  {
    var selector := AsSelector(lib, terms[0]);
    if selector.None? {
      var e :| e in terms[0] && !Parses(lib, e);
      assert terms[0] in terms;
    } else if !Selects(lib, selector.value, node.labels) {
      assert terms[0] in terms;
    } else {
      TermReason(lib, terms[1..], node);
      assert forall t :: t in terms[1..] ==> t in terms;
    }
  }

  lemma ReasonFitsMismatch(lib: Library, pod: Pod, node: NodeView)
    requires Check(lib, pod, node).Some?
    ensures Fitting(lib, pod, node, Check(lib, pod, node).value)
  {
    if CheckAffinity(lib, pod, node.meta).Some? {
      TermReason(lib, pod.affinity.value, node.meta);
    }
  }

  // ---- The check as a whole ----

  /** A node is accepted exactly when the pod fits on it and its metadata permits the pod. */
  lemma CheckAccepts(lib: Library, pod: Pod, node: NodeView)
    ensures Check(lib, pod, node).None? <==> Fits(pod, node) && Permits(lib, pod, node.meta)
  {
    assert Fits(pod, node) <==>
           PodRequest(pod, CPU) <= Free(node, CPU) && PodRequest(pod, Memory) <= Free(node, Memory);
  }

  // ---- Required node affinity compared with the documented rule ----

  /** Kubernetes' documented rule: a node qualifies when at least one of the terms selects it. */
  predicate AnyTermMatches(lib: Library, terms: seq<seq<MatchExpression>>, node: Node) {
    exists t :: t in terms && TermMatches(lib, t, node)
  }

  /** What the loop accepts: every term selects the node. */
  lemma {:induction false} AffinityIsConjunction(lib: Library, terms: seq<seq<MatchExpression>>, node: Node)
    ensures CheckTerms(lib, terms, node).None? <==> forall t :: t in terms ==> TermMatches(lib, t, node)
  {
    if terms != [] {
      AffinityIsConjunction(lib, terms[1..], node);
      assert forall t :: t in terms <==> t == terms[0] || t in terms[1..];
      assert CheckTerms(lib, terms, node).None? <==>
             TermMatches(lib, terms[0], node) && CheckTerms(lib, terms[1..], node).None?;
    }
  }

  /** An accepted node satisfies every expression of every term, and hence the documented rule. */
  lemma AffinityAcceptsImpliesDocumentedRule(lib: Library, terms: seq<seq<MatchExpression>>, node: Node)
    requires terms != []
    requires CheckTerms(lib, terms, node).None?
    ensures forall t, e :: t in terms && e in t ==> lib.satisfies(e, node.labels)
    ensures AnyTermMatches(lib, terms, node)
  {
    AffinityIsConjunction(lib, terms, node);
    assert terms[0] in terms;
    forall t, e | t in terms && e in t
      ensures lib.satisfies(e, node.labels)
    {
      assert TermMatches(lib, t, node);
    }
  }

  /** The code and the documented rule give the same answer exactly when there is at least one
      term and the terms do not disagree about the node. */
  lemma AffinityAgreesWithDocumentedRule(lib: Library, terms: seq<seq<MatchExpression>>, node: Node)
    ensures (CheckTerms(lib, terms, node).None? <==> AnyTermMatches(lib, terms, node)) <==>
            (terms != [] && forall t, u :: t in terms && u in terms ==>
                            (TermMatches(lib, t, node) <==> TermMatches(lib, u, node)))
  {
    AffinityIsConjunction(lib, terms, node);
    if terms != [] {
      assert terms[0] in terms;
    }
  }

  /** In particular the two rules agree on a single term. */
  lemma AffinityOfOneTerm(lib: Library, term: seq<MatchExpression>, node: Node)
    ensures CheckTerms(lib, [term], node).None? <==> AnyTermMatches(lib, [term], node)
  {
    AffinityAgreesWithDocumentedRule(lib, [term], node);
  }

  /** Two terms of which one matches: the documented rule admits the node, the code does not. */
  lemma AffinityStricterThanDocumented(lib: Library, node: Node, good: MatchExpression, bad: MatchExpression)
    requires Parses(lib, good) && Parses(lib, bad)
    requires lib.satisfies(good, node.labels) && !lib.satisfies(bad, node.labels)
    ensures AnyTermMatches(lib, [[good], [bad]], node)
    ensures CheckTerms(lib, [[good], [bad]], node) == Some(AffinityMismatch)
  {
    assert [good] in [[good], [bad]] && TermMatches(lib, [good], node);
    assert bad in [bad] && !TermMatches(lib, [bad], node);
    assert [[good], [bad]][1..] == [[bad]];
  }
}
