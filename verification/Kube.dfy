/** The Kubernetes and cloudpool records that the proxy reads, the library calls it
    relies on, and the small list functions shared by every other module. */
module Kube {

  datatype Option<+T> = None | Some(value: T)

  /** CPU and memory amounts, as multiples of the finest unit a quantity can carry. */
  type Quantity = int

  type Labels = map<string, string>

  datatype Resource = CPU | Memory

  datatype TaintEffect = NoSchedule | PreferNoSchedule | NoExecute

  datatype Taint = Taint(key: string, value: string, effect: TaintEffect)

  datatype Toleration = Toleration(key: string, operator: string, value: string, effect: Option<TaintEffect>)

  datatype Operator = In | NotIn | Exists | DoesNotExist | Gt | Lt | Unsupported(text: string)

  datatype MatchExpression = MatchExpression(key: string, op: Operator, values: seq<string>)

  datatype LabelSelector = LabelSelector(matchLabels: Labels, matchExpressions: seq<MatchExpression>)

  datatype Volume = Volume(hostPath: bool, emptyDir: bool)

  datatype PodPhase = Pending | Running | Succeeded | PodFailed | PhaseUnknown

  datatype Container = Container(requests: map<string, Quantity>)

  /** `affinity` holds the required node selector terms, if the pod has any such requirement;
      each element of `owners` is the (optional) controller flag of an owner reference. */
  datatype Pod = Pod(
    name: string,
    namespace: string,
    labels: Labels,
    nodeName: string,
    containers: seq<Container>,
    nodeSelector: Labels,
    tolerations: seq<Toleration>,
    affinity: Option<seq<seq<MatchExpression>>>,
    volumes: seq<Volume>,
    owners: seq<Option<bool>>,
    phase: PodPhase)

  datatype Condition = Condition(kind: string, status: string)

  datatype Node = Node(
    name: string,
    externalID: string,
    labels: Labels,
    annotations: Labels,
    taints: seq<Taint>,
    unschedulable: bool,
    conditions: seq<Condition>,
    allocatable: map<string, Quantity>)

  /** A node together with the pods scheduled onto it. */
  datatype NodeView = NodeView(meta: Node, pods: seq<Pod>)

  datatype Budget = Budget(name: string, selector: LabelSelector, allowed: int)

  datatype MachineState = Requested | Rejected | MachinePending | MachineRunning | Terminating | Terminated

  datatype Machine = Machine(id: string, state: MachineState, active: bool, evictable: bool)

  /** The library calls whose code is not part of the repository. Every result of this project
      holds for each behaviour these functions may have. */
  datatype Library = Library(
    tolerates: (Toleration, Taint) -> bool,
    validRequirement: MatchExpression -> bool,
    satisfies: (MatchExpression, Labels) -> bool,
    selectorParses: LabelSelector -> bool,
    selectorMatches: (LabelSelector, Labels) -> bool,
    milli: Quantity -> int,
    whole: Quantity -> int)
  {
    /** Quantities are rounded up to an integer before a load is computed. */
    ghost predicate RoundsUp() {
      Rounding(milli) && Rounding(whole)
    }
  }

  ghost predicate Rounding(f: Quantity -> int) {
    && f(0) == 0
    && (forall x, y :: x <= y ==> f(x) <= f(y))
    && (forall x :: 0 < x ==> 1 <= f(x))
  }

  /** The elements of `xs` that satisfy `p`, in their original order. */
  function Filter<T(!new)>(xs: seq<T>, p: T -> bool): (r: seq<T>)
    ensures forall x :: x in r <==> x in xs && p(x)
    ensures |r| <= |xs|
  {
    if xs == [] then []
    else
      var last := xs[|xs| - 1];
      assert xs == xs[..|xs| - 1] + [last];
      Filter(xs[..|xs| - 1], p) + if p(last) then [last] else []
  }

  /** Filtering keeps every occurrence of the chosen elements and of nothing else. */
  lemma {:induction false} FilterCounts<T(!new)>(xs: seq<T>, p: T -> bool, x: T)
    ensures multiset(Filter(xs, p))[x] == if p(x) then multiset(xs)[x] else 0
  {
    if xs != [] {
      FilterCounts(xs[..|xs| - 1], p, x);
      assert xs == xs[..|xs| - 1] + [xs[|xs| - 1]];
    }
  }

  lemma FilterSnoc<T(!new)>(xs: seq<T>, x: T, p: T -> bool)
    ensures p(x) ==> Filter(xs + [x], p) == Filter(xs, p) + [x]
    ensures !p(x) ==> Filter(xs + [x], p) == Filter(xs, p)
  {
    assert (xs + [x])[..|xs + [x]| - 1] == xs;
  }

  lemma {:induction false} FilterConcat<T(!new)>(a: seq<T>, b: seq<T>, p: T -> bool)
    ensures Filter(a + b, p) == Filter(a, p) + Filter(b, p)
  {
    if b == [] {
      assert a + b == a;
    } else {
      var front, last := b[..|b| - 1], b[|b| - 1];
      FilterConcat(a, front, p);
      assert b == front + [last];
      FilterConcatSnoc(a, front, last, p);
    }
  }

  lemma FilterConcatSnoc<T(!new)>(a: seq<T>, b: seq<T>, x: T, p: T -> bool)
    requires Filter(a + b, p) == Filter(a, p) + Filter(b, p)
    ensures Filter(a + (b + [x]), p) == Filter(a, p) + Filter(b + [x], p)
  {
    hide Filter;
    assert a + (b + [x]) == (a + b) + [x];
    FilterSnoc(b, x, p);
    FilterSnoc(a + b, x, p);
  }

  lemma {:induction false} FilterNone<T(!new)>(xs: seq<T>, p: T -> bool)
    requires forall x :: x in xs ==> !p(x)
    ensures Filter(xs, p) == []
  {
    if xs != [] {
      FilterNone(xs[..|xs| - 1], p);
    }
  }

  lemma {:induction false} FilterAllKept<T(!new)>(xs: seq<T>, p: T -> bool)
    requires forall x :: x in xs ==> p(x)
    ensures Filter(xs, p) == xs
  {
    if xs != [] {
      FilterAllKept(xs[..|xs| - 1], p);
      assert xs == xs[..|xs| - 1] + [xs[|xs| - 1]];
    }
  }

  lemma {:induction false} FilterSame<T(!new)>(xs: seq<T>, p: T -> bool, q: T -> bool)
    requires forall x :: p(x) <==> q(x)
    ensures Filter(xs, p) == Filter(xs, q)
  {
    if xs != [] {
      FilterSame(xs[..|xs| - 1], p, q);
    }
  }

  /** The inner loop of each filter: an element passes when no predicate of the list turns it down. */
  method SatisfiesAll<T>(x: T, predicates: seq<T -> bool>) returns (satisfied: bool)
    ensures satisfied <==> forall p :: p in predicates ==> p(x)
  {
    satisfied := true;
    for j := 0 to |predicates|
      invariant satisfied && forall k :: 0 <= k < j ==> predicates[k](x)
    {
      if !predicates[j](x) {
        satisfied := false;
        assert predicates[j] in predicates;
        break;
      }
    }
  }

  /** The filter loop used for pods and machines; `all` is the conjunction of the predicates. */
  method FilterAll<T(!new)>(xs: seq<T>, predicates: seq<T -> bool>, ghost all: T -> bool) returns (filtered: seq<T>)
    requires forall x :: all(x) <==> forall p :: p in predicates ==> p(x)
    ensures filtered == Filter(xs, all)
  {
    filtered := [];
    for i := 0 to |xs|
      invariant filtered == Filter(xs[..i], all)
    {
      var satisfied := SatisfiesAll(xs[i], predicates);
      FilterSnoc(xs[..i], xs[i], all);
      assert xs[..i + 1] == xs[..i] + [xs[i]];
      if satisfied {
        filtered := filtered + [xs[i]];
      }
    }
    assert xs[..|xs|] == xs;
  }
}
