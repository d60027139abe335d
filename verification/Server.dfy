/** The server as an interleaving of request handlers that share one cluster, one pool and the update
    lock. */
module Server {
  import opened Kube
  import opened Cluster
  import opened Proxy
  import opened Handler
  import opened RunLaws
  import opened RequestLaws
  import opened VerdictLaws
  import opened CrashLaws

  /** The body of a request, as far as it could be read and decoded. */
  datatype Message =
    | Unreadable
    | Undecodable
    | SizeMessage(desired: Option<int>)
    | TerminateMessage(id: string, decrement: bool)

  function Validate(message: Message): Option<Request> {
    match message
    case SizeMessage(Some(desired)) => if desired < 0 then None else Some(SetSize(desired))
    case TerminateMessage(id, decrement) => if id == "" then None else Some(Terminate(id, decrement))
    case _ => None
  }

  predicate IsValid(request: Request) {
    match request
    case SetSize(desired) => desired >= 0
    case Terminate(id, _) => id != ""
  }

  /** The message in which a client states a request. */
  function MessageOf(request: Request): Message {
    match request
    case SetSize(desired) => SizeMessage(Some(desired))
    case Terminate(id, decrement) => TerminateMessage(id, decrement)
  }

  /** Validation lets through exactly the valid requests, and each of them unchanged. */
  lemma ValidationAdmitsExactly(message: Message, request: Request)
    ensures Validate(message) == Some(request) <==> message == MessageOf(request) && IsValid(request)
  {
  }

  /** A handler inside the locked section carries its phase and the log of its own changes; `entry`
      only remembers the world in which it got the lock. */
  datatype Process =
    | Arrived(message: Message)
    | TurnedAway
    | Waiting(request: Request)
    | Inside(request: Request, entry: World, phase: Phase, log: seq<Event>)
    | Answered(request: Request, outcome: Outcome)

  /** What has happened to cluster and pool, in order: locked sections that were completed, and changes
      by others while nobody held the lock. */
  datatype Turn =
    | Served(client: nat, request: Request, entry: World, exit: World, outcome: Outcome)
    | Changed(state: State)

  /** `arrivals` holds the messages, one for each process, and `global` the log of all changes by handlers. */
  datatype System = System(
    arrivals: seq<Message>,
    state: State,
    calls: nat,
    locked: bool,
    processes: seq<Process>,
    history: seq<Turn>,
    global: seq<Event>)

  // ---- Steps ----

  ghost predicate Arrives(s: System, s': System) {
    exists m :: s' == s.(arrivals := s.arrivals + [m], processes := s.processes + [Arrived(m)])
  }

  /** Outside the locked sections anything may happen to cluster and pool. */
  ghost predicate Changes(s: System, s': System) {
    !s.locked && exists now :: s' == s.(state := now, history := s.history + [Changed(now)])
  }

  /** Validation comes before the lock; a refused message never reaches the proxy. */
  ghost predicate Decides(s: System, s': System, i: nat) {
    && i < |s.processes| && s.processes[i].Arrived?
    && var request := Validate(s.processes[i].message);
       s' == s.(processes := s.processes[i := if request.None? then TurnedAway else Waiting(request.value)])
  }

  ghost predicate Locks(s: System, s': System, i: nat) {
    && i < |s.processes| && s.processes[i].Waiting? && !s.locked
    && var request := s.processes[i].request;
       s' == s.(locked := true,
                processes := s.processes[i := Inside(request, World(s.state, s.calls, []), Begin(request), [])])
  }

  /** What a longer log adds to a shorter one. */
  function Added(log: seq<Event>, longer: seq<Event>): seq<Event> {
    if |log| <= |longer| then longer[|log|..] else []
  }

  /** A step inside the section works on the shared state and does not look at the lock. */
  ghost predicate Works(env: Env, s: System, s': System, i: nat) {
    && i < |s.processes| && s.processes[i].Inside?
    && var p := s.processes[i];
       && WellFormed(p.phase) && !p.phase.Ended?
       && var next := MicroStep(env, World(s.state, s.calls, p.log), p.phase);
          s' == s.(state := next.w.state, calls := next.w.calls,
                      processes := s.processes[i := p.(phase := next.phase, log := next.w.trace)],
                      global := s.global + Added(p.log, next.w.trace))
  }

  /** The lock is released when the proxy call returns; a panic skips the release. */
  ghost predicate Unlocks(s: System, s': System, i: nat) {
    && i < |s.processes| && s.processes[i].Inside?
    && var p := s.processes[i];
       && p.phase.Ended? && !p.phase.outcome.Crash?
       && s' == s.(locked := false,
                   processes := s.processes[i := Answered(p.request, p.phase.outcome)],
                   history := s.history +
                     [Served(i, p.request, p.entry, World(s.state, s.calls, p.log), p.phase.outcome)])
  }

  ghost predicate Step(env: Env, s: System, s': System) {
    || Arrives(s, s')
    || Changes(s, s')
    || exists i: nat :: Decides(s, s', i) || Locks(s, s', i) || Works(env, s, s', i) || Unlocks(s, s', i)
  }

  predicate Initial(s: System) {
    !s.locked && s.arrivals == [] && s.processes == [] && s.history == [] && s.global == []
  }

  // ---- Serial execution ----

  /** The world that a history leads to, with an empty log. */
  function Settled(start: World, history: seq<Turn>): World {
    if history == [] then World(start.state, start.calls, [])
    else
      match history[|history| - 1]
      case Served(_, _, _, exit, _) => World(exit.state, exit.calls, [])
      case Changed(now) => Settled(start, history[..|history| - 1]).(state := now)
  }

  /** The logs of the sections, one after the other. */
  function Logs(history: seq<Turn>): seq<Event> {
    if history == [] then []
    else
      var last := history[|history| - 1];
      Logs(history[..|history| - 1]) + if last.Served? then last.exit.trace else []
  }

  /** Each section is one whole run of a valid request, from the state that it found. */
  ghost predicate Serial(env: Env, start: World, history: seq<Turn>) {
    forall i :: 0 <= i < |history| && history[i].Served? ==>
      && IsValid(history[i].request)
      && history[i].entry == Settled(start, history[..i])
      && Run(env, history[i].entry, history[i].request) == Reply(history[i].exit, history[i].outcome)
  }

  // ---- The invariant ----

  ghost predicate Sane(p: Process) {
    match p
    case Waiting(request) => IsValid(request)
    case Inside(request, _, _, _) => IsValid(request)
    case Answered(request, _) => IsValid(request)
    case _ => true
  }

  /** The one process inside is somewhere in a run of its request from where the last one ended. */
  ghost predicate Holds(env: Env, start: World, s: System, i: nat) {
    && i < |s.processes| && s.processes[i].Inside?
    && var p := s.processes[i];
       && p.entry == Settled(start, s.history)
       && Reached(env, p.entry, p.request, p.phase, World(s.state, s.calls, p.log))
       && s.global == Logs(s.history) + p.log
  }

  ghost predicate Free(start: World, s: System) {
    World(s.state, s.calls, []) == Settled(start, s.history) && s.global == Logs(s.history)
  }

  ghost predicate Alone(s: System, i: nat) {
    forall j :: 0 <= j < |s.processes| && j != i ==> !s.processes[j].Inside?
  }

  ghost predicate Orderly(env: Env, start: World, s: System) {
    && Serial(env, start, s.history)
    && (forall p :: p in s.processes ==> Sane(p))
    && (if s.locked then exists i :: Holds(env, start, s, i) && Alone(s, i)
        else Free(start, s) && forall j :: 0 <= j < |s.processes| ==> !s.processes[j].Inside?)
  }

  // ---- Every step keeps it ----

  lemma SaneUpdate(processes: seq<Process>, i: nat, p: Process)
    requires i < |processes| && Sane(p) && forall q :: q in processes ==> Sane(q)
    ensures forall q :: q in processes[i := p] ==> Sane(q)
  {
    hide Sane;
    forall q | q in processes[i := p] ensures Sane(q) {
      assert q == p || q in processes;
    }
  }

  /** A process that is not inside may change, and new ones may come, without harm. */
  lemma BystanderStep(env: Env, start: World, s: System, s': System)
    requires Orderly(env, start, s)
    requires s' == s.(arrivals := s'.arrivals, processes := s'.processes) && |s.processes| <= |s'.processes|
    requires forall p :: p in s'.processes ==> Sane(p)
    requires forall j :: 0 <= j < |s.processes| && s.processes[j].Inside? ==> s'.processes[j] == s.processes[j]
    requires forall j :: 0 <= j < |s'.processes| && (j >= |s.processes| || !s.processes[j].Inside?) ==> !s'.processes[j].Inside?
    ensures Orderly(env, start, s')
  {
    hide Serial, Reached, Settled, Logs, Sane;
    if s.locked {
      var i :| Holds(env, start, s, i) && Alone(s, i);
      assert Holds(env, start, s', i) && Alone(s', i);
    }
  }

  lemma LockStep(env: Env, start: World, s: System, s': System, i: nat)
    requires Orderly(env, start, s) && Locks(s, s', i)
    ensures Orderly(env, start, s')
  {
    hide Serial, Settled, Logs, Sane;
    var request := s.processes[i].request;
    assert s.processes[i] in s.processes;
    SaneKept(s.processes[i], s'.processes[i]);
    SaneUpdate(s.processes, i, s'.processes[i]);
    assert Holds(env, start, s', i) && Alone(s', i);
  }

  /** A process keeps its request, and so the request's validity. */
  lemma SaneKept(p: Process, q: Process)
    requires Sane(p) && (p.Waiting? || p.Inside?)
    requires (q.Inside? || q.Answered?) && q.request == p.request
    ensures Sane(q) && IsValid(p.request)
  {
  }

  lemma WorkStep(env: Env, start: World, s: System, s': System, i: nat)
    requires Orderly(env, start, s) && Works(env, s, s', i)
    ensures Orderly(env, start, s')
  {
    hide Serial, Settled, Logs, Sane, Reached, MicroStep;
    var p := s.processes[i];
    assert s.locked;
    var h :| Holds(env, start, s, h) && Alone(s, h);
    assert h == i;
    assert p in s.processes;
    SaneKept(p, s'.processes[i]);
    SaneUpdate(s.processes, i, s'.processes[i]);
    var w := World(s.state, s.calls, p.log);
    MicroStepSimulates(env, p.entry, p.request, p.phase, w);
    MicroStepIsOneCall(env, w, p.phase);
    var next := MicroStep(env, w, p.phase);
    assert p.log + Added(p.log, next.w.trace) == next.w.trace;
    assert Holds(env, start, s', i) && Alone(s', i);
  }

  lemma UnlockStep(env: Env, start: World, s: System, s': System, i: nat)
    requires Orderly(env, start, s) && Unlocks(s, s', i)
    ensures Orderly(env, start, s')
  {
    hide Serial, Sane, Reached, Run;
    var p := s.processes[i];
    assert s.locked;
    var h :| Holds(env, start, s, h) && Alone(s, h);
    assert h == i;
    assert p in s.processes;
    SaneKept(p, s'.processes[i]);
    SaneUpdate(s.processes, i, s'.processes[i]);
    ReachedIsWellFormed(env, p.entry, p.request, p.phase, World(s.state, s.calls, p.log));
    SerialSnoc(env, start, s.history, s'.history[|s.history|]);
    assert s'.history[..|s.history|] == s.history;
  }

  lemma SerialSnoc(env: Env, start: World, history: seq<Turn>, turn: Turn)
    requires Serial(env, start, history)
    requires turn.Served? ==>
               && IsValid(turn.request) && turn.entry == Settled(start, history)
               && Run(env, turn.entry, turn.request) == Reply(turn.exit, turn.outcome)
    ensures Serial(env, start, history + [turn])
  {
    hide Run, Settled;
    var all := history + [turn];
    forall i | 0 <= i < |all| && all[i].Served?
      ensures && IsValid(all[i].request) && all[i].entry == Settled(start, all[..i])
              && Run(env, all[i].entry, all[i].request) == Reply(all[i].exit, all[i].outcome)
    {
      assert i < |history| ==> all[..i] == history[..i];
      assert i == |history| ==> all[..i] == history;
    }
  }

  lemma ChangeStep(env: Env, start: World, s: System, s': System)
    requires Orderly(env, start, s) && Changes(s, s')
    ensures Orderly(env, start, s')
  {
    hide Serial, Sane, Holds;
    SerialSnoc(env, start, s.history, s'.history[|s.history|]);
    assert s'.history[..|s.history|] == s.history;
  }

  /** Mutual exclusion and serial execution are kept by every step of every process. */
  lemma StepKeepsOrder(env: Env, start: World, s: System, s': System)
    requires Orderly(env, start, s) && Step(env, s, s')
    ensures Orderly(env, start, s')
  {
    hide Orderly, Decides, Locks, Works, Unlocks, Arrives, Changes;
    if Arrives(s, s') {
      ArriveStep(env, start, s, s');
    } else if Changes(s, s') {
      ChangeStep(env, start, s, s');
    } else {
      var i: nat :| Decides(s, s', i) || Locks(s, s', i) || Works(env, s, s', i) || Unlocks(s, s', i);
      if Decides(s, s', i) {
        DecideStep(env, start, s, s', i);
      } else if Locks(s, s', i) {
        LockStep(env, start, s, s', i);
      } else if Works(env, s, s', i) {
        WorkStep(env, start, s, s', i);
      } else {
        UnlockStep(env, start, s, s', i);
      }
    }
  }

  lemma ArriveStep(env: Env, start: World, s: System, s': System)
    requires Orderly(env, start, s) && Arrives(s, s')
    ensures Orderly(env, start, s')
  {
    hide Serial, Holds, Free;
    forall p | p in s'.processes ensures Sane(p) {
      assert p in s.processes || p.Arrived?;
    }
    BystanderStep(env, start, s, s');
  }

  lemma DecideStep(env: Env, start: World, s: System, s': System, i: nat)
    requires Orderly(env, start, s) && Decides(s, s', i)
    ensures Orderly(env, start, s')
  {
    hide Serial, Holds, Free;
    SaneUpdate(s.processes, i, s'.processes[i]);
    BystanderStep(env, start, s, s');
  }

  // ---- Answers ----

  /** What a process is about is what its message says, and it is turned away only if the message states
      no valid request. */
  ghost predicate Minds(message: Message, p: Process) {
    match p
    case Arrived(m) => m == message
    case TurnedAway => forall request :: IsValid(request) ==> message != MessageOf(request)
    case Waiting(request) => IsValid(request) && message == MessageOf(request)
    case Inside(request, _, _, _) => IsValid(request) && message == MessageOf(request)
    case Answered(request, _) => IsValid(request) && message == MessageOf(request)
  }

  /** Process `i` got its answer from turn `j`. */
  predicate AnsweredIn(s: System, i: nat, j: nat) {
    && i < |s.processes| && s.processes[i].Answered? && j < |s.history| && s.history[j].Served?
    && s.history[j].client == i
    && s.history[j].request == s.processes[i].request && s.history[j].outcome == s.processes[i].outcome
  }

  /** Every process minds its message; every answer comes from a turn, and every turn by a process is the
      source of its answer. */
  ghost predicate Honest(s: System) {
    && |s.arrivals| == |s.processes|
    && (forall i :: 0 <= i < |s.processes| ==> Minds(s.arrivals[i], s.processes[i]))
    && (forall i :: 0 <= i < |s.processes| && s.processes[i].Answered? ==> exists j :: AnsweredIn(s, i, j))
    && (forall j :: 0 <= j < |s.history| && s.history[j].Served? ==> AnsweredIn(s, s.history[j].client, j))
    && (forall j, k :: 0 <= j < k < |s.history| && s.history[j].Served? && s.history[k].Served? ==>
          s.history[j].client != s.history[k].client)
  }

  /** A step that answers nobody and adds no turn by a process. */
  lemma HonestKept(s: System, s': System)
    requires Honest(s) && |s.processes| <= |s'.processes| && |s'.arrivals| == |s'.processes|
    requires forall i :: 0 <= i < |s'.processes| ==> Minds(s'.arrivals[i], s'.processes[i])
    requires forall i :: 0 <= i < |s.processes| && s.processes[i].Answered? ==> s'.processes[i] == s.processes[i]
    requires forall i :: 0 <= i < |s'.processes| && s'.processes[i].Answered? ==> i < |s.processes| && s.processes[i].Answered?
    requires s.history <= s'.history && forall j :: |s.history| <= j < |s'.history| ==> s'.history[j].Changed?
    ensures Honest(s')
  {
    hide Minds;
    assert forall j :: 0 <= j < |s.history| ==> s'.history[j] == s.history[j];
    forall i | 0 <= i < |s'.processes| && s'.processes[i].Answered? ensures exists j :: AnsweredIn(s', i, j) {
      var j: nat :| AnsweredIn(s, i, j);
      assert AnsweredIn(s', i, j);
    }
    forall j | 0 <= j < |s'.history| && s'.history[j].Served? ensures AnsweredIn(s', s'.history[j].client, j) {
      assert AnsweredIn(s, s.history[j].client, j);
    }
  }

  /** The one answer that a step gives. */
  lemma HonestAnswer(s: System, s': System, i: nat)
    requires Honest(s) && Unlocks(s, s', i)
    ensures Honest(s')
  {
    var n := |s.history|;
    assert forall j :: 0 <= j < n ==> s'.history[j] == s.history[j];
    assert AnsweredIn(s', i, n);
    forall k | 0 <= k < |s'.processes| && s'.processes[k].Answered? ensures exists j :: AnsweredIn(s', k, j) {
      if k != i {
        var j: nat :| AnsweredIn(s, k, j);
        assert AnsweredIn(s', k, j);
      }
    }
    forall j | 0 <= j < n && s.history[j].Served? ensures s.history[j].client != i && AnsweredIn(s', s'.history[j].client, j) {
      assert AnsweredIn(s, s.history[j].client, j);
    }
  }

  lemma DecisionMinds(message: Message)
    ensures var request := Validate(message);
            Minds(message, if request.None? then TurnedAway else Waiting(request.value))
  {
    forall request | IsValid(request) ensures message == MessageOf(request) ==> Validate(message) == Some(request) {
      ValidationAdmitsExactly(message, request);
    }
    if Validate(message).Some? {
      ValidationAdmitsExactly(message, Validate(message).value);
    }
  }

  lemma StepKeepsHonest(env: Env, s: System, s': System)
    requires Honest(s) && Step(env, s, s')
    ensures Honest(s')
  {
    hide Honest, MicroStep, Validate;
    if Arrives(s, s') || Changes(s, s') {
      StepIsBystander(env, s, s');
    } else {
      var i: nat :| Decides(s, s', i) || Locks(s, s', i) || Works(env, s, s', i) || Unlocks(s, s', i);
      if Unlocks(s, s', i) {
        HonestAnswer(s, s', i);
      } else {
        MoveMinds(env, s, s', i);
        StepIsMove(s, s', i);
      }
    }
  }

  lemma StepIsBystander(env: Env, s: System, s': System)
    requires Honest(s) && (Arrives(s, s') || Changes(s, s'))
    ensures Honest(s')
  {
    HonestKept(s, s');
  }

  lemma MoveMinds(env: Env, s: System, s': System, i: nat)
    requires Honest(s) && (Decides(s, s', i) || Locks(s, s', i) || Works(env, s, s', i))
    ensures s'.arrivals == s.arrivals && s'.history == s.history && |s.arrivals| == |s'.processes| == |s.processes| && i < |s.processes|
    ensures forall k :: 0 <= k < |s.processes| && k != i ==> s'.processes[k] == s.processes[k]
    ensures Minds(s.arrivals[i], s'.processes[i]) && !s'.processes[i].Answered? && !s.processes[i].Answered?
  {
    hide MicroStep, Validate;
    assert Minds(s.arrivals[i], s.processes[i]);
    if Decides(s, s', i) {
      DecisionMinds(s.arrivals[i]);
    }
  }

  lemma StepIsMove(s: System, s': System, i: nat)
    requires Honest(s) && s'.arrivals == s.arrivals && s'.history == s.history && |s'.processes| == |s.processes| && i < |s.processes|
    requires forall k :: 0 <= k < |s.processes| && k != i ==> s'.processes[k] == s.processes[k]
    requires |s.arrivals| == |s.processes| && Minds(s.arrivals[i], s'.processes[i])
    requires !s'.processes[i].Answered? && !s.processes[i].Answered?
    ensures Honest(s')
  {
    HonestKept(s, s');
  }

  /** Mutual exclusion, serial execution and true answers: what every step of every process keeps. */
  ghost predicate Invariant(env: Env, start: World, s: System) {
    Orderly(env, start, s) && Honest(s)
  }

  lemma StepKeepsInvariant(env: Env, start: World, s: System, s': System)
    requires Invariant(env, start, s) && Step(env, s, s')
    ensures Invariant(env, start, s')
  {
    hide Orderly, Honest, Step;
    StepKeepsOrder(env, start, s, s');
    StepKeepsHonest(env, s, s');
  }

  // ---- Every run ----

  ghost predicate IsRun(env: Env, run: seq<System>) {
    && |run| > 0 && Initial(run[0])
    && forall i :: 0 < i < |run| ==> Step(env, run[i - 1], run[i])
  }

  function Start(s: System): World {
    World(s.state, s.calls, [])
  }

  lemma {:induction false} InvariantThroughout(env: Env, run: seq<System>, k: nat)
    requires IsRun(env, run) && k < |run|
    ensures Orderly(env, Start(run[0]), run[k]) && Honest(run[k])
  {
    hide Step, Orderly, Honest;
    if k == 0 {
      InitialInvariant(env, run[0]);
    } else {
      InvariantThroughout(env, run, k - 1);
      StepKeepsInvariant(env, Start(run[0]), run[k - 1], run[k]);
    }
  }

  lemma InitialInvariant(env: Env, s: System)
    requires Initial(s)
    ensures Invariant(env, Start(s), s)
  {
  }

  /** What the client is told. */
  function Response(p: Process): Option<int> {
    match p
    case TurnedAway => Some(400)
    case Answered(_, Done) => Some(200)
    case Answered(_, _) => Some(500)
    case _ => None
  }

  /** Every answer is true: it is the outcome of one whole run of the very request that the client's
      message states, from the state in which that request got the lock. The client is told of a success
      exactly if that run succeeded. */
  lemma EveryAnswerIsTrue(env: Env, run: seq<System>, k: nat, i: nat) returns (j: nat)
    requires IsRun(env, run) && k < |run| && i < |run[k].processes| && run[k].processes[i].Answered?
    ensures var s, p := run[k], run[k].processes[i];
            && i < |s.arrivals| && s.arrivals[i] == MessageOf(p.request) && IsValid(p.request)
            && j < |s.history| && s.history[j].Served? && s.history[j].client == i
            && s.history[j].request == p.request && s.history[j].outcome == p.outcome
            && s.history[j].entry == Settled(Start(run[0]), s.history[..j])
            && Run(env, s.history[j].entry, p.request) == Reply(s.history[j].exit, p.outcome)
            && (Response(p) == Some(200) <==> Run(env, s.history[j].entry, p.request).r == Done)
  {
    hide IsRun, Run, Settled, Holds, Free;
    InvariantThroughout(env, run, k);
    assert Minds(run[k].arrivals[i], run[k].processes[i]);
    j :| AnsweredIn(run[k], i, j);
  }

  /** Different processes are answered from different turns, and every turn by a process has answered it. */
  lemma OneTurnEach(env: Env, run: seq<System>, k: nat, j: nat, j': nat)
    requires IsRun(env, run) && k < |run| && j < j' < |run[k].history|
    requires run[k].history[j].Served? && run[k].history[j'].Served?
    ensures run[k].history[j].client != run[k].history[j'].client
    ensures AnsweredIn(run[k], run[k].history[j].client, j)
  {
    hide IsRun, Orderly;
    InvariantThroughout(env, run, k);
  }

  /** A client is turned away exactly for a message that states no valid request. */
  lemma TurnedAwayRightly(env: Env, run: seq<System>, k: nat, i: nat)
    requires IsRun(env, run) && k < |run| && i < |run[k].processes|
    ensures i < |run[k].arrivals|
    ensures Response(run[k].processes[i]) == Some(400) ==>
              forall request :: IsValid(request) ==> run[k].arrivals[i] != MessageOf(request)
    ensures run[k].processes[i].Waiting? || run[k].processes[i].Inside? || run[k].processes[i].Answered? ==>
              exists request :: IsValid(request) && run[k].arrivals[i] == MessageOf(request)
  {
    hide IsRun, Orderly;
    InvariantThroughout(env, run, k);
    assert Minds(run[k].arrivals[i], run[k].processes[i]);
  }

  lemma ArrivalsStep(env: Env, s: System, s': System)
    requires Step(env, s, s')
    ensures s.arrivals <= s'.arrivals && |s.processes| <= |s'.processes|
  {
    hide MicroStep, Validate;
  }

  /** Messages stay what they were. */
  lemma {:induction false} ArrivalsStay(env: Env, run: seq<System>, k: nat, l: nat)
    requires IsRun(env, run) && k <= l < |run|
    ensures run[k].arrivals <= run[l].arrivals && |run[k].processes| <= |run[l].processes|
    decreases l
  {
    hide Step, Initial;
    if k < l {
      ArrivalsStay(env, run, k, l - 1);
      ArrivalsStep(env, run[l - 1], run[l]);
    }
  }

  /** What a handler has done so far is a first part of what its request does in the end. */
  lemma {:induction false} PartialLog(env: Env, start: World, request: Request, phase: Phase, w: World)
    requires WellFormed(phase) && Reached(env, start, request, phase, w)
    ensures w.trace <= Run(env, start, request).w.trace
    decreases PhaseRank(phase), PairsLeft(phase), PartRank(phase), StepsLeft(phase)
  {
    hide Reached, MicroStep, Run, PhaseRank, PairsLeft, PartRank, StepsLeft;
    ReachedIsWellFormed(env, start, request, phase, w);
    if !phase.Ended? {
      MicroStepSimulates(env, start, request, phase, w);
      MicroStepDescends(env, w, phase);
      MicroStepIsOneCall(env, w, phase);
      var p := MicroStep(env, w, phase);
      PartialLog(env, start, request, p.phase, p.w);
    }
  }

  /** However the handlers interleave, the log of all changes is a concatenation of whole logs of
      single requests, each run on its own from the state in which it got the lock, followed by a first
      part of the log of the request that holds the lock. Every request is valid. */
  lemma EveryRunIsSerial(env: Env, run: seq<System>, k: nat) returns (partial: seq<Event>)
    requires IsRun(env, run) && k < |run|
    ensures var s, start := run[k], Start(run[0]);
            && Serial(env, start, s.history)
            && s.global == Logs(s.history) + partial
            && (!s.locked ==> partial == [] && Start(s) == Settled(start, s.history))
            && (s.locked ==>
                  exists i :: 0 <= i < |s.processes| && s.processes[i].Inside?
                    && IsValid(s.processes[i].request)
                    && partial <= Run(env, Settled(start, s.history), s.processes[i].request).w.trace)
  {
    hide Serial, Run, Reached, Logs, Settled, Sane, IsValid;
    InvariantThroughout(env, run, k);
    var s, start := run[k], Start(run[0]);
    if s.locked {
      var i: nat :| Holds(env, start, s, i) && Alone(s, i);
      var p := s.processes[i];
      partial := p.log;
      assert p in s.processes;
      SaneKept(p, p);
      ReachedIsWellFormed(env, p.entry, p.request, p.phase, World(s.state, s.calls, p.log));
      PartialLog(env, p.entry, p.request, p.phase, World(s.state, s.calls, p.log));
    } else {
      partial := [];
    }
  }

  /** The lock is held exactly while a handler is inside, and never by two of them. */
  lemma MutualExclusion(env: Env, run: seq<System>, k: nat, i: nat, j: nat)
    requires IsRun(env, run) && k < |run| && i < |run[k].processes| && j < |run[k].processes|
    ensures run[k].processes[i].Inside? && run[k].processes[j].Inside? ==> i == j
    ensures run[k].locked <==> exists h :: 0 <= h < |run[k].processes| && run[k].processes[h].Inside?
  {
    hide Step, Serial, Free, Reached, Settled, Sane, Logs;
    InvariantThroughout(env, run, k);
  }

  /** A request, or a change by others. */
  datatype Input = Ask(request: Request) | Set(state: State)

  /** The state after inputs that are taken one after the other. */
  function Serially(env: Env, start: World, inputs: seq<Input>): World {
    if inputs == [] then World(start.state, start.calls, [])
    else
      var before := Serially(env, start, inputs[..|inputs| - 1]);
      match inputs[|inputs| - 1]
      case Ask(request) =>
        var after := Run(env, before, request).w;
        World(after.state, after.calls, [])
      case Set(now) => before.(state := now)
  }

  function InputOf(turn: Turn): Input {
    match turn
    case Served(_, request, _, _, _) => Ask(request)
    case Changed(now) => Set(now)
  }

  function Inputs(history: seq<Turn>): (inputs: seq<Input>)
    ensures |inputs| == |history|
    ensures forall i :: 0 <= i < |history| ==> inputs[i] == InputOf(history[i])
  {
    seq(|history|, i requires 0 <= i < |history| => InputOf(history[i]))
  }

  lemma {:induction false} SerialIsSequential(env: Env, start: World, history: seq<Turn>)
    requires Serial(env, start, history)
    ensures Settled(start, history) == Serially(env, start, Inputs(history))
  {
    if history != [] {
      hide Run;
      var k := |history| - 1;
      SerialPrefix(env, start, history, k);
      SerialIsSequential(env, start, history[..k]);
      assert Inputs(history)[..k] == Inputs(history[..k]);
    }
  }

  lemma SerialPrefix(env: Env, start: World, history: seq<Turn>, k: nat)
    requires Serial(env, start, history) && k <= |history|
    ensures Serial(env, start, history[..k])
  {
    hide Run, Settled;
    forall i | 0 <= i < k ensures history[..k][..i] == history[..i] {
    }
  }

  /** Whenever the lock is free, cluster and pool are as if the requests that have been answered and the
      changes by others had taken place one at a time, the requests in the order in which they got the
      lock. */
  lemma StateIsSequential(env: Env, run: seq<System>, k: nat)
    requires IsRun(env, run) && k < |run| && !run[k].locked
    ensures Start(run[k]) == Serially(env, Start(run[0]), Inputs(run[k].history))
  {
    hide Serial, Run, Settled, Serially, IsRun;
    var partial := EveryRunIsSerial(env, run, k);
    SerialIsSequential(env, Start(run[0]), run[k].history);
  }

  /** The guarantees of a single request hold for each section of a concurrent run: every change in it
      is justified by the state in which the section began. */
  lemma SectionsAreAccountable(env: Env, run: seq<System>, k: nat, i: nat)
    requires Permutes(env) && IsRun(env, run) && k < |run| && i < |run[k].history| && run[k].history[i].Served?
    ensures var section := run[k].history[i];
            Accountable(env.lib, section.entry.state, section.exit.state, section.exit.trace)
  {
    hide Run, Accountable, IsRun;
    var partial := EveryRunIsSerial(env, run, k);
    var section := run[k].history[i];
    SettledIsQuiet(Start(run[0]), run[k].history[..i]);
    RequestAccountable(env, section.entry.state, section.entry.calls, section.request);
  }

  lemma {:induction false} SettledIsQuiet(start: World, history: seq<Turn>)
    ensures Settled(start, history).trace == []
  {
    if history != [] {
      SettledIsQuiet(start, history[..|history| - 1]);
    }
  }

  // ---- Progress, and what a panic does to it ----

  /** A handler panicked inside the locked section. */
  ghost predicate Wedged(s: System) {
    s.locked && exists i :: 0 <= i < |s.processes| && s.processes[i].Inside? && s.processes[i].phase == Ended(Crash)
  }

  /** Whoever holds the lock can take its next step, unless it panicked. */
  lemma HolderCanMove(env: Env, run: seq<System>, k: nat, i: nat)
    requires IsRun(env, run) && k < |run| && i < |run[k].processes| && run[k].processes[i].Inside?
    ensures (exists s' :: Works(env, run[k], s', i) || Unlocks(run[k], s', i)) <==> run[k].processes[i].phase != Ended(Crash)
  {
    hide Serial, Reached, Settled, Logs, Sane, MicroStep, Step;
    InvariantThroughout(env, run, k);
    var s, p := run[k], run[k].processes[i];
    var h :| Holds(env, Start(run[0]), s, h) && Alone(s, h);
    ReachedIsWellFormed(env, p.entry, p.request, p.phase, World(s.state, s.calls, p.log));
    if !p.phase.Ended? {
      var next := MicroStep(env, World(s.state, s.calls, p.log), p.phase);
      var s' := s.(state := next.w.state, calls := next.w.calls,
                   processes := s.processes[i := p.(phase := next.phase, log := next.w.trace)],
                   global := s.global + Added(p.log, next.w.trace));
      assert Works(env, s, s', i);
    } else if !p.phase.outcome.Crash? {
      var s' := s.(locked := false,
                   processes := s.processes[i := Answered(p.request, p.phase.outcome)],
                   history := s.history +
                     [Served(i, p.request, p.entry, World(s.state, s.calls, p.log), p.phase.outcome)]);
      assert Unlocks(s, s', i);
    }
  }

  lemma WedgedStep(env: Env, start: World, s: System, s': System)
    requires Orderly(env, start, s) && Wedged(s) && Step(env, s, s')
    ensures Wedged(s') && s'.state == s.state && s'.history == s.history && s'.global == s.global
  {
    hide Serial, Reached, Settled, Logs, Sane, MicroStep, Validate;
    var i :| 0 <= i < |s.processes| && s.processes[i].Inside? && s.processes[i].phase == Ended(Crash);
    var h :| Holds(env, start, s, h) && Alone(s, h);
    assert h == i;
    if !Arrives(s, s') && !Changes(s, s') {
      var j: nat :| Decides(s, s', j) || Locks(s, s', j) || Works(env, s, s', j) || Unlocks(s, s', j);
      assert Decides(s, s', j);
    }
    assert s'.processes[i] == s.processes[i];
  }

  /** A panic under the lock is final: no request is carried out after it. */
  lemma {:induction false} PanicWedgesServer(env: Env, run: seq<System>, k: nat, l: nat)
    requires IsRun(env, run) && k <= l < |run| && Wedged(run[k])
    ensures Wedged(run[l]) && run[l].state == run[k].state
    ensures run[l].history == run[k].history && run[l].global == run[k].global
    decreases l
  {
    hide Orderly, Step, Wedged, Initial;
    if k < l {
      PanicWedgesServer(env, run, k, l - 1);
      InvariantThroughout(env, run, l - 1);
      WedgedStep(env, Start(run[0]), run[l - 1], run[l]);
    }
  }

  // ---- When the server is wedged ----

  lemma HolderRuns(env: Env, run: seq<System>, k: nat) returns (entry: World, request: Request)
    requires IsRun(env, run) && k < |run| && Wedged(run[k])
    ensures entry == Settled(Start(run[0]), run[k].history) && Serial(env, Start(run[0]), run[k].history)
    ensures IsValid(request) && Run(env, entry, request).r == Crash
  {
    hide Step, Serial, Reached, Settled, Logs, Sane, Run;
    InvariantThroughout(env, run, k);
    var s := run[k];
    var h: nat :| Holds(env, Start(run[0]), s, h) && Alone(s, h);
    var p := s.processes[h];
    assert p in s.processes;
    SaneKept(p, p);
    ReachedIsWellFormed(env, p.entry, p.request, p.phase, World(s.state, s.calls, p.log));
    entry, request := p.entry, p.request;
  }

  /** A wedged server has come to a state on which a valid request crashes. */
  lemma WedgedMeansCrash(env: Env, run: seq<System>, k: nat) returns (request: Request)
    requires IsRun(env, run) && k < |run| && Wedged(run[k])
    ensures IsValid(request) && CrashesOn(env.lib, Settled(Start(run[0]), run[k].history).state, request)
  {
    hide IsRun, Run, Settled, Wedged, CrashesOn, Serial;
    var entry;
    entry, request := HolderRuns(env, run, k);
    SettledIsQuiet(Start(run[0]), run[k].history);
    CrashMeans(env, entry.state, entry.calls, request);
  }

  lemma {:induction false} SettledIsHealthy(env: Env, start: World, history: seq<Turn>)
    requires Permutes(env) && Serial(env, start, history) && Healthy(start.state)
    requires forall turn :: turn in history && turn.Changed? ==> Healthy(turn.state)
    ensures Healthy(Settled(start, history).state)
  {
    if history != [] {
      hide Run, Healthy;
      var k := |history| - 1;
      SerialPrefix(env, start, history, k);
      SettledIsHealthy(env, start, history[..k]);
      SettledIsQuiet(start, history[..k]);
      var last := history[k];
      assert last in history;
      if last.Served? {
        RunKeepsHealthy(env, last.entry.state, last.entry.calls, last.request);
      }
    }
  }

  /** If the cluster is healthy at the start, and others keep it so, the server is never wedged, however
      the handlers interleave and whatever calls fail. */
  lemma HealthyNeverWedged(env: Env, run: seq<System>, k: nat)
    requires Permutes(env) && env.lib.RoundsUp() && IsRun(env, run) && k < |run| && Healthy(run[0].state)
    requires forall turn :: turn in run[k].history && turn.Changed? ==> Healthy(turn.state)
    ensures !Wedged(run[k])
  {
    hide IsRun, Run, Settled, Wedged, Serial, Healthy;
    if Wedged(run[k]) {
      var entry, request := HolderRuns(env, run, k);
      SettledIsHealthy(env, Start(run[0]), run[k].history);
      SettledIsQuiet(Start(run[0]), run[k].history);
      HealthyNeverCrashes(env, entry.state, entry.calls, request);
    }
  }

  // ---- How it comes to that ----

  /** The only process works until its request has ended. */
  lemma {:induction false} WorkToEnd(env: Env, s: System) returns (tail: seq<System>)
    requires s.locked && |s.processes| == 1 && s.processes[0].Inside? && WellFormed(s.processes[0].phase)
    ensures |tail| > 0 && tail[0] == s && forall i :: 0 < i < |tail| ==> Step(env, tail[i - 1], tail[i])
    ensures var last := tail[|tail| - 1];
            && last.locked && last.history == s.history && |last.processes| == 1
            && last.processes[0].Inside? && last.processes[0].phase.Ended?
            && last.processes[0].request == s.processes[0].request
    decreases PhaseRank(s.processes[0].phase), PairsLeft(s.processes[0].phase),
              PartRank(s.processes[0].phase), StepsLeft(s.processes[0].phase)
  {
    hide MicroStep, PhaseRank, PairsLeft, PartRank, StepsLeft;
    var p := s.processes[0];
    tail := [s];
    if !p.phase.Ended? {
      var next := MicroStep(env, World(s.state, s.calls, p.log), p.phase);
      MicroStepDescends(env, World(s.state, s.calls, p.log), p.phase);
      var s' := s.(state := next.w.state, calls := next.w.calls,
                   processes := s.processes[0 := p.(phase := next.phase, log := next.w.trace)],
                   global := s.global + Added(p.log, next.w.trace));
      assert Works(env, s, s', 0);
      var rest := WorkToEnd(env, s');
      tail := [s] + rest;
      forall i | 0 < i < |tail| ensures Step(env, tail[i - 1], tail[i]) {
        assert i > 1 ==> tail[i - 1] == rest[i - 2] && tail[i] == rest[i - 1];
      }
    }
  }

  /** Every valid request that panics on its own can wedge the server. */
  lemma CrashWedgesServer(env: Env, state: State, calls: nat, request: Request) returns (run: seq<System>)
    requires IsValid(request) && Run(env, World(state, calls, []), request).r == Crash
    ensures IsRun(env, run) && run[0].state == state && Wedged(run[|run| - 1])
  {
    hide Run, MicroStep, ListReached, JudgeReached;
    var message := MessageOf(request);
    ValidationAdmitsExactly(message, request);
    var w := World(state, calls, []);
    var s0 := System([], state, calls, false, [], [], []);
    var s1 := s0.(arrivals := [message], processes := [Arrived(message)]);
    var s2 := s1.(processes := [Waiting(request)]);
    var s3 := s1.(locked := true, processes := [Inside(request, w, Begin(request), [])]);
    assert Arrives(s0, s1) by {
      assert s0.processes + [Arrived(message)] == [Arrived(message)] && s0.arrivals + [message] == [message];
    }
    assert Decides(s1, s2, 0) && Locks(s2, s3, 0);
    var tail := WorkToEnd(env, s3);
    run := [s0, s1, s2] + tail;
    forall i | 0 < i < |run| ensures Step(env, run[i - 1], run[i]) {
      assert i > 3 ==> run[i - 1] == tail[i - 4] && run[i] == tail[i - 3];
    }
    EndsInCrash(env, run, w, request);
  }

  lemma EndsInCrash(env: Env, run: seq<System>, w: World, request: Request)
    requires IsRun(env, run) && w == Start(run[0]) && Run(env, w, request).r == Crash
    requires var last := run[|run| - 1];
             && last.locked && last.history == [] && |last.processes| == 1
             && last.processes[0].Inside? && last.processes[0].phase.Ended? && last.processes[0].request == request
    ensures Wedged(run[|run| - 1])
  {
    hide Run, MicroStep, Step, Serial, Reached, Sane;
    InvariantThroughout(env, run, |run| - 1);
    var last := run[|run| - 1];
    var p := last.processes[0];
    ReachedIsWellFormed(env, p.entry, p.request, p.phase, World(last.state, last.calls, p.log));
  }
}
