/** No operation gets stuck, and no session is wedged: from every reachable state it can be stopped and removed. */
module LifecycleProgress {
  import opened Wrappers
  import opened PropertyValues
  import opened SessionStream
  import opened GraphRewrite
  import opened Sessions
  import opened Ports
  import opened RuntimeSections
  import opened Lifecycle
  import opened LifecycleInvariant
  import opened LifecycleRuns
  import opened LifecycleSteps

  function ClientOf(action: Action): Option<ClientId> {
    if action.Create? then None else Some(action.c)
  }

  function Rank(at: Point): nat {
    match at
    case Entering => 7
    case Found(_) => 6
    case Allocating(_, _, _) => 5
    case AtHalt(_) => 5
    case Unwinding(_, _) => 4
    case AtLaunch(_) => 4
    case Draining(_, _) => 4
    case Erasing(_) => 3
    case Failing => 2
  }

  function ListsLeft(at: Point): nat {
    match at
    case Allocating(_, todo, _) => |todo|
    case Unwinding(_, left) => |left|
    case Draining(_, left) => |left|
    case _ => 0
  }

  /**
   How far an operation is from its end: calls left, place in the call, list elements left,
   compared in that order.
   */
  predicate Nearer(a: Client, b: Client)
    requires a.Lifecycle? && b.Lifecycle?
  {
    || |a.calls| < |b.calls|
    || (|a.calls| == |b.calls| && Rank(a.at) < Rank(b.at))
    || (|a.calls| == |b.calls| && Rank(a.at) == Rank(b.at) && ListsLeft(a.at) < ListsLeft(b.at))
  }

  /** The operation is nearer to its end, and is still the same operation. */
  predicate Advanced(s: State, s': State, c: ClientId)
    requires c in s.clients && s.clients[c].Lifecycle?
  {
    && c in s'.clients && s'.clients[c].Lifecycle? && Nearer(s'.clients[c], s.clients[c])
    && s'.clients[c].op == s.clients[c].op && s'.clients[c].session == s.clients[c].session
  }

  lemma EnterPrepareAdvances(s: State, c: ClientId, environmentReady: bool)
    requires InCall(s, c) && s.clients[c].at.Found? && s.clients[c].at.ref in s.heap
    ensures Advanced(s, DoEnterPrepare(s, c, environmentReady), c)
  {
  }

  lemma EnterHaltAdvances(s: State, c: ClientId)
    requires InCall(s, c) && s.clients[c].at.Found? && s.clients[c].at.ref in s.heap
    ensures Advanced(s, DoEnterHalt(s, c), c)
  {
  }

  lemma EnterAdvances(s: State, c: ClientId, environmentReady: bool)
    requires Enabled(s, Enter(c, environmentReady))
    ensures Advanced(s, DoEnter(s, c, environmentReady), c)
  {
    if s.clients[c].calls[0].Prepare? || s.clients[c].calls[0].Launch? {
      EnterPrepareAdvances(s, c, environmentReady);
    } else {
      EnterHaltAdvances(s, c);
    }
  }

  lemma PrepareAdvances(s: State, action: Action, c: ClientId)
    requires Enabled(s, action) && ClientOf(action) == Some(c)
    requires action.Allocate? || action.AllocateFails? || action.Build? || action.BuildFails? || action.Unwind?
    ensures Advanced(s, Apply(s, action), c)
  {
    hide ContractHolds, DerivedStreams, IsLoadedGraph;
  }

  lemma SchedulerCallAdvances(s: State, action: Action, c: ClientId)
    requires Enabled(s, action) && ClientOf(action) == Some(c) && (action.LaunchScheduler? || action.HaltScheduler?)
    ensures Advanced(s, Apply(s, action), c)
  {
  }

  lemma TeardownAdvances(s: State, action: Action, c: ClientId)
    requires Enabled(s, action) && ClientOf(action) == Some(c) && (action.Drain? || action.Erase?)
    ensures Advanced(s, Apply(s, action), c)
  {
  }

  predicate Ends(action: Action) {
    action.Commit? || action.RecordFailure?
  }

  /** Each of its own sections ends an operation or brings it nearer to its end, whatever happens in it. */
  lemma OwnSectionAdvances(s: State, action: Action, c: ClientId)
    requires Enabled(s, action) && ClientOf(action) == Some(c) && c in s.clients && s.clients[c].Lifecycle?
    ensures if Ends(action) then c !in Apply(s, action).clients else Advanced(s, Apply(s, action), c)
  {
    hide ContractHolds, DerivedStreams, IsLoadedGraph;
    match action
    case Lookup(_) =>
    case Enter(_, environmentReady) => EnterAdvances(s, c, environmentReady);
    case Allocate(_, _) => PrepareAdvances(s, action, c);
    case AllocateFails(_) => PrepareAdvances(s, action, c);
    case Build(_, _) => PrepareAdvances(s, action, c);
    case BuildFails(_) => PrepareAdvances(s, action, c);
    case Unwind(_) => PrepareAdvances(s, action, c);
    case LaunchScheduler(_, _) => SchedulerCallAdvances(s, action, c);
    case HaltScheduler(_, _) => SchedulerCallAdvances(s, action, c);
    case Drain(_) => TeardownAdvances(s, action, c);
    case Erase(_) => TeardownAdvances(s, action, c);
    case Commit(_, _) =>
    case RecordFailure(_, _, _) =>
  }

  /** The operation stands exactly where it stood. */
  predicate Unmoved(s: State, s': State, c: ClientId)
    requires c in s.clients
  {
    c in s'.clients && s'.clients[c] == s.clients[c]
  }

  lemma EnterMovesNobodyElse(s: State, d: ClientId, environmentReady: bool, c: ClientId)
    requires Enabled(s, Enter(d, environmentReady)) && d != c && c in s.clients
    ensures Unmoved(s, DoEnter(s, d, environmentReady), c)
  {
  }

  lemma PrepareMovesNobodyElse(s: State, action: Action, c: ClientId)
    requires Enabled(s, action) && ClientOf(action) != Some(c) && c in s.clients
    requires action.Allocate? || action.AllocateFails? || action.Build? || action.BuildFails? || action.Unwind?
    ensures Unmoved(s, Apply(s, action), c)
  {
  }

  lemma TeardownMovesNobodyElse(s: State, action: Action, c: ClientId)
    requires Enabled(s, action) && ClientOf(action) != Some(c) && c in s.clients
    requires action.LaunchScheduler? || action.HaltScheduler? || action.Drain?
    ensures Unmoved(s, Apply(s, action), c)
  {
  }

  /** No section of another operation moves it, takes it back or removes it. */
  lemma OthersDoNotMove(s: State, action: Action, c: ClientId)
    requires Enabled(s, action) && ClientOf(action) != Some(c) && c in s.clients
    ensures Unmoved(s, Apply(s, action), c)
  {
    if action.Enter? {
      EnterMovesNobodyElse(s, action.c, action.environmentReady, c);
    } else if action.LaunchScheduler? || action.HaltScheduler? || action.Drain? {
      TeardownMovesNobodyElse(s, action, c);
    } else if IsCallAction(action) {
      PrepareMovesNobodyElse(s, action, c);
    }
  }

  lemma OwnMutexIsFree(s: State, c: ClientId)
    requires Inv(s) && c in s.clients && s.clients[c].Lifecycle? && s.clients[c].at.Found?
    ensures s.clients[c].at.ref in s.heap && MutexFree(s, s.clients[c].at.ref)
  {
    Here(s, c);
    var ref := s.clients[c].at.ref;
    forall d | d in s.clients ensures !Holds(s.clients[d], ref) {
      if Holds(s.clients[d], ref) {
        Here(s, d);
        Alone(s, c, d);
      }
    }
  }

  /** The section an operation runs next when nothing goes wrong. */
  function NextSection(s: State, c: ClientId, now: int): Action
    requires c in s.clients && s.clients[c].Lifecycle?
  {
    match s.clients[c].at
    case Entering => if s.clients[c].calls == [] then Commit(c, now) else Lookup(c)
    case Found(_) => Enter(c, true)
    case Allocating(_, todo, _) => if todo == [] then BuildFails(c) else AllocateFails(c)
    case Unwinding(_, _) => Unwind(c)
    case AtLaunch(_) => LaunchScheduler(c, true)
    case AtHalt(_) => HaltScheduler(c, true)
    case Draining(_, _) => Drain(c)
    case Erasing(_) => Erase(c)
    case Failing => RecordFailure(c, now, "")
  }

  lemma NextSectionEnabled(s: State, c: ClientId, now: int)
    requires Inv(s) && c in s.clients && s.clients[c].Lifecycle?
    ensures Enabled(s, NextSection(s, c, now))
  {
    Here(s, c);
    if s.clients[c].at.Found? {
      OwnMutexIsFree(s, c);
    }
  }

  /**
   Every operation in flight in a reachable state has a section it can run at once: no deadlock,
   whatever others do.
   */
  lemma NeverStuck(s: State, c: ClientId)
    requires Reachable(s) && c in s.clients && s.clients[c].Lifecycle?
    ensures exists action :: Enabled(s, action) && ClientOf(action) == Some(c)
  {
    ReachableInv(s);
    NextSectionEnabled(s, c, 0);
    assert ClientOf(NextSection(s, c, 0)) == Some(c);
  }

  // --------------------------------------------------------------- teardown

  predicate TearsDown(op: Op) {
    op == Stop || op == Remove
  }

  predicate OnItsWay(s: State, c: ClientId) {
    c in s.clients && s.clients[c].Lifecycle? && TearsDown(s.clients[c].op) && !s.clients[c].at.Failing?
  }

  /** An operation that tears down fails in one way only: a running scheduler refuses to stop. */
  lemma TeardownFailsOnlyByScheduler(s: State, action: Action, c: ClientId)
    requires Inv(s) && Enabled(s, action) && ClientOf(action) == Some(c)
    requires OnItsWay(s, c)
    ensures action == HaltScheduler(c, false) || Ends(action) || OnItsWay(Apply(s, action), c)
    ensures action == HaltScheduler(c, false) && !OnItsWay(Apply(s, action), c) ==>
      s.clients[c].at.AtHalt? && s.heap[s.clients[c].at.ref].execution.value.running
  {
    hide Inv, ContractHolds, DerivedStreams, IsLoadedGraph, BindsStreams;
    Here(s, c);
  }

  /** Nothing of this session is left in the runtime: no execution, no bindings, no operation in flight. */
  ghost predicate OwnsNothing(s: State, id: string) {
    && (forall ref :: ref in s.heap && s.heap[ref].sessionId == id ==>
          s.heap[ref].execution.None? && s.heap[ref].bindings == [])
    && !InFlight(s, id)
  }

  /** What a completed stop or remove leaves behind. */
  ghost predicate TornDown(s: State, id: string, op: Op) {
    && OwnsNothing(s, id)
    && (op == Stop ==>
          id in s.sessions && s.sessions[id].state == Stopped && id in s.phases && s.phases[id] == PhaseIdle)
    && (op == Remove ==> id !in s.sessions && id !in s.phases && id !in s.table)
  }

  /** The operation is over, and a stop has kept the graph. */
  predicate SameGraphLeft(session: Session, op: Op, s': State, c: ClientId) {
    && c !in s'.clients
    && (op == Stop ==> session.id in s'.sessions && s'.sessions[session.id].grc == session.grc)
  }

  /** When stop or remove commits, the session is torn down. */
  lemma CommitTearsDown(s: State, c: ClientId, now: int)
    requires Inv(s) && Enabled(s, Commit(c, now)) && TearsDown(s.clients[c].op)
    ensures TornDown(Apply(s, Commit(c, now)), s.clients[c].session.id, s.clients[c].op)
    ensures SameGraphLeft(s.clients[c].session, s.clients[c].op, Apply(s, Commit(c, now)), c)
  {
    Here(s, c);
    var id, s' := s.clients[c].session.id, Apply(s, Commit(c, now));
    assert SessionInv(s, id);
    forall d | d in s'.clients ensures !OnId(s'.clients[d], id) {
      Alone(s, c, d);
    }
  }

  /** One section of a teardown that meets no failing scheduler. */
  lemma TeardownStep(s: State, action: Action, c: ClientId)
    requires Inv(s) && Enabled(s, action) && ClientOf(action) == Some(c)
    requires OnItsWay(s, c) && action != HaltScheduler(c, false) && !action.Commit?
    ensures Inv(Apply(s, action)) && OnItsWay(Apply(s, action), c) && Advanced(s, Apply(s, action), c)
  {
    ActionKeeps(s, action);
    OwnSectionAdvances(s, action, c);
    TeardownFailsOnlyByScheduler(s, action, c);
  }

  // ------------------------------------------------------------- every run

  lemma NearerOn(a: Client, b: Client, c: Client)
    requires a.Lifecycle? && b.Lifecycle? && c.Lifecycle? && Nearer(a, b) && Nearer(b, c)
    ensures Nearer(a, c)
  {
  }

  /** The client has a section of its own in the run. */
  predicate Acts(actions: seq<Action>, c: ClientId) {
    exists i :: 0 <= i < |actions| && ClientOf(actions[i]) == Some(c)
  }

  /** The operation is under way as before: nearer to its end if it had a section of its own, else where it stood. */
  ghost predicate CameNearer(s: State, s': State, c: ClientId, actions: seq<Action>)
    requires OnItsWay(s, c)
  {
    OnItsWay(s', c) && if Acts(actions, c) then Advanced(s, s', c) else s'.clients[c] == s.clients[c]
  }

  /** The session was torn down at some point of the run. */
  ghost predicate TornDownWithin(s: State, actions: seq<Action>, id: string, op: Op)
    requires IsRun(s, actions)
    decreases |actions|
  {
    TornDown(s, id, op) || (actions != [] && TornDownWithin(Apply(s, actions[0]), actions[1..], id, op))
  }

  lemma ActsFirst(actions: seq<Action>, c: ClientId)
    requires actions != []
    ensures Acts(actions, c) <==> ClientOf(actions[0]) == Some(c) || Acts(actions[1..], c)
  {
    if Acts(actions[1..], c) {
      var i :| 0 <= i < |actions[1..]| && ClientOf(actions[1..][i]) == Some(c);
      assert ClientOf(actions[i + 1]) == Some(c);
    }
    if Acts(actions, c) && ClientOf(actions[0]) != Some(c) {
      var i :| 0 <= i < |actions| && ClientOf(actions[i]) == Some(c);
      assert ClientOf(actions[1..][i - 1]) == Some(c);
    }
  }

  /** One section of anybody: the operation comes nearer by its own and stays put by others'. */
  lemma TeardownKeepsOn(s: State, action: Action, c: ClientId)
    requires Inv(s) && Enabled(s, action) && OnItsWay(s, c) && action != HaltScheduler(c, false)
    requires !(action.Commit? && action.c == c)
    ensures Inv(Apply(s, action)) && OnItsWay(Apply(s, action), c)
    ensures if ClientOf(action) == Some(c) then Advanced(s, Apply(s, action), c)
            else Apply(s, action).clients[c] == s.clients[c]
  {
    if ClientOf(action) == Some(c) {
      TeardownStep(s, action, c);
    } else {
      ActionKeeps(s, action);
      OthersDoNotMove(s, action, c);
    }
  }

  /** The way on after one section adds up. */
  lemma CameNearerOn(s: State, action: Action, s1: State, s': State, c: ClientId, actions: seq<Action>)
    requires OnItsWay(s, c) && OnItsWay(s1, c) && actions != [] && actions[0] == action
    requires if ClientOf(action) == Some(c) then Advanced(s, s1, c) else s1.clients[c] == s.clients[c]
    requires CameNearer(s1, s', c, actions[1..])
    ensures CameNearer(s, s', c, actions)
  {
    ActsFirst(actions, c);
    if ClientOf(action) == Some(c) && Acts(actions[1..], c) {
      NearerOn(s'.clients[c], s1.clients[c], s.clients[c]);
    }
  }

  /**
   On every run, whatever others do in it, a teardown that meets no failing
   scheduler either has torn its session down at some point, or is still on its
   way and nearer to its end by each of its own sections. Since it is never
   stuck, it can only fail to finish by not being scheduled.
   */
  lemma {:induction false} TeardownOnEveryRun(s: State, c: ClientId, actions: seq<Action>)
    requires Inv(s) && OnItsWay(s, c) && IsRun(s, actions) && HaltScheduler(c, false) !in actions
    ensures TornDownWithin(s, actions, s.clients[c].session.id, s.clients[c].op)
      || CameNearer(s, After(s, actions), c, actions)
    decreases |actions|
  {
    if actions != [] {
      var action, rest := actions[0], actions[1..];
      if action.Commit? && action.c == c {
        CommitTearsDown(s, c, action.now);
        assert TornDownWithin(Apply(s, action), rest, s.clients[c].session.id, s.clients[c].op);
      } else {
        TeardownKeepsOn(s, action, c);
        var s1 := Apply(s, action);
        TeardownOnEveryRun(s1, c, rest);
        if CameNearer(s1, After(s1, rest), c, rest) {
          CameNearerOn(s, action, s1, After(s1, rest), c, actions);
        }
      }
    }
  }

  // ------------------------------------------------- what a teardown gives back

  /** The bindings the runtime holds for a session. */
  function BoundTo(s: State, id: string): seq<StreamBinding> {
    if id in s.table && s.table[id] in s.heap then s.heap[s.table[id]].bindings else []
  }

  /** What a teardown under way still has to give back. */
  function ToGiveBack(s: State, c: ClientId): seq<StreamBinding>
    requires c in s.clients && s.clients[c].Lifecycle?
  {
    match s.clients[c].at
    case Draining(_, left) => left
    case _ => BoundTo(s, s.clients[c].session.id)
  }

  /** The ports that stay allocated when everything left to give back is given back. */
  function PortsKept(s: State, c: ClientId): set<nat>
    requires c in s.clients && s.clients[c].Lifecycle?
  {
    s.ports - PortSet(ToGiveBack(s, c))
  }

  lemma DrainFrees(s: State, c: ClientId)
    requires InCall(s, c) && s.clients[c].at.Draining? && Current(s, s.clients[c].session.id, s.clients[c].at.ref)
    requires s.heap[s.clients[c].at.ref].bindings == []
    ensures DoDrain(s, c).leaked == s.leaked && PortsKept(DoDrain(s, c), c) == PortsKept(s, c)
  {
    hide PortSet;
    if s.clients[c].at.left != [] {
      PortSetHead(s.clients[c].at.left);
    }
  }

  lemma LookupFrees(s: State, c: ClientId)
    requires InCall(s, c) && s.clients[c].at.Entering? && HaltsOrDestroys(s.clients[c].calls)
    ensures DoLookup(s, c).leaked == s.leaked && PortsKept(DoLookup(s, c), c) == PortsKept(s, c)
  {
    hide PortSet;
  }

  lemma EnterFrees(s: State, c: ClientId)
    requires InCall(s, c) && s.clients[c].at.Found? && Current(s, s.clients[c].session.id, s.clients[c].at.ref)
    ensures DoEnterHalt(s, c).leaked == s.leaked && PortsKept(DoEnterHalt(s, c), c) == PortsKept(s, c)
  {
    hide PortSet;
  }

  lemma HaltFrees(s: State, c: ClientId)
    requires InCall(s, c) && s.clients[c].at.AtHalt? && Current(s, s.clients[c].session.id, s.clients[c].at.ref)
    requires s.heap[s.clients[c].at.ref].execution.Some?
    ensures DoHalt(s, c, true).leaked == s.leaked && PortsKept(DoHalt(s, c, true), c) == PortsKept(s, c)
  {
    hide PortSet;
  }

  /** Erasing the entry of an object that holds nothing. */
  lemma EraseFrees(s: State, c: ClientId)
    requires InCall(s, c) && s.clients[c].at.Erasing? && Current(s, s.clients[c].session.id, s.clients[c].at.ref)
    requires s.heap[s.clients[c].at.ref].bindings == []
    ensures DoErase(s, c).leaked == s.leaked && PortsKept(DoErase(s, c), c) == PortsKept(s, c)
  {
    hide PortSet;
  }

  /** Where a teardown can stand. */
  ghost predicate AtTeardown(s: State, client: Client)
    requires client.Lifecycle?
  {
    var id := client.session.id;
    && (client.calls == [] || HaltsOrDestroys(client.calls))
    && match client.at
       case Entering => true
       case Found(ref) => Current(s, id, ref)
       case AtHalt(ref) => Current(s, id, ref)
       case Draining(ref, _) => Current(s, id, ref) && s.heap[ref].bindings == []
       case Erasing(ref) => Current(s, id, ref) && s.heap[ref].bindings == []
       case _ => false
  }

  lemma TeardownStands(s: State, c: ClientId)
    requires Inv(s) && OnItsWay(s, c)
    ensures AtTeardown(s, s.clients[c])
  {
    hide Inv, IsLoadedGraph, ContractHolds, BindsStreams;
    Here(s, c);
  }

  /** Each section of a teardown that meets no failing scheduler frees the ports it stops holding, and no others. */
  lemma TeardownStepFrees(s: State, action: Action, c: ClientId)
    requires Inv(s) && Enabled(s, action) && ClientOf(action) == Some(c)
    requires OnItsWay(s, c) && OnItsWay(Apply(s, action), c) && action != HaltScheduler(c, false)
    ensures Apply(s, action).leaked == s.leaked
    ensures PortsKept(Apply(s, action), c) == PortsKept(s, c)
  {
    hide Inv, PortsKept, IsLoadedGraph, MutexFree;
    TeardownStands(s, c);
    match action
    case Lookup(_) => LookupFrees(s, c);
    case Enter(_, _) => EnterFrees(s, c);
    case HaltScheduler(_, _) => HaltFrees(s, c);
    case Drain(_) => DrainFrees(s, c);
    case Erase(_) => EraseFrees(s, c);
    case _ =>
  }

  /** When it commits, nothing is left to give back. */
  lemma CommitHasFreedAll(s: State, c: ClientId, now: int)
    requires Inv(s) && Enabled(s, Commit(c, now)) && TearsDown(s.clients[c].op)
    ensures ToGiveBack(s, c) == []
    ensures var s' := Apply(s, Commit(c, now)); s'.ports == PortsKept(s, c) && s'.leaked == s.leaked
  {
    Here(s, c);
    assert PortSet([]) == {};
  }

  // ------------------------------------------------------------ no wedging

  /** A run of one operation's own sections, in which no scheduler refuses to stop. */
  ghost predicate RunsAlone(s: State, s': State, c: ClientId) {
    exists actions :: (
      && IsRun(s, actions) && After(s, actions) == s'
      && forall action :: action in actions ==> ClientOf(action) == Some(c) && action != HaltScheduler(c, false))
  }

  lemma StandsAlone(s: State, c: ClientId)
    ensures RunsAlone(s, s, c)
  {
    assert IsRun(s, []) && After(s, []) == s;
  }

  lemma StepsAlone(s: State, action: Action, s': State, c: ClientId)
    requires Enabled(s, action) && ClientOf(action) == Some(c) && action != HaltScheduler(c, false)
    requires RunsAlone(Apply(s, action), s', c)
    ensures RunsAlone(s, s', c)
  {
    var rest :| IsRun(Apply(s, action), rest) && After(Apply(s, action), rest) == s'
      && forall a :: a in rest ==> ClientOf(a) == Some(c) && a != HaltScheduler(c, false);
    var actions := [action] + rest;
    assert actions[0] == action && actions[1..] == rest;
    assert IsRun(s, actions) && After(s, actions) == s';
  }

  lemma {:induction false} TeardownRun(s: State, c: ClientId, now: int) returns (s': State)
    requires Inv(s) && OnItsWay(s, c)
    ensures RunsAlone(s, s', c) && TornDown(s', s.clients[c].session.id, s.clients[c].op)
    ensures s'.ports == PortsKept(s, c) && s'.leaked == s.leaked
    ensures SameGraphLeft(s.clients[c].session, s.clients[c].op, s', c)
    decreases |s.clients[c].calls|, Rank(s.clients[c].at), ListsLeft(s.clients[c].at)
  {
    hide Inv, TornDown, RunsAlone, PortSet, Enabled, Apply, PortsKept, SameGraphLeft;
    var action := NextSection(s, c, now);
    NextSectionEnabled(s, c, now);
    var s1 := Apply(s, action);
    if action.Commit? {
      CommitTearsDown(s, c, now);
      CommitHasFreedAll(s, c, now);
      s' := s1;
      StandsAlone(s', c);
    } else {
      TeardownStep(s, action, c);
      TeardownStepFrees(s, action, c);
      s' := TeardownRun(s1, c, now);
    }
    StepsAlone(s, action, s', c);
  }

  /** Stop and remove are never refused for a session nothing is in flight on. */
  lemma TeardownIsGranted(s: State, id: string)
    requires Inv(s) && id in s.sessions && !InFlight(s, id)
    ensures Judge(s.sessions, s.phases, Remove, id) == Granted
    ensures Judge(s.sessions, s.phases, Stop, id) == Granted
      || (Judge(s.sessions, s.phases, Stop, id) == AlreadyStopped && TornDown(s, id, Stop))
  {
    assert SessionInv(s, id);
    if id in s.table {
      assert ResourceFree(s, id);
    }
  }

  lemma NothingBound(s: State, id: string)
    requires Inv(s) && TornDown(s, id, Stop)
    ensures s.sessions[id].id == id && BoundTo(s, id) == [] && PortSet(BoundTo(s, id)) == {}
  {
    assert SessionInv(s, id);
  }

  /** A claim that is granted, and the teardown run it begins. */
  lemma GrantedTeardownRun(s: State, c: ClientId, id: string, op: Op, now: int) returns (s': State)
    requires Inv(s) && id in s.sessions && c !in s.clients && TearsDown(op)
    requires Judge(s.sessions, s.phases, op, id) == Granted
    ensures RunsAlone(s, s', c) && TornDown(s', id, op)
    ensures s'.ports == s.ports - PortSet(BoundTo(s, id)) && s'.leaked == s.leaked
    ensures SameGraphLeft(s.sessions[id], op, s', c)
  {
    var claim := Claim(c, op, id);
    var s1 := Apply(s, claim);
    ActionKeeps(s, claim);
    assert s.sessions[id].id == id by {
      assert SessionInv(s, id);
    }
    hide Inv, TornDown, PortSet, SameGraphLeft;
    s' := TeardownRun(s1, c, now);
    StepsAlone(s, claim, s', c);
  }

  /**
   No wedging. From any reachable state in which nothing is in flight on a
   session, after failed starts and failed stops too, stop and remove complete
   by their own sections, while everybody else stands still, as soon as the
   scheduler lets itself be stopped. Exactly the ports of the session are free then.
   */
  lemma NoWedging(s: State, c: ClientId, id: string, op: Op, now: int)
    requires Reachable(s) && id in s.sessions && !InFlight(s, id) && c !in s.clients && TearsDown(op)
    ensures exists s' ::
      && RunsAlone(s, s', c) && TornDown(s', id, op) && SameGraphLeft(s.sessions[id], op, s', c)
      && s'.ports == s.ports - PortSet(BoundTo(s, id)) && s'.leaked == s.leaked
  {
    ReachableInv(s);
    TeardownIsGranted(s, id);
    if Judge(s.sessions, s.phases, op, id) == AlreadyStopped {
      NothingBound(s, id);
      StandsAlone(s, c);
    } else {
      var s' := GrantedTeardownRun(s, c, id, op, now);
    }
  }
}
