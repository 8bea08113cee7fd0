/** Who owns which port: ownership is a partition of the allocated ports in every reachable state. */
module LifecyclePorts {
  import opened Wrappers
  import opened PropertyValues
  import opened SessionStream
  import opened GraphRewrite
  import opened Sessions
  import opened Ports
  import opened RuntimeSections
  import opened Lifecycle
  import opened LifecycleInvariant
  import opened LifecycleSteps

  /** A place that holds ports: the bindings of a resource, or the local variables of an operation in flight. */
  datatype Holder = OfResource(ref: Ref) | OfClient(c: ClientId)

  function InHand(client: Client): seq<StreamBinding> {
    if client.Reader? then []
    else match client.at
         case Allocating(_, _, got) => got
         case Unwinding(_, left) => left
         case Draining(_, left) => left
         case _ => []
  }

  function Bindings(s: State, h: Holder): seq<StreamBinding> {
    match h
    case OfResource(ref) => if ref in s.heap then s.heap[ref].bindings else []
    case OfClient(c) => if c in s.clients then InHand(s.clients[c]) else []
  }

  predicate HoldsPort(s: State, h: Holder, port: nat) {
    port in PortsOf(Bindings(s, h))
  }

  /** The allocated ports are the disjoint union of what the holders hold and what has leaked. */
  ghost predicate Partition(s: State) {
    && (forall port :: port in s.ports <==> port in s.leaked || exists h :: HoldsPort(s, h, port))
    && (forall h, port :: HoldsPort(s, h, port) ==> port !in s.leaked)
    && (forall h1, h2, port :: HoldsPort(s, h1, port) && HoldsPort(s, h2, port) ==> h1 == h2)
    && (forall h :: NoRepeats(PortsOf(Bindings(s, h))))
  }

  // ------------------------------------------------- the five kinds of change

  lemma NothingMoves(s: State, s': State)
    requires Partition(s) && s'.ports == s.ports && s'.leaked == s.leaked
    requires forall h :: Bindings(s', h) == Bindings(s, h)
    ensures Partition(s')
  {
    forall h, port ensures HoldsPort(s', h, port) <==> HoldsPort(s, h, port) {
    }
    forall h ensures NoRepeats(PortsOf(Bindings(s', h))) {
      assert NoRepeats(PortsOf(Bindings(s, h)));
    }
  }

  lemma HolderTakes(s: State, s': State, h: Holder, binding: StreamBinding)
    requires Partition(s) && binding.internal.port !in s.ports
    requires s'.ports == s.ports + {binding.internal.port} && s'.leaked == s.leaked
    requires Bindings(s', h) == Bindings(s, h) + [binding]
    requires forall other :: other != h ==> Bindings(s', other) == Bindings(s, other)
    ensures Partition(s')
  {
    var port := binding.internal.port;
    assert PortsOf(Bindings(s', h)) == PortsOf(Bindings(s, h)) + [port];
    forall other, p ensures HoldsPort(s', other, p) <==> HoldsPort(s, other, p) || (other == h && p == port) {
    }
    assert HoldsPort(s', h, port);
    forall p | p in s.ports && p !in s.leaked ensures exists h :: HoldsPort(s', h, p) {
      var owner :| HoldsPort(s, owner, p);
      assert HoldsPort(s', owner, p);
    }
    forall other ensures NoRepeats(PortsOf(Bindings(s', other))) {
      assert NoRepeats(PortsOf(Bindings(s, other)));
      assert !HoldsPort(s, h, port);
    }
  }

  lemma InTail(ports: seq<nat>, port: nat)
    requires NoRepeats(ports) && ports != []
    ensures port in ports[1..] <==> port in ports && port != ports[0]
  {
    assert ports == [ports[0]] + ports[1..];
    assert forall i :: 0 <= i < |ports[1..]| ==> ports[1..][i] == ports[i + 1];
  }

  lemma HolderReleases(s: State, s': State, h: Holder)
    requires Partition(s) && Bindings(s, h) != []
    requires s'.ports == s.ports - {Bindings(s, h)[0].internal.port} && s'.leaked == s.leaked
    requires Bindings(s', h) == Bindings(s, h)[1..]
    requires forall other :: other != h ==> Bindings(s', other) == Bindings(s, other)
    ensures Partition(s')
  {
    var ports := PortsOf(Bindings(s, h));
    assert PortsOf(Bindings(s', h)) == ports[1..];
    assert NoRepeats(ports) && HoldsPort(s, h, ports[0]);
    forall other, p ensures HoldsPort(s', other, p) <==> HoldsPort(s, other, p) && p != ports[0] {
      if other == h {
        InTail(ports, p);
      } else {
        assert HoldsPort(s, other, p) ==> !HoldsPort(s, h, p);
      }
    }
    forall p | p in s'.ports && p !in s'.leaked ensures exists h :: HoldsPort(s', h, p) {
      var owner :| HoldsPort(s, owner, p);
      assert HoldsPort(s', owner, p);
    }
    forall other ensures NoRepeats(PortsOf(Bindings(s', other))) {
      assert NoRepeats(PortsOf(Bindings(s, other)));
    }
  }

  lemma HolderHandsOver(s: State, s': State, from: Holder, to: Holder)
    requires Partition(s) && from != to && Bindings(s, to) == []
    requires s'.ports == s.ports && s'.leaked == s.leaked
    requires Bindings(s', to) == Bindings(s, from) && Bindings(s', from) == []
    requires forall other :: other != from && other != to ==> Bindings(s', other) == Bindings(s, other)
    ensures Partition(s')
  {
    forall other, p ensures HoldsPort(s', other, p) <==>
      if other == to then HoldsPort(s, from, p) else other != from && HoldsPort(s, other, p)
    {
    }
    forall port | port in s'.ports && port !in s'.leaked ensures exists h :: HoldsPort(s', h, port) {
      var h :| HoldsPort(s, h, port);
      assert HoldsPort(s', if h == from then to else h, port);
    }
    forall other ensures NoRepeats(PortsOf(Bindings(s', other))) {
      assert NoRepeats(PortsOf(Bindings(s, other))) && NoRepeats(PortsOf(Bindings(s, from)));
    }
  }

  lemma HolderLeaks(s: State, s': State, h: Holder)
    requires Partition(s)
    requires s'.ports == s.ports && s'.leaked == s.leaked + PortSet(Bindings(s, h))
    requires Bindings(s', h) == []
    requires forall other :: other != h ==> Bindings(s', other) == Bindings(s, other)
    ensures Partition(s')
  {
    forall other, p ensures HoldsPort(s', other, p) <==> other != h && HoldsPort(s, other, p) {
    }
    forall p ensures p in s'.leaked <==> p in s.leaked || HoldsPort(s, h, p) {
    }
    forall other ensures NoRepeats(PortsOf(Bindings(s', other))) {
      assert NoRepeats(PortsOf(Bindings(s, other)));
    }
  }

  // ----------------------------------------------------------- every action

  /** A client that had nothing in hand moves on, and its resource keeps its bindings. */
  lemma EmptyHanded(s: State, s': State, c: ClientId, ref: Ref)
    requires Partition(s) && c in s.clients && c in s'.clients && ref in s.heap && ref in s'.heap
    requires InHand(s.clients[c]) == [] && InHand(s'.clients[c]) == [] && s'.clients == s.clients[c := s'.clients[c]]
    requires s'.heap[ref].bindings == s.heap[ref].bindings && s'.heap == s.heap[ref := s'.heap[ref]]
    requires s'.ports == s.ports && s'.leaked == s.leaked
    ensures Partition(s')
  {
    hide Partition;
    NothingMoves(s, s');
  }

  /** The next state differs in where the client stands and in its resource, which keeps its bindings. */
  ghost predicate HandsStayEmpty(s: State, s': State, c: ClientId, ref: Ref)
    requires c in s.clients && ref in s.heap
  {
    && c in s'.clients && InHand(s'.clients[c]) == [] && s'.clients == s.clients[c := s'.clients[c]]
    && s'.ports == s.ports && s'.leaked == s.leaked && ref in s'.heap
    && s'.heap[ref].bindings == s.heap[ref].bindings && s'.heap == s.heap[ref := s'.heap[ref]]
  }

  lemma EnterPreparePorts(s: State, c: ClientId, environmentReady: bool)
    requires InCall(s, c) && s.clients[c].at.Found? && s.clients[c].at.ref in s.heap
    requires s.heap[s.clients[c].at.ref].execution.None? ==> s.heap[s.clients[c].at.ref].bindings == []
    ensures HandsStayEmpty(s, DoEnterPrepare(s, c, environmentReady), c, s.clients[c].at.ref)
  {
    hide ContractHolds, DerivedStreams;
    var ref := s.clients[c].at.ref;
    var r, s' := s.heap[ref], DoEnterPrepare(s, c, environmentReady);
    assert s.heap == s.heap[ref := r];
    assert PortSet([]) == {};
    assert s'.ports == s.ports;
    if s'.heap != s.heap {
      assert s'.heap == s.heap[ref := s'.heap[ref]];
    }
  }

  lemma EnterPrepareKeepsPorts(s: State, c: ClientId, environmentReady: bool)
    requires Partition(s) && Enabled(s, Enter(c, environmentReady))
    requires s.heap[s.clients[c].at.ref].execution.None? ==> s.heap[s.clients[c].at.ref].bindings == []
    ensures Partition(DoEnterPrepare(s, c, environmentReady))
  {
    hide Partition, DoEnterPrepare;
    EnterPreparePorts(s, c, environmentReady);
    EmptyHanded(s, DoEnterPrepare(s, c, environmentReady), c, s.clients[c].at.ref);
  }

  lemma EnterHaltKeepsPorts(s: State, c: ClientId, environmentReady: bool)
    requires Partition(s) && Enabled(s, Enter(c, environmentReady))
    requires s.heap[s.clients[c].at.ref].execution.None? ==> s.heap[s.clients[c].at.ref].bindings == []
    ensures Partition(DoEnterHalt(s, c))
  {
    hide Partition;
    NothingMoves(s, DoEnterHalt(s, c));
  }

  lemma EnterKeepsPorts(s: State, c: ClientId, environmentReady: bool)
    requires Inv(s) && Partition(s) && Enabled(s, Enter(c, environmentReady))
    ensures Partition(DoEnter(s, c, environmentReady))
  {
    Here(s, c);
    EnterPrepareKeepsPorts(s, c, environmentReady);
    EnterHaltKeepsPorts(s, c, environmentReady);
  }

  /** The bindings in hand become those of the resource, which had none. */
  lemma BuildMovesBindings(s: State, c: ClientId, graph: GraphText)
    requires Inv(s) && Enabled(s, Build(c, graph))
    ensures var s', from, to := DoBuild(s, c, graph), OfClient(c), OfResource(s.clients[c].at.ref);
      && Bindings(s, to) == [] && Bindings(s', to) == Bindings(s, from) && Bindings(s', from) == []
      && s'.ports == s.ports && s'.leaked == s.leaked
      && forall other :: other != from && other != to ==> Bindings(s', other) == Bindings(s, other)
  {
    hide Inv, BindsStreams, IsLoadedGraph, DerivedStreams;
    Here(s, c);
  }

  lemma BuildKeepsPorts(s: State, c: ClientId, graph: GraphText)
    requires Inv(s) && Partition(s) && Enabled(s, Build(c, graph))
    ensures Partition(DoBuild(s, c, graph))
  {
    hide Partition;
    BuildMovesBindings(s, c, graph);
    HolderHandsOver(s, DoBuild(s, c, graph), OfClient(c), OfResource(s.clients[c].at.ref));
  }

  lemma HaltKeepsPorts(s: State, c: ClientId, ok: bool)
    requires Partition(s) && Enabled(s, HaltScheduler(c, ok))
    ensures Partition(DoHalt(s, c, ok))
  {
    var s', ref := DoHalt(s, c, ok), s.clients[c].at.ref;
    if s'.clients[c].at.Failing? {
      NothingMoves(s, s');
    } else {
      HolderHandsOver(s, s', OfResource(ref), OfClient(c));
    }
  }

  lemma DrainKeepsPorts(s: State, c: ClientId)
    requires Inv(s) && Partition(s) && Enabled(s, Drain(c))
    ensures Partition(DoDrain(s, c))
  {
    Here(s, c);
    if s.clients[c].at.left == [] {
      NothingMoves(s, DoDrain(s, c));
    } else {
      HolderReleases(s, DoDrain(s, c), OfClient(c));
    }
  }

  lemma UnwindKeepsPorts(s: State, c: ClientId)
    requires Partition(s) && Enabled(s, Unwind(c))
    ensures Partition(DoUnwind(s, c))
  {
    if s.clients[c].at.left == [] {
      NothingMoves(s, DoUnwind(s, c));
    } else {
      HolderReleases(s, DoUnwind(s, c), OfClient(c));
    }
  }

  lemma LookupMovesNothing(s: State, c: ClientId)
    requires PointersInv(s) && InCall(s, c) && s.clients[c].at.Entering?
    ensures forall h :: Bindings(DoLookup(s, c), h) == Bindings(s, h)
  {
    hide Partition;
    var s' := DoLookup(s, c);
    forall h ensures Bindings(s', h) == Bindings(s, h) {
      match h
      case OfResource(ref) =>
        assert ref in s.heap ==> ref in s'.heap && s'.heap[ref] == s.heap[ref];
      case OfClient(d) =>
        assert d != c ==> (d in s.clients <==> d in s'.clients);
    }
  }

  lemma LookupKeepsPorts(s: State, c: ClientId)
    requires PointersInv(s) && Partition(s) && Enabled(s, Lookup(c))
    ensures Partition(DoLookup(s, c))
  {
    hide Partition;
    LookupMovesNothing(s, c);
    NothingMoves(s, DoLookup(s, c));
  }

  lemma ServiceKeepsPorts(s: State, action: Action)
    requires Partition(s) && Enabled(s, action)
    requires action.Create? || action.Claim? || action.Commit? || action.RecordFailure?
    ensures Partition(Apply(s, action))
  {
    hide Partition;
    NothingMoves(s, Apply(s, action));
  }

  lemma LaunchKeepsPorts(s: State, c: ClientId, ok: bool)
    requires Partition(s) && Enabled(s, LaunchScheduler(c, ok))
    ensures Partition(DoLaunch(s, c, ok))
  {
    hide Partition, PortsOf;
    NothingMoves(s, DoLaunch(s, c, ok));
  }

  lemma CallKeepsPorts(s: State, action: Action)
    requires Partition(s) && Enabled(s, action)
    requires action.BuildFails? || action.LaunchScheduler? || action.Erase?
    ensures Partition(Apply(s, action))
  {
    hide Partition, PortsOf, DoLaunch;
    if action.LaunchScheduler? {
      LaunchKeepsPorts(s, action.c, action.ok);
    } else {
      NothingMoves(s, Apply(s, action));
    }
  }

  lemma ReaderKeepsPorts(s: State, action: Action)
    requires Partition(s) && Enabled(s, action)
    requires action.ReadClaim? || action.ReadLookup? || action.ReadSection?
    ensures Partition(Apply(s, action))
  {
    hide Partition;
    NothingMoves(s, Apply(s, action));
  }

  predicate MovesPorts(action: Action) {
    || action.Allocate? || action.AllocateFails? || action.Build?
    || action.Unwind? || action.HaltScheduler? || action.Drain?
  }

  lemma MovingActionKeepsPorts(s: State, action: Action)
    requires Inv(s) && Partition(s) && Enabled(s, action) && MovesPorts(action)
    ensures Partition(Apply(s, action))
  {
    match action
    case Allocate(c, port) =>
      HolderTakes(s, DoAllocate(s, c, port), OfClient(c), Bind(s.clients[c].at.todo[0], port));
    case AllocateFails(c) => HolderLeaks(s, DoAllocateFails(s, c), OfClient(c));
    case Build(c, graph) => BuildKeepsPorts(s, c, graph);
    case Unwind(c) => UnwindKeepsPorts(s, c);
    case HaltScheduler(c, ok) => HaltKeepsPorts(s, c, ok);
    case Drain(c) => DrainKeepsPorts(s, c);
  }

  lemma QuietActionKeepsPorts(s: State, action: Action)
    requires Inv(s) && Partition(s) && Enabled(s, action) && !MovesPorts(action)
    ensures Partition(Apply(s, action))
  {
    match action
    case Lookup(c) => LookupKeepsPorts(s, c);
    case Enter(c, environmentReady) => EnterKeepsPorts(s, c, environmentReady);
    case BuildFails(_) => CallKeepsPorts(s, action);
    case LaunchScheduler(_, _) => CallKeepsPorts(s, action);
    case Erase(_) => CallKeepsPorts(s, action);
    case ReadClaim(_, _) => ReaderKeepsPorts(s, action);
    case ReadLookup(_) => ReaderKeepsPorts(s, action);
    case ReadSection(_) => ReaderKeepsPorts(s, action);
    case _ => ServiceKeepsPorts(s, action);
  }

  lemma ActionKeepsPorts(s: State, action: Action)
    requires Inv(s) && Partition(s) && Enabled(s, action)
    ensures Partition(Apply(s, action))
  {
    if MovesPorts(action) {
      MovingActionKeepsPorts(s, action);
    } else {
      QuietActionKeepsPorts(s, action);
    }
  }

  lemma {:induction false} RunKeepsPorts(s: State, actions: seq<Action>)
    requires Inv(s) && Partition(s) && IsRun(s, actions)
    ensures Inv(After(s, actions)) && Partition(After(s, actions))
    decreases |actions|
  {
    if actions != [] {
      ActionKeeps(s, actions[0]);
      ActionKeepsPorts(s, actions[0]);
      RunKeepsPorts(Apply(s, actions[0]), actions[1..]);
    }
  }

  /** In every reachable state port ownership is a partition. */
  lemma ReachablePartition(s: State)
    requires Reachable(s)
    ensures Partition(s)
  {
    var actions :| IsRun(INITIAL, actions) && After(INITIAL, actions) == s;
    forall id ensures SessionInv(INITIAL, id) {
    }
    assert forall h :: Bindings(INITIAL, h) == [];
    RunKeepsPorts(INITIAL, actions);
  }

  // ------------------------------------------------------------------- leaks

  /** Nobody holds the port, so nobody will ever give it back. */
  ghost predicate Unowned(s: State, port: nat) {
    port in s.ports && forall h :: !HoldsPort(s, h, port)
  }

  /** The history variable says what it should: it holds exactly the allocated ports that nobody holds. */
  lemma LeakedIsUnowned(s: State, port: nat)
    requires Partition(s)
    ensures Unowned(s, port) <==> port in s.leaked
  {
    if port in s.leaked {
      forall h ensures !HoldsPort(s, h, port) {
      }
    }
  }

  lemma EnterPrepareLeaksNothing(s: State, c: ClientId, environmentReady: bool)
    requires InCall(s, c) && s.clients[c].at.Found? && s.clients[c].at.ref in s.heap
    ensures DoEnterPrepare(s, c, environmentReady).leaked == s.leaked
  {
    hide ContractHolds, DerivedStreams, PortSet, Launching;
  }

  lemma EnterLeaksNothing(s: State, c: ClientId, environmentReady: bool)
    requires Enabled(s, Enter(c, environmentReady))
    ensures DoEnter(s, c, environmentReady).leaked == s.leaked
  {
    hide DoEnterPrepare, MutexFree, Halting;
    EnterPrepareLeaksNothing(s, c, environmentReady);
  }

  lemma QuietActionsLeakNothing(s: State, action: Action)
    requires Enabled(s, action) && !MovesPorts(action)
    ensures Apply(s, action).leaked == s.leaked
  {
    hide DoEnter, IsLoadedGraph;
    if action.Enter? {
      EnterLeaksNothing(s, action.c, action.environmentReady);
    }
  }

  lemma LeakedGrows(s: State, action: Action)
    requires Enabled(s, action)
    ensures Apply(s, action).leaked ==
      if action.AllocateFails? then s.leaked + PortSet(s.clients[action.c].at.got) else s.leaked
  {
    if !MovesPorts(action) {
      QuietActionsLeakNothing(s, action);
    }
  }

  /**
   Ports lose their holder in one way only: an allocation fails after earlier
   ones of the same prepare succeeded, and then exactly those ports do.
   */
  lemma LeaksOnlyMidAllocation(s: State, action: Action, port: nat)
    requires Inv(s) && Partition(s) && Enabled(s, action)
    ensures Unowned(Apply(s, action), port)
      <==> Unowned(s, port) || (action.AllocateFails? && port in PortsOf(s.clients[action.c].at.got))
  {
    ActionKeepsPorts(s, action);
    LeakedGrows(s, action);
    LeakedIsUnowned(s, port);
    LeakedIsUnowned(Apply(s, action), port);
  }

  /** A port that nobody holds stays allocated and unheld for good, so it is never handed out again. */
  lemma {:induction false} LeakIsPermanent(s: State, actions: seq<Action>, port: nat)
    requires Inv(s) && Partition(s) && IsRun(s, actions) && Unowned(s, port)
    ensures Unowned(After(s, actions), port)
    decreases |actions|
  {
    if actions != [] {
      ActionKeeps(s, actions[0]);
      ActionKeepsPorts(s, actions[0]);
      LeaksOnlyMidAllocation(s, actions[0], port);
      LeakIsPermanent(Apply(s, actions[0]), actions[1..], port);
    }
  }
}
