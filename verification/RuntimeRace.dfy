/**
 Why the service claims a session: the same runtime sections, run by two
 operations of which neither was refused, strand a loaded graph.
 */
module RuntimeRace {
  import opened Wrappers
  import opened PropertyValues
  import opened SessionStream
  import opened GraphRewrite
  import opened Sessions
  import opened Ports
  import opened RuntimeSections
  import opened RuntimeCalls
  import opened Lifecycle
  import opened LifecycleInvariant
  import opened LifecycleRuns
  import opened LifecycleSteps
  import opened LifecycleSafety
  import opened RuntimeRuns

  /** A claim that asks nobody: the phases of the service are neither read nor written. */
  function Barge(s: State, c: ClientId, op: Op, id: string): State
    requires id in s.sessions
  {
    s.(clients := s.clients[c := Lifecycle(op, s.sessions[id], CallsOf(op, s.sessions[id]), Entering)])
  }

  /** A removal and a start of one session, both in the runtime. */
  ghost predicate Racing(s: State, a: ClientId, b: ClientId, session: Session, atA: Point, callsB: seq<Call>,
                         atB: Point) {
    && a != b && a in s.clients && b in s.clients
    && s.clients[a] == Lifecycle(Op.Remove, session, [Destroy], atA)
    && s.clients[b] == Lifecycle(Op.Start, session, callsB, atB)
  }

  /** The resource the session's entry leads to, with nobody inside its mutex. */
  ghost predicate Leads(s: State, id: string, ref: Ref) {
    && Current(s, id, ref) && MutexFree(s, ref)
    && forall other :: other in s.table && s.table[other] == ref ==> other == id
  }

  /** Both have barged in and neither has looked the resource up. */
  ghost predicate AtTheDoor(s: State, a: ClientId, b: ClientId, session: Session) {
    && Racing(s, a, b, session, Entering, [Prepare, Launch], Entering)
    && (session.id in s.table ==> Leads(s, session.id, s.table[session.id]) && Vacant(s.heap[s.table[session.id]]))
    && (forall r :: r in s.heap ==> r < s.nextRef)
    && (forall id :: id in s.table ==> s.table[id] in s.heap)
    && MutexFree(s, s.nextRef)
  }

  lemma StartFinds(s: State, a: ClientId, b: ClientId, session: Session) returns (s': State, ref: Ref)
    requires AtTheDoor(s, a, b, session)
    ensures Racing(s', a, b, session, Entering, [Prepare, Launch], Found(ref))
    ensures Leads(s', session.id, ref) && Vacant(s'.heap[ref])
    ensures Runs(s, s') && s'.ports == s.ports
  {
    s' := DoLookup(s, b);
    ref := s'.table[session.id];
    RunsStep(s, Lookup(b));
  }

  lemma RemovalFinds(s: State, a: ClientId, b: ClientId, session: Session, ref: Ref) returns (s': State)
    requires Racing(s, a, b, session, Entering, [Prepare, Launch], Found(ref))
    requires Leads(s, session.id, ref) && Vacant(s.heap[ref])
    ensures Racing(s', a, b, session, Found(ref), [Prepare, Launch], Found(ref))
    ensures Leads(s', session.id, ref) && Vacant(s'.heap[ref])
    ensures Runs(s, s') && s'.ports == s.ports
  {
    s' := DoLookup(s, a);
    RunsStep(s, Lookup(a));
  }

  lemma RemovalEmpties(s: State, a: ClientId, b: ClientId, session: Session, ref: Ref) returns (s': State)
    requires Racing(s, a, b, session, Found(ref), [Prepare, Launch], Found(ref))
    requires Leads(s, session.id, ref) && Vacant(s.heap[ref])
    ensures Racing(s', a, b, session, Erasing(ref), [Prepare, Launch], Found(ref))
    ensures Leads(s', session.id, ref) && Vacant(s'.heap[ref])
    ensures Runs(s, s') && s'.ports == s.ports
  {
    var s1 := DoEnterHalt(s, a);
    assert Enabled(s, Enter(a, true)) && s1 == Apply(s, Enter(a, true));
    s' := DoDrain(s1, a);
    assert Enabled(s1, Drain(a)) && s' == Apply(s1, Drain(a));
    RunsStep(s, Enter(a, true));
    RunsStep(s1, Drain(a));
    RunsOn(s, s1, s');
  }

  lemma StartFills(s: State, a: ClientId, b: ClientId, session: Session, ref: Ref, got: seq<StreamBinding>,
                   graph: GraphText)
    returns (s': State)
    requires Racing(s, a, b, session, Erasing(ref), [Prepare, Launch], Found(ref))
    requires Leads(s, session.id, ref) && Vacant(s.heap[ref])
    requires ContractHolds(DocumentStreams(session.grc)) && IsLoadedGraph(session.grc, got, graph)
    requires TakesInTurn(DerivedStreams(session), s.ports, got) && |got| == |DerivedStreams(session)|
    ensures Racing(s', a, b, session, Erasing(ref), [Launch], Entering)
    ensures Leads(s', session.id, ref) && s'.heap[ref].execution.Some? && s'.heap[ref].bindings == got
    ensures Runs(s, s')
  {
    hide ContractHolds, DerivedStreams, IsLoadedGraph, TakesInTurn, Runs;
    var cleared := Cleared(SectionAt(s, ref));
    assert PortSet([]) == {} && cleared.ports == s.ports;
    var s1 := TakeRuns(s, b, ref, got);
    assert DerivedStreams(session)[|got|..] == [];
    LoadRuns(s, s1, b, ref, cleared, got, graph);
    var after := cleared.(r := Installed(cleared.r, graph, got), ports := cleared.ports + PortSet(got));
    s' := AfterPrepare(s, b, ref, after, Returned);
    assert [Prepare, Launch][1..] == [Launch];
    RunsOn(s, s1, s');
  }

  /**
   A loaded graph with these bindings to which no entry leads: stop and remove will never find it,
   nor free its ports.
   */
  ghost predicate Stranded(s: State, bindings: seq<StreamBinding>) {
    exists ref :: (
      && ref in s.heap && ref !in s.table.Values
      && s.heap[ref].execution.Some? && s.heap[ref].bindings == bindings)
  }

  lemma NothingIsStranded(s: State, bindings: seq<StreamBinding>)
    requires Reachable(s)
    ensures !Stranded(s, bindings)
  {
    NoOrphanedResources(s);
  }

  lemma RemovalErases(s: State, a: ClientId, b: ClientId, session: Session, ref: Ref) returns (s': State)
    requires Racing(s, a, b, session, Erasing(ref), [Launch], Entering)
    requires Leads(s, session.id, ref) && s.heap[ref].execution.Some?
    ensures Stranded(s', s.heap[ref].bindings) && Runs(s, s')
  {
    s' := DoErase(s, a);
    assert Enabled(s, Erase(a)) && s' == Apply(s, Erase(a));
    RunsStep(s, Erase(a));
    assert ref in s'.heap && ref !in s'.table.Values && s'.heap[ref].execution.Some?;
  }

  lemma RaceStrands(s: State, a: ClientId, b: ClientId, session: Session, got: seq<StreamBinding>, graph: GraphText)
    returns (s': State)
    requires AtTheDoor(s, a, b, session)
    requires ContractHolds(DocumentStreams(session.grc)) && IsLoadedGraph(session.grc, got, graph)
    requires TakesInTurn(DerivedStreams(session), s.ports, got) && |got| == |DerivedStreams(session)|
    ensures Runs(s, s') && Stranded(s', got)
  {
    hide ContractHolds, DerivedStreams, IsLoadedGraph, TakesInTurn, Runs, Stranded, Racing, Vacant;
    var s1, ref := StartFinds(s, a, b, session);
    var s2 := RemovalFinds(s1, a, b, session, ref);
    var s3 := RemovalEmpties(s2, a, b, session, ref);
    var s4 := StartFills(s3, a, b, session, ref, got, graph);
    s' := RemovalErases(s4, a, b, session, ref);
    RunsOn(s, s1, s2);
    RunsOn(s, s2, s3);
    RunsOn(s, s3, s4);
    RunsOn(s, s4, s');
  }

  lemma IdleSessionLeads(s: State, id: string)
    requires Inv(s) && id in s.sessions && id in s.phases && s.phases[id] == PhaseIdle
    ensures s.sessions[id].id == id && s.sessions[id].state == Stopped
    ensures id in s.table ==> Leads(s, id, s.table[id]) && Vacant(s.heap[s.table[id]])
  {
    NothingInFlight(s, id);
    if id in s.table {
      var ref := s.table[id];
      forall c | c in s.clients ensures !Holds(s.clients[c], ref) {
        if Holds(s.clients[c], ref) {
          Here(s, c);
        }
      }
      forall other | other in s.table && s.table[other] == ref ensures other == id {
        assert SessionInv(s, other);
      }
    }
  }

  /**
   From every reachable state, two operations that barge in on an idle session
   can strand its loaded graph, with all its ports: any graph that loads, and
   any ports that were free. No reachable state is like that, so the claim is
   what makes the two sections of destroy safe.
   */
  lemma ClaimIsNeeded(s: State, a: ClientId, b: ClientId, id: string, got: seq<StreamBinding>, graph: GraphText)
    requires Reachable(s) && id in s.sessions && id in s.phases && s.phases[id] == PhaseIdle
    requires a != b && a !in s.clients && b !in s.clients
    requires var session := s.sessions[id];
      && ContractHolds(DocumentStreams(session.grc)) && IsLoadedGraph(session.grc, got, graph)
      && TakesInTurn(DerivedStreams(session), s.ports, got) && |got| == |DerivedStreams(session)|
    ensures !Stranded(s, got)
    ensures var barged := Barge(Barge(s, a, Op.Remove, id), b, Op.Start, id);
      exists s' :: Runs(barged, s') && Stranded(s', got)
  {
    hide ContractHolds, DerivedStreams, IsLoadedGraph, TakesInTurn;
    NothingIsStranded(s, got);
    ReachableInv(s);
    IdleSessionLeads(s, id);
    forall c | c in s.clients && s.clients[c].Lifecycle? ensures !Holds(s.clients[c], s.nextRef) {
      Here(s, c);
    }
    forall other | other in s.table ensures s.table[other] in s.heap {
      assert SessionInv(s, other);
    }
    var session, barged := s.sessions[id], Barge(Barge(s, a, Op.Remove, id), b, Op.Start, id);
    assert AtTheDoor(barged, a, b, session);
    var s' := RaceStrands(barged, a, b, session, got, graph);
  }
}
