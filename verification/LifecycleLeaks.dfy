/** When a port can be lost for good: exactly for sessions that ask for two streams or more. */
module LifecycleLeaks {
  import opened Wrappers
  import opened PropertyValues
  import opened SessionStream
  import opened GraphRewrite
  import opened Sessions
  import opened Ports
  import opened RuntimeSections
  import opened RuntimeCalls
  import opened Lifecycle
  import opened LifecycleInvariant
  import opened LifecycleSteps
  import opened LifecyclePorts
  import opened LifecycleRuns
  import opened LifecycleProgress
  import opened RuntimeRuns

  /** A failing allocation of this client, on this session with this graph, leaves the port to nobody. */
  ghost predicate LosesPort(s: State, c: ClientId, id: string, grc: Document, port: nat) {
    && Enabled(s, AllocateFails(c)) && s.clients[c].session.id == id && s.clients[c].session.grc == grc
    && !Unowned(s, port) && Unowned(Apply(s, AllocateFails(c)), port)
  }

  /** Some run from here leads to a prepare of this session, with this graph, that loses a port. */
  ghost predicate CanLosePort(s: State, id: string, grc: Document) {
    exists s', c, port :: Runs(s, s') && LosesPort(s', c, id, grc, port)
  }

  /** A session with at most one stream never loses a port: its allocation fails before it has taken any. */
  lemma OneStreamLosesNothing(s: State, c: ClientId, session: Session, port: nat)
    requires Reachable(s) && |DerivedStreams(session)| <= 1
    ensures !LosesPort(s, c, session.id, session.grc, port)
  {
    if LosesPort(s, c, session.id, session.grc, port) {
      ReachableInv(s);
      ReachablePartition(s);
      Here(s, c);
      LeaksOnlyMidAllocation(s, AllocateFails(c), port);
    }
  }

  lemma IdIsKey(s: State, id: string)
    requires Reachable(s) && id in s.sessions
    ensures s.sessions[id].id == id
  {
    ReachableInv(s);
    assert SessionInv(s, id);
  }

  lemma IdleEntryIsVacant(s: State, id: string)
    requires Inv(s) && id in s.sessions && id in s.phases && s.phases[id] == PhaseIdle
    ensures s.sessions[id].id == id && s.sessions[id].state == Stopped
    ensures Vacant(SectionOf(ViewOf(s), id).r)
  {
    NothingInFlight(s, id);
  }

  /** A start of an idle session, up to where it enters prepare. */
  lemma StartArrives(s: State, id: string, c: ClientId) returns (s': State, ref: Ref)
    requires Reachable(s) && id in s.sessions && id in s.phases && s.phases[id] == PhaseIdle && c !in s.clients
    ensures Runs(s, s') && AtDoor(s', c, ref) && Readies(s', c) && s'.clients[c].session == s.sessions[id]
    ensures Vacant(s'.heap[ref]) && s'.ports == s.ports
  {
    ReachableInv(s);
    IdleEntryIsVacant(s, id);
    RunsStep(s, Claim(c, Op.Start, id));
    var s1 := DoClaim(s, c, Op.Start, id);
    ClaimKeeps(s, c, Op.Start, id);
    s', ref := LookupRuns(s1, c);
    RunsOn(s, s1, s');
  }

  /** And on to where it has its first port and asks for the second. */
  lemma StartTakesOnePort(s: State, id: string, c: ClientId, port: nat) returns (s': State)
    requires Reachable(s) && id in s.sessions && id in s.phases && s.phases[id] == PhaseIdle
    requires c !in s.clients && port !in s.ports && |DerivedStreams(s.sessions[id])| >= 2
    ensures Runs(s, s') && InCall(s', c) && s'.clients[c].session == s.sessions[id]
    ensures var streams := DerivedStreams(s.sessions[id]);
      exists ref :: s'.clients[c].at == Allocating(ref, streams[1..], [Bind(streams[0], port)])
  {
    hide Reachable, Runs, Inv, Vacant;
    var streams := DerivedStreams(s.sessions[id]);
    var s1, ref := StartArrives(s, id, c);
    VacantHasNothing(s1.heap[ref]);
    var got := [Bind(streams[0], port)];
    assert got[..0] == [] && PortSet([]) == {};
    s' := TakeRuns(s1, c, ref, got);
    RunsOn(s, s1, s');
  }

  lemma VacantHasNothing(r: Resource)
    requires Vacant(r)
    ensures r.execution.None? && r.bindings == [] && r.phase != PhaseStopping
  {
  }

  lemma TwoStreamsCanLosePort(s: State, id: string, c: ClientId, port: nat)
    requires Reachable(s) && id in s.sessions && id in s.phases && s.phases[id] == PhaseIdle
    requires c !in s.clients && port !in s.ports && |DerivedStreams(s.sessions[id])| >= 2
    ensures CanLosePort(s, id, s.sessions[id].grc)
  {
    var s' := StartTakesOnePort(s, id, c, port);
    ReachesOn(s, s');
    ReachableInv(s');
    ReachablePartition(s');
    LeaksOnlyMidAllocation(s', AllocateFails(c), port);
    assert PortsOf(Bindings(s', OfClient(c)))[0] == port;
    assert HoldsPort(s', OfClient(c), port);
    IdIsKey(s, id);
    assert LosesPort(s', c, id, s.sessions[id].grc, port);
  }

  /** Once a session is stopped, whatever it went through before, it can be started and lose a port. */
  lemma StoppedFirst(s: State, id: string, c: ClientId, port: nat)
    requires Reachable(s) && id in s.sessions && !InFlight(s, id)
    requires c !in s.clients && port !in s.ports && |DerivedStreams(s.sessions[id])| >= 2
    ensures CanLosePort(s, id, s.sessions[id].grc)
  {
    hide Enabled, Inv, Apply, LosesPort;
    NoWedging(s, c, id, Op.Stop, 0);
    var grc := s.sessions[id].grc;
    var s1 :| RunsAlone(s, s1, c) && TornDown(s1, id, Op.Stop) && SameGraphLeft(s.sessions[id], Op.Stop, s1, c)
      && s1.ports == s.ports - PortSet(BoundTo(s, id)) && s1.leaked == s.leaked;
    assert Runs(s, s1);
    ReachesOn(s, s1);
    IdIsKey(s, id);
    IdIsKey(s1, id);
    TwoStreamsCanLosePort(s1, id, c, port);
    var s2, d, p :| Runs(s1, s2) && LosesPort(s2, d, id, grc, p);
    RunsOn(s, s1, s2);
  }

  /**
   From every reachable state, some run loses a port of a session nothing is in
   flight on exactly when its stored graph declares at least two streams, which
   the caller can read off the graph.
   */
  lemma LeakIffTwoStreams(s: State, id: string, c: ClientId, port: nat)
    requires Reachable(s) && id in s.sessions && !InFlight(s, id) && c !in s.clients && port !in s.ports
    ensures CanLosePort(s, id, s.sessions[id].grc) <==> |DerivedStreams(s.sessions[id])| >= 2
  {
    var session := s.sessions[id];
    IdIsKey(s, id);
    if |DerivedStreams(session)| >= 2 {
      StoppedFirst(s, id, c, port);
    } else if CanLosePort(s, id, session.grc) {
      var s', d, p :| Runs(s, s') && LosesPort(s', d, id, session.grc, p);
      ReachesOn(s, s');
      OneStreamLosesNothing(s', d, session, p);
    }
  }

  // --------------------------------------------------------------- a witness

  function StreamParameters(name: string): PropertyMap {
    map["name" := Value.Text(name), "transport" := Value.Text("websocket"), "payload_format" := Value.Text("float32")]
  }

  function StreamBlock(name: string): PropertyMap {
    map["block" := Value.Text("sink"), "parameters" := Map(StreamParameters(name))]
  }

  /** A graph with two websocket streams. */
  const TWO_STREAMS: Document :=
    Document("two streams", Some(map["blocks" := Tensor([Map(StreamBlock("a")), Map(StreamBlock("b"))])]))

  lemma StreamBlockDeclares(name: string)
    requires name != ""
    ensures NormalizedStreamBlock(StreamBlock(name))
      == Some(NormalizedBlock("sink", name, StreamIntent(true, None, Some("websocket"), Some("float32"))))
  {
    var block, parameters := StreamBlock(name), StreamParameters(name);
    assert MapAt(block, "raw_parameters") == map[];
    assert MergedParameters(block) == parameters;
    assert "stream" !in parameters && "stream_id" !in parameters;
  }

  lemma TwoBlocksDeclared(a: Value, b: Value)
    requires Declares(a) && Declares(b)
    ensures DeclaredBlocks([a, b]) == [DeclaredOf(a), DeclaredOf(b)]
  {
    hide Declares, NormalizedStreamBlock;
    assert [a, b][..1] == [a] && [a][..0] == [];
    assert DeclaredBlocks([a]) == [DeclaredOf(a)];
  }

  lemma TwoStreamsAreDerived(id: string)
    ensures DerivedPlan(id, TWO_STREAMS).Some? && |DerivedPlan(id, TWO_STREAMS).value| == 2
  {
    hide NormalizedStreamBlock, DeclaredBlocks;
    StreamBlockDeclares("a");
    StreamBlockDeclares("b");
    var a, b := Map(StreamBlock("a")), Map(StreamBlock("b"));
    TwoBlocksDeclared(a, b);
    assert BlockList(TWO_STREAMS.root.value) == Some([a, b]);
    assert StreamIdOf(DeclaredOf(a)) == "a" && StreamIdOf(DeclaredOf(b)) == "b";
    assert ContractHolds(DocumentStreams(TWO_STREAMS));
  }

  /** A fresh system with one session on that graph can come to a state in which an allocated port belongs to nobody. */
  lemma LostPortExample()
    ensures exists s, port :: Reachable(s) && Unowned(s, port)
  {
    var create := Action.Create("s", "demo", TWO_STREAMS, None, 0);
    RunsNowhere(INITIAL);
    RunsStep(INITIAL, create);
    var s0 := DoCreate(INITIAL, "s", "demo", TWO_STREAMS, None, 0);
    ReachesOn(INITIAL, s0);
    TwoStreamsAreDerived("s");
    TwoStreamsCanLosePort(s0, "s", 0, 40000);
    var s', c, p :| Runs(s0, s') && LosesPort(s', c, "s", TWO_STREAMS, p);
    ReachesOn(s0, s');
    RunsStep(s', AllocateFails(c));
    ReachesOn(s', Apply(s', AllocateFails(c)));
  }
}
