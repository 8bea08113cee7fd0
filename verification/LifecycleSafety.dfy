/** What the lifecycle machine guarantees in every reachable state, for every interleaving. */
module LifecycleSafety {
  import opened Wrappers
  import opened PropertyValues
  import opened SessionStream
  import opened GraphRewrite
  import opened EndpointInjection
  import opened Sessions
  import opened Ports
  import opened RuntimeSections
  import opened Lifecycle
  import opened LifecycleInvariant
  import opened LifecycleSteps
  import opened LifecyclePorts

  // ------------------------------------------------- service against runtime

  /**
   The service and the runtime agree: a session in phase Running has a running
   execution of its own rewritten graph, with one binding for each of its
   streams; a session in phase Idle has neither execution nor bindings; one in
   phase Failed is not running in the runtime's eyes.
   */
  lemma LayersAgree(s: State, id: string)
    requires Reachable(s) && id in s.sessions
    ensures id in s.phases
    ensures s.phases[id] == PhaseRunning ==>
      && s.sessions[id].state == Running && id in s.table && s.table[id] in s.heap
      && var r := s.heap[s.table[id]];
         && r.phase == PhaseRunning && r.execution.Some? && r.execution.value.running
         && BindsStreams(DerivedStreams(s.sessions[id]), r.bindings)
         && IsLoadedGraph(s.sessions[id].grc, r.bindings, r.execution.value.graph)
    ensures s.phases[id] == PhaseIdle ==>
      && s.sessions[id].state == Stopped
      && (id in s.table ==>
            (s.table[id] in s.heap && s.heap[s.table[id]].execution.None? && s.heap[s.table[id]].bindings == []))
    ensures s.phases[id] == PhaseFailed ==>
      && s.sessions[id].state == Error
      && (id in s.table ==> s.table[id] in s.heap && s.heap[s.table[id]].phase != PhaseRunning)
  {
    ReachableInv(s);
    assert SessionInv(s, id);
    if s.phases[id] != PhaseStarting && s.phases[id] != PhaseStopping {
      NothingInFlight(s, id);
    }
  }

  /** A session is in a claimed phase exactly when one operation on it is between claim and commit, and never two. */
  lemma OneOperationPerSession(s: State, id: string)
    requires Reachable(s)
    ensures InFlight(s, id) <==> id in s.phases && (s.phases[id] == PhaseStarting || s.phases[id] == PhaseStopping)
    ensures forall c, d :: c in s.clients && d in s.clients && OnId(s.clients[c], id) && OnId(s.clients[d], id) ==>
      c == d
  {
    ReachableInv(s);
    assert SessionInv(s, id);
    if InFlight(s, id) {
      var c :| c in s.clients && OnId(s.clients[c], id);
      Here(s, c);
    }
  }

  /** Until it commits or records a failure, an operation finds the record it loaded, unchanged, in the repository. */
  lemma OperationFindsItsSession(s: State, c: ClientId)
    requires Reachable(s) && c in s.clients && s.clients[c].Lifecycle?
    ensures var session := s.clients[c].session;
      && session.id in s.sessions && s.sessions[session.id] == session
      && session.id in s.phases && s.phases[session.id] ==
           if s.clients[c].op == Op.Start || s.clients[c].op == Op.Restart then PhaseStarting else PhaseStopping
  {
    hide Inv, Reachable;
    ReachableInv(s);
    Here(s, c);
  }

  /** Every resource in the table belongs to a stored session, and one outside it holds nothing. */
  lemma NoOrphanedResources(s: State)
    requires Reachable(s)
    ensures s.table.Keys <= s.sessions.Keys
    ensures forall ref :: ref in s.heap && ref !in s.table.Values ==>
      s.heap[ref].execution.None? && s.heap[ref].bindings == []
  {
    ReachableInv(s);
    forall id | id in s.table ensures id in s.sessions {
      assert SessionInv(s, id);
    }
    forall ref | ref in s.heap && ref !in s.table.Values ensures Vacant(s.heap[ref]) {
      assert SessionInv(s, s.heap[ref].sessionId);
    }
  }

  /**
   Between the two sections of destroy nobody refills or replaces the resource: the entry erased
   is the one emptied.
   */
  lemma ErasedEntryIsEmpty(s: State, c: ClientId)
    requires Reachable(s) && c in s.clients && s.clients[c].Lifecycle? && s.clients[c].at.Erasing?
    ensures var id, ref := s.clients[c].session.id, s.clients[c].at.ref;
      && id in s.table && s.table[id] == ref && ref in s.heap
      && s.heap[ref].execution.None? && s.heap[ref].bindings == []
  {
    hide Inv, Reachable, Serves, BindsStreams, DerivedStreams;
    ReachableInv(s);
    Here(s, c);
  }

  /** While no section holds its mutex a resource is settled: never in phase Stopping, and consistent in every field. */
  lemma FreeResourcesAreSettled(s: State, ref: Ref)
    requires Reachable(s) && ref in s.heap && MutexFree(s, ref)
    ensures Settled(s.heap[ref])
  {
    ReachableInv(s);
    var id := s.heap[ref].sessionId;
    assert SessionInv(s, id);
    if Current(s, id, ref) {
      assert ResourceFree(s, id);
    }
  }

  /**
   The three phase guards of the runtime manager never fire, the release that
   opens prepare has nothing to release, and start never prepares by itself.
   */
  lemma GuardsNeverFire(s: State, c: ClientId, environmentReady: bool)
    requires Reachable(s) && Enabled(s, Enter(c, environmentReady))
    ensures var r := s.heap[s.clients[c].at.ref];
      && r.phase != PhaseStopping
      && (r.execution.None? ==> r.bindings == [])
      && (s.clients[c].calls[0] == Launch ==> r.execution.Some?)
  {
    hide Inv, Reachable;
    ReachableInv(s);
    Here(s, c);
    PendingTail(s.clients[c].op, s.clients[c].calls);
  }

  // ---------------------------------------------------------------- lookups

  /** What a reader may see: nothing, or the streams of the session now stored under the id it asked for. */
  lemma ReaderSees(s: State, c: ClientId)
    requires Reachable(s) && Enabled(s, ReadSection(c))
    ensures var id, r := s.clients[c].session.id, s.heap[s.clients[c].found.value];
      IsRunning(r) ==>
        && id in s.sessions && id in s.table && s.table[id] == s.clients[c].found.value
        && BindsStreams(DerivedStreams(s.sessions[id]), r.bindings)
  {
    ReachableInv(s);
    var id, ref := s.clients[c].session.id, s.clients[c].found.value;
    assert SessionInv(s, id);
    if Current(s, id, ref) {
      assert ResourceFree(s, id);
    }
  }

  lemma BoundPlans(streams: seq<StreamPlan>, bindings: seq<StreamBinding>)
    requires BindsStreams(streams, bindings) && forall i :: 0 <= i < |streams| ==> streams[i].ready
    ensures PlansIn(bindings) == streams
  {
    forall i | 0 <= i < |streams| ensures bindings[i].plan == streams[i] {
      assert bindings[i] == Bind(streams[i], bindings[i].internal.port);
    }
  }

  lemma DerivedStreamsProperties(session: Session)
    ensures var streams := DerivedStreams(session);
      && (forall i :: 0 <= i < |streams| ==> streams[i].ready && streams[i].streamId != "")
      && (forall i, j :: 0 <= i < j < |streams| ==> streams[i].streamId != streams[j].streamId)
      && (streams != [] ==> DerivedPlan(session.id, session.grc) == Some(streams))
  {
    if DerivedPlan(session.id, session.grc).Some? {
      PlanProperties(session.id, session.grc);
    }
  }

  /** The active plan is the derived plan: every plan a lookup returns is the one recomputed from the stored graph. */
  lemma ActivePlanIsDerivedPlan(s: State, c: ClientId)
    requires Reachable(s) && Enabled(s, ReadSection(c))
    ensures var id, plan := s.clients[c].session.id, ActivePlan(s.heap[s.clients[c].found.value]);
      plan.Some? ==> id in s.sessions && plan == DerivedPlan(id, s.sessions[id].grc)
  {
    ReaderSees(s, c);
    ReachableInv(s);
    var id, r := s.clients[c].session.id, s.heap[s.clients[c].found.value];
    assert SessionInv(s, id);
    if ActivePlan(r).Some? {
      DerivedStreamsProperties(s.sessions[id]);
      BoundPlans(DerivedStreams(s.sessions[id]), r.bindings);
    }
  }

  /** A session in phase Running shows exactly its derived plan. */
  lemma RunningSessionShowsItsPlan(s: State, id: string)
    requires Reachable(s) && id in s.sessions && id in s.phases && s.phases[id] == PhaseRunning
    ensures id in s.table && s.table[id] in s.heap
    ensures ActivePlan(s.heap[s.table[id]]) == DerivedPlan(id, s.sessions[id].grc)
  {
    LayersAgree(s, id);
    ReachableInv(s);
    assert SessionInv(s, id);
    DerivedStreamsProperties(s.sessions[id]);
    BoundPlans(DerivedStreams(s.sessions[id]), s.heap[s.table[id]].bindings);
    if DerivedPlan(id, s.sessions[id].grc).Some? {
      PlanProperties(id, s.sessions[id].grc);
    }
  }

  /**
   Routing is unambiguous: a lookup returns the binding of the one stream with
   that id, speaks the protocol asked for, and its port is allocated and held
   by this resource alone.
   */
  lemma RouteIsUnambiguous(s: State, c: ClientId, streamId: string, webSocket: bool)
    requires Reachable(s) && Enabled(s, ReadSection(c))
    ensures var ref := s.clients[c].found.value;
      var route := Route(s.heap[ref], streamId, webSocket);
      route.Some? ==>
        && ServesAt(route.value, webSocket)
        && route.value.port in s.ports && route.value.port !in s.leaked
        && (forall h :: HoldsPort(s, h, route.value.port) ==> h == OfResource(ref))
        && exists i :: 0 <= i < |s.heap[ref].bindings| && s.heap[ref].bindings[i].internal == route.value
             && forall j :: 0 <= j < |s.heap[ref].bindings| ==>
                  (s.heap[ref].bindings[j].plan.streamId == streamId <==> j == i)
  {
    ReaderSees(s, c);
    ReachablePartition(s);
    var id, ref := s.clients[c].session.id, s.clients[c].found.value;
    var bindings := s.heap[ref].bindings;
    if Route(s.heap[ref], streamId, webSocket).Some? {
      var streams := DerivedStreams(s.sessions[id]);
      DerivedStreamsProperties(s.sessions[id]);
      BoundPlans(streams, bindings);
      var i := FirstServingIs(bindings, streamId, webSocket);
      assert bindings[i] == Bind(streams[i], bindings[i].internal.port);
      BoundFields(streams[i], bindings[i].internal.port);
      assert PortsOf(bindings)[i] == bindings[i].internal.port;
      assert HoldsPort(s, OfResource(ref), bindings[i].internal.port);
      forall j | 0 <= j < |bindings| ensures bindings[j].plan.streamId == streamId <==> j == i {
        assert PlansIn(bindings)[j] == bindings[j].plan && PlansIn(bindings)[i] == bindings[i].plan;
      }
    }
  }

  /** The session asks for this stream, over this transport. */
  ghost predicate Asks(session: Session, streamId: string, webSocket: bool) {
    exists i :: (
      && 0 <= i < |DerivedStreams(session)| && DerivedStreams(session)[i].streamId == streamId
      && (DerivedStreams(session)[i].transport == "websocket" <==> webSocket))
  }

  lemma ServingBinding(session: Session, bindings: seq<StreamBinding>, streamId: string, webSocket: bool)
    requires BindsStreams(DerivedStreams(session), bindings)
    ensures var serving := FirstServing(bindings, streamId, webSocket);
      && (serving.Some? <==> Asks(session, streamId, webSocket))
      && (serving.Some? ==>
            && ServesAt(serving.value, webSocket)
            && serving.value.port in PortsOf(bindings))
  {
    var streams := DerivedStreams(session);
    forall i | 0 <= i < |streams|
      ensures bindings[i].plan.streamId == streams[i].streamId && bindings[i].plan.transport == streams[i].transport
    {
      assert bindings[i] == Bind(streams[i], bindings[i].internal.port);
    }
    var i := FirstServingIs(bindings, streamId, webSocket);
    if FirstServing(bindings, streamId, webSocket).Some? {
      assert bindings[i] == Bind(streams[i], bindings[i].internal.port);
      BoundFields(streams[i], bindings[i].internal.port);
      assert PortsOf(bindings)[i] == bindings[i].internal.port;
      assert Asks(session, streamId, webSocket);
    }
  }

  /** In a running session a stream is found exactly when the stored graph asks for it, on an allocated port. */
  lemma RunningSessionRoutes(s: State, id: string, streamId: string, webSocket: bool)
    requires Reachable(s) && id in s.sessions && id in s.phases && s.phases[id] == PhaseRunning
    ensures id in s.table && s.table[id] in s.heap
    ensures var route := Route(s.heap[s.table[id]], streamId, webSocket);
      && (route.Some? <==> Asks(s.sessions[id], streamId, webSocket))
      && (route.Some? ==>
            && ServesAt(route.value, webSocket)
            && route.value.port in s.ports && route.value.port !in s.leaked)
  {
    LayersAgree(s, id);
    ReachablePartition(s);
    var ref := s.table[id];
    ServingBinding(s.sessions[id], s.heap[ref].bindings, streamId, webSocket);
    var route := Route(s.heap[ref], streamId, webSocket);
    assert route.Some? ==> HoldsPort(s, OfResource(ref), route.value.port);
  }

  // ------------------------------------------------------------------- ports

  /**
   Every stored binding is served where its transport is, and the browser is
   told of the stream as it is planned.
   */
  lemma StoredBindingsAreAllocated(s: State, ref: Ref, i: nat)
    requires Reachable(s) && ref in s.heap && i < |s.heap[ref].bindings|
    ensures var binding := s.heap[ref].bindings[i];
      && binding.internal == BindingFor(binding.plan.transport, binding.internal.port)
      && ServesAt(binding.internal, binding.plan.transport == "websocket")
      && binding.browser.id == binding.plan.streamId && binding.browser.transport == binding.plan.transport
      && binding.browser.blockInstanceName == binding.plan.blockInstanceName
      && binding.browser.payloadFormat == binding.plan.payloadFormat
      && binding.browser.path == binding.plan.path && binding.browser.ready && binding.plan.ready
  {
    ReachableInv(s);
    var id, r := s.heap[ref].sessionId, s.heap[ref];
    assert SessionInv(s, id);
    assert Current(s, id, ref);
    assert Serves(r, s.sessions[id]) by {
      if !ResourceFree(s, id) {
        var c :| c in s.clients && OnId(s.clients[c], id) && Holds(s.clients[c], ref);
        Here(s, c);
      }
    }
    assert r.bindings[i] == Bind(DerivedStreams(s.sessions[id])[i], r.bindings[i].internal.port);
    BoundFields(DerivedStreams(s.sessions[id])[i], r.bindings[i].internal.port);
  }

  /** No two stored bindings, of the same session or of different ones, serve under the same endpoint. */
  lemma EndpointsDiffer(s: State, ref1: Ref, i: nat, ref2: Ref, j: nat)
    requires Reachable(s) && ref1 in s.heap && ref2 in s.heap && (ref1 != ref2 || i != j)
    requires i < |s.heap[ref1].bindings| && j < |s.heap[ref2].bindings|
    ensures s.heap[ref1].bindings[i].internal.endpoint != s.heap[ref2].bindings[j].internal.endpoint
  {
    ReachablePartition(s);
    StoredBindingsAreAllocated(s, ref1, i);
    StoredBindingsAreAllocated(s, ref2, j);
    var b1, b2 := s.heap[ref1].bindings[i], s.heap[ref2].bindings[j];
    assert PortsOf(s.heap[ref1].bindings)[i] == b1.internal.port;
    assert PortsOf(s.heap[ref2].bindings)[j] == b2.internal.port;
    assert HoldsPort(s, OfResource(ref1), b1.internal.port) && HoldsPort(s, OfResource(ref2), b2.internal.port);
    assert NoRepeats(PortsOf(Bindings(s, OfResource(ref1))));
    if b1.internal.endpoint == b2.internal.endpoint {
      EndpointNamesPort(b1.plan.transport, b1.internal.port, b2.plan.transport, b2.internal.port);
    }
  }

  /** What the bindings of a running session with streams are, as far as injection looks at them. */
  lemma RunningBindsPlan(s: State, id: string)
    requires Reachable(s) && id in s.sessions && id in s.phases && s.phases[id] == PhaseRunning
    requires HasBlocks(s.sessions[id].grc) && DerivedPlan(id, s.sessions[id].grc).Some?
    ensures id in s.table && s.table[id] in s.heap
    ensures BindsPlanOf(id, s.sessions[id].grc, s.heap[s.table[id]].bindings)
    ensures EndpointsDistinct(s.heap[s.table[id]].bindings)
  {
    LayersAgree(s, id);
    ReachableInv(s);
    assert SessionInv(s, id);
    var session, ref := s.sessions[id], s.table[id];
    var bindings := s.heap[ref].bindings;
    DerivedStreamsProperties(session);
    BoundPlans(DerivedStreams(session), bindings);
    PlanProperties(id, session.grc);
    forall k | 0 <= k < |bindings| ensures bindings[k].plan == DerivedPlan(id, session.grc).value[k] {
      assert PlansIn(bindings)[k] == bindings[k].plan;
    }
    forall j, k | 0 <= j < k < |bindings| ensures bindings[j].internal.endpoint != bindings[k].internal.endpoint {
      EndpointsDiffer(s, ref, j, ref, k);
    }
  }

  /**
   The loaded graph of a running session with streams: its planned names differ,
   endpoints follow the names that blocks bear, and every declaring block has its
   own endpoint exactly if the names of all of them are settled.
   */
  lemma RunningGraphServesItsBlocks(s: State, id: string)
    requires Reachable(s) && id in s.sessions && id in s.phases && s.phases[id] == PhaseRunning
    requires HasBlocks(s.sessions[id].grc) && DerivedPlan(id, s.sessions[id].grc).Some?
    ensures id in s.table && s.table[id] in s.heap && s.heap[s.table[id]].execution.Some?
    ensures var grc, r := s.sessions[id].grc, s.heap[s.table[id]];
      var loaded := Denotes(r.execution.value.graph, grc);
      && loaded.Some? && PlannedNamesDiffer(r.bindings) && PlannedNamesBorne(BlocksOf(grc), r.bindings)
      && LoadedByName(BlocksOf(grc), r.bindings, loaded.value)
      && (EndpointsUnused(BlocksOf(grc), r.bindings) ==>
            (OwnEndpoints(BlocksOf(grc), r.bindings, loaded.value) <==> DeclaredNamesSettled(BlocksOf(grc))))
  {
    hide Reachable, Inv, DerivedPlan, BindsPlan, LoadedByName, OwnEndpoints, DeclaredNamesSettled, EndpointsUnused;
    hide PlannedNamesDiffer, PlannedNamesBorne, EndpointsDistinct, RewrittenGraph;
    LayersAgree(s, id);
    RunningBindsPlan(s, id);
    var grc, r := s.sessions[id].grc, s.heap[s.table[id]];
    BoundStreamsDiffer(id, grc, r.bindings);
    GraphLoadsIff(grc.root.value, r.bindings);
    if EndpointsUnused(BlocksOf(grc), r.bindings) {
      OwnEndpointsIff(id, grc, r.bindings, Denotes(r.execution.value.graph, grc).value);
    }
  }
}
