/**
 The second implementation of the runtime boundary
 (src/runtime/stub_runtime_manager.cpp): no scheduler, but the same stream
 bindings, kept so that no port is ever lost.
 */
module StubRuntime {
  import opened Wrappers
  import opened PropertyValues
  import opened SessionStream
  import opened Sessions
  import opened Ports
  import opened RuntimeSections
  import opened RuntimeCalls

  datatype StubError = ContractBroken | AllocationFailed | NoResources | StreamNotFound

  /** Exact conservation: the allocated ports are the ports of the stored bindings, each of them held once. */
  ghost predicate Conserved(held: map<string, seq<StreamBinding>>, ports: set<nat>) {
    && (forall p :: p in ports <==> exists id :: id in held && p in PortsOf(held[id]))
    && (forall id :: id in held ==> NoRepeats(PortsOf(held[id])))
    && (forall id1, id2, p :: id1 in held && id2 in held && p in PortsOf(held[id1]) && p in PortsOf(held[id2]) ==>
          id1 == id2)
  }

  lemma ReleaseConserves(held: map<string, seq<StreamBinding>>, ports: set<nat>, id: string)
    requires Conserved(held, ports) && id in held
    ensures Conserved(held - {id}, ports - PortSet(held[id]))
  {
    var held', ports' := held - {id}, ports - PortSet(held[id]);
    forall p ensures p in ports' <==> exists other :: other in held' && p in PortsOf(held'[other]) {
      if p in ports' {
        var other :| other in held && p in PortsOf(held[other]);
        assert other in held';
      }
    }
  }

  lemma PushConserves(held: map<string, seq<StreamBinding>>, ports: set<nat>, id: string, binding: StreamBinding)
    requires Conserved(held, ports) && id in held && binding.internal.port !in ports
    ensures Conserved(held[id := held[id] + [binding]], ports + {binding.internal.port})
  {
    var port, held' := binding.internal.port, held[id := held[id] + [binding]];
    assert PortsOf(held'[id]) == PortsOf(held[id]) + [port];
    assert forall p :: p in PortsOf(held'[id]) <==> p in PortsOf(held[id]) || p == port;
    forall p ensures p in ports + {port} <==> exists other :: other in held' && p in PortsOf(held'[other]) {
      if p in ports {
        var other :| other in held && p in PortsOf(held[other]);
        assert other in held' && p in PortsOf(held'[other]);
      } else if p == port {
        assert id in held' && p in PortsOf(held'[id]);
      }
    }
  }

  lemma OpenConserves(held: map<string, seq<StreamBinding>>, ports: set<nat>, id: string)
    requires Conserved(held, ports) && id !in held
    ensures Conserved(held[id := []], ports)
  {
    var held' := held[id := []];
    forall p ensures p in ports <==> exists other :: other in held' && p in PortsOf(held'[other]) {
      if p in ports {
        var other :| other in held && p in PortsOf(held[other]);
        assert other in held' && p in PortsOf(held'[other]);
      }
    }
  }

  class StubRuntimeManager {
    const allocator: StreamBindingAllocator
    var streamBindings: map<string, seq<StreamBinding>>
    var settings: map<string, map<string, PropertyMap>>

    constructor ()
      ensures Valid() && fresh(allocator) && streamBindings == map[] && settings == map[]
    {
      allocator := new StreamBindingAllocator();
      streamBindings := map[];
      settings := map[];
    }

    ghost predicate Valid()
      reads this`streamBindings, allocator
    {
      Conserved(streamBindings, allocator.allocatedPorts)
    }

    method ReleaseStreams(id: string)
      requires Valid()
      modifies this`streamBindings, allocator
      ensures Valid() && streamBindings == old(streamBindings) - {id}
      ensures allocator.allocatedPorts ==
        old(allocator.allocatedPorts) - (if id in old(streamBindings) then PortSet(old(streamBindings[id])) else {})
    {
      if id !in streamBindings {
        assert streamBindings - {id} == streamBindings;
        return;
      }
      ReleaseConserves(streamBindings, allocator.allocatedPorts, id);
      var bindings := streamBindings[id];
      var i := 0;
      while i < |bindings|
        invariant 0 <= i <= |bindings| && streamBindings == old(streamBindings)
        invariant allocator.allocatedPorts == old(allocator.allocatedPorts) - PortSet(bindings[..i])
      {
        allocator.Release(bindings[i].internal);
        PortSetGrows(bindings, i);
        i := i + 1;
      }
      assert bindings[..i] == bindings;
      streamBindings := streamBindings - {id};
    }

    /** Pushes straight into the map, so an allocation that fails midway leaves the earlier ports with their session. */
    method Prepare(session: Session, answers: nat -> nat -> PortAnswer) returns (error: Option<StubError>)
      requires Valid()
      modifies this`streamBindings, allocator
      ensures Valid() && streamBindings - {session.id} == old(streamBindings) - {session.id}
      ensures !ContractHolds(DocumentStreams(session.grc)) ==>
        error == Some(ContractBroken) && session.id !in streamBindings
      ensures ContractHolds(DocumentStreams(session.grc)) && DerivedPlan(session.id, session.grc).None? ==>
        error == None && session.id !in streamBindings
      ensures DerivedPlan(session.id, session.grc).Some? ==>
        && session.id in streamBindings && (error == None || error == Some(AllocationFailed))
        && Allocates(DerivedPlan(session.id, session.grc).value,
                     allocator.allocatedPorts - PortSet(streamBindings[session.id]),
                     answers, streamBindings[session.id], error.Some?)
    {
      var id := session.id;
      ReleaseStreams(id);
      var contractError := ValidateStreamRuntimeContract(session.grc);
      if contractError.Some? {
        return Some(ContractBroken);
      }
      var plan := DeriveStreamRuntimePlan(id, session.grc);
      if plan.None? {
        return None;
      }
      OpenConserves(streamBindings, allocator.allocatedPorts, id);
      streamBindings := streamBindings[id := []];
      error := AllocateInto(id, plan.value, answers);
    }

    method BindOne(plan: StreamPlan, answers: nat -> PortAnswer) returns (binding: Option<StreamBinding>)
      modifies allocator
      ensures binding.None? ==>
        && allocator.allocatedPorts == old(allocator.allocatedPorts)
        && exists error :: FirstFree(old(allocator.allocatedPorts), answers, Err(error))
      ensures binding.Some? ==>
        && binding.value == Bind(plan, binding.value.internal.port)
        && FirstFree(old(allocator.allocatedPorts), answers, Ok(binding.value.internal.port))
        && binding.value.internal.port !in old(allocator.allocatedPorts)
        && allocator.allocatedPorts == old(allocator.allocatedPorts) + {binding.value.internal.port}
    {
      var result := Err(NoSocket);
      if plan.transport == "websocket" {
        result := allocator.AllocateWebSocket(answers);
      } else {
        result := allocator.AllocateHttp(answers);
      }
      if result.Err? {
        assert FirstFree(old(allocator.allocatedPorts), answers, Err(result.error));
        return None;
      }
      var ready := plan.(ready := true);
      return Some(StreamBinding(ready, result.value, ToBrowserDescriptor(ready)));
    }

    method AllocateInto(id: string, streams: seq<StreamPlan>, answers: nat -> nat -> PortAnswer)
      returns (error: Option<StubError>)
      requires Valid() && id in streamBindings && streamBindings[id] == []
      modifies this`streamBindings, allocator
      ensures Valid() && id in streamBindings && streamBindings == old(streamBindings)[id := streamBindings[id]]
      ensures error == None || error == Some(AllocationFailed)
      ensures Allocates(streams, allocator.allocatedPorts - PortSet(streamBindings[id]), answers, streamBindings[id],
                        error.Some?)
    {
      hide Conserved, FirstFree, Bind;
      ghost var base := allocator.allocatedPorts;
      var i: nat := 0;
      while i < |streams|
        invariant i <= |streams| && Valid()
        invariant id in streamBindings && |streamBindings[id]| == i
        invariant streamBindings == old(streamBindings)[id := streamBindings[id]]
        invariant Obtained(streams, base, answers, streamBindings[id])
        invariant allocator.allocatedPorts == base + PortSet(streamBindings[id]) && base !! PortSet(streamBindings[id])
      {
        ghost var ports := allocator.allocatedPorts;
        var bound := BindOne(streams[i], answers(i));
        if bound.None? {
          return Some(AllocationFailed);
        }
        var binding := bound.value;
        ObtainOneMore(streams, base, answers, streamBindings[id], binding);
        PushConserves(streamBindings, ports, id, binding);
        streamBindings := streamBindings[id := streamBindings[id] + [binding]];
        i := i + 1;
      }
      return None;
    }

    /** Starting changes nothing. */
    method Start(session: Session)
      ensures streamBindings == old(streamBindings) && settings == old(settings)
    {
    }

    method Stop(id: string)
      requires Valid()
      modifies this`streamBindings, allocator
      ensures Valid() && streamBindings == old(streamBindings) - {id}
    {
      ReleaseStreams(id);
    }

    method Destroy(id: string)
      requires Valid()
      modifies this, allocator
      ensures Valid() && streamBindings == old(streamBindings) - {id} && settings == old(settings) - {id}
    {
      ReleaseStreams(id);
      settings := settings - {id};
    }

    method ActiveStreamPlan(id: string) returns (plan: Option<seq<StreamPlan>>)
      ensures plan ==
        if id in streamBindings && streamBindings[id] != [] then Some(PlansIn(streamBindings[id])) else None
    {
      if id !in streamBindings || streamBindings[id] == [] {
        return None;
      }
      var bindings, plans: seq<StreamPlan> := streamBindings[id], [];
      for i := 0 to |bindings|
        invariant plans == PlansIn(bindings[..i])
      {
        plans := plans + [bindings[i].plan];
      }
      assert bindings[..|bindings|] == bindings;
      return Some(plans);
    }

    /** The search in `resolve_websocket_stream` and in `fetch_http_stream`. */
    method FindStream(id: string, streamId: string, webSocket: bool)
      returns (result: Result<InternalBinding, StubError>)
      ensures id !in streamBindings ==> result == Err(NoResources)
      ensures id in streamBindings ==>
        match FirstServing(streamBindings[id], streamId, webSocket)
        case Some(internal) => result == Ok(internal)
        case None => result == Err(StreamNotFound)
    {
      if id !in streamBindings {
        return Err(NoResources);
      }
      var bindings, i := streamBindings[id], 0;
      while i < |bindings|
        invariant 0 <= i <= |bindings|
        invariant FirstServing(bindings, streamId, webSocket) == FirstServing(bindings[i..], streamId, webSocket)
      {
        if ServesStream(bindings[i], streamId, webSocket) {
          return Ok(bindings[i].internal);
        }
        i := i + 1;
      }
      return Err(StreamNotFound);
    }
  }

  // ------------------------------------------------------------- consequences

  /** After a prepare that did not fail, the active plan is the derived plan, as with the other implementation. */
  lemma PreparedShowsItsPlan(session: Session, ports: set<nat>, answers: nat -> nat -> PortAnswer,
                             got: seq<StreamBinding>)
    requires DerivedPlan(session.id, session.grc).Some?
    requires Allocates(DerivedPlan(session.id, session.grc).value, ports, answers, got, false)
    ensures got != [] && Some(PlansIn(got)) == DerivedPlan(session.id, session.grc)
  {
    var plan := DerivedPlan(session.id, session.grc).value;
    PlanProperties(session.id, session.grc);
    forall i | 0 <= i < |plan| ensures PlansIn(got)[i] == plan[i] {
      assert got[i] == Bind(plan[i], got[i].internal.port);
    }
    assert PlansIn(got) == plan;
  }

  /** Once the last session is released every port is free again, whatever failed before. */
  lemma NothingHeldNothingAllocated(held: map<string, seq<StreamBinding>>, ports: set<nat>)
    requires Conserved(held, ports)
    ensures ports == {} <==> forall id :: id in held ==> held[id] == []
  {
    forall id | id in held && held[id] != [] ensures ports != {} {
      assert PortsOf(held[id])[0] in PortsOf(held[id]);
      assert PortsOf(held[id])[0] in ports;
    }
  }
}
