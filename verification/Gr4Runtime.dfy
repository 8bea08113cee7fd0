/**
 The runtime manager as objects updated in place
 (src/runtime/gr4_runtime_manager.cpp): each method does to the objects what
 the calls of `RuntimeCalls` say.
 */
module Gr4Runtime {
  import opened Wrappers
  import opened PropertyValues
  import opened SessionStream
  import opened GraphRewrite
  import opened Sessions
  import opened Ports
  import opened RuntimeSections
  import opened RuntimeCalls

  class SessionRuntimeResources {
    const sessionId: string
    var generation: nat
    var phase: Phase
    var teardownComplete: bool
    var teardownFailed: bool
    var execution: Option<Execution>
    var bindings: seq<StreamBinding>

    constructor (sessionId: string)
      ensures this.sessionId == sessionId && View() == FreshResource(sessionId)
    {
      this.sessionId := sessionId;
      generation, phase := 0, PhaseIdle;
      teardownComplete, teardownFailed := true, false;
      execution, bindings := None, [];
    }

    function View(): Resource
      reads this
    {
      Resource(sessionId, generation, phase, teardownComplete, teardownFailed, execution, bindings)
    }
  }

  datatype LookupError = NotRunning | UnknownStream

  class Gr4RuntimeManager {
    const allocator: StreamBindingAllocator
    var resources: map<string, SessionRuntimeResources>
    /** Ports an allocation failure left to nobody. */
    ghost var leaked: set<nat>

    constructor ()
      ensures Valid() && fresh(allocator) && resources == map[] && View() == RuntimeView(map[], {}, {})
    {
      allocator := new StreamBindingAllocator();
      resources := map[];
      leaked := {};
    }

    ghost predicate Valid()
      reads this
    {
      forall id :: id in resources ==> resources[id].sessionId == id
    }

    ghost function View(): RuntimeView
      reads this, allocator, resources.Values
    {
      RuntimeView(map id | id in resources :: resources[id].View(), allocator.allocatedPorts, leaked)
    }

    ghost function SectionWith(r: SessionRuntimeResources): Section
      reads this, allocator, r
    {
      Section(r.View(), allocator.allocatedPorts, leaked)
    }

    method GetOrCreateResources(id: string) returns (r: SessionRuntimeResources)
      requires Valid()
      modifies this`resources
      ensures Valid() && id in resources && resources[id] == r
      ensures resources == old(resources)[id := r]
      ensures if id in old(resources) then r == old(resources[id]) else fresh(r) && r.View() == FreshResource(id)
    {
      if id !in resources {
        var made := new SessionRuntimeResources(id);
        resources := resources[id := made];
      }
      r := resources[id];
    }

    method FindResources(id: string) returns (r: SessionRuntimeResources?)
      ensures r == if id in resources then resources[id] else null
    {
      r := if id in resources then resources[id] else null;
    }

    method ReleaseAll(bindings: seq<StreamBinding>)
      modifies allocator
      ensures allocator.allocatedPorts == old(allocator.allocatedPorts) - PortSet(bindings)
    {
      var i := 0;
      while i < |bindings|
        invariant 0 <= i <= |bindings|
        invariant allocator.allocatedPorts == old(allocator.allocatedPorts) - PortSet(bindings[..i])
      {
        allocator.Release(bindings[i].internal);
        PortSetGrows(bindings, i);
        i := i + 1;
      }
      assert bindings[..i] == bindings;
    }

    method ReleaseStreamBindingsLocked(r: SessionRuntimeResources)
      modifies r`bindings, allocator
      ensures r.bindings == []
      ensures allocator.allocatedPorts == old(allocator.allocatedPorts) - PortSet(old(r.bindings))
    {
      ReleaseAll(r.bindings);
      r.bindings := [];
    }

    /** The allocation loop of prepare. */
    method AllocateBindings(streams: seq<StreamPlan>, answers: nat -> nat -> PortAnswer)
      returns (got: seq<StreamBinding>, failed: bool)
      modifies allocator
      ensures Allocates(streams, old(allocator.allocatedPorts), answers, got, failed)
      ensures allocator.allocatedPorts == old(allocator.allocatedPorts) + PortSet(got)
    {
      got, failed := [], false;
      ghost var base := allocator.allocatedPorts;
      while |got| < |streams|
        invariant Obtained(streams, base, answers, got)
        invariant allocator.allocatedPorts == base + PortSet(got)
        decreases |streams| - |got|
      {
        var plan, result := streams[|got|], Err(NoSocket);
        if plan.transport == "websocket" {
          result := allocator.AllocateWebSocket(answers(|got|));
        } else {
          result := allocator.AllocateHttp(answers(|got|));
        }
        if result.Err? {
          return got, true;
        }
        plan := plan.(ready := true);
        var binding := StreamBinding(plan, result.value, ToBrowserDescriptor(plan));
        ObtainOneMore(streams, base, answers, got, binding);
        got := got + [binding];
      }
    }

    method PrepareLocked(session: Session, r: SessionRuntimeResources, env: Environment) returns (outcome: Outcome)
      modifies r, allocator, this`leaked
      ensures Prepares(session, env, old(SectionWith(r)), SectionWith(r), outcome)
      ensures outcome == Returned ==> r.execution.Some?
      ensures r.generation ==
        old(r.generation) + if outcome == Returned && old(r.execution).None? then 1 else 0
    {
      if r.phase == PhaseStopping {
        return Threw;
      }
      if r.execution.Some? {
        return Returned;
      }
      var contractError := ValidateStreamRuntimeContract(session.grc);
      if contractError.Some? || !env.ready {
        return Threw;
      }
      ReleaseStreamBindingsLocked(r);
      ghost var cleared := SectionWith(r);
      assert cleared == Cleared(old(SectionWith(r)));

      var plan := DeriveStreamRuntimePlan(session.id, session.grc);
      var streams := if plan.Some? then plan.value else [];
      var got, failed := AllocateBindings(streams, env.answers);
      if failed {
        leaked := leaked + PortSet(got);
        outcome := Threw;
      } else {
        outcome := LoadLocked(session, r, env, cleared, got);
      }
      assert AfterAllocation(session, env, cleared, got, failed, SectionWith(r), outcome);
    }

    /** The `try` of prepare, and the installation of what it made. */
    method LoadLocked(session: Session, r: SessionRuntimeResources, env: Environment,
                      ghost cleared: Section, got: seq<StreamBinding>)
      returns (outcome: Outcome)
      requires SectionWith(r) == cleared.(ports := cleared.ports + PortSet(got))
      requires cleared.ports !! PortSet(got)
      modifies r, allocator
      ensures AfterAllocation(session, env, cleared, got, false, SectionWith(r), outcome)
      ensures outcome == Returned ==> r.execution.Some?
      ensures r.generation == old(r.generation) + if outcome == Returned then 1 else 0
    {
      var graph := NormalizeGraphContent(session.grc, got);
      if graph.Err? || !env.loads {
        ReleaseAll(got);
        return Threw;
      }
      assert IsLoadedGraph(session.grc, got, graph.value);
      r.execution := Some(Execution(false, graph.value));
      r.bindings := got;
      r.generation := r.generation + 1;
      r.phase := PhaseIdle;
      r.teardownComplete := true;
      r.teardownFailed := false;
      return Returned;
    }

    method StopLocked(r: SessionRuntimeResources, env: Environment) returns (outcome: Outcome)
      modifies r, allocator
      ensures (SectionWith(r), outcome) == StopResult(env, old(SectionWith(r)))
    {
      if r.execution.None? {
        ReleaseStreamBindingsLocked(r);
        r.phase := PhaseIdle;
        r.teardownComplete := true;
        r.teardownFailed := false;
        return Returned;
      }
      if r.phase == PhaseStopping {
        return Threw;
      }
      r.phase := PhaseStopping;
      r.teardownComplete := false;
      r.teardownFailed := false;
      if r.execution.value.running && !env.stops {
        r.phase := PhaseFailed;
        r.teardownFailed := true;
        return Threw;
      }
      r.execution := Some(r.execution.value.(running := false));
      ReleaseStreamBindingsLocked(r);
      r.execution := None;
      r.teardownComplete := true;
      r.phase := PhaseIdle;
      r.teardownFailed := false;
      return Returned;
    }

    /** Only the object of this session changed, so only its entry of the view did. */
    twostate lemma OneEntryChanged(id: string, new r: SessionRuntimeResources)
      requires Valid() && old(Valid()) && id in resources && resources[id] == r
      requires resources == old(resources)[id := r]
      requires forall other :: other in old(resources) && other != id ==> unchanged(old(resources[other]))
      ensures View() == WithSection(old(View()), id, SectionWith(r))
    {
    }

    method Prepare(session: Session, env: Environment) returns (outcome: Outcome)
      requires Valid()
      modifies this, allocator, resources.Values
      ensures Valid() && fresh(resources.Values - old(resources.Values))
      ensures PrepareCall(session, env, old(View()), View(), outcome)
    {
      var r := GetOrCreateResources(session.id);
      assert SectionWith(r) == SectionOf(old(View()), session.id);
      outcome := PrepareLocked(session, r, env);
      OneEntryChanged(session.id, r);
    }

    method Start(session: Session, env: Environment) returns (outcome: Outcome)
      requires Valid()
      modifies this, allocator, resources.Values
      ensures Valid() && fresh(resources.Values - old(resources.Values))
      ensures StartCall(session, env, old(View()), View(), outcome)
    {
      var r := GetOrCreateResources(session.id);
      assert SectionWith(r) == SectionOf(old(View()), session.id);
      outcome := StartLocked(session, r, env);
      OneEntryChanged(session.id, r);
    }

    method StartLocked(session: Session, r: SessionRuntimeResources, env: Environment) returns (outcome: Outcome)
      modifies r, allocator, this`leaked
      ensures Starts(session, env, old(SectionWith(r)), SectionWith(r), outcome)
    {
      outcome := PrepareLocked(session, r, env);
      ghost var mid := SectionWith(r);
      if outcome == Threw {
        return;
      }
      if r.execution.value.running && r.phase == PhaseRunning {
        return;
      }
      r.teardownFailed := false;
      r.teardownComplete := false;
      r.phase := PhaseStarting;
      if !env.starts {
        assert SectionWith(r) == mid.(r := LaunchResult(env, mid.r).0);
        return Threw;
      }
      r.execution := Some(r.execution.value.(running := true));
      r.phase := PhaseRunning;
      assert SectionWith(r) == mid.(r := LaunchResult(env, mid.r).0);
    }

    method Stop(id: string, env: Environment) returns (outcome: Outcome)
      requires Valid()
      modifies this, allocator, resources.Values
      ensures Valid() && fresh(resources.Values - old(resources.Values))
      ensures (View(), outcome) == StopCall(env, old(View()), id)
    {
      var r := FindResources(id);
      if r == null {
        return Returned;
      }
      outcome := StopLocked(r, env);
      assert resources == resources[id := r];
      OneEntryChanged(id, r);
    }

    /** The first of the two sections of destroy. */
    method DestroyLocked(r: SessionRuntimeResources, env: Environment) returns (outcome: Outcome)
      modifies r, allocator
      ensures (SectionWith(r), outcome) == StopResult(env, old(SectionWith(r)))
    {
      outcome := StopLocked(r, env);
      if outcome == Threw {
        return;
      }
      ghost var stopped := SectionWith(r);
      r.execution := None;
      ReleaseStreamBindingsLocked(r);
      r.phase := PhaseIdle;
      r.teardownComplete := true;
      r.teardownFailed := false;
      assert PortSet([]) == {};
      assert SectionWith(r) == stopped;
    }

    method Destroy(id: string, env: Environment) returns (outcome: Outcome)
      requires Valid()
      modifies this, allocator, resources.Values
      ensures Valid() && fresh(resources.Values - old(resources.Values))
      ensures (View(), outcome) == DestroyCall(env, old(View()), id)
    {
      var r := FindResources(id);
      if r == null {
        assert View().table - {id} == View().table;
        return Returned;
      }
      outcome := DestroyLocked(r, env);
      assert resources == resources[id := r];
      OneEntryChanged(id, r);
      if outcome == Returned && id in resources && resources[id] == r {
        ghost var before := View();
        resources := resources - {id};
        assert View().table == before.table - {id};
      }
    }

    method ActiveStreamPlan(id: string) returns (plan: Option<seq<StreamPlan>>)
      requires Valid()
      ensures plan == if id in View().table then ActivePlan(View().table[id]) else None
    {
      var r := FindResources(id);
      if r == null {
        return None;
      }
      assert View().table[id] == r.View();
      if r.execution.None? || !r.execution.value.running || r.phase != PhaseRunning || r.bindings == [] {
        return None;
      }
      var plans: seq<StreamPlan> := [];
      for i := 0 to |r.bindings|
        invariant plans == PlansIn(r.bindings[..i])
      {
        plans := plans + [r.bindings[i].plan];
      }
      assert r.bindings[..|r.bindings|] == r.bindings;
      return Some(plans);
    }

    /** The lookup in `resolve_websocket_stream` and, before its request, in `fetch_http_stream`. */
    method FindStream(id: string, streamId: string, webSocket: bool)
      returns (result: Result<InternalBinding, LookupError>)
      requires Valid()
      ensures result == Err(NotRunning) <==> !(id in View().table && IsRunning(View().table[id]))
      ensures id in View().table && IsRunning(View().table[id]) ==>
        match Route(View().table[id], streamId, webSocket)
        case Some(internal) => result == Ok(internal)
        case None => result == Err(UnknownStream)
    {
      var r := FindResources(id);
      if r == null {
        return Err(NotRunning);
      }
      assert View().table[id] == r.View();
      if r.execution.None? || !r.execution.value.running || r.phase != PhaseRunning {
        return Err(NotRunning);
      }
      var i := 0;
      while i < |r.bindings|
        invariant 0 <= i <= |r.bindings|
        invariant FirstServing(r.bindings, streamId, webSocket) == FirstServing(r.bindings[i..], streamId, webSocket)
      {
        if ServesStream(r.bindings[i], streamId, webSocket) {
          return Ok(r.bindings[i].internal);
        }
        i := i + 1;
      }
      return Err(UnknownStream);
    }
  }
}
