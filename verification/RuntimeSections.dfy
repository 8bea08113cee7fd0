/**
 The runtime resource of one session, and what each critical section of the
 runtime manager does to it (src/runtime/gr4_runtime_manager.cpp).
 */
module RuntimeSections {
  import opened Wrappers
  import opened PropertyValues
  import opened SessionStream
  import opened GraphRewrite
  import opened Sessions
  import opened Ports

  datatype Phase = PhaseIdle | PhaseStarting | PhaseRunning | PhaseStopping | PhaseFailed

  /** A loaded graph with its scheduler; the scheduler itself is foreign. */
  datatype Execution = Execution(running: bool, graph: GraphText)

  datatype Resource = Resource(
    sessionId: string,
    generation: nat,
    phase: Phase,
    teardownComplete: bool,
    teardownFailed: bool,
    execution: Option<Execution>,
    bindings: seq<StreamBinding>)

  function FreshResource(sessionId: string): Resource {
    Resource(sessionId, 0, PhaseIdle, true, false, None, [])
  }

  /** The end of a successful prepare. */
  function Installed(r: Resource, graph: GraphText, bindings: seq<StreamBinding>): Resource {
    r.(execution := Some(Execution(false, graph)), bindings := bindings, generation := r.generation + 1,
       phase := PhaseIdle, teardownComplete := true, teardownFailed := false)
  }

  function Launching(r: Resource): Resource {
    r.(phase := PhaseStarting, teardownComplete := false, teardownFailed := false)
  }

  function Launched(r: Resource): Resource
    requires r.execution.Some?
  {
    r.(phase := PhaseRunning, execution := Some(r.execution.value.(running := true)))
  }

  function Halting(r: Resource): Resource {
    r.(phase := PhaseStopping, teardownComplete := false, teardownFailed := false)
  }

  function HaltFailed(r: Resource): Resource {
    r.(phase := PhaseFailed, teardownFailed := true)
  }

  /** The end of a successful stop, and of the first half of destroy. */
  function Halted(r: Resource): Resource {
    r.(phase := PhaseIdle, teardownComplete := true, teardownFailed := false, execution := None, bindings := [])
  }

  predicate IsRunning(r: Resource) {
    r.execution.Some? && r.execution.value.running && r.phase == PhaseRunning
  }

  /** The text the graph loader is given for a session with these bindings. */
  predicate IsLoadedGraph(grc: Document, bindings: seq<StreamBinding>, graph: GraphText) {
    if grc.root.None? then graph == Submitted(grc.text)
    else
      && RewrittenGraph(grc.root.value, bindings).Ok?
      && Denotes(graph, grc) == Some(RewrittenGraph(grc.root.value, bindings).value)
  }

  // ---------------------------------------------------------------- lookups

  function PlansIn(bindings: seq<StreamBinding>): seq<StreamPlan> {
    seq(|bindings|, i requires 0 <= i < |bindings| => bindings[i].plan)
  }

  function ActivePlan(r: Resource): Option<seq<StreamPlan>> {
    if IsRunning(r) && r.bindings != [] then Some(PlansIn(r.bindings)) else None
  }

  predicate ServesStream(binding: StreamBinding, streamId: string, webSocket: bool) {
    binding.plan.streamId == streamId && (binding.plan.transport == "websocket" <==> webSocket)
  }

  /** `find_if` over the bindings of a running session. */
  function FirstServing(bindings: seq<StreamBinding>, streamId: string, webSocket: bool): Option<InternalBinding> {
    if bindings == [] then None
    else if ServesStream(bindings[0], streamId, webSocket) then Some(bindings[0].internal)
    else FirstServing(bindings[1..], streamId, webSocket)
  }

  lemma {:induction false} FirstServingIs(bindings: seq<StreamBinding>, streamId: string, webSocket: bool)
    returns (i: nat)
    ensures FirstServing(bindings, streamId, webSocket).None? ==>
      forall j :: 0 <= j < |bindings| ==> !ServesStream(bindings[j], streamId, webSocket)
    ensures FirstServing(bindings, streamId, webSocket).Some? ==>
      && i < |bindings| && ServesStream(bindings[i], streamId, webSocket)
      && FirstServing(bindings, streamId, webSocket) == Some(bindings[i].internal)
      && forall j :: 0 <= j < i ==> !ServesStream(bindings[j], streamId, webSocket)
  {
    i := 0;
    if bindings != [] && !ServesStream(bindings[0], streamId, webSocket) {
      i := FirstServingIs(bindings[1..], streamId, webSocket);
      assert forall j :: 0 < j < |bindings| ==> bindings[j] == bindings[1..][j - 1];
      i := i + 1;
    }
  }

  function Route(r: Resource, streamId: string, webSocket: bool): Option<InternalBinding> {
    if IsRunning(r) then FirstServing(r.bindings, streamId, webSocket) else None
  }

  /** One of the bindings, for the stream and the kind of transport asked for, is at this address. */
  ghost predicate ServedBy(bindings: seq<StreamBinding>, streamId: string, webSocket: bool, internal: InternalBinding) {
    exists i :: (
      && 0 <= i < |bindings| && bindings[i].plan.streamId == streamId
      && (bindings[i].plan.transport == "websocket" <==> webSocket) && bindings[i].internal == internal)
  }

  lemma RouteIsServed(r: Resource, streamId: string, webSocket: bool)
    ensures Route(r, streamId, webSocket).Some? ==>
      ServedBy(r.bindings, streamId, webSocket, Route(r, streamId, webSocket).value)
  {
    var i := FirstServingIs(r.bindings, streamId, webSocket);
  }

  /** Both lookups answer only for a resource in phase Running whose scheduler runs, and then for these bindings. */
  lemma LookupsNeedRunning(r: Resource, streamId: string, webSocket: bool)
    ensures var running := r.phase == PhaseRunning && r.execution.Some? && r.execution.value.running;
      && (ActivePlan(r).Some? <==> running && r.bindings != [])
      && (Route(r, streamId, webSocket).Some? <==>
            running && exists i :: 0 <= i < |r.bindings| && r.bindings[i].plan.streamId == streamId
                                   && (r.bindings[i].plan.transport == "websocket" <==> webSocket))
  {
    var i := FirstServingIs(r.bindings, streamId, webSocket);
  }
}
