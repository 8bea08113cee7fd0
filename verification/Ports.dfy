/** The allocator of loopback ports for streams (src/runtime/stream_binding_allocator.cpp). */
module Ports {
  import opened Wrappers
  import opened SessionStream
  import opened Text

  /** What the operating system says when asked for an ephemeral port. */
  datatype PortAnswer = Port(number: nat) | SocketFailure

  datatype AllocationError = NoSocket | NoUniquePort

  const ATTEMPTS: nat := 64

  function HttpBinding(port: nat): InternalBinding {
    InternalBinding("http", "127.0.0.1", port, "/snapshot", "http://127.0.0.1:" + Decimal(port) + "/snapshot")
  }

  function WebSocketBinding(port: nat): InternalBinding {
    InternalBinding("websocket", "127.0.0.1", port, "/stream", "ws://127.0.0.1:" + Decimal(port) + "/stream")
  }

  function BindingFor(transport: string, port: nat): InternalBinding {
    if transport == "websocket" then WebSocketBinding(port) else HttpBinding(port)
  }

  function Bind(plan: StreamPlan, port: nat): StreamBinding {
    var ready := plan.(ready := true);
    StreamBinding(ready, BindingFor(plan.transport, port), ToBrowserDescriptor(ready))
  }

  lemma MadeServing(port: nat)
    ensures ServesAt(HttpBinding(port), false) && ServesAt(WebSocketBinding(port), true)
  {
    assert "http" + "://127.0.0.1:" == "http://127.0.0.1:";
    assert "ws" + "://127.0.0.1:" == "ws://127.0.0.1:";
  }

  /** An address of the loopback interface, field by field. */
  predicate IsLoopback(internal: InternalBinding, protocol: string, scheme: string, path: string) {
    && internal.protocol == protocol && internal.host == "127.0.0.1" && internal.path == path
    && internal.endpoint == scheme + "://127.0.0.1:" + Decimal(internal.port) + path
  }

  /** Where a stream of this kind is served: over websockets under `/stream`, over HTTP under `/snapshot`. */
  predicate ServesAt(internal: InternalBinding, webSocket: bool) {
    if webSocket then IsLoopback(internal, "websocket", "ws", "/stream")
    else IsLoopback(internal, "http", "http", "/snapshot")
  }

  /** A binding made for a transport, and what the browser is told of it. */
  lemma BoundFields(plan: StreamPlan, port: nat)
    ensures var binding := Bind(plan, port);
      && binding.internal.port == port && ServesAt(binding.internal, plan.transport == "websocket")
      && binding.plan == plan.(ready := true)
      && binding.browser.id == plan.streamId && binding.browser.blockInstanceName == plan.blockInstanceName
      && binding.browser.transport == plan.transport && binding.browser.payloadFormat == plan.payloadFormat
      && binding.browser.path == plan.path && binding.browser.ready
  {
    MadeServing(port);
  }

  function PortsOf(bindings: seq<StreamBinding>): seq<nat> {
    seq(|bindings|, i requires 0 <= i < |bindings| => bindings[i].internal.port)
  }

  function PortSet(bindings: seq<StreamBinding>): set<nat> {
    set p | p in PortsOf(bindings)
  }

  lemma PortSetHead(bindings: seq<StreamBinding>)
    requires bindings != []
    ensures PortSet(bindings) == {bindings[0].internal.port} + PortSet(bindings[1..])
  {
    assert PortsOf(bindings) == [bindings[0].internal.port] + PortsOf(bindings[1..]);
  }

  predicate NoRepeats(ports: seq<nat>) {
    forall i, j :: 0 <= i < j < |ports| ==> ports[i] != ports[j]
  }

  function EndpointHead(transport: string): string {
    if transport == "websocket" then "ws://127.0.0.1:" else "http://127.0.0.1:"
  }

  function EndpointTail(transport: string): string {
    if transport == "websocket" then "/stream" else "/snapshot"
  }

  lemma EndpointShape(transport: string, port: nat)
    ensures BindingFor(transport, port).endpoint == EndpointHead(transport) + (Decimal(port) + EndpointTail(transport))
    ensures BindingFor(transport, port).endpoint[0] == if transport == "websocket" then 'w' else 'h'
  {
  }

  /** Different ports give different endpoints, whatever the transports. */
  lemma EndpointNamesPort(transport1: string, port1: nat, transport2: string, port2: nat)
    requires BindingFor(transport1, port1).endpoint == BindingFor(transport2, port2).endpoint
    ensures port1 == port2
  {
    EndpointShape(transport1, port1);
    EndpointShape(transport2, port2);
    var tail := EndpointTail(transport1);
    assert EndpointHead(transport1) == EndpointHead(transport2) && tail == EndpointTail(transport2);
    SameAfterPrefix(EndpointHead(transport1), Decimal(port1) + tail, Decimal(port2) + tail);
    SameBeforeSlash(Decimal(port1), Decimal(port2), tail, tail);
    DecimalInjective(port1, port2);
  }

  /** The answer names a port that is already handed out, so the allocator tries again. */
  predicate Collides(taken: set<nat>, answer: PortAnswer) {
    answer.Port? && answer.number in taken
  }

  /** The result of the retry loop: decided by the first of 64 answers that does not collide. */
  ghost predicate FirstFree(taken: set<nat>, answers: nat -> PortAnswer, result: Result<nat, AllocationError>) {
    if forall k :: 0 <= k < ATTEMPTS ==> Collides(taken, answers(k)) then result == Err(NoUniquePort)
    else exists k :: (
      && 0 <= k < ATTEMPTS
      && (forall j :: 0 <= j < k ==> Collides(taken, answers(j)))
      && !Collides(taken, answers(k))
      && result == if answers(k).Port? then Ok(answers(k).number) else Err(NoSocket))
  }

  /** The first `k` answers name ports that are handed out already. */
  predicate AllTaken(taken: set<nat>, answers: nat -> PortAnswer, k: nat) {
    forall j :: 0 <= j < k ==> answers(j).Port? && answers(j).number in taken
  }

  /**
   The search ends with a port or a socket failure exactly if that is one of the
   first 64 answers and taken ports alone come before it.
   */
  lemma FoundWithin64(taken: set<nat>, answers: nat -> PortAnswer, port: nat)
    ensures FirstFree(taken, answers, Ok(port)) <==>
      port !in taken && exists k: nat :: k < 64 && AllTaken(taken, answers, k) && answers(k) == Port(port)
    ensures FirstFree(taken, answers, Err(NoSocket)) <==>
      exists k: nat :: k < 64 && AllTaken(taken, answers, k) && answers(k) == SocketFailure
    ensures FirstFree(taken, answers, Err(NoUniquePort)) <==> AllTaken(taken, answers, 64)
  {
    forall k: nat | k < 64 && AllTaken(taken, answers, k) && !Collides(taken, answers(k))
      ensures answers(k).Port? ==> FirstFree(taken, answers, Ok(answers(k).number))
      ensures answers(k).SocketFailure? ==> FirstFree(taken, answers, Err(NoSocket))
    {
      assert forall j :: 0 <= j < k ==> Collides(taken, answers(j));
    }
    if !forall k :: 0 <= k < ATTEMPTS ==> Collides(taken, answers(k)) {
      var k := FirstOther(taken, answers, ATTEMPTS);
      assert !Collides(taken, answers(k)) && AllTaken(taken, answers, k);
    }
  }

  lemma {:induction false} FirstOther(taken: set<nat>, answers: nat -> PortAnswer, n: nat) returns (k: nat)
    requires exists i :: 0 <= i < n && !Collides(taken, answers(i))
    ensures k < n && !Collides(taken, answers(k)) && forall j :: 0 <= j < k ==> Collides(taken, answers(j))
  {
    if exists i :: 0 <= i < n - 1 && !Collides(taken, answers(i)) {
      k := FirstOther(taken, answers, n - 1);
    } else {
      k := n - 1;
    }
  }

  class StreamBindingAllocator {
    var allocatedPorts: set<nat>

    constructor ()
      ensures allocatedPorts == {}
    {
      allocatedPorts := {};
    }

    method AllocateHttp(answers: nat -> PortAnswer) returns (result: Result<InternalBinding, AllocationError>)
      modifies this
      ensures FirstFree(old(allocatedPorts), answers, if result.Ok? then Ok(result.value.port) else Err(result.error))
      ensures result.Ok? ==> result.value == HttpBinding(result.value.port) && ServesAt(result.value, false)
      ensures result.Ok? ==> result.value.port !in old(allocatedPorts)
      ensures allocatedPorts == if result.Ok? then old(allocatedPorts) + {result.value.port} else old(allocatedPorts)
    {
      var attempt: nat := 0;
      while attempt < ATTEMPTS
        invariant attempt <= ATTEMPTS && allocatedPorts == old(allocatedPorts)
        invariant forall j :: 0 <= j < attempt ==> Collides(allocatedPorts, answers(j))
      {
        var answer := answers(attempt);
        if answer.SocketFailure? {
          return Err(NoSocket);
        }
        if answer.number !in allocatedPorts {
          allocatedPorts := allocatedPorts + {answer.number};
          MadeServing(answer.number);
          return Ok(HttpBinding(answer.number));
        }
        attempt := attempt + 1;
      }
      return Err(NoUniquePort);
    }

    method AllocateWebSocket(answers: nat -> PortAnswer) returns (result: Result<InternalBinding, AllocationError>)
      modifies this
      ensures FirstFree(old(allocatedPorts), answers, if result.Ok? then Ok(result.value.port) else Err(result.error))
      ensures result.Ok? ==> result.value == WebSocketBinding(result.value.port) && ServesAt(result.value, true)
      ensures result.Ok? ==> result.value.port !in old(allocatedPorts)
      ensures allocatedPorts == if result.Ok? then old(allocatedPorts) + {result.value.port} else old(allocatedPorts)
    {
      var attempt: nat := 0;
      while attempt < ATTEMPTS
        invariant attempt <= ATTEMPTS && allocatedPorts == old(allocatedPorts)
        invariant forall j :: 0 <= j < attempt ==> Collides(allocatedPorts, answers(j))
      {
        var answer := answers(attempt);
        if answer.SocketFailure? {
          return Err(NoSocket);
        }
        if answer.number !in allocatedPorts {
          allocatedPorts := allocatedPorts + {answer.number};
          MadeServing(answer.number);
          return Ok(WebSocketBinding(answer.number));
        }
        attempt := attempt + 1;
      }
      return Err(NoUniquePort);
    }

    method Release(binding: InternalBinding)
      modifies this
      ensures allocatedPorts == old(allocatedPorts) - {binding.port}
    {
      allocatedPorts := allocatedPorts - {binding.port};
    }
  }
}
