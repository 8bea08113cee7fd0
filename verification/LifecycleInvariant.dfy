/** What holds of one session between any two critical sections, and why every section keeps it. */
module LifecycleInvariant {
  import opened Wrappers
  import opened PropertyValues
  import opened SessionStream
  import opened GraphRewrite
  import opened Sessions
  import opened Ports
  import opened RuntimeSections
  import opened Lifecycle

  predicate OnId(client: Client, id: string) {
    client.Lifecycle? && client.session.id == id
  }

  // -------------------------------------------------------------- resources

  /** A resource whose mutex is free. */
  predicate Settled(r: Resource) {
    && r.phase != PhaseStopping
    && (r.phase == PhaseRunning ==> r.execution.Some? && r.execution.value.running)
    && (r.execution.None? ==> r.bindings == [] && r.phase == PhaseIdle)
    && (r.teardownComplete <==> r.phase == PhaseIdle)
    && (r.teardownFailed <==> r.phase == PhaseFailed)
  }

  /** A settled resource with no execution. */
  predicate Vacant(r: Resource) {
    Settled(r) && r.execution.None?
  }

  /** One binding for each planned stream, in plan order. */
  ghost predicate BindsStreams(streams: seq<StreamPlan>, bindings: seq<StreamBinding>) {
    && |bindings| == |streams|
    && forall i :: 0 <= i < |streams| ==> bindings[i] == Bind(streams[i], bindings[i].internal.port)
  }

  /** An execution runs the rewritten graph of its session, with a binding for each of its streams. */
  ghost predicate Serves(r: Resource, session: Session) {
    r.execution.Some? ==>
      && BindsStreams(DerivedStreams(session), r.bindings)
      && IsLoadedGraph(session.grc, r.bindings, r.execution.value.graph)
  }

  // ----------------------------------------------------------------- clients

  /** The runtime calls an operation may still have before it. */
  predicate Pending(op: Op, calls: seq<Call>) {
    match op
    case Start => calls == [Prepare, Launch] || calls == [Launch] || calls == []
    case Stop => calls == [Halt] || calls == []
    case Restart =>
      calls == [Halt, Destroy, Prepare, Launch] || calls == [Destroy, Prepare, Launch]
      || calls == [Prepare, Launch] || calls == [Launch] || calls == []
    case Remove => calls == [Halt, Destroy] || calls == [Destroy] || calls == []
  }

  lemma PendingTail(op: Op, calls: seq<Call>)
    requires Pending(op, calls) && calls != []
    ensures Pending(op, calls[1..])
    ensures calls[1..] == [Launch] ==> calls[0] == Prepare
    ensures calls[1..] == [] ==> calls[0] == match op
      case Start => Launch
      case Stop => Halt
      case Restart => Launch
      case Remove => Destroy
    ensures calls[0] == Launch ==> calls == [Launch]
  {
  }

  /** The entry of a session in the resource table, with the object it leads to. */
  datatype Entry = NoEntry | Entry(ref: Ref, r: Resource)

  function EntryOf(s: State, id: string): Entry
    requires id in s.table ==> s.table[id] in s.heap
  {
    if id in s.table then Entry(s.table[id], s.heap[s.table[id]]) else NoEntry
  }

  /** What earlier calls of the operation have established when the next one, or the commit, begins. */
  predicate Ready(op: Op, calls: seq<Call>, entry: Entry) {
    && (calls == [Launch] ==> entry.Entry? && entry.r.execution.Some?)
    && (calls == [] ==>
          match op
          case Start => entry.Entry? && IsRunning(entry.r)
          case Restart => entry.Entry? && IsRunning(entry.r)
          case Stop => entry.Entry? ==> entry.r.execution.None?
          case Remove => entry.NoEntry?)
  }

  /** The runtime does not count the session as running, even if its scheduler still runs. */
  predicate NotRunning(entry: Entry) {
    entry.Entry? ==> entry.r.phase != PhaseRunning
  }

  predicate HaltsOrDestroys(calls: seq<Call>) {
    calls != [] && (calls[0] == Halt || calls[0] == Destroy)
  }

  /** Whatever pointer a client holds is the one in the table; the resource is as the section left it. */
  ghost predicate AtPoint(client: Client, entry: Entry)
    requires client.Lifecycle?
  {
    var calls := client.calls;
    match client.at
    case Entering => Ready(client.op, calls, entry)
    case Found(ref) =>
      calls != [] && entry.Entry? && entry.ref == ref && Ready(client.op, calls, entry)
    case Allocating(ref, todo, got) =>
      var streams := DerivedStreams(client.session);
      && calls != [] && calls[0] == Prepare && entry.Entry? && entry.ref == ref && Vacant(entry.r)
      && |got| <= |streams| && BindsStreams(streams[..|got|], got) && todo == streams[|got|..]
    case Unwinding(ref, left) =>
      calls != [] && calls[0] == Prepare && entry.Entry? && entry.ref == ref && Vacant(entry.r)
    case AtLaunch(ref) =>
      && calls == [Launch] && entry.Entry? && entry.ref == ref
      && entry.r.execution.Some? && Serves(entry.r, client.session)
      && entry.r.phase == PhaseStarting && !entry.r.teardownComplete && !entry.r.teardownFailed
    case AtHalt(ref) =>
      && HaltsOrDestroys(calls) && entry.Entry? && entry.ref == ref
      && entry.r.execution.Some? && Serves(entry.r, client.session)
      && entry.r.phase == PhaseStopping && !entry.r.teardownComplete && !entry.r.teardownFailed
    case Draining(ref, left) =>
      HaltsOrDestroys(calls) && entry.Entry? && entry.ref == ref && entry.r.bindings == []
    case Erasing(ref) =>
      calls != [] && calls[0] == Destroy && entry.Entry? && entry.ref == ref && Vacant(entry.r)
    case Failing => NotRunning(entry)
  }

  ghost predicate ClientInv(s: State, id: string, client: Client)
    requires client.Lifecycle? && (id in s.table ==> s.table[id] in s.heap)
  {
    && id in s.sessions && client.session == s.sessions[id]
    && id in s.phases && s.phases[id] == ClaimedPhase(client.op)
    && Pending(client.op, client.calls)
    && AtPoint(client, EntryOf(s, id))
  }

  // ---------------------------------------------------------------- sessions

  /** A session no operation is in flight on: its stored state, its phase and its resource agree. */
  predicate Stable(state: SessionState, phase: Phase, entry: Entry) {
    match phase
    case PhaseIdle => state == Stopped && (entry.Entry? ==> entry.r.execution.None?)
    case PhaseRunning => state == Running && entry.Entry? && IsRunning(entry.r)
    case PhaseFailed => state == Error && NotRunning(entry)
    case PhaseStarting => false
    case PhaseStopping => false
  }

  ghost predicate InFlight(s: State, id: string) {
    exists c :: c in s.clients && OnId(s.clients[c], id)
  }

  /** No operation on this session is inside a section that holds its resource's mutex. */
  ghost predicate ResourceFree(s: State, id: string)
    requires id in s.table
  {
    forall c :: c in s.clients && OnId(s.clients[c], id) ==> !Holds(s.clients[c], s.table[id])
  }

  ghost predicate WellKeyed(s: State, id: string) {
    && (id in s.phases <==> id in s.sessions)
    && (id in s.sessions ==> s.sessions[id].id == id)
    && (id in s.table ==> id in s.sessions && s.table[id] in s.heap && s.heap[s.table[id]].sessionId == id)
  }

  /** The pointer is the one in the table. */
  predicate Current(s: State, id: string, ref: Ref) {
    id in s.table && s.table[id] == ref && ref in s.heap
  }

  ghost predicate ResourcesInv(s: State, id: string)
    requires WellKeyed(s, id)
  {
    && (forall ref :: ref in s.heap && s.heap[ref].sessionId == id && !Current(s, id, ref) ==> Vacant(s.heap[ref]))
    && (id in s.table && ResourceFree(s, id) ==>
          Settled(s.heap[s.table[id]]) && Serves(s.heap[s.table[id]], s.sessions[id]))
  }

  ghost predicate ClientsInv(s: State, id: string)
    requires WellKeyed(s, id)
  {
    && (forall c1, c2 :: c1 in s.clients && c2 in s.clients && OnId(s.clients[c1], id) && OnId(s.clients[c2], id) ==>
          c1 == c2)
    && (forall c :: c in s.clients && OnId(s.clients[c], id) ==> ClientInv(s, id, s.clients[c]))
    && (id in s.sessions ==> InFlight(s, id) || Stable(s.sessions[id].state, s.phases[id], EntryOf(s, id)))
  }

  ghost predicate SessionInv(s: State, id: string) {
    WellKeyed(s, id) && ResourcesInv(s, id) && ClientsInv(s, id)
  }

  /** Refs are handed out in order, and a reader's pointer leads to an object made for its session. */
  ghost predicate PointersInv(s: State) {
    && (forall ref :: ref in s.heap ==> ref < s.nextRef)
    && (forall c :: c in s.clients && s.clients[c].Reader? && s.clients[c].found.Some? ==>
          && s.clients[c].found.value in s.heap
          && s.heap[s.clients[c].found.value].sessionId == s.clients[c].session.id)
  }

  ghost predicate Inv(s: State) {
    PointersInv(s) && forall id :: SessionInv(s, id)
  }

  // ------------------------------------------------------------------ frames

  /** Nothing that belongs to another session differs between the two states. */
  ghost predicate SameElsewhere(s: State, s': State, id: string) {
    && (forall other :: other != id ==>
          && (other in s'.sessions <==> other in s.sessions)
          && (other in s.sessions ==> s'.sessions[other] == s.sessions[other])
          && (other in s'.phases <==> other in s.phases)
          && (other in s.phases ==> s'.phases[other] == s.phases[other])
          && (other in s'.table <==> other in s.table)
          && (other in s.table ==> s'.table[other] == s.table[other]))
    && (forall ref :: ref in s.heap ==> ref in s'.heap && s'.heap[ref].sessionId == s.heap[ref].sessionId)
    && (forall ref :: ref in s.heap && s.heap[ref].sessionId != id ==> s'.heap[ref] == s.heap[ref])
    && (forall ref :: ref in s'.heap && s'.heap[ref].sessionId != id ==> ref in s.heap)
    && (forall c :: c in s.clients && s.clients[c].Lifecycle? && !OnId(s.clients[c], id) ==>
          c in s'.clients && s'.clients[c] == s.clients[c])
    && (forall c :: c in s'.clients && s'.clients[c].Lifecycle? && !OnId(s'.clients[c], id) ==>
          c in s.clients && s.clients[c] == s'.clients[c])
  }

  lemma OtherClientsKeep(s: State, s': State, id: string, other: string)
    requires SameElsewhere(s, s', id) && other != id
    requires WellKeyed(s, other) && WellKeyed(s', other) && ClientsInv(s, other)
    ensures ClientsInv(s', other)
  {
    forall c | c in s'.clients && OnId(s'.clients[c], other) ensures ClientInv(s', other, s'.clients[c]) {
      assert ClientInv(s, other, s.clients[c]);
    }
    if InFlight(s, other) {
      var c :| c in s.clients && OnId(s.clients[c], other);
      assert OnId(s'.clients[c], other);
    }
  }

  lemma OtherResourcesKeep(s: State, s': State, id: string, other: string)
    requires SameElsewhere(s, s', id) && other != id
    requires WellKeyed(s, other) && WellKeyed(s', other) && ResourcesInv(s, other)
    ensures ResourcesInv(s', other)
  {
    if other in s'.table && ResourceFree(s', other) {
      forall c | c in s.clients && OnId(s.clients[c], other) ensures !Holds(s.clients[c], s.table[other]) {
        assert s'.clients[c] == s.clients[c];
      }
    }
  }

  lemma OtherSessionsKeep(s: State, s': State, id: string, other: string)
    requires SameElsewhere(s, s', id) && other != id && SessionInv(s, other)
    ensures SessionInv(s', other)
  {
    assert WellKeyed(s', other);
    OtherClientsKeep(s, s', id, other);
    OtherResourcesKeep(s, s', id, other);
  }

  /** It is enough to look at the session a section works on. */
  lemma KeepsInv(s: State, s': State, id: string)
    requires Inv(s) && SameElsewhere(s, s', id) && PointersInv(s') && SessionInv(s', id)
    ensures Inv(s')
  {
    forall other ensures SessionInv(s', other) {
      if other != id {
        OtherSessionsKeep(s, s', id, other);
      }
    }
  }

  /** A section in which client `c` moves on and at most the resource `ref` of its own session changes. */
  ghost predicate StepOf(s: State, s': State, c: ClientId, client': Client, ref: Ref, r': Resource) {
    && c in s.clients && s.clients[c].Lifecycle?
    && Current(s, s.clients[c].session.id, ref) && r'.sessionId == s.heap[ref].sessionId
    && client'.Lifecycle? && client'.session == s.clients[c].session && client'.op == s.clients[c].op
    && s'.sessions == s.sessions && s'.phases == s.phases && s'.table == s.table && s'.nextRef == s.nextRef
    && (s'.heap == s.heap[ref := r'] || (s'.heap == s.heap && r' == s.heap[ref]))
    && s'.clients == s.clients[c := client']
  }

  lemma StepSameElsewhere(s: State, s': State, c: ClientId, client': Client, ref: Ref, r': Resource)
    requires StepOf(s, s', c, client', ref, r') && WellKeyed(s, s.clients[c].session.id)
    ensures SameElsewhere(s, s', s.clients[c].session.id)
    ensures PointersInv(s) ==> PointersInv(s')
  {
  }

  lemma StepKeepsClients(s: State, s': State, c: ClientId, client': Client, ref: Ref, r': Resource)
    requires StepOf(s, s', c, client', ref, r') && SessionInv(s, s.clients[c].session.id)
    requires WellKeyed(s', s.clients[c].session.id)
    requires Pending(client'.op, client'.calls) && AtPoint(client', Entry(ref, r'))
    ensures ClientsInv(s', s.clients[c].session.id)
  {
    var id := s.clients[c].session.id;
    assert ClientInv(s, id, s.clients[c]);
    assert OnId(s'.clients[c], id) && InFlight(s', id);
    assert EntryOf(s', id) == Entry(ref, r');
    forall d | d in s'.clients && OnId(s'.clients[d], id) ensures d == c {
    }
  }

  lemma StepKeepsResources(s: State, s': State, c: ClientId, client': Client, ref: Ref, r': Resource)
    requires StepOf(s, s', c, client', ref, r') && SessionInv(s, s.clients[c].session.id)
    requires WellKeyed(s', s.clients[c].session.id)
    requires Holds(client', ref) || (Settled(r') && Serves(r', client'.session))
    ensures ResourcesInv(s', s.clients[c].session.id)
  {
    var id := s.clients[c].session.id;
    assert ClientInv(s, id, s.clients[c]);
    assert OnId(s'.clients[c], id);
  }

  /**
   Such a section keeps the invariant if the client stands well afterwards and,
   when it lets the mutex go, leaves the resource settled.
   */
  lemma StepKeeps(s: State, s': State, c: ClientId, client': Client, ref: Ref, r': Resource)
    requires Inv(s) && StepOf(s, s', c, client', ref, r')
    requires Pending(client'.op, client'.calls) && AtPoint(client', Entry(ref, r'))
    requires Holds(client', ref) || (Settled(r') && Serves(r', client'.session))
    ensures Inv(s') && SameElsewhere(s, s', s.clients[c].session.id)
  {
    var id := s.clients[c].session.id;
    assert SessionInv(s, id);
    StepSameElsewhere(s, s', c, client', ref, r');
    assert WellKeyed(s', id);
    StepKeepsClients(s, s', c, client', ref, r');
    StepKeepsResources(s, s', c, client', ref, r');
    KeepsInv(s, s', id);
  }

  /** What the invariant says of one operation in flight. */
  lemma Here(s: State, c: ClientId)
    requires Inv(s) && c in s.clients && s.clients[c].Lifecycle?
    ensures var id := s.clients[c].session.id;
      && WellKeyed(s, id) && ClientInv(s, id, s.clients[c])
      && (id in s.table && !Holds(s.clients[c], s.table[id]) ==>
            Settled(s.heap[s.table[id]]) && Serves(s.heap[s.table[id]], s.clients[c].session))
  {
    var id := s.clients[c].session.id;
    assert SessionInv(s, id);
    if id in s.table && !Holds(s.clients[c], s.table[id]) {
      assert ResourceFree(s, id);
    }
  }

  lemma Alone(s: State, c: ClientId, d: ClientId)
    requires Inv(s) && c in s.clients && s.clients[c].Lifecycle? && d in s.clients && d != c
    ensures !OnId(s.clients[d], s.clients[c].session.id)
  {
    assert SessionInv(s, s.clients[c].session.id);
  }

  /** Nothing is in flight on a session that is not stored, or whose phase is not a claimed one. */
  lemma NothingInFlight(s: State, id: string)
    requires Inv(s) && (id in s.sessions ==> id in s.phases)
    requires id !in s.sessions || (s.phases[id] != PhaseStarting && s.phases[id] != PhaseStopping)
    ensures WellKeyed(s, id) && ResourcesInv(s, id)
    ensures forall c :: c in s.clients ==> !OnId(s.clients[c], id)
    ensures id in s.sessions ==> Stable(s.sessions[id].state, s.phases[id], EntryOf(s, id))
    ensures id in s.table ==> ResourceFree(s, id)
  {
    assert SessionInv(s, id);
  }
}
