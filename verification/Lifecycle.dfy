/**
 The session lifecycle as a machine over its critical sections. Any number of
 clients run `start`, `stop`, `restart` and `remove` (src/app/session_service.cpp)
 and stream lookups on any number of sessions; between two critical sections of
 one client, any sections of others may run. What the scheduler, the operating
 system and the clock decide comes with the action.
 */
module Lifecycle {
  import opened Wrappers
  import opened PropertyValues
  import opened SessionStream
  import opened GraphRewrite
  import opened Sessions
  import opened Ports
  import opened RuntimeSections

  /** Identity of a runtime resource object; several clients may hold a pointer to one. */
  type Ref = nat
  type ClientId = nat

  datatype Op = Start | Stop | Restart | Remove

  /** A call into the runtime manager. */
  datatype Call = Prepare | Launch | Halt | Destroy

  /** Where a client stands inside its current runtime call. */
  datatype Point =
    | Entering                                                            // about to look the resource up
    | Found(ref: Ref)                                                     // holds the pointer, not its mutex
    | Allocating(ref: Ref, todo: seq<StreamPlan>, got: seq<StreamBinding>)  // prepare: taking ports
    | Unwinding(ref: Ref, left: seq<StreamBinding>)                       // prepare: giving ports back after a failure
    | AtLaunch(ref: Ref)                                                  // about to start the scheduler
    | AtHalt(ref: Ref)                                                    // about to stop the scheduler
    | Draining(ref: Ref, left: seq<StreamBinding>)                        // stop: releasing stream bindings
    | Erasing(ref: Ref)                                                   // destroy: between its two sections
    | Failing                                                             // an exception is on its way to the service

  datatype Client =
    | Lifecycle(op: Op, session: Session, calls: seq<Call>, at: Point)
    | Reader(session: Session, found: Option<Ref>)

  datatype State = State(
    sessions: map<string, Session>,     // the repository
    phases: map<string, Phase>,         // SessionService::phases_
    table: map<string, Ref>,            // Gr4RuntimeManager::resources_
    heap: map<Ref, Resource>,           // the resource objects the pointers lead to
    nextRef: Ref,
    ports: set<nat>,                    // StreamBindingAllocator::allocated_ports_
    leaked: set<nat>,                   // ports no one will give back; history only
    clients: map<ClientId, Client>)     // operations in flight

  const INITIAL := State(map[], map[], map[], map[], 0, {}, {}, map[])

  datatype Action =
    | Create(id: string, name: string, grc: Document, schedulerAlias: Option<string>, now: int)
    | Claim(c: ClientId, op: Op, id: string)
    | Lookup(c: ClientId)
    | Enter(c: ClientId, environmentReady: bool)
    | Allocate(c: ClientId, port: nat)
    | AllocateFails(c: ClientId)
    | Build(c: ClientId, graph: GraphText)
    | BuildFails(c: ClientId)
    | Unwind(c: ClientId)
    | LaunchScheduler(c: ClientId, ok: bool)
    | HaltScheduler(c: ClientId, ok: bool)
    | Drain(c: ClientId)
    | Erase(c: ClientId)
    | Commit(c: ClientId, now: int)
    | RecordFailure(c: ClientId, now: int, message: string)
    | ReadClaim(c: ClientId, id: string)
    | ReadLookup(c: ClientId)
    | ReadSection(c: ClientId)

  // ---------------------------------------------------------------- service

  function PhaseOfState(state: SessionState): Phase {
    match state
    case Stopped => PhaseIdle
    case Running => PhaseRunning
    case Error => PhaseFailed
  }

  /** `phase_for_locked`. */
  function PhaseFor(phases: map<string, Phase>, session: Session): Phase {
    if session.id in phases then phases[session.id] else PhaseOfState(session.state)
  }

  datatype Verdict = NotFound | Refused | AlreadyStopped | Granted

  /** The decision each operation takes under the service lock before it touches the runtime. */
  function Judge(sessions: map<string, Session>, phases: map<string, Phase>, op: Op, id: string): Verdict {
    if id !in sessions then NotFound
    else
      var session := sessions[id];
      var phase := PhaseFor(phases, session);
      match op
      case Start =>
        if session.state == Running || phase == PhaseRunning || phase == PhaseStarting || phase == PhaseStopping
        then Refused else Granted
      case Stop =>
        if phase == PhaseStopping || phase == PhaseStarting then Refused
        else if session.state == Stopped && phase == PhaseIdle then AlreadyStopped
        else Granted
      case Restart =>
        if phase == PhaseStopping || phase == PhaseStarting then Refused else Granted
      case Remove =>
        if phase == PhaseStopping || phase == PhaseStarting then Refused else Granted
  }

  function ClaimedPhase(op: Op): Phase {
    if op == Start || op == Restart then PhaseStarting else PhaseStopping
  }

  /** The runtime calls an operation makes, in order, given the session it loaded. */
  function CallsOf(op: Op, session: Session): seq<Call> {
    match op
    case Start => [Prepare, Launch]
    case Stop => [Halt]
    case Restart => if session.state == Running then [Halt, Destroy, Prepare, Launch] else [Destroy, Prepare, Launch]
    case Remove => if session.state == Running then [Halt, Destroy] else [Destroy]
  }

  // ---------------------------------------------------------------- mutexes

  /** The client is inside a section that holds the mutex of this resource. */
  predicate Holds(client: Client, ref: Ref) {
    client.Lifecycle? &&
    match client.at
    case Allocating(r, _, _) => r == ref
    case Unwinding(r, _) => r == ref
    case AtLaunch(r) => r == ref
    case AtHalt(r) => r == ref
    case Draining(r, _) => r == ref
    case _ => false
  }

  ghost predicate MutexFree(s: State, ref: Ref) {
    forall c :: c in s.clients ==> !Holds(s.clients[c], ref)
  }

  // ------------------------------------------------------------ enabledness

  predicate InCall(s: State, c: ClientId) {
    c in s.clients && s.clients[c].Lifecycle? && s.clients[c].calls != []
  }

  ghost predicate Enabled(s: State, action: Action) {
    match action
    case Create(id, _, grc, _, _) => id !in s.sessions && grc.text != ""
    case Claim(c, _, _) => c !in s.clients
    case Lookup(c) => InCall(s, c) && s.clients[c].at.Entering?
    case Enter(c, _) =>
      InCall(s, c) && s.clients[c].at.Found? && s.clients[c].at.ref in s.heap && MutexFree(s, s.clients[c].at.ref)
    case Allocate(c, port) =>
      InCall(s, c) && s.clients[c].at.Allocating? && s.clients[c].at.todo != [] && port !in s.ports
    case AllocateFails(c) => InCall(s, c) && s.clients[c].at.Allocating? && s.clients[c].at.todo != []
    case Build(c, graph) =>
      && InCall(s, c) && s.clients[c].at.Allocating? && s.clients[c].at.todo == [] && s.clients[c].at.ref in s.heap
      && IsLoadedGraph(s.clients[c].session.grc, s.clients[c].at.got, graph)
    case BuildFails(c) => InCall(s, c) && s.clients[c].at.Allocating? && s.clients[c].at.todo == []
    case Unwind(c) => InCall(s, c) && s.clients[c].at.Unwinding?
    case LaunchScheduler(c, _) =>
      && InCall(s, c) && s.clients[c].at.AtLaunch? && s.clients[c].at.ref in s.heap
      && s.heap[s.clients[c].at.ref].execution.Some?
    case HaltScheduler(c, _) =>
      && InCall(s, c) && s.clients[c].at.AtHalt? && s.clients[c].at.ref in s.heap
      && s.heap[s.clients[c].at.ref].execution.Some?
    case Drain(c) => InCall(s, c) && s.clients[c].at.Draining? && s.clients[c].at.ref in s.heap
    case Erase(c) => InCall(s, c) && s.clients[c].at.Erasing?
    case Commit(c, _) =>
      c in s.clients && s.clients[c].Lifecycle? && s.clients[c].calls == [] && s.clients[c].at.Entering?
    case RecordFailure(c, _, _) => c in s.clients && s.clients[c].Lifecycle? && s.clients[c].at.Failing?
    case ReadClaim(c, _) => c !in s.clients
    case ReadLookup(c) => c in s.clients && s.clients[c].Reader? && s.clients[c].found.None?
    case ReadSection(c) =>
      && c in s.clients && s.clients[c].Reader? && s.clients[c].found.Some?
      && s.clients[c].found.value in s.heap && MutexFree(s, s.clients[c].found.value)
  }

  // ---------------------------------------------------------------- effects

  function At(s: State, c: ClientId, at: Point): State
    requires c in s.clients && s.clients[c].Lifecycle?
  {
    s.(clients := s.clients[c := s.clients[c].(at := at)])
  }

  /** The current runtime call returns normally. */
  function Return(s: State, c: ClientId): State
    requires InCall(s, c)
  {
    s.(clients := s.clients[c := s.clients[c].(calls := s.clients[c].calls[1..], at := Entering)])
  }

  function Put(s: State, ref: Ref, r: Resource): State {
    s.(heap := s.heap[ref := r])
  }

  function DoCreate(s: State, id: string, name: string, grc: Document, schedulerAlias: Option<string>,
                    now: int): State {
    s.(sessions := s.sessions[id := Session(id, name, grc, schedulerAlias, Stopped, None, now, now)],
       phases := s.phases[id := PhaseIdle])
  }

  function DoClaim(s: State, c: ClientId, op: Op, id: string): State {
    if Judge(s.sessions, s.phases, op, id) == Granted then
      var session := s.sessions[id];
      s.(phases := s.phases[id := ClaimedPhase(op)],
         clients := s.clients[c := Lifecycle(op, session, CallsOf(op, session), Entering)])
    else s
  }

  /** `get_or_create_resources` for prepare and start, `find_resources` for stop and destroy. */
  function DoLookup(s: State, c: ClientId): State
    requires InCall(s, c)
  {
    var id := s.clients[c].session.id;
    if id in s.table then At(s, c, Found(s.table[id]))
    else if s.clients[c].calls[0].Halt? || s.clients[c].calls[0].Destroy? then Return(s, c)
    else At(Put(s, s.nextRef, FreshResource(id)).(table := s.table[id := s.nextRef], nextRef := s.nextRef + 1),
            c, Found(s.nextRef))
  }

  /** Start of `prepare_locked`, and of `start` up to the scheduler call. */
  ghost function DoEnterPrepare(s: State, c: ClientId, environmentReady: bool): State
    requires InCall(s, c) && s.clients[c].at.Found? && s.clients[c].at.ref in s.heap
  {
    var client, ref := s.clients[c], s.clients[c].at.ref;
    var r := s.heap[ref];
    if r.phase == PhaseStopping then At(s, c, Failing)
    else if r.execution.Some? then
      if client.calls[0].Prepare? || IsRunning(r) then Return(s, c)
      else At(Put(s, ref, Launching(r)), c, AtLaunch(ref))
    else if !ContractHolds(DocumentStreams(client.session.grc)) || !environmentReady then At(s, c, Failing)
    else
      At(Put(s, ref, r.(bindings := [])).(ports := s.ports - PortSet(r.bindings)),
         c, Allocating(ref, DerivedStreams(client.session), []))
  }

  /** Start of `stop_locked`, up to the scheduler call. */
  function DoEnterHalt(s: State, c: ClientId): State
    requires InCall(s, c) && s.clients[c].at.Found? && s.clients[c].at.ref in s.heap
  {
    var ref := s.clients[c].at.ref;
    var r := s.heap[ref];
    if r.execution.None? then At(Put(s, ref, r.(bindings := [])), c, Draining(ref, r.bindings))
    else if r.phase == PhaseStopping then At(s, c, Failing)
    else At(Put(s, ref, Halting(r)), c, AtHalt(ref))
  }

  ghost function DoEnter(s: State, c: ClientId, environmentReady: bool): State
    requires InCall(s, c) && s.clients[c].at.Found? && s.clients[c].at.ref in s.heap
  {
    if s.clients[c].calls[0].Prepare? || s.clients[c].calls[0].Launch? then DoEnterPrepare(s, c, environmentReady)
    else DoEnterHalt(s, c)
  }

  function DoAllocate(s: State, c: ClientId, port: nat): State
    requires InCall(s, c) && s.clients[c].at.Allocating? && s.clients[c].at.todo != []
  {
    var at := s.clients[c].at;
    At(s, c, Allocating(at.ref, at.todo[1..], at.got + [Bind(at.todo[0], port)])).(ports := s.ports + {port})
  }

  /** The allocation loop runs outside the `try` of prepare: what it took so far is never released. */
  function DoAllocateFails(s: State, c: ClientId): State
    requires InCall(s, c) && s.clients[c].at.Allocating?
  {
    At(s, c, Failing).(leaked := s.leaked + PortSet(s.clients[c].at.got))
  }

  function DoBuild(s: State, c: ClientId, graph: GraphText): State
    requires InCall(s, c) && s.clients[c].at.Allocating? && s.clients[c].at.ref in s.heap
  {
    var at := s.clients[c].at;
    var installed := Installed(s.heap[at.ref], graph, at.got);
    if s.clients[c].calls[0].Prepare? then Return(Put(s, at.ref, installed), c)
    else At(Put(s, at.ref, Launching(installed)), c, AtLaunch(at.ref))
  }

  function DoBuildFails(s: State, c: ClientId): State
    requires InCall(s, c) && s.clients[c].at.Allocating?
  {
    At(s, c, Unwinding(s.clients[c].at.ref, s.clients[c].at.got))
  }

  function DoUnwind(s: State, c: ClientId): State
    requires InCall(s, c) && s.clients[c].at.Unwinding?
  {
    var at := s.clients[c].at;
    if at.left == [] then At(s, c, Failing)
    else At(s, c, Unwinding(at.ref, at.left[1..])).(ports := s.ports - {at.left[0].internal.port})
  }

  function DoLaunch(s: State, c: ClientId, ok: bool): State
    requires InCall(s, c) && s.clients[c].at.AtLaunch? && s.clients[c].at.ref in s.heap
    requires s.heap[s.clients[c].at.ref].execution.Some?
  {
    var ref := s.clients[c].at.ref;
    if ok then Return(Put(s, ref, Launched(s.heap[ref])), c) else At(s, c, Failing)
  }

  /** A scheduler that is not running is not asked to stop. */
  function DoHalt(s: State, c: ClientId, ok: bool): State
    requires InCall(s, c) && s.clients[c].at.AtHalt? && s.clients[c].at.ref in s.heap
    requires s.heap[s.clients[c].at.ref].execution.Some?
  {
    var ref := s.clients[c].at.ref;
    var r := s.heap[ref];
    if r.execution.value.running && !ok then At(Put(s, ref, HaltFailed(r)), c, Failing)
    else
      var halted := r.(execution := Some(r.execution.value.(running := false)), bindings := []);
      At(Put(s, ref, halted), c, Draining(ref, r.bindings))
  }

  function DoDrain(s: State, c: ClientId): State
    requires InCall(s, c) && s.clients[c].at.Draining? && s.clients[c].at.ref in s.heap
  {
    var at := s.clients[c].at;
    if at.left != [] then
      At(s, c, Draining(at.ref, at.left[1..])).(ports := s.ports - {at.left[0].internal.port})
    else
      var idle := Put(s, at.ref, Halted(s.heap[at.ref]));
      if s.clients[c].calls[0].Destroy? then At(idle, c, Erasing(at.ref)) else Return(idle, c)
  }

  /** The second section of destroy erases the entry only if it still leads to the same object. */
  function DoErase(s: State, c: ClientId): State
    requires InCall(s, c) && s.clients[c].at.Erasing?
  {
    var id, ref := s.clients[c].session.id, s.clients[c].at.ref;
    if id in s.table && s.table[id] == ref then Return(s.(table := s.table - {id}), c) else Return(s, c)
  }

  function Leave(s: State, c: ClientId): State {
    s.(clients := s.clients - {c})
  }

  function Stored(s: State, session: Session, phase: Phase): State {
    s.(sessions := s.sessions[session.id := session], phases := s.phases[session.id := phase])
  }

  function DoCommit(s: State, c: ClientId, now: int): State
    requires c in s.clients && s.clients[c].Lifecycle?
  {
    var op, id := s.clients[c].op, s.clients[c].session.id;
    if id !in s.sessions then Leave(s, c)
    else if op == Remove then Leave(s.(sessions := s.sessions - {id}, phases := s.phases - {id}), c)
    else
      var (state, phase) := if op == Stop then (Stopped, PhaseIdle) else (Running, PhaseRunning);
      Leave(Stored(s, s.sessions[id].(state := state, lastError := None, updatedAt := now), phase), c)
  }

  function DoRecordFailure(s: State, c: ClientId, now: int, message: string): State
    requires c in s.clients && s.clients[c].Lifecycle?
  {
    var id := s.clients[c].session.id;
    if id !in s.sessions then Leave(s, c)
    else
      Leave(Stored(s, s.sessions[id].(state := Error, lastError := Some(message), updatedAt := now), PhaseFailed), c)
  }

  function DoReadClaim(s: State, c: ClientId, id: string): State {
    if id in s.sessions && s.sessions[id].state == Running && PhaseFor(s.phases, s.sessions[id]) == PhaseRunning
    then s.(clients := s.clients[c := Reader(s.sessions[id], None)])
    else s
  }

  function DoReadLookup(s: State, c: ClientId): State
    requires c in s.clients && s.clients[c].Reader?
  {
    var id := s.clients[c].session.id;
    if id in s.table then s.(clients := s.clients[c := s.clients[c].(found := Some(s.table[id]))]) else Leave(s, c)
  }

  ghost function Apply(s: State, action: Action): State
    requires Enabled(s, action)
  {
    match action
    case Create(id, name, grc, schedulerAlias, now) => DoCreate(s, id, name, grc, schedulerAlias, now)
    case Claim(c, op, id) => DoClaim(s, c, op, id)
    case Lookup(c) => DoLookup(s, c)
    case Enter(c, environmentReady) => DoEnter(s, c, environmentReady)
    case Allocate(c, port) => DoAllocate(s, c, port)
    case AllocateFails(c) => DoAllocateFails(s, c)
    case Build(c, graph) => DoBuild(s, c, graph)
    case BuildFails(c) => DoBuildFails(s, c)
    case Unwind(c) => DoUnwind(s, c)
    case LaunchScheduler(c, ok) => DoLaunch(s, c, ok)
    case HaltScheduler(c, ok) => DoHalt(s, c, ok)
    case Drain(c) => DoDrain(s, c)
    case Erase(c) => DoErase(s, c)
    case Commit(c, now) => DoCommit(s, c, now)
    case RecordFailure(c, now, message) => DoRecordFailure(s, c, now, message)
    case ReadClaim(c, id) => DoReadClaim(s, c, id)
    case ReadLookup(c) => DoReadLookup(s, c)
    case ReadSection(c) => Leave(s, c)
  }

  // ------------------------------------------------------------------- runs

  ghost predicate IsRun(s: State, actions: seq<Action>)
    decreases |actions|
  {
    actions == [] || (Enabled(s, actions[0]) && IsRun(Apply(s, actions[0]), actions[1..]))
  }

  ghost function After(s: State, actions: seq<Action>): State
    requires IsRun(s, actions)
    decreases |actions|
  {
    if actions == [] then s else After(Apply(s, actions[0]), actions[1..])
  }

  ghost predicate Reachable(s: State) {
    exists actions :: IsRun(INITIAL, actions) && After(INITIAL, actions) == s
  }
}
