/**
 The session service as an object over its repository and the runtime manager
 (src/app/session_service.cpp). A ghost copy of the lifecycle machine runs
 along: whatever the methods do to the objects, the machine can do, so what is
 proved of every reachable state of the machine holds of the objects.
 */
module SessionService {
  import opened Wrappers
  import opened PropertyValues
  import opened SessionStream
  import opened Sessions
  import opened Ports
  import opened RuntimeSections
  import opened RuntimeCalls
  import opened Gr4Runtime
  import opened Lifecycle
  import opened LifecycleInvariant
  import opened LifecycleSteps
  import opened LifecycleRuns
  import opened LifecycleSafety
  import opened LifecycleProgress
  import opened RuntimeRuns

  datatype ServiceError = EmptyGraph | SessionNotFound | InvalidState | RuntimeFailed(message: string)

  /** One call into the runtime. */
  ghost predicate CallDoes(call: Call, session: Session, env: Environment, v: RuntimeView, v': RuntimeView,
                           outcome: Outcome) {
    match call
    case Prepare => PrepareCall(session, env, v, v', outcome)
    case Launch => StartCall(session, env, v, v', outcome)
    case Halt => (v', outcome) == StopCall(env, v, session.id)
    case Destroy => (v', outcome) == DestroyCall(env, v, session.id)
  }

  /** Calls made in order until one throws. */
  ghost predicate CallsDo(calls: seq<Call>, session: Session, env: Environment, v: RuntimeView, v': RuntimeView,
                          outcome: Outcome)
    decreases |calls|
  {
    if calls == [] then v' == v && outcome == Returned
    else exists v1, first :: (
      && CallDoes(calls[0], session, env, v, v1, first)
      && if first == Threw then v' == v1 && outcome == Threw
         else CallsDo(calls[1..], session, env, v1, v', outcome))
  }

  lemma OneMoreCall(call: Call, rest: seq<Call>, session: Session, env: Environment,
                    v: RuntimeView, v1: RuntimeView, first: Outcome, v': RuntimeView, outcome: Outcome)
    requires CallDoes(call, session, env, v, v1, first)
    requires if first == Threw then v' == v1 && outcome == Threw else CallsDo(rest, session, env, v1, v', outcome)
    ensures CallsDo([call] + rest, session, env, v, v', outcome)
  {
    var calls := [call] + rest;
    assert calls[0] == call && calls[1..] == rest;
    assert CallDoes(calls[0], session, env, v, v1, first);
  }

  lemma OnlyCall(call: Call, session: Session, env: Environment, v: RuntimeView, v': RuntimeView, outcome: Outcome)
    requires CallDoes(call, session, env, v, v', outcome)
    ensures CallsDo([call], session, env, v, v', outcome)
  {
    OneMoreCall(call, [], session, env, v, v', outcome, v', outcome);
    assert [call] + [] == [call];
  }

  lemma SingleCall(call: Call, session: Session, env: Environment, v: RuntimeView, v': RuntimeView, outcome: Outcome)
    requires CallsDo([call], session, env, v, v', outcome)
    ensures CallDoes(call, session, env, v, v', outcome)
  {
    hide CallDoes;
    assert [call][1..] == [];
  }

  /** The first of several calls, and what the others do after it. */
  lemma FirstCall(calls: seq<Call>, session: Session, env: Environment,
                  v: RuntimeView, v': RuntimeView, outcome: Outcome)
    returns (v1: RuntimeView, first: Outcome)
    requires calls != [] && CallsDo(calls, session, env, v, v', outcome)
    ensures CallDoes(calls[0], session, env, v, v1, first)
    ensures if first == Threw then v' == v1 && outcome == Threw
            else CallsDo(calls[1..], session, env, v1, v', outcome)
  {
    hide CallDoes;
    v1, first :| CallDoes(calls[0], session, env, v, v1, first)
      && if first == Threw then v' == v1 && outcome == Threw else CallsDo(calls[1..], session, env, v1, v', outcome);
  }

  lemma {:induction false} CallsJoin(calls: seq<Call>, rest: seq<Call>, session: Session, env: Environment,
                                     v: RuntimeView, v1: RuntimeView, first: Outcome, v': RuntimeView, outcome: Outcome)
    requires CallsDo(calls, session, env, v, v1, first)
    requires if first == Threw then v' == v1 && outcome == Threw else CallsDo(rest, session, env, v1, v', outcome)
    ensures CallsDo(calls + rest, session, env, v, v', outcome)
    decreases |calls|
  {
    hide CallDoes;
    if calls == [] {
      assert calls + rest == rest;
    } else {
      var v2, second := FirstCall(calls, session, env, v, v1, first);
      hide CallsDo;
      if second == Returned {
        CallsJoin(calls[1..], rest, session, env, v2, v1, first, v', outcome);
      }
      OneMoreCall(calls[0], calls[1..] + rest, session, env, v, v2, second, v', outcome);
      assert [calls[0]] + (calls[1..] + rest) == calls + rest;
    }
  }

  /** The calls that take a session's runtime down, in remove and in restart. */
  function TeardownCalls(session: Session): seq<Call> {
    if session.state == Running then [Halt, Destroy] else [Destroy]
  }

  lemma CallsOfOperations(session: Session)
    ensures CallsOf(Op.Start, session) == [Prepare, Launch] && CallsOf(Op.Stop, session) == [Halt]
    ensures CallsOf(Op.Restart, session) == TeardownCalls(session) + [Prepare, Launch]
    ensures CallsOf(Op.Remove, session) == TeardownCalls(session)
  {
  }

  datatype ServiceView = ServiceView(sessions: map<string, Session>, phases: map<string, Phase>, runtime: RuntimeView)

  /** The record a failed operation stores. */
  function Failed(session: Session, now: int, message: string): Session {
    session.(state := Error, lastError := Some(message), updatedAt := now)
  }

  /** The record a successful start, stop or restart stores, with the state and phase it ends in. */
  function Committed(session: Session, state: SessionState, now: int): Session {
    session.(state := state, lastError := None, updatedAt := now)
  }

  function CommittedAs(op: Op): (SessionState, Phase)
    requires op != Op.Remove
  {
    if op == Op.Stop then (Stopped, PhaseIdle) else (Running, PhaseRunning)
  }

  /**
   What an operation does, uninterrupted: nothing if it is refused; otherwise
   its runtime calls in order until one throws, and then the commit, or the
   record of the failure.
   */
  ghost predicate OperationDoes(op: Op, id: string, env: Environment, now: int, message: string,
                                v: ServiceView, v': ServiceView, error: Option<ServiceError>)
  {
    match Judge(v.sessions, v.phases, op, id)
    case NotFound => v' == v && error == Some(SessionNotFound)
    case Refused => v' == v && error == Some(InvalidState)
    case AlreadyStopped => v' == v && error == None
    case Granted => GrantedDoes(op, v.sessions[id], env, now, message, v, v', error)
  }

  ghost predicate GrantedDoes(op: Op, session: Session, env: Environment, now: int, message: string,
                              v: ServiceView, v': ServiceView, error: Option<ServiceError>)
  {
    var id := session.id;
    if error.Some? then
      && error == Some(RuntimeFailed(message))
      && CallsDo(CallsOf(op, session), session, env, v.runtime, v'.runtime, Threw)
      && v'.sessions == v.sessions[id := Failed(session, now, message)] && v'.phases == v.phases[id := PhaseFailed]
    else
      && CallsDo(CallsOf(op, session), session, env, v.runtime, v'.runtime, Returned)
      && if op == Op.Remove then v'.sessions == v.sessions - {id} && v'.phases == v.phases - {id}
         else
           var (state, phase) := CommittedAs(op);
           v'.sessions == v.sessions[id := Committed(session, state, now)] && v'.phases == v.phases[id := phase]
  }

  /** The failure branch, from the phases as the claim left them. */
  lemma FailureConcludes(op: Op, session: Session, env: Environment, now: int, message: string,
                         v: ServiceView, claimed: map<string, Phase>, v': ServiceView)
    requires CallsDo(CallsOf(op, session), session, env, v.runtime, v'.runtime, Threw)
    requires v'.sessions == v.sessions[session.id := Failed(session, now, message)]
    requires claimed - {session.id} == v.phases - {session.id} && v'.phases == claimed[session.id := PhaseFailed]
    ensures GrantedDoes(op, session, env, now, message, v, v', Some(RuntimeFailed(message)))
  {
    SameButOne(claimed, v.phases, session.id, PhaseFailed);
  }

  lemma SameButOne(a: map<string, Phase>, b: map<string, Phase>, id: string, phase: Phase)
    requires a - {id} == b - {id}
    ensures a[id := phase] == b[id := phase]
  {
    assert a[id := phase] == (a - {id})[id := phase];
    assert b[id := phase] == (b - {id})[id := phase];
  }

  /** The commit of start, restart and stop. */
  lemma CommitConcludes(op: Op, session: Session, env: Environment, now: int, message: string,
                        v: ServiceView, claimed: map<string, Phase>, v': ServiceView)
    requires op != Op.Remove && CallsDo(CallsOf(op, session), session, env, v.runtime, v'.runtime, Returned)
    requires v'.sessions == v.sessions[session.id := Committed(session, CommittedAs(op).0, now)]
    requires v'.phases == claimed[session.id := CommittedAs(op).1]
    requires claimed - {session.id} == v.phases - {session.id}
    ensures GrantedDoes(op, session, env, now, message, v, v', None)
  {
    SameButOne(claimed, v.phases, session.id, PhaseIdle);
    SameButOne(claimed, v.phases, session.id, PhaseRunning);
  }

  /** The commit of remove. */
  lemma RemovalConcludes(session: Session, env: Environment, now: int, message: string,
                         v: ServiceView, claimed: map<string, Phase>, v': ServiceView)
    requires CallsDo(CallsOf(Op.Remove, session), session, env, v.runtime, v'.runtime, Returned)
    requires v'.sessions == v.sessions - {session.id} && v'.phases == claimed - {session.id} == v.phases - {session.id}
    ensures GrantedDoes(Op.Remove, session, env, now, message, v, v', None)
  {
  }

  // ------------------------------------------------------------ no wedging

  /** The runtime holds no execution and no bindings for this session. */
  predicate HoldsNothing(v: RuntimeView, id: string) {
    id in v.table ==> v.table[id].execution.None? && v.table[id].bindings == [] && v.table[id].phase == PhaseIdle
  }

  /** The ports in the bindings the runtime holds for a session. */
  function PortsHeld(v: RuntimeView, id: string): set<nat> {
    if id in v.table then PortSet(v.table[id].bindings) else {}
  }

  /** The ports of the session are free, and nothing else is different about ports. */
  predicate GivesBackPorts(v: RuntimeView, v': RuntimeView, id: string) {
    v'.ports == v.ports - PortsHeld(v, id) && v'.leaked == v.leaked
  }

  /** The runtime has a scheduler of this session running, even if it refused to stop before. */
  predicate SchedulerRuns(v: RuntimeView, id: string) {
    id in v.table && v.table[id].execution.Some? && v.table[id].execution.value.running
  }

  lemma HaltReturnsIff(session: Session, env: Environment, v: RuntimeView, v': RuntimeView, outcome: Outcome)
    requires session.id in v.table ==> v.table[session.id].phase != PhaseStopping
    requires CallDoes(Halt, session, env, v, v', outcome)
    ensures outcome == Returned <==> (SchedulerRuns(v, session.id) ==> env.stops)
    ensures outcome == Returned ==>
      HoldsNothing(v', session.id) && GivesBackPorts(v, v', session.id) && PortsHeld(v', session.id) == {}
  {
  }

  lemma DestroyReturnsIff(session: Session, env: Environment, v: RuntimeView, v': RuntimeView, outcome: Outcome)
    requires session.id in v.table ==> v.table[session.id].phase != PhaseStopping
    requires CallDoes(Destroy, session, env, v, v', outcome)
    ensures outcome == Returned <==> (SchedulerRuns(v, session.id) ==> env.stops)
    ensures outcome == Returned ==> session.id !in v'.table && GivesBackPorts(v, v', session.id)
  {
  }

  /** Taking a session's runtime down, as remove and restart do it. */
  lemma TeardownReturnsIff(session: Session, env: Environment, v: RuntimeView, v': RuntimeView, outcome: Outcome)
    requires session.id in v.table ==> v.table[session.id].phase != PhaseStopping
    requires CallsDo(TeardownCalls(session), session, env, v, v', outcome)
    ensures outcome == Returned <==> (SchedulerRuns(v, session.id) ==> env.stops)
    ensures outcome == Returned ==> session.id !in v'.table && GivesBackPorts(v, v', session.id)
  {
    var calls := TeardownCalls(session);
    hide CallDoes;
    var v1, first := FirstCall(calls, session, env, v, v', outcome);
    if calls == [Destroy] {
      SingleCall(Destroy, session, env, v, v', outcome);
      DestroyReturnsIff(session, env, v, v', outcome);
    } else {
      HaltReturnsIff(session, env, v, v1, first);
      if first == Returned {
        assert calls[1..] == [Destroy];
        SingleCall(Destroy, session, env, v1, v', outcome);
        DestroyReturnsIff(session, env, v1, v', outcome);
      }
    }
  }

  lemma QuietSession(s: State, id: string)
    requires Reachable(s) && !InFlight(s, id) && id in s.sessions
    ensures s.sessions[id].id == id && (id in ViewOf(s).table ==> ViewOf(s).table[id].phase != PhaseStopping)
    ensures Judge(s.sessions, s.phases, Op.Remove, id) == Granted
    ensures Judge(s.sessions, s.phases, Op.Stop, id) == Granted
      || (Judge(s.sessions, s.phases, Op.Stop, id) == AlreadyStopped && HoldsNothing(ViewOf(s), id)
          && PortsHeld(ViewOf(s), id) == {})
  {
    ReachableInv(s);
    assert SessionInv(s, id);
    TeardownIsGranted(s, id);
    if id in s.table {
      assert ResourceFree(s, id);
    }
  }

  /**
   Whatever came before and whatever is in flight on other sessions, when stop
   and remove run uninterrupted they succeed exactly if a scheduler that still
   runs lets itself be stopped. Then the runtime holds nothing for the session,
   and exactly the ports it held are free.
   */
  lemma TeardownSucceedsIff(s: State, op: Op, id: string, env: Environment, now: int, message: string,
                            v': ServiceView, error: Option<ServiceError>)
    requires Reachable(s) && !InFlight(s, id) && id in s.sessions && TearsDown(op)
    requires OperationDoes(op, id, env, now, message, ServiceView(s.sessions, s.phases, ViewOf(s)), v', error)
    ensures error == None <==> (SchedulerRuns(ViewOf(s), id) ==> env.stops)
    ensures error == None ==> HoldsNothing(v'.runtime, id) && GivesBackPorts(ViewOf(s), v'.runtime, id)
    ensures error == None && op == Op.Remove ==> id !in v'.sessions && id !in v'.phases && id !in v'.runtime.table
  {
    QuietSession(s, id);
    hide Reachable, InFlight, CallsDo, ViewOf;
    if Judge(s.sessions, s.phases, op, id) == Granted {
      var session, outcome := s.sessions[id], if error.Some? then Threw else Returned;
      if op == Op.Stop {
        SingleCall(Halt, session, env, ViewOf(s), v'.runtime, outcome);
        HaltReturnsIff(session, env, ViewOf(s), v'.runtime, outcome);
      } else {
        TeardownReturnsIff(session, env, ViewOf(s), v'.runtime, outcome);
      }
    }
  }

  function ErrorOf<T>(result: Result<T, ServiceError>): Option<ServiceError> {
    if result.Ok? then None else Some(result.error)
  }

  lemma {:induction false} FreeNumber(taken: set<ClientId>) returns (c: ClientId)
    ensures forall d :: d in taken ==> d < c
    decreases taken
  {
    if taken == {} {
      c := 0;
    } else {
      var d :| d in taken;
      var c' := FreeNumber(taken - {d});
      c := if d < c' then c' else d + 1;
      assert forall e :: e in taken ==> e == d || e in taken - {d};
    }
  }

  lemma LeftAfterwards(clients: map<ClientId, Client>, c: ClientId, client: Client)
    ensures clients[c := client] - {c} == clients - {c}
  {
  }

  lemma ClaimStep(s: State, c: ClientId, op: Op, id: string) returns (next: State)
    requires Reachable(s) && c !in s.clients && Judge(s.sessions, s.phases, op, id) == Granted
    ensures Reachable(next) && Runs(s, next) && ViewOf(next) == ViewOf(s) && s.sessions[id].id == id
    ensures next.sessions == s.sessions && next.phases == s.phases[id := ClaimedPhase(op)]
    ensures next.clients == s.clients[c := Lifecycle(op, s.sessions[id], CallsOf(op, s.sessions[id]), Entering)]
  {
    ReachableInv(s);
    assert SessionInv(s, id);
    RunsStep(s, Claim(c, op, id));
    next := DoClaim(s, c, op, id);
    ReachesOn(s, next);
  }

  /** Another operation is under way. */
  predicate Busy(phase: Phase) {
    phase == PhaseStarting || phase == PhaseStopping
  }

  class SessionService {
    const repository: InMemorySessionRepository
    const runtime: Gr4RuntimeManager
    var phases: map<string, Phase>
    ghost var model: State

    constructor ()
      ensures Valid() && fresh(repository) && fresh(runtime) && fresh(runtime.allocator)
      ensures repository.sessions == map[] && runtime.resources == map[]
    {
      repository := new InMemorySessionRepository();
      runtime := new Gr4RuntimeManager();
      phases := map[];
      model := INITIAL;
      new;
      RunsNowhere(INITIAL);
      assert ViewOf(INITIAL).table == map[];
    }

    /** The machine's copy shows what the objects hold. */
    ghost predicate Represents()
      reads this, repository, runtime, runtime.allocator, runtime.resources.Values
    {
      && runtime.Valid() && repository.sessions == model.sessions && phases == model.phases
      && runtime.View() == ViewOf(model)
    }

    /** Holds whenever nobody is inside a locked block or a runtime call; any number of operations may be under way. */
    ghost predicate Valid()
      reads this, repository, runtime, runtime.allocator, runtime.resources.Values
    {
      Represents() && Reachable(model)
    }

    /** This operation, which found the machine's copy at `origin`, is under way, between two of its steps. */
    ghost predicate Working(origin: State, c: ClientId, client: Client)
      reads this, repository, runtime, runtime.allocator, runtime.resources.Values
    {
      Valid() && Runs(origin, model) && c in model.clients && model.clients[c] == client && client.Lifecycle?
    }

    // -------------------------------------------------------- locked blocks

    method LoadOrThrow(id: string) returns (result: Result<Session, ServiceError>)
      ensures result == if id in repository.sessions then Ok(repository.sessions[id]) else Err(SessionNotFound)
    {
      var session := repository.Get(id);
      result := if session.Some? then Ok(session.value) else Err(SessionNotFound);
    }

    /** What the first locked block of an operation may do: decide, and if it grants the claim, take the phase. */
    ghost predicate Claimed(op: Op, id: string, before: map<string, Phase>, result: Result<Session, ServiceError>)
      reads this`phases, repository
    {
      match Judge(repository.sessions, before, op, id)
      case NotFound => result == Err(SessionNotFound) && phases == before
      case Refused => result == Err(InvalidState) && phases == before
      case AlreadyStopped => result == Ok(repository.sessions[id]) && phases == before
      case Granted => result == Ok(repository.sessions[id]) && phases == before[id := ClaimedPhase(op)]
    }

    method ClaimStart(id: string) returns (result: Result<Session, ServiceError>)
      modifies this`phases
      ensures Claimed(Op.Start, id, old(phases), result)
      ensures result == Err(SessionNotFound) <==> id !in repository.sessions
      ensures result == Err(InvalidState) <==>
        && id in repository.sessions
        && var session, phase := repository.sessions[id], PhaseFor(old(phases), repository.sessions[id]);
           session.state == Running || phase == PhaseRunning || Busy(phase)
    {
      result := LoadOrThrow(id);
      if result.Err? {
        return;
      }
      var phase := PhaseFor(phases, result.value);
      if result.value.state == Running || phase == PhaseRunning {
        return Err(InvalidState);
      }
      if phase == PhaseStarting {
        return Err(InvalidState);
      }
      if phase == PhaseStopping {
        return Err(InvalidState);
      }
      phases := phases[id := PhaseStarting];
    }

    method ClaimStop(id: string) returns (result: Result<Session, ServiceError>, finished: bool)
      modifies this`phases
      ensures Claimed(Op.Stop, id, old(phases), result)
      ensures result == Err(SessionNotFound) <==> id !in repository.sessions
      ensures result == Err(InvalidState) <==>
        id in repository.sessions && Busy(PhaseFor(old(phases), repository.sessions[id]))
      ensures finished <==> Judge(repository.sessions, old(phases), Op.Stop, id) == AlreadyStopped
    {
      finished := false;
      result := LoadOrThrow(id);
      if result.Err? {
        return;
      }
      var phase := PhaseFor(phases, result.value);
      if phase == PhaseStopping {
        return Err(InvalidState), false;
      }
      if phase == PhaseStarting {
        return Err(InvalidState), false;
      }
      if result.value.state == Stopped && phase == PhaseIdle {
        return result, true;
      }
      phases := phases[id := PhaseStopping];
    }

    method ClaimRestart(id: string) returns (result: Result<Session, ServiceError>)
      modifies this`phases
      ensures Claimed(Op.Restart, id, old(phases), result)
      ensures result == Err(SessionNotFound) <==> id !in repository.sessions
      ensures result == Err(InvalidState) <==>
        id in repository.sessions && Busy(PhaseFor(old(phases), repository.sessions[id]))
    {
      result := LoadOrThrow(id);
      if result.Err? {
        return;
      }
      var phase := PhaseFor(phases, result.value);
      if phase == PhaseStopping {
        return Err(InvalidState);
      }
      if phase == PhaseStarting {
        return Err(InvalidState);
      }
      phases := phases[id := PhaseStarting];
    }

    method ClaimRemove(id: string) returns (result: Result<Session, ServiceError>)
      modifies this`phases
      ensures Claimed(Op.Remove, id, old(phases), result)
      ensures result == Err(SessionNotFound) <==> id !in repository.sessions
      ensures result == Err(InvalidState) <==>
        id in repository.sessions && Busy(PhaseFor(old(phases), repository.sessions[id]))
    {
      result := LoadOrThrow(id);
      if result.Err? {
        return;
      }
      var phase := PhaseFor(phases, result.value);
      if phase == PhaseStopping {
        return Err(InvalidState);
      }
      if phase == PhaseStarting {
        return Err(InvalidState);
      }
      phases := phases[id := PhaseStopping];
    }

    method StoreSessionLocked(session: Session, phase: Phase)
      modifies this`phases, repository
      ensures repository.sessions ==
        if session.id in old(repository.sessions) then old(repository.sessions)[session.id := session]
        else old(repository.sessions)
      ensures phases == old(phases)[session.id := phase]
    {
      var updated := repository.Update(session);
      phases := phases[session.id := phase];
    }

    // ------------------------------------------------ the machine's own steps

    /** The machine's copy takes the claim the object has taken, as a client of its own. */
    ghost method Began(op: Op, id: string) returns (c: ClientId)
      requires Reachable(model) && runtime.Valid()
      requires repository.sessions == model.sessions && runtime.View() == ViewOf(model)
      requires Judge(model.sessions, model.phases, op, id) == Granted && phases == model.phases[id := ClaimedPhase(op)]
      modifies this`model
      ensures var session := repository.sessions[id];
        Working(old(model), c, Lifecycle(op, session, CallsOf(op, session), Entering))
      ensures c !in old(model.clients) && model.clients - {c} == old(model.clients)
      ensures repository.sessions[id].id == id
    {
      hide Reachable, Runs, ViewOf, Gr4RuntimeManager.View, CallsOf;
      c := FreeNumber(model.clients.Keys);
      model := ClaimStep(model, c, op, id);
    }

    lemma WorkingSession(origin: State, c: ClientId, client: Client)
      requires Working(origin, c, client)
      ensures Inv(model) && client.session.id in repository.sessions
      ensures repository.sessions[client.session.id] == client.session && client.session.id in phases
    {
      ReachableInv(model);
      Here(model, c);
    }

    /** The client stands before this runtime call. */
    ghost predicate Before(call: Call, session: Session, client: Client) {
      && client.Lifecycle? && client.session == session && client.at.Entering?
      && client.calls != [] && client.calls[0] == call
    }

    /** The machine's copy follows a call the objects have made. */
    ghost method Follow(next: State, origin: State, c: ClientId, client: Client, outcome: Outcome)
      requires Reachable(model) && Runs(origin, model) && InCall(model, c) && model.clients[c] == client
      requires CallRuns(model, next, c, runtime.View(), outcome)
      requires runtime.Valid() && repository.sessions == model.sessions && phases == model.phases
      modifies this`model
      ensures Working(origin, c, AfterCall(client, outcome))
      ensures model.clients == old(model.clients)[c := AfterCall(client, outcome)]
    {
      RunsOn(origin, model, next);
      ReachesOn(model, next);
      model := next;
    }

    method CallPrepare(session: Session, env: Environment,
                       ghost origin: State, ghost c: ClientId, ghost client: Client)
      returns (outcome: Outcome)
      requires Working(origin, c, client) && Before(Prepare, session, client)
      modifies this`model, runtime, runtime.allocator, runtime.resources.Values
      ensures fresh(runtime.resources.Values - old(runtime.resources.Values))
      ensures Working(origin, c, AfterCall(client, outcome))
      ensures model.clients == old(model.clients)[c := AfterCall(client, outcome)]
      ensures CallDoes(Prepare, session, env, old(runtime.View()), runtime.View(), outcome)
    {
      hide Reachable, Runs, Inv, ViewOf, Gr4RuntimeManager.View, PrepareCall, StartCall, StopCall, DestroyCall;
      WorkingSession(origin, c, client);
      outcome := runtime.Prepare(session, env);
      ghost var next := PrepareCallRuns(model, c, env, runtime.View(), outcome);
      Follow(next, origin, c, client, outcome);
    }

    method CallStart(session: Session, env: Environment,
                     ghost origin: State, ghost c: ClientId, ghost client: Client)
      returns (outcome: Outcome)
      requires Working(origin, c, client) && Before(Launch, session, client)
      modifies this`model, runtime, runtime.allocator, runtime.resources.Values
      ensures fresh(runtime.resources.Values - old(runtime.resources.Values))
      ensures Working(origin, c, AfterCall(client, outcome))
      ensures model.clients == old(model.clients)[c := AfterCall(client, outcome)]
      ensures CallDoes(Launch, session, env, old(runtime.View()), runtime.View(), outcome)
    {
      hide Reachable, Runs, Inv, ViewOf, Gr4RuntimeManager.View, PrepareCall, StartCall, StopCall, DestroyCall;
      WorkingSession(origin, c, client);
      outcome := runtime.Start(session, env);
      ghost var next := StartCallRuns(model, c, env, runtime.View(), outcome);
      Follow(next, origin, c, client, outcome);
    }

    method CallStop(session: Session, env: Environment,
                    ghost origin: State, ghost c: ClientId, ghost client: Client)
      returns (outcome: Outcome)
      requires Working(origin, c, client) && Before(Halt, session, client)
      modifies this`model, runtime, runtime.allocator, runtime.resources.Values
      ensures fresh(runtime.resources.Values - old(runtime.resources.Values))
      ensures Working(origin, c, AfterCall(client, outcome))
      ensures model.clients == old(model.clients)[c := AfterCall(client, outcome)]
      ensures CallDoes(Halt, session, env, old(runtime.View()), runtime.View(), outcome)
    {
      hide Reachable, Runs, Inv, ViewOf, Gr4RuntimeManager.View, PrepareCall, StartCall, StopCall, DestroyCall;
      WorkingSession(origin, c, client);
      outcome := runtime.Stop(session.id, env);
      ghost var next := StopCallRuns(model, c, env);
      Follow(next, origin, c, client, outcome);
    }

    method CallDestroy(session: Session, env: Environment,
                       ghost origin: State, ghost c: ClientId, ghost client: Client)
      returns (outcome: Outcome)
      requires Working(origin, c, client) && Before(Destroy, session, client)
      modifies this`model, runtime, runtime.allocator, runtime.resources.Values
      ensures fresh(runtime.resources.Values - old(runtime.resources.Values))
      ensures Working(origin, c, AfterCall(client, outcome))
      ensures model.clients == old(model.clients)[c := AfterCall(client, outcome)]
      ensures CallDoes(Destroy, session, env, old(runtime.View()), runtime.View(), outcome)
    {
      hide Reachable, Runs, Inv, ViewOf, Gr4RuntimeManager.View, PrepareCall, StartCall, StopCall, DestroyCall;
      WorkingSession(origin, c, client);
      outcome := runtime.Destroy(session.id, env);
      ghost var next := DestroyCallRuns(model, c, env);
      Follow(next, origin, c, client, outcome);
    }

    // ------------------------------------------------------ last locked blocks

    method RecordRuntimeFailure(id: string, message: string, now: int,
                                ghost origin: State, ghost c: ClientId, ghost client: Client)
      returns (error: ServiceError)
      requires Working(origin, c, client) && client.session.id == id && client.at.Failing?
      modifies this`model, this`phases, repository
      ensures Valid() && Runs(origin, model) && error == RuntimeFailed(message)
      ensures model.clients == old(model.clients) - {c}
      ensures runtime.View() == old(runtime.View()) && runtime.resources == old(runtime.resources)
      ensures phases == old(phases)[id := PhaseFailed]
      ensures repository.sessions ==
        old(repository.sessions)[id := Failed(client.session, now, message)]
    {
      hide Reachable, Runs, Inv, ViewOf, Gr4RuntimeManager.View;
      WorkingSession(origin, c, client);
      ghost var next := FailureStep(origin, c, client, now, message);
      var found := LoadOrThrow(id);
      var session := found.value.(state := Error, lastError := Some(message), updatedAt := now);
      StoreSessionLocked(session, PhaseFailed);
      model := next;
      return RuntimeFailed(message);
    }

    lemma FailureStep(origin: State, c: ClientId, client: Client, now: int, message: string) returns (next: State)
      requires Working(origin, c, client) && client.at.Failing? && client.session.id in repository.sessions
      ensures next == DoRecordFailure(model, c, now, message) && next.clients == model.clients - {c}
      ensures Runs(origin, next) && Reachable(next) && ViewOf(next) == ViewOf(model)
    {
      RunsStep(model, RecordFailure(c, now, message));
      next := DoRecordFailure(model, c, now, message);
      RunsOn(origin, model, next);
      ReachesOn(model, next);
    }

    lemma CommitStep(origin: State, c: ClientId, client: Client, now: int) returns (next: State)
      requires Working(origin, c, client) && client.calls == [] && client.at.Entering?
      requires client.session.id in repository.sessions
      ensures next == DoCommit(model, c, now) && next.clients == model.clients - {c}
      ensures Runs(origin, next) && Reachable(next) && ViewOf(next) == ViewOf(model)
    {
      RunsStep(model, Commit(c, now));
      next := DoCommit(model, c, now);
      RunsOn(origin, model, next);
      ReachesOn(model, next);
    }

    /** The commit of start, restart and stop. */
    method CommitState(id: string, state: SessionState, phase: Phase, now: int,
                       ghost origin: State, ghost c: ClientId, ghost client: Client)
      returns (session: Session)
      requires Working(origin, c, client) && client.session.id == id && client.calls == [] && client.at.Entering?
      requires client.op != Op.Remove && (state, phase) == CommittedAs(client.op)
      modifies this`model, this`phases, repository
      ensures Valid() && Runs(origin, model)
      ensures model.clients == old(model.clients) - {c}
      ensures session == Committed(client.session, state, now)
      ensures phases == old(phases)[id := phase] && repository.sessions == old(repository.sessions)[id := session]
    {
      hide Reachable, Runs, Inv, ViewOf, Gr4RuntimeManager.View;
      WorkingSession(origin, c, client);
      ghost var next := CommitStep(origin, c, client, now);
      var found := LoadOrThrow(id);
      session := found.value.(state := state, lastError := None, updatedAt := now);
      StoreSessionLocked(session, phase);
      model := next;
    }

    method CommitRemoval(id: string, ghost now: int,
                         ghost origin: State, ghost c: ClientId, ghost client: Client)
      returns (removed: bool)
      requires Working(origin, c, client) && client.session.id == id && client.op == Op.Remove
      requires client.calls == [] && client.at.Entering?
      modifies this`model, this`phases, repository
      ensures Valid() && Runs(origin, model) && removed
      ensures model.clients == old(model.clients) - {c}
      ensures runtime.View() == old(runtime.View()) && runtime.resources == old(runtime.resources)
      ensures phases == old(phases) - {id} && repository.sessions == old(repository.sessions) - {id}
    {
      hide Reachable, Runs, Inv, ViewOf, Gr4RuntimeManager.View;
      WorkingSession(origin, c, client);
      ghost var next := CommitStep(origin, c, client, now);
      removed := repository.Remove(id);
      if removed {
        phases := phases - {id};
        model := next;
      }
    }

    /** What follows the `try` of start, stop and restart. */
    method Conclude(session: Session, outcome: Outcome, state: SessionState, phase: Phase, now: int, message: string,
                    ghost origin: State, ghost c: ClientId, ghost client: Client)
      returns (result: Result<Session, ServiceError>)
      requires Working(origin, c, client) && client.Lifecycle? && client.session == session
      requires if outcome == Threw then client.at.Failing? else client.calls == [] && client.at.Entering?
      requires client.op != Op.Remove && (state, phase) == CommittedAs(client.op)
      modifies this`model, this`phases, repository
      ensures Valid() && Runs(origin, model)
      ensures model.clients == old(model.clients) - {c}
      ensures runtime.View() == old(runtime.View()) && runtime.resources == old(runtime.resources)
      ensures outcome == Threw ==>
        && result == Err(RuntimeFailed(message)) && phases == old(phases)[session.id := PhaseFailed]
        && repository.sessions == old(repository.sessions)[session.id := Failed(session, now, message)]
      ensures outcome == Returned ==>
        && result == Ok(Committed(session, state, now)) && phases == old(phases)[session.id := phase]
        && repository.sessions == old(repository.sessions)[session.id := Committed(session, state, now)]
    {
      hide Reachable, Runs, Inv, Working, Valid;
      if outcome == Threw {
        var error := RecordRuntimeFailure(session.id, message, now, origin, c, client);
        return Err(error);
      }
      var committed := CommitState(session.id, state, phase, now, origin, c, client);
      return Ok(committed);
    }

    // -------------------------------------------------------------- operations

    ghost function View(): ServiceView
      reads this, repository, runtime, runtime.allocator, runtime.resources.Values
    {
      ServiceView(repository.sessions, phases, runtime.View())
    }

    /** The tail of start, stop and restart, seen from the service before the operation began. */
    method Settle(session: Session, outcome: Outcome, state: SessionState, phase: Phase, now: int, message: string,
                  ghost env: Environment, ghost origin: State, ghost c: ClientId, ghost client: Client,
                  ghost before: ServiceView)
      returns (result: Result<Session, ServiceError>)
      requires Working(origin, c, client) && client.Lifecycle? && client.session == session
      requires if outcome == Threw then client.at.Failing? else client.calls == [] && client.at.Entering?
      requires client.op != Op.Remove && (state, phase) == CommittedAs(client.op)
      requires CallsDo(CallsOf(client.op, session), session, env, before.runtime, runtime.View(), outcome)
      requires repository.sessions == before.sessions && phases - {session.id} == before.phases - {session.id}
      modifies this`model, this`phases, repository
      ensures Valid() && Runs(origin, model)
      ensures model.clients == old(model.clients) - {c}
      ensures runtime.resources == old(runtime.resources)
      ensures GrantedDoes(client.op, session, env, now, message, before, View(), ErrorOf(result))
      ensures result.Ok? ==> session.id in repository.sessions && result.value == repository.sessions[session.id]
    {
      hide Reachable, Runs, Inv, Working, Valid, CallDoes, CallsDo, CallsOf, Gr4RuntimeManager.View, Represents;
      hide GrantedDoes;
      ghost var claimed := phases;
      result := Conclude(session, outcome, state, phase, now, message, origin, c, client);
      if outcome == Threw {
        FailureConcludes(client.op, session, env, now, message, before, claimed, View());
      } else {
        CommitConcludes(client.op, session, env, now, message, before, claimed, View());
      }
    }

    /** The tail of remove. */
    method SettleRemoval(session: Session, outcome: Outcome, now: int, message: string,
                         ghost env: Environment, ghost origin: State, ghost c: ClientId, ghost client: Client,
                         ghost before: ServiceView)
      returns (result: Result<(), ServiceError>)
      requires Working(origin, c, client) && client.Lifecycle? && client.session == session && client.op == Op.Remove
      requires if outcome == Threw then client.at.Failing? else client.calls == [] && client.at.Entering?
      requires CallsDo(CallsOf(Op.Remove, session), session, env, before.runtime, runtime.View(), outcome)
      requires repository.sessions == before.sessions && phases - {session.id} == before.phases - {session.id}
      modifies this`model, this`phases, repository
      ensures Valid() && Runs(origin, model)
      ensures model.clients == old(model.clients) - {c}
      ensures runtime.resources == old(runtime.resources)
      ensures GrantedDoes(Op.Remove, session, env, now, message, before, View(), ErrorOf(result))
    {
      hide Reachable, Runs, Inv, Working, Valid, CallDoes, CallsDo, CallsOf, Gr4RuntimeManager.View, Represents;
      hide GrantedDoes;
      ghost var claimed := phases;
      if outcome == Threw {
        var error := RecordRuntimeFailure(session.id, message, now, origin, c, client);
        result := Err(error);
        FailureConcludes(Op.Remove, session, env, now, message, before, claimed, View());
      } else {
        var removed := CommitRemoval(session.id, now, origin, c, client);
        result := if removed then Ok(()) else Err(SessionNotFound);
        RemovalConcludes(session, env, now, message, before, claimed, View());
      }
    }

    /** The `try` of start, and the tail of the one of restart. */
    method AttemptStart(session: Session, env: Environment,
                        ghost origin: State, ghost c: ClientId, ghost client: Client)
      returns (outcome: Outcome, ghost client': Client)
      requires Working(origin, c, client) && client.Lifecycle? && client.session == session && client.at.Entering?
      requires client.calls == [Prepare, Launch]
      modifies this`model, runtime, runtime.allocator, runtime.resources.Values
      ensures fresh(runtime.resources.Values - old(runtime.resources.Values))
      ensures Working(origin, c, client')
      ensures model.clients == old(model.clients)[c := client']
      ensures client'.Lifecycle? && client'.session == session && client'.op == client.op
      ensures outcome == Threw ==> client'.at.Failing?
      ensures outcome == Returned ==> client'.calls == [] && client'.at.Entering?
      ensures CallsDo([Prepare, Launch], session, env, old(runtime.View()), runtime.View(), outcome)
    {
      hide Reachable, Runs, Inv, Working, CallDoes, CallsDo, Gr4RuntimeManager.View;
      ghost var v := runtime.View();
      outcome := CallPrepare(session, env, origin, c, client);
      ghost var v1, first := runtime.View(), outcome;
      client' := AfterCall(client, first);
      if outcome == Returned {
        outcome := CallStart(session, env, origin, c, client');
        client' := AfterCall(client', outcome);
        OnlyCall(Launch, session, env, v1, runtime.View(), outcome);
      }
      OneMoreCall(Prepare, [Launch], session, env, v, v1, first, runtime.View(), outcome);
      assert [Prepare] + [Launch] == [Prepare, Launch];
    }

    /** The view while the first locked block runs: only the phases can differ. */
    twostate lemma OnlyPhasesDiffer()
      requires unchanged(this`model, repository, runtime, runtime.allocator)
      requires forall id :: id in runtime.resources ==> unchanged(runtime.resources[id])
      ensures View() == old(View()).(phases := phases)
    {
      assert runtime.View().table == old(runtime.View()).table;
    }

    method FinishStart(session: Session, env: Environment, now: int, message: string,
                       ghost origin: State, ghost c: ClientId, ghost before: map<string, Phase>)
      returns (result: Result<Session, ServiceError>)
      requires Working(origin, c, Lifecycle(Op.Start, session, [Prepare, Launch], Entering))
      requires phases == before[session.id := PhaseStarting]
      modifies this, repository, runtime, runtime.allocator, runtime.resources.Values
      ensures Valid() && Runs(origin, model)
      ensures model.clients == old(model.clients) - {c}
      ensures fresh(runtime.resources.Values - old(runtime.resources.Values))
      ensures GrantedDoes(Op.Start, session, env, now, message, old(View()).(phases := before), View(), ErrorOf(result))
      ensures result.Ok? ==> session.id in repository.sessions && result.value == repository.sessions[session.id]
    {
      hide Reachable, Runs, Inv, Working, Valid, CallDoes, CallsDo, CallsOf, Gr4RuntimeManager.View, Represents;
      hide GrantedDoes, TeardownCalls;
      ghost var s, before' := model, View().(phases := before);
      CallsOfOperations(session);
      var outcome, client :=
        AttemptStart(session, env, origin, c, Lifecycle(Op.Start, session, [Prepare, Launch], Entering));
      LeftAfterwards(s.clients, c, client);
      result := Settle(session, outcome, Running, PhaseRunning, now, message, env, origin, c, client, before');
    }

    method Start(id: string, env: Environment, now: int, message: string)
      returns (result: Result<Session, ServiceError>)
      requires Valid()
      modifies this, repository, runtime, runtime.allocator, runtime.resources.Values
      ensures Valid() && Runs(old(model), model)
      ensures model.clients == old(model.clients)
      ensures fresh(runtime.resources.Values - old(runtime.resources.Values))
      ensures OperationDoes(Op.Start, id, env, now, message, old(View()), View(), ErrorOf(result))
      ensures result.Ok? ==> id in repository.sessions && result.value == repository.sessions[id]
    {
      hide Reachable, Runs, Inv, ViewOf, CallsDo, GrantedDoes, Gr4RuntimeManager.View;
      ghost var s := model;
      RunsNowhere(s);
      result := ClaimStart(id);
      OnlyPhasesDiffer();
      if result.Err? {
        return;
      }
      ghost var c := Began(Op.Start, id);
      result := FinishStart(result.value, env, now, message, s, c, old(phases));
    }

    /** The `try` of stop. */
    method AttemptStop(session: Session, env: Environment, ghost origin: State, ghost c: ClientId, ghost client: Client)
      returns (outcome: Outcome, ghost client': Client)
      requires Working(origin, c, client) && client.Lifecycle? && client.session == session && client.at.Entering?
      requires client.calls == [Halt]
      modifies this`model, runtime, runtime.allocator, runtime.resources.Values
      ensures fresh(runtime.resources.Values - old(runtime.resources.Values))
      ensures Working(origin, c, client')
      ensures model.clients == old(model.clients)[c := client']
      ensures client'.Lifecycle? && client'.session == session && client'.op == client.op
      ensures outcome == Threw ==> client'.at.Failing?
      ensures outcome == Returned ==> client'.calls == [] && client'.at.Entering?
      ensures CallsDo([Halt], session, env, old(runtime.View()), runtime.View(), outcome)
    {
      hide Reachable, Runs, Inv, Working, CallDoes, CallsDo, Gr4RuntimeManager.View;
      ghost var v := runtime.View();
      outcome := CallStop(session, env, origin, c, client);
      client' := AfterCall(client, outcome);
      OnlyCall(Halt, session, env, v, runtime.View(), outcome);
    }

    method FinishStop(session: Session, env: Environment, now: int, message: string,
                      ghost origin: State, ghost c: ClientId, ghost before: map<string, Phase>)
      returns (result: Result<Session, ServiceError>)
      requires Working(origin, c, Lifecycle(Op.Stop, session, [Halt], Entering))
      requires phases == before[session.id := PhaseStopping]
      modifies this, repository, runtime, runtime.allocator, runtime.resources.Values
      ensures Valid() && Runs(origin, model)
      ensures model.clients == old(model.clients) - {c}
      ensures fresh(runtime.resources.Values - old(runtime.resources.Values))
      ensures GrantedDoes(Op.Stop, session, env, now, message, old(View()).(phases := before), View(), ErrorOf(result))
      ensures result.Ok? ==> session.id in repository.sessions && result.value == repository.sessions[session.id]
    {
      hide Reachable, Runs, Inv, Working, Valid, CallDoes, CallsDo, CallsOf, Gr4RuntimeManager.View, Represents;
      hide GrantedDoes, TeardownCalls;
      ghost var s, before' := model, View().(phases := before);
      CallsOfOperations(session);
      var outcome, client := AttemptStop(session, env, origin, c, Lifecycle(Op.Stop, session, [Halt], Entering));
      LeftAfterwards(s.clients, c, client);
      result := Settle(session, outcome, Stopped, PhaseIdle, now, message, env, origin, c, client, before');
    }

    method Stop(id: string, env: Environment, now: int, message: string) returns (result: Result<Session, ServiceError>)
      requires Valid()
      modifies this, repository, runtime, runtime.allocator, runtime.resources.Values
      ensures Valid() && Runs(old(model), model)
      ensures model.clients == old(model.clients)
      ensures fresh(runtime.resources.Values - old(runtime.resources.Values))
      ensures OperationDoes(Op.Stop, id, env, now, message, old(View()), View(), ErrorOf(result))
      ensures result.Ok? ==> id in repository.sessions && result.value == repository.sessions[id]
    {
      hide Reachable, Runs, Inv, ViewOf, CallsDo, GrantedDoes, Gr4RuntimeManager.View;
      ghost var s := model;
      RunsNowhere(s);
      var finished;
      result, finished := ClaimStop(id);
      OnlyPhasesDiffer();
      if result.Err? || finished {
        return;
      }
      ghost var c := Began(Op.Stop, id);
      result := FinishStop(result.value, env, now, message, s, c, old(phases));
    }

    /** The `try` of remove, and the head of the one of restart. */
    method AttemptTeardown(session: Session, env: Environment, ghost rest: seq<Call>,
                           ghost origin: State, ghost c: ClientId, ghost client: Client)
      returns (outcome: Outcome, ghost client': Client)
      requires Working(origin, c, client) && client.Lifecycle? && client.session == session && client.at.Entering?
      requires client.calls == TeardownCalls(session) + rest
      modifies this`model, runtime, runtime.allocator, runtime.resources.Values
      ensures fresh(runtime.resources.Values - old(runtime.resources.Values))
      ensures Working(origin, c, client')
      ensures model.clients == old(model.clients)[c := client']
      ensures client'.Lifecycle? && client'.session == session && client'.op == client.op
      ensures outcome == Threw ==> client'.at.Failing?
      ensures outcome == Returned ==> client'.calls == rest && client'.at.Entering?
      ensures CallsDo(TeardownCalls(session), session, env, old(runtime.View()), runtime.View(), outcome)
    {
      hide Reachable, Runs, Inv, Working, CallDoes, CallsDo, Gr4RuntimeManager.View;
      ghost var v := runtime.View();
      client' := client;
      if session.state == Running {
        outcome := CallStop(session, env, origin, c, client');
        client' := AfterCall(client', outcome);
        if outcome == Threw {
          OneMoreCall(Halt, [Destroy], session, env, v, runtime.View(), outcome, runtime.View(), outcome);
          assert [Halt] + [Destroy] == TeardownCalls(session);
          return;
        }
        assert client'.calls == [Destroy] + rest;
      }
      ghost var v1 := runtime.View();
      outcome := CallDestroy(session, env, origin, c, client');
      client' := AfterCall(client', outcome);
      OnlyCall(Destroy, session, env, v1, runtime.View(), outcome);
      if session.state == Running {
        OneMoreCall(Halt, [Destroy], session, env, v, v1, Returned, runtime.View(), outcome);
        assert [Halt] + [Destroy] == TeardownCalls(session);
      }
    }

    method FinishRemove(session: Session, env: Environment, now: int, message: string,
                        ghost origin: State, ghost c: ClientId, ghost before: map<string, Phase>)
      returns (result: Result<(), ServiceError>)
      requires Working(origin, c, Lifecycle(Op.Remove, session, TeardownCalls(session), Entering))
      requires phases == before[session.id := PhaseStopping]
      modifies this, repository, runtime, runtime.allocator, runtime.resources.Values
      ensures Valid() && Runs(origin, model)
      ensures model.clients == old(model.clients) - {c}
      ensures fresh(runtime.resources.Values - old(runtime.resources.Values))
      ensures GrantedDoes(Op.Remove, session, env, now, message, old(View()).(phases := before), View(),
                          ErrorOf(result))
    {
      hide Reachable, Runs, Inv, Working, Valid, CallDoes, CallsDo, CallsOf, Gr4RuntimeManager.View, Represents;
      hide GrantedDoes, TeardownCalls;
      ghost var s, before' := model, View().(phases := before);
      CallsOfOperations(session);
      var outcome, client :=
        AttemptTeardown(session, env, [], origin, c, Lifecycle(Op.Remove, session, TeardownCalls(session), Entering));
      LeftAfterwards(s.clients, c, client);
      result := SettleRemoval(session, outcome, now, message, env, origin, c, client, before');
    }

    method Remove(id: string, env: Environment, now: int, message: string) returns (result: Result<(), ServiceError>)
      requires Valid()
      modifies this, repository, runtime, runtime.allocator, runtime.resources.Values
      ensures Valid() && Runs(old(model), model)
      ensures model.clients == old(model.clients)
      ensures fresh(runtime.resources.Values - old(runtime.resources.Values))
      ensures OperationDoes(Op.Remove, id, env, now, message, old(View()), View(), ErrorOf(result))
    {
      hide Reachable, Runs, Inv, ViewOf, CallsDo, GrantedDoes, Gr4RuntimeManager.View;
      ghost var s := model;
      RunsNowhere(s);
      var claimed := ClaimRemove(id);
      OnlyPhasesDiffer();
      if claimed.Err? {
        return Err(claimed.error);
      }
      ghost var c := Began(Op.Remove, id);
      result := FinishRemove(claimed.value, env, now, message, s, c, old(phases));
    }

    /** The `try` of restart. */
    method AttemptRestart(session: Session, env: Environment,
                          ghost origin: State, ghost c: ClientId, ghost client: Client)
      returns (outcome: Outcome, ghost client': Client)
      requires Working(origin, c, client) && client.Lifecycle? && client.session == session && client.at.Entering?
      requires client.calls == TeardownCalls(session) + [Prepare, Launch]
      modifies this`model, runtime, runtime.allocator, runtime.resources.Values
      ensures fresh(runtime.resources.Values - old(runtime.resources.Values))
      ensures Working(origin, c, client')
      ensures model.clients == old(model.clients)[c := client']
      ensures client'.Lifecycle? && client'.session == session && client'.op == client.op
      ensures outcome == Threw ==> client'.at.Failing?
      ensures outcome == Returned ==> client'.calls == [] && client'.at.Entering?
      ensures CallsDo(TeardownCalls(session) + [Prepare, Launch], session, env, old(runtime.View()), runtime.View(),
                      outcome)
    {
      hide Reachable, Runs, Inv, Working, CallDoes, CallsDo, Gr4RuntimeManager.View;
      ghost var v := runtime.View();
      outcome, client' := AttemptTeardown(session, env, [Prepare, Launch], origin, c, client);
      ghost var v1, first := runtime.View(), outcome;
      if outcome == Returned {
        outcome, client' := AttemptStart(session, env, origin, c, client');
      }
      CallsJoin(TeardownCalls(session), [Prepare, Launch], session, env, v, v1, first, runtime.View(), outcome);
    }

    method FinishRestart(session: Session, env: Environment, now: int, message: string,
                         ghost origin: State, ghost c: ClientId, ghost before: map<string, Phase>)
      returns (result: Result<Session, ServiceError>)
      requires Working(origin, c, Lifecycle(Op.Restart, session, TeardownCalls(session) + [Prepare, Launch], Entering))
      requires phases == before[session.id := PhaseStarting]
      modifies this, repository, runtime, runtime.allocator, runtime.resources.Values
      ensures Valid() && Runs(origin, model)
      ensures model.clients == old(model.clients) - {c}
      ensures fresh(runtime.resources.Values - old(runtime.resources.Values))
      ensures GrantedDoes(Op.Restart, session, env, now, message, old(View()).(phases := before), View(),
                          ErrorOf(result))
      ensures result.Ok? ==> session.id in repository.sessions && result.value == repository.sessions[session.id]
    {
      hide Reachable, Runs, Inv, Working, Valid, CallDoes, CallsDo, CallsOf, Gr4RuntimeManager.View, Represents;
      hide GrantedDoes, TeardownCalls;
      ghost var s, before' := model, View().(phases := before);
      CallsOfOperations(session);
      ghost var calls := TeardownCalls(session) + [Prepare, Launch];
      var outcome, client := AttemptRestart(session, env, origin, c, Lifecycle(Op.Restart, session, calls, Entering));
      LeftAfterwards(s.clients, c, client);
      result := Settle(session, outcome, Running, PhaseRunning, now, message, env, origin, c, client, before');
    }

    method Restart(id: string, env: Environment, now: int, message: string)
      returns (result: Result<Session, ServiceError>)
      requires Valid()
      modifies this, repository, runtime, runtime.allocator, runtime.resources.Values
      ensures Valid() && Runs(old(model), model)
      ensures model.clients == old(model.clients)
      ensures fresh(runtime.resources.Values - old(runtime.resources.Values))
      ensures OperationDoes(Op.Restart, id, env, now, message, old(View()), View(), ErrorOf(result))
      ensures result.Ok? ==> id in repository.sessions && result.value == repository.sessions[id]
    {
      hide Reachable, Runs, Inv, ViewOf, CallsDo, GrantedDoes, Gr4RuntimeManager.View;
      ghost var s := model;
      RunsNowhere(s);
      result := ClaimRestart(id);
      OnlyPhasesDiffer();
      if result.Err? {
        return;
      }
      ghost var c := Began(Op.Restart, id);
      assert CallsOf(Op.Restart, result.value) == TeardownCalls(result.value) + [Prepare, Launch];
      result := FinishRestart(result.value, env, now, message, s, c, old(phases));
    }

    /** The generator is asked again until it names no stored session. */
    method Create(name: string, grc: Document, schedulerAlias: Option<string>, ids: nat -> string, now: int)
      returns (result: Result<Session, ServiceError>)
      requires Valid() && exists k: nat :: ids(k) !in repository.sessions
      modifies this, repository
      ensures Valid() && Runs(old(model), model)
      ensures model.clients == old(model.clients)
      ensures grc.text == "" ==> result == Err(EmptyGraph) && View() == old(View())
      ensures grc.text != "" ==>
        && result.Ok? && result.value.id !in old(repository.sessions)
        && result.value == Session(result.value.id, name, grc, schedulerAlias, Stopped, None, now, now)
        && repository.sessions == old(repository.sessions)[result.value.id := result.value]
        && phases == old(phases)[result.value.id := PhaseIdle] && runtime.View() == old(runtime.View())
    {
      hide Reachable, Runs, Inv, ViewOf, Gr4RuntimeManager.View;
      RunsNowhere(model);
      if grc.text == "" {
        return Err(EmptyGraph);
      }
      ghost var unused: nat :| ids(unused) !in repository.sessions;
      var attempt: nat := 0;
      var taken := repository.Get(ids(attempt));
      while taken.Some?
        invariant attempt <= unused && (taken.Some? <==> ids(attempt) in repository.sessions)
        decreases unused - attempt
        modifies {}
      {
        attempt := attempt + 1;
        taken := repository.Get(ids(attempt));
      }
      var session := Session(ids(attempt), name, grc, schedulerAlias, Stopped, None, now, now);
      ghost var next := CreateStep(session, now);
      var created := repository.Create(session);
      phases := phases[session.id := PhaseIdle];
      model := next;
      return Ok(session);
    }

    lemma CreateStep(session: Session, now: int) returns (next: State)
      requires Valid() && session.id !in repository.sessions && session.grc.text != ""
      requires session.state == Stopped && session.lastError == None && session.createdAt == session.updatedAt == now
      ensures Runs(model, next) && Reachable(next) && ViewOf(next) == ViewOf(model) && next.clients == model.clients
      ensures next.sessions == model.sessions[session.id := session]
      ensures next.phases == model.phases[session.id := PhaseIdle]
    {
      var action := Action.Create(session.id, session.name, session.grc, session.schedulerAlias, now);
      RunsStep(model, action);
      next := DoCreate(model, session.id, session.name, session.grc, session.schedulerAlias, now);
      ReachesOn(model, next);
    }

    // ----------------------------------------------------------------- lookups

    /** What both lookups test of a session before they ask the runtime. */
    predicate ShowsRunning(id: string)
      reads this`phases, repository
    {
      && id in repository.sessions && repository.sessions[id].state == Running
      && PhaseFor(phases, repository.sessions[id]) == PhaseRunning
    }

    /** The record adds nothing to the phase: a session shows running exactly in phase Running. */
    lemma ShowsRunningIff(id: string)
      requires Valid()
      ensures ShowsRunning(id) <==> id in phases && phases[id] == PhaseRunning
    {
      ReachableInv(model);
      assert SessionInv(model, id);
      if id in model.sessions {
        LayersAgree(model, id);
      }
    }

    lemma RunningResource(id: string)
      requires Valid() && ShowsRunning(id)
      ensures id in phases && phases[id] == PhaseRunning
      ensures id in model.table && model.table[id] in model.heap
      ensures id in runtime.View().table && runtime.View().table[id] == model.heap[model.table[id]]
      ensures IsRunning(runtime.View().table[id])
    {
      LayersAgree(model, id);
      ReachableInv(model);
      assert SessionInv(model, id);
    }

    /** A running session answers with the plan derived from its stored graph; any other with none. */
    method ActiveStreamPlan(id: string) returns (result: Result<Option<seq<StreamPlan>>, ServiceError>)
      requires Valid()
      ensures id !in repository.sessions ==> result == Err(SessionNotFound)
      ensures id in repository.sessions ==>
        && id in phases
        && result == Ok(if phases[id] == PhaseRunning then DerivedPlan(id, repository.sessions[id].grc) else None)
    {
      ShowsRunningIff(id);
      LayersAgreeHere(id);
      var loaded := LoadOrThrow(id);
      if loaded.Err? {
        return Err(loaded.error);
      }
      if loaded.value.state != Running || PhaseFor(phases, loaded.value) != PhaseRunning {
        return Ok(None);
      }
      RunningResource(id);
      RunningSessionShowsItsPlan(model, id);
      var plan := runtime.ActiveStreamPlan(id);
      return Ok(plan);
    }

    /** A stream of a running session is found exactly when its graph asks for it; the port is then allocated. */
    method ResolveStream(id: string, streamId: string, webSocket: bool, message: string)
      returns (result: Result<InternalBinding, ServiceError>)
      requires Valid()
      ensures id in repository.sessions ==> id in phases
      ensures result == Err(SessionNotFound) <==> id !in repository.sessions
      ensures result == Err(InvalidState) <==> id in repository.sessions && phases[id] != PhaseRunning
      ensures result.Ok? <==>
        && id in repository.sessions && phases[id] == PhaseRunning
        && Asks(repository.sessions[id], streamId, webSocket)
      ensures result.Ok? ==>
        && id in runtime.resources && ServesAt(result.value, webSocket)
        && ServedBy(runtime.resources[id].bindings, streamId, webSocket, result.value)
        && result.value.port in runtime.allocator.allocatedPorts && result.value.port !in runtime.leaked
    {
      ShowsRunningIff(id);
      LayersAgreeHere(id);
      var loaded := LoadOrThrow(id);
      if loaded.Err? {
        return Err(loaded.error);
      }
      if loaded.value.state != Running || PhaseFor(phases, loaded.value) != PhaseRunning {
        return Err(InvalidState);
      }
      RunningResource(id);
      RunningSessionRoutes(model, id, streamId, webSocket);
      RouteIsServed(runtime.View().table[id], streamId, webSocket);
      assert runtime.View().table[id] == runtime.resources[id].View();
      var found := runtime.FindStream(id, streamId, webSocket);
      result := if found.Ok? then Ok(found.value) else Err(RuntimeFailed(message));
    }

    // ------------------------------------------------------------ consequences

    /**
     The stored sessions, the phases and the runtime objects agree on every
     session on which no operation is under way, whatever is on others.
     */
    lemma LayersAgreeHere(id: string)
      requires Valid()
      ensures id in runtime.resources ==> id in repository.sessions
      ensures id in phases <==> id in repository.sessions
      ensures id in repository.sessions ==>
        match phases[id]
        case PhaseRunning =>
          repository.sessions[id].state == Running && id in runtime.resources && IsRunning(runtime.resources[id].View())
        case PhaseIdle =>
          && repository.sessions[id].state == Stopped
          && (id in runtime.resources ==> runtime.resources[id].execution.None? && runtime.resources[id].bindings == [])
        case PhaseFailed =>
          && repository.sessions[id].state == Error
          && (id in runtime.resources ==> runtime.resources[id].phase != PhaseRunning)
        case _ => InFlight(model, id)
    {
      OneOperationPerSession(model, id);
      if id in repository.sessions {
        LayersAgree(model, id);
      }
      ReachableInv(model);
      assert SessionInv(model, id);
      assert id in runtime.resources <==> id in runtime.View().table;
      assert id in runtime.resources ==> runtime.View().table[id] == runtime.resources[id].View();
    }
  }
}
