/**
 How each operation of the service ends, said on the phase of the session and
 on the records: when it is refused, what it stores, and what it leaves alone
 (src/app/session_service.cpp).
 */
module SessionVerdicts {
  import opened Wrappers
  import opened PropertyValues
  import opened SessionStream
  import opened Sessions
  import opened RuntimeSections
  import opened RuntimeCalls
  import opened Lifecycle
  import opened LifecycleInvariant
  import opened LifecycleSteps
  import opened RuntimeRuns
  import opened SessionService

  function ViewAt(s: State): ServiceView {
    ServiceView(s.sessions, s.phases, ViewOf(s))
  }

  /** The phases in which an operation is refused. */
  predicate RefusedIn(op: Op, phase: Phase) {
    phase == PhaseStarting || phase == PhaseStopping || (op == Op.Start && phase == PhaseRunning)
  }

  /** Nothing is known of the id: the operation says so and does nothing, and says so in no other case. */
  lemma UnknownSessionIff(s: State, op: Op, id: string, env: Environment, now: int, message: string,
                          v': ServiceView, error: Option<ServiceError>)
    requires OperationDoes(op, id, env, now, message, ViewAt(s), v', error)
    ensures error == Some(SessionNotFound) <==> id !in s.sessions
    ensures error == Some(SessionNotFound) ==> v' == ViewAt(s)
  {
    hide CallsDo;
  }

  /** What the phase of a stored session says of its record, operations in flight included. */
  lemma PhaseOfStored(s: State, id: string)
    requires Reachable(s) && id in s.sessions
    ensures id in s.phases && s.sessions[id].id == id
    ensures s.phases[id] == PhaseIdle ==> s.sessions[id].state == Stopped
    ensures s.phases[id] == PhaseFailed ==> s.sessions[id].state == Error
    ensures s.sessions[id].state == SessionState.Running ==>
      s.phases[id] == PhaseRunning || s.phases[id] == PhaseStarting || s.phases[id] == PhaseStopping
  {
    ReachableInv(s);
    assert SessionInv(s, id);
    if s.phases[id] != PhaseStarting && s.phases[id] != PhaseStopping {
      NothingInFlight(s, id);
    }
  }

  /**
   A stored session refuses stop, restart and remove exactly while another
   operation is under way, and start also while it runs; a refused operation
   does nothing.
   */
  lemma RefusedIff(s: State, op: Op, id: string, env: Environment, now: int, message: string,
                   v': ServiceView, error: Option<ServiceError>)
    requires Reachable(s) && id in s.sessions && OperationDoes(op, id, env, now, message, ViewAt(s), v', error)
    ensures id in s.phases
    ensures error == Some(InvalidState) <==> RefusedIn(op, s.phases[id])
    ensures error == Some(InvalidState) ==> v' == ViewAt(s)
  {
    PhaseOfStored(s, id);
    hide Reachable, CallsDo;
  }

  /** Stopping a session that is stopped does nothing, and succeeds. */
  lemma StopOfStopped(s: State, id: string, env: Environment, now: int, message: string,
                      v': ServiceView, error: Option<ServiceError>)
    requires Reachable(s) && id in s.sessions && id in s.phases && s.phases[id] == PhaseIdle
    requires OperationDoes(Op.Stop, id, env, now, message, ViewAt(s), v', error)
    ensures error == None && v' == ViewAt(s)
  {
    PhaseOfStored(s, id);
    hide Reachable, CallsDo;
  }

  /** The records and phases after an operation that was let through: those of other sessions are as they were. */
  predicate Recorded(op: Op, id: string, now: int, message: string, v: ServiceView, v': ServiceView,
                     error: Option<ServiceError>)
    requires id in v.sessions
  {
    var session := v.sessions[id];
    match error
    case Some(_) =>
      && error == Some(RuntimeFailed(message)) && v'.phases == v.phases[id := PhaseFailed]
      && v'.sessions == v.sessions[id :=
           Session(id, session.name, session.grc, session.schedulerAlias, Error, Some(message), session.createdAt, now)]
    case None =>
      if op == Op.Remove then v'.sessions == v.sessions - {id} && v'.phases == v.phases - {id}
      else
        var (state, phase) := if op == Op.Stop then (Stopped, PhaseIdle) else (SessionState.Running, PhaseRunning);
        && v'.phases == v.phases[id := phase]
        && v'.sessions == v.sessions[id :=
             Session(id, session.name, session.grc, session.schedulerAlias, state, None, session.createdAt, now)]
  }

  /**
   Every operation that is let through leaves its outcome in the record and the
   phase of its session: Error with the message if the runtime threw, else the
   state it was asked for. Records, phases and runtime entries of other sessions
   stay as they were.
   */
  lemma OutcomeRecorded(s: State, op: Op, id: string, env: Environment, now: int, message: string,
                        v': ServiceView, error: Option<ServiceError>)
    requires Reachable(s) && id in s.sessions && OperationDoes(op, id, env, now, message, ViewAt(s), v', error)
    requires id in s.phases && !RefusedIn(op, s.phases[id]) && !(op == Op.Stop && s.phases[id] == PhaseIdle)
    ensures Recorded(op, id, now, message, ViewAt(s), v', error)
    ensures v'.runtime.table - {id} == ViewOf(s).table - {id}
  {
    PhaseOfStored(s, id);
    var session, outcome := s.sessions[id], if error.Some? then Threw else Returned;
    OthersKept(CallsOf(op, session), session, env, ViewOf(s), v'.runtime, outcome);
  }

  lemma OneCallKeepsOthers(call: Call, session: Session, env: Environment,
                           v: RuntimeView, v': RuntimeView, outcome: Outcome)
    requires CallDoes(call, session, env, v, v', outcome)
    ensures v'.table - {session.id} == v.table - {session.id}
  {
    hide Prepares, Starts, StopResult;
    forall after: Section ensures WithSection(v, session.id, after).table - {session.id} == v.table - {session.id} {
    }
  }

  lemma {:induction false} OthersKept(calls: seq<Call>, session: Session, env: Environment,
                                      v: RuntimeView, v': RuntimeView, outcome: Outcome)
    requires CallsDo(calls, session, env, v, v', outcome)
    ensures v'.table - {session.id} == v.table - {session.id}
    decreases |calls|
  {
    hide CallDoes;
    if calls != [] {
      var v1, first := FirstCall(calls, session, env, v, v', outcome);
      OneCallKeepsOthers(calls[0], session, env, v, v1, first);
      if first == Returned {
        OthersKept(calls[1..], session, env, v1, v', outcome);
      }
    }
  }
}
