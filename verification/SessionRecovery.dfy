/**
 Exactly when a session comes to run: what a restart of any session, and a start
 of an idle one, need from the environment and from the stored graph.
 */
module SessionRecovery {
  import opened Wrappers
  import opened PropertyValues
  import opened SessionStream
  import opened GraphRewrite
  import opened EndpointInjection
  import opened Sessions
  import opened Ports
  import opened RuntimeSections
  import opened RuntimeCalls
  import opened Lifecycle
  import opened LifecycleInvariant
  import opened LifecycleSteps
  import opened RuntimeRuns
  import opened SessionService

  // ------------------------------------------------- what the graph must meet

  /** No two planned streams are for blocks of one name, and some block bears each name. */
  ghost predicate NamesServed(grc: Document, streams: seq<StreamPlan>) {
    && (forall j, k :: 0 <= j < k < |streams| ==> streams[j].blockInstanceName != streams[k].blockInstanceName)
    && (forall k :: 0 <= k < |streams| ==> HasBlocks(grc) && NameBorne(BlocksOf(grc), streams[k].blockInstanceName))
  }

  /** What a caller can check of a stored graph to know that it gets as far as the loader. */
  ghost predicate Startable(session: Session) {
    var grc := session.grc;
    && ContractHolds(DocumentStreams(grc))
    && (grc.root.Some? ==>
          && WithRewrittenConnections(WithRewrittenBlocks(grc.root.value)).Ok?
          && NamesServed(grc, DerivedStreams(session)))
  }

  lemma NoListNoStreams(session: Session)
    requires !HasBlocks(session.grc)
    ensures DerivedStreams(session) == []
  {
  }

  /** Whether a graph rewrites does not depend on the ports its streams are bound to. */
  lemma RewritesIffNamesServed(session: Session, got: seq<StreamBinding>)
    requires session.grc.root.Some? && BindsStreams(DerivedStreams(session), got)
    ensures Rewrites(session.grc, got) <==>
      && WithRewrittenConnections(WithRewrittenBlocks(session.grc.root.value)).Ok?
      && NamesServed(session.grc, DerivedStreams(session))
  {
    hide NameBorne, DerivedPlan, WithRewrittenBlocks, WithRewrittenConnections, ContractHolds;
    var streams, root := DerivedStreams(session), session.grc.root.value;
    forall k | 0 <= k < |got|
      ensures got[k].plan.blockInstanceName == streams[k].blockInstanceName
      ensures got[k].plan.streamId == streams[k].streamId
    {
      assert got[k] == Bind(streams[k], got[k].internal.port);
    }
    if HasBlocks(session.grc) {
      DerivedStreamsDiffer(session);
      GraphLoadsIff(root, got);
    } else {
      NoListNoStreams(session);
    }
  }

  lemma DerivedStreamsDiffer(session: Session)
    ensures var streams := DerivedStreams(session);
      forall j, k :: 0 <= j < k < |streams| ==> streams[j].streamId != streams[k].streamId
  {
    if DerivedPlan(session.id, session.grc).Some? {
      PlanProperties(session.id, session.grc);
    }
  }

  // -------------------------------------------------- what the ports must meet

  /** The operating system answers so that every stream gets a port. */
  ghost predicate PortsSuffice(streams: seq<StreamPlan>, ports: set<nat>, answers: nat -> nat -> PortAnswer) {
    exists got :: Allocates(streams, ports, answers, got, false)
  }

  lemma FirstFreeIsDetermined(taken: set<nat>, answers: nat -> PortAnswer,
                              one: Result<nat, AllocationError>, other: Result<nat, AllocationError>)
    requires FirstFree(taken, answers, one) && FirstFree(taken, answers, other)
    ensures one == other
  {
  }

  /** The answers decide the ports, one stream after another. */
  lemma {:induction false} ObtainedAlike(streams: seq<StreamPlan>, ports: set<nat>, answers: nat -> nat -> PortAnswer,
                                         one: seq<StreamBinding>, other: seq<StreamBinding>, n: nat)
    requires Obtained(streams, ports, answers, one) && Obtained(streams, ports, answers, other)
    requires n <= |one| && n <= |other|
    ensures one[..n] == other[..n]
  {
    hide Obtained;
    if n > 0 {
      ObtainedAlike(streams, ports, answers, one, other, n - 1);
      NextAlike(streams, ports, answers, one, other, n - 1);
      assert one[..n] == one[..n - 1] + [one[n - 1]] && other[..n] == other[..n - 1] + [other[n - 1]];
    }
  }

  lemma NextAlike(streams: seq<StreamPlan>, ports: set<nat>, answers: nat -> nat -> PortAnswer,
                  one: seq<StreamBinding>, other: seq<StreamBinding>, n: nat)
    requires Obtained(streams, ports, answers, one) && Obtained(streams, ports, answers, other)
    requires n < |one| && n < |other| && one[..n] == other[..n]
    ensures one[n] == other[n]
  {
    hide FirstFree, Bind;
    var taken := ports + PortSet(one[..n]);
    FirstFreeIsDetermined(taken, answers(n), Ok(one[n].internal.port), Ok(other[n].internal.port));
  }

  /** An allocation that fails rules out that every stream gets a port. */
  lemma AllocationIsDecided(streams: seq<StreamPlan>, ports: set<nat>, answers: nat -> nat -> PortAnswer,
                            got: seq<StreamBinding>, failed: bool)
    requires Allocates(streams, ports, answers, got, failed)
    ensures PortsSuffice(streams, ports, answers) <==> !failed
  {
    hide FirstFree, Bind;
    if failed && PortsSuffice(streams, ports, answers) {
      var all: seq<StreamBinding> :| Allocates(streams, ports, answers, all, false);
      var error :| FirstFree(ports + PortSet(got), answers(|got|), Err(error));
      ObtainedAlike(streams, ports, answers, got, all, |got|);
      assert got[..|got|] == got;
      FirstFreeIsDetermined(ports + PortSet(got), answers(|got|), Err(error), Ok(all[|got|].internal.port));
    }
  }

  // ------------------------------------------------------------ calls in order

  /** Calls made in order can be taken apart anywhere. */
  lemma {:induction false} CallsSplit(calls: seq<Call>, rest: seq<Call>, session: Session, env: Environment,
                                      v: RuntimeView, v': RuntimeView, outcome: Outcome)
    returns (v1: RuntimeView, first: Outcome)
    requires CallsDo(calls + rest, session, env, v, v', outcome)
    ensures CallsDo(calls, session, env, v, v1, first)
    ensures if first == Threw then v' == v1 && outcome == Threw else CallsDo(rest, session, env, v1, v', outcome)
    decreases |calls|
  {
    hide CallDoes;
    if calls == [] {
      assert calls + rest == rest;
      v1, first := v, Returned;
    } else {
      assert (calls + rest)[1..] == calls[1..] + rest;
      var v2, second := FirstCall(calls + rest, session, env, v, v', outcome);
      if second == Threw {
        v1, first := v2, Threw;
      } else {
        v1, first := CallsSplit(calls[1..], rest, session, env, v2, v', outcome);
      }
      OneMoreCall(calls[0], calls[1..], session, env, v, v2, second, v1, first);
      assert [calls[0]] + calls[1..] == calls;
    }
  }

  // ------------------------------------------------------- prepare and launch

  /** The environment and the stored graph let an empty resource be prepared and launched, given these ports taken. */
  ghost predicate ComesUp(session: Session, env: Environment, ports: set<nat>) {
    && env.ready && env.loads && env.starts && Startable(session)
    && PortsSuffice(DerivedStreams(session), ports, env.answers)
  }

  /** An execution of the session's own graph, with a binding for each of its streams. */
  ghost predicate RunsItsGraph(r: Resource, session: Session) {
    IsRunning(r) && Serves(r, session)
  }

  predicate Prepared(r: Resource) {
    r.execution.Some? && !r.execution.value.running && r.phase == PhaseIdle
  }

  lemma PrepareReturnsIff(session: Session, env: Environment, before: Section, after: Section, outcome: Outcome)
    requires Vacant(before.r) && Prepares(session, env, before, after, outcome)
    ensures outcome == Returned <==>
      env.ready && env.loads && Startable(session) && PortsSuffice(DerivedStreams(session), before.ports, env.answers)
    ensures outcome == Returned ==>
      Prepared(after.r) && Serves(after.r, session)
  {
    hide DerivedStreams, Allocates, PortsSuffice, NamesServed, IsLoadedGraph, Rewrites;
    if ContractHolds(DocumentStreams(session.grc)) && env.ready {
      var cleared, streams := Cleared(before), DerivedStreams(session);
      assert PortSet([]) == {} && cleared.ports == before.ports;
      var got, failed :| Allocates(streams, cleared.ports, env.answers, got, failed)
        && AfterAllocation(session, env, cleared, got, failed, after, outcome);
      AllocationIsDecided(streams, before.ports, env.answers, got, failed);
      if !failed {
        AllocationBinds(streams, before.ports, env.answers, got);
        AllBoundRewritesIff(session, got);
      }
    }
  }

  lemma AllocationBinds(streams: seq<StreamPlan>, ports: set<nat>, answers: nat -> nat -> PortAnswer,
                        got: seq<StreamBinding>)
    requires Allocates(streams, ports, answers, got, false)
    ensures BindsStreams(streams, got)
  {
  }

  lemma AllBoundRewritesIff(session: Session, got: seq<StreamBinding>)
    requires ContractHolds(DocumentStreams(session.grc)) && BindsStreams(DerivedStreams(session), got)
    ensures Rewrites(session.grc, got) <==> Startable(session)
  {
    hide NamesServed, DerivedStreams;
    if session.grc.root.Some? {
      RewritesIffNamesServed(session, got);
    }
  }

  lemma PrepareCallReturnsIff(session: Session, env: Environment, v: RuntimeView, v': RuntimeView, outcome: Outcome)
    requires CallDoes(Prepare, session, env, v, v', outcome) && Vacant(SectionOf(v, session.id).r)
    ensures outcome == Returned <==>
      env.ready && env.loads && Startable(session) && PortsSuffice(DerivedStreams(session), v.ports, env.answers)
    ensures outcome == Returned ==>
      session.id in v'.table && Prepared(v'.table[session.id]) && Serves(v'.table[session.id], session)
  {
    hide Prepares, Startable, PortsSuffice, Serves, Vacant;
    var before := SectionOf(v, session.id);
    var after :| Prepares(session, env, before, after, outcome) && v' == WithSection(v, session.id, after);
    PrepareReturnsIff(session, env, before, after, outcome);
  }

  /** The two calls that start a session without a runtime of its own. */
  lemma LaunchesIff(session: Session, env: Environment, v: RuntimeView, v': RuntimeView, outcome: Outcome)
    requires CallsDo([Prepare, Launch], session, env, v, v', outcome) && Vacant(SectionOf(v, session.id).r)
    ensures outcome == Returned <==> ComesUp(session, env, v.ports)
    ensures outcome == Returned ==> session.id in v'.table && RunsItsGraph(v'.table[session.id], session)
  {
    hide CallDoes, CallsDo, Startable, PortsSuffice, Serves, Vacant, RunsItsGraph, SectionOf;
    assert [Prepare, Launch] == [Prepare] + [Launch];
    var v1, first := CallsSplit([Prepare], [Launch], session, env, v, v', outcome);
    SingleCall(Prepare, session, env, v, v1, first);
    PrepareCallReturnsIff(session, env, v, v1, first);
    if first == Returned {
      SingleCall(Launch, session, env, v1, v', outcome);
      LaunchOfExecution(session, env, v1, v', outcome);
    }
  }

  predicate HasExecution(v: RuntimeView, id: string) {
    id in v.table && v.table[id].execution.Some?
  }

  lemma LaunchOfExecution(session: Session, env: Environment, v: RuntimeView, v': RuntimeView, outcome: Outcome)
    requires CallDoes(Launch, session, env, v, v', outcome) && HasExecution(v, session.id)
    requires var r := v.table[session.id];
      r.phase != PhaseRunning && r.phase != PhaseStopping && Serves(r, session)
    ensures outcome == Returned <==> env.starts
    ensures outcome == Returned ==> session.id in v'.table && RunsItsGraph(v'.table[session.id], session)
  {
    hide DerivedStreams, IsLoadedGraph, ContractHolds;
  }

  // ------------------------------------------------------------- the theorems

  /** All calls of a restart. */
  lemma RestartReturnsIff(session: Session, env: Environment, v: RuntimeView, v': RuntimeView, outcome: Outcome)
    requires session.id in v.table ==> v.table[session.id].phase != PhaseStopping
    requires CallsDo(CallsOf(Op.Restart, session), session, env, v, v', outcome)
    ensures outcome == Returned <==>
      (SchedulerRuns(v, session.id) ==> env.stops) && ComesUp(session, env, v.ports - PortsHeld(v, session.id))
    ensures outcome == Returned ==> session.id in v'.table && RunsItsGraph(v'.table[session.id], session)
  {
    hide CallsDo, ComesUp, RunsItsGraph, PortsHeld;
    CallsOfOperations(session);
    hide CallsOf, TeardownCalls;
    var v1, first := CallsSplit(TeardownCalls(session), [Prepare, Launch], session, env, v, v', outcome);
    TeardownReturnsIff(session, env, v, v1, first);
    if first == Returned {
      LaunchesIff(session, env, v1, v', outcome);
    }
  }

  /** The session is stored as running, in phase Running, and the runtime runs its graph. */
  ghost predicate Running(v: ServiceView, session: Session) {
    var id := session.id;
    && id in v.sessions && v.sessions[id].state == SessionState.Running && v.sessions[id].grc == session.grc
    && id in v.phases && v.phases[id] == PhaseRunning
    && id in v.runtime.table && RunsItsGraph(v.runtime.table[id], session)
  }

  /**
   Recovery. From every reachable state with nothing in flight on a session,
   whether it is idle, running or failed, an uninterrupted restart succeeds
   exactly if a scheduler that still runs lets itself be stopped and the
   environment and the graph let the session come up, with the ports of the
   session free again. Then the session runs.
   */
  lemma RestartSucceedsIff(s: State, id: string, env: Environment, now: int, message: string,
                           v': ServiceView, error: Option<ServiceError>)
    requires Reachable(s) && !InFlight(s, id) && id in s.sessions
    requires OperationDoes(Op.Restart, id, env, now, message, ServiceView(s.sessions, s.phases, ViewOf(s)), v', error)
    ensures error == None <==>
      && (SchedulerRuns(ViewOf(s), id) ==> env.stops)
      && ComesUp(s.sessions[id], env, s.ports - PortsHeld(ViewOf(s), id))
    ensures error == None ==> Running(v', s.sessions[id])
  {
    QuietSession(s, id);
    NeverRefused(s, id);
    hide Reachable, InFlight, CallsDo, ComesUp, RunsItsGraph, CallsOf, ViewOf, Judge;
    RestartReturnsIff(s.sessions[id], env, ViewOf(s), v'.runtime, if error.Some? then Threw else Returned);
  }

  lemma NeverRefused(s: State, id: string)
    requires Reachable(s) && !InFlight(s, id) && id in s.sessions
    ensures Judge(s.sessions, s.phases, Op.Restart, id) == Granted
  {
    ReachableInv(s);
    assert SessionInv(s, id);
  }

  /**
   An uninterrupted start of a session that is not running: if a failed
   operation has left an execution behind, the start succeeds exactly if the
   scheduler starts; else exactly if the environment and the graph let the
   session come up. Then the session runs.
   */
  lemma StartSucceedsIff(s: State, id: string, env: Environment, now: int, message: string,
                         v': ServiceView, error: Option<ServiceError>)
    requires Reachable(s) && id in s.sessions && id in s.phases
    requires s.phases[id] == PhaseIdle || s.phases[id] == PhaseFailed
    requires OperationDoes(Op.Start, id, env, now, message, ServiceView(s.sessions, s.phases, ViewOf(s)), v', error)
    ensures error == None <==>
      if HasExecution(ViewOf(s), id) then env.starts else ComesUp(s.sessions[id], env, s.ports)
    ensures error == None ==> Running(v', s.sessions[id])
  {
    QuietResource(s, id);
    hide Reachable, CallsDo, ComesUp, RunsItsGraph, CallsOf, ViewOf, Judge, Vacant, Serves;
    StartReturnsIff(s.sessions[id], env, ViewOf(s), v'.runtime, if error.Some? then Threw else Returned);
  }

  /** All calls of a start. */
  lemma StartReturnsIff(session: Session, env: Environment, v: RuntimeView, v': RuntimeView, outcome: Outcome)
    requires CallsDo(CallsOf(Op.Start, session), session, env, v, v', outcome)
    requires HasExecution(v, session.id) ==>
      var r := v.table[session.id];
      r.phase != PhaseRunning && r.phase != PhaseStopping && Serves(r, session)
    requires !HasExecution(v, session.id) ==> Vacant(SectionOf(v, session.id).r)
    ensures outcome == Returned <==>
      if HasExecution(v, session.id) then env.starts else ComesUp(session, env, v.ports)
    ensures outcome == Returned ==> session.id in v'.table && RunsItsGraph(v'.table[session.id], session)
  {
    hide CallsDo, ComesUp, RunsItsGraph, Vacant, Serves;
    CallsOfOperations(session);
    if HasExecution(v, session.id) {
      RelaunchesIff(session, env, v, v', outcome);
    } else {
      LaunchesIff(session, env, v, v', outcome);
    }
  }

  /** What a start finds: an execution of the session's graph that does not count as running, or an empty resource. */
  lemma QuietResource(s: State, id: string)
    requires Reachable(s) && id in s.sessions && id in s.phases
    requires s.phases[id] == PhaseIdle || s.phases[id] == PhaseFailed
    ensures s.sessions[id].id == id && Judge(s.sessions, s.phases, Op.Start, id) == Granted
    ensures HasExecution(ViewOf(s), id) ==>
      var r := ViewOf(s).table[id];
      r.phase != PhaseRunning && r.phase != PhaseStopping && Serves(r, s.sessions[id])
    ensures !HasExecution(ViewOf(s), id) ==> Vacant(SectionOf(ViewOf(s), id).r)
  {
    ReachableInv(s);
    NothingInFlight(s, id);
  }

  /** Prepare and launch of a session whose execution is still there. */
  lemma RelaunchesIff(session: Session, env: Environment, v: RuntimeView, v': RuntimeView, outcome: Outcome)
    requires CallsDo([Prepare, Launch], session, env, v, v', outcome) && HasExecution(v, session.id)
    requires var r := v.table[session.id];
      r.phase != PhaseRunning && r.phase != PhaseStopping && Serves(r, session)
    ensures outcome == Returned <==> env.starts
    ensures outcome == Returned ==> session.id in v'.table && RunsItsGraph(v'.table[session.id], session)
  {
    hide CallDoes, CallsDo, Serves, RunsItsGraph;
    assert [Prepare, Launch] == [Prepare] + [Launch];
    var v1, first := CallsSplit([Prepare], [Launch], session, env, v, v', outcome);
    SingleCall(Prepare, session, env, v, v1, first);
    NothingToPrepare(session, env, v, v1, first);
    SingleCall(Launch, session, env, v1, v', outcome);
    LaunchOfExecution(session, env, v1, v', outcome);
  }

  lemma NothingToPrepare(session: Session, env: Environment, v: RuntimeView, v': RuntimeView, outcome: Outcome)
    requires CallDoes(Prepare, session, env, v, v', outcome) && HasExecution(v, session.id)
    requires v.table[session.id].phase != PhaseStopping
    ensures outcome == Returned && v' == v
  {
  }
}
