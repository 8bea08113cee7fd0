/**
 When a scheduler is asked to start although it is running already: after a
 failed stop, `start` finds the old execution and launches it again
 (src/runtime/gr4_runtime_manager.cpp:736-744).
 */
module LifecycleRelaunch {
  import opened Wrappers
  import opened PropertyValues
  import opened SessionStream
  import opened GraphRewrite
  import opened Sessions
  import opened Ports
  import opened RuntimeSections
  import opened RuntimeCalls
  import opened Lifecycle
  import opened LifecycleInvariant
  import opened LifecycleSteps
  import opened LifecycleRuns
  import opened RuntimeRuns

  predicate Executes(s: State, ref: Ref) {
    ref in s.heap && s.heap[ref].execution.Some? && s.heap[ref].execution.value.running
  }

  // ----------------------------------------------------------------- history

  /** Whether the latest request to stop what runs in this object was refused, given the answer so far. */
  ghost predicate StopRefused(s: State, action: Action, ref: Ref, soFar: bool)
    requires Enabled(s, action)
  {
    if action.HaltScheduler? && s.clients[action.c].at.ref == ref then Executes(s, ref) && !action.ok else soFar
  }

  /** The same, over a whole run. */
  ghost predicate LastStopRefused(s: State, actions: seq<Action>, ref: Ref, soFar: bool)
    requires IsRun(s, actions)
    decreases |actions|
  {
    if actions == [] then soFar
    else LastStopRefused(Apply(s, actions[0]), actions[1..], ref, StopRefused(s, actions[0], ref, soFar))
  }

  /**
   What the history says of the object: an execution whose stop was refused still runs, and only
   such a one runs on without phase Running.
   */
  ghost predicate Recalls(s: State, ref: Ref, refused: bool) {
    && (refused ==> Executes(s, ref))
    && (Executes(s, ref) && s.heap[ref].phase != PhaseRunning && s.heap[ref].phase != PhaseStopping ==> refused)
    && (forall c :: c in s.clients && Drains(s.clients[c], ref) ==> !Executes(s, ref))
  }

  predicate Drains(client: Client, ref: Ref) {
    client.Lifecycle? && client.at.Draining? && client.at.ref == ref
  }

  /** The object is as before, and nobody newly drains it. */
  lemma UntouchedRecalls(s: State, s': State, ref: Ref, refused: bool)
    requires Recalls(s, ref, refused)
    requires (ref in s'.heap <==> ref in s.heap) && (ref in s.heap ==> s'.heap[ref] == s.heap[ref])
    requires forall c :: c in s'.clients && Drains(s'.clients[c], ref) ==> c in s.clients && Drains(s.clients[c], ref)
    ensures Recalls(s', ref, refused)
  {
  }

  lemma LookupRecalls(s: State, c: ClientId, ref: Ref, refused: bool)
    requires Inv(s) && Enabled(s, Lookup(c)) && Recalls(s, ref, refused)
    ensures Recalls(DoLookup(s, c), ref, refused)
  {
    hide SessionInv;
  }

  lemma EnterPrepareRecalls(s: State, c: ClientId, environmentReady: bool, ref: Ref, refused: bool)
    requires InCall(s, c) && s.clients[c].at.Found? && s.clients[c].at.ref in s.heap && Recalls(s, ref, refused)
    ensures Recalls(DoEnterPrepare(s, c, environmentReady), ref, refused)
  {
    hide ContractHolds, DerivedStreams, PortSet;
  }

  lemma EnterHaltRecalls(s: State, c: ClientId, ref: Ref, refused: bool)
    requires InCall(s, c) && s.clients[c].at.Found? && s.clients[c].at.ref in s.heap && Recalls(s, ref, refused)
    ensures Recalls(DoEnterHalt(s, c), ref, refused)
  {
  }

  lemma BuildRecalls(s: State, c: ClientId, graph: GraphText, ref: Ref, refused: bool)
    requires Inv(s) && Enabled(s, Build(c, graph)) && Recalls(s, ref, refused)
    ensures Recalls(DoBuild(s, c, graph), ref, refused)
  {
    hide Inv, BindsStreams, IsLoadedGraph, DerivedStreams;
    Here(s, c);
  }

  /** No two clients hold the same object. */
  lemma HoldersAreOne(s: State, c: ClientId, d: ClientId, ref: Ref)
    requires Inv(s) && c in s.clients && d in s.clients && Holds(s.clients[c], ref) && Holds(s.clients[d], ref)
    ensures c == d
  {
    hide Inv;
    Here(s, c);
    Here(s, d);
    if c != d {
      Alone(s, c, d);
    }
  }

  lemma LaunchRecalls(s: State, c: ClientId, ok: bool, ref: Ref, refused: bool)
    requires Inv(s) && Enabled(s, LaunchScheduler(c, ok)) && Recalls(s, ref, refused)
    ensures Recalls(DoLaunch(s, c, ok), ref, refused)
  {
    hide Inv;
    forall d | d in s.clients && Drains(s.clients[d], ref) ensures s.clients[c].at.ref != ref {
      if s.clients[c].at.ref == ref {
        HoldersAreOne(s, c, d, ref);
      }
    }
  }

  lemma HaltRecalls(s: State, c: ClientId, ok: bool, ref: Ref, soFar: bool)
    requires Enabled(s, HaltScheduler(c, ok)) && Recalls(s, ref, soFar)
    ensures Recalls(DoHalt(s, c, ok), ref, StopRefused(s, HaltScheduler(c, ok), ref, soFar))
  {
  }

  lemma DrainRecalls(s: State, c: ClientId, ref: Ref, refused: bool)
    requires Enabled(s, Drain(c)) && Recalls(s, ref, refused)
    ensures Recalls(DoDrain(s, c), ref, refused)
  {
    assert Drains(s.clients[c], s.clients[c].at.ref);
  }

  /** Sections that do nothing to any resource object. */
  predicate TouchesNoObject(action: Action) {
    match action
    case Lookup(_) => false
    case Enter(_, _) => false
    case Build(_, _) => false
    case LaunchScheduler(_, _) => false
    case HaltScheduler(_, _) => false
    case Drain(_) => false
    case _ => true
  }

  lemma CallRestRecalls(s: State, action: Action, ref: Ref, refused: bool)
    requires Enabled(s, action) && TouchesNoObject(action) && Recalls(s, ref, refused)
    requires action.Allocate? || action.AllocateFails? || action.BuildFails? || action.Unwind? || action.Erase?
    ensures Recalls(Apply(s, action), ref, refused)
  {
    hide Recalls;
    UntouchedRecalls(s, Apply(s, action), ref, refused);
  }

  lemma RestRecalls(s: State, action: Action, ref: Ref, refused: bool)
    requires Enabled(s, action) && TouchesNoObject(action) && Recalls(s, ref, refused)
    ensures Recalls(Apply(s, action), ref, refused)
  {
    hide Recalls, MutexFree, Judge, CallsOf, DoAllocate, DoAllocateFails, DoBuildFails, DoUnwind, DoErase;
    if action.Allocate? || action.AllocateFails? || action.BuildFails? || action.Unwind? || action.Erase? {
      CallRestRecalls(s, action, ref, refused);
    } else {
      UntouchedRecalls(s, Apply(s, action), ref, refused);
    }
  }

  lemma ActionRecalls(s: State, action: Action, ref: Ref, soFar: bool)
    requires Inv(s) && Enabled(s, action) && Recalls(s, ref, soFar)
    ensures Recalls(Apply(s, action), ref, StopRefused(s, action, ref, soFar))
  {
    hide Inv, Recalls, IsLoadedGraph, MutexFree, ContractHolds;
    hide DoEnterPrepare, DoEnterHalt, DoBuild, DoLaunch, DoHalt, DoDrain, DoLookup, Executes;
    match action
    case Lookup(c) => LookupRecalls(s, c, ref, soFar);
    case Enter(c, environmentReady) =>
      if s.clients[c].calls[0].Prepare? || s.clients[c].calls[0].Launch? {
        EnterPrepareRecalls(s, c, environmentReady, ref, soFar);
      } else {
        EnterHaltRecalls(s, c, ref, soFar);
      }
    case Build(c, graph) => BuildRecalls(s, c, graph, ref, soFar);
    case LaunchScheduler(c, ok) => LaunchRecalls(s, c, ok, ref, soFar);
    case HaltScheduler(c, ok) => HaltRecalls(s, c, ok, ref, soFar);
    case Drain(c) => DrainRecalls(s, c, ref, soFar);
    case _ => RestRecalls(s, action, ref, soFar);
  }

  lemma {:induction false} RunRecalls(s: State, actions: seq<Action>, ref: Ref, soFar: bool)
    requires Inv(s) && IsRun(s, actions) && Recalls(s, ref, soFar)
    ensures Inv(After(s, actions)) && Recalls(After(s, actions), ref, LastStopRefused(s, actions, ref, soFar))
    decreases |actions|
  {
    hide Inv, Recalls, Enabled, Apply, StopRefused;
    if actions != [] {
      ActionKeeps(s, actions[0]);
      ActionRecalls(s, actions[0], ref, soFar);
      RunRecalls(Apply(s, actions[0]), actions[1..], ref, StopRefused(s, actions[0], ref, soFar));
    }
  }

  /**
   On every run: a client about to start a scheduler finds it running already
   exactly if the latest request to stop it, whoever made it, was refused.
   */
  lemma StartsRunningSchedulerIff(actions: seq<Action>, c: ClientId)
    requires IsRun(INITIAL, actions)
    requires var s := After(INITIAL, actions); c in s.clients && s.clients[c].Lifecycle? && s.clients[c].at.AtLaunch?
    ensures var s := After(INITIAL, actions);
      var ref := s.clients[c].at.ref;
      Executes(s, ref) <==> LastStopRefused(INITIAL, actions, ref, false)
  {
    var s := After(INITIAL, actions);
    RunRecalls(INITIAL, actions, s.clients[c].at.ref, false);
    Here(s, c);
  }

  // --------------------------------------------------------------- a witness

  /** Whoever starts the session now finds its scheduler running. */
  ghost predicate StartsRunningScheduler(s: State, c: ClientId, id: string) {
    && c in s.clients && OnId(s.clients[c], id) && s.clients[c].op == Op.Start
    && s.clients[c].at.AtLaunch? && Executes(s, s.clients[c].at.ref)
  }

  const REFUSES: Environment := Environment(true, i => k => SocketFailure, true, true, false)

  /** A failed session whose scheduler would not stop. */
  ghost predicate StopWasRefused(s: State, id: string) {
    && id in s.sessions && s.sessions[id].id == id && s.sessions[id].state == Error
    && id in s.phases && s.phases[id] == PhaseFailed && StillRuns(ViewOf(s), id)
  }

  predicate StillRuns(v: RuntimeView, id: string) {
    && id in v.table && v.table[id].execution.Some? && v.table[id].execution.value.running
    && v.table[id].phase == PhaseFailed
  }

  /** A stop that is refused: the session is in phase Failed, its scheduler runs on. */
  lemma RefusedStopRuns(s: State, c: ClientId, id: string) returns (s': State)
    requires Reachable(s) && id in s.sessions && id in s.phases && s.phases[id] == PhaseRunning && c !in s.clients
    ensures Runs(s, s') && Reachable(s') && c !in s'.clients && StopWasRefused(s', id)
  {
    var s1 := RefusedStopFails(s, c, id);
    hide Inv, Reachable, Runs;
    RunsStep(s1, RecordFailure(c, 0, ""));
    s' := DoRecordFailure(s1, c, 0, "");
    RunsOn(s, s1, s');
    ReachesOn(s, s');
    assert ViewOf(s') == ViewOf(s1);
  }

  lemma RefusedStopFails(s: State, c: ClientId, id: string) returns (s': State)
    requires Reachable(s) && id in s.sessions && id in s.phases && s.phases[id] == PhaseRunning && c !in s.clients
    ensures Runs(s, s') && c in s'.clients && OnId(s'.clients[c], id) && s'.clients[c].at.Failing?
    ensures id in s'.sessions && s'.sessions[id].id == id && StillRuns(ViewOf(s'), id)
  {
    ReachableInv(s);
    NothingInFlight(s, id);
    RunsStep(s, Claim(c, Op.Stop, id));
    var s1 := DoClaim(s, c, Op.Stop, id);
    ReachesOn(s, s1);
    ReachableInv(s1);
    assert ViewOf(s1) == ViewOf(s);
    hide Inv, Reachable, Runs;
    s' := StopCallRuns(s1, c, REFUSES);
    RunsOn(s, s1, s');
  }

  /** A start of it is granted, and its prepare finds the old execution. */
  lemma StartFindsExecution(s: State, c: ClientId, id: string) returns (s': State)
    requires Reachable(s) && c !in s.clients && StopWasRefused(s, id)
    ensures Runs(s, s') && Reachable(s') && StillRuns(ViewOf(s'), id)
    ensures c in s'.clients && s'.clients[c] == Lifecycle(Op.Start, s.sessions[id], [Launch], Entering)
  {
    hide Inv, Reachable, Runs;
    var v := ViewOf(s);
    RunsStep(s, Claim(c, Op.Start, id));
    var s1 := DoClaim(s, c, Op.Start, id);
    ReachesOn(s, s1);
    ReachableInv(s1);
    assert ViewOf(s1) == v;
    assert Prepares(s1.clients[c].session, REFUSES, SectionOf(v, id), SectionOf(v, id), Returned);
    assert WithSection(v, id, SectionOf(v, id)) == v;
    s' := PrepareCallRuns(s1, c, REFUSES, v, Returned);
    RunsOn(s, s1, s');
    ReachesOn(s, s');
  }

  /** Then it is about to launch it. */
  lemma StartOfFailedRuns(s: State, c: ClientId, id: string) returns (s': State)
    requires Reachable(s) && c !in s.clients && StopWasRefused(s, id)
    ensures Runs(s, s') && StartsRunningScheduler(s', c, id)
  {
    hide Inv, Reachable, Runs;
    var s1 := StartFindsExecution(s, c, id);
    ReachableInv(s1);
    var s2, ref := LookupRuns(s1, c);
    RunsOn(s, s1, s2);
    RunsStep(s2, Enter(c, true));
    s' := DoEnter(s2, c, true);
    RunsOn(s, s2, s');
  }

  /** From every reachable state, a running session can come to this by one stop that is refused and one start. */
  lemma RunningCanBeStartedAgain(s: State, c: ClientId, id: string)
    requires Reachable(s) && id in s.sessions && id in s.phases && s.phases[id] == PhaseRunning && c !in s.clients
    ensures exists s' :: Runs(s, s') && StartsRunningScheduler(s', c, id)
  {
    var s1 := RefusedStopRuns(s, c, id);
    var s2 := StartOfFailedRuns(s1, c, id);
    RunsOn(s, s1, s2);
  }

  const ALLOWS: Environment := Environment(true, i => k => SocketFailure, true, true, true)

  /** A graph text without streams, which the planner cannot even parse. */
  const PLAIN: Document := Document("plain", None)

  /** One session on it, created and claimed for a start. */
  lemma PlainSessionClaimed() returns (s: State)
    ensures Reachable(s) && ViewOf(s) == RuntimeView(map[], {}, {}) && "s" in s.sessions && "s" in s.phases
    ensures s.clients == map[0 := Lifecycle(Op.Start, s.sessions["s"], [Prepare, Launch], Entering)]
    ensures s.sessions["s"].id == "s" && s.sessions["s"].grc == PLAIN
  {
    RunsNowhere(INITIAL);
    RunsStep(INITIAL, Action.Create("s", "demo", PLAIN, None, 0));
    var s1 := DoCreate(INITIAL, "s", "demo", PLAIN, None, 0);
    ReachesOn(INITIAL, s1);
    RunsStep(s1, Claim(0, Op.Start, "s"));
    s := DoClaim(s1, 0, Op.Start, "s");
    ReachesOn(s1, s);
  }

  lemma PlainSessionPrepares(session: Session)
    requires session.id == "s" && session.grc == PLAIN
    ensures var v, r := RuntimeView(map[], {}, {}), Installed(FreshResource("s"), Submitted("plain"), []);
      && PrepareCall(session, ALLOWS, v, v.(table := map["s" := r]), Returned)
      && StartCall(session, ALLOWS, v.(table := map["s" := r]), v.(table := map["s" := Launched(Launching(r))]),
                   Returned)
  {
    var v, r := RuntimeView(map[], {}, {}), Installed(FreshResource("s"), Submitted("plain"), []);
    var before, after := SectionOf(v, "s"), Section(r, {}, {});
    assert PortSet([]) == {} && Cleared(before) == before;
    assert DerivedStreams(session) == [] && Allocates([], {}, ALLOWS.answers, [], false);
    assert IsLoadedGraph(PLAIN, [], Submitted("plain"));
    assert AfterAllocation(session, ALLOWS, before, [], false, after, Returned);
    assert Prepares(session, ALLOWS, before, after, Returned);
    assert Prepares(session, ALLOWS, after, after, Returned);
    var launched := after.(r := Launched(Launching(r)));
    assert Starts(session, ALLOWS, after, launched, Returned);
    assert SectionOf(v.(table := map["s" := r]), "s") == after;
    assert WithSection(v.(table := map["s" := r]), "s", launched) == v.(table := map["s" := launched.r]);
  }

  /** A reachable state in which a scheduler that is running is about to be started. */
  lemma StartsRunningSchedulerExample()
    ensures exists s :: Reachable(s) && StartsRunningScheduler(s, 0, "s")
  {
    hide Inv, Runs, Reachable, PrepareCall, StartCall;
    var s1 := PlainSessionClaimed();
    PlainSessionPrepares(s1.sessions["s"]);
    ReachableInv(s1);
    var v, r := RuntimeView(map[], {}, {}), Installed(FreshResource("s"), Submitted("plain"), []);
    var s2 := PrepareCallRuns(s1, 0, ALLOWS, v.(table := map["s" := r]), Returned);
    ReachesOn(s1, s2);
    ReachableInv(s2);
    var s3 := StartCallRuns(s2, 0, ALLOWS, v.(table := map["s" := Launched(Launching(r))]), Returned);
    ReachesOn(s2, s3);
    RunsStep(s3, Commit(0, 0));
    var s4 := DoCommit(s3, 0, 0);
    ReachesOn(s3, s4);
    RunningCanBeStartedAgain(s4, 0, "s");
    var s5 :| Runs(s4, s5) && StartsRunningScheduler(s5, 0, "s");
    ReachesOn(s4, s5);
  }
}
