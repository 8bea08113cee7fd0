/**
 Every whole call into the runtime manager is a run of the lifecycle machine:
 whatever else is in flight, the machine can take the call's sections one after
 another and end where the call ends.
 */
module RuntimeRuns {
  import opened Wrappers
  import opened PropertyValues
  import opened SessionStream
  import opened GraphRewrite
  import opened Sessions
  import opened Ports
  import opened RuntimeSections
  import opened RuntimeCalls
  import opened Lifecycle
  import opened LifecycleInvariant
  import opened LifecycleSteps
  import opened LifecycleRuns
  import opened LifecycleProgress

  /** The machine's state with a section's result in it. */
  function WithResult(s: State, ref: Ref, section: Section): State {
    s.(heap := s.heap[ref := section.r], ports := section.ports, leaked := section.leaked)
  }

  function SectionAt(s: State, ref: Ref): Section
    requires ref in s.heap
  {
    Section(s.heap[ref], s.ports, s.leaked)
  }

  // ------------------------------------------------------- stop and destroy

  /** Where a stop or destroy stands when its first section is over. */
  function FirstSectionDone(s: State, c: ClientId, ref: Ref): State
    requires InCall(s, c)
  {
    if s.clients[c].calls[0].Destroy? then At(s, c, Erasing(ref)) else Return(s, c)
  }

  function Drained(s: State, c: ClientId): State
    requires InCall(s, c) && s.clients[c].at.Draining? && s.clients[c].at.ref in s.heap
  {
    var at := s.clients[c].at;
    FirstSectionDone(
      WithResult(s, at.ref, Section(Halted(s.heap[at.ref]), s.ports - PortSet(at.left), s.leaked)), c, at.ref)
  }

  lemma DrainedStep(s: State, c: ClientId)
    requires InCall(s, c) && s.clients[c].at.Draining? && s.clients[c].at.ref in s.heap
    ensures s.clients[c].at.left == [] ==> DoDrain(s, c) == Drained(s, c)
    ensures s.clients[c].at.left != [] ==> Drained(DoDrain(s, c), c) == Drained(s, c)
  {
    var left := s.clients[c].at.left;
    if left == [] {
      assert s.ports - PortSet(left) == s.ports;
    } else {
      PortSetHead(left);
      assert s.ports - PortSet(left) == s.ports - {left[0].internal.port} - PortSet(left[1..]);
      assert Drained(DoDrain(s, c), c).clients == Drained(s, c).clients;
    }
  }

  lemma {:induction false} DrainRuns(s: State, c: ClientId)
    requires InCall(s, c) && s.clients[c].at.Draining? && s.clients[c].at.ref in s.heap
    ensures Runs(s, Drained(s, c))
    decreases |s.clients[c].at.left|
  {
    RunsStep(s, Drain(c));
    DrainedStep(s, c);
    if s.clients[c].at.left != [] {
      var s1 := DoDrain(s, c);
      DrainRuns(s1, c);
      RunsOn(s, s1, Drained(s, c));
    }
  }

  /** A client with its pointer in hand, and nobody inside the mutex it leads to. */
  ghost predicate AtDoor(s: State, c: ClientId, ref: Ref) {
    InCall(s, c) && s.clients[c].at == Found(ref) && ref in s.heap && MutexFree(s, ref)
  }

  predicate Halts(s: State, c: ClientId) {
    InCall(s, c) && (s.clients[c].calls[0].Halt? || s.clients[c].calls[0].Destroy?)
  }

  lemma EnterHalt(s: State, c: ClientId, ref: Ref) returns (s': State)
    requires AtDoor(s, c, ref) && Halts(s, c)
    ensures s' == DoEnterHalt(s, c) && Runs(s, s')
  {
    s' := DoEnterHalt(s, c);
    RunsStep(s, Enter(c, true));
  }

  lemma HaltSchedulerRuns(s: State, c: ClientId, ok: bool) returns (s': State)
    requires InCall(s, c) && s.clients[c].at.AtHalt? && s.clients[c].at.ref in s.heap
    requires s.heap[s.clients[c].at.ref].execution.Some?
    ensures s' == DoHalt(s, c, ok) && Runs(s, s')
  {
    s' := DoHalt(s, c, ok);
    RunsStep(s, HaltScheduler(c, ok));
  }

  function AfterStop(s: State, c: ClientId, ref: Ref, result: (Section, Outcome)): State
    requires InCall(s, c)
  {
    var s' := WithResult(s, ref, result.0);
    if result.1 == Returned then FirstSectionDone(s', c, ref) else At(s', c, Failing)
  }

  lemma NothingDrained(s: State, c: ClientId, ref: Ref, env: Environment)
    requires AtDoor(s, c, ref) && Halts(s, c) && s.heap[ref].execution.None?
    ensures Drained(DoEnterHalt(s, c), c) == AfterStop(s, c, ref, StopResult(env, SectionAt(s, ref)))
  {
    assert Drained(DoEnterHalt(s, c), c).clients == AfterStop(s, c, ref, StopResult(env, SectionAt(s, ref))).clients;
  }

  /** The scheduler is about to be stopped. */
  ghost predicate AboutToHalt(s: State, s1: State, c: ClientId, ref: Ref)
    requires ref in s.heap && c in s.clients && s.clients[c].Lifecycle?
  {
    s1 == s.(heap := s.heap[ref := Halting(s.heap[ref])], clients := s.clients[c := s.clients[c].(at := AtHalt(ref))])
  }

  lemma SchedulerRefuses(s: State, s1: State, c: ClientId, ref: Ref, env: Environment)
    requires AtDoor(s, c, ref) && Halts(s, c) && s.heap[ref].execution.Some? && s.heap[ref].phase != PhaseStopping
    requires s.heap[ref].execution.value.running && !env.stops && AboutToHalt(s, s1, c, ref)
    ensures DoHalt(s1, c, env.stops) == AfterStop(s, c, ref, StopResult(env, SectionAt(s, ref)))
  {
    assert DoHalt(s1, c, env.stops).clients == AfterStop(s, c, ref, StopResult(env, SectionAt(s, ref))).clients;
  }

  lemma SchedulerStops(s: State, s1: State, c: ClientId, ref: Ref, env: Environment) returns (s2: State)
    requires AtDoor(s, c, ref) && Halts(s, c) && s.heap[ref].execution.Some? && s.heap[ref].phase != PhaseStopping
    requires (s.heap[ref].execution.value.running ==> env.stops) && AboutToHalt(s, s1, c, ref)
    ensures s2 == DoHalt(s1, c, env.stops)
    ensures InCall(s2, c) && s2.clients[c].at.Draining? && s2.clients[c].at.ref in s2.heap
    ensures Drained(s2, c) == AfterStop(s, c, ref, StopResult(env, SectionAt(s, ref)))
  {
    s2 := DoHalt(s1, c, env.stops);
    assert Drained(s2, c).clients == AfterStop(s, c, ref, StopResult(env, SectionAt(s, ref))).clients;
  }

  lemma StopOfExecutionRuns(s: State, c: ClientId, ref: Ref, env: Environment)
    requires AtDoor(s, c, ref) && Halts(s, c) && s.heap[ref].execution.Some? && s.heap[ref].phase != PhaseStopping
    ensures Runs(s, AfterStop(s, c, ref, StopResult(env, SectionAt(s, ref))))
  {
    var s1 := EnterHalt(s, c, ref);
    var s2 := HaltSchedulerRuns(s1, c, env.stops);
    RunsOn(s, s1, s2);
    if s.heap[ref].execution.value.running && !env.stops {
      SchedulerRefuses(s, s1, c, ref, env);
    } else {
      s2 := SchedulerStops(s, s1, c, ref, env);
      DrainRuns(s2, c);
      RunsOn(s, s2, Drained(s2, c));
    }
  }

  /** The section `stop_locked`, and with it the first half of destroy. */
  lemma StopSectionRuns(s: State, c: ClientId, ref: Ref, env: Environment)
    requires AtDoor(s, c, ref) && Halts(s, c)
    ensures Runs(s, AfterStop(s, c, ref, StopResult(env, SectionAt(s, ref))))
  {
    if s.heap[ref].execution.None? {
      var s1 := EnterHalt(s, c, ref);
      DrainRuns(s1, c);
      NothingDrained(s, c, ref, env);
      RunsOn(s, s1, Drained(s1, c));
    } else if s.heap[ref].phase == PhaseStopping {
      var s1 := EnterHalt(s, c, ref);
      assert s1 == AfterStop(s, c, ref, StopResult(env, SectionAt(s, ref)));
    } else {
      StopOfExecutionRuns(s, c, ref, env);
    }
  }

  // ------------------------------------------------------- prepare and start

  predicate Readies(s: State, c: ClientId) {
    InCall(s, c) && (s.clients[c].calls[0].Prepare? || s.clients[c].calls[0].Launch?)
  }

  function AllTaken(s: State, c: ClientId, ref: Ref, streams: seq<StreamPlan>, base: set<nat>,
                    got: seq<StreamBinding>): State
    requires InCall(s, c) && |got| <= |streams|
  {
    At(s, c, Allocating(ref, streams[|got|..], got)).(ports := base + PortSet(got))
  }

  /** The client stands before the n-th round of its allocation loop. */
  ghost predicate Taking(s: State, c: ClientId, ref: Ref, streams: seq<StreamPlan>, base: set<nat>,
                         got: seq<StreamBinding>, n: nat)
  {
    && InCall(s, c) && n <= |got| && TakesInTurn(streams, base, got)
    && s.clients[c].at == Allocating(ref, streams[n..], got[..n]) && s.ports == base + PortSet(got[..n])
  }

  lemma TakeOne(s: State, c: ClientId, ref: Ref, streams: seq<StreamPlan>, base: set<nat>, got: seq<StreamBinding>,
                n: nat)
    requires Taking(s, c, ref, streams, base, got, n) && n < |got|
    ensures Enabled(s, Allocate(c, got[n].internal.port))
    ensures var s1 := DoAllocate(s, c, got[n].internal.port);
      && Taking(s1, c, ref, streams, base, got, n + 1)
      && AllTaken(s1, c, ref, streams, base, got) == AllTaken(s, c, ref, streams, base, got)
  {
    PortSetGrows(got, n);
    assert got[..n + 1] == got[..n] + [got[n]];
    var s1 := DoAllocate(s, c, got[n].internal.port);
    assert AllTaken(s1, c, ref, streams, base, got).clients == AllTaken(s, c, ref, streams, base, got).clients;
  }

  /** The allocation loop from its n-th round on. */
  lemma {:induction false} AllocateRuns(s: State, c: ClientId, ref: Ref, streams: seq<StreamPlan>, base: set<nat>,
                                        got: seq<StreamBinding>, n: nat)
    requires Taking(s, c, ref, streams, base, got, n)
    ensures Runs(s, AllTaken(s, c, ref, streams, base, got))
    decreases |got| - n
  {
    var s' := AllTaken(s, c, ref, streams, base, got);
    if n == |got| {
      assert got[..n] == got;
      assert s.clients[c].(at := Allocating(ref, streams[|got|..], got)) == s.clients[c];
      assert s' == s;
      RunsNowhere(s);
    } else {
      TakeOne(s, c, ref, streams, base, got, n);
      RunsStep(s, Allocate(c, got[n].internal.port));
      var s1 := DoAllocate(s, c, got[n].internal.port);
      AllocateRuns(s1, c, ref, streams, base, got, n + 1);
      RunsOn(s, s1, s');
    }
  }

  lemma {:induction false} UnwindRuns(s: State, c: ClientId)
    requires InCall(s, c) && s.clients[c].at.Unwinding?
    ensures Runs(s, At(s, c, Failing).(ports := s.ports - PortSet(s.clients[c].at.left)))
    decreases |s.clients[c].at.left|
  {
    var left := s.clients[c].at.left;
    var s1, s' := DoUnwind(s, c), At(s, c, Failing).(ports := s.ports - PortSet(left));
    RunsStep(s, Unwind(c));
    if left == [] {
      assert s.ports - PortSet(left) == s.ports;
    } else {
      UnwindRuns(s1, c);
      PortSetHead(left);
      assert s.ports - PortSet(left) == s1.ports - PortSet(left[1..]);
      assert At(s1, c, Failing).clients == At(s, c, Failing).clients;
      RunsOn(s, s1, s');
    }
  }

  /** Where a prepare, or a start that has not launched yet, stands afterwards. */
  function AfterPrepare(s: State, c: ClientId, ref: Ref, after: Section, outcome: Outcome): State
    requires InCall(s, c)
  {
    var s' := WithResult(s, ref, after);
    if outcome == Threw then At(s', c, Failing)
    else if s.clients[c].calls[0].Prepare? || IsRunning(after.r) then Return(s', c)
    else At(WithResult(s, ref, after.(r := Launching(after.r))), c, AtLaunch(ref))
  }

  lemma ShortPrepareRuns(s: State, c: ClientId, ref: Ref, env: Environment, after: Section, outcome: Outcome)
    requires AtDoor(s, c, ref) && Readies(s, c)
    requires Prepares(s.clients[c].session, env, SectionAt(s, ref), after, outcome)
    requires s.heap[ref].execution.Some? || s.heap[ref].phase == PhaseStopping
      || !ContractHolds(DocumentStreams(s.clients[c].session.grc)) || !env.ready
    ensures Runs(s, AfterPrepare(s, c, ref, after, outcome))
  {
    RunsStep(s, Enter(c, env.ready));
    assert AfterPrepare(s, c, ref, after, outcome).heap == DoEnterPrepare(s, c, env.ready).heap;
    assert AfterPrepare(s, c, ref, after, outcome) == DoEnterPrepare(s, c, env.ready);
  }

  /** A client that has taken its ports. */
  ghost predicate HasTaken(s: State, s1: State, c: ClientId, ref: Ref, todo: seq<StreamPlan>, cleared: Section,
                           got: seq<StreamBinding>)
    requires InCall(s, c)
  {
    s1 == At(WithResult(s, ref, cleared.(ports := cleared.ports + PortSet(got))), c, Allocating(ref, todo, got))
  }

  lemma AllocationFailureRuns(s: State, s1: State, c: ClientId, ref: Ref, todo: seq<StreamPlan>, cleared: Section,
                              got: seq<StreamBinding>)
    requires InCall(s, c) && HasTaken(s, s1, c, ref, todo, cleared, got) && todo != []
    ensures var after := cleared.(ports := cleared.ports + PortSet(got), leaked := cleared.leaked + PortSet(got));
      Runs(s1, AfterPrepare(s, c, ref, after, Threw))
  {
    RunsStep(s1, AllocateFails(c));
    var after := cleared.(ports := cleared.ports + PortSet(got), leaked := cleared.leaked + PortSet(got));
    assert DoAllocateFails(s1, c).clients == AfterPrepare(s, c, ref, after, Threw).clients;
  }

  lemma LoadFailureRuns(s: State, s1: State, c: ClientId, ref: Ref, cleared: Section, got: seq<StreamBinding>)
    requires InCall(s, c) && HasTaken(s, s1, c, ref, [], cleared, got)
    requires cleared.ports + PortSet(got) - PortSet(got) == cleared.ports
    ensures Runs(s1, AfterPrepare(s, c, ref, cleared, Threw))
  {
    RunsStep(s1, BuildFails(c));
    var s2, s' := DoBuildFails(s1, c), AfterPrepare(s, c, ref, cleared, Threw);
    UnwindRuns(s2, c);
    assert At(s2, c, Failing).clients == s'.clients;
    RunsOn(s1, s2, s');
  }

  lemma Loaded(s: State, s1: State, c: ClientId, ref: Ref, cleared: Section, got: seq<StreamBinding>, graph: GraphText)
    requires Readies(s, c) && HasTaken(s, s1, c, ref, [], cleared, got)
    ensures var after := cleared.(r := Installed(cleared.r, graph, got), ports := cleared.ports + PortSet(got));
      DoBuild(s1, c, graph) == AfterPrepare(s, c, ref, after, Returned)
  {
    var after := cleared.(r := Installed(cleared.r, graph, got), ports := cleared.ports + PortSet(got));
    var s2, s' := DoBuild(s1, c, graph), AfterPrepare(s, c, ref, after, Returned);
    assert !IsRunning(after.r);
    if s.clients[c].calls[0].Prepare? {
      assert s2.clients == s'.clients && s2.heap == s'.heap;
    } else {
      assert s2.clients == s'.clients && s2.heap == s'.heap;
    }
  }

  lemma LoadRuns(s: State, s1: State, c: ClientId, ref: Ref, cleared: Section, got: seq<StreamBinding>,
                 graph: GraphText)
    requires Readies(s, c) && HasTaken(s, s1, c, ref, [], cleared, got)
    requires IsLoadedGraph(s.clients[c].session.grc, got, graph)
    ensures var after := cleared.(r := Installed(cleared.r, graph, got), ports := cleared.ports + PortSet(got));
      Runs(s1, AfterPrepare(s, c, ref, after, Returned))
  {
    RunsStep(s1, Build(c, graph));
    Loaded(s, s1, c, ref, cleared, got, graph);
  }

  lemma EnterPrepare(s: State, c: ClientId, ref: Ref) returns (s': State)
    requires AtDoor(s, c, ref) && Readies(s, c) && s.heap[ref].execution.None? && s.heap[ref].phase != PhaseStopping
    requires ContractHolds(DocumentStreams(s.clients[c].session.grc))
    ensures Runs(s, s')
    ensures
      s' == At(WithResult(s, ref, Cleared(SectionAt(s, ref))), c,
               Allocating(ref, DerivedStreams(s.clients[c].session), []))
  {
    RunsStep(s, Enter(c, true));
    s' := DoEnterPrepare(s, c, true);
  }

  lemma TakeRuns(s: State, c: ClientId, ref: Ref, got: seq<StreamBinding>) returns (s': State)
    requires AtDoor(s, c, ref) && Readies(s, c) && s.heap[ref].execution.None? && s.heap[ref].phase != PhaseStopping
    requires ContractHolds(DocumentStreams(s.clients[c].session.grc))
    requires TakesInTurn(DerivedStreams(s.clients[c].session), s.ports - PortSet(s.heap[ref].bindings), got)
    ensures Runs(s, s')
    ensures HasTaken(s, s', c, ref, DerivedStreams(s.clients[c].session)[|got|..], Cleared(SectionAt(s, ref)), got)
  {
    var r, streams := s.heap[ref], DerivedStreams(s.clients[c].session);
    var base := s.ports - PortSet(r.bindings);
    var s1 := EnterPrepare(s, c, ref);
    assert got[..0] == [] && streams[0..] == streams && base + PortSet([]) == base;
    AllocateRuns(s1, c, ref, streams, base, got, 0);
    s' := AllTaken(s1, c, ref, streams, base, got);
    assert s'.clients == s.clients[c := s.clients[c].(at := Allocating(ref, streams[|got|..], got))];
    RunsOn(s, s1, s');
  }

  lemma AfterAllocationRuns(s: State, s1: State, c: ClientId, ref: Ref, todo: seq<StreamPlan>, env: Environment,
                            cleared: Section, got: seq<StreamBinding>, failed: bool, after: Section, outcome: Outcome)
    requires Readies(s, c) && HasTaken(s, s1, c, ref, todo, cleared, got) && (failed <==> todo != [])
    requires cleared.ports + PortSet(got) - PortSet(got) == cleared.ports
    requires AfterAllocation(s.clients[c].session, env, cleared, got, failed, after, outcome)
    ensures Runs(s1, AfterPrepare(s, c, ref, after, outcome))
  {
    if failed {
      AllocationFailureRuns(s, s1, c, ref, todo, cleared, got);
    } else if outcome == Threw {
      LoadFailureRuns(s, s1, c, ref, cleared, got);
    } else {
      var graph :| IsLoadedGraph(s.clients[c].session.grc, got, graph)
        && after == cleared.(r := Installed(cleared.r, graph, got), ports := cleared.ports + PortSet(got));
      LoadRuns(s, s1, c, ref, cleared, got, graph);
    }
  }

  lemma LongPrepareRuns(s: State, c: ClientId, ref: Ref, env: Environment, after: Section, outcome: Outcome,
                        got: seq<StreamBinding>, failed: bool)
    requires AtDoor(s, c, ref) && Readies(s, c) && s.heap[ref].execution.None? && s.heap[ref].phase != PhaseStopping
    requires ContractHolds(DocumentStreams(s.clients[c].session.grc))
    requires Allocates(DerivedStreams(s.clients[c].session), Cleared(SectionAt(s, ref)).ports, env.answers, got, failed)
    requires AfterAllocation(s.clients[c].session, env, Cleared(SectionAt(s, ref)), got, failed, after, outcome)
    ensures Runs(s, AfterPrepare(s, c, ref, after, outcome))
  {
    var streams, cleared := DerivedStreams(s.clients[c].session), Cleared(SectionAt(s, ref));
    AllocatesInTurn(streams, cleared.ports, env.answers, got, failed);
    TakenPortsWereFree(streams, cleared.ports, got);
    var s1 := TakeRuns(s, c, ref, got);
    AfterAllocationRuns(s, s1, c, ref, streams[|got|..], env, cleared, got, failed, after, outcome);
    RunsOn(s, s1, AfterPrepare(s, c, ref, after, outcome));
  }

  /** The section `prepare_locked`. */
  lemma PrepareSectionRuns(s: State, c: ClientId, ref: Ref, env: Environment, after: Section, outcome: Outcome)
    requires AtDoor(s, c, ref) && Readies(s, c)
    requires Prepares(s.clients[c].session, env, SectionAt(s, ref), after, outcome)
    ensures Runs(s, AfterPrepare(s, c, ref, after, outcome))
  {
    var session, r := s.clients[c].session, s.heap[ref];
    if r.execution.Some? || r.phase == PhaseStopping || !ContractHolds(DocumentStreams(session.grc)) || !env.ready {
      ShortPrepareRuns(s, c, ref, env, after, outcome);
    } else {
      var cleared := Cleared(SectionAt(s, ref));
      var got, failed :| Allocates(DerivedStreams(session), cleared.ports, env.answers, got, failed)
        && AfterAllocation(session, env, cleared, got, failed, after, outcome);
      LongPrepareRuns(s, c, ref, env, after, outcome, got, failed);
    }
  }

  function AfterStart(s: State, c: ClientId, ref: Ref, after: Section, outcome: Outcome): State
    requires InCall(s, c)
  {
    var s' := WithResult(s, ref, after);
    if outcome == Threw then At(s', c, Failing) else Return(s', c)
  }

  lemma LaunchRuns(s: State, c: ClientId, ref: Ref, env: Environment, mid: Section)
    requires InCall(s, c) && s.clients[c].calls[0].Launch? && mid.r.execution.Some?
    ensures var (r, outcome) := LaunchResult(env, mid.r);
      Runs(AfterPrepare(s, c, ref, mid, Returned), AfterStart(s, c, ref, mid.(r := r), outcome))
  {
    var s1 := AfterPrepare(s, c, ref, mid, Returned);
    var (r, outcome) := LaunchResult(env, mid.r);
    var s' := AfterStart(s, c, ref, mid.(r := r), outcome);
    if IsRunning(mid.r) {
      RunsNowhere(s1);
    } else {
      RunsStep(s1, LaunchScheduler(c, env.starts));
      assert DoLaunch(s1, c, env.starts).clients == s'.clients;
      assert DoLaunch(s1, c, env.starts).heap == s'.heap;
    }
  }

  /** The section of `start`. */
  lemma StartSectionRuns(s: State, c: ClientId, ref: Ref, env: Environment, after: Section, outcome: Outcome)
    requires AtDoor(s, c, ref) && InCall(s, c) && s.clients[c].calls[0].Launch?
    requires Starts(s.clients[c].session, env, SectionAt(s, ref), after, outcome)
    ensures Runs(s, AfterStart(s, c, ref, after, outcome))
  {
    var mid, prepared :| Prepares(s.clients[c].session, env, SectionAt(s, ref), mid, prepared)
      && if prepared == Threw then after == mid && outcome == Threw
         else
           mid.r.execution.Some?
           && after == mid.(r := LaunchResult(env, mid.r).0) && outcome == LaunchResult(env, mid.r).1;
    PrepareSectionRuns(s, c, ref, env, mid, prepared);
    if prepared == Returned {
      LaunchRuns(s, c, ref, env, mid);
      RunsOn(s, AfterPrepare(s, c, ref, mid, prepared), AfterStart(s, c, ref, after, outcome));
    }
  }

  // ------------------------------------------------------------ whole calls

  /** The runtime manager's part of a machine state. */
  function ViewOf(s: State): RuntimeView {
    RuntimeView(map id | id in s.table && s.table[id] in s.heap :: s.heap[s.table[id]], s.ports, s.leaked)
  }

  function AfterCall(client: Client, outcome: Outcome): Client
    requires client.Lifecycle? && client.calls != []
  {
    if outcome == Threw then client.(at := Failing) else client.(calls := client.calls[1..], at := Entering)
  }

  /** The machine can run the client's call to its end, and then the manager looks like this. */
  ghost predicate CallRuns(s: State, s': State, c: ClientId, v': RuntimeView, outcome: Outcome)
    requires InCall(s, c)
  {
    && Runs(s, s') && ViewOf(s') == v'
    && s'.sessions == s.sessions && s'.phases == s.phases
    && s'.clients == s.clients[c := AfterCall(s.clients[c], outcome)]
  }

  /** The client has looked its resource up, or made it. */
  ghost predicate LookedUp(s: State, s1: State, c: ClientId, ref: Ref)
    requires InCall(s, c)
  {
    var id := s.clients[c].session.id;
    && Runs(s, s1) && AtDoor(s1, c, ref) && id in s1.table && s1.table[id] == ref
    && (forall other :: other in s1.table && s1.table[other] == ref ==> other == id)
    && s1.clients == s.clients[c := s.clients[c].(at := Found(ref))]
    && s1.sessions == s.sessions && s1.phases == s.phases
    && SectionAt(s1, ref) == SectionOf(ViewOf(s), id)
    && ViewOf(s1) == WithSection(ViewOf(s), id, SectionOf(ViewOf(s), id))
  }

  lemma OneEntryPerResource(s: State, id: string, ref: Ref)
    requires Inv(s) && id in s.table && s.table[id] == ref
    ensures ref in s.heap && forall other :: other in s.table && s.table[other] == ref ==> other == id
  {
    assert SessionInv(s, id);
    forall other | other in s.table && s.table[other] == ref ensures other == id {
      assert SessionInv(s, other);
    }
  }

  lemma LookupView(s: State, c: ClientId)
    requires Inv(s) && InCall(s, c) && s.clients[c].at.Entering?
    requires s.clients[c].session.id in s.table || Readies(s, c)
    ensures var id, s1 := s.clients[c].session.id, DoLookup(s, c);
      && id in s1.table && s1.table[id] in s1.heap && SectionAt(s1, s1.table[id]) == SectionOf(ViewOf(s), id)
      && ViewOf(s1) == WithSection(ViewOf(s), id, SectionOf(ViewOf(s), id))
  {
    var id, s1 := s.clients[c].session.id, DoLookup(s, c);
    forall other | other in s.table ensures s.table[other] in s.heap && s.table[other] != s.nextRef {
      assert SessionInv(s, other);
    }
    assert ViewOf(s1).table == ViewOf(s).table[id := SectionOf(ViewOf(s), id).r];
  }

  lemma LookupRuns(s: State, c: ClientId) returns (s1: State, ref: Ref)
    requires Inv(s) && InCall(s, c) && s.clients[c].at.Entering?
    requires s.clients[c].session.id in s.table || Readies(s, c)
    ensures LookedUp(s, s1, c, ref)
  {
    LookupKeeps(s, c);
    LookupView(s, c);
    RunsStep(s, Lookup(c));
    s1 := DoLookup(s, c);
    ref := s1.table[s.clients[c].session.id];
    OneEntryPerResource(s1, s.clients[c].session.id, ref);
    OwnMutexIsFree(s1, c);
  }

  lemma ResultView(s: State, id: string, ref: Ref, after: Section)
    requires id in s.table && s.table[id] == ref && ref in s.heap
    requires forall other :: other in s.table && s.table[other] == ref ==> other == id
    ensures ViewOf(WithResult(s, ref, after)) == WithSection(ViewOf(s), id, after)
  {
    assert ViewOf(WithResult(s, ref, after)).table == ViewOf(s).table[id := after.r];
  }

  lemma LookedUpView(s: State, s1: State, c: ClientId, ref: Ref, after: Section)
    requires InCall(s, c) && LookedUp(s, s1, c, ref)
    ensures ViewOf(WithResult(s1, ref, after)) == WithSection(ViewOf(s), s.clients[c].session.id, after)
  {
    var id := s.clients[c].session.id;
    ResultView(s1, id, ref, after);
    var v := ViewOf(s);
    assert v.table[id := SectionOf(v, id).r][id := after.r] == v.table[id := after.r];
  }

  /** The view is made of these four fields. */
  lemma SameView(s: State, s': State)
    requires s'.table == s.table && s'.heap == s.heap && s'.ports == s.ports && s'.leaked == s.leaked
    ensures ViewOf(s') == ViewOf(s)
  {
  }

  /** The whole call, from what its section did. */
  lemma CallEnds(s: State, s1: State, c: ClientId, ref: Ref, after: Section, outcome: Outcome) returns (s': State)
    requires InCall(s, c) && LookedUp(s, s1, c, ref) && Runs(s1, AfterStart(s1, c, ref, after, outcome))
    ensures CallRuns(s, s', c, WithSection(ViewOf(s), s.clients[c].session.id, after), outcome)
  {
    hide Runs, ViewOf;
    s' := AfterStart(s1, c, ref, after, outcome);
    LookedUpView(s, s1, c, ref, after);
    SameView(WithResult(s1, ref, after), s');
    assert s'.clients == s.clients[c := AfterCall(s.clients[c], outcome)];
    RunsOn(s, s1, s');
  }

  lemma PrepareCallRuns(s: State, c: ClientId, env: Environment, v': RuntimeView, outcome: Outcome) returns (s': State)
    requires Inv(s) && InCall(s, c) && s.clients[c].at.Entering? && s.clients[c].calls[0] == Prepare
    requires PrepareCall(s.clients[c].session, env, ViewOf(s), v', outcome)
    ensures CallRuns(s, s', c, v', outcome)
  {
    var session := s.clients[c].session;
    var after :| Prepares(session, env, SectionOf(ViewOf(s), session.id), after, outcome)
      && v' == WithSection(ViewOf(s), session.id, after);
    var s1, ref := LookupRuns(s, c);
    PrepareSectionRuns(s1, c, ref, env, after, outcome);
    s' := CallEnds(s, s1, c, ref, after, outcome);
  }

  lemma StartCallRuns(s: State, c: ClientId, env: Environment, v': RuntimeView, outcome: Outcome) returns (s': State)
    requires Inv(s) && InCall(s, c) && s.clients[c].at.Entering? && s.clients[c].calls[0] == Launch
    requires StartCall(s.clients[c].session, env, ViewOf(s), v', outcome)
    ensures CallRuns(s, s', c, v', outcome)
  {
    var session := s.clients[c].session;
    var after :| Starts(session, env, SectionOf(ViewOf(s), session.id), after, outcome)
      && v' == WithSection(ViewOf(s), session.id, after);
    var s1, ref := LookupRuns(s, c);
    StartSectionRuns(s1, c, ref, env, after, outcome);
    s' := CallEnds(s, s1, c, ref, after, outcome);
  }

  lemma NothingToStopRuns(s: State, c: ClientId) returns (s': State)
    requires Inv(s) && s.clients.Keys >= {c} && Halts(s, c) && s.clients[c].at.Entering?
    requires s.clients[c].session.id !in s.table
    ensures CallRuns(s, s', c, ViewOf(s), Returned)
  {
    RunsStep(s, Lookup(c));
    s' := DoLookup(s, c);
  }

  lemma StopCallRuns(s: State, c: ClientId, env: Environment) returns (s': State)
    requires Inv(s) && InCall(s, c) && s.clients[c].at.Entering? && s.clients[c].calls[0] == Halt
    ensures var (v', outcome) := StopCall(env, ViewOf(s), s.clients[c].session.id);
      CallRuns(s, s', c, v', outcome)
  {
    var id := s.clients[c].session.id;
    assert SessionInv(s, id);
    if id !in s.table {
      s' := NothingToStopRuns(s, c);
    } else {
      var s1, ref := LookupRuns(s, c);
      var result := StopResult(env, SectionAt(s1, ref));
      StopSectionRuns(s1, c, ref, env);
      s' := CallEnds(s, s1, c, ref, result.0, result.1);
    }
  }

  /** A destroy between its two sections. */
  lemma ErasedView(s: State, c: ClientId, ref: Ref)
    requires InCall(s, c) && s.clients[c].at == Erasing(ref)
    requires s.clients[c].session.id in s.table && s.table[s.clients[c].session.id] == ref
    ensures ViewOf(DoErase(s, c)) == ViewOf(s).(table := ViewOf(s).table - {s.clients[c].session.id})
    ensures DoErase(s, c) == Return(s, c).(table := s.table - {s.clients[c].session.id})
  {
    hide PortSet;
    var id, s' := s.clients[c].session.id, DoErase(s, c);
    assert s'.table == s.table - {id} && s'.heap == s.heap;
    assert ViewOf(s').table == ViewOf(s).table - {id};
  }

  lemma EraseRuns(s: State, c: ClientId) returns (s': State)
    requires InCall(s, c) && s.clients[c].at.Erasing?
    ensures s' == DoErase(s, c) && Runs(s, s')
  {
    RunsStep(s, Erase(c));
    s' := DoErase(s, c);
  }

  lemma EraseEnds(s: State, s1: State, c: ClientId, ref: Ref, after: Section) returns (s': State)
    requires InCall(s, c) && LookedUp(s, s1, c, ref) && s.clients[c].calls[0] == Destroy
    requires Runs(s1, AfterStop(s1, c, ref, (after, Returned)))
    ensures var v := WithSection(ViewOf(s), s.clients[c].session.id, after);
      CallRuns(s, s', c, v.(table := v.table - {s.clients[c].session.id}), Returned)
  {
    hide Runs, ViewOf;
    var s2 := AfterStop(s1, c, ref, (after, Returned));
    RunsOn(s, s1, s2);
    LookedUpView(s, s1, c, ref, after);
    SameView(WithResult(s1, ref, after), s2);
    s' := EraseStep(s, s2, c, ref);
  }

  /** The second section of destroy. */
  lemma EraseStep(s: State, s2: State, c: ClientId, ref: Ref) returns (s': State)
    requires InCall(s, c) && Runs(s, s2) && s2.sessions == s.sessions && s2.phases == s.phases
    requires s2.clients == s.clients[c := s.clients[c].(at := Erasing(ref))]
    requires s.clients[c].session.id in s2.table && s2.table[s.clients[c].session.id] == ref
    ensures CallRuns(s, s', c, ViewOf(s2).(table := ViewOf(s2).table - {s.clients[c].session.id}), Returned)
  {
    hide Runs, ViewOf;
    s' := EraseRuns(s2, c);
    RunsOn(s, s2, s');
    ErasedView(s2, c, ref);
    assert s'.clients == s.clients[c := AfterCall(s.clients[c], Returned)];
  }

  lemma DestroyCallRuns(s: State, c: ClientId, env: Environment) returns (s': State)
    requires Inv(s) && InCall(s, c) && s.clients[c].at.Entering? && s.clients[c].calls[0] == Destroy
    ensures var (v', outcome) := DestroyCall(env, ViewOf(s), s.clients[c].session.id);
      CallRuns(s, s', c, v', outcome)
  {
    var id := s.clients[c].session.id;
    assert SessionInv(s, id);
    if id !in s.table {
      s' := NothingToStopRuns(s, c);
      assert ViewOf(s).table - {id} == ViewOf(s).table;
    } else {
      var s1, ref := LookupRuns(s, c);
      var result := StopResult(env, SectionAt(s1, ref));
      StopSectionRuns(s1, c, ref, env);
      if result.1 == Returned {
        s' := EraseEnds(s, s1, c, ref, result.0);
      } else {
        s' := CallEnds(s, s1, c, ref, result.0, result.1);
      }
    }
  }
}
