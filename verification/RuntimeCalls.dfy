/**
 What one uninterrupted call into the runtime manager does to a session's
 resource and to the ports (src/runtime/gr4_runtime_manager.cpp), given what
 the operating system, the loader and the scheduler decide.
 */
module RuntimeCalls {
  import opened Wrappers
  import opened PropertyValues
  import opened SessionStream
  import opened GraphRewrite
  import opened Sessions
  import opened Ports
  import opened RuntimeSections

  datatype Outcome = Returned | Threw

  /** The decisions of the world outside, made before the call. */
  datatype Environment = Environment(
    ready: bool,                          // the plugins could be loaded
    answers: nat -> nat -> PortAnswer,    // per stream, what each request for a port yields
    loads: bool,                          // the graph loader and the scheduler factory succeed
    starts: bool,                         // the scheduler starts without throwing
    stops: bool)                          // the scheduler stops without throwing

  /** A resource with the ports of the allocator; `leaked` is history. */
  datatype Section = Section(r: Resource, ports: set<nat>, leaked: set<nat>)

  // ---------------------------------------------------------------- prepare

  /** One binding for each stream so far, on the port the allocator settled on given those taken before. */
  ghost predicate Obtained(streams: seq<StreamPlan>, ports: set<nat>, answers: nat -> nat -> PortAnswer,
                           got: seq<StreamBinding>) {
    && |got| <= |streams|
    && forall i :: 0 <= i < |got| ==>
         && got[i] == Bind(streams[i], got[i].internal.port)
         && FirstFree(ports + PortSet(got[..i]), answers(i), Ok(got[i].internal.port))
  }

  /** The allocation loop ends when every stream has its binding, or at the first stream that gets no port. */
  ghost predicate Allocates(streams: seq<StreamPlan>, ports: set<nat>, answers: nat -> nat -> PortAnswer,
                            got: seq<StreamBinding>, failed: bool)
  {
    && Obtained(streams, ports, answers, got)
    && if failed then |got| < |streams| && exists error :: FirstFree(ports + PortSet(got), answers(|got|), Err(error))
       else |got| == |streams|
  }

  lemma ObtainOneMore(streams: seq<StreamPlan>, ports: set<nat>, answers: nat -> nat -> PortAnswer,
                      got: seq<StreamBinding>,
                     binding: StreamBinding)
    requires Obtained(streams, ports, answers, got) && |got| < |streams|
    requires binding == Bind(streams[|got|], binding.internal.port)
    requires FirstFree(ports + PortSet(got), answers(|got|), Ok(binding.internal.port))
    ensures Obtained(streams, ports, answers, got + [binding])
    ensures PortSet(got + [binding]) == PortSet(got) + {binding.internal.port}
  {
    hide FirstFree, Bind;
    var longer := got + [binding];
    assert longer[..|got|] == got;
    assert forall i :: 0 <= i < |got| ==> longer[..i] == got[..i];
    PortSetGrows(longer, |got|);
    assert longer[..|got| + 1] == longer;
  }

  /** Each binding is made for its stream, on a port that was free when its turn came. */
  ghost predicate TakesInTurn(streams: seq<StreamPlan>, base: set<nat>, got: seq<StreamBinding>) {
    && |got| <= |streams|
    && forall i :: 0 <= i < |got| ==>
         got[i] == Bind(streams[i], got[i].internal.port) && got[i].internal.port !in base + PortSet(got[..i])
  }

  lemma AllocatesInTurn(streams: seq<StreamPlan>, base: set<nat>, answers: nat -> nat -> PortAnswer,
                        got: seq<StreamBinding>, failed: bool)
    requires Allocates(streams, base, answers, got, failed)
    ensures TakesInTurn(streams, base, got)
  {
  }

  lemma TakenPortsWereFree(streams: seq<StreamPlan>, base: set<nat>, got: seq<StreamBinding>)
    requires TakesInTurn(streams, base, got)
    ensures base !! PortSet(got) && base + PortSet(got) - PortSet(got) == base
  {
    forall p | p in PortSet(got) ensures p !in base {
      var i :| 0 <= i < |got| && got[i].internal.port == p;
    }
  }

  lemma PortSetGrows(got: seq<StreamBinding>, n: nat)
    requires n < |got|
    ensures PortSet(got[..n + 1]) == PortSet(got[..n]) + {got[n].internal.port}
  {
    assert PortsOf(got[..n + 1]) == PortsOf(got[..n]) + [got[n].internal.port];
  }

  /** The loader gets as far as a rewritten graph. */
  predicate Rewrites(grc: Document, bindings: seq<StreamBinding>) {
    grc.root.None? || RewrittenGraph(grc.root.value, bindings).Ok?
  }

  /** The leftover bindings are released before new ports are taken. */
  function Cleared(before: Section): Section {
    before.(r := before.r.(bindings := []), ports := before.ports - PortSet(before.r.bindings))
  }

  ghost predicate Prepares(session: Session, env: Environment, before: Section, after: Section, outcome: Outcome) {
    if before.r.phase == PhaseStopping then after == before && outcome == Threw
    else if before.r.execution.Some? then after == before && outcome == Returned
    else if !ContractHolds(DocumentStreams(session.grc)) || !env.ready then after == before && outcome == Threw
    else
      var cleared := Cleared(before);
      exists got, failed :: (
        && Allocates(DerivedStreams(session), cleared.ports, env.answers, got, failed)
        && AfterAllocation(session, env, cleared, got, failed, after, outcome))
  }

  /**
   An allocation that fails leaves the ports taken before it to nobody; a graph
   that does not load gives all of them back.
   */
  ghost predicate AfterAllocation(session: Session, env: Environment, cleared: Section, got: seq<StreamBinding>,
                                  failed: bool, after: Section, outcome: Outcome)
  {
    if failed then
      && after == cleared.(ports := cleared.ports + PortSet(got), leaked := cleared.leaked + PortSet(got))
      && outcome == Threw
    else if !env.loads || !Rewrites(session.grc, got) then after == cleared && outcome == Threw
    else
      && outcome == Returned
      && exists graph :: (
        && IsLoadedGraph(session.grc, got, graph)
        && after == cleared.(r := Installed(cleared.r, graph, got), ports := cleared.ports + PortSet(got)))
  }

  // ------------------------------------------------------------------ start

  /** What follows the prepare inside start. */
  function LaunchResult(env: Environment, r: Resource): (Resource, Outcome)
    requires r.execution.Some?
  {
    if IsRunning(r) then (r, Returned)
    else if env.starts then (Launched(Launching(r)), Returned)
    else (Launching(r), Threw)
  }

  ghost predicate Starts(session: Session, env: Environment, before: Section, after: Section, outcome: Outcome) {
    exists mid, prepared :: (
      && Prepares(session, env, before, mid, prepared)
      && if prepared == Threw then after == mid && outcome == Threw
         else
           mid.r.execution.Some?
           && after == mid.(r := LaunchResult(env, mid.r).0) && outcome == LaunchResult(env, mid.r).1)
  }

  // ------------------------------------------------------- stop and destroy

  /** The section `stop_locked`: only a running scheduler can make it throw. */
  function StopResult(env: Environment, before: Section): (Section, Outcome) {
    var r := before.r;
    if r.execution.Some? && r.phase == PhaseStopping then (before, Threw)
    else if r.execution.Some? && r.execution.value.running && !env.stops then
      (before.(r := HaltFailed(Halting(r))), Threw)
    else (before.(r := Halted(r), ports := before.ports - PortSet(r.bindings)), Returned)
  }

  // ------------------------------------------------------------ whole calls

  /** The manager as its callers see it: the resources by session, and the ports. */
  datatype RuntimeView = RuntimeView(table: map<string, Resource>, ports: set<nat>, leaked: set<nat>)

  function SectionOf(v: RuntimeView, id: string): Section {
    Section(if id in v.table then v.table[id] else FreshResource(id), v.ports, v.leaked)
  }

  function WithSection(v: RuntimeView, id: string, section: Section): RuntimeView {
    RuntimeView(v.table[id := section.r], section.ports, section.leaked)
  }

  ghost predicate PrepareCall(session: Session, env: Environment, v: RuntimeView, v': RuntimeView, outcome: Outcome) {
    exists after :: (
      && Prepares(session, env, SectionOf(v, session.id), after, outcome)
      && v' == WithSection(v, session.id, after))
  }

  ghost predicate StartCall(session: Session, env: Environment, v: RuntimeView, v': RuntimeView, outcome: Outcome) {
    exists after :: (
      && Starts(session, env, SectionOf(v, session.id), after, outcome)
      && v' == WithSection(v, session.id, after))
  }

  function StopCall(env: Environment, v: RuntimeView, id: string): (RuntimeView, Outcome) {
    if id !in v.table then (v, Returned)
    else
      var (after, outcome) := StopResult(env, SectionOf(v, id));
      (WithSection(v, id, after), outcome)
  }

  function DestroyCall(env: Environment, v: RuntimeView, id: string): (RuntimeView, Outcome) {
    var (v', outcome) := StopCall(env, v, id);
    (if outcome == Returned then v'.(table := v'.table - {id}) else v', outcome)
  }
}
