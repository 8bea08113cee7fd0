/** Every action of the lifecycle machine keeps the invariant. */
module LifecycleSteps {
  import opened Wrappers
  import opened PropertyValues
  import opened SessionStream
  import opened GraphRewrite
  import opened Sessions
  import opened Ports
  import opened RuntimeSections
  import opened Lifecycle
  import opened LifecycleInvariant

  // ------------------------------------------------------ prepare and start

  lemma EnterPrepareKeeps(s: State, c: ClientId, environmentReady: bool)
    requires Inv(s) && Enabled(s, Enter(c, environmentReady))
    requires s.clients[c].calls[0].Prepare? || s.clients[c].calls[0].Launch?
    ensures Inv(DoEnterPrepare(s, c, environmentReady))
    ensures SameElsewhere(s, DoEnterPrepare(s, c, environmentReady), s.clients[c].session.id)
  {
    hide IsLoadedGraph;
    Here(s, c);
    var client, ref := s.clients[c], s.clients[c].at.ref;
    var r, s' := s.heap[ref], DoEnterPrepare(s, c, environmentReady);
    PendingTail(client.op, client.calls);
    var streams := DerivedStreams(client.session);
    assert streams[..0] == [] && streams[0..] == streams;
    StepKeeps(s, s', c, s'.clients[c], ref, s'.heap[ref]);
  }

  lemma BindOneMore(streams: seq<StreamPlan>, todo: seq<StreamPlan>, got: seq<StreamBinding>, port: nat)
    requires |got| < |streams| && BindsStreams(streams[..|got|], got) && todo == streams[|got|..]
    ensures BindsStreams(streams[..|got| + 1], got + [Bind(todo[0], port)]) && todo[1..] == streams[|got| + 1..]
  {
    assert streams[..|got| + 1] == streams[..|got|] + [todo[0]];
  }

  lemma AllocateKeeps(s: State, c: ClientId, port: nat)
    requires Inv(s) && Enabled(s, Allocate(c, port))
    ensures Inv(DoAllocate(s, c, port))
    ensures SameElsewhere(s, DoAllocate(s, c, port), s.clients[c].session.id)
  {
    Here(s, c);
    var client, ref := s.clients[c], s.clients[c].at.ref;
    var r, s' := s.heap[ref], DoAllocate(s, c, port);
    var at := client.at;
    BindOneMore(DerivedStreams(client.session), at.todo, at.got, port);
    StepKeeps(s, s', c, client.(at := Allocating(ref, at.todo[1..], at.got + [Bind(at.todo[0], port)])), ref, r);
  }

  lemma VacantServes(r: Resource, session: Session)
    requires Vacant(r)
    ensures Settled(r) && Serves(r, session)
  {
  }

  lemma AllocateFailsKeeps(s: State, c: ClientId)
    requires Inv(s) && Enabled(s, AllocateFails(c))
    ensures Inv(DoAllocateFails(s, c))
    ensures SameElsewhere(s, DoAllocateFails(s, c), s.clients[c].session.id)
  {
    Here(s, c);
    var client, ref := s.clients[c], s.clients[c].at.ref;
    var r, s' := s.heap[ref], DoAllocateFails(s, c);
    VacantServes(r, client.session);
    StepKeeps(s, s', c, client.(at := Failing), ref, r);
  }

  lemma BuildKeeps(s: State, c: ClientId, graph: GraphText)
    requires Inv(s) && Enabled(s, Build(c, graph))
    ensures Inv(DoBuild(s, c, graph))
    ensures SameElsewhere(s, DoBuild(s, c, graph), s.clients[c].session.id)
  {
    hide Inv, SameElsewhere;
    Here(s, c);
    var client, ref := s.clients[c], s.clients[c].at.ref;
    var r, s' := s.heap[ref], DoBuild(s, c, graph);
    PendingTail(client.op, client.calls);
    assert DerivedStreams(client.session)[..|client.at.got|] == DerivedStreams(client.session);
    StepKeeps(s, s', c, client.(calls := client.calls[1..], at := Entering), ref, Installed(r, graph, client.at.got));
  }

  lemma BuildFailsKeeps(s: State, c: ClientId)
    requires Inv(s) && Enabled(s, BuildFails(c))
    ensures Inv(DoBuildFails(s, c))
    ensures SameElsewhere(s, DoBuildFails(s, c), s.clients[c].session.id)
  {
    Here(s, c);
    var client, ref := s.clients[c], s.clients[c].at.ref;
    var r, s' := s.heap[ref], DoBuildFails(s, c);
    StepKeeps(s, s', c, client.(at := Unwinding(ref, client.at.got)), ref, r);
  }

  lemma UnwindKeeps(s: State, c: ClientId)
    requires Inv(s) && Enabled(s, Unwind(c))
    ensures Inv(DoUnwind(s, c))
    ensures SameElsewhere(s, DoUnwind(s, c), s.clients[c].session.id)
  {
    Here(s, c);
    var client, ref := s.clients[c], s.clients[c].at.ref;
    var r, s' := s.heap[ref], DoUnwind(s, c);
    VacantServes(r, client.session);
    StepKeeps(s, s', c, s'.clients[c], ref, r);
  }

  lemma LaunchKeeps(s: State, c: ClientId, ok: bool)
    requires Inv(s) && Enabled(s, LaunchScheduler(c, ok))
    ensures Inv(DoLaunch(s, c, ok))
    ensures SameElsewhere(s, DoLaunch(s, c, ok), s.clients[c].session.id)
  {
    hide DerivedStreams, IsLoadedGraph, BindsStreams, Inv, SameElsewhere;
    Here(s, c);
    var client, ref := s.clients[c], s.clients[c].at.ref;
    var r, s' := s.heap[ref], DoLaunch(s, c, ok);
    PendingTail(client.op, client.calls);
    if ok {
      StepKeeps(s, s', c, client.(calls := client.calls[1..], at := Entering), ref, Launched(r));
    } else {
      StepKeeps(s, s', c, client.(at := Failing), ref, r);
    }
  }

  // ------------------------------------------------------- stop and destroy

  lemma EnterHaltKeeps(s: State, c: ClientId, environmentReady: bool)
    requires Inv(s) && Enabled(s, Enter(c, environmentReady))
    requires s.clients[c].calls[0].Halt? || s.clients[c].calls[0].Destroy?
    ensures Inv(DoEnterHalt(s, c))
    ensures SameElsewhere(s, DoEnterHalt(s, c), s.clients[c].session.id)
  {
    hide Inv, SameElsewhere;
    Here(s, c);
    var client, ref := s.clients[c], s.clients[c].at.ref;
    var r, s' := s.heap[ref], DoEnterHalt(s, c);
    StepKeeps(s, s', c, s'.clients[c], ref, s'.heap[ref]);
  }

  lemma HaltKeeps(s: State, c: ClientId, ok: bool)
    requires Inv(s) && Enabled(s, HaltScheduler(c, ok))
    ensures Inv(DoHalt(s, c, ok))
    ensures SameElsewhere(s, DoHalt(s, c, ok), s.clients[c].session.id)
  {
    hide Inv, SameElsewhere;
    Here(s, c);
    var client, ref := s.clients[c], s.clients[c].at.ref;
    var r, s' := s.heap[ref], DoHalt(s, c, ok);
    StepKeeps(s, s', c, s'.clients[c], ref, s'.heap[ref]);
  }

  lemma DrainKeeps(s: State, c: ClientId)
    requires Inv(s) && Enabled(s, Drain(c))
    ensures Inv(DoDrain(s, c))
    ensures SameElsewhere(s, DoDrain(s, c), s.clients[c].session.id)
  {
    hide ContractHolds, DerivedStreams, IsLoadedGraph, BindsStreams, Inv, SameElsewhere;
    Here(s, c);
    var client, ref := s.clients[c], s.clients[c].at.ref;
    var r, s' := s.heap[ref], DoDrain(s, c);
    PendingTail(client.op, client.calls);
    VacantServes(Halted(r), client.session);
    StepKeeps(s, s', c, s'.clients[c], ref, s'.heap[ref]);
  }

  // -------------------------------------------------- the table of resources

  /** A section by client `c` that leaves the table without an entry for its session, or with a fresh one. */
  lemma TableStepKeeps(s: State, s': State, c: ClientId)
    requires Inv(s) && c in s.clients && s.clients[c].Lifecycle?
    requires var id := s.clients[c].session.id;
      && s'.sessions == s.sessions && s'.phases == s.phases && s'.table - {id} == s.table - {id}
      && s'.clients.Keys == s.clients.Keys && OnId(s'.clients[c], id)
      && (forall d :: d in s.clients && d != c ==> s'.clients[d] == s.clients[d])
      && (forall ref :: ref in s.heap ==> ref in s'.heap && s'.heap[ref] == s.heap[ref])
      && (forall ref :: ref in s'.heap && ref !in s.heap ==> Vacant(s'.heap[ref]) && s'.heap[ref].sessionId == id)
      && (id in s.table && s.table[id] in s.heap && !Current(s', id, s.table[id]) ==> Vacant(s.heap[s.table[id]]))
      && (id in s'.table ==>
            s'.table[id] in s'.heap && Vacant(s'.heap[s'.table[id]]) && s'.heap[s'.table[id]].sessionId == id)
      && PointersInv(s') && ClientInv(s', id, s'.clients[c])
    ensures Inv(s') && SameElsewhere(s, s', s.clients[c].session.id)
  {
    var id := s.clients[c].session.id;
    assert SessionInv(s, id);
    Here(s, c);
    forall d | d in s'.clients && OnId(s'.clients[d], id) ensures d == c {
    }
    assert InFlight(s', id);
    assert forall other :: other != id ==> (other in s'.table <==> other in s'.table - {id});
    assert forall other :: other != id ==> (other in s.table <==> other in s.table - {id});
    assert SameElsewhere(s, s', id);
    if id in s'.table {
      VacantServes(s'.heap[s'.table[id]], s.sessions[id]);
    }
    KeepsInv(s, s', id);
  }

  lemma LookupFindsKeeps(s: State, c: ClientId)
    requires Inv(s) && Enabled(s, Lookup(c)) && s.clients[c].session.id in s.table
    ensures Inv(DoLookup(s, c))
    ensures SameElsewhere(s, DoLookup(s, c), s.clients[c].session.id)
  {
    Here(s, c);
    var client, ref := s.clients[c], s.table[s.clients[c].session.id];
    StepKeeps(s, DoLookup(s, c), c, client.(at := Found(ref)), ref, s.heap[ref]);
  }

  lemma LookupCreatesKeeps(s: State, c: ClientId)
    requires Inv(s) && Enabled(s, Lookup(c)) && s.clients[c].session.id !in s.table
    requires s.clients[c].calls[0].Prepare? || s.clients[c].calls[0].Launch?
    ensures Inv(DoLookup(s, c))
    ensures SameElsewhere(s, DoLookup(s, c), s.clients[c].session.id)
  {
    hide DerivedStreams, IsLoadedGraph, BindsStreams;
    Here(s, c);
    TableStepKeeps(s, DoLookup(s, c), c);
  }

  lemma LookupMissesKeeps(s: State, c: ClientId)
    requires Inv(s) && Enabled(s, Lookup(c)) && s.clients[c].session.id !in s.table
    requires s.clients[c].calls[0].Halt? || s.clients[c].calls[0].Destroy?
    ensures Inv(DoLookup(s, c))
    ensures SameElsewhere(s, DoLookup(s, c), s.clients[c].session.id)
  {
    Here(s, c);
    PendingTail(s.clients[c].op, s.clients[c].calls);
    TableStepKeeps(s, DoLookup(s, c), c);
  }

  lemma LookupKeeps(s: State, c: ClientId)
    requires Inv(s) && Enabled(s, Lookup(c))
    ensures Inv(DoLookup(s, c))
    ensures SameElsewhere(s, DoLookup(s, c), s.clients[c].session.id)
  {
    if s.clients[c].session.id in s.table {
      LookupFindsKeeps(s, c);
    } else if s.clients[c].calls[0].Halt? || s.clients[c].calls[0].Destroy? {
      LookupMissesKeeps(s, c);
    } else {
      LookupCreatesKeeps(s, c);
    }
  }

  lemma EraseKeeps(s: State, c: ClientId)
    requires Inv(s) && Enabled(s, Erase(c))
    ensures Inv(DoErase(s, c))
    ensures SameElsewhere(s, DoErase(s, c), s.clients[c].session.id)
  {
    Here(s, c);
    PendingTail(s.clients[c].op, s.clients[c].calls);
    TableStepKeeps(s, DoErase(s, c), c);
  }

  // --------------------------------------------------------------- service

  lemma CreateLands(s: State, id: string, name: string, grc: Document, schedulerAlias: Option<string>, now: int)
    requires id !in s.sessions && WellKeyed(s, id) && ResourcesInv(s, id)
    requires forall c :: c in s.clients ==> !OnId(s.clients[c], id)
    ensures SessionInv(DoCreate(s, id, name, grc, schedulerAlias, now), id)
  {
    hide IsLoadedGraph, BindsStreams;
  }

  lemma CreateElsewhere(s: State, id: string, name: string, grc: Document, schedulerAlias: Option<string>, now: int)
    requires PointersInv(s) && WellKeyed(s, id) && id !in s.sessions
    ensures SameElsewhere(s, DoCreate(s, id, name, grc, schedulerAlias, now), id)
    ensures PointersInv(DoCreate(s, id, name, grc, schedulerAlias, now))
  {
  }

  lemma CreateKeeps(s: State, id: string, name: string, grc: Document, schedulerAlias: Option<string>, now: int)
    requires Inv(s) && id !in s.sessions
    ensures Inv(DoCreate(s, id, name, grc, schedulerAlias, now))
    ensures SameElsewhere(s, DoCreate(s, id, name, grc, schedulerAlias, now), id)
  {
    hide DoCreate, SessionInv, SameElsewhere;
    NothingInFlight(s, id);
    CreateLands(s, id, name, grc, schedulerAlias, now);
    CreateElsewhere(s, id, name, grc, schedulerAlias, now);
    KeepsInv(s, DoCreate(s, id, name, grc, schedulerAlias, now), id);
  }

  lemma ClaimLands(s: State, c: ClientId, op: Op, id: string)
    requires Enabled(s, Claim(c, op, id)) && Judge(s.sessions, s.phases, op, id) == Granted
    requires WellKeyed(s, id) && ResourcesInv(s, id) && (id in s.table ==> ResourceFree(s, id))
    requires forall d :: d in s.clients ==> !OnId(s.clients[d], id)
    ensures SessionInv(DoClaim(s, c, op, id), id)
  {
    var s' := DoClaim(s, c, op, id);
    assert OnId(s'.clients[c], id) && InFlight(s', id);
    assert ClientInv(s', id, s'.clients[c]);
    forall d | d in s'.clients && OnId(s'.clients[d], id) ensures d == c {
    }
  }

  lemma ClaimElsewhere(s: State, c: ClientId, op: Op, id: string)
    requires PointersInv(s) && WellKeyed(s, id) && c !in s.clients && Judge(s.sessions, s.phases, op, id) == Granted
    ensures SameElsewhere(s, DoClaim(s, c, op, id), id) && PointersInv(DoClaim(s, c, op, id))
  {
    hide CallsOf, DerivedStreams;
    var s' := DoClaim(s, c, op, id);
    assert OnId(s'.clients[c], id);
    hide Judge;
  }

  lemma ClaimKeeps(s: State, c: ClientId, op: Op, id: string)
    requires Inv(s) && Enabled(s, Claim(c, op, id))
    ensures Inv(DoClaim(s, c, op, id))
    ensures SameElsewhere(s, DoClaim(s, c, op, id), id)
  {
    if Judge(s.sessions, s.phases, op, id) == Granted {
      assert SessionInv(s, id);
      NothingInFlight(s, id);
      ClaimLands(s, c, op, id);
      ClaimElsewhere(s, c, op, id);
      KeepsInv(s, DoClaim(s, c, op, id), id);
    }
  }

  /** The client leaves, and at most the record and phase of its session change. */
  ghost predicate Leaves(s: State, s': State, c: ClientId, id: string) {
    && c in s.clients && OnId(s.clients[c], id)
    && s'.clients == s.clients - {c} && s'.table == s.table && s'.heap == s.heap && s'.nextRef == s.nextRef
    && s'.sessions - {id} == s.sessions - {id} && s'.phases - {id} == s.phases - {id}
  }

  lemma LeaveElsewhere(s: State, s': State, c: ClientId, id: string)
    requires Leaves(s, s', c, id)
    ensures SameElsewhere(s, s', id) && (PointersInv(s) ==> PointersInv(s'))
  {
    assert forall other :: other != id ==> (other in s'.sessions <==> other in s'.sessions - {id});
    assert forall other :: other != id ==> (other in s.sessions <==> other in s.sessions - {id});
    assert forall other :: other != id ==> (other in s'.phases <==> other in s'.phases - {id});
    assert forall other :: other != id ==> (other in s.phases <==> other in s.phases - {id});
  }

  lemma LeaveLands(s: State, s': State, c: ClientId, id: string)
    requires Leaves(s, s', c, id) && SessionInv(s, id) && WellKeyed(s', id)
    requires id in s.table ==> !Holds(s.clients[c], s.table[id])
    requires id in s'.sessions ==>
      && id in s.sessions && s'.sessions[id].id == s.sessions[id].id && s'.sessions[id].grc == s.sessions[id].grc
      && Stable(s'.sessions[id].state, s'.phases[id], EntryOf(s', id))
    ensures SessionInv(s', id)
  {
    hide IsLoadedGraph, BindsStreams;
    assert forall d :: d in s'.clients ==> d in s.clients && d != c && !OnId(s'.clients[d], id);
    if id in s.table {
      assert ResourceFree(s, id);
      assert DerivedStreams(s'.sessions[id]) == DerivedStreams(s.sessions[id]);
    }
  }

  /** When the only client on a session leaves, the session must be stable, or gone with its resource. */
  lemma LeaveKeeps(s: State, s': State, c: ClientId, id: string)
    requires Inv(s) && Leaves(s, s', c, id) && (s.clients[c].at.Entering? || s.clients[c].at.Failing?)
    requires WellKeyed(s', id)
    requires id in s'.sessions ==>
      && id in s.sessions && s'.sessions[id].id == s.sessions[id].id && s'.sessions[id].grc == s.sessions[id].grc
      && Stable(s'.sessions[id].state, s'.phases[id], EntryOf(s', id))
    ensures Inv(s') && SameElsewhere(s, s', id)
  {
    hide SessionInv, SameElsewhere, PointersInv, Stable;
    assert SessionInv(s, id);
    LeaveElsewhere(s, s', c, id);
    LeaveLands(s, s', c, id);
    KeepsInv(s, s', id);
  }

  lemma CommitKeeps(s: State, c: ClientId, now: int)
    requires Inv(s) && Enabled(s, Commit(c, now))
    ensures Inv(DoCommit(s, c, now))
    ensures SameElsewhere(s, DoCommit(s, c, now), s.clients[c].session.id)
  {
    Here(s, c);
    LeaveKeeps(s, DoCommit(s, c, now), c, s.clients[c].session.id);
  }

  lemma RecordFailureKeeps(s: State, c: ClientId, now: int, message: string)
    requires Inv(s) && Enabled(s, RecordFailure(c, now, message))
    ensures Inv(DoRecordFailure(s, c, now, message))
    ensures SameElsewhere(s, DoRecordFailure(s, c, now, message), s.clients[c].session.id)
  {
    Here(s, c);
    LeaveKeeps(s, DoRecordFailure(s, c, now, message), c, s.clients[c].session.id);
  }

  // --------------------------------------------------------------- readers

  /** Readers change nothing but their own place. */
  lemma ReaderKeeps(s: State, s': State, c: ClientId)
    requires Inv(s) && PointersInv(s')
    requires c in s.clients ==> s.clients[c].Reader?
    requires c in s'.clients ==> s'.clients[c].Reader?
    requires forall d :: d != c ==>
      (d in s'.clients <==> d in s.clients) && (d in s.clients ==> s'.clients[d] == s.clients[d])
    requires s'.sessions == s.sessions && s'.phases == s.phases && s'.table == s.table && s'.heap == s.heap
    ensures Inv(s') && forall id :: SameElsewhere(s, s', id)
  {
    forall id ensures SessionInv(s', id) {
      assert SessionInv(s, id);
      OtherSessionsKeep(s, s', id + "'", id);
    }
  }

  lemma NothingDiffers(s: State)
    ensures forall id :: SameElsewhere(s, s, id)
  {
  }

  lemma ReadKeeps(s: State, action: Action)
    requires Inv(s) && Enabled(s, action) && (action.ReadClaim? || action.ReadLookup? || action.ReadSection?)
    ensures Inv(Apply(s, action)) && forall id :: SameElsewhere(s, Apply(s, action), id)
  {
    hide ContractHolds, DerivedStreams, IsLoadedGraph, SameElsewhere;
    var s' := Apply(s, action);
    if action.ReadLookup? {
      assert SessionInv(s, s.clients[action.c].session.id);
    }
    NothingDiffers(s);
    if s' != s {
      ReaderKeeps(s, s', action.c);
    }
  }

  // ------------------------------------------------------------------ runs

  /** The session an action works on. */
  function Subject(s: State, action: Action): string {
    match action
    case Create(id, _, _, _, _) => id
    case Claim(_, _, id) => id
    case ReadClaim(_, id) => id
    case _ => if action.c in s.clients then s.clients[action.c].session.id else ""
  }

  predicate IsCallAction(action: Action) {
    action.Enter? || action.Allocate? || action.AllocateFails? || action.Build? || action.BuildFails? || action.Unwind?
    || action.LaunchScheduler? || action.HaltScheduler? || action.Drain?
  }

  lemma CallActionKeeps(s: State, action: Action)
    requires Inv(s) && Enabled(s, action) && IsCallAction(action)
    ensures Inv(Apply(s, action)) && SameElsewhere(s, Apply(s, action), s.clients[action.c].session.id)
  {
    match action
    case Enter(c, environmentReady) =>
      if s.clients[c].calls[0].Prepare? || s.clients[c].calls[0].Launch? {
        EnterPrepareKeeps(s, c, environmentReady);
      } else {
        EnterHaltKeeps(s, c, environmentReady);
      }
    case Allocate(c, port) => AllocateKeeps(s, c, port);
    case AllocateFails(c) => AllocateFailsKeeps(s, c);
    case Build(c, graph) => BuildKeeps(s, c, graph);
    case BuildFails(c) => BuildFailsKeeps(s, c);
    case Unwind(c) => UnwindKeeps(s, c);
    case LaunchScheduler(c, ok) => LaunchKeeps(s, c, ok);
    case HaltScheduler(c, ok) => HaltKeeps(s, c, ok);
    case Drain(c) => DrainKeeps(s, c);
  }

  lemma ServiceActionKeeps(s: State, action: Action)
    requires Inv(s) && Enabled(s, action) && !IsCallAction(action)
    ensures Inv(Apply(s, action)) && SameElsewhere(s, Apply(s, action), Subject(s, action))
  {
    match action
    case Create(id, name, grc, schedulerAlias, now) => CreateKeeps(s, id, name, grc, schedulerAlias, now);
    case Claim(c, op, id) => ClaimKeeps(s, c, op, id);
    case Lookup(c) => LookupKeeps(s, c);
    case Erase(c) => EraseKeeps(s, c);
    case Commit(c, now) => CommitKeeps(s, c, now);
    case RecordFailure(c, now, message) => RecordFailureKeeps(s, c, now, message);
    case ReadClaim(c, id) => ReadKeeps(s, action);
    case ReadLookup(c) => ReadKeeps(s, action);
    case ReadSection(c) => ReadKeeps(s, action);
  }

  /**
   Every action keeps the invariant, and leaves every other session's record, phase, resource and
   operations alone.
   */
  lemma ActionKeeps(s: State, action: Action)
    requires Inv(s) && Enabled(s, action)
    ensures Inv(Apply(s, action))
    ensures SameElsewhere(s, Apply(s, action), Subject(s, action))
  {
    if IsCallAction(action) {
      CallActionKeeps(s, action);
    } else {
      ServiceActionKeeps(s, action);
    }
  }

  lemma {:induction false} RunKeeps(s: State, actions: seq<Action>)
    requires Inv(s) && IsRun(s, actions)
    ensures Inv(After(s, actions))
    decreases |actions|
  {
    if actions != [] {
      ActionKeeps(s, actions[0]);
      RunKeeps(Apply(s, actions[0]), actions[1..]);
    }
  }

  /** The invariant holds in every reachable state. */
  lemma ReachableInv(s: State)
    requires Reachable(s)
    ensures Inv(s)
  {
    var actions :| IsRun(INITIAL, actions) && After(INITIAL, actions) == s;
    forall id ensures SessionInv(INITIAL, id) {
    }
    RunKeeps(INITIAL, actions);
  }
}
