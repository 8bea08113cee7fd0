/** Stored sessions and their in-memory repository (src/storage/in_memory_session_repository.cpp). */
module Sessions {
  import opened Wrappers
  import opened PropertyValues
  import opened SessionStream

  datatype SessionState = Stopped | Running | Error

  datatype Session = Session(
    id: string,
    name: string,
    grc: Document,
    schedulerAlias: Option<string>,
    state: SessionState,
    lastError: Option<string>,
    createdAt: int,
    updatedAt: int)

  /** The streams a session asks for, in plan order. */
  ghost function DerivedStreams(session: Session): seq<StreamPlan> {
    match DerivedPlan(session.id, session.grc)
    case Some(plan) => plan
    case None => []
  }

  datatype RepositoryError = AlreadyExists | UnknownSession

  class InMemorySessionRepository {
    var sessions: map<string, Session>

    constructor ()
      ensures sessions == map[]
    {
      sessions := map[];
    }

    method Create(session: Session) returns (result: Result<(), RepositoryError>)
      modifies this
      ensures result.Ok? <==> session.id !in old(sessions)
      ensures sessions == if result.Ok? then old(sessions)[session.id := session] else old(sessions)
    {
      if session.id in sessions {
        return Err(AlreadyExists);
      }
      sessions := sessions[session.id := session];
      return Ok(());
    }

    method Get(id: string) returns (session: Option<Session>)
      ensures session.Some? <==> id in sessions
      ensures session.Some? ==> session.value == sessions[id]
    {
      session := if id in sessions then Some(sessions[id]) else None;
    }

    method Update(session: Session) returns (result: Result<(), RepositoryError>)
      modifies this
      ensures result.Ok? <==> session.id in old(sessions)
      ensures sessions == if result.Ok? then old(sessions)[session.id := session] else old(sessions)
    {
      if session.id !in sessions {
        return Err(UnknownSession);
      }
      sessions := sessions[session.id := session];
      return Ok(());
    }

    method Remove(id: string) returns (removed: bool)
      modifies this
      ensures removed <==> id in old(sessions)
      ensures sessions == old(sessions) - {id}
    {
      removed := id in sessions;
      sessions := sessions - {id};
    }
  }
}
