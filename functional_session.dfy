/** The FunctionalSession class: helpers that open a session, optionally wrap the
    caller's function in a transaction, and release what they opened.  Each helper
    makes the calls the Java method makes, in the same order and under the same
    guards, and is proved to end exactly as the matching function of module
    Lifecycle says. */
module FunctionalSessions {
  import opened Hibernate
  import opened Operations
  import Lifecycle

  /** The stream `runNamedStreamQuery` returns: its session, and whether the close
      handler `session::close` registered with `onClose` has still to run. */
  class QueryStream {
    const session: Session
    var handlerPending: bool

    function State(): Lifecycle.StreamState
      reads this, session
    {
      Lifecycle.StreamState(session.View(), handlerPending)
    }

    /** A stream over `session` whose close handler is registered. */
    constructor (session: Session)
      ensures this.session == session && handlerPending
    {
      this.session := session;
      handlerPending := true;
    }

    /** `stream.close()`: the handler runs on the first close only. */
    method Close(answer: Step) returns (r: Step)
      modifies this, session
      ensures (State(), r) == Lifecycle.CloseStream(old(State()), answer)
    {
      if handlerPending {
        handlerPending := false;
        r := session.Close(answer);
      } else {
        r := Ok;
      }
    }
  }

  datatype StreamResult = StreamOf(stream: QueryStream) | StreamFailure(thrown: Throwable)

  class FunctionalSession {
    /** The backing, long-lived session factory. */
    const sessionFactory: SessionFactory

    constructor (sessionFactory: SessionFactory)
      ensures this.sessionFactory == sessionFactory
    {
      this.sessionFactory := sessionFactory;
    }

    /** The factory handed out exactly one session since it had handed out
        `before`, and that session is now in state `h`. */
    ghost predicate OpenedOne(before: seq<Session>, h: Handle)
      reads sessionFactory, sessionFactory.handedOut
    {
      |sessionFactory.handedOut| == |before| + 1
      && sessionFactory.handedOut[..|before|] == before
      && sessionFactory.handedOut[|before|].View() == h
    }

    /** The sessions handed out since `before` are those `c` describes. */
    ghost predicate Reports<T>(before: seq<Session>, c: Lifecycle.Scoped<T>)
      reads sessionFactory, sessionFactory.handedOut
    {
      match c
      case NotOpened(_) => sessionFactory.handedOut == before
      case Ran(h, _) => OpenedOne(before, h)
    }

    /** `getInSession(function)` (try-with-resources around `function.apply`). */
    method GetInSession<T>(env: Lifecycle.Responses, w: Work<T>) returns (r: Outcome<T>)
      modifies sessionFactory
      ensures r == Lifecycle.GetInSession(env, w).Result()
      ensures Reports(old(sessionFactory.handedOut), Lifecycle.GetInSession(env, w))
    {
      var opening := sessionFactory.OpenSession(env.open);
      if opening.OpenFailed? {
        return Failure(opening.thrown);
      }
      var session := opening.session;
      var result := Apply(session, w);
      var closed := session.Close(env.close);
      r := Lifecycle.TryWithResources(result, closed);
    }

    /** `runInSession(consumer)` */
    method RunInSession(env: Lifecycle.Responses, w: Work<()>) returns (r: Step)
      modifies sessionFactory
      ensures r == Lifecycle.RunInSession(env, w)
      ensures Reports(old(sessionFactory.handedOut), Lifecycle.GetInSession(env, w))
    {
      var result := GetInSession(env, w);
      r := Lifecycle.Discard(result);
    }

    /** The function `getInTransaction` hands to `getInSession`, run on `session`:
        begin, run the caller's function, commit if still active, and roll back in
        `finally` if still active. */
    method TransactionBody<T>(session: Session, env: Lifecycle.Responses, w: Work<T>) returns (r: Outcome<T>)
      modifies session
      ensures Run(session.View(), r) == Lifecycle.TransactionBody(env, w, old(session.View()))
    {
      var begun := session.BeginTransaction(env.begin);
      if begun.Throws? {
        return Failure(begun.thrown);
      }
      // try
      var pending := Apply(session, w);
      if pending.Value? && session.IsActive() {
        var committed := session.Commit(env.commit);
        if committed.Throws? {
          pending := Failure(committed.thrown);
        }
      }
      // finally
      if session.IsActive() {
        var rolledBack := session.Rollback(env.rollback);
        if rolledBack.Throws? {
          pending := Failure(rolledBack.thrown);
        }
      }
      r := pending;
    }

    /** `getInTransaction(function)`: `getInSession` with the transaction body as
        its function. */
    method GetInTransaction<T>(env: Lifecycle.Responses, w: Work<T>) returns (r: Outcome<T>)
      modifies sessionFactory
      ensures r == Lifecycle.GetInTransaction(env, w).Result()
      ensures Reports(old(sessionFactory.handedOut), Lifecycle.GetInTransaction(env, w))
    {
      var opening := sessionFactory.OpenSession(env.open);
      if opening.OpenFailed? {
        return Failure(opening.thrown);
      }
      var session := opening.session;
      var result := TransactionBody(session, env, w);
      var closed := session.Close(env.close);
      r := Lifecycle.TryWithResources(result, closed);
    }

    /** `runInTransaction(consumer)` */
    method RunInTransaction(env: Lifecycle.Responses, w: Work<()>) returns (r: Step)
      modifies sessionFactory
      ensures r == Lifecycle.RunInTransaction(env, w)
      ensures Reports(old(sessionFactory.handedOut), Lifecycle.GetInTransaction(env, w))
    {
      var result := GetInTransaction(env, w);
      r := Lifecycle.Discard(result);
    }

    /** `runNamedListQuery(queryName, resultElementType)`; Hibernate answers the
        query with `answer`. */
    method RunNamedListQuery<T>(env: Lifecycle.Responses, name: string, answer: Outcome<seq<T>>)
      returns (r: Outcome<seq<T>>)
      modifies sessionFactory
      ensures r == Lifecycle.RunNamedListQuery(env, name, answer).Result()
      ensures Reports(old(sessionFactory.handedOut), Lifecycle.RunNamedListQuery(env, name, answer))
    {
      r := GetInSession(env, Lifecycle.ListQueryWork(name, answer));
    }

    /** `runNamedStreamQuery(queryName, resultElementType)`; `build` is how creating
        the query's stream and registering its close handler ends. */
    method RunNamedStreamQuery(env: Lifecycle.Responses, name: string, build: Step) returns (r: StreamResult)
      modifies sessionFactory
      ensures match Lifecycle.RunNamedStreamQuery(env, name, build)
              case StreamNotOpened(t) =>
                r == StreamFailure(t) && sessionFactory.handedOut == old(sessionFactory.handedOut)
              case StreamFailed(h, t) =>
                r == StreamFailure(t) && OpenedOne(old(sessionFactory.handedOut), h)
              case StreamReady(h) =>
                r.StreamOf? && fresh(r.stream) && r.stream.handlerPending
                && OpenedOne(old(sessionFactory.handedOut), h)
                && r.stream.session == sessionFactory.handedOut[|old(sessionFactory.handedOut)|]
    {
      var opening := sessionFactory.OpenSession(env.open);
      if opening.OpenFailed? {
        return StreamFailure(opening.thrown);
      }
      var session := opening.session;
      // try
      var built := session.Perform(NamedQuery(name), build);
      if built.Ok? {
        var stream := new QueryStream(session);
        return StreamOf(stream);
      }
      // catch (Exception ex): an Error is not caught and leaves the session open
      if built.thrown.Exception? {
        var closed := session.Close(env.close);
        if closed.Throws? {
          return StreamFailure(closed.thrown);
        }
      }
      r := StreamFailure(built.thrown);
    }

    /** `saveOrUpdateInTransaction(object)`; `answer` is how `session.saveOrUpdate` ends. */
    method SaveOrUpdateInTransaction(env: Lifecycle.Responses, entity: EntityRef, answer: Step) returns (r: Step)
      modifies sessionFactory
      ensures r == Lifecycle.RunInTransaction(env, Lifecycle.ActionWork(SaveOrUpdate(entity), answer))
      ensures Reports(old(sessionFactory.handedOut),
                      Lifecycle.GetInTransaction(env, Lifecycle.ActionWork(SaveOrUpdate(entity), answer)))
    {
      r := RunInTransaction(env, Lifecycle.ActionWork(SaveOrUpdate(entity), answer));
    }

    /** `saveInTransaction(object)`; `answer` is how `session.save` ends. */
    method SaveInTransaction(env: Lifecycle.Responses, entity: EntityRef, answer: Step) returns (r: Step)
      modifies sessionFactory
      ensures r == Lifecycle.RunInTransaction(env, Lifecycle.ActionWork(Save(entity), answer))
      ensures Reports(old(sessionFactory.handedOut),
                      Lifecycle.GetInTransaction(env, Lifecycle.ActionWork(Save(entity), answer)))
    {
      r := RunInTransaction(env, Lifecycle.ActionWork(Save(entity), answer));
    }

    /** `updateInTransaction(object)`; `answer` is how `session.update` ends. */
    method UpdateInTransaction(env: Lifecycle.Responses, entity: EntityRef, answer: Step) returns (r: Step)
      modifies sessionFactory
      ensures r == Lifecycle.RunInTransaction(env, Lifecycle.ActionWork(Update(entity), answer))
      ensures Reports(old(sessionFactory.handedOut),
                      Lifecycle.GetInTransaction(env, Lifecycle.ActionWork(Update(entity), answer)))
    {
      r := RunInTransaction(env, Lifecycle.ActionWork(Update(entity), answer));
    }

    /** `deleteInTransaction(object)`; `answer` is how `session.delete` ends. */
    method DeleteInTransaction(env: Lifecycle.Responses, entity: EntityRef, answer: Step) returns (r: Step)
      modifies sessionFactory
      ensures r == Lifecycle.RunInTransaction(env, Lifecycle.ActionWork(Delete(entity), answer))
      ensures Reports(old(sessionFactory.handedOut),
                      Lifecycle.GetInTransaction(env, Lifecycle.ActionWork(Delete(entity), answer)))
    {
      r := RunInTransaction(env, Lifecycle.ActionWork(Delete(entity), answer));
    }
  }
}
