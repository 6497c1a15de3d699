/** What each FunctionalSession helper does to the session it opens and what it
    returns, as functions of Hibernate's answers and of the caller's function.
    Java's `try`-with-resources, `try`/`finally` and `try`/`catch` are spelled out
    here; the imperative helpers in module FunctionalSessions are proved to behave
    exactly as these functions say. */
module Lifecycle {
  import opened Hibernate
  import opened Operations

  /** Hibernate's answers to the calls a helper makes itself (not those made by the
      caller's function, which its script carries). */
  datatype Responses = Responses(open: Step, begin: Step, commit: Resolution, rollback: Resolution, close: Step)

  /** The result of a helper that opens a session: `openSession()` threw, or the
      session was opened, used, and is left in state `session`. */
  datatype Scoped<T> = NotOpened(thrown: Throwable) | Ran(session: Handle, outcome: Outcome<T>)
  {
    function Result(): Outcome<T> {
      if NotOpened? then Failure(thrown) else outcome
    }
  }

  /** How a helper that returns nothing ends. */
  function Discard<T>(o: Outcome<T>): (s: Step)
    ensures s.Ok? <==> o.Value?
    ensures s.Throws? ==> s.thrown == o.thrown
  {
    if o.Value? then Ok else Throws(o.thrown)
  }

  /** The outcome of a `try`-with-resources statement whose block ended with `body`
      and whose resource's `close()` ended with `close`: a Throwable from the block
      wins (the one from `close()` is only attached to it as suppressed); on a
      normal exit a throwing `close()` replaces the block's value. */
  function TryWithResources<T>(body: Outcome<T>, close: Step): (o: Outcome<T>)
    ensures o.Failure? <==> body.Failure? || close.Throws?
    ensures body.Failure? ==> o == body
    ensures o.Value? ==> o == body
    ensures body.Value? && close.Throws? ==> o.thrown == close.thrown
  {
    if body.Failure? || close.Ok? then body else Failure(close.thrown)
  }

  /** `try (Session session = sessionFactory.openSession()) { return body(session); }` */
  function InSession<T>(open: Step, body: Handle -> Run<T>, close: Step): (c: Scoped<T>)
    ensures open.Throws? <==> c.NotOpened?
    ensures c.NotOpened? ==> c.thrown == open.thrown
    ensures c.Ran? ==> c.session.log == body(Fresh()).session.log + [Close]
    ensures c.Ran? && close.Ok? ==> c.session.status == Closed
    ensures c.Ran? ==> c.session.tx == body(Fresh()).session.tx
    ensures c.Ran? && body(Fresh()).outcome.Failure? ==> c.outcome == body(Fresh()).outcome
    ensures c.Ran? && body(Fresh()).outcome.Value? && close.Ok? ==> c.outcome == body(Fresh()).outcome
    ensures c.Ran? && body(Fresh()).outcome.Value? && close.Throws? ==> c.outcome == Failure(close.thrown)
  {
    if open.Throws? then NotOpened(open.thrown)
    else
      var b := body(Fresh());
      Ran(CloseOn(b.session, close), TryWithResources(b.outcome, close))
  }

  /** `getInSession(function)`: opens one session, runs the function on it and closes
      it once, on every path.  The function's value comes back unchanged when the
      close succeeds; the function's Throwable always comes back unchanged. */
  function GetInSession<T>(env: Responses, w: Work<T>): (c: Scoped<T>)
    ensures env.open.Throws? <==> c.NotOpened?
    ensures c.NotOpened? ==> c.thrown == env.open.thrown
    ensures c.Ran? ==> c.session.log == Exec(w, Fresh()).session.log + [Close]
    ensures c.Ran? ==> Close !in c.session.log[..|c.session.log| - 1]
    ensures c.Ran? && env.close.Ok? ==> c.session.status == Closed
    ensures c.Ran? && (env.close.Ok? || Exec(w, Fresh()).outcome.Failure?) ==>
              c.outcome == Exec(w, Fresh()).outcome
    ensures c.Ran? && env.close.Throws? && Exec(w, Fresh()).outcome.Value? ==>
              c.outcome == Failure(env.close.thrown)
  {
    var x := Exec(w, Fresh());
    assert forall i :: 0 <= i < |x.session.log| ==> x.session.log[i] != Close;
    assert Close !in x.session.log;
    InSession(env.open, h => Exec(w, h), env.close)
  }

  /** `runInSession(consumer)`: `getInSession` around a function that returns nothing. */
  function RunInSession(env: Responses, w: Work<()>): (s: Step)
    ensures env.open.Throws? ==> s == env.open
    ensures env.open.Ok? && env.close.Ok? ==> s == Discard(Exec(w, Fresh()).outcome)
    ensures env.open.Ok? && env.close.Throws? ==>
              s == if Exec(w, Fresh()).outcome.Failure? then Throws(Exec(w, Fresh()).outcome.thrown) else env.close
  {
    Discard(GetInSession(env, w).Result())
  }

  /** The function that `getInTransaction` hands to `getInSession`: begin a
      transaction, run the caller's function, commit if the transaction is still
      active, and in `finally` roll back if it is still active.  A Throwable from
      the rollback replaces the one pending, as Java's `finally` does. */
  function TransactionBody<T>(env: Responses, w: Work<T>, h: Handle): (r: Run<T>)
    ensures r.session.status == h.status
    ensures |h.log| < |r.session.log| && r.session.log[..|h.log| + 1] == h.log + [Begin]
    ensures forall i :: |h.log| < i < |r.session.log| ==> ByCaller(r.session.log[i])
    ensures env.begin.Throws? ==> r == Run(BeginOn(h, env.begin), Failure(env.begin.thrown))
    ensures env.begin.Ok? && r.session.tx == Active ==>
              env.rollback.Fails? && r.session.log[|r.session.log| - 1] == Rollback
              && r.outcome == Failure(env.rollback.thrown)
  {
    if env.begin.Throws? then Run(BeginOn(h, env.begin), Failure(env.begin.thrown))
    else
      var x := Exec(w, BeginOn(h, env.begin));
      // the try block: commit if the function returned and left the transaction active
      var committing := x.outcome.Value? && x.session.tx == Active;
      var afterTry := if committing then CommitOn(x.session, env.commit) else x.session;
      var pending := if committing && env.commit.Fails? then Failure(env.commit.thrown) else x.outcome;
      // the finally block
      if afterTry.tx == Active then
        Run(RollbackOn(afterTry, env.rollback),
            if env.rollback.Fails? then Failure(env.rollback.thrown) else pending)
      else Run(afterTry, pending)
  }

  /** `getInTransaction(function)`: one session, opened and closed once; one
      transaction begun on it before anything else happens. */
  function GetInTransaction<T>(env: Responses, w: Work<T>): (c: Scoped<T>)
    ensures env.open.Throws? <==> c.NotOpened?
    ensures c.NotOpened? ==> c.thrown == env.open.thrown
    ensures c.Ran? ==> |c.session.log| >= 2 && c.session.log[0] == Begin
                       && c.session.log[|c.session.log| - 1] == Close
    ensures c.Ran? ==> Begin !in c.session.log[1..] && Close !in c.session.log[..|c.session.log| - 1]
    ensures c.Ran? && env.close.Ok? ==> c.session.status == Closed
    ensures c.Ran? && env.begin.Throws? ==>
              c.session.log == [Begin, Close] && c.outcome == Failure(env.begin.thrown)
  {
    var b := TransactionBody(env, w, Fresh());
    var log := b.session.log;
    assert Begin !in log[1..] && Close !in log[1..] by {
      forall e | e in log[1..] ensures e != Begin && e != Close {
        var i :| 0 <= i < |log[1..]| && log[1..][i] == e;
        assert ByCaller(log[i + 1]);
      }
    }
    assert log == [Begin] + log[1..];
    InSession(env.open, h => TransactionBody(env, w, h), env.close)
  }

  /** `runInTransaction(consumer)`: `getInTransaction` around a function that returns nothing. */
  function RunInTransaction(env: Responses, w: Work<()>): (s: Step)
    ensures env.open.Throws? ==> s == env.open
    ensures env.open.Ok? && env.begin.Throws? ==> s == env.begin
  {
    Discard(GetInTransaction(env, w).Result())
  }

  /** The function `runNamedListQuery` runs: create the named query and read its
      whole result list, which Hibernate answers with `answer`. */
  function ListQueryWork<T>(name: string, answer: Outcome<seq<T>>): (w: Work<seq<T>>)
    ensures !Resolves(w)
    ensures forall h :: Exec(w, h) == Run(PerformOn(h, NamedQuery(name)), answer)
  {
    match answer
    case Value(rows) => Call(NamedQuery(name), Ok, Return(rows))
    case Failure(t) => Call(NamedQuery(name), Throws(t), Throw(t))
  }

  /** `runNamedListQuery(name, type)`: the session is closed before the list is returned. */
  function RunNamedListQuery<T>(env: Responses, name: string, answer: Outcome<seq<T>>): (c: Scoped<seq<T>>)
    ensures env.open.Throws? <==> c.NotOpened?
    ensures c.NotOpened? ==> c.thrown == env.open.thrown
    ensures c.Ran? ==> c.session.log == [Perform(NamedQuery(name)), Close]
    ensures c.Ran? && env.close.Ok? ==> c.session.status == Closed && c.outcome == answer
    ensures c.Ran? && answer.Failure? ==> c.outcome == answer
    ensures c.Ran? && env.close.Throws? && answer.Value? ==> c.outcome == Failure(env.close.thrown)
  {
    GetInSession(env, ListQueryWork(name, answer))
  }

  /** The function each `*InTransaction(object)` wrapper hands to `runInTransaction`:
      one Hibernate call on the session, and nothing returned. */
  function ActionWork(a: Action, answer: Step): (w: Work<()>)
    ensures !Resolves(w)
    ensures forall h :: Exec(w, h) == Run(PerformOn(h, a), if answer.Ok? then Value(()) else Failure(answer.thrown))
  {
    Call(a, answer, Return(()))
  }

  /** The result of `runNamedStreamQuery`: `openSession()` threw; or building the
      stream threw and the session is left in state `session`; or a stream was
      returned whose close handler will close `session`. */
  datatype Streamed =
    | StreamNotOpened(thrown: Throwable)
    | StreamFailed(session: Handle, thrown: Throwable)
    | StreamReady(session: Handle)

  /** `runNamedStreamQuery(name, type)`.  `build` is how creating the query, its
      stream and registering the close handler ends; `env.close` answers the
      `session.close()` of the `catch` block.  That block catches `Exception` only:
      an `Error` leaves the session open. */
  function RunNamedStreamQuery(env: Responses, name: string, build: Step): (s: Streamed)
    ensures env.open.Throws? <==> s.StreamNotOpened?
    ensures s.StreamNotOpened? ==> s.thrown == env.open.thrown
    ensures s.StreamReady? <==> env.open.Ok? && build.Ok?
    ensures s.StreamReady? ==> s.session == Handle(Open, NotActive, [Perform(NamedQuery(name))])
    ensures s.StreamFailed? && build.thrown.Exception? ==>
              s.session.log == [Perform(NamedQuery(name)), Close]
              && (env.close.Ok? ==> s.session.status == Closed && s.thrown == build.thrown)
              && (env.close.Throws? ==> s.thrown == env.close.thrown)
    ensures s.StreamFailed? && build.thrown.Error? ==>
              s.session.status == Open && Close !in s.session.log && s.thrown == build.thrown
  {
    if env.open.Throws? then StreamNotOpened(env.open.thrown)
    else
      var queried := PerformOn(Fresh(), NamedQuery(name));
      if build.Ok? then StreamReady(queried)
      else if build.thrown.Exception? then
        StreamFailed(CloseOn(queried, env.close),
                     if env.close.Throws? then env.close.thrown else build.thrown)
      else StreamFailed(queried, build.thrown)
  }

  /** A returned stream: its session, and whether the close handler registered with
      `onClose` has still to run. */
  datatype StreamState = StreamState(session: Handle, handlerPending: bool)

  /** `stream.close()`: a `java.util.stream` pipeline runs its close handlers on the
      first close only; here the handler is `session::close`. */
  function CloseStream(s: StreamState, answer: Step): (r: (StreamState, Step))
    ensures !r.0.handlerPending
    ensures s.handlerPending ==> r.0.session == CloseOn(s.session, answer) && r.1 == answer
    ensures !s.handlerPending ==> r.0 == s && r.1 == Ok
  {
    if s.handlerPending then (StreamState(CloseOn(s.session, answer), false), answer)
    else (s, Ok)
  }

  /** The stream closed once per element of `answers`, in order. */
  function CloseStreamRepeatedly(s: StreamState, answers: seq<Step>): StreamState
    decreases |answers|
  {
    if answers == [] then s
    else CloseStreamRepeatedly(CloseStream(s, answers[0]).0, answers[1..])
  }
}
