/** What the helpers promise about commit, rollback and close, stated over the
    functions of module Lifecycle for every script of the caller's function and
    every answer Hibernate may give. */
module Properties {
  import opened Hibernate
  import opened Operations
  import opened Lifecycle

  /** The caller's function as `getInTransaction` runs it: on a fresh session whose
      transaction has just been begun. */
  function FunctionRun<T>(w: Work<T>): Run<T> {
    Exec(w, BeginOn(Fresh(), Ok))
  }

  /** The transaction is begun on the opened session before the function runs, and
      the function's own calls follow it directly. */
  lemma BeginsBeforeFunction<T>(env: Responses, w: Work<T>)
    requires env.open.Ok? && env.begin.Ok?
    ensures var c := GetInTransaction(env, w); var x := FunctionRun(w);
            c.Ran? && x.session.log[..1] == [Begin]
            && |x.session.log| < |c.session.log| && c.session.log[..|x.session.log|] == x.session.log
  {
  }

  /** The function returned and left the transaction active: commit is called once,
      right after it.  A successful commit returns the function's value and no
      rollback follows; a failed commit that leaves the transaction inactive is
      propagated with no rollback either. */
  lemma CommitsWhenStillActive<T>(env: Responses, w: Work<T>)
    requires env.open.Ok? && env.begin.Ok?
    requires FunctionRun(w).outcome.Value? && FunctionRun(w).session.tx == Active
    ensures var c := GetInTransaction(env, w); var x := FunctionRun(w);
            c.Ran?
            && (env.commit.Resolved? ==>
                  c.session.log == x.session.log + [Commit, Close] && c.session.tx == Committed
                  && (env.close.Ok? ==> c.outcome == x.outcome))
            && (env.commit.Fails? && env.commit.left != Active ==>
                  c.session.log == x.session.log + [Commit, Close]
                  && c.outcome == Failure(env.commit.thrown))
  {
  }

  /** A failed commit that leaves the transaction active is followed by a rollback
      before the failure propagates, and the session is still closed.  If that
      rollback throws too, its Throwable is the one the caller sees. */
  lemma RollsBackAfterFailedCommit<T>(env: Responses, w: Work<T>)
    requires env.open.Ok? && env.begin.Ok?
    requires FunctionRun(w).outcome.Value? && FunctionRun(w).session.tx == Active
    requires env.commit.Fails? && env.commit.left == Active
    ensures var c := GetInTransaction(env, w); var x := FunctionRun(w);
            c.Ran? && c.session.log == x.session.log + [Commit, Rollback, Close]
            && c.outcome == Failure(if env.rollback.Resolved? then env.commit.thrown else env.rollback.thrown)
            && (env.rollback.Resolved? ==> c.session.tx == RolledBack)
            && (env.close.Ok? ==> c.session.status == Closed)
  {
  }

  /** The function threw while the transaction was active: rollback is called once;
      the function's Throwable propagates unless the rollback throws, whose
      Throwable then replaces it.  A failing close never replaces either. */
  lemma RollsBackWhenFunctionThrows<T>(env: Responses, w: Work<T>)
    requires env.open.Ok? && env.begin.Ok?
    requires FunctionRun(w).outcome.Failure? && FunctionRun(w).session.tx == Active
    ensures var c := GetInTransaction(env, w); var x := FunctionRun(w);
            c.Ran? && c.session.log == x.session.log + [Rollback, Close]
            && c.outcome == (if env.rollback.Resolved? then x.outcome else Failure(env.rollback.thrown))
            && (env.rollback.Resolved? ==> c.session.tx == RolledBack)
  {
  }

  /** The function committed or rolled back itself (the transaction is no longer
      active when it ends): the helper makes no further commit or rollback. */
  lemma NoSecondResolution<T>(env: Responses, w: Work<T>)
    requires env.open.Ok? && env.begin.Ok?
    requires FunctionRun(w).session.tx != Active
    ensures var c := GetInTransaction(env, w); var x := FunctionRun(w);
            c.Ran? && c.session.log == x.session.log + [Close] && c.session.tx == x.session.tx
            && (env.close.Ok? || x.outcome.Failure? ==> c.outcome == x.outcome)
  {
  }

  /** A function that neither commits nor rolls back leaves the transaction
      active, so the helper resolves it: with every answer a success, exactly one
      of commit and rollback is called (the function's own calls are all
      `Perform`), commit when the function returned and rollback when it threw,
      and the caller gets the function's outcome. */
  lemma UntouchedTransactionIsResolvedOnce<T>(env: Responses, w: Work<T>)
    requires env == Responses(Ok, Ok, Resolved, Resolved, Ok)
    requires !Resolves(w)
    ensures var c := GetInTransaction(env, w); var x := FunctionRun(w);
            c.Ran? && c.outcome == x.outcome && c.session.status == Closed
            && (forall i :: 1 <= i < |x.session.log| ==> x.session.log[i].Perform?)
            && (x.outcome.Value? ==> c.session.tx == Committed && c.session.log == x.session.log + [Commit, Close])
            && (x.outcome.Failure? ==> c.session.tx == RolledBack && c.session.log == x.session.log + [Rollback, Close])
  {
    UntouchedBody(env, w);
    InTransactionUnfolds(env, w);
  }

  /** The transaction body around a function that leaves the transaction active,
      when commit and rollback succeed. */
  lemma UntouchedBody<T>(env: Responses, w: Work<T>)
    requires env == Responses(Ok, Ok, Resolved, Resolved, Ok)
    requires !Resolves(w)
    ensures var x := FunctionRun(w);
            TransactionBody(env, w, Fresh())
            == if x.outcome.Value? then Run(CommitOn(x.session, Resolved), x.outcome)
               else Run(RollbackOn(x.session, Resolved), x.outcome)
  {
    assert FunctionRun(w).session.tx == Active;
  }

  /** `getInTransaction` is `getInSession` around the transaction body. */
  lemma InTransactionUnfolds<T>(env: Responses, w: Work<T>)
    requires env.open.Ok?
    ensures var b := TransactionBody(env, w, Fresh());
            GetInTransaction(env, w) == Ran(CloseOn(b.session, env.close), TryWithResources(b.outcome, env.close))
  {
  }

  /** A function that returns 42 without touching the transaction: the transaction
      ends committed, the session closed, and the caller receives 42. */
  lemma ReturnedValueIsCommitted()
    ensures GetInTransaction(Responses(Ok, Ok, Resolved, Resolved, Ok), Return(42))
            == Ran(Handle(Closed, Committed, [Begin, Commit, Close]), Value(42))
  {
  }

  /** A function that throws `e`: the transaction ends rolled back, the session
      closed, and the caller receives `e`. */
  lemma ThrownFailureIsRolledBack<T>(e: Throwable)
    ensures GetInTransaction<T>(Responses(Ok, Ok, Resolved, Resolved, Ok), Throw(e))
            == Ran(Handle(Closed, RolledBack, [Begin, Rollback, Close]), Failure(e))
  {
  }

  /** A rollback that throws `r` in the `finally` block hides the function's own
      Throwable `e`: the caller receives `r`. */
  lemma RollbackFailureReplacesCause<T>(e: Throwable, r: Throwable)
    requires e != r
    ensures var c := GetInTransaction<T>(Responses(Ok, Ok, Resolved, Fails(r, Active), Ok), Throw(e));
            c.Ran? && c.outcome == Failure(r) && c.outcome != Failure(e)
  {
  }

  /** Each `*InTransaction(object)` wrapper is `runInTransaction` around one call:
      with every answer of the helper's own calls a success, the call is committed
      when it succeeds and rolled back when it throws, whose Throwable is then
      what the wrapper throws. */
  lemma OneActionWrapper(env: Responses, a: Action, answer: Step)
    requires env == Responses(Ok, Ok, Resolved, Resolved, Ok)
    ensures RunInTransaction(env, ActionWork(a, answer)) == answer
    ensures GetInTransaction(env, ActionWork(a, answer)).session
            == if answer.Ok? then Handle(Closed, Committed, [Begin, Perform(a), Commit, Close])
               else Handle(Closed, RolledBack, [Begin, Perform(a), Rollback, Close])
  {
    var w := ActionWork(a, answer);
    var outcome: Outcome<()> := if answer.Ok? then Value(()) else Failure(answer.thrown);
    var after := Handle(Open, Active, [Begin, Perform(a)]);
    ActionRun(a, answer);
    InTransactionUnfolds(env, w);
    if answer.Ok? {
      assert TransactionBody(env, w, Fresh()) == Run(CommitOn(after, Resolved), outcome);
    } else {
      assert TransactionBody(env, w, Fresh()) == Run(RollbackOn(after, Resolved), outcome);
    }
  }

  /** The wrappers' function makes its one call on the session and ends as the call does. */
  lemma ActionRun(a: Action, answer: Step)
    ensures FunctionRun(ActionWork(a, answer))
            == Run(Handle(Open, Active, [Begin, Perform(a)]), if answer.Ok? then Value(()) else Failure(answer.thrown))
  {
    var h := BeginOn(Fresh(), Ok);
    assert PerformOn(h, a) == Handle(Open, Active, [Begin, Perform(a)]);
    var w: Work<()> := Call(a, answer, Return(()));
    assert ActionWork(a, answer) == w;
    if answer.Ok? {
      assert Exec(w, h) == Exec(Return(()), PerformOn(h, a));
    } else {
      assert Exec(w, h) == Run(PerformOn(h, a), Failure(answer.thrown));
    }
  }

  /** Once its close handler has run, closing a stream again changes nothing. */
  lemma {:induction false} ClosedStreamStaysClosed(s: StreamState, answers: seq<Step>)
    requires !s.handlerPending
    ensures CloseStreamRepeatedly(s, answers) == s
    decreases |answers|
  {
    if answers != [] {
      ClosedStreamStaysClosed(CloseStream(s, answers[0]).0, answers[1..]);
    }
  }

  /** However many times a returned stream is closed (at least once), its session
      gets exactly one `close()`, answered by the first. */
  lemma StreamClosesSessionOnce(s: StreamState, answers: seq<Step>)
    requires s.handlerPending && |answers| >= 1
    ensures var e := CloseStreamRepeatedly(s, answers);
            !e.handlerPending && e.session == CloseOn(s.session, answers[0])
            && e.session.log == s.session.log + [Close]
  {
    ClosedStreamStaysClosed(CloseStream(s, answers[0]).0, answers[1..]);
  }

  /** `runNamedStreamQuery` end to end: the session it opened stays open while the
      stream is open and is closed once, when the stream is first closed. */
  lemma StreamQuerySessionLifetime(env: Responses, name: string, answers: seq<Step>)
    requires env.open.Ok? && |answers| >= 1
    ensures var s := RunNamedStreamQuery(env, name, Ok);
            s.StreamReady? && s.session.status == Open
            && var e := CloseStreamRepeatedly(StreamState(s.session, true), answers);
            e.session.log == [Perform(NamedQuery(name)), Close]
            && (answers[0].Ok? ==> e.session.status == Closed)
  {
    StreamClosesSessionOnce(StreamState(RunNamedStreamQuery(env, name, Ok).session, true), answers);
  }
}
