/** The caller-supplied function that the helpers run on a session, as a script of
    what it does: it returns a value, throws, makes Hibernate calls on the session,
    or commits or rolls back the transaction itself.  Each Hibernate call in the
    script carries the answer Hibernate gives it. */
module Operations {
  import opened Hibernate

  /** How a helper or the caller's function ends: with a value or a Throwable. */
  datatype Outcome<T> = Value(value: T) | Failure(thrown: Throwable)

  datatype Work<T> =
    | Return(value: T)
    | Throw(thrown: Throwable)
      /** One call on the session (`session.save(o)`, a named query, ...); if it
          throws, the function ends with that Throwable. */
    | Call(action: Action, answer: Step, next: Work<T>)
      /** `transaction.commit()` called by the function itself. */
    | CommitSelf(resolution: Resolution, next: Work<T>)
      /** `transaction.rollback()` called by the function itself. */
    | RollbackSelf(resolution: Resolution, next: Work<T>)

  /** A session's state after some code ran on it, and how that code ended. */
  datatype Run<T> = Run(session: Handle, outcome: Outcome<T>)

  /** Whether the script calls commit or rollback itself. */
  predicate Resolves<T>(w: Work<T>) {
    match w
    case Return(_) => false
    case Throw(_) => false
    case Call(_, answer, next) => answer.Ok? && Resolves(next)
    case CommitSelf(_, _) => true
    case RollbackSelf(_, _) => true
  }

  /** The calls the caller's function can make on the session. */
  predicate ByCaller(e: Event) {
    e.Perform? || e.Commit? || e.Rollback?
  }

  /** Running the caller's function on a session in state `h`.  The function never
      closes the session nor begins a transaction: it only appends its own calls to
      the log, and it changes the transaction's status only by committing or rolling
      back itself. */
  function Exec<T>(w: Work<T>, h: Handle): (r: Run<T>)
    ensures r.session.status == h.status
    ensures |h.log| <= |r.session.log| && r.session.log[..|h.log|] == h.log
    ensures forall i :: |h.log| <= i < |r.session.log| ==> ByCaller(r.session.log[i])
    ensures !Resolves(w) ==> r.session.tx == h.tx
    ensures !Resolves(w) ==> forall i :: |h.log| <= i < |r.session.log| ==> r.session.log[i].Perform?
  {
    match w
    case Return(v) => Run(h, Value(v))
    case Throw(t) => Run(h, Failure(t))
    case Call(a, answer, next) =>
      if answer.Throws? then Run(PerformOn(h, a), Failure(answer.thrown))
      else Exec(next, PerformOn(h, a))
    case CommitSelf(resolution, next) =>
      if resolution.Fails? then Run(CommitOn(h, resolution), Failure(resolution.thrown))
      else Exec(next, CommitOn(h, resolution))
    case RollbackSelf(resolution, next) =>
      if resolution.Fails? then Run(RollbackOn(h, resolution), Failure(resolution.thrown))
      else Exec(next, RollbackOn(h, resolution))
  }

  /** `function.apply(session)`: the caller's function, run on a live session. */
  method Apply<T>(session: Session, w: Work<T>) returns (r: Outcome<T>)
    modifies session
    ensures Run(session.View(), r) == Exec(w, old(session.View()))
  {
    match w
    case Return(v) =>
      r := Value(v);
    case Throw(t) =>
      r := Failure(t);
    case Call(a, answer, next) =>
      var s := session.Perform(a, answer);
      if s.Throws? {
        r := Failure(s.thrown);
      } else {
        r := Apply(session, next);
      }
    case CommitSelf(resolution, next) =>
      var s := session.Commit(resolution);
      if s.Throws? {
        r := Failure(s.thrown);
      } else {
        r := Apply(session, next);
      }
    case RollbackSelf(resolution, next) =>
      var s := session.Rollback(resolution);
      if s.Throws? {
        r := Failure(s.thrown);
      } else {
        r := Apply(session, next);
      }
  }
}
