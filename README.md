# FunctionalSession: session and transaction lifecycle, in Dafny

This project models the core of Zephyros-Hibernate: the `FunctionalSession`
helpers that open a Hibernate session, optionally begin a transaction on it, run a
caller-supplied function, commit or roll back, and release the session.  It proves
what those helpers promise about how many times, and in which order, they open,
begin, commit, roll back and close, and about which value or Throwable reaches the
caller.  The proofs cover every script of the caller's function and every answer
Hibernate may give.

Layout:

- `hibernate.dfy` (module `Hibernate`): the handles the helpers drive. `Session` is a
  class whose fields are the session status, the status of its transaction, and the log
  of calls made on it. `SessionFactory.OpenSession` hands out fresh sessions. How
  Hibernate answers each call is a parameter: a `Step` (`Ok` or `Throws(t)`), or a
  `Resolution` for commit and rollback. A failed commit or rollback leaves the
  transaction in whatever status the answer names. Java's `Exception` and `Error` are
  told apart because one `catch` clause in the source catches only `Exception`.
- `operations.dfy` (module `Operations`): the caller's function as a script (`Work`).
  It returns a value, throws, makes a Hibernate call on the session, or commits or
  rolls back itself. `Exec` is the function that says what running a script does.
  `Apply` is the method that runs it on a live `Session`.
- `lifecycle.dfy` (module `Lifecycle`): the meaning of each helper as a function of
  Hibernate's answers (`Responses`) and of the script. Java's try-with-resources,
  `try`/`finally` and `try`/`catch` are written out here.
- `properties.dfy` (module `Properties`): the commit, rollback and close guarantees,
  stated as lemmas.
- `functional_session.dfy` (module `FunctionalSessions`): the class
  `FunctionalSession`. Its methods make the calls the Java methods make, in the same
  order and under the same `isActive()` guards. Each method is proved to end exactly
  as the matching `Lifecycle` function says, both in what it returns and in the state
  of the session it opened. `QueryStream` is the stream that `runNamedStreamQuery`
  returns.

Behaviour of the code worth knowing, each point proved about the model:

- A rollback that throws in the `finally` block of `getInTransaction` replaces the
  Throwable that was pending, whether it came from the function or from `commit()`.
  The first cause is lost: it is not attached to the new Throwable as suppressed.
  The lemma `RollbackFailureReplacesCause` states this.
- A function that neither commits nor rolls back, with every answer of Hibernate a
  success, gets exactly one of commit and rollback from the helper
  (`UntouchedTransactionIsResolvedOnce`). The one path on which the helper makes both
  calls is a commit that throws and leaves the transaction active: the `finally`
  block then rolls back as well (`RollsBackAfterFailedCommit`).
- `runNamedStreamQuery` closes the session on a setup failure only when the failure
  is an `Exception`, because its handler is `catch (Exception ex)`. An `Error` leaves
  the session open. If the `close()` in that handler throws, its Throwable replaces
  the original one.
- In `getInSession`, a `close()` that throws after the function returned normally
  replaces the function's value. A `close()` that throws after the function threw is
  suppressed, so the function's Throwable reaches the caller.

## Model

| member | source | states |
|---|---|---|
| `Hibernate.SessionFactory.OpenSession` | src/main/java/info/gianlucacosta/zephyros/db/hibernate/FunctionalSession.java:59 | `openSession()` either throws and hands out nothing, or hands out a fresh open session with no transaction and no calls yet |
| `Hibernate.Session.BeginTransaction` | src/main/java/info/gianlucacosta/zephyros/db/hibernate/FunctionalSession.java:93-94 | `beginTransaction()` is recorded; it makes the transaction active unless it throws |
| `Hibernate.Session.Commit` | src/main/java/info/gianlucacosta/zephyros/db/hibernate/FunctionalSession.java:101 | `commit()` is recorded; on success the transaction is committed, on failure it is left as Hibernate says and the Throwable is returned |
| `Hibernate.Session.Rollback` | src/main/java/info/gianlucacosta/zephyros/db/hibernate/FunctionalSession.java:107 | `rollback()` is recorded; on success the transaction is rolled back, on failure it is left as Hibernate says and the Throwable is returned |
| `Hibernate.Session.Perform` | src/main/java/info/gianlucacosta/zephyros/db/hibernate/FunctionalSession.java:196 | a call such as `session.saveOrUpdate(object)` is recorded by tag and ends as Hibernate answers, with the status of the session and of its transaction unchanged |
| `Hibernate.Session.Close` | src/main/java/info/gianlucacosta/zephyros/db/hibernate/FunctionalSession.java:181 | `close()` is recorded; the session is closed unless the close throws |
| `Operations.Exec` | src/main/java/info/gianlucacosta/zephyros/db/hibernate/FunctionalSession.java:97-98 | a script of the caller's function can only make calls on the session, commit or roll back: running it keeps the session's status and the calls made before it, and appends only such calls. A script that neither commits nor rolls back leaves the transaction's status unchanged and appends only `Perform` calls |
| `Operations.Apply` | src/main/java/info/gianlucacosta/zephyros/db/hibernate/FunctionalSession.java:60 | running the function on a live session leaves that session in exactly the state `Exec` predicts and returns `Exec`'s outcome |
| `Lifecycle.Discard` | src/main/java/info/gianlucacosta/zephyros/db/hibernate/FunctionalSession.java:72-75 | a helper that returns nothing completes normally exactly when the wrapped call returned a value, and otherwise throws the same Throwable |
| `Lifecycle.TryWithResources` | src/main/java/info/gianlucacosta/zephyros/db/hibernate/FunctionalSession.java:59-61 | the try-with-resources statement throws exactly when its block or the resource's `close()` threw. A Throwable from the block always wins over the close's. A normal exit returns the block's value unchanged, unless `close()` threw, whose Throwable is then what propagates |
| `Lifecycle.InSession` | src/main/java/info/gianlucacosta/zephyros/db/hibernate/FunctionalSession.java:58-62 | a session exists exactly when `openSession()` succeeded; otherwise the open's Throwable propagates. The body's calls are followed by exactly one `close()`, which closes the session when it succeeds. The transaction status is the one the body left. A Throwable from the body propagates unchanged |
| `Lifecycle.GetInSession` | src/main/java/info/gianlucacosta/zephyros/db/hibernate/FunctionalSession.java:58-62 | a session exists exactly when `openSession()` succeeded. Its log is the function's calls followed by a single `close()`, so it is closed once on every path. With a successful close the function's value comes back unchanged. The function's Throwable comes back unchanged even when `close()` also throws. A throwing close after a normal return is what the caller sees |
| `Lifecycle.RunInSession` | src/main/java/info/gianlucacosta/zephyros/db/hibernate/FunctionalSession.java:71-76 | a failing `openSession()` is what the caller sees. With open and close succeeding, the helper ends as the consumer ends. When `close()` throws, the consumer's Throwable reaches the caller if it threw, and the close's Throwable otherwise |
| `Lifecycle.TransactionBody` | src/main/java/info/gianlucacosta/zephyros/db/hibernate/FunctionalSession.java:93-109 | `beginTransaction()` is the first call and is made once. Nothing after it closes the session or begins again. A failed begin runs nothing and propagates. When the transaction is still active at the end, the `finally` rollback was attempted and threw, and its Throwable is the outcome. So a `finally` that completes normally never leaves the transaction active |
| `Lifecycle.GetInTransaction` | src/main/java/info/gianlucacosta/zephyros/db/hibernate/FunctionalSession.java:91-111 | a session exists exactly when `openSession()` succeeded. Its log starts with the only `Begin` and ends with the only `Close`. It is closed when the close succeeds. A failing `beginTransaction()` leads straight to the close and propagates |
| `Lifecycle.RunInTransaction` | src/main/java/info/gianlucacosta/zephyros/db/hibernate/FunctionalSession.java:125-130 | a failing `openSession()` or `beginTransaction()` is what the caller of the consumer helper sees |
| `Lifecycle.RunNamedListQuery` | src/main/java/info/gianlucacosta/zephyros/db/hibernate/FunctionalSession.java:141-151 | a session exists exactly when `openSession()` succeeded, and a failing open is what the caller sees. The session makes the query call and is then closed once, before the helper returns. With a successful close the caller gets exactly the query's answer. A failed query's Throwable comes back in every case. A `close()` that throws after a successful query is what the caller sees |
| `Lifecycle.ListQueryWork` | src/main/java/info/gianlucacosta/zephyros/db/hibernate/FunctionalSession.java:142-150 | the list query's function neither commits nor rolls back. From any session state it makes exactly the named-query call and ends with Hibernate's answer (the rows or the Throwable) |
| `Lifecycle.RunNamedStreamQuery` | src/main/java/info/gianlucacosta/zephyros/db/hibernate/FunctionalSession.java:164-185 | a failing `openSession()` yields no session and its Throwable. A stream is returned exactly when open and build succeed, and its session is then still open with only the query call made. A build failure that is an `Exception` gets the session closed once before the failure (or the close's own Throwable) propagates. A build failure that is an `Error` leaves the session open and unclosed |
| `Lifecycle.ActionWork` | src/main/java/info/gianlucacosta/zephyros/db/hibernate/FunctionalSession.java:195-197 | a wrapper's function neither commits nor rolls back. From any session state it makes exactly its one call and completes normally exactly when that call does, with the call's Throwable otherwise |
| `Lifecycle.CloseStream` | src/main/java/info/gianlucacosta/zephyros/db/hibernate/FunctionalSession.java:177 | closing a stream always leaves its handler spent. The first close closes the session once, as `close()` answers, and returns that answer. A later close changes nothing and completes normally |
| `Properties.BeginsBeforeFunction` | src/main/java/info/gianlucacosta/zephyros/db/hibernate/FunctionalSession.java:92-98 | the transaction is begun on the session that was opened, before the function runs. The function's calls follow the begin directly |
| `Properties.CommitsWhenStillActive` | src/main/java/info/gianlucacosta/zephyros/db/hibernate/FunctionalSession.java:97-104 | when the function returns and leaves the transaction active, commit is called once. A successful commit is followed only by the close, with no rollback; the transaction is committed and the function's value is returned. A failed commit that leaves the transaction inactive propagates, also with no rollback |
| `Properties.RollsBackAfterFailedCommit` | src/main/java/info/gianlucacosta/zephyros/db/hibernate/FunctionalSession.java:100-109 | a commit that throws and leaves the transaction active is followed by one rollback and then the close. The commit's Throwable propagates, or the rollback's if the rollback throws too |
| `Properties.RollsBackWhenFunctionThrows` | src/main/java/info/gianlucacosta/zephyros/db/hibernate/FunctionalSession.java:105-109 | when the function throws with the transaction active, one rollback is made and then the close. The function's Throwable propagates unless the rollback throws, whose Throwable then replaces it |
| `Properties.NoSecondResolution` | src/main/java/info/gianlucacosta/zephyros/db/hibernate/FunctionalSession.java:100-108 | when the function leaves the transaction inactive (its own commit or rollback succeeded), the helper makes no commit or rollback of its own. Only the close follows, and the transaction keeps the status the function left. With a successful close, or when the function threw, the caller gets the function's outcome |
| `Properties.UntouchedTransactionIsResolvedOnce` | src/main/java/info/gianlucacosta/zephyros/db/hibernate/FunctionalSession.java:96-109 | a function that neither commits nor rolls back, with every answer a success, gets exactly one resolution. That is commit when it returned and rollback when it threw. The session ends closed and the caller gets the function's outcome |
| `Properties.UntouchedBody` | src/main/java/info/gianlucacosta/zephyros/db/hibernate/FunctionalSession.java:96-109 | for such a function the transaction body appends commit (when it returned) or rollback (when it threw) to the function's run, and keeps its outcome |
| `Properties.ReturnedValueIsCommitted` | src/main/java/info/gianlucacosta/zephyros/db/hibernate/FunctionalSession.java:97-104 | a function returning 42 without touching the transaction leaves it committed and the session closed, and 42 reaches the caller |
| `Properties.ThrownFailureIsRolledBack` | src/main/java/info/gianlucacosta/zephyros/db/hibernate/FunctionalSession.java:105-109 | a function throwing `e` leaves the transaction rolled back and the session closed, and `e` reaches the caller |
| `Properties.RollbackFailureReplacesCause` | src/main/java/info/gianlucacosta/zephyros/db/hibernate/FunctionalSession.java:105-108 | a rollback that throws `r` in `finally` hides the function's Throwable `e`: the caller receives `r`, not `e` |
| `Properties.OneActionWrapper` | src/main/java/info/gianlucacosta/zephyros/db/hibernate/FunctionalSession.java:194-237 | each `*InTransaction(object)` wrapper makes its one call inside a transaction. With the helper's own calls succeeding, the wrapper ends as the call ends. The call is committed when it succeeds and rolled back when it throws, and the session is closed |
| `Properties.ActionRun` | src/main/java/info/gianlucacosta/zephyros/db/hibernate/FunctionalSession.java:195-197 | the wrappers' function makes exactly its one call after the begin and ends as that call ends |
| `Properties.ClosedStreamStaysClosed` | src/main/java/info/gianlucacosta/zephyros/db/hibernate/FunctionalSession.java:177 | once the close handler has run, closing the stream again changes nothing |
| `Properties.StreamClosesSessionOnce` | src/main/java/info/gianlucacosta/zephyros/db/hibernate/FunctionalSession.java:177 | however many times a returned stream is closed (at least once), its session gets exactly one `close()`, answered by the first stream close |
| `Properties.StreamQuerySessionLifetime` | src/main/java/info/gianlucacosta/zephyros/db/hibernate/FunctionalSession.java:164-179 | a successful stream query leaves its session open until the stream is closed. The first stream close then closes it exactly once |
| `FunctionalSessions.QueryStream.constructor` | src/main/java/info/gianlucacosta/zephyros/db/hibernate/FunctionalSession.java:177 | a returned stream holds its session and has the `session::close` handler registered and not yet run |
| `FunctionalSessions.QueryStream.Close` | src/main/java/info/gianlucacosta/zephyros/db/hibernate/FunctionalSession.java:177 | closing the stream runs the handler, and so closes the session, on the first close only, as `CloseStream` says |
| `FunctionalSessions.FunctionalSession.constructor` | src/main/java/info/gianlucacosta/zephyros/db/hibernate/FunctionalSession.java:45-47 | the helpers use the session factory they are given |
| `FunctionalSessions.FunctionalSession.GetInSession` | src/main/java/info/gianlucacosta/zephyros/db/hibernate/FunctionalSession.java:58-62 | returns what `Lifecycle.GetInSession` says. The factory hands out at most one session, exactly when the open succeeds, and leaves it in the state that function gives |
| `FunctionalSessions.FunctionalSession.RunInSession` | src/main/java/info/gianlucacosta/zephyros/db/hibernate/FunctionalSession.java:71-76 | ends as `Lifecycle.RunInSession` says, with the session state of `Lifecycle.GetInSession` |
| `FunctionalSessions.FunctionalSession.TransactionBody` | src/main/java/info/gianlucacosta/zephyros/db/hibernate/FunctionalSession.java:93-109 | leaves the session it is given in the state `Lifecycle.TransactionBody` gives and returns that outcome. So the commit and rollback guarantees of `Properties` hold for the imperative code |
| `FunctionalSessions.FunctionalSession.GetInTransaction` | src/main/java/info/gianlucacosta/zephyros/db/hibernate/FunctionalSession.java:91-111 | returns what `Lifecycle.GetInTransaction` says. It hands out at most one session and leaves it in the state that function gives |
| `FunctionalSessions.FunctionalSession.RunInTransaction` | src/main/java/info/gianlucacosta/zephyros/db/hibernate/FunctionalSession.java:125-130 | ends as `Lifecycle.RunInTransaction` says, with the session state of `Lifecycle.GetInTransaction` |
| `FunctionalSessions.FunctionalSession.RunNamedListQuery` | src/main/java/info/gianlucacosta/zephyros/db/hibernate/FunctionalSession.java:141-151 | returns what `Lifecycle.RunNamedListQuery` says and leaves the session it opened in the state that function gives, which is closed before return |
| `FunctionalSessions.FunctionalSession.RunNamedStreamQuery` | src/main/java/info/gianlucacosta/zephyros/db/hibernate/FunctionalSession.java:164-185 | ends as `Lifecycle.RunNamedStreamQuery` says. On success it returns a fresh stream over the one session it opened, with the close handler pending. On failure it returns the Throwable and leaves that session as the function says |
| `FunctionalSessions.FunctionalSession.SaveOrUpdateInTransaction` | src/main/java/info/gianlucacosta/zephyros/db/hibernate/FunctionalSession.java:194-198 | is `runInTransaction` around one `saveOrUpdate` call, with its result and its session's state |
| `FunctionalSessions.FunctionalSession.SaveInTransaction` | src/main/java/info/gianlucacosta/zephyros/db/hibernate/FunctionalSession.java:207-211 | is `runInTransaction` around one `save` call, with its result and its session's state |
| `FunctionalSessions.FunctionalSession.UpdateInTransaction` | src/main/java/info/gianlucacosta/zephyros/db/hibernate/FunctionalSession.java:220-224 | is `runInTransaction` around one `update` call, with its result and its session's state |
| `FunctionalSessions.FunctionalSession.DeleteInTransaction` | src/main/java/info/gianlucacosta/zephyros/db/hibernate/FunctionalSession.java:233-237 | is `runInTransaction` around one `delete` call, with its result and its session's state |

## Left out

- `SessionFactoryBuilder.java` is not part of this model. It only forwards classes and URLs to Hibernate's bootstrapping and has no behaviour of its own.
- `PersistenceExceptions.java` is not part of this model. Its mapping goes through a vendor error-code table that is not in the repository.
- Hibernate itself is left out: query execution, result lists, the effect of `save`/`update`/`delete`/`saveOrUpdate`, and SQL. Each call is recorded by tag, and its answer is a parameter.
- Hibernate's own state checks are left out. For example, Hibernate throws when `commit()` is called on a transaction that is not active. Here the scripted answer alone decides, and the helpers never make such a call because of their `isActive()` guards.
- The result stream's elements and its laziness are left out. Only the bookkeeping of its session is kept. That a stream runs its close handlers on the first `close()` only is how the JDK implements close handlers: `AbstractPipeline.close` clears the handler before running it. That library is not part of this model.
- Suppressed exceptions are left out. Try-with-resources attaches a throwing `close()` to the primary Throwable as suppressed, and the model keeps only the Throwable that propagates.
- The caller's function, as a script, cannot close the session, begin a transaction (also not a new one after its own commit or rollback), or call another helper. The Java function receives the live `Session` and `Transaction` and can do all of these. Then the try-with-resources `close()` would be a second close, and a transaction begun by the function would pass the helper's `isActive()` guard and be committed or rolled back by the helper. The results that a session is closed only at the end (`Lifecycle.GetInSession`, `Lifecycle.GetInTransaction`), that `Begin` is made only first (`Lifecycle.GetInTransaction`, `Lifecycle.TransactionBody`) and `Properties.NoSecondResolution` hold for functions within this restriction.
- The caller's function cannot catch a Throwable from its own Hibernate calls in the script. A call whose failure the function catches is modelled as a call that succeeds.
- `resultElementType` (`Class<T>`) becomes the type parameter of `RunNamedListQuery`. The stream helper drops the element type: its stream's elements are left out, so `RunNamedStreamQuery` and `StreamResult` have no type parameter.
- In `FunctionalSessions`, `GetInTransaction` opens and closes the session itself. In the Java code it passes a lambda to `getInSession`, and Dafny methods cannot be passed as values. The `Lifecycle` functions keep the Java shape: `GetInTransaction` passes the transaction body as a function argument to the same try-with-resources function `InSession`.
- `Lifecycle.RunInTransaction`: its own contract covers only the setup failures. Its behaviour on the other paths follows from `Lifecycle.GetInTransaction`, whose value it discards, and from the `Properties` lemmas about that function.
- `Hibernate.Session.IsActive`: Hibernate's `isActive()` is read as `tx == Active`. Hibernate also counts a transaction marked rollback-only as active, and the model has no such status.
- Concurrency, I/O, connection pooling and transaction isolation are left out. Nothing in the code is concurrent.
