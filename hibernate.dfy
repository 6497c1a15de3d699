/** The part of Hibernate that the FunctionalSession helpers drive, reduced to what
    they can observe: a session handle that is open or closed, the status of the
    transaction it carries, and the order of the calls made on it.  How Hibernate
    answers a call is not modelled; the answer (normal completion, or the Throwable
    raised) is a parameter of the call. */
module Hibernate {

  /** Java's two kinds of Throwable.  They matter where a handler catches only
      `Exception`: an `Error` passes through it. */
  datatype Throwable = Exception(code: nat) | Error(code: nat)

  /** How a call into code outside the helpers ends. */
  datatype Step = Ok | Throws(thrown: Throwable)

  /** How Hibernate answers `commit()` or `rollback()`: it succeeds, or it throws
      and leaves the transaction in some status. */
  datatype Resolution = Resolved | Fails(thrown: Throwable, left: TxStatus)

  datatype SessionStatus = Open | Closed

  /** `NotActive` is a transaction never begun; `isActive()` is `tx == Active`. */
  datatype TxStatus = NotActive | Active | Committed | RolledBack

  /** An object handed to Hibernate, by identity. */
  type EntityRef = nat

  /** The calls the caller's code makes on a session, recorded by tag. */
  datatype Action =
    | Save(entity: EntityRef)
    | Update(entity: EntityRef)
    | Delete(entity: EntityRef)
    | SaveOrUpdate(entity: EntityRef)
    | NamedQuery(name: string)

  /** One call made on a session or on its transaction. */
  datatype Event = Begin | Commit | Rollback | Close | Perform(action: Action)

  /** The observable state of a session: its status, its transaction's status and
      every call made on it so far, oldest first. */
  datatype Handle = Handle(status: SessionStatus, tx: TxStatus, log: seq<Event>)

  /** A session just returned by `openSession()`. */
  function Fresh(): Handle {
    Handle(Open, NotActive, [])
  }

  function AsStep(r: Resolution): Step {
    if r.Resolved? then Ok else Throws(r.thrown)
  }

  function BeginOn(h: Handle, answer: Step): Handle {
    h.(tx := if answer.Ok? then Active else h.tx, log := h.log + [Begin])
  }

  function CommitOn(h: Handle, answer: Resolution): Handle {
    h.(tx := if answer.Resolved? then Committed else answer.left, log := h.log + [Commit])
  }

  function RollbackOn(h: Handle, answer: Resolution): Handle {
    h.(tx := if answer.Resolved? then RolledBack else answer.left, log := h.log + [Rollback])
  }

  /** A close that throws leaves the status as it was: only the call is certain. */
  function CloseOn(h: Handle, answer: Step): Handle {
    h.(status := if answer.Ok? then Closed else h.status, log := h.log + [Close])
  }

  function PerformOn(h: Handle, a: Action): Handle {
    h.(log := h.log + [Perform(a)])
  }

  /** A Hibernate session together with its transaction (`session.getTransaction()`). */
  class Session {
    var status: SessionStatus
    var tx: TxStatus
    var log: seq<Event>

    function View(): Handle
      reads this
    {
      Handle(status, tx, log)
    }

    constructor ()
      ensures View() == Fresh()
    {
      status, tx, log := Open, NotActive, [];
    }

    /** `transaction.isActive()` */
    predicate IsActive()
      reads this
    {
      tx == Active
    }

    method BeginTransaction(answer: Step) returns (r: Step)
      modifies this
      ensures r == answer && View() == BeginOn(old(View()), answer)
    {
      if answer.Ok? {
        tx := Active;
      }
      log := log + [Event.Begin];
      r := answer;
    }

    method Commit(answer: Resolution) returns (r: Step)
      modifies this
      ensures r == AsStep(answer) && View() == CommitOn(old(View()), answer)
    {
      tx := if answer.Resolved? then Committed else answer.left;
      log := log + [Event.Commit];
      r := AsStep(answer);
    }

    method Rollback(answer: Resolution) returns (r: Step)
      modifies this
      ensures r == AsStep(answer) && View() == RollbackOn(old(View()), answer)
    {
      tx := if answer.Resolved? then RolledBack else answer.left;
      log := log + [Event.Rollback];
      r := AsStep(answer);
    }

    method Perform(a: Action, answer: Step) returns (r: Step)
      modifies this
      ensures r == answer && View() == PerformOn(old(View()), a)
    {
      log := log + [Event.Perform(a)];
      r := answer;
    }

    method Close(answer: Step) returns (r: Step)
      modifies this
      ensures r == answer && View() == CloseOn(old(View()), answer)
    {
      if answer.Ok? {
        status := Closed;
      }
      log := log + [Event.Close];
      r := answer;
    }
  }

  datatype Opening = Opened(session: Session) | OpenFailed(thrown: Throwable)

  /** The long-lived factory.  `handedOut` lists, for the model's sake, every session
      it has handed out. */
  class SessionFactory {
    ghost var handedOut: seq<Session>

    constructor ()
      ensures handedOut == []
    {
      handedOut := [];
    }

    method OpenSession(answer: Step) returns (r: Opening)
      modifies this
      ensures answer.Throws? ==> r == OpenFailed(answer.thrown) && handedOut == old(handedOut)
      ensures answer.Ok? ==> r.Opened? && fresh(r.session) && r.session.View() == Fresh()
                             && handedOut == old(handedOut) + [r.session]
    {
      if answer.Throws? {
        r := OpenFailed(answer.thrown);
      } else {
        var s := new Session();
        handedOut := handedOut + [s];
        r := Opened(s);
      }
    }
  }
}
