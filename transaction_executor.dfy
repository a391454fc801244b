/** The transaction executor (src/pet/infra/transaction_executor.py): make a
    unit of work, enter it, run the handler, commit if the handler returned,
    translate a DBError into an application error, and leave the unit of work
    with whatever exception is in flight.

    The unit of work is the storage-session one (SqlAlchemyUow); the handler
    is a scripted stand-in for the caller's coroutine. */
module TransactionExecutor {
  import opened Wrappers
  import opened StorageErrors
  import opened DomainErrors
  import opened DbErrors
  import opened Exceptions
  import opened FakeStorage
  import opened UowLifecycle
  import opened SqlAlchemyUow

  /** How a scripted handler ends once its storage work is done. */
  datatype HandlerEnd = Return(value: int) | Raise(error: Exception)

  /** A handler: optionally creates an organisation through `uow.orgs`,
      optionally flushes, then returns or raises. */
  datatype Script = Script(org: Option<Organization>, flush: bool, end: HandlerEnd)

  /** The session calls a handler makes: the organisation added, the flush. */
  function HandlerCalls(s: Script): seq<Call> {
    (if s.org.Some? then [Add(s.org.value)] else []) + (if s.flush then [Flush] else [])
  }

  /** The scripted handler never commits, rolls back or closes the session itself. */
  lemma HandlerLeavesSessionControl(s: Script)
    ensures var r := HandlerCalls(s);
            multiset(r)[Commit] == 0 && multiset(r)[Rollback] == 0 && multiset(r)[Close] == 0
  {
  }

  /** What a handler returns or raises on a started session with plan `p`. */
  function HandlerResult(s: Script, p: Plan): Result<int, Exception> {
    if s.flush && p.flush.Some? then Failure(p.flush.value)
    else match s.end
      case Return(v) => Success(v)
      case Raise(e) => Failure(e)
  }

  /** The handler double: runs its script and records the units of work it was given. */
  class Handler {
    const script: Script
    var calls: seq<UnitOfWork>

    constructor(script: Script)
      ensures this.script == script && calls == []
    {
      this.script := script;
      calls := [];
    }

    method Invoke(uow: UnitOfWork) returns (r: Result<int, Exception>)
      requires uow.Started()
      modifies this, uow.session
      ensures calls == old(calls) + [uow]
      ensures uow.session.log == old(uow.session.log) + HandlerCalls(script)
      ensures r == HandlerResult(script, uow.session.plan)
    {
      calls := calls + [uow];
      if script.org.Some? {
        var repo := uow.Orgs();
        repo.value.Create(script.org.value);
      }
      if script.flush {
        var flushed := uow.Flush();
        if flushed.Fail? {
          return Failure(flushed.error);
        }
      }
      match script.end
      case Return(v) => r := Success(v);
      case Raise(e) => r := Failure(e);
    }
  }

  /** The `uow_factory` callable: each call makes a new, unstarted unit of work. */
  class UowFactory {
    const sessionFactory: SessionFactory
    const reposFactory: RepoFactory
    var calls: nat
    var last: UnitOfWork?

    constructor(sessionFactory: SessionFactory, reposFactory: RepoFactory)
      ensures this.sessionFactory == sessionFactory && this.reposFactory == reposFactory
      ensures calls == 0 && last == null
    {
      this.sessionFactory := sessionFactory;
      this.reposFactory := reposFactory;
      calls := 0;
      last := null;
    }

    method Create() returns (u: UnitOfWork)
      modifies this
      ensures fresh(u) && u == last && calls == old(calls) + 1
      ensures u.sessionFactory == sessionFactory && u.reposFactory == reposFactory
      ensures u.session == null && u.orgs == null
    {
      u := new UnitOfWork(sessionFactory, reposFactory);
      calls := calls + 1;
      last := u;
    }
  }

  /** The result of one run, the calls made on its session, and whether the
      handler was invoked. */
  datatype Trace = Trace(result: Result<int, Exception>, log: seq<Call>, handled: bool)

  /** The body of the `async with` on a started session: the handler, a commit
      when it returned, and a DBError from either turned into an application error. */
  function BodyResult(p: Plan, s: Script): Result<int, Exception> {
    var h := HandlerResult(s, p);
    var raised := if h.Failure? then Some(h.error)
                  else if CommitOutcome(p).Fail? then Some(CommitOutcome(p).error)
                  else None;
    match raised
    case None => h
    case Some(e) => if e.Db? then Failure(App(TranslateDbError(e.db))) else Failure(e)
  }

  function BodyCalls(p: Plan, s: Script): seq<Call> {
    HandlerCalls(s) + (if HandlerResult(s, p).Success? then CommitCalls(p) else [])
  }

  /** The exception `async with` hands to `__aexit__`: the one leaving the body, if any. */
  function BodyException(p: Plan, s: Script): (exc: Option<Exception>)
    ensures exc.Some? <==> BodyResult(p, s).Failure?
  {
    var body := BodyResult(p, s);
    if body.Failure? then Some(body.error) else None
  }

  /** One run of the executor, given how the session factory, the repository
      factory, the session and the handler behave. */
  function RunTrace(sessionFailure: Option<Exception>, repoFailure: Option<Exception>,
                    p: Plan, s: Script): Trace
  {
    var entered := EnterOutcome(sessionFailure, repoFailure, p);
    if entered.Fail? then Trace(Failure(entered.error), if sessionFailure.Some? then [] else EnterCalls(repoFailure), false)
    else
      var body := BodyResult(p, s);
      var exc := if body.Failure? then Some(body.error) else None;
      var exit := ExitOutcome(p, exc);
      Trace(if exit.Fail? then Failure(exit.error) else body, BodyCalls(p, s) + ExitCalls(exc), true)
  }

  // ---------------------------------------------------------------------------
  // What one run does
  // ---------------------------------------------------------------------------

  /** The handler runs exactly when the unit of work was entered. */
  lemma HandledIffEntered(sf: Option<Exception>, rf: Option<Exception>, p: Plan, s: Script)
    ensures RunTrace(sf, rf, p, s).handled <==> EnterOutcome(sf, rf, p).Pass?
  {
  }

  /** A failed enter skips the handler and the commit and raises the enter error. */
  lemma EnterFailureSkipsHandler(sf: Option<Exception>, rf: Option<Exception>, p: Plan, s: Script)
    requires sf.Some? || rf.Some?
    ensures var t := RunTrace(sf, rf, p, s);
            && !t.handled && Commit !in t.log && Rollback !in t.log
            && t.result == Failure(EnterOutcome(sf, rf, p).error)
  {
  }

  /** The body commits once exactly when the handler returned, rolls back
      once more when that commit failed with a storage error, and never closes. */
  lemma BodyCallsCounts(p: Plan, s: Script)
    ensures var b := BodyCalls(p, s);
            var returned := HandlerResult(s, p).Success?;
            && multiset(b)[Commit] == (if returned then 1 else 0)
            && multiset(b)[Rollback] == (if returned && p.commit.Some? && p.commit.value.Storage? then 1 else 0)
            && multiset(b)[Close] == 0
  {
    HandlerLeavesSessionControl(s);
  }

  /** Commit is attempted once, and only, when the unit of work was entered
      and the handler returned normally. */
  lemma CommitOnlyAfterHandlerReturns(sf: Option<Exception>, rf: Option<Exception>, p: Plan, s: Script)
    ensures var t := RunTrace(sf, rf, p, s);
            multiset(t.log)[Commit] == (if sf.None? && rf.None? && HandlerResult(s, p).Success? then 1 else 0)
  {
    var t := RunTrace(sf, rf, p, s);
    if sf.None? && rf.None? {
      EnteredLog(p, s);
      BodyCallsCounts(p, s);
    }
  }

  /** On an entered unit of work the session sees the body's calls, then the
      exit's, and the run ends with the exit's error or else the body's result. */
  lemma EnteredLog(p: Plan, s: Script)
    ensures var t := RunTrace(None, None, p, s);
            var exit := ExitOutcome(p, BodyException(p, s));
            && t.log == BodyCalls(p, s) + ExitCalls(BodyException(p, s))
            && t.result == (if exit.Fail? then Failure(exit.error) else BodyResult(p, s))
  {
  }

  /** Once a session was made, it is closed exactly once, as the last call. */
  lemma ClosedOnceLast(rf: Option<Exception>, p: Plan, s: Script)
    ensures var t := RunTrace(None, rf, p, s);
            |t.log| > 0 && t.log[|t.log| - 1] == Close && multiset(t.log)[Close] == 1
  {
    var t := RunTrace(None, rf, p, s);
    if rf.None? {
      var b, x := BodyCalls(p, s), ExitCalls(BodyException(p, s));
      EnteredLog(p, s);
      BodyCallsCounts(p, s);
      assert multiset(t.log) == multiset(b) + multiset(x);
      assert t.log[|t.log| - 1] == x[|x| - 1];
    } else {
      assert t.log == [Close];
    }
  }

  /** When an exception leaves the body, the unit of work rolls back and then closes. */
  lemma RollbackBeforeCloseOnError(p: Plan, s: Script)
    requires BodyResult(p, s).Failure?
    ensures var t := RunTrace(None, None, p, s);
            |t.log| >= 2 && t.log[|t.log| - 2] == Rollback && t.log[|t.log| - 1] == Close
  {
    var t := RunTrace(None, None, p, s);
    EnteredLog(p, s);
  }

  /** A commit that fails with a storage error rolls back twice, once in
      commit and once in exit, closes once, and surfaces as the translated
      classified error when neither the rollback nor the close raises. */
  lemma FailedCommitRollsBackTwice(p: Plan, s: Script, e: StorageError)
    requires HandlerResult(s, p).Success? && p.commit == Some(Storage(e))
    ensures var t := RunTrace(None, None, p, s);
            && multiset(t.log)[Rollback] == 2 && multiset(t.log)[Close] == 1
            && (p.rollback.None? && p.close.None? ==>
                  t.result == Failure(App(TranslateDbError(DetermineExc(e)))))
  {
    FailedCommitCalls(p, s, e);
    if p.rollback.None? && p.close.None? {
      FailedCommitResult(p, s, e);
    }
  }

  /** The session calls half of FailedCommitRollsBackTwice. */
  lemma FailedCommitCalls(p: Plan, s: Script, e: StorageError)
    requires HandlerResult(s, p).Success? && p.commit == Some(Storage(e))
    ensures var t := RunTrace(None, None, p, s);
            multiset(t.log)[Rollback] == 2 && multiset(t.log)[Close] == 1
  {
    var b, x := BodyCalls(p, s), ExitCalls(BodyException(p, s));
    BodyCallsCounts(p, s);
    assert x == [Rollback, Close];
    assert multiset(b + x) == multiset(b) + multiset(x);
    EnteredLog(p, s);
  }

  /** The result half of FailedCommitRollsBackTwice. */
  lemma FailedCommitResult(p: Plan, s: Script, e: StorageError)
    requires HandlerResult(s, p).Success? && p.commit == Some(Storage(e))
    requires p.rollback.None? && p.close.None?
    ensures RunTrace(None, None, p, s).result == Failure(App(TranslateDbError(DetermineExc(e))))
  {
    EnteredLog(p, s);
  }

  /** A run returns a value exactly when the handler returned it, the commit
      succeeded and the exit's close succeeded; the value is the handler's. */
  lemma SuccessOnlyAfterCommit(sf: Option<Exception>, rf: Option<Exception>, p: Plan, s: Script)
    ensures var t := RunTrace(sf, rf, p, s);
            && (t.result.Success? <==>
                  sf.None? && rf.None? && HandlerResult(s, p).Success? && p.commit.None? && p.close.None?)
            && (t.result.Success? ==> t.result == HandlerResult(s, p))
  {
  }

  /** A DBError raised by the handler leaves the run as the translated application error. */
  lemma HandlerDbErrorTranslated(p: Plan, s: Script, d: DBError)
    requires HandlerResult(s, p) == Failure(Db(d)) && p.rollback.None? && p.close.None?
    ensures RunTrace(None, None, p, s).result == Failure(App(TranslateDbError(d)))
  {
  }

  /** Any other exception raised by the handler leaves the run unchanged; in
      particular a storage error from a flush is not classified. */
  lemma OtherErrorsPropagate(p: Plan, s: Script, e: Exception)
    requires HandlerResult(s, p) == Failure(e) && !e.Db? && p.rollback.None? && p.close.None?
    ensures RunTrace(None, None, p, s).result == Failure(e)
    ensures s.flush && p.flush.Some? && p.flush.value.Storage? ==> e.Storage?
  {
  }

  class Executor {
    const uowFactory: UowFactory

    constructor(uowFactory: UowFactory)
      ensures this.uowFactory == uowFactory
    {
      this.uowFactory := uowFactory;
    }

    /** run: one unit of work per call, the handler invoked on it only after
        a successful enter, the session driven as RunTrace says. */
    method Run(handler: Handler) returns (r: Result<int, Exception>)
      modifies uowFactory, uowFactory.sessionFactory, uowFactory.reposFactory, handler
      ensures uowFactory.calls == old(uowFactory.calls) + 1
      ensures uowFactory.last != null && fresh(uowFactory.last)
      ensures uowFactory.sessionFactory.calls == old(uowFactory.sessionFactory.calls) + 1
      ensures var sf := uowFactory.sessionFactory;
              var t := RunTrace(sf.failure, uowFactory.reposFactory.failure, sf.plan, handler.script);
              && r == t.result
              && (sf.failure.None? ==> sf.last != null && fresh(sf.last) && sf.last.log == t.log)
              && handler.calls == old(handler.calls) + (if t.handled then [uowFactory.last] else [])
              && (t.handled ==> uowFactory.last.session == sf.last)
    {
      var uow, entered := Acquire();
      if entered.Fail? {
        return Failure(entered.error);
      }
      r := Scope(uow, handler);
    }

    /** `async with self._uow_factory() as uow`, up to the body: a new unit of
        work, entered. */
    method Acquire() returns (uow: UnitOfWork, entered: Outcome<Exception>)
      modifies uowFactory, uowFactory.sessionFactory, uowFactory.reposFactory
      ensures uowFactory.calls == old(uowFactory.calls) + 1 && uow == uowFactory.last && fresh(uow)
      ensures uowFactory.sessionFactory.calls == old(uowFactory.sessionFactory.calls) + 1
      ensures var sf := uowFactory.sessionFactory;
              && entered == EnterOutcome(sf.failure, uowFactory.reposFactory.failure, sf.plan)
              && (sf.failure.None? ==>
                    && sf.last != null && fresh(sf.last) && sf.last.plan == sf.plan
                    && sf.last.log == EnterCalls(uowFactory.reposFactory.failure))
              && (entered.Pass? ==> uow.Started() && uow.session == sf.last)
    {
      uow := uowFactory.Create();
      entered := uow.Enter();
    }

    /** The inside of the `async with` on an entered unit of work: the `try`
        block, then `__aexit__` with the exception leaving it, whose own error
        replaces that exception. */
    method Scope(uow: UnitOfWork, handler: Handler) returns (r: Result<int, Exception>)
      requires uow.Started()
      modifies uow.session, handler
      ensures var t := RunTrace(None, None, uow.session.plan, handler.script);
              uow.session.log == old(uow.session.log) + t.log && r == t.result
      ensures handler.calls == old(handler.calls) + [uow]
    {
      var outcome := Body(uow, handler);
      var exc := if outcome.Failure? then Some(outcome.error) else None;
      var exited := uow.Exit(exc);
      if exited.Fail? {
        return Failure(exited.error);
      }
      r := outcome;
    }

    /** The `try` inside the `async with`: the handler, the commit when it
        returned, and the translation of a DBError. */
    method Body(uow: UnitOfWork, handler: Handler) returns (outcome: Result<int, Exception>)
      requires uow.Started()
      modifies uow.session, handler
      ensures uow.session.log == old(uow.session.log) + BodyCalls(uow.session.plan, handler.script)
      ensures outcome == BodyResult(uow.session.plan, handler.script)
      ensures handler.calls == old(handler.calls) + [uow]
    {
      var result := handler.Invoke(uow);
      outcome := result;
      if result.Success? {
        var committed := uow.Commit();
        if committed.Fail? {
          outcome := Failure(committed.error);
        }
      }
      if outcome.Failure? && outcome.error.Db? {
        outcome := Failure(App(TranslateDbError(outcome.error.db)));
      }
    }
  }
}
