/** The older unit of work (src/pet/infra/uow.py): the same enter and exit as
    the storage-session one, but commit passes straight through to the session
    and the guards raise plain exceptions. */
module InfraUow {
  import opened Wrappers
  import opened Exceptions
  import opened FakeStorage
  import opened UowLifecycle

  const NotInitMessage := "UoW don't init"
  const SessionUnsetMessage := "поле session не инициализировано"
  const OrgsUnsetMessage := "поле orgs не инициализировано"

  class UnitOfWork {
    const sessionFactory: SessionFactory
    const reposFactory: RepoFactory
    var session: FakeSession?
    var orgs: OrgsRepo?

    constructor(sessionFactory: SessionFactory, reposFactory: RepoFactory)
      ensures this.sessionFactory == sessionFactory && this.reposFactory == reposFactory
      ensures session == null && orgs == null
    {
      this.sessionFactory := sessionFactory;
      this.reposFactory := reposFactory;
      session := null;
      orgs := null;
    }

    /** The `session` property. */
    function Session(): (r: Result<FakeSession, Exception>)
      reads this
      ensures r.Success? <==> session != null
      ensures r.Success? ==> r.value == session
      ensures r.Failure? ==> r.error == Plain(SessionUnsetMessage)
    {
      if session == null then Failure(Plain(SessionUnsetMessage)) else Success(session)
    }

    /** The `orgs` property. */
    function Orgs(): (r: Result<OrgsRepo, Exception>)
      reads this
      ensures r.Success? <==> orgs != null
      ensures r.Success? ==> r.value == orgs
      ensures r.Failure? ==> r.error == Plain(OrgsUnsetMessage)
    {
      if orgs == null then Failure(Plain(OrgsUnsetMessage)) else Success(orgs)
    }

    /** `__aenter__`: as in the storage-session unit of work. */
    method Enter() returns (r: Outcome<Exception>)
      modifies this, sessionFactory, reposFactory
      ensures sessionFactory.calls == old(sessionFactory.calls) + 1
      ensures r == EnterOutcome(sessionFactory.failure, reposFactory.failure, sessionFactory.plan)
      ensures sessionFactory.failure.None? ==>
                var s := sessionFactory.last;
                && s != null && fresh(s) && s.plan == sessionFactory.plan
                && s.log == EnterCalls(reposFactory.failure)
                && reposFactory.calls == old(reposFactory.calls) + [s]
      ensures r.Pass? ==> session == sessionFactory.last && orgs != null && fresh(orgs) && orgs.session == session
      // on failure: fields untouched if no session was made; reset, unless the cleanup close raised
      ensures sessionFactory.failure.Some? ==>
                session == old(session) && orgs == old(orgs) && reposFactory.calls == old(reposFactory.calls)
      ensures sessionFactory.failure.None? && reposFactory.failure.Some? ==>
                if sessionFactory.plan.close.None? then session == null && orgs == null
                else session == sessionFactory.last && orgs == old(orgs)
    {
      var created := sessionFactory.Create();
      if created.Failure? {
        return Fail(created.error);
      }
      var s := created.value;
      session := s;
      var repo := reposFactory.Create(s);
      if repo.Failure? {
        var closed := s.Close();
        if closed.Fail? {
          return Fail(closed.error);
        }
        session := null;
        orgs := null;
        return Fail(repo.error);
      }
      orgs := repo.value;
      r := Pass;
    }

    /** `__aexit__`: raises a plain exception when no session is set;
        otherwise rolls back if an exception is in flight and always closes. */
    method Exit(exc: Option<Exception>) returns (r: Outcome<Exception>)
      modifies session
      ensures old(session) == null ==> r == Fail(Plain(NotInitMessage))
      ensures session != null ==>
                session.log == old(session.log) + ExitCalls(exc) && r == ExitOutcome(session.plan, exc)
    {
      if session == null {
        return Fail(Plain(NotInitMessage));
      }
      var rolledBack := Pass;
      if exc.Some? {
        rolledBack := session.Rollback();
      }
      var closed := session.Close();
      if closed.Fail? {
        r := closed;
      } else {
        r := rolledBack;
      }
    }

    /** commit: one session commit; its error, of whatever class, propagates
        unchanged and nothing is rolled back. */
    method Commit() returns (r: Outcome<Exception>)
      modifies session
      ensures session == null ==> r == Fail(Plain(SessionUnsetMessage))
      ensures session != null ==>
                session.log == old(session.log) + [Call.Commit] && r == Ends(session.plan.commit)
    {
      if session == null {
        return Fail(Plain(SessionUnsetMessage));
      }
      r := session.Commit();
    }

    method Rollback() returns (r: Outcome<Exception>)
      modifies session
      ensures session == null ==> r == Fail(Plain(SessionUnsetMessage))
      ensures session != null ==>
                session.log == old(session.log) + [Call.Rollback] && r == Ends(session.plan.rollback)
    {
      if session == null {
        return Fail(Plain(SessionUnsetMessage));
      }
      r := session.Rollback();
    }
  }
}
