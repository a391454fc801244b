/** The unit of work over a storage session (src/pet/infra/sqlalchemy/uow.py):
    entering opens a session and builds the organisations repository on it,
    commit classifies a storage failure after rolling back, and the accessors
    raise UoWNotInitializedError while a field is unset. */
module SqlAlchemyUow {
  import opened Wrappers
  import opened StorageErrors
  import opened DomainErrors
  import opened DbErrors
  import opened Exceptions
  import opened FakeStorage
  import opened UowLifecycle

  /** The exception an unset field raises. */
  function NotStartedError(field: string): (e: Exception)
    ensures e.NotStarted? && e.notStarted.field == field
  {
    NotStarted(NotInitialized(field))
  }

  /** The calls a commit makes on a started session: a commit, and a rollback
      when the commit raised a storage error. */
  function CommitCalls(p: Plan): (r: seq<Call>)
    ensures |r| > 0 && r[0] == Commit && multiset(r)[Commit] == 1 && multiset(r)[Close] == 0
    ensures multiset(r)[Rollback] == (if p.commit.Some? && p.commit.value.Storage? then 1 else 0)
  {
    if p.commit.Some? && p.commit.value.Storage? then [Commit, Rollback] else [Commit]
  }

  /** What a commit on a started session raises: a storage error is
      classified by determine_exc, unless the rollback after it raises; any
      other error passes unchanged. */
  function CommitOutcome(p: Plan): (r: Outcome<Exception>)
    ensures r.Pass? <==> p.commit.None?
    ensures p.commit.Some? && p.commit.value.Storage? ==>
              r == (if p.rollback.Some? then Fail(p.rollback.value) else Fail(Db(DetermineExc(p.commit.value.storage))))
    ensures p.commit.Some? && !p.commit.value.Storage? ==> r == Fail(p.commit.value)
  {
    match p.commit
    case None => Pass
    case Some(e) =>
      if e.Storage? then (if p.rollback.Some? then Fail(p.rollback.value) else Fail(Db(DetermineExc(e.storage))))
      else Fail(e)
  }

  /** A commit rolls back exactly once when it fails with a storage error and
      then raises the classified DBError, whose retry flag says whether the
      failure was operational; a successful commit never rolls back. */
  lemma CommitFailureRollsBack(p: Plan)
    ensures p.commit.None? ==> Rollback !in CommitCalls(p) && CommitOutcome(p) == Pass
    ensures p.commit.Some? && p.commit.value.Storage? && p.rollback.None? ==>
              && CommitCalls(p) == [Commit, Rollback]
              && CommitOutcome(p).error.Db?
              && (CommitOutcome(p).error.db.retryable <==> p.commit.value.storage.OperationalError?)
  {
    if p.commit.None? {
      assert multiset(CommitCalls(p))[Rollback] == 0;
    }
  }

  class UnitOfWork {
    const sessionFactory: SessionFactory
    const reposFactory: RepoFactory
    var session: FakeSession?
    var orgs: OrgsRepo?

    constructor(sessionFactory: SessionFactory, reposFactory: RepoFactory)
      ensures this.sessionFactory == sessionFactory && this.reposFactory == reposFactory
      ensures session == null && orgs == null
    {
      this.sessionFactory := sessionFactory;
      this.reposFactory := reposFactory;
      session := null;
      orgs := null;
    }

    /** Entered: a session, and a repository built on that same session. */
    predicate Started()
      reads this
    {
      session != null && orgs != null && orgs.session == session
    }

    /** The `session` property. */
    function Session(): (r: Result<FakeSession, Exception>)
      reads this
      ensures r.Success? <==> session != null
      ensures r.Success? ==> r.value == session
      ensures r.Failure? ==> r.error == NotStartedError("session")
    {
      if session == null then Failure(NotStartedError("session")) else Success(session)
    }

    /** The `orgs` property. */
    function Orgs(): (r: Result<OrgsRepo, Exception>)
      reads this
      ensures r.Success? <==> orgs != null
      ensures r.Success? ==> r.value == orgs
      ensures r.Failure? ==> r.error == NotStartedError("orgs")
    {
      if orgs == null then Failure(NotStartedError("orgs")) else Success(orgs)
    }

    /** `__aenter__`: a session factory failure propagates untouched; a
        repository factory failure closes the new session, unsets both fields
        and re-raises, unless the close itself raises. */
    method Enter() returns (r: Outcome<Exception>)
      modifies this, sessionFactory, reposFactory
      ensures sessionFactory.calls == old(sessionFactory.calls) + 1
      ensures r == EnterOutcome(sessionFactory.failure, reposFactory.failure, sessionFactory.plan)
      ensures sessionFactory.failure.None? ==>
                var s := sessionFactory.last;
                && s != null && fresh(s) && s.plan == sessionFactory.plan
                && s.log == EnterCalls(reposFactory.failure)
                && reposFactory.calls == old(reposFactory.calls) + [s]
      ensures r.Pass? ==> Started() && session == sessionFactory.last && fresh(orgs)
      // on failure: fields untouched if no session was made; reset, unless the cleanup close raised
      ensures sessionFactory.failure.Some? ==>
                session == old(session) && orgs == old(orgs) && reposFactory.calls == old(reposFactory.calls)
      ensures sessionFactory.failure.None? && reposFactory.failure.Some? ==>
                if sessionFactory.plan.close.None? then session == null && orgs == null
                else session == sessionFactory.last && orgs == old(orgs)
    {
      var created := sessionFactory.Create();
      if created.Failure? {
        return Fail(created.error);
      }
      var s := created.value;
      session := s;
      var repo := reposFactory.Create(s);
      if repo.Failure? {
        var closed := s.Close();
        if closed.Fail? {
          return Fail(closed.error);
        }
        session := null;
        orgs := null;
        return Fail(repo.error);
      }
      orgs := repo.value;
      r := Pass;
    }

    /** `__aexit__`: raises when no session is set; otherwise rolls back if an
        exception is in flight and always closes. The fields are left as they are. */
    method Exit(exc: Option<Exception>) returns (r: Outcome<Exception>)
      modifies session
      ensures old(session) == null ==> r == Fail(NotStartedError("session"))
      ensures session != null ==>
                session.log == old(session.log) + ExitCalls(exc) && r == ExitOutcome(session.plan, exc)
    {
      if session == null {
        return Fail(NotStartedError("session"));
      }
      var rolledBack := Pass;
      if exc.Some? {
        rolledBack := session.Rollback();
      }
      var closed := session.Close();
      if closed.Fail? {
        r := closed;
      } else {
        r := rolledBack;
      }
    }

    /** commit: on a storage error, rolls back and raises the classified DBError. */
    method Commit() returns (r: Outcome<Exception>)
      modifies session
      ensures session == null ==> r == Fail(NotStartedError("session"))
      ensures session != null ==>
                session.log == old(session.log) + CommitCalls(session.plan) && r == CommitOutcome(session.plan)
    {
      if session == null {
        return Fail(NotStartedError("session"));
      }
      var committed := session.Commit();
      if committed.Fail? && committed.error.Storage? {
        var rolledBack := session.Rollback();
        if rolledBack.Fail? {
          return rolledBack;
        }
        return Fail(Db(DetermineExc(committed.error.storage)));
      }
      r := committed;
    }

    method Rollback() returns (r: Outcome<Exception>)
      modifies session
      ensures session == null ==> r == Fail(NotStartedError("session"))
      ensures session != null ==>
                session.log == old(session.log) + [Call.Rollback] && r == Ends(session.plan.rollback)
    {
      if session == null {
        return Fail(NotStartedError("session"));
      }
      r := session.Rollback();
    }

    method Flush() returns (r: Outcome<Exception>)
      modifies session
      ensures session == null ==> r == Fail(NotStartedError("session"))
      ensures session != null ==>
                session.log == old(session.log) + [Call.Flush] && r == Ends(session.plan.flush)
    {
      if session == null {
        return Fail(NotStartedError("session"));
      }
      r := session.Flush();
    }

    method Refresh(obj: Organization, attrs: Option<seq<string>> := None) returns (r: Outcome<Exception>)
      modifies session
      ensures session == null ==> r == Fail(NotStartedError("session"))
      ensures session != null ==>
                session.log == old(session.log) + [Call.Refresh(obj, attrs)] && r == Ends(session.plan.refresh)
    {
      if session == null {
        return Fail(NotStartedError("session"));
      }
      r := session.Refresh(obj, attrs);
    }
  }

  /** A fresh unit of work has neither field set, and both accessors raise
      UoWNotInitializedError naming the missing field; after a successful
      enter and an exit, both accessors still succeed. */
  method Lifecycle(sf: SessionFactory, rf: RepoFactory) returns (before: Result<FakeSession, Exception>,
                                                                 after: Result<OrgsRepo, Exception>)
    modifies sf, rf
    ensures sf.failure.None? && rf.failure.None? ==>
              && before == Failure(NotStartedError("session"))
              && after.Success? && after.value.session == sf.last
  {
    var uow := new UnitOfWork(sf, rf);
    before := uow.Session();
    assert uow.Orgs() == Failure(NotStartedError("orgs"));
    var entered := uow.Enter();
    if entered.Pass? {
      var exited := uow.Exit(None);
    }
    after := uow.Orgs();
  }
}
