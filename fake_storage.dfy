/** Stand-ins for the storage library objects a unit of work drives: a session
    that records every call made on it and fails as it is told to, the session
    factory (async_sessionmaker), the organisations repository and its factory. */
module FakeStorage {
  import opened Wrappers
  import opened Exceptions

  /** pet.domain.models.Organization. */
  datatype Organization = Organization(name: string)

  /** A call made on a session. */
  datatype Call =
    | Add(org: Organization)
    | Flush
    | Refresh(obj: Organization, attrs: Option<seq<string>>)
    | Commit
    | Rollback
    | Close

  /** How each awaited session operation ends: `None` returns, `Some(e)` raises `e`. */
  datatype Plan = Plan(
    commit: Option<Exception>,
    rollback: Option<Exception>,
    close: Option<Exception>,
    flush: Option<Exception>,
    refresh: Option<Exception>)

  /** The outcome of an operation planned to end as `f`. */
  function Ends(f: Option<Exception>): (r: Outcome<Exception>)
    ensures r.Pass? <==> f.None?
    ensures f.Some? ==> r.error == f.value
  {
    if f.None? then Pass else Fail(f.value)
  }

  /** An AsyncSession: `log` holds every call made on it, in order. */
  class FakeSession {
    const plan: Plan
    var log: seq<Call>

    constructor(plan: Plan)
      ensures this.plan == plan && log == []
    {
      this.plan := plan;
      log := [];
    }

    /** session.add: never fails. */
    method Add(org: Organization)
      modifies this
      ensures log == old(log) + [Call.Add(org)]
    {
      log := log + [Call.Add(org)];
    }

    method Flush() returns (r: Outcome<Exception>)
      modifies this
      ensures log == old(log) + [Call.Flush] && r == Ends(plan.flush)
    {
      log := log + [Call.Flush];
      r := Ends(plan.flush);
    }

    method Refresh(obj: Organization, attrs: Option<seq<string>>) returns (r: Outcome<Exception>)
      modifies this
      ensures log == old(log) + [Call.Refresh(obj, attrs)] && r == Ends(plan.refresh)
    {
      log := log + [Call.Refresh(obj, attrs)];
      r := Ends(plan.refresh);
    }

    method Commit() returns (r: Outcome<Exception>)
      modifies this
      ensures log == old(log) + [Call.Commit] && r == Ends(plan.commit)
    {
      log := log + [Call.Commit];
      r := Ends(plan.commit);
    }

    method Rollback() returns (r: Outcome<Exception>)
      modifies this
      ensures log == old(log) + [Call.Rollback] && r == Ends(plan.rollback)
    {
      log := log + [Call.Rollback];
      r := Ends(plan.rollback);
    }

    method Close() returns (r: Outcome<Exception>)
      modifies this
      ensures log == old(log) + [Call.Close] && r == Ends(plan.close)
    {
      log := log + [Call.Close];
      r := Ends(plan.close);
    }
  }

  /** async_sessionmaker: each call makes a new session with the factory's
      plan, or raises `failure`; `last` is the latest session made. */
  class SessionFactory {
    const plan: Plan
    const failure: Option<Exception>
    var calls: nat
    var last: FakeSession?

    constructor(plan: Plan, failure: Option<Exception>)
      ensures this.plan == plan && this.failure == failure && calls == 0 && last == null
    {
      this.plan := plan;
      this.failure := failure;
      calls := 0;
      last := null;
    }

    method Create() returns (r: Result<FakeSession, Exception>)
      modifies this
      ensures calls == old(calls) + 1
      ensures failure.Some? ==> r == Failure(failure.value) && last == old(last)
      ensures failure.None? ==>
                r.Success? && r.value == last && fresh(last) && last.plan == plan && last.log == []
    {
      calls := calls + 1;
      if failure.Some? {
        r := Failure(failure.value);
      } else {
        var s := new FakeSession(plan);
        last := s;
        r := Success(s);
      }
    }
  }

  /** SQLAlchemyOrganizationsRepo: a repository bound to one session. */
  class OrgsRepo {
    const session: FakeSession

    constructor(session: FakeSession)
      ensures this.session == session
    {
      this.session := session;
    }

    /** create: adds the organisation to the session. */
    method Create(org: Organization)
      modifies session
      ensures session.log == old(session.log) + [Call.Add(org)]
    {
      session.Add(org);
    }
  }

  /** The repository factory handed to a unit of work: builds a repository on
      the given session, or raises `failure`; `calls` lists the sessions it was given. */
  class RepoFactory {
    const failure: Option<Exception>
    var calls: seq<FakeSession>

    constructor(failure: Option<Exception>)
      ensures this.failure == failure && calls == []
    {
      this.failure := failure;
      calls := [];
    }

    method Create(session: FakeSession) returns (r: Result<OrgsRepo, Exception>)
      modifies this
      ensures calls == old(calls) + [session]
      ensures failure.Some? ==> r == Failure(failure.value)
      ensures failure.None? ==> r.Success? && fresh(r.value) && r.value.session == session
    {
      calls := calls + [session];
      if failure.Some? {
        r := Failure(failure.value);
      } else {
        var repo := new OrgsRepo(session);
        r := Success(repo);
      }
    }
  }
}
