/** What entering and leaving a unit of work do, the same in both
    unit-of-work classes. Entering makes a session and builds the repository
    on it, closing the session again when the repository cannot be built.
    Leaving rolls back when an exception is in flight, then closes in a
    `finally`, so that close runs even when the rollback raises. */
module UowLifecycle {
  import opened Wrappers
  import opened Exceptions
  import opened FakeStorage

  /** The calls `__aenter__` makes on the session it opens. */
  function EnterCalls(repoFailure: Option<Exception>): (r: seq<Call>)
    ensures Commit !in r && Rollback !in r
    ensures r == [] <==> repoFailure.None?
    ensures repoFailure.Some? ==> r == [Close]
  {
    if repoFailure.Some? then [Close] else []
  }

  /** What `__aenter__` raises: the session factory's error, else the
      repository factory's error, replaced by the close error when the
      cleanup close raises too. */
  function EnterOutcome(sessionFailure: Option<Exception>, repoFailure: Option<Exception>, p: Plan)
    : (r: Outcome<Exception>)
    ensures r.Pass? <==> sessionFailure.None? && repoFailure.None?
    ensures sessionFailure.Some? ==> r.error == sessionFailure.value
    ensures sessionFailure.None? && repoFailure.Some? ==>
              r.error == (if p.close.Some? then p.close.value else repoFailure.value)
  {
    if sessionFailure.Some? then Fail(sessionFailure.value)
    else if repoFailure.Some? then (if p.close.Some? then Fail(p.close.value) else Fail(repoFailure.value))
    else Pass
  }

  /** The calls `__aexit__` makes on a started session. */
  function ExitCalls(exc: Option<Exception>): (r: seq<Call>)
    ensures |r| > 0 && r[|r| - 1] == Close
    ensures multiset(r)[Close] == 1 && multiset(r)[Commit] == 0
    ensures multiset(r)[Rollback] == (if exc.Some? then 1 else 0)
    ensures exc.Some? ==> r == [Rollback, Close]
    ensures exc.None? ==> r == [Close]
  {
    (if exc.Some? then [Rollback] else []) + [Close]
  }

  /** What `__aexit__` raises on a started session: the close error replaces
      any rollback error; with nothing raised the exit returns normally and
      lets the in-flight exception, if any, continue. */
  function ExitOutcome(p: Plan, exc: Option<Exception>): (r: Outcome<Exception>)
    ensures p.close.Some? ==> r == Fail(p.close.value)
    ensures p.close.None? && exc.Some? ==> r == Ends(p.rollback)
    ensures exc.None? ==> r == Ends(p.close)
  {
    if p.close.Some? then Fail(p.close.value)
    else if exc.Some? then Ends(p.rollback)
    else Pass
  }

  /** Exit never commits, rolls back exactly when an exception is in flight,
      and closes once, last, whatever the rollback does. */
  lemma ExitRollsBackOnlyOnError(p: Plan, exc: Option<Exception>)
    ensures Rollback in ExitCalls(exc) <==> exc.Some?
    ensures Commit !in ExitCalls(exc)
    ensures ExitOutcome(p, exc).Pass? <==> p.close.None? && (exc.None? || p.rollback.None?)
  {
    var r := ExitCalls(exc);
    assert Rollback in r <==> multiset(r)[Rollback] > 0;
    assert Commit in r <==> multiset(r)[Commit] > 0;
  }
}
