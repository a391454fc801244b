/** The storage-error classifier (src/pet/infra/sqlalchemy/db/exc.py): reading
    the SQLSTATE of an integrity error, turning any storage exception into a
    DBError record, and the error raised by a unit of work that was not started. */
module DbErrors {
  import opened Wrappers
  import opened StorageErrors
  import opened DomainErrors

  /** SQLSTATE values of class 23, "Integrity Constraint Violation", in the
      PostgreSQL manual's Appendix A, "PostgreSQL Error Codes". */
  const UniqueViolation := "23505"
  const ForeignKeyViolation := "23503"
  const NotNullViolation := "23502"
  const CheckViolation := "23514"

  /** pg_sqlstate_from_integrity: `orig.sqlstate` when it is truthy, otherwise
      `orig.pgcode`; nothing when there is no `orig`. */
  function SqlstateFromIntegrity(err: StorageError): (r: Option<string>)
    ensures err.orig.None? ==> r == None
    ensures err.orig.Some? && Truthy(err.orig.value.sqlstate) ==> r == err.orig.value.sqlstate
    ensures err.orig.Some? && !Truthy(err.orig.value.sqlstate) ==> r == err.orig.value.pgcode
  {
    match err.orig
    case None => None
    case Some(orig) => if Truthy(orig.sqlstate) then orig.sqlstate else orig.pgcode
  }

  /** The extracted code is one of the two codes the driver error carries; it
      is absent exactly when there is no driver error, or its `sqlstate` is
      falsy and it has no `pgcode`. */
  lemma SqlstateSource(err: StorageError)
    ensures var r := SqlstateFromIntegrity(err);
            && (r.Some? ==> err.orig.Some? && (r == err.orig.value.sqlstate || r == err.orig.value.pgcode))
            && (r.None? <==> err.orig.None? || (!Truthy(err.orig.value.sqlstate) && err.orig.value.pgcode.None?))
  {
  }

  /** kind_map.get(sqlstate, UNKNOWN). */
  function KindOfSqlstate(sqlstate: string): (k: DBErrorKind)
    ensures k == Unique <==> sqlstate == UniqueViolation
    ensures k == ForeignKey <==> sqlstate == ForeignKeyViolation
    ensures k == NotNull <==> sqlstate == NotNullViolation
    ensures k == Check <==> sqlstate == CheckViolation
    ensures k in {Unique, ForeignKey, NotNull, Check, Unknown}
  {
    if sqlstate == UniqueViolation then Unique
    else if sqlstate == ForeignKeyViolation then ForeignKey
    else if sqlstate == NotNullViolation then NotNull
    else if sqlstate == CheckViolation then Check
    else Unknown
  }

  /** determine_exc: the DBError record for a storage exception. */
  function DetermineExc(e: StorageError): (r: DBError)
    // integrity errors
    ensures e.IntegrityError? ==>
              && r.sqlstate == SqlstateFromIntegrity(e)
              && r.kind == (if r.sqlstate.None? then Unknown else KindOfSqlstate(r.sqlstate.value))
              && r.title == "db_integrity"
    // operational errors
    ensures e.OperationalError? ==>
              r.kind == Operational && r.title == "db_unvailable" && r.sqlstate == None
    // everything else
    ensures e.OtherStorageError? ==> r.kind == Unknown && r.title == "db_error" && r.sqlstate == None
    // common to all three
    ensures r.retryable <==> e.OperationalError?
    ensures r.kind != Transient && r.kind != OtherIntegrity
    ensures r.statusCode == 503 && r.detail == None && r.cause == Some(e)
  {
    if e.IntegrityError? then
      var sqlstate := SqlstateFromIntegrity(e);
      var kind := if sqlstate.None? then Unknown else KindOfSqlstate(sqlstate.value);
      NewDBError(kind := kind, title := "db_integrity", sqlstate := sqlstate, retryable := false,
                 cause := Some(e))
    else if e.OperationalError? then
      NewDBError(kind := Operational, title := "db_unvailable", retryable := true, cause := Some(e))
    else
      NewDBError(kind := Unknown, title := "db_error", retryable := false, cause := Some(e))
  }

  /** An integrity error keyed on one of the four mapped SQLSTATEs gets that
      kind, and any other or missing code gives UNKNOWN. */
  lemma ClassifyIntegrity(e: StorageError)
    requires e.IntegrityError?
    ensures var r := DetermineExc(e);
            var s := SqlstateFromIntegrity(e);
            && (r.kind == Unique <==> s == Some(UniqueViolation))
            && (r.kind == ForeignKey <==> s == Some(ForeignKeyViolation))
            && (r.kind == NotNull <==> s == Some(NotNullViolation))
            && (r.kind == Check <==> s == Some(CheckViolation))
            && (r.kind == Unknown <==> s !in {Some(UniqueViolation), Some(ForeignKeyViolation),
                                              Some(NotNullViolation), Some(CheckViolation)})
  {
  }

  /** Only an integrity error ever yields one of the four constraint kinds. */
  lemma ConstraintKindsOnlyFromIntegrity(e: StorageError)
    requires DetermineExc(e).kind in {Unique, ForeignKey, NotNull, Check}
    ensures e.IntegrityError?
  {
  }

  const NotStartedPrefix := "UnitOfWork is not started: '"
  const NotStartedSuffix := "' is not initialized"

  /** UoWNotInitializedError: the missing field and the exception's message. */
  datatype UoWNotInitializedError = UoWNotInitializedError(field: string, message: string)

  /** UoWNotInitializedError(field). */
  function NotInitialized(field: string): (r: UoWNotInitializedError)
    ensures r.field == field
    ensures |r.message| == |NotStartedPrefix| + |field| + |NotStartedSuffix|
    ensures r.message[..|NotStartedPrefix|] == NotStartedPrefix
    ensures r.message[|NotStartedPrefix|..|NotStartedPrefix| + |field|] == field
    ensures r.message[|NotStartedPrefix| + |field|..] == NotStartedSuffix
  {
    var m := NotStartedPrefix + field + NotStartedSuffix;
    assert m[..|NotStartedPrefix|] == NotStartedPrefix;
    assert m[|NotStartedPrefix|..|NotStartedPrefix| + |field|] == field;
    UoWNotInitializedError(field, m)
  }

  /** The message names the field: two errors with the same message are about
      the same field. */
  lemma NotInitializedMessageInjective(f1: string, f2: string)
    requires NotInitialized(f1).message == NotInitialized(f2).message
    ensures f1 == f2
  {
    var m := NotInitialized(f1).message;
    assert |f1| == |f2|;
    assert f1 == m[|NotStartedPrefix|..|NotStartedPrefix| + |f1|];
  }
}
