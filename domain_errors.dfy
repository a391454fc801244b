/** The domain's error records (src/pet/domain/exc.py): the application error
    with its two subclasses, the storage error kinds, the storage error record,
    and the translation of a storage error into an application error. */
module DomainErrors {
  import opened Wrappers
  import opened StorageErrors

  /** DBErrorKind: a string enumeration. */
  datatype DBErrorKind =
    | Unique | ForeignKey | NotNull | Check | Operational | Unknown | OtherIntegrity | Transient
  {
    /** The member's string value. */
    function Value(): string {
      match this
      case Unique => "unique_violation"
      case ForeignKey => "fk_violation"
      case NotNull => "not_null_violation"
      case Check => "check_violation"
      case Operational => "operational"
      case Unknown => "unknown"
      case OtherIntegrity => "other_integrity"
      case Transient => "transient"
    }
  }

  /** DBErrorKind(value): the member whose string value is `s`, if any. */
  function ParseKind(s: string): (r: Option<DBErrorKind>)
    ensures r.Some? ==> r.value.Value() == s
  {
    if s == "unique_violation" then Some(Unique)
    else if s == "fk_violation" then Some(ForeignKey)
    else if s == "not_null_violation" then Some(NotNull)
    else if s == "check_violation" then Some(Check)
    else if s == "operational" then Some(Operational)
    else if s == "unknown" then Some(Unknown)
    else if s == "other_integrity" then Some(OtherIntegrity)
    else if s == "transient" then Some(Transient)
    else None
  }

  /** Every member is found again from its string value. */
  lemma ParseKindValue(k: DBErrorKind)
    ensures ParseKind(k.Value()) == Some(k)
  {
  }

  /** The string values are pairwise distinct, so a value determines its member. */
  lemma KindValueInjective(k1: DBErrorKind, k2: DBErrorKind)
    ensures k1.Value() == k2.Value() <==> k1 == k2
  {
    ParseKindValue(k1);
    ParseKindValue(k2);
  }

  /** The class of an application error: AppError itself or one of its two subclasses. */
  datatype AppErrorClass = AppErrorBase | ConflictError | InternalErrorClass

  /** A value placed in an application error's `extra` dictionary. */
  datatype ExtraValue = Flag(b: bool) | Text(s: Option<string>) | Cause(e: Option<StorageError>)

  /** AppError and its subclasses: the fields of the dataclass plus the class. */
  datatype AppError = AppError(
    cls: AppErrorClass,
    title: string,
    code: string,
    statusCode: int,
    detail: Option<string>,
    extra: Option<map<string, ExtraValue>>)

  /** The AppError dataclass constructor with its defaults. */
  function NewAppError(title: string, code: string, statusCode: int := 400,
                       detail: Option<string> := None,
                       extra: Option<map<string, ExtraValue>> := None): (r: AppError)
    ensures r.cls == AppErrorBase
    ensures r.title == title && r.code == code && r.statusCode == statusCode
    ensures r.detail == detail && r.extra == extra
  {
    AppError(AppErrorBase, title, code, statusCode, detail, extra)
  }

  /** Conflict(title, code, detail, status_code=409, extra). */
  function Conflict(title: string, code: string, detail: Option<string> := None,
                    statusCode: int := 409,
                    extra: Option<map<string, ExtraValue>> := None): (r: AppError)
    ensures r.cls == ConflictError
    ensures r.title == title && r.code == code && r.statusCode == statusCode
    ensures r.detail == detail && r.extra == extra
  {
    AppError(ConflictError, title, code, statusCode, detail, extra)
  }

  /** InternalError(title, code, detail, status_code=500, extra). */
  function InternalError(title: string, code: string, detail: Option<string> := None,
                         statusCode: int := 500,
                         extra: Option<map<string, ExtraValue>> := None): (r: AppError)
    ensures r.cls == InternalErrorClass
    ensures r.title == title && r.code == code && r.statusCode == statusCode
    ensures r.detail == detail && r.extra == extra
  {
    AppError(InternalErrorClass, title, code, statusCode, detail, extra)
  }

  /** The DBError dataclass: the kind and its defaulted fields. */
  datatype DBError = DBError(
    kind: DBErrorKind,
    title: string,
    statusCode: int,
    sqlstate: Option<string>,
    retryable: bool,
    cause: Option<StorageError>,
    detail: Option<string>)

  /** The DBError dataclass constructor with its defaults. */
  function NewDBError(kind: DBErrorKind, title: string := "Database error", statusCode: int := 503,
                      sqlstate: Option<string> := None, retryable: bool := false,
                      cause: Option<StorageError> := None,
                      detail: Option<string> := None): (r: DBError)
    ensures r.kind == kind && r.title == title && r.statusCode == statusCode
    ensures r.sqlstate == sqlstate && r.retryable == retryable && r.cause == cause && r.detail == detail
  {
    DBError(kind, title, statusCode, sqlstate, retryable, cause, detail)
  }

  /** The defaults of the three constructors when only the required fields are given. */
  lemma Defaults(title: string, code: string, kind: DBErrorKind)
    ensures var a := NewAppError(title, code);
            a.statusCode == 400 && a.detail == None && a.extra == None
    ensures var c := Conflict(title, code);
            c.statusCode == 409 && c.detail == None && c.extra == None
    ensures var i := InternalError(title, code);
            i.statusCode == 500 && i.detail == None && i.extra == None
    ensures var d := NewDBError(kind);
            && d.title == "Database error" && d.statusCode == 503 && d.sqlstate == None
            && !d.retryable && d.cause == None && d.detail == None
  {
  }

  /** translate_db_error: a unique violation becomes a Conflict, every other
      kind an InternalError; the title and detail are kept, the code is the
      kind's value, and `extra` records the retry flag, the cause and, for an
      internal error, the SQLSTATE. */
  function TranslateDbError(e: DBError): (r: AppError)
    ensures r.title == e.title && r.detail == e.detail && r.code == e.kind.Value()
    ensures r.statusCode == 409 <==> e.kind == Unique
    ensures e.kind != Unique ==> r.statusCode == 500
    ensures r.cls == (if e.kind == Unique then ConflictError else InternalErrorClass)
    ensures r.extra.Some?
    ensures e.kind == Unique ==> r.extra.value.Keys == {"retryable", "cause"}
    ensures e.kind != Unique ==> r.extra.value.Keys == {"retryable", "sqlstate", "cause"}
    ensures r.extra.value["retryable"] == Flag(e.retryable) && r.extra.value["cause"] == Cause(e.cause)
    ensures e.kind != Unique ==> r.extra.value["sqlstate"] == Text(e.sqlstate)
  {
    match e.kind
    case Unique =>
      Conflict(title := e.title, code := e.kind.Value(), detail := e.detail,
               extra := Some(map["retryable" := Flag(e.retryable), "cause" := Cause(e.cause)]))
    case _ =>
      InternalError(title := e.title, code := e.kind.Value(), detail := e.detail,
                    extra := Some(map["retryable" := Flag(e.retryable), "sqlstate" := Text(e.sqlstate),
                                      "cause" := Cause(e.cause)]))
  }

  /** The translated error's code names the storage error's kind. */
  lemma TranslatedCodeNamesKind(e: DBError)
    ensures ParseKind(TranslateDbError(e).code) == Some(e.kind)
  {
    ParseKindValue(e.kind);
  }

  /** Errors that differ in their kind translate to errors with different codes. */
  lemma TranslateDistinguishesKinds(e1: DBError, e2: DBError)
    requires e1.kind != e2.kind
    ensures TranslateDbError(e1).code != TranslateDbError(e2).code
  {
    KindValueInjective(e1.kind, e2.kind);
  }
}
