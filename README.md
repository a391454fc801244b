# A Dafny model of the pet service's error handling, unit of work and tree printer

The project models the storage-error path of the `pet` web service together with
the small `p.py` project-tree printer that ships with it.

- **Error records.** The service's domain has several error records:
  the application error (`AppError`) and its `Conflict` and `InternalError` subclasses,
  the storage-error record `DBError` with its `DBErrorKind`,
  and `translate_db_error`, which turns a storage error into an application error.
  They are datatypes and pure functions in `DomainErrors`.
- **Storage-error classifier.** `determine_exc` reads the SQLSTATE of an integrity error
  (SQLSTATE class 23 of PostgreSQL's error codes)
  and classifies any storage-library exception into a `DBError`.
  `UoWNotInitializedError` is the error raised by an unset unit-of-work field.
  These are in `DbErrors`.
  The storage library's exception classes (`IntegrityError`, `OperationalError`, the rest)
  and the driver error they wrap are a datatype in `StorageErrors`.
- **Units of work.** A unit of work is an async context manager.
  Entering it opens a storage session and builds the organisations repository on that session.
  If the repository cannot be built, it closes the session again.
  Leaving it rolls back when an exception is in flight,
  and always closes the session in a `finally`.
  There are two variants, each modelled as a Dafny `class` with the source's two mutable fields:
  - **The storage-session one** (`SqlAlchemyUow.UnitOfWork`).
    Its `commit` rolls back after a storage error and re-raises it classified.
  - **The older one** (`InfraUow.UnitOfWork`).
    Its `commit` passes every error straight through,
    and its guards raise plain exceptions.

  The common enter and exit behaviour is stated once, in `UowLifecycle`.
- **Stand-in storage objects.** The session, the session factory,
  the repository and the repository factory are stand-ins in `FakeStorage`.
  Each session records every call made on it in `log`,
  and fails as a fixed `Plan` says.
- **Transaction executor.** The executor makes a unit of work and enters it.
  It runs the handler, commits when the handler returns,
  and translates a `DBError` into an application error.
  Then it leaves the unit of work with the exception that is in flight.
  This is the `TransactionExecutor.Executor` class.
  Its `Run` is proved against the pure `RunTrace`, and the lemmas beside `RunTrace` prove:
  - the handler runs exactly when entering succeeded;
  - commit happens only after the handler returned;
  - the session is closed once, as its last call;
  - rollback comes before close on error;
  - a storage failure during commit rolls back twice;
  - the run succeeds exactly when commit and close succeed.
- **Problem-details responses.** The HTTP error handlers answer every escaping error with a
  problem-details document (RFC 9457, media type `application/problem+json`).
  `ProblemDetails.Problem` builds the body member by member, as the source does.
  `IsProblem` states exactly which members the body holds.
  The five handlers and their dispatch by exception class are each specified through `IsProblem`.
- **The tree printer.** `p.py` lists a directory tree.
  Directories (and anything else that is not a regular file) come first, then files, each group by lower-cased name.
  It draws box-drawing prefixes, respects a depth limit and a directories-only filter,
  and shows pruned directories without expanding them.
  In `ProjectTree`:
  - The sort (`iter_children`) is a stable insertion sort,
    proved ordered and a permutation of the directory's children; the directories-only filter keeps that order.
  - The recursive `walk` is a method with a `for` loop appending to the line list.
    It is proved equal to the pure `WalkEntries`.
    About `WalkEntries`, lemmas prove that every line stays within the depth limit and the filter,
    that no pruned directory is expanded,
    and that every line is indented four characters per level.

The `Exceptions.Exception` datatype is the union of everything the model raises.
Python's `None` is `Option.None`.
A call that may raise returns a `Result` (a value or an error) or an `Outcome` (nothing or an error).

## Model

| member | source | states |
|---|---|---|
| DomainErrors.DBErrorKind.Value | src/pet/domain/exc.py:53-61 | definition: the string value of each of the eight kinds; ParseKindValue and KindValueInjective prove it one-to-one |
| DomainErrors.ParseKind | src/pet/domain/exc.py:53-61 | the member found for a string has exactly that string as its value |
| DomainErrors.ParseKindValue | src/pet/domain/exc.py:53-61 | every DBErrorKind member is found again from its string value |
| DomainErrors.KindValueInjective | src/pet/domain/exc.py:53-61 | two members have the same value iff they are the same member |
| DomainErrors.NewAppError | src/pet/domain/exc.py:6-12 | an AppError keeps every field given, class AppError |
| DomainErrors.Conflict | src/pet/domain/exc.py:15-31 | a Conflict keeps every field given, class Conflict |
| DomainErrors.InternalError | src/pet/domain/exc.py:34-50 | an InternalError keeps every field given, class InternalError |
| DomainErrors.NewDBError | src/pet/domain/exc.py:64-72 | a DBError keeps every field given |
| DomainErrors.Defaults | src/pet/domain/exc.py:6-72 | defaults: AppError 400, Conflict 409, InternalError 500, no detail or extra; DBError "Database error", 503, no sqlstate, not retryable, no cause or detail |
| DomainErrors.TranslateDbError | src/pet/domain/exc.py:75-97 | title and detail kept, code is the kind's value; a Conflict (409) exactly for a unique violation, else an InternalError (500); extra holds exactly retryable and cause, plus sqlstate for an internal error, each with the record's value |
| DomainErrors.TranslatedCodeNamesKind | src/pet/domain/exc.py:75-97 | the translated code parses back to the error's kind |
| DomainErrors.TranslateDistinguishesKinds | src/pet/domain/exc.py:75-97 | errors of different kinds translate to different codes |
| DbErrors.SqlstateFromIntegrity | src/pet/infra/sqlalchemy/db/exc.py:5-8 | no driver error gives none; a truthy `sqlstate` is taken, otherwise `pgcode` |
| DbErrors.SqlstateSource | src/pet/infra/sqlalchemy/db/exc.py:5-8 | the result is one of the driver's two codes; it is absent iff there is no driver error, or its sqlstate is falsy and it has no pgcode |
| DbErrors.KindOfSqlstate | src/pet/infra/sqlalchemy/db/exc.py:15-27 | each of 23505, 23503, 23502, 23514 maps to its kind and only it does; every other code is UNKNOWN |
| DbErrors.DetermineExc | src/pet/infra/sqlalchemy/db/exc.py:11-50 | integrity errors: extracted sqlstate, its mapped kind (UNKNOWN when absent), title db_integrity; operational: OPERATIONAL, db_unvailable; others: UNKNOWN, db_error; retryable iff operational; never TRANSIENT or OTHER_INTEGRITY; 503, no detail, cause is the exception |
| DbErrors.ClassifyIntegrity | src/pet/infra/sqlalchemy/db/exc.py:13-35 | for an integrity error, each constraint kind iff its SQLSTATE, UNKNOWN iff none of the four |
| DbErrors.ConstraintKindsOnlyFromIntegrity | src/pet/infra/sqlalchemy/db/exc.py:11-50 | a constraint kind is only ever given to an integrity error |
| DbErrors.NotInitialized | src/pet/infra/sqlalchemy/db/exc.py:53-56 | the error keeps the field; its message is "UnitOfWork is not started: '", the field, "' is not initialized" |
| DbErrors.NotInitializedMessageInjective | src/pet/infra/sqlalchemy/db/exc.py:53-56 | equal messages name the same field |
| UowLifecycle.EnterCalls | src/pet/infra/sqlalchemy/uow.py:29-39 | entering makes no call on the session when the repository is built, and exactly one close when the repository factory raises; never commit or rollback |
| UowLifecycle.EnterOutcome | src/pet/infra/sqlalchemy/uow.py:29-39 | enter succeeds iff both factories succeed; a session-factory error propagates; a repository error propagates unless the cleanup close raises, whose error then replaces it |
| UowLifecycle.ExitCalls | src/pet/infra/sqlalchemy/uow.py:47-54 | exit ends with exactly one close; one rollback before it iff an exception is in flight; never a commit; so exactly [rollback, close] or [close] |
| UowLifecycle.ExitOutcome | src/pet/infra/sqlalchemy/uow.py:47-54 | a close error wins; otherwise the rollback's error when an exception is in flight; otherwise exit returns normally |
| UowLifecycle.ExitRollsBackOnlyOnError | src/pet/infra/sqlalchemy/uow.py:41-54 | rollback iff exception in flight, never commit; exit raises nothing iff close succeeds and (no exception or rollback succeeds) |
| SqlAlchemyUow.NotStartedError | src/pet/infra/sqlalchemy/uow.py:72-82 | the raised error is UoWNotInitializedError for the field |
| SqlAlchemyUow.CommitCalls | src/pet/infra/sqlalchemy/uow.py:56-61 | commit is called once first; one rollback iff the commit raised a storage error; never close |
| SqlAlchemyUow.CommitOutcome | src/pet/infra/sqlalchemy/uow.py:56-61 | commit succeeds iff the session commit does; a storage error becomes the DBError of determine_exc unless the rollback raises, whose error then propagates; any other error propagates unchanged |
| SqlAlchemyUow.CommitFailureRollsBack | src/pet/infra/sqlalchemy/uow.py:56-61 | no rollback after a good commit; after a storage failure exactly commit then rollback and a DBError retryable iff operational |
| SqlAlchemyUow.UnitOfWork.Started | src/pet/infra/sqlalchemy/uow.py:29-34 | definition of an entered unit of work: a session is set and the repository is built on that same session; `Enter` establishes it on success and the handler and `Commit` rely on it |
| SqlAlchemyUow.UnitOfWork.constructor | src/pet/infra/sqlalchemy/uow.py:18-27 | keeps both factories, both fields unset |
| SqlAlchemyUow.UnitOfWork.Session | src/pet/infra/sqlalchemy/uow.py:72-76 | the session iff set, else UoWNotInitializedError("session") |
| SqlAlchemyUow.UnitOfWork.Orgs | src/pet/infra/sqlalchemy/uow.py:78-82 | the repository iff set, else UoWNotInitializedError("orgs") |
| SqlAlchemyUow.UnitOfWork.Enter | src/pet/infra/sqlalchemy/uow.py:29-39 | one session factory call; outcome is EnterOutcome; the new session's calls are EnterCalls and it is handed to the repository factory; on success both fields set, repository on that session; on failure fields untouched (no session made), reset, or session kept when the cleanup close raised |
| SqlAlchemyUow.UnitOfWork.Exit | src/pet/infra/sqlalchemy/uow.py:41-54 | no session: UoWNotInitializedError("session"); else the session gets ExitCalls and the outcome is ExitOutcome |
| SqlAlchemyUow.UnitOfWork.Commit | src/pet/infra/sqlalchemy/uow.py:56-61 | no session: UoWNotInitializedError; else the session gets CommitCalls and the outcome is CommitOutcome |
| SqlAlchemyUow.UnitOfWork.Rollback | src/pet/infra/sqlalchemy/uow.py:63-64 | one rollback on the session, its outcome; UoWNotInitializedError without a session |
| SqlAlchemyUow.UnitOfWork.Flush | src/pet/infra/sqlalchemy/uow.py:66-67 | one flush on the session, its outcome; UoWNotInitializedError without a session |
| SqlAlchemyUow.UnitOfWork.Refresh | src/pet/infra/sqlalchemy/uow.py:69-70 | one refresh with the object and attribute names; UoWNotInitializedError without a session |
| SqlAlchemyUow.Lifecycle | src/pet/infra/sqlalchemy/uow.py:26-82 | before enter the session accessor raises UoWNotInitializedError; after a good enter and exit the orgs accessor still succeeds |
| InfraUow.UnitOfWork.constructor | src/pet/infra/uow.py:13-22 | keeps both factories, both fields unset |
| InfraUow.UnitOfWork.Session | src/pet/infra/uow.py:57-61 | the session iff set, else the plain "поле session не инициализировано" exception |
| InfraUow.UnitOfWork.Orgs | src/pet/infra/uow.py:63-67 | the repository iff set, else the plain "поле orgs не инициализировано" exception |
| InfraUow.UnitOfWork.Enter | src/pet/infra/uow.py:24-34 | as the storage-session enter: EnterOutcome, EnterCalls, fields set on success, untouched, reset or session kept on failure |
| InfraUow.UnitOfWork.Exit | src/pet/infra/uow.py:36-49 | no session: plain "UoW don't init"; else ExitCalls and ExitOutcome |
| InfraUow.UnitOfWork.Commit | src/pet/infra/uow.py:51-52 | exactly one commit, its error of any class propagated unchanged, no rollback |
| InfraUow.UnitOfWork.Rollback | src/pet/infra/uow.py:54-55 | one rollback on the session and its outcome |
| TransactionExecutor.Handler.Invoke | src/pet/infra/transaction_executor.py:20 | the handler is awaited with the entered unit of work; session calls and result as its script says, using `uow.orgs` and `uow.flush` |
| TransactionExecutor.UowFactory.Create | src/pet/infra/transaction_executor.py:18 | each call a new unit of work with both fields unset |
| TransactionExecutor.HandlerCalls | src/pet/infra/transaction_executor.py:20 | definition: the session calls of the scripted handler, an add when it creates an organisation, then a flush when it flushes |
| TransactionExecutor.HandlerLeavesSessionControl | src/pet/infra/transaction_executor.py:20 | a fact about the scripted handler of this model: it never commits, rolls back or closes; a real handler may, and the executor does not prevent it |
| TransactionExecutor.HandlerResult | src/pet/infra/transaction_executor.py:20 | definition: the failing flush's error, else the script's returned value or raised error |
| TransactionExecutor.BodyResult | src/pet/infra/transaction_executor.py:19-26 | definition: the handler's error, else the commit's error, else the handler's value; a DBError among those errors becomes translate_db_error of it, any other is re-raised unchanged |
| TransactionExecutor.BodyCalls | src/pet/infra/transaction_executor.py:19-22 | definition: the handler's session calls, then the commit's calls when the handler returned |
| TransactionExecutor.BodyException | src/pet/infra/transaction_executor.py:18-26 | definition: the exception `async with` hands to `__aexit__`, present exactly when the body failed; EnteredLog, ClosedOnceLast and RollbackBeforeCloseOnError state what follows from it |
| TransactionExecutor.RunTrace | src/pet/infra/transaction_executor.py:12-26 | definition of one run: a failed enter raises its error with only the enter's calls and no handler; otherwise the body, then the exit with the body's exception, whose own error replaces the result |
| TransactionExecutor.EnteredLog | src/pet/infra/transaction_executor.py:18-26 | on an entered unit of work, the session sees the body's calls and then the exit's |
| TransactionExecutor.BodyCallsCounts | src/pet/infra/transaction_executor.py:19-22 | the body commits once iff the handler returned, rolls back once more iff that commit raised a storage error, and never closes |
| TransactionExecutor.HandledIffEntered | src/pet/infra/transaction_executor.py:18-20 | the handler runs iff entering succeeded |
| TransactionExecutor.EnterFailureSkipsHandler | src/pet/infra/transaction_executor.py:18-20 | a failed enter means no handler, no commit, no rollback, and the enter error raised |
| TransactionExecutor.CommitOnlyAfterHandlerReturns | src/pet/infra/transaction_executor.py:18-22 | exactly one commit when entered and the handler returned, none otherwise |
| TransactionExecutor.ClosedOnceLast | src/pet/infra/transaction_executor.py:18-26 | once a session exists it is closed exactly once, as its last call |
| TransactionExecutor.RollbackBeforeCloseOnError | src/pet/infra/transaction_executor.py:18-26 | an exception leaving the body means rollback then close as the last two calls |
| TransactionExecutor.FailedCommitRollsBackTwice | src/pet/infra/transaction_executor.py:18-24 | a storage failure in commit rolls back twice (commit, exit), closes once, and raises the translated classified error |
| TransactionExecutor.SuccessOnlyAfterCommit | src/pet/infra/transaction_executor.py:18-22 | a run returns iff entered, the handler returned, commit and close succeeded; the value is the handler's |
| TransactionExecutor.HandlerDbErrorTranslated | src/pet/infra/transaction_executor.py:23-24 | a DBError from the handler leaves as translate_db_error of it |
| TransactionExecutor.OtherErrorsPropagate | src/pet/infra/transaction_executor.py:25-26 | any other error from the handler is re-raised unchanged; a raw storage error from a flush is not classified |
| TransactionExecutor.Executor.constructor | src/pet/infra/transaction_executor.py:9-10 | keeps the unit-of-work factory |
| TransactionExecutor.Executor.Run | src/pet/infra/transaction_executor.py:12-26 | one new unit of work and one session-factory call per run; result and the new session's call log are RunTrace's; the handler is invoked once, on the new unit of work, iff it was entered, and that unit of work then holds the new session |
| TransactionExecutor.Executor.Acquire | src/pet/infra/transaction_executor.py:18 | a new unit of work and one session-factory call, entered: EnterOutcome, EnterCalls, started on the new session on success |
| TransactionExecutor.Executor.Scope | src/pet/infra/transaction_executor.py:18-26 | on an entered unit of work, the calls added to the session and the result are those RunTrace gives: the body, then exit with the body's exception, whose own error replaces the result |
| TransactionExecutor.Executor.Body | src/pet/infra/transaction_executor.py:19-26 | handler, commit after a return, DBError translated: calls BodyCalls, result BodyResult |
| ProblemDetails.RequestId | src/pet/api/exceptions_handler.py:18-19 | the request-state id when truthy, else the X-Request-ID header |
| ProblemDetails.RequestIdPresent | src/pet/api/exceptions_handler.py:18-19 | an id is present iff the state id is truthy or the header exists |
| ProblemDetails.IsProblem | src/pet/api/exceptions_handler.py:22-51 | definition of the problem document: status in the response and the body, problem media type, the headers given; type, title and status always present; each optional member present iff given, with its value; no other member |
| ProblemDetails.ProblemDetermined | src/pet/api/exceptions_handler.py:22-51 | the arguments determine the problem response completely |
| ProblemDetails.Problem | src/pet/api/exceptions_handler.py:22-51 | status in the response and body, problem media type, headers passed; type, title, status always present; each optional member present iff given, with its value; nothing else |
| ProblemDetails.AppErrorHandler | src/pet/api/exceptions_handler.py:55-65 | the error's title, status, detail and code, the path as instance, the request id; no extra |
| ProblemDetails.DbErrorHandler | src/pet/api/exceptions_handler.py:67-77 | the error's title, status and detail, the kind's value as code, the path, the request id |
| ProblemDetails.HeadersOrEmpty | src/pet/api/exceptions_handler.py:92 | the exception's headers, or an empty dictionary |
| ProblemDetails.HttpErrorHandler | src/pet/api/exceptions_handler.py:79-93 | title HTTPException, the exception's status and detail, code http_error, its headers always passed as a dictionary |
| ProblemDetails.ValidationErrorHandler | src/pet/api/exceptions_handler.py:95-109 | 422, Validation Error, Request validation failed, validation_error, the errors listed |
| ProblemDetails.UnhandledErrorHandler | src/pet/api/exceptions_handler.py:111-124 | 500, Internal Server Error, Unexpected error, internal_error |
| ProblemDetails.TitleOf | src/pet/api/exceptions_handler.py:54-124 | definition: the title each handler uses: the error's own for AppError and DBError, HTTPException, Validation Error, else Internal Server Error |
| ProblemDetails.StatusOf | src/pet/api/exceptions_handler.py:54-124 | definition: the status each handler uses: the error's own for AppError, DBError and HTTPException, 422 for validation, else 500 |
| ProblemDetails.DetailOf | src/pet/api/exceptions_handler.py:54-124 | definition: the detail each handler uses: the error's own, the fixed validation text, or Unexpected error |
| ProblemDetails.CodeOf | src/pet/api/exceptions_handler.py:54-124 | definition: the code each handler uses: the AppError's code, the DBError kind's value, http_error, validation_error, else internal_error |
| ProblemDetails.ErrorsOf | src/pet/api/exceptions_handler.py:95-109 | definition: only the validation handler lists errors |
| ProblemDetails.HeadersOf | src/pet/api/exceptions_handler.py:79-93 | definition: only the HTTP handler passes headers, always as a dictionary |
| ProblemDetails.Handle | src/pet/api/exceptions_handler.py:54-124 | dispatch by class: the AppError, DBError, HTTPException, validation or catch-all document, built from the per-class title, status, detail, code, errors and headers |
| ProblemDetails.TranslatedDbErrorAnswer | src/pet/api/exceptions_handler.py:55-65 | a translated storage error is answered 409 for a unique violation, 500 otherwise, with the kind as code and its detail |
| ProblemDetails.UnhandledHidden | src/pet/api/exceptions_handler.py:111-124 | any exception without a handler of its own yields the fixed 500 document with no errors or headers |
| ProjectTree.PruneDirNames | p.py:7-78 | the prune set is the four defaults together with every --prune value |
| ProjectTree.LowerChar | p.py:16 | definition: an ASCII capital maps to its small letter, every other character to itself |
| ProjectTree.Lower | p.py:16 | definition: `str.lower` character by character through LowerChar |
| ProjectTree.StrLess | p.py:16 | definition: Python's `<` on strings, lexicographic by code point with a proper prefix first; the three lemmas below prove it a strict total order |
| ProjectTree.StrLessIrreflexive | p.py:16 | string order is irreflexive |
| ProjectTree.StrLessTransitive | p.py:16 | string order is transitive |
| ProjectTree.StrLessTotal | p.py:16 | distinct strings are ordered one way or the other |
| ProjectTree.KeyLess | p.py:16 | definition: the tuple comparison of (is_file, name.lower()), False before True |
| ProjectTree.KeyLeTransitive | p.py:16 | the sort key's order is transitive |
| ProjectTree.Insert | p.py:16 | insertion adds exactly the element |
| ProjectTree.InsertOrdered | p.py:16 | insertion into a sorted list keeps it sorted |
| ProjectTree.SortByKey | p.py:16 | the result is a permutation of the input |
| ProjectTree.SortByKeyOrdered | p.py:16 | the result is sorted by (is_file, name.lower()) |
| ProjectTree.IterChildren | p.py:10-17 | an unreadable directory lists nothing; otherwise a permutation of its children |
| ProjectTree.IterChildrenOrder | p.py:15-16 | everything that is not a regular file (directories among them) before the regular files, each group by lower-cased name |
| ProjectTree.Visible | p.py:34-37 | the children kept are exactly the directories under dirs_only, all of them unchanged otherwise |
| ProjectTree.VisibleOrdered | p.py:34-37 | the dirs_only filter keeps a sorted list sorted |
| ProjectTree.Listed | p.py:34-37 | every listed child is a child of the directory, and a directory under dirs_only |
| ProjectTree.ListedOrder | p.py:15-37 | what walk lists keeps iter_children's order: non-files before files, each group by lower-cased name |
| ProjectTree.WalkEntries | p.py:30-51 | definition of walk as the entries it appends: nothing beyond max_depth, otherwise every round of the loop over the listed children; its lemmas are WalkEntriesBounded and WalkEntriesIndented, and Walk is proved equal to it |
| ProjectTree.ChildrenEntries | p.py:39-51 | definition: the entries of the first k rounds of walk's loop, round by round |
| ProjectTree.ChildEntries | p.py:39-51 | round i prints prefix, branch and name (└── for the last child, ├── otherwise), and adds nothing when the child is not expanded |
| ProjectTree.WalkEntriesBounded | p.py:30-51 | every entry lies at or below the start depth and within max_depth, obeys dirs_only, and no pruned directory is followed by its descendants |
| ProjectTree.WalkEntriesIndented | p.py:39-51 | every line starts with the caller's prefix, extended by four characters per level |
| ProjectTree.ChildEntriesIndented | p.py:48-51 | the lines below child i extend its prefix with "    " for the last child and "│   " otherwise |
| ProjectTree.LinesConcat | p.py:42 | printing distributes over concatenation |
| ProjectTree.Walk | p.py:30-51 | walk appends exactly the lines of WalkEntries to the list |
| ProjectTree.WalkChild | p.py:40-51 | one round of the loop appends exactly the lines of ChildEntries |
| ProjectTree.TreeLines | p.py:20-56 | definition of render_tree's result: the root's name, then, for a directory, the lines of walk from depth 1 with an empty prefix |
| ProjectTree.RenderTree | p.py:20-56 | the root's name first; nothing else for a file or max_depth <= 0; otherwise each further line is the corresponding walk entry's |

## Left out

- async/await: every coroutine is a plain method, and nothing runs concurrently.
- The storage library, its sessions and the database are replaced by the recording doubles in `FakeStorage`. A session fails as its fixed `Plan` says, the same way on every call of one kind.
- The caller's handler coroutine, with its arguments, is a scripted `Handler`. It may create an organisation, may flush, then returns an integer or raises.
- TransactionExecutor.Executor.Run: modelled over the storage-session unit of work only. src/pet/di/uow.py wires the older `InfraUow` one, whose commit raises storage errors unclassified.
- TransactionExecutor.UowFactory.Create: the unit-of-work factory call itself never raises.
- DomainErrors.DBError: `cause` may be any exception in the source; here it is a storage error or absent, the only values the classifier stores.
- ProblemDetails.HttpErrorHandler: the exception's `detail` is always a string here. `status_code` is any integer.
- JSON serialisation of the response body, the logger call of the catch-all handler, and the FastAPI registration mechanism are not modelled. The dispatch by exception class is `Handle`. It describes the application once `register_exception_handlers` has been called; src/pet/main.py:20-24 does not call it, and unregistered errors get the framework's own responses.
- The request object is reduced to its path, the request-state id and the X-Request-ID header.
- p.py: argument parsing, `print`, `Path.resolve` and the file system are left out. The tree is a `Node` value that carries its children, what `is_dir` and `is_file` answer for it, and whether it can be read. A `PermissionError` from `iterdir` is `readable == false`.
- ProjectTree.IterChildren: `is_dir` and `is_file` follow symbolic links; a `Node` records only their answers, so a link is the node it points to, and a dangling link, a FIFO or a socket is a node that is neither, which sorts among the directories.
- ProjectTree.IterChildren: the `is_file` of the sort key (p.py:16) and the `is_dir` tests (p.py:36, 45, 48) run outside the `try`. A `PermissionError` they raise, for example on a directory that can be listed but not searched, leaves `render_tree` and the program stops without printing a tree. No `Node` expresses that error path: every modelled walk renders.
- ProjectTree.WalkEntries: a finite `Node` value cannot hold a symbolic-link cycle, through which the source recurses until Python gives up; every modelled walk terminates.
- ProjectTree.Lower: lower-cases ASCII letters only, not the full Unicode mapping of `str.lower`.
- ProjectTree.SortByKey: sortedness and permutation are proved, not stability.
- Two things the code does not do, which a stricter lifecycle would:
  - `__aexit__` leaves both fields set, so the accessors still work after a unit of work has been left (`SqlAlchemyUow.Lifecycle`).
  - A raw storage error raised by the handler itself, for example from a flush, is not classified. Once the handlers are registered, it reaches the client as the catch-all 500 (`TransactionExecutor.OtherErrorsPropagate`).
