/** Everything the modelled code raises or catches, as one union: Python
    matches exceptions by class, the model by constructor. */
module Exceptions {
  import opened Wrappers
  import opened StorageErrors
  import opened DomainErrors
  import opened DbErrors

  /** A JSON value, as carried by a validation error's `errors()` list and by
      a problem-details payload. */
  datatype Value = Str(s: string) | Int(n: int) | List(items: seq<Value>) | Object(fields: map<string, Value>)

  datatype Exception =
    | Storage(storage: StorageError)                     // sqlalchemy.exc.SQLAlchemyError
    | Db(db: DBError)                                    // pet.domain.exc.DBError
    | App(app: AppError)                                 // pet.domain.exc.AppError and subclasses
    | NotStarted(notStarted: UoWNotInitializedError)     // a RuntimeError
    | Http(statusCode: int, detail: string, headers: Option<map<string, string>>)  // starlette HTTPException
    | Validation(errors: seq<Value>)                     // fastapi RequestValidationError
    | Plain(message: string)                             // Exception(message) and any other class
}
