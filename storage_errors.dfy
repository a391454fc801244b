/** The storage library's exceptions as far as the error classifier looks at
    them: the kind of the exception (integrity, operational or any other
    SQLAlchemyError) and the driver error it wraps as `orig`, which may carry
    a PostgreSQL SQLSTATE under the attribute `sqlstate` or `pgcode`. */
module StorageErrors {
  import opened Wrappers

  /** The driver exception behind `orig`; an attribute it lacks is `None`. */
  datatype DriverError = DriverError(sqlstate: Option<string>, pgcode: Option<string>)

  /** sqlalchemy.exc.SQLAlchemyError and the two subclasses the classifier tells apart. */
  datatype StorageError =
    | IntegrityError(orig: Option<DriverError>)
    | OperationalError(orig: Option<DriverError>)
    | OtherStorageError(orig: Option<DriverError>)
}
