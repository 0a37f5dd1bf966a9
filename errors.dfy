// The one exception type of the data-access layer and the result of every
// operation that can raise it.

module Errors {

  /** The DAO operation in which the store raised. */
  datatype Operation = SaveOp | FindByIdOp | FindAllOp | UpdateOp | DeleteOp | FindByEmailOp

  /**
   * `DaoException`, by kind: a failure of the store wrapped by the DAO, or the
   * service's "user not found" raised by an update of an id with no row.
   */
  datatype DaoError = StoreFailure(op: Operation) | NotFound(id: int)

  /** A value, or the exception the call raises instead. */
  datatype Result<+T> = Success(value: T) | Failure(error: DaoError)
}
