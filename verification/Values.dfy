// Values shared by every part of the model: optional results, column values and
// the two kinds of error the repository tells apart.
module Values {
  datatype Option<+T> = None | Some(value: T)

  datatype Result<+T> = Success(value: T) | Failure(error: Error) {
    predicate IsFailure() {
      Failure?
    }

    function PropagateFailure<U>(): Result<U>
      requires Failure?
    {
      Failure(error)
    }

    function Extract(): T
      requires Success?
    {
      value
    }
  }

  // A column value. Ids and enum members are `Text`, timestamps are `Num`.
  datatype Value = Null | Text(text: string) | Num(num: int) | Flag(flag: bool)

  // What a caller can catch. A `Db` error was raised by PostgreSQL and leaves the
  // transaction aborted; an `App` error never reached the database.
  datatype Error = App(reason: Reason) | Db(code: string)

  datatype Reason =
    | ContextMissing
    | CrossTenantWrite
    | UnknownOperation
    | NotFound
    | BadRequest
    | Conflict(why: string)
    | Unauthorized
    | EmptyTenant
    | Other(name: string)

  const UNIQUE_VIOLATION := Db("23505")
  const POLICY_VIOLATION := Db("42501")
  const TRANSACTION_ABORTED := Db("25P02")
  const NO_SUCH_SAVEPOINT := Db("3B001")
  const KEY_REWRITE := Db("0A000")
}
