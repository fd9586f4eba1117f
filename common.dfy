/** Shared vocabulary of the HTTP handlers: optional request fields, handler
    outcomes, and the failure envelope each handler answers with. */
module Common {

  /** A request field that may be `undefined`. */
  datatype Option<+T> = None | Some(value: T)

  /** The id of a stored user. */
  type UserId = nat

  /** The text a validator sees: `undefined` reads as the empty string. */
  function Text(v: Option<string>): string {
    if v.None? then "" else v.value
  }

  /** One `(field, message)` pair reported by a validation rule table. */
  datatype Violation = Violation(field: string, message: string)

  /** The `{ success: false, message }` responses the handlers send. */
  datatype Failure =
    | BadRequest(message: string)      // 400 written out by a handler
    | Invalid(errors: seq<Violation>)  // validation errors: a rule table's 400, or the schema's on save
    | Unauthorized(message: string)    // 401
    | NotFound(message: string)        // 404

  /** A handler's outcome: the success payload or the failure it responds with. */
  datatype Result<+T> = Ok(value: T) | Err(failure: Failure)

  const TaskNotFound: string := "Task not found"
  const InvalidCredentials: string := "Invalid credentials"
  const DuplicateEmail: string := "User with this email already exists"
}
