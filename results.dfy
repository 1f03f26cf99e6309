/** Shared result types of the route handlers. */
module Results {

  /** A value that may be absent: an omitted request field, a failed lookup. */
  datatype Option<+T> = None | Some(value: T) {
    function GetOr(default: T): T {
      if Some? then value else default
    }
  }

  /** What one route handler answers: its payload, or the error status it replies with. */
  datatype Outcome<+T> =
    | Ok(value: T)                                         // 200 or 201 with the payload
    | NotFound(message: string, details: Option<string>)   // 404 { error, details? }
    | InvalidArgument(message: string)                     // 400 { error }
    | ValidationFailed                                     // save rejected by the schema validators; 500
}
