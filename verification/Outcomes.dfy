/** Results of lookups and of handlers. */
module Outcomes {

  datatype Option<+T> = None | Some(value: T)

  /** The failures a handler can report. */
  datatype Error =
    | NotFound
    | VersionConflict
    | DuplicateKey
    | InvalidTransition
    | InvalidInput
    | Forbidden
    | TwoPersonRequired
    | ImmutableState
    | AuditRejected
    | WriteFailed

  datatype Result<+T> = Ok(value: T) | Err(error: Error)
}
