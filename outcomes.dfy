/** Result wrappers shared by the pipeline stages. */
module Outcomes {

  /** A value that may be missing: a failed gateway call, a failed parse, a dropped entry. */
  datatype Option<+T> = None | Some(value: T)

  /** The outcome of one HTTP request: a response body, or an error status. */
  datatype Outcome<+T> = Ok(value: T) | Err(status: int)

  /** Client error: the policy text is too short. */
  const BadRequest: int := 400
  /** The single-conflict endpoint found no conflict. */
  const NotFound: int := 404
  /** Any upstream, parse or shape failure. */
  const InternalError: int := 500
}
