/** Small value wrappers shared by the whole model. */
module Wrappers {

  /** A value that may be absent: `null` in the source's optional fields. */
  datatype Option<+T> = None | Some(value: T)

  /**
   * The result of one HTTP request as the client sees it: the decoded body,
   * or an error (network failure, non-2xx status, undecodable body).
   * The gateway services that produce these are not part of this model.
   */
  datatype HttpOutcome<+T> = Ok(body: T) | Err
}
