/** The JSON responses the API routes return: a status code and either an `{ error }` body
    or a `{ message, job }` body. */
module Http {
  import opened Wrappers
  import opened JobStore

  datatype Body = ErrorBody(error: string) | JobBody(message: string, job: Job)

  datatype Response = Response(status: nat, body: Body)

  /** `NextResponse.json({ error: message }, { status })`. */
  function Error(status: nat, message: string): Response {
    Response(status, ErrorBody(message))
  }

  /** `NextResponse.json({ message, job })` with the default status 200. */
  function Ok(message: string, job: Job): Response {
    Response(200, JobBody(message, job))
  }

  /** The `error` text of a response, or `None` for a success body. */
  function ErrorText(r: Response): Option<string> {
    if r.body.ErrorBody? then Some(r.body.error) else None
  }
}
