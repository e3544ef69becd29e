/** HTTP exchanges as the model sees them: the status code and the decoded JSON body. */
module Http {
  import opened Wrappers
  import opened Json

  datatype Response = Response(status: int, body: Json)

  /** What one request yields: a response, or a transport error raised by the client. */
  type Reply = Result<Response>

  /** httpx `Response.is_success`: `raise_for_status()` raises for anything else. */
  predicate IsSuccess(status: int) {
    200 <= status <= 299
  }
}
