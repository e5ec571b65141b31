/** What the core sees of an HTTP exchange. Requests are values (nothing is sent);
    responses arrive as `Fetched` values chosen by the caller. */
module Http {
  import opened Wrappers
  import opened Json

  /** The outcome of one request as the calling code observes it:
      - `Ok`: the status passed `raise_for_status()` and `response.json()` decoded `payload`;
      - `HttpStatus`: `raise_for_status()` raised `httpx.HTTPStatusError` for status `code`;
      - `OtherErr`: any other exception (connection refused, timeout, undecodable body).
      `message` is the exception's `str(e)`. */
  datatype Fetched =
    | Ok(payload: Json)
    | HttpStatus(code: int, message: string)
    | OtherErr(message: string)

  /** One outgoing request: HTTP method (`verb`), absolute URL, headers and JSON body (None: no body). */
  datatype Request = Request(verb: string, url: string, headers: map<string, string>, body: Option<Json>)
}
