/**
 * What one run of a command does to the outside world, and the abstract
 * inputs that come back from it.
 *
 * Standard output is kept as the sequence of write calls the command makes
 * (its text is their concatenation); requests are recorded by method, the
 * path handed to GetURL and the JSON fields of the body; the session store
 * (the per-user token file) is recorded by the one call made on it.
 */
module Effects {
  import opened Wrappers

  datatype Verb = Get | Post | Put | Delete

  /** A request body: none, or a JSON object with string fields. */
  datatype Body = NoBody | Fields(fields: map<string, string>)

  datatype Request = Request(verb: Verb, path: string, body: Body)

  /** The call a command makes on the session store, if any. */
  datatype SessionOp = Untouched | Store(token: string) | Remove

  datatype Effect = Effect(writes: seq<string>, sent: seq<Request>, session: SessionOp, err: Option<string>)
  {
    function Say(text: string): Effect { this.(writes := writes + [text]) }

    function Issue(r: Request): Effect { this.(sent := sent + [r]) }

    function Fail(msg: string): Effect { this.(err := Some(msg)) }
  }

  /** The state of a command before it has done anything. */
  const QUIET := Effect([], [], Untouched, None)

  /**
   * What the authenticated client returns for a request: a response, possibly
   * together with an error (the client reports failing statuses that way), or
   * an error with no response at all.
   */
  datatype Reply = Response(status: int, failure: Option<string>) | NoResponse(cause: string)
  {
    /** The error value the client returns beside the response. */
    function Error(): Option<string>
    {
      if NoResponse? then Some(cause) else failure
    }

    /** A response came back without error and with status 200 (http.StatusOK). */
    predicate IsOK()
    {
      Response? && failure.None? && status == 200
    }
  }

  /** Outcome of removing the token file. */
  datatype Removal = Removed | NotExist | RemoveFailed(cause: string)
}
