/**
 * token-show and token-regenerate (cmd/auth.go, showAPIToken and
 * regenerateAPIToken): both print the API key only when the server answered
 * 200; `decoded` is the key decoded from the body, or the error of reading
 * or decoding it.
 */
module ApiTokenCommands {
  import opened Wrappers
  import opened Effects

  const API_KEY_PATH := "/users/api-key"

  /** token-show: fetches the user's API key. */
  method ShowAPIToken(urlErr: Option<string>, reply: Reply, decoded: Result<string, string>) returns (e: Effect)
    ensures e.sent == (if urlErr.None? then [Request(Get, API_KEY_PATH, NoBody)] else [])
    ensures e.writes != [] <==> urlErr.None? && reply.IsOK() && decoded.Success?
    ensures e.writes != [] ==> e.writes == ["API key: " + decoded.value + "\n"]
    ensures e.err.None? <==> urlErr.None? && reply.Error().None? && (reply.status == 200 ==> decoded.Success?)
    ensures e.err.Some? ==> e.writes == []
    ensures e.err == (if urlErr.Some? then urlErr
                      else if reply.Error().Some? then reply.Error()
                      else if reply.status == 200 && decoded.Failure? then Some(decoded.error)
                      else None)
    ensures e.session == Untouched
  {
    e := QUIET;
    if urlErr.Some? {
      e := e.Fail(urlErr.value);
      return;
    }
    e := e.Issue(Request(Get, API_KEY_PATH, NoBody));
    if reply.Error().Some? {
      e := e.Fail(reply.Error().value);
      return;
    }
    if reply.status == 200 {
      if decoded.Failure? {
        e := e.Fail(decoded.error);
        return;
      }
      e := e.Say("API key: " + decoded.value + "\n");
    }
  }

  /** token-regenerate: asks the server for a new API key, replacing any old one. */
  method RegenerateAPIToken(urlErr: Option<string>, reply: Reply, decoded: Result<string, string>) returns (e: Effect)
    ensures e.sent == (if urlErr.None? then [Request(Post, API_KEY_PATH, NoBody)] else [])
    ensures e.writes != [] <==> urlErr.None? && reply.IsOK() && decoded.Success?
    ensures e.writes != [] ==> e.writes == ["Your new API key is: " + decoded.value + "\n"]
    ensures e.err.None? <==> urlErr.None? && reply.Error().None? && (reply.status == 200 ==> decoded.Success?)
    ensures e.err.Some? ==> e.writes == []
    ensures e.err == (if urlErr.Some? then urlErr
                      else if reply.Error().Some? then reply.Error()
                      else if reply.status == 200 && decoded.Failure? then Some(decoded.error)
                      else None)
    ensures e.session == Untouched
  {
    e := QUIET;
    if urlErr.Some? {
      e := e.Fail(urlErr.value);
      return;
    }
    e := e.Issue(Request(Post, API_KEY_PATH, NoBody));
    if reply.Error().Some? {
      e := e.Fail(reply.Error().value);
      return;
    }
    if reply.status == 200 {
      if decoded.Failure? {
        e := e.Fail(decoded.error);
        return;
      }
      e := e.Say("Your new API key is: " + decoded.value + "\n");
    }
  }
}
