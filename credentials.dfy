/** Reading a password from the command's standard input (cmd/auth.go, passwordFromReader). */
module Credentials {
  import opened Wrappers

  const EMPTY_PASSWORD := "You must provide the password!"

  /**
   * What reading the password produced: the captured bytes (from the masked
   * terminal read, or the token scanned from piped input), or the failure of
   * the terminal read. The scanning path never reports an error.
   */
  datatype ReadResult = Captured(bytes: string) | TerminalFailed(cause: string)

  /** The password, or the error message the command returns. */
  function PasswordFromReader(r: ReadResult): (res: Result<string, string>)
    ensures r.TerminalFailed? ==> res == Failure(r.cause)
    ensures r.Captured? ==> (res.Failure? <==> |r.bytes| == 0)
    ensures r.Captured? && res.Failure? ==> res.error == EMPTY_PASSWORD
    ensures res.Success? ==> r.Captured? && res.value == r.bytes && |res.value| > 0
  {
    match r
    case TerminalFailed(cause) => Failure(cause)
    case Captured(bytes) =>
      if |bytes| == 0 then Failure(EMPTY_PASSWORD) else Success(bytes)
  }

  /** The read yielded a usable password. */
  predicate Provided(r: ReadResult)
  {
    PasswordFromReader(r).Success?
  }
}
