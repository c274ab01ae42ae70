/**
 * The login command of cmd/auth.go: discovery of the server's
 * authentication scheme, cached on the command object, and the dispatch
 * between the OAuth flow and the native email/password flow.
 */
module Login {
  import opened Wrappers
  import opened Effects
  import opened Credentials

  datatype LoginScheme = LoginScheme(name: string, data: map<string, string>)

  /** The scheme assumed when discovery fails. */
  const NATIVE := LoginScheme("native", map[])

  predicate IsOAuth(s: LoginScheme)
  {
    s.name == "oauth"
  }

  /** The descriptor the command framework reads: name, usage text, description, arity. */
  datatype CommandInfo = CommandInfo(name: string, usage: string, desc: string, minArgs: nat)

  /** The login descriptor for a given scheme: OAuth takes no email argument. */
  function LoginInfo(s: LoginScheme): (info: CommandInfo)
    ensures info.name == "login"
    ensures info.minArgs == 0 && info.usage == "login" <==> IsOAuth(s)
    ensures info.minArgs == 1 && info.usage == "login <email>" <==> !IsOAuth(s)
  {
    var usage := if IsOAuth(s) then "login" else "login <email>";
    var args := if IsOAuth(s) then 0 else 1;
    CommandInfo("login", usage, "log in with your credentials.", args)
  }

  /**
   * The scheme getScheme caches for a discovery outcome: the discovered
   * value as decoded, or NATIVE when discovery failed.
   */
  function Resolve(discovered: Result<LoginScheme, string>): LoginScheme
  {
    if discovered.Failure? then NATIVE else discovered.value
  }

  function TokenRequest(email: string, password: string): Request
  {
    Request(Post, "/users/" + email + "/tokens", Fields(map["password" := password]))
  }

  /**
   * What the native login flow does for its inputs: `decoded` is the
   * token field of the decoded response body (or the error of reading or
   * decoding it), `persisted` the error writeToken returns.
   */
  predicate NativeLoginDone(email: string, password: ReadResult, urlErr: Option<string>, reply: Reply,
                            decoded: Result<string, string>, persisted: Option<string>, e: Effect)
  {
    // the password is read before the URL is built
    && (!Provided(password) ==> e == QUIET.Say("Password: ").Fail(PasswordFromReader(password).error))
    && (Provided(password) && urlErr.Some? ==> e == QUIET.Say("Password: ").Say("\n").Fail(urlErr.value))
    && (e.sent != [] <==> Provided(password) && urlErr.None?)
    && (e.sent != [] ==> e.sent == [TokenRequest(email, password.bytes)])
    // the token is stored exactly when the request succeeded and its body decoded
    && (e.session != Untouched <==> e.sent != [] && reply.Error().None? && decoded.Success?)
    && (e.session != Untouched ==>
          && e.session == Store(decoded.value)
          && e.err == persisted
          && e.writes == ["Password: ", "\n", "Successfully logged in!\n"])
    && (e.sent != [] && e.session == Untouched ==>
          && e.err == (if reply.Error().Some? then reply.Error() else Some(decoded.error))
          && e.writes == ["Password: ", "\n"])
  }

  /** nativeLogin: email/password login that stores the token the server issues. */
  method NativeLogin(email: string, password: ReadResult, urlErr: Option<string>, reply: Reply,
                     decoded: Result<string, string>, persisted: Option<string>)
    returns (e: Effect)
    ensures NativeLoginDone(email, password, urlErr, reply, decoded, persisted, e)
  {
    e := QUIET.Say("Password: ");
    var pw := PasswordFromReader(password);
    if pw.Failure? {
      e := e.Fail(pw.error);
      return;
    }
    e := e.Say("\n");
    if urlErr.Some? {
      e := e.Fail(urlErr.value);
      return;
    }
    e := e.Issue(TokenRequest(email, pw.value));
    if reply.Error().Some? {
      e := e.Fail(reply.Error().value);
      return;
    }
    if decoded.Failure? {
      e := e.Fail(decoded.error);
      return;
    }
    e := e.Say("Successfully logged in!\n");
    e := e.(session := Store(decoded.value), err := persisted);
  }

  /**
   * The login command object. Its scheme is discovered on first use and
   * kept: `discovered` is, at each call, what querying the discovery
   * endpoint would give, and `lookups` counts the queries actually made.
   */
  class LoginCommand {
    var scheme: Option<LoginScheme>
    ghost var lookups: nat

    constructor ()
      ensures scheme == None && lookups == 0
    {
      scheme := None;
      lookups := 0;
    }

    /** The scheme the next call will use. */
    function Effective(discovered: Result<LoginScheme, string>): LoginScheme
      reads this
    {
      if scheme.Some? then scheme.value else Resolve(discovered)
    }

    /** getScheme: discovers the scheme once, then keeps returning it. */
    method GetScheme(discovered: Result<LoginScheme, string>) returns (s: LoginScheme)
      modifies this
      ensures scheme == Some(s)
      ensures old(scheme).Some? ==> s == old(scheme).value && lookups == old(lookups)
      ensures old(scheme).None? ==> lookups == old(lookups) + 1
      ensures old(scheme).None? && discovered.Failure? ==> s == NATIVE
      ensures old(scheme).None? && discovered.Success? ==> s == discovered.value
    {
      if scheme.None? {
        lookups := lookups + 1;
        if discovered.Failure? {
          scheme := Some(NATIVE);
        } else {
          scheme := Some(discovered.value);
        }
      }
      s := scheme.value;
    }

    /** Info: the descriptor, which depends on the cached scheme. */
    method Info(discovered: Result<LoginScheme, string>) returns (info: CommandInfo)
      modifies this
      ensures scheme == Some(old(Effective(discovered)))
      ensures old(scheme).Some? ==> scheme == old(scheme) && lookups == old(lookups)
      ensures lookups <= old(lookups) + 1
      ensures old(scheme).None? ==> lookups == old(lookups) + 1
      ensures info == LoginInfo(scheme.value)
    {
      var s := GetScheme(discovered);
      info := LoginInfo(s);
    }

    /**
     * Run: the OAuth flow when the cached scheme is "oauth" (`oauth` is
     * what that flow does), the native flow on args[0] otherwise. The
     * framework hands over at least as many arguments as Info demanded.
     */
    method Run(args: seq<string>, discovered: Result<LoginScheme, string>, oauth: Effect,
               password: ReadResult, urlErr: Option<string>, reply: Reply,
               decoded: Result<string, string>, persisted: Option<string>)
      returns (e: Effect)
      requires |args| >= LoginInfo(Effective(discovered)).minArgs
      modifies this
      ensures scheme == Some(old(Effective(discovered)))
      ensures old(scheme).Some? ==> scheme == old(scheme) && lookups == old(lookups)
      ensures lookups <= old(lookups) + 1
      ensures old(scheme).None? ==> lookups == old(lookups) + 1
      ensures IsOAuth(scheme.value) ==> e == oauth
      ensures !IsOAuth(scheme.value) ==>
        |args| >= 1 && NativeLoginDone(args[0], password, urlErr, reply, decoded, persisted, e)
    {
      var s := GetScheme(discovered);
      if s.name == "oauth" {
        e := oauth;
        return;
      }
      e := NativeLogin(args[0], password, urlErr, reply, decoded, persisted);
    }
  }

  /**
   * One invocation of login as the framework performs it: read the
   * descriptor, refuse too few arguments (None), then run. The server may
   * answer the two discovery queries differently; only the first is made,
   * so the arity checked and the flow taken follow one and the same scheme.
   */
  method Invoke(cmd: LoginCommand, args: seq<string>,
                atInfo: Result<LoginScheme, string>, atRun: Result<LoginScheme, string>, oauth: Effect,
                password: ReadResult, urlErr: Option<string>, reply: Reply,
                decoded: Result<string, string>, persisted: Option<string>)
    returns (r: Option<Effect>)
    modifies cmd
    ensures cmd.scheme == Some(old(cmd.Effective(atInfo)))
    ensures cmd.lookups <= old(cmd.lookups) + 1
    ensures r.Some? <==> |args| >= LoginInfo(cmd.scheme.value).minArgs
    ensures r.Some? && IsOAuth(cmd.scheme.value) ==> r.value == oauth
    ensures r.Some? && !IsOAuth(cmd.scheme.value) ==>
      NativeLoginDone(args[0], password, urlErr, reply, decoded, persisted, r.value)
  {
    var info := cmd.Info(atInfo);
    if |args| < info.minArgs {
      return None;
    }
    var e := cmd.Run(args, atRun, oauth, password, urlErr, reply, decoded, persisted);
    r := Some(e);
  }
}
