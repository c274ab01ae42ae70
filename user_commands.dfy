/**
 * The user-account commands of cmd/auth.go: user-create, user-remove,
 * logout, change-password and reset-password.
 *
 * Each command is a method over abstract inputs: `urlErr` is the error
 * GetURL returns (None when the target is configured), the ReadResults are
 * what the password reads captured, and `reply` is what the authenticated
 * client returned for the one request the command sends.
 */
module UserCommands {
  import opened Wrappers
  import opened Effects
  import opened Credentials

  const PASSWORD_PROMPT := "Password: "
  const CONFIRM_PROMPT := "\nConfirm: "
  const PASSWORDS_DIFFER := "Passwords didn't match."
  const CREATION_DISABLED := "User creation is disabled."
  const REMOVE_QUESTION := "Are you sure you want to remove your user from tsuru? (y/n) "
  const NOT_LOGGED_IN := "You're not logged in!"
  const NEW_PASSWORDS_DIFFER := "New password and password confirmation didn't match."
  const RESET_STARTED := "You've successfully started the password reset process.\n\nPlease check your email."
  const RESET_DONE := "Your password has been reset and mailed to you.\n\nPlease check your email."

  /** The server answered 404 Not Found or 405 Method Not Allowed. */
  predicate CreationRefused(reply: Reply)
  {
    reply.Response? && (reply.status == 404 || reply.status == 405)
  }

  function CreatedLine(email: string): string
  {
    "User \"" + email + "\" successfully created!\n"
  }

  /** user-create <email>: asks for the password twice and creates the user. */
  method UserCreate(email: string, urlErr: Option<string>, password: ReadResult, confirm: ReadResult, reply: Reply)
    returns (e: Effect)
    ensures urlErr.Some? ==> e == QUIET.Fail(urlErr.value)
    // the request goes out exactly when both reads gave the same non-empty password
    ensures e.sent != [] <==> urlErr.None? && Provided(password) && Provided(confirm) && password.bytes == confirm.bytes
    ensures e.sent != [] ==>
      e.sent == [Request(Post, "/users", Fields(map["email" := email, "password" := password.bytes]))]
    ensures urlErr.None? && Provided(password) && Provided(confirm) && password.bytes != confirm.bytes ==>
      e.err == Some(PASSWORDS_DIFFER)
    ensures urlErr.None? && !Provided(password) ==> e.err == Some(PasswordFromReader(password).error)
    ensures urlErr.None? && Provided(password) && !Provided(confirm) ==> e.err == Some(PasswordFromReader(confirm).error)
    // 404 and 405 win over whatever error the client reports with them
    ensures e.sent != [] && CreationRefused(reply) ==> e.err == Some(CREATION_DISABLED)
    ensures e.sent != [] && !CreationRefused(reply) ==> e.err == reply.Error()
    ensures e.err.None? ==> e.writes == [PASSWORD_PROMPT, CONFIRM_PROMPT, "\n", CreatedLine(email)]
    ensures e.err.Some? ==> CreatedLine(email) !in e.writes
    ensures e.session == Untouched
  {
    e := QUIET;
    if urlErr.Some? {
      e := e.Fail(urlErr.value);
      return;
    }
    e := e.Say(PASSWORD_PROMPT);
    var first := PasswordFromReader(password);
    if first.Failure? {
      e := e.Fail(first.error);
      return;
    }
    e := e.Say(CONFIRM_PROMPT);
    var second := PasswordFromReader(confirm);
    if second.Failure? {
      e := e.Fail(second.error);
      return;
    }
    e := e.Say("\n");
    if first.value != second.value {
      e := e.Fail(PASSWORDS_DIFFER);
      return;
    }
    e := e.Issue(Request(Post, "/users", Fields(map["email" := email, "password" := first.value])));
    if reply.Response? && (reply.status == 404 || reply.status == 405) {
      e := e.Fail(CREATION_DISABLED);
      return;
    }
    if reply.Error().Some? {
      e := e.Fail(reply.Error().value);
      return;
    }
    e := e.Say(CreatedLine(email));
  }

  /**
   * user-remove: asks for confirmation, where `answer` is the word scanned
   * from standard input; on success the local token file is removed too
   * (the outcome of that removal is ignored).
   */
  method UserRemove(answer: string, urlErr: Option<string>, reply: Reply) returns (e: Effect)
    ensures answer != "y" ==> e == QUIET.Say(REMOVE_QUESTION).Say("Abort.\n")
    ensures e.sent != [] <==> answer == "y" && urlErr.None?
    ensures e.sent != [] ==> e.sent == [Request(Delete, "/users", NoBody)]
    ensures e.session == Remove <==> answer == "y" && urlErr.None? && reply.Error().None?
    ensures !e.session.Store?
    ensures e.err.None? <==> answer != "y" || (urlErr.None? && reply.Error().None?)
    ensures e.err.Some? ==> e.err == (if urlErr.Some? then urlErr else reply.Error())
    ensures e.session == Remove ==> e.writes == [REMOVE_QUESTION, "User successfully removed.\n"]
    ensures e.err.Some? ==> e.writes == [REMOVE_QUESTION]
  {
    e := QUIET.Say(REMOVE_QUESTION);
    if answer != "y" {
      e := e.Say("Abort.\n");
      return;
    }
    if urlErr.Some? {
      e := e.Fail(urlErr.value);
      return;
    }
    e := e.Issue(Request(Delete, "/users", NoBody));
    if reply.Error().Some? {
      e := e.Fail(reply.Error().value);
      return;
    }
    e := e.(session := Remove);
    e := e.Say("User successfully removed.\n");
  }

  /**
   * logout: asks the server to revoke the token when the target is known
   * (whatever the server answers is ignored, so no reply is taken), then
   * removes the local token file; `removal` is the outcome of that.
   */
  method Logout(urlErr: Option<string>, removal: Removal) returns (e: Effect)
    ensures e.sent == (if urlErr.None? then [Request(Delete, "/users/tokens", NoBody)] else [])
    ensures e.session == Remove
    // the outcome depends on the removal alone
    ensures e.err.Some? <==> removal.NotExist?
    ensures e.err.Some? ==> e.err.value == NOT_LOGGED_IN && e.writes == []
    ensures e.err.None? ==> e.writes == ["Successfully logged out!\n"]
  {
    e := QUIET;
    if urlErr.None? {
      e := e.Issue(Request(Delete, "/users/tokens", NoBody));
    }
    e := e.(session := Remove);
    if removal.NotExist? {
      e := e.Fail(NOT_LOGGED_IN);
      return;
    }
    e := e.Say("Successfully logged out!\n");
  }

  /** change-password: asks for the current password, the new one and its confirmation. */
  method ChangePassword(urlErr: Option<string>, current: ReadResult, chosen: ReadResult, confirm: ReadResult, reply: Reply)
    returns (e: Effect)
    ensures urlErr.Some? ==> e == QUIET.Fail(urlErr.value)
    ensures e.sent != [] <==>
      urlErr.None? && Provided(current) && Provided(chosen) && Provided(confirm) && chosen.bytes == confirm.bytes
    ensures e.sent != [] ==>
      e.sent == [Request(Put, "/users/password", Fields(map["old" := current.bytes, "new" := chosen.bytes]))]
    ensures urlErr.None? && Provided(current) && Provided(chosen) && Provided(confirm) && chosen.bytes != confirm.bytes ==>
      e.err == Some(NEW_PASSWORDS_DIFFER)
    ensures urlErr.None? && !Provided(current) ==> e.err == Some(PasswordFromReader(current).error)
    ensures urlErr.None? && Provided(current) && !Provided(chosen) ==> e.err == Some(PasswordFromReader(chosen).error)
    ensures urlErr.None? && Provided(current) && Provided(chosen) && !Provided(confirm) ==>
      e.err == Some(PasswordFromReader(confirm).error)
    ensures e.err.Some? ==> "Password successfully updated!\n" !in e.writes
    ensures e.sent != [] ==> e.err == reply.Error()
    ensures e.err.None? ==>
      e.writes == ["Current password: ", "\nNew password: ", CONFIRM_PROMPT, "\n", "Password successfully updated!\n"]
    ensures e.session == Untouched
  {
    e := QUIET;
    if urlErr.Some? {
      e := e.Fail(urlErr.value);
      return;
    }
    e := e.Say("Current password: ");
    var oldPw := PasswordFromReader(current);
    if oldPw.Failure? {
      e := e.Fail(oldPw.error);
      return;
    }
    e := e.Say("\nNew password: ");
    var newPw := PasswordFromReader(chosen);
    if newPw.Failure? {
      e := e.Fail(newPw.error);
      return;
    }
    e := e.Say(CONFIRM_PROMPT);
    var confirmPw := PasswordFromReader(confirm);
    if confirmPw.Failure? {
      e := e.Fail(confirmPw.error);
      return;
    }
    e := e.Say("\n");
    if newPw.value != confirmPw.value {
      e := e.Fail(NEW_PASSWORDS_DIFFER);
      return;
    }
    e := e.Issue(Request(Put, "/users/password", Fields(map["old" := oldPw.value, "new" := newPw.value])));
    if reply.Error().Some? {
      e := e.Fail(reply.Error().value);
      return;
    }
    e := e.Say("Password successfully updated!\n");
  }

  /** The message reset-password prints: which phase of the reset was run. */
  function ResetMessage(token: string): (m: string)
    ensures m == RESET_STARTED <==> token == ""
    ensures m == RESET_DONE <==> token != ""
  {
    if token == "" then RESET_STARTED else RESET_DONE
  }

  /**
   * reset-password <email> [--token <token>]: without a token it asks the
   * server to mail a reset token, with one it completes the reset.
   */
  method ResetPassword(email: string, token: string, urlErr: Option<string>, reply: Reply) returns (e: Effect)
    ensures e.sent != [] <==> urlErr.None?
    ensures e.sent != [] ==> |e.sent| == 1 && e.sent[0].verb == Post && e.sent[0].body == NoBody
    // the path is the user's password resource, with the token as query iff one was given
    ensures e.sent != [] ==>
      var base, path := "/users/" + email + "/password", e.sent[0].path;
      && base <= path
      && (path == base <==> token == "")
      && (token != "" ==> path[|base|..] == "?token=" + token)
    ensures e.err.None? <==> urlErr.None? && reply.Error().None?
    ensures e.err.Some? ==> e.writes == [] && e.err == (if urlErr.Some? then urlErr else reply.Error())
    ensures e.err.None? ==> e.writes == [ResetMessage(token) + "\n"]
    ensures e.session == Untouched
  {
    var url := "/users/" + email + "/password";
    if token != "" {
      url := url + "?token=" + token;
    }
    e := QUIET;
    if urlErr.Some? {
      e := e.Fail(urlErr.value);
      return;
    }
    e := e.Issue(Request(Post, url, NoBody));
    if reply.Error().Some? {
      e := e.Fail(reply.Error().value);
      return;
    }
    e := e.Say(ResetMessage(token) + "\n");
  }
}
