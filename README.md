# Authentication commands of the tsuru client, modelled in Dafny

This project models the decision logic of tsuru's authentication commands
(`cmd/auth.go`):

- `login`: the server's authentication scheme is discovered once and cached on
  the command object. The cached scheme decides both the command's arity and
  usage text and which flow runs: OAuth, or native email and password.
- Password entry: an empty password is rejected.
- `user-create` and `change-password`: the two entries of the new password
  must match.
- `user-remove`: the y/n gate.
- `user-create`: statuses 404 and 405 are mapped to "User creation is disabled.".
- `logout`: the outcome depends only on removing the token file.
- `reset-password`: the path and the message depend on the token.
- `team-user-list`: members are printed in sorted order.
- `team-list`, `token-show` and `token-regenerate`: output is printed only on status 200.

Each command is a method over abstract inputs, and its result is an `Effect`
(`effects.dfy`). An `Effect` records four things:
- the write calls made on standard output, in order;
- the requests sent, each with its method, the path handed to `GetURL` and the
  JSON fields of its body;
- the call made on the session store, which is the per-user token file;
- the error returned.

The abstract inputs are these:
- the error `GetURL` returns;
- what each password read captured;
- the answer scanned for the y/n question;
- what the authenticated client returned (`Reply`);
- the already-decoded response payload, or the error of reading or decoding it;
- the outcome of removing the token file;
- the error `writeToken` returns;
- what the OAuth flow does.

A client reply that has neither a response nor an error cannot be written.
The client never returns one.

Files: `wrappers.dfy` (Option, Result), `effects.dfy` (requests, replies,
effects), `credentials.dfy` (password reading), `string_order.dfy` (byte-wise
string order and sorting), `login.dfy`, `user_commands.dfy`,
`team_commands.dfy`, `api_token_commands.dfy`.

Notes on the code:
- The scheme name tested is the literal `"oauth"`.
- Native login has `MinArgs = 1`. This is a minimum, not an exact count.
- Scheme discovery does not look at the HTTP status. Any body that decodes
  becomes the scheme, and only a failure of GetURL, of the call or of decoding falls back
  to `native`. In the model, discovery is a `Result`: a failure falls back,
  and everything else is used as decoded.
- `logout` reports success for every outcome of the removal except "does not
  exist". That includes other removal errors.
- A login response without a `token` field makes the code panic. It does not
  return an authentication error (see Left out).

## Model

| member | source | states |
|---|---|---|
| `Credentials.PasswordFromReader` | cmd/auth.go:532-550 | A failed terminal read returns its error. Otherwise the result is "You must provide the password!" iff the captured bytes are empty, and else exactly the captured bytes. |
| `StringOrder.SortStringsCorrect` | cmd/auth.go:358 | `SortStrings` returns its input in ascending byte-wise order. It is a permutation of the input, with multiplicities kept. |
| `StringOrder.SortedUnique` | cmd/auth.go:358 | Two sorted sequences holding the same multiset of strings are equal. So any correct sort, `sort.Strings` included, gives exactly the listing the model prints. |
| `UserCommands.UserCreate` | cmd/auth.go:33-70 | A GetURL error is returned before anything is printed. A read error or an empty password is returned. The POST /users with email and password is sent iff both reads gave the same non-empty password; a mismatch returns "Passwords didn't match." with no request. A 404 or 405 response returns "User creation is disabled." even when the client also reports an error. Otherwise the client's error is returned. On success the prompts are followed by `User "<email>" successfully created!`. |
| `UserCommands.UserRemove` | cmd/auth.go:74-97 | Any answer other than exactly "y" prints "Abort." and returns nil, with no request and no file removal. After "y", DELETE /users is sent iff the target is known. The token file is removed and "User successfully removed." is printed iff that request succeeds. On an error, only the question has been printed, and errors are returned unchanged. |
| `UserCommands.Logout` | cmd/auth.go:200-211 | DELETE /users/tokens is sent whenever the target is known, and its outcome cannot affect the result. Removing the token file is always attempted. The error is "You're not logged in!" iff the removal reported not-exist. Every other removal outcome prints "Successfully logged out!" and returns nil. |
| `UserCommands.ChangePassword` | cmd/auth.go:419-462 | PUT /users/password with the old and new passwords is sent iff all three reads gave non-empty passwords and the new one equals its confirmation. A read error or empty read of any of the three returns that read's error. A mismatch fails with "New password and password confirmation didn't match." before any request. After the request, the client's error is returned. "Password successfully updated!" is printed only on success. |
| `UserCommands.ResetMessage` | cmd/auth.go:496-505 | The "successfully started the password reset process" text iff the token is empty, and the "has been reset and mailed" text iff it is not. |
| `UserCommands.ResetPassword` | cmd/auth.go:507-523 | One POST with no body is sent iff the target is known. Its path starts with `/users/<email>/password` and equals it iff the token is empty; otherwise `?token=<token>` follows. The phase message is printed iff neither GetURL nor the client failed. |
| `TeamCommands.TeamUserList` | cmd/auth.go:338-363 | GET /teams/<team> is sent iff the target is known. The status is not consulted. Errors from GetURL, the client and decoding are returned in that order of precedence. On success each write is one line `- <user>\n`, and the listed users are sorted and a permutation of the decoded Users. |
| `TeamCommands.TeamList` | cmd/auth.go:385-415 | Output appears iff the reply is 200 without error and the body decodes. It is then "Teams:\n\n" followed by one `  - <name>\n` line per team, in the server's order; a missing name prints as empty. Any other status succeeds silently. The error returned is GetURL's, else the client's, else (on 200) the decoding error, unchanged. |
| `ApiTokenCommands.ShowAPIToken` | cmd/auth.go:581-608 | GET /users/api-key is sent iff the target is known. "API key: <key>" is printed iff the reply is 200 without error and the key decodes. Any other status succeeds silently. Errors print nothing, and the error returned is GetURL's, else the client's, else (on 200) the decoding error, unchanged. |
| `ApiTokenCommands.RegenerateAPIToken` | cmd/auth.go:621-648 | Same as token-show, for POST /users/api-key (sent iff the target is known), printing "Your new API key is: <key>". |
| `Login.LoginInfo` | cmd/auth.go:175-188 | `MinArgs = 0` and usage "login" iff the scheme's name is "oauth". Otherwise `MinArgs = 1` and usage "login <email>". |
| `Login.NativeLogin` | cmd/auth.go:117-150 | The password is read before GetURL is consulted. POST /users/<email>/tokens with the password is sent iff the password is non-empty and the target is known. The token is stored iff that request succeeds and the body decodes. The result is then writeToken's error, after "Successfully logged in!". Every earlier failure returns its error and stores nothing. A client or decoding failure leaves only "Password: " and "\n" written. |
| `Login.LoginCommand.GetScheme` | cmd/auth.go:152-162 | The first call performs one discovery and caches the decoded scheme, or `{native, {}}` when discovery fails. Every later call returns the cached value without another discovery, whatever the server would now say. |
| `Login.LoginCommand.Info` | cmd/auth.go:175-188 | The descriptor is `LoginInfo` of the cached scheme. Exactly one discovery is made when nothing was cached, and none when a scheme was cached, which is then kept. |
| `Login.LoginCommand.Run` | cmd/auth.go:164-169 | The OAuth flow's outcome is taken iff the cached scheme's name is "oauth". Otherwise the native flow runs on `args[0]`. Its precondition is exactly the arity that Info reports for the same scheme. Like Info, it makes one discovery iff nothing was cached. |
| `Login.Invoke` | cmd/auth.go:164-188 | Info followed by Run within one invocation makes at most one discovery. The arity checked and the flow taken follow the same scheme, even when the server would answer the second query differently. |

## Left out

- Network I/O (`client.Do`, `http.Get` in `schemeInfo`, `GetURL`'s reading of the target): its outcomes are parameters. GetURL's error is the same for every path, and a request records the path handed to GetURL.
- `http.NewRequest` is taken to succeed, so the model does not capture a request URL that fails to parse. The URL holds the email, team or token argument unescaped, and such an argument (an email like `a%zz`) can make parsing fail. nativeLogin (email) and teamUserList (team) then return that error. resetPassword discards it (cmd/auth.go:516) and hands a nil request to the client.
- Terminal echo control (`terminal.IsTerminal`, `terminal.ReadPassword`) and the `fmt.Fscanf` tokenising of piped input: only the captured bytes, or the terminal read's error, are modelled.
- JSON encoding and decoding, including the hand-concatenated request bodies, which are not escaped. A body is modelled as its field map, and a response as its decoded payload or the error of reading or decoding it.
- The panic of `out["token"].(string)` when the login response has no string `token` field: this is a runtime failure, not a returned error, and the native flow takes the decoded token as given.
- `writeToken`, `oauthLogin`, `filesystem()`, `JoinWithUserDir` and `ConfirmationCommand.Confirm` are not part of this model: their outcomes are parameters (`persisted`, `oauth`, `removal`).
- team-create, team-remove, team-user-add and team-user-remove, and every command's `Info` other than login's: these are request-and-print operations, or framework descriptors, with no decision logic of their own.
- UserCommands.Logout: the model does not record the order between writes, requests and the session-store call, because `Effect` keeps them as separate fields. In the source, logout sends the authenticated revocation DELETE, signed with the stored token, before it removes the token file (cmd/auth.go:201-205). The same gap applies to user-remove, whose DELETE precedes the removal (cmd/auth.go:90-94), and to native login, where the write of "Successfully logged in!" precedes storing the token (cmd/auth.go:148-149).
- Flag parsing of `--token`/`-t` in `resetPassword.Flags`: the token is a parameter.
- Strings are Dafny character sequences. Go compares strings byte by byte, and on UTF-8 text that order is the same as the model's order on code points.
