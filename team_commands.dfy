/** The listing commands of cmd/auth.go: team-user-list and team-list. */
module TeamCommands {
  import opened Wrappers
  import opened Effects
  import opened StringOrder

  /** The line team-user-list prints for one member. */
  function Bullet(user: string): string
  {
    "- " + user + "\n"
  }

  /** The member a team-user-list line names. */
  function UserOfLine(line: string): string
  {
    if |line| >= 3 then line[2..|line| - 1] else ""
  }

  lemma UserOfBullet(user: string)
    ensures UserOfLine(Bullet(user)) == user
  {
  }

  /** The members named by a sequence of written lines, in order. */
  function ListedUsers(writes: seq<string>): seq<string>
  {
    seq(|writes|, k requires 0 <= k < |writes| => UserOfLine(writes[k]))
  }

  /**
   * team-user-list <team>: `decoded` is the Users field decoded from the
   * response body, or the decoding error. The status code is not consulted.
   */
  method TeamUserList(team: string, urlErr: Option<string>, reply: Reply, decoded: Result<seq<string>, string>)
    returns (e: Effect)
    ensures e.sent == (if urlErr.None? then [Request(Get, "/teams/" + team, NoBody)] else [])
    ensures e.err.None? <==> urlErr.None? && reply.Error().None? && decoded.Success?
    ensures e.err.Some? ==> e.writes == []
    ensures e.err == (if urlErr.Some? then urlErr
                      else if reply.Error().Some? then reply.Error()
                      else if decoded.Failure? then Some(decoded.error)
                      else None)
    // one line "- <user>\n" per member, members in ascending order, none lost or added
    ensures e.err.None? ==> forall k :: 0 <= k < |e.writes| ==> e.writes[k] == Bullet(UserOfLine(e.writes[k]))
    ensures e.err.None? ==> Sorted(ListedUsers(e.writes))
    ensures e.err.None? ==> multiset(ListedUsers(e.writes)) == multiset(decoded.value)
    ensures e.session == Untouched
  {
    e := QUIET;
    if urlErr.Some? {
      e := e.Fail(urlErr.value);
      return;
    }
    e := e.Issue(Request(Get, "/teams/" + team, NoBody));
    if reply.Error().Some? {
      e := e.Fail(reply.Error().value);
      return;
    }
    if decoded.Failure? {
      e := e.Fail(decoded.error);
      return;
    }
    var users := SortStrings(decoded.value);
    for i := 0 to |users|
      invariant e.err.None? && e.session == Untouched && e.sent == [Request(Get, "/teams/" + team, NoBody)]
      invariant |e.writes| == i
      invariant forall k :: 0 <= k < i ==> e.writes[k] == Bullet(users[k])
    {
      e := e.Say(Bullet(users[i]));
    }
    forall k | 0 <= k < |e.writes|
      ensures ListedUsers(e.writes)[k] == users[k]
      ensures e.writes[k] == Bullet(UserOfLine(e.writes[k]))
    {
      UserOfBullet(users[k]);
    }
    assert ListedUsers(e.writes) == users;
    SortStringsCorrect(decoded.value);
  }

  /** A team's name as team-list prints it: a missing "name" field reads as empty. */
  function NameOf(team: map<string, string>): string
  {
    if "name" in team then team["name"] else ""
  }

  function TeamLine(team: map<string, string>): string
  {
    "  - " + NameOf(team) + "\n"
  }

  /**
   * team-list: prints the teams only when the server answered 200;
   * `decoded` is the array of team objects read from the body, or the
   * error of reading or decoding it.
   */
  method TeamList(urlErr: Option<string>, reply: Reply, decoded: Result<seq<map<string, string>>, string>)
    returns (e: Effect)
    ensures e.sent == (if urlErr.None? then [Request(Get, "/teams", NoBody)] else [])
    // output only after a 200 whose body decodes
    ensures e.writes != [] <==> urlErr.None? && reply.IsOK() && decoded.Success?
    ensures e.writes != [] ==>
      && |e.writes| == |decoded.value| + 1
      && e.writes[0] == "Teams:\n\n"
      && forall k :: 0 <= k < |decoded.value| ==> e.writes[k + 1] == TeamLine(decoded.value[k])
    ensures e.err.None? <==> urlErr.None? && reply.Error().None? && (reply.status == 200 ==> decoded.Success?)
    ensures urlErr.None? && reply.Error().None? && reply.status != 200 ==> e.err.None? && e.writes == []
    ensures e.err == (if urlErr.Some? then urlErr
                      else if reply.Error().Some? then reply.Error()
                      else if reply.status == 200 && decoded.Failure? then Some(decoded.error)
                      else None)
    ensures e.session == Untouched
  {
    e := QUIET;
    if urlErr.Some? {
      e := e.Fail(urlErr.value);
      return;
    }
    e := e.Issue(Request(Get, "/teams", NoBody));
    if reply.Error().Some? {
      e := e.Fail(reply.Error().value);
      return;
    }
    if reply.status == 200 {
      if decoded.Failure? {
        e := e.Fail(decoded.error);
        return;
      }
      var teams := decoded.value;
      e := e.Say("Teams:\n\n");
      for i := 0 to |teams|
        invariant e.err.None? && e.session == Untouched && e.sent == [Request(Get, "/teams", NoBody)]
        invariant |e.writes| == i + 1 && e.writes[0] == "Teams:\n\n"
        invariant forall k :: 0 <= k < i ==> e.writes[k + 1] == TeamLine(teams[k])
      {
        e := e.Say(TeamLine(teams[i]));
      }
    }
  }
}
