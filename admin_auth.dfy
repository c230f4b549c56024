/**
 * The admin guard: a bearer token is taken from the Authorization header,
 * exchanged for a user, and the user's profile must carry the admin role.
 *
 * The two remote calls are oracles: `getUser` is the authentication lookup
 * of a token, `profileRole` the profile query for an email address.
 */
module AdminAuth {
  import opened Base

  /** Python's `s.split(" ")`: every single space separates two fields. */
  function SplitOnSpace(s: string): (fields: seq<string>)
    ensures |fields| >= 1
    ensures forall k :: 0 <= k < |fields| ==> ' ' !in fields[k]
  {
    if s == [] then [""]
    else
      var rest := SplitOnSpace(s[1..]);
      if s[0] == ' ' then [""] + rest
      else [[s[0]] + rest[0]] + rest[1..]
  }

  /** Python's `" ".join(fields)`, the inverse of SplitOnSpace. */
  function JoinWithSpace(fields: seq<string>): string
    requires |fields| >= 1
  {
    if |fields| == 1 then fields[0] else fields[0] + " " + JoinWithSpace(fields[1..])
  }

  /** Splitting loses nothing: joining the fields gives the text back. */
  lemma {:induction false} JoinSplit(s: string)
    ensures JoinWithSpace(SplitOnSpace(s)) == s
  {
    if s != [] {
      var rest := SplitOnSpace(s[1..]);
      JoinSplit(s[1..]);
      if s[0] == ' ' {
        assert ([""] + rest)[1..] == rest;
      } else {
        var fields := [[s[0]] + rest[0]] + rest[1..];
        assert fields[1..] == rest[1..];
        if |rest| > 1 {
          assert JoinWithSpace(rest) == rest[0] + " " + JoinWithSpace(rest[1..]);
        }
      }
    }
  }

  /** A field without spaces followed by a space is split off as the first field. */
  lemma {:induction false} SplitAfterWord(p: string, t: string)
    requires ' ' !in p
    ensures SplitOnSpace(p + " " + t) == [p] + SplitOnSpace(t)
    decreases |p|
  {
    if p == [] {
      assert p + " " + t == [' '] + t;
      assert ([' '] + t)[1..] == t;
    } else {
      assert (p + " " + t)[1..] == p[1..] + " " + t;
      SplitAfterWord(p[1..], t);
      assert [p[0]] + p[1..] == p;
    }
  }

  /** The first field is the longest prefix that holds no space. */
  lemma {:induction false} FirstFieldIsPrefix(t: string)
    ensures var f := SplitOnSpace(t)[0];
            |f| <= |t| && t[..|f|] == f && (|f| == |t| || t[|f|] == ' ')
  {
    if t != [] && t[0] != ' ' {
      FirstFieldIsPrefix(t[1..]);
    }
  }

  const BearerPrefix: string := "Bearer "

  /** `authorization.split(" ")[1]`, on a header the prefix check let through. */
  function BearerToken(authorization: string): (token: string)
    requires StartsWith(authorization, BearerPrefix)
    ensures ' ' !in token
    ensures 7 + |token| <= |authorization|
    ensures authorization[7..7 + |token|] == token
    ensures 7 + |token| == |authorization| || authorization[7 + |token|] == ' '
  {
    var rest := authorization[7..];
    assert authorization == "Bearer" + " " + rest;
    SplitAfterWord("Bearer", rest);
    FirstFieldIsPrefix(rest);
    SplitOnSpace(authorization)[1]
  }

  /** A bare prefix, or a second space at once, gives the empty token. */
  lemma EmptyTokens()
    ensures BearerToken("Bearer ") == ""
    ensures BearerToken("Bearer  x") == ""
  {
    var h1, h2 := "Bearer ", "Bearer  x";
    assert h2[7] == ' ';
  }

  /** The authenticated user; only its email matters to the guard. */
  datatype User = User(id: string, email: Option<string>)

  /** The response object of the token lookup. */
  datatype UserResponse = UserResponse(user: Option<User>)

  /** The token lookup either raises or returns a response or nothing. */
  datatype UserLookup = LookupRaised(message: string) | LookupReturned(response: Option<UserResponse>)

  /**
   * The profile query either raises or returns its `data`: nothing, or the
   * selected columns of the row.
   */
  datatype RoleQuery = QueryRaised(message: string) | QueryReturned(data: Option<map<string, string>>)

  /**
   * The guard's verdict: an HTTP error it raises on purpose, the user it
   * returns, or an exception it lets escape unhandled.
   */
  datatype Decision = Reject(status: int, detail: string) | Admit(user: UserResponse) | Escaped(message: string)

  const InvalidToken: string := "Token tidak valid"
  const ExpiredToken: string := "Token tidak valid atau expired"
  const NoEmail: string := "Token tidak valid atau tidak ada email"
  const AdminOnly: string := "Akses hanya untuk admin"

  /** The response names a user with a non-empty email (Python truthiness of all three). */
  predicate HasEmail(response: Option<UserResponse>)
  {
    response.Some? && response.value.user.Some? && response.value.user.value.email.Some?
    && response.value.user.value.email.value != ""
  }

  function EmailOf(response: Option<UserResponse>): string
    requires HasEmail(response)
  {
    response.value.user.value.email.value
  }

  /**
   * The profile data is present (`not result.data` fails on a missing or
   * empty row, and a row holding "role" is not empty) and its role is
   * exactly "admin".
   */
  predicate IsAdminRow(data: Option<map<string, string>>)
  {
    data.Some? && "role" in data.value && data.value["role"] == "admin"
  }

  /**
   * Independent statement of who gets through: a bearer header whose token
   * the lookup maps to a user with an email whose profile says admin.
   */
  predicate Authorised(authorization: string, getUser: string -> UserLookup,
                       profileRole: string -> RoleQuery, u: UserResponse)
  {
    StartsWith(authorization, BearerPrefix)
    && getUser(BearerToken(authorization)) == LookupReturned(Some(u))
    && HasEmail(Some(u))
    && profileRole(EmailOf(Some(u))).QueryReturned?
    && IsAdminRow(profileRole(EmailOf(Some(u))).data)
  }

  /** Every check that can answer 401 passed. */
  predicate PassedAuthentication(authorization: string, getUser: string -> UserLookup)
  {
    StartsWith(authorization, BearerPrefix)
    && getUser(BearerToken(authorization)).LookupReturned?
    && HasEmail(getUser(BearerToken(authorization)).response)
  }

  /** What the profile query answers for the authenticated user's email. */
  function ProfileQueryOf(authorization: string, getUser: string -> UserLookup,
                          profileRole: string -> RoleQuery): RoleQuery
    requires PassedAuthentication(authorization, getUser)
  {
    profileRole(EmailOf(getUser(BearerToken(authorization)).response))
  }

  /** `verify_supabase_admin`. */
  function VerifyAdmin(authorization: string, getUser: string -> UserLookup,
                       profileRole: string -> RoleQuery): (d: Decision)
    ensures !StartsWith(authorization, BearerPrefix) ==> d == Reject(401, InvalidToken)
    ensures (StartsWith(authorization, BearerPrefix)
             && getUser(BearerToken(authorization)).LookupRaised?)
            ==> d == Reject(401, ExpiredToken)
    ensures (StartsWith(authorization, BearerPrefix)
             && getUser(BearerToken(authorization)).LookupReturned?
             && !HasEmail(getUser(BearerToken(authorization)).response))
            ==> d == Reject(401, NoEmail)
    ensures d.Reject? ==> d.status == 401 || (d.status == 403 && d.detail == AdminOnly)
    ensures d.Reject? && d.status == 403 ==> PassedAuthentication(authorization, getUser)
    ensures d.Escaped? ==> PassedAuthentication(authorization, getUser)
    ensures d.Reject? && d.status == 401 ==> !PassedAuthentication(authorization, getUser)
    ensures (PassedAuthentication(authorization, getUser)
             && ProfileQueryOf(authorization, getUser, profileRole).QueryRaised?)
            ==> d == Escaped(ProfileQueryOf(authorization, getUser, profileRole).message)
    ensures d == Reject(403, AdminOnly) ==>
              PassedAuthentication(authorization, getUser)
              && ProfileQueryOf(authorization, getUser, profileRole).QueryReturned?
              && !IsAdminRow(ProfileQueryOf(authorization, getUser, profileRole).data)
    ensures forall u :: d == Admit(u) <==> Authorised(authorization, getUser, profileRole, u)
  {
    if !StartsWith(authorization, BearerPrefix) then Reject(401, InvalidToken)
    else
      match getUser(BearerToken(authorization))
      case LookupRaised(_) => Reject(401, ExpiredToken)
      case LookupReturned(response) =>
        if !HasEmail(response) then Reject(401, NoEmail)
        else
          match profileRole(EmailOf(response))
          case QueryRaised(message) => Escaped(message)
          case QueryReturned(data) =>
            if !IsAdminRow(data) then Reject(403, AdminOnly) else Admit(response.value)
  }

  /**
   * A header without the bearer prefix is turned away before either remote
   * call: the verdict is the same whatever the lookups would have answered.
   */
  lemma RejectedBeforeLookup(authorization: string,
                             getUser1: string -> UserLookup, profileRole1: string -> RoleQuery,
                             getUser2: string -> UserLookup, profileRole2: string -> RoleQuery)
    requires !StartsWith(authorization, BearerPrefix)
    ensures VerifyAdmin(authorization, getUser1, profileRole1) == VerifyAdmin(authorization, getUser2, profileRole2)
  {
  }

  /** A user that authenticates but whose profile is missing or not admin gets 403. */
  lemma NonAdminForbidden(authorization: string, getUser: string -> UserLookup,
                          profileRole: string -> RoleQuery)
    requires PassedAuthentication(authorization, getUser)
    requires ProfileQueryOf(authorization, getUser, profileRole).QueryReturned?
    requires !IsAdminRow(ProfileQueryOf(authorization, getUser, profileRole).data)
    ensures VerifyAdmin(authorization, getUser, profileRole) == Reject(403, AdminOnly)
  {
  }
}
