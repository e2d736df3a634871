/**
 * The two request filters. `JwtAuthenticationFilter` skips pre-flight
 * requests and public paths, reads the token after the configured header
 * prefix, authenticates the request when the token checks out, and always
 * passes the request on. `EmailVerificationFilter` stops requests to the
 * account, post and order APIs from users whose e-mail is not verified.
 * Token validation, the user id inside a token and the loading of the user
 * are functions given as parameters.
 */
module Filters {
  import opened Common
  import opened Text
  import opened Users

  /** The paths `JwtAuthenticationFilter` never filters (by prefix). */
  const ExcludedPaths: seq<string> :=
    ["/api/auth/", "/api/auth/oauth", "/api/auth/oauth", "/oauth2/", "/login/oauth2/",
     "/swagger", "/v3/api-docs", "/api-docs", "/error"]

  /** The paths `EmailVerificationFilter` guards (by prefix). */
  const VerifiedPaths: seq<string> := ["/api/user", "/api/post", "/api/order"]

  const VerificationRequired: string := "EMAIL_VERIFICATION_REQUIRED"

  /** `prefixes.stream().anyMatch(path::startsWith)`. */
  function AnyPrefix(path: string, prefixes: seq<string>): (r: bool)
    ensures r <==> exists i :: 0 <= i < |prefixes| && StartsWith(path, prefixes[i])
    decreases |prefixes|
  {
    if |prefixes| == 0 then false
    else StartsWith(path, prefixes[0]) || AnyPrefix(path, prefixes[1..])
  }

  /** `shouldNotFilter`: an OPTIONS request, in any letter case, or a path under an excluded prefix. */
  predicate ShouldNotFilter(httpMethod: string, path: string) {
    EqualsIgnoreCase("OPTIONS", httpMethod) || AnyPrefix(path, ExcludedPaths)
  }

  /** Every spelling of OPTIONS, whatever the case of each letter, is skipped, on any path. */
  lemma OptionsInAnyCaseSkipped(httpMethod: string, path: string)
    requires |httpMethod| == 7
    requires forall i :: 0 <= i < 7 ==> httpMethod[i] == "OPTIONS"[i] || httpMethod[i] == "options"[i]
    ensures ShouldNotFilter(httpMethod, path)
  {
    forall i | 0 <= i < 7
      ensures UpperChar(httpMethod[i]) == "OPTIONS"[i]
    {
      if httpMethod[i] != "OPTIONS"[i] {
        assert httpMethod[i] == "options"[i];
      }
    }
    assert ToUpper(httpMethod) == "OPTIONS";
  }

  /** Every path under "/api/auth/" is public: sign-up, login, verification and OAuth. */
  lemma AuthPathsSkipped(httpMethod: string, rest: string)
    ensures ShouldNotFilter(httpMethod, "/api/auth/" + rest)
  {
    assert StartsWith("/api/auth/" + rest, ExcludedPaths[0]);
  }

  /** A non-OPTIONS request to the account API is filtered: no excluded prefix covers "/api/user". */
  lemma AccountPathsFiltered(httpMethod: string, rest: string)
    requires !EqualsIgnoreCase("OPTIONS", httpMethod)
    ensures !ShouldNotFilter(httpMethod, "/api/user" + rest)
  {
    var path := "/api/user" + rest;
    forall i | 0 <= i < |ExcludedPaths|
      ensures !StartsWith(path, ExcludedPaths[i])
    {
      var p := ExcludedPaths[i];
      if |p| <= |path| {
        if i <= 2 {
          assert path[5] != p[5];
        } else if i == 7 {
          assert path[4] != p[4];
        } else {
          assert path[1] != p[1];
        }
      }
    }
  }

  /** `String.replace(target, "")`: every occurrence of `target`, scanning left to right, removed. */
  function RemoveAll(s: string, target: string): (r: string)
    ensures |r| <= |s|
    decreases |s|
  {
    if |target| == 0 || |s| == 0 then s
    else if StartsWith(s, target) then RemoveAll(s[|target|..], target)
    else [s[0]] + RemoveAll(s[1..], target)
  }

  /** With no occurrence of the target, removal changes nothing. */
  lemma {:induction false} RemoveAllAbsent(s: string, target: string)
    requires forall i :: !OccursAt(s, target, i)
    ensures RemoveAll(s, target) == s
    decreases |s|
  {
    if |target| > 0 && |s| > 0 {
      assert !OccursAt(s, target, 0);
      forall i ensures !OccursAt(s[1..], target, i) {
        if OccursAt(s[1..], target, i) {
          assert s[1..][i..i + |target|] == s[i + 1..i + 1 + |target|];
          assert OccursAt(s, target, i + 1);
        }
      }
      RemoveAllAbsent(s[1..], target);
    }
  }

  /** `getJwtFromRequest`: a header with text that starts with the prefix gives the prefix removed and the rest trimmed. */
  function JwtFromHeader(header: Option<string>, prefix: string): (r: Option<string>)
    ensures r.Some? <==> HasText(header) && StartsWith(header.value, prefix)
  {
    if HasText(header) && StartsWith(header.value, prefix) then Some(Trim(RemoveAll(header.value, prefix)))
    else None
  }

  /**
   * What a client sends comes back: for a non-empty prefix and a trimmed
   * token in which the prefix does not occur, the header prefix + token
   * yields the token.
   */
  lemma JwtRoundTrip(prefix: string, token: string)
    requires |prefix| > 0 && IsTrimmed(token)
    requires forall i :: !OccursAt(token, prefix, i)
    requires HasText(Some(prefix + token))
    ensures JwtFromHeader(Some(prefix + token), prefix) == Some(token)
  {
    var h := prefix + token;
    assert h[..|prefix|] == prefix;
    assert h[|prefix|..] == token;
    RemoveAllAbsent(token, prefix);
    TrimOfTrimmed(token);
  }

  /**
   * The user a request is authenticated as: its token has text, validates,
   * names a user id, and that user loads. A validator, id reader or loader
   * that throws is an `Err` and means no authentication.
   */
  function AuthenticatedUser(header: Option<string>, prefix: string, validate: string -> Result<bool>,
                             userIdOf: string -> Result<int>, loadUser: int -> Result<Row>)
    : (r: Option<Row>)
    ensures r.Some? <==>
      var jwt := JwtFromHeader(header, prefix);
      jwt.Some? && HasText(jwt) && validate(jwt.value) == Ok(true)
      && userIdOf(jwt.value).Ok? && loadUser(userIdOf(jwt.value).value).Ok?
    ensures r.Some? ==> r.value == loadUser(userIdOf(JwtFromHeader(header, prefix).value).value).value
  {
    var jwt := JwtFromHeader(header, prefix);
    if jwt.None? || !HasText(jwt) || validate(jwt.value) != Ok(true) then None
    else match userIdOf(jwt.value)
      case Err(_) => None
      case Ok(id) =>
        match loadUser(id)
        case Err(_) => None
        case Ok(row) => Some(row)
  }

  /** A request without a header, or with one lacking the prefix, is never authenticated. */
  lemma NoPrefixNoAuthentication(header: Option<string>, prefix: string, validate: string -> Result<bool>,
                                 userIdOf: string -> Result<int>, loadUser: int -> Result<Row>)
    requires header.None? || !StartsWith(header.value, prefix)
    ensures AuthenticatedUser(header, prefix, validate, userIdOf, loadUser).None?
  {
    assert JwtFromHeader(header, prefix).None?;
  }

  /** The security context of one request. */
  class SecurityContext {
    var authentication: Option<Row>

    constructor ()
      ensures authentication.None?
    {
      authentication := None;
    }
  }

  /** The rest of the filter chain: how many times the request was passed on. */
  class FilterChain {
    var passed: nat

    constructor ()
      ensures passed == 0
    {
      passed := 0;
    }

    method DoFilter()
      modifies this
      ensures passed == old(passed) + 1
    {
      passed := passed + 1;
    }
  }

  /**
   * `doFilterInternal` of the JWT filter: the request is authenticated when
   * its token checks out, and is passed on exactly once in every case,
   * failures included.
   */
  method DoFilterInternal(context: SecurityContext, chain: FilterChain, header: Option<string>, prefix: string,
                          validate: string -> Result<bool>, userIdOf: string -> Result<int>,
                          loadUser: int -> Result<Row>)
    modifies context, chain
    ensures chain.passed == old(chain.passed) + 1
    ensures var user := AuthenticatedUser(header, prefix, validate, userIdOf, loadUser);
      context.authentication == if user.Some? then user else old(context.authentication)
  {
    var user := AuthenticatedUser(header, prefix, validate, userIdOf, loadUser);
    if user.Some? {
      context.authentication := user;
    }
    chain.DoFilter();
  }

  /** What `EmailVerificationFilter` does with a request. */
  datatype GateOutcome = PassOn | Reject(status: int, body: string)

  /**
   * The verified-e-mail gate: outside the guarded paths, or without a valid
   * token, the request passes; a valid token naming no user is "User not
   * found"; a user whose e-mail is not verified gets 403
   * EMAIL_VERIFICATION_REQUIRED; a verified user passes.
   */
  function VerifiedEmailGate(users: UserRepository, uri: string, token: Option<string>,
                             validate: string -> bool, userIdOf: string -> int)
    : (r: Result<GateOutcome>)
    reads users
    ensures !AnyPrefix(uri, VerifiedPaths) || token.None? || !validate(token.value) ==> r == Ok(PassOn)
    ensures r.Err? <==>
      AnyPrefix(uri, VerifiedPaths) && token.Some? && validate(token.value) && users.FindById(userIdOf(token.value)).None?
    ensures r.Err? ==> r.error == RuntimeFailure("User not found")
    ensures r == Ok(Reject(403, VerificationRequired)) <==>
      AnyPrefix(uri, VerifiedPaths) && token.Some? && validate(token.value)
      && users.FindById(userIdOf(token.value)).Some? && !users.FindById(userIdOf(token.value)).value.columns.isEmailVerified
    ensures r.Ok? ==> r.value == PassOn || r.value == Reject(403, VerificationRequired)
  {
    if !AnyPrefix(uri, VerifiedPaths) || token.None? || !validate(token.value) then Ok(PassOn)
    else match users.FindById(userIdOf(token.value))
      case None => Err(RuntimeFailure("User not found"))
      case Some(row) => if !row.columns.isEmailVerified then Ok(Reject(403, VerificationRequired)) else Ok(PassOn)
  }

  /** The gate matches by prefix: every path that begins with "/api/user", "/api/post" or "/api/order" is guarded. */
  lemma GuardedByPrefix(k: nat, rest: string)
    requires k < |VerifiedPaths|
    ensures AnyPrefix(VerifiedPaths[k] + rest, VerifiedPaths)
  {
    assert StartsWith(VerifiedPaths[k] + rest, VerifiedPaths[k]);
  }
}
