/**
 * `AuthService`: the password login checks, the access/refresh token pair
 * a login produces, logout, the refresh of an access token, and the resend
 * of a verification mail. The signed access token, the new refresh-token
 * value (a UUID), its expiry and the outcome of JWT validation are
 * parameters; the refresh-token table is a sequence of rows, one per
 * device.
 */
module Auth {
  import opened Common
  import opened Text
  import opened Users
  import opened EmailTokens
  import UserDevices

  const UnknownEmail: string := "이메일이 존재 하지 않음"
  const AlreadyVerified: string := "이미 인증 완료된 이메일 입니다"
  const NoBearer: string := "No JWT token found in request header"
  const BearerPrefix: string := "Bearer "
  /** The `NullPointerException` a login without device info meets when its device is read. */
  const NoDeviceInfo: string := "NullPointerException: deviceInfo"

  datatype DeviceInfo = DeviceInfo(deviceId: Option<string>, deviceType: Option<string>)
  datatype LoginRequest = LoginRequest(email: Option<string>, password: Option<string>, deviceInfo: Option<DeviceInfo>)

  /** `JwtAuthenticationResponse`: the access token, the refresh token, the access token's lifetime and the user. */
  datatype JwtResponse = JwtResponse(accessToken: string, refreshToken: string, expiresInMs: int, userId: int)

  /**
   * `authenticateUser`: an unknown e-mail gives no authentication; then a
   * password that does not match is "Invalid password"; then an unverified
   * e-mail is "EMAIL_NOT_VERIFIED"; otherwise the user's row is the
   * principal.
   */
  function AuthenticateUser(users: UserRepository, email: Option<string>, password: Option<string>,
                            matches: (Option<string>, Option<string>) -> bool): (r: Result<Option<Row>>)
    reads users
    ensures users.FindByEmail(email).None? ==> r == Ok(None)
    ensures users.FindByEmail(email).Some? && !matches(password, users.FindByEmail(email).value.columns.password) ==>
      r == Err(BadCredentials("Invalid password"))
    ensures users.FindByEmail(email).Some? && matches(password, users.FindByEmail(email).value.columns.password)
            && !users.FindByEmail(email).value.columns.isEmailVerified ==>
      r == Err(BadCredentials("EMAIL_NOT_VERIFIED"))
    ensures r.Ok? && r.value.Some? ==>
      r.value.value in users.rows && r.value.value.columns.email == email
      && matches(password, r.value.value.columns.password) && r.value.value.columns.isEmailVerified
  {
    match users.FindByEmail(email)
    case None => Ok(None)
    case Some(row) =>
      if !matches(password, row.columns.password) then Err(BadCredentials("Invalid password"))
      else if !row.columns.isEmailVerified then Err(BadCredentials("EMAIL_NOT_VERIFIED"))
      else Ok(Some(row))
  }

  /** A refresh-token row: the device it belongs to (its owner and device id), its value and its expiry. */
  datatype RefreshToken = RefreshToken(userId: int, deviceId: Option<string>, token: string, expiry: int)

  predicate ForDevice(t: RefreshToken, userId: int, deviceId: Option<string>) {
    t.userId == userId && t.deviceId == deviceId
  }

  /** At most one refresh token per device. */
  predicate OnePerDevice(tokens: seq<RefreshToken>) {
    forall i, j :: 0 <= i < j < |tokens| ==> !ForDevice(tokens[j], tokens[i].userId, tokens[i].deviceId)
  }

  /** `findByUserDevice`. */
  function FindByDevice(tokens: seq<RefreshToken>, userId: int, deviceId: Option<string>): (r: Option<nat>)
    ensures r.Some? ==> r.value < |tokens| && ForDevice(tokens[r.value], userId, deviceId)
    ensures r.None? ==> forall i :: 0 <= i < |tokens| ==> !ForDevice(tokens[i], userId, deviceId)
    decreases |tokens|
  {
    if |tokens| == 0 then None
    else if ForDevice(tokens[0], userId, deviceId) then Some(0)
    else
      var rest := FindByDevice(tokens[1..], userId, deviceId);
      if rest.Some? then Some(rest.value + 1) else None
  }

  /** `findByToken`. */
  function FindByToken(tokens: seq<RefreshToken>, token: string): (r: Option<nat>)
    ensures r.Some? ==> r.value < |tokens| && tokens[r.value].token == token
    ensures r.None? ==> forall i :: 0 <= i < |tokens| ==> tokens[i].token != token
    decreases |tokens|
  {
    if |tokens| == 0 then None
    else if tokens[0].token == token then Some(0)
    else
      var rest := FindByToken(tokens[1..], token);
      if rest.Some? then Some(rest.value + 1) else None
  }

  /** The refresh-token step of `generateTokens`: the device's token gets a new value and expiry, or one is created. */
  function RotateOrCreate(tokens: seq<RefreshToken>, userId: int, deviceId: Option<string>, token: string, expiry: int)
    : seq<RefreshToken>
  {
    match FindByDevice(tokens, userId, deviceId)
    case Some(i) => tokens[i := tokens[i].(token := token, expiry := expiry)]
    case None => tokens + [RefreshToken(userId, deviceId, token, expiry)]
  }

  /**
   * Rotation never gives a device a second token: afterwards the device has
   * exactly one, holding the new value and expiry; a row is added only when
   * the device had none; every other device's token is unchanged.
   */
  lemma RotateKeepsOnePerDevice(tokens: seq<RefreshToken>, userId: int, deviceId: Option<string>, token: string, expiry: int)
    requires OnePerDevice(tokens)
    ensures var after := RotateOrCreate(tokens, userId, deviceId, token, expiry);
      OnePerDevice(after)
      && (exists i :: 0 <= i < |after| && after[i] == RefreshToken(userId, deviceId, token, expiry))
      && (forall i :: 0 <= i < |after| && ForDevice(after[i], userId, deviceId) ==>
            after[i] == RefreshToken(userId, deviceId, token, expiry))
      && |after| == (if FindByDevice(tokens, userId, deviceId).Some? then |tokens| else |tokens| + 1)
      && (forall i :: 0 <= i < |tokens| && !ForDevice(tokens[i], userId, deviceId) ==> after[i] == tokens[i])
  {
    var after := RotateOrCreate(tokens, userId, deviceId, token, expiry);
    match FindByDevice(tokens, userId, deviceId)
    case Some(k) =>
      assert after[k] == RefreshToken(userId, deviceId, token, expiry);
    case None =>
      assert after[|tokens|] == RefreshToken(userId, deviceId, token, expiry);
  }

  /** The refresh-token table. */
  class RefreshTokenRepository {
    var tokens: seq<RefreshToken>

    constructor ()
      ensures tokens == []
    {
      tokens := [];
    }

    method Issue(userId: int, deviceId: Option<string>, token: string, expiry: int)
      requires OnePerDevice(tokens)
      modifies this
      ensures OnePerDevice(tokens)
      ensures tokens == RotateOrCreate(old(tokens), userId, deviceId, token, expiry)
    {
      RotateKeepsOnePerDevice(tokens, userId, deviceId, token, expiry);
      tokens := RotateOrCreate(tokens, userId, deviceId, token, expiry);
    }
  }

  /**
   * `generateTokens`: an unknown user is "User not found"; a login
   * without device info fails on reading it; the login's device is
   * recorded (an invalid device type is refused there); the device's
   * refresh token is rotated or created; the response carries the new
   * refresh-token value.
   */
  method GenerateTokens(users: UserRepository, devices: UserDevices.DeviceRepository, refresh: RefreshTokenRepository,
                        userId: int, request: LoginRequest, accessToken: string, newToken: string, expiry: int,
                        expirationMs: int)
    returns (r: Result<JwtResponse>)
    requires UserDevices.KeysUnique(devices.devices) && OnePerDevice(refresh.tokens)
    modifies devices, refresh
    ensures UserDevices.KeysUnique(devices.devices) && OnePerDevice(refresh.tokens)
    ensures users.FindById(userId).None? ==>
      r == Err(RuntimeFailure("User not found")) && devices.devices == old(devices.devices)
    ensures users.FindById(userId).Some? && request.deviceInfo.None? ==>
      r == Err(RuntimeFailure(NoDeviceInfo)) && devices.devices == old(devices.devices)
    ensures r.Err? ==> refresh.tokens == old(refresh.tokens)
    ensures r.Ok? ==> request.deviceInfo.Some?
    ensures request.deviceInfo.Some? ==>
      var info := request.deviceInfo.value;
      var upsert := UserDevices.Upsert(old(devices.devices), userId, info.deviceId, info.deviceType);
      (users.FindById(userId).Some? && upsert.Err? ==> r == Err(upsert.error) && devices.devices == old(devices.devices))
      && (r.Ok? <==> users.FindById(userId).Some? && upsert.Ok?)
      && (r.Ok? ==>
            r.value == JwtResponse(accessToken, newToken, expirationMs, userId)
            && devices.devices == upsert.value.0
            && refresh.tokens == RotateOrCreate(old(refresh.tokens), userId, info.deviceId, newToken, expiry))
  {
    if users.FindById(userId).None? {
      return Err(RuntimeFailure("User not found"));
    }
    if request.deviceInfo.None? {
      return Err(RuntimeFailure(NoDeviceInfo));
    }
    var info := request.deviceInfo.value;
    var device := devices.CreateOrUpdate(userId, info.deviceId, info.deviceType);
    if device.Err? {
      return Err(device.error);
    }
    refresh.Issue(userId, info.deviceId, newToken, expiry);
    r := Ok(JwtResponse(accessToken, newToken, expirationMs, userId));
  }

  /** The token of a "Bearer " header: everything after its first seven characters. */
  function BearerToken(header: Option<string>): (r: Result<string>)
    ensures r.Ok? <==> header.Some? && StartsWith(header.value, BearerPrefix)
    ensures r.Ok? ==> header.value == BearerPrefix + r.value
    ensures r.Err? ==> r.error == RuntimeFailure(NoBearer)
  {
    if header.None? || !StartsWith(header.value, BearerPrefix) then Err(RuntimeFailure(NoBearer))
    else Ok(header.value[7..])
  }

  /** A token sent as "Bearer " + token is the token that logout acts on. */
  lemma BearerRoundTrip(token: string)
    ensures BearerToken(Some(BearerPrefix + token)) == Ok(token)
  {
    assert (BearerPrefix + token)[..|BearerPrefix|] == BearerPrefix;
  }

  /** The logout cache: the (user id, token) of every logout recorded, in order. */
  class LogoutCache {
    var events: seq<(string, string)>

    constructor ()
      ensures events == []
    {
      events := [];
    }

    /**
     * `logout`: the header check, then the token's validation (which may
     * throw), then the logout event for the token's user is recorded.
     */
    method Logout(header: Option<string>, validate: string -> Option<Failure>, userIdOf: string -> int)
      returns (r: Result<()>)
      modifies this
      ensures BearerToken(header).Err? ==> r == Err(BearerToken(header).error) && events == old(events)
      ensures BearerToken(header).Ok? && validate(BearerToken(header).value).Some? ==>
        r == Err(validate(BearerToken(header).value).value) && events == old(events)
      ensures r.Ok? <==> BearerToken(header).Ok? && validate(BearerToken(header).value).None?
      ensures r.Ok? ==>
        var token := BearerToken(header).value;
        events == old(events) + [(IntToString(userIdOf(token)), token)]
    {
      var token := BearerToken(header);
      if token.Err? {
        return Err(token.error);
      }
      var invalid := validate(token.value);
      if invalid.Some? {
        return Err(invalid.value);
      }
      events := events + [(IntToString(userIdOf(token.value)), token.value)];
      r := Ok(());
    }
  }

  /**
   * `refreshAccessToken`: an unknown refresh token is "Refresh token not
   * found"; an expired one is refused by `verifyExpiration`; otherwise a new
   * access token for the device's owner comes back with the same refresh
   * token.
   */
  function RefreshAccessToken(refresh: RefreshTokenRepository, token: string,
                              verifyExpiration: RefreshToken -> Option<Failure>, accessToken: string, expirationMs: int)
    : (r: Result<JwtResponse>)
    reads refresh
    ensures FindByToken(refresh.tokens, token).None? ==> r == Err(RuntimeFailure("Refresh token not found"))
    ensures r.Ok? ==>
      r.value.refreshToken == token && r.value.accessToken == accessToken
      && exists i :: 0 <= i < |refresh.tokens| && refresh.tokens[i].token == token
                     && refresh.tokens[i].userId == r.value.userId && verifyExpiration(refresh.tokens[i]).None?
    ensures r.Err? && FindByToken(refresh.tokens, token).Some? ==>
      verifyExpiration(refresh.tokens[FindByToken(refresh.tokens, token).value]) == Some(r.error)
  {
    match FindByToken(refresh.tokens, token)
    case None => Err(RuntimeFailure("Refresh token not found"))
    case Some(i) =>
      var row := refresh.tokens[i];
      match verifyExpiration(row)
      case Some(failure) => Err(failure)
      case None => Ok(JwtResponse(accessToken, row.token, expirationMs, row.userId))
  }

  /**
   * `resendVerificationEmail`: an unknown e-mail, then an already verified
   * user, is refused before any token is made; otherwise a new token for the
   * user is saved and mailed.
   */
  method ResendVerificationEmail(users: UserRepository, tokens: TokenRepository, outbox: Outbox, email: string,
                                 rawToken: string, sha256Hex: string -> string, ttlMinutes: nat, now: int)
    returns (r: Result<()>)
    requires users.Valid() && tokens.Valid()
    modifies tokens, outbox
    ensures tokens.Valid()
    ensures users.FindByEmail(Some(email)).None? ==>
      r == Err(RuntimeFailure(UnknownEmail)) && tokens.tokens == old(tokens.tokens) && outbox.sent == old(outbox.sent)
    ensures users.FindByEmail(Some(email)).Some? && users.FindByEmail(Some(email)).value.columns.isEmailVerified ==>
      r == Err(RuntimeFailure(AlreadyVerified)) && tokens.tokens == old(tokens.tokens) && outbox.sent == old(outbox.sent)
    ensures r.Err? ==> tokens.tokens == old(tokens.tokens) && outbox.sent == old(outbox.sent)
    ensures r.Ok? ==>
      var user := users.FindByEmail(Some(email)).value.columns;
      user.id.Some? && !user.isEmailVerified
      && |tokens.tokens| == old(|tokens.tokens|) + 1 && tokens.tokens[..old(|tokens.tokens|)] == old(tokens.tokens)
      && var t := tokens.tokens[|tokens.tokens| - 1];
      t.userId == user.id.value && t.email == email && t.tokenHash == sha256Hex(rawToken)
      && t.expiresAt == now + ttlMinutes * 60 && !t.IsUsed()
      && outbox.sent == old(outbox.sent) + [(email, rawToken)]
  {
    var found := users.FindByEmail(Some(email));
    if found.None? {
      return Err(RuntimeFailure(UnknownEmail));
    }
    var user := found.value.columns;
    if user.isEmailVerified {
      return Err(RuntimeFailure(AlreadyVerified));
    }
    var issued := IssueVerification(tokens, outbox, user.id.value, email, rawToken, sha256Hex, ttlMinutes * 60, now);
    if issued.Err? {
      return Err(issued.error);
    }
    r := Ok(());
  }
}
