/**
 * `EmailVerificationService`: the click on a verification link (the token
 * is checked, the user's e-mail attached and verified, the token spent,
 * and a one-time login code stored for five minutes) and the exchange of
 * that code for the login token pair. The login code's UUID, the clock,
 * the token hash and the signed tokens are parameters; the shared store
 * is `KeyValue.Store`, and other processes may act on it between the
 * read and the delete of a code.
 */
module EmailVerification {
  import opened Common
  import opened Text
  import opened KeyValue
  import opened Users
  import opened EmailTokens
  import opened Auth
  import UserDevices

  const CodePrefix: string := "email:verify:code:"
  /** Five minutes, in seconds. */
  const CodeTtl: nat := 300
  const RoleUserMissing: string := "ROLE_USER not found"

  function CodeKey(code: string): string {
    CodePrefix + code
  }

  /**
   * The checks of `verifyEmail`, in their order: a token with text, a
   * known hash, not expired, not used, a known user, and an e-mail no
   * other user holds. On success: the token and the user's row.
   */
  function VerifyCheck(users: UserRepository, tokens: TokenRepository, rawToken: Option<string>,
                       sha256Hex: string -> string, now: int)
    : (r: Result<(EmailVerificationToken, Row)>)
    reads users, tokens, set t | t in tokens.tokens
    ensures !HasText(rawToken) ==> r == Err(BadRequest("Token is required"))
    ensures HasText(rawToken) && tokens.FindByTokenHash(sha256Hex(rawToken.value)).None? ==>
      r == Err(BadRequest("Invalid email verification token"))
    ensures HasText(rawToken) && tokens.FindByTokenHash(sha256Hex(rawToken.value)).Some? ==>
      var t := tokens.FindByTokenHash(sha256Hex(rawToken.value)).value;
      (t.IsExpired(now) ==> r == Err(ExpiredToken("Email verification token expired")))
      && (!t.IsExpired(now) && t.IsUsed() ==> r == Err(ResourceAlreadyInUse("EmailVerificationToken", "token", "already used")))
      && (!t.IsExpired(now) && !t.IsUsed() && users.FindById(t.userId).None? ==> r == Err(BadRequest("User not found")))
    ensures r.Ok? ==>
      var (t, row) := r.value;
      HasText(rawToken) && tokens.FindByTokenHash(sha256Hex(rawToken.value)) == Some(t)
      && !t.IsExpired(now) && !t.IsUsed()
      && users.FindById(t.userId) == Some(row)
      && (users.FindByEmail(Some(t.email)).None? || users.FindByEmail(Some(t.email)).value.columns.id == row.columns.id)
    ensures r.Err? && HasText(rawToken) && tokens.FindByTokenHash(sha256Hex(rawToken.value)).Some? ==>
      var t := tokens.FindByTokenHash(sha256Hex(rawToken.value)).value;
      var owner := users.FindByEmail(Some(t.email));
      !t.IsExpired(now) && !t.IsUsed() && users.FindById(t.userId).Some?
      && owner.Some? && owner.value.columns.id != users.FindById(t.userId).value.columns.id ==>
        r == Err(ResourceAlreadyInUse("User", "email", t.email))
  {
    if !HasText(rawToken) then Err(BadRequest("Token is required"))
    else match tokens.FindByTokenHash(sha256Hex(rawToken.value))
      case None => Err(BadRequest("Invalid email verification token"))
      case Some(t) =>
        if t.IsExpired(now) then Err(ExpiredToken("Email verification token expired"))
        else if t.IsUsed() then Err(ResourceAlreadyInUse("EmailVerificationToken", "token", "already used"))
        else match users.FindById(t.userId)
          case None => Err(BadRequest("User not found"))
          case Some(row) =>
            var owner := users.FindByEmail(Some(t.email));
            if owner.Some? && owner.value.columns.id != row.columns.id
            then Err(ResourceAlreadyInUse("User", "email", t.email))
            else Ok((t, row))
  }

  /**
   * Giving a user an e-mail that the e-mail lookup finds on no other user,
   * keeping its id and nickname, never clashes with the unique columns.
   */
  lemma OwnEmailNeverClashes(users: UserRepository, k: nat, p: Profile)
    requires users.Valid() && k < |users.rows|
    requires p.id == users.rows[k].columns.id && p.nickname == users.rows[k].columns.nickname
    requires users.FindByEmail(p.email).None? || users.FindByEmail(p.email).value.columns.id == p.id
    ensures !Clashes(users.rows, p)
  {
    var rows := users.rows;
    var owner := users.FindByEmail(p.email);
    forall j | 0 <= j < |rows| && rows[j].columns.id != p.id
      ensures !(p.email.Some? && rows[j].columns.email == p.email)
      ensures !(p.nickname.Some? && rows[j].columns.nickname == p.nickname)
    {
      assert j != k;
      if owner.Some? {
        var i :| 0 <= i < |rows| && rows[i] == owner.value;
        assert i != j;
      }
    }
  }

  /**
   * The writes of a successful `verifyEmail` to the user: the token's
   * e-mail, the verified flag and, for a user without roles, ROLE_USER,
   * saved in one go. The save cannot be refused: no other user holds the
   * e-mail and the nickname is the user's own.
   */
  method AttachEmail(users: UserRepository, row: Row, email: string, userRole: Option<Role>)
    requires users.Valid() && row in users.rows && (row.roles == {} ==> userRole.Some?)
    requires users.FindByEmail(Some(email)).None? || users.FindByEmail(Some(email)).value.columns.id == row.columns.id
    modifies users, if userRole.Some? then {userRole.value} else {}
    ensures users.Valid() && |users.rows| == old(|users.rows|)
    ensures row.columns.id.Some?
    ensures users.FindById(row.columns.id.value) ==
      Some(Row(row.columns.(email := Some(email), isEmailVerified := true),
               if row.roles == {} then {userRole.value} else row.roles))
    ensures forall k :: 0 <= k < |users.rows| && users.rows[k].columns.id != row.columns.id ==>
      users.rows[k] == old(users.rows[k])
  {
    var k :| 0 <= k < |users.rows| && users.rows[k] == row;
    var user := VerifiedUser(row, email, userRole);
    OwnEmailNeverClashes(users, k, user.Columns());
    RowOfUnique(users.rows, users.nextId, k);
    SaveKeepsConstraints(users.rows, users.nextId, user.Columns(), user.roles);
    assert user.Columns() == row.columns.(email := Some(email), isEmailVerified := true);
    var saved := users.Save(user);
    assert saved == Ok(row.columns.id.value);
    assert user.roles == if row.roles == {} then {userRole.value} else row.roles;
    assert user.Columns() == row.columns.(email := Some(email), isEmailVerified := true);
  }

  /** The user entity of `row` after `connectEmail`, `verifyEmail` and, for a user without roles, `addRole(ROLE_USER)`. */
  method VerifiedUser(row: Row, email: string, userRole: Option<Role>) returns (user: User)
    requires row.roles == {} ==> userRole.Some?
    modifies if userRole.Some? then {userRole.value} else {}
    ensures fresh(user)
    ensures user.Columns() == row.columns.(email := Some(email), isEmailVerified := true)
    ensures user.roles == if row.roles == {} then {userRole.value} else row.roles
  {
    user := new User.FromRow(row);
    user.ConnectEmail(email);
    user.VerifyEmail();
    if user.roles == {} {
      user.AddRole(userRole.value);
    }
  }

  /** `markUsed` and the save of the token: the token is spent, the table keeps its rows. */
  method SpendToken(tokens: TokenRepository, token: EmailVerificationToken, now: int)
    requires tokens.Valid() && token in tokens.tokens
    modifies tokens, token
    ensures tokens.Valid() && tokens.tokens == old(tokens.tokens)
    ensures token.usedAt == Some(now) && token.IsUsed()
  {
    token.MarkUsed(now);
    var _ := tokens.Save(token);
  }

  /**
   * `verifyEmail`. The checks run first and change nothing when they fail.
   * The user then takes the token's e-mail, is marked verified and, when
   * it had no role, receives ROLE_USER; the token is marked used; the
   * login code maps to the user's id in the store for five minutes; the
   * result is the front-end URL carrying the code. A missing ROLE_USER
   * aborts the whole transaction, so it is checked before anything is
   * written.
   */
  method VerifyEmail(users: UserRepository, tokens: TokenRepository, store: Store, userRole: Option<Role>,
                     rawToken: Option<string>, sha256Hex: string -> string, uuid: string, frontendUrl: string, now: int)
    returns (r: Result<string>)
    requires users.Valid() && tokens.Valid()
    modifies users, tokens, (set t | t in tokens.tokens), store, if userRole.Some? then {userRole.value} else {}
    ensures users.Valid() && tokens.Valid() && tokens.tokens == old(tokens.tokens)
    ensures old(VerifyCheck(users, tokens, rawToken, sha256Hex, now)).Err? ==>
      r == Err(old(VerifyCheck(users, tokens, rawToken, sha256Hex, now)).error)
    ensures old(VerifyCheck(users, tokens, rawToken, sha256Hex, now)).Ok? && userRole.None?
            && old(VerifyCheck(users, tokens, rawToken, sha256Hex, now)).value.1.roles == {} ==>
      r == Err(IllegalState(RoleUserMissing))
    ensures r.Err? ==>
      users.rows == old(users.rows) && store.State() == old(store.State())
      && forall t :: t in tokens.tokens ==> t.usedAt == old(t.usedAt)
    ensures r.Ok? ==>
      var (t, row) := old(VerifyCheck(users, tokens, rawToken, sha256Hex, now)).value;
      old(VerifyCheck(users, tokens, rawToken, sha256Hex, now)).Ok?
      && t.usedAt == Some(now) && t.IsUsed()
      && (forall t' :: t' in tokens.tokens && t' != t ==> t'.usedAt == old(t'.usedAt))
      && users.FindById(t.userId) ==
           Some(Row(row.columns.(email := Some(t.email), isEmailVerified := true),
                    if row.roles == {} then {userRole.value} else row.roles))
      && |users.rows| == old(|users.rows|)
      && (forall k :: 0 <= k < |users.rows| && users.rows[k].columns.id != row.columns.id ==>
            users.rows[k] == old(users.rows[k]))
      && store.State() == SetF(old(store.State()), CodeKey(uuid), IntToString(t.userId), Some(CodeTtl))
      && r.value == frontendUrl + "/email-verified?code=" + uuid
  {
    var check := VerifyCheck(users, tokens, rawToken, sha256Hex, now);
    if check.Err? {
      return Err(check.error);
    }
    var (token, row) := check.value;
    if row.roles == {} && userRole.None? {
      return Err(IllegalState(RoleUserMissing));
    }
    var url := Redeem(users, tokens, store, userRole, token, row, uuid, frontendUrl, now);
    r := Ok(url);
  }

  /** The writes of a successful `verifyEmail`, once the checks have passed. */
  method Redeem(users: UserRepository, tokens: TokenRepository, store: Store, userRole: Option<Role>,
                token: EmailVerificationToken, row: Row, uuid: string, frontendUrl: string, now: int)
    returns (url: string)
    requires users.Valid() && tokens.Valid() && token in tokens.tokens
    requires users.FindById(token.userId) == Some(row) && (row.roles == {} ==> userRole.Some?)
    requires users.FindByEmail(Some(token.email)).None? || users.FindByEmail(Some(token.email)).value.columns.id == row.columns.id
    modifies users, tokens, token, store, if userRole.Some? then {userRole.value} else {}
    ensures users.Valid() && tokens.Valid() && tokens.tokens == old(tokens.tokens)
    ensures token.usedAt == Some(now) && token.IsUsed()
    ensures users.FindById(token.userId) ==
      Some(Row(row.columns.(email := Some(token.email), isEmailVerified := true),
               if row.roles == {} then {userRole.value} else row.roles))
    ensures |users.rows| == old(|users.rows|)
    ensures forall k :: 0 <= k < |users.rows| && users.rows[k].columns.id != row.columns.id ==>
      users.rows[k] == old(users.rows[k])
    ensures store.State() == SetF(old(store.State()), CodeKey(uuid), IntToString(token.userId), Some(CodeTtl))
    ensures url == frontendUrl + "/email-verified?code=" + uuid
  {
    AttachEmail(users, row, token.email, userRole);
    SpendToken(tokens, token, now);
    store.Set(CodeKey(uuid), IntToString(token.userId), Some(CodeTtl));
    url := frontendUrl + "/email-verified?code=" + uuid;
  }

  /**
   * A verification token is spent by the first successful `verifyEmail`:
   * from then on it is used, and every later attempt with it fails.
   */
  lemma TokenVerifiesOnce(users: UserRepository, tokens: TokenRepository, rawToken: Option<string>,
                          sha256Hex: string -> string, now: int, later: int)
    requires HasText(rawToken) && tokens.FindByTokenHash(sha256Hex(rawToken.value)).Some?
    requires tokens.FindByTokenHash(sha256Hex(rawToken.value)).value.IsUsed()
    ensures VerifyCheck(users, tokens, rawToken, sha256Hex, later).Err?
  {
    var t := tokens.FindByTokenHash(sha256Hex(rawToken.value)).value;
    if !t.IsExpired(later) {
      assert VerifyCheck(users, tokens, rawToken, sha256Hex, later) ==
        Err(ResourceAlreadyInUse("EmailVerificationToken", "token", "already used"));
    }
  }

  /** The guards `exchangeCode` applies before touching the store. */
  function ExchangeGuard(code: Option<string>, request: Option<LoginRequest>): (r: Option<Failure>)
    ensures !HasText(code) ==> r == Some(BadRequest("Code is required"))
    ensures HasText(code) && (request.None? || request.value.deviceInfo.None?) ==>
      r == Some(BadRequest("DeviceInfo is required"))
    ensures HasText(code) && request.Some? && request.value.deviceInfo.Some?
            && !HasText(request.value.deviceInfo.value.deviceId) ==>
      r == Some(BadRequest("DeviceInfo.deviceId is required"))
    ensures r.None? <==>
      HasText(code) && request.Some? && request.value.deviceInfo.Some? && HasText(request.value.deviceInfo.value.deviceId)
  {
    if !HasText(code) then Some(BadRequest("Code is required"))
    else if request.None? || request.value.deviceInfo.None? then Some(BadRequest("DeviceInfo is required"))
    else if !HasText(request.value.deviceInfo.value.deviceId) then Some(BadRequest("DeviceInfo.deviceId is required"))
    else None
  }

  /**
   * `exchangeCode`. The guards, then the code is read; other processes may
   * act (`between`) before it is deleted; only the caller whose delete
   * removed the key goes on. The payload must be a number naming a user
   * whose e-mail is verified; that user gets the login token pair.
   */
  method ExchangeCode(users: UserRepository, devices: UserDevices.DeviceRepository, refresh: RefreshTokenRepository,
                      store: Store, code: Option<string>, request: Option<LoginRequest>, between: seq<Op>,
                      accessToken: string, newToken: string, expiry: int, expirationMs: int)
    returns (r: Result<JwtResponse>)
    requires UserDevices.KeysUnique(devices.devices) && OnePerDevice(refresh.tokens)
    modifies store, devices, refresh
    ensures UserDevices.KeysUnique(devices.devices) && OnePerDevice(refresh.tokens)
    ensures r.Err? ==> devices.devices == old(devices.devices) && refresh.tokens == old(refresh.tokens)
    ensures ExchangeGuard(code, request).Some? ==>
      r == Err(ExchangeGuard(code, request).value) && store.State() == old(store.State())
    ensures ExchangeGuard(code, request).None? && GetF(old(store.State()), CodeKey(code.value)).None? ==>
      r == Err(ExpiredToken("Invalid or expired verification code")) && store.State() == old(store.State())
    ensures ExchangeGuard(code, request).None? && GetF(old(store.State()), CodeKey(code.value)).Some? ==>
      var during := ApplyOps(old(store.State()), between);
      store.State() == DeleteF(during, CodeKey(code.value)).0
      && (!Exists(during, CodeKey(code.value)) ==>
            r == Err(ResourceAlreadyInUse("EmailVerificationCode", "code", code.value)))
    ensures ExchangeGuard(code, request).None? && GetF(old(store.State()), CodeKey(code.value)).Some?
            && Exists(ApplyOps(old(store.State()), between), CodeKey(code.value)) ==>
      var payload := GetF(old(store.State()), CodeKey(code.value)).value;
      (ParseLong(payload).None? ==> r == Err(BadRequest("Invalid verification code payload")))
      && (ParseLong(payload).Some? && users.FindById(ParseLong(payload).value).None? ==> r == Err(BadRequest("User not found")))
      && (ParseLong(payload).Some? && users.FindById(ParseLong(payload).value).Some?
          && !users.FindById(ParseLong(payload).value).value.columns.isEmailVerified ==>
            r == Err(BadRequest("Email not verified")))
    ensures r.Ok? ==>
      ExchangeGuard(code, request).None?
      && var payload := GetF(old(store.State()), CodeKey(code.value));
      payload.Some? && ParseLong(payload.value) == Some(r.value.userId)
      && Exists(ApplyOps(old(store.State()), between), CodeKey(code.value))
      && !Exists(store.State(), CodeKey(code.value))
      && users.FindById(r.value.userId).Some? && users.FindById(r.value.userId).value.columns.isEmailVerified
      && r.value.accessToken == accessToken && r.value.refreshToken == newToken
      && var info := request.value.deviceInfo.value;
      var upsert := UserDevices.Upsert(old(devices.devices), r.value.userId, info.deviceId, info.deviceType);
      upsert.Ok? && devices.devices == upsert.value.0
      && refresh.tokens == RotateOrCreate(old(refresh.tokens), r.value.userId, info.deviceId, newToken, expiry)
  {
    var guard := ExchangeGuard(code, request);
    if guard.Some? {
      return Err(guard.value);
    }
    var key := CodeKey(code.value);
    var value := store.Get(key);
    if value.None? {
      return Err(ExpiredToken("Invalid or expired verification code"));
    }
    store.Interleave(between);
    var deleted := store.Delete(key);
    if !deleted {
      return Err(ResourceAlreadyInUse("EmailVerificationCode", "code", code.value));
    }
    var userId := ParseLong(value.value);
    if userId.None? {
      return Err(BadRequest("Invalid verification code payload"));
    }
    var user := users.FindById(userId.value);
    if user.None? {
      return Err(BadRequest("User not found"));
    }
    if !user.value.columns.isEmailVerified {
      return Err(BadRequest("Email not verified"));
    }
    r := GenerateTokens(users, devices, refresh, userId.value, request.value, accessToken, newToken, expiry, expirationMs);
  }

  /**
   * The code `verifyEmail` stores leads `exchangeCode` back to the same
   * user: read before its five minutes are up, the payload parses to the
   * user's id.
   */
  lemma VerifiedCodeNamesItsUser(s: Snapshot, uuid: string, userId: int)
    requires MinLong <= userId <= MaxLong
    ensures var after := SetF(s, CodeKey(uuid), IntToString(userId), Some(CodeTtl));
      GetF(after, CodeKey(uuid)).Some? && ParseLong(GetF(after, CodeKey(uuid)).value) == Some(userId)
  {
    ParseLongOfIntToString(userId);
  }

  /**
   * Of two exchanges of the same code that both read it, at most one
   * deletes it: the second delete finds the key gone, whatever else ran in
   * between unless some process wrote the key again.
   */
  lemma CodeDeletedOnce(s: Snapshot, code: string, between: seq<Op>)
    requires forall i :: 0 <= i < |between| ==> between[i].key != CodeKey(code)
    ensures var first := DeleteF(s, CodeKey(code)).0;
      !DeleteF(ApplyOps(first, between), CodeKey(code)).1
  {
    OpsElsewhereKeepKeyAbsent(DeleteF(s, CodeKey(code)).0, CodeKey(code), between);
  }

  lemma {:induction false} OpsElsewhereKeepKeyAbsent(s: Snapshot, key: string, ops: seq<Op>)
    requires !Exists(s, key)
    requires forall i :: 0 <= i < |ops| ==> ops[i].key != key
    ensures !Exists(ApplyOps(s, ops), key)
    decreases |ops|
  {
    if |ops| > 0 {
      OpTouchesOnlyItsKey(s, ops[0], key);
      OpsElsewhereKeepKeyAbsent(ApplyOp(s, ops[0]), key, ops[1..]);
    }
  }
}
