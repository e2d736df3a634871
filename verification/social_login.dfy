/**
 * `SocialLoginService`: choosing the OAuth adapter for a provider, the
 * login of a social account (found by provider and provider id, then by
 * e-mail, else created), the e-mail connection step for accounts whose
 * provider gave no e-mail, and the stub row such an account gets. The
 * adapters' HTTP calls are functions; the signed tokens, random draws and
 * the verification token's raw value and hash are parameters.
 */
module SocialLogin {
  import opened Common
  import opened Text
  import opened Users
  import opened EmailTokens
  import opened UserServices
  import opened Auth
  import UserDevices

  const RoleUserMissing: string := "ROLE_USER not found"
  /** The default of `app.email.verify-token-ttl-minutes` for this service. */
  const ConnectTtlMinutes: nat := 30

  /** `SocialUserInfo`: what a provider says about the account. */
  datatype SocialUserInfo = SocialUserInfo(
    provider: string, providerId: string, email: Option<string>, nickname: Option<string>, profileImage: Option<string>)

  /** `ConnectEmailRequest`: the social account and the e-mail its owner typed in. */
  datatype ConnectEmailRequest = ConnectEmailRequest(provider: string, providerId: string, email: Option<string>)

  /** A `SocialOAuthService` adapter: which providers it serves, its authorize URL and its user-info call. */
  datatype Adapter = Adapter(
    supports: string -> bool, authorizeUrl: string -> string, userInfo: string -> SocialUserInfo)

  /** The first adapter that supports the provider, as an index. */
  function FirstSupporting(adapters: seq<Adapter>, provider: string): (r: Option<nat>)
    ensures r.Some? ==> r.value < |adapters| && adapters[r.value].supports(provider)
                        && forall j :: 0 <= j < r.value ==> !adapters[j].supports(provider)
    ensures r.None? ==> forall j :: 0 <= j < |adapters| ==> !adapters[j].supports(provider)
    decreases |adapters|
  {
    if |adapters| == 0 then None
    else if adapters[0].supports(provider) then Some(0)
    else
      var rest := FirstSupporting(adapters[1..], provider);
      if rest.Some? then Some(rest.value + 1) else None
  }

  /** `getLoginUrl`: the authorize URL of the first supporting adapter, for the configured redirect URI. */
  function GetLoginUrl(adapters: seq<Adapter>, provider: string, redirectUri: string): (r: Result<string>)
    ensures r.Err? <==> forall j :: 0 <= j < |adapters| ==> !adapters[j].supports(provider)
    ensures r.Err? ==> r.error == IllegalArgument("Unsupported provider: " + provider)
    ensures r.Ok? ==>
      exists i :: 0 <= i < |adapters| && adapters[i].supports(provider)
                  && (forall j :: 0 <= j < i ==> !adapters[j].supports(provider))
                  && r.value == adapters[i].authorizeUrl(redirectUri)
  {
    match FirstSupporting(adapters, provider)
    case None => Err(IllegalArgument("Unsupported provider: " + provider))
    case Some(i) => Ok(adapters[i].authorizeUrl(redirectUri))
  }

  /** `getUserInfo`: the first supporting adapter exchanges the code. */
  function GetUserInfo(adapters: seq<Adapter>, provider: string, code: string): (r: Result<SocialUserInfo>)
    ensures r.Err? <==> forall j :: 0 <= j < |adapters| ==> !adapters[j].supports(provider)
    ensures r.Err? ==> r.error == IllegalArgument("Unsupported provider: " + provider)
    ensures r.Ok? ==>
      exists i :: 0 <= i < |adapters| && adapters[i].supports(provider)
                  && (forall j :: 0 <= j < i ==> !adapters[j].supports(provider))
                  && r.value == adapters[i].userInfo(code)
  {
    match FirstSupporting(adapters, provider)
    case None => Err(IllegalArgument("Unsupported provider: " + provider))
    case Some(i) => Ok(adapters[i].userInfo(code))
  }

  /**
   * The e-mail `loginWithSocialInfo` logs in with: the provider's when it
   * has text; otherwise that of the account already linked to the provider
   * id, provided it has text and is verified; otherwise EMAIL_REQUIRED.
   */
  function LoginEmail(users: UserRepository, info: SocialUserInfo): (r: Result<string>)
    reads users
    ensures HasText(info.email) ==> r == Ok(info.email.value)
    ensures !HasText(info.email) ==>
      var linked := users.FindByProviderAndProviderId(Some(info.provider), Some(info.providerId));
      (r.Ok? <==> linked.Some? && HasText(linked.value.columns.email) && linked.value.columns.isEmailVerified)
      && (r.Ok? ==> r.value == linked.value.columns.email.value)
      && (r.Err? ==> r.error == EmailRequired(info.provider, info.providerId))
  {
    if HasText(info.email) then Ok(info.email.value)
    else
      var linked := users.FindByProviderAndProviderId(Some(info.provider), Some(info.providerId));
      if linked.Some? && HasText(linked.value.columns.email) && linked.value.columns.isEmailVerified
      then Ok(linked.value.columns.email.value)
      else Err(EmailRequired(info.provider, info.providerId))
  }

  /** The account `processSocialLogin` acts on, if one exists: by provider and provider id first, then by e-mail. */
  function LoginTarget(users: UserRepository, info: SocialUserInfo, email: string): (r: Option<Row>)
    reads users
    ensures users.FindByProviderAndProviderId(Some(info.provider), Some(info.providerId)).Some? ==>
      r == users.FindByProviderAndProviderId(Some(info.provider), Some(info.providerId))
    ensures users.FindByProviderAndProviderId(Some(info.provider), Some(info.providerId)).None? ==>
      r == users.FindByEmail(Some(email))
    ensures r.Some? ==> r.value in users.rows
  {
    var byProvider := users.FindByProviderAndProviderId(Some(info.provider), Some(info.providerId));
    if byProvider.Some? then byProvider else users.FindByEmail(Some(email))
  }

  /**
   * The save with one retry that both social flows use: a save the table
   * refuses is followed by a forced nickname regeneration from the social
   * nickname (then name, e-mail, username) and exactly one more save.
   */
  method SaveWithForcedRetry(users: UserRepository, u: User, seed: Option<string>, chance: Chance)
    returns (saved: Result<int>)
    requires users.Valid()
    modifies users, u
    ensures users.Valid() && u.roles == old(u.roles)
    ensures var first := SaveRow(old(users.rows), old(users.nextId), old(u.Columns()), old(u.roles));
      first.Ok? ==>
        saved == Ok(first.value.1) && users.rows == first.value.0
        && u.Columns() == old(u.Columns()).(id := Some(first.value.1))
    ensures var first := SaveRow(old(users.rows), old(users.nextId), old(u.Columns()), old(u.roles));
      var p := old(u.Columns()).(nickname := Some(UniqueNickname(old(users.rows),
                 Some(SeedFrom([seed, old(u.name), old(u.email), old(u.username)])), chance)));
      var second := SaveRow(old(users.rows), old(users.nextId), p, old(u.roles));
      first.Err? ==>
        (second.Err? ==> saved == Err(DataIntegrityViolation) && users.rows == old(users.rows) && u.Columns() == p)
        && (second.Ok? ==> saved == Ok(second.value.1) && users.rows == second.value.0
                           && u.Columns() == p.(id := Some(second.value.1)))
    ensures saved.Ok? ==> users.FindById(saved.value) == Some(Row(u.Columns(), u.roles))
    ensures saved.Ok? && old(RowOf(users.rows, u.id)).Some? ==> Some(saved.value) == old(u.id)
    ensures saved.Err? ==> saved.error == DataIntegrityViolation && users.rows == old(users.rows)
    ensures u.Columns().(id := None, nickname := None) == old(u.Columns()).(id := None, nickname := None)
    ensures HasText(old(u.nickname)) ==> HasText(u.nickname)
  {
    saved := users.Save(u);
    if saved.Err? {
      ForceRegenerateNickname(users, u, seed, chance);
      saved := users.Save(u);
    }
  }

  /**
   * The save with one forced retry inside a transaction: a save the table
   * refuses marks the transaction rollback-only, so the retry runs but the
   * table ends as it was, and the call fails with the retry's refusal or,
   * when the retry was accepted, with the rollback at commit.
   */
  method SaveOrRollBack(users: UserRepository, u: User, seed: Option<string>, chance: Chance)
    returns (saved: Result<int>)
    requires users.Valid()
    modifies users, u
    ensures users.Valid() && u.roles == old(u.roles)
    ensures var first := SaveRow(old(users.rows), old(users.nextId), old(u.Columns()), old(u.roles));
      (first.Ok? ==> saved == Ok(first.value.1) && users.rows == first.value.0)
      && (first.Err? ==> saved.Err? && (saved.error == DataIntegrityViolation || saved.error == RolledBack))
    ensures saved.Ok? ==> users.FindById(saved.value) == Some(Row(u.Columns(), u.roles))
    ensures saved.Ok? ==> u.Columns() == old(u.Columns()).(id := Some(saved.value))
    ensures saved.Err? ==> users.rows == old(users.rows) && users.nextId == old(users.nextId)
  {
    var rows0, next0 := users.rows, users.nextId;
    saved := users.Save(u);
    if saved.Err? {
      ForceRegenerateNickname(users, u, seed, chance);
      var retried := users.Save(u);
      users.rows, users.nextId := rows0, next0;
      saved := Err(if retried.Ok? then RolledBack else retried.error);
    }
  }

  /**
   * The lookup-or-create step of `processSocialLogin`: the account linked
   * to the provider id, else the one holding the e-mail; only when both
   * miss is a social account created (with ROLE_USER) and saved at once.
   */
  method LoadSocialUser(users: UserRepository, userRole: Option<Role>, email: string, info: SocialUserInfo,
                        socialVerified: bool)
    returns (r: Result<User>)
    requires users.Valid()
    modifies users
    ensures users.Valid()
    ensures r.Ok? ==> fresh(r.value) && r.value.id.Some? && users.FindById(r.value.id.value) == Some(Row(r.value.Columns(), r.value.roles))
    ensures var t := old(LoginTarget(users, info, email));
      t.Some? ==> r.Ok? && users.rows == old(users.rows)
                  && r.value.Columns() == t.value.columns && r.value.roles == t.value.roles
    ensures old(LoginTarget(users, info, email)).None? && userRole.None? ==>
      r == Err(IllegalState(RoleUserMissing)) && users.rows == old(users.rows)
    ensures old(LoginTarget(users, info, email)).None? && r.Ok? ==>
      userRole.Some? && r.value.roles == {userRole.value}
      && users.rows == old(users.rows) + [Row(r.value.Columns(), r.value.roles)]
      && r.value.Columns() == Profile(r.value.id, info.email, None, None, None, None, None, None,
                                      true, socialVerified, Some(info.provider), Some(info.providerId), info.profileImage)
    ensures r.Err? ==> users.rows == old(users.rows)
  {
    var target := LoginTarget(users, info, email);
    if target.Some? {
      var row := target.value;
      var k :| 0 <= k < |users.rows| && users.rows[k] == row;
      RowOfUnique(users.rows, users.nextId, k);
      var u := new User.FromRow(row);
      return Ok(u);
    }
    if userRole.None? {
      return Err(IllegalState(RoleUserMissing));
    }
    var u := new User.Social(info.email, Some(info.provider), Some(info.providerId), info.profileImage,
                             socialVerified, userRole.value);
    var created := users.Save(u);
    if created.Err? {
      return Err(created.error);
    }
    r := Ok(u);
  }

  /**
   * The part of `processSocialLogin` between lookup and tokens: link the
   * provider, take the image when it has text, fill a missing nickname
   * from the social one, save with one forced retry. The e-mail is left
   * alone.
   */
  method SyncAndSave(users: UserRepository, u: User, info: SocialUserInfo, ensureChance: Chance, retryChance: Chance)
    returns (saved: Result<int>)
    requires users.Valid()
    modifies users, u
    ensures users.Valid()
    ensures saved.Err? ==> saved.error == DataIntegrityViolation && users.rows == old(users.rows)
    ensures saved.Ok? ==>
      var row := users.FindById(saved.value);
      row.Some?
      && row.value.columns.provider == Some(info.provider) && row.value.columns.providerId == Some(info.providerId)
      && HasText(row.value.columns.nickname) && row.value.columns.email == old(u.email)
      && row.value.columns.profileImage == (if HasText(info.profileImage) then info.profileImage else old(u.profileImage))
    ensures saved.Ok? && old(RowOf(users.rows, u.id)).Some? ==> Some(saved.value) == old(u.id)
  {
    ghost var before := u.Columns();
    u.ConnectSocial(Some(info.provider), Some(info.providerId));
    if HasText(info.profileImage) {
      u.UpdateProfileImage(info.profileImage.value);
    }
    EnsureNicknameBeforeSave(users, u, info.nickname, ensureChance);
    assert u.Columns().(nickname := None) ==
      before.(provider := Some(info.provider), providerId := Some(info.providerId), nickname := None,
              profileImage := if HasText(info.profileImage) then info.profileImage else before.profileImage);
    saved := SaveWithForcedRetry(users, u, info.nickname, retryChance);
  }

  /**
   * `processSocialLogin`: the account is found or created, linked to the
   * provider, given the provider's image when it has text and a nickname
   * when it has none, saved (with one forced retry), and issued the same
   * token pair as a password login.
   */
  method ProcessSocialLogin(users: UserRepository, devices: UserDevices.DeviceRepository, refresh: RefreshTokenRepository,
                            userRole: Option<Role>, email: string, info: SocialUserInfo, request: LoginRequest,
                            socialVerified: bool, ensureChance: Chance, retryChance: Chance,
                            accessToken: string, newToken: string, expiry: int, expirationMs: int)
    returns (r: Result<JwtResponse>)
    requires users.Valid()
    requires UserDevices.KeysUnique(devices.devices) && OnePerDevice(refresh.tokens)
    modifies users, devices, refresh
    ensures users.Valid() && UserDevices.KeysUnique(devices.devices) && OnePerDevice(refresh.tokens)
    ensures old(LoginTarget(users, info, email)).None? && userRole.None? ==>
      r == Err(IllegalState(RoleUserMissing)) && users.rows == old(users.rows)
    ensures r.Ok? ==>
      var t := old(LoginTarget(users, info, email));
      var saved := users.FindById(r.value.userId);
      saved.Some?
      && r.value.accessToken == accessToken && r.value.refreshToken == newToken
      && saved.value.columns.provider == Some(info.provider) && saved.value.columns.providerId == Some(info.providerId)
      && HasText(saved.value.columns.nickname)
      && (HasText(info.profileImage) ==> saved.value.columns.profileImage == info.profileImage)
      && (t.Some? ==> Some(r.value.userId) == t.value.columns.id && saved.value.columns.email == t.value.columns.email)
      && (t.Some? && !HasText(info.profileImage) ==> saved.value.columns.profileImage == t.value.columns.profileImage)
      && (t.None? ==> saved.value.columns.email == info.email)
    ensures r.Ok? ==>
      request.deviceInfo.Some? && var dev := request.deviceInfo.value;
      var upsert := UserDevices.Upsert(old(devices.devices), r.value.userId, dev.deviceId, dev.deviceType);
      upsert.Ok? && devices.devices == upsert.value.0
      && refresh.tokens == RotateOrCreate(old(refresh.tokens), r.value.userId, dev.deviceId, newToken, expiry)
    ensures r.Err? ==> devices.devices == old(devices.devices) && refresh.tokens == old(refresh.tokens)
  {
    var loaded := LoadSocialUser(users, userRole, email, info, socialVerified);
    if loaded.Err? {
      return Err(loaded.error);
    }
    assert RowOf(users.rows, loaded.value.id).Some?;
    var saved := SyncAndSave(users, loaded.value, info, ensureChance, retryChance);
    if saved.Err? {
      return Err(saved.error);
    }
    r := GenerateTokens(users, devices, refresh, saved.value, request, accessToken, newToken, expiry, expirationMs);
  }

  /**
   * `loginWithSocialInfo`: EMAIL_REQUIRED, and nothing else happens, when
   * the provider gave no e-mail and no verified account with an e-mail is
   * linked to the provider id; otherwise `processSocialLogin` with that
   * e-mail.
   */
  method LoginWithSocialInfo(users: UserRepository, devices: UserDevices.DeviceRepository, refresh: RefreshTokenRepository,
                             userRole: Option<Role>, info: SocialUserInfo, request: LoginRequest,
                             socialVerified: bool, ensureChance: Chance, retryChance: Chance,
                             accessToken: string, newToken: string, expiry: int, expirationMs: int)
    returns (r: Result<JwtResponse>)
    requires users.Valid()
    requires UserDevices.KeysUnique(devices.devices) && OnePerDevice(refresh.tokens)
    modifies users, devices, refresh
    ensures users.Valid() && UserDevices.KeysUnique(devices.devices) && OnePerDevice(refresh.tokens)
    ensures old(LoginEmail(users, info)).Err? ==>
      r == Err(old(LoginEmail(users, info)).error) && users.rows == old(users.rows)
      && devices.devices == old(devices.devices) && refresh.tokens == old(refresh.tokens)
    ensures r.Ok? ==>
      old(LoginEmail(users, info)).Ok?
      && var saved := users.FindById(r.value.userId);
      saved.Some? && saved.value.columns.provider == Some(info.provider)
      && saved.value.columns.providerId == Some(info.providerId)
    ensures r.Ok? ==>
      request.deviceInfo.Some? && var dev := request.deviceInfo.value;
      var upsert := UserDevices.Upsert(old(devices.devices), r.value.userId, dev.deviceId, dev.deviceType);
      upsert.Ok? && devices.devices == upsert.value.0
      && refresh.tokens == RotateOrCreate(old(refresh.tokens), r.value.userId, dev.deviceId, newToken, expiry)
    ensures r.Err? ==> devices.devices == old(devices.devices) && refresh.tokens == old(refresh.tokens)
    ensures r.Ok? && !HasText(info.email) ==>
      Some(r.value.userId) == old(users.FindByProviderAndProviderId(Some(info.provider), Some(info.providerId))).value.columns.id
  {
    var email := LoginEmail(users, info);
    if email.Err? {
      return Err(email.error);
    }
    r := ProcessSocialLogin(users, devices, refresh, userRole, email.value, info, request, socialVerified,
                            ensureChance, retryChance, accessToken, newToken, expiry, expirationMs);
  }

  /**
   * `connectEmailAndSendVerification`: a blank e-mail, an unknown social
   * account, or an e-mail another account holds is refused; otherwise a
   * verification token for the account and the typed e-mail is saved and
   * mailed. The user table is not written: the e-mail is attached only
   * when the token is verified.
   */
  method ConnectEmailAndSendVerification(users: UserRepository, tokens: TokenRepository, outbox: Outbox,
                                         req: ConnectEmailRequest, rawToken: string, sha256Hex: string -> string,
                                         now: int)
    returns (r: Result<()>)
    requires users.Valid() && tokens.Valid()
    modifies tokens, outbox
    ensures tokens.Valid()
    ensures !HasText(req.email) ==> r == Err(IllegalArgument("Email required"))
    ensures var social := users.FindByProviderAndProviderId(Some(req.provider), Some(req.providerId));
      HasText(req.email) && social.None? ==> r == Err(IllegalState("Social user not found"))
    ensures var social := users.FindByProviderAndProviderId(Some(req.provider), Some(req.providerId));
      var owner := users.FindByEmail(req.email);
      HasText(req.email) && social.Some? && owner.Some? && owner.value.columns.id != social.value.columns.id ==>
        r == Err(ResourceAlreadyInUse("User", "email", req.email.value))
    ensures r.Err? ==> tokens.tokens == old(tokens.tokens) && outbox.sent == old(outbox.sent)
    ensures r.Ok? ==>
      var social := users.FindByProviderAndProviderId(Some(req.provider), Some(req.providerId));
      var owner := users.FindByEmail(req.email);
      HasText(req.email) && social.Some? && social.value.columns.id.Some?
      && (owner.None? || owner.value.columns.id == social.value.columns.id)
      && |tokens.tokens| == old(|tokens.tokens|) + 1 && tokens.tokens[..old(|tokens.tokens|)] == old(tokens.tokens)
      && var t := tokens.tokens[|tokens.tokens| - 1];
      t.userId == social.value.columns.id.value && t.email == req.email.value && t.tokenHash == sha256Hex(rawToken)
      && t.expiresAt == now + ConnectTtlMinutes * 60 && !t.IsUsed()
      && outbox.sent == old(outbox.sent) + [(req.email.value, rawToken)]
  {
    if !HasText(req.email) {
      return Err(IllegalArgument("Email required"));
    }
    var email := req.email.value;
    var social := users.FindByProviderAndProviderId(Some(req.provider), Some(req.providerId));
    if social.None? {
      return Err(IllegalState("Social user not found"));
    }
    var user := social.value.columns;
    var owner := users.FindByEmail(req.email);
    if owner.Some? && owner.value.columns.id != user.id {
      return Err(ResourceAlreadyInUse("User", "email", email));
    }
    var issued := IssueVerification(tokens, outbox, user.id.value, email, rawToken, sha256Hex, ConnectTtlMinutes * 60, now);
    if issued.Err? {
      return Err(issued.error);
    }
    r := Ok(());
  }

  /** The account `upsertSocialStubIfNeeded` updates: the one linked to the provider id, else a new stub (not yet saved). */
  method LoadStub(users: UserRepository, userRole: Option<Role>, info: SocialUserInfo) returns (r: Result<User>)
    ensures var linked := users.FindByProviderAndProviderId(Some(info.provider), Some(info.providerId));
      (linked.Some? ==> r.Ok? && r.value.Columns() == linked.value.columns && r.value.roles == linked.value.roles)
      && (linked.None? && userRole.None? ==> r == Err(IllegalState(RoleUserMissing)))
      && (linked.None? && userRole.Some? ==>
            r.Ok? && r.value.roles == {userRole.value}
            && r.value.Columns() == Profile(None, None, None, None, None, None, None, None, true, false,
                                            Some(info.provider), Some(info.providerId), info.profileImage))
    ensures r.Ok? ==> fresh(r.value)
  {
    var found := users.FindByProviderAndProviderId(Some(info.provider), Some(info.providerId));
    if found.Some? {
      var u := new User.FromRow(found.value);
      return Ok(u);
    }
    if userRole.None? {
      return Err(IllegalState(RoleUserMissing));
    }
    var u := new User.Social(None, Some(info.provider), Some(info.providerId), info.profileImage, false, userRole.value);
    r := Ok(u);
  }

  /**
   * `upsertSocialStubIfNeeded`: nothing at all when the provider gave an
   * e-mail; otherwise the account linked to the provider id (or a new stub
   * without e-mail holding ROLE_USER) takes the image when it has text and
   * a nickname when it has none, and is saved. The whole method is one
   * transaction: a refused save marks it rollback-only, so the forced
   * retry that follows still runs, but nothing it writes commits and the
   * call fails, with the retry's refusal or, when the retry was accepted,
   * with the rollback at commit.
   */
  method UpsertSocialStubIfNeeded(users: UserRepository, userRole: Option<Role>, info: SocialUserInfo,
                                  ensureChance: Chance, retryChance: Chance)
    returns (r: Result<()>)
    requires users.Valid()
    modifies users
    ensures users.Valid()
    ensures HasText(info.email) ==> r == Ok(()) && users.rows == old(users.rows) && users.nextId == old(users.nextId)
    ensures !HasText(info.email) && userRole.None?
            && old(users.FindByProviderAndProviderId(Some(info.provider), Some(info.providerId))).None? ==>
      r == Err(IllegalState(RoleUserMissing)) && users.rows == old(users.rows)
    ensures r.Err? ==> users.rows == old(users.rows) && users.nextId == old(users.nextId)
    ensures r.Err? ==> r.error == IllegalState(RoleUserMissing) || r.error == DataIntegrityViolation || r.error == RolledBack
    ensures r.Ok? && !HasText(info.email) ==>
      users.FindByProviderAndProviderId(Some(info.provider), Some(info.providerId)).Some?
      && exists k :: 0 <= k < |users.rows| && users.rows[k].columns.provider == Some(info.provider)
                     && users.rows[k].columns.providerId == Some(info.providerId) && HasText(users.rows[k].columns.nickname)
                     && (HasText(info.profileImage) ==> users.rows[k].columns.profileImage == info.profileImage)
  {
    if HasText(info.email) {
      return Ok(());
    }
    var loaded := LoadStub(users, userRole, info);
    if loaded.Err? {
      return Err(loaded.error);
    }
    var u := loaded.value;
    if HasText(info.profileImage) {
      u.UpdateProfileImage(info.profileImage.value);
    }
    EnsureNicknameBeforeSave(users, u, info.nickname, ensureChance);
    var saved := SaveOrRollBack(users, u, info.nickname, retryChance);
    if saved.Err? {
      return Err(saved.error);
    }
    assert users.FindById(saved.value).value in users.rows;
    r := Ok(());
  }

}
