/**
 * `UserService`: local sign-up, the profile and password of a user, and the
 * unique nickname every saved user carries. The random suffixes and the
 * clock that `generateUniqueNickname` consults are a parameter (`Chance`);
 * the password encoder's output, the raw verification token and its
 * SHA-256 hash are parameters too.
 */
module UserServices {
  import opened Common
  import opened Text
  import opened Nicknames
  import opened Users
  import opened EmailTokens

  /** The number of suffixes tried before the clock fallback. */
  const Attempts: nat := 20

  /** One random draw below 9000 for each of the 20 suffixes. */
  type Draws = d: seq<nat> | |d| == Attempts && forall i :: 0 <= i < |d| ==> d[i] < 9000
    witness seq(20, i => 0)

  /** What one call of `generateUniqueNickname` may consult: the draws and `System.currentTimeMillis()`. */
  datatype Chance = Chance(draws: Draws, millis: nat)

  const DuplicateEmail: string := "이미 존재하는 이메일입니다."

  /** The sign-up form. */
  datatype SignUpRequest = SignUpRequest(email: string, password: string, name: Option<string>,
                                         age: Option<int>, phoneNumber: Option<string>)

  /** The first candidate that has text, or "user" when none has. */
  function SeedFrom(candidates: seq<Option<string>>): (r: string)
    ensures HasText(Some(r))
    decreases |candidates|
  {
    if |candidates| == 0 then
      assert !IsWhitespace(Fallback[0]);
      Fallback
    else if HasText(candidates[0]) then candidates[0].value
    else SeedFrom(candidates[1..])
  }

  /** The seed is the candidate at `i` exactly when it is the first that has text. */
  lemma {:induction false} SeedPrecedence(candidates: seq<Option<string>>, i: nat)
    requires i < |candidates| && HasText(candidates[i])
    requires forall j :: 0 <= j < i ==> !HasText(candidates[j])
    ensures SeedFrom(candidates) == candidates[i].value
    decreases i
  {
    if i > 0 {
      SeedPrecedence(candidates[1..], i - 1);
    }
  }

  /** With no candidate that has text the seed is "user". */
  lemma {:induction false} SeedFallback(candidates: seq<Option<string>>)
    requires forall j :: 0 <= j < |candidates| ==> !HasText(candidates[j])
    ensures SeedFrom(candidates) == Fallback
    decreases |candidates|
  {
    if |candidates| > 0 {
      SeedFallback(candidates[1..]);
    }
  }

  /** The candidate of try `i`: the base with the i-th random suffix. */
  function Candidate(base: string, chance: Chance, i: nat): (r: string)
    requires i < Attempts
    ensures |r| > |base| && r[..|base|] == base
  {
    WithSuffix(base, chance.draws[i])
  }

  /**
   * The nickname the loop of `generateUniqueNickname` settles on from try
   * `i` onwards: the first suffixed candidate no row holds, or after the
   * twentieth try the base followed by the clock modulo 100000.
   */
  function NicknameFrom(rows: seq<Row>, base: string, chance: Chance, i: nat): (r: string)
    requires i <= Attempts
    ensures |r| > |base| && r[..|base|] == base
    decreases Attempts - i
  {
    if i == Attempts then
      NatToStringDigits(chance.millis % 100000);
      base + NatToString(chance.millis % 100000)
    else
      var candidate := Candidate(base, chance, i);
      if !NicknameTaken(rows, candidate) then candidate
      else NicknameFrom(rows, base, chance, i + 1)
  }

  /** `generateUniqueNickname(seed)` against the table `rows`: it starts with the seed's base and has text. */
  function UniqueNickname(rows: seq<Row>, seed: Option<string>, chance: Chance): (r: string)
    ensures var base := BaseFrom(seed); |r| > |base| && r[..|base|] == base
    ensures HasText(Some(r))
  {
    var base := BaseFrom(seed);
    var r := NicknameFrom(rows, base, chance, 0);
    assert r[0] == base[0] && IsNicknameChar(base[0]);
    r
  }

  /** The candidate of try `i` is the first free one from try `k` on. */
  predicate FirstFreeFrom(rows: seq<Row>, base: string, chance: Chance, k: nat, i: nat) {
    k <= i < Attempts && !NicknameTaken(rows, Candidate(base, chance, i))
    && forall j :: k <= j < i ==> NicknameTaken(rows, Candidate(base, chance, j))
  }

  /** Every candidate from try `k` on is taken. */
  predicate AllTakenFrom(rows: seq<Row>, base: string, chance: Chance, k: nat) {
    forall j :: k <= j < Attempts ==> NicknameTaken(rows, Candidate(base, chance, j))
  }

  /**
   * What the loop returns: the first of the 20 candidates that no row
   * holds; only when every candidate is taken, the clock fallback, which is
   * not checked against the table.
   */
  lemma NicknameChoice(rows: seq<Row>, seed: Option<string>, chance: Chance)
    ensures var base := BaseFrom(seed); var r := UniqueNickname(rows, seed, chance);
      (exists i :: FirstFreeFrom(rows, base, chance, 0, i) && r == Candidate(base, chance, i))
      || (AllTakenFrom(rows, base, chance, 0) && r == base + NatToString(chance.millis % 100000))
  {
    NicknameChoiceFrom(rows, BaseFrom(seed), chance, 0);
  }

  lemma {:induction false} NicknameChoiceFrom(rows: seq<Row>, base: string, chance: Chance, k: nat)
    requires k <= Attempts
    ensures var r := NicknameFrom(rows, base, chance, k);
      (exists i :: FirstFreeFrom(rows, base, chance, k, i) && r == Candidate(base, chance, i))
      || (AllTakenFrom(rows, base, chance, k) && r == base + NatToString(chance.millis % 100000))
    decreases Attempts - k
  {
    if k < Attempts {
      var candidate := Candidate(base, chance, k);
      if NicknameTaken(rows, candidate) {
        NicknameChoiceFrom(rows, base, chance, k + 1);
        var r := NicknameFrom(rows, base, chance, k + 1);
        if i :| FirstFreeFrom(rows, base, chance, k + 1, i) && r == Candidate(base, chance, i) {
          assert FirstFreeFrom(rows, base, chance, k, i);
        } else {
          assert AllTakenFrom(rows, base, chance, k);
        }
      } else {
        assert FirstFreeFrom(rows, base, chance, k, k);
      }
    }
  }

  /** `generateUniqueNickname`: reads the table, changes nothing. */
  method GenerateUniqueNickname(users: UserRepository, seed: Option<string>, chance: Chance) returns (nickname: string)
    ensures nickname == UniqueNickname(users.rows, seed, chance)
  {
    var base := BaseFrom(seed);
    var i := 0;
    while i < Attempts
      invariant 0 <= i <= Attempts
      invariant NicknameFrom(users.rows, base, chance, i) == NicknameFrom(users.rows, base, chance, 0)
    {
      var candidate := Candidate(base, chance, i);
      if !users.ExistsByNickname(candidate) {
        return candidate;
      }
      i := i + 1;
    }
    nickname := base + NatToString(chance.millis % 100000);
  }

  /** `forceRegenerateNickname`: a new nickname from the preferred seed, else the name, e-mail, username or "user". */
  method ForceRegenerateNickname(users: UserRepository, u: User, preferredSeed: Option<string>, chance: Chance)
    modifies u
    ensures u.Columns() == old(u.Columns()).(nickname := Some(UniqueNickname(users.rows,
              Some(SeedFrom([preferredSeed, old(u.name), old(u.email), old(u.username)])), chance)))
    ensures u.roles == old(u.roles)
  {
    var seed := SeedFrom([preferredSeed, u.name, u.email, u.username]);
    var nickname := GenerateUniqueNickname(users, Some(seed), chance);
    u.UpdateNickname(nickname);
  }

  /** `ensureNicknameBeforeSave`: a nickname with text is kept, otherwise regenerated. */
  method EnsureNicknameBeforeSave(users: UserRepository, u: User, preferredSeed: Option<string>, chance: Chance)
    modifies u
    ensures HasText(old(u.nickname)) ==> u.Columns() == old(u.Columns())
    ensures !HasText(old(u.nickname)) ==>
      u.Columns() == old(u.Columns()).(nickname := Some(UniqueNickname(users.rows,
        Some(SeedFrom([preferredSeed, old(u.name), old(u.email), old(u.username)])), chance)))
    ensures u.roles == old(u.roles)
    ensures HasText(u.nickname)
  {
    if u.nickname.Some? && !IsBlank(u.nickname.value) {
      return;
    }
    ForceRegenerateNickname(users, u, preferredSeed, chance);
  }

  /** `ensureNickname`: as above without a preferred seed. */
  method EnsureNickname(users: UserRepository, u: User, chance: Chance)
    modifies u
    ensures HasText(old(u.nickname)) ==> u.Columns() == old(u.Columns())
    ensures !HasText(old(u.nickname)) ==>
      u.Columns() == old(u.Columns()).(nickname := Some(UniqueNickname(users.rows,
        Some(SeedFrom([old(u.name), old(u.email), old(u.username)])), chance)))
    ensures u.roles == old(u.roles)
    ensures HasText(u.nickname)
  {
    if u.nickname.None? || IsBlank(u.nickname.value) {
      var seed := SeedFrom([u.name, u.email, u.username]);
      var nickname := GenerateUniqueNickname(users, Some(seed), chance);
      u.UpdateNickname(nickname);
    }
  }

  /** The user `registerUser` creates: a local, active, unverified account with the form's data and ROLE_USER. */
  ghost predicate NewLocalUser(u: User, req: SignUpRequest, encodedPassword: string, role: Role)
    reads u
  {
    u.id.Some? && u.email == Some(req.email) && u.password == Some(encodedPassword)
    && u.name == req.name && u.age == req.age && u.phoneNumber == req.phoneNumber
    && u.provider == Some("local") && u.active && !u.IsEnabled() && HasText(u.nickname)
    && u.roles == {role}
  }

  /**
   * `registerUser`. A taken e-mail is refused before anything happens, and
   * a missing ROLE_USER before anything is saved. The user is saved once,
   * and on a unique-column clash once more with a nickname regenerated from
   * the name (or the e-mail); then a verification token for the new id is
   * saved and the raw token is mailed. No mail goes out on any failure.
   */
  method RegisterUser(users: UserRepository, tokens: TokenRepository, outbox: Outbox, userRole: Option<Role>,
                      req: SignUpRequest, encodedPassword: string, first: Chance, retry: Chance,
                      rawToken: string, sha256Hex: string -> string, ttlMinutes: nat, now: int)
    returns (r: Result<User>)
    requires users.Valid() && tokens.Valid()
    modifies users, tokens, outbox, if userRole.Some? then {userRole.value} else {}
    ensures users.Valid() && tokens.Valid()
    ensures old(users.ExistsByEmail(Some(req.email))) ==>
      r == Err(IllegalArgument(DuplicateEmail)) && users.rows == old(users.rows)
    ensures !old(users.ExistsByEmail(Some(req.email))) && userRole.None? ==>
      r == Err(RuntimeFailure("Role Not Found")) && users.rows == old(users.rows)
    ensures r.Err? ==> outbox.sent == old(outbox.sent) && tokens.tokens == old(tokens.tokens)
    ensures r.Err? ==> r.error in {IllegalArgument(DuplicateEmail), RuntimeFailure("Role Not Found"), DataIntegrityViolation}
    ensures r.Ok? ==> userRole.Some? && !old(users.ExistsByEmail(Some(req.email)))
    ensures r.Ok? ==>
      fresh(r.value) && NewLocalUser(r.value, req, encodedPassword, userRole.value)
      && users.rows == old(users.rows) + [Row(r.value.Columns(), r.value.roles)]
      && users.FindById(r.value.id.value) == Some(Row(r.value.Columns(), r.value.roles))
    ensures r.Ok? ==>
      |tokens.tokens| == old(|tokens.tokens|) + 1 && tokens.tokens[..old(|tokens.tokens|)] == old(tokens.tokens)
      && var t := tokens.tokens[|tokens.tokens| - 1];
      t.userId == r.value.id.value && t.email == req.email && t.tokenHash == sha256Hex(rawToken)
      && t.expiresAt == now + ttlMinutes * 60 && !t.IsUsed()
    ensures r.Ok? ==> outbox.sent == old(outbox.sent) + [(req.email, rawToken)]
  {
    r := CreateLocalUser(users, userRole, req, encodedPassword, first, retry);
    if r.Err? {
      return;
    }
    var issued := IssueVerification(tokens, outbox, r.value.id.value, req.email, rawToken, sha256Hex, ttlMinutes * 60, now);
    if issued.Err? {
      return Err(issued.error);
    }
  }

  /** Steps 1 to 5 of `registerUser`: the e-mail check, the new entity, its nickname, ROLE_USER and the save. */
  method CreateLocalUser(users: UserRepository, userRole: Option<Role>, req: SignUpRequest, encodedPassword: string,
                         first: Chance, retry: Chance)
    returns (r: Result<User>)
    requires users.Valid()
    modifies users, if userRole.Some? then {userRole.value} else {}
    ensures users.Valid()
    ensures old(users.ExistsByEmail(Some(req.email))) ==>
      r == Err(IllegalArgument(DuplicateEmail)) && users.rows == old(users.rows)
    ensures !old(users.ExistsByEmail(Some(req.email))) && userRole.None? ==>
      r == Err(RuntimeFailure("Role Not Found")) && users.rows == old(users.rows)
    ensures r.Err? ==> users.rows == old(users.rows)
    ensures r.Err? ==> r.error in {IllegalArgument(DuplicateEmail), RuntimeFailure("Role Not Found"), DataIntegrityViolation}
    ensures r.Ok? ==> userRole.Some? && !old(users.ExistsByEmail(Some(req.email)))
    ensures r.Ok? ==>
      fresh(r.value) && NewLocalUser(r.value, req, encodedPassword, userRole.value)
      && userRole.value.userList == old(userRole.value.userList) + [r.value]
      && users.rows == old(users.rows) + [Row(r.value.Columns(), r.value.roles)]
      && users.FindById(r.value.id.value) == Some(Row(r.value.Columns(), r.value.roles))
  {
    if users.ExistsByEmail(Some(req.email)) {
      return Err(IllegalArgument(DuplicateEmail));
    }
    var u := new User.Local(Some(req.email), Some(encodedPassword), req.name, req.age, req.phoneNumber,
                            Some("local"), false);
    EnsureNickname(users, u, first);
    if userRole.None? {
      return Err(RuntimeFailure("Role Not Found"));
    }
    u.AddRole(userRole.value);
    var saved := SaveNewUser(users, u, req, retry);
    if saved.Err? {
      return Err(saved.error);
    }
    r := Ok(u);
  }

  /**
   * The save step of `registerUser`: a new user is inserted; when the
   * table refuses it, the nickname is regenerated from the name (or the
   * e-mail when the name is blank) and the save is tried once more.
   */
  method SaveNewUser(users: UserRepository, u: User, req: SignUpRequest, retry: Chance) returns (saved: Result<int>)
    requires users.Valid() && u.id.None?
    modifies users, u
    ensures users.Valid() && u.roles == old(u.roles)
    ensures u.Columns().(id := None, nickname := None) == old(u.Columns()).(nickname := None)
    ensures var firstTry := SaveRow(old(users.rows), old(users.nextId), old(u.Columns()), old(u.roles));
      (firstTry.Ok? ==> saved.Ok? && u.nickname == old(u.nickname))
      && (firstTry.Err? ==> u.nickname == Some(UniqueNickname(old(users.rows),
                                                if HasText(req.name) then req.name else Some(req.email), retry)))
    ensures saved.Err? ==> saved.error == DataIntegrityViolation && users.rows == old(users.rows)
    ensures saved.Ok? ==>
      u.id == Some(saved.value) && users.rows == old(users.rows) + [Row(u.Columns(), u.roles)]
      && users.FindById(saved.value) == Some(Row(u.Columns(), u.roles))
  {
    saved := users.Save(u);
    if saved.Err? {
      var seed := if HasText(req.name) then req.name else Some(req.email);
      var nickname := GenerateUniqueNickname(users, seed, retry);
      u.UpdateNickname(nickname);
      saved := users.Save(u);
    }
  }

  /** `getUserProfile`: the user's columns, or `ResourceNotFoundException("User", "id", userId)`. */
  function GetUserProfile(users: UserRepository, userId: int): (r: Result<Profile>)
    reads users
    ensures r.Ok? <==> users.FindById(userId).Some?
    ensures r.Ok? ==> r.value.id == Some(userId) && exists k :: 0 <= k < |users.rows| && users.rows[k].columns == r.value
    ensures r.Err? ==> r.error == ResourceNotFound("User", "id", IntToString(userId))
  {
    match users.FindById(userId)
    case None => Err(ResourceNotFound("User", "id", IntToString(userId)))
    case Some(row) => Ok(row.columns)
  }

  /**
   * `updateUserProfile`: the request's fields that are present overwrite
   * the user's row; a new nickname that another row holds is refused by the
   * table and nothing changes.
   */
  method UpdateUserProfile(users: UserRepository, userId: int, req: Option<UpdateUserRequest>)
    returns (r: Result<Profile>)
    requires users.Valid()
    modifies users
    ensures users.Valid()
    ensures old(users.FindById(userId)).None? ==>
      r == Err(ResourceNotFound("User", "id", IntToString(userId))) && users.rows == old(users.rows)
    ensures r.Err? ==> users.rows == old(users.rows)
    ensures r.Ok? ==>
      var row := old(users.FindById(userId)).value;
      r.value == ProfileUpdated(row.columns, req)
      && users.FindById(userId) == Some(Row(r.value, row.roles))
      && |users.rows| == old(|users.rows|)
      && forall k :: 0 <= k < |users.rows| && old(users.rows[k].columns.id) != Some(userId) ==>
           users.rows[k] == old(users.rows[k])
  {
    var found := users.FindById(userId);
    if found.None? {
      return Err(ResourceNotFound("User", "id", IntToString(userId)));
    }
    var u := new User.FromRow(found.value);
    u.UpdateProfile(req);
    var saved := users.Save(u);
    if saved.Err? {
      return Err(saved.error);
    }
    r := Ok(u.Columns());
  }

  /**
   * `changePassword`: an unknown user, then an old password that does not
   * match the stored hash, is refused; otherwise only the password column of
   * the user's row changes.
   */
  method ChangePassword(users: UserRepository, userId: int, oldPassword: string, encodedNewPassword: string,
                        matches: (string, Option<string>) -> bool)
    returns (r: Result<()>)
    requires users.Valid()
    modifies users
    ensures users.Valid() && users.nextId == old(users.nextId)
    ensures old(users.FindById(userId)).None? ==>
      r == Err(ResourceNotFound("User", "id", IntToString(userId))) && users.rows == old(users.rows)
    ensures old(users.FindById(userId)).Some? && !matches(oldPassword, old(users.FindById(userId)).value.columns.password) ==>
      r == Err(IllegalArgument("Old password is incorrect")) && users.rows == old(users.rows)
    ensures r.Ok? <==> old(users.FindById(userId)).Some? && matches(oldPassword, old(users.FindById(userId)).value.columns.password)
    ensures r.Ok? ==>
      var row := old(users.FindById(userId)).value;
      users.FindById(userId) == Some(Row(row.columns.(password := Some(encodedNewPassword)), row.roles))
      && |users.rows| == old(|users.rows|)
      && forall k :: 0 <= k < |users.rows| && old(users.rows[k].columns.id) != Some(userId) ==>
           users.rows[k] == old(users.rows[k])
  {
    var found := users.FindById(userId);
    if found.None? {
      return Err(ResourceNotFound("User", "id", IntToString(userId)));
    }
    if !matches(oldPassword, found.value.columns.password) {
      return Err(IllegalArgument("Old password is incorrect"));
    }
    var k :| 0 <= k < |users.rows| && users.rows[k] == found.value;
    var u := new User.FromRow(found.value);
    u.UpdatePassword(encodedNewPassword);
    SameKeysNeverClash(users.rows, users.nextId, k, u.Columns());
    var saved := users.Save(u);
    r := Ok(());
  }
}
