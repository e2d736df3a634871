/**
 * The `User` entity and its mutators, the `Role` entity it links to in both
 * directions, and the user repository the account services query and save
 * through. Users and roles are objects: the services change them in place
 * and save them.
 */
module Users {
  import opened Common
  import opened Text

  datatype RoleName = RoleUser | RoleAdmin | RoleSystem

  /** A `Role` row: its name and the users that hold it. */
  class Role {
    const role: RoleName
    var userList: seq<User>

    constructor (role: RoleName)
      ensures this.role == role && userList == []
    {
      this.role := role;
      userList := [];
    }
  }

  /** `UpdateUserRequest`: each field is optional; a missing one leaves the user's value alone. */
  datatype UpdateUserRequest = UpdateUserRequest(
    phoneNumber: Option<string>, nickname: Option<string>, name: Option<string>, age: Option<int>)

  /** Every column of a user apart from its roles, as one value. */
  datatype Profile = Profile(
    id: Option<int>, email: Option<string>, username: Option<string>, nickname: Option<string>,
    password: Option<string>, name: Option<string>, age: Option<int>, phoneNumber: Option<string>,
    active: bool, isEmailVerified: bool, provider: Option<string>, providerId: Option<string>,
    profileImage: Option<string>)

  /**
   * `updateProfile` on the columns: nothing without a request; otherwise
   * name, nickname, age and phone number each take the request's value when
   * it has one.
   */
  function ProfileUpdated(p: Profile, req: Option<UpdateUserRequest>): (r: Profile)
    ensures req.None? ==> r == p
    ensures req.Some? ==>
      var q := req.value;
      r.name == (if q.name.Some? then q.name else p.name)
      && r.nickname == (if q.nickname.Some? then q.nickname else p.nickname)
      && r.age == (if q.age.Some? then q.age else p.age)
      && r.phoneNumber == (if q.phoneNumber.Some? then q.phoneNumber else p.phoneNumber)
    ensures r.(name := p.name, nickname := p.nickname, age := p.age, phoneNumber := p.phoneNumber) == p
  {
    if req.None? then p
    else
      var q := req.value;
      var p := if q.name.Some? then p.(name := q.name) else p;
      var p := if q.nickname.Some? then p.(nickname := q.nickname) else p;
      var p := if q.age.Some? then p.(age := q.age) else p;
      if q.phoneNumber.Some? then p.(phoneNumber := q.phoneNumber) else p
  }

  /** Applying the same profile update twice is applying it once. */
  lemma ProfileUpdateIdempotent(p: Profile, req: Option<UpdateUserRequest>)
    ensures ProfileUpdated(ProfileUpdated(p, req), req) == ProfileUpdated(p, req)
  {
    var once := ProfileUpdated(p, req);
    var twice := ProfileUpdated(once, req);
    assert twice.(name := once.name, nickname := once.nickname, age := once.age, phoneNumber := once.phoneNumber) == once;
  }

  /** `List.remove(Object)`: the list without the first occurrence of `x`. */
  function RemoveFirst<T(==)>(xs: seq<T>, x: T): (r: seq<T>)
    ensures x !in xs ==> r == xs
    ensures x in xs ==> |r| == |xs| - 1
    ensures multiset(r) == multiset(xs) - multiset{x}
    decreases |xs|
  {
    if |xs| == 0 then []
    else
      assert xs == [xs[0]] + xs[1..];
      if xs[0] == x then xs[1..] else [xs[0]] + RemoveFirst(xs[1..], x)
  }

  lemma {:induction false} RemoveFirstOfAppended<T>(xs: seq<T>, x: T)
    requires x !in xs
    ensures RemoveFirst(xs + [x], x) == xs
    decreases |xs|
  {
    if |xs| == 0 {
      assert xs + [x] == [x];
    } else {
      assert (xs + [x])[1..] == xs[1..] + [x];
      RemoveFirstOfAppended(xs[1..], x);
    }
  }

  class User {
    var id: Option<int>
    var email: Option<string>
    var username: Option<string>
    var nickname: Option<string>
    var password: Option<string>
    var name: Option<string>
    var age: Option<int>
    var phoneNumber: Option<string>
    var active: bool
    var isEmailVerified: bool
    var provider: Option<string>
    var providerId: Option<string>
    var profileImage: Option<string>
    var roles: set<Role>

    function Columns(): Profile
      reads this
    {
      Profile(id, email, username, nickname, password, name, age, phoneNumber,
              active, isEmailVerified, provider, providerId, profileImage)
    }

    /** `isEnabled`: a user may log in once the e-mail is verified. */
    predicate IsEnabled()
      reads this
    {
      isEmailVerified
    }

    /** `isAccountNonLocked`: an inactive account is locked. */
    predicate IsAccountNonLocked()
      reads this
    {
      active
    }

    /**
     * The seven-argument constructor of a local account: active, verified as
     * the caller says, and provider "local" whatever provider is passed.
     */
    constructor Local(email: Option<string>, encodedPassword: Option<string>, name: Option<string>,
                      age: Option<int>, phoneNumber: Option<string>, provider: Option<string>, emailVerified: bool)
      ensures Columns() == Profile(None, email, None, None, encodedPassword, name, age, phoneNumber,
                                   true, emailVerified, Some("local"), None, None)
      ensures roles == {}
      ensures IsAccountNonLocked() && IsEnabled() == emailVerified
    {
      id, username, nickname := None, None, None;
      this.email, password, this.name, this.age, this.phoneNumber := email, encodedPassword, name, age, phoneNumber;
      active, isEmailVerified := true, emailVerified;
      this.provider, providerId, profileImage := Some("local"), None, None;
      roles := {};
    }

    /**
     * A social account (`createSocialUser` / `createSocialStub`): active,
     * linked to the provider, holding the given role, without a nickname.
     * Whether it starts verified is the factory's choice and a parameter.
     */
    constructor Social(email: Option<string>, provider: Option<string>, providerId: Option<string>,
                       profileImage: Option<string>, emailVerified: bool, role: Role)
      ensures Columns() == Profile(None, email, None, None, None, None, None, None,
                                   true, emailVerified, provider, providerId, profileImage)
      ensures roles == {role}
    {
      id, username, nickname, password, name, age, phoneNumber := None, None, None, None, None, None, None;
      this.email, this.provider, this.providerId, this.profileImage := email, provider, providerId, profileImage;
      active, isEmailVerified := true, emailVerified;
      roles := {role};
    }

    /** An entity loaded from a saved row. */
    constructor FromRow(row: Row)
      ensures Columns() == row.columns && roles == row.roles
    {
      var p := row.columns;
      id, email, username, nickname, password := p.id, p.email, p.username, p.nickname, p.password;
      name, age, phoneNumber, active, isEmailVerified := p.name, p.age, p.phoneNumber, p.active, p.isEmailVerified;
      provider, providerId, profileImage := p.provider, p.providerId, p.profileImage;
      roles := row.roles;
    }

    /** `updatePassword`: only the password changes. */
    method UpdatePassword(encodedPassword: string)
      modifies this
      ensures Columns() == old(Columns()).(password := Some(encodedPassword)) && roles == old(roles)
    {
      password := Some(encodedPassword);
    }

    /** `updateProfile`. */
    method UpdateProfile(req: Option<UpdateUserRequest>)
      modifies this
      ensures Columns() == ProfileUpdated(old(Columns()), req) && roles == old(roles)
    {
      if req.None? {
        return;
      }
      var q := req.value;
      if q.name.Some? { name := q.name; }
      if q.nickname.Some? { nickname := q.nickname; }
      if q.age.Some? { age := q.age; }
      if q.phoneNumber.Some? { phoneNumber := q.phoneNumber; }
    }

    /** `updateNickname`. */
    method UpdateNickname(nickname: string)
      modifies this
      ensures Columns() == old(Columns()).(nickname := Some(nickname)) && roles == old(roles)
    {
      this.nickname := Some(nickname);
    }

    /** `connectEmail`. */
    method ConnectEmail(email: string)
      modifies this
      ensures Columns() == old(Columns()).(email := Some(email)) && roles == old(roles)
    {
      this.email := Some(email);
    }

    /** `verifyEmail`. */
    method VerifyEmail()
      modifies this
      ensures Columns() == old(Columns()).(isEmailVerified := true) && roles == old(roles)
      ensures IsEnabled()
    {
      isEmailVerified := true;
    }

    /** `updateProfileImage`. */
    method UpdateProfileImage(image: string)
      modifies this
      ensures Columns() == old(Columns()).(profileImage := Some(image)) && roles == old(roles)
    {
      profileImage := Some(image);
    }

    /** `connectSocial`. */
    method ConnectSocial(provider: Option<string>, providerId: Option<string>)
      modifies this
      ensures Columns() == old(Columns()).(provider := provider, providerId := providerId) && roles == old(roles)
    {
      this.provider, this.providerId := provider, providerId;
    }

    /** `addRole`: the role joins the user's roles and the user joins the role's list. */
    method AddRole(role: Role)
      modifies this, role
      ensures roles == old(roles) + {role} && role.userList == old(role.userList) + [this]
      ensures Columns() == old(Columns())
    {
      roles := roles + {role};
      role.userList := role.userList + [this];
    }

    /** `removeRole`: the role leaves the user's roles and the user's first entry leaves the role's list. */
    method RemoveRole(role: Role)
      modifies this, role
      ensures roles == old(roles) - {role} && role.userList == RemoveFirst(old(role.userList), this)
      ensures Columns() == old(Columns())
    {
      roles := roles - {role};
      role.userList := RemoveFirst(role.userList, this);
    }
  }

  /**
   * `removeRole` undoes `addRole`: for a role the user did not hold and a
   * list the user was not on, adding and then removing restores both sides.
   */
  lemma RemoveRoleUndoesAddRole(roles: set<Role>, userList: seq<User>, u: User, role: Role)
    requires role !in roles && u !in userList
    ensures (roles + {role}) - {role} == roles
    ensures RemoveFirst(userList + [u], u) == userList
  {
    RemoveFirstOfAppended(userList, u);
  }

  /** A saved user: its columns and the roles it holds. */
  datatype Row = Row(columns: Profile, roles: set<Role>)

  /** The first row at or after `from` whose columns satisfy `matches`. */
  function FirstFrom(rows: seq<Row>, matches: Profile -> bool, from: nat): (r: Option<nat>)
    requires from <= |rows|
    ensures r.Some? ==> from <= r.value < |rows| && matches(rows[r.value].columns)
    ensures r.Some? ==> forall k :: from <= k < r.value ==> !matches(rows[k].columns)
    ensures r.None? ==> forall k :: from <= k < |rows| ==> !matches(rows[k].columns)
    decreases |rows| - from
  {
    if from == |rows| then None
    else if matches(rows[from].columns) then Some(from)
    else FirstFrom(rows, matches, from + 1)
  }

  function First(rows: seq<Row>, matches: Profile -> bool): (r: Option<nat>)
    ensures r.Some? ==> r.value < |rows| && matches(rows[r.value].columns)
    ensures r.None? ==> forall k :: 0 <= k < |rows| ==> !matches(rows[k].columns)
  {
    FirstFrom(rows, matches, 0)
  }

  /**
   * The table's constraints: every row has an id below `nextId`, ids are
   * distinct, and no two rows share a non-null e-mail or nickname.
   */
  predicate Unique(rows: seq<Row>, nextId: nat) {
    (forall k :: 0 <= k < |rows| ==> rows[k].columns.id.Some? && 0 <= rows[k].columns.id.value < nextId)
    && (forall i, j :: 0 <= i < j < |rows| ==> rows[i].columns.id != rows[j].columns.id)
    && (forall i, j :: 0 <= i < j < |rows| && rows[i].columns.email.Some? ==>
          rows[i].columns.email != rows[j].columns.email)
    && (forall i, j :: 0 <= i < j < |rows| && rows[i].columns.nickname.Some? ==>
          rows[i].columns.nickname != rows[j].columns.nickname)
  }

  /** A row other than the one `p` is saved into already holds `p`'s e-mail or nickname. */
  predicate Clashes(rows: seq<Row>, p: Profile) {
    exists k :: 0 <= k < |rows| && rows[k].columns.id != p.id
      && ((p.email.Some? && rows[k].columns.email == p.email)
          || (p.nickname.Some? && rows[k].columns.nickname == p.nickname))
  }

  function RowOf(rows: seq<Row>, id: Option<int>): (r: Option<nat>)
    ensures r.Some? ==> r.value < |rows| && rows[r.value].columns.id == id
    ensures r.None? && id.Some? ==> forall k :: 0 <= k < |rows| ==> rows[k].columns.id != id
  {
    if id.None? then None else First(rows, (p: Profile) => p.id == id)
  }

  /**
   * `save` on the table: a clash with a unique column is a
   * `DataIntegrityViolationException`; a user whose id has a row overwrites
   * that row; any other user is inserted with the next id. The result is the
   * new table, the id the user is saved under, and the next free id.
   */
  function SaveRow(rows: seq<Row>, nextId: nat, p: Profile, roles: set<Role>): (r: Result<(seq<Row>, int, nat)>)
    ensures r.Err? <==> Clashes(rows, p)
    ensures r.Err? ==> r.error == DataIntegrityViolation
  {
    if Clashes(rows, p) then Err(DataIntegrityViolation)
    else match RowOf(rows, p.id)
      case Some(k) => Ok((rows[k := Row(p, roles)], p.id.value, nextId))
      case None => Ok((rows + [Row(p.(id := Some(nextId)), roles)], nextId, nextId + 1))
  }

  /**
   * A save the constraints accept keeps them: the saved row holds the
   * user's columns under its id, every other row is unchanged, and an
   * update leaves the number of rows alone while an insert adds one.
   */
  lemma SaveKeepsConstraints(rows: seq<Row>, nextId: nat, p: Profile, roles: set<Role>)
    requires Unique(rows, nextId)
    requires SaveRow(rows, nextId, p, roles).Ok?
    ensures var (after, id, next) := SaveRow(rows, nextId, p, roles).value;
      Unique(after, next)
      && (exists k :: 0 <= k < |after| && after[k] == Row(p.(id := Some(id)), roles))
      && (RowOf(rows, p.id).Some? ==> |after| == |rows| && id == p.id.value)
      && (RowOf(rows, p.id).None? ==> after == rows + [Row(p.(id := Some(id)), roles)] && id == nextId)
      && (forall k :: 0 <= k < |rows| && rows[k].columns.id != p.id ==> after[k] == rows[k])
  {
    var (after, id, next) := SaveRow(rows, nextId, p, roles).value;
    match RowOf(rows, p.id)
    case Some(k) =>
      assert after[k] == Row(p.(id := Some(id)), roles);
      forall i, j | 0 <= i < j < |after|
        ensures after[i].columns.id != after[j].columns.id
        ensures after[i].columns.email.Some? ==> after[i].columns.email != after[j].columns.email
        ensures after[i].columns.nickname.Some? ==> after[i].columns.nickname != after[j].columns.nickname
      {
        if i == k {
          assert rows[j].columns.id != p.id;
        } else if j == k {
          assert rows[i].columns.id != p.id;
        }
      }
    case None =>
      assert after[|rows|] == Row(p.(id := Some(id)), roles);
      forall i, j | 0 <= i < j < |after|
        ensures after[i].columns.id != after[j].columns.id
        ensures after[i].columns.email.Some? ==> after[i].columns.email != after[j].columns.email
        ensures after[i].columns.nickname.Some? ==> after[i].columns.nickname != after[j].columns.nickname
      {
        if j == |rows| {
          assert rows[i].columns.id != p.id;
        }
      }
  }

  /** Under the constraints, the lookup by a row's id finds that row. */
  lemma RowOfUnique(rows: seq<Row>, nextId: nat, k: nat)
    requires Unique(rows, nextId) && k < |rows|
    ensures RowOf(rows, rows[k].columns.id) == Some(k)
  {
    var r := RowOf(rows, rows[k].columns.id);
    assert r.Some?;
  }

  /** Some row holds the nickname. */
  predicate NicknameTaken(rows: seq<Row>, nickname: string) {
    First(rows, (p: Profile) => p.nickname == Some(nickname)).Some?
  }

  /** Saving a row back with its id, e-mail and nickname unchanged never clashes. */
  lemma SameKeysNeverClash(rows: seq<Row>, nextId: nat, k: nat, p: Profile)
    requires Unique(rows, nextId) && k < |rows|
    requires p.id == rows[k].columns.id && p.email == rows[k].columns.email && p.nickname == rows[k].columns.nickname
    ensures !Clashes(rows, p)
  {
    forall j | 0 <= j < |rows| && rows[j].columns.id != p.id
      ensures !(p.email.Some? && rows[j].columns.email == p.email)
      ensures !(p.nickname.Some? && rows[j].columns.nickname == p.nickname)
    {
      assert j != k;
    }
  }

  /**
   * The user table. Lookups by a column give the first matching row; the
   * services turn a row into a `User` entity, change the entity and save it
   * back.
   */
  class UserRepository {
    var rows: seq<Row>
    var nextId: nat

    predicate Valid()
      reads this
    {
      Unique(rows, nextId)
    }

    constructor ()
      ensures rows == [] && nextId == 1 && Valid()
    {
      rows := [];
      nextId := 1;
    }

    function FindById(id: int): (r: Option<Row>)
      reads this
      ensures r.Some? ==> r.value in rows && r.value.columns.id == Some(id)
      ensures r.None? ==> forall k :: 0 <= k < |rows| ==> rows[k].columns.id != Some(id)
    {
      var k := RowOf(rows, Some(id));
      if k.Some? then Some(rows[k.value]) else None
    }

    function FindByEmail(email: Option<string>): (r: Option<Row>)
      reads this
      ensures r.Some? ==> r.value in rows && r.value.columns.email == email
      ensures r.None? ==> forall k :: 0 <= k < |rows| ==> rows[k].columns.email != email
    {
      var k := First(rows, (p: Profile) => p.email == email);
      if k.Some? then Some(rows[k.value]) else None
    }

    function FindByProviderAndProviderId(provider: Option<string>, providerId: Option<string>): (r: Option<Row>)
      reads this
      ensures r.Some? ==> r.value in rows && r.value.columns.provider == provider && r.value.columns.providerId == providerId
      ensures r.None? ==> forall k :: 0 <= k < |rows| ==>
        !(rows[k].columns.provider == provider && rows[k].columns.providerId == providerId)
    {
      var k := First(rows, (p: Profile) => p.provider == provider && p.providerId == providerId);
      if k.Some? then Some(rows[k.value]) else None
    }

    predicate ExistsByEmail(email: Option<string>)
      reads this
    {
      FindByEmail(email).Some?
    }

    predicate ExistsByNickname(nickname: string)
      reads this
    {
      NicknameTaken(rows, nickname)
    }

    /** `save(user)`: writes the entity's columns and roles; a new entity receives its id. */
    method Save(u: User) returns (r: Result<int>)
      requires Valid()
      modifies this, u
      ensures Valid()
      ensures var s := SaveRow(old(rows), old(nextId), old(u.Columns()), old(u.roles));
        (s.Err? ==> r == Err(s.error) && rows == old(rows) && nextId == old(nextId) && u.Columns() == old(u.Columns()))
        && (s.Ok? ==> r == Ok(s.value.1) && rows == s.value.0 && nextId == s.value.2
                      && u.Columns() == old(u.Columns()).(id := Some(s.value.1)))
      ensures u.roles == old(u.roles)
      ensures r.Ok? ==> FindById(r.value) == Some(Row(u.Columns(), u.roles))
    {
      var s := SaveRow(rows, nextId, u.Columns(), u.roles);
      if s.Err? {
        return Err(s.error);
      }
      SaveKeepsConstraints(rows, nextId, u.Columns(), u.roles);
      var existing := RowOf(rows, u.id);
      var k := if existing.Some? then existing.value else |rows|;
      assert s.value.0[k] == Row(u.Columns().(id := Some(s.value.1)), u.roles);
      RowOfUnique(s.value.0, s.value.2, k);
      rows, nextId := s.value.0, s.value.2;
      u.id := Some(s.value.1);
      r := Ok(s.value.1);
    }
  }
}
