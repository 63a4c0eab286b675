/**
 * Accounts: registration, login, logout, profile updates and password
 * changes over the stored user table, and the provider object that holds
 * the table, the signed-in user and the last error.
 */
module Auth {
  import opened Wrappers
  import opened Text

  datatype Theme = Light | Dark
  datatype Language = Zh | En
  datatype Preferences = Preferences(theme: Theme, language: Language, notifications: bool)

  /** A user as the application sees it: never with a password. */
  datatype User = User(
    id: string,
    username: string,
    email: string,
    avatar: Option<string>,
    createdAt: int,
    lastLoginAt: Option<int>,
    preferences: Preferences)

  /** A row of the stored user table: the user and the password checked at login. */
  datatype StoredUser = StoredUser(user: User, password: string)

  datatype Credentials = Credentials(email: string, password: string)

  datatype RegisterData = RegisterData(username: string, email: string, password: string, confirmPassword: string)

  /** `Partial<User>`: the fields an update sets; absent fields are kept. */
  datatype UserPatch = UserPatch(
    id: Option<string>,
    username: Option<string>,
    email: Option<string>,
    avatar: Option<string>,
    createdAt: Option<int>,
    lastLoginAt: Option<int>,
    preferences: Option<Preferences>)

  const USER_NOT_FOUND: string := "用户不存在"
  const WRONG_PASSWORD: string := "密码错误"
  const PASSWORD_MISMATCH: string := "两次输入的密码不一致"
  const PASSWORD_TOO_SHORT: string := "密码长度至少6位"
  const BAD_EMAIL: string := "邮箱格式不正确"
  const EMAIL_TAKEN: string := "该邮箱已被注册"
  const USERNAME_TAKEN: string := "该用户名已被使用"
  const WRONG_OLD_PASSWORD: string := "原密码错误"

  /** A character `[^\s@]` admits. */
  predicate EmailChar(c: char) {
    c != '@' && !IsWhitespace(c)
  }

  /**
   * `/^[^\s@]+@[^\s@]+\.[^\s@]+$/.test(s)`, position by position: one `@`
   * that is not the first character, every other character outside `\s`
   * and `@`, and a `.` with at least one character between it and the `@`
   * and at least one after it.
   */
  predicate IsEmail(s: string) {
    exists k, d :: 0 < k && k + 1 < d < |s| - 1 && s[k] == '@' && s[d] == '.'
      && forall i :: 0 <= i < |s| && i != k ==> EmailChar(s[i])
  }

  /** An accepted address has exactly one `@`, splitting it into a local part and a dotted domain. */
  lemma EmailHasOneAt(s: string, k: int)
    requires IsEmail(s)
    requires 0 <= k < |s| && s[k] == '@'
    ensures 0 < k < |s| - 3
    ensures forall i :: 0 <= i < |s| && i != k ==> s[i] != '@'
    ensures exists d :: k + 1 < d < |s| - 1 && s[d] == '.'
  {
    var k', d :| 0 < k' && k' + 1 < d < |s| - 1 && s[k'] == '@' && s[d] == '.'
      && forall i :: 0 <= i < |s| && i != k' ==> EmailChar(s[i]);
  }

  /** Addresses on either side of the pattern. */
  lemma EmailExamples()
    ensures IsEmail("ann@example.com")
    ensures IsEmail("a@b.c")
    ensures !IsEmail("ann@example")
    ensures !IsEmail("@example.com")
    ensures !IsEmail("ann@.com")
    ensures !IsEmail("ann@example.")
    ensures !IsEmail("a b@c.d")
    ensures !IsEmail("a@b@c.d")
  {
    AcceptedAt("ann@example.com", 3, 11);
    AcceptedAt("a@b.c", 1, 3);
    assert !EmailChar("a b@c.d"[1]);
    assert !EmailChar("a@b@c.d"[1]) && !EmailChar("a@b@c.d"[3]);
  }

  /** An address with its `@` and its dot where the pattern wants them is accepted. */
  lemma AcceptedAt(s: string, k: int, d: int)
    requires 0 < k && k + 1 < d < |s| - 1 && s[k] == '@' && s[d] == '.'
    requires forall i :: 0 <= i < |s| && i != k ==> EmailChar(s[i])
    ensures IsEmail(s)
  {
  }

  /** `s.findIndex(p)`: the first position whose element satisfies `p`, if any. */
  function FirstIndex<T>(s: seq<T>, p: T -> bool): (r: Option<nat>)
    ensures r.None? <==> forall i :: 0 <= i < |s| ==> !p(s[i])
    ensures r.Some? ==> r.value < |s| && p(s[r.value]) && forall j :: 0 <= j < r.value ==> !p(s[j])
  {
    if s == [] then None
    else if p(s[0]) then Some(0)
    else match FirstIndex(s[1..], p)
      case None => None
      case Some(i) => Some(i + 1)
  }

  function WithEmail(email: string): StoredUser -> bool {
    (u: StoredUser) => u.user.email == email
  }

  function WithUsername(username: string): StoredUser -> bool {
    (u: StoredUser) => u.user.username == username
  }

  function WithId(id: string): StoredUser -> bool {
    (u: StoredUser) => u.user.id == id
  }

  /** No two stored users share an email or a username. */
  predicate UniqueAccounts(users: seq<StoredUser>) {
    forall i, j :: 0 <= i < j < |users| ==>
      users[i].user.email != users[j].user.email && users[i].user.username != users[j].user.username
  }

  /** No two stored users share an id. */
  predicate UniqueIds(users: seq<StoredUser>) {
    forall i, j :: 0 <= i < j < |users| ==> users[i].user.id != users[j].user.id
  }

  /**
   * `login`: the first stored user with the email; none is `用户不存在`, a
   * different password `密码错误`; otherwise that user, without password,
   * stamped with the login time.
   */
  function LoginOutcome(users: seq<StoredUser>, credentials: Credentials, now: int): (r: Result<User, string>)
    ensures (forall i :: 0 <= i < |users| ==> users[i].user.email != credentials.email) <==> r == Failure(USER_NOT_FOUND)
    ensures r.Success? <==>
      exists i :: && 0 <= i < |users| && users[i].user.email == credentials.email
                  && users[i].password == credentials.password
                  && (forall j :: 0 <= j < i ==> users[j].user.email != credentials.email)
    ensures r.Success? ==>
      exists i :: && 0 <= i < |users| && users[i].user.email == credentials.email
                  && (forall j :: 0 <= j < i ==> users[j].user.email != credentials.email)
                  && r.value == users[i].user.(lastLoginAt := Some(now))
    ensures r.Failure? ==> r.error in {USER_NOT_FOUND, WRONG_PASSWORD}
  {
    match FirstIndex(users, WithEmail(credentials.email))
    case None => Failure(USER_NOT_FOUND)
    case Some(i) =>
      if users[i].password != credentials.password then Failure(WRONG_PASSWORD)
      else Success(users[i].user.(lastLoginAt := Some(now)))
  }

  /**
   * `register`'s checks, in the order it makes them: matching passwords, a
   * password of six characters or more, a well-formed email, an unused
   * email, an unused username. The first that fails gives its message.
   */
  function RegisterError(users: seq<StoredUser>, data: RegisterData): (r: Option<string>)
    ensures data.password != data.confirmPassword ==> r == Some(PASSWORD_MISMATCH)
    ensures data.password == data.confirmPassword && |data.password| < 6 ==> r == Some(PASSWORD_TOO_SHORT)
    ensures data.password == data.confirmPassword && |data.password| >= 6 && !IsEmail(data.email) ==> r == Some(BAD_EMAIL)
    ensures (&& data.password == data.confirmPassword && |data.password| >= 6 && IsEmail(data.email)
             && (exists i :: 0 <= i < |users| && users[i].user.email == data.email))
        ==> r == Some(EMAIL_TAKEN)
    ensures (&& data.password == data.confirmPassword && |data.password| >= 6 && IsEmail(data.email)
             && (forall i :: 0 <= i < |users| ==> users[i].user.email != data.email)
             && (exists i :: 0 <= i < |users| && users[i].user.username == data.username))
        ==> r == Some(USERNAME_TAKEN)
    ensures r.None? <==>
      && data.password == data.confirmPassword && |data.password| >= 6 && IsEmail(data.email)
      && (forall i :: 0 <= i < |users| ==> users[i].user.email != data.email && users[i].user.username != data.username)
  {
    if data.password != data.confirmPassword then Some(PASSWORD_MISMATCH)
    else if |data.password| < 6 then Some(PASSWORD_TOO_SHORT)
    else if !IsEmail(data.email) then Some(BAD_EMAIL)
    else if FirstIndex(users, WithEmail(data.email)).Some? then Some(EMAIL_TAKEN)
    else if FirstIndex(users, WithUsername(data.username)).Some? then Some(USERNAME_TAKEN)
    else None
  }

  /** The account `register` creates: dark theme, Chinese, notifications on, created and signed in `now`. */
  function NewUser(data: RegisterData, id: string, now: int): User {
    User(id, data.username, data.email, None, now, Some(now), Preferences(Dark, Zh, true))
  }

  /** The user table after a successful registration: the new account appended with its password. */
  function Registered(users: seq<StoredUser>, data: RegisterData, id: string, now: int): (r: seq<StoredUser>)
    ensures |r| == |users| + 1 && r[..|users|] == users
    ensures r[|users|] == StoredUser(NewUser(data, id, now), data.password)
  {
    users + [StoredUser(NewUser(data, id, now), data.password)]
  }

  /** Registration keeps emails and usernames unique. */
  lemma RegisterKeepsAccountsUnique(users: seq<StoredUser>, data: RegisterData, id: string, now: int)
    requires UniqueAccounts(users)
    requires RegisterError(users, data).None?
    ensures UniqueAccounts(Registered(users, data, id, now))
  {
    var r := Registered(users, data, id, now);
    forall i, j | 0 <= i < j < |r|
      ensures r[i].user.email != r[j].user.email && r[i].user.username != r[j].user.username
    {
      if j < |users| {
        assert r[i] == users[i] && r[j] == users[j];
      } else {
        assert r[i] == users[i];
      }
    }
  }

  /** A freshly registered account logs in with the password it was registered with. */
  lemma RegisterThenLogin(users: seq<StoredUser>, data: RegisterData, id: string, now: int, later: int)
    requires RegisterError(users, data).None?
    ensures LoginOutcome(Registered(users, data, id, now), Credentials(data.email, data.password), later)
         == Success(NewUser(data, id, now).(lastLoginAt := Some(later)))
  {
    var r := Registered(users, data, id, now);
    assert forall j :: 0 <= j < |users| ==> r[j].user.email != data.email by {
      forall j | 0 <= j < |users| ensures r[j].user.email != data.email {
        assert r[j] == users[j];
      }
    }
    assert FirstIndex(r, WithEmail(data.email)) == Some(|users|);
  }

  /** `{ ...user, ...updates }`. */
  function ApplyPatch(u: User, patch: UserPatch): (r: User)
    ensures patch == UserPatch(None, None, None, None, None, None, None) ==> r == u
    ensures patch.email.Some? ==> r.email == patch.email.value
    ensures patch.email.None? ==> r.email == u.email
    ensures patch.username.Some? ==> r.username == patch.username.value
    ensures patch.username.None? ==> r.username == u.username
    ensures Follows(r.id, u.id, patch.id)
    ensures FollowsOptional(r.avatar, u.avatar, patch.avatar)
    ensures Follows(r.createdAt, u.createdAt, patch.createdAt)
    ensures FollowsOptional(r.lastLoginAt, u.lastLoginAt, patch.lastLoginAt)
    ensures Follows(r.preferences, u.preferences, patch.preferences)
  {
    User(Override(u.id, patch.id), Override(u.username, patch.username), Override(u.email, patch.email),
      if patch.avatar.Some? then patch.avatar else u.avatar,
      Override(u.createdAt, patch.createdAt),
      if patch.lastLoginAt.Some? then patch.lastLoginAt else u.lastLoginAt,
      Override(u.preferences, patch.preferences))
  }

  /** Applying the same update twice is applying it once. */
  lemma ApplyPatchIdempotent(u: User, patch: UserPatch)
    ensures ApplyPatch(ApplyPatch(u, patch), patch) == ApplyPatch(u, patch)
  {
  }

  /**
   * The stored side of `updateProfile`: the first row with the user's id
   * takes the update; every other row, and every password, stays.
   */
  function UpdateStored(users: seq<StoredUser>, id: string, patch: UserPatch): (r: seq<StoredUser>)
    ensures |r| == |users|
    ensures FirstIndex(users, WithId(id)).None? ==> r == users
    ensures FirstIndex(users, WithId(id)).Some? ==>
      var k := FirstIndex(users, WithId(id)).value;
      r == users[k := StoredUser(ApplyPatch(users[k].user, patch), users[k].password)]
  {
    match FirstIndex(users, WithId(id))
    case None => users
    case Some(k) => users[k := StoredUser(ApplyPatch(users[k].user, patch), users[k].password)]
  }

  /** An update keeps accounts unique when no other account holds the email or username it sets. */
  lemma UpdateKeepsAccountsUnique(users: seq<StoredUser>, id: string, patch: UserPatch)
    requires UniqueAccounts(users) && UniqueIds(users)
    requires patch.email.Some? ==> forall i :: 0 <= i < |users| && users[i].user.id != id ==> users[i].user.email != patch.email.value
    requires patch.username.Some? ==> forall i :: 0 <= i < |users| && users[i].user.id != id ==> users[i].user.username != patch.username.value
    ensures UniqueAccounts(UpdateStored(users, id, patch))
  {
    var r := UpdateStored(users, id, patch);
    if FirstIndex(users, WithId(id)).Some? {
      var k := FirstIndex(users, WithId(id)).value;
      forall i, j | 0 <= i < j < |r|
        ensures r[i].user.email != r[j].user.email && r[i].user.username != r[j].user.username
      {
        if i == k {
          assert users[j].user.id != id;
        } else if j == k {
          assert users[i].user.id != id;
        }
      }
    }
  }

  /**
   * The stored side of `changePassword`: the first row with the user's id
   * must carry the old password (`原密码错误` otherwise, or without such a
   * row); then only its password becomes the new one.
   */
  function PasswordChange(users: seq<StoredUser>, id: string, oldPassword: string, newPassword: string): (r: Result<seq<StoredUser>, string>)
    ensures r.Failure? ==> r.error == WRONG_OLD_PASSWORD
    ensures r.Success? <==>
      exists k :: && 0 <= k < |users| && users[k].user.id == id && users[k].password == oldPassword
                  && (forall j :: 0 <= j < k ==> users[j].user.id != id)
    ensures r.Success? ==>
      exists k :: && 0 <= k < |users| && users[k].user.id == id
                  && (forall j :: 0 <= j < k ==> users[j].user.id != id)
                  && r.value == users[k := users[k].(password := newPassword)]
  {
    match FirstIndex(users, WithId(id))
    case None => Failure(WRONG_OLD_PASSWORD)
    case Some(k) =>
      if users[k].password != oldPassword then Failure(WRONG_OLD_PASSWORD)
      else Success(users[k := users[k].(password := newPassword)])
  }

  /**
   * After a password change the account logs in with the new password, and
   * no longer with the old one when they differ.
   */
  lemma ChangePasswordThenLogin(users: seq<StoredUser>, id: string, oldPassword: string, newPassword: string, now: int)
    requires UniqueAccounts(users)
    requires PasswordChange(users, id, oldPassword, newPassword).Success?
    ensures var k := FirstIndex(users, WithId(id)).value;
            var changed := PasswordChange(users, id, oldPassword, newPassword).value;
            && LoginOutcome(changed, Credentials(users[k].user.email, newPassword), now)
               == Success(users[k].user.(lastLoginAt := Some(now)))
            && (oldPassword != newPassword ==>
                LoginOutcome(changed, Credentials(users[k].user.email, oldPassword), now) == Failure(WRONG_PASSWORD))
  {
    var k := FirstIndex(users, WithId(id)).value;
    var changed := PasswordChange(users, id, oldPassword, newPassword).value;
    assert changed == users[k := users[k].(password := newPassword)];
    assert FirstIndex(changed, WithEmail(users[k].user.email)) == Some(k) by {
      forall j | 0 <= j < k ensures !WithEmail(users[k].user.email)(changed[j]) {
        assert changed[j] == users[j];
      }
      FirstIndexAt(changed, WithEmail(users[k].user.email), k);
    }
  }

  /** The first index is `k` when `k` qualifies and nothing before it does. */
  lemma FirstIndexAt<T>(s: seq<T>, p: T -> bool, k: nat)
    requires k < |s| && p(s[k])
    requires forall j :: 0 <= j < k ==> !p(s[j])
    ensures FirstIndex(s, p) == Some(k)
  {
  }

  /**
   * `AuthProvider`: the stored user table (`photodesign_users`), the
   * signed-in user (`photodesign_user`) and the error shown by the forms.
   */
  class AuthProvider {
    var users: seq<StoredUser>
    var user: Option<User>
    var error: Option<string>

    /** The provider over what storage holds, with no error yet. */
    constructor (users: seq<StoredUser>, user: Option<User>)
      ensures this.users == users && this.user == user && error == None
    {
      this.users := users;
      this.user := user;
      error := None;
    }

    /** `!!user`. */
    predicate IsAuthenticated()
      reads this
    {
      user.Some?
    }

    /** `login`: on success the user is signed in; on failure the message is shown and nothing else changes. */
    method Login(credentials: Credentials, now: int) returns (ok: bool)
      modifies this
      ensures users == old(users)
      ensures ok <==> LoginOutcome(users, credentials, now).Success?
      ensures ok ==> user == Some(LoginOutcome(users, credentials, now).value) && error == None
      ensures !ok ==> user == old(user) && error == Some(LoginOutcome(users, credentials, now).error)
    {
      error := None;
      var outcome := LoginOutcome(users, credentials, now);
      match outcome
      case Success(u) =>
        user := Some(u);
        ok := true;
      case Failure(message) =>
        error := Some(message);
        ok := false;
    }

    /**
     * `register`: when a check fails, its message is shown and neither the
     * table nor the signed-in user changes; otherwise the account is stored
     * with its password and signed in without it.
     */
    method Register(data: RegisterData, id: string, now: int) returns (ok: bool)
      modifies this
      ensures ok <==> RegisterError(old(users), data).None?
      ensures !ok ==> users == old(users) && user == old(user) && error == RegisterError(old(users), data)
      ensures ok ==> users == Registered(old(users), data, id, now) && user == Some(NewUser(data, id, now)) && error == None
      ensures UniqueAccounts(old(users)) ==> UniqueAccounts(users)
    {
      error := None;
      var failure := RegisterError(users, data);
      if failure.Some? {
        error := failure;
        return false;
      }
      if UniqueAccounts(users) {
        RegisterKeepsAccountsUnique(users, data, id, now);
      }
      users := Registered(users, data, id, now);
      user := Some(NewUser(data, id, now));
      ok := true;
    }

    /** `logout`: no user and no error; the table stays. */
    method Logout()
      modifies this
      ensures user == None && error == None && users == old(users)
    {
      user := None;
      error := None;
    }

    /** `clearError`: the error goes; the table and the signed-in user stay. */
    method ClearError()
      modifies this
      ensures error == None && users == old(users) && user == old(user)
    {
      error := None;
    }

    /**
     * `updateProfile`: refused when signed out; otherwise the update is
     * merged into the signed-in user and into its stored row.
     */
    method UpdateProfile(patch: UserPatch) returns (ok: bool)
      modifies this
      ensures old(user).None? ==> !ok && users == old(users) && user == old(user) && error == old(error)
      ensures old(user).Some? ==>
        && ok && user == Some(ApplyPatch(old(user).value, patch))
        && users == UpdateStored(old(users), old(user).value.id, patch) && error == None
    {
      if user.None? {
        return false;
      }
      error := None;
      var current := user.value;
      user := Some(ApplyPatch(current, patch));
      users := UpdateStored(users, current.id, patch);
      ok := true;
    }

    /**
     * `changePassword`: refused when signed out; `原密码错误` unless the
     * user's stored row carries the old password; otherwise only that row's
     * password changes.
     */
    method ChangePassword(oldPassword: string, newPassword: string) returns (ok: bool)
      modifies this
      ensures user == old(user)
      ensures old(user).None? ==> !ok && users == old(users) && error == old(error)
      ensures old(user).Some? ==>
        var outcome := PasswordChange(old(users), old(user).value.id, oldPassword, newPassword);
        && (ok <==> outcome.Success?)
        && (ok ==> users == outcome.value && error == None)
        && (!ok ==> users == old(users) && error == Some(WRONG_OLD_PASSWORD))
    {
      if user.None? {
        return false;
      }
      error := None;
      var outcome := PasswordChange(users, user.value.id, oldPassword, newPassword);
      match outcome
      case Success(changed) =>
        users := changed;
        ok := true;
      case Failure(message) =>
        error := Some(message);
        ok := false;
    }
  }
}
