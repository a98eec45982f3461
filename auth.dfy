/**
 * The users table rules of WeThrift/src/lib/auth.ts: the role to permission table behind
 * `hasPermission`, the two-factor fields `toggle2FA` writes and `verify2FA` reads, and the
 * defaults `createUserProfile` stores for a new profile.
 */
module Auth {
  import opened Wrappers

  /** The profile fields a sign-up passes on; any of them may be absent. */
  datatype ProfileData = ProfileData(
    email: Option<string>,
    phone: Option<string>,
    firstName: Option<string>,
    lastName: Option<string>,
    dateOfBirth: Option<string>,
    address: Option<string>,
    city: Option<string>,
    state: Option<string>,
    country: Option<string>,
    postalCode: Option<string>)

  /**
   * A `users` row. `twoFactorEnabled` is `None` while no update has written it (the insert of
   * `createUserProfile` leaves it to the column default).
   */
  datatype UserRow = UserRow(
    id: string,
    profile: ProfileData,
    role: string,
    isActive: bool,
    isVerified: bool,
    kycStatus: string,
    twoFactorEnabled: Option<bool>,
    twoFactorSecret: Option<string>,
    updatedAt: Option<string>)

  datatype AuthError = NoRow | DuplicateId

  function Message(e: AuthError): string {
    match e
    case NoRow => "JSON object requested, multiple (or no) rows returned"
    case DuplicateId => "duplicate key value violates unique constraint"
  }

  /** JavaScript truthiness of an optional string. */
  predicate Filled(s: Option<string>) {
    s.Some? && |s.value| > 0
  }

  /** The row `createUserProfile` inserts. */
  function NewProfile(userId: string, data: ProfileData): (u: UserRow)
    ensures u.id == userId && u.profile == data
    ensures u.role == "user" && u.isActive && !u.isVerified && u.kycStatus == "pending"
  {
    UserRow(userId, data, "user", true, false, "pending", None, None, None)
  }

  /** The permission list of each known role; any other role has none. */
  function Permissions(role: string): seq<string> {
    if role == "user" then ["read_own_data", "create_group", "join_group"]
    else if role == "group_admin" then
      ["read_own_data", "create_group", "join_group", "manage_group", "approve_members", "manage_savings"]
    else if role == "admin" then
      ["read_own_data", "create_group", "join_group", "manage_group", "approve_members", "manage_savings",
       "manage_users", "manage_system"]
    else if role == "super_admin" then ["*"]
    else []
  }

  const KnownRoles: set<string> := {"user", "group_admin", "admin", "super_admin"}

  /** The check of `hasPermission` once the role is known: listed, or the wildcard. */
  predicate Allowed(role: string, permission: string) {
    permission in Permissions(role) || "*" in Permissions(role)
  }

  /** Each role holds every permission of the role below it, and super_admin holds all. */
  lemma {:induction false} RolesNest(permission: string)
    ensures Allowed("user", permission) ==> Allowed("group_admin", permission)
    ensures Allowed("group_admin", permission) ==> Allowed("admin", permission)
    ensures Allowed("super_admin", permission)
  {
    assert "*" in Permissions("super_admin");
  }

  /** The exact sets: a plain user holds three permissions, an admin eight. */
  lemma RoleSets(permission: string)
    ensures Allowed("user", permission) <==> permission in {"read_own_data", "create_group", "join_group"}
    ensures Allowed("group_admin", permission) <==>
      permission in {"read_own_data", "create_group", "join_group", "manage_group", "approve_members", "manage_savings"}
    ensures Allowed("admin", permission) <==>
      permission in {"read_own_data", "create_group", "join_group", "manage_group", "approve_members", "manage_savings",
                     "manage_users", "manage_system"}
  {
  }

  /** A role outside the table grants nothing. */
  lemma UnknownRoleDenied(role: string, permission: string)
    requires role !in KnownRoles
    ensures !Allowed(role, permission)
  {
  }

  /** The row after `toggle2FA`: the flag is always written; the secret is stored, cleared or kept. */
  function Toggled(u: UserRow, enabled: bool, secret: Option<string>, at: string): (r: UserRow)
    ensures r.twoFactorEnabled == Some(enabled) && r.updatedAt == Some(at)
    ensures enabled && Filled(secret) ==> r.twoFactorSecret == secret
    ensures !enabled ==> r.twoFactorSecret.None?
    ensures enabled && !Filled(secret) ==> r.twoFactorSecret == u.twoFactorSecret
    ensures r.(twoFactorEnabled := u.twoFactorEnabled, twoFactorSecret := u.twoFactorSecret, updatedAt := u.updatedAt) == u
  {
    var base := u.(twoFactorEnabled := Some(enabled), updatedAt := Some(at));
    if enabled && Filled(secret) then base.(twoFactorSecret := secret)
    else if !enabled then base.(twoFactorSecret := None)
    else base
  }

  /** `verify2FA`'s placeholder answer for a found row: true exactly when a secret is stored. */
  predicate SecretAccepted(u: UserRow) {
    Filled(u.twoFactorSecret)
  }

  /** Disabling 2FA makes later checks fail; enabling with a secret makes them pass. */
  lemma ToggleThenVerify(u: UserRow, secret: Option<string>, at: string)
    ensures !SecretAccepted(Toggled(u, false, secret, at))
    ensures Filled(secret) ==> SecretAccepted(Toggled(u, true, secret, at))
    ensures !Filled(secret) ==> (SecretAccepted(Toggled(u, true, secret, at)) <==> SecretAccepted(u))
  {
  }

  class UserTable {
    var users: map<string, UserRow>

    ghost predicate Valid()
      reads this
    {
      forall id :: id in users ==> users[id].id == id
    }

    constructor ()
      ensures users == map[] && Valid()
    {
      users := map[];
    }

    /** `createUserProfile`: insert the new profile; an existing id is a duplicate-key error. */
    method CreateUserProfile(userId: string, data: ProfileData) returns (res: Result<UserRow, AuthError>)
      requires Valid()
      modifies this
      ensures Valid()
      ensures userId in old(users) ==> res == Err(DuplicateId) && users == old(users)
      ensures userId !in old(users) ==> res == Ok(NewProfile(userId, data)) && users == old(users)[userId := res.value]
    {
      if userId in users {
        return Err(DuplicateId);
      }
      var u := NewProfile(userId, data);
      users := users[userId := u];
      res := Ok(u);
    }

    /**
     * `hasPermission`: false when the role lookup fails or finds no user, otherwise the
     * table check on the user's role.
     */
    function HasPermission(userId: string, permission: string, lookupFails: bool): (r: bool)
      reads this
      ensures r ==> !lookupFails && userId in users && users[userId].role in KnownRoles
      ensures !lookupFails && userId in users && users[userId].role == "super_admin" ==> r
      ensures !lookupFails && userId in users && users[userId].role == "user" ==>
        (r <==> permission in {"read_own_data", "create_group", "join_group"})
    {
      !lookupFails && userId in users && Allowed(users[userId].role, permission)
    }

    /** `toggle2FA`: the updates object is built field by field and written over the row. */
    method Toggle2FA(userId: string, enabled: bool, secret: Option<string>, at: string) returns (res: Result<UserRow, AuthError>)
      requires Valid()
      modifies this
      ensures Valid()
      ensures userId !in old(users) ==> res == Err(NoRow) && users == old(users)
      ensures userId in old(users) ==>
        res == Ok(Toggled(old(users)[userId], enabled, secret, at)) && users == old(users)[userId := res.value]
    {
      if userId !in users {
        return Err(NoRow);
      }
      var u := users[userId];
      u := u.(twoFactorEnabled := Some(enabled), updatedAt := Some(at));
      if enabled && Filled(secret) {
        u := u.(twoFactorSecret := secret);
      } else if !enabled {
        u := u.(twoFactorSecret := None);
      }
      users := users[userId := u];
      res := Ok(u);
    }

    /** `verify2FA`: false on a failed lookup or without a stored secret; the token is not checked. */
    function Verify2FA(userId: string, token: string, lookupFails: bool): (r: bool)
      reads this
      ensures r <==> !lookupFails && userId in users && users[userId].twoFactorSecret.Some? && users[userId].twoFactorSecret.value != ""
    {
      !lookupFails && userId in users && SecretAccepted(users[userId])
    }
  }
}
