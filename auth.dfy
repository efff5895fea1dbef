/** The auth configuration: the `authorized` guard of the staff area, the
    credential check of `authorize` (the user lookup and the password
    comparison are function parameters), and the `session` callback that
    copies a user's memberships onto the session. */
module Auth {
  import opened Wrappers
  import opened JsText
  import opened Permissions
  import opened Authorization

  // ---- authorized: the staff-area guard ----

  predicate IsStaffArea(pathname: string) {
    StartsWith(pathname, "/admin") || StartsWith(pathname, "/kitchen") || StartsWith(pathname, "/staff")
  }

  /** `authorized({ auth, request })` */
  function Authorized(pathname: string, auth: Option<Session>): (ok: bool)
    ensures !IsStaffArea(pathname) ==> ok
    ensures IsStaffArea(pathname) ==> (ok <==> UserOf(auth).Some?)
  {
    if !IsStaffArea(pathname) then true else UserOf(auth).Some?
  }

  /** The sign-in page lies inside the staff area by prefix, so it too needs a
      user; so does every path under /admin and /kitchen, and the public
      order pages never do. */
  lemma StaffPrefixes(auth: Option<Session>, rest: string)
    ensures Authorized("/staff/login", auth) <==> UserOf(auth).Some?
    ensures Authorized("/admin" + rest, auth) <==> UserOf(auth).Some?
    ensures Authorized("/kitchen" + rest, auth) <==> UserOf(auth).Some?
    ensures Authorized("/order/" + rest, auth)
  {
    assert ("/staff/login")[..6] == "/staff";
    assert ("/admin" + rest)[..6] == "/admin";
    assert ("/kitchen" + rest)[..8] == "/kitchen";
    var p := "/order/" + rest;
    assert p[1] == 'o';
  }

  // ---- authorize: credentials ----

  /** The submitted form; either field may be missing. */
  datatype Credentials = Credentials(email: Option<string>, password: Option<string>)

  /** A stored user row. */
  datatype UserRow = UserRow(id: string, email: string, name: Option<string>, passwordHash: Option<string>)

  /** What `authorize` returns for a signed-in user. */
  datatype AuthUser = AuthUser(id: string, email: string, name: Option<string>)

  /** `email?.toString().toLowerCase().trim()`, with a missing email read as "". */
  function NormalizedEmail(c: Credentials): (e: string)
    ensures e == [] || (!IsSpace(e[0]) && !IsSpace(e[|e| - 1]))
    ensures NoCapital(e)
  {
    var lower := ToLower(c.email.GetOr(""));
    TrimKeepsNoCapital(lower);
    Trim(lower)
  }

  /** `authorize(credentials)`: `findUser` is the lookup by unique email and
      `compare` the password check against a stored hash. */
  function Authorize(c: Credentials, findUser: string -> Option<UserRow>, compare: (string, string) -> bool): (r: Option<AuthUser>)
    ensures r.Some? ==> NormalizedEmail(c) != "" && c.password.GetOr("") != ""
  {
    var email, password := NormalizedEmail(c), c.password.GetOr("");
    if email == "" || password == "" then None
    else match findUser(email)
      case None => None
      case Some(user) =>
        if user.passwordHash.None? || user.passwordHash.value == "" then None
        else if !compare(password, user.passwordHash.value) then None
        else Some(AuthUser(user.id, user.email, user.name))
  }

  /** An empty email or password is refused without consulting the store or
      the hash comparison. */
  lemma EmptyCredentialsNeverLookedUp(c: Credentials, f1: string -> Option<UserRow>, f2: string -> Option<UserRow>,
                                      k1: (string, string) -> bool, k2: (string, string) -> bool)
    requires NormalizedEmail(c) == "" || c.password.GetOr("") == ""
    ensures Authorize(c, f1, k1).None? && Authorize(c, f2, k2).None?
  {
  }

  /** The store is only asked about the normalised email, so two lookups
      that agree on it give the same answer. */
  lemma LookupByNormalizedEmail(c: Credentials, f1: string -> Option<UserRow>, f2: string -> Option<UserRow>,
                                compare: (string, string) -> bool)
    requires f1(NormalizedEmail(c)) == f2(NormalizedEmail(c))
    ensures Authorize(c, f1, compare) == Authorize(c, f2, compare)
  {
  }

  /** Sign-in succeeds exactly when the user exists, has a non-empty hash the
      password matches, and both fields are non-empty; the result is the
      user's id, email and name. */
  lemma AuthorizeAccepts(c: Credentials, findUser: string -> Option<UserRow>, compare: (string, string) -> bool)
    ensures var email, password := NormalizedEmail(c), c.password.GetOr("");
      Authorize(c, findUser, compare).Some? <==>
        && email != "" && password != ""
        && findUser(email).Some?
        && findUser(email).value.passwordHash.Some? && findUser(email).value.passwordHash.value != ""
        && compare(password, findUser(email).value.passwordHash.value)
    ensures Authorize(c, findUser, compare).Some? ==>
      var u := findUser(NormalizedEmail(c)).value;
      Authorize(c, findUser, compare).value == AuthUser(u.id, u.email, u.name)
  {
    var email, password := NormalizedEmail(c), c.password.GetOr("");
    if email != "" && password != "" && findUser(email).Some? {
      var user := findUser(email).value;
      assert Authorize(c, findUser, compare) ==
        if user.passwordHash.None? || user.passwordHash.value == "" then None
        else if !compare(password, user.passwordHash.value) then None
        else Some(AuthUser(user.id, user.email, user.name));
    }
  }

  // ---- the session callback ----

  /** One membership row as loaded with its role and the role's permissions. */
  datatype RoleRow = RoleRow(key: string, permissionKeys: seq<string>)
  datatype StaffRecord = StaffRecord(restaurantId: string, role: RoleRow, isOwner: bool)

  /** `staff.map(record => ({ restaurantId, role: role.key, permissions, isOwner }))` */
  function Project(staff: seq<StaffRecord>): (rs: seq<RestaurantAccess>)
    ensures |rs| == |staff|
    ensures forall i :: 0 <= i < |staff| ==>
      rs[i] == RestaurantAccess(staff[i].restaurantId, staff[i].role.key, staff[i].role.permissionKeys, staff[i].isOwner)
  {
    if staff == [] then []
    else [RestaurantAccess(staff[0].restaurantId, staff[0].role.key, staff[0].role.permissionKeys, staff[0].isOwner)]
         + Project(staff[1..])
  }

  /** The session object the callback fills in. */
  class LiveSession {
    var user: Option<SessionUser>

    constructor (user: Option<SessionUser>)
      ensures this.user == user
    {
      this.user := user;
    }

    function Snapshot(): Session
      reads this
    {
      Session(user)
    }

    /** `session({ session, user })`: a session without a user is returned as
        it is; otherwise the user's id and memberships are written onto it. */
    method Populate(userId: string, staff: seq<StaffRecord>)
      modifies this
      ensures old(user).None? ==> user == old(user)
      ensures old(user).Some? ==>
        user == Some(old(user).value.(id := userId, restaurants := Some(Project(staff))))
    {
      if user.None? {
        return;
      }
      user := Some(user.value.(id := userId, restaurants := Some(Project(staff))));
    }
  }

  /** After the callback, access to a restaurant is what the user's first
      membership for it grants through its role: the role's permission keys,
      with owner status playing no part. */
  lemma {:induction false} MembershipDecidesAccess(staff: seq<StaffRecord>, restaurantId: string, permission: string)
    ensures HasRestaurantPermission(Some(Project(staff)), restaurantId, permission) <==>
      exists i :: && 0 <= i < |staff| && staff[i].restaurantId == restaurantId
                  && (forall j :: 0 <= j < i ==> staff[j].restaurantId != restaurantId)
                  && permission in staff[i].role.permissionKeys
  {
    var rs := Project(staff);
    match FindRestaurant(rs, restaurantId)
    case None =>
      forall i | 0 <= i < |staff|
        ensures staff[i].restaurantId != restaurantId
      {
        assert rs[i].restaurantId == staff[i].restaurantId;
      }
    case Some(k) =>
      assert rs[k] == RestaurantAccess(staff[k].restaurantId, staff[k].role.key, staff[k].role.permissionKeys, staff[k].isOwner);
      forall j | 0 <= j < k
        ensures staff[j].restaurantId != restaurantId
      {
        assert rs[j].restaurantId == staff[j].restaurantId;
      }
      forall i | && 0 <= i < |staff| && staff[i].restaurantId == restaurantId
                 && (forall j :: 0 <= j < i ==> staff[j].restaurantId != restaurantId)
        ensures i == k
      {
      }
  }

  /** A seeded role's membership lets its holder do exactly what the role
      table lists, at that restaurant. */
  lemma SeededRoleGrants(restaurantId: string, role: Role, isOwner: bool, others: seq<StaffRecord>, permission: string)
    ensures var staff := [StaffRecord(restaurantId, RoleRow(RoleKey(role), RolePermissions(role)), isOwner)] + others;
      HasRestaurantPermission(Some(Project(staff)), restaurantId, permission) <==> permission in RolePermissions(role)
  {
    var staff := [StaffRecord(restaurantId, RoleRow(RoleKey(role), RolePermissions(role)), isOwner)] + others;
    assert Project(staff)[0].restaurantId == restaurantId;
  }
}
