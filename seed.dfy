/** The seed script: its permission and role tables, the slug it derives
    from the restaurant name, and `main`, which upserts the tables and,
    when an admin email and password are configured, the restaurant, the
    admin user and the admin's owner membership. The environment and the
    password hash are parameters. */
module Seed {
  import opened Wrappers
  import opened JsText
  import opened Permissions

  // ---- tables ----

  datatype PermissionSeed = PermissionSeed(key: string, description: string)
  datatype RoleSeed = RoleSeed(key: string, name: string, permissions: seq<string>)

  const SeedPermissions: seq<PermissionSeed> := [
    PermissionSeed("orders:view", "View orders"),
    PermissionSeed("orders:manage", "Manage orders"),
    PermissionSeed("menu:manage", "Manage menu"),
    PermissionSeed("billing:view", "View billing"),
    PermissionSeed("billing:manage", "Manage billing"),
    PermissionSeed("users:manage", "Manage users"),
    PermissionSeed("settings:manage", "Manage settings")
  ]

  function Keys(ps: seq<PermissionSeed>): (ks: seq<string>)
    ensures |ks| == |ps| && forall i :: 0 <= i < |ps| ==> ks[i] == ps[i].key
  {
    if ps == [] then [] else [ps[0].key] + Keys(ps[1..])
  }

  const SeedRoles: seq<RoleSeed> := [
    RoleSeed("admin", "Admin", Keys(SeedPermissions)),
    RoleSeed("kitchen", "Kitchen", ["orders:view", "orders:manage"]),
    RoleSeed("cashier", "Cashier", ["orders:view", "orders:manage", "billing:view", "billing:manage"]),
    RoleSeed("staff", "Staff", ["orders:view"])
  ]

  /** The seeded keys are the application's permission keys, in the same
      order; and each seeded role carries the key and exactly the permission
      list of the application's role table, the admin role every key. */
  lemma SeedTablesAgree()
    ensures Keys(SeedPermissions) == AllPermissions
    ensures |SeedRoles| == |AllRoles|
    ensures forall i :: 0 <= i < |SeedRoles| ==>
      SeedRoles[i].key == RoleKey(AllRoles[i]) && SeedRoles[i].permissions == RolePermissions(AllRoles[i])
    ensures forall p :: p in AllPermissions ==> p in SeedRoles[0].permissions
  {
  }

  // ---- the slug ----

  predicate IsSlugChar(c: char) {
    'a' <= c <= 'z' || '0' <= c <= '9'
  }

  /** `.replace(/[^a-z0-9]+/g, "-")`: every maximal run of other characters
      becomes one dash; `inRun` says the previous character was such a one. */
  function Dashify(s: string, inRun: bool): string {
    if s == [] then []
    else if IsSlugChar(s[0]) then [s[0]] + Dashify(s[1..], false)
    else if inRun then Dashify(s[1..], true)
    else "-" + Dashify(s[1..], true)
  }

  /** `.replace(/(^-|-$)+/g, "")` on a string without "--": one leading and
      one trailing dash are removed. */
  function TrimDashes(s: string): string {
    var a := if s != [] && s[0] == '-' then s[1..] else s;
    if a != [] && a[|a| - 1] == '-' then a[..|a| - 1] else a
  }

  function Slug(name: string): string {
    TrimDashes(Dashify(ToLower(name), false))
  }

  predicate SlugAlphabet(s: string) {
    forall i :: 0 <= i < |s| ==> IsSlugChar(s[i]) || s[i] == '-'
  }

  predicate NoDoubleDash(s: string) {
    forall i :: 0 <= i < |s| - 1 ==> !(s[i] == '-' && s[i + 1] == '-')
  }

  /** The first replacement leaves only slug characters and dashes, never
      two dashes in a row, and no dash right after a run it already replaced. */
  lemma {:induction false} DashifyShape(s: string, inRun: bool)
    ensures SlugAlphabet(Dashify(s, inRun)) && NoDoubleDash(Dashify(s, inRun))
    ensures inRun && Dashify(s, inRun) != [] ==> Dashify(s, inRun)[0] != '-'
  {
    if s != [] {
      DashifyShape(s[1..], !IsSlugChar(s[0]));
    }
  }

  /** The second replacement keeps that shape and leaves no dash at either end. */
  lemma {:induction false} TrimDashesShape(s: string)
    requires SlugAlphabet(s) && NoDoubleDash(s)
    ensures var r := TrimDashes(s);
      && SlugAlphabet(r) && NoDoubleDash(r)
      && (r == [] || (r[0] != '-' && r[|r| - 1] != '-'))
  {
    var a := if s != [] && s[0] == '-' then s[1..] else s;
    assert SlugAlphabet(a) && NoDoubleDash(a);
  }

  /** The slug holds only a–z, 0–9 and '-', never "--", and no dash at either end. */
  lemma SlugShape(name: string)
    ensures var r := Slug(name);
      && SlugAlphabet(r) && NoDoubleDash(r)
      && (r == [] || (r[0] != '-' && r[|r| - 1] != '-'))
  {
    DashifyShape(ToLower(name), false);
    TrimDashesShape(Dashify(ToLower(name), false));
  }

  /** A run of slug characters is copied as it is. */
  lemma {:induction false} DashifyKeeps(s: string, t: string, inRun: bool)
    requires forall i :: 0 <= i < |s| ==> IsSlugChar(s[i])
    requires s != [] || !inRun
    ensures Dashify(s + t, inRun) == s + Dashify(t, false)
  {
    if s != [] {
      assert (s + t)[0] == s[0] && (s + t)[1..] == s[1..] + t;
      DashifyKeeps(s[1..], t, false);
      assert s == [s[0]] + s[1..];
    } else {
      assert s + t == t;
    }
  }

  lemma LowerDefaultName()
    ensures ToLower(DefaultRestaurantName) == "demo" + (" " + "restaurant")
  {
    var low := ToLower(DefaultRestaurantName);
    forall i | 0 <= i < 15
      ensures low[i] == ("demo" + (" " + "restaurant"))[i]
    {
    }
  }

  /** A blank before a word becomes one dash. */
  lemma DashifyBlankWord(r: string)
    requires r != [] && forall i :: 0 <= i < |r| ==> IsSlugChar(r[i])
    ensures Dashify(" " + r, false) == "-" + r
  {
    var t := " " + r;
    assert t[0] == ' ' && t[1..] == r;
    DashifyKeeps(r, [], true);
    assert r + [] == r;
  }

  /** Two words separated by a blank are joined by one dash. */
  lemma DashifyTwoWords(a: string, b: string)
    requires a != [] && forall i :: 0 <= i < |a| ==> IsSlugChar(a[i])
    requires b != [] && forall i :: 0 <= i < |b| ==> IsSlugChar(b[i])
    ensures Dashify(a + (" " + b), false) == a + ("-" + b)
  {
    DashifyBlankWord(b);
    DashifyKeeps(a, " " + b, false);
  }

  /** The default restaurant name gives the default slug. */
  lemma DefaultSlug()
    ensures Slug(DefaultRestaurantName) == "demo-restaurant"
  {
    LowerDefaultName();
    DashifyTwoWords("demo", "restaurant");
    assert "demo" + ("-" + "restaurant") == "demo-restaurant";
    var d := "demo-restaurant";
    assert d[0] == 'd' && d[|d| - 1] == 't';
  }

  // ---- main ----

  const DefaultRestaurantName := "Demo Restaurant"

  /** `permissions` as key → description, later entries overriding. */
  function PermissionMap(ps: seq<PermissionSeed>): map<string, string> {
    if ps == [] then map[] else PermissionMap(ps[..|ps| - 1])[ps[|ps| - 1].key := ps[|ps| - 1].description]
  }

  function RoleNameMap(rs: seq<RoleSeed>): map<string, string> {
    if rs == [] then map[] else RoleNameMap(rs[..|rs| - 1])[rs[|rs| - 1].key := rs[|rs| - 1].name]
  }

  /** The (role key, permission key) links of the listed roles. */
  function Grants(rs: seq<RoleSeed>): set<(string, string)> {
    set i, p | 0 <= i < |rs| && p in rs[i].permissions :: (rs[i].key, p)
  }

  function RoleGrants(r: RoleSeed, n: nat): set<(string, string)>
    requires n <= |r.permissions|
  {
    set p | p in r.permissions[..n] :: (r.key, p)
  }

  lemma GrantsStep(rs: seq<RoleSeed>, i: nat)
    requires i < |rs|
    ensures Grants(rs[..i + 1]) == Grants(rs[..i]) + RoleGrants(rs[i], |rs[i].permissions|)
  {
    assert rs[i].permissions[..|rs[i].permissions|] == rs[i].permissions;
    forall g | g in Grants(rs[..i + 1])
      ensures g in Grants(rs[..i]) + RoleGrants(rs[i], |rs[i].permissions|)
    {
      var k, p :| 0 <= k < i + 1 && p in rs[..i + 1][k].permissions && g == (rs[..i + 1][k].key, p);
      if k < i {
        assert rs[..i][k] == rs[k];
      }
    }
    forall g | g in Grants(rs[..i])
      ensures g in Grants(rs[..i + 1])
    {
      var k, p :| 0 <= k < i && p in rs[..i][k].permissions && g == (rs[..i][k].key, p);
      assert rs[..i + 1][k] == rs[k];
    }
    forall g | g in RoleGrants(rs[i], |rs[i].permissions|)
      ensures g in Grants(rs[..i + 1])
    {
      var p :| p in rs[i].permissions && g == (rs[i].key, p);
      assert rs[..i + 1][i] == rs[i];
    }
  }

  lemma {:induction false} PermissionMapKeys(ps: seq<PermissionSeed>)
    ensures PermissionMap(ps).Keys == set p | p in ps :: p.key
  {
    if ps != [] {
      PermissionMapKeys(ps[..|ps| - 1]);
      assert ps == ps[..|ps| - 1] + [ps[|ps| - 1]];
    }
  }

  lemma {:induction false} RoleNameMapKeys(rs: seq<RoleSeed>)
    ensures RoleNameMap(rs).Keys == set r | r in rs :: r.key
  {
    if rs != [] {
      RoleNameMapKeys(rs[..|rs| - 1]);
      assert rs == rs[..|rs| - 1] + [rs[|rs| - 1]];
    }
  }

  /** Every permission a seeded role lists is a seeded permission, and the
      admin role is among the seeded roles. */
  lemma SeedRowsExist()
    ensures forall i, p :: 0 <= i < |SeedRoles| && p in SeedRoles[i].permissions ==> p in PermissionMap(SeedPermissions)
    ensures "admin" in RoleNameMap(SeedRoles)
  {
    SeedTablesAgree();
    PermissionMapKeys(SeedPermissions);
    RoleNameMapKeys(SeedRoles);
    assert SeedRoles[0] in SeedRoles;
    forall i, p | 0 <= i < |SeedRoles| && p in SeedRoles[i].permissions
      ensures p in PermissionMap(SeedPermissions)
    {
      var k :| 0 <= k < |AllPermissions| && AllPermissions[k] == p;
      assert SeedPermissions[k] in SeedPermissions;
    }
  }

  /** Every seeded link is a role of the application's table paired with one
      of that role's permissions, and every such pair is seeded. */
  lemma SeededGrantsAreTheTable(roleKey: string, permission: string)
    ensures (roleKey, permission) in Grants(SeedRoles) <==>
      exists role :: role in AllRoles && roleKey == RoleKey(role) && permission in RolePermissions(role)
  {
    SeedTablesAgree();
    GrantsOfTable(SeedRoles, AllRoles, roleKey, permission);
  }

  /** Role seeds that copy a list of roles link exactly those roles' permissions. */
  lemma GrantsOfTable(rs: seq<RoleSeed>, roles: seq<Role>, roleKey: string, permission: string)
    requires |rs| == |roles|
    requires forall i :: 0 <= i < |rs| ==> rs[i].key == RoleKey(roles[i]) && rs[i].permissions == RolePermissions(roles[i])
    ensures (roleKey, permission) in Grants(rs) <==>
      exists role :: role in roles && roleKey == RoleKey(role) && permission in RolePermissions(role)
  {
    if (roleKey, permission) in Grants(rs) {
      var i, p :| 0 <= i < |rs| && p in rs[i].permissions && (roleKey, permission) == (rs[i].key, p);
      assert roles[i] in roles && roleKey == RoleKey(roles[i]) && permission in RolePermissions(roles[i]);
    }
    if exists role :: role in roles && roleKey == RoleKey(role) && permission in RolePermissions(role) {
      var role :| role in roles && roleKey == RoleKey(role) && permission in RolePermissions(role);
      var i :| 0 <= i < |roles| && roles[i] == role;
      assert rs[i].key == roleKey && permission in rs[i].permissions;
      assert (rs[i].key, permission) in Grants(rs);
    }
  }

  /** Every permission a role lists has a row in `permissions`. */
  predicate RowsExist(rs: seq<RoleSeed>, permissions: map<string, string>) {
    forall i, p :: 0 <= i < |rs| && p in rs[i].permissions ==> p in permissions
  }

  /** The first loop of `main`, over `ps`: every permission row is upserted
      with its description. */
  method UpsertPermissions(table: map<string, string>, ps: seq<PermissionSeed>) returns (r: map<string, string>)
    ensures r == table + PermissionMap(ps)
  {
    r := table;
    for i := 0 to |ps|
      invariant r == table + PermissionMap(ps[..i])
    {
      assert ps[..i + 1][..i] == ps[..i];
      r := r[ps[i].key := ps[i].description];
    }
    assert ps[..|ps|] == ps;
  }

  /** The inner loop: one role's links, for each of its permissions found
      in `permissions`. */
  method LinkRole(links: set<(string, string)>, permissions: map<string, string>, role: RoleSeed)
    returns (r: set<(string, string)>)
    requires forall p :: p in role.permissions ==> p in permissions
    ensures r == links + RoleGrants(role, |role.permissions|)
  {
    r := links;
    for j := 0 to |role.permissions|
      invariant r == links + RoleGrants(role, j)
    {
      assert role.permissions[..j + 1] == role.permissions[..j] + [role.permissions[j]];
      if role.permissions[j] in permissions {
        r := r + {(role.key, role.permissions[j])};
      }
    }
  }

  /** The second loop, over `rs`: every role is upserted with its name and
      linked to its permissions. */
  method UpsertRoles(roles: map<string, string>, links: set<(string, string)>, permissions: map<string, string>,
                     rs: seq<RoleSeed>)
    returns (roles': map<string, string>, links': set<(string, string)>)
    requires RowsExist(rs, permissions)
    ensures roles' == roles + RoleNameMap(rs)
    ensures links' == links + Grants(rs)
  {
    roles', links' := roles, links;
    for i := 0 to |rs|
      invariant roles' == roles + RoleNameMap(rs[..i])
      invariant links' == links + Grants(rs[..i])
    {
      var role := rs[i];
      assert rs[..i + 1][..i] == rs[..i] && rs[..i + 1][i] == role;
      GrantsStep(rs, i);
      assert forall p :: p in role.permissions ==> p in permissions;
      roles' := roles'[role.key := role.name];
      links' := LinkRole(links', permissions, role);
      assert links' == (links + Grants(rs[..i])) + RoleGrants(role, |role.permissions|);
    }
    assert rs[..|rs|] == rs;
  }

  /** A membership row and a user row of the seeded store. */
  datatype Membership = Membership(roleKey: string, isOwner: bool)
  datatype UserEntry = UserEntry(name: string, passwordHash: string)

  class SeedDb {
    var permissions: map<string, string>
    var roles: map<string, string>
    var rolePermissions: set<(string, string)>
    var restaurants: map<string, string>
    var users: map<string, UserEntry>
    var restaurantUsers: map<(string, string), Membership>

    constructor ()
      ensures permissions == map[] && roles == map[] && rolePermissions == {}
      ensures restaurants == map[] && users == map[] && restaurantUsers == map[]
    {
      permissions, roles, rolePermissions := map[], map[], {};
      restaurants, users, restaurantUsers := map[], map[], map[];
    }

    /** `main()`: `adminEmail`, `adminPassword` and `restaurantName` are the
        environment, `hash` the password hash. */
    method RunSeed(adminEmail: Option<string>, adminPassword: Option<string>, restaurantName: Option<string>,
                   hash: string -> string)
      modifies this
      ensures permissions == old(permissions) + PermissionMap(SeedPermissions)
      ensures roles == old(roles) + RoleNameMap(SeedRoles)
      ensures rolePermissions == old(rolePermissions) + Grants(SeedRoles)
      ensures adminEmail.GetOr("") == "" || adminPassword.GetOr("") == "" ==>
        restaurants == old(restaurants) && users == old(users) && restaurantUsers == old(restaurantUsers)
      ensures adminEmail.GetOr("") != "" && adminPassword.GetOr("") != "" ==>
        var name := restaurantName.GetOr(DefaultRestaurantName);
        && restaurants == old(restaurants)[Slug(name) := name]
        && users == old(users)[adminEmail.value := UserEntry("Admin", hash(adminPassword.value))]
        && restaurantUsers == old(restaurantUsers)[(Slug(name), adminEmail.value) := Membership("admin", true)]
    {
      SeedRowsExist();
      SeedTables(SeedPermissions, SeedRoles);
      SeedAdmin(adminEmail, adminPassword, restaurantName, hash);
    }

    /** The two loops of `main`: the permission rows of `ps`, then the role
        rows of `rs` and their links. */
    method SeedTables(ps: seq<PermissionSeed>, rs: seq<RoleSeed>)
      requires RowsExist(rs, PermissionMap(ps))
      modifies this
      ensures permissions == old(permissions) + PermissionMap(ps)
      ensures roles == old(roles) + RoleNameMap(rs)
      ensures rolePermissions == old(rolePermissions) + Grants(rs)
      ensures restaurants == old(restaurants) && users == old(users) && restaurantUsers == old(restaurantUsers)
    {
      permissions := UpsertPermissions(permissions, ps);
      roles, rolePermissions := UpsertRoles(roles, rolePermissions, permissions, rs);
    }

    /** The rest of `main`: without both admin variables nothing more is
        written; otherwise the restaurant is upserted by slug, the admin
        user by email, and, when the admin role exists, the owner membership. */
    method SeedAdmin(adminEmail: Option<string>, adminPassword: Option<string>, restaurantName: Option<string>,
                     hash: string -> string)
      modifies this
      ensures permissions == old(permissions) && roles == old(roles) && rolePermissions == old(rolePermissions)
      ensures adminEmail.GetOr("") == "" || adminPassword.GetOr("") == "" ==>
        restaurants == old(restaurants) && users == old(users) && restaurantUsers == old(restaurantUsers)
      ensures adminEmail.GetOr("") != "" && adminPassword.GetOr("") != "" ==>
        var name := restaurantName.GetOr(DefaultRestaurantName);
        && restaurants == old(restaurants)[Slug(name) := name]
        && users == old(users)[adminEmail.value := UserEntry("Admin", hash(adminPassword.value))]
        && restaurantUsers == if "admin" in roles
                              then old(restaurantUsers)[(Slug(name), adminEmail.value) := Membership("admin", true)]
                              else old(restaurantUsers)
    {
      if adminEmail.GetOr("") == "" || adminPassword.GetOr("") == "" {
        return;
      }
      var name := restaurantName.GetOr(DefaultRestaurantName);
      var slug := Slug(name);
      restaurants := restaurants[slug := name];
      users := users[adminEmail.value := UserEntry("Admin", hash(adminPassword.value))];
      if "admin" !in roles {
        return;
      }
      restaurantUsers := restaurantUsers[(slug, adminEmail.value) := Membership("admin", true)];
    }
  }
}
