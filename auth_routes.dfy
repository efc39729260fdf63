/** The authentication routes of the governance service
    (services/governance/src/routes/auth.ts): the role-to-permission table used when
    a token is issued, `POST /auth/login`, and `POST /auth/users`, whose Bearer and
    permission gate the other protected routes repeat.

    The user, role and audit tables the routes reach through the repository are the
    fields of one `Directory` object; token signing is a parameter. */
module AuthRoutes {
  import opened Wrappers
  import opened Text
  import opened Seqs
  import opened Jwt

  // ---------------------------------------------------------------------------
  // Role-to-permission table
  // ---------------------------------------------------------------------------

  /** The cases of the switch in `generatePermissionsFromRoles`: the permissions each
      known role contributes, as resource and action. */
  function RoleGrants(role: string): seq<(string, string)> {
    if role == "ADMIN" then [("*", "*")]
    else if role == "DATA_STEWARD" then
      [("assets", "read"), ("assets", "write"), ("classifications", "read"),
       ("classifications", "write"), ("audit", "read")]
    else if role == "ANALYST" then [("assets", "read"), ("lineage", "read"), ("catalog", "read")]
    else if role == "VIEWER" then [("assets", "read"), ("lineage", "read")]
    else []
  }

  /** The four role names the switch knows. */
  const KnownRoles: seq<string> := ["ADMIN", "DATA_STEWARD", "ANALYST", "VIEWER"]

  function Format(g: (string, string)): string {
    g.0 + ":" + g.1
  }

  /** The strings one role pushes, `resource:action` each. */
  function RolePermissions(role: string): (ps: seq<string>)
    ensures |ps| == |RoleGrants(role)|
    ensures forall i :: 0 <= i < |ps| ==> ps[i] == Format(RoleGrants(role)[i])
  {
    var gs := RoleGrants(role);
    seq(|gs|, i requires 0 <= i < |gs| => Format(gs[i]))
  }

  /** The permissions of a role list: the per-role lists concatenated in role order. */
  function PermissionsFromRoles(roles: seq<string>): seq<string> {
    Flatten(roles, RolePermissions)
  }

  /** `generatePermissionsFromRoles`: one pass over the roles pushing each role's list. */
  method GeneratePermissionsFromRoles(roles: seq<string>) returns (permissions: seq<string>)
    ensures permissions == PermissionsFromRoles(roles)
  {
    permissions := [];
    for i := 0 to |roles|
      invariant permissions == Flatten(roles[..i], RolePermissions)
    {
      assert roles[..i + 1][..i] == roles[..i];
      permissions := permissions + RolePermissions(roles[i]);
    }
    assert roles[..|roles|] == roles;
  }

  /** The permissions of two role lists one after the other. */
  lemma PermissionsConcat(a: seq<string>, b: seq<string>)
    ensures PermissionsFromRoles(a + b) == PermissionsFromRoles(a) + PermissionsFromRoles(b)
  {
    FlattenConcat(a, b, RolePermissions);
  }

  /** Roles the switch does not know contribute nothing. */
  lemma {:induction false} UnknownRolesContributeNothing(roles: seq<string>)
    requires forall i :: 0 <= i < |roles| ==> roles[i] !in KnownRoles
    ensures PermissionsFromRoles(roles) == []
  {
    if roles != [] {
      UnknownRolesContributeNothing(roles[..|roles| - 1]);
      var r := roles[|roles| - 1];
      assert r != "ADMIN" && r != "DATA_STEWARD" && r != "ANALYST" && r != "VIEWER";
    }
  }

  /** Every permission comes from one of the roles, and every role's permissions are
      all present. */
  lemma PermissionsComeFromRoles(roles: seq<string>, p: string)
    ensures p in PermissionsFromRoles(roles) <==> exists k :: 0 <= k < |roles| && p in RolePermissions(roles[k])
  {
    FlattenMember(roles, RolePermissions, p);
  }

  // ---------------------------------------------------------------------------
  // What the issued permissions grant
  // ---------------------------------------------------------------------------

  /** A permission string list grants a request once parsed. */
  ghost predicate GrantsAny(ps: seq<string>, resource: string, action: string) {
    exists i :: 0 <= i < |ps| && Grants(ParsePermission(ps[i]), resource, action)
  }

  /** One table entry covers a request: each part equals the request's or is `*`. */
  predicate Covers(g: (string, string), resource: string, action: string) {
    (g.0 == resource || g.0 == "*") && (g.1 == action || g.1 == "*")
  }

  /** The auth context a token carries grants exactly what its permission strings grant. */
  lemma ContextGrants(userId: int, roles: seq<string>, ps: seq<string>, resource: string, action: string)
    ensures HasPermission(AuthContext(userId, roles, ParsePermissions(ps)), resource, action)
            <==> GrantsAny(ps, resource, action)
  {
    var ctx := AuthContext(userId, roles, ParsePermissions(ps));
    if HasPermission(ctx, resource, action) {
      var i :| 0 <= i < |ctx.permissions| && Grants(ctx.permissions[i], resource, action);
      assert Grants(ParsePermission(ps[i]), resource, action);
    }
    if GrantsAny(ps, resource, action) {
      var i :| 0 <= i < |ps| && Grants(ParsePermission(ps[i]), resource, action);
      assert Grants(ctx.permissions[i], resource, action);
    }
  }

  lemma GrantsAnyAppend(xs: seq<string>, ys: seq<string>, resource: string, action: string)
    ensures GrantsAny(xs + ys, resource, action) <==> GrantsAny(xs, resource, action) || GrantsAny(ys, resource, action)
  {
    if GrantsAny(xs + ys, resource, action) {
      var i :| 0 <= i < |xs + ys| && Grants(ParsePermission((xs + ys)[i]), resource, action);
      if i >= |xs| {
        assert (xs + ys)[i] == ys[i - |xs|];
      }
    }
    if GrantsAny(ys, resource, action) {
      var i :| 0 <= i < |ys| && Grants(ParsePermission(ys[i]), resource, action);
      assert (xs + ys)[|xs| + i] == ys[i];
    }
    if GrantsAny(xs, resource, action) {
      var i :| 0 <= i < |xs| && Grants(ParsePermission(xs[i]), resource, action);
      assert (xs + ys)[i] == xs[i];
    }
  }

  /** The table's resources and actions hold no colon, so each entry parses back. */
  lemma RoleEntriesParse(role: string)
    ensures forall i :: 0 <= i < |RoleGrants(role)| ==>
              ParsePermission(RolePermissions(role)[i]) == Permission(RoleGrants(role)[i].0, Some(RoleGrants(role)[i].1))
  {
    var gs := RoleGrants(role);
    assert forall i :: 0 <= i < |gs| ==> ':' !in gs[i].0 && ':' !in gs[i].1;
    forall i | 0 <= i < |gs|
      ensures ParsePermission(RolePermissions(role)[i]) == Permission(gs[i].0, Some(gs[i].1))
    {
      PairRoundTrip(gs[i].0, gs[i].1);
    }
  }

  /** One role's permissions grant a request iff one of its table entries covers it. */
  lemma RoleGrantsRequest(role: string, resource: string, action: string)
    ensures GrantsAny(RolePermissions(role), resource, action)
            <==> exists i :: 0 <= i < |RoleGrants(role)| && Covers(RoleGrants(role)[i], resource, action)
  {
    RoleEntriesParse(role);
    var ps := RolePermissions(role);
    if GrantsAny(ps, resource, action) {
      var i :| 0 <= i < |ps| && Grants(ParsePermission(ps[i]), resource, action);
      assert Covers(RoleGrants(role)[i], resource, action);
    }
  }

  /** Only ADMIN's entry has a wildcard: any other role covers exactly its listed pairs. */
  lemma NonAdminCoversListed(role: string, resource: string, action: string)
    requires role != "ADMIN"
    ensures (exists i :: 0 <= i < |RoleGrants(role)| && Covers(RoleGrants(role)[i], resource, action))
            <==> (resource, action) in RoleGrants(role)
  {
    var gs := RoleGrants(role);
    assert forall i :: 0 <= i < |gs| ==> gs[i].0 != "*" && gs[i].1 != "*";
    if (resource, action) in gs {
      var i :| 0 <= i < |gs| && gs[i] == (resource, action);
      assert Covers(gs[i], resource, action);
    }
  }

  /** The concatenated lists grant a request iff one of the lists grants it. */
  lemma {:induction false} GrantsFlatten(xs: seq<string>, f: string -> seq<string>, resource: string, action: string)
    ensures GrantsAny(Flatten(xs, f), resource, action)
            <==> exists k :: 0 <= k < |xs| && GrantsAny(f(xs[k]), resource, action)
  {
    if xs != [] {
      var init := xs[..|xs| - 1];
      var last := xs[|xs| - 1];
      assert Flatten(xs, f) == Flatten(init, f) + f(last);
      GrantsFlatten(init, f, resource, action);
      GrantsAnyAppend(Flatten(init, f), f(last), resource, action);
      if exists k :: 0 <= k < |init| && GrantsAny(f(init[k]), resource, action) {
        var k :| 0 <= k < |init| && GrantsAny(f(init[k]), resource, action);
        assert xs[k] == init[k];
      }
      if exists k :: 0 <= k < |xs| && GrantsAny(f(xs[k]), resource, action) {
        var k :| 0 <= k < |xs| && GrantsAny(f(xs[k]), resource, action);
        if k < |init| {
          assert init[k] == xs[k];
        }
      }
    }
  }

  /** A token issued for a role list grants a request iff the list holds ADMIN or a
      role whose table entry is exactly that request. */
  lemma IssuedPermissionsGrant(userId: int, roles: seq<string>, resource: string, action: string)
    ensures HasPermission(AuthContext(userId, roles, ParsePermissions(PermissionsFromRoles(roles))), resource, action)
            <==> "ADMIN" in roles || exists k :: 0 <= k < |roles| && (resource, action) in RoleGrants(roles[k])
  {
    ContextGrants(userId, roles, PermissionsFromRoles(roles), resource, action);
    GrantsFlatten(roles, RolePermissions, resource, action);
    forall k | 0 <= k < |roles|
      ensures GrantsAny(RolePermissions(roles[k]), resource, action)
              <==> roles[k] == "ADMIN" || (resource, action) in RoleGrants(roles[k])
    {
      RoleGrantsRequest(roles[k], resource, action);
      if roles[k] == "ADMIN" {
        assert Covers(RoleGrants(roles[k])[0], resource, action);
      } else {
        NonAdminCoversListed(roles[k], resource, action);
      }
    }
    if "ADMIN" in roles {
      var k :| 0 <= k < |roles| && roles[k] == "ADMIN";
      assert GrantsAny(RolePermissions(roles[k]), resource, action);
    }
  }

  /** Of the four roles only ADMIN can export the audit log or create users. */
  lemma OnlyAdminExportsOrCreatesUsers(userId: int, roles: seq<string>)
    ensures var ctx := AuthContext(userId, roles, ParsePermissions(PermissionsFromRoles(roles)));
      && (HasPermission(ctx, "audit", "export") <==> "ADMIN" in roles)
      && (HasPermission(ctx, "users", "create") <==> "ADMIN" in roles)
  {
    IssuedPermissionsGrant(userId, roles, "audit", "export");
    IssuedPermissionsGrant(userId, roles, "users", "create");
    forall k | 0 <= k < |roles|
      ensures ("audit", "export") !in RoleGrants(roles[k]) && ("users", "create") !in RoleGrants(roles[k])
    {
      TableActions(roles[k]);
    }
  }

  /** The table only ever grants reading, writing, or everything. */
  lemma TableActions(role: string)
    ensures forall g :: g in RoleGrants(role) ==> g.1 == "read" || g.1 == "write" || g.1 == "*"
  {
  }

  /** DATA_STEWARD is the only role besides ADMIN that may read the audit log. */
  lemma AuditReaders(userId: int, roles: seq<string>)
    ensures HasPermission(AuthContext(userId, roles, ParsePermissions(PermissionsFromRoles(roles))), "audit", "read")
            <==> "ADMIN" in roles || "DATA_STEWARD" in roles
  {
    IssuedPermissionsGrant(userId, roles, "audit", "read");
    forall k | 0 <= k < |roles|
      ensures ("audit", "read") in RoleGrants(roles[k]) <==> roles[k] == "DATA_STEWARD"
    {
      AuditReadRole(roles[k]);
    }
    if "DATA_STEWARD" in roles {
      var k :| 0 <= k < |roles| && roles[k] == "DATA_STEWARD";
      assert ("audit", "read") in RoleGrants(roles[k]);
    }
  }

  /** Among the listed roles only DATA_STEWARD grants `audit:read`. */
  lemma AuditReadRole(role: string)
    ensures ("audit", "read") in RoleGrants(role) <==> role == "DATA_STEWARD"
  {
    if role == "DATA_STEWARD" {
      assert RoleGrants(role)[4] == ("audit", "read");
    }
  }

  // ---------------------------------------------------------------------------
  // The Bearer gate
  // ---------------------------------------------------------------------------

  /** The outcome of the gate at the top of a protected route: 401 without a Bearer
      header, 403 for an invalid token or a missing permission. */
  datatype Gate = NoBearer | Forbidden | Allowed(ctx: AuthContext)

  /** `authHeader?.startsWith('Bearer ')`, then `extractAuthContext(authHeader.substring(7))`
      and `hasPermission(ctx, resource, action)`. */
  function Authorize(header: Option<string>, verify: Verifier, resource: string, action: string): (g: Gate)
    ensures g.NoBearer? <==> header.None? || !StartsWith(header.value, "Bearer ")
    ensures g.Allowed? <==>
              && header.Some? && StartsWith(header.value, "Bearer ")
              && var ctx := ExtractAuthContext(header.value[7..], verify);
                 ctx.Some? && HasPermission(ctx.value, resource, action)
    ensures g.Allowed? ==> g.ctx == ExtractAuthContext(header.value[7..], verify).value
  {
    if header.None? || !StartsWith(header.value, "Bearer ") then NoBearer
    else
      match ExtractAuthContext(header.value[7..], verify)
      case None => Forbidden
      case Some(ctx) => if HasPermission(ctx, resource, action) then Allowed(ctx) else Forbidden
  }

  /** The token the gate checks is what follows `Bearer `. */
  lemma BearerTokenStripped(token: string, verify: Verifier, resource: string, action: string)
    ensures var g := Authorize(Some("Bearer " + token), verify, resource, action);
      && !g.NoBearer?
      && (g.Allowed? <==> ExtractAuthContext(token, verify).Some?
                          && HasPermission(ExtractAuthContext(token, verify).value, resource, action))
  {
    var h := "Bearer " + token;
    assert h[..7] == "Bearer ";
    assert h[7..] == token;
  }

  /** A token that does not verify is refused whatever it claims. */
  lemma InvalidTokenForbidden(header: string, verify: Verifier, resource: string, action: string)
    requires StartsWith(header, "Bearer ") && verify(header[7..]).None?
    ensures Authorize(Some(header), verify, resource, action) == Forbidden
  {
  }

  // ---------------------------------------------------------------------------
  // Users, login and user creation
  // ---------------------------------------------------------------------------

  datatype User = User(id: int, email: string, displayName: Option<string>)
  datatype Role = Role(id: int, name: string, description: Option<string>)

  /** A row of the audit table; `newValues` holds the created user's email and display name. */
  datatype AuditEvent = AuditEvent(actorUserId: int, action: string, entityType: string, entityId: string,
                                   newValues: map<string, Option<string>>, ipAddress: string, userAgent: Option<string>)

  /** Signs a token for a user, its role names and its permissions. */
  type Signer = (User, seq<string>, seq<string>) -> string

  datatype LoginReply = LoginRejected(status: int, error: string) | LoggedIn(token: string, user: User, roles: seq<Role>)

  /** The validated body of `POST /auth/users`; `roles` are role ids. */
  datatype NewUser = NewUser(email: string, displayName: Option<string>, password: string, roles: Option<seq<int>>)

  datatype CreateReply = CreateRejected(status: int, error: string) | Created(user: User)

  /** `getUserByEmail`: the first user row with that email. */
  function FindUser(users: seq<User>, email: string): (r: Option<User>)
    ensures r.None? <==> forall i :: 0 <= i < |users| ==> users[i].email != email
    ensures r.Some? ==> r.value in users && r.value.email == email
  {
    if users == [] then None
    else if users[0].email == email then Some(users[0])
    else
      var r := FindUser(users[1..], email);
      assert forall i :: 1 <= i < |users| ==> users[i] == users[1..][i - 1];
      r
  }

  function Names(rs: seq<Role>): (names: seq<string>)
    ensures |names| == |rs| && forall i :: 0 <= i < |rs| ==> names[i] == rs[i].name
  {
    seq(|rs|, i requires 0 <= i < |rs| => rs[i].name)
  }

  /** The role ids pairs to one user, each with the user's id. */
  function Assignments(userId: int, roleIds: seq<int>): set<(int, int)> {
    set j | 0 <= j < |roleIds| :: (userId, roleIds[j])
  }

  /** Emails and ids are unique, and every id is below `nextUserId`. */
  ghost predicate UsersValid(users: seq<User>, nextUserId: int) {
    && (forall i, j :: 0 <= i < j < |users| ==> users[i].email != users[j].email && users[i].id != users[j].id)
    && (forall i :: 0 <= i < |users| ==> users[i].id < nextUserId)
  }

  /** Adding a user with a fresh email and the next id keeps the table valid. */
  lemma AddUserValid(users: seq<User>, nextUserId: int, u: User)
    requires UsersValid(users, nextUserId)
    requires FindUser(users, u.email).None? && u.id == nextUserId
    ensures UsersValid(users + [u], nextUserId + 1)
  {
    var all := users + [u];
    forall i, j | 0 <= i < j < |all| ensures all[i].email != all[j].email && all[i].id != all[j].id {
      assert all[i] == users[i];
      if j == |users| {
        assert all[j] == u;
      } else {
        assert all[j] == users[j];
      }
    }
  }

  /** In a valid table a user with an unused email and the next id shares neither
      with any stored user. */
  lemma FreshUser(users: seq<User>, nextUserId: int, u: User)
    requires UsersValid(users, nextUserId)
    requires FindUser(users, u.email).None? && u.id == nextUserId
    ensures forall v :: v in users ==> v.id != u.id && v.email != u.email
  {
    forall v | v in users ensures v.id != u.id && v.email != u.email {
      var i :| 0 <= i < |users| && users[i] == v;
    }
  }

  /** The user, role and audit tables. Role assignments are a set, since
      `ON CONFLICT DO NOTHING` ignores a repeated pair; user ids are issued in order. */
  class Directory {
    var users: seq<User>
    var roles: seq<Role>
    var userRoles: set<(int, int)>
    var audit: seq<AuditEvent>
    var nextUserId: int

    /** Emails and ids are unique, and every id is below the next one issued. */
    ghost predicate Valid()
      reads this
    {
      UsersValid(users, nextUserId)
    }

    constructor(roles: seq<Role>)
      ensures Valid()
      ensures this.users == [] && this.roles == roles && userRoles == {} && audit == [] && nextUserId == 1
    {
      this.users := [];
      this.roles := roles;
      userRoles := {};
      audit := [];
      nextUserId := 1;
    }

    /** `getUserRoles`: the roles joined with the user's assignments, in the role
        table's order. */
    function UserRoles(userId: int): (rs: seq<Role>)
      reads this
      ensures forall r :: r in rs <==> r in roles && (userId, r.id) in userRoles
    {
      var pairs := userRoles;
      var rs := Filter(roles, (r: Role) => (userId, r.id) in pairs);
      assert forall r :: r in rs <==> r in roles && (userId, r.id) in userRoles by {
        forall r ensures r in rs <==> r in roles && (userId, r.id) in userRoles {
          FilterKeeps(roles, (r: Role) => (userId, r.id) in pairs, r);
        }
      }
      rs
    }

    /** `POST /auth/login`: 401 for an unknown email. For a known one the password is
        never looked at; the token carries the user's role names and the permissions
        generated from them. */
    method Login(email: string, password: string, sign: Signer) returns (reply: LoginReply)
      ensures FindUser(users, email).None? ==> reply == LoginRejected(401, "Invalid credentials")
      ensures FindUser(users, email).Some? ==>
                var u := FindUser(users, email).value;
                var rs := UserRoles(u.id);
                reply == LoggedIn(sign(u, Names(rs), PermissionsFromRoles(Names(rs))), u, rs)
    {
      var user := FindUser(users, email);
      if user.None? {
        return LoginRejected(401, "Invalid credentials");
      }
      var rs := UserRoles(user.value.id);
      var roleNames := Names(rs);
      var permissions := GeneratePermissionsFromRoles(roleNames);
      var token := sign(user.value, roleNames, permissions);
      return LoggedIn(token, user.value, rs);
    }

    /** `assignRoleToUser` for each role id in turn; a repeated pair is ignored. */
    method AssignRoles(userId: int, ids: seq<int>)
      modifies this
      ensures userRoles == old(userRoles) + Assignments(userId, ids)
      ensures users == old(users) && roles == old(roles) && audit == old(audit) && nextUserId == old(nextUserId)
    {
      ghost var before := userRoles;
      for i := 0 to |ids|
        invariant userRoles == before + Assignments(userId, ids[..i])
        invariant users == old(users) && roles == old(roles) && audit == old(audit) && nextUserId == old(nextUserId)
      {
        assert Assignments(userId, ids[..i + 1]) == Assignments(userId, ids[..i]) + {(userId, ids[i])} by {
          assert forall j :: 0 <= j < i ==> ids[..i + 1][j] == ids[..i][j];
        }
        userRoles := userRoles + {(userId, ids[i])};
      }
      assert ids[..|ids|] == ids;
    }

    /** `POST /auth/users`: the gate on `users:create`, then 409 when the email is
        taken; otherwise a new user row, one assignment per role id, and one audit row. */
    method CreateUser(header: Option<string>, verify: Verifier, body: NewUser, ip: string, agent: Option<string>)
      returns (reply: CreateReply)
      requires Valid()
      modifies this
      ensures Valid()
      ensures Authorize(header, verify, "users", "create").NoBearer? ==>
                reply == CreateRejected(401, "Authorization required") && unchanged(this)
      ensures Authorize(header, verify, "users", "create").Forbidden? ==>
                reply == CreateRejected(403, "Insufficient permissions") && unchanged(this)
      ensures Authorize(header, verify, "users", "create").Allowed? && FindUser(old(users), body.email).Some? ==>
                reply == CreateRejected(409, "User already exists") && unchanged(this)
      ensures Authorize(header, verify, "users", "create").Allowed? && FindUser(old(users), body.email).None? ==>
                var u := User(old(nextUserId), body.email, body.displayName);
                var actor := Authorize(header, verify, "users", "create").ctx.userId;
                && reply == Created(u)
                && (forall v :: v in old(users) ==> v.id != u.id && v.email != u.email)
                && FindUser(users, body.email) == Some(u)
                && users == old(users) + [u]
                && nextUserId == old(nextUserId) + 1
                && roles == old(roles)
                && userRoles == old(userRoles) + Assignments(u.id, body.roles.GetOr([]))
                && audit == old(audit) + [AuditEvent(actor, "CREATE_USER", "USER", IntToString(u.id),
                                                     map["email" := Some(body.email), "displayName" := body.displayName],
                                                     ip, agent)]
    {
      var gate := Authorize(header, verify, "users", "create");
      if gate.NoBearer? {
        return CreateRejected(401, "Authorization required");
      }
      if gate.Forbidden? {
        return CreateRejected(403, "Insufficient permissions");
      }
      var existing := FindUser(users, body.email);
      if existing.Some? {
        return CreateRejected(409, "User already exists");
      }
      var newUser := User(nextUserId, body.email, body.displayName);
      AddUserValid(users, nextUserId, newUser);
      FreshUser(users, nextUserId, newUser);
      CreatedUserFound(users, newUser);
      users := users + [newUser];
      nextUserId := nextUserId + 1;
      AssignRoles(newUser.id, body.roles.GetOr([]));
      audit := audit + [AuditEvent(gate.ctx.userId, "CREATE_USER", "USER", IntToString(newUser.id),
                                   map["email" := Some(body.email), "displayName" := body.displayName],
                                   ip, agent)];
      reply := Created(newUser);
    }
  }

  /** After a user is created, a login with its email finds exactly that user. */
  lemma CreatedUserFound(users: seq<User>, u: User)
    requires FindUser(users, u.email).None?
    ensures FindUser(users + [u], u.email) == Some(u)
  {
    var all := users + [u];
    assert forall i :: 0 <= i < |users| ==> all[i] == users[i];
    assert all[|users|] == u;
    CreatedUserFoundAt(all, u, |users|);
  }

  lemma {:induction false} CreatedUserFoundAt(all: seq<User>, u: User, k: nat)
    requires k < |all| && all[k] == u
    requires forall i :: 0 <= i < k ==> all[i].email != u.email
    ensures FindUser(all, u.email) == Some(u)
  {
    if k > 0 {
      assert all[0].email != u.email;
      forall i | 0 <= i < k - 1 ensures all[1..][i].email != u.email {
        assert all[1..][i] == all[i + 1];
      }
      CreatedUserFoundAt(all[1..], u, k - 1);
    }
  }
}
