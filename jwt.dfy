/** Authorisation checks of the governance service
    (services/governance/src/auth/jwt.ts): turning a verified token's payload into
    an auth context, and the permission and role tests made on that context.
    Signing and verifying tokens belong to a foreign library; verification is a
    parameter, a partial function from token to payload. */
module Jwt {
  import opened Wrappers
  import opened Text

  /** The claims a token carries. */
  datatype JwtPayload = JwtPayload(userId: int, email: string, roles: seq<string>, permissions: seq<string>)

  /** A permission `resource:action`; `action` is absent when the string has no colon. */
  datatype Permission = Permission(resource: string, action: Option<string>)

  datatype AuthContext = AuthContext(userId: int, roles: seq<string>, permissions: seq<Permission>)

  /** Token verification: the payload of a valid token, None otherwise. */
  type Verifier = string -> Option<JwtPayload>

  /** `const [resource, action] = p.split(':')`: the first two segments; any further
      segments are dropped. */
  function ParsePermission(p: string): (perm: Permission)
    ensures perm.resource == Split(p, ':')[0]
    ensures perm.action.Some? <==> ':' in p
  {
    var parts := Split(p, ':');
    SplitJoin(p, ':');
    if |parts| == 1 then
      assert Join(parts, [':']) == parts[0];
      Permission(parts[0], None)
    else
      assert ':' in Join(parts, [':']) by {
        assert Join(parts, [':']) == parts[0] + [':'] + Join(parts[1..], [':']);
        assert Join(parts, [':'])[|parts[0]|] == ':';
      }
      Permission(parts[0], Some(parts[1]))
  }

  function ParsePermissions(ps: seq<string>): (perms: seq<Permission>)
    ensures |perms| == |ps| && forall i :: 0 <= i < |ps| ==> perms[i] == ParsePermission(ps[i])
  {
    if ps == [] then [] else [ParsePermission(ps[0])] + ParsePermissions(ps[1..])
  }

  /** `extractAuthContext`: None when verification fails, otherwise the payload's user
      and roles with each permission string split. */
  function ExtractAuthContext(token: string, verify: Verifier): (r: Option<AuthContext>)
    ensures verify(token).None? <==> r.None?
    ensures r.Some? ==>
              && r.value.userId == verify(token).value.userId
              && r.value.roles == verify(token).value.roles
              && |r.value.permissions| == |verify(token).value.permissions|
  {
    match verify(token)
    case None => None
    case Some(payload) => Some(AuthContext(payload.userId, payload.roles, ParsePermissions(payload.permissions)))
  }

  /** One permission covers a request when each of its parts equals the request's or is `*`. */
  predicate Grants(p: Permission, resource: string, action: string) {
    (p.resource == resource || p.resource == "*") && (p.action == Some(action) || p.action == Some("*"))
  }

  /** `hasPermission`: the `some` scan over the permissions. */
  function HasPermission(ctx: AuthContext, resource: string, action: string): (r: bool)
    ensures r <==> exists i :: 0 <= i < |ctx.permissions| && Grants(ctx.permissions[i], resource, action)
    decreases |ctx.permissions|
  {
    if ctx.permissions == [] then false
    else if Grants(ctx.permissions[0], resource, action) then true
    else
      var rest := ctx.(permissions := ctx.permissions[1..]);
      var r := HasPermission(rest, resource, action);
      assert r ==> exists i :: 0 <= i < |ctx.permissions| && Grants(ctx.permissions[i], resource, action) by {
        if r {
          var i :| 0 <= i < |rest.permissions| && Grants(rest.permissions[i], resource, action);
          assert ctx.permissions[i + 1] == rest.permissions[i];
        }
      }
      assert (exists i :: 0 <= i < |ctx.permissions| && Grants(ctx.permissions[i], resource, action)) ==> r by {
        if exists i :: 0 <= i < |ctx.permissions| && Grants(ctx.permissions[i], resource, action) {
          var i :| 0 <= i < |ctx.permissions| && Grants(ctx.permissions[i], resource, action);
          assert i > 0;
          assert rest.permissions[i - 1] == ctx.permissions[i];
        }
      }
      r
  }

  /** `hasRole`: list membership. */
  function HasRole(ctx: AuthContext, role: string): (r: bool)
    ensures r <==> role in ctx.roles
    decreases |ctx.roles|
  {
    if ctx.roles == [] then false
    else ctx.roles[0] == role || HasRole(ctx.(roles := ctx.roles[1..]), role)
  }

  // ---------------------------------------------------------------------------
  // Properties
  // ---------------------------------------------------------------------------

  /** A `*:*` permission grants every resource and action. */
  lemma WildcardGrantsAll(ctx: AuthContext, resource: string, action: string)
    requires Permission("*", Some("*")) in ctx.permissions
    ensures HasPermission(ctx, resource, action)
  {
    var i :| 0 <= i < |ctx.permissions| && ctx.permissions[i] == Permission("*", Some("*"));
    assert Grants(ctx.permissions[i], resource, action);
  }

  /** No permissions, no grants. */
  lemma EmptyGrantsNothing(userId: int, roles: seq<string>, resource: string, action: string)
    ensures !HasPermission(AuthContext(userId, roles, []), resource, action)
  {
  }

  /** A permission string without a colon has no action and grants nothing. */
  lemma ColonlessPermissionGrantsNothing(p: string, resource: string, action: string)
    requires ':' !in p
    ensures !Grants(ParsePermission(p), resource, action)
  {
  }

  /** Formatting a colon-free resource and action as `r:a` and parsing it back gives
      the pair again. */
  lemma PairRoundTrip(r: string, a: string)
    requires ':' !in r && ':' !in a
    ensures ParsePermission(r + ":" + a) == Permission(r, Some(a))
  {
    var parts := [r, a];
    assert parts[1..] == [a];
    assert Join(parts, [':']) == r + [':'] + a;
    assert ":" == [':'];
    JoinSplit(parts, ':');
  }

  /** `r:a:x` parses as resource r, action a: the third segment is dropped. */
  lemma ExtraSegmentsDropped(r: string, a: string, x: string)
    requires ':' !in r && ':' !in a && ':' !in x
    ensures ParsePermission(r + ":" + a + ":" + x) == Permission(r, Some(a))
  {
    var parts := [r, a, x];
    assert parts[1..] == [a, x] && [a, x][1..] == [x];
    assert Join([a, x], [':']) == a + [':'] + x;
    assert Join(parts, [':']) == r + [':'] + (a + [':'] + x);
    assert ":" == [':'];
    assert r + ":" + a + ":" + x == r + [':'] + (a + [':'] + x);
    JoinSplit(parts, ':');
  }

  /** The parsed permissions grant a request iff some permission string splits into a
      resource and an action that each match the request or are `*`. */
  lemma ExtractedPermissions(token: string, verify: Verifier, resource: string, action: string)
    requires verify(token).Some?
    ensures var ctx := ExtractAuthContext(token, verify).value;
      var ps := verify(token).value.permissions;
      HasPermission(ctx, resource, action)
      <==> exists i :: 0 <= i < |ps| && Grants(ParsePermission(ps[i]), resource, action)
  {
  }
}
