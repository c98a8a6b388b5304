/**
 * Authentication and role-based permissions: the claims an access token
 * carries, the rejection paths of the current-user dependency, and the
 * role-to-permission table every protected endpoint consults. Token signing
 * and verification and password hashing are outside the model: a token
 * arrives here already decoded (or not).
 */
module Auth {
  import opened Wrappers
  import opened JsonValues

  const Admin := "admin"
  const Operator := "operator"
  const Viewer := "viewer"

  const ManageUsers := "manage_users"
  const EditStations := "edit_stations"
  const ViewStations := "view_stations"

  /** `ACCESS_TOKEN_EXPIRE_MINUTES` of the settings. */
  const AccessTokenExpireMinutes := 60

  /** A row of the `users` table of the authentication database. */
  datatype User = User(id: int, username: string, role: string, isActive: bool)

  /** `get_user_permissions`: the permissions of a role, most powerful first. */
  function UserPermissions(role: string): (r: seq<string>)
    ensures ManageUsers in r <==> role == Admin
    ensures EditStations in r <==> role == Admin || role == Operator
    ensures ViewStations in r <==> role == Admin || role == Operator || role == Viewer
    ensures forall p :: p in r ==> p == ManageUsers || p == EditStations || p == ViewStations
  {
    if role == Admin then [ManageUsers, EditStations, ViewStations]
    else if role == Operator then [EditStations, ViewStations]
    else if role == Viewer then [ViewStations]
    else []
  }

  /** The position of a role in the hierarchy; every unknown role (such as the column default "user") is at the bottom. */
  function RoleRank(role: string): (r: nat)
    ensures r == 0 <==> role != Admin && role != Operator && role != Viewer
  {
    if role == Admin then 3 else if role == Operator then 2 else if role == Viewer then 1 else 0
  }

  /** The permission lists are nested: a higher role has every permission of a lower one. */
  lemma PermissionsNested(lower: string, higher: string, p: string)
    requires RoleRank(lower) <= RoleRank(higher)
    requires p in UserPermissions(lower)
    ensures p in UserPermissions(higher)
  {
  }

  /**
   * The checker `require_permission(permission)` builds, applied to the
   * current user: the user when the role grants the permission, 403 otherwise.
   */
  function RequirePermission(permission: string, user: User): (r: Result<User>)
    ensures r.Ok? <==> permission in UserPermissions(user.role)
    ensures r.Ok? <==> (permission == ManageUsers && user.role == Admin)
                       || (permission == EditStations && (user.role == Admin || user.role == Operator))
                       || (permission == ViewStations && (user.role == Admin || user.role == Operator || user.role == Viewer))
    ensures r.Ok? ==> r.value == user
    ensures r.Err? ==> r.status == 403
  {
    if permission !in UserPermissions(user.role) then Err(403) else Ok(user)
  }

  /** An admin passes every permission check anyone passes, and a user of an unknown role none. */
  lemma AdminPassesEveryCheck(permission: string, user: User, admin: User)
    requires admin.role == Admin
    requires RequirePermission(permission, user).Ok?
    ensures RequirePermission(permission, admin) == Ok(admin)
    ensures RoleRank(user.role) > 0
  {
  }

  /**
   * `get_current_user`: `decoded` is the token's payload, or None when
   * decoding raises a `JWTError` (bad signature, expired, malformed);
   * `users` is the `users` table keyed by its unique `username`. A token
   * that does not decode, has no `sub`, or names no user gives 401.
   */
  function CurrentUser(decoded: Option<Dict>, users: map<string, User>): (r: Result<User>)
    ensures r.Err? ==> r.status == 401
    ensures r.Ok? <==> decoded.Some? && Get(decoded.value, "sub").JStr? && Get(decoded.value, "sub").s in users
    ensures r.Ok? ==> r.value == users[Get(decoded.value, "sub").s]
  {
    if decoded.None? then Err(401)
    else
      var username := Get(decoded.value, "sub");
      if username == JNull then Err(401)
      // the query compares the `username` column with `sub`; only a string can match
      else if !username.JStr? || username.s !in users then Err(401)
      else Ok(users[username.s])
  }

  /** A decodable token for a listed user is accepted whether or not the account is active: `is_active` is never consulted. */
  lemma InactiveUsersAccepted(claims: Dict, users: map<string, User>, name: string)
    requires "sub" in claims && claims["sub"] == JStr(name)
    requires name in users && !users[name].isActive
    ensures CurrentUser(Some(claims), users) == Ok(users[name])
  {
  }

  /**
   * The claims `create_access_token` signs: a copy of `data` with `exp` set
   * to `now` plus `expires_delta`, or plus the configured 60 minutes when
   * the delta is absent or zero (a zero `timedelta` is falsy). Times are in
   * seconds; the caller's dictionary is a value and is never changed.
   */
  function TokenClaims(data: Dict, now: real, expiresDelta: Option<real>): (r: Dict)
    ensures r.Keys == data.Keys + {"exp"}
    ensures forall k :: k in data && k != "exp" ==> r[k] == data[k]
    ensures expiresDelta.Some? && expiresDelta.value != 0.0 ==> r["exp"] == JNum(now + expiresDelta.value)
    ensures expiresDelta.None? || expiresDelta.value == 0.0 ==>
              r["exp"] == JNum(now + AccessTokenExpireMinutes as real * 60.0)
  {
    var delta := if expiresDelta.Some? && expiresDelta.value != 0.0 then expiresDelta.value
                 else AccessTokenExpireMinutes as real * 60.0;
    data["exp" := JNum(now + delta)]
  }

  /** A freshly issued token for a listed user authenticates that user until it expires. */
  lemma IssuedTokenAuthenticates(user: User, users: map<string, User>, now: real, expiresDelta: Option<real>)
    requires user.username in users
    ensures CurrentUser(Some(TokenClaims(map["sub" := JStr(user.username)], now, expiresDelta)), users)
            == Ok(users[user.username])
  {
    var claims := TokenClaims(map["sub" := JStr(user.username)], now, expiresDelta);
    assert claims["sub"] == JStr(user.username);
  }
}
