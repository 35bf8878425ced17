/** Authentication helpers (app/auth.py): access-token payload construction,
    resolution of the current user from a decoded token, and the role gate.
    Password hashing and the JWT signature are opaque: callers pass them in
    as functions, and token decoding arrives as an optional payload. */
module Auth {
  import opened Wrappers
  import opened Models

  /** The configuration default of `ACCESS_TOKEN_EXPIRE_MINUTES`. */
  const ACCESS_TOKEN_EXPIRE_MINUTES: int := 60

  /** The values a token payload carries. */
  datatype Claim = ClaimId(id: Uuid) | ClaimText(text: string) | ClaimTime(at: Time)

  type Payload = map<string, Claim>

  /** `expires_minutes or ACCESS_TOKEN_EXPIRE_MINUTES`: both None and 0 are
      falsy and fall back to the configured lifetime. */
  function TokenLifetime(expiresMinutes: Option<int>): (m: int)
    ensures expiresMinutes.None? ==> m == ACCESS_TOKEN_EXPIRE_MINUTES
    ensures expiresMinutes == Some(0) ==> m == ACCESS_TOKEN_EXPIRE_MINUTES
    ensures expiresMinutes.Some? && expiresMinutes.value != 0 ==> m == expiresMinutes.value
  {
    if expiresMinutes.None? || expiresMinutes.value == 0 then ACCESS_TOKEN_EXPIRE_MINUTES
    else expiresMinutes.value
  }

  /** The payload `create_access_token` signs: a copy of the caller's claims
      with `exp` set (or replaced). The caller's map is a value and is not
      touched. */
  function AccessTokenPayload(data: Payload, expiresMinutes: Option<int>, now: Time): (p: Payload)
    ensures p.Keys == data.Keys + {"exp"}
    ensures forall k :: k in data && k != "exp" ==> p[k] == data[k]
    ensures p["exp"] == ClaimTime(now + TokenLifetime(expiresMinutes))
  {
    data["exp" := ClaimTime(now + TokenLifetime(expiresMinutes))]
  }

  /** The two 401 details and the 403 of the role gate. */
  datatype AuthFailure = InvalidAuthToken | UserNotFound | Forbidden

  /** `get_current_user`: an undecodable (or empty) payload is refused first; a
      payload whose `user_id` names no stored user is refused next. */
  function GetCurrentUser(decoded: Option<Payload>, users: map<Uuid, User>): (r: Result<User, AuthFailure>)
    ensures r == Err(InvalidAuthToken) <==> decoded.None? || decoded.value == map[]
    ensures r.Ok? <==>
              decoded.Some? && "user_id" in decoded.value && decoded.value["user_id"].ClaimId?
              && decoded.value["user_id"].id in users
    ensures r.Ok? ==> r.value == users[decoded.value["user_id"].id]
    ensures r.Err? ==> r.error != Forbidden
  {
    if decoded.None? || decoded.value == map[] then Err(InvalidAuthToken)
    else
      var payload := decoded.value;
      if "user_id" in payload && payload["user_id"].ClaimId? && payload["user_id"].id in users then
        Ok(users[payload["user_id"].id])
      else
        Err(UserNotFound)
  }

  /** `require_role(role)`: the current user, if there is one and its role's
      name is exactly `role`; authentication failures pass through unchanged,
      any other role is Forbidden. */
  function RequireRole(role: string, decoded: Option<Payload>, users: map<Uuid, User>): (r: Result<User, AuthFailure>)
    ensures GetCurrentUser(decoded, users).Err? ==> r == GetCurrentUser(decoded, users)
    ensures r.Ok? <==> GetCurrentUser(decoded, users).Ok? && RoleName(GetCurrentUser(decoded, users).value.role) == role
    ensures r.Ok? ==> r == GetCurrentUser(decoded, users)
    ensures r == Err(Forbidden) <==> GetCurrentUser(decoded, users).Ok? && RoleName(GetCurrentUser(decoded, users).value.role) != role
  {
    var current := GetCurrentUser(decoded, users);
    if current.Err? then current
    else if RoleName(current.value.role) != role then Err(Forbidden)
    else current
  }

  /** The gate for a role passes exactly the users holding that role, and a
      string naming no role lets nobody through. */
  lemma RequireRoleExact(role: Role, other: string, decoded: Option<Payload>, users: map<Uuid, User>)
    requires ParseRole(other).None?
    ensures RequireRole(RoleName(role), decoded, users).Ok? <==>
              GetCurrentUser(decoded, users).Ok? && GetCurrentUser(decoded, users).value.role == role
    ensures RequireRole(other, decoded, users).Err?
  {
    var current := GetCurrentUser(decoded, users);
    if current.Ok? {
      NamesRoundTrip(current.value.role, Draft, Applied);
      NamesRoundTrip(role, Draft, Applied);
    }
  }
}
