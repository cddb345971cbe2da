/** backend/src/middleware/auth.ts: `authenticate`, which turns a bearer
    token into the request's user, and `requireRole`. Token verification and
    the users query are parameters. */
module AuthMiddleware {
  import opened Wrappers
  import opened Text
  import opened Js
  import opened Jwt
  import opened Errors

  /** Section 2.1 of RFC 6750, matched case-sensitively and with exactly one space. */
  const BearerPrefix := "Bearer "

  const AuthenticationRequired := "Authentication required"
  const UserNotFoundOrInactive := "User not found or inactive"
  const InvalidOrExpiredToken := "Invalid or expired token"
  const InsufficientPermissions := "Insufficient permissions"

  /** `SELECT id, email, role, facility_id, is_active FROM users WHERE id = $1`. */
  datatype UserRow = UserRow(id: string, email: string, role: string, facilityId: Option<string>, isActive: bool)

  /** The outcome of a query expected to return at most one row. */
  datatype Lookup<T> = Found(row: T) | NoRow | QueryError

  /** `req.user`. */
  datatype AuthUser = AuthUser(id: string, email: string, role: string, facilityId: Option<string>)

  /** The token an `Authorization` header carries, if it has the bearer form. */
  function BearerToken(header: Option<string>): (t: Option<string>)
    ensures t.Some? <==> GivenText(header) && StartsWith(header.value, BearerPrefix)
    ensures t.Some? ==> header.value == BearerPrefix + t.value
  {
    if GivenText(header) && StartsWith(header.value, BearerPrefix) then
      assert header.value == header.value[..7] + header.value[7..];
      Some(header.value[7..])
    else None
  }

  /** `authenticate` (lines 15-66). Every failure becomes a 401: the two
      AppErrors keep their messages, and everything else that is thrown (a
      missing secret, a bad or expired token, a failing query) is replaced by
      'Invalid or expired token'. */
  function Authenticate(header: Option<string>, secret: Option<string>, verify: Verifier,
                        users: string -> Lookup<UserRow>): (r: Result<AuthUser, Failure>)
    ensures r.Err? ==> r.error.AppError? && r.error.statusCode == 401
    ensures BearerToken(header).None? ==> r == Err(NewAppError(AuthenticationRequired, 401))
    ensures r.Err? && r.error.message == UserNotFoundOrInactive <==>
              && BearerToken(header).Some? && GivenText(secret)
              && verify(BearerToken(header).value, secret.value).Some?
              && var claims := verify(BearerToken(header).value, secret.value).value;
                 (users(claims.userId).NoRow? || (users(claims.userId).Found? && !users(claims.userId).row.isActive))
    ensures r.Ok? <==>
              && BearerToken(header).Some? && GivenText(secret)
              && verify(BearerToken(header).value, secret.value).Some?
              && var claims := verify(BearerToken(header).value, secret.value).value;
                 users(claims.userId).Found? && users(claims.userId).row.isActive
    ensures r.Ok? ==>
              var claims := verify(BearerToken(header).value, secret.value).value;
              var row := users(claims.userId).row;
              && r.value.id == claims.userId && r.value.email == claims.email && r.value.role == claims.role
              && r.value.facilityId == (if GivenText(claims.facilityId) then claims.facilityId else row.facilityId)
  {
    match BearerToken(header)
    case None => Err(NewAppError(AuthenticationRequired, 401))
    case Some(token) =>
      if !GivenText(secret) then Err(NewAppError(InvalidOrExpiredToken, 401))
      else match verify(token, secret.value)
        case None => Err(NewAppError(InvalidOrExpiredToken, 401))
        case Some(claims) =>
          match users(claims.userId)
          case QueryError => Err(NewAppError(InvalidOrExpiredToken, 401))
          case NoRow => Err(NewAppError(UserNotFoundOrInactive, 401))
          case Found(row) =>
            if !row.isActive then Err(NewAppError(UserNotFoundOrInactive, 401))
            else
              var facilityId := if GivenText(claims.facilityId) then claims.facilityId else row.facilityId;
              Ok(AuthUser(claims.userId, claims.email, claims.role, facilityId))
  }

  /** Only the exact prefix counts: a lower-case scheme or a missing space is
      the same as no header. */
  lemma SchemeIsCaseSensitive(token: string)
    ensures BearerToken(Some("bearer " + token)).None?
    ensures BearerToken(Some("Bearer" + token)).Some? <==> |token| > 0 && token[0] == ' '
    ensures BearerToken(Some(BearerPrefix + token)) == Some(token)
  {
    assert ("bearer " + token)[0] != BearerPrefix[0];
    assert ("Bearer" + token)[..6] == "Bearer";
    if |token| > 0 && token[0] == ' ' {
      assert ("Bearer" + token)[..7] == BearerPrefix;
    }
    if BearerToken(Some("Bearer" + token)).Some? {
      assert ("Bearer" + token)[6] == ' ';
    }
    assert (BearerPrefix + token)[..7] == BearerPrefix;
    assert (BearerPrefix + token)[7..] == token;
  }

  /** A token whose claims name a facility overrides the account's facility;
      a token without one (or with an empty one) inherits it. */
  lemma FacilityFallsBackToAccount(header: Option<string>, secret: Option<string>, verify: Verifier,
                                   users: string -> Lookup<UserRow>)
    requires Authenticate(header, secret, verify, users).Ok?
    ensures var claims := verify(BearerToken(header).value, secret.value).value;
      !GivenText(claims.facilityId) ==>
        Authenticate(header, secret, verify, users).value.facilityId == users(claims.userId).row.facilityId
  {
  }

  /** `requireRole(...roles)` (lines 68-80): `None` lets the request through. */
  function RequireRole(user: Option<AuthUser>, roles: seq<string>): (r: Option<Failure>)
    ensures r.None? <==> user.Some? && user.value.role in roles
    ensures user.None? ==> r == Some(NewAppError(AuthenticationRequired, 401))
    ensures user.Some? && user.value.role !in roles ==> r == Some(NewAppError(InsufficientPermissions, 403))
  {
    if user.None? then Some(NewAppError(AuthenticationRequired, 401))
    else if user.value.role !in roles then Some(NewAppError(InsufficientPermissions, 403))
    else None
  }
}
