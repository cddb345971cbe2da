/** backend/src/controllers/authController.ts: registration, login, token
    refresh, logout and token issuing. Password hashing and comparison, token
    verification and the id the database assigns are parameters; the users
    table is a sequence of accounts with unique emails. */
module AuthController {
  import opened Wrappers
  import opened Js
  import opened Jwt
  import opened Errors
  import opened AuthMiddleware

  /** The process environment the controller reads. */
  datatype Env = Env(jwtSecret: Option<string>, jwtExpiresIn: Option<string>)

  const DefaultExpiry := "24h"
  const SecretNotConfigured := "JWT_SECRET not configured"
  const InvalidCredentials := "Invalid credentials"

  /** A row of `users`. */
  datatype Account = Account(
    id: string,
    email: string,
    passwordHash: string,
    name: string,
    role: string,
    facilityId: Option<string>,
    isActive: bool)

  datatype UserTable = UserTable(accounts: seq<Account>, up: bool)

  /** `... FROM users WHERE email = $1` (emails are unique). */
  function FindByEmail(accounts: seq<Account>, email: string): (r: Option<Account>)
    ensures r.Some? ==> r.value in accounts && r.value.email == email
    ensures r.None? <==> forall i :: 0 <= i < |accounts| ==> accounts[i].email != email
  {
    if accounts == [] then None
    else if accounts[0].email == email then Some(accounts[0])
    else FindByEmail(accounts[1..], email)
  }

  /** `... FROM users WHERE id = $1` as the middleware's lookup. */
  function FindById(table: UserTable, id: string): (r: Lookup<UserRow>)
    ensures !table.up <==> r.QueryError?
    ensures r.NoRow? <==> table.up && forall i :: 0 <= i < |table.accounts| ==> table.accounts[i].id != id
    ensures r.Found? ==> exists i :: 0 <= i < |table.accounts| && table.accounts[i].id == id && r.row == RowOf(table.accounts[i])
  {
    if !table.up then QueryError else FindRow(table.accounts, id)
  }

  function FindRow(accounts: seq<Account>, id: string): (r: Lookup<UserRow>)
    ensures !r.QueryError?
    ensures r.NoRow? <==> forall i :: 0 <= i < |accounts| ==> accounts[i].id != id
    ensures r.Found? ==> exists i :: 0 <= i < |accounts| && accounts[i].id == id && r.row == RowOf(accounts[i])
  {
    if accounts == [] then NoRow
    else if accounts[0].id == id then Found(RowOf(accounts[0]))
    else
      var r := FindRow(accounts[1..], id);
      assert r.Found? ==> exists i :: 0 <= i < |accounts| && accounts[i].id == id && r.row == RowOf(accounts[i]) by {
        if r.Found? {
          var i :| 0 <= i < |accounts[1..]| && accounts[1..][i].id == id && r.row == RowOf(accounts[1..][i]);
          assert accounts[i + 1] == accounts[1..][i];
        }
      }
      r
  }

  function RowOf(a: Account): UserRow {
    UserRow(a.id, a.email, a.role, a.facilityId, a.isActive)
  }

  /** `generateToken` (lines 168-186). */
  function GenerateToken(userId: string, email: string, role: string, facilityId: Option<string>, env: Env): (r: Result<SignedToken, Failure>)
    ensures r.Err? <==> !GivenText(env.jwtSecret)
    ensures r.Err? ==> r.error == Unexpected(SecretNotConfigured)
    ensures r.Ok? ==> r.value.claims == Claims(userId, email, role, facilityId) && r.value.secret == env.jwtSecret.value
    ensures r.Ok? ==> r.value.expiresIn == (if GivenText(env.jwtExpiresIn) then env.jwtExpiresIn.value else DefaultExpiry)
  {
    if !GivenText(env.jwtSecret) then Err(Unexpected(SecretNotConfigured))
    else Ok(SignedToken(Claims(userId, email, role, facilityId), env.jwtSecret.value, TextOr(env.jwtExpiresIn, DefaultExpiry)))
  }

  datatype PublicUser = PublicUser(id: string, email: string, name: string, role: string, facilityId: Option<string>)
  datatype Session = Session(user: PublicUser, token: SignedToken)

  function Public(a: Account): PublicUser {
    PublicUser(a.id, a.email, a.name, a.role, a.facilityId)
  }

  /** The table after a request, the response, and whether the table was queried. */
  datatype Outcome<T> = Outcome(table: UserTable, response: Result<T, Failure>, queried: bool)

  datatype Registration = Registration(
    email: Option<string>, password: Option<string>, name: Option<string>, role: Option<string>,
    facilityId: Option<string>)

  /** `register` (lines 9-61). The new account's `is_active` is the column
      default, taken to be true. */
  function Register(table: UserTable, body: Registration, newId: string, hash: string -> string, env: Env): (o: Outcome<Session>)
    ensures !(GivenText(body.email) && GivenText(body.password) && GivenText(body.name) && GivenText(body.role)) ==>
              o == Outcome(table, Err(NewAppError("Missing required fields", 400)), false)
    ensures o.table != table ==>
              && GivenText(body.email) && table.up && FindByEmail(table.accounts, body.email.value).None?
              && o.table.accounts == table.accounts + [Account(newId, body.email.value, hash(body.password.value),
                                                               body.name.value, body.role.value,
                                                               if GivenText(body.facilityId) then body.facilityId else None, true)]
    ensures GivenText(body.email) && GivenText(body.password) && GivenText(body.name) && GivenText(body.role)
            && table.up && FindByEmail(table.accounts, body.email.value).Some? ==>
              o.table == table && o.response == Err(NewAppError("User already exists", 409))
    ensures o.response.Ok? ==>
              && o.table != table
              && o.response.value.user == Public(o.table.accounts[|table.accounts|])
              && o.response.value.token.claims == Claims(newId, body.email.value, body.role.value, o.response.value.user.facilityId)
  {
    if !(GivenText(body.email) && GivenText(body.password) && GivenText(body.name) && GivenText(body.role)) then
      Outcome(table, Err(NewAppError("Missing required fields", 400)), false)
    else if !table.up then
      Outcome(table, Err(Unexpected("database query failed")), true)
    else if FindByEmail(table.accounts, body.email.value).Some? then
      Outcome(table, Err(NewAppError("User already exists", 409)), true)
    else
      var facilityId := if GivenText(body.facilityId) then body.facilityId else None;
      var account := Account(newId, body.email.value, hash(body.password.value), body.name.value, body.role.value, facilityId, true);
      var table' := table.(accounts := table.accounts + [account]);
      assert table'.accounts[|table.accounts|] == account;
      assert table' != table by { assert |table'.accounts| != |table.accounts|; }
      match GenerateToken(account.id, account.email, account.role, account.facilityId, env)
      case Err(e) => Outcome(table', Err(e), true)
      case Ok(token) => Outcome(table', Ok(Session(Public(account), token)), true)
  }

  /** The account is written before the token is issued: with no secret
      configured, registration answers 500 yet the account exists. */
  lemma RegisterWithoutSecretKeepsAccount(table: UserTable, body: Registration, newId: string, hash: string -> string, env: Env)
    requires GivenText(body.email) && GivenText(body.password) && GivenText(body.name) && GivenText(body.role)
    requires table.up && FindByEmail(table.accounts, body.email.value).None?
    requires !GivenText(env.jwtSecret)
    ensures var o := Register(table, body, newId, hash, env);
      o.response == Err(Unexpected(SecretNotConfigured)) && |o.table.accounts| == |table.accounts| + 1
      && o.table.accounts[|table.accounts|].email == body.email.value
  {
  }

  /** `login` (lines 63-115): checks in order, first failure wins. */
  function Login(table: UserTable, email: Option<string>, password: Option<string>,
                 compare: (string, string) -> bool, env: Env): (o: Outcome<Session>)
    ensures o.table == table
    ensures !(GivenText(email) && GivenText(password)) ==> o.response == Err(NewAppError("Email and password are required", 400)) && !o.queried
    ensures GivenText(email) && GivenText(password) && table.up ==>
              match FindByEmail(table.accounts, email.value)
              case None => o.response == Err(NewAppError(InvalidCredentials, 401))
              case Some(a) =>
                if !a.isActive then o.response == Err(NewAppError("Account is inactive", 403))
                else if !compare(password.value, a.passwordHash) then o.response == Err(NewAppError(InvalidCredentials, 401))
                else o.response == (var t :- GenerateToken(a.id, a.email, a.role, a.facilityId, env); Ok(Session(Public(a), t)))
  {
    if !(GivenText(email) && GivenText(password)) then
      Outcome(table, Err(NewAppError("Email and password are required", 400)), false)
    else if !table.up then
      Outcome(table, Err(Unexpected("database query failed")), true)
    else
      match FindByEmail(table.accounts, email.value)
      case None => Outcome(table, Err(NewAppError(InvalidCredentials, 401)), true)
      case Some(a) =>
        if !a.isActive then Outcome(table, Err(NewAppError("Account is inactive", 403)), true)
        else if !compare(password.value, a.passwordHash) then Outcome(table, Err(NewAppError(InvalidCredentials, 401)), true)
        else
          match GenerateToken(a.id, a.email, a.role, a.facilityId, env)
          case Err(e) => Outcome(table, Err(e), true)
          case Ok(t) => Outcome(table, Ok(Session(Public(a), t)), true)
  }

  /** An unknown email and a wrong password get the same answer, so a
      response never tells whether an address has an account, unless that
      account is inactive: the inactive check precedes the password check. */
  lemma LoginHidesWhichCredentialFailed(table: UserTable, email: string, other: string, password: string,
                                        compare: (string, string) -> bool, env: Env)
    requires email != "" && other != "" && password != "" && table.up
    requires FindByEmail(table.accounts, email).None?
    requires FindByEmail(table.accounts, other).Some? && FindByEmail(table.accounts, other).value.isActive
    requires !compare(password, FindByEmail(table.accounts, other).value.passwordHash)
    ensures Login(table, Some(email), Some(password), compare, env).response
         == Login(table, Some(other), Some(password), compare, env).response
  {
  }

  lemma InactiveCheckedBeforePassword(table: UserTable, email: string, password: string,
                                      compare: (string, string) -> bool, env: Env)
    requires email != "" && password != "" && table.up
    requires FindByEmail(table.accounts, email).Some? && !FindByEmail(table.accounts, email).value.isActive
    ensures Login(table, Some(email), Some(password), compare, env).response == Err(NewAppError("Account is inactive", 403))
  {
  }

  /** `refreshToken` (lines 117-157). A token that does not verify makes
      `jwt.verify` throw a non-operational error, which the error handler
      answers with 500. */
  function Refresh(table: UserTable, token: Option<string>, verify: Verifier, env: Env): (o: Outcome<SignedToken>)
    ensures o.table == table
    ensures !GivenText(token) ==> o.response == Err(NewAppError("Token is required", 400)) && !o.queried
    ensures GivenText(token) && !GivenText(env.jwtSecret) ==> o.response == Err(Unexpected(SecretNotConfigured)) && !o.queried
    ensures o.queried <==> GivenText(token) && GivenText(env.jwtSecret) && verify(token.value, env.jwtSecret.value).Some?
    ensures o.response.Ok? ==> o.queried
    ensures o.response.Ok? ==>
              var claims := verify(token.value, env.jwtSecret.value).value;
              FindById(table, claims.userId).Found?
              && var row := FindById(table, claims.userId).row;
                 row.isActive && o.response.value.claims == Claims(row.id, row.email, row.role, row.facilityId)
  {
    if !GivenText(token) then Outcome(table, Err(NewAppError("Token is required", 400)), false)
    else if !GivenText(env.jwtSecret) then Outcome(table, Err(Unexpected(SecretNotConfigured)), false)
    else match verify(token.value, env.jwtSecret.value)
      case None => Outcome(table, Err(Unexpected("invalid token")), false)
      case Some(claims) =>
        match FindById(table, claims.userId)
        case QueryError => Outcome(table, Err(Unexpected("database query failed")), true)
        case NoRow => Outcome(table, Err(NewAppError(UserNotFoundOrInactive, 401)), true)
        case Found(row) =>
          if !row.isActive then Outcome(table, Err(NewAppError(UserNotFoundOrInactive, 401)), true)
          else Outcome(table, GenerateToken(row.id, row.email, row.role, row.facilityId, env), true)
  }

  /** The refreshed token reflects the account now, not the old claims: two
      tokens for the same user refresh to the same token, whatever role or
      facility they claimed. */
  lemma RefreshUsesCurrentAccount(table: UserTable, a: string, b: string, verify: Verifier, env: Env)
    requires a != "" && b != "" && GivenText(env.jwtSecret)
    requires verify(a, env.jwtSecret.value).Some? && verify(b, env.jwtSecret.value).Some?
    requires verify(a, env.jwtSecret.value).value.userId == verify(b, env.jwtSecret.value).value.userId
    ensures Refresh(table, Some(a), verify, env).response == Refresh(table, Some(b), verify, env).response
  {
  }

  /** `logout` (lines 159-166): stateless, always succeeds. */
  function Logout(table: UserTable): (o: Outcome<string>)
    ensures o.table == table && o.response.Ok? && !o.queried
  {
    Outcome(table, Ok("Logged out successfully"), false)
  }

  /** An account registered while the store and the secret are available can
      log in with the same password straight away, provided the hash check
      accepts the password against its own hash. */
  lemma RegisteredAccountCanLogIn(table: UserTable, body: Registration, newId: string, hash: string -> string,
                                  compare: (string, string) -> bool, env: Env)
    requires GivenText(body.email) && GivenText(body.password) && GivenText(body.name) && GivenText(body.role)
    requires table.up && FindByEmail(table.accounts, body.email.value).None? && GivenText(env.jwtSecret)
    requires compare(body.password.value, hash(body.password.value))
    ensures var o := Register(table, body, newId, hash, env);
      o.response.Ok? && Login(o.table, body.email, body.password, compare, env).response.Ok?
      && Login(o.table, body.email, body.password, compare, env).response.value.user == o.response.value.user
  {
    var o := Register(table, body, newId, hash, env);
    FindAppended(table.accounts, o.table.accounts[|table.accounts|]);
    assert o.table.accounts == table.accounts + [o.table.accounts[|table.accounts|]];
  }

  /** Appending an account with a new email makes it the one found. */
  lemma {:induction false} FindAppended(accounts: seq<Account>, a: Account)
    requires FindByEmail(accounts, a.email).None?
    ensures FindByEmail(accounts + [a], a.email) == Some(a)
  {
    if accounts != [] {
      assert (accounts + [a])[1..] == accounts[1..] + [a];
      assert accounts[0].email != a.email;
      FindAppended(accounts[1..], a);
    }
  }
}
