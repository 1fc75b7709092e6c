/**
 * Login and token validation. The user lookups are their answers (`GetUser` of the matching
 * rows), `compare` is bcrypt, `sign` and `verify` are jwt with the server's secret.
 */
module AuthController {
  import opened Wrappers
  import opened Js
  import opened Http
  import opened UserService
  import opened AuthMiddleware

  /** The user as the login reply shows it: every field but the password. */
  datatype PublicUser = PublicUser(
    id: string, username: string, email: string, role: string, active: bool, seccao: int, isAdmin: bool)

  datatype LoginResponse = LoginResponse(token: string, user: PublicUser)

  /** `const { password: _, ...userWithoutPassword } = user`. */
  function WithoutPassword(u: User): (p: PublicUser)
    ensures p.id == u.id && p.username == u.username && p.email == u.email && p.role == u.role
    ensures p.active == u.active && p.seccao == u.seccao && p.isAdmin == u.isAdmin
  {
    PublicUser(u.id, u.username, u.email, u.role, u.active, u.seccao, u.isAdmin)
  }

  /** The claims signed into the token. */
  function ClaimsOf(u: User): (c: SessionUser)
    ensures c.id == u.id && c.username == u.username && c.role == u.role
    ensures c.seccao == u.seccao && c.isAdmin == u.isAdmin
  {
    SessionUser(u.id, u.username, u.role, u.seccao, u.isAdmin)
  }

  /** A body field that `!field` does not reject. */
  predicate Given(field: Option<string>)
  {
    field.Some? && field.value != ""
  }

  /**
   * `login`: 400 without both credentials, 500 when the lookup by username fails, 401 for an
   * unknown user, an inactive one (before the password is looked at) or a wrong password;
   * otherwise the signed claims and the user.
   */
  function Login(
    username: Option<string>, password: Option<string>, found: Result<Option<User>>,
    compare: (string, string) -> bool, sign: SessionUser -> string): (r: Reply<LoginResponse>)
    ensures !Given(username) || !Given(password) ==> r == Error(400, "Username e password são obrigatórios")
    ensures Given(username) && Given(password) && found.Failure? ==> r == Error(500, "Erro interno do servidor")
    ensures Given(username) && Given(password) && found == Ok(None) ==> r == Error(401, "Credenciais inválidas")
    ensures Given(username) && Given(password) && found.Ok? && found.value.Some? && !found.value.value.active ==>
      r == Error(401, "Utilizador inativo")
    ensures r.Success? <==>
      Given(username) && Given(password) && found.Ok? && found.value.Some? && found.value.value.active &&
      ValidatePassword(password.value, found.value.value.password.GetOr(""), compare)
    ensures r.Success? ==>
      r == Success(200, LoginResponse(sign(ClaimsOf(found.value.value)), WithoutPassword(found.value.value)))
  {
    if !Given(username) || !Given(password) then Error(400, "Username e password são obrigatórios")
    else if found.Failure? then Error(500, "Erro interno do servidor")
    else if found.value.None? then Error(401, "Credenciais inválidas")
    else
      var user := found.value.value;
      if !user.active then Error(401, "Utilizador inativo")
      else if !ValidatePassword(password.value, user.password.GetOr(""), compare) then
        Error(401, "Credenciais inválidas")
      else Success(200, LoginResponse(sign(ClaimsOf(user)), WithoutPassword(user)))
  }

  /** An inactive account is refused whatever password is given. */
  lemma InactiveRefusedBeforePassword(
    username: string, p1: string, p2: string, u: User,
    compare: (string, string) -> bool, sign: SessionUser -> string)
    requires username != "" && p1 != "" && p2 != "" && !u.active
    ensures Login(Some(username), Some(p1), Ok(Some(u)), compare, sign)
         == Login(Some(username), Some(p2), Ok(Some(u)), compare, sign)
         == Error(401, "Utilizador inativo")
  {
  }

  /**
   * The token of a login, presented back as `Bearer <token>`, lets requests through as that
   * user, and the admin gate opens exactly for admins (every mapped account has
   * `isAdmin <==> role == 'admin'`).
   */
  lemma LoginTokenAuthenticates(u: User, token: string, verify: string -> Option<SessionUser>)
    requires ' ' !in token && token != "" && verify(token) == Some(ClaimsOf(u))
    requires u.isAdmin <==> u.role == Admin
    ensures AuthenticateToken(Some("Bearer " + token), verify) == Next(ClaimsOf(u))
    ensures RequireAdmin(Some(ClaimsOf(u))).Next? <==> u.isAdmin
  {
    assert "Bearer " + token == "Bearer" + " " + token;
    BearerRoundTrip("Bearer", token);
  }

  /** What a handler does with the request: a reply, or none at all. */
  datatype Answer<T> = Answered(reply: Reply<T>) | Unanswered

  /**
   * `validateToken`: 401 without a token, 403 for a rejected one, 401 when the account is gone
   * or inactive; otherwise the account as the lookup by id returns it. The lookup runs inside
   * the callback of `jwt.verify`, outside the handler's `try`, so a failed lookup is caught by
   * nobody and the request is left without a reply.
   */
  function ValidateToken(
    header: Option<string>, verify: string -> Option<SessionUser>, byId: string -> Result<Option<User>>)
    : (r: Answer<User>)
    ensures BearerToken(header).None? ==> r == Answered(Error(401, "Token não fornecido"))
    ensures BearerToken(header).Some? && verify(BearerToken(header).value).None? ==> r == Answered(Error(403, "Token inválido"))
    ensures r.Unanswered? <==>
      BearerToken(header).Some? && verify(BearerToken(header).value).Some? &&
      byId(verify(BearerToken(header).value).value.id).Failure?
    ensures (BearerToken(header).Some? && verify(BearerToken(header).value).Some? &&
             byId(verify(BearerToken(header).value).value.id).Ok? &&
             (byId(verify(BearerToken(header).value).value.id).value.None? ||
              !byId(verify(BearerToken(header).value).value.id).value.value.active)) ==>
      r == Answered(Error(401, "Utilizador não encontrado ou inativo"))
    ensures r.Answered? && r.reply.Success? <==>
      BearerToken(header).Some? && verify(BearerToken(header).value).Some? &&
      byId(verify(BearerToken(header).value).value.id).Ok? &&
      byId(verify(BearerToken(header).value).value.id).value.Some? &&
      byId(verify(BearerToken(header).value).value.id).value.value.active
    ensures r.Answered? && r.reply.Success? ==>
      r.reply == Success(200, byId(verify(BearerToken(header).value).value.id).value.value)
  {
    var token := BearerToken(header);
    if token.None? then Answered(Error(401, "Token não fornecido"))
    else
      var decoded := verify(token.value);
      if decoded.None? then Answered(Error(403, "Token inválido"))
      else
        match byId(decoded.value.id)
        case Failure(_) => Unanswered
        case Ok(user) =>
          if user.None? || !user.value.active then Answered(Error(401, "Utilizador não encontrado ou inativo"))
          else Answered(Success(200, user.value))
  }
}
