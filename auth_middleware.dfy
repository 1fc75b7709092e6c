/**
 * The authentication middleware: the bearer token of the `authorization` header, the user it
 * carries, and the role gates. The section rules the controllers apply to that user are here too.
 * `verify` stands for jwt.verify with the server's secret: None when the token is rejected.
 */
module AuthMiddleware {
  import opened Wrappers
  import opened Js

  /** The claims of a session token, as `req.user`. */
  datatype SessionUser = SessionUser(id: string, username: string, role: string, seccao: int, isAdmin: bool)

  /** `authHeader && authHeader.split(' ')[1]`, None when that is absent or empty. */
  function BearerToken(header: Option<string>): (token: Option<string>)
    ensures token.Some? <==>
      header.Some? && header.value != "" && |Split(header.value, ' ')| > 1 && Split(header.value, ' ')[1] != ""
    ensures token.Some? ==> token.value == Split(header.value, ' ')[1] && ' ' !in token.value
  {
    if header.Some? && header.value != "" then
      var parts := Split(header.value, ' ');
      if |parts| > 1 && parts[1] != "" then Some(parts[1]) else None
    else None
  }

  /** The header a client sends, `Bearer <token>`, yields the token back. */
  lemma BearerRoundTrip(scheme: string, token: string)
    requires ' ' !in scheme && ' ' !in token && token != ""
    ensures BearerToken(Some(scheme + " " + token)) == Some(token)
  {
    SplitCons(scheme, ' ', token);
    assert scheme + " " + token == scheme + [' '] + token;
    SplitWithoutSep(token, ' ');
  }

  /** What a middleware does with a request: pass it on with `req.user`, or answer it. */
  datatype Gate = Next(user: SessionUser) | Deny(status: int, message: string)

  /** `authenticateToken`. */
  function AuthenticateToken(header: Option<string>, verify: string -> Option<SessionUser>): (g: Gate)
    ensures BearerToken(header).None? ==> g == Deny(401, "Token de acesso requerido")
    ensures BearerToken(header).Some? && verify(BearerToken(header).value).None? ==>
      g == Deny(403, "Token inválido")
    ensures g.Next? <==> BearerToken(header).Some? && verify(BearerToken(header).value).Some?
    ensures g.Next? ==> g.user == verify(BearerToken(header).value).value
  {
    var token := BearerToken(header);
    if token.None? then Deny(401, "Token de acesso requerido")
    else
      var claims := verify(token.value);
      if claims.None? then Deny(403, "Token inválido") else Next(claims.value)
  }

  /** `requireRole(roles)`: 401 without a user, 403 for a role outside the list. */
  function RequireRole(roles: seq<string>, user: Option<SessionUser>): (g: Gate)
    ensures user.None? ==> g == Deny(401, "Utilizador não autenticado")
    ensures user.Some? && user.value.role !in roles ==> g == Deny(403, "Acesso negado: permissões insuficientes")
    ensures g.Next? <==> user.Some? && user.value.role in roles
    ensures g.Next? ==> g.user == user.value
  {
    if user.None? then Deny(401, "Utilizador não autenticado")
    else if user.value.role !in roles then Deny(403, "Acesso negado: permissões insuficientes")
    else Next(user.value)
  }

  /** `requireAdmin = requireRole(['admin'])`: the role decides, not the isAdmin claim. */
  function RequireAdmin(user: Option<SessionUser>): (g: Gate)
    ensures g.Next? <==> user.Some? && user.value.role == "admin"
  {
    RequireRole(["admin"], user)
  }

  // ---------------------------------------------------------------- sections

  /** `req.user?.isAdmin`. */
  predicate IsAdmin(user: Option<SessionUser>)
  {
    user.Some? && user.value.isAdmin
  }

  /** `req.user?.seccao || 1`: the section a non-admin is confined to. */
  function UserSeccao(user: Option<SessionUser>): (s: int)
    ensures user.Some? && user.value.seccao != 0 ==> s == user.value.seccao
    ensures user.None? || user.value.seccao == 0 ==> s == 1
    ensures s != 0
  {
    if user.Some? && user.value.seccao != 0 then user.value.seccao else 1
  }

  /**
   * `!req.user?.isAdmin && seccao !== req.user?.seccao` is the refusal: admins reach every
   * section, others only their own (a NaN section, or no user, never matches).
   */
  predicate MaySection(user: Option<SessionUser>, seccao: JsNumber)
  {
    IsAdmin(user) || (user.Some? && seccao == Num(user.value.seccao))
  }

  /** A non-admin reaches exactly one section, the one in their token. */
  lemma OneSectionForNonAdmins(user: Option<SessionUser>, a: JsNumber, b: JsNumber)
    requires !IsAdmin(user) && MaySection(user, a) && MaySection(user, b)
    ensures a == b && a == Num(user.value.seccao)
  {
  }
}
