/**
 * The account rules of UserService: the role <-> level mapping of TAB_UTILIZADORES,
 * the admin flag, the password-scheme dispatch and the UPDATE builder.
 * Times are milliseconds; bcrypt is the `compare` parameter.
 */
module UserService {
  import opened Wrappers
  import opened Js
  import opened Sql

  const Admin := "admin"
  const Operator := "operator"
  const Viewer := "viewer"

  /** `365 * 24 * 60 * 60 * 1000`: the validity a new or re-activated account receives. */
  const YearMs := 31536000000

  predicate IsRole(r: string) { r == Admin || r == Operator || r == Viewer }

  /** A row of TAB_UTILIZADORES. A NULL NIVEL is represented by any level outside 1..3. */
  datatype UserRow = UserRow(
    utilizador: string, senha: string, nivel: int,
    validade: Option<int>, seccao: Option<int>, administrador: Option<string>)

  datatype User = User(
    id: string, username: string, email: string, role: string,
    active: bool, seccao: int, isAdmin: bool, password: Option<string>)

  datatype CreateUserRequest = CreateUserRequest(username: string, email: string, password: string, role: string)

  datatype UpdateUserRequest = UpdateUserRequest(role: Option<string>, active: Option<bool>)

  /** `roleToNivel`: unknown roles get the lowest level. */
  function RoleToNivel(role: string): (n: int)
    ensures n == 1 <==> role == Admin
    ensures n == 2 <==> role == Operator
    ensures n == 3 <==> role != Admin && role != Operator
  {
    if role == Admin then 1 else if role == Operator then 2 else 3
  }

  /** The ADMINISTRADOR value `createUser` and `updateUser` store for a role. */
  function AdminFlagOf(role: string): (f: string)
    ensures f == "S" <==> role == Admin
    ensures f == "N" <==> role != Admin
  {
    if role == Admin then "S" else "N"
  }

  /** `(administrador || '').toString().trim().toUpperCase()`. */
  function NormalizedFlag(administrador: Option<string>): string
  {
    Upper(Trim(administrador.GetOr("")))
  }

  predicate IsAdminFlag(administrador: Option<string>)
  {
    var f := NormalizedFlag(administrador);
    f == "S" || f == "Y" || f == "1"
  }

  /** `nivelToRole`: the flag wins over the level; unknown levels read as viewer. */
  function NivelToRole(nivel: int, administrador: Option<string>): (r: string)
    ensures IsRole(r)
    ensures IsAdminFlag(administrador) ==> r == Admin
    ensures !IsAdminFlag(administrador) ==> (r == Admin <==> nivel == 1) && (r == Operator <==> nivel == 2)
  {
    if IsAdminFlag(administrador) then Admin
    else if nivel == 1 then Admin
    else if nivel == 2 then Operator
    else Viewer
  }

  /** `isUserAdmin`. */
  predicate IsUserAdmin(nivel: int, administrador: Option<string>)
  {
    IsAdminFlag(administrador) || nivel == 1
  }

  /** The two readings of a row agree: a user is an administrator iff their role is 'admin'. */
  lemma AdminIffAdminRole(nivel: int, administrador: Option<string>)
    ensures IsUserAdmin(nivel, administrador) <==> NivelToRole(nivel, administrador) == Admin
  {
  }

  /** A one-letter upper-case flag is already normalised. */
  lemma LetterFlagIsNormal(c: char)
    requires IsUpperAscii(c)
    ensures NormalizedFlag(Some([c])) == [c]
  {
    assert TrimStart([c]) == [c];
    assert TrimEnd([c]) == [c];
    assert Upper([c]) == [c];
  }

  lemma FlagOfRole(role: string)
    ensures NormalizedFlag(Some(AdminFlagOf(role))) == AdminFlagOf(role)
    ensures IsAdminFlag(Some(AdminFlagOf(role))) <==> role == Admin
  {
    if role == Admin {
      assert AdminFlagOf(role) == ['S'];
      LetterFlagIsNormal('S');
    } else {
      assert AdminFlagOf(role) == ['N'];
      LetterFlagIsNormal('N');
      assert ['N'] != "Y" && ['N'] != "1" && ['N'] != "S";
    }
  }

  /** What `createUser` stores for a role reads back as that role, and as admin exactly for 'admin'. */
  lemma RoleRoundTrip(role: string)
    requires IsRole(role)
    ensures NivelToRole(RoleToNivel(role), Some(AdminFlagOf(role))) == role
    ensures IsUserAdmin(RoleToNivel(role), Some(AdminFlagOf(role))) <==> role == Admin
  {
    FlagOfRole(role);
  }

  /** The bcrypt format test of `validatePassword`. */
  predicate IsBcryptHash(stored: string)
  {
    StartsWith(stored, "$2b$") && |stored| == 60
  }

  /** `validatePassword`: bcrypt for bcrypt-shaped values, plain equality for legacy ones. */
  function ValidatePassword(plain: string, stored: string, compare: (string, string) -> bool): (ok: bool)
    ensures IsBcryptHash(stored) ==> (ok <==> compare(plain, stored))
    ensures !IsBcryptHash(stored) ==> (ok <==> plain == stored)
  {
    if stored != "" && IsBcryptHash(stored) then compare(plain, stored) else plain == stored
  }

  /** A legacy plain-text password is never handed to bcrypt: only the identical text is accepted. */
  lemma LegacyPasswordExact(plain: string, stored: string, compare: (string, string) -> bool)
    requires |stored| != 60
    ensures ValidatePassword(plain, stored, compare) <==> plain == stored
  {
  }

  /** The row mapping shared by getAllUsers, getUserById and getUserByUsername. */
  function MapUserRow(row: UserRow, now: int, withPassword: bool): (u: User)
    ensures u.id == row.utilizador && u.username == row.utilizador
    ensures u.email == row.utilizador + "@gesproducao.com"
    ensures u.active <==> row.validade.None? || row.validade.value > now
    ensures row.seccao.Some? && row.seccao.value != 0 ==> u.seccao == row.seccao.value
    ensures row.seccao.None? || row.seccao.value == 0 ==> u.seccao == 1
    ensures u.role == NivelToRole(row.nivel, row.administrador)
    ensures u.isAdmin <==> u.role == Admin
    ensures u.password.Some? <==> withPassword
    ensures withPassword ==> u.password.value == row.senha
  {
    AdminIffAdminRole(row.nivel, row.administrador);
    User(
      row.utilizador, row.utilizador, row.utilizador + "@gesproducao.com",
      NivelToRole(row.nivel, row.administrador),
      row.validade.None? || row.validade.value > now,
      if row.seccao.Some? && row.seccao.value != 0 then row.seccao.value else 1,
      IsUserAdmin(row.nivel, row.administrador),
      if withPassword then Some(row.senha) else None)
  }

  /** `getAllUsers`: one user per row, in row order. */
  function GetAllUsers(rows: seq<UserRow>, now: int): (users: seq<User>)
    ensures |users| == |rows|
    ensures forall i :: 0 <= i < |rows| ==> users[i] == MapUserRow(rows[i], now, false)
    ensures forall i :: 0 <= i < |rows| ==> users[i].username == rows[i].utilizador && users[i].password.None?
  {
    if rows == [] then [] else [MapUserRow(rows[0], now, false)] + GetAllUsers(rows[1..], now)
  }

  /** `getUserById` (no password) and `getUserByUsername` (with password): null when no row matches. */
  function GetUser(rows: seq<UserRow>, now: int, withPassword: bool): (u: Option<User>)
    ensures u.None? <==> rows == []
    ensures u.Some? ==> u.value == MapUserRow(rows[0], now, withPassword)
    ensures u.Some? ==> u.value.username == rows[0].utilizador && (u.value.password.Some? <==> withPassword)
  {
    if rows == [] then None else Some(MapUserRow(rows[0], now, withPassword))
  }

  /** The INSERT of `createUser` and the user it returns. */
  datatype CreatedUser = CreatedUser(insert: Statement, user: User)

  const InsertUserSql :=
    "INSERT INTO TAB_UTILIZADORES (UTILIZADOR, SENHA, NIVEL, VALIDADE, ULTIMO_LOGIN, NR_LOGINS, SECCAO, ADMINISTRADOR) VALUES (?, ?, ?, ?, ?, ?, ?, ?)"

  /** `createUser`, given the bcrypt hash of the password and the current time. */
  function CreateUser(req: CreateUserRequest, hash: string, now: int): (c: CreatedUser)
    ensures c.insert.sql == InsertUserSql
    ensures c.insert.params == [
      PText(req.username), PText(hash), PInt(RoleToNivel(req.role)), PDate(now + YearMs),
      PNull, PInt(0), PInt(1), PText(AdminFlagOf(req.role))]
    ensures c.user.id == req.username && c.user.username == req.username && c.user.email == req.email
    ensures c.user.role == req.role && c.user.active && c.user.seccao == 1
    ensures c.user.isAdmin <==> req.role == Admin
    ensures c.user.password.None?
  {
    CreatedUser(
      Statement(InsertUserSql, [
        PText(req.username), PText(hash), PInt(RoleToNivel(req.role)), PDate(now + YearMs),
        PNull, PInt(0), PInt(1), PText(AdminFlagOf(req.role))]),
      User(req.username, req.username, req.email, req.role, true, 1, req.role == Admin, None))
  }

  /** The row the INSERT of `createUser` writes, column by column. */
  function InsertedRow(c: CreatedUser): Option<UserRow>
  {
    var p := c.insert.params;
    if |p| == 8 && p[0].PText? && p[1].PText? && p[2].PInt? && p[3].PDate? && p[6].PInt? && p[7].PText?
    then Some(UserRow(p[0].s, p[1].s, p[2].i, Some(p[3].t), Some(p[6].i), Some(p[7].s)))
    else None
  }

  /**
   * Reading back a freshly created account, within its year of validity, yields the
   * user `createUser` returned (apart from the email, which reads back as the default one).
   */
  lemma CreatedUserReadsBack(req: CreateUserRequest, hash: string, now: int, later: int)
    requires IsRole(req.role) && later < now + YearMs
    ensures var c := CreateUser(req, hash, now);
      InsertedRow(c).Some? &&
      var u := MapUserRow(InsertedRow(c).value, later, false);
      u.id == c.user.id && u.role == c.user.role && u.active && u.seccao == c.user.seccao &&
      u.isAdmin == c.user.isAdmin
  {
    RoleRoundTrip(req.role);
  }

  const SetNivel := Assign("NIVEL")
  const SetAdministrador := Assign("ADMINISTRADOR")
  const SetValidade := Assign("VALIDADE")

  /** The fields `updateUser` sets, in order. */
  function UpdateFields(req: UpdateUserRequest): seq<string>
  {
    (if req.role.Some? then [SetNivel, SetAdministrador] else []) +
    (if req.active.Some? then [SetValidade] else [])
  }

  /** The values bound to those fields, in the same order. */
  function UpdateValues(req: UpdateUserRequest, now: int): seq<Param>
  {
    (if req.role.Some? then [PInt(RoleToNivel(req.role.value)), PText(AdminFlagOf(req.role.value))] else []) +
    (if req.active.Some? then [PDate(if req.active.value then now + YearMs else now - 1)] else [])
  }

  const UpdateUserHead := "UPDATE TAB_UTILIZADORES SET "
  const WhereUtilizador := " WHERE UTILIZADOR"

  function UpdateUserSql(fields: seq<string>): string
  {
    UpdateUserHead + Join(fields, Comma) + Assign(WhereUtilizador)
  }

  lemma SqlPiecesClean()
    ensures '?' !in UpdateUserHead && '?' !in Comma && '?' !in WhereUtilizador
    ensures '?' !in "NIVEL" && '?' !in "ADMINISTRADOR" && '?' !in "VALIDADE"
  {
  }

  lemma SetFieldsBindOne()
    ensures Placeholders(SetNivel) == 1 && Placeholders(SetAdministrador) == 1 && Placeholders(SetValidade) == 1
  {
    SqlPiecesClean();
    AssignPlaceholder("NIVEL");
    AssignPlaceholder("ADMINISTRADOR");
    AssignPlaceholder("VALIDADE");
  }

  lemma UpdateFieldsPlaceholders(req: UpdateUserRequest)
    ensures OnePlaceholderEach(UpdateFields(req))
  {
    SetFieldsBindOne();
  }

  lemma UpdateSqlPlaceholders(fields: seq<string>)
    requires OnePlaceholderEach(fields)
    ensures Placeholders(UpdateUserSql(fields)) == |fields| + 1
  {
    SqlPiecesClean();
    AssignPlaceholder(WhereUtilizador);
    PlaceholdersJoinFrame(UpdateUserHead, fields, Comma, Assign(WhereUtilizador));
  }

  /**
   * The statement `updateUser` issues: none when neither role nor active is given (it then
   * only re-reads the user), otherwise one placeholder per value with the id bound last.
   */
  method BuildUserUpdate(id: string, req: UpdateUserRequest, now: int) returns (stmt: Option<Statement>)
    ensures stmt.None? <==> req.role.None? && req.active.None?
    ensures stmt.Some? ==> stmt.value == Statement(UpdateUserSql(UpdateFields(req)), UpdateValues(req, now) + [PText(id)])
    ensures stmt.Some? ==> Placeholders(stmt.value.sql) == |stmt.value.params|
    ensures stmt.Some? ==> stmt.value.params[|stmt.value.params| - 1] == PText(id)
  {
    var updateFields: seq<string> := [];
    var values: seq<Param> := [];
    if req.role.Some? {
      updateFields := updateFields + [SetNivel, SetAdministrador];
      values := values + [PInt(RoleToNivel(req.role.value)), PText(AdminFlagOf(req.role.value))];
    }
    if req.active.Some? {
      var validade := if req.active.value then now + YearMs else now - 1;
      updateFields := updateFields + [SetValidade];
      values := values + [PDate(validade)];
    }
    if |updateFields| == 0 {
      return None;
    }
    assert updateFields == UpdateFields(req) && values == UpdateValues(req, now);
    values := values + [PText(id)];
    UpdateFieldsPlaceholders(req);
    UpdateSqlPlaceholders(updateFields);
    stmt := Some(Statement(UpdateUserSql(updateFields), values));
  }

  /** An account deactivated by `updateUser` reads back inactive; a re-activated one active for a year. */
  lemma ActiveReadsBack(row: UserRow, active: bool, now: int, later: int)
    requires now <= later < now + YearMs
    ensures MapUserRow(row.(validade := Some(if active then now + YearMs else now - 1)), later, false).active == active
  {
  }

  const DefaultAdmin := CreateUserRequest("admin", "admin@gesproducao.com", "admin123", Admin)

  /** `initializeDefaultUsers`: the account it creates, if any. A failing listing creates none. */
  function InitializeDefaultUsers(existing: Result<seq<User>>): (req: Option<CreateUserRequest>)
    ensures req.Some? <==> existing == Ok([])
    ensures req.Some? ==> req.value == DefaultAdmin && IsRole(req.value.role)
  {
    if existing.Ok? && |existing.value| == 0 then Some(DefaultAdmin) else None
  }
}
