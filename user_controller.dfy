/**
 * UserController: the guards in front of UserService. The service calls are the function
 * parameters; a thrown error is their `Failure`.
 */
module UserController {
  import opened Wrappers
  import opened Http
  import opened UserService
  import opened AuthMiddleware

  /** The create body as sent: any field may be missing. */
  datatype CreateBody = CreateBody(username: Option<string>, email: Option<string>, password: Option<string>, role: Option<string>)

  /** A string field `!field` does not reject. */
  predicate Given(field: Option<string>)
  {
    field.Some? && field.value != ""
  }

  predicate AllGiven(b: CreateBody)
  {
    Given(b.username) && Given(b.email) && Given(b.password) && Given(b.role)
  }

  /** What a handler answered and which write, if any, it asked the service for. */
  datatype Handled<C, T> = Handled(reply: Reply<T>, write: Option<C>)

  /** `getUserById`: 404 when the service finds nobody, 500 when it throws. */
  function GetUserById(id: string, getUser: string -> Result<Option<User>>): (r: Reply<User>)
    ensures getUser(id).Ok? && getUser(id).value.None? ==> r == Error(404, "Utilizador não encontrado")
    ensures getUser(id).Failure? ==> r == Error(500, "Erro ao buscar utilizador")
    ensures r.Success? <==> getUser(id).Ok? && getUser(id).value.Some?
    ensures r.Success? ==> r.status == 200 && r.data == getUser(id).value.value
  {
    match getUser(id)
    case Failure(_) => Error(500, "Erro ao buscar utilizador")
    case Ok(None) => Error(404, "Utilizador não encontrado")
    case Ok(Some(u)) => Success(200, u)
  }

  /**
   * `createUser`: 400 unless all four fields are given, 400 for a role outside the three, 409
   * when the username is taken, 500 when the lookup fails; only then is the user created,
   * answering 201, or 500 when the creation fails.
   */
  function CreateUser(
    b: CreateBody,
    getByUsername: string -> Result<Option<User>>,
    create: CreateUserRequest -> Result<User>): (h: Handled<CreateUserRequest, User>)
    ensures !AllGiven(b) ==> h == Handled(Error(400, "Todos os campos são obrigatórios"), None)
    ensures AllGiven(b) && !IsRole(b.role.value) ==> h == Handled(Error(400, "Papel inválido"), None)
    ensures AllGiven(b) && IsRole(b.role.value) && getByUsername(b.username.value) == Ok(None) ==>
      h.write == Some(CreateUserRequest(b.username.value, b.email.value, b.password.value, b.role.value))
    ensures AllGiven(b) && getByUsername(b.username.value).Ok? && getByUsername(b.username.value).value.Some? ==>
      h.write.None? && (IsRole(b.role.value) ==> h.reply == Error(409, "Username já existe"))
    ensures h.reply.Success? <==> h.write.Some? && create(h.write.value).Ok?
    ensures h.reply.Success? ==> h.reply == Success(201, create(h.write.value).value)
    ensures h.write.Some? ==> IsRole(h.write.value.role)
    ensures h.write.Some? <==> AllGiven(b) && IsRole(b.role.value) && getByUsername(b.username.value) == Ok(None)
    ensures AllGiven(b) && IsRole(b.role.value) && getByUsername(b.username.value).Failure? ==>
      h == Handled(Error(500, "Erro ao criar utilizador"), None)
    ensures h.write.Some? && create(h.write.value).Failure? ==> h.reply == Error(500, "Erro ao criar utilizador")
  {
    if !AllGiven(b) then Handled(Error(400, "Todos os campos são obrigatórios"), None)
    else if !IsRole(b.role.value) then Handled(Error(400, "Papel inválido"), None)
    else match getByUsername(b.username.value)
      case Failure(_) => Handled(Error(500, "Erro ao criar utilizador"), None)
      case Ok(Some(_)) => Handled(Error(409, "Username já existe"), None)
      case Ok(None) =>
        var req := CreateUserRequest(b.username.value, b.email.value, b.password.value, b.role.value);
        match create(req)
        case Failure(_) => Handled(Error(500, "Erro ao criar utilizador"), Some(req))
        case Ok(u) => Handled(Success(201, u), Some(req))
  }

  /**
   * `updateUser`: a role that is given and not empty must be one of the three, else 400; the
   * service's null is 404. An empty role is not refused here and reaches the service.
   */
  function UpdateUser(
    id: string, req: UpdateUserRequest,
    update: (string, UpdateUserRequest) -> Result<Option<User>>): (h: Handled<UpdateUserRequest, User>)
    ensures Given(req.role) && !IsRole(req.role.value) ==> h == Handled(Error(400, "Papel inválido"), None)
    ensures h.write.Some? <==> !(Given(req.role) && !IsRole(req.role.value))
    ensures h.write.Some? ==> h.write.value == req
    ensures h.write.Some? && update(id, req) == Ok(None) ==> h.reply == Error(404, "Utilizador não encontrado")
    ensures h.reply.Success? <==> h.write.Some? && update(id, req).Ok? && update(id, req).value.Some?
    ensures h.reply.Success? ==> h.reply == Success(200, update(id, req).value.value)
  {
    if Given(req.role) && !IsRole(req.role.value) then Handled(Error(400, "Papel inválido"), None)
    else match update(id, req)
      case Failure(_) => Handled(Error(500, "Erro ao atualizar utilizador"), Some(req))
      case Ok(None) => Handled(Error(404, "Utilizador não encontrado"), Some(req))
      case Ok(Some(u)) => Handled(Success(200, u), Some(req))
  }

  const Deleted := "Utilizador eliminado com sucesso"

  /**
   * `deleteUser`: 400 when callers name themselves, before the user is even looked up; 404
   * for a missing user; otherwise the service deletes it.
   */
  function DeleteUser(
    caller: Option<SessionUser>, id: string,
    getUser: string -> Result<Option<User>>, delete: string -> Result<()>): (h: Handled<string, string>)
    ensures caller.Some? && caller.value.id == id ==>
      h == Handled(Error(400, "Não pode eliminar o seu próprio utilizador"), None)
    ensures h.write.Some? ==> h.write.value == id && !(caller.Some? && caller.value.id == id)
    ensures h.write.Some? <==>
      !(caller.Some? && caller.value.id == id) && getUser(id).Ok? && getUser(id).value.Some?
    ensures !(caller.Some? && caller.value.id == id) && getUser(id) == Ok(None) ==>
      h.reply == Error(404, "Utilizador não encontrado")
    ensures h.reply.Success? <==> h.write.Some? && delete(id).Ok?
    ensures h.reply.Success? ==> h.reply == Success(200, Deleted)
  {
    if caller.Some? && caller.value.id == id then
      Handled(Error(400, "Não pode eliminar o seu próprio utilizador"), None)
    else match getUser(id)
      case Failure(_) => Handled(Error(500, "Erro ao eliminar utilizador"), None)
      case Ok(None) => Handled(Error(404, "Utilizador não encontrado"), None)
      case Ok(Some(_)) =>
        match delete(id)
        case Failure(_) => Handled(Error(500, "Erro ao eliminar utilizador"), Some(id))
        case Ok(_) => Handled(Success(200, Deleted), Some(id))
  }

  /** Admins cannot delete their own account, whatever the lookup would say. */
  lemma NoSelfDelete(
    caller: SessionUser,
    getUser: string -> Result<Option<User>>, delete: string -> Result<()>)
    ensures DeleteUser(Some(caller), caller.id, getUser, delete).write.None?
    ensures DeleteUser(Some(caller), caller.id, getUser, delete).reply.Rejects(400)
  {
  }
}
