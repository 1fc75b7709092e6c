/**
 * The user administration page: the list of users, the create, edit and delete dialogs and the
 * role labels. The backend's answers are parameters; the requests are the ones the users service reads.
 */
module UsersPage {
  import opened Wrappers
  import UserService
  import UserController

  /** `getRoleLabel`: the three roles in Portuguese, any other role as it is. */
  function RoleLabel(role: string): (l: string)
    ensures role == UserService.Admin ==> l == "Administrador"
    ensures role == UserService.Operator ==> l == "Operador"
    ensures role == UserService.Viewer ==> l == "Visualizador"
    ensures !UserService.IsRole(role) ==> l == role
  {
    if role == UserService.Admin then "Administrador"
    else if role == UserService.Operator then "Operador"
    else if role == UserService.Viewer then "Visualizador"
    else role
  }

  /** `getRoleBadgeColor`: red, blue and gray for the three roles, gray for any other. */
  function RoleBadgeColor(role: string): (c: string)
    ensures role == UserService.Admin ==> c == "bg-red-100 text-red-800"
    ensures role == UserService.Operator ==> c == "bg-blue-100 text-blue-800"
    ensures role != UserService.Admin && role != UserService.Operator ==> c == "bg-gray-100 text-gray-800"
  {
    if role == UserService.Admin then "bg-red-100 text-red-800"
    else if role == UserService.Operator then "bg-blue-100 text-blue-800"
    else "bg-gray-100 text-gray-800"
  }

  /**
   * Every role the service reports (`NivelToRole` only gives these three) is shown by its own
   * Portuguese label, never by its code.
   */
  lemma KnownRolesAreLabelled(r1: string, r2: string)
    requires UserService.IsRole(r1) && UserService.IsRole(r2)
    ensures RoleLabel(r1) != r1
    ensures RoleLabel(r1) == RoleLabel(r2) <==> r1 == r2
  {
    if r1 != r2 {
      assert RoleLabel(r1) != RoleLabel(r2) by {
        if r1 == UserService.Admin {
          assert RoleLabel(r1)[0] == 'A';
          assert RoleLabel(r2)[0] != 'A';
        } else if r1 == UserService.Operator {
          assert RoleLabel(r1)[0] == 'O';
          assert RoleLabel(r2)[0] != 'O';
        } else {
          assert RoleLabel(r1)[0] == 'V';
          assert RoleLabel(r2)[0] != 'V';
        }
      }
    }
    assert RoleLabel(r1)[0] != r1[0];
  }

  /** The create/edit form. */
  datatype Form = Form(username: string, email: string, password: string, role: string)

  const EmptyForm := Form("", "", "", UserService.Viewer)

  /** The client's check before creating: username, email and password filled in. */
  predicate CreateAllowed(f: Form)
  {
    f.username != "" && f.email != "" && f.password != ""
  }

  /** The create body as the server receives it. */
  function CreateBodyOf(f: Form): (b: UserController.CreateBody)
    ensures b.username == Some(f.username) && b.email == Some(f.email) && b.password == Some(f.password)
    ensures b.role == Some(f.role)
  {
    UserController.CreateBody(Some(f.username), Some(f.email), Some(f.password), Some(f.role))
  }

  /** A form the page lets through, with a role picked, passes the server's own required-fields check. */
  lemma AllowedFormIsComplete(f: Form)
    requires CreateAllowed(f) && f.role != ""
    ensures UserController.AllGiven(CreateBodyOf(f))
  {
  }

  /** `handleEdit`'s body: the role of the form and the user's current active flag, nothing else. */
  function EditBody(f: Form, selected: UserService.User): (r: UserService.UpdateUserRequest)
    ensures r.role == Some(f.role) && r.active == Some(selected.active)
  {
    UserService.UpdateUserRequest(Some(f.role), Some(selected.active))
  }

  /** `{ success, error }` of a write. */
  datatype WriteAnswer = WriteAnswer(success: bool, error: string)

  /** `data.error || fallback`, for an answer or for a request that failed with the server's error text. */
  function ErrorText(outcome: Result<WriteAnswer>, fallback: string): (e: string)
    ensures outcome.Failure? ==> e == (if outcome.message != "" then outcome.message else fallback)
    ensures outcome.Ok? ==> e == (if outcome.value.error != "" then outcome.value.error else fallback)
  {
    var text := if outcome.Failure? then outcome.message else outcome.value.error;
    if text != "" then text else fallback
  }

  const AllRequired := "Todos os campos são obrigatórios"
  const LoadFailed := "Erro ao carregar utilizadores"

  class UsersState {
    var users: seq<UserService.User>
    var form: Form
    var selected: Option<UserService.User>
    var createOpen: bool
    var editOpen: bool
    var deleteOpen: bool
    var error: string

    constructor()
      ensures users == [] && form == EmptyForm && selected == None && error == ""
      ensures !createOpen && !editOpen && !deleteOpen
    {
      users := [];
      form := EmptyForm;
      selected := None;
      createOpen := false;
      editOpen := false;
      deleteOpen := false;
      error := "";
    }

    /** `loadUsers`: a successful answer replaces the list (`data || []`); a failed request is an error. */
    method LoadUsers(response: Result<(bool, Option<seq<UserService.User>>)>)
      modifies this`users, this`error
      ensures response.Ok? && response.value.0 ==> users == response.value.1.GetOr([]) && error == old(error)
      ensures response.Ok? && !response.value.0 ==> users == old(users) && error == old(error)
      ensures response.Failure? ==> users == old(users) && error == LoadFailed
    {
      if response.Failure? {
        error := LoadFailed;
      } else if response.value.0 {
        users := response.value.1.GetOr([]);
      }
    }

    /**
     * `handleCreate`: an incomplete form is an error and no request; a created user closes the
     * dialog and resets the form to an empty viewer.
     */
    method HandleCreate(response: Result<WriteAnswer>, reload: Result<(bool, Option<seq<UserService.User>>)>)
      returns (sent: Option<UserController.CreateBody>)
      modifies this`form, this`createOpen, this`users, this`error
      ensures !CreateAllowed(old(form)) ==> sent.None? && error == AllRequired && form == old(form)
      ensures CreateAllowed(old(form)) ==> sent == Some(CreateBodyOf(old(form)))
      ensures sent.Some? && response.Ok? && response.value.success ==> !createOpen && form == EmptyForm
      ensures sent.Some? && !(response.Ok? && response.value.success) ==>
        error == ErrorText(response, "Erro ao criar utilizador") && form == old(form) && createOpen == old(createOpen)
    {
      error := "";
      if !CreateAllowed(form) {
        error := AllRequired;
        return None;
      }
      sent := Some(CreateBodyOf(form));
      if response.Ok? && response.value.success {
        createOpen := false;
        form := EmptyForm;
        LoadUsers(reload);
      } else {
        error := ErrorText(response, "Erro ao criar utilizador");
      }
    }

    /** `openEditDialog`: the user's details in the form with the password blanked. */
    method OpenEditDialog(u: UserService.User)
      modifies this`selected, this`form, this`editOpen
      ensures selected == Some(u) && form == Form(u.username, u.email, "", u.role) && editOpen
    {
      selected := Some(u);
      form := Form(u.username, u.email, "", u.role);
      editOpen := true;
    }

    /** `handleEdit`: with a user selected, sends the role and the user's current active flag. */
    method HandleEdit(response: Result<WriteAnswer>, reload: Result<(bool, Option<seq<UserService.User>>)>)
      returns (sent: Option<(string, UserService.UpdateUserRequest)>)
      modifies this`selected, this`editOpen, this`users, this`error
      ensures old(selected).None? ==> sent.None? && error == old(error) && editOpen == old(editOpen)
      ensures old(selected).Some? ==> sent == Some((old(selected).value.id, EditBody(form, old(selected).value)))
      ensures sent.Some? && response.Ok? && response.value.success ==> !editOpen && selected == None
      ensures sent.Some? && !(response.Ok? && response.value.success) ==>
        error == ErrorText(response, "Erro ao atualizar utilizador") && selected == old(selected)
    {
      if selected.None? {
        return None;
      }
      error := "";
      sent := Some((selected.value.id, EditBody(form, selected.value)));
      if response.Ok? && response.value.success {
        editOpen := false;
        selected := None;
        LoadUsers(reload);
      } else {
        error := ErrorText(response, "Erro ao atualizar utilizador");
      }
    }

    /** `openDeleteDialog`. */
    method OpenDeleteDialog(u: UserService.User)
      modifies this`selected, this`deleteOpen
      ensures selected == Some(u) && deleteOpen
    {
      selected := Some(u);
      deleteOpen := true;
    }

    /** `handleDelete`: with a user selected, asks for that user's removal. */
    method HandleDelete(response: Result<WriteAnswer>, reload: Result<(bool, Option<seq<UserService.User>>)>)
      returns (sent: Option<string>)
      modifies this`selected, this`deleteOpen, this`users, this`error
      ensures old(selected).None? ==> sent.None? && error == old(error) && deleteOpen == old(deleteOpen)
      ensures old(selected).Some? ==> sent == Some(old(selected).value.id)
      ensures sent.Some? && response.Ok? && response.value.success ==> !deleteOpen && selected == None
      ensures sent.Some? && !(response.Ok? && response.value.success) ==>
        error == ErrorText(response, "Erro ao eliminar utilizador") && selected == old(selected)
    {
      if selected.None? {
        return None;
      }
      error := "";
      sent := Some(selected.value.id);
      if response.Ok? && response.value.success {
        deleteOpen := false;
        selected := None;
        LoadUsers(reload);
      } else {
        error := ErrorText(response, "Erro ao eliminar utilizador");
      }
    }
  }
}
