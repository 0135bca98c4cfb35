/** The user management page: the create, edit and delete dialogs with their shared form, the
    payload of an update, which buttons are enabled, the role chips and the filter reset. */
module UsersPage {
  import opened JsText
  import opened ApiClient

  const AdminRole := "admin"
  const VeterinarianRole := "veterinarian"
  const UserRole := "user"

  const CreateErrorMessage := "Kullanıcı oluşturulurken bir hata oluştu."
  const UpdateErrorMessage := "Kullanıcı güncellenirken bir hata oluştu."
  const DeleteErrorMessage := "Kullanıcı silinirken bir hata oluştu."

  /** A row of the user list; the timestamps are left out. */
  datatype User = User(id: string, name: string, email: string, role: string)

  /** The dialogs' form, also the body of the create and update requests; an update body may
      lack the password. */
  datatype UserForm = UserForm(name: string, email: string, password: Option<string>, role: string)

  /** A request the page sends for one user: its id and, for an update, the body. */
  datatype UpdateRequest = UpdateRequest(id: string, payload: UserForm)

  /** The form as every dialog but the edit dialog opens it, and as a successful save leaves it. */
  const BlankForm := UserForm("", "", Some(""), UserRole)

  /** The body of an update: the form with its password dropped when the password is empty
      or missing, so the server keeps the old one. */
  function UpdatePayload(form: UserForm): (r: UserForm)
    ensures r.name == form.name && r.email == form.email && r.role == form.role
    ensures r.password.Some? <==> Truthy(form.password)
    ensures r.password.Some? ==> r.password == form.password
  {
    if Truthy(form.password) then form else form.(password := None)
  }

  /** The edit dialog's form for a user: the user's name, e-mail and role, and no password. */
  function EditFormOf(user: User): (r: UserForm)
    ensures r.name == user.name && r.email == user.email && r.role == user.role
    ensures r.password == Some("")
  {
    UserForm(user.name, user.email, Some(""), user.role)
  }

  /** Saving the edit dialog unchanged sends the user's own name, e-mail and role and no
      password; typing a password sends exactly that password. */
  lemma EditPayloads(user: User, password: string)
    ensures UpdatePayload(EditFormOf(user)) == UserForm(user.name, user.email, None, user.role)
    ensures password != "" ==>
              UpdatePayload(EditFormOf(user).(password := Some(password))) == UserForm(user.name, user.email, Some(password), user.role)
  {
  }

  /** Dropping an empty password is all an update payload does: taking the payload of a
      payload changes nothing. */
  lemma UpdatePayloadIdempotent(form: UserForm)
    ensures UpdatePayload(UpdatePayload(form)) == UpdatePayload(form)
  {
  }

  /** The create button: nothing is saving and name, e-mail and password are all non-empty. */
  predicate CreateEnabled(formLoading: bool, form: UserForm) {
    !formLoading && form.name != "" && form.email != "" && Truthy(form.password)
  }

  /** The edit dialog's save button: nothing is saving and name and e-mail are non-empty. */
  predicate EditEnabled(formLoading: bool, form: UserForm) {
    !formLoading && form.name != "" && form.email != ""
  }

  /** Any form that can be created can be saved by the edit dialog; a blank form can do
      neither; the edit form of a user with a name and an e-mail can be saved but, lacking
      a password, not created. */
  lemma EnablementOrder(formLoading: bool, form: UserForm, user: User)
    ensures CreateEnabled(formLoading, form) ==> EditEnabled(formLoading, form)
    ensures !CreateEnabled(formLoading, BlankForm) && !EditEnabled(formLoading, BlankForm)
    ensures user.name != "" && user.email != "" ==>
              EditEnabled(false, EditFormOf(user)) && !CreateEnabled(false, EditFormOf(user))
    ensures formLoading ==> !CreateEnabled(formLoading, form) && !EditEnabled(formLoading, form)
  {
  }

  /** A row's delete button: enabled unless the user is an administrator. */
  predicate DeleteEnabled(user: User) {
    user.role != AdminRole
  }

  /** `getRoleColor`. */
  function RoleColor(role: string): (r: string)
    ensures role == AdminRole ==> r == "error"
    ensures role == VeterinarianRole ==> r == "warning"
    ensures role == UserRole ==> r == "primary"
    ensures role != AdminRole && role != VeterinarianRole && role != UserRole ==> r == "default"
  {
    if role == AdminRole then "error"
    else if role == VeterinarianRole then "warning"
    else if role == UserRole then "primary"
    else "default"
  }

  /** The delete button is disabled exactly on the rows shown in the administrator's colour. */
  lemma DeleteGuard(user: User)
    ensures !DeleteEnabled(user) <==> RoleColor(user.role) == "error"
  {
  }

  /** `getRoleLabel`. */
  function RoleLabel(role: string): (r: string)
    ensures role == AdminRole ==> r == "Admin"
    ensures role == VeterinarianRole ==> r == "Veteriner"
    ensures role == UserRole ==> r == "Kullanıcı"
    ensures role != AdminRole && role != VeterinarianRole && role != UserRole ==> r == role
  {
    if role == AdminRole then "Admin"
    else if role == VeterinarianRole then "Veteriner"
    else if role == UserRole then "Kullanıcı"
    else role
  }

  /** The two maps agree on which roles they know: a role is shown under its own name
      exactly when its colour is the default one, and the three known roles get three
      different labels and three different colours. */
  lemma RoleMapsAgree(role: string, other: string)
    ensures RoleLabel(role) == role <==> RoleColor(role) == "default"
    ensures RoleColor(role) != "default" && RoleColor(other) != "default" ==>
              (RoleColor(role) == RoleColor(other) <==> role == other)
              && (RoleLabel(role) == RoleLabel(other) <==> role == other)
  {
    if role == AdminRole {
      assert RoleLabel(role)[0] != role[0];
    } else if role == VeterinarianRole {
      assert RoleLabel(role)[0] != role[0];
    } else if role == UserRole {
      assert RoleLabel(role)[0] != role[0];
    }
  }

  /** The user page's state; the list, its statistics and the pagination counts are left
      out. */
  class UsersView {
    var error: Option<string>
    var page: int
    var roleFilter: string
    var searchTerm: string
    var createDialogOpen: bool
    var editDialogOpen: bool
    var deleteDialogOpen: bool
    var selectedUser: Option<User>
    var formData: UserForm
    var formLoading: bool

    constructor ()
      ensures error.None? && page == 1 && roleFilter == "" && searchTerm == ""
      ensures !createDialogOpen && !editDialogOpen && !deleteDialogOpen
      ensures selectedUser.None? && formData == BlankForm && !formLoading
    {
      error := None;
      page := 1;
      roleFilter := "";
      searchTerm := "";
      createDialogOpen := false;
      editDialogOpen := false;
      deleteDialogOpen := false;
      selectedUser := None;
      formData := BlankForm;
      formLoading := false;
    }

    /** `openCreateDialog`: a blank form in the create dialog. */
    method OpenCreateDialog()
      modifies this
      ensures formData == BlankForm && createDialogOpen
      ensures editDialogOpen == old(editDialogOpen) && deleteDialogOpen == old(deleteDialogOpen)
      ensures selectedUser == old(selectedUser) && formLoading == old(formLoading) && error == old(error)
      ensures page == old(page) && roleFilter == old(roleFilter) && searchTerm == old(searchTerm)
    {
      formData := BlankForm;
      createDialogOpen := true;
    }

    /** `openEditDialog`: the user is selected and the form holds the user's fields. */
    method OpenEditDialog(user: User)
      modifies this
      ensures selectedUser == Some(user) && formData == EditFormOf(user) && editDialogOpen
      ensures createDialogOpen == old(createDialogOpen) && deleteDialogOpen == old(deleteDialogOpen)
      ensures formLoading == old(formLoading) && error == old(error)
      ensures page == old(page) && roleFilter == old(roleFilter) && searchTerm == old(searchTerm)
    {
      selectedUser := Some(user);
      formData := EditFormOf(user);
      editDialogOpen := true;
    }

    /** `openDeleteDialog`: the user is selected; the form is left as it is. */
    method OpenDeleteDialog(user: User)
      modifies this
      ensures selectedUser == Some(user) && deleteDialogOpen
      ensures formData == old(formData) && createDialogOpen == old(createDialogOpen)
      ensures editDialogOpen == old(editDialogOpen) && formLoading == old(formLoading) && error == old(error)
      ensures page == old(page) && roleFilter == old(roleFilter) && searchTerm == old(searchTerm)
    {
      selectedUser := Some(user);
      deleteDialogOpen := true;
    }

    /** `handleCreateUser`, the request settling as `outcome` (the response's `success`). The
        form is sent as it is; success closes the dialog, blanks the form and asks for the
        list again; a failed request shows an error. */
    method HandleCreateUser(outcome: Outcome<bool>) returns (sent: UserForm, refetch: bool)
      modifies this
      ensures sent == old(formData)
      ensures refetch <==> outcome == Ok(true)
      ensures createDialogOpen == (if refetch then false else old(createDialogOpen))
      ensures formData == (if refetch then BlankForm else old(formData))
      ensures error == (if outcome.Err? then Some(CreateErrorMessage) else old(error))
      ensures !formLoading
      ensures editDialogOpen == old(editDialogOpen) && deleteDialogOpen == old(deleteDialogOpen)
      ensures selectedUser == old(selectedUser)
      ensures page == old(page) && roleFilter == old(roleFilter) && searchTerm == old(searchTerm)
    {
      formLoading := true;
      sent := formData;
      refetch := false;
      match outcome {
        case Ok(success) =>
          if success {
            createDialogOpen := false;
            formData := BlankForm;
            refetch := true;
          }
        case Err(_) =>
          error := Some(CreateErrorMessage);
      }
      formLoading := false;
    }

    /** `handleUpdateUser`, the request settling as `outcome`. With no user selected nothing
        happens and nothing is sent. Otherwise the selected user's id and the update payload
        of the form are sent; success closes the dialog, clears the selection, blanks the
        form and asks for the list again; a failed request shows an error. */
    method HandleUpdateUser(outcome: Outcome<bool>) returns (sent: Option<UpdateRequest>, refetch: bool)
      modifies this
      ensures old(selectedUser).None? ==>
                sent.None? && !refetch && formLoading == old(formLoading) && error == old(error)
                && editDialogOpen == old(editDialogOpen) && selectedUser == old(selectedUser) && formData == old(formData)
      ensures old(selectedUser).Some? ==>
                sent == Some(UpdateRequest(old(selectedUser).value.id, UpdatePayload(old(formData))))
                && (refetch <==> outcome == Ok(true))
                && editDialogOpen == (if refetch then false else old(editDialogOpen))
                && selectedUser == (if refetch then None else old(selectedUser))
                && formData == (if refetch then BlankForm else old(formData))
                && error == (if outcome.Err? then Some(UpdateErrorMessage) else old(error))
                && !formLoading
      ensures createDialogOpen == old(createDialogOpen) && deleteDialogOpen == old(deleteDialogOpen)
      ensures page == old(page) && roleFilter == old(roleFilter) && searchTerm == old(searchTerm)
    {
      sent := None;
      refetch := false;
      if selectedUser.None? {
        return;
      }
      formLoading := true;
      var updateData := UpdatePayload(formData);
      sent := Some(UpdateRequest(selectedUser.value.id, updateData));
      match outcome {
        case Ok(success) =>
          if success {
            editDialogOpen := false;
            selectedUser := None;
            formData := BlankForm;
            refetch := true;
          }
        case Err(_) =>
          error := Some(UpdateErrorMessage);
      }
      formLoading := false;
    }

    /** `handleDeleteUser`, the request settling as `outcome`. With no user selected nothing
        happens. Otherwise the selected user's id is sent; success closes the dialog, clears
        the selection and asks for the list again; a failed request shows an error. */
    method HandleDeleteUser(outcome: Outcome<bool>) returns (deletedId: Option<string>, refetch: bool)
      modifies this
      ensures old(selectedUser).None? ==>
                deletedId.None? && !refetch && formLoading == old(formLoading) && error == old(error)
                && deleteDialogOpen == old(deleteDialogOpen) && selectedUser == old(selectedUser)
      ensures old(selectedUser).Some? ==>
                deletedId == Some(old(selectedUser).value.id)
                && (refetch <==> outcome == Ok(true))
                && deleteDialogOpen == (if refetch then false else old(deleteDialogOpen))
                && selectedUser == (if refetch then None else old(selectedUser))
                && error == (if outcome.Err? then Some(DeleteErrorMessage) else old(error))
                && !formLoading
      ensures formData == old(formData) && createDialogOpen == old(createDialogOpen)
      ensures editDialogOpen == old(editDialogOpen)
      ensures page == old(page) && roleFilter == old(roleFilter) && searchTerm == old(searchTerm)
    {
      deletedId := None;
      refetch := false;
      if selectedUser.None? {
        return;
      }
      formLoading := true;
      deletedId := Some(selectedUser.value.id);
      match outcome {
        case Ok(success) =>
          if success {
            deleteDialogOpen := false;
            selectedUser := None;
            refetch := true;
          }
        case Err(_) =>
          error := Some(DeleteErrorMessage);
      }
      formLoading := false;
    }

    /** The filter reset: no search, every role, the first page. */
    method ClearFilters()
      modifies this
      ensures searchTerm == "" && roleFilter == "" && page == 1
      ensures error == old(error) && createDialogOpen == old(createDialogOpen)
      ensures editDialogOpen == old(editDialogOpen) && deleteDialogOpen == old(deleteDialogOpen)
      ensures selectedUser == old(selectedUser) && formData == old(formData) && formLoading == old(formLoading)
    {
      searchTerm := "";
      roleFilter := "";
      page := 1;
    }
  }
}
