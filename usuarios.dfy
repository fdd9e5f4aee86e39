/** The users screen (src/components/UsuariosView.js): the user list edits,
    the form that never shows a stored password, and the rule that no one
    deletes their own account. */
module Usuarios {
  import opened Seqs
  import opened Domain
  import opened Crud

  /** The user form's four fields. */
  datatype UserForm = UserForm(nombre: string, email: string, password: string, rol: string)

  /** The empty form: a new user is a `vendedor` unless chosen otherwise. */
  const EmptyUserForm := UserForm("", "", "", "vendedor")

  /** The form `handleEdit` fills from a user. */
  function EditForm(u: User): (f: UserForm)
    ensures f.nombre == u.nombre && f.email == u.email && f.rol == u.rol
    ensures f.password == ""
  {
    UserForm(u.nombre, u.email, "", u.rol)
  }

  /** The delete button is rendered on every row but the current user's own
      (line 183); `id` is the row's user id. */
  function ShowDeleteButton(currentUser: User, id: int): bool {
    id != currentUser.id
  }

  datatype DeleteOutcome = OwnAccount | NotConfirmed | Deleted | NotDeleted

  class UsuariosView {
    const currentUser: User
    var users: seq<User>
    var editingItem: Option<User>
    var showModal: bool
    var formData: UserForm

    constructor (currentUser: User, users: seq<User>)
      ensures this.currentUser == currentUser && this.users == users
      ensures editingItem == None && !showModal && formData == EmptyUserForm
    {
      this.currentUser := currentUser;
      this.users := users;
      editingItem := None;
      showModal := false;
      formData := EmptyUserForm;
    }

    /** `resetForm()` */
    method ResetForm()
      modifies this`editingItem, this`showModal, this`formData
      ensures editingItem == None && !showModal && formData == EmptyUserForm
    {
      formData := EmptyUserForm;
      editingItem := None;
      showModal := false;
    }

    /** `handleSubmit(e)`: the form is reset unless the call throws. */
    method HandleSubmit(response: ApiResponse<User>)
      modifies this`users, this`editingItem, this`showModal, this`formData
      ensures response.Threw? ==>
                users == old(users) && editingItem == old(editingItem) &&
                showModal == old(showModal) && formData == old(formData)
      ensures !response.Threw? ==>
                users == SubmitList(old(users), UserId,
                                    if old(editingItem).Some? then Some(old(editingItem).value.id) else None,
                                    response) &&
                editingItem == None && !showModal && formData == EmptyUserForm
    {
      if response.Threw? {
        return;
      }
      if editingItem.Some? {
        if response.Saved? {
          users := ReplaceById(users, UserId, editingItem.value.id, response.item);
        }
      } else {
        if response.Saved? {
          users := Append(users, response.item);
        }
      }
      ResetForm();
    }

    /** `handleEdit(user)` */
    method HandleEdit(user: User)
      modifies this`editingItem, this`showModal, this`formData
      ensures editingItem == Some(user) && showModal
      ensures formData == EditForm(user)
    {
      editingItem := Some(user);
      formData := UserForm(user.nombre, user.email, "", user.rol);
      showModal := true;
    }

    /** `handleDelete(id)`: the own-account check comes before the
        confirmation dialog (`confirmado`) and the delete call (`success`). */
    method HandleDelete(id: int, confirmado: bool, success: bool) returns (outcome: DeleteOutcome)
      modifies this`users
      ensures outcome == OwnAccount <==> !ShowDeleteButton(currentUser, id)
      ensures outcome == Deleted <==> id != currentUser.id && confirmado && success
      ensures outcome == Deleted ==> users == RemoveById(old(users), UserId, id)
      ensures outcome != Deleted ==> users == old(users)
    {
      if id == currentUser.id {
        return OwnAccount;
      }
      if !confirmado {
        return NotConfirmed;
      }
      if success {
        users := RemoveById(users, UserId, id);
        outcome := Deleted;
      } else {
        outcome := NotDeleted;
      }
    }

    /** `openNewUserModal()` */
    method OpenNewUserModal()
      modifies this`editingItem, this`showModal, this`formData
      ensures editingItem == None && formData == EmptyUserForm && showModal
    {
      editingItem := None;
      formData := EmptyUserForm;
      showModal := true;
    }
  }

  /** Whatever another id a delete removes, the current user stays in the
      list: the own-account check makes the screen unable to remove its own
      user. */
  lemma DeleteKeepsCurrentUser(users: seq<User>, currentUser: User, k: int)
    requires 0 <= k < |users| && users[k] == currentUser
    ensures forall id :: id != currentUser.id ==> currentUser in RemoveById(users, UserId, id)
  {
    forall id | id != currentUser.id ensures currentUser in RemoveById(users, UserId, id) {
      assert UserId(users[k]) != id;
    }
  }

  /** In a list with unique ids that holds the current user, exactly one row
      lacks the delete button: the current user's own. */
  lemma OnlyOwnRowHidesDelete(users: seq<User>, currentUser: User, j: int)
    requires UniqueIds(users, UserId) && 0 <= j < |users| && users[j] == currentUser
    ensures forall k :: 0 <= k < |users| ==> (!ShowDeleteButton(currentUser, users[k].id) <==> k == j)
  {
    forall k | 0 <= k < |users| ensures !ShowDeleteButton(currentUser, users[k].id) <==> k == j {
      if k < j {
        assert UserId(users[k]) != UserId(users[j]);
      } else if k > j {
        assert UserId(users[j]) != UserId(users[k]);
      }
    }
  }

  /** With unique ids, a successful delete removes exactly that user and
      keeps the others in order. */
  lemma DeleteRemovesExactlyOne(users: seq<User>, k: int)
    requires UniqueIds(users, UserId) && 0 <= k < |users|
    ensures RemoveById(users, UserId, users[k].id) == users[..k] + users[k + 1..]
  {
    RemoveUnique(users, UserId, k);
  }
}
