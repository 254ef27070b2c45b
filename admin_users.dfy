/**
 * The admin user list's create/edit modal: the form it opens with and the
 * JSON request `handleSubmit` builds from it.
 */
module AdminUsers {
  import opened Util
  import opened Http

  datatype User = User(id: nat, name: string, email: string, role: string, schoolId: Option<nat>)

  datatype UserForm = UserForm(name: string, email: string, password: string, passwordConfirmation: string, role: string)

  const UsersBase := "/admin/users"
  const EmptyForm := UserForm("", "", "", "", "student")

  /** The edit form for `u`: its name, e-mail and role, with both password fields blank. */
  function PrefillForm(u: User): (f: UserForm)
    ensures f.name == u.name && f.email == u.email && f.role == u.role
    ensures f.password == "" && f.passwordConfirmation == ""
  {
    UserForm(u.name, u.email, "", "", u.role)
  }

  /** The JSON payload: name, e-mail and role, then the password only when one was typed. */
  function Payload(f: UserForm): (body: seq<Field>)
    ensures [Field("name", Str(f.name)), Field("email", Str(f.email)), Field("role", Str(f.role))] <= body
    ensures |body| == if f.password != "" then 4 else 3
    ensures Lookup(body, "password") == if f.password != "" then Some(Str(f.password)) else None
  {
    var p0 := [Field("name", Str(f.name)), Field("email", Str(f.email)), Field("role", Str(f.role))];
    AppendIf(p0, f.password != "", "password", Str(f.password))
  }

  /**
   * `handleSubmit`: a typed password that differs from its confirmation is
   * refused before anything is sent; create POSTs the payload to the
   * collection; edit of a selected user PUTs it to the user's own path.
   */
  function SubmitRequest(mode: Mode, f: UserForm, selected: Option<User>): (s: Submission)
    ensures s.Invalid? <==> PasswordsDiffer(f.password, f.passwordConfirmation)
    ensures s.Invalid? ==> s.error == PasswordMismatch
    ensures s.NothingToSend? <==> !s.Invalid? && mode == Edit && selected.None?
    ensures s.Send? ==> s.request.encoding == Json && s.request.body == Payload(f)
    ensures s.Send? && mode == Create ==> s.request.verb == Post && s.request.path == UsersBase
    ensures s.Send? && mode == Edit ==> s.request.verb == Put && s.request.path == ItemPath(UsersBase, selected.value.id)
  {
    if PasswordsDiffer(f.password, f.passwordConfirmation) then Invalid(PasswordMismatch)
    else
      match (mode, selected)
      case (Create, _) => Send(Request(Post, UsersBase, Json, Payload(f)))
      case (Edit, Some(user)) => Send(Request(Put, ItemPath(UsersBase, user.id), Json, Payload(f)))
      case (Edit, None) => NothingToSend
  }

  /** What submitting the form does: the request sent, whether the modal closes, the error shown. */
  function Outcome(mode: Mode, f: UserForm, selected: Option<User>, reply: Reply): Settled {
    Settle(SubmitRequest(mode, f, selected), reply)
  }

  /** The page's modal state. */
  class UsersPage {
    var isModalOpen: bool
    var mode: Mode
    var selected: Option<User>
    var form: UserForm
    var formError: string
    var formLoading: bool

    constructor ()
      ensures !isModalOpen && mode == Create && selected == None && form == EmptyForm
      ensures formError == "" && !formLoading
    {
      isModalOpen := false;
      mode := Create;
      selected := None;
      form := EmptyForm;
      formError := "";
      formLoading := false;
    }

    /** `openModal`: edit of a given user pre-fills the form from it; anything else starts blank. */
    method OpenModal(m: Mode, user: Option<User>)
      modifies this
      ensures isModalOpen && mode == m && formError == ""
      ensures m == Edit && user.Some? ==> selected == user && form == PrefillForm(user.value)
      ensures !(m == Edit && user.Some?) ==> selected == None && form == EmptyForm
      ensures formLoading == old(formLoading)
    {
      formError := "";
      mode := m;
      if m == Edit && user.Some? {
        selected := user;
        form := PrefillForm(user.value);
      } else {
        selected := None;
        form := EmptyForm;
      }
      isModalOpen := true;
    }

    /** `handleSubmit`, with the API's answer to the request (if one is sent) given as `reply`. */
    method Submit(reply: Reply) returns (sent: Option<Request>)
      modifies this
      ensures sent == Outcome(mode, form, selected, reply).sent
      ensures formError == Outcome(mode, form, selected, reply).formError
      ensures isModalOpen == (old(isModalOpen) && !Outcome(mode, form, selected, reply).closeModal)
      ensures !formLoading
      ensures mode == old(mode) && selected == old(selected) && form == old(form)
    {
      formError := "";
      formLoading := true;
      var o := Outcome(mode, form, selected, reply);
      sent := o.sent;
      formError := o.formError;
      if o.closeModal {
        isModalOpen := false;
      }
      formLoading := false;
    }
  }
}
