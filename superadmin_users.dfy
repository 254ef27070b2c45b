/**
 * The superadmin user list's create/edit modal: the form it opens with and
 * the multipart request `handleSubmit` builds from it.
 */
module SuperadminUsers {
  import opened Util
  import opened Text
  import opened Http

  datatype User = User(
    id: nat, name: string, email: string, role: string,
    schoolId: Option<nat>, profileImageUrl: Option<string>)

  datatype UserForm = UserForm(
    name: string, email: string, password: string, passwordConfirmation: string,
    role: string, schoolId: string, profileImage: Option<FileRef>)

  const UsersBase := "/superadmin/users"
  const SuperadminRole := "superadmin"
  const EmptyForm := UserForm("", "", "", "", "student", "", None)

  /**
   * The edit form for `u`: its name, e-mail and role, blank passwords, no
   * new image, and its school id as text ("" when it has none or it is 0,
   * which JavaScript treats as false).
   */
  function PrefillForm(u: User): (f: UserForm)
    ensures f.name == u.name && f.email == u.email && f.role == u.role
    ensures f.password == "" && f.passwordConfirmation == "" && f.profileImage == None
    ensures f.schoolId == "" <==> u.schoolId.None? || u.schoolId.value == 0
    ensures f.schoolId != "" ==> ParseNat(f.schoolId) == u.schoolId
    ensures f.schoolId != "" ==> f.schoolId == NatToString(u.schoolId.value)
  {
    if u.schoolId.Some? && u.schoolId.value != 0 then
      ParseNatToString(u.schoolId.value);
      UserForm(u.name, u.email, "", "", u.role, NatToString(u.schoolId.value), None)
    else
      UserForm(u.name, u.email, "", "", u.role, "", None)
  }

  /**
   * The FormData payload, appended field by field: name, e-mail and role
   * always and first; the password only when one was typed; the school
   * only when the current user is a superadmin and a school is chosen; the
   * image only when a file was picked.
   */
  function Payload(f: UserForm, currentRole: Option<string>): (body: seq<Field>)
    ensures [Field("name", Str(f.name)), Field("email", Str(f.email)), Field("role", Str(f.role))] <= body
    ensures |body| == 3 + (if f.password != "" then 1 else 0)
      + (if currentRole == Some(SuperadminRole) && f.schoolId != "" then 1 else 0)
      + (if f.profileImage.Some? then 1 else 0)
  {
    var p0 := [Field("name", Str(f.name)), Field("email", Str(f.email)), Field("role", Str(f.role))];
    var p1 := AppendIf(p0, f.password != "", "password", Str(f.password));
    var p2 := AppendIf(p1, currentRole == Some(SuperadminRole) && f.schoolId != "", "school_id", Str(f.schoolId));
    var p3 := AppendIf(p2, f.profileImage.Some?, "profile_image", Upload(f.profileImage.GetOr(FileRef(""))));
    assert p0 <= p1 <= p2 <= p3;
    p3
  }

  /** The payload carries no key besides the six the form knows. */
  lemma PayloadKeys(f: UserForm, currentRole: Option<string>)
    ensures forall i :: 0 <= i < |Payload(f, currentRole)| ==>
      Payload(f, currentRole)[i].key in {"name", "email", "role", "password", "school_id", "profile_image"}
  {
    var body := Payload(f, currentRole);
    forall i | 0 <= i < |body|
      ensures body[i].key in {"name", "email", "role", "password", "school_id", "profile_image"}
    {
      if i >= 3 {
        assert body[i].key in {"password", "school_id", "profile_image"};
      }
    }
  }

  /** The payload never carries the method-override key itself. */
  lemma PayloadLacksOverride(f: UserForm, currentRole: Option<string>)
    ensures Lookup(Payload(f, currentRole), "_method") == None
  {
    var body := Payload(f, currentRole);
    PayloadKeys(f, currentRole);
    forall i | 0 <= i < |body| ensures body[i].key != "_method" {
      assert body[i].key[0] != '_';
    }
    LookupMissing(body, "_method");
  }

  /** The password is sent exactly when one was typed. */
  lemma PayloadPassword(f: UserForm, currentRole: Option<string>)
    ensures Lookup(Payload(f, currentRole), "password") == if f.password != "" then Some(Str(f.password)) else None
  {
  }

  /** The school is sent exactly when the current user is a superadmin and a school is chosen. */
  lemma PayloadSchool(f: UserForm, currentRole: Option<string>)
    ensures Lookup(Payload(f, currentRole), "school_id") ==
      if currentRole == Some(SuperadminRole) && f.schoolId != "" then Some(Str(f.schoolId)) else None
  {
  }

  /** The image is sent exactly when a file was picked. */
  lemma PayloadImage(f: UserForm, currentRole: Option<string>)
    ensures Lookup(Payload(f, currentRole), "profile_image") ==
      if f.profileImage.Some? then Some(Upload(f.profileImage.value)) else None
  {
  }

  /**
   * `handleSubmit`: a typed password that differs from its confirmation is
   * refused before anything is sent; otherwise create posts the payload to
   * the collection, and edit of a selected user posts it to the user's own
   * path with `_method=PUT` appended, which the API treats as a PUT.
   */
  function SubmitRequest(mode: Mode, f: UserForm, selected: Option<User>, currentRole: Option<string>): (s: Submission)
    ensures s.Invalid? <==> PasswordsDiffer(f.password, f.passwordConfirmation)
    ensures s.Invalid? ==> s.error == PasswordMismatch
    ensures s.NothingToSend? <==> !s.Invalid? && mode == Edit && selected.None?
    ensures s.Send? ==> s.request.verb == Post && s.request.encoding == Multipart
    ensures s.Send? && mode == Create ==> s.request.body == Payload(f, currentRole)
    ensures s.Send? && mode == Edit ==> s.request.body == Payload(f, currentRole) + [Field("_method", Str("PUT"))]
    ensures s.Send? && mode == Create ==> s.request.path == UsersBase && EffectiveMethod(s.request) == Post
    ensures s.Send? && mode == Edit ==>
      s.request.path == ItemPath(UsersBase, selected.value.id) && EffectiveMethod(s.request) == Put
  {
    var body := Payload(f, currentRole);
    PayloadLacksOverride(f, currentRole);
    if PasswordsDiffer(f.password, f.passwordConfirmation) then Invalid(PasswordMismatch)
    else
      match (mode, selected)
      case (Create, _) =>
        Send(Request(Post, UsersBase, Multipart, body))
      case (Edit, Some(user)) =>
        var spoof := [Field("_method", Str("PUT"))];
        LookupAppend(body, spoof, "_method");
        Send(Request(Post, ItemPath(UsersBase, user.id), Multipart, body + spoof))
      case (Edit, None) => NothingToSend
  }

  /** What submitting the form does: the request sent, whether the modal closes, the error shown. */
  function Outcome(mode: Mode, f: UserForm, selected: Option<User>, currentRole: Option<string>, reply: Reply): Settled {
    Settle(SubmitRequest(mode, f, selected, currentRole), reply)
  }

  /** The page's modal state. */
  class UsersPage {
    var isModalOpen: bool
    var mode: Mode
    var selected: Option<User>
    var form: UserForm
    var imagePreview: Option<string>
    var formError: string
    var formLoading: bool

    constructor ()
      ensures !isModalOpen && mode == Create && selected == None && form == EmptyForm
      ensures imagePreview == None && formError == "" && !formLoading
    {
      isModalOpen := false;
      mode := Create;
      selected := None;
      form := EmptyForm;
      imagePreview := None;
      formError := "";
      formLoading := false;
    }

    /** `openModal`: edit of a given user pre-fills the form from it; anything else starts blank. */
    method OpenModal(m: Mode, user: Option<User>)
      modifies this
      ensures isModalOpen && mode == m && formError == ""
      ensures m == Edit && user.Some? ==>
        selected == user && form == PrefillForm(user.value) && imagePreview == NonEmpty(user.value.profileImageUrl)
      ensures !(m == Edit && user.Some?) ==> selected == None && form == EmptyForm && imagePreview == None
      ensures formLoading == old(formLoading)
    {
      formError := "";
      mode := m;
      if m == Edit && user.Some? {
        selected := user;
        form := PrefillForm(user.value);
        imagePreview := NonEmpty(user.value.profileImageUrl);
      } else {
        selected := None;
        form := EmptyForm;
        imagePreview := None;
      }
      isModalOpen := true;
    }

    /** `handleSubmit`, with the API's answer to the request (if one is sent) given as `reply`. */
    method Submit(currentRole: Option<string>, reply: Reply) returns (sent: Option<Request>)
      modifies this
      ensures sent == Outcome(mode, form, selected, currentRole, reply).sent
      ensures formError == Outcome(mode, form, selected, currentRole, reply).formError
      ensures isModalOpen == (old(isModalOpen) && !Outcome(mode, form, selected, currentRole, reply).closeModal)
      ensures !formLoading
      ensures mode == old(mode) && selected == old(selected) && form == old(form)
      ensures imagePreview == old(imagePreview)
    {
      formError := "";
      formLoading := true;
      var o := Outcome(mode, form, selected, currentRole, reply);
      sent := o.sent;
      formError := o.formError;
      if o.closeModal {
        isModalOpen := false;
      }
      formLoading := false;
    }
  }
}
