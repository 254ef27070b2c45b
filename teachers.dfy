/**
 * Teacher-to-class assignments: the list query, the modal form, and the
 * create and edit requests, whose bodies differ.
 */
module Teachers {
  import opened Util
  import opened Text
  import opened Http

  datatype TeacherUser = TeacherUser(id: nat, name: string, email: string)

  datatype TeacherAssignment = TeacherAssignment(
    id: nat, userId: nat, grade: string, section: string, user: Option<TeacherUser>)

  datatype TeacherForm = TeacherForm(userId: string, grade: string, section: string)

  const TeachersBase := "/admin/teachers"
  const EmptyForm := TeacherForm("", "", "")

  /** The list query: `search` is sent only when non-empty. */
  function ListParams(search: string): (ps: seq<Param>)
    ensures search == "" <==> ps == []
    ensures search != "" ==> ps == [Param("search", search)]
  {
    OptionalParam("search", search)
  }

  /** The edit form for `t`: the teacher's user id as decimal text, and the assignment's grade and section. */
  function PrefillForm(t: TeacherAssignment): (f: TeacherForm)
    ensures ParseNat(f.userId) == Some(t.userId)
    ensures f.userId == NatToString(t.userId)
    ensures f.grade == t.grade && f.section == t.section
  {
    ParseNatToString(t.userId);
    TeacherForm(NatToString(t.userId), t.grade, t.section)
  }

  /** The whole form as a JSON object: `{user_id, grade, section}`. */
  function FormBody(f: TeacherForm): (body: seq<Field>)
    ensures Lookup(body, "user_id") == Some(Str(f.userId))
    ensures Lookup(body, "grade") == Some(Str(f.grade))
    ensures Lookup(body, "section") == Some(Str(f.section))
    ensures |body| == 3
  {
    var body := [Field("user_id", Str(f.userId)), Field("grade", Str(f.grade)), Field("section", Str(f.section))];
    assert "user_id" != "section" by { assert "user_id"[0] != "section"[0]; }
    assert Lookup(body[1..][1..], "section") == Some(Str(f.section));
    assert Lookup(body[1..], "section") == Some(Str(f.section));
    body
  }

  /**
   * `handleSubmit`: create POSTs the whole form; edit of a selected
   * assignment PUTs only grade and section, so an edit never reassigns the
   * teacher; edit with nothing selected sends nothing.
   */
  function SubmitRequest(mode: Mode, f: TeacherForm, selected: Option<TeacherAssignment>): (s: Submission)
    ensures !s.Invalid?
    ensures s.NothingToSend? <==> mode == Edit && selected.None?
    ensures s.Send? ==> s.request.encoding == Json
    ensures s.Send? ==> Lookup(s.request.body, "grade") == Some(Str(f.grade))
    ensures s.Send? ==> Lookup(s.request.body, "section") == Some(Str(f.section))
    ensures s.Send? && mode == Create ==>
      && s.request.verb == Post && s.request.path == TeachersBase
      && s.request.body == FormBody(f) && Lookup(s.request.body, "user_id") == Some(Str(f.userId))
    ensures s.Send? && mode == Edit ==>
      && s.request.verb == Put && s.request.path == ItemPath(TeachersBase, selected.value.id)
      && Lookup(s.request.body, "user_id") == None && |s.request.body| == 2
  {
    match (mode, selected)
    case (Create, _) => Send(Request(Post, TeachersBase, Json, FormBody(f)))
    case (Edit, Some(t)) =>
      Send(Request(Put, ItemPath(TeachersBase, t.id), Json, [Field("grade", Str(f.grade)), Field("section", Str(f.section))]))
    case (Edit, None) => NothingToSend
  }

  /** What submitting the form does: the request sent, whether the modal closes, the error shown. */
  function Outcome(mode: Mode, f: TeacherForm, selected: Option<TeacherAssignment>, reply: Reply): Settled {
    Settle(SubmitRequest(mode, f, selected), reply)
  }

  /** The page's modal state. */
  class TeachersPage {
    var isModalOpen: bool
    var mode: Mode
    var selected: Option<TeacherAssignment>
    var form: TeacherForm
    var formError: string
    var formLoading: bool

    constructor ()
      ensures !isModalOpen && mode == Create && selected == None && form == EmptyForm
      ensures formError == "" && !formLoading
    {
      isModalOpen := false;
      mode := Create;
      selected := None;
      form := EmptyForm;
      formError := "";
      formLoading := false;
    }

    /** `openModal`: edit of a given assignment pre-fills the form from it; anything else clears all three fields. */
    method OpenModal(m: Mode, teacher: Option<TeacherAssignment>)
      modifies this
      ensures isModalOpen && mode == m && formError == ""
      ensures m == Edit && teacher.Some? ==> selected == teacher && form == PrefillForm(teacher.value)
      ensures !(m == Edit && teacher.Some?) ==> selected == None && form == EmptyForm
      ensures formLoading == old(formLoading)
    {
      formError := "";
      mode := m;
      if m == Edit && teacher.Some? {
        selected := teacher;
        form := PrefillForm(teacher.value);
      } else {
        selected := None;
        form := EmptyForm;
      }
      isModalOpen := true;
    }

    /** `handleSubmit`, with the API's answer to the request (if one is sent) given as `reply`. */
    method Submit(reply: Reply) returns (sent: Option<Request>)
      modifies this
      ensures sent == Outcome(mode, form, selected, reply).sent
      ensures formError == Outcome(mode, form, selected, reply).formError
      ensures isModalOpen == (old(isModalOpen) && !Outcome(mode, form, selected, reply).closeModal)
      ensures !formLoading
      ensures mode == old(mode) && selected == old(selected) && form == old(form)
    {
      formError := "";
      formLoading := true;
      var o := Outcome(mode, form, selected, reply);
      sent := o.sent;
      formError := o.formError;
      if o.closeModal {
        isModalOpen := false;
      }
      formLoading := false;
    }
  }
}
