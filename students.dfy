/**
 * Students: the list query, the modal form with its teacher auto-fill, and
 * the multipart request `handleSubmit` builds.
 */
module Students {
  import opened Util
  import opened Text
  import opened Http
  import opened SearchableSelect
  import Teachers

  datatype Student = Student(
    id: nat, firstName: string, lastName: string, grade: string, section: string,
    rfidCode: Option<string>, studentIdNumber: string, parentId: Option<nat>,
    profileImageUrl: Option<string>)

  datatype StudentForm = StudentForm(
    firstName: string, lastName: string, grade: string, section: string,
    studentIdNumber: string, rfidCode: string, parentId: string, profileImage: Option<FileRef>)

  const StudentsBase := "/admin/students"
  const EmptyForm := StudentForm("", "", "", "", "", "", "", None)
  const ClearOptionCaption := "None / Clear Selection"

  /** The list query: each of search, grade and section is sent only when non-empty, in that order. */
  function ListParams(search: string, grade: string, section: string): (ps: seq<Param>)
    ensures |ps| <= 3
    ensures forall p :: p in ps ==> p.value != "" && p.name in {"search", "grade", "section"}
    ensures forall p :: p in ps ==> p in [Param("search", search), Param("grade", grade), Param("section", section)]
    ensures Param("search", search) in ps <==> search != ""
    ensures Param("grade", grade) in ps <==> grade != ""
    ensures Param("section", section) in ps <==> section != ""
  {
    OptionalParam("search", search) + OptionalParam("grade", grade) + OptionalParam("section", section)
  }

  /**
   * The edit form for `s`: its names, class and id number; a missing RFID
   * code as ""; its parent's id as decimal text, or "" with no parent
   * (parent 0 still gives "0"); never an image.
   */
  function PrefillForm(s: Student): (f: StudentForm)
    ensures f.firstName == s.firstName && f.lastName == s.lastName
    ensures f.grade == s.grade && f.section == s.section && f.studentIdNumber == s.studentIdNumber
    ensures f.rfidCode == s.rfidCode.GetOr("")
    ensures f.parentId == "" <==> s.parentId.None?
    ensures f.parentId != "" ==> ParseNat(f.parentId) == s.parentId
    ensures s.parentId.Some? ==> f.parentId == NatToString(s.parentId.value)
    ensures f.profileImage == None
  {
    if s.parentId.Some? then
      ParseNatToString(s.parentId.value);
      StudentForm(s.firstName, s.lastName, s.grade, s.section, s.studentIdNumber,
                  OrElse(s.rfidCode, ""), NatToString(s.parentId.value), None)
    else
      StudentForm(s.firstName, s.lastName, s.grade, s.section, s.studentIdNumber,
                  OrElse(s.rfidCode, ""), "", None)
  }

  /** The five fields every student payload starts with, in order. */
  function RequiredFields(f: StudentForm): seq<Field> {
    [ Field("first_name", Str(f.firstName)), Field("last_name", Str(f.lastName)),
      Field("grade", Str(f.grade)), Field("section", Str(f.section)),
      Field("student_id_number", Str(f.studentIdNumber)) ]
  }

  /**
   * The FormData payload: the five required fields always and first; the
   * RFID code and the parent only when non-empty; the image only when a
   * file was picked.
   */
  function Payload(f: StudentForm): (body: seq<Field>)
    ensures RequiredFields(f) <= body
    ensures |body| == 5 + (if f.rfidCode != "" then 1 else 0) + (if f.parentId != "" then 1 else 0)
      + (if f.profileImage.Some? then 1 else 0)
  {
    var p0 := RequiredFields(f);
    var p1 := AppendIf(p0, f.rfidCode != "", "rfid_code", Str(f.rfidCode));
    var p2 := AppendIf(p1, f.parentId != "", "parent_id", Str(f.parentId));
    var p3 := AppendIf(p2, f.profileImage.Some?, "profile_image", Upload(f.profileImage.GetOr(FileRef(""))));
    assert p0 <= p1 <= p2 <= p3;
    p3
  }

  /** The payload carries no key besides the eight the form knows. */
  lemma PayloadKeys(f: StudentForm)
    ensures forall i :: 0 <= i < |Payload(f)| ==>
      Payload(f)[i].key in {"first_name", "last_name", "grade", "section", "student_id_number", "rfid_code", "parent_id", "profile_image"}
  {
    var body := Payload(f);
    var p0 := RequiredFields(f);
    forall i | 0 <= i < |body|
      ensures body[i].key in {"first_name", "last_name", "grade", "section", "student_id_number", "rfid_code", "parent_id", "profile_image"}
    {
      if i >= |p0| {
        assert body[i].key in {"rfid_code", "parent_id", "profile_image"};
      }
    }
  }

  /** The payload never carries the method-override key itself. */
  lemma PayloadLacksOverride(f: StudentForm)
    ensures Lookup(Payload(f), "_method") == None
  {
    var body := Payload(f);
    PayloadKeys(f);
    forall i | 0 <= i < |body| ensures body[i].key != "_method" {
      assert body[i].key[0] != '_';
    }
    LookupMissing(body, "_method");
  }

  /** None of the optional keys is among the five required fields. */
  lemma RequiredFieldsLack(f: StudentForm, key: string)
    requires key in ["rfid_code", "parent_id", "profile_image"]
    ensures Lookup(RequiredFields(f), key) == None
  {
    var p0 := RequiredFields(f);
    forall i | 0 <= i < |p0| ensures p0[i].key != key {
      assert p0[i].key[0] in "flgs" && key[0] in "rp";
    }
    LookupMissing(p0, key);
  }

  /** The RFID code is sent exactly when it is non-empty. */
  lemma PayloadRfid(f: StudentForm)
    ensures Lookup(Payload(f), "rfid_code") == if f.rfidCode != "" then Some(Str(f.rfidCode)) else None
  {
    RequiredFieldsLack(f, "rfid_code");
  }

  /** The parent is sent exactly when its id text is non-empty. */
  lemma PayloadParent(f: StudentForm)
    ensures Lookup(Payload(f), "parent_id") == if f.parentId != "" then Some(Str(f.parentId)) else None
  {
    RequiredFieldsLack(f, "parent_id");
  }

  /** The image is sent exactly when a file was picked. */
  lemma PayloadImage(f: StudentForm)
    ensures Lookup(Payload(f), "profile_image") ==
      if f.profileImage.Some? then Some(Upload(f.profileImage.value)) else None
  {
    RequiredFieldsLack(f, "profile_image");
  }

  /**
   * Saving an edit form that was not touched sends the student's own data
   * back: its RFID code only if it has a non-empty one, its parent only if
   * it has one, and no image.
   */
  lemma UneditedSaveResends(s: Student)
    ensures var body := Payload(PrefillForm(s));
      && RequiredFields(PrefillForm(s)) <= body
      && (Lookup(body, "rfid_code").Some? <==> s.rfidCode.Some? && s.rfidCode.value != "")
      && (s.rfidCode.Some? && s.rfidCode.value != "" ==> Lookup(body, "rfid_code") == Some(Str(s.rfidCode.value)))
      && (s.parentId.None? <==> Lookup(body, "parent_id").None?)
      && (s.parentId.Some? ==> Lookup(body, "parent_id") == Some(Str(NatToString(s.parentId.value))))
      && Lookup(body, "profile_image") == None
  {
    PayloadRfid(PrefillForm(s));
    PayloadParent(PrefillForm(s));
    PayloadImage(PrefillForm(s));
  }

  /**
   * `handleSubmit`: create posts the payload to the collection; with a
   * selected student it posts to the student's own path with `_method=PUT`
   * appended, which the API treats as a PUT; otherwise nothing is sent.
   */
  function SubmitRequest(mode: Mode, f: StudentForm, selected: Option<Student>): (s: Submission)
    ensures !s.Invalid?
    ensures s.NothingToSend? <==> mode == Edit && selected.None?
    ensures s.Send? ==> s.request.verb == Post && s.request.encoding == Multipart
    ensures s.Send? && mode == Create ==> s.request.body == Payload(f)
    ensures s.Send? && mode == Edit ==> s.request.body == Payload(f) + [Field("_method", Str("PUT"))]
    ensures s.Send? && mode == Create ==> s.request.path == StudentsBase && EffectiveMethod(s.request) == Post
    ensures s.Send? && mode == Edit ==>
      s.request.path == ItemPath(StudentsBase, selected.value.id) && EffectiveMethod(s.request) == Put
  {
    var body := Payload(f);
    PayloadLacksOverride(f);
    match (mode, selected)
    case (Create, _) =>
      Send(Request(Post, StudentsBase, Multipart, body))
    case (Edit, Some(student)) =>
      var spoof := [Field("_method", Str("PUT"))];
      LookupAppend(body, spoof, "_method");
      Send(Request(Post, ItemPath(StudentsBase, student.id), Multipart, body + spoof))
    case (Edit, None) => NothingToSend
  }

  /** What submitting the form does: the request sent, whether the modal closes, the error shown. */
  function Outcome(mode: Mode, f: StudentForm, selected: Option<Student>, reply: Reply): Settled {
    Settle(SubmitRequest(mode, f, selected), reply)
  }

  /** The caption of a teacher in the auto-fill drop-down; a missing user reads "undefined", as JavaScript renders it. */
  function TeacherCaption(t: Teachers.TeacherAssignment): (caption: string)
    ensures t.user.Some? ==> t.user.value.name <= caption
    ensures t.user.None? ==> "undefined" <= caption
    ensures |t.grade| + |t.section| < |caption|
    ensures caption[|caption| - |t.section|..] == t.section
  {
    (match t.user case Some(u) => u.name case None => "undefined")
      + " — Grade " + t.grade + " / " + t.section
  }

  /** Right after the name, the caption reads " — Grade ", the grade and " / ". */
  lemma TeacherCaptionShowsGrade(t: Teachers.TeacherAssignment)
    ensures OccursAt(TeacherCaption(t), " — Grade " + t.grade + " / ", |if t.user.Some? then t.user.value.name else "undefined"|)
  {
    var name := if t.user.Some? then t.user.value.name else "undefined";
    assert TeacherCaption(t) == name + (" — Grade " + t.grade + " / ") + t.section;
  }

  /** One teacher's entry in the auto-fill drop-down: its caption, valued by its id as text. */
  function TeacherOption(t: Teachers.TeacherAssignment): SelectOption {
    SelectOption(TeacherCaption(t), NatToString(t.id))
  }

  /** The auto-fill drop-down's options: a "clear" entry with value "", then one per teacher, valued by its id. */
  function TeacherOptions(teachers: seq<Teachers.TeacherAssignment>): (options: seq<SelectOption>)
    ensures |options| == |teachers| + 1
    ensures options[0] == SelectOption(ClearOptionCaption, "")
    ensures forall i :: 0 <= i < |teachers| ==> options[i + 1].value == NatToString(teachers[i].id)
    ensures forall i :: 0 <= i < |teachers| ==> options[i + 1] == TeacherOption(teachers[i])
  {
    [SelectOption(ClearOptionCaption, "")] + seq(|teachers|, i requires 0 <= i < |teachers| => TeacherOption(teachers[i]))
  }

  /** The first teacher whose id, as text, is `teacherId` (`teachers.find`). */
  function FindTeacher(teachers: seq<Teachers.TeacherAssignment>, teacherId: string): (r: Option<nat>)
    ensures r.Some? ==> r.value < |teachers| && NatToString(teachers[r.value].id) == teacherId
    ensures r.Some? ==> forall j :: 0 <= j < r.value ==> NatToString(teachers[j].id) != teacherId
    ensures r.None? ==> forall j :: 0 <= j < |teachers| ==> NatToString(teachers[j].id) != teacherId
    decreases |teachers|
  {
    if teachers == [] then None
    else if NatToString(teachers[0].id) == teacherId then Some(0)
    else
      match FindTeacher(teachers[1..], teacherId)
      case None => None
      case Some(i) => Some(i + 1)
  }

  /**
   * The auto-fill handler: a known teacher's grade and section replace the
   * form's; an empty or unknown id leaves the form as it is. No other field changes.
   */
  function AutoFill(f: StudentForm, teachers: seq<Teachers.TeacherAssignment>, teacherId: string): (g: StudentForm)
    ensures g == f.(grade := g.grade, section := g.section)
    ensures teacherId == "" ==> g == f
    ensures FindTeacher(teachers, teacherId).None? ==> g == f
    ensures teacherId != "" && FindTeacher(teachers, teacherId).Some? ==>
      var t := teachers[FindTeacher(teachers, teacherId).value];
      g.grade == t.grade && g.section == t.section
  {
    if teacherId == "" then f
    else
      match FindTeacher(teachers, teacherId)
      case None => f
      case Some(i) => f.(grade := teachers[i].grade, section := teachers[i].section)
  }

  /**
   * Picking teacher `k` in the drop-down fills in the class of the first
   * listed teacher with the same id (ids are compared as text, and distinct
   * ids have distinct texts); picking the "clear" entry changes nothing.
   */
  lemma {:induction false} PickingTeacherFillsItsClass(f: StudentForm, teachers: seq<Teachers.TeacherAssignment>, k: nat)
    requires k < |teachers|
    ensures AutoFill(f, teachers, TeacherOptions(teachers)[0].value) == f
    ensures exists j ::
              && 0 <= j <= k && teachers[j].id == teachers[k].id
              && AutoFill(f, teachers, TeacherOptions(teachers)[k + 1].value)
                 == f.(grade := teachers[j].grade, section := teachers[j].section)
  {
    var v := TeacherOptions(teachers)[k + 1].value;
    assert v == NatToString(teachers[k].id);
    var r := FindTeacher(teachers, v);
    assert r.Some? && r.value <= k;
    var j := r.value;
    NatToStringInjective(teachers[j].id, teachers[k].id);
  }

  /** The page's modal state and its list of teachers for the auto-fill. */
  class StudentsPage {
    var isModalOpen: bool
    var mode: Mode
    var selected: Option<Student>
    var form: StudentForm
    var imagePreview: Option<string>
    var formError: string
    var formLoading: bool
    var teachers: seq<Teachers.TeacherAssignment>

    constructor ()
      ensures !isModalOpen && mode == Create && selected == None && form == EmptyForm
      ensures imagePreview == None && formError == "" && !formLoading && teachers == []
    {
      isModalOpen := false;
      mode := Create;
      selected := None;
      form := EmptyForm;
      imagePreview := None;
      formError := "";
      formLoading := false;
      teachers := [];
    }

    /** `openModal`: edit of a given student pre-fills the form from it; anything else starts blank. */
    method OpenModal(m: Mode, student: Option<Student>)
      modifies this
      ensures isModalOpen && mode == m && formError == ""
      ensures m == Edit && student.Some? ==>
        selected == student && form == PrefillForm(student.value) && imagePreview == NonEmpty(student.value.profileImageUrl)
      ensures !(m == Edit && student.Some?) ==> selected == None && form == EmptyForm && imagePreview == None
      ensures formLoading == old(formLoading) && teachers == old(teachers)
    {
      formError := "";
      mode := m;
      if m == Edit && student.Some? {
        selected := student;
        form := PrefillForm(student.value);
        imagePreview := NonEmpty(student.value.profileImageUrl);
      } else {
        selected := None;
        form := EmptyForm;
        imagePreview := None;
      }
      isModalOpen := true;
    }

    /** The teacher list arrives; a failed fetch is ignored and keeps the old list. */
    method TeachersLoaded(response: Option<seq<Teachers.TeacherAssignment>>)
      modifies this`teachers
      ensures teachers == response.GetOr(old(teachers))
      ensures form == old(form) && isModalOpen == old(isModalOpen) && selected == old(selected)
      ensures mode == old(mode) && imagePreview == old(imagePreview)
      ensures formError == old(formError) && formLoading == old(formLoading)
    {
      if response.Some? {
        teachers := response.value;
      }
    }

    /** The auto-fill drop-down reports `teacherId`. */
    method ChooseTeacher(teacherId: string)
      modifies this`form
      ensures form == AutoFill(old(form), teachers, teacherId)
      ensures teachers == old(teachers) && isModalOpen == old(isModalOpen) && selected == old(selected)
      ensures mode == old(mode) && formError == old(formError)
      ensures imagePreview == old(imagePreview) && formLoading == old(formLoading)
    {
      form := AutoFill(form, teachers, teacherId);
    }

    /** `handleSubmit`, with the API's answer to the request (if one is sent) given as `reply`. */
    method Submit(reply: Reply) returns (sent: Option<Request>)
      modifies this
      ensures sent == Outcome(mode, form, selected, reply).sent
      ensures formError == Outcome(mode, form, selected, reply).formError
      ensures isModalOpen == (old(isModalOpen) && !Outcome(mode, form, selected, reply).closeModal)
      ensures !formLoading
      ensures mode == old(mode) && selected == old(selected) && form == old(form)
      ensures imagePreview == old(imagePreview) && teachers == old(teachers)
    {
      formError := "";
      formLoading := true;
      var o := Outcome(mode, form, selected, reply);
      sent := o.sent;
      formError := o.formError;
      if o.closeModal {
        isModalOpen := false;
      }
      formLoading := false;
    }
  }
}
