/**
 * The two superadmin directories whose records are just a name — schools
 * and universities. Both pages fetch the whole collection, filter it on the
 * client by a case-insensitive name search, and create or rename one record
 * at a time through a one-field modal.
 */
module NameDirectory {
  import opened Util
  import opened Text
  import opened Http
  import Seqs

  datatype NamedRecord = NamedRecord(id: nat, name: string)

  const SchoolsBase := "/superadmin/schools"
  const UniversitiesBase := "/superadmin/universities"

  /** Whether `r`'s lower-cased name contains the lower-cased search. */
  predicate NameMatches(r: NamedRecord, search: string) {
    ContainsFold(r.name, search)
  }

  /**
   * The list shown after a fetch: with a non-empty search, the fetched
   * records whose name contains it (ignoring ASCII case), in the order the
   * API returned them; with an empty search, the fetched list as is.
   */
  function NameFilter(data: seq<NamedRecord>, search: string): (shown: seq<NamedRecord>)
    ensures Seqs.IsSubsequence(shown, data)
    ensures forall r :: r in shown <==> r in data && NameMatches(r, search)
    ensures search == "" ==> shown == data
  {
    Seqs.FilterMembership(data, (r: NamedRecord) => NameMatches(r, search));
    if search != "" then Seqs.Filter(data, (r: NamedRecord) => NameMatches(r, search))
    else
      Seqs.SubsequenceReflexive(data);
      data
  }

  /**
   * The `if (search)` guard around the filter changes nothing: filtering by
   * the empty search would keep every record anyway.
   */
  lemma {:induction false} GuardIsRedundant(data: seq<NamedRecord>, search: string)
    ensures NameFilter(data, search) == Seqs.Filter(data, (r: NamedRecord) => NameMatches(r, search))
  {
    if search == "" {
      Seqs.FilterKeepsAll(data, (r: NamedRecord) => NameMatches(r, search));
    }
  }

  /**
   * `handleSubmit`: create POSTs `{name}` to the collection; edit of a
   * selected record PUTs `{name}` to the record's own path; edit with
   * nothing selected sends nothing.
   */
  function SubmitRequest(base: string, mode: Mode, name: string, selected: Option<NamedRecord>): (s: Submission)
    ensures !s.Invalid?
    ensures s.NothingToSend? <==> mode == Edit && selected.None?
    ensures s.Send? ==> s.request.encoding == Json && s.request.body == [Field("name", Str(name))]
    ensures s.Send? && mode == Create ==> s.request.verb == Post && s.request.path == base
    ensures s.Send? && mode == Edit ==>
      s.request.verb == Put && s.request.path == ItemPath(base, selected.value.id)
  {
    match (mode, selected)
    case (Create, _) => Send(Request(Post, base, Json, [Field("name", Str(name))]))
    case (Edit, Some(r)) => Send(Request(Put, ItemPath(base, r.id), Json, [Field("name", Str(name))]))
    case (Edit, None) => NothingToSend
  }

  /** What submitting the form does: the request sent, whether the modal closes, the error shown. */
  function Outcome(base: string, mode: Mode, name: string, selected: Option<NamedRecord>, reply: Reply): Settled {
    Settle(SubmitRequest(base, mode, name, selected), reply)
  }

  /** One directory page: the shown list, the search box, and the create/rename modal. */
  class NamePage {
    const base: string
    var records: seq<NamedRecord>
    var search: string
    var loading: bool
    var isModalOpen: bool
    var mode: Mode
    var selected: Option<NamedRecord>
    var name: string
    var formError: string
    var formLoading: bool

    /** A fresh page: empty list, loading, modal closed in create mode. */
    constructor (base: string)
      ensures this.base == base && records == [] && search == "" && loading
      ensures !isModalOpen && mode == Create && selected == None && name == ""
      ensures formError == "" && !formLoading
    {
      this.base := base;
      records := [];
      search := "";
      loading := true;
      isModalOpen := false;
      mode := Create;
      selected := None;
      name := "";
      formError := "";
      formLoading := false;
    }

    /**
     * `fetchSchools` / `fetchUniversities`, with the API's answer as
     * `response` (`None` when the request fails): a received list is
     * filtered by the current search and shown; a failure keeps the list.
     */
    method Fetch(response: Option<seq<NamedRecord>>)
      modifies this
      ensures response.Some? ==> records == NameFilter(response.value, search)
      ensures response.None? ==> records == old(records)
      ensures !loading
      ensures search == old(search) && isModalOpen == old(isModalOpen) && mode == old(mode)
      ensures selected == old(selected) && name == old(name)
      ensures formError == old(formError) && formLoading == old(formLoading)
    {
      loading := true;
      if response.Some? {
        records := NameFilter(response.value, search);
      }
      loading := false;
    }

    /** `openModal`: edit of a given record pre-fills its name; anything else clears the name. */
    method OpenModal(m: Mode, record: Option<NamedRecord>)
      modifies this
      ensures isModalOpen && mode == m && formError == ""
      ensures m == Edit && record.Some? ==> selected == record && name == record.value.name
      ensures !(m == Edit && record.Some?) ==> selected == None && name == ""
      ensures records == old(records) && search == old(search) && loading == old(loading)
      ensures formLoading == old(formLoading)
    {
      formError := "";
      mode := m;
      if m == Edit && record.Some? {
        selected := record;
        name := record.value.name;
      } else {
        selected := None;
        name := "";
      }
      isModalOpen := true;
    }

    /** `handleSubmit`, with the API's answer to the request (if one is sent) given as `reply`. */
    method Submit(reply: Reply) returns (sent: Option<Request>)
      modifies this
      ensures sent == Outcome(base, mode, name, selected, reply).sent
      ensures formError == Outcome(base, mode, name, selected, reply).formError
      ensures isModalOpen == (old(isModalOpen) && !Outcome(base, mode, name, selected, reply).closeModal)
      ensures !formLoading
      ensures mode == old(mode) && selected == old(selected) && name == old(name)
      ensures records == old(records) && search == old(search) && loading == old(loading)
    {
      formError := "";
      formLoading := true;
      var o := Outcome(base, mode, name, selected, reply);
      sent := o.sent;
      formError := o.formError;
      if o.closeModal {
        isModalOpen := false;
      }
      formLoading := false;
    }
  }
}
