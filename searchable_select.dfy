/**
 * The searchable drop-down used by the admin forms: a pure filter and lookup
 * over its option list, and a two-field open/query state changed by its handlers.
 */
module SearchableSelect {
  import opened Util
  import opened Text
  import Seqs

  datatype SelectOption = SelectOption(caption: string, value: string)

  const DefaultPlaceholder := "Select an option..."

  /**
   * The options shown for `query`: exactly those whose lower-cased caption (`label`)
   * contains the lower-cased query, in their original order.
   */
  function FilteredOptions(options: seq<SelectOption>, query: string): (r: seq<SelectOption>)
    ensures Seqs.IsSubsequence(r, options)
    ensures forall o :: o in r <==> o in options && ContainsFold(o.caption, query)
    ensures forall o :: multiset(r)[o] == if ContainsFold(o.caption, query) then multiset(options)[o] else 0
  {
    Seqs.FilterMembership(options, (o: SelectOption) => ContainsFold(o.caption, query));
    Seqs.Filter(options, (o: SelectOption) => ContainsFold(o.caption, query))
  }

  /** An empty query keeps every option. */
  lemma {:induction false} EmptyQueryKeepsAll(options: seq<SelectOption>)
    ensures FilteredOptions(options, "") == options
  {
    Seqs.FilterKeepsAll(options, (o: SelectOption) => ContainsFold(o.caption, ""));
  }

  /** The position of the first option whose value is `value` (`options.find`), if any. */
  function IndexOfValue(options: seq<SelectOption>, value: string): (r: Option<nat>)
    ensures r.Some? ==> r.value < |options| && options[r.value].value == value
    ensures r.Some? ==> forall j :: 0 <= j < r.value ==> options[j].value != value
    ensures r.None? ==> forall j :: 0 <= j < |options| ==> options[j].value != value
    decreases |options|
  {
    if options == [] then None
    else if options[0].value == value then Some(0)
    else
      match IndexOfValue(options[1..], value)
      case None => None
      case Some(i) => Some(i + 1)
  }

  /** The selected option: the first one whose value equals `value`. */
  function SelectedOption(options: seq<SelectOption>, value: string): (o: Option<SelectOption>)
    ensures o.None? <==> forall opt :: opt in options ==> opt.value != value
    ensures o.Some? ==> o.value in options && o.value.value == value
    ensures o.Some? ==>
      exists i :: 0 <= i < |options| && options[i] == o.value && (forall j :: 0 <= j < i ==> options[j].value != value)
  {
    match IndexOfValue(options, value)
    case None => None
    case Some(i) => Some(options[i])
  }

  /** The text on the trigger: the first matching option's label, or the placeholder if none matches. */
  function DisplayLabel(options: seq<SelectOption>, value: string, placeholder: string): (shown: string)
    ensures (forall j :: 0 <= j < |options| ==> options[j].value != value) ==> shown == placeholder
    ensures forall i ::
              0 <= i < |options| && options[i].value == value && (forall j :: 0 <= j < i ==> options[j].value != value)
              ==> shown == options[i].caption
  {
    match SelectedOption(options, value)
    case None => placeholder
    case Some(o) => o.caption
  }

  /** The open/closed state and the search text of one drop-down. */
  class Dropdown {
    var isOpen: bool
    var searchQuery: string

    /** The query is empty whenever the drop-down is closed. */
    ghost predicate Valid()
      reads this
    {
      !isOpen ==> searchQuery == ""
    }

    /** The options the open menu lists; a closed drop-down lists none. */
    function Visible(options: seq<SelectOption>): (r: seq<SelectOption>)
      reads this
      ensures !isOpen ==> r == []
      ensures isOpen ==> r == FilteredOptions(options, searchQuery)
    {
      if isOpen then FilteredOptions(options, searchQuery) else []
    }

    constructor ()
      ensures Valid() && !isOpen && searchQuery == ""
    {
      isOpen := false;
      searchQuery := "";
    }

    /** The trigger button: flips `isOpen`; closing clears the query, opening keeps it. */
    method Toggle()
      requires Valid()
      modifies this
      ensures Valid()
      ensures isOpen == !old(isOpen)
      ensures searchQuery == if old(isOpen) then "" else old(searchQuery)
    {
      if isOpen {
        searchQuery := "";
      }
      isOpen := !isOpen;
    }

    /** Typing in the search box, which exists only while the menu is open. */
    method TypeQuery(text: string)
      requires Valid() && isOpen
      modifies this
      ensures Valid()
      ensures isOpen && searchQuery == text
    {
      searchQuery := text;
    }

    /** Clicking a listed option reports its value, closes the menu and clears the query. */
    method Choose(options: seq<SelectOption>, option: SelectOption) returns (reported: string)
      requires Valid() && option in Visible(options)
      modifies this
      ensures Valid()
      ensures reported == option.value
      ensures !isOpen && searchQuery == ""
    {
      reported := option.value;
      isOpen := false;
      searchQuery := "";
    }

    /** A mouse-down outside the component closes it and clears the query. */
    method ClickOutside()
      requires Valid()
      modifies this
      ensures Valid()
      ensures !isOpen && searchQuery == ""
    {
      isOpen := false;
      searchQuery := "";
    }
  }
}
