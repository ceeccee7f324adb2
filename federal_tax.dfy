/** The Federal Tax screen: the tax-bracket entries fetched from the server, the
    case-sensitive search over their three numeric-text fields, and the
    add/edit modal with its draft entry and the create-or-update save. */
module FederalTax {
  import opened Wrappers
  import opened Seqs
  import opened Text

  /** A value held by a form field: the text of a text input or the state of a
      checkbox. */
  datatype Value = Str(text: string) | Bool(flag: bool)

  /** A tax entry as the server returns it; `pythonCode` and `description` may
      be missing. The three numeric fields are taken in their `toString()` form. */
  datatype TaxEntry = TaxEntry(
    id: string, taxRate: string, minIncome: string, maxIncome: string,
    pythonCode: Option<bool>, description: Option<string>)

  /** The `name` attribute of a modal input. */
  datatype EntryField = TaxRate | MinIncome | MaxIncome | PythonCode | Description

  /** The modal's draft entry (`newEntry`). */
  datatype EntryDraft = EntryDraft(
    taxRate: Value, minIncome: Value, maxIncome: Value, pythonCode: Value, description: Value)

  /** A change event: the input's name and type, its text and its checked state. */
  datatype InputEvent = InputEvent(name: EntryField, isCheckbox: bool, value: string, checked: bool)

  /** What saving sends: an update of the entry being edited, or a create. */
  datatype TaxRequest = UpdateEntry(id: string, body: EntryDraft) | CreateEntry(body: EntryDraft)

  const EmptyDraft := EntryDraft(Str(""), Str(""), Str(""), Bool(false), Str(""))

  // ---------------------------------------------------------------------------
  // The search

  function EntryMatches(term: string): TaxEntry -> bool {
    (e: TaxEntry) => Contains(e.taxRate, term) || Contains(e.minIncome, term) || Contains(e.maxIncome, term)
  }

  /** `filteredEntries`: the entries whose tax rate, minimum or maximum income
      contains the term (case-sensitively), in order; an empty term keeps all. */
  function SearchEntries(es: seq<TaxEntry>, term: string): (r: seq<TaxEntry>)
    ensures forall e :: multiset(r)[e] ==
              if Contains(e.taxRate, term) || Contains(e.minIncome, term) || Contains(e.maxIncome, term)
              then multiset(es)[e] else 0
    ensures IsSubsequence(r, es)
    ensures term == "" ==> r == es
  {
    FilterIsSubsequence(EntryMatches(term), es);
    if term == "" then
      forall e | e in es ensures EntryMatches(term)(e) {
        ContainsEmpty(e.taxRate);
      }
      FilterKeepsAll(EntryMatches(term), es);
      Filter(EntryMatches(term), es)
    else
      Filter(EntryMatches(term), es)
  }

  /** Unlike the other screens' searches, case matters here: "Flat" is not
      found by "flat". */
  lemma SearchIsCaseSensitive(e: TaxEntry)
    requires e.taxRate == "Flat" && e.minIncome == "" && e.maxIncome == ""
    ensures SearchEntries([e], "flat") == []
    ensures SearchEntries([e], "Flat") == [e]
  {
    assert !Contains("", "flat");
    assert !Contains("t", "flat") && !Contains("at", "flat") && !Contains("lat", "flat");
    assert "Flat"[1..] == "lat" && "lat"[1..] == "at" && "at"[1..] == "t" && "t"[1..] == "";
    assert "Flat"[0] != "flat"[0];
    assert !Contains("Flat", "flat");
    assert Contains("Flat", "Flat");
    assert multiset(SearchEntries([e], "flat"))[e] == 0;
    assert multiset(SearchEntries([e], "Flat"))[e] == 1;
  }

  // ---------------------------------------------------------------------------
  // The draft

  function GetField(d: EntryDraft, f: EntryField): Value {
    match f
    case TaxRate => d.taxRate
    case MinIncome => d.minIncome
    case MaxIncome => d.maxIncome
    case PythonCode => d.pythonCode
    case Description => d.description
  }

  /** `{ ...draft, [f]: v }`: only the named field changes. */
  function SetField(d: EntryDraft, f: EntryField, v: Value): (r: EntryDraft)
    ensures GetField(r, f) == v
    ensures forall g :: g != f ==> GetField(r, g) == GetField(d, g)
  {
    match f
    case TaxRate => d.(taxRate := v)
    case MinIncome => d.(minIncome := v)
    case MaxIncome => d.(maxIncome := v)
    case PythonCode => d.(pythonCode := v)
    case Description => d.(description := v)
  }

  /** `handleInputChange`: the named field takes the checked state of a
      checkbox or the text of any other input; nothing else changes. */
  function ApplyInput(d: EntryDraft, ev: InputEvent): (r: EntryDraft)
    ensures GetField(r, ev.name) == if ev.isCheckbox then Bool(ev.checked) else Str(ev.value)
    ensures forall g :: g != ev.name ==> GetField(r, g) == GetField(d, g)
  {
    SetField(d, ev.name, if ev.isCheckbox then Bool(ev.checked) else Str(ev.value))
  }

  /** `handleEditEntry`'s draft: the three numeric-text fields are copied, a
      missing or false `pythonCode` becomes false and a missing description
      becomes "". */
  function SeedDraft(e: TaxEntry): (d: EntryDraft)
    ensures d.taxRate == Str(e.taxRate) && d.minIncome == Str(e.minIncome) && d.maxIncome == Str(e.maxIncome)
    ensures d.pythonCode.Bool? && (d.pythonCode.flag <==> e.pythonCode == Some(true))
    ensures d.description.Str?
    ensures e.description.None? ==> d.description == Str("")
    ensures e.description.Some? ==> d.description == Str(e.description.value)
  {
    EntryDraft(Str(e.taxRate), Str(e.minIncome), Str(e.maxIncome),
               Bool(e.pythonCode.GetOr(false)), Str(e.description.GetOr("")))
  }

  /** An entry is being edited when `editId` is set to a non-empty id. */
  predicate Editing(editId: Option<string>) {
    editId.Some? && editId.value != ""
  }

  /** `handleSaveEntry`'s request: an update of `editId` when editing, a create
      otherwise; either way it carries the draft. */
  function SaveRequest(editId: Option<string>, draft: EntryDraft): (r: TaxRequest)
    ensures r.body == draft
    ensures r.UpdateEntry? <==> Editing(editId)
    ensures r.UpdateEntry? ==> r.id == editId.value
  {
    if editId.Some? && editId.value != "" then UpdateEntry(editId.value, draft) else CreateEntry(draft)
  }

  /** Seeding the modal from an entry and saving updates that very entry with
      its own field values. */
  lemma EditThenSaveUpdatesEntry(e: TaxEntry)
    requires e.id != ""
    ensures SaveRequest(Some(e.id), SeedDraft(e)) == UpdateEntry(e.id, SeedDraft(e))
    ensures SaveRequest(Some(e.id), SeedDraft(e)).body.taxRate == Str(e.taxRate)
  {
  }

  // ---------------------------------------------------------------------------
  // The screen

  class FederalTaxScreen {
    var entries: seq<TaxEntry>
    var searchTerm: string
    var showModal: bool
    var showTable: bool
    var newEntry: EntryDraft
    var editId: Option<string>

    constructor ()
      ensures entries == [] && searchTerm == "" && !showModal && showTable
      ensures newEntry == EmptyDraft && editId == None
    {
      entries, searchTerm, showModal, showTable := [], "", false, true;
      newEntry, editId := EmptyDraft, None;
    }

    /** The entries listed: the search over all entries. */
    function FilteredEntries(): (r: seq<TaxEntry>)
      reads this
      ensures r == SearchEntries(entries, searchTerm)
      ensures forall e :: multiset(r)[e] ==
                if Contains(e.taxRate, searchTerm) || Contains(e.minIncome, searchTerm)
                   || Contains(e.maxIncome, searchTerm)
                then multiset(entries)[e] else 0
      ensures IsSubsequence(r, entries)
      ensures searchTerm == "" ==> r == entries
    {
      SearchEntries(entries, searchTerm)
    }

    /** `fetchTaxEntries`: a successful response replaces the entries. */
    method LoadEntries(response: Option<seq<TaxEntry>>)
      modifies this`entries
      ensures entries == if response.Some? then response.value else old(entries)
    {
      if response.Some? {
        entries := response.value;
      }
    }

    method SetSearchTerm(term: string)
      modifies this`searchTerm
      ensures searchTerm == term
    {
      searchTerm := term;
    }

    method ToggleTableVisibility()
      modifies this`showTable
      ensures showTable == !old(showTable)
    {
      showTable := !showTable;
    }

    method HandleInputChange(ev: InputEvent)
      modifies this`newEntry
      ensures newEntry == ApplyInput(old(newEntry), ev)
    {
      newEntry := ApplyInput(newEntry, ev);
    }

    /** Opens the modal on an existing entry. */
    method HandleEditEntry(e: TaxEntry)
      modifies this`newEntry, this`editId, this`showModal
      ensures newEntry == SeedDraft(e) && editId == Some(e.id) && showModal
    {
      newEntry := SeedDraft(e);
      editId := Some(e.id);
      showModal := true;
    }

    /** Opens the modal on a blank draft, not editing anything. */
    method HandleCreateButtonClick()
      modifies this`newEntry, this`editId, this`showModal
      ensures newEntry == EmptyDraft && editId == None && showModal
      ensures SaveRequest(editId, newEntry).CreateEntry?
    {
      showModal := true;
      editId := None;
      newEntry := EmptyDraft;
    }

    /** Closes the modal and forgets the draft and the entry being edited. */
    method HandleModalClose()
      modifies this`newEntry, this`editId, this`showModal
      ensures newEntry == EmptyDraft && editId == None && !showModal
    {
      showModal := false;
      newEntry := EmptyDraft;
      editId := None;
    }

    /** Saves the draft; only a successful request closes the modal and resets
        the draft. The re-fetch the screen then starts is a separate call of
        `LoadEntries`. */
    method HandleSaveEntry(saved: bool) returns (request: TaxRequest)
      modifies this`newEntry, this`editId, this`showModal
      ensures request == SaveRequest(old(editId), old(newEntry))
      ensures saved ==> newEntry == EmptyDraft && editId == None && !showModal
      ensures !saved ==> newEntry == old(newEntry) && editId == old(editId) && showModal == old(showModal)
    {
      request := SaveRequest(editId, newEntry);
      if saved {
        HandleModalClose();
      }
    }
  }
}
