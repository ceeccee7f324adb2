/** The Allowances payroll screen: the list of allowance records fetched from the
    server, the visible (filtered) list, the name search, the four-criterion
    filter panel, and the local list updates after edit, delete and create. */
module Allowances {
  import opened Wrappers
  import opened Seqs
  import opened Text

  /** An allowance record as the server returns it. `fixed` is taken as a
      boolean (the screen only ever tests its truthiness). */
  datatype Allowance = Allowance(
    id: string, code: string, name: string, amount: int,
    oneTime: string, taxable: string, fixed: bool)

  /** The four select boxes of the filter panel; "" is the "All" option. */
  datatype FilterOptions = FilterOptions(taxable: string, fixed: string, oneTime: string, amount: string)

  /** The `name` attribute of the select box that changed. */
  datatype FilterField = Taxable | Fixed | OneTime | Amount

  const NoFilter := FilterOptions("", "", "", "")

  /** The edit form before any record is loaded into it. */
  const BlankEditForm := Allowance("", "", "", 0, "No", "No", false)

  // ---------------------------------------------------------------------------
  // The filter criteria

  /** The amount-range select: three named buckets; any other value keeps all. */
  predicate InAmountBucket(bucket: string, amount: int)
    ensures bucket !in {"lessThan1000", "1000to5000", "moreThan5000"} ==> InAmountBucket(bucket, amount)
  {
    if bucket == "lessThan1000" then amount < 1000
    else if bucket == "1000to5000" then 1000 <= amount && amount <= 5000
    else if bucket == "moreThan5000" then amount > 5000
    else true
  }

  /** The three named buckets split the integers: every amount lies in exactly
      one of them, and the boundaries 1000 and 5000 belong to the middle one. */
  lemma AmountBucketsPartition(amount: int)
    ensures InAmountBucket("lessThan1000", amount) <==> amount < 1000
    ensures InAmountBucket("1000to5000", amount) <==> 1000 <= amount <= 5000
    ensures InAmountBucket("moreThan5000", amount) <==> amount > 5000
    ensures InAmountBucket("lessThan1000", amount) || InAmountBucket("1000to5000", amount)
            || InAmountBucket("moreThan5000", amount)
    ensures !(InAmountBucket("lessThan1000", amount) && InAmountBucket("1000to5000", amount))
    ensures !(InAmountBucket("1000to5000", amount) && InAmountBucket("moreThan5000", amount))
    ensures !(InAmountBucket("lessThan1000", amount) && InAmountBucket("moreThan5000", amount))
    ensures InAmountBucket("1000to5000", 1000) && InAmountBucket("1000to5000", 5000)
    ensures !InAmountBucket("lessThan1000", 1000) && !InAmountBucket("moreThan5000", 5000)
  {
  }

  /** The "Fixed/Variable" select: "Yes" keeps fixed records, any other
      non-empty choice keeps the variable ones. */
  predicate FixedChoiceKeeps(choice: string, fixed: bool) {
    if choice == "Yes" then fixed else !fixed
  }

  /** A record meets every criterion whose option is not "All". */
  predicate Matches(o: FilterOptions, a: Allowance)
    ensures o == NoFilter ==> Matches(o, a)
  {
    && (o.taxable != "" ==> a.taxable == o.taxable)
    && (o.fixed != "" ==> FixedChoiceKeeps(o.fixed, a.fixed))
    && (o.oneTime != "" ==> a.oneTime == o.oneTime)
    && (o.amount != "" ==> InAmountBucket(o.amount, a.amount))
  }

  /** The single-criterion predicates `applyFilter` passes to `filter`. */
  function TaxableIs(v: string): Allowance -> bool { (a: Allowance) => a.taxable == v }
  function FixedIs(choice: string): Allowance -> bool { (a: Allowance) => FixedChoiceKeeps(choice, a.fixed) }
  function OneTimeIs(v: string): Allowance -> bool { (a: Allowance) => a.oneTime == v }
  function AmountIn(bucket: string): Allowance -> bool { (a: Allowance) => InAmountBucket(bucket, a.amount) }
  function MatchesAll(o: FilterOptions): Allowance -> bool { (a: Allowance) => Matches(o, a) }

  /** The records of `s` that meet every active criterion of `o`, in order; each
      surviving record keeps its multiplicity and nothing else survives. */
  function Select(o: FilterOptions, s: seq<Allowance>): (r: seq<Allowance>)
    ensures forall a :: multiset(r)[a] == if Matches(o, a) then multiset(s)[a] else 0
    ensures forall a :: a in r <==> a in s && Matches(o, a)
    ensures IsSubsequence(r, s)
  {
    FilterIsSubsequence(MatchesAll(o), s);
    Filter(MatchesAll(o), s)
  }

  /** `applyFilter` narrows the list one active criterion at a time; the four
      passes together keep exactly what the single-pass `Select` keeps. */
  lemma PassesMakeSelect(o: FilterOptions, s: seq<Allowance>)
    ensures var f1 := if o.taxable != "" then Filter(TaxableIs(o.taxable), s) else s;
            var f2 := if o.fixed != "" then Filter(FixedIs(o.fixed), f1) else f1;
            var f3 := if o.oneTime != "" then Filter(OneTimeIs(o.oneTime), f2) else f2;
            var f4 := if o.amount != "" then Filter(AmountIn(o.amount), f3) else f3;
            f4 == Select(o, s)
  {
    var none := (a: Allowance) => true;
    var p1 := (a: Allowance) => o.taxable != "" ==> a.taxable == o.taxable;
    var p2 := (a: Allowance) => p1(a) && (o.fixed != "" ==> FixedChoiceKeeps(o.fixed, a.fixed));
    var p3 := (a: Allowance) => p2(a) && (o.oneTime != "" ==> a.oneTime == o.oneTime);
    FilterKeepsAll(none, s);
    FilterPass(none, TaxableIs(o.taxable), p1, o.taxable != "", s);
    FilterPass(p1, FixedIs(o.fixed), p2, o.fixed != "", s);
    FilterPass(p2, OneTimeIs(o.oneTime), p3, o.oneTime != "", s);
    FilterPass(p3, AmountIn(o.amount), MatchesAll(o), o.amount != "", s);
  }

  /** "Apply Filter" is enabled only when some option is not "All". */
  predicate ApplyFilterEnabled(o: FilterOptions)
    ensures ApplyFilterEnabled(o) <==> o != NoFilter
  {
    o.taxable != "" || o.fixed != "" || o.oneTime != "" || o.amount != ""
  }

  /** With every option at "All" the filter is the identity; so the disabled
      button would have been a no-op anyway. */
  lemma {:induction false} SelectNoFilter(o: FilterOptions, s: seq<Allowance>)
    ensures !ApplyFilterEnabled(o) ==> Select(o, s) == s
  {
    if !ApplyFilterEnabled(o) {
      FilterKeepsAll(MatchesAll(o), s);
    }
  }

  /** Applying the same filter twice is applying it once. */
  lemma SelectIdempotent(o: FilterOptions, s: seq<Allowance>)
    ensures Select(o, Select(o, s)) == Select(o, s)
  {
    FilterTwice(MatchesAll(o), MatchesAll(o), MatchesAll(o), s);
  }

  /** A record created with amount 2000 and taxable "Yes" is shown by the filter
      "1000 to 5000, taxable Yes" and hidden once the taxable option is "No". */
  lemma CreatedRecordScenario(s: seq<Allowance>, a: Allowance)
    requires a.amount == 2000 && a.taxable == "Yes"
    ensures a in Select(FilterOptions("Yes", "", "", "1000to5000"), s + [a])
    ensures a !in Select(FilterOptions("No", "", "", "1000to5000"), s + [a])
  {
    assert a in s + [a];
  }

  // ---------------------------------------------------------------------------
  // The name search

  function NameContains(term: string): Allowance -> bool {
    (a: Allowance) => ContainsIgnoringCase(a.name, term)
  }

  /** The records whose lower-cased name contains the lower-cased term, in
      order; an empty term keeps every record. */
  function SearchByName(s: seq<Allowance>, term: string): (r: seq<Allowance>)
    ensures forall a :: multiset(r)[a] == if ContainsIgnoringCase(a.name, term) then multiset(s)[a] else 0
    ensures IsSubsequence(r, s)
    ensures term == "" ==> r == s
  {
    FilterIsSubsequence(NameContains(term), s);
    if term == "" then
      forall a | a in s ensures NameContains(term)(a) {
        ContainsEmpty(ToLower(a.name));
      }
      FilterKeepsAll(NameContains(term), s);
      Filter(NameContains(term), s)
    else
      Filter(NameContains(term), s)
  }

  // ---------------------------------------------------------------------------
  // Local list maintenance

  function IdIsNot(id: string): Allowance -> bool { (a: Allowance) => a.id != id }

  /** The list without the records whose id is `id`; every other record keeps
      its place and multiplicity. */
  function RemoveById(s: seq<Allowance>, id: string): (r: seq<Allowance>)
    ensures forall a :: multiset(r)[a] == if a.id == id then 0 else multiset(s)[a]
    ensures forall a :: a in r ==> a.id != id
    ensures IsSubsequence(r, s)
  {
    FilterIsSubsequence(IdIsNot(id), s);
    Filter(IdIsNot(id), s)
  }

  /** A deleted id never shows up again, whatever the filter. */
  lemma DeletedNeverSelected(s: seq<Allowance>, id: string, o: FilterOptions, a: Allowance)
    ensures a in Select(o, RemoveById(s, id)) ==> a.id != id && a in s
  {
  }

  /** Each record with id `id` replaced by `response`; the length and every
      other position are unchanged. */
  function ReplaceById(s: seq<Allowance>, id: string, response: Allowance): (r: seq<Allowance>)
    ensures |r| == |s|
    ensures forall i :: 0 <= i < |s| && s[i].id == id ==> r[i] == response
    ensures forall i :: 0 <= i < |s| && s[i].id != id ==> r[i] == s[i]
  {
    if s == [] then []
    else [if s[0].id == id then response else s[0]] + ReplaceById(s[1..], id, response)
  }

  /** `find` by id: the first record with that id, or nothing when none has it. */
  function FindById(s: seq<Allowance>, id: string): (r: Option<Allowance>)
    ensures r.None? <==> forall a :: a in s ==> a.id != id
    ensures r.Some? ==> exists i :: 0 <= i < |s| && s[i] == r.value && r.value.id == id
                                    && forall j :: 0 <= j < i ==> s[j].id != id
  {
    if s == [] then None
    else if s[0].id == id then Some(s[0])
    else
      var r := FindById(s[1..], id);
      if r.Some? then
        var i :| 0 <= i < |s[1..]| && s[1..][i] == r.value && r.value.id == id
                 && forall j :: 0 <= j < i ==> s[1..][j].id != id;
        assert s[i + 1] == r.value;
        r
      else r
  }

  // ---------------------------------------------------------------------------
  // The visible list once the search effect has re-run

  function IdIsNotAndNameContains(id: string, term: string): Allowance -> bool {
    (a: Allowance) => a.id != id && ContainsIgnoringCase(a.name, term)
  }

  /** After a delete the search effect leaves the searched list minus the
      deleted records: the search is kept, not discarded. */
  lemma SearchAfterDelete(s: seq<Allowance>, id: string, term: string)
    ensures SearchByName(RemoveById(s, id), term) == RemoveById(SearchByName(s, term), id)
  {
    var both := IdIsNotAndNameContains(id, term);
    FilterTwice(IdIsNot(id), NameContains(term), both, s);
    FilterTwice(NameContains(term), IdIsNot(id), both, s);
  }

  /** After a create the search effect shows the new record, at the end,
      exactly when its name matches the debounced term. */
  lemma SearchAfterCreate(s: seq<Allowance>, a: Allowance, term: string)
    ensures SearchByName(s + [a], term)
              == SearchByName(s, term) + (if ContainsIgnoringCase(a.name, term) then [a] else [])
  {
    FilterAppend(NameContains(term), s, a);
  }

  // ---------------------------------------------------------------------------
  // The screen

  class AllowancesScreen {
    var allowancesData: seq<Allowance>
    var filteredData: seq<Allowance>
    var searchTerm: string
    var isFilterVisible: bool
    var isEditModalOpen: bool
    var isCreateModalOpen: bool
    var editFormData: Allowance
    var filterOptions: FilterOptions
    var filtersApplied: bool

    constructor ()
      ensures allowancesData == [] && filteredData == [] && searchTerm == ""
      ensures !isFilterVisible && !isEditModalOpen && !isCreateModalOpen
      ensures editFormData == BlankEditForm && filterOptions == NoFilter && !filtersApplied
    {
      allowancesData, filteredData, searchTerm := [], [], "";
      isFilterVisible, isEditModalOpen, isCreateModalOpen := false, false, false;
      editFormData, filterOptions, filtersApplied := BlankEditForm, NoFilter, false;
    }

    /** The initial fetch: on success both lists become the server's list. */
    method LoadAllowances(response: Option<seq<Allowance>>)
      modifies this`allowancesData, this`filteredData
      ensures response.Some? ==> allowancesData == response.value && filteredData == response.value
      ensures response.None? ==> allowancesData == old(allowancesData) && filteredData == old(filteredData)
    {
      if response.Some? {
        allowancesData := response.value;
        filteredData := response.value;
      }
    }

    /** The effect that runs once the debounced search term settles (and
        whenever `allowancesData` changes): the visible list becomes the name
        search over the whole list. */
    method SearchEffect(debouncedTerm: string)
      modifies this`filteredData
      ensures filteredData == SearchByName(allowancesData, debouncedTerm)
    {
      filteredData := SearchByName(allowancesData, debouncedTerm);
    }

    /** A keystroke in the search box: the term is stored and the whole list is
        searched at once, discarding any applied filter. */
    method HandleSearch(term: string)
      modifies this`searchTerm, this`filteredData
      ensures searchTerm == term
      ensures filteredData == SearchByName(allowancesData, term)
      ensures term == "" ==> filteredData == allowancesData
    {
      searchTerm := term;
      filteredData := SearchByName(allowancesData, term);
    }

    /** Opens the edit form on the first record with that id; an unknown id
        changes nothing. */
    method HandleEdit(id: string)
      modifies this`editFormData, this`isEditModalOpen
      ensures FindById(allowancesData, id).Some? ==>
                editFormData == FindById(allowancesData, id).value && isEditModalOpen
      ensures FindById(allowancesData, id).None? ==>
                editFormData == old(editFormData) && isEditModalOpen == old(isEditModalOpen)
    {
      var found := FindById(allowancesData, id);
      if found.None? {
        return;
      }
      editFormData := found.value;
      isEditModalOpen := true;
    }

    /** Sends the edit form; on success every record carrying the form's id is
        replaced by the server's response in both lists and the modal closes;
        on failure nothing changes. */
    method HandleEditSubmit(response: Option<Allowance>) returns (sent: Allowance)
      modifies this`allowancesData, this`filteredData, this`isEditModalOpen
      ensures sent == editFormData
      ensures response.Some? ==>
                && allowancesData == ReplaceById(old(allowancesData), editFormData.id, response.value)
                && filteredData == ReplaceById(old(filteredData), editFormData.id, response.value)
                && !isEditModalOpen
      ensures response.None? ==>
                allowancesData == old(allowancesData) && filteredData == old(filteredData)
                && isEditModalOpen == old(isEditModalOpen)
    {
      sent := editFormData;
      if response.Some? {
        allowancesData := ReplaceById(allowancesData, editFormData.id, response.value);
        filteredData := ReplaceById(filteredData, editFormData.id, response.value);
        isEditModalOpen := false;
      }
    }

    /** Deletes after confirmation. A missing id or a refused confirmation sends
        nothing; a successful request leaves both lists equal to the remaining
        records (the active filter is discarded); a failed one changes nothing. */
    method HandleDelete(id: string, confirmed: bool, deleted: bool) returns (requested: bool)
      modifies this`allowancesData, this`filteredData
      ensures requested <==> id != "" && confirmed
      ensures requested && deleted ==>
                allowancesData == RemoveById(old(allowancesData), id) && filteredData == allowancesData
      ensures !(requested && deleted) ==>
                allowancesData == old(allowancesData) && filteredData == old(filteredData)
    {
      if id == "" || !confirmed {
        return false;
      }
      requested := true;
      if deleted {
        var updatedData := RemoveById(allowancesData, id);
        allowancesData := updatedData;
        filteredData := updatedData;
      }
    }

    method ToggleFilterVisibility()
      modifies this`isFilterVisible
      ensures isFilterVisible == !old(isFilterVisible)
    {
      isFilterVisible := !isFilterVisible;
    }

    /** A change in one select box of the filter panel; the others keep their
        value. */
    method HandleFilterChange(field: FilterField, value: string)
      modifies this`filterOptions
      ensures filterOptions == match field
        case Taxable => old(filterOptions).(taxable := value)
        case Fixed => old(filterOptions).(fixed := value)
        case OneTime => old(filterOptions).(oneTime := value)
        case Amount => old(filterOptions).(amount := value)
    {
      match field {
        case Taxable => filterOptions := filterOptions.(taxable := value);
        case Fixed => filterOptions := filterOptions.(fixed := value);
        case OneTime => filterOptions := filterOptions.(oneTime := value);
        case Amount => filterOptions := filterOptions.(amount := value);
      }
    }

    /** Whether the "Apply Filter" button is enabled. */
    function ApplyFilterButtonEnabled(): (enabled: bool)
      reads this
      ensures !enabled ==> filterOptions == NoFilter
      ensures enabled ==> filterOptions != NoFilter
    {
      ApplyFilterEnabled(filterOptions)
    }

    /** Filters the whole list (never the search result) one active criterion
        at a time; the outcome is the single-pass `Select`. */
    method ApplyFilter()
      modifies this`filteredData, this`isFilterVisible, this`filtersApplied
      ensures filteredData == Select(filterOptions, allowancesData)
      ensures !isFilterVisible && filtersApplied
    {
      var o := filterOptions;
      PassesMakeSelect(o, allowancesData);
      var filtered := allowancesData;
      if o.taxable != "" {
        filtered := Filter(TaxableIs(o.taxable), filtered);
      }
      if o.fixed != "" {
        filtered := Filter(FixedIs(o.fixed), filtered);
      }
      if o.oneTime != "" {
        filtered := Filter(OneTimeIs(o.oneTime), filtered);
      }
      if o.amount != "" {
        filtered := Filter(AmountIn(o.amount), filtered);
      }
      filteredData := filtered;
      isFilterVisible := false;
      filtersApplied := true;
    }

    /** Clears every option and shows the whole list again. */
    method ResetFilters()
      modifies this`filterOptions, this`filteredData, this`filtersApplied, this`isFilterVisible
      ensures filterOptions == NoFilter && filteredData == allowancesData
      ensures !filtersApplied && !isFilterVisible
      ensures filteredData == Select(filterOptions, allowancesData)
    {
      filterOptions := NoFilter;
      filteredData := allowancesData;
      filtersApplied := false;
      isFilterVisible := false;
      SelectNoFilter(filterOptions, allowancesData);
    }

    /** The header's filter button: "Reset" while a filter is applied, and
        otherwise "Filter", which shows or hides the panel. */
    method FilterButtonClick()
      modifies this`filterOptions, this`filteredData, this`filtersApplied, this`isFilterVisible
      ensures old(filtersApplied) ==>
                && filterOptions == NoFilter && filteredData == allowancesData
                && !filtersApplied && !isFilterVisible
      ensures !old(filtersApplied) ==>
                && isFilterVisible == !old(isFilterVisible)
                && filterOptions == old(filterOptions) && filteredData == old(filteredData)
                && !filtersApplied
    {
      if filtersApplied {
        ResetFilters();
      } else {
        ToggleFilterVisibility();
      }
    }

    /** The create modal's callback: the new record is appended to both lists,
        whether or not it meets the active filter or search. */
    method AddAllowance(newAllowance: Allowance)
      modifies this`allowancesData, this`filteredData, this`isCreateModalOpen
      ensures allowancesData == old(allowancesData) + [newAllowance]
      ensures filteredData == old(filteredData) + [newAllowance]
      ensures !isCreateModalOpen
    {
      allowancesData := allowancesData + [newAllowance];
      filteredData := filteredData + [newAllowance];
      isCreateModalOpen := false;
    }

    /** A delete followed by the search effect it triggers, since the delete
        replaces `allowancesData`: the visible list settles to the name search
        of the remaining records. */
    method DeleteAndSettle(id: string, confirmed: bool, deleted: bool, debouncedTerm: string)
      returns (requested: bool)
      modifies this`allowancesData, this`filteredData
      ensures requested <==> id != "" && confirmed
      ensures requested && deleted ==>
                && allowancesData == RemoveById(old(allowancesData), id)
                && filteredData == SearchByName(RemoveById(old(allowancesData), id), debouncedTerm)
                && filteredData == RemoveById(SearchByName(old(allowancesData), debouncedTerm), id)
      ensures !(requested && deleted) ==>
                allowancesData == old(allowancesData) && filteredData == old(filteredData)
    {
      requested := HandleDelete(id, confirmed, deleted);
      if requested && deleted {
        SearchEffect(debouncedTerm);
        SearchAfterDelete(old(allowancesData), id, debouncedTerm);
      }
    }

    /** A create followed by the search effect: the visible list settles to
        the name search of the whole list, so an applied filter is dropped and
        the new record shows only when its name matches the term. */
    method AddAndSettle(newAllowance: Allowance, debouncedTerm: string)
      modifies this`allowancesData, this`filteredData, this`isCreateModalOpen
      ensures allowancesData == old(allowancesData) + [newAllowance]
      ensures filteredData == SearchByName(old(allowancesData), debouncedTerm)
                + (if ContainsIgnoringCase(newAllowance.name, debouncedTerm) then [newAllowance] else [])
      ensures !isCreateModalOpen
    {
      AddAllowance(newAllowance);
      SearchEffect(debouncedTerm);
      SearchAfterCreate(old(allowancesData), newAllowance, debouncedTerm);
    }

    /** A successful edit followed by the search effect: the visible list
        settles to the name search of the updated list; a failed edit changes
        nothing, so the effect does not run. */
    method EditSubmitAndSettle(response: Option<Allowance>, debouncedTerm: string) returns (sent: Allowance)
      modifies this`allowancesData, this`filteredData, this`isEditModalOpen
      ensures sent == editFormData
      ensures response.Some? ==>
                && allowancesData == ReplaceById(old(allowancesData), editFormData.id, response.value)
                && filteredData == SearchByName(allowancesData, debouncedTerm)
                && !isEditModalOpen
      ensures response.None? ==>
                allowancesData == old(allowancesData) && filteredData == old(filteredData)
                && isEditModalOpen == old(isEditModalOpen)
    {
      sent := HandleEditSubmit(response);
      if response.Some? {
        SearchEffect(debouncedTerm);
      }
    }
  }
}
