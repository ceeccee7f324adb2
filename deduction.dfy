/** The "create deduction" form: the employee picker (search, avatars with
    initials, a duplicate-free selection), the required-field check and the
    request built on submit. */
module Deduction {
  import opened Wrappers
  import opened Seqs
  import opened Text

  datatype Employee = Employee(id: int, name: string, role: string)

  /** The employee list the form offers (it is built into the form). */
  const SampleEmployees := [
    Employee(1, "John Doe", "Software Engineer"),
    Employee(2, "Jane Smith", "Product Manager"),
    Employee(3, "Mark Johnson", "Designer"),
    Employee(4, "Alice Brown", "HR Manager"),
    Employee(5, "John Sinha", "Bouncer"),
    Employee(6, "Charles babbage", "Developer"),
    Employee(7, "Ravijith Aggarwal", "Computer Engineer")
  ]

  /** The body sent to the deductions collection. */
  datatype DeductionPayload = DeductionPayload(
    code: string, name: string, amount: int, taxable: string, fixed: bool,
    oneTimeDeduction: string, specificEmployees: seq<string>,
    employerRate: string, employeeRate: string)

  /** An update of the deduction being edited, or a create. */
  datatype DeductionRequest =
    | UpdateDeduction(id: string, payload: DeductionPayload)
    | CreateDeduction(payload: DeductionPayload)

  const EmployerRate := "6.25% of Gross Pay"
  const EmployeeRate := "7.75% of Gross Pay"

  // ---------------------------------------------------------------------------
  // Initials

  /** `s.split(sep)`: the pieces between separators, empty ones included; there
      is always at least one piece. */
  function Split(s: string, sep: char): (words: seq<string>)
    ensures |words| >= 1
    ensures forall w :: w in words ==> sep !in w
  {
    if s == [] then [[]]
    else
      var rest := Split(s[1..], sep);
      if s[0] == sep then [[]] + rest else [[s[0]] + rest[0]] + rest[1..]
  }

  /** `words.join(sep)`. */
  function Join(words: seq<string>, sep: char): string {
    if words == [] then []
    else if |words| == 1 then words[0]
    else words[0] + [sep] + Join(words[1..], sep)
  }

  /** Splitting loses nothing: joining the pieces gives the string back. */
  lemma {:induction false} JoinSplit(s: string, sep: char)
    ensures Join(Split(s, sep), sep) == s
  {
    if s != [] {
      JoinSplit(s[1..], sep);
      var rest := Split(s[1..], sep);
      if s[0] == sep {
        assert Split(s, sep)[1..] == rest;
      } else {
        var words := Split(s, sep);
        if |rest| == 1 {
          assert words == [[s[0]] + rest[0]];
        } else {
          assert words[1..] == rest[1..];
          assert Join(words, sep) == [s[0]] + rest[0] + [sep] + Join(rest[1..], sep);
        }
        assert s == [s[0]] + s[1..];
      }
    }
  }

  /** `words.map(word => word[0]).join('')`: an empty word maps to `undefined`,
      which `join` renders as nothing. */
  function FirstChars(words: seq<string>): (r: string)
    ensures |r| <= |words|
  {
    if words == [] then []
    else (if words[0] == [] then [] else [words[0][0]]) + FirstChars(words[1..])
  }

  /** The characters of `s` that begin a word: not a space, and first in `s` or
      right after a space (`atStart` says whether the previous one was). */
  function WordStarts(s: string, atStart: bool): (r: string)
    ensures forall c :: c in r ==> c in s && c != ' '
  {
    if s == [] then []
    else (if atStart && s[0] != ' ' then [s[0]] else []) + WordStarts(s[1..], s[0] == ' ')
  }

  /** The split-based computation picks exactly the word-start characters;
      in the middle of a word, the first piece has already been counted. */
  lemma {:induction false} FirstCharsAreWordStarts(s: string, atStart: bool)
    ensures WordStarts(s, atStart) ==
              if atStart then FirstChars(Split(s, ' ')) else FirstChars(Split(s, ' ')[1..])
  {
    if s != [] {
      var rest := Split(s[1..], ' ');
      if s[0] == ' ' {
        FirstCharsAreWordStarts(s[1..], true);
        assert Split(s, ' ')[1..] == rest;
      } else {
        FirstCharsAreWordStarts(s[1..], false);
        var words := Split(s, ' ');
        assert words[0][0] == s[0] && words[1..] == rest[1..];
      }
    }
  }

  /** `getInitials`: nothing for an empty name, otherwise the upper-cased first
      characters of the space-separated words, at most two of them. */
  function GetInitials(name: string): (r: string)
    ensures |r| <= 2
    ensures name == "" ==> r == ""
  {
    if name == "" then ""
    else
      var initials := ToUpper(FirstChars(Split(name, ' ')));
      initials[..if |initials| < 2 then |initials| else 2]
  }

  /** The initials are the first (at most two) word starts, upper-cased. */
  lemma InitialsAreWordStarts(name: string)
    ensures var starts := ToUpper(WordStarts(name, true));
            GetInitials(name) == starts[..if |starts| < 2 then |starts| else 2]
  {
    FirstCharsAreWordStarts(name, true);
  }

  /** Two words give two initials, upper-cased. */
  lemma InitialsOfTwoWords()
    ensures GetInitials("Charles babbage") == "CB"
  {
    InitialsAreWordStarts("Charles babbage");
  }

  /** A single word gives one initial. */
  lemma InitialsOfOneWord()
    ensures GetInitials("Mark") == "M"
  {
    InitialsAreWordStarts("Mark");
  }

  /** Runs of spaces make empty words, which contribute nothing, and words
      past the second are cut off. */
  lemma InitialsSkipEmptyWords()
    ensures GetInitials(" a  b c") == "AB"
  {
    InitialsAreWordStarts(" a  b c");
  }

  // ---------------------------------------------------------------------------
  // The employee picker

  function EmployeeMatches(text: string): Employee -> bool {
    (e: Employee) => ContainsIgnoringCase(e.name, text) || ContainsIgnoringCase(e.role, text)
  }

  /** `filteredEmployees`: the employees whose lower-cased name or role contains
      the lower-cased text, in order; empty text keeps them all. */
  function FilterEmployees(es: seq<Employee>, text: string): (r: seq<Employee>)
    ensures forall e :: multiset(r)[e] ==
              if ContainsIgnoringCase(e.name, text) || ContainsIgnoringCase(e.role, text)
              then multiset(es)[e] else 0
    ensures IsSubsequence(r, es)
    ensures text == "" ==> r == es
  {
    FilterIsSubsequence(EmployeeMatches(text), es);
    if text == "" then
      forall e | e in es ensures EmployeeMatches(text)(e) {
        ContainsEmpty(ToLower(e.name));
      }
      FilterKeepsAll(EmployeeMatches(text), es);
      Filter(EmployeeMatches(text), es)
    else
      Filter(EmployeeMatches(text), es)
  }

  predicate NoDuplicates(s: seq<string>) {
    forall i, j :: 0 <= i < j < |s| ==> s[i] != s[j]
  }

  /** `handleEmployeeSelect`: a non-empty name not yet selected is appended;
      anything else leaves the selection as it is. */
  function SelectEmployee(selected: seq<string>, name: string): (r: seq<string>)
    ensures name != "" && name !in selected ==> r == selected + [name]
    ensures name == "" || name in selected ==> r == selected
    ensures NoDuplicates(selected) ==> NoDuplicates(r)
  {
    if name != "" && name !in selected then selected + [name] else selected
  }

  function IsNot(name: string): string -> bool { (n: string) => n != name }

  /** `handleRemoveEmployee`: every copy of the name leaves, the others keep
      their order. */
  function RemoveEmployee(selected: seq<string>, name: string): (r: seq<string>)
    ensures forall n :: n in r <==> n in selected && n != name
    ensures forall n :: multiset(r)[n] == if n == name then 0 else multiset(selected)[n]
    ensures IsSubsequence(r, selected)
    ensures NoDuplicates(selected) ==> NoDuplicates(r)
  {
    FilterIsSubsequence(IsNot(name), selected);
    FilterKeepsDistinct(IsNot(name), selected);
    Filter(IsNot(name), selected)
  }

  /** Filtering a list without duplicates cannot create any. */
  lemma {:induction false} FilterKeepsDistinct(p: string -> bool, s: seq<string>)
    ensures NoDuplicates(s) ==> NoDuplicates(Filter(p, s))
  {
    if s != [] && NoDuplicates(s) {
      var t := s[1..];
      assert NoDuplicates(t) by {
        forall i, j | 0 <= i < j < |t| ensures t[i] != t[j] {
          assert t[i] == s[i + 1] && t[j] == s[j + 1];
        }
      }
      FilterKeepsDistinct(p, t);
      if p(s[0]) {
        var x := Filter(p, t);
        assert s[0] !in t by {
          forall k | 0 <= k < |t| ensures t[k] != s[0] {
            assert t[k] == s[k + 1];
          }
        }
        assert s[0] !in x;
        var r := [s[0]] + x;
        forall i, j | 0 <= i < j < |r| ensures r[i] != r[j] {
          assert r[j] == x[j - 1];
          if i > 0 {
            assert r[i] == x[i - 1];
          }
        }
      }
    }
  }

  /** Selecting twice is selecting once. */
  lemma SelectIdempotent(selected: seq<string>, name: string)
    ensures SelectEmployee(SelectEmployee(selected, name), name) == SelectEmployee(selected, name)
  {
  }

  /** Selecting a fresh name and removing it again restores the selection. */
  lemma {:induction false} SelectThenRemove(selected: seq<string>, name: string)
    requires name != "" && name !in selected
    ensures RemoveEmployee(SelectEmployee(selected, name), name) == selected
  {
    FilterAppend(IsNot(name), selected, name);
    FilterKeepsAll(IsNot(name), selected);
  }

  // ---------------------------------------------------------------------------
  // Submit

  /** `validateForm`: both required fields, title and amount, must be filled. */
  predicate ValidateForm(title: string, amountText: string) {
    title != "" && amountText != ""
  }

  /** The payload `handleSubmit` sends. */
  function BuildPayload(title: string, amount: int, isTaxable: bool, isFixed: bool,
                        oneTimeDate: string, selected: seq<string>): (p: DeductionPayload)
    ensures p.code == title && p.name == title && p.amount == amount && p.fixed == isFixed
    ensures p.taxable in {"Yes", "No"} && (p.taxable == "Yes" <==> isTaxable)
    ensures p.oneTimeDeduction in {"Yes", "No"} && (p.oneTimeDeduction == "Yes" <==> oneTimeDate != "")
    ensures p.specificEmployees == selected
    ensures p.employerRate == EmployerRate && p.employeeRate == EmployeeRate
  {
    DeductionPayload(
      title, title, amount, if isTaxable then "Yes" else "No", isFixed,
      if oneTimeDate != "" then "Yes" else "No", selected, EmployerRate, EmployeeRate)
  }

  // ---------------------------------------------------------------------------
  // The form

  class DeductionForm {
    var isTaxable: bool
    var isFixed: bool
    var isConditionBased: bool
    var selectedEmployee: seq<string>
    var filterText: string

    ghost predicate Valid()
      reads this
    {
      NoDuplicates(selectedEmployee)
    }

    constructor ()
      ensures Valid()
      ensures !isTaxable && !isFixed && !isConditionBased
      ensures selectedEmployee == [] && filterText == ""
    {
      isTaxable, isFixed, isConditionBased := false, false, false;
      selectedEmployee, filterText := [], "";
    }

    /** The employees offered for the current filter text. */
    function FilteredEmployees(): (r: seq<Employee>)
      reads this
      ensures r == FilterEmployees(SampleEmployees, filterText)
      ensures forall e :: multiset(r)[e] ==
                if ContainsIgnoringCase(e.name, filterText) || ContainsIgnoringCase(e.role, filterText)
                then multiset(SampleEmployees)[e] else 0
      ensures IsSubsequence(r, SampleEmployees)
      ensures filterText == "" ==> r == SampleEmployees
    {
      FilterEmployees(SampleEmployees, filterText)
    }

    method SetFilterText(text: string)
      modifies this`filterText
      ensures filterText == text
    {
      filterText := text;
    }

    method ToggleTaxable()
      modifies this`isTaxable
      ensures isTaxable == !old(isTaxable)
    {
      isTaxable := !isTaxable;
    }

    method ToggleFixed()
      modifies this`isFixed
      ensures isFixed == !old(isFixed)
    {
      isFixed := !isFixed;
    }

    method HandleEmployeeSelect(name: string)
      requires Valid()
      modifies this`selectedEmployee
      ensures Valid()
      ensures selectedEmployee == SelectEmployee(old(selectedEmployee), name)
    {
      selectedEmployee := SelectEmployee(selectedEmployee, name);
    }

    method HandleRemoveEmployee(name: string)
      requires Valid()
      modifies this`selectedEmployee
      ensures Valid()
      ensures selectedEmployee == RemoveEmployee(old(selectedEmployee), name)
    {
      selectedEmployee := RemoveEmployee(selectedEmployee, name);
    }

    /** Submit, given what the title, amount and date inputs hold (`amount` is
        the parsed amount) and the id of the deduction being edited, if any.
        With a required field empty nothing is sent; otherwise an update when
        editing and a create when not, both carrying the built payload.
        `succeeded` is the outcome of that request; the form is closed (`onClose`)
        only when a request was sent and succeeded, and stays open otherwise. */
    method HandleSubmit(title: string, amountText: string, amount: int, oneTimeDate: string,
                        editId: Option<string>, succeeded: bool)
      returns (request: Option<DeductionRequest>, closes: bool)
      ensures request.None? <==> title == "" || amountText == ""
      ensures closes <==> request.Some? && succeeded
      ensures request.Some? ==>
                request.value.payload
                  == BuildPayload(title, amount, isTaxable, isFixed, oneTimeDate, selectedEmployee)
      ensures request.Some? ==>
                (request.value.UpdateDeduction? <==> editId.Some?)
                && (editId.Some? ==> request.value.id == editId.value)
    {
      if !ValidateForm(title, amountText) {
        return None, false;
      }
      var payload := BuildPayload(title, amount, isTaxable, isFixed, oneTimeDate, selectedEmployee);
      if editId.Some? {
        request := Some(UpdateDeduction(editId.value, payload));
      } else {
        request := Some(CreateDeduction(payload));
      }
      closes := succeeded;
    }
  }
}
