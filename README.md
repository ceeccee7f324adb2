# HRMS front end: four payroll and onboarding screens

This project models the synchronous logic of four React screens of the HRMS
front end (`db4-frontend`) and proves properties of it in Dafny:

- **Allowances** (`Payroll/Allowances.js`). It keeps the fetched allowance
  records and the visible list. It covers the case-insensitive name search,
  the four-criterion filter panel (taxable, fixed/variable, one-time and
  amount bucket), resetting the filters, and the local list updates after
  edit, delete and create.
- **Onboarding** (`Onboarding/OnboardingView_1.js`). It covers the three form
  validators (phone, email, position) and the keystroke handler, which gates
  each value before committing it. It also covers the submit-time
  re-validation, the local append after create and removal after delete, the
  name search, and the choice of fetch URL by stage.
- **Create deduction** (`Payroll/CreateDeduction.js`). It covers the employee
  picker: search by name or role, avatar initials, and a selection that never
  holds the same name twice. It also covers the required-field check and the
  payload sent on submit.
- **Federal tax** (`Payroll/FederalTax.js`, the live component only). It
  covers the case-sensitive search over three fields and the typed draft
  update (a checked state or a text). It also covers seeding the draft for an
  edit, resetting it, and choosing between create and update on save.

Each React component becomes a `class`. Its `useState` variables are fields
and its handlers are methods that say in `modifies` which fields they change.
The filters, validators and request builders are pure functions. Each method
is tied by its `ensures` to those functions, and the lemmas state what the
functions mean.

Every HTTP call becomes an input to the handler that makes it:
- an `Option` response, where `None` means the request failed;
- a `bool`, for a request whose response is not used;
- a `bool` for `window.confirm`.

A falsy id (`""` or `undefined`) is the empty string. Amounts are already
parsed integers.

Shared pieces:
- `wrappers.dfy` has `Option`.
- `seqs.dfy` has a generic `Filter` (JavaScript's `Array.prototype.filter`),
  its lemmas and order-preserving subsequences.
- `text.dfy` has ASCII case mapping, substring search (`String.prototype.includes`),
  the ASCII letter and digit classes, and the exact set of characters matched
  by the regular-expression class `\s`.

Where the code and the intended design differ, the model follows the code:
- `applyFilter` always starts from the whole list and ignores the search term.
- A delete handler sets the visible list to every remaining record, and a
  create handler appends the new record to the visible list whether or not
  it matches. Both replace `allowancesData`, so the search effect then runs
  again and re-derives the visible list as the name search of the whole list
  by the debounced term. After that the search is kept, up to the deleted or
  added record, but an applied filter is dropped. `DeleteAndSettle`,
  `AddAndSettle` and `EditSubmitAndSettle` state the list once the effect
  has run.
- The email check also rejects an `@` after the dot. The regular expression
  excludes `@` from all three parts, so a valid address holds exactly one.
- Typing into the email field shows an error as soon as the value is invalid,
  and that includes the empty value.

## Model

| member | source | states |
|---|---|---|
| Allowances.InAmountBucket | db4-frontend/src/screens/templates/Payroll/Allowances.js:146-157 | the amount-range test. An option other than the three named buckets keeps every amount |
| Allowances.FixedChoiceKeeps | db4-frontend/src/screens/templates/Payroll/Allowances.js:139 | the fixed/variable test: "Yes" keeps fixed records, any other chosen value keeps variable ones |
| Allowances.Matches | db4-frontend/src/screens/templates/Payroll/Allowances.js:134-144 | a record meets every criterion whose option is non-empty, so with no option set every record matches |
| Allowances.AmountBucketsPartition | db4-frontend/src/screens/templates/Payroll/Allowances.js:145-158 | "lessThan1000" holds iff amount < 1000, "1000to5000" iff 1000 ≤ amount ≤ 5000, "moreThan5000" iff amount > 5000. Every amount is in exactly one bucket, and 1000 and 5000 are in the middle one |
| Allowances.Select | db4-frontend/src/screens/templates/Payroll/Allowances.js:131-163 | the filter result holds exactly the records meeting every non-empty criterion, with their multiplicity, as an order-preserving subsequence of the input |
| Allowances.PassesMakeSelect | db4-frontend/src/screens/templates/Payroll/Allowances.js:132-158 | the four successive passes, each applied only when its option is non-empty, give the same list as one pass with all the criteria |
| Allowances.ApplyFilterEnabled | db4-frontend/src/screens/templates/Payroll/Allowances.js:274 | "Apply Filter" is enabled iff the options are not all empty |
| Allowances.SelectNoFilter | db4-frontend/src/screens/templates/Payroll/Allowances.js:131-163 | with all four options empty the filter returns the whole list |
| Allowances.SelectIdempotent | db4-frontend/src/screens/templates/Payroll/Allowances.js:131-163 | filtering the filtered list again changes nothing |
| Allowances.CreatedRecordScenario | db4-frontend/src/screens/templates/Payroll/Allowances.js:134-158 | a newly added taxable record of amount 2000 is kept by "taxable Yes, 1000 to 5000" and dropped by "taxable No" |
| Allowances.SearchByName | db4-frontend/src/screens/templates/Payroll/Allowances.js:46-48 | the records whose lower-cased name contains the lower-cased term, with multiplicity and in order. An empty term keeps the whole list |
| Allowances.RemoveById | db4-frontend/src/screens/templates/Payroll/Allowances.js:111 | exactly the records with that id are gone. All others keep their multiplicity and order |
| Allowances.DeletedNeverSelected | db4-frontend/src/screens/templates/Payroll/Allowances.js:111-113 | after a delete, no filter over the remaining list can show the deleted id, and whatever it shows was in the original list |
| Allowances.ReplaceById | db4-frontend/src/screens/templates/Payroll/Allowances.js:93-98 | same length. Each position holding the id gets the response and every other position is unchanged |
| Allowances.FindById | db4-frontend/src/screens/templates/Payroll/Allowances.js:80-81 | nothing iff no record has the id, otherwise the first record that has it |
| Allowances.AllowancesScreen.constructor | db4-frontend/src/screens/templates/Payroll/Allowances.js:16-40 | the initial state: empty lists and term, closed panels, a blank edit form, all options empty |
| Allowances.AllowancesScreen.LoadAllowances | db4-frontend/src/screens/templates/Payroll/Allowances.js:53-64 | a response replaces both lists; a failed fetch changes nothing |
| Allowances.AllowancesScreen.SearchEffect | db4-frontend/src/screens/templates/Payroll/Allowances.js:42-51 | the visible list becomes the name search of the whole list by the debounced term |
| Allowances.AllowancesScreen.HandleSearch | db4-frontend/src/screens/templates/Payroll/Allowances.js:66-77 | stores the term. The visible list becomes the name search of the whole list, which is the whole list for an empty term |
| Allowances.AllowancesScreen.HandleEdit | db4-frontend/src/screens/templates/Payroll/Allowances.js:79-84 | a known id loads its first record into the form and opens the modal. An unknown id changes nothing |
| Allowances.AllowancesScreen.HandleEditSubmit | db4-frontend/src/screens/templates/Payroll/Allowances.js:86-103 | sends the form. On success both lists replace the records with the form's id by the response and the modal closes. On failure nothing changes |
| Allowances.AllowancesScreen.HandleDelete | db4-frontend/src/screens/templates/Payroll/Allowances.js:105-117 | a request is made iff the id is non-empty and confirmed. On success both lists become the same remaining list. Otherwise nothing changes |
| Allowances.AllowancesScreen.ToggleFilterVisibility | db4-frontend/src/screens/templates/Payroll/Allowances.js:119-121 | the filter panel's visibility flips |
| Allowances.AllowancesScreen.HandleFilterChange | db4-frontend/src/screens/templates/Payroll/Allowances.js:123-129 | only the named option takes the new value |
| Allowances.AllowancesScreen.ApplyFilterButtonEnabled | db4-frontend/src/screens/templates/Payroll/Allowances.js:274 | the button is enabled iff some option is non-empty |
| Allowances.AllowancesScreen.ApplyFilter | db4-frontend/src/screens/templates/Payroll/Allowances.js:131-163 | the step-by-step passes over the whole list yield `Select` of the options. The panel closes and the filter is marked applied |
| Allowances.AllowancesScreen.ResetFilters | db4-frontend/src/screens/templates/Payroll/Allowances.js:165-175 | all options become empty, the visible list becomes the whole list (which equals the empty filter's result), the applied flag is cleared and the panel closes |
| Allowances.AllowancesScreen.AddAllowance | db4-frontend/src/screens/templates/Payroll/Allowances.js:375-379 | the new record is appended at the end of both lists and the modal closes |
| Allowances.AllowancesScreen.FilterButtonClick | db4-frontend/src/screens/templates/Payroll/Allowances.js:203 | while a filter is applied, the button resets the filters: no option set, the whole list shown, the panel closed. Otherwise it shows or hides the panel and changes nothing else |
| Allowances.SearchAfterDelete | db4-frontend/src/screens/templates/Payroll/Allowances.js:42-51 | the search of the list after a delete equals the earlier search result minus the deleted records |
| Allowances.SearchAfterCreate | db4-frontend/src/screens/templates/Payroll/Allowances.js:42-51 | the search of the list after a create is the earlier search result, followed by the new record iff its name matches the term |
| Allowances.AllowancesScreen.DeleteAndSettle | db4-frontend/src/screens/templates/Payroll/Allowances.js:105-117 | a delete followed by the re-run of the search effect. On success the list loses the records with that id, and the visible list is the search of the remaining records, which is the earlier search minus those records. Otherwise nothing changes |
| Allowances.AllowancesScreen.AddAndSettle | db4-frontend/src/screens/templates/Payroll/Allowances.js:375-379 | a create followed by the search effect. The record is appended to the list. The visible list is the search of the old list, followed by the new record iff its name matches, so any applied filter is dropped |
| Allowances.AllowancesScreen.EditSubmitAndSettle | db4-frontend/src/screens/templates/Payroll/Allowances.js:86-103 | a successful edit followed by the search effect. The list gets the response in place of the records with that id, and the visible list is the search of the updated list. On failure nothing changes |
| Onboarding.ValidatePhone | db4-frontend/src/screens/templates/Onboarding/OnboardingView_1.js:22-25 | holds iff the text has length 10 and every character is '0'..'9' |
| Onboarding.ValidatePosition | db4-frontend/src/screens/templates/Onboarding/OnboardingView_1.js:32-35 | holds iff the text is non-empty and every character is an ASCII letter or white space |
| Onboarding.AllDigits | db4-frontend/src/screens/templates/Onboarding/OnboardingView_1.js:69 | the mobile gate: every character is a decimal digit |
| Onboarding.LettersOrSpace | db4-frontend/src/screens/templates/Onboarding/OnboardingView_1.js:91 | the position gate: every character is an ASCII letter or white space |
| Onboarding.ValidateEmail | db4-frontend/src/screens/templates/Onboarding/OnboardingView_1.js:27-30 | the email check, stated on indices: no white space, exactly one '@' and not first, and a '.' strictly between the character after the '@' and the last character. A valid email has at least five characters and neither starts nor ends with '@' |
| Onboarding.ValidateEmailMatchesPattern | db4-frontend/src/screens/templates/Onboarding/OnboardingView_1.js:27-30 | both directions: the check holds iff the text is local + "@" + domain + "." + top, with all three parts non-empty and free of white space and '@' |
| Onboarding.EmailFromParts | db4-frontend/src/screens/templates/Onboarding/OnboardingView_1.js:27-30 | any three such parts joined by '@' and '.' pass the check |
| Onboarding.ValidEmailHasOneAt | db4-frontend/src/screens/templates/Onboarding/OnboardingView_1.js:27-30 | a valid email holds exactly one '@' |
| Onboarding.PhoneExamples | db4-frontend/src/screens/templates/Onboarding/OnboardingView_1.js:22-25 | ten digits pass, five do not, and a letter fails the keystroke gate |
| Onboarding.EmailExamples | db4-frontend/src/screens/templates/Onboarding/OnboardingView_1.js:27-30 | "a@b.com" passes. "a@b" and "a b@c.d" do not |
| Onboarding.PositionExamples | db4-frontend/src/screens/templates/Onboarding/OnboardingView_1.js:32-35 | "HR Manager" passes. The empty text and "QA2" do not |
| Onboarding.SetField | db4-frontend/src/screens/templates/Onboarding/OnboardingView_1.js:103 | only the named draft field changes |
| Onboarding.InitialFormInvariant | db4-frontend/src/screens/templates/Onboarding/OnboardingView_1.js:10-19 | the initial draft and empty errors satisfy the form invariant |
| Onboarding.Keystroke | db4-frontend/src/screens/templates/Onboarding/OnboardingView_1.js:64-105 | mobile and position: a value failing the gate leaves draft and errors unchanged; one passing it is stored and its error is empty iff the validator accepts it. Email: always stored, and only its error varies. Other fields: stored verbatim with the errors untouched. The form invariant is preserved |
| Onboarding.SubmitErrors | db4-frontend/src/screens/templates/Onboarding/OnboardingView_1.js:111-117 | each recomputed error is empty iff its field passes its validator |
| Onboarding.HasNoErrors | db4-frontend/src/screens/templates/Onboarding/OnboardingView_1.js:121 | no error message is set, which is exactly the all-empty errors record |
| Onboarding.SubmittableIffValid | db4-frontend/src/screens/templates/Onboarding/OnboardingView_1.js:121-123 | no error at all iff all three validators accept the draft |
| Onboarding.RequiredFilled | db4-frontend/src/screens/templates/Onboarding/OnboardingView_1.js:216-283 | the browser's `required` check on the form: name, email, position, mobile, joining date and stage are all non-empty |
| Onboarding.ValidDraftFillsValidatedFields | db4-frontend/src/screens/templates/Onboarding/OnboardingView_1.js:22-35 | for a draft the three validators accept, the required check reduces to name, joining date and stage being non-empty |
| Onboarding.SearchCandidates | db4-frontend/src/screens/templates/Onboarding/OnboardingView_1.js:176-178 | the candidates whose lower-cased name contains the lower-cased term, with multiplicity and in order. An empty term keeps all |
| Onboarding.RemoveCandidate | db4-frontend/src/screens/templates/Onboarding/OnboardingView_1.js:155 | exactly the candidates with that id are gone. All others keep their multiplicity and order |
| Onboarding.FetchUrl | db4-frontend/src/screens/templates/Onboarding/OnboardingView_1.js:52-55 | the URL starts with the base URL. It equals the base URL iff the stage is "All", and otherwise ends in "/filter?stage=" + stage |
| Onboarding.FetchUrlInjective | db4-frontend/src/screens/templates/Onboarding/OnboardingView_1.js:52-55 | different stages give different URLs |
| Onboarding.OnboardingScreen.constructor | db4-frontend/src/screens/templates/Onboarding/OnboardingView_1.js:6-42 | the initial state: no candidates, stage "All", the default draft ("Test", "Active", "Pending") and no errors. The form invariant holds |
| Onboarding.OnboardingScreen.FilteredCandidates | db4-frontend/src/screens/templates/Onboarding/OnboardingView_1.js:176-178 | the candidates listed are `SearchCandidates` of the fetched list by the stored term: those whose name contains the term, ignoring case, with multiplicity and in order |
| Onboarding.OnboardingScreen.FetchCandidates | db4-frontend/src/screens/templates/Onboarding/OnboardingView_1.js:50-61 | requests the stage's URL. A response replaces the list and a failure keeps it |
| Onboarding.OnboardingScreen.ChangeStageFilter | db4-frontend/src/screens/templates/Onboarding/OnboardingView_1.js:46-48 | a new stage is stored and its list fetched |
| Onboarding.OnboardingScreen.SetSearchTerm | db4-frontend/src/screens/templates/Onboarding/OnboardingView_1.js:189 | stores the search term |
| Onboarding.OnboardingScreen.HandleInputChange | db4-frontend/src/screens/templates/Onboarding/OnboardingView_1.js:64-105 | the new draft and errors are the keystroke function of the old ones, and the form invariant is kept |
| Onboarding.OnboardingScreen.HandleCreateCandidate | db4-frontend/src/screens/templates/Onboarding/OnboardingView_1.js:108-150 | when the browser's check of the required inputs and of the email input fails, the handler does not run and nothing changes. Otherwise a request carrying the draft is made iff all three validators accept it. Without a request, or on failure, the list and draft are kept and the recomputed errors are shown. On success the response is appended, the draft and errors reset and the form closes |
| Onboarding.OnboardingScreen.HandleDeleteCandidate | db4-frontend/src/screens/templates/Onboarding/OnboardingView_1.js:152-159 | on success only the candidates with that id leave the list. On failure nothing changes |
| Deduction.Split | db4-frontend/src/screens/templates/Payroll/CreateDeduction.js:50 | `split(' ')` gives at least one piece and no piece holds a space |
| Deduction.Join | db4-frontend/src/screens/templates/Payroll/CreateDeduction.js:52 | `join(sep)`: the pieces with the separator between each neighbouring pair, given meaning by `JoinSplit` |
| Deduction.JoinSplit | db4-frontend/src/screens/templates/Payroll/CreateDeduction.js:50 | joining the pieces of a split gives back the string |
| Deduction.FirstChars | db4-frontend/src/screens/templates/Payroll/CreateDeduction.js:51-52 | the first character of each non-empty word, so at most one character per word |
| Deduction.WordStarts | db4-frontend/src/screens/templates/Payroll/CreateDeduction.js:50-51 | the word-start characters come from the name and are never spaces |
| Deduction.FirstCharsAreWordStarts | db4-frontend/src/screens/templates/Payroll/CreateDeduction.js:50-52 | the first characters of the split pieces (empty pieces contributing nothing) are exactly the non-space characters at the start of the name or right after a space |
| Deduction.GetInitials | db4-frontend/src/screens/templates/Payroll/CreateDeduction.js:47-55 | at most two characters, and nothing for an empty name |
| Deduction.InitialsAreWordStarts | db4-frontend/src/screens/templates/Payroll/CreateDeduction.js:47-55 | the initials are the first two word starts, upper-cased |
| Deduction.InitialsOfTwoWords | db4-frontend/src/screens/templates/Payroll/CreateDeduction.js:47-55 | "Charles babbage" gives "CB" |
| Deduction.InitialsOfOneWord | db4-frontend/src/screens/templates/Payroll/CreateDeduction.js:47-55 | "Mark" gives "M" |
| Deduction.InitialsSkipEmptyWords | db4-frontend/src/screens/templates/Payroll/CreateDeduction.js:47-55 | " a  b c" gives "AB", because empty words contribute nothing |
| Deduction.FilterEmployees | db4-frontend/src/screens/templates/Payroll/CreateDeduction.js:40-44 | the employees whose lower-cased name or role contains the lower-cased text, with multiplicity and in order. Empty text keeps all |
| Deduction.SelectEmployee | db4-frontend/src/screens/templates/Payroll/CreateDeduction.js:59-63 | appends the name iff it is non-empty and not yet selected, otherwise no change. No duplicates arise |
| Deduction.RemoveEmployee | db4-frontend/src/screens/templates/Payroll/CreateDeduction.js:66-70 | exactly that name is gone and every other name keeps its multiplicity and order. No duplicates arise |
| Deduction.FilterKeepsDistinct | db4-frontend/src/screens/templates/Payroll/CreateDeduction.js:67-69 | filtering a duplicate-free list leaves it duplicate-free |
| Deduction.SelectIdempotent | db4-frontend/src/screens/templates/Payroll/CreateDeduction.js:59-63 | selecting the same name twice is selecting it once |
| Deduction.SelectThenRemove | db4-frontend/src/screens/templates/Payroll/CreateDeduction.js:59-70 | selecting a fresh name and then removing it restores the list |
| Deduction.BuildPayload | db4-frontend/src/screens/templates/Payroll/CreateDeduction.js:122-132 | code = name = title. taxable is "Yes" iff the flag is set and "No" otherwise. oneTimeDeduction is "Yes" iff the date is non-empty. The selection, the amount, the fixed flag and the two fixed rates are carried over |
| Deduction.ValidateForm | db4-frontend/src/screens/templates/Payroll/CreateDeduction.js:106-115 | the required-field test: title and amount text both non-empty; `HandleSubmit` states that nothing is sent otherwise |
| Deduction.DeductionForm.constructor | db4-frontend/src/screens/templates/Payroll/CreateDeduction.js:9-13 | all flags false, no selection and no filter text |
| Deduction.DeductionForm.FilteredEmployees | db4-frontend/src/screens/templates/Payroll/CreateDeduction.js:17-44 | the employees offered are `FilterEmployees` of the built-in list by the stored text: those whose name or role contains it, ignoring case, with multiplicity and in order; all of them for empty text |
| Deduction.DeductionForm.SetFilterText | db4-frontend/src/screens/templates/Payroll/CreateDeduction.js:266 | stores the filter text |
| Deduction.DeductionForm.ToggleTaxable | db4-frontend/src/screens/templates/Payroll/CreateDeduction.js:303 | the taxable flag flips |
| Deduction.DeductionForm.ToggleFixed | db4-frontend/src/screens/templates/Payroll/CreateDeduction.js:342 | the fixed flag flips |
| Deduction.DeductionForm.HandleEmployeeSelect | db4-frontend/src/screens/templates/Payroll/CreateDeduction.js:59-63 | the selection becomes `SelectEmployee` of the old one and stays duplicate-free |
| Deduction.DeductionForm.HandleRemoveEmployee | db4-frontend/src/screens/templates/Payroll/CreateDeduction.js:66-70 | the selection becomes `RemoveEmployee` of the old one and stays duplicate-free |
| Deduction.DeductionForm.HandleSubmit | db4-frontend/src/screens/templates/Payroll/CreateDeduction.js:106-148 | nothing is sent iff the title or amount is empty. Otherwise the built payload is sent, as an update of the edited id iff editing and as a create otherwise. The form closes iff a request was sent and succeeded |
| FederalTax.SearchEntries | db4-frontend/src/screens/templates/Payroll/FederalTax.js:306-310 | the entries whose tax rate, minimum or maximum income contains the term, case-sensitively, with multiplicity and in order. An empty term keeps all |
| FederalTax.SearchIsCaseSensitive | db4-frontend/src/screens/templates/Payroll/FederalTax.js:306-310 | "flat" does not find "Flat", but "Flat" does |
| FederalTax.SetField | db4-frontend/src/screens/templates/Payroll/FederalTax.js:274-277 | only the named draft field changes |
| FederalTax.ApplyInput | db4-frontend/src/screens/templates/Payroll/FederalTax.js:272-278 | the named field takes the checked state for a checkbox and the text otherwise. Every other field is unchanged |
| FederalTax.SeedDraft | db4-frontend/src/screens/templates/Payroll/FederalTax.js:261-267 | the three numeric-text fields are copied. pythonCode is a boolean that is true iff the entry's is true. A missing description becomes "" |
| FederalTax.Editing | db4-frontend/src/screens/templates/Payroll/FederalTax.js:239 | `editId` is truthy: set, and to a non-empty id |
| FederalTax.SaveRequest | db4-frontend/src/screens/templates/Payroll/FederalTax.js:239-243 | the request carries the draft. It is an update of `editId` iff `editId` is a non-empty id, and a create otherwise |
| FederalTax.EditThenSaveUpdatesEntry | db4-frontend/src/screens/templates/Payroll/FederalTax.js:237-270 | saving right after opening an entry for edit updates that entry with its own values |
| FederalTax.FederalTaxScreen.constructor | db4-frontend/src/screens/templates/Payroll/FederalTax.js:211-222 | no entries or term, the table shown, the modal closed, the empty draft, not editing |
| FederalTax.FederalTaxScreen.FilteredEntries | db4-frontend/src/screens/templates/Payroll/FederalTax.js:306-310 | the entries listed are `SearchEntries` of all entries by the stored term: those with a field containing it, case-sensitively, with multiplicity and in order; all of them for an empty term |
| FederalTax.FederalTaxScreen.LoadEntries | db4-frontend/src/screens/templates/Payroll/FederalTax.js:228-235 | a response replaces the entries and a failure keeps them |
| FederalTax.FederalTaxScreen.SetSearchTerm | db4-frontend/src/screens/templates/Payroll/FederalTax.js:321 | stores the search term |
| FederalTax.FederalTaxScreen.ToggleTableVisibility | db4-frontend/src/screens/templates/Payroll/FederalTax.js:280 | the table's visibility flips |
| FederalTax.FederalTaxScreen.HandleInputChange | db4-frontend/src/screens/templates/Payroll/FederalTax.js:272-278 | the draft becomes `ApplyInput` of the old draft and the event |
| FederalTax.FederalTaxScreen.HandleEditEntry | db4-frontend/src/screens/templates/Payroll/FederalTax.js:260-270 | the draft is seeded from the entry, `editId` becomes its id and the modal opens |
| FederalTax.FederalTaxScreen.HandleCreateButtonClick | db4-frontend/src/screens/templates/Payroll/FederalTax.js:282-292 | the empty draft with no `editId` and the modal open, so a save creates |
| FederalTax.FederalTaxScreen.HandleModalClose | db4-frontend/src/screens/templates/Payroll/FederalTax.js:294-304 | the empty draft with no `editId` and the modal closed |
| FederalTax.FederalTaxScreen.HandleSaveEntry | db4-frontend/src/screens/templates/Payroll/FederalTax.js:237-249 | the request is `SaveRequest` of the `editId` and draft at the time of the call. Only on success are the modal closed and the draft reset; on failure nothing changes |

## Left out

- HTTP requests (axios) are not performed. Their outcome is a parameter of the handler: an `Option` response, or a `bool` for success.
- `window.confirm` is a `bool` parameter. `alert` and `console` output is not modelled.
- The 500 ms debounce timer is not modelled, since it is scheduling only. `SearchEffect` is the effect that fires once the term settles.
- The search effect also re-runs whenever `allowancesData` changes. After a delete, edit or create, React then re-derives the visible list from the search term. The handlers are modelled as written, `SearchEffect` is the effect itself, and `DeleteAndSettle`, `AddAndSettle` and `EditSubmitAndSettle` run it after their handler. React's ordering and batching of state updates are not modelled.
- Case-insensitive matching uses ASCII lower-casing. Unicode case mapping in `toLowerCase`/`toUpperCase` is not modelled.
- `Number(...)` parsing, `NaN`, number-to-string conversion and JavaScript truthiness of unusual values are not modelled. Amounts are integers, and the federal-tax numeric fields are their string forms.
- The DOM reads in `CreateDeduction.js:107-128` are parameters of `HandleSubmit`. Its `amountText` is the raw text (used for the required check) and `amount` is the parsed value.
- Allowances.AllowancesScreen.constructor: the edit form's initial `amount` is `""` in the source and 0 in the model, because records carry integer amounts.
- The bindings of the edit-form inputs (`Allowances.js:397-453`) are not modelled. They are plain field assignments into `editFormData`.
- `sendMailToCandidate` (`OnboardingView_1.js:161-174`) is not modelled. It only posts to the server and alerts.
- FederalTax.FederalTaxScreen.HandleSaveEntry: the re-fetch of the entries that a successful save starts (`FederalTax.js:244`) is not part of the method. It is the separate `LoadEntries` call, whose response is a parameter.
- Onboarding.OnboardingScreen.HandleCreateCandidate: whether the browser accepts the email input's value under HTML's email syntax (`type="email"`, `OnboardingView_1.js:228`) is the `emailAccepted` parameter; that syntax is not modelled. The `required` check is modelled by `RequiredFilled`.
- `handleDeleteEntry` (`FederalTax.js:251-258`) is not modelled. It sends a DELETE and re-fetches through `LoadEntries`, and changes no other state.
- JSX rendering, CSS, the view toggles, icons, and the opening of modals by buttons outside the handlers above are not modelled.
- The commented-out first version of the federal tax screen (`FederalTax.js:1-203`) is dead code and is not modelled.
- The `formData` state in `CreateDeduction.js:28-36` is never read and is not modelled. `isConditionBased` is kept only as a field.
- `Sidebar.js` is not part of this model. It holds navigation menu state that only drives rendering.
- `RegisterPage.js` is not part of this model. It is an HTTP form whose only logic maps a 409 status to a message.
- `toLocaleDateString` (`OnboardingView_1.js:328`) is rendering only and is not modelled.
