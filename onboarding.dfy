/** The Onboarding dashboard: the candidate list fetched per stage, the name
    search, the "create candidate" form with its keystroke-level validation,
    and the local list updates after create and delete. */
module Onboarding {
  import opened Wrappers
  import opened Seqs
  import opened Text

  /** The create form's draft record. */
  datatype CandidateDraft = CandidateDraft(
    name: string, email: string, jobPosition: string, mobile: string,
    joiningDate: string, stage: string, portalStatus: string, taskStatus: string)

  /** A persisted candidate, as the server returns it. */
  datatype Candidate = Candidate(
    id: string, name: string, email: string, jobPosition: string, mobile: string,
    joiningDate: string, stage: string, portalStatus: string, taskStatus: string)

  /** The field a keystroke was typed into. */
  datatype Field = Name | Email | JobPosition | Mobile | JoiningDate | Stage | PortalStatus | TaskStatus

  /** Per-field error messages; "" means no error. */
  datatype Errors = Errors(phone: string, email: string, position: string)

  /** The form: its draft and the errors shown beside it. */
  datatype Form = Form(draft: CandidateDraft, errors: Errors)

  const DefaultDraft := CandidateDraft("", "", "", "", "", "Test", "Active", "Pending")
  const NoErrors := Errors("", "", "")

  const PhoneKeystrokeMessage := "Please enter a valid 10-digit phone number"
  const EmailKeystrokeMessage := "Please enter a valid email address"
  const PositionKeystrokeMessage := "Position should contain only letters"
  const PhoneSubmitMessage := "Invalid phone number"
  const EmailSubmitMessage := "Invalid email"
  const PositionSubmitMessage := "Invalid position"

  const BaseUrl := "http://localhost:5000/api/onboarding"

  // ---------------------------------------------------------------------------
  // The validators

  /** `/^\d+$/` or the empty string: the gate of the mobile field. */
  predicate AllDigits(s: string)
    ensures AllDigits(s) <==> forall i :: 0 <= i < |s| ==> IsDigit(s[i])
  {
    s == [] || (IsDigit(s[0]) && AllDigits(s[1..]))
  }

  /** `/^[a-zA-Z\s]+$/` or the empty string: the gate of the position field. */
  predicate LettersOrSpace(s: string)
    ensures LettersOrSpace(s) <==> forall i :: 0 <= i < |s| ==> IsAsciiLetter(s[i]) || IsJsWhitespace(s[i])
  {
    s == [] || ((IsAsciiLetter(s[0]) || IsJsWhitespace(s[0])) && LettersOrSpace(s[1..]))
  }

  /** `/^[0-9]{10}$/`: exactly ten decimal digits. */
  predicate ValidatePhone(s: string)
    ensures ValidatePhone(s) <==> |s| == 10 && forall i :: 0 <= i < |s| ==> '0' <= s[i] <= '9'
  {
    |s| == 10 && AllDigits(s)
  }

  /** `/^[a-zA-Z\s]+$/`: non-empty, ASCII letters and white space only. */
  predicate ValidatePosition(s: string)
    ensures ValidatePosition(s) <==>
              s != [] && forall i :: 0 <= i < |s| ==> IsAsciiLetter(s[i]) || IsJsWhitespace(s[i])
  {
    s != [] && LettersOrSpace(s)
  }

  /** `[^\s@]+`: a non-empty run without white space and without '@'. */
  predicate EmailPart(s: string) {
    s != [] && forall i :: 0 <= i < |s| ==> !IsJsWhitespace(s[i]) && s[i] != '@'
  }

  /** What `/^[^\s@]+@[^\s@]+\.[^\s@]+$/` accepts, read off the pattern. */
  ghost predicate EmailPattern(s: string) {
    exists local, domain, top ::
      EmailPart(local) && EmailPart(domain) && EmailPart(top) && s == local + "@" + domain + "." + top
  }

  /** The email check: no white space, exactly one '@', not first, and a '.'
      after it that is neither right after the '@' nor last. */
  predicate ValidateEmail(s: string)
    ensures ValidateEmail(s) ==> 5 <= |s| && s[0] != '@' && s[|s| - 1] != '@'
  {
    && (forall i :: 0 <= i < |s| ==> !IsJsWhitespace(s[i]))
    && exists at :: 0 < at < |s| && s[at] == '@'
         && (forall j :: 0 <= j < |s| && j != at ==> s[j] != '@')
         && exists dot :: at + 1 < dot < |s| - 1 && s[dot] == '.'
  }

  lemma EmailSplit(s: string, at: int, dot: int)
    requires 0 < at && at + 1 < dot && dot < |s| - 1 && s[at] == '@' && s[dot] == '.'
    ensures s == s[..at] + "@" + s[at + 1..dot] + "." + s[dot + 1..]
  {
    assert s == s[..at] + [s[at]] + s[at + 1..dot] + [s[dot]] + s[dot + 1..];
  }

  /** The email check accepts exactly the strings the pattern describes. */
  lemma ValidateEmailMatchesPattern(s: string)
    ensures ValidateEmail(s) <==> EmailPattern(s)
  {
    if ValidateEmail(s) {
      var at :| 0 < at < |s| && s[at] == '@'
                && (forall j :: 0 <= j < |s| && j != at ==> s[j] != '@')
                && exists dot :: at + 1 < dot < |s| - 1 && s[dot] == '.';
      var dot :| at + 1 < dot < |s| - 1 && s[dot] == '.';
      EmailSplit(s, at, dot);
      var local, domain, top := s[..at], s[at + 1..dot], s[dot + 1..];
      assert forall i :: 0 <= i < |local| ==> local[i] == s[i];
      assert forall i :: 0 <= i < |domain| ==> domain[i] == s[at + 1 + i];
      assert forall i :: 0 <= i < |top| ==> top[i] == s[dot + 1 + i];
      assert EmailPart(local) && EmailPart(domain) && EmailPart(top);
    }
    if EmailPattern(s) {
      var local, domain, top :|
        EmailPart(local) && EmailPart(domain) && EmailPart(top) && s == local + "@" + domain + "." + top;
      EmailFromParts(local, domain, top);
    }
  }

  lemma EmailFromParts(local: string, domain: string, top: string)
    requires EmailPart(local) && EmailPart(domain) && EmailPart(top)
    ensures ValidateEmail(local + "@" + domain + "." + top)
  {
    var s := local + "@" + domain + "." + top;
    var at, dot := |local|, |local| + 1 + |domain|;
    forall i | 0 <= i < |s|
      ensures !IsJsWhitespace(s[i]) && (i != at ==> s[i] != '@')
    {
      if i < at {
        assert s[i] == local[i];
      } else if i == at {
        assert s[i] == '@';
      } else if i < dot {
        assert s[i] == domain[i - at - 1];
      } else if i == dot {
        assert s[i] == '.';
      } else {
        assert s[i] == top[i - dot - 1];
      }
    }
    assert s[at] == '@' && s[dot] == '.';
  }

  /** Hence a valid email holds exactly one '@'. */
  lemma ValidEmailHasOneAt(s: string)
    requires ValidateEmail(s)
    ensures multiset(s)['@'] == 1
  {
    ValidateEmailMatchesPattern(s);
    var local, domain, top :|
      EmailPart(local) && EmailPart(domain) && EmailPart(top) && s == local + "@" + domain + "." + top;
    assert '@' !in local && '@' !in domain && '@' !in top;
    assert multiset(s) == multiset(local) + multiset{'@'} + multiset(domain) + multiset{'.'} + multiset(top);
  }

  /** The phone examples: ten digits pass, five do not, and a letter is
      refused by the keystroke gate. */
  lemma PhoneExamples()
    ensures ValidatePhone("1234567890") && !ValidatePhone("12345")
    ensures !AllDigits("12a4567890")
  {
    assert "12a4567890"[2] == 'a';
  }

  /** The email examples: "a@b.com" passes, "a@b" (no dot after the '@') and
      "a b@c.d" (a space) do not. */
  lemma EmailExamples()
    ensures ValidateEmail("a@b.com") && !ValidateEmail("a@b") && !ValidateEmail("a b@c.d")
  {
    EmailFromParts("a", "b", "com");
    assert "a@b.com" == "a" + "@" + "b" + "." + "com";
    assert "a b@c.d"[1] == ' ';
  }

  /** The position examples: letters and spaces pass, the empty string and a
      digit do not. */
  lemma PositionExamples()
    ensures ValidatePosition("HR Manager") && !ValidatePosition("") && !LettersOrSpace("QA2")
  {
    var s := "HR Manager";
    forall i | 0 <= i < |s| ensures IsAsciiLetter(s[i]) || IsJsWhitespace(s[i]) {
      if i == 2 {
        assert s[i] == ' ';
      } else {
        assert IsAsciiLetter(s[i]);
      }
    }
    assert "QA2"[2] == '2';
  }

  // ---------------------------------------------------------------------------
  // The draft and its keystroke handler

  function GetField(d: CandidateDraft, field: Field): string {
    match field
    case Name => d.name
    case Email => d.email
    case JobPosition => d.jobPosition
    case Mobile => d.mobile
    case JoiningDate => d.joiningDate
    case Stage => d.stage
    case PortalStatus => d.portalStatus
    case TaskStatus => d.taskStatus
  }

  /** `{ ...draft, [field]: value }`: only the named field changes. */
  function SetField(d: CandidateDraft, field: Field, value: string): (r: CandidateDraft)
    ensures GetField(r, field) == value
    ensures forall g :: g != field ==> GetField(r, g) == GetField(d, g)
  {
    match field
    case Name => d.(name := value)
    case Email => d.(email := value)
    case JobPosition => d.(jobPosition := value)
    case Mobile => d.(mobile := value)
    case JoiningDate => d.(joiningDate := value)
    case Stage => d.(stage := value)
    case PortalStatus => d.(portalStatus := value)
    case TaskStatus => d.(taskStatus := value)
  }

  /** What the form always satisfies: the gated fields hold only what their gate
      lets through, and no error is shown for a field that is valid. */
  predicate FormInvariant(f: Form) {
    && AllDigits(f.draft.mobile)
    && LettersOrSpace(f.draft.jobPosition)
    && (f.errors.phone != "" ==> !ValidatePhone(f.draft.mobile))
    && (f.errors.email != "" ==> !ValidateEmail(f.draft.email))
    && (f.errors.position != "" ==> !ValidatePosition(f.draft.jobPosition))
  }

  lemma InitialFormInvariant()
    ensures FormInvariant(Form(DefaultDraft, NoErrors))
  {
  }

  /** One keystroke: mobile and position are gated (a rejected value leaves the
      whole form unchanged), email is always stored, and any other field is
      stored verbatim without touching the errors. */
  function Keystroke(f: Form, field: Field, value: string): (r: Form)
    ensures field == Mobile && !AllDigits(value) ==> r == f
    ensures field == Mobile && AllDigits(value) ==>
              && r.draft == SetField(f.draft, Mobile, value)
              && (r.errors.phone == "" <==> ValidatePhone(value))
              && r.errors.email == f.errors.email && r.errors.position == f.errors.position
    ensures field == JobPosition && !LettersOrSpace(value) ==> r == f
    ensures field == JobPosition && LettersOrSpace(value) ==>
              && r.draft == SetField(f.draft, JobPosition, value)
              && (r.errors.position == "" <==> ValidatePosition(value))
              && r.errors.phone == f.errors.phone && r.errors.email == f.errors.email
    ensures field == Email ==>
              && r.draft == SetField(f.draft, Email, value)
              && (r.errors.email == "" <==> ValidateEmail(value))
              && r.errors.phone == f.errors.phone && r.errors.position == f.errors.position
    ensures field !in {Mobile, JobPosition, Email} ==>
              r.draft == SetField(f.draft, field, value) && r.errors == f.errors
    ensures FormInvariant(f) ==> FormInvariant(r)
  {
    match field
    case Mobile =>
      if value == "" || AllDigits(value) then
        Form(f.draft.(mobile := value),
             f.errors.(phone := if ValidatePhone(value) then "" else PhoneKeystrokeMessage))
      else f
    case Email =>
      Form(f.draft.(email := value),
           f.errors.(email := if ValidateEmail(value) then "" else EmailKeystrokeMessage))
    case JobPosition =>
      if value == "" || LettersOrSpace(value) then
        Form(f.draft.(jobPosition := value),
             f.errors.(position := if ValidatePosition(value) then "" else PositionKeystrokeMessage))
      else f
    case _ =>
      Form(SetField(f.draft, field, value), f.errors)
  }

  /** The errors recomputed from the whole draft at submit time: each is empty
      exactly when its field is valid. */
  function SubmitErrors(d: CandidateDraft): (e: Errors)
    ensures e.phone == "" <==> ValidatePhone(d.mobile)
    ensures e.email == "" <==> ValidateEmail(d.email)
    ensures e.position == "" <==> ValidatePosition(d.jobPosition)
  {
    Errors(
      if ValidatePhone(d.mobile) then "" else PhoneSubmitMessage,
      if ValidateEmail(d.email) then "" else EmailSubmitMessage,
      if ValidatePosition(d.jobPosition) then "" else PositionSubmitMessage)
  }

  predicate HasNoErrors(e: Errors)
    ensures HasNoErrors(e) <==> e == NoErrors
  {
    e.phone == "" && e.email == "" && e.position == ""
  }

  /** The draft may be sent exactly when all three validators accept it. */
  lemma SubmittableIffValid(d: CandidateDraft)
    ensures HasNoErrors(SubmitErrors(d)) <==>
              ValidatePhone(d.mobile) && ValidateEmail(d.email) && ValidatePosition(d.jobPosition)
  {
  }

  /** The inputs the form marks `required`: the browser lets the form submit
      only when none of them is empty. */
  predicate RequiredFilled(d: CandidateDraft)
    ensures RequiredFilled(d) ==> d.name != "" && d.joiningDate != "" && d.stage != ""
  {
    && d.name != "" && d.email != "" && d.jobPosition != "" && d.mobile != ""
    && d.joiningDate != "" && d.stage != ""
  }

  /** A draft the three validators accept already has its email, position and
      mobile filled in; the browser's check adds name, joining date and stage. */
  lemma ValidDraftFillsValidatedFields(d: CandidateDraft)
    requires ValidatePhone(d.mobile) && ValidateEmail(d.email) && ValidatePosition(d.jobPosition)
    ensures RequiredFilled(d) <==> d.name != "" && d.joiningDate != "" && d.stage != ""
  {
  }

  // ---------------------------------------------------------------------------
  // Lists and the fetch URL

  function NameContains(term: string): Candidate -> bool {
    (c: Candidate) => ContainsIgnoringCase(c.name, term)
  }

  /** `filteredCandidates`: the candidates whose lower-cased name contains the
      lower-cased term, in order; an empty term keeps them all. */
  function SearchCandidates(cs: seq<Candidate>, term: string): (r: seq<Candidate>)
    ensures forall c :: multiset(r)[c] == if ContainsIgnoringCase(c.name, term) then multiset(cs)[c] else 0
    ensures IsSubsequence(r, cs)
    ensures term == "" ==> r == cs
  {
    FilterIsSubsequence(NameContains(term), cs);
    if term == "" then
      forall c | c in cs ensures NameContains(term)(c) {
        ContainsEmpty(ToLower(c.name));
      }
      FilterKeepsAll(NameContains(term), cs);
      Filter(NameContains(term), cs)
    else
      Filter(NameContains(term), cs)
  }

  function IdIsNot(id: string): Candidate -> bool { (c: Candidate) => c.id != id }

  /** The candidates without the one(s) with that id; the others keep their
      order and multiplicity. */
  function RemoveCandidate(cs: seq<Candidate>, id: string): (r: seq<Candidate>)
    ensures forall c :: multiset(r)[c] == if c.id == id then 0 else multiset(cs)[c]
    ensures IsSubsequence(r, cs)
  {
    FilterIsSubsequence(IdIsNot(id), cs);
    Filter(IdIsNot(id), cs)
  }

  /** The list endpoint for a stage: "All" uses the plain collection, any other
      stage the server-side filter. */
  function FetchUrl(stage: string): (url: string)
    ensures BaseUrl <= url
    ensures url == BaseUrl <==> stage == "All"
    ensures stage != "All" ==> url[|BaseUrl|..] == "/filter?stage=" + stage
  {
    if stage == "All" then BaseUrl else BaseUrl + "/filter?stage=" + stage
  }

  /** Different stage choices fetch from different URLs. */
  lemma FetchUrlInjective(a: string, b: string)
    requires FetchUrl(a) == FetchUrl(b)
    ensures a == b
  {
    if a != "All" && b != "All" {
      var q := "/filter?stage=";
      assert q + a == FetchUrl(a)[|BaseUrl|..] == q + b;
      assert a == (q + a)[|q|..] && b == (q + b)[|q|..];
    }
  }

  // ---------------------------------------------------------------------------
  // The screen

  class OnboardingScreen {
    var candidates: seq<Candidate>
    var searchTerm: string
    var stageFilter: string
    var showCreateForm: bool
    var newCandidate: CandidateDraft
    var validationErrors: Errors

    ghost predicate Valid()
      reads this
    {
      FormInvariant(Form(newCandidate, validationErrors))
    }

    constructor ()
      ensures Valid()
      ensures candidates == [] && searchTerm == "" && stageFilter == "All" && !showCreateForm
      ensures newCandidate == DefaultDraft && validationErrors == NoErrors
    {
      candidates, searchTerm, stageFilter, showCreateForm := [], "", "All", false;
      newCandidate, validationErrors := DefaultDraft, NoErrors;
    }

    /** The candidates shown: the search over the fetched list. */
    function FilteredCandidates(): (r: seq<Candidate>)
      reads this
      ensures r == SearchCandidates(candidates, searchTerm)
      ensures IsSubsequence(r, candidates)
      ensures forall c :: multiset(r)[c] ==
                if ContainsIgnoringCase(c.name, searchTerm) then multiset(candidates)[c] else 0
    {
      SearchCandidates(candidates, searchTerm)
    }

    /** Requests the list for the current stage; on success it replaces the
        candidates. */
    method FetchCandidates(response: Option<seq<Candidate>>) returns (url: string)
      modifies this`candidates
      ensures url == FetchUrl(stageFilter)
      ensures candidates == if response.Some? then response.value else old(candidates)
    {
      url := FetchUrl(stageFilter);
      if response.Some? {
        candidates := response.value;
      }
    }

    /** Choosing a stage stores it and fetches the list for it. */
    method ChangeStageFilter(stage: string, response: Option<seq<Candidate>>) returns (url: string)
      modifies this`stageFilter, this`candidates
      ensures stageFilter == stage && url == FetchUrl(stage)
      ensures candidates == if response.Some? then response.value else old(candidates)
    {
      stageFilter := stage;
      url := FetchCandidates(response);
    }

    method SetSearchTerm(term: string)
      modifies this`searchTerm
      ensures searchTerm == term
    {
      searchTerm := term;
    }

    /** `handleInputChange`, committing only what the gate lets through. */
    method HandleInputChange(field: Field, value: string)
      requires Valid()
      modifies this`newCandidate, this`validationErrors
      ensures Valid()
      ensures Form(newCandidate, validationErrors)
              == Keystroke(Form(old(newCandidate), old(validationErrors)), field, value)
    {
      var next := Keystroke(Form(newCandidate, validationErrors), field, value);
      newCandidate, validationErrors := next.draft, next.errors;
    }

    /** Submit. The browser first checks the `required` inputs and the email
        input's own syntax (`emailAccepted`); when that check fails the handler
        never runs and nothing changes. Otherwise the errors are recomputed
        from the draft, and with any error no request is made. A request
        carries the draft; when it succeeds the created candidate is appended
        and the form is reset, when it fails the draft is kept. */
    method HandleCreateCandidate(emailAccepted: bool, response: Option<Candidate>)
      returns (request: Option<CandidateDraft>)
      requires Valid()
      modifies this`validationErrors, this`newCandidate, this`candidates, this`showCreateForm
      ensures Valid()
      ensures !(RequiredFilled(old(newCandidate)) && emailAccepted) ==>
                && request.None? && candidates == old(candidates) && newCandidate == old(newCandidate)
                && validationErrors == old(validationErrors) && showCreateForm == old(showCreateForm)
      ensures request.Some? <==>
                RequiredFilled(old(newCandidate)) && emailAccepted
                && ValidatePhone(old(newCandidate).mobile) && ValidateEmail(old(newCandidate).email)
                && ValidatePosition(old(newCandidate).jobPosition)
      ensures request.Some? ==> request.value == old(newCandidate)
      ensures RequiredFilled(old(newCandidate)) && emailAccepted && (request.None? || response.None?) ==>
                && candidates == old(candidates) && newCandidate == old(newCandidate)
                && validationErrors == SubmitErrors(old(newCandidate))
                && showCreateForm == old(showCreateForm)
      ensures request.Some? && response.Some? ==>
                && candidates == old(candidates) + [response.value]
                && newCandidate == DefaultDraft && validationErrors == NoErrors && !showCreateForm
    {
      if !(RequiredFilled(newCandidate) && emailAccepted) {
        return None;
      }
      var errors := SubmitErrors(newCandidate);
      validationErrors := errors;
      if !HasNoErrors(errors) {
        return None;
      }
      request := Some(newCandidate);
      if response.Some? {
        candidates := candidates + [response.value];
        newCandidate := DefaultDraft;
        validationErrors := NoErrors;
        showCreateForm := false;
      }
    }

    /** Deletes a candidate; on success only the records with that id leave the
        list. */
    method HandleDeleteCandidate(id: string, deleted: bool)
      modifies this`candidates
      ensures candidates == if deleted then RemoveCandidate(old(candidates), id) else old(candidates)
    {
      if deleted {
        candidates := RemoveCandidate(candidates, id);
      }
    }
  }
}
