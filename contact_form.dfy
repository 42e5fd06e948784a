/** The contact-agent form: four text fields, one error slot per field and a
    submission status, with a validator and a simulated delayed success. */
module ContactForm {
  import opened Sequences

  // ---- characters ----

  /** The code points JavaScript's `String.prototype.trim` strips: the
      ECMAScript WhiteSpace and LineTerminator productions. */
  predicate IsJsWhitespace(c: char) {
    c == '\t' || c == '\n' || c == '\U{000B}' || c == '\U{000C}' || c == '\r' ||
    c == ' ' || c == '\U{00A0}' || c == '\U{1680}' ||
    ('\U{2000}' <= c <= '\U{200A}') ||
    c == '\U{2028}' || c == '\U{2029}' || c == '\U{202F}' || c == '\U{205F}' ||
    c == '\U{3000}' || c == '\U{FEFF}'
  }

  predicate IsAsciiDigit(c: char) { '0' <= c <= '9' }

  predicate IsAsciiLetter(c: char) { 'A' <= c <= 'Z' || 'a' <= c <= 'z' }

  /** `[A-Z0-9._%+-]` under the case-insensitive flag. */
  predicate IsLocalChar(c: char) {
    IsAsciiLetter(c) || IsAsciiDigit(c) || c == '.' || c == '_' || c == '%' || c == '+' || c == '-'
  }

  /** `[A-Z0-9.-]` under the case-insensitive flag. */
  predicate IsDomainChar(c: char) {
    IsAsciiLetter(c) || IsAsciiDigit(c) || c == '.' || c == '-'
  }

  predicate AllChars(s: string, p: char -> bool) {
    forall k :: 0 <= k < |s| ==> p(s[k])
  }

  // ---- trim ----

  /** The number of leading whitespace characters. */
  function LeadingWhitespace(s: string): (n: nat)
    ensures n <= |s|
    ensures forall k :: 0 <= k < n ==> IsJsWhitespace(s[k])
    ensures n < |s| ==> !IsJsWhitespace(s[n])
  {
    if s != [] && IsJsWhitespace(s[0]) then 1 + LeadingWhitespace(s[1..]) else 0
  }

  /** The length of `s` without its trailing whitespace. */
  function TrailingStart(s: string): (n: nat)
    ensures n <= |s|
    ensures forall k :: n <= k < |s| ==> IsJsWhitespace(s[k])
    ensures 0 < n ==> !IsJsWhitespace(s[n - 1])
  {
    if s != [] && IsJsWhitespace(s[|s| - 1]) then TrailingStart(s[..|s| - 1]) else |s|
  }

  /** `s.trim()`: leading, then trailing whitespace removed. */
  function Trim(s: string): (r: string)
    ensures |r| <= |s|
    ensures r != [] ==> !IsJsWhitespace(r[0]) && !IsJsWhitespace(r[|r| - 1])
  {
    var t := s[LeadingWhitespace(s)..];
    t[..TrailingStart(t)]
  }

  /** `!s.trim()` holds exactly when `s` is all whitespace. */
  lemma TrimEmptyIffBlank(s: string)
    ensures Trim(s) == [] <==> AllChars(s, IsJsWhitespace)
  {
    var n := LeadingWhitespace(s);
    var t := s[n..];
    if Trim(s) == [] && n < |s| {
      // nothing of t survives the trailing trim, yet t starts with a non-space
      assert false;
    }
    if AllChars(s, IsJsWhitespace) && n < |s| {
      assert false;
    }
  }

  // ---- phone digits ----

  /** `value.replace(/[^0-9]/g, '')`. */
  function DigitsOnly(value: string): (r: string)
    ensures AllChars(r, IsAsciiDigit)
  {
    Filter(value, IsAsciiDigit)
  }

  /** The stripped value is the digits of the typed value, each as often as it
      was typed, in order. */
  lemma DigitsOnlyKeepsDigitsInOrder(value: string)
    ensures IsSubsequenceOf(DigitsOnly(value), value)
    ensures forall c :: multiset(DigitsOnly(value))[c] == if IsAsciiDigit(c) then multiset(value)[c] else 0
    ensures AllChars(value, IsAsciiDigit) ==> DigitsOnly(value) == value
  {
    FilterIsSubsequence(value, IsAsciiDigit);
    FilterCount(value, IsAsciiDigit);
    FilterKeepsAll(value, IsAsciiDigit);
  }

  /** Separators typed between digit groups disappear; the groups stay, in order. */
  lemma DigitsOnlyDropsSeparators(sep1: string, digits1: string, sep2: string, digits2: string)
    requires forall k :: 0 <= k < |sep1| ==> !IsAsciiDigit(sep1[k])
    requires forall k :: 0 <= k < |sep2| ==> !IsAsciiDigit(sep2[k])
    requires AllChars(digits1, IsAsciiDigit) && AllChars(digits2, IsAsciiDigit)
    ensures DigitsOnly(sep1 + digits1 + sep2 + digits2) == digits1 + digits2
  {
    assert sep1 + digits1 + sep2 + digits2 == sep1 + (digits1 + (sep2 + digits2));
    FilterAppend(sep1, digits1 + (sep2 + digits2), IsAsciiDigit);
    FilterAppend(digits1, sep2 + digits2, IsAsciiDigit);
    FilterAppend(sep2, digits2, IsAsciiDigit);
    FilterKeepsAll(digits1, IsAsciiDigit);
    FilterKeepsAll(digits2, IsAsciiDigit);
    FilterDropsAll(sep1, IsAsciiDigit);
    FilterDropsAll(sep2, IsAsciiDigit);
  }

  /** Typing letters between digit groups keeps just the digits. */
  lemma DigitsOnlyExample()
    ensures DigitsOnly("abc123de456") == "123456"
  {
    var sep1, digits1, sep2, digits2 := "abc", "123", "de", "456";
    assert AllChars(digits1, IsAsciiDigit) && AllChars(digits2, IsAsciiDigit);
    assert "abc123de456" == sep1 + digits1 + sep2 + digits2;
    DigitsOnlyDropsSeparators(sep1, digits1, sep2, digits2);
    assert digits1 + digits2 == "123456";
  }

  // ---- the email pattern /^[A-Z0-9._%+-]+@[A-Z0-9.-]+\.[A-Z]{2,}$/i ----

  /** The pattern matches `s` with its `@` at `at` and its final `.` at `dot`:
      a non-empty local part, the `@`, a non-empty domain prefix, the `.`, and
      at least two letters. */
  predicate EmailSplitAt(s: string, at: int, dot: int) {
    0 < at && at + 1 < dot && dot + 2 < |s| &&
    s[at] == '@' && s[dot] == '.' &&
    AllChars(s[..at], IsLocalChar) &&
    AllChars(s[at + 1..dot], IsDomainChar) &&
    AllChars(s[dot + 1..], IsAsciiLetter)
  }

  /** The regular expression's meaning: some split matches. */
  ghost predicate MatchesEmailPattern(s: string) {
    exists at, dot :: EmailSplitAt(s, at, dot)
  }

  /** The first index of `c`, or `|s|` when there is none. */
  function IndexOf(s: string, c: char): (i: nat)
    ensures i <= |s|
    ensures i < |s| ==> s[i] == c
    ensures forall k :: 0 <= k < i ==> s[k] != c
  {
    if s == [] then 0
    else if s[0] == c then 0
    else 1 + IndexOf(s[1..], c)
  }

  /** The last index of `c`, or -1 when there is none. */
  function LastIndexOf(s: string, c: char): (i: int)
    ensures -1 <= i < |s|
    ensures 0 <= i ==> s[i] == c
    ensures forall k :: i < k < |s| ==> s[k] != c
  {
    if s == [] then -1
    else if s[|s| - 1] == c then |s| - 1
    else LastIndexOf(s[..|s| - 1], c)
  }

  /** A matching split is unique: the `@` is the only one, and the `.` is the last. */
  lemma EmailSplitIsUnique(s: string, at: int, dot: int)
    requires EmailSplitAt(s, at, dot)
    ensures at == IndexOf(s, '@') && dot == LastIndexOf(s, '.')
    ensures forall k :: 0 <= k < |s| && s[k] == '@' ==> k == at
  {
    forall k | 0 <= k < |s| && k != at ensures s[k] != '@' {
      if k < at {
        assert s[k] == s[..at][k];
      } else if k < dot {
        assert s[k] == s[at + 1..dot][k - at - 1];
      } else if k > dot {
        assert s[k] == s[dot + 1..][k - dot - 1];
      }
    }
    forall k | dot < k < |s| ensures s[k] != '.' {
      assert s[k] == s[dot + 1..][k - dot - 1];
    }
  }

  /** Deciding the pattern by locating the only candidate split. */
  lemma EmailDecision(s: string)
    ensures (IndexOf(s, '@') < |s| && EmailSplitAt(s, IndexOf(s, '@'), LastIndexOf(s, '.')))
            <==> MatchesEmailPattern(s)
  {
    if MatchesEmailPattern(s) {
      var at, dot :| EmailSplitAt(s, at, dot);
      EmailSplitIsUnique(s, at, dot);
    }
  }

  /** The regular-expression test of the email field. */
  function IsValidEmail(s: string): (b: bool)
    ensures b <==> MatchesEmailPattern(s)
  {
    EmailDecision(s);
    var at := IndexOf(s, '@');
    at < |s| && EmailSplitAt(s, at, LastIndexOf(s, '.'))
  }

  /** A matching address is never blank, so "required" and "invalid" never overlap. */
  lemma MatchedEmailNotBlank(s: string)
    requires MatchesEmailPattern(s)
    ensures Trim(s) != []
  {
    var at, dot :| EmailSplitAt(s, at, dot);
    TrimEmptyIffBlank(s);
    assert !IsJsWhitespace(s[at]);
  }

  /** Any local part, domain prefix and top-level label drawn from their
      character classes compose into a matching address. */
  lemma EmailFromParts(local: string, domain: string, tld: string)
    requires |local| > 0 && AllChars(local, IsLocalChar)
    requires |domain| > 0 && AllChars(domain, IsDomainChar)
    requires |tld| >= 2 && AllChars(tld, IsAsciiLetter)
    ensures MatchesEmailPattern(local + "@" + domain + "." + tld)
  {
    var s := local + "@" + domain + "." + tld;
    var at, dot := |local|, |local| + 1 + |domain|;
    assert s[..at] == local && s[at + 1..dot] == domain && s[dot + 1..] == tld;
    assert EmailSplitAt(s, at, dot);
  }

  lemma EmailExampleAccepted()
    ensures MatchesEmailPattern("jane@example.com")
  {
    EmailFromParts("jane", "example", "com");
    assert "jane" + "@" + "example" + "." + "com" == "jane@example.com";
  }

  /** A one-letter top-level label is refused. */
  lemma EmailExampleShortTld()
    ensures !MatchesEmailPattern("jane@example.c")
  {
    var s := "jane@example.c";
    if MatchesEmailPattern(s) {
      var at, dot :| EmailSplitAt(s, at, dot);
      EmailSplitIsUnique(s, at, dot);
      assert false;
    }
  }

  /** A second `@` is refused. */
  lemma EmailExampleTwoAts()
    ensures !MatchesEmailPattern("jane@@example.com")
  {
    var s := "jane@@example.com";
    assert s[4] == '@' && s[5] == '@';
    if MatchesEmailPattern(s) {
      var at, dot :| EmailSplitAt(s, at, dot);
      EmailSplitIsUnique(s, at, dot);
      assert false;
    }
  }

  // ---- form data and validation ----

  datatype Field = FullName | Email | Phone | Comments

  /** The shape shared by `formData` and `errors`. */
  datatype FormFields = FormFields(fullName: string, email: string, phone: string, comments: string)
  {
    function Get(f: Field): string {
      match f
      case FullName => fullName
      case Email => email
      case Phone => phone
      case Comments => comments
    }

    /** `{ ...this, [f]: v }`. */
    function With(f: Field, v: string): (r: FormFields)
      ensures r.Get(f) == v
      ensures forall g :: g != f ==> r.Get(g) == Get(g)
    {
      match f
      case FullName => this.(fullName := v)
      case Email => this.(email := v)
      case Phone => this.(phone := v)
      case Comments => this.(comments := v)
    }
  }

  const Empty := FormFields("", "", "", "")

  const FullNameRequired := "Full name is required"
  const EmailRequired := "Email is required"
  const EmailInvalid := "Invalid email address"
  const PhoneRequired := "Phone number is required"
  const PhoneTooShort := "Phone number should be at least 10 digits"
  const CommentsRequired := "Please enter your message"

  function FullNameError(v: string): string {
    if Trim(v) == [] then FullNameRequired else ""
  }

  function EmailError(v: string): string {
    if Trim(v) == [] then EmailRequired
    else if !IsValidEmail(v) then EmailInvalid
    else ""
  }

  function PhoneError(v: string): string {
    if Trim(v) == [] then PhoneRequired
    else if |v| < 10 then PhoneTooShort
    else ""
  }

  function CommentsError(v: string): string {
    if Trim(v) == [] then CommentsRequired else ""
  }

  /** The `newErrors` record `validateForm` builds: every slot overwritten. */
  function ValidationErrors(d: FormFields): FormFields {
    FormFields(FullNameError(d.fullName), EmailError(d.email), PhoneError(d.phone), CommentsError(d.comments))
  }

  /** The email slot holds exactly one of its messages, each for its own reason. */
  lemma EmailErrorMeaning(v: string)
    ensures EmailError(v) == EmailRequired <==> AllChars(v, IsJsWhitespace)
    ensures EmailError(v) == EmailInvalid <==> !AllChars(v, IsJsWhitespace) && !MatchesEmailPattern(v)
    ensures EmailError(v) == "" <==> MatchesEmailPattern(v)
  {
    TrimEmptyIffBlank(v);
    if MatchesEmailPattern(v) {
      MatchedEmailNotBlank(v);
    }
  }

  /** A phone value made of digits is accepted exactly when it has ten of them. */
  lemma PhoneErrorOnDigits(v: string)
    requires AllChars(v, IsAsciiDigit)
    ensures v == [] ==> PhoneError(v) == PhoneRequired
    ensures v != [] ==> (PhoneError(v) == "" <==> |v| >= 10)
  {
    TrimEmptyIffBlank(v);
    if v != [] {
      assert !IsJsWhitespace(v[0]);
    }
  }

  /** The form passes validation exactly when every field meets its rule. */
  lemma ValidationAcceptsIff(d: FormFields)
    ensures ValidationErrors(d) == Empty <==>
      !AllChars(d.fullName, IsJsWhitespace) &&
      MatchesEmailPattern(d.email) &&
      !AllChars(d.phone, IsJsWhitespace) && |d.phone| >= 10 &&
      !AllChars(d.comments, IsJsWhitespace)
  {
    TrimEmptyIffBlank(d.fullName);
    TrimEmptyIffBlank(d.phone);
    TrimEmptyIffBlank(d.comments);
    EmailErrorMeaning(d.email);
  }

  /** Submitting an untouched form fills all four error slots. */
  lemma EmptyFormFourErrors()
    ensures ValidationErrors(Empty) == FormFields(FullNameRequired, EmailRequired, PhoneRequired, CommentsRequired)
  {
  }

  /** A form whose fields each meet their rule passes. */
  lemma AcceptedWhenRulesMet(d: FormFields)
    requires d.fullName != [] && !IsJsWhitespace(d.fullName[0])
    requires MatchesEmailPattern(d.email)
    requires AllChars(d.phone, IsAsciiDigit) && |d.phone| >= 10
    requires d.comments != [] && !IsJsWhitespace(d.comments[0])
    ensures ValidationErrors(d) == Empty
  {
    ValidationAcceptsIff(d);
    assert !IsJsWhitespace(d.phone[0]);
  }

  /** A correctly filled form passes. */
  lemma FilledFormAccepted()
    ensures ValidationErrors(FormFields("Jane Doe", "jane@example.com", "5551234567", "Interested")) == Empty
  {
    var d := FormFields("Jane Doe", "jane@example.com", "5551234567", "Interested");
    assert d.fullName[0] == 'J' && !IsJsWhitespace('J');
    assert d.comments[0] == 'I' && !IsJsWhitespace('I');
    assert AllChars(d.phone, IsAsciiDigit) && |d.phone| == 10;
    EmailExampleAccepted();
    AcceptedWhenRulesMet(d);
  }

  // ---- the component state ----

  datatype SubmitStatus = Idle | Success | Error

  class ContactAgentForm {
    var formData: FormFields
    var errors: FormFields
    var submitStatus: SubmitStatus
    /** Success timers scheduled by a passing submit and not yet fired. */
    var pendingTimers: nat

    /** The phone field only ever holds digits. */
    ghost predicate Valid()
      reads this
    {
      AllChars(formData.phone, IsAsciiDigit)
    }

    constructor ()
      ensures formData == Empty && errors == Empty && submitStatus == Idle && pendingTimers == 0
      ensures Valid()
    {
      formData := Empty;
      errors := Empty;
      submitStatus := Idle;
      pendingTimers := 0;
    }

    /** `handleChange`: clear the edited field's error, store the value (digits
        only for the phone) and return to idle. */
    method HandleChange(name: Field, value: string)
      modifies this`formData, this`errors, this`submitStatus
      ensures errors == old(errors).With(name, "")
      ensures formData == old(formData).With(name, if name == Phone then DigitsOnly(value) else value)
      ensures submitStatus == Idle
      ensures old(Valid()) ==> Valid()
    {
      errors := errors.With(name, "");
      if name == Phone {
        var numericValue := DigitsOnly(value);
        formData := formData.With(name, numericValue);
      } else {
        formData := formData.With(name, value);
      }
      if submitStatus != Idle {
        submitStatus := Idle;
      }
    }

    /** `validateForm`: rebuild every error slot and report whether all are empty. */
    method ValidateForm() returns (isValid: bool)
      modifies this`errors
      ensures errors == ValidationErrors(formData)
      ensures isValid <==> errors == Empty
    {
      // after each field, its slot and the flag are checked against the specification
      var newErrors := Empty;
      isValid := true;
      if Trim(formData.fullName) == [] {
        newErrors := newErrors.(fullName := FullNameRequired);
        isValid := false;
      }
      assert newErrors.fullName == FullNameError(formData.fullName);
      assert isValid <==> newErrors.fullName == "";
      if Trim(formData.email) == [] {
        newErrors := newErrors.(email := EmailRequired);
        isValid := false;
      } else if !IsValidEmail(formData.email) {
        newErrors := newErrors.(email := EmailInvalid);
        isValid := false;
      }
      assert newErrors.email == EmailError(formData.email);
      assert isValid <==> newErrors.fullName == "" && newErrors.email == "";
      if Trim(formData.phone) == [] {
        newErrors := newErrors.(phone := PhoneRequired);
        isValid := false;
      } else if |formData.phone| < 10 {
        newErrors := newErrors.(phone := PhoneTooShort);
        isValid := false;
      }
      assert newErrors.phone == PhoneError(formData.phone);
      assert isValid <==> newErrors.fullName == "" && newErrors.email == "" && newErrors.phone == "";
      if Trim(formData.comments) == [] {
        newErrors := newErrors.(comments := CommentsRequired);
        isValid := false;
      }
      assert newErrors.comments == CommentsError(formData.comments);
      errors := newErrors;
    }

    /** `handleSubmit`: a failed validation shows the error status at once; a
        passing one schedules the success timer and keeps the field values. */
    method HandleSubmit()
      modifies this`errors, this`submitStatus, this`pendingTimers
      ensures errors == ValidationErrors(formData)
      ensures errors == Empty ==> submitStatus == old(submitStatus) && pendingTimers == old(pendingTimers) + 1
      ensures errors != Empty ==> submitStatus == Error && pendingTimers == old(pendingTimers)
      ensures Valid() && formData.phone == [] ==> errors.phone == PhoneRequired
      ensures Valid() && formData.phone != [] ==> (errors.phone == "" <==> |formData.phone| >= 10)
    {
      var ok := ValidateForm();
      if Valid() {
        PhoneErrorOnDigits(formData.phone);
      }
      if ok {
        pendingTimers := pendingTimers + 1;
      } else {
        submitStatus := Error;
      }
    }

    /** The scheduled success timer fires. */
    method TimerFires()
      requires pendingTimers > 0
      modifies this`submitStatus, this`pendingTimers
      ensures submitStatus == Success && pendingTimers == old(pendingTimers) - 1
    {
      submitStatus := Success;
      pendingTimers := pendingTimers - 1;
    }
  }
}
