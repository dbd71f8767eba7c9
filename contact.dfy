/**
 * The contact form (app/contact/page.tsx): four text fields, one error message
 * per field that fails its rule, a submit that only goes through when no rule
 * fails, a delayed reset after a successful submit, and typing into a field
 * clearing that field's error.
 */
module ContactPage {
  import opened Text

  // ---------------------------------------------------------------------------
  // validateEmail
  // ---------------------------------------------------------------------------

  /** A character of the class `[^\s@]`. */
  predicate EmailChar(c: char) {
    !IsSpace(c) && c != '@'
  }

  predicate EmailChars(s: string) {
    forall i :: 0 <= i < |s| ==> EmailChar(s[i])
  }

  /**
   * The pattern `^[^\s@]+@[^\s@]+\.[^\s@]+$` read literally: a non-empty run of
   * `[^\s@]`, an `@`, a non-empty run, a `.`, a non-empty run, and nothing else.
   */
  ghost predicate MatchesEmailPattern(s: string) {
    exists at, dot ::
      && 0 < at && at + 1 < dot && dot + 1 < |s|
      && s[at] == '@' && s[dot] == '.'
      && EmailChars(s[..at]) && EmailChars(s[at + 1..dot]) && EmailChars(s[dot + 1..])
  }

  /** The index of the first `c` in `s`, or `|s|` when there is none. */
  function IndexOf(s: string, c: char): (k: nat)
    ensures k <= |s|
    ensures k < |s| ==> s[k] == c
    ensures forall i :: 0 <= i < k ==> s[i] != c
  {
    if s == [] then 0 else if s[0] == c then 0 else 1 + IndexOf(s[1..], c)
  }

  /**
   * `validateEmail`: no whitespace, exactly one `@` with something before it,
   * and a `.` after the `@` that is neither the first nor the last character there.
   */
  predicate ValidateEmail(email: string) {
    var at := IndexOf(email, '@');
    && 0 < at < |email|
    && (forall i :: 0 <= i < |email| ==> !IsSpace(email[i]))
    && (forall i :: at < i < |email| ==> email[i] != '@')
    && (exists dot :: at + 1 < dot < |email| - 1 && email[dot] == '.')
  }

  lemma RunOfEmailChars(s: string, lo: nat, hi: nat)
    requires lo <= hi <= |s|
    requires forall i :: lo <= i < hi ==> EmailChar(s[i])
    ensures EmailChars(s[lo..hi])
  {
    var run := s[lo..hi];
    forall j | 0 <= j < |run| ensures EmailChar(run[j]) {
      assert run[j] == s[lo + j];
    }
  }

  /** Each string `validateEmail` accepts matches the pattern. */
  lemma AcceptedEmailMatchesPattern(email: string)
    requires ValidateEmail(email)
    ensures MatchesEmailPattern(email)
  {
    var at := IndexOf(email, '@');
    var dot :| at + 1 < dot < |email| - 1 && email[dot] == '.';
    forall i | 0 <= i < |email| && i != at && i != dot ensures EmailChar(email[i]) {
    }
    RunOfEmailChars(email, 0, at);
    RunOfEmailChars(email, at + 1, dot);
    RunOfEmailChars(email, dot + 1, |email|);
  }

  /** Each string the pattern matches is accepted by `validateEmail`. */
  lemma MatchedEmailAccepted(email: string)
    requires MatchesEmailPattern(email)
    ensures ValidateEmail(email)
  {
    var at, dot :|
      && 0 < at && at + 1 < dot && dot + 1 < |email|
      && email[at] == '@' && email[dot] == '.'
      && EmailChars(email[..at]) && EmailChars(email[at + 1..dot]) && EmailChars(email[dot + 1..]);
    forall i | 0 <= i < |email| && i != at && i != dot ensures EmailChar(email[i]) {
      if i < at {
        assert email[..at][i] == email[i];
      } else if i < dot {
        assert email[at + 1..dot][i - at - 1] == email[i];
      } else {
        assert email[dot + 1..][i - dot - 1] == email[i];
      }
    }
    var k := IndexOf(email, '@');
    assert k == at;
  }

  /** `validateEmail` accepts exactly the strings its regular expression matches. */
  lemma ValidateEmailMatchesPattern(email: string)
    ensures ValidateEmail(email) <==> MatchesEmailPattern(email)
  {
    if ValidateEmail(email) {
      AcceptedEmailMatchesPattern(email);
    }
    if MatchesEmailPattern(email) {
      MatchedEmailAccepted(email);
    }
  }

  // ---------------------------------------------------------------------------
  // The form
  // ---------------------------------------------------------------------------

  datatype Field = Username | Email | Subject | Message

  datatype FormData = FormData(username: string, email: string, subject: string, message: string)

  const EmptyData := FormData("", "", "", "")

  /** `formData[field]`. */
  function FieldOf(d: FormData, f: Field): string {
    match f
    case Username => d.username
    case Email => d.email
    case Subject => d.subject
    case Message => d.message
  }

  /** `{ ...d, [field]: value }`. */
  function WithField(d: FormData, f: Field, value: string): (r: FormData)
    ensures FieldOf(r, f) == value
    ensures forall g :: g != f ==> FieldOf(r, g) == FieldOf(d, g)
  {
    match f
    case Username => d.(username := value)
    case Email => d.(email := value)
    case Subject => d.(subject := value)
    case Message => d.(message := value)
  }

  /** The message shown for a field that fails its rule. */
  function ErrorMessage(f: Field): string {
    match f
    case Username => "Username mora imati barem 8 znakova"
    case Email => "Unesite ispravan e-mail"
    case Subject => "Tema ne smije biti prazna"
    case Message => "Poruka ne smije biti prazna"
  }

  /**
   * The rule each field must meet: a username of at least 8 characters, an email
   * the pattern accepts, a subject and a message that are not all whitespace.
   */
  ghost predicate FieldValid(d: FormData, f: Field) {
    match f
    case Username => |d.username| >= 8
    case Email => MatchesEmailPattern(d.email)
    case Subject => !IsBlank(d.subject)
    case Message => !IsBlank(d.message)
  }

  /** The tests `validateForm` runs decide exactly the rules. */
  lemma ChecksDecideRules(d: FormData)
    ensures FieldValid(d, Username) <==> !(|d.username| < 8)
    ensures FieldValid(d, Email) <==> ValidateEmail(d.email)
    ensures FieldValid(d, Subject) <==> Trim(d.subject) != ""
    ensures FieldValid(d, Message) <==> Trim(d.message) != ""
  {
    ValidateEmailMatchesPattern(d.email);
    TrimEmptyIffBlank(d.subject);
    TrimEmptyIffBlank(d.message);
  }

  class ContactForm {
    var formData: FormData
    var errors: map<Field, string>
    var isSubmitted: bool

    /** Every error on record is that field's message. */
    predicate Valid()
      reads this
    {
      forall f :: f in errors ==> errors[f] == ErrorMessage(f)
    }

    /** An empty form, no errors, not submitted. */
    constructor ()
      ensures formData == EmptyData && errors == map[] && !isSubmitted
      ensures Valid()
    {
      formData := EmptyData;
      errors := map[];
      isSubmitted := false;
    }

    /**
     * `validateForm`: the errors become exactly the messages of the fields that
     * fail their rule, and the result says whether there are none.
     */
    method ValidateForm() returns (valid: bool)
      modifies this`errors
      ensures Valid()
      ensures forall f :: f in errors <==> !FieldValid(formData, f)
      ensures valid <==> errors == map[]
      ensures valid <==> forall f :: FieldValid(formData, f)
    {
      var newErrors: map<Field, string> := map[];
      if |formData.username| < 8 {
        newErrors := newErrors[Username := ErrorMessage(Username)];
      }
      if !ValidateEmail(formData.email) {
        newErrors := newErrors[Email := ErrorMessage(Email)];
      }
      if Trim(formData.subject) == "" {
        newErrors := newErrors[Subject := ErrorMessage(Subject)];
      }
      if Trim(formData.message) == "" {
        newErrors := newErrors[Message := ErrorMessage(Message)];
      }
      errors := newErrors;
      valid := |newErrors| == 0;
      forall f ensures f in errors <==> !FieldValid(formData, f)
        ensures f in errors ==> errors[f] == ErrorMessage(f)
      {
        match f
        case Username =>
        case Email => ValidateEmailMatchesPattern(formData.email);
        case Subject => TrimEmptyIffBlank(formData.subject);
        case Message => TrimEmptyIffBlank(formData.message);
      }
      if !valid {
        assert exists f :: f in errors;
      }
    }

    /** `handleSubmit`: validates, and marks the form submitted only when nothing failed. */
    method HandleSubmit()
      modifies this`errors, this`isSubmitted
      ensures Valid()
      ensures forall f :: f in errors <==> !FieldValid(formData, f)
      ensures (forall f :: FieldValid(formData, f)) ==> isSubmitted
      ensures !(forall f :: FieldValid(formData, f)) ==> isSubmitted == old(isSubmitted)
    {
      var valid := ValidateForm();
      if valid {
        isSubmitted := true;
      }
    }

    /** The reset three seconds after a successful submit: empty fields, not submitted. */
    method ResetAfterSubmit()
      modifies this`formData, this`isSubmitted
      ensures formData == EmptyData && !isSubmitted
    {
      formData := EmptyData;
      isSubmitted := false;
    }

    /** `handleInputChange`: the field takes the value, and its error (only its) is cleared. */
    method HandleInputChange(field: Field, value: string)
      requires Valid()
      modifies this`formData, this`errors
      ensures formData == WithField(old(formData), field, value)
      ensures errors == old(errors) - {field}
      ensures Valid()
    {
      formData := WithField(formData, field, value);
      if field in errors && errors[field] != "" {
        errors := errors - {field};
      }
    }
  }
}
