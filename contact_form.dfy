/**
 * The public contact form: client-side validation of a lead (trimmed required fields, a phone
 * pattern and an e-mail pattern), then one insert into the submissions table.
 */
module Contact {
  import opened Wrappers
  import opened Records

  // ---------------------------------------------------------------- whitespace and trim

  /** The characters JavaScript's `\s` and `String.prototype.trim` treat as white space or line terminators. */
  predicate IsSpace(c: char) {
    || c == '\t' || c == '\n' || c == '\U{000B}' || c == '\U{000C}' || c == '\r' || c == ' '
    || c == '\U{00A0}' || c == '\U{1680}' || ('\U{2000}' <= c <= '\U{200A}')
    || c == '\U{2028}' || c == '\U{2029}' || c == '\U{202F}' || c == '\U{205F}'
    || c == '\U{3000}' || c == '\U{FEFF}'
  }

  predicate AllSpace(s: string) {
    forall i :: 0 <= i < |s| ==> IsSpace(s[i])
  }

  function TrimStart(s: string): string
    decreases |s|
  {
    if s != [] && IsSpace(s[0]) then TrimStart(s[1..]) else s
  }

  function TrimEnd(s: string): string
    decreases |s|
  {
    if s != [] && IsSpace(s[|s| - 1]) then TrimEnd(s[..|s| - 1]) else s
  }

  /** `trim`: drops the leading, then the trailing white space. */
  function Trim(s: string): string {
    TrimEnd(TrimStart(s))
  }

  /** `TrimStart` drops a white-space prefix and stops at the first other character. */
  lemma {:induction false} TrimStartFacts(s: string)
    ensures var r := TrimStart(s);
            && |r| <= |s| && r == s[|s| - |r|..]
            && (r == [] || !IsSpace(r[0]))
            && AllSpace(s[..|s| - |r|])
    decreases |s|
  {
    if s != [] && IsSpace(s[0]) {
      TrimStartFacts(s[1..]);
      var r := TrimStart(s[1..]);
      assert s[1..][..|s[1..]| - |r|] == s[1..|s| - |r|];
      assert AllSpace(s[..|s| - |r|]) by {
        forall i | 0 <= i < |s| - |r| ensures IsSpace(s[i]) {
          if i > 0 {
            assert s[i] == s[1..][..|s[1..]| - |r|][i - 1];
          }
        }
      }
    }
  }

  /** `TrimEnd` drops a white-space suffix and stops at the last other character. */
  lemma {:induction false} TrimEndFacts(s: string)
    ensures var r := TrimEnd(s);
            && |r| <= |s| && r == s[..|r|]
            && (r == [] || !IsSpace(r[|r| - 1]))
            && AllSpace(s[|r|..])
    decreases |s|
  {
    if s != [] && IsSpace(s[|s| - 1]) {
      TrimEndFacts(s[..|s| - 1]);
      var r := TrimEnd(s[..|s| - 1]);
      assert AllSpace(s[|r|..]) by {
        forall i | 0 <= i < |s[|r|..]| ensures IsSpace(s[|r|..][i]) {
          if |r| + i < |s| - 1 {
            assert s[|r|..][i] == s[..|s| - 1][|r|..][i];
          }
        }
      }
    }
  }

  /** `r` is the slice of `s` that starts at `i`. */
  predicate SliceAt(s: string, r: string, i: int) {
    0 <= i <= |s| - |r| && r == s[i..i + |r|]
  }

  /** The trimmed value is a slice of the input that neither starts nor ends with white space. */
  lemma TrimIsInnerSlice(s: string)
    ensures exists i :: SliceAt(s, Trim(s), i)
    ensures Trim(s) == [] || (!IsSpace(Trim(s)[0]) && !IsSpace(Trim(s)[|Trim(s)| - 1]))
  {
    var t := TrimStart(s);
    TrimStartFacts(s);
    TrimEndFacts(t);
    var r := TrimEnd(t);
    assert Trim(s) == r;
    assert SliceAt(s, r, |s| - |t|);
    assert r != [] ==> r[0] == t[0];
  }

  /** `!value.trim()`: the trimmed value is empty exactly when every character is white space. */
  lemma TrimEmptyIff(s: string)
    ensures Trim(s) == [] <==> AllSpace(s)
  {
    var t := TrimStart(s);
    TrimStartFacts(s);
    TrimEndFacts(t);
    if Trim(s) == [] {
      assert t[|TrimEnd(t)|..] == t;
      assert t == [];
      assert s[..|s|] == s;
    } else if t != [] {
      assert !IsSpace(t[0]) && t[0] == s[|s| - |t|];
    }
  }

  // ---------------------------------------------------------------- phone

  /** A character of the class `[\d\s-()]`. */
  predicate PhoneChar(c: char) {
    ('0' <= c <= '9') || IsSpace(c) || c == '-' || c == '(' || c == ')'
  }

  predicate PhoneBody(t: string) {
    |t| > 0 && forall i :: 0 <= i < |t| ==> PhoneChar(t[i])
  }

  /** `/^\+?[\d\s-()]+$/`: a leading `+` can only be the optional sign, since `+` is not in the class. */
  predicate PhoneValid(s: string) {
    if s != [] && s[0] == '+' then PhoneBody(s[1..]) else PhoneBody(s)
  }

  /** The pattern read off the regular expression: an optional `+`, then one or more class characters. */
  ghost predicate PhonePattern(s: string) {
    exists sign: string, body: string :: (sign == "" || sign == "+") && PhoneBody(body) && s == sign + body
  }

  lemma PhoneValidIff(s: string)
    ensures PhoneValid(s) <==> PhonePattern(s)
  {
    if PhoneValid(s) {
      if s != [] && s[0] == '+' {
        assert s == "+" + s[1..];
      } else {
        assert s == "" + s;
      }
    }
    if PhonePattern(s) {
      var sign: string, body: string :| (sign == "" || sign == "+") && PhoneBody(body) && s == sign + body;
      if sign == "" {
        assert s == body;
        assert !PhoneChar('+');
      } else {
        assert s[1..] == body;
      }
    }
  }

  // ---------------------------------------------------------------- e-mail

  /** A character of the class `[^\s@]`. */
  predicate EmailChar(c: char) {
    !IsSpace(c) && c != '@'
  }

  predicate EmailChars(s: string) {
    forall i :: 0 <= i < |s| ==> EmailChar(s[i])
  }

  /** The domain part `[^\s@]+\.[^\s@]+`: no `@` or space, and a dot with something on both sides. */
  predicate DomainValid(d: string) {
    EmailChars(d) && exists k :: 0 < k < |d| - 1 && d[k] == '.'
  }

  /** `/^[^\s@]+@[^\s@]+\.[^\s@]+$/`: one `@` after a non-empty local part, then a dotted domain. */
  predicate EmailValid(s: string) {
    exists i :: 0 < i < |s| && s[i] == '@' && EmailChars(s[..i]) && DomainValid(s[i + 1..])
  }

  /** The pattern read off the regular expression: `local@label.rest`, each part non-empty. */
  ghost predicate EmailPattern(s: string) {
    exists l: string, a: string, b: string ::
      l != [] && a != [] && b != [] && EmailChars(l) && EmailChars(a) && EmailChars(b)
      && s == l + "@" + a + "." + b
  }

  lemma EmailValidIff(s: string)
    ensures EmailValid(s) <==> EmailPattern(s)
  {
    if EmailValid(s) {
      EmailValidHasPattern(s);
    }
    if EmailPattern(s) {
      var l: string, a: string, b: string :| l != [] && a != [] && b != [] && EmailChars(l) && EmailChars(a) && EmailChars(b)
        && s == l + "@" + a + "." + b;
      PatternIsValid(l, a, b);
    }
  }

  lemma EmailValidHasPattern(s: string)
    requires EmailValid(s)
    ensures EmailPattern(s)
  {
    var i :| 0 < i < |s| && s[i] == '@' && EmailChars(s[..i]) && DomainValid(s[i + 1..]);
    var d := s[i + 1..];
    var k :| 0 < k < |d| - 1 && d[k] == '.';
    var l, a, b := s[..i], d[..k], d[k + 1..];
    SliceChars(d, 0, k);
    SliceChars(d, k + 1, |d|);
    assert d[0..k] == a && d[k + 1..|d|] == b;
    SplitAround(s, i, k);
    assert l != [] && a != [] && b != [] && EmailChars(l) && EmailChars(a) && EmailChars(b);
  }

  /** Cutting `s` at the `@` at `i` and at the `.` at `k` in what follows. */
  lemma SplitAround(s: string, i: int, k: int)
    requires 0 <= i < |s| && s[i] == '@' && 0 <= k < |s| - i - 1 && s[i + 1 + k] == '.'
    ensures s == s[..i] + "@" + s[i + 1..][..k] + "." + s[i + 1..][k + 1..]
  {
    var d := s[i + 1..];
    assert d == d[..k] + [d[k]] + d[k + 1..];
    assert s == s[..i] + [s[i]] + d;
  }

  lemma SliceChars(d: string, lo: int, hi: int)
    requires EmailChars(d) && 0 <= lo <= hi <= |d|
    ensures EmailChars(d[lo..hi])
  {
    forall j | 0 <= j < hi - lo ensures EmailChar(d[lo..hi][j]) {
      assert d[lo..hi][j] == d[lo + j];
    }
  }

  lemma PatternIsValid(l: string, a: string, b: string)
    requires l != [] && a != [] && b != [] && EmailChars(l) && EmailChars(a) && EmailChars(b)
    ensures EmailValid(l + "@" + a + "." + b)
  {
    var s := l + "@" + a + "." + b;
    var d := a + "." + b;
    var i := |l|;
    assert s == l + "@" + d;
    assert s[..i] == l && s[i] == '@' && s[i + 1..] == d;
    assert d[|a|] == '.';
    assert EmailChars(d) by {
      forall j | 0 <= j < |d| ensures EmailChar(d[j]) {
        if j < |a| {
          assert d[j] == a[j];
        } else if j > |a| {
          assert d[j] == b[j - |a| - 1];
        }
      }
    }
    assert DomainValid(d);
  }

  // ---------------------------------------------------------------- validation

  datatype FieldName = Name | Phone | Email | ProjectDetails

  const NameRequired := "Ім’я обов’язкове"
  const PhoneRequired := "Номер телефону обов’язковий"
  const PhoneInvalid := "Будь ласка, введіть дійсний номер телефону"
  const EmailRequired := "Електронна пошта обов’язкова"
  const EmailInvalid := "Будь ласка, введіть дійсну електронну адресу"
  const DetailsRequired := "Деталі проєкту обов’язкові"
  const SubmitError := "Сталася помилка при надсиланні заявки: "

  function Value(d: Lead, f: FieldName): string {
    match f
    case Name => d.name
    case Phone => d.phone
    case Email => d.email
    case ProjectDetails => d.projectDetails
  }

  /**
   * The message `validateForm` sets for a field, if any: a missing value before a malformed one.
   * `!value.trim()` is written as `AllSpace(value)`, which `TrimEmptyIff` shows to be the same test.
   */
  function FieldError(d: Lead, f: FieldName): Option<string> {
    if AllSpace(Value(d, f)) then
      Some(match f
           case Name => NameRequired
           case Phone => PhoneRequired
           case Email => EmailRequired
           case ProjectDetails => DetailsRequired)
    else if f == Phone && !PhoneValid(d.phone) then Some(PhoneInvalid)
    else if f == Email && !EmailValid(d.email) then Some(EmailInvalid)
    else None
  }

  /** `validateForm`: one entry per failing field, holding that field's message. */
  function Validate(d: Lead): (r: map<FieldName, string>)
    ensures forall f :: f in r <==> FieldError(d, f).Some?
    ensures forall f :: f in r ==> r[f] == FieldError(d, f).value
  {
    var r := WithError(WithError(WithError(WithError(map[], d, Name), d, Phone), d, Email), d, ProjectDetails);
    assert forall f :: (f in r <==> FieldError(d, f).Some?) && (f in r ==> r[f] == FieldError(d, f).value) by {
      forall f ensures (f in r <==> FieldError(d, f).Some?) && (f in r ==> r[f] == FieldError(d, f).value) {
        assert f.Name? || f.Phone? || f.Email? || f.ProjectDetails?;
      }
    }
    r
  }

  /** One `if (...) newErrors.field = message` step. */
  function WithError(m: map<FieldName, string>, d: Lead, f: FieldName): (r: map<FieldName, string>)
    ensures FieldError(d, f).Some? ==> r == m[f := FieldError(d, f).value]
    ensures FieldError(d, f).None? ==> r == m
  {
    if FieldError(d, f).Some? then m[f := FieldError(d, f).value] else m
  }

  /** No message at all exactly when no field has one. */
  lemma ValidateEmptyIff(d: Lead)
    ensures Validate(d) == map[] <==> forall f :: FieldError(d, f).None?
  {
    if Validate(d) != map[] {
      var f :| f in Validate(d);
    }
  }

  /** A lead is sent exactly when every field is filled in (beyond white space) and phone and e-mail match their patterns. */
  lemma AcceptedIff(d: Lead)
    ensures Validate(d) == map[] <==>
              && !AllSpace(d.name) && !AllSpace(d.projectDetails)
              && !AllSpace(d.phone) && PhonePattern(d.phone)
              && !AllSpace(d.email) && EmailPattern(d.email)
  {
    ValidateEmptyIff(d);
    PhoneValidIff(d.phone);
    EmailValidIff(d.email);
    assert FieldError(d, Name).None? <==> !AllSpace(d.name);
    assert FieldError(d, ProjectDetails).None? <==> !AllSpace(d.projectDetails);
    assert FieldError(d, Phone).None? <==> !AllSpace(d.phone) && PhonePattern(d.phone);
    assert FieldError(d, Email).None? <==> !AllSpace(d.email) && EmailPattern(d.email);
    assert (forall f :: FieldError(d, f).None?) <==>
           FieldError(d, Name).None? && FieldError(d, Phone).None? && FieldError(d, Email).None? && FieldError(d, ProjectDetails).None?;
  }

  const EmptyLead := Lead("", "", "", "")

  /** The blank form fails on every field with its "required" message. */
  lemma BlankFormRequiresAll()
    ensures Validate(EmptyLead) == map[Name := NameRequired, Phone := PhoneRequired, Email := EmailRequired, ProjectDetails := DetailsRequired]
  {
    assert Trim("") == "";
  }

  // ---------------------------------------------------------------- the form

  class ContactForm {
    var formData: Lead
    var errors: map<FieldName, string>
    var isSubmitting: bool
    var submitted: bool
    var calls: seq<Request>
    /** The messages shown with `alert`. */
    var alerts: seq<string>

    constructor ()
      ensures formData == EmptyLead && errors == map[] && !isSubmitting && !submitted && calls == [] && alerts == []
    {
      formData := EmptyLead;
      errors := map[];
      isSubmitting := false;
      submitted := false;
      calls := [];
      alerts := [];
    }

    /** `handleChange`: stores the value and blanks that field's message if it was showing one. */
    method HandleChange(field: FieldName, value: string)
      modifies this
      ensures Value(formData, field) == value
      ensures forall f :: f != field ==> Value(formData, f) == Value(old(formData), f)
      ensures field in old(errors) && old(errors)[field] != "" ==> errors == old(errors)[field := ""]
      ensures !(field in old(errors) && old(errors)[field] != "") ==> errors == old(errors)
      ensures isSubmitting == old(isSubmitting) && submitted == old(submitted) && calls == old(calls) && alerts == old(alerts)
    {
      formData := match field
        case Name => formData.(name := value)
        case Phone => formData.(phone := value)
        case Email => formData.(email := value)
        case ProjectDetails => formData.(projectDetails := value);
      if field in errors && errors[field] != "" {
        errors := errors[field := ""];
      }
    }

    /**
     * `handleSubmit`: an invalid lead only shows its messages; a valid one is inserted, and the
     * form then shows the thank-you state with blank fields, or alerts the error and keeps them.
     */
    method HandleSubmit(outcome: Outcome)
      modifies this
      ensures Validate(old(formData)) != map[] ==>
                errors == Validate(old(formData)) && formData == old(formData) && calls == old(calls)
                && submitted == old(submitted) && alerts == old(alerts)
      ensures Validate(old(formData)) == map[] ==>
                errors == old(errors) && calls == old(calls) + [InsertSubmission(old(formData))]
      ensures Validate(old(formData)) == map[] && outcome.Resolved? ==>
                submitted && formData == EmptyLead && alerts == old(alerts)
      ensures Validate(old(formData)) == map[] && outcome.Rejected? ==>
                submitted == old(submitted) && formData == old(formData) && alerts == old(alerts) + [SubmitError + outcome.message]
      ensures !isSubmitting
    {
      var found := Validate(formData);
      if found != map[] {
        errors := found;
        isSubmitting := false;
        return;
      }
      isSubmitting := true;
      calls := calls + [InsertSubmission(formData)];
      if outcome.Resolved? {
        submitted := true;
        formData := EmptyLead;
      } else {
        alerts := alerts + [SubmitError + outcome.message];
      }
      isSubmitting := false;
    }

    /** "Send another request": back to the form. */
    method SendAnother()
      modifies this
      ensures !submitted
      ensures formData == old(formData) && errors == old(errors) && isSubmitting == old(isSubmitting)
      ensures calls == old(calls) && alerts == old(alerts)
    {
      submitted := false;
    }
  }
}
