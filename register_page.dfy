/**
 * The registration page of the web client: the form schema and the
 * password-strength indicator. Whether a string is an e-mail address is
 * the schema library's decision; here it is the parameter `isEmail`.
 *
 * A `char` here is a Unicode code point, while JavaScript strings are
 * sequences of UTF-16 code units: the schema's `min` and `max` compare
 * `.length`, and a regular expression without the `u` flag matches code
 * units. Lengths are therefore counted with `Utf16Length`.
 */
module RegisterPage {
  import opened Model

  datatype Form = Form(name: string, email: string, password: string, confirmation: string, terms: bool)

  /** The form fields a complaint can be attached to. */
  datatype Path = Name | Email | Password | PasswordConfirmation | Terms

  /** One complaint of the schema: the field it is attached to and its message. */
  datatype Issue = Issue(path: Path, message: string)

  /** The fields the schema complains about. */
  function Fields(issues: seq<Issue>): set<Path> {
    if issues == [] then {} else {issues[0].path} + Fields(issues[1..])
  }

  lemma {:induction false} FieldsOfConcat(a: seq<Issue>, b: seq<Issue>)
    ensures Fields(a + b) == Fields(a) + Fields(b)
  {
    if a == [] {
      assert a + b == b;
    } else {
      assert (a + b)[1..] == a[1..] + b;
      FieldsOfConcat(a[1..], b);
    }
  }

  // The schema's messages.
  const NameRequired := "Name is required"
  const NameTooShort := "Name must be at least 2 characters"
  const NameTooLong := "Name must be less than 50 characters"
  const EmailRequired := "Email is required"
  const EmailInvalid := "Please enter a valid email address"
  const PasswordRequired := "Password is required"
  const PasswordTooShort := "Password must be at least 8 characters"
  const PasswordNeedsUpper := "Password must contain at least one uppercase letter"
  const PasswordNeedsLower := "Password must contain at least one lowercase letter"
  const PasswordNeedsDigit := "Password must contain at least one number"
  const ConfirmationRequired := "Please confirm your password"
  const TermsRequired := "You must agree to the terms and conditions"
  const PasswordsDiffer := "Passwords don't match"

  /** One check of the schema: no issue when it holds, its message when it fails. */
  function Check(ok: bool, path: Path, message: string): (issues: seq<Issue>)
    ensures Fields(issues) == if ok then {} else {path}
  {
    if ok then [] else [Issue(path, message)]
  }

  /** The UTF-16 code units a code point takes: two above the Basic Multilingual Plane. */
  function CodeUnits(c: char): nat {
    if c as int >= 0x1_0000 then 2 else 1
  }

  /** JavaScript's `.length` of a string. */
  function Utf16Length(s: string): (n: nat)
    ensures |s| <= n <= 2 * |s|
  {
    if s == [] then 0 else CodeUnits(s[0]) + Utf16Length(s[1..])
  }

  /** Without characters above the Basic Multilingual Plane, `.length` counts characters. */
  lemma {:induction false} Utf16LengthOfBmp(s: string)
    requires forall i :: 0 <= i < |s| ==> s[i] as int < 0x1_0000
    ensures Utf16Length(s) == |s|
  {
    if s != [] {
      Utf16LengthOfBmp(s[1..]);
    }
  }

  predicate IsUpper(c: char) { 'A' <= c <= 'Z' }
  predicate IsLower(c: char) { 'a' <= c <= 'z' }
  predicate IsDigit(c: char) { '0' <= c <= '9' }

  predicate HasUpper(p: string) { exists i :: 0 <= i < |p| && IsUpper(p[i]) }
  predicate HasLower(p: string) { exists i :: 0 <= i < |p| && IsLower(p[i]) }
  predicate HasDigit(p: string) { exists i :: 0 <= i < |p| && IsDigit(p[i]) }

  /** The characters a regular expression's `.` does not match. */
  predicate LineTerminator(c: char) {
    c == '\n' || c == '\r' || c == '\U{2028}' || c == '\U{2029}'
  }

  predicate SingleLine(s: string) {
    forall i :: 0 <= i < |s| ==> !LineTerminator(s[i])
  }

  /**
   * The characters from `i` to `j` hold no line terminator and take at least
   * eight code units. Half of a surrogate pair is not a line terminator, so
   * `.` matches both halves.
   */
  predicate RunAt(p: string, i: int, j: int) {
    0 <= i <= j <= |p| && SingleLine(p[i..j]) && Utf16Length(p[i..j]) >= 8
  }

  /** `/.{8,}/.test(p)`: eight code units in a row, none a line terminator. */
  predicate HasEightUnitRun(p: string) {
    exists i, j :: 0 <= i <= j <= |p| && RunAt(p, i, j)
  }

  function NameIssues(n: string): (issues: seq<Issue>)
    ensures issues == [] <==> 2 <= Utf16Length(n) <= 50
    ensures Fields(issues) == if 2 <= Utf16Length(n) <= 50 then {} else {Name}
  {
    var required := Check(Utf16Length(n) >= 1, Name, NameRequired);
    var short := Check(Utf16Length(n) >= 2, Name, NameTooShort);
    var long := Check(Utf16Length(n) <= 50, Name, NameTooLong);
    FieldsOfConcat(required, short);
    FieldsOfConcat(required + short, long);
    required + short + long
  }

  function EmailIssues(e: string, isEmail: string -> bool): (issues: seq<Issue>)
    ensures issues == [] <==> |e| >= 1 && isEmail(e)
    ensures Fields(issues) == if |e| >= 1 && isEmail(e) then {} else {Email}
  {
    var required := Check(Utf16Length(e) >= 1, Email, EmailRequired);
    var format := Check(isEmail(e), Email, EmailInvalid);
    FieldsOfConcat(required, format);
    required + format
  }

  function PasswordIssues(p: string): (issues: seq<Issue>)
    ensures issues == [] <==> PasswordAccepted(p)
    ensures Fields(issues) == if PasswordAccepted(p) then {} else {Password}
  {
    var required := Check(Utf16Length(p) >= 1, Password, PasswordRequired);
    var short := Check(Utf16Length(p) >= 8, Password, PasswordTooShort);
    var upper := Check(HasUpper(p), Password, PasswordNeedsUpper);
    var lower := Check(HasLower(p), Password, PasswordNeedsLower);
    var digit := Check(HasDigit(p), Password, PasswordNeedsDigit);
    FieldsOfConcat(required, short);
    FieldsOfConcat(required + short, upper);
    FieldsOfConcat(required + short + upper, lower);
    FieldsOfConcat(required + short + upper + lower, digit);
    required + short + upper + lower + digit
  }

  function ConfirmationIssues(c: string): (issues: seq<Issue>)
    ensures issues == [] <==> |c| >= 1
    ensures Fields(issues) == if |c| >= 1 then {} else {PasswordConfirmation}
  {
    Check(Utf16Length(c) >= 1, PasswordConfirmation, ConfirmationRequired)
  }

  function TermsIssues(terms: bool): (issues: seq<Issue>)
    ensures issues == [] <==> terms
    ensures Fields(issues) == if terms then {} else {Terms}
  {
    Check(terms, Terms, TermsRequired)
  }

  /** The refinement over the whole form, reported under the confirmation. */
  function MatchIssues(p: string, c: string): (issues: seq<Issue>)
    ensures issues == [] <==> p == c
    ensures Fields(issues) == if p == c then {} else {PasswordConfirmation}
  {
    Check(p == c, PasswordConfirmation, PasswordsDiffer)
  }

  /** `registerSchema`: every failing check of every field, then the confirmation match. */
  function Issues(form: Form, isEmail: string -> bool): (issues: seq<Issue>)
    ensures issues == [] <==>
      && 2 <= Utf16Length(form.name) <= 50 && |form.email| >= 1 && isEmail(form.email)
      && PasswordAccepted(form.password) && form.password == form.confirmation && form.terms
  {
    var n, e, p := NameIssues(form.name), EmailIssues(form.email, isEmail), PasswordIssues(form.password);
    var c, t, m := ConfirmationIssues(form.confirmation), TermsIssues(form.terms),
      MatchIssues(form.password, form.confirmation);
    assert |n + e + p + c + t + m| == |n| + |e| + |p| + |c| + |t| + |m|;
    n + e + p + c + t + m
  }

  /** A password the schema accepts. */
  predicate PasswordAccepted(p: string) {
    Utf16Length(p) >= 8 && HasUpper(p) && HasLower(p) && HasDigit(p)
  }

  /** The fields of the whole schema are the fields of its parts. */
  lemma FieldsOfIssues(form: Form, isEmail: string -> bool)
    ensures Fields(Issues(form, isEmail))
         == Fields(NameIssues(form.name)) + Fields(EmailIssues(form.email, isEmail))
          + Fields(PasswordIssues(form.password)) + Fields(ConfirmationIssues(form.confirmation))
          + Fields(TermsIssues(form.terms)) + Fields(MatchIssues(form.password, form.confirmation))
  {
    var n, e, p := NameIssues(form.name), EmailIssues(form.email, isEmail), PasswordIssues(form.password);
    var c, t, m := ConfirmationIssues(form.confirmation), TermsIssues(form.terms),
      MatchIssues(form.password, form.confirmation);
    FieldsOfConcat(n, e);
    FieldsOfConcat(n + e, p);
    FieldsOfConcat(n + e + p, c);
    FieldsOfConcat(n + e + p + c, t);
    FieldsOfConcat(n + e + p + c + t, m);
  }

  lemma NameField(form: Form, isEmail: string -> bool)
    ensures Name in Fields(Issues(form, isEmail)) <==> !(2 <= Utf16Length(form.name) <= 50)
  {
    FieldsOfIssues(form, isEmail);
  }

  lemma EmailField(form: Form, isEmail: string -> bool)
    ensures Email in Fields(Issues(form, isEmail)) <==> !(|form.email| >= 1 && isEmail(form.email))
  {
    FieldsOfIssues(form, isEmail);
  }

  lemma PasswordField(form: Form, isEmail: string -> bool)
    ensures Password in Fields(Issues(form, isEmail)) <==> !PasswordAccepted(form.password)
  {
    FieldsOfIssues(form, isEmail);
  }

  lemma ConfirmationField(form: Form, isEmail: string -> bool)
    ensures PasswordConfirmation in Fields(Issues(form, isEmail))
        <==> |form.confirmation| == 0 || form.password != form.confirmation
  {
    FieldsOfIssues(form, isEmail);
  }

  lemma TermsField(form: Form, isEmail: string -> bool)
    ensures Terms in Fields(Issues(form, isEmail)) <==> !form.terms
  {
    FieldsOfIssues(form, isEmail);
  }

  /** Which fields the schema complains about, field by field. */
  lemma IssuesByField(form: Form, isEmail: string -> bool)
    ensures var fields := Fields(Issues(form, isEmail));
      && (Name in fields <==> !(2 <= Utf16Length(form.name) <= 50))
      && (Email in fields <==> !(|form.email| >= 1 && isEmail(form.email)))
      && (Password in fields <==> !PasswordAccepted(form.password))
      && (PasswordConfirmation in fields <==> |form.confirmation| == 0 || form.password != form.confirmation)
      && (Terms in fields <==> !form.terms)
  {
    NameField(form, isEmail);
    EmailField(form, isEmail);
    PasswordField(form, isEmail);
    ConfirmationField(form, isEmail);
    TermsField(form, isEmail);
  }

  /** The number of requirements of the indicator the password meets. */
  function Strength(p: string): (n: nat)
    ensures n <= 4
    ensures n == 4 <==> HasEightUnitRun(p) && HasUpper(p) && HasLower(p) && HasDigit(p)
  {
    (if HasEightUnitRun(p) then 1 else 0) + (if HasUpper(p) then 1 else 0)
    + (if HasLower(p) then 1 else 0) + (if HasDigit(p) then 1 else 0)
  }

  datatype Label = Weak | Fair | Good | Strong
  datatype Colour = Red | Yellow | Blue | Green

  function Rank(l: Label): nat {
    match l
    case Weak => 0
    case Fair => 1
    case Good => 2
    case Strong => 3
  }

  function StrengthLabel(strength: nat): (l: Label)
    ensures l == Weak <==> strength <= 1
    ensures l == Fair <==> strength == 2
    ensures l == Good <==> strength == 3
    ensures l == Strong <==> strength >= 4
  {
    if strength <= 1 then Weak
    else if strength <= 2 then Fair
    else if strength <= 3 then Good
    else Strong
  }

  /** The bar's colour goes through the same thresholds as the label. */
  function StrengthColour(strength: nat): (c: Colour)
    ensures c == Red <==> StrengthLabel(strength) == Weak
    ensures c == Yellow <==> StrengthLabel(strength) == Fair
    ensures c == Blue <==> StrengthLabel(strength) == Good
    ensures c == Green <==> StrengthLabel(strength) == Strong
  {
    if strength <= 1 then Red
    else if strength <= 2 then Yellow
    else if strength <= 3 then Blue
    else Green
  }

  /** A stronger password never gets a weaker label. */
  lemma LabelMonotone(a: nat, b: nat)
    requires a <= b
    ensures Rank(StrengthLabel(a)) <= Rank(StrengthLabel(b))
  {
  }

  /** The indicator: nothing for an empty password, else the label and the bar colour. */
  function Indicator(password: string): (shown: Option<(Label, Colour)>)
    ensures shown.None? <==> password == ""
    ensures shown.Some? ==> shown.value.0 == StrengthLabel(Strength(password))
    ensures shown.Some? ==> shown.value.1 == StrengthColour(Strength(password))
  {
    if password == "" then None
    else Some((StrengthLabel(Strength(password)), StrengthColour(Strength(password))))
  }

  /**
   * A password the schema accepts meets all four requirements of the
   * indicator when it holds no line terminator.
   */
  lemma AcceptedSingleLinePasswordIsStrong(form: Form, isEmail: string -> bool)
    requires Issues(form, isEmail) == []
    requires SingleLine(form.password)
    ensures Strength(form.password) == 4
    ensures StrengthLabel(Strength(form.password)) == Strong
  {
    var p := form.password;
    assert p[0..|p|] == p;
    assert RunAt(p, 0, |p|);
  }

  /**
   * Characters above the Basic Multilingual Plane take two code units each,
   * for the schema and for the indicator alike: this password of six
   * characters is accepted and scores 4.
   */
  lemma SurrogatePairsCountTwice()
    ensures PasswordAccepted("Ab1\U{1F600}\U{1F600}\U{1F600}")
    ensures Strength("Ab1\U{1F600}\U{1F600}\U{1F600}") == 4
  {
    var p := "Ab1\U{1F600}\U{1F600}\U{1F600}";
    assert IsUpper(p[0]) && IsLower(p[1]) && IsDigit(p[2]);
    assert Utf16Length(p[5..]) == 2 by {
      assert p[5..][0] as int >= 0x1_0000 && p[5..][1..] == [];
    }
    assert Utf16Length(p[4..]) == 4 by {
      assert p[4..][0] as int >= 0x1_0000 && p[4..][1..] == p[5..];
    }
    assert Utf16Length(p[3..]) == 6 by {
      assert p[3..][0] as int >= 0x1_0000 && p[3..][1..] == p[4..];
    }
    assert p[1..][1..] == p[2..] && p[2..][1..] == p[3..];
    assert Utf16Length(p) == 9;
    assert SingleLine(p);
    assert p[0..|p|] == p;
    assert RunAt(p, 0, |p|);
  }

  /**
   * `.` does not match a line terminator, while the schema counts every
   * character. A password field keeps U+2028 (it drops only carriage returns
   * and line feeds), so this password can be typed: it passes the schema and
   * scores 3.
   */
  lemma LineBreakLowersStrength(isEmail: string -> bool)
    requires isEmail("a@b.co")
    ensures Issues(Form("Ann", "a@b.co", "Abcdefg\U{2028}1", "Abcdefg\U{2028}1", true), isEmail) == []
    ensures Strength("Abcdefg\U{2028}1") == 3
  {
    LineBreakFormPasses(isEmail);
    LineBreakPasswordAccepted();
    NoEightUnitRun("Abcdefg\U{2028}1");
  }

  /** The form of `LineBreakLowersStrength` passes every rule of the schema. */
  lemma LineBreakFormPasses(isEmail: string -> bool)
    requires isEmail("a@b.co")
    ensures Issues(Form("Ann", "a@b.co", "Abcdefg\U{2028}1", "Abcdefg\U{2028}1", true), isEmail) == []
  {
    var form := Form("Ann", "a@b.co", "Abcdefg\U{2028}1", "Abcdefg\U{2028}1", true);
    assert 2 <= Utf16Length(form.name) <= 50 && |form.email| >= 1 && isEmail(form.email)
      && PasswordAccepted(form.password) && form.password == form.confirmation && form.terms
    by {
      Utf16LengthOfBmp("Ann");
      LineBreakPasswordAccepted();
    }
  }

  /** `Abcdefg`, U+2028, `1` is nine code units with an upper, a lower and a digit. */
  lemma LineBreakPasswordAccepted()
    ensures PasswordAccepted("Abcdefg\U{2028}1")
    ensures HasUpper("Abcdefg\U{2028}1") && HasLower("Abcdefg\U{2028}1") && HasDigit("Abcdefg\U{2028}1")
  {
    var p := "Abcdefg\U{2028}1";
    assert IsUpper(p[0]) && IsLower(p[1]) && IsDigit(p[8]);
    Utf16LengthOfBmp(p);
  }

  lemma NoEightUnitRun(p: string)
    requires p == "Abcdefg\U{2028}1"
    ensures !HasEightUnitRun(p)
  {
    forall i, j | 0 <= i <= j <= |p|
      ensures !RunAt(p, i, j)
    {
      Utf16LengthOfBmp(p[i..j]);
      if j - i >= 8 {
        assert p[i..j][7 - i] == '\U{2028}';
      }
    }
  }
}
