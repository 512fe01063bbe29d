/**
 * The dashboard's bill-form checks (`addBill` in
 * client/src/components/dashboard/Dashboard.js): each regular expression is a
 * predicate on the field, and `Validate` runs the checks in the code's order
 * and reports the first that fails.
 */
module Validation {
  import opened Text
  import opened Records

  /** `/^[A-Za-z\s]{3,}$/` */
  predicate NamePattern(s: string)
  {
    |s| >= 3 && forall i :: 0 <= i < |s| ==> IsAsciiLetter(s[i]) || IsJsWhitespace(s[i])
  }

  /** `/^\d{10}$/`; in JavaScript `\d` is the ten ASCII digits. */
  predicate ContactPattern(s: string)
  {
    |s| == 10 && AllDigits(s)
  }

  /** One character of the class `[a-zA-Z0-9._%+-]`. */
  predicate IsLocalChar(c: char)
  {
    IsAsciiLetter(c) || IsDigit(c) || c == '.' || c == '_' || c == '%' || c == '+' || c == '-'
  }

  const GmailSuffix: string := "@gmail.com"

  /** `/^[a-zA-Z0-9._%+-]+@gmail\.com$/`: a non-empty local part followed by
      the suffix, matched case-sensitively. */
  predicate EmailPattern(s: string)
  {
    && |s| > |GmailSuffix|
    && s[|s| - |GmailSuffix|..] == GmailSuffix
    && forall i :: 0 <= i < |s| - |GmailSuffix| ==> IsLocalChar(s[i])
  }

  /** `/^\d+$/.test(amount) && !(Number(amount) <= 0)`. For a string of
      decimal digits `Number` gives its value, rounded to a double, and the
      rounding of a positive integer is positive. */
  predicate AmountPattern(s: string)
  {
    s != [] && AllDigits(s) && Value(s) > 0
  }

  /** What `addBill` concludes about a form. */
  datatype Verdict = Accepted | MissingField | BadName | BadContact | BadEmail | BadAmount

  /** The text shown for each failure: an alert for a missing field, the
      inline error message for the four format checks. */
  function Message(v: Verdict): string
  {
    match v
    case Accepted => ""
    case MissingField => "Please fill in all fields"
    case BadName => "Name must be filled"
    case BadContact => "Contact must be exactly 10 digits"
    case BadEmail => "Email must be a valid @gmail.com address"
    case BadAmount => "Amount must not be empty"
  }

  /** The checks of `addBill` in their order: all fields present, then name,
      contact, email and amount. */
  function Validate(f: Form): (v: Verdict)
    ensures v == Accepted <==>
      f.AllFilled() && NamePattern(f.name) && ContactPattern(f.contact)
      && EmailPattern(f.email) && AmountPattern(f.amount)
    ensures v == MissingField <==> !f.AllFilled()
    ensures v == BadName <==> f.AllFilled() && !NamePattern(f.name)
    ensures v == BadContact <==> f.AllFilled() && NamePattern(f.name) && !ContactPattern(f.contact)
    ensures v == BadEmail <==>
      f.AllFilled() && NamePattern(f.name) && ContactPattern(f.contact) && !EmailPattern(f.email)
    ensures v == BadAmount <==>
      f.AllFilled() && NamePattern(f.name) && ContactPattern(f.contact)
      && EmailPattern(f.email) && !AmountPattern(f.amount)
  {
    if !f.AllFilled() then MissingField
    else if !NamePattern(f.name) then BadName
    else if !ContactPattern(f.contact) then BadContact
    else if !EmailPattern(f.email) then BadEmail
    else if !AmountPattern(f.amount) then BadAmount
    else Accepted
  }

  /** The position of a format rule in the order `addBill` runs them. */
  function RuleOf(v: Verdict): nat
  {
    match v
    case BadName => 1
    case BadContact => 2
    case BadEmail => 3
    case BadAmount => 4
    case _ => 0
  }

  /** The position of the rule that examines a field. */
  function RankOf(field: FieldName): nat
  {
    match field
    case Name => 1
    case Contact => 2
    case Email => 3
    case Amount => 4
  }

  /** Once a format rule fails, the fields of the later rules are never
      examined: editing one of them (to anything non-empty) keeps the verdict. */
  lemma LaterFieldsAreNotExamined(f: Form, field: FieldName, value: string)
    requires RuleOf(Validate(f)) > 0
    requires RankOf(field) > RuleOf(Validate(f)) && value != ""
    ensures Validate(f.With(field, value)) == Validate(f)
  {
  }

  function Occurrences(c: char, s: string): (n: nat)
    ensures n <= |s|
  {
    if s == [] then 0 else (if s[0] == c then 1 else 0) + Occurrences(c, s[1..])
  }

  lemma {:induction false} OccurrencesAppend(c: char, a: string, b: string)
    ensures Occurrences(c, a + b) == Occurrences(c, a) + Occurrences(c, b)
  {
    if a != [] {
      assert (a + b)[1..] == a[1..] + b;
      OccurrencesAppend(c, a[1..], b);
    } else {
      assert a + b == b;
    }
  }

  lemma {:induction false} NoOccurrences(c: char, s: string)
    requires forall i :: 0 <= i < |s| ==> s[i] != c
    ensures Occurrences(c, s) == 0
  {
    if s != [] {
      NoOccurrences(c, s[1..]);
    }
  }

  /** An address passes iff it is a non-empty local part over
      `[a-zA-Z0-9._%+-]` followed by exactly "@gmail.com". */
  lemma EmailPatternIff(s: string)
    ensures EmailPattern(s) <==>
      exists k :: 0 < k < |s| && s == s[..k] + GmailSuffix
        && forall i :: 0 <= i < k ==> IsLocalChar(s[i])
  {
    if EmailPattern(s) {
      var k := |s| - |GmailSuffix|;
      assert s == s[..k] + GmailSuffix;
    }
  }

  /** A passing address contains exactly one '@'. */
  lemma EmailHasOneAt(s: string)
    requires EmailPattern(s)
    ensures Occurrences('@', s) == 1
  {
    var k := |s| - |GmailSuffix|;
    assert s == s[..k] + GmailSuffix;
    NoOccurrences('@', s[..k]);
    OccurrencesAppend('@', s[..k], GmailSuffix);
    assert Occurrences('@', GmailSuffix) == 1;
  }

  /** An amount passes iff it is a non-empty string of decimal digits that
      are not all zeros. */
  lemma AmountPatternIff(s: string)
    ensures AmountPattern(s) <==>
      s != [] && AllDigits(s) && exists i :: 0 <= i < |s| && s[i] != '0'
  {
    if AllDigits(s) {
      ValuePositiveIff(s);
    }
  }

  /** Inputs each rule accepts or rejects. */
  lemma RuleExamples()
    ensures !NamePattern("Jo") && NamePattern("John Doe") && NamePattern("   ")
    ensures !ContactPattern("12345") && ContactPattern("1234567890")
    ensures !EmailPattern("a@b.com") && EmailPattern("a@gmail.com")
    ensures !AmountPattern("0") && !AmountPattern("-5") && !AmountPattern("1.5")
    ensures AmountPattern("150")
  {
    assert "1234567890"[..9] == "123456789";
    assert "a@gmail.com"[1..] == GmailSuffix;
    assert !IsDigit("-5"[0]) && !IsDigit("1.5"[1]);
    assert Value("150") == 150 by {
      assert "150"[..2] == "15" && "15"[..1] == "1" && "1"[..0] == "";
    }
  }

  /** A form `Validate` accepts has a ten-digit contact, a single '@' in the
      address and an amount the chart reads as a positive number. */
  lemma AcceptedFormIsWellFormed(f: Form)
    requires Validate(f) == Accepted
    ensures |f.name| >= 3 && |f.contact| == 10 && Occurrences('@', f.email) == 1
    ensures ParseAmount(f.amount) == Value(f.amount) > 0
  {
    EmailHasOneAt(f.email);
    ParseAmountOfDigits(f.amount);
  }
}
