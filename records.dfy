/**
 * The client's records: the four-field bill form both views keep in
 * `formData`, and a billing record as the views receive it from `get_bills`.
 */
module Records {
  import opened Wrappers
  import opened Text

  /** One of the four inputs of the form; `e.target.name` in `handleChange`. */
  datatype FieldName = Name | Contact | Email | Amount

  /** The form's `formData` object. Every input yields a string. */
  datatype Form = Form(name: string, contact: string, email: string, amount: string)
  {
    function Get(field: FieldName): string
    {
      match field
      case Name => name
      case Contact => contact
      case Email => email
      case Amount => amount
    }

    /** `{ ...formData, [field]: value }`: the named field takes the new value
        and the other three keep theirs. */
    function With(field: FieldName, value: string): (f: Form)
      ensures f.Get(field) == value
      ensures forall other :: other != field ==> f.Get(other) == Get(other)
    {
      match field
      case Name => this.(name := value)
      case Contact => this.(contact := value)
      case Email => this.(email := value)
      case Amount => this.(amount := value)
    }

    /** No field is the empty string, the only falsy string in JavaScript. */
    predicate AllFilled()
    {
      name != "" && contact != "" && email != "" && amount != ""
    }
  }

  /** JavaScript truthiness of the views' `editingBillId`: `null` and the
      id 0 are falsy. */
  predicate IsEditing(editing: Option<nat>)
  {
    editing.Some? && editing.value != 0
  }

  /** `{ name: "", contact: "", email: "", amount: "" }` */
  const EmptyForm := Form("", "", "", "")

  /** A billing record from the server; its `date` only feeds the display. */
  datatype Bill = Bill(id: nat, name: string, contact: string, email: string, amount: string)
  {
    /** The form the Edit button copies this record into. */
    function AsForm(): (f: Form)
      ensures f.name == name && f.contact == contact && f.email == email && f.amount == amount
    {
      Form(name, contact, email, amount)
    }
  }

  /** Two forms that agree on every field are the same form. */
  lemma {:induction false} FormsAgreeingOnFieldsAreEqual(f: Form, g: Form)
    requires forall field :: f.Get(field) == g.Get(field)
    ensures f == g
  {
    assert f.Get(Name) == g.Get(Name) && f.Get(Contact) == g.Get(Contact);
    assert f.Get(Email) == g.Get(Email) && f.Get(Amount) == g.Get(Amount);
  }

  /** Changing a field and changing it back restores the form. */
  lemma {:induction false} WithOwnValueIsIdentity(f: Form, field: FieldName)
    ensures f.With(field, f.Get(field)) == f
  {
    FormsAgreeingOnFieldsAreEqual(f.With(field, f.Get(field)), f);
  }

  /**
   * `parseFloat(amount) || 0` read as an integer: leading white space is
   * skipped, an optional sign is read, then the longest run of decimal digits.
   * Without any digit the result is NaN, and `NaN || 0` is 0; `-0 || 0` is 0 as well.
   */
  function ParseAmount(s: string): int
  {
    if s != [] && IsJsWhitespace(s[0]) then ParseAmount(s[1..]) else ParseSigned(s)
  }

  /** The sign and digits part of `ParseAmount`, after the white space. */
  function ParseSigned(t: string): int
  {
    if t != [] && t[0] == '-' then -(LeadingValue(t[1..], 0) as int)
    else if t != [] && t[0] == '+' then LeadingValue(t[1..], 0)
    else LeadingValue(t, 0)
  }

  /** A string of decimal digits parses to the number it denotes. */
  lemma ParseAmountOfDigits(s: string)
    requires AllDigits(s)
    ensures ParseAmount(s) == Value(s)
  {
    LeadingValueOfDigits(s, 0);
  }

  /** `parseFloat` skips white space at the start of its argument. */
  lemma {:induction false} ParseAmountSkipsWhitespace(pad: string, t: string)
    requires forall i :: 0 <= i < |pad| ==> IsJsWhitespace(pad[i])
    ensures ParseAmount(pad + t) == ParseAmount(t)
  {
    if pad != [] {
      assert IsJsWhitespace(pad[0]) && (pad + t)[0] == pad[0] && (pad + t)[1..] == pad[1..] + t;
      assert ParseAmount(pad + t) == ParseAmount(pad[1..] + t);
      ParseAmountSkipsWhitespace(pad[1..], t);
    } else {
      assert pad + t == t;
    }
  }

  /** White space before the amount does not change it, a minus sign negates
      it, and a suffix that does not start with a digit, '.', 'e' or 'E' (a
      unit, say) is not read. */
  lemma {:induction false} ParseAmountPadded(pad: string, digits: string, rest: string, negative: bool)
    requires forall i :: 0 <= i < |pad| ==> IsJsWhitespace(pad[i])
    requires digits != [] && AllDigits(digits)
    requires rest == [] || !(IsDigit(rest[0]) || rest[0] == '.' || rest[0] == 'e' || rest[0] == 'E')
    ensures ParseAmount(pad + (if negative then "-" else "") + digits + rest)
         == if negative then -(Value(digits) as int) else Value(digits)
  {
    var t := (if negative then "-" else "") + digits + rest;
    assert pad + (if negative then "-" else "") + digits + rest == pad + t;
    ParseAmountSkipsWhitespace(pad, t);
    LeadingValueStops(digits, rest, 0);
    assert IsDigit(digits[0]);
    if negative {
      assert t[0] == '-' && t[1..] == digits + rest;
    } else {
      assert t == digits + rest && t[0] == digits[0];
    }
  }

  /** Text without any decimal digit parses to 0 (`NaN || 0`). */
  lemma {:induction false} ParseAmountWithoutDigits(s: string)
    requires forall i :: 0 <= i < |s| ==> !IsDigit(s[i])
    ensures ParseAmount(s) == 0
  {
    if s != [] && IsJsWhitespace(s[0]) {
      ParseAmountWithoutDigits(s[1..]);
    } else if s != [] && (s[0] == '-' || s[0] == '+') {
      assert s[1..] == [] || !IsDigit(s[1..][0]);
    }
  }

  /** Amounts that parse to their values; text without digits parses to 0. */
  lemma AmountExamples()
    ensures ParseAmount("100") == 100 && ParseAmount("250") == 250
    ensures ParseAmount("") == 0 && ParseAmount("abc") == 0
  {
    assert "100"[1..] == "00" && "00"[1..] == "0" && "0"[1..] == "";
    assert LeadingValue("0", 10) == 100;
    assert LeadingValue("00", 1) == 100;
    assert "250"[1..] == "50" && "50"[1..] == "0";
    assert LeadingValue("0", 25) == 250;
    assert LeadingValue("50", 2) == 250;
  }
}
