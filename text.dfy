/**
 * Characters and decimal numerals as the browser and the server see them.
 *
 * JavaScript strings are sequences of UTF-16 code units and Dafny strings are
 * sequences of Unicode scalar values. Every character class used by the
 * modelled code (ASCII letters and digits, the JavaScript white-space set) is
 * made of Basic Multilingual Plane characters, so the two readings agree on
 * every test below.
 */
module Text {

  predicate IsDigit(c: char) { '0' <= c <= '9' }

  predicate IsAsciiLetter(c: char) { 'A' <= c <= 'Z' || 'a' <= c <= 'z' }

  /** The class `\s` of a JavaScript regular expression, which is also the set
      of characters `parseFloat` skips at the start of its argument: the
      ECMAScript WhiteSpace and LineTerminator productions. */
  predicate IsJsWhitespace(c: char)
  {
    || c == '\t' || c == '\n' || c == '\U{000B}' || c == '\U{000C}' || c == '\r'
    || c == ' ' || c == '\U{00A0}' || c == '\U{1680}'
    || ('\U{2000}' <= c <= '\U{200A}')
    || c == '\U{2028}' || c == '\U{2029}' || c == '\U{202F}' || c == '\U{205F}'
    || c == '\U{3000}' || c == '\U{FEFF}'
  }

  predicate AllDigits(s: string) { forall i :: 0 <= i < |s| ==> IsDigit(s[i]) }

  function DigitValue(c: char): (d: nat)
    requires IsDigit(c)
    ensures d < 10
  {
    c as int - '0' as int
  }

  function DigitChar(d: nat): (c: char)
    requires d < 10
    ensures IsDigit(c) && DigitValue(c) == d
  {
    ('0' as int + d) as char
  }

  /** The number a string of decimal digits denotes, most significant digit first. */
  function Value(s: string): nat
    requires AllDigits(s)
  {
    if s == [] then 0 else Value(s[..|s| - 1]) * 10 + DigitValue(s[|s| - 1])
  }

  /** The decimal numeral of a non-negative integer without leading zeros, as
      JavaScript's template literals and Python's `str` write it. */
  function Show(n: nat): (s: string)
    ensures 1 <= |s| && AllDigits(s)
    ensures |s| > 1 ==> s[0] != '0'
  {
    if n < 10 then [DigitChar(n)] else Show(n / 10) + [DigitChar(n % 10)]
  }

  /** Reading back a written numeral gives the number written. */
  lemma {:induction false} ValueOfShow(n: nat)
    ensures Value(Show(n)) == n
  {
    if n >= 10 {
      var s := Show(n);
      assert s[..|s| - 1] == Show(n / 10);
      ValueOfShow(n / 10);
    }
  }

  /** A digit string denotes a positive number iff some digit is not '0'. */
  lemma {:induction false} ValuePositiveIff(s: string)
    requires AllDigits(s)
    ensures Value(s) > 0 <==> exists i :: 0 <= i < |s| && s[i] != '0'
  {
    if s != [] {
      var p := s[..|s| - 1];
      ValuePositiveIff(p);
      if Value(s) > 0 && s[|s| - 1] == '0' {
        var i :| 0 <= i < |p| && p[i] != '0';
        assert s[i] != '0';
      }
      if exists i :: 0 <= i < |s| && s[i] != '0' {
        var i :| 0 <= i < |s| && s[i] != '0';
        if i < |s| - 1 {
          assert p[i] != '0';
        }
      }
    }
  }

  function Pow10(n: nat): (p: nat)
    ensures p >= 1
  {
    if n == 0 then 1 else 10 * Pow10(n - 1)
  }

  /** `Value` read from the most significant digit: the first digit weighs
      ten to the number of digits after it. */
  lemma {:induction false} ValueFront(s: string)
    requires AllDigits(s) && s != []
    ensures Value(s) == DigitValue(s[0]) * Pow10(|s| - 1) + Value(s[1..])
  {
    var n := |s|;
    if n == 1 {
      assert s[..0] == [] && s[1..] == [];
    } else {
      var p, last := s[..n - 1], DigitValue(s[n - 1]);
      assert p[0] == s[0] && AllDigits(p) && AllDigits(s[1..]);
      ValueFront(p);
      var d, weight, tail := DigitValue(s[0]), Pow10(n - 2), Value(p[1..]);
      assert Value(s) == Value(p) * 10 + last;
      assert s[1..][..n - 2] == p[1..];
      assert Value(s[1..]) == tail * 10 + last;
      assert Pow10(n - 1) == 10 * weight;
      TimesTenDistributes(d, weight, tail);
    }
  }

  lemma TimesTenDistributes(a: int, b: int, c: int)
    ensures (a * b + c) * 10 == a * (10 * b) + c * 10
  {
  }

  /** The digits `s` starts with, read from left to right onto `acc` (a
      running value times ten plus the next digit); reading stops at the first
      character that is not a digit. */
  function LeadingValue(s: string, acc: nat): nat
  {
    if s != [] && IsDigit(s[0]) then LeadingValue(s[1..], acc * 10 + DigitValue(s[0])) else acc
  }

  /** Reading a whole digit string shifts `acc` left by its length and adds its value. */
  lemma {:induction false} LeadingValueOfDigits(s: string, acc: nat)
    requires AllDigits(s)
    ensures LeadingValue(s, acc) == acc * Pow10(|s|) + Value(s)
  {
    if s != [] {
      var d, weight := DigitValue(s[0]), Pow10(|s| - 1);
      assert AllDigits(s[1..]);
      LeadingValueOfDigits(s[1..], acc * 10 + d);
      ValueFront(s);
      assert LeadingValue(s, acc) == (acc * 10 + d) * weight + Value(s[1..]);
      assert Pow10(|s|) == 10 * weight;
      ShiftDistributes(acc, d, weight);
    }
  }

  lemma ShiftDistributes(a: int, b: int, c: int)
    ensures (a * 10 + b) * c == a * (10 * c) + b * c
  {
  }

  /** Reading stops at the first non-digit: what follows it is never read. */
  lemma {:induction false} LeadingValueStops(s: string, t: string, acc: nat)
    requires AllDigits(s) && (t == [] || !IsDigit(t[0]))
    ensures LeadingValue(s + t, acc) == acc * Pow10(|s|) + Value(s)
  {
    if s == [] {
      assert s + t == t;
    } else {
      var d := DigitValue(s[0]);
      assert (s + t)[1..] == s[1..] + t;
      LeadingValueStops(s[1..], t, acc * 10 + d);
      LeadingValueOfDigits(s, acc);
      LeadingValueOfDigits(s[1..], acc * 10 + d);
    }
  }

  /** The number of decimal digits `s` starts with. */
  function DigitRun(s: string): (n: nat)
    ensures n <= |s| && AllDigits(s[..n])
    ensures n < |s| ==> !IsDigit(s[n])
  {
    if s == [] || !IsDigit(s[0]) then 0 else 1 + DigitRun(s[1..])
  }

  /** The digit run of a digit string followed by a non-digit is that string. */
  lemma {:induction false} DigitRunStops(s: string, t: string)
    requires AllDigits(s) && (t == [] || !IsDigit(t[0]))
    ensures DigitRun(s + t) == |s|
  {
    if s == [] {
      assert s + t == t;
    } else {
      assert (s + t)[1..] == s[1..] + t;
      DigitRunStops(s[1..], t);
    }
  }
}
