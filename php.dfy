/** The two pieces of PHP value semantics the client leans on when it reads a
    vendor return code: the loose `==` that a `switch` uses to compare the
    code string with each `case` label, and the `(int)` cast applied to the
    code before the integer switches. */
module Php {

  predicate IsDigit(c: char) {
    '0' <= c <= '9'
  }

  predicate AllDigits(s: string) {
    forall i :: 0 <= i < |s| ==> IsDigit(s[i])
  }

  /** A non-empty string of decimal digits: the numeric strings this model
      recognises. */
  predicate IsDigits(s: string) {
    |s| > 0 && AllDigits(s)
  }

  /** The number a string of decimal digits denotes; the empty string denotes 0. */
  function DigitsValue(s: string): nat
    requires AllDigits(s)
  {
    if s == [] then 0 else DigitsValue(s[..|s| - 1]) * 10 + (s[|s| - 1] as int - '0' as int)
  }

  /** Leading zeros do not change the number a digit string denotes, which is
      why PHP treats "0" and "000" as the same code. */
  lemma {:induction false} LeadingZeroIgnored(s: string)
    requires AllDigits(s)
    ensures AllDigits(['0'] + s) && DigitsValue(['0'] + s) == DigitsValue(s)
    ensures IsDigits(s) ==> LooseEquals(['0'] + s, s)
  {
    var z := ['0'] + s;
    assert AllDigits(z) by {
      forall i | 0 <= i < |z| ensures IsDigit(z[i]) {
        if i > 0 { assert z[i] == s[i - 1]; }
      }
    }
    if s != [] {
      var init := s[..|s| - 1];
      assert z[..|z| - 1] == ['0'] + init;
      assert z[|z| - 1] == s[|s| - 1];
      LeadingZeroIgnored(init);
    }
  }

  /** A digit string denotes a number below 10^|s|; so strings of equal
      length denote equal numbers only when they are equal. */
  lemma {:induction false} DigitsValueInjective(s: string, t: string)
    requires AllDigits(s) && AllDigits(t) && |s| == |t|
    requires DigitsValue(s) == DigitsValue(t)
    ensures s == t
  {
    if s != [] {
      var n := |s|;
      var ds := s[n - 1] as int - '0' as int;
      var dt := t[n - 1] as int - '0' as int;
      assert IsDigit(s[n - 1]) && IsDigit(t[n - 1]);
      assert DigitsValue(s[..n - 1]) * 10 + ds == DigitsValue(t[..n - 1]) * 10 + dt;
      assert ds == dt;
      DigitsValueInjective(s[..n - 1], t[..n - 1]);
      assert s == s[..n - 1] + [s[n - 1]];
      assert t == t[..n - 1] + [t[n - 1]];
    }
  }

  /** PHP's loose `==` on two strings, as a `switch` applies it: two numeric
      strings compare as numbers, anything else compares character by
      character. */
  function LooseEquals(a: string, b: string): (r: bool)
    ensures a == b ==> r
    ensures r && !(IsDigits(a) && IsDigits(b)) ==> a == b
    ensures |a| == |b| ==> (r <==> a == b)
    ensures IsDigits(a) && IsDigits(b) ==> (r <==> DigitsValue(a) == DigitsValue(b))
  {
    if IsDigits(a) && IsDigits(b) then
      if |a| == |b| && DigitsValue(a) == DigitsValue(b) then
        DigitsValueInjective(a, b);
        true
      else
        DigitsValue(a) == DigitsValue(b)
    else
      a == b
  }

  predicate IsBlank(c: char) {
    c == ' ' || c == '\t' || c == '\n' || c == '\r' || c as int == 11 || c as int == 12
  }

  /** `s` without its leading whitespace. */
  function TrimStart(s: string): (t: string)
    ensures |t| <= |s| && t == s[|s| - |t|..]
    ensures t != [] ==> !IsBlank(t[0])
    ensures forall i :: 0 <= i < |s| - |t| ==> IsBlank(s[i])
  {
    if s != [] && IsBlank(s[0]) then TrimStart(s[1..]) else s
  }

  /** The longest prefix of `s` made of decimal digits. */
  function DigitPrefix(s: string): (p: string)
    ensures AllDigits(p) && p <= s
    ensures |p| < |s| ==> !IsDigit(s[|p|])
  {
    if s == [] || !IsDigit(s[0]) then [] else [s[0]] + DigitPrefix(s[1..])
  }

  /** PHP's `(int)` cast of a string: leading whitespace is skipped, an
      optional sign is read, then the longest run of digits; a string with
      no leading digits casts to 0. */
  function IntCast(s: string): (n: int)
    ensures var t := TrimStart(s);
      t == [] || !(IsDigit(t[0]) || t[0] == '-' || t[0] == '+') ==> n == 0
    ensures n < 0 ==> TrimStart(s) != [] && TrimStart(s)[0] == '-'
    ensures IsDigits(s) ==> n == DigitsValue(s)
  {
    DigitPrefixOfDigits(s);
    assert IsDigits(s) ==> !IsBlank(s[0]) && TrimStart(s) == s;
    var t := TrimStart(s);
    if t != [] && t[0] == '-' then -(DigitsValue(DigitPrefix(t[1..])) as int)
    else if t != [] && t[0] == '+' then DigitsValue(DigitPrefix(t[1..]))
    else DigitsValue(DigitPrefix(t))
  }

  /** A string of digits is its own longest digit prefix. */
  lemma {:induction false} DigitPrefixOfDigits(s: string)
    ensures AllDigits(s) ==> DigitPrefix(s) == s
  {
    if AllDigits(s) && s != [] {
      DigitPrefixOfDigits(s[1..]);
      assert s == [s[0]] + s[1..];
    }
  }

  /** Text that starts with a letter or other non-digit that is neither
      blank nor a sign casts to 0: "RV" becomes 0. */
  lemma IntCastWithoutDigits(s: string)
    requires s != [] && !IsDigit(s[0]) && !IsBlank(s[0]) && s[0] != '-' && s[0] != '+'
    ensures IntCast(s) == 0
  {
  }
}
