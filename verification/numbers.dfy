/** `parseFloat` on the decimal texts the storefront feeds it: leading white
    space is skipped, then an optional sign, then the longest prefix of the
    form `digits[.digits]` or `.digits`; no such prefix gives NaN (`None`). */
module Numbers {
  import opened Common

  predicate IsDigit(c: char) {
    '0' <= c <= '9'
  }

  /** The value of a decimal digit (0 for any other character). */
  function DigitValue(c: char): (d: nat)
    ensures d < 10
  {
    if IsDigit(c) then (c as int) - ('0' as int) else 0
  }

  predicate AllDigits(s: string) {
    forall i :: 0 <= i < |s| ==> IsDigit(s[i])
  }

  /** The value of a string of decimal digits read after the digits worth
      `acc` (0 for the empty string and `acc` 0). */
  function DigitsValueFrom(s: string, acc: nat): nat
  {
    if s == [] then acc else DigitsValueFrom(s[1..], acc * 10 + DigitValue(s[0]))
  }

  function DigitsValue(s: string): nat {
    DigitsValueFrom(s, 0)
  }

  /** The value of the digits after a decimal point: `0.d1d2...`. */
  function FractionValue(frac: string): (r: real)
    ensures 0.0 <= r < 1.0
  {
    if frac == [] then 0.0 else (DigitValue(frac[0]) as real + FractionValue(frac[1..])) / 10.0
  }

  /** The length of the run of digits at the head of `s`. */
  function LeadingDigits(s: string): (n: nat)
    ensures n <= |s|
    ensures n > 0 <==> s != [] && IsDigit(s[0])
  {
    if s != [] && IsDigit(s[0]) then LeadingDigits(s[1..]) + 1 else 0
  }

  /** The run is made of digits and stops at the first non-digit. */
  lemma {:induction false} LeadingDigitsSpec(s: string)
    ensures AllDigits(s[..LeadingDigits(s)])
    ensures LeadingDigits(s) < |s| ==> !IsDigit(s[LeadingDigits(s)])
  {
    if s != [] && IsDigit(s[0]) {
      LeadingDigitsSpec(s[1..]);
      var k := LeadingDigits(s[1..]);
      assert s[..k + 1] == [s[0]] + s[1..][..k];
    }
  }

  /** A number starts here: a digit, or a point followed by a digit. */
  predicate StartsNumber(u: string) {
    (|u| > 0 && IsDigit(u[0])) || (|u| >= 2 && u[0] == '.' && IsDigit(u[1]))
  }

  /** The value of the fraction `.digits` at the head of `rest`, if any. */
  function FractionAt(rest: string): real {
    if |rest| > 0 && rest[0] == '.' then
      var f := LeadingDigits(rest[1..]);
      FractionValue(rest[1..][..f])
    else 0.0
  }

  /** The value of the longest `digits[.digits]` or `.digits` prefix. */
  function UnsignedPrefix(u: string): (r: Option<real>)
    ensures r.Some? <==> StartsNumber(u)
  {
    var n := LeadingDigits(u);
    if n == 0 && !StartsNumber(u) then None
    else Some(DigitsValue(u[..n]) as real + FractionAt(u[n..]))
  }

  /** `parseFloat(s)`, with `None` for NaN. */
  function ParseFloat(s: string): (r: Option<real>)
    ensures var t := TrimStart(s);
      r.Some? <==>
        (if |t| > 0 && (t[0] == '-' || t[0] == '+') then StartsNumber(t[1..]) else StartsNumber(t))
  {
    var t := TrimStart(s);
    if |t| > 0 && t[0] == '-' then
      match UnsignedPrefix(t[1..])
      case Some(v) => Some(-v)
      case None => None
    else if |t| > 0 && t[0] == '+' then UnsignedPrefix(t[1..])
    else UnsignedPrefix(t)
  }

  /** A string of digits parses to the number it spells. */
  lemma ParseDigits(s: string)
    requires |s| > 0 && AllDigits(s)
    ensures ParseFloat(s) == Some(DigitsValue(s) as real)
  {
    ParseFloatUnsigned(s);
    UnsignedDigits(s);
  }

  /** `digits.digits` parses to the integer part plus the fraction, and
      parsing stops at the first character that cannot continue the
      fraction. */
  lemma ParseDecimal(a: string, b: string, t: string)
    requires |a| > 0 && AllDigits(a) && AllDigits(b)
    requires t == [] || !IsDigit(t[0])
    ensures ParseFloat(a + "." + b + t) == Some(DigitsValue(a) as real + FractionValue(b))
  {
    ParseFloatUnsigned(a + "." + b + t);
    UnsignedDecimal(a, b, t);
  }

  /** Text after the first non-number character is ignored. */
  lemma ParseStopsAtSeparator(a: string, c: char, t: string)
    requires |a| > 0 && AllDigits(a) && !IsDigit(c) && c != '.'
    ensures ParseFloat(a + [c] + t) == Some(DigitsValue(a) as real)
  {
    ParseFloatUnsigned(a + [c] + t);
    UnsignedStops(a, c, t);
  }

  lemma ParseFloatUnsigned(s: string)
    requires |s| > 0 && IsDigit(s[0])
    ensures ParseFloat(s) == UnsignedPrefix(s)
  {
    assert TrimStart(s) == s;
  }

  lemma UnsignedDigits(s: string)
    requires |s| > 0 && AllDigits(s)
    ensures UnsignedPrefix(s) == Some(DigitsValue(s) as real)
  {
    LeadingDigitsOfDigits(s);
    assert s[..|s|] == s;
  }

  lemma UnsignedDecimal(a: string, b: string, t: string)
    requires |a| > 0 && AllDigits(a) && AllDigits(b)
    requires t == [] || !IsDigit(t[0])
    ensures UnsignedPrefix(a + "." + b + t) == Some(DigitsValue(a) as real + FractionValue(b))
  {
    DecimalLayout(a, b, t);
    FractionAfterPoint(b, t);
    UnsignedUnfold(a + "." + b + t, a, "." + (b + t));
  }

  /** Where the parts of `a.bt` sit. */
  lemma DecimalLayout(a: string, b: string, t: string)
    requires AllDigits(a)
    ensures var s := a + "." + b + t;
      LeadingDigits(s) == |a| && s[..|a|] == a && s[|a|..] == "." + (b + t)
  {
    var s := a + "." + b + t;
    assert s == a + ("." + (b + t));
    LeadingDigitsStops(a, "." + (b + t));
  }

  /** One step of `UnsignedPrefix` on a text split after its digit run. */
  lemma UnsignedUnfold(u: string, digits: string, rest: string)
    requires |digits| > 0 && LeadingDigits(u) == |digits| && u[..|digits|] == digits && u[|digits|..] == rest
    ensures UnsignedPrefix(u) == Some(DigitsValue(digits) as real + FractionAt(rest))
  {
  }

  lemma FractionAfterPoint(b: string, t: string)
    requires AllDigits(b)
    requires t == [] || !IsDigit(t[0])
    ensures FractionAt("." + (b + t)) == FractionValue(b)
  {
    assert ("." + (b + t))[1..] == b + t;
    LeadingDigitsStops(b, t);
    assert (b + t)[..|b|] == b;
  }

  lemma UnsignedStops(a: string, c: char, t: string)
    requires |a| > 0 && AllDigits(a) && !IsDigit(c) && c != '.'
    ensures UnsignedPrefix(a + [c] + t) == Some(DigitsValue(a) as real)
  {
    var s := a + [c] + t;
    assert s == a + ([c] + t);
    LeadingDigitsStops(a, [c] + t);
    assert s[..|a|] == a;
    assert s[|a|..][0] == c;
  }

  lemma {:induction false} LeadingDigitsOfDigits(s: string)
    requires AllDigits(s)
    ensures LeadingDigits(s) == |s|
  {
    if s != [] {
      LeadingDigitsOfDigits(s[1..]);
    }
  }

  lemma {:induction false} LeadingDigitsStops(a: string, t: string)
    requires AllDigits(a) && (t == [] || !IsDigit(t[0]))
    ensures LeadingDigits(a + t) == |a|
  {
    if a != [] {
      assert (a + t)[1..] == a[1..] + t;
      LeadingDigitsStops(a[1..], t);
    } else {
      assert a + t == t;
    }
  }
}
