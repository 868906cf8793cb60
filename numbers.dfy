/**
 * Python's `int(s)` and `float(s)` on decimal literals: surrounding whitespace is
 * ignored, an optional sign is read, then digits (for `float`, with an optional
 * fractional part).  Values are exact: `int` for `int()`, `real` for `float()`.
 */
module Numbers {
  import opened Wrappers
  import opened Strings

  function Pow10(n: nat): (r: nat)
    ensures r >= 1
  {
    if n == 0 then 1 else 10 * Pow10(n - 1)
  }

  /** The value of the decimal literal `ip.fp` (either part may be empty). */
  function DecimalValue(ip: string, fp: string): real
    requires AllDigits(ip) && AllDigits(fp)
  {
    DigitsValue(ip) as real + DigitsValue(fp) as real / Pow10(|fp|) as real
  }

  /** Splits an optional leading sign off a literal: whether it is negative, and the rest. */
  function SignAndBody(t: string): (bool, string) {
    if |t| > 0 && (t[0] == '-' || t[0] == '+') then (t[0] == '-', t[1..]) else (false, t)
  }

  /** `int(s)`: `None` where Python raises `ValueError`. */
  function ParseInt(s: string): Option<int> {
    var (neg, body) := SignAndBody(Strip(s));
    if |body| > 0 && AllDigits(body) then
      Some(if neg then -(DigitsValue(body) as int) else DigitsValue(body) as int)
    else None
  }

  /** `float(s)` on literals of the form `[sign]digits[.digits]`: `None` where Python raises `ValueError`. */
  function ParseFloat(s: string): Option<real> {
    var (neg, body) := SignAndBody(Strip(s));
    var parts := Split(body, ".");
    var magnitude :=
      if |parts| == 1 && |body| > 0 && AllDigits(body) then Some(DigitsValue(body) as real)
      else if |parts| == 2 && AllDigits(parts[0]) && AllDigits(parts[1]) && |parts[0]| + |parts[1]| > 0
      then Some(DecimalValue(parts[0], parts[1]))
      else None;
    match magnitude
    case None => None
    case Some(m) => Some(if neg then -m else m)
  }

  lemma DigitsNotSpace(ds: string)
    requires AllDigits(ds)
    ensures forall k :: 0 <= k < |ds| ==> !IsSpace(ds[k])
  {
  }

  /** A non-empty digit string reads as the number it spells. */
  lemma ParseIntDigits(ds: string)
    requires |ds| > 0 && AllDigits(ds)
    ensures ParseInt(ds) == Some(DigitsValue(ds) as int)
  {
    DigitsNotSpace(ds);
    StripUnchanged(ds);
  }

  /** A minus sign followed by a non-empty digit string reads as the negated number. */
  lemma ParseIntNegative(ds: string)
    requires |ds| > 0 && AllDigits(ds)
    ensures ParseInt("-" + ds) == Some(-(DigitsValue(ds) as int))
  {
    var s := "-" + ds;
    assert s[0] == '-' && s[|s| - 1] == ds[|ds| - 1];
    StripUnchanged(s);
    assert s[1..] == ds;
  }

  /** `int` reads back what `str` writes for every integer. */
  lemma ParseIntRoundTrip(i: int)
    ensures ParseInt(IntToString(i)) == Some(i)
  {
    if i < 0 {
      ParseIntNegative(NatToString(-i));
    } else {
      ParseIntDigits(NatToString(i));
    }
  }

  /** `float` on an unsigned literal without surrounding blanks that splits on the point into two digit runs. */
  lemma ParseFloatTwoParts(s: string, ip: string, fp: string)
    requires Strip(s) == s && SignAndBody(s) == (false, s) && Split(s, ".") == [ip, fp]
    requires AllDigits(ip) && AllDigits(fp) && |ip| + |fp| > 0
    ensures ParseFloat(s) == Some(DecimalValue(ip, fp))
  {
  }

  /** A literal `ip.fp` with at least one digit reads as its decimal value. */
  lemma ParseFloatDecimal(ip: string, fp: string)
    requires AllDigits(ip) && AllDigits(fp) && |ip| + |fp| > 0
    ensures ParseFloat(ip + "." + fp) == Some(DecimalValue(ip, fp))
  {
    var s := ip + "." + fp;
    forall k | 0 <= k < |s| ensures !IsSpace(s[k]) && s[k] != '-' && s[k] != '+' {
      if k < |ip| { assert s[k] == ip[k]; }
      else if k > |ip| { assert s[k] == fp[k - |ip| - 1]; }
    }
    StripUnchanged(s);
    assert SignAndBody(s) == (false, s);
    JoinCons(ip, [fp], ".");
    assert '.' !in ip && '.' !in fp;
    SplitJoin([ip, fp], '.');
    ParseFloatTwoParts(s, ip, fp);
  }
}
