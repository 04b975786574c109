/**
 * Text: the byte and number handling the client borrows from Go's standard
 * library (bytes.TrimSpace, the %d and %f verbs of fmt's scanner, strconv.Atoi,
 * strconv.ParseFloat on plain decimals, and the %d verb of fmt.Sprintf).
 *
 * Decimals are exact: a decimal is a mantissa and a count of fraction digits,
 * never an IEEE double.
 */
module Text {

  /** A byte read from a UDP socket. */
  type Byte = x: int | 0 <= x < 256

  /** The range of Go's `int` on the 64-bit platforms the client targets. */
  const MinInt64: int := -0x8000_0000_0000_0000
  const MaxInt64: int := 0x7FFF_FFFF_FFFF_FFFF
  type Int64 = x: int | MinInt64 <= x <= MaxInt64

  // ---------------------------------------------------------------------------
  // Bytes and strings
  // ---------------------------------------------------------------------------

  /** The ASCII white space that bytes.TrimSpace removes: \t \n \v \f \r and space. */
  predicate IsSpaceByte(b: Byte) {
    b == 32 || (9 <= b <= 13)
  }

  function LeadingSpaces(b: seq<Byte>): (n: nat)
    ensures n <= |b|
    ensures forall k :: 0 <= k < n ==> IsSpaceByte(b[k])
    ensures n < |b| ==> !IsSpaceByte(b[n])
  {
    if b == [] || !IsSpaceByte(b[0]) then 0 else 1 + LeadingSpaces(b[1..])
  }

  function TrailingSpaces(b: seq<Byte>): (n: nat)
    ensures n <= |b|
    ensures forall k :: |b| - n <= k < |b| ==> IsSpaceByte(b[k])
    ensures n < |b| ==> !IsSpaceByte(b[|b| - 1 - n])
  {
    if b == [] || !IsSpaceByte(b[|b| - 1]) then 0 else 1 + TrailingSpaces(b[..|b| - 1])
  }

  /** bytes.TrimSpace restricted to ASCII white space: the longest infix that
      neither starts nor ends with white space, with only white space cut away. */
  function TrimSpace(b: seq<Byte>): (r: seq<Byte>)
    ensures |r| <= |b|
    ensures r != [] ==> !IsSpaceByte(r[0]) && !IsSpaceByte(r[|r| - 1])
    ensures (forall k :: 0 <= k < |b| ==> IsSpaceByte(b[k])) ==> r == []
  {
    var l := LeadingSpaces(b);
    var t := TrailingSpaces(b[l..]);
    b[l..][..|b[l..]| - t]
  }

  lemma TrimSpaceUnpadded(b: seq<Byte>)
    requires b != [] ==> !IsSpaceByte(b[0]) && !IsSpaceByte(b[|b| - 1])
    ensures TrimSpace(b) == b
  {
  }

  /** Go's string(b): each byte becomes the character with the same code
      (the datagrams the client handles are ASCII). */
  function AsString(b: seq<Byte>): (s: string)
    ensures |s| == |b|
    ensures forall k :: 0 <= k < |b| ==> s[k] as int == b[k]
  {
    seq(|b|, k requires 0 <= k < |b| => b[k] as char)
  }

  /** []byte(s) for a string of 8-bit characters. */
  function AsBytes(s: string): (b: seq<Byte>)
    requires forall k :: 0 <= k < |s| ==> s[k] as int < 256
    ensures AsString(b) == s
  {
    seq(|s|, k requires 0 <= k < |s| => s[k] as int)
  }

  // ---------------------------------------------------------------------------
  // Decimal digits
  // ---------------------------------------------------------------------------

  predicate IsDigit(c: char) {
    '0' <= c <= '9'
  }

  predicate AllDigits(s: string) {
    forall k :: 0 <= k < |s| ==> IsDigit(s[k])
  }

  function DigitChar(d: nat): (c: char)
    requires d < 10
    ensures IsDigit(c) && c as int - '0' as int == d
  {
    (48 + d) as char
  }

  function Pow10(k: nat): (p: nat)
    ensures p >= 1
  {
    if k == 0 then 1 else 10 * Pow10(k - 1)
  }

  /** The number a string of decimal digits spells, most significant first. */
  function DigitsValue(s: string): nat
    requires AllDigits(s)
  {
    if s == [] then 0 else DigitsValue(s[..|s| - 1]) * 10 + (s[|s| - 1] as int - '0' as int)
  }

  /** Placing digits after others multiplies the first group by a power of ten. */
  lemma {:induction false} DigitsValueAppend(a: string, b: string)
    requires AllDigits(a) && AllDigits(b)
    ensures AllDigits(a + b)
    ensures DigitsValue(a + b) == DigitsValue(a) * Pow10(|b|) + DigitsValue(b)
  {
    assert AllDigits(a + b);
    if b != [] {
      var b' := b[..|b| - 1];
      var last := b[|b| - 1] as int - '0' as int;
      assert (a + b)[..|a + b| - 1] == a + b';
      DigitsValueAppend(a, b');
      var x, y, p := DigitsValue(a), DigitsValue(b'), Pow10(|b'|);
      assert DigitsValue(a + b) == (x * p + y) * 10 + last;
      assert Pow10(|b|) == p * 10;
      assert DigitsValue(b) == y * 10 + last;
      ShiftDigit(x, p, y, last);
    } else {
      assert a + b == a;
    }
  }

  lemma ShiftDigit(x: int, p: int, y: int, last: int)
    ensures (x * p + y) * 10 + last == x * (p * 10) + (y * 10 + last)
  {
  }

  /** The shortest decimal spelling of a natural number (no leading zeros). */
  function NatDigits(n: nat): (s: string)
    ensures |s| >= 1 && AllDigits(s)
    ensures DigitsValue(s) == n
    ensures |s| > 1 ==> s[0] != '0'
    decreases n
  {
    if n < 10 then [DigitChar(n)] else
      var s := NatDigits(n / 10) + [DigitChar(n % 10)];
      assert s[..|s| - 1] == NatDigits(n / 10);
      s
  }

  /** The exactly-k-digit spelling of n, padded with leading zeros. */
  function PadDigits(n: nat, k: nat): (s: string)
    requires n < Pow10(k)
    ensures |s| == k && AllDigits(s)
    ensures DigitsValue(s) == n
  {
    if k == 0 then "" else
      var s := PadDigits(n / 10, k - 1) + [DigitChar(n % 10)];
      assert s[..|s| - 1] == PadDigits(n / 10, k - 1);
      s
  }

  /** Length of the longest all-digit prefix of s. */
  function DigitRun(s: string): (n: nat)
    ensures n <= |s| && AllDigits(s[..n])
    ensures n < |s| ==> !IsDigit(s[n])
  {
    if s == [] || !IsDigit(s[0]) then 0 else
      var n := 1 + DigitRun(s[1..]);
      assert s[..n] == [s[0]] + s[1..][..n - 1];
      n
  }

  lemma {:induction false} DigitRunOf(d: string, rest: string)
    requires AllDigits(d)
    requires rest == [] || !IsDigit(rest[0])
    ensures DigitRun(d + rest) == |d|
  {
    if d == [] {
      assert d + rest == rest;
    } else {
      assert (d + rest)[1..] == d[1..] + rest;
      DigitRunOf(d[1..], rest);
    }
  }

  // ---------------------------------------------------------------------------
  // Integers: fmt's %d, strconv.Atoi
  // ---------------------------------------------------------------------------

  /** fmt.Sprintf("%d", n). */
  function FormatInt(n: int): (s: string)
    ensures |s| >= 1
    ensures s[0] == '-' || IsDigit(s[0])
    ensures forall k :: 1 <= k < |s| ==> IsDigit(s[k])
  {
    if n < 0 then "-" + NatDigits(-n) else NatDigits(n)
  }

  function SignLength(s: string): (n: nat)
    ensures n <= 1 && n <= |s|
  {
    if |s| > 0 && (s[0] == '+' || s[0] == '-') then 1 else 0
  }

  /** The digits at the start of t: their value and how many there are. */
  function ScanDigits(t: string): (r: Option<(nat, nat)>)
    ensures r.Some? ==> 0 < r.value.1 <= |t|
    ensures r.Some? && r.value.1 < |t| ==> !IsDigit(t[r.value.1])
  {
    var d := DigitRun(t);
    if d == 0 then None else Some((DigitsValue(t[..d]), d))
  }

  /** An integer token at the start of s, as the %d verb scans it: an optional
      sign, then one or more digits, the value within Go's int.  Returns the
      value and the number of characters consumed. */
  function ScanInt(s: string): (r: Option<(int, nat)>)
    ensures r.Some? ==> MinInt64 <= r.value.0 <= MaxInt64
    ensures r.Some? ==> 0 < r.value.1 <= |s|
    ensures r.Some? && r.value.1 < |s| ==> !IsDigit(s[r.value.1])
  {
    var sl := SignLength(s);
    match ScanDigits(s[sl..])
    case None => None
    case Some((mag, d)) =>
      var v: int := if sl == 1 && s[0] == '-' then -(mag as int) else mag;
      if MinInt64 <= v <= MaxInt64 then Some((v, sl + d)) else None
  }

  lemma ScanDigitsOf(digits: string, rest: string)
    requires |digits| >= 1 && AllDigits(digits)
    requires rest == [] || !IsDigit(rest[0])
    ensures ScanDigits(digits + rest) == Some((DigitsValue(digits), |digits|))
  {
    DigitRunOf(digits, rest);
    assert (digits + rest)[..|digits|] == digits;
  }

  lemma ScanIntSigned(neg: bool, sign: string, t: string, mag: nat, n: nat)
    requires sign == if neg then "-" else ""
    requires t != [] && t[0] != '+' && t[0] != '-'
    requires ScanDigits(t) == Some((mag, n))
    requires MinInt64 <= (if neg then -(mag as int) else mag) <= MaxInt64
    ensures ScanInt(sign + t) == Some((if neg then -(mag as int) else mag, |sign| + n))
  {
    SignedInput(neg, sign, t);
    ScanIntOf(sign + t, mag, n);
  }

  lemma ScanIntOf(s: string, mag: nat, n: nat)
    requires ScanDigits(s[SignLength(s)..]) == Some((mag, n))
    requires var v := if SignLength(s) == 1 && s[0] == '-' then -(mag as int) else mag;
      MinInt64 <= v <= MaxInt64
    ensures ScanInt(s) ==
      Some((if SignLength(s) == 1 && s[0] == '-' then -(mag as int) else mag, SignLength(s) + n))
  {
  }

  lemma {:induction false} ScanIntFormat(n: int, rest: string)
    requires MinInt64 <= n <= MaxInt64
    requires rest == [] || !IsDigit(rest[0])
    ensures ScanInt(FormatInt(n) + rest) == Some((n, |FormatInt(n)|))
  {
    var digits := NatDigits(if n < 0 then -n else n);
    var sign := if n < 0 then "-" else "";
    FormatIntParts(n, rest, sign, digits);
    ScanDigitsOf(digits, rest);
    ScanIntToken(n, FormatInt(n), sign, digits, rest);
  }

  lemma FormatIntParts(n: int, rest: string, sign: string, digits: string)
    requires digits == NatDigits(if n < 0 then -n else n)
    requires sign == if n < 0 then "-" else ""
    ensures FormatInt(n) + rest == sign + (digits + rest)
    ensures |FormatInt(n)| == |sign| + |digits|
  {
    assert FormatInt(n) == sign + digits;
  }

  /** The last step of the integer round trip, over the pieces of the text only. */
  lemma ScanIntToken(n: int, f: string, sign: string, digits: string, rest: string)
    requires MinInt64 <= n <= MaxInt64
    requires sign == if n < 0 then "-" else ""
    requires digits != [] && IsDigit(digits[0])
    requires f + rest == sign + (digits + rest) && |f| == |sign| + |digits|
    requires ScanDigits(digits + rest) == Some((if n < 0 then -n else n, |digits|))
    ensures ScanInt(f + rest) == Some((n, |f|))
  {
    var t := digits + rest;
    assert t[0] == digits[0];
    var mag: nat := if n < 0 then -n else n;
    ScanIntSigned(n < 0, sign, t, mag, |digits|);
    assert (if n < 0 then -(mag as int) else mag) == n;
    assert ScanInt(sign + t) == Some((n, |f|));
  }

  /** strconv.Atoi: the whole string must be one integer token. */
  function Atoi(s: string): (r: Option<Int64>)
    ensures r.Some? ==> s != [] && (s[0] == '+' || s[0] == '-' || IsDigit(s[0]))
    ensures r.Some? ==> forall k :: 1 <= k < |s| ==> IsDigit(s[k])
  {
    match ScanInt(s)
    case Some((v, n)) => if n == |s| then Some(v) else None
    case None => None
  }

  lemma AtoiFormat(n: Int64)
    ensures Atoi(FormatInt(n)) == Some(n)
  {
    ScanIntFormat(n, "");
    assert FormatInt(n) + "" == FormatInt(n);
  }

  // ---------------------------------------------------------------------------
  // Exact decimals: fmt's %f on input, strconv.ParseFloat on plain decimals
  // ---------------------------------------------------------------------------

  /** The number mantissa / 10^scale. */
  datatype Decimal = Decimal(mantissa: int, scale: nat)
  {
    function Value(): real {
      mantissa as real / Pow10(scale) as real
    }
  }

  /** |mantissa| */
  function Magnitude(d: Decimal): nat {
    if d.mantissa < 0 then -d.mantissa else d.mantissa
  }

  /** The integer part of |d|. */
  function WholePart(d: Decimal): nat {
    DivMod(Magnitude(d), Pow10(d.scale));
    Magnitude(d) / Pow10(d.scale)
  }

  /** The point and the `scale` fraction digits of d, empty when the scale is 0. */
  function FractionText(d: Decimal): (s: string)
    ensures d.scale == 0 ==> s == ""
  {
    if d.scale == 0 then "" else
      DivMod(Magnitude(d), Pow10(d.scale));
      "." + PadDigits(Magnitude(d) % Pow10(d.scale), d.scale)
  }

  /** A decimal in its plain spelling: sign, integer digits and, when the
      scale is positive, a point and exactly `scale` fraction digits. */
  function FormatDecimal(d: Decimal): (s: string)
    ensures |s| >= 1
  {
    var whole: nat := WholePart(d);
    (if d.mantissa < 0 then "-" else "") + NatDigits(whole) + FractionText(d)
  }

  /** The unsigned part of a %f token at the start of t: digits, optionally
      a point and more digits, at least one digit in all.  Returns the digits'
      value, the number of fraction digits and the characters consumed. */
  function ScanMagnitude(t: string): (r: Option<(nat, nat, nat)>)
    ensures r.Some? ==> 0 < r.value.2 <= |t|
    ensures r.Some? && r.value.2 < |t| ==> !IsDigit(t[r.value.2])
  {
    var a := DigitRun(t);
    if a < |t| && t[a] == '.' then
      var b := DigitRun(t[a + 1..]);
      if a + b == 0 then None
      else
        assert AllDigits(t[..a] + t[a + 1..][..b]);
        Some((DigitsValue(t[..a] + t[a + 1..][..b]), b, a + 1 + b))
    else if a == 0 then None
    else Some((DigitsValue(t[..a]), 0, a))
  }

  /** A decimal token at the start of s, as fmt scans a %f operand written
      without exponent: optional sign, then the magnitude.  Returns the exact
      value, keeping the number of fraction digits written, and the
      characters consumed. */
  function ScanDecimal(s: string): (r: Option<(Decimal, nat)>)
    ensures r.Some? ==> 0 < r.value.1 <= |s|
    ensures r.Some? && r.value.1 < |s| ==> !IsDigit(s[r.value.1])
  {
    var sl := SignLength(s);
    match ScanMagnitude(s[sl..])
    case None => None
    case Some((mag, scale, n)) =>
      var m: int := if sl == 1 && s[0] == '-' then -(mag as int) else mag;
      Some((Decimal(m, scale), sl + n))
  }

  lemma {:induction false} ScanMagnitudeWhole(whole: string, rest: string)
    requires |whole| >= 1 && AllDigits(whole)
    requires rest == [] || (!IsDigit(rest[0]) && rest[0] != '.')
    ensures ScanMagnitude(whole + rest) == Some((DigitsValue(whole), 0, |whole|))
  {
    DigitRunOf(whole, rest);
    assert (whole + rest)[..|whole|] == whole;
  }

  lemma {:induction false} ScanMagnitudeFraction(whole: string, frac: string, rest: string)
    requires |whole| >= 1 && AllDigits(whole) && AllDigits(frac)
    requires rest == [] || !IsDigit(rest[0])
    ensures ScanMagnitude(whole + "." + frac + rest)
         == Some((DigitsValue(whole) * Pow10(|frac|) + DigitsValue(frac), |frac|, |whole| + 1 + |frac|))
  {
    var t := whole + "." + frac + rest;
    FractionPieces(whole, frac, rest, t);
    DigitRunOf(whole, "." + frac + rest);
    DigitRunOf(frac, rest);
    ScanMagnitudeParts(t, whole, frac);
    DigitsValueAppend(whole, frac);
  }

  lemma ScanMagnitudeParts(t: string, whole: string, frac: string)
    requires |whole| < |t| && DigitRun(t) == |whole| && t[|whole|] == '.' && |whole| > 0
    requires DigitRun(t[|whole| + 1..]) == |frac|
    requires t[..|whole|] == whole
    requires |frac| <= |t[|whole| + 1..]| && t[|whole| + 1..][..|frac|] == frac
    ensures ScanMagnitude(t) == Some((DigitsValue(whole + frac), |frac|, |whole| + 1 + |frac|))
  {
    ScanMagnitudePoint(t, |whole|, |frac|);
  }

  /** Where the pieces of `whole.frac rest` sit in the text. */
  lemma FractionPieces(whole: string, frac: string, rest: string, t: string)
    requires t == whole + "." + frac + rest
    ensures t == whole + ("." + frac + rest)
    ensures |whole| < |t| && t[|whole|] == '.'
    ensures t[|whole| + 1..] == frac + rest
    ensures t[..|whole|] == whole
    ensures |frac| <= |t[|whole| + 1..]| && t[|whole| + 1..][..|frac|] == frac
  {
  }

  /** The magnitude of a token with a point after a digits of its own. */
  lemma ScanMagnitudePoint(t: string, a: nat, b: nat)
    requires a < |t| && DigitRun(t) == a && t[a] == '.'
    requires DigitRun(t[a + 1..]) == b && a + b > 0
    ensures ScanMagnitude(t) == Some((DigitsValue(t[..a] + t[a + 1..][..b]), b, a + 1 + b))
  {
  }

  lemma ScanDecimalSigned(neg: bool, sign: string, t: string, mag: nat, scale: nat, n: nat)
    requires sign == if neg then "-" else ""
    requires t != [] && t[0] != '+' && t[0] != '-'
    requires ScanMagnitude(t) == Some((mag, scale, n))
    ensures ScanDecimal(sign + t) == Some((Decimal(if neg then -(mag as int) else mag, scale), |sign| + n))
  {
    SignedInput(neg, sign, t);
    ScanDecimalOf(sign + t, mag, scale, n);
  }

  /** A sign spelled as "-" or nothing in front of an unsigned token. */
  lemma SignedInput(neg: bool, sign: string, t: string)
    requires sign == if neg then "-" else ""
    requires t != [] && t[0] != '+' && t[0] != '-'
    ensures SignLength(sign + t) == |sign|
    ensures (sign + t)[|sign|..] == t
    ensures (SignLength(sign + t) == 1 && (sign + t)[0] == '-') == neg
  {
    var s := sign + t;
    if neg {
      assert s == ['-'] + t;
    } else {
      assert s == t;
    }
  }

  lemma ScanDecimalOf(s: string, mag: nat, scale: nat, n: nat)
    requires ScanMagnitude(s[SignLength(s)..]) == Some((mag, scale, n))
    ensures ScanDecimal(s) ==
      Some((Decimal(if SignLength(s) == 1 && s[0] == '-' then -(mag as int) else mag, scale), SignLength(s) + n))
  {
  }

  /** The unsigned spelling of d followed by rest scans to |d| and its scale. */
  lemma ScanMagnitudeFormat(d: Decimal, rest: string, whole: string, fraction: string)
    requires whole == NatDigits(WholePart(d)) && fraction == FractionText(d)
    requires rest == [] || (!IsDigit(rest[0]) && rest[0] != '.')
    ensures ScanMagnitude(whole + fraction + rest) == Some((Magnitude(d), d.scale, |whole| + |fraction|))
  {
    if d.scale == 0 {
      ScanMagnitudeUnscaled(d, rest, whole, fraction);
    } else {
      ScanMagnitudeScaled(d, rest, whole, fraction);
    }
  }

  lemma ScanMagnitudeUnscaled(d: Decimal, rest: string, whole: string, fraction: string)
    requires d.scale == 0
    requires whole == NatDigits(WholePart(d)) && fraction == FractionText(d)
    requires rest == [] || (!IsDigit(rest[0]) && rest[0] != '.')
    ensures ScanMagnitude(whole + fraction + rest) == Some((Magnitude(d), d.scale, |whole| + |fraction|))
  {
    WholeOfUnscaled(d);
    assert whole + fraction + rest == whole + rest;
    ScanMagnitudeWhole(whole, rest);
  }

  lemma ScanMagnitudeScaled(d: Decimal, rest: string, whole: string, fraction: string)
    requires d.scale > 0
    requires whole == NatDigits(WholePart(d)) && fraction == FractionText(d)
    requires rest == [] || (!IsDigit(rest[0]) && rest[0] != '.')
    ensures ScanMagnitude(whole + fraction + rest) == Some((Magnitude(d), d.scale, |whole| + |fraction|))
  {
    var m, p := Magnitude(d), Pow10(d.scale);
    DivMod(m, p);
    var frac := PadDigits(m % p, d.scale);
    assert fraction == "." + frac;
    assert whole + fraction + rest == whole + "." + frac + rest;
    ScanMagnitudeFraction(whole, frac, rest);
    SplitValue(d, whole, frac);
  }

  lemma SplitValue(d: Decimal, whole: string, frac: string)
    requires whole == NatDigits(WholePart(d))
    requires frac == PadDigits(Magnitude(d) % Pow10(d.scale), d.scale)
    ensures DigitsValue(whole) * Pow10(|frac|) + DigitsValue(frac) == Magnitude(d)
  {
    var m, p := Magnitude(d), Pow10(d.scale);
    DivMod(m, p);
    assert DigitsValue(whole) == m / p;
    assert DigitsValue(frac) == m % p;
    assert |frac| == d.scale;
  }

  lemma WholeOfUnscaled(d: Decimal)
    requires d.scale == 0
    ensures WholePart(d) == Magnitude(d)
  {
    assert Pow10(0) == 1;
  }

  /** A decimal written out is scanned back to the same mantissa and scale,
      whatever follows it as long as that cannot continue the token. */
  lemma {:induction false} ScanDecimalFormat(d: Decimal, rest: string)
    requires rest == [] || (!IsDigit(rest[0]) && rest[0] != '.')
    ensures ScanDecimal(FormatDecimal(d) + rest) == Some((d, |FormatDecimal(d)|))
  {
    var sign := if d.mantissa < 0 then "-" else "";
    var whole, fraction := NatDigits(WholePart(d)), FractionText(d);
    var body := whole + fraction;
    FormatDecimalParts(d, rest, sign, body);
    ScanMagnitudeFormat(d, rest, whole, fraction);
    assert body + rest == whole + fraction + rest;
    ScanSignedToken(d, FormatDecimal(d), sign, body, rest);
  }

  /** The last step of the round trip, stated over the pieces of the text only. */
  lemma ScanSignedToken(d: Decimal, f: string, sign: string, body: string, rest: string)
    requires sign == if d.mantissa < 0 then "-" else ""
    requires body != [] && IsDigit(body[0])
    requires f + rest == sign + (body + rest) && |f| == |sign| + |body|
    requires ScanMagnitude(body + rest) == Some((Magnitude(d), d.scale, |body|))
    ensures ScanDecimal(f + rest) == Some((d, |f|))
  {
    assert (body + rest)[0] == body[0];
    ScanDecimalSigned(d.mantissa < 0, sign, body + rest, Magnitude(d), d.scale, |body|);
  }

  lemma FormatDecimalParts(d: Decimal, rest: string, sign: string, body: string)
    requires sign == if d.mantissa < 0 then "-" else ""
    requires body == NatDigits(WholePart(d)) + FractionText(d)
    ensures FormatDecimal(d) + rest == sign + (body + rest)
    ensures |FormatDecimal(d)| == |sign| + |body|
  {
    assert FormatDecimal(d) == sign + body;
  }

  /** strconv.ParseFloat on a plain decimal: the whole string must be one token. */
  function ParseDecimal(s: string): (r: Option<Decimal>)
    ensures r.Some? ==> s != []
  {
    match ScanDecimal(s)
    case Some((v, n)) => if n == |s| then Some(v) else None
    case None => None
  }

  lemma ParseDecimalFormat(d: Decimal)
    ensures ParseDecimal(FormatDecimal(d)) == Some(d)
  {
    ScanDecimalFormat(d, "");
    assert FormatDecimal(d) + "" == FormatDecimal(d);
  }

  /** Go's int(f): the integer part, truncating toward zero. */
  function Truncate(d: Decimal): (n: int)
    ensures d.mantissa >= 0 ==> 0 <= n && n as real <= d.Value() < (n + 1) as real
    ensures d.mantissa < 0 ==> n <= 0 && (n - 1) as real < d.Value() <= n as real
  {
    var p := Pow10(d.scale);
    if d.mantissa >= 0 then
      DivMod(d.mantissa, p);
      var n := d.mantissa / p;
      TruncateBounds(d.mantissa, p, n);
      n
    else
      DivMod(-d.mantissa, p);
      var n := -((-d.mantissa) / p);
      TruncateBounds(-d.mantissa, p, -n);
      assert d.Value() == -((-d.mantissa) as real / p as real);
      n
  }

  lemma DivMod(m: nat, p: nat)
    requires p >= 1
    ensures 0 <= m / p && 0 <= m % p < p
    ensures m == (m / p) * p + m % p
    ensures (m / p) * p <= m < (m / p + 1) * p
  {
  }

  lemma TruncateBounds(m: nat, p: nat, q: int)
    requires p >= 1
    requires q * p <= m < (q + 1) * p
    ensures q as real <= m as real / p as real < (q + 1) as real
  {
    assert (q * p) as real == q as real * p as real;
    assert ((q + 1) * p) as real == (q + 1) as real * p as real;
  }

  // ---------------------------------------------------------------------------

  datatype Option<+T> = None | Some(value: T)
}
