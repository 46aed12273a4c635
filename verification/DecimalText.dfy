/** Decimal printing and parsing. */
module DecimalText {
  import opened Results
  import opened Decimals
  import opened DecimalLaws

  // ------------------------------------------------------ strings of digits

  predicate IsDigit(ch: char) { '0' <= ch <= '9' }

  predicate AllDigits(s: string) {
    forall i :: 0 <= i < |s| ==> IsDigit(s[i])
  }

  function DigitChar(d: nat): char
    requires d < 10
  {
    '0' + d as char
  }

  function DigitValue(ch: char): (d: nat)
    requires IsDigit(ch)
  {
    ch as int - '0' as int
  }

  /** The digits of a non-negative BigInt. */
  function Digits(n: nat): (s: string)
    ensures |s| > 0 && AllDigits(s)
  {
    if n < 10 then [DigitChar(n)] else Digits(n / 10) + [DigitChar(n % 10)]
  }

  /** BigInt of a digit string; the empty string reads as zero. */
  function ParseDigits(s: string): nat
    requires AllDigits(s)
  {
    if s == [] then 0 else 10 * ParseDigits(s[..|s| - 1]) + DigitValue(s[|s| - 1])
  }

  function Zeros(n: nat): (s: string)
    ensures |s| == n && AllDigits(s) && forall i :: 0 <= i < n ==> s[i] == '0'
  {
    if n == 0 then [] else Zeros(n - 1) + "0"
  }

  function PadStart(s: string, length: nat): (p: string)
    ensures |p| == if |s| >= length then |s| else length
    ensures AllDigits(s) ==> AllDigits(p)
  {
    if |s| >= length then s else Zeros(length - |s|) + s
  }

  /** Removes a trailing run of zeros. */
  function StripZeros(s: string): (t: string)
    ensures |t| <= |s| && t == s[..|t|]
    ensures AllDigits(s) ==> AllDigits(t)
  {
    if s != [] && s[|s| - 1] == '0' then StripZeros(s[..|s| - 1]) else s
  }

  // ---------------------------------------------------------------- printing

  function Magnitude(d: Decimal): nat {
    if d.c < 0 then -d.c else d.c
  }

  function Signed(d: Decimal, body: string): string {
    if d.c < 0 then "-" + body else body
  }

  function ToString(d: Decimal): string {
    var digits := Digits(Magnitude(d));
    if d.s == 0 then Signed(d, digits)
    else
      var padded := PadStart(digits, d.s + 1);
      var intPart := padded[..|padded| - d.s];
      var fracPart := StripZeros(padded[|padded| - d.s..]);
      Signed(d, if fracPart != [] then intPart + "." + fracPart else intPart)
  }

  function ToFixed(d: Decimal, dp: nat): string {
    var rounded := d.RoundToScale(dp, HALF_UP);
    var digits := Digits(Magnitude(rounded));
    if dp == 0 then Signed(rounded, digits)
    else
      var padded := PadStart(digits, dp + 1);
      Signed(rounded, padded[..|padded| - dp] + "." + padded[|padded| - dp..])
  }

  // ----------------------------------------------------------------- parsing

  /** White space and line terminators as String.prototype.trim removes them. */
  predicate IsSpace(ch: char) {
    || ch in "\t\n\r \U{000B}\U{000C}\U{00A0}\U{1680}\U{2028}\U{2029}\U{202F}\U{205F}\U{3000}\U{FEFF}"
    || '\U{2000}' <= ch <= '\U{200A}'
  }

  function Trim(s: string): string {
    if s != [] && IsSpace(s[0]) then Trim(s[1..])
    else if s != [] && IsSpace(s[|s| - 1]) then Trim(s[..|s| - 1])
    else s
  }

  /** What is trimmed is white space at either end, and all of it. */
  lemma {:induction false} TrimDropsSpaces(s: string) returns (from: nat, to: nat)
    ensures from <= to <= |s| && Trim(s) == s[from..to]
    ensures forall i :: 0 <= i < from || to <= i < |s| ==> IsSpace(s[i])
    ensures from < to ==> !IsSpace(s[from]) && !IsSpace(s[to - 1])
  {
    hide IsSpace;
    from, to := 0, |s|;
    if s != [] && IsSpace(s[0]) {
      from, to := TrimDropsSpaces(s[1..]);
      assert s[1..][from..to] == s[from + 1..to + 1];
      assert forall i :: 0 <= i < |s| - 1 ==> s[1..][i] == s[i + 1];
      assert forall i :: 1 <= i < from + 1 || to + 1 <= i < |s| ==> s[i] == s[1..][i - 1];
      from, to := from + 1, to + 1;
    } else if s != [] && IsSpace(s[|s| - 1]) {
      from, to := TrimDropsSpaces(s[..|s| - 1]);
      assert s[..|s| - 1][from..to] == s[from..to];
      assert forall i :: 0 <= i < |s| - 1 ==> s[..|s| - 1][i] == s[i];
    }
  }

  /** Position of the first point, or the length when there is none. */
  function PointIndex(s: string): (i: nat)
    ensures i <= |s| && '.' !in s[..i] && (i < |s| ==> s[i] == '.')
  {
    if s == [] || s[0] == '.' then 0
    else
      var i := 1 + PointIndex(s[1..]);
      assert s[..i] == [s[0]] + s[1..][..i - 1];
      i
  }

  function IntPart(body: string): string {
    body[..PointIndex(body)]
  }

  function FracPart(body: string): string {
    if PointIndex(body) == |body| then [] else body[PointIndex(body) + 1..]
  }

  /** At least one digit, then optionally a point and at least one digit. */
  predicate WellFormedBody(body: string) {
    && IntPart(body) != [] && AllDigits(IntPart(body))
    && AllDigits(FracPart(body)) && (PointIndex(body) < |body| ==> FracPart(body) != [])
  }

  function FromString(input: string): Result<Decimal, string> {
    var str := Trim(input);
    var negative := str != [] && str[0] == '-';
    var body := if negative then str[1..] else str;
    if !WellFormedBody(body) then Failure("Invalid decimal string")
    else
      var coefficient: int := ParseDigits(IntPart(body) + FracPart(body));
      Success(Decimal(if negative then -coefficient else coefficient, |FracPart(body)|))
  }

  // ------------------------------------------------------- digit string laws

  lemma {:induction false} ParseOfDigits(n: nat)
    ensures ParseDigits(Digits(n)) == n
  {
    var s := Digits(n);
    if n < 10 {
      assert s[..0] == [];
    } else {
      ParseOfDigits(n / 10);
      assert s[..|s| - 1] == Digits(n / 10);
    }
  }

  lemma {:induction false} ParseAfterZeros(k: nat, s: string)
    requires AllDigits(s)
    ensures AllDigits(Zeros(k) + s) && ParseDigits(Zeros(k) + s) == ParseDigits(s)
    decreases k + |s|
  {
    var z := Zeros(k) + s;
    if s != [] {
      var front := s[..|s| - 1];
      ParseAfterZeros(k, front);
      assert z[..|z| - 1] == Zeros(k) + front;
    } else if k > 0 {
      ParseAfterZeros(k - 1, []);
      assert z == Zeros(k) && Zeros(k - 1) + [] == Zeros(k - 1);
      assert z[..|z| - 1] == Zeros(k - 1);
    } else {
      assert z == [];
    }
  }

  lemma ParsePadded(n: nat, length: nat)
    ensures ParseDigits(PadStart(Digits(n), length)) == n
  {
    ParseOfDigits(n);
    if |Digits(n)| < length { ParseAfterZeros(length - |Digits(n)|, Digits(n)); }
  }

  lemma TenTimesMore(m: nat, k: nat)
    ensures 10 * (m * Pow10(k)) == m * Pow10(k + 1)
  {
    assert 10 * (m * Pow10(k)) == m * (10 * Pow10(k));
  }

  /** Stripping k trailing zeros divides the number read by 10^k. */
  lemma {:induction false} ParseStripped(prefix: string, s: string)
    requires AllDigits(prefix) && AllDigits(s)
    ensures var t := StripZeros(s);
            ParseDigits(prefix + s) == ParseDigits(prefix + t) * Pow10(|s| - |t|)
    decreases |s|
  {
    var t := StripZeros(s);
    if s != [] && s[|s| - 1] == '0' {
      var front := s[..|s| - 1];
      ParseStripped(prefix, front);
      assert (prefix + s)[..|prefix + s| - 1] == prefix + front;
      TenTimesMore(ParseDigits(prefix + t), |front| - |t|);
    }
  }

  // ------------------------------------------------------ reading what is printed

  lemma NoSpaceInNumbers(s: string)
    requires s != [] && !IsSpace(s[0]) && !IsSpace(s[|s| - 1])
    ensures Trim(s) == s
  {}

  lemma DigitIsNoSpace(ch: char)
    requires IsDigit(ch) || ch == '-'
    ensures !IsSpace(ch) && ch != '.'
  {}

  lemma {:induction false} PointAfterDigits(whole: string, rest: string)
    requires AllDigits(whole) && (rest == [] || rest[0] == '.')
    ensures PointIndex(whole + rest) == |whole|
  {
    if whole == [] {
      assert whole + rest == rest;
    } else {
      DigitIsNoSpace(whole[0]);
      assert (whole + rest)[1..] == whole[1..] + rest;
      PointAfterDigits(whole[1..], rest);
    }
  }

  /** A body of digits, with or without a fraction. */
  function Body(whole: string, frac: string): string {
    if frac == [] then whole else whole + "." + frac
  }

  function NumberString(negative: bool, whole: string, frac: string): string {
    (if negative then "-" else "") + Body(whole, frac)
  }

  lemma BodyParts(whole: string, frac: string)
    requires whole != [] && AllDigits(whole) && AllDigits(frac)
    ensures var b := Body(whole, frac);
            && IntPart(b) == whole && FracPart(b) == frac && WellFormedBody(b)
            && b[0] == whole[0] && IsDigit(b[|b| - 1])
  {
    var b := Body(whole, frac);
    if frac == [] {
      assert whole + [] == whole;
      PointAfterDigits(whole, []);
    } else {
      assert b == whole + ("." + frac);
      PointAfterDigits(whole, "." + frac);
      assert b[|whole| + 1..] == frac;
    }
  }

  /** Parsing a signed body of digits reads the digits and counts the fraction. */
  lemma ParseSigned(negative: bool, whole: string, frac: string)
    requires whole != [] && AllDigits(whole) && AllDigits(frac)
    ensures var n: int := ParseDigits(whole + frac);
            FromString(NumberString(negative, whole, frac))
              == Success(Decimal(if negative then -n else n, |frac|))
  {
    hide ParseDigits, Trim, IsSpace, WellFormedBody, IntPart, FracPart, Body;
    var b := Body(whole, frac);
    BodyParts(whole, frac);
    SignSplit(negative, whole, frac);
    TrimmedNumber(negative, whole, frac);
  }

  lemma TrimmedNumber(negative: bool, whole: string, frac: string)
    requires whole != [] && AllDigits(whole) && AllDigits(frac)
    ensures Trim(NumberString(negative, whole, frac)) == NumberString(negative, whole, frac)
  {
    hide Trim, IsSpace, WellFormedBody, IntPart, FracPart;
    var str, b := NumberString(negative, whole, frac), Body(whole, frac);
    BodyParts(whole, frac);
    DigitIsNoSpace(str[0]);
    DigitIsNoSpace(b[|b| - 1]);
    assert str[|str| - 1] == b[|b| - 1];
    NoSpaceInNumbers(str);
  }

  /** A well-formed string is an optional sign, digits, and optionally a point and digits: the
      parser accepts exactly the strings of the documented grammar. */
  lemma ParserGrammar(input: string)
    ensures FromString(input).Success?
            <==> exists negative: bool, whole: string, frac: string ::
                   && Trim(input) == NumberString(negative, whole, frac)
                   && whole != [] && AllDigits(whole) && AllDigits(frac)
  {
    hide ParseDigits, Trim, AllDigits;
    var str := Trim(input);
    if FromString(input).Success? {
      var negative := str != [] && str[0] == '-';
      var b := if negative then str[1..] else str;
      BodyOfParts(b);
      assert str == NumberString(negative, IntPart(b), FracPart(b));
    }
    forall negative: bool, whole: string, frac: string
      | && str == NumberString(negative, whole, frac)
        && whole != [] && AllDigits(whole) && AllDigits(frac)
      ensures FromString(input).Success?
    {
      SignSplit(negative, whole, frac);
    }
  }

  lemma BodyOfParts(b: string)
    requires WellFormedBody(b)
    ensures b == Body(IntPart(b), FracPart(b))
  {
    hide PointIndex;
    if FracPart(b) == [] {
      assert PointIndex(b) == |b|;
    } else {
      assert b == b[..PointIndex(b)] + "." + b[PointIndex(b) + 1..];
    }
  }

  /** The parser finds the sign and the body of a number string. */
  lemma SignSplit(negative: bool, whole: string, frac: string)
    requires whole != [] && AllDigits(whole) && AllDigits(frac)
    ensures var str, b := NumberString(negative, whole, frac), Body(whole, frac);
            && str != [] && (str[0] == '-' <==> negative)
            && (if negative then str[1..] else str) == b
            && WellFormedBody(b)
  {
    var b := Body(whole, frac);
    hide WellFormedBody, IntPart, FracPart;
    BodyParts(whole, frac);
    DigitIsNoSpace(whole[0]);
    if negative { assert ("-" + b)[1..] == b; } else { assert "" + b == b; }
  }

  // ------------------------------------------------------------- round trips

  /** The fixed-point string of d is read back as d rounded half up to that many places. */
  lemma ToFixedRoundTrip(d: Decimal, dp: nat)
    ensures FromString(ToFixed(d, dp)) == Success(d.RoundToScale(dp, HALF_UP))
  {
    hide Decimal.RoundToScale, Digits, ParseDigits, PadStart, FromString, Zeros;
    var r := d.RoundToScale(dp, HALF_UP);
    RoundToScaleMeaning(d, dp, HALF_UP);
    var padded := PadStart(Digits(Magnitude(r)), dp + 1);
    var whole, frac := padded[..|padded| - dp], padded[|padded| - dp..];
    ParsePadded(Magnitude(r), dp + 1);
    assert whole + frac == padded;
    ParseSigned(r.c < 0, whole, frac);
    NoPadding(Magnitude(r));
    assert r.s == dp;
    assert ToFixed(d, dp) == NumberString(r.c < 0, whole, frac) by {
      if dp == 0 { assert whole == padded == Digits(Magnitude(r)) && frac == []; }
    }
    var n: int := ParseDigits(whole + frac);
    assert n == Magnitude(r) && Decimal(if r.c < 0 then -n else n, dp) == r;
  }

  lemma NoPadding(n: nat)
    ensures PadStart(Digits(n), 1) == Digits(n)
  {}

  /** The two parts that toString prints, for every scale (zero included). */
  function PrintedParts(magnitude: nat, scale: nat): (string, string) {
    var padded := PadStart(Digits(magnitude), scale + 1);
    (padded[..|padded| - scale], StripZeros(padded[|padded| - scale..]))
  }

  lemma ToStringParts(d: Decimal)
    ensures var (whole, frac) := PrintedParts(Magnitude(d), d.s);
            && whole != [] && AllDigits(whole) && AllDigits(frac)
            && ToString(d) == NumberString(d.c < 0, whole, frac)
  {
    hide Digits, PadStart, StripZeros;
    if d.s == 0 {
      var padded := PadStart(Digits(Magnitude(d)), 1);
      NoPadding(Magnitude(d));
      assert padded[..|padded| - 0] == padded;
    }
  }

  /** Printing and parsing give back the value. */
  lemma ToStringRoundTrip(d: Decimal)
    ensures FromString(ToString(d)).Success?
    ensures FromString(ToString(d)).value.Value() == d.Value()
    ensures FromString(ToString(d)).value.Eq(d)
  {
    hide ToString, FromString, Decimal.Value, ParseDigits, Digits, PadStart, Pow10, Decimal.Compare;
    var (whole, frac) := PrintedParts(Magnitude(d), d.s);
    ToStringParts(d);
    ParseSigned(d.c < 0, whole, frac);
    var e := FromString(ToString(d)).value;
    PrintedMagnitude(Magnitude(d), d.s);
    RaisedMagnitude(ParseDigits(whole + frac), Pow10(d.s - |frac|));
    RaiseTo(e, d.s);
    assert Decimal(e.Raised(d.s), d.s) == d;
    CompareOrdersValues(e, d);
  }

  /** The printed digits read as the coefficient less the zeros that were stripped. */
  lemma PrintedMagnitude(n: nat, scale: nat)
    ensures var (whole, frac) := PrintedParts(n, scale);
            && AllDigits(whole + frac) && |frac| <= scale
            && ParseDigits(whole + frac) * Pow10(scale - |frac|) == n
  {
    hide ParseDigits, Digits, PadStart, Pow10, StripZeros;
    var padded := PadStart(Digits(n), scale + 1);
    var whole, rest := padded[..|padded| - scale], padded[|padded| - scale..];
    ParsePadded(n, scale + 1);
    ParseStripped(whole, rest);
    assert whole + rest == padded;
  }

  /** The string printed has no leading zero but the one before the point, and no zero at the end of a fraction. */
  lemma PrintsNoSpareZeros(d: Decimal) returns (whole: string, frac: string)
    ensures ToString(d) == (if d.c < 0 then "-" else "") + whole + (if frac == [] then "" else "." + frac)
    ensures AllDigits(whole) && AllDigits(frac) && |whole| >= 1 && (|whole| > 1 ==> whole[0] != '0')
    ensures frac != [] ==> frac[|frac| - 1] != '0'
  {
    ToStringParts(d);
    PartsAreBare(Magnitude(d), d.s);
    hide *;
    var parts := PrintedParts(Magnitude(d), d.s);
    whole, frac := parts.0, parts.1;
    NumberWritten(d.c < 0, whole, frac);
  }

  lemma NumberWritten(negative: bool, whole: string, frac: string)
    ensures NumberString(negative, whole, frac)
            == (if negative then "-" else "") + whole + (if frac == [] then "" else "." + frac)
  {
    var sign := if negative then "-" else "";
    assert sign + (whole + "." + frac) == sign + whole + ("." + frac) && sign + whole + "" == sign + whole;
  }

  lemma PartsAreBare(n: nat, scale: nat)
    ensures var (whole, frac) := PrintedParts(n, scale);
            && |whole| >= 1 && (|whole| > 1 ==> whole[0] != '0') && (frac != [] ==> frac[|frac| - 1] != '0')
  {
    var padded := PadStart(Digits(n), scale + 1);
    NoLeadingZero(n);
    NoTrailingZero(padded[|padded| - scale..]);
    hide Digits, PadStart, StripZeros;
  }

  lemma {:induction false} NoLeadingZero(n: nat)
    ensures |Digits(n)| > 1 ==> Digits(n)[0] != '0'
    ensures forall length: nat :: |PadStart(Digits(n), length)| > length ==> PadStart(Digits(n), length) == Digits(n)
  {
    if n >= 10 { NoLeadingZero(n / 10); }
  }

  lemma {:induction false} NoTrailingZero(s: string)
    ensures StripZeros(s) != [] ==> StripZeros(s)[|StripZeros(s)| - 1] != '0'
  {
    if s != [] { NoTrailingZero(s[..|s| - 1]); }
  }

  lemma RaisedMagnitude(m: int, p: int)
    ensures (-m) * p == -(m * p)
  {}

  // ------------------------------------------------------- canonical printing

  lemma ZerosPlus(k: nat)
    ensures Zeros(k + 1) == Zeros(k) + "0"
  {}

  lemma PaddedTenfold(n: nat, length: nat)
    requires length >= 1
    ensures PadStart(Digits(10 * n), length + 1) == PadStart(Digits(n), length) + "0"
  {
    DigitsTenfold(n);
    hide Digits, Zeros;
    if n == 0 {
      ZerosPlus(length - 1);
      PaddedZero(length);
      PaddedZero(length + 1);
    } else {
      var s, k := Digits(n), length - |Digits(n)|;
      if k > 0 { assert Zeros(k) + (s + "0") == (Zeros(k) + s) + "0"; }
    }
  }

  lemma DigitsTenfold(n: nat)
    ensures Digits(10 * n) == if n == 0 then "0" else Digits(n) + "0"
  {}

  lemma PaddedZero(length: nat)
    requires length >= 1
    ensures PadStart("0", length) == Zeros(length)
  {
    ZerosPlus(length - 1);
  }

  /** Appending a zero to coefficient and scale prints the same string. */
  lemma PrintedPartsTenfold(n: nat, scale: nat)
    ensures PrintedParts(10 * n, scale + 1) == PrintedParts(n, scale)
  {
    hide PadStart, Digits;
    var p := PadStart(Digits(n), scale + 1);
    PaddedTenfold(n, scale + 1);
    var q := p + "0";
    assert q[..|q| - (scale + 1)] == p[..|p| - scale];
    var frac := q[|q| - (scale + 1)..];
    assert frac == p[|p| - scale..] + "0";
    assert frac[..|frac| - 1] == p[|p| - scale..];
  }

  lemma {:induction false} ToStringOfRaised(d: Decimal, scale: nat)
    requires scale >= d.s
    ensures ToString(Decimal(d.Raised(scale), scale)) == ToString(d)
    decreases scale
  {
    hide ToString, Decimal.Raised, PrintedParts;
    if scale > d.s {
      ToStringOfRaised(d, scale - 1);
      RaisedStep(d, scale);
      var e := Decimal(d.Raised(scale - 1), scale - 1);
      PrintedPartsTenfold(Magnitude(e), e.s);
      ToStringParts(e);
      ToStringParts(Decimal(d.Raised(scale), scale));
    } else {
      RaisedToItself(d);
    }
  }

  lemma RaisedToItself(d: Decimal)
    ensures d.Raised(d.s) == d.c
  {}

  /** Two decimals are equal in value exactly when they print the same string. */
  lemma SameStringIffEqual(a: Decimal, b: Decimal)
    ensures a.Eq(b) <==> ToString(a) == ToString(b)
  {
    hide ToString, FromString, Decimal.Value, Decimal.Raised;
    var (ca, cb, scale) := a.Align(b);
    ToStringOfRaised(a, scale);
    ToStringOfRaised(b, scale);
    ToStringRoundTrip(a);
    ToStringRoundTrip(b);
    CompareOrdersValues(a, b);
  }
}
