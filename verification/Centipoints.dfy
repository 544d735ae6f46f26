/** The centipoint parser and printer: exact conversion between decimal text and hundredths of a point. */
module Centipoints {
  import opened Prelude
  import opened Decimal

  datatype Error = RangeError | TypeError

  /** A bigint, which already counts centipoints, or a decimal text. */
  datatype Input = Big(n: int) | Text(s: string)

  // ---- String.prototype.trim ----

  /** ECMAScript white space and line terminators. */
  predicate IsSpace(c: char) {
    var n := c as int;
    || 0x09 <= n <= 0x0D || n == 0x20 || n == 0xA0 || n == 0x1680 || 0x2000 <= n <= 0x200A
    || n == 0x2028 || n == 0x2029 || n == 0x202F || n == 0x205F || n == 0x3000 || n == 0xFEFF
  }

  function TrimStart(s: string): string {
    if s != "" && IsSpace(s[0]) then TrimStart(s[1..]) else s
  }

  function TrimEnd(s: string): string {
    if s != "" && IsSpace(s[|s| - 1]) then TrimEnd(s[..|s| - 1]) else s
  }

  function Trim(s: string): string {
    TrimEnd(TrimStart(s))
  }

  // ---- parsing ----

  function IndexOfDot(s: string): (d: Option<nat>)
    ensures d.Some? ==> d.value < |s| && s[d.value] == '.' && '.' !in s[..d.value]
    ensures d.None? ==> '.' !in s
  {
    if s == "" then None
    else if s[0] == '.' then Some(0)
    else match IndexOfDot(s[1..]) case None => None case Some(d) => Some(d + 1)
  }

  function IntPart(s: string): string {
    match IndexOfDot(s) case None => s case Some(d) => s[..d]
  }

  function FracPart(s: string): string {
    match IndexOfDot(s) case None => "" case Some(d) => s[d + 1..]
  }

  /** The text matches digits, or digits '.' digits, with no part empty. */
  predicate IsDecimal(s: string) {
    && IntPart(s) != "" && AllDigits(IntPart(s)) && AllDigits(FracPart(s))
    && (IndexOfDot(s).Some? ==> FracPart(s) != "")
  }

  /** The first two fraction digits, missing ones read as '0'. */
  function TwoDigits(frac: string): (t: string)
    ensures |t| == 2
    ensures AllDigits(frac) ==> AllDigits(t)
  {
    if |frac| >= 2 then frac[..2] else if |frac| == 1 then frac + "0" else "00"
  }

  function ParseDecimal(s: string): nat
    requires IsDecimal(s)
  {
    StripZerosShape(IntPart(s));
    var intDigits := if StripZeros(IntPart(s)) == "" then "0" else StripZeros(IntPart(s));
    ToNat(intDigits) * 100 + ToNat(TwoDigits(FracPart(s)))
  }

  function ToCentipoints(v: Input): Result<nat, Error> {
    match v
    case Big(n) => if n < 0 then Err(RangeError) else Ok(n)
    case Text(s) => if IsDecimal(Trim(s)) then Ok(ParseDecimal(Trim(s))) else Err(TypeError)
  }

  // ---- printing ----

  function FromCentipoints(minor: int): Result<string, Error> {
    if minor < 0 then Err(RangeError)
    else
      var cents := OfNat(minor % 100);
      Ok(OfNat(minor / 100) + "." + (if |cents| < 2 then "0" + cents else cents))
  }

  // ---- what the parser computes ----

  function Pow10(n: nat): nat {
    if n == 0 then 1 else 10 * Pow10(n - 1)
  }

  lemma {:induction false} Pow10Positive(n: nat)
    ensures Pow10(n) > 0
  {
    if n > 0 {
      Pow10Positive(n - 1);
    }
  }

  /** Digits split at `j` are a high and a low part. */
  lemma {:induction false} SplitDigits(s: string, j: nat)
    requires AllDigits(s) && j <= |s|
    ensures ToNat(s) == ToNat(s[..j]) * Pow10(|s| - j) + ToNat(s[j..]) && ToNat(s[j..]) < Pow10(|s| - j)
  {
    if j == |s| {
      assert s[..j] == s && s[j..] == "";
    } else {
      var front, d := s[..|s| - 1], DigitValue(s[|s| - 1]);
      SplitDigits(front, j);
      var hi, lo, p := ToNat(s[..j]), ToNat(front[j..]), Pow10(|s| - 1 - j);
      assert front[..j] == s[..j] && s[j..][..|s| - j - 1] == front[j..];
      assert ToNat(s[j..]) == lo * 10 + d;
      TenTimes(hi, p);
    }
  }

  lemma TenTimes(hi: nat, p: nat)
    ensures hi * (10 * p) == 10 * (hi * p)
  {
  }

  /** The number a decimal text denotes. */
  function Value(s: string): real
    requires IsDecimal(s)
  {
    Pow10Positive(|FracPart(s)|);
    ToNat(IntPart(s)) as real + ToNat(FracPart(s)) as real / Pow10(|FracPart(s)|) as real
  }

  /** `t` is 100 * f / k, truncated. */
  predicate Truncates(f: nat, k: nat, t: nat) {
    k > 0 && t * k <= 100 * f < (t + 1) * k
  }

  lemma TwoDigitsTruncate(frac: string)
    requires AllDigits(frac)
    ensures Truncates(ToNat(frac), Pow10(|frac|), ToNat(TwoDigits(frac)))
  {
    if |frac| >= 2 {
      ManyDigitsTruncate(frac);
    } else {
      FewDigitsTruncate(frac);
    }
  }

  lemma FewDigitsTruncate(frac: string)
    requires AllDigits(frac) && |frac| < 2
    ensures Truncates(ToNat(frac), Pow10(|frac|), ToNat(TwoDigits(frac)))
  {
    if frac == "" {
      assert "00"[..1] == "0" && "0"[..0] == "";
      assert Pow10(0) == 1;
    } else {
      assert (frac + "0")[..1] == frac;
      assert Pow10(0) == 1 && Pow10(1) == 10;
      assert ToNat(frac + "0") == 10 * ToNat(frac);
    }
  }

  lemma ManyDigitsTruncate(frac: string)
    requires AllDigits(frac) && |frac| >= 2
    ensures Truncates(ToNat(frac), Pow10(|frac|), ToNat(frac[..2]))
  {
    var m := Pow10(|frac| - 2);
    Pow10Positive(|frac| - 2);
    SplitDigits(frac, 2);
    assert Pow10(|frac|) == 100 * m;
    Hundredfold(ToNat(frac[..2]), m, ToNat(frac[2..]));
  }

  lemma Hundredfold(t: nat, m: nat, low: nat)
    requires low < m
    ensures Truncates(t * m + low, 100 * m, t)
  {
    assert t * (100 * m) == 100 * (t * m);
    assert (t + 1) * (100 * m) == t * (100 * m) + 100 * m;
  }

  lemma {:induction false} RealProduct(a: nat, b: nat)
    ensures (a * b) as real == a as real * b as real
  {
    if a > 0 {
      RealProduct(a - 1, b);
      assert a * b == (a - 1) * b + b;
      assert a as real == (a - 1) as real + 1.0;
    }
  }

  lemma NotPositiveTimesPositive(x: real, k: real)
    requires x <= 0.0 < k
    ensures x * k <= 0.0 && (x < 0.0 ==> x * k < 0.0)
  {
  }

  lemma RealQuotient(x: real, q: real, k: real, t: real)
    requires k > 0.0 && q * k == x && t * k <= 100.0 * x < (t + 1.0) * k
    ensures t <= 100.0 * q < t + 1.0
  {
    assert (100.0 * q - t) * k == 100.0 * (q * k) - t * k;
    assert (t + 1.0 - 100.0 * q) * k == (t + 1.0) * k - 100.0 * (q * k);
    if 100.0 * q < t {
      NotPositiveTimesPositive(100.0 * q - t, k);
    } else if 100.0 * q >= t + 1.0 {
      NotPositiveTimesPositive(t + 1.0 - 100.0 * q, k);
    }
  }

  lemma ScaledFloor(i: nat, f: nat, k: nat, t: nat)
    requires Truncates(f, k, t)
    ensures (100.0 * (i as real + f as real / k as real)).Floor == i * 100 + t
  {
    RealProduct(t, k);
    RealProduct(t + 1, k);
    var q := f as real / k as real;
    RealQuotient(f as real, q, k as real, t as real);
    assert 100.0 * (i as real + q) == (i * 100) as real + 100.0 * q;
  }

  /** Stripping zeros loses nothing. */
  lemma ParseParts(d: string)
    requires IsDecimal(d)
    ensures ParseDecimal(d) == ToNat(IntPart(d)) * 100 + ToNat(TwoDigits(FracPart(d)))
  {
    StripZerosShape(IntPart(d));
    ZeroDigit();
  }

  /** For every accepted text, parsing is the exact value in hundredths, truncated. */
  lemma ParsesToFloor(s: string)
    requires IsDecimal(Trim(s))
    ensures ToCentipoints(Text(s)) == Ok((100.0 * Value(Trim(s))).Floor)
  {
    var d := Trim(s);
    ParseParts(d);
    TwoDigitsTruncate(FracPart(d));
    ScaledFloor(ToNat(IntPart(d)), ToNat(FracPart(d)), Pow10(|FracPart(d)|), ToNat(TwoDigits(FracPart(d))));
  }

  /** The white space and line terminators of ECMAScript, by name. */
  lemma SpacesAre(c: char)
    ensures IsSpace(c) <==> c in "\t\n\U{0B}\U{0C}\r \U{A0}\U{FEFF}\U{1680}\U{2000}\U{2001}\U{2002}\U{2003}\U{2004}"
                              + "\U{2005}\U{2006}\U{2007}\U{2008}\U{2009}\U{200A}\U{202F}\U{205F}\U{3000}"
                              + "\U{2028}\U{2029}"
  {
  }

  /** Trimming takes white space off both ends, all of it and nothing else. */
  lemma TrimTakesSpaces(s: string) returns (front: string, back: string)
    ensures s == front + Trim(s) + back
    ensures (forall i :: 0 <= i < |front| ==> IsSpace(front[i])) && forall i :: 0 <= i < |back| ==> IsSpace(back[i])
    ensures Trim(s) != "" ==> !IsSpace(Trim(s)[0]) && !IsSpace(Trim(s)[|Trim(s)| - 1])
  {
    hide IsSpace;
    front := FrontSpaces(s);
    back := BackSpaces(TrimStart(s));
    assert s == front + (Trim(s) + back) == front + Trim(s) + back;
    if Trim(s) != "" {
      assert TrimStart(s)[0] == Trim(s)[0];
    }
  }

  lemma {:induction false} FrontSpaces(s: string) returns (front: string)
    ensures s == front + TrimStart(s) && forall i :: 0 <= i < |front| ==> IsSpace(front[i])
    ensures TrimStart(s) != "" ==> !IsSpace(TrimStart(s)[0])
  {
    hide IsSpace;
    if s != "" && IsSpace(s[0]) {
      var rest := FrontSpaces(s[1..]);
      front := [s[0]] + rest;
      assert s == [s[0]] + s[1..];
    } else {
      front := "";
    }
  }

  lemma {:induction false} BackSpaces(s: string) returns (back: string)
    ensures s == TrimEnd(s) + back && forall i :: 0 <= i < |back| ==> IsSpace(back[i])
    ensures TrimEnd(s) != "" ==> !IsSpace(TrimEnd(s)[|TrimEnd(s)| - 1])
  {
    hide IsSpace;
    if s != "" && IsSpace(s[|s| - 1]) {
      var rest := BackSpaces(s[..|s| - 1]);
      back := rest + [s[|s| - 1]];
      assert s == s[..|s| - 1] + [s[|s| - 1]];
    } else {
      back := "";
    }
  }

  /**
   * A bigint is passed on unless negative; a text is refused exactly if,
   * trimmed, it is no decimal; so is a negative amount to print.
   */
  lemma RefusesExactly(n: int, s: string)
    ensures ToCentipoints(Big(n)) == if n < 0 then Err(RangeError) else Ok(n)
    ensures !IsDecimal(Trim(s)) <==> ToCentipoints(Text(s)) == Err(TypeError)
    ensures n < 0 <==> FromCentipoints(n) == Err(RangeError)
  {
  }

  lemma ZeroDigit()
    ensures ToNat("0") == 0
  {
    assert "0"[..0] == "";
  }

  /** The accepted texts are exactly: digits, or digits '.' digits, with no part empty. */
  lemma AcceptsExactly(d: string)
    ensures IsDecimal(d) <==>
            || (d != "" && AllDigits(d))
            || exists i, f :: i != "" && f != "" && AllDigits(i) && AllDigits(f) && d == i + "." + f
  {
    if IsDecimal(d) && IndexOfDot(d).Some? {
      assert d == IntPart(d) + "." + FracPart(d);
    }
    if d != "" && AllDigits(d) {
      assert '.' !in d;
    }
    if i, f :| i != "" && f != "" && AllDigits(i) && AllDigits(f) && d == i + "." + f {
      Joined(i, f);
    }
  }

  lemma {:induction false} Joined(i: string, f: string)
    requires AllDigits(i)
    ensures IndexOfDot(i + "." + f) == Some(|i|) && IntPart(i + "." + f) == i && FracPart(i + "." + f) == f
  {
    var d := i + "." + f;
    if i != "" {
      Joined(i[1..], f);
      assert d[1..] == i[1..] + "." + f;
    }
  }

  lemma NoTrim(s: string)
    requires s != "" && !IsSpace(s[0]) && !IsSpace(s[|s| - 1])
    ensures Trim(s) == s
  {
  }

  lemma PrintedShape(n: nat)
    ensures var text := FromCentipoints(n).value; var cents := OfNat(n % 100);
      var f := if |cents| < 2 then "0" + cents else cents;
      && |f| == 2 && AllDigits(f) && ToNat(f) == n % 100
      && Trim(text) == text && IntPart(text) == OfNat(n / 100) && FracPart(text) == f && IsDecimal(text)
  {
    var cents := OfNat(n % 100);
    ReadBack(n % 100);
    ReadBack(n / 100);
    var f := if |cents| < 2 then "0" + cents else cents;
    if n % 100 < 10 {
      assert f[..1] == "0" && cents[..0] == "";
      ZeroDigit();
    } else {
      assert cents == OfNat(n % 100 / 10) + [DigitChar(n % 100 % 10)];
    }
    PartsShape(OfNat(n / 100), f);
  }

  /** A text put together from digits, a dot and digits comes apart as it was put together. */
  lemma PartsShape(i: string, f: string)
    requires i != "" && f != "" && AllDigits(i) && AllDigits(f)
    ensures var text := i + "." + f; Trim(text) == text && IntPart(text) == i && FracPart(text) == f && IsDecimal(text)
  {
    hide Trim, IntPart, FracPart;
    Joined(i, f);
    NoTrim(i + "." + f);
  }

  /** Printing then parsing gives the amount back, for every amount. */
  lemma RoundTrip(n: nat)
    ensures FromCentipoints(n).Ok? && ToCentipoints(Text(FromCentipoints(n).value)) == Ok(n)
  {
    PrintedShape(n);
    ReadsPrinted(n, FromCentipoints(n).value);
  }

  lemma ReadsPrinted(n: nat, text: string)
    requires IsDecimal(text) && IntPart(text) == OfNat(n / 100) && |FracPart(text)| == 2
              && ToNat(FracPart(text)) == n % 100
    ensures ParseDecimal(text) == n
  {
    ParseParts(text);
    ReadBack(n / 100);
    assert TwoDigits(FracPart(text)) == FracPart(text);
  }

  /** The canonical two-digit form of a decimal text. */
  function Canonical(d: string): string
    requires IsDecimal(d)
  {
    (if StripZeros(IntPart(d)) == "" then "0" else StripZeros(IntPart(d))) + "." + TwoDigits(FracPart(d))
  }

  lemma TwoDigitNumeral(t: string)
    requires |t| == 2 && AllDigits(t)
    ensures ToNat(t) < 100
    ensures var cents := OfNat(ToNat(t)); t == if |cents| < 2 then "0" + cents else cents
  {
    assert t[..1] == [t[0]] && [t[0]][..0] == "";
    assert ToNat([t[0]]) == DigitValue(t[0]);
    var a, b := DigitValue(t[0]), DigitValue(t[1]);
    assert ToNat(t) == a * 10 + b;
    assert t == [DigitChar(a), DigitChar(b)];
    if a > 0 {
      assert OfNat(ToNat(t)) == [DigitChar(a)] + [DigitChar(b)];
    }
  }

  /** Parsing then printing gives the canonical form; parsing that again changes nothing. */
  lemma PrintsCanonical(s: string)
    requires IsDecimal(Trim(s))
    ensures var n := ToCentipoints(Text(s)).value;
      && FromCentipoints(n) == Ok(Canonical(Trim(s)))
      && ToCentipoints(Text(Canonical(Trim(s)))) == Ok(n)
  {
    var d := Trim(s);
    var i, t := IntPart(d), TwoDigits(FracPart(d));
    ParseParts(d);
    TwoDigitNumeral(t);
    WriteBack(i);
    var n := ToCentipoints(Text(s)).value;
    assert n / 100 == ToNat(i) && n % 100 == ToNat(t);
    RoundTrip(n);
  }

  lemma {:induction false} ZerosVanish(z: string, s: string)
    requires forall k :: 0 <= k < |z| ==> z[k] == '0'
    ensures StripZeros(z + s) == StripZeros(s)
  {
    if z == "" {
      assert z + s == s;
    } else {
      assert (z + s)[1..] == z[1..] + s;
      ZerosVanish(z[1..], s);
    }
  }

  /** Leading zeros do not change what a text denotes. */
  lemma LeadingZerosIgnored(z: string, d: string)
    requires IsDecimal(d) && forall k :: 0 <= k < |z| ==> z[k] == '0'
    ensures IsDecimal(z + d) && ParseDecimal(z + d) == ParseDecimal(d)
  {
    ZerosVanish(z, IntPart(d));
    if IndexOfDot(d).Some? {
      assert d == IntPart(d) + "." + FracPart(d);
      assert z + d == (z + IntPart(d)) + "." + FracPart(d);
      Joined(z + IntPart(d), FracPart(d));
    }
  }
}
