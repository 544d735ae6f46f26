/**
 * Decimal numerals, as JavaScript's `BigInt(text)` reads them and `String(n)` writes them.
 * Shared by the centipoint parser and printer and by the round display codes.
 */
module Decimal {
  predicate IsDigit(c: char) {
    '0' <= c <= '9'
  }

  predicate AllDigits(s: string) {
    forall i :: 0 <= i < |s| ==> IsDigit(s[i])
  }

  function DigitValue(c: char): nat
    requires IsDigit(c)
  {
    c as int - '0' as int
  }

  function DigitChar(d: nat): char
    requires d < 10
  {
    ('0' as int + d) as char
  }

  /** The number a digit string denotes; the empty string denotes zero. */
  function ToNat(s: string): nat
    requires AllDigits(s)
  {
    if s == "" then 0 else ToNat(s[..|s| - 1]) * 10 + DigitValue(s[|s| - 1])
  }

  /** The usual numeral, without leading zeros. */
  function OfNat(n: nat): string {
    if n < 10 then [DigitChar(n)] else OfNat(n / 10) + [DigitChar(n % 10)]
  }

  function StripZeros(s: string): string {
    if s != "" && s[0] == '0' then StripZeros(s[1..]) else s
  }

  lemma {:induction false} ReadBack(n: nat)
    ensures OfNat(n) != "" && AllDigits(OfNat(n)) && ToNat(OfNat(n)) == n
    ensures OfNat(n)[0] == '0' ==> n == 0
  {
    if n < 10 {
      assert OfNat(n)[..0] == "";
    } else {
      ReadBack(n / 10);
      var s := OfNat(n);
      assert s[..|s| - 1] == OfNat(n / 10);
    }
  }

  /** Numerals determine their numbers. */
  lemma OfNatInjective(m: nat, n: nat)
    requires OfNat(m) == OfNat(n)
    ensures m == n
  {
    ReadBack(m);
    ReadBack(n);
  }

  lemma {:induction false} StripZerosShape(s: string)
    requires AllDigits(s)
    ensures AllDigits(StripZeros(s)) && ToNat(StripZeros(s)) == ToNat(s)
    ensures StripZeros(s) != "" ==> StripZeros(s)[0] != '0'
  {
    if s != "" && s[0] == '0' {
      DropZero(s);
      StripZerosShape(s[1..]);
    }
  }

  lemma {:induction false} DropZero(s: string)
    requires AllDigits(s) && s != "" && s[0] == '0'
    ensures ToNat(s[1..]) == ToNat(s)
  {
    if |s| == 1 {
      assert s[..0] == "";
    } else {
      var t := s[..|s| - 1];
      DropZero(t);
      assert s[1..][..|s| - 2] == t[1..];
    }
  }

  /** Writing what was read drops exactly the leading zeros. */
  lemma {:induction false} WriteBack(s: string)
    requires AllDigits(s)
    ensures OfNat(ToNat(s)) == if StripZeros(s) == "" then "0" else StripZeros(s)
  {
    StripZerosShape(s);
    var t := StripZeros(s);
    if t != "" {
      WriteBackCanonical(t);
    }
  }

  lemma {:induction false} WriteBackCanonical(t: string)
    requires AllDigits(t) && t != "" && t[0] != '0'
    ensures ToNat(t) > 0 && OfNat(ToNat(t)) == t
  {
    var h := t[..|t| - 1];
    assert t == h + [t[|t| - 1]];
    if h == "" {
      assert t[..0] == "";
    } else {
      WriteBackCanonical(h);
      assert ToNat(t) / 10 == ToNat(h);
    }
  }
}
