/** Positional notation: the digit strings behind amounts, sequence numbers and UUIDs. */
module Digits {

  function Pow(base: nat, n: nat): nat
  {
    if n == 0 then 1 else base * Pow(base, n - 1)
  }

  predicate IsDigit(c: char, base: nat)
    requires 2 <= base <= 16
  {
    if base <= 10 then '0' <= c && c as int < '0' as int + base
    else '0' <= c <= '9' || ('a' <= c && c as int < 'a' as int + base - 10)
  }

  predicate AllDigits(s: string, base: nat)
    requires 2 <= base <= 16
  {
    forall i :: 0 <= i < |s| ==> IsDigit(s[i], base)
  }

  function DigitChar(d: nat): (c: char)
    requires d < 16
  {
    if d < 10 then '0' + d as char else 'a' + (d - 10) as char
  }

  function DigitValue(c: char): (d: nat)
    ensures d < 16
  {
    if '0' <= c <= '9' then c as int - '0' as int
    else if 'a' <= c <= 'f' then c as int - 'a' as int + 10
    else if 'A' <= c <= 'F' then c as int - 'A' as int + 10
    else 0
  }

  /** `n.toString(base)`: no leading zeros, lower-case letters. */
  function ToBase(n: nat, base: nat): (s: string)
    requires 2 <= base <= 16
    ensures |s| >= 1
    decreases n
  {
    if n < base then [DigitChar(n)] else ToBase(n / base, base) + [DigitChar(n % base)]
  }

  /** The value of the first n digits of s. */
  function PrefixValue(s: string, n: nat, base: nat): nat
    requires n <= |s|
  {
    if n == 0 then 0 else PrefixValue(s, n - 1, base) * base + DigitValue(s[n - 1])
  }

  function FromBase(s: string, base: nat): nat
  {
    PrefixValue(s, |s|, base)
  }

  lemma {:induction false} SamePrefix(s: string, t: string, n: nat, base: nat)
    requires n <= |s| && n <= |t| && forall i :: 0 <= i < n ==> s[i] == t[i]
    ensures PrefixValue(s, n, base) == PrefixValue(t, n, base)
  {
    if n > 0 {
      SamePrefix(s, t, n - 1, base);
    }
  }

  function Zeros(n: nat): (s: string)
    ensures |s| == n
    ensures forall i :: 0 <= i < n ==> s[i] == '0'
  {
    seq(n, _ => '0')
  }

  lemma DigitRoundTrip(d: nat, base: nat)
    requires 2 <= base <= 16 && d < base
    ensures IsDigit(DigitChar(d), base) && DigitValue(DigitChar(d)) == d
  {
  }

  lemma {:induction false} PowPositive(base: nat, n: nat)
    requires base >= 1
    ensures Pow(base, n) >= 1
  {
    if n > 0 {
      PowPositive(base, n - 1);
    }
  }

  lemma {:induction false} PowMonotone(base: nat, m: nat, n: nat)
    requires base >= 1 && m <= n
    ensures Pow(base, m) <= Pow(base, n)
  {
    if m < n {
      PowMonotone(base, m, n - 1);
      TimesGrows(base, Pow(base, n - 1));
    }
  }

  lemma TimesGrows(base: nat, p: nat)
    requires base >= 1
    ensures p <= base * p
  {
    Scale(1, base, p);
  }

  lemma {:induction false} PowAdd(base: nat, m: nat, n: nat)
    ensures Pow(base, m + n) == Pow(base, m) * Pow(base, n)
  {
    if n > 0 {
      PowAdd(base, m, n - 1);
      Regrouped(base, Pow(base, m), Pow(base, n - 1));
    }
  }

  lemma Regrouped(a: int, b: int, c: int)
    ensures a * (b * c) == b * (a * c)
  {
  }

  lemma DivMod(n: nat, base: nat)
    requires 2 <= base <= n
    ensures 0 < n / base < n
    ensures 0 <= n % base < base
    ensures (n / base) * base + n % base == n
  {
  }

  lemma FromBaseAppend(s: string, c: char, base: nat)
    ensures FromBase(s + [c], base) == FromBase(s, base) * base + DigitValue(c)
  {
    SamePrefix(s + [c], s, |s|, base);
  }

  /** The printed form has only digits, no leading zero, and the value it was printed from. */
  lemma {:induction false} ToBaseCanonical(n: nat, base: nat)
    requires 2 <= base <= 16
    ensures AllDigits(ToBase(n, base), base)
    ensures n > 0 ==> ToBase(n, base)[0] != '0'
    ensures FromBase(ToBase(n, base), base) == n
    decreases n
  {
    if n < base {
      DigitRoundTrip(n, base);
      FromBaseAppend([], DigitChar(n), base);
      assert [] + [DigitChar(n)] == [DigitChar(n)];
    } else {
      var q, r := n / base, n % base;
      DivMod(n, base);
      ToBaseCanonical(q, base);
      DigitRoundTrip(r, base);
      FromBaseAppend(ToBase(q, base), DigitChar(r), base);
    }
  }

  lemma FromBaseConcat(a: string, b: string, base: nat)
    ensures FromBase(a + b, base) == FromBase(a, base) * Pow(base, |b|) + FromBase(b, base)
  {
    ConcatPrefix(a, b, |b|, base);
  }

  lemma {:induction false} ConcatPrefix(a: string, b: string, n: nat, base: nat)
    requires n <= |b|
    ensures PrefixValue(a + b, |a| + n, base) == FromBase(a, base) * Pow(base, n) + PrefixValue(b, n, base)
  {
    if n == 0 {
      SamePrefix(a + b, a, |a|, base);
    } else {
      ConcatPrefix(a, b, n - 1, base);
      assert (a + b)[|a| + n - 1] == b[n - 1];
      Shift(FromBase(a, base), Pow(base, n - 1), PrefixValue(b, n - 1, base), base);
    }
  }

  lemma Shift(a: int, p: int, b: int, base: int)
    ensures (a * p + b) * base == a * (base * p) + b * base
  {
  }

  lemma Scale(a: int, b: int, c: nat)
    requires a <= b
    ensures a * c <= b * c
  {
  }

  lemma BoundStep(f: nat, d: nat, p: nat, base: nat)
    requires f < p && d < base
    ensures f * base + d < base * p
  {
    Scale(f + 1, p, base);
  }

  lemma FromBaseBound(s: string, base: nat)
    requires 2 <= base <= 16 && AllDigits(s, base)
    ensures FromBase(s, base) < Pow(base, |s|)
  {
    PrefixBound(s, |s|, base);
  }

  lemma {:induction false} PrefixBound(s: string, n: nat, base: nat)
    requires 2 <= base <= 16 && AllDigits(s, base) && n <= |s|
    ensures PrefixValue(s, n, base) < Pow(base, n)
  {
    if n > 0 {
      PrefixBound(s, n - 1, base);
      assert IsDigit(s[n - 1], base);
      BoundStep(PrefixValue(s, n - 1, base), DigitValue(s[n - 1]), Pow(base, n - 1), base);
    }
  }

  lemma FromBaseZeros(n: nat, base: nat)
    ensures FromBase(Zeros(n), base) == 0
  {
    ZerosPrefix(n, n, base);
  }

  lemma {:induction false} ZerosPrefix(n: nat, k: nat, base: nat)
    requires k <= n
    ensures PrefixValue(Zeros(n), k, base) == 0
  {
    if k > 0 {
      ZerosPrefix(n, k - 1, base);
    }
  }

  lemma LeadingZeros(n: nat, s: string, base: nat)
    ensures FromBase(Zeros(n) + s, base) == FromBase(s, base)
  {
    FromBaseConcat(Zeros(n), s, base);
    FromBaseZeros(n, base);
  }

  /** A first digit other than zero gives the number its full length. */
  lemma FromBaseAtLeast(s: string, base: nat)
    requires 2 <= base <= 16 && AllDigits(s, base) && |s| > 0 && s[0] != '0'
    ensures FromBase(s, base) >= Pow(base, |s| - 1)
  {
    PrefixAtLeast(s, |s|, base);
  }

  lemma {:induction false} PrefixAtLeast(s: string, n: nat, base: nat)
    requires 2 <= base <= 16 && AllDigits(s, base) && 0 < n <= |s| && s[0] != '0'
    ensures PrefixValue(s, n, base) >= Pow(base, n - 1)
  {
    if n == 1 {
      assert IsDigit(s[0], base);
      assert PrefixValue(s, 0, base) == 0;
    } else {
      PrefixAtLeast(s, n - 1, base);
      Scale(Pow(base, n - 2), PrefixValue(s, n - 1, base), base);
    }
  }

  /** Two digit strings of one length and one value are the same string. */
  lemma FromBaseInjective(a: string, b: string, base: nat)
    requires 2 <= base <= 16 && AllDigits(a, base) && AllDigits(b, base)
    requires |a| == |b| && FromBase(a, base) == FromBase(b, base)
    ensures a == b
  {
    PrefixInjective(a, b, |a|, base);
  }

  lemma {:induction false} PrefixInjective(a: string, b: string, n: nat, base: nat)
    requires 2 <= base <= 16 && AllDigits(a, base) && AllDigits(b, base) && n <= |a| && n <= |b|
    requires PrefixValue(a, n, base) == PrefixValue(b, n, base)
    ensures forall i :: 0 <= i < n ==> a[i] == b[i]
  {
    if n > 0 {
      var x, y := a[n - 1], b[n - 1];
      assert IsDigit(x, base) && IsDigit(y, base);
      LastDigit(PrefixValue(a, n - 1, base), DigitValue(x), PrefixValue(b, n - 1, base), DigitValue(y), base);
      PrefixInjective(a, b, n - 1, base);
    }
  }

  lemma LastDigit(p: int, d: nat, q: int, e: nat, base: nat)
    requires d < base && e < base && p * base + d == q * base + e
    ensures p == q && d == e
  {
    if p > q {
      Scale(q + 1, p, base);
    } else if p < q {
      Scale(p + 1, q, base);
    }
  }

  /** Printing never needs more than k digits exactly for the numbers below base^k. */
  lemma ToBaseLength(n: nat, base: nat, k: nat)
    requires 2 <= base <= 16 && k >= 1
    ensures |ToBase(n, base)| <= k <==> n < Pow(base, k)
  {
    var s := ToBase(n, base);
    ToBaseCanonical(n, base);
    FromBaseBound(s, base);
    PowPositive(base, k);
    if |s| <= k {
      PowMonotone(base, |s|, k);
    } else if n > 0 {
      FromBaseAtLeast(s, base);
      PowMonotone(base, k, |s| - 1);
    }
  }

  lemma ZerosAreDigits(n: nat, t: string, base: nat)
    requires 2 <= base <= 16 && AllDigits(t, base)
    ensures AllDigits(Zeros(n) + t, base)
  {
  }

  /** Padded to a fixed width, a digit string is determined by its value. */
  lemma PaddedUnique(s: string, t: string, base: nat)
    requires 2 <= base <= 16 && AllDigits(s, base) && AllDigits(t, base)
    requires FromBase(s, base) == FromBase(t, base) && |t| <= |s|
    ensures Zeros(|s| - |t|) + t == s
  {
    var n := |s| - |t|;
    LeadingZeros(n, t, base);
    ZerosAreDigits(n, t, base);
    FromBaseInjective(Zeros(n) + t, s, base);
  }

  /** Divisibility by a power of the base is seen in the last digits. */
  lemma TrailingZeros(a: string, b: string, base: nat)
    requires 2 <= base <= 16 && AllDigits(b, base)
    ensures Pow(base, |b|) > 0
    ensures FromBase(a + b, base) % Pow(base, |b|) == 0 <==> b == Zeros(|b|)
  {
    PowPositive(base, |b|);
    FromBaseConcat(a, b, base);
    FromBaseBound(b, base);
    FromBaseZeros(|b|, base);
    Remainder(FromBase(a, base), Pow(base, |b|), FromBase(b, base));
    if FromBase(b, base) == 0 {
      FromBaseInjective(b, Zeros(|b|), base);
    }
  }

  lemma Remainder(q: nat, p: nat, r: nat)
    requires r < p
    ensures (q * p + r) % p == r
  {
    var v := q * p + r;
    LastDigit(v / p, v % p, q, r, p);
  }
}
