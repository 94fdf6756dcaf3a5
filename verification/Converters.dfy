/** packages/domain-lib/src/converters.ts: decimal strings to scaled integers and back. */
module Converters {
  import opened Common
  import opened Digits

  datatype ConvertError = RegexFailed | TooManyDecimals

  const MAX_INTEGER_DIGITS: nat := 18
  const MAX_DECIMALS: nat := 4

  /** Index of the first dot, or the length when there is none. */
  function DotIndex(s: string): (i: nat)
    ensures i <= |s|
  {
    if s == [] || s[0] == '.' then 0 else 1 + DotIndex(s[1..])
  }

  predicate IntegerPart(s: string)
  {
    s == "0" || (1 <= |s| <= MAX_INTEGER_DIGITS && s[0] != '0' && AllDigits(s, 10))
  }

  predicate FractionPart(s: string)
  {
    1 <= |s| <= MAX_DECIMALS && AllDigits(s, 10) && s[|s| - 1] != '0'
  }

  predicate AcceptsUnsigned(s: string)
  {
    var dot := DotIndex(s);
    IntegerPart(s[..dot]) && (dot < |s| ==> FractionPart(s[dot + 1..]))
  }

  /** The amount grammar: an optional minus sign, an integer part, an optional fraction. */
  predicate Accepts(s: string)
  {
    AcceptsUnsigned(if |s| > 0 && s[0] == '-' then s[1..] else s)
  }

  /** The digits of an unsigned amount without its dot. */
  function WithoutDot(s: string): string
  {
    var dot := DotIndex(s);
    if dot < |s| then s[..dot] + s[dot + 1..] else s
  }

  function DecimalsOf(s: string): nat
  {
    var dot := DotIndex(s);
    if dot < |s| then |s| - dot - 1 else 0
  }

  function StringToBigint(s: string, decimals: nat): Result<int, ConvertError>
  {
    if !Accepts(s) then Err(RegexFailed)
    else if DecimalsOf(s) > decimals then Err(TooManyDecimals)
    else
      var padding := Zeros(decimals - DecimalsOf(s));
      var magnitude: int := FromBase(WithoutDot(if s[0] == '-' then s[1..] else s) + padding, 10);
      Ok(if s[0] == '-' then -magnitude else magnitude)
  }

  function StripZeros(s: string): string
  {
    if s != [] && s[|s| - 1] == '0' then StripZeros(s[..|s| - 1]) else s
  }

  function StripDot(s: string): string
  {
    if s != [] && s[|s| - 1] == '.' then s[..|s| - 1] else s
  }

  function SignedDigits(v: int): string
  {
    if v < 0 then "-" + ToBase(-v, 10) else ToBase(v, 10)
  }

  function Padded(s: string, decimals: nat): (r: string)
    ensures |r| > decimals
  {
    if |s| <= decimals then Zeros(decimals - |s| + 1) + s else s
  }

  function InsertDot(s: string, decimals: nat): string
    requires |s| >= decimals
  {
    s[..|s| - decimals] + "." + s[|s| - decimals..]
  }

  /** What `bigintToString` returns. */
  function Printed(v: int, decimals: nat): string
  {
    if v == 0 then "0" else StripDot(StripZeros(InsertDot(Padded(SignedDigits(v), decimals), decimals)))
  }

  method BigintToString(v: int, decimals: nat) returns (r: string)
    ensures r == Printed(v, decimals)
  {
    hide ToBase, StripZeros, StripDot;
    if v == 0 {
      return "0";
    }
    var text := SignedDigits(v);
    if |text| <= decimals {
      text := Zeros(decimals - |text| + 1) + text;
    }
    var dotIdx := |text| - decimals;
    r := StripTail(text[..dotIdx] + "." + text[dotIdx..]);
  }

  /** The trailing part of the printer: a loop over the zeros, then the dot. */
  method StripTail(text: string) returns (r: string)
    ensures r == StripDot(StripZeros(text))
  {
    r := text;
    while r != [] && r[|r| - 1] == '0'
      invariant StripZeros(r) == StripZeros(text)
      decreases |r|
    {
      r := r[..|r| - 1];
    }
    if r != [] && r[|r| - 1] == '.' {
      r := r[..|r| - 1];
    }
  }

  // ----- the value printed for a non-negative integer, taken apart

  function Bound(decimals: nat): nat { Pow(10, MAX_INTEGER_DIGITS + decimals) }

  /** With more than four decimals only multiples of this can be written down. */
  function Unit(decimals: nat): nat { if decimals <= MAX_DECIMALS then 1 else Pow(10, decimals - MAX_DECIMALS) }

  ghost predicate RoundTrips(v: int, decimals: nat)
  {
    StringToBigint(Printed(v, decimals), decimals) == Ok(v)
  }

  predicate Readable(v: int, decimals: nat)
  {
    0 <= v < Bound(decimals) && Unit(decimals) > 0 && v % Unit(decimals) == 0
  }

  function Joined(i: string, f: string): string
  {
    if f == [] then i else i + "." + f
  }

  lemma ConcatAssoc(a: string, b: string, c: string)
    ensures a + b + c == a + (b + c)
  {
  }

  lemma {:induction false} FirstDot(s: string, n: nat)
    requires n < |s| && s[n] == '.' && '.' !in s[..n]
    ensures DotIndex(s) == n
  {
    if n > 0 {
      assert s[..n][0] == s[0];
      forall c | c in s[1..][..n - 1] ensures c in s[..n] {
        var k :| 0 <= k < n - 1 && s[1..][..n - 1][k] == c;
        assert s[..n][k + 1] == c;
      }
      FirstDot(s[1..], n - 1);
    }
  }

  lemma DotIndexOfJoin(i: string, f: string)
    requires '.' !in i
    ensures DotIndex(i + "." + f) == |i|
  {
    FirstDot(i + "." + f, |i|);
  }

  lemma {:induction false} DotIndexWithoutDot(i: string)
    requires '.' !in i
    ensures DotIndex(i) == |i|
  {
    if i != [] {
      forall c | c in i[1..] ensures c in i {}
      DotIndexWithoutDot(i[1..]);
    }
  }

  lemma {:induction false} DotAtIndex(s: string)
    ensures DotIndex(s) < |s| ==> s[DotIndex(s)] == '.'
  {
    if s != [] && s[0] != '.' {
      DotAtIndex(s[1..]);
    }
  }

  lemma DigitsHaveNoDot(s: string)
    requires AllDigits(s, 10)
    ensures '.' !in s && '-' !in s
  {
    forall c | c in s ensures IsDigit(c, 10) {
      var k :| 0 <= k < |s| && s[k] == c;
      assert IsDigit(s[k], 10);
    }
  }

  /** A joined amount is accepted, and read, part by part. */
  lemma ReadJoined(i: string, f: string, decimals: nat)
    requires AllDigits(i, 10) && AllDigits(f, 10) && i != []
    ensures Accepts(Joined(i, f)) <==> IntegerPart(i) && (f == [] || FractionPart(f))
    ensures Accepts(Joined(i, f)) && |f| <= decimals ==>
              StringToBigint(Joined(i, f), decimals) == Ok(FromBase(i + f + Zeros(decimals - |f|), 10))
    ensures Accepts(Joined(i, f)) && |f| > decimals ==> StringToBigint(Joined(i, f), decimals).Err?
  {
    DigitsHaveNoDot(i);
    var s := Joined(i, f);
    assert s[0] == i[0] && IsDigit(i[0], 10);
    if f == [] {
      DotIndexWithoutDot(i);
      assert i[..|i|] == i;
      assert i + f == i;
    } else {
      DotIndexOfJoin(i, f);
      assert s[..|i|] == i && s[|i| + 1..] == f;
    }
  }

  lemma {:induction false} StripZerosSplit(s: string, n: nat)
    requires s == [] || s[|s| - 1] != '0'
    ensures StripZeros(s + Zeros(n)) == s
  {
    if n == 0 {
      assert s + Zeros(0) == s;
    } else {
      StripZerosSplit(s, n - 1);
      assert (s + Zeros(n))[..|s| + n - 1] == s + Zeros(n - 1);
    }
  }

  /** Every digit string is a part without trailing zeros followed by zeros. */
  lemma {:induction false} Stripped(f: string)
    requires AllDigits(f, 10)
    ensures var g := StripZeros(f);
            |g| <= |f| && f == g + Zeros(|f| - |g|) && AllDigits(g, 10) && (g == [] || g[|g| - 1] != '0')
    decreases |f|
  {
    if f != [] && f[|f| - 1] == '0' {
      Stripped(f[..|f| - 1]);
      var g := StripZeros(f);
      assert f == f[..|f| - 1] + "0";
      assert Zeros(|f| - 1 - |g|) + "0" == Zeros(|f| - |g|);
    } else {
      assert f + Zeros(0) == f;
    }
  }

  /** The padded digits of v > 0: integer part and fraction part. */
  lemma PaddedDigits(v: nat, decimals: nat)
    ensures var p := Padded(ToBase(v, 10), decimals);
            && |p| > decimals && AllDigits(p, 10) && FromBase(p, 10) == v
            && (|p| == decimals + 1 || p[0] != '0')
            && (|p| - decimals <= MAX_INTEGER_DIGITS <==> v < Bound(decimals))
  {
    var t := ToBase(v, 10);
    ToBaseCanonical(v, 10);
    ToBaseLength(v, 10, MAX_INTEGER_DIGITS + decimals);
    if |t| <= decimals {
      LeadingZeros(decimals - |t| + 1, t, 10);
    }
  }

  /** Where the dot goes in and what is stripped, for any padded digits. */
  lemma StripInserted(head: string, f: string)
    requires AllDigits(f, 10)
    ensures InsertDot(head + f, |f|) == head + "." + f
    ensures StripDot(StripZeros(InsertDot(head + f, |f|))) == Joined(head, StripZeros(f))
  {
    var p := head + f;
    assert p[..|p| - |f|] == head && p[|p| - |f|..] == f;
    StripAfterDot(head, f);
  }

  /** At most four decimals are left exactly when v is a multiple of the unit. */
  lemma FractionFits(i: string, f: string)
    requires AllDigits(i, 10) && AllDigits(f, 10)
    ensures Unit(|f|) > 0
    ensures |StripZeros(f)| <= MAX_DECIMALS <==> FromBase(i + f, 10) % Unit(|f|) == 0
  {
    Stripped(f);
    if |f| > MAX_DECIMALS {
      var head, tail := f[..MAX_DECIMALS], f[MAX_DECIMALS..];
      assert i + f == (i + head) + tail;
      TrailingZeros(i + head, tail, 10);
      TailIsZeros(f);
    }
  }

  lemma TailIsZeros(f: string)
    requires AllDigits(f, 10) && |f| > MAX_DECIMALS
    ensures |StripZeros(f)| <= MAX_DECIMALS <==> f[MAX_DECIMALS..] == Zeros(|f| - MAX_DECIMALS)
  {
    var g := StripZeros(f);
    Stripped(f);
    if |g| > MAX_DECIMALS {
      assert f[MAX_DECIMALS..][|g| - 1 - MAX_DECIMALS] == g[|g| - 1];
    }
  }

  /** The two parts that are printed for v > 0, and what can be read off them. */
  lemma PrintedForm(v: nat, decimals: nat) returns (i: string, g: string)
    requires v > 0
    ensures Printed(v, decimals) == Joined(i, g)
    ensures AllDigits(i, 10) && AllDigits(g, 10) && i != [] && |g| <= decimals
    ensures |i| == 1 || i[0] != '0'
    ensures g == [] || g[|g| - 1] != '0'
    ensures FromBase(i + g + Zeros(decimals - |g|), 10) == v
    ensures |i| <= MAX_INTEGER_DIGITS <==> v < Bound(decimals)
    ensures Unit(decimals) > 0
    ensures |g| <= MAX_DECIMALS <==> v % Unit(decimals) == 0
  {
    PaddedDigits(v, decimals);
    i, g := FormOfPadded(Padded(ToBase(v, 10), decimals), decimals);
  }

  lemma FormOfPadded(p: string, decimals: nat) returns (i: string, g: string)
    requires |p| > decimals && AllDigits(p, 10)
    ensures StripDot(StripZeros(InsertDot(p, decimals))) == Joined(i, g)
    ensures AllDigits(i, 10) && AllDigits(g, 10) && |g| <= decimals
    ensures |i| == |p| - decimals && i[0] == p[0]
    ensures g == [] || g[|g| - 1] != '0'
    ensures i + g + Zeros(decimals - |g|) == p
    ensures Unit(decimals) > 0
    ensures |g| <= MAX_DECIMALS <==> FromBase(p, 10) % Unit(decimals) == 0
  {
    var f;
    i, f := SplitAtDot(p, decimals);
    g := StripZeros(f);
    StripInserted(i, f);
    Stripped(f);
    FractionFits(i, f);
    ConcatAssoc(i, g, Zeros(decimals - |g|));
  }

  lemma SplitAtDot(p: string, decimals: nat) returns (i: string, f: string)
    requires |p| > decimals && AllDigits(p, 10)
    ensures p == i + f && |f| == decimals && i != [] && i[0] == p[0]
    ensures AllDigits(i, 10) && AllDigits(f, 10)
  {
    i, f := p[..|p| - decimals], p[|p| - decimals..];
  }

  /** Reading back a printed amount works exactly below 10^(18 + decimals). */
  lemma PrintThenRead(v: nat, decimals: nat)
    ensures RoundTrips(v, decimals) <==> Readable(v, decimals)
    ensures !Readable(v, decimals) ==> StringToBigint(Printed(v, decimals), decimals) == Err(RegexFailed)
  {
    if v == 0 {
      ReadZero(decimals);
    } else {
      var i, g := PrintedForm(v, decimals);
      ReadJoined(i, g, decimals);
      assert FractionPart(g) || g == [] <==> |g| <= MAX_DECIMALS;
    }
  }

  lemma ReadZero(decimals: nat)
    ensures StringToBigint("0", decimals) == Ok(0) && Readable(0, decimals)
  {
    assert Joined("0", []) == "0";
    ReadJoined("0", [], decimals);
    FromBaseZeros(decimals + 1, 10);
    assert "0" + [] + Zeros(decimals) == Zeros(decimals + 1);
    PowPositive(10, MAX_INTEGER_DIGITS + decimals);
    if decimals > MAX_DECIMALS {
      PowPositive(10, decimals - MAX_DECIMALS);
    }
  }

  /** Different amounts are printed differently, also those that cannot be read back. */
  lemma PrintedApart(v: nat, w: nat, decimals: nat)
    ensures Printed(v, decimals) == Printed(w, decimals) <==> v == w
  {
    if v != w && v > 0 && w > 0 {
      var i, f := PrintedForm(v, decimals);
      var j, g := PrintedForm(w, decimals);
      JoinedApart(i, f, j, g);
    } else if v != w {
      NotPrintedAsZero(if v > 0 then v else w, decimals);
    }
  }

  lemma JoinedApart(i: string, f: string, j: string, g: string)
    requires AllDigits(i, 10) && AllDigits(f, 10) && AllDigits(j, 10) && AllDigits(g, 10)
    ensures Joined(i, f) == Joined(j, g) <==> i == j && f == g
  {
    SplitJoined(i, f);
    SplitJoined(j, g);
  }

  lemma SplitJoined(i: string, f: string)
    requires AllDigits(i, 10)
    ensures var s := Joined(i, f); DotIndex(s) == |i| && s[..|i|] == i && (f != [] ==> |s| > |i| && s[|i| + 1..] == f)
    ensures f == [] ==> |Joined(i, f)| == |i|
  {
    DigitsHaveNoDot(i);
    if f == [] {
      DotIndexWithoutDot(i);
    } else {
      DotIndexOfJoin(i, f);
    }
  }

  lemma NotPrintedAsZero(v: nat, decimals: nat)
    requires v > 0
    ensures Printed(v, decimals) != "0"
  {
    var i, g := PrintedForm(v, decimals);
    assert Joined("0", []) == "0";
    JoinedApart(i, g, "0", []);
    FromBaseZeros(decimals + 1, 10);
    assert "0" + [] + Zeros(decimals) == Zeros(decimals + 1);
  }

  /** Every accepted string without a sign is a joined pair of parts. */
  lemma AcceptedParts(s: string)
    requires AcceptsUnsigned(s)
    ensures var dot := DotIndex(s);
            var i, f := s[..dot], if dot < |s| then s[dot + 1..] else [];
            s == Joined(i, f) && AllDigits(i, 10) && AllDigits(f, 10) && i != [] && |f| == DecimalsOf(s)
  {
    DotAtIndex(s);
  }

  /** The value of a canonical pair of parts prints as that pair. */
  lemma PrintJoined(i: string, f: string, tail: string)
    requires IntegerPart(i) && (f == [] || FractionPart(f)) && |f| <= |tail|
    requires tail == f + Zeros(|tail| - |f|)
    ensures Printed(FromBase(i + tail, 10), |tail|) == Joined(i, f)
  {
    StripZerosSplit(f, |tail| - |f|);
    if FromBase(i + tail, 10) == 0 {
      PrintJoinedZero(i, f, |tail| - |f|);
    } else {
      PrintParts(i, tail);
    }
  }

  lemma ReadableParts(i: string, tail: string)
    requires IntegerPart(i) && AllDigits(tail, 10) && |StripZeros(tail)| <= MAX_DECIMALS
    ensures Readable(FromBase(i + tail, 10), |tail|)
  {
    FractionFits(i, tail);
    FromBaseBound(i + tail, 10);
    PowMonotone(10, |i + tail|, MAX_INTEGER_DIGITS + |tail|);
  }

  lemma PrintParts(i: string, tail: string)
    requires IntegerPart(i) && AllDigits(tail, 10) && FromBase(i + tail, 10) != 0
    ensures Printed(FromBase(i + tail, 10), |tail|) == Joined(i, StripZeros(tail))
  {
    PrintOfDigits(i + tail, |tail|);
    StripInserted(i, tail);
  }

  lemma PrintJoinedZero(i: string, f: string, n: nat)
    requires IntegerPart(i) && (f == [] || FractionPart(f)) && FromBase(i + (f + Zeros(n)), 10) == 0
    ensures Joined(i, f) == "0"
  {
    var p := i + (f + Zeros(n));
    assert AllDigits(p, 10);
    ZeroIsZeros(p);
    assert p[0] == i[0];
    var k := |i| + |f| - 1;
    assert p[k] == (i + f)[k];
  }

  /** Printing what was read from a non-negative amount gives the same string. */
  lemma ReadThenPrint(s: string, decimals: nat)
    requires Accepts(s) && s[0] != '-' && DecimalsOf(s) <= decimals
    ensures StringToBigint(s, decimals).Ok?
    ensures Readable(StringToBigint(s, decimals).value, decimals)
    ensures Printed(StringToBigint(s, decimals).value, decimals) == s
  {
    var dot := DotIndex(s);
    var i, f := s[..dot], if dot < |s| then s[dot + 1..] else [];
    AcceptedParts(s);
    ReadJoined(i, f, decimals);
    ReadThenPrintParts(i, f, decimals);
  }

  lemma ReadThenPrintParts(i: string, f: string, decimals: nat)
    requires IntegerPart(i) && (f == [] || FractionPart(f)) && |f| <= decimals
    ensures Readable(FromBase(i + f + Zeros(decimals - |f|), 10), decimals)
    ensures Printed(FromBase(i + f + Zeros(decimals - |f|), 10), decimals) == Joined(i, f)
  {
    hide Readable, Printed, FromBase, StripZeros, IntegerPart, Joined;
    var tail := f + Zeros(decimals - |f|);
    ConcatAssoc(i, f, Zeros(decimals - |f|));
    StripZerosSplit(f, decimals - |f|);
    assert AllDigits(tail, 10) by { PaddedTail(f, decimals - |f|); }
    ReadableParts(i, tail);
    PrintJoined(i, f, tail);
  }

  lemma PaddedTail(f: string, n: nat)
    requires AllDigits(f, 10)
    ensures AllDigits(f + Zeros(n), 10)
  {
  }

  lemma ZeroIsZeros(p: string)
    requires AllDigits(p, 10) && FromBase(p, 10) == 0
    ensures p == Zeros(|p|)
  {
    FromBaseZeros(|p|, 10);
    FromBaseInjective(p, Zeros(|p|), 10);
  }

  /** A digit string in canonical width is the padded form of its value. */
  lemma PrintOfDigits(p: string, decimals: nat)
    requires AllDigits(p, 10) && |p| > decimals && (|p| == decimals + 1 || p[0] != '0')
    ensures Padded(ToBase(FromBase(p, 10), 10), decimals) == p
  {
    var v := FromBase(p, 10);
    var t := ToBase(v, 10);
    FromBaseBound(p, 10);
    ToBaseLength(v, 10, |p|);
    ToBaseCanonical(v, 10);
    PaddedUnique(p, t, 10);
    var n := |p| - |t|;
    assert p == Zeros(n) + t;
    if n > 0 {
      assert Zeros(n)[0] == '0';
      assert p[0] == '0';
    } else {
      assert Zeros(n) + t == t;
    }
  }

  // ----- negative amounts, which the printer only gets right from one whole unit on

  lemma ReadNegative(s: string, decimals: nat)
    requires s != [] && s[0] != '-'
    ensures Accepts("-" + s) <==> Accepts(s)
    ensures StringToBigint("-" + s, decimals).Ok? <==> StringToBigint(s, decimals).Ok?
    ensures StringToBigint(s, decimals).Ok? ==>
              StringToBigint("-" + s, decimals) == Ok(-StringToBigint(s, decimals).value)
  {
    var n := "-" + s;
    assert n[1..] == s;
    assert DotIndex(n) == 1 + DotIndex(n[1..]);
  }

  /** The signed printer puts the sign before the padding, so it is exact only from 10^decimals on. */
  lemma PrintThenReadNegative(m: int, decimals: nat)
    requires m > 0
    ensures RoundTrips(-m, decimals) <==> Readable(m, decimals) && m >= Pow(10, decimals)
  {
    if m >= Pow(10, decimals) {
      LongNegative(m, decimals);
    } else {
      ShortNegative(m, decimals);
    }
  }

  lemma LongNegative(m: int, decimals: nat)
    requires m > 0 && m >= Pow(10, decimals)
    ensures RoundTrips(-m, decimals) <==> Readable(m, decimals)
  {
    LongEnough(m, decimals);
    PrintedNegativeLong(m, decimals);
    PrintThenRead(m, decimals);
    PrintedStart(m, decimals);
    SignedRoundTrip(m, Printed(m, decimals), decimals);
  }

  lemma SignedRoundTrip(m: int, s: string, decimals: nat)
    requires s != [] && s[0] != '-'
    ensures StringToBigint("-" + s, decimals) == Ok(-m) <==> StringToBigint(s, decimals) == Ok(m)
  {
    ReadNegative(s, decimals);
  }

  lemma ShortNegative(m: int, decimals: nat)
    requires 0 < m < Pow(10, decimals)
    ensures !RoundTrips(-m, decimals)
  {
    LongEnough(m, decimals);
    ToBaseCanonical(m, 10);
    ShortRefused(ToBase(m, 10), decimals);
  }

  lemma LongEnough(v: nat, decimals: nat)
    requires v > 0
    ensures |ToBase(v, 10)| > decimals <==> v >= Pow(10, decimals)
  {
    if decimals > 0 {
      ToBaseLength(v, 10, decimals);
    }
  }

  lemma PrintedStart(v: nat, decimals: nat)
    ensures Printed(v, decimals) != [] && Printed(v, decimals)[0] != '-'
  {
    if v > 0 {
      var i, g := PrintedForm(v, decimals);
      assert Printed(v, decimals)[0] == i[0] && IsDigit(i[0], 10);
    }
  }

  lemma PrintedNegativeLong(m: int, decimals: nat)
    requires m > 0 && |ToBase(m, 10)| > decimals
    ensures Printed(-m, decimals) == "-" + Printed(m, decimals)
  {
    ToBaseCanonical(m, 10);
    var i, f := SplitAtDot(ToBase(m, 10), decimals);
    StripInserted(i, f);
    StripInserted("-" + i, f);
    ConcatAssoc("-", i, f);
    ConcatAssoc("-", i, "." + StripZeros(f));
    ConcatAssoc(i, ".", StripZeros(f));
    ConcatAssoc("-" + i, ".", StripZeros(f));
  }

  /** Stripping never gets past the dot, whatever stands before it. */
  lemma StripAfterDot(head: string, f: string)
    requires AllDigits(f, 10)
    ensures StripDot(StripZeros(head + "." + f)) == Joined(head, StripZeros(f))
  {
    hide StripZeros, StripDot, Joined;
    var g := StripZeros(f);
    Stripped(f);
    var s := head + "." + g;
    assert head + "." + f == s + Zeros(|f| - |g|);
    StripZerosSplit(s, |f| - |g|);
    DotStripped(head, g);
  }

  lemma DotStripped(head: string, g: string)
    requires AllDigits(g, 10)
    ensures StripDot(head + "." + g) == Joined(head, g)
  {
    var s := head + "." + g;
    if g == [] {
      assert s[..|head|] == head;
    } else {
      assert IsDigit(s[|s| - 1], 10);
    }
  }

  lemma ShortRefused(t: string, decimals: nat)
    requires AllDigits(t, 10) && 0 < |t| <= decimals && t[0] != '0'
    ensures !Accepts(StripDot(StripZeros(InsertDot(Padded("-" + t, decimals), decimals))))
  {
    hide Accepts, StripDot, StripZeros, Joined, InsertDot;
    if |t| == decimals {
      StripInserted("-", t);
      RefusedBareSign(StripZeros(t));
    } else {
      SignInFraction(t, decimals - |t| - 1);
    }
  }

  lemma RefusedBareSign(g: string)
    ensures !Accepts(Joined("-", g))
  {
    var s := Joined("-", g);
    if g == [] {
      assert s[1..] == [];
    } else {
      assert s[1..][0] == '.';
    }
  }

  /** The sign of a short negative number ends up behind the dot. */
  lemma SignInFraction(t: string, n: nat)
    requires AllDigits(t, 10) && t != [] && t[0] != '0'
    ensures !Accepts(StripDot(StripZeros(InsertDot(Padded("-" + t, |t| + n + 1), |t| + n + 1))))
  {
    hide Accepts, Padded, InsertDot;
    var g := StripZeros(t);
    Stripped(t);
    assert t[0] == (g + Zeros(|t| - |g|))[0];
    var head := "0." + Zeros(n) + "-";
    ConcatAssoc(head, g, Zeros(|t| - |g|));
    StripZerosSplit(head + g, |t| - |g|);
    SignInserted(t, n);
    SignRefused(n, g);
  }

  lemma SignInserted(t: string, n: nat)
    ensures InsertDot(Padded("-" + t, |t| + n + 1), |t| + n + 1) == "0." + Zeros(n) + "-" + t
  {
    var p := Padded("-" + t, |t| + n + 1);
    assert p == Zeros(n + 1) + ("-" + t);
    assert p[..1] == "0";
    assert p[1..] == Zeros(n) + "-" + t;
  }

  lemma SignRefused(n: nat, g: string)
    ensures !Accepts("0." + Zeros(n) + "-" + g)
  {
    var whole := "0." + Zeros(n) + "-" + g;
    FirstDot(whole, 1);
    assert whole[2..][n] == '-' && !IsDigit('-', 10);
  }

  /** Five hundredths below zero is printed as a string the grammar refuses. */
  lemma SmallNegativeFails()
    ensures !RoundTrips(-5, 2)
  {
    assert Pow(10, 2) == 100;
    ShortNegative(5, 2);
  }
}
