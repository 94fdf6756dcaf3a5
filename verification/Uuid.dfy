/** The UUID conversions of the TigerBeetle adapter (_uuidToBigint and _bigIntToUuid). */
module Uuid {
  import opened Digits

  const HEX_DIGITS: nat := 32

  /** `uuid.replace(/-/g, "")` */
  function WithoutDashes(s: string): string
  {
    if s == [] then [] else (if s[0] == '-' then [] else [s[0]]) + WithoutDashes(s[1..])
  }

  function UuidToBigint(uuid: string): nat
  {
    var hex := WithoutDashes(uuid);
    FromBase(if |hex| % 2 != 0 then "0" + hex else hex, 16)
  }

  function Dashed(s: string): string
    requires |s| == HEX_DIGITS
  {
    s[..8] + "-" + s[8..12] + "-" + s[12..16] + "-" + s[16..20] + "-" + s[20..]
  }

  function PaddedHex(b: nat): (s: string)
    ensures |s| >= HEX_DIGITS
  {
    var s := ToBase(b, 16);
    if |s| < HEX_DIGITS then Zeros(HEX_DIGITS - |s|) + s else s
  }

  /** What `_bigIntToUuid` returns; a number over 128 bits keeps its digits without dashes. */
  function UuidText(b: nat): string
  {
    var s := PaddedHex(b);
    if |s| == HEX_DIGITS then Dashed(s) else s
  }

  method BigIntToUuid(b: nat) returns (str: string)
    ensures str == UuidText(b)
  {
    str := ToBase(b, 16);
    ghost var digits := str;
    while |str| < HEX_DIGITS
      invariant |str| >= |digits|
      invariant |str| <= HEX_DIGITS || str == digits
      invariant str == Zeros(|str| - |digits|) + digits
    {
      assert "0" + Zeros(|str| - |digits|) == Zeros(|str| - |digits| + 1);
      str := "0" + str;
    }
    assert str == PaddedHex(b);
    if |str| == HEX_DIGITS {
      str := str[..8] + "-" + str[8..12] + "-" + str[12..16] + "-" + str[16..20] + "-" + str[20..];
    }
  }

  /** A UUID in the form of section 4 of RFC 9562: lower-case 8-4-4-4-12. */
  predicate IsUuid(s: string)
  {
    |s| == 36 && s[8] == '-' && s[13] == '-' && s[18] == '-' && s[23] == '-'
    && AllDigits(s[..8] + s[9..13] + s[14..18] + s[19..23] + s[24..], 16)
  }

  lemma {:induction false} NoDashes(s: string)
    requires AllDigits(s, 16)
    ensures WithoutDashes(s) == s
  {
    if s != [] {
      assert IsDigit(s[0], 16);
      NoDashes(s[1..]);
    }
  }

  lemma DashStep(c: char, rest: string)
    ensures WithoutDashes([c] + rest) == (if c == '-' then [] else [c]) + WithoutDashes(rest)
  {
    assert ([c] + rest)[1..] == rest;
  }

  lemma {:induction false} WithoutDashesConcat(a: string, b: string)
    ensures WithoutDashes(a + b) == WithoutDashes(a) + WithoutDashes(b)
  {
    if a == [] {
      assert a + b == b;
    } else {
      var c, rest := a[0], a[1..];
      WithoutDashesConcat(rest, b);
      DashStep(c, rest);
      DashStep(c, rest + b);
      assert a == [c] + rest;
      assert a + b == [c] + (rest + b);
    }
  }

  /** Removing the dash between digits and the rest. */
  lemma DropDash(a: string, rest: string)
    requires AllDigits(a, 16)
    ensures WithoutDashes(a + "-" + rest) == a + WithoutDashes(rest)
  {
    assert a + "-" + rest == a + ("-" + rest);
    WithoutDashesConcat(a, "-" + rest);
    DashStep('-', rest);
    NoDashes(a);
  }

  lemma DashedWithoutDashes(s: string)
    requires |s| == HEX_DIGITS && AllDigits(s, 16)
    ensures WithoutDashes(Dashed(s)) == s
  {
    var a, b, c, d, e := s[..8], s[8..12], s[12..16], s[16..20], s[20..];
    assert Dashed(s) == a + "-" + (b + "-" + (c + "-" + (d + "-" + e)));
    NoDashes(e);
    DropDash(d, e);
    DropDash(c, d + "-" + e);
    DropDash(b, c + "-" + (d + "-" + e));
    DropDash(a, b + "-" + (c + "-" + (d + "-" + e)));
    assert a + (b + (c + (d + e))) == s;
  }

  lemma PaddedHexValue(b: nat)
    ensures AllDigits(PaddedHex(b), 16) && FromBase(PaddedHex(b), 16) == b
    ensures |PaddedHex(b)| == HEX_DIGITS <==> b < Pow(16, HEX_DIGITS)
  {
    var s := ToBase(b, 16);
    ToBaseCanonical(b, 16);
    ToBaseLength(b, 16, HEX_DIGITS);
    if |s| < HEX_DIGITS {
      LeadingZeros(HEX_DIGITS - |s|, s, 16);
    }
  }

  lemma EvenLengthKeepsValue(hex: string)
    ensures FromBase(if |hex| % 2 != 0 then "0" + hex else hex, 16) == FromBase(hex, 16)
  {
    assert Zeros(1) == "0";
    LeadingZeros(1, hex, 16);
  }

  /** Every non-negative integer survives the way to text and back, also above 128 bits. */
  lemma BigintRoundTrip(b: nat)
    ensures UuidToBigint(UuidText(b)) == b
  {
    var s := PaddedHex(b);
    PaddedHexValue(b);
    EvenLengthKeepsValue(s);
    if |s| == HEX_DIGITS {
      DashedWithoutDashes(s);
    } else {
      NoDashes(s);
    }
  }

  /** Every well-formed UUID survives the way to an integer and back, leading zeros included. */
  lemma UuidRoundTrip(s: string)
    requires IsUuid(s)
    ensures UuidToBigint(s) < Pow(16, HEX_DIGITS)
    ensures UuidText(UuidToBigint(s)) == s
  {
    var hex := s[..8] + s[9..13] + s[14..18] + s[19..23] + s[24..];
    assert hex[..8] == s[..8] && hex[8..12] == s[9..13] && hex[12..16] == s[14..18];
    assert hex[16..20] == s[19..23] && hex[20..] == s[24..];
    assert Dashed(hex) == s;
    DashedWithoutDashes(hex);
    EvenLengthKeepsValue(hex);
    var v := FromBase(hex, 16);
    FromBaseBound(hex, 16);
    ToBaseLength(v, 16, HEX_DIGITS);
    ToBaseCanonical(v, 16);
    PaddedUnique(hex, ToBase(v, 16), 16);
    if |ToBase(v, 16)| == HEX_DIGITS {
      assert Zeros(0) + ToBase(v, 16) == ToBase(v, 16);
    }
  }

  /** So two UUIDs are the same exactly when the ledger sees the same 128-bit id. */
  lemma UuidInjective(s: string, t: string)
    requires IsUuid(s) && IsUuid(t)
    ensures UuidToBigint(s) == UuidToBigint(t) <==> s == t
  {
    UuidRoundTrip(s);
    UuidRoundTrip(t);
  }
}
