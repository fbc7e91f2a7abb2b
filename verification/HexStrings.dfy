/**
 The hexadecimal strings the state tree exchanges with its backend.
 */
module HexStrings {
  import opened Arith
  import opened Limbs
  import opened Wrappers

  /* ---------- digits ---------- */

  predicate IsHex(c: char) {
    '0' <= c <= '9' || 'a' <= c <= 'f' || 'A' <= c <= 'F'
  }

  predicate AllHex(s: string) {
    forall i :: 0 <= i < |s| ==> IsHex(s[i])
  }

  function DigitValue(c: char): (d: nat)
    requires IsHex(c)
    ensures d < 16
  {
    if c <= '9' then (c as int) - ('0' as int)
    else if c <= 'F' then (c as int) - ('A' as int) + 10
    else (c as int) - ('a' as int) + 10
  }

  function HexChar(d: nat): (c: char)
    requires d < 16
    ensures IsHex(c) && DigitValue(c) == d
  {
    if d < 10 then (('0' as int) + d) as char else (('a' as int) + d - 10) as char
  }

  function HexValue(s: string): nat
    requires AllHex(s)
  {
    if s == "" then 0 else 16 * HexValue(s[..|s| - 1]) + DigitValue(s[|s| - 1])
  }

  // big.Int.SetString(s, 16): an optional sign and at least one digit.
  function ParseBig(s: string): Option<int> {
    if s != "" && (s[0] == '+' || s[0] == '-') then
      if |s| > 1 && AllHex(s[1..]) then Some(if s[0] == '-' then -(HexValue(s[1..]) as int) else HexValue(s[1..]))
      else None
    else if s != "" && AllHex(s) then Some(HexValue(s))
    else None
  }

  const DIGITS: string := "0123456789abcdefABCDEF"

  lemma DigitIsPlace(c: char)
    ensures IsHex(c) <==> c in DIGITS
    ensures forall k :: 0 <= k < 22 ==> IsHex(DIGITS[k]) && DigitValue(DIGITS[k]) == if k < 16 then k else k - 6
  {
    if IsHex(c) {
      assert c == DIGITS[if c <= '9' then (c as int) - ('0' as int)
                         else if c <= 'F' then (c as int) - ('A' as int) + 16
                         else (c as int) - ('a' as int) + 10];
    }
  }

  // What is parsed is one or more digits of either case after an optional sign, and a minus
  // negates.
  lemma ParseBigIff(s: string)
    ensures var d := if s != "" && s[0] in "+-" then s[1..] else s;
            && (ParseBig(s).Some? <==> d != "" && forall i :: 0 <= i < |d| ==> d[i] in DIGITS)
            && (ParseBig(s).Some? ==>
                  AllHex(d) && ParseBig(s).value == if s[0] == '-' then 0 - HexValue(d) else HexValue(d))
  {
    var d := if s != "" && s[0] in "+-" then s[1..] else s;
    assert AllHex(d) <==> forall i :: 0 <= i < |d| ==> d[i] in DIGITS by {
      forall i | 0 <= i < |d|
        ensures IsHex(d[i]) <==> d[i] in DIGITS
      {
        DigitIsPlace(d[i]);
      }
    }
  }

  function TrimPrefix(s: string): string {
    if |s| >= 2 && s[..2] == "0x" then s[2..] else s
  }

  // Only a prefix "0x" is trimmed, and once.
  lemma TrimsPrefix(s: string)
    ensures TrimPrefix("0x" + s) == s
    ensures s == "" || s[0] != '0' || (|s| > 1 && s[1] != 'x') || |s| == 1 ==> TrimPrefix(s) == s
  {
    assert ("0x" + s)[..2] == "0x" && ("0x" + s)[2..] == s;
    if |s| >= 2 && (s[0] != '0' || s[1] != 'x') {
      assert s[..2][0] == s[0] && s[..2][1] == s[1];
    }
  }

  // hex.EncodeToString
  function Encode(b: seq<nat>): (s: string)
    requires Below(b, 256)
    ensures AllHex(s) && |s| == 2 * |b|
  {
    if b == [] then ""
    else
      var x := b[|b| - 1];
      Encode(b[..|b| - 1]) + [HexChar(x / 16), HexChar(x % 16)]
  }

  lemma {:induction false} BytesBelow(x: nat, n: nat)
    ensures Below(BytesOf(x, n), 256)
    decreases n
  {
    if n > 0 {
      BytesBelow(x / 256, n - 1);
    }
  }

  // Reading an encoded byte string is reading the bytes as one big-endian number.
  lemma {:induction false} ValueOfEncode(b: seq<nat>)
    requires Below(b, 256)
    ensures HexValue(Encode(b)) == BigEndian(b)
  {
    if b != [] {
      var c, x := b[..|b| - 1], b[|b| - 1];
      ValueOfEncode(c);
      var s := Encode(b);
      assert s[..|s| - 1][..|s| - 2] == Encode(c);
      assert s[..|s| - 1] == Encode(c) + [HexChar(x / 16)];
      assert HexValue(s[..|s| - 1]) == 16 * HexValue(Encode(c)) + x / 16;
    }
  }

  lemma Bytes32()
    ensures Power(256, 32) == W256
  {
    Bytes8();
    var p8 := Power(256, 8);
    assert Power(256, 16) == p8 * U64 by {
      PowerAdds(256, 8, 8);
    }
    assert Power(256, 24) == Power(256, 16) * U64 by {
      PowerAdds(256, 16, 8);
    }
    assert Power(256, 32) == Power(256, 24) * U64 by {
      PowerAdds(256, 24, 8);
    }
  }

  lemma {:induction false} PowerAdds(b: nat, j: nat, k: nat)
    ensures Power(b, j + k) == Power(b, j) * Power(b, k)
  {
    if j > 0 {
      PowerAdds(b, j - 1, k);
      Reassociate(b, Power(b, j - 1), Power(b, k));
    }
  }

  lemma Reassociate(a: nat, b: nat, c: nat)
    ensures a * (b * c) == a * b * c
  {
  }

  /* ---------- fea2string and string2fea ---------- */

  // `None` is the panic on a value of more than 32 bytes.
  function Fea2String(fea: seq<nat>): (s: Option<string>)
    ensures s.Some? <==> FeaValue(fea) < W256
  {
    if FeaValue(fea) < W256 then
      BytesBelow(FeaValue(fea), 32);
      Some("0x" + Encode(BytesOf(FeaValue(fea), 32)))
    else None
  }

  function String2Fea(s: string): Result<seq<nat>> {
    var b := ParseBig(s);
    if b.None? then Err("Could not convert into big int") else Ok(ToLimbs(b.value, W32, 8))
  }

  lemma ParseDigits(s: string)
    requires AllHex(s) && s != ""
    ensures ParseBig(s) == Some(HexValue(s))
  {
  }

  lemma FilledValue(x: nat)
    requires x < W256
    ensures BigEndian(BytesOf(x, 32)) == x
  {
    BytesValue(x, 32);
    Bytes32();
    QuotientIs(x, W256, 0, x);
  }

  // 64 hex digits of a 256-bit number are read back as that number, with or without "0x".
  lemma ParseFilled(x: nat)
    requires x < W256
    ensures Below(BytesOf(x, 32), 256)
    ensures var e := Encode(BytesOf(x, 32));
            ParseBig(TrimPrefix(e)) == ParseBig(TrimPrefix("0x" + e)) == Some(x)
  {
    BytesBelow(x, 32);
    ValueOfEncode(BytesOf(x, 32));
    FilledValue(x);
    var e := Encode(BytesOf(x, 32));
    ParseDigits(e);
    assert ("0x" + e)[..2] == "0x" && ("0x" + e)[2..] == e;
    assert e[..2] != "0x" by {
      assert e[1] != 'x';
    }
  }

  // Eight 32-bit limbs survive the trip through the backend's string.
  lemma FeaStringRoundTrip(fea: seq<nat>)
    requires |fea| == 8 && Below(fea, W32)
    ensures Fea2String(fea).Some?
    ensures String2Fea(TrimPrefix(Fea2String(fea).value)) == Ok(fea)
  {
    ScalarOfFea(fea);
    ParseFilled(FeaValue(fea));
  }

  /* ---------- H4ToString and StringToh4 ---------- */

  // big.Int.Bytes
  function MinimalBytes(x: nat): (b: seq<nat>)
    ensures Below(b, 256)
  {
    if x == 0 then [] else MinimalBytes(x / 256) + [x % 256]
  }

  // fmt's %064s
  function PadLeft(s: string, n: nat): string {
    if |s| >= n then s else Repeat('0', n - |s|) + s
  }

  // `None` is the index panic of h4ToScalar.
  function H4ToString(h4: seq<nat>): Option<string> {
    var x := H4Value(h4);
    if x.None? then None else Some("0x" + PadLeft(Encode(MinimalBytes(x.value)), 64))
  }

  datatype H4Result = Limbs(h4: seq<nat>) | NotHex | Panic

  function StringToH4(s: string): H4Result {
    var b := ParseBig(TrimPrefix(s));
    if b.None? then NotHex
    else
      var h := H4Of(b.value);
      if h.None? then Panic else Limbs(h.value)
  }

  lemma {:induction false} MinimalValue(x: nat)
    ensures BigEndian(MinimalBytes(x)) == x
  {
    if x > 0 {
      MinimalValue(x / 256);
      assert MinimalBytes(x)[..|MinimalBytes(x)| - 1] == MinimalBytes(x / 256);
    }
  }

  lemma {:induction false} LeadingZeros(n: nat, s: string)
    requires AllHex(s)
    ensures AllHex(Repeat('0', n) + s) && HexValue(Repeat('0', n) + s) == HexValue(s)
  {
    var z := Repeat('0', n) + s;
    if s == "" {
      assert z == Repeat('0', n);
      ZeroString(n);
    } else {
      LeadingZeros(n, s[..|s| - 1]);
      assert z[..|z| - 1] == Repeat('0', n) + s[..|s| - 1];
    }
  }

  lemma {:induction false} ZeroString(n: nat)
    ensures AllHex(Repeat('0', n)) && HexValue(Repeat('0', n)) == 0
  {
    if n > 0 {
      ZeroString(n - 1);
      assert DigitValue('0') == 0;
      assert Repeat('0', n)[..n - 1] == Repeat('0', n - 1);
    }
  }

  lemma ParsePadded(x: nat)
    ensures ParseBig(PadLeft(Encode(MinimalBytes(x)), 64)) == Some(x)
  {
    var e := Encode(MinimalBytes(x));
    ValueOfEncode(MinimalBytes(x));
    MinimalValue(x);
    if |e| < 64 {
      LeadingZeros(64 - |e|, e);
    }
    ParseDigits(PadLeft(e, 64));
  }

  // Four 64-bit limbs survive the trip through their string.
  lemma H4StringRoundTrip(h4: seq<nat>)
    requires |h4| == 4 && Below(h4, U64)
    ensures H4ToString(h4).Some?
    ensures StringToH4(H4ToString(h4).value) == Limbs(h4)
  {
    ScalarOfH4(h4);
    ParsePadded(H4Value(h4).value);
    var e := PadLeft(Encode(MinimalBytes(H4Value(h4).value)), 64);
    assert ("0x" + e)[..2] == "0x" && ("0x" + e)[2..] == e;
  }
}
