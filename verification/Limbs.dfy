/**
 Numbers as limbs, bytes and hexadecimal strings, and the conversions of the state tree:
 eight limbs of 32 bits ("fea"), four limbs of 64 bits ("h4"), 32 bytes, 64 hex digits.
 */
module Limbs {
  import opened Arith
  import opened Wrappers

  const W32: nat := 0x1_0000_0000
  const W256: nat := U64 * U64 * U64 * U64

  /* ---------- limbs in any base, least significant first ---------- */

  function FromLimbs(v: seq<nat>, b: nat): nat {
    if v == [] then 0 else v[0] + b * FromLimbs(v[1..], b)
  }

  // Dafny's / and % are the floor operations of `Rsh` and `And` for a positive base.
  function Digit(x: int, b: nat): (r: nat)
    requires b > 0
    ensures r < b
  {
    x % b
  }

  function ToLimbs(x: int, b: nat, n: nat): (v: seq<nat>)
    requires b > 0
    ensures |v| == n
    decreases n
  {
    if n == 0 then [] else [Digit(x, b)] + ToLimbs(x / b, b, n - 1)
  }

  lemma {:induction false} LimbsBelow(x: int, b: nat, n: nat)
    requires b > 0
    ensures Below(ToLimbs(x, b, n), b)
    decreases n
  {
    if n > 0 {
      LimbsBelow(x / b, b, n - 1);
      assert Digit(x, b) < b;
    }
  }

  predicate Below(v: seq<nat>, b: nat) {
    forall i :: 0 <= i < |v| ==> v[i] < b
  }

  lemma {:induction false} FromToLimbs(x: int, b: nat, n: nat)
    requires b > 0
    ensures Power(b, n) > 0
    ensures FromLimbs(ToLimbs(x, b, n), b) == x % Power(b, n)
    decreases n
  {
    if n > 0 {
      var p := Power(b, n - 1);
      var v := ToLimbs(x, b, n);
      FromToLimbs(x / b, b, n - 1);
      DivMod(x, b, p);
      assert v[0] == x % b && v[1..] == ToLimbs(x / b, b, n - 1);
      assert FromLimbs(v, b) == v[0] + b * FromLimbs(v[1..], b);
    }
  }

  lemma {:induction false} ToFromLimbs(v: seq<nat>, b: nat)
    requires b > 0 && Below(v, b)
    ensures ToLimbs(FromLimbs(v, b), b, |v|) == v
  {
    if v != [] {
      var w := v[1..];
      ToFromLimbs(w, b);
      assert FromLimbs(v, b) == FromLimbs(w, b) * b + v[0];
      QuotientIs(FromLimbs(v, b), b, FromLimbs(w, b), v[0]);
      assert v == [v[0]] + w;
    }
  }

  lemma {:induction false} FromLimbsBound(v: seq<nat>, b: nat)
    requires b > 0 && Below(v, b)
    ensures FromLimbs(v, b) < Power(b, |v|)
  {
    if v != [] {
      FromLimbsBound(v[1..], b);
      MulMono(FromLimbs(v[1..], b) + 1, Power(b, |v| - 1), b);
      assert (FromLimbs(v[1..], b) + 1) * b == b * FromLimbs(v[1..], b) + b;
    }
  }

  lemma OneMoreLimb(x: int, b: nat, n: nat)
    requires b > 0
    ensures ToLimbs(x, b, n + 1) == [Digit(x, b)] + ToLimbs(x / b, b, n)
  {
  }

  lemma DividePower(x: int, b: nat, m: nat)
    requires b > 0
    ensures x / Power(b, m + 1) == x / b / Power(b, m)
  {
    DivMod(x, b, Power(b, m));
  }

  // What is left of a number after `m` limbs.
  function Rest(x: int, b: nat, m: nat): int
    requires b > 0
    decreases m
  {
    if m == 0 then x else Rest(x / b, b, m - 1)
  }

  lemma {:induction false} RestDivides(x: int, b: nat, m: nat)
    requires b > 0
    ensures Power(b, m) > 0 && Rest(x, b, m) == x / Power(b, m)
    decreases m
  {
    if m > 0 {
      RestDivides(x / b, b, m - 1);
      DividePower(x, b, m - 1);
    }
  }

  lemma {:induction false} SplitRest(x: int, b: nat, m: nat, n: nat)
    requires b > 0
    ensures ToLimbs(x, b, m + n) == ToLimbs(x, b, m) + ToLimbs(Rest(x, b, m), b, n)
    decreases m
  {
    if m > 0 {
      SplitRest(x / b, b, m - 1, n);
      OneMoreLimb(x, b, m - 1 + n);
      OneMoreLimb(x, b, m - 1);
    }
  }

  // The limbs in base b^m are the limbs in base b taken m at a time.
  lemma SplitLimbs(x: int, b: nat, m: nat, n: nat)
    requires b > 0
    ensures Power(b, m) > 0
    ensures ToLimbs(x, b, m + n) == ToLimbs(x, b, m) + ToLimbs(x / Power(b, m), b, n)
  {
    RestDivides(x, b, m);
    SplitRest(x, b, m, n);
  }

  /* ---------- fea: eight limbs of 32 bits ---------- */

  // fea2scalar; limbs are uint64 and may exceed 32 bits.
  method Fea2Scalar(v: seq<nat>) returns (res: nat)
    ensures res == FeaValue(v) && (|v| != 8 ==> res == 0)
  {
    if |v| != 8 {
      return 0;
    }
    res := v[0];
    res := res + v[1] * 0x1_0000_0000;
    res := res + v[2] * 0x1_0000_0000_0000_0000;
    res := res + v[3] * 0x1_0000_0000_0000_0000_0000_0000;
    res := res + v[4] * 0x1_0000_0000_0000_0000_0000_0000_0000_0000;
    res := res + v[5] * 0x1_0000_0000_0000_0000_0000_0000_0000_0000_0000_0000;
    res := res + v[6] * 0x1_0000_0000_0000_0000_0000_0000_0000_0000_0000_0000_0000_0000;
    res := res + v[7] * 0x1_0000_0000_0000_0000_0000_0000_0000_0000_0000_0000_0000_0000_0000_0000;
    EightLimbs(v);
  }

  function FeaValue(v: seq<nat>): nat {
    if |v| == 8 then FromLimbs(v, W32) else 0
  }

  lemma EightLimbs(v: seq<nat>)
    requires |v| == 8
    ensures FromLimbs(v, W32) ==
      v[0] + W32 * (v[1] + W32 * (v[2] + W32 * (v[3] + W32 * (v[4] + W32 * (v[5] + W32 * (v[6] + W32 * v[7]))))))
  {
    assert FromLimbs(v[8..], W32) == 0;
    assert FromLimbs(v[7..], W32) == v[7];
    assert v[7..][1..] == v[8..] && v[6..][1..] == v[7..] && v[5..][1..] == v[6..] && v[4..][1..] == v[5..];
    assert v[3..][1..] == v[4..] && v[2..][1..] == v[3..] && v[1..][1..] == v[2..];
    assert FromLimbs(v[6..], W32) == v[6] + W32 * FromLimbs(v[7..], W32);
    assert FromLimbs(v[5..], W32) == v[5] + W32 * FromLimbs(v[6..], W32);
    assert FromLimbs(v[4..], W32) == v[4] + W32 * FromLimbs(v[5..], W32);
    assert FromLimbs(v[3..], W32) == v[3] + W32 * FromLimbs(v[4..], W32);
    assert FromLimbs(v[2..], W32) == v[2] + W32 * FromLimbs(v[3..], W32);
    assert FromLimbs(v[1..], W32) == v[1] + W32 * FromLimbs(v[2..], W32);
  }

  // scalar2fea: limb i is (value >> 32 i) & 0xFFFFFFFF.
  method Scalar2Fea(value: int) returns (val: seq<nat>)
    ensures val == ToLimbs(value, W32, 8)
  {
    val := [];
    var shift := 1;
    for i := 0 to 8
      invariant shift == Power(W32, i) && shift > 0
      invariant val == ToLimbs(value, W32, i)
    {
      SplitLimbs(value, W32, i, 1);
      assert ToLimbs(value / shift, W32, 1) == [(value / shift) % W32];
      val := val + [(value / shift) % W32];
      shift := W32 * shift;
    }
  }

  lemma FeaPower()
    ensures Power(W32, 8) == W256
  {
  }

  // Splitting and joining a number gives it back modulo 2^256; so exactly the numbers
  // from 0 to 2^256 - 1 survive.
  lemma FeaOfScalar(x: int)
    ensures FeaValue(ToLimbs(x, W32, 8)) == x % W256
    ensures FeaValue(ToLimbs(x, W32, 8)) == x <==> 0 <= x < W256
  {
    FromToLimbs(x, W32, 8);
    FeaPower();
  }

  // Joining and splitting eight limbs gives them back exactly when they have 32 bits.
  lemma ScalarOfFea(v: seq<nat>)
    requires |v| == 8
    ensures ToLimbs(FeaValue(v), W32, 8) == v <==> Below(v, W32)
    ensures Below(v, W32) ==> FeaValue(v) < W256
  {
    LimbsBelow(FeaValue(v), W32, 8);
    if Below(v, W32) {
      ToFromLimbs(v, W32);
      FromLimbsBound(v, W32);
      FeaPower();
    }
  }

  /* ---------- bytes, most significant first ---------- */

  function BytesOf(x: nat, n: nat): (b: seq<nat>)
    ensures |b| == n
    decreases n
  {
    if n == 0 then [] else BytesOf(x / 256, n - 1) + [x % 256]
  }

  function Abs(x: int): nat {
    if x < 0 then -x else x
  }

  // ScalarToFilledByteSlice; `None` is the panic of `FillBytes` on a number that does not
  // fit 32 bytes. The sign is ignored.
  function FillBytes(x: int): (b: Option<seq<nat>>)
    ensures b.Some? <==> -(W256 as int) < x < W256
  {
    if Abs(x) < W256 then Some(BytesOf(Abs(x), 32)) else None
  }

  lemma {:induction false} BytesValue(x: nat, n: nat)
    ensures Power(256, n) > 0
    ensures BigEndian(BytesOf(x, n)) == x % Power(256, n)
    decreases n
  {
    if n > 0 {
      BytesValue(x / 256, n - 1);
      DivMod(x, 256, Power(256, n - 1));
      assert BytesOf(x, n)[..n - 1] == BytesOf(x / 256, n - 1);
    }
  }

  lemma {:induction false} SplitRestBytes(x: nat, m: nat, n: nat)
    ensures Rest(x, 256, n) >= 0
    ensures BytesOf(x, m + n) == BytesOf(Rest(x, 256, n), m) + BytesOf(x, n)
    decreases n
  {
    if n > 0 {
      SplitRestBytes(x / 256, m, n - 1);
    }
  }

  lemma SplitBytes(x: nat, m: nat, n: nat)
    ensures Power(256, n) > 0
    ensures BytesOf(x, m + n) == BytesOf(x / Power(256, n), m) + BytesOf(x, n)
  {
    RestDivides(x, 256, n);
    SplitRestBytes(x, m, n);
  }

  lemma Bytes8()
    ensures Power(256, 8) == U64
  {
  }

  /* ---------- h4: four limbs of 64 bits ---------- */

  // h4ToScalar; `None` is the index panic on one to three limbs.
  method H4ToScalar(h4: seq<nat>) returns (result: Option<nat>)
    ensures result == H4Value(h4)
    ensures result ==
            if |h4| == 0 then Some(0)
            else if |h4| < 4 then None
            else Some(h4[0] + h4[1] * 0x1_0000_0000_0000_0000 + h4[2] * 0x1_0000_0000_0000_0000_0000_0000_0000_0000
                      + h4[3] * 0x1_0000_0000_0000_0000_0000_0000_0000_0000_0000_0000_0000_0000)
  {
    if |h4| == 0 {
      return Some(0);
    }
    if |h4| < 4 {
      return None;
    }
    var sum := h4[0];
    var shift := U64;
    for i := 1 to 4
      invariant shift == Power(U64, i)
      invariant sum == FromLimbs(h4[..i], U64)
    {
      AppendLimb(h4[..i], h4[i], U64);
      assert h4[..i] + [h4[i]] == h4[..i + 1];
      sum := sum + h4[i] * shift;
      shift := U64 * shift;
    }
    SumOfFour(h4[..4]);
    return Some(sum);
  }

  lemma SumOfFour(v: seq<nat>)
    requires |v| == 4
    ensures FromLimbs(v, U64) ==
            v[0] + v[1] * 0x1_0000_0000_0000_0000 + v[2] * 0x1_0000_0000_0000_0000_0000_0000_0000_0000
            + v[3] * 0x1_0000_0000_0000_0000_0000_0000_0000_0000_0000_0000_0000_0000
  {
    assert v[1..][1..] == v[2..] && v[2..][1..] == v[3..] && v[3..][1..] == [];
    assert FromLimbs(v[3..], U64) == v[3];
    assert FromLimbs(v[2..], U64) == v[2] + U64 * FromLimbs(v[3..], U64);
    assert FromLimbs(v[1..], U64) == v[1] + U64 * FromLimbs(v[2..], U64);
  }

  function H4Value(h4: seq<nat>): Option<nat> {
    if |h4| == 0 then Some(0)
    else if |h4| < 4 then None
    else Some(FromLimbs(h4[..4], U64))
  }

  lemma {:induction false} AppendLimb(v: seq<nat>, x: nat, b: nat)
    ensures FromLimbs(v + [x], b) == FromLimbs(v, b) + x * Power(b, |v|)
  {
    if v == [] {
      assert [x][1..] == [];
    } else {
      AppendLimb(v[1..], x, b);
      assert (v + [x])[1..] == v[1..] + [x];
      Expand(b, FromLimbs(v[1..], b), x, Power(b, |v| - 1));
    }
  }

  lemma Expand(b: nat, f: nat, x: nat, p: nat)
    ensures b * (f + x * p) == b * f + x * (b * p)
  {
  }

  // scalarToh4: eight bytes per limb.
  method ScalarToH4(s: int) returns (r: Option<seq<nat>>)
    ensures r == H4Of(s)
  {
    var b := FillBytes(s);
    if b.None? {
      return None;
    }
    var v := b.value;
    EightBytesEach(Abs(s));
    return Some([BigEndian(v[24..]), BigEndian(v[16..24]), BigEndian(v[8..16]), BigEndian(v[0..8])]);
  }

  function H4Of(s: int): Option<seq<nat>> {
    if Abs(s) < W256 then Some(ToLimbs(Abs(s), U64, 4)) else None
  }

  // 32 bytes are four times eight.
  lemma FourTimesEight(x: nat)
    ensures var y, z, w := x / U64, x / U64 / U64, x / U64 / U64 / U64;
            BytesOf(x, 32) == BytesOf(w, 8) + BytesOf(z, 8) + BytesOf(y, 8) + BytesOf(x, 8)
  {
    Bytes8();
    var y, z, w := x / U64, x / U64 / U64, x / U64 / U64 / U64;
    SplitBytes(x, 24, 8);
    SplitBytes(y, 16, 8);
    SplitBytes(z, 8, 8);
  }

  lemma FourLimbs(x: int)
    ensures var y, z, w := x / U64, x / U64 / U64, x / U64 / U64 / U64;
            ToLimbs(x, U64, 4) == [x % U64, y % U64, z % U64, w % U64]
  {
    var y, z, w := x / U64, x / U64 / U64, x / U64 / U64 / U64;
    OneMoreLimb(w, U64, 0);
    OneMoreLimb(z, U64, 1);
    OneMoreLimb(y, U64, 2);
    OneMoreLimb(x, U64, 3);
  }

  lemma EightBytes(x: nat)
    ensures BigEndian(BytesOf(x, 8)) == x % U64
  {
    Bytes8();
    BytesValue(x, 8);
  }

  lemma EightBytesEach(x: nat)
    ensures var v := BytesOf(x, 32);
            ToLimbs(x, U64, 4) == [BigEndian(v[24..]), BigEndian(v[16..24]), BigEndian(v[8..16]), BigEndian(v[0..8])]
  {
    var y, z, w := x / U64, x / U64 / U64, x / U64 / U64 / U64;
    FourTimesEight(x);
    FourLimbs(x);
    EightBytes(x);
    EightBytes(y);
    EightBytes(z);
    EightBytes(w);
    var v := BytesOf(x, 32);
    assert v[24..] == BytesOf(x, 8) && v[16..24] == BytesOf(y, 8) && v[8..16] == BytesOf(z, 8) && v[0..8] == BytesOf(w, 8);
  }

  lemma H4Power()
    ensures Power(U64, 4) == W256
  {
  }

  // Four uint64 limbs joined fit 32 bytes, and splitting gives them back.
  lemma ScalarOfH4(h4: seq<nat>)
    requires |h4| == 4 && Below(h4, U64)
    ensures H4Value(h4).Some? && H4Value(h4).value < W256
    ensures H4Of(H4Value(h4).value) == Some(h4)
  {
    assert h4[..4] == h4;
    FromLimbsBound(h4, U64);
    ToFromLimbs(h4, U64);
    H4Power();
  }

  // Splitting and joining a 256-bit number gives it back; larger ones do not split at all.
  lemma H4OfScalar(x: nat)
    ensures H4Of(x).Some? <==> x < W256
    ensures H4Of(x).Some? ==> H4Value(H4Of(x).value) == Some(x)
  {
    if x < W256 {
      FromToLimbs(x, U64, 4);
      H4Power();
      QuotientIs(x, W256, 0, x);
      var v := ToLimbs(x, U64, 4);
      assert v[..4] == v;
    }
  }
}
