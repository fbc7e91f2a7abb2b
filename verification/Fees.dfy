/** The effective gas price percentage and the intrinsic gas of a transaction. */
module Fees {
  import opened Wrappers
  import opened Arith

  // The conversions to uint64 and uint8.
  function Wrap(x: int): (r: nat)
    ensures 0 <= x < U64 ==> r == x
  {
    x % U64
  }

  function LowByte(x: nat): (r: nat)
    ensures x < 256 ==> r == x
  {
    x % 256
  }

  /* ---------- effective percentage ---------- */

  const MaxEffectivePercentage: nat := 255

  // `p + 1` parts in 256 of the gas price are enough for the effective price.
  predicate Covers(p: nat, gasPrice: nat, effective: nat) {
    (p + 1) * gasPrice >= 256 * effective
  }

  // The least byte that covers the effective price, or the largest when none does.
  ghost predicate IsPercentage(p: nat, gasPrice: nat, effective: nat) {
    && p <= 255
    && (if effective <= gasPrice then Covers(p, gasPrice, effective) else p == 255)
    && (effective <= gasPrice ==> forall q: nat :: q < p ==> !Covers(q, gasPrice, effective))
  }

  lemma CeilingIsLeast(gasPrice: nat, effective: nat, b: nat)
    requires 0 < effective < gasPrice && b == (256 * effective + gasPrice - 1) / gasPrice
    ensures 1 <= b <= 256 && IsPercentage(b - 1, gasPrice, effective)
  {
    var n := 256 * effective + gasPrice - 1;
    assert n == b * gasPrice + n % gasPrice;
    if b == 0 {
      assert false;
    } else if b > 256 {
      MulMono(257, b, gasPrice);
      assert false;
    }
    forall q: nat | q < b - 1
      ensures !Covers(q, gasPrice, effective)
    {
      MulMono(q + 1, b - 1, gasPrice);
      assert (b - 1) * gasPrice == b * gasPrice - gasPrice;
    }
  }

  lemma WholePrice(gasPrice: nat)
    requires gasPrice > 0
    ensures IsPercentage(255, gasPrice, gasPrice)
  {
    forall q: nat | q < 255
      ensures !Covers(q, gasPrice, gasPrice)
    {
      MulMono(q + 1, 255, gasPrice);
    }
  }

  method CalculateEffectiveGasPricePercentage(gasPrice: Option<nat>, effective: Option<nat>) returns (result: Result<nat>)
    ensures result.Err? <==> gasPrice.None? || effective.None? || gasPrice.value == 0 || effective.value == 0
    ensures result.Ok? ==> IsPercentage(result.value, gasPrice.value, effective.value)
  {
    if effective.None? || gasPrice.None? || gasPrice.value == 0 || effective.value == 0 {
      return Err("effective gas price or gas price is empty");
    }
    if gasPrice.value <= effective.value {
      WholePrice(gasPrice.value);
      return Ok(MaxEffectivePercentage);
    }
    var b: int := effective.value * 256;
    b := b + gasPrice.value;
    b := b - 1;
    b := b / gasPrice.value;
    CeilingIsLeast(gasPrice.value, effective.value, b);
    b := b - 1;
    return Ok(LowByte(Wrap(b)));
  }

  // There is one such byte. It rises with the effective price and falls with the gas price.
  lemma PercentageIsMonotone(p: nat, gasPrice: nat, effective: nat, p': nat, gasPrice': nat, effective': nat)
    requires 0 < effective <= effective' && 0 < gasPrice' <= gasPrice
    requires IsPercentage(p, gasPrice, effective) && IsPercentage(p', gasPrice', effective')
    ensures p <= p'
  {
    if effective' <= gasPrice' {
      MulMono(gasPrice', gasPrice, p' + 1);
      assert Covers(p', gasPrice, effective);
    }
  }

  // What `p + 1` parts in 256 come to, rounded down: never less than the effective price,
  // and more by at most one part.
  lemma ChargeCovers(p: nat, gasPrice: nat, effective: nat)
    requires 0 < effective <= gasPrice && IsPercentage(p, gasPrice, effective)
    ensures effective <= (p + 1) * gasPrice / 256 <= effective + gasPrice / 256 + 1
  {
    var charge := (p + 1) * gasPrice;
    if p > 0 {
      assert !Covers(p - 1, gasPrice, effective);
      assert charge == p * gasPrice + gasPrice;
    }
  }

  /* ---------- intrinsic gas ---------- */

  const TxDataNonZeroGas: nat := 16
  const TxDataZeroGas: nat := 4
  const TxGasContractCreation: nat := 53000
  const TxGas: nat := 21000

  // The places of the bytes that are not zero, or of those that are.
  function Places(data: seq<Byte>, zero: bool): set<int> {
    set i | 0 <= i < |data| && (data[i] == 0 <==> zero)
  }

  lemma OneMorePlace(data: seq<Byte>, n: nat, zero: bool)
    requires n < |data|
    ensures |Places(data[..n + 1], zero)| == |Places(data[..n], zero)| + if data[n] == 0 <==> zero then 1 else 0
  {
    assert Places(data[..n + 1], zero) == Places(data[..n], zero) + if data[n] == 0 <==> zero then {n} else {};
  }

  // Every byte is one or the other.
  lemma {:induction false} PlacesSplit(data: seq<Byte>)
    ensures |Places(data, false)| + |Places(data, true)| == |data|
  {
    if data != [] {
      var n := |data| - 1;
      PlacesSplit(data[..n]);
      OneMorePlace(data, n, false);
      OneMorePlace(data, n, true);
      assert data[..n + 1] == data;
    }
  }

  method CountNonZeros(data: seq<Byte>) returns (nz: nat)
    requires |data| < U64
    ensures nz == |Places(data, false)|
  {
    nz := 0;
    for i := 0 to |data|
      invariant nz == |Places(data[..i], false)| <= i
    {
      OneMorePlace(data, i, false);
      if data[i] != 0 {
        nz := (nz + 1) % U64;
      }
    }
    assert data[..|data|] == data;
  }

  // The guard is exact: it fails when and only when the sum does not fit.
  lemma GuardIsExact(gas: nat, n: nat, price: nat)
    requires gas < U64 && price > 0
    ensures (U64 - 1 - gas) / price < n <==> gas + n * price >= U64
  {
    var room := U64 - 1 - gas;
    assert room == (room / price) * price + room % price;
    if room / price < n {
      MulMono(room / price + 1, n, price);
      assert (room / price + 1) * price == (room / price) * price + price;
    } else {
      MulMono(n, room / price, price);
    }
  }

  // Every operation is on uint64; the error is for the sums that do not fit and for no
  // others.
  method IntrinsicGas(creates: bool, data: seq<Byte>) returns (result: Result<nat>)
    requires |data| < U64
    ensures var sum := (if creates then 53000 else 21000) + 16 * |Places(data, false)| + 4 * |Places(data, true)|;
            result == if sum < 0x1_0000_0000_0000_0000 then Ok(sum) else Err("gas uint64 overflow")
  {
    PlacesSplit(data);
    var gas := if creates then TxGasContractCreation else TxGas;
    var dataLen := |data|;
    if dataLen > 0 {
      var nz := CountNonZeros(data);
      GuardIsExact(gas, nz, TxDataNonZeroGas);
      if (U64 - 1 - gas) / TxDataNonZeroGas < nz {
        return Err("gas uint64 overflow");
      }
      gas := Wrap(gas + Wrap(nz * TxDataNonZeroGas));
      var z := Wrap(dataLen - nz);
      GuardIsExact(gas, z, TxDataZeroGas);
      if (U64 - 1 - gas) / TxDataZeroGas < z {
        return Err("gas uint64 overflow");
      }
      gas := Wrap(gas + Wrap(z * TxDataZeroGas));
    }
    return Ok(gas);
  }
}
