/**
 The L2 gas price that follows L1: clamped, cut to three significant digits through its
 decimal string, and stored as a uint64. The model starts from the integer the factor
 step gives.
 */
module GasPriceFollower {
  import opened Wrappers
  import opened Arith
  import opened Decimal

  // Flooring to three significant digits, without strings.
  function Floor3(n: nat): nat {
    if n < 1000 then n else 10 * Floor3(n / 10)
  }

  /* ---------- the string slicing ---------- */

  // One more digit in front of the cut.
  lemma ScaleTen(n: nat, p: nat)
    requires p > 0
    ensures 10 * ((n / 10 / p) * p) == (n / (10 * p)) * (10 * p)
  {
    DivMod(n, 10, p);
    Swap(10, n / 10 / p, p);
  }

  lemma Powers()
    ensures Power(10, 2) == 100 && Power(10, 3) == 1000
  {
  }

  // A numeral has more than three digits exactly from a thousand on.
  lemma LongFromThousand(n: nat)
    ensures |ToString(n)| > 3 <==> n >= 1000
  {
    Powers();
    if n > 0 {
      LengthOfString(n);
      if |ToString(n)| > 3 {
        PowerGrows(3, |ToString(n)| - 1);
      } else {
        PowerGrows(|ToString(n)|, 3);
      }
    }
  }

  lemma {:induction false} Floor3Divides(n: nat)
    requires n >= 1000
    ensures |ToString(n)| > 3
    ensures var p := Power(10, |ToString(n)| - 3);
            Floor3(n) == (n / p) * p
  {
    LongFromThousand(n);
    LongFromThousand(n / 10);
    var k := |ToString(n)| - 3;
    assert |ToString(n / 10)| == k + 2;
    if n / 10 >= 1000 {
      Floor3Divides(n / 10);
      ScaleTen(n, Power(10, k - 1));
    } else {
      assert k == 1 && Power(10, 1) == 10 * Power(10, 0);
    }
  }

  // What `result.String()[:3]` followed by the zeros of `%0Nd` reads back as.
  method Truncate(n: nat) returns (r: nat)
    ensures r == Floor3(n)
  {
    var s := ToString(n);
    var numLength := |s|;
    LongFromThousand(n);
    if numLength > 3 {
      var value := s[..3] + Repeat('0', numLength - 3);
      PrefixDivides(n, numLength - 3);
      ValueOfZeros(numLength - 3);
      ValueOfConcat(s[..3], Repeat('0', numLength - 3));
      Floor3Divides(n);
      r := Value(value);
    } else {
      r := n;
    }
  }

  /* ---------- what the flooring promises ---------- */

  lemma {:induction false} Floor3Monotone(a: nat, b: nat)
    requires a <= b
    ensures Floor3(a) <= Floor3(b)
  {
    if a >= 1000 {
      Floor3Monotone(a / 10, b / 10);
    } else if b >= 1000 {
      Floor3AtLeast(b / 10);
    }
  }

  lemma {:induction false} Floor3AtLeast(n: nat)
    requires n >= 100
    ensures Floor3(n) >= 100 && (n >= 1000 ==> Floor3(n) >= 1000)
  {
    if n >= 1000 {
      Floor3AtLeast(n / 10);
    }
  }

  // The weight of the third digit.
  function Unit(n: nat): nat {
    if n < 1000 then 1 else 10 * Unit(n / 10)
  }

  lemma {:induction false} LossBelowUnit(n: nat)
    requires n >= 100
    ensures 100 * Unit(n) <= n && 0 <= n - Floor3(n) < Unit(n)
  {
    if n >= 1000 {
      LossBelowUnit(n / 10);
    }
  }

  // Never above the price, and less than one percent below it.
  lemma Floor3Close(n: nat)
    ensures Floor3(n) <= n && (n > 0 ==> 100 * (n - Floor3(n)) < n)
  {
    if n >= 100 {
      LossBelowUnit(n);
    }
  }

  // Three digits and zeros.
  predicate DigitsAndZeros(m: nat, a: nat, k: nat) {
    a < 1000 && m == a * Power(10, k)
  }

  ghost predicate ThreeDigits(m: nat) {
    exists a: nat, k: nat :: DigitsAndZeros(m, a, k)
  }

  lemma OneMoreZero(m: nat, a: nat, k: nat)
    requires DigitsAndZeros(m, a, k)
    ensures DigitsAndZeros(10 * m, a, k + 1)
  {
    assert a * (10 * Power(10, k)) == 10 * (a * Power(10, k));
  }

  lemma {:induction false} Floor3HasThreeDigits(n: nat)
    ensures ThreeDigits(Floor3(n))
  {
    if n < 1000 {
      assert DigitsAndZeros(n, n, 0);
    } else {
      Floor3HasThreeDigits(n / 10);
      var a: nat, k: nat :| DigitsAndZeros(Floor3(n / 10), a, k);
      OneMoreZero(Floor3(n / 10), a, k);
    }
  }

  lemma {:induction false} Floor3Fixes(m: nat, a: nat, k: nat)
    requires DigitsAndZeros(m, a, k)
    ensures Floor3(m) == m
  {
    if k > 0 {
      var t := a * Power(10, k - 1);
      assert m == 10 * t;
      Floor3Fixes(t, a, k - 1);
    }
  }

  // The greatest number of three significant digits that is not above the price; hence
  // flooring again changes nothing.
  lemma Floor3IsGreatest(n: nat, m: nat)
    requires ThreeDigits(m) && m <= n
    ensures ThreeDigits(Floor3(n)) && m <= Floor3(n) <= n && Floor3(Floor3(n)) == Floor3(n)
  {
    var a: nat, k: nat :| DigitsAndZeros(m, a, k);
    Floor3Fixes(m, a, k);
    Floor3Monotone(m, n);
    Floor3Close(n);
    Floor3HasThreeDigits(n);
    var a': nat, k': nat :| DigitsAndZeros(Floor3(n), a', k');
    Floor3Fixes(Floor3(n), a', k');
  }

  /* ---------- the update ---------- */

  datatype Config = Config(defaultGasPriceWei: nat, maxGasPriceWei: nat)

  ghost predicate ValidConfig(cfg: Config) {
    cfg.defaultGasPriceWei < U64 && cfg.maxGasPriceWei < U64
  }

  // `price` lies between the bounds and is as near to `scaled` as they allow; when the
  // bounds cross, the upper one wins.
  ghost predicate Clamped(price: int, scaled: int, cfg: Config) {
    var upper := cfg.maxGasPriceWei > 0;
    && (upper ==> price <= cfg.maxGasPriceWei)
    && (price < cfg.defaultGasPriceWei ==> upper && price == cfg.maxGasPriceWei)
    && (price < scaled ==> upper && price == cfg.maxGasPriceWei)
    && (price > scaled ==> price <= cfg.defaultGasPriceWei)
  }

  datatype Prices = Prices(l2: nat, l1: nat)

  // The prices stored in the pool, if any.
  method UpdateGasPriceAvg(l1GasPrice: nat, scaled: int, cfg: Config) returns (stored: Option<Prices>, ghost price: nat)
    requires ValidConfig(cfg)
    ensures stored.None? <==> l1GasPrice == 0
    ensures stored.Some? ==>
              && Clamped(price, scaled, cfg)
              && stored.value == Prices(Floor3(price) % U64, l1GasPrice % U64)
              && (cfg.maxGasPriceWei > 0 ==> stored.value.l2 == Floor3(price) <= cfg.maxGasPriceWei)
  {
    price := 0;
    if l1GasPrice == 0 {
      return None, price;
    }
    var result := scaled;
    if cfg.defaultGasPriceWei > result {
      result := cfg.defaultGasPriceWei;
    }
    if cfg.maxGasPriceWei > 0 && result > cfg.maxGasPriceWei {
      result := cfg.maxGasPriceWei;
    }
    price := result;
    var truncateValue := Truncate(result);
    Floor3Close(result);
    return Some(Prices(truncateValue % U64, l1GasPrice % U64)), price;
  }

  // The clamped price rises with the price asked for, and so does its flooring.
  lemma StoredRises(price: nat, scaled: int, price': nat, scaled': int, cfg: Config)
    requires scaled <= scaled' && Clamped(price, scaled, cfg) && Clamped(price', scaled', cfg)
    ensures price <= price' && Floor3(price) <= Floor3(price')
  {
    ClampedRises(price, scaled, price', scaled', cfg);
    Floor3Monotone(price, price');
  }

  lemma ClampedRises(price: nat, scaled: int, price': nat, scaled': int, cfg: Config)
    requires scaled <= scaled' && Clamped(price, scaled, cfg) && Clamped(price', scaled', cfg)
    ensures price <= price'
  {
  }

  lemma Tens()
    ensures Power(10, 17) == 100_000_000_000_000_000
    ensures Power(10, 19) == 10_000_000_000_000_000_000 && Power(10, 20) == 100_000_000_000_000_000_000
  {
    assert Power(10, 4) == 10_000;
    assert Power(10, 8) == 10 * (10 * (10 * (10 * Power(10, 4))));
    assert Power(10, 12) == 10 * (10 * (10 * (10 * Power(10, 8))));
    assert Power(10, 16) == 10 * (10 * (10 * (10 * Power(10, 12))));
    assert Power(10, 20) == 10 * (10 * (10 * (10 * Power(10, 16))));
  }

  lemma TwentyDigits(n: nat)
    requires 10_000_000_000_000_000_000 <= n < 100_000_000_000_000_000_000
    ensures Floor3(n) == (n / 100_000_000_000_000_000) * 100_000_000_000_000_000
  {
    Tens();
    Floor3Divides(n);
    LengthOfString(n);
    var k := |ToString(n)|;
    if k < 20 {
      PowerGrows(k, 19);
    } else if k > 20 {
      PowerGrows(20, k - 1);
    }
  }

  // Without an upper bound the store can wrap around: exactly from the first price of three
  // significant digits that is not a uint64.
  lemma StoredIffFits(price: nat)
    ensures Floor3(price) % U64 == Floor3(price) <==> price < 18_500_000_000_000_000_000
  {
    if price < U64 {
      Floor3Close(price);
    } else if price < 18_500_000_000_000_000_000 {
      TwentyDigits(price);
    } else {
      Floor3Monotone(18_500_000_000_000_000_000, price);
      TwentyDigits(18_500_000_000_000_000_000);
    }
  }
}
