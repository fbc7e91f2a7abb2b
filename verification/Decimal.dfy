/**
 Decimal numerals as strings, the way `%v` and `big.Int.String` write them and
 `strconv.ParseUint` and `SetString` read them.
 */
module Decimal {
  import opened Arith
  import opened Wrappers

  predicate IsDigit(c: char) {
    '0' <= c <= '9'
  }

  predicate Digits(s: string) {
    forall i :: 0 <= i < |s| ==> IsDigit(s[i])
  }

  function DigitOf(c: char): nat
    requires IsDigit(c)
  {
    (c as int) - ('0' as int)
  }

  function CharOf(d: nat): (c: char)
    requires d < 10
    ensures IsDigit(c) && DigitOf(c) == d
  {
    (('0' as int) + d) as char
  }

  function ToString(n: nat): (s: string)
    ensures |s| > 0 && Digits(s)
  {
    if n < 10 then [CharOf(n)] else ToString(n / 10) + [CharOf(n % 10)]
  }

  // The number a digit string stands for.
  function Value(s: string): nat
    requires Digits(s)
  {
    if s == "" then 0 else Value(s[..|s| - 1]) * 10 + DigitOf(s[|s| - 1])
  }

  lemma {:induction false} ValueOfString(n: nat)
    ensures Value(ToString(n)) == n
  {
    if n >= 10 {
      ValueOfString(n / 10);
      assert ToString(n)[..|ToString(n)| - 1] == ToString(n / 10);
    } else {
      assert ToString(n)[..0] == "";
    }
  }

  lemma {:induction false} ValueOfZeros(k: nat)
    ensures Value(Repeat('0', k)) == 0
  {
    if k > 0 {
      ValueOfZeros(k - 1);
      assert Repeat('0', k)[..k - 1] == Repeat('0', k - 1);
    }
  }

  lemma Shift(a: nat, p: nat, b: nat, d: nat)
    ensures (a * p + b) * 10 + d == a * (10 * p) + (b * 10 + d)
  {
  }

  lemma {:induction false} ValueOfConcat(s: string, t: string)
    requires Digits(s) && Digits(t)
    ensures Digits(s + t) && Value(s + t) == Value(s) * Power(10, |t|) + Value(t)
  {
    if t == "" {
      assert s + t == s;
    } else {
      var u := t[..|t| - 1];
      ValueOfConcat(s, u);
      assert (s + t)[..|s + t| - 1] == s + u;
      Shift(Value(s), Power(10, |u|), Value(u), DigitOf(t[|t| - 1]));
    }
  }

  lemma {:induction false} ValueBound(s: string)
    requires Digits(s)
    ensures Value(s) < Power(10, |s|)
  {
    if s != "" {
      ValueBound(s[..|s| - 1]);
    }
  }

  // The first digit of a numeral is zero only in "0" itself.
  lemma {:induction false} LengthOfString(n: nat)
    requires n > 0
    ensures Power(10, |ToString(n)| - 1) <= n < Power(10, |ToString(n)|)
  {
    ValueOfString(n);
    ValueBound(ToString(n));
    if n >= 10 {
      LengthOfString(n / 10);
      assert |ToString(n)| == |ToString(n / 10)| + 1;
    }
  }

  lemma {:induction false} PowerGrows(j: nat, k: nat)
    requires j <= k
    ensures Power(10, j) <= Power(10, k)
  {
    if j < k {
      PowerGrows(j, k - 1);
    }
  }

  // A prefix of a numeral is the number without its last digits.
  lemma PrefixDivides(n: nat, k: nat)
    requires k <= |ToString(n)|
    ensures var s := ToString(n);
            Value(s[..|s| - k]) == n / Power(10, k)
  {
    var s := ToString(n);
    var a, b := s[..|s| - k], s[|s| - k..];
    assert a + b == s;
    ValueOfConcat(a, b);
    ValueOfString(n);
    ValueBound(b);
    QuotientIs(n, Power(10, k), Value(a), Value(b));
  }

  /* ---------- strconv.ParseUint(s, 10, 0) ---------- */

  datatype Parsed = Parsed(value: nat, ok: bool)

  // A syntax error returns 0, a value out of range returns the largest uint64.
  function ParseUint(s: string): Parsed {
    if s == "" || !Digits(s) then Parsed(0, false)
    else if Value(s) >= U64 then Parsed(U64 - 1, false)
    else Parsed(Value(s), true)
  }

  // It succeeds exactly for one or more digits whose number is below 2^64, and otherwise
  // says which of the two went wrong by its value.
  lemma ParseUintIff(s: string)
    ensures var syntax := s != "" && forall i :: 0 <= i < |s| ==> s[i] in "0123456789";
            && (ParseUint(s).ok <==> syntax && Value(s) < 0x1_0000_0000_0000_0000)
            && ParseUint(s).value == if !syntax then 0 else if ParseUint(s).ok then Value(s) else 0xFFFF_FFFF_FFFF_FFFF
  {
    assert Digits(s) <==> forall i :: 0 <= i < |s| ==> s[i] in "0123456789" by {
      forall i | 0 <= i < |s|
        ensures IsDigit(s[i]) <==> s[i] in "0123456789"
      {
        if IsDigit(s[i]) {
          assert s[i] == "0123456789"[(s[i] as int) - ('0' as int)];
        }
      }
    }
  }

  lemma ParseReadsBack(n: nat)
    ensures ParseUint(ToString(n)) == if n < U64 then Parsed(n, true) else Parsed(U64 - 1, false)
  {
    ValueOfString(n);
  }
}
