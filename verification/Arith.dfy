/** Powers, byte strings and the few facts of integer division the other modules need. */
module Arith {

  lemma MulMono(a: int, b: int, c: int)
    requires a <= b && c >= 0
    ensures a * c <= b * c
  {
  }

  lemma SmallMultiple(x: int, d: int)
    requires -d < x * d < d
    ensures x == 0
  {
    if x >= 1 {
      MulMono(1, x, d);
    } else if x <= -1 {
      MulMono(x, -1, d);
    }
  }

  // Quotient and remainder are the only ones.
  lemma QuotientIs(n: int, d: int, q: int, r: int)
    requires d > 0 && n == q * d + r && 0 <= r < d
    ensures n / d == q && n % d == r
  {
    var x := n / d - q;
    assert x * d == (n / d) * d - q * d;
    assert n == (n / d) * d + n % d;
    SmallMultiple(x, d);
  }

  lemma OneMore(k: int, d: int)
    ensures (k + 1) * d == k * d + d
  {
  }

  lemma Swap(a: int, b: int, c: int)
    ensures a * (b * c) == b * (a * c)
  {
  }

  lemma DivRem(n: int, d: int)
    requires d > 0
    ensures n == (n / d) * d + n % d && 0 <= n % d < d
  {
  }

  // One division after another.
  lemma Nest(x: int, b: int, c: int, q: int, r: int, p: int, s: int)
    requires x == q * b + r && q == p * c + s
    ensures x == p * (b * c) + (s * b + r)
  {
    assert (p * c + s) * b == p * c * b + s * b;
    assert p * c * b == p * (b * c);
  }

  lemma NestBound(b: int, c: int, r: int, s: int)
    requires 0 <= r < b && 0 <= s < c
    ensures 0 <= s * b + r < b * c
  {
    MulMono(0, s, b);
    MulMono(s + 1, c, b);
    OneMore(s, b);
  }

  // Dividing twice, and the remainder of a product of two bases.
  lemma DivMod(x: int, b: nat, c: nat)
    requires b > 0 && c > 0
    ensures b * c > 0
    ensures x / (b * c) == (x / b) / c
    ensures x % (b * c) == x % b + b * ((x / b) % c)
  {
    var q, r := x / b, x % b;
    var p, s := q / c, q % c;
    DivRem(x, b);
    DivRem(q, c);
    Nest(x, b, c, q, r, p, s);
    NestBound(b, c, r, s);
    QuotientIs(x, b * c, p, s * b + r);
  }

  function Power(b: nat, k: nat): (r: nat)
    ensures b > 0 ==> r > 0
  {
    if k == 0 then 1 else b * Power(b, k - 1)
  }

  function Repeat<T>(x: T, n: nat): (r: seq<T>)
    ensures |r| == n && forall i :: 0 <= i < n ==> r[i] == x
  {
    if n == 0 then [] else Repeat(x, n - 1) + [x]
  }

  // Bytes read as one number, most significant first.
  function BigEndian(b: seq<nat>): nat {
    if b == [] then 0 else 256 * BigEndian(b[..|b| - 1]) + b[|b| - 1]
  }
}
