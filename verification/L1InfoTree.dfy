/**
 The L1 info tree root: the level-by-level builder against the recursive Merkle root of
 the leaves padded with zero leaves to a full tree, and what the root binds.

 Keccak is a parameter: nothing is assumed about it.
 */
module L1InfoTree {
  import opened Arith
  import opened Wrappers

  type Digest = d: seq<bv8> | |d| == 32 witness seq(32, i => 0)
  type Hasher = (Digest, Digest) -> Digest

  const ZERO: Digest := [
    0, 0, 0, 0, 0, 0, 0, 0, 0, 0, 0, 0, 0, 0, 0, 0,
    0, 0, 0, 0, 0, 0, 0, 0, 0, 0, 0, 0, 0, 0, 0, 0]

  /* ---------- specification ---------- */

  // The root of a full tree of height k: the hash of the roots of its two halves.
  function Root(h: Hasher, k: nat, leaves: seq<Digest>): Digest
    requires |leaves| == Power(2, k)
  {
    if k == 0 then leaves[0]
    else h(Root(h, k - 1, leaves[..Power(2, k - 1)]), Root(h, k - 1, leaves[Power(2, k - 1)..]))
  }

  function Pad(leaves: seq<Digest>, zero: Digest, n: nat): (r: seq<Digest>)
    requires |leaves| <= n
    ensures |r| == n
  {
    leaves + Repeat(zero, n - |leaves|)
  }

  // The root of an all-zero tree of height k.
  function ZeroHash(h: Hasher, k: nat): Digest {
    if k == 0 then ZERO else h(ZeroHash(h, k - 1), ZeroHash(h, k - 1))
  }

  function PairUp(h: Hasher, leaves: seq<Digest>): (r: seq<Digest>)
    ensures |r| == |leaves| / 2
  {
    seq(|leaves| / 2, i requires 0 <= i < |leaves| / 2 => h(leaves[2 * i], leaves[2 * i + 1]))
  }

  /* ---------- one level at a time ---------- */

  lemma PairsSplit(h: Hasher, leaves: seq<Digest>, n: nat)
    requires 2 * n <= |leaves| && |leaves| % 2 == 0
    ensures PairUp(h, leaves)[..n] == PairUp(h, leaves[..2 * n])
    ensures PairUp(h, leaves)[n..] == PairUp(h, leaves[2 * n..])
  {
  }

  // Hashing the leaves in pairs takes off one level.
  lemma {:induction false} RootOfPairs(h: Hasher, k: nat, leaves: seq<Digest>)
    requires |leaves| == Power(2, k + 1)
    ensures Root(h, k + 1, leaves) == Root(h, k, PairUp(h, leaves))
  {
    if k == 0 {
      var l, r := leaves[..1], leaves[1..];
      assert Root(h, 0, l) == leaves[0] && Root(h, 0, r) == leaves[1];
    } else {
      RootOfPairs(h, k - 1, leaves[..Power(2, k)]);
      RootOfPairs(h, k - 1, leaves[Power(2, k)..]);
      PairsSplit(h, leaves, Power(2, k - 1));
    }
  }

  // Pairing the padded leaves is padding the paired leaves with the next zero hash.
  lemma PairsOfPadded(h: Hasher, leaves: seq<Digest>, zero: Digest, n: nat)
    requires |leaves| <= 2 * n && |leaves| % 2 == 0
    ensures PairUp(h, Pad(leaves, zero, 2 * n)) == Pad(PairUp(h, leaves), h(zero, zero), n)
  {
  }

  lemma PadOneMore(leaves: seq<Digest>, zero: Digest, n: nat)
    requires |leaves| < n
    ensures Pad(leaves + [zero], zero, n) == Pad(leaves, zero, n)
  {
  }

  // One round of the builder, seen from the root.
  lemma LevelKeepsRoot(h: Hasher, leaves: seq<Digest>, level: nat, k: nat)
    requires |leaves| <= Power(2, k + 1) && |leaves| % 2 == 0
    ensures Root(h, k + 1, Pad(leaves, ZeroHash(h, level), Power(2, k + 1)))
         == Root(h, k, Pad(PairUp(h, leaves), ZeroHash(h, level + 1), Power(2, k)))
  {
    RootOfPairs(h, k, Pad(leaves, ZeroHash(h, level), Power(2, k + 1)));
    PairsOfPadded(h, leaves, ZeroHash(h, level), Power(2, k));
  }

  // What the builder keeps true: the current leaves, padded with the zero hash of their
  // level, have the root that is asked for.
  ghost predicate OnTrack(h: Hasher, height: nat, input: seq<Digest>, level: nat, leaves: seq<Digest>)
    requires level <= height
  {
    && |leaves| > 0
    && (|input| <= Power(2, height) <==> |leaves| <= Power(2, height - level))
    && (|input| <= Power(2, height) ==>
          Root(h, height - level, Pad(leaves, ZeroHash(h, level), Power(2, height - level)))
          == Root(h, height, Pad(input, ZERO, Power(2, height))))
  }

  lemma EvenKeepsTrack(h: Hasher, height: nat, input: seq<Digest>, level: nat, leaves: seq<Digest>)
    requires level < height && OnTrack(h, height, input, level, leaves) && |leaves| % 2 == 1
    ensures OnTrack(h, height, input, level, leaves + [ZeroHash(h, level)])
  {
    assert Power(2, height - level) % 2 == 0;
    if |leaves| < Power(2, height - level) {
      PadOneMore(leaves, ZeroHash(h, level), Power(2, height - level));
    }
  }

  lemma RoundKeepsTrack(h: Hasher, height: nat, input: seq<Digest>, level: nat, leaves: seq<Digest>)
    requires level < height && OnTrack(h, height, input, level, leaves) && |leaves| % 2 == 0
    ensures OnTrack(h, height, input, level + 1, PairUp(h, leaves))
  {
    if |leaves| <= Power(2, height - level) {
      LevelKeepsRoot(h, leaves, level, height - level - 1);
    }
  }

  // At the top there is one leaf, the root, exactly when there were not too many.
  lemma TopLevel(h: Hasher, height: nat, input: seq<Digest>, leaves: seq<Digest>)
    requires OnTrack(h, height, input, height, leaves)
    ensures |leaves| == 1 <==> |input| <= Power(2, height)
    ensures |leaves| == 1 ==> leaves[0] == Root(h, height, Pad(input, ZERO, Power(2, height)))
  {
    if |leaves| == 1 {
      assert Pad(leaves, ZeroHash(h, height), 1) == leaves;
    }
  }

  // The nodes of a level start with its hashes.
  ghost predicate Heads(ns: seq<seq<Digest>>, hashes: seq<Digest>) {
    |ns| == |hashes| && forall j :: 0 <= j < |ns| ==> |ns[j]| > 0 && ns[j][0] == hashes[j]
  }

  /* ---------- the builder ---------- */

  method GenerateZeroHashes(h: Hasher, height: nat) returns (zeroHashes: seq<Digest>)
    ensures |zeroHashes| == height + 1
    ensures forall i :: 0 <= i <= height ==> zeroHashes[i] == ZeroHash(h, i)
  {
    zeroHashes := [ZERO];
    for i := 1 to height + 1
      invariant |zeroHashes| == i
      invariant forall j :: 0 <= j < i ==> zeroHashes[j] == ZeroHash(h, j)
    {
      zeroHashes := zeroHashes + [h(zeroHashes[i - 1], zeroHashes[i - 1])];
    }
  }

  // The source reads one leaf past the end of a list of odd length; its only caller never
  // passes one.
  method BuildIntermediate(h: Hasher, leaves: seq<Digest>)
    returns (nodes: seq<seq<Digest>>, hashes: seq<Digest>)
    requires |leaves| % 2 == 0
    ensures hashes == PairUp(h, leaves)
    ensures |nodes| == |hashes|
    ensures forall j :: 0 <= j < |nodes| ==> nodes[j] == [hashes[j], leaves[2 * j], leaves[2 * j + 1]]
  {
    nodes, hashes := [], [];
    var i := 0;
    while i < |leaves|
      invariant 0 <= i <= |leaves| && i % 2 == 0
      invariant |nodes| == |hashes| == i / 2
      invariant forall j :: 0 <= j < |hashes| ==> hashes[j] == h(leaves[2 * j], leaves[2 * j + 1])
      invariant forall j :: 0 <= j < |nodes| ==> nodes[j] == [hashes[j], leaves[2 * j], leaves[2 * j + 1]]
    {
      var left, right := i, i + 1;
      var hash := h(leaves[left], leaves[right]);
      nodes := nodes + [[hash, leaves[left], leaves[right]]];
      hashes := hashes + [hash];
      i := i + 2;
    }
  }

  class Tree {
    const h: Hasher
    const height: nat
    const zeroHashes: seq<Digest>

    ghost predicate Valid() {
      && |zeroHashes| == height + 1
      && forall i :: 0 <= i <= height ==> zeroHashes[i] == ZeroHash(h, i)
    }

    constructor (hasher: Hasher, treeHeight: nat)
      ensures Valid() && h == hasher && height == treeHeight
    {
      h, height := hasher, treeHeight;
      var z := GenerateZeroHashes(hasher, treeHeight);
      zeroHashes := z;
    }

    method BuildL1InfoRoot(input: seq<Digest>) returns (root: Result<Digest>)
      requires Valid()
      ensures root.Ok? <==> height >= 1 && |input| <= Power(2, height)
      ensures root.Ok? ==> root.value == Root(h, height, Pad(input, ZERO, Power(2, height)))
    {
      var leaves := input;
      var ns: seq<seq<Digest>> := [];
      if |leaves| == 0 {
        leaves := leaves + [zeroHashes[0]];
        PadOneMore([], ZERO, Power(2, height));
      }
      for level := 0 to height
        invariant OnTrack(h, height, input, level, leaves)
        invariant if level == 0 then ns == [] else Heads(ns, leaves)
      {
        if |leaves| % 2 == 1 {
          EvenKeepsTrack(h, height, input, level, leaves);
          leaves := leaves + [zeroHashes[level]];
        }
        RoundKeepsTrack(h, height, input, level, leaves);
        ns, leaves := BuildIntermediate(h, leaves);
      }
      TopLevel(h, height, input, leaves);
      if |ns| != 1 {
        return Err("error: more than one root detected");
      }
      return Ok(ns[0][0]);
    }
  }

  /* ---------- what the root binds ---------- */

  type Pair = (Digest, Digest)

  predicate Collides(h: Hasher, a: Pair, b: Pair) {
    a != b && h(a.0, a.1) == h(b.0, b.1)
  }

  lemma MoreThanOneLeaf(h: Hasher, k: nat, a: seq<Digest>, b: seq<Digest>)
    requires |a| == Power(2, k) == |b| && a != b && Root(h, k, a) == Root(h, k, b)
    ensures k > 0
  {
  }

  // Two different full leaf lists with the same root contain a collision of the hash.
  lemma {:induction false} FindCollision(h: Hasher, k: nat, a: seq<Digest>, b: seq<Digest>)
    returns (x: Pair, y: Pair)
    requires |a| == Power(2, k) == |b| && a != b && Root(h, k, a) == Root(h, k, b)
    ensures Collides(h, x, y)
  {
    MoreThanOneLeaf(h, k, a, b);
    var half := Power(2, k - 1);
    var al, ar, bl, br := a[..half], a[half..], b[..half], b[half..];
    x, y := (Root(h, k - 1, al), Root(h, k - 1, ar)), (Root(h, k - 1, bl), Root(h, k - 1, br));
    if x == y {
      assert a == al + ar && b == bl + br;
      if al != bl {
        x, y := FindCollision(h, k - 1, al, bl);
      } else {
        x, y := FindCollision(h, k - 1, ar, br);
      }
    }
  }

  // Two leaf lists with the same root pad to the same list, or here are two different
  // inputs that collide under the hash.
  lemma RootBinds(h: Hasher, k: nat, a: seq<Digest>, b: seq<Digest>) returns (x: Pair, y: Pair)
    requires |a| <= Power(2, k) && |b| <= Power(2, k)
    requires Root(h, k, Pad(a, ZERO, Power(2, k))) == Root(h, k, Pad(b, ZERO, Power(2, k)))
    ensures Pad(a, ZERO, Power(2, k)) == Pad(b, ZERO, Power(2, k)) || Collides(h, x, y)
  {
    if Pad(a, ZERO, Power(2, k)) != Pad(b, ZERO, Power(2, k)) {
      x, y := FindCollision(h, k, Pad(a, ZERO, Power(2, k)), Pad(b, ZERO, Power(2, k)));
    } else {
      x, y := (ZERO, ZERO), (ZERO, ZERO);
    }
  }

  // Padding forgets trailing zero leaves and nothing else.
  lemma PadsTheSameIff(a: seq<Digest>, b: seq<Digest>, n: nat)
    requires |a| <= |b| <= n
    ensures Pad(a, ZERO, n) == Pad(b, ZERO, n)
       <==> a <= b && forall i :: |a| <= i < |b| ==> b[i] == ZERO
  {
    var x, y := Pad(a, ZERO, n), Pad(b, ZERO, n);
    if x == y {
      assert forall i :: 0 <= i < |a| ==> a[i] == x[i] && b[i] == y[i];
      assert forall i :: |a| <= i < |b| ==> x[i] == ZERO && b[i] == y[i];
    }
  }
}
