/**
 The hash of a contract's bytecode: the padding, the little-endian words of seven bytes,
 and the sponge over blocks of eight words; and what the hash binds.

 Poseidon is a parameter that may also report an error.
 */
module Bytecode {
  import opened Arith
  import opened Wrappers

  const WORD := 7    // bytes per field element
  const BLOCK := 56  // bytes per Poseidon call

  type Limb = x: nat | x < U64

  datatype Cap = Cap(c0: Limb, c1: Limb, c2: Limb, c3: Limb)

  const ZERO_CAP: Cap := Cap(0, 0, 0, 0)

  type Poseidon = (seq<nat>, Cap) -> Option<Cap>

  /* ---------- specification ---------- */

  // b | 0x80
  function SetTop(b: Byte): Byte {
    if b < 128 then b + 128 else b
  }

  function Missing(n: nat): nat {
    (BLOCK - n % BLOCK) % BLOCK
  }

  // Each further byte is one less missing.
  lemma MissingCounts(n: nat)
    ensures Missing(n) > 0 <==> n % BLOCK != 0
    ensures Missing(n) > 0 ==> Missing(n + 1) == Missing(n) - 1
    ensures (n + Missing(n)) % BLOCK == 0
  {
  }

  // The code, 0x01, zeros up to a whole number of blocks, the top bit of the last byte set.
  function Padded(code: seq<Byte>): (p: seq<Byte>)
    ensures |p| % BLOCK == 0 && |p| > |code|
  {
    var c := code + [1] + Repeat(0, Missing(|code| + 1));
    MissingCounts(|code| + 1);
    c[|c| - 1 := SetTop(c[|c| - 1])]
  }

  function LittleEndian(b: seq<Byte>): nat {
    if b == [] then 0 else b[0] + 256 * LittleEndian(b[1..])
  }

  function Words(block: seq<Byte>): (w: seq<nat>)
    requires |block| == BLOCK
    ensures |w| == 8
  {
    seq(8, i requires 0 <= i < 8 => LittleEndian(block[WORD * i..WORD * i + WORD]))
  }

  function BlockAt(p: seq<Byte>, i: nat): (b: seq<Byte>)
    requires BLOCK * i + BLOCK <= |p|
    ensures |b| == BLOCK
  {
    p[BLOCK * i..BLOCK * i + BLOCK]
  }

  // Where byte `k` is.
  lemma InBlock(k: nat, n: nat)
    requires k < n && n % BLOCK == 0
    ensures k / BLOCK < n / BLOCK && BLOCK * (k / BLOCK) + k % BLOCK == k && BLOCK * (k / BLOCK) + BLOCK <= n
  {
  }

  lemma BlockFits(i: nat, n: nat)
    requires i < n / BLOCK
    ensures BLOCK * i + BLOCK <= n
  {
  }

  function Blocks(p: seq<Byte>): (r: seq<seq<nat>>)
    ensures |r| == |p| / BLOCK
  {
    seq(|p| / BLOCK, i requires 0 <= i < |p| / BLOCK => (BlockFits(i, |p|); Words(BlockAt(p, i))))
  }

  // Each block is hashed with the previous result as capacity, starting from zero.
  function Sponge(h: Poseidon, blocks: seq<seq<nat>>): Option<Cap> {
    if blocks == [] then Some(ZERO_CAP)
    else
      var c := Sponge(h, blocks[..|blocks| - 1]);
      if c.None? then None else h(blocks[|blocks| - 1], c.value)
  }

  function CodeHash(h: Poseidon, code: seq<Byte>): Option<Cap> {
    Sponge(h, Blocks(Padded(code)))
  }

  // The padded code, byte by byte.
  lemma PaddedLayout(code: seq<Byte>, k: nat)
    requires k < |Padded(code)|
    ensures var n, p := |code|, Padded(code);
            && n < |p| <= n + 56 && |p| % 56 == 0
            && p[k] == if k < n then code[k]
                       else if k == n then if n == |p| - 1 then 0x81 else 0x01
                       else if k == |p| - 1 then 0x80 else 0
  {
  }

  // Each word is the base 256 number of seven bytes, the first the least significant.
  lemma WordIsNumber(block: seq<Byte>, i: nat)
    requires |block| == 56 && i < 8
    ensures var b := seq(7, j requires 0 <= j < 7 => block[7 * i + j] as nat);
            Words(block)[i] == b[0] + b[1] * 0x100 + b[2] * 0x1_0000 + b[3] * 0x100_0000 + b[4] * 0x1_0000_0000
                               + b[5] * 0x100_0000_0000 + b[6] * 0x1_0000_0000_0000
  {
    var b := block[7 * i..7 * i + 7];
    assert b[1..][1..] == b[2..] && b[2..][1..] == b[3..] && b[3..][1..] == b[4..];
    assert b[4..][1..] == b[5..] && b[5..][1..] == b[6..] && b[6..][1..] == [];
    assert LittleEndian(b[6..]) == b[6] && LittleEndian(b[5..]) == b[5] + 256 * LittleEndian(b[6..]);
    assert LittleEndian(b[4..]) == b[4] + 256 * LittleEndian(b[5..]);
    assert LittleEndian(b[3..]) == b[3] + 256 * LittleEndian(b[4..]);
    assert LittleEndian(b[2..]) == b[2] + 256 * LittleEndian(b[3..]);
    assert LittleEndian(b[1..]) == b[1] + 256 * LittleEndian(b[2..]);
  }

  // The sponge starts from zero and hands on what each block hashes to.
  lemma {:induction false} SpongeChains(h: Poseidon, blocks: seq<seq<nat>>, caps: seq<Cap>)
    requires 0 < |caps| <= |blocks| + 1 && caps[0] == Cap(0, 0, 0, 0)
    requires forall i :: 0 <= i < |caps| - 1 ==> h(blocks[i], caps[i]) == Some(caps[i + 1])
    ensures Sponge(h, blocks[..|caps| - 1]) == Some(caps[|caps| - 1])
  {
    var n := |caps| - 1;
    if n > 0 {
      SpongeChains(h, blocks, caps[..n]);
      assert blocks[..n][..n - 1] == blocks[..n - 1];
    }
  }

  /* ---------- the loops ---------- */

  method Pad(input: seq<Byte>) returns (code: seq<Byte>)
    ensures code == Padded(input)
  {
    code := input + [1];
    ghost var k := 0;
    MissingCounts(|code|);
    while |code| % BLOCK != 0
      invariant |code| == |input| + 1 + k && code == input + [1] + Repeat(0, k)
      invariant Missing(|code|) == Missing(|input| + 1) - k
      invariant Missing(|code|) > 0 <==> |code| % BLOCK != 0
      decreases Missing(|code|)
    {
      MissingCounts(|code|);
      MissingCounts(|code| + 1);
      code := code + [0];
      k := k + 1;
    }
    code := code[|code| - 1 := SetTop(code[|code| - 1])];
  }

  // Reading backwards what was written forwards.
  lemma {:induction false} MirrorEndian(a: seq<Byte>, b: seq<Byte>)
    requires |a| == |b| && forall j :: 0 <= j < |b| ==> a[|a| - 1 - j] == b[j]
    ensures BigEndian(a) == LittleEndian(b)
  {
    if b != [] {
      var c := a[..|a| - 1];
      forall j | 0 <= j < |b| - 1
        ensures c[|c| - 1 - j] == b[1..][j]
      {
        assert a[|a| - 1 - (j + 1)] == b[j + 1];
      }
      MirrorEndian(c, b[1..]);
      assert a[|a| - 1 - 0] == b[0];
    }
  }

  function WordOf(block: seq<Byte>, i: nat): seq<Byte> {
    if WORD * i + WORD <= |block| then block[WORD * i..WORD * i + WORD] else []
  }

  // The buffer with `n` bytes of word `i` written, from its end to its start.
  ghost predicate Written(tmp: seq<Byte>, block: seq<Byte>, i: nat, n: nat) {
    && |block| == BLOCK && n <= WORD == |tmp|
    && forall j :: 0 <= j < n ==> j < |WordOf(block, i)| && tmp[WORD - 1 - j] == WordOf(block, i)[j]
  }

  lemma WriteNext(tmp: seq<Byte>, block: seq<Byte>, i: nat, n: nat)
    requires Written(tmp, block, i, n) && n < WORD && i < 8
    ensures Written(tmp[WORD - 1 - n := block[WORD * i + n]], block, i, n + 1)
  {
    assert WordOf(block, i)[n] == block[WORD * i + n];
  }

  lemma WordDone(tmp: seq<Byte>, block: seq<Byte>, i: nat)
    requires i < 8 && Written(tmp, block, i, WORD)
    ensures Words(block)[..i + 1] == Words(block)[..i] + [BigEndian(tmp)]
  {
    MirrorEndian(tmp, WordOf(block, i));
  }

  // A slice cut to a block, or filled with zeros.
  function BlockOf(subset: seq<Byte>): (block: seq<Byte>)
    ensures |block| == BLOCK
  {
    (subset + Repeat(0, BLOCK))[..BLOCK]
  }

  // After `j` bytes: the words read so far, and the buffer of the next one.
  ghost predicate Reading(block: seq<Byte>, elements: seq<nat>, tmp: seq<Byte>, counter: nat, j: nat) {
    && |block| == BLOCK && |tmp| == WORD && |elements| <= 8
    && j == WORD * |elements| + counter && counter < WORD
    && elements == Words(block)[..|elements|] && Written(tmp, block, |elements|, counter)
  }

  // One round of the inner loop.
  lemma ReadByte(block: seq<Byte>, elements: seq<nat>, tmp: seq<Byte>, counter: nat, j: nat)
    requires Reading(block, elements, tmp, counter, j) && j < BLOCK
    ensures var tmp' := tmp[WORD - 1 - counter := block[j]];
            if counter + 1 == WORD
            then Reading(block, elements + [BigEndian(tmp')], Repeat(0, WORD), 0, j + 1)
            else Reading(block, elements, tmp', counter + 1, j + 1)
  {
    WriteNext(tmp, block, |elements|, counter);
    if counter + 1 == WORD {
      WordDone(tmp[WORD - 1 - counter := block[j]], block, |elements|);
    }
  }

  // The inner loop: seven bytes at a time, written backwards and read as one big-endian
  // number.
  method Elements(subset: seq<Byte>) returns (elements: seq<nat>)
    ensures elements == Words(BlockOf(subset))
  {
    ghost var block := BlockOf(subset);
    elements := [];
    var tmp: seq<Byte> := Repeat(0, WORD);
    var counter := 0;
    for j := 0 to BLOCK
      invariant Reading(block, elements, tmp, counter, j)
    {
      var byteToAdd := if j < |subset| then subset[j] else 0;
      assert byteToAdd == block[j];
      ReadByte(block, elements, tmp, counter, j);
      tmp := tmp[WORD - 1 - counter := byteToAdd];
      counter := counter + 1;
      if counter == WORD {
        elements := elements + [BigEndian(tmp)];
        tmp := Repeat(0, WORD);
        counter := 0;
      }
    }
  }

  // The result after `n` rounds.
  ghost function Absorbed(h: Poseidon, code: seq<Byte>, n: nat): Option<Cap>
    requires BLOCK * n <= |code|
  {
    if n == 0 then Some(ZERO_CAP)
    else
      var c := Absorbed(h, code, n - 1);
      if c.None? then None else h(Words(BlockAt(code, n - 1)), c.value)
  }

  lemma {:induction false} AbsorbedIsSponge(h: Poseidon, code: seq<Byte>, n: nat)
    requires n <= |code| / BLOCK && BLOCK * n <= |code|
    ensures Absorbed(h, code, n) == Sponge(h, Blocks(code)[..n])
  {
    if n > 0 {
      AbsorbedIsSponge(h, code, n - 1);
      var bs := Blocks(code);
      assert bs[..n][..n - 1] == bs[..n - 1];
    }
  }

  lemma AllAbsorbed(h: Poseidon, code: seq<Byte>, n: nat)
    requires |code| == BLOCK * n
    ensures |code| % BLOCK == 0 && Absorbed(h, code, n) == Sponge(h, Blocks(code))
  {
    AbsorbedIsSponge(h, code, n);
    assert Blocks(code)[..n] == Blocks(code);
  }

  // Once a round fails, the hash of the whole code fails.
  lemma {:induction false} StaysFailed(h: Poseidon, code: seq<Byte>, i: nat, n: nat)
    requires i <= n && BLOCK * n <= |code| && Absorbed(h, code, i).None?
    ensures Absorbed(h, code, n).None?
  {
    if i < n {
      StaysFailed(h, code, i, n - 1);
    }
  }

  // One round of the outer loop. The slice stops at the last byte of the code or one byte
  // past the block, whichever comes first.
  method Round(h: Poseidon, code: seq<Byte>, pointer: nat, tmpHash: Cap) returns (next: Option<Cap>)
    requires pointer + BLOCK <= |code|
    ensures next == h(Words(code[pointer..pointer + BLOCK]), tmpHash)
  {
    var end := if |code| - 1 < pointer + BLOCK then |code| - 1 else pointer + BLOCK;
    var subset := code[pointer..end + 1];
    var elements := Elements(subset);
    assert BlockOf(subset) == code[pointer..pointer + BLOCK];
    next := h(elements, tmpHash);
  }

  method HashContractBytecode(h: Poseidon, input: seq<Byte>) returns (hash: Option<Cap>)
    ensures hash == CodeHash(h, input)
  {
    var code := Pad(input);
    hash := HashPadded(h, code);
  }

  // The outer loop.
  method HashPadded(h: Poseidon, code: seq<Byte>) returns (hash: Option<Cap>)
    requires |code| % BLOCK == 0
    ensures hash == Sponge(h, Blocks(code))
  {
    var numHashes := (|code| + BLOCK - 1) / BLOCK;
    assert |code| == BLOCK * numHashes;
    var tmpHash := ZERO_CAP;
    var pointer := 0;
    AllAbsorbed(h, code, numHashes);
    for i := 0 to numHashes
      invariant pointer == BLOCK * i
      invariant Absorbed(h, code, i) == Some(tmpHash)
    {
      var next := Round(h, code, pointer, tmpHash);
      pointer := pointer + BLOCK;
      if next.None? {
        StaysFailed(h, code, i + 1, numHashes);
        return None;
      }
      tmpHash := next.value;
    }
    return Some(tmpHash);
  }

  /* ---------- padding and words lose nothing ---------- */

  function Strip(s: seq<Byte>): seq<Byte> {
    if s != [] && s[|s| - 1] == 0 then Strip(s[..|s| - 1]) else s
  }

  // Undoes the padding.
  function Unpad(p: seq<Byte>): seq<Byte> {
    if p == [] || p[|p| - 1] < 128 then []
    else
      var s := Strip(p[|p| - 1 := p[|p| - 1] - 128]);
      if s == [] then [] else s[..|s| - 1]
  }

  lemma {:induction false} StripZeros(s: seq<Byte>, k: nat)
    requires s != [] && s[|s| - 1] != 0
    ensures Strip(s + Repeat(0, k)) == s
  {
    if k == 0 {
      assert s + Repeat(0, 0) == s;
    } else {
      assert (s + Repeat(0, k))[..|s| + k - 1] == s + Repeat(0, k - 1);
      StripZeros(s, k - 1);
    }
  }

  lemma UnpadPadded(code: seq<Byte>)
    ensures Unpad(Padded(code)) == code
  {
    var k := Missing(|code| + 1);
    var c := code + [1] + Repeat(0, k);
    var p := Padded(code);
    assert c[|c| - 1] <= 1;
    assert p[|p| - 1 := p[|p| - 1] - 128] == c;
    StripZeros(code + [1], k);
  }

  lemma {:induction false} LittleEndianInjective(a: seq<Byte>, b: seq<Byte>)
    requires |a| == |b| && LittleEndian(a) == LittleEndian(b)
    ensures a == b
  {
    if a != [] {
      LittleEndianInjective(a[1..], b[1..]);
      assert a == [a[0]] + a[1..] && b == [b[0]] + b[1..];
    }
  }

  lemma {:induction false} LittleEndianBound(b: seq<Byte>)
    ensures LittleEndian(b) < Power(256, |b|)
  {
    if b != [] {
      LittleEndianBound(b[1..]);
    }
  }

  // Every word that reaches Poseidon is below 2^56.
  lemma WordsFit(block: seq<Byte>, i: nat)
    requires |block| == BLOCK && i < 8
    ensures Words(block)[i] < 0x100_0000_0000_0000
  {
    LittleEndianBound(block[WORD * i..WORD * i + WORD]);
    assert Power(256, 7) == 256 * (256 * (256 * (256 * (256 * (256 * 256)))));
  }

  lemma WordsInjective(a: seq<Byte>, b: seq<Byte>)
    requires |a| == BLOCK == |b| && Words(a) == Words(b)
    ensures a == b
  {
    forall j | 0 <= j < BLOCK
      ensures a[j] == b[j]
    {
      var i := j / WORD;
      assert Words(a)[i] == Words(b)[i];
      LittleEndianInjective(a[WORD * i..WORD * i + WORD], b[WORD * i..WORD * i + WORD]);
      assert a[WORD * i..WORD * i + WORD][j % WORD] == b[WORD * i..WORD * i + WORD][j % WORD];
    }
  }

  lemma BlocksInjective(p: seq<Byte>, q: seq<Byte>)
    requires |p| % BLOCK == 0 && |q| % BLOCK == 0 && Blocks(p) == Blocks(q)
    ensures p == q
  {
    assert |p| == |q| by {
      DivRem(|p|, BLOCK);
      DivRem(|q|, BLOCK);
    }
    forall k | 0 <= k < |p|
      ensures p[k] == q[k]
    {
      InBlock(k, |p|);
      var i := k / BLOCK;
      assert Blocks(p)[i] == Blocks(q)[i];
      WordsInjective(BlockAt(p, i), BlockAt(q, i));
      assert BlockAt(p, i)[k % BLOCK] == BlockAt(q, i)[k % BLOCK];
    }
  }

  /* ---------- what the code hash binds ---------- */

  datatype Witness =
    | Collision(x: seq<nat>, c: Cap, y: seq<nat>, d: Cap)
    | ZeroBlock(z: seq<nat>, e: Cap)

  // Two different inputs with one output, or an input that hashes to the initial state.
  predicate Breaks(h: Poseidon, w: Witness) {
    match w
    case Collision(x, c, y, d) => (x, c) != (y, d) && h(x, c).Some? && h(x, c) == h(y, d)
    case ZeroBlock(z, e) => h(z, e) == Some(ZERO_CAP)
  }

  lemma {:induction false} SpongeBinds(h: Poseidon, xs: seq<seq<nat>>, ys: seq<seq<nat>>) returns (w: Witness)
    requires xs != ys && Sponge(h, xs).Some? && Sponge(h, xs) == Sponge(h, ys)
    ensures Breaks(h, w)
    decreases |xs|
  {
    if xs == [] {
      w := ZeroBlock(ys[|ys| - 1], Sponge(h, ys[..|ys| - 1]).value);
    } else if ys == [] {
      w := ZeroBlock(xs[|xs| - 1], Sponge(h, xs[..|xs| - 1]).value);
    } else {
      var x, y := xs[|xs| - 1], ys[|ys| - 1];
      var c, d := Sponge(h, xs[..|xs| - 1]).value, Sponge(h, ys[..|ys| - 1]).value;
      if (x, c) != (y, d) {
        w := Collision(x, c, y, d);
      } else {
        assert xs == xs[..|xs| - 1] + [x] && ys == ys[..|ys| - 1] + [y];
        w := SpongeBinds(h, xs[..|xs| - 1], ys[..|ys| - 1]);
      }
    }
  }

  lemma CodeHashBinds(h: Poseidon, a: seq<Byte>, b: seq<Byte>) returns (w: Witness)
    requires a != b && CodeHash(h, a).Some? && CodeHash(h, a) == CodeHash(h, b)
    ensures Breaks(h, w)
  {
    if Blocks(Padded(a)) == Blocks(Padded(b)) {
      BlocksInjective(Padded(a), Padded(b));
    }
    UnpadPadded(a);
    UnpadPadded(b);
    w := SpongeBinds(h, Blocks(Padded(a)), Blocks(Padded(b)));
  }
}
