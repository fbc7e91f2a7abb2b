/**
 The state tree over an abstract key-value backend: the keys of the leaves, the setters
 and the getters.

 The backend maps a root to the leaves below it; a leaf that was never set reads as "0".
 */
module StateTree {
  import opened Wrappers
  import opened Arith
  import opened Bytecode
  import opened Limbs
  import opened HexStrings

  type H4 = seq<nat>

  /* ---------- keys ---------- */

  datatype Leaf = Balance | Nonce | Code | Storage(position: nat) | CodeLength

  function TypeOf(l: Leaf): nat {
    match l
    case Balance => 0
    case Nonce => 1
    case Code => 2
    case Storage(_) => 3
    case CodeLength => 4
  }

  // HashPoseidonAllZeroes, as four limbs.
  const DEFAULT_CAP: Cap :=
    Cap(0x3c18a9786cb0b359, 0xc4055e3364a246c3, 0x7953db0ab48808f4, 0xc71603f33a1144ca)

  // An address is a number of 160 bits.
  const ADDRESSES: nat := W32 * W32 * W32 * W32 * W32

  function KeyWords(address: nat, leafType: nat): seq<nat> {
    ToLimbs(address, W32, 5) + [0, leafType, 0]
  }

  // keyEthAddr and the Key* functions, before the result is turned into bytes.
  function LeafKey(h: Poseidon, address: nat, l: Leaf): Option<Cap> {
    var cap := if l.Storage? then h(ToLimbs(l.position, W32, 8), ZERO_CAP) else Some(DEFAULT_CAP);
    if cap.None? then None else h(KeyWords(address, TypeOf(l)), cap.value)
  }

  function H4OfCap(c: Cap): (r: H4)
    ensures |r| == 4 && Below(r, U64)
  {
    [c.c0, c.c1, c.c2, c.c3]
  }

  // The default capacity is the hash of zeros that the source has as a constant.
  lemma DefaultCapacity()
    ensures H4Value(H4OfCap(DEFAULT_CAP)) == Some(0xc71603f33a1144ca7953db0ab48808f4c4055e3364a246c33c18a9786cb0b359)
  {
    SumOfFour(H4OfCap(DEFAULT_CAP));
    assert H4OfCap(DEFAULT_CAP)[..4] == H4OfCap(DEFAULT_CAP);
  }

  // A key hashes the five words of the address, the lowest first, and the type of the leaf
  // between zeros, with the hash of the position as capacity for storage.
  lemma KeyLayout(h: Poseidon, address: nat, l: Leaf)
    ensures var a1, a2 := address / 0x1_0000_0000, address / 0x1_0000_0000 / 0x1_0000_0000;
            var a3, a4 := a2 / 0x1_0000_0000, a2 / 0x1_0000_0000 / 0x1_0000_0000;
            var t := if l.Balance? then 0 else if l.Nonce? then 1 else if l.Code? then 2 else if l.Storage? then 3 else 4;
            var words := [address % 0x1_0000_0000, a1 % 0x1_0000_0000, a2 % 0x1_0000_0000, a3 % 0x1_0000_0000,
                          a4 % 0x1_0000_0000, 0, t, 0];
            var cap := if l.Storage? then h(ToLimbs(l.position, 0x1_0000_0000, 8), Cap(0, 0, 0, 0)) else Some(DEFAULT_CAP);
            LeafKey(h, address, l) == if cap.None? then None else h(words, cap.value)
  {
    var a1, a2 := address / W32, address / W32 / W32;
    var a3, a4 := a2 / W32, a2 / W32 / W32;
    OneMoreLimb(a4, W32, 0);
    OneMoreLimb(a3, W32, 1);
    OneMoreLimb(a2, W32, 2);
    OneMoreLimb(a1, W32, 3);
    OneMoreLimb(address, W32, 4);
    assert ToLimbs(address, W32, 5) + [0, TypeOf(l), 0] ==
           [address % W32, a1 % W32, a2 % W32, a3 % W32, a4 % W32, 0, TypeOf(l), 0];
  }

  // The source uses all eight limbs of the address and drops the last three.
  lemma AddressLimbs(address: nat)
    requires address < ADDRESSES
    ensures ToLimbs(address, W32, 8) == ToLimbs(address, W32, 5) + [0, 0, 0]
  {
    SplitLimbs(address, W32, 5, 3);
    AddressPower();
    QuotientIs(address, ADDRESSES, 0, address);
    assert ToLimbs(0, W32, 1) == [0];
    assert ToLimbs(0, W32, 2) == [0, 0];
    assert ToLimbs(0, W32, 3) == [0, 0, 0];
  }

  lemma AddressPower()
    ensures Power(W32, 5) == ADDRESSES
  {
  }

  lemma AddressInjective(a: nat, b: nat)
    requires a < ADDRESSES && b < ADDRESSES && ToLimbs(a, W32, 5) == ToLimbs(b, W32, 5)
    ensures a == b
  {
    FromToLimbs(a, W32, 5);
    FromToLimbs(b, W32, 5);
    AddressPower();
    QuotientIs(a, ADDRESSES, 0, a);
    QuotientIs(b, ADDRESSES, 0, b);
  }

  // Two storage positions have the same limbs exactly when they agree modulo 2^256.
  lemma PositionsAliasIff(p: nat, q: nat)
    ensures ToLimbs(p, W32, 8) == ToLimbs(q, W32, 8) <==> p % W256 == q % W256
  {
    FeaOfScalar(p);
    FeaOfScalar(q);
    if p % W256 == q % W256 {
      var v, w := ToLimbs(p, W32, 8), ToLimbs(q, W32, 8);
      LimbsBelow(p, W32, 8);
      LimbsBelow(q, W32, 8);
      ScalarOfFea(v);
      ScalarOfFea(w);
    }
  }

  lemma KeyWordsInjective(a: nat, t: nat, b: nat, u: nat)
    requires a < ADDRESSES && b < ADDRESSES && KeyWords(a, t) == KeyWords(b, u)
    ensures a == b && t == u
  {
    var x, y := KeyWords(a, t), KeyWords(b, u);
    assert x[..5] == ToLimbs(a, W32, 5) && y[..5] == ToLimbs(b, W32, 5);
    assert x[6] == t && y[6] == u;
    AddressInjective(a, b);
  }

  lemma PositionsDiffer(p: nat, q: nat)
    requires p < W256 && q < W256 && p != q
    ensures ToLimbs(p, W32, 8) != ToLimbs(q, W32, 8)
  {
    FeaOfScalar(p);
    FeaOfScalar(q);
  }

  // Two different leaves with one key contain a Poseidon collision.
  lemma KeysBind(h: Poseidon, a: nat, l: Leaf, b: nat, m: Leaf) returns (w: Witness)
    requires a < ADDRESSES && b < ADDRESSES
    requires l.Storage? ==> l.position < W256
    requires m.Storage? ==> m.position < W256
    requires (a, l) != (b, m) && LeafKey(h, a, l).Some? && LeafKey(h, a, l) == LeafKey(h, b, m)
    ensures w.Collision? && Breaks(h, w)
  {
    var x, y := KeyWords(a, TypeOf(l)), KeyWords(b, TypeOf(m));
    var c := if l.Storage? then h(ToLimbs(l.position, W32, 8), ZERO_CAP).value else DEFAULT_CAP;
    var d := if m.Storage? then h(ToLimbs(m.position, W32, 8), ZERO_CAP).value else DEFAULT_CAP;
    if x == y && c == d {
      KeyWordsInjective(a, TypeOf(l), b, TypeOf(m));
      PositionsDiffer(l.position, m.position);
      w := Collision(ToLimbs(l.position, W32, 8), ZERO_CAP, ToLimbs(m.position, W32, 8), ZERO_CAP);
    } else {
      w := Collision(x, c, y, d);
    }
  }

  /* ---------- the backend ---------- */

  type Trees = map<H4, map<H4, string>>

  function Leaves(t: Trees, root: H4): map<H4, string> {
    if root in t then t[root] else map[]
  }

  function Answer(t: Trees, root: H4, key: H4): string {
    if key in Leaves(t, root) then Leaves(t, root)[key] else "0"
  }

  // Every stored leaf is the hexadecimal form of a 256-bit number.
  ghost predicate WellFormed(t: Trees) {
    forall r, k :: r in t && k in t[r] ==>
      ParseBig(t[r][k]).Some? && 0 <= ParseBig(t[r][k]).value < W256
  }

  // The number a leaf holds below a root.
  ghost function Value(t: Trees, root: H4, key: H4): (v: nat)
    requires WellFormed(t)
    ensures v < W256
  {
    var a := Answer(t, root, key);
    assert key !in Leaves(t, root) ==> a == "0" && AllHex(a) && HexValue(a[..0]) == 0;
    ParseBig(a).value
  }

  // The tables after a leaf below `oldRoot` is set and the backend answers with `root`.
  function Updated(t: Trees, root: H4, oldRoot: H4, key: H4, value: seq<nat>): Trees
    requires |value| == 8 && Below(value, W32)
  {
    t[root := Leaves(t, oldRoot)[key := Stored(value)]]
  }

  // After setting one leaf: that leaf has the value, every other keeps its own.
  ghost predicate OneLeafSet(t: Trees, root: H4, t': Trees, root': H4, key: H4, value: nat)
    requires WellFormed(t) && WellFormed(t')
  {
    && Value(t', root', key) == value
    && forall k :: k != key ==> Value(t', root', k) == Value(t, root, k)
  }

  lemma UpdatedSetsOneLeaf(t: Trees, root: H4, oldRoot: H4, key: H4, value: seq<nat>)
    requires WellFormed(t) && |value| == 8 && Below(value, W32)
    ensures WellFormed(Updated(t, root, oldRoot, key, value))
    ensures OneLeafSet(t, oldRoot, Updated(t, root, oldRoot, key, value), root, key, FeaValue(value))
  {
    StoredParses(value);
  }

  // The roots are what the backend computes from the leaves below them.
  ghost predicate Rooted(t: Trees, rootOf: map<H4, string> -> Cap) {
    forall r :: r in t ==> H4OfCap(rootOf(t[r])) == r
  }

  // With a backend that computes the root from the leaves, every earlier root can still be
  // read as before, or here are two sets of leaves with one root.
  lemma EarlierRootsStay(t: Trees, rootOf: map<H4, string> -> Cap, oldRoot: H4, key: H4, value: seq<nat>, r: H4)
    returns (x: map<H4, string>, y: map<H4, string>)
    requires |value| == 8 && Below(value, W32) && Rooted(t, rootOf) && r in t
    ensures var root := H4OfCap(rootOf(Leaves(t, oldRoot)[key := Stored(value)]));
            var t' := Updated(t, root, oldRoot, key, value);
            Rooted(t', rootOf) && (Leaves(t', r) == Leaves(t, r) || (x != y && rootOf(x) == rootOf(y)))
  {
    x, y := Leaves(t, oldRoot)[key := Stored(value)], t[r];
    if H4OfCap(rootOf(x)) == r {
      OneCap(rootOf(x), rootOf(y));
    }
  }

  // How the backend takes a set: whether it stores the leaf and under which root, whether
  // its answer arrives, and the new value it echoes.
  datatype Reply = Reply(root: Option<Cap>, arrived: bool, newValue: string)

  predicate Accepted(r: Reply) {
    r.root.Some? && r.arrived && (r.newValue == "" || ParseBig(r.newValue).Some?)
  }

  /* ---------- the tree ---------- */

  class Tree {
    const h: Poseidon
    var trees: Trees
    var programs: map<H4, seq<Byte>>

    constructor (poseidon: Poseidon)
      ensures Valid() && h == poseidon && trees == map[] && programs == map[]
    {
      h := poseidon;
      trees, programs := map[], map[];
    }

    ghost predicate Valid()
      reads this
    {
      WellFormed(trees)
    }

    // `up` says whether the backend answers.
    method Get(root: H4, key: H4, up: bool) returns (value: Result<seq<nat>>)
      requires Valid()
      ensures value.Ok? <==> up
      ensures value.Ok? ==> FeaValue(value.value) == Value(trees, root, key)
    {
      if !up {
        return Err("backend error");
      }
      value := String2Fea(Answer(trees, root, key));
      FeaOfScalar(Value(trees, root, key));
    }

    // An error does not mean that nothing was stored.
    method Set(oldRoot: H4, key: H4, value: seq<nat>, reply: Reply) returns (newRoot: Result<H4>)
      requires Valid() && |value| == 8 && Below(value, W32)
      modifies this`trees
      ensures Valid()
      ensures newRoot.Ok? <==> reply.root.Some? && reply.arrived && (reply.newValue == "" || ParseBig(reply.newValue).Some?)
      ensures newRoot.Ok? ==> newRoot.value == H4OfCap(reply.root.value)
      ensures trees == if reply.root.Some?
                       then Updated(old(trees), H4OfCap(reply.root.value), oldRoot, key, value)
                       else old(trees)
    {
      ScalarOfFea(value);
      var feaValue := TrimPrefix(Fea2String(value).value);
      if reply.root.Some? {
        UpdatedSetsOneLeaf(trees, H4OfCap(reply.root.value), oldRoot, key, value);
        trees := trees[H4OfCap(reply.root.value) := Leaves(trees, oldRoot)[key := feaValue]];
      }
      if reply.root.None? || !reply.arrived {
        return Err("backend error");
      }
      if reply.newValue != "" {
        var newValue := String2Fea(reply.newValue);
        if newValue.Err? {
          return Err(newValue.error);
        }
      }
      return Ok(H4OfCap(reply.root.value));
    }

    /* ----- getters ----- */

    // The steps that GetBalance, GetNonce, GetCodeHash and GetStorageAt share.
    method GetNumber(address: nat, l: Leaf, root: nat, up: bool) returns (value: Result<nat>)
      requires Valid() && root < W256
      ensures value.Ok? <==> LeafKey(h, address, l).Some? && up
      ensures value.Ok? ==> value.value == Value(trees, H4Of(root).value, H4OfCap(LeafKey(h, address, l).value))
    {
      var key := LeafKey(h, address, l);
      if key.None? {
        return Err("poseidon error");
      }
      ScalarOfH4(H4OfCap(key.value));
      var k := H4ToScalar(H4OfCap(key.value));
      var k4 := ScalarToH4(k.value);
      var r4 := ScalarToH4(root);
      var proof := Get(r4.value, k4.value, up);
      if proof.Err? {
        return Err(proof.error);
      }
      var scalar := Fea2Scalar(proof.value);
      return Ok(scalar);
    }

    // The hash leaf, then the program stored under that hash.
    method GetCode(address: nat, root: nat, hashUp: bool, programUp: bool) returns (code: Result<seq<Byte>>)
      requires Valid() && root < W256
      ensures LeafKey(h, address, Code).None? || !hashUp || !programUp ==> code.Err?
      ensures LeafKey(h, address, Code).Some? && hashUp && programUp ==>
        var program := H4Of(Value(trees, H4Of(root).value, H4OfCap(LeafKey(h, address, Code).value))).value;
        if program in programs then code == Ok(programs[program]) else code.Err?
    {
      var hash := GetNumber(address, Code, root, hashUp);
      if hash.Err? {
        return Err(hash.error);
      }
      var k4 := ScalarToH4(hash.value);
      if !programUp || k4.value !in programs {
        return Err("backend error");
      }
      return Ok(programs[k4.value]);
    }

    /* ----- setters ----- */

    // The steps that the setters share.
    method SetNumber(address: nat, l: Leaf, value: int, oldRoot: H4, reply: Reply)
      returns (newRoot: Result<H4>, ghost fea: seq<nat>)
      requires Valid()
      modifies this`trees
      ensures Valid()
      ensures |fea| == 8 && Below(fea, W32) && FeaValue(fea) == value % W256
      ensures newRoot.Ok? <==> LeafKey(h, address, l).Some? && Accepted(reply)
      ensures newRoot.Ok? ==> newRoot.value == H4OfCap(reply.root.value)
      ensures trees == if LeafKey(h, address, l).Some? && reply.root.Some?
                       then Updated(old(trees), H4OfCap(reply.root.value), oldRoot, H4OfCap(LeafKey(h, address, l).value), fea)
                       else old(trees)
    {
      var limbs := LimbsOf(value);
      fea := limbs;
      var key := LeafKey(h, address, l);
      if key.None? {
        return Err("poseidon error"), fea;
      }
      newRoot := Set(oldRoot, H4OfCap(key.value), limbs, reply);
    }

    // SetBalance and SetNonce refuse negative values; SetStorageAt takes any value. A value
    // is kept modulo 2^256. When the backend has stored the leaf, it is there below the
    // backend's root even if the caller gets an error.
    method SetLeaf(address: nat, l: Leaf, value: int, root: nat, reply: Reply)
      returns (newRoot: Result<nat>)
      requires Valid() && root < W256 && (l.Balance? || l.Nonce? || l.Storage?)
      modifies this`trees
      ensures Valid()
      ensures newRoot.Ok? <==> (0 <= value || l.Storage?) && LeafKey(h, address, l).Some? && Accepted(reply)
      ensures newRoot.Ok? ==> newRoot.value < W256 && H4Of(newRoot.value) == Some(H4OfCap(reply.root.value))
      ensures if (0 <= value || l.Storage?) && LeafKey(h, address, l).Some? && reply.root.Some?
              then OneLeafSet(old(trees), H4Of(root).value, trees, H4OfCap(reply.root.value),
                              H4OfCap(LeafKey(h, address, l).value), value % W256)
              else trees == old(trees)
    {
      if value < 0 && l.Balance? {
        return Err("invalid balance");
      }
      if value < 0 && l.Nonce? {
        return Err("invalid nonce");
      }
      var r4 := ScalarToH4(root);
      ghost var fea;
      var updated;
      updated, fea := SetNumber(address, l, value, r4.value, reply);
      if LeafKey(h, address, l).Some? && reply.root.Some? {
        UpdatedSetsOneLeaf(old(trees), H4OfCap(reply.root.value), r4.value, H4OfCap(LeafKey(h, address, l).value), fea);
      }
      if updated.Err? {
        return Err(updated.error);
      }
      var n := RootNumber(updated.value);
      return Ok(n);
    }

    // The program is stored under its hash, then the hash leaf and the length leaf are set.
    // `stored` and `arrived` say whether the backend keeps the program and answers.
    method SetCode(address: nat, code: seq<Byte>, root: nat, stored: bool, arrived: bool, first: Reply, second: Reply)
      returns (newRoot: Result<nat>)
      requires Valid() && root < W256
      modifies this
      ensures Valid()
      ensures programs == if CodeHash(h, code).Some? && stored
                          then old(programs)[H4OfCap(CodeHash(h, code).value) := code]
                          else old(programs)
      ensures newRoot.Ok? <==>
        && CodeHash(h, code).Some? && LeafKey(h, address, Code).Some? && LeafKey(h, address, CodeLength).Some?
        && stored && arrived && Accepted(first) && Accepted(second)
      ensures newRoot.Ok? ==> newRoot.value < W256 && H4Of(newRoot.value) == Some(H4OfCap(second.root.value))
      ensures var began := CodeHash(h, code).Some? && stored && arrived;
              && (!began || !FirstStored(h, address, first) ==> trees == old(trees))
              && (began && FirstStored(h, address, first) ==>
                    CodeLeavesSet(h, address, old(trees), H4Of(root).value, trees,
                                  H4Value(H4OfCap(CodeHash(h, code).value)).value, |code|, first, second))
    {
      var hash := HashContractBytecode(h, code);
      if hash.None? {
        return Err("poseidon error");
      }
      var hash4 := H4OfCap(hash.value);
      if stored {
        programs := programs[hash4 := code];
      }
      if !stored || !arrived {
        return Err("backend error");
      }
      var scCodeHash := NumberOfHash(hash4);
      var r4 := ScalarToH4(root);
      var updated := SetCodeLeaves(address, scCodeHash, |code|, r4.value, first, second);
      if updated.Err? {
        return Err(updated.error);
      }
      var n := RootNumber(updated.value);
      return Ok(n);
    }

    // The two leaves of `SetCode`, one after the other.
    method SetCodeLeaves(address: nat, hash: nat, length: nat, oldRoot: H4, first: Reply, second: Reply)
      returns (newRoot: Result<H4>)
      requires Valid() && hash < W256
      modifies this`trees
      ensures Valid()
      ensures newRoot.Ok? <==>
        LeafKey(h, address, Code).Some? && LeafKey(h, address, CodeLength).Some? && Accepted(first) && Accepted(second)
      ensures newRoot.Ok? ==> newRoot.value == H4OfCap(second.root.value)
      ensures if FirstStored(h, address, first)
              then CodeLeavesSet(h, address, old(trees), oldRoot, trees, hash, length, first, second)
              else trees == old(trees)
    {
      ghost var fea;
      newRoot, fea := SetNumber(address, Code, hash, oldRoot, first);
      ghost var between := trees;
      if FirstStored(h, address, first) {
        UpdatedSetsOneLeaf(old(trees), H4OfCap(first.root.value), oldRoot, H4OfCap(LeafKey(h, address, Code).value), fea);
        QuotientIs(hash, W256, 0, hash);
      }
      if newRoot.Err? {
        return;
      }
      newRoot, fea := SetNumber(address, CodeLength, length, newRoot.value, second);
      if SecondStored(h, address, first, second) {
        UpdatedSetsOneLeaf(between, H4OfCap(second.root.value), H4OfCap(first.root.value), H4OfCap(LeafKey(h, address, CodeLength).value), fea);
      }
    }
  }

  // How far `SetCode` gets in the backend, whatever its caller is told.
  predicate FirstStored(h: Poseidon, address: nat, first: Reply) {
    LeafKey(h, address, Code).Some? && first.root.Some?
  }

  predicate SecondStored(h: Poseidon, address: nat, first: Reply, second: Reply) {
    FirstStored(h, address, first) && Accepted(first) && LeafKey(h, address, CodeLength).Some? && second.root.Some?
  }

  // One leaf below the first root, or both below the second, and no other leaf.
  ghost predicate CodeLeavesSet(h: Poseidon, address: nat, t: Trees, root: H4, t': Trees, hash: nat, length: nat, first: Reply, second: Reply)
    requires WellFormed(t) && WellFormed(t') && FirstStored(h, address, first)
  {
    var codeKey := H4OfCap(LeafKey(h, address, Code).value);
    if !SecondStored(h, address, first, second) then
      OneLeafSet(t, root, t', H4OfCap(first.root.value), codeKey, hash)
    else
      var lengthKey, r := H4OfCap(LeafKey(h, address, CodeLength).value), H4OfCap(second.root.value);
      && (codeKey != lengthKey ==> Value(t', r, codeKey) == hash)
      && Value(t', r, lengthKey) == length % W256
      && forall k :: k != codeKey && k != lengthKey ==> Value(t', r, k) == Value(t, root, k)
  }

  /* ---------- get after set ---------- */

  predicate Ordinary(address: nat, l: Leaf) {
    address < ADDRESSES && (l.Storage? ==> l.position < W256)
  }

  // A leaf is read before and after one leaf is set: the leaf that was set reads as the
  // value, every leaf with another key reads as before.
  method GetAfterSet(tree: Tree, address: nat, l: Leaf, value: nat, root: nat, reply: Reply, address': nat, l': Leaf)
    returns (before: Result<nat>, newRoot: Result<nat>, after: Result<nat>)
    requires tree.Valid() && root < W256 && value < W256 && (l.Balance? || l.Nonce? || l.Storage?)
    requires LeafKey(tree.h, address, l).Some? && LeafKey(tree.h, address', l').Some? && Accepted(reply)
    modifies tree`trees
    ensures tree.Valid() && before.Ok? && newRoot.Ok? && after.Ok?
    ensures after.value == if LeafKey(tree.h, address, l) == LeafKey(tree.h, address', l') then value else before.value
  {
    before := tree.GetNumber(address', l', root, true);
    newRoot := tree.SetLeaf(address, l, value, root, reply);
    after := tree.GetNumber(address', l', newRoot.value, true);
    QuotientIs(value, W256, 0, value);
    OneCap(LeafKey(tree.h, address, l).value, LeafKey(tree.h, address', l').value);
  }

  // Setting a leaf leaves every other leaf as it was, or here is a Poseidon collision.
  method OtherLeavesStay(tree: Tree, address: nat, l: Leaf, value: nat, root: nat, reply: Reply, address': nat, l': Leaf)
    returns (before: Result<nat>, after: Result<nat>, ghost w: Witness)
    requires tree.Valid() && root < W256 && value < W256 && (l.Balance? || l.Nonce? || l.Storage?)
    requires Ordinary(address, l) && Ordinary(address', l') && (address, l) != (address', l')
    requires LeafKey(tree.h, address, l).Some? && LeafKey(tree.h, address', l').Some? && Accepted(reply)
    modifies tree`trees
    ensures tree.Valid() && before.Ok? && after.Ok?
    ensures after.value == before.value || Breaks(tree.h, w)
  {
    var newRoot;
    before, newRoot, after := GetAfterSet(tree, address, l, value, root, reply, address', l');
    w := ZeroBlock([], ZERO_CAP);
    if LeafKey(tree.h, address, l) == LeafKey(tree.h, address', l') {
      w := KeysBind(tree.h, address, l, address', l');
    }
  }

  // The code that was set is the code that is read, or here is a Poseidon collision.
  method GetCodeAfterSetCode(tree: Tree, address: nat, code: seq<Byte>, root: nat, first: Reply, second: Reply)
    returns (newRoot: Result<nat>, got: Result<seq<Byte>>, ghost w: Witness)
    requires tree.Valid() && root < W256 && address < ADDRESSES && Accepted(first) && Accepted(second)
    requires CodeHash(tree.h, code).Some?
    requires LeafKey(tree.h, address, Code).Some? && LeafKey(tree.h, address, CodeLength).Some?
    modifies tree
    ensures tree.Valid() && newRoot.Ok?
    ensures got == Ok(code) || Breaks(tree.h, w)
  {
    newRoot := tree.SetCode(address, code, root, true, true, first, second);
    got := tree.GetCode(address, newRoot.value, true, true);
    w := ZeroBlock([], ZERO_CAP);
    if LeafKey(tree.h, address, Code) == LeafKey(tree.h, address, CodeLength) {
      w := KeysBind(tree.h, address, Code, address, CodeLength);
    } else {
      OneCap(LeafKey(tree.h, address, Code).value, LeafKey(tree.h, address, CodeLength).value);
      ScalarOfH4(H4OfCap(CodeHash(tree.h, code).value));
    }
  }

  lemma OneCap(c: Cap, d: Cap)
    ensures H4OfCap(c) == H4OfCap(d) ==> c == d
  {
  }

  // The hash survives its trip through the hexadecimal string.
  lemma StringOfHash(h4: H4)
    requires |h4| == 4 && Below(h4, U64)
    ensures H4ToString(h4).Some? && ParseBig(TrimPrefix(H4ToString(h4).value)) == Some(H4Value(h4).value)
  {
    ScalarOfH4(h4);
    ParsePadded(H4Value(h4).value);
    var e := PadLeft(Encode(MinimalBytes(H4Value(h4).value)), 64);
    assert ("0x" + e)[..2] == "0x" && ("0x" + e)[2..] == e;
  }

  method NumberOfHash(h4: H4) returns (n: nat)
    requires |h4| == 4 && Below(h4, U64)
    ensures n < W256 && n == H4Value(h4).value
  {
    StringOfHash(h4);
    ScalarOfH4(h4);
    n := ParseBig(TrimPrefix(H4ToString(h4).value)).value;
  }

  method RootNumber(h4: H4) returns (n: nat)
    requires |h4| == 4 && Below(h4, U64)
    ensures n < W256 && H4Of(n) == Some(h4)
  {
    ScalarOfH4(h4);
    var r := H4ToScalar(h4);
    n := r.value;
  }

  // What `set` sends to the backend for eight 32-bit limbs.
  function Stored(value: seq<nat>): string
    requires |value| == 8 && Below(value, W32)
  {
    ScalarOfFea(value);
    TrimPrefix(Fea2String(value).value)
  }

  // Eight limbs for any number, which they hold modulo 2^256.
  method LimbsOf(value: int) returns (fea: seq<nat>)
    ensures |fea| == 8 && Below(fea, W32) && FeaValue(fea) == value % W256
  {
    fea := Scalar2Fea(value);
    FeaOfScalar(value);
    LimbsBelow(value, W32, 8);
  }

  lemma StoredParses(value: seq<nat>)
    requires |value| == 8 && Below(value, W32)
    ensures ParseBig(Stored(value)) == Some(FeaValue(value)) && FeaValue(value) < W256
  {
    ScalarOfFea(value);
    ParseFilled(FeaValue(value));
  }
}
