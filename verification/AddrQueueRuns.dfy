/**
 What happens to a transaction that entered a queue: where it can be, what reports it,
 and the two cases in which it disappears without a word.
 */
module AddrQueueRuns {
  import opened Wrappers
  import opened AddrQueue

  /* ---------- adding ---------- */

  function Without(q: Queue, n: nat): set<Hash> {
    HashesIn(q.notReady - {n})
  }

  // The new transaction takes the place of the waiting one at the current nonce, which
  // nothing compared it with, and no other place still holds that hash.
  ghost predicate Clobbers(q: Queue, tx: Tx) {
    && tx.nonce == q.nonce && Outbids(tx, q.ready) && tx.cost > q.balance
    && q.nonce in q.notReady
    && q.notReady[q.nonce].hash !in {tx.hash} + HashOf(q.ready) + Without(q, q.nonce)
  }

  // What the caller of `addTx` is told about.
  function AddReports(q: Queue, tx: Tx): set<Hash> {
    var a := Add(q, tx);
    HashOf(a.replaced) + if a.drop.Some? then {tx.hash} else {}
  }

  lemma SplitWaiting(q: Queue, n: nat)
    ensures HashesIn(q.notReady) == Without(q, n) + HashOf(WaitingAt(q, n))
  {
    var rest := q.notReady - {n};
    forall h | h in HashesIn(q.notReady)
      ensures h in Without(q, n) + HashOf(WaitingAt(q, n))
    {
      var k :| k in q.notReady && q.notReady[k].hash == h;
      assert k == n || (k in rest && rest[k].hash == h);
    }
    forall h | h in HashesIn(rest)
      ensures h in HashesIn(q.notReady)
    {
      var k :| k in rest && rest[k].hash == h;
      assert q.notReady[k].hash == h;
    }
  }

  lemma PutWaiting(q: Queue, tx: Tx)
    ensures HashesIn(q.notReady[tx.nonce := tx]) == Without(q, tx.nonce) + {tx.hash}
  {
    var q' := q.(notReady := q.notReady[tx.nonce := tx]);
    SplitWaiting(q', tx.nonce);
    assert q'.notReady - {tx.nonce} == q.notReady - {tx.nonce};
  }

  // Everything that was there or came is there or was reported.
  predicate Accounted(q: Queue, tx: Tx) {
    Hashes(Add(q, tx).queue) + AddReports(q, tx) == Hashes(q) + {tx.hash}
  }

  lemma ReadyAccounts(q: Queue, tx: Tx)
    requires tx.nonce < q.nonce || !Outbids(tx, if tx.nonce == q.nonce then q.ready else WaitingAt(q, tx.nonce))
          || (tx.nonce == q.nonce && tx.cost <= q.balance)
    ensures Accounted(q, tx)
  {
  }

  lemma LaterAccounts(q: Queue, tx: Tx)
    requires tx.nonce > q.nonce && Outbids(tx, WaitingAt(q, tx.nonce))
    ensures Accounted(q, tx)
  {
    SplitWaiting(q, tx.nonce);
    PutWaiting(q, tx);
  }

  lemma UncoveredAccounts(q: Queue, tx: Tx)
    requires tx.nonce == q.nonce && Outbids(tx, q.ready) && tx.cost > q.balance
    ensures Hashes(Add(q, tx).queue) + AddReports(q, tx) == {tx.hash} + HashOf(q.ready) + Without(q, q.nonce)
    ensures Hashes(q) + {tx.hash} == {tx.hash} + HashOf(q.ready) + Without(q, q.nonce) + HashOf(WaitingAt(q, q.nonce))
  {
    SplitWaiting(q, tx.nonce);
    PutWaiting(q, tx);
  }

  // Nothing is lost and nothing appears from nowhere, with one exception.
  lemma AddAccounts(q: Queue, tx: Tx)
    requires Valid(q)
    ensures Hashes(Add(q, tx).queue) + AddReports(q, tx) <= Hashes(q) + {tx.hash}
    ensures Hashes(Add(q, tx).queue) + AddReports(q, tx) == Hashes(q) + {tx.hash} <==> !Clobbers(q, tx)
    ensures Clobbers(q, tx) ==>
              Hashes(q) + {tx.hash} - (Hashes(Add(q, tx).queue) + AddReports(q, tx)) == {q.notReady[q.nonce].hash}
  {
    if tx.nonce == q.nonce && Outbids(tx, q.ready) && tx.cost > q.balance {
      UncoveredAccounts(q, tx);
    } else if tx.nonce > q.nonce && Outbids(tx, WaitingAt(q, tx.nonce)) {
      LaterAccounts(q, tx);
    } else {
      ReadyAccounts(q, tx);
    }
  }

  // The two conditions together need two transactions no balance covers: the simplest run
  // that loses one adds both.
  lemma TwoUnaffordableLoseOne(first: Tx, second: Tx, n: nat, balance: int)
    requires first.nonce == n && second.nonce == n && first.hash != second.hash
    requires first.cost > balance && second.cost > balance
    ensures var q := Add(Queue(n, balance, None, map[]), first).queue;
            var a := Add(q, second);
            && first.hash in Hashes(q) && first.hash !in Hashes(a.queue)
            && a.replaced.None? && a.drop.None? && a.prevReady.None?
  {
    var q := Add(Queue(n, balance, None, map[]), first).queue;
    PutWaiting(q, second);
    assert q.notReady - {n} == map[];
  }

  /* ---------- the best offer for a nonce ---------- */

  function AddAll(q: Queue, txs: seq<Tx>): Queue {
    if txs == [] then q else Add(AddAll(q, txs[..|txs| - 1]), txs[|txs| - 1]).queue
  }

  function Offers(txs: seq<Tx>, n: nat): seq<Tx> {
    if txs == [] then []
    else Offers(txs[..|txs| - 1], n) + if txs[|txs| - 1].nonce == n then [txs[|txs| - 1]] else []
  }

  // The latest of the highest offers.
  ghost predicate Best(t: Option<Tx>, offers: seq<Tx>) {
    if t.None? then offers == []
    else exists i :: 0 <= i < |offers| && offers[i] == t.value
                     && (forall j :: 0 <= j < i ==> offers[j].gasPrice <= offers[i].gasPrice)
                     && (forall j :: i < j < |offers| ==> offers[j].gasPrice < offers[i].gasPrice)
  }

  lemma BestOfMore(t: Option<Tx>, offers: seq<Tx>, tx: Tx)
    requires Best(t, offers)
    ensures Best(if Outbids(tx, t) then Some(tx) else t, offers + [tx])
  {
    var more := offers + [tx];
    if t.None? {
      assert more[0] == tx;
    } else {
      var i :| 0 <= i < |offers| && offers[i] == t.value
               && (forall j :: 0 <= j < i ==> offers[j].gasPrice <= offers[i].gasPrice)
               && (forall j :: i < j < |offers| ==> offers[j].gasPrice < offers[i].gasPrice);
      if Outbids(tx, t) {
        assert more[|offers|] == tx;
      } else {
        assert more[i] == t.value;
      }
    }
  }

  // The offers for the current nonce that still count: one that the balance does not cover
  // goes to the waiting place, and if it is at least as high as all others it takes the
  // ready slot away from them.
  function Live(txs: seq<Tx>, nonce: nat, balance: int): seq<Tx> {
    if txs == [] then []
    else
      var live, tx := Live(txs[..|txs| - 1], nonce, balance), txs[|txs| - 1];
      if tx.nonce != nonce then live
      else if tx.cost <= balance then live + [tx]
      else if forall o :: o in live ==> o.gasPrice <= tx.gasPrice then []
      else live
  }

  // The offers for the current nonce that the balance covers.
  function CoveredOffers(txs: seq<Tx>, nonce: nat, balance: int): seq<Tx> {
    if txs == [] then []
    else
      var tx := txs[|txs| - 1];
      CoveredOffers(txs[..|txs| - 1], nonce, balance) + if tx.nonce == nonce && tx.cost <= balance then [tx] else []
  }

  // Offer `i` is not covered, and at least as high as every offer that counts when it comes.
  predicate Clears(txs: seq<Tx>, i: nat, nonce: nat, balance: int)
    requires i < |txs|
  {
    && txs[i].nonce == nonce && txs[i].cost > balance
    && forall o :: o in Live(txs[..i], nonce, balance) ==> o.gasPrice <= txs[i].gasPrice
  }

  // The offers that count are the covered ones after the last that clears.
  lemma {:induction false} LiveAfterLastClear(txs: seq<Tx>, z: nat, nonce: nat, balance: int)
    requires z <= |txs| && (z > 0 ==> Clears(txs, z - 1, nonce, balance))
    requires forall i :: z <= i < |txs| ==> !Clears(txs, i, nonce, balance)
    ensures Live(txs, nonce, balance) == CoveredOffers(txs[z..], nonce, balance)
  {
    var n := |txs| - 1;
    if z <= n {
      var most := txs[..n];
      forall i | 0 <= i < n
        ensures Clears(most, i, nonce, balance) <==> Clears(txs, i, nonce, balance)
      {
        assert most[..i] == txs[..i];
      }
      LiveAfterLastClear(most, z, nonce, balance);
      assert txs[z..][..n - z] == most[z..];
      assert !Clears(txs, n, nonce, balance);
    }
  }

  lemma OutbidsAll(tx: Tx, t: Option<Tx>, offers: seq<Tx>)
    requires Best(t, offers)
    ensures Outbids(tx, t) <==> forall o :: o in offers ==> o.gasPrice <= tx.gasPrice
  {
    if t.Some? {
      assert t.value in offers;
    }
  }

  lemma WaitingAfterAdd(q: Queue, tx: Tx, n: nat)
    requires q.nonce < n
    ensures Add(q, tx).queue.nonce == q.nonce && Add(q, tx).queue.balance == q.balance
    ensures WaitingAt(Add(q, tx).queue, n) ==
            if tx.nonce == n && Outbids(tx, WaitingAt(q, n)) then Some(tx) else WaitingAt(q, n)
  {
  }

  // Starting from an empty queue, whatever is added: each later nonce keeps its best offer.
  lemma {:induction false} BestOfferStays(nonce: nat, balance: int, txs: seq<Tx>, n: nat)
    requires nonce < n
    ensures var q := AddAll(Queue(nonce, balance, None, map[]), txs);
            q.nonce == nonce && q.balance == balance && Best(WaitingAt(q, n), Offers(txs, n))
  {
    if txs != [] {
      var most, tx := txs[..|txs| - 1], txs[|txs| - 1];
      BestOfferStays(nonce, balance, most, n);
      var q := AddAll(Queue(nonce, balance, None, map[]), most);
      WaitingAfterAdd(q, tx, n);
      if tx.nonce == n {
        BestOfMore(WaitingAt(q, n), Offers(most, n), tx);
      } else {
        assert Offers(txs, n) == Offers(most, n);
      }
    }
  }

  // The current nonce keeps the best of the offers that still count.
  lemma {:induction false} ReadyIsBestLive(nonce: nat, balance: int, txs: seq<Tx>)
    ensures var q := AddAll(Queue(nonce, balance, None, map[]), txs);
            q.nonce == nonce && q.balance == balance && Best(q.ready, Live(txs, nonce, balance))
  {
    if txs != [] {
      var most, tx := txs[..|txs| - 1], txs[|txs| - 1];
      ReadyIsBestLive(nonce, balance, most);
      var q, live := AddAll(Queue(nonce, balance, None, map[]), most), Live(most, nonce, balance);
      if tx.nonce == nonce {
        OutbidsAll(tx, q.ready, live);
        BestOfMore(q.ready, live, tx);
      }
    }
  }

  // When the balance covers every offer for the current nonce, they all count.
  lemma {:induction false} CoveredOffersCount(txs: seq<Tx>, nonce: nat, balance: int)
    requires forall t :: t in txs && t.nonce == nonce ==> t.cost <= balance
    ensures Live(txs, nonce, balance) == Offers(txs, nonce)
  {
    if txs != [] {
      CoveredOffersCount(txs[..|txs| - 1], nonce, balance);
    }
  }

  /* ---------- updating ---------- */

  function NewNonce(q: Queue, nonce: Option<nat>): nat {
    if nonce.Some? then nonce.value else q.nonce
  }

  function NewBalance(q: Queue, balance: Option<int>): int {
    if balance.Some? then balance.value else q.balance
  }

  function UpdateReports(u: Updated): set<Hash> {
    HashOf(u.prevReady) + HashesIn(u.toDelete)
  }

  // The nonce goes back while a transaction is ready and another waits at its nonce.
  ghost predicate Overwrites(q: Queue, nonce: Option<nat>) {
    && NewNonce(q, nonce) < q.nonce && q.ready.Some? && q.nonce in q.notReady
    && q.notReady[q.nonce].hash !in {q.ready.value.hash} + Without(q, q.nonce)
  }

  lemma CutWaiting(m: map<nat, Tx>, n: nat)
    ensures HashesIn(m) == HashesIn(From(m, n)) + HashesIn(Below(m, n))
  {
    forall h | h in HashesIn(m)
      ensures h in HashesIn(From(m, n)) + HashesIn(Below(m, n))
    {
      var k :| k in m && m[k].hash == h;
      assert if n <= k then From(m, n)[k].hash == h else Below(m, n)[k].hash == h;
    }
  }

  lemma CutCount(m: map<nat, Tx>, n: nat)
    ensures |m| == |From(m, n)| + |Below(m, n)|
  {
    var kept, past := From(m, n), Below(m, n);
    assert m.Keys == kept.Keys + past.Keys;
    assert |m| == |m.Keys| && |kept| == |kept.Keys| && |past| == |past.Keys|;
  }

  lemma OneLess(m: map<nat, Tx>, n: nat)
    ensures |m| == |m - {n}| + if n in m then 1 else 0
  {
  }

  function Count(q: Queue): nat {
    |q.notReady| + if q.ready.Some? then 1 else 0
  }

  predicate KeepsSlot(q: Queue, nonce: Option<nat>, balance: Option<int>) {
    q.ready.Some? && NewNonce(q, nonce) == q.nonce && q.ready.value.cost <= NewBalance(q, balance)
  }

  // No transaction is put back unless the nonce goes back.
  lemma NonceGoesOn(q: Queue, nonce: Option<nat>, balance: Option<int>)
    requires Valid(q) && q.nonce <= NewNonce(q, nonce)
    ensures var n := NewNonce(q, nonce);
            var u := Update(q, nonce, balance);
            var kept := From(q.notReady, n);
            && u.toDelete == Below(q.notReady, n)
            && u.prevReady == (if KeepsSlot(q, nonce, balance) then None else q.ready)
            && if KeepsSlot(q, nonce, balance) then u.queue.ready == q.ready && u.queue.notReady == kept
               else if n in kept && u.queue.ready.Some? then u.queue.ready.value == kept[n] && u.queue.notReady == kept - {n}
               else u.queue.ready.None? && u.queue.notReady == kept
  {
  }

  // When the nonce does not go back, the transactions are split among those still tracked,
  // those to delete and the one that lost the ready slot.
  lemma UpdateSplits(q: Queue, nonce: Option<nat>, balance: Option<int>)
    requires Valid(q) && q.nonce <= NewNonce(q, nonce)
    ensures var u := Update(q, nonce, balance);
            Hashes(u.queue) + UpdateReports(u) == Hashes(q)
  {
    var n := NewNonce(q, nonce);
    NonceGoesOn(q, nonce, balance);
    CutWaiting(q.notReady, n);
    SplitWaiting(q.(notReady := From(q.notReady, n)), n);
  }

  // Each of them is in one place only.
  lemma UpdateCounts(q: Queue, nonce: Option<nat>, balance: Option<int>)
    requires Valid(q) && q.nonce <= NewNonce(q, nonce)
    ensures var u := Update(q, nonce, balance);
            Count(u.queue) + |u.toDelete| + (if u.prevReady.Some? then 1 else 0) == Count(q)
  {
    var n := NewNonce(q, nonce);
    NonceGoesOn(q, nonce, balance);
    CutCount(q.notReady, n);
    OneLess(From(q.notReady, n), n);
  }

  // In general one transaction can be lost, exactly when the old ready one is put over it.
  lemma UpdateAccounts(q: Queue, nonce: Option<nat>, balance: Option<int>)
    requires Valid(q)
    ensures var u := Update(q, nonce, balance);
            && Hashes(u.queue) + UpdateReports(u) <= Hashes(q)
            && (Hashes(u.queue) + UpdateReports(u) == Hashes(q) <==> !Overwrites(q, nonce))
  {
    if q.nonce <= NewNonce(q, nonce) {
      UpdateSplits(q, nonce, balance);
    } else {
      NonceGoesBack(q, nonce, balance);
      if q.ready.Some? {
        SplitWaiting(q, q.nonce);
        PutWaiting(q, q.ready.value);
      }
    }
  }

  // No transaction waits at a nonce below the old one, so only the ready one moves.
  lemma NonceGoesBack(q: Queue, nonce: Option<nat>, balance: Option<int>)
    requires Valid(q) && NewNonce(q, nonce) < q.nonce
    ensures var waiting := if q.ready.Some? then q.notReady[q.nonce := q.ready.value] else q.notReady;
            Update(q, nonce, balance) == Updated(Queue(nonce.value, NewBalance(q, balance), None, waiting), q.ready, map[])
  {
  }

  // A queue gets there with any two transactions of one nonce of which the balance covers
  // only the second, when the nonce then goes back.
  lemma NonceBackLosesOne(first: Tx, second: Tx, n: nat, m: nat, balance: int)
    requires first.nonce == n && second.nonce == n && first.hash != second.hash && m < n
    requires first.cost > balance && second.cost <= balance
    ensures var q := Add(Add(Queue(n, balance, None, map[]), first).queue, second).queue;
            var u := Update(q, Some(m), None);
            && Valid(q) && first.hash in Hashes(q)
            && first.hash !in Hashes(u.queue) && first.hash !in UpdateReports(u)
  {
    var q := Add(Add(Queue(n, balance, None, map[]), first).queue, second).queue;
    assert q.notReady == map[n := first] && q.ready == Some(second);
    NonceGoesBack(q, Some(m), None);
    assert q.notReady[n].hash == first.hash;
    assert Update(q, Some(m), None).queue.notReady == map[n := second];
  }

  // A ready transaction the new balance does not cover leaves the queue altogether: it is
  // handed back and not kept among the waiting ones, unless the nonce goes back.
  lemma OldReadyIsKeptIff(q: Queue, nonce: Option<nat>, balance: Option<int>)
    requires Valid(q) && q.ready.Some? && q.ready.value.hash !in HashesIn(q.notReady)
    ensures q.ready.value.hash in Hashes(Update(q, nonce, balance).queue) <==>
            || NewNonce(q, nonce) < q.nonce
            || (NewNonce(q, nonce) == q.nonce && q.ready.value.cost <= NewBalance(q, balance))
  {
    var u := Update(q, nonce, balance);
    var t := q.ready.value;
    if NewNonce(q, nonce) < q.nonce {
      assert u.queue.notReady[q.nonce] == t;
    } else if NewNonce(q, nonce) == q.nonce && t.cost <= NewBalance(q, balance) {
      assert u.queue.ready == q.ready;
    } else {
      forall k | k in u.queue.notReady
        ensures u.queue.notReady[k].hash != t.hash
      {
        assert q.notReady[k] == u.queue.notReady[k];
      }
    }
  }

  /* ---------- no payable transaction is left waiting ---------- */

  // A waiting transaction has the nonce and costs at most the balance.
  ghost predicate Payable(q: Queue, n: nat, balance: int) {
    n in q.notReady && balance >= q.notReady[n].cost
  }

  ghost predicate Settled(q: Queue) {
    q.ready.None? ==> !Payable(q, q.nonce, q.balance)
  }

  // Some tracked transaction has the nonce and is covered by the balance.
  ghost predicate HasPayable(q: Queue, n: nat, balance: int) {
    Payable(q, n, balance) || (q.ready.Some? && q.ready.value.nonce == n && q.ready.value.cost <= balance)
  }

  lemma UpdateSettles(q: Queue, nonce: Option<nat>, balance: Option<int>)
    requires Valid(q)
    ensures var q' := Update(q, nonce, balance).queue;
            Settled(q') && (q'.ready.Some? <==> HasPayable(q, NewNonce(q, nonce), NewBalance(q, balance)))
  {
  }

  // A payable transaction is left waiting exactly when the ready one is taken away while
  // it waits at the same nonce.
  lemma DeleteSettlesIff(q: Queue, h: Hash)
    requires Valid(q) && Settled(q)
    ensures Settled(Delete(q, h)) <==> !(HashOf(q.ready) == {h} && Payable(q, q.nonce, q.balance))
  {
  }

  lemma ExpireSettlesIff(q: Queue, nonces: set<nat>, ready: bool)
    requires Valid(q) && Settled(q)
    ensures Settled(Expire(q, nonces, ready)) <==>
            !(ready && q.ready.Some? && q.nonce !in nonces && Payable(q, q.nonce, q.balance))
  {
  }

  // Deleting forgets the hash unless it was held twice: the ready place hides the other.
  lemma DeleteForgetsIff(q: Queue, h: Hash)
    ensures Hashes(Delete(q, h)) == (Hashes(q) - {h}) + if HashOf(q.ready) == {h} && h in HashesIn(q.notReady) then {h} else {}
  {
    var q' := Delete(q, h);
    if q.ready.Some? && q.ready.value.hash == h {
      assert HashOf(q.ready) == {h};
    } else {
      assert h !in HashOf(q.ready);
      forall x | x in HashesIn(q.notReady) && x != h
        ensures x in HashesIn(q'.notReady)
      {
        var k :| k in q.notReady && q.notReady[k].hash == x;
        assert q'.notReady[k].hash == x;
      }
      forall x | x in HashesIn(q'.notReady)
        ensures x in HashesIn(q.notReady) && x != h
      {
        var k :| k in q'.notReady && q'.notReady[k].hash == x;
        assert q.notReady[k].hash == x;
      }
    }
  }

  /* ---------- runs ---------- */

  datatype Op =
    | Adds(tx: Tx)
    | Deletes(h: Hash)
    | Expires(nonces: set<nat>, ready: bool)
    | Updates(newNonce: Option<nat>, newBalance: Option<int>)

  function Apply(q: Queue, op: Op): Queue {
    match op
    case Adds(tx) => Add(q, tx).queue
    case Deletes(h) => Delete(q, h)
    case Expires(nonces, ready) => Expire(q, nonces, ready)
    case Updates(nonce, balance) => Update(q, nonce, balance).queue
  }

  // The hashes an operation returns or was told to remove.
  function Reports(q: Queue, op: Op): set<Hash> {
    match op
    case Adds(tx) => AddReports(q, tx)
    case Deletes(h) => {h}
    case Expires(nonces, ready) =>
      HashesIn(map n | n in q.notReady && n in nonces :: q.notReady[n]) + if ready then HashOf(q.ready) else {}
    case Updates(nonce, balance) => UpdateReports(Update(q, nonce, balance))
  }

  ghost predicate Silent(q: Queue, op: Op) {
    (op.Adds? && Clobbers(q, op.tx)) || (op.Updates? && Overwrites(q, op.newNonce))
  }

  function Run(q: Queue, ops: seq<Op>): Queue {
    if ops == [] then q else Apply(Run(q, ops[..|ops| - 1]), ops[|ops| - 1])
  }

  function AllReports(q: Queue, ops: seq<Op>): set<Hash> {
    if ops == [] then {}
    else AllReports(q, ops[..|ops| - 1]) + Reports(Run(q, ops[..|ops| - 1]), ops[|ops| - 1])
  }

  function AllAdded(ops: seq<Op>): set<Hash> {
    if ops == [] then {}
    else AllAdded(ops[..|ops| - 1]) + if ops[|ops| - 1].Adds? then {ops[|ops| - 1].tx.hash} else {}
  }

  ghost predicate NeverSilent(q: Queue, ops: seq<Op>) {
    ops != [] ==> NeverSilent(q, ops[..|ops| - 1]) && !Silent(Run(q, ops[..|ops| - 1]), ops[|ops| - 1])
  }

  lemma ExpireAccounts(q: Queue, nonces: set<nat>, ready: bool)
    ensures Hashes(Expire(q, nonces, ready)) + Reports(q, Expires(nonces, ready)) == Hashes(q)
  {
    var gone := map n | n in q.notReady && n in nonces :: q.notReady[n];
    var rest := q.notReady - nonces;
    forall h | h in HashesIn(q.notReady)
      ensures h in HashesIn(gone) + HashesIn(rest)
    {
      var k :| k in q.notReady && q.notReady[k].hash == h;
      assert if k in nonces then gone[k].hash == h else rest[k].hash == h;
    }
    forall h | h in HashesIn(gone) + HashesIn(rest)
      ensures h in HashesIn(q.notReady)
    {
      if k :| k in gone && gone[k].hash == h {
        assert q.notReady[k].hash == h;
      } else {
        var k :| k in rest && rest[k].hash == h;
        assert q.notReady[k].hash == h;
      }
    }
  }

  lemma StepAccounts(q: Queue, op: Op)
    requires Valid(q)
    ensures Valid(Apply(q, op))
    ensures var added := if op.Adds? then {op.tx.hash} else {};
            && Hashes(Apply(q, op)) <= Hashes(q) + added
            && (!Silent(q, op) ==> Hashes(q) + added <= Hashes(Apply(q, op)) + Reports(q, op))
  {
    match op
    case Adds(tx) =>
      AddKeepsValid(q, tx);
      AddAccounts(q, tx);
    case Deletes(h) =>
      DeleteForgetsIff(q, h);
    case Expires(nonces, ready) =>
      ExpireAccounts(q, nonces, ready);
    case Updates(nonce, balance) =>
      UpdateKeepsValid(q, nonce, balance);
      UpdateAccounts(q, nonce, balance);
  }

  // Over every run, whatever the nonces and balances do: the queue is valid, it tracks only
  // what was added, and what was added is tracked or was reported unless one of the two
  // silent steps was taken.
  lemma {:induction false} RunAccounts(nonce: nat, balance: int, ops: seq<Op>)
    ensures var start := Queue(nonce, balance, None, map[]);
            && Valid(Run(start, ops))
            && Hashes(Run(start, ops)) <= AllAdded(ops)
            && (NeverSilent(start, ops) ==> AllAdded(ops) <= Hashes(Run(start, ops)) + AllReports(start, ops))
  {
    if ops != [] {
      RunAccounts(nonce, balance, ops[..|ops| - 1]);
      StepAccounts(Run(Queue(nonce, balance, None, map[]), ops[..|ops| - 1]), ops[|ops| - 1]);
    }
  }
}
