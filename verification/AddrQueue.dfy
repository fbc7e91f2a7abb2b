/**
 The transactions the sequencer holds for one sender: a ready slot for the current nonce
 and a map, by nonce, of those that are not ready. Transactions are told apart by their
 hashes, as the queue itself does.
 */
module AddrQueue {
  import opened Wrappers

  type Hash = string

  datatype Tx = Tx(hash: Hash, nonce: nat, gasPrice: int, cost: int, receivedAt: int)

  datatype Reason = DuplicatedNonce | InvalidNonce

  // The value of a queue.
  datatype Queue = Queue(nonce: nat, balance: int, ready: Option<Tx>, notReady: map<nat, Tx>)

  ghost predicate Valid(q: Queue) {
    && (q.ready.Some? ==> q.ready.value.nonce == q.nonce && q.ready.value.cost <= q.balance)
    && (forall n :: n in q.notReady ==> q.notReady[n].nonce == n && q.nonce <= n)
  }

  function HashOf(t: Option<Tx>): set<Hash> {
    if t.Some? then {t.value.hash} else {}
  }

  function HashesIn(m: map<nat, Tx>): set<Hash> {
    set n | n in m :: m[n].hash
  }

  function Hashes(q: Queue): set<Hash> {
    HashOf(q.ready) + HashesIn(q.notReady)
  }

  /* ---------- the operations on values ---------- */

  datatype Added = Added(queue: Queue, newReady: Option<Tx>, prevReady: Option<Tx>, replaced: Option<Tx>, drop: Option<Reason>)

  // `prior`, unless it is the same transaction.
  function Replaced(prior: Option<Tx>, tx: Tx): Option<Tx> {
    if prior.Some? && prior.value.hash != tx.hash then prior else None
  }

  predicate Outbids(tx: Tx, rival: Option<Tx>) {
    rival.Some? ==> rival.value.gasPrice <= tx.gasPrice
  }

  function WaitingAt(q: Queue, n: nat): Option<Tx> {
    if n in q.notReady then Some(q.notReady[n]) else None
  }

  function Add(q: Queue, tx: Tx): Added {
    if tx.nonce < q.nonce then
      Added(q, None, None, None, Some(InvalidNonce))
    else
      var rival := if tx.nonce == q.nonce then q.ready else WaitingAt(q, tx.nonce);
      if !Outbids(tx, rival) then
        Added(q, None, None, None, Some(DuplicatedNonce))
      else if tx.nonce == q.nonce && tx.cost <= q.balance then
        Added(q.(ready := Some(tx)), Some(tx), rival, Replaced(rival, tx), None)
      else
        Added(q.(ready := if tx.nonce == q.nonce then None else q.ready,
                 notReady := q.notReady[tx.nonce := tx]),
              None, if tx.nonce == q.nonce then rival else None, Replaced(rival, tx), None)
  }

  function Delete(q: Queue, h: Hash): Queue {
    if q.ready.Some? && q.ready.value.hash == h then q.(ready := None)
    else q.(notReady := map n | n in q.notReady && q.notReady[n].hash != h :: q.notReady[n])
  }

  function Expire(q: Queue, nonces: set<nat>, ready: bool): Queue {
    q.(ready := if ready then None else q.ready, notReady := q.notReady - nonces)
  }

  datatype Updated = Updated(queue: Queue, prevReady: Option<Tx>, toDelete: map<nat, Tx>)

  function Affordable(q: Queue, n: nat, balance: int): bool {
    n in q.notReady && q.notReady[n].cost <= balance
  }

  function From(m: map<nat, Tx>, n: nat): map<nat, Tx> {
    map k | k in m && n <= k :: m[k]
  }

  function Below(m: map<nat, Tx>, n: nat): map<nat, Tx> {
    map k | k in m && k < n :: m[k]
  }

  // The ready transaction loses its slot when its nonce is not the current one or the
  // balance does not cover it; the waiting transaction at the new nonce then takes the
  // slot if it can be paid. Only a ready transaction of a later nonce is put back.
  function Update(q: Queue, nonce: Option<nat>, balance: Option<int>): Updated {
    var n := if nonce.Some? then nonce.value else q.nonce;
    var b := if balance.Some? then balance.value else q.balance;
    var kept, past := From(q.notReady, n), Below(q.notReady, n);
    if q.ready.Some? && q.ready.value.nonce == n && q.ready.value.cost <= b then
      Updated(Queue(n, b, q.ready, kept), None, past)
    else
      var ready := if Affordable(q, n, b) then Some(q.notReady[n]) else None;
      var rest := if ready.Some? then kept - {n} else kept;
      var back := if q.ready.Some? && q.ready.value.nonce > n
                  then rest[q.ready.value.nonce := q.ready.value] else rest;
      Updated(Queue(n, b, ready, back), q.ready, past)
  }

  lemma AddKeepsValid(q: Queue, tx: Tx)
    requires Valid(q)
    ensures Valid(Add(q, tx).queue)
  {
  }

  lemma UpdateKeepsValid(q: Queue, nonce: Option<nat>, balance: Option<int>)
    requires Valid(q)
    ensures Valid(Update(q, nonce, balance).queue)
  {
  }

  /* ---------- the class ---------- */

  // `gone` are waiting transactions outside `todo`: all that had run out at `start`, none
  // that had not at `end`.
  ghost predicate Expired(waiting: map<nat, Tx>, todo: set<nat>, gone: map<nat, Tx>, maxTime: int, start: int, end: int) {
    && (forall n :: n in gone ==>
          n in waiting && n !in todo && gone[n] == waiting[n] && waiting[n].receivedAt + maxTime < end)
    && (forall n :: n in waiting && n !in todo && waiting[n].receivedAt + maxTime < start ==> n in gone)
  }

  // The list and the map hold the same transactions, each once.
  ghost predicate Holds(txs: seq<Tx>, m: map<nat, Tx>) {
    && |txs| == |m|
    && (forall t :: t in txs ==> t.nonce in m && m[t.nonce] == t)
    && (forall n :: n in m ==> m[n] in txs && m[n].nonce == n)
  }

  lemma HoldsMore(txs: seq<Tx>, m: map<nat, Tx>, t: Tx)
    requires Holds(txs, m) && t.nonce !in m
    ensures Holds(txs + [t], m[t.nonce := t])
  {
  }

  // The loop of the expiry: `todo` are the nonces not looked at yet, `rest` what is left.
  ghost predicate Sifting(waiting: map<nat, Tx>, todo: set<nat>, rest: map<nat, Tx>, gone: map<nat, Tx>,
                          maxTime: int, start: int, end: int) {
    && (forall n :: n in rest <==> n in waiting && n !in gone)
    && (forall n :: n in rest ==> rest[n] == waiting[n] && rest[n].nonce == n)
    && todo <= rest.Keys && Expired(waiting, todo, gone, maxTime, start, end)
  }

  lemma SiftOne(waiting: map<nat, Tx>, todo: set<nat>, rest: map<nat, Tx>, gone: map<nat, Tx>,
                maxTime: int, start: int, end: int, n: nat, now: int)
    requires Sifting(waiting, todo, rest, gone, maxTime, start, end) && n in todo && start <= now <= end
    ensures if rest[n].receivedAt + maxTime < now
            then Sifting(waiting, todo - {n}, rest - {n}, gone[n := rest[n]], maxTime, start, end)
            else Sifting(waiting, todo - {n}, rest, gone, maxTime, start, end)
  {
  }

  class AddrQueue {
    var currentNonce: nat
    var currentBalance: int
    var readyTx: Option<Tx>
    var notReadyTxs: map<nat, Tx>

    ghost function Contents(): Queue
      reads this
    {
      Queue(currentNonce, currentBalance, readyTx, notReadyTxs)
    }

    constructor (nonce: nat, balance: int)
      ensures Contents() == Queue(nonce, balance, None, map[]) && Valid(Contents())
    {
      currentNonce, currentBalance, readyTx, notReadyTxs := nonce, balance, None, map[];
    }

    method AddTx(tx: Tx)
      returns (newReadyTx: Option<Tx>, prevReadyTx: Option<Tx>, replacedTx: Option<Tx>, dropReason: Option<Reason>)
      requires Valid(Contents())
      modifies this`readyTx, this`notReadyTxs
      ensures Added(Contents(), newReadyTx, prevReadyTx, replacedTx, dropReason) == Add(old(Contents()), tx)
      ensures Valid(Contents())
    {
      var repTx := None;
      if currentNonce == tx.nonce {
        if readyTx.None? || tx.gasPrice >= readyTx.value.gasPrice {
          var oldReadyTx := readyTx;
          if oldReadyTx.Some? && oldReadyTx.value.hash != tx.hash {
            repTx := oldReadyTx;
          }
          if currentBalance >= tx.cost {
            readyTx := Some(tx);
            return Some(tx), oldReadyTx, repTx, None;
          } else {
            readyTx := None;
            notReadyTxs := notReadyTxs[tx.nonce := tx];
            return None, oldReadyTx, repTx, None;
          }
        } else {
          return None, None, None, Some(DuplicatedNonce);
        }
      } else if currentNonce > tx.nonce {
        return None, None, None, Some(InvalidNonce);
      }
      var found := tx.nonce in notReadyTxs;
      if !found || tx.gasPrice >= notReadyTxs[tx.nonce].gasPrice {
        if found && notReadyTxs[tx.nonce].hash != tx.hash {
          repTx := Some(notReadyTxs[tx.nonce]);
        }
        notReadyTxs := notReadyTxs[tx.nonce := tx];
        return None, None, repTx, None;
      } else {
        return None, None, None, Some(DuplicatedNonce);
      }
    }

    method DeleteTx(h: Hash) returns (deletedReadyTx: Option<Tx>)
      requires Valid(Contents())
      modifies this`readyTx, this`notReadyTxs
      ensures Contents() == Delete(old(Contents()), h)
      ensures deletedReadyTx == if old(readyTx).Some? && old(readyTx).value.hash == h then old(readyTx) else None
      ensures Valid(Contents())
    {
      if readyTx.Some? && readyTx.value.hash == h {
        deletedReadyTx := readyTx;
        readyTx := None;
      } else {
        deletedReadyTx := None;
        var todo := notReadyTxs.Keys;
        while todo != {}
          invariant todo <= notReadyTxs.Keys <= old(notReadyTxs).Keys
          invariant forall n :: n in old(notReadyTxs) ==>
            (n in notReadyTxs <==> n in todo || old(notReadyTxs)[n].hash != h)
          invariant forall n :: n in notReadyTxs ==> notReadyTxs[n] == old(notReadyTxs)[n]
          invariant readyTx == old(readyTx)
          decreases todo
        {
          var n :| n in todo;
          todo := todo - {n};
          if notReadyTxs[n].hash == h {
            notReadyTxs := notReadyTxs - {notReadyTxs[n].nonce};
          }
        }
        assert notReadyTxs == Delete(old(Contents()), h).notReady;
      }
    }

    // The clock is read once for every transaction, at some moment between `start` and
    // `end`. What had run out at `start` is removed; what is removed had run out at `end`.
    method ExpireTransactions(maxTime: int, start: int, end: int)
      returns (txs: seq<Tx>, prevReadyTx: Option<Tx>, ghost waiting: seq<Tx>, ghost gone: map<nat, Tx>)
      requires Valid(Contents()) && start <= end
      modifies this`readyTx, this`notReadyTxs
      ensures Contents() == Expire(old(Contents()), gone.Keys, prevReadyTx.Some?)
      ensures Expired(old(notReadyTxs), {}, gone, maxTime, start, end)
      ensures Holds(waiting, gone) && txs == waiting + if prevReadyTx.Some? then [prevReadyTx.value] else []
      ensures if prevReadyTx.Some?
              then prevReadyTx == old(readyTx) && prevReadyTx.value.receivedAt + maxTime < end
              else old(readyTx).Some? ==> old(readyTx).value.receivedAt + maxTime >= start
      ensures Valid(Contents())
    {
      txs, gone := ExpireWaiting(maxTime, start, end);
      waiting := txs;
      prevReadyTx := None;
      var now :| start <= now <= end;
      if readyTx.Some? && readyTx.value.receivedAt + maxTime < now {
        prevReadyTx := readyTx;
        txs := txs + [readyTx.value];
        readyTx := None;
      }
    }

    // The loop over the waiting transactions.
    method ExpireWaiting(maxTime: int, start: int, end: int) returns (txs: seq<Tx>, ghost gone: map<nat, Tx>)
      requires start <= end
      requires forall n :: n in notReadyTxs ==> notReadyTxs[n].nonce == n
      modifies this`notReadyTxs
      ensures notReadyTxs == old(notReadyTxs) - gone.Keys
      ensures Expired(old(notReadyTxs), {}, gone, maxTime, start, end)
      ensures Holds(txs, gone)
    {
      txs, gone := [], map[];
      var todo := notReadyTxs.Keys;
      while todo != {}
        invariant Sifting(old(notReadyTxs), todo, notReadyTxs, gone, maxTime, start, end) && Holds(txs, gone)
        decreases todo
      {
        var n :| n in todo;
        var now :| start <= now <= end;
        SiftOne(old(notReadyTxs), todo, notReadyTxs, gone, maxTime, start, end, n, now);
        todo := todo - {n};
        if notReadyTxs[n].receivedAt + maxTime < now {
          HoldsMore(txs, gone, notReadyTxs[n]);
          gone := gone[n := notReadyTxs[n]];
          txs := txs + [notReadyTxs[n]];
          notReadyTxs := notReadyTxs - {notReadyTxs[n].nonce};
        }
      }
    }

    method UpdateCurrentNonceBalance(nonce: Option<nat>, balance: Option<int>)
      returns (newReadyTx: Option<Tx>, prevReadyTx: Option<Tx>, toDelete: seq<Tx>)
      requires Valid(Contents())
      modifies this`currentNonce, this`currentBalance, this`readyTx, this`notReadyTxs
      ensures var u := Update(old(Contents()), nonce, balance);
              && Contents() == u.queue && newReadyTx == readyTx && prevReadyTx == u.prevReady
              && Holds(toDelete, u.toDelete)
      ensures Valid(Contents())
    {
      UpdateKeepsValid(Contents(), nonce, balance);
      var oldReadyTx := None;
      if balance.Some? {
        currentBalance := balance.value;
      }
      toDelete := SetNonce(nonce);
      if readyTx.Some? && (readyTx.value.nonce != currentNonce || currentBalance < readyTx.value.cost) {
        oldReadyTx := readyTx;
        readyTx := None;
      }
      if readyTx.None? {
        if currentNonce in notReadyTxs && currentBalance >= notReadyTxs[currentNonce].cost {
          readyTx := Some(notReadyTxs[currentNonce]);
          notReadyTxs := notReadyTxs - {currentNonce};
        }
      }
      if oldReadyTx.Some? && oldReadyTx.value.nonce > currentNonce {
        notReadyTxs := notReadyTxs[oldReadyTx.value.nonce := oldReadyTx.value];
      }
      return readyTx, oldReadyTx, toDelete;
    }

    // The part of the update that drops the waiting transactions below a new nonce.
    method SetNonce(nonce: Option<nat>) returns (txs: seq<Tx>)
      requires Valid(Contents().(ready := None))
      modifies this`currentNonce, this`notReadyTxs
      ensures currentNonce == if nonce.Some? then nonce.value else old(currentNonce)
      ensures notReadyTxs == From(old(notReadyTxs), currentNonce)
      ensures Holds(txs, Below(old(notReadyTxs), currentNonce))
    {
      txs := [];
      if nonce.Some? && currentNonce != nonce.value {
        currentNonce := nonce.value;
        ghost var past;
        txs, past := PastTxs();
        RemoveAll(txs, past);
      }
    }

    // The loop over the waiting transactions.
    method PastTxs() returns (txs: seq<Tx>, ghost past: map<nat, Tx>)
      requires forall n :: n in notReadyTxs ==> notReadyTxs[n].nonce == n
      ensures past == Below(notReadyTxs, currentNonce)
      ensures Holds(txs, past)
    {
      txs, past := [], map[];
      var todo := notReadyTxs.Keys;
      while todo != {}
        invariant todo <= notReadyTxs.Keys && past.Keys !! todo
        invariant past == map k | k in notReadyTxs && k !in todo && k < currentNonce :: notReadyTxs[k]
        invariant Holds(txs, past)
        decreases todo
      {
        var n :| n in todo;
        todo := todo - {n};
        if notReadyTxs[n].nonce < currentNonce {
          HoldsMore(txs, past, notReadyTxs[n]);
          past := past[n := notReadyTxs[n]];
          txs := txs + [notReadyTxs[n]];
        }
      }
    }

    // The loop over the transactions to delete.
    method RemoveAll(txs: seq<Tx>, ghost past: map<nat, Tx>)
      requires Holds(txs, past)
      modifies this`notReadyTxs
      ensures notReadyTxs == old(notReadyTxs) - past.Keys
    {
      for i := 0 to |txs|
        invariant notReadyTxs.Keys <= old(notReadyTxs).Keys
        invariant forall n :: n in notReadyTxs ==> notReadyTxs[n] == old(notReadyTxs)[n]
        invariant forall n :: n in old(notReadyTxs) && n !in past ==> n in notReadyTxs
        invariant forall j :: 0 <= j < i ==> txs[j].nonce !in notReadyTxs
      {
        notReadyTxs := notReadyTxs - {txs[i].nonce};
      }
      forall n | n in past
        ensures n !in notReadyTxs
      {
        var j :| 0 <= j < |txs| && txs[j] == past[n];
      }
    }
  }
}
