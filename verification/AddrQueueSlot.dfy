/**
 What an address queue tells the worker. The worker keeps the ready transactions of all
 queues in a list of its own and changes it only on what the queue's operations return.
 */
module AddrQueueSlot {
  import opened Wrappers
  import opened AddrQueue
  import opened AddrQueueRuns

  function AsSet(t: Option<Tx>): set<Tx> {
    if t.Some? then {t.value} else {}
  }

  /* ---------- the answers of addTx ---------- */

  // A nonce below the current one is invalid; a nonce for which a better offer is held is
  // taken; anything else is accepted. What is refused changes nothing.
  lemma AddRefuses(q: Queue, tx: Tx)
    ensures var a := Add(q, tx);
            && (a.drop == Some(InvalidNonce) <==> tx.nonce < q.nonce)
            && (a.drop == Some(DuplicatedNonce) <==>
                  || (tx.nonce == q.nonce && q.ready.Some? && tx.gasPrice < q.ready.value.gasPrice)
                  || (tx.nonce > q.nonce && tx.nonce in q.notReady && tx.gasPrice < q.notReady[tx.nonce].gasPrice))
            && (a.drop.Some? ==> a == Added(q, None, None, None, a.drop))
  {
  }

  // What is accepted is kept under its nonce, in the ready slot if it is the current nonce
  // and the balance covers it; nothing is kept elsewhere than before.
  lemma AddKeeps(q: Queue, tx: Tx)
    requires Add(q, tx).drop.None?
    ensures var q' := Add(q, tx).queue;
            && q'.nonce == q.nonce && q'.balance == q.balance
            && (tx.nonce == q.nonce && tx.cost <= q.balance ==> q'.ready == Some(tx) && q'.notReady == q.notReady)
            && (tx.nonce == q.nonce && tx.cost > q.balance ==> q'.ready == None)
            && (tx.nonce != q.nonce ==> q'.ready == q.ready)
            && (tx.nonce != q.nonce || tx.cost > q.balance ==> tx.nonce in q'.notReady && q'.notReady[tx.nonce] == tx)
            && forall n :: n != tx.nonce ==>
                 (n in q'.notReady <==> n in q.notReady) && (n in q.notReady ==> q'.notReady[n] == q.notReady[n])
  {
  }

  // What the caller is told of an accepted transaction: whether it is ready, which one lost
  // the ready slot, and which other one of its nonce was replaced.
  lemma AddAnswers(q: Queue, tx: Tx)
    requires Add(q, tx).drop.None?
    ensures var a := Add(q, tx);
            && a.newReady == (if tx.nonce == q.nonce && tx.cost <= q.balance then Some(tx) else None)
            && (a.prevReady.Some? <==> tx.nonce == q.nonce && q.ready.Some?)
            && (a.prevReady.Some? ==> a.prevReady == q.ready)
            && (a.replaced.Some? <==>
                  || (tx.nonce == q.nonce && q.ready.Some? && q.ready.value.hash != tx.hash)
                  || (tx.nonce > q.nonce && tx.nonce in q.notReady && q.notReady[tx.nonce].hash != tx.hash))
            && (a.replaced.Some? ==>
                  a.replaced.value == if tx.nonce == q.nonce then q.ready.value else q.notReady[tx.nonce])
  {
  }

  /* ---------- the worker's list ---------- */

  // The transaction that an operation says has lost the ready slot.
  function Gone(q: Queue, op: Op): Option<Tx> {
    match op
    case Adds(tx) => Add(q, tx).prevReady
    case Deletes(h) => if q.ready.Some? && q.ready.value.hash == h then q.ready else None
    case Expires(nonces, ready) => if ready then q.ready else None
    case Updates(nonce, balance) => Update(q, nonce, balance).prevReady
  }

  // The transaction that it says is ready now.
  function Come(q: Queue, op: Op): Option<Tx> {
    match op
    case Adds(tx) => Add(q, tx).newReady
    case Updates(nonce, balance) => Update(q, nonce, balance).queue.ready
    case _ => None
  }

  // The list takes out the one and puts in the other.
  function Listed(q: Queue, ops: seq<Op>): set<Tx> {
    if ops == [] then {}
    else
      var before, op := Run(q, ops[..|ops| - 1]), ops[|ops| - 1];
      Listed(q, ops[..|ops| - 1]) - AsSet(Gone(before, op)) + AsSet(Come(before, op))
  }

  lemma StepTellsSlot(q: Queue, op: Op)
    requires Valid(q)
    ensures AsSet(Apply(q, op).ready) == AsSet(q.ready) - AsSet(Gone(q, op)) + AsSet(Come(q, op))
    ensures Gone(q, op).Some? ==> Gone(q, op) == q.ready
  {
  }

  // Over every run from a new queue the worker lists exactly the queue's ready transaction,
  // which carries the current nonce and is covered by the balance.
  lemma {:induction false} ListIsReadySlot(nonce: nat, balance: int, ops: seq<Op>)
    ensures var start := Queue(nonce, balance, None, map[]);
            var q := Run(start, ops);
            && Listed(start, ops) == AsSet(q.ready)
            && forall t :: t in Listed(start, ops) ==> t.nonce == q.nonce && t.cost <= q.balance
  {
    var start := Queue(nonce, balance, None, map[]);
    RunAccounts(nonce, balance, ops);
    if ops != [] {
      var init, op := ops[..|ops| - 1], ops[|ops| - 1];
      ListIsReadySlot(nonce, balance, init);
      RunAccounts(nonce, balance, init);
      StepTellsSlot(Run(start, init), op);
    }
  }
}
