/**
 The sequential pieces of the eth tx manager that the state machine takes as one step:
 the row table with the two queries the manager uses, the loop of `Reorg`, and the loop
 of `monitorTx` over the history.
 */
module EthTxStore {
  import opened Wrappers
  import opened EthTxMachine

  /* ---------- the table ---------- */

  class Storage {
    var rows: map<Key, Row>

    constructor ()
      ensures rows == map[]
    {
      rows := map[];
    }

    // INSERT with the primary key (owner, id).
    method Add(k: Key, r: Row) returns (ok: bool)
      modifies this
      ensures ok <==> k !in old(rows)
      ensures rows == if ok then old(rows)[k := Persist(r)] else old(rows)
    {
      ok := k !in rows;
      if ok {
        rows := rows[k := Persist(r)];
      }
    }

    // UPDATE of the whole row; nothing happens when there is none.
    method Update(k: Key, r: Row)
      modifies this
      ensures rows == if k in old(rows) then old(rows)[k := Persist(r)] else old(rows)
    {
      if k in rows {
        rows := rows[k := Persist(r)];
      }
    }

    // GetByStatus with the statuses of `monitorTxs`.
    method GetPending() returns (found: set<Key>)
      ensures forall k :: k in found <==> k in rows && rows[k].status in {Created, Sent, Reorged}
    {
      found := {};
      var todo := rows.Keys;
      while todo != {}
        invariant todo <= rows.Keys
        invariant found == set k | k in rows && k !in todo && Pending(rows[k].status)
        decreases todo
      {
        var k :| k in todo;
        if Pending(rows[k].status) {
          found := found + {k};
        }
        todo := todo - {k};
      }
    }

    // GetByBlock with an upper bound that is not set.
    method GetFromBlock(fromBlock: nat) returns (found: set<Key>)
      ensures found == Selected(rows, fromBlock)
    {
      found := {};
      var todo := rows.Keys;
      while todo != {}
        invariant todo <= rows.Keys
        invariant found == set k | k in Selected(rows, fromBlock) && k !in todo
        decreases todo
      {
        var k :| k in todo;
        if rows[k].blockNumber.Some? && rows[k].blockNumber.value >= fromBlock {
          found := found + {k};
        }
        todo := todo - {k};
      }
    }

    // The loop of `Reorg`. It leaves exactly the rows of a rollback step.
    method Reorg(fromBlock: nat)
      modifies this
      ensures rows == map k | k in old(rows) :: ReorgRow(old(rows)[k], fromBlock)
    {
      var todo := GetFromBlock(fromBlock);
      ghost var before := rows;
      while todo != {}
        invariant todo <= Selected(before, fromBlock)
        invariant rows.Keys == before.Keys
        invariant forall k :: k in before ==>
          rows[k] == if k in todo then before[k] else ReorgRow(before[k], fromBlock)
        decreases todo
      {
        var k :| k in todo;
        Update(k, rows[k].(blockNumber := None, status := Reorged));
        todo := todo - {k};
      }
    }
  }

  function Selected(rows: map<Key, Row>, fromBlock: nat): set<Key> {
    set k | k in rows && rows[k].blockNumber.Some? && rows[k].blockNumber.value >= fromBlock
  }

  // Reorging twice from the same block changes nothing more, and a reorg from an earlier
  // block subsumes one from a later block.
  lemma ReorgSubsumes(r: Row, a: nat, b: nat)
    requires a <= b
    ensures ReorgRow(ReorgRow(r, b), a) == ReorgRow(r, a)
  {
  }

  /* ---------- the history loop of monitorTx ---------- */

  // What `CheckTxWasMined` says about one hash.
  datatype Answer = Miss | NotMined | Found(receipt: Mined)

  // What the flags say about the hashes looked up so far.
  ghost predicate Tally(seen: set<SignedTx>, answers: map<SignedTx, Answer>, hasFailed: bool, allMined: bool) {
    && seen <= answers.Keys
    && (forall t :: t in seen ==> !(answers[t].Found? && answers[t].receipt.success))
    && (hasFailed <==> exists t :: t in seen && answers[t].Found?)
    && (allMined <==> forall t :: t in seen ==> !answers[t].NotMined?)
  }

  method ScanHistory(history: set<SignedTx>, answers: map<SignedTx, Answer>)
    returns (confirmed: bool, hasFailed: bool, allMined: bool, last: Option<Mined>)
    requires history <= answers.Keys
    ensures confirmed ==>
      && last.Some? && last.value.success
      && exists t :: t in history && answers[t] == Found(last.value)
    ensures !confirmed ==> Tally(history, answers, hasFailed, allMined)
  {
    confirmed, hasFailed, allMined, last := false, false, true, None;
    var todo := history;
    while todo != {}
      invariant todo <= history && !confirmed
      invariant Tally(history - todo, answers, hasFailed, allMined)
      decreases todo
    {
      var t :| t in todo;
      ghost var seen := history - todo;
      todo := todo - {t};
      assert history - todo == seen + {t};
      match answers[t] {
        case Miss =>
        case NotMined => allMined := false;
        case Found(receipt) =>
          last := Some(receipt);
          if receipt.success {
            confirmed := true;
            return;
          }
          hasFailed := true;
      }
    }
    assert history - todo == history;
  }

  function AnswerOf(c: Chain, tx: SignedTx, answered: bool): Answer {
    if !answered then Miss
    else if IsMined(c, tx) then Found(Receipt(c, tx))
    else NotMined
  }

  // The lookup steps of the state machine keep the same tally as the loop, whatever the
  // chain does between two of them.
  lemma LookupsTally(e: Env, m: Monitor, p: Pass, a: Action, m': Monitor, answers: map<SignedTx, Answer>)
    requires m.pass == Some(p) && p.pc.Scanning? && p.pc.todo <= p.mtx.history && a.Lookup?
    requires Tally(p.mtx.history - p.pc.todo, answers, p.pc.hasFailed, p.pc.allMined)
    requires LookupStep(e, m, p, a.tx, a.answered) == Some(m')
    ensures var q := m'.pass.value;
            var answers' := answers[a.tx := AnswerOf(e.chain, a.tx, a.answered)];
            if q.pc.Scanning?
            then q.mtx == p.mtx && q.pc.todo == p.pc.todo - {a.tx}
                 && Tally(q.mtx.history - q.pc.todo, answers', q.pc.hasFailed, q.pc.allMined)
            else q.pc.Finalizing? && q.pc.receipt.success && answers'[a.tx] == Found(q.pc.receipt)
  {
    var seen := p.mtx.history - p.pc.todo;
    assert p.mtx.history - (p.pc.todo - {a.tx}) == seen + {a.tx};
    var answers' := answers[a.tx := AnswerOf(e.chain, a.tx, a.answered)];
    assert forall t :: t in seen ==> answers'[t] == answers[t];
    if p.pc.hasFailed {
      var t :| t in seen && answers[t].Found?;
      assert answers'[t].Found?;
    }
  }
}
