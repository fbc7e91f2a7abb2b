/**
 What the eth tx manager gets done: from a given state the named steps are possible and
 lead to the stated row. All numbers and statuses are written out.
 */
module EthTxProgress {
  import opened Wrappers
  import opened EthTxMachine
  import opened EthTxResend
  import opened EthTxOnce

  ghost predicate NoPasses(s: State) {
    forall k :: k in s.monitors ==> s.monitors[k].pass.None?
  }

  /* ---------- starting passes ---------- */

  // A cycle starts when no pass is running, and starts a pass on exactly the rows that are
  // created, sent or reorged, with a copy of the row and its whole history to look up.
  lemma CycleStarts(s: State)
    ensures Step(s, Cycle).Some? <==> NoPasses(s)
    ensures Step(s, Cycle).Some? ==>
              var s' := Step(s, Cycle).value;
              && s'.env == s.env && s'.monitors.Keys == s.monitors.Keys
              && forall k :: k in s.monitors ==>
                   var m, m' := s.monitors[k], s'.monitors[k];
                   && (m'.pass.Some? <==> m.row.status in {Created, Sent, Reorged})
                   && (m'.pass.Some? ==> m'.pass.value == Pass(m.row, m.row, Scanning(m.row.history, false, true)))
                   && m'.row == m.row && m'.sent == m.sent && m'.owner == m.owner && m'.seen == m.seen
  {
  }

  lemma StartPass(ss: seq<State>, ls: seq<Label>, k: Key) returns (ss': seq<State>, ls': seq<Label>)
    requires IsRun(ss, ls) && k in ss[|ls|].monitors && NoPasses(ss[|ls|])
    requires ss[|ls|].monitors[k].row.status in {Created, Sent, Reorged}
    ensures IsRun(ss', ls') && ls' == ls + [Cycle] && k in ss'[|ls'|].monitors && ss'[|ls'|].env == ss[|ls|].env
    ensures var m := ss[|ls|].monitors[k];
            ss'[|ls'|].monitors[k] == m.(pass := Some(Pass(m.row, m.row, Scanning(m.row.history, false, true))))
  {
    var s := ss[|ls|];
    CycleStarts(s);
    ss', ls' := Extend(ss, ls, Cycle, Step(s, Cycle).value);
  }

  /* ---------- confirming ---------- */

  // A created, sent or reorged row with a transaction that has succeeded in a synchronized
  // block is confirmed at that block by the next pass.
  lemma PendingIsConfirmed(ss: seq<State>, ls: seq<Label>, k: Key, t: SignedTx) returns (ss': seq<State>, ls': seq<Label>)
    requires IsRun(ss, ls) && k in ss[|ls|].monitors && NoPasses(ss[|ls|])
    requires var s, r := ss[|ls|], ss[|ls|].monitors[k].row;
             && r.status in {Created, Sent, Reorged} && t in r.history
             && Succeeded(s.env.chain, t) && Receipt(s.env.chain, t).block <= s.env.synced
    ensures IsRun(ss', ls') && k in ss'[|ls'|].monitors && ss'[|ls'|].env == ss[|ls|].env
    ensures ls' == ls + [Cycle] + [Local(k, Lookup(t, true))] + [Local(k, Settle(false))] + [Local(k, Write)]
    ensures var r, r' := ss[|ls|].monitors[k].row, ss'[|ls'|].monitors[k].row;
            && r'.status == Confirmed && r'.blockNumber == Some(Receipt(ss[|ls|].env.chain, t).block)
            && r'.history == r.history && r'.nonce == r.nonce && ss'[|ls'|].monitors[k].pass.None?
  {
    var s, r, c := ss[|ls|], ss[|ls|].monitors[k].row, ss[|ls|].env.chain;
    var m := s.monitors[k];
    ss', ls' := StartPass(ss, ls, k);
    ss', ls' := ActOn(ss', ls', k, Lookup(t, true), m.(pass := Some(Pass(r, r, Finalizing(Receipt(c, t))))));
    ss', ls' := SettleAndWrite(ss', ls', k, Pass(r, r, Finalizing(Receipt(c, t))), false);
  }

  // What becomes of a receipt: a success in a synchronized block confirms the row, a success
  // above it waits, a failure fails the row unless the revert is one to go on with.
  lemma SettleAndWrite(ss: seq<State>, ls: seq<Label>, k: Key, p: Pass, goOn: bool) returns (ss': seq<State>, ls': seq<Label>)
    requires IsRun(ss, ls) && k in ss[|ls|].monitors && ss[|ls|].monitors[k].pass == Some(p) && p.pc.Finalizing?
    ensures IsRun(ss', ls') && k in ss'[|ls'|].monitors && ss'[|ls'|].env == ss[|ls|].env
    ensures ss'[|ls'|].monitors[k].pass.None? && ss'[|ls'|].monitors[k].sent == ss[|ls|].monitors[k].sent
    ensures var stored := if p.pc.receipt.success then p.pc.receipt.block <= ss[|ls|].env.synced else !goOn;
            var m, r := ss[|ls|].monitors[k], ss'[|ls'|].monitors[k].row;
            && ls' == ls + [Local(k, Settle(goOn))] + (if stored then [Local(k, Write)] else [])
            && (stored ==>
                  && r.status == (if p.pc.receipt.success then Confirmed else Failed)
                  && r.blockNumber == Some(p.pc.receipt.block)
                  && r.history == p.mtx.history && r.nonce == p.mtx.nonce)
            && (!stored ==> r == m.row)
  {
    var m, rc := ss[|ls|].monitors[k], p.pc.receipt;
    if (rc.success && rc.block > ss[|ls|].env.synced) || (!rc.success && goOn) {
      ss', ls' := ActOn(ss, ls, k, Settle(goOn), m.(pass := None));
      assert [Local(k, Settle(goOn))] + [] == [Local(k, Settle(goOn))];
    } else {
      var r := p.mtx.(status := if rc.success then Confirmed else Failed, blockNumber := Some(rc.block));
      var m1 := m.(pass := Some(Pass(r, p.base, FinalWrite)));
      ss', ls' := ActOn(ss, ls, k, Settle(goOn), m1);
      ss', ls' := ActOn(ss', ls', k, Write, m1.(row := Persist(r), pass := None));
    }
  }

  // A pass that waits for a transaction that gets mined goes on with its receipt.
  lemma MinedIsFetched(ss: seq<State>, ls: seq<Label>, k: Key, p: Pass) returns (ss': seq<State>, ls': seq<Label>)
    requires IsRun(ss, ls) && k in ss[|ls|].monitors && ss[|ls|].monitors[k].pass == Some(p) && p.pc.Waiting?
    requires IsMined(ss[|ls|].env.chain, p.pc.tx)
    ensures IsRun(ss', ls') && ls' == ls + [Local(k, Wait)] + [Local(k, FetchReceipt)]
    ensures k in ss'[|ls'|].monitors && ss'[|ls'|].env == ss[|ls|].env
    ensures ss'[|ls'|].monitors[k] ==
            ss[|ls|].monitors[k].(pass := Some(Pass(p.mtx, p.base, Finalizing(Receipt(ss[|ls|].env.chain, p.pc.tx)))))
  {
    var m := ss[|ls|].monitors[k];
    var q := Pass(p.mtx, p.base, Fetching(p.pc.tx));
    ss', ls' := ActOn(ss, ls, k, Wait, m.(pass := Some(q)));
    ss', ls' := ActOn(ss', ls', k, FetchReceipt, m.(pass := Some(q.(pc := Finalizing(Receipt(ss[|ls|].env.chain, p.pc.tx))))));
  }

  // A signed transaction that the network knows is not sent again; once it has succeeded in a
  // synchronized block the pass confirms the row there.
  lemma KnownIsConfirmed(ss: seq<State>, ls: seq<Label>, k: Key, p: Pass) returns (ss': seq<State>, ls': seq<Label>)
    requires IsRun(ss, ls) && k in ss[|ls|].monitors && ss[|ls|].monitors[k].pass == Some(p) && p.pc.Checking?
    requires var s := ss[|ls|];
             Succeeded(s.env.chain, p.pc.tx) && Receipt(s.env.chain, p.pc.tx).block <= s.env.synced
    ensures IsRun(ss', ls') && k in ss'[|ls'|].monitors && ss'[|ls'|].env == ss[|ls|].env
    ensures ls' == ls + [Local(k, GetTx(false))] + [Local(k, Wait)] + [Local(k, FetchReceipt)]
                   + [Local(k, Settle(false))] + [Local(k, Write)]
    ensures var m, m' := ss[|ls|].monitors[k], ss'[|ls'|].monitors[k];
            && m'.row.status == Confirmed && m'.row.blockNumber == Some(Receipt(ss[|ls|].env.chain, p.pc.tx).block)
            && m'.row.history == p.mtx.history && m'.sent == m.sent
  {
    var m, q := ss[|ls|].monitors[k], Pass(p.mtx, p.base, Waiting(p.pc.tx));
    ss', ls' := ActOn(ss, ls, k, GetTx(false), m.(pass := Some(q)));
    ss', ls' := MinedIsFetched(ss', ls', k, q);
    ss', ls' := SettleAndWrite(ss', ls', k, ss'[|ls'|].monitors[k].pass.value, false);
  }

  // One of a sent row that the network does not know is sent again, and nothing is stored.
  lemma UnknownIsResent(ss: seq<State>, ls: seq<Label>, k: Key, p: Pass) returns (ss': seq<State>, ls': seq<Label>)
    requires IsRun(ss, ls) && k in ss[|ls|].monitors && ss[|ls|].monitors[k].pass == Some(p)
    requires p.pc.Checking? && p.mtx.status == Sent
    ensures IsRun(ss', ls') && ls' == ls + [Local(k, GetTx(true))] + [Local(k, Send(true))] && k in ss'[|ls'|].monitors
    ensures var m := ss[|ls|].monitors[k];
            ss'[|ls'|].monitors[k] ==
            m.(sent := m.sent + [p.pc.tx], pass := Some(Pass(p.mtx, p.base, Waiting(p.pc.tx))))
  {
    var m := ss[|ls|].monitors[k];
    ss', ls' := ActOn(ss, ls, k, GetTx(true), m.(pass := Some(Pass(p.mtx, p.base, Sending(p.pc.tx)))));
    ss', ls' := ActOn(ss', ls', k, Send(true),
                      m.(sent := m.sent + [p.pc.tx], pass := Some(Pass(p.mtx, p.base, Waiting(p.pc.tx)))));
  }

  /* ---------- the first send ---------- */

  // What is added is signed, stored, sent and marked as sent, with the nonce, the gas and the
  // gas price that were read for it.
  lemma AddedIsSent(ss: seq<State>, ls: seq<Label>, k: Key, q: Request, nonce: nat, gas: nat, gasPrice: nat)
    returns (ss': seq<State>, ls': seq<Label>)
    requires IsRun(ss, ls) && k !in ss[|ls|].monitors && NoPasses(ss[|ls|]) && gas < U64 && q.gasOffset < U64
    ensures IsRun(ss', ls') && k in ss'[|ls'|].monitors
    ensures ls' == ls + [Add(k, q, nonce, gas, gasPrice)] + [Cycle] + [Local(k, EndScan)] + [Local(k, Sign)] + [Local(k, Write)]
                   + [Local(k, GetTx(true))] + [Local(k, Send(true))] + [Local(k, Write)]
    ensures var value := if q.value.Some? then Some(q.value.value % 0x1_0000_0000_0000_0000) else None;
            var t := SignedTx(q.from, q.to, nonce, value, q.data, (gas + q.gasOffset) % 0x1_0000_0000_0000_0000,
                              gasPrice % 0x1_0000_0000_0000_0000);
            var m := ss'[|ls'|].monitors[k];
            m.sent == [t] && m.row.status == Sent && m.row.history == {t} && m.row.blockNumber.None?
  {
    var s := ss[|ls|];
    var r := Persist(NewRow(q, nonce, gas, gasPrice));
    var m := Monitor(q, r, None, None, false, []);
    ss', ls' := Extend(ss, ls, Add(k, q, nonce, gas, gasPrice), s.(monitors := s.monitors[k := m]));
    ss', ls' := StartPass(ss', ls', k);
    ss', ls' := ActOn(ss', ls', k, EndScan, m.(pass := Some(Pass(r, r, Ready))));
    ss', ls' := SignAhead(ss', ls', k, Pass(r, r, Ready));
    ss', ls' := SendAndMark(ss', ls', k, ss'[|ls'|].monitors[k].pass.value);
    assert {} + {Build(r)} == {Build(r)};
  }

  lemma SendAndMark(ss: seq<State>, ls: seq<Label>, k: Key, p: Pass) returns (ss': seq<State>, ls': seq<Label>)
    requires IsRun(ss, ls) && k in ss[|ls|].monitors && ss[|ls|].monitors[k].pass == Some(p)
    requires p.pc.Checking? && p.mtx.status == Created
    ensures IsRun(ss', ls') && k in ss'[|ls'|].monitors
    ensures ls' == ls + [Local(k, GetTx(true))] + [Local(k, Send(true))] + [Local(k, Write)]
    ensures var m, m' := ss[|ls|].monitors[k], ss'[|ls'|].monitors[k];
            && m'.sent == m.sent + [p.pc.tx] && m'.row.status == Sent
            && m'.row.history == p.mtx.history && m'.row.blockNumber == p.mtx.blockNumber
  {
    var m := ss[|ls|].monitors[k].(pass := Some(Pass(p.mtx, p.base, Sending(p.pc.tx))));
    ss', ls' := ActOn(ss, ls, k, GetTx(true), m);
    var r := p.mtx.(status := Sent);
    m := m.(sent := m.sent + [p.pc.tx], pass := Some(Pass(r, p.base, SentWrite(p.pc.tx))));
    ss', ls' := ActOn(ss', ls', k, Send(true), m);
    ss', ls' := ActOn(ss', ls', k, Write, m.(row := Persist(r), pass := Some(Pass(r, Persist(r), Waiting(p.pc.tx)))));
  }

  /* ---------- reviews ---------- */

  function Max(a: nat, b: nat): nat {
    if a > b then a else b
  }

  // A review raises the gas to the estimate and the gas price to the suggested one, never
  // lowers them, stores both and signs with them.
  lemma ReviewIsSigned(ss: seq<State>, ls: seq<Label>, k: Key, p: Pass, estimate: nat, price: nat)
    returns (ss': seq<State>, ls': seq<Label>, t: SignedTx)
    requires IsRun(ss, ls) && k in ss[|ls|].monitors && ss[|ls|].monitors[k].pass == Some(p)
    requires p.pc.Ready? && p.mtx.status == Sent && estimate < U64
    ensures IsRun(ss', ls') && k in ss'[|ls'|].monitors
    ensures ls' == ls + [Local(k, Review(estimate, price))] + [Local(k, Write)] + [Local(k, Sign)]
    ensures var m := ss'[|ls'|].monitors[k];
            && m.row.gas == Max(p.mtx.gas, estimate)
            && m.row.gasPrice == Max(p.mtx.gasPrice, price) % 0x1_0000_0000_0000_0000
            && m.pass.Some? && t in m.pass.value.mtx.history && t.nonce == p.mtx.nonce
            && t.gas == (Max(p.mtx.gas, estimate) + p.mtx.gasOffset) % 0x1_0000_0000_0000_0000
            && t.gasPrice == Max(p.mtx.gasPrice, price)
            && m.pass.value.mtx.history == p.mtx.history + {t}
            && m.pass.value.pc == if t in p.mtx.history then Checking(t) else HistoryWrite(t)
  {
    var m := ss[|ls|].monitors[k];
    var r := p.mtx.(gas := Max(p.mtx.gas, estimate), gasPrice := Max(p.mtx.gasPrice, price));
    t := Build(r);
    m := m.(pass := Some(Pass(r, p.base, ReviewWrite)));
    ss', ls' := ActOn(ss, ls, k, Review(estimate, price), m);
    m := m.(row := Persist(r), pass := Some(Pass(r, Persist(r), Signing)));
    ss', ls' := ActOn(ss', ls', k, Write, m);
    var r1 := r.(history := r.history + {t});
    assert t in r.history ==> r1 == r;
    m := m.(pass := Some(Pass(r1, Persist(r), if t in r.history then Checking(t) else HistoryWrite(t))));
    ss', ls' := ActOn(ss', ls', k, Sign, m);
  }

  // Looking up a history of which every transaction has failed.
  lemma {:induction false} ScanFailed(ss: seq<State>, ls: seq<Label>, k: Key, p: Pass)
    returns (ss': seq<State>, ls': seq<Label>)
    requires IsRun(ss, ls) && k in ss[|ls|].monitors && ss[|ls|].monitors[k].pass == Some(p)
    requires p.pc.Scanning? && p.pc.allMined && (p.pc.hasFailed || p.pc.todo != {})
    requires forall t :: t in p.pc.todo ==> MinedFailed(ss[|ls|].env.chain, t)
    ensures IsRun(ss', ls') && ls <= ls' && k in ss'[|ls'|].monitors && ss'[|ls'|].env == ss[|ls|].env
    ensures ss'[|ls'|].monitors[k] == ss[|ls|].monitors[k].(pass := Some(Pass(p.mtx, p.base, NonceRead)))
    decreases if p.pc.Scanning? then p.pc.todo else {}
  {
    var m := ss[|ls|].monitors[k];
    if p.pc.todo == {} {
      ss', ls' := ActOn(ss, ls, k, EndScan, m.(pass := Some(Pass(p.mtx, p.base, NonceRead))));
    } else {
      var t :| t in p.pc.todo;
      var q := Pass(p.mtx, p.base, p.pc.(todo := p.pc.todo - {t}, hasFailed := true));
      ss', ls' := ActOn(ss, ls, k, Lookup(t, true), m.(pass := Some(q)));
      ss', ls' := ScanFailed(ss', ls', k, q);
    }
  }

  // A created or sent row of which every transaction has failed is sent again with the next
  // nonce of its sender.
  lemma FailedIsSentAgain(ss: seq<State>, ls: seq<Label>, k: Key) returns (ss': seq<State>, ls': seq<Label>, u: SignedTx)
    requires IsRun(ss, ls) && k in ss[|ls|].monitors && NoPasses(ss[|ls|])
    requires var s, r := ss[|ls|], ss[|ls|].monitors[k].row;
             && r.status in {Created, Sent} && r.history != {} && r.nonce < |Txs(s.env.chain, r.from)|
             && forall t :: t in r.history ==> MinedFailed(s.env.chain, t)
    ensures IsRun(ss', ls') && ls <= ls' && k in ss'[|ls'|].monitors && ss'[|ls'|].env == ss[|ls|].env
    ensures var m, m' := ss[|ls|].monitors[k], ss'[|ls'|].monitors[k];
            && m'.sent == m.sent + [u] && u.from == m.row.from && u.nonce == m'.row.nonce == |Txs(ss[|ls|].env.chain, m.row.from)|
            && m'.row.history == m.row.history + {u} && u !in m.row.history && m'.row.status == m.row.status
  {
    var s, r := ss[|ls|], ss[|ls|].monitors[k].row;
    RunIsAhead(ss, ls, |ls|);
    assert Ahead(s.monitors[k]) && RowAhead(s.monitors[k].request, r);
    ss', ls' := StartPass(ss, ls, k);
    ss', ls' := ScanFailed(ss', ls', k, ss'[|ls'|].monitors[k].pass.value);
    ss', ls' := RaiseNonce(ss', ls', k, ss'[|ls'|].monitors[k].pass.value, |Txs(s.env.chain, r.from)|);
    var q;
    ss', ls', q := GetReady(ss', ls', k, ss'[|ls'|].monitors[k].pass.value);
    u := Build(q.mtx);
    ss', ls' := SignAhead(ss', ls', k, q);
    ss', ls' := HandOver(ss', ls', k, ss'[|ls'|].monitors[k].pass.value);
  }

  /* ---------- every open row can be confirmed ---------- */

  // No pass is running after a crash, and the rows stay.
  lemma AfterCrash(ss: seq<State>, ls: seq<Label>) returns (ss': seq<State>, ls': seq<Label>)
    requires IsRun(ss, ls)
    ensures IsRun(ss', ls') && ls' == ls + [Crash] && NoPasses(ss'[|ls'|]) && ss'[|ls'|].env == ss[|ls|].env
    ensures forall k :: k in ss[|ls|].monitors ==>
              k in ss'[|ls'|].monitors && ss'[|ls'|].monitors[k].row == ss[|ls|].monitors[k].row
  {
    ss', ls' := Extend(ss, ls, Crash, Step(ss[|ls|], Crash).value);
  }

  // A transaction of the row whose nonce is not used up can still be mined and confirm it.
  lemma HistoryCanBeConfirmed(ss: seq<State>, ls: seq<Label>, k: Key, t: SignedTx)
    returns (ss': seq<State>, ls': seq<Label>)
    requires IsRun(ss, ls) && k in ss[|ls|].monitors
    requires var r := ss[|ls|].monitors[k].row;
             r.status in {Created, Sent, Reorged} && t in r.history
    requires |Txs(ss[|ls|].env.chain, t.from)| <= t.nonce
    ensures IsRun(ss', ls') && ls <= ls' && k in ss'[|ls'|].monitors
    ensures ss'[|ls'|].monitors[k].row.status == Confirmed && Succeeded(ss'[|ls'|].env.chain, t)
    ensures ss'[|ls'|].monitors[k].row.history == ss[|ls|].monitors[k].row.history
  {
    ss', ls' := LandAt(ss, ls, t);
    ss', ls' := AfterCrash(ss', ls');
    ss', ls' := PendingIsConfirmed(ss', ls', k, t);
  }

  // A row that can be signed is confirmed in some continuation when its nonce is not used up.
  lemma RowCanBeConfirmed(ss: seq<State>, ls: seq<Label>, k: Key)
    returns (ss': seq<State>, ls': seq<Label>, t: SignedTx)
    requires IsRun(ss, ls) && k in ss[|ls|].monitors
    requires var r := ss[|ls|].monitors[k].row;
             r.status in {Created, Sent} && |Txs(ss[|ls|].env.chain, r.from)| <= r.nonce
    ensures IsRun(ss', ls') && ls <= ls' && k in ss'[|ls'|].monitors
    ensures ss'[|ls'|].monitors[k].row.status == Confirmed && Succeeded(ss'[|ls'|].env.chain, t)
    ensures var r := ss[|ls|].monitors[k].row;
            t.from == r.from && t.nonce == r.nonce && ss'[|ls'|].monitors[k].row.history == r.history + {t}
  {
    var r := ss[|ls|].monitors[k].row;
    t := Build(r);
    ss', ls' := ss, ls;
    if t !in r.history {
      ss', ls' := SignStored(ss, ls, k);
    }
    ss', ls' := HistoryCanBeConfirmed(ss', ls', k, t);
    assert t in r.history ==> r.history + {t} == r.history;
  }

  // So is one of which every transaction has failed.
  lemma FailedCanBeConfirmed(ss: seq<State>, ls: seq<Label>, k: Key)
    returns (ss': seq<State>, ls': seq<Label>, t: SignedTx)
    requires IsRun(ss, ls) && k in ss[|ls|].monitors
    requires var s, r := ss[|ls|], ss[|ls|].monitors[k].row;
             && r.status in {Created, Sent} && r.history != {}
             && forall t :: t in r.history ==> MinedFailed(s.env.chain, t)
    ensures IsRun(ss', ls') && ls <= ls' && k in ss'[|ls'|].monitors
    ensures ss'[|ls'|].monitors[k].row.status == Confirmed && Succeeded(ss'[|ls'|].env.chain, t)
    ensures var r := ss[|ls|].monitors[k].row;
            t !in r.history && ss'[|ls'|].monitors[k].row.history == r.history + {t}
  {
    var c, r := ss[|ls|].env.chain, ss[|ls|].monitors[k].row;
    RunIsAhead(ss, ls, |ls|);
    assert Ahead(ss[|ls|].monitors[k]) && RowAhead(ss[|ls|].monitors[k].request, r);
    if |Txs(c, r.from)| <= r.nonce {
      ss', ls', t := RowCanBeConfirmed(ss, ls, k);
      assert t in r.history ==> MinedFailed(c, t);
    } else {
      ss', ls' := AfterCrash(ss, ls);
      ss', ls', t := FailedIsSentAgain(ss', ls', k);
      ss', ls' := HistoryCanBeConfirmed(ss', ls', k, t);
    }
  }

  /* ---------- L1, rollbacks and the owner ---------- */

  // A reorganisation of L1 takes transactions away and changes none; what lies below its
  // block stays.
  lemma DropOnlyTakesAway(s: State, d: Chain, b: nat, s': State, t: SignedTx)
    requires Step(s, Unmine(d, b)) == Some(s')
    ensures s' == s.(env := s.env.(chain := d))
    ensures IsMined(d, t) ==> IsMined(s.env.chain, t) && Receipt(d, t) == Receipt(s.env.chain, t)
    ensures IsMined(s.env.chain, t) && Receipt(s.env.chain, t).block < b ==> IsMined(d, t)
  {
  }

  // A rollback takes back exactly the rows above the block it cuts to.
  lemma RollbackTakesBack(s: State, b: nat, s': State, k: Key)
    requires Step(s, Rollback(b)) == Some(s') && k in s.monitors
    ensures k in s'.monitors && s'.env == s.env.(synced := b)
    ensures var r, r' := s.monitors[k].row, s'.monitors[k].row;
            && s'.monitors[k] == s.monitors[k].(row := r')
            && (if r.blockNumber.Some? && r.blockNumber.value > b
                then r'.status == Reorged && r'.blockNumber.None? && r'.history == r.history && r'.nonce == r.nonce
                     && r'.gas == r.gas && r'.from == r.from && r'.to == r.to && r'.data == r.data
                else r' == r)
  {
  }

  // A confirmed row that its owner sees, reads and writes is done in the same block.
  lemma OwnerFinishes(ss: seq<State>, ls: seq<Label>, k: Key) returns (ss': seq<State>, ls': seq<Label>)
    requires IsRun(ss, ls) && k in ss[|ls|].monitors && ss[|ls|].monitors[k].row.status == Confirmed
    ensures IsRun(ss', ls') && k in ss'[|ls'|].monitors
    ensures ls' == ls + [Local(k, OwnerSees)] + [Local(k, OwnerReads)] + [Local(k, OwnerWrites)]
    ensures var r, r' := ss[|ls|].monitors[k].row, ss'[|ls'|].monitors[k].row;
            r'.status == Done && r'.blockNumber == r.blockNumber && r'.history == r.history
  {
    var m := ss[|ls|].monitors[k].(seen := true);
    ss', ls' := ActOn(ss, ls, k, OwnerSees, m);
    ss', ls' := ActOn(ss', ls', k, OwnerReads, m.(owner := Some(m.row)));
    ss', ls' := ActOn(ss', ls', k, OwnerWrites, m.(row := Persist(m.row.(status := Done)), owner := None));
  }
}
