/**
 Runs that show why the hypotheses of the eth tx manager theorems are there: one failed
 receipt lookup is enough for two landings, a gas price beyond 64 bits is followed by a
 lower one, races around `Reorg` break the link between status, block number and
 synchronized head, and so does a receipt that L1 drops while a pass has it in hand.
 */
module EthTxRaces {
  import opened Wrappers
  import opened EthTxMachine
  import EthTxOnce
  import EthTxClimb
  import EthTxReorg

  const K: Key := ("sequencer", "tx-1")
  const Q: Request := Request(7, Some(8), None, [], 0)
  const R0: Row := NewRow(Q, 0, 21000, 1)

  predicate Unanswered(l: Label) {
    l.Local? && l.action.Lookup? && !l.action.answered
  }

  // How many receipt lookups of a run failed.
  function Misses(ls: seq<Label>): nat {
    if ls == [] then 0
    else Misses(ls[..|ls| - 1]) + if Unanswered(ls[|ls| - 1]) then 1 else 0
  }

  lemma MissesTwo(ls: seq<Label>, a: Label, b: Label)
    requires !Unanswered(a) && !Unanswered(b)
    ensures Misses(ls + [a] + [b]) == Misses(ls)
  {
    assert (ls + [a] + [b])[..|ls| + 1] == ls + [a] && (ls + [a])[..|ls|] == ls;
  }

  // A run that ends with a single row `K` in monitor state `m`.
  ghost predicate At(ss: seq<State>, ls: seq<Label>, e: Env, m: Monitor) {
    IsRun(ss, ls) && ss[|ls|] == State(e, map[K := m])
  }

  lemma Grow(ss: seq<State>, ls: seq<Label>, l: Label, s': State)
    returns (ss': seq<State>, ls': seq<Label>)
    requires IsRun(ss, ls) && Step(ss[|ls|], l) == Some(s')
    ensures IsRun(ss', ls') && ss'[|ls'|] == s'
    ensures Misses(ls') == Misses(ls) + if Unanswered(l) then 1 else 0
  {
    ss', ls' := EthTxOnce.Extend(ss, ls, l, s');
    assert ls'[..|ls|] == ls;
  }

  lemma Act(ss: seq<State>, ls: seq<Label>, e: Env, m: Monitor, a: Action, m': Monitor)
    returns (ss': seq<State>, ls': seq<Label>)
    requires At(ss, ls, e, m) && LocalStep(e, m, a) == Some(m')
    ensures At(ss', ls', e, m')
    ensures Misses(ls') == Misses(ls) + if a.Lookup? && !a.answered then 1 else 0
  {
    assert map[K := m][K := m'] == map[K := m'];
    ss', ls' := Grow(ss, ls, Local(K, a), State(e, map[K := m']));
  }

  // Only the sender of `Q` has mined transactions: `mined`, in nonce order.
  function Chain7(mined: seq<Mined>): Chain {
    map[7 := mined]
  }

  lemma MineOne(ss: seq<State>, ls: seq<Label>, mined: seq<Mined>, synced: nat, m: Monitor, next: Mined)
    returns (ss': seq<State>, ls': seq<Label>)
    requires At(ss, ls, Env(Chain7(mined), synced), m) && next.tx.from == 7 && next.tx.nonce == |mined|
    ensures At(ss', ls', Env(Chain7(mined + [next]), synced), m) && Misses(ls') == Misses(ls)
  {
    assert MineTx(Chain7(mined), next.tx, next.success, next.block) == Chain7(mined + [next]);
    ss', ls' := Grow(ss, ls, Mine(next.tx, next.success, next.block),
                     State(Env(Chain7(mined + [next]), synced), map[K := m]));
  }

  lemma StartPass(ss: seq<State>, ls: seq<Label>, e: Env, m: Monitor)
    returns (ss': seq<State>, ls': seq<Label>)
    requires At(ss, ls, e, m) && m.pass.None?
    ensures At(ss', ls', e, Begin(m)) && Misses(ls') == Misses(ls)
  {
    var s' := State(e, map[K := Begin(m)]);
    var ms := map[K := m];
    assert (map k | k in ms :: Begin(ms[k])) == s'.monitors;
    ss', ls' := Grow(ss, ls, Cycle, s');
  }

  // A pass that is ready to sign writes the signed transaction ahead.
  lemma WriteAhead(ss: seq<State>, ls: seq<Label>, e: Env, m: Monitor, r: Row, b: Row)
    returns (ss': seq<State>, ls': seq<Label>)
    requires At(ss, ls, e, m) && m.pass == Some(Pass(r, b, Ready))
    requires r.status == Created && Persist(r) == r && Build(r) !in r.history
    ensures var r1 := r.(history := r.history + {Build(r)});
            At(ss', ls', e, m.(row := r1, pass := Some(Pass(r1, r1, Checking(Build(r))))))
    ensures Misses(ls') == Misses(ls)
  {
    ss', ls' := EthTxOnce.SignAhead(ss, ls, K, Pass(r, b, Ready));
    MissesTwo(ls, Local(K, Sign), Local(K, Write));
  }

  // A signed transaction goes to the network; the pass then fails before the row is marked
  // as sent.
  lemma SendUnmarked(ss: seq<State>, ls: seq<Label>, e: Env, m: Monitor, r: Row, t: SignedTx)
    returns (ss': seq<State>, ls': seq<Label>)
    requires At(ss, ls, e, m) && m.pass == Some(Pass(r, r, Checking(t)))
    ensures At(ss', ls', e, m.(pass := None, sent := m.sent + [t])) && Misses(ls') == Misses(ls)
  {
    ss', ls' := EthTxOnce.HandOver(ss, ls, K, Pass(r, r, Checking(t)));
    MissesTwo(ls, Local(K, GetTx(true)), Local(K, Send(false)));
  }

  lemma SendFromReady(ss: seq<State>, ls: seq<Label>, e: Env, m: Monitor, r: Row, b: Row)
    returns (ss': seq<State>, ls': seq<Label>)
    requires At(ss, ls, e, m) && m.pass == Some(Pass(r, b, Ready))
    requires r.status == Created && Persist(r) == r && Build(r) !in r.history
    ensures At(ss', ls', e, m.(row := r.(history := r.history + {Build(r)}), pass := None,
                               sent := m.sent + [Build(r)]))
    ensures Misses(ls') == Misses(ls)
  {
    var r1 := r.(history := r.history + {Build(r)});
    ss', ls' := WriteAhead(ss, ls, e, m, r, b);
    ss', ls' := SendUnmarked(ss', ls', e, m.(row := r1, pass := Some(Pass(r1, r1, Checking(Build(r))))), r1, Build(r));
  }

  // Everything looked up, everything failed or unanswered: the nonce is read and stored.
  lemma Bump(ss: seq<State>, ls: seq<Label>, e: Env, m: Monitor, r: Row)
    returns (ss': seq<State>, ls': seq<Label>)
    requires At(ss, ls, e, m) && m.row == r && Persist(r) == r
    requires m.pass == Some(Pass(r, r, Scanning({}, true, true)))
    requires |Txs(e.chain, r.from)| > r.nonce
    ensures var r1 := r.(nonce := |Txs(e.chain, r.from)|);
            At(ss', ls', e, m.(row := r1, pass := Some(Pass(r1, r1, Ready))))
    ensures Misses(ls') == Misses(ls)
  {
    var m1 := m.(pass := Some(Pass(r, r, NonceRead)));
    ss', ls' := Act(ss, ls, e, m, EndScan, m1);
    var before := ls';
    ss', ls' := EthTxOnce.RaiseNonce(ss', ls', K, Pass(r, r, NonceRead), |Txs(e.chain, r.from)|);
    MissesTwo(before, Local(K, ReadNonce), Local(K, Write));
  }

  // The row moves to the next unused nonce and sends again.
  lemma BumpAndSend(ss: seq<State>, ls: seq<Label>, e: Env, m: Monitor, r: Row)
    returns (ss': seq<State>, ls': seq<Label>)
    requires At(ss, ls, e, m) && m.row == r && Persist(r) == r && r.status == Created
    requires m.pass == Some(Pass(r, r, Scanning({}, true, true)))
    requires |Txs(e.chain, r.from)| > r.nonce && Build(r.(nonce := |Txs(e.chain, r.from)|)) !in r.history
    ensures var r1 := r.(nonce := |Txs(e.chain, r.from)|);
            At(ss', ls', e, m.(row := r1.(history := r.history + {Build(r1)}), pass := None, sent := m.sent + [Build(r1)]))
    ensures Misses(ls') == Misses(ls)
  {
    var r1 := r.(nonce := |Txs(e.chain, r.from)|);
    ss', ls' := Bump(ss, ls, e, m, r);
    ss', ls' := SendFromReady(ss', ls', e, m.(row := r1, pass := Some(Pass(r1, r1, Ready))), r1, r1);
  }

  // The first transaction is signed and stored.
  lemma FirstSigned(synced: nat) returns (ss: seq<State>, ls: seq<Label>)
    ensures var t0 := Build(R0);
            var r := R0.(history := {t0});
            At(ss, ls, Env(Chain7([]), synced), Monitor(Q, r, Some(Pass(r, r, Checking(t0))), None, false, []))
    ensures Misses(ls) == 0
  {
    var e := Env(Chain7([]), synced);
    ss, ls := [State(e, map[])], [];
    var m0 := Monitor(Q, R0, None, None, false, []);
    ss, ls := Grow(ss, ls, Add(K, Q, 0, 21000, 1), State(e, map[K := m0]));
    ss, ls := StartPass(ss, ls, e, m0);
    var m1 := m0.(pass := Some(Pass(R0, R0, Ready)));
    ss, ls := Act(ss, ls, e, Begin(m0), EndScan, m1);
    ss, ls := WriteAhead(ss, ls, e, m1, R0, R0);
    assert R0.history + {Build(R0)} == {Build(R0)};
  }

  // It is sent, and the pass fails before the row is marked as sent.
  lemma FirstSend(synced: nat) returns (ss: seq<State>, ls: seq<Label>)
    ensures At(ss, ls, Env(Chain7([]), synced),
               Monitor(Q, R0.(history := {Build(R0)}), None, None, false, [Build(R0)]))
    ensures Misses(ls) == 0
  {
    var e, t0 := Env(Chain7([]), synced), Build(R0);
    ss, ls := FirstSigned(synced);
    var r := R0.(history := {t0});
    ss, ls := SendUnmarked(ss, ls, e, Monitor(Q, r, Some(Pass(r, r, Checking(t0))), None, false, []), r, t0);
    assert [] + [t0] == [t0];
  }

  // The first transaction fails, the row moves to the next nonce and sends again.
  lemma SecondSend() returns (ss: seq<State>, ls: seq<Label>)
    ensures var t0, t1 := Build(R0), Build(R0.(nonce := 1));
            At(ss, ls, Env(Chain7([Mined(t0, false, 1)]), 0),
               Monitor(Q, R0.(nonce := 1, history := {t0, t1}), None, None, false, [t0, t1]))
    ensures Misses(ls) == 0
  {
    var t0, t1 := Build(R0), Build(R0.(nonce := 1));
    ss, ls := FirstSend(0);
    var r := R0.(history := {t0});
    var m := Monitor(Q, r, None, None, false, [t0]);
    ss, ls := MineOne(ss, ls, [], 0, m, Mined(t0, false, 1));
    assert [] + [Mined(t0, false, 1)] == [Mined(t0, false, 1)];
    var e := Env(Chain7([Mined(t0, false, 1)]), 0);
    ss, ls := StartPass(ss, ls, e, m);
    var m1 := m.(pass := Some(Pass(r, r, Scanning({}, true, true))));
    assert {t0} - {t0} == {};
    ss, ls := Act(ss, ls, e, Begin(m), Lookup(t0, true), m1);
    ss, ls := BumpAndSend(ss, ls, e, m1, r);
    assert {t0} + {t1} == {t0, t1} && [t0] + [t1] == [t0, t1];
  }

  // Two lookups, of which the first gets no answer and the second finds a failure.
  lemma MissThenFail(ss: seq<State>, ls: seq<Label>, e: Env, m: Monitor, r: Row, t: SignedTx, t0: SignedTx)
    returns (ss': seq<State>, ls': seq<Label>)
    requires At(ss, ls, e, m) && m.pass.None? && m.row == r && Pending(r.status)
    requires r.history == {t0, t} && t0 != t && MinedFailed(e.chain, t0)
    ensures At(ss', ls', e, m.(pass := Some(Pass(r, r, Scanning({}, true, true)))))
    ensures Misses(ls') == Misses(ls) + 1
  {
    ss', ls' := StartPass(ss, ls, e, m);
    assert {t0, t} - {t} == {t0} && {t0} - {t0} == {};
    var m1 := m.(pass := Some(Pass(r, r, Scanning({t0}, false, true))));
    ss', ls' := Act(ss', ls', e, Begin(m), Lookup(t, false), m1);
    ss', ls' := Act(ss', ls', e, m1, Lookup(t0, true), m.(pass := Some(Pass(r, r, Scanning({}, true, true)))));
  }

  // The second transaction succeeds, and a pass gets no answer about it.
  lemma SecondMissed() returns (ss: seq<State>, ls: seq<Label>)
    ensures var t0, t := Build(R0), Build(R0.(nonce := 1));
            var r := R0.(nonce := 1, history := {t0, t});
            At(ss, ls, Env(Chain7([Mined(t0, false, 1), Mined(t, true, 2)]), 0),
               Monitor(Q, r, Some(Pass(r, r, Scanning({}, true, true))), None, false, [t0, t]))
    ensures Misses(ls) == 1
  {
    var t0, t := Build(R0), Build(R0.(nonce := 1));
    ss, ls := SecondSend();
    var r := R0.(nonce := 1, history := {t0, t});
    var m := Monitor(Q, r, None, None, false, [t0, t]);
    ss, ls := MineOne(ss, ls, [Mined(t0, false, 1)], 0, m, Mined(t, true, 2));
    assert [Mined(t0, false, 1)] + [Mined(t, true, 2)] == [Mined(t0, false, 1), Mined(t, true, 2)];
    ss, ls := MissThenFail(ss, ls, Env(Chain7([Mined(t0, false, 1), Mined(t, true, 2)]), 0), m, r, t, t0);
  }

  // The row moves past it and signs a third.
  lemma ThirdSend() returns (ss: seq<State>, ls: seq<Label>)
    ensures var t0, t, u := Build(R0), Build(R0.(nonce := 1)), Build(R0.(nonce := 2));
            At(ss, ls, Env(Chain7([Mined(t0, false, 1), Mined(t, true, 2)]), 0),
               Monitor(Q, R0.(nonce := 2, history := {t0, t, u}), None, None, false, [t0, t, u]))
    ensures Misses(ls) == 1
  {
    var t0, t, u := Build(R0), Build(R0.(nonce := 1)), Build(R0.(nonce := 2));
    ss, ls := SecondMissed();
    var r := R0.(nonce := 1, history := {t0, t});
    var e := Env(Chain7([Mined(t0, false, 1), Mined(t, true, 2)]), 0);
    ss, ls := BumpAndSend(ss, ls, e, Monitor(Q, r, Some(Pass(r, r, Scanning({}, true, true))), None, false, [t0, t]), r);
    assert {t0, t} + {u} == {t0, t, u} && [t0, t] + [u] == [t0, t, u];
  }

  // One failed lookup, and two transactions of the same row succeed.
  lemma OneMissTwoLandings() returns (ss: seq<State>, ls: seq<Label>, t: SignedTx, u: SignedTx)
    ensures IsRun(ss, ls) && Misses(ls) == 1
    ensures var s := ss[|ls|];
            && K in s.monitors
            && t in s.monitors[K].sent && u in s.monitors[K].sent && t != u
            && Succeeded(s.env.chain, t) && Succeeded(s.env.chain, u)
  {
    var t0 := Build(R0);
    t, u := Build(R0.(nonce := 1)), Build(R0.(nonce := 2));
    ss, ls := ThirdSend();
    var m := Monitor(Q, R0.(nonce := 2, history := {t0, t, u}), None, None, false, [t0, t, u]);
    ss, ls := MineOne(ss, ls, [Mined(t0, false, 1), Mined(t, true, 2)], 0, m, Mined(u, true, 3));
    assert m.sent[1] == t && m.sent[2] == u;
  }

  /* ---------- a gas price beyond 64 bits ---------- */

  // A signed transaction is sent and the row is marked as sent.
  lemma MarkSent(ss: seq<State>, ls: seq<Label>, e: Env, m: Monitor, r: Row, t: SignedTx)
    returns (ss': seq<State>, ls': seq<Label>)
    requires At(ss, ls, e, m) && m.pass == Some(Pass(r, r, Checking(t))) && r.status == Created && Persist(r) == r
    ensures At(ss', ls', e, m.(row := r.(status := Sent), pass := None, sent := m.sent + [t]))
  {
    var m1 := m.(pass := Some(Pass(r, r, Sending(t))));
    ss', ls' := Act(ss, ls, e, m, GetTx(true), m1);
    var r1 := r.(status := Sent);
    var m2 := m.(pass := Some(Pass(r1, r, SentWrite(t))), sent := m.sent + [t]);
    ss', ls' := Act(ss', ls', e, m1, Send(true), m2);
    ss', ls' := MarkAndStop(ss', ls', e, m2, r1, r, t);
  }

  lemma MarkAndStop(ss: seq<State>, ls: seq<Label>, e: Env, m: Monitor, r: Row, b: Row, t: SignedTx)
    returns (ss': seq<State>, ls': seq<Label>)
    requires At(ss, ls, e, m) && m.pass == Some(Pass(r, b, SentWrite(t))) && Persist(r) == r
    ensures At(ss', ls', e, m.(row := r, pass := None))
  {
    var m1 := m.(row := r, pass := Some(Pass(r, r, Waiting(t))));
    ss', ls' := Act(ss, ls, e, m, Write, m1);
    ss', ls' := Act(ss', ls', e, m1, Stop, m1.(pass := None));
  }

  // A pass finds the only transaction of the row not mined and gets ready to review it.
  lemma ReadyAgain(ss: seq<State>, ls: seq<Label>, e: Env, m: Monitor, r: Row, t: SignedTx)
    returns (ss': seq<State>, ls': seq<Label>)
    requires At(ss, ls, e, m) && m.pass.None? && m.row == r && r.status == Sent && r.history == {t} && !IsMined(e.chain, t)
    ensures At(ss', ls', e, m.(pass := Some(Pass(r, r, Ready))))
  {
    ss', ls' := StartPass(ss, ls, e, m);
    assert {t} - {t} == {};
    var m1 := m.(pass := Some(Pass(r, r, Scanning({}, false, false))));
    ss', ls' := Act(ss', ls', e, Begin(m), Lookup(t, true), m1);
    ss', ls' := Act(ss', ls', e, m1, EndScan, m.(pass := Some(Pass(r, r, Ready))));
  }

  // The review answers with a higher gas price, which is written and about to be signed.
  lemma Reprice(ss: seq<State>, ls: seq<Label>, e: Env, m: Monitor, r: Row, price: nat)
    returns (ss': seq<State>, ls': seq<Label>)
    requires At(ss, ls, e, m) && m.pass == Some(Pass(r, r, Ready)) && r.status == Sent && price > r.gasPrice
    ensures var r1 := r.(gasPrice := price);
            At(ss', ls', e, m.(row := Persist(r1), pass := Some(Pass(r1, Persist(r1), Signing))))
  {
    var r1 := r.(gasPrice := price);
    var m1 := m.(pass := Some(Pass(r1, r, ReviewWrite)));
    ss', ls' := Act(ss, ls, e, m, Review(0, price), m1);
    ss', ls' := Act(ss', ls', e, m1, Write, m.(row := Persist(r1), pass := Some(Pass(r1, Persist(r1), Signing))));
  }

  // A review answers with 2^64 + 7: that is signed and sent, and stored as 7.
  lemma SentBeyond() returns (ss: seq<State>, ls: seq<Label>)
    ensures IsRun(ss, ls) && K in ss[|ls|].monitors
    ensures var m := ss[|ls|].monitors[K];
            && m.row.status == Sent && m.row.gasPrice == 7 && m.pass.None?
            && |m.sent| == 2 && m.sent[1].gasPrice == U64 + 7
  {
    var e, t0 := Env(Chain7([]), 0), Build(R0);
    ss, ls := FirstSigned(0);
    var r := R0.(history := {t0});
    var m := Monitor(Q, r, Some(Pass(r, r, Checking(t0))), None, false, []);
    ss, ls := MarkSent(ss, ls, e, m, r, t0);
    r := r.(status := Sent);
    m := m.(row := r, pass := None, sent := [] + [t0]);
    ss, ls := ReadyAgain(ss, ls, e, m, r, t0);
    ss, ls := Reprice(ss, ls, e, m.(pass := Some(Pass(r, r, Ready))), r, U64 + 7);
    ss, ls := EthTxOnce.SignAhead(ss, ls, K, ss[|ls|].monitors[K].pass.value);
    ss, ls := EthTxOnce.HandOver(ss, ls, K, ss[|ls|].monitors[K].pass.value);
  }

  // The next pass starts from 7 and sends less than before.
  lemma PriceFalls() returns (ss: seq<State>, ls: seq<Label>)
    ensures IsRun(ss, ls) && K in ss[|ls|].monitors
    ensures var sent := ss[|ls|].monitors[K].sent;
            |sent| == 3 && sent[1].gasPrice == U64 + 7 && sent[2].gasPrice == 7
  {
    ss, ls := SentBeyond();
    var m := ss[|ls|].monitors[K];
    assert !EthTxClimb.NotAbove(m.sent[1], Build(m.row));
    ss, ls := EthTxClimb.UncoveredFalls(ss, ls, K);
  }

  /* ---------- races around a rollback ---------- */

  // The first transaction succeeds in block 1 and a pass has accepted that receipt.
  lemma Accepted() returns (ss: seq<State>, ls: seq<Label>)
    ensures var t0 := Build(R0);
            var r := R0.(history := {t0});
            At(ss, ls, Env(Chain7([Mined(t0, true, 1)]), 1),
               Monitor(Q, r, Some(Pass(r.(status := Confirmed, blockNumber := Some(1)), r, FinalWrite)),
                       None, false, [t0]))
    ensures Misses(ls) == 0
  {
    ss, ls := Found();
    var t0 := Build(R0);
    var r := R0.(history := {t0});
    var m := Monitor(Q, r, Some(Pass(r, r, Finalizing(Mined(t0, true, 1)))), None, false, [t0]);
    ss, ls := Act(ss, ls, Env(Chain7([Mined(t0, true, 1)]), 1), m, Settle(false),
                  m.(pass := Some(Pass(r.(status := Confirmed, blockNumber := Some(1)), r, FinalWrite))));
  }

  lemma RollbackOne(ss: seq<State>, ls: seq<Label>, e: Env, m: Monitor, block: nat)
    returns (ss': seq<State>, ls': seq<Label>)
    requires At(ss, ls, e, m) && block <= e.synced
    ensures At(ss', ls', e.(synced := block), m.(row := ReorgRow(m.row, block + 1))) && Misses(ls') == Misses(ls)
  {
    var ms := map[K := m];
    var s' := State(e.(synced := block), map[K := m.(row := ReorgRow(m.row, block + 1))]);
    assert (map k | k in ms :: ms[k].(row := ReorgRow(ms[k].row, block + 1))) == s'.monitors;
    ss', ls' := Grow(ss, ls, Rollback(block), s');
  }

  // The owner saw the row confirmed, a reorg took the confirmation back, and
  // `setStatusDone` then marks the reorged row as done: done without a block number.
  lemma DoneWithoutBlock() returns (ss: seq<State>, ls: seq<Label>)
    ensures IsRun(ss, ls) && Misses(ls) == 0 && K in ss[|ls|].monitors
    ensures ss[|ls|].monitors[K].row.status == Done && ss[|ls|].monitors[K].row.blockNumber.None?
  {
    ss, ls := Accepted();
    var t0 := Build(R0);
    var r := R0.(history := {t0});
    var c := r.(status := Confirmed, blockNumber := Some(1));
    var e := Env(Chain7([Mined(t0, true, 1)]), 1);
    var m := Monitor(Q, r, Some(Pass(c, r, FinalWrite)), None, false, [t0]);
    var m1 := m.(row := c, pass := None);
    ss, ls := Act(ss, ls, e, m, Write, m1);
    ss, ls := Act(ss, ls, e, m1, OwnerSees, m1.(seen := true));
    ss, ls := RollbackOne(ss, ls, e, m1.(seen := true), 0);
    var m2 := m1.(seen := true, row := ReorgRow(c, 1));
    ss, ls := Act(ss, ls, e.(synced := 0), m2, OwnerReads, m2.(owner := Some(m2.row)));
    ss, ls := Act(ss, ls, e.(synced := 0), m2.(owner := Some(m2.row)), OwnerWrites,
                  m2.(row := Persist(m2.row.(status := Done))));
  }

  // A rollback between accepting a receipt and storing it misses the row: it ends up
  // confirmed in a block above the synchronized head.
  lemma ConfirmedAboveHead() returns (ss: seq<State>, ls: seq<Label>)
    ensures IsRun(ss, ls) && Misses(ls) == 0 && K in ss[|ls|].monitors
    ensures var s := ss[|ls|];
            && s.monitors[K].row.status == Confirmed
            && s.monitors[K].row.blockNumber.Some?
            && s.monitors[K].row.blockNumber.value > s.env.synced
  {
    ss, ls := Accepted();
    var t0 := Build(R0);
    var r := R0.(history := {t0});
    var c := r.(status := Confirmed, blockNumber := Some(1));
    var e := Env(Chain7([Mined(t0, true, 1)]), 1);
    var m := Monitor(Q, r, Some(Pass(c, r, FinalWrite)), None, false, [t0]);
    ss, ls := RollbackOne(ss, ls, e, m, 0);
    ss, ls := Act(ss, ls, e.(synced := 0), m, Write, m.(row := c, pass := None));
  }

  // The first transaction is confirmed in block 1 and the owner has read the row to mark it
  // as done.
  lemma ReadToBeDone() returns (ss: seq<State>, ls: seq<Label>)
    ensures var t0 := Build(R0);
            var c := R0.(history := {t0}, status := Confirmed, blockNumber := Some(1));
            At(ss, ls, Env(Chain7([Mined(t0, true, 1)]), 1), Monitor(Q, c, None, Some(c), true, [t0]))
    ensures Misses(ls) == 0
  {
    ss, ls := Accepted();
    var t0 := Build(R0);
    var r := R0.(history := {t0});
    var c := r.(status := Confirmed, blockNumber := Some(1));
    var e := Env(Chain7([Mined(t0, true, 1)]), 1);
    var m := Monitor(Q, r, Some(Pass(c, r, FinalWrite)), None, false, [t0]);
    var m1 := m.(row := c, pass := None);
    ss, ls := Act(ss, ls, e, m, Write, m1);
    ss, ls := Act(ss, ls, e, m1, OwnerSees, m1.(seen := true));
    ss, ls := Act(ss, ls, e, m1.(seen := true), OwnerReads, m1.(seen := true, owner := Some(c)));
  }

  // A rollback between reading the row and marking it as done: it ends up done in a block
  // above the synchronized head, and no pass was running.
  lemma DoneAboveHead() returns (ss: seq<State>, ls: seq<Label>)
    ensures IsRun(ss, ls) && Misses(ls) == 0 && K in ss[|ls|].monitors
    ensures var s := ss[|ls|];
            && s.monitors[K].row.status == Done && s.monitors[K].pass.None?
            && s.monitors[K].row.blockNumber.Some?
            && s.monitors[K].row.blockNumber.value > s.env.synced
  {
    ss, ls := ReadToBeDone();
    var t0 := Build(R0);
    var c := R0.(history := {t0}, status := Confirmed, blockNumber := Some(1));
    var e := Env(Chain7([Mined(t0, true, 1)]), 1);
    var m := Monitor(Q, c, None, Some(c), true, [t0]);
    ss, ls := RollbackOne(ss, ls, e, m, 0);
    var m1 := m.(row := ReorgRow(c, 1));
    ss, ls := Act(ss, ls, e.(synced := 0), m1, OwnerWrites, m1.(row := Persist(c.(status := Done)), owner := None));
  }

  /* ---------- L1 drops a transaction ---------- */

  lemma DropAll(ss: seq<State>, ls: seq<Label>, mined: seq<Mined>, synced: nat, m: Monitor, block: nat)
    returns (ss': seq<State>, ls': seq<Label>)
    requires At(ss, ls, Env(Chain7(mined), synced), m) && forall i :: 0 <= i < |mined| ==> mined[i].block >= block
    ensures At(ss', ls', Env(Chain7([]), synced), m) && Misses(ls') == Misses(ls)
    ensures ls' == ls + [Unmine(Chain7([]), block)] && ss <= ss'
  {
    ss', ls' := EthTxOnce.Extend(ss, ls, Unmine(Chain7([]), block), State(Env(Chain7([]), synced), map[K := m]));
    assert ls'[..|ls|] == ls;
  }

  // A pass has found the successful receipt of the first transaction in block 1.
  lemma Found() returns (ss: seq<State>, ls: seq<Label>)
    ensures var t0 := Build(R0);
            var r := R0.(history := {t0});
            At(ss, ls, Env(Chain7([Mined(t0, true, 1)]), 1),
               Monitor(Q, r, Some(Pass(r, r, Finalizing(Mined(t0, true, 1)))), None, false, [t0]))
    ensures Misses(ls) == 0
  {
    var t0 := Build(R0);
    ss, ls := FirstSend(1);
    var r := R0.(history := {t0});
    var m := Monitor(Q, r, None, None, false, [t0]);
    ss, ls := MineOne(ss, ls, [], 1, m, Mined(t0, true, 1));
    assert [] + [Mined(t0, true, 1)] == [Mined(t0, true, 1)];
    var e := Env(Chain7([Mined(t0, true, 1)]), 1);
    ss, ls := StartPass(ss, ls, e, m);
    ss, ls := Act(ss, ls, e, Begin(m), Lookup(t0, true), m.(pass := Some(Pass(r, r, Finalizing(Mined(t0, true, 1))))));
  }

  // L1 drops that block and the node rolls back to before it, while the pass keeps the
  // receipt it has found. The rollback is a quiet one.
  lemma FoundThenDropped() returns (ss: seq<State>, ls: seq<Label>)
    ensures var t0 := Build(R0);
            var r := R0.(history := {t0});
            var m := Monitor(Q, r, Some(Pass(r, r, Finalizing(Mined(t0, true, 1)))), None, false, [t0]);
            && At(ss, ls, Env(Chain7([]), 0), m)
            && EthTxReorg.QuietPass(m, 0) && EthTxReorg.QuietOwner(m, 0)
    ensures Misses(ls) == 0
  {
    ss, ls := Found();
    var t0 := Build(R0);
    var r := R0.(history := {t0});
    var m := Monitor(Q, r, Some(Pass(r, r, Finalizing(Mined(t0, true, 1)))), None, false, [t0]);
    ss, ls := DropAll(ss, ls, [Mined(t0, true, 1)], 1, m, 1);
    ss, ls := RollbackOne(ss, ls, Env(Chain7([]), 1), m, 0);
  }

  // The node synchronizes block 1 of the new branch; the pass accepts and stores the
  // receipt: the row is confirmed in a synchronized block in which nothing of it is mined.
  lemma ConfirmedButDropped() returns (ss: seq<State>, ls: seq<Label>)
    ensures IsRun(ss, ls) && Misses(ls) == 0 && K in ss[|ls|].monitors
    ensures var s := ss[|ls|];
            && s.monitors[K].row.status == Confirmed && s.monitors[K].row.blockNumber == Some(1)
            && s.env.synced == 1 && Txs(s.env.chain, s.monitors[K].row.from) == []
  {
    ss, ls := FoundThenDropped();
    var t0 := Build(R0);
    var r := R0.(history := {t0});
    var m := Monitor(Q, r, Some(Pass(r, r, Finalizing(Mined(t0, true, 1)))), None, false, [t0]);
    var e := Env(Chain7([]), 1);
    ss, ls := Grow(ss, ls, Sync(1), State(e, map[K := m]));
    var c := r.(status := Confirmed, blockNumber := Some(1));
    var m1 := m.(pass := Some(Pass(c, r, FinalWrite)));
    ss, ls := Act(ss, ls, e, m, Settle(false), m1);
    ss, ls := Act(ss, ls, e, m1, Write, m.(row := c, pass := None));
  }

  // The first transaction fails and the row moves on; L1 drops the failure, and on the new
  // branch both transactions succeed, although every lookup answers.
  lemma DroppedFailureTwoLandings() returns (ss: seq<State>, ls: seq<Label>, t: SignedTx, u: SignedTx)
    ensures IsRun(ss, ls) && Misses(ls) == 0
    ensures var s := ss[|ls|];
            && K in s.monitors
            && t in s.monitors[K].sent && u in s.monitors[K].sent && t != u
            && Succeeded(s.env.chain, t) && Succeeded(s.env.chain, u)
  {
    t, u := Build(R0), Build(R0.(nonce := 1));
    ss, ls := SecondSend();
    var m := Monitor(Q, R0.(nonce := 1, history := {t, u}), None, None, false, [t, u]);
    ss, ls := DropAll(ss, ls, [Mined(t, false, 1)], 0, m, 1);
    ss, ls := MineOne(ss, ls, [], 0, m, Mined(t, true, 1));
    ss, ls := MineOne(ss, ls, [] + [Mined(t, true, 1)], 0, m, Mined(u, true, 2));
    assert m.sent[0] == t && m.sent[1] == u;
  }
}
