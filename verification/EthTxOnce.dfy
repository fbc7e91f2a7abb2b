/**
 When at most one transaction of a row lands.

 The nonce of a row that can still be signed must not be read while one of its
 transactions has succeeded, and a reorganisation of L1 must not give back a nonce that the
 row has moved past. Then at most one lands; the first such read can always be continued to
 a second landing, and so can a reorganisation that gives such a nonce back.
 */
module EthTxOnce {
  import opened Wrappers
  import opened EthTxMachine
  import opened EthTxResend

  // The nonce is used up and the transaction has not succeeded, so it never will.
  predicate Spent(c: Chain, t: SignedTx) {
    t.nonce < |Txs(c, t.from)| && !Succeeded(c, t)
  }

  // Below another transaction of the history, and below the nonce of a row that can still
  // be signed, every transaction is spent.
  ghost predicate RowOnce(c: Chain, r: Row) {
    && (forall t :: t in r.history ==>
          t.from == r.from && t.nonce <= r.nonce && (t.nonce < r.nonce && !Settled(r.status) ==> Spent(c, t)))
    && (forall t, u :: t in r.history && u in r.history && t.nonce < u.nonce ==> Spent(c, t))
  }

  ghost predicate Once(c: Chain, m: Monitor) {
    && RowOnce(c, m.row)
    && (m.pass.Some? ==> RowOnce(c, m.pass.value.mtx))
    && (m.owner.Some? ==> RowOnce(c, m.owner.value))
  }

  ghost predicate AllOnce(s: State) {
    forall k {:trigger Once(s.env.chain, s.monitors[k])} :: k in s.monitors ==> Once(s.env.chain, s.monitors[k])
  }

  // The pass is about to read the nonce of a row that it may sign, and a transaction of
  // the row has succeeded.
  ghost predicate Dirty(c: Chain, m: Monitor) {
    && m.pass.Some? && m.pass.value.pc.NonceRead? && !Settled(m.pass.value.mtx.status)
    && exists t :: t in m.pass.value.mtx.history && Succeeded(c, t)
  }

  ghost predicate CleanRead(s: State, l: Label) {
    l.Local? && l.action.ReadNonce? && l.key in s.monitors ==> !Dirty(s.env.chain, s.monitors[l.key])
  }

  // The nonces that the row has moved past are still used up.
  ghost predicate RowKeeps(d: Chain, r: Row) {
    && (forall t :: t in r.history && t.nonce < r.nonce && !Settled(r.status) ==> t.nonce < |Txs(d, t.from)|)
    && (forall t, u :: t in r.history && u in r.history && t.nonce < u.nonce ==> t.nonce < |Txs(d, t.from)|)
  }

  ghost predicate Keeps(d: Chain, m: Monitor) {
    && RowKeeps(d, m.row)
    && (m.pass.Some? ==> RowKeeps(d, m.pass.value.mtx))
    && (m.owner.Some? ==> RowKeeps(d, m.owner.value))
  }

  ghost predicate KeepsNonces(s: State, l: Label) {
    l.Unmine? ==> forall k {:trigger Keeps(l.chain, s.monitors[k])} :: k in s.monitors ==> Keeps(l.chain, s.monitors[k])
  }

  /* ---------- preservation ---------- */

  lemma RowOnceIff(c: Chain, d: Chain, b: nat, r: Row)
    requires Drops(c, d, b) && RowOnce(c, r)
    ensures RowOnce(d, r) <==> RowKeeps(d, r)
  {
    forall t | Spent(c, t)
      ensures Spent(d, t) <==> t.nonce < |Txs(d, t.from)|
    {
      assert t.from in c ==> Txs(d, t.from) <= c[t.from];
    }
  }

  // A reorganisation of L1 keeps the invariant if and only if it gives back none of them.
  lemma DropKeepsOnceIff(c: Chain, d: Chain, b: nat, m: Monitor)
    requires Drops(c, d, b) && Once(c, m)
    ensures Once(d, m) <==> Keeps(d, m)
  {
    RowOnceIff(c, d, b, m.row);
    if m.pass.Some? {
      RowOnceIff(c, d, b, m.pass.value.mtx);
    }
    if m.owner.Some? {
      RowOnceIff(c, d, b, m.owner.value);
    }
  }

  lemma OnceGrows(c: Chain, d: Chain, m: Monitor)
    requires Extends(c, d) && Once(c, m)
    ensures Once(d, m)
  {
    assert forall t :: Spent(c, t) ==> Spent(d, t) by {
      forall t | Spent(c, t)
        ensures Spent(d, t)
      {
        assert Txs(c, t.from) <= Txs(d, t.from);
      }
    }
  }

  lemma ReadNonceKeepsOnce(e: Env, m: Monitor, p: Pass, m': Monitor)
    requires Once(e.chain, m) && m.pass == Some(p) && !Dirty(e.chain, m)
    requires PassStep(e, m, p, ReadNonce) == Some(m')
    ensures Once(e.chain, m')
  {
    var r, r' := p.mtx, m'.pass.value.mtx;
    forall t | t in r'.history && t.nonce < r'.nonce && !Settled(r'.status)
      ensures Spent(e.chain, t)
    {
      assert t in r.history && !Succeeded(e.chain, t);
    }
  }

  lemma MoveKeepsOnce(c: Chain, m: Monitor, p: Pass, q: Pass)
    requires Once(c, m) && m.pass == Some(p) && Moves(p, q) && p.mtx.nonce == q.mtx.nonce
    ensures Once(c, m.(pass := Some(q)))
  {
  }

  lemma WriteKeepsOnce(c: Chain, m: Monitor, p: Pass, m': Monitor)
    requires Once(c, m) && m.pass == Some(p) && WriteStep(m, p) == Some(m')
    ensures Once(c, m')
  {
    assert RowOnce(c, Persist(p.mtx));
  }

  lemma SignKeepsOnce(c: Chain, m: Monitor, p: Pass, m': Monitor)
    requires Once(c, m) && m.pass == Some(p) && SignStep(m, p) == Some(m')
    requires !Settled(p.mtx.status)
    ensures Once(c, m')
  {
  }

  lemma RestKeepsOnce(e: Env, m: Monitor, p: Pass, a: Action, m': Monitor)
    requires Once(e.chain, m) && m.pass == Some(p) && PassStep(e, m, p, a) == Some(m')
    requires !a.ReadNonce? && !a.Write? && !a.Sign? && !a.Send?
    ensures Once(e.chain, m')
  {
    OrdinaryStep(e, m, p, a, m');
    if m'.pass.Some? {
      MoveKeepsOnce(e.chain, m, p, m'.pass.value);
    }
  }

  lemma LocalKeepsOnce(e: Env, m: Monitor, a: Action, m': Monitor)
    requires Once(e.chain, m) && Ahead(m) && (a.ReadNonce? ==> !Dirty(e.chain, m))
    requires LocalStep(e, m, a) == Some(m')
    ensures Once(e.chain, m')
  {
    if a.OwnerSees? || a.OwnerReads? || a.OwnerWrites? || a.Send? {
    } else {
      var p := m.pass.value;
      if a.ReadNonce? {
        ReadNonceKeepsOnce(e, m, p, m');
      } else if a.Write? {
        WriteKeepsOnce(e.chain, m, p, m');
      } else if a.Sign? {
        SignKeepsOnce(e.chain, m, p, m');
      } else {
        RestKeepsOnce(e, m, p, a, m');
      }
    }
  }

  lemma ElsewhereKeepsOnce(c: Chain, l: Label, m: Monitor)
    requires Once(c, m)
    ensures Once(c, Elsewhere(l, m))
  {
  }

  lemma StepKeepsOnce(s: State, l: Label, s': State)
    requires AllOnce(s) && AllAhead(s) && CleanRead(s, l) && KeepsNonces(s, l) && Step(s, l) == Some(s')
    ensures AllOnce(s')
  {
    forall k | k in s'.monitors
      ensures Once(s'.env.chain, s'.monitors[k])
    {
      if l.Mine? {
        MineExtends(s.env.chain, l.tx, l.success, l.block);
        OnceGrows(s.env.chain, s'.env.chain, s.monitors[k]);
      } else if l.Unmine? {
        DropKeepsOnceIff(s.env.chain, l.chain, l.block, s.monitors[k]);
      } else if l.Local? && l.key == k {
        LocalKeepsOnce(s.env, s.monitors[k], l.action, s'.monitors[k]);
      } else {
        OtherRow(s, l, s', k);
        if k in s.monitors {
          ElsewhereKeepsOnce(s.env.chain, l, s.monitors[k]);
        }
      }
    }
  }

  lemma {:induction false} RunIsOnce(ss: seq<State>, ls: seq<Label>, n: nat)
    requires IsRun(ss, ls) && n <= |ls|
    requires forall i :: 0 <= i < n ==> CleanRead(ss[i], ls[i]) && KeepsNonces(ss[i], ls[i])
    ensures AllOnce(ss[n])
  {
    if n > 0 {
      RunIsOnce(ss, ls, n - 1);
      RunIsAhead(ss, ls, n - 1);
      assert StepAt(ss, ls, n - 1);
      StepKeepsOnce(ss[n - 1], ls[n - 1], ss[n]);
    }
  }

  /* ---------- at most one landing ---------- */

  // Everything signed for a monitored transaction that is stored, held by its running
  // pass or already handed to the network.
  function Signed(m: Monitor): set<SignedTx> {
    m.row.history + (if m.pass.Some? then m.pass.value.mtx.history else {}) + (set t | t in m.sent)
  }

  lemma OneSuccess(c: Chain, m: Monitor, t: SignedTx, u: SignedTx)
    requires Once(c, m) && Ahead(m) && t in Signed(m) && u in Signed(m)
    requires Succeeded(c, t) && Succeeded(c, u)
    ensures t == u
  {
    var r := if m.pass.Some? then m.pass.value.mtx else m.row;
    assert t in r.history && u in r.history && RowOnce(c, r);
  }

  // In every interleaving without a dirty read in which L1 gives back no such nonce, at most
  // one of the transactions ever signed for a monitored transaction has succeeded.
  lemma CleanReadsLandOnce(ss: seq<State>, ls: seq<Label>, n: nat, k: Key, t: SignedTx, u: SignedTx)
    requires IsRun(ss, ls) && n <= |ls|
    requires forall i :: 0 <= i < n ==> CleanRead(ss[i], ls[i]) && KeepsNonces(ss[i], ls[i])
    requires k in ss[n].monitors
    requires t in Signed(ss[n].monitors[k]) && u in Signed(ss[n].monitors[k])
    requires Succeeded(ss[n].env.chain, t) && Succeeded(ss[n].env.chain, u)
    ensures t == u
  {
    RunIsOnce(ss, ls, n);
    RunIsAhead(ss, ls, n);
    OneSuccess(ss[n].env.chain, ss[n].monitors[k], t, u);
  }

  /* ---------- and otherwise two can land ---------- */

  // One more step of a run.
  lemma Extend(ss: seq<State>, ls: seq<Label>, l: Label, s': State) returns (ss': seq<State>, ls': seq<Label>)
    requires IsRun(ss, ls) && Step(ss[|ls|], l) == Some(s')
    ensures IsRun(ss', ls') && ss' == ss + [s'] && ls' == ls + [l] && ss'[|ls'|] == s'
  {
    ss', ls' := ss + [s'], ls + [l];
    forall i | 0 <= i < |ls'|
      ensures StepAt(ss', ls', i)
    {
      if i < |ls| {
        assert StepAt(ss, ls, i) && ss'[i] == ss[i] && ss'[i + 1] == ss[i + 1];
      }
    }
  }

  // One more action of the row `k`, in an environment that stays the same.
  lemma ActOn(ss: seq<State>, ls: seq<Label>, k: Key, a: Action, m': Monitor) returns (ss': seq<State>, ls': seq<Label>)
    requires IsRun(ss, ls) && k in ss[|ls|].monitors
    requires LocalStep(ss[|ls|].env, ss[|ls|].monitors[k], a) == Some(m')
    ensures IsRun(ss', ls') && ls' == ls + [Local(k, a)] && ss' == ss + [ss'[|ls'|]]
    ensures ss'[|ls'|] == ss[|ls|].(monitors := ss[|ls|].monitors[k := m'])
  {
    ss', ls' := Extend(ss, ls, Local(k, a), ss[|ls|].(monitors := ss[|ls|].monitors[k := m']));
  }

  // A pass that is about to sign a row signs it and writes the transaction ahead.
  lemma SignAhead(ss: seq<State>, ls: seq<Label>, k: Key, p: Pass) returns (ss': seq<State>, ls': seq<Label>)
    requires IsRun(ss, ls) && k in ss[|ls|].monitors && ss[|ls|].monitors[k].pass == Some(p)
    requires (p.pc.Ready? && p.mtx.status == Created) || p.pc.Signing?
    requires Build(p.mtx) !in p.mtx.history
    ensures IsRun(ss', ls') && ls' == ls + [Local(k, Sign)] + [Local(k, Write)]
    ensures var r := p.mtx.(history := p.mtx.history + {Build(p.mtx)});
            var m' := ss[|ls|].monitors[k].(row := Persist(r), pass := Some(Pass(r, Persist(r), Checking(Build(p.mtx)))));
            ss'[|ls'|] == ss[|ls|].(monitors := ss[|ls|].monitors[k := m'])
  {
    var m, u := ss[|ls|].monitors[k], Build(p.mtx);
    var r := p.mtx.(history := p.mtx.history + {u});
    var m1 := m.(pass := Some(Pass(r, p.base, HistoryWrite(u))));
    ss', ls' := ActOn(ss, ls, k, Sign, m1);
    ss', ls' := ActOn(ss', ls', k, Write, m1.(row := Persist(r), pass := Some(Pass(r, Persist(r), Checking(u)))));
  }

  // It hands the transaction over, and the call reports an error.
  lemma HandOver(ss: seq<State>, ls: seq<Label>, k: Key, p: Pass) returns (ss': seq<State>, ls': seq<Label>)
    requires IsRun(ss, ls) && k in ss[|ls|].monitors && ss[|ls|].monitors[k].pass == Some(p) && p.pc.Checking?
    ensures IsRun(ss', ls') && ls' == ls + [Local(k, GetTx(true))] + [Local(k, Send(false))]
    ensures var m := ss[|ls|].monitors[k];
            ss'[|ls'|] == ss[|ls|].(monitors := ss[|ls|].monitors[k := m.(pass := None, sent := m.sent + [p.pc.tx])])
  {
    var m := ss[|ls|].monitors[k].(pass := Some(Pass(p.mtx, p.base, Sending(p.pc.tx))));
    ss', ls' := ActOn(ss, ls, k, GetTx(true), m);
    ss', ls' := ActOn(ss', ls', k, Send(false), m.(pass := None, sent := m.sent + [p.pc.tx]));
  }

  // A pass that has stored a new nonce gets to the point of signing.
  lemma GetReady(ss: seq<State>, ls: seq<Label>, k: Key, p: Pass) returns (ss': seq<State>, ls': seq<Label>, q: Pass)
    requires IsRun(ss, ls) && k in ss[|ls|].monitors && ss[|ls|].monitors[k].pass == Some(p)
    requires p.pc.Ready? && !Settled(p.mtx.status)
    ensures IsRun(ss', ls') && ls <= ls' && k in ss'[|ls'|].monitors && ss'[|ls'|].env == ss[|ls|].env
    ensures ss'[|ls'|].monitors[k].pass == Some(q) && q.mtx == p.mtx
    ensures ss'[|ls'|].monitors[k].sent == ss[|ls|].monitors[k].sent
    ensures (q.pc.Ready? && q.mtx.status == Created) || q.pc.Signing?
  {
    ss', ls', q := ss, ls, p;
    if p.mtx.status == Sent {
      var m := ss[|ls|].monitors[k];
      var m1 := m.(pass := Some(Pass(p.mtx, p.base, ReviewWrite)));
      ss', ls' := ActOn(ss, ls, k, Review(0, 0), m1);
      q := Pass(p.mtx, Persist(p.mtx), Signing);
      ss', ls' := ActOn(ss', ls', k, Write, m1.(row := Persist(p.mtx), pass := Some(q)));
    }
  }

  // Every lookup fails, so the scan decides nothing.
  lemma {:induction false} ScanBlind(ss: seq<State>, ls: seq<Label>, k: Key, p: Pass)
    returns (ss': seq<State>, ls': seq<Label>)
    requires IsRun(ss, ls) && k in ss[|ls|].monitors && ss[|ls|].monitors[k].pass == Some(p)
    requires p.pc.Scanning? && !p.pc.hasFailed
    ensures IsRun(ss', ls') && ls <= ls' && k in ss'[|ls'|].monitors && ss'[|ls'|].env == ss[|ls|].env
    ensures ss'[|ls'|].monitors[k] == ss[|ls|].monitors[k].(pass := Some(Pass(p.mtx, p.base, Ready)))
    decreases if p.pc.Scanning? then p.pc.todo else {}
  {
    var m := ss[|ls|].monitors[k];
    if p.pc.todo == {} {
      ss', ls' := ActOn(ss, ls, k, EndScan, m.(pass := Some(Pass(p.mtx, p.base, Ready))));
    } else {
      var t :| t in p.pc.todo;
      var q := Pass(p.mtx, p.base, p.pc.(todo := p.pc.todo - {t}));
      ss', ls' := ActOn(ss, ls, k, Lookup(t, false), m.(pass := Some(q)));
      ss', ls' := ScanBlind(ss', ls', k, q);
    }
  }

  // After a crash the next pass starts from the stored row.
  lemma Restart(ss: seq<State>, ls: seq<Label>, k: Key) returns (ss': seq<State>, ls': seq<Label>)
    requires IsRun(ss, ls) && k in ss[|ls|].monitors && !Settled(ss[|ls|].monitors[k].row.status)
    ensures IsRun(ss', ls') && ls <= ls' && k in ss'[|ls'|].monitors && ss'[|ls'|].env == ss[|ls|].env
    ensures var m := ss[|ls|].monitors[k];
            ss'[|ls'|].monitors[k] ==
            m.(owner := None, pass := Some(Pass(m.row, m.row, Scanning(m.row.history, false, true))))
  {
    var s := ss[|ls|];
    var s1 := s.(monitors := map x | x in s.monitors :: s.monitors[x].(pass := None, owner := None));
    ss', ls' := Extend(ss, ls, Crash, s1);
    ss', ls' := Extend(ss', ls', Cycle, s1.(monitors := map x | x in s1.monitors :: Begin(s1.monitors[x])));
  }

  // The nonce is read and stored.
  lemma RaiseNonce(ss: seq<State>, ls: seq<Label>, k: Key, p: Pass, n: nat) returns (ss': seq<State>, ls': seq<Label>)
    requires IsRun(ss, ls) && k in ss[|ls|].monitors && ss[|ls|].monitors[k].pass == Some(p)
    requires p.pc.NonceRead? && p.mtx.nonce < n == |Txs(ss[|ls|].env.chain, p.mtx.from)|
    ensures IsRun(ss', ls') && ls' == ls + [Local(k, ReadNonce)] + [Local(k, Write)]
    ensures var r := p.mtx.(nonce := n);
            var m' := ss[|ls|].monitors[k].(row := Persist(r), pass := Some(Pass(r, Persist(r), Ready)));
            ss'[|ls'|] == ss[|ls|].(monitors := ss[|ls|].monitors[k := m'])
  {
    var r := p.mtx.(nonce := n);
    var m := ss[|ls|].monitors[k].(pass := Some(Pass(r, p.base, NonceWrite)));
    ss', ls' := ActOn(ss, ls, k, ReadNonce, m);
    ss', ls' := ActOn(ss', ls', k, Write, m.(row := Persist(r), pass := Some(Pass(r, Persist(r), Ready))));
  }

  // The first dirty read of a run can be continued so that a second transaction lands.
  lemma DirtyReadLandsTwice(ss: seq<State>, ls: seq<Label>, k: Key, t: SignedTx)
    returns (ss': seq<State>, ls': seq<Label>, u: SignedTx)
    requires IsRun(ss, ls) && k in ss[|ls|].monitors
    requires forall i :: 0 <= i < |ls| ==> CleanRead(ss[i], ls[i]) && KeepsNonces(ss[i], ls[i])
    requires Dirty(ss[|ls|].env.chain, ss[|ls|].monitors[k])
    requires t in ss[|ls|].monitors[k].pass.value.mtx.history && Succeeded(ss[|ls|].env.chain, t)
    ensures IsRun(ss', ls') && ls + [Local(k, ReadNonce)] <= ls' && k in ss'[|ls'|].monitors
    ensures t != u && t in ss'[|ls'|].monitors[k].row.history && u in ss'[|ls'|].monitors[k].row.history
    ensures u in ss'[|ls'|].monitors[k].sent
    ensures Succeeded(ss'[|ls'|].env.chain, t) && Succeeded(ss'[|ls'|].env.chain, u)
  {
    RunIsOnce(ss, ls, |ls|);
    var s := ss[|ls|];
    var m := s.monitors[k];
    var p := m.pass.value;
    var c := s.env.chain;
    assert Once(c, m);
    assert RowOnce(c, p.mtx) && !Spent(c, t);
    // The transaction that succeeded carries the row's nonce, which is now used up.
    var n := |Txs(c, p.mtx.from)|;
    assert t.nonce == p.mtx.nonce < n;
    ss', ls' := RaiseNonce(ss, ls, k, p, n);
    ss', ls', u := SignSendMine(ss', ls', k, ss'[|ls'|].monitors[k].pass.value, n);
    assert u.nonce == n;
    MineExtends(c, u, true, 0);
  }

  // A pass that carries the next nonce of its sender signs, sends and is mined.
  lemma SignSendMine(ss: seq<State>, ls: seq<Label>, k: Key, p: Pass, n: nat)
    returns (ss': seq<State>, ls': seq<Label>, u: SignedTx)
    requires IsRun(ss, ls) && k in ss[|ls|].monitors && ss[|ls|].monitors[k].pass == Some(p)
    requires p.pc.Ready? && !Settled(p.mtx.status) && Build(p.mtx) !in p.mtx.history
    requires p.mtx.nonce == n == |Txs(ss[|ls|].env.chain, p.mtx.from)|
    ensures IsRun(ss', ls') && ls <= ls' && k in ss'[|ls'|].monitors && u == Build(p.mtx)
    ensures ss'[|ls'|].env.chain == MineTx(ss[|ls|].env.chain, u, true, 0)
    ensures ss'[|ls'|].monitors[k].row.history == p.mtx.history + {u} && u in ss'[|ls'|].monitors[k].sent
  {
    var q;
    ss', ls', q := GetReady(ss, ls, k, p);
    u := Build(p.mtx);
    ss', ls' := SignAhead(ss', ls', k, q);
    ss', ls' := HandOver(ss', ls', k, ss'[|ls'|].monitors[k].pass.value);
    var s' := ss'[|ls'|];
    ss', ls' := Extend(ss', ls', Mine(u, true, 0), s'.(env := s'.env.(chain := MineTx(s'.env.chain, u, true, 0))));
  }

  /* ---------- a nonce given back ---------- */

  // Other transactions of the sender use up the nonces below `n`.
  lemma FillTo(ss: seq<State>, ls: seq<Label>, a: Address, n: nat) returns (ss': seq<State>, ls': seq<Label>)
    requires IsRun(ss, ls) && |Txs(ss[|ls|].env.chain, a)| <= n
    ensures IsRun(ss', ls') && ls <= ls' && ss'[|ls'|].monitors == ss[|ls|].monitors
    ensures |Txs(ss'[|ls'|].env.chain, a)| == n && Txs(ss[|ls|].env.chain, a) <= Txs(ss'[|ls'|].env.chain, a)
    ensures ss'[|ls'|].env.synced == ss[|ls|].env.synced
    decreases n - |Txs(ss[|ls|].env.chain, a)|
  {
    ss', ls' := ss, ls;
    var s := ss[|ls|];
    var k := |Txs(s.env.chain, a)|;
    if k < n {
      var tx := SignedTx(a, None, k, None, [], 0, 0);
      ss', ls' := Extend(ss, ls, Mine(tx, false, 0), s.(env := s.env.(chain := MineTx(s.env.chain, tx, false, 0))));
      ss', ls' := FillTo(ss', ls', a, n);
    }
  }

  // Mining a transaction whose nonce is not used up.
  lemma LandAt(ss: seq<State>, ls: seq<Label>, t: SignedTx) returns (ss': seq<State>, ls': seq<Label>)
    requires IsRun(ss, ls) && |Txs(ss[|ls|].env.chain, t.from)| <= t.nonce
    ensures IsRun(ss', ls') && ls <= ls' && ss'[|ls'|].monitors == ss[|ls|].monitors
    ensures Succeeded(ss'[|ls'|].env.chain, t) && |Txs(ss'[|ls'|].env.chain, t.from)| == t.nonce + 1
    ensures Receipt(ss'[|ls'|].env.chain, t).block == 0 && ss'[|ls'|].env.synced == ss[|ls|].env.synced
    ensures Txs(ss[|ls|].env.chain, t.from) <= Txs(ss'[|ls'|].env.chain, t.from)
  {
    ss', ls' := FillTo(ss, ls, t.from, t.nonce);
    var s := ss'[|ls'|];
    ss', ls' := Extend(ss', ls', Mine(t, true, 0), s.(env := s.env.(chain := MineTx(s.env.chain, t, true, 0))));
  }

  // When a nonce below another history transaction is not used up, both can land.
  lemma GivenBackLandsTwice(ss: seq<State>, ls: seq<Label>, k: Key, t: SignedTx, u: SignedTx)
    returns (ss': seq<State>, ls': seq<Label>)
    requires IsRun(ss, ls) && k in ss[|ls|].monitors
    requires t in ss[|ls|].monitors[k].row.history && u in ss[|ls|].monitors[k].row.history
    requires t.from == u.from && |Txs(ss[|ls|].env.chain, t.from)| <= t.nonce < u.nonce
    ensures IsRun(ss', ls') && ls <= ls' && k in ss'[|ls'|].monitors
    ensures t in ss'[|ls'|].monitors[k].row.history && u in ss'[|ls'|].monitors[k].row.history
    ensures Succeeded(ss'[|ls'|].env.chain, t) && Succeeded(ss'[|ls'|].env.chain, u)
  {
    ss', ls' := LandAt(ss, ls, t);
    var c := ss'[|ls'|].env.chain;
    ss', ls' := LandAt(ss', ls', u);
    assert Txs(c, t.from) <= Txs(ss'[|ls'|].env.chain, t.from);
  }

  // When a nonce below that of a row that can be signed is not used up, a crash and one more
  // pass store the later transaction.
  lemma GivenBackToRow(ss: seq<State>, ls: seq<Label>, k: Key, t: SignedTx)
    returns (ss': seq<State>, ls': seq<Label>, u: SignedTx)
    requires IsRun(ss, ls) && k in ss[|ls|].monitors
    requires var r := ss[|ls|].monitors[k].row;
             !Settled(r.status) && t in r.history && t.from == r.from && t.nonce < r.nonce
    requires |Txs(ss[|ls|].env.chain, t.from)| <= t.nonce
    ensures IsRun(ss', ls') && ls <= ls' && k in ss'[|ls'|].monitors && t != u
    ensures t in ss'[|ls'|].monitors[k].row.history && u in ss'[|ls'|].monitors[k].row.history
    ensures Succeeded(ss'[|ls'|].env.chain, t) && Succeeded(ss'[|ls'|].env.chain, u)
  {
    var r := ss[|ls|].monitors[k].row;
    u := Build(r);
    ss', ls' := ss, ls;
    if u !in r.history {
      ss', ls' := SignStored(ss, ls, k);
    }
    ss', ls' := GivenBackLandsTwice(ss', ls', k, t, u);
  }

  lemma SignStored(ss: seq<State>, ls: seq<Label>, k: Key) returns (ss': seq<State>, ls': seq<Label>)
    requires IsRun(ss, ls) && k in ss[|ls|].monitors
    requires var r := ss[|ls|].monitors[k].row; !Settled(r.status) && Build(r) !in r.history
    ensures IsRun(ss', ls') && ls <= ls' && k in ss'[|ls'|].monitors && ss'[|ls'|].env == ss[|ls|].env
    ensures var r, r' := ss[|ls|].monitors[k].row, ss'[|ls'|].monitors[k].row;
            r'.history == r.history + {Build(r)} && r'.status == r.status
  {
    ss', ls' := Restart(ss, ls, k);
    ss', ls' := ScanBlind(ss', ls', k, ss'[|ls'|].monitors[k].pass.value);
    var q;
    ss', ls', q := GetReady(ss', ls', k, ss'[|ls'|].monitors[k].pass.value);
    ss', ls' := SignAhead(ss', ls', k, q);
  }
}
