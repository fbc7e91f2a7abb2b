/**
 At-most-once landing.

 The chain mines one transaction per sender nonce and never un-mines. A history
 transaction that carries a nonce below the row's current one is mined and failed, so
 only the current nonce can still land, and only once.
 */
module EthTxLanding {
  import opened Wrappers
  import opened EthTxMachine
  import opened EthTxResend
  import opened EthTxOnce

  // The nonce of a row moves past a history transaction only once that transaction is
  // mined and failed.
  ghost predicate RowSafe(c: Chain, r: Row) {
    forall t :: t in r.history ==>
      && t.from == r.from
      && t.nonce <= r.nonce
      && (t.nonce < r.nonce ==> MinedFailed(c, t))
  }

  ghost predicate AllFailed(c: Chain, ts: set<SignedTx>) {
    forall t :: t in ts ==> MinedFailed(c, t)
  }

  // What the flags of the history scan mean while the scan is running.
  ghost predicate ScanSafe(c: Chain, p: Pass) {
    match p.pc
    case Scanning(todo, _, allMined) =>
      todo <= p.mtx.history && (allMined ==> AllFailed(c, p.mtx.history - todo))
    case NonceRead => AllFailed(c, p.mtx.history)
    case _ => true
  }

  ghost predicate Safe(c: Chain, m: Monitor) {
    && RowSafe(c, m.row)
    && (m.pass.Some? ==> RowSafe(c, m.pass.value.mtx) && ScanSafe(c, m.pass.value))
    && (m.owner.Some? ==> RowSafe(c, m.owner.value))
  }

  ghost predicate AllSafe(s: State) {
    forall k {:trigger Safe(s.env.chain, s.monitors[k])} :: k in s.monitors ==> Safe(s.env.chain, s.monitors[k])
  }

  // The lookups the theorem relies on: `CheckTxWasMined` may fail only for hashes the
  // row's nonce has already moved past.
  ghost predicate Answers(m: Monitor, a: Action) {
    a.Lookup? && !a.answered && m.pass.Some? ==> a.tx.nonce < m.pass.value.mtx.nonce
  }

  ghost predicate LabelAnswers(s: State, l: Label) {
    l.Local? && l.key in s.monitors ==> Answers(s.monitors[l.key], l.action)
  }

  /* ---------- preservation ---------- */

  lemma RowSafeGrows(c: Chain, d: Chain, r: Row)
    requires Extends(c, d) && RowSafe(c, r)
    ensures RowSafe(d, r)
  {
  }

  lemma AllFailedGrows(c: Chain, d: Chain, ts: set<SignedTx>)
    requires Extends(c, d) && AllFailed(c, ts)
    ensures AllFailed(d, ts)
  {
  }

  lemma SafeGrows(c: Chain, d: Chain, m: Monitor)
    requires Extends(c, d) && Safe(c, m)
    ensures Safe(d, m)
  {
    RowSafeGrows(c, d, m.row);
    if m.owner.Some? {
      RowSafeGrows(c, d, m.owner.value);
    }
    if m.pass.Some? {
      var p := m.pass.value;
      RowSafeGrows(c, d, p.mtx);
      if p.pc.NonceRead? {
        AllFailedGrows(c, d, p.mtx.history);
      } else if p.pc.Scanning? && p.pc.allMined {
        AllFailedGrows(c, d, p.mtx.history - p.pc.todo);
      }
    }
  }

  lemma LookupKeepsSafe(e: Env, m: Monitor, p: Pass, a: Action, m': Monitor)
    requires Safe(e.chain, m) && m.pass == Some(p) && a.Lookup? && Answers(m, a)
    requires LookupStep(e, m, p, a.tx, a.answered) == Some(m')
    ensures Safe(e.chain, m')
  {
  }

  // Reading the sender's nonce when everything signed so far has failed.
  lemma ReadNonceKeepsSafe(e: Env, m: Monitor, p: Pass, m': Monitor)
    requires Safe(e.chain, m) && m.pass == Some(p)
    requires PassStep(e, m, p, ReadNonce) == Some(m')
    ensures Safe(e.chain, m')
  {
  }

  lemma MoveKeepsSafe(e: Env, m: Monitor, p: Pass, q: Pass)
    requires Safe(e.chain, m) && m.pass == Some(p) && Moves(p, q)
    requires p.mtx.nonce == q.mtx.nonce && ScanSafe(e.chain, q)
    ensures Safe(e.chain, m.(pass := Some(q)))
  {
  }

  lemma WriteKeepsSafe(e: Env, m: Monitor, p: Pass, m': Monitor)
    requires Safe(e.chain, m) && m.pass == Some(p) && WriteStep(m, p) == Some(m')
    ensures Safe(e.chain, m')
  {
    assert RowSafe(e.chain, Persist(p.mtx));
  }

  lemma SignKeepsSafe(e: Env, m: Monitor, p: Pass, m': Monitor)
    requires Safe(e.chain, m) && m.pass == Some(p) && SignStep(m, p) == Some(m')
    ensures Safe(e.chain, m')
  {
  }

  lemma EndScanKeepsSafe(e: Env, m: Monitor, p: Pass, m': Monitor)
    requires Safe(e.chain, m) && m.pass == Some(p) && PassStep(e, m, p, EndScan) == Some(m')
    ensures Safe(e.chain, m')
  {
    assert p.mtx.history - p.pc.todo == p.mtx.history;
  }

  lemma RestKeepsSafe(e: Env, m: Monitor, p: Pass, a: Action, m': Monitor)
    requires Safe(e.chain, m) && m.pass == Some(p) && PassStep(e, m, p, a) == Some(m')
    requires !a.Lookup? && !a.ReadNonce? && !a.Write? && !a.Sign? && !a.Send? && !a.EndScan?
    ensures Safe(e.chain, m')
  {
    OrdinaryStep(e, m, p, a, m');
    if m'.pass.Some? {
      MoveKeepsSafe(e, m, p, m'.pass.value);
    }
  }

  lemma LocalKeepsSafe(e: Env, m: Monitor, a: Action, m': Monitor)
    requires Safe(e.chain, m) && Answers(m, a) && LocalStep(e, m, a) == Some(m')
    ensures Safe(e.chain, m')
  {
    if a.OwnerSees? || a.OwnerReads? || a.OwnerWrites? || a.Send? {
    } else {
      var p := m.pass.value;
      if a.Lookup? {
        LookupKeepsSafe(e, m, p, a, m');
      } else if a.ReadNonce? {
        ReadNonceKeepsSafe(e, m, p, m');
      } else if a.Write? {
        WriteKeepsSafe(e, m, p, m');
      } else if a.Sign? {
        SignKeepsSafe(e, m, p, m');
      } else if a.EndScan? {
        EndScanKeepsSafe(e, m, p, m');
      } else {
        RestKeepsSafe(e, m, p, a, m');
      }
    }
  }

  lemma ElsewhereKeepsSafe(c: Chain, l: Label, m: Monitor)
    requires Safe(c, m)
    ensures Safe(c, Elsewhere(l, m))
  {
  }

  lemma StepKeepsSafe(s: State, l: Label, s': State)
    requires AllSafe(s) && LabelAnswers(s, l) && Step(s, l) == Some(s') && !l.Unmine?
    ensures AllSafe(s')
  {
    forall k | k in s'.monitors
      ensures Safe(s'.env.chain, s'.monitors[k])
    {
      if l.Mine? {
        MineExtends(s.env.chain, l.tx, l.success, l.block);
        SafeGrows(s.env.chain, s'.env.chain, s.monitors[k]);
      } else if l.Local? && l.key == k {
        LocalKeepsSafe(s.env, s.monitors[k], l.action, s'.monitors[k]);
      } else {
        OtherRow(s, l, s', k);
        if k in s.monitors {
          ElsewhereKeepsSafe(s.env.chain, l, s.monitors[k]);
        }
      }
    }
  }

  lemma {:induction false} RunIsSafe(ss: seq<State>, ls: seq<Label>, n: nat)
    requires IsRun(ss, ls) && n <= |ls| && NeverDrops(ls, n)
    requires forall i :: 0 <= i < n ==> LabelAnswers(ss[i], ls[i])
    ensures AllSafe(ss[n])
  {
    if n > 0 {
      RunIsSafe(ss, ls, n - 1);
      assert StepAt(ss, ls, n - 1);
      StepKeepsSafe(ss[n - 1], ls[n - 1], ss[n]);
    }
  }

  /* ---------- what the invariant is for ---------- */

  // When lookups answer, the nonce is read only after every history transaction failed.
  lemma AnswersReadClean(ss: seq<State>, ls: seq<Label>, n: nat)
    requires IsRun(ss, ls) && n < |ls| && NeverDrops(ls, n)
    requires forall i :: 0 <= i < n ==> LabelAnswers(ss[i], ls[i])
    ensures CleanRead(ss[n], ls[n])
  {
    RunIsSafe(ss, ls, n);
    if ls[n].Local? && ls[n].key in ss[n].monitors {
      assert Safe(ss[n].env.chain, ss[n].monitors[ls[n].key]);
    }
  }

  // In every interleaving whose lookups answer and in which L1 drops nothing, at most one of the transactions ever
  // signed for a monitored transaction succeeds.
  lemma AtMostOneLanding(ss: seq<State>, ls: seq<Label>, n: nat, k: Key, t: SignedTx, u: SignedTx)
    requires IsRun(ss, ls) && n <= |ls| && NeverDrops(ls, n)
    requires forall i :: 0 <= i < n ==> LabelAnswers(ss[i], ls[i])
    requires k in ss[n].monitors
    requires t in Signed(ss[n].monitors[k]) && u in Signed(ss[n].monitors[k])
    requires Succeeded(ss[n].env.chain, t) && Succeeded(ss[n].env.chain, u)
    ensures t == u
  {
    forall i | 0 <= i < n
      ensures CleanRead(ss[i], ls[i]) && KeepsNonces(ss[i], ls[i])
    {
      AnswersReadClean(ss, ls, i);
    }
    CleanReadsLandOnce(ss, ls, n, k, t, u);
  }

  // The stored nonce moves on only past failures.
  lemma NonceMovesPastFailures(ss: seq<State>, ls: seq<Label>, n: nat, k: Key, t: SignedTx)
    requires IsRun(ss, ls) && n <= |ls| && NeverDrops(ls, n)
    requires forall i :: 0 <= i < n ==> LabelAnswers(ss[i], ls[i])
    requires k in ss[n].monitors && t in ss[n].monitors[k].row.history
    requires t.nonce < ss[n].monitors[k].row.nonce
    ensures MinedFailed(ss[n].env.chain, t)
  {
    RunIsSafe(ss, ls, n);
    assert Safe(ss[n].env.chain, ss[n].monitors[k]);
  }

  /* ---------- a displaced transaction stops its row ---------- */

  // Another transaction of the sender was mined with the nonce of `t`.
  predicate Displaced(c: Chain, t: SignedTx) {
    t.nonce < |Txs(c, t.from)| && !IsMined(c, t)
  }

  lemma StepGrows(s: State, l: Label, s': State, k: Key)
    requires AllAhead(s) && Step(s, l) == Some(s') && k in s.monitors && !l.Unmine?
    ensures k in s'.monitors && s'.monitors[k].request == s.monitors[k].request
    ensures s.monitors[k].row.history <= s'.monitors[k].row.history
    ensures Extends(s.env.chain, s'.env.chain)
  {
    HistoryOnlyGrows(s, l, s', k);
    if l.Mine? {
      MineExtends(s.env.chain, l.tx, l.success, l.block);
    }
  }

  lemma {:induction false} HistoryAndChainGrow(ss: seq<State>, ls: seq<Label>, i: nat, n: nat, k: Key)
    requires IsRun(ss, ls) && i <= n <= |ls| && k in ss[i].monitors && NeverDrops(ls, n)
    ensures k in ss[n].monitors && ss[n].monitors[k].request == ss[i].monitors[k].request
    ensures ss[i].monitors[k].row.history <= ss[n].monitors[k].row.history
    ensures Extends(ss[i].env.chain, ss[n].env.chain)
  {
    if i < n {
      HistoryAndChainGrow(ss, ls, i, n - 1, k);
      RunIsAhead(ss, ls, n - 1);
      assert StepAt(ss, ls, n - 1);
      StepGrows(ss[n - 1], ls[n - 1], ss[n], k);
    }
  }

  // Once a history transaction is displaced the row keeps its nonce forever, because not
  // all of its transactions are ever mined; and when the transaction that took the nonce
  // does not carry the request, nothing signed for the row ever lands.
  lemma DisplacedIsStuck(ss: seq<State>, ls: seq<Label>, i: nat, n: nat, k: Key, t: SignedTx)
    requires IsRun(ss, ls) && i <= n <= |ls| && NeverDrops(ls, n)
    requires forall j :: 0 <= j < n ==> LabelAnswers(ss[j], ls[j])
    requires k in ss[i].monitors && t in ss[i].monitors[k].row.history && Displaced(ss[i].env.chain, t)
    ensures k in ss[n].monitors && ss[n].monitors[k].row.nonce == t.nonce
    ensures !Carries(ss[i].monitors[k].request, Txs(ss[i].env.chain, t.from)[t.nonce].tx) ==>
              forall u :: u in Signed(ss[n].monitors[k]) ==> !Succeeded(ss[n].env.chain, u)
  {
    HistoryAndChainGrow(ss, ls, i, n, k);
    RunIsSafe(ss, ls, n);
    RunIsAhead(ss, ls, n);
    var m, c, d := ss[n].monitors[k], ss[i].env.chain, ss[n].env.chain;
    assert Safe(d, m) && Ahead(m);
    assert Txs(c, t.from) <= Txs(d, t.from) && Displaced(d, t);
    if !Carries(m.request, Txs(c, t.from)[t.nonce].tx) {
      forall u | u in Signed(m)
        ensures !Succeeded(d, u)
      {
        var r := if m.pass.Some? then m.pass.value.mtx else m.row;
        assert u in r.history && t in r.history && r.nonce == t.nonce;
        assert Carries(m.request, u);
      }
    }
  }
}
