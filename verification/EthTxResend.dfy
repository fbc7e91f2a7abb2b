/**
 Write-ahead: a signed transaction is stored in the history before it is handed to the
 network, and carries what the caller of `Add` asked for.
 */
module EthTxResend {
  import opened Wrappers
  import opened EthTxMachine

  function Truncated(value: Option<nat>): Option<nat> {
    if value.Some? then Some(value.value % U64) else None
  }

  // The fields of the request that every transaction of the row must carry.
  predicate Same(q: Request, r: Row) {
    && r.from == q.from && r.to == q.to && r.data == q.data
    && r.value == Truncated(q.value) && r.gasOffset == q.gasOffset
  }

  predicate Carries(q: Request, t: SignedTx) {
    t.from == q.from && t.to == q.to && t.data == q.data && t.value == Truncated(q.value)
  }

  ghost predicate RowAhead(q: Request, r: Row) {
    && Same(q, r)
    && (forall t :: t in r.history ==> Carries(q, t) && t.nonce <= r.nonce)
    && (r.blockNumber.Some? ==> Settled(r.status))
  }

  ghost predicate PassAhead(m: Monitor, p: Pass) {
    && RowAhead(m.request, p.mtx)
    && (if p.pc.HistoryWrite? then m.row.history <= p.mtx.history else m.row.history == p.mtx.history)
    && (Current(p.pc).Some? ==> Current(p.pc).value in p.mtx.history)
    && (Current(p.pc).Some? || p.pc.ReviewWrite? || p.pc.Signing? ==> !Settled(p.mtx.status))
    && (Settled(m.row.status) ==> Settled(p.mtx.status))
  }

  // Once a row is settled it is never signed again, so the copies that the owner and the
  // passes of a settled row hold all have its history.
  ghost predicate Ahead(m: Monitor) {
    && RowAhead(m.request, m.row)
    && (m.pass.Some? ==> PassAhead(m, m.pass.value))
    && (m.seen ==> Settled(m.row.status))
    && (m.owner.Some? ==>
          m.seen && RowAhead(m.request, m.owner.value) && m.owner.value.history == m.row.history)
    && (forall i :: 0 <= i < |m.sent| ==> m.sent[i] in m.row.history)
  }

  ghost predicate AllAhead(s: State) {
    forall k {:trigger Ahead(s.monitors[k])} :: k in s.monitors ==> Ahead(s.monitors[k])
  }

  /* ---------- preservation ---------- */

  lemma MoveKeepsAhead(m: Monitor, p: Pass, q: Pass)
    requires Ahead(m) && m.pass == Some(p) && Moves(p, q)
    ensures Ahead(m.(pass := Some(q)))
  {
  }

  lemma WriteKeepsAhead(m: Monitor, p: Pass, m': Monitor)
    requires Ahead(m) && m.pass == Some(p) && WriteStep(m, p) == Some(m')
    ensures Ahead(m')
  {
    assert Same(m.request, Persist(p.mtx));
    assert RowAhead(m.request, m'.row);
  }

  lemma SignKeepsAhead(m: Monitor, p: Pass, m': Monitor)
    requires Ahead(m) && m.pass == Some(p) && SignStep(m, p) == Some(m')
    ensures Ahead(m')
  {
  }

  lemma SendKeepsAhead(m: Monitor, p: Pass, ok: bool, m': Monitor)
    requires Ahead(m) && m.pass == Some(p) && SendStep(m, p, ok) == Some(m')
    ensures Ahead(m')
  {
  }

  lemma LocalKeepsAhead(e: Env, m: Monitor, a: Action, m': Monitor)
    requires Ahead(m) && LocalStep(e, m, a) == Some(m')
    ensures Ahead(m')
  {
    if a.OwnerSees? || a.OwnerReads? {
    } else if a.OwnerWrites? {
      assert Same(m.request, m'.row);
    } else {
      var p := m.pass.value;
      if a.Write? {
        WriteKeepsAhead(m, p, m');
      } else if a.Sign? {
        SignKeepsAhead(m, p, m');
      } else if a.Send? {
        SendKeepsAhead(m, p, a.ok, m');
      } else {
        OrdinaryStep(e, m, p, a, m');
        if m'.pass.Some? {
          MoveKeepsAhead(m, p, m'.pass.value);
        }
      }
    }
  }

  lemma ElsewhereKeepsAhead(l: Label, m: Monitor)
    requires Ahead(m)
    ensures Ahead(Elsewhere(l, m))
  {
  }

  lemma FreshIsAhead(l: Label)
    requires l.Add?
    ensures Ahead(Fresh(l))
  {
  }

  lemma StepKeepsAhead(s: State, l: Label, s': State)
    requires AllAhead(s) && Step(s, l) == Some(s')
    ensures AllAhead(s')
  {
    forall k | k in s'.monitors
      ensures Ahead(s'.monitors[k])
    {
      if l.Local? && l.key == k {
        LocalKeepsAhead(s.env, s.monitors[k], l.action, s'.monitors[k]);
      } else {
        OtherRow(s, l, s', k);
        if k in s.monitors {
          ElsewhereKeepsAhead(l, s.monitors[k]);
        } else {
          FreshIsAhead(l);
        }
      }
    }
  }

  lemma {:induction false} RunIsAhead(ss: seq<State>, ls: seq<Label>, n: nat)
    requires IsRun(ss, ls) && n <= |ls|
    ensures AllAhead(ss[n])
  {
    if n > 0 {
      RunIsAhead(ss, ls, n - 1);
      assert StepAt(ss, ls, n - 1);
      StepKeepsAhead(ss[n - 1], ls[n - 1], ss[n]);
    }
  }

  /* ---------- write-ahead ---------- */

  // In every run, whatever a `SendTx` step hands to the network is already in the stored
  // history and carries the caller's recipient and data, and the caller's value modulo 2^64.
  lemma SentIsWrittenAhead(ss: seq<State>, ls: seq<Label>, n: nat, k: Key, ok: bool)
    requires IsRun(ss, ls) && n < |ls| && ls[n] == Local(k, Send(ok))
    ensures k in ss[n].monitors && k in ss[n + 1].monitors
    ensures var m, m' := ss[n].monitors[k], ss[n + 1].monitors[k];
            && |m'.sent| == |m.sent| + 1
            && var t := m'.sent[|m.sent|];
            && m'.sent == m.sent + [t]
            && t in m.row.history
            && Carries(m.request, t)
  {
    RunIsAhead(ss, ls, n);
    assert StepAt(ss, ls, n);
    var m := ss[n].monitors[k];
    assert Ahead(m);
    var tx := m.pass.value.pc.tx;
    assert tx in m.row.history;
    assert ss[n + 1].monitors[k].sent == m.sent + [tx];
  }

  // The value survives the storage exactly when it fits a uint64.
  lemma ValueSurvivesIff(q: Request, t: SignedTx)
    requires Carries(q, t)
    ensures t.value == q.value <==> (q.value.Some? ==> q.value.value < U64)
  {
  }

  lemma LocalHistoryGrows(e: Env, m: Monitor, a: Action, m': Monitor)
    requires Ahead(m) && LocalStep(e, m, a) == Some(m')
    ensures m.row.history <= m'.row.history && m.sent <= m'.sent && m'.request == m.request
  {
    if !(a.OwnerSees? || a.OwnerReads? || a.OwnerWrites? || a.Write? || a.Sign? || a.Send?) {
      OrdinaryStep(e, m, m.pass.value, a, m');
    }
  }

  // History hashes are never lost from a stored row.
  lemma HistoryOnlyGrows(s: State, l: Label, s': State, k: Key)
    requires AllAhead(s) && Step(s, l) == Some(s') && k in s.monitors
    ensures k in s'.monitors && s.monitors[k].row.history <= s'.monitors[k].row.history
    ensures s.monitors[k].sent <= s'.monitors[k].sent && s'.monitors[k].request == s.monitors[k].request
  {
    if l.Local? && l.key == k {
      LocalHistoryGrows(s.env, s.monitors[k], l.action, s'.monitors[k]);
    }
  }

  /* ---------- what a later transaction is built from ---------- */

  // Raising the gas of a row raises the gas limit of its transaction exactly when the
  // sum with the offset does not wrap.
  lemma GasLimitRisesIff(r: Row, gas: nat)
    requires r.gas <= gas < U64 && r.gasOffset < U64 && r.gas + r.gasOffset < U64
    ensures Build(r.(gas := gas)).gas >= Build(r).gas <==> gas + r.gasOffset < U64
  {
  }

  // A row read back signs to the same transaction exactly when value and gas price fit.
  lemma RereadSignsTheSameIff(r: Row)
    ensures Build(Persist(r)) == Build(r) <==> r.gasPrice < U64 && (r.value.Some? ==> r.value.value < U64)
  {
  }

  /* ---------- what is stored fits ---------- */

  // The columns are read back into uint64.
  predicate Stored64(r: Row) {
    r.gas < U64 && r.gasOffset < U64 && r.gasPrice < U64 && (r.value.Some? ==> r.value.value < U64)
  }

  // A pass may hold a gas price that is not cut yet.
  ghost predicate Fits64(m: Monitor) {
    && Stored64(m.row) && (m.owner.Some? ==> Stored64(m.owner.value))
    && (m.pass.Some? ==> m.pass.value.mtx.gas < U64 && m.pass.value.mtx.gasOffset < U64)
  }

  lemma PassKeepsFits(e: Env, m: Monitor, p: Pass, a: Action, m': Monitor)
    requires Fits64(m) && m.pass == Some(p) && PassStep(e, m, p, a) == Some(m')
    requires !a.Lookup? && !a.Settle? && !a.Write?
    ensures Fits64(m')
  {
  }

  lemma LocalKeepsFits(e: Env, m: Monitor, a: Action, m': Monitor)
    requires Fits64(m) && LocalStep(e, m, a) == Some(m')
    ensures Fits64(m')
  {
    if a.OwnerSees? || a.OwnerReads? || a.OwnerWrites? {
    } else if a.Lookup? {
      LookupMoves(e, m, m.pass.value, a, m');
    } else if a.Settle? {
      SettleMoves(e, m, m.pass.value, a.goOn, m');
    } else if a.Write? {
    } else {
      PassKeepsFits(e, m, m.pass.value, a, m');
    }
  }

  // In every run the numbers of a stored row are uint64, although estimates are added and
  // suggested prices and values are not bounded.
  lemma {:induction false} StoredRowsFit(ss: seq<State>, ls: seq<Label>, n: nat, k: Key)
    requires IsRun(ss, ls) && n <= |ls| && k in ss[n].monitors
    ensures Fits64(ss[n].monitors[k])
    ensures var r := ss[n].monitors[k].row;
            && r.gas < 0x1_0000_0000_0000_0000 && r.gasPrice < 0x1_0000_0000_0000_0000
            && r.gasOffset < 0x1_0000_0000_0000_0000 && (r.value.Some? ==> r.value.value < 0x1_0000_0000_0000_0000)
  {
    if n > 0 {
      assert StepAt(ss, ls, n - 1);
      var s, l, s' := ss[n - 1], ls[n - 1], ss[n];
      if l.Local? && l.key == k {
        StoredRowsFit(ss, ls, n - 1, k);
        LocalKeepsFits(s.env, s.monitors[k], l.action, s'.monitors[k]);
      } else {
        OtherRow(s, l, s', k);
        if k in s.monitors {
          StoredRowsFit(ss, ls, n - 1, k);
        }
      }
    }
  }
}
