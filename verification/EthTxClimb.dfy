/**
 Monotone resend: when later transactions of a row never lower the nonce, the gas limit
 or the gas price.

 A pass signs what the stored row says, before the price is cut to a uint64 by the
 storage. So what is sent goes up as long as the stored row does not fall below it, and
 once it does the next pass can send less.
 */
module EthTxClimb {
  import opened Wrappers
  import opened EthTxMachine
  import opened EthTxResend
  import opened EthTxOnce

  predicate NotAbove(t: SignedTx, u: SignedTx) {
    t.nonce <= u.nonce && t.gas <= u.gas && t.gasPrice <= u.gasPrice
  }

  ghost predicate Climbing(sent: seq<SignedTx>) {
    forall i, j :: 0 <= i < j < |sent| ==> NotAbove(sent[i], sent[j])
  }

  ghost predicate AllBelow(sent: seq<SignedTx>, u: SignedTx) {
    forall i :: 0 <= i < |sent| ==> NotAbove(sent[i], u)
  }

  // What the stored row would be signed as is not below anything sent for it.
  ghost predicate Covers(m: Monitor) {
    !Settled(m.row.status) ==> AllBelow(m.sent, Build(m.row))
  }

  /* ---------- the stored row and the copy of a pass ---------- */

  predicate Aligned(r: Row, s: Row) {
    r.nonce == s.nonce && r.gas == s.gas && r.gasOffset == s.gasOffset && r.gasPrice == s.gasPrice % U64
  }

  predicate Under(r: Row, s: Row) {
    r.nonce <= s.nonce && r.gas <= s.gas && r.gasOffset == s.gasOffset && r.gasPrice <= s.gasPrice
  }

  // The copy is the stored row up to the cut of the price, except while a new nonce or a
  // review is about to be written.
  predicate PassLinked(r: Row, p: Pass) {
    && (Current(p.pc).Some? ==> Current(p.pc).value == Build(p.mtx))
    && (Settled(p.mtx.status) || (Under(r, p.mtx) && (p.pc.NonceWrite? || p.pc.ReviewWrite? || Aligned(r, p.mtx))))
  }

  predicate Linked(m: Monitor) {
    && m.row.gasPrice < U64
    && (m.owner.Some? ==> m.owner.value.gasPrice < U64)
    && (m.pass.Some? ==> PassLinked(m.row, m.pass.value))
  }

  ghost predicate AllLinked(s: State) {
    forall k {:trigger Linked(s.monitors[k])} :: k in s.monitors ==> Linked(s.monitors[k])
  }

  lemma MoveKeepsLinked(m: Monitor, p: Pass, q: Pass)
    requires Linked(m) && m.pass == Some(p) && Moves(p, q)
    ensures Linked(m.(pass := Some(q)))
  {
  }

  lemma WriteKeepsLinked(m: Monitor, p: Pass, m': Monitor)
    requires Linked(m) && m.pass == Some(p) && WriteStep(m, p) == Some(m')
    ensures Linked(m')
  {
  }

  lemma SignKeepsLinked(m: Monitor, p: Pass, m': Monitor)
    requires Linked(m) && m.pass == Some(p) && SignStep(m, p) == Some(m')
    ensures Linked(m')
  {
  }

  lemma LocalKeepsLinked(e: Env, m: Monitor, a: Action, m': Monitor)
    requires Ahead(m) && Linked(m) && LocalStep(e, m, a) == Some(m')
    ensures Linked(m')
  {
    if a.OwnerSees? || a.OwnerReads? || a.OwnerWrites? {
    } else if a.Write? {
      WriteKeepsLinked(m, m.pass.value, m');
    } else if a.Sign? {
      SignKeepsLinked(m, m.pass.value, m');
    } else if !a.Send? {
      OrdinaryStep(e, m, m.pass.value, a, m');
      if m'.pass.Some? {
        MoveKeepsLinked(m, m.pass.value, m'.pass.value);
      }
    }
  }

  lemma ElsewhereKeepsLinked(l: Label, m: Monitor)
    requires Ahead(m) && Linked(m)
    ensures Linked(Elsewhere(l, m))
  {
  }

  lemma StepKeepsLinked(s: State, l: Label, s': State)
    requires AllAhead(s) && AllLinked(s) && Step(s, l) == Some(s')
    ensures AllLinked(s')
  {
    forall k | k in s'.monitors
      ensures Linked(s'.monitors[k])
    {
      if l.Local? && l.key == k {
        LocalKeepsLinked(s.env, s.monitors[k], l.action, s'.monitors[k]);
      } else {
        OtherRow(s, l, s', k);
        if k in s.monitors {
          ElsewhereKeepsLinked(l, s.monitors[k]);
        }
      }
    }
  }

  lemma {:induction false} RunIsLinked(ss: seq<State>, ls: seq<Label>, n: nat)
    requires IsRun(ss, ls) && n <= |ls|
    ensures AllLinked(ss[n])
  {
    if n > 0 {
      RunIsLinked(ss, ls, n - 1);
      RunIsAhead(ss, ls, n - 1);
      assert StepAt(ss, ls, n - 1);
      StepKeepsLinked(ss[n - 1], ls[n - 1], ss[n]);
    }
  }

  /* ---------- covered sends climb ---------- */

  ghost predicate CoveredSend(s: State, l: Label) {
    l.Local? && l.action.Send? && l.key in s.monitors ==> Covers(s.monitors[l.key])
  }

  lemma SentOnlyBySend(s: State, l: Label, s': State, k: Key)
    requires AllAhead(s) && Step(s, l) == Some(s') && k in s.monitors
    requires !(l.Local? && l.key == k && l.action.Send?)
    ensures k in s'.monitors && s'.monitors[k].sent == s.monitors[k].sent
  {
    if l.Local? && l.key == k {
      var m, a := s.monitors[k], l.action;
      if !(a.OwnerSees? || a.OwnerReads? || a.OwnerWrites? || a.Write? || a.Sign?) {
        OrdinaryStep(s.env, m, m.pass.value, a, s'.monitors[k]);
      }
    }
  }

  lemma CoveredSendClimbs(m: Monitor, p: Pass, ok: bool, m': Monitor)
    requires Ahead(m) && Linked(m) && Covers(m) && Climbing(m.sent)
    requires m.pass == Some(p) && SendStep(m, p, ok) == Some(m')
    ensures Climbing(m'.sent)
  {
    assert !Settled(m.row.status) && m'.sent == m.sent + [Build(p.mtx)];
    assert NotAbove(Build(m.row), Build(p.mtx));
    forall i | 0 <= i < |m.sent|
      ensures NotAbove(m.sent[i], Build(p.mtx))
    {
      assert NotAbove(m.sent[i], Build(m.row));
    }
  }

  // Nothing sent later is below anything sent before, if every send finds the stored row
  // not below what was sent.
  lemma {:induction false} CoveredSendsClimb(ss: seq<State>, ls: seq<Label>, n: nat, k: Key)
    requires IsRun(ss, ls) && n <= |ls| && k in ss[n].monitors
    requires forall i :: 0 <= i < n ==> CoveredSend(ss[i], ls[i])
    ensures Climbing(ss[n].monitors[k].sent)
  {
    if n > 0 {
      var s, l, s' := ss[n - 1], ls[n - 1], ss[n];
      assert StepAt(ss, ls, n - 1);
      if k in s.monitors {
        CoveredSendsClimb(ss, ls, n - 1, k);
        RunIsAhead(ss, ls, n - 1);
        RunIsLinked(ss, ls, n - 1);
        if l.Local? && l.key == k && l.action.Send? {
          CoveredSendClimbs(s.monitors[k], s.monitors[k].pass.value, l.action.ok, s'.monitors[k]);
        } else {
          SentOnlyBySend(s, l, s', k);
        }
      }
    }
  }

  /* ---------- and otherwise the next one can fall ---------- */

  // From a pass that is about to sign to the transaction being handed over.
  lemma SignAndSend(ss: seq<State>, ls: seq<Label>, k: Key, p: Pass) returns (ss': seq<State>, ls': seq<Label>)
    requires IsRun(ss, ls) && k in ss[|ls|].monitors && ss[|ls|].monitors[k].pass == Some(p)
    requires (p.pc.Ready? && p.mtx.status == Created) || p.pc.Signing?
    ensures IsRun(ss', ls') && ls <= ls' && k in ss'[|ls'|].monitors
    ensures ss'[|ls'|].monitors[k].sent == ss[|ls|].monitors[k].sent + [Build(p.mtx)]
  {
    var u := Build(p.mtx);
    if u in p.mtx.history {
      ss', ls' := ActOn(ss, ls, k, Sign, ss[|ls|].monitors[k].(pass := Some(Pass(p.mtx, p.base, Checking(u)))));
    } else {
      ss', ls' := SignAhead(ss, ls, k, p);
    }
    ss', ls' := HandOver(ss', ls', k, ss'[|ls'|].monitors[k].pass.value);
  }

  // Whenever a row that can be signed is stored below something sent, the run can be
  // continued so that less is sent than before.
  lemma UncoveredFalls(ss: seq<State>, ls: seq<Label>, k: Key) returns (ss': seq<State>, ls': seq<Label>)
    requires IsRun(ss, ls) && k in ss[|ls|].monitors && !Covers(ss[|ls|].monitors[k])
    ensures IsRun(ss', ls') && ls <= ls' && k in ss'[|ls'|].monitors
    ensures ss'[|ls'|].monitors[k].sent ==
            ss[|ls|].monitors[k].sent + [Build(ss[|ls|].monitors[k].row)]
    ensures !Climbing(ss'[|ls'|].monitors[k].sent)
  {
    var m := ss[|ls|].monitors[k];
    ss', ls' := Restart(ss, ls, k);
    ss', ls' := ScanBlind(ss', ls', k, ss'[|ls'|].monitors[k].pass.value);
    var q;
    ss', ls', q := GetReady(ss', ls', k, ss'[|ls'|].monitors[k].pass.value);
    ss', ls' := SignAndSend(ss', ls', k, q);
    var sent := ss'[|ls'|].monitors[k].sent;
    var i :| 0 <= i < |m.sent| && !NotAbove(m.sent[i], Build(m.row));
    assert sent[i] == m.sent[i] && sent[|m.sent|] == Build(m.row);
  }

  /* ---------- when the stored row stays up ---------- */

  // Handing over a transaction leaves the stored row not below it if and only if its gas
  // price fits the storage.
  lemma SendCoversIff(m: Monitor, p: Pass, ok: bool, m': Monitor)
    requires Ahead(m) && Linked(m) && Covers(m) && m.pass == Some(p) && SendStep(m, p, ok) == Some(m')
    ensures Covers(m') <==> p.mtx.gasPrice < U64
  {
    var u := Build(p.mtx);
    assert m'.sent == m.sent + [u] && m'.row == m.row;
    assert p.mtx.gasPrice < U64 <==> NotAbove(u, Build(m.row));
    if p.mtx.gasPrice < U64 {
      forall i | 0 <= i < |m'.sent|
        ensures NotAbove(m'.sent[i], Build(m.row))
      {
        assert i < |m.sent| ==> NotAbove(m.sent[i], Build(m.row));
      }
    } else {
      assert m'.sent[|m.sent|] == u;
    }
  }

  // Storing a review leaves it so if and only if neither the cut price nor the wrapped gas
  // limit falls below something sent.
  lemma ReviewCoversIff(m: Monitor, p: Pass, m': Monitor)
    requires Ahead(m) && Linked(m) && Covers(m) && m.pass == Some(p) && p.pc.ReviewWrite? && WriteStep(m, p) == Some(m')
    ensures Covers(m') <==>
            forall i :: 0 <= i < |m.sent| ==>
              m.sent[i].gasPrice <= p.mtx.gasPrice % U64 && m.sent[i].gas <= (p.mtx.gas + p.mtx.gasOffset) % U64
  {
  }

  /* ---------- answers that fit ---------- */

  // The gas estimates and gas prices the network answers with fit their 64 bits.
  predicate ActionFits(m: Monitor, a: Action) {
    a.Review? ==> a.estimate + m.request.gasOffset < U64 && a.price < U64
  }

  ghost predicate LabelFits(s: State, l: Label) {
    && (l.Add? ==> l.gas + l.request.gasOffset < U64)
    && (l.Local? && l.key in s.monitors ==> ActionFits(s.monitors[l.key], l.action))
  }

  predicate RowFits(r: Row) {
    !Settled(r.status) ==> r.gas + r.gasOffset < U64 && r.gasPrice < U64
  }

  // Nothing wraps around, and nothing sent is above the stored row.
  ghost predicate Rising(m: Monitor) {
    && Covers(m) && RowFits(m.row)
    && (m.pass.Some? ==> RowFits(m.pass.value.mtx))
  }

  ghost predicate AllRising(s: State) {
    forall k {:trigger Rising(s.monitors[k])} :: k in s.monitors ==> Rising(s.monitors[k])
  }

  lemma WriteKeepsRising(m: Monitor, p: Pass, m': Monitor)
    requires Ahead(m) && Linked(m) && Rising(m) && m.pass == Some(p) && WriteStep(m, p) == Some(m')
    ensures Rising(m')
  {
    if !Settled(p.mtx.status) {
      WriteFits(m, p, m');
      BelowMore(m.sent, Build(m.row), Build(m'.row));
    }
  }

  lemma BelowMore(sent: seq<SignedTx>, u: SignedTx, v: SignedTx)
    requires AllBelow(sent, u) && NotAbove(u, v)
    ensures AllBelow(sent, v)
  {
  }

  lemma WriteFits(m: Monitor, p: Pass, m': Monitor)
    requires Ahead(m) && Linked(m) && RowFits(m.row) && RowFits(p.mtx) && m.pass == Some(p) && WriteStep(m, p) == Some(m')
    requires !Settled(p.mtx.status)
    ensures !Settled(m.row.status) && NotAbove(Build(m.row), Build(m'.row)) && RowFits(m'.row)
  {
  }

  lemma ReviewFits(e: Env, m: Monitor, p: Pass, a: Action, m': Monitor)
    requires Ahead(m) && Rising(m) && m.pass == Some(p) && a.Review? && ActionFits(m, a)
    requires PassStep(e, m, p, a) == Some(m')
    ensures m'.pass.Some? && RowFits(m'.pass.value.mtx)
  {
  }

  lemma MoveKeepsRising(m: Monitor, p: Pass, q: Pass)
    requires Rising(m) && m.pass == Some(p) && Moves(p, q) && (q.pc.ReviewWrite? ==> RowFits(q.mtx))
    ensures Rising(m.(pass := Some(q)))
  {
  }

  lemma LocalKeepsRising(e: Env, m: Monitor, a: Action, m': Monitor)
    requires Ahead(m) && Linked(m) && Rising(m) && ActionFits(m, a) && LocalStep(e, m, a) == Some(m')
    ensures Rising(m')
  {
    if a.OwnerSees? || a.OwnerReads? || a.OwnerWrites? || a.Sign? {
    } else if a.Write? {
      WriteKeepsRising(m, m.pass.value, m');
    } else if a.Send? {
      SendCoversIff(m, m.pass.value, a.ok, m');
    } else {
      OrdinaryStep(e, m, m.pass.value, a, m');
      if m'.pass.Some? {
        if a.Review? {
          ReviewFits(e, m, m.pass.value, a, m');
        }
        MoveKeepsRising(m, m.pass.value, m'.pass.value);
      }
    }
  }

  lemma ElsewhereKeepsRising(l: Label, m: Monitor)
    requires Ahead(m) && Rising(m)
    ensures Rising(Elsewhere(l, m))
  {
  }

  lemma StepKeepsRising(s: State, l: Label, s': State)
    requires AllAhead(s) && AllLinked(s) && AllRising(s) && LabelFits(s, l) && Step(s, l) == Some(s')
    ensures AllRising(s')
  {
    forall k | k in s'.monitors
      ensures Rising(s'.monitors[k])
    {
      if l.Local? && l.key == k {
        LocalKeepsRising(s.env, s.monitors[k], l.action, s'.monitors[k]);
      } else {
        OtherRow(s, l, s', k);
        if k in s.monitors {
          ElsewhereKeepsRising(l, s.monitors[k]);
        }
      }
    }
  }

  lemma {:induction false} RunIsRising(ss: seq<State>, ls: seq<Label>, n: nat)
    requires IsRun(ss, ls) && n <= |ls|
    requires forall i :: 0 <= i < n ==> LabelFits(ss[i], ls[i])
    ensures AllRising(ss[n])
  {
    if n > 0 {
      RunIsRising(ss, ls, n - 1);
      RunIsAhead(ss, ls, n - 1);
      RunIsLinked(ss, ls, n - 1);
      assert StepAt(ss, ls, n - 1);
      StepKeepsRising(ss[n - 1], ls[n - 1], ss[n]);
    }
  }

  // Then nothing sent later has a lower nonce, gas limit or gas price than anything sent
  // before.
  lemma MonotoneResend(ss: seq<State>, ls: seq<Label>, n: nat, k: Key, i: nat, j: nat)
    requires IsRun(ss, ls) && n <= |ls|
    requires forall x :: 0 <= x < n ==> LabelFits(ss[x], ls[x])
    requires k in ss[n].monitors && i < j < |ss[n].monitors[k].sent|
    ensures var sent := ss[n].monitors[k].sent;
            sent[i].nonce <= sent[j].nonce && sent[i].gas <= sent[j].gas && sent[i].gasPrice <= sent[j].gasPrice
  {
    forall x | 0 <= x < n
      ensures CoveredSend(ss[x], ls[x])
    {
      RunIsRising(ss, ls, x);
      if ls[x].Local? && ls[x].key in ss[x].monitors {
        assert Rising(ss[x].monitors[ls[x].key]);
      }
    }
    CoveredSendsClimb(ss, ls, n, k);
    assert NotAbove(ss[n].monitors[k].sent[i], ss[n].monitors[k].sent[j]);
  }
}
