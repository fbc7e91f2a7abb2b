/**
 What a confirmed, done or failed row stands for while L1 reorganises.

 A block number in a row, in a copy of it or in a receipt that a pass has found is
 witnessed by a receipt on the chain, up to the lowest block that L1 has dropped and the
 node has not rolled back yet.
 */
module EthTxWitness {
  import opened Wrappers
  import opened EthTxMachine
  import opened EthTxReorg
  import opened EthTxOnce

  // Some history transaction has a receipt at this block with this outcome.
  ghost predicate Witnessed(c: Chain, history: set<SignedTx>, block: nat, ok: bool) {
    exists t :: t in history && IsMined(c, t) && Receipt(c, t).success == ok && Receipt(c, t).block == block
  }

  predicate Between(lo: nat, hi: Option<nat>, x: nat) {
    lo <= x && (hi.Some? ==> x < hi.value)
  }

  // From `lo` to below `hi`, a block number that stands for the outcome `ok` is witnessed.
  ghost predicate RowHeld(c: Chain, lo: nat, hi: Option<nat>, ok: bool, r: Row) {
    r.blockNumber.Some? && (r.status != Failed) == ok && Between(lo, hi, r.blockNumber.value) ==>
      Witnessed(c, r.history, r.blockNumber.value, ok)
  }

  ghost predicate FoundHeld(c: Chain, lo: nat, hi: Option<nat>, ok: bool, p: Pass) {
    p.pc.Finalizing? && p.pc.receipt.success == ok && Between(lo, hi, p.pc.receipt.block) ==>
      Witnessed(c, p.mtx.history, p.pc.receipt.block, ok)
  }

  // What a pass and the owner have in hand: a receipt found, a receipt accepted and not yet
  // stored, a row read and not yet written.
  ghost predicate HandHeld(c: Chain, lo: nat, hi: Option<nat>, ok: bool, m: Monitor) {
    && (m.pass.Some? ==> RowHeld(c, lo, hi, ok, m.pass.value.mtx) && FoundHeld(c, lo, hi, ok, m.pass.value))
    && (m.owner.Some? ==> RowHeld(c, lo, hi, ok, m.owner.value))
  }

  ghost predicate Held(c: Chain, lo: nat, hi: Option<nat>, ok: bool, m: Monitor) {
    RowHeld(c, lo, hi, ok, m.row) && HandHeld(c, lo, hi, ok, m)
  }

  ghost predicate AllHeld(s: State, cut: Option<nat>, ok: bool) {
    forall k {:trigger Held(s.env.chain, 0, cut, ok, s.monitors[k])} :: k in s.monitors ==>
      Held(s.env.chain, 0, cut, ok, s.monitors[k])
  }

  /* ---------- what is dropped and not rolled back ---------- */

  // The lowest dropped block. Blocks above the synchronized head need no rollback; a
  // rollback to below the lowest dropped block takes back everything that was dropped.
  function CutAfter(s: State, l: Label, cut: Option<nat>): Option<nat> {
    if l.Unmine? && l.block <= s.env.synced then
      if cut.Some? && cut.value <= l.block then cut else Some(l.block)
    else if l.Rollback? && cut.Some? && l.block < cut.value then None
    else cut
  }

  function CutAt(ss: seq<State>, ls: seq<Label>, n: nat): Option<nat>
    requires n <= |ls| < |ss|
  {
    if n == 0 then None else CutAfter(ss[n - 1], ls[n - 1], CutAt(ss, ls, n - 1))
  }

  // When dropped blocks count as dealt with, nothing may be left over from them: after a
  // rollback no receipt in hand, after a drop above the synchronized head nothing at all,
  // unless its block has such a receipt on the new branch as well.
  ghost predicate Clean(s: State, l: Label, cut: Option<nat>, ok: bool) {
    && (l.Rollback? && cut.Some? && l.block < cut.value ==>
          forall k {:trigger HandHeld(s.env.chain, cut.value, None, ok, s.monitors[k])} :: k in s.monitors ==>
            HandHeld(s.env.chain, cut.value, None, ok, s.monitors[k]))
    && (l.Unmine? && l.block > s.env.synced ==>
          forall k {:trigger Held(l.chain, l.block, cut, ok, s.monitors[k])} :: k in s.monitors ==>
            Held(l.chain, l.block, cut, ok, s.monitors[k]))
  }

  /* ---------- preservation ---------- */

  lemma WitnessGrows(c: Chain, d: Chain, history: set<SignedTx>, block: nat, ok: bool)
    requires Extends(c, d) && Witnessed(c, history, block, ok)
    ensures Witnessed(d, history, block, ok)
  {
    var t :| t in history && IsMined(c, t) && Receipt(c, t).success == ok && Receipt(c, t).block == block;
    assert Txs(c, t.from) <= Txs(d, t.from);
  }

  // What lies below the dropped blocks stays.
  lemma WitnessSurvives(c: Chain, d: Chain, b: nat, history: set<SignedTx>, block: nat, ok: bool)
    requires Drops(c, d, b) && block < b && Witnessed(c, history, block, ok)
    ensures Witnessed(d, history, block, ok)
  {
    var t :| t in history && IsMined(c, t) && Receipt(c, t).success == ok && Receipt(c, t).block == block;
    assert t.from in c && Txs(d, t.from) <= c[t.from];
  }

  lemma HeldGrows(c: Chain, d: Chain, hi: Option<nat>, ok: bool, m: Monitor)
    requires Extends(c, d) && Held(c, 0, hi, ok, m)
    ensures Held(d, 0, hi, ok, m)
  {
    forall history, block | Witnessed(c, history, block, ok)
      ensures Witnessed(d, history, block, ok)
    {
      WitnessGrows(c, d, history, block, ok);
    }
  }

  lemma RowSurvivesIff(c: Chain, d: Chain, b: nat, hi: Option<nat>, ok: bool, r: Row)
    requires Drops(c, d, b) && RowHeld(c, 0, hi, ok, r)
    ensures RowHeld(d, 0, hi, ok, r) <==> RowHeld(d, b, hi, ok, r)
  {
    if r.blockNumber.Some? && r.blockNumber.value < b && Witnessed(c, r.history, r.blockNumber.value, ok) {
      WitnessSurvives(c, d, b, r.history, r.blockNumber.value, ok);
    }
  }

  lemma FoundSurvivesIff(c: Chain, d: Chain, b: nat, hi: Option<nat>, ok: bool, p: Pass)
    requires Drops(c, d, b) && FoundHeld(c, 0, hi, ok, p)
    ensures FoundHeld(d, 0, hi, ok, p) <==> FoundHeld(d, b, hi, ok, p)
  {
    if p.pc.Finalizing? && p.pc.receipt.block < b && Witnessed(c, p.mtx.history, p.pc.receipt.block, ok) {
      WitnessSurvives(c, d, b, p.mtx.history, p.pc.receipt.block, ok);
    }
  }

  lemma HeldSurvivesIff(c: Chain, d: Chain, b: nat, hi: Option<nat>, ok: bool, m: Monitor)
    requires Drops(c, d, b) && Held(c, 0, hi, ok, m)
    ensures Held(d, 0, hi, ok, m) <==> Held(d, b, hi, ok, m)
  {
    RowSurvivesIff(c, d, b, hi, ok, m.row);
    if m.pass.Some? {
      RowSurvivesIff(c, d, b, hi, ok, m.pass.value.mtx);
      FoundSurvivesIff(c, d, b, hi, ok, m.pass.value);
    }
    if m.owner.Some? {
      RowSurvivesIff(c, d, b, hi, ok, m.owner.value);
    }
  }

  // Nothing at or above a drop is claimed when the cut is lowered to it.
  lemma DropBelowHead(c: Chain, d: Chain, b: nat, cut: Option<nat>, cut': Option<nat>, ok: bool, m: Monitor)
    requires Drops(c, d, b) && Held(c, 0, cut, ok, m)
    requires cut'.Some? && cut'.value <= b && (cut.Some? ==> cut'.value <= cut.value)
    ensures Held(d, 0, cut', ok, m)
  {
    assert Held(c, 0, cut', ok, m);
    HeldSurvivesIff(c, d, b, cut', ok, m);
  }

  // A rollback to below the cut leaves no stored block number above it.
  lemma RollbackHeldIff(c: Chain, b: nat, cut: nat, ok: bool, m: Monitor)
    requires Held(c, 0, Some(cut), ok, m) && b < cut
    ensures var m' := m.(row := ReorgRow(m.row, b + 1));
            Held(c, 0, None, ok, m') <==> HandHeld(c, cut, None, ok, m)
  {
  }

  lemma FoundIsWitnessed(e: Env, p: Pass, t: SignedTx)
    requires t in p.mtx.history && IsMined(e.chain, t)
    ensures Witnessed(e.chain, p.mtx.history, Receipt(e.chain, t).block, Receipt(e.chain, t).success)
  {
  }

  lemma LookupKeepsHeld(e: Env, m: Monitor, p: Pass, a: Action, m': Monitor, cut: Option<nat>, ok: bool)
    requires Steady(m) && Held(e.chain, 0, cut, ok, m) && m.pass == Some(p)
    requires (a.Lookup? || a.FetchReceipt?) && PassStep(e, m, p, a) == Some(m')
    ensures Held(e.chain, 0, cut, ok, m')
  {
    var t := if a.Lookup? then a.tx else p.pc.tx;
    if IsMined(e.chain, t) {
      FoundIsWitnessed(e, p, t);
    }
  }

  lemma SettleKeepsHeld(e: Env, m: Monitor, p: Pass, goOn: bool, m': Monitor, cut: Option<nat>, ok: bool)
    requires Held(e.chain, 0, cut, ok, m) && m.pass == Some(p) && SettleStep(e, m, p, goOn) == Some(m')
    ensures Held(e.chain, 0, cut, ok, m')
  {
  }

  lemma WriteKeepsHeld(e: Env, m: Monitor, p: Pass, m': Monitor, cut: Option<nat>, ok: bool)
    requires Held(e.chain, 0, cut, ok, m) && m.pass == Some(p) && WriteStep(m, p) == Some(m')
    ensures Held(e.chain, 0, cut, ok, m')
  {
  }

  lemma RestKeepsHeld(e: Env, m: Monitor, p: Pass, a: Action, m': Monitor, cut: Option<nat>, ok: bool)
    requires Steady(m) && Held(e.chain, 0, cut, ok, m) && m.pass == Some(p) && PassStep(e, m, p, a) == Some(m')
    requires !a.Lookup? && !a.FetchReceipt? && !a.Settle? && !a.Write?
    ensures Held(e.chain, 0, cut, ok, m')
  {
  }

  lemma LocalKeepsHeld(e: Env, m: Monitor, a: Action, m': Monitor, cut: Option<nat>, ok: bool)
    requires Steady(m) && Held(e.chain, 0, cut, ok, m) && LocalStep(e, m, a) == Some(m')
    ensures Held(e.chain, 0, cut, ok, m')
  {
    if a.OwnerSees? || a.OwnerReads? || a.OwnerWrites? {
    } else if a.Lookup? || a.FetchReceipt? {
      LookupKeepsHeld(e, m, m.pass.value, a, m', cut, ok);
    } else if a.Settle? {
      SettleKeepsHeld(e, m, m.pass.value, a.goOn, m', cut, ok);
    } else if a.Write? {
      WriteKeepsHeld(e, m, m.pass.value, m', cut, ok);
    } else {
      RestKeepsHeld(e, m, m.pass.value, a, m', cut, ok);
    }
  }

  // A rollback that leaves the cut, and everything else that happens to a row from outside.
  lemma ElsewhereKeepsHeld(c: Chain, l: Label, m: Monitor, cut: Option<nat>, ok: bool)
    requires Held(c, 0, cut, ok, m)
    ensures Held(c, 0, cut, ok, Elsewhere(l, m))
  {
  }

  lemma DropStep(s: State, l: Label, s': State, cut: Option<nat>, ok: bool)
    requires AllHeld(s, cut, ok) && l.Unmine? && Step(s, l) == Some(s')
    ensures AllHeld(s', CutAfter(s, l, cut), ok) <==> Clean(s, l, cut, ok)
  {
    forall k | k in s.monitors
      ensures l.block > s.env.synced ==>
                (Held(l.chain, 0, cut, ok, s.monitors[k]) <==> Held(l.chain, l.block, cut, ok, s.monitors[k]))
      ensures l.block <= s.env.synced ==> Held(l.chain, 0, CutAfter(s, l, cut), ok, s.monitors[k])
    {
      assert Held(s.env.chain, 0, cut, ok, s.monitors[k]);
      if l.block > s.env.synced {
        HeldSurvivesIff(s.env.chain, l.chain, l.block, cut, ok, s.monitors[k]);
      } else {
        DropBelowHead(s.env.chain, l.chain, l.block, cut, CutAfter(s, l, cut), ok, s.monitors[k]);
      }
    }
  }

  lemma RollbackStep(s: State, l: Label, s': State, cut: Option<nat>, ok: bool)
    requires AllHeld(s, cut, ok) && l.Rollback? && cut.Some? && l.block < cut.value && Step(s, l) == Some(s')
    ensures AllHeld(s', None, ok) <==> Clean(s, l, cut, ok)
  {
    forall k | k in s.monitors
      ensures Held(s'.env.chain, 0, None, ok, s'.monitors[k]) <==> HandHeld(s.env.chain, cut.value, None, ok, s.monitors[k])
    {
      assert Held(s.env.chain, 0, cut, ok, s.monitors[k]);
      RollbackHeldIff(s.env.chain, l.block, cut.value, ok, s.monitors[k]);
    }
  }

  lemma OtherStepKeepsHeld(s: State, l: Label, s': State, cut: Option<nat>, ok: bool)
    requires AllSteady(s) && AllHeld(s, cut, ok) && Step(s, l) == Some(s') && !l.Unmine?
    ensures AllHeld(s', cut, ok)
  {
    forall k | k in s'.monitors
      ensures Held(s'.env.chain, 0, cut, ok, s'.monitors[k])
    {
      if l.Mine? {
        assert Held(s.env.chain, 0, cut, ok, s.monitors[k]);
        MineExtends(s.env.chain, l.tx, l.success, l.block);
        HeldGrows(s.env.chain, s'.env.chain, cut, ok, s.monitors[k]);
      } else if l.Local? && l.key == k {
        assert Steady(s.monitors[k]);
        LocalKeepsHeld(s.env, s.monitors[k], l.action, s'.monitors[k], cut, ok);
      } else {
        OtherRow(s, l, s', k);
        if k in s.monitors {
          ElsewhereKeepsHeld(s.env.chain, l, s.monitors[k], cut, ok);
        }
      }
    }
  }

  // Every step keeps what is held below the cut, except exactly those that count dropped
  // blocks as dealt with while something from them is left over.
  lemma StepKeepsHeldIff(s: State, l: Label, s': State, cut: Option<nat>, ok: bool)
    requires AllSteady(s) && AllHeld(s, cut, ok) && Step(s, l) == Some(s')
    ensures AllHeld(s', CutAfter(s, l, cut), ok) <==> Clean(s, l, cut, ok)
  {
    if l.Unmine? {
      DropStep(s, l, s', cut, ok);
    } else if l.Rollback? && cut.Some? && l.block < cut.value {
      RollbackStep(s, l, s', cut, ok);
    } else {
      OtherStepKeepsHeld(s, l, s', cut, ok);
    }
  }

  lemma {:induction false} RunIsHeld(ss: seq<State>, ls: seq<Label>, n: nat, ok: bool)
    requires IsRun(ss, ls) && n <= |ls|
    requires forall i :: 0 <= i < n ==> FittingDone(ss[i], ls[i])
    requires forall i :: 0 <= i < n ==> Clean(ss[i], ls[i], CutAt(ss, ls, i), ok)
    ensures AllHeld(ss[n], CutAt(ss, ls, n), ok)
  {
    if n > 0 {
      RunIsHeld(ss, ls, n - 1, ok);
      RunIsSteady(ss, ls, n - 1);
      assert StepAt(ss, ls, n - 1);
      StepKeepsHeldIff(ss[n - 1], ls[n - 1], ss[n], CutAt(ss, ls, n - 1), ok);
    }
  }

  /* ---------- the theorems ---------- */

  // The block number of a row below the cut is that of a receipt that explains its status:
  // a success for confirmed and done, a failure for failed.
  lemma BlockNumberIsWitnessed(ss: seq<State>, ls: seq<Label>, n: nat, k: Key)
    requires IsRun(ss, ls) && n <= |ls|
    requires k in ss[n].monitors && ss[n].monitors[k].row.blockNumber.Some?
    requires Between(0, CutAt(ss, ls, n), ss[n].monitors[k].row.blockNumber.value)
    requires forall i :: 0 <= i < n ==> FittingDone(ss[i], ls[i])
    requires forall i :: 0 <= i < n ==> Clean(ss[i], ls[i], CutAt(ss, ls, i), ss[n].monitors[k].row.status != Failed)
    ensures var r := ss[n].monitors[k].row;
            Witnessed(ss[n].env.chain, r.history, r.blockNumber.value, r.status != Failed)
  {
    var ok := ss[n].monitors[k].row.status != Failed;
    RunIsHeld(ss, ls, n, ok);
    assert Held(ss[n].env.chain, 0, CutAt(ss, ls, n), ok, ss[n].monitors[k]);
  }

  // A confirmed row below the cut points at a successful receipt of one of its own
  // transactions, in a block the node has synchronized.
  lemma ConfirmedMeansLanded(ss: seq<State>, ls: seq<Label>, n: nat, k: Key) returns (t: SignedTx)
    requires IsRun(ss, ls) && n <= |ls|
    requires forall i :: 0 <= i < n ==> FittingDone(ss[i], ls[i])
    requires forall i :: 0 <= i < n ==> QuietRollback(ss[i], ls[i])
    requires forall i :: 0 <= i < n ==> Clean(ss[i], ls[i], CutAt(ss, ls, i), true)
    requires k in ss[n].monitors && ss[n].monitors[k].row.status == Confirmed
    ensures var r := ss[n].monitors[k].row;
            && r.blockNumber.Some? && r.blockNumber.value <= ss[n].env.synced
            && (Between(0, CutAt(ss, ls, n), r.blockNumber.value) ==>
                  && t in r.history && Succeeded(ss[n].env.chain, t)
                  && r.blockNumber == Some(Receipt(ss[n].env.chain, t).block))
  {
    RunIsBacked(ss, ls, n);
    assert Backed(ss[n].env, ss[n].monitors[k]);
    var r, c := ss[n].monitors[k].row, ss[n].env.chain;
    if Between(0, CutAt(ss, ls, n), r.blockNumber.value) {
      BlockNumberIsWitnessed(ss, ls, n, k);
      t :| t in r.history && IsMined(c, t) && Receipt(c, t).success && Receipt(c, t).block == r.blockNumber.value;
    } else {
      t := Build(r);
    }
  }

  // The same for a done row, when no rollback falls between reading and writing it either.
  lemma DoneMeansLanded(ss: seq<State>, ls: seq<Label>, n: nat, k: Key) returns (t: SignedTx)
    requires IsRun(ss, ls) && n <= |ls|
    requires forall i :: 0 <= i < n ==> FittingDone(ss[i], ls[i])
    requires forall i :: 0 <= i < n ==> QuietRollback(ss[i], ls[i]) && QuietOwners(ss[i], ls[i])
    requires forall i :: 0 <= i < n ==> Clean(ss[i], ls[i], CutAt(ss, ls, i), true)
    requires k in ss[n].monitors && ss[n].monitors[k].row.status == Done
    ensures var r := ss[n].monitors[k].row;
            && r.blockNumber.Some? && r.blockNumber.value <= ss[n].env.synced
            && (Between(0, CutAt(ss, ls, n), r.blockNumber.value) ==>
                  && t in r.history && Succeeded(ss[n].env.chain, t)
                  && r.blockNumber == Some(Receipt(ss[n].env.chain, t).block))
  {
    RunIsDoneBacked(ss, ls, n);
    assert DoneBacked(ss[n].env, ss[n].monitors[k]);
    var r, c := ss[n].monitors[k].row, ss[n].env.chain;
    if Between(0, CutAt(ss, ls, n), r.blockNumber.value) {
      BlockNumberIsWitnessed(ss, ls, n, k);
      t :| t in r.history && IsMined(c, t) && Receipt(c, t).success && Receipt(c, t).block == r.blockNumber.value;
    } else {
      t := Build(r);
    }
  }

  // Without a reorganisation of L1 there is no cut and nothing to ask.
  lemma {:induction false} WithoutDrops(ss: seq<State>, ls: seq<Label>, n: nat, ok: bool)
    requires IsRun(ss, ls) && n <= |ls| && NeverDrops(ls, n)
    ensures CutAt(ss, ls, n) == None
    ensures forall i :: 0 <= i < n ==> Clean(ss[i], ls[i], CutAt(ss, ls, i), ok)
  {
    if n > 0 {
      WithoutDrops(ss, ls, n - 1, ok);
    }
  }

  /* ---------- what is left over lands ---------- */

  lemma {:induction false} CutOfPrefix(ss: seq<State>, ls: seq<Label>, ss': seq<State>, ls': seq<Label>, n: nat)
    requires n <= |ls| < |ss| && |ls'| < |ss'| && ss <= ss' && ls <= ls'
    ensures CutAt(ss', ls', n) == CutAt(ss, ls, n)
  {
    if n > 0 {
      CutOfPrefix(ss, ls, ss', ls', n - 1);
      assert ss'[n - 1] == ss[n - 1] && ls'[n - 1] == ls[n - 1];
    }
  }

  lemma CutStays(ss: seq<State>, ls: seq<Label>, l: Label, s': State)
    requires |ss| == |ls| + 1 && !l.Unmine? && !l.Rollback?
    ensures CutAt(ss + [s'], ls + [l], |ls| + 1) == CutAt(ss, ls, |ls|)
  {
    CutOfPrefix(ss, ls, ss + [s'], ls + [l], |ls|);
  }

  // The run goes on without a rollback and without a reorganisation of L1.
  predicate Calm(ls: seq<Label>, ls': seq<Label>) {
    ls <= ls' && forall i :: |ls| <= i < |ls'| ==> !ls'[i].Unmine? && !ls'[i].Rollback?
  }

  // A row below the cut is confirmed or done in a synchronized block, and no transaction of
  // its history has succeeded there.
  ghost predicate Unfounded(s: State, cut: Option<nat>, k: Key) {
    && k in s.monitors
    && var r := s.monitors[k].row;
    && (r.status == Confirmed || r.status == Done)
    && Synced(s.env, r) && Between(0, cut, r.blockNumber.value)
    && !Witnessed(s.env.chain, r.history, r.blockNumber.value, true)
  }

  // Storing a success that the pass has accepted, or a row that the owner has read.
  lemma StoredStale(ss: seq<State>, ls: seq<Label>, k: Key) returns (ss': seq<State>, ls': seq<Label>)
    requires IsRun(ss, ls) && k in ss[|ls|].monitors && Steady(ss[|ls|].monitors[k])
    requires var m, cut, s := ss[|ls|].monitors[k], CutAt(ss, ls, |ls|), ss[|ls|];
             || (m.pass.Some? && !RowHeld(s.env.chain, 0, cut, true, m.pass.value.mtx) && Synced(s.env, m.pass.value.mtx))
             || (m.owner.Some? && !RowHeld(s.env.chain, 0, cut, true, m.owner.value) && Synced(s.env, m.owner.value))
    ensures IsRun(ss', ls') && Calm(ls, ls') && Unfounded(ss'[|ls'|], CutAt(ss', ls', |ls'|), k)
  {
    var s, m, cut := ss[|ls|], ss[|ls|].monitors[k], CutAt(ss, ls, |ls|);
    if m.pass.Some? && !RowHeld(s.env.chain, 0, cut, true, m.pass.value.mtx) && Synced(s.env, m.pass.value.mtx) {
      ss', ls' := ActOn(ss, ls, k, Write, m.(row := Persist(m.pass.value.mtx), pass := None));
      CutStays(ss, ls, Local(k, Write), ss'[|ls'|]);
    } else {
      ss', ls' := ActOn(ss, ls, k, OwnerWrites, m.(row := Persist(m.owner.value.(status := Done)), owner := None));
      CutStays(ss, ls, Local(k, OwnerWrites), ss'[|ls'|]);
    }
  }

  // The node synchronizes at least up to `block`.
  lemma SyncTo(ss: seq<State>, ls: seq<Label>, block: nat) returns (ss': seq<State>, ls': seq<Label>)
    requires IsRun(ss, ls)
    ensures IsRun(ss', ls') && Calm(ls, ls') && CutAt(ss', ls', |ls'|) == CutAt(ss, ls, |ls|)
    ensures var e := ss[|ls|].env;
            ss'[|ls'|] == ss[|ls|].(env := e.(synced := if block > e.synced then block else e.synced))
  {
    var s := ss[|ls|];
    var b := if block > s.env.synced then block else s.env.synced;
    ss', ls' := Extend(ss, ls, Sync(b), s.(env := s.env.(synced := b)));
    CutStays(ss, ls, Sync(b), ss'[|ls'|]);
  }

  // Accepting a success that the pass has found.
  lemma AcceptStale(ss: seq<State>, ls: seq<Label>, k: Key, p: Pass) returns (ss': seq<State>, ls': seq<Label>)
    requires IsRun(ss, ls) && k in ss[|ls|].monitors && ss[|ls|].monitors[k].pass == Some(p) && Steady(ss[|ls|].monitors[k])
    requires !FoundHeld(ss[|ls|].env.chain, 0, CutAt(ss, ls, |ls|), true, p) && p.pc.receipt.block <= ss[|ls|].env.synced
    ensures IsRun(ss', ls') && Calm(ls, ls') && Unfounded(ss'[|ls'|], CutAt(ss', ls', |ls'|), k)
  {
    var r := p.mtx.(status := Confirmed, blockNumber := Some(p.pc.receipt.block));
    var m' := ss[|ls|].monitors[k].(pass := Some(Pass(r, p.base, FinalWrite)));
    ss', ls' := ActOn(ss, ls, k, Settle(false), m');
    CutStays(ss, ls, Local(k, Settle(false)), ss'[|ls'|]);
    SettleKeepsSteady(ss[|ls|].env, ss[|ls|].monitors[k], p, false, m');
    ss', ls' := StoredStale(ss', ls', k);
  }

  // Whatever a pass or an owner has in hand below the cut that is not on the chain, the run
  // can be continued so that it is stored as confirmed or done in a synchronized block, by
  // steps of which none is a rollback or a reorganisation of L1.
  lemma StaleHandLands(ss: seq<State>, ls: seq<Label>, k: Key) returns (ss': seq<State>, ls': seq<Label>)
    requires IsRun(ss, ls) && k in ss[|ls|].monitors
    requires forall i :: 0 <= i < |ls| ==> FittingDone(ss[i], ls[i])
    requires !HandHeld(ss[|ls|].env.chain, 0, CutAt(ss, ls, |ls|), true, ss[|ls|].monitors[k])
    ensures IsRun(ss', ls') && Calm(ls, ls') && Unfounded(ss'[|ls'|], CutAt(ss', ls', |ls'|), k)
  {
    RunIsSteady(ss, ls, |ls|);
    var s, m, cut := ss[|ls|], ss[|ls|].monitors[k], CutAt(ss, ls, |ls|);
    assert Steady(m);
    if m.pass.Some? && !FoundHeld(s.env.chain, 0, cut, true, m.pass.value) {
      ss', ls' := SyncTo(ss, ls, m.pass.value.pc.receipt.block);
      ss', ls' := AcceptStale(ss', ls', k, m.pass.value);
    } else {
      var r := if m.pass.Some? && !RowHeld(s.env.chain, 0, cut, true, m.pass.value.mtx) then m.pass.value.mtx else m.owner.value;
      ss', ls' := SyncTo(ss, ls, r.blockNumber.value);
      ss', ls' := StoredStale(ss', ls', k);
    }
  }
}
