/**
 Reorg non-interference, and the synchronized head, whatever L1 does.

 `Reorg` rewrites the rows whose block number is set; a running pass holds only rows
 whose block number is not set. So whole-row writes never meet, provided a
 `setStatusDone` write has a block number to bring and no pass is running on its row.
 */
module EthTxReorg {
  import opened Wrappers
  import opened EthTxMachine

  predicate HasBlock(st: Status) {
    st == Confirmed || st == Failed || st == Done
  }

  // The block number is set exactly in statuses confirmed, failed and done.
  predicate RowSteady(r: Row) {
    r.blockNumber.Some? <==> HasBlock(r.status)
  }

  // A reorged row is looked up again and can only be confirmed again.
  predicate ReorgedPass(p: Pass) {
    && (p.mtx.status == Reorged || p.mtx.status == Confirmed)
    && Current(p.pc).None? && !p.pc.Signing? && !p.pc.ReviewWrite?
    && (p.pc.Finalizing? ==> p.pc.receipt.success)
  }

  predicate PassSteady(m: Monitor, p: Pass) {
    && p.base == m.row
    && m.row.blockNumber.None?
    && RowSteady(p.mtx)
    && (p.mtx.blockNumber.Some? <==> p.pc.FinalWrite?)
    && p.mtx.status != Done
    && (m.row.status == Reorged || p.mtx.status == Reorged ==> ReorgedPass(p))
    && (p.pc.Scanning? ==> p.pc.todo <= p.mtx.history)
    && (Current(p.pc).Some? ==> Current(p.pc).value in p.mtx.history)
  }

  // What an owner that has seen the confirmation can still find: never a failed row.
  predicate AfterConfirmation(st: Status) {
    st == Confirmed || st == Reorged || st == Done
  }

  predicate Steady(m: Monitor) {
    && RowSteady(m.row)
    && (m.pass.Some? ==> PassSteady(m, m.pass.value))
    && (m.seen ==> AfterConfirmation(m.row.status))
    && (m.owner.Some? ==> m.seen && RowSteady(m.owner.value) && AfterConfirmation(m.owner.value.status))
  }

  // A `setStatusDone` write has a block number to bring and meets no running pass.
  predicate DoneFits(m: Monitor) {
    m.owner.Some? ==> m.owner.value.blockNumber.Some? && m.pass.None?
  }

  predicate FittingDone(s: State, l: Label) {
    l.Local? && l.action.OwnerWrites? && l.key in s.monitors ==> DoneFits(s.monitors[l.key])
  }

  ghost predicate AllSteady(s: State) {
    forall k {:trigger Steady(s.monitors[k])} :: k in s.monitors ==> Steady(s.monitors[k])
  }

  /* ---------- preservation ---------- */

  lemma SettleKeepsSteady(e: Env, m: Monitor, p: Pass, goOn: bool, m': Monitor)
    requires Steady(m) && m.pass == Some(p)
    requires SettleStep(e, m, p, goOn) == Some(m')
    ensures Steady(m')
  {
  }

  lemma LookupKeepsSteady(e: Env, m: Monitor, p: Pass, tx: SignedTx, answered: bool, m': Monitor)
    requires Steady(m) && m.pass == Some(p)
    requires LookupStep(e, m, p, tx, answered) == Some(m')
    ensures Steady(m')
  {
  }

  lemma WriteKeepsSteady(e: Env, m: Monitor, p: Pass, m': Monitor)
    requires Steady(m) && m.pass == Some(p)
    requires WriteStep(m, p) == Some(m')
    ensures Steady(m')
  {
    assert RowSteady(m'.row);
  }

  lemma SignKeepsSteady(e: Env, m: Monitor, p: Pass, m': Monitor)
    requires Steady(m) && m.pass == Some(p) && SignStep(m, p) == Some(m')
    ensures Steady(m')
  {
  }

  lemma SendKeepsSteady(e: Env, m: Monitor, p: Pass, ok: bool, m': Monitor)
    requires Steady(m) && m.pass == Some(p) && SendStep(m, p, ok) == Some(m')
    ensures Steady(m')
  {
  }

  lemma RestKeepsSteady(e: Env, m: Monitor, p: Pass, a: Action, m': Monitor)
    requires Steady(m) && m.pass == Some(p) && PassStep(e, m, p, a) == Some(m')
    requires !a.Lookup? && !a.Write? && !a.Sign? && !a.Send? && !a.Settle?
    ensures Steady(m')
  {
  }

  lemma PassKeepsSteady(e: Env, m: Monitor, p: Pass, a: Action, m': Monitor)
    requires Steady(m) && m.pass == Some(p)
    requires PassStep(e, m, p, a) == Some(m')
    ensures Steady(m')
  {
    if a.Lookup? {
      LookupKeepsSteady(e, m, p, a.tx, a.answered, m');
    } else if a.Write? {
      WriteKeepsSteady(e, m, p, m');
    } else if a.Settle? {
      SettleKeepsSteady(e, m, p, a.goOn, m');
    } else if a.Sign? {
      SignKeepsSteady(e, m, p, m');
    } else if a.Send? {
      SendKeepsSteady(e, m, p, a.ok, m');
    } else {
      RestKeepsSteady(e, m, p, a, m');
    }
  }

  lemma LocalKeepsSteady(e: Env, m: Monitor, a: Action, m': Monitor)
    requires Steady(m)
    requires a.OwnerWrites? ==> DoneFits(m)
    requires LocalStep(e, m, a) == Some(m')
    ensures Steady(m')
  {
    if a.OwnerWrites? {
      OwnerWriteKeepsSteadyIff(e, m, m');
    } else if !a.OwnerSees? && !a.OwnerReads? {
      PassKeepsSteady(e, m, m.pass.value, a, m');
    }
  }

  // A `setStatusDone` write keeps the link between status and block number if and only if
  // it has a block number to bring and no pass is running on the row.
  lemma OwnerWriteKeepsSteadyIff(e: Env, m: Monitor, m': Monitor)
    requires Steady(m) && LocalStep(e, m, OwnerWrites) == Some(m')
    ensures Steady(m') <==> DoneFits(m)
  {
  }

  lemma ElsewhereKeepsSteady(l: Label, m: Monitor)
    requires Steady(m)
    ensures Steady(Elsewhere(l, m))
  {
  }

  lemma StepKeepsSteady(s: State, l: Label, s': State)
    requires AllSteady(s) && FittingDone(s, l) && Step(s, l) == Some(s')
    ensures AllSteady(s')
  {
    forall k | k in s'.monitors
      ensures Steady(s'.monitors[k])
    {
      if l.Local? && l.key == k {
        LocalKeepsSteady(s.env, s.monitors[k], l.action, s'.monitors[k]);
      } else {
        OtherRow(s, l, s', k);
        if k in s.monitors {
          ElsewhereKeepsSteady(l, s.monitors[k]);
        }
      }
    }
  }

  lemma {:induction false} RunIsSteady(ss: seq<State>, ls: seq<Label>, n: nat)
    requires IsRun(ss, ls) && n <= |ls|
    requires forall i :: 0 <= i < n ==> FittingDone(ss[i], ls[i])
    ensures AllSteady(ss[n])
  {
    if n > 0 {
      RunIsSteady(ss, ls, n - 1);
      assert StepAt(ss, ls, n - 1);
      StepKeepsSteady(ss[n - 1], ls[n - 1], ss[n]);
    }
  }

  /* ---------- the theorems ---------- */

  // A reorg leaves every row held by a running pass as it is, and whatever a pass writes
  // replaces exactly the row that this pass read or wrote last.
  lemma ReorgSparesRunningPasses(ss: seq<State>, ls: seq<Label>, n: nat, k: Key, fromBlock: nat)
    requires IsRun(ss, ls) && n <= |ls|
    requires forall i :: 0 <= i < n ==> FittingDone(ss[i], ls[i])
    requires k in ss[n].monitors && ss[n].monitors[k].pass.Some?
    ensures ReorgRow(ss[n].monitors[k].row, fromBlock) == ss[n].monitors[k].row
    ensures ss[n].monitors[k].pass.value.base == ss[n].monitors[k].row
  {
    RunIsSteady(ss, ls, n);
    assert Steady(ss[n].monitors[k]);
  }

  lemma BlockNumberExplainsStatus(ss: seq<State>, ls: seq<Label>, n: nat, k: Key)
    requires IsRun(ss, ls) && n <= |ls|
    requires forall i :: 0 <= i < n ==> FittingDone(ss[i], ls[i])
    requires k in ss[n].monitors
    ensures var r := ss[n].monitors[k].row;
            r.blockNumber.Some? <==> r.status in {Confirmed, Failed, Done}
  {
    RunIsSteady(ss, ls, n);
    assert Steady(ss[n].monitors[k]);
  }

  // An owner that has seen the confirmation never finds the row failed afterwards.
  lemma ConfirmedNeverFails(ss: seq<State>, ls: seq<Label>, n: nat, k: Key)
    requires IsRun(ss, ls) && n <= |ls|
    requires forall i :: 0 <= i < n ==> FittingDone(ss[i], ls[i])
    requires k in ss[n].monitors && ss[n].monitors[k].seen
    ensures ss[n].monitors[k].row.status in {Confirmed, Reorged, Done}
  {
    RunIsSteady(ss, ls, n);
    assert Steady(ss[n].monitors[k]);
  }

  /* ---------- a confirmed block is a synchronized block ---------- */

  predicate Synced(e: Env, r: Row) {
    r.blockNumber.Some? && r.blockNumber.value <= e.synced
  }

  predicate Backed(e: Env, m: Monitor) {
    && (m.row.status == Confirmed ==> Synced(e, m.row))
    && (m.pass.Some? && m.pass.value.mtx.status == Confirmed ==> Synced(e, m.pass.value.mtx))
  }

  ghost predicate AllBacked(s: State) {
    forall k {:trigger Backed(s.env, s.monitors[k])} :: k in s.monitors ==> Backed(s.env, s.monitors[k])
  }

  // The pass has not just accepted a successful receipt above block `b`.
  predicate QuietPass(m: Monitor, b: nat) {
    m.pass.Some? && m.pass.value.mtx.status == Confirmed ==> Synced(Env(map[], b), m.pass.value.mtx)
  }

  ghost predicate QuietRollback(s: State, l: Label) {
    l.Rollback? ==> forall k :: k in s.monitors ==> QuietPass(s.monitors[k], l.block)
  }

  lemma RollbackKeepsBackedIff(s: State, b: nat, s': State)
    requires AllSteady(s) && AllBacked(s) && Step(s, Rollback(b)) == Some(s')
    ensures AllBacked(s') <==> QuietRollback(s, Rollback(b))
  {
    forall k | k in s.monitors
      ensures Backed(s'.env, s'.monitors[k]) <==> QuietPass(s.monitors[k], b)
    {
      assert Steady(s.monitors[k]) && Backed(s.env, s.monitors[k]);
    }
  }

  // After any other rollback, storing the accepted receipt is the next thing the pass can
  // do, and leaves a row confirmed above the synchronized head.
  lemma LoudRollbackConfirmsAbove(s: State, b: nat, s': State, k: Key) returns (s'': State)
    requires AllSteady(s) && AllBacked(s) && Step(s, Rollback(b)) == Some(s')
    requires k in s.monitors && !QuietPass(s.monitors[k], b)
    ensures Step(s', Local(k, Write)) == Some(s'') && k in s''.monitors
    ensures var r := s''.monitors[k].row;
            r.status == Confirmed && r.blockNumber.Some? && r.blockNumber.value > s''.env.synced
  {
    var m := s.monitors[k];
    assert Steady(m) && Backed(s.env, m);
    var m' := s'.monitors[k];
    s'' := s'.(monitors := s'.monitors[k := m'.(row := Persist(m.pass.value.mtx), pass := None)]);
  }

  lemma LocalKeepsBacked(e: Env, m: Monitor, a: Action, m': Monitor)
    requires Steady(m) && Backed(e, m) && LocalStep(e, m, a) == Some(m')
    ensures Backed(e, m')
  {
    if a.OwnerSees? || a.OwnerReads? || a.OwnerWrites? {
    } else if a.Settle? {
      SettleKeepsBacked(e, m, m.pass.value, a.goOn, m');
    } else if !a.Write? && !a.Sign? && !a.Send? {
      OrdinaryStep(e, m, m.pass.value, a, m');
    }
  }

  lemma SettleKeepsBacked(e: Env, m: Monitor, p: Pass, goOn: bool, m': Monitor)
    requires Backed(e, m) && m.pass == Some(p) && SettleStep(e, m, p, goOn) == Some(m')
    ensures Backed(e, m')
  {
  }

  lemma StepKeepsBacked(s: State, l: Label, s': State)
    requires AllSteady(s) && AllBacked(s) && QuietRollback(s, l) && Step(s, l) == Some(s')
    ensures AllBacked(s')
  {
    if l.Rollback? {
      RollbackKeepsBackedIff(s, l.block, s');
    } else {
      forall k | k in s'.monitors
        ensures Backed(s'.env, s'.monitors[k])
      {
        if l.Local? && l.key == k {
          LocalKeepsBacked(s.env, s.monitors[k], l.action, s'.monitors[k]);
        } else if k in s.monitors {
          assert Backed(s.env, s.monitors[k]);
        }
      }
    }
  }

  lemma {:induction false} RunIsBacked(ss: seq<State>, ls: seq<Label>, n: nat)
    requires IsRun(ss, ls) && n <= |ls|
    requires forall i :: 0 <= i < n ==> FittingDone(ss[i], ls[i])
    requires forall i :: 0 <= i < n ==> QuietRollback(ss[i], ls[i])
    ensures AllBacked(ss[n])
  {
    if n > 0 {
      RunIsBacked(ss, ls, n - 1);
      RunIsSteady(ss, ls, n - 1);
      assert StepAt(ss, ls, n - 1);
      StepKeepsBacked(ss[n - 1], ls[n - 1], ss[n]);
    }
  }

  /* ---------- and so is the block of a done row ---------- */

  predicate DoneBacked(e: Env, m: Monitor) {
    && (m.row.status == Done ==> Synced(e, m.row))
    && (m.owner.Some? && m.owner.value.blockNumber.Some? ==> Synced(e, m.owner.value))
  }

  ghost predicate AllDoneBacked(s: State) {
    forall k {:trigger DoneBacked(s.env, s.monitors[k])} :: k in s.monitors ==> DoneBacked(s.env, s.monitors[k])
  }

  // No `setStatusDone` has read a block above `b` and not yet written it.
  predicate QuietOwner(m: Monitor, b: nat) {
    m.owner.Some? && m.owner.value.blockNumber.Some? ==> m.owner.value.blockNumber.value <= b
  }

  ghost predicate QuietOwners(s: State, l: Label) {
    l.Rollback? ==> forall k :: k in s.monitors ==> QuietOwner(s.monitors[k], l.block)
  }

  lemma RollbackKeepsDoneBacked(s: State, b: nat, s': State)
    requires AllSteady(s) && AllDoneBacked(s) && QuietOwners(s, Rollback(b)) && Step(s, Rollback(b)) == Some(s')
    ensures AllDoneBacked(s')
  {
    forall k | k in s.monitors
      ensures DoneBacked(s'.env, s'.monitors[k])
    {
      assert Steady(s.monitors[k]) && DoneBacked(s.env, s.monitors[k]) && QuietOwner(s.monitors[k], b);
    }
  }

  // After a rollback the owner that has read its row can write it, and the row is then done
  // in a block above the synchronized head if and only if the owner was not quiet. When no
  // pass is running this is a write of the kind the theorems above allow.
  lemma OwnerMarksDoneAboveIff(s: State, b: nat, s': State, k: Key) returns (s'': State)
    requires AllSteady(s) && Step(s, Rollback(b)) == Some(s') && k in s.monitors && s.monitors[k].owner.Some?
    ensures Step(s', Local(k, OwnerWrites)) == Some(s'') && k in s''.monitors
    ensures var r := s''.monitors[k].row;
            && r.status == Done
            && (r.blockNumber.Some? && r.blockNumber.value > s''.env.synced <==> !QuietOwner(s.monitors[k], b))
    ensures !QuietOwner(s.monitors[k], b) && s.monitors[k].pass.None? ==> FittingDone(s', Local(k, OwnerWrites))
  {
    var m' := s'.monitors[k];
    s'' := s'.(monitors := s'.monitors[k := m'.(row := Persist(m'.owner.value.(status := Done)), owner := None)]);
  }

  lemma LocalKeepsDoneBacked(e: Env, m: Monitor, a: Action, m': Monitor)
    requires Steady(m) && Backed(e, m) && DoneBacked(e, m) && LocalStep(e, m, a) == Some(m')
    requires a.OwnerWrites? ==> DoneFits(m)
    ensures DoneBacked(e, m')
  {
    if !(a.OwnerSees? || a.OwnerReads? || a.OwnerWrites? || a.Write? || a.Sign? || a.Send?) {
      OrdinaryStep(e, m, m.pass.value, a, m');
    }
  }

  lemma StepKeepsDoneBacked(s: State, l: Label, s': State)
    requires AllSteady(s) && AllBacked(s) && AllDoneBacked(s) && FittingDone(s, l) && QuietOwners(s, l)
    requires Step(s, l) == Some(s')
    ensures AllDoneBacked(s')
  {
    if l.Rollback? {
      RollbackKeepsDoneBacked(s, l.block, s');
    } else {
      forall k | k in s'.monitors
        ensures DoneBacked(s'.env, s'.monitors[k])
      {
        if l.Local? && l.key == k {
          LocalKeepsDoneBacked(s.env, s.monitors[k], l.action, s'.monitors[k]);
        } else if k in s.monitors {
          assert DoneBacked(s.env, s.monitors[k]);
        }
      }
    }
  }

  lemma {:induction false} RunIsDoneBacked(ss: seq<State>, ls: seq<Label>, n: nat)
    requires IsRun(ss, ls) && n <= |ls|
    requires forall i :: 0 <= i < n ==> FittingDone(ss[i], ls[i])
    requires forall i :: 0 <= i < n ==> QuietRollback(ss[i], ls[i]) && QuietOwners(ss[i], ls[i])
    ensures AllDoneBacked(ss[n])
  {
    if n > 0 {
      RunIsDoneBacked(ss, ls, n - 1);
      RunIsBacked(ss, ls, n - 1);
      RunIsSteady(ss, ls, n - 1);
      assert StepAt(ss, ls, n - 1);
      StepKeepsDoneBacked(ss[n - 1], ls[n - 1], ss[n]);
    }
  }
}
