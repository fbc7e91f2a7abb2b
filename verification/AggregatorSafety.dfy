/**
 What every interleaving of provers keeps: who holds what, and that nothing overlaps.

 The results have a floor: batches up to it are not looked at. Below the last verified
 batch a lock can be taken on a number that was read too early; without such locks the
 floor is -1 and nothing is left out.
 */
module AggregatorSafety {
  import opened Wrappers
  import opened AggregatorMachine
  import opened AggregatorProofs

  datatype Actor = Prover(id: ProverId) | Sender

  function Held(w: Work): set<Interval> {
    match w
    case Idle => {}
    case Proving(b) => {Interval(b, b)}
    case Aggregating(i, _, j, _) => {i, j}
    case Holding(i, _) => {i}
    case Verifying(i, _) => {i}
  }

  // The intervals an actor believes it has locked.
  function HeldBy(s: State, a: Actor): set<Interval> {
    match a
    case Prover(p) => Held(WorkOf(s, p))
    case Sender => if s.sender.Some? then {s.sender.value.0} else {}
  }

  // No batch above `v` is in both.
  predicate Apart(v: int, h: Interval, g: Interval) {
    Disjoint(h, g) || h.to <= v || g.to <= v
  }

  ghost predicate TableApart(t: Table, v: int) {
    forall i, j :: i in t && j in t && i != j ==> Apart(v, i, j)
  }

  // A held interval is locked in the table, unless it lies below the last verified batch
  // and has been cleaned up; and no other row touches it.
  ghost predicate HoldOk(t: Table, verified: nat, v: int, h: Interval) {
    h.to <= v || ((if h in t then t[h].locked else h.to <= verified) && forall i :: i in t ==> i == h || Apart(v, i, h))
  }

  ghost predicate Inv(s: State, v: int) {
    && TableApart(s.table, v)
    && (forall a, h :: h in HeldBy(s, a) ==> HoldOk(s.table, s.verified, v, h))
    && (forall a, b, h, g :: a != b && h in HeldBy(s, a) && g in HeldBy(s, b) ==> Apart(v, h, g))
  }

  lemma HeldIsProper(s: State, a: Actor, h: Interval)
    requires Complete(s) && h in HeldBy(s, a)
    ensures h.from <= h.to
  {
    if a.Prover? {
      assert WorkComplete(WorkOf(s, a.id));
    }
  }

  /* ---------- preservation ---------- */

  // Everything but one prover's work, or the sender's, stays the same.
  ghost predicate Others(s: State, s': State, a: Actor) {
    s'.verified == s.verified && forall b :: b != a ==> HeldBy(s', b) == HeldBy(s, b)
  }

  lemma SetOthers(s: State, t: Table, p: ProverId, w: Work, s': State)
    requires Set(s, t, p, w) == Some(s')
    ensures Others(s, s', Prover(p)) && s'.table == t && WorkOf(s', p) == w
  {
  }

  // Writing to a row that the actor holds, or to none, and holding at most what it held.
  lemma KeepOrLess(s: State, s': State, a: Actor, v: int)
    requires Complete(s) && Inv(s, v) && Others(s, s', a) && HeldBy(s', a) <= HeldBy(s, a)
    requires s'.table.Keys <= s.table.Keys
    requires forall i :: i in s.table && (i !in s'.table || s'.table[i] != s.table[i]) ==> i in HeldBy(s, a)
    requires forall h :: h in HeldBy(s', a) ==> HoldOk(s'.table, s'.verified, v, h)
    ensures Inv(s', v)
  {
    forall b, h | h in HeldBy(s', b)
      ensures HoldOk(s'.table, s'.verified, v, h)
    {
      if b != a {
        assert h in HeldBy(s, b) && HoldOk(s.table, s.verified, v, h);
        HeldIsProper(s, b, h);
        assert h in HeldBy(s, a) ==> Apart(v, h, h);
      }
    }
    forall b, c, h, g | b != c && h in HeldBy(s', b) && g in HeldBy(s', c)
      ensures Apart(v, h, g)
    {
      assert h in HeldBy(s, b) && g in HeldBy(s, c);
    }
  }

  // An idle prover takes intervals that nobody else touches.
  lemma TakeApart(s: State, s': State, p: ProverId, v: int)
    requires Inv(s, v) && Others(s, s', Prover(p))
    requires forall b, h, g :: b != Prover(p) && h in HeldBy(s, b) && g in HeldBy(s', Prover(p)) ==> Apart(v, h, g)
    ensures forall b, c, h, g :: b != c && h in HeldBy(s', b) && g in HeldBy(s', c) ==> Apart(v, h, g)
  {
    forall b, c, h, g | b != c && h in HeldBy(s', b) && g in HeldBy(s', c)
      ensures Apart(v, h, g)
    {
      assert b != Prover(p) ==> h in HeldBy(s, b);
      assert c != Prover(p) ==> g in HeldBy(s, c);
    }
  }

  lemma LockFree(s: State, s': State, p: ProverId, taken: set<Interval>, v: int)
    requires Inv(s, v) && Others(s, s', Prover(p)) && HeldBy(s', Prover(p)) == taken
    requires taken <= s.table.Keys && s'.table.Keys == s.table.Keys
    requires forall i :: i in taken ==> !s.table[i].locked
    requires forall i :: i in s.table ==>
               s'.table[i] == if i in taken then s.table[i].(locked := true) else s.table[i]
    ensures Inv(s', v)
  {
    forall b, h, g | b != Prover(p) && h in HeldBy(s, b) && g in taken
      ensures Apart(v, h, g)
    {
      assert HoldOk(s.table, s.verified, v, h) && g in s.table;
    }
    TakeApart(s, s', p, v);
    forall b, h | h in HeldBy(s', b)
      ensures HoldOk(s'.table, s'.verified, v, h)
    {
      if b != Prover(p) {
        assert h in HeldBy(s, b) && HoldOk(s.table, s.verified, v, h);
      } else {
        assert h in s.table;
      }
    }
  }

  lemma LockPairKeeps(s: State, s': State, p: ProverId, i: Interval, j: Interval, v: int)
    requires Inv(s, v) && LockPairStep(s, p, i, j) == Some(s')
    ensures Inv(s', v)
  {
    SetOthers(s, s'.table, p, Aggregating(i, s.table[i].proof, j, s.table[j].proof), s');
    LockFree(s, s', p, {i, j}, v);
  }

  lemma LockVerifyKeeps(s: State, s': State, p: ProverId, i: Interval, v: int)
    requires Inv(s, v) && LockVerifyStep(s, p, i) == Some(s')
    ensures Inv(s', v)
  {
    SetOthers(s, s'.table, p, Verifying(i, s.table[i].proof), s');
    LockFree(s, s', p, {i}, v);
  }

  /* ---------- taking a batch ---------- */

  // No actor holds an interval with the batch.
  ghost predicate NobodyHolds(s: State, b: nat) {
    forall a, h :: h in HeldBy(s, a) ==> !Contains(h, b)
  }

  // Locking an uncovered batch above the floor keeps the invariant if and only if nobody
  // still holds it.
  lemma LockBatchKeepsIff(s: State, s': State, p: ProverId, b: nat, read: nat, v: int)
    requires Complete(s) && Inv(s, v) && LockBatchStep(s, p, b, read) == Some(s')
    ensures Inv(s', v) <==> b <= v || NobodyHolds(s, b)
  {
    var n := Interval(b, b);
    SetOthers(s, s.table[n := Row(true, Empty)], p, Proving(b), s');
    assert HeldBy(s, Prover(p)) == {};
    if b <= v || NobodyHolds(s, b) {
      LockBatchKeeps(s, s', p, b, v);
    } else {
      var a, h :| h in HeldBy(s, a) && Contains(h, b);
      assert h in HeldBy(s', a) && n in HeldBy(s', Prover(p)) && !Apart(v, h, n);
    }
  }

  lemma LockBatchKeeps(s: State, s': State, p: ProverId, b: nat, v: int)
    requires Complete(s) && Inv(s, v) && (b <= v || NobodyHolds(s, b)) && !Covered(s.table, b)
    requires Set(s, s.table[Interval(b, b) := Row(true, Empty)], p, Proving(b)) == Some(s')
    ensures Inv(s', v)
  {
    var n := Interval(b, b);
    SetOthers(s, s.table[n := Row(true, Empty)], p, Proving(b), s');
    forall i | i in s.table
      ensures Disjoint(i, n)
    {
      assert !Contains(i, b) && RowComplete(i, s.table[i]);
    }
    forall c, h | h in HeldBy(s, c)
      ensures Apart(v, h, n)
    {
      HeldIsProper(s, c, h);
      assert b <= v || !Contains(h, b);
    }
    TakeApart(s, s', p, v);
    forall c, h | h in HeldBy(s', c)
      ensures HoldOk(s'.table, s'.verified, v, h)
    {
      if c != Prover(p) {
        assert h in HeldBy(s, c) && HoldOk(s.table, s.verified, v, h) && Apart(v, h, n);
      }
    }
  }

  // A number that has not moved since it was read is always safe.
  lemma FreshLockIsFree(s: State, b: nat, v: int)
    requires Inv(s, v) && s.verified < b && !Covered(s.table, b)
    ensures b <= v || NobodyHolds(s, b)
  {
    if b > v {
      forall a, h | h in HeldBy(s, a)
        ensures !Contains(h, b)
      {
        assert HoldOk(s.table, s.verified, v, h);
      }
    }
  }

  /* ---------- merging ---------- */

  // What keeps apart from two adjacent intervals keeps apart from their union, and inside
  // the union it ends at or below the floor.
  lemma UnionApart(v: int, i: Interval, j: Interval, g: Interval)
    requires i.from <= i.to && i.to + 1 == j.from && j.from <= j.to && g.from <= g.to
    requires Apart(v, g, i) && Apart(v, g, j)
    ensures Apart(v, g, Interval(i.from, j.to))
    ensures i.from <= g.from && g.to <= j.to ==> g.to <= v
  {
  }

  // The delete by range removes the two merged rows; any other row it removes ends at or
  // below the floor, so with floor -1 there is none.
  lemma MergeDeletesThePair(s: State, p: ProverId, i: Interval, j: Interval, k: Interval, v: int)
    requires Complete(s) && Inv(s, v) && WorkOf(s, p).Aggregating? && WorkOf(s, p).i == i && WorkOf(s, p).j == j
    requires k in s.table
    ensures k !in DeleteWithin(s.table, i.from, j.to) ==> k == i || k == j || k.to <= v
    ensures k == i || k == j ==> k !in DeleteWithin(s.table, i.from, j.to)
    ensures k != i && k != j ==> Apart(v, k, Interval(i.from, j.to))
  {
    assert WorkComplete(WorkOf(s, p)) && RowComplete(k, s.table[k]);
    assert i in HeldBy(s, Prover(p)) && j in HeldBy(s, Prover(p));
    assert HoldOk(s.table, s.verified, v, i) && HoldOk(s.table, s.verified, v, j);
    if k != i && k != j {
      UnionApart(v, i, j, k);
    }
  }

  lemma MergeOthers(s: State, p: ProverId, b: Actor, g: Interval, v: int)
    requires Complete(s) && Inv(s, v) && WorkOf(s, p).Aggregating? && b != Prover(p) && g in HeldBy(s, b)
    ensures var w := WorkOf(s, p);
            Apart(v, g, Interval(w.i.from, w.j.to)) && (w.i.from <= g.from && g.to <= w.j.to ==> g.to <= v)
  {
    var w := WorkOf(s, p);
    assert WorkComplete(w);
    assert w.i in HeldBy(s, Prover(p)) && w.j in HeldBy(s, Prover(p));
    HeldIsProper(s, b, g);
    UnionApart(v, w.i, w.j, g);
  }

  lemma MergeKeeps(s: State, s': State, p: ProverId, v: int)
    requires Complete(s) && Inv(s, v) && MergeStep(s, p) == Some(s')
    ensures Inv(s', v)
  {
    var w := WorkOf(s, p);
    var m := Interval(w.i.from, w.j.to);
    SetOthers(s, s'.table, p, Holding(m, Aggregated(w.p, w.q)), s');
    forall k | k in s'.table && k != m
      ensures k in s.table && Apart(v, k, m)
    {
      MergeDeletesThePair(s, p, w.i, w.j, k, v);
    }
    forall b, g | b != Prover(p) && g in HeldBy(s, b)
      ensures Apart(v, g, m) && HoldOk(s'.table, s'.verified, v, g)
    {
      MergeOthers(s, p, b, g, v);
      assert HoldOk(s.table, s.verified, v, g);
    }
    TakeApart(s, s', p, v);
    forall b, h | h in HeldBy(s', b)
      ensures HoldOk(s'.table, s'.verified, v, h)
    {
      assert b != Prover(p) ==> h in HeldBy(s, b);
    }
  }

  /* ---------- giving up, handing over, cleaning up ---------- */

  // A prover gives up what it holds, with or without writing it back.
  lemma GiveUpKeeps(s: State, s': State, p: ProverId, t: Table, v: int)
    requires Complete(s) && Inv(s, v) && Set(s, t, p, Idle) == Some(s')
    requires t.Keys <= s.table.Keys
    requires forall i :: i in s.table && (i !in t || t[i] != s.table[i]) ==> i in Held(WorkOf(s, p))
    ensures Inv(s', v)
  {
    SetOthers(s, t, p, Idle, s');
    KeepOrLess(s, s', Prover(p), v);
  }

  lemma BatchFailedKeeps(s: State, s': State, p: ProverId, deleted: bool, v: int)
    requires Complete(s) && Inv(s, v) && Step(s, BatchFailed(p, deleted)) == Some(s')
    ensures Inv(s', v)
  {
    forall i | i in s.table && i !in s'.table
      ensures i in Held(WorkOf(s, p))
    {
      assert RowComplete(i, s.table[i]);
    }
    GiveUpKeeps(s, s', p, s'.table, v);
  }

  lemma HandoverKeeps(s: State, s': State, p: ProverId, v: int)
    requires Inv(s, v) && HandoverStep(s, p) == Some(s')
    ensures Inv(s', v)
  {
    forall b, h | h in HeldBy(s', b)
      ensures h in HeldBy(s, if b == Sender then Prover(p) else b) && b != Prover(p)
    {
      assert b.Prover? && b.id != p ==> WorkOf(s', b.id) == WorkOf(s, b.id);
    }
    forall b, c, h, g | b != c && h in HeldBy(s', b) && g in HeldBy(s', c)
      ensures Apart(v, h, g)
    {
      assert h in HeldBy(s, if b == Sender then Prover(p) else b) && g in HeldBy(s, if c == Sender then Prover(p) else c);
    }
  }

  // Steps after which nobody holds more than before and no row is new or changed; a held
  // row may be gone only at or below the last verified batch or the floor.
  lemma ShrinkKeeps(s: State, s': State, v: int)
    requires Inv(s, v) && s.verified <= s'.verified
    requires forall a :: HeldBy(s', a) <= HeldBy(s, a)
    requires s'.table.Keys <= s.table.Keys && forall i :: i in s'.table ==> s'.table[i] == s.table[i]
    requires forall a, h :: h in HeldBy(s', a) && h in s.table && h !in s'.table ==> h.to <= s'.verified || h.to <= v
    ensures Inv(s', v)
  {
    forall a, h | h in HeldBy(s', a)
      ensures HoldOk(s'.table, s'.verified, v, h)
    {
      assert h in HeldBy(s, a) && HoldOk(s.table, s.verified, v, h);
    }
    forall a, b, h, g | a != b && h in HeldBy(s', a) && g in HeldBy(s', b)
      ensures Apart(v, h, g)
    {
      assert h in HeldBy(s, a) && g in HeldBy(s, b);
    }
  }

  lemma DiscardKeeps(s: State, s': State, p: ProverId, v: int)
    requires Inv(s, v) && DiscardStep(s, p) == Some(s')
    ensures Inv(s', v)
  {
    SetOthers(s, s'.table, p, WorkOf(s, p), s');
    assert forall a :: HeldBy(s', a) == HeldBy(s, a);
    ShrinkKeeps(s, s', v);
  }

  // Cleaning up a stale lock keeps the invariant if and only if nobody holds the row any
  // more, or it is verified, or it lies at or below the floor.
  lemma CleanupKeepsIff(s: State, s': State, i: Interval, v: int)
    requires Inv(s, v) && Step(s, CleanupStale(i)) == Some(s')
    ensures Inv(s', v) <==> i.to <= v || i.to <= s.verified || forall a :: i !in HeldBy(s, a)
  {
    assert forall a :: HeldBy(s', a) == HeldBy(s, a) by {
      assert forall p :: WorkOf(s', p) == WorkOf(s, p);
    }
    if i.to <= v || i.to <= s.verified || forall a :: i !in HeldBy(s, a) {
      ShrinkKeeps(s, s', v);
    } else {
      var a :| i in HeldBy(s, a);
      assert i in HeldBy(s', a) && !HoldOk(s'.table, s'.verified, v, i);
    }
  }

  lemma SenderKeeps(s: State, s': State, unlocked: bool, v: int)
    requires Complete(s) && Inv(s, v) && Step(s, SenderFailed(unlocked)) == Some(s')
    ensures Inv(s', v)
  {
    assert forall b :: b != Sender ==> HeldBy(s', b) == HeldBy(s, b) by {
      assert forall p :: WorkOf(s', p) == WorkOf(s, p);
    }
    KeepOrLess(s, s', Sender, v);
  }

  /* ---------- every step ---------- */

  // The steps that can break the invariant above the floor, and when they do not.
  ghost predicate Harmless(s: State, l: Label, v: int) {
    && (l.LockBatch? ==> l.batch <= v || NobodyHolds(s, l.batch))
    && (l.CleanupStale? ==> l.i.to <= v || l.i.to <= s.verified || forall a :: l.i !in HeldBy(s, a))
  }

  lemma ProverStepKeeps(s: State, l: Label, s': State, v: int)
    requires Complete(s) && Inv(s, v) && Step(s, l) == Some(s')
    requires l.BatchProved? || l.BatchFailed? || l.LockPair? || l.Merge? || l.MergeFailed?
          || l.Discard? || l.Release? || l.LockVerify? || l.VerifyFailed? || l.Handover? || l.Dropped?
    ensures Inv(s', v)
  {
    match l
    case BatchProved(p) =>
      SetOthers(s, s.table, p, WorkOf(s', p), s');
      KeepOrLess(s, s', Prover(p), v);
    case BatchFailed(p, deleted) => BatchFailedKeeps(s, s', p, deleted, v);
    case LockPair(p, i, j) => LockPairKeeps(s, s', p, i, j, v);
    case Merge(p) => MergeKeeps(s, s', p, v);
    case Discard(p) => DiscardKeeps(s, s', p, v);
    case LockVerify(p, i) => LockVerifyKeeps(s, s', p, i, v);
    case Handover(p) => HandoverKeeps(s, s', p, v);
    case MergeFailed(p, _) => GiveUpKeeps(s, s', p, s'.table, v);
    case Release(p, _) => GiveUpKeeps(s, s', p, s'.table, v);
    case VerifyFailed(p, _) => GiveUpKeeps(s, s', p, s'.table, v);
    case Dropped(p) => GiveUpKeeps(s, s', p, s'.table, v);
  }

  lemma StepKeepsIff(s: State, l: Label, s': State, v: int)
    requires Complete(s) && Inv(s, v) && Step(s, l) == Some(s')
    ensures Inv(s', v) <==> Harmless(s, l, v)
  {
    if l.LockBatch? {
      LockBatchKeepsIff(s, s', l.p, l.batch, l.read, v);
    } else if l.CleanupStale? {
      CleanupKeepsIff(s, s', l.i, v);
    } else if l.SenderFailed? {
      SenderKeeps(s, s', l.unlocked, v);
    } else if l.SenderEnds? || l.Cleanup? || l.Verify? || l.Sequence? || l.Restart? {
      assert forall p :: WorkOf(s', p) == WorkOf(s, p) || WorkOf(s', p) == Idle;
      assert forall a :: HeldBy(s', a) <= HeldBy(s, a);
      ShrinkKeeps(s, s', v);
    } else {
      ProverStepKeeps(s, l, s', v);
    }
  }

  lemma {:induction false} RunKeeps(ss: seq<State>, ls: seq<Label>, n: nat, v: int)
    requires IsRun(ss, ls) && n <= |ls|
    requires forall i :: 0 <= i < n ==> Harmless(ss[i], ls[i], v)
    ensures Inv(ss[n], v)
  {
    if n == 0 {
      assert forall p :: WorkOf(ss[0], p) == Idle;
    } else {
      RunKeeps(ss, ls, n - 1, v);
      RunIsComplete(ss, ls, n - 1);
      assert StepAt(ss, ls, n - 1);
      StepKeepsIff(ss[n - 1], ls[n - 1], ss[n], v);
    }
  }

  /* ---------- the theorems ---------- */

  // Stored proofs never overlap, and the intervals that different provers or the sender
  // believe they hold never overlap either; a held interval is locked in the table unless
  // it has been verified and cleaned up.
  lemma ProversNeverOverlap(ss: seq<State>, ls: seq<Label>, n: nat)
    requires IsRun(ss, ls) && n <= |ls|
    requires forall i :: 0 <= i < n ==> Harmless(ss[i], ls[i], -1)
    ensures forall i, j :: i in ss[n].table && j in ss[n].table && i != j ==> Disjoint(i, j)
    ensures forall a, b, h, g :: a != b && h in HeldBy(ss[n], a) && g in HeldBy(ss[n], b) ==> Disjoint(h, g)
    ensures forall a, h :: h in HeldBy(ss[n], a) ==>
              if h in ss[n].table then ss[n].table[h].locked else h.to <= ss[n].verified
  {
    RunKeeps(ss, ls, n, -1);
    forall i, j | i in ss[n].table && j in ss[n].table && i != j
      ensures Disjoint(i, j)
    {
      assert Apart(-1, i, j);
    }
    forall a, b, h, g | a != b && h in HeldBy(ss[n], a) && g in HeldBy(ss[n], b)
      ensures Disjoint(h, g)
    {
      assert Apart(-1, h, g);
    }
    forall a, h | h in HeldBy(ss[n], a)
      ensures if h in ss[n].table then ss[n].table[h].locked else h.to <= ss[n].verified
    {
      assert HoldOk(ss[n].table, ss[n].verified, -1, h);
    }
  }

  // Each cleanup removes a row nobody holds, or a verified one.
  ghost predicate CleanCleanup(s: State, l: Label) {
    l.CleanupStale? ==> l.i.to <= s.verified || forall a :: l.i !in HeldBy(s, a)
  }

  lemma VerifiedGrows(s: State, l: Label, s': State)
    requires Step(s, l) == Some(s')
    ensures s.verified <= s'.verified
  {
  }

  // With locks on numbers read at any time, the same for the batches above `v`.
  lemma {:induction false} RunKeepsAbove(ss: seq<State>, ls: seq<Label>, n: nat, v: nat)
    requires IsRun(ss, ls) && n <= |ls| && ss[n].verified <= v
    requires forall i :: 0 <= i < n ==> CleanCleanup(ss[i], ls[i])
    ensures Inv(ss[n], v)
  {
    if n == 0 {
      RunKeeps(ss, ls, 0, v);
    } else {
      var s, l, s' := ss[n - 1], ls[n - 1], ss[n];
      assert StepAt(ss, ls, n - 1);
      VerifiedGrows(s, l, s');
      RunKeepsAbove(ss, ls, n - 1, v);
      RunIsComplete(ss, ls, n - 1);
      if l.LockBatch? && l.batch > s.verified {
        FreshLockIsFree(s, l.batch, v);
      }
      StepKeepsIff(s, l, s', v);
    }
  }

  // Whatever the locks were read from, no batch above the last verified one is in two
  // stored proofs or held by two actors, and what is held there is locked in the table.
  lemma NeverOverlapAboveVerified(ss: seq<State>, ls: seq<Label>, n: nat)
    requires IsRun(ss, ls) && n <= |ls|
    requires forall i :: 0 <= i < n ==> CleanCleanup(ss[i], ls[i])
    ensures forall i, j :: i in ss[n].table && j in ss[n].table && i != j ==> Apart(ss[n].verified, i, j)
    ensures forall a, b, h, g :: a != b && h in HeldBy(ss[n], a) && g in HeldBy(ss[n], b) ==> Apart(ss[n].verified, h, g)
    ensures forall a, h :: h in HeldBy(ss[n], a) && h.to > ss[n].verified ==> h in ss[n].table && ss[n].table[h].locked
  {
    RunKeepsAbove(ss, ls, n, ss[n].verified);
    forall a, h | h in HeldBy(ss[n], a) && h.to > ss[n].verified
      ensures h in ss[n].table && ss[n].table[h].locked
    {
      assert HoldOk(ss[n].table, ss[n].verified, ss[n].verified, h);
    }
  }

  /* ---------- coverage ---------- */

  // Committed or rolled back, a merge leaves the set of covered batches above the floor as
  // it was, when both rows are still there or the batch is not verified yet.
  lemma MergeKeepsCovered(s: State, l: Label, s': State, p: ProverId, b: nat, v: int)
    requires Complete(s) && Inv(s, v) && Step(s, l) == Some(s') && b > v
    requires l == Merge(p) || l == MergeFailed(p, true) || l == MergeFailed(p, false)
    requires b > s.verified || Held(WorkOf(s, p)) <= s.table.Keys
    ensures Covered(s'.table, b) <==> Covered(s.table, b)
  {
    if l.Merge? {
      var w := WorkOf(s, p);
      var m := Interval(w.i.from, w.j.to);
      assert m in s'.table;
      if Covered(s.table, b) {
        var i :| i in s.table && Contains(i, b);
        MergeDeletesThePair(s, p, w.i, w.j, i, v);
        assert if i == w.i || i == w.j then Contains(m, b) else i in s'.table;
      }
      if Covered(s'.table, b) {
        var i :| i in s'.table && Contains(i, b);
        if i == m {
          assert Contains(w.i, b) || Contains(w.j, b);
          assert w.i in HeldBy(s, Prover(p)) && w.j in HeldBy(s, Prover(p));
          assert HoldOk(s.table, s.verified, v, w.i) && HoldOk(s.table, s.verified, v, w.j);
        } else {
          assert i in s.table;
        }
      }
    } else {
      assert s'.table.Keys == s.table.Keys;
      assert forall i :: i in s.table && Contains(i, b) <==> i in s'.table && Contains(i, b);
    }
  }

  // A committed merge leaves the covered batches as they were if and only if both rows were
  // still there: a row that was verified and cleaned up comes back with the merge.
  lemma MergeKeepsCoveredIff(s: State, s': State, p: ProverId)
    requires Complete(s) && Inv(s, -1) && MergeStep(s, p) == Some(s')
    ensures Held(WorkOf(s, p)) <= s.table.Keys <==> forall b: nat :: Covered(s'.table, b) <==> Covered(s.table, b)
  {
    var w := WorkOf(s, p);
    if Held(w) <= s.table.Keys {
      forall b: nat
        ensures Covered(s'.table, b) <==> Covered(s.table, b)
      {
        MergeKeepsCovered(s, Merge(p), s', p, b, -1);
      }
    } else {
      var h :| h in Held(w) && h !in s.table;
      MergeRestores(s, s', p, h);
    }
  }

  lemma MergeRestores(s: State, s': State, p: ProverId, h: Interval)
    requires Complete(s) && Inv(s, -1) && MergeStep(s, p) == Some(s') && h in Held(WorkOf(s, p)) && h !in s.table
    ensures Covered(s'.table, h.from) && !Covered(s.table, h.from)
  {
    var w := WorkOf(s, p);
    HeldIsProper(s, Prover(p), h);
    assert WorkComplete(w) && h in HeldBy(s, Prover(p));
    var m := Interval(w.i.from, w.j.to);
    assert m in s'.table && Contains(m, h.from);
    forall i | i in s.table
      ensures !Contains(i, h.from)
    {
      assert HoldOk(s.table, s.verified, -1, h) && Apart(-1, i, h);
    }
  }

  lemma MergeKeepsCoverage(ss: seq<State>, ls: seq<Label>, n: nat, p: ProverId, b: nat)
    requires IsRun(ss, ls) && n < |ls|
    requires forall i :: 0 <= i < n ==> Harmless(ss[i], ls[i], -1)
    requires ls[n] == Merge(p) || ls[n] == MergeFailed(p, true) || ls[n] == MergeFailed(p, false)
    requires b > ss[n].verified || Held(WorkOf(ss[n], p)) <= ss[n].table.Keys
    ensures Covered(ss[n + 1].table, b) <==> Covered(ss[n].table, b)
  {
    RunKeeps(ss, ls, n, -1);
    RunIsComplete(ss, ls, n);
    assert StepAt(ss, ls, n);
    MergeKeepsCovered(ss[n], ls[n], ss[n + 1], p, b, -1);
  }

  // Above the last verified batch, whatever the locks were read from.
  lemma MergeKeepsCoverageAbove(ss: seq<State>, ls: seq<Label>, n: nat, p: ProverId, b: nat)
    requires IsRun(ss, ls) && n < |ls|
    requires forall i :: 0 <= i < n ==> CleanCleanup(ss[i], ls[i])
    requires ls[n] == Merge(p) || ls[n] == MergeFailed(p, true) || ls[n] == MergeFailed(p, false)
    requires b > ss[n].verified
    ensures Covered(ss[n + 1].table, b) <==> Covered(ss[n].table, b)
  {
    RunKeepsAbove(ss, ls, n, ss[n].verified);
    RunIsComplete(ss, ls, n);
    assert StepAt(ss, ls, n);
    MergeKeepsCovered(ss[n], ls[n], ss[n + 1], p, b, ss[n].verified);
  }

  // Steps of a prover other than a merge take away at most the row it holds, or rows that
  // are verified.
  lemma StepUncovers(s: State, l: Label, s': State, i: Interval)
    requires Complete(s) && Step(s, l) == Some(s') && i in s.table && i !in s'.table && !l.Merge?
    ensures || l.Restart? || (l.CleanupStale? && l.i == i) || i.to <= s'.verified
            || (l.BatchFailed? && WorkOf(s, l.p).Proving? && i == Interval(WorkOf(s, l.p).batch, WorkOf(s, l.p).batch))
  {
    assert RowComplete(i, s.table[i]);
  }

  // The only steps that take an unverified batch out of the table are a failed batch
  // proof, for its own batch, the cleanup of the row that holds it, and a restart.
  lemma CoverageLoss(ss: seq<State>, ls: seq<Label>, n: nat, b: nat)
    requires IsRun(ss, ls) && n < |ls|
    requires forall i :: 0 <= i < n ==> CleanCleanup(ss[i], ls[i])
    requires b > ss[n + 1].verified && Covered(ss[n].table, b) && !Covered(ss[n + 1].table, b)
    ensures || ls[n].Restart?
            || (ls[n].BatchFailed? && WorkOf(ss[n], ls[n].p) == Proving(b))
            || (ls[n].CleanupStale? && Contains(ls[n].i, b))
  {
    RunIsComplete(ss, ls, n);
    assert StepAt(ss, ls, n);
    VerifiedGrows(ss[n], ls[n], ss[n + 1]);
    if ls[n].Merge? {
      MergeKeepsCoverageAbove(ss, ls, n, ls[n].p, b);
    } else {
      var i :| i in ss[n].table && Contains(i, b);
      StepUncovers(ss[n], ls[n], ss[n + 1], i);
    }
  }

  // A step that brings an unverified batch into the table locks it, and every batch between
  // the number it was chosen on and that batch is there already.
  lemma CoverageGain(ss: seq<State>, ls: seq<Label>, n: nat, b: nat)
    requires IsRun(ss, ls) && n < |ls|
    requires forall i :: 0 <= i < n ==> CleanCleanup(ss[i], ls[i])
    requires b > ss[n + 1].verified && !Covered(ss[n].table, b) && Covered(ss[n + 1].table, b)
    ensures ls[n].LockBatch? && ls[n].batch == b && forall c :: ss[n].verified < c < b ==> Covered(ss[n].table, c)
  {
    assert StepAt(ss, ls, n);
    VerifiedGrows(ss[n], ls[n], ss[n + 1]);
    if ls[n].Merge? {
      MergeKeepsCoverageAbove(ss, ls, n, ls[n].p, b);
    } else {
      var i :| i in ss[n + 1].table && Contains(i, b);
      assert i !in ss[n].table;
    }
  }

  // The steps after which a batch has to be proved again.
  predicate Loses(l: Label) {
    l.BatchFailed? || l.CleanupStale? || l.Restart?
  }

  // As long as nothing is lost, the batches above the last verified one are taken in order:
  // below a batch that is covered, all are.
  lemma {:induction false} TakenInOrder(ss: seq<State>, ls: seq<Label>, n: nat, b: nat, c: nat)
    requires IsRun(ss, ls) && n <= |ls| && forall i :: 0 <= i < n ==> !Loses(ls[i])
    requires ss[n].verified < c < b && Covered(ss[n].table, b)
    ensures Covered(ss[n].table, c)
  {
    if n > 0 {
      assert StepAt(ss, ls, n - 1);
      VerifiedGrows(ss[n - 1], ls[n - 1], ss[n]);
      if Covered(ss[n - 1].table, b) {
        TakenInOrder(ss, ls, n - 1, b, c);
      } else {
        CoverageGain(ss, ls, n - 1, b);
      }
      if !Covered(ss[n].table, c) {
        CoverageLoss(ss, ls, n - 1, c);
      }
    }
  }
}
