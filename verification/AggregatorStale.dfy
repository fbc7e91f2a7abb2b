/**
 Why the safety theorems have their conditions: once a lock that is still in use is
 cleaned up, two stored proofs can overlap; and once a batch is locked on a number that was
 read before it was verified, two provers can hold it.
 */
module AggregatorStale {
  import opened Wrappers
  import opened AggregatorMachine
  import opened AggregatorProofs
  import opened AggregatorSequences
  import AggregatorSafety
  import opened AggregatorProgress

  const A: Interval := Interval(1, 1)
  const B: Interval := Interval(2, 2)
  const C: Interval := Interval(3, 3)
  const AB: Interval := Interval(1, 2)
  const BC: Interval := Interval(2, 3)

  // L1 has sequenced the batches from 1 to `to` at once.
  lemma OneSequence(to: nat) returns (ss: seq<State>, ls: seq<Label>, s: State)
    requires to > 0
    ensures At(ss, ls, s) && s == State(map[], map[], None, 0, to, map[1 := to])
  {
    var s0 := State(map[], map[], None, 0, 0, map[]);
    s := State(map[], map[], None, 0, to, map[1 := to]);
    ss, ls := Append([s0], [], s0, Sequence(to), s);
  }

  lemma CleanUp(ss: seq<State>, ls: seq<Label>, s: State, i: Interval, t: Table)
    returns (ss': seq<State>, ls': seq<Label>, s': State)
    requires At(ss, ls, s) && i in s.table && s.table[i].locked && s.table - {i} == t
    ensures s' == s.(table := t) && At(ss', ls', s')
    ensures forall q :: WorkOf(s', q) == WorkOf(s, q)
  {
    s' := s.(table := t);
    ss', ls' := Append(ss, ls, s, CleanupStale(i), s');
  }

  // Provers 1 and 3 have stored the proofs of batches 1 and 3; prover 2 works on batch 2.
  lemma SlowProver() returns (ss: seq<State>, ls: seq<Label>, s: State)
    ensures At(ss, ls, s) && s.verified == 0 && s.virtual == 3 && s.sequences == map[1 := 3]
    ensures s.table == map[A := Row(false, Batch(1)), B := Row(true, Empty), C := Row(false, Batch(3))]
    ensures WorkOf(s, 2) == Proving(2)
    ensures WorkOf(s, 1) == WorkOf(s, 3) == WorkOf(s, 4) == Idle
  {
    ss, ls, s := OneSequence(3);
    assert forall p :: WorkOf(s, p) == Idle;
    ss, ls, s := BatchIsProved(ss, ls, s, 1, 1);
    var t := map[A := Row(false, Batch(1)), B := Row(true, Empty)];
    assert s.table[B := Row(true, Empty)] == t;
    assert WorkOf(s, 2) == Idle && WorkOf(s, 3) == Idle && WorkOf(s, 4) == Idle && WorkOf(s, 1) == Idle;
    ss, ls, s := Next(ss, ls, s, LockBatch(2, 2, 0), t, 2, Proving(2));
    assert WorkOf(s, 3) == Idle && WorkOf(s, 4) == Idle && WorkOf(s, 1) == Idle;
    ss, ls, s := BatchIsProved(ss, ls, s, 3, 3);
    assert WorkOf(s, 2) == Proving(2) && WorkOf(s, 3) == Idle && WorkOf(s, 4) == Idle && WorkOf(s, 1) == Idle;
  }

  // The lock of prover 2 is cleaned up as stale, and prover 4 takes batch 2 as well.
  lemma TwoOnOneBatch() returns (ss: seq<State>, ls: seq<Label>, s: State)
    ensures At(ss, ls, s) && s.sequences == map[1 := 3] && s.verified == 0 && s.virtual == 3
    ensures s.table == map[A := Row(false, Batch(1)), B := Row(true, Empty), C := Row(false, Batch(3))]
    ensures WorkOf(s, 2) == Proving(2) && WorkOf(s, 4) == Proving(2)
    ensures WorkOf(s, 1) == Idle && WorkOf(s, 3) == Idle
  {
    ss, ls, s := SlowProver();
    var t := map[A := Row(false, Batch(1)), C := Row(false, Batch(3))];
    ss, ls, s := CleanUp(ss, ls, s, B, t);
    assert WorkOf(s, 2) == Proving(2) && WorkOf(s, 3) == Idle && WorkOf(s, 4) == Idle && WorkOf(s, 1) == Idle;
    assert !Covered(t, 2) && Contains(A, 1) && Covered(t, 1);
    ss, ls, s := Next(ss, ls, s, LockBatch(4, 2, 0), t[B := Row(true, Empty)], 4, Proving(2));
    assert WorkOf(s, 2) == Proving(2) && WorkOf(s, 3) == Idle && WorkOf(s, 1) == Idle;
  }

  // Prover 2 finishes first and releases the row that prover 4 is still working on.
  lemma RowIsReleased() returns (ss: seq<State>, ls: seq<Label>, s: State)
    ensures At(ss, ls, s) && s.sequences == map[1 := 3] && s.verified == 0 && s.virtual == 3
    ensures s.table == map[A := Row(false, Batch(1)), B := Row(false, Batch(2)), C := Row(false, Batch(3))]
    ensures WorkOf(s, 4) == Proving(2) && WorkOf(s, 1) == WorkOf(s, 3) == Idle
  {
    ss, ls, s := TwoOnOneBatch();
    ss, ls, s := Next(ss, ls, s, BatchProved(2), s.table, 2, Holding(B, Batch(2)));
    assert WorkOf(s, 4) == Proving(2) && WorkOf(s, 3) == Idle && WorkOf(s, 1) == Idle;
    var t := map[A := Row(false, Batch(1)), B := Row(false, Batch(2)), C := Row(false, Batch(3))];
    assert UpdateProof(s.table, B, Row(false, Batch(2))) == t;
    ss, ls, s := Next(ss, ls, s, Release(2, true), t, 2, Idle);
  }

  // So the lower neighbour can lock it.
  lemma LowerNeighbourLocks() returns (ss: seq<State>, ls: seq<Label>, s: State)
    ensures At(ss, ls, s) && s.sequences == map[1 := 3] && s.verified == 0 && s.virtual == 3
    ensures s.table == map[A := Row(true, Batch(1)), B := Row(true, Batch(2)), C := Row(false, Batch(3))]
    ensures WorkOf(s, 1) == Aggregating(A, Batch(1), B, Batch(2))
    ensures WorkOf(s, 4) == Proving(2) && WorkOf(s, 3) == Idle
  {
    ss, ls, s := RowIsReleased();
    var t := map[A := Row(true, Batch(1)), B := Row(true, Batch(2)), C := Row(false, Batch(3))];
    assert s.table[A := Row(true, Batch(1))][B := Row(true, Batch(2))] == t;
    assert InSequence(s.sequences, 1, A) && InSequence(s.sequences, 1, B);
    ss, ls, s := Next(ss, ls, s, LockPair(1, A, B), t, 1, Aggregating(A, Batch(1), B, Batch(2)));
  }

  // Prover 4 then releases the same row, and the upper neighbour can lock it as well.
  lemma BothNeighboursLock() returns (ss: seq<State>, ls: seq<Label>, s: State)
    ensures At(ss, ls, s) && s.sequences == map[1 := 3] && s.verified == 0 && s.virtual == 3
    ensures s.table == map[A := Row(true, Batch(1)), B := Row(true, Batch(2)), C := Row(true, Batch(3))]
    ensures WorkOf(s, 1) == Aggregating(A, Batch(1), B, Batch(2))
    ensures WorkOf(s, 3) == Aggregating(B, Batch(2), C, Batch(3))
  {
    ss, ls, s := LowerNeighbourLocks();
    var w1 := Aggregating(A, Batch(1), B, Batch(2));
    ss, ls, s := Next(ss, ls, s, BatchProved(4), s.table, 4, Holding(B, Batch(2)));
    assert WorkOf(s, 3) == Idle && WorkOf(s, 1) == w1;
    var t := map[A := Row(true, Batch(1)), B := Row(false, Batch(2)), C := Row(false, Batch(3))];
    assert UpdateProof(s.table, B, Row(false, Batch(2))) == t;
    ss, ls, s := Next(ss, ls, s, Release(4, true), t, 4, Idle);
    assert WorkOf(s, 3) == Idle && WorkOf(s, 1) == w1;
    t := map[A := Row(true, Batch(1)), B := Row(true, Batch(2)), C := Row(true, Batch(3))];
    assert s.table[B := Row(true, Batch(2))][C := Row(true, Batch(3))] == t;
    assert InSequence(s.sequences, 1, B) && InSequence(s.sequences, 1, C);
    ss, ls, s := Next(ss, ls, s, LockPair(3, B, C), t, 3, Aggregating(B, Batch(2), C, Batch(3)));
    assert WorkOf(s, 1) == w1;
  }

  // Both neighbours merge.
  lemma BothNeighboursMerge() returns (ss: seq<State>, ls: seq<Label>, s: State)
    ensures At(ss, ls, s) && s.verified == 0 && s.virtual == 3 && s.sequences == map[1 := 3]
    ensures var p, q := Aggregated(Batch(1), Batch(2)), Aggregated(Batch(2), Batch(3));
            && s.table == map[AB := Row(true, p), BC := Row(true, q)]
            && WorkOf(s, 1) == Holding(AB, p) && WorkOf(s, 3) == Holding(BC, q)
  {
    ss, ls, s := BothNeighboursLock();
    var p, q := Aggregated(Batch(1), Batch(2)), Aggregated(Batch(2), Batch(3));
    var t := map[AB := Row(true, p), C := Row(true, Batch(3))];
    assert DeleteWithin(s.table, 1, 2)[AB := Row(true, p)] == t;
    ss, ls, s := Next(ss, ls, s, Merge(1), t, 1, Holding(AB, p));
    var u := map[AB := Row(true, p), BC := Row(true, q)];
    assert DeleteWithin(t, 2, 3)[BC := Row(true, q)] == u;
    ss, ls, s := Next(ss, ls, s, Merge(3), u, 3, Holding(BC, q));
  }

  // The stored proofs [1, 2] and [2, 3] overlap on batch 2.
  lemma StaleCleanupOverlaps() returns (ss: seq<State>, ls: seq<Label>)
    ensures IsRun(ss, ls)
    ensures Interval(1, 2) in ss[|ls|].table && Interval(2, 3) in ss[|ls|].table
  {
    var s;
    ss, ls, s := BothNeighboursMerge();
  }

  /* ---------- and nothing is sent any more ---------- */

  // Both proofs are released and the node is restarted.
  lemma OverlapIsStored() returns (ss: seq<State>, ls: seq<Label>, s: State)
    ensures At(ss, ls, s) && s.verified == 0 && s.virtual == 3 && s.sequences == map[1 := 3]
    ensures s.sender == None && forall p :: WorkOf(s, p) == Idle
    ensures s.table == map[AB := Row(false, Aggregated(Batch(1), Batch(2))), BC := Row(false, Aggregated(Batch(2), Batch(3)))]
  {
    ss, ls, s := BothNeighboursMerge();
    var p, q := Aggregated(Batch(1), Batch(2)), Aggregated(Batch(2), Batch(3));
    var t := s.table[AB := Row(false, p)];
    ss, ls, s := Next(ss, ls, s, Release(1, true), t, 1, Idle);
    assert WorkOf(s, 3) == Holding(BC, q);
    ss, ls, s := Next(ss, ls, s, Release(3, true), t[BC := Row(false, q)], 3, Idle);
    ss, ls, s := RestartFrees(ss, ls, s);
    assert s.table == map[AB := Row(false, p), BC := Row(false, q)];
  }

  ghost predicate WorksAbove(w: Work) {
    match w
    case Idle => true
    case Proving(b) => b >= 4
    case Aggregating(i, _, j, _) => i.from >= 4 && j.from >= 4
    case Holding(i, _) => i.from >= 4
    case Verifying(_, _) => false
  }

  // Batches 1 to 3 are one sequence that is covered by the two overlapping proofs alone, and
  // whoever works does so above it.
  ghost predicate Blocked(s: State) {
    && s.verified == 0 && s.virtual >= 3 && 1 in s.sequences && s.sequences[1] == 3
    && (forall f :: f in s.sequences ==> f == 1 || f >= 4)
    && AB in s.table && !s.table[AB].locked && BC in s.table && !s.table[BC].locked
    && (forall i :: i in s.table ==> i == AB || i == BC || i.from >= 4)
    && s.sender.None? && forall p :: WorksAbove(WorkOf(s, p))
  }

  // A prover's step leaves the two rows alone and goes on working above them.
  lemma SetBlocked(s: State, t: Table, p: ProverId, w: Work, s': State)
    requires Blocked(s) && Set(s, t, p, w) == Some(s') && WorksAbove(w)
    requires AB in t && t[AB] == s.table[AB] && BC in t && t[BC] == s.table[BC]
    requires forall i :: i in t ==> i in s.table || i.from >= 4
    ensures Blocked(s')
  {
    forall q
      ensures WorksAbove(WorkOf(s', q))
    {
      assert WorksAbove(WorkOf(s, q));
      assert q != p ==> WorkOf(s', q) == WorkOf(s, q);
    }
  }

  lemma LockBatchKeepsBlocked(s: State, p: ProverId, b: nat, read: nat, s': State)
    requires Blocked(s) && LockBatchStep(s, p, b, read) == Some(s')
    ensures Blocked(s')
  {
    assert Contains(AB, 1) && Contains(AB, 2) && Contains(BC, 3);
    SetBlocked(s, s'.table, p, Proving(b), s');
  }

  lemma LockPairKeepsBlocked(s: State, p: ProverId, i: Interval, j: Interval, s': State)
    requires Blocked(s) && Complete(s) && AllAligned(s) && LockPairStep(s, p, i, j) == Some(s')
    ensures Blocked(s')
  {
    assert RowComplete(i, s.table[i]);
    SetBlocked(s, s'.table, p, WorkOf(s', p), s');
  }

  lemma NothingToVerify(s: State, p: ProverId, i: Interval)
    requires Blocked(s) && AllAligned(s)
    ensures LockVerifyStep(s, p, i).None?
  {
  }

  lemma WorkKeepsBlocked(s: State, l: Label, s': State)
    requires Blocked(s) && Complete(s) && Step(s, l) == Some(s')
    requires l.BatchProved? || l.BatchFailed? || l.Merge? || l.MergeFailed? || l.Discard? || l.Release?
          || l.VerifyFailed? || l.Dropped?
    ensures Blocked(s')
  {
    assert WorksAbove(WorkOf(s, l.p)) && WorkComplete(WorkOf(s, l.p));
    SetBlocked(s, s'.table, l.p, WorkOf(s', l.p), s');
  }

  lemma NothingToSend(s: State, p: ProverId)
    requires Blocked(s)
    ensures HandoverStep(s, p).None?
  {
    assert WorksAbove(WorkOf(s, p));
  }

  lemma StepKeepsBlocked(s: State, l: Label, s': State)
    requires Blocked(s) && Complete(s) && AllAligned(s) && Step(s, l) == Some(s') && !l.Verify?
    ensures Blocked(s')
  {
    if l.LockBatch? {
      LockBatchKeepsBlocked(s, l.p, l.batch, l.read, s');
    } else if l.LockPair? {
      LockPairKeepsBlocked(s, l.p, l.i, l.j, s');
    } else if l.LockVerify? {
      NothingToVerify(s, l.p, l.i);
    } else if l.Handover? {
      NothingToSend(s, l.p);
    } else if l.SenderFailed? || l.SenderEnds? || l.Cleanup? || l.Sequence? || l.CleanupStale? || l.Restart? {
      forall p
        ensures WorksAbove(WorkOf(s', p))
      {
        assert WorksAbove(WorkOf(s, p));
        assert WorkOf(s', p) == WorkOf(s, p) || WorkOf(s', p) == Idle;
      }
    } else {
      WorkKeepsBlocked(s, l, s');
    }
  }

  // After that, whatever else happens, no final proof is made or sent as long as nothing is
  // verified by others.
  lemma {:induction false} OverlapBlocks(ss: seq<State>, ls: seq<Label>, n: nat, m: nat)
    requires IsRun(ss, ls) && n <= m <= |ls| && Blocked(ss[n])
    requires forall i :: n <= i < m ==> !ls[i].Verify?
    ensures Blocked(ss[m]) && ss[m].sender.None? && forall p :: !WorkOf(ss[m], p).Verifying?
  {
    if n < m {
      OverlapBlocks(ss, ls, n, m - 1);
      RunIsComplete(ss, ls, m - 1);
      RunIsAligned(ss, ls, m - 1);
      assert StepAt(ss, ls, m - 1);
      StepKeepsBlocked(ss[m - 1], ls[m - 1], ss[m]);
    }
    forall p
      ensures !WorkOf(ss[m], p).Verifying?
    {
      assert WorksAbove(WorkOf(ss[m], p));
    }
  }

  /* ---------- a lock on an old number ---------- */

  // Batch 1 is verified and cleaned up while prover 1 still works on it.
  lemma VerifiedEarly() returns (ss: seq<State>, ls: seq<Label>, s: State)
    ensures At(ss, ls, s) && s.table == map[] && s.verified == 1 && s.virtual == 1
    ensures WorkOf(s, 1) == Proving(1) && WorkOf(s, 2) == Idle
  {
    ss, ls, s := OneSequence(1);
    var t := map[A := Row(true, Empty)];
    ss, ls, s := Next(ss, ls, s, LockBatch(1, 1, 0), t, 1, Proving(1));
    ss, ls := Append(ss, ls, s, Verify(1), s.(verified := 1));
    s := s.(verified := 1);
    assert DeleteUpTo(t, 1) == map[];
    ss, ls := Append(ss, ls, s, Cleanup(1), s.(table := map[]));
    s := s.(table := map[]);
  }

  // Prover 2 has read the last verified batch before that and locks the batch as well.
  lemma EarlyReadOverlaps() returns (ss: seq<State>, ls: seq<Label>)
    ensures IsRun(ss, ls)
    ensures A in AggregatorSafety.HeldBy(ss[|ls|], AggregatorSafety.Prover(1))
    ensures A in AggregatorSafety.HeldBy(ss[|ls|], AggregatorSafety.Prover(2))
  {
    var s;
    ss, ls, s := VerifiedEarly();
    ss, ls, s := Next(ss, ls, s, LockBatch(2, 1, 0), map[A := Row(true, Empty)], 2, Proving(1));
  }
}
