/**
 Proofs and sequences, over every run: a stored proof lies inside one sequence or is made of
 whole ones, and a final proof is made of whole sequences and leaves no batch between the
 last verified one and its first one.
 */
module AggregatorSequences {
  import opened Wrappers
  import opened AggregatorMachine
  import opened AggregatorProofs

  ghost predicate Inside(q: map<nat, nat>, i: Interval) {
    exists f :: InSequence(q, f, i)
  }

  // The sequences follow one another and cover the batches from 1 to `virtual`.
  ghost predicate Tiles(q: map<nat, nat>, virtual: nat) {
    && (forall f :: f in q ==> 1 <= f <= q[f] <= virtual)
    && (forall f, g :: f in q && g in q && f < g ==> q[f] < g)
    && (forall b: nat :: 1 <= b <= virtual ==> Inside(q, Interval(b, b)))
  }

  ghost predicate Aligned(q: map<nat, nat>, i: Interval) {
    Inside(q, i) || Whole(q, i)
  }

  // Starts right after the last verified batch or before, and is made of whole sequences.
  ghost predicate IsNext(s: State, i: Interval) {
    i.from <= s.verified + 1 && Whole(s.sequences, i)
  }

  ghost predicate WorkAligned(s: State, w: Work) {
    match w
    case Idle => true
    case Proving(b) => Inside(s.sequences, Interval(b, b))
    case Aggregating(i, _, j, _) =>
      Aligned(s.sequences, i) && Aligned(s.sequences, j) && Aligned(s.sequences, Interval(i.from, j.to))
    case Holding(i, _) => Aligned(s.sequences, i)
    case Verifying(i, _) => IsNext(s, i)
  }

  ghost predicate AllAligned(s: State) {
    && Tiles(s.sequences, s.virtual)
    && (forall i :: i in s.table ==> Aligned(s.sequences, i))
    && (forall p :: WorkAligned(s, WorkOf(s, p)))
    && (s.sender.Some? ==> IsNext(s, s.sender.value.0))
  }

  /* ---------- preservation ---------- */

  lemma TilesMore(q: map<nat, nat>, virtual: nat, to: nat)
    requires Tiles(q, virtual) && virtual < to
    ensures Tiles(q[virtual + 1 := to], to)
  {
    var q' := q[virtual + 1 := to];
    assert virtual + 1 !in q;
    forall b: nat | 1 <= b <= to
      ensures Inside(q', Interval(b, b))
    {
      if b <= virtual {
        var f: nat :| InSequence(q, f, Interval(b, b));
        assert InSequence(q', f, Interval(b, b));
      } else {
        assert InSequence(q', virtual + 1, Interval(b, b));
      }
    }
  }

  lemma AlignedGrows(q: map<nat, nat>, q': map<nat, nat>, i: Interval)
    requires forall f :: f in q ==> f in q' && q'[f] == q[f]
    ensures Inside(q, i) ==> Inside(q', i)
    ensures Whole(q, i) ==> Whole(q', i)
  {
    if Inside(q, i) {
      var f: nat :| InSequence(q, f, i);
      assert InSequence(q', f, i);
    }
  }

  lemma WorkGrows(s: State, s': State, w: Work)
    requires WorkAligned(s, w) && s.verified <= s'.verified
    requires forall f :: f in s.sequences ==> f in s'.sequences && s'.sequences[f] == s.sequences[f]
    ensures WorkAligned(s', w)
  {
    var q, q' := s.sequences, s'.sequences;
    if w.Proving? {
      AlignedGrows(q, q', Interval(w.batch, w.batch));
    } else if w.Aggregating? {
      AlignedGrows(q, q', w.i);
      AlignedGrows(q, q', w.j);
      AlignedGrows(q, q', Interval(w.i.from, w.j.to));
    } else if w.Holding? || w.Verifying? {
      AlignedGrows(q, q', w.i);
    }
  }

  // L1 sequences or verifies batches.
  lemma OutsideKeepsAligned(s: State, l: Label, s': State)
    requires AllAligned(s) && Step(s, l) == Some(s') && (l.Sequence? || l.Verify?)
    ensures AllAligned(s')
  {
    if l.Sequence? {
      TilesMore(s.sequences, s.virtual, l.to);
    }
    forall i | i in s'.table
      ensures Aligned(s'.sequences, i)
    {
      AlignedGrows(s.sequences, s'.sequences, i);
    }
    forall p
      ensures WorkAligned(s', WorkOf(s', p))
    {
      WorkGrows(s, s', WorkOf(s, p));
    }
    if s.sender.Some? {
      AlignedGrows(s.sequences, s'.sequences, s.sender.value.0);
    }
  }

  // Two proofs that may be merged make one that is inside a sequence or of whole ones.
  lemma MergeableAligns(q: map<nat, nat>, i: Interval, j: Interval)
    requires Mergeable(q, i, j)
    ensures Aligned(q, i) && Aligned(q, j) && Aligned(q, Interval(i.from, j.to))
  {
    if f :| f in q && InSequence(q, f, i) && InSequence(q, f, j) {
      assert InSequence(q, f, Interval(i.from, j.to));
    }
  }

  // A step of prover `p` that adds at most rows which are aligned.
  lemma SetAligned(s: State, t: Table, p: ProverId, w: Work, s': State)
    requires AllAligned(s) && Set(s, t, p, w) == Some(s') && WorkAligned(s, w)
    requires forall i :: i in t && i !in s.table ==> Aligned(s.sequences, i)
    ensures AllAligned(s')
  {
    forall q
      ensures WorkAligned(s', WorkOf(s', q))
    {
      assert WorkAligned(s, WorkOf(s, q));
      assert q != p ==> WorkOf(s', q) == WorkOf(s, q);
    }
  }

  lemma ProverStepKeepsAligned(s: State, l: Label, s': State)
    requires AllAligned(s) && Complete(s) && Step(s, l) == Some(s')
    requires l.LockBatch? || l.BatchProved? || l.BatchFailed? || l.LockPair? || l.Merge? || l.MergeFailed?
          || l.Discard? || l.Release? || l.LockVerify? || l.VerifyFailed? || l.Dropped?
    ensures AllAligned(s')
  {
    var w := WorkOf(s, l.p);
    assert WorkAligned(s, w) && WorkComplete(w);
    if l.LockPair? {
      MergeableAligns(s.sequences, l.i, l.j);
    }
    SetAligned(s, s'.table, l.p, WorkOf(s', l.p), s');
  }

  lemma HandoverKeepsAligned(s: State, p: ProverId, s': State)
    requires AllAligned(s) && HandoverStep(s, p) == Some(s')
    ensures AllAligned(s')
  {
    assert WorkAligned(s, WorkOf(s, p));
    forall q
      ensures WorkAligned(s', WorkOf(s', q))
    {
      assert WorkAligned(s, WorkOf(s, q));
      assert WorkOf(s', q) == if q == p then Idle else WorkOf(s, q);
    }
  }

  lemma StepKeepsAligned(s: State, l: Label, s': State)
    requires AllAligned(s) && Complete(s) && Step(s, l) == Some(s')
    ensures AllAligned(s')
  {
    if l.Sequence? || l.Verify? {
      OutsideKeepsAligned(s, l, s');
    } else if l.SenderFailed? || l.SenderEnds? || l.Cleanup? || l.CleanupStale? || l.Restart? {
      assert forall p :: WorkOf(s', p) == WorkOf(s, p) || WorkOf(s', p) == Idle;
      forall p
        ensures WorkAligned(s', WorkOf(s', p))
      {
        assert WorkAligned(s, WorkOf(s, p));
      }
    } else if l.Handover? {
      HandoverKeepsAligned(s, l.p, s');
    } else {
      ProverStepKeepsAligned(s, l, s');
    }
  }

  lemma {:induction false} RunIsAligned(ss: seq<State>, ls: seq<Label>, n: nat)
    requires IsRun(ss, ls) && n <= |ls|
    ensures AllAligned(ss[n])
  {
    if n == 0 {
      assert forall p :: WorkOf(ss[0], p) == Idle;
    } else {
      RunIsAligned(ss, ls, n - 1);
      RunIsComplete(ss, ls, n - 1);
      assert StepAt(ss, ls, n - 1);
      StepKeepsAligned(ss[n - 1], ls[n - 1], ss[n]);
    }
  }

  /* ---------- the theorems ---------- */

  // A sequence lies inside the interval or touches none of it.
  predicate Splits(q: map<nat, nat>, f: nat, i: Interval)
    requires f in q
  {
    !(i.from <= f && q[f] <= i.to) && !(q[f] < i.from || i.to < f)
  }

  lemma WholeSplitsNone(q: map<nat, nat>, virtual: nat, i: Interval, f: nat)
    requires Tiles(q, virtual) && Whole(q, i) && f in q
    ensures !Splits(q, f, i)
  {
    var g :| g in q && q[g] == i.to;
    assert f < i.from ==> q[f] < i.from;
    assert g < f ==> q[g] < f;
    assert f < g ==> q[f] < g;
  }

  // A stored proof lies inside one sequence or splits none.
  lemma StoredProofsAlign(ss: seq<State>, ls: seq<Label>, n: nat, i: Interval)
    requires IsRun(ss, ls) && n <= |ls| && i in ss[n].table
    ensures var q := ss[n].sequences;
            || (exists f :: f in q && f <= i.from <= i.to <= q[f])
            || (forall f :: f in q ==> !Splits(q, f, i))
  {
    RunIsAligned(ss, ls, n);
    RunIsComplete(ss, ls, n);
    var q := ss[n].sequences;
    assert Aligned(q, i) && RowComplete(i, ss[n].table[i]);
    if Inside(q, i) {
      var f: nat :| InSequence(q, f, i);
      assert f in q && f <= i.from <= i.to <= q[f];
    } else {
      forall f | f in q
        ensures !Splits(q, f, i)
      {
        WholeSplitsNone(q, ss[n].virtual, i, f);
      }
    }
  }

  // Who works on a final proof: a prover that verifies it, or the sender.
  ghost predicate IsFinal(s: State, i: Interval) {
    (exists p, x :: WorkOf(s, p) == Verifying(i, x)) || (s.sender.Some? && s.sender.value.0 == i)
  }

  // A final proof, taken from the table or straight from the prover that held it, leaves no
  // batch out between the last verified one and its own, and splits no sequence.
  lemma FinalProofIsNext(ss: seq<State>, ls: seq<Label>, n: nat, i: Interval)
    requires IsRun(ss, ls) && n <= |ls| && IsFinal(ss[n], i)
    ensures 1 <= i.from <= ss[n].verified + 1 && i.from <= i.to <= ss[n].virtual
    ensures i.from in ss[n].sequences
    ensures exists f :: f in ss[n].sequences && ss[n].sequences[f] == i.to
    ensures forall f :: f in ss[n].sequences ==> !Splits(ss[n].sequences, f, i)
  {
    RunIsAligned(ss, ls, n);
    RunIsComplete(ss, ls, n);
    var s := ss[n];
    if s.sender.Some? && s.sender.value.0 == i {
    } else {
      var p, x :| WorkOf(s, p) == Verifying(i, x);
      assert WorkAligned(s, WorkOf(s, p)) && WorkComplete(WorkOf(s, p));
    }
    assert IsNext(s, i);
    forall f | f in s.sequences
      ensures !Splits(s.sequences, f, i)
    {
      WholeSplitsNone(s.sequences, s.virtual, i, f);
    }
  }
}
