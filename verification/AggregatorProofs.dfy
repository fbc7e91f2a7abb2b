/**
 Over every run, stale-lock cleanup included: the proofs that can be handed out and the
 final proof on its way to L1 are complete.
 */
module AggregatorProofs {
  import opened Wrappers
  import opened AggregatorMachine

  // A proof proves exactly the batches of its interval, in order.
  ghost predicate Proves(p: Proof, i: Interval) {
    i.from <= i.to && Batches(p) == Numbers(i)
  }

  ghost predicate RowComplete(i: Interval, r: Row) {
    i.from <= i.to && (Proves(r.proof, i) || (r.locked && r.proof == Empty))
  }

  ghost predicate WorkComplete(w: Work) {
    match w
    case Aggregating(i, p, j, q) => i.to + 1 == j.from && Proves(p, i) && Proves(q, j)
    case Holding(i, p) => Proves(p, i)
    case Verifying(i, p) => Proves(p, i)
    case _ => true
  }

  ghost predicate Complete(s: State) {
    && (forall i :: i in s.table ==> RowComplete(i, s.table[i]))
    && (forall p :: WorkComplete(WorkOf(s, p)))
    && (s.sender.Some? ==> Proves(s.sender.value.1, s.sender.value.0))
  }

  lemma MergedProves(p: Proof, i: Interval, q: Proof, j: Interval)
    requires Proves(p, i) && Proves(q, j) && i.to + 1 == j.from
    ensures Proves(Aggregated(p, q), Interval(i.from, j.to))
  {
  }

  // A step of prover `p` that leaves every row as it was or complete.
  lemma SetComplete(s: State, t: Table, p: ProverId, w: Work, s': State)
    requires Complete(s) && Set(s, t, p, w) == Some(s') && WorkComplete(w)
    requires forall i :: i in t ==> (i in s.table && t[i] == s.table[i]) || RowComplete(i, t[i])
    ensures Complete(s')
  {
    forall q
      ensures WorkComplete(WorkOf(s', q))
    {
      assert q != p ==> WorkOf(s', q) == WorkOf(s, q);
    }
  }

  lemma ProverStepKeepsComplete(s: State, l: Label, s': State)
    requires Complete(s) && Step(s, l) == Some(s')
    requires l.LockBatch? || l.BatchProved? || l.BatchFailed? || l.LockPair? || l.Merge? || l.MergeFailed?
          || l.Discard? || l.Release? || l.LockVerify? || l.VerifyFailed? || l.Dropped?
    ensures Complete(s')
  {
    var w := WorkOf(s, l.p);
    if l.Merge? {
      MergedProves(w.p, w.i, w.q, w.j);
    }
    assert WorkComplete(w) && WorkComplete(WorkOf(s', l.p));
    SetComplete(s, s'.table, l.p, WorkOf(s', l.p), s');
  }

  lemma StepKeepsComplete(s: State, l: Label, s': State)
    requires Complete(s) && Step(s, l) == Some(s')
    ensures Complete(s')
  {
    if l.Handover? {
      assert WorkComplete(WorkOf(s, l.p));
      assert forall q :: WorkOf(s', q) == if q == l.p then Idle else WorkOf(s, q);
    } else if l.SenderFailed? || l.SenderEnds? || l.Cleanup? || l.Verify? || l.Sequence? || l.CleanupStale? {
      assert forall q :: WorkOf(s', q) == WorkOf(s, q);
    } else if l.Restart? {
      assert forall q :: WorkOf(s', q) == Idle;
    } else {
      ProverStepKeepsComplete(s, l, s');
    }
  }

  lemma {:induction false} RunIsComplete(ss: seq<State>, ls: seq<Label>, n: nat)
    requires IsRun(ss, ls) && n <= |ls|
    ensures Complete(ss[n])
  {
    if n == 0 {
      assert forall p :: WorkOf(ss[0], p) == Idle;
    } else {
      RunIsComplete(ss, ls, n - 1);
      assert StepAt(ss, ls, n - 1);
      StepKeepsComplete(ss[n - 1], ls[n - 1], ss[n]);
    }
  }

  // A proof that can be handed out, and the final proof on its way to L1, prove exactly
  // the batches of their interval, each once and in order.
  lemma ProofsAreComplete(ss: seq<State>, ls: seq<Label>, n: nat)
    requires IsRun(ss, ls) && n <= |ls|
    ensures forall i :: i in ss[n].table && !ss[n].table[i].locked ==> Proves(ss[n].table[i].proof, i)
    ensures ss[n].sender.Some? ==> Proves(ss[n].sender.value.1, ss[n].sender.value.0)
  {
    RunIsComplete(ss, ls, n);
  }
}
