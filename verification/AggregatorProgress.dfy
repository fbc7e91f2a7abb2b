/**
 What the aggregator gets done: from a given state the named steps are possible and lead to
 the stated table. Nothing here names the functions of the machine but `Step` itself.
 */
module AggregatorProgress {
  import opened Wrappers
  import opened AggregatorMachine
  import opened AggregatorProofs
  import opened AggregatorSafety
  import opened AggregatorSequences

  ghost predicate At(ss: seq<State>, ls: seq<Label>, s: State) {
    IsRun(ss, ls) && ss[|ls|] == s
  }

  lemma Append(ss: seq<State>, ls: seq<Label>, s: State, l: Label, s': State)
    returns (ss': seq<State>, ls': seq<Label>)
    requires At(ss, ls, s) && Step(s, l) == Some(s')
    ensures At(ss', ls', s') && ss' == ss + [s'] && ls' == ls + [l]
  {
    ss', ls' := ss + [s'], ls + [l];
    forall i | 0 <= i < |ls'|
      ensures StepAt(ss', ls', i)
    {
      if i < |ls| {
        assert StepAt(ss, ls, i) && ss'[i] == ss[i] && ss'[i + 1] == ss[i + 1];
      }
    }
  }

  lemma Next(ss: seq<State>, ls: seq<Label>, s: State, l: Label, t: Table, p: ProverId, w: Work)
    returns (ss': seq<State>, ls': seq<Label>, s': State)
    requires At(ss, ls, s) && Step(s, l) == Set(s, t, p, w)
    ensures s' == s.(table := t, provers := s.provers[p := w])
    ensures WorkOf(s', p) == w && forall q :: q != p ==> WorkOf(s', q) == WorkOf(s, q)
    ensures At(ss', ls', s') && ss' == ss + [s'] && ls' == ls + [l]
  {
    s' := s.(table := t, provers := s.provers[p := w]);
    ss', ls' := Append(ss, ls, s, l, s');
  }

  /* ---------- proving and merging ---------- */

  ghost predicate Stored(s: State, b: nat) {
    exists i :: i in s.table && i.from <= b <= i.to
  }

  lemma StoredIsCovered(s: State)
    ensures forall b: nat :: Stored(s, b) <==> Covered(s.table, b)
  {
    assert forall i, b: nat :: Contains(i, b) <==> i.from <= b <= i.to;
  }

  // Two unlocked proofs that meet, inside one sequence or each of whole ones.
  ghost predicate Pair(s: State, i: Interval, j: Interval) {
    var q := s.sequences;
    && i in s.table && j in s.table && !s.table[i].locked && !s.table[j].locked
    && i.from <= i.to && i.to + 1 == j.from && j.from <= j.to
    && (|| (exists f :: f in q && f <= i.from && j.to <= q[f])
        || (i.from in q && j.from in q && (exists f :: f in q && q[f] == i.to) && exists f :: f in q && q[f] == j.to))
  }

  lemma PairIsSelectable(s: State, i: Interval, j: Interval)
    requires i.from <= i.to && j.from <= j.to
    ensures Pair(s, i, j) <==> Selectable(s, i, j)
  {
    if f :| f in s.sequences && f <= i.from && j.to <= s.sequences[f] {
      assert i.to + 1 == j.from ==> InSequence(s.sequences, f, i) && InSequence(s.sequences, f, j);
    }
  }

  // Exactly when an idle prover can take a batch, on the number `read`.
  lemma BatchIsTakenIff(s: State, p: ProverId, b: nat, read: nat)
    ensures Step(s, LockBatch(p, b, read)).Some? <==>
            && WorkOf(s, p) == Idle && read <= s.verified && read < b <= s.virtual
            && !Stored(s, b) && forall c :: read < c < b ==> Stored(s, c)
  {
    StoredIsCovered(s);
  }

  // Exactly when it can take a pair: no other pair starts earlier.
  lemma PairIsTakenIff(ss: seq<State>, ls: seq<Label>, s: State, p: ProverId, i: Interval, j: Interval)
    requires At(ss, ls, s)
    ensures Step(s, LockPair(p, i, j)).Some? <==>
            && WorkOf(s, p) == Idle && Pair(s, i, j)
            && forall x, y :: x in s.table && y in s.table && Pair(s, x, y) ==> i.from <= x.from
  {
    RunIsComplete(ss, ls, |ls|);
    forall x, y | x in s.table && y in s.table
      ensures Pair(s, x, y) <==> Selectable(s, x, y)
    {
      assert RowComplete(x, s.table[x]) && RowComplete(y, s.table[y]);
      PairIsSelectable(s, x, y);
    }
  }

  // An idle prover takes the first unverified batch that no row covers, proves it and stores
  // the proof.
  lemma BatchIsProved(ss: seq<State>, ls: seq<Label>, s: State, p: ProverId, b: nat)
    returns (ss': seq<State>, ls': seq<Label>, s': State)
    requires At(ss, ls, s) && WorkOf(s, p).Idle? && s.verified < b <= s.virtual
    requires !Stored(s, b) && forall c :: s.verified < c < b ==> Stored(s, c)
    ensures At(ss', ls', s') && ss <= ss'
    ensures ls' == ls + [LockBatch(p, b, s.verified)] + [BatchProved(p)] + [Release(p, true)]
    ensures s' == s.(table := s.table[Interval(b, b) := Row(false, Batch(b))], provers := s.provers[p := Idle])
  {
    var n := Interval(b, b);
    var t := s.table[n := Row(true, Empty)];
    StoredIsCovered(s);
    ss', ls', s' := Next(ss, ls, s, LockBatch(p, b, s.verified), t, p, Proving(b));
    ss', ls', s' := Next(ss', ls', s', BatchProved(p), t, p, Holding(n, Batch(b)));
    ss', ls', s' := Next(ss', ls', s', Release(p, true), t[n := Row(false, Batch(b))], p, Idle);
  }

  // An idle prover merges the first two unlocked proofs that meet.
  lemma PairIsMerged(ss: seq<State>, ls: seq<Label>, s: State, p: ProverId, i: Interval, j: Interval)
    returns (ss': seq<State>, ls': seq<Label>, s': State)
    requires At(ss, ls, s) && WorkOf(s, p).Idle? && Pair(s, i, j)
    requires forall x, y :: x in s.table && y in s.table && Pair(s, x, y) ==> i.from <= x.from
    ensures At(ss', ls', s') && ss <= ss' && ls' == ls + [LockPair(p, i, j)] + [Merge(p)] + [Release(p, true)]
    ensures s' == s.(table := s'.table, provers := s.provers[p := Idle])
    ensures forall k :: k in s'.table <==>
              k == Interval(i.from, j.to) || (k in s.table && (k.from < i.from || j.to < k.to))
    ensures forall k :: k in s'.table ==>
              s'.table[k] == if k == Interval(i.from, j.to)
                             then Row(false, Aggregated(s.table[i].proof, s.table[j].proof)) else s.table[k]
  {
    var x, y := s.table[i].proof, s.table[j].proof;
    var m, a := Interval(i.from, j.to), Aggregated(x, y);
    var t := s.table[i := Row(true, x)][j := Row(true, y)];
    PairIsTaken(ss, ls, s, p, i, j);
    ss', ls', s' := Next(ss, ls, s, LockPair(p, i, j), t, p, Aggregating(i, x, j, y));
    t := DeleteWithin(t, m.from, m.to);
    ss', ls', s' := Next(ss', ls', s', Merge(p), t[m := Row(true, a)], p, Holding(m, a));
    ss', ls', s' := Next(ss', ls', s', Release(p, true), t[m := Row(true, a)][m := Row(false, a)], p, Idle);
    MergedRows(s.table, i, j, Row(true, x), Row(true, y), Row(true, a), Row(false, a));
  }

  lemma PairIsTaken(ss: seq<State>, ls: seq<Label>, s: State, p: ProverId, i: Interval, j: Interval)
    requires At(ss, ls, s) && WorkOf(s, p).Idle? && Pair(s, i, j)
    requires forall x, y :: x in s.table && y in s.table && Pair(s, x, y) ==> i.from <= x.from
    ensures var x, y := s.table[i].proof, s.table[j].proof;
            Step(s, LockPair(p, i, j)) == Set(s, s.table[i := Row(true, x)][j := Row(true, y)], p, Aggregating(i, x, j, y))
  {
    PairIsTakenIff(ss, ls, s, p, i, j);
  }

  lemma MergedRows(t: Table, i: Interval, j: Interval, x: Row, y: Row, a: Row, b: Row)
    requires i in t && j in t && i.from <= i.to && i.to + 1 == j.from && j.from <= j.to
    ensures var m := Interval(i.from, j.to);
            var t' := DeleteWithin(t[i := x][j := y], m.from, m.to)[m := a][m := b];
            && (forall k :: k in t' <==> k == m || (k in t && (k.from < i.from || j.to < k.to)))
            && forall k :: k in t' ==> t'[k] == if k == m then b else t[k]
  {
  }

  /* ---------- giving back ---------- */

  // A prover that locks something and fails leaves the table as it found it, so that the
  // next one can start over.
  lemma FailedBatchIsUndone(ss: seq<State>, ls: seq<Label>, s: State, p: ProverId, b: nat, read: nat, s1: State, s2: State)
    requires At(ss, ls, s) && Step(s, LockBatch(p, b, read)) == Some(s1) && Step(s1, BatchFailed(p, true)) == Some(s2)
    ensures s2.table == s.table && s2.sender == s.sender && forall r :: WorkOf(s2, r) == WorkOf(s, r)
  {
    RunIsComplete(ss, ls, |ls|);
    assert forall i :: i in s.table ==> !Contains(i, b);
    BatchRowGoes(s.table, b, s1.table[Interval(b, b)]);
  }

  lemma BatchRowGoes(t: Table, b: nat, r: Row)
    requires forall i :: i in t ==> RowComplete(i, t[i]) && !Contains(i, b)
    ensures DeleteWithin(t[Interval(b, b) := r], b, b) == t
  {
  }

  lemma FailedMergeIsUndone(s: State, p: ProverId, i: Interval, j: Interval, s1: State, s2: State)
    requires Step(s, LockPair(p, i, j)) == Some(s1) && Step(s1, MergeFailed(p, true)) == Some(s2)
    ensures s2.table == s.table && s2.sender == s.sender && forall r :: WorkOf(s2, r) == WorkOf(s, r)
  {
  }

  lemma FailedProofIsUndone(s: State, p: ProverId, i: Interval, s1: State, s2: State)
    requires Step(s, LockVerify(p, i)) == Some(s1) && Step(s1, VerifyFailed(p, true)) == Some(s2)
    ensures s2.table == s.table && s2.sender == s.sender && forall r :: WorkOf(s2, r) == WorkOf(s, r)
  {
  }

  // When sending fails the final proof is there to be sent again.
  lemma SenderUndoesLock(s: State, p: ProverId, i: Interval, s1: State, s2: State, s3: State)
    requires Step(s, LockVerify(p, i)) == Some(s1) && Step(s1, Handover(p)) == Some(s2)
    requires Step(s2, SenderFailed(true)) == Some(s3)
    ensures s3.table == s.table && s3.sender == None && forall r :: WorkOf(s3, r) == WorkOf(s, r)
  {
  }

  // After a restart nobody holds anything, no row is locked, and every row that was not
  // locked is still there.
  lemma RestartFrees(ss: seq<State>, ls: seq<Label>, s: State)
    returns (ss': seq<State>, ls': seq<Label>, s': State)
    requires At(ss, ls, s)
    ensures At(ss', ls', s') && ss' == ss + [s'] && ls' == ls + [Restart]
    ensures s' == s.(table := s'.table, provers := map[], sender := None)
    ensures forall p :: WorkOf(s', p) == Idle
    ensures forall i :: i in s'.table <==> i in s.table && !s.table[i].locked
    ensures forall i :: i in s'.table ==> s'.table[i] == s.table[i]
  {
    s' := s.(table := DeleteLocked(s.table), provers := map[], sender := None);
    ss', ls' := Append(ss, ls, s, Restart, s');
  }

  // A held proof of verified batches is thrown away and not stored again.
  lemma OldProofIsDropped(ss: seq<State>, ls: seq<Label>, s: State, p: ProverId, i: Interval, x: Proof)
    returns (ss': seq<State>, ls': seq<Label>, s': State)
    requires At(ss, ls, s) && WorkOf(s, p) == Holding(i, x) && i.to <= s.verified
    ensures At(ss', ls', s') && ls' == ls + [Discard(p)] + [Release(p, true)] && WorkOf(s', p) == Idle
    ensures i !in s'.table
    ensures forall k :: k in s'.table <==> k in s.table && (k.from < i.from || i.to < k.to)
    ensures forall k :: k in s'.table ==> s'.table[k] == s.table[k]
  {
    var t := DeleteWithin(s.table, i.from, i.to);
    ss', ls', s' := Next(ss, ls, s, Discard(p), t, p, Holding(i, x));
    ss', ls', s' := Next(ss', ls', s', Release(p, true), t, p, Idle);
  }

  // The cleanup of verified batches takes the rows that end there and no others.
  lemma VerifiedRowsGo(s: State, to: nat, s': State)
    requires Step(s, Cleanup(to)) == Some(s')
    ensures s' == s.(table := s'.table)
    ensures forall k :: k in s'.table <==> k in s.table && to < k.to
    ensures forall k :: k in s'.table ==> s'.table[k] == s.table[k] && (k in s.table && k.to > s.verified ==> k in s'.table)
  {
  }

  /* ---------- final proofs ---------- */

  // While nothing is being sent, an idle prover can send every unlocked proof of whole
  // sequences that starts at the next batch to verify or below.
  lemma ReadyProofIsSent(ss: seq<State>, ls: seq<Label>, s: State, p: ProverId, i: Interval)
    returns (ss': seq<State>, ls': seq<Label>, s': State)
    requires At(ss, ls, s) && WorkOf(s, p).Idle? && s.sender.None?
    requires i in s.table && !s.table[i].locked && i.from <= s.verified + 1
    requires i.from in s.sequences && exists f :: f in s.sequences && s.sequences[f] == i.to
    ensures At(ss', ls', s') && ss <= ss' && ls' == ls + [LockVerify(p, i)] + [Handover(p)]
    ensures s' == s.(table := s.table[i := Row(true, s.table[i].proof)], provers := s.provers[p := Idle],
                     sender := Some((i, s.table[i].proof)))
  {
    var x := s.table[i].proof;
    ss', ls', s' := Next(ss, ls, s, LockVerify(p, i), s.table[i := Row(true, x)], p, Verifying(i, x));
    var s2 := s'.(sender := Some((i, x)), provers := s'.provers[p := Idle]);
    ss', ls' := Append(ss', ls', s', Handover(p), s2);
    s' := s2;
  }

  // Exactly when it can take a proof to verify.
  lemma ProofIsTakenIff(s: State, p: ProverId, i: Interval)
    ensures Step(s, LockVerify(p, i)).Some? <==>
            && WorkOf(s, p) == Idle && i in s.table && !s.table[i].locked && i.from <= s.verified + 1
            && i.from in s.sequences && exists f :: f in s.sequences && s.sequences[f] == i.to
  {
  }

  // When the sender is done with a proof the next one can be handed over.
  lemma SenderIsFree(ss: seq<State>, ls: seq<Label>, s: State, p: ProverId, i: Interval)
    returns (ss': seq<State>, ls': seq<Label>, s': State)
    requires At(ss, ls, s) && Step(s, LockVerify(p, i)).Some?
    ensures At(ss', ls', s') && ls' == ls + [SenderEnds] + [LockVerify(p, i)] + [Handover(p)]
    ensures s'.sender == Some((i, s.table[i].proof)) && WorkOf(s', p) == Idle
    ensures s'.table == s.table[i := Row(true, s.table[i].proof)]
  {
    var s1 := s.(sender := None);
    ss', ls' := Append(ss, ls, s, SenderEnds, s1);
    ss', ls', s' := ReadyProofIsSent(ss', ls', s1, p, i);
  }

  // And it sends such a proof that it has just made.
  lemma HeldProofIsSent(ss: seq<State>, ls: seq<Label>, s: State, p: ProverId, i: Interval, x: Proof)
    returns (ss': seq<State>, ls': seq<Label>, s': State)
    requires At(ss, ls, s) && WorkOf(s, p) == Holding(i, x) && s.sender.None? && i.from <= s.verified + 1
    requires i.from in s.sequences && exists f :: f in s.sequences && s.sequences[f] == i.to
    ensures At(ss', ls', s') && ls' == ls + [Handover(p)]
    ensures s' == s.(provers := s.provers[p := Idle], sender := Some((i, x)))
  {
    s' := s.(provers := s.provers[p := Idle], sender := Some((i, x)));
    ss', ls' := Append(ss, ls, s, Handover(p), s');
  }

  /* ---------- the next sequence can always be sent ---------- */

  // A run in which each stale lock that is cleaned up is held by nobody or verified.
  ghost predicate Clean(ss: seq<State>, ls: seq<Label>, s: State) {
    At(ss, ls, s) && forall i :: 0 <= i < |ls| ==> CleanCleanup(ss[i], ls[i])
  }

  // Nobody works, nothing is locked, and every row reaches above the last verified batch.
  ghost predicate Quiet(s: State) {
    && s.sender.None? && (forall p :: WorkOf(s, p) == Idle)
    && forall i :: i in s.table ==> !s.table[i].locked && s.verified < i.to
  }

  lemma CleanMore(ss: seq<State>, ls: seq<Label>, s: State, ss': seq<State>, ls': seq<Label>, s': State)
    requires Clean(ss, ls, s) && At(ss', ls', s') && ss <= ss' && ls <= ls'
    requires forall i :: |ls| <= i < |ls'| ==> !ls'[i].CleanupStale?
    ensures Clean(ss', ls', s')
  {
    forall i | 0 <= i < |ls'|
      ensures CleanCleanup(ss'[i], ls'[i])
    {
      if i < |ls| {
        assert CleanCleanup(ss[i], ls[i]) && ss'[i] == ss[i];
      }
    }
  }

  // What is known of the rows that reach above the last verified batch.
  lemma RowsAbove(ss: seq<State>, ls: seq<Label>, s: State)
    requires Clean(ss, ls, s)
    ensures Tiles(s.sequences, s.virtual)
    ensures forall i :: i in s.table ==> Aligned(s.sequences, i) && i.from <= i.to
    ensures forall i, j :: i in s.table && j in s.table && i != j ==> Apart(s.verified, i, j)
  {
    RunIsAligned(ss, ls, |ls|);
    RunIsComplete(ss, ls, |ls|);
    NeverOverlapAboveVerified(ss, ls, |ls|);
  }

  // The row that covers batch `b` of the sequence `f`, above the prefix that is proved.
  lemma NextRow(q: map<nat, nat>, virtual: nat, f: nat, b: nat, j: Interval)
    requires Tiles(q, virtual) && f in q && f <= b <= q[f] && Aligned(q, j) && Contains(j, b)
    ensures InSequence(q, f, j) || (Whole(q, j) && j.from <= f && q[f] <= j.to)
  {
    if Whole(q, j) {
      WholeSplitsNone(q, virtual, j, f);
    } else {
      var g: nat :| InSequence(q, g, j);
      assert g == f;
    }
  }

  // Proofs of a prefix of the next sequence grow until the whole sequence is proved, whatever
  // else is stored: a row above the prefix starts right after it or leaves room for a batch.
  lemma {:induction false} PrefixGrows(ss: seq<State>, ls: seq<Label>, s: State, p: ProverId, i: Interval)
    returns (ss': seq<State>, ls': seq<Label>, s': State)
    requires Clean(ss, ls, s) && Quiet(s) && i in s.table
    requires var f := s.verified + 1;
             i.from == f && f in s.sequences && i.to <= s.sequences[f]
    ensures Clean(ss', ls', s') && Quiet(s') && ss <= ss' && ls <= ls'
    ensures s' == s.(table := s'.table, provers := s'.provers)
    ensures Interval(s.verified + 1, s.sequences[s.verified + 1]) in s'.table
    decreases s.sequences[s.verified + 1] - i.to
  {
    if i.to == s.sequences[s.verified + 1] {
      ss', ls', s' := ss, ls, s;
    } else {
      var j;
      ss', ls', s', j := NeighbourIsReady(ss, ls, s, p, i);
      ss', ls', s' := MergedIsReady(ss', ls', s', p, i, j);
      ss', ls', s' := PrefixGrows(ss', ls', s', p, Interval(i.from, j.to));
    }
  }

  lemma MergedIsReady(ss: seq<State>, ls: seq<Label>, s: State, p: ProverId, i: Interval, j: Interval)
    returns (ss': seq<State>, ls': seq<Label>, s': State)
    requires Clean(ss, ls, s) && Quiet(s) && i in s.table && j in s.table
    requires i.from <= i.to && j.from == i.to + 1 && j.from <= j.to
    requires i.from == s.verified + 1 && i.from in s.sequences && j.to <= s.sequences[i.from]
    ensures Clean(ss', ls', s') && Quiet(s') && ss <= ss' && ls <= ls'
    ensures s' == s.(table := s'.table, provers := s'.provers) && Interval(i.from, j.to) in s'.table
  {
    LowestStarts(ss, ls, s, i);
    ss', ls', s' := PairIsMerged(ss, ls, s, p, i, j);
    CleanMore(ss, ls, s, ss', ls', s');
    assert forall r :: WorkOf(s', r) == WorkOf(s, r) || r == p;
    forall k | k in s'.table
      ensures !s'.table[k].locked && s'.verified < k.to
    {
      assert k != Interval(i.from, j.to) ==> k in s.table;
    }
  }

  // No row starts before one that starts at the next batch.
  lemma LowestStarts(ss: seq<State>, ls: seq<Label>, s: State, i: Interval)
    requires Clean(ss, ls, s) && Quiet(s) && i in s.table && i.from == s.verified + 1
    ensures forall x :: x in s.table ==> i.from <= x.from
  {
    RowsAbove(ss, ls, s);
    forall x | x in s.table
      ensures i.from <= x.from
    {
      assert x != i ==> Apart(s.verified, x, i);
    }
  }

  // Right after a prefix there is a proof to merge it with, or one can be made.
  lemma NeighbourIsReady(ss: seq<State>, ls: seq<Label>, s: State, p: ProverId, i: Interval)
    returns (ss': seq<State>, ls': seq<Label>, s': State, j: Interval)
    requires Clean(ss, ls, s) && Quiet(s) && i in s.table
    requires var f := s.verified + 1;
             i.from == f && f in s.sequences && i.to < s.sequences[f]
    ensures Clean(ss', ls', s') && Quiet(s') && ss <= ss' && ls <= ls'
    ensures s' == s.(table := s'.table, provers := s'.provers)
    ensures i in s'.table && j in s'.table && i.from <= i.to && j.from == i.to + 1
    ensures j.from <= j.to <= s.sequences[s.verified + 1]
  {
    var f, b := s.verified + 1, i.to + 1;
    RowsAbove(ss, ls, s);
    if Covered(s.table, b) {
      j :| j in s.table && Contains(j, b);
      assert Apart(s.verified, i, j);
      NextRow(s.sequences, s.virtual, f, b, j);
      ss', ls', s' := ss, ls, s;
    } else {
      j := Interval(b, b);
      assert forall c: nat :: s.verified < c < b ==> Contains(i, c);
      ss', ls', s' := BatchIsReady(ss, ls, s, p, b);
    }
  }

  lemma BatchIsReady(ss: seq<State>, ls: seq<Label>, s: State, p: ProverId, b: nat)
    returns (ss': seq<State>, ls': seq<Label>, s': State)
    requires Clean(ss, ls, s) && Quiet(s) && s.verified < b <= s.virtual
    requires !Covered(s.table, b) && forall c :: s.verified < c < b ==> Covered(s.table, c)
    ensures Clean(ss', ls', s') && Quiet(s') && ss <= ss' && ls <= ls'
    ensures s' == s.(table := s.table[Interval(b, b) := Row(false, Batch(b))], provers := s'.provers)
  {
    StoredIsCovered(s);
    ss', ls', s' := BatchIsProved(ss, ls, s, p, b);
    CleanMore(ss, ls, s, ss', ls', s');
    assert forall r :: WorkOf(s', r) == WorkOf(s, r) || r == p;
  }

  // There is a proof of the first batch of the next sequence, or one can be made: it proves
  // a prefix of the sequence, or whole sequences.
  lemma PrefixIsReady(ss: seq<State>, ls: seq<Label>, s: State, p: ProverId)
    returns (ss': seq<State>, ls': seq<Label>, s': State, i: Interval)
    requires Clean(ss, ls, s) && Quiet(s) && s.verified + 1 in s.sequences
    ensures Clean(ss', ls', s') && Quiet(s') && ss <= ss' && ls <= ls'
    ensures s' == s.(table := s'.table, provers := s'.provers) && i in s'.table
    ensures var f := s.verified + 1;
            var t := s.sequences[f];
            (i.from == f && i.to <= t) || (Whole(s.sequences, i) && i.from <= f && t <= i.to)
  {
    var f := s.verified + 1;
    RowsAbove(ss, ls, s);
    if Covered(s.table, f) {
      i :| i in s.table && Contains(i, f);
      NextRow(s.sequences, s.virtual, f, f, i);
      ss', ls', s' := ss, ls, s;
    } else {
      i := Interval(f, f);
      ss', ls', s' := BatchIsReady(ss, ls, s, p, f);
    }
  }

  // A restart and a cleanup.
  lemma QuietEventually(ss: seq<State>, ls: seq<Label>, s: State)
    returns (ss': seq<State>, ls': seq<Label>, s': State)
    requires Clean(ss, ls, s)
    ensures Clean(ss', ls', s') && Quiet(s') && ss <= ss' && ls' == ls + [Restart] + [Cleanup(s.verified)]
    ensures s' == s.(table := s'.table, provers := s'.provers, sender := s'.sender)
  {
    ss', ls', s' := RestartFrees(ss, ls, s);
    var s1 := s'.(table := DeleteUpTo(s'.table, s.verified));
    ss', ls' := Append(ss', ls', s', Cleanup(s.verified), s1);
    s' := s1;
    CleanMore(ss, ls, s, ss', ls', s');
    assert forall r :: WorkOf(s', r) == Idle;
  }

  // From every clean run in which the next batch to verify starts a sequence, a restart, a
  // cleanup and one prover are enough to hand over a complete final proof of that sequence.
  lemma NextSequenceIsSent(ss: seq<State>, ls: seq<Label>, s: State, p: ProverId)
    returns (ss': seq<State>, ls': seq<Label>, s': State)
    requires Clean(ss, ls, s) && s.verified + 1 in s.sequences
    ensures At(ss', ls', s') && ls + [Restart] + [Cleanup(s.verified)] <= ls'
    ensures s' == s.(table := s'.table, provers := s'.provers, sender := s'.sender) && s'.sender.Some?
    ensures var (i, x) := s'.sender.value;
            i.from <= s.verified + 1 && s.sequences[s.verified + 1] <= i.to && i.from <= i.to && Batches(x) == Numbers(i)
  {
    var i;
    ss', ls', s' := QuietEventually(ss, ls, s);
    ss', ls', s', i := PrefixIsReady(ss', ls', s', p);
    if i.to < s.sequences[s.verified + 1] {
      ss', ls', s' := PrefixGrows(ss', ls', s', p, i);
      i := Interval(i.from, s.sequences[s.verified + 1]);
    }
    RunIsComplete(ss', ls', |ls'|);
    assert RowComplete(i, s'.table[i]);
    ss', ls', s' := ReadyProofIsSent(ss', ls', s', p, i);
  }
}
