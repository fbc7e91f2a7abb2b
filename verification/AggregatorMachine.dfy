/**
 The aggregator as a state machine: a table of proofs over batch intervals, the provers
 that lock, prove, merge and release them, and the goroutine that sends final proofs.

 A section under `StateDBMutex` and a database transaction are one step each. The table
 operations are the SQL statements of the state storage.
 */
module AggregatorMachine {
  import opened Wrappers

  // How a recursive proof was put together; `Empty` is the proof column of a row whose
  // batch proof is still being generated.
  datatype Proof = Empty | Batch(number: nat) | Aggregated(left: Proof, right: Proof)

  // The batches a proof proves, in order.
  function Batches(p: Proof): seq<nat> {
    match p
    case Empty => []
    case Batch(n) => [n]
    case Aggregated(l, r) => Batches(l) + Batches(r)
  }

  datatype Interval = Interval(from: nat, to: nat)

  function Numbers(i: Interval): seq<nat>
    requires i.from <= i.to
  {
    seq(i.to - i.from + 1, k requires k >= 0 => i.from + k)
  }

  predicate Contains(i: Interval, b: nat) {
    i.from <= b <= i.to
  }

  predicate Disjoint(i: Interval, j: Interval) {
    i.to < j.from || j.to < i.from
  }

  // `locked` says that generating_since is set.
  datatype Row = Row(locked: bool, proof: Proof)

  type Table = map<Interval, Row>

  predicate Covered(t: Table, b: nat) {
    exists i :: i in t && Contains(i, b)
  }

  // UpdateGeneratedProof: an UPDATE, so nothing happens when the row is gone.
  function UpdateProof(t: Table, i: Interval, r: Row): Table {
    if i in t then t[i := r] else t
  }

  // DeleteGeneratedProofs
  function DeleteWithin(t: Table, from: nat, to: nat): Table {
    map i | i in t && !(from <= i.from && i.to <= to) :: t[i]
  }

  // CleanupGeneratedProofs
  function DeleteUpTo(t: Table, to: nat): Table {
    map i | i in t && !(i.to <= to) :: t[i]
  }

  // DeleteUngeneratedProofs
  function DeleteLocked(t: Table): Table {
    map i | i in t && !t[i].locked :: t[i]
  }

  /* ---------- sequences ---------- */

  // CheckProofContainsCompleteSequences
  predicate Whole(q: map<nat, nat>, i: Interval) {
    i.from in q && exists f :: f in q && q[f] == i.to
  }

  predicate InSequence(q: map<nat, nat>, f: nat, i: Interval) {
    f in q && f <= i.from <= q[f] && f <= i.to <= q[f]
  }

  // The condition on sequences of GetProofsToAggregate.
  predicate Mergeable(q: map<nat, nat>, i: Interval, j: Interval) {
    (exists f :: f in q && InSequence(q, f, i) && InSequence(q, f, j)) || (Whole(q, i) && Whole(q, j))
  }

  /* ---------- the state ---------- */

  type ProverId = nat

  // What a prover goroutine is doing, with the proofs it believes it holds.
  datatype Work =
    | Idle
    | Proving(batch: nat)
    | Aggregating(i: Interval, p: Proof, j: Interval, q: Proof)
    | Holding(i: Interval, p: Proof)
    | Verifying(i: Interval, p: Proof)

  // `sender` is the final proof that sendFinalProof is busy with; `verified` and `virtual`
  // are the last verified and the last virtual batch; `sequences` has the last batch of each
  // sequence under its first.
  datatype State = State(
    table: Table, provers: map<ProverId, Work>, sender: Option<(Interval, Proof)>,
    verified: nat, virtual: nat, sequences: map<nat, nat>)

  function WorkOf(s: State, p: ProverId): Work {
    if p in s.provers then s.provers[p] else Idle
  }

  datatype Label =
    | LockBatch(p: ProverId, batch: nat, read: nat)
    | BatchProved(p: ProverId)
    | BatchFailed(p: ProverId, deleted: bool)
    | LockPair(p: ProverId, i: Interval, j: Interval)
    | Merge(p: ProverId)
    | MergeFailed(p: ProverId, unlocked: bool)
    | Discard(p: ProverId)
    | Release(p: ProverId, stored: bool)
    | LockVerify(p: ProverId, i: Interval)
    | VerifyFailed(p: ProverId, unlocked: bool)
    | Handover(p: ProverId)
    | Dropped(p: ProverId)
    | SenderFailed(unlocked: bool)
    | SenderEnds
    | Cleanup(to: nat)
    | Verify(batch: nat)
    | Sequence(to: nat)  // L1 sequences the batches from the next virtual one to `to`
    | Restart
    | CleanupStale(i: Interval)

  function Set(s: State, t: Table, p: ProverId, w: Work): Option<State> {
    Some(s.(table := t, provers := s.provers[p := w]))
  }

  // The first virtual batch that no row covers. `read` is the last verified batch as it was
  // read, which may have moved since: the synchronizer does not take the mutex.
  function LockBatchStep(s: State, p: ProverId, b: nat, read: nat): Option<State> {
    if WorkOf(s, p).Idle? && read <= s.verified && read < b <= s.virtual && !Covered(s.table, b)
       && forall c :: read < c < b ==> Covered(s.table, c)
    then Set(s, s.table[Interval(b, b) := Row(true, Empty)], p, Proving(b))
    else None
  }

  // Two adjacent unlocked proofs that GetProofsToAggregate may select.
  predicate Selectable(s: State, i: Interval, j: Interval) {
    && i in s.table && j in s.table && !s.table[i].locked && !s.table[j].locked
    && i.to + 1 == j.from && Mergeable(s.sequences, i, j)
  }

  // The pair that starts first.
  function LockPairStep(s: State, p: ProverId, i: Interval, j: Interval): Option<State> {
    if WorkOf(s, p).Idle? && Selectable(s, i, j)
       && forall x, y :: x in s.table && y in s.table && Selectable(s, x, y) ==> i.from <= x.from
    then
      Set(s, s.table[i := s.table[i].(locked := true)][j := s.table[j].(locked := true)], p,
          Aggregating(i, s.table[i].proof, j, s.table[j].proof))
    else None
  }

  // The transaction that replaces two proofs by their aggregation.
  function MergeStep(s: State, p: ProverId): Option<State> {
    var w := WorkOf(s, p);
    if w.Aggregating? then
      var m := Interval(w.i.from, w.j.to);
      var a := Aggregated(w.p, w.q);
      Set(s, DeleteWithin(s.table, m.from, m.to)[m := Row(true, a)], p, Holding(m, a))
    else None
  }

  function MergeFailedStep(s: State, p: ProverId, unlocked: bool): Option<State> {
    var w := WorkOf(s, p);
    if w.Aggregating? then
      Set(s, if unlocked
             then UpdateProof(UpdateProof(s.table, w.i, Row(false, w.p)), w.j, Row(false, w.q))
             else s.table, p, Idle)
    else None
  }

  // A held proof that lies below the next batch to verify is deleted.
  function DiscardStep(s: State, p: ProverId): Option<State> {
    var w := WorkOf(s, p);
    if w.Holding? && w.i.to <= s.verified
    then Set(s, DeleteWithin(s.table, w.i.from, w.i.to), p, w)
    else None
  }

  // The proof starts right after the last verified batch as it was read before.
  function LockVerifyStep(s: State, p: ProverId, i: Interval): Option<State> {
    if WorkOf(s, p).Idle? && i in s.table && !s.table[i].locked && i.from <= s.verified + 1
       && Whole(s.sequences, i)
    then Set(s, s.table[i := s.table[i].(locked := true)], p, Verifying(i, s.table[i].proof))
    else None
  }

  function HandoverStep(s: State, p: ProverId): Option<State> {
    var w := WorkOf(s, p);
    if s.sender.None?
       && (w.Verifying? || (w.Holding? && w.i.from <= s.verified + 1 && Whole(s.sequences, w.i)))
    then Some(s.(sender := Some((w.i, w.p)), provers := s.provers[p := Idle]))
    else None
  }

  function Step(s: State, l: Label): Option<State> {
    match l
    case LockBatch(p, b, read) => LockBatchStep(s, p, b, read)
    case BatchProved(p) =>
      var w := WorkOf(s, p);
      if w.Proving? then Set(s, s.table, p, Holding(Interval(w.batch, w.batch), Batch(w.batch))) else None
    case BatchFailed(p, deleted) =>
      var w := WorkOf(s, p);
      if w.Proving? then
        Set(s, if deleted then DeleteWithin(s.table, w.batch, w.batch) else s.table, p, Idle)
      else None
    case LockPair(p, i, j) => LockPairStep(s, p, i, j)
    case Merge(p) => MergeStep(s, p)
    case MergeFailed(p, unlocked) => MergeFailedStep(s, p, unlocked)
    case Discard(p) => DiscardStep(s, p)
    case Release(p, stored) =>
      var w := WorkOf(s, p);
      if w.Holding? then Set(s, if stored then UpdateProof(s.table, w.i, Row(false, w.p)) else s.table, p, Idle)
      else None
    case LockVerify(p, i) => LockVerifyStep(s, p, i)
    case VerifyFailed(p, unlocked) =>
      var w := WorkOf(s, p);
      if w.Verifying? then Set(s, if unlocked then UpdateProof(s.table, w.i, Row(false, w.p)) else s.table, p, Idle)
      else None
    case Handover(p) => HandoverStep(s, p)
    case Dropped(p) => Set(s, s.table, p, Idle)
    case SenderFailed(unlocked) =>
      if s.sender.Some? then
        Some(s.(sender := None,
                table := if unlocked
                         then UpdateProof(s.table, s.sender.value.0, Row(false, s.sender.value.1))
                         else s.table))
      else None
    case SenderEnds => Some(s.(sender := None))
    case Cleanup(to) => if to <= s.verified then Some(s.(table := DeleteUpTo(s.table, to))) else None
    case Verify(b) => if s.verified <= b then Some(s.(verified := b)) else None
    case Sequence(to) =>
      if s.virtual < to then Some(s.(virtual := to, sequences := s.sequences[s.virtual + 1 := to])) else None
    case Restart => Some(s.(provers := map[], sender := None, table := DeleteLocked(s.table)))
    case CleanupStale(i) =>
      if i in s.table && s.table[i].locked then Some(s.(table := s.table - {i})) else None
  }

  // Step number `i` of a run. Naming it keeps the other steps out of a proof.
  ghost predicate StepAt(ss: seq<State>, ls: seq<Label>, i: int)
    requires 0 <= i < |ls| && |ss| == |ls| + 1
  {
    Step(ss[i], ls[i]) == Some(ss[i + 1])
  }

  ghost predicate IsRun(ss: seq<State>, ls: seq<Label>) {
    && |ss| == |ls| + 1
    && ss[0].table == map[] && ss[0].provers == map[] && ss[0].sender == None
    && ss[0].virtual == 0 && ss[0].sequences == map[]
    && forall i :: 0 <= i < |ls| ==> StepAt(ss, ls, i)
  }
}
