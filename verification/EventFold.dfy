/**
 How the log stream of L1 becomes the list of blocks and the order index the synchronizer
 walks. Parsing a log and reading its transaction and its block are given with the log.
 */
module EventFold {
  import opened Wrappers

  type Hash = string

  datatype ExitRoots = ExitRoots(mainnet: Hash, rollup: Hash)
  datatype ForcedBatch = ForcedBatch(number: nat, sequencer: string, rawTxs: string)
  datatype SequencedBatch = SequencedBatch(batchNumber: nat, data: string)
  datatype VerifiedBatch = VerifiedBatch(batchNumber: nat, aggregator: string, stateRoot: Hash)
  datatype SequencedForceBatch = SequencedForceBatch(batchNumber: nat, data: string)
  datatype ForkID = ForkID(batchNumber: nat, forkID: nat, version: string)

  datatype Event =
    | GlobalExitRootEvent(roots: ExitRoots)
    | ForcedBatchEvent(forced: ForcedBatch)
    | SequencedBatchesEvent(sequences: seq<SequencedBatch>)
    | VerifyBatchesEvent(verified: VerifiedBatch)
    | ForceSequencedBatchesEvent(forceSequences: seq<SequencedForceBatch>)
    | ForkIDEvent(fork: ForkID)

  datatype Outcome = Unhandled | Fails(error: string) | Parsed(event: Event)

  datatype Header = Header(parentHash: Hash, time: int)

  // `header` is what `BlockByHash` answers, `None` for an error.
  datatype Log = Log(blockHash: Hash, blockNumber: nat, outcome: Outcome, header: Option<Header>)

  datatype Block = Block(
    number: nat, hash: Hash, parentHash: Hash, receivedAt: int,
    globalExitRoots: seq<ExitRoots>,
    forcedBatches: seq<ForcedBatch>,
    sequencedBatches: seq<seq<SequencedBatch>>,
    verifiedBatches: seq<VerifiedBatch>,
    sequencedForceBatches: seq<seq<SequencedForceBatch>>,
    forkIDs: seq<ForkID>)

  datatype Name =
    | GlobalExitRootsOrder | ForcedBatchesOrder | SequenceBatchesOrder
    | TrustedVerifyBatchOrder | SequenceForceBatchesOrder | ForkIDsOrder

  datatype Order = Order(name: Name, pos: int)

  /* ---------- the fold on values ---------- */

  datatype State = State(blocks: seq<Block>, order: map<Hash, seq<Order>>)

  // An event with the L1 block it belongs to.
  datatype Tagged = Tagged(hash: Hash, number: nat, event: Event)

  function AppendEvent(b: Block, e: Event): Block {
    match e
    case GlobalExitRootEvent(x) => b.(globalExitRoots := b.globalExitRoots + [x])
    case ForcedBatchEvent(x) => b.(forcedBatches := b.forcedBatches + [x])
    case SequencedBatchesEvent(x) => b.(sequencedBatches := b.sequencedBatches + [x])
    case VerifyBatchesEvent(x) => b.(verifiedBatches := b.verifiedBatches + [x])
    case ForceSequencedBatchesEvent(x) => b.(sequencedForceBatches := b.sequencedForceBatches + [x])
    case ForkIDEvent(x) => b.(forkIDs := b.forkIDs + [x])
  }

  function LastOrder(b: Block, e: Event): Order {
    match e
    case GlobalExitRootEvent(_) => Order(GlobalExitRootsOrder, |b.globalExitRoots| - 1)
    case ForcedBatchEvent(_) => Order(ForcedBatchesOrder, |b.forcedBatches| - 1)
    case SequencedBatchesEvent(_) => Order(SequenceBatchesOrder, |b.sequencedBatches| - 1)
    case VerifyBatchesEvent(_) => Order(TrustedVerifyBatchOrder, |b.verifiedBatches| - 1)
    case ForceSequencedBatchesEvent(_) => Order(SequenceForceBatchesOrder, |b.sequencedForceBatches| - 1)
    case ForkIDEvent(_) => Order(ForkIDsOrder, |b.forkIDs| - 1)
  }

  function NewBlock(t: Tagged, h: Header): Block {
    Block(t.number, t.hash, h.parentHash, h.time, [], [], [], [], [], [])
  }

  function At(order: map<Hash, seq<Order>>, h: Hash): seq<Order> {
    if h in order then order[h] else []
  }

  predicate SameBlock(s: State, t: Tagged) {
    s.blocks != [] && s.blocks[|s.blocks| - 1].hash == t.hash && s.blocks[|s.blocks| - 1].number == t.number
  }

  function Put(s: State, t: Tagged, h: Header): State {
    var n := |s.blocks|;
    var b := AppendEvent(if SameBlock(s, t) then s.blocks[n - 1] else NewBlock(t, h), t.event);
    var earlier := if SameBlock(s, t) then s.blocks[..n - 1] else s.blocks;
    State(earlier + [b], s.order[t.hash := At(s.order, t.hash) + [LastOrder(b, t.event)]])
  }

  function TagOf(l: Log): Tagged
    requires l.outcome.Parsed?
  {
    Tagged(l.blockHash, l.blockNumber, l.outcome.event)
  }

  // The events a reader of the stream expects, in stream order.
  function Recognised(logs: seq<Log>): seq<Tagged> {
    if logs == [] then []
    else Recognised(logs[..|logs| - 1]) +
         if logs[|logs| - 1].outcome.Parsed? then [TagOf(logs[|logs| - 1])] else []
  }

  // The two handlers that read the block whether or not it is new.
  predicate AlwaysReadsBlock(e: Event) {
    e.ForcedBatchEvent? || e.ForceSequencedBatchesEvent?
  }

  // A recognised log opens a block when the recognised log before is of another one.
  predicate Opens(before: seq<Tagged>, l: Log) {
    && l.outcome.Parsed?
    && (|| before == []
        || before[|before| - 1].hash != l.blockHash
        || before[|before| - 1].number != l.blockNumber)
  }

  // Whether the last of the logs stops the fold: it does not parse, or its block is needed
  // and cannot be read.
  predicate Stops(before: seq<Tagged>, l: Log) {
    || l.outcome.Fails?
    || (l.outcome.Parsed? && l.header.None? && (AlwaysReadsBlock(l.outcome.event) || Opens(before, l)))
  }

  // The places of the logs that open a block, in order.
  function Openings(logs: seq<Log>): (places: seq<nat>)
    ensures forall k :: 0 <= k < |places| ==> places[k] < |logs|
  {
    if logs == [] then []
    else
      var most, l := logs[..|logs| - 1], logs[|logs| - 1];
      Openings(most) + if Opens(Recognised(most), l) then [|most|] else []
  }

  // The block has the hash and the number of the log, and the parent and the time that
  // `BlockByHash` answers for it.
  predicate Heads(l: Log, b: Block) {
    && b.hash == l.blockHash && b.number == l.blockNumber
    && l.header.Some? && l.header.value.parentHash == b.parentHash && l.header.value.time == b.receivedAt
  }

  // The header is used for a new block only.
  function StepOn(s: State, l: Log): State {
    if l.outcome.Parsed? then Put(s, TagOf(l), if l.header.Some? then l.header.value else Header("", 0)) else s
  }

  function Folded(logs: seq<Log>): State {
    if logs == [] then State([], map[]) else StepOn(Folded(logs[..|logs| - 1]), logs[|logs| - 1])
  }

  /* ---------- the loop ---------- */

  class Reader {
    var blocks: seq<Block>
    var blocksOrder: map<Hash, seq<Order>>

    ghost function Contents(): State
      reads this
    {
      State(blocks, blocksOrder)
    }

    constructor ()
      ensures Contents() == State([], map[])
    {
      blocks, blocksOrder := [], map[];
    }

    // What the six handlers share. Their third branch, an error, needs a last block that
    // is neither equal to the log's nor different from it.
    method Handle(l: Log) returns (err: bool)
      requires l.outcome.Parsed?
      modifies this
      ensures err <==> l.header.None? && (AlwaysReadsBlock(l.outcome.event) || !SameBlock(old(Contents()), TagOf(l)))
      ensures Contents() == if err then old(Contents()) else StepOn(old(Contents()), l)
      ensures !err && !SameBlock(old(Contents()), TagOf(l)) ==> Heads(l, blocks[|blocks| - 1])
    {
      var e := l.outcome.event;
      if AlwaysReadsBlock(e) && l.header.None? {
        return true;
      }
      var n := |blocks|;
      if n == 0 || blocks[n - 1].hash != l.blockHash || blocks[n - 1].number != l.blockNumber {
        if l.header.None? {
          return true;
        }
        blocks := blocks + [AppendEvent(NewBlock(TagOf(l), l.header.value), e)];
      } else {
        blocks := blocks[..n - 1] + [AppendEvent(blocks[n - 1], e)];
      }
      var last := blocks[|blocks| - 1];
      blocksOrder := blocksOrder[last.hash := At(blocksOrder, last.hash) + [LastOrder(last, e)]];
      return false;
    }

    method ProcessEvent(l: Log) returns (err: bool)
      modifies this
      ensures err <==> l.outcome.Fails?
                       || (l.outcome.Parsed? && l.header.None?
                           && (AlwaysReadsBlock(l.outcome.event) || !SameBlock(old(Contents()), TagOf(l))))
      ensures Contents() == if err then old(Contents()) else StepOn(old(Contents()), l)
      ensures !err && l.outcome.Parsed? && !SameBlock(old(Contents()), TagOf(l)) ==> Heads(l, blocks[|blocks| - 1])
    {
      match l.outcome {
        case Unhandled => err := false;
        case Fails(_) => err := true;
        case Parsed(_) => err := Handle(l);
      }
    }
  }

  // None of the first `i` logs stops the fold.
  ghost predicate Goes(logs: seq<Log>, i: nat)
    requires i <= |logs|
  {
    forall j :: 0 <= j < i ==> !Stops(Recognised(logs[..j]), logs[j])
  }

  // What is processed after the first `i` logs is the next of them.
  lemma FoldMore(logs: seq<Log>, i: nat)
    requires i < |logs|
    ensures Folded(logs[..i + 1]) == StepOn(Folded(logs[..i]), logs[i])
  {
    assert logs[..i + 1][..i] == logs[..i];
  }

  lemma StopsOnState(logs: seq<Log>, i: nat)
    requires i < |logs|
    ensures Stops(Recognised(logs[..i]), logs[i]) <==>
            || logs[i].outcome.Fails?
            || (logs[i].outcome.Parsed? && logs[i].header.None?
                && (AlwaysReadsBlock(logs[i].outcome.event) || !SameBlock(Folded(logs[..i]), TagOf(logs[i]))))
  {
    LastBlockIsLastEvent(logs[..i]);
  }

  // The first log that cannot be processed discards everything.
  method ReadEvents(logs: seq<Log>) returns (result: Result<State>)
    ensures result.Err? <==> exists i :: 0 <= i < |logs| && Stops(Recognised(logs[..i]), logs[i])
    ensures result.Ok? ==> result.value == Folded(logs)
    ensures result.Ok? ==>
              && |result.value.blocks| == |Openings(logs)|
              && forall k :: 0 <= k < |Openings(logs)| ==> Heads(logs[Openings(logs)[k]], result.value.blocks[k])
  {
    var reader := new Reader();
    for i := 0 to |logs|
      invariant reader.Contents() == Folded(logs[..i])
      invariant Goes(logs, i)
    {
      StopsOnState(logs, i);
      FoldMore(logs, i);
      var err := reader.ProcessEvent(logs[i]);
      if err {
        return Err("error processing event");
      }
    }
    assert logs[..|logs|] == logs;
    BlocksHaveHeads(logs);
    return Ok(State(reader.blocks, reader.blocksOrder));
  }

  lemma AppendKeepsHeader(b: Block, e: Event)
    ensures AppendEvent(b, e).hash == b.hash && AppendEvent(b, e).number == b.number
    ensures AppendEvent(b, e).parentHash == b.parentHash && AppendEvent(b, e).receivedAt == b.receivedAt
  {
  }

  lemma PutLast(s: State, t: Tagged, h: Header)
    ensures var s' := Put(s, t, h);
            && s'.blocks != [] && s'.blocks[|s'.blocks| - 1].hash == t.hash && s'.blocks[|s'.blocks| - 1].number == t.number
  {
    AppendKeepsHeader(if SameBlock(s, t) then s.blocks[|s.blocks| - 1] else NewBlock(t, h), t.event);
  }

  // The last block is that of the last event.
  ghost predicate Follows(s: State, rs: seq<Tagged>) {
    && (s.blocks == [] <==> rs == [])
    && (rs != [] ==> s.blocks[|s.blocks| - 1].hash == rs[|rs| - 1].hash
                     && s.blocks[|s.blocks| - 1].number == rs[|rs| - 1].number)
  }

  lemma {:induction false} LastBlockIsLastEvent(logs: seq<Log>)
    ensures Follows(Folded(logs), Recognised(logs))
  {
    if logs != [] {
      var most, l := logs[..|logs| - 1], logs[|logs| - 1];
      LastBlockIsLastEvent(most);
      if l.outcome.Parsed? {
        PutLast(Folded(most), TagOf(l), if l.header.Some? then l.header.value else Header("", 0));
      } else {
        assert Recognised(logs) == Recognised(most);
      }
    }
  }

  // There is one block for each opening log, in order, with what the log says of it.
  ghost predicate HaveHeads(blocks: seq<Block>, logs: seq<Log>) {
    && |blocks| == |Openings(logs)|
    && forall k :: 0 <= k < |Openings(logs)| ==> Heads(logs[Openings(logs)[k]], blocks[k])
  }

  lemma {:induction false} BlocksHaveHeads(logs: seq<Log>)
    requires Goes(logs, |logs|)
    ensures HaveHeads(Folded(logs).blocks, logs)
  {
    if logs != [] {
      var n := |logs| - 1;
      GoesOn(logs, n);
      BlocksHaveHeads(logs[..n]);
      LastBlockIsLastEvent(logs[..n]);
      assert logs[..n] + [logs[n]] == logs;
      if logs[n].outcome.Parsed? {
        PutHeads(Folded(logs[..n]), logs[..n], logs[n]);
      } else {
        SkipHeads(Folded(logs[..n]), logs[..n], logs[n]);
      }
    }
  }

  lemma GoesOn(logs: seq<Log>, n: nat)
    requires n < |logs| && Goes(logs, n + 1)
    ensures Goes(logs[..n], n) && !Stops(Recognised(logs[..n]), logs[n])
  {
    forall j | 0 <= j < n
      ensures !Stops(Recognised(logs[..n][..j]), logs[..n][j])
    {
      assert logs[..j] == logs[..n][..j];
    }
  }

  lemma OneMoreOpening(logs: seq<Log>, l: Log)
    ensures Openings(logs + [l]) == Openings(logs) + if Opens(Recognised(logs), l) then [|logs|] else []
  {
    assert (logs + [l])[..|logs|] == logs;
  }

  lemma SkipHeads(s: State, logs: seq<Log>, l: Log)
    requires HaveHeads(s.blocks, logs) && !l.outcome.Parsed?
    ensures HaveHeads(s.blocks, logs + [l])
  {
    OneMoreOpening(logs, l);
  }

  // A list of blocks with the same heads, and one more when the log opens one.
  lemma MoreHeads(blocks: seq<Block>, blocks': seq<Block>, logs: seq<Log>, l: Log)
    requires HaveHeads(blocks, logs) && |blocks'| == |blocks| + if Opens(Recognised(logs), l) then 1 else 0
    requires forall k :: 0 <= k < |blocks| ==> SameHead(blocks[k], blocks'[k])
    requires Opens(Recognised(logs), l) ==> Heads(l, blocks'[|blocks|])
    ensures HaveHeads(blocks', logs + [l])
  {
    var more := logs + [l];
    OneMoreOpening(logs, l);
    forall k | 0 <= k < |Openings(more)|
      ensures Heads(more[Openings(more)[k]], blocks'[k])
    {
      if k < |Openings(logs)| {
        assert Heads(logs[Openings(logs)[k]], blocks[k]) && SameHead(blocks[k], blocks'[k]);
      }
    }
  }

  predicate SameHead(a: Block, b: Block) {
    a.hash == b.hash && a.number == b.number && a.parentHash == b.parentHash && a.receivedAt == b.receivedAt
  }

  lemma PutSameBlock(s: State, t: Tagged, h: Header)
    requires SameBlock(s, t)
    ensures var bs := Put(s, t, h).blocks;
            |bs| == |s.blocks| && forall k :: 0 <= k < |s.blocks| ==> SameHead(s.blocks[k], bs[k])
  {
    var n, bs := |s.blocks|, Put(s, t, h).blocks;
    var b := AppendEvent(s.blocks[n - 1], t.event);
    assert bs == s.blocks[..n - 1] + [b];
    AppendKeepsHeader(s.blocks[n - 1], t.event);
  }

  lemma PutNewBlock(s: State, t: Tagged, h: Header)
    requires !SameBlock(s, t)
    ensures var bs := Put(s, t, h).blocks;
            |bs| == |s.blocks| + 1 && bs[..|s.blocks|] == s.blocks && SameHead(NewBlock(t, h), bs[|s.blocks|])
  {
    var bs := Put(s, t, h).blocks;
    assert bs == s.blocks + [AppendEvent(NewBlock(t, h), t.event)];
    AppendKeepsHeader(NewBlock(t, h), t.event);
  }

  lemma PutHeads(s: State, logs: seq<Log>, l: Log)
    requires HaveHeads(s.blocks, logs) && Follows(s, Recognised(logs))
    requires l.outcome.Parsed? && !Stops(Recognised(logs), l)
    ensures HaveHeads(StepOn(s, l).blocks, logs + [l])
  {
    var h := if l.header.Some? then l.header.value else Header("", 0);
    var bs := Put(s, TagOf(l), h).blocks;
    if SameBlock(s, TagOf(l)) {
      PutSameBlock(s, TagOf(l), h);
      MoreHeads(s.blocks, bs, logs, l);
    } else {
      PutNewBlock(s, TagOf(l), h);
      NewBlockHeads(s, logs, l, bs);
    }
  }

  lemma NewBlockHeads(s: State, logs: seq<Log>, l: Log, bs: seq<Block>)
    requires HaveHeads(s.blocks, logs) && Opens(Recognised(logs), l) && l.header.Some?
    requires |bs| == |s.blocks| + 1 && bs[..|s.blocks|] == s.blocks
    requires SameHead(NewBlock(TagOf(l), l.header.value), bs[|s.blocks|])
    ensures HaveHeads(bs, logs + [l])
  {
    forall k | 0 <= k < |s.blocks|
      ensures SameHead(s.blocks[k], bs[k])
    {
      assert bs[..|s.blocks|][k] == bs[k];
    }
    MoreHeads(s.blocks, bs, logs, l);
  }

  // The openings are the recognised logs before which there is none or one of another block.
  lemma {:induction false} OpeningsIff(logs: seq<Log>, j: nat)
    ensures j in Openings(logs) <==>
            && j < |logs| && logs[j].outcome.Parsed?
            && var before := Recognised(logs[..j]);
               before != [] ==> before[|before| - 1].hash != logs[j].blockHash
                                || before[|before| - 1].number != logs[j].blockNumber
  {
    if logs != [] {
      var n := |logs| - 1;
      OpeningsIff(logs[..n], j);
      OneMoreOpening(logs[..n], logs[n]);
      assert logs[..n] + [logs[n]] == logs;
      assert j < n ==> logs[..n][..j] == logs[..j];
    }
  }

  lemma {:induction false} OpeningsAscend(logs: seq<Log>)
    ensures forall k, m :: 0 <= k < m < |Openings(logs)| ==> Openings(logs)[k] < Openings(logs)[m]
  {
    if logs != [] {
      OpeningsAscend(logs[..|logs| - 1]);
    }
  }

  /* ---------- batch numbers of a sequence ---------- */

  // The event gives the number of the last batch; the others count down from it, in uint64.
  function BatchNumber(last: nat, n: nat, i: nat): nat
    requires i < n
  {
    (last - (n - (i + 1))) % U64
  }

  method DecodeSequences(lastBatchNumber: nat, data: seq<string>) returns (sequences: seq<SequencedBatch>)
    ensures |sequences| == |data|
    ensures forall i :: 0 <= i < |data| ==> sequences[i] == SequencedBatch(BatchNumber(lastBatchNumber, |data|, i), data[i])
  {
    var out := new SequencedBatch[|data|](_ => SequencedBatch(0, ""));
    for i := 0 to |data|
      invariant forall j :: 0 <= j < i ==> out[j] == SequencedBatch(BatchNumber(lastBatchNumber, |data|, j), data[j])
    {
      out[i] := SequencedBatch((lastBatchNumber - (|data| - (i + 1))) % U64, data[i]);
    }
    sequences := out[..];
  }

  // The numbers end with the event's and follow one another around 2^64.
  lemma NumbersFollow(last: nat, n: nat, i: nat)
    requires i < n && last < U64
    ensures BatchNumber(last, n, n - 1) == last
    ensures i > 0 ==> BatchNumber(last, n, i) == (BatchNumber(last, n, i - 1) + 1) % U64
  {
  }

  // They are consecutive exactly when there are no more batches than numbers up to the last.
  lemma ConsecutiveIff(last: nat, n: nat)
    requires last < U64 && n < U64
    ensures n <= last + 1 <==> forall i :: 0 < i < n ==> BatchNumber(last, n, i) == BatchNumber(last, n, i - 1) + 1
  {
    if n > last + 1 {
      var zero := n - 1 - last;
      assert 0 < zero < n && BatchNumber(last, n, zero) == 0;
      assert BatchNumber(last, n, zero) != BatchNumber(last, n, zero - 1) + 1;
    }
  }
}
