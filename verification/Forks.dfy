/**
 Fork intervals: the version events of L1 are collected chunk by chunk and each becomes
 the interval of batches that starts after it. All counters are uint64.
 */
module Forks {
  import opened Wrappers
  import opened Arith

  const MAX: nat := U64 - 1

  /* ---------- the chunked scan ---------- */

  function NextOf(i: nat, c: nat): nat {
    (i + c + 1) % U64
  }

  // Where query number `k` starts.
  function StartAt(gen: nat, c: nat, k: nat): nat {
    if k == 0 then gen else NextOf(StartAt(gen, c, k - 1), c)
  }

  function FinalOf(i: nat, c: nat, last: nat): nat {
    var final := (i + c) % U64;
    if final > last then last else final
  }

  predicate Visits(gen: nat, last: nat, c: nat, k: nat, b: nat) {
    StartAt(gen, c, k) <= b <= FinalOf(StartAt(gen, c, k), c, last)
  }

  // The loop makes `n` queries and stops.
  ghost predicate Stops(gen: nat, last: nat, c: nat, n: nat) {
    && (forall k: nat :: k < n ==> StartAt(gen, c, k) <= last)
    && StartAt(gen, c, n) > last
  }

  ghost predicate Visited(gen: nat, last: nat, c: nat, n: nat, b: nat) {
    exists k: nat :: k < n && Visits(gen, last, c, k, b)
  }

  // The queries visit the blocks from `gen` to `last` once each, and no other.
  ghost predicate OnceEach(gen: nat, last: nat, c: nat, n: nat) {
    && (forall b: nat :: Visited(gen, last, c, n, b) <==> gen <= b <= last)
    && (forall b: nat, j: nat, k: nat :: j < k < n ==> !(Visits(gen, last, c, j, b) && Visits(gen, last, c, k, b)))
  }

  lemma StepsOn(i: nat, c: nat)
    requires i + c + 1 < U64
    ensures NextOf(i, c) == i + c + 1
  {
  }

  lemma WrapsOnce(i: nat, c: nat)
    requires i < U64 && c < U64 && i + c + 1 >= U64
    ensures NextOf(i, c) == i + c + 1 - U64
  {
  }

  lemma NoWrap(i: nat, c: nat, last: nat)
    requires i + c < U64
    ensures FinalOf(i, c, last) == if i + c > last then last else i + c
  {
  }

  // The number of the query whose chunk holds `last`.
  function LastChunk(gen: nat, last: nat, c: nat): nat
    requires gen <= last
  {
    (last - gen) / (c + 1)
  }

  // The start after the last chunk is a uint64.
  predicate Fits(gen: nat, last: nat, c: nat) {
    gen <= last ==> gen + (LastChunk(gen, last, c) + 1) * (c + 1) < U64
  }

  lemma {:induction false} ExactStart(gen: nat, c: nat, k: nat)
    requires gen + k * (c + 1) < U64
    ensures StartAt(gen, c, k) == gen + k * (c + 1)
  {
    if k > 0 {
      OneMore(k - 1, c + 1);
      ExactStart(gen, c, k - 1);
      StepsOn(StartAt(gen, c, k - 1), c);
    }
  }

  // The chunk that holds `last` is the last one before it.
  lemma LastChunkHolds(gen: nat, last: nat, c: nat)
    requires gen <= last
    ensures var k := LastChunk(gen, last, c);
            gen + k * (c + 1) <= last < gen + (k + 1) * (c + 1)
  {
    var k := LastChunk(gen, last, c);
    DivRem(last - gen, c + 1);
    OneMore(k, c + 1);
  }

  // Up to the last chunk the starts do not wrap around.
  lemma StartsBefore(gen: nat, last: nat, c: nat, k: nat)
    requires gen <= last < U64 && k <= LastChunk(gen, last, c)
    ensures StartAt(gen, c, k) == gen + k * (c + 1) <= last
  {
    LastChunkHolds(gen, last, c);
    MulMono(k, LastChunk(gen, last, c), c + 1);
    ExactStart(gen, c, k);
  }

  // A chunk before the last is whole.
  lemma WholeChunk(gen: nat, last: nat, c: nat, k: nat)
    requires gen <= last < U64 && k < LastChunk(gen, last, c)
    ensures FinalOf(StartAt(gen, c, k), c, last) == StartAt(gen, c, k) + c
  {
    StartsBefore(gen, last, c, k);
    StartsBefore(gen, last, c, k + 1);
    OneMore(k, c + 1);
    NoWrap(StartAt(gen, c, k), c, last);
  }

  // The chunk a block belongs to.
  lemma ChunkOf(gen: nat, last: nat, c: nat, b: nat)
    requires gen <= b <= last < U64
    ensures var k := LastChunk(gen, b, c);
            && k <= LastChunk(gen, last, c)
            && StartAt(gen, c, k) <= b <= StartAt(gen, c, k) + c
  {
    var k := LastChunk(gen, b, c);
    LastChunkHolds(gen, b, c);
    LastChunkHolds(gen, last, c);
    if k > LastChunk(gen, last, c) {
      MulMono(LastChunk(gen, last, c) + 1, k, c + 1);
      assert false;
    }
    StartsBefore(gen, last, c, k);
    OneMore(k, c + 1);
  }

  // When the sums fit, query `k` is for the blocks of chunk `k`.
  lemma FitsChunk(gen: nat, last: nat, c: nat, k: nat)
    requires gen <= last < U64 && Fits(gen, last, c) && k <= LastChunk(gen, last, c)
    ensures var i := StartAt(gen, c, k);
            && i == gen + k * (c + 1) <= last
            && FinalOf(i, c, last) == if i + c > last then last else i + c
  {
    StartsBefore(gen, last, c, k);
    MulMono(k + 1, LastChunk(gen, last, c) + 1, c + 1);
    OneMore(k, c + 1);
    NoWrap(StartAt(gen, c, k), c, last);
  }

  lemma FitsVisitsOnce(gen: nat, last: nat, c: nat, k: nat, b: nat)
    requires gen <= last < U64 && Fits(gen, last, c) && k <= LastChunk(gen, last, c)
    ensures Visits(gen, last, c, k, b) <==> gen <= b <= last && k == LastChunk(gen, b, c)
  {
    FitsChunk(gen, last, c, k);
    if Visits(gen, last, c, k, b) {
      QuotientIs(b - gen, c + 1, k, b - StartAt(gen, c, k));
    } else if gen <= b <= last && k == LastChunk(gen, b, c) {
      ChunkOf(gen, last, c, b);
    }
  }

  lemma FitsStops(gen: nat, last: nat, c: nat)
    requires gen <= last < U64 && Fits(gen, last, c)
    ensures Stops(gen, last, c, LastChunk(gen, last, c) + 1)
  {
    var n := LastChunk(gen, last, c) + 1;
    LastChunkHolds(gen, last, c);
    ExactStart(gen, c, n);
    forall k: nat | k < n
      ensures StartAt(gen, c, k) <= last
    {
      FitsChunk(gen, last, c, k);
    }
  }

  lemma FitsOnceEach(gen: nat, last: nat, c: nat)
    requires gen <= last < U64 && Fits(gen, last, c)
    ensures OnceEach(gen, last, c, LastChunk(gen, last, c) + 1)
  {
    var n := LastChunk(gen, last, c) + 1;
    forall k: nat, b: nat | k < n
      ensures Visits(gen, last, c, k, b) <==> gen <= b <= last && k == LastChunk(gen, b, c)
    {
      FitsVisitsOnce(gen, last, c, k, b);
    }
    forall b: nat | gen <= b <= last
      ensures Visited(gen, last, c, n, b)
    {
      ChunkOf(gen, last, c, b);
      assert Visits(gen, last, c, LastChunk(gen, b, c), b);
    }
  }

  // When they do not, the start after the last chunk goes back, and the loop goes on.
  lemma GoesBack(gen: nat, last: nat, c: nat)
    requires gen <= last < U64 && c < U64 && !Fits(gen, last, c)
    ensures var k := LastChunk(gen, last, c);
            StartAt(gen, c, k + 1) == StartAt(gen, c, k) + c + 1 - U64 <= StartAt(gen, c, k) <= last
  {
    var k := LastChunk(gen, last, c);
    StartsBefore(gen, last, c, k);
    OneMore(k, c + 1);
    WrapsOnce(StartAt(gen, c, k), c);
  }

  // From a start that would wrap around again the loop goes further back, until it asks for
  // a chunk that does not.
  lemma {:induction false} Descends(gen: nat, last: nat, c: nat, k: nat) returns (m: nat)
    requires c + 1 < U64 && StartAt(gen, c, k) <= last < U64
    ensures k <= m && StartAt(gen, c, m) <= StartAt(gen, c, k) && StartAt(gen, c, m) + c < U64
    ensures forall j :: k <= j <= m ==> StartAt(gen, c, j) <= last
    decreases StartAt(gen, c, k)
  {
    if StartAt(gen, c, k) + c < U64 {
      m := k;
    } else {
      WrapsOnce(StartAt(gen, c, k), c);
      m := Descends(gen, last, c, k + 1);
    }
  }

  // A step that adds nothing never leaves the first block.
  lemma {:induction false} NeverMoves(gen: nat, k: nat)
    requires gen < U64
    ensures StartAt(gen, MAX, k) == gen
  {
    if k > 0 {
      NeverMoves(gen, k - 1);
      WrapsOnce(gen, MAX);
    }
  }

  // A block before the last chunk is in an earlier, whole one.
  lemma SeenEarlier(gen: nat, last: nat, c: nat, b: nat) returns (j: nat)
    requires gen <= last < U64 && gen <= b < StartAt(gen, c, LastChunk(gen, last, c))
    ensures j < LastChunk(gen, last, c) && Visits(gen, last, c, j, b)
  {
    j := LastChunk(gen, b, c);
    StartsBefore(gen, last, c, LastChunk(gen, last, c));
    ChunkOf(gen, last, c, b);
    WholeChunk(gen, last, c, j);
  }

  // Some later query starts before the last chunk and visits the block it starts with.
  lemma VisitsBack(gen: nat, last: nat, c: nat) returns (m: nat)
    requires gen <= last < U64 && c < MAX && !Fits(gen, last, c)
    ensures m > LastChunk(gen, last, c)
    ensures StartAt(gen, c, m) < StartAt(gen, c, LastChunk(gen, last, c)) && Visits(gen, last, c, m, StartAt(gen, c, m))
    ensures forall j: nat :: j <= m ==> StartAt(gen, c, j) <= last
  {
    var l := LastChunk(gen, last, c);
    GoesBack(gen, last, c);
    m := Descends(gen, last, c, l + 1);
    NoWrap(StartAt(gen, c, m), c, last);
    forall j: nat | j <= m
      ensures StartAt(gen, c, j) <= last
    {
      if j <= l {
        StartsBefore(gen, last, c, j);
      }
    }
  }

  lemma UnfitFails(gen: nat, last: nat, c: nat, n: nat)
    requires gen < U64 && last < U64 && c < U64 && !Fits(gen, last, c)
    ensures !(Stops(gen, last, c, n) && OnceEach(gen, last, c, n))
  {
    if c == MAX {
      NeverMoves(gen, n);
    } else if Stops(gen, last, c, n) && OnceEach(gen, last, c, n) {
      var m := VisitsBack(gen, last, c);
      assert m < n;
      var b := StartAt(gen, c, m);
      assert Visited(gen, last, c, n, b);
      var j := SeenEarlier(gen, last, c, b);
    }
  }

  // The loop stops and visits each block of the range once if and only if the sums fit.
  lemma ScanIff(gen: nat, last: nat, c: nat)
    requires gen < U64 && last < U64 && c < U64
    ensures Fits(gen, last, c) <==> exists n: nat :: Stops(gen, last, c, n) && OnceEach(gen, last, c, n)
  {
    if Fits(gen, last, c) {
      if gen <= last {
        FitsStops(gen, last, c);
        FitsOnceEach(gen, last, c);
      } else {
        assert Stops(gen, last, c, 0) && OnceEach(gen, last, c, 0);
      }
    } else {
      forall n: nat
        ensures !(Stops(gen, last, c, n) && OnceEach(gen, last, c, n))
      {
        UnfitFails(gen, last, c, n);
      }
    }
  }

  /* ---------- the loop of GetForks ---------- */

  datatype Version = Version(numBatch: nat, forkID: nat, version: string)

  // `version` is `None` for a log that does not parse.
  datatype Log = Log(blockNumber: nat, version: Option<Version>)

  // The version logs of each L1 block.
  type Chain = map<nat, seq<Log>>

  function At(chain: Chain, b: nat): seq<Log> {
    if b in chain then chain[b] else []
  }

  // The logs of the blocks from `from` to `final`.
  function LogsIn(chain: Chain, from: nat, final: int): seq<Log>
    decreases final
  {
    if final < from then [] else LogsIn(chain, from, final - 1) + At(chain, final)
  }

  lemma {:induction false} LogsSplit(chain: Chain, from: nat, mid: nat, final: int)
    requires from <= mid && mid - 1 <= final
    ensures LogsIn(chain, from, final) == LogsIn(chain, from, mid - 1) + LogsIn(chain, mid, final)
    decreases final
  {
    if mid <= final {
      LogsSplit(chain, from, mid, final - 1);
      var a, b := LogsIn(chain, from, mid - 1), LogsIn(chain, mid, final - 1);
      assert a + b + At(chain, final) == a + (b + At(chain, final));
    }
  }

  // The logs collected when the next query starts at `i`.
  function LogsBefore(gen: nat, last: nat, chain: Chain, i: nat): seq<Log> {
    LogsIn(chain, gen, if i <= last then i - 1 else last)
  }

  lemma OneQuery(gen: nat, last: nat, c: nat, chain: Chain, k: nat)
    requires gen <= last < U64 && Fits(gen, last, c) && k <= LastChunk(gen, last, c)
    ensures var i, next := StartAt(gen, c, k), StartAt(gen, c, k + 1);
            && (next <= last <==> k < LastChunk(gen, last, c))
            && LogsBefore(gen, last, chain, next) ==
               LogsBefore(gen, last, chain, i) + LogsIn(chain, i, FinalOf(i, c, last))
  {
    FitsChunk(gen, last, c, k);
    NextStart(gen, last, c, k);
    var i := StartAt(gen, c, k);
    LogsSplit(chain, gen, i, FinalOf(i, c, last));
  }

  // What the first `n` queries return, in uint64 arithmetic.
  function Collected(gen: nat, last: nat, c: nat, chain: Chain, n: nat): seq<Log>
    decreases n
  {
    if n == 0 then []
    else
      var i := StartAt(gen, c, n - 1);
      Collected(gen, last, c, chain, n - 1) + LogsIn(chain, i, FinalOf(i, c, last))
  }

  datatype Scan = Running(logs: seq<Log>) | Finished(logs: seq<Log>) | Failed

  // The first `n` queries are in range and answered.
  ghost predicate Answered(gen: nat, last: nat, c: nat, down: set<nat>, n: nat) {
    forall k: nat :: k < n ==> StartAt(gen, c, k) <= last && StartAt(gen, c, k) !in down
  }

  lemma OneMoreAnswer(gen: nat, last: nat, c: nat, chain: Chain, down: set<nat>, n: nat, i: nat)
    requires Answered(gen, last, c, down, n) && i == StartAt(gen, c, n) <= last && i !in down
    ensures Answered(gen, last, c, down, n + 1) && StartAt(gen, c, n + 1) == NextOf(i, c)
    ensures Collected(gen, last, c, chain, n + 1) ==
            Collected(gen, last, c, chain, n) + LogsIn(chain, i, FinalOf(i, c, last))
  {
  }

  // The first loop, watched for `rounds` rounds since it need not end. `down` are the starts
  // of the queries that fail; `n` is the number of queries answered.
  method ScanLogs(gen: nat, last: nat, c: nat, chain: Chain, down: set<nat>, rounds: nat)
    returns (result: Scan, n: nat)
    ensures n <= rounds && Answered(gen, last, c, down, n)
    ensures result.Finished? ==> StartAt(gen, c, n) > last && result.logs == Collected(gen, last, c, chain, n)
    ensures result.Failed? ==> StartAt(gen, c, n) <= last && StartAt(gen, c, n) in down
    ensures result.Running? ==>
              n == rounds && StartAt(gen, c, n) <= last && result.logs == Collected(gen, last, c, chain, n)
  {
    var logs, i := [], gen;
    n := 0;
    while i <= last && n < rounds
      invariant n <= rounds && i == StartAt(gen, c, n) && logs == Collected(gen, last, c, chain, n)
      invariant Answered(gen, last, c, down, n)
      decreases rounds - n
    {
      var final := (i + c) % U64;
      if final > last {
        final := last;
      }
      if i in down {
        return Failed, n;
      }
      OneMoreAnswer(gen, last, c, chain, down, n, i);
      logs := logs + LogsIn(chain, i, final);
      i := NextOf(i, c);
      n := n + 1;
    }
    return if i <= last then Running(logs) else Finished(logs), n;
  }

  lemma {:induction false} FitsCollects(gen: nat, last: nat, c: nat, chain: Chain, n: nat)
    requires gen <= last < U64 && Fits(gen, last, c) && n <= LastChunk(gen, last, c) + 1
    ensures Collected(gen, last, c, chain, n) == LogsBefore(gen, last, chain, StartAt(gen, c, n))
    decreases n
  {
    if n > 0 {
      FitsCollects(gen, last, c, chain, n - 1);
      OneQuery(gen, last, c, chain, n - 1);
    }
  }

  // When the sums fit, a scan that ends has collected the logs of all blocks from genesis
  // to last, once and in order, and ends after as many queries as there are chunks.
  lemma ScanCollectsAll(gen: nat, last: nat, c: nat, chain: Chain, n: nat)
    requires gen < U64 && last < U64 && c < U64 && Fits(gen, last, c)
    ensures Stops(gen, last, c, n) <==> n == if gen <= last then LastChunk(gen, last, c) + 1 else 0
    ensures Stops(gen, last, c, n) ==> Collected(gen, last, c, chain, n) == LogsIn(chain, gen, last)
  {
    if gen <= last {
      var l := LastChunk(gen, last, c);
      FitsStops(gen, last, c);
      FitsCollects(gen, last, c, chain, l + 1);
      assert n > l + 1 ==> StartAt(gen, c, l + 1) > last;
      assert n <= l ==> StartAt(gen, c, n) <= last;
    } else {
      assert StartAt(gen, c, 0) > last;
    }
  }

  lemma NextStart(gen: nat, last: nat, c: nat, k: nat)
    requires gen <= last < U64 && Fits(gen, last, c) && k <= LastChunk(gen, last, c)
    ensures StartAt(gen, c, k + 1) == StartAt(gen, c, k) + c + 1
    ensures StartAt(gen, c, k + 1) > last <==> k == LastChunk(gen, last, c)
  {
    StartsBefore(gen, last, c, k);
    MulMono(k + 1, LastChunk(gen, last, c) + 1, c + 1);
    ExactStart(gen, c, k + 1);
    OneMore(k, c + 1);
    FitsStops(gen, last, c);
  }

  /* ---------- the intervals ---------- */

  datatype Fork = Fork(fromBatch: nat, toBatch: nat, forkID: nat, version: string, blockNumber: nat)

  // The interval of event `i`: from the batch after its own to that of the next event.
  function ForkOf(logs: seq<Log>, i: nat): Fork
    requires i < |logs| && forall j :: 0 <= j < |logs| ==> logs[j].version.Some?
  {
    var v := logs[i].version.value;
    Fork((v.numBatch + 1) % U64, if i + 1 < |logs| then logs[i + 1].version.value.numBatch else MAX,
         v.forkID, v.version, logs[i].blockNumber)
  }

  // The batch numbers of the events.
  function NumBatches(logs: seq<Log>): (ns: seq<nat>)
    requires forall j :: 0 <= j < |logs| ==> logs[j].version.Some?
    ensures |ns| == |logs| && forall i :: 0 <= i < |logs| ==> ns[i] == logs[i].version.value.numBatch
  {
    seq(|logs|, j requires 0 <= j < |logs| => logs[j].version.value.numBatch)
  }

  // What the interval of event `i` says.
  ghost predicate Answers(logs: seq<Log>, i: nat, f: Fork)
    requires i < |logs| && forall j :: 0 <= j < |logs| ==> logs[j].version.Some?
  {
    var v := logs[i].version.value;
    && f.forkID == v.forkID && f.version == v.version && f.blockNumber == logs[i].blockNumber
    && f.fromBatch == (v.numBatch + 1) % 0x1_0000_0000_0000_0000
    && f.toBatch == if i + 1 < |logs| then logs[i + 1].version.value.numBatch else 0xFFFF_FFFF_FFFF_FFFF
  }

  // Exactly one interval holds `b`, and it is that of the latest event below `b`.
  ghost predicate HasOneFork(logs: seq<Log>, forks: seq<Fork>, b: nat)
    requires forall j :: 0 <= j < |logs| ==> logs[j].version.Some?
  {
    exists i: nat ::
      && i < |logs| == |forks| && Answers(logs, i, forks[i])
      && logs[i].version.value.numBatch < b
      && (forall j :: i < j < |logs| ==> b <= logs[j].version.value.numBatch)
      && forall j :: 0 <= j < |forks| ==> (forks[j].fromBatch <= b <= forks[j].toBatch <==> j == i)
  }

  // The second loop. When the events advance, every batch above the first has one interval,
  // with the answer of the latest event below it.
  method ForkIntervals(logs: seq<Log>) returns (result: Result<seq<Fork>>)
    ensures result.Ok? <==> forall i :: 0 <= i < |logs| ==> logs[i].version.Some?
    ensures result.Ok? ==> |result.value| == |logs| && forall i :: 0 <= i < |logs| ==> Answers(logs, i, result.value[i])
    ensures result.Ok? && logs != [] && U64s(NumBatches(logs)) && Advances(NumBatches(logs)) ==>
              forall b :: NumBatches(logs)[0] < b < 0x1_0000_0000_0000_0000 ==> HasOneFork(logs, result.value, b)
  {
    var forks: seq<Fork> := [];
    for i := 0 to |logs|
      invariant |forks| == i
      invariant forall j :: 0 <= j < i ==> logs[j].version.Some?
      invariant forall j :: 0 <= j < i ==> forks[j] == ForkOf(logs[..i], j)
    {
      if logs[i].version.None? {
        return Err("error parsing");
      }
      var v := logs[i].version.value;
      if i > 0 {
        forks := forks[..i - 1] + [forks[i - 1].(toBatch := v.numBatch)];
      }
      forks := forks + [Fork((v.numBatch + 1) % U64, MAX, v.forkID, v.version, logs[i].blockNumber)];
    }
    assert logs[..|logs|] == logs;
    EachHasOneFork(logs, forks);
    return Ok(forks);
  }

  // Whether the interval of event `i` holds batch `b`, from the batch numbers alone.
  predicate Holds(ns: seq<nat>, i: nat, b: nat)
    requires i < |ns|
  {
    (ns[i] + 1) % U64 <= b <= if i + 1 < |ns| then ns[i + 1] else MAX
  }

  lemma HoldsIsInterval(logs: seq<Log>, i: nat, b: nat)
    requires i < |logs| && forall j :: 0 <= j < |logs| ==> logs[j].version.Some?
    ensures Holds(NumBatches(logs), i, b) <==> ForkOf(logs, i).fromBatch <= b <= ForkOf(logs, i).toBatch
  {
  }

  ghost predicate U64s(ns: seq<nat>) {
    |ns| > 0 && forall i :: 0 <= i < |ns| ==> ns[i] < U64
  }

  // The latest event below `b`.
  function Latest(ns: seq<nat>, b: nat): (i: nat)
    requires |ns| > 0 && ns[0] < b
    ensures i < |ns| && ns[i] < b
    ensures forall j :: i < j < |ns| ==> b <= ns[j]
  {
    if ns[|ns| - 1] < b then |ns| - 1 else Latest(ns[..|ns| - 1], b)
  }

  // It always holds `b`.
  lemma LatestHolds(ns: seq<nat>, b: nat)
    requires U64s(ns) && ns[0] < b < U64
    ensures Holds(ns, Latest(ns, b), b)
  {
  }

  // The first time the events pass `b` on the way to event `i`.
  lemma {:induction false} Passes(ns: seq<nat>, b: nat, i: nat) returns (k: nat)
    requires U64s(ns) && ns[0] < b && i < |ns| && b <= ns[i]
    ensures k < i && ns[k] < b && Holds(ns, k, b)
  {
    if ns[i - 1] < b {
      k := i - 1;
    } else {
      k := Passes(ns, b, i - 1);
    }
  }

  // A batch is in two intervals when the events go back past it.
  lemma GoingBackHoldsTwice(ns: seq<nat>, b: nat, i: nat) returns (k: nat)
    requires U64s(ns) && ns[0] < b < U64 && i + 1 < |ns| && ns[i + 1] < b <= ns[i]
    ensures k < |ns| && k != Latest(ns, b) && Holds(ns, k, b)
  {
    k := Passes(ns, b, i);
  }

  // Every batch above the first event is in the interval of the latest event below it and
  // in no other.
  ghost predicate Partition(ns: seq<nat>)
    requires |ns| > 0
  {
    forall b, i :: ns[0] < b < U64 && 0 <= i < |ns| ==> (Holds(ns, i, b) <==> i == Latest(ns, b))
  }

  // The events do not go back, except among those at or before the first, and none is at
  // the largest uint64, after which the next batch would be number 0.
  ghost predicate Advances(ns: seq<nat>) {
    && (forall i :: 0 <= i < |ns| - 1 ==> ns[i] <= ns[i + 1] || ns[i] <= ns[0])
    && (forall i :: 0 <= i < |ns| ==> ns[i] < MAX)
  }

  lemma OnlyLatestHolds(ns: seq<nat>, b: nat, i: nat)
    requires U64s(ns) && Advances(ns) && ns[0] < b < U64 && i < |ns| && Holds(ns, i, b)
    ensures i == Latest(ns, b)
  {
    assert ns[i] < b;
    if i + 1 < |ns| {
      StaysAbove(ns, b, i + 1, Latest(ns, b));
    }
  }

  // Once past `b` the events stay past it.
  lemma {:induction false} StaysAbove(ns: seq<nat>, b: nat, i: nat, j: nat)
    requires U64s(ns) && Advances(ns) && ns[0] < b && i < |ns| && b <= ns[i] && j < |ns|
    ensures i <= j ==> b <= ns[j]
  {
    if i < j {
      StaysAbove(ns, b, i, j - 1);
      assert ns[j - 1] <= ns[j];
    }
  }

  lemma PartitionIff(ns: seq<nat>)
    requires U64s(ns)
    ensures Partition(ns) <==> ns[0] == MAX || Advances(ns)
  {
    if ns[0] < MAX && !Advances(ns) {
      if i :| 0 <= i < |ns| - 1 && ns[i] > ns[i + 1] && ns[i] > ns[0] {
        var k := GoingBackHoldsTwice(ns, ns[i], i);
        assert Holds(ns, k, ns[i]) && k != Latest(ns, ns[i]);
      } else {
        var i :| 0 <= i < |ns| && ns[i] >= MAX;
        LargestHolds(ns, i);
      }
    } else if ns[0] < MAX {
      forall b, i | ns[0] < b < U64 && 0 <= i < |ns|
        ensures Holds(ns, i, b) <==> i == Latest(ns, b)
      {
        LatestHolds(ns, b);
        if Holds(ns, i, b) {
          OnlyLatestHolds(ns, b, i);
        }
      }
    }
  }

  lemma LargestHolds(ns: seq<nat>, i: nat)
    requires U64s(ns) && ns[0] < MAX && i < |ns| && ns[i] == MAX
    requires i + 1 < |ns| ==> ns[i] <= ns[i + 1]
    ensures Holds(ns, i, MAX) && i != Latest(ns, MAX)
  {
  }

  lemma OnlyOneHolds(logs: seq<Log>, b: nat, i: nat)
    requires logs != [] && i < |logs| && forall j :: 0 <= j < |logs| ==> logs[j].version.Some?
    requires U64s(NumBatches(logs)) && Advances(NumBatches(logs)) && NumBatches(logs)[0] < b < U64
    ensures ForkOf(logs, i).fromBatch <= b <= ForkOf(logs, i).toBatch <==> i == Latest(NumBatches(logs), b)
  {
    var ns := NumBatches(logs);
    HoldsIsInterval(logs, i, b);
    LatestHolds(ns, b);
    if Holds(ns, i, b) {
      OnlyLatestHolds(ns, b, i);
    }
  }

  lemma OneForkHolds(logs: seq<Log>, forks: seq<Fork>, b: nat)
    requires logs != [] && forall j :: 0 <= j < |logs| ==> logs[j].version.Some?
    requires |forks| == |logs| && forall i :: 0 <= i < |logs| ==> forks[i] == ForkOf(logs, i)
    requires U64s(NumBatches(logs)) && Advances(NumBatches(logs)) && NumBatches(logs)[0] < b < U64
    ensures HasOneFork(logs, forks, b)
  {
    var i := Latest(NumBatches(logs), b);
    forall j | 0 <= j < |forks|
      ensures forks[j].fromBatch <= b <= forks[j].toBatch <==> j == i
    {
      OnlyOneHolds(logs, b, j);
    }
    assert Answers(logs, i, forks[i]);
  }

  lemma EachHasOneFork(logs: seq<Log>, forks: seq<Fork>)
    requires forall j :: 0 <= j < |logs| ==> logs[j].version.Some?
    requires |forks| == |logs| && forall i :: 0 <= i < |logs| ==> forks[i] == ForkOf(logs, i)
    ensures logs != [] && U64s(NumBatches(logs)) && Advances(NumBatches(logs)) ==>
              forall b :: NumBatches(logs)[0] < b < U64 ==> HasOneFork(logs, forks, b)
  {
    if logs != [] && U64s(NumBatches(logs)) && Advances(NumBatches(logs)) {
      forall b | NumBatches(logs)[0] < b < U64
        ensures HasOneFork(logs, forks, b)
      {
        OneForkHolds(logs, forks, b);
      }
    }
  }
}
