/**
 Walking the blocks and, for each, its entries of the order index gives the recognised
 events back in log order exactly when the logs of each block are next to each other.
 */
module EventReplay {
  import opened Wrappers
  import opened EventFold

  // What the synchronizer reads at one entry; `None` is an index out of range.
  function EventAt(b: Block, o: Order): Option<Event> {
    if o.pos < 0 then None
    else match o.name
      case GlobalExitRootsOrder =>
        if o.pos < |b.globalExitRoots| then Some(GlobalExitRootEvent(b.globalExitRoots[o.pos])) else None
      case ForcedBatchesOrder =>
        if o.pos < |b.forcedBatches| then Some(ForcedBatchEvent(b.forcedBatches[o.pos])) else None
      case SequenceBatchesOrder =>
        if o.pos < |b.sequencedBatches| then Some(SequencedBatchesEvent(b.sequencedBatches[o.pos])) else None
      case TrustedVerifyBatchOrder =>
        if o.pos < |b.verifiedBatches| then Some(VerifyBatchesEvent(b.verifiedBatches[o.pos])) else None
      case SequenceForceBatchesOrder =>
        if o.pos < |b.sequencedForceBatches| then Some(ForceSequencedBatchesEvent(b.sequencedForceBatches[o.pos])) else None
      case ForkIDsOrder =>
        if o.pos < |b.forkIDs| then Some(ForkIDEvent(b.forkIDs[o.pos])) else None
  }

  // The entries of one block, in order.
  function Walk(b: Block, entries: seq<Order>): Option<seq<Tagged>> {
    if entries == [] then Some([])
    else
      var most := Walk(b, entries[..|entries| - 1]);
      var e := EventAt(b, entries[|entries| - 1]);
      if most.None? || e.None? then None
      else Some(most.value + [Tagged(b.hash, b.number, e.value)])
  }

  // The loop over the blocks.
  function Replay(blocks: seq<Block>, order: map<Hash, seq<Order>>): Option<seq<Tagged>> {
    if blocks == [] then Some([])
    else
      var b := blocks[|blocks| - 1];
      var most := Replay(blocks[..|blocks| - 1], order);
      var last := Walk(b, At(order, b.hash));
      if most.None? || last.None? then None
      else Some(most.value + last.value)
  }

  // Between two logs of one block hash there are only logs of that block.
  ghost predicate Contiguous(rs: seq<Tagged>) {
    forall i, j, k :: 0 <= i <= j <= k < |rs| && rs[i].hash == rs[k].hash ==>
      rs[j].hash == rs[i].hash && rs[j].number == rs[i].number
  }

  ghost predicate Distinct(blocks: seq<Block>) {
    forall i, j :: 0 <= i < j < |blocks| ==> blocks[i].hash != blocks[j].hash
  }

  ghost predicate Among(h: Hash, blocks: seq<Block>) {
    exists i :: 0 <= i < |blocks| && blocks[i].hash == h
  }

  /* ---------- contiguous logs, distinct blocks ---------- */

  // The block hashes seen so far are those of the events so far.
  ghost predicate EventsInBlocks(s: State, rs: seq<Tagged>) {
    forall i :: 0 <= i < |rs| ==> Among(rs[i].hash, s.blocks)
  }

  ghost predicate BlocksHaveEvents(s: State, rs: seq<Tagged>) {
    forall i :: 0 <= i < |s.blocks| ==> exists j :: 0 <= j < |rs| && rs[j].hash == s.blocks[i].hash
  }

  ghost predicate Tracks(s: State, rs: seq<Tagged>) {
    EventsInBlocks(s, rs) && BlocksHaveEvents(s, rs) && Follows(s, rs)
  }

  // What one event does to the list of blocks, as far as headers go.
  lemma PutBlocks(s: State, t: Tagged, h: Header)
    ensures var s' := Put(s, t, h);
            && |s'.blocks| == |s.blocks| + (if SameBlock(s, t) then 0 else 1)
            && s'.blocks[|s'.blocks| - 1].hash == t.hash && s'.blocks[|s'.blocks| - 1].number == t.number
            && s'.blocks[..|s'.blocks| - 1] == (if SameBlock(s, t) then s.blocks[..|s.blocks| - 1] else s.blocks)
            && (forall i :: 0 <= i < |s.blocks| ==> s'.blocks[i].hash == s.blocks[i].hash)
  {
  }

  lemma PutHasEvents(s: State, rs: seq<Tagged>, t: Tagged, h: Header)
    requires EventsInBlocks(s, rs)
    ensures EventsInBlocks(Put(s, t, h), rs + [t])
  {
    var s', rs' := Put(s, t, h), rs + [t];
    PutBlocks(s, t, h);
    forall i | 0 <= i < |rs'|
      ensures Among(rs'[i].hash, s'.blocks)
    {
      if i < |rs| {
        assert Among(rs[i].hash, s.blocks);
        var k :| 0 <= k < |s.blocks| && s.blocks[k].hash == rs[i].hash;
        assert s'.blocks[k].hash == rs'[i].hash;
      } else {
        assert s'.blocks[|s'.blocks| - 1].hash == rs'[i].hash;
      }
    }
  }

  lemma PutHasBlocks(s: State, rs: seq<Tagged>, t: Tagged, h: Header)
    requires BlocksHaveEvents(s, rs)
    ensures BlocksHaveEvents(Put(s, t, h), rs + [t])
  {
    var s', rs' := Put(s, t, h), rs + [t];
    PutBlocks(s, t, h);
    forall i | 0 <= i < |s'.blocks|
      ensures exists j :: 0 <= j < |rs'| && rs'[j].hash == s'.blocks[i].hash
    {
      if i == |s'.blocks| - 1 {
        assert rs'[|rs|].hash == s'.blocks[i].hash;
      } else {
        var j :| 0 <= j < |rs| && rs[j].hash == s.blocks[i].hash;
        assert rs'[j].hash == s'.blocks[i].hash;
      }
    }
  }

  lemma PutTracks(s: State, rs: seq<Tagged>, t: Tagged, h: Header)
    requires Tracks(s, rs)
    ensures Tracks(Put(s, t, h), rs + [t])
  {
    PutHasEvents(s, rs, t, h);
    PutHasBlocks(s, rs, t, h);
    PutLast(s, t, h);
  }

  predicate SameAsLast(rs: seq<Tagged>, t: Tagged) {
    rs != [] && rs[|rs| - 1].hash == t.hash && rs[|rs| - 1].number == t.number
  }

  lemma ContiguousLess(rs: seq<Tagged>, t: Tagged)
    requires Contiguous(rs + [t])
    ensures Contiguous(rs) && (SameAsLast(rs, t) || forall i :: 0 <= i < |rs| ==> rs[i].hash != t.hash)
  {
    var more, n := rs + [t], |rs|;
    forall i, j, k | 0 <= i <= j <= k < n && rs[i].hash == rs[k].hash
      ensures rs[j].hash == rs[i].hash && rs[j].number == rs[i].number
    {
      assert more[i] == rs[i] && more[j] == rs[j] && more[k] == rs[k];
    }
    if i :| 0 <= i < n && rs[i].hash == t.hash {
      assert more[i].hash == more[n].hash && more[n - 1] == rs[n - 1] && more[n] == t;
    }
  }

  // The new event stands where the one before it stood.
  lemma ContiguousRepeat(rs: seq<Tagged>, t: Tagged)
    requires Contiguous(rs) && SameAsLast(rs, t)
    ensures Contiguous(rs + [t])
  {
    var more, n := rs + [t], |rs|;
    forall i, j, k | 0 <= i <= j <= k < n + 1 && more[i].hash == more[k].hash
      ensures more[j].hash == more[i].hash && more[j].number == more[i].number
    {
      var i', j', k' := if i == n then n - 1 else i, if j == n then n - 1 else j, if k == n then n - 1 else k;
      assert rs[i'].hash == more[i].hash && rs[j'].hash == more[j].hash && rs[k'].hash == more[k].hash;
      assert rs[i'].number == more[i].number && rs[j'].number == more[j].number;
    }
  }

  lemma ContiguousMore(rs: seq<Tagged>, t: Tagged)
    ensures Contiguous(rs + [t]) <==>
            Contiguous(rs) && (SameAsLast(rs, t) || forall i :: 0 <= i < |rs| ==> rs[i].hash != t.hash)
  {
    if Contiguous(rs + [t]) {
      ContiguousLess(rs, t);
    } else if Contiguous(rs) && SameAsLast(rs, t) {
      ContiguousRepeat(rs, t);
    }
  }

  lemma DistinctMore(s: State, t: Tagged, h: Header)
    ensures Distinct(Put(s, t, h).blocks) <==> Distinct(s.blocks) && (SameBlock(s, t) || !Among(t.hash, s.blocks))
  {
    PutBlocks(s, t, h);
    var s' := Put(s, t, h);
    var n := |s.blocks|;
    if Distinct(s'.blocks) {
      assert forall i, j :: 0 <= i < j < n ==> s'.blocks[i].hash == s.blocks[i].hash && s'.blocks[j].hash == s.blocks[j].hash;
    } else {
      var i, j :| 0 <= i < j < |s'.blocks| && s'.blocks[i].hash == s'.blocks[j].hash;
      assert s.blocks[i].hash == s'.blocks[i].hash;
    }
  }

  /* ---------- replay of distinct blocks ---------- */

  // What is appended does not move what was there.
  lemma EventStays(b: Block, e: Event, o: Order)
    requires EventAt(b, o).Some?
    ensures EventAt(AppendEvent(b, e), o) == EventAt(b, o)
  {
  }

  lemma NewEventIsLast(b: Block, e: Event)
    ensures EventAt(AppendEvent(b, e), LastOrder(AppendEvent(b, e), e)) == Some(e)
  {
  }

  lemma {:induction false} WalkStays(b: Block, e: Event, entries: seq<Order>)
    requires Walk(b, entries).Some?
    ensures Walk(AppendEvent(b, e), entries) == Walk(b, entries)
  {
    if entries != [] {
      WalkStays(b, e, entries[..|entries| - 1]);
      EventStays(b, e, entries[|entries| - 1]);
      AppendKeepsHeader(b, e);
    }
  }

  // One more event in a block is one more step of its walk.
  lemma WalkMore(b: Block, e: Event, entries: seq<Order>)
    requires Walk(b, entries).Some?
    ensures var b' := AppendEvent(b, e);
            Walk(b', entries + [LastOrder(b', e)]) == Some(Walk(b, entries).value + [Tagged(b.hash, b.number, e)])
  {
    var more := entries + [LastOrder(AppendEvent(b, e), e)];
    assert more[..|more| - 1] == entries;
    WalkStays(b, e, entries);
    NewEventIsLast(b, e);
    AppendKeepsHeader(b, e);
  }

  // Entries of another block do not matter.
  lemma {:induction false} ReplayElsewhere(blocks: seq<Block>, order: map<Hash, seq<Order>>, h: Hash, entries: seq<Order>)
    requires !Among(h, blocks)
    ensures Replay(blocks, order[h := entries]) == Replay(blocks, order)
  {
    if blocks != [] {
      ReplayElsewhere(blocks[..|blocks| - 1], order, h, entries);
    }
  }

  // The order index has entries for the blocks only.
  ghost predicate Indexed(s: State) {
    forall h :: h in s.order ==> Among(h, s.blocks)
  }

  lemma PutIndexed(s: State, t: Tagged, h: Header)
    requires Indexed(s)
    ensures Indexed(Put(s, t, h))
  {
    var s' := Put(s, t, h);
    PutBlocks(s, t, h);
    forall x | x in s'.order
      ensures Among(x, s'.blocks)
    {
      if x == t.hash {
        assert s'.blocks[|s'.blocks| - 1].hash == x;
      } else {
        assert Among(x, s.blocks);
        var i :| 0 <= i < |s.blocks| && s.blocks[i].hash == x;
        assert s'.blocks[i].hash == x;
      }
    }
  }

  lemma ReplayLast(earlier: seq<Block>, b: Block, order: map<Hash, seq<Order>>, e: Event)
    requires !Among(b.hash, earlier)
    requires Replay(earlier, order).Some? && Walk(b, At(order, b.hash)).Some?
    ensures var b' := AppendEvent(b, e);
            var order' := order[b.hash := At(order, b.hash) + [LastOrder(b', e)]];
            Replay(earlier + [b'], order') ==
            Some(Replay(earlier, order).value + Walk(b, At(order, b.hash)).value + [Tagged(b.hash, b.number, e)])
  {
    var b' := AppendEvent(b, e);
    var entries := At(order, b.hash) + [LastOrder(b', e)];
    ReplayElsewhere(earlier, order, b.hash, entries);
    WalkMore(b, e, At(order, b.hash));
    AppendKeepsHeader(b, e);
    assert (earlier + [b'])[..|earlier|] == earlier;
    var r, w, t := Replay(earlier, order).value, Walk(b, At(order, b.hash)).value, Tagged(b.hash, b.number, e);
    assert r + (w + [t]) == r + w + [t];
  }

  lemma PutReplays(s: State, t: Tagged, h: Header)
    requires Indexed(s) && Distinct(Put(s, t, h).blocks) && Replay(s.blocks, s.order).Some?
    ensures var s' := Put(s, t, h);
            Replay(s'.blocks, s'.order) == Some(Replay(s.blocks, s.order).value + [t])
  {
    PutBlocks(s, t, h);
    var blocks := Put(s, t, h).blocks;
    var earlier := blocks[..|blocks| - 1];
    assert !Among(t.hash, earlier);
    if SameBlock(s, t) {
      ReplayLast(earlier, s.blocks[|s.blocks| - 1], s.order, t.event);
    } else {
      assert At(s.order, t.hash) == [];
      ReplayLast(s.blocks, NewBlock(t, h), s.order, t.event);
      var r := Replay(s.blocks, s.order).value;
      assert r + [] == r;
    }
  }

  /* ---------- replay of repeated blocks ---------- */

  // The number of entries a replay goes through.
  function Steps(blocks: seq<Block>, order: map<Hash, seq<Order>>): nat {
    if blocks == [] then 0
    else Steps(blocks[..|blocks| - 1], order) + |At(order, blocks[|blocks| - 1].hash)|
  }

  lemma {:induction false} WalkLength(b: Block, entries: seq<Order>)
    requires Walk(b, entries).Some?
    ensures |Walk(b, entries).value| == |entries|
  {
    if entries != [] {
      WalkLength(b, entries[..|entries| - 1]);
    }
  }

  lemma {:induction false} ReplayLength(blocks: seq<Block>, order: map<Hash, seq<Order>>)
    requires Replay(blocks, order).Some?
    ensures |Replay(blocks, order).value| == Steps(blocks, order)
  {
    if blocks != [] {
      ReplayLength(blocks[..|blocks| - 1], order);
      WalkLength(blocks[|blocks| - 1], At(order, blocks[|blocks| - 1].hash));
    }
  }

  // A longer entry for `h` lengthens the walk of every block with that hash.
  lemma {:induction false} StepsGrow(blocks: seq<Block>, order: map<Hash, seq<Order>>, h: Hash, o: Order)
    ensures var order' := order[h := At(order, h) + [o]];
            Steps(blocks, order') >= Steps(blocks, order) + if Among(h, blocks) then 1 else 0
  {
    if blocks != [] {
      StepsGrow(blocks[..|blocks| - 1], order, h, o);
      if Among(h, blocks) && blocks[|blocks| - 1].hash != h {
        var i :| 0 <= i < |blocks| && blocks[i].hash == h;
        assert blocks[..|blocks| - 1][i].hash == h;
      }
    }
  }

  lemma {:induction false} StepsOfHeaders(a: seq<Block>, b: seq<Block>, order: map<Hash, seq<Order>>)
    requires |a| == |b| && forall i :: 0 <= i < |a| ==> a[i].hash == b[i].hash
    ensures Steps(a, order) == Steps(b, order)
  {
    if a != [] {
      StepsOfHeaders(a[..|a| - 1], b[..|b| - 1], order);
    }
  }

  lemma PutSteps(s: State, t: Tagged, h: Header)
    ensures var s' := Put(s, t, h);
            && Steps(s'.blocks, s'.order) >= Steps(s.blocks, s.order) + 1
            && (!SameBlock(s, t) && Among(t.hash, s.blocks) ==> Steps(s'.blocks, s'.order) >= Steps(s.blocks, s.order) + 2)
  {
    var s' := Put(s, t, h);
    PutBlocks(s, t, h);
    var o := s'.order[t.hash][|s'.order[t.hash]| - 1];
    StepsGrow(s.blocks, s.order, t.hash, o);
    if SameBlock(s, t) {
      StepsOfHeaders(s.blocks, s'.blocks, s'.order);
      assert Among(t.hash, s.blocks);
    }
  }

  /* ---------- the main result ---------- */

  ghost predicate Replays(s: State, rs: seq<Tagged>) {
    && Tracks(s, rs) && Indexed(s)
    && (Distinct(s.blocks) <==> Contiguous(rs))
    && (Distinct(s.blocks) ==> Replay(s.blocks, s.order) == Some(rs))
    && (!Distinct(s.blocks) ==> Steps(s.blocks, s.order) > |rs|)
    && Steps(s.blocks, s.order) >= |rs|
  }

  lemma SeenBefore(s: State, rs: seq<Tagged>, t: Tagged)
    requires Tracks(s, rs)
    ensures Among(t.hash, s.blocks) <==> exists i :: 0 <= i < |rs| && rs[i].hash == t.hash
    ensures SameBlock(s, t) <==> SameAsLast(rs, t)
  {
  }

  lemma PutKeepsDistinct(s: State, rs: seq<Tagged>, t: Tagged, h: Header)
    requires Tracks(s, rs) && (Distinct(s.blocks) <==> Contiguous(rs))
    ensures Distinct(Put(s, t, h).blocks) <==> Contiguous(rs + [t])
  {
    SeenBefore(s, rs, t);
    ContiguousMore(rs, t);
    DistinctMore(s, t, h);
  }

  lemma PutKeepsReplays(s: State, rs: seq<Tagged>, t: Tagged, h: Header)
    requires Replays(s, rs)
    ensures Replays(Put(s, t, h), rs + [t])
  {
    PutTracks(s, rs, t, h);
    PutIndexed(s, t, h);
    PutKeepsDistinct(s, rs, t, h);
    DistinctMore(s, t, h);
    PutSteps(s, t, h);
    if Distinct(Put(s, t, h).blocks) {
      PutReplays(s, t, h);
    }
  }

  lemma {:induction false} FoldReplays(logs: seq<Log>)
    ensures Replays(Folded(logs), Recognised(logs))
  {
    if logs != [] {
      var most, l := logs[..|logs| - 1], logs[|logs| - 1];
      FoldReplays(most);
      if l.outcome.Parsed? {
        PutKeepsReplays(Folded(most), Recognised(most), TagOf(l), if l.header.Some? then l.header.value else Header("", 0));
      } else {
        assert Recognised(logs) == Recognised(most);
      }
    }
  }

  // The walk gives back the recognised events, in order and each with its block, exactly
  // when the recognised logs of each block are contiguous; no index is then out of range.
  lemma ReplayIffContiguous(logs: seq<Log>)
    ensures var s := Folded(logs);
            Replay(s.blocks, s.order) == Some(Recognised(logs)) <==> Contiguous(Recognised(logs))
  {
    var s := Folded(logs);
    FoldReplays(logs);
    if Replay(s.blocks, s.order).Some? {
      ReplayLength(s.blocks, s.order);
    }
  }
}
