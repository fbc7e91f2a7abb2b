/**
 `Reorg` and `setStatusDone` on one row. Each reads the row, changes its copy and writes
 the whole row back, over different database connections; here the two reads and the two
 writes are separate turns in any order.
 */
module EthTxTwoWriters {
  import opened Wrappers
  import opened EthTxMachine

  datatype Turn = DoneReads | DoneWrites | ReorgReads | ReorgWrites

  // The stored row and the two copies.
  datatype Desk = Desk(row: Row, owner: Option<Row>, reorg: Option<Row>)

  predicate Selected(r: Row, fromBlock: nat) {
    r.blockNumber.Some? && r.blockNumber.value >= fromBlock
  }

  function Take(d: Desk, t: Turn, fromBlock: nat): Desk {
    match t
    case DoneReads => d.(owner := Some(d.row))
    case DoneWrites =>
      if d.owner.Some? then d.(row := Persist(d.owner.value.(status := Done))) else d
    case ReorgReads => d.(reorg := if Selected(d.row, fromBlock) then Some(d.row) else None)
    case ReorgWrites =>
      if d.reorg.Some? then d.(row := Persist(d.reorg.value.(blockNumber := None, status := Reorged))) else d
  }

  function After(d: Desk, ts: seq<Turn>, fromBlock: nat): Desk {
    if ts == [] then d else Take(After(d, ts[..|ts| - 1], fromBlock), ts[|ts| - 1], fromBlock)
  }

  predicate Before(ts: seq<Turn>, a: Turn, b: Turn) {
    exists i, j :: 0 <= i < j < |ts| && ts[i] == a && ts[j] == b
  }

  // Each turn once, and each write after its read.
  ghost predicate Schedule(ts: seq<Turn>) {
    |ts| == 4 && Before(ts, DoneReads, DoneWrites) && Before(ts, ReorgReads, ReorgWrites)
  }

  lemma OneMoreTurn(d: Desk, ts: seq<Turn>, i: nat, fromBlock: nat)
    requires i < |ts|
    ensures After(d, ts[..i + 1], fromBlock) == Take(After(d, ts[..i], fromBlock), ts[i], fromBlock)
  {
    assert ts[..i + 1][..i] == ts[..i];
  }

  lemma AfterFour(d: Desk, ts: seq<Turn>, fromBlock: nat)
    requires |ts| == 4
    ensures After(d, ts, fromBlock) ==
            Take(Take(Take(Take(d, ts[0], fromBlock), ts[1], fromBlock), ts[2], fromBlock), ts[3], fromBlock)
  {
    OneMoreTurn(d, ts, 0, fromBlock);
    OneMoreTurn(d, ts, 1, fromBlock);
    OneMoreTurn(d, ts, 2, fromBlock);
    OneMoreTurn(d, ts, 3, fromBlock);
    assert ts[..4] == ts && ts[..0] == [];
  }

  // A confirmed row that the reorg must take back. The later write wins: done is lost when
  // the reorg writes last, the reorg is lost when `setStatusDone` writes last, and the row
  // keeps its block number exactly when `setStatusDone` had read it before the reorg wrote.
  lemma LastWriterWins(r: Row, ts: seq<Turn>, fromBlock: nat)
    requires r.status == Confirmed && Selected(r, fromBlock) && Schedule(ts)
    ensures var end := After(Desk(r, None, None), ts, fromBlock).row;
            && (end.status == Reorged <==> Before(ts, DoneWrites, ReorgWrites))
            && (end.status == Done <==> Before(ts, ReorgWrites, DoneWrites))
            && (end.blockNumber.Some? <==>
                  Before(ts, DoneReads, ReorgWrites) && Before(ts, ReorgWrites, DoneWrites))
  {
    AfterFour(Desk(r, None, None), ts, fromBlock);
    assert forall a, b :: Before(ts, a, b) <==>
      || (ts[0] == a && (ts[1] == b || ts[2] == b || ts[3] == b))
      || (ts[1] == a && (ts[2] == b || ts[3] == b))
      || (ts[2] == a && ts[3] == b);
  }

  // With nothing in between the reorg is the step of the state machine.
  lemma ReorgInOnePiece(d: Desk, fromBlock: nat)
    ensures Take(Take(d, ReorgReads, fromBlock), ReorgWrites, fromBlock).row == ReorgRow(d.row, fromBlock)
  {
  }
}
