/**
 The eth tx manager as a state machine.

 Every monitored transaction is one stored row. `monitorTxs` reads the rows that are
 not settled and runs one pass of `monitorTx` per row; a pass keeps a private copy of
 its row and writes the whole copy back. Each network call and each storage write of a
 pass is one action here, so a run is an arbitrary interleaving of those actions with
 the L1 chain, with the synchronizer and with the owner that calls `setStatusDone`.
 */
module EthTxMachine {
  import opened Wrappers

  type Address = nat
  type Key = (string, string)  // owner, id

  datatype Status = Created | Sent | Failed | Confirmed | Reorged | Done

  // A signed transaction. Its hash is identified with its content: signing is
  // deterministic and the hash is taken to be collision free.
  datatype SignedTx = SignedTx(
    from: Address, to: Option<Address>, nonce: nat, value: Option<nat>,
    data: seq<bv8>, gas: nat, gasPrice: nat)

  // What the caller of `Add` asks for.
  datatype Request = Request(
    from: Address, to: Option<Address>, value: Option<nat>, data: seq<bv8>, gasOffset: nat)

  datatype Row = Row(
    from: Address, to: Option<Address>, nonce: nat, value: Option<nat>, data: seq<bv8>,
    gas: nat, gasOffset: nat, gasPrice: nat,
    status: Status, blockNumber: Option<nat>, history: set<SignedTx>)

  /* ---------- rows ---------- */

  // What reading a row back after writing it gives: value and gas price go through
  // `Uint64()` on their way to the database.
  function Persist(r: Row): Row {
    r.(value := if r.value.Some? then Some(r.value.value % U64) else None,
       gasPrice := r.gasPrice % U64)
  }

  // `monitoredTx.Tx` followed by `SignTx`. The gas sum is a uint64 sum.
  function Build(r: Row): SignedTx {
    SignedTx(r.from, r.to, r.nonce, r.value, r.data, (r.gas + r.gasOffset) % U64, r.gasPrice)
  }

  // The row that `Add` inserts.
  function NewRow(q: Request, nonce: nat, gas: nat, gasPrice: nat): Row {
    Row(q.from, q.to, nonce, q.value, q.data, gas, q.gasOffset, gasPrice, Created, None, {})
  }

  // `monitorTxs` picks up the rows with these statuses.
  predicate Pending(st: Status) {
    st == Created || st == Sent || st == Reorged
  }

  // A settled row has been confirmed or failed at least once.
  predicate Settled(st: Status) {
    st != Created && st != Sent
  }

  // What `Reorg(fromBlock)` does to one row: `GetByBlock` selects it when its block
  // number is set and not below `fromBlock`.
  function ReorgRow(r: Row, fromBlock: nat): Row {
    if r.blockNumber.Some? && r.blockNumber.value >= fromBlock
    then Persist(r.(blockNumber := None, status := Reorged))
    else r
  }

  /* ---------- the chain ---------- */

  datatype Mined = Mined(tx: SignedTx, success: bool, block: nat)

  // The transactions mined for a sender; the one with nonce n is at index n.
  type Chain = map<Address, seq<Mined>>

  function Txs(c: Chain, a: Address): seq<Mined> {
    if a in c then c[a] else []
  }

  predicate IsMined(c: Chain, t: SignedTx) {
    t.nonce < |Txs(c, t.from)| && Txs(c, t.from)[t.nonce].tx == t
  }

  function Receipt(c: Chain, t: SignedTx): Mined
    requires IsMined(c, t)
  {
    Txs(c, t.from)[t.nonce]
  }

  predicate Succeeded(c: Chain, t: SignedTx) {
    IsMined(c, t) && Receipt(c, t).success
  }

  predicate MinedFailed(c: Chain, t: SignedTx) {
    IsMined(c, t) && !Receipt(c, t).success
  }

  // L1 chain and the last L1 block the node has synchronized.
  datatype Env = Env(chain: Chain, synced: nat)

  /* ---------- one pass of monitorTx ---------- */

  datatype PC =
    | Scanning(todo: set<SignedTx>, hasFailed: bool, allMined: bool)
    | NonceRead
    | NonceWrite
    | Ready
    | ReviewWrite
    | Signing
    | HistoryWrite(tx: SignedTx)
    | Checking(tx: SignedTx)
    | Sending(tx: SignedTx)
    | SentWrite(tx: SignedTx)
    | Waiting(tx: SignedTx)
    | Fetching(tx: SignedTx)
    | Finalizing(receipt: Mined)
    | FinalWrite

  // `base` is the stored row as this pass last read or wrote it.
  datatype Pass = Pass(mtx: Row, base: Row, pc: PC)

  // `owner` is the copy `setStatusDone` has read and not yet written back; `seen` says
  // that the owner has been told the transaction is confirmed; `sent` logs every
  // transaction handed to `SendTx`, in order.
  datatype Monitor = Monitor(
    request: Request, row: Row, pass: Option<Pass>,
    owner: Option<Row>, seen: bool, sent: seq<SignedTx>)

  datatype Action =
    | Lookup(tx: SignedTx, answered: bool)  // CheckTxWasMined on one history hash
    | EndScan
    | ReadNonce                             // CurrentNonce
    | Write                                 // storage.Update
    | Review(estimate: nat, price: nat)     // EstimateGas and suggestedGasPrice
    | Sign
    | GetTx(notFound: bool)
    | Send(ok: bool)
    | Wait
    | FetchReceipt
    | Settle(goOn: bool)
    | Stop                                  // any error, timeout or panic ends the pass
    | OwnerSees
    | OwnerReads
    | OwnerWrites

  function Goto(m: Monitor, p: Pass, mtx: Row, pc: PC): Option<Monitor> {
    Some(m.(pass := Some(Pass(mtx, p.base, pc))))
  }

  function Store(m: Monitor, p: Pass, pc: PC): Option<Monitor> {
    var r := Persist(p.mtx);
    Some(m.(row := r, pass := Some(Pass(p.mtx, r, pc))))
  }

  function LookupStep(e: Env, m: Monitor, p: Pass, tx: SignedTx, answered: bool): Option<Monitor> {
    if !p.pc.Scanning? || tx !in p.pc.todo then None
    else
      var rest := p.pc.todo - {tx};
      if !answered then Goto(m, p, p.mtx, p.pc.(todo := rest))
      else if !IsMined(e.chain, tx) then Goto(m, p, p.mtx, p.pc.(todo := rest, allMined := false))
      else if Receipt(e.chain, tx).success then Goto(m, p, p.mtx, Finalizing(Receipt(e.chain, tx)))
      else Goto(m, p, p.mtx, p.pc.(todo := rest, hasFailed := true))
  }

  function ReviewStep(m: Monitor, p: Pass, estimate: nat, price: nat): Option<Monitor> {
    if p.pc.Ready? && p.mtx.status == Sent && estimate < U64 then
      var gas := if estimate > p.mtx.gas then estimate else p.mtx.gas;
      var gasPrice := if price > p.mtx.gasPrice then price else p.mtx.gasPrice;
      Goto(m, p, p.mtx.(gas := gas, gasPrice := gasPrice), ReviewWrite)
    else None
  }

  function SignStep(m: Monitor, p: Pass): Option<Monitor> {
    if p.pc.Signing? || (p.pc.Ready? && p.mtx.status == Created) then
      var tx := Build(p.mtx);
      if tx in p.mtx.history then Goto(m, p, p.mtx, Checking(tx))
      else Goto(m, p, p.mtx.(history := p.mtx.history + {tx}), HistoryWrite(tx))
    else None
  }

  // Handing the transaction over is logged even when `SendTx` reports an error.
  function SendStep(m: Monitor, p: Pass, ok: bool): Option<Monitor> {
    if !p.pc.Sending? then None
    else
      var m' := m.(sent := m.sent + [p.pc.tx]);
      if !ok then Some(m'.(pass := None))
      else if p.mtx.status == Created then Goto(m', p, p.mtx.(status := Sent), SentWrite(p.pc.tx))
      else Goto(m', p, p.mtx, Waiting(p.pc.tx))
  }

  function SettleStep(e: Env, m: Monitor, p: Pass, goOn: bool): Option<Monitor> {
    if !p.pc.Finalizing? then None
    else
      var r := p.pc.receipt;
      if r.success then
        if e.synced < r.block then Some(m.(pass := None))
        else Goto(m, p, p.mtx.(status := Confirmed, blockNumber := Some(r.block)), FinalWrite)
      else if goOn then Some(m.(pass := None))
      else Goto(m, p, p.mtx.(status := Failed, blockNumber := Some(r.block)), FinalWrite)
  }

  function WriteStep(m: Monitor, p: Pass): Option<Monitor> {
    match p.pc
    case NonceWrite => Store(m, p, Ready)
    case ReviewWrite => Store(m, p, Signing)
    case HistoryWrite(tx) => Store(m, p, Checking(tx))
    case SentWrite(tx) => Store(m, p, Waiting(tx))
    case FinalWrite => Some(m.(row := Persist(p.mtx), pass := None))
    case _ => None
  }

  function PassStep(e: Env, m: Monitor, p: Pass, a: Action): Option<Monitor> {
    match a
    case Lookup(tx, answered) => LookupStep(e, m, p, tx, answered)
    case EndScan =>
      if p.pc.Scanning? && p.pc.todo == {} then
        Goto(m, p, p.mtx, if p.pc.hasFailed && p.pc.allMined then NonceRead else Ready)
      else None
    case ReadNonce =>
      if p.pc.NonceRead? then
        var n := |Txs(e.chain, p.mtx.from)|;
        Goto(m, p, p.mtx.(nonce := if n > p.mtx.nonce then n else p.mtx.nonce), NonceWrite)
      else None
    case Write => WriteStep(m, p)
    case Review(estimate, price) => ReviewStep(m, p, estimate, price)
    case Sign => SignStep(m, p)
    case GetTx(notFound) =>
      if p.pc.Checking? then
        Goto(m, p, p.mtx, if notFound then Sending(p.pc.tx) else Waiting(p.pc.tx))
      else None
    case Send(ok) => SendStep(m, p, ok)
    case Wait => if p.pc.Waiting? then Goto(m, p, p.mtx, Fetching(p.pc.tx)) else None
    case FetchReceipt =>
      if p.pc.Fetching? && IsMined(e.chain, p.pc.tx) then
        Goto(m, p, p.mtx, Finalizing(Receipt(e.chain, p.pc.tx)))
      else None
    case Settle(goOn) => SettleStep(e, m, p, goOn)
    case Stop => Some(m.(pass := None))
    case _ => None
  }

  function LocalStep(e: Env, m: Monitor, a: Action): Option<Monitor> {
    if a.OwnerSees? then
      if m.row.status == Confirmed then Some(m.(seen := true)) else None
    else if a.OwnerReads? then
      if m.seen then Some(m.(owner := Some(m.row))) else None
    else if a.OwnerWrites? then
      if m.owner.Some? then Some(m.(row := Persist(m.owner.value.(status := Done)), owner := None))
      else None
    else if m.pass.Some? then PassStep(e, m, m.pass.value, a)
    else None
  }

  /* ---------- the whole node ---------- */

  datatype State = State(env: Env, monitors: map<Key, Monitor>)

  datatype Label =
    | Mine(tx: SignedTx, success: bool, block: nat)
    | Unmine(chain: Chain, block: nat)  // L1 reorganises: what is dropped is in `block` or later
    | Sync(block: nat)
    | Rollback(block: nat)  // resetState: the state is cut back to `block`, rows above are reorged
    | Add(key: Key, request: Request, nonce: nat, gas: nat, gasPrice: nat)
    | Cycle                 // monitorTxs reads the pending rows and starts their passes
    | Crash
    | Local(key: Key, action: Action)

  // `d` is `c` without some of the latest transactions of some senders, all of them in
  // block `block` or later.
  predicate Drops(c: Chain, d: Chain, block: nat) {
    && d.Keys <= c.Keys
    && forall a :: a in c ==>
         Txs(d, a) <= c[a] && forall i :: |Txs(d, a)| <= i < |c[a]| ==> c[a][i].block >= block
  }

  function MineTx(c: Chain, tx: SignedTx, success: bool, block: nat): Chain {
    c[tx.from := Txs(c, tx.from) + [Mined(tx, success, block)]]
  }

  function Begin(m: Monitor): Monitor {
    if Pending(m.row.status)
    then m.(pass := Some(Pass(m.row, m.row, Scanning(m.row.history, false, true))))
    else m
  }

  function Step(s: State, l: Label): Option<State> {
    match l
    case Mine(tx, success, block) =>
      if tx.nonce == |Txs(s.env.chain, tx.from)|
      then Some(s.(env := s.env.(chain := MineTx(s.env.chain, tx, success, block))))
      else None
    case Unmine(chain, block) =>
      if Drops(s.env.chain, chain, block) then Some(s.(env := s.env.(chain := chain))) else None
    case Sync(block) =>
      if s.env.synced <= block then Some(s.(env := s.env.(synced := block))) else None
    case Rollback(block) =>
      if block <= s.env.synced then
        Some(State(s.env.(synced := block),
                   map k | k in s.monitors ::
                     s.monitors[k].(row := ReorgRow(s.monitors[k].row, block + 1))))
      else None
    case Add(k, q, nonce, gas, gasPrice) =>
      if k !in s.monitors && gas < U64 && q.gasOffset < U64 then
        Some(s.(monitors := s.monitors[k :=
          Monitor(q, Persist(NewRow(q, nonce, gas, gasPrice)), None, None, false, [])]))
      else None
    case Cycle =>
      if forall k :: k in s.monitors ==> s.monitors[k].pass.None?
      then Some(s.(monitors := map k | k in s.monitors :: Begin(s.monitors[k])))
      else None
    case Crash =>
      Some(s.(monitors := map k | k in s.monitors :: s.monitors[k].(pass := None, owner := None)))
    case Local(k, a) =>
      if k !in s.monitors then None
      else
        var m := LocalStep(s.env, s.monitors[k], a);
        if m.None? then None else Some(s.(monitors := s.monitors[k := m.value]))
  }

  // What a step does to a row it does not act on.
  function Elsewhere(l: Label, m: Monitor): Monitor {
    if l.Rollback? then m.(row := ReorgRow(m.row, l.block + 1))
    else if l.Cycle? then Begin(m)
    else if l.Crash? then m.(pass := None, owner := None)
    else m
  }

  function Fresh(l: Label): Monitor
    requires l.Add?
  {
    Monitor(l.request, Persist(NewRow(l.request, l.nonce, l.gas, l.gasPrice)), None, None, false, [])
  }

  lemma OtherRow(s: State, l: Label, s': State, k: Key)
    requires Step(s, l) == Some(s') && k in s'.monitors && !(l.Local? && l.key == k)
    ensures if k in s.monitors then s'.monitors[k] == Elsewhere(l, s.monitors[k])
            else l.Add? && s'.monitors[k] == Fresh(l)
  {
  }

  // Step number `i` of a run. Naming it keeps the other steps out of a proof.
  ghost predicate StepAt(ss: seq<State>, ls: seq<Label>, i: int)
    requires 0 <= i < |ls| && |ss| == |ls| + 1
  {
    Step(ss[i], ls[i]) == Some(ss[i + 1])
  }

  // A run: `ss` are the states, `ls` the labels between them; no row at the start.
  ghost predicate IsRun(ss: seq<State>, ls: seq<Label>) {
    && |ss| == |ls| + 1
    && ss[0].monitors == map[]
    && forall i :: 0 <= i < |ls| ==> StepAt(ss, ls, i)
  }

  // L1 drops nothing in the first `n` steps.
  predicate NeverDrops(ls: seq<Label>, n: nat)
    requires n <= |ls|
  {
    forall i :: 0 <= i < n ==> !ls[i].Unmine?
  }

  // Every mined transaction of `c` is in `d`, with the same receipt.
  ghost predicate Extends(c: Chain, d: Chain) {
    forall a: Address :: Txs(c, a) <= Txs(d, a)
  }

  lemma MineExtends(c: Chain, tx: SignedTx, success: bool, block: nat)
    ensures Extends(c, MineTx(c, tx, success, block))
  {
  }

  /* ---------- the shape of a pass ---------- */

  // The transaction a pass is about to write ahead, send or wait for.
  function Current(pc: PC): Option<SignedTx> {
    match pc
    case HistoryWrite(tx) => Some(tx)
    case Checking(tx) => Some(tx)
    case Sending(tx) => Some(tx)
    case SentWrite(tx) => Some(tx)
    case Waiting(tx) => Some(tx)
    case Fetching(tx) => Some(tx)
    case _ => None
  }

  predicate Writes(pc: PC) {
    pc.NonceWrite? || pc.ReviewWrite? || pc.HistoryWrite? || pc.SentWrite? || pc.FinalWrite?
  }

  // What every action of a pass other than writing, signing and sending does to it.
  predicate Moves(p: Pass, q: Pass) {
    && q.base == p.base
    && q.mtx == p.mtx.(nonce := q.mtx.nonce, gas := q.mtx.gas, gasPrice := q.mtx.gasPrice,
                       status := q.mtx.status, blockNumber := q.mtx.blockNumber)
    && p.mtx.nonce <= q.mtx.nonce && p.mtx.gas <= q.mtx.gas && p.mtx.gasPrice <= q.mtx.gasPrice
    && (p.mtx.nonce != q.mtx.nonce ==> q.pc.NonceWrite?)
    && (p.mtx.gas != q.mtx.gas || p.mtx.gasPrice != q.mtx.gasPrice ==> q.pc.ReviewWrite?)
    && (q.pc.ReviewWrite? ==> p.pc.Ready? && p.mtx.status == Sent)
    && (if q.pc.FinalWrite?
        then (q.mtx.status == Confirmed || q.mtx.status == Failed) && q.mtx.blockNumber.Some?
        else q.mtx.status == p.mtx.status && q.mtx.blockNumber == p.mtx.blockNumber)
    && (Current(q.pc).Some? ==> Current(q.pc) == Current(p.pc) && q.mtx == p.mtx)
    && !Writes(p.pc) && !q.pc.HistoryWrite? && !q.pc.Signing?
  }

  lemma LookupMoves(e: Env, m: Monitor, p: Pass, a: Action, m': Monitor)
    requires m.pass == Some(p) && a.Lookup? && LookupStep(e, m, p, a.tx, a.answered) == Some(m')
    ensures m' == m.(pass := m'.pass)
    ensures m'.pass.Some? && Moves(p, m'.pass.value)
  {
  }

  lemma SettleMoves(e: Env, m: Monitor, p: Pass, goOn: bool, m': Monitor)
    requires m.pass == Some(p) && SettleStep(e, m, p, goOn) == Some(m')
    ensures m' == m.(pass := m'.pass)
    ensures m'.pass.Some? ==> Moves(p, m'.pass.value)
  {
  }

  lemma OrdinaryStep(e: Env, m: Monitor, p: Pass, a: Action, m': Monitor)
    requires PassStep(e, m, p, a) == Some(m') && m.pass == Some(p)
    requires !a.Write? && !a.Sign? && !a.Send?
    ensures m' == m.(pass := m'.pass)
    ensures m'.pass.Some? ==> Moves(p, m'.pass.value)
  {
    if a.Lookup? {
      LookupMoves(e, m, p, a, m');
    } else if a.Settle? {
      SettleMoves(e, m, p, a.goOn, m');
    }
  }
}
