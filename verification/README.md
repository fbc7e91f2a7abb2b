# A Dafny model of the zkEVM node

This project models the parts of the Polygon zkEVM node (`Astar-zkevm-node`) whose
correctness is hardest to see by reading them, and proves what they keep over every run or
for every input. `dafny verify dfyconfig.toml` checks the whole project.

- **Eth tx manager** (`EthTxMachine`, `EthTxResend`, `EthTxOnce`, `EthTxLanding`,
  `EthTxClimb`, `EthTxReorg`, `EthTxWitness`, `EthTxProgress`, `EthTxTwoWriters`,
  `EthTxRaces`, `EthTxStore`). A state machine in which every network call and every
  storage write of a `monitorTx` pass is a step of its own. Runs are arbitrary
  interleavings of the passes with L1 and its reorganisations, the synchronizer, rollbacks,
  crashes and the owner that calls `setStatusDone`. Main results: at most one transaction of a row lands; what
  is sent was written ahead, carries what the caller asked for and only goes up; a
  rollback never touches a row that a pass holds; a confirmed row points at a synchronized,
  successful receipt. Where such a result needs a condition, the condition is shown to be
  exact, step by step or by a general continuation that fails, and `EthTxRaces` has a
  concrete run that fails without it. What a pass gets done, from picking up a row to
  confirming it, is proved as continuations of arbitrary runs.
- **Aggregator** (`AggregatorMachine`, `AggregatorProofs`, `AggregatorSafety`,
  `AggregatorSequences`, `AggregatorProgress`, `AggregatorStale`, `MonitoredId`). Provers
  lock, prove, merge and release batch intervals of one proof table. Main results: over
  every interleaving a proof proves each batch of its interval once and in order; a final
  proof is made of whole sequences and leaves no batch out after the last verified one, and
  the next sequence can always be proved and sent; no two stored proofs and no two holders overlap, under
  conditions on the stale-lock cleanup and on numbers read too early that are shown to be
  exact; and a merge leaves the covered batches as they were. The results have a floor, a
  batch number up to which nothing is claimed; floor -1 leaves nothing out.
- **L1 info tree** (`L1InfoTree`). The level-by-level loops compute the recursive root of
  the padded leaf list; equal roots mean equal padded lists or an explicit collision.
- **State tree** (`Bytecode`, `Limbs`, `HexStrings`, `StateTree`). The bytecode sponge
  binds the code; the limb, scalar and string conversions are inverses exactly where they
  can be; setting a leaf changes that leaf and no other.
- **Address queue** (`AddrQueue`, `AddrQueueRuns`, `AddrQueueSlot`). Every transaction that
  entered a queue is tracked or was reported, except in two cases that are characterised
  exactly; what the operations return keeps the worker's list equal to the ready slot.
- **Etherman** (`EventFold`, `EventReplay`, `Forks`). Walking the blocks and the order
  index gives back the log stream exactly when the logs of each block are contiguous, and
  there is one block with its parent and time for each change of block in the stream; the
  chunked scan and the fork intervals are partitions exactly under stated conditions.
- **Fees** (`Fees`, `GasPriceFollower`, `Decimal`). The effective percentage is the least
  byte that covers the price, the intrinsic gas guards are exact, and slicing the decimal
  string is flooring to three significant digits.

Hash functions are parameters of the model and can fail where the source can fail. A
result that would need them to be injective returns an explicit collision instead.

Where the code and its comments disagree, the model follows the code. The comment at
`sequencer/addrqueue.go:189-190` says that a ready transaction the balance no longer covers
is moved to the not-ready ones; the code keeps it only when the nonce goes back
(`AddrQueueRuns.OldReadyIsKeptIff`). The comment at `sequencer/addrqueue.go:39-42` says a
replaced transaction is reported; the waiting transaction at the current nonce is not
(`AddrQueueRuns.AddAccounts`).

## Model

| member | source | states |
|---|---|---|
| EthTxOnce.CleanReadsLandOnce | Astar-zkevm-node/ethtxmanager/ethtxmanager.go:278-497 | In every run, L1 reorganisations included, in which the nonce of a row that can still be signed is never read while a transaction of that row has succeeded and L1 never gives back a nonce the row has moved past, any two transactions that have succeeded among all those stored, held by the running pass or handed to the network for a row are the same one |
| EthTxOnce.DirtyReadLandsTwice | Astar-zkevm-node/ethtxmanager/ethtxmanager.go:330-430 | The condition is exact: from every run that reaches such a read for the first time, reading, signing (after a review if the row was sent), sending and mining gives a run in which two transactions of the row succeed |
| EthTxOnce.DropKeepsOnceIff | Astar-zkevm-node/ethtxmanager/ethtxmanager.go:320-342 | A reorganisation of L1 keeps the invariant if and only if every nonce that the row has moved past is still used up |
| EthTxOnce.GivenBackLandsTwice | Astar-zkevm-node/ethtxmanager/ethtxmanager.go:320-342 | When it is not, and a later transaction of the row is stored, the run can be continued so that both succeed |
| EthTxOnce.GivenBackToRow | Astar-zkevm-node/ethtxmanager/ethtxmanager.go:320-430 | When a nonce below that of a row that can be signed is not used up, a crash and one more pass lead to two transactions that succeed |
| EthTxOnce.StepKeepsOnce | Astar-zkevm-node/ethtxmanager/ethtxmanager.go:248-497 | Every other step that is not such a read keeps the invariant: below another history transaction, and below the nonce of a row that can be signed, everything is used up without success |
| EthTxLanding.AtMostOneLanding | Astar-zkevm-node/ethtxmanager/ethtxmanager.go:278-497 | The same for every run in which L1 drops nothing and lookups fail at most for hashes below the row's current nonce |
| EthTxLanding.AnswersReadClean | Astar-zkevm-node/ethtxmanager/ethtxmanager.go:291-332 | In such a run the nonce is read only after every history transaction has failed |
| EthTxLanding.DisplacedIsStuck | Astar-zkevm-node/ethtxmanager/ethtxmanager.go:291-342 | In such a run, once another transaction took the nonce of a history transaction the row keeps its nonce forever, and if that other one does not carry the request nothing signed for the row ever succeeds |
| EthTxLanding.NonceMovesPastFailures | Astar-zkevm-node/ethtxmanager/ethtxmanager.go:320-342 | In such a run every history transaction below the stored nonce is mined and failed |
| EthTxLanding.StepKeepsSafe | Astar-zkevm-node/ethtxmanager/ethtxmanager.go:248-497 | Every step in which L1 drops nothing keeps the landing invariant for every row |
| EthTxResend.SentIsWrittenAhead | Astar-zkevm-node/ethtxmanager/ethtxmanager.go:379-430 | In every run a transaction handed to `SendTx` is already in the stored history and carries the recipient and data given to `Add` and its value modulo 2^64 |
| EthTxResend.HistoryOnlyGrows | Astar-zkevm-node/ethtxmanager/monitoredtx.go:116-123 | No step removes a hash from a stored history or from the log of sent transactions |
| EthTxResend.StoredRowsFit | Astar-zkevm-node/ethtxmanager/pgstorage.go:175-212 | In every run gas, gas offset, gas price and value of a stored row are uint64 |
| EthTxClimb.CoveredSendsClimb | Astar-zkevm-node/ethtxmanager/ethtxmanager.go:379-430 | In every run in which each send finds the stored row not below what was sent before, nothing sent later has a lower nonce, gas limit or gas price than anything sent earlier |
| EthTxClimb.UncoveredFalls | Astar-zkevm-node/ethtxmanager/ethtxmanager.go:248-430 | The condition is exact: from every run that stores a row that can be signed below something sent, a crash and one more pass send less than before |
| EthTxClimb.SendCoversIff | Astar-zkevm-node/ethtxmanager/pgstorage.go:175-212 | A send leaves the stored row not below it if and only if the gas price it was signed with fits a uint64 |
| EthTxClimb.ReviewCoversIff | Astar-zkevm-node/ethtxmanager/ethtxmanager.go:366-377 | Storing a review does so if and only if neither the cut price nor the wrapped gas limit falls below something sent |
| EthTxClimb.MonotoneResend | Astar-zkevm-node/ethtxmanager/ethtxmanager.go:528-581 | In every run with 64-bit estimates and review prices nothing sent later is lower than anything sent before |
| EthTxReorg.ReorgSparesRunningPasses | Astar-zkevm-node/ethtxmanager/ethtxmanager.go:223-275 | In every run, whatever L1 does, in which a `setStatusDone` write has a block number to bring and meets no running pass, `Reorg` leaves every row held by a running pass as it is, and the stored row is the one that pass last read or wrote |
| EthTxReorg.BlockNumberExplainsStatus | Astar-zkevm-node/ethtxmanager/ethtxmanager.go:458-497 | In such a run the block number is set exactly in the statuses confirmed, failed and done |
| EthTxReorg.OwnerWriteKeepsSteadyIff | Astar-zkevm-node/ethtxmanager/ethtxmanager.go:149-158 | That condition is exact: the write keeps the link between status and block number, and between row and pass, if and only if it holds |
| EthTxReorg.ConfirmedNeverFails | Astar-zkevm-node/ethtxmanager/ethtxmanager.go:278-497 | In such a run an owner that has seen the confirmation finds the row confirmed, reorged or done ever after |
| EthTxReorg.RollbackKeepsBackedIff | Astar-zkevm-node/ethtxmanager/ethtxmanager.go:458-497 | A rollback leaves every confirmed row and every accepted success at or below the synchronized head if and only if no pass has just accepted a successful receipt above the block it cuts to |
| EthTxReorg.LoudRollbackConfirmsAbove | Astar-zkevm-node/ethtxmanager/ethtxmanager.go:490-497 | After any other rollback the write of that pass leaves a row confirmed above the head |
| EthTxWitness.StepKeepsHeldIff | Astar-zkevm-node/ethtxmanager/ethtxmanager.go:223-245 | Let the cut be the lowest block that L1 has dropped and the node has not rolled back. Every step keeps a receipt on the chain for each block number below the cut that a row, a copy of it or a found receipt mentions, if and only if, when a rollback clears the cut, whatever passes and owners have in hand from the dropped blocks is on the new branch as well, and likewise anything mentioned when L1 drops blocks above the synchronized head |
| EthTxWitness.BlockNumberIsWitnessed | Astar-zkevm-node/ethtxmanager/ethtxmanager.go:458-497 | In every run of such steps the block number of a row below the cut is that of a receipt of its history, a success for confirmed and done and a failure for failed |
| EthTxWitness.ConfirmedMeansLanded | Astar-zkevm-node/ethtxmanager/ethtxmanager.go:458-478 | In every run of such steps without the rollbacks above, a confirmed row is in a synchronized block and, below the cut, a history transaction has a successful receipt there |
| EthTxWitness.StaleHandLands | Astar-zkevm-node/ethtxmanager/ethtxmanager.go:458-497 | The condition is exact: from every run that leaves a success in hand below the cut that is not on the chain, a synchronization and one or two steps store a row as confirmed or done in a synchronized block in which none of its transactions has succeeded |
| EthTxWitness.WithoutDrops | Astar-zkevm-node/ethtxmanager/ethtxmanager.go:458-497 | In runs in which L1 drops nothing there is no cut and the condition is empty |
| EthTxReorg.OwnerMarksDoneAboveIff | Astar-zkevm-node/ethtxmanager/ethtxmanager.go:149-158 | After any rollback the write of an owner that had read its row leaves it done in a block above the head if and only if that block is above the one the rollback cuts to |
| EthTxWitness.DoneMeansLanded | Astar-zkevm-node/ethtxmanager/ethtxmanager.go:149-158 | In every run of such steps without either kind of rollback the same holds of a done row |
| EthTxRaces.OneMissTwoLandings | Astar-zkevm-node/ethtxmanager/ethtxmanager.go:293-298 | A run with a single failed lookup in which two transactions of one row succeed |
| EthTxRaces.PriceFalls | Astar-zkevm-node/ethtxmanager/ethtxmanager.go:550-560 | A run that sends at a gas price of 2^64 + 7 and then at 7, the price as it was stored |
| EthTxRaces.DoneWithoutBlock | Astar-zkevm-node/ethtxmanager/ethtxmanager.go:149-158 | A run in which a reorg between seeing the confirmation and `setStatusDone` leaves a row done without a block |
| EthTxRaces.ConfirmedAboveHead | Astar-zkevm-node/ethtxmanager/ethtxmanager.go:458-497 | A run in which a rollback between accepting a receipt and storing it leaves a row confirmed above the synchronized head |
| EthTxRaces.DoneAboveHead | Astar-zkevm-node/ethtxmanager/ethtxmanager.go:149-158 | A run in which a rollback between reading a confirmed row and marking it as done, while no pass runs, leaves it done above the head |
| EthTxRaces.ConfirmedButDropped | Astar-zkevm-node/ethtxmanager/ethtxmanager.go:458-497 | A run in which L1 drops a receipt that a pass has found, the node rolls back and synchronizes the new branch, and the row is then confirmed in a synchronized block in which nothing of its sender is mined |
| EthTxRaces.DroppedFailureTwoLandings | Astar-zkevm-node/ethtxmanager/ethtxmanager.go:320-342 | A run in which every lookup answers, L1 drops a failed transaction that the row has moved past, and two transactions of the row succeed |
| EthTxProgress.CycleStarts | Astar-zkevm-node/ethtxmanager/ethtxmanager.go:249-275 | A cycle starts when no pass runs, and then a pass on exactly the rows that are created, sent or reorged, each with a copy of its row and the whole history to look up |
| EthTxProgress.PendingIsConfirmed | Astar-zkevm-node/ethtxmanager/ethtxmanager.go:249-497 | From every run with no pass running, a created, sent or reorged row with a transaction that succeeded in a synchronized block is confirmed at that block by the next cycle and one lookup |
| EthTxProgress.SettleAndWrite | Astar-zkevm-node/ethtxmanager/ethtxmanager.go:458-497 | From every run, a receipt in hand confirms the row at its block when it is a success in a synchronized block, fails it there when it is a failure not to go on with, and otherwise leaves the row as it is |
| EthTxProgress.MinedIsFetched | Astar-zkevm-node/ethtxmanager/ethtxmanager.go:433-456 | A pass waiting for a transaction that is mined goes on with its receipt |
| EthTxProgress.KnownIsConfirmed | Astar-zkevm-node/ethtxmanager/ethtxmanager.go:395-478 | From every run, a signed transaction that the network knows is not sent again, and when it has succeeded in a synchronized block the pass confirms the row there |
| EthTxProgress.UnknownIsResent | Astar-zkevm-node/ethtxmanager/ethtxmanager.go:395-430 | One of a sent row that the network does not know is sent again and nothing is stored |
| EthTxProgress.AddedIsSent | Astar-zkevm-node/ethtxmanager/ethtxmanager.go:63-112 | From every run, adding a request and one pass hand over one transaction with the nonce read and, modulo 2^64, the value, the gas plus the offset and the gas price, and the row is sent with that history |
| EthTxProgress.ReviewIsSigned | Astar-zkevm-node/ethtxmanager/ethtxmanager.go:528-563 | A review of a sent row stores the larger of the old and the new gas and, modulo 2^64, gas price, and the pass signs with them, the gas price uncut |
| EthTxProgress.FailedIsSentAgain | Astar-zkevm-node/ethtxmanager/ethtxmanager.go:320-430 | From every run with no pass running, a created or sent row of which every transaction has failed is signed and sent again, with the next nonce of its sender and a new hash |
| EthTxProgress.HistoryCanBeConfirmed | Astar-zkevm-node/ethtxmanager/ethtxmanager.go:286-497 | From every run, a created, sent or reorged row of which some transaction has a nonce not used up is confirmed in a continuation, with the same history |
| EthTxProgress.RowCanBeConfirmed | Astar-zkevm-node/ethtxmanager/ethtxmanager.go:286-497 | From every run, so is a created or sent row whose own nonce is not used up, by a transaction of that nonce which is signed and stored if it is new |
| EthTxProgress.FailedCanBeConfirmed | Astar-zkevm-node/ethtxmanager/ethtxmanager.go:320-497 | From every run, so is a created or sent row of which every transaction has failed, by a new one; what is displaced instead stays unconfirmed (`EthTxLanding.DisplacedIsStuck`) |
| EthTxProgress.DropOnlyTakesAway | Astar-zkevm-node/ethtxmanager/ethtxmanager.go:223-245 | A reorganisation of L1 changes no receipt, adds none and keeps those below its block |
| EthTxProgress.RollbackTakesBack | Astar-zkevm-node/ethtxmanager/ethtxmanager.go:223-245 | A rollback makes exactly the rows above its block reorged, without a block number and with nonce, gas and history as before |
| EthTxProgress.OwnerFinishes | Astar-zkevm-node/ethtxmanager/ethtxmanager.go:149-158 | From every run, a confirmed row that its owner sees, reads and writes is done in the same block |
| EthTxStore.Storage.Add | Astar-zkevm-node/ethtxmanager/pgstorage.go:36-58 | A row is inserted when its key is new and refused otherwise; nothing else changes |
| EthTxStore.Storage.Update | Astar-zkevm-node/ethtxmanager/pgstorage.go:175-212 | The whole row is replaced when it exists; nothing else changes |
| EthTxStore.Storage.GetPending | Astar-zkevm-node/ethtxmanager/ethtxmanager.go:249-251 | Exactly the rows that are created, sent or reorged |
| EthTxStore.Storage.GetFromBlock | Astar-zkevm-node/ethtxmanager/pgstorage.go:128-172 | Exactly the rows whose block number is set and not below the given one |
| EthTxStore.Storage.Reorg | Astar-zkevm-node/ethtxmanager/ethtxmanager.go:223-245 | The loop leaves exactly the table of a rollback step of the machine |
| EthTxStore.ReorgSubsumes | Astar-zkevm-node/ethtxmanager/ethtxmanager.go:223-245 | A reorg from an earlier block after one from a later block is the earlier one alone |
| EthTxTwoWriters.LastWriterWins | Astar-zkevm-node/ethtxmanager/ethtxmanager.go:149-245 | For every order of the reads and writes of `Reorg` and `setStatusDone` on a confirmed row: done is lost exactly when the reorg writes last, the reorg is lost exactly when `setStatusDone` writes last, and the row then keeps its block number exactly when `setStatusDone` had read it before the reorg wrote |
| EthTxStore.ScanHistory | Astar-zkevm-node/ethtxmanager/ethtxmanager.go:286-318 | The history loop reports a successful receipt of a history transaction, or flags that say exactly whether some lookup found a failure and whether none was unmined |
| EthTxStore.LookupsTally | Astar-zkevm-node/ethtxmanager/ethtxmanager.go:286-318 | The lookup steps of the machine keep the tally of that loop while the chain moves |
| AggregatorSafety.ProversNeverOverlap | Astar-zkevm-node/aggregator/aggregator.go:486-904 | In every run in which a batch is locked only when nobody holds it and a stale lock is cleaned up only when nobody holds the row or it is verified, stored intervals are pairwise disjoint, intervals held by different provers or the sender are disjoint, and a held interval is locked in the table or already verified |
| AggregatorSafety.NeverOverlapAboveVerified | Astar-zkevm-node/aggregator/aggregator.go:355-904 | With locks taken on a last verified batch read at any earlier time, the same for all batches above the last verified one |
| AggregatorSafety.CleanupKeepsIff | Astar-zkevm-node/aggregator/aggregator.go:1071-1090 | Cleaning up a lock keeps the invariant if and only if nobody holds the row or it is verified (or lies at or below the floor) |
| AggregatorSafety.FreshLockIsFree | Astar-zkevm-node/aggregator/aggregator.go:753-764 | An uncovered batch above the last verified one is held by nobody |
| AggregatorProofs.ProofsAreComplete | Astar-zkevm-node/aggregator/aggregator.go:586-738 | In every run, stale-lock cleanup included, an unlocked stored proof and the final proof on its way to L1 prove each batch of their interval once and in order |
| AggregatorSequences.FinalProofIsNext | Astar-zkevm-node/aggregator/aggregator.go:355-505 | In every run a final proof, whether a prover verifies it or the sender has it, taken from the table or straight from the prover that held it, starts at the batch after the last verified one or below, and every sequence lies inside it or outside |
| AggregatorSequences.StoredProofsAlign | Astar-zkevm-node/state/pgstatestorage/proof.go:64-129 | In every run a stored interval lies inside one sequence or splits none |
| AggregatorProgress.ReadyProofIsSent | Astar-zkevm-node/aggregator/aggregator.go:355-505 | From every run with an idle prover and nothing being sent, an unlocked proof of whole sequences that starts at the next batch or below is locked and handed over, with every other row as it was |
| AggregatorProgress.HeldProofIsSent | Astar-zkevm-node/aggregator/aggregator.go:355-484 | From every run in which nothing is being sent, a prover hands over such a proof that it holds |
| AggregatorProgress.NextSequenceIsSent | Astar-zkevm-node/aggregator/aggregator.go:355-904 | From every run with harmless cleanups in which a sequence starts right after the last verified batch, whatever is stored or locked, a restart, a cleanup and one prover lead to a complete final proof of that sequence in the hands of the sender |
| AggregatorProgress.BatchIsProved | Astar-zkevm-node/aggregator/aggregator.go:740-904 | From every run an idle prover can take, prove and store the first unverified batch that no row covers, and nothing else changes |
| AggregatorProgress.PairIsMerged | Astar-zkevm-node/aggregator/aggregator.go:539-738 | From every run an idle prover can merge the first two adjacent unlocked proofs that lie inside one sequence or are of whole sequences; the rows within their union go and the unlocked aggregation comes |
| AggregatorProgress.BatchIsTakenIff | Astar-zkevm-node/state/pgstatestorage/batch.go:664-696 | A batch can be taken exactly by an idle prover, when it is the first virtual one above the number read that no row covers |
| AggregatorProgress.PairIsTakenIff | Astar-zkevm-node/state/pgstatestorage/proof.go:64-129 | In every run a pair can be taken exactly by an idle prover, when it meets, is unlocked, lies in one sequence or is of whole ones, and none such starts earlier |
| AggregatorProgress.ProofIsTakenIff | Astar-zkevm-node/state/pgstatestorage/proof.go:29-61 | A proof to verify can be taken exactly by an idle prover, when it is unlocked, of whole sequences and starts at the next batch or below |
| AggregatorProgress.SenderIsFree | Astar-zkevm-node/aggregator/aggregator.go:240-294 | From every run in which a proof to verify can be taken, it is handed over once the sender is done with the one it has |
| AggregatorProgress.FailedBatchIsUndone | Astar-zkevm-node/aggregator/aggregator.go:800-830 | Taking a batch and failing leaves the table as it was |
| AggregatorProgress.FailedMergeIsUndone | Astar-zkevm-node/aggregator/aggregator.go:507-584 | Locking a pair and failing leaves both proofs unlocked again, and everything else as it was |
| AggregatorProgress.FailedProofIsUndone | Astar-zkevm-node/aggregator/aggregator.go:385-505 | Locking the proof to verify and failing leaves it unlocked again |
| AggregatorProgress.SenderUndoesLock | Astar-zkevm-node/aggregator/aggregator.go:297-306 | A final proof that could not be sent is unlocked again |
| AggregatorProgress.RestartFrees | Astar-zkevm-node/aggregator/aggregator.go:119-123 | After a restart nobody holds anything and exactly the rows that were not locked are left |
| AggregatorProgress.OldProofIsDropped | Astar-zkevm-node/aggregator/aggregator.go:462-470 | A held proof of verified batches is deleted and not stored again |
| AggregatorProgress.VerifiedRowsGo | Astar-zkevm-node/state/pgstatestorage/proof.go:160-167 | The cleanup deletes exactly the rows that end at the given batch or below |
| AggregatorSafety.MergeKeepsCoveredIff | Astar-zkevm-node/aggregator/aggregator.go:669-710 | A committed merge leaves every batch covered or uncovered as it was if and only if both rows still exist; otherwise batches that were verified and cleaned up are covered again |
| AggregatorSafety.MergeKeepsCoverage | Astar-zkevm-node/aggregator/aggregator.go:669-710 | In every run of harmless locks and cleanups a merge, committed or rolled back, keeps the coverage of all batches while both rows exist and of the unverified ones always |
| AggregatorSafety.MergeKeepsCoverageAbove | Astar-zkevm-node/aggregator/aggregator.go:669-710 | Above the last verified batch also with locks taken on a number read earlier |
| AggregatorSafety.CoverageLoss | Astar-zkevm-node/aggregator/aggregator.go:800-904 | Only a failed batch proof, for its own batch, the cleanup of the row that holds it, or a restart takes an unverified batch out of the table |
| AggregatorSafety.CoverageGain | Astar-zkevm-node/state/pgstatestorage/batch.go:664-696 | Only locking an unverified batch brings it into the table, and then every batch between the last verified one and that batch is there already |
| AggregatorSafety.TakenInOrder | Astar-zkevm-node/aggregator/aggregator.go:740-798 | In every run in which no batch proof fails, no stale lock is cleaned up and nothing restarts, every batch between the last verified one and a covered one is covered |
| AggregatorSafety.MergeDeletesThePair | Astar-zkevm-node/state/pgstatestorage/proof.go:151-157 | The delete by range of a merge removes the two merged rows and otherwise only rows at or below the floor, which with floor -1 are none |
| AggregatorSafety.LockBatchKeepsIff | Astar-zkevm-node/aggregator/aggregator.go:740-798 | Taking an uncovered batch, on a last verified batch read at any earlier time, keeps the invariant of the table and of all holders if and only if nobody holds the batch (or it lies at or below the floor) |
| AggregatorSafety.LockPairKeeps | Astar-zkevm-node/aggregator/aggregator.go:539-584 | Locking two adjacent unlocked proofs keeps it |
| AggregatorSafety.LockVerifyKeeps | Astar-zkevm-node/aggregator/aggregator.go:486-505 | Locking the proof ready to verify keeps it; `AggregatorSequences.FinalProofIsNext` and `AggregatorProgress.ReadyProofIsSent` say which proof that is |
| AggregatorSafety.MergeKeeps | Astar-zkevm-node/aggregator/aggregator.go:669-710 | The merge transaction keeps it |
| AggregatorSafety.StepKeepsIff | Astar-zkevm-node/aggregator/aggregator.go:240-904 | Every step keeps it, except exactly the locks and cleanups named above |
| AggregatorStale.StaleCleanupOverlaps | Astar-zkevm-node/aggregator/aggregator.go:1071-1090 | A run with stale-lock cleanup after which the stored proofs of batches 1 to 2 and 2 to 3 overlap |
| AggregatorStale.OverlapIsStored | Astar-zkevm-node/aggregator/aggregator.go:1071-1090 | A run with stale-lock cleanup that leaves these two proofs stored and unlocked, with nobody working |
| AggregatorStale.OverlapBlocks | Astar-zkevm-node/aggregator/aggregator.go:355-505 | In every continuation of such a run, restarts included, no final proof is made or sent as long as nothing is verified by others |
| AggregatorStale.EarlyReadOverlaps | Astar-zkevm-node/aggregator/aggregator.go:753-764 | A run in which a number read before a batch was verified lets two provers hold that batch |
| MonitoredId.ReadBack | Astar-zkevm-node/aggregator/aggregator.go:1029-1069 | For all pairs of uint64, splitting and parsing the monitored id as the result handler does gives back the pair it was built from |
| L1InfoTree.GenerateZeroHashes | Astar-zkevm-node/l1infotree/hash.go:23-33 | Entry k is the zero hash of level k, the hash of two of the level below, starting from the zero leaf |
| L1InfoTree.BuildIntermediate | Astar-zkevm-node/l1infotree/tree.go:23-36 | The loop hashes consecutive pairs of an even list, in order |
| L1InfoTree.Tree.BuildL1InfoRoot | Astar-zkevm-node/l1infotree/tree.go:38-59 | The result is the recursive root of the leaves padded with zero leaves to 2^height, and an error exactly for height 0 or more leaves than that |
| L1InfoTree.RootOfPairs | Astar-zkevm-node/l1infotree/tree.go:23-36 | Hashing pairs and taking the root one level lower is the root of the list |
| L1InfoTree.LevelKeepsRoot | Astar-zkevm-node/l1infotree/tree.go:47-53 | Pairing up an even list and padding with the zero hash of the next level has the root of the list padded at its own level |
| L1InfoTree.EvenKeepsTrack | Astar-zkevm-node/l1infotree/tree.go:48-50 | Appending one zero hash to an odd list stands for the same fully padded list, and does not change whether there are too many leaves |
| L1InfoTree.RoundKeepsTrack | Astar-zkevm-node/l1infotree/tree.go:47-53 | A round leaves the root that is asked for, and the same verdict on too many leaves, one level up |
| L1InfoTree.FindCollision | Astar-zkevm-node/l1infotree/tree.go:38-59 | Two different full lists with one root yield two different pairs with one hash |
| L1InfoTree.RootBinds | Astar-zkevm-node/l1infotree/tree.go:38-59 | Two leaf lists with one root pad to the same list or yield such a collision |
| L1InfoTree.PadsTheSameIff | Astar-zkevm-node/l1infotree/tree.go:38-59 | Two lists pad to the same one if and only if the shorter, filled with zero leaves, is the longer |
| Bytecode.Pad | Astar-zkevm-node/merkletree/key.go:119-132 | The padding loops compute the code, 0x01, zeros up to a multiple of 56 and the top bit of the last byte |
| Bytecode.Elements | Astar-zkevm-node/merkletree/key.go:152-174 | The byte loop yields the eight little-endian 7-byte words of the slice cut or filled with zeros to 56 bytes |
| Bytecode.HashPadded | Astar-zkevm-node/merkletree/key.go:134-189 | The outer loop is the sponge over all blocks, and stops at the first call of Poseidon that fails |
| Bytecode.HashContractBytecode | Astar-zkevm-node/merkletree/key.go:116-189 | Padding and loop together compute the sponge of the padded code |
| Bytecode.PaddedLayout | Astar-zkevm-node/merkletree/key.go:119-132 | Byte by byte: the code, the marker 0x01, zeros, and 0x80 in the last byte, 0x81 when that is the marker, in the least multiple of 56 bytes |
| Bytecode.WordIsNumber | Astar-zkevm-node/merkletree/key.go:152-174 | Each element is the base 256 number of its seven bytes, the first the least significant |
| Bytecode.SpongeChains | Astar-zkevm-node/merkletree/key.go:136-187 | The sponge starts from four zeros and each block is hashed with the result of the one before |
| Bytecode.UnpadPadded | Astar-zkevm-node/merkletree/key.go:119-132 | The padding can be undone, so it is injective |
| Bytecode.WordsFit | Astar-zkevm-node/merkletree/key.go:152-174 | Every element is below 2^56 |
| Bytecode.WordsInjective | Astar-zkevm-node/merkletree/key.go:152-174 | The eight elements determine the 56 bytes |
| Bytecode.SpongeBinds | Astar-zkevm-node/merkletree/key.go:134-189 | Two different block lists with one result contain a Poseidon collision or a block that hashes to the zero state |
| Bytecode.CodeHashBinds | Astar-zkevm-node/merkletree/key.go:116-189 | The same for two different bytecodes with one code hash |
| Limbs.Fea2Scalar | Astar-zkevm-node/merkletree/split.go:20-33 | The sums over eight limbs give the number in base 2^32 |
| Limbs.Scalar2Fea | Astar-zkevm-node/merkletree/split.go:36-48 | The loop gives the eight base-2^32 digits of any number, also a negative one |
| Limbs.H4ToScalar | Astar-zkevm-node/merkletree/split.go:51-64 | The loop gives the number in base 2^64 of four limbs |
| Limbs.ScalarToH4 | Astar-zkevm-node/merkletree/split.go:88-103 | The slices of the filled bytes are the four base-2^64 digits, and the conversion fails exactly beyond 32 bytes |
| Limbs.FeaOfScalar | Astar-zkevm-node/merkletree/split.go:20-48 | Splitting and joining gives the number modulo 2^256, hence the number if and only if it is between 0 and 2^256-1 |
| Limbs.ScalarOfFea | Astar-zkevm-node/merkletree/split.go:20-48 | Joining and splitting gives the limbs back if and only if each is below 2^32 |
| Limbs.H4OfScalar | Astar-zkevm-node/merkletree/split.go:51-103 | Splitting and joining four limbs gives every number below 2^256 back |
| Limbs.ScalarOfH4 | Astar-zkevm-node/merkletree/split.go:51-103 | Joining and splitting gives four 64-bit limbs back, and the number never exceeds 32 bytes |
| HexStrings.FeaStringRoundTrip | Astar-zkevm-node/merkletree/split.go:118-133 | Eight 32-bit limbs survive the hexadecimal string |
| HexStrings.H4StringRoundTrip | Astar-zkevm-node/merkletree/split.go:66-85 | Four 64-bit limbs survive the hexadecimal string |
| HexStrings.ParseBigIff | Astar-zkevm-node/merkletree/split.go:74-85 | A string parses exactly when it is one or more hexadecimal digits of either case after an optional sign, and a minus negates |
| HexStrings.ParseFilled | Astar-zkevm-node/merkletree/split.go:106-133 | The string of the filled bytes parses to the number, with or without its prefix |
| StateTree.KeysBind | Astar-zkevm-node/merkletree/key.go:21-112 | Two different leaves (address, type, position) with one key yield a Poseidon collision |
| StateTree.KeyLayout | Astar-zkevm-node/merkletree/key.go:21-112 | Each key is the hash of the five address words, lowest first, and the leaf's type between zeros, with the default capacity or, for storage, the hash of the eight position words |
| StateTree.DefaultCapacity | Astar-zkevm-node/merkletree/key.go:14-18 | The four limbs of the default capacity are the number of the constant |
| StateTree.PositionsAliasIff | Astar-zkevm-node/merkletree/key.go:92-112 | Two storage positions are hashed alike if and only if they agree modulo 2^256 |
| StateTree.AddressLimbs | Astar-zkevm-node/merkletree/key.go:21-41 | The three limbs the key drops are zero for every address |
| StateTree.UpdatedSetsOneLeaf | Astar-zkevm-node/merkletree/tree.go:276-306 | Below the new root the leaf that was set has the value and every other leaf its old one |
| StateTree.EarlierRootsStay | Astar-zkevm-node/merkletree/tree.go:276-306 | With a backend that computes roots from leaves, what can be read below every earlier root stays, or there are two sets of leaves with one root |
| StateTree.StoredParses | Astar-zkevm-node/merkletree/tree.go:276-306 | The string sent to the backend parses to the number of the limbs |
| StateTree.StringOfHash | Astar-zkevm-node/merkletree/tree.go:174-224 | The code hash survives its hexadecimal string |
| StateTree.Tree.Get | Astar-zkevm-node/merkletree/tree.go:243-261 | An error exactly when the backend does not answer; otherwise the limbs are those of the leaf's number, and a leaf never set reads as zero |
| StateTree.Tree.Set | Astar-zkevm-node/merkletree/tree.go:276-306 | The tables after a set by what the backend stores; a new root exactly when it stores, answers and echoes nothing or a value that parses |
| StateTree.Tree.GetNumber | Astar-zkevm-node/merkletree/tree.go:27-125 | A getter returns the number of the leaf below the root, and fails exactly when the key cannot be hashed or the backend does not answer |
| StateTree.Tree.GetCode | Astar-zkevm-node/merkletree/tree.go:89-105 | The program stored under the hash in the code leaf, or an error when there is none, the key cannot be hashed or the backend does not answer |
| StateTree.Tree.SetLeaf | Astar-zkevm-node/merkletree/tree.go:127-241 | Negative balances and nonces are refused; otherwise one leaf is set, modulo 2^256, below the root the backend stored it under, also when the caller gets an error, and the rest is unchanged |
| StateTree.Tree.SetCode | Astar-zkevm-node/merkletree/tree.go:174-224 | The program is stored under its hash; as far as the backend got, whatever the caller is told, the hash leaf below the first root or the hash and length leaves below the second are set and every other leaf is unchanged |
| StateTree.GetAfterSet | Astar-zkevm-node/merkletree/tree.go:27-241 | Reading any leaf before and after setting one: the set leaf reads as the value, every leaf with another key as before |
| StateTree.OtherLeavesStay | Astar-zkevm-node/merkletree/tree.go:27-241 | Every other (address, type, position) reads as before, or there is an explicit Poseidon collision |
| StateTree.GetCodeAfterSetCode | Astar-zkevm-node/merkletree/tree.go:89-224 | The code read after setting a code is that code, or there is an explicit Poseidon collision |
| AddrQueue.AddrQueue.constructor | Astar-zkevm-node/sequencer/addrqueue.go:26-37 | A new queue is empty and valid |
| AddrQueue.AddrQueue.AddTx | Astar-zkevm-node/sequencer/addrqueue.go:43-81 | The new queue and the four results are those of `Add`, whose meaning `AddrQueueSlot` gives; the invariant is kept |
| AddrQueue.AddrQueue.DeleteTx | Astar-zkevm-node/sequencer/addrqueue.go:124-141 | The ready transaction with the hash is removed, or else every waiting one |
| AddrQueue.AddrQueue.ExpireTransactions | Astar-zkevm-node/sequencer/addrqueue.go:94-116 | What had run out when the call began is removed, what is removed had run out when it ended, and exactly that is returned, each once |
| AddrQueue.AddrQueue.UpdateCurrentNonceBalance | Astar-zkevm-node/sequencer/addrqueue.go:162-217 | The new queue and the results are those of `Update`, the deleted transactions are listed each once, and the invariant is kept |
| AddrQueueSlot.AddRefuses | Astar-zkevm-node/sequencer/addrqueue.go:43-81 | A nonce below the current one is invalid and a nonce with a better offer is a duplicate, exactly then, and what is refused changes and returns nothing |
| AddrQueueSlot.AddKeeps | Astar-zkevm-node/sequencer/addrqueue.go:43-81 | An accepted transaction is in the ready slot exactly when it has the current nonce and is covered, otherwise under its nonce, and the other nonces keep theirs |
| AddrQueueSlot.AddAnswers | Astar-zkevm-node/sequencer/addrqueue.go:43-81 | Which of the new, the previous ready and the replaced transaction each result names |
| AddrQueueSlot.ListIsReadySlot | Astar-zkevm-node/sequencer/worker.go:94-142 | Over every run from a new queue a list that drops what the operations say has lost the slot and takes what they say is ready holds exactly the ready transaction, with the current nonce and covered by the balance |
| AddrQueueRuns.AddAccounts | Astar-zkevm-node/sequencer/addrqueue.go:43-81 | Tracked and new hashes are those tracked afterwards and those reported if and only if the new transaction is not put over another one waiting at the current nonce; then exactly that one is lost |
| AddrQueueRuns.TwoUnaffordableLoseOne | Astar-zkevm-node/sequencer/addrqueue.go:54-60 | Any two transactions at the current nonce that the balance does not cover: adding both loses the first without a report |
| AddrQueueRuns.BestOfferStays | Astar-zkevm-node/sequencer/addrqueue.go:68-80 | After any additions a later nonce holds the latest of its highest offers |
| AddrQueueRuns.ReadyIsBestLive | Astar-zkevm-node/sequencer/addrqueue.go:46-63 | The ready slot holds the latest of the highest offers for the current nonce that still count: an offer the balance does not cover, at least as high as all of them, clears them |
| AddrQueueRuns.LiveAfterLastClear | Astar-zkevm-node/sequencer/addrqueue.go:46-63 | The offers that count are the covered ones after the last offer that was not covered and at least as high as all that counted when it came |
| AddrQueueRuns.CoveredOffersCount | Astar-zkevm-node/sequencer/addrqueue.go:46-63 | When the balance covers every offer they all count |
| AddrQueueRuns.UpdateSplits | Astar-zkevm-node/sequencer/addrqueue.go:162-217 | For a nonce that does not go back, the tracked hashes are those still tracked, to delete and of the previous ready transaction |
| AddrQueueRuns.UpdateCounts | Astar-zkevm-node/sequencer/addrqueue.go:162-217 | In that split every transaction is in one place only |
| AddrQueueRuns.UpdateAccounts | Astar-zkevm-node/sequencer/addrqueue.go:162-217 | For any nonce the split loses nothing if and only if the old ready transaction is not put over another one waiting at its nonce |
| AddrQueueRuns.NonceBackLosesOne | Astar-zkevm-node/sequencer/addrqueue.go:188-214 | Any two transactions of one nonce of which the balance covers only the second: adding both and letting the nonce go back loses the first without a report |
| AddrQueueRuns.OldReadyIsKeptIff | Astar-zkevm-node/sequencer/addrqueue.go:188-214 | The old ready transaction stays in the queue if and only if the nonce goes back or it keeps its slot |
| AddrQueueRuns.UpdateSettles | Astar-zkevm-node/sequencer/addrqueue.go:188-217 | After an update there is a ready transaction if and only if the balance covers some tracked transaction with the new nonce |
| AddrQueueRuns.DeleteSettlesIff | Astar-zkevm-node/sequencer/addrqueue.go:124-141 | Deleting leaves a payable transaction waiting at the current nonce if and only if it takes the ready one while the other waits |
| AddrQueueRuns.ExpireSettlesIff | Astar-zkevm-node/sequencer/addrqueue.go:94-116 | The same for expiry |
| AddrQueueRuns.DeleteForgetsIff | Astar-zkevm-node/sequencer/addrqueue.go:124-141 | Deleting removes the hash and no other, unless it is held both ready and waiting |
| AddrQueueRuns.StepAccounts | Astar-zkevm-node/sequencer/addrqueue.go:43-217 | Every operation keeps the invariant, adds no hash of its own and, unless it is one of the two silent ones, reports what leaves |
| AddrQueueRuns.RunAccounts | Astar-zkevm-node/sequencer/addrqueue.go:26-217 | Over every run from a new queue, with nonces and balances going anywhere: a ready transaction has the current nonce and is covered, waiting ones are under their own nonce and not below the current one, only added hashes are tracked, and every added hash is tracked or was reported unless a silent step was taken |
| EventFold.Reader.Handle | Astar-zkevm-node/etherman/etherman.go:424-493 | A handler appends the event to the last block or opens a new one, with the hash, number, parent and time the log and its block give, and indexes it; it fails exactly when a needed block cannot be read, so its last error branch is dead |
| EventFold.Reader.ProcessEvent | Astar-zkevm-node/etherman/etherman.go:340-422 | Unhandled topics change nothing; a log that does not parse or cannot be handled leaves everything as it was; a new block is that of the log |
| EventFold.ReadEvents | Astar-zkevm-node/etherman/etherman.go:315-338 | An error exactly when some log does not parse or needs a block that cannot be read, by the logs alone; otherwise the fold of all logs, with one block for each log that opens one, in order, which has its hash, number, parent hash and time |
| EventFold.OpeningsIff | Astar-zkevm-node/etherman/etherman.go:424-458 | The logs that open a block are exactly the recognised ones before which there is none or one of another block |
| EventFold.OpeningsAscend | Astar-zkevm-node/etherman/etherman.go:424-458 | They are listed in log order, each once |
| EventReplay.FoldReplays | Astar-zkevm-node/etherman/etherman.go:315-493 | The invariant of the fold: block hashes are distinct exactly for contiguous logs, the replay then is the events so far, and otherwise it is longer |
| EventReplay.ReplayIffContiguous | Astar-zkevm-node/synchronizer/synchronizer.go:554-613 | Walking the blocks and their order entries, with every position in range, gives the recognised events in log order with their blocks if and only if the recognised logs of each block are contiguous |
| EventReplay.WalkMore | Astar-zkevm-node/etherman/etherman.go:424-493 | One more event in a block is one more step of its walk; earlier entries keep their meaning |
| EventReplay.PutSteps | Astar-zkevm-node/etherman/etherman.go:424-493 | Opening a second block with a known hash makes the replay too long |
| EventFold.DecodeSequences | Astar-zkevm-node/etherman/etherman.go:789-802 | Every batch keeps its data and gets the number of its place |
| EventFold.NumbersFollow | Astar-zkevm-node/etherman/etherman.go:790-800 | The last batch has the number of the event and the numbers follow one another modulo 2^64 |
| EventFold.ConsecutiveIff | Astar-zkevm-node/etherman/etherman.go:790-800 | They are consecutive if and only if there are no more batches than numbers up to the last |
| Forks.ScanLogs | Astar-zkevm-node/etherman/etherman.go:238-257 | Watched for any number of rounds, for any range and chunk size, the loop has collected exactly what its queries return in uint64 arithmetic, stops at the first start beyond the last block and fails at the first query that fails |
| Forks.ScanCollectsAll | Astar-zkevm-node/etherman/etherman.go:238-257 | When the sums fit, it stops after one query per chunk with the logs of all blocks from genesis to last, once and in order |
| Forks.ScanIff | Astar-zkevm-node/etherman/etherman.go:238-257 | In uint64 arithmetic the loop stops and visits each block of the range once and no other if and only if the start after the last chunk is below 2^64 |
| Forks.GoesBack | Astar-zkevm-node/etherman/etherman.go:238-257 | Otherwise the start after the last chunk is not above the one before and the loop goes on |
| Forks.ForkIntervals | Astar-zkevm-node/etherman/etherman.go:260-285 | Each event's interval has its fork id, version and block number and runs from the batch after its own to that of the next event; when the events advance, every batch above the first is held by exactly one interval, with the answer of the latest event below it; an error exactly when some log does not parse |
| Forks.HoldsIsInterval | Astar-zkevm-node/etherman/etherman.go:260-285 | The partition results below, stated on the batch numbers of the events, are about the intervals the loop builds |
| Forks.LatestHolds | Astar-zkevm-node/etherman/etherman.go:260-285 | Every batch above the first event lies in the interval of the latest event below it |
| Forks.PartitionIff | Astar-zkevm-node/etherman/etherman.go:260-285 | It lies in no other, for all batches, if and only if the events do not go back (except at or below the first) and none is at 2^64-1 |
| Fees.CalculateEffectiveGasPricePercentage | Astar-zkevm-node/pool/effectivegasprice.go:109-131 | An error exactly for missing or zero prices; otherwise the least byte whose parts in 256 cover the effective price, or 255 when the gas price does not |
| Fees.PercentageIsMonotone | Astar-zkevm-node/pool/effectivegasprice.go:109-131 | The byte is unique, rises with the effective price and falls with the gas price |
| Fees.ChargeCovers | Astar-zkevm-node/pool/effectivegasprice.go:109-131 | What the byte charges is never below the effective price and at most one part above it |
| Fees.IntrinsicGas | Astar-zkevm-node/pool/pool.go:657-689 | The exact sum of the base and the byte prices, and an error exactly when it is 2^64 or more, with no intermediate wrap |
| Fees.GuardIsExact | Astar-zkevm-node/pool/pool.go:674-686 | The division guard fails if and only if the sum does not fit |
| GasPriceFollower.Truncate | Astar-zkevm-node/gasprice/follower.go:60-73 | Slicing the decimal string and filling with zeros is arithmetic flooring to three significant digits |
| GasPriceFollower.UpdateGasPriceAvg | Astar-zkevm-node/gasprice/follower.go:34-81 | Nothing is stored for an L1 price of zero; otherwise the flooring of the clamped price, which never exceeds `MaxGasPriceWei` when that is set |
| GasPriceFollower.Floor3Monotone | Astar-zkevm-node/gasprice/follower.go:60-73 | The flooring is monotone |
| GasPriceFollower.Floor3Close | Astar-zkevm-node/gasprice/follower.go:60-73 | It never exceeds the price and loses less than one percent |
| GasPriceFollower.Floor3IsGreatest | Astar-zkevm-node/gasprice/follower.go:60-73 | It is the greatest number of three digits and zeros not above the price, and is idempotent |
| GasPriceFollower.StoredRises | Astar-zkevm-node/gasprice/follower.go:47-73 | The clamped and floored price rises with the price before clamping |
| GasPriceFollower.StoredIffFits | Astar-zkevm-node/gasprice/follower.go:74-78 | The stored uint64 is the floored price if and only if the clamped price is below 18500000000000000000 |

## Left out

- Signing, ABI decoding, JSON, Keccak and Poseidon: parameters. A signed transaction is identified with its content and its hash with the transaction.
- Gas estimates, suggested gas prices, timeouts and network answers of the eth tx manager: parameters of the steps, any value.
- EthTxOnce.CleanReadsLandOnce: no dirty read is taken and L1 gives back no nonce that a row has moved past; `EthTxOnce.DirtyReadLandsTwice`, `EthTxOnce.GivenBackLandsTwice` and `EthTxOnce.GivenBackToRow` show that this is exact, and `EthTxRaces.OneMissTwoLandings` and `EthTxRaces.DroppedFailureTwoLandings` are runs without it.
- EthTxLanding.AtMostOneLanding: L1 drops nothing, and more is asked of the lookups than needed; `EthTxOnce.CleanReadsLandOnce` is the exact form.
- EthTxLanding.DisplacedIsStuck: L1 drops nothing, because a displaced transaction can come back on another branch.
- EthTxReorg.ReorgSparesRunningPasses: `setStatusDone` has a block to bring and meets no pass; `EthTxReorg.OwnerWriteKeepsSteadyIff` shows that is exact and `EthTxRaces.DoneWithoutBlock` is a run without it.
- EthTxWitness.ConfirmedMeansLanded: no rollback falls between accepting a successful receipt and storing it; `EthTxReorg.RollbackKeepsBackedIff` shows that is exact and `EthTxRaces.ConfirmedAboveHead` is a run without it. No receipt in hand is left over from dropped blocks; `EthTxWitness.StepKeepsHeldIff` and `EthTxWitness.StaleHandLands` show that is exact and `EthTxRaces.ConfirmedButDropped` is a run without it. Nothing is claimed about blocks that L1 has dropped and the node has not rolled back yet.
- EthTxWitness.DoneMeansLanded: nor between reading a row and marking it as done; `EthTxReorg.OwnerMarksDoneAboveIff` shows that is exact and `EthTxRaces.DoneAboveHead` is a run without it.
- EthTxResend.SentIsWrittenAhead: the value is the caller's modulo 2^64, because the storage keeps a uint64; `EthTxResend.ValueSurvivesIff` gives the exact condition.
- EthTxClimb.MonotoneResend: estimates plus offset and review prices are below 2^64, because the gas sum wraps and the storage cuts the price; `EthTxClimb.CoveredSendsClimb` and `EthTxClimb.UncoveredFalls` give the exact condition and `EthTxRaces.PriceFalls` is a run without it.
- EthTxStore.ScanHistory: the order in which the history map is visited is arbitrary.
- EthTxStore.Storage.Reorg: the query and the updates of `Reorg` are one step of the machine, although running passes and `setStatusDone` use other database connections; `EthTxTwoWriters.LastWriterWins` takes them apart for `setStatusDone`.
- `ProcessPendingMonitoredTxs`, sleeps and retries: liveness and timing.
- The aggregator's profitability checker accepts everything; which prover moves, which of several proofs to verify it takes and the final proof's inputs are free choices of a step. L1 sequences the batches in order.
- AggregatorProgress.NextSequenceIsSent: a sequence starts right after the last verified batch, because L1 verifies whole sequences, and stale locks are cleaned up only when nobody holds them or they are verified; `AggregatorStale.OverlapIsStored` and `AggregatorStale.OverlapBlocks` show that it fails otherwise.
- A section under `StateDBMutex` is one step, with the last verified batch read at any earlier time; that batch never goes down.
- AggregatorSafety.ProversNeverOverlap: excludes the cleanup of a lock that is still in use and a second lock of a batch that is still held; `AggregatorSafety.StepKeepsIff` shows that this is exact, and `AggregatorStale` has a run for each.
- StateTree.Tree.Set: what the backend stores, under which root, and whether its answer arrives are parameters.
- The forced and pending-to-store hashes, ZK counters and failure reasons of the address queue: no modelled operation reads them.
- EventFold.Reader.Handle: the six handlers share one body here and differ in the list they append to; reading the transaction and decoding it are part of the log's outcome.
- Forks.ScanLogs: is watched for a given number of rounds, because the loop need not stop; `Forks.ScanIff` says exactly when it does.
- Fees.CalculateEffectiveGasPricePercentage: prices are not negative.
- `big.Float` arithmetic (break-even price, suggested gas price, the follower's factor): the model starts from its integer result.
- gRPC, HTTP, Postgres, configuration, logging, metrics and the JSON-RPC server.
