# A verified model of the confidential ledger

CryptoPeg mints private outputs against deposits on a public chain, moves them with linkable
ring signatures, and burns them against withdrawals. Each node keeps one ledger three times: in
memory (vault balances, key-image ledger, output pool, transaction history), in LMDB tables, and
implicitly as the replay of its blocks. This project models the node, its store, its vault, the
fork choice, the block format, the cryptographic protocols, the oracle and relayer loops and the
recovery phrases, and proves what they are for.

Check everything with `dafny verify dfyconfig.toml`.

## How the model is built

- Operations are specified as functions on values (`Ledger`, `DbModel`, `VaultModel`, `Parsing`,
  `Oracle`, `Relayer`), and what they promise is proved about those functions. Where the source
  changes objects or runs loops, classes and methods do the same (`Nodes.Node`,
  `DbModel.BlockchainDB`, `VaultModel.Vault`, `Codec.ByteReader`, `Oracle.Listener`,
  `Relayer.Relay`, and the loops in `Checks`, `Decoys`, `Ring`, `Merkle`, `Mnemonic`), and their
  `ensures` equate the new state with the function of the old one. A theorem about the function is
  therefore one about the object.
- `node_mutex_` makes each public method of the node one step; a run is a sequence of steps with
  any arguments. Exceptions are results: `None`, `Failed`, `Refused`, or a false return.
- libsodium is the record `CurveModel.Curve` of total functions with explicit failure, passed as a
  parameter, so every theorem holds for all hash functions and all point operations. Theorems that
  need arithmetic ask for `Lawful`: where an operation reports success it computed in a commutative
  group whose order annihilates the generator and every point multiplied by 8. `CurveInstance`
  is such an interface over the pairs modulo 2^127 - 1, and `NodeInstance.HypothesesHold` shows on
  it that the hypotheses of the run theorems are met together. Hashes are never assumed injective:
  either two values are equal, or two strings that collide are given.
- A table shows the block or output whose bytes were written, and every read goes through the
  codec (`DbModel.Reread`, `DbModel.LoadBlock`, `DbModel.Legible`), which may refuse the bytes or
  take them for another block. So do the bytes that nodes send each other (`Wire`, `Sync`, `P2p`).
  `DbModel.Storable` says that a block is given back by its bytes; `DbModel.StorableIff` says
  which blocks are.
- Pools are compared as multisets (`Chain.Same`), because a recovery lists the outputs in key order.

Hypotheses of the run theorems, each a named predicate:

- `Runs.Callable`: heights within u64, an order id of 16 bytes. `Spending.NoDoubleSpend` needs no
  more.
- `Runs.Careful`: block hashes and one-time keys are fresh; a committed block is given back by its
  bytes; `buy_shielded` is called with a deposit id its handler has checked against the table; no
  exception falls between the vault call and the commit (`Runs.Interrupted`); a rollback's replay
  runs (`Atomicity.ReplayRuns`). At a deposit rate of 50 `Backing.SupplyAt50` does without the last.
- `Drift.Watched`: the same with interrupted operations, where no block spends an output that only
  memory knows, left there by an interrupted withdrawal.
- `Backing.Honest`, `Conservation.Genuine`: signature soundness (the image of an accepted ring
  signature is that of a ring member, the image of an accepted burn proof that of the burned key),
  different images for different keys, and wallets whose keys belong together.
- `Replica.SigningWorks`, `Authority.KeyWorks`: what is signed with a key verifies under it.
- `Delivery.CanReceive`: a wallet whose keys belong together, and multiplications that succeed.
- `RoundTrip.Sized`, `Agreement.AllSized`, `Wire.SizedCall`, `Binding.Counted`: vectors of fewer than 2^32 elements,
  as many as their counts can say, and a block before version 3 without quorum entries, as the
  reader leaves it. The exact conditions on refused blocks, restarts and rollbacks assume only
  this of the stored blocks.

## What the code does not do

Properties that are false of the code are proved with their exact condition:

- A refused remote block is not always harmless. `rollback_top_block` moves the tip fields before
  its replay and the replay may throw, while ReorgGuard is built only after the rollback
  (src/node.cpp:617-634, src/blockchain_db.cpp:589-646); and every refusal on the tip reads memory
  back from the tables, which drops what the readers refuse. `Atomicity.RefusedChangesNothing` gives
  the condition, `Aftermath.RefusalShows` the one for any memory, `Atomicity.StuckReorg` the state
  left behind, `Aftermath.MinedOverStuck` what the next block makes of it, and
  `NodeInstance.ReplayCanThrow` an instance reached by a run. The comments at src/node.cpp:641 and src/node.cpp:668 promise more.
- A node mines blocks that no node can read. `/api/v1/tx/push` copies the points of the outputs
  unchecked and `submit_pre_signed_transaction` does not check them (src/rpc_server.cpp:615-626,
  src/node.cpp:1168-1264), but `Block::deserialize` and `deserialize_output` do. Then other nodes
  refuse the block (`Wire.SubmitDelivered`, `Wire.UnreadableSubmission`), the miner's own page
  handler skips it, and a restart or the next refusal loses its outputs and its history
  (`Wire.SubmissionIsLost`, `Agreement.RestartIsInvisible`), and the supply equation fails by them
  (`Aftermath.SupplyAfterLoss`). The same happens to transfers to keys
  whose sums are no valid points (`Wire.TransferDelivered`) and to blocks of an old version
  (`Wire.OldVersionIsValid`).
- The rollback restores the vault exactly only when the 50/50 replay without claims computes it; the
  comment at src/blockchain_db.cpp:611 says it always does. `DbModel.RollbackUndoesCommit` is the
  exact condition; circulating supply alone needs only the deposit rate (`Backing.StepBacks`).
- `buy_shielded` and `withdraw_shielded` leave the vault in memory changed, without a block, when
  deriving an output or the burn proof throws after the vault call (`Runs.LocalOutcome`). The supply
  equation then fails by exactly the amount booked until memory is loaded again, and for good if a
  commit comes first (`Drift.SupplyDrifts`, `Drift.HealsUnlessWritten`,
  `NodeInstance.InterruptionStays`).
- A transfer of 0 is mined by its own node and refused by every other (`Wire.TransferDelivered`).
- The event id of a deposit is not injective: the handler checks only that contract and transaction
  are not empty, and a colon may stand in either (`DepositHandler.EventIdExact`,
  `DepositHandler.EventIdsCollide`).
- A block below version 3 survives the codec only with empty sections, because its quorum is always
  written and never read (`RoundTrip.BlockRoundTrip`).
- The Merkle root commits neither to section sizes nor to a withdrawal's change key nor to surplus
  deposit outputs; the comment at src/block.cpp:380 calls its list total. The change key is bound by
  the burn proof instead (`Binding.BurnProofBinds`), so that the signatures of a header cover the
  whole block up to section sizes, the challenges and responses of ring signatures and the texts of
  timestamps (`Binding.SignatureCoversBlock`).
- The string of a burn proof writes neither the length of the order id nor that of the destination;
  it is binding only because remote validation demands destinations of 42 bytes
  (`Binding.BurnStringBinds`, `Binding.BurnStringsCoincide`).
- A repeated one-time key overwrites an output in LMDB while memory keeps both
  (`Agreement.CursorAfterPut`).
- `public_fee` is never credited to the vault, so the supply equation counts it on the side of the
  outputs (`Backing.SupplyIsCovered`).
- The saved list of quarantined orders is cut to 5000, so "quarantined" in `Relayer.RelayerSafe`
  means that the order was quarantined at some time.

## Files

| files | contents |
|---|---|
| Types, Sequences, Bits, Walks, ByteOrder, LittleEndian, Coins | values, byte orders, and general facts about sequences, bits, circular walks and tagged amounts |
| Vault, Db, Ledger, Node, Checks, Decoys | the vault, the store, the node's operations as functions, and the objects and loops |
| Chain, Agreement, Atomicity, Runs, Spending, Replaying, Conservation, Backing, Aftermath, Drift | the invariants over whole runs, and what follows when they are broken |
| Convergence, Replica, Wire, Sync, P2p | several nodes |
| Binding, Authority, Receipts, Delivery | what acceptance is worth: what hashes, signatures and proofs commit to, who must have signed, what receipts book, whom outputs reach |
| Header, Merkle, Encoding, Parsing, RoundTrip, Codec | blocks as bytes |
| Curve, Ring, Stealth, Pedersen | the cryptographic protocols |
| CurveInstance, NodeInstance | an interface and runs that meet the hypotheses, and instances of what the code does not do |
| Oracle, DepositHandler, Relayer, StateFile | the bridge |
| Mnemonic | recovery phrases |

## Model

| member | source | states |
|---|---|---|
| Backing.SupplyIsCovered | src/node.cpp:125-1159 | after any run of deposits, transfers, withdrawals, submitted transactions, remote blocks, one-deep reorganisations, claims and restarts from an empty store, the unspent outputs plus all accepted public fees are exactly the circulating supply, and the vault never refuses to burn any part of an unspent output for lack of supply (sound signatures, fresh keys, readable blocks, a deposit rate of 50 where a reorganisation occurs; interrupted operations are the subject of `Drift.SupplyDrifts`) |
| Backing.SupplyAt50 | src/node.cpp:125-1159 | at a deposit rate of 50, and with the deposits of the chain within u64 wherever a rollback occurs, the same holds along every honest run without any assumption on the replay, which is proved to run |
| Drift.SupplyDrifts | src/node.cpp:125-1159 | after any such run in which deposits and withdrawals may also be interrupted between the vault call and the commit, the unspent outputs of the chain plus the public fees plus one offset are the vault's supply, where the offset follows a stated rule; so the supply equation holds if and only if that offset is zero |
| Drift.StepDrifts | src/node.cpp:125-1159 | the rule, for one operation: an interruption moves memory by exactly the net booked or the amount burned; a commit, a claim and the block a failed reorganisation puts back write memory's offset to disk; a restart and a block refused on the tip load that of the disk; a reorganisation that is taken in ends both |
| Drift.AdriftRemembers | src/node.cpp:85-123 | on such a drifting state memory is what a recovery reads exactly when the vault in memory is the recorded one and memory lists no output that the tables lack; the two offsets then agree |
| Drift.HealsUnlessWritten | src/node.cpp:125-1159 | after an interrupted operation, any one operation and a restart, the supply equation holds again if and only if the operation between has not written the vault of the memory to disk, or nothing had been booked |
| NodeInstance.InterruptionStays | src/node.cpp:144-167 | an instance: a deposit to a recipient whose view key is no point is interrupted after the vault was credited with 1000, the next deposit commits that vault, and after a restart the supply equation fails |
| Backing.BackedIsCovered | src/node.cpp:125-1159 | the same equation, and the absence of refusals, in any state that meets the invariant, whatever the order of the pool |
| Backing.FirstIsBacked | src/node.cpp:108-123 | the first start is backed: nothing circulates and nothing is unspent |
| Backing.StepBacks | src/node.cpp:125-1305 | every operation keeps the invariant: balanced chain, distinct images, supply equal to what the chain mints less what it burns |
| Backing.BackedReplays | src/blockchain_db.cpp:605-640 | along such runs at a deposit rate of 50, with all deposits together within u64, the replay of a rollback never throws, so every refused remote block leaves everything unchanged |
| Conservation.ChainConserves | src/node.cpp:736-1147 | on a balanced chain, unspent outputs plus public fees equal net deposits less burned tokens |
| Conservation.BlockConserves | src/node.cpp:736-1147 | a balanced block moves unspent value by exactly what it mints, pays in fees and burns |
| Conservation.ValidIsBalanced | src/node.cpp:736-1128 | a block that passes remote validation with sound signatures spends one pool output per key image, and consumes and mints exactly what it creates, pays and burns |
| Coins.SpendAll | src/node.cpp:1137-1143 | spending several distinct unspent outputs removes exactly their sum from the unspent total |
| Coins.UnspentAnyOrder | src/blockchain_db.cpp:269-295 | the unspent total does not depend on the order in which recovery lists the pool |
| Spending.NoDoubleSpend | src/node.cpp:85-1305 | along every run of callable operations with any arguments from an empty store, interrupted operations, throwing replays, repeated one-time keys and deposit ids and unreadable blocks included: at every step the ledger in memory equals the key-image table, a block is taken in only with images that its base has not spent and that it does not repeat, and it adds exactly these; nothing becomes unspent except the images of the top block that a reorganisation takes back |
| Spending.StepMarks | src/node.cpp:85-1305 | one operation of any kind keeps the ledger in memory and the key-image table equal, takes in fresh images only, and keeps what is spent spent |
| Spending.RollbackMarks | src/blockchain_db.cpp:504-649 | a rollback erases from the key-image table exactly the canonical images of the block it has read, or nothing |
| Runs.ChainSpendsOnce | src/node.cpp:85-1305 | after a careful run from an empty store the ledger also holds the canonical image of every spend of the chain exactly once, and answers 'spent' for exactly those |
| Runs.RunKeeps | src/node.cpp:85-1305 | along every careful run the tables, the memory and the chain of committed blocks stay the same ledger, and every block of it can be read back |
| Runs.StepKeeps | src/node.cpp:85-1305 | one operation, local or remote, a claim or a restart, keeps that agreement |
| Runs.LocalOutcome | src/node.cpp:125-1305 | a local operation appends a block that sits on the tip with unspent images, or fails; a failure changes nothing if and only if it was not raised between the vault call and the commit |
| Runs.BuyMines | src/node.cpp:125-218 | `buy_shielded`: the mined block and new state, or an exception, which leaves the state unchanged unless the output could not be derived after the vault was credited |
| Runs.WithdrawMines | src/node.cpp:399-532 | `withdraw_shielded`: likewise; an exception changes the state exactly when the change output or the burn proof fails after the vault has burned |
| Runs.TransferMines | src/node.cpp:260-397 | `transfer_shielded`: a failure never changes anything |
| Runs.SubmitMines | src/node.cpp:1166-1305 | `submit_pre_signed_transaction`: a failure never changes anything |
| Runs.InvSpentOnce | src/ring_signature.cpp:389-405 | what the invariant says of key images: one canonical entry per spend, in memory and on disk |
| Runs.TorsionIsNoEscape | src/blockchain_db.cpp:203-220 | an image shifted by a torsion point of order dividing 8 is answered as spent exactly when the image itself is |
| Runs.ClaimKeeps | src/node.cpp:534-548 | a claim changes neither the chain nor the circulating supply, and its vault record is what a restart reads |
| Atomicity.RefusedChangesNothing | src/node.cpp:581-672 | a refused remote block leaves every table, tip, balance, key image, transaction and pool output as before if and only if it was harmless (`Atomicity.Harmless`): it was turned away before anything was tried; or it was refused on the tip and a recovery loses nothing, every stored output having valid points and every stored block with transactions being given back by its bytes; or it began a rollback, and either the block below the top cannot be read, which stops it at once, or the replay runs, the top is given back by its bytes, and a recovery loses nothing |
| Atomicity.ReadableHarmless | src/node.cpp:581-672 | over a ledger all of whose blocks are given back by their bytes, the one thing that can do harm is a rollback whose replay throws |
| Atomicity.RefusedReorg | src/node.cpp:624-672 | a competing block refused after a rollback that ran: the state is as before exactly if the old top is given back by its bytes and a recovery loses nothing |
| Aftermath.RefusalShows | src/node.cpp:581-672 | the same equivalence for any vault and any pool in memory, as an interrupted operation leaves them: a refused block that reads memory back changes nothing if and only if the vault in memory is the recorded one, the pool lists exactly the readable outputs of the chain, and no history is lost |
| Aftermath.RestartShows | src/node.cpp:85-123 | likewise for a restart, where also the reader must know the hash of the top block |
| Aftermath.AgreementRemembers | src/node.cpp:85-123 | where memory, tables and chain agree, these conditions are those of `Atomicity.RefusedChangesNothing` and `Agreement.RestartIsInvisible` |
| Wire.SubmissionIsLost | src/node.cpp:1166-1305 | after a submission with an output that is no point has been mined, a restart changes the state, and so does every block refused on the tip |
| Atomicity.RemoteOutcome | src/node.cpp:575-1159 | `apply_remote_block` over a readable ledger in one statement: the block was the top already, or is appended to the state it was validated against, or, unless the replay throws, nothing has changed |
| Atomicity.ReorgOutcome | src/node.cpp:624-672 | over a readable ledger a competing block that won the fork choice is taken in exactly if it is valid on the parent state; otherwise ReorgGuard restores the previous state |
| Atomicity.StuckReorg | src/blockchain_db.cpp:589-646 | when the replay throws, the tables are untouched but the tip height kept in memory has moved down by one |
| Aftermath.ReorgGetsStuck | src/blockchain_db.cpp:589-646 | the same without readability: over any ledger whose top two blocks can be read, a reorganisation whose replay throws leaves exactly that state |
| Aftermath.MinedOverStuck | src/blockchain_db.cpp:363-502 | the next block of a node stuck in this way stands on the block below the old top and overwrites it at its height, while the old top's images stay spent, its hash stays indexed, and its outputs stay in the table wherever no key of the new block overwrites one |
| Aftermath.NoChainAfterStuck | src/blockchain_db.cpp:363-502 | if the old top spent anything, no chain of blocks describes the node after that |
| NodeInstance.ReplayCanThrow | src/blockchain_db.cpp:611-629 | an instance, reached by a run from an empty store: at rates of 0/0 a deposit of 1000, its withdrawal and an empty block; a competing empty block then wins the fork choice, the 50/50 replay throws, the block is refused and the state has changed |
| Atomicity.PutBack | src/node.cpp:632-666 | committing the old top again restores the store, although the guard lists the outputs in another order than the first commit |
| Replaying.ReplayRunsAtItsRate | src/blockchain_db.cpp:611-629 | a chain that ran at a deposit rate of 50, at any withdrawal rate, replays at 50/50 without an exception if its deposits together fit in u64 |
| Replaying.RanReplays | src/blockchain_db.cpp:611-629 | a chain that ran at one withdrawal rate replays at any other |
| Agreement.RestartIsInvisible | src/node.cpp:85-123 | a process that stops between operations and starts again is in the same state, the order of the pool apart, if and only if a recovery loses nothing of any block (every output has valid points, every block with transactions is given back by its bytes) and the top block can be read or its hash is zero |
| Agreement.FirstStart | src/node.cpp:108-123 | the first start on an empty store meets the invariant, so the invariant is not empty |
| Agreement.Recovers | src/node.cpp:85-106 | whatever is in memory, the tables of a chain whose blocks can be read bring back the state of that chain |
| Agreement.RecoversExactly | src/node.cpp:85-106 | whatever else is in memory, reading back the tables of any committed chain gives its state if and only if a recovery loses nothing of any block |
| Agreement.LoadedPool | src/blockchain_db.cpp:269-295 | a recovery lists all stored outputs if and only if the points of all of them are valid; the others are passed over |
| Agreement.HistoryReads | src/node.cpp:97-105 | the history read back is the chain's if and only if every block with transactions is given back by its bytes; it is never longer |
| Aftermath.SupplyAfterLoss | src/node.cpp:85-106 | by how much the supply equation fails after a recovery or a restart of a balanced ledger with unreadable parts: by exactly the unspent outputs that cannot be read and the public fees of the transactions whose blocks cannot be read |
| Agreement.CursorAfterPut | src/blockchain_db.cpp:269-295 | reading the outputs back after a commit gives old and new outputs together if and only if the points of the new ones are valid and their one-time keys are distinct and none is that of an output that could be read; otherwise one is dropped, or a put has overwritten one |
| Agreement.RollbackOfChain | src/blockchain_db.cpp:504-649 | rolling back the top of a chain: nothing happens if it or the block below cannot be read; the tip fields alone move if the replay of the blocks as they are read throws; otherwise, if the top is given back by its bytes, the store is that of the shorter chain with the replayed vault |
| Agreement.AppendKeeps | src/node.cpp:1117-1158 | appending a block that extends the chain keeps memory, tables and chain in agreement |
| Agreement.LookupAnyOrder | src/node.cpp:954-974 | finding an output by its key gives the same answer for every order of the pool |
| Chain.TablesOfChain | src/blockchain_db.cpp:363-502 | what the tables hold after committing a chain: its blocks by height, its tip, its canonical images, its outputs and its transactions, each exactly |
| Chain.NothingTwice | src/blockchain_db.cpp:410-441 | no key image and no one-time key occurs twice anywhere in a chain |
| DbModel.RollbackUndoesCommit | src/blockchain_db.cpp:363-649 | rolling back a commit restores every table, height and tip hash if and only if the block and the one before it can be read, the names read undo those written, and the stored vault is the one the 50/50 replay computes; for a block that its bytes give back, the names undo exactly if all were fresh |
| DbModel.RemoveUndoesPut | src/blockchain_db.cpp:504-586 | removing a block just put, under whatever its bytes are read as, restores the five tables if and only if the names erased are the new names written and no value was overwritten by another; for a block read as itself, if and only if its hash, height, images, keys and deposit ids were fresh |
| DbModel.PutOutputsKeys | src/blockchain_db.cpp:426-441 | a put of outputs touches exactly their one-time keys |
| Convergence.ForkChoiceConverges | src/node.cpp:575-672 | from one parent state, two nodes that receive the same siblings in any order, with repetitions and invalid blocks mixed in, end in the same state: that of the valid sibling signed by the most distinct authorised validators, the smallest hash as a byte string deciding between equals, or the parent if none is valid |
| Convergence.ReceivesBest | src/node.cpp:575-672 | after any sequence of siblings the node is on the preferred valid one so far, which `Convergence.ForkChoiceConverges` describes by its signers and hash |
| Convergence.MoreSignaturesWin | src/node.cpp:598-629 | a valid sibling with strictly more distinct authorised signers than the top replaces it, one with fewer never does, and between equals the smaller hash, byte by byte, decides |
| Convergence.FewerSignaturesRefused | src/node.cpp:598-616 | over any state at all, a competing block with fewer distinct authorised signers than the top is turned away and nothing changes |
| Convergence.ReceiveNext | src/node.cpp:580-672 | with a valid block on top, a sibling replaces it if and only if it is valid on the parent and preferred; otherwise nothing changes |
| Convergence.PreferredTotal | src/node.cpp:598-613 | of two blocks with different hashes exactly one is preferred |
| Convergence.PreferredTrans | src/node.cpp:598-613 | preference is transitive |
| Convergence.ValidSame | src/node.cpp:674-1115 | remote validation does not depend on the order of the pool |
| Wire.MinedBlockAgrees | src/node.cpp:125-1305 | a node in an equal state, sent the bytes of a locally mined block, takes it in if and only if a condition on the arguments of the call holds (authorised key, unprocessed deposit id, usable recipient keys, a nonzero amount sent, output points that the reader accepts, a burn proof whose verification operations succeed), and is then in the miner's state; otherwise it is unchanged |
| Wire.PeerAccepts | src/rpc_server.cpp:891-905 | a node in an equal state, sent the bytes of any block of version 3 or later for the next height, takes it in if and only if it is valid for its sender and given back by its bytes; both then end in equal states |
| Wire.TransferDelivered | src/node.cpp:260-397 | a transfer's block is taken in elsewhere if and only if the miner is authorised, the amount sent is not 0, and the points of the outputs it creates are valid |
| Wire.BuyDelivered | src/node.cpp:125-218 | a deposit's block is taken in elsewhere if and only if somebody is authorised, the deposit id is new, the recipient's keys and the derived points pass, the id is a string the reader takes, and there are at most 64 signatories |
| Wire.WithdrawDelivered | src/node.cpp:399-532 | a withdrawal's block is taken in elsewhere if and only if the miner is authorised, the verifier's operations on the proof made from the call's arguments succeed, and the points of the change are valid |
| Wire.SubmitDelivered | src/node.cpp:1166-1305 | a submitted transaction's block is taken in elsewhere if and only if the miner is authorised and the transaction is within the reader's limits, which the submission does not check: valid output points, at most 256 outputs, at most 64 ring members, a short timestamp |
| Wire.UnreadableSubmission | src/rpc_server.cpp:615-626 | an instance for every submission: one that passes all checks with an output that is no point is mined into a block that no node can read, its own included |
| Wire.OldVersionIsValid | src/node.cpp:674-1126 | another instance: with nobody authorised, a valid block without deposits stays valid when its version is lowered to 2, and its bytes no longer give its sections back |
| Replica.DecoyFits | src/node.cpp:220-258 | every decoy is the key of a pool output with exactly the wanted amount |
| Replica.RingFits | src/node.cpp:305-318 | every member of a transfer's ring is a pool output of the amount of its input |
| Sync.FoldInv | src/node.cpp:575-1159 | the state of a claim-free node is a function of its chain of readable valid blocks, and agrees with it |
| Sync.PageApplies | src/p2p.cpp:313-326 | a peer on a prefix of a valid chain takes in the bytes of any page that follows, whole, and is then in the state of the longer prefix |
| Sync.PageOfChain | src/rpc_server.cpp:940-950 | the page served from a height of a readable chain is the bytes of its next blocks, up to the limit |
| Sync.BuildPage | src/rpc_server.cpp:937-950 | the loop serves the bytes of the first `limit` stored blocks from a height up to the tip that can be read, skipping heights without one |
| P2p.SyncFromPeer | src/p2p.cpp:273-340 | the paging loop ends, whatever bytes the peer's stored blocks have; if the peer's claim-free chain of readable blocks extends the node's, the node ends in the peer's state, however many pages of 50 it takes |
| P2p.ApplyPage | src/p2p.cpp:313-326 | the node's state after a page is that of reading and applying its blocks in order until one cannot be read or is refused |
| Nodes.Node.constructor | src/node.cpp:11-64 | a process starting over given tables: the genesis block on an empty store, otherwise recovery |
| Nodes.Node.InitOrRecoverDatabase | src/node.cpp:108-123 | genesis is committed only at height 0 with no block 0 |
| Nodes.Node.RecoverStateFromDb | src/node.cpp:85-106 | vault, pool in cursor order, images as stored and transactions by height are read back from the tables, passing over what the readers refuse |
| Nodes.Node.Validate | src/node.cpp:674-1126 | the whole validation accepts exactly the valid blocks and returns the vault they lead to; no field is touched; what validity is worth is said by `Binding.SignatureCoversBlock`, `Authority.TakenInIsAuthorised`, `Receipts.AcceptedWithdrawal` and `Conservation.ValidIsBalanced` |
| Nodes.Node.ExtendTip | src/node.cpp:674-1158 | a valid block is taken in; otherwise memory is reloaded from the store |
| Nodes.Node.Reorganise | src/node.cpp:617-672 | roll back, validate on the parent, take in or put back |
| Nodes.Node.ApplyRemoteBlock | src/node.cpp:575-1159 | the method on the object changes tables, tip, vault, images, pool and history exactly as the operation of the ledger that the theorems are about, its comparison of quorum counts and hexadecimal hashes being that of `Convergence.MoreSignaturesWin` |
| Nodes.Node.TakeIn | src/node.cpp:1117-1158 | the assignments and loops that fill memory and the commit give the appended state |
| Nodes.Node.PutBack | src/node.cpp:632-671 | ReorgGuard's collection loops, its commit and the reload |
| Nodes.Node.BuyShielded | src/node.cpp:125-218 | the method's block, state and failures are those of the deposit operation, with the restored balances when the quorum is not met |
| Nodes.Node.TransferShielded | src/node.cpp:260-397 | the method's block, state and failures are those of the transfer operation |
| Nodes.Node.BuildTransaction | src/node.cpp:270-367 | the checks, the ring and the signature of a transfer, before anything changes |
| Nodes.Node.CommitTransaction | src/node.cpp:348-395 | registering, appending and committing one transaction appends its block |
| Nodes.Node.WithdrawShielded | src/node.cpp:399-532 | the method's block, state and failures are those of the withdrawal operation |
| Nodes.Node.SubmitPreSignedTransaction | src/node.cpp:1166-1305 | the method's block, state and failures are those of the submission |
| Nodes.Node.CheckSubmitted | src/node.cpp:1168-1264 | the checks of a pre-signed transaction decide exactly the stated conditions |
| Nodes.Node.ClaimTreasuryFees | src/node.cpp:534-548 | a claim changes the vault in memory and its record, and no block |
| Nodes.KeyImageLedger.Register | src/ring_signature.cpp:389-396 | an image is canonicalised once and added; false if it was there |
| Nodes.KeyImageLedger.RegisterAll | src/node.cpp:1137-1139 | registering a block's images adds their canonical forms |
| Checks.CheckAuth | src/node.cpp:693-727 | deposits need a quorum of authorised keys, other blocks one authorised signer unless nobody is authorised |
| Authority.AuthorityExact | src/node.cpp:693-727 | a block with deposits has the authority it needs if and only if there is a set of at least one and at least threshold distinct authorised keys each of which has signed the header's fields; any other block if and only if nobody is authorised or its validator is authorised, is not the zero key and has signed them |
| Authority.TakenInIsAuthorised | src/node.cpp:693-727 | no block without such signatures is accepted |
| Authority.MinedCounts | src/block.cpp:251-340 | with keys that work, the quorum count of a mined header is the number of distinct authorised keys among the validator's and its cosigners' |
| Authority.DepositNeedsQuorum | src/node.cpp:125-218 | a deposit is mined exactly if the vault admits its amount, its output can be derived, and, where somebody is authorised, validator and cosigners hold at least one and at least threshold distinct authorised keys |
| Checks.CheckDeposits | src/node.cpp:736-885 | the loop accepts exactly deposits that are paired with their re-derived outputs, new, distinct, exact in fee and net, and that the vault accepts; the temporary vault ends where the deposits lead |
| Checks.CheckTx | src/node.cpp:891-980 | one transaction is accepted exactly with its canonical hash, a signature, an unspent image, positive amounts without overflow, and distinct ring members all in the pool and of exactly the amount distributed; `Binding.TxHashBinds` says what the hash check binds and `Binding.VerifyExact` what the signature is |
| Binding.TxHashBinds | src/node.cpp:893-911 | two accepted transactions with one hash agree in outputs, public fee, ring and key image, or the two byte strings written out from these fields are different and have one hash (fewer than 2^32 outputs and ring members) |
| Binding.AcceptedTxHash | src/node.cpp:893-911 | an accepted transaction carries the hash of the string of its counts, outputs, fee, ring and image |
| Binding.SignatureCoversBlock | src/node.cpp:679-1115 | two accepted blocks of equal section sizes whose validators signed one hash agree in the signed header fields and in every transaction's outputs, fee, ring and image, every deposit with its output, every withdrawal with its change key and every change output, or two different strings hashed on the way collide |
| Receipts.AcceptedWithdrawal | src/node.cpp:1004-1115 | every withdrawal of an accepted block has the floor fee of its rate, pays out exactly the rest to 0x and 40 hexadecimal digits not all zero, burns an output of the pool that covers it under an image not yet spent, and gives what is left over to its change key in an output of the block |
| Receipts.AcceptedDeposit | src/node.cpp:736-885 | every deposit of an accepted block has the floor fee of its rate and mints exactly the rest |
| Receipts.NoDepositTwice | src/node.cpp:736-770 | over any sequence of accepted blocks from any state, no deposit id occurs twice, in one block or in several, none was in the table before, and the table records them all |
| Receipts.DepositsRecorded | src/blockchain_db.cpp:443-462 | the ids of an accepted block are distinct and new, and the commit records exactly them |
| Receipts.BooksBalance | src/vault.cpp:14-121 | over any sequence of accepted blocks the collateral moves by everything deposited less exactly the net amounts on the withdrawal receipts, the supply by net deposits less burns, and the fee pool by the fees on the receipts |
| Receipts.MinedIsPriced | src/node.cpp:125-532 | the blocks a node mines itself keep the same books, with the amounts of the call, and a withdrawal order names the address of the call |
| Checks.CheckTxs | src/node.cpp:887-986 | all transactions acceptable and no image, up to torsion, twice in the block; the images collected are the transactions' in order |
| Checks.SumSpent | src/node.cpp:932-942 | the running u64 sum gives a total exactly if every output is positive and fee plus outputs fit |
| Checks.RingDenomination | src/node.cpp:954-980 | the common amount of the ring's members exists and equals a total exactly if every member is in the pool with that amount |
| Checks.CheckWithdrawals | src/node.cpp:989-1115 | the loop accepts exactly withdrawals that are acceptable one by one, spend distinct unspent images, run on the vault, and whose due changes are the block's change outputs as multisets: greedy claiming with `output_claimed` is complete |
| Checks.ClaimChange | src/node.cpp:1043-1068 | claiming the first fitting unclaimed output keeps the claimed outputs equal to the changes due so far; if none fits, no matching exists at all |
| Checks.Unmet | src/node.cpp:1047-1061 | a due change that no unclaimed output can meet is not met by any assignment |
| Checks.AllClaimed | src/node.cpp:1109-1115 | equal counts at the end hold exactly when no change output is left over |
| Checks.CheckWithdrawal | src/node.cpp:1004-1091 | one withdrawal: exact fee, EVM address, a burned output large enough, the change key's presence, the burn proof, an unspent image |
| Decoys.CollectCandidates | src/node.cpp:220-238 | the candidate loop yields the distinct other keys of the wanted amount, in pool order |
| Decoys.ShuffleInPlace | src/node.cpp:240-246 | the in-place swaps are the recursive Fisher-Yates shuffle |
| Decoys.ShuffleMembers | src/node.cpp:240-246 | the shuffle is a permutation for every random source |
| Decoys.ChooseDecoys | src/node.cpp:220-258 | collecting, shuffling in place and truncating give the selection of which `Decoys.DecoysExact` says how many and which keys it holds and `Decoys.EveryChoice` that any may be chosen |
| Decoys.DecoysExact | src/node.cpp:220-258 | with D the destinations of the pool outputs of the wanted amount (any if it is 0) other than the input's, the selection holds exactly min(ring size - 1, size of D) keys (none for ring size 0), distinct and all in D |
| Decoys.EveryOrder | src/node.cpp:240-246 | every permutation of the candidates is the outcome of draws within their ranges, so the shuffle leaves no order out |
| Decoys.EveryChoice | src/node.cpp:220-258 | every sequence of that many distinct keys of D is what some draws choose |
| Decoys.EveryDecoyPossible | src/node.cpp:220-258 | every key of D is chosen by some draws whenever the ring has room for a decoy |
| Decoys.RingHides | src/node.cpp:305-314 | the ring of a transfer has 1 + min(4, size of D) distinct members: the input's key exactly once, at the drawn position modulo the ring size, and keys of D elsewhere |
| Delivery.TransferHides | src/node.cpp:305-372 | the same of the ring in the transaction that `transfer_shielded` builds and mines |
| Decoys.Present | src/node.cpp:282-294 | the scan finds exactly the outputs that are in the pool with all three fields |
| DbModel.BlockchainDB.constructor | src/blockchain_db.cpp:15-80 | opening an environment sets tip height and hash from the stored record |
| DbModel.BlockchainDB.InitTopHeight | src/blockchain_db.cpp:89-124 | tip height from the metadata record, tip hash from the block read there, zeros if it is missing or unreadable |
| DbModel.BlockchainDB.GetBlock | src/blockchain_db.cpp:136-201 | the stored bytes of a height through the reader: a missing block and unreadable bytes are one answer |
| DbModel.BlockchainDB.Commit | src/blockchain_db.cpp:363-502 | one commit writes block, index, canonical images, outputs, deposit ids, height and vault record, and moves the tip |
| DbModel.BlockchainDB.RollbackTopBlock | src/blockchain_db.cpp:504-649 | one rollback, including the unreadable block that stops it and the field updates that stay when the replay throws |
| DbModel.BlockchainDB.LoadAllUtxos | src/blockchain_db.cpp:269-295 | every stored output whose points the reader accepts, in the byte order of the keys |
| DbModel.VisitAll | src/blockchain_db.cpp:269-295 | a cursor from first to last lists every value that can be read once, in the byte order of the keys |
| DbModel.ReplayLoop | src/blockchain_db.cpp:611-629 | the replay loop over a default vault object is the replay of the stored blocks as they are read, including where the reader or the vault throws |
| ByteOrder.SortedKeysNoDup | src/blockchain_db.cpp:269-295 | a cursor meets no key twice |
| LittleEndian.BigEndianOrder | include/serialization.hpp:133-147 | big-endian height keys compare as bytes exactly as the heights compare as numbers, and are equal only for equal heights |
| HeaderModel.VerifyQuorum | src/block.cpp:295-340 | `verify_quorum` returns exactly the number of distinct authorised keys with a valid signature in the header |
| HeaderModel.QuorumOrderIrrelevant | src/block.cpp:262-278 | distinct signers added to an empty quorum in any order give identical vectors, hence identical header bytes and hash |
| HeaderModel.InsertSorted | src/block.cpp:262-278 | insertion keeps the vectors sorted, adds exactly the new signer, and ignores a repeated key |
| HeaderModel.InsertAllSorted | src/block.cpp:262-278 | adding distinct signers one by one gives a sorted vector of exactly those signers |
| HeaderModel.BlockHeader.AddQuorumSignature | src/block.cpp:262-278 | both parallel vectors get the new entry at the same sorted position; a known key changes nothing |
| HeaderModel.BlockHeader.SignAs | src/block.cpp:251-260 | the validator's key, signature and quorum entry |
| HeaderModel.BlockHeader.CosignAll | src/node.cpp:185-191 | the loop adds one signature per cosigner over the unchanged signing hash |
| Merkle.MerkleBinding | src/block.cpp:351-436 | for blocks with equal section sizes, equal roots hold exactly for equal transaction hashes, deposits with outputs, withdrawals up to the change key, and change outputs, or computing the roots hashed two different strings to one value |
| Merkle.RootIsTree | src/block.cpp:414-436 | the level-by-level loop computes the tree defined from the top, odd leaves doubled |
| Merkle.RootBinds | src/block.cpp:414-436 | equal roots over equally many leaves mean equal leaves, or an explicit collision |
| Merkle.LeafStringsCommit | src/block.cpp:351-405 | with equal section sizes, the hashed strings are equal exactly for equal committed parts |
| Merkle.SizesAreNotCommitted | src/block.cpp:424-428 | the number of leaves is not committed: a last odd leaf and the same leaf twice have one root |
| Merkle.RootLoop | src/block.cpp:407-436 | the loop that replaces `current` level by level |
| Merkle.ComputeMerkleRoot | src/block.cpp:351-436 | the leaf loops and the tree together |
| RoundTrip.BlockRoundTrip | src/block.cpp:438-530 | `deserialize(serialize(b))` is b if and only if b is within the protocol's limits and is of version 3 or later or has empty sections |
| RoundTrip.BlockInverts | src/block.cpp:438-530 | a block of version 3 or later within the limits is read back from its bytes, whatever follows them, without any legacy fallback |
| RoundTrip.BlockMatches | src/block.cpp:475-530 | on any byte string: what is read is within the limits, what remains is a suffix, and re-serialising gives exactly the consumed prefix if and only if no legacy fallback was taken |
| RoundTrip.ReadsOrFails | src/block.cpp:438-530 | a block of version 3 or later is read back as itself or not at all, whatever its keys, lengths and points are |
| RoundTrip.HeaderReads | src/block.cpp:194-236 | whatever the bytes of a block are taken for, its header is read back with it, and before version 3 no transaction is |
| RoundTrip.OldSections | src/block.cpp:194-236 | before version 3 the quorum count is read as the transactions' count, and so on down the sections: only a block without sections survives |
| RoundTrip.HeaderMatches | src/block.cpp:215-236 | the header's half of the converse, with the quorum read only from version 3 |
| RoundTrip.WithdrawalMatches | src/block.cpp:160-190 | what is read of a withdrawal matches its bytes up to what its four fallbacks filled in |
| RoundTrip.DepositMatches | src/block.cpp:130-144 | what is read of a deposit matches its bytes up to what its fallback filled in |
| LittleEndian.DecodeEncode | include/serialization.hpp:23-33 | reading back a written integer of any width |
| LittleEndian.EncodeDecode | include/serialization.hpp:74-90 | writing back the bytes of a read integer |
| Codec.ByteWriter.WriteInt | include/serialization.hpp:23-33 | shifting and masking writes the little-endian bytes |
| Codec.ByteWriter.WriteString | include/serialization.hpp:46-53 | appends the u32 length and the bytes, nothing else |
| Codec.ByteReader.ReadInt | include/serialization.hpp:74-90 | the shifted sum is the little-endian value; the cursor moves only if enough bytes remain |
| Codec.ByteReader.ReadString | include/serialization.hpp:105-114 | a string within 64 KiB and within the input, or an exception; the cursor stays within bounds |
| Codec.Serialize | src/block.cpp:438-473 | the block serializer appends exactly the encoding |
| Codec.Deserialize | src/block.cpp:475-530 | the block deserializer returns exactly what the functional parser reads, or an exception where it fails |
| Codec.SerializeTx | src/block.cpp:92-101 | the serializer of a transaction appends exactly its encoding |
| Codec.SerializeHeader | src/block.cpp:194-213 | the header, the quorum always included and a missing signature as zeros |
| Codec.DeserializeTx | src/block.cpp:103-118 | a transaction: the value read and the place of the cursor are those of the functional parser, or an exception where it fails |
| Codec.DeserializeRingSig | src/block.cpp:56-89 | a ring signature of 1 to 64 members with valid points |
| Codec.DeserializeDeposit | src/block.cpp:130-144 | a deposit, keys or zeros by the bytes remaining: value and cursor as the functional parser says |
| Codec.DeserializeWithdrawal | src/block.cpp:160-190 | a withdrawal with its four branches on bytes remaining: value and cursor as the functional parser says |
| Codec.DeserializeHeader | src/block.cpp:215-236 | the header, its quorum only from version 3: value and cursor as the functional parser says |
| Ring.SignThenVerify | src/ring_signature.cpp:93-267 | for every ring size, real position, matching key and randomness, `verify` accepts what `sign` built if and only if ring and image are admissible and no group operation of the verifier fails |
| Ring.BurnThenVerify | src/ring_signature.cpp:287-387 | likewise for burn proofs |
| Binding.VerifyExact | src/ring_signature.cpp:188-267 | a ring signature verifies if and only if it has at least one key and as many responses, its points are valid and its keys distinct, 8 does not take its image to the identity, and there are challenges round the ring, each the hash of the message and of s G + c P and s H(P) + c I of the member before it, that end where they began |
| Binding.VerifyBurnExact | src/ring_signature.cpp:329-387 | likewise for a burn proof, whose one challenge is the hash of the message and the two points |
| Binding.SignatureBindsMessage | src/ring_signature.cpp:188-267 | one ring signature verifies for one message only, or the strings hashed at its last member (message, L and R as each verification computes them) are different and reduce to one scalar |
| Binding.BurnProofBindsMessage | src/ring_signature.cpp:329-387 | one burn proof verifies for one message only, or two different strings of message and points reduce to one scalar |
| Binding.BurnProofBinds | src/ring_signature.cpp:269-387 | two accepted withdrawals with one burn proof name the same order, amount, destination and change key, or two different strings that were hashed collide |
| Binding.BurnStringBinds | src/ring_signature.cpp:269-285 | the string of a burn proof determines order, amount, destination and change key among destinations of one length, as all accepted ones have |
| Binding.BurnStringsCoincide | src/ring_signature.cpp:269-285 | an instance: with destinations of different lengths two different orders have one string, since neither length is written |
| Binding.SigningStringBinds | src/block.cpp:238-249 | the string under a header's signatures determines version, height, previous hash, Merkle root, timestamp and nonce |
| Ring.TorsionImageRefused | src/ring_signature.cpp:216-231 | neither a ring signature nor a burn proof verifies with an image that 8 annihilates |
| Walks.WalkCloses | src/ring_signature.cpp:131-186 | challenges generated circularly from the real index and recomputed from index 0 close on each other, for every ring size and index |
| Walks.Fill | src/ring_signature.cpp:131-173 | the loop that fills the challenge vector circularly holds the walk's states, wherever it wraps |
| Ring.ClosingStep | src/ring_signature.cpp:175-181 | the response s = alpha - c x makes the verifier recompute the signer's first challenge |
| Ring.SignLoop | src/ring_signature.cpp:93-186 | the method with its challenge vector returns exactly the specified signature, or fails where it does |
| Ring.VerifyLoop | src/ring_signature.cpp:188-267 | the verifying method decides exactly the signatures of `Binding.VerifyExact`, each of which `Binding.SignatureBindsMessage` ties to one message |
| Ring.Recompute | src/ring_signature.cpp:233-263 | the loop returns the challenge after the last member, or fails where an operation does |
| Ring.DistinctKeys | src/ring_signature.cpp:207-214 | the quadratic loop finds exactly the rings without a repeated key |
| Stealth.CreatedIsSpendable | src/stealth.cpp:39-155 | an output created for an address is found by its wallet's scan, the derived key opens it, and a burn proof made with it verifies exactly when its points are admissible and the verifier's operations succeed |
| Stealth.ScannedKeyOpens | src/stealth.cpp:95-155 | whenever a scan succeeds, the derived key x satisfies xG = P |
| Stealth.SharedPoint | src/stealth.cpp:57-65 | sender and recipient compute one shared point: r(bG) = b(rG) |
| Stealth.OneTimeKeysDiffer | src/stealth.cpp:39-93 | two outputs for one address have one destination only if their shared points are equal or the hashes of two different points lead to one point |
| Stealth.DepositKeysDiffer | src/node.cpp:783-869 | two accepted deposits with one ephemeral key have one deposit id, or two different ids lead to one point |
| Delivery.DepositReaches | src/node.cpp:125-218 | the output of a mined deposit, of the net amount, is found and can be spent by the wallet whose address the call named |
| Delivery.TransferReaches | src/node.cpp:260-397 | the first output of a mined transfer, of the amount sent, belongs to the recipient's wallet; what the input holds beyond amount and fee, if anything, is one second output that belongs to the sender's |
| Delivery.ChangeReaches | src/node.cpp:399-532 | the change of a mined withdrawal, if any, is one output that belongs to the wallet that burned, under the change key of the receipt |
| Delivery.TransferGoesThrough | src/node.cpp:260-397 | a transfer is mined exactly for an owned, unspent output of the pool that covers amount and fee, derivable outputs, and a signature whose points are admissible and whose operations succeed for the verifier |
| Delivery.WithdrawGoesThrough | src/node.cpp:399-532 | a withdrawal is mined exactly for an owned, unspent output of the pool that covers it, an amount within the limit and the supply, a rate up to 10000, a payable address, and a change output and a burn proof that can be made |
| Delivery.SubmitGoesThrough | src/node.cpp:1166-1264 | a submission is mined exactly when every node in the same state accepts its transaction in the next block |
| Stealth.RederivationIsCreation | src/node.cpp:783-877 | remote validation accepts exactly the seeded output of `create_one_time_output`, and that one exactly when the recipient's keys and the base multiplications pass |
| CurveModel.CanonicalIsEightfold | include/types.hpp:132-138 | the three doublings compute 8I |
| CurveModel.TorsionInvariance | include/types.hpp:132-138 | adding a point that 8 annihilates does not change the canonical image |
| Pedersen.AcceptsIffConserved | src/pedersen.cpp:32-141 | over independent generators, with valid points and no failing operation, the check accepts opened commitments if and only if inputs equal outputs plus fee as integers and the excess is the difference of blindings |
| CurveInstance.CheckDecides | src/pedersen.cpp:32-141 | over the pairs modulo the prime 2^127 - 1 every hypothesis of that theorem is met, so for any two commitments and fee the check decides conservation |
| NodeInstance.HypothesesHold | src/node.cpp:125-1159 | a lawful interface, linked images, signatures that verify, and a careful and honest run of a deposit, its withdrawal and a remote block exist together, and the supply is covered after it |
| NodeInstance.TwoKeys | src/ring_signature.cpp:26-52 | in that instance different private scalars have different public keys and different canonical images |
| Pedersen.VerifyBalanceConservation | src/pedersen.cpp:92-141 | the method decides exactly validity of all points and the folded difference |
| Pedersen.SumLoop | src/pedersen.cpp:113-123 | the accumulator loop, failing where an addition fails |
| Pedersen.AmountBuffer | src/pedersen.cpp:32-41 | the 64-byte buffer filled by shifts is the little-endian amount |
| VaultModel.RunFromZero | src/vault.cpp:14-167 | in every run from zero with changing rates, collateral equals circulating plus fee pool over the integers, and fee pool plus claims falls short of the exact fees by less than one unit per fee-bearing operation |
| VaultModel.DepositOnSolvent | src/vault.cpp:14-64 | a deposit is accepted exactly for an admissible amount and rate whose sum fits in u64; a refusal changes nothing; the invariant exception is unreachable |
| VaultModel.WithdrawOnSolvent | src/vault.cpp:66-121 | a withdrawal is accepted exactly for an admissible amount within the circulating supply; the insolvency, arithmetic and invariant exceptions are unreachable |
| VaultModel.ClaimOnSolvent | src/vault.cpp:123-167 | a claim is accepted exactly for an admissible amount within the fee pool and an EVM address; the arithmetic and invariant exceptions are unreachable |
| VaultModel.FeeCalc | include/types.hpp:48-62 | the fee is the floor of the exact rational fee, never more than the amount, and an exception exactly above 10000 bps |
| VaultModel.IsValidEvmAddress | include/types.hpp:167-177 | the loop with its flag decides exactly 0x, 40 hexadecimal digits, not all zero |
| VaultModel.Vault.Deposit | src/vault.cpp:14-64 | the object's balances and receipt, or its error and what it has assigned by then, are those the vault lemmas speak of |
| VaultModel.Vault.RequestWithdrawal | src/vault.cpp:66-121 | the object's balances and receipt, or its error and what it has assigned by then, are those the vault lemmas speak of |
| VaultModel.Vault.ClaimFees | src/vault.cpp:123-167 | the object's balances and remaining pool, or its error, are those the vault lemmas speak of; the supply is not touched |
| VaultModel.Vault.RestoreState | src/vault.cpp:198-206 | the balances are assigned before the check that throws |
| VaultModel.Vault.SetFeeBps | src/vault.cpp:189-196 | rates up to 1000 only |
| ByteOrder.HexOrder | include/types.hpp:77-88 | comparing hexadecimal strings is comparing bytes, and they are equal only for equal bytes |
| ByteOrder.ToHexLoop | include/types.hpp:77-84 | the stream loop writes two lower-case digits for each byte in order |
| Oracle.ExactlyOnce | contracts/scripts/oracle_listener.js:147-337 | along every run of polls, RPC failures, refused or unanswered posts, crashes, restarts and lost or truncated state, every deposit event from the start block to the cursor, in memory or on file, has been minted, and no event twice |
| Oracle.StepKeeps | contracts/scripts/oracle_listener.js:223-337 | a boot, a crash, a poll, a post, the end of a poll or a write of the file keeps that invariant |
| Oracle.DrainIsRun | contracts/scripts/oracle_listener.js:257-330 | a poll's loop is a run of single steps |
| Oracle.PollMints | contracts/scripts/oracle_listener.js:223-337 | a poll whose posts all arrive, are accepted and answered ends with the cursor at the confirmed head, every event from the start block on minted once and those of the poll marked as processed; where the file was written, a restart resumes there |
| Oracle.NeverBack | contracts/scripts/oracle_listener.js:257-330 | whatever the replies, a poll leaves the cursor between where it was and the confirmed head |
| Oracle.Listener.PollInboundDeposits | contracts/scripts/oracle_listener.js:223-337 | the poll as a loop over the object's fields: posts, cursor, processed set, state file |
| Oracle.Listener.constructor | contracts/scripts/oracle_listener.js:147-221 | loading the state file, and the start block when there is no cursor |
| Oracle.Listener.SaveState | contracts/scripts/oracle_listener.js:172-190 | the last 5000 ids and the cursor |
| Oracle.Daemon.Deposit | src/rpc_server.cpp:403-409 | the idempotent daemon the oracle talks to |
| DepositHandler.HandlerIsIdempotent | src/rpc_server.cpp:378-471 | over the ledger: 409 exactly for an event in the deposit table, a success adds exactly that event, and nothing else changes the table |
| DepositHandler.HandlerIsDaemon | src/rpc_server.cpp:378-471 | the handler over the ledger is the daemon of the oracle's model: the same ids minted and the same reply |
| DepositHandler.EventIdInjective | src/rpc_server.cpp:390-394 | with contracts that hold no colon, chain, contract, transaction and log index are determined by the event id, whatever the transaction is |
| DepositHandler.EventIdExact | src/rpc_server.cpp:390-394 | two event ids are equal if and only if chain and log index are, and contract and transaction joined by a colon are |
| DepositHandler.EventIdsCollide | src/rpc_server.cpp:337-394 | an instance: contract a:b with transaction c and contract a with transaction b:c have one event id |
| DepositHandler.CollectAttestations | src/rpc_server.cpp:410-463 | the loop collects exactly the distinct authorised keys with a valid attestation |
| DepositHandler.CertificateNeeded | src/rpc_server.cpp:410-471 | a new event is refused as unauthorised exactly when no set of at least one and at least threshold distinct authorised validators has validly attested it, and nothing is minted without one |
| Relayer.RelayerSafe | contracts/scripts/oracle_listener.js:343-531 | along every run every order at or below the height cursor, in memory or on file, has been executed on chain or quarantined; only orders of the chain with an address and an amount are paid, each to its recipient with its amount and fee, and none twice |
| Relayer.PaysOnce | contracts/scripts/oracle_listener.js:377-483 | an order with an address and an amount that is in neither list and not executed is, when its calls succeed, paid to its recipient with its amount and fee, exactly once, executed and processed, and not quarantined |
| Relayer.QuarantinedForCause | contracts/scripts/oracle_listener.js:377-513 | along every run, every order ever quarantined bears the id of one without an address or an amount, or some process had failed three times to pay it, counted over the history of its moves |
| Relayer.FailuresCounted | contracts/scripts/oracle_listener.js:343-513 | along every run the failure counts in memory are the failed attempts of the running process |
| Relayer.PollPays | contracts/scripts/oracle_listener.js:347-531 | after a poll whose calls all succeed every order up to the safe height that can be paid is executed, once, unless it was quarantined before or shares its id with one that cannot be paid; where the file was written, a restart resumes there |
| Relayer.PollProgresses | contracts/scripts/oracle_listener.js:347-531 | a poll with work whose reads succeed decreases a measure of blocks to scan and failures left |
| Relayer.PollKeeps | contracts/scripts/oracle_listener.js:347-531 | what every step keeps, a whole poll keeps |
| Relayer.AttemptKeeps | contracts/scripts/oracle_listener.js:377-513 | one order: the contract stays sound, the lists stay true, and an order the scan goes past is executed or quarantined |
| Relayer.Relay.ProcessOrder | contracts/scripts/oracle_listener.js:377-513 | one order on the object's sets and failure counts: contract, sets and counts afterwards are those of which `Relayer.PaysOnce`, `Relayer.QuarantinedForCause` and `Relayer.PollPays` say that it pays and when it gives up |
| Relayer.Relay.ScanBlock | contracts/scripts/oracle_listener.js:376-513 | the orders of one block until one stops the scan |
| Relayer.Relay.PollOutboundWithdrawals | contracts/scripts/oracle_listener.js:347-531 | the poll as loops over blocks and orders, saving after each block |
| Relayer.Relay.constructor | contracts/scripts/oracle_listener.js:147-206 | loading the state file; failure counts start empty |
| Relayer.Relay.SaveState | contracts/scripts/oracle_listener.js:172-190 | the last 5000 processed and quarantined orders and the height |
| Mnemonic.EncodeDecode | src/mnemonic.cpp:45-133 | the 24 window-shift indices and the bit-setting decoder are mutually inverse on every 33-byte stream and every index sequence |
| Mnemonic.GeneratedRecovers | src/mnemonic.cpp:35-133 | a generated phrase validates and gives back its entropy |
| Mnemonic.AcceptedIsGenerated | src/mnemonic.cpp:75-133 | every accepted phrase has the words generated from its entropy, in order |
| Mnemonic.WindowIsSlice | src/mnemonic.cpp:52-64 | the three-byte window, shifted and masked, is the 11 bits at position 11 i, including at the end of the stream |
| Mnemonic.WindowsSpell | src/mnemonic.cpp:50-68 | the indices spell the bits of the stream |
| Mnemonic.SetBits | src/mnemonic.cpp:89-100 | the nested loops, setting bits in place in 33 zero bytes, leave exactly the indices' bits |
| Mnemonic.IndexBitsInjective | src/mnemonic.cpp:89-100 | different index sequences spell different bits |
| Mnemonic.SplitWords | src/mnemonic.cpp:25-33 | the extraction loop splits at runs of blanks |
| Mnemonic.SplitJoin | src/mnemonic.cpp:25-73 | splitting a joined phrase gives back the words |
| Mnemonic.Generate24Words | src/mnemonic.cpp:35-73 | the loop over the windows, with a blank before every word but the first, gives the phrase of the entropy |
| Mnemonic.ToEntropy | src/mnemonic.cpp:75-133 | validation and recovery: 24 known words and a matching checksum, or a refusal |

## Left out

- Runs.RunKeeps: assumes that no exception falls between the vault call and the commit, and that a rollback's replay runs; runs with interrupted operations are the subject of `Drift.StepDrifts`, and a replay that throws leaves the state of `Atomicity.StuckReorg`, after which the agreement does not hold.
- Atomicity.RefusedChangesNothing: starts where memory, tables and chain agree; `Aftermath.RefusalShows` drops the agreement of vault and pool. A chain that has repeated a one-time key is covered by `Agreement.CursorAfterPut` and `Spending.NoDoubleSpend` only.
- Drift.SupplyDrifts: a run ends where the replay of a rollback throws, and blocks are readable; a deposit rate other than 50 is excluded only where a reorganisation occurs.
- Backing.SupplyIsCovered: assumes signature soundness and distinct images for distinct keys, because no hardness assumption about the group is modelled; a deposit rate other than 50 is excluded only where a reorganisation occurs, since the replay then computes another supply.
- Convergence.ForkChoiceConverges: starts from a parent whose vault the 50/50 replay reproduces, since the code restores no other.
- Wire.MinedBlockAgrees: for a withdrawal, the burn proof's acceptance stays in the condition as the success of the verifier's own operations, since the signer does not check the return codes the verifier checks.
- P2p.SyncFromPeer: pages are byte strings; the JSON and hexadecimal text around them is not modelled.
- Oracle.ExactlyOnce: events of a block come in canonical order from the query; the sort (contracts/scripts/oracle_listener.js:244-252) is not modelled, nor are other oracles or a daemon that reorganises.
- Oracle.Listener.PollInboundDeposits: does not itself raise an exception in the middle of the queue; the action `Throw` of `Oracle.StepKeeps` covers a poll that ends there with the cursor unmoved.
- Receipts.BooksBalance: speaks of blocks taken in one after the other; a claim lowers the collateral as `VaultModel.ClaimOnSolvent` says, and a rollback restores the vault of the 50/50 replay (`DbModel.RollbackUndoesCommit`).
- Binding.SignatureCoversBlock: asks for equal section sizes, which the Merkle root does not commit to (`Merkle.SizesAreNotCommitted`).
- Relayer.PollPays: amounts and fees are those of `net_amount_raw` and `fee_raw`; the decimal fallback is not modelled, and whether an address is good is the library's answer.
- Vectors of 2^32 elements and more, whose counts wrap, in stored and sent blocks.
- LMDB failures: opening, full maps, key-size limits and failing commits are not modelled; a transaction commits or is aborted. The recovery that local operations attempt when a commit fails is therefore not modelled.
- Heights of 2^64 and strings of 4 GiB: excluded by `Runs.Callable` and the type `Text`.
- The key-image ledger keeps hexadecimal strings; the model keeps the images, which `ByteOrder.HexOrder` shows to be equivalent.
- Anonymity, unforgeability and the arithmetic inside libsodium: points and hashes are parameters.
- Timestamps, random draws and generated ids are parameters of the operations.
- HTTP, JSON, sockets, threads, timeouts, peer exchange and mutexes: only the paging loop, the page handler and the deposit handler are modelled. The attestation hash is a parameter of the handler.
- The daemon's answer to withdrawal queries and the contract itself: the contract is assumed to execute each order at most once; reorganisations of the public chain below the confirmation depth are not modelled.
- The legacy form of the contract's `withdraw` call without a fee, and the choice of signature format.
- The two event callbacks, `set_validator_key` and `add_authorized_validator`: keys and the authorised set stay fixed during a run.
- The tumbler, the wallet command line and manager, the web and WebAssembly front ends, deployment scripts and `parse_usdt`: input and output around the modelled parts.
- The BIP-39 word list is any list of 2048 distinct words without blanks; the derivation of a wallet from the entropy is not modelled.
- Wiping of secrets and constant-time comparison.
