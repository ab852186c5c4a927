/** The node's ledger as a value: its state, validation of remote blocks, fork choice, and
    every operation that changes the state (src/node.cpp). The class Node runs the same
    operations in place. */
module Ledger {
  import opened Types
  import opened ByteOrder
  import opened LittleEndian
  import opened CurveModel
  import opened HeaderModel
  import opened Merkle
  import opened VaultModel
  import opened DbModel
  import opened Coins
  import Ring
  import Stealth

  /** What stays fixed while a node runs. */
  datatype Params = Params(
    k: Curve, depositBps: U32, withdrawBps: U32, authorized: seq<Key256>, threshold: U32,
    sk: Sig64, pk: Key256)                                    // the local validator's key pair

  datatype NodeState = NodeState(
    db: Db, vault: Balances, spent: set<KeyImage>, pool: seq<OneTimeOutput>, history: seq<ShieldedTransaction>)

  function RequiredQuorum(p: Params): nat {
    if p.threshold == 0 then 1 else p.threshold
  }

  // ---- Lookups ----

  /** The first output of the pool with this destination. */
  function Lookup(pool: seq<OneTimeOutput>, key: Key256): (r: Option<OneTimeOutput>)
    ensures r.Some? ==> r.value in pool && r.value.destination == key
    ensures r.None? ==> forall o :: o in pool ==> o.destination != key
  {
    if pool == [] then None else
    if pool[0].destination == key then Some(pool[0]) else Lookup(pool[1..], key)
  }

  predicate IsSpent(k: Curve, s: NodeState, image: KeyImage) {
    Canonical(k, image) in s.spent || Canonical(k, image) in s.db.tables.images
  }

  function SumAmounts(outs: seq<OneTimeOutput>): nat {
    if outs == [] then 0 else SumAmounts(outs[..|outs| - 1]) + outs[|outs| - 1].amount
  }

  // ---- Validation of a remote block ----

  /** Deposits need a quorum of authorized validators; other blocks one authorized signer,
      unless nobody is authorized. */
  ghost predicate AuthOk(p: Params, b: Block) {
    if b.deposits != [] then
      p.authorized != [] && Quorum(p.k, b.header, p.authorized) >= RequiredQuorum(p)
    else
      p.authorized == [] || (VerifySignature(p.k, b.header) && b.header.validatorKey in p.authorized)
  }

  predicate DepositOk(p: Params, s: NodeState, d: DepositReceipt, out: OneTimeOutput) {
    && d.txHash != [] && d.txHash !in s.db.tables.deposits && d.gross > 0
    && FeeCalc(d.gross, p.depositBps) == Some(d.fee) && d.net == d.gross - d.fee && out.amount == d.net
    && Stealth.RederivationAccepts(p.k, d, out)
  }

  ghost predicate DepositsOk(p: Params, s: NodeState, b: Block) {
    && |b.deposits| == |b.depositOutputs|
    && (forall i :: 0 <= i < |b.deposits| ==> DepositOk(p, s, b.deposits[i], b.depositOutputs[i]))
    && (forall i, j :: 0 <= i < j < |b.deposits| ==> b.deposits[i].txHash != b.deposits[j].txHash)
  }

  /** The canonical hash, or for height 0 the legacy hash of the first destination. */
  predicate TxHashOk(k: Curve, height: nat, tx: ShieldedTransaction) {
    || tx.txHash == Ring.CanonicalTxHash(k, tx.outputs, tx.publicFee, tx.ringSig.ring, tx.ringSig.keyImage)
    || (tx.outputs != [] && height == 0 && tx.txHash == k.hash(tx.outputs[0].destination))
  }

  ghost predicate Positive(outs: seq<OneTimeOutput>) {
    forall i :: 0 <= i < |outs| ==> outs[i].amount > 0
  }

  /** Every ring member is in the pool with exactly the amount the transaction distributes. */
  ghost predicate RingMembersOk(pool: seq<OneTimeOutput>, ring: seq<Key256>, total: nat) {
    ring != [] && forall i :: 0 <= i < |ring| ==> Lookup(pool, ring[i]).Some? && Lookup(pool, ring[i]).value.amount == total
  }

  ghost predicate TxOk(p: Params, s: NodeState, height: nat, tx: ShieldedTransaction) {
    var total := tx.publicFee + SumAmounts(tx.outputs);
    && TxHashOk(p.k, height, tx) && Ring.Verify(p.k, tx.txHash, tx.ringSig)
    && !IsSpent(p.k, s, tx.ringSig.keyImage)
    && Positive(tx.outputs) && total < TWO_64
    && NoDup(tx.ringSig.ring) && RingMembersOk(s.pool, tx.ringSig.ring, total)
  }

  predicate ChangeOutputOk(k: Curve, out: OneTimeOutput) {
    out.amount > 0 && k.valid(out.destination) && k.valid(out.ephemeral)
  }

  function BurnMessageOf(k: Curve, w: WithdrawalReceipt): Hash256 {
    Ring.BurnMessage(k, w.orderId, w.gross, w.destination, w.changeKey)
  }

  predicate WithdrawalOk(p: Params, s: NodeState, w: WithdrawalReceipt) {
    var burned := Lookup(s.pool, w.burnedKey);
    && w.gross > 0 && FeeCalc(w.gross, p.withdrawBps) == Some(w.fee) && w.net == w.gross - w.fee
    && ValidEvmAddress(w.destination)
    && burned.Some? && burned.value.amount >= w.gross
    && (burned.value.amount == w.gross ==> w.changeKey == ZERO_KEY)
    && Ring.VerifyBurn(p.k, BurnMessageOf(p.k, w), w.burnedKey, w.keyImage, w.burnC0, w.burnS)
    && !IsSpent(p.k, s, w.keyImage)
  }

  /** What a withdrawal leaves over, tagged with the key it must go to. */
  type Change = Coin<Key256>

  function ChangeOf(pool: seq<OneTimeOutput>, w: WithdrawalReceipt): seq<Change> {
    var burned := Lookup(pool, w.burnedKey);
    if burned.Some? && burned.value.amount > w.gross then [Coin(w.changeKey, burned.value.amount - w.gross)] else []
  }

  function Changes(pool: seq<OneTimeOutput>, ws: seq<WithdrawalReceipt>): seq<Change> {
    if ws == [] then [] else Changes(pool, ws[..|ws| - 1]) + ChangeOf(pool, ws[|ws| - 1])
  }

  function AsChange(out: OneTimeOutput): Change { Coin(out.destination, out.amount) }

  /** The change outputs are exactly the changes due, one for one. */
  ghost predicate ChangeBalanced(pool: seq<OneTimeOutput>, b: Block) {
    multiset(Changes(pool, b.withdrawals)) == multiset(Map(AsChange, b.withdrawalOutputs))
  }

  ghost predicate TxsOk(p: Params, s: NodeState, b: Block) {
    forall i :: 0 <= i < |b.txs| ==> TxOk(p, s, b.header.height, b.txs[i])
  }

  ghost predicate WithdrawalsOk(p: Params, s: NodeState, b: Block) {
    && (forall i :: 0 <= i < |b.withdrawalOutputs| ==> ChangeOutputOk(p.k, b.withdrawalOutputs[i]))
    && (forall i :: 0 <= i < |b.withdrawals| ==> WithdrawalOk(p, s, b.withdrawals[i]))
    && ChangeBalanced(s.pool, b)
  }

  function NextVault(p: Params, s: NodeState, b: Block): Option<Balances> {
    VaultAfter(p.depositBps, p.withdrawBps, s.vault, b)
  }

  /** Everything `apply_remote_block` demands of a block that extends the local tip. */
  ghost predicate ValidBlock(p: Params, s: NodeState, b: Block) {
    && b.header.height == s.db.topHeight + 1 && b.header.prevHash == s.db.topHash
    && b.header.merkleRoot == MerkleRoot(p.k, b)
    && AuthOk(p, b) && AuditSolvency(s.vault)
    && DepositsOk(p, s, b) && TxsOk(p, s, b) && WithdrawalsOk(p, s, b)
    && NoDup(CanonicalAll(p.k, Spends(b)))
    && NextVault(p, s, b).Some?
  }

  // ---- Appending, recovering, applying ----

  /** The state after a block has been taken in and committed. */
  function Append(p: Params, s: NodeState, b: Block): NodeState {
    var v := match NextVault(p, s, b) case Some(v) => v case None => s.vault;
    NodeState(CommitBlock(p.k, s.db, b, v), v, s.spent + Elements(CanonicalAll(p.k, Spends(b))),
              s.pool + NewOutputs(b), s.history + b.txs)
  }

  /** The transactions of the stored blocks 1..h; a block that cannot be read is passed over. */
  function StoredTxs(k: Curve, blocks: map<nat, Block>, h: nat): seq<ShieldedTransaction> {
    if h == 0 then [] else
    StoredTxs(k, blocks, h - 1) + match LoadBlock(k, blocks, h) case None => [] case Some(b) => b.txs
  }

  /** `recover_state_from_db`: everything in memory is read back from the tables. */
  ghost function Recover(k: Curve, s: NodeState): NodeState {
    var t := s.db.tables;
    NodeState(s.db, if t.vault.Some? then t.vault.value else s.vault, t.images.Keys,
              LoadedOutputs(k, t.utxos), StoredTxs(k, t.blocks, s.db.topHeight))
  }

  const GENESIS_NONCE: U64 := 0x47454E45534953

  const GENESIS: Block := Block(
    Header(3, 0, ZERO_KEY, ZERO_KEY, 1773273600, GENESIS_NONCE, ZERO_KEY, ZERO_SIG, [], []), [], [], [], [], [])

  /** A new process over the same tables. */
  ghost function Restart(p: Params, t: Tables): NodeState {
    var s := NodeState(OpenDb(p.k, t), EMPTY_VAULT, {}, [], []);
    if s.db.topHeight == 0 && LoadBlock(p.k, t.blocks, 0).None?
    then s.(db := CommitBlock(p.k, s.db, GENESIS, EMPTY_VAULT))
    else Recover(p.k, s)
  }

  /** The remote block wins over the local top: more quorum, or as much and a smaller hash. */
  ghost predicate Preferred(p: Params, remote: Block, local: Block) {
    var r, l := Quorum(p.k, remote.header, p.authorized), Quorum(p.k, local.header, p.authorized);
    r > l || (r == l && Less(ToHex(BlockHash(p.k, remote)), ToHex(BlockHash(p.k, local))))
  }

  /** Extending the tip; a refusal reloads memory from the tables. */
  ghost function Extend(p: Params, s: NodeState, b: Block): (NodeState, bool) {
    if ValidBlock(p, s, b) then (Append(p, s, b), true) else (Recover(p.k, s), false)
  }

  /** A competing block: roll back, try it, and put the local block back if it is refused. */
  ghost function Reorg(p: Params, s: NodeState, b: Block, local: Block): (NodeState, bool) {
    var (db, rolled) := RollbackDb(p.k, s.db);
    if !rolled then (s.(db := db), false) else
    var s1 := Recover(p.k, s.(db := db));
    if ValidBlock(p, s1, b) then (Append(p, s1, b), true)
    else (Recover(p.k, s1.(db := CommitDb(p.k, db, local, s.vault, GuardOutputs(local), Spends(local)))), false)
  }

  /** The order in which ReorgGuard collects the outputs of the block it puts back. */
  function GuardOutputs(b: Block): seq<OneTimeOutput> {
    b.depositOutputs + TxOutputs(b.txs) + b.withdrawalOutputs
  }

  /** `apply_remote_block`; a false return and an exception are both false. */
  ghost function ApplyRemote(p: Params, s: NodeState, b: Block): (NodeState, bool) {
    var h := s.db.topHeight;
    if b.header.height == h && h > 0 then
      match LoadBlock(p.k, s.db.tables.blocks, h) case None => (s, false) case Some(local) =>
      if BlockHash(p.k, b) == BlockHash(p.k, local) then (s, true) else
      if b.header.prevHash != local.header.prevHash then (s, false) else
      if !Preferred(p, b, local) then (s, false) else Reorg(p, s, b, local)
    else Extend(p, s, b)
  }

  // ---- Local operations ----

  /** Mined: the block and the state with it. Failed: the state an exception leaves behind. */
  datatype LocalResult = Mined(state: NodeState, block: Block) | Failed(state: NodeState)

  function NextHeader(p: Params, s: NodeState, timestamp: U64, b: Block): Header
    requires s.db.topHeight + 1 < TWO_64
  {
    Header(3, s.db.topHeight + 1, s.db.topHash, MerkleRoot(p.k, b), timestamp, 0, ZERO_KEY, ZERO_SIG, [], [])
  }

  const NO_HEADER: Header := Header(3, 0, ZERO_KEY, ZERO_KEY, 0, 0, ZERO_KEY, ZERO_SIG, [], [])

  /** The sections packed under a header signed by the local validator. */
  function MineBlock(p: Params, s: NodeState, timestamp: U64, sections: Block): Block
    requires s.db.topHeight + 1 < TWO_64
  {
    sections.(header := Sign(p.k, NextHeader(p, s, timestamp, sections), p.sk, p.pk))
  }

  datatype BuyArgs = BuyArgs(
    gross: U64, to: Stealth.Address, customTxHash: Text, timestamp: U64, cosigners: seq<Sig64>, randomHash: Key256)

  function DepositSections(p: Params, split: Split, a: BuyArgs): (r: Option<Block>)
    ensures r.Some? ==> |r.value.deposits| == |r.value.depositOutputs| == 1
                        && r.value.txs == [] && r.value.withdrawals == [] && r.value.withdrawalOutputs == []
  {
    var txHash: Text := if a.customTxHash != [] then a.customTxHash else ZERO_X + ToHex(a.randomHash);
    var receipt := DepositReceipt(a.gross, split.fee, split.net, txHash, a.to.viewPub, a.to.spendPub);
    var secret := Stealth.SeededSecret(p.k, Stealth.DepositSeed(p.k, txHash));
    match Stealth.CreateOutput(p.k, a.to, split.net, secret) case None => None case Some(utxo) =>
      Some(Block(NO_HEADER, [], [receipt], [], [utxo], []))
  }

  /** `buy_shielded`. The vault is credited before the output is derived. */
  ghost function Buy(p: Params, s: NodeState, a: BuyArgs): LocalResult
    requires s.db.topHeight + 1 < TWO_64
  {
    var (v, r) := ApplyDeposit(s.vault, p.depositBps, a.gross);
    if r.Refused? then Failed(s.(vault := v)) else
    match DepositSections(p, r.value, a)
    case None => Failed(s.(vault := v))
    case Some(sections) =>
      var mined := MineBlock(p, s, a.timestamp, sections);
      var b := mined.(header := Cosign(p.k, mined.header, a.cosigners));
      if p.authorized != [] && Quorum(p.k, b.header, p.authorized) < RequiredQuorum(p) then Failed(s)
      else LocalResult.Mined(Append(p, s, b), b)
  }

  // Choosing decoys

  /** The distinct destinations of the pool other than `own`, of the wanted amount unless that is 0. */
  function Candidates(pool: seq<OneTimeOutput>, own: Key256, target: U64): seq<Key256> {
    if pool == [] then [] else
    var c, o := Candidates(pool[..|pool| - 1], own, target), pool[|pool| - 1];
    if (target > 0 && o.amount != target) || o.destination == own || o.destination in c then c else c + [o.destination]
  }

  function Swap<T>(s: seq<T>, i: nat, j: nat): seq<T>
    requires i < |s| && j < |s|
  {
    s[i := s[j]][j := s[i]]
  }

  /** Fisher-Yates from index i down; pick(i) is the random number drawn below i + 1. */
  function Shuffle<T>(s: seq<T>, i: nat, pick: nat -> nat): (r: seq<T>)
    requires i < |s| || i == 0
    ensures |r| == |s|
    decreases i
  {
    if i == 0 then s else Shuffle(Swap(s, i, pick(i) % (i + 1)), i - 1, pick)
  }

  function SelectDecoys(pool: seq<OneTimeOutput>, ringSize: nat, own: Key256, target: U64, pick: nat -> nat): seq<Key256> {
    var c := Candidates(pool, own, target);
    var shuffled := if c == [] then c else Shuffle(c, |c| - 1, pick);
    var wanted := if ringSize > 0 then ringSize - 1 else 0;
    shuffled[..if wanted < |shuffled| then wanted else |shuffled|]
  }

  const RING_SIZE: nat := 5

  /** The random choices of a transfer. */
  datatype TransferRandom = TransferRandom(pick: nat -> nat, position: nat, r1: Key256, r2: Key256, alpha: Key256, draw: nat -> Key256)

  datatype TransferArgs = TransferArgs(
    wallet: Stealth.Wallet, input: OneTimeOutput, to: Stealth.Address, send: U64, fee: U64, timestamp: U64, rnd: TransferRandom)

  function Draws(draw: nat -> Key256, n: nat): (r: seq<Key256>)
    ensures |r| == n
  {
    seq<Key256>(n, draw)
  }

  function RingOf(s: NodeState, a: TransferArgs): (seq<Key256>, nat) {
    var decoys := SelectDecoys(s.pool, RING_SIZE, a.input.destination, a.input.amount, a.rnd.pick);
    var at := a.rnd.position % (|decoys| + 1);
    (decoys[..at] + [a.input.destination] + decoys[at..], at)
  }

  /** The recipient's output, and the change if there is any. */
  function TransferOutputs(k: Curve, a: TransferArgs): Option<seq<OneTimeOutput>>
    requires a.send + a.fee <= a.input.amount
  {
    match Stealth.CreateOutput(k, a.to, a.send, a.rnd.r1) case None => None case Some(out) =>
      var change := a.input.amount - a.send - a.fee;
      if change == 0 then Some([out]) else
      match Stealth.CreateOutput(k, a.wallet.Public(), change, a.rnd.r2) case None => None case Some(back) => Some([out, back])
  }

  const TRANSFER_TIMESTAMP: Text :=
    [50, 48, 50, 54, 45, 48, 57, 45, 49, 49, 32, 50, 48, 58, 48, 48, 58, 48, 48, 32, 85, 84, 67]

  /** The transaction a transfer builds; None where the source throws before changing anything. */
  ghost function BuildTransfer(p: Params, s: NodeState, a: TransferArgs): Option<ShieldedTransaction> {
    if !Stealth.ScanOutput(p.k, a.wallet, a.input) then None else
    if a.send + a.fee >= TWO_64 || a.input.amount < a.send + a.fee then None else
    if a.input !in s.pool then None else
    match Stealth.DerivePrivateKey(p.k, a.wallet, a.input) case None => None case Some(x) =>
      match Ring.KeyImageOf(p.k, x, a.input.destination) case None => None case Some(image) =>
        if IsSpent(p.k, s, image) then None else
        match TransferOutputs(p.k, a) case None => None case Some(outs) =>
          var (ring, at) := RingOf(s, a);
          var txHash := Ring.CanonicalTxHash(p.k, outs, a.fee, ring, image);
          match Ring.Sign(p.k, txHash, ring, at, x, a.rnd.alpha, Draws(a.rnd.draw, |ring|)) case None => None case Some(sig) =>
            if !Ring.Verify(p.k, txHash, sig) then None else
            Some(ShieldedTransaction(txHash, sig, outs, a.fee, TRANSFER_TIMESTAMP))
  }

  ghost function Transfer(p: Params, s: NodeState, a: TransferArgs): LocalResult
    requires s.db.topHeight + 1 < TWO_64
  {
    match BuildTransfer(p, s, a)
    case None => Failed(s)
    case Some(tx) =>
      var b := MineBlock(p, s, a.timestamp, Block(NO_HEADER, [tx], [], [], [], []));
      LocalResult.Mined(Append(p, s, b), b)
  }

  datatype WithdrawArgs = WithdrawArgs(
    wallet: Stealth.Wallet, input: OneTimeOutput, tokens: U64, destination: Text, timestamp: U64,
    orderBytes: Bytes, r: Key256, alpha: Key256)

  /** The checks made before the vault is touched; the private key and the key image. */
  function WithdrawKeys(p: Params, s: NodeState, a: WithdrawArgs): Option<(Key256, KeyImage)> {
    if !ValidEvmAddress(a.destination) || !Stealth.ScanOutput(p.k, a.wallet, a.input) then None else
    if a.input.amount < a.tokens || a.input !in s.pool then None else
    match Stealth.DerivePrivateKey(p.k, a.wallet, a.input) case None => None case Some(x) =>
      match Ring.KeyImageOf(p.k, x, a.input.destination) case None => None case Some(image) =>
        if IsSpent(p.k, s, image) then None else Some((x, image))
  }

  function WithdrawChange(k: Curve, a: WithdrawArgs): Option<seq<OneTimeOutput>>
    requires a.tokens <= a.input.amount
  {
    var change := a.input.amount - a.tokens;
    if change == 0 then Some([]) else
    match Stealth.CreateOutput(k, a.wallet.Public(), change, a.r) case None => None case Some(out) => Some([out])
  }

  function ChangeKey(outs: seq<OneTimeOutput>): Key256 {
    if outs == [] then ZERO_KEY else outs[0].destination
  }

  function WithdrawSections(p: Params, a: WithdrawArgs, split: Split, x: Key256, outs: seq<OneTimeOutput>): Option<Block>
    requires |a.orderBytes| == 16
  {
    var orderId: Text := ORD + ToHex(a.orderBytes);
    var m := Ring.BurnMessage(p.k, orderId, a.tokens, a.destination, ChangeKey(outs));
    match Ring.SignBurn(p.k, m, a.input.destination, x, a.alpha) case None => None case Some(proof) =>
      Some(Block(NO_HEADER, [], [], [WithdrawalReceipt(a.tokens, split.fee, split.net, orderId, a.destination,
        proof.keyImage, a.input.destination, proof.c0, proof.s, ChangeKey(outs))], [], outs))
  }

  /** `withdraw_shielded`. An exception after the burn leaves the vault, and possibly the
      pool, of the memory changed. */
  ghost function Withdraw(p: Params, s: NodeState, a: WithdrawArgs): LocalResult
    requires s.db.topHeight + 1 < TWO_64 && |a.orderBytes| == 16
  {
    match WithdrawKeys(p, s, a)
    case None => Failed(s)
    case Some((x, image)) =>
      var (v, r) := ApplyWithdrawal(s.vault, p.withdrawBps, a.tokens);
      if r.Refused? then Failed(s.(vault := v)) else
      match WithdrawChange(p.k, a)
      case None => Failed(s.(vault := v))
      case Some(outs) =>
        match WithdrawSections(p, a, r.value, x, outs)
        case None => Failed(s.(vault := v, pool := s.pool + outs))
        case Some(sections) =>
          var b := MineBlock(p, s, a.timestamp, sections);
          LocalResult.Mined(Append(p, s, b), b)
  }

  /** What `submit_pre_signed_transaction` demands. */
  ghost predicate SubmitOk(p: Params, s: NodeState, tx: ShieldedTransaction) {
    var total := tx.publicFee + SumAmounts(tx.outputs);
    && p.k.valid(tx.ringSig.keyImage) && Ring.TorsionOk(p.k, tx.ringSig.keyImage)
    && !IsSpent(p.k, s, tx.ringSig.keyImage)
    && (forall i :: 0 <= i < |tx.ringSig.ring| ==> p.k.valid(tx.ringSig.ring[i]))
    && NoDup(tx.ringSig.ring)
    && Positive(tx.outputs) && total < TWO_64 && RingMembersOk(s.pool, tx.ringSig.ring, total)
    && tx.txHash == Ring.CanonicalTxHash(p.k, tx.outputs, tx.publicFee, tx.ringSig.ring, tx.ringSig.keyImage)
    && Ring.Verify(p.k, tx.txHash, tx.ringSig)
  }

  ghost function Submit(p: Params, s: NodeState, tx: ShieldedTransaction, timestamp: U64): LocalResult
    requires s.db.topHeight + 1 < TWO_64
  {
    if !SubmitOk(p, s, tx) then Failed(s) else
    var b := MineBlock(p, s, timestamp, Block(NO_HEADER, [tx], [], [], [], []));
    LocalResult.Mined(Append(p, s, b), b)
  }

  /** `claim_treasury_fees`: not recorded in any block. */
  function ClaimFees(s: NodeState, amount: U64, destination: Text): (NodeState, bool) {
    var (v, r) := ApplyClaim(s.vault, amount, destination);
    if r.Refused? then (s.(vault := v), false)
    else (s.(vault := v, db := s.db.(tables := s.db.tables.(vault := Some(v)))), true)
  }
}
