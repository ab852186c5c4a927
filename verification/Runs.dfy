/** Every public operation of a node as one step (the node mutex), and what whole runs of
    steps keep (src/node.cpp). */
module Runs {
  import opened Types
  import opened Sequences
  import opened CurveModel
  import opened HeaderModel
  import opened VaultModel
  import opened DbModel
  import opened Ledger
  import opened Chain
  import opened Agreement
  import opened Atomicity
  import Ring
  import Stealth

  datatype Op =
    | OpRemote(block: Block)
    | OpBuy(buy: BuyArgs)
    | OpTransfer(transfer: TransferArgs)
    | OpWithdraw(withdraw: WithdrawArgs)
    | OpSubmit(tx: ShieldedTransaction, timestamp: U64)
    | OpClaimFees(amount: U64, destination: Text)
    | OpRestart

  /** The operation can be called: heights stay within u64 and an order id has 16 bytes. */
  predicate Callable(s: NodeState, op: Op) {
    && (op.OpBuy? || op.OpTransfer? || op.OpWithdraw? || op.OpSubmit? ==> s.db.topHeight + 1 < TWO_64)
    && (op.OpWithdraw? ==> |op.withdraw.orderBytes| == 16)
  }

  predicate IsLocal(op: Op) {
    op.OpBuy? || op.OpTransfer? || op.OpWithdraw? || op.OpSubmit?
  }

  ghost function Local(p: Params, s: NodeState, op: Op): LocalResult
    requires Callable(s, op) && IsLocal(op)
  {
    match op
    case OpBuy(a) => Buy(p, s, a)
    case OpTransfer(a) => Transfer(p, s, a)
    case OpWithdraw(a) => Withdraw(p, s, a)
    case OpSubmit(tx, ts) => Submit(p, s, tx, ts)
  }

  ghost function Step(p: Params, s: NodeState, op: Op): NodeState
    requires Callable(s, op)
  {
    match op
    case OpRemote(b) => ApplyRemote(p, s, b).0
    case OpClaimFees(amount, dest) => ClaimFees(s, amount, dest).0
    case OpRestart => Restart(p, s.db.tables)
    case _ => Local(p, s, op).state
  }

  // ---- What local operations commit ----

  /** An exception after the vault has moved: the derivation of an output, or the burn proof,
      fails after the deposit or the withdrawal has been booked in memory. */
  ghost predicate Interrupted(p: Params, s: NodeState, op: Op) {
    match op
    case OpBuy(a) =>
      var r := ApplyDeposit(s.vault, p.depositBps, a.gross).1;
      r.Done? && DepositSections(p, r.value, a).None?
    case OpWithdraw(a) => |a.orderBytes| == 16 && WithdrawInterrupted(p, s, a)
    case _ => false
  }

  ghost predicate WithdrawInterrupted(p: Params, s: NodeState, a: WithdrawArgs)
    requires |a.orderBytes| == 16
  {
    var keys := WithdrawKeys(p, s, a);
    && keys.Some?
    && var r := ApplyWithdrawal(s.vault, p.withdrawBps, a.tokens).1;
    && r.Done?
    && var outs := WithdrawChange(p.k, a);
    (outs.None? || WithdrawSections(p, a, r.value, keys.value.0, outs.value).None?)
  }

  /** The block sits on the tip, moves the vault, and spends only fresh images. */
  ghost predicate Sits(p: Params, s: NodeState, b: Block) {
    && b.header.height == s.db.topHeight + 1 && b.header.prevHash == s.db.topHash
    && NextVault(p, s, b).Some?
    && NoDup(CanonicalAll(p.k, Spends(b)))
    && (forall image :: image in Spends(b) ==> !IsSpent(p.k, s, image))
  }

  lemma CosignKeeps(k: Curve, h: Header, sks: seq<Sig64>)
    requires |h.quorumKeys| == |h.quorumSigs|
    ensures var r := Cosign(k, h, sks);
      r.(quorumKeys := h.quorumKeys, quorumSigs := h.quorumSigs) == h
  {
  }

  lemma OneImage(k: Curve, image: KeyImage)
    ensures NoDup(CanonicalAll(k, [image])) && NoDup(CanonicalAll(k, []))
  {
  }

  /** The header of a mined block, before or after the cosigners. */
  lemma MinedHeader(p: Params, s: NodeState, timestamp: U64, sections: Block, cosigners: seq<Sig64>)
    requires s.db.topHeight + 1 < TWO_64
    ensures var h := Cosign(p.k, MineBlock(p, s, timestamp, sections).header, cosigners);
      h.height == s.db.topHeight + 1 && h.prevHash == s.db.topHash
  {
    CosignKeeps(p.k, MineBlock(p, s, timestamp, sections).header, cosigners);
  }

  lemma OneDeposit(v: Balances, bps: U32, w: U32, d: DepositReceipt, b: Block)
    requires b.deposits == [d] && b.withdrawals == []
    ensures VaultAfter(bps, w, v, b) ==
      var (u, r) := ApplyDeposit(v, bps, d.gross); if r.Done? then Some(u) else None
  {
    assert b.deposits[..0] == [];
    assert DepositAll(v, bps, b.deposits[..0]) == Some(v);
  }

  lemma OneWithdrawal(v: Balances, bps: U32, w: U32, d: WithdrawalReceipt, b: Block)
    requires b.deposits == [] && b.withdrawals == [d]
    ensures VaultAfter(bps, w, v, b) ==
      var (u, r) := ApplyWithdrawal(v, w, d.gross); if r.Done? then Some(u) else None
  {
    assert b.withdrawals[..0] == [];
    assert WithdrawAll(v, w, b.withdrawals[..0]) == Some(v);
  }

  lemma DepositSits(p: Params, s: NodeState, b: Block, d: DepositReceipt)
    requires b.deposits == [d] && b.withdrawals == [] && b.txs == []
    requires b.header.height == s.db.topHeight + 1 && b.header.prevHash == s.db.topHash
    requires ApplyDeposit(s.vault, p.depositBps, d.gross).1.Done?
    ensures Sits(p, s, b) && NextVault(p, s, b) == Some(ApplyDeposit(s.vault, p.depositBps, d.gross).0)
  {
    OneDeposit(s.vault, p.depositBps, p.withdrawBps, d, b);
    assert Spends(b) == [];
    OneImage(p.k, ZERO_KEY);
  }

  lemma BuyMines(p: Params, s: NodeState, a: BuyArgs)
    requires Solvent(s.vault) && s.db.topHeight + 1 < TWO_64
    ensures match Buy(p, s, a)
      case Mined(t, b) => t == Append(p, s, b) && Sits(p, s, b)
      case Failed(t) => t == s <==> !Interrupted(p, s, OpBuy(a))
  {
    hide Append, NextHeader, HeaderModel.Sign, Sits, FeeCalc;
    var (v, r) := ApplyDeposit(s.vault, p.depositBps, a.gross);
    DepositOnSolvent(s.vault, p.depositBps, a.gross);
    if r.Done? {
      var sections := DepositSections(p, r.value, a);
      if sections.Some? {
        var mined := MineBlock(p, s, a.timestamp, sections.value);
        MinedHeader(p, s, a.timestamp, sections.value, a.cosigners);
        var b := mined.(header := Cosign(p.k, mined.header, a.cosigners));
        DepositSits(p, s, b, b.deposits[0]);
      }
    }
  }

  /** A block of one transaction whose image is unspent. */
  lemma TransactionSits(p: Params, s: NodeState, b: Block, tx: ShieldedTransaction)
    requires b.deposits == [] && b.withdrawals == [] && b.txs == [tx]
    requires b.header.height == s.db.topHeight + 1 && b.header.prevHash == s.db.topHash
    requires !IsSpent(p.k, s, tx.ringSig.keyImage)
    ensures Sits(p, s, b) && NextVault(p, s, b) == Some(s.vault)
  {
    assert Spends(b) == [tx.ringSig.keyImage];
    OneImage(p.k, tx.ringSig.keyImage);
  }

  lemma WithdrawalSits(p: Params, s: NodeState, b: Block, w: WithdrawalReceipt)
    requires b.deposits == [] && b.withdrawals == [w] && b.txs == []
    requires b.header.height == s.db.topHeight + 1 && b.header.prevHash == s.db.topHash
    requires !IsSpent(p.k, s, w.keyImage) && ApplyWithdrawal(s.vault, p.withdrawBps, w.gross).1.Done?
    ensures Sits(p, s, b) && NextVault(p, s, b) == Some(ApplyWithdrawal(s.vault, p.withdrawBps, w.gross).0)
  {
    OneWithdrawal(s.vault, p.depositBps, p.withdrawBps, w, b);
    assert Spends(b) == [w.keyImage];
    OneImage(p.k, w.keyImage);
  }

  lemma TransferMines(p: Params, s: NodeState, a: TransferArgs)
    requires s.db.topHeight + 1 < TWO_64
    ensures match Transfer(p, s, a)
      case Mined(t, b) => t == Append(p, s, b) && Sits(p, s, b)
      case Failed(t) => t == s
  {
    match BuildTransfer(p, s, a)
    case None =>
    case Some(tx) =>
      var sections := Block(NO_HEADER, [tx], [], [], [], []);
      MinedHeader(p, s, a.timestamp, sections, []);
      TransferPays(p, s, a);
      TransactionSits(p, s, MineBlock(p, s, a.timestamp, sections), tx);
  }

  /** A transfer spends an owned output of the pool, publishes the image it has looked up
      and pays out the outputs it has created. */
  ghost predicate Pays(p: Params, s: NodeState, a: TransferArgs, tx: ShieldedTransaction) {
    && Stealth.ScanOutput(p.k, a.wallet, a.input) && a.input in s.pool && a.send + a.fee <= a.input.amount
    && !IsSpent(p.k, s, tx.ringSig.keyImage)
    && DerivedImage(p.k, a.wallet, a.input) == Some(tx.ringSig.keyImage)
    && TransferOutputs(p.k, a) == Some(tx.outputs) && tx.publicFee == a.fee
  }

  lemma TransferPays(p: Params, s: NodeState, a: TransferArgs)
    requires BuildTransfer(p, s, a).Some?
    ensures Pays(p, s, a, BuildTransfer(p, s, a).value)
  {
    var (ring, at) := RingOf(s, a);
    assert ring[at] == a.input.destination;
  }

  function DerivedImage(k: Curve, w: Stealth.Wallet, input: OneTimeOutput): Option<KeyImage> {
    match Stealth.DerivePrivateKey(k, w, input) case None => None case Some(x) => Ring.KeyImageOf(k, x, input.destination)
  }

  lemma WithdrawMines(p: Params, s: NodeState, a: WithdrawArgs)
    requires Solvent(s.vault) && s.db.topHeight + 1 < TWO_64 && |a.orderBytes| == 16
    ensures match Withdraw(p, s, a)
      case Mined(t, b) => t == Append(p, s, b) && Sits(p, s, b)
      case Failed(t) => t == s <==> !Interrupted(p, s, Op.OpWithdraw(a))
  {
    var keys := WithdrawKeys(p, s, a);
    if keys.Some? {
      WithdrawOnSolvent(s.vault, p.withdrawBps, a.tokens);
      var r := ApplyWithdrawal(s.vault, p.withdrawBps, a.tokens).1;
      if r.Done? && !WithdrawInterrupted(p, s, a) {
        var outs := WithdrawChange(p.k, a).value;
        var sections := WithdrawSections(p, a, r.value, keys.value.0, outs).value;
        MinedHeader(p, s, a.timestamp, sections, []);
        WithdrawalSits(p, s, MineBlock(p, s, a.timestamp, sections), sections.withdrawals[0]);
      }
    }
  }

  /** The parts of a withdrawal block as the mining node builds it. */
  ghost predicate Burns(p: Params, s: NodeState, a: WithdrawArgs, b: Block) {
    && |b.withdrawals| == 1 && a.input in s.pool && a.tokens <= a.input.amount
    && var w, outs := b.withdrawals[0], b.withdrawalOutputs;
    && w.gross == a.tokens > 0 && FeeCalc(w.gross, p.withdrawBps) == Some(w.fee) && w.net == w.gross - w.fee
    && ValidEvmAddress(w.destination) && w.burnedKey == a.input.destination
    && !IsSpent(p.k, s, w.keyImage) && w.changeKey == ChangeKey(outs)
    && if a.tokens == a.input.amount then outs == [] else |outs| == 1 && outs[0].amount == a.input.amount - a.tokens
  }

  /** The proof is one made with the derived key. */
  ghost predicate Proves(k: Curve, a: WithdrawArgs, w: WithdrawalReceipt) {
    && Stealth.ScanOutput(k, a.wallet, a.input) && w.burnedKey == a.input.destination
    && var x := Stealth.DerivePrivateKey(k, a.wallet, a.input);
    x.Some? && Ring.SignBurn(k, BurnMessageOf(k, w), w.burnedKey, x.value, a.alpha) == Some(Ring.BurnProof(w.keyImage, w.burnC0, w.burnS))
  }

  lemma WithdrawalSplit(b: Balances, bps: U32, tokens: U64)
    requires ApplyWithdrawal(b, bps, tokens).1.Done?
    ensures var split := ApplyWithdrawal(b, bps, tokens).1.value;
      tokens > 0 && FeeCalc(tokens, bps) == Some(split.fee) && split.net == tokens - split.fee
  {
  }

  lemma SectionsBurn(p: Params, s: NodeState, a: WithdrawArgs, split: Split)
    requires |a.orderBytes| == 16 && WithdrawKeys(p, s, a).Some? && WithdrawChange(p.k, a).Some?
    requires a.tokens > 0 && FeeCalc(a.tokens, p.withdrawBps) == Some(split.fee) && split.net == a.tokens - split.fee
    requires WithdrawSections(p, a, split, WithdrawKeys(p, s, a).value.0, WithdrawChange(p.k, a).value).Some?
    ensures var b := WithdrawSections(p, a, split, WithdrawKeys(p, s, a).value.0, WithdrawChange(p.k, a).value).value;
      Burns(p, s, a, b) && Proves(p.k, a, b.withdrawals[0])
  {
  }

  lemma WithdrawBurns(p: Params, s: NodeState, a: WithdrawArgs)
    requires Solvent(s.vault) && s.db.topHeight + 1 < TWO_64 && |a.orderBytes| == 16 && Withdraw(p, s, a).Mined?
    ensures var b := Withdraw(p, s, a).block;
      && Burns(p, s, a, b) && Proves(p.k, a, b.withdrawals[0])
      && b.txs == [] && b.deposits == [] && b.depositOutputs == []
  {
    hide Burns, Proves;
    var split := ApplyWithdrawal(s.vault, p.withdrawBps, a.tokens).1.value;
    var sections := WithdrawSections(p, a, split, WithdrawKeys(p, s, a).value.0, WithdrawChange(p.k, a).value).value;
    WithdrawalSplit(s.vault, p.withdrawBps, a.tokens);
    SectionsBurn(p, s, a, split);
    var b := Withdraw(p, s, a).block;
    assert sections.(header := b.header) == b;
    BurnsAnyHeader(p, s, a, sections, b);
  }

  lemma BurnsAnyHeader(p: Params, s: NodeState, w: WithdrawArgs, a: Block, b: Block)
    requires Burns(p, s, w, a) && a.(header := b.header) == b
    ensures Burns(p, s, w, b)
  {
  }

  lemma SubmitMines(p: Params, s: NodeState, tx: ShieldedTransaction, timestamp: U64)
    requires s.db.topHeight + 1 < TWO_64
    ensures match Submit(p, s, tx, timestamp)
      case Mined(t, b) => t == Append(p, s, b) && Sits(p, s, b)
      case Failed(t) => t == s
  {
    if SubmitOk(p, s, tx) {
      var sections := Block(NO_HEADER, [tx], [], [], [], []);
      MinedHeader(p, s, timestamp, sections, []);
      TransactionSits(p, s, MineBlock(p, s, timestamp, sections), tx);
    }
  }

  /** A local operation mines a block that sits on the tip, or fails; a failure changes
      nothing if and only if it was not raised after the vault had moved. */
  lemma LocalOutcome(p: Params, s: NodeState, op: Op)
    requires Solvent(s.vault) && Callable(s, op) && IsLocal(op)
    ensures match Local(p, s, op)
      case Mined(t, b) => t == Append(p, s, b) && Sits(p, s, b)
      case Failed(t) => t == s <==> !Interrupted(p, s, op)
  {
    match op
    case OpBuy(a) => BuyMines(p, s, a);
    case OpTransfer(a) => TransferMines(p, s, a);
    case OpWithdraw(a) => WithdrawMines(p, s, a);
    case OpSubmit(tx, ts) => SubmitMines(p, s, tx, ts);
    case _ =>
  }

  // ---- One step ----

  /** The state and the block that the operation commits on it. */
  ghost function Commits(p: Params, s: NodeState, op: Op): Option<(NodeState, Block)>
    requires Callable(s, op)
  {
    match op
    case OpRemote(b) => var (t, ok) := ApplyRemote(p, s, b); if ok && t != s then Some((Base(p, s, b), b)) else None
    case OpClaimFees(_, _) => None
    case OpRestart => None
    case _ => match Local(p, s, op) case Mined(_, b) => Some((s, b)) case Failed(_) => None
  }

  /** One-time keys are fresh, block hashes do not repeat. */
  ghost predicate NewNames(k: Curve, t: Tables, b: Block) {
    && BlockHash(k, b) !in t.index
    && NoDup(Destinations(NewOutputs(b))) && Elements(Destinations(NewOutputs(b))) !! t.utxos.Keys
  }

  /** What is assumed of an operation: fresh names, a block that its bytes give back, a deposit
      id its handler has checked, and no exception between the vault and the commit. */
  ghost predicate Tidy(p: Params, s: NodeState, op: Op) {
    && Callable(s, op) && !Interrupted(p, s, op)
    && match Commits(p, s, op)
       case None => true
       case Some((base, b)) =>
         && NewNames(p.k, base.db.tables, b) && Storable(p.k, b)
         && (op.OpBuy? ==> DepositIds(b.deposits) !! base.db.tables.deposits.Keys)
  }

  /** It is tidy, and a rollback's replay runs. */
  ghost predicate Careful(p: Params, s: NodeState, c: seq<Block>, op: Op) {
    Tidy(p, s, op) && (op.OpRemote? && Reorgs(p, s, op.block) ==> ReplayRuns(p.k, c))
  }

  ghost function NextChain(p: Params, s: NodeState, c: seq<Block>, op: Op): seq<Block>
    requires Callable(s, op) && c != []
  {
    match Commits(p, s, op)
    case None => c
    case Some((_, b)) => (if op.OpRemote? then BaseChain(p, s, b, c) else c) + [b]
  }

  lemma SitsExtends(p: Params, s: NodeState, c: seq<Block>, b: Block)
    requires Held(p.k, s, c) && Sits(p, s, b) && NewNames(p.k, s.db.tables, b)
    requires DepositIds(b.deposits) !! s.db.tables.deposits.Keys
    ensures Extends(p.k, c, b)
  {
    var t, images := s.db.tables, CanonicalAll(p.k, Spends(b));
    TablesOfChain(p.k, c, s.vault);
    forall x | x in Elements(images) ensures x !in t.images {
      var i :| 0 <= i < |images| && images[i] == x;
      assert Spends(b)[i] in Spends(b);
    }
    FreshAnyVault(p.k, c, b, s.vault, EMPTY_VAULT);
  }

  lemma ValidSits(p: Params, s: NodeState, b: Block)
    requires ValidBlock(p, s, b)
    ensures Sits(p, s, b) && DepositIds(b.deposits) !! s.db.tables.deposits.Keys
  {
    forall image | image in Spends(b) ensures !IsSpent(p.k, s, image) {
      var i :| 0 <= i < |Spends(b)| && Spends(b)[i] == image;
      if i < |b.txs| { assert TxOk(p, s, b.header.height, b.txs[i]); }
      else { assert WithdrawalOk(p, s, b.withdrawals[i - |b.txs|]); }
    }
  }

  lemma CommitKeeps(p: Params, s: NodeState, c: seq<Block>, b: Block)
    requires Inv(p.k, s, c) && Sits(p, s, b) && NewNames(p.k, s.db.tables, b) && Storable(p.k, b)
    requires DepositIds(b.deposits) !! s.db.tables.deposits.Keys
    ensures Inv(p.k, Append(p, s, b), c + [b]) && Append(p, s, b).vault == NextVault(p, s, b).value
  {
    SitsExtends(p, s, c, b);
    AppendKeeps(p, s, c, b);
  }

  lemma ClaimKeeps(p: Params, s: NodeState, c: seq<Block>, amount: U64, dest: Text)
    requires Inv(p.k, s, c)
    ensures Inv(p.k, ClaimFees(s, amount, dest).0, c)
    ensures ClaimFees(s, amount, dest).0.vault.circulating == s.vault.circulating
  {
    ClaimOnSolvent(s.vault, amount, dest);
    VaultRecord(p.k, c, s.vault, ClaimFees(s, amount, dest).0.vault);
  }

  /** What a remote block does to the chain: nothing, or it is appended to its base. */
  ghost predicate RemoteSteps(p: Params, s: NodeState, c: seq<Block>, b: Block, t: NodeState)
    requires c != []
  {
    match Commits(p, s, OpRemote(b))
    case None => Inv(p.k, t, c) && Same(t, s) && NextChain(p, s, c, OpRemote(b)) == c
    case Some((base, b')) =>
      && base == Base(p, s, b) && b' == b && TakenIn(p, s, b, t)
      && NextChain(p, s, c, OpRemote(b)) == BaseChain(p, s, b, c) + [b]
  }

  lemma RemoteStep(p: Params, s: NodeState, c: seq<Block>, b: Block)
    requires c != [] && Inv(p.k, s, c) && (Reorgs(p, s, b) ==> ReplayRuns(p.k, c))
    ensures RemoteSteps(p, s, c, b, ApplyRemote(p, s, b).0)
  {
    hide ApplyRemote, Inv, Base, BaseChain, TakenIn, Reorgs, ReplayRuns;
    RemoteOutcome(p, s, b, c);
  }

  lemma ChainNotEmpty(k: Curve, s: NodeState, c: seq<Block>)
    requires Inv(k, s, c)
    ensures c != []
  {
  }

  lemma RemoteKeeps(p: Params, s: NodeState, c: seq<Block>, b: Block)
    requires Inv(p.k, s, c) && Careful(p, s, c, OpRemote(b))
    ensures Inv(p.k, Step(p, s, OpRemote(b)), NextChain(p, s, c, OpRemote(b)))
  {
    hide ApplyRemote, Inv, Base, BaseChain, Reorgs, ReplayRuns, Sits, NewNames, Storable, ValidBlock, Append;
    ChainNotEmpty(p.k, s, c);
    RemoteStep(p, s, c, b);
    if Commits(p, s, OpRemote(b)).Some? {
      BaseHolds(p, s, b, c);
      ChainNotEmpty(p.k, Base(p, s, b), BaseChain(p, s, b, c));
      ValidSits(p, Base(p, s, b), b);
      CommitKeeps(p, Base(p, s, b), BaseChain(p, s, b, c), b);
    }
  }

  lemma StepKeeps(p: Params, s: NodeState, c: seq<Block>, op: Op)
    requires Inv(p.k, s, c) && Careful(p, s, c, op)
    ensures Inv(p.k, Step(p, s, op), NextChain(p, s, c, op))
  {
    hide Inv, ApplyRemote, Restart, ClaimFees, Local, Reorgs, NewNames, Storable, Interrupted;
    match op
    case OpRemote(b) => RemoteKeeps(p, s, c, b);
    case OpClaimFees(amount, dest) => ClaimKeeps(p, s, c, amount, dest);
    case OpRestart => RestartKeeps(p, s, c);
    case _ => LocalKeeps(p, s, c, op);
  }

  lemma LocalKeeps(p: Params, s: NodeState, c: seq<Block>, op: Op)
    requires Inv(p.k, s, c) && Careful(p, s, c, op) && IsLocal(op)
    ensures Inv(p.k, Step(p, s, op), NextChain(p, s, c, op))
  {
    hide Local, Append, Sits, NewNames, Storable, Interrupted, Readable, DbOf, ChainOk, Reorgs, ReplayRuns;
    LocalOutcome(p, s, op);
    if Local(p, s, op).Mined? {
      var b := Local(p, s, op).block;
      if !op.OpBuy? { OnlyBuysDeposit(p, s, op); }
      CommitKeeps(p, s, c, b);
    }
  }

  lemma OnlyBuysDeposit(p: Params, s: NodeState, op: Op)
    requires Callable(s, op) && IsLocal(op) && !op.OpBuy? && Local(p, s, op).Mined?
    ensures DepositIds(Local(p, s, op).block.deposits) == {}
  {
  }

  // ---- Whole runs ----

  ghost predicate CarefulRun(p: Params, s: NodeState, c: seq<Block>, ops: seq<Op>)
    decreases |ops|
  {
    ops != [] ==> c != [] && Careful(p, s, c, ops[0])
                  && CarefulRun(p, Step(p, s, ops[0]), NextChain(p, s, c, ops[0]), ops[1..])
  }

  /** The state and the chain after a run. */
  ghost function RunOps(p: Params, s: NodeState, c: seq<Block>, ops: seq<Op>): (NodeState, seq<Block>)
    requires CarefulRun(p, s, c, ops)
    decreases |ops|
  {
    if ops == [] then (s, c) else RunOps(p, Step(p, s, ops[0]), NextChain(p, s, c, ops[0]), ops[1..])
  }

  /** Along every run memory, tables and chain agree. */
  lemma {:induction false} RunKeeps(p: Params, s: NodeState, c: seq<Block>, ops: seq<Op>)
    requires Inv(p.k, s, c) && CarefulRun(p, s, c, ops)
    ensures var (t, d) := RunOps(p, s, c, ops); Inv(p.k, t, d)
    decreases |ops|
  {
    hide Step, Commits, Inv, Interrupted, Reorgs, ReplayRuns, BaseChain;
    if ops != [] {
      StepKeeps(p, s, c, ops[0]);
      RunKeeps(p, Step(p, s, ops[0]), NextChain(p, s, c, ops[0]), ops[1..]);
    }
  }

  /** The ledger in memory is the key-image table, and both are the canonical images of the
      chain's spends, each exactly once. */
  ghost predicate SpentOnce(k: Curve, s: NodeState, c: seq<Block>) {
    && s.spent == s.db.tables.images.Keys == Elements(SpentImages(k, c))
    && NoDup(SpentImages(k, c))
    && forall image :: IsSpent(k, s, image) <==> Canonical(k, image) in SpentImages(k, c)
  }

  lemma InvSpentOnce(k: Curve, s: NodeState, c: seq<Block>)
    requires Held(k, s, c)
    ensures SpentOnce(k, s, c)
  {
    TablesOfChain(k, c, s.vault);
    NothingTwice(k, c);
  }

  /** An image shifted by a point that 8 annihilates is spent exactly when the image is. */
  lemma TorsionIsNoEscape(p: Params, g: Group, s: NodeState, image: KeyImage, torsion: Key256)
    requires Lawful(p.k, g) && g.el(image) && g.el(torsion) && g.times(8, torsion) == g.zero
    requires Doubles(p.k, image) && Doubles(p.k, g.plus(image, torsion))
    ensures IsSpent(p.k, s, g.plus(image, torsion)) <==> IsSpent(p.k, s, image)
  {
    TorsionInvariance(p.k, g, image, torsion);
  }

  /** After a careful run from an empty store, restarts and reorganisations included, no image
      occurs twice in the whole chain. Spending.NoDoubleSpend speaks of every run. */
  lemma ChainSpendsOnce(p: Params, s: NodeState, ops: seq<Op>)
    requires s == Restart(p, EMPTY_TABLES) && CarefulRun(p, s, [GENESIS], ops)
    ensures var (t, d) := RunOps(p, s, [GENESIS], ops); SpentOnce(p.k, t, d)
  {
    hide CarefulRun, RunOps, SpentOnce, Restart, Readable, DbOf, ChainOk;
    FirstStart(p);
    var c := [GENESIS];
    RunKeeps(p, s, c, ops);
    var (t, d) := RunOps(p, s, c, ops);
    InvSpentOnce(p.k, t, d);
  }
}
