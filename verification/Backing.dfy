/** Conservation along every run of a node: whatever mixture of deposits, transfers,
    withdrawals, submissions, remote blocks, reorganisations, claims and restarts, the
    unspent outputs and the accepted public fees amount to the vault's circulating supply. */
module Backing {
  import opened Types
  import opened Sequences
  import opened CurveModel
  import opened HeaderModel
  import opened VaultModel
  import opened DbModel
  import opened Ledger
  import opened Chain
  import opened Agreement
  import opened Atomicity
  import opened Runs
  import opened Coins
  import opened Conservation
  import opened Replaying
  import Ring
  import Stealth

  // ---- What is assumed of images ----

  /** An image made with a key that opens P is the image of P. */
  ghost predicate Linked(k: Curve, g: Group, img: Link) {
    forall x: Key256, pk: Key256 {:trigger Ring.KeyImageOf(k, x, pk)} ::
      Ring.Opens(g, x, pk) && Ring.KeyImageOf(k, x, pk).Some? ==> Canonical(k, Ring.KeyImageOf(k, x, pk).value) == img(pk)
  }

  /** Different keys have different images. */
  ghost predicate Injective(img: Link, outs: seq<OneTimeOutput>) {
    forall a, b :: a in outs && b in outs && img(a.destination) == img(b.destination) ==> a.destination == b.destination
  }

  /** The wallet's public keys are those of its private keys. */
  ghost predicate HonestWallet(k: Curve, g: Group, w: Stealth.Wallet, input: OneTimeOutput) {
    && Stealth.Keyed(g, w)
    && var shared := k.mul(w.viewPriv, input.ephemeral);
    (shared.Some? ==> k.baseOk(Stealth.SharedScalar(k, shared.value)))
  }

  lemma OwnerLinks(k: Curve, g: Group, img: Link, w: Stealth.Wallet, input: OneTimeOutput)
    requires Lawful(k, g) && Linked(k, g, img) && HonestWallet(k, g, w, input)
    requires Stealth.ScanOutput(k, w, input) && DerivedImage(k, w, input).Some?
    ensures Canonical(k, DerivedImage(k, w, input).value) == img(input.destination)
  {
    Stealth.ScannedKeyOpens(k, g, w, input);
  }

  lemma InjectiveDistinct(img: Link, outs: seq<OneTimeOutput>)
    requires NoDup(Destinations(outs)) && Injective(img, outs)
    ensures DistinctTags(CoinsOf(img, outs))
  {
    var d := Destinations(outs);
    forall i, j | 0 <= i < j < |outs| ensures img(outs[i].destination) != img(outs[j].destination) {
      assert d[i] != d[j];
    }
  }

  // ---- Mined blocks are balanced ----

  lemma DepositPays(p: Params, split: Split, a: BuyArgs)
    requires DepositSections(p, split, a).Some?
    ensures var b := DepositSections(p, split, a).value;
      b.depositOutputs[0].amount == split.net && b.deposits[0].gross == a.gross
  {
  }

  lemma BuyBalanced(p: Params, img: Link, s: NodeState, a: BuyArgs)
    requires s.db.topHeight + 1 < TWO_64 && Buy(p, s, a).Mined?
    ensures Balanced(p.k, p.depositBps, img, s.pool, Buy(p, s, a).block)
  {
    hide Cosign, HeaderModel.Sign, NextHeader, Quorum, Append, DepositSections;
    var b := Buy(p, s, a).block;
    var r := ApplyDeposit(s.vault, p.depositBps, a.gross).1;
    DepositPays(p, r.value, a);
    DepositsMint(p.depositBps, b.deposits, b.depositOutputs);
    AssembleBalanced(p.k, p.depositBps, img, s.pool, b);
  }

  lemma TransferAmounts(k: Curve, a: TransferArgs)
    requires a.send + a.fee <= a.input.amount && TransferOutputs(k, a).Some?
    ensures SumAmounts(TransferOutputs(k, a).value) + a.fee == a.input.amount
  {
    var outs := TransferOutputs(k, a).value;
    SumAmountsPush([], outs[0]);
    assert [] + [outs[0]] == [outs[0]];
    if |outs| == 2 {
      SumAmountsPush([outs[0]], outs[1]);
      assert outs == [outs[0]] + [outs[1]];
    } else {
      assert outs == [outs[0]];
    }
  }

  lemma OneTxBalanced(k: Curve, bps: U32, img: Link, pool: seq<OneTimeOutput>, b: Block, tx: ShieldedTransaction, coin: Coin<KeyImage>)
    requires b.txs == [tx] && b.deposits == [] && b.withdrawals == [] && b.depositOutputs == [] && b.withdrawalOutputs == []
    requires coin in CoinsOf(img, pool) && coin.tag == Canonical(k, tx.ringSig.keyImage)
    requires coin.amount == tx.publicFee + SumAmounts(tx.outputs)
    ensures Balanced(k, bps, img, pool, b)
  {
    assert b.txs[..0] == [] && TxOutputs(b.txs) == [] + tx.outputs == tx.outputs;
    NewAmounts(b);
    SumPush([], coin);
    assert [] + [coin] == [coin];
    assert Owners(k, img, pool, Spends(b), [coin]);
    assert Weighs(bps, b, [coin]);
  }

  lemma TransferBalanced(p: Params, g: Group, img: Link, s: NodeState, a: TransferArgs)
    requires Lawful(p.k, g) && Linked(p.k, g, img) && HonestWallet(p.k, g, a.wallet, a.input)
    requires s.db.topHeight + 1 < TWO_64 && Transfer(p, s, a).Mined?
    ensures Balanced(p.k, p.depositBps, img, s.pool, Transfer(p, s, a).block)
  {
    TransferPays(p, s, a);
    PaymentBalanced(p, g, img, s, a, Transfer(p, s, a).block, BuildTransfer(p, s, a).value);
  }

  lemma PaymentBalanced(p: Params, g: Group, img: Link, s: NodeState, a: TransferArgs, b: Block, tx: ShieldedTransaction)
    requires Lawful(p.k, g) && Linked(p.k, g, img) && HonestWallet(p.k, g, a.wallet, a.input)
    requires Pays(p, s, a, tx)
    requires b.txs == [tx] && b.deposits == [] && b.withdrawals == [] && b.depositOutputs == [] && b.withdrawalOutputs == []
    ensures Balanced(p.k, p.depositBps, img, s.pool, b)
  {
    OwnerLinks(p.k, g, img, a.wallet, a.input);
    TransferAmounts(p.k, a);
    var i :| 0 <= i < |s.pool| && s.pool[i] == a.input;
    OneTxBalanced(p.k, p.depositBps, img, s.pool, b, tx, CoinsOf(img, s.pool)[i]);
  }

  lemma WithdrawBalanced(p: Params, g: Group, img: Link, s: NodeState, a: WithdrawArgs)
    requires Lawful(p.k, g) && Linked(p.k, g, img) && HonestWallet(p.k, g, a.wallet, a.input)
    requires s.db.topHeight + 1 < TWO_64 && |a.orderBytes| == 16 && Withdraw(p, s, a).Mined?
    requires NoDup(Destinations(s.pool)) && Solvent(s.vault)
    ensures Balanced(p.k, p.depositBps, img, s.pool, Withdraw(p, s, a).block)
  {
    var b := Withdraw(p, s, a).block;
    WithdrawBurns(p, s, a);
    hide Withdraw, Ring.SignBurn;
    LookupFinds(s.pool, a.input);
    OwnerLinks(p.k, g, img, a.wallet, a.input);
    OneBurnBalanced(p, img, s, b, b.withdrawals[0], a.input);
  }

  lemma OneBurnBalanced(p: Params, img: Link, s: NodeState, b: Block, w: WithdrawalReceipt, input: OneTimeOutput)
    requires b.withdrawals == [w] && b.txs == [] && b.deposits == [] && b.depositOutputs == []
    requires Lookup(s.pool, w.burnedKey) == Some(input) && w.gross <= input.amount
    requires img(w.burnedKey) == Canonical(p.k, w.keyImage)
    requires if input.amount == w.gross then b.withdrawalOutputs == []
             else |b.withdrawalOutputs| == 1 && b.withdrawalOutputs[0].amount == input.amount - w.gross
    ensures Balanced(p.k, p.depositBps, img, s.pool, b)
  {
    hide Balanced, Lookup, Canonical;
    ChangesPush(s.pool, b.withdrawals);
    assert b.withdrawals[..0] == [];
    OneAmount(b.withdrawalOutputs);
    AssembleBalanced(p.k, p.depositBps, img, s.pool, b);
  }

  lemma OneAmount(outs: seq<OneTimeOutput>)
    requires |outs| <= 1
    ensures SumAmounts(outs) == if outs == [] then 0 else outs[0].amount
  {
    if outs != [] { assert outs[..0] == []; }
  }

  lemma SubmitBalanced(p: Params, img: Link, s: NodeState, tx: ShieldedTransaction, timestamp: U64)
    requires GenuineTx(p.k, img, tx) && s.db.topHeight + 1 < TWO_64 && Submit(p, s, tx, timestamp).Mined?
    ensures Balanced(p.k, p.depositBps, img, s.pool, Submit(p, s, tx, timestamp).block)
  {
    OneTxBalanced(p.k, p.depositBps, img, s.pool, Submit(p, s, tx, timestamp).block, tx, OwnerOf(p.k, img, s.pool, tx));
  }

  // ---- One step ----

  /** The chain is balanced and the vault's supply is what the chain says. */
  ghost predicate Backed(p: Params, img: Link, s: NodeState, c: seq<Block>) {
    && Inv(p.k, s, c) && BalancedChain(p.k, p.depositBps, img, c)
    && Injective(img, Outs(c)) && s.vault.circulating == Circulating(p.depositBps, c)
    && Ran(p.depositBps, p.withdrawBps, c)
  }

  /** What is assumed of an operation: sound signatures in what comes from outside, wallets
      whose keys belong together, different images for different keys, and the replayed
      deposit rate if a rollback occurs. */
  ghost predicate Honest(p: Params, g: Group, img: Link, s: NodeState, op: Op)
    requires Callable(s, op)
  {
    && (op.OpRemote? && Reorgs(p, s, op.block) ==> p.depositBps == REPLAY_BPS)
    && match Commits(p, s, op)
       case None => true
       case Some((base, b)) =>
         && Injective(img, base.pool + NewOutputs(b))
         && (op.OpRemote? || op.OpSubmit? ==> Genuine(p.k, img, b))
         && (op.OpTransfer? ==> HonestWallet(p.k, g, op.transfer.wallet, op.transfer.input))
         && (op.OpWithdraw? ==> HonestWallet(p.k, g, op.withdraw.wallet, op.withdraw.input))
  }

  lemma BalancedPush(k: Curve, bps: U32, img: Link, c: seq<Block>, b: Block, pool: seq<OneTimeOutput>)
    requires c != [] && BalancedChain(k, bps, img, c) && multiset(pool) == multiset(Outs(c))
    requires Balanced(k, bps, img, pool, b) && Injective(img, pool + NewOutputs(b))
    ensures BalancedChain(k, bps, img, c + [b]) && Injective(img, Outs(c + [b]))
    ensures Circulating(bps, c + [b]) == Circulating(bps, c) + Minted(bps, b.deposits) - Burned(b.withdrawals)
  {
    PushInit(c, b);
    Push(k, c, b);
    BalancedAnyOrder(k, bps, img, pool, Outs(c), b);
    InjectiveAnyOrder(img, pool + NewOutputs(b), Outs(c) + NewOutputs(b));
  }

  lemma SupplyPush(p: Params, img: Link, s: NodeState, c: seq<Block>, b: Block)
    requires Backed(p, img, s, c) && NextVault(p, s, b).Some?
    requires Balanced(p.k, p.depositBps, img, s.pool, b) && Injective(img, s.pool + NewOutputs(b))
    ensures var d := c + [b];
      && BalancedChain(p.k, p.depositBps, img, d) && Injective(img, Outs(d))
      && NextVault(p, s, b).value.circulating == Circulating(p.depositBps, d)
      && Ran(p.depositBps, p.withdrawBps, d)
  {
    RanPush(p.depositBps, p.withdrawBps, c, b, s.vault);
    BalancedPush(p.k, p.depositBps, img, c, b, s.pool);
    BlockCirculates(p.depositBps, p.withdrawBps, s.vault, b);
  }

  lemma CommitBacks(p: Params, img: Link, s: NodeState, c: seq<Block>, b: Block)
    requires Backed(p, img, s, c) && Sits(p, s, b) && NewNames(p.k, s.db.tables, b)
    requires DepositIds(b.deposits) !! s.db.tables.deposits.Keys && Storable(p.k, b)
    requires Balanced(p.k, p.depositBps, img, s.pool, b) && Injective(img, s.pool + NewOutputs(b))
    ensures Backed(p, img, Append(p, s, b), c + [b])
  {
    CommitKeeps(p, s, c, b);
    SupplyPush(p, img, s, c, b);
  }

  lemma InjectiveAnyOrder(img: Link, a: seq<OneTimeOutput>, b: seq<OneTimeOutput>)
    requires Injective(img, a) && multiset(a) == multiset(b)
    ensures Injective(img, b)
  {
    forall x ensures x in a <==> x in b { SameMembers(a, b, x); }
  }

  lemma InjectiveInit(img: Link, c: seq<Block>)
    requires c != [] && Injective(img, Outs(c))
    ensures Injective(img, Outs(c[..|c| - 1]))
  {
    assert Outs(c) == Outs(c[..|c| - 1]) + NewOutputs(c[|c| - 1]);
  }

  lemma RolledBackBacked(p: Params, img: Link, s: NodeState, c: seq<Block>)
    requires Backed(p, img, s, c) && |c| > 1 && ReplayRuns(p.k, c) && p.depositBps == REPLAY_BPS
    ensures Backed(p, img, Recover(p.k, s.(db := RollbackDb(p.k, s.db).0)), c[..|c| - 1])
  {
    RolledBack(p, s, c);
    InjectiveInit(img, c);
    ReplayCirculates(REPLAY_BPS, REPLAY_BPS, c[..|c| - 1]);
  }

  lemma BaseBacked(p: Params, img: Link, s: NodeState, b: Block, c: seq<Block>)
    requires Backed(p, img, s, c) && (Reorgs(p, s, b) ==> ReplayRuns(p.k, c) && p.depositBps == REPLAY_BPS)
    ensures Backed(p, img, Base(p, s, b), BaseChain(p, s, b, c))
  {
    if Reorgs(p, s, b) {
      LocalTop(p, s, c);
      RolledBackBacked(p, img, s, c);
    }
  }

  lemma RemoteBacks(p: Params, g: Group, img: Link, s: NodeState, c: seq<Block>, b: Block)
    requires c != [] && Backed(p, img, s, c) && Careful(p, s, c, OpRemote(b)) && Honest(p, g, img, s, OpRemote(b))
    ensures Backed(p, img, Step(p, s, OpRemote(b)), NextChain(p, s, c, OpRemote(b)))
  {
    hide ApplyRemote, Inv, Base, BaseChain, Reorgs, ReplayRuns, Sits, NewNames, Storable, ValidBlock, Append;
    hide Backed, Injective, Genuine, Balanced;
    BackedInv(p, img, s, c);
    RemoteStep(p, s, c, b);
    var t := Step(p, s, OpRemote(b));
    if Commits(p, s, OpRemote(b)).Some? {
      var base := Base(p, s, b);
      BaseBacked(p, img, s, b, c);
      BackedInv(p, img, base, BaseChain(p, s, b, c));
      ChainNotEmpty(p.k, base, BaseChain(p, s, b, c));
      ValidSits(p, base, b);
      ValidIsBalanced(p, img, base, b);
      CommitBacks(p, img, base, BaseChain(p, s, b, c), b);
    } else {
      BackedSame(p, img, s, t, c);
    }
  }

  lemma BackedInv(p: Params, img: Link, s: NodeState, c: seq<Block>)
    requires Backed(p, img, s, c)
    ensures Inv(p.k, s, c) && Held(p.k, s, c) && Solvent(s.vault)
  {
  }

  lemma BackedSame(p: Params, img: Link, s: NodeState, t: NodeState, c: seq<Block>)
    requires Backed(p, img, s, c) && Inv(p.k, t, c) && Same(t, s)
    ensures Backed(p, img, t, c)
  {
    hide Inv;
  }

  lemma LocalBalanced(p: Params, g: Group, img: Link, s: NodeState, op: Op)
    requires Lawful(p.k, g) && Linked(p.k, g, img) && NoDup(Destinations(s.pool)) && Solvent(s.vault)
    requires Callable(s, op) && IsLocal(op) && Local(p, s, op).Mined? && Honest(p, g, img, s, op)
    ensures Balanced(p.k, p.depositBps, img, s.pool, Local(p, s, op).block)
  {
    hide Reread, Append, Balanced;
    match op
    case OpBuy(a) => BuyBalanced(p, img, s, a);
    case OpTransfer(a) => TransferBalanced(p, g, img, s, a);
    case OpWithdraw(a) => WithdrawBalanced(p, g, img, s, a);
    case OpSubmit(tx, ts) =>
      assert GenuineTx(p.k, img, Submit(p, s, tx, ts).block.txs[0]);
      SubmitBalanced(p, img, s, tx, ts);
    case _ =>
  }

  lemma LocalBacks(p: Params, g: Group, img: Link, s: NodeState, c: seq<Block>, op: Op)
    requires Lawful(p.k, g) && Linked(p.k, g, img)
    requires Backed(p, img, s, c) && Careful(p, s, c, op) && Honest(p, g, img, s, op) && IsLocal(op)
    ensures Backed(p, img, Step(p, s, op), NextChain(p, s, c, op))
  {
    hide Lawful, Linked, Append, Local, Inv, Backed, Injective, Balanced, Sits, NewNames, Storable, Genuine;
    hide HonestWallet, Interrupted, Reorgs, ReplayRuns, BaseChain, IsSpent, ApplyRemote, ClaimFees, Restart;
    BackedInv(p, img, s, c);
    LocalOutcome(p, s, op);
    if Local(p, s, op).Mined? {
      PoolDistinct(p, s, c);
      LocalBalanced(p, g, img, s, op);
      if !op.OpBuy? { OnlyBuysDeposit(p, s, op); }
      CommitBacks(p, img, s, c, Local(p, s, op).block);
    }
  }

  lemma StepBacks(p: Params, g: Group, img: Link, s: NodeState, c: seq<Block>, op: Op)
    requires Lawful(p.k, g) && Linked(p.k, g, img)
    requires Backed(p, img, s, c) && Careful(p, s, c, op) && Honest(p, g, img, s, op)
    ensures Backed(p, img, Step(p, s, op), NextChain(p, s, c, op))
  {
    hide Lawful, Linked, Inv, Backed, Append, ApplyRemote, Local, Restart, ClaimFees, NewNames, Storable, Injective;
    hide Interrupted, Reorgs, ReplayRuns, BaseChain, Genuine, HonestWallet;
    BackedInv(p, img, s, c);
    match op
    case OpRemote(b) => RemoteBacks(p, g, img, s, c, b);
    case OpClaimFees(amount, dest) => ClaimBacks(p, img, s, c, amount, dest);
    case OpRestart =>
      RestartKeeps(p, s, c);
      BackedSame(p, img, s, Restart(p, s.db.tables), c);
    case _ => LocalBacks(p, g, img, s, c, op);
  }

  lemma ClaimBacks(p: Params, img: Link, s: NodeState, c: seq<Block>, amount: U64, dest: Text)
    requires Backed(p, img, s, c)
    ensures Backed(p, img, ClaimFees(s, amount, dest).0, c)
  {
    hide Inv, ClaimFees, Injective, Ran;
    ClaimKeeps(p, s, c, amount, dest);
  }

  // ---- Whole runs ----

  ghost predicate HonestRun(p: Params, g: Group, img: Link, s: NodeState, c: seq<Block>, ops: seq<Op>)
    requires CarefulRun(p, s, c, ops)
    decreases |ops|
  {
    ops != [] ==> Honest(p, g, img, s, ops[0])
                  && HonestRun(p, g, img, Step(p, s, ops[0]), NextChain(p, s, c, ops[0]), ops[1..])
  }

  lemma {:induction false} RunBacks(p: Params, g: Group, img: Link, s: NodeState, c: seq<Block>, ops: seq<Op>)
    requires Lawful(p.k, g) && Linked(p.k, g, img)
    requires Backed(p, img, s, c) && CarefulRun(p, s, c, ops) && HonestRun(p, g, img, s, c, ops)
    ensures var (t, d) := RunOps(p, s, c, ops); Backed(p, img, t, d)
    decreases |ops|
  {
    hide Step, NextChain, Backed, Honest;
    if ops != [] {
      StepBacks(p, g, img, s, c, ops[0]);
      RunBacks(p, g, img, Step(p, s, ops[0]), NextChain(p, s, c, ops[0]), ops[1..]);
    }
  }

  lemma CoinsAnyOrder(img: Link, a: seq<OneTimeOutput>, b: seq<OneTimeOutput>)
    requires NoDup(Destinations(a)) && Injective(img, a) && NoDup(Destinations(b)) && multiset(a) == multiset(b)
    ensures multiset(CoinsOf(img, a)) == multiset(CoinsOf(img, b))
  {
    InjectiveAnyOrder(img, a, b);
    InjectiveDistinct(img, a);
    InjectiveDistinct(img, b);
    var x, y := CoinsOf(img, a), CoinsOf(img, b);
    TagsApart(x);
    TagsApart(y);
    CoinsWithin(img, a, b);
    CoinsWithin(img, b, a);
    SameElements(x, y);
  }

  lemma TagsApart<I(!new)>(coins: seq<Coin<I>>)
    requires DistinctTags(coins)
    ensures NoDup(coins)
  {
    forall i, j | 0 <= i < j < |coins| ensures coins[i] != coins[j] { assert coins[i].tag != coins[j].tag; }
  }

  lemma CoinsWithin(img: Link, a: seq<OneTimeOutput>, b: seq<OneTimeOutput>)
    requires multiset(a) == multiset(b)
    ensures Elements(CoinsOf(img, a)) <= Elements(CoinsOf(img, b))
  {
    forall c | c in CoinsOf(img, a) ensures c in CoinsOf(img, b) {
      var i :| 0 <= i < |a| && CoinsOf(img, a)[i] == c;
      SameMembers(a, b, a[i]);
      var j :| 0 <= j < |b| && b[j] == a[i];
      assert CoinsOf(img, b)[j] == c;
    }
  }

  /** The unspent outputs of the pool and the accepted public fees are the circulating
      supply, and no part of an unspent output is more than the vault can burn. */
  ghost predicate Covered(p: Params, img: Link, s: NodeState) {
    && Unspent(CoinsOf(img, s.pool), s.spent) + Fees(s.history) == s.vault.circulating
    && forall o, tokens: U64 :: o in s.pool && img(o.destination) !in s.spent
         && 0 < tokens <= o.amount && tokens <= MAX_TRANSACTION_AMOUNT && p.withdrawBps <= 10000
         ==> ApplyWithdrawal(s.vault, p.withdrawBps, tokens).1.Done?
  }

  lemma SupplyIsUnspent(p: Params, img: Link, s: NodeState, c: seq<Block>)
    requires Backed(p, img, s, c)
    ensures Unspent(CoinsOf(img, s.pool), s.spent) + Fees(s.history) == s.vault.circulating
  {
    NothingTwice(p.k, c);
    InjectiveDistinct(img, Outs(c));
    ChainConserves(p.k, p.depositBps, img, c);
    PoolDistinct(p, s, c);
    CoinsAnyOrder(img, Outs(c), s.pool);
    UnspentAnyOrder(CoinsOf(img, Outs(c)), CoinsOf(img, s.pool), s.spent);
  }

  lemma Burnable(p: Params, img: Link, s: NodeState, o: OneTimeOutput, tokens: U64)
    requires Solvent(s.vault) && Unspent(CoinsOf(img, s.pool), s.spent) <= s.vault.circulating
    requires o in s.pool && img(o.destination) !in s.spent
    requires 0 < tokens <= o.amount && tokens <= MAX_TRANSACTION_AMOUNT && p.withdrawBps <= 10000
    ensures ApplyWithdrawal(s.vault, p.withdrawBps, tokens).1.Done?
  {
    var i :| 0 <= i < |s.pool| && s.pool[i] == o;
    UnspentCovers(CoinsOf(img, s.pool), s.spent, CoinsOf(img, s.pool)[i]);
    WithdrawOnSolvent(s.vault, p.withdrawBps, tokens);
  }

  lemma BackedIsCovered(p: Params, img: Link, s: NodeState, c: seq<Block>)
    requires Backed(p, img, s, c)
    ensures Covered(p, img, s)
  {
    SupplyIsUnspent(p, img, s, c);
    forall o, tokens: U64 | o in s.pool && img(o.destination) !in s.spent
        && 0 < tokens <= o.amount && tokens <= MAX_TRANSACTION_AMOUNT && p.withdrawBps <= 10000
      ensures ApplyWithdrawal(s.vault, p.withdrawBps, tokens).1.Done? {
      Burnable(p, img, s, o, tokens);
    }
  }

  lemma SingleBlock(k: Curve, bps: U32, img: Link, c: seq<Block>)
    requires |c| == 1
    ensures BalancedChain(k, bps, img, c) && Circulating(bps, c) == 0 && forall w: U32 :: Ran(bps, w, c)
  {
  }

  lemma SingleBacked(p: Params, img: Link, s: NodeState, c: seq<Block>)
    requires Inv(p.k, s, c) && |c| == 1 && Outs(c) == [] && s.vault.circulating == 0
    ensures Backed(p, img, s, c)
  {
    SingleBlock(p.k, p.depositBps, img, c);
  }

  lemma FirstIsBacked(p: Params, img: Link, s: NodeState, c: seq<Block>)
    requires s == Restart(p, EMPTY_TABLES) && c == [GENESIS]
    ensures Backed(p, img, s, c)
  {
    FirstStart(p);
    GenesisDescribed(p.k, EMPTY_VAULT);
    SingleBacked(p, img, s, c);
  }

  /** Conservation over every run from an empty store. */
  lemma SupplyIsCovered(p: Params, g: Group, img: Link, s: NodeState, c: seq<Block>, ops: seq<Op>)
    requires Lawful(p.k, g) && Linked(p.k, g, img)
    requires s == Restart(p, EMPTY_TABLES) && c == [GENESIS]
    requires CarefulRun(p, s, c, ops) && HonestRun(p, g, img, s, c, ops)
    ensures Covered(p, img, RunOps(p, s, c, ops).0)
  {
    hide Lawful, Linked, Restart, Backed, CarefulRun, HonestRun, RunOps, Covered;
    FirstIsBacked(p, img, s, c);
    RunBacks(p, g, img, s, c, ops);
    var (t, d) := RunOps(p, s, c, ops);
    BackedIsCovered(p, img, t, d);
  }

  /** In a backed state the replay of a rollback never throws at a deposit rate of 50, as long as
      the deposits of the chain together fit in u64: there, remote blocks are all or nothing. */
  lemma BackedReplays(p: Params, img: Link, s: NodeState, c: seq<Block>)
    requires Backed(p, img, s, c) && p.depositBps == REPLAY_BPS && GrossOf(c) < TWO_64
    ensures ReplayRuns(p.k, c)
    ensures forall b :: !ApplyRemote(p, s, b).1 ==> Same(ApplyRemote(p, s, b).0, s)
  {
    ReplayRunsAtItsRate(p.k, p.withdrawBps, c);
    ReadableFits(p.k, c);
    forall b | !ApplyRemote(p, s, b).1 ensures Same(ApplyRemote(p, s, b).0, s) {
      RefusedChangesNothing(p, s, b, c);
      ReadableHarmless(p, s, b, c);
    }
  }

  /** A run at the replayed deposit rate, with all deposits of the chain within u64 wherever a
      rollback occurs; nothing is assumed of the replay. */
  ghost predicate HonestRunAt50(p: Params, g: Group, img: Link, s: NodeState, c: seq<Block>, ops: seq<Op>)
    decreases |ops|
  {
    ops != [] ==>
      && c != [] && Tidy(p, s, ops[0]) && Honest(p, g, img, s, ops[0])
      && (ops[0].OpRemote? && Reorgs(p, s, ops[0].block) ==> GrossOf(c) < TWO_64)
      && HonestRunAt50(p, g, img, Step(p, s, ops[0]), NextChain(p, s, c, ops[0]), ops[1..])
  }

  /** Such a run is careful: its replays run. */
  lemma {:induction false} RunAt50IsCareful(p: Params, g: Group, img: Link, s: NodeState, c: seq<Block>, ops: seq<Op>)
    requires Lawful(p.k, g) && Linked(p.k, g, img) && p.depositBps == REPLAY_BPS
    requires Backed(p, img, s, c) && HonestRunAt50(p, g, img, s, c, ops)
    ensures CarefulRun(p, s, c, ops) && HonestRun(p, g, img, s, c, ops)
    decreases |ops|
  {
    hide Lawful, Linked, Step, NextChain, Backed, Honest, Commits, Interrupted, Reorgs, ReplayRuns, GrossOf;
    if ops != [] {
      if ops[0].OpRemote? && Reorgs(p, s, ops[0].block) { BackedReplays(p, img, s, c); }
      StepBacks(p, g, img, s, c, ops[0]);
      RunAt50IsCareful(p, g, img, Step(p, s, ops[0]), NextChain(p, s, c, ops[0]), ops[1..]);
    }
  }

  /** Conservation over every run at a deposit rate of 50. */
  lemma SupplyAt50(p: Params, g: Group, img: Link, s: NodeState, c: seq<Block>, ops: seq<Op>)
    requires Lawful(p.k, g) && Linked(p.k, g, img) && p.depositBps == REPLAY_BPS
    requires s == Restart(p, EMPTY_TABLES) && c == [GENESIS] && HonestRunAt50(p, g, img, s, c, ops)
    ensures CarefulRun(p, s, c, ops) && Covered(p, img, RunOps(p, s, c, ops).0)
  {
    hide Lawful, Linked, Restart, Backed, CarefulRun, HonestRun, HonestRunAt50, RunOps, Covered;
    FirstIsBacked(p, img, s, c);
    RunAt50IsCareful(p, g, img, s, c, ops);
    SupplyIsCovered(p, g, img, s, c, ops);
  }
}
