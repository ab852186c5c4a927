/** What the receipts of committed blocks are worth: their fees and amounts are the vault's own, a
    withdrawal names an address that can be paid, and no deposit id is taken in twice
    (src/node.cpp:732-886, 986-1115, src/vault.cpp:14-121, src/blockchain_db.cpp:443-462). */
module Receipts {
  import opened Types
  import opened Sequences
  import opened CurveModel
  import opened HeaderModel
  import opened VaultModel
  import opened DbModel
  import opened Coins
  import opened Ledger
  import opened Chain
  import opened Runs
  import opened Replica
  import Merkle
  import Ring

  // ---- The withdrawals and deposits of an accepted block ----

  /** "0x" or "0X", 40 hexadecimal digits, not all of them 0. */
  ghost predicate PayableAddress(a: Text) {
    && |a| == 42 && a[0] == 0x30 && a[1] in {0x58, 0x78}
    && (forall i :: 2 <= i < 42 ==> 0x30 <= a[i] <= 0x39 || 0x41 <= a[i] <= 0x46 || 0x61 <= a[i] <= 0x66)
    && !(forall i :: 2 <= i < 42 ==> a[i] == 0x30)
  }

  /** The fee is the floor of the rate's share, and the rest is paid. */
  predicate SplitsAt(bps: U32, gross: U64, fee: U64, net: U64) {
    gross > 0 && fee + net == gross && 10000 * fee <= gross * bps <= 10000 * fee + 9999
  }

  /** The burned output stands in the pool and covers the amount; what is left over goes to the
      change key in one of the block's outputs. */
  ghost predicate BurnsOutput(pool: seq<OneTimeOutput>, b: Block, w: WithdrawalReceipt) {
    exists o :: o in pool && o.destination == w.burnedKey && w.gross <= o.amount && ChangeGiven(b, w, o.amount - w.gross)
  }

  ghost predicate ChangeGiven(b: Block, w: WithdrawalReceipt, left: nat) {
    if left == 0 then w.changeKey == ZERO_KEY
    else exists c :: c in b.withdrawalOutputs && c.destination == w.changeKey && c.amount == left
  }

  lemma {:induction false} ChangeIsDue(pool: seq<OneTimeOutput>, ws: seq<WithdrawalReceipt>, i: nat, x: Change)
    requires i < |ws| && x in ChangeOf(pool, ws[i])
    ensures x in Changes(pool, ws)
  {
    var n := |ws| - 1;
    if i < n { ChangeIsDue(pool, ws[..n], i, x); }
  }

  lemma ChangeIsGiven(s: NodeState, b: Block, i: nat, x: Change)
    requires ChangeBalanced(s.pool, b) && i < |b.withdrawals| && x in ChangeOf(s.pool, b.withdrawals[i])
    ensures exists c :: c in b.withdrawalOutputs && c.destination == x.tag && c.amount == x.amount
  {
    var outs := Map(AsChange, b.withdrawalOutputs);
    ChangeIsDue(s.pool, b.withdrawals, i, x);
    SameMembers(Changes(s.pool, b.withdrawals), outs, x);
    var j :| 0 <= j < |outs| && outs[j] == x;
    assert b.withdrawalOutputs[j] in b.withdrawalOutputs;
  }

  /** Every withdrawal of an accepted block pays out the exact net amount to an address that can
      be paid, and burns an unspent output of the pool whose remainder is given back. */
  lemma AcceptedWithdrawal(p: Params, s: NodeState, b: Block, i: nat)
    requires ValidBlock(p, s, b) && i < |b.withdrawals|
    ensures var w := b.withdrawals[i];
      && SplitsAt(p.withdrawBps, w.gross, w.fee, w.net) && PayableAddress(w.destination)
      && BurnsOutput(s.pool, b, w) && Canonical(p.k, w.keyImage) !in s.spent
  {
    hide AuthOk, DepositsOk, TxsOk, Merkle.MerkleRoot, CanonicalAll, NextVault, Ring.VerifyBurn, Canonical;
    var w := b.withdrawals[i];
    assert WithdrawalOk(p, s, w);
    WithdrawalSplits(p, s, w);
    var o := Lookup(s.pool, w.burnedKey).value;
    if o.amount > w.gross { ChangeIsGiven(s, b, i, Coin(w.changeKey, o.amount - w.gross)); }
    assert ChangeGiven(b, w, o.amount - w.gross);
  }

  lemma WithdrawalSplits(p: Params, s: NodeState, w: WithdrawalReceipt)
    requires WithdrawalOk(p, s, w)
    ensures SplitsAt(p.withdrawBps, w.gross, w.fee, w.net) && PayableAddress(w.destination)
  {
    var _ := FeeCalc(w.gross, p.withdrawBps);
  }

  /** Every deposit of an accepted block mints the exact net amount. */
  lemma AcceptedDeposit(p: Params, s: NodeState, b: Block, i: nat)
    requires ValidBlock(p, s, b) && i < |b.deposits|
    ensures |b.depositOutputs| == |b.deposits|
    ensures var d := b.deposits[i]; SplitsAt(p.depositBps, d.gross, d.fee, d.net) && b.depositOutputs[i].amount == d.net
  {
    hide AuthOk, WithdrawalsOk, TxsOk, Merkle.MerkleRoot, CanonicalAll, NextVault;
    assert DepositOk(p, s, b.deposits[i], b.depositOutputs[i]);
    var _ := FeeCalc(b.deposits[i].gross, p.depositBps);
  }

  // ---- No deposit twice ----

  function IdsOf(deps: seq<DepositReceipt>): (r: seq<Text>)
    ensures |r| == |deps| && forall i :: 0 <= i < |r| ==> r[i] == deps[i].txHash
  {
    seq<Text>(|deps|, i requires 0 <= i < |deps| => deps[i].txHash)
  }

  /** Blocks taken in one after the other. */
  ghost function TakeAll(p: Params, s: NodeState, bs: seq<Block>): NodeState {
    if bs == [] then s else Append(p, TakeAll(p, s, bs[..|bs| - 1]), bs[|bs| - 1])
  }

  ghost predicate AllValid(p: Params, s: NodeState, bs: seq<Block>) {
    bs == [] || (var n := |bs| - 1; AllValid(p, s, bs[..n]) && ValidBlock(p, TakeAll(p, s, bs[..n]), bs[n]))
  }

  function AllIds(bs: seq<Block>): seq<Text> {
    if bs == [] then [] else AllIds(bs[..|bs| - 1]) + IdsOf(bs[|bs| - 1].deposits)
  }

  lemma {:induction false} IdsWritten(deps: seq<DepositReceipt>)
    requires [] !in IdsOf(deps)
    ensures DepositIdList(deps) == IdsOf(deps)
  {
    if deps != [] {
      var n := |deps| - 1;
      assert IdsOf(deps) == IdsOf(deps[..n]) + [deps[n].txHash];
      IdsWritten(deps[..n]);
    }
  }

  /** The ids of an accepted block are new and distinct, and the table records all of them. */
  lemma DepositsRecorded(p: Params, s: NodeState, b: Block)
    requires ValidBlock(p, s, b)
    ensures var ids := IdsOf(b.deposits);
      && NoDup(ids) && Elements(ids) !! s.db.tables.deposits.Keys
      && Append(p, s, b).db.tables.deposits.Keys == s.db.tables.deposits.Keys + Elements(ids)
  {
    hide AuthOk, WithdrawalsOk, TxsOk, Merkle.MerkleRoot, CanonicalAll, NextVault, PutOutputs;
    var ids := IdsOf(b.deposits);
    forall i | 0 <= i < |ids| ensures ids[i] != [] && ids[i] !in s.db.tables.deposits {
      assert DepositOk(p, s, b.deposits[i], b.depositOutputs[i]);
    }
    IdsWritten(b.deposits);
  }

  /** No deposit is taken in twice: over any sequence of accepted blocks, from any state, every
      deposit id occurs once and none was in the table before. */
  lemma {:induction false} NoDepositTwice(p: Params, s: NodeState, bs: seq<Block>)
    requires AllValid(p, s, bs)
    ensures var ids := AllIds(bs);
      && NoDup(ids) && Elements(ids) !! s.db.tables.deposits.Keys
      && TakeAll(p, s, bs).db.tables.deposits.Keys == s.db.tables.deposits.Keys + Elements(ids)
  {
    hide ValidBlock, Append;
    if bs != [] {
      var n := |bs| - 1;
      NoDepositTwice(p, s, bs[..n]);
      DepositsRecorded(p, TakeAll(p, s, bs[..n]), bs[n]);
      NoDupConcat(AllIds(bs[..n]), IdsOf(bs[n].deposits));
      ElementsConcat(AllIds(bs[..n]), IdsOf(bs[n].deposits));
    }
  }

  // ---- The books ----

  /** Sums over receipts. */
  datatype Sums = Sums(gross: nat, fee: nat, net: nat)

  function Deposited(deps: seq<DepositReceipt>): Sums {
    if deps == [] then Sums(0, 0, 0) else
    var t, d := Deposited(deps[..|deps| - 1]), deps[|deps| - 1];
    Sums(t.gross + d.gross, t.fee + d.fee, t.net + d.net)
  }

  function Withdrawn(ws: seq<WithdrawalReceipt>): Sums {
    if ws == [] then Sums(0, 0, 0) else
    var t, w := Withdrawn(ws[..|ws| - 1]), ws[|ws| - 1];
    Sums(t.gross + w.gross, t.fee + w.fee, t.net + w.net)
  }

  /** The receipts of a block split their amounts at the node's rates. */
  ghost predicate Priced(p: Params, b: Block) {
    && (forall i :: 0 <= i < |b.deposits| ==> var d := b.deposits[i]; SplitsAt(p.depositBps, d.gross, d.fee, d.net))
    && (forall i :: 0 <= i < |b.withdrawals| ==> var w := b.withdrawals[i]; SplitsAt(p.withdrawBps, w.gross, w.fee, w.net))
  }

  /** The vault went from v to u by deposits and withdrawals with these sums. */
  ghost predicate Moved(v: Balances, u: Balances, ins: Sums, outs: Sums) {
    && u.collateral == v.collateral + ins.gross - outs.net
    && u.circulating == v.circulating + ins.net - outs.gross
    && u.feePool == v.feePool + ins.fee + outs.fee
  }

  lemma FloorUnique(n: nat, a: nat, b: nat)
    requires 10000 * a <= n <= 10000 * a + 9999 && 10000 * b <= n <= 10000 * b + 9999
    ensures a == b
  {
  }

  lemma {:induction false} DepositsMove(v: Balances, bps: U32, deps: seq<DepositReceipt>)
    requires DepositAll(v, bps, deps).Some?
    requires forall i :: 0 <= i < |deps| ==> SplitsAt(bps, deps[i].gross, deps[i].fee, deps[i].net)
    ensures Moved(v, DepositAll(v, bps, deps).value, Deposited(deps), Sums(0, 0, 0))
  {
    if deps != [] {
      var n := |deps| - 1;
      DepositsMove(v, bps, deps[..n]);
      FloorUnique(deps[n].gross * bps, deps[n].fee, FeeCalc(deps[n].gross, bps).value);
    }
  }

  lemma {:induction false} WithdrawalsMove(v: Balances, bps: U32, ws: seq<WithdrawalReceipt>)
    requires WithdrawAll(v, bps, ws).Some?
    requires forall i :: 0 <= i < |ws| ==> SplitsAt(bps, ws[i].gross, ws[i].fee, ws[i].net)
    ensures Moved(v, WithdrawAll(v, bps, ws).value, Sums(0, 0, 0), Withdrawn(ws))
  {
    if ws != [] {
      var n := |ws| - 1;
      WithdrawalsMove(v, bps, ws[..n]);
      FloorUnique(ws[n].gross * bps, ws[n].fee, FeeCalc(ws[n].gross, bps).value);
    }
  }

  /** Taking in a priced block moves the three balances by the sums of its receipts. */
  lemma BlockMoves(p: Params, s: NodeState, b: Block)
    requires Priced(p, b) && NextVault(p, s, b).Some?
    ensures Moved(s.vault, Append(p, s, b).vault, Deposited(b.deposits), Withdrawn(b.withdrawals))
  {
    var u := DepositAll(s.vault, p.depositBps, b.deposits).value;
    DepositsMove(s.vault, p.depositBps, b.deposits);
    WithdrawalsMove(u, p.withdrawBps, b.withdrawals);
    hide DepositAll, WithdrawAll, ApplyDeposit, ApplyWithdrawal, CommitBlock;
  }

  lemma AcceptedIsPriced(p: Params, s: NodeState, b: Block)
    requires ValidBlock(p, s, b)
    ensures Priced(p, b) && NextVault(p, s, b).Some?
  {
    hide SplitsAt, PayableAddress, BurnsOutput;
    forall i | 0 <= i < |b.deposits| ensures var d := b.deposits[i]; SplitsAt(p.depositBps, d.gross, d.fee, d.net) {
      AcceptedDeposit(p, s, b, i);
    }
    forall i | 0 <= i < |b.withdrawals| ensures var w := b.withdrawals[i]; SplitsAt(p.withdrawBps, w.gross, w.fee, w.net) {
      AcceptedWithdrawal(p, s, b, i);
    }
    hide AuthOk, DepositsOk, WithdrawalsOk, TxsOk, Merkle.MerkleRoot, CanonicalAll;
  }

  /** Sums of Deposited and Withdrawn over several blocks. */
  function AllDeposited(bs: seq<Block>): Sums {
    if bs == [] then Sums(0, 0, 0) else
    var t, d := AllDeposited(bs[..|bs| - 1]), Deposited(bs[|bs| - 1].deposits);
    Sums(t.gross + d.gross, t.fee + d.fee, t.net + d.net)
  }

  function AllWithdrawn(bs: seq<Block>): Sums {
    if bs == [] then Sums(0, 0, 0) else
    var t, w := AllWithdrawn(bs[..|bs| - 1]), Withdrawn(bs[|bs| - 1].withdrawals);
    Sums(t.gross + w.gross, t.fee + w.fee, t.net + w.net)
  }

  /** The books balance: over any sequence of accepted blocks the collateral grows by everything
      deposited less exactly what the receipts tell the relayer to pay out, the supply by the net
      deposits less what was burned, and the fee pool by the fees on the receipts. */
  lemma {:induction false} BooksBalance(p: Params, s: NodeState, bs: seq<Block>)
    requires AllValid(p, s, bs)
    ensures Moved(s.vault, TakeAll(p, s, bs).vault, AllDeposited(bs), AllWithdrawn(bs))
  {
    hide ValidBlock, Append, Priced;
    if bs != [] {
      var n := |bs| - 1;
      BooksBalance(p, s, bs[..n]);
      AcceptedIsPriced(p, TakeAll(p, s, bs[..n]), bs[n]);
      BlockMoves(p, TakeAll(p, s, bs[..n]), bs[n]);
    }
  }

  /** The blocks a node mines itself keep the same books: a deposit and a withdrawal move its
      vault by the amounts on their receipts, and the order goes to the address of the call. */
  lemma MinedIsPriced(p: Params, s: NodeState, op: Op)
    requires Callable(s, op) && IsLocal(op) && Solvent(s.vault) && Local(p, s, op).Mined?
    ensures var (t, b) := (Local(p, s, op).state, Local(p, s, op).block);
      Priced(p, b) && Moved(s.vault, t.vault, Deposited(b.deposits), Withdrawn(b.withdrawals)) && BooksCall(op, b)
  {
    hide Append, Priced, Moved, Buy, Withdraw, Transfer, Submit, BooksCall, NextVault, CanonicalAll, IsSpent;
    LocalOutcome(p, s, op);
    CallIsPriced(p, s, op);
    BlockMoves(p, s, Local(p, s, op).block);
  }

  /** The receipts of a mined block name the amount and the address of the call. */
  ghost predicate BooksCall(op: Op, b: Block) {
    match op
    case OpBuy(a) => Deposited(b.deposits).gross == a.gross && b.withdrawals == []
    case OpWithdraw(a) =>
      Withdrawn(b.withdrawals).gross == a.tokens && b.deposits == [] && |b.withdrawals| == 1 && b.withdrawals[0].destination == a.destination
    case _ => b.deposits == [] && b.withdrawals == []
  }

  lemma CallIsPriced(p: Params, s: NodeState, op: Op)
    requires Callable(s, op) && IsLocal(op) && Solvent(s.vault) && Local(p, s, op).Mined?
    ensures var b := Local(p, s, op).block; Priced(p, b) && BooksCall(op, b)
  {
    hide Append, Priced, Buy, Withdraw, Deposited, Withdrawn;
    match op
    case OpBuy(a) => BoughtIsPriced(p, s, a);
    case OpWithdraw(a) => WithdrawnIsPriced(p, s, a);
    case OpTransfer(a) => NothingBooked(p, Transfer(p, s, a).block);
    case OpSubmit(tx, ts) => NothingBooked(p, Submit(p, s, tx, ts).block);
    case _ =>
  }

  lemma NothingBooked(p: Params, b: Block)
    requires b.deposits == [] && b.withdrawals == []
    ensures Priced(p, b)
  {
  }

  lemma BoughtIsPriced(p: Params, s: NodeState, a: BuyArgs)
    requires s.db.topHeight + 1 < TWO_64 && Buy(p, s, a).Mined?
    ensures var b := Buy(p, s, a).block; Priced(p, b) && Deposited(b.deposits).gross == a.gross && b.withdrawals == []
  {
    hide Append, Cosign, MineBlock, Quorum;
    BuyDeposits(p, s, a);
    hide Buy;
    var b := Buy(p, s, a).block;
    assert b.deposits == [b.deposits[0]] && b.deposits[..0] == [];
    var _ := FeeCalc(b.deposits[0].gross, p.depositBps);
    BoughtGross(p, s, a);
  }

  lemma BoughtGross(p: Params, s: NodeState, a: BuyArgs)
    requires s.db.topHeight + 1 < TWO_64 && Buy(p, s, a).Mined?
    ensures |Buy(p, s, a).block.deposits| == 1 && Buy(p, s, a).block.deposits[0].gross == a.gross
  {
    hide Append, Cosign, NextHeader, Quorum;
  }

  lemma WithdrawnIsPriced(p: Params, s: NodeState, a: WithdrawArgs)
    requires Solvent(s.vault) && s.db.topHeight + 1 < TWO_64 && |a.orderBytes| == 16 && Withdraw(p, s, a).Mined?
    ensures var b := Withdraw(p, s, a).block;
      && Priced(p, b) && Withdrawn(b.withdrawals).gross == a.tokens && b.deposits == []
      && |b.withdrawals| == 1 && b.withdrawals[0].destination == a.destination
  {
    hide Withdraw, Proves, IsSpent, ValidEvmAddress;
    WithdrawBurns(p, s, a);
    PaysCaller(p, s, a);
    OneWithdrawalBooks(p, Withdraw(p, s, a).block);
  }

  lemma OneWithdrawalBooks(p: Params, b: Block)
    requires b.deposits == [] && |b.withdrawals| == 1
    requires var w := b.withdrawals[0]; w.gross > 0 && FeeCalc(w.gross, p.withdrawBps) == Some(w.fee) && w.net == w.gross - w.fee
    ensures Priced(p, b) && Withdrawn(b.withdrawals).gross == b.withdrawals[0].gross
  {
    assert b.withdrawals[..0] == [];
    var _ := FeeCalc(b.withdrawals[0].gross, p.withdrawBps);
  }

  lemma PaysCaller(p: Params, s: NodeState, a: WithdrawArgs)
    requires s.db.topHeight + 1 < TWO_64 && |a.orderBytes| == 16 && Withdraw(p, s, a).Mined?
    ensures var b := Withdraw(p, s, a).block; |b.withdrawals| == 1 && b.withdrawals[0].destination == a.destination
  {
    hide Append, NextHeader, Ring.SignBurn, Ring.BurnMessage;
  }
}
