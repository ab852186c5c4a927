/** Where the outputs of a node's own operations go, and when an operation goes through
    (src/node.cpp:125-397, 399-532, 1166-1305, src/stealth.cpp:39-155). */
module Delivery {
  import opened Types
  import opened Sequences
  import opened CurveModel
  import opened HeaderModel
  import opened VaultModel
  import opened DbModel
  import opened Ledger
  import opened Runs
  import opened Backing
  import opened Replica
  import opened Wire
  import Decoys
  import Ring
  import Stealth

  // ---- Who can spend what ----

  /** The wallet finds the output and derives a private key that opens it. */
  ghost predicate Owns(k: Curve, g: Group, w: Stealth.Wallet, out: OneTimeOutput) {
    && Stealth.ScanOutput(k, w, out)
    && var x := Stealth.DerivePrivateKey(k, w, out);
    x.Some? && Ring.Opens(g, x.value, out.destination)
  }

  /** A wallet whose keys belong together, and an ephemeral secret with which the base
      multiplications and the wallet's own multiplication succeed. */
  ghost predicate CanReceive(k: Curve, g: Group, w: Stealth.Wallet, r: Key256) {
    && Stealth.Keyed(g, w) && k.baseOk(r) && k.mul(w.viewPriv, k.base(r)).Some?
    && var shared := k.mul(r, w.viewPub);
    (shared.Some? ==> k.baseOk(Stealth.SharedScalar(k, shared.value)))
  }

  lemma OutputReaches(k: Curve, g: Group, w: Stealth.Wallet, amount: U64, r: Key256, out: OneTimeOutput)
    requires Lawful(k, g) && CanReceive(k, g, w, r) && Stealth.CreateOutput(k, w.Public(), amount, r) == Some(out)
    ensures Owns(k, g, w, out) && out.amount == amount
  {
    Stealth.SharedPoint(k, g, w, r);
    Stealth.ScannedKeyOpens(k, g, w, out);
  }

  /** A deposit reaches the address it was made for: its one output, of the net amount, is one
      the recipient's wallet finds and can spend. */
  lemma DepositReaches(p: Params, g: Group, s: NodeState, a: BuyArgs, payee: Stealth.Wallet)
    requires Lawful(p.k, g) && s.db.topHeight + 1 < TWO_64 && Buy(p, s, a).Mined?
    requires payee.Public() == a.to && CanReceive(p.k, g, payee, DepositSecret(p.k, a))
    ensures var b := Buy(p, s, a).block;
      && |b.depositOutputs| == |b.deposits| == 1 && Owns(p.k, g, payee, b.depositOutputs[0])
      && b.depositOutputs[0].amount == b.deposits[0].net
  {
    BuyReceipt(p, s, a);
    hide Buy, DepositSecret;
    OutputReaches(p.k, g, payee, ReceiptOf(p, a).net, DepositSecret(p.k, a), Buy(p, s, a).block.depositOutputs[0]);
  }

  /** A transfer reaches its recipient and gives the change back: the first output, of the amount
      sent, belongs to the recipient; what the input holds beyond amount and fee, if anything, is
      one second output that belongs to the sender. */
  lemma TransferReaches(p: Params, g: Group, s: NodeState, a: TransferArgs, payee: Stealth.Wallet)
    requires Lawful(p.k, g) && s.db.topHeight + 1 < TWO_64 && Transfer(p, s, a).Mined?
    requires payee.Public() == a.to && CanReceive(p.k, g, payee, a.rnd.r1) && CanReceive(p.k, g, a.wallet, a.rnd.r2)
    ensures var b := Transfer(p, s, a).block;
      |b.txs| == 1 && b.txs[0].publicFee == a.fee && PaysOut(p.k, g, a, payee, b.txs[0].outputs)
  {
    TransferPays(p, s, a);
    hide BuildTransfer;
    PaymentsReach(p.k, g, a, payee);
  }

  ghost predicate PaysOut(k: Curve, g: Group, a: TransferArgs, payee: Stealth.Wallet, outs: seq<OneTimeOutput>) {
    var left := a.input.amount - a.send - a.fee;
    && |outs| == (if left == 0 then 1 else 2) && outs[0].amount == a.send && Owns(k, g, payee, outs[0])
    && (left != 0 ==> outs[1].amount == left && Owns(k, g, a.wallet, outs[1]))
  }

  lemma PaymentsReach(k: Curve, g: Group, a: TransferArgs, payee: Stealth.Wallet)
    requires Lawful(k, g) && a.send + a.fee <= a.input.amount && TransferOutputs(k, a).Some?
    requires payee.Public() == a.to && CanReceive(k, g, payee, a.rnd.r1) && CanReceive(k, g, a.wallet, a.rnd.r2)
    ensures PaysOut(k, g, a, payee, TransferOutputs(k, a).value)
  {
    hide Owns, CanReceive, Lawful, Stealth.CreateOutput;
    var outs := TransferOutputs(k, a).value;
    OutputReaches(k, g, payee, a.send, a.rnd.r1, outs[0]);
    var left := a.input.amount - a.send - a.fee;
    if left != 0 { OutputReaches(k, g, a.wallet, left, a.rnd.r2, outs[1]); }
  }

  /** The change of a withdrawal goes back to the wallet that burned. */
  lemma ChangeReaches(p: Params, g: Group, s: NodeState, a: WithdrawArgs)
    requires Lawful(p.k, g) && s.db.topHeight + 1 < TWO_64 && |a.orderBytes| == 16 && Withdraw(p, s, a).Mined?
    requires CanReceive(p.k, g, a.wallet, a.r)
    ensures var b := Withdraw(p, s, a).block;
      var left := a.input.amount - a.tokens;
      && |b.withdrawals| == 1 && |b.withdrawalOutputs| == (if left == 0 then 0 else 1)
      && (left != 0 ==> b.withdrawalOutputs[0].amount == left && Owns(p.k, g, a.wallet, b.withdrawalOutputs[0])
                        && b.withdrawals[0].changeKey == b.withdrawalOutputs[0].destination)
  {
    hide Owns, CanReceive, Lawful, Withdraw, CalledSections, NextHeader, HeaderModel.Sign, WithdrawChange;
    WithdrawCalled(p, s, a);
    SectionsShape(p, a);
    ChangeKeyed(p, a);
    GivesChange(p.k, g, a);
  }

  lemma GivesChange(k: Curve, g: Group, a: WithdrawArgs)
    requires Lawful(k, g) && CanReceive(k, g, a.wallet, a.r) && a.tokens <= a.input.amount && WithdrawChange(k, a).Some?
    ensures var outs, left := WithdrawChange(k, a).value, a.input.amount - a.tokens;
      |outs| == (if left == 0 then 0 else 1) && (left != 0 ==> outs[0].amount == left && Owns(k, g, a.wallet, outs[0]))
  {
    hide Owns, CanReceive, Lawful, Stealth.CreateOutput;
    var left := a.input.amount - a.tokens;
    if left != 0 { OutputReaches(k, g, a.wallet, left, a.r, WithdrawChange(k, a).value[0]); }
  }

  lemma ChangeKeyed(p: Params, a: WithdrawArgs)
    requires |a.orderBytes| == 16 && CalledSections(p, a).Some?
    ensures a.tokens <= a.input.amount
    ensures var b := CalledSections(p, a).value; |b.withdrawals| == 1 && b.withdrawals[0].changeKey == ChangeKey(b.withdrawalOutputs)
  {
    hide Ring.SignBurn, Ring.BurnMessage, Stealth.CreateOutput;
  }

  // ---- When an operation goes through ----

  /** The ring a transfer signs over: the input's key once, at the drawn position, among as many
      distinct keys of other outputs of its amount as there are, up to four. */
  lemma TransferHides(p: Params, s: NodeState, a: TransferArgs)
    requires BuildTransfer(p, s, a).Some?
    ensures var ring, all := BuildTransfer(p, s, a).value.ringSig.ring, Decoys.Hiding(s.pool, a.input.destination, a.input.amount);
      && |ring| == 1 + (if |all| < 4 then |all| else 4) && NoDup(ring)
      && forall i :: 0 <= i < |ring| ==>
           if i == a.rnd.position % |ring| then ring[i] == a.input.destination else ring[i] in all
  {
    TransferSigned(p, s, a);
    Decoys.RingHides(s, a);
  }

  /** What a caller of `transfer_shielded` needs: an unspent output of the pool that the wallet
      owns and that covers amount and fee, derivable outputs, and a ring signature whose points
      are admissible and whose operations succeed for the verifier. */
  ghost predicate CanTransfer(p: Params, s: NodeState, a: TransferArgs) {
    && Stealth.ScanOutput(p.k, a.wallet, a.input) && a.input in s.pool && a.send + a.fee <= a.input.amount
    && TransferOutputs(p.k, a).Some?
    && match (Stealth.DerivePrivateKey(p.k, a.wallet, a.input), DerivedImage(p.k, a.wallet, a.input))
       case (Some(x), Some(image)) => !IsSpent(p.k, s, image) && CanSign(p, s, a, x, image)
       case _ => false
  }

  ghost predicate CanSign(p: Params, s: NodeState, a: TransferArgs, x: Key256, image: KeyImage)
    requires a.send + a.fee <= a.input.amount && TransferOutputs(p.k, a).Some?
  {
    var (ring, at) := RingOf(s, a);
    var m := Ring.CanonicalTxHash(p.k, TransferOutputs(p.k, a).value, a.fee, ring, image);
    match Ring.Sign(p.k, m, ring, at, x, a.rnd.alpha, Draws(a.rnd.draw, |ring|))
    case None => false
    case Some(sig) => Ring.Admissible(p.k, sig) && Ring.OperationsSucceed(p.k, m, sig)
  }

  /** A transfer is mined exactly when the caller meets these conditions; the node's check of its
      own signature never refuses one more. */
  lemma TransferGoesThrough(p: Params, g: Group, s: NodeState, a: TransferArgs)
    requires Lawful(p.k, g) && HonestWallet(p.k, g, a.wallet, a.input) && p.k.baseOk(a.rnd.alpha)
    requires s.db.topHeight + 1 < TWO_64
    ensures Transfer(p, s, a).Mined? <==> CanTransfer(p, s, a)
  {
    hide Lawful, Append, MineBlock, Ring.Verify, Ring.Sign, Ring.Admissible, Ring.OperationsSucceed, SelectDecoys,
      Stealth.ScanOutput, Stealth.DerivePrivateKey, Ring.KeyImageOf, TransferOutputs, HonestWallet, IsSpent;
    var x, image := Stealth.DerivePrivateKey(p.k, a.wallet, a.input), DerivedImage(p.k, a.wallet, a.input);
    if Stealth.ScanOutput(p.k, a.wallet, a.input) && image.Some? && a.send + a.fee <= a.input.amount && TransferOutputs(p.k, a).Some? {
      var (ring, at) := RingOf(s, a);
      var m := Ring.CanonicalTxHash(p.k, TransferOutputs(p.k, a).value, a.fee, ring, image.value);
      var sig := Ring.Sign(p.k, m, ring, at, x.value, a.rnd.alpha, Draws(a.rnd.draw, |ring|));
      if sig.Some? { SignedVerifies(p, g, s, a, x.value, m, sig.value); }
    }
  }

  lemma SignedVerifies(p: Params, g: Group, s: NodeState, a: TransferArgs, x: Key256, m: Hash256, sig: RingSignature)
    requires Lawful(p.k, g) && HonestWallet(p.k, g, a.wallet, a.input) && p.k.baseOk(a.rnd.alpha)
    requires Stealth.ScanOutput(p.k, a.wallet, a.input) && Stealth.DerivePrivateKey(p.k, a.wallet, a.input) == Some(x)
    requires var (ring, at) := RingOf(s, a); Ring.Sign(p.k, m, ring, at, x, a.rnd.alpha, Draws(a.rnd.draw, |ring|)) == Some(sig)
    ensures Ring.Verify(p.k, m, sig) <==> Ring.Admissible(p.k, sig) && Ring.OperationsSucceed(p.k, m, sig)
  {
    var (ring, at) := RingOf(s, a);
    Stealth.ScannedKeyOpens(p.k, g, a.wallet, a.input);
    Decoys.RingHides(s, a);
    Ring.SignThenVerify(p.k, g, m, ring, at, x, a.rnd.alpha, Draws(a.rnd.draw, |ring|), sig);
  }

  /** A withdrawal is mined exactly for an owned, unspent output of the pool that covers it, an
      amount within the limit and the circulating supply, a rate up to 10000, an address that can
      be paid, and a change output and a burn proof that can be made. */
  lemma WithdrawGoesThrough(p: Params, s: NodeState, a: WithdrawArgs)
    requires s.db.topHeight + 1 < TWO_64 && Solvent(s.vault) && |a.orderBytes| == 16
    ensures Withdraw(p, s, a).Mined?
      <==> Stealth.ScanOutput(p.k, a.wallet, a.input) && a.input in s.pool && ValidEvmAddress(a.destination)
           && 0 < a.tokens <= MAX_TRANSACTION_AMOUNT && a.tokens <= a.input.amount && a.tokens <= s.vault.circulating
           && p.withdrawBps <= 10000
           && DerivedImage(p.k, a.wallet, a.input).Some? && !IsSpent(p.k, s, DerivedImage(p.k, a.wallet, a.input).value)
           && CalledSections(p, a).Some?
  {
    hide Append, MineBlock, IsSpent, ValidEvmAddress, WithdrawSections, WithdrawChange, ApplyWithdrawal,
      Stealth.ScanOutput, Stealth.DerivePrivateKey, Ring.KeyImageOf;
    WithdrawOnSolvent(s.vault, p.withdrawBps, a.tokens);
    if ApplyWithdrawal(s.vault, p.withdrawBps, a.tokens).1.Done? { WithdrawalSplit(s.vault, p.withdrawBps, a.tokens); }
  }

  /** A submission is mined exactly when every node in the same state accepts its transaction in
      the next block: the two lists of checks, written separately, demand the same. */
  lemma SubmitGoesThrough(p: Params, s: NodeState, tx: ShieldedTransaction, timestamp: U64)
    requires s.db.topHeight + 1 < TWO_64
    ensures Submit(p, s, tx, timestamp).Mined? <==> TxOk(p, s, s.db.topHeight + 1, tx)
  {
    SubmitExact(p, s, s.db.topHeight + 1, tx);
    hide SubmitOk, TxOk, MineBlock, Append;
  }

  lemma SubmitExact(p: Params, s: NodeState, height: nat, tx: ShieldedTransaction)
    requires height > 0
    ensures SubmitOk(p, s, tx) <==> TxOk(p, s, height, tx)
  {
    hide Lookup, Ring.CanonicalTxHash, IsSpent, Ring.TorsionOk;
  }
}
