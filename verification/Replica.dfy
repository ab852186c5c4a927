/** Which locally mined blocks pass the validation of every node in an equal state
    (src/node.cpp). What the bytes of such a block are taken for is Wire's subject. */
module Replica {
  import opened Types
  import opened Sequences
  import opened ByteOrder
  import opened CurveModel
  import opened HeaderModel
  import opened Merkle
  import opened VaultModel
  import opened DbModel
  import opened Ledger
  import opened Chain
  import opened Agreement
  import opened Atomicity
  import opened Runs
  import opened Coins
  import opened Conservation
  import opened Convergence
  import opened Backing
  import Decoys
  import Ring
  import Stealth

  /** Signatures made with the validator's secret key verify under its public key. */
  ghost predicate SigningWorks(p: Params) {
    p.pk != ZERO_KEY && forall m: Hash256 {:trigger p.k.edSign(m, p.sk)} :: p.k.edVerify(p.k.edSign(m, p.sk), m, p.pk)
  }

  /** The local validator is one of the authorized ones, or nobody is. */
  predicate MayMine(p: Params) {
    p.authorized == [] || p.pk in p.authorized
  }

  /** What every mined block has: the tip's height and hash, and its own Merkle root. */
  ghost predicate Framed(p: Params, s: NodeState, b: Block) {
    && b.header.height == s.db.topHeight + 1 && b.header.prevHash == s.db.topHash
    && b.header.merkleRoot == MerkleRoot(p.k, b)
  }

  lemma MinedFramed(p: Params, s: NodeState, timestamp: U64, sections: Block, cosigners: seq<Sig64>)
    requires s.db.topHeight + 1 < TWO_64
    ensures var b := MineBlock(p, s, timestamp, sections);
      Framed(p, s, b.(header := Cosign(p.k, b.header, cosigners)))
  {
    var b := MineBlock(p, s, timestamp, sections);
    CosignKeeps(p.k, b.header, cosigners);
    RootOfSections(p.k, sections, b.(header := Cosign(p.k, b.header, cosigners)));
  }

  /** The Merkle root does not depend on the header. */
  lemma RootOfSections(k: Curve, a: Block, b: Block)
    requires a.(header := b.header) == b
    ensures MerkleRoot(k, a) == MerkleRoot(k, b)
  {
    assert DepositLeaves(a) == DepositLeaves(b);
  }

  /** A block without deposits, signed by the local validator. */
  lemma MinedAuth(p: Params, s: NodeState, timestamp: U64, sections: Block)
    requires SigningWorks(p) && s.db.topHeight + 1 < TWO_64 && sections.deposits == []
    ensures AuthOk(p, MineBlock(p, s, timestamp, sections)) <==> MayMine(p)
  {
    var h := NextHeader(p, s, timestamp, sections);
    var signed := Sign(p.k, h, p.sk, p.pk);
    assert SigningHash(p.k, signed) == SigningHash(p.k, h);
    assert VerifySignature(p.k, signed);
  }

  lemma NoDeposits(p: Params, s: NodeState, b: Block)
    requires b.deposits == [] && b.depositOutputs == []
    ensures DepositsOk(p, s, b)
  {
  }

  lemma NoWithdrawals(p: Params, s: NodeState, b: Block)
    requires b.withdrawals == [] && b.withdrawalOutputs == []
    ensures WithdrawalsOk(p, s, b)
  {
    assert Map(AsChange, b.withdrawalOutputs) == [];
  }

  /** What remains to check of a block that sits on the tip. */
  lemma FramedValid(p: Params, s: NodeState, b: Block)
    requires Framed(p, s, b) && Sits(p, s, b) && Solvent(s.vault)
    ensures ValidBlock(p, s, b) <==> AuthOk(p, b) && DepositsOk(p, s, b) && TxsOk(p, s, b) && WithdrawalsOk(p, s, b)
  {
    hide AuthOk, DepositsOk, TxsOk, WithdrawalsOk, MerkleRoot, NextVault, CanonicalAll;
  }

  // ---- Transfers ----

  /** The pool has an output of the wanted amount with this key. */
  ghost predicate Offers(pool: seq<OneTimeOutput>, key: Key256, target: U64) {
    exists o :: o in pool && o.destination == key && (target > 0 ==> o.amount == target)
  }

  lemma {:induction false} CandidatesOffered(pool: seq<OneTimeOutput>, own: Key256, target: U64)
    ensures forall key :: key in Candidates(pool, own, target) ==> Offers(pool, key, target)
  {
    if pool != [] {
      var n := |pool| - 1;
      var init, o := pool[..n], pool[n];
      CandidatesOffered(init, own, target);
      forall key | key in Candidates(pool, own, target) ensures Offers(pool, key, target) {
        if key in Candidates(init, own, target) {
          var x :| x in init && x.destination == key && (target > 0 ==> x.amount == target);
          assert x in pool;
        } else {
          assert o in pool && o.destination == key;
        }
      }
    }
  }

  lemma SelectedAreCandidates(pool: seq<OneTimeOutput>, n: nat, own: Key256, target: U64, pick: nat -> nat, x: Key256)
    requires x in SelectDecoys(pool, n, own, target, pick)
    ensures x in Candidates(pool, own, target)
  {
    var c := Candidates(pool, own, target);
    if c != [] {
      Decoys.ShuffleMembers(c, |c| - 1, pick);
      SameMembers(Shuffle(c, |c| - 1, pick), c, x);
    }
  }

  /** Every decoy is the key of an output of the wanted amount. */
  lemma DecoyFits(pool: seq<OneTimeOutput>, n: nat, own: Key256, target: U64, pick: nat -> nat, x: Key256)
    requires NoDup(Destinations(pool)) && target > 0 && x in SelectDecoys(pool, n, own, target, pick)
    ensures Lookup(pool, x).Some? && Lookup(pool, x).value.amount == target
  {
    SelectedAreCandidates(pool, n, own, target, pick, x);
    CandidatesOffered(pool, own, target);
    var o :| o in pool && o.destination == x && o.amount == target;
    LookupFinds(pool, o);
  }

  /** Every member of a transfer's ring has the amount of its input. */
  lemma RingFits(s: NodeState, a: TransferArgs)
    requires NoDup(Destinations(s.pool)) && a.input in s.pool && a.input.amount > 0
    ensures RingMembersOk(s.pool, RingOf(s, a).0, a.input.amount)
  {
    var own, amount := a.input.destination, a.input.amount;
    var decoys := SelectDecoys(s.pool, RING_SIZE, own, amount, a.rnd.pick);
    LookupFinds(s.pool, a.input);
    forall x | x in decoys ensures Lookup(s.pool, x).Some? && Lookup(s.pool, x).value.amount == amount {
      DecoyFits(s.pool, RING_SIZE, own, amount, a.rnd.pick, x);
    }
    InsertFits(s.pool, decoys, a.rnd.position % (|decoys| + 1), own, amount);
  }

  lemma InsertFits(pool: seq<OneTimeOutput>, keys: seq<Key256>, at: nat, own: Key256, amount: nat)
    requires at <= |keys| && Lookup(pool, own).Some? && Lookup(pool, own).value.amount == amount
    requires forall x :: x in keys ==> Lookup(pool, x).Some? && Lookup(pool, x).value.amount == amount
    ensures RingMembersOk(pool, keys[..at] + [own] + keys[at..], amount)
  {
    InsertMembers(keys, at, own);
    var ring := keys[..at] + [own] + keys[at..];
    forall i | 0 <= i < |ring| ensures Lookup(pool, ring[i]).Some? && Lookup(pool, ring[i]).value.amount == amount {
      assert ring[i] in ring;
    }
  }

  /** A transfer's transaction carries its canonical hash and a signature that verifies over
      the ring it has chosen. */
  ghost predicate Signed(p: Params, s: NodeState, a: TransferArgs, tx: ShieldedTransaction) {
    && tx.ringSig.ring == RingOf(s, a).0 && Ring.Verify(p.k, tx.txHash, tx.ringSig)
    && tx.txHash == Ring.CanonicalTxHash(p.k, tx.outputs, tx.publicFee, tx.ringSig.ring, tx.ringSig.keyImage)
  }

  lemma TransferSigned(p: Params, s: NodeState, a: TransferArgs)
    requires BuildTransfer(p, s, a).Some?
    ensures Signed(p, s, a, BuildTransfer(p, s, a).value)
  {
  }

  lemma PaymentsPositive(k: Curve, a: TransferArgs)
    requires a.send + a.fee <= a.input.amount && TransferOutputs(k, a).Some?
    ensures Positive(TransferOutputs(k, a).value) <==> a.send > 0
  {
    assert TransferOutputs(k, a).value[0].amount == a.send;
  }

  lemma PaymentOk(p: Params, s: NodeState, a: TransferArgs, height: nat, tx: ShieldedTransaction)
    requires NoDup(Destinations(s.pool)) && Pays(p, s, a, tx) && Signed(p, s, a, tx)
    ensures TxOk(p, s, height, tx) <==> a.send > 0
  {
    hide Ring.Verify, Ring.CanonicalTxHash, IsSpent, RingMembersOk, Positive, TransferOutputs, RingOf, Stealth.ScanOutput, DerivedImage;
    TransferAmounts(p.k, a);
    PaymentsPositive(p.k, a);
    VerifiedDistinct(p.k, tx.txHash, tx.ringSig);
    if a.send > 0 { RingFits(s, a); }
  }

  lemma VerifiedDistinct(k: Curve, m: Hash256, sig: RingSignature)
    requires Ring.Verify(k, m, sig)
    ensures NoDup(sig.ring)
  {
  }

  lemma OneTx(p: Params, s: NodeState, b: Block, tx: ShieldedTransaction)
    requires b.txs == [tx]
    ensures TxsOk(p, s, b) <==> TxOk(p, s, b.header.height, tx)
  {
    assert b.txs[0] == tx;
  }

  /** A transfer's block passes every validation if and only if the validator may mine and the
      amount sent is not zero. */
  lemma TransferAccepted(p: Params, s: NodeState, c: seq<Block>, a: TransferArgs)
    requires Inv(p.k, s, c) && SigningWorks(p) && s.db.topHeight + 1 < TWO_64 && Transfer(p, s, a).Mined?
    ensures ValidBlock(p, s, Transfer(p, s, a).block) <==> MayMine(p) && a.send > 0
  {
    var b, tx := Transfer(p, s, a).block, BuildTransfer(p, s, a).value;
    var sections := Block(NO_HEADER, [tx], [], [], [], []);
    PoolDistinct(p, s, c);
    TransferMines(p, s, a);
    MinedFramed(p, s, a.timestamp, sections, []);
    MinedAuth(p, s, a.timestamp, sections);
    NoDeposits(p, s, b);
    NoWithdrawals(p, s, b);
    TransferPays(p, s, a);
    TransferSigned(p, s, a);
    PaymentOk(p, s, a, b.header.height, tx);
    OneTx(p, s, b, tx);
    FramedValid(p, s, b);
  }

  lemma SubmittedOk(p: Params, s: NodeState, height: nat, tx: ShieldedTransaction)
    requires SubmitOk(p, s, tx)
    ensures TxOk(p, s, height, tx)
  {
  }

  /** A submitted transaction's block passes every validation if and only if the validator may
      mine. */
  lemma SubmitAccepted(p: Params, s: NodeState, c: seq<Block>, tx: ShieldedTransaction, timestamp: U64)
    requires Inv(p.k, s, c) && SigningWorks(p) && s.db.topHeight + 1 < TWO_64 && Submit(p, s, tx, timestamp).Mined?
    ensures ValidBlock(p, s, Submit(p, s, tx, timestamp).block) <==> MayMine(p)
  {
    var b := Submit(p, s, tx, timestamp).block;
    var sections := Block(NO_HEADER, [tx], [], [], [], []);
    SubmitMines(p, s, tx, timestamp);
    MinedFramed(p, s, timestamp, sections, []);
    MinedAuth(p, s, timestamp, sections);
    NoDeposits(p, s, b);
    NoWithdrawals(p, s, b);
    SubmittedOk(p, s, b.header.height, tx);
    OneTx(p, s, b, tx);
    FramedValid(p, s, b);
  }

  // ---- Deposits ----

  /** The parts of a deposit block as the mining node builds it. */
  ghost predicate Deposits(p: Params, b: Block) {
    && |b.deposits| == |b.depositOutputs| == 1
    && var d := b.deposits[0];
    && d.txHash != [] && d.gross > 0 && FeeCalc(d.gross, p.depositBps) == Some(d.fee) && d.net == d.gross - d.fee
    && Some(b.depositOutputs[0]) == Stealth.CreateOutput(p.k, Stealth.Address(d.spendPub, d.viewPub), d.net,
                                        Stealth.SeededSecret(p.k, Stealth.DepositSeed(p.k, d.txHash)))
  }

  lemma SectionsDeposit(p: Params, split: Split, a: BuyArgs)
    requires a.gross > 0 && FeeCalc(a.gross, p.depositBps) == Some(split.fee) && split.net == a.gross - split.fee
    requires DepositSections(p, split, a).Some?
    ensures Deposits(p, DepositSections(p, split, a).value)
  {
    assert ZERO_X + ToHex(a.randomHash) != [];
  }

  lemma DepositSplit(b: Balances, bps: U32, gross: U64)
    requires ApplyDeposit(b, bps, gross).1.Done?
    ensures var split := ApplyDeposit(b, bps, gross).1.value;
      gross > 0 && FeeCalc(gross, bps) == Some(split.fee) && split.net == gross - split.fee
  {
  }

  lemma BuyDeposits(p: Params, s: NodeState, a: BuyArgs)
    requires s.db.topHeight + 1 < TWO_64 && Buy(p, s, a).Mined?
    ensures Deposits(p, Buy(p, s, a).block)
    ensures var b := Buy(p, s, a).block;
      b.txs == [] && b.withdrawals == [] && b.withdrawalOutputs == [] && (AuthOk(p, b) <==> p.authorized != [])
  {
    hide AuthOk, Deposits;
    var split := ApplyDeposit(s.vault, p.depositBps, a.gross).1.value;
    var sections := DepositSections(p, split, a).value;
    DepositSplit(s.vault, p.depositBps, a.gross);
    SectionsDeposit(p, split, a);
    var b := Buy(p, s, a).block;
    assert b.(header := NO_HEADER) == sections.(header := NO_HEADER);
    DepositsAnyHeader(p, sections, b);
    DepositAuth(p, b);
  }

  lemma DepositsAnyHeader(p: Params, a: Block, b: Block)
    requires Deposits(p, a) && a.(header := b.header) == b
    ensures Deposits(p, b)
  {
  }

  lemma DepositAuth(p: Params, b: Block)
    requires b.deposits != [] && (p.authorized != [] ==> Quorum(p.k, b.header, p.authorized) >= RequiredQuorum(p))
    ensures AuthOk(p, b) <==> p.authorized != []
  {
  }

  lemma DepositAccepted(p: Params, s: NodeState, b: Block)
    requires Deposits(p, b)
    ensures DepositsOk(p, s, b)
      <==> b.deposits[0].txHash !in s.db.tables.deposits && Stealth.DepositKeysOk(p.k, b.deposits[0])
  {
    Stealth.RederivationIsCreation(p.k, b.deposits[0], b.depositOutputs[0]);
  }

  lemma BuyFramed(p: Params, s: NodeState, a: BuyArgs)
    requires s.db.topHeight + 1 < TWO_64 && Buy(p, s, a).Mined?
    ensures Framed(p, s, Buy(p, s, a).block)
  {
    var sections := DepositSections(p, ApplyDeposit(s.vault, p.depositBps, a.gross).1.value, a).value;
    MinedFramed(p, s, a.timestamp, sections, a.cosigners);
  }

  /** A deposit's block, mined with the quorum the node itself demands, is valid everywhere if
      and only if somebody is authorized, the deposit id has not been processed, and the
      recipient's keys and the derivation pass. */
  lemma BuyAccepted(p: Params, s: NodeState, c: seq<Block>, a: BuyArgs)
    requires Inv(p.k, s, c) && s.db.topHeight + 1 < TWO_64 && Buy(p, s, a).Mined?
    ensures var b := Buy(p, s, a).block;
      && |b.deposits| == 1
      && (ValidBlock(p, s, b) <==> p.authorized != [] && b.deposits[0].txHash !in s.db.tables.deposits
                                   && Stealth.DepositKeysOk(p.k, b.deposits[0]))
  {
    var b := Buy(p, s, a).block;
    BuyMines(p, s, a);
    BuyFramed(p, s, a);
    BuyDeposits(p, s, a);
    DepositAccepted(p, s, b);
    NoWithdrawals(p, s, b);
    FramedValid(p, s, b);
  }

  // ---- Withdrawals ----

  /** The burn proof's points are admissible and the verifier's operations succeed. */
  predicate BurnChecks(k: Curve, w: WithdrawalReceipt) {
    && Ring.BurnAdmissible(k, w.burnedKey, w.keyImage)
    && Ring.Step(k, true, BurnMessageOf(k, w), w.keyImage, w.burnS, w.burnC0, w.burnedKey).Some?
  }

  lemma ProofVerifies(k: Curve, g: Group, a: WithdrawArgs, w: WithdrawalReceipt)
    requires Lawful(k, g) && HonestWallet(k, g, a.wallet, a.input) && Proves(k, a, w)
    ensures Ring.VerifyBurn(k, BurnMessageOf(k, w), w.burnedKey, w.keyImage, w.burnC0, w.burnS) <==> BurnChecks(k, w)
  {
    Stealth.ScannedKeyOpens(k, g, a.wallet, a.input);
    var x := Stealth.DerivePrivateKey(k, a.wallet, a.input).value;
    Ring.BurnThenVerify(k, g, BurnMessageOf(k, w), w.burnedKey, x, a.alpha, Ring.BurnProof(w.keyImage, w.burnC0, w.burnS));
  }

  predicate ChangePointsOk(k: Curve, outs: seq<OneTimeOutput>) {
    forall i :: 0 <= i < |outs| ==> k.valid(outs[i].destination) && k.valid(outs[i].ephemeral)
  }

  lemma OneChange(p: Params, s: NodeState, a: WithdrawArgs, b: Block)
    requires Burns(p, s, a, b) && Lookup(s.pool, a.input.destination) == Some(a.input)
    ensures ChangeBalanced(s.pool, b)
  {
    var w, outs := b.withdrawals[0], b.withdrawalOutputs;
    assert b.withdrawals[..0] == [] && Changes(s.pool, b.withdrawals) == [] + ChangeOf(s.pool, w);
    assert Changes(s.pool, b.withdrawals) == Map(AsChange, outs);
  }

  /** The one withdrawal of a mined block passes exactly if its proof does. */
  lemma BurnOk(p: Params, s: NodeState, a: WithdrawArgs, b: Block)
    requires NoDup(Destinations(s.pool)) && Burns(p, s, a, b)
    requires var w := b.withdrawals[0];
      Ring.VerifyBurn(p.k, BurnMessageOf(p.k, w), w.burnedKey, w.keyImage, w.burnC0, w.burnS) <==> BurnChecks(p.k, w)
    ensures WithdrawalOk(p, s, b.withdrawals[0]) <==> BurnChecks(p.k, b.withdrawals[0])
  {
    LookupFinds(s.pool, a.input);
    hide Ring.VerifyBurn, BurnChecks, BurnMessageOf, IsSpent, ValidEvmAddress, Lookup;
  }

  lemma BurnAccepted(p: Params, s: NodeState, a: WithdrawArgs, b: Block)
    requires NoDup(Destinations(s.pool)) && Burns(p, s, a, b)
    requires var w := b.withdrawals[0];
      Ring.VerifyBurn(p.k, BurnMessageOf(p.k, w), w.burnedKey, w.keyImage, w.burnC0, w.burnS) <==> BurnChecks(p.k, w)
    ensures WithdrawalsOk(p, s, b) <==> BurnChecks(p.k, b.withdrawals[0]) && ChangePointsOk(p.k, b.withdrawalOutputs)
  {
    assert |b.withdrawals| == 1;
    hide ChangeBalanced, WithdrawalOk, BurnChecks, Ring.VerifyBurn, BurnMessageOf, ChangeOutputOk, ChangePointsOk, Burns;
    OneChange(p, s, a, b);
    BurnOk(p, s, a, b);
    ChangeOk(p, s, a, b);
  }

  lemma ChangeOk(p: Params, s: NodeState, a: WithdrawArgs, b: Block)
    requires Burns(p, s, a, b)
    ensures (forall i :: 0 <= i < |b.withdrawalOutputs| ==> ChangeOutputOk(p.k, b.withdrawalOutputs[i])) <==> ChangePointsOk(p.k, b.withdrawalOutputs)
  {
    hide IsSpent, ValidEvmAddress;
  }

  /** A withdrawal's block is valid everywhere if and only if the validator may mine, the burn
      proof's points are admissible and its operations succeed, and the change output's
      points are valid. */
  lemma WithdrawAccepted(p: Params, g: Group, s: NodeState, c: seq<Block>, a: WithdrawArgs)
    requires Lawful(p.k, g) && HonestWallet(p.k, g, a.wallet, a.input)
    requires Inv(p.k, s, c) && SigningWorks(p) && s.db.topHeight + 1 < TWO_64
    requires |a.orderBytes| == 16 && Withdraw(p, s, a).Mined?
    ensures var b := Withdraw(p, s, a).block;
      && |b.withdrawals| == 1
      && (ValidBlock(p, s, b) <==> MayMine(p) && BurnChecks(p.k, b.withdrawals[0]) && ChangePointsOk(p.k, b.withdrawalOutputs))
  {
    var b := Withdraw(p, s, a).block;
    WithdrawMines(p, s, a);
    WithdrawFramed(p, s, a);
    WithdrawBurns(p, s, a);
    ProofVerifies(p.k, g, a, b.withdrawals[0]);
    PoolDistinct(p, s, c);
    BurnAccepted(p, s, a, b);
    NoDeposits(p, s, b);
    assert TxsOk(p, s, b);
    FramedValid(p, s, b);
  }

  lemma WithdrawFramed(p: Params, s: NodeState, a: WithdrawArgs)
    requires SigningWorks(p) && s.db.topHeight + 1 < TWO_64 && |a.orderBytes| == 16 && Withdraw(p, s, a).Mined?
    ensures var b := Withdraw(p, s, a).block; Framed(p, s, b) && (b.deposits == [] ==> (AuthOk(p, b) <==> MayMine(p)))
  {
    var split := ApplyWithdrawal(s.vault, p.withdrawBps, a.tokens).1.value;
    var sections := WithdrawSections(p, a, split, WithdrawKeys(p, s, a).value.0, WithdrawChange(p.k, a).value).value;
    MinedFramed(p, s, a.timestamp, sections, []);
    MinedAuth(p, s, a.timestamp, sections);
  }

  // ---- Equal states stay equal ----

  /** Another node: the same chain parameters, its own key. */
  ghost predicate Peers(p: Params, q: Params) {
    q == p.(sk := q.sk, pk := q.pk)
  }

  lemma PeersAgree(p: Params, q: Params, s: NodeState, b: Block)
    requires Peers(p, q)
    ensures ValidBlock(p, s, b) <==> ValidBlock(q, s, b)
    ensures Append(p, s, b) == Append(q, s, b)
  {
    hide MerkleRoot, CanonicalAll, Ring.Verify, Ring.VerifyBurn, Lookup, Changes, CommitBlock, Stealth.RederivationAccepts;
    assert TxsOk(p, s, b) <==> TxsOk(q, s, b);
    assert WithdrawalsOk(p, s, b) <==> WithdrawalsOk(q, s, b);
    assert DepositsOk(p, s, b) <==> DepositsOk(q, s, b);
  }
}
