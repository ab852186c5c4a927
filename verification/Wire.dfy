/** Replica agreement over the wire: a mined block reaches another node as bytes, which
    `Block::deserialize` may refuse before any validation (src/rpc_server.cpp:885-910,
    src/p2p.cpp:313-326, src/block.cpp:475-530). */
module Wire {
  import opened Types
  import opened Sequences
  import opened ByteOrder
  import opened CurveModel
  import opened HeaderModel
  import opened VaultModel
  import opened DbModel
  import opened Ledger
  import opened Chain
  import opened Agreement
  import opened Atomicity
  import opened Runs
  import opened Conservation
  import opened Convergence
  import opened Backing
  import opened Replica
  import Ring
  import RoundTrip
  import Stealth

  /** A block sent to another node: it is read, and if that succeeds, applied. */
  ghost function Deliver(q: Params, t: NodeState, b: Block): (NodeState, bool) {
    match Reread(q.k, b) case None => (t, false) case Some(read) => ApplyRemote(q, t, read)
  }

  /** The block passes validation on this state, and its bytes give it back. */
  ghost predicate Accepted(p: Params, s: NodeState, b: Block) {
    ValidBlock(p, s, b) && Storable(p.k, b)
  }

  lemma PeerApplies(p: Params, q: Params, s: NodeState, t: NodeState, c: seq<Block>, b: Block)
    requires Peers(p, q) && Inv(p.k, s, c) && Same(s, t) && b.header.height == s.db.topHeight + 1
    ensures var (t', ok) := ApplyRemote(q, t, b);
      && (ok <==> ValidBlock(p, s, b))
      && (if ok then Same(t', Append(p, s, b)) else Same(t', s))
  {
    hide Reread, ValidBlock, Append, Recover, Readable;
    PoolDistinct(p, s, c);
    ValidSame(p, s, t, b);
    PeersAgree(p, q, t, b);
    AppendSame(p, s, t, b);
    SameInv(p.k, s, t, c);
    RecoversHere(p.k, t, c);
    assert ApplyRemote(q, t, b) == Extend(q, t, b);
  }

  /** A node in an equal state takes in a block for the next height that is sent to it if and
      only if the block is valid there and its bytes give it back, and then both states are
      equal again. */
  lemma PeerAccepts(p: Params, q: Params, s: NodeState, t: NodeState, c: seq<Block>, b: Block)
    requires Peers(p, q) && Inv(p.k, s, c) && Same(s, t) && b.header.height == s.db.topHeight + 1
    requires RoundTrip.Sized(b) && b.header.version >= 3
    ensures var (t', ok) := Deliver(q, t, b);
      && (ok <==> Accepted(p, s, b))
      && (if ok then Same(t', Append(p, s, b)) else Same(t', s))
  {
    hide Reread, ValidBlock, Append, ApplyRemote, Inv, RoundTrip.Sized;
    ReadIsStorable(p.k, b);
    if Storable(p.k, b) { PeerApplies(p, q, s, t, c, b); } else { SameBack(s, t); }
  }

  lemma SameBack(s: NodeState, t: NodeState)
    requires Same(s, t)
    ensures Same(t, s)
  {
  }

  // ---- Which mined blocks can be read ----

  /** The keys of a quorum, each once. */
  ghost predicate QuorumOf(h: Header, keys: set<Key256>) {
    |h.quorumKeys| == |h.quorumSigs| == |keys| && Elements(h.quorumKeys) == keys && Sorted(Signers(h.quorumKeys, h.quorumSigs))
  }

  lemma AddsSigner(h: Header, keys: set<Key256>, pk: Key256, sig: Sig64)
    requires QuorumOf(h, keys)
    ensures QuorumOf(AddSigner(h, pk, sig), keys + {pk})
  {
    var q, r := Signers(h.quorumKeys, h.quorumSigs), AddSigner(h, pk, sig);
    var q' := Insert(q, Signer(pk, sig));
    InsertSorted(q, Signer(pk, sig));
    assert Signers(r.quorumKeys, r.quorumSigs) == q';
    KeyCount(q);
    KeyCount(q');
    SortedKeys(q');
    NoDupCardinality(r.quorumKeys);
    forall x ensures x in Elements(r.quorumKeys) <==> x in keys + {pk} {
      KeyOf(q, x);
      KeyOf(q', x);
    }
  }

  lemma KeyOf(q: seq<Signer>, x: Key256)
    ensures x in Keys(q) <==> exists s :: s in q && s.key == x
  {
    if x in Keys(q) {
      var i :| 0 <= i < |q| && Keys(q)[i] == x;
      assert q[i] in q;
    }
    if exists s :: s in q && s.key == x {
      var s :| s in q && s.key == x;
      var i :| 0 <= i < |q| && q[i] == s;
      assert Keys(q)[i] == x;
    }
  }

  lemma KeyCount(q: seq<Signer>)
    ensures |Keys(q)| == |q|
  {
  }

  lemma SortedKeys(q: seq<Signer>)
    requires Sorted(q)
    ensures NoDup(Keys(q))
  {
    forall i, j | 0 <= i < j < |q| ensures Keys(q)[i] != Keys(q)[j] { LessTotal(q[i].key, q[j].key); }
  }

  /** The validator and its cosigners. */
  function Signatories(k: Curve, pk: Key256, sks: seq<Sig64>): set<Key256> {
    if sks == [] then {pk} else Signatories(k, pk, sks[..|sks| - 1]) + {k.skToPk(sks[|sks| - 1])}
  }

  lemma {:induction false} SignatoriesFew(k: Curve, pk: Key256, sks: seq<Sig64>)
    ensures |Signatories(k, pk, sks)| <= |sks| + 1
  {
    if sks != [] { SignatoriesFew(k, pk, sks[..|sks| - 1]); }
  }

  lemma {:induction false} CosignQuorum(k: Curve, h: Header, pk: Key256, sks: seq<Sig64>)
    requires QuorumOf(h, {pk})
    ensures QuorumOf(Cosign(k, h, sks), Signatories(k, pk, sks))
  {
    if sks != [] {
      var n := |sks| - 1;
      CosignQuorum(k, h, pk, sks[..n]);
      var h' := Cosign(k, h, sks[..n]);
      AddsSigner(h', Signatories(k, pk, sks[..n]), k.skToPk(sks[n]), k.edSign(SigningHash(k, h'), sks[n]));
    }
  }

  /** The header of a mined block: version 3, and one quorum entry per signatory. */
  lemma MinedQuorum(p: Params, s: NodeState, timestamp: U64, sections: Block, sks: seq<Sig64>)
    requires s.db.topHeight + 1 < TWO_64
    ensures var h := Cosign(p.k, MineBlock(p, s, timestamp, sections).header, sks);
      h.version == 3 && QuorumOf(h, Signatories(p.k, p.pk, sks))
  {
    var h := NextHeader(p, s, timestamp, sections);
    var sig := p.k.edSign(SigningHash(p.k, h), p.sk);
    var bare := h.(validatorKey := p.pk, validatorSig := sig);
    assert QuorumOf(bare, {});
    AddsSigner(bare, {}, p.pk, sig);
    assert {} + {p.pk} == {p.pk};
    CosignQuorum(p.k, AddSigner(bare, p.pk, sig), p.pk, sks);
    CosignKeeps(p.k, MineBlock(p, s, timestamp, sections).header, sks);
  }

  lemma OneOk<T(!new)>(ok: T -> bool, x: T)
    ensures RoundTrip.All(ok, [x]) <==> ok(x)
    ensures RoundTrip.All(ok, [])
  {
    if RoundTrip.All(ok, [x]) { assert ok([x][0]); }
  }

  /** A block of one transaction is given back if and only if the transaction is within limits. */
  lemma OneTxStorable(k: Curve, b: Block, tx: ShieldedTransaction, keys: set<Key256>)
    requires b == Block(b.header, [tx], [], [], [], []) && b.header.version == 3 && QuorumOf(b.header, keys) && |keys| == 1
    ensures Storable(k, b) <==> RoundTrip.TxFits(k, tx)
    ensures RoundTrip.TxSized(tx) ==> RoundTrip.Sized(b)
  {
    hide Reread, RoundTrip.TxFits, RoundTrip.TxSized;
    StorableIff(k, b);
    OneOk(RoundTrip.TxOks(k), tx);
    OneOk(RoundTrip.TxSized, tx);
    OneOk(RoundTrip.DepositOk, EMPTY_DEPOSIT);
    OneOk(RoundTrip.WithdrawalOk, EMPTY_WITHDRAWAL);
    OneOk(RoundTrip.OutputOks(k), EMPTY_OUTPUT);
  }

  const EMPTY_OUTPUT := OneTimeOutput(ZERO_KEY, ZERO_KEY, 0)
  const EMPTY_DEPOSIT := DepositReceipt(0, 0, 0, [], ZERO_KEY, ZERO_KEY)
  const EMPTY_WITHDRAWAL := WithdrawalReceipt(0, 0, 0, [], [], ZERO_KEY, ZERO_KEY, ZERO_KEY, ZERO_KEY, ZERO_KEY)

  /** The reader's points check on every output. */
  predicate OutputsOk(k: Curve, outs: seq<OneTimeOutput>) {
    forall i :: 0 <= i < |outs| ==> RoundTrip.OutputOk(k, outs[i])
  }

  // ---- Transfers and submissions ----

  lemma TransferFits(p: Params, s: NodeState, a: TransferArgs)
    requires BuildTransfer(p, s, a).Some?
    ensures var tx := BuildTransfer(p, s, a).value;
      && RoundTrip.TxSized(tx) && TransferOutputs(p.k, a) == Some(tx.outputs)
      && (RoundTrip.TxFits(p.k, tx) <==> OutputsOk(p.k, tx.outputs))
  {
    hide Stealth.CreateOutput, Ring.Sign, Ring.KeyImageOf, SelectDecoys, Ring.CanonicalTxHash;
    TransferPays(p, s, a);
    TransferSigned(p, s, a);
    RingSmall(s, a);
    var tx := BuildTransfer(p, s, a).value;
    assert Ring.Admissible(p.k, tx.ringSig);
  }

  lemma RingSmall(s: NodeState, a: TransferArgs)
    ensures 1 <= |RingOf(s, a).0| <= RING_SIZE
  {
    hide Candidates, Shuffle;
  }

  /** The bytes of a transfer's block are read by every node if and only if the points of the
      outputs it creates are valid; the node that mines it does not look. */
  lemma TransferDelivered(p: Params, s: NodeState, c: seq<Block>, a: TransferArgs)
    requires Inv(p.k, s, c) && SigningWorks(p) && s.db.topHeight + 1 < TWO_64 && Transfer(p, s, a).Mined?
    ensures var b := Transfer(p, s, a).block;
      && RoundTrip.Sized(b) && b.header.version == 3 && TransferOutputs(p.k, a).Some?
      && (Accepted(p, s, b) <==> MayMine(p) && a.send > 0 && OutputsOk(p.k, TransferOutputs(p.k, a).value))
  {
    hide Reread, ValidBlock, BuildTransfer, Inv, Append, RoundTrip.TxFits, RoundTrip.TxSized, RoundTrip.Sized;
    var tx := BuildTransfer(p, s, a).value;
    TransferAccepted(p, s, c, a);
    TransferFits(p, s, a);
    MinedQuorum(p, s, a.timestamp, Block(NO_HEADER, [tx], [], [], [], []), []);
    OneTxStorable(p.k, Transfer(p, s, a).block, tx, Signatories(p.k, p.pk, []));
  }

  /** What the reader asks of a transaction and `submit_pre_signed_transaction` does not. */
  predicate SubmitReads(k: Curve, tx: ShieldedTransaction) {
    && |tx.ringSig.ring| <= RoundTrip.Parsing.MAX_RING && |tx.outputs| <= RoundTrip.Parsing.MAX_TX_OUTPUTS
    && OutputsOk(k, tx.outputs) && RoundTrip.TextOk(tx.timestamp)
  }

  lemma SubmitFits(p: Params, s: NodeState, tx: ShieldedTransaction)
    requires SubmitOk(p, s, tx)
    ensures RoundTrip.TxFits(p.k, tx) <==> SubmitReads(p.k, tx)
  {
    assert Ring.Admissible(p.k, tx.ringSig);
  }

  /** A submitted transaction is mined with outputs that no node can read, its own included: the
      block is taken in elsewhere if and only if the validator may mine and the transaction is
      within the reader's limits. */
  lemma SubmitDelivered(p: Params, s: NodeState, c: seq<Block>, tx: ShieldedTransaction, timestamp: U64)
    requires Inv(p.k, s, c) && SigningWorks(p) && s.db.topHeight + 1 < TWO_64 && Submit(p, s, tx, timestamp).Mined?
    requires RoundTrip.TxSized(tx)
    ensures var b := Submit(p, s, tx, timestamp).block;
      && RoundTrip.Sized(b) && b.header.version == 3
      && (Accepted(p, s, b) <==> MayMine(p) && SubmitReads(p.k, tx))
  {
    hide Reread, ValidBlock, SubmitOk, Inv, Append, RoundTrip.TxFits, RoundTrip.TxSized, RoundTrip.Sized, SubmitReads;
    SubmitAccepted(p, s, c, tx, timestamp);
    SubmitFits(p, s, tx);
    MinedQuorum(p, s, timestamp, Block(NO_HEADER, [tx], [], [], [], []), []);
    OneTxStorable(p.k, Submit(p, s, tx, timestamp).block, tx, Signatories(p.k, p.pk, []));
  }

  // ---- Deposits ----

  /** The id under which a deposit is booked. */
  function DepositId(a: BuyArgs): Text {
    if a.customTxHash != [] then a.customTxHash else ZERO_X + ToHex(a.randomHash)
  }

  /** The receipt of a deposit, from the arguments of the call. */
  function ReceiptOf(p: Params, a: BuyArgs): DepositReceipt {
    var fee: U64 := match FeeCalc(a.gross, p.depositBps) case Some(f) => f case None => 0;
    DepositReceipt(a.gross, fee, a.gross - fee, DepositId(a), a.to.viewPub, a.to.spendPub)
  }

  function DepositSecret(k: Curve, a: BuyArgs): Key256 {
    Stealth.SeededSecret(k, Stealth.DepositSeed(k, DepositId(a)))
  }

  lemma BuyReceipt(p: Params, s: NodeState, a: BuyArgs)
    requires s.db.topHeight + 1 < TWO_64 && Buy(p, s, a).Mined?
    ensures var b := Buy(p, s, a).block;
      && b.deposits == [ReceiptOf(p, a)] && |b.depositOutputs| == 1
      && b == Block(b.header, [], b.deposits, [], b.depositOutputs, [])
      && b.header == Cosign(p.k, MineBlock(p, s, a.timestamp, b.(header := NO_HEADER)).header, a.cosigners)
      && Some(b.depositOutputs[0]) == Stealth.CreateOutput(p.k, a.to, ReceiptOf(p, a).net, DepositSecret(p.k, a))
  {
    hide Append, Quorum, NextHeader, Cosign, Stealth.CreateOutput, Stealth.DepositSeed, Stealth.SeededSecret;
    DepositSplit(s.vault, p.depositBps, a.gross);
    var split := ApplyDeposit(s.vault, p.depositBps, a.gross).1.value;
    var sections := DepositSections(p, split, a).value;
    assert Buy(p, s, a).block.(header := NO_HEADER) == sections;
  }

  lemma OneDepositStorable(k: Curve, b: Block, keys: set<Key256>)
    requires b == Block(b.header, [], b.deposits, [], b.depositOutputs, []) && |b.deposits| == |b.depositOutputs| == 1
    requires b.header.version == 3 && QuorumOf(b.header, keys) && |keys| < TWO_32
    ensures Storable(k, b) <==> |keys| <= RoundTrip.Parsing.MAX_QUORUM && RoundTrip.TextOk(b.deposits[0].txHash)
                                && RoundTrip.OutputOk(k, b.depositOutputs[0])
    ensures RoundTrip.Sized(b)
  {
    hide Reread, RoundTrip.OutputOk;
    StorableIff(k, b);
    assert b.deposits == [b.deposits[0]] && b.depositOutputs == [b.depositOutputs[0]];
    OneOk(RoundTrip.DepositOk, b.deposits[0]);
    OneOk(RoundTrip.OutputOks(k), b.depositOutputs[0]);
    OneOk(RoundTrip.WithdrawalOk, EMPTY_WITHDRAWAL);
  }

  /** What a caller of `buy_shielded` has to see to. */
  ghost predicate BuyAcceptable(p: Params, s: NodeState, a: BuyArgs) {
    && p.authorized != [] && DepositId(a) !in s.db.tables.deposits
    && Stealth.DepositKeysOk(p.k, ReceiptOf(p, a)) && p.k.valid(p.k.base(DepositSecret(p.k, a)))
    && RoundTrip.TextOk(DepositId(a)) && |Signatories(p.k, p.pk, a.cosigners)| <= RoundTrip.Parsing.MAX_QUORUM
  }

  lemma BuyDelivered(p: Params, s: NodeState, c: seq<Block>, a: BuyArgs)
    requires Inv(p.k, s, c) && s.db.topHeight + 1 < TWO_64 && Buy(p, s, a).Mined? && |a.cosigners| + 1 < TWO_32
    ensures var b := Buy(p, s, a).block;
      && RoundTrip.Sized(b) && b.header.version == 3
      && (Accepted(p, s, b) <==> BuyAcceptable(p, s, a))
  {
    hide Reread, ValidBlock, Buy, Inv, Append, RoundTrip.Sized, Stealth.CreateOutput, Stealth.DepositSeed;
    hide Stealth.SeededSecret;
    var b := Buy(p, s, a).block;
    BuyAccepted(p, s, c, a);
    BuyReceipt(p, s, a);
    MinedQuorum(p, s, a.timestamp, b.(header := NO_HEADER), a.cosigners);
    SignatoriesFew(p.k, p.pk, a.cosigners);
    OneDepositStorable(p.k, b, Signatories(p.k, p.pk, a.cosigners));
  }

  // ---- Withdrawals ----

  /** The withdrawal block's sections, from the arguments of the call. */
  function CalledSections(p: Params, a: WithdrawArgs): Option<Block>
    requires |a.orderBytes| == 16
  {
    var fee: U64 := match FeeCalc(a.tokens, p.withdrawBps) case Some(f) => f case None => 0;
    match Stealth.DerivePrivateKey(p.k, a.wallet, a.input) case None => None case Some(x) =>
      if a.tokens > a.input.amount then None else
      match WithdrawChange(p.k, a) case None => None case Some(outs) =>
        WithdrawSections(p, a, Split(fee, a.tokens - fee), x, outs)
  }

  lemma WithdrawCalled(p: Params, s: NodeState, a: WithdrawArgs)
    requires s.db.topHeight + 1 < TWO_64 && |a.orderBytes| == 16 && Withdraw(p, s, a).Mined?
    ensures CalledSections(p, a).Some?
    ensures Withdraw(p, s, a).block == MineBlock(p, s, a.timestamp, CalledSections(p, a).value)
  {
    hide Append, MineBlock, WithdrawSections, WithdrawChange, Stealth.ScanOutput, Ring.KeyImageOf;
    WithdrawalSplit(s.vault, p.withdrawBps, a.tokens);
  }

  lemma OneWithdrawalStorable(k: Curve, b: Block, keys: set<Key256>)
    requires b == Block(b.header, [], [], b.withdrawals, [], b.withdrawalOutputs) && |b.withdrawals| == 1 && |b.withdrawalOutputs| <= 1
    requires b.header.version == 3 && QuorumOf(b.header, keys) && |keys| == 1
    requires RoundTrip.WithdrawalOk(b.withdrawals[0])
    ensures Storable(k, b) <==> OutputsOk(k, b.withdrawalOutputs)
    ensures RoundTrip.Sized(b)
  {
    hide Reread, RoundTrip.OutputOk;
    StorableIff(k, b);
    assert b.withdrawals == [b.withdrawals[0]];
    OneOk(RoundTrip.WithdrawalOk, b.withdrawals[0]);
    OneOk(RoundTrip.DepositOk, EMPTY_DEPOSIT);
    OneOk(RoundTrip.OutputOks(k), EMPTY_OUTPUT);
    if b.withdrawalOutputs != [] {
      assert b.withdrawalOutputs == [b.withdrawalOutputs[0]];
      OneOk(RoundTrip.OutputOks(k), b.withdrawalOutputs[0]);
    }
  }

  lemma SectionsShape(p: Params, a: WithdrawArgs)
    requires |a.orderBytes| == 16 && CalledSections(p, a).Some?
    ensures var b := CalledSections(p, a).value;
      && b == Block(NO_HEADER, [], [], b.withdrawals, [], b.withdrawalOutputs) && |b.withdrawals| == 1
      && |b.withdrawalOutputs| <= 1 && WithdrawChange(p.k, a) == Some(b.withdrawalOutputs)
      && |b.withdrawals[0].orderId| == 36 && b.withdrawals[0].destination == a.destination
  {
    hide Ring.SignBurn, Ring.BurnMessage, Stealth.CreateOutput;
  }

  /** What a caller of `withdraw_shielded` has to see to: the proof it makes, verified as others
      verify it, and the change it creates. */
  ghost predicate WithdrawAcceptable(p: Params, a: WithdrawArgs)
    requires |a.orderBytes| == 16
  {
    MayMine(p) && match CalledSections(p, a) case None => false case Some(b) =>
      |b.withdrawals| == 1 && BurnChecks(p.k, b.withdrawals[0]) && OutputsOk(p.k, b.withdrawalOutputs)
  }

  lemma WithdrawDelivered(p: Params, g: Group, s: NodeState, c: seq<Block>, a: WithdrawArgs)
    requires Lawful(p.k, g) && HonestWallet(p.k, g, a.wallet, a.input)
    requires Inv(p.k, s, c) && SigningWorks(p) && s.db.topHeight + 1 < TWO_64
    requires |a.orderBytes| == 16 && Withdraw(p, s, a).Mined?
    ensures var b := Withdraw(p, s, a).block;
      && RoundTrip.Sized(b) && b.header.version == 3
      && (Accepted(p, s, b) <==> WithdrawAcceptable(p, a))
  {
    hide Lawful, Reread, ValidBlock, Withdraw, Inv, Append, RoundTrip.Sized, NextHeader, BurnChecks, CalledSections;
    var b := Withdraw(p, s, a).block;
    WithdrawAccepted(p, g, s, c, a);
    WithdrawCalled(p, s, a);
    SectionsShape(p, a);
    WithdrawTo(p, s, a);
    MinedQuorum(p, s, a.timestamp, CalledSections(p, a).value, []);
    OneWithdrawalStorable(p.k, b, Signatories(p.k, p.pk, []));
  }

  lemma WithdrawTo(p: Params, s: NodeState, a: WithdrawArgs)
    requires s.db.topHeight + 1 < TWO_64 && |a.orderBytes| == 16 && Withdraw(p, s, a).Mined?
    ensures |a.destination| == 42
  {
  }

  // ---- Every local operation ----

  /** Vectors of fewer than 2^32 elements in what is handed to the node. */
  predicate SizedCall(op: Op) {
    match op
    case OpBuy(a) => |a.cosigners| + 1 < TWO_32
    case OpSubmit(tx, _) => RoundTrip.TxSized(tx)
    case _ => true
  }

  /** What a caller has to see to for the other nodes to take in what the local node mines. */
  ghost predicate Acceptable(p: Params, s: NodeState, op: Op) {
    match op
    case OpBuy(a) => BuyAcceptable(p, s, a)
    case OpTransfer(a) =>
      && MayMine(p) && a.send > 0 && a.send + a.fee <= a.input.amount
      && TransferOutputs(p.k, a).Some? && OutputsOk(p.k, TransferOutputs(p.k, a).value)
    case OpWithdraw(a) => |a.orderBytes| == 16 && WithdrawAcceptable(p, a)
    case OpSubmit(tx, _) => MayMine(p) && SubmitReads(p.k, tx)
    case _ => false
  }

  lemma MinedIsAccepted(p: Params, g: Group, s: NodeState, c: seq<Block>, op: Op)
    requires Lawful(p.k, g) && SigningWorks(p) && Inv(p.k, s, c) && Callable(s, op) && IsLocal(op) && Local(p, s, op).Mined?
    requires SizedCall(op) && (op.OpWithdraw? ==> HonestWallet(p.k, g, op.withdraw.wallet, op.withdraw.input))
    ensures var b := Local(p, s, op).block;
      RoundTrip.Sized(b) && b.header.version == 3 && (Accepted(p, s, b) <==> Acceptable(p, s, op))
  {
    hide Lawful, SigningWorks, Inv, Accepted, RoundTrip.Sized, Buy, Transfer, Withdraw, Submit, BuyAcceptable;
    hide WithdrawAcceptable, SubmitReads;
    match op
    case OpBuy(a) => BuyDelivered(p, s, c, a);
    case OpTransfer(a) =>
      TransferDelivered(p, s, c, a);
      TransferCovers(p, s, a);
    case OpWithdraw(a) => WithdrawDelivered(p, g, s, c, a);
    case OpSubmit(tx, ts) => SubmitDelivered(p, s, c, tx, ts);
    case _ =>
  }

  lemma TransferCovers(p: Params, s: NodeState, a: TransferArgs)
    requires s.db.topHeight + 1 < TWO_64 && Transfer(p, s, a).Mined?
    ensures a.send + a.fee <= a.input.amount
  {
    hide Append, MineBlock;
    TransferPays(p, s, a);
  }

  /** Replica agreement for every local operation: another node in an equal state takes in the
      mined block it is sent exactly when these conditions on the call hold, and is then in the
      miner's state; otherwise it is unchanged. */
  lemma MinedBlockAgrees(p: Params, q: Params, g: Group, s: NodeState, t: NodeState, c: seq<Block>, op: Op)
    requires Lawful(p.k, g) && SigningWorks(p) && Inv(p.k, s, c) && Callable(s, op) && IsLocal(op) && Local(p, s, op).Mined?
    requires SizedCall(op) && (op.OpWithdraw? ==> HonestWallet(p.k, g, op.withdraw.wallet, op.withdraw.input))
    requires Peers(p, q) && Same(s, t)
    ensures var (t', ok) := Deliver(q, t, Local(p, s, op).block);
      && (ok <==> Acceptable(p, s, op))
      && (if ok then Same(t', Step(p, s, op)) else Same(t', s))
  {
    hide Lawful, SigningWorks, Accepted, Acceptable, Local, Append, Deliver, RoundTrip.Sized, Interrupted, Readable;
    MinedIsAccepted(p, g, s, c, op);
    LocalOutcome(p, s, op);
    PeerAccepts(p, q, s, t, c, Local(p, s, op).block);
  }

  /** An instance for every submission: one that passes all the node's checks with an output
      that is no point is mined into a block that no node can read. */
  lemma UnreadableSubmission(p: Params, s: NodeState, tx: ShieldedTransaction, timestamp: U64)
    requires s.db.topHeight + 1 < TWO_64 && SubmitOk(p, s, tx) && RoundTrip.TxSized(tx)
    requires tx.outputs != [] && !p.k.valid(tx.outputs[0].destination)
    ensures Submit(p, s, tx, timestamp).Mined?
    ensures var b := Submit(p, s, tx, timestamp).block;
      && Reread(p.k, b).None? && !Recoverable(p.k, b) && RoundTrip.Sized(b)
      && forall q: Params, t: NodeState :: q.k == p.k ==> Deliver(q, t, b) == (t, false)
  {
    hide Reread, SubmitOk, Append, RoundTrip.TxSized, RoundTrip.Sized;
    var b := Submit(p, s, tx, timestamp).block;
    MinedQuorum(p, s, timestamp, Block(NO_HEADER, [tx], [], [], [], []), []);
    OneTxStorable(p.k, b, tx, Signatories(p.k, p.pk, []));
    assert !RoundTrip.OutputOk(p.k, tx.outputs[0]);
    ReadIsStorable(p.k, b);
  }

  /** What becomes of it: the miner's memory has the transaction, its tables do not give it back.
      A restart changes the state, and so does every block that is refused on the tip. */
  lemma SubmissionIsLost(p: Params, s: NodeState, c: seq<Block>, tx: ShieldedTransaction, timestamp: U64)
    requires Inv(p.k, s, c) && s.db.topHeight + 1 < TWO_64 && SubmitOk(p, s, tx) && RoundTrip.TxSized(tx)
    requires tx.outputs != [] && !p.k.valid(tx.outputs[0].destination)
    requires Submit(p, s, tx, timestamp).Mined? ==> NewNames(p.k, s.db.tables, Submit(p, s, tx, timestamp).block)
    ensures var t := Submit(p, s, tx, timestamp).state;
      && !Same(Restart(p, t.db.tables), t)
      && forall r :: !Competes(t, r) && !ApplyRemote(p, t, r).1 ==> !Same(ApplyRemote(p, t, r).0, t)
  {
    hide Reread, SubmitOk, Append, RoundTrip.TxSized, RoundTrip.Sized, Submit, NewNames, Held, Recoverable;
    hide Restart, ApplyRemote, Extends;
    UnreadableSubmission(p, s, tx, timestamp);
    var t, b := Submit(p, s, tx, timestamp).state, Submit(p, s, tx, timestamp).block;
    SubmitMines(p, s, tx, timestamp);
    NoDepositsIn(p, s, tx, timestamp);
    SitsExtends(p, s, c, b);
    AppendHolds(p, s, c, b);
    ReadableFits(p.k, c);
    LostAfter(p, t, c, b);
  }

  lemma NoDepositsIn(p: Params, s: NodeState, tx: ShieldedTransaction, timestamp: U64)
    requires s.db.topHeight + 1 < TWO_64 && Submit(p, s, tx, timestamp).Mined?
    ensures DepositIds(Submit(p, s, tx, timestamp).block.deposits) == {}
  {
    hide SubmitOk, Append;
  }

  /** A ledger whose last block a recovery loses. */
  lemma LostAfter(p: Params, t: NodeState, c: seq<Block>, b: Block)
    requires Held(p.k, t, c + [b]) && AllSized(c) && RoundTrip.Sized(b) && !Recoverable(p.k, b)
    ensures !Same(Restart(p, t.db.tables), t)
    ensures forall r :: !Competes(t, r) && !ApplyRemote(p, t, r).1 ==> !Same(ApplyRemote(p, t, r).0, t)
  {
    hide RoundTrip.Sized, Held, Recoverable, Restart, ApplyRemote, TipKnown, Reread;
    var d := c + [b];
    assert d[|c|] == b && forall i :: 0 <= i < |c| ==> d[i] == c[i];
    RestartIsInvisible(p, t, d);
    forall r | !Competes(t, r) && !ApplyRemote(p, t, r).1 ensures !Same(ApplyRemote(p, t, r).0, t) {
      RefusedChangesNothing(p, t, r, d);
    }
  }

  /** Another instance: with nobody authorized, lowering the version of a block without deposits
      leaves it valid, while its bytes no longer give its sections back. */
  lemma OldVersionIsValid(p: Params, s: NodeState, b: Block)
    requires ValidBlock(p, s, b) && p.authorized == [] && b.deposits == [] && !RoundTrip.NoSections(b)
    ensures var aged := b.(header := b.header.(version := 2, quorumKeys := [], quorumSigs := []));
      ValidBlock(p, s, aged) && !Storable(p.k, aged)
  {
    hide Reread, TxOk, Ledger.WithdrawalOk, RoundTrip.BlockOk;
    var aged := b.(header := b.header.(version := 2, quorumKeys := [], quorumSigs := []));
    RootOfSections(p.k, b, aged);
    StorableIff(p.k, aged);
    assert Spends(b) == Spends(aged) && NextVault(p, s, b) == NextVault(p, s, aged);
    forall i | 0 <= i < |aged.txs| ensures TxOk(p, s, aged.header.height, aged.txs[i]) {
      assert TxOk(p, s, b.header.height, b.txs[i]);
    }
  }
}
