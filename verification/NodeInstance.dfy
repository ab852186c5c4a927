/** A node over the interface of CurveInstance: the hypotheses of the run theorems hold together
    on a run that is not empty, and what the code does not do is shown on it. */
module NodeInstance {
  import opened Types
  import opened Sequences
  import opened ByteOrder
  import opened LittleEndian
  import opened CurveModel
  import opened CurveInstance
  import opened HeaderModel
  import opened VaultModel
  import opened DbModel
  import opened Ledger
  import opened Chain
  import opened Agreement
  import opened Atomicity
  import opened Runs
  import opened Conservation
  import opened Backing
  import opened Replica
  import opened Wire
  import opened Drift
  import Merkle
  import RoundTrip
  import Ring
  import Stealth

  // ---- Images ----

  /** 64 x (h, 1) for the key xG, where h is its digest. */
  ghost function Image(pk: Key256): KeyImage {
    Times(64 * First(pk), Point(FromLE(Digest(pk)), 1))
  }

  /** A multiple of the first generator. */
  predicate OnLine(p: Key256) { OnIt(p) && Second(p) == 0 }

  lemma OpenedKey(x: Key256)
    ensures var p := Times(FromLE(x), Point(1, 0)); OnLine(p) && First(p) == Residue(FromLE(x))
  {
    PointParts(1, 0);
    SmallResidues();
    assert FromLE(x) * 1 == FromLE(x) && FromLE(x) * 0 == 0;
    PointParts(FromLE(x), 0);
  }

  lemma ImageOfKey(x: Key256, pk: Key256)
    requires Ring.Opens(Pairs(), x, pk)
    ensures var k := Interface();
      && Ring.HashToPoint(k, pk).Some? && OnIt(Ring.HashToPoint(k, pk).value)
      && Ring.KeyImageOf(k, x, pk).Some? && Canonical(k, Ring.KeyImageOf(k, x, pk).value) == Image(pk)
  {
    hide Times, Plus, OnIt, Point, Residue, Digest, FromLE, First;
    var k, g := Interface(), Pairs();
    var raw, n := Point(FromLE(Digest(pk)), 1), FromLE(x);
    InterfaceIsLawful();
    PointParts(FromLE(Digest(pk)), 1);
    EightIsEight();
    TimesNests(8, 8, raw);
    TimesNests(n, 8, raw);
    var image := Times(n, Times(8, raw));
    TimesNests(n, 1, Times(8, raw));
    PlusCommutes(image, image);
    PlusCommutes(Plus(image, image), Plus(image, image));
    OnMultiple(n, Times(8, raw));
    CanonicalIsEightfold(k, g, image);
    TimesNests(8, n * 8, raw);
    OpenedKey(x);
    SixtyFour(n, First(pk), raw);
  }

  lemma OnMultiple(n: int, p: Key256)
    ensures OnIt(Times(n, p))
  {
    PointParts(n * First(p), n * Second(p));
  }

  lemma SixtyFour(n: int, m: nat, raw: Key256)
    requires m == Residue(n)
    ensures Times(8 * (n * 8), raw) == Times(64 * m, raw)
  {
    hide Residue, Point, First, Second;
    assert 8 * (n * 8) == 64 * n;
    Lifted(n, m, First(raw));
    Lifted(n, m, Second(raw));
    SamePoint(64 * n * First(raw), 64 * n * Second(raw), 64 * m * First(raw), 64 * m * Second(raw));
  }

  lemma Lifted(n: int, m: nat, a: int)
    requires m == Residue(n)
    ensures Residue(64 * n * a) == Residue(64 * m * a)
  {
    hide Residue;
    Reorder(n, a);
    Reorder(m, a);
    ResiduesTimes(64 * a, n);
  }

  lemma Reorder(n: int, a: int)
    ensures 64 * n * a == (64 * a) * n
  {
  }

  lemma ImagesAreLinked()
    ensures Linked(Interface(), Pairs(), Image)
  {
    hide Image, Interface, Pairs, Ring.Opens, Ring.KeyImageOf, Canonical;
    forall x: Key256, pk: Key256 | Ring.Opens(Pairs(), x, pk)
      ensures Ring.KeyImageOf(Interface(), x, pk).Some?
        ==> Canonical(Interface(), Ring.KeyImageOf(Interface(), x, pk).value) == Image(pk) {
      ImageOfKey(x, pk);
    }
  }

  /** 2^121 undoes the factor 64. */
  const LIFT: nat := 0x200_0000_0000_0000_0000_0000_0000_0000

  lemma Lowered(x: nat)
    requires x < ORDER
    ensures Residue(LIFT * Residue(64 * x)) == x
  {
    ResiduesTimes(LIFT, 64 * x);
    assert LIFT * (64 * x) == x + x * ORDER;
    ModShift(x, x, ORDER);
  }

  /** Different keys on the line have different images. */
  lemma ImagesDiffer(outs: seq<OneTimeOutput>)
    requires forall o :: o in outs ==> OnLine(o.destination)
    ensures Injective(Image, outs)
  {
    hide Image, OnLine;
    forall a, b | a in outs && b in outs && Image(a.destination) == Image(b.destination) ensures a.destination == b.destination {
      ImageTells(a.destination);
      ImageTells(b.destination);
    }
  }

  /** The key can be computed from its image. */
  function KeyOfImage(image: KeyImage): Key256 { Point(LIFT * Second(image), 0) }

  lemma ImageTells(p: Key256)
    requires OnLine(p)
    ensures p == KeyOfImage(Image(p))
  {
    hide Residue, Point, First, FromLE, Digest;
    var raw, x := Point(FromLE(Digest(p)), 1), First(p);
    SmallParts(p);
    PointParts(FromLE(Digest(p)), 1);
    SmallResidues();
    PointParts((64 * x) * First(raw), (64 * x) * Second(raw));
    assert (64 * x) * 1 == 64 * x;
    Lowered(x);
    SamePoint(LIFT * Residue(64 * x), 0, x, 0);
  }

  lemma SmallParts(p: Key256)
    requires OnIt(p)
    ensures First(p) < ORDER && Second(p) < ORDER
  {
    hide Residue;
    PointParts(First(p), Second(p));
  }

  // ---- The node ----

  const SECRET: Sig64 := [7] + Zeros(63)

  /** Rates of 0, and nobody authorized. */
  ghost function Site(): Params {
    Params(Interface(), 0, 0, [], 0, SECRET, PublicKey(SECRET))
  }

  lemma SiteSigns()
    ensures SigningWorks(Site())
  {
    assert PublicKey(SECRET)[0] == 7 && ZERO_KEY[0] == 0;
  }

  ghost function WalletOf(spend: Key256, view: Key256): Stealth.Wallet {
    Stealth.Wallet(spend, BaseMul(spend), view, BaseMul(view))
  }

  lemma BaseOpens(x: Key256)
    ensures OnLine(BaseMul(x)) && OnIt(BaseMul(x)) && Ring.Opens(Pairs(), x, BaseMul(x))
  {
    OpenedKey(x);
  }

  /** Every output made for a public key on the line is on it, and can be read. */
  lemma CreatedOnLine(to: Stealth.Address, amount: U64, r: Key256)
    requires OnIt(to.viewPub) && OnLine(to.spendPub)
    ensures var out := Stealth.CreateOutput(Interface(), to, amount, r);
      out.Some? && OnLine(out.value.destination) && RoundTrip.OutputOk(Interface(), out.value)
  {
    hide OnIt, Times, Point, Residue, First, Second, FromLE;
    var k := Interface();
    OnMultiple(FromLE(r), to.viewPub);
    var rB := Times(FromLE(r), to.viewPub);
    var x := Stealth.SharedScalar(k, rB);
    BaseOpens(x);
    BaseOpens(r);
    LineAdds(BaseMul(x), to.spendPub);
  }

  lemma LineAdds(p: Key256, q: Key256)
    requires OnLine(p) && OnLine(q)
    ensures OnLine(Plus(p, q))
  {
    hide Residue, Point, First, Second;
    PointParts(First(p) + First(q), 0);
    SmallResidues();
  }

  /** The hash of a header tells its height and its timestamp. */
  lemma DigestOf(b: Block)
    ensures BlockHash(Interface(), b) == EncU64(b.header.height) + EncU64(b.header.timestamp) + Zeros(16)
  {
    var h := b.header;
    var e := EncHeader(h);
    var a, t := EncU32(h.version), EncU32(h.version) + EncU64(h.height) + h.prevHash + h.merkleRoot;
    assert EncHeaderBase(h)[4..12] == EncU64(h.height);
    assert EncHeaderBase(h)[76..84] == EncU64(h.timestamp);
    assert e[4..12] == EncHeaderBase(h)[4..12] && e[76..84] == EncHeaderBase(h)[76..84];
  }

  /** A block for the next height has a new hash. */
  lemma NewHash(s: NodeState, c: seq<Block>, b: Block)
    requires Inv(Interface(), s, c) && b.header.height == |c|
    ensures BlockHash(Interface(), b) !in s.db.tables.index
  {
    hide BlockHash, Readable, Interface, ChainOk, DbOf;
    var k := Interface();
    if BlockHash(k, b) in s.db.tables.index {
      ChainIndex(k, c, s.vault, BlockHash(k, b));
      var i: nat :| i < |c| && c[i].header.height == i && BlockHash(k, b) == BlockHash(k, c[i]);
      HashTells(b, c[i]);
    }
  }

  lemma HashTells(a: Block, b: Block)
    requires BlockHash(Interface(), a) == BlockHash(Interface(), b)
    ensures a.header.height == b.header.height && a.header.timestamp == b.header.timestamp
  {
    hide BlockHash, Interface, EncU64;
    var x, y := BlockHash(Interface(), a), BlockHash(Interface(), b);
    DigestOf(a);
    DigestOf(b);
    assert EncU64(a.header.height) == x[..8] == y[..8] == EncU64(b.header.height);
    assert EncU64(a.header.timestamp) == x[8..16] == y[8..16] == EncU64(b.header.timestamp);
    U64Tells(a.header.height, b.header.height);
    U64Tells(a.header.timestamp, b.header.timestamp);
  }

  // ---- A deposit ----

  const THOUSAND: U64 := 1000
  const NOON: U64 := 43200

  lemma FeesOf1000()
    ensures FeeCalc(THOUSAND, 0) == Some(0) && FeeCalc(THOUSAND, 50) == Some(5)
  {
  }

  /** Deposits of 1000 on an empty vault and after one another. */
  lemma Thousands()
    ensures ApplyDeposit(EMPTY_VAULT, 0, THOUSAND) == (Balances(THOUSAND, THOUSAND, 0), Done(Split(0, THOUSAND)))
    ensures ApplyDeposit(Balances(THOUSAND, THOUSAND, 0), 0, THOUSAND).1 == Done(Split(0, THOUSAND))
  {
    FeesOf1000();
  }

  lemma ThousandBurns()
    ensures ApplyWithdrawal(Balances(THOUSAND, THOUSAND, 0), 0, THOUSAND) == (EMPTY_VAULT, Done(Split(0, THOUSAND)))
  {
    FeesOf1000();
  }

  ghost function BuyCall(spend: Key256, view: Key256): BuyArgs {
    BuyArgs(THOUSAND, WalletOf(spend, view).Public(), [49], NOON, [], ZERO_KEY)
  }

  /** The deposit of 1000 to a wallet, on the first block and any vault that takes it. */
  ghost predicate Fresher(s: NodeState) {
    && s.db == Restart(Site(), EMPTY_TABLES).db && s.pool == []
    && ApplyDeposit(s.vault, 0, THOUSAND).1 == Done(Split(0, THOUSAND))
  }

  /** Without a quorum to reach, a deposit that the vault and the derivation take is mined. */
  lemma BuyGoesThrough(p: Params, s: NodeState, a: BuyArgs)
    requires s.db.topHeight + 1 < TWO_64 && p.authorized == []
    requires var r := ApplyDeposit(s.vault, p.depositBps, a.gross).1; r.Done? && DepositSections(p, r.value, a).Some?
    ensures Buy(p, s, a).Mined? && !Interrupted(p, s, OpBuy(a))
  {
    hide DepositSections, ApplyDeposit, MineBlock, Append, Quorum, Cosign;
  }

  lemma SectionsExist(p: Params, split: Split, a: BuyArgs)
    requires Stealth.CreateOutput(p.k, a.to, split.net, DepositSecret(p.k, a)).Some?
    ensures DepositSections(p, split, a).Some?
  {
    hide Stealth.CreateOutput, Stealth.SeededSecret, Stealth.DepositSeed;
  }

  lemma BuySucceeds(s: NodeState, spend: Key256, view: Key256)
    requires Fresher(s)
    ensures var p, a := Site(), BuyCall(spend, view);
      && s.db.topHeight + 1 < TWO_64 && s.db.topHeight == 0
      && Buy(p, s, a).Mined? && !Interrupted(p, s, OpBuy(a))
  {
    hide OnIt, OnLine, BaseMul, Interface, Restart, Buy, Interrupted, ApplyDeposit, DepositSections;
    hide DepositSecret, Stealth.CreateOutput, RoundTrip.OutputOk, Ring.Opens, Pairs, Inv, EMPTY_TABLES, GENESIS;
    hide SECRET, PublicKey;
    var p, a := Site(), BuyCall(spend, view);
    FirstTop();
    BaseOpens(spend);
    BaseOpens(view);
    CreatedOnLine(a.to, THOUSAND, DepositSecret(p.k, a));
    SectionsExist(p, Split(0, THOUSAND), a);
    BuyGoesThrough(p, s, a);
  }

  lemma FirstTop()
    ensures var s := Restart(Site(), EMPTY_TABLES); s.db.topHeight == 0 && s.vault == EMPTY_VAULT && Inv(Interface(), s, [GENESIS])
  {
    hide Restart, Interface, Readable;
    FirstStart(Site());
    LocalTop(Site(), Restart(Site(), EMPTY_TABLES), [GENESIS]);
  }

  /** The deposit's block: its one output is on the line, and its bytes give it back. */
  ghost predicate Deposits(a: BuyArgs, b: Block) {
    var p := Site();
    && b == Block(b.header, [], [ReceiptOf(p, a)], [], b.depositOutputs, []) && b.header.height == 1
    && |b.depositOutputs| == 1 && OnLine(b.depositOutputs[0].destination)
    && Some(b.depositOutputs[0]) == Stealth.CreateOutput(p.k, a.to, THOUSAND, DepositSecret(p.k, a))
    && Storable(p.k, b)
  }

  lemma BuyHappens(s: NodeState, spend: Key256, view: Key256)
    requires Fresher(s) && s.db.topHeight == 0 && Buy(Site(), s, BuyCall(spend, view)).Mined?
    ensures var a := BuyCall(spend, view); Deposits(a, Buy(Site(), s, a).block)
  {
    hide OnIt, OnLine, BaseMul, Stealth.CreateOutput, Stealth.SeededSecret, Stealth.DepositSeed, Storable;
    hide Recover, Append, Interface, Quorum, NextHeader, MineBlock, Merkle.MerkleRoot, Buy, Fresher;
    var p, a := Site(), BuyCall(spend, view);
    BaseOpens(spend);
    BaseOpens(view);
    CreatedOnLine(a.to, THOUSAND, DepositSecret(p.k, a));
    BuyReceipt(p, s, a);
    FeesOf1000();
    var b := Buy(p, s, a).block;
    MinedHeader(p, s, a.timestamp, b.(header := NO_HEADER), []);
    MinedQuorum(p, s, a.timestamp, b.(header := NO_HEADER), []);
    OneDepositStorable(p.k, b, Signatories(p.k, p.pk, []));
  }

  // ---- Its withdrawal ----

  /** "0x" and forty ones. */
  function Payee(): Text { [48, 120] + Ones(40) }

  function Ones(n: nat): (b: Bytes)
    ensures |b| == n && forall i :: 0 <= i < n ==> b[i] == 49
  {
    seq(n, (i: nat) => 49)
  }

  lemma PayeeIsValid()
    ensures ValidEvmAddress(Payee()) && RoundTrip.TextOk(Payee())
  {
    assert Payee()[2] == 49;
  }

  ghost function BurnCall(spend: Key256, view: Key256, out: OneTimeOutput): WithdrawArgs {
    WithdrawArgs(WalletOf(spend, view), out, THOUSAND, Payee(), NOON, Zeros(16), ZERO_KEY, ZERO_KEY)
  }

  lemma HonestHere(spend: Key256, view: Key256, input: OneTimeOutput)
    ensures HonestWallet(Interface(), Pairs(), WalletOf(spend, view), input)
  {
    hide BaseMul, Pairs;
    BaseOpens(spend);
    BaseOpens(view);
  }

  /** The wallet finds the output made for it, and its key opens it. */
  lemma ScansHere(spend: Key256, view: Key256, amount: U64, r: Key256, out: OneTimeOutput)
    requires Stealth.CreateOutput(Interface(), WalletOf(spend, view).Public(), amount, r) == Some(out)
    ensures var k, w := Interface(), WalletOf(spend, view);
      && Stealth.ScanOutput(k, w, out) && Stealth.DerivePrivateKey(k, w, out).Some?
      && Ring.Opens(Pairs(), Stealth.DerivePrivateKey(k, w, out).value, out.destination)
  {
    hide OnIt, BaseMul, Times, Plus, Lawful, Stealth.Keyed, Ring.Opens;
    var k, w := Interface(), WalletOf(spend, view);
    InterfaceIsLawful();
    HonestHere(spend, view, out);
    BaseOpens(r);
    Stealth.SharedPoint(k, Pairs(), w, r);
    Stealth.ScannedKeyOpens(k, Pairs(), w, out);
  }

  lemma BurnSigns(m: Hash256, p: Key256, x: Key256, alpha: Key256)
    requires Ring.Opens(Pairs(), x, p)
    ensures Ring.SignBurn(Interface(), m, p, x, alpha).Some?
  {
    hide Canonical, Image, Times, OnIt, Ring.Opens, Pairs;
    ImageOfKey(x, p);
  }

  /** A withdrawal of everything whose checks pass is mined. */
  lemma BurnGoesThrough(p: Params, s: NodeState, a: WithdrawArgs)
    requires s.db.topHeight + 1 < TWO_64 && |a.orderBytes| == 16 && a.tokens == a.input.amount
    requires WithdrawKeys(p, s, a).Some? && ApplyWithdrawal(s.vault, p.withdrawBps, a.tokens).1.Done?
    requires forall m :: Ring.SignBurn(p.k, m, a.input.destination, WithdrawKeys(p, s, a).value.0, a.alpha).Some?
    ensures Withdraw(p, s, a).Mined? && !Interrupted(p, s, Op.OpWithdraw(a))
  {
    hide WithdrawKeys, Ring.SignBurn, ApplyWithdrawal, MineBlock, Append;
  }

  lemma KeysExist(p: Params, s: NodeState, a: WithdrawArgs, x: Key256)
    requires ValidEvmAddress(a.destination) && Stealth.ScanOutput(p.k, a.wallet, a.input)
    requires a.tokens <= a.input.amount && a.input in s.pool && s.spent == {} == s.db.tables.images.Keys
    requires Stealth.DerivePrivateKey(p.k, a.wallet, a.input) == Some(x) && Ring.KeyImageOf(p.k, x, a.input.destination).Some?
    ensures WithdrawKeys(p, s, a) == Some((x, Ring.KeyImageOf(p.k, x, a.input.destination).value))
  {
    hide ValidEvmAddress, Stealth.ScanOutput, Stealth.DerivePrivateKey, Ring.KeyImageOf, Canonical;
  }

  /** A state in which a wallet's output of 1000 is all there is. */
  ghost predicate Holding(s: NodeState, spend: Key256, view: Key256, r: Key256, out: OneTimeOutput) {
    && Stealth.CreateOutput(Interface(), WalletOf(spend, view).Public(), THOUSAND, r) == Some(out)
    && out in s.pool && s.spent == {} == s.db.tables.images.Keys && s.vault == Balances(THOUSAND, THOUSAND, 0)
    && s.db.topHeight == 1
  }

  lemma BurnSucceeds(s: NodeState, spend: Key256, view: Key256, r: Key256, out: OneTimeOutput)
    requires Holding(s, spend, view, r, out)
    ensures var p, a := Site(), BurnCall(spend, view, out);
      Withdraw(p, s, a).Mined? && !Interrupted(p, s, Op.OpWithdraw(a))
  {
    hide Stealth.CreateOutput, Stealth.ScanOutput, Stealth.DerivePrivateKey, Ring.KeyImageOf, Ring.SignBurn;
    hide Ring.Opens, Pairs, Interface, Payee, ValidEvmAddress;
    hide WithdrawKeys, Withdraw, Interrupted, ApplyWithdrawal, SECRET, PublicKey, Canonical, Image, BaseMul, OnIt;
    var p, a := Site(), BurnCall(spend, view, out);
    PayeeIsValid();
    ScansHere(spend, view, THOUSAND, r, out);
    var x := Stealth.DerivePrivateKey(p.k, a.wallet, out).value;
    ImageOfKey(x, out.destination);
    KeysExist(p, s, a, x);
    ThousandBurns();
    forall m: Hash256 ensures Ring.SignBurn(p.k, m, out.destination, x, a.alpha).Some? {
      BurnSigns(m, out.destination, x, a.alpha);
    }
    BurnGoesThrough(p, s, a);
  }

  /** The withdrawal's block: no output, one spend, and its bytes give it back. */
  ghost predicate Burns1000(b: Block) {
    && |b.withdrawals| == 1 && b == Block(b.header, [], [], b.withdrawals, [], []) && b.withdrawals[0].gross == THOUSAND
    && b.header.height == 2 && Storable(Interface(), b)
  }

  lemma BurnHappens(s: NodeState, spend: Key256, view: Key256, r: Key256, out: OneTimeOutput)
    requires Holding(s, spend, view, r, out) && Withdraw(Site(), s, BurnCall(spend, view, out)).Mined?
    ensures Burns1000(Withdraw(Site(), s, BurnCall(spend, view, out)).block)
  {
    hide Stealth.CreateOutput, Interface, Payee, Withdraw, SECRET, PublicKey, BaseMul, CalledSections, Storable;
    hide HeaderModel.Sign, Burns, Proves, NextHeader;
    var p, a := Site(), BurnCall(spend, view, out);
    PayeeIsValid();
    WithdrawCalled(p, s, a);
    SectionsShape(p, a);
    NoChange(p.k, a);
    CalledGross(p, a);
    MinedHeader(p, s, a.timestamp, CalledSections(p, a).value, []);
    MinedQuorum(p, s, a.timestamp, CalledSections(p, a).value, []);
    OneWithdrawalStorable(p.k, Withdraw(p, s, a).block, Signatories(p.k, p.pk, []));
  }

  lemma NoChange(k: Curve, a: WithdrawArgs)
    requires a.tokens == a.input.amount
    ensures WithdrawChange(k, a) == Some([])
  {
  }

  lemma CalledGross(p: Params, a: WithdrawArgs)
    requires |a.orderBytes| == 16 && CalledSections(p, a).Some?
    ensures |CalledSections(p, a).value.withdrawals| == 1 && CalledSections(p, a).value.withdrawals[0].gross == a.tokens
  {
    hide Ring.SignBurn, Ring.BurnMessage, Stealth.CreateOutput;
  }

  // ---- The first two steps ----

  ghost function Start(): NodeState { Restart(Site(), EMPTY_TABLES) }

  lemma StartTables()
    ensures var s := Start();
      Inv(Interface(), s, [GENESIS]) && s.db == DbOf(Interface(), [GENESIS], EMPTY_VAULT) && s.vault == EMPTY_VAULT
    ensures var s := Start(); s.pool == [] && s.spent == {} && s.db.topHeight == 0
    ensures Fresher(Start())
  {
    hide Interface, Readable, Restart, DbOf, ChainOk;
    FirstTop();
    GenesisDescribed(Interface(), EMPTY_VAULT);
    Thousands();
  }

  lemma StartSolvent()
    ensures Solvent(Start().vault)
  {
    hide Start;
    StartTables();
  }

  lemma GenesisTables()
    ensures var t := DbOf(Interface(), [GENESIS], EMPTY_VAULT).tables;
      t.deposits.Keys == {} && t.utxos.Keys == {} && t.images.Keys == {}
  {
    hide Interface, BlockHash;
    var k := Interface();
    GenesisDescribed(k, EMPTY_VAULT);
    DbOfPush(k, [], GENESIS, EMPTY_VAULT);
    assert [] + [GENESIS] == [GENESIS];
    assert DbOf(k, [], EMPTY_VAULT) == EMPTY_DB && DepositIds(GENESIS.deposits) == {};
    assert Destinations([]) == [] && Elements<Key256>([]) == {};
  }

  /** A block with at most one output, on an empty table of outputs if it has one. */
  lemma OneName(s: NodeState, c: seq<Block>, b: Block)
    requires Inv(Interface(), s, c) && b.header.height == |c| && |NewOutputs(b)| <= 1
    requires NewOutputs(b) != [] ==> s.db.tables.utxos.Keys == {}
    ensures NewNames(Interface(), s.db.tables, b)
  {
    hide Interface, Inv, BlockHash, NewOutputs;
    NewHash(s, c, b);
    var d := Destinations(NewOutputs(b));
    assert d == [] || d == [d[0]];
  }

  /** What the run theorems ask of the names of a block. */
  ghost predicate Named(s: NodeState, b: Block) {
    && NewNames(Interface(), s.db.tables, b) && Storable(Interface(), b)
    && DepositIds(b.deposits) !! s.db.tables.deposits.Keys && Injective(Image, s.pool + NewOutputs(b))
  }

  lemma DepositNamed(s: NodeState, a: BuyArgs, b: Block)
    requires Fresher(s) && Deposits(a, b)
    ensures Named(s, b) && Spends(b) == [] && s.pool == [] && s.pool + NewOutputs(b) == b.depositOutputs
  {
    hide Interface, Inv, DbOf, BlockHash, OnLine, Storable, DepositSecret, Stealth.CreateOutput, Image, Injective;
    hide NewNames, DepositIds, Start, SECRET, PublicKey, Fresher, Deposits, NewOutputs, Spends;
    FreshTables(s);
    StartTables();
    GenesisTables();
    DepositMakes(a, b);
    OneName(Start(), [GENESIS], b);
    LineInjective(NewOutputs(b));
  }

  lemma DepositMakes(a: BuyArgs, b: Block)
    requires Deposits(a, b)
    ensures NewOutputs(b) == b.depositOutputs && [] + NewOutputs(b) == NewOutputs(b) && Spends(b) == []
    ensures |NewOutputs(b)| == 1 && OnLine(NewOutputs(b)[0].destination) && Storable(Interface(), b) && b.header.height == 1
  {
    hide Interface, OnLine, Storable, DepositSecret, Stealth.CreateOutput;
  }

  lemma FreshTables(s: NodeState)
    requires Fresher(s)
    ensures s.db == Start().db && s.pool == []
  {
  }

  lemma LineInjective(outs: seq<OneTimeOutput>)
    requires |outs| <= 1 && (outs != [] ==> OnLine(outs[0].destination))
    ensures Injective(Image, outs)
  {
    hide OnLine, Image;
    ImagesDiffer(outs);
  }

  /** Both hypotheses of the run theorems, for one operation. */
  ghost predicate Fine(s: NodeState, c: seq<Block>, op: Op) {
    c != [] && Careful(Site(), s, c, op) && Honest(Site(), Pairs(), Image, s, op)
  }

  ghost predicate Mines(s: NodeState, op: Op, b: Block) {
    Callable(s, op) && IsLocal(op) && Local(Site(), s, op) == LocalResult.Mined(Append(Site(), s, b), b)
  }

  lemma BuyMined(s: NodeState, a: BuyArgs)
    requires Solvent(s.vault) && s.db.topHeight + 1 < TWO_64 && Buy(Site(), s, a).Mined?
    ensures Mines(s, OpBuy(a), Buy(Site(), s, a).block)
  {
    hide Buy, Interrupted, Sits, Append, Interface, SECRET;
    BuyMines(Site(), s, a);
  }

  lemma BurnMined(s: NodeState, a: WithdrawArgs)
    requires Solvent(s.vault) && s.db.topHeight + 1 < TWO_64 && |a.orderBytes| == 16 && Withdraw(Site(), s, a).Mined?
    ensures Mines(s, Op.OpWithdraw(a), Withdraw(Site(), s, a).block)
  {
    hide Withdraw, Interrupted, Sits, Append, Interface, SECRET;
    WithdrawMines(Site(), s, a);
  }

  lemma FineLocal(s: NodeState, c: seq<Block>, op: Op, b: Block)
    requires c != [] && (op.OpBuy? || op.OpWithdraw?) && !Interrupted(Site(), s, op) && Mines(s, op, b) && Named(s, b)
    requires op.OpWithdraw? ==> HonestWallet(Interface(), Pairs(), op.withdraw.wallet, op.withdraw.input)
    ensures Leads(s, c, op, Append(Site(), s, b), c + [b])
  {
    hide Interface, Pairs, Image, NewNames, Storable, Injective, Local, Interrupted, HonestWallet, Append;
    hide NewOutputs, SECRET, PublicKey;
  }

  /** One operation of a run, and where it leads. */
  ghost predicate Leads(s: NodeState, c: seq<Block>, op: Op, t: NodeState, d: seq<Block>) {
    Fine(s, c, op) && Step(Site(), s, op) == t && NextChain(Site(), s, c, op) == d
  }

  lemma LeadsKeeps(s: NodeState, c: seq<Block>, op: Op, t: NodeState, d: seq<Block>)
    requires Inv(Interface(), s, c) && Leads(s, c, op, t, d)
    ensures Inv(Interface(), t, d)
  {
    hide Interface, Inv, Careful, Honest, Step, NextChain, SECRET, PublicKey;
    StepKeeps(Site(), s, c, op);
  }

  /** The wallet holds the one output of the pool. */
  ghost predicate HoldsOf(s: NodeState, spend: Key256, view: Key256, r: Key256, outs: seq<OneTimeOutput>) {
    s.pool == outs && |outs| == 1 && Holding(s, spend, view, r, outs[0])
  }

  /** The deposit is careful and honest, and the wallet then holds its output. */
  lemma StageOne(spend: Key256, view: Key256) returns (b: Block, s: NodeState)
    ensures Leads(Start(), [GENESIS], OpBuy(BuyCall(spend, view)), s, [GENESIS] + [b]) && Inv(Interface(), s, [GENESIS] + [b])
    ensures |b.deposits| == 1 && b.deposits[0].gross == THOUSAND && b.withdrawals == []
    ensures |b.depositOutputs| == 1 && OnLine(b.depositOutputs[0].destination)
    ensures HoldsOf(s, spend, view, DepositSecret(Interface(), BuyCall(spend, view)), b.depositOutputs)
  {
    hide *;
    var a := BuyCall(spend, view);
    StartTables();
    StartSolvent();
    BuySucceeds(Start(), spend, view);
    BuyHappens(Start(), spend, view);
    b := Buy(Site(), Start(), a).block;
    BuyMined(Start(), a);
    DepositNamed(Start(), a, b);
    FineLocal(Start(), [GENESIS], OpBuy(a), b);
    s := Append(Site(), Start(), b);
    DepositParts(spend, view, b);
    BuyHolds(spend, view, b);
    LeadsKeeps(Start(), [GENESIS], OpBuy(a), s, [GENESIS] + [b]);
  }

  lemma DepositParts(spend: Key256, view: Key256, b: Block)
    requires Deposits(BuyCall(spend, view), b)
    ensures |b.deposits| == 1 && b.deposits[0].gross == THOUSAND && b.withdrawals == []
    ensures |b.depositOutputs| == 1 && OnLine(b.depositOutputs[0].destination)
  {
    hide Interface, OnLine, DepositSecret, Stealth.CreateOutput, Storable;
  }

  lemma BuyHolds(spend: Key256, view: Key256, b: Block)
    requires Deposits(BuyCall(spend, view), b)
    ensures HoldsOf(Append(Site(), Start(), b), spend, view, DepositSecret(Interface(), BuyCall(spend, view)), b.depositOutputs)
  {
    hide Interface, Inv, Start, DbOf, BlockHash, OnLine, BaseMul, Storable, DepositSecret, Fresher, ApplyDeposit;
    hide Stealth.CreateOutput, PutOutputs, SECRET, PublicKey, DepositIds, DepositId, VaultAfter;
    StartTables();
    GenesisTables();
    Thousands();
    OneDeposit(Start().vault, 0, 0, b.deposits[0], b);
    assert Spends(b) == [];
  }

  /** The withdrawal, too. */
  lemma StageTwo(s: NodeState, c: seq<Block>, spend: Key256, view: Key256, r: Key256, outs: seq<OneTimeOutput>)
    returns (op: Op, b: Block, t: NodeState)
    requires Inv(Interface(), s, c) && |c| == 2 && |outs| == 1 && HoldsOf(s, spend, view, r, outs) && OnLine(outs[0].destination)
    ensures op.OpWithdraw? && Leads(s, c, op, t, c + [b]) && Inv(Interface(), t, c + [b]) && Burns1000(b)
    ensures Injective(Image, t.pool)
  {
    hide *;
    var a := BurnCall(spend, view, outs[0]);
    HoldsOne(s, spend, view, r, outs);
    BurnSucceeds(s, spend, view, r, outs[0]);
    BurnHappens(s, spend, view, r, outs[0]);
    b := Withdraw(Site(), s, a).block;
    LowTop(s, c);
    BurnMined(s, a);
    BurnNamed(s, c, outs, b);
    HonestHere(spend, view, outs[0]);
    op := Op.OpWithdraw(a);
    FineLocal(s, c, op, b);
    t := Append(Site(), s, b);
    LeadsKeeps(s, c, op, t, c + [b]);
  }

  lemma HoldsOne(s: NodeState, spend: Key256, view: Key256, r: Key256, outs: seq<OneTimeOutput>)
    requires |outs| == 1 && HoldsOf(s, spend, view, r, outs)
    ensures Holding(s, spend, view, r, outs[0]) && s.pool == outs && s.db.topHeight + 1 < TWO_64
    ensures var a := BurnCall(spend, view, outs[0]);
      |a.orderBytes| == 16 && a.wallet == WalletOf(spend, view) && a.input == outs[0]
  {
    hide Stealth.CreateOutput, Interface, BaseMul, Payee;
  }

  lemma BurnNamed(s: NodeState, c: seq<Block>, outs: seq<OneTimeOutput>, b: Block)
    requires Inv(Interface(), s, c) && |c| == 2 && s.pool == outs && |outs| == 1 && OnLine(outs[0].destination) && Burns1000(b)
    ensures Named(s, b) && Injective(Image, Append(Site(), s, b).pool)
  {
    hide Interface, Inv, OnLine, Image, Injective, Storable, NewNames, SECRET, PublicKey, CommitDb, VaultAfter;
    assert NewOutputs(b) == [] && DepositIds(b.deposits) == {};
    assert s.pool + NewOutputs(b) == outs;
    OneName(s, c, b);
    LineInjective(outs);
  }

  lemma LowTop(s: NodeState, c: seq<Block>)
    requires Inv(Interface(), s, c)
    ensures c != [] && s.db.topHeight == |c| - 1 && s.db.topHash == BlockHash(Interface(), c[|c| - 1]) && Solvent(s.vault)
  {
    hide Interface, Readable, BlockHash, DbOf;
    LocalTop(Site(), s, c);
  }

  // ---- An empty block from outside ----

  ghost function EmptyBlock(prev: Hash256, height: U64, timestamp: U64): Block {
    var root := Merkle.MerkleRoot(Interface(), Block(NO_HEADER, [], [], [], [], []));
    Block(Header(3, height, prev, root, timestamp, 0, ZERO_KEY, ZERO_SIG, [], []), [], [], [], [], [])
  }

  lemma EmptyValid(s: NodeState, b: Block, height: U64, timestamp: U64)
    requires b == EmptyBlock(s.db.topHash, height, timestamp) && height == s.db.topHeight + 1
    requires Solvent(s.vault)
    ensures ValidBlock(Site(), s, b) && NewOutputs(b) == [] && Spends(b) == []
  {
    hide Interface, Merkle.MerkleRoot, SECRET, PublicKey;
    RootOfSections(Interface(), Block(NO_HEADER, [], [], [], [], []), b);
    OneImage(Interface(), ZERO_KEY);
    NoDeposits(Site(), s, b);
    NoWithdrawals(Site(), s, b);
    assert NextVault(Site(), s, b) == Some(s.vault);
  }

  lemma EmptyStorable(prev: Hash256, height: U64, timestamp: U64)
    ensures Storable(Interface(), EmptyBlock(prev, height, timestamp))
  {
    hide Reread, Interface, Merkle.MerkleRoot;
    StorableIff(Interface(), EmptyBlock(prev, height, timestamp));
  }

  lemma FineRemote(s: NodeState, c: seq<Block>, b: Block)
    requires c != [] && !Competes(s, b) && ValidBlock(Site(), s, b)
    requires NewNames(Interface(), s.db.tables, b) && Storable(Interface(), b)
    requires Injective(Image, s.pool + NewOutputs(b)) && b.txs == [] && b.withdrawals == []
    ensures Fine(s, c, OpRemote(b)) && Step(Site(), s, OpRemote(b)) == Append(Site(), s, b)
    ensures NextChain(Site(), s, c, OpRemote(b)) == c + [b]
  {
    hide Interface, ValidBlock, Append, Storable, NewNames, Injective, Image, Recover, RollbackDb, Preferred;
    hide NewOutputs, SECRET, PublicKey;
    Dispatch(Site(), s, b);
    AppendMoves(Site(), s, b);
  }

  lemma ThirdStep(s: NodeState, c: seq<Block>, b: Block, height: U64, timestamp: U64)
    requires Inv(Interface(), s, c) && |c| == height && b == EmptyBlock(s.db.topHash, height, timestamp)
    requires Injective(Image, s.pool)
    ensures c != [] && Fine(s, c, OpRemote(b)) && Step(Site(), s, OpRemote(b)) == Append(Site(), s, b)
    ensures NextChain(Site(), s, c, OpRemote(b)) == c + [b]
  {
    hide Interface, Inv, ValidBlock, Append, Storable, NewNames, Injective, Image, Recover, NewOutputs, Spends;
    hide SECRET, PublicKey, ApplyRemote, Fine;
    LowTop(s, c);
    EmptyValid(s, b, height, timestamp);
    EmptyStorable(s.db.topHash, height, timestamp);
    OneName(s, c, b);
    assert s.pool + NewOutputs(b) == s.pool;
    FineRemote(s, c, b);
  }

  // ---- A replay that throws ----

  function DepositThenBurn(x: U32, y: U32, gross: U64): Option<Balances> {
    var (v, r) := ApplyDeposit(EMPTY_VAULT, x, gross);
    if r.Refused? then None else
    var (u, r') := ApplyWithdrawal(v, y, gross);
    if r'.Refused? then None else Some(u)
  }

  lemma ReplayedFees(gross: U64)
    requires gross == 1000
    ensures DepositThenBurn(0, 0, gross).Some? && DepositThenBurn(REPLAY_BPS, REPLAY_BPS, gross).None?
  {
    FeesOf1000();
    assert ApplyDeposit(EMPTY_VAULT, 0, gross) == (Balances(1000, 1000, 0), Done(Split(0, 1000)));
    assert ApplyDeposit(EMPTY_VAULT, REPLAY_BPS, gross).0.circulating == 995;
  }

  lemma TwoStepReplay(x: U32, y: U32, c: seq<Block>, receipt: DepositReceipt, burn: WithdrawalReceipt)
    requires |c| == 3 && c[1].deposits == [receipt] && c[1].withdrawals == []
    requires c[2].deposits == [] && c[2].withdrawals == [burn] && receipt.gross == burn.gross
    ensures Replay(x, y, c) == DepositThenBurn(x, y, receipt.gross)
  {
    var d, w := c[1], c[2];
    var c2 := c[..2];
    assert c2[1] == d && |c2| == 2;
    assert d.deposits[..0] == [] && w.withdrawals[..0] == [];
    var v := ApplyDeposit(EMPTY_VAULT, x, receipt.gross).0;
    assert DepositAll(EMPTY_VAULT, x, d.deposits[..0]) == Some(EMPTY_VAULT);
    assert WithdrawAll(v, y, w.withdrawals[..0]) == Some(v) && DepositAll(v, x, w.deposits) == Some(v);
    assert WithdrawAll(v, y, d.withdrawals) == Some(v);
    assert Replay(x, y, c2[..1]) == Some(EMPTY_VAULT);
    assert Replay(x, y, c2) == VaultAfter(x, y, EMPTY_VAULT, d);
  }

  lemma StepFirst(s: NodeState, c: seq<Block>, op: Op, t: NodeState, d: seq<Block>, rest: seq<Op>)
    requires Leads(s, c, op, t, d) && CarefulRun(Site(), t, d, rest) && HonestRun(Site(), Pairs(), Image, t, d, rest)
    ensures CarefulRun(Site(), s, c, [op] + rest) && HonestRun(Site(), Pairs(), Image, s, c, [op] + rest)
    ensures RunOps(Site(), s, c, [op] + rest) == RunOps(Site(), t, d, rest)
  {
    hide Commits, Interrupted, Reorgs, ReplayRuns, Site, Pairs, Image;
    assert ([op] + rest)[0] == op && ([op] + rest)[1..] == rest;
  }

  lemma ThreeSteps(ops: seq<Op>, ss: seq<NodeState>, cs: seq<seq<Block>>)
    requires |ops| == 3 && |ss| == |cs| == 4
    requires Leads(ss[0], cs[0], ops[0], ss[1], cs[1]) && Leads(ss[1], cs[1], ops[1], ss[2], cs[2])
    requires Leads(ss[2], cs[2], ops[2], ss[3], cs[3])
    ensures CarefulRun(Site(), ss[0], cs[0], ops) && HonestRun(Site(), Pairs(), Image, ss[0], cs[0], ops)
    ensures RunOps(Site(), ss[0], cs[0], ops) == (ss[3], cs[3])
  {
    hide Leads, Site, Pairs, Image, Step, NextChain, Careful, Honest;
    StepFirst(ss[2], cs[2], ops[2], ss[3], cs[3], []);
    StepFirst(ss[1], cs[1], ops[1], ss[2], cs[2], [ops[2]] + []);
    StepFirst(ss[0], cs[0], ops[0], ss[1], cs[1], [ops[1]] + ([ops[2]] + []));
    assert ops == [ops[0]] + ([ops[1]] + ([ops[2]] + []));
  }

  /** Deposit, withdrawal and an empty block, from an empty store. */
  ghost predicate Course(s: NodeState, c: seq<Block>, ops: seq<Op>) {
    && |ops| == 3 && ops[0].OpBuy? && ops[1].OpWithdraw? && ops[2].OpRemote?
    && CarefulRun(Site(), Start(), [GENESIS], ops) && HonestRun(Site(), Pairs(), Image, Start(), [GENESIS], ops)
    && RunOps(Site(), Start(), [GENESIS], ops) == (s, c)
  }

  /** The chain of that run. */
  ghost predicate CourseChain(c: seq<Block>) {
    && |c| == 4 && c[0] == GENESIS && |c[1].deposits| == 1 && c[1].deposits[0].gross == THOUSAND && c[1].withdrawals == []
    && Burns1000(c[2]) && c[3] == EmptyBlock(BlockHash(Interface(), c[2]), 3, 1)
  }

  lemma StageThree(s: NodeState, c: seq<Block>) returns (b: Block, t: NodeState)
    requires Inv(Interface(), s, c) && |c| == 3 && Injective(Image, s.pool)
    ensures b == EmptyBlock(BlockHash(Interface(), c[2]), 3, 1)
    ensures Leads(s, c, OpRemote(b), t, c + [b]) && Inv(Interface(), t, c + [b])
  {
    hide Interface, Inv, BlockHash, EmptyBlock, Injective, Image, Fine, Append, Step, NextChain, SECRET, PublicKey;
    LowTop(s, c);
    b := EmptyBlock(s.db.topHash, 3, 1);
    ThirdStep(s, c, b, 3, 1);
    t := Append(Site(), s, b);
    LeadsKeeps(s, c, OpRemote(b), t, c + [b]);
  }

  /** The hypotheses of the run theorems are met together, on a run that is not empty. */
  lemma CourseExists(spend: Key256, view: Key256) returns (s: NodeState, c: seq<Block>, ops: seq<Op>)
    ensures Course(s, c, ops) && CourseChain(c) && Inv(Interface(), s, c)
  {
    hide Interface, Inv, Start, Leads, CarefulRun, HonestRun, RunOps, Site, BuyCall, HoldsOf, OnLine;
    hide DepositSecret, Injective, Image, Pairs, Burns1000, EmptyBlock, BlockHash;
    var c0 := [GENESIS];
    var b1, s1 := StageOne(spend, view);
    var c1 := c0 + [b1];
    var burn, b2, s2 := StageTwo(s1, c1, spend, view, DepositSecret(Interface(), BuyCall(spend, view)), b1.depositOutputs);
    var c2 := c1 + [b2];
    var b3, s3 := StageThree(s2, c2);
    s, c := s3, c2 + [b3];
    ops := [OpBuy(BuyCall(spend, view)), burn, OpRemote(b3)];
    ThreeSteps(ops, [Start(), s1, s2, s3], [c0, c1, c2, c]);
  }

  // ---- The competing block ----

  lemma RivalPreferred(prev: Hash256)
    ensures var x, y := EmptyBlock(prev, 3, 1), EmptyBlock(prev, 3, 0);
      BlockHash(Interface(), x) != BlockHash(Interface(), y) && Preferred(Site(), y, x)
  {
    hide Interface, BlockHash, EncU64, Merkle.MerkleRoot;
    var x, y := EmptyBlock(prev, 3, 1), EmptyBlock(prev, 3, 0);
    var hx, hy := BlockHash(Interface(), x), BlockHash(Interface(), y);
    DigestOf(x);
    DigestOf(y);
    ZeroLessOne();
    HexOrder(hy, hx);
    LessAfter(EncU64(3), EncU64(0) + Zeros(16), EncU64(1) + Zeros(16));
    LessBefore(EncU64(0), EncU64(1), Zeros(16));
    assert hx == EncU64(3) + (EncU64(1) + Zeros(16)) && hy == EncU64(3) + (EncU64(0) + Zeros(16));
    NoQuorum(x);
    NoQuorum(y);
    LessTotal(hy, hx);
  }

  lemma NoQuorum(b: Block)
    ensures Quorum(Site().k, b.header, Site().authorized) == 0
  {
    hide Interface, SECRET, PublicKey;
    assert QuorumSet(Site().k, b.header, Site().authorized) == {};
  }

  lemma ZeroLessOne()
    ensures Less(EncU64(0), EncU64(1))
  {
    assert LE(0, U64_BYTES) == [0] + LE(0, U64_BYTES - 1);
    assert LE(1, U64_BYTES) == [1] + LE(0, U64_BYTES - 1);
  }

  lemma CourseStuck(c: seq<Block>)
    requires CourseChain(c) && Readable(Interface(), c)
    ensures !ReplayRuns(Interface(), c)
  {
    hide Interface, Storable, EmptyBlock, BlockHash, DepositThenBurn, Replay;
    var d := c[..3];
    ReadableInit(Interface(), c);
    ReadReplayOf(Interface(), d);
    BurnParts(c[2]);
    assert d[1] == c[1] && d[2] == c[2];
    assert c[1].deposits == [c[1].deposits[0]] && c[2].withdrawals == [c[2].withdrawals[0]];
    TwoStepReplay(REPLAY_BPS, REPLAY_BPS, d, c[1].deposits[0], c[2].withdrawals[0]);
    ReplayedFees(THOUSAND);
  }

  lemma BurnParts(b: Block)
    requires Burns1000(b)
    ensures b.deposits == [] && |b.withdrawals| == 1 && b.withdrawals[0].gross == THOUSAND
  {
    hide Storable, Interface;
  }

  /** The replay of a rollback can throw: at rates of 0 the node mines the withdrawal of a whole
      deposit, which the replay at 50 basis points cannot repeat. A competing block that wins the
      fork choice is then refused, and the tip in memory has moved. */
  lemma ReplayCanThrow(spend: Key256, view: Key256) returns (s: NodeState, c: seq<Block>, ops: seq<Op>, b: Block)
    ensures Course(s, c, ops) && Inv(Site().k, s, c)
    ensures Reorgs(Site(), s, b) && !ReplayRuns(Site().k, c)
    ensures !ApplyRemote(Site(), s, b).1 && !Same(ApplyRemote(Site(), s, b).0, s)
  {
    hide Interface, Course, Held, Readable, EmptyBlock, BlockHash, ReplayRuns, ApplyRemote, Reorgs, Reorg;
    hide Reread, SECRET, PublicKey, Burns1000;
    s, c, ops := CourseExists(spend, view);
    b := EmptyBlock(BlockHash(Interface(), c[2]), 3, 0);
    CourseStuck(c);
    CourseReorgs(s, c, b);
    LastReadable(Interface(), c);
    ReorgsTop(Site(), s, b, c);
    Dispatch(Site(), s, b);
    StuckReorg(Site(), s, b, c[3], c);
  }

  lemma CourseReorgs(s: NodeState, c: seq<Block>, b: Block)
    requires Inv(Interface(), s, c) && CourseChain(c) && b == EmptyBlock(BlockHash(Interface(), c[2]), 3, 0)
    ensures Reorgs(Site(), s, b)
  {
    hide Interface, Held, Readable, BlockHash, Burns1000, Preferred, Merkle.MerkleRoot, Reread, SECRET, PublicKey;
    LowTop(s, c);
    RivalPreferred(BlockHash(Interface(), c[2]));
    ReadableInit(Interface(), c);
    TopLoads(Site(), s, c);
  }

  // ---- The hypotheses together ----

  /** Keys of different private scalars differ, and so do their images. */
  lemma TwoKeys(x: Key256, y: Key256)
    requires Residue(FromLE(x)) != Residue(FromLE(y))
    ensures BaseMul(x) != BaseMul(y) && Image(BaseMul(x)) != Image(BaseMul(y))
  {
    hide Residue, FromLE, Image, Times, Point, First, Second;
    OpenedKey(x);
    OpenedKey(y);
    ImageTells(BaseMul(x));
    ImageTells(BaseMul(y));
  }

  /** Everything the run theorems assume, at once: a lawful interface, linked images that tell
      keys apart, signatures that verify, and a run of three operations that is careful and
      honest; the theorems' conclusions then hold of it. */
  lemma HypothesesHold(spend: Key256, view: Key256) returns (s: NodeState, c: seq<Block>, ops: seq<Op>)
    ensures Lawful(Site().k, Pairs()) && Linked(Site().k, Pairs(), Image) && SigningWorks(Site())
    ensures Course(s, c, ops) && Inv(Site().k, s, c) && Covered(Site(), Image, s)
  {
    hide Interface, Pairs, Image, Lawful, Linked, Inv, Start, Site, Covered, CarefulRun, HonestRun, RunOps;
    InterfaceIsLawful();
    ImagesAreLinked();
    SiteSigns();
    SiteCurve();
    s, c, ops := CourseExists(spend, view);
    SupplyIsCovered(Site(), Pairs(), Image, Start(), [GENESIS], ops);
  }

  lemma SiteCurve()
    ensures Site().k == Interface() && Start() == Restart(Site(), EMPTY_TABLES)
  {
  }

  // ---- An interruption that stays ----

  /** No point: its first half is not below the order. */
  function Bad(): Key256 { seq(WHOLE, (i: nat) => 255) }

  lemma {:induction false} AllOnes(b: Bytes)
    requires forall i :: 0 <= i < |b| ==> b[i] == 255
    ensures FromLE(b) + 1 == Pow256(|b|)
  {
    if b != [] { AllOnes(b[1..]); }
  }

  lemma BadIsBad()
    ensures !OnIt(Bad())
  {
    AllOnes(Bad()[..HALF]);
    HalfIsWide();
    if OnIt(Bad()) { SmallParts(Bad()); }
  }

  /** A deposit to a recipient whose view key is no point. */
  ghost function BadCall(): BuyArgs {
    BuyArgs(THOUSAND, Stealth.Address(Point(1, 0), Bad()), [50], NOON, [], ZERO_KEY)
  }

  lemma BadInterrupts(s: NodeState)
    requires Fresher(s) && s.db.topHeight == 0
    ensures var v := ApplyDeposit(s.vault, 0, THOUSAND).0;
      && Interrupted(Site(), s, OpBuy(BadCall())) && Buy(Site(), s, BadCall()) == Failed(s.(vault := v))
      && Callable(s, OpBuy(BadCall())) && Local(Site(), s, OpBuy(BadCall())) == Buy(Site(), s, BadCall())
  {
    hide OnIt, Bad, Restart, MineBlock, Append, Quorum, Cosign, ApplyDeposit, DepositId, DepositSecret;
    hide Stealth.SeededSecret, Stealth.DepositSeed;
    BadIsBad();
  }

  lemma WatchFirst(s: NodeState, c: seq<Block>, op: Op, t: NodeState, d: seq<Block>, rest: seq<Op>)
    requires c != [] && Watched(Site(), Image, s, c, op) && Honest(Site(), Pairs(), Image, s, op)
    requires Step(Site(), s, op) == t && NextChain(Site(), s, c, op) == d && WatchedRun(Site(), Pairs(), Image, t, d, rest)
    ensures WatchedRun(Site(), Pairs(), Image, s, c, [op] + rest)
  {
    hide Commits, Interrupted, Reorgs, ReplayRuns, Site, Pairs, Image, Step, NextChain, Honest;
    assert ([op] + rest)[0] == op && ([op] + rest)[1..] == rest;
  }

  /** An operation that is watched and honest, and where it leads. */
  ghost predicate Drifts(s: NodeState, c: seq<Block>, op: Op, t: NodeState, d: seq<Block>) {
    && c != [] && Watched(Site(), Image, s, c, op) && Honest(Site(), Pairs(), Image, s, op)
    && Step(Site(), s, op) == t && NextChain(Site(), s, c, op) == d
  }

  lemma BadDrifts(s: NodeState, c: seq<Block>)
    requires c != [] && Fresher(s) && s.db.topHeight == 0
    ensures Drifts(s, c, OpBuy(BadCall()), s.(vault := ApplyDeposit(s.vault, 0, THOUSAND).0), c)
  {
    hide Fresher, Interrupted, ApplyDeposit, BadCall, Buy, Image, Pairs, Interface, SECRET, PublicKey;
    BadInterrupts(s);
    EmptyPool(s);
  }

  lemma EmptyPool(s: NodeState)
    requires Fresher(s)
    ensures s.pool == [] && Destinations(s.pool) == [] && NoDup(Destinations(s.pool))
  {
  }

  lemma GoodDrifts(s: NodeState, c: seq<Block>, spend: Key256, view: Key256) returns (b: Block)
    requires c != [] && Fresher(s) && Solvent(s.vault)
    ensures var op := OpBuy(BuyCall(spend, view)); Mines(s, op, b) && Drifts(s, c, op, Append(Site(), s, b), c + [b])
  {
    hide *;
    var a := BuyCall(spend, view);
    BuySucceeds(s, spend, view);
    BuyHappens(s, spend, view);
    b := Buy(Site(), s, a).block;
    BuyMined(s, a);
    DepositNamed(s, a, b);
    DepositParts(spend, view, b);
    WatchedLocal(s, c, OpBuy(a), b);
  }

  lemma WatchedLocal(s: NodeState, c: seq<Block>, op: Op, b: Block)
    requires c != [] && op.OpBuy? && Mines(s, op, b) && Named(s, b) && Spends(b) == [] && s.pool == []
    requires s.pool + NewOutputs(b) == b.depositOutputs && |b.depositOutputs| == 1
    ensures Drifts(s, c, op, Append(Site(), s, b), c + [b])
  {
    hide Interface, Pairs, Image, Storable, Injective, Local, Interrupted, CommitDb, NextVault, Canonical;
    hide SECRET, PublicKey, NewOutputs, Spends;
  }

  lemma DriftsOn(s: NodeState, c: seq<Block>, o: Offsets, op: Op, t: NodeState, d: seq<Block>)
    requires Adrift(Site(), Image, s, c, o) && Drifts(s, c, op, t, d)
    ensures Callable(s, op) && d != [] && Adrift(Site(), Image, t, d, NextOffsets(Site(), s, op, o))
  {
    hide Interface, Pairs, Image, Lawful, Linked, Adrift, Honest, Step, Commits, Reorgs, ReplayRuns, SECRET;
    hide PublicKey, NextOffsets, BaseChain;
    InterfaceIsLawful();
    ImagesAreLinked();
    StepDrifts(Site(), Pairs(), Image, s, c, o, op);
  }

  lemma RestartDrifts(s: NodeState, c: seq<Block>, o: Offsets)
    requires c != [] && Adrift(Site(), Image, s, c, o)
    ensures Drifts(s, c, OpRestart, Restart(Site(), s.db.tables), c)
  {
    hide Interface, Pairs, Image, Adrift, Restart, SECRET, PublicKey;
    ReloadDrifts(Site(), Image, s, c, o);
    AdriftPool(Site(), Image, Restart(Site(), s.db.tables), c, Offsets(o.disk, o.disk));
  }

  lemma StartAdrift()
    ensures Adrift(Site(), Image, Start(), [GENESIS], Offsets(0, 0)) && Fresher(Start()) && Start().db.topHeight == 0
  {
    hide Interface, Image, Adrift, Backed, Start, Fresher, SECRET, PublicKey;
    SiteCurve();
    StartTables();
    FirstIsBacked(Site(), Image, Start(), [GENESIS]);
    FirstAdrift(Site(), Image, Start(), [GENESIS]);
  }

  /** The vault of the memory after the interrupted deposit still takes the next. */
  lemma BookedVault()
    ensures var s := Start(); var t := s.(vault := ApplyDeposit(s.vault, 0, THOUSAND).0); Fresher(t) && Solvent(t.vault)
  {
    hide Start;
    StartTables();
    Thousands();
  }

  lemma BadBooks()
    ensures Booked(Site(), Start(), OpBuy(BadCall())) == THOUSAND
  {
    hide Start, Interface, Bad;
    StartAdrift();
    StartTables();
    BadInterrupts(Start());
    Thousands();
  }

  lemma MinesWrites(s: NodeState, op: Op, b: Block)
    requires Mines(s, op, b)
    ensures Writes(Site(), s, op)
  {
    hide Local, Site, Append;
  }

  /** An interrupted deposit is reachable, and the next block that is mined writes what it has
      booked: after a restart the supply equation does not hold. */
  lemma InterruptionStays(spend: Key256, view: Key256) returns (ops: seq<Op>)
    ensures |ops| == 3 && Interrupted(Site(), Start(), ops[0]) && WatchedRun(Site(), Pairs(), Image, Start(), [GENESIS], ops)
    ensures var (t, d, _) := RunDrift(Site(), Pairs(), Image, Start(), [GENESIS], Offsets(0, 0), ops); !SupplyAgrees(Image, t, d)
  {
    hide Interface, Pairs, Image, Site, Start, Adrift, Lawful, Linked, Fresher, Interrupted, Mines, WatchedRun;
    hide RunDrift, SupplyAgrees, Watched, Honest, Writes, Booked, BuyCall, BadCall, Restart, NextOffsets;
    hide ApplyDeposit, Local, Buy;
    var s, c, bad, good := Start(), [GENESIS], OpBuy(BadCall()), OpBuy(BuyCall(spend, view));
    InterfaceIsLawful();
    ImagesAreLinked();
    SiteCurve();
    StartAdrift();
    BookedVault();
    BadInterrupts(s);
    BadDrifts(s, c);
    var s1 := s.(vault := ApplyDeposit(s.vault, 0, THOUSAND).0);
    var b := GoodDrifts(s1, c, spend, view);
    var s2, c2 := Append(Site(), s1, b), c + [b];
    DriftsOn(s, c, Offsets(0, 0), bad, s1, c);
    var o1 := NextOffsets(Site(), s, bad, Offsets(0, 0));
    DriftsOn(s1, c, o1, good, s2, c2);
    RestartDrifts(s2, c2, NextOffsets(Site(), s1, good, o1));
    ops := [bad, good, OpRestart];
    ThreeWatched(s, c, bad, s1, c, good, s2, c2, OpRestart, Restart(Site(), s2.db.tables), c2);
    BadBooks();
    MinesWrites(s1, good, b);
    HealsUnlessWritten(Site(), Pairs(), Image, s, c, bad, good);
  }

  lemma ThreeWatched(s: NodeState, c: seq<Block>, x: Op, s1: NodeState, c1: seq<Block>, y: Op, s2: NodeState, c2: seq<Block>,
                     z: Op, s3: NodeState, c3: seq<Block>)
    requires Drifts(s, c, x, s1, c1) && Drifts(s1, c1, y, s2, c2) && Drifts(s2, c2, z, s3, c3)
    ensures WatchedRun(Site(), Pairs(), Image, s, c, [x, y, z]) && Step(Site(), s, x) == s1
  {
    hide Site, Pairs, Image, Step, NextChain, Commits, Honest, Reorgs, ReplayRuns;
    WatchFirst(s2, c2, z, s3, c3, []);
    WatchFirst(s1, c1, y, s2, c2, [z] + []);
    WatchFirst(s, c, x, s1, c1, [y] + ([z] + []));
    assert [x, y, z] == [x] + ([y] + ([z] + []));
  }

}
