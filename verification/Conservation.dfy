/** Conservation: the outputs whose key image is unspent, plus the public fees accepted,
    always amount to the circulating supply (src/node.cpp). */
module Conservation {
  import opened Types
  import opened Sequences
  import opened CurveModel
  import opened VaultModel
  import opened DbModel
  import opened Ledger
  import opened Chain
  import opened Agreement
  import opened Coins

  /** The key image that belongs to a one-time key: canonical, and one per key. */
  type Link = Key256 -> KeyImage

  function CoinsOf(img: Link, outs: seq<OneTimeOutput>): (r: seq<Coin<KeyImage>>)
    ensures |r| == |outs|
    ensures forall i :: 0 <= i < |r| ==> r[i] == Coin(img(outs[i].destination), outs[i].amount)
  {
    seq<Coin<KeyImage>>(|outs|, i requires 0 <= i < |outs| => Coin(img(outs[i].destination), outs[i].amount))
  }

  function Fees(txs: seq<ShieldedTransaction>): nat {
    if txs == [] then 0 else Fees(txs[..|txs| - 1]) + txs[|txs| - 1].publicFee
  }

  function NetOf(bps: U32, gross: U64): nat {
    match FeeCalc(gross, bps) case None => 0 case Some(fee) => gross - fee
  }

  function Minted(bps: U32, deps: seq<DepositReceipt>): nat {
    if deps == [] then 0 else Minted(bps, deps[..|deps| - 1]) + NetOf(bps, deps[|deps| - 1].gross)
  }

  function Burned(ws: seq<WithdrawalReceipt>): nat {
    if ws == [] then 0 else Burned(ws[..|ws| - 1]) + ws[|ws| - 1].gross
  }

  /** The circulating supply as a function of the chain. */
  function Circulating(bps: U32, c: seq<Block>): int
    requires c != []
  {
    var n := |c| - 1;
    if n == 0 then 0 else Circulating(bps, c[..n]) + Minted(bps, c[n].deposits) - Burned(c[n].withdrawals)
  }

  // ---- The vault's circulating supply ----

  lemma {:induction false} DepositsCirculate(v: Balances, bps: U32, deps: seq<DepositReceipt>)
    requires Solvent(v) && DepositAll(v, bps, deps).Some?
    ensures DepositAll(v, bps, deps).value.circulating == v.circulating + Minted(bps, deps)
  {
    if deps != [] {
      var n := |deps| - 1;
      DepositsCirculate(v, bps, deps[..n]);
      DepositsSolvent(v, bps, deps[..n]);
      DepositOnSolvent(DepositAll(v, bps, deps[..n]).value, bps, deps[n].gross);
    }
  }

  lemma {:induction false} WithdrawalsCirculate(v: Balances, bps: U32, ws: seq<WithdrawalReceipt>)
    requires Solvent(v) && WithdrawAll(v, bps, ws).Some?
    ensures WithdrawAll(v, bps, ws).value.circulating == v.circulating - Burned(ws)
  {
    if ws != [] {
      var n := |ws| - 1;
      WithdrawalsCirculate(v, bps, ws[..n]);
      WithdrawalsSolvent(v, bps, ws[..n]);
      WithdrawOnSolvent(WithdrawAll(v, bps, ws[..n]).value, bps, ws[n].gross);
    }
  }

  lemma BlockCirculates(d: U32, w: U32, v: Balances, b: Block)
    requires Solvent(v) && VaultAfter(d, w, v, b).Some?
    ensures VaultAfter(d, w, v, b).value.circulating == v.circulating + Minted(d, b.deposits) - Burned(b.withdrawals)
  {
    DepositsCirculate(v, d, b.deposits);
    DepositsSolvent(v, d, b.deposits);
    WithdrawalsCirculate(DepositAll(v, d, b.deposits).value, w, b.withdrawals);
  }

  lemma CirculatingPush(d: U32, w: U32, c: seq<Block>, b: Block, v: Balances, u: Balances)
    requires c != [] && Solvent(v) && VaultAfter(d, w, v, b) == Some(u) && v.circulating == Circulating(d, c)
    ensures u.circulating == Circulating(d, c + [b])
  {
    PushInit(c, b);
    BlockCirculates(d, w, v, b);
  }

  lemma {:induction false} ReplayCirculates(d: U32, w: U32, c: seq<Block>)
    requires c != [] && Replay(d, w, c).Some?
    ensures Replay(d, w, c).value.circulating == Circulating(d, c)
  {
    var n := |c| - 1;
    if n > 0 {
      ReplayCirculates(d, w, c[..n]);
      ReplaySolvent(d, w, c[..n]);
      LastSplit(c);
      CirculatingPush(d, w, c[..n], c[n], Replay(d, w, c[..n]).value, Replay(d, w, c).value);
    }
  }

  // ---- Balanced blocks ----

  /** One coin of the pool for every image the block spends. */
  ghost predicate Owners(k: Curve, img: Link, pool: seq<OneTimeOutput>, images: seq<KeyImage>, owners: seq<Coin<KeyImage>>) {
    && |owners| == |images|
    && forall i :: 0 <= i < |owners| ==> owners[i] in CoinsOf(img, pool) && owners[i].tag == Canonical(k, images[i])
  }

  /** What the block consumes and mints is what it pays, creates and burns. */
  ghost predicate Weighs(bps: U32, b: Block, owners: seq<Coin<KeyImage>>) {
    Sum(owners) + Minted(bps, b.deposits) == Fees(b.txs) + SumAmounts(NewOutputs(b)) + Burned(b.withdrawals)
  }

  ghost predicate Balanced(k: Curve, bps: U32, img: Link, pool: seq<OneTimeOutput>, b: Block) {
    exists owners :: Owners(k, img, pool, Spends(b), owners) && Weighs(bps, b, owners)
  }

  ghost predicate BalancedChain(k: Curve, bps: U32, img: Link, c: seq<Block>) {
    var n := |c| - 1;
    n > 0 ==> BalancedChain(k, bps, img, c[..n]) && Balanced(k, bps, img, Outs(c[..n]), c[n])
  }

  lemma {:induction false} SumOfCoins(img: Link, outs: seq<OneTimeOutput>)
    ensures Sum(CoinsOf(img, outs)) == SumAmounts(outs)
  {
    if outs != [] {
      var n := |outs| - 1;
      SumOfCoins(img, outs[..n]);
      assert CoinsOf(img, outs)[..n] == CoinsOf(img, outs[..n]);
    }
  }

  lemma CoinsConcat(img: Link, a: seq<OneTimeOutput>, b: seq<OneTimeOutput>)
    ensures CoinsOf(img, a + b) == CoinsOf(img, a) + CoinsOf(img, b)
  {
  }

  lemma {:induction false} FeesConcat(a: seq<ShieldedTransaction>, b: seq<ShieldedTransaction>)
    ensures Fees(a + b) == Fees(a) + Fees(b)
  {
    if b == [] {
      assert a + b == a;
    } else {
      FeesConcat(a, b[..|b| - 1]);
      assert (a + b)[..|a + b| - 1] == a + b[..|b| - 1];
    }
  }

  /** Every spent image is that of an output of the ledger. */
  ghost predicate SpentAreOutputs(img: Link, outs: seq<OneTimeOutput>, spent: set<KeyImage>) {
    forall x :: x in spent ==> Has(CoinsOf(img, outs), x)
  }

  lemma HasConcat<I(!new)>(a: seq<Coin<I>>, b: seq<Coin<I>>, x: I)
    ensures Has(a, x) || Has(b, x) ==> Has(a + b, x)
    ensures DistinctTags(a + b) && Has(a, x) ==> !Has(b, x)
  {
    if Has(a, x) {
      var i :| 0 <= i < |a| && a[i].tag == x;
      assert (a + b)[i] == a[i];
      if Has(b, x) && DistinctTags(a + b) {
        var j :| 0 <= j < |b| && b[j].tag == x;
        assert (a + b)[|a| + j] == b[j];
      }
    }
    if Has(b, x) {
      var j :| 0 <= j < |b| && b[j].tag == x;
      assert (a + b)[|a| + j] == b[j];
    }
  }

  lemma DistinctPrefix<I(!new)>(a: seq<Coin<I>>, b: seq<Coin<I>>)
    requires DistinctTags(a + b)
    ensures DistinctTags(a)
  {
    forall i, j | 0 <= i < j < |a| ensures a[i].tag != a[j].tag {
      assert (a + b)[i] == a[i] && (a + b)[j] == a[j];
    }
  }

  /** A balanced block on top of a conserved ledger. */
  lemma BlockConserves(k: Curve, bps: U32, img: Link, outs: seq<OneTimeOutput>, spent: set<KeyImage>, b: Block)
    requires Balanced(k, bps, img, outs, b) && DistinctTags(CoinsOf(img, outs + NewOutputs(b)))
    requires NoDup(CanonicalAll(k, Spends(b))) && Elements(CanonicalAll(k, Spends(b))) !! spent
    requires SpentAreOutputs(img, outs, spent)
    ensures var spent' := spent + Elements(CanonicalAll(k, Spends(b)));
      && SpentAreOutputs(img, outs + NewOutputs(b), spent')
      && Unspent(CoinsOf(img, outs + NewOutputs(b)), spent') + Fees(b.txs) + Burned(b.withdrawals)
         == Unspent(CoinsOf(img, outs), spent) + Minted(bps, b.deposits)
  {
    var before, added := CoinsOf(img, outs), CoinsOf(img, NewOutputs(b));
    var images := CanonicalAll(k, Spends(b));
    var owners :| Owners(k, img, outs, Spends(b), owners) && Weighs(bps, b, owners);
    var spent' := spent + Elements(images);
    CoinsConcat(img, outs, NewOutputs(b));
    DistinctPrefix(before, added);
    forall x ensures (Has(before, x) || Has(added, x) ==> Has(before + added, x)) && (Has(before, x) ==> !Has(added, x)) {
      HasConcat(before, added, x);
    }
    OwnersImages(k, img, outs, Spends(b), owners);
    forall x | x in spent' ensures Has(before, x) {
      if x !in spent { OwnersHave(k, img, outs, Spends(b), owners, x); }
    }
    SpendAll(before, spent, owners);
    NoneSpent(added, spent');
    UnspentConcat(before, added, spent');
    SumOfCoins(img, NewOutputs(b));
  }

  lemma OwnersImages(k: Curve, img: Link, pool: seq<OneTimeOutput>, images: seq<KeyImage>, owners: seq<Coin<KeyImage>>)
    requires Owners(k, img, pool, images, owners)
    ensures Tags(owners) == Elements(CanonicalAll(k, images))
    ensures NoDup(CanonicalAll(k, images)) ==> DistinctTags(owners)
  {
    var c := CanonicalAll(k, images);
    forall x | x in Elements(c) ensures x in Tags(owners) {
      var i :| 0 <= i < |c| && c[i] == x;
      assert owners[i].tag == x;
    }
  }

  lemma OwnersHave(k: Curve, img: Link, pool: seq<OneTimeOutput>, images: seq<KeyImage>, owners: seq<Coin<KeyImage>>, x: KeyImage)
    requires Owners(k, img, pool, images, owners) && x in Elements(CanonicalAll(k, images))
    ensures Has(CoinsOf(img, pool), x)
  {
    var c := CanonicalAll(k, images);
    var i :| 0 <= i < |c| && c[i] == x;
    var coins := CoinsOf(img, pool);
    var j :| 0 <= j < |coins| && coins[j] == owners[i];
  }

  /** A balanced chain conserves: what is unspent and what was paid in public fees is what
      its deposits have minted less what its withdrawals have burned. */
  lemma {:induction false} ChainConserves(k: Curve, bps: U32, img: Link, c: seq<Block>)
    requires ChainOk(k, c) && BalancedChain(k, bps, img, c) && DistinctTags(CoinsOf(img, Outs(c)))
    ensures var spent := Elements(SpentImages(k, c));
      && SpentAreOutputs(img, Outs(c), spent)
      && Unspent(CoinsOf(img, Outs(c)), spent) + Fees(Txs(c)) == Circulating(bps, c)
  {
    var n := |c| - 1;
    if n == 0 {
      GenesisDescribed(k, EMPTY_VAULT);
      assert CoinsOf(img, Outs(c)) == [];
    } else {
      var init, b := c[..n], c[n];
      LastSplit(c);
      Push(k, init, b);
      CoinsConcat(img, Outs(init), NewOutputs(b));
      DistinctPrefix(CoinsOf(img, Outs(init)), CoinsOf(img, NewOutputs(b)));
      ChainConserves(k, bps, img, init);
      NothingTwice(k, c);
      NoDupConcat(SpentImages(k, init), CanonicalAll(k, Spends(b)));
      ElementsConcat(SpentImages(k, init), CanonicalAll(k, Spends(b)));
      BlockConserves(k, bps, img, Outs(init), Elements(SpentImages(k, init)), b);
      FeesConcat(Txs(init), b.txs);
    }
  }

  // ---- Accepted blocks are balanced ----

  /** Signature soundness: the image of an accepted ring signature is that of a member, the
      image of an accepted burn proof that of the key it burns. */
  ghost predicate GenuineTx(k: Curve, img: Link, tx: ShieldedTransaction) {
    exists i :: 0 <= i < |tx.ringSig.ring| && img(tx.ringSig.ring[i]) == Canonical(k, tx.ringSig.keyImage)
  }

  ghost predicate Genuine(k: Curve, img: Link, b: Block) {
    && (forall i :: 0 <= i < |b.txs| ==> GenuineTx(k, img, b.txs[i]))
    && (forall i :: 0 <= i < |b.withdrawals| ==> img(b.withdrawals[i].burnedKey) == Canonical(k, b.withdrawals[i].keyImage))
  }

  ghost predicate TxWeighs(pool: seq<OneTimeOutput>, tx: ShieldedTransaction) {
    RingMembersOk(pool, tx.ringSig.ring, tx.publicFee + SumAmounts(tx.outputs))
  }

  /** The coin a transaction spends. */
  ghost function OwnerOf(k: Curve, img: Link, pool: seq<OneTimeOutput>, tx: ShieldedTransaction): (c: Coin<KeyImage>)
    requires GenuineTx(k, img, tx) && TxWeighs(pool, tx)
    ensures c in CoinsOf(img, pool) && c.tag == Canonical(k, tx.ringSig.keyImage)
    ensures c.amount == tx.publicFee + SumAmounts(tx.outputs)
  {
    var i :| 0 <= i < |tx.ringSig.ring| && img(tx.ringSig.ring[i]) == Canonical(k, tx.ringSig.keyImage);
    CoinOf(img, pool, tx.ringSig.ring[i])
  }

  ghost function CoinOf(img: Link, pool: seq<OneTimeOutput>, key: Key256): (c: Coin<KeyImage>)
    requires Lookup(pool, key).Some?
    ensures c in CoinsOf(img, pool) && c == Coin(img(key), Lookup(pool, key).value.amount)
  {
    var o := Lookup(pool, key).value;
    var i :| 0 <= i < |pool| && pool[i] == o;
    CoinsOf(img, pool)[i]
  }

  lemma {:induction false} SumAmountsConcat(a: seq<OneTimeOutput>, b: seq<OneTimeOutput>)
    ensures SumAmounts(a + b) == SumAmounts(a) + SumAmounts(b)
  {
    if b == [] {
      assert a + b == a;
    } else {
      SumAmountsConcat(a, b[..|b| - 1]);
      assert (a + b)[..|a + b| - 1] == a + b[..|b| - 1];
    }
  }

  lemma SumAmountsPush(a: seq<OneTimeOutput>, o: OneTimeOutput)
    ensures SumAmounts(a + [o]) == SumAmounts(a) + o.amount
  {
    PushInit(a, o);
  }

  lemma OwnersPush(k: Curve, img: Link, pool: seq<OneTimeOutput>, images: seq<KeyImage>, owners: seq<Coin<KeyImage>>,
                   image: KeyImage, coin: Coin<KeyImage>)
    requires Owners(k, img, pool, images, owners) && coin in CoinsOf(img, pool) && coin.tag == Canonical(k, image)
    ensures Owners(k, img, pool, images + [image], owners + [coin])
  {
  }

  lemma OwnersConcat(k: Curve, img: Link, pool: seq<OneTimeOutput>, a: seq<KeyImage>, x: seq<Coin<KeyImage>>,
                     b: seq<KeyImage>, y: seq<Coin<KeyImage>>)
    requires Owners(k, img, pool, a, x) && Owners(k, img, pool, b, y)
    ensures Owners(k, img, pool, a + b, x + y)
  {
  }

  lemma TxsPush(txs: seq<ShieldedTransaction>)
    requires txs != []
    ensures var init, tx := txs[..|txs| - 1], txs[|txs| - 1];
      && TxImages(txs) == TxImages(init) + [tx.ringSig.keyImage]
      && Fees(txs) + SumAmounts(TxOutputs(txs)) == Fees(init) + SumAmounts(TxOutputs(init)) + tx.publicFee + SumAmounts(tx.outputs)
  {
    var init, tx := txs[..|txs| - 1], txs[|txs| - 1];
    SumAmountsConcat(TxOutputs(init), tx.outputs);
    assert TxImages(txs) == TxImages(init) + [tx.ringSig.keyImage];
  }

  /** The owners of the transactions' images, and their sum. */
  lemma {:induction false} TxOwners(k: Curve, img: Link, pool: seq<OneTimeOutput>, txs: seq<ShieldedTransaction>)
    returns (r: seq<Coin<KeyImage>>)
    requires forall i :: 0 <= i < |txs| ==> GenuineTx(k, img, txs[i]) && TxWeighs(pool, txs[i])
    ensures Owners(k, img, pool, TxImages(txs), r) && Sum(r) == Fees(txs) + SumAmounts(TxOutputs(txs))
  {
    r := [];
    if txs != [] {
      var n := |txs| - 1;
      var init := TxOwners(k, img, pool, txs[..n]);
      var coin := OwnerOf(k, img, pool, txs[n]);
      SumPush(init, coin);
      TxsPush(txs);
      OwnersPush(k, img, pool, TxImages(txs[..n]), init, txs[n].ringSig.keyImage, coin);
      r := init + [coin];
    }
  }

  lemma ChangesPush(pool: seq<OneTimeOutput>, ws: seq<WithdrawalReceipt>)
    requires ws != []
    ensures var w := ws[|ws| - 1]; var burned := Lookup(pool, w.burnedKey);
      burned.Some? && burned.value.amount >= w.gross ==>
      Sum(Changes(pool, ws)) == Sum(Changes(pool, ws[..|ws| - 1])) + burned.value.amount - w.gross
  {
    var back := ChangeOf(pool, ws[|ws| - 1]);
    SumConcat(Changes(pool, ws[..|ws| - 1]), back);
    if back != [] { SumPush([], back[0]); assert [] + [back[0]] == back; }
  }

  lemma BurnsPush(pool: seq<OneTimeOutput>, ws: seq<WithdrawalReceipt>)
    requires ws != []
    ensures var init, w := ws[..|ws| - 1], ws[|ws| - 1]; var burned := Lookup(pool, w.burnedKey);
      && WithdrawalImages(ws) == WithdrawalImages(init) + [w.keyImage]
      && (burned.Some? && burned.value.amount >= w.gross ==>
          Burned(ws) + Sum(Changes(pool, ws)) == Burned(init) + Sum(Changes(pool, init)) + burned.value.amount)
  {
    ChangesPush(pool, ws);
    assert WithdrawalImages(ws) == WithdrawalImages(ws[..|ws| - 1]) + [ws[|ws| - 1].keyImage];
  }

  /** The owners of the burned outputs: what they hold is burned or given back as change. */
  lemma {:induction false} BurnOwners(k: Curve, img: Link, pool: seq<OneTimeOutput>, ws: seq<WithdrawalReceipt>)
    returns (r: seq<Coin<KeyImage>>)
    requires forall i :: 0 <= i < |ws| ==> img(ws[i].burnedKey) == Canonical(k, ws[i].keyImage)
    requires forall i :: 0 <= i < |ws| ==> Lookup(pool, ws[i].burnedKey).Some? && Lookup(pool, ws[i].burnedKey).value.amount >= ws[i].gross
    ensures Owners(k, img, pool, WithdrawalImages(ws), r) && Sum(r) == Burned(ws) + Sum(Changes(pool, ws))
  {
    r := [];
    if ws != [] {
      var n := |ws| - 1;
      var init := BurnOwners(k, img, pool, ws[..n]);
      var coin := CoinOf(img, pool, ws[n].burnedKey);
      SumPush(init, coin);
      BurnsPush(pool, ws);
      OwnersPush(k, img, pool, WithdrawalImages(ws[..n]), init, ws[n].keyImage, coin);
      r := init + [coin];
    }
  }

  /** The change outputs hold what the withdrawals leave over. */
  lemma ChangeIsWhole(pool: seq<OneTimeOutput>, b: Block)
    requires ChangeBalanced(pool, b)
    ensures Sum(Changes(pool, b.withdrawals)) == SumAmounts(b.withdrawalOutputs)
  {
    var due, given := Changes(pool, b.withdrawals), Map(AsChange, b.withdrawalOutputs);
    UnspentAnyOrder(due, given, {});
    NoneSpent(due, {});
    NoneSpent(given, {});
    SumAsChange(b.withdrawalOutputs);
  }

  lemma {:induction false} SumAsChange(outs: seq<OneTimeOutput>)
    ensures Sum(Map(AsChange, outs)) == SumAmounts(outs)
  {
    if outs != [] {
      SumAsChange(outs[..|outs| - 1]);
      assert Map(AsChange, outs)[..|outs| - 1] == Map(AsChange, outs[..|outs| - 1]);
    }
  }

  /** The deposit outputs hold what the deposits mint. */
  lemma {:induction false} DepositsMint(bps: U32, deps: seq<DepositReceipt>, outs: seq<OneTimeOutput>)
    requires |deps| == |outs| && forall i :: 0 <= i < |deps| ==> outs[i].amount == NetOf(bps, deps[i].gross)
    ensures SumAmounts(outs) == Minted(bps, deps)
  {
    if deps != [] {
      var n := |deps| - 1;
      DepositsMint(bps, deps[..n], outs[..n]);
    }
  }

  lemma NewAmounts(b: Block)
    ensures SumAmounts(NewOutputs(b)) == SumAmounts(TxOutputs(b.txs)) + SumAmounts(b.depositOutputs) + SumAmounts(b.withdrawalOutputs)
  {
    SumAmountsConcat(TxOutputs(b.txs), b.depositOutputs);
    SumAmountsConcat(TxOutputs(b.txs) + b.depositOutputs, b.withdrawalOutputs);
  }

  /** What every balanced block has: owned transactions, owned burns, whole change, whole deposits. */
  lemma AssembleBalanced(k: Curve, bps: U32, img: Link, pool: seq<OneTimeOutput>, b: Block)
    requires Genuine(k, img, b)
    requires forall i :: 0 <= i < |b.txs| ==> TxWeighs(pool, b.txs[i])
    requires forall i :: 0 <= i < |b.withdrawals| ==>
      var burned := Lookup(pool, b.withdrawals[i].burnedKey); burned.Some? && burned.value.amount >= b.withdrawals[i].gross
    requires Sum(Changes(pool, b.withdrawals)) == SumAmounts(b.withdrawalOutputs)
    requires SumAmounts(b.depositOutputs) == Minted(bps, b.deposits)
    ensures Balanced(k, bps, img, pool, b)
  {
    var x := TxOwners(k, img, pool, b.txs);
    var y := BurnOwners(k, img, pool, b.withdrawals);
    SumConcat(x, y);
    NewAmounts(b);
    OwnersConcat(k, img, pool, TxImages(b.txs), x, WithdrawalImages(b.withdrawals), y);
    assert Weighs(bps, b, x + y);
  }

  /** A valid remote block with sound signatures is balanced. */
  lemma ValidIsBalanced(p: Params, img: Link, s: NodeState, b: Block)
    requires ValidBlock(p, s, b) && Genuine(p.k, img, b)
    ensures Balanced(p.k, p.depositBps, img, s.pool, b)
  {
    forall i | 0 <= i < |b.txs| ensures TxWeighs(s.pool, b.txs[i]) {
      assert TxOk(p, s, b.header.height, b.txs[i]);
    }
    forall i | 0 <= i < |b.withdrawals|
      ensures var burned := Lookup(s.pool, b.withdrawals[i].burnedKey); burned.Some? && burned.value.amount >= b.withdrawals[i].gross {
      assert WithdrawalOk(p, s, b.withdrawals[i]);
    }
    forall i | 0 <= i < |b.deposits| ensures b.depositOutputs[i].amount == NetOf(p.depositBps, b.deposits[i].gross) {
      assert DepositOk(p, s, b.deposits[i], b.depositOutputs[i]);
    }
    ChangeIsWhole(s.pool, b);
    DepositsMint(p.depositBps, b.deposits, b.depositOutputs);
    AssembleBalanced(p.k, p.depositBps, img, s.pool, b);
  }

  lemma BalancedAnyOrder(k: Curve, bps: U32, img: Link, pool: seq<OneTimeOutput>, other: seq<OneTimeOutput>, b: Block)
    requires Balanced(k, bps, img, pool, b) && multiset(pool) == multiset(other)
    ensures Balanced(k, bps, img, other, b)
  {
    var owners :| Owners(k, img, pool, Spends(b), owners) && Weighs(bps, b, owners);
    forall i | 0 <= i < |owners| ensures owners[i] in CoinsOf(img, other) {
      var j :| 0 <= j < |pool| && CoinsOf(img, pool)[j] == owners[i];
      SameMembers(pool, other, pool[j]);
      var m :| 0 <= m < |other| && other[m] == pool[j];
      assert CoinsOf(img, other)[m] == owners[i];
    }
    assert Owners(k, img, other, Spends(b), owners);
  }
}
