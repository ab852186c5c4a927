/** The state of a node as a function of the chain it has committed: memory, tables and
    replay are three copies of one truth, and restarts, rollbacks and failed remote blocks
    keep them equal (src/node.cpp, src/blockchain_db.cpp). */
module Chain {
  import opened Types
  import opened Sequences
  import opened ByteOrder
  import opened CurveModel
  import opened VaultModel
  import opened DbModel
  import opened Ledger
  import RoundTrip

  const EMPTY_TABLES: Tables := Tables(map[], map[], map[], map[], map[], None, None)
  const EMPTY_DB: Db := Db(EMPTY_TABLES, 0, ZERO_KEY)

  /** The store after committing the blocks of c in order, with vault record v. */
  function DbOf(k: Curve, c: seq<Block>, v: Balances): Db {
    if c == [] then EMPTY_DB else CommitBlock(k, DbOf(k, c[..|c| - 1], v), c[|c| - 1], v)
  }

  function Outs(c: seq<Block>): seq<OneTimeOutput> {
    if c == [] then [] else Outs(c[..|c| - 1]) + NewOutputs(c[|c| - 1])
  }

  /** Every key image the chain has spent, in canonical form. */
  function SpentImages(k: Curve, c: seq<Block>): seq<KeyImage> {
    if c == [] then [] else SpentImages(k, c[..|c| - 1]) + CanonicalAll(k, Spends(c[|c| - 1]))
  }

  function Txs(c: seq<Block>): seq<ShieldedTransaction> {
    if c == [] then [] else Txs(c[..|c| - 1]) + c[|c| - 1].txs
  }

  /** b extends c and everything it writes is new. */
  ghost predicate Extends(k: Curve, c: seq<Block>, b: Block)
    requires c != []
  {
    && b.header.height == |c| && b.header.prevHash == BlockHash(k, c[|c| - 1])
    && Fresh(k, DbOf(k, c, EMPTY_VAULT).tables, b)
    && NoDup(Destinations(NewOutputs(b))) && NoDup(CanonicalAll(k, Spends(b)))
  }

  ghost predicate ChainOk(k: Curve, c: seq<Block>) {
    && c != []
    && if |c| == 1 then c == [GENESIS] else
       var n := |c| - 1; ChainOk(k, c[..n]) && Extends(k, c[..n], c[n])
  }

  /** Memory, tables and chain agree, and the vault is solvent. */
  ghost predicate Held(k: Curve, s: NodeState, c: seq<Block>) {
    && ChainOk(k, c) && Solvent(s.vault)
    && s.db == DbOf(k, c, s.vault)
    && s.spent == Elements(SpentImages(k, c))
    && multiset(s.pool) == multiset(Outs(c))
    && s.history == Txs(c)
  }

  /** Every block of the chain is given back by its bytes. */
  ghost predicate Readable(k: Curve, c: seq<Block>) {
    forall i :: 0 <= i < |c| ==> Storable(k, c[i])
  }

  /** They agree, and the tables can be read. */
  ghost predicate Inv(k: Curve, s: NodeState, c: seq<Block>) {
    Held(k, s, c) && Readable(k, c)
  }

  /** Equal states, the order of the pool apart. */
  ghost predicate Same(s: NodeState, t: NodeState) {
    s.(pool := []) == t.(pool := []) && multiset(s.pool) == multiset(t.pool)
  }

  lemma SameChain(k: Curve, s: NodeState, t: NodeState, c: seq<Block>)
    requires Held(k, s, c) && Held(k, t, c) && s.vault == t.vault
    ensures Same(s, t)
  {
  }

  lemma ReadablePush(k: Curve, c: seq<Block>, b: Block)
    ensures Readable(k, c + [b]) <==> Readable(k, c) && Storable(k, b)
  {
    hide Storable;
    assert (c + [b])[|c|] == b;
    forall i | 0 <= i < |c| ensures (c + [b])[i] == c[i] {}
  }

  lemma ReadableInit(k: Curve, c: seq<Block>)
    requires c != [] && Readable(k, c)
    ensures Readable(k, c[..|c| - 1]) && Storable(k, c[|c| - 1])
  {
    hide Storable;
  }

  lemma GenesisStorable(k: Curve)
    ensures Storable(k, GENESIS) && Readable(k, [GENESIS]) && RoundTrip.Sized(GENESIS)
  {
    hide Reread;
    StorableIff(k, GENESIS);
  }

  // ---- The tables of a chain ----

  /** A table of outputs holds exactly these. */
  ghost predicate Holds(m: map<Key256, OneTimeOutput>, outs: seq<OneTimeOutput>) {
    && m.Keys == Elements(Destinations(outs)) && NoDup(Destinations(outs))
    && forall o :: o in outs ==> m[o.destination] == o
  }

  lemma DestinationsConcat(a: seq<OneTimeOutput>, b: seq<OneTimeOutput>)
    ensures Destinations(a + b) == Destinations(a) + Destinations(b)
  {
  }

  lemma {:induction false} PutHolds(m: map<Key256, OneTimeOutput>, held: seq<OneTimeOutput>, outs: seq<OneTimeOutput>)
    requires Holds(m, held) && NoDup(Destinations(outs)) && Elements(Destinations(outs)) !! m.Keys
    ensures Holds(PutOutputs(m, outs), held + outs)
  {
    if outs == [] {
      assert held + outs == held;
    } else {
      hide Holds;
      var n := |outs| - 1;
      var o := outs[n];
      SplitLast(outs);
      PutHolds(m, held, outs[..n]);
      PutOutputsKeys(m, outs[..n]);
      HoldsPush(PutOutputs(m, outs[..n]), held + outs[..n], o);
      AppendInit(held, outs);
    }
  }

  lemma SplitLast(outs: seq<OneTimeOutput>)
    requires outs != [] && NoDup(Destinations(outs))
    ensures var n := |outs| - 1; var init := Elements(Destinations(outs[..n]));
      && NoDup(Destinations(outs[..n])) && outs[n].destination !in init
      && Elements(Destinations(outs)) == init + {outs[n].destination}
  {
    var n := |outs| - 1;
    assert outs == outs[..n] + [outs[n]];
    DestinationsConcat(outs[..n], [outs[n]]);
    var last := outs[n].destination;
    assert Destinations([outs[n]]) == [last];
    NoDupConcat(Destinations(outs[..n]), [last]);
    ElementsConcat(Destinations(outs[..n]), [last]);
    assert Elements([last]) == {last};
  }

  lemma HoldsPush(m: map<Key256, OneTimeOutput>, outs: seq<OneTimeOutput>, o: OneTimeOutput)
    requires Holds(m, outs) && o.destination !in m
    ensures Holds(m[o.destination := o], outs + [o])
  {
    var d, e := Destinations(outs), Destinations(outs + [o]);
    assert e == d + [o.destination];
    ElementsPush(d, o.destination);
    assert forall i :: 0 <= i < |d| ==> d[i] in Elements(d);
    forall x | x in outs ensures x.destination in m && x.destination != o.destination {
      var i :| 0 <= i < |outs| && outs[i] == x;
      assert d[i] in Elements(d);
    }
  }

  /** What the tables of a chain hold, in terms of the chain. */
  ghost predicate Describes(k: Curve, db: Db, c: seq<Block>, v: Balances)
    requires c != []
  {
    && TipIs(k, db, c, v) && BlocksAre(db.tables.blocks, c)
    && db.tables.images.Keys == Elements(SpentImages(k, c))
    && Holds(db.tables.utxos, Outs(c))
  }

  ghost predicate TipIs(k: Curve, db: Db, c: seq<Block>, v: Balances)
    requires c != []
  {
    var h := |c| - 1;
    db.topHeight == h && db.topHash == BlockHash(k, c[h]) && db.tables.height == Some(h) && db.tables.vault == Some(v)
  }

  ghost predicate BlocksAre(m: map<nat, Block>, c: seq<Block>) {
    (forall i: nat :: i in m <==> i < |c|) && (forall i: nat :: i < |c| ==> m[i] == c[i])
  }

  /** The vault record is all that depends on v. */
  lemma {:induction false} VaultRecord(k: Curve, c: seq<Block>, v: Balances, w: Balances)
    requires c != []
    ensures DbOf(k, c, v).(tables := DbOf(k, c, v).tables.(vault := Some(w))) == DbOf(k, c, w)
  {
    var n := |c| - 1;
    if n > 0 { VaultRecord(k, c[..n], v, w); }
    assert DbOf(k, c, v) == CommitBlock(k, DbOf(k, c[..n], v), c[n], v);
    assert DbOf(k, c, w) == CommitBlock(k, DbOf(k, c[..n], w), c[n], w);
  }

  /** The history read from the tables of a chain whose blocks can be read. */
  lemma {:induction false} StoredTxsOf(k: Curve, m: map<nat, Block>, c: seq<Block>)
    requires c != [] && ReadsAs(m, c) && Readable(k, c) && c[0].txs == []
    ensures StoredTxs(k, m, |c| - 1) == Txs(c)
  {
    hide Storable, Reread;
    var n := |c| - 1;
    if n > 0 {
      ReadableInit(k, c);
      StoredTxsOf(k, m, c[..n]);
      LoadsBack(k, m, c, n);
    } else {
      assert Txs(c) == Txs(c[..0]) + c[0].txs;
    }
  }

  ghost predicate ReadsAs(m: map<nat, Block>, c: seq<Block>) {
    forall i: nat :: i < |c| ==> i in m && m[i] == c[i]
  }

  lemma LoadsBack(k: Curve, m: map<nat, Block>, c: seq<Block>, i: nat)
    requires ReadsAs(m, c) && i < |c| && Storable(k, c[i])
    ensures LoadBlock(k, m, i) == Some(c[i])
  {
    hide Reread;
  }

  lemma GenesisDescribed(k: Curve, v: Balances)
    ensures Describes(k, DbOf(k, [GENESIS], v), [GENESIS], v)
    ensures SpentImages(k, [GENESIS]) == [] && Outs([GENESIS]) == [] && Txs([GENESIS]) == []
  {
    var c := [GENESIS];
    assert c[..0] == [];
    assert Spends(GENESIS) == [] && NewOutputs(GENESIS) == [];
    assert DbOf(k, c, v) == CommitBlock(k, EMPTY_DB, GENESIS, v);
    assert SpentImages(k, c) == SpentImages(k, []) + CanonicalAll(k, []);
    assert Outs(c) == [];
    assert Txs(c) == Txs(c[..0]) + GENESIS.txs;
    assert Destinations(Outs(c)) == [];
  }

  lemma BlocksPush(m: map<nat, Block>, c: seq<Block>, b: Block)
    requires BlocksAre(m, c)
    ensures BlocksAre(m[|c| := b], c + [b])
  {
  }

  lemma ImagesPush(k: Curve, m: map<KeyImage, nat>, c: seq<Block>, b: Block, h: nat)
    requires m.Keys == Elements(SpentImages(k, c))
    ensures MarkAll(m, CanonicalAll(k, Spends(b)), h).Keys == Elements(SpentImages(k, c + [b]))
  {
    assert (c + [b])[..|c|] == c;
    ElementsConcat(SpentImages(k, c), CanonicalAll(k, Spends(b)));
  }

  lemma OutputsPush(m: map<Key256, OneTimeOutput>, c: seq<Block>, b: Block)
    requires Holds(m, Outs(c)) && NoDup(Destinations(NewOutputs(b))) && Elements(Destinations(NewOutputs(b))) !! m.Keys
    ensures Holds(PutOutputs(m, NewOutputs(b)), Outs(c + [b]))
  {
    assert (c + [b])[..|c|] == c;
    PutHolds(m, Outs(c), NewOutputs(b));
  }

  /** As one fact, not five. */
  ghost predicate Described(k: Curve, c: seq<Block>, v: Balances)
    requires c != []
  {
    Describes(k, DbOf(k, c, v), c, v) == true
  }

  /** One more block. */
  lemma DescribedPush(k: Curve, c: seq<Block>, b: Block, v: Balances, db: Db)
    requires c != [] && b.header.height == |c| && Describes(k, db, c, v)
    requires NoDup(Destinations(NewOutputs(b))) && Elements(Destinations(NewOutputs(b))) !! db.tables.utxos.Keys
    ensures Describes(k, CommitBlock(k, db, b, v), c + [b], v)
  {
    BlocksPush(db.tables.blocks, c, b);
    ImagesPush(k, db.tables.images, c, b, |c|);
    OutputsPush(db.tables.utxos, c, b);
  }

  lemma FreshAnyVault(k: Curve, c: seq<Block>, b: Block, v: Balances, w: Balances)
    requires c != [] && Fresh(k, DbOf(k, c, v).tables, b)
    ensures Fresh(k, DbOf(k, c, w).tables, b)
  {
    VaultRecord(k, c, v, w);
  }

  lemma DbOfPush(k: Curve, c: seq<Block>, b: Block, v: Balances)
    ensures DbOf(k, c + [b], v) == CommitBlock(k, DbOf(k, c, v), b, v)
  {
    assert (c + [b])[..|c|] == c;
  }

  /** The chain's functions on one more block. */
  lemma Push(k: Curve, c: seq<Block>, b: Block)
    ensures Outs(c + [b]) == Outs(c) + NewOutputs(b) && Txs(c + [b]) == Txs(c) + b.txs
    ensures SpentImages(k, c + [b]) == SpentImages(k, c) + CanonicalAll(k, Spends(b))
  {
    PushInit(c, b);
  }

  lemma ChainPush(k: Curve, c: seq<Block>, b: Block)
    requires c != []
    ensures ChainOk(k, c + [b]) <==> ChainOk(k, c) && Extends(k, c, b)
  {
    PushInit(c, b);
  }

  lemma ChainInit(k: Curve, c: seq<Block>)
    requires ChainOk(k, c)
    ensures |c| >= 1 && (|c| > 1 ==> ChainOk(k, c[..|c| - 1]) && Extends(k, c[..|c| - 1], c[|c| - 1]))
    ensures |c| == 1 ==> c == [GENESIS]
  {
  }

  lemma {:induction false} TablesOfChain(k: Curve, c: seq<Block>, v: Balances)
    requires ChainOk(k, c)
    ensures Described(k, c, v)
  {
    var n := |c| - 1;
    if n == 0 {
      GenesisDescribed(k, v);
    } else {
      var init, b := c[..n], c[n];
      LastSplit(c);
      TablesOfChain(k, init, v);
      FreshAnyVault(k, init, b, EMPTY_VAULT, v);
      DescribedPush(k, init, b, v, DbOf(k, init, v));
      DbOfPush(k, init, b, v);
    }
  }

  /** No key image and no one-time key occurs twice anywhere in a chain. */
  lemma {:induction false} NothingTwice(k: Curve, c: seq<Block>)
    requires ChainOk(k, c)
    ensures NoDup(SpentImages(k, c)) && NoDup(Destinations(Outs(c)))
  {
    var n := |c| - 1;
    TablesOfChain(k, c, EMPTY_VAULT);
    if n == 0 {
      GenesisDescribed(k, EMPTY_VAULT);
    } else {
      NothingTwice(k, c[..n]);
      TablesOfChain(k, c[..n], EMPTY_VAULT);
      NoDupConcat(SpentImages(k, c[..n]), CanonicalAll(k, Spends(c[n])));
    }
  }

  /** The block index names blocks of the chain. */
  lemma {:induction false} ChainIndex(k: Curve, c: seq<Block>, v: Balances, x: Hash256)
    requires ChainOk(k, c) && x in DbOf(k, c, v).tables.index
    ensures exists i: nat :: i < |c| && c[i].header.height == i && x == BlockHash(k, c[i])
  {
    hide BlockHash, Fresh, CanonicalAll, PutOutputs, DepositIds, Spends, NewOutputs;
    var n := |c| - 1;
    ChainInit(k, c);
    LastSplit(c);
    DbOfPush(k, c[..n], c[n], v);
    if x == BlockHash(k, c[n]) {
      assert c[n].header.height == n;
    } else if n > 0 {
      ChainIndex(k, c[..n], v, x);
      var i: nat :| i < n && c[..n][i].header.height == i && x == BlockHash(k, c[..n][i]);
      assert c[i] == c[..n][i];
    }
  }
}
