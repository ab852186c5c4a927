/** What a node shows whose memory its tables do not describe, and tables that no chain describes:
    after an interrupted operation, a block that cannot be read, or a rollback whose replay threw
    (src/node.cpp:85-123, 575-1159; src/blockchain_db.cpp:504-649). */
module Aftermath {
  import opened Types
  import opened Sequences
  import opened CurveModel
  import opened VaultModel
  import opened DbModel
  import opened Ledger
  import opened Chain
  import opened Agreement
  import opened Atomicity
  import opened Runs
  import opened Coins
  import opened Conservation
  import opened Backing
  import RoundTrip

  /** The vault record. */
  function Disk(s: NodeState): Balances {
    match s.db.tables.vault case Some(v) => v case None => s.vault
  }

  /** The state as its tables describe it. */
  function Clean(s: NodeState, c: seq<Block>): NodeState {
    s.(vault := Disk(s), pool := Outs(c))
  }

  /** The state with the vault of the memory on disk. */
  function Levelled(s: NodeState, c: seq<Block>): NodeState {
    s.(pool := Outs(c), db := s.db.(tables := s.db.tables.(vault := Some(s.vault))))
  }

  // ---- When a recovery is invisible, whatever vault and pool are in memory ----

  /** Every block with transactions is given back by its bytes. */
  ghost predicate HistoryKept(k: Curve, c: seq<Block>) {
    forall i :: 0 <= i < |c| && c[i].txs != [] ==> Storable(k, c[i])
  }

  /** Memory is what a recovery reads: the vault is the recorded one, the pool lists exactly the
      outputs of the chain that can be read, and no history is lost. */
  ghost predicate Remembers(k: Curve, s: NodeState, c: seq<Block>) {
    s.vault == Disk(s) && multiset(s.pool) == multiset(Legible(k, Outs(c))) && HistoryKept(k, c)
  }

  lemma CleanTables(k: Curve, s: NodeState, c: seq<Block>)
    requires Held(k, Clean(s, c), c)
    ensures c != [] && s.db == DbOf(k, c, Disk(s)) && s.db.tables.vault == Some(Disk(s)) && c[0].txs == []
    ensures Holds(s.db.tables.utxos, Outs(c)) && BlocksAre(s.db.tables.blocks, c) && s.db.topHeight == |c| - 1
    ensures s.spent == s.db.tables.images.Keys
  {
    hide Reread, DbOf, Outs, Txs, SpentImages, Extends;
    TablesOfChain(k, c, Disk(s));
    FirstBlock(k, c);
  }

  /** A recovery from the tables of a chain, under any vault record. */
  lemma RecoversMemory(k: Curve, s: NodeState, t: NodeState, c: seq<Block>)
    requires Held(k, Clean(s, c), c) && AllSized(c)
    requires t.db == s.db.(tables := s.db.tables.(vault := t.db.tables.vault))
    ensures Same(Recover(k, t), s) <==> t.db == s.db && Remembers(k, s, c)
  {
    hide Reread, RoundTrip.Sized, DbOf, ChainOk, Outs, Txs, SpentImages, LoadedOutputs, StoredTxs, Legible, Holds;
    CleanTables(k, s, c);
    LoadedLegible(k, s.db.tables.utxos, Outs(c));
    HistoryReads(k, s.db.tables.blocks, c);
  }

  /** A restart is invisible exactly when memory is what a recovery reads and the reader knows
      the hash of the top block. */
  lemma RestartShows(p: Params, s: NodeState, c: seq<Block>)
    requires Held(p.k, Clean(s, c), c) && AllSized(c)
    ensures Same(Restart(p, s.db.tables), s) <==> Remembers(p.k, s, c) && TipKnown(p.k, c[|c| - 1])
  {
    hide Storable, Reread, RoundTrip.Sized, DbOf, ChainOk, Outs, Txs, SpentImages, Recover, CommitDb, BlockHash, Remembers;
    var t := NodeState(OpenDb(p.k, s.db.tables), EMPTY_VAULT, {}, [], []);
    CleanTables(p.k, s, c);
    TablesOfChain(p.k, c, Disk(s));
    FirstBlock(p.k, c);
    GenesisStorable(p.k);
    LoadsBack(p.k, s.db.tables.blocks, c, 0);
    TipRead(p.k, s.db.tables.blocks, c);
    RecoverKeepsDb(p.k, t);
    if TipKnown(p.k, c[|c| - 1]) { RecoversMemory(p.k, s, t, c); }
  }

  /** When a refused block shows nothing: `Atomicity.Harmless`, with a recovery that reads what
      memory holds. */
  ghost predicate Silent(p: Params, s: NodeState, b: Block, c: seq<Block>)
    requires c != []
  {
    if Reorgs(p, s, b) then
      |c| > 1 && (Reread(p.k, c[|c| - 2]).None?
                  || (ReplayRuns(p.k, c) && Storable(p.k, c[|c| - 1]) && Remembers(p.k, s, c)))
    else Competes(s, b) || Remembers(p.k, s, c)
  }

  /** A rollback whose replay ran, after which the remote block was refused: the vault of the
      memory is what the guard writes. */
  lemma RefusedReorgShows(p: Params, s: NodeState, b: Block, c: seq<Block>)
    requires Held(p.k, Clean(s, c), c) && AllSized(c) && |c| > 1 && ReplayRuns(p.k, c)
    requires Reread(p.k, c[|c| - 1]).Some? && Reread(p.k, c[|c| - 2]).Some?
    requires var local := Reread(p.k, c[|c| - 1]).value; !Reorg(p, s, b, local).1
    ensures var local := Reread(p.k, c[|c| - 1]).value;
      Same(Reorg(p, s, b, local).0, s) <==> Storable(p.k, c[|c| - 1]) && Remembers(p.k, s, c)
  {
    hide Reread, Recover, RollbackDb, DbOf, Extends, RoundTrip.Sized, ValidBlock, Append, CommitDb, Outs, Txs, SpentImages;
    hide Remembers;
    var n := |c| - 1;
    LastSplit(c);
    CleanTables(p.k, s, c);
    RollbackOfChain(p.k, c[..n], c[n], Disk(s));
    var db, local := RollbackDb(p.k, s.db).0, Reread(p.k, c[n]).value;
    var t := Recover(p.k, s.(db := db)).(db := CommitDb(p.k, db, local, s.vault, GuardOutputs(local), Spends(local)));
    if Storable(p.k, c[n]) {
      PutBack(p.k, c[..n], c[n], ReadReplay(p.k, c[..n]).value, s.vault);
      VaultRecord(p.k, c, Disk(s), s.vault);
      RecoversMemory(p.k, s, t, c);
      RemembersVault(p.k, s, c);
    } else {
      RereadHeader(p.k, c[n]);
      ChainInit(p.k, c);
      CommitsBlock(p.k, db, local, s.vault, GuardOutputs(local), Spends(local));
      RecoverKeepsDb(p.k, t);
    }
  }

  lemma RemembersVault(k: Curve, s: NodeState, c: seq<Block>)
    ensures Remembers(k, s, c) ==> s.vault == Disk(s)
  {
  }

  /** A rollback that does not get so far. */
  lemma RollbackShows(p: Params, s: NodeState, b: Block, local: Block, c: seq<Block>)
    requires Held(p.k, Clean(s, c), c) && AllSized(c) && |c| > 1 && Reread(p.k, c[|c| - 1]).Some?
    ensures Reread(p.k, c[|c| - 2]).None? ==> Reorg(p, s, b, local) == (s, false)
    ensures Reread(p.k, c[|c| - 2]).Some? && !ReplayRuns(p.k, c) ==>
      !Reorg(p, s, b, local).1 && Reorg(p, s, b, local).0.db.topHeight == s.db.topHeight - 1
  {
    hide Reread, Recover, RollbackDb, DbOf, Extends, RoundTrip.Sized, ValidBlock, Append, CommitDb, Outs, Txs, SpentImages;
    var n := |c| - 1;
    LastSplit(c);
    CleanTables(p.k, s, c);
    RollbackOfChain(p.k, c[..n], c[n], Disk(s));
  }

  /** The exact condition under which a refused remote block changes nothing, for any vault and
      any pool in memory. */
  lemma RefusalShows(p: Params, s: NodeState, b: Block, c: seq<Block>)
    requires Held(p.k, Clean(s, c), c) && AllSized(c) && !ApplyRemote(p, s, b).1
    ensures c != [] && (Same(ApplyRemote(p, s, b).0, s) <==> Silent(p, s, b, c))
  {
    hide Reread, Recover, RollbackDb, DbOf, Reorg, RoundTrip.Sized, ApplyRemote, ValidBlock, Append, Remembers, Outs, Txs, SpentImages;
    Dispatch(p, s, b);
    CleanTables(p.k, s, c);
    if Reorgs(p, s, b) {
      RollbackShows(p, s, b, Reread(p.k, c[|c| - 1]).value, c);
      if Reread(p.k, c[|c| - 2]).Some? && ReplayRuns(p.k, c) { RefusedReorgShows(p, s, b, c); }
    } else if !Competes(s, b) {
      RecoversMemory(p.k, s, s, c);
    }
  }

  /** On a ledger whose memory agrees with its tables these are the conditions of `Atomicity`. */
  lemma AgreementRemembers(k: Curve, s: NodeState, c: seq<Block>)
    requires Held(k, s, c)
    ensures Held(k, Clean(s, c), c) && (Remembers(k, s, c) <==> AllRecoverable(k, c))
  {
    hide Reread, DbOf, SpentImages, Txs, Extends, NewOutputs, RoundTrip.OutputOk, Legible, AllLegible;
    TablesOfChain(k, c, s.vault);
    NothingTwice(k, c);
    DistinctOutputs(Outs(c));
    OutsLegible(k, c);
    LegibleAll(k, Outs(c));
    LegibleMembers(k, Outs(c));
    if multiset(Outs(c)) == multiset(Legible(k, Outs(c))) {
      AllLegibleIf(k, Outs(c));
    }
  }

  lemma AllLegibleIf(k: Curve, outs: seq<OneTimeOutput>)
    requires multiset(outs) == multiset(Legible(k, outs))
    ensures AllLegible(k, outs)
  {
    hide Legible, RoundTrip.OutputOk;
    LegibleMembers(k, outs);
    forall o | o in outs ensures RoundTrip.OutputOk(k, o) { SameMembers(outs, Legible(k, outs), o); }
  }

  // ---- After a rollback whose replay has thrown ----

  /** The state such a rollback leaves: tables and memory of the chain c, the tip one lower. */
  ghost predicate Stuck(k: Curve, t: NodeState, s: NodeState, c: seq<Block>) {
    && Held(k, s, c) && |c| > 1
    && t == s.(db := Db(s.db.tables, |c| - 2, BlockHash(k, c[|c| - 2])))
  }

  lemma ReorgGetsStuck(p: Params, s: NodeState, b: Block, local: Block, c: seq<Block>)
    requires Held(p.k, s, c) && AllSized(c) && |c| > 1 && !ReplayRuns(p.k, c)
    requires Reread(p.k, c[|c| - 1]).Some? && Reread(p.k, c[|c| - 2]).Some?
    ensures Stuck(p.k, Reorg(p, s, b, local).0, s, c)
  {
    hide Reread, Recover, RollbackDb, DbOf, Extends, RoundTrip.Sized, ValidBlock, Append, CommitDb, Outs, Txs, SpentImages;
    var n := |c| - 1;
    LastSplit(c);
    LocalTop(p, s, c);
    RollbackOfChain(p.k, c[..n], c[n], s.vault);
    TablesOfChain(p.k, c[..n], s.vault);
  }

  /** The next block that a stuck node mines or takes in stands on the block below the old top
      and overwrites the old top; but the old top's images stay spent, its hash stays indexed,
      and its outputs stay in the table, except where a key of the new block overwrites one. */
  lemma MinedOverStuck(p: Params, s: NodeState, t: NodeState, c: seq<Block>, b: Block)
    requires Stuck(p.k, t, s, c) && Sits(p, t, b)
    ensures var u, top := Append(p, t, b).db.tables, c[|c| - 1];
      && b.header.prevHash == BlockHash(p.k, c[|c| - 2]) && b.header.height == |c| - 1
      && u.blocks == s.db.tables.blocks[|c| - 1 := b]
      && Elements(CanonicalAll(p.k, Spends(top))) <= u.images.Keys && BlockHash(p.k, top) in u.index
      && (forall o :: o in NewOutputs(top) && o.destination !in Elements(Destinations(NewOutputs(b))) ==>
            o.destination in u.utxos && u.utxos[o.destination] == o)
  {
    hide DbOf, Txs, Extends, VaultAfter, Outs, NewOutputs, Canonical, BlockHash;
    LocalTop(p, s, c);
    LastSplit(c);
    TablesOfChain(p.k, c, s.vault);
    Push(p.k, c[..|c| - 1], c[|c| - 1]);
    ElementsConcat(SpentImages(p.k, c[..|c| - 1]), CanonicalAll(p.k, Spends(c[|c| - 1])));
    PutOutputsKeys(s.db.tables.utxos, NewOutputs(b));
    TopIndexed(p.k, c, s.vault);
    HoldsMembers(s.db.tables.utxos, Outs(c));
  }

  lemma TopIndexed(k: Curve, c: seq<Block>, v: Balances)
    requires ChainOk(k, c)
    ensures BlockHash(k, c[|c| - 1]) in DbOf(k, c, v).tables.index
  {
  }

  lemma HoldsMembers(m: map<Key256, OneTimeOutput>, outs: seq<OneTimeOutput>)
    requires Holds(m, outs)
    ensures forall o :: o in outs ==> o.destination in m && m[o.destination] == o
  {
    var d := Destinations(outs);
    forall o | o in outs ensures o.destination in m {
      var i :| 0 <= i < |outs| && outs[i] == o;
      assert d[i] in Elements(d);
    }
  }

  /** If the old top spent anything, no chain describes the node any more. */
  lemma NoChainAfterStuck(p: Params, s: NodeState, t: NodeState, c: seq<Block>, b: Block, d: seq<Block>)
    requires Stuck(p.k, t, s, c) && Sits(p, t, b) && Spends(c[|c| - 1]) != []
    ensures !Held(p.k, Append(p, t, b), d)
  {
    hide Stuck, Held, Sits, Append, CanonicalAll, Spends, SpentImages, BlockHash, NewOutputs, BlocksAre;
    var u, n := Append(p, t, b), |c| - 1;
    StuckHeld(p.k, t, s, c);
    if Held(p.k, u, d) {
      MinedOverStuck(p, s, t, c, b);
      HeldTables(p, s, c);
      HeldTables(p, u, d);
      BlocksTell(u.db.tables.blocks, s.db.tables.blocks, c, d, b);
      var x := FirstSpend(p.k, c[n]);
      SpentBefore(p, s, t, c, b, x);
      SpentNeither(p.k, c[..n], b, x);
    }
  }

  lemma FirstSpend(k: Curve, b: Block) returns (x: KeyImage)
    requires Spends(b) != []
    ensures x in CanonicalAll(k, Spends(b)) && x in Elements(CanonicalAll(k, Spends(b)))
  {
    x := CanonicalAll(k, Spends(b))[0];
  }

  lemma SpentNeither(k: Curve, c: seq<Block>, b: Block, x: KeyImage)
    requires x !in SpentImages(k, c) && x !in CanonicalAll(k, Spends(b))
    ensures x !in Elements(SpentImages(k, c + [b]))
  {
    Push(k, c, b);
  }

  lemma BlocksTell(m: map<nat, Block>, was: map<nat, Block>, c: seq<Block>, d: seq<Block>, b: Block)
    requires c != [] && BlocksAre(was, c) && BlocksAre(m, d) && m == was[|c| - 1 := b]
    ensures d == c[..|c| - 1] + [b]
  {
    var n := |c| - 1;
    assert n in m && |c| !in m;
    assert |d| == |c|;
    forall i: nat | i < |c| ensures d[i] == (c[..n] + [b])[i] {
      assert i in m && m[i] == d[i];
    }
  }

  /** An image of the old top is neither spent below it nor by the new block. */
  lemma SpentBefore(p: Params, s: NodeState, t: NodeState, c: seq<Block>, b: Block, x: KeyImage)
    requires Stuck(p.k, t, s, c) && Sits(p, t, b) && x in CanonicalAll(p.k, Spends(c[|c| - 1]))
    ensures x !in SpentImages(p.k, c[..|c| - 1]) && x !in CanonicalAll(p.k, Spends(b))
  {
    hide DbOf, Txs, Extends, VaultAfter, Outs, NewOutputs, Canonical, BlockHash;
    var n := |c| - 1;
    LastSplit(c);
    Push(p.k, c[..n], c[n]);
    NothingTwice(p.k, c);
    NoDupConcat(SpentImages(p.k, c[..n]), CanonicalAll(p.k, Spends(c[n])));
    ElementsConcat(SpentImages(p.k, c[..n]), CanonicalAll(p.k, Spends(c[n])));
    assert x in Elements(CanonicalAll(p.k, Spends(c[n])));
    SitsApart(p, t, b);
  }

  lemma SitsApart(p: Params, t: NodeState, b: Block)
    requires Sits(p, t, b)
    ensures forall y :: y in CanonicalAll(p.k, Spends(b)) ==> y !in t.spent
  {
    hide Canonical, VaultAfter;
    var images := CanonicalAll(p.k, Spends(b));
    forall y | y in images ensures y !in t.spent {
      var i :| 0 <= i < |images| && images[i] == y;
      assert Spends(b)[i] in Spends(b) && !IsSpent(p.k, t, Spends(b)[i]);
    }
  }

  lemma HeldTables(p: Params, u: NodeState, d: seq<Block>)
    requires Held(p.k, u, d)
    ensures BlocksAre(u.db.tables.blocks, d) && u.db.tables.images.Keys == Elements(SpentImages(p.k, d))
  {
    hide DbOf, Txs, Extends, Outs, SpentImages;
    TablesOfChain(p.k, d, u.vault);
  }

  lemma StuckHeld(k: Curve, t: NodeState, s: NodeState, c: seq<Block>)
    requires Stuck(k, t, s, c)
    ensures Held(k, s, c) && |c| > 1
  {
  }

  // ---- What a recovery loses ----

  /** The outputs that the reader refuses. */
  function Illegible(k: Curve, outs: seq<OneTimeOutput>): seq<OneTimeOutput> {
    if outs == [] then [] else
    (if RoundTrip.OutputOk(k, outs[0]) then [] else [outs[0]]) + Illegible(k, outs[1..])
  }

  /** The transactions of the blocks that their bytes do not give back. */
  function LostTxs(k: Curve, c: seq<Block>): seq<ShieldedTransaction> {
    if c == [] then [] else
    LostTxs(k, c[..|c| - 1]) + if Storable(k, c[|c| - 1]) then [] else c[|c| - 1].txs
  }

  lemma {:induction false} LostCoins(k: Curve, img: Link, outs: seq<OneTimeOutput>, spent: set<KeyImage>)
    ensures Unspent(CoinsOf(img, outs), spent)
      == Unspent(CoinsOf(img, Legible(k, outs)), spent) + Unspent(CoinsOf(img, Illegible(k, outs)), spent)
  {
    if outs != [] {
      hide CoinsOf, Unspent, RoundTrip.OutputOk;
      var first, tail := [outs[0]], outs[1..];
      LostCoins(k, img, tail, spent);
      assert outs == first + tail;
      CoinsConcat(img, first, tail);
      UnspentConcat(CoinsOf(img, first), CoinsOf(img, tail), spent);
      if RoundTrip.OutputOk(k, outs[0]) {
        CoinsConcat(img, first, Legible(k, tail));
        UnspentConcat(CoinsOf(img, first), CoinsOf(img, Legible(k, tail)), spent);
        NothingFirst(Illegible(k, tail));
      } else {
        CoinsConcat(img, first, Illegible(k, tail));
        UnspentConcat(CoinsOf(img, first), CoinsOf(img, Illegible(k, tail)), spent);
        NothingFirst(Legible(k, tail));
      }
    }
  }

  lemma NothingFirst<T>(s: seq<T>)
    ensures [] + s == s
  {
  }

  lemma {:induction false} LostFees(k: Curve, m: map<nat, Block>, c: seq<Block>)
    requires c != [] && ReadsAs(m, c) && AllSized(c) && c[0].txs == []
    ensures Fees(StoredTxs(k, m, |c| - 1)) + Fees(LostTxs(k, c)) == Fees(Txs(c))
  {
    hide Storable, Reread, RoundTrip.Sized, Fees;
    var n := |c| - 1;
    if n == 0 {
      NothingLost(k, c);
    } else {
      LostFees(k, m, c[..n]);
      LostWith(k, m, c);
    }
  }

  lemma NothingLost(k: Curve, c: seq<Block>)
    requires |c| == 1 && c[0].txs == []
    ensures LostTxs(k, c) == [] && Txs(c) == [] && Fees(LostTxs(k, c)) == 0 == Fees(Txs(c)) == Fees([])
  {
    hide Storable;
    assert Txs(c) == Txs(c[..0]) + c[0].txs;
    assert LostTxs(k, c) == LostTxs(k, c[..0]) + [];
  }

  /** One more block: its transactions are read, or they are lost. */
  lemma LostWith(k: Curve, m: map<nat, Block>, c: seq<Block>)
    requires |c| > 1 && ReadsAs(m, c) && AllSized(c)
    requires Fees(StoredTxs(k, m, |c| - 2)) + Fees(LostTxs(k, c[..|c| - 1])) == Fees(Txs(c[..|c| - 1]))
    ensures Fees(StoredTxs(k, m, |c| - 1)) + Fees(LostTxs(k, c)) == Fees(Txs(c))
  {
    hide Storable, Reread, RoundTrip.Sized, Fees;
    var n := |c| - 1;
    RereadTxs(k, c[n]);
    var read := if Storable(k, c[n]) then c[n].txs else [];
    var lost := if Storable(k, c[n]) then [] else c[n].txs;
    assert StoredTxs(k, m, n) == StoredTxs(k, m, n - 1) + read;
    FeesSplit(StoredTxs(k, m, n - 1), read, LostTxs(k, c[..n]), lost, Txs(c[..n]), c[n].txs);
  }

  lemma FeesSplit(a: seq<ShieldedTransaction>, x: seq<ShieldedTransaction>, b: seq<ShieldedTransaction>, y: seq<ShieldedTransaction>,
                  all: seq<ShieldedTransaction>, z: seq<ShieldedTransaction>)
    requires Fees(a) + Fees(b) == Fees(all) && ((x == z && y == []) || (x == [] && y == z))
    ensures Fees(a + x) + Fees(b + y) == Fees(all + z)
  {
    FeesConcat(a, x);
    FeesConcat(b, y);
    FeesConcat(all, z);
  }

  /** A recovery of the tables of c, the tip hash apart. */
  ghost predicate ReadBack(k: Curve, s: NodeState, t: NodeState) {
    && t.vault == Disk(s) && t.spent == s.db.tables.images.Keys
    && t.pool == LoadedOutputs(k, s.db.tables.utxos) && t.history == StoredTxs(k, s.db.tables.blocks, s.db.topHeight)
  }

  lemma RecoveryReadsBack(p: Params, s: NodeState, c: seq<Block>)
    requires Held(p.k, s, c)
    ensures ReadBack(p.k, s, Recover(p.k, s)) && ReadBack(p.k, s, Restart(p, s.db.tables))
  {
    hide Reread, DbOf, Outs, Txs, SpentImages, Extends, LoadedOutputs, StoredTxs, BlockHash;
    TablesOfChain(p.k, c, s.vault);
    FirstBlock(p.k, c);
    GenesisStorable(p.k);
    LoadsBack(p.k, s.db.tables.blocks, c, 0);
  }

  /** By how much the supply equation fails after a recovery or a restart: by the unspent outputs
      that cannot be read and the fees of the transactions whose blocks cannot be read. */
  lemma SupplyAfterLoss(p: Params, img: Link, s: NodeState, c: seq<Block>, t: NodeState)
    requires Held(p.k, s, c) && AllSized(c) && BalancedChain(p.k, p.depositBps, img, c) && Injective(img, Outs(c))
    requires s.vault.circulating == Circulating(p.depositBps, c)
    requires t == Recover(p.k, s) || t == Restart(p, s.db.tables)
    ensures Unspent(CoinsOf(img, t.pool), t.spent) + Fees(t.history)
      + Unspent(CoinsOf(img, Illegible(p.k, Outs(c))), s.spent) + Fees(LostTxs(p.k, c)) == t.vault.circulating
  {
    hide Reread, DbOf, Outs, Txs, SpentImages, Extends, LoadedOutputs, StoredTxs, Legible, Illegible, Recover, Restart;
    hide BalancedChain, Injective, Circulating, RoundTrip.Sized, LostTxs, Fees, Unspent, CoinsOf;
    TablesOfChain(p.k, c, s.vault);
    FirstBlock(p.k, c);
    NothingTwice(p.k, c);
    InjectiveDistinct(img, Outs(c));
    ChainConserves(p.k, p.depositBps, img, c);
    RecoveryReadsBack(p, s, c);
    LoadedLegible(p.k, s.db.tables.utxos, Outs(c));
    LostCoins(p.k, img, Outs(c), s.spent);
    LostFees(p.k, s.db.tables.blocks, c);
    CoinsPermuted(img, t.pool, Legible(p.k, Outs(c)));
    UnspentAnyOrder(CoinsOf(img, t.pool), CoinsOf(img, Legible(p.k, Outs(c))), t.spent);
  }

  lemma {:induction false} CoinsPermuted(img: Link, a: seq<OneTimeOutput>, b: seq<OneTimeOutput>)
    requires multiset(a) == multiset(b)
    ensures multiset(CoinsOf(img, a)) == multiset(CoinsOf(img, b))
    decreases |a|
  {
    EmptyPermuted(a, b);
    if a != [] {
      var n := |a| - 1;
      SameMembers(a, b, a[n]);
      var i :| 0 <= i < |b| && b[i] == a[n];
      TakeOne(a, n);
      TakeOne(b, i);
      assert a[..n] + a[n + 1..] == a[..n];
      CoinsPermuted(img, a[..n], b[..i] + b[i + 1..]);
      CoinsWithout(img, a, n);
      CoinsWithout(img, b, i);
    }
  }

  lemma CoinsWithout(img: Link, a: seq<OneTimeOutput>, i: nat)
    requires i < |a|
    ensures multiset(CoinsOf(img, a)) == multiset(CoinsOf(img, a[..i] + a[i + 1..])) + multiset{CoinsOf(img, a)[i]}
  {
    var coins := CoinsOf(img, a);
    assert CoinsOf(img, a[..i] + a[i + 1..]) == coins[..i] + coins[i + 1..];
    TakeOne(coins, i);
  }
}
