/** All-or-nothing application of remote blocks, competing blocks included
    (src/node.cpp:575-1159). */
module Atomicity {
  import opened Types
  import opened Sequences
  import opened CurveModel
  import opened VaultModel
  import opened DbModel
  import opened Ledger
  import opened Chain
  import opened Agreement
  import RoundTrip

  /** The remote block competes with the local top, as it is read, and is preferred to it. */
  ghost predicate Reorgs(p: Params, s: NodeState, b: Block) {
    var h := s.db.topHeight;
    && b.header.height == h > 0
    && match LoadBlock(p.k, s.db.tables.blocks, h)
       case None => false
       case Some(local) =>
         && BlockHash(p.k, b) != BlockHash(p.k, local) && b.header.prevHash == local.header.prevHash
         && Preferred(p, b, local)
  }

  /** The state a remote block is validated against. */
  ghost function Base(p: Params, s: NodeState, b: Block): NodeState {
    if Reorgs(p, s, b) then Recover(p.k, s.(db := RollbackDb(p.k, s.db).0)) else s
  }

  ghost function BaseChain(p: Params, s: NodeState, b: Block, c: seq<Block>): seq<Block>
    requires c != []
  {
    if Reorgs(p, s, b) then c[..|c| - 1] else c
  }

  /** The replay the rollback needs does not throw. A caller can run it beforehand. */
  ghost predicate ReplayRuns(k: Curve, c: seq<Block>) {
    |c| > 1 ==> ReadReplay(k, c[..|c| - 1]).Some?
  }

  lemma LocalTop(p: Params, s: NodeState, c: seq<Block>)
    requires Held(p.k, s, c)
    ensures s.db.topHeight == |c| - 1 && BlocksAre(s.db.tables.blocks, c)
    ensures s.db.topHash == BlockHash(p.k, c[|c| - 1]) && s.db.tables.vault == Some(s.vault)
  {
    TablesOfChain(p.k, c, s.vault);
  }

  /** The top block, where it is given back by its bytes. */
  lemma TopLoads(p: Params, s: NodeState, c: seq<Block>)
    requires Held(p.k, s, c) && Storable(p.k, c[|c| - 1])
    ensures LoadBlock(p.k, s.db.tables.blocks, s.db.topHeight) == Some(c[|c| - 1])
  {
    hide Reread, Held;
    LocalTop(p, s, c);
    LoadsBack(p.k, s.db.tables.blocks, c, |c| - 1);
  }

  lemma LastReadable(k: Curve, c: seq<Block>)
    requires |c| > 1 && Readable(k, c)
    ensures Readable(k, c[..|c| - 1]) && Storable(k, c[|c| - 1]) && Storable(k, c[|c| - 2])
    ensures AllSized(c) && AllSized(c[..|c| - 1]) && RoundTrip.Sized(c[|c| - 1])
  {
    hide Storable, RoundTrip.Sized;
    ReadableInit(k, c);
    ReadableFits(k, c);
    ReadableFits(k, c[..|c| - 1]);
  }

  /** After the rollback the node is in the state of the shorter chain. */
  lemma RolledBack(p: Params, s: NodeState, c: seq<Block>)
    requires Inv(p.k, s, c) && |c| > 1 && ReplayRuns(p.k, c)
    ensures var (db, ok) := RollbackDb(p.k, s.db); var s1 := Recover(p.k, s.(db := db));
      && ok && Inv(p.k, s1, c[..|c| - 1]) && Some(s1.vault) == Replay(REPLAY_BPS, REPLAY_BPS, c[..|c| - 1])
      && db == DbOf(p.k, c[..|c| - 1], s1.vault)
  {
    hide Reread, Recover, RollbackDb, DbOf, Extends, Readable, RoundTrip.Sized, Outs, Txs, SpentImages;
    var n := |c| - 1;
    LastSplit(c);
    LastReadable(p.k, c);
    RollbackOfChain(p.k, c[..n], c[n], s.vault);
    ReadReplayOf(p.k, c[..n]);
    ReplaySolvent(REPLAY_BPS, REPLAY_BPS, c[..n]);
    var r := Replay(REPLAY_BPS, REPLAY_BPS, c[..n]).value;
    Recovers(p.k, s.(db := DbOf(p.k, c[..n], r)), c[..n], r);
  }

  lemma HoldsUnique(m: map<Key256, OneTimeOutput>, n: map<Key256, OneTimeOutput>, outs: seq<OneTimeOutput>)
    requires Holds(m, outs) && Holds(n, outs)
    ensures m == n
  {
    HoldsKeyed(m, outs);
    var d := Destinations(outs);
    forall x | x in m ensures x in n && m[x] == n[x] {
      assert x in Elements(d);
      var i :| 0 <= i < |d| && d[i] == x;
      assert outs[i] in outs;
    }
  }

  /** The guard collects the outputs in another order; the table does not depend on it. */
  lemma PutAnyOrder(m: map<Key256, OneTimeOutput>, a: seq<OneTimeOutput>, b: seq<OneTimeOutput>)
    requires Keyed(m) && multiset(a) == multiset(b) && multiset(Destinations(a)) == multiset(Destinations(b))
    requires NoDup(Destinations(a)) && Elements(Destinations(a)) !! m.Keys
    ensures PutOutputs(m, a) == PutOutputs(m, b)
  {
    var held := CursorValues(m);
    NoDupPermuted(Destinations(a), Destinations(b));
    HoldsItsCursor(m);
    PutHolds(m, held, a);
    PutHolds(m, held, b);
    HoldsPermuted(PutOutputs(m, b), held + b, held + a);
    HoldsUnique(PutOutputs(m, a), PutOutputs(m, b), held + a);
  }

  lemma HoldsPermuted(m: map<Key256, OneTimeOutput>, a: seq<OneTimeOutput>, b: seq<OneTimeOutput>)
    requires Holds(m, a) && multiset(a) == multiset(b) && NoDup(Destinations(b))
    ensures Holds(m, b)
  {
    forall o ensures o in a <==> o in b { SameMembers(a, b, o); }
    SameDestinations(a, b);
    SameDestinations(b, a);
  }

  lemma SameDestinations(a: seq<OneTimeOutput>, b: seq<OneTimeOutput>)
    requires forall o :: o in a ==> o in b
    ensures Elements(Destinations(a)) <= Elements(Destinations(b))
  {
    forall x | x in Elements(Destinations(a)) ensures x in Elements(Destinations(b)) {
      var i :| 0 <= i < |a| && a[i].destination == x;
      assert a[i] in b;
      var j :| 0 <= j < |b| && b[j] == a[i];
      assert Destinations(b)[j] == x;
    }
  }

  lemma GuardOrder(b: Block)
    ensures multiset(GuardOutputs(b)) == multiset(NewOutputs(b))
    ensures multiset(Destinations(GuardOutputs(b))) == multiset(Destinations(NewOutputs(b)))
  {
    var d, t, w := b.depositOutputs, TxOutputs(b.txs), b.withdrawalOutputs;
    DestinationsConcat(d + t, w);
    DestinationsConcat(d, t);
    DestinationsConcat(t + d, w);
    DestinationsConcat(t, d);
  }

  /** Committing the old top block again, as ReorgGuard does, restores the store. */
  lemma PutBack(k: Curve, c: seq<Block>, b: Block, r: Balances, v: Balances)
    requires ChainOk(k, c) && Extends(k, c, b)
    ensures CommitDb(k, DbOf(k, c, r), b, v, GuardOutputs(b), Spends(b)) == DbOf(k, c + [b], v)
  {
    TablesOfChain(k, c, r);
    FreshAnyVault(k, c, b, EMPTY_VAULT, r);
    HoldsKeyed(DbOf(k, c, r).tables.utxos, Outs(c));
    GuardOrder(b);
    PutAnyOrder(DbOf(k, c, r).tables.utxos, NewOutputs(b), GuardOutputs(b));
    VaultRecord(k, c, r, v);
    DbOfPush(k, c, b, v);
  }

  lemma BaseHolds(p: Params, s: NodeState, b: Block, c: seq<Block>)
    requires Inv(p.k, s, c) && (Reorgs(p, s, b) ==> ReplayRuns(p.k, c))
    ensures Inv(p.k, Base(p, s, b), BaseChain(p, s, b, c))
  {
    hide Reread, Recover, RollbackDb, Readable;
    LocalTop(p, s, c);
    if Reorgs(p, s, b) { RolledBack(p, s, c); }
  }

  /** The top as the reorganisation sees it. */
  lemma ReorgsTop(p: Params, s: NodeState, b: Block, c: seq<Block>)
    requires Inv(p.k, s, c) && Reorgs(p, s, b)
    ensures |c| > 1 && LoadBlock(p.k, s.db.tables.blocks, s.db.topHeight) == Some(c[|c| - 1])
  {
    hide Reread;
    LocalTop(p, s, c);
    TopLoads(p, s, c);
  }

  lemma ReorgOutcome(p: Params, s: NodeState, b: Block, c: seq<Block>)
    requires Inv(p.k, s, c) && Reorgs(p, s, b) && ReplayRuns(p.k, c)
    ensures var (s', ok) := Reorg(p, s, b, c[|c| - 1]);
      && ok == ValidBlock(p, Base(p, s, b), b)
      && (ok ==> s' == Append(p, Base(p, s, b), b))
      && (!ok ==> Inv(p.k, s', c) && Same(s', s))
  {
    hide Reread, Recover, RollbackDb, ValidBlock, Append, DbOf, Extends, Readable, CommitDb, RoundTrip.Sized, Outs, Txs, SpentImages;
    ReorgsTop(p, s, b, c);
    RolledBack(p, s, c);
    var n := |c| - 1;
    var s1 := Base(p, s, b);
    if !ValidBlock(p, s1, b) {
      LastSplit(c);
      PutBack(p.k, c[..n], c[n], s1.vault, s.vault);
      var t := s1.(db := DbOf(p.k, c, s.vault));
      Recovers(p.k, t, c, s.vault);
      SameChain(p.k, Recover(p.k, t), s, c);
    }
  }

  lemma StuckReorg(p: Params, s: NodeState, b: Block, local: Block, c: seq<Block>)
    requires Held(p.k, s, c) && AllSized(c) && |c| > 1 && !ReplayRuns(p.k, c)
    requires Reread(p.k, c[|c| - 1]).Some? && Reread(p.k, c[|c| - 2]).Some?
    ensures var (s', ok) := Reorg(p, s, b, local);
      !ok && s'.db.topHeight == s.db.topHeight - 1 && s'.db.tables == s.db.tables
  {
    hide Reread, Recover, RollbackDb, DbOf, Extends, RoundTrip.Sized, ValidBlock, Append, CommitDb, Outs, Txs, SpentImages;
    LocalTop(p, s, c);
    var n := |c| - 1;
    LastSplit(c);
    RollbackOfChain(p.k, c[..n], c[n], s.vault);
  }

  lemma Dispatch(p: Params, s: NodeState, b: Block)
    ensures var r, loaded := ApplyRemote(p, s, b), LoadBlock(p.k, s.db.tables.blocks, s.db.topHeight);
      if Reorgs(p, s, b) then loaded.Some? && r == Reorg(p, s, b, loaded.value)
      else if Competes(s, b) then r == (s, true) || r == (s, false)
      else r == Extend(p, s, b)
  {
    hide Reread, Reorg, Extend;
  }

  /** The block is meant for the height of the local top. */
  predicate Competes(s: NodeState, b: Block) {
    b.header.height == s.db.topHeight > 0
  }

  /** The block was taken in on top of the state it was validated against. */
  ghost predicate TakenIn(p: Params, s: NodeState, b: Block, s': NodeState) {
    ValidBlock(p, Base(p, s, b), b) && s' == Append(p, Base(p, s, b), b)
  }

  /** The outcome of `apply_remote_block` over a readable chain in one place: a block that is
      accepted is appended to the state it was validated against (or was the top already), and
      one that is refused changes nothing, unless the replay of the rollback throws. */
  lemma RemoteOutcome(p: Params, s: NodeState, b: Block, c: seq<Block>)
    requires Inv(p.k, s, c)
    ensures var (s', ok) := ApplyRemote(p, s, b);
      && (ok ==> s' == s || (TakenIn(p, s, b, s') && (Reorgs(p, s, b) ==> ReplayRuns(p.k, c))))
      && (!ok && (Reorgs(p, s, b) ==> ReplayRuns(p.k, c)) ==> Inv(p.k, s', c) && Same(s', s))
  {
    hide Reread, Recover, RollbackDb, ValidBlock, Append, Reorg, ApplyRemote, Readable, DbOf, Held, RoundTrip.Sized;
    Dispatch(p, s, b);
    if Reorgs(p, s, b) {
      ReorgsTop(p, s, b, c);
      LastReadable(p.k, c);
      if ReplayRuns(p.k, c) { ReorgOutcome(p, s, b, c); } else { StuckReorg(p, s, b, c[|c| - 1], c); }
    } else if !Competes(s, b) {
      RecoversHere(p.k, s, c);
    }
  }

  /** Reading a readable ledger back. */
  lemma RecoversHere(k: Curve, s: NodeState, c: seq<Block>)
    requires Inv(k, s, c)
    ensures Inv(k, Recover(k, s), c) && Same(Recover(k, s), s)
  {
    hide Recover, Readable, DbOf, Outs, Txs, SpentImages;
    Recovers(k, s, c, s.vault);
    SameChain(k, Recover(k, s), s, c);
  }

  /** When a refused block leaves everything as it was: if it begins a rollback, then the block
      below the top cannot be read, so that the rollback is given up at once, or the replay
      runs, the top is given back by its bytes and nothing of the chain is lost in a recovery;
      if it is tried on the tip, then nothing of the chain is lost in a recovery; and always if
      it is turned away before. */
  ghost predicate Harmless(p: Params, s: NodeState, b: Block, c: seq<Block>)
    requires c != []
  {
    if Reorgs(p, s, b) then
      |c| > 1 && (Reread(p.k, c[|c| - 2]).None?
                  || (ReplayRuns(p.k, c) && Storable(p.k, c[|c| - 1]) && AllRecoverable(p.k, c)))
    else Competes(s, b) || AllRecoverable(p.k, c)
  }

  /** A rollback whose replay ran, after which the remote block was refused. */
  lemma RefusedReorg(p: Params, s: NodeState, b: Block, c: seq<Block>)
    requires Held(p.k, s, c) && AllSized(c) && |c| > 1 && ReplayRuns(p.k, c)
    requires Reread(p.k, c[|c| - 1]).Some? && Reread(p.k, c[|c| - 2]).Some?
    requires var local := Reread(p.k, c[|c| - 1]).value; !Reorg(p, s, b, local).1
    ensures var local := Reread(p.k, c[|c| - 1]).value;
      Same(Reorg(p, s, b, local).0, s) <==> Storable(p.k, c[|c| - 1]) && AllRecoverable(p.k, c)
  {
    hide Reread, Recover, RollbackDb, DbOf, Extends, RoundTrip.Sized, ValidBlock, Append, CommitDb, Outs, Txs, SpentImages, AllRecoverable;
    var n := |c| - 1;
    LastSplit(c);
    RollbackOfChain(p.k, c[..n], c[n], s.vault);
    var db, local := RollbackDb(p.k, s.db).0, Reread(p.k, c[n]).value;
    var t := Recover(p.k, s.(db := db)).(db := CommitDb(p.k, db, local, s.vault, GuardOutputs(local), Spends(local)));
    if Storable(p.k, c[n]) {
      PutBack(p.k, c[..n], c[n], ReadReplay(p.k, c[..n]).value, s.vault);
      RecoversExactly(p.k, s, t, c);
    } else {
      MisreadTop(p, s, c, db);
      RecoverKeepsDb(p.k, t);
    }
  }

  /** A top that was read as another block is put back as that other block. */
  lemma MisreadTop(p: Params, s: NodeState, c: seq<Block>, db: Db)
    requires Held(p.k, s, c) && AllSized(c) && |c| > 1 && Reread(p.k, c[|c| - 1]).Some? && !Storable(p.k, c[|c| - 1])
    ensures var local := Reread(p.k, c[|c| - 1]).value;
      CommitDb(p.k, db, local, s.vault, GuardOutputs(local), Spends(local)) != s.db
  {
    hide Reread, RoundTrip.Sized, DbOf, CommitDb;
    var n := |c| - 1;
    var local := Reread(p.k, c[n]).value;
    LocalTop(p, s, c);
    ChainInit(p.k, c);
    RereadHeader(p.k, c[n]);
    CommitsBlock(p.k, db, local, s.vault, GuardOutputs(local), Spends(local));
  }

  lemma CommitsBlock(k: Curve, db: Db, b: Block, v: Balances, outs: seq<OneTimeOutput>, images: seq<KeyImage>)
    ensures var r := CommitDb(k, db, b, v, outs, images); b.header.height in r.tables.blocks && r.tables.blocks[b.header.height] == b
  {
  }

  /** All or nothing, with its exact condition, whatever the bytes of the stored blocks and
      outputs are taken for: when a remote block is refused, every table, the tip, the vault,
      the key images, the history and the pool are as before the call if and only if the block
      was harmless. */
  lemma RefusedChangesNothing(p: Params, s: NodeState, b: Block, c: seq<Block>)
    requires Held(p.k, s, c) && AllSized(c) && !ApplyRemote(p, s, b).1
    ensures Same(ApplyRemote(p, s, b).0, s) <==> Harmless(p, s, b, c)
  {
    hide Reread, Recover, RollbackDb, DbOf, Reorg, RoundTrip.Sized, ApplyRemote, ValidBlock, Append, Held, AllRecoverable;
    Dispatch(p, s, b);
    LocalTop(p, s, c);
    if Reorgs(p, s, b) {
      if Reread(p.k, c[|c| - 2]).None? {
        StoppedReorg(p, s, b, c);
      } else if ReplayRuns(p.k, c) {
        RefusedReorg(p, s, b, c);
      } else {
        StuckReorg(p, s, b, Reread(p.k, c[|c| - 1]).value, c);
      }
    } else if !Competes(s, b) {
      RecoversExactly(p.k, s, s, c);
    }
  }

  lemma StoppedReorg(p: Params, s: NodeState, b: Block, c: seq<Block>)
    requires Held(p.k, s, c) && AllSized(c) && |c| > 1 && Reread(p.k, c[|c| - 2]).None?
    ensures forall local :: Reorg(p, s, b, local) == (s, false)
  {
    hide Reread, Recover, RollbackDb, DbOf, Extends, RoundTrip.Sized, ValidBlock, Append, CommitDb, Outs, Txs, SpentImages;
    var n := |c| - 1;
    LastSplit(c);
    RollbackOfChain(p.k, c[..n], c[n], s.vault);
  }

  /** Over a readable chain only the replay can do harm. */
  lemma ReadableHarmless(p: Params, s: NodeState, b: Block, c: seq<Block>)
    requires Inv(p.k, s, c)
    ensures Harmless(p, s, b, c) <==> (Reorgs(p, s, b) ==> ReplayRuns(p.k, c))
  {
    hide Reread, RoundTrip.Sized, Recoverable, Held, ReplayRuns;
    ReadableFits(p.k, c);
    if Reorgs(p, s, b) { ReorgsTop(p, s, b, c); }
  }
}
