/** Memory, tables and replay agree after every restart, append, rollback and failed remote
    block (src/node.cpp:85-123, 575-1159; src/blockchain_db.cpp:363-649). */
module Agreement {
  import opened Types
  import opened Sequences
  import opened ByteOrder
  import opened CurveModel
  import opened VaultModel
  import opened DbModel
  import opened Ledger
  import opened Chain
  import RoundTrip

  // ---- The pool as a set ----

  lemma {:induction false} LookupFinds(pool: seq<OneTimeOutput>, o: OneTimeOutput)
    requires NoDup(Destinations(pool)) && o in pool
    ensures Lookup(pool, o.destination) == Some(o)
  {
    var found := Lookup(pool, o.destination).value;
    var i :| 0 <= i < |pool| && pool[i] == found;
    var j :| 0 <= j < |pool| && pool[j] == o;
    assert Destinations(pool)[i] == Destinations(pool)[j];
  }

  /** A lookup does not depend on the order of the pool. */
  lemma LookupAnyOrder(a: seq<OneTimeOutput>, b: seq<OneTimeOutput>, key: Key256)
    requires multiset(a) == multiset(b) && NoDup(Destinations(a))
    ensures Lookup(a, key) == Lookup(b, key)
  {
    var x, y := Lookup(a, key), Lookup(b, key);
    if x.Some? { SameMembers(a, b, x.value); }
    if y.Some? {
      SameMembers(a, b, y.value);
      LookupFinds(a, y.value);
    }
  }

  /** The keys of a table of outputs are their destinations. */
  ghost predicate Keyed(m: map<Key256, OneTimeOutput>) {
    forall x :: x in m ==> m[x].destination == x
  }

  lemma HoldsKeyed(m: map<Key256, OneTimeOutput>, outs: seq<OneTimeOutput>)
    requires Holds(m, outs)
    ensures Keyed(m)
  {
    forall x | x in m ensures m[x].destination == x {
      var d := Destinations(outs);
      assert x in Elements(d);
      var i :| 0 <= i < |d| && d[i] == x;
      assert outs[i] in outs;
    }
  }

  lemma CursorDistinct(m: map<Key256, OneTimeOutput>)
    requires Keyed(m)
    ensures NoDup(CursorValues(m)) && |CursorValues(m)| == |m.Keys|
    ensures forall o :: o in CursorValues(m) <==> o.destination in m && m[o.destination] == o
  {
    var keys, vals := SortedKeys(m.Keys), CursorValues(m);
    SortedKeysNoDup(m.Keys);
    forall i, j | 0 <= i < j < |vals| ensures vals[i] != vals[j] {
      assert keys[i] != keys[j] && keys[i] in m && keys[j] in m;
    }
    forall o: OneTimeOutput | o.destination in m && m[o.destination] == o ensures o in vals {
      assert o.destination in keys;
      var i :| 0 <= i < |keys| && keys[i] == o.destination;
      assert vals[i] == o;
    }
    forall o | o in vals ensures o.destination in m && m[o.destination] == o {
      var i :| 0 <= i < |vals| && vals[i] == o;
      assert keys[i] in m;
    }
  }

  lemma DistinctOutputs(outs: seq<OneTimeOutput>)
    requires NoDup(Destinations(outs))
    ensures NoDup(outs)
  {
    var d := Destinations(outs);
    forall i, j | 0 <= i < j < |outs| ensures outs[i] != outs[j] { assert d[i] != d[j]; }
  }

  lemma HeldPool(m: map<Key256, OneTimeOutput>, outs: seq<OneTimeOutput>)
    requires Holds(m, outs)
    ensures multiset(CursorValues(m)) == multiset(outs)
  {
    HoldsKeyed(m, outs);
    CursorDistinct(m);
    DistinctOutputs(outs);
    var d := Destinations(outs);
    forall o | o in outs ensures o.destination in m {
      var i :| 0 <= i < |outs| && outs[i] == o;
      assert d[i] in Elements(d);
    }
    forall o: OneTimeOutput | o.destination in m && m[o.destination] == o ensures o in outs {
      assert o.destination in Elements(d);
      var i :| 0 <= i < |d| && d[i] == o.destination;
      assert outs[i] in outs;
    }
    SameElements(CursorValues(m), outs);
  }

  lemma HoldsItsCursor(m: map<Key256, OneTimeOutput>)
    requires Keyed(m)
    ensures Holds(m, CursorValues(m))
  {
    CursorDistinct(m);
    SortedKeysNoDup(m.Keys);
    assert Destinations(CursorValues(m)) == SortedKeys(m.Keys);
  }

  // ---- What the reader accepts ----

  ghost predicate AllLegible(k: Curve, outs: seq<OneTimeOutput>) {
    forall o :: o in outs ==> RoundTrip.OutputOk(k, o)
  }

  lemma {:induction false} LegibleMembers(k: Curve, outs: seq<OneTimeOutput>)
    ensures forall o :: o in Legible(k, outs) <==> o in outs && RoundTrip.OutputOk(k, o)
    ensures NoDup(outs) ==> NoDup(Legible(k, outs))
  {
    if outs != [] {
      var x, tail := outs[0], outs[1..];
      LegibleMembers(k, tail);
      assert outs == [x] + tail;
      if NoDup(outs) {
        assert forall i, j :: 0 <= i < j < |tail| ==> tail[i] == outs[i + 1] && tail[j] == outs[j + 1];
        assert forall i :: 0 <= i < |tail| ==> tail[i] != x;
        var first: seq<OneTimeOutput> := if RoundTrip.OutputOk(k, x) then [x] else [];
        NoDupConcat(first, Legible(k, tail));
      }
    }
  }

  lemma {:induction false} LegibleAll(k: Curve, outs: seq<OneTimeOutput>)
    ensures AllLegible(k, outs) ==> Legible(k, outs) == outs
  {
    if outs != [] {
      LegibleAll(k, outs[1..]);
      assert outs == [outs[0]] + outs[1..];
    }
  }

  /** The entries of a table that can be read. */
  ghost function LegibleTable(k: Curve, m: map<Key256, OneTimeOutput>): map<Key256, OneTimeOutput> {
    m - set x | x in m && !RoundTrip.OutputOk(k, m[x])
  }

  lemma LoadedIsLegible(k: Curve, m: map<Key256, OneTimeOutput>)
    requires Keyed(m)
    ensures Keyed(LegibleTable(k, m)) && multiset(LoadedOutputs(k, m)) == multiset(CursorValues(LegibleTable(k, m)))
  {
    hide CursorValues, RoundTrip.OutputOk, Legible;
    var l := LegibleTable(k, m);
    CursorDistinct(m);
    CursorDistinct(l);
    LegibleMembers(k, CursorValues(m));
    SameElements(LoadedOutputs(k, m), CursorValues(l));
  }

  lemma {:induction false} PutLegible(k: Curve, m: map<Key256, OneTimeOutput>, outs: seq<OneTimeOutput>)
    requires AllLegible(k, outs)
    ensures LegibleTable(k, PutOutputs(m, outs)) == PutOutputs(LegibleTable(k, m), outs)
  {
    if outs != [] {
      var n := |outs| - 1;
      PutLegible(k, m, outs[..n]);
      assert RoundTrip.OutputOk(k, outs[n]);
    }
  }

  /** A recovery lists the outputs whose points are valid, and no other. */
  lemma LoadedLegible(k: Curve, m: map<Key256, OneTimeOutput>, outs: seq<OneTimeOutput>)
    requires Holds(m, outs)
    ensures multiset(LoadedOutputs(k, m)) == multiset(Legible(k, outs))
  {
    hide RoundTrip.OutputOk, Legible, CursorValues;
    HoldsKeyed(m, outs);
    CursorDistinct(m);
    HeldPool(m, outs);
    DistinctOutputs(outs);
    LegibleMembers(k, CursorValues(m));
    LegibleMembers(k, outs);
    forall o ensures o in CursorValues(m) <==> o in outs { SameMembers(CursorValues(m), outs, o); }
    SameElements(Legible(k, CursorValues(m)), Legible(k, outs));
  }

  /** What a recovery reads from a table that holds these outputs: all of them exactly when the
      points of all are valid. */
  lemma LoadedPool(k: Curve, m: map<Key256, OneTimeOutput>, outs: seq<OneTimeOutput>)
    requires Holds(m, outs)
    ensures multiset(LoadedOutputs(k, m)) == multiset(outs) <==> AllLegible(k, outs)
  {
    var all := CursorValues(m);
    HeldPool(m, outs);
    LegibleMembers(k, all);
    LegibleAll(k, all);
    forall o ensures o in all <==> o in outs { SameMembers(all, outs, o); }
    if multiset(LoadedOutputs(k, m)) == multiset(outs) {
      forall o | o in outs ensures RoundTrip.OutputOk(k, o) { SameMembers(LoadedOutputs(k, m), outs, o); }
    }
  }

  /** A cursor over the stored outputs brings back old and new outputs together exactly when the
      points of the new ones are valid and their keys are distinct and none is that of an output
      that could be read: otherwise one is dropped, or a put has overwritten one. */
  lemma CursorAfterPut(k: Curve, m: map<Key256, OneTimeOutput>, outs: seq<OneTimeOutput>)
    requires Keyed(m)
    ensures Keyed(PutOutputs(m, outs))
    ensures multiset(LoadedOutputs(k, PutOutputs(m, outs))) == multiset(LoadedOutputs(k, m)) + multiset(outs)
      <==> AllLegible(k, outs) && NoDup(Destinations(outs)) && Elements(Destinations(outs)) !! LegibleTable(k, m).Keys
  {
    var r, l := PutOutputs(m, outs), LegibleTable(k, m);
    PutKeyed(m, outs);
    LoadedIsLegible(k, m);
    LoadedIsLegible(k, r);
    if AllLegible(k, outs) {
      PutLegible(k, m, outs);
      PutDistinct(l, outs);
    } else {
      var o :| o in outs && !RoundTrip.OutputOk(k, o);
      LegibleMembers(k, CursorValues(r));
      assert o in multiset(outs) && o !in multiset(LoadedOutputs(k, r));
    }
  }

  lemma PutDistinct(m: map<Key256, OneTimeOutput>, outs: seq<OneTimeOutput>)
    requires Keyed(m)
    ensures multiset(CursorValues(PutOutputs(m, outs))) == multiset(CursorValues(m)) + multiset(outs)
      <==> NoDup(Destinations(outs)) && Elements(Destinations(outs)) !! m.Keys
  {
    var r, d := PutOutputs(m, outs), Destinations(outs);
    PutKeyed(m, outs);
    if NoDup(d) && Elements(d) !! m.Keys {
      HoldsItsCursor(m);
      PutHolds(m, CursorValues(m), outs);
      HeldPool(r, CursorValues(m) + outs);
    }
    PutOutputsKeys(m, outs);
    CursorDistinct(m);
    CursorDistinct(r);
    UnionCardinality(m.Keys, Elements(d));
    CardinalityCounts(d);
    assert |multiset(CursorValues(r))| == |m.Keys + Elements(d)|;
    assert |multiset(CursorValues(m)) + multiset(outs)| == |m.Keys| + |d|;
  }

  lemma {:induction false} PutKeyed(m: map<Key256, OneTimeOutput>, outs: seq<OneTimeOutput>)
    requires Keyed(m)
    ensures Keyed(PutOutputs(m, outs))
  {
    if outs != [] { PutKeyed(m, outs[..|outs| - 1]); }
  }

  // ---- Recovering and restarting ----

  /** A recovery loses nothing of this block: its outputs can be read, and if it has
      transactions, so can the block. */
  ghost predicate Recoverable(k: Curve, b: Block) {
    AllLegible(k, NewOutputs(b)) && (b.txs != [] ==> Storable(k, b))
  }

  ghost predicate AllRecoverable(k: Curve, c: seq<Block>) {
    forall i :: 0 <= i < |c| ==> Recoverable(k, c[i])
  }

  ghost predicate AllSized(c: seq<Block>) {
    forall i :: 0 <= i < |c| ==> RoundTrip.Sized(c[i])
  }

  /** A block that is given back is within the limits: no vector overflows its count, and the
      points of its outputs are valid. */
  lemma StorableFits(k: Curve, b: Block)
    requires Storable(k, b)
    ensures RoundTrip.Sized(b) && AllLegible(k, NewOutputs(b)) && Recoverable(k, b)
  {
    hide Reread;
    StorableIff(k, b);
    FitsLegible(k, b);
  }

  lemma FitsLegible(k: Curve, b: Block)
    requires RoundTrip.BlockOk(k, b)
    ensures AllLegible(k, NewOutputs(b)) && RoundTrip.Sized(b)
  {
    forall i | 0 <= i < |b.txs| ensures RoundTrip.TxFits(k, b.txs[i]) && RoundTrip.TxSized(b.txs[i]) {
      assert RoundTrip.TxOks(k)(b.txs[i]);
    }
    TxsLegible(k, b.txs);
    forall i | 0 <= i < |b.depositOutputs| ensures RoundTrip.OutputOk(k, b.depositOutputs[i]) {
      assert RoundTrip.OutputOks(k)(b.depositOutputs[i]);
    }
    forall i | 0 <= i < |b.withdrawalOutputs| ensures RoundTrip.OutputOk(k, b.withdrawalOutputs[i]) {
      assert RoundTrip.OutputOks(k)(b.withdrawalOutputs[i]);
    }
  }

  lemma {:induction false} TxsLegible(k: Curve, txs: seq<ShieldedTransaction>)
    requires forall i :: 0 <= i < |txs| ==> RoundTrip.TxFits(k, txs[i])
    ensures AllLegible(k, TxOutputs(txs))
  {
    if txs != [] { TxsLegible(k, txs[..|txs| - 1]); }
  }

  lemma {:induction false} OutsLegible(k: Curve, c: seq<Block>)
    ensures AllLegible(k, Outs(c)) <==> forall i :: 0 <= i < |c| ==> AllLegible(k, NewOutputs(c[i]))
  {
    hide NewOutputs, RoundTrip.OutputOk;
    if c != [] {
      var n := |c| - 1;
      OutsLegible(k, c[..n]);
      forall o ensures o in Outs(c) <==> o in Outs(c[..n]) || o in NewOutputs(c[n]) {}
      assert forall i :: 0 <= i < n ==> c[..n][i] == c[i];
    }
  }

  lemma ReadableFits(k: Curve, c: seq<Block>)
    requires Readable(k, c)
    ensures AllSized(c) && AllRecoverable(k, c) && AllLegible(k, Outs(c))
  {
    hide Storable, RoundTrip.Sized, Recoverable, AllLegible;
    forall i | 0 <= i < |c| ensures RoundTrip.Sized(c[i]) && Recoverable(k, c[i]) && AllLegible(k, NewOutputs(c[i])) {
      StorableFits(k, c[i]);
    }
    OutsLegible(k, c);
  }

  /** The transactions that the reader gives for a block: all, or none. */
  lemma RereadTxs(k: Curve, b: Block)
    requires RoundTrip.Sized(b)
    ensures (match Reread(k, b) case None => [] case Some(r) => r.txs) == if Storable(k, b) then b.txs else []
  {
    hide Reread, RoundTrip.Sized;
    RereadHeader(k, b);
    if b.header.version >= 3 {
      ReadIsStorable(k, b);
    } else if Storable(k, b) {
      assert Reread(k, b).value == b;
    }
  }

  /** The history read back is the chain's exactly when every block with transactions is read. */
  lemma {:induction false} HistoryReads(k: Curve, m: map<nat, Block>, c: seq<Block>)
    requires c != [] && ReadsAs(m, c) && AllSized(c) && c[0].txs == []
    ensures |StoredTxs(k, m, |c| - 1)| <= |Txs(c)|
    ensures StoredTxs(k, m, |c| - 1) == Txs(c) <==> forall i :: 0 <= i < |c| && c[i].txs != [] ==> Storable(k, c[i])
  {
    hide Storable, Reread, RoundTrip.Sized;
    var n := |c| - 1;
    if n == 0 {
      assert Txs(c) == Txs(c[..0]) + c[0].txs;
    } else {
      var init := c[..n];
      HistoryReads(k, m, init);
      RereadTxs(k, c[n]);
      var last := if Storable(k, c[n]) then c[n].txs else [];
      assert StoredTxs(k, m, n) == StoredTxs(k, m, n - 1) + last;
      SameParts(StoredTxs(k, m, n - 1), last, Txs(init), c[n].txs);
      assert forall i :: 0 <= i < n ==> init[i] == c[i];
    }
  }

  lemma SameParts<T>(a: seq<T>, x: seq<T>, b: seq<T>, y: seq<T>)
    requires |a| <= |b| && |x| <= |y|
    ensures a + x == b + y <==> a == b && x == y
  {
    if a + x == b + y {
      assert |a| == |b|;
      assert a == (a + x)[..|a|] && b == (b + y)[..|a|];
      assert x == (a + x)[|a|..] && y == (b + y)[|a|..];
    }
  }

  lemma FirstBlock(k: Curve, c: seq<Block>)
    requires ChainOk(k, c)
    ensures c != [] && c[0] == GENESIS
    decreases |c|
  {
    hide Extends;
    ChainInit(k, c);
    if |c| > 1 { FirstBlock(k, c[..|c| - 1]); }
  }

  /** Reading back a ledger that its chain describes changes nothing exactly when every block is
      recoverable; the comparison does not depend on what else is in memory. */
  lemma RecoversExactly(k: Curve, s: NodeState, t: NodeState, c: seq<Block>)
    requires Held(k, s, c) && AllSized(c) && t.db == s.db
    ensures Same(Recover(k, t), s) <==> AllRecoverable(k, c)
  {
    hide Storable, Reread, RoundTrip.Sized, AllLegible, DbOf, ChainOk, LoadedOutputs, StoredTxs, Outs, Txs, SpentImages, NewOutputs, Recover;
    TablesOfChain(k, c, s.vault);
    FirstBlock(k, c);
    LoadedPool(k, s.db.tables.utxos, Outs(c));
    OutsLegible(k, c);
    HistoryReads(k, s.db.tables.blocks, c);
    RecoverMatches(k, t, s);
  }

  /** A recovery gives a state back if it reads that state's pool and history. */
  lemma RecoverMatches(k: Curve, t: NodeState, s: NodeState)
    requires t.db == s.db && s.db.tables.vault == Some(s.vault) && s.spent == s.db.tables.images.Keys
    ensures Recover(k, t).vault == s.vault && Recover(k, t).db == s.db
    ensures Same(Recover(k, t), s) <==>
      multiset(LoadedOutputs(k, s.db.tables.utxos)) == multiset(s.pool)
      && StoredTxs(k, s.db.tables.blocks, s.db.topHeight) == s.history
  {
  }

  /** The state of a chain that its tables describe. */
  ghost function StateOf(k: Curve, c: seq<Block>, v: Balances): NodeState {
    NodeState(DbOf(k, c, v), v, Elements(SpentImages(k, c)), Outs(c), Txs(c))
  }

  lemma StateOfHeld(k: Curve, c: seq<Block>, v: Balances)
    requires ChainOk(k, c) && Solvent(v)
    ensures Held(k, StateOf(k, c, v), c)
  {
  }

  /** Whatever is in memory, the tables of a readable chain bring back the state of that chain. */
  lemma Recovers(k: Curve, s: NodeState, c: seq<Block>, v: Balances)
    requires ChainOk(k, c) && Readable(k, c) && s.db == DbOf(k, c, v) && Solvent(v)
    ensures Inv(k, Recover(k, s), c) && Recover(k, s).vault == v && Recover(k, s).db == s.db
  {
    hide Storable, Reread, RoundTrip.Sized, Recoverable, DbOf, ChainOk, Outs, Txs, SpentImages, Recover;
    var t := StateOf(k, c, v);
    StateOfHeld(k, c, v);
    ReadableFits(k, c);
    RecoversExactly(k, t, s, c);
    TablesOfChain(k, c, v);
    RecoverMatches(k, s, t);
    SameHeld(k, t, Recover(k, s), c);
  }

  /** The reader knows the hash of this block. */
  predicate TipKnown(k: Curve, b: Block) {
    Reread(k, b).Some? || BlockHash(k, b) == ZERO_KEY
  }

  /** A process that stops and starts again is in the same state exactly when a recovery loses
      nothing of any block and the top block can be read. */
  lemma RestartIsInvisible(p: Params, s: NodeState, c: seq<Block>)
    requires Held(p.k, s, c) && AllSized(c)
    ensures Same(Restart(p, s.db.tables), s) <==> AllRecoverable(p.k, c) && TipKnown(p.k, c[|c| - 1])
  {
    hide Storable, Reread, RoundTrip.Sized, Recoverable, DbOf, ChainOk, Outs, Txs, SpentImages, Recover, CommitDb, BlockHash;
    var t := NodeState(OpenDb(p.k, s.db.tables), EMPTY_VAULT, {}, [], []);
    TablesOfChain(p.k, c, s.vault);
    FirstBlock(p.k, c);
    GenesisStorable(p.k);
    LoadsBack(p.k, s.db.tables.blocks, c, 0);
    TipRead(p.k, s.db.tables.blocks, c);
    RecoverKeepsDb(p.k, t);
    if TipKnown(p.k, c[|c| - 1]) { RecoversExactly(p.k, s, t, c); }
  }

  lemma RecoverKeepsDb(k: Curve, s: NodeState)
    ensures Recover(k, s).db == s.db
  {
  }

  /** The tip hash that opening the store finds. */
  lemma TipRead(k: Curve, m: map<nat, Block>, c: seq<Block>)
    requires c != [] && ReadsAs(m, c) && AllSized(c)
    ensures HashAt(k, m, |c| - 1) == BlockHash(k, c[|c| - 1]) <==> TipKnown(k, c[|c| - 1])
  {
    hide Reread, RoundTrip.Sized;
    RereadHeader(k, c[|c| - 1]);
  }

  /** Over a readable chain every restart is invisible. */
  lemma RestartKeeps(p: Params, s: NodeState, c: seq<Block>)
    requires Inv(p.k, s, c)
    ensures Inv(p.k, Restart(p, s.db.tables), c) && Same(Restart(p, s.db.tables), s)
  {
    hide Reread, RoundTrip.Sized, Recoverable;
    ReadableFits(p.k, c);
    RestartIsInvisible(p, s, c);
    assert Storable(p.k, c[|c| - 1]);
    SameHeld(p.k, s, Restart(p, s.db.tables), c);
  }

  lemma SameHeld(k: Curve, s: NodeState, t: NodeState, c: seq<Block>)
    requires Held(k, s, c) && Same(s, t)
    ensures Held(k, t, c)
  {
  }

  /** The first start, on empty tables. */
  lemma FirstStart(p: Params)
    ensures Inv(p.k, Restart(p, EMPTY_TABLES), [GENESIS])
    ensures Restart(p, EMPTY_TABLES).vault == EMPTY_VAULT
  {
    hide Reread, DbOf, Readable, Restart;
    GenesisDescribed(p.k, EMPTY_VAULT);
    GenesisStorable(p.k);
    FirstState(p);
    FirstHeld(p.k, Restart(p, EMPTY_TABLES));
  }

  lemma FirstState(p: Params)
    ensures Restart(p, EMPTY_TABLES) == NodeState(DbOf(p.k, [GENESIS], EMPTY_VAULT), EMPTY_VAULT, {}, [], [])
  {
    hide Reread, CommitDb, BlockHash, Recover;
    DbOfPush(p.k, [], GENESIS, EMPTY_VAULT);
    assert [] + [GENESIS] == [GENESIS];
  }

  lemma FirstHeld(k: Curve, s: NodeState)
    requires s == NodeState(DbOf(k, [GENESIS], EMPTY_VAULT), EMPTY_VAULT, {}, [], [])
    requires SpentImages(k, [GENESIS]) == [] && Outs([GENESIS]) == [] && Txs([GENESIS]) == []
    ensures Held(k, s, [GENESIS])
  {
    hide DbOf, SpentImages, Outs, Txs, Extends;
  }

  /** The pool in memory has no repeated key either. */
  lemma PoolDistinct(p: Params, s: NodeState, c: seq<Block>)
    requires Held(p.k, s, c)
    ensures NoDup(Destinations(s.pool))
  {
    TablesOfChain(p.k, c, s.vault);
    var a, b := Outs(c), s.pool;
    DistinctOutputs(a);
    NoDupPermuted(a, b);
    DestinationsPermuted(a, b);
  }

  lemma DestinationsPermuted(a: seq<OneTimeOutput>, b: seq<OneTimeOutput>)
    requires NoDup(Destinations(a)) && NoDup(b) && multiset(a) == multiset(b)
    ensures NoDup(Destinations(b))
  {
    forall i, j | 0 <= i < j < |b| ensures b[i].destination != b[j].destination {
      SameMembers(a, b, b[i]);
      SameMembers(a, b, b[j]);
      var x :| 0 <= x < |a| && a[x] == b[i];
      var y :| 0 <= y < |a| && a[y] == b[j];
      assert Destinations(a)[x] != Destinations(a)[y] || x == y;
    }
  }

  // ---- The vault of a chain ----

  lemma {:induction false} DepositsSolvent(v: Balances, bps: U32, deps: seq<DepositReceipt>)
    requires Solvent(v) && DepositAll(v, bps, deps).Some?
    ensures Solvent(DepositAll(v, bps, deps).value)
  {
    if deps != [] {
      var n := |deps| - 1;
      DepositsSolvent(v, bps, deps[..n]);
      DepositOnSolvent(DepositAll(v, bps, deps[..n]).value, bps, deps[n].gross);
    }
  }

  lemma {:induction false} WithdrawalsSolvent(v: Balances, bps: U32, ws: seq<WithdrawalReceipt>)
    requires Solvent(v) && WithdrawAll(v, bps, ws).Some?
    ensures Solvent(WithdrawAll(v, bps, ws).value)
  {
    if ws != [] {
      var n := |ws| - 1;
      WithdrawalsSolvent(v, bps, ws[..n]);
      WithdrawOnSolvent(WithdrawAll(v, bps, ws[..n]).value, bps, ws[n].gross);
    }
  }

  lemma BlockSolvent(d: U32, w: U32, v: Balances, b: Block)
    requires Solvent(v) && VaultAfter(d, w, v, b).Some?
    ensures Solvent(VaultAfter(d, w, v, b).value)
  {
    DepositsSolvent(v, d, b.deposits);
    WithdrawalsSolvent(DepositAll(v, d, b.deposits).value, w, b.withdrawals);
  }

  /** The vault a chain leads to when every block is run at the given rates. */
  function Replay(d: U32, w: U32, c: seq<Block>): Option<Balances>
    requires c != []
  {
    var n := |c| - 1;
    if n == 0 then Some(EMPTY_VAULT) else
    match Replay(d, w, c[..n]) case None => None case Some(v) => VaultAfter(d, w, v, c[n])
  }

  lemma {:induction false} ReplaySolvent(d: U32, w: U32, c: seq<Block>)
    requires c != [] && Replay(d, w, c).Some?
    ensures Solvent(Replay(d, w, c).value)
  {
    var n := |c| - 1;
    if n > 0 {
      ReplaySolvent(d, w, c[..n]);
      BlockSolvent(d, w, Replay(d, w, c[..n]).value, c[n]);
    }
  }

  /** The replay of the blocks as they are read. */
  function ReadReplay(k: Curve, c: seq<Block>): Option<Balances>
    requires c != []
  {
    var n := |c| - 1;
    if n == 0 then Some(EMPTY_VAULT) else
    match ReadReplay(k, c[..n]) case None => None case Some(v) =>
      match Reread(k, c[n]) case None => None case Some(b) => VaultAfter(REPLAY_BPS, REPLAY_BPS, v, b)
  }

  lemma {:induction false} ReadReplayOf(k: Curve, c: seq<Block>)
    requires c != [] && Readable(k, c)
    ensures ReadReplay(k, c) == Replay(REPLAY_BPS, REPLAY_BPS, c)
  {
    hide Reread, VaultAfter;
    var n := |c| - 1;
    if n > 0 {
      ReadableInit(k, c);
      ReadReplayOf(k, c[..n]);
    }
  }

  /** The replay over the block table is the replay of the chain. */
  lemma {:induction false} ReplayOfTable(k: Curve, m: map<nat, Block>, c: seq<Block>)
    requires c != [] && ReadsAs(m, c)
    ensures ReplayVault(k, m, |c| - 1) == ReadReplay(k, c)
  {
    hide Reread, VaultAfter;
    var n := |c| - 1;
    if n > 0 { ReplayOfTable(k, m, c[..n]); }
  }

  // ---- Appending and rolling back ----

  lemma AppendHolds(p: Params, s: NodeState, c: seq<Block>, b: Block)
    requires Held(p.k, s, c) && Extends(p.k, c, b) && NextVault(p, s, b).Some?
    ensures Held(p.k, Append(p, s, b), c + [b])
    ensures Append(p, s, b).vault == NextVault(p, s, b).value
  {
    var v := NextVault(p, s, b).value;
    Push(p.k, c, b);
    ChainPush(p.k, c, b);
    VaultRecord(p.k, c, s.vault, v);
    DbOfPush(p.k, c, b, v);
    BlockSolvent(p.depositBps, p.withdrawBps, s.vault, b);
    ElementsConcat(SpentImages(p.k, c), CanonicalAll(p.k, Spends(b)));
  }

  lemma AppendKeeps(p: Params, s: NodeState, c: seq<Block>, b: Block)
    requires Inv(p.k, s, c) && Extends(p.k, c, b) && NextVault(p, s, b).Some? && Storable(p.k, b)
    ensures Inv(p.k, Append(p, s, b), c + [b])
    ensures Append(p, s, b).vault == NextVault(p, s, b).value
  {
    hide Held, Append, Extends, Storable;
    AppendHolds(p, s, c, b);
    ReadablePush(p.k, c, b);
  }

  /** What the rollback of the last block of a chain leaves. If it or the block before it cannot
      be read, nothing is changed; when the replay throws, the tip fields have moved over
      unchanged tables; and otherwise, if the last block is given back by its bytes, these are
      the tables of the chain before it with the replayed vault. */
  lemma RollbackOfChain(k: Curve, c: seq<Block>, b: Block, v: Balances)
    requires ChainOk(k, c) && Extends(k, c, b) && AllSized(c) && RoundTrip.Sized(b)
    ensures var db, (r, ok) := DbOf(k, c + [b], v), RollbackDb(k, DbOf(k, c + [b], v));
      if Reread(k, b).None? || Reread(k, c[|c| - 1]).None? then (r, ok) == (db, false)
      else if ReadReplay(k, c).None? then (r, ok) == (Db(db.tables, |c| - 1, DbOf(k, c, v).topHash), false)
      else ok && (Storable(k, b) ==> r == DbOf(k, c, ReadReplay(k, c).value))
  {
    hide Reread, RoundTrip.Sized, CommitTables, RemoveTop, Undoes, Fresh, DbOf, ChainOk, SpentImages, BlockHash, RollbackDb;
    var db := DbOf(k, c, v);
    TablesOfChain(k, c, v);
    DbOfPush(k, c, b, v);
    RereadHeader(k, b);
    if Reread(k, b).Some? {
      var t, h, read := db.tables, b.header.height, Reread(k, b).value;
      var t' := RemoveTop(k, CommitTables(k, t, b, v, NewOutputs(b), Spends(b)), read, h);
      FreshAnyVault(k, c, b, EMPTY_VAULT, v);
      RemoveUndoesPut(k, t, b, read, v);
      RollbackOfCommit(k, db, b, read, v, t');
      ReplayOfTable(k, t'.blocks, c);
      if ReadReplay(k, c).Some? && Storable(k, b) {
        var r := ReadReplay(k, c).value;
        VaultRecord(k, c, v, r);
        assert t'.(height := Some(|c| - 1), vault := Some(r)) == t.(vault := Some(r));
      }
    } else {
      TopUnread(k, db, b, v);
    }
  }

  lemma TopUnread(k: Curve, db: Db, b: Block, v: Balances)
    requires Reread(k, b).None?
    ensures RollbackDb(k, CommitBlock(k, db, b, v)) == (CommitBlock(k, db, b, v), false)
  {
    hide Reread;
  }
}
