/** The block store: its LMDB tables, committing a block, and rolling the top block back
    (src/blockchain_db.cpp). A table shows the block or output whose bytes were written;
    every read takes those bytes through the codec, which may refuse them. */
module DbModel {
  import opened Types
  import opened ByteOrder
  import opened CurveModel
  import opened HeaderModel
  import opened VaultModel
  import Sequences
  import Codec
  import Encoding
  import Parsing
  import RoundTrip

  datatype Tables = Tables(
    blocks: map<nat, Block>, index: map<Hash256, nat>, images: map<KeyImage, nat>,
    utxos: map<Key256, OneTimeOutput>, deposits: map<Text, nat>,
    height: Option<nat>, vault: Option<Balances>)            // the two metadata records

  /** The tables and the two fields kept beside them. */
  datatype Db = Db(tables: Tables, topHeight: nat, topHash: Hash256)

  function BlockHash(k: Curve, b: Block): Hash256 {
    HeaderHash(k, b.header)
  }

  // ---- Reading what was written ----

  /** What `Block::deserialize` makes of the stored bytes of a block; None is its exception. */
  function Reread(k: Curve, b: Block): Option<Block> {
    match Parsing.ReadBlock(k, Encoding.EncBlock(b)) case None => None case Some(r) => Some(r.value)
  }

  /** The bytes of the block give the block back. */
  predicate Storable(k: Curve, b: Block) {
    Reread(k, b) == Some(b)
  }

  /** `get_block_by_height`: a missing block and unreadable bytes are both false. */
  function LoadBlock(k: Curve, blocks: map<nat, Block>, h: nat): Option<Block> {
    if h in blocks then Reread(k, blocks[h]) else None
  }

  /** The outputs that the reader accepts; `load_all_utxos` passes over the others. */
  function Legible(k: Curve, outs: seq<OneTimeOutput>): seq<OneTimeOutput> {
    if outs == [] then [] else
    (if RoundTrip.OutputOk(k, outs[0]) then [outs[0]] else []) + Legible(k, outs[1..])
  }

  /** Within the protocol's limits, from version 3 on or without sections. */
  lemma StorableIff(k: Curve, b: Block)
    ensures Storable(k, b) <==> RoundTrip.BlockOk(k, b) && (b.header.version >= 3 || RoundTrip.NoSections(b))
  {
    hide Parsing.ReadBlock, Encoding.EncBlock, RoundTrip.BlockOk;
    RoundTrip.BlockRoundTrip(k, b);
  }

  /** From version 3 on, a block that cannot be given back is not read at all. */
  lemma ReadIsStorable(k: Curve, b: Block)
    requires RoundTrip.Sized(b) && b.header.version >= 3
    ensures Reread(k, b) == if Storable(k, b) then Some(b) else None
  {
    hide Parsing.ReadBlock, Encoding.EncBlock, RoundTrip.Sized;
    RoundTrip.ReadsOrFails(k, b, []);
    assert Encoding.EncBlock(b) + [] == Encoding.EncBlock(b);
  }

  /** Whatever the bytes are taken for, the header is right, and before version 3 there is no
      transaction. */
  lemma RereadHeader(k: Curve, b: Block)
    requires RoundTrip.Sized(b)
    ensures match Reread(k, b) case None => true
      case Some(r) => r.header == b.header && (b.header.version < 3 ==> r.txs == [])
  {
    hide Parsing.ReadBlock, Encoding.EncBlock, RoundTrip.Sized;
    RoundTrip.HeaderReads(k, b);
  }

  lemma RereadHeight(k: Curve, b: Block)
    ensures Reread(k, b).Some? ==> Reread(k, b).value.header.height == b.header.height
  {
    hide Parsing.ReadBlock, Encoding.EncBlock;
    RoundTrip.HeightReads(k, b);
  }

  // ---- What a block touches ----

  function TxImages(txs: seq<ShieldedTransaction>): (r: seq<KeyImage>)
    ensures |r| == |txs| && forall i :: 0 <= i < |r| ==> r[i] == txs[i].ringSig.keyImage
  {
    seq<KeyImage>(|txs|, i requires 0 <= i < |txs| => txs[i].ringSig.keyImage)
  }

  function WithdrawalImages(ws: seq<WithdrawalReceipt>): (r: seq<KeyImage>)
    ensures |r| == |ws| && forall i :: 0 <= i < |r| ==> r[i] == ws[i].keyImage
  {
    seq<KeyImage>(|ws|, i requires 0 <= i < |ws| => ws[i].keyImage)
  }

  function Spends(b: Block): seq<KeyImage> {
    TxImages(b.txs) + WithdrawalImages(b.withdrawals)
  }

  function TxOutputs(txs: seq<ShieldedTransaction>): seq<OneTimeOutput> {
    if txs == [] then [] else TxOutputs(txs[..|txs| - 1]) + txs[|txs| - 1].outputs
  }

  function NewOutputs(b: Block): seq<OneTimeOutput> {
    TxOutputs(b.txs) + b.depositOutputs + b.withdrawalOutputs
  }

  function DepositIds(deps: seq<DepositReceipt>): set<Text> {
    set d | d in deps && d.txHash != [] :: d.txHash
  }

  /** The ids a commit writes, in order; an empty one is passed over. */
  function DepositIdList(deps: seq<DepositReceipt>): seq<Text> {
    if deps == [] then [] else
    var d := deps[|deps| - 1];
    DepositIdList(deps[..|deps| - 1]) + if d.txHash != [] then [d.txHash] else []
  }

  function Destinations(outs: seq<OneTimeOutput>): (r: seq<Key256>)
    ensures |r| == |outs| && forall i :: 0 <= i < |r| ==> r[i] == outs[i].destination
  {
    seq<Key256>(|outs|, i requires 0 <= i < |outs| => outs[i].destination)
  }

  // ---- Committing ----

  function PutOutputs(m: map<Key256, OneTimeOutput>, outs: seq<OneTimeOutput>): map<Key256, OneTimeOutput> {
    if outs == [] then m else
    var o := outs[|outs| - 1];
    PutOutputs(m, outs[..|outs| - 1])[o.destination := o]
  }

  function MarkAll<K>(m: map<K, nat>, keys: seq<K>, h: nat): (r: map<K, nat>)
    ensures r.Keys == m.Keys + Elements(keys)
  {
    if keys == [] then m else MarkAll(m, keys[..|keys| - 1], h)[keys[|keys| - 1] := h]
  }

  function CommitTables(k: Curve, t: Tables, b: Block, vault: Balances, outs: seq<OneTimeOutput>, images: seq<KeyImage>): Tables {
    var h := b.header.height;
    Tables(t.blocks[h := b], t.index[BlockHash(k, b) := h],
           MarkAll(t.images, CanonicalAll(k, images), h), PutOutputs(t.utxos, outs),
           MarkAll(t.deposits, DepositIdList(b.deposits), h), Some(h), Some(vault))
  }

  function CommitDb(k: Curve, db: Db, b: Block, vault: Balances, outs: seq<OneTimeOutput>, images: seq<KeyImage>): Db {
    Db(CommitTables(k, db.tables, b, vault, outs, images), b.header.height, BlockHash(k, b))
  }

  /** As every caller commits a block: with its own outputs and images. */
  function CommitBlock(k: Curve, db: Db, b: Block, vault: Balances): Db {
    CommitDb(k, db, b, vault, NewOutputs(b), Spends(b))
  }

  // ---- The vault a sequence of blocks leads to ----

  function DepositAll(v: Balances, bps: U32, deps: seq<DepositReceipt>): Option<Balances> {
    if deps == [] then Some(v) else
    match DepositAll(v, bps, deps[..|deps| - 1]) case None => None case Some(u) =>
      var (u', r) := ApplyDeposit(u, bps, deps[|deps| - 1].gross);
      if r.Done? then Some(u') else None
  }

  function WithdrawAll(v: Balances, bps: U32, ws: seq<WithdrawalReceipt>): Option<Balances> {
    if ws == [] then Some(v) else
    match WithdrawAll(v, bps, ws[..|ws| - 1]) case None => None case Some(u) =>
      var (u', r) := ApplyWithdrawal(u, bps, ws[|ws| - 1].gross);
      if r.Done? then Some(u') else None
  }

  /** The deposits, then the withdrawals of one block; None if the vault throws. */
  function VaultAfter(depositBps: U32, withdrawBps: U32, v: Balances, b: Block): Option<Balances> {
    match DepositAll(v, depositBps, b.deposits) case None => None case Some(u) => WithdrawAll(u, withdrawBps, b.withdrawals)
  }

  const REPLAY_BPS: U32 := 50
  const EMPTY_VAULT: Balances := Balances(0, 0, 0)

  /** The replay of `rollback_top_block`: a default vault over the stored heights 1..h; a
      block that cannot be read throws, as the vault may. */
  function ReplayVault(k: Curve, blocks: map<nat, Block>, h: nat): Option<Balances> {
    if h == 0 then Some(EMPTY_VAULT) else
    match ReplayVault(k, blocks, h - 1) case None => None case Some(v) =>
      if h !in blocks then Some(v) else
      match Reread(k, blocks[h]) case None => None case Some(b) => VaultAfter(REPLAY_BPS, REPLAY_BPS, v, b)
  }

  // ---- Rolling back ----

  function RemoveTop(k: Curve, t: Tables, top: Block, h: nat): Tables {
    t.(blocks := t.blocks - {h}, index := t.index - {BlockHash(k, top)},
       images := t.images - Elements(CanonicalAll(k, Spends(top))),
       utxos := t.utxos - Elements(Destinations(NewOutputs(top))),
       deposits := t.deposits - DepositIds(top.deposits))
  }

  /** The hash of the block read at a height, or zeros. */
  function HashAt(k: Curve, blocks: map<nat, Block>, h: nat): Hash256 {
    match LoadBlock(k, blocks, h) case None => ZERO_KEY case Some(b) => BlockHash(k, b)
  }

  /** `rollback_top_block`. An unreadable top or previous block aborts it; when the replay
      throws, the transaction is aborted but the two fields beside the tables have moved. */
  function RollbackDb(k: Curve, db: Db): (Db, bool) {
    var h := db.topHeight;
    if h == 0 then (db, false) else
    match LoadBlock(k, db.tables.blocks, h) case None => (db, false) case Some(top) =>
      var t := RemoveTop(k, db.tables, top, h);
      if h - 1 in t.blocks && Reread(k, t.blocks[h - 1]).None? then (db, false) else
      var hash := HashAt(k, t.blocks, h - 1);
      match ReplayVault(k, t.blocks, h - 1)
      case None => (Db(db.tables, h - 1, hash), false)
      case Some(v) => (Db(t.(height := Some(h - 1), vault := Some(v)), h - 1, hash), true)
  }

  // ---- Rolling back a commit ----

  /** Nothing the block writes is in the tables yet. */
  ghost predicate Fresh(k: Curve, t: Tables, b: Block) {
    && b.header.height !in t.blocks && BlockHash(k, b) !in t.index
    && Elements(CanonicalAll(k, Spends(b))) !! t.images.Keys
    && Elements(Destinations(NewOutputs(b))) !! t.utxos.Keys
    && DepositIds(b.deposits) !! t.deposits.Keys
  }

  /** The fields beside the tables describe the stored top block. */
  ghost predicate TipStored(k: Curve, db: Db) {
    && db.topHeight in db.tables.blocks && db.tables.height == Some(db.topHeight)
    && RoundTrip.Sized(db.tables.blocks[db.topHeight])
    && db.topHash == BlockHash(k, db.tables.blocks[db.topHeight])
  }

  lemma {:induction false} PutOutputsKeys(m: map<Key256, OneTimeOutput>, outs: seq<OneTimeOutput>)
    ensures PutOutputs(m, outs).Keys == m.Keys + Elements(Destinations(outs))
    ensures forall x :: x in m && x !in Elements(Destinations(outs)) ==> PutOutputs(m, outs)[x] == m[x]
  {
    if outs != [] {
      var n := |outs| - 1;
      PutOutputsKeys(m, outs[..n]);
      assert Destinations(outs) == Destinations(outs[..n]) + [outs[n].destination];
      assert Elements(Destinations(outs)) == Elements(Destinations(outs[..n])) + {outs[n].destination};
    }
  }

  lemma {:induction false} ReplayFrame(k: Curve, bs: map<nat, Block>, cs: map<nat, Block>, h: nat)
    requires forall i :: 1 <= i <= h ==> (i in bs <==> i in cs) && (i in bs ==> bs[i] == cs[i])
    ensures ReplayVault(k, bs, h) == ReplayVault(k, cs, h)
  {
    hide Reread, VaultAfter;
    if h > 0 { ReplayFrame(k, bs, cs, h - 1); }
  }

  /** Marking some keys and erasing others leaves the table as it was. */
  ghost predicate Erases<K(!new)>(m: map<K, nat>, marked: set<K>, erased: set<K>, h: nat) {
    && erased !! m.Keys && marked - m.Keys <= erased
    && forall x :: x in marked && x in m ==> m[x] == h
  }

  lemma {:induction false} MarkedValues<K(!new)>(m: map<K, nat>, keys: seq<K>, h: nat)
    ensures forall x :: x in MarkAll(m, keys, h) ==> MarkAll(m, keys, h)[x] == if x in keys then h else m[x]
  {
    if keys != [] {
      MarkedValues(m, keys[..|keys| - 1], h);
      assert keys == keys[..|keys| - 1] + [keys[|keys| - 1]];
    }
  }

  lemma MarkThenErase<K(!new)>(m: map<K, nat>, keys: seq<K>, erased: set<K>, h: nat)
    ensures MarkAll(m, keys, h) - erased == m <==> Erases(m, Elements(keys), erased, h)
    ensures Erases(m, Elements(keys), Elements(keys), h) <==> Elements(keys) !! m.Keys
  {
    MarkedValues(m, keys, h);
    var marked, all := Elements(keys), MarkAll(m, keys, h);
    var r := all - erased;
    if Erases(m, marked, erased, h) { assert r == m; }
    if r == m {
      forall x | x in marked && x in m ensures m[x] == h { assert x in r && all[x] == h; }
      forall x | x in marked - m.Keys ensures x in erased { assert x !in r; }
      assert erased !! r.Keys;
    }
  }

  lemma {:induction false} IdsListed(deps: seq<DepositReceipt>)
    ensures Elements(DepositIdList(deps)) == DepositIds(deps)
  {
    if deps != [] {
      var n := |deps| - 1;
      IdsListed(deps[..n]);
      assert deps == deps[..n] + [deps[n]];
      IdsPush(deps[..n], deps[n]);
      Sequences.ElementsConcat(DepositIdList(deps[..n]), if deps[n].txHash != [] then [deps[n].txHash] else []);
    }
  }

  /** The same for outputs, where a put may overwrite. */
  ghost predicate ErasesOutputs(m: map<Key256, OneTimeOutput>, outs: seq<OneTimeOutput>, erased: set<Key256>) {
    var keys := Elements(Destinations(outs));
    && erased !! m.Keys && keys - m.Keys <= erased
    && (PutOutputsKeys(m, outs); forall x :: x in keys && x in m ==> PutOutputs(m, outs)[x] == m[x])
  }

  lemma PutThenErase(m: map<Key256, OneTimeOutput>, outs: seq<OneTimeOutput>, erased: set<Key256>)
    ensures PutOutputs(m, outs) - erased == m <==> ErasesOutputs(m, outs, erased)
    ensures ErasesOutputs(m, outs, Elements(Destinations(outs))) <==> Elements(Destinations(outs)) !! m.Keys
  {
    PutOutputsKeys(m, outs);
    var keys, put := Elements(Destinations(outs)), PutOutputs(m, outs);
    var r := put - erased;
    if ErasesOutputs(m, outs, erased) { assert r == m; }
    if r == m {
      forall x | x in keys && x in m ensures put[x] == m[x] { assert x in r; }
      forall x | x in keys - m.Keys ensures x in erased { assert x !in r; }
      assert erased !! r.Keys;
    }
  }

  lemma UpdateThenRemove<K, V>(m: map<K, V>, key: K, value: V)
    ensures m[key := value] - {key} == m <==> key !in m
  {
    if key !in m { assert m[key := value] - {key} == m; }
    assert key !in (m[key := value] - {key}).Keys;
  }

  /** Erasing the names of `read` undoes writing those of b. */
  ghost predicate Undoes(k: Curve, t: Tables, b: Block, read: Block) {
    var h := b.header.height;
    && h !in t.blocks && BlockHash(k, b) !in t.index
    && Erases(t.images, Elements(CanonicalAll(k, Spends(b))), Elements(CanonicalAll(k, Spends(read))), h)
    && ErasesOutputs(t.utxos, NewOutputs(b), Elements(Destinations(NewOutputs(read))))
    && Erases(t.deposits, DepositIds(b.deposits), DepositIds(read.deposits), h)
  }

  /** Which tables the removal of a block just put brings back, when its bytes are read as
      `read`: if they are read as the block itself, then exactly when all its names were fresh. */
  lemma RemoveUndoesPut(k: Curve, t: Tables, b: Block, read: Block, vault: Balances)
    requires read.header == b.header
    ensures var h := b.header.height;
      var t' := RemoveTop(k, CommitTables(k, t, b, vault, NewOutputs(b), Spends(b)), read, h);
      && t'.blocks == t.blocks[h := b] - {h} && t'.height == Some(h)
      && ((t'.blocks == t.blocks && t'.index == t.index && t'.images == t.images && t'.utxos == t.utxos
           && t'.deposits == t.deposits) <==> Undoes(k, t, b, read))
    ensures Undoes(k, t, b, b) <==> Fresh(k, t, b)
  {
    var h := b.header.height;
    var images, erased := Elements(CanonicalAll(k, Spends(b))), Elements(CanonicalAll(k, Spends(read)));
    UpdateThenRemove(t.blocks, h, b);
    UpdateThenRemove(t.index, BlockHash(k, b), h);
    MarkThenErase(t.images, CanonicalAll(k, Spends(b)), erased, h);
    MarkThenErase(t.images, CanonicalAll(k, Spends(b)), images, h);
    PutThenErase(t.utxos, NewOutputs(b), Elements(Destinations(NewOutputs(read))));
    PutThenErase(t.utxos, NewOutputs(b), Elements(Destinations(NewOutputs(b))));
    IdsListed(b.deposits);
    MarkThenErase(t.deposits, DepositIdList(b.deposits), DepositIds(read.deposits), h);
    MarkThenErase(t.deposits, DepositIdList(b.deposits), DepositIds(b.deposits), h);
  }

  /** The previous block, if there is one, can be read. */
  predicate TipReads(k: Curve, db: Db) {
    db.topHeight in db.tables.blocks ==> Reread(k, db.tables.blocks[db.topHeight]).Some?
  }

  /** The replay over the stored blocks gives the stored vault. */
  predicate VaultReplays(k: Curve, db: Db) {
    db.tables.vault.Some? && ReplayVault(k, db.tables.blocks, db.topHeight) == db.tables.vault
  }

  /** Rolling back a commit restores every table and both fields exactly when the block and the
      one before it can be read, the names read undo those written, and the replay gives the
      stored vault; for a block that is given back by its bytes, when its names were fresh. */
  lemma RollbackUndoesCommit(k: Curve, db: Db, b: Block, vault: Balances)
    requires TipStored(k, db) && RoundTrip.Sized(b) && b.header.height == db.topHeight + 1
    ensures var restored := RollbackDb(k, CommitBlock(k, db, b, vault)) == (db, true);
      && (restored <==> Reread(k, b).Some? && Undoes(k, db.tables, b, Reread(k, b).value) && TipReads(k, db) && VaultReplays(k, db))
      && (Storable(k, b) ==> (restored <==> Fresh(k, db.tables, b) && TipReads(k, db) && VaultReplays(k, db)))
  {
    hide Reread, Undoes, Fresh, CanonicalAll, PutOutputs, Spends, NewOutputs, DepositIds, MarkAll, BlockHash, RoundTrip.Sized;
    RereadHeader(k, b);
    if Reread(k, b).Some? {
      var t, read := db.tables, Reread(k, b).value;
      var t' := RemoveTop(k, CommitTables(k, t, b, vault, NewOutputs(b), Spends(b)), read, b.header.height);
      RemoveUndoesPut(k, t, b, read, vault);
      ReplayFrame(k, t'.blocks, t.blocks, db.topHeight);
      RollbackOfCommit(k, db, b, read, vault, t');
      if Undoes(k, t, b, read) && VaultReplays(k, db) {
        assert t'.(height := t.height, vault := t.vault) == t;
      }
    }
  }

  /** What a rollback of a commit leaves, step by step. */
  lemma RollbackOfCommit(k: Curve, db: Db, b: Block, read: Block, vault: Balances, t': Tables)
    requires TipStored(k, db) && b.header.height == db.topHeight + 1 && Reread(k, b) == Some(read)
    requires t' == RemoveTop(k, CommitTables(k, db.tables, b, vault, NewOutputs(b), Spends(b)), read, b.header.height)
    requires t'.blocks == db.tables.blocks[b.header.height := b] - {b.header.height}
    ensures RollbackDb(k, CommitBlock(k, db, b, vault)) ==
      if !TipReads(k, db) then (CommitBlock(k, db, b, vault), false) else
      match ReplayVault(k, t'.blocks, db.topHeight)
      case None => (Db(CommitBlock(k, db, b, vault).tables, db.topHeight, db.topHash), false)
      case Some(v) => (Db(t'.(height := Some(db.topHeight), vault := Some(v)), db.topHeight, db.topHash), true)
  {
    hide Reread, CanonicalAll, PutOutputs, Spends, NewOutputs, DepositIds, MarkAll, RoundTrip.Sized;
    RereadHeader(k, db.tables.blocks[db.topHeight]);
    assert t'.blocks[db.topHeight] == db.tables.blocks[db.topHeight];
  }

  // ---- The object ----

  class BlockchainDB {
    var tables: Tables
    var topHeight: nat
    var topHash: Hash256

    function State(): Db
      reads this
    {
      Db(tables, topHeight, topHash)
    }

    /** Opening an environment whose tables hold `t`. */
    constructor (k: Curve, t: Tables)
      ensures State() == OpenDb(k, t)
    {
      tables := t;
      topHeight, topHash := 0, ZERO_KEY;
      new;
      InitTopHeight(k);
    }

    method InitTopHeight(k: Curve)
      modifies this
      ensures State() == OpenDb(k, old(tables))
    {
      topHeight := 0;
      topHash := ZERO_KEY;
      if tables.height.Some? {
        topHeight := tables.height.value;
        var top := GetBlock(k, topHeight);
        if top.Some? { topHash := BlockHash(k, top.value); }
      }
    }

    /** `get_block_by_height`: the stored bytes through the reader. */
    method GetBlock(k: Curve, h: nat) returns (b: Option<Block>)
      ensures b == LoadBlock(k, tables.blocks, h)
    {
      if h !in tables.blocks { return None; }
      b := ReadBack(k, tables.blocks[h]);
    }

    method Commit(k: Curve, b: Block, vault: Balances, outs: seq<OneTimeOutput>, images: seq<KeyImage>)
      modifies this
      ensures State() == CommitDb(k, old(State()), b, vault, outs, images)
    {
      var h, t := b.header.height, tables;
      t := t.(blocks := t.blocks[h := b]);
      var hash := BlockHash(k, b);
      t := t.(index := t.index[hash := h]);
      var im := PutImages(k, t.images, images, h);
      var ut := PutAllOutputs(t.utxos, outs);
      var dt := PutDeposits(t.deposits, b.deposits, h);
      t := t.(images := im, utxos := ut, deposits := dt, height := Some(h), vault := Some(vault));
      tables := t;                                   // the transaction commits
      topHeight, topHash := h, hash;
    }

    method RollbackTopBlock(k: Curve) returns (ok: bool)
      modifies this
      ensures (State(), ok) == RollbackDb(k, old(State()))
    {
      hide Reread;
      if topHeight == 0 { return false; }
      var h := topHeight;
      var top := GetBlock(k, h);
      if top.None? { return false; }
      var t := tables;
      t := t.(blocks := t.blocks - {h});
      t := t.(index := t.index - {BlockHash(k, top.value)});
      t := t.(images := t.images - Elements(CanonicalAll(k, Spends(top.value))));
      t := t.(utxos := t.utxos - Elements(Destinations(NewOutputs(top.value))));
      t := t.(deposits := t.deposits - DepositIds(top.value.deposits));
      var newHeight := h - 1;
      var hash := ZERO_KEY;
      if newHeight in t.blocks {
        var prev := ReadBack(k, t.blocks[newHeight]);
        if prev.None? { return false; }              // the transaction is aborted
        hash := BlockHash(k, prev.value);
      }
      topHash := hash;
      topHeight := newHeight;
      t := t.(height := Some(newHeight));
      var v := ReplayLoop(k, t.blocks, newHeight);
      if v.None? { return false; }                   // aborted, but the fields have moved
      t := t.(vault := v);
      tables := t;
      return true;
    }

    method SaveVaultState(v: Balances)
      modifies this`tables
      ensures State() == old(State()).(tables := old(tables).(vault := Some(v)))
    {
      tables := tables.(vault := Some(v));
    }

    method LoadAllUtxos(k: Curve) returns (list: seq<OneTimeOutput>)
      ensures list == LoadedOutputs(k, tables.utxos)
    {
      list := VisitAll(k, tables.utxos);
    }

    method LoadAllKeyImages() returns (images: set<KeyImage>)
      ensures images == tables.images.Keys
    {
      images := tables.images.Keys;
    }
  }

  function OpenDb(k: Curve, t: Tables): Db {
    match t.height
    case None => Db(t, 0, ZERO_KEY)
    case Some(h) => Db(t, h, HashAt(k, t.blocks, h))
  }

  /** The values at the given keys. */
  ghost function Select(m: map<Key256, OneTimeOutput>, keys: seq<Key256>): (r: seq<OneTimeOutput>)
    requires forall x :: x in keys ==> x in m
    ensures |r| == |keys| && forall i :: 0 <= i < |r| ==> r[i] == m[keys[i]]
  {
    seq<OneTimeOutput>(|keys|, i requires 0 <= i < |keys| => m[keys[i]])
  }

  lemma SelectPush(m: map<Key256, OneTimeOutput>, key: Key256, keys: seq<Key256>)
    requires key in m && forall x :: x in keys ==> x in m
    ensures Select(m, [key] + keys) == [m[key]] + Select(m, keys)
  {
  }

  /** The values of a table in cursor order. */
  ghost function CursorValues(m: map<Key256, OneTimeOutput>): seq<OneTimeOutput> {
    Select(m, SortedKeys(m.Keys))
  }

  /** The outputs a recovery reads, in cursor order. */
  ghost function LoadedOutputs(k: Curve, m: map<Key256, OneTimeOutput>): seq<OneTimeOutput> {
    Legible(k, CursorValues(m))
  }

  /** A block written and read again. */
  method ReadBack(k: Curve, b: Block) returns (r: Option<Block>)
    ensures r == Reread(k, b)
  {
    hide Parsing.ReadBlock, Encoding.EncBlock;
    var bytes := Codec.Serialize(b);
    r := Codec.Deserialize(k, bytes);
  }

  /** An output written and read again: None is the exception that the cursor loop swallows. */
  method ReadBackOutput(k: Curve, o: OneTimeOutput) returns (r: Option<OneTimeOutput>)
    ensures r == if RoundTrip.OutputOk(k, o) then Some(o) else None
  {
    hide Parsing.ReadOutput, Encoding.EncOutput;
    var w := new Codec.ByteWriter();
    Codec.SerializeOutput(w, o);
    var reader := new Codec.ByteReader(w.buffer);
    RoundTrip.OutputReads(k, o, []);
    assert Encoding.EncOutput(o) + [] == Encoding.EncOutput(o);
    r := Codec.DeserializeOutput(k, reader);
  }

  lemma ElementsPush<T>(s: seq<T>, x: T)
    ensures Elements(s + [x]) == Elements(s) + {x}
  {
  }

  lemma IdsPush(ds: seq<DepositReceipt>, d: DepositReceipt)
    ensures DepositIds(ds + [d]) == DepositIds(ds) + (if d.txHash != [] then {d.txHash} else {})
  {
  }

  // ---- The loops of a commit and of a cursor ----

  method PutImages(k: Curve, m: map<KeyImage, nat>, images: seq<KeyImage>, h: nat) returns (r: map<KeyImage, nat>)
    ensures r == MarkAll(m, CanonicalAll(k, images), h)
  {
    hide Canonical, CanonicalAll;
    r := m;
    ghost var keys := CanonicalAll(k, images);
    for i := 0 to |images|
      invariant r == MarkAll(m, keys[..i], h)
    {
      MarkNext(m, keys, i, h);
      r := r[Canonical(k, images[i]) := h];
    }
    assert keys[..|images|] == keys;
  }

  lemma MarkNext<K>(m: map<K, nat>, keys: seq<K>, i: nat, h: nat)
    requires i < |keys|
    ensures MarkAll(m, keys[..i + 1], h) == MarkAll(m, keys[..i], h)[keys[i] := h]
  {
    assert keys[..i + 1][..i] == keys[..i];
  }

  method PutAllOutputs(m: map<Key256, OneTimeOutput>, outs: seq<OneTimeOutput>) returns (r: map<Key256, OneTimeOutput>)
    ensures r == PutOutputs(m, outs)
  {
    r := m;
    for i := 0 to |outs|
      invariant r == PutOutputs(m, outs[..i])
    {
      assert outs[..i + 1][..i] == outs[..i];
      r := r[outs[i].destination := outs[i]];
    }
    assert outs[..|outs|] == outs;
  }

  method PutDeposits(m: map<Text, nat>, deps: seq<DepositReceipt>, h: nat) returns (r: map<Text, nat>)
    ensures r == MarkAll(m, DepositIdList(deps), h)
  {
    r := m;
    for i := 0 to |deps|
      invariant r == MarkAll(m, DepositIdList(deps[..i]), h)
    {
      var id := deps[i].txHash;
      assert deps[..i + 1][..i] == deps[..i];
      if id != [] {
        MarkPush(m, DepositIdList(deps[..i]), id, h);
        r := r[id := h];
      } else {
        assert DepositIdList(deps[..i]) + [] == DepositIdList(deps[..i]);
      }
    }
    assert deps[..|deps|] == deps;
  }

  lemma MarkPush<K>(m: map<K, nat>, keys: seq<K>, x: K, h: nat)
    ensures MarkAll(m, keys + [x], h) == MarkAll(m, keys, h)[x := h]
  {
    assert (keys + [x])[..|keys|] == keys;
  }

  method FirstKey(rest: set<Key256>) returns (key: Key256)
    requires rest != {}
    ensures key == Least(rest)
  {
    LeastExists(rest);
    key :| key in rest && forall x :: x in rest ==> x == key || Less(key, x);
    LeastUnique(key, Least(rest), rest);
  }

  /** A cursor from MDB_FIRST through MDB_NEXT, over what can be read. */
  method VisitAll(k: Curve, m: map<Key256, OneTimeOutput>) returns (list: seq<OneTimeOutput>)
    ensures list == LoadedOutputs(k, m)
  {
    list := [];
    var rest := m.Keys;
    while rest != {}
      invariant rest <= m.Keys
      invariant list + Legible(k, Select(m, SortedKeys(rest))) == LoadedOutputs(k, m)
      decreases |rest|
    {
      var key := FirstKey(rest);
      ghost var tail := Select(m, SortedKeys(rest - {key}));
      SelectPush(m, key, SortedKeys(rest - {key}));
      LegiblePush(k, list, m[key], tail);
      assert Select(m, SortedKeys(rest)) == [m[key]] + tail;
      var o := ReadBackOutput(k, m[key]);
      if o.Some? { list := list + [o.value]; }
      rest := rest - {key};
    }
  }

  lemma LegiblePush(k: Curve, list: seq<OneTimeOutput>, o: OneTimeOutput, tail: seq<OneTimeOutput>)
    ensures list + Legible(k, [o] + tail) == if RoundTrip.OutputOk(k, o) then (list + [o]) + Legible(k, tail) else list + Legible(k, tail)
  {
    assert ([o] + tail)[1..] == tail;
  }

  /** The replay loop of the rollback, with a default vault object. */
  method ReplayLoop(k: Curve, blocks: map<nat, Block>, newHeight: nat) returns (r: Option<Balances>)
    ensures r == ReplayVault(k, blocks, newHeight)
  {
    hide Reread;
    var prev := new Vault(REPLAY_BPS, REPLAY_BPS);
    for h := 1 to newHeight + 1
      invariant prev.depositBps == REPLAY_BPS && prev.withdrawBps == REPLAY_BPS && fresh(prev)
      invariant ReplayVault(k, blocks, h - 1) == Some(prev.State())
    {
      if h in blocks {
        var b := ReadBack(k, blocks[h]);
        if b.None? {
          ReplayStuck(k, blocks, h, newHeight);
          return None;
        }
        var ok := RunBlock(prev, b.value);
        if !ok {
          ReplayStuck(k, blocks, h, newHeight);
          return None;
        }
      }
    }
    return Some(prev.State());
  }

  lemma {:induction false} ReplayStuck(k: Curve, blocks: map<nat, Block>, h: nat, n: nat)
    requires h <= n && ReplayVault(k, blocks, h).None?
    ensures ReplayVault(k, blocks, n).None?
    decreases n
  {
    hide Reread;
    if h < n { ReplayStuck(k, blocks, h, n - 1); }
  }

  /** A vault object taken through the deposits and withdrawals of a block. */
  method RunBlock(v: Vault, b: Block) returns (ok: bool)
    modifies v
    ensures v.depositBps == old(v.depositBps) && v.withdrawBps == old(v.withdrawBps)
    ensures ok == VaultAfter(v.depositBps, v.withdrawBps, old(v.State()), b).Some?
    ensures ok ==> VaultAfter(v.depositBps, v.withdrawBps, old(v.State()), b) == Some(v.State())
  {
    ok := RunDeposits(v, b.deposits);
    if ok { ok := RunWithdrawals(v, b.withdrawals); }
  }

  method RunDeposits(v: Vault, deps: seq<DepositReceipt>) returns (ok: bool)
    modifies v`collateral, v`circulating, v`feePool
    ensures ok == DepositAll(old(v.State()), v.depositBps, deps).Some?
    ensures ok ==> DepositAll(old(v.State()), v.depositBps, deps) == Some(v.State())
  {
    ghost var v0 := v.State();
    for i := 0 to |deps|
      invariant DepositAll(v0, v.depositBps, deps[..i]) == Some(v.State())
    {
      assert deps[..i + 1][..i] == deps[..i];
      var r := v.Deposit(deps[i].gross, deps[i].txHash, ZERO_KEY);
      if r.Refused? {
        DepositStuck(v0, v.depositBps, deps, i + 1);
        return false;
      }
    }
    assert deps[..|deps|] == deps;
    return true;
  }

  method RunWithdrawals(v: Vault, ws: seq<WithdrawalReceipt>) returns (ok: bool)
    modifies v`collateral, v`circulating, v`feePool
    ensures ok == WithdrawAll(old(v.State()), v.withdrawBps, ws).Some?
    ensures ok ==> WithdrawAll(old(v.State()), v.withdrawBps, ws) == Some(v.State())
  {
    ghost var v0 := v.State();
    for i := 0 to |ws|
      invariant WithdrawAll(v0, v.withdrawBps, ws[..i]) == Some(v.State())
    {
      assert ws[..i + 1][..i] == ws[..i];
      var r := v.RequestWithdrawal(ws[i].gross, Zeros(16));
      if r.Refused? {
        WithdrawStuck(v0, v.withdrawBps, ws, i + 1);
        return false;
      }
    }
    assert ws[..|ws|] == ws;
    return true;
  }

  lemma {:induction false} DepositStuck(v: Balances, bps: U32, deps: seq<DepositReceipt>, i: nat)
    requires i <= |deps| && DepositAll(v, bps, deps[..i]).None?
    ensures DepositAll(v, bps, deps).None?
    decreases |deps| - i
  {
    if i == |deps| {
      assert deps[..i] == deps;
    } else {
      assert deps[..i + 1][..i] == deps[..i];
      DepositStuck(v, bps, deps, i + 1);
    }
  }

  lemma {:induction false} WithdrawStuck(v: Balances, bps: U32, ws: seq<WithdrawalReceipt>, i: nat)
    requires i <= |ws| && WithdrawAll(v, bps, ws[..i]).None?
    ensures WithdrawAll(v, bps, ws).None?
    decreases |ws| - i
  {
    if i == |ws| {
      assert ws[..i] == ws;
    } else {
      assert ws[..i + 1][..i] == ws[..i];
      WithdrawStuck(v, bps, ws, i + 1);
    }
  }
}
