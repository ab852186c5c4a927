/** No double spend, along every run there is: operations with any arguments, interrupted ones,
    replays that throw, reused names and unreadable blocks included (src/node.cpp,
    src/blockchain_db.cpp:203-267). */
module Spending {
  import opened Types
  import opened Sequences
  import opened CurveModel
  import opened VaultModel
  import opened DbModel
  import opened Ledger
  import opened Chain
  import opened Agreement
  import opened Atomicity
  import opened Runs
  import HeaderModel

  /** The ledger in memory is the key-image table; blocks are stored at their heights, genesis
      below; and the vaults in memory and on disk are solvent. */
  ghost predicate Marked(s: NodeState) {
    && s.spent == s.db.tables.images.Keys && Placed(s.db.tables.blocks)
    && Solvent(s.vault) && (s.db.tables.vault.Some? ==> Solvent(s.db.tables.vault.value))
  }

  ghost predicate Placed(blocks: map<nat, Block>) {
    && 0 in blocks && blocks[0] == GENESIS
    && forall h: nat :: h in blocks ==> blocks[h].header.height == h
  }

  lemma LoadedHeight(k: Curve, blocks: map<nat, Block>, h: nat)
    requires Placed(blocks)
    ensures match LoadBlock(k, blocks, h) case None => true case Some(b) => b.header.height == h
  {
    hide Reread;
    if h in blocks { RereadHeight(k, blocks[h]); }
  }

  lemma {:induction false} ReplaySolvent(k: Curve, blocks: map<nat, Block>, h: nat)
    ensures match ReplayVault(k, blocks, h) case None => true case Some(v) => Solvent(v)
  {
    hide Reread, VaultAfter;
    if h > 0 {
      ReplaySolvent(k, blocks, h - 1);
      var v := ReplayVault(k, blocks, h - 1);
      if v.Some? && h in blocks && Reread(k, blocks[h]).Some? && ReplayVault(k, blocks, h).Some? {
        BlockSolvent(REPLAY_BPS, REPLAY_BPS, v.value, Reread(k, blocks[h]).value);
      }
    }
  }

  lemma RecoverMarks(k: Curve, s: NodeState)
    requires Placed(s.db.tables.blocks) && Solvent(s.vault) && (s.db.tables.vault.Some? ==> Solvent(s.db.tables.vault.value))
    ensures Marked(Recover(k, s)) && Recover(k, s).spent == s.db.tables.images.Keys && Recover(k, s).db == s.db
  {
  }

  /** What a commit does to the marks. */
  lemma CommitMarks(k: Curve, db: Db, b: Block, v: Balances, outs: seq<OneTimeOutput>, images: seq<KeyImage>)
    requires Placed(db.tables.blocks) && b.header.height > 0
    ensures var t := CommitDb(k, db, b, v, outs, images).tables;
      && Placed(t.blocks) && t.vault == Some(v)
      && t.images.Keys == db.tables.images.Keys + Elements(CanonicalAll(k, images))
  {
    hide PutOutputs, DepositIds, BlockHash;
  }

  lemma AppendMarks(p: Params, s: NodeState, b: Block)
    requires Marked(s) && b.header.height > 0 && NextVault(p, s, b).Some?
    ensures Marked(Append(p, s, b)) && Append(p, s, b).spent == s.spent + Elements(CanonicalAll(p.k, Spends(b)))
  {
    hide CommitDb, VaultAfter;
    CommitMarks(p.k, s.db, b, NextVault(p, s, b).value, NewOutputs(b), Spends(b));
    BlockSolvent(p.depositBps, p.withdrawBps, s.vault, b);
  }

  /** A rollback takes back the images of the block it read, if it takes anything. */
  lemma RollbackMarks(k: Curve, db: Db)
    requires Placed(db.tables.blocks) && (db.tables.vault.Some? ==> Solvent(db.tables.vault.value))
    ensures var (r, ok) := RollbackDb(k, db);
      && Placed(r.tables.blocks) && (r.tables.vault.Some? ==> Solvent(r.tables.vault.value))
      && (!ok ==> r.tables == db.tables)
      && (ok ==> db.topHeight > 0 && LoadBlock(k, db.tables.blocks, db.topHeight).Some?
                 && r.tables.images.Keys == db.tables.images.Keys - Released(k, db))
  {
    hide Reread, Spends, BlockHash, CanonicalAll, Destinations, DepositIds;
    if db.topHeight > 0 && LoadBlock(k, db.tables.blocks, db.topHeight).Some? {
      var t := RemoveTop(k, db.tables, LoadBlock(k, db.tables.blocks, db.topHeight).value, db.topHeight);
      ReplaySolvent(k, t.blocks, db.topHeight - 1);
    }
  }

  /** The images of the top block as it is read. */
  ghost function Released(k: Curve, db: Db): set<KeyImage> {
    match LoadBlock(k, db.tables.blocks, db.topHeight) case None => {} case Some(top) => Elements(CanonicalAll(k, Spends(top)))
  }

  // ---- One operation ----

  lemma ReorgMarks(p: Params, s: NodeState, b: Block, local: Block)
    requires Marked(s) && s.db.topHeight > 0 && LoadBlock(p.k, s.db.tables.blocks, s.db.topHeight) == Some(local)
    requires b.header.height == s.db.topHeight
    ensures var (r, ok) := Reorg(p, s, b, local); var base := Recover(p.k, s.(db := RollbackDb(p.k, s.db).0));
      && Marked(r) && (ok ==> Marked(base) && r == Append(p, base, b) && base.spent == s.spent - Released(p.k, s.db))
      && (!ok ==> s.spent <= r.spent)
  {
    hide Reread, RollbackDb, Recover, ValidBlock, Append, CommitDb, VaultAfter, Placed;
    RollbackMarks(p.k, s.db);
    var (db, rolled) := RollbackDb(p.k, s.db);
    if rolled {
      var s1 := Recover(p.k, s.(db := db));
      RecoverMarks(p.k, s.(db := db));
      if ValidBlock(p, s1, b) {
        ValidRuns(p, s1, b);
        AppendMarks(p, s1, b);
      } else {
        LoadedHeight(p.k, s.db.tables.blocks, s.db.topHeight);
        CommitMarks(p.k, db, local, s.vault, GuardOutputs(local), Spends(local));
        RecoverMarks(p.k, s1.(db := CommitDb(p.k, db, local, s.vault, GuardOutputs(local), Spends(local))));
      }
    }
  }

  lemma ValidRuns(p: Params, s: NodeState, b: Block)
    requires ValidBlock(p, s, b)
    ensures NextVault(p, s, b).Some? && b.header.height == s.db.topHeight + 1
  {
  }

  lemma RemoteMarks(p: Params, s: NodeState, b: Block)
    requires Marked(s)
    ensures var (r, ok) := ApplyRemote(p, s, b);
      && Marked(r) && (ok && r != s ==> Marked(Base(p, s, b)) && TakenIn(p, s, b, r))
      && (if ok && Reorgs(p, s, b) then s.spent - Released(p.k, s.db) <= r.spent else s.spent <= r.spent)
  {
    hide Reread, RollbackDb, Recover, ValidBlock, Append, Reorg, ApplyRemote, Marked;
    Dispatch(p, s, b);
    if Reorgs(p, s, b) {
      ReorgTakes(p, s, b);
    } else if !Competes(s, b) {
      ExtendMarks(p, s, b);
    }
  }

  lemma ExtendMarks(p: Params, s: NodeState, b: Block)
    requires Marked(s)
    ensures var (r, ok) := Extend(p, s, b);
      Marked(r) && s.spent <= r.spent && (ok ==> ValidBlock(p, s, b) && r == Append(p, s, b))
  {
    hide Reread, ValidBlock, Append, Recover, Placed;
    RecoverMarks(p.k, s);
    if ValidBlock(p, s, b) {
      ValidRuns(p, s, b);
      AppendMarks(p, s, b);
    }
  }

  lemma ReorgTakes(p: Params, s: NodeState, b: Block)
    requires Marked(s) && Reorgs(p, s, b)
    ensures var (r, ok) := Reorg(p, s, b, LoadBlock(p.k, s.db.tables.blocks, s.db.topHeight).value);
      && Marked(r) && (ok ==> Marked(Base(p, s, b)) && TakenIn(p, s, b, r))
      && (if ok then s.spent - Released(p.k, s.db) <= r.spent else s.spent <= r.spent)
  {
    hide Reread, RollbackDb, Recover, Append, ValidBlock, Marked, Preferred;
    var local := LoadBlock(p.k, s.db.tables.blocks, s.db.topHeight).value;
    ReorgMarks(p, s, b, local);
    if Reorg(p, s, b, local).1 {
      ValidRuns(p, Base(p, s, b), b);
      AppendMarks(p, Base(p, s, b), b);
    }
  }

  lemma FailedMarks(p: Params, s: NodeState, op: Op)
    requires Marked(s) && Callable(s, op) && IsLocal(op) && Local(p, s, op).Failed?
    ensures var t := Local(p, s, op).state; t.db == s.db && t.spent == s.spent && Solvent(t.vault)
  {
    hide DepositSections, WithdrawSections, MineBlock, Append, SubmitOk, BuildTransfer, HeaderModel.Quorum, HeaderModel.Cosign;
    match op
    case OpBuy(a) => DepositOnSolvent(s.vault, p.depositBps, a.gross);
    case OpWithdraw(a) => WithdrawOnSolvent(s.vault, p.withdrawBps, a.tokens);
    case _ =>
  }

  lemma LocalMarks(p: Params, s: NodeState, op: Op)
    requires Marked(s) && Callable(s, op) && IsLocal(op)
    ensures Marked(Local(p, s, op).state) && s.spent <= Local(p, s, op).state.spent
    ensures match Local(p, s, op) case Failed(_) => true case Mined(t, b) => t == Append(p, s, b) && Sits(p, s, b)
  {
    hide Local, Append, Interrupted, CanonicalAll, VaultAfter;
    LocalOutcome(p, s, op);
    if Local(p, s, op).Mined? {
      AppendMarks(p, s, Local(p, s, op).block);
    } else {
      FailedMarks(p, s, op);
    }
  }

  lemma RestartMarks(p: Params, s: NodeState)
    requires Marked(s)
    ensures Marked(Restart(p, s.db.tables)) && Restart(p, s.db.tables).spent == s.spent
  {
    hide Reread, Recover;
    GenesisStorable(p.k);
    RecoverMarks(p.k, NodeState(OpenDb(p.k, s.db.tables), EMPTY_VAULT, {}, [], []));
  }

  lemma ClaimMarks(s: NodeState, amount: U64, dest: Text)
    requires Marked(s)
    ensures Marked(ClaimFees(s, amount, dest).0) && ClaimFees(s, amount, dest).0.spent == s.spent
  {
    ClaimOnSolvent(s.vault, amount, dest);
  }

  /** A block is taken in only with images that no block of its base has spent and that it does
      not spend twice; it adds exactly these, and memory and table agree before and after. */
  ghost predicate TakesFresh(p: Params, s: NodeState, op: Op)
    requires Callable(s, op)
  {
    match Commits(p, s, op)
    case None => true
    case Some((base, b)) =>
      var images := CanonicalAll(p.k, Spends(b));
      && NoDup(images) && Elements(images) !! base.spent && base.spent == base.db.tables.images.Keys
      && Step(p, s, op) == Append(p, base, b) && Step(p, s, op).spent == base.spent + Elements(images)
  }

  /** What is spent stays spent, except what a reorganisation takes back with the top block. */
  ghost predicate StaysSpent(p: Params, s: NodeState, op: Op)
    requires Callable(s, op)
  {
    var back := if op.OpRemote? && Reorgs(p, s, op.block) then Released(p.k, s.db) else {};
    s.spent - back <= Step(p, s, op).spent
  }

  lemma FreshImages(p: Params, base: NodeState, b: Block)
    requires Marked(base) && Sits(p, base, b)
    ensures var images := CanonicalAll(p.k, Spends(b));
      && NoDup(images) && Elements(images) !! base.spent && base.spent == base.db.tables.images.Keys
      && Append(p, base, b).spent == base.spent + Elements(images)
  {
    hide Canonical, VaultAfter, CommitDb;
    var images := CanonicalAll(p.k, Spends(b));
    forall x | x in Elements(images) ensures x !in base.spent {
      var i :| 0 <= i < |images| && images[i] == x;
      assert Spends(b)[i] in Spends(b) && !IsSpent(p.k, base, Spends(b)[i]);
    }
  }

  lemma StepMarks(p: Params, s: NodeState, op: Op)
    requires Marked(s) && Callable(s, op)
    ensures Marked(Step(p, s, op)) && TakesFresh(p, s, op) && StaysSpent(p, s, op)
  {
    hide Reread, Marked, Sits, Local, ApplyRemote, Append, Restart, ClaimFees, Reorgs, Base, TakenIn, Released;
    match op
    case OpRemote(b) =>
      RemoteMarks(p, s, b);
      if Commits(p, s, op).Some? { TakenFresh(p, s, b, ApplyRemote(p, s, b).0); }
    case OpClaimFees(amount, dest) => ClaimMarks(s, amount, dest);
    case OpRestart => RestartMarks(p, s);
    case _ =>
      LocalMarks(p, s, op);
      if Local(p, s, op).Mined? { FreshImages(p, s, Local(p, s, op).block); }
  }

  lemma TakenFresh(p: Params, s: NodeState, b: Block, r: NodeState)
    requires Marked(Base(p, s, b)) && TakenIn(p, s, b, r)
    ensures var base, images := Base(p, s, b), CanonicalAll(p.k, Spends(b));
      && NoDup(images) && Elements(images) !! base.spent && base.spent == base.db.tables.images.Keys
      && r == Append(p, base, b) && r.spent == base.spent + Elements(images)
  {
    hide Reread, Marked, Sits, Append, Base, ValidBlock;
    ValidSits(p, Base(p, s, b), b);
    FreshImages(p, Base(p, s, b), b);
  }

  // ---- Every run ----

  ghost predicate CallableRun(p: Params, s: NodeState, ops: seq<Op>)
    decreases |ops|
  {
    ops != [] ==> Callable(s, ops[0]) && CallableRun(p, Step(p, s, ops[0]), ops[1..])
  }

  /** At every step memory and table agree, and only fresh images are taken in. */
  ghost predicate NeverTwice(p: Params, s: NodeState, ops: seq<Op>)
    requires CallableRun(p, s, ops)
    decreases |ops|
  {
    && s.spent == s.db.tables.images.Keys
    && (forall image :: IsSpent(p.k, s, image) <==> Canonical(p.k, image) in s.spent)
    && (ops != [] ==> TakesFresh(p, s, ops[0]) && StaysSpent(p, s, ops[0]) && NeverTwice(p, Step(p, s, ops[0]), ops[1..]))
  }

  lemma {:induction false} RunMarks(p: Params, s: NodeState, ops: seq<Op>)
    requires Marked(s) && CallableRun(p, s, ops)
    ensures NeverTwice(p, s, ops)
    decreases |ops|
  {
    hide Step, TakesFresh, StaysSpent;
    if ops != [] {
      StepMarks(p, s, ops[0]);
      RunMarks(p, Step(p, s, ops[0]), ops[1..]);
    }
  }

  /** No output is spent twice, in any run of callable operations from an empty store. */
  lemma NoDoubleSpend(p: Params, ops: seq<Op>)
    requires CallableRun(p, Restart(p, EMPTY_TABLES), ops)
    ensures NeverTwice(p, Restart(p, EMPTY_TABLES), ops)
  {
    hide Step, NeverTwice, CallableRun, Restart, Held, Marked;
    FirstStart(p);
    HeldMarked(p, Restart(p, EMPTY_TABLES), [GENESIS]);
    RunMarks(p, Restart(p, EMPTY_TABLES), ops);
  }

  lemma HeldMarked(p: Params, s: NodeState, c: seq<Block>)
    requires Held(p.k, s, c) && |c| == 1
    ensures Marked(s)
  {
    hide DbOf, SpentImages, Outs, Txs;
    TablesOfChain(p.k, c, s.vault);
    FirstBlock(p.k, c);
    assert c[0].header.height == 0;
  }
}
