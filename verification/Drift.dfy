/** What an exception between the vault and the commit does to the supply: how far the vault in
    memory and the vault on disk are from what the chain says, along every run (src/node.cpp). */
module Drift {
  import opened Types
  import opened Sequences
  import opened CurveModel
  import opened VaultModel
  import opened DbModel
  import opened Ledger
  import opened Chain
  import opened Agreement
  import opened Atomicity
  import opened Aftermath
  import opened Runs
  import opened Coins
  import opened Conservation
  import opened Backing
  import HeaderModel
  import RoundTrip

  /** How much the circulating supply in memory and on disk exceeds that of the chain. */
  datatype Offsets = Offsets(mem: int, disk: int)

  /** Tables and chain agree; the vaults may be off, and memory may list outputs of a
      withdrawal that was never committed. */
  ghost predicate Adrift(p: Params, img: Link, s: NodeState, c: seq<Block>, o: Offsets) {
    && Inv(p.k, Clean(s, c), c) && Solvent(s.vault)
    && s.vault.circulating == Circulating(p.depositBps, c) + o.mem
    && Disk(s).circulating == Circulating(p.depositBps, c) + o.disk
    && (forall out :: out in Outs(c) ==> out in s.pool) && NoDup(Destinations(s.pool))
    && BalancedChain(p.k, p.depositBps, img, c) && Injective(img, Outs(c))
  }

  /** The block spends no output that only memory knows. */
  ghost predicate SpendsKnown(k: Curve, img: Link, pool: seq<OneTimeOutput>, outs: seq<OneTimeOutput>, b: Block) {
    forall o :: o in pool && img(o.destination) in CanonicalAll(k, Spends(b)) ==> o in outs
  }

  /** What is assumed of an operation, interrupted ones included. */
  ghost predicate Watched(p: Params, img: Link, s: NodeState, c: seq<Block>, op: Op)
    requires c != []
  {
    && Callable(s, op) && (op.OpRemote? && Reorgs(p, s, op.block) ==> ReplayRuns(p.k, c))
    && NoDup(Destinations(Step(p, s, op).pool))
    && match Commits(p, s, op)
       case None => true
       case Some((base, b)) =>
         && NewNames(p.k, base.db.tables, b) && Storable(p.k, b)
         && (op.OpBuy? ==> DepositIds(b.deposits) !! base.db.tables.deposits.Keys)
         && SpendsKnown(p.k, img, base.pool, Outs(if op.OpRemote? then BaseChain(p, s, b, c) else c), b)
  }

  // ---- How the offsets move ----

  /** What an interrupted operation has booked. */
  ghost function Booked(p: Params, s: NodeState, op: Op): int {
    if !Interrupted(p, s, op) then 0 else
    match op
    case OpBuy(a) => ApplyDeposit(s.vault, p.depositBps, a.gross).1.value.net
    case OpWithdraw(a) => 0 - a.tokens
    case _ => 0
  }

  /** An interrupted operation moves memory. A commit, a claim and the block that a failed
      reorganisation puts back write memory to disk; a restart and a block refused on the tip
      load disk into memory; a reorganisation starts from the replay, which is right. */
  ghost function NextOffsets(p: Params, s: NodeState, op: Op, o: Offsets): Offsets
    requires Callable(s, op)
  {
    match op
    case OpRemote(b) =>
      var ok := ApplyRemote(p, s, b).1;
      if Reorgs(p, s, b) then (if ok then Offsets(0, 0) else Offsets(o.mem, o.mem))
      else if Competes(s, b) then o
      else if ok then Offsets(o.mem, o.mem) else Offsets(o.disk, o.disk)
    case OpClaimFees(amount, dest) => if ClaimFees(s, amount, dest).1 then Offsets(o.mem, o.mem) else o
    case OpRestart => Offsets(o.disk, o.disk)
    case _ =>
      match Local(p, s, op)
      case Mined(_, _) => Offsets(o.mem, o.mem)
      case Failed(_) => Offsets(o.mem + Booked(p, s, op), o.disk)
  }

  // ---- Committing and reloading ----

  lemma LevelledHolds(p: Params, img: Link, s: NodeState, c: seq<Block>, o: Offsets)
    requires Adrift(p, img, s, c, o)
    ensures c != [] && Inv(p.k, Levelled(s, c), c) && s.db == DbOf(p.k, c, Disk(s)) && s.db.tables.vault.Some?
  {
    LocalTop(p, Clean(s, c), c);
    VaultRecord(p.k, c, Disk(s), s.vault);
  }

  lemma KnownBalanced(k: Curve, bps: U32, img: Link, pool: seq<OneTimeOutput>, outs: seq<OneTimeOutput>, b: Block)
    requires Balanced(k, bps, img, pool, b) && SpendsKnown(k, img, pool, outs, b)
    ensures Balanced(k, bps, img, outs, b)
  {
    var owners :| Owners(k, img, pool, Spends(b), owners) && Weighs(bps, b, owners);
    forall i | 0 <= i < |owners| ensures owners[i] in CoinsOf(img, outs) {
      var j :| 0 <= j < |pool| && CoinsOf(img, pool)[j] == owners[i];
      assert CanonicalAll(k, Spends(b))[i] == img(pool[j].destination);
      var m :| 0 <= m < |outs| && outs[m] == pool[j];
      assert CoinsOf(img, outs)[m] == owners[i];
    }
    assert Owners(k, img, outs, Spends(b), owners);
  }

  lemma ChainGrows(k: Curve, bps: U32, img: Link, c: seq<Block>, b: Block)
    requires c != [] && BalancedChain(k, bps, img, c) && Balanced(k, bps, img, Outs(c), b)
    ensures BalancedChain(k, bps, img, c + [b]) && Outs(c + [b]) == Outs(c) + NewOutputs(b)
    ensures Circulating(bps, c + [b]) == Circulating(bps, c) + Minted(bps, b.deposits) - Burned(b.withdrawals)
  {
    PushInit(c, b);
    Push(k, c, b);
  }

  lemma AppendCleans(p: Params, s: NodeState, c: seq<Block>, b: Block)
    requires NextVault(p, s, b).Some?
    ensures var t := Append(p, s, b);
      && Disk(t) == t.vault == NextVault(p, s, b).value && t.pool == s.pool + NewOutputs(b)
      && Clean(t, c + [b]) == Append(p, Levelled(s, c), b)
  {
    Push(p.k, c, b);
  }

  lemma LevelledSits(p: Params, s: NodeState, c: seq<Block>, b: Block)
    requires Sits(p, s, b) && NewNames(p.k, s.db.tables, b)
    ensures Sits(p, Levelled(s, c), b) && NewNames(p.k, Levelled(s, c).db.tables, b)
  {
    hide VaultAfter;
  }

  /** A commit writes the vault of the memory, whatever it is off by. */
  lemma CommitDrifts(p: Params, img: Link, s: NodeState, c: seq<Block>, o: Offsets, b: Block)
    requires Adrift(p, img, s, c, o) && Sits(p, s, b) && NewNames(p.k, s.db.tables, b) && Storable(p.k, b)
    requires DepositIds(b.deposits) !! s.db.tables.deposits.Keys && NoDup(Destinations(Append(p, s, b).pool))
    requires c != [] && Balanced(p.k, p.depositBps, img, s.pool, b) && SpendsKnown(p.k, img, s.pool, Outs(c), b)
    requires Injective(img, s.pool + NewOutputs(b))
    ensures Adrift(p, img, Append(p, s, b), c + [b], Offsets(o.mem, o.mem))
  {
    hide Inv, Storable, VaultAfter, Balanced, CommitDb, NewNames, SpendsKnown, Canonical;
    LevelledHolds(p, img, s, c, o);
    LevelledSits(p, s, c, b);
    CommitKeeps(p, Levelled(s, c), c, b);
    AppendCleans(p, s, c, b);
    KnownBalanced(p.k, p.depositBps, img, s.pool, Outs(c), b);
    ChainGrows(p.k, p.depositBps, img, c, b);
    BlockCirculates(p.depositBps, p.withdrawBps, s.vault, b);
    BlockSolvent(p.depositBps, p.withdrawBps, s.vault, b);
  }

  lemma CleanHolds(k: Curve, t: NodeState, c: seq<Block>)
    requires Inv(k, t, c) && t.db.tables.vault == Some(t.vault)
    ensures Inv(k, Clean(t, c), c)
  {
    hide Readable, DbOf, ChainOk, Outs, Txs, SpentImages;
  }

  lemma MembersOf(a: seq<OneTimeOutput>, b: seq<OneTimeOutput>)
    requires multiset(a) == multiset(b)
    ensures forall out :: out in a ==> out in b
  {
    forall out | out in a ensures out in b { SameMembers(a, b, out); }
  }

  /** A state whose three copies agree is off by one number. */
  lemma InvAdrift(p: Params, img: Link, t: NodeState, c: seq<Block>, x: int)
    requires c != [] && Inv(p.k, t, c) && BalancedChain(p.k, p.depositBps, img, c) && Injective(img, Outs(c))
    requires t.vault.circulating == Circulating(p.depositBps, c) + x
    ensures Adrift(p, img, t, c, Offsets(x, x))
  {
    hide Readable, BalancedChain, Injective, Circulating, DbOf, ChainOk, Outs, Txs, SpentImages;
    LocalTop(p, t, c);
    PoolDistinct(p, t, c);
    MembersOf(Outs(c), t.pool);
    CleanHolds(p.k, t, c);
  }

  /** Reading the tables back takes the vault of the disk. */
  lemma ReloadDrifts(p: Params, img: Link, s: NodeState, c: seq<Block>, o: Offsets)
    requires Adrift(p, img, s, c, o)
    ensures Adrift(p, img, Recover(p.k, s), c, Offsets(o.disk, o.disk))
    ensures Adrift(p, img, Restart(p, s.db.tables), c, Offsets(o.disk, o.disk))
  {
    hide Inv, Restart, BalancedChain, Injective, Circulating, LoadedOutputs, StoredTxs;
    LevelledHolds(p, img, s, c, o);
    RecoversHere(p.k, Clean(s, c), c);
    RestartKeeps(p, Clean(s, c), c);
    InvAdrift(p, img, Recover(p.k, s), c, o.disk);
    InvAdrift(p, img, Restart(p, s.db.tables), c, o.disk);
  }

  // ---- Reorganisations ----

  /** The rollback does not look at the vaults. */
  lemma LevelledReorg(p: Params, img: Link, s: NodeState, c: seq<Block>, o: Offsets, b: Block)
    requires c != [] && Adrift(p, img, s, c, o) && Reorgs(p, s, b) && ReplayRuns(p.k, c)
    ensures var u := Levelled(s, c);
      && |c| > 1 && Reorgs(p, u, b) && Base(p, s, b) == Base(p, u, b) && BaseChain(p, s, b, c) == c[..|c| - 1]
      && ApplyRemote(p, s, b) == Reorg(p, u, b, c[|c| - 1])
  {
    hide Inv, Reread, RollbackDb, DbOf, ValidBlock, Append, CommitDb, BalancedChain, Injective, Circulating;
    hide LoadedOutputs, StoredTxs, ReplayRuns, Replay;
    LevelledHolds(p, img, s, c, o);
    ReorgsTop(p, Clean(s, c), b, c);
    RolledBack(p, Clean(s, c), c);
    RolledBack(p, Levelled(s, c), c);
    Dispatch(p, s, b);
  }

  /** After the rollback both vaults are right. */
  lemma BaseDrifts(p: Params, img: Link, u: NodeState, c: seq<Block>, b: Block)
    requires c != [] && Inv(p.k, u, c) && Reorgs(p, u, b) && |c| > 1 && ReplayRuns(p.k, c) && p.depositBps == REPLAY_BPS
    requires BalancedChain(p.k, p.depositBps, img, c) && Injective(img, Outs(c))
    ensures Adrift(p, img, Base(p, u, b), c[..|c| - 1], Offsets(0, 0))
  {
    hide Inv, Reread, RollbackDb, Recover, DbOf, Balanced;
    RolledBack(p, u, c);
    InjectiveInit(img, c);
    ReplayCirculates(REPLAY_BPS, REPLAY_BPS, c[..|c| - 1]);
    InvAdrift(p, img, Base(p, u, b), c[..|c| - 1], 0);
  }

  /** A reorganisation that is taken in changes the tip. */
  lemma ReorgMoves(p: Params, u: NodeState, b: Block, c: seq<Block>)
    requires Inv(p.k, u, c) && Reorgs(p, u, b)
    ensures BlockHash(p.k, b) != u.db.topHash
    ensures forall base :: Append(p, base, b).db.topHash == BlockHash(p.k, b)
  {
    hide Reread, Readable, ChainOk, DbOf, VaultAfter;
    ReorgsTop(p, u, b, c);
    LocalTop(p, u, c);
  }

  lemma ReorgDrifts(p: Params, img: Link, s: NodeState, c: seq<Block>, o: Offsets, b: Block)
    requires c != [] && Adrift(p, img, s, c, o) && Reorgs(p, s, b) && ReplayRuns(p.k, c) && p.depositBps == REPLAY_BPS
    ensures var (t, ok) := ApplyRemote(p, s, b);
      if ok then t != s && TakenIn(p, s, b, t) && BaseChain(p, s, b, c) != []
                 && Adrift(p, img, Base(p, s, b), BaseChain(p, s, b, c), Offsets(0, 0))
      else Adrift(p, img, t, c, Offsets(o.mem, o.mem))
  {
    hide Inv, ApplyRemote, Reorg, Reorgs, Base, BaseChain, ReplayRuns, ValidBlock, Append, BalancedChain;
    hide Injective, Circulating;
    var u := Levelled(s, c);
    LevelledHolds(p, img, s, c, o);
    LevelledReorg(p, img, s, c, o, b);
    ReorgOutcome(p, u, b, c);
    if ApplyRemote(p, s, b).1 {
      BaseDrifts(p, img, u, c, b);
      ReorgMoves(p, u, b, c);
    } else {
      InvAdrift(p, img, ApplyRemote(p, s, b).0, c, o.mem);
    }
  }

  // ---- One operation ----

  lemma RemoteTakesIn(p: Params, g: Group, img: Link, s: NodeState, c: seq<Block>, o: Offsets, b: Block,
                      base: NodeState, d: seq<Block>)
    requires c != [] && Watched(p, img, s, c, OpRemote(b)) && Honest(p, g, img, s, OpRemote(b))
    requires Commits(p, s, OpRemote(b)) == Some((base, b)) && TakenIn(p, s, b, ApplyRemote(p, s, b).0)
    requires base == Base(p, s, b) && d == BaseChain(p, s, b, c) != [] && Adrift(p, img, base, d, o)
    ensures Adrift(p, img, Append(p, base, b), d + [b], Offsets(o.mem, o.mem))
  {
    hide ApplyRemote, Adrift, Base, BaseChain, Reorgs, ReplayRuns, Sits, NewNames, Storable, ValidBlock, Append;
    hide Injective, Genuine, Balanced, SpendsKnown;
    ValidSits(p, base, b);
    ValidIsBalanced(p, img, base, b);
    CommitDrifts(p, img, base, d, o, b);
  }

  lemma AppendMoves(p: Params, s: NodeState, b: Block)
    requires ValidBlock(p, s, b)
    ensures Append(p, s, b) != s
  {
    assert Append(p, s, b).db.topHeight == s.db.topHeight + 1;
  }

  /** A block for another height than that of the top. */
  lemma ExtendDrifts(p: Params, g: Group, img: Link, s: NodeState, c: seq<Block>, o: Offsets, b: Block)
    requires c != [] && Adrift(p, img, s, c, o) && Watched(p, img, s, c, OpRemote(b)) && Honest(p, g, img, s, OpRemote(b))
    requires !Competes(s, b)
    ensures Adrift(p, img, Step(p, s, OpRemote(b)), NextChain(p, s, c, OpRemote(b)), NextOffsets(p, s, OpRemote(b), o))
  {
    hide Adrift, Watched, Honest, ApplyRemote, ValidBlock, Append, Recover, Restart, Preferred;
    Dispatch(p, s, b);
    if ValidBlock(p, s, b) {
      AppendMoves(p, s, b);
      RemoteTakesIn(p, g, img, s, c, o, b, s, c);
    } else {
      ReloadDrifts(p, img, s, c, o);
    }
  }

  lemma RemoteDrifts(p: Params, g: Group, img: Link, s: NodeState, c: seq<Block>, o: Offsets, b: Block)
    requires c != [] && Adrift(p, img, s, c, o) && Watched(p, img, s, c, OpRemote(b)) && Honest(p, g, img, s, OpRemote(b))
    ensures Adrift(p, img, Step(p, s, OpRemote(b)), NextChain(p, s, c, OpRemote(b)), NextOffsets(p, s, OpRemote(b), o))
  {
    hide Adrift, Reread, ApplyRemote, ValidBlock, Append, Base, BaseChain, ReplayRuns, Preferred, RollbackDb, Recover;
    hide NewNames, Storable, Injective, Genuine, SpendsKnown;
    if Reorgs(p, s, b) {
      ReorgDrifts(p, img, s, c, o, b);
      if ApplyRemote(p, s, b).1 && ApplyRemote(p, s, b).0 != s {
        RemoteTakesIn(p, g, img, s, c, Offsets(0, 0), b, Base(p, s, b), BaseChain(p, s, b, c));
      }
    } else if Competes(s, b) {
      Dispatch(p, s, b);
    } else {
      ExtendDrifts(p, g, img, s, c, o, b);
    }
  }

  /** What a local operation that fails leaves behind. */
  ghost predicate Leaves(p: Params, s: NodeState, op: Op, t: NodeState) {
    && t.(vault := s.vault, pool := s.pool) == s && Solvent(t.vault)
    && t.vault.circulating == s.vault.circulating + Booked(p, s, op)
    && forall out :: out in s.pool ==> out in t.pool
  }

  lemma BuyLeaves(p: Params, s: NodeState, a: BuyArgs)
    requires Solvent(s.vault) && s.db.topHeight + 1 < TWO_64 && Buy(p, s, a).Failed?
    ensures Leaves(p, s, OpBuy(a), Buy(p, s, a).state)
  {
    hide DepositSections, MineBlock, Append, HeaderModel.Quorum, HeaderModel.Cosign;
    DepositOnSolvent(s.vault, p.depositBps, a.gross);
  }

  lemma WithdrawLeaves(p: Params, s: NodeState, a: WithdrawArgs)
    requires Solvent(s.vault) && s.db.topHeight + 1 < TWO_64 && |a.orderBytes| == 16 && Withdraw(p, s, a).Failed?
    ensures Leaves(p, s, Op.OpWithdraw(a), Withdraw(p, s, a).state)
  {
    hide WithdrawKeys, WithdrawChange, WithdrawSections, MineBlock, Append;
    WithdrawOnSolvent(s.vault, p.withdrawBps, a.tokens);
  }

  lemma LocalLeaves(p: Params, s: NodeState, op: Op)
    requires Solvent(s.vault) && Callable(s, op) && IsLocal(op) && Local(p, s, op).Failed?
    ensures Leaves(p, s, op, Local(p, s, op).state)
  {
    hide Leaves, Interrupted;
    match op
    case OpBuy(a) => BuyLeaves(p, s, a);
    case OpWithdraw(a) => WithdrawLeaves(p, s, a);
    case OpTransfer(a) => TransferMines(p, s, a); NothingLeft(p, s, op);
    case OpSubmit(tx, ts) => SubmitMines(p, s, tx, ts); NothingLeft(p, s, op);
    case _ =>
  }

  lemma NothingLeft(p: Params, s: NodeState, op: Op)
    requires Solvent(s.vault) && (op.OpTransfer? || op.OpSubmit?)
    ensures Leaves(p, s, op, s)
  {
  }

  lemma FailureDrifts(p: Params, img: Link, s: NodeState, c: seq<Block>, o: Offsets, op: Op, t: NodeState)
    requires Adrift(p, img, s, c, o) && Leaves(p, s, op, t) && NoDup(Destinations(t.pool))
    ensures Adrift(p, img, t, c, Offsets(o.mem + Booked(p, s, op), o.disk))
  {
    hide Inv, BalancedChain, Injective, Circulating, Booked;
    LevelledHolds(p, img, s, c, o);
    assert Clean(t, c) == Clean(s, c);
  }

  lemma LocalDrifts(p: Params, g: Group, img: Link, s: NodeState, c: seq<Block>, o: Offsets, op: Op)
    requires Lawful(p.k, g) && Linked(p.k, g, img) && IsLocal(op)
    requires c != [] && Adrift(p, img, s, c, o) && Watched(p, img, s, c, op) && Honest(p, g, img, s, op)
    ensures Adrift(p, img, Step(p, s, op), NextChain(p, s, c, op), NextOffsets(p, s, op, o))
  {
    hide Lawful, Linked, Append, Local, Injective, Balanced, Sits, NewNames, Storable, Genuine, HonestWallet;
    hide Interrupted, Leaves, Booked, SpendsKnown, Adrift;
    AdriftPool(p, img, s, c, o);
    if Local(p, s, op).Mined? {
      LocalOutcome(p, s, op);
      LocalBalanced(p, g, img, s, op);
      if !op.OpBuy? { OnlyBuysDeposit(p, s, op); }
      CommitDrifts(p, img, s, c, o, Local(p, s, op).block);
    } else {
      LocalLeaves(p, s, op);
      FailureDrifts(p, img, s, c, o, op, Local(p, s, op).state);
    }
  }

  lemma AdriftPool(p: Params, img: Link, s: NodeState, c: seq<Block>, o: Offsets)
    requires Adrift(p, img, s, c, o)
    ensures NoDup(Destinations(s.pool)) && Solvent(s.vault)
  {
  }

  lemma ClaimDrifts(p: Params, img: Link, s: NodeState, c: seq<Block>, o: Offsets, amount: U64, dest: Text)
    requires c != [] && Adrift(p, img, s, c, o)
    ensures var (t, ok) := ClaimFees(s, amount, dest);
      Adrift(p, img, t, c, if ok then Offsets(o.mem, o.mem) else o)
  {
    hide BalancedChain, Injective, Circulating, DbOf, ChainOk, Readable, Outs, Txs, SpentImages;
    ClaimOnSolvent(s.vault, amount, dest);
    LevelledHolds(p, img, s, c, o);
    VaultRecord(p.k, c, Disk(s), ClaimFees(s, amount, dest).0.vault);
  }

  /** One operation moves the two offsets as the rule says, and nothing else goes adrift. */
  lemma StepDrifts(p: Params, g: Group, img: Link, s: NodeState, c: seq<Block>, o: Offsets, op: Op)
    requires Lawful(p.k, g) && Linked(p.k, g, img)
    requires c != [] && Adrift(p, img, s, c, o) && Watched(p, img, s, c, op) && Honest(p, g, img, s, op)
    ensures Adrift(p, img, Step(p, s, op), NextChain(p, s, c, op), NextOffsets(p, s, op, o))
  {
    hide Lawful, Linked, Adrift, ApplyRemote, Local, Restart, ClaimFees, Reorgs, NewNames, Storable, SpendsKnown;
    hide Injective;
    match op
    case OpRemote(b) => RemoteDrifts(p, g, img, s, c, o, b);
    case OpClaimFees(amount, dest) => ClaimDrifts(p, img, s, c, o, amount, dest);
    case OpRestart => ReloadDrifts(p, img, s, c, o);
    case _ => LocalDrifts(p, g, img, s, c, o, op);
  }

  // ---- Whole runs ----

  ghost predicate WatchedRun(p: Params, g: Group, img: Link, s: NodeState, c: seq<Block>, ops: seq<Op>)
    decreases |ops|
  {
    ops != [] ==> c != [] && Watched(p, img, s, c, ops[0]) && Honest(p, g, img, s, ops[0])
                  && WatchedRun(p, g, img, Step(p, s, ops[0]), NextChain(p, s, c, ops[0]), ops[1..])
  }

  /** State, chain and offsets after a run. */
  ghost function RunDrift(p: Params, g: Group, img: Link, s: NodeState, c: seq<Block>, o: Offsets, ops: seq<Op>)
    : (NodeState, seq<Block>, Offsets)
    requires WatchedRun(p, g, img, s, c, ops)
    decreases |ops|
  {
    if ops == [] then (s, c, o) else
    RunDrift(p, g, img, Step(p, s, ops[0]), NextChain(p, s, c, ops[0]), NextOffsets(p, s, ops[0], o), ops[1..])
  }

  lemma {:induction false} RunDrifts(p: Params, g: Group, img: Link, s: NodeState, c: seq<Block>, o: Offsets, ops: seq<Op>)
    requires Lawful(p.k, g) && Linked(p.k, g, img)
    requires Adrift(p, img, s, c, o) && WatchedRun(p, g, img, s, c, ops)
    ensures var (t, d, x) := RunDrift(p, g, img, s, c, o, ops); Adrift(p, img, t, d, x)
    decreases |ops|
  {
    hide Lawful, Linked, Step, NextChain, NextOffsets, Adrift, Commits, Honest, Reorgs;
    if ops != [] {
      StepDrifts(p, g, img, s, c, o, ops[0]);
      RunDrifts(p, g, img, Step(p, s, ops[0]), NextChain(p, s, c, ops[0]), NextOffsets(p, s, ops[0], o), ops[1..]);
    }
  }

  ghost predicate SupplyAgrees(img: Link, s: NodeState, c: seq<Block>) {
    Unspent(CoinsOf(img, Outs(c)), s.spent) + Fees(s.history) == s.vault.circulating
  }

  /** The supply equation on a drifting state: the outputs of the chain that are unspent and
      the public fees amount to the vault's supply less its offset. */
  lemma DriftedSupply(p: Params, img: Link, s: NodeState, c: seq<Block>, o: Offsets)
    requires Adrift(p, img, s, c, o)
    ensures Unspent(CoinsOf(img, Outs(c)), s.spent) + Fees(s.history) + o.mem == s.vault.circulating
    ensures SupplyAgrees(img, s, c) <==> o.mem == 0
  {
    hide Readable, DbOf, Outs, Txs, SpentImages, Circulating, BalancedChain, Injective;
    NothingTwice(p.k, c);
    InjectiveDistinct(img, Outs(c));
    ChainConserves(p.k, p.depositBps, img, c);
  }

  /** Along every run from an empty store, operations interrupted between the vault and the
      commit included: the supply equation holds exactly when the offset that the rule gives
      for the memory is zero. */
  lemma SupplyDrifts(p: Params, g: Group, img: Link, s: NodeState, c: seq<Block>, ops: seq<Op>)
    requires Lawful(p.k, g) && Linked(p.k, g, img)
    requires s == Restart(p, EMPTY_TABLES) && c == [GENESIS] && WatchedRun(p, g, img, s, c, ops)
    ensures var (t, d, o) := RunDrift(p, g, img, s, c, Offsets(0, 0), ops);
      && Unspent(CoinsOf(img, Outs(d)), t.spent) + Fees(t.history) + o.mem == t.vault.circulating
      && (SupplyAgrees(img, t, d) <==> o.mem == 0)
  {
    hide Lawful, Linked, Restart, RunDrift, WatchedRun, Adrift, Backed, Outs, Fees, Unspent;
    FirstIsBacked(p, img, s, c);
    FirstAdrift(p, img, s, c);
    RunDrifts(p, g, img, s, c, Offsets(0, 0), ops);
    var (t, d, o) := RunDrift(p, g, img, s, c, Offsets(0, 0), ops);
    DriftedSupply(p, img, t, d, o);
  }

  lemma FirstAdrift(p: Params, img: Link, s: NodeState, c: seq<Block>)
    requires c != [] && Backed(p, img, s, c)
    ensures Adrift(p, img, s, c, Offsets(0, 0))
  {
    hide Inv, BalancedChain, Injective;
    InvAdrift(p, img, s, c, 0);
  }

  /** The operation writes the vault of the memory to disk. */
  ghost predicate Writes(p: Params, s: NodeState, op: Op) {
    && Callable(s, op)
    && match op
       case OpRemote(b) => if Reorgs(p, s, b) then !ApplyRemote(p, s, b).1 else !Competes(s, b) && ApplyRemote(p, s, b).1
       case OpClaimFees(amount, dest) => ClaimFees(s, amount, dest).1
       case OpRestart => false
       case _ => Local(p, s, op).Mined?
  }

  /** On a drifting state a restart, or a block refused on the tip, is invisible exactly when the
      vault in memory is the recorded one and memory lists no output that the tables lack
      (`Aftermath.RestartShows`, `Aftermath.RefusalShows`); the offsets then agree. */
  lemma AdriftRemembers(p: Params, img: Link, s: NodeState, c: seq<Block>, o: Offsets)
    requires Adrift(p, img, s, c, o)
    ensures Held(p.k, Clean(s, c), c) && AllSized(c) && c != [] && TipKnown(p.k, c[|c| - 1])
    ensures Remembers(p.k, s, c) <==> s.vault == Disk(s) && forall out :: out in s.pool ==> out in Outs(c)
    ensures Remembers(p.k, s, c) ==> o.mem == o.disk
  {
    hide Reread, DbOf, SpentImages, Txs, Outs, Circulating, BalancedChain, Injective, RoundTrip.Sized, Legible, AllLegible;
    LevelledHolds(p, img, s, c, o);
    ReadableFits(p.k, c);
    LegibleAll(p.k, Outs(c));
    NothingTwice(p.k, c);
    SamePools(s.pool, Outs(c));
    assert Storable(p.k, c[|c| - 1]);
    forall i | 0 <= i < |c| && c[i].txs != [] ensures Storable(p.k, c[i]) {}
  }

  /** Two pools without repeated keys, one within the other. */
  lemma SamePools(a: seq<OneTimeOutput>, b: seq<OneTimeOutput>)
    requires NoDup(Destinations(a)) && NoDup(Destinations(b)) && forall o :: o in b ==> o in a
    ensures multiset(a) == multiset(b) <==> forall o :: o in a ==> o in b
  {
    DistinctOutputs(a);
    DistinctOutputs(b);
    if multiset(a) == multiset(b) {
      MembersOf(a, b);
    } else if forall o :: o in a ==> o in b {
      SameElements(a, b);
    }
  }

  /** An interrupted operation, any other operation, and a restart: the supply equation holds
      again exactly when the operation between them has not written what was booked. */
  lemma HealsUnlessWritten(p: Params, g: Group, img: Link, s: NodeState, c: seq<Block>, first: Op, next: Op)
    requires Lawful(p.k, g) && Linked(p.k, g, img) && c != [] && Adrift(p, img, s, c, Offsets(0, 0))
    requires Callable(s, first) && IsLocal(first) && Local(p, s, first).Failed?
    requires WatchedRun(p, g, img, s, c, [first, next, OpRestart])
    ensures var (t, d, _) := RunDrift(p, g, img, s, c, Offsets(0, 0), [first, next, OpRestart]);
      SupplyAgrees(img, t, d) <==> Booked(p, s, first) == 0 || !Writes(p, Step(p, s, first), next)
  {
    hide Lawful, Linked, Adrift, Honest, Step, NextChain, ApplyRemote, Local, ClaimFees, Reorgs, Outs, Fees;
    hide Unspent, Booked, Commits;
    var ops := [first, next, OpRestart];
    RunDrifts(p, g, img, s, c, Offsets(0, 0), ops);
    var (t, d, o) := RunDrift(p, g, img, s, c, Offsets(0, 0), ops);
    DriftedSupply(p, img, t, d, o);
    var s1, c1 := Step(p, s, first), NextChain(p, s, c, first);
    var o1 := NextOffsets(p, s, first, Offsets(0, 0));
    var s2, c2, o2 := Step(p, s1, next), NextChain(p, s1, c1, next), NextOffsets(p, s1, next, o1);
    assert ops[1..] == [next, OpRestart] && ops[1..][1..] == [OpRestart] && [OpRestart][1..] == [];
    assert RunDrift(p, g, img, s, c, Offsets(0, 0), ops) == RunDrift(p, g, img, s1, c1, o1, [next, OpRestart])
      == RunDrift(p, g, img, s2, c2, o2, [OpRestart]);
    assert RunDrift(p, g, img, s2, c2, o2, [OpRestart]).2 == NextOffsets(p, s2, OpRestart, o2);
  }
}
