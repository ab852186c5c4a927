/** Fork choice converges: the siblings a node receives may come in any order, repeated, and
    mixed with invalid ones; it ends on the best valid one (src/node.cpp:580-629,
    src/block.cpp:295-340, include/types.hpp:77-83). */
module Convergence {
  import opened Types
  import opened Sequences
  import opened ByteOrder
  import opened CurveModel
  import opened HeaderModel
  import opened VaultModel
  import opened DbModel
  import opened Ledger
  import opened Chain
  import opened Agreement
  import opened Atomicity
  import opened Runs
  import Ring

  // ---- Preference is a strict total order on hashes ----

  lemma PreferredTrans(p: Params, a: Block, b: Block, c: Block)
    requires Preferred(p, a, b) && Preferred(p, b, c)
    ensures Preferred(p, a, c)
  {
    var x, y, z := ToHex(BlockHash(p.k, a)), ToHex(BlockHash(p.k, b)), ToHex(BlockHash(p.k, c));
    if Less(x, y) && Less(y, z) { LessTrans(x, y, z); }
  }

  lemma PreferredTotal(p: Params, a: Block, b: Block)
    requires BlockHash(p.k, a) != BlockHash(p.k, b)
    ensures Preferred(p, a, b) <==> !Preferred(p, b, a)
  {
    HexOrder(BlockHash(p.k, a), BlockHash(p.k, b));
    LessTotal(ToHex(BlockHash(p.k, a)), ToHex(BlockHash(p.k, b)));
  }

  // ---- Equal states behave alike ----

  lemma RingSame(a: seq<OneTimeOutput>, b: seq<OneTimeOutput>, ring: seq<Key256>, total: nat)
    requires multiset(a) == multiset(b) && NoDup(Destinations(a))
    ensures RingMembersOk(a, ring, total) <==> RingMembersOk(b, ring, total)
  {
    forall i | 0 <= i < |ring| ensures Lookup(a, ring[i]) == Lookup(b, ring[i]) { LookupAnyOrder(a, b, ring[i]); }
  }

  lemma {:induction false} ChangesSame(a: seq<OneTimeOutput>, b: seq<OneTimeOutput>, ws: seq<WithdrawalReceipt>)
    requires multiset(a) == multiset(b) && NoDup(Destinations(a))
    ensures Changes(a, ws) == Changes(b, ws)
  {
    if ws != [] {
      ChangesSame(a, b, ws[..|ws| - 1]);
      LookupAnyOrder(a, b, ws[|ws| - 1].burnedKey);
    }
  }

  lemma TxsSame(p: Params, s: NodeState, t: NodeState, b: Block)
    requires Same(s, t) && NoDup(Destinations(s.pool))
    ensures TxsOk(p, s, b) <==> TxsOk(p, t, b)
  {
    forall i | 0 <= i < |b.txs| ensures TxOk(p, s, b.header.height, b.txs[i]) == TxOk(p, t, b.header.height, b.txs[i]) {
      TxSame(p, s, t, b.header.height, b.txs[i]);
    }
  }

  lemma TxSame(p: Params, s: NodeState, t: NodeState, height: nat, tx: ShieldedTransaction)
    requires Same(s, t) && NoDup(Destinations(s.pool))
    ensures TxOk(p, s, height, tx) <==> TxOk(p, t, height, tx)
  {
    RingSame(s.pool, t.pool, tx.ringSig.ring, tx.publicFee + SumAmounts(tx.outputs));
    hide Ring.Verify, TxHashOk, RingMembersOk, Positive;
  }

  lemma WithdrawalsSame(p: Params, s: NodeState, t: NodeState, b: Block)
    requires Same(s, t) && NoDup(Destinations(s.pool))
    ensures WithdrawalsOk(p, s, b) <==> WithdrawalsOk(p, t, b)
  {
    forall i | 0 <= i < |b.withdrawals| ensures WithdrawalOk(p, s, b.withdrawals[i]) == WithdrawalOk(p, t, b.withdrawals[i]) {
      LookupAnyOrder(s.pool, t.pool, b.withdrawals[i].burnedKey);
    }
    ChangesSame(s.pool, t.pool, b.withdrawals);
  }

  /** Validity does not depend on the order of the pool. */
  lemma ValidSame(p: Params, s: NodeState, t: NodeState, b: Block)
    requires Same(s, t) && NoDup(Destinations(s.pool))
    ensures ValidBlock(p, s, b) <==> ValidBlock(p, t, b)
  {
    TxsSame(p, s, t, b);
    WithdrawalsSame(p, s, t, b);
    assert DepositsOk(p, s, b) <==> DepositsOk(p, t, b);
  }

  lemma AppendSame(p: Params, s: NodeState, t: NodeState, b: Block)
    requires Same(s, t)
    ensures Same(Append(p, s, b), Append(p, t, b))
  {
  }

  // ---- Receiving siblings ----

  /** The blocks of L applied one after the other. */
  ghost function Receive(p: Params, s: NodeState, L: seq<Block>): NodeState {
    if L == [] then s else ApplyRemote(p, Receive(p, s, L[..|L| - 1]), L[|L| - 1]).0
  }

  /** A state whose vault the replay reproduces (rates of 50/50 and no claims). */
  ghost predicate AtParent(p: Params, s: NodeState, c: seq<Block>) {
    (Inv(p.k, s, c) && Replay(REPLAY_BPS, REPLAY_BPS, c) == Some(s.vault)) == true
  }

  /** A valid block that brings fresh names and that its bytes give back. */
  ghost predicate Candidate(p: Params, s: NodeState, b: Block) {
    (ValidBlock(p, s, b) && NewNames(p.k, s.db.tables, b) && Storable(p.k, b)) == true
  }

  /** The blocks are meant for the next height and have distinct hashes; the valid ones bring
      fresh names and can be stored. */
  ghost predicate Siblings(p: Params, s: NodeState, c: seq<Block>, L: seq<Block>) {
    && AtParent(p, s, c)
    && (forall b :: b in L ==> b.header.height == |c| && (ValidBlock(p, s, b) ==> Candidate(p, s, b)))
    && (forall a, b :: a in L && b in L && BlockHash(p.k, a) == BlockHash(p.k, b) ==> a == b)
  }

  ghost function ValidAmong(p: Params, s: NodeState, L: seq<Block>): set<Block> {
    set b | b in L && ValidBlock(p, s, b)
  }

  /** The best block: preferred to every other one. */
  ghost predicate IsBest(p: Params, valid: set<Block>, best: Block) {
    best in valid && forall b :: b in valid ==> b == best || Preferred(p, best, b)
  }

  /** The state of the best valid block on the parent, or the parent's if none is valid. */
  ghost predicate Settled(p: Params, s: NodeState, valid: set<Block>, t: NodeState) {
    || (valid == {} && Same(t, s))
    || (exists best :: IsBest(p, valid, best) && Same(t, Append(p, s, best)))
  }

  ghost predicate DistinctHashes(p: Params, blocks: set<Block>) {
    forall a, b :: a in blocks && b in blocks && BlockHash(p.k, a) == BlockHash(p.k, b) ==> a == b
  }

  lemma BestPush(p: Params, valid: set<Block>, best: Block, b: Block)
    requires IsBest(p, valid, best) && DistinctHashes(p, valid + {b})
    ensures IsBest(p, valid + {b}, if Preferred(p, b, best) then b else best)
    ensures b in valid && Preferred(p, b, best) ==> b == best
  {
    if b != best { PreferredTotal(p, b, best); }
    forall x | x in valid && Preferred(p, b, best) ensures x == b || Preferred(p, b, x) {
      if x != best { PreferredTrans(p, b, best, x); }
    }
  }

  lemma SameInv(k: Curve, s: NodeState, t: NodeState, c: seq<Block>)
    requires Inv(k, s, c) && Same(s, t)
    ensures Inv(k, t, c)
  {
    hide Readable;
  }

  /** With nothing accepted yet, a block is taken in if and only if it is valid. */
  lemma ReceiveFirst(p: Params, s: NodeState, c: seq<Block>, t: NodeState, b: Block)
    requires AtParent(p, s, c) && Same(t, s) && b.header.height == |c|
    ensures var t' := ApplyRemote(p, t, b).0;
      if ValidBlock(p, s, b) then Same(t', Append(p, s, b)) else Same(t', s)
  {
    hide Reread, Recover, ValidBlock, Append, Reorg, Readable;
    SameInv(p.k, s, t, c);
    PoolDistinct(p, s, c);
    LocalTop(p, t, c);
    ValidSame(p, s, t, b);
    AppendSame(p, t, s, b);
    RecoversHere(p.k, t, c);
  }

  lemma ValidExtends(p: Params, s: NodeState, c: seq<Block>, b: Block)
    requires Inv(p.k, s, c) && ValidBlock(p, s, b) && NewNames(p.k, s.db.tables, b) && Storable(p.k, b)
    ensures Inv(p.k, Append(p, s, b), c + [b])
  {
    ValidSits(p, s, b);
    CommitKeeps(p, s, c, b);
  }

  /** A node with a candidate on top of the parent. */
  lemma OnTop(p: Params, s: NodeState, c: seq<Block>, best: Block, t: NodeState)
    requires AtParent(p, s, c) && Candidate(p, s, best) && Same(t, Append(p, s, best))
    ensures var d := c + [best];
      && Inv(p.k, t, d) && ReplayRuns(p.k, d) && |d| > 1 && d[..|d| - 1] == c
      && t.db.topHeight == |c| > 0 && LoadBlock(p.k, t.db.tables.blocks, |c|) == Some(best)
      && best.header.prevHash == s.db.topHash
  {
    hide Reread, Recover, Append, Readable;
    ValidExtends(p, s, c, best);
    SameInv(p.k, Append(p, s, best), t, c + [best]);
    PushInit(c, best);
    LocalTop(p, t, c + [best]);
    TopLoads(p, t, c + [best]);
    ReadReplayOf(p.k, c);
  }

  /** Rolling the candidate back gives the parent's state. */
  lemma BackAtParent(p: Params, s: NodeState, c: seq<Block>, best: Block, t: NodeState, b: Block)
    requires AtParent(p, s, c) && Candidate(p, s, best) && Same(t, Append(p, s, best))
    requires Reorgs(p, t, b)
    ensures Same(Base(p, t, b), s)
  {
    hide Reread, Recover, Append, Readable, RollbackDb, Reorgs, DbOf, Candidate;
    OnTop(p, s, c, best, t);
    RolledBack(p, t, c + [best]);
    SameChain(p.k, Base(p, t, b), s, c);
  }

  /** With a valid block on top, another replaces it if and only if it is valid and preferred. */
  lemma ReceiveNext(p: Params, s: NodeState, c: seq<Block>, best: Block, t: NodeState, b: Block)
    requires AtParent(p, s, c) && Candidate(p, s, best) && Same(t, Append(p, s, best))
    requires b.header.height == |c| && BlockHash(p.k, b) != BlockHash(p.k, best)
    ensures var t' := ApplyRemote(p, t, b).0;
      if ValidBlock(p, s, b) && Preferred(p, b, best) then Same(t', Append(p, s, b)) else Same(t', t)
  {
    hide Reread, Recover, Append, Readable, RollbackDb, ValidBlock, ApplyRemote, Reorg, Held, DbOf, Preferred, Candidate;
    var d := c + [best];
    OnTop(p, s, c, best, t);
    Dispatch(p, t, b);
    if Reorgs(p, t, b) {
      ReorgOutcome(p, t, b, d);
      BackAtParent(p, s, c, best, t, b);
      PoolDistinct(p, s, c);
      ValidSame(p, s, Base(p, t, b), b);
      AppendSame(p, Base(p, t, b), s, b);
    } else {
      NotPreferred(p, s, best, t, b);
    }
  }

  lemma NotPreferred(p: Params, s: NodeState, best: Block, t: NodeState, b: Block)
    requires t.db.topHeight == b.header.height > 0 && LoadBlock(p.k, t.db.tables.blocks, t.db.topHeight) == Some(best)
    requires best.header.prevHash == s.db.topHash
    requires BlockHash(p.k, b) != BlockHash(p.k, best) && !Reorgs(p, t, b)
    ensures ApplyRemote(p, t, b).0 == t && !(ValidBlock(p, s, b) && Preferred(p, b, best))
  {
    hide Reread, Reorg;
  }

  /** One more sibling. */
  lemma SettledPush(p: Params, s: NodeState, c: seq<Block>, valid: set<Block>, b: Block, t: NodeState)
    requires AtParent(p, s, c) && b.header.height == |c|
    requires forall x :: x in valid ==> Candidate(p, s, x)
    requires DistinctHashes(p, valid + {b}) && Settled(p, s, valid, t)
    ensures Settled(p, s, if ValidBlock(p, s, b) then valid + {b} else valid, ApplyRemote(p, t, b).0)
  {
    hide ValidBlock, Append, ApplyRemote, AtParent, Candidate;
    if valid == {} && Same(t, s) {
      ReceiveFirst(p, s, c, t, b);
      assert IsBest(p, {} + {b}, b);
    } else {
      var best :| IsBest(p, valid, best) && Same(t, Append(p, s, best));
      BestPush(p, valid, best, b);
      if b == best {
        ReceiveAgain(p, s, c, best, t);
      } else {
        ReceiveNext(p, s, c, best, t, b);
      }
    }
  }

  lemma ReceiveAgain(p: Params, s: NodeState, c: seq<Block>, best: Block, t: NodeState)
    requires AtParent(p, s, c) && Candidate(p, s, best) && Same(t, Append(p, s, best))
    ensures ApplyRemote(p, t, best) == (t, true)
  {
    hide Reread, Reorg, Append, Candidate;
    OnTop(p, s, c, best, t);
  }

  lemma SiblingsInit(p: Params, s: NodeState, c: seq<Block>, L: seq<Block>, b: Block)
    requires Siblings(p, s, c, L + [b])
    ensures Siblings(p, s, c, L) && DistinctHashes(p, ValidAmong(p, s, L) + {b}) && b.header.height == |c|
    ensures ValidAmong(p, s, L + [b]) == if ValidBlock(p, s, b) then ValidAmong(p, s, L) + {b} else ValidAmong(p, s, L)
  {
    hide ValidBlock, AtParent, Candidate;
    assert b in L + [b] && forall x :: x in L ==> x in L + [b];
  }

  lemma {:induction false} ReceivesBest(p: Params, s: NodeState, c: seq<Block>, L: seq<Block>)
    requires Siblings(p, s, c, L)
    ensures Settled(p, s, ValidAmong(p, s, L), Receive(p, s, L))
  {
    hide ValidBlock, Append, ApplyRemote, AtParent, Candidate;
    if L != [] {
      var n := |L| - 1;
      LastSplit(L);
      SiblingsInit(p, s, c, L[..n], L[n]);
      ReceivesBest(p, s, c, L[..n]);
      SettledPush(p, s, c, ValidAmong(p, s, L[..n]), L[n], Receive(p, s, L[..n]));
    }
  }

  lemma OneBest(p: Params, s: NodeState, valid: set<Block>, t: NodeState, u: NodeState)
    requires Settled(p, s, valid, t) && Settled(p, s, valid, u) && DistinctHashes(p, valid)
    ensures Same(t, u)
  {
    hide ValidBlock, Append;
    if valid != {} {
      var a :| IsBest(p, valid, a) && Same(t, Append(p, s, a));
      var b :| IsBest(p, valid, b) && Same(u, Append(p, s, b));
      if a != b { PreferredTotal(p, a, b); }
    }
  }

  // ---- The winner, by its signatures and its hash ----

  /** Valid, and signed by more distinct authorized validators than any other valid sibling, or
      by as many and with the smaller hash, byte by byte. */
  ghost predicate Winner(p: Params, s: NodeState, L: seq<Block>, best: Block) {
    && best in L && ValidBlock(p, s, best)
    && forall b :: b in L && ValidBlock(p, s, b) && b != best ==> Beats(p, best, b)
  }

  ghost predicate Beats(p: Params, a: Block, b: Block) {
    var x, y := Quorum(p.k, a.header, p.authorized), Quorum(p.k, b.header, p.authorized);
    y < x || (y == x && Less(BlockHash(p.k, a), BlockHash(p.k, b)))
  }

  lemma PreferredBeats(p: Params, a: Block, b: Block)
    ensures Preferred(p, a, b) <==> Beats(p, a, b)
  {
    HexOrder(BlockHash(p.k, a), BlockHash(p.k, b));
  }

  lemma BestWins(p: Params, s: NodeState, L: seq<Block>, best: Block)
    requires IsBest(p, ValidAmong(p, s, L), best)
    ensures Winner(p, s, L, best)
  {
    hide ValidBlock, Preferred, Beats;
    forall b | b in L && ValidBlock(p, s, b) && b != best ensures Beats(p, best, b) {
      assert b in ValidAmong(p, s, L);
      PreferredBeats(p, best, b);
    }
  }

  /** Fewer signatures never win: over any state at all, a competing block with fewer distinct
      authorized signers than the local top is turned away and nothing changes. */
  lemma FewerSignaturesRefused(p: Params, s: NodeState, b: Block, local: Block)
    requires b.header.height == s.db.topHeight > 0 && LoadBlock(p.k, s.db.tables.blocks, s.db.topHeight) == Some(local)
    requires BlockHash(p.k, b) != BlockHash(p.k, local)
    requires Quorum(p.k, b.header, p.authorized) < Quorum(p.k, local.header, p.authorized)
    ensures ApplyRemote(p, s, b) == (s, false)
  {
    hide Reread, Reorg, ToHex;
  }

  /** More signatures win: a valid sibling with more distinct authorized signers replaces the
      top; among equals the smaller hash does. */
  lemma MoreSignaturesWin(p: Params, s: NodeState, c: seq<Block>, best: Block, t: NodeState, b: Block)
    requires AtParent(p, s, c) && Candidate(p, s, best) && Same(t, Append(p, s, best))
    requires b.header.height == |c| && BlockHash(p.k, b) != BlockHash(p.k, best) && ValidBlock(p, s, b)
    ensures var t' := ApplyRemote(p, t, b).0;
      var x, y := Quorum(p.k, b.header, p.authorized), Quorum(p.k, best.header, p.authorized);
      && (x > y ==> Same(t', Append(p, s, b)))
      && (x == y ==> if Less(BlockHash(p.k, b), BlockHash(p.k, best)) then Same(t', Append(p, s, b)) else Same(t', t))
      && (x < y ==> Same(t', t))
  {
    hide AtParent, Candidate, Append, ApplyRemote, ValidBlock, Preferred;
    ReceiveNext(p, s, c, best, t, b);
    PreferredBeats(p, b, best);
  }

  /** Convergence: two nodes that receive the same siblings, in any order and with any
      repetitions, end in the same state: that of the valid sibling with the most distinct
      authorized signers on the common parent, the smallest hash deciding between equals, or the
      parent itself if none is valid. */
  lemma ForkChoiceConverges(p: Params, s: NodeState, c: seq<Block>, L: seq<Block>, M: seq<Block>)
    requires Siblings(p, s, c, L) && Elements(L) == Elements(M)
    ensures var t := Receive(p, s, L);
      if exists b :: b in L && ValidBlock(p, s, b) then exists best :: Winner(p, s, L, best) && Same(t, Append(p, s, best))
      else Same(t, s)
    ensures Same(Receive(p, s, L), Receive(p, s, M))
  {
    hide ValidBlock, Append, ApplyRemote, AtParent, Candidate, IsBest, Winner;
    forall x ensures x in L <==> x in M { assert x in Elements(L) <==> x in Elements(M); }
    var valid := ValidAmong(p, s, L);
    assert valid == ValidAmong(p, s, M);
    ReceivesBest(p, s, c, L);
    ReceivesBest(p, s, c, M);
    OneBest(p, s, valid, Receive(p, s, L), Receive(p, s, M));
    if b :| b in L && ValidBlock(p, s, b) {
      assert b in valid;
      var best :| IsBest(p, valid, best) && Same(Receive(p, s, L), Append(p, s, best));
      BestWins(p, s, L, best);
    } else {
      NoneBest(p, s, L, Receive(p, s, L));
    }
  }

  lemma NoneBest(p: Params, s: NodeState, L: seq<Block>, t: NodeState)
    requires Settled(p, s, ValidAmong(p, s, L), t) && !exists b :: b in L && ValidBlock(p, s, b)
    ensures Same(t, s)
  {
    hide ValidBlock, Append;
    assert ValidAmong(p, s, L) == {};
  }
}
