/** Catching up with a peer in pages of 50 blocks (src/p2p.cpp:273-340,
    src/rpc_server.cpp:925-963). */
module Sync {
  import opened Types
  import opened Sequences
  import opened CurveModel
  import opened VaultModel
  import opened DbModel
  import opened Ledger
  import opened Chain
  import opened Agreement
  import opened Atomicity
  import opened Runs
  import opened Convergence
  import opened Replica
  import opened Wire
  import opened Encoding
  import opened Parsing
  import Codec

  const PAGE: nat := 50

  /** The state of a node that has made no claims, as a function of its chain. */
  ghost function Fold(p: Params, c: seq<Block>): NodeState
    requires c != []
  {
    var n := |c| - 1;
    if n == 0 then Restart(p, EMPTY_TABLES) else Append(p, Fold(p, c[..n]), c[n])
  }

  /** Every block is given back by its bytes and valid on the state of the chain before it. */
  ghost predicate ValidChain(p: Params, c: seq<Block>) {
    && ChainOk(p.k, c)
    && var n := |c| - 1;
       (n > 0 ==> ValidChain(p, c[..n]) && ValidBlock(p, Fold(p, c[..n]), c[n]) && Storable(p.k, c[n]))
  }

  lemma {:induction false} FoldInv(p: Params, c: seq<Block>)
    requires ValidChain(p, c)
    ensures Inv(p.k, Fold(p, c), c)
  {
    hide ValidBlock, Append, ChainOk, Inv, Extends, Storable;
    ChainInit(p.k, c);
    var n := |c| - 1;
    if n == 0 {
      FirstStart(p);
    } else {
      FoldInv(p, c[..n]);
      LastSplit(c);
      ValidBlockRuns(p, Fold(p, c[..n]), c[n]);
      AppendKeeps(p, Fold(p, c[..n]), c[..n], c[n]);
    }
  }

  lemma ValidBlockRuns(p: Params, s: NodeState, b: Block)
    requires ValidBlock(p, s, b)
    ensures NextVault(p, s, b).Some?
  {
  }

  // ---- Pages of bytes ----

  /** What a peer serves: at most `limit` blocks from height `from` up, read from its store and
      written again; a height that cannot be read is passed over. */
  function Page(k: Curve, blocks: map<nat, Block>, top: nat, from: nat, limit: nat): seq<Bytes>
    decreases top + 1 - from
  {
    if from > top || limit == 0 then [] else
    match LoadBlock(k, blocks, from)
    case None => Page(k, blocks, top, from + 1, limit)
    case Some(b) => [EncBlock(b)] + Page(k, blocks, top, from + 1, limit - 1)
  }

  /** The loop of the page handler. */
  method BuildPage(k: Curve, db: BlockchainDB, from: nat, limit: nat) returns (page: seq<Bytes>)
    ensures page == Page(k, db.tables.blocks, db.topHeight, from, limit)
  {
    hide EncBlock, Reread;
    page := [];
    var h, top := from, db.topHeight;
    while h <= top && |page| < limit
      invariant |page| <= limit && page + Page(k, db.tables.blocks, top, h, limit - |page|) == Page(k, db.tables.blocks, top, from, limit)
      decreases if h <= top then top - h + 1 else 0
    {
      var b := db.GetBlock(k, h);
      if b.Some? {
        var raw := Codec.Serialize(b.value);
        var rest := Page(k, db.tables.blocks, top, h + 1, limit - |page| - 1);
        assert page + ([raw] + rest) == (page + [raw]) + rest;
        page := page + [raw];
      }
      h := h + 1;
    }
    assert page + [] == page;
  }

  /** The bytes of the blocks i..j of a chain. */
  function BytesOf(c: seq<Block>, i: nat, j: nat): seq<Bytes>
    requires i <= j <= |c|
  {
    Map(EncBlock, c[i..j])
  }

  lemma BytesFirst(c: seq<Block>, i: nat, j: nat)
    requires i < j <= |c|
    ensures BytesOf(c, i, j) == [EncBlock(c[i])] + BytesOf(c, i + 1, j)
    ensures BytesOf(c, i, j)[0] == EncBlock(c[i]) && BytesOf(c, i, j)[1..] == BytesOf(c, i + 1, j)
  {
    hide EncBlock;
    var r, t := BytesOf(c, i, j), BytesOf(c, i + 1, j);
    forall x | 0 <= x < |t| ensures r[x + 1] == t[x] { assert c[i..j][x + 1] == c[i + 1..j][x]; }
    assert r[0] == EncBlock(c[i..j][0]);
  }

  /** Where a page that starts at `from` ends. */
  function PageEnd(c: seq<Block>, from: nat, limit: nat): nat {
    if from + limit <= |c| then from + limit else |c|
  }

  lemma {:induction false} PageOfChain(k: Curve, blocks: map<nat, Block>, c: seq<Block>, from: nat, limit: nat)
    requires BlocksAre(blocks, c) && Readable(k, c) && from <= |c| && c != []
    ensures Page(k, blocks, |c| - 1, from, limit) == BytesOf(c, from, PageEnd(c, from, limit))
    decreases |c| - from
  {
    hide EncBlock, Reread;
    if from < |c| && limit > 0 {
      LoadsBack(k, blocks, c, from);
      PageOfChain(k, blocks, c, from + 1, limit - 1);
      BytesFirst(c, from, PageEnd(c, from, limit));
    }
  }

  /** Reading and applying blocks until one is refused. */
  ghost function ApplyAll(p: Params, s: NodeState, page: seq<Bytes>): (NodeState, bool)
    decreases |page|
  {
    if page == [] then (s, true) else
    match ReadBlock(p.k, page[0]) case None => (s, false) case Some(b) =>
      var r := ApplyRemote(p, s, b.value);
      if r.1 then ApplyAll(p, r.0, page[1..]) else r
  }

  lemma PrefixValid(p: Params, c: seq<Block>, i: nat)
    requires ValidChain(p, c) && 0 < i <= |c|
    ensures ValidChain(p, c[..i])
    decreases |c|
  {
    hide ValidBlock, ChainOk, Fold, Storable;
    if i < |c| {
      var n := |c| - 1;
      PrefixValid(p, c[..n], i);
      assert c[..n][..i] == c[..i];
    } else {
      assert c[..i] == c;
    }
  }

  lemma LastValid(p: Params, c: seq<Block>)
    requires ValidChain(p, c) && |c| > 1
    ensures var init, b := c[..|c| - 1], c[|c| - 1];
      && ValidBlock(p, Fold(p, init), b) && Fold(p, c) == Append(p, Fold(p, init), b)
      && b.header.height == |c| - 1 && Storable(p.k, b)
  {
    hide ValidBlock, Append, Reread;
  }

  /** One block of a valid chain, from its bytes. */
  lemma NextOfChain(p: Params, q: Params, c: seq<Block>, i: nat, t: NodeState)
    requires Peers(p, q) && ValidChain(p, c) && 0 < i < |c| && Same(t, Fold(p, c[..i]))
    ensures Reread(q.k, c[i]) == Some(c[i])
    ensures var (t', ok) := ApplyRemote(q, t, c[i]); ok && Same(t', Fold(p, c[..i + 1]))
  {
    hide ValidBlock, ApplyRemote, Append, Fold, ValidChain, Reread;
    PrefixValid(p, c, i);
    PrefixValid(p, c, i + 1);
    assert c[..i + 1][..i] == c[..i];
    LastValid(p, c[..i + 1]);
    FoldInv(p, c[..i]);
    LocalTop(p, Fold(p, c[..i]), c[..i]);
    PeerApplies(p, q, Fold(p, c[..i]), t, c[..i], c[i]);
  }

  /** A page of a valid chain is taken in whole. */
  lemma {:induction false} PageApplies(p: Params, q: Params, c: seq<Block>, i: nat, j: nat, t: NodeState)
    requires Peers(p, q) && ValidChain(p, c) && 0 < i <= j <= |c| && Same(t, Fold(p, c[..i]))
    ensures var (t', ok) := ApplyAll(q, t, BytesOf(c, i, j)); ok && Same(t', Fold(p, c[..j]))
    decreases j - i
  {
    hide ApplyRemote, Fold, ValidChain, EncBlock, ReadBlock;
    if i < j {
      NextOfChain(p, q, c, i, t);
      var t' := ApplyRemote(q, t, c[i]).0;
      BytesFirst(c, i, j);
      PageApplies(p, q, c, i + 1, j, t');
    }
  }
}
