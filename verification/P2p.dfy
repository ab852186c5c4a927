/** The loop that pulls pages of blocks from a peer and applies them (src/p2p.cpp:273-340). */
module P2p {
  import opened Types
  import opened Sequences
  import opened CurveModel
  import opened DbModel
  import opened Ledger
  import opened Chain
  import opened Agreement
  import opened Atomicity
  import opened Replica
  import opened Sync
  import opened Nodes
  import Codec
  import Encoding
  import Parsing

  /** Blocks are read and applied in order until one cannot be read or is refused. */
  method ApplyPage(node: Node, page: seq<Bytes>) returns (ok: bool)
    requires node.Valid()
    modifies node, node.db, node.vault, node.ledger
    ensures node.Valid() && (node.State(), ok) == ApplyAll(node.p, old(node.State()), page)
  {
    hide ApplyRemote, Parsing.ReadBlock;
    ghost var s0 := node.State();
    for i := 0 to |page|
      invariant node.Valid()
      invariant ApplyAll(node.p, s0, page) == ApplyAll(node.p, node.State(), page[i..])
    {
      assert page[i..][0] == page[i] && page[i..][1..] == page[i + 1..];
      var b := Codec.Deserialize(node.p.k, page[i]);
      if b.None? { return false; }
      var applied := node.ApplyRemoteBlock(b.value);
      if !applied { return false; }
    }
    return true;
  }

  // ---- A page that is taken in raises the tip ----

  /** Blocks are stored at their heights. */
  ghost predicate Heighted(blocks: map<nat, Block>) {
    forall h: nat :: h in blocks ==> blocks[h].header.height == h
  }

  lemma {:induction false} Heights(k: Curve, c: seq<Block>)
    requires ChainOk(k, c)
    ensures forall m: nat :: m < |c| ==> c[m].header.height == m
  {
    hide Fresh, BlockHash, DbOf, CanonicalAll;
    var n := |c| - 1;
    if n > 0 {
      Heights(k, c[..n]);
      LastHeight(c, c[..n]);
    }
  }

  lemma LastHeight(c: seq<Block>, init: seq<Block>)
    requires c != [] && init == c[..|c| - 1] && c[|c| - 1].header.height == |c| - 1
    requires forall m: nat :: m < |init| ==> init[m].header.height == m
    ensures forall m: nat :: m < |c| ==> c[m].header.height == m
  {
    forall m: nat | m < |c| - 1 ensures c[m].header.height == m { assert c[m] == init[m]; }
  }

  /** What is served for a height, read by the other side, still has that height. */
  lemma ServedHeight(k: Curve, blocks: map<nat, Block>, h: nat)
    requires Heighted(blocks)
    ensures match LoadBlock(k, blocks, h) case None => true case Some(b) =>
      match Reread(k, b) case None => true case Some(read) => read.header.height == h
  {
    hide Reread;
    if LoadBlock(k, blocks, h).Some? {
      RereadHeight(k, blocks[h]);
      RereadHeight(k, LoadBlock(k, blocks, h).value);
    }
  }

  lemma AcceptedRises(p: Params, s: NodeState, b: Block)
    requires ApplyRemote(p, s, b).1 && b.header.height > s.db.topHeight
    ensures b.header.height == s.db.topHeight + 1 && ApplyRemote(p, s, b).0.db.topHeight == b.header.height
  {
    hide Reread, Recover;
  }

  /** Taking in a page from above the tip raises the tip, to a height that the peer serves. */
  lemma {:induction false} PageRises(p: Params, s: NodeState, blocks: map<nat, Block>, top: nat, from: nat, limit: nat)
    requires Heighted(blocks) && s.db.topHeight < from
    requires ApplyAll(p, s, Page(p.k, blocks, top, from, limit)).1
    ensures var t := ApplyAll(p, s, Page(p.k, blocks, top, from, limit)).0;
      Page(p.k, blocks, top, from, limit) != [] ==> s.db.topHeight < t.db.topHeight <= top
    decreases top + 1 - from
  {
    hide Parsing.ReadBlock, Encoding.EncBlock, ApplyRemote;
    if from <= top && limit > 0 {
      if LoadBlock(p.k, blocks, from).None? {
        PageRises(p, s, blocks, top, from + 1, limit);
      } else {
        ServedHeight(p.k, blocks, from);
        var b := Reread(p.k, LoadBlock(p.k, blocks, from).value).value;
        AcceptedRises(p, s, b);
        var rest := Page(p.k, blocks, top, from + 1, limit - 1);
        assert Page(p.k, blocks, top, from, limit)[1..] == rest;
        PageRises(p, ApplyRemote(p, s, b).0, blocks, top, from + 1, limit - 1);
      }
    }
  }

  // ---- Synchronising ----

  /** The node is where the peer's chain, valid, readable and without claims, passes. */
  ghost predicate Behind(p: Params, q: Params, s: NodeState, t: NodeState, d: seq<Block>)
    requires d != []
  {
    && Peers(p, q) && ValidChain(p, d) && Same(s, Fold(p, d))
    && t.db.topHeight < |d| && Same(t, Fold(p, d[..t.db.topHeight + 1]))
  }

  /** What the peer serves above the node's tip. */
  function NextPage(k: Curve, s: NodeState, h: nat): seq<Bytes> {
    Page(k, s.db.tables.blocks, s.db.topHeight, h + 1, PAGE)
  }

  lemma PageSize(c: seq<Block>, i: nat, j: nat)
    requires i <= j <= |c|
    ensures |BytesOf(c, i, j)| == j - i
  {
  }

  /** A page keeps the node on the peer's chain; an empty or a short one ends there. */
  lemma PageKeepsBehind(p: Params, q: Params, s: NodeState, t: NodeState, d: seq<Block>)
    requires d != [] && Held(p.k, s, d) && Behind(p, q, s, t, d)
    ensures var page := NextPage(p.k, s, t.db.topHeight); var (t', ok) := ApplyAll(q, t, page);
      ok && Behind(p, q, s, t', d) && (|page| < PAGE ==> Same(t', s))
  {
    hide Fold, ValidChain, Held, ApplyAll, Reread, Encoding.EncBlock, Page, BytesOf, BlockHash, Readable, CanonicalAll;
    var from := t.db.topHeight + 1;
    var end := PageEnd(d, from, PAGE);
    FoldInv(p, d);
    LocalTop(p, s, d);
    PageOfChain(p.k, s.db.tables.blocks, d, from, PAGE);
    PageApplies(p, q, d, from, end, t);
    PageSize(d, from, end);
    PrefixValid(p, d, end);
    FoldInv(p, d[..end]);
    LocalTop(p, Fold(p, d[..end]), d[..end]);
    assert d[..|d|] == d;
  }

  lemma ServesChain(p: Params, s: NodeState, d: seq<Block>)
    requires Held(p.k, s, d)
    ensures d != [] && Heighted(s.db.tables.blocks) && s.db.topHeight == |d| - 1
  {
    LocalTop(p, s, d);
    Heights(p.k, d);
  }

  /** Synchronising ends, whatever the peer serves; and if the peer's chain is valid, readable
      and extends the node's, it ends in the peer's state, however many pages it takes. */
  method SyncFromPeer(node: Node, peer: Node, ghost d: seq<Block>) returns (ok: bool)
    requires node.Valid() && node != peer && node.db != peer.db && node.vault != peer.vault && node.ledger != peer.ledger
    requires node.p.k == peer.p.k && Held(peer.p.k, peer.State(), d)
    modifies node, node.db, node.vault, node.ledger
    ensures node.Valid() && peer.State() == old(peer.State())
    ensures d != [] && old(Behind(peer.p, node.p, peer.State(), node.State(), d)) ==> ok && Same(node.State(), peer.State())
  {
    hide Behind, Held, Same, ApplyAll, Page;
    ServesChain(peer.p, peer.State(), d);
    ghost var behind := Behind(peer.p, node.p, peer.State(), node.State(), d);
    while true
      invariant node.Valid() && peer.State() == old(peer.State())
      invariant behind ==> Behind(peer.p, node.p, peer.State(), node.State(), d)
      decreases |d| - node.db.topHeight
    {
      var h := node.db.topHeight;
      ghost var t := node.State();
      if behind { PageKeepsBehind(peer.p, node.p, peer.State(), t, d); }
      var page := BuildPage(peer.p.k, peer.db, h + 1, PAGE);
      if page == [] {
        if behind { EmptyPage(node.p, t); }
        return true;
      }
      var applied := ApplyPage(node, page);
      if !applied { return false; }
      PageRises(node.p, t, peer.db.tables.blocks, peer.db.topHeight, h + 1, PAGE);
      if |page| < PAGE { return true; }
    }
  }

  lemma EmptyPage(p: Params, s: NodeState)
    ensures ApplyAll(p, s, []) == (s, true)
  {
  }
}
