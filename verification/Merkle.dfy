/** The Merkle root of a block and what it commits to (src/block.cpp, compute_merkle_root). */
module Merkle {
  import opened Types
  import opened LittleEndian
  import opened CurveModel
  import opened Encoding

  // ---- The tree over a level of hashes ----

  function Join(a: Bytes, b: Bytes): Bytes { a + b }

  /** The two children hashed into node i of the next level; an odd last one is doubled. */
  function Pair(l: seq<Hash256>, i: nat): (b: Bytes)
    requires 2 * i < |l|
    ensures |b| == 64
  {
    Join(l[2 * i], if 2 * i + 1 < |l| then l[2 * i + 1] else l[2 * i])
  }

  function Up(k: Curve, l: seq<Hash256>): (r: seq<Hash256>)
    ensures |r| == (|l| + 1) / 2
    ensures forall i :: 0 <= i < |r| ==> r[i] == k.hash(Pair(l, i))
  {
    seq<Hash256>((|l| + 1) / 2, i requires 0 <= i < (|l| + 1) / 2 => k.hash(Pair(l, i)))
  }

  /** Level by level. */
  function Root(k: Curve, l: seq<Hash256>): Hash256
    decreases |l|
  {
    if l == [] then ZERO_KEY else if |l| == 1 then l[0] else Root(k, Up(k, l))
  }

  method RootLoop(k: Curve, leaves: seq<Hash256>) returns (root: Hash256)
    ensures root == Root(k, leaves)
  {
    if leaves == [] { return ZERO_KEY; }
    var current := leaves;
    while |current| > 1
      invariant current != [] && Root(k, current) == Root(k, leaves)
      decreases |current|
    {
      var next: seq<Hash256> := [];
      var i := 0;
      while i < |current|
        invariant i % 2 == 0 && i <= |current| + 1 && |next| == i / 2
        invariant next == Up(k, current)[..i / 2]
      {
        var buf := Join(current[i], if i + 1 < |current| then current[i + 1] else current[i]);
        assert buf == Pair(current, i / 2);
        next := next + [k.hash(buf)];
        i := i + 2;
      }
      assert next == Up(k, current);
      current := next;
    }
    return current[0];
  }

  function Pow2(n: nat): (p: nat)
    ensures p > 0
  {
    if n == 0 then 1 else 2 * Pow2(n - 1)
  }

  function Height(n: nat): nat {
    if n <= 1 then 0 else 1 + Height((n + 1) / 2)
  }

  /** The tree read from the top: the subtree of height h whose leftmost leaf is lo. Where
      there is nothing to the right, the left child is its own sibling. */
  function Subtree(k: Curve, l: seq<Hash256>, lo: nat, h: nat): Hash256
    requires lo < |l|
    decreases h
  {
    if h == 0 then l[lo] else
    var left := Subtree(k, l, lo, h - 1);
    var mid := lo + Pow2(h - 1);
    k.hash(Join(left, if mid < |l| then Subtree(k, l, mid, h - 1) else left))
  }

  lemma {:induction false} SubtreeOfUp(k: Curve, l: seq<Hash256>, lo: nat, h: nat)
    requires 2 * lo < |l|
    ensures Subtree(k, Up(k, l), lo, h) == Subtree(k, l, 2 * lo, h + 1)
    decreases h
  {
    if h == 0 {
      assert Pow2(0) == 1;
      assert Subtree(k, l, 2 * lo, 1) == k.hash(Pair(l, lo));
    } else {
      SubtreeOfUp(k, l, lo, h - 1);
      var mid := lo + Pow2(h - 1);
      assert Pow2(h) == 2 * Pow2(h - 1);
      if mid < |Up(k, l)| { SubtreeOfUp(k, l, mid, h - 1); }
    }
  }

  /** The level-by-level loop computes the recursive tree. */
  lemma {:induction false} RootIsTree(k: Curve, l: seq<Hash256>)
    requires l != []
    ensures Root(k, l) == Subtree(k, l, 0, Height(|l|))
    decreases |l|
  {
    if |l| > 1 {
      RootIsTree(k, Up(k, l));
      SubtreeOfUp(k, l, 0, Height(|Up(k, l)|));
    }
  }

  // ---- Binding ----

  /** The strings hashed while climbing from this level. */
  ghost function Climbed(k: Curve, l: seq<Hash256>): set<Bytes>
    decreases |l|
  {
    if |l| <= 1 then {} else
    (set i | 0 <= i < (|l| + 1) / 2 :: Pair(l, i)) + Climbed(k, Up(k, l))
  }

  /** Two different strings, one of each set, with one hash. */
  ghost predicate Collide(k: Curve, xs: set<Bytes>, ys: set<Bytes>) {
    exists x, y :: x in xs && y in ys && x != y && k.hash(x) == k.hash(y)
  }

  lemma CollideMonotone(k: Curve, xs: set<Bytes>, ys: set<Bytes>, xs': set<Bytes>, ys': set<Bytes>)
    requires Collide(k, xs, ys) && xs <= xs' && ys <= ys'
    ensures Collide(k, xs', ys')
  {
  }

  lemma PairsEqual(l: seq<Hash256>, m: seq<Hash256>)
    requires |l| == |m| && forall i :: 0 <= i < (|l| + 1) / 2 ==> Pair(l, i) == Pair(m, i)
    ensures l == m
  {
    forall j | 0 <= j < |l| ensures l[j] == m[j] {
      var i := j / 2;
      assert Pair(l, i)[..32] == l[2 * i] && Pair(m, i)[..32] == m[2 * i];
      assert 2 * i + 1 < |l| ==> Pair(l, i)[32..] == l[2 * i + 1] && Pair(m, i)[32..] == m[2 * i + 1];
    }
  }

  /** Levels of one size with one root are equal, or computing the two roots hashed two
      different strings to one value. */
  lemma {:induction false} RootBinds(k: Curve, l: seq<Hash256>, m: seq<Hash256>)
    requires |l| == |m| && Root(k, l) == Root(k, m)
    ensures l == m || Collide(k, Climbed(k, l), Climbed(k, m))
    decreases |l|
  {
    if |l| == 1 {
    } else if |l| > 1 {
      RootBinds(k, Up(k, l), Up(k, m));
      var ps, qs := (set i | 0 <= i < (|l| + 1) / 2 :: Pair(l, i)), (set i | 0 <= i < (|m| + 1) / 2 :: Pair(m, i));
      if Collide(k, Climbed(k, Up(k, l)), Climbed(k, Up(k, m))) {
        CollideMonotone(k, Climbed(k, Up(k, l)), Climbed(k, Up(k, m)), Climbed(k, l), Climbed(k, m));
      } else if exists i :: 0 <= i < (|l| + 1) / 2 && Pair(l, i) != Pair(m, i) {
        var i :| 0 <= i < (|l| + 1) / 2 && Pair(l, i) != Pair(m, i);
        assert Up(k, l)[i] == Up(k, m)[i];
        assert Pair(l, i) in ps && Pair(m, i) in qs;
        assert Collide(k, ps, qs);
        CollideMonotone(k, ps, qs, Climbed(k, l), Climbed(k, m));
      } else {
        PairsEqual(l, m);
      }
    }
  }

  /** The number of leaves has to be known from elsewhere: because an odd last leaf is
      doubled, three leaves and the same three with the last repeated have one root. */
  lemma SizesAreNotCommitted(k: Curve, a: Hash256, b: Hash256, c: Hash256)
    ensures Root(k, [a, b, c]) == Root(k, [a, b, c, c])
  {
    assert Up(k, [a, b, c]) == [k.hash(Join(a, b)), k.hash(Join(c, c))] == Up(k, [a, b, c, c]);
  }

  // ---- The leaves of a block ----

  function OutputPart(out: Option<OneTimeOutput>): Bytes {
    match out case None => [] case Some(o) => EncOutput(o)
  }

  /** The string hashed for deposit i, with its output if there is one. */
  function DepositLeaf(d: DepositReceipt, out: Option<OneTimeOutput>): Bytes {
    EncText(d.txHash) + (EncU64(d.gross) + (EncU64(d.fee) + (EncU64(d.net) + (d.viewPub + (d.spendPub + OutputPart(out))))))
  }

  function OutputOf(b: Block, i: nat): Option<OneTimeOutput> {
    if i < |b.depositOutputs| then Some(b.depositOutputs[i]) else None
  }

  /** The string hashed for a withdrawal: everything but the change key. */
  function WithdrawalLeaf(w: WithdrawalReceipt): Bytes {
    EncText(w.orderId) + (EncU64(w.gross) + (EncU64(w.fee) + (EncU64(w.net) + (EncText(w.destination) + BurnPart(w)))))
  }

  function BurnPart(w: WithdrawalReceipt): Bytes {
    w.keyImage + (w.burnedKey + (w.burnC0 + w.burnS))
  }

  function DepositLeaves(b: Block): (r: seq<Bytes>)
    ensures |r| == |b.deposits| && forall i :: 0 <= i < |r| ==> r[i] == DepositLeaf(b.deposits[i], OutputOf(b, i))
  {
    seq(|b.deposits|, i requires 0 <= i < |b.deposits| => DepositLeaf(b.deposits[i], OutputOf(b, i)))
  }

  function HashAll(k: Curve, xs: seq<Bytes>): (r: seq<Hash256>)
    ensures |r| == |xs| && forall i :: 0 <= i < |r| ==> r[i] == k.hash(xs[i])
  {
    seq<Hash256>(|xs|, i requires 0 <= i < |xs| => k.hash(xs[i]))
  }

  function TxHashes(txs: seq<ShieldedTransaction>): (r: seq<Hash256>)
    ensures |r| == |txs| && forall i :: 0 <= i < |r| ==> r[i] == txs[i].txHash
  {
    seq<Hash256>(|txs|, i requires 0 <= i < |txs| => txs[i].txHash)
  }

  /** The strings whose hashes follow the transaction hashes. */
  function LeafStrings(b: Block): seq<Bytes> {
    DepositLeaves(b) + Map(WithdrawalLeaf, b.withdrawals) + Map(EncOutput, b.withdrawalOutputs)
  }

  function Leaves(k: Curve, b: Block): seq<Hash256> {
    TxHashes(b.txs) + HashAll(k, LeafStrings(b))
  }

  function MerkleRoot(k: Curve, b: Block): Hash256 {
    Root(k, Leaves(k, b))
  }

  method HashDeposits(k: Curve, b: Block) returns (leaves: seq<Hash256>)
    ensures leaves == HashAll(k, DepositLeaves(b))
  {
    leaves := [];
    for i := 0 to |b.deposits|
      invariant leaves == HashAll(k, DepositLeaves(b))[..i]
    {
      leaves := leaves + [k.hash(DepositLeaf(b.deposits[i], OutputOf(b, i)))];
    }
  }

  method HashWithdrawals(k: Curve, b: Block) returns (leaves: seq<Hash256>)
    ensures leaves == HashAll(k, Map(WithdrawalLeaf, b.withdrawals))
  {
    leaves := [];
    for i := 0 to |b.withdrawals|
      invariant leaves == HashAll(k, Map(WithdrawalLeaf, b.withdrawals))[..i]
    {
      leaves := leaves + [k.hash(WithdrawalLeaf(b.withdrawals[i]))];
    }
  }

  method HashChangeOutputs(k: Curve, b: Block) returns (leaves: seq<Hash256>)
    ensures leaves == HashAll(k, Map(EncOutput, b.withdrawalOutputs))
  {
    leaves := [];
    for i := 0 to |b.withdrawalOutputs|
      invariant leaves == HashAll(k, Map(EncOutput, b.withdrawalOutputs))[..i]
    {
      leaves := leaves + [k.hash(EncOutput(b.withdrawalOutputs[i]))];
    }
  }

  lemma HashAllConcat(k: Curve, xs: seq<Bytes>, ys: seq<Bytes>)
    ensures HashAll(k, xs + ys) == HashAll(k, xs) + HashAll(k, ys)
  {
  }

  method ComputeMerkleRoot(k: Curve, b: Block) returns (root: Hash256)
    ensures root == MerkleRoot(k, b)
  {
    var leaves: seq<Hash256> := [];
    for i := 0 to |b.txs|
      invariant leaves == TxHashes(b.txs)[..i]
    {
      leaves := leaves + [b.txs[i].txHash];
    }
    var d := HashDeposits(k, b);
    var w := HashWithdrawals(k, b);
    var o := HashChangeOutputs(k, b);
    HashAllConcat(k, DepositLeaves(b), Map(WithdrawalLeaf, b.withdrawals));
    HashAllConcat(k, DepositLeaves(b) + Map(WithdrawalLeaf, b.withdrawals), Map(EncOutput, b.withdrawalOutputs));
    assert leaves == TxHashes(b.txs) && d + w + o == HashAll(k, LeafStrings(b));
    leaves := leaves + (d + w + o);
    root := RootLoop(k, leaves);
  }

  // ---- What equal roots mean for blocks ----

  ghost predicate SameSizes(a: Block, b: Block) {
    && |a.txs| == |b.txs| && |a.deposits| == |b.deposits| && |a.withdrawals| == |b.withdrawals|
    && |a.depositOutputs| == |b.depositOutputs| && |a.withdrawalOutputs| == |b.withdrawalOutputs|
  }

  /** The transaction hashes, the deposits with their outputs, the withdrawals up to the
      change key, and the change outputs agree. */
  ghost predicate SameCommitted(a: Block, b: Block)
    requires SameSizes(a, b)
  {
    && TxHashes(a.txs) == TxHashes(b.txs)
    && a.deposits == b.deposits
    && (forall i :: 0 <= i < |a.deposits| ==> OutputOf(a, i) == OutputOf(b, i))
    && (forall i :: 0 <= i < |a.withdrawals| ==> a.withdrawals[i].(changeKey := ZERO_KEY) == b.withdrawals[i].(changeKey := ZERO_KEY))
    && a.withdrawalOutputs == b.withdrawalOutputs
  }

  /** Every string hashed to compute the root of a block. */
  ghost function Hashed(k: Curve, b: Block): set<Bytes> {
    Elements(LeafStrings(b)) + Climbed(k, Leaves(k, b))
  }

  lemma TextInjective(s: Text, t: Text, x: Bytes, y: Bytes)
    requires EncText(s) + x == EncText(t) + y
    ensures s == t && x == y
  {
    PowersOf256();
    assert EncText(s) + x == EncU32(|s|) + (s + x) && EncText(t) + y == EncU32(|t|) + (t + y);
    LEInjective(|s|, |t|, U32_BYTES, s + x, t + y);
    KeyInjective(s, t, x, y);
  }

  lemma U64Injective(v: U64, w: U64, x: Bytes, y: Bytes)
    requires EncU64(v) + x == EncU64(w) + y
    ensures v == w && x == y
  {
    PowersOf256();
    LEInjective(v, w, U64_BYTES, x, y);
  }

  lemma KeyInjective(p: Bytes, q: Bytes, x: Bytes, y: Bytes)
    requires |p| == |q| && p + x == q + y
    ensures p == q && x == y
  {
    assert (p + x)[..|p|] == p && (q + y)[..|q|] == q && (p + x)[|p|..] == x && (q + y)[|q|..] == y;
  }

  lemma OutputInjective(o: OneTimeOutput, p: OneTimeOutput)
    requires EncOutput(o) == EncOutput(p)
    ensures o == p
  {
    KeyInjective(o.ephemeral, p.ephemeral, o.destination + EncU64(o.amount), p.destination + EncU64(p.amount));
    KeyInjective(o.destination, p.destination, EncU64(o.amount), EncU64(p.amount));
    assert EncU64(o.amount) + [] == EncU64(p.amount) + [];
    U64Injective(o.amount, p.amount, [], []);
  }

  /** Three amounts in front of a rest. */
  function Amounts3(x: U64, y: U64, z: U64, r: Bytes): Bytes {
    EncU64(x) + (EncU64(y) + (EncU64(z) + r))
  }

  lemma Amounts3Injective(x: U64, y: U64, z: U64, x': U64, y': U64, z': U64, r: Bytes, r': Bytes)
    requires Amounts3(x, y, z, r) == Amounts3(x', y', z', r')
    ensures x == x' && y == y' && z == z' && r == r'
  {
    U64Injective(x, x', EncU64(y) + (EncU64(z) + r), EncU64(y') + (EncU64(z') + r'));
    U64Injective(y, y', EncU64(z) + r, EncU64(z') + r');
    U64Injective(z, z', r, r');
  }

  lemma DepositLeafInjective(d: DepositReceipt, o: Option<OneTimeOutput>, e: DepositReceipt, p: Option<OneTimeOutput>)
    requires o.Some? == p.Some? && DepositLeaf(d, o) == DepositLeaf(e, p)
    ensures d == e && o == p
  {
    var x, y := d.viewPub + (d.spendPub + OutputPart(o)), e.viewPub + (e.spendPub + OutputPart(p));
    TextInjective(d.txHash, e.txHash, Amounts3(d.gross, d.fee, d.net, x), Amounts3(e.gross, e.fee, e.net, y));
    Amounts3Injective(d.gross, d.fee, d.net, e.gross, e.fee, e.net, x, y);
    KeyInjective(d.viewPub, e.viewPub, d.spendPub + OutputPart(o), e.spendPub + OutputPart(p));
    KeyInjective(d.spendPub, e.spendPub, OutputPart(o), OutputPart(p));
    if o.Some? { OutputInjective(o.value, p.value); }
  }

  lemma BurnPartInjective(w: WithdrawalReceipt, v: WithdrawalReceipt)
    requires BurnPart(w) == BurnPart(v)
    ensures w.keyImage == v.keyImage && w.burnedKey == v.burnedKey && w.burnC0 == v.burnC0 && w.burnS == v.burnS
  {
    KeyInjective(w.keyImage, v.keyImage, w.burnedKey + (w.burnC0 + w.burnS), v.burnedKey + (v.burnC0 + v.burnS));
    KeyInjective(w.burnedKey, v.burnedKey, w.burnC0 + w.burnS, v.burnC0 + v.burnS);
    KeyInjective(w.burnC0, v.burnC0, w.burnS, v.burnS);
  }

  lemma WithdrawalLeafInjective(w: WithdrawalReceipt, v: WithdrawalReceipt)
    requires WithdrawalLeaf(w) == WithdrawalLeaf(v)
    ensures w.(changeKey := ZERO_KEY) == v.(changeKey := ZERO_KEY)
  {
    var x, y := EncText(w.destination) + BurnPart(w), EncText(v.destination) + BurnPart(v);
    TextInjective(w.orderId, v.orderId, Amounts3(w.gross, w.fee, w.net, x), Amounts3(v.gross, v.fee, v.net, y));
    Amounts3Injective(w.gross, w.fee, w.net, v.gross, v.fee, v.net, x, y);
    TextInjective(w.destination, v.destination, BurnPart(w), BurnPart(v));
    BurnPartInjective(w, v);
  }

  lemma LeafStringsDetermine(a: Block, b: Block)
    requires SameSizes(a, b) && TxHashes(a.txs) == TxHashes(b.txs) && LeafStrings(a) == LeafStrings(b)
    ensures SameCommitted(a, b)
  {
    hide DepositLeaf, WithdrawalLeaf, EncOutput;
    var d, w := |a.deposits|, |a.withdrawals|;
    forall i | 0 <= i < d ensures a.deposits[i] == b.deposits[i] && OutputOf(a, i) == OutputOf(b, i) {
      assert LeafStrings(a)[i] == LeafStrings(b)[i];
      DepositLeafInjective(a.deposits[i], OutputOf(a, i), b.deposits[i], OutputOf(b, i));
    }
    forall i | 0 <= i < w ensures a.withdrawals[i].(changeKey := ZERO_KEY) == b.withdrawals[i].(changeKey := ZERO_KEY) {
      assert LeafStrings(a)[d + i] == LeafStrings(b)[d + i];
      WithdrawalLeafInjective(a.withdrawals[i], b.withdrawals[i]);
    }
    forall i | 0 <= i < |a.withdrawalOutputs| ensures a.withdrawalOutputs[i] == b.withdrawalOutputs[i] {
      assert LeafStrings(a)[d + w + i] == LeafStrings(b)[d + w + i];
      OutputInjective(a.withdrawalOutputs[i], b.withdrawalOutputs[i]);
    }
  }

  lemma CommittedDetermines(a: Block, b: Block)
    requires SameSizes(a, b) && SameCommitted(a, b)
    ensures LeafStrings(a) == LeafStrings(b)
  {
    forall i | 0 <= i < |a.withdrawals| ensures WithdrawalLeaf(a.withdrawals[i]) == WithdrawalLeaf(b.withdrawals[i]) {
      assert a.withdrawals[i].(changeKey := ZERO_KEY) == b.withdrawals[i].(changeKey := ZERO_KEY);
    }
    assert DepositLeaves(a) == DepositLeaves(b);
    assert Map(WithdrawalLeaf, a.withdrawals) == Map(WithdrawalLeaf, b.withdrawals);
  }

  /** Blocks whose leaf strings are equal agree on everything committed, and conversely. */
  lemma LeafStringsCommit(a: Block, b: Block)
    requires SameSizes(a, b)
    ensures TxHashes(a.txs) == TxHashes(b.txs) && LeafStrings(a) == LeafStrings(b) <==> SameCommitted(a, b)
  {
    hide LeafStrings;
    if TxHashes(a.txs) == TxHashes(b.txs) && LeafStrings(a) == LeafStrings(b) { LeafStringsDetermine(a, b); }
    if SameCommitted(a, b) { CommittedDetermines(a, b); }
  }

  /** Binding: blocks with equal section sizes have equal roots if and only if they agree on
      everything committed, unless computing the two roots hashed two different strings to
      one value. */
  lemma MerkleBinding(k: Curve, a: Block, b: Block)
    requires SameSizes(a, b)
    ensures (MerkleRoot(k, a) == MerkleRoot(k, b) <==> SameCommitted(a, b)) || Collide(k, Hashed(k, a), Hashed(k, b))
  {
    LeafStringsCommit(a, b);
    if MerkleRoot(k, a) == MerkleRoot(k, b) && !SameCommitted(a, b) {
      var la, lb := Leaves(k, a), Leaves(k, b);
      RootBinds(k, la, lb);
      if la == lb {
        LeafCollision(k, a, b);
        CollideMonotone(k, Elements(LeafStrings(a)), Elements(LeafStrings(b)), Hashed(k, a), Hashed(k, b));
      } else {
        CollideMonotone(k, Climbed(k, la), Climbed(k, lb), Hashed(k, a), Hashed(k, b));
      }
    }
  }

  lemma LeafCollision(k: Curve, a: Block, b: Block)
    requires SameSizes(a, b) && Leaves(k, a) == Leaves(k, b) && !SameCommitted(a, b)
    ensures Collide(k, Elements(LeafStrings(a)), Elements(LeafStrings(b)))
  {
    LeafStringsCommit(a, b);
    var t := |a.txs|;
    assert TxHashes(a.txs) == Leaves(k, a)[..t] == Leaves(k, b)[..t] == TxHashes(b.txs);
    var x, y := LeafStrings(a), LeafStrings(b);
    var i :| 0 <= i < |x| && x[i] != y[i];
    assert k.hash(x[i]) == Leaves(k, a)[t + i] == Leaves(k, b)[t + i] == k.hash(y[i]);
    assert x[i] in Elements(x) && y[i] in Elements(y);
  }
}
