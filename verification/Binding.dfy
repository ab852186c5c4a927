/** What hashes and proofs commit to: two blocks, transactions, signatures or burn proofs that
    agree in the hash or in the proof agree in what they stand for, or two different strings
    that were hashed to one value can be named (src/ring_signature.cpp:36-91, 233-387,
    src/block.cpp:285-310, src/node.cpp:679-1091). */
module Binding {
  import opened Types
  import opened LittleEndian
  import opened CurveModel
  import opened HeaderModel
  import opened VaultModel
  import opened Merkle
  import opened Ledger
  import opened Walks
  import Ring

  // ---- The strings ----

  /** Destination, ephemeral key and amount of each output, in order. */
  function OutputsString(outs: seq<OneTimeOutput>): (b: Bytes)
    ensures |b| == 72 * |outs|
  {
    if outs == [] then [] else
    var o := outs[|outs| - 1];
    OutputsString(outs[..|outs| - 1]) + (o.destination + (o.ephemeral + EncU64(o.amount)))
  }

  function KeysString(keys: seq<Key256>): (b: Bytes)
    ensures |b| == 32 * |keys|
  {
    if keys == [] then [] else KeysString(keys[..|keys| - 1]) + keys[|keys| - 1]
  }

  /** What the hash of a transaction stands for: its outputs, public fee, ring and key image. */
  function TxString(tx: ShieldedTransaction): Bytes {
    EncU32(|tx.outputs| % TWO_32) + (OutputsString(tx.outputs) + (EncU64(tx.publicFee)
    + (EncU32(|tx.ringSig.ring| % TWO_32) + (KeysString(tx.ringSig.ring) + tx.ringSig.keyImage))))
  }

  /** What the signatures of a header stand for. */
  function SigningString(h: Header): Bytes {
    EncU32(h.version) + (EncU64(h.height) + (h.prevHash + (h.merkleRoot + (EncU64(h.timestamp) + EncU64(h.nonce)))))
  }

  /** What a burn proof stands for. */
  function BurnString(w: WithdrawalReceipt): Bytes {
    Ring.BURN_PROOF_V2 + (w.orderId + (EncU64(w.gross) + (w.destination + w.changeKey)))
  }

  lemma Regroup(a: Bytes, b: Bytes, c: Bytes, d: Bytes, e: Bytes, f: Bytes)
    ensures a + b + c + d + e + f == a + (b + (c + (d + (e + f))))
  {
  }

  lemma Regroup5(a: Bytes, b: Bytes, c: Bytes, d: Bytes, e: Bytes)
    ensures a + b + c + d + e == a + (b + (c + (d + e)))
  {
  }

  lemma {:induction false} OutputsAsHashed(outs: seq<OneTimeOutput>)
    ensures Ring.OutputsHashBytes(outs) == OutputsString(outs)
  {
    if outs != [] {
      OutputsAsHashed(outs[..|outs| - 1]);
      var o := outs[|outs| - 1];
      assert o.destination + o.ephemeral + EncU64(o.amount) == o.destination + (o.ephemeral + EncU64(o.amount));
    }
  }

  lemma {:induction false} KeysAsHashed(keys: seq<Key256>)
    ensures Ring.JoinKeys(keys) == KeysString(keys)
  {
    if keys != [] { KeysAsHashed(keys[..|keys| - 1]); }
  }

  lemma CanonicalIsOfString(k: Curve, tx: ShieldedTransaction)
    ensures Ring.CanonicalTxHash(k, tx.outputs, tx.publicFee, tx.ringSig.ring, tx.ringSig.keyImage) == k.hash(TxString(tx))
  {
    OutputsAsHashed(tx.outputs);
    KeysAsHashed(tx.ringSig.ring);
    Regroup(EncU32(|tx.outputs| % TWO_32), OutputsString(tx.outputs), EncU64(tx.publicFee),
            EncU32(|tx.ringSig.ring| % TWO_32), KeysString(tx.ringSig.ring), tx.ringSig.keyImage);
  }

  lemma SigningIsOfString(k: Curve, h: Header)
    ensures SigningHash(k, h) == k.hash(SigningString(h))
  {
    Regroup(EncU32(h.version), EncU64(h.height), h.prevHash, h.merkleRoot, EncU64(h.timestamp), EncU64(h.nonce));
  }

  lemma BurnIsOfString(k: Curve, w: WithdrawalReceipt)
    ensures BurnMessageOf(k, w) == k.hash(BurnString(w))
  {
    Regroup5(Ring.BURN_PROOF_V2, w.orderId, EncU64(w.gross), w.destination, w.changeKey);
  }

  // ---- The strings determine their parts ----

  lemma U32Injective(v: U32, w: U32, x: Bytes, y: Bytes)
    requires EncU32(v) + x == EncU32(w) + y
    ensures v == w && x == y
  {
    PowersOf256();
    LEInjective(v, w, U32_BYTES, x, y);
  }

  lemma OutputStringBinds(o: OneTimeOutput, p: OneTimeOutput)
    requires o.destination + (o.ephemeral + EncU64(o.amount)) == p.destination + (p.ephemeral + EncU64(p.amount))
    ensures o == p
  {
    KeyInjective(o.destination, p.destination, o.ephemeral + EncU64(o.amount), p.ephemeral + EncU64(p.amount));
    KeyInjective(o.ephemeral, p.ephemeral, EncU64(o.amount), EncU64(p.amount));
    U64Tells(o.amount, p.amount);
  }

  lemma {:induction false} OutputsStringBinds(a: seq<OneTimeOutput>, b: seq<OneTimeOutput>)
    requires |a| == |b| && OutputsString(a) == OutputsString(b)
    ensures a == b
  {
    if a != [] {
      var n := |a| - 1;
      KeyInjective(OutputsString(a[..n]), OutputsString(b[..n]),
                   a[n].destination + (a[n].ephemeral + EncU64(a[n].amount)),
                   b[n].destination + (b[n].ephemeral + EncU64(b[n].amount)));
      OutputStringBinds(a[n], b[n]);
      OutputsStringBinds(a[..n], b[..n]);
      assert a == a[..n] + [a[n]] && b == b[..n] + [b[n]];
    }
  }

  lemma {:induction false} KeysStringBinds(a: seq<Key256>, b: seq<Key256>)
    requires |a| == |b| && KeysString(a) == KeysString(b)
    ensures a == b
  {
    if a != [] {
      var n := |a| - 1;
      KeyInjective(KeysString(a[..n]), KeysString(b[..n]), a[n], b[n]);
      KeysStringBinds(a[..n], b[..n]);
      assert a == a[..n] + [a[n]] && b == b[..n] + [b[n]];
    }
  }

  /** Fewer than 2^32 outputs and ring members, as many as the hashed counts can say. */
  predicate Counted(tx: ShieldedTransaction) {
    |tx.outputs| < TWO_32 && |tx.ringSig.ring| < TWO_32
  }

  /** The parts of a transaction that its hash covers. */
  predicate SameSpend(x: ShieldedTransaction, y: ShieldedTransaction) {
    && x.outputs == y.outputs && x.publicFee == y.publicFee
    && x.ringSig.ring == y.ringSig.ring && x.ringSig.keyImage == y.ringSig.keyImage
  }

  lemma TxStringBinds(x: ShieldedTransaction, y: ShieldedTransaction)
    requires Counted(x) && Counted(y) && TxString(x) == TxString(y)
    ensures SameSpend(x, y)
  {
    var rx, ry := x.ringSig, y.ringSig;
    var lastX, lastY := KeysString(rx.ring) + rx.keyImage, KeysString(ry.ring) + ry.keyImage;
    var ringX, ringY := EncU32(|rx.ring| % TWO_32) + lastX, EncU32(|ry.ring| % TWO_32) + lastY;
    var feeX, feeY := EncU64(x.publicFee) + ringX, EncU64(y.publicFee) + ringY;
    hide OutputsString, KeysString, EncU32, EncU64;
    U32Injective(|x.outputs| % TWO_32, |y.outputs| % TWO_32, OutputsString(x.outputs) + feeX, OutputsString(y.outputs) + feeY);
    SmallCount(|x.outputs|, |y.outputs|);
    KeyInjective(OutputsString(x.outputs), OutputsString(y.outputs), feeX, feeY);
    OutputsStringBinds(x.outputs, y.outputs);
    U64Injective(x.publicFee, y.publicFee, ringX, ringY);
    U32Injective(|rx.ring| % TWO_32, |ry.ring| % TWO_32, lastX, lastY);
    SmallCount(|rx.ring|, |ry.ring|);
    KeyInjective(KeysString(rx.ring), KeysString(ry.ring), rx.keyImage, ry.keyImage);
    KeysStringBinds(rx.ring, ry.ring);
  }

  lemma SmallCount(m: nat, n: nat)
    requires m < TWO_32 && n < TWO_32 && m % TWO_32 == n % TWO_32
    ensures m == n
  {
  }

  /** The signed fields of a header. */
  predicate SameHeading(g: Header, h: Header) {
    && g.version == h.version && g.height == h.height && g.prevHash == h.prevHash && g.merkleRoot == h.merkleRoot
    && g.timestamp == h.timestamp && g.nonce == h.nonce
  }

  lemma SigningStringBinds(g: Header, h: Header)
    requires SigningString(g) == SigningString(h)
    ensures SameHeading(g, h)
  {
    var timesG, timesH := EncU64(g.timestamp) + EncU64(g.nonce), EncU64(h.timestamp) + EncU64(h.nonce);
    hide EncU32, EncU64;
    U32Injective(g.version, h.version, EncU64(g.height) + (g.prevHash + (g.merkleRoot + timesG)),
                 EncU64(h.height) + (h.prevHash + (h.merkleRoot + timesH)));
    U64Injective(g.height, h.height, g.prevHash + (g.merkleRoot + timesG), h.prevHash + (h.merkleRoot + timesH));
    KeyInjective(g.prevHash, h.prevHash, g.merkleRoot + timesG, h.merkleRoot + timesH);
    KeyInjective(g.merkleRoot, h.merkleRoot, timesG, timesH);
    U64Injective(g.timestamp, h.timestamp, EncU64(g.nonce), EncU64(h.nonce));
    U64Tells(g.nonce, h.nonce);
  }

  /** The parts of a withdrawal that its burn proof covers. */
  predicate SameBurn(v: WithdrawalReceipt, w: WithdrawalReceipt) {
    v.orderId == w.orderId && v.gross == w.gross && v.destination == w.destination && v.changeKey == w.changeKey
  }

  lemma BurnStringBinds(v: WithdrawalReceipt, w: WithdrawalReceipt)
    requires |v.destination| == |w.destination| && BurnString(v) == BurnString(w)
    ensures SameBurn(v, w)
  {
    var toV, toW := v.destination + v.changeKey, w.destination + w.changeKey;
    var paysV, paysW := EncU64(v.gross) + toV, EncU64(w.gross) + toW;
    hide EncU64;
    KeyInjective(Ring.BURN_PROOF_V2, Ring.BURN_PROOF_V2, v.orderId + paysV, w.orderId + paysW);
    assert |v.orderId + paysV| == |w.orderId + paysW|;
    KeyInjective(v.orderId, w.orderId, paysV, paysW);
    U64Injective(v.gross, w.gross, toV, toW);
    KeyInjective(v.destination, w.destination, v.changeKey, w.changeKey);
  }

  /** Neither the order id nor the destination carries its length, so destinations of
      different lengths can be mistaken: the address check is what makes a burn proof binding. */
  lemma BurnStringsCoincide(v: WithdrawalReceipt, w: WithdrawalReceipt)
    requires v.orderId == [] && v.gross == 0 && v.destination == [0]
    requires w.orderId == [0] && w.gross == 0 && w.destination == [] && v.changeKey == w.changeKey
    ensures BurnString(v) == BurnString(w) && !SameBurn(v, w)
  {
    var z := EncU64(0);
    forall i | 0 <= i < 8 ensures z[i] == 0 { ZeroBytes(U64_BYTES, i); }
    assert [] + (z + ([0] + v.changeKey)) == [0] + (z + ([] + v.changeKey)) by {
      assert z + [0] == [0] + z;
      assert z + ([0] + v.changeKey) == (z + [0]) + v.changeKey;
    }
  }

  lemma {:induction false} ZeroBytes(n: nat, i: nat)
    requires i < n
    ensures LE(0, n)[i] == 0
  {
    if i > 0 { ZeroBytes(n - 1, i - 1); }
  }

  // ---- Transactions ----

  /** An accepted transaction carries the hash of its own parts. */
  lemma AcceptedTxHash(p: Params, s: NodeState, b: Block, i: nat)
    requires ValidBlock(p, s, b) && i < |b.txs|
    ensures b.txs[i].txHash == p.k.hash(TxString(b.txs[i]))
  {
    hide AuthOk, DepositsOk, WithdrawalsOk, MerkleRoot, CanonicalAll, NextVault, Ring.CanonicalTxHash, TxString;
    assert TxOk(p, s, b.header.height, b.txs[i]);
    CanonicalIsOfString(p.k, b.txs[i]);
  }

  /** A transaction hash is accepted for one set of outputs, fee, ring and key image only: two
      accepted transactions with one hash agree in all of them, or the two strings written out
      in `TxString` are different and have one hash. */
  lemma TxHashBinds(p: Params, q: Params, s: NodeState, t: NodeState, a: Block, b: Block, i: nat, j: nat)
    requires p.k == q.k && ValidBlock(p, s, a) && ValidBlock(q, t, b) && i < |a.txs| && j < |b.txs|
    requires Counted(a.txs[i]) && Counted(b.txs[j]) && a.txs[i].txHash == b.txs[j].txHash
    ensures var x, y := a.txs[i], b.txs[j];
      || (x.outputs == y.outputs && x.publicFee == y.publicFee
          && x.ringSig.ring == y.ringSig.ring && x.ringSig.keyImage == y.ringSig.keyImage)
      || (TxString(x) != TxString(y) && p.k.hash(TxString(x)) == p.k.hash(TxString(y)))
  {
    hide ValidBlock, TxString;
    AcceptedTxHash(p, s, a, i);
    AcceptedTxHash(q, t, b, j);
    if TxString(a.txs[i]) == TxString(b.txs[j]) { TxStringBinds(a.txs[i], b.txs[j]); }
  }

  // ---- Ring signatures ----

  /** The points L = s G + c P and R = s H(P) + c I. */
  function Points(k: Curve, image: KeyImage, s: Key256, c: Key256, p: Key256): Option<(Key256, Key256)> {
    match (k.mul(c, p), Ring.HashToPoint(k, p), k.mul(c, image))
    case (Some(cp), Some(hp), Some(ci)) =>
      (match (k.add(k.base(s), cp), k.mul(s, hp))
       case (Some(l), Some(shp)) => (match k.add(shp, ci) case Some(r) => Some((l, r)) case None => None)
       case _ => None)
    case _ => None
  }

  /** A step of the verifier hashes the message and both points, and fails where one cannot be
      computed. */
  lemma StepHashes(k: Curve, m: Hash256, image: KeyImage, s: Key256, c: Key256, p: Key256)
    ensures var lr := Points(k, image, s, c, p);
      Ring.Step(k, true, m, image, s, c, p)
      == if k.baseOk(s) && lr.Some? then Some(HashScalar(k, m + lr.value.0 + lr.value.1)) else None
  {
  }

  /** The challenge after member i is the hash of the message and of the points at member i. */
  ghost predicate Link(k: Curve, m: Hash256, sig: RingSignature, c: seq<Key256>, i: nat)
    requires i < |sig.ring| == |sig.responses| && |c| == |sig.ring| + 1
  {
    var lr := Points(k, sig.keyImage, sig.responses[i], c[i], sig.ring[i]);
    k.baseOk(sig.responses[i]) && lr.Some? && c[i + 1] == HashScalar(k, m + lr.value.0 + lr.value.1)
  }

  /** Challenges that go round the ring and end where they began. */
  ghost predicate ClosedRing(k: Curve, m: Hash256, sig: RingSignature, c: seq<Key256>)
    requires |sig.responses| == |sig.ring|
  {
    var n := |sig.ring|;
    |c| == n + 1 && c[0] == sig.c0 && c[n] == sig.c0 && forall i :: 0 <= i < n ==> Link(k, m, sig, c, i)
  }

  /** The states of the verifier's walk are linked. */
  lemma WalkLinks(k: Curve, m: Hash256, sig: RingSignature, i: nat, c: Key256)
    requires i < |sig.ring| == |sig.responses|
    requires var f := Ring.Member(k, true, m, sig.keyImage, sig.ring, sig.responses); Close(f, |sig.ring|, 0, sig.c0, i) == Some(c)
    ensures var f := Ring.Member(k, true, m, sig.keyImage, sig.ring, sig.responses);
      var lr := Points(k, sig.keyImage, sig.responses[i], c, sig.ring[i]);
      Close(f, |sig.ring|, 0, sig.c0, i + 1)
      == if k.baseOk(sig.responses[i]) && lr.Some? then Some(HashScalar(k, m + lr.value.0 + lr.value.1)) else None
  {
    hide Ring.Step, Points;
    var f := Ring.Member(k, true, m, sig.keyImage, sig.ring, sig.responses);
    CloseSplit(f, |sig.ring|, 0, sig.c0, i, 1);
    StepHashes(k, m, sig.keyImage, sig.responses[i], c, sig.ring[i]);
    assert Close(f, |sig.ring|, i, c, 1) == f(i, c);
  }

  lemma {:induction false} RingWalks(k: Curve, m: Hash256, sig: RingSignature, c: seq<Key256>, i: nat)
    requires |sig.responses| == |sig.ring| && ClosedRing(k, m, sig, c) && i <= |sig.ring|
    ensures Close(Ring.Member(k, true, m, sig.keyImage, sig.ring, sig.responses), |sig.ring|, 0, sig.c0, i) == Some(c[i])
  {
    hide Ring.Step, Points;
    if i > 0 {
      RingWalks(k, m, sig, c, i - 1);
      assert Link(k, m, sig, c, i - 1);
      WalkLinks(k, m, sig, i - 1, c[i - 1]);
    }
  }

  lemma WalkRings(k: Curve, m: Hash256, sig: RingSignature)
    requires |sig.responses| == |sig.ring|
    requires Close(Ring.Member(k, true, m, sig.keyImage, sig.ring, sig.responses), |sig.ring|, 0, sig.c0, |sig.ring|) == Some(sig.c0)
    requires |sig.ring| >= 1
    ensures exists c: seq<Key256> :: ClosedRing(k, m, sig, c)
  {
    hide Ring.Step, Points;
    var n, f := |sig.ring|, Ring.Member(k, true, m, sig.keyImage, sig.ring, sig.responses);
    forall i | 0 <= i <= n ensures Close(f, n, 0, sig.c0, i).Some? { CloseShorter(f, n, 0, sig.c0, i, n); }
    var c: seq<Key256> := seq(n + 1, i requires 0 <= i <= n => Close(f, n, 0, sig.c0, i).value);
    forall i | 0 <= i < n ensures Link(k, m, sig, c, i) { WalkLinks(k, m, sig, i, c[i]); }
    assert ClosedRing(k, m, sig, c);
  }

  /** What a ring signature is, without the verifier's loop: at least one key, as many responses,
      valid and distinct points, an image that 8 does not take to the identity, and challenges that
      go round the ring, each the hash of the message and the two points before it, and end where
      they began. The verifier accepts exactly these. */
  lemma VerifyExact(k: Curve, m: Hash256, sig: RingSignature)
    ensures Ring.Verify(k, m, sig)
      <==> 1 <= |sig.ring| == |sig.responses| && k.valid(sig.keyImage) && (forall key :: key in sig.ring ==> k.valid(key))
           && (forall i, j :: 0 <= i < j < |sig.ring| ==> sig.ring[i] != sig.ring[j])
           && k.mul(EIGHT, sig.keyImage).Some? && k.mul(EIGHT, sig.keyImage) != Some(IDENTITY)
           && exists c: seq<Key256> :: ClosedRing(k, m, sig, c)
  {
    hide ClosedRing, Ring.Member;
    if 1 <= |sig.ring| == |sig.responses| {
      if c: seq<Key256> :| ClosedRing(k, m, sig, c) { ReachesEnd(k, m, sig, c); }
      if Ring.Verify(k, m, sig) { WalkRings(k, m, sig); }
    }
    assert forall key :: key in sig.ring ==> exists i :: 0 <= i < |sig.ring| && sig.ring[i] == key;
  }

  lemma ReachesEnd(k: Curve, m: Hash256, sig: RingSignature, c: seq<Key256>)
    requires |sig.responses| == |sig.ring| && ClosedRing(k, m, sig, c)
    ensures Close(Ring.Member(k, true, m, sig.keyImage, sig.ring, sig.responses), |sig.ring|, 0, sig.c0, |sig.ring|) == Some(sig.c0)
  {
    RingWalks(k, m, sig, c, |sig.ring|);
  }

  /** The challenge the verifier has reached at the last member of the ring. */
  function LastChallenge(k: Curve, m: Hash256, sig: RingSignature): Option<Key256>
    requires |sig.ring| >= 1
  {
    Close(Ring.Member(k, true, m, sig.keyImage, sig.ring, sig.responses), |sig.ring|, 0, sig.c0, |sig.ring| - 1)
  }

  /** The string hashed at the last member: the message and the two points computed there. */
  function ClosingString(k: Curve, m: Hash256, sig: RingSignature): Option<Bytes>
    requires 1 <= |sig.ring| == |sig.responses|
  {
    var n := |sig.ring| - 1;
    match LastChallenge(k, m, sig) case None => None case Some(c) =>
      match Points(k, sig.keyImage, sig.responses[n], c, sig.ring[n]) case None => None case Some((l, r)) => Some(m + l + r)
  }

  /** A signature verifies only if the string hashed at its last member gives its first challenge. */
  lemma VerifiedCloses(k: Curve, m: Hash256, sig: RingSignature)
    requires Ring.Verify(k, m, sig)
    ensures 1 <= |sig.ring| == |sig.responses|
    ensures var closing := ClosingString(k, m, sig);
      closing.Some? && HashScalar(k, closing.value) == sig.c0 && |closing.value| == 96 && closing.value[..32] == m
  {
    hide Ring.Step, Points;
    var f, n := Ring.Member(k, true, m, sig.keyImage, sig.ring, sig.responses), |sig.ring|;
    CloseShorter(f, n, 0, sig.c0, n - 1, n);
    WalkLinks(k, m, sig, n - 1, LastChallenge(k, m, sig).value);
  }

  /** A signature verifies for one message only: for two different messages, the strings hashed
      at the last member are different and reduce to one scalar. */
  lemma SignatureBindsMessage(k: Curve, m: Hash256, m': Hash256, sig: RingSignature)
    requires Ring.Verify(k, m, sig) && Ring.Verify(k, m', sig)
    ensures 1 <= |sig.ring| == |sig.responses|
    ensures m == m' || (var x, y := ClosingString(k, m, sig), ClosingString(k, m', sig);
      x.Some? && y.Some? && x.value != y.value && HashScalar(k, x.value) == HashScalar(k, y.value) == sig.c0)
  {
    hide Ring.Verify, ClosingString;
    VerifiedCloses(k, m, sig);
    VerifiedCloses(k, m', sig);
  }

  // ---- Burn proofs ----

  /** The string a burn proof hashes. */
  function ProofString(k: Curve, m: Hash256, p: Key256, image: KeyImage, c0: Key256, s: Key256): Option<Bytes> {
    match Points(k, image, s, c0, p) case None => None case Some((l, r)) => Some(m + l + r)
  }

  /** The verifier of burn proofs accepts exactly valid points, an image that 8 does not take to
      the identity, and a challenge that is the hash of the message and the two points. */
  lemma VerifyBurnExact(k: Curve, m: Hash256, p: Key256, image: KeyImage, c0: Key256, s: Key256)
    ensures Ring.VerifyBurn(k, m, p, image, c0, s)
      <==> k.valid(p) && k.valid(image) && k.mul(EIGHT, image).Some? && k.mul(EIGHT, image) != Some(IDENTITY)
           && k.baseOk(s) && Points(k, image, s, c0, p).Some?
           && c0 == HashScalar(k, m + Points(k, image, s, c0, p).value.0 + Points(k, image, s, c0, p).value.1)
  {
    StepHashes(k, m, image, s, c0, p);
    hide Ring.Step, Points;
  }

  lemma VerifiedBurn(k: Curve, m: Hash256, p: Key256, image: KeyImage, c0: Key256, s: Key256)
    requires Ring.VerifyBurn(k, m, p, image, c0, s)
    ensures var x := ProofString(k, m, p, image, c0, s);
      x.Some? && HashScalar(k, x.value) == c0 && |x.value| == 96 && x.value[..32] == m
  {
    StepHashes(k, m, image, s, c0, p);
  }

  lemma BurnProofBindsMessage(k: Curve, m: Hash256, m': Hash256, p: Key256, image: KeyImage, c0: Key256, s: Key256)
    requires Ring.VerifyBurn(k, m, p, image, c0, s) && Ring.VerifyBurn(k, m', p, image, c0, s)
    ensures m == m' || (var x, y := ProofString(k, m, p, image, c0, s), ProofString(k, m', p, image, c0, s);
      x.Some? && y.Some? && x.value != y.value && HashScalar(k, x.value) == HashScalar(k, y.value) == c0)
  {
    hide Ring.VerifyBurn, ProofString;
    VerifiedBurn(k, m, p, image, c0, s);
    VerifiedBurn(k, m', p, image, c0, s);
  }

  /** The string hashed to check the burn proof of a receipt. */
  function ReceiptProof(k: Curve, w: WithdrawalReceipt): Option<Bytes> {
    ProofString(k, BurnMessageOf(k, w), w.burnedKey, w.keyImage, w.burnC0, w.burnS)
  }

  /** Two withdrawals carry one burn proof. */
  predicate SameProof(v: WithdrawalReceipt, w: WithdrawalReceipt) {
    v.burnedKey == w.burnedKey && v.keyImage == w.keyImage && v.burnC0 == w.burnC0 && v.burnS == w.burnS
  }

  /** Different strings with one hash, or with one reduced hash. */
  ghost predicate BurnCollision(k: Curve, v: WithdrawalReceipt, w: WithdrawalReceipt) {
    || (BurnString(v) != BurnString(w) && k.hash(BurnString(v)) == k.hash(BurnString(w)))
    || (var x, y := ReceiptProof(k, v), ReceiptProof(k, w);
        x.Some? && y.Some? && x.value != y.value && HashScalar(k, x.value) == HashScalar(k, y.value))
  }

  /** An accepted withdrawal has a destination of 42 bytes and a proof that verifies. */
  lemma AcceptedBurn(p: Params, s: NodeState, b: Block, i: nat)
    requires ValidBlock(p, s, b) && i < |b.withdrawals|
    ensures var w := b.withdrawals[i];
      |w.destination| == 42 && Ring.VerifyBurn(p.k, BurnMessageOf(p.k, w), w.burnedKey, w.keyImage, w.burnC0, w.burnS)
  {
    hide AuthOk, DepositsOk, TxsOk, MerkleRoot, CanonicalAll, NextVault, Ring.VerifyBurn;
    assert WithdrawalOk(p, s, b.withdrawals[i]);
  }

  /** A burn proof authorises one withdrawal: two accepted ones with the same proof name the same
      order, amount, destination and change key, or two different strings that were hashed
      collide. */
  lemma BurnProofBinds(p: Params, q: Params, s: NodeState, t: NodeState, a: Block, b: Block, i: nat, j: nat)
    requires p.k == q.k && ValidBlock(p, s, a) && ValidBlock(q, t, b) && i < |a.withdrawals| && j < |b.withdrawals|
    requires SameProof(a.withdrawals[i], b.withdrawals[j])
    ensures SameBurn(a.withdrawals[i], b.withdrawals[j]) || BurnCollision(p.k, a.withdrawals[i], b.withdrawals[j])
  {
    hide ValidBlock, BurnString, Ring.VerifyBurn, ProofString, BurnMessageOf;
    var v, w := a.withdrawals[i], b.withdrawals[j];
    AcceptedBurn(p, s, a, i);
    AcceptedBurn(q, t, b, j);
    BurnIsOfString(p.k, v);
    BurnIsOfString(p.k, w);
    if BurnString(v) == BurnString(w) {
      BurnStringBinds(v, w);
    } else {
      BurnProofBindsMessage(p.k, BurnMessageOf(p.k, v), BurnMessageOf(p.k, w), v.burnedKey, v.keyImage, v.burnC0, v.burnS);
    }
  }

  // ---- Blocks ----

  /** Every string hashed on the way from a block to the hash that its validators sign. */
  ghost function Strings(k: Curve, b: Block): set<Bytes> {
    {SigningString(b.header)} + Hashed(k, b) + (set tx | tx in b.txs :: TxString(tx)) + (set w | w in b.withdrawals :: BurnString(w))
  }

  /** Two withdrawals, one of each block, whose proofs hash different strings to one scalar. */
  ghost predicate ProofsCollide(k: Curve, a: Block, b: Block) {
    exists v, w :: v in a.withdrawals && w in b.withdrawals && BurnCollision(k, v, w)
  }

  /** What a signature under a header covers: all of the block but the signatures themselves,
      the challenges and responses of ring signatures and the texts of the timestamps. */
  ghost predicate SameSigned(a: Block, b: Block) {
    && SameHeading(a.header, b.header)
    && |a.txs| == |b.txs| && (forall i :: 0 <= i < |a.txs| ==> SameSpend(a.txs[i], b.txs[i]))
    && a.deposits == b.deposits && a.depositOutputs == b.depositOutputs
    && a.withdrawals == b.withdrawals && a.withdrawalOutputs == b.withdrawalOutputs
  }

  lemma HeadingBinds(k: Curve, a: Block, b: Block)
    requires SigningHash(k, a.header) == SigningHash(k, b.header)
    ensures SameHeading(a.header, b.header) || Collide(k, Strings(k, a), Strings(k, b))
  {
    SigningIsOfString(k, a.header);
    SigningIsOfString(k, b.header);
    if SigningString(a.header) == SigningString(b.header) {
      SigningStringBinds(a.header, b.header);
    } else {
      assert SigningString(a.header) in Strings(k, a) && SigningString(b.header) in Strings(k, b);
    }
  }

  lemma RootsBind(p: Params, q: Params, s: NodeState, t: NodeState, a: Block, b: Block)
    requires p.k == q.k && ValidBlock(p, s, a) && ValidBlock(q, t, b) && SameSizes(a, b)
    requires a.header.merkleRoot == b.header.merkleRoot
    ensures SameCommitted(a, b) || Collide(p.k, Strings(p.k, a), Strings(p.k, b))
  {
    hide AuthOk, DepositsOk, TxsOk, WithdrawalsOk, CanonicalAll, NextVault, Hashed, MerkleRoot, SameCommitted, Collide;
    MerkleBinding(p.k, a, b);
    if Collide(p.k, Hashed(p.k, a), Hashed(p.k, b)) {
      CollideMonotone(p.k, Hashed(p.k, a), Hashed(p.k, b), Strings(p.k, a), Strings(p.k, b));
    }
  }

  lemma TxsBind(p: Params, q: Params, s: NodeState, t: NodeState, a: Block, b: Block, i: nat)
    requires p.k == q.k && ValidBlock(p, s, a) && ValidBlock(q, t, b) && SameSizes(a, b) && SameCommitted(a, b)
    requires i < |a.txs| && Counted(a.txs[i]) && Counted(b.txs[i])
    ensures SameSpend(a.txs[i], b.txs[i]) || Collide(p.k, Strings(p.k, a), Strings(p.k, b))
  {
    hide ValidBlock, TxString, Hashed;
    assert TxHashes(a.txs)[i] == TxHashes(b.txs)[i];
    TxHashBinds(p, q, s, t, a, b, i, i);
    assert a.txs[i] in a.txs && b.txs[i] in b.txs;
    assert TxString(a.txs[i]) in Strings(p.k, a) && TxString(b.txs[i]) in Strings(p.k, b);
  }

  lemma WithdrawalsBind(p: Params, q: Params, s: NodeState, t: NodeState, a: Block, b: Block, i: nat)
    requires p.k == q.k && ValidBlock(p, s, a) && ValidBlock(q, t, b) && SameSizes(a, b) && SameCommitted(a, b)
    requires i < |a.withdrawals|
    ensures a.withdrawals[i] == b.withdrawals[i] || ProofsCollide(p.k, a, b)
  {
    hide ValidBlock, BurnCollision;
    var v, w := a.withdrawals[i], b.withdrawals[i];
    assert v.(changeKey := ZERO_KEY) == w.(changeKey := ZERO_KEY);
    BurnProofBinds(p, q, s, t, a, b, i, i);
    assert v in a.withdrawals && w in b.withdrawals;
  }

  lemma DepositOutputsPaired(p: Params, s: NodeState, b: Block)
    requires ValidBlock(p, s, b)
    ensures |b.deposits| == |b.depositOutputs| && forall i :: 0 <= i < |b.deposits| ==> OutputOf(b, i) == Some(b.depositOutputs[i])
  {
    hide AuthOk, TxsOk, WithdrawalsOk, MerkleRoot, CanonicalAll, NextVault;
  }

  /** A signature covers the block: two accepted blocks of equal section sizes whose validators
      signed one hash agree in everything a signature covers, change keys included, or two
      different strings hashed on the way collide. */
  lemma SignatureCoversBlock(p: Params, q: Params, s: NodeState, t: NodeState, a: Block, b: Block)
    requires p.k == q.k && ValidBlock(p, s, a) && ValidBlock(q, t, b) && SameSizes(a, b)
    requires (forall tx :: tx in a.txs + b.txs ==> Counted(tx)) && SigningHash(p.k, a.header) == SigningHash(p.k, b.header)
    ensures SameSigned(a, b) || Collide(p.k, Strings(p.k, a), Strings(p.k, b)) || ProofsCollide(p.k, a, b)
  {
    hide ValidBlock, Strings, Collide, ProofsCollide, SigningHash, SameSpend, Counted;
    HeadingBinds(p.k, a, b);
    if SameHeading(a.header, b.header) && !Collide(p.k, Strings(p.k, a), Strings(p.k, b)) && !ProofsCollide(p.k, a, b) {
      RootsBind(p, q, s, t, a, b);
      DepositOutputsPaired(p, s, a);
      DepositOutputsPaired(q, t, b);
      forall i | 0 <= i < |a.txs| ensures SameSpend(a.txs[i], b.txs[i]) {
        assert a.txs[i] in a.txs + b.txs && b.txs[i] in a.txs + b.txs;
        TxsBind(p, q, s, t, a, b, i);
      }
      forall i | 0 <= i < |a.withdrawals| ensures a.withdrawals[i] == b.withdrawals[i] { WithdrawalsBind(p, q, s, t, a, b, i); }
      forall i | 0 <= i < |a.deposits| ensures a.depositOutputs[i] == b.depositOutputs[i] {
        assert OutputOf(a, i) == OutputOf(b, i);
      }
    }
  }
}
