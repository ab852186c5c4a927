/** Linkable ring signatures and burn proofs (src/ring_signature.cpp). */
module Ring {
  import opened Types
  import opened LittleEndian
  import opened CurveModel
  import opened Walks

  /** H_p(P), cleared of the cofactor; None is the exception. */
  function HashToPoint(k: Curve, pk: Key256): Option<Key256> {
    match k.fromUniform(k.hash(pk))
    case None => None
    case Some(raw) => k.mul(EIGHT, raw)
  }

  /** I = x H_p(P). */
  function KeyImageOf(k: Curve, x: Key256, pk: Key256): Option<KeyImage> {
    match HashToPoint(k, pk) case None => None case Some(hp) => k.mul(x, hp)
  }

  function Challenge(k: Curve, m: Hash256, l: Key256, r: Key256): Key256 {
    HashScalar(k, m + l + r)
  }

  function OutputHashBytes(out: OneTimeOutput): Bytes {
    out.destination + out.ephemeral + EncU64(out.amount)
  }

  function OutputsHashBytes(outs: seq<OneTimeOutput>): Bytes {
    if outs == [] then [] else OutputsHashBytes(outs[..|outs| - 1]) + OutputHashBytes(outs[|outs| - 1])
  }

  function JoinKeys(keys: seq<Key256>): (b: Bytes)
    ensures |b| == 32 * |keys|
  {
    if keys == [] then [] else JoinKeys(keys[..|keys| - 1]) + keys[|keys| - 1]
  }

  /** `compute_canonical_tx_hash`: hashing piece by piece is hashing the concatenation. */
  function CanonicalTxHash(k: Curve, outs: seq<OneTimeOutput>, fee: U64, ring: seq<Key256>, image: KeyImage): Hash256 {
    k.hash(EncU32(|outs| % TWO_32) + OutputsHashBytes(outs) + EncU64(fee)
           + EncU32(|ring| % TWO_32) + JoinKeys(ring) + image)
  }

  /** From the challenge c of member P with response s to the next challenge. Only the
      verifier (`strict`) looks at the return code of the base multiplication. */
  function Step(k: Curve, strict: bool, m: Hash256, image: KeyImage, s: Key256, c: Key256, p: Key256): Option<Key256> {
    if strict && !k.baseOk(s) then None else
    match k.mul(c, p) case None => None case Some(cp) =>
      match k.add(k.base(s), cp) case None => None case Some(l) =>
        match HashToPoint(k, p) case None => None case Some(hp) =>
          match k.mul(s, hp) case None => None case Some(shp) =>
            match k.mul(c, image) case None => None case Some(ci) =>
              match k.add(shp, ci) case None => None case Some(r) => Some(Challenge(k, m, l, r))
  }

  /** One member of the ring as a step of the challenge chain. */
  function Member(k: Curve, strict: bool, m: Hash256, image: KeyImage, ring: seq<Key256>, resp: seq<Key256>): Walker<Key256> {
    (i: nat, c: Key256) => if i < |ring| && i < |resp| then Step(k, strict, m, image, resp[i], c, ring[i]) else None
  }

  /** Signing with the real key x at index `own`, the ephemeral secret alpha and the
      random responses `draws` of the decoys. */
  function Sign(k: Curve, m: Hash256, ring: seq<Key256>, own: nat, x: Key256, alpha: Key256, draws: seq<Key256>)
    : (sig: Option<RingSignature>)
    requires |draws| == |ring|
    ensures sig.Some? ==> sig.value.ring == ring && |sig.value.responses| == |ring| && own < |ring|
                          && KeyImageOf(k, x, ring[own]) == Some(sig.value.keyImage)
  {
    if |ring| < 1 || own >= |ring| then None else
    match KeyImageOf(k, x, ring[own]) case None => None case Some(image) =>
      match HashToPoint(k, ring[own]) case None => None case Some(hp) =>
        match k.mul(alpha, hp) case None => None case Some(r) =>
          Seal(k, m, ring, own, x, alpha, draws, image, Challenge(k, m, k.base(alpha), r))
  }

  /** Simulating the decoys from the first challenge c1, then closing the ring. */
  function Seal(k: Curve, m: Hash256, ring: seq<Key256>, own: nat, x: Key256, alpha: Key256, draws: seq<Key256>,
                image: KeyImage, c1: Key256): (sig: Option<RingSignature>)
    requires own < |ring| == |draws|
    ensures sig.Some? ==> sig.value.ring == ring && |sig.value.responses| == |ring| && sig.value.keyImage == image
  {
    var n := |ring|;
    var next := Wrap(own + 1, n);
    var walk := Member(k, false, m, image, ring, draws);
    match Close(walk, n, next, c1, n - 1) case None => None case Some(cOwn) =>
      match (if next == 0 then Some(c1) else Close(walk, n, next, c1, n - next))
      case None => None
      case Some(c0) =>
        Some(RingSignature(image, c0, draws[own := k.scalarSub(alpha, k.scalarMul(cOwn, x))], ring))
  }

  /** Neither the identity nor a point of the 8-torsion. */
  predicate TorsionOk(k: Curve, image: KeyImage) {
    var i8 := k.mul(EIGHT, image);
    i8.Some? && i8.value != IDENTITY
  }

  /** What `verify` asks of a signature before any challenge is computed. */
  ghost predicate Admissible(k: Curve, sig: RingSignature) {
    && |sig.ring| >= 1 && |sig.responses| == |sig.ring|
    && k.valid(sig.keyImage) && (forall i :: 0 <= i < |sig.ring| ==> k.valid(sig.ring[i]))
    && NoDup(sig.ring) && TorsionOk(k, sig.keyImage)
  }

  ghost predicate Verify(k: Curve, m: Hash256, sig: RingSignature) {
    && Admissible(k, sig)
    && Close(Member(k, true, m, sig.keyImage, sig.ring, sig.responses), |sig.ring|, 0, sig.c0, |sig.ring|) == Some(sig.c0)
  }

  // ---- The loops ----

  method VerifyLoop(k: Curve, m: Hash256, sig: RingSignature) returns (ok: bool)
    ensures ok == Verify(k, m, sig)
  {
    var n := |sig.ring|;
    if n < 1 || |sig.responses| != n { return false; }
    if !k.valid(sig.keyImage) { return false; }
    for i := 0 to n
      invariant forall j :: 0 <= j < i ==> k.valid(sig.ring[j])
    {
      if !k.valid(sig.ring[i]) { return false; }
    }
    var unique := DistinctKeys(sig.ring);
    if !unique { return false; }
    if !TorsionOk(k, sig.keyImage) { return false; }
    var c := Recompute(k, m, sig);
    return c == Some(sig.c0);
  }

  /** The challenges recomputed from index 0; None where an operation fails. */
  method Recompute(k: Curve, m: Hash256, sig: RingSignature) returns (r: Option<Key256>)
    requires 1 <= |sig.ring| == |sig.responses|
    ensures r == Close(Member(k, true, m, sig.keyImage, sig.ring, sig.responses), |sig.ring|, 0, sig.c0, |sig.ring|)
  {
    var n, c := |sig.ring|, sig.c0;
    ghost var walk := Member(k, true, m, sig.keyImage, sig.ring, sig.responses);
    for i := 0 to n
      invariant Close(walk, n, Wrap(i, n), c, n - i) == Close(walk, n, 0, sig.c0, n)
    {
      var c' := Step(k, true, m, sig.keyImage, sig.responses[i], c, sig.ring[i]);
      if c'.None? { return None; }
      c := c'.value;
    }
    return Some(c);
  }

  /** The quadratic duplicate check. */
  method DistinctKeys(keys: seq<Key256>) returns (ok: bool)
    ensures ok == NoDup(keys)
  {
    var n := |keys|;
    for i := 0 to n
      invariant forall a, b :: 0 <= a < i && a < b < n ==> keys[a] != keys[b]
    {
      for j := i + 1 to n
        invariant forall b :: i < b < j ==> keys[i] != keys[b]
      {
        if keys[i] == keys[j] { return false; }
      }
    }
    return true;
  }

  method SignLoop(k: Curve, m: Hash256, ring: seq<Key256>, own: nat, x: Key256, alpha: Key256, draws: seq<Key256>)
    returns (sig: Option<RingSignature>)
    requires |draws| == |ring|
    ensures sig == Sign(k, m, ring, own, x, alpha, draws)
  {
    if |ring| < 1 { return None; }
    if own >= |ring| { return None; }
    var image := KeyImageOf(k, x, ring[own]);
    if image.None? { return None; }
    var hp := HashToPoint(k, ring[own]);
    if hp.None? { return None; }
    var r := k.mul(alpha, hp.value);
    if r.None? { return None; }
    sig := SealLoop(k, m, ring, own, x, alpha, draws, image.value, Challenge(k, m, k.base(alpha), r.value));
  }

  method SealLoop(k: Curve, m: Hash256, ring: seq<Key256>, own: nat, x: Key256, alpha: Key256, draws: seq<Key256>,
                  image: KeyImage, c1: Key256)
    returns (sig: Option<RingSignature>)
    requires own < |ring| == |draws|
    ensures sig == Seal(k, m, ring, own, x, alpha, draws, image, c1)
  {
    var c := Fill(Member(k, false, m, image, ring, draws), |ring|, own, c1, ZERO_KEY);
    if c.None? { return None; }
    var s := k.scalarSub(alpha, k.scalarMul(c.value[own], x));
    return Some(RingSignature(image, c.value[0], draws[own := s], ring));
  }

  // ---- Completeness ----

  /** Every point the verifier computes for this signature is reported as successful. */
  ghost predicate OperationsSucceed(k: Curve, m: Hash256, sig: RingSignature) {
    |sig.responses| == |sig.ring| >= 1
    && Close(Member(k, true, m, sig.keyImage, sig.ring, sig.responses), |sig.ring|, 0, sig.c0, |sig.ring|).Some?
  }

  /** The private key x opens the public key P. */
  ghost predicate Opens(g: Group, x: Key256, p: Key256) {
    p == g.times(g.scalar(x), g.G)
  }

  /** s = alpha - c x makes the verifier recompute the points alpha G and alpha H_p(P). */
  lemma ClosingStep(k: Curve, g: Group, m: Hash256, x: Key256, p: Key256, alpha: Key256, c: Key256,
                    image: KeyImage, hp: Key256, r: Key256)
    requires Lawful(k, g) && Opens(g, x, p) && k.baseOk(alpha)
    requires HashToPoint(k, p) == Some(hp) && k.mul(x, hp) == Some(image) && k.mul(alpha, hp) == Some(r)
    ensures ReturnsTo(k, m, x, p, alpha, image, c, Challenge(k, m, k.base(alpha), r))
  {
    var raw := k.fromUniform(k.hash(p)).value;
    assert Cleared(g, raw) && Closed(g, 8, raw, raw);
    assert Prime(g, hp) && Prime(g, g.G);
    ClosingPoint(k, g, x, g.G, alpha, c);
    ClosingPoint(k, g, x, hp, alpha, c);
  }

  /** (alpha - c x) Q + c (x Q) = alpha Q. */
  lemma ClosingPoint(k: Curve, g: Group, x: Key256, q: Key256, alpha: Key256, c: Key256)
    requires Lawful(k, g) && Prime(g, q)
    ensures var s := k.scalarSub(alpha, k.scalarMul(c, x));
      g.plus(g.times(g.scalar(s), q), g.times(g.scalar(c), g.times(g.scalar(x), q))) == g.times(g.scalar(alpha), q)
  {
    var cx := k.scalarMul(c, x);
    var s := k.scalarSub(alpha, cx);
    var vs, vc, vx, va, vcx := g.scalar(s), g.scalar(c), g.scalar(x), g.scalar(alpha), g.scalar(cx);
    assert NestsTimes(g, vc, vx, q) && AddsTimes(g, vs, vc * vx, q);
    assert Congruent(g, vs, va - vcx) && Congruent(g, vcx, vc * vx);
    var a: int :| ApartBy(vs, va - vcx, a, g.order);
    var b: int :| ApartBy(vcx, vc * vx, b, g.order);
    assert a * g.order - b * g.order == (a - b) * g.order;
    assert ApartBy(vs + vc * vx, va, a - b, g.order);
    TimesCongruent(g, vs + vc * vx, va, q);
  }

  /** With s = alpha - c x, the verifier goes from challenge c to c1 if its operations succeed. */
  ghost predicate ReturnsTo(k: Curve, m: Hash256, x: Key256, p: Key256, alpha: Key256, image: KeyImage, c: Key256, c1: Key256) {
    var step := Step(k, true, m, image, k.scalarSub(alpha, k.scalarMul(c, x)), c, p);
    step.Some? ==> step.value == c1
  }

  /** Away from the real index, a step that succeeds for the verifier is the signer's step. */
  lemma VerifierAgreesWithSigner(k: Curve, m: Hash256, image: KeyImage, ring: seq<Key256>, resp: seq<Key256>,
                                 draws: seq<Key256>, own: nat)
    requires |resp| == |draws| == |ring|
    requires forall j :: 0 <= j < |ring| && j != own ==> resp[j] == draws[j]
    ensures Agrees(Member(k, true, m, image, ring, resp), Member(k, false, m, image, ring, draws), own)
  {
    var f, h := Member(k, true, m, image, ring, resp), Member(k, false, m, image, ring, draws);
    forall i: nat, c | i != own && f(i, c).Some? ensures h(i, c) == f(i, c) {
      assert i < |ring| && resp[i] == draws[i];
    }
  }

  lemma MemberReturns(k: Curve, m: Hash256, ring: seq<Key256>, own: nat, x: Key256, alpha: Key256, image: KeyImage,
                      resp: seq<Key256>, last: Key256, c1: Key256)
    requires own < |ring| == |resp| && resp[own] == k.scalarSub(alpha, k.scalarMul(last, x))
    requires ReturnsTo(k, m, x, ring[own], alpha, image, last, c1)
    ensures var f := Member(k, true, m, image, ring, resp); f(own, last).Some? ==> f(own, last) == Some(c1)
  {
  }

  lemma SealCloses(k: Curve, m: Hash256, ring: seq<Key256>, own: nat, x: Key256, alpha: Key256,
                   draws: seq<Key256>, image: KeyImage, c1: Key256, sig: RingSignature)
    requires own < |ring| == |draws|
    requires Seal(k, m, ring, own, x, alpha, draws, image, c1) == Some(sig) && OperationsSucceed(k, m, sig)
    requires forall c :: ReturnsTo(k, m, x, ring[own], alpha, image, c, c1)
    ensures Close(Member(k, true, m, image, ring, sig.responses), |ring|, 0, sig.c0, |ring|) == Some(sig.c0)
  {
    hide Step, HashToPoint;
    var n := |ring|;
    var f, h := Member(k, true, m, image, ring, sig.responses), Member(k, false, m, image, ring, draws);
    var last := Close(h, n, Wrap(own + 1, n), c1, n - 1).value;
    VerifierAgreesWithSigner(k, m, image, ring, sig.responses, draws, own);
    MemberReturns(k, m, ring, own, x, alpha, image, sig.responses, last, c1);
    WalkCloses(f, h, own, n, c1, sig.c0, last);
  }

  /** Completeness, with its exact condition: for every ring size, real position, matching
      private key and randomness, `verify` accepts what `sign` built if and only if the ring
      has no repeated key, its points are valid, the image is outside the 8-torsion, and no
      group operation of the verifier reports failure. */
  lemma SignThenVerify(k: Curve, g: Group, m: Hash256, ring: seq<Key256>, own: nat, x: Key256, alpha: Key256,
                       draws: seq<Key256>, sig: RingSignature)
    requires Lawful(k, g) && |draws| == |ring| && k.baseOk(alpha)
    requires Sign(k, m, ring, own, x, alpha, draws) == Some(sig)
    requires Opens(g, x, ring[own])
    ensures Verify(k, m, sig) <==> Admissible(k, sig) && OperationsSucceed(k, m, sig)
  {
    if OperationsSucceed(k, m, sig) {
      var hp := HashToPoint(k, ring[own]).value;
      var r := k.mul(alpha, hp).value;
      var c1 := Challenge(k, m, k.base(alpha), r);
      forall c ensures ReturnsTo(k, m, x, ring[own], alpha, sig.keyImage, c, c1) {
        ClosingStep(k, g, m, x, ring[own], alpha, c, sig.keyImage, hp, r);
      }
      SealCloses(k, m, ring, own, x, alpha, draws, sig.keyImage, c1, sig);
    }
  }

  // ---- Burn proofs: a ring of one, bound to a withdrawal ----

  const BURN_PROOF_V2: Bytes := [66, 85, 82, 78, 95, 80, 82, 79, 79, 70, 95, 86, 50]

  function BurnMessage(k: Curve, orderId: Text, gross: U64, destination: Text, change: Key256): Hash256 {
    k.hash(BURN_PROOF_V2 + orderId + EncU64(gross) + destination + change)
  }

  datatype BurnProof = BurnProof(keyImage: KeyImage, c0: Key256, s: Key256)

  function SignBurn(k: Curve, m: Hash256, p: Key256, x: Key256, alpha: Key256): (proof: Option<BurnProof>)
    ensures proof.Some? ==> KeyImageOf(k, x, p) == Some(proof.value.keyImage) && k.baseOk(alpha)
  {
    match KeyImageOf(k, x, p) case None => None case Some(image) =>
      if !k.baseOk(alpha) then None else
      match HashToPoint(k, p) case None => None case Some(hp) =>
        match k.mul(alpha, hp) case None => None case Some(r) =>
          var c0 := Challenge(k, m, k.base(alpha), r);
          Some(BurnProof(image, c0, k.scalarSub(alpha, k.scalarMul(c0, x))))
  }

  predicate BurnAdmissible(k: Curve, p: Key256, image: KeyImage) {
    k.valid(p) && k.valid(image) && TorsionOk(k, image)
  }

  predicate VerifyBurn(k: Curve, m: Hash256, p: Key256, image: KeyImage, c0: Key256, s: Key256) {
    BurnAdmissible(k, p, image) && Step(k, true, m, image, s, c0, p) == Some(c0)
  }

  /** A burn proof made with the key of P verifies if and only if its points are admissible
      and the verifier's operations succeed. */
  lemma BurnThenVerify(k: Curve, g: Group, m: Hash256, p: Key256, x: Key256, alpha: Key256, proof: BurnProof)
    requires Lawful(k, g) && Opens(g, x, p)
    requires SignBurn(k, m, p, x, alpha) == Some(proof)
    ensures VerifyBurn(k, m, p, proof.keyImage, proof.c0, proof.s)
      <==> BurnAdmissible(k, p, proof.keyImage) && Step(k, true, m, proof.keyImage, proof.s, proof.c0, p).Some?
  {
    var hp := HashToPoint(k, p).value;
    ClosingStep(k, g, m, x, p, alpha, proof.c0, proof.keyImage, hp, k.mul(alpha, hp).value);
  }

  /** An image that 8 annihilates is refused: no ring signature and no burn proof with it
      verifies, whatever the message and the responses. */
  lemma TorsionImageRefused(k: Curve, g: Group, m: Hash256, sig: RingSignature, p: Key256, c0: Key256, s: Key256)
    requires Lawful(k, g) && g.zero == IDENTITY && g.times(8, sig.keyImage) == g.zero
    ensures !Verify(k, m, sig) && !VerifyBurn(k, m, p, sig.keyImage, c0, s)
  {
    var eightfold := k.mul(EIGHT, sig.keyImage);
    assert eightfold.Some? ==> eightfold.value == g.times(g.scalar(EIGHT), sig.keyImage);
  }
}
