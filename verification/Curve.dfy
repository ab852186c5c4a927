/** The libsodium interface as a value. Every component takes a `Curve`, so a theorem
    about a component holds for every hash function and every point arithmetic; a
    theorem that needs the arithmetic to be a group says so with `Lawful`. */
module CurveModel {
  import opened Types
  import opened LittleEndian

  datatype Curve = Curve(
    hash: Bytes -> Hash256,                        // crypto_generichash, 32 bytes
    hash64: Bytes -> Sig64,                        // crypto_generichash, 64 bytes
    reduce: Sig64 -> Key256,                       // crypto_core_ed25519_scalar_reduce
    fromUniform: Key256 -> Option<Key256>,         // crypto_core_ed25519_from_uniform
    valid: Key256 -> bool,                         // crypto_core_ed25519_is_valid_point
    base: Key256 -> Key256,                        // output of scalarmult_ed25519_base_noclamp
    baseOk: Key256 -> bool,                        // ... and whether it returned 0
    mul: (Key256, Key256) -> Option<Key256>,       // crypto_scalarmult_ed25519_noclamp
    add: (Key256, Key256) -> Option<Key256>,       // crypto_core_ed25519_add
    sub: (Key256, Key256) -> Option<Key256>,       // crypto_core_ed25519_sub
    scalarAdd: (Key256, Key256) -> Key256,
    scalarSub: (Key256, Key256) -> Key256,
    scalarMul: (Key256, Key256) -> Key256,
    edVerify: (Sig64, Bytes, Key256) -> bool,      // crypto_sign_verify_detached == 0
    edSign: (Bytes, Sig64) -> Sig64,               // crypto_sign_detached
    skToPk: Sig64 -> Key256)                       // crypto_sign_ed25519_sk_to_pk

  const EIGHT: Key256 := [8] + Zeros(31)
  const IDENTITY: Key256 := [1] + Zeros(31)

  /** A 64-byte hash reduced to a scalar. */
  function HashScalar(k: Curve, b: Bytes): Key256 {
    k.reduce(k.hash64(b))
  }

  /** `canonical_key_image`: 2I, 4I, 8I by three additions; I itself if one fails. */
  function Canonical(k: Curve, image: KeyImage): KeyImage {
    match k.add(image, image)
    case None => image
    case Some(p2) =>
      match k.add(p2, p2)
      case None => image
      case Some(p4) => match k.add(p4, p4) case None => image case Some(p8) => p8
  }

  function CanonicalAll(k: Curve, images: seq<KeyImage>): (r: seq<KeyImage>)
    ensures |r| == |images|
    ensures forall i :: 0 <= i < |r| ==> r[i] == Canonical(k, images[i])
  {
    seq(|images|, i requires 0 <= i < |images| => Canonical(k, images[i]))
  }

  // ---- The group the interface computes in ----

  /** A commutative group on encodings, written additively, with the integer value of a
      scalar encoding; `order` annihilates G and every cofactor-cleared point. */
  datatype Group = Group(
    order: nat, G: Key256, zero: Key256,
    el: Key256 -> bool, plus: (Key256, Key256) -> Key256, times: (int, Key256) -> Key256,
    scalar: Key256 -> int)

  // Each law is a named instance, so that the solver uses it only where a proof names it.
  ghost predicate Closed(g: Group, n: int, p: Key256, q: Key256) {
    g.el(g.plus(p, q)) && g.el(g.times(n, p))
  }
  ghost predicate Commutes(g: Group, p: Key256, q: Key256) { g.plus(p, q) == g.plus(q, p) }
  ghost predicate Associates(g: Group, p: Key256, q: Key256, r: Key256) {
    g.plus(g.plus(p, q), r) == g.plus(p, g.plus(q, r))
  }
  ghost predicate Units(g: Group, p: Key256) {
    g.plus(g.zero, p) == p && g.times(1, p) == p && g.times(0, p) == g.zero
  }
  ghost predicate AddsTimes(g: Group, m: int, n: int, p: Key256) {
    g.plus(g.times(m, p), g.times(n, p)) == g.times(m + n, p)
  }
  ghost predicate NestsTimes(g: Group, m: int, n: int, p: Key256) {
    g.times(m, g.times(n, p)) == g.times(m * n, p)
  }
  ghost predicate Distributes(g: Group, n: int, p: Key256, q: Key256) {
    g.times(n, g.plus(p, q)) == g.plus(g.times(n, p), g.times(n, q))
  }
  ghost predicate Cleared(g: Group, p: Key256) { g.times(g.order, g.times(8, p)) == g.zero }

  /** Compared with true, so that a call site hands the laws on as they are instead of
      proving them one by one. */
  ghost predicate IsGroup(g: Group) { GroupLaws(g) == true }

  ghost predicate GroupLaws(g: Group) {
    && g.order > 1 && g.el(g.G) && g.el(g.zero)
    && (forall n, p, q {:trigger Closed(g, n, p, q)} :: g.el(p) && g.el(q) ==> Closed(g, n, p, q))
    && (forall p, q {:trigger Commutes(g, p, q)} :: g.el(p) && g.el(q) ==> Commutes(g, p, q))
    && (forall p, q, r {:trigger Associates(g, p, q, r)} :: g.el(p) && g.el(q) && g.el(r) ==> Associates(g, p, q, r))
    && (forall p {:trigger Units(g, p)} :: g.el(p) ==> Units(g, p))
    && (forall m, n, p {:trigger AddsTimes(g, m, n, p)} :: g.el(p) ==> AddsTimes(g, m, n, p))
    && (forall m, n, p {:trigger NestsTimes(g, m, n, p)} :: g.el(p) ==> NestsTimes(g, m, n, p))
    && (forall n, p, q {:trigger Distributes(g, n, p, q)} :: g.el(p) && g.el(q) ==> Distributes(g, n, p, q))
    && g.times(g.order, g.G) == g.zero
    && (forall p {:trigger Cleared(g, p)} :: g.el(p) ==> Cleared(g, p))
  }

  ghost predicate ApartBy(x: int, y: int, q: int, n: int) { x == y + q * n }

  ghost predicate Congruent(g: Group, x: int, y: int) {
    exists q: int :: ApartBy(x, y, q, g.order)
  }

  /** Where an operation of the interface reports success, it computed in the group. */
  ghost predicate PointsCompute(k: Curve, g: Group) {
    && (forall s {:trigger k.baseOk(s)} {:trigger k.base(s)} :: k.baseOk(s) ==> k.base(s) == g.times(g.scalar(s), g.G))
    && (forall s, p {:trigger k.mul(s, p)} :: k.mul(s, p).Some? ==> g.el(p) && k.mul(s, p).value == g.times(g.scalar(s), p))
    && (forall p, q {:trigger k.add(p, q)} :: k.add(p, q).Some? ==> g.el(p) && g.el(q) && k.add(p, q).value == g.plus(p, q))
    && (forall p, q {:trigger k.sub(p, q)} :: k.sub(p, q).Some? ==> g.el(p) && g.el(q) && k.sub(p, q).value == g.plus(p, g.times(-1, q)))
    && (forall u {:trigger k.fromUniform(u)} :: k.fromUniform(u).Some? ==> g.el(k.fromUniform(u).value))
  }

  ghost predicate SumsCompute(k: Curve, g: Group) {
    forall a, b {:trigger k.scalarAdd(a, b)} :: Congruent(g, g.scalar(k.scalarAdd(a, b)), g.scalar(a) + g.scalar(b))
  }
  ghost predicate DifferencesCompute(k: Curve, g: Group) {
    forall a, b {:trigger k.scalarSub(a, b)} :: Congruent(g, g.scalar(k.scalarSub(a, b)), g.scalar(a) - g.scalar(b))
  }
  ghost predicate ProductsCompute(k: Curve, g: Group) {
    forall a, b {:trigger k.scalarMul(a, b)} :: Congruent(g, g.scalar(k.scalarMul(a, b)), g.scalar(a) * g.scalar(b))
  }
  ghost predicate ReductionComputes(k: Curve, g: Group) {
    forall b: Sig64 {:trigger k.reduce(b)} :: Congruent(g, g.scalar(k.reduce(b)), FromLE(b))
  }

  ghost predicate ScalarsCompute(k: Curve, g: Group) {
    && g.scalar(EIGHT) == 8
    && SumsCompute(k, g) == true && DifferencesCompute(k, g) == true
    && ProductsCompute(k, g) == true && ReductionComputes(k, g) == true
  }

  ghost predicate Lawful(k: Curve, g: Group) {
    IsGroup(g) && PointsCompute(k, g) == true && ScalarsCompute(k, g) == true
  }

  /** P lies in the subgroup that `order` annihilates. */
  ghost predicate Prime(g: Group, p: Key256) {
    g.el(p) && g.times(g.order, p) == g.zero
  }

  // ---- Consequences, one instance at a time ----

  lemma TimesZero(g: Group, n: int)
    requires IsGroup(g)
    ensures g.times(n, g.zero) == g.zero
  {
    assert NestsTimes(g, n, 0, g.G) && Units(g, g.G);
  }

  /** Scalars congruent modulo the order act alike on a point of that order. */
  lemma TimesCongruent(g: Group, x: int, y: int, p: Key256)
    requires IsGroup(g) && Prime(g, p) && Congruent(g, x, y)
    ensures g.times(x, p) == g.times(y, p)
  {
    var q: int :| ApartBy(x, y, q, g.order);
    assert AddsTimes(g, q * g.order, y, p) && q * g.order + y == x;
    assert NestsTimes(g, q, g.order, p);
    TimesZero(g, q);
    assert Closed(g, y, p, p) && Units(g, g.times(y, p));
  }

  /** P + B = Q + B only for P = Q. */
  lemma Cancels(g: Group, p: Key256, q: Key256, b: Key256)
    requires IsGroup(g) && g.el(p) && g.el(q) && g.el(b) && g.plus(p, b) == g.plus(q, b)
    ensures p == q
  {
    var m := g.times(-1, b);
    assert AddsTimes(g, 1, -1, b) && Units(g, b) && Closed(g, -1, b, b);
    assert Associates(g, p, b, m) && Associates(g, q, b, m);
    assert Commutes(g, p, g.zero) && Commutes(g, q, g.zero) && Units(g, p) && Units(g, q);
  }

  predicate Doubles(k: Curve, p: Key256) {
    var p2 := k.add(p, p);
    p2.Some? && var p4 := k.add(p2.value, p2.value);
    p4.Some? && k.add(p4.value, p4.value).Some?
  }

  lemma CanonicalIsEightfold(k: Curve, g: Group, p: Key256)
    requires Lawful(k, g) && g.el(p) && Doubles(k, p)
    ensures Canonical(k, p) == g.times(8, p)
  {
    assert Units(g, p) && AddsTimes(g, 1, 1, p) && AddsTimes(g, 2, 2, p) && AddsTimes(g, 4, 4, p);
  }

  /** Torsion does not change the canonical image: when the three doublings succeed for I
      and for I + T, and 8T is the identity, both give 8I. */
  lemma TorsionInvariance(k: Curve, g: Group, image: Key256, torsion: Key256)
    requires Lawful(k, g) && g.el(image) && g.el(torsion)
    requires g.times(8, torsion) == g.zero
    requires Doubles(k, image) && Doubles(k, g.plus(image, torsion))
    ensures Canonical(k, g.plus(image, torsion)) == Canonical(k, image) == g.times(8, image)
  {
    assert Closed(g, 8, image, torsion) && Distributes(g, 8, image, torsion);
    CanonicalIsEightfold(k, g, image);
    CanonicalIsEightfold(k, g, g.plus(image, torsion));
    assert Closed(g, 8, torsion, image) && Commutes(g, g.times(8, image), g.zero) && Units(g, g.times(8, image));
  }
}
