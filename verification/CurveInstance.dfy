/** The hypotheses about the interface are consistent, and met by a large group: points are pairs
    modulo the prime 2^127 - 1, written in the two halves of a key. */
module CurveInstance {
  import opened Types
  import opened LittleEndian
  import opened CurveModel
  import opened Pedersen
  import Ring
  import ByteOrder

  // Named, so that the solver unfolds no encoding.
  const ORDER: nat := 0x7FFF_FFFF_FFFF_FFFF_FFFF_FFFF_FFFF_FFFF
  const HALF: nat := 16
  const WHOLE: nat := 32

  // ---- Residues ----

  lemma ModUnique(x: int, q: int, r: int, n: nat)
    requires x == q * n + r && 0 <= r < n
    ensures x % n == r
  {
    var d := x / n - q;
    assert x == (x / n) * n + x % n;
    assert d * n == r - x % n;
    MultipleIsFar(d, n);
  }

  /** Multiples of n do not matter. */
  lemma ModShift(x: int, q: int, n: nat)
    requires n > 0
    ensures (x + q * n) % n == x % n
  {
    assert x + q * n == (x / n + q) * n + x % n;
    ModUnique(x + q * n, x / n + q, x % n, n);
  }

  lemma ModAdd(x: int, y: int, n: nat)
    requires n > 0
    ensures (x % n + y) % n == (x + y) % n
  {
    assert x % n + y == (x + y) + (0 - x / n) * n;
    ModShift(x + y, 0 - x / n, n);
  }

  lemma ModTimes(m: int, x: int, n: nat)
    requires n > 0
    ensures (m * (x % n)) % n == (m * x) % n
  {
    assert m * (x % n) == m * x + (0 - m * (x / n)) * n by {
      assert x == (x / n) * n + x % n;
      Expand(m, x / n, n, x % n);
    }
    ModShift(m * x, 0 - m * (x / n), n);
  }

  lemma Expand(m: int, q: int, n: int, r: int)
    ensures m * (q * n + r) == (m * q) * n + m * r
  {
  }

  // ---- Points ----

  /** x modulo the order. */
  function Residue(x: int): (r: nat)
    ensures r < ORDER && (0 <= x < ORDER ==> r == x)
  {
    x % ORDER
  }

  function Point(a: int, b: int): Key256 {
    LE(Residue(a), HALF) + LE(Residue(b), HALF)
  }

  function First(p: Key256): nat { FromLE(p[..HALF]) }
  function Second(p: Key256): nat { FromLE(p[HALF..]) }

  predicate OnIt(p: Key256) { p == Point(First(p), Second(p)) }

  function Plus(p: Key256, q: Key256): Key256 { Point(First(p) + First(q), Second(p) + Second(q)) }

  function Times(n: int, p: Key256): Key256 { Point(n * First(p), n * Second(p)) }

  lemma HalfIsWide()
    ensures Pow256(HALF) > ORDER + 1
  {
    PowersOf256();
    assert Pow256(12) == 256 * (256 * (256 * (256 * Pow256(8))));
    assert Pow256(16) == 256 * (256 * (256 * (256 * Pow256(12))));
  }

  lemma HalfHolds(x: nat)
    requires x < ORDER
    ensures FromLE(LE(x, HALF)) == x
  {
    HalfIsWide();
    DecodeEncode(x, HALF);
  }

  lemma PointParts(a: int, b: int)
    ensures First(Point(a, b)) == Residue(a) && Second(Point(a, b)) == Residue(b) && OnIt(Point(a, b))
  {
    HalfHolds(Residue(a));
    HalfHolds(Residue(b));
    assert Point(a, b)[..HALF] == LE(Residue(a), HALF) && Point(a, b)[HALF..] == LE(Residue(b), HALF);
  }

  /** Points are equal when their parts are congruent. */
  lemma SamePoint(a: int, b: int, c: int, d: int)
    requires Residue(a) == Residue(c) && Residue(b) == Residue(d)
    ensures Point(a, b) == Point(c, d)
  {
  }

  lemma ResiduesAdd(x: int, y: int)
    ensures Residue(Residue(x) + y) == Residue(x + y)
  {
    ModAdd(x, y, ORDER);
  }

  lemma ResiduesTimes(m: int, x: int)
    ensures Residue(m * Residue(x)) == Residue(m * x)
  {
    ModTimes(m, x, ORDER);
  }

  ghost function Pairs(): Group {
    Group(ORDER, Point(1, 0), Point(0, 0), OnIt, Plus, Times, Value)
  }

  ghost function Value(s: Key256): int { FromLE(s) }

  lemma PlusAssociates(p: Key256, q: Key256, r: Key256)
    ensures Plus(Plus(p, q), r) == Plus(p, Plus(q, r))
  {
    hide Residue, Point, First, Second;
    var a, b, c, d, e, f := First(p), Second(p), First(q), Second(q), First(r), Second(r);
    PointParts(a + c, b + d);
    PointParts(c + e, d + f);
    AddAssociates(a, c, e);
    AddAssociates(b, d, f);
    SamePoint(Residue(a + c) + e, Residue(b + d) + f, a + Residue(c + e), b + Residue(d + f));
  }

  lemma AddAssociates(a: int, c: int, e: int)
    ensures Residue(Residue(a + c) + e) == Residue(a + Residue(c + e))
  {
    hide Residue;
    ResiduesAdd(a + c, e);
    ResiduesAdd(c + e, a);
  }

  lemma PlusCommutes(p: Key256, q: Key256)
    ensures Plus(p, q) == Plus(q, p) && OnIt(Plus(p, q))
  {
    hide Residue, Point, First, Second;
    PointParts(First(p) + First(q), Second(p) + Second(q));
  }

  lemma ZeroAndOne(p: Key256)
    requires OnIt(p)
    ensures Plus(Point(0, 0), p) == p && Times(1, p) == p && Times(0, p) == Point(0, 0)
  {
    PointParts(0, 0);
    assert 1 * First(p) == First(p) && 1 * Second(p) == Second(p);
    assert 0 * First(p) == 0 && 0 * Second(p) == 0;
  }

  lemma Spread(m: int, n: int, x: int)
    ensures m * x + n * x == (m + n) * x && m * (n * x) == (m * n) * x
  {
  }

  lemma TimesAdds(m: int, n: int, p: Key256)
    ensures Plus(Times(m, p), Times(n, p)) == Times(m + n, p)
  {
    hide Residue, Point, First, Second;
    var a, b := First(p), Second(p);
    PointParts(m * a, m * b);
    PointParts(n * a, n * b);
    Merge(m, n, a);
    Merge(m, n, b);
    SamePoint(Residue(m * a) + Residue(n * a), Residue(m * b) + Residue(n * b), (m + n) * a, (m + n) * b);
  }

  lemma Merge(m: int, n: int, a: int)
    ensures Residue(Residue(m * a) + Residue(n * a)) == Residue((m + n) * a)
  {
    hide Residue;
    Spread(m, n, a);
    ResiduesAdd(m * a, Residue(n * a));
    ResiduesAdd(n * a, m * a);
  }

  lemma TimesNests(m: int, n: int, p: Key256)
    ensures Times(m, Times(n, p)) == Times(m * n, p) && OnIt(Times(n, p))
  {
    hide Residue, Point, First, Second;
    var a, b := First(p), Second(p);
    PointParts(n * a, n * b);
    Spread(m, n, a);
    Spread(m, n, b);
    ResiduesTimes(m, n * a);
    ResiduesTimes(m, n * b);
    SamePoint(m * Residue(n * a), m * Residue(n * b), (m * n) * a, (m * n) * b);
  }

  lemma TimesDistributes(n: int, p: Key256, q: Key256)
    ensures Times(n, Plus(p, q)) == Plus(Times(n, p), Times(n, q))
  {
    hide Residue, Point, First, Second;
    var a, b, c, d := First(p), Second(p), First(q), Second(q);
    PointParts(a + c, b + d);
    PointParts(n * a, n * b);
    PointParts(n * c, n * d);
    Across(n, a, c);
    Across(n, b, d);
    SamePoint(n * Residue(a + c), n * Residue(b + d), Residue(n * a) + Residue(n * c), Residue(n * b) + Residue(n * d));
  }

  lemma Across(n: int, a: int, c: int)
    ensures Residue(n * Residue(a + c)) == Residue(Residue(n * a) + Residue(n * c))
  {
    hide Residue;
    ResiduesTimes(n, a + c);
    assert n * (a + c) == n * a + n * c;
    ResiduesAdd(n * a, Residue(n * c));
    ResiduesAdd(n * c, n * a);
  }

  lemma OrderAnnihilates(p: Key256)
    ensures Times(ORDER, p) == Point(0, 0)
  {
    ModShift(0, First(p), ORDER);
    ModShift(0, Second(p), ORDER);
  }

  lemma PairsAreAGroup()
    ensures IsGroup(Pairs())
  {
    hide Plus, Times, OnIt, Point;
    var g := Pairs();
    PointParts(1, 0);
    PointParts(0, 0);
    forall n, p, q | g.el(p) && g.el(q) ensures Closed(g, n, p, q) { PlusCommutes(p, q); TimesNests(n, n, p); }
    forall p, q | g.el(p) && g.el(q) ensures Commutes(g, p, q) { PlusCommutes(p, q); }
    forall p, q, r | g.el(p) && g.el(q) && g.el(r) ensures Associates(g, p, q, r) { PlusAssociates(p, q, r); }
    forall p | g.el(p) ensures Units(g, p) { ZeroAndOne(p); }
    forall m, n, p | g.el(p) ensures AddsTimes(g, m, n, p) { TimesAdds(m, n, p); }
    forall m, n, p | g.el(p) ensures NestsTimes(g, m, n, p) { TimesNests(m, n, p); }
    forall n, p, q | g.el(p) && g.el(q) ensures Distributes(g, n, p, q) { TimesDistributes(n, p, q); }
    forall p | g.el(p) ensures Cleared(g, p) { OrderAnnihilates(Times(8, p)); }
    OrderAnnihilates(Point(1, 0));
  }

  // ---- An interface that computes in it ----

  /** The scalar encoding of x modulo the order. */
  ghost function Scalar(x: int): (s: Key256)
    ensures FromLE(s) == Residue(x)
  {
    ScalarHolds(Residue(x));
    LE(Residue(x), WHOLE)
  }

  lemma ScalarHolds(x: nat)
    requires x < ORDER
    ensures FromLE(LE(x, WHOLE)) == x
  {
    HalfIsWide();
    PowMonotone(HALF, WHOLE);
    DecodeEncode(x, WHOLE);
  }

  ghost predicate Congruous(x: int, y: int) { exists q: int :: ApartBy(x, y, q, ORDER) }

  lemma ResidueCongruous(x: int)
    ensures Congruous(Residue(x), x)
  {
    assert ApartBy(Residue(x), x, 0 - x / ORDER, ORDER);
  }

  ghost function Sum(a: Key256, b: Key256): (s: Key256)
    ensures Congruous(FromLE(s), FromLE(a) + FromLE(b))
  {
    ResidueCongruous(FromLE(a) + FromLE(b)); Scalar(FromLE(a) + FromLE(b))
  }

  ghost function Difference(a: Key256, b: Key256): (s: Key256)
    ensures Congruous(FromLE(s), FromLE(a) - FromLE(b))
  {
    ResidueCongruous(FromLE(a) - FromLE(b)); Scalar(FromLE(a) - FromLE(b))
  }

  ghost function Product(a: Key256, b: Key256): (s: Key256)
    ensures Congruous(FromLE(s), FromLE(a) * FromLE(b))
  {
    ResidueCongruous(FromLE(a) * FromLE(b)); Scalar(FromLE(a) * FromLE(b))
  }

  ghost function Reduce(b: Sig64): (s: Key256)
    ensures Congruous(FromLE(s), FromLE(b))
  {
    ResidueCongruous(FromLE(b)); Scalar(FromLE(b))
  }

  /** A header's height and timestamp, or the first bytes of anything shorter. */
  function Digest(b: Bytes): Hash256 {
    if |b| >= 188 then b[4..12] + b[76..84] + Zeros(16)
    else if |b| >= 32 then b[..32] else b + Zeros(32 - |b|)
  }

  function WideDigest(b: Bytes): Sig64 { Digest(b) + Zeros(32) }

  function Uniform(u: Key256): Option<Key256> { Some(Point(FromLE(u), 1)) }
  function Always(p: Key256): bool { true }
  function BaseMul(s: Key256): Key256 { Times(FromLE(s), Point(1, 0)) }
  function Mul(s: Key256, p: Key256): Option<Key256> { if OnIt(p) then Some(Times(FromLE(s), p)) else None }
  function Add(p: Key256, q: Key256): Option<Key256> { if OnIt(p) && OnIt(q) then Some(Plus(p, q)) else None }
  function Sub(p: Key256, q: Key256): Option<Key256> { if OnIt(p) && OnIt(q) then Some(Plus(p, Times(-1, q))) else None }

  function PublicKey(sk: Sig64): Key256 { sk[..32] }
  function Sign(m: Bytes, sk: Sig64): Sig64 { sk }
  function Verify(sig: Sig64, m: Bytes, pk: Key256): bool { PublicKey(sig) == pk }

  ghost function Interface(): Curve {
    Curve(Digest, WideDigest, Reduce, Uniform, OnIt, BaseMul, Always, Mul, Add, Sub,
          Sum, Difference, Product, Verify, Sign, PublicKey)
  }

  lemma InterfacePoints()
    ensures PointsCompute(Interface(), Pairs())
  {
    hide Times, Plus, OnIt;
    forall u: Key256 ensures OnIt(Uniform(u).value) { PointParts(FromLE(u), 1); }
  }

  lemma InterfaceScalars()
    ensures ScalarsCompute(Interface(), Pairs())
  {
    InterfaceSums();
    InterfaceDifferences();
    InterfaceProducts();
    InterfaceReduction();
    EightIsEight();
  }

  lemma CongruousIsCongruent(g: Group, x: int, y: int)
    requires g.order == ORDER
    ensures Congruous(x, y) <==> Congruent(g, x, y)
  {
  }

  lemma OneSum(k: Curve, g: Group, a: Key256, b: Key256)
    requires k == Interface() && g == Pairs()
    ensures Congruent(g, g.scalar(k.scalarAdd(a, b)), g.scalar(a) + g.scalar(b))
  {
    hide FromLE, Scalar;
    CongruousIsCongruent(g, FromLE(Sum(a, b)), FromLE(a) + FromLE(b));
  }

  lemma InterfaceSums()
    ensures SumsCompute(Interface(), Pairs())
  {
    hide FromLE, Interface, Pairs;
    var k, g := Interface(), Pairs();
    forall a: Key256, b: Key256 ensures Congruent(g, g.scalar(k.scalarAdd(a, b)), g.scalar(a) + g.scalar(b)) {
      OneSum(k, g, a, b);
    }
  }

  lemma OneDifference(k: Curve, g: Group, a: Key256, b: Key256)
    requires k == Interface() && g == Pairs()
    ensures Congruent(g, g.scalar(k.scalarSub(a, b)), g.scalar(a) - g.scalar(b))
  {
    hide FromLE, Scalar;
    CongruousIsCongruent(g, FromLE(Difference(a, b)), FromLE(a) - FromLE(b));
  }

  lemma InterfaceDifferences()
    ensures DifferencesCompute(Interface(), Pairs())
  {
    hide FromLE, Interface, Pairs;
    var k, g := Interface(), Pairs();
    forall a: Key256, b: Key256 ensures Congruent(g, g.scalar(k.scalarSub(a, b)), g.scalar(a) - g.scalar(b)) {
      OneDifference(k, g, a, b);
    }
  }

  lemma InterfaceProducts()
    ensures ProductsCompute(Interface(), Pairs())
  {
    hide FromLE, Scalar;
    forall a: Key256, b: Key256 ensures Congruent(Pairs(), FromLE(Product(a, b)), FromLE(a) * FromLE(b)) {
      CongruousIsCongruent(Pairs(), FromLE(Product(a, b)), FromLE(a) * FromLE(b));
    }
  }

  lemma InterfaceReduction()
    ensures ReductionComputes(Interface(), Pairs())
  {
    hide FromLE, Scalar;
    forall b: Sig64 ensures Congruent(Pairs(), FromLE(Reduce(b)), FromLE(b)) {
      CongruousIsCongruent(Pairs(), FromLE(Reduce(b)), FromLE(b));
    }
  }

  lemma EightIsEight()
    ensures FromLE(EIGHT) == 8
  {
    assert EIGHT == [8] + EIGHT[1..];
    ZerosAreZero(EIGHT[1..]);
  }

  lemma {:induction false} ZerosAreZero(b: Bytes)
    requires forall i :: 0 <= i < |b| ==> b[i] == 0
    ensures FromLE(b) == 0
  {
    if b != [] { ZerosAreZero(b[1..]); }
  }

  lemma InterfaceIsLawful()
    ensures Lawful(Interface(), Pairs())
  {
    hide IsGroup, PointsCompute, ScalarsCompute;
    PairsAreAGroup();
    InterfacePoints();
    InterfaceScalars();
  }

  // ---- A second generator ----

  /** Independent of the first. */
  function Other(): Key256 { Point(0, 1) }

  lemma PairBinds(a: int, b: int)
    ensures Binds(Pairs(), Other(), a, b)
  {
    hide Point, First, Second, Residue;
    var g := Pairs();
    ComboIsPoint(a, b);
    PointParts(0, 0);
    PointParts(a, b);
    if Combo(g, Other(), a, b) == g.zero {
      NoResidue(g, a);
      NoResidue(g, b);
    }
  }

  lemma NoResidue(g: Group, a: int)
    requires g.order == ORDER && Residue(a) == Residue(0)
    ensures Congruent(g, a, 0)
  {
    assert ApartBy(a, 0, a / ORDER, g.order);
  }

  lemma ComboIsPoint(a: int, b: int)
    ensures Combo(Pairs(), Other(), a, b) == Point(a, b)
  {
    hide Point, First, Second, Residue;
    PointParts(1, 0);
    PointParts(0, 1);
    SmallResidues();
    PointParts(a, 0);
    PointParts(0, b);
    SamePoint(a * 1, a * 0, a, 0);
    SamePoint(b * 0, b * 1, 0, b);
    ResiduesAdd(a, 0);
    ResiduesAdd(b, 0);
    SamePoint(Residue(a) + Residue(0), Residue(0) + Residue(b), a, b);
  }

  lemma SmallResidues()
    ensures Residue(0) == 0 && Residue(1) == 1
  {
  }

  lemma SecondIsIndependent()
    ensures Independent(Pairs(), Other())
  {
    PointParts(0, 1);
    OrderAnnihilates(Other());
    forall a, b ensures Binds(Pairs(), Other(), a, b) { PairBinds(a, b); }
  }

  // ---- What the hypotheses give here ----

  lemma OnCurve(s: Key256, p: Key256)
    ensures OnIt(BaseMul(s)) && OnIt(Times(FromLE(s), p)) && OnIt(Other()) && OnIt(Point(1, 0))
    ensures Second(BaseMul(s)) == 0
  {
    PointParts(0, 1);
    PointParts(1, 0);
    PointParts(FromLE(s) * First(p), FromLE(s) * Second(p));
    PointParts(FromLE(s) * First(Point(1, 0)), FromLE(s) * Second(Point(1, 0)));
    assert FromLE(s) * 0 == 0;
  }

  lemma CommitSucceeds(v: U64, r: Key256)
    ensures Commit(Interface(), Other(), v, r).Some? && OnIt(Commit(Interface(), Other(), v, r).value)
  {
    hide OnIt, Times, Plus, Other, BaseMul;
    var k := Interface();
    OnCurve(AmountToScalar(k, v), Other());
    OnCurve(r, Other());
    PlusCommutes(BaseMul(r), Times(FromLE(AmountToScalar(k, v)), Other()));
  }

  /** Here the balance check decides conservation for any one input, output, fee and blinding
      factors: every hypothesis of the general theorem is met. */
  lemma CheckDecides(v: U64, r: Key256, w: U64, t: Key256, fee: U64, e: int)
    ensures var k, g, h := Interface(), Pairs(), Other();
      && Lawful(k, g) && Independent(g, h) && Commit(k, h, v, r).Some? && Commit(k, h, w, t).Some?
      && (Conserves(k, h, [Commit(k, h, v, r).value], [Commit(k, h, w, t).value], fee, g.times(e, g.G))
          <==> v == w + fee && Congruent(g, g.scalar(r) - g.scalar(t), e))
  {
    hide OnIt, Times, Plus, Other, BaseMul, Lawful, Independent, Commit, Conserves, Pedersen.Difference;
    hide AmountToScalar, FromLE, Point, Opened, Amounts, Blindings;
    var k, g, h := Interface(), Pairs(), Other();
    InterfaceIsLawful();
    SecondIsIndependent();
    CommitSucceeds(v, r);
    CommitSucceeds(w, t);
    var ins, outs := [Commit(k, h, v, r).value], [Commit(k, h, w, t).value];
    var osIn, osOut := [Opening(v, r)], [Opening(w, t)];
    OpenedOne(v, r);
    OpenedOne(w, t);
    DifferenceSucceeds(ins[0], outs[0], fee);
    TimesOnIt(e);
    AcceptsIffConserved(k, g, h, ins, outs, fee, osIn, osOut, e);
  }

  lemma TimesOnIt(e: int)
    ensures OnIt(Times(e, Point(1, 0)))
  {
    PointParts(e * First(Point(1, 0)), e * Second(Point(1, 0)));
  }

  lemma OpenedOne(v: U64, r: Key256)
    requires Commit(Interface(), Other(), v, r).Some?
    ensures Opened(Interface(), Other(), [Commit(Interface(), Other(), v, r).value], [Opening(v, r)])
    ensures Amounts([Opening(v, r)]) == v && Blindings(Pairs(), [Opening(v, r)]) == Value(r)
  {
    hide Commit;
    var cs, os := [Commit(Interface(), Other(), v, r).value], [Opening(v, r)];
    assert cs[..0] == [] && os[..0] == [];
  }

  lemma DifferenceSucceeds(a: Key256, b: Key256, fee: U64)
    requires OnIt(a) && OnIt(b)
    ensures Pedersen.Difference(Interface(), Other(), [a], [b], fee).Some?
  {
    hide OnIt, Times, Plus, Other;
    var k := Interface();
    OnCurve(AmountToScalar(k, fee), Other());
    PlusCommutes(b, Times(FromLE(AmountToScalar(k, fee)), Other()));
  }
}
