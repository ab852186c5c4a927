/** Pedersen commitments and the balance check over them (src/pedersen.cpp). */
module Pedersen {
  import opened Types
  import opened LittleEndian
  import opened CurveModel

  /** The 64-byte little-endian buffer that `amount_to_scalar` reduces: zeros, of which the
      first eight are overwritten. */
  method AmountBuffer(amount: U64) returns (b: Sig64)
    ensures b == LE(amount, WIDE_BYTES)
  {
    PowersOf256();
    b := LowBytes(amount, U64_BYTES, WIDE_BYTES);
  }

  method LowBytes(v: nat, m: nat, n: nat) returns (b: Bytes)
    requires v < Pow256(m) && m <= n
    ensures b == LE(v, n)
  {
    b := seq(n, (i: nat) => 0);
    var rest := v;                            // v >> (8 i)
    for i := 0 to m
      invariant 0 <= rest < Pow256(m - i)
      invariant |b| == n && b[..i] + LE(rest, n - i) == LE(v, n)
      invariant forall j :: i <= j < n ==> b[j] == 0
    {
      assert LE(rest, n - i) == [rest % 256] + LE(rest / 256, n - i - 1);
      b := b[i := rest % 256];
      rest := rest / 256;
    }
    ZeroTail(n - m);
    assert rest == 0 && b == b[..m] + LE(0, n - m);
  }

  lemma {:induction false} ZeroTail(n: nat)
    ensures forall j :: 0 <= j < n ==> LE(0, n)[j] == 0
  {
    if n > 0 { ZeroTail(n - 1); }
  }

  function AmountToScalar(k: Curve, amount: U64): Key256 {
    k.reduce(LE(amount, WIDE_BYTES))
  }

  /** C = rG + vH; None is an exception. */
  function Commit(k: Curve, h: Key256, v: U64, r: Key256): Option<Key256> {
    match k.mul(AmountToScalar(k, v), h) case None => None case Some(vH) => k.add(k.base(r), vH)
  }

  function Sum(k: Curve, cs: seq<Key256>): Option<Key256>
    requires cs != []
  {
    if |cs| == 1 then Some(cs[0]) else
    match Sum(k, cs[..|cs| - 1]) case None => None case Some(s) => k.add(s, cs[|cs| - 1])
  }

  method SumLoop(k: Curve, cs: seq<Key256>) returns (sum: Option<Key256>)
    requires cs != []
    ensures sum == Sum(k, cs)
  {
    var acc := cs[0];
    assert cs[..1] == [cs[0]];
    for i := 1 to |cs|
      invariant Sum(k, cs[..i]) == Some(acc)
    {
      var next := k.add(acc, cs[i]);
      assert cs[..i + 1][..i] == cs[..i] && cs[..i + 1][i] == cs[i];
      if next.None? {
        SumFails(k, cs, i + 1);
        return None;
      }
      acc := next.value;
    }
    assert cs[..|cs|] == cs;
    return Some(acc);
  }

  lemma {:induction false} SumFails(k: Curve, cs: seq<Key256>, i: nat)
    requires 1 <= i <= |cs| && Sum(k, cs[..i]).None?
    ensures Sum(k, cs).None?
    decreases |cs| - i
  {
    if i == |cs| {
      assert cs[..i] == cs;
    } else {
      assert cs[..i + 1][..i] == cs[..i];
      SumFails(k, cs, i + 1);
    }
  }

  /** The three folds and the comparison; None is an exception. */
  function Difference(k: Curve, h: Key256, ins: seq<Key256>, outs: seq<Key256>, fee: U64): Option<Key256>
    requires ins != [] && outs != []
  {
    match Sum(k, ins) case None => None case Some(sumIn) =>
      match Sum(k, outs) case None => None case Some(sumOut) =>
        match (if fee > 0 then AddFee(k, h, sumOut, fee) else Some(sumOut)) case None => None case Some(total) =>
          k.sub(sumIn, total)
  }

  function AddFee(k: Curve, h: Key256, sumOut: Key256, fee: U64): Option<Key256> {
    match k.mul(AmountToScalar(k, fee), h) case None => None case Some(feeH) => k.add(sumOut, feeH)
  }

  ghost predicate AllValid(k: Curve, cs: seq<Key256>) {
    forall i :: 0 <= i < |cs| ==> k.valid(cs[i])
  }

  ghost predicate Conserves(k: Curve, h: Key256, ins: seq<Key256>, outs: seq<Key256>, fee: U64, excess: Key256) {
    && ins != [] && outs != [] && AllValid(k, ins) && AllValid(k, outs) && k.valid(excess)
    && Difference(k, h, ins, outs, fee) == Some(excess)
  }

  /** `verify_balance_conservation`; an exception and a false return are both a refusal. */
  method VerifyBalanceConservation(k: Curve, h: Key256, ins: seq<Key256>, outs: seq<Key256>, fee: U64, excess: Key256)
    returns (ok: bool)
    ensures ok == Conserves(k, h, ins, outs, fee, excess)
  {
    if ins == [] || outs == [] { return false; }
    for i := 0 to |ins|
      invariant AllValid(k, ins[..i])
    {
      if !k.valid(ins[i]) { return false; }
    }
    for i := 0 to |outs|
      invariant AllValid(k, ins) && AllValid(k, outs[..i])
    {
      if !k.valid(outs[i]) { return false; }
    }
    if !k.valid(excess) { return false; }
    var sumIn := SumLoop(k, ins);
    if sumIn.None? { return false; }
    var sumOut := SumLoop(k, outs);
    if sumOut.None? { return false; }
    var total := sumOut;
    if fee > 0 { total := AddFee(k, h, sumOut.value, fee); }
    if total.None? { return false; }
    return k.sub(sumIn.value, total.value) == Some(excess);
  }

  // ---- What acceptance means ----

  /** aG + bH. */
  ghost function Combo(g: Group, h: Key256, a: int, b: int): Key256 {
    g.plus(g.times(a, g.G), g.times(b, h))
  }

  ghost predicate Binds(g: Group, h: Key256, a: int, b: int) {
    Combo(g, h, a, b) == g.zero ==> Congruent(g, a, 0) && Congruent(g, b, 0)
  }

  /** No nontrivial combination of G and H is the identity. */
  ghost predicate Independent(g: Group, h: Key256) {
    Prime(g, h) && forall a, b :: Binds(g, h, a, b)
  }

  lemma Rearrange(g: Group, p: Key256, q: Key256, r: Key256, s: Key256)
    requires IsGroup(g) && g.el(p) && g.el(q) && g.el(r) && g.el(s)
    ensures g.plus(g.plus(p, q), g.plus(r, s)) == g.plus(g.plus(p, r), g.plus(q, s))
  {
    assert Closed(g, 0, r, s) && Closed(g, 0, q, s) && Closed(g, 0, q, r) && Closed(g, 0, p, q) && Closed(g, 0, p, r);
    assert Associates(g, p, q, g.plus(r, s)) && Associates(g, q, r, s) && Commutes(g, q, r);
    assert Associates(g, r, q, s) && Associates(g, p, r, g.plus(q, s));
  }

  lemma ComboAdd(g: Group, h: Key256, a: int, b: int, c: int, d: int)
    requires IsGroup(g) && g.el(h)
    ensures g.plus(Combo(g, h, a, b), Combo(g, h, c, d)) == Combo(g, h, a + c, b + d)
  {
    assert Closed(g, a, g.G, h) && Closed(g, c, g.G, h) && Closed(g, b, h, g.G) && Closed(g, d, h, g.G);
    Rearrange(g, g.times(a, g.G), g.times(b, h), g.times(c, g.G), g.times(d, h));
    assert AddsTimes(g, a, c, g.G) && AddsTimes(g, b, d, h);
  }

  lemma ComboSub(g: Group, h: Key256, a: int, b: int, c: int, d: int)
    requires IsGroup(g) && g.el(h)
    ensures g.plus(Combo(g, h, a, b), g.times(-1, Combo(g, h, c, d))) == Combo(g, h, a - c, b - d)
  {
    assert Closed(g, c, g.G, h) && Closed(g, d, h, g.G);
    assert Distributes(g, -1, g.times(c, g.G), g.times(d, h));
    assert NestsTimes(g, -1, c, g.G) && NestsTimes(g, -1, d, h);
    ComboAdd(g, h, a, b, -c, -d);
  }

  /** Over independent generators a point determines its coefficients modulo the order. */
  lemma ComboUnique(g: Group, h: Key256, a: int, b: int, e: int)
    requires IsGroup(g) && Independent(g, h)
    ensures Combo(g, h, a, b) == g.times(e, g.G) <==> Congruent(g, a, e) && Congruent(g, b, 0)
  {
    assert Units(g, h) && Closed(g, e, g.G, h) && Closed(g, e, g.G, g.zero);
    assert Commutes(g, g.times(e, g.G), g.zero) && Units(g, g.times(e, g.G));
    assert g.times(e, g.G) == Combo(g, h, e, 0);
    if Combo(g, h, a, b) == g.times(e, g.G) {
      ComboSub(g, h, a, b, e, 0);
      ComboSub(g, h, e, 0, e, 0);
      assert Units(g, g.G) && Units(g, g.zero) && Combo(g, h, 0, 0) == g.zero;
      assert Binds(g, h, a - e, b);
      var q: int :| ApartBy(a - e, 0, q, g.order);
      assert ApartBy(a, e, q, g.order);
    }
    if Congruent(g, a, e) && Congruent(g, b, 0) {
      assert Prime(g, g.G);
      TimesCongruent(g, a, e, g.G);
      TimesCongruent(g, b, 0, h);
    }
  }

  /** A commitment that could be made is rG + vH. */
  lemma CommitIsCombo(k: Curve, g: Group, h: Key256, v: U64, r: Key256)
    requires Lawful(k, g) && Prime(g, h) && k.baseOk(r) && Commit(k, h, v, r).Some?
    ensures Commit(k, h, v, r).value == Combo(g, h, g.scalar(r), v)
  {
    AmountIsCombo(k, g, h, v);
  }

  lemma AmountIsCombo(k: Curve, g: Group, h: Key256, v: U64)
    requires Lawful(k, g) && Prime(g, h)
    ensures g.times(g.scalar(AmountToScalar(k, v)), h) == g.times(v, h)
  {
    PowersOf256();
    PowMonotone(U64_BYTES, WIDE_BYTES);
    DecodeEncode(v, WIDE_BYTES);
    var b: Sig64 := LE(v, WIDE_BYTES);
    assert Congruent(g, g.scalar(k.reduce(b)), FromLE(b));
    TimesCongruent(g, g.scalar(k.reduce(b)), v, h);
  }

  lemma {:induction false} PowMonotone(a: nat, b: nat)
    requires a <= b
    ensures Pow256(a) <= Pow256(b)
    decreases b
  {
    if a < b { PowMonotone(a, b - 1); }
  }

  /** An opened commitment: its amount and its blinding factor. */
  datatype Opening = Opening(amount: U64, blinding: Key256)

  function Amounts(os: seq<Opening>): int {
    if os == [] then 0 else Amounts(os[..|os| - 1]) + os[|os| - 1].amount
  }

  ghost function Blindings(g: Group, os: seq<Opening>): int {
    if os == [] then 0 else Blindings(g, os[..|os| - 1]) + g.scalar(os[|os| - 1].blinding)
  }

  /** What the inputs hold beyond the outputs: of value, and of blinding. */
  function Surplus(osIn: seq<Opening>, osOut: seq<Opening>, fee: U64): int {
    Amounts(osIn) - Amounts(osOut) - fee
  }

  ghost function Excess(g: Group, osIn: seq<Opening>, osOut: seq<Opening>): int {
    Blindings(g, osIn) - Blindings(g, osOut)
  }

  ghost predicate Opened(k: Curve, h: Key256, cs: seq<Key256>, os: seq<Opening>) {
    |cs| == |os| && (cs == [] ||
      var n := |cs| - 1;
      Opened(k, h, cs[..n], os[..n]) && k.baseOk(os[n].blinding) && Some(cs[n]) == Commit(k, h, os[n].amount, os[n].blinding))
  }

  lemma AddIsCombo(k: Curve, g: Group, h: Key256, a: int, b: int, v: U64, r: Key256)
    requires Lawful(k, g) && Prime(g, h) && k.baseOk(r) && Commit(k, h, v, r).Some?
    ensures var sum := k.add(Combo(g, h, a, b), Commit(k, h, v, r).value);
      sum.Some? ==> sum.value == Combo(g, h, a + g.scalar(r), b + v)
  {
    CommitIsCombo(k, g, h, v, r);
    ComboAdd(g, h, a, b, g.scalar(r), v);
  }

  lemma {:induction false} SumIsCombo(k: Curve, g: Group, h: Key256, cs: seq<Key256>, os: seq<Opening>)
    requires Lawful(k, g) && Prime(g, h) && cs != [] && Opened(k, h, cs, os) && Sum(k, cs).Some?
    ensures Sum(k, cs).value == Combo(g, h, Blindings(g, os), Amounts(os))
  {
    hide Commit, Lawful, Combo, Prime;
    var n := |cs| - 1;
    var o := os[n];
    if n == 0 {
      CommitIsCombo(k, g, h, o.amount, o.blinding);
      assert os[..0] == [];
    } else {
      SumIsCombo(k, g, h, cs[..n], os[..n]);
      AddIsCombo(k, g, h, Blindings(g, os[..n]), Amounts(os[..n]), o.amount, o.blinding);
    }
  }

  lemma {:induction false} AmountsBound(os: seq<Opening>)
    ensures 0 <= Amounts(os) <= |os| * TWO_64 - |os|
  {
    if os != [] { AmountsBound(os[..|os| - 1]); }
  }

  lemma SmallMultiple(g: Group, x: int)
    requires g.order > 0 && 0 - g.order < x < g.order
    ensures Congruent(g, x, 0) <==> x == 0
  {
    if x == 0 { assert ApartBy(0, 0, 0, g.order); }
    if Congruent(g, x, 0) {
      var q: int :| ApartBy(x, 0, q, g.order);
      MultipleIsFar(q, g.order);
    }
  }

  lemma MultipleIsFar(q: int, n: nat)
    ensures q >= 1 ==> q * n >= n
    ensures q <= -1 ==> q * n <= 0 - n
  {
    if q >= 1 { assert (q - 1) * n >= 0; }
    if q <= -1 { assert (-1 - q) * n >= 0; }
  }

  /** Conservation: with independent generators, an order larger than any sum involved, valid
      points and no failing operation, the check accepts openings of the inputs and outputs
      with excess eG if and only if the inputs equal the outputs plus the fee as integers and
      e is the difference of the blinding factors. */
  lemma AcceptsIffConserved(k: Curve, g: Group, h: Key256, ins: seq<Key256>, outs: seq<Key256>, fee: U64,
                            osIn: seq<Opening>, osOut: seq<Opening>, e: int)
    requires Lawful(k, g) && Independent(g, h) && (|ins| + |outs| + 1) * TWO_64 <= g.order
    requires ins != [] && outs != [] && Opened(k, h, ins, osIn) && Opened(k, h, outs, osOut)
    requires AllValid(k, ins) && AllValid(k, outs) && k.valid(g.times(e, g.G))
    requires Difference(k, h, ins, outs, fee).Some?
    ensures Conserves(k, h, ins, outs, fee, g.times(e, g.G))
      <==> Amounts(osIn) == Amounts(osOut) + fee && Congruent(g, Excess(g, osIn, osOut), e)
  {
    OpenedDifference(k, g, h, ins, outs, fee, osIn, osOut);
    AmountsBound(osIn);
    AmountsBound(osOut);
    IsExcessIff(g, h, Excess(g, osIn, osOut), Surplus(osIn, osOut, fee), e);
  }

  lemma IsExcessIff(g: Group, h: Key256, r: int, v: int, e: int)
    requires IsGroup(g) && Independent(g, h) && 0 - g.order < v < g.order
    ensures Combo(g, h, r, v) == g.times(e, g.G) <==> v == 0 && Congruent(g, r, e)
  {
    ComboUnique(g, h, r, v, e);
    SmallMultiple(g, v);
  }

  lemma OpenedDifference(k: Curve, g: Group, h: Key256, ins: seq<Key256>, outs: seq<Key256>, fee: U64,
                         osIn: seq<Opening>, osOut: seq<Opening>)
    requires Lawful(k, g) && Prime(g, h) && ins != [] && outs != []
    requires Opened(k, h, ins, osIn) && Opened(k, h, outs, osOut) && Difference(k, h, ins, outs, fee).Some?
    ensures Difference(k, h, ins, outs, fee).value
      == Combo(g, h, Excess(g, osIn, osOut), Surplus(osIn, osOut, fee))
  {
    SumIsCombo(k, g, h, ins, osIn);
    SumIsCombo(k, g, h, outs, osOut);
    TotalIsCombo(k, g, h, ins, outs, fee, Blindings(g, osIn), Amounts(osIn), Blindings(g, osOut), Amounts(osOut),
                 Excess(g, osIn, osOut), Surplus(osIn, osOut, fee));
  }

  lemma TotalIsCombo(k: Curve, g: Group, h: Key256, ins: seq<Key256>, outs: seq<Key256>, fee: U64,
                     a: int, b: int, c: int, d: int, r: int, v: int)
    requires Lawful(k, g) && Prime(g, h) && ins != [] && outs != [] && Difference(k, h, ins, outs, fee).Some?
    requires Sum(k, ins).value == Combo(g, h, a, b) && Sum(k, outs).value == Combo(g, h, c, d)
    requires r == a - c && v == b - d - fee
    ensures Difference(k, h, ins, outs, fee).value == Combo(g, h, r, v)
  {
    var p, q := Sum(k, ins).value, Sum(k, outs).value;
    if fee > 0 {
      FeeIsCombo(k, g, h, q, c, d, fee);
      SubIsCombo(k, g, h, p, AddFee(k, h, q, fee).value, a, b, c, d + fee, r, v);
    } else {
      SubIsCombo(k, g, h, p, q, a, b, c, d, r, v);
    }
  }

  lemma FeeIsCombo(k: Curve, g: Group, h: Key256, p: Key256, r: int, v: int, fee: U64)
    requires Lawful(k, g) && Prime(g, h) && p == Combo(g, h, r, v)
    ensures fee > 0 && AddFee(k, h, p, fee).Some? ==> AddFee(k, h, p, fee).value == Combo(g, h, r, v + fee)
  {
    AmountIsCombo(k, g, h, fee);
    assert Units(g, g.G) && Closed(g, fee, h, h) && Units(g, g.times(fee, h));
    ComboAdd(g, h, r, v, 0, fee);
  }

  lemma SubIsCombo(k: Curve, g: Group, h: Key256, p: Key256, q: Key256, a: int, b: int, c: int, d: int, r: int, v: int)
    requires Lawful(k, g) && Prime(g, h) && p == Combo(g, h, a, b) && q == Combo(g, h, c, d) && r == a - c && v == b - d
    ensures k.sub(p, q).Some? ==> k.sub(p, q).value == Combo(g, h, r, v)
  {
    ComboSub(g, h, a, b, c, d);
  }
}
