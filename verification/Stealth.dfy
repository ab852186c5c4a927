/** Dual-key stealth outputs (src/stealth.cpp) and the check of a remote deposit's output
    against the receipt that names its recipient (src/node.cpp). */
module Stealth {
  import opened Types
  import opened CurveModel
  import opened Ring

  datatype Address = Address(spendPub: Key256, viewPub: Key256)

  datatype Wallet = Wallet(spendPriv: Key256, spendPub: Key256, viewPriv: Key256, viewPub: Key256) {
    function Public(): Address { Address(spendPub, viewPub) }
  }

  /** The secret of an output, from the shared point. */
  function SharedScalar(k: Curve, shared: Key256): Key256 {
    HashScalar(k, shared)
  }

  /** `create_one_time_output` with ephemeral secret r; None is its exception. The return
      codes of the two base multiplications are not looked at. */
  function CreateOutput(k: Curve, to: Address, amount: U64, r: Key256): (out: Option<OneTimeOutput>)
    ensures out.Some? ==> out.value.amount == amount && out.value.ephemeral == k.base(r)
  {
    match k.mul(r, to.viewPub) case None => None case Some(rB) =>
      match k.add(k.base(SharedScalar(k, rB)), to.spendPub) case None => None case Some(p) =>
        Some(OneTimeOutput(k.base(r), p, amount))
  }

  /** The ephemeral secret derived from a seed. */
  function SeededSecret(k: Curve, seed: Hash256): Key256 {
    HashScalar(k, seed)
  }

  function ScanOutput(k: Curve, w: Wallet, out: OneTimeOutput): bool {
    match k.mul(w.viewPriv, out.ephemeral) case None => false case Some(bR) =>
      match k.add(k.base(SharedScalar(k, bR)), w.spendPub) case None => false case Some(p) => p == out.destination
  }

  function DerivePrivateKey(k: Curve, w: Wallet, out: OneTimeOutput): Option<Key256> {
    match k.mul(w.viewPriv, out.ephemeral) case None => None case Some(bR) =>
      Some(k.scalarAdd(SharedScalar(k, bR), w.spendPriv))
  }

  /** The public keys of the wallet are those of its private keys. */
  ghost predicate Keyed(g: Group, w: Wallet) {
    Opens(g, w.spendPriv, w.spendPub) && Opens(g, w.viewPriv, w.viewPub)
  }

  /** r (b G) = b (r G). */
  lemma SharedPoint(k: Curve, g: Group, w: Wallet, r: Key256)
    requires Lawful(k, g) && Keyed(g, w) && k.baseOk(r)
    requires k.mul(r, w.viewPub).Some? && k.mul(w.viewPriv, k.base(r)).Some?
    ensures k.mul(w.viewPriv, k.base(r)) == k.mul(r, w.viewPub)
  {
    var vr, vb := g.scalar(r), g.scalar(w.viewPriv);
    assert NestsTimes(g, vr, vb, g.G) && NestsTimes(g, vb, vr, g.G);
    assert vr * vb == vb * vr;
  }

  /** If the scan of an output succeeds, the derived key opens it: xG = P. */
  lemma ScannedKeyOpens(k: Curve, g: Group, w: Wallet, out: OneTimeOutput)
    requires Lawful(k, g) && Keyed(g, w) && ScanOutput(k, w, out)
    requires k.baseOk(SharedScalar(k, k.mul(w.viewPriv, out.ephemeral).value))
    ensures DerivePrivateKey(k, w, out).Some? && Opens(g, DerivePrivateKey(k, w, out).value, out.destination)
  {
    SumOpens(k, g, SharedScalar(k, k.mul(w.viewPriv, out.ephemeral).value), w.spendPriv);
  }

  /** (s + a) G = s G + a G. */
  lemma SumOpens(k: Curve, g: Group, s: Key256, a: Key256)
    requires Lawful(k, g)
    ensures g.times(g.scalar(k.scalarAdd(s, a)), g.G) == g.plus(g.times(g.scalar(s), g.G), g.times(g.scalar(a), g.G))
  {
    var x := k.scalarAdd(s, a);
    assert AddsTimes(g, g.scalar(s), g.scalar(a), g.G);
    assert Congruent(g, g.scalar(x), g.scalar(s) + g.scalar(a));
    TimesCongruent(g, g.scalar(x), g.scalar(s) + g.scalar(a), g.G);
  }

  /** Spendability: an output created for a wallet's address is found by its scan, and the
      key it derives opens the output; a burn proof made with that key verifies exactly when
      its points are admissible and the verifier's operations succeed. */
  lemma CreatedIsSpendable(k: Curve, g: Group, w: Wallet, amount: U64, r: Key256, out: OneTimeOutput,
                           m: Hash256, alpha: Key256, proof: BurnProof)
    requires Lawful(k, g) && Keyed(g, w) && k.baseOk(r)
    requires CreateOutput(k, w.Public(), amount, r) == Some(out)
    requires k.mul(w.viewPriv, out.ephemeral).Some? && k.baseOk(SharedScalar(k, k.mul(r, w.viewPub).value))
    ensures ScanOutput(k, w, out)
    ensures DerivePrivateKey(k, w, out).Some? && Opens(g, DerivePrivateKey(k, w, out).value, out.destination)
    ensures SignBurn(k, m, out.destination, DerivePrivateKey(k, w, out).value, alpha) == Some(proof) ==>
      (VerifyBurn(k, m, out.destination, proof.keyImage, proof.c0, proof.s)
       <==> BurnAdmissible(k, out.destination, proof.keyImage)
            && Step(k, true, m, proof.keyImage, proof.s, proof.c0, out.destination).Some?)
  {
    SharedPoint(k, g, w, r);
    ScannedKeyOpens(k, g, w, out);
    var x := DerivePrivateKey(k, w, out).value;
    if SignBurn(k, m, out.destination, x, alpha) == Some(proof) {
      BurnThenVerify(k, g, m, out.destination, x, alpha, proof);
    }
  }

  /** One-time keys do not repeat: two outputs for one address have one destination only if their
      shared points are equal, or the hashes of two different points lead to one point. */
  lemma OneTimeKeysDiffer(k: Curve, g: Group, to: Address, x: U64, y: U64, r: Key256, s: Key256, a: OneTimeOutput, b: OneTimeOutput)
    requires Lawful(k, g) && CreateOutput(k, to, x, r) == Some(a) && CreateOutput(k, to, y, s) == Some(b)
    requires a.destination == b.destination
    ensures k.mul(r, to.viewPub).Some? && k.mul(s, to.viewPub).Some?
    ensures var p, q := k.mul(r, to.viewPub).value, k.mul(s, to.viewPub).value;
      p == q || (p != q && k.base(HashScalar(k, p)) == k.base(HashScalar(k, q)))
  {
    var p, q := k.mul(r, to.viewPub).value, k.mul(s, to.viewPub).value;
    Cancels(g, k.base(SharedScalar(k, p)), k.base(SharedScalar(k, q)), to.spendPub);
  }

  // ---- Deposits: the output is determined by the receipt ----

  function DepositSeed(k: Curve, txHash: Text): Hash256 {
    k.hash(txHash)
  }

  /** The re-derivation inlined in remote validation, check by check. */
  predicate RederivationAccepts(k: Curve, dep: DepositReceipt, out: OneTimeOutput) {
    var r := HashScalar(k, DepositSeed(k, dep.txHash));
    && k.baseOk(r) && out.ephemeral == k.base(r)
    && dep.viewPub != ZERO_KEY && k.valid(dep.viewPub) && k.valid(dep.spendPub)
    && var rB := k.mul(r, dep.viewPub);
    && rB.Some?
    && var s := HashScalar(k, rB.value);
    && k.baseOk(s)
    && var p := k.add(k.base(s), dep.spendPub);
    && p.Some? && out.destination == p.value && k.valid(out.destination)
  }

  /** What the depositing node does not check but every other node does: the two base
      multiplications, the recipient's keys, and the resulting point. */
  predicate DepositKeysOk(k: Curve, dep: DepositReceipt) {
    var r := SeededSecret(k, DepositSeed(k, dep.txHash));
    && k.baseOk(r) && dep.viewPub != ZERO_KEY && k.valid(dep.viewPub) && k.valid(dep.spendPub)
    && var out := CreateOutput(k, Address(dep.spendPub, dep.viewPub), dep.net, r);
    && out.Some? && k.valid(out.value.destination)
    && k.baseOk(SharedScalar(k, k.mul(r, dep.viewPub).value))
  }

  /** Remote validation accepts one output for a receipt: the one `create_one_time_output`
      derives from the transaction hash as seed, and that one exactly when the recipient's
      keys and the base multiplications pass. */
  lemma RederivationIsCreation(k: Curve, dep: DepositReceipt, out: OneTimeOutput)
    ensures RederivationAccepts(k, dep, out) && out.amount == dep.net
      <==> DepositKeysOk(k, dep)
           && Some(out) == CreateOutput(k, Address(dep.spendPub, dep.viewPub), dep.net,
                                        SeededSecret(k, DepositSeed(k, dep.txHash)))
  {
  }

  /** Nor do the ephemeral keys of accepted deposits: two with one ephemeral key have one deposit
      id, or two different ids lead through hash and reduction to one point. */
  lemma DepositKeysDiffer(k: Curve, d: DepositReceipt, e: DepositReceipt, a: OneTimeOutput, b: OneTimeOutput)
    requires RederivationAccepts(k, d, a) && RederivationAccepts(k, e, b) && a.ephemeral == b.ephemeral
    ensures d.txHash == e.txHash
      || (d.txHash != e.txHash && k.base(HashScalar(k, k.hash(d.txHash))) == k.base(HashScalar(k, k.hash(e.txHash))))
  {
  }
}
