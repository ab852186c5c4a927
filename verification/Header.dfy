/** Block headers: signing, the canonical quorum vectors, and counting the quorum
    (src/block.cpp, BlockHeader). */
module HeaderModel {
  import opened Types
  import opened ByteOrder
  import opened LittleEndian
  import opened CurveModel
  import opened Sequences

  function SigningHash(k: Curve, h: Header): Hash256 {
    k.hash(EncU32(h.version) + EncU64(h.height) + h.prevHash + h.merkleRoot + EncU64(h.timestamp) + EncU64(h.nonce))
  }

  /** One entry of the quorum: a missing signature is written as zeros. */
  function EncQuorumEntry(h: Header, i: nat): (b: Bytes)
    requires i < |h.quorumKeys|
    ensures |b| == 96
  {
    h.quorumKeys[i] + (if i < |h.quorumSigs| then h.quorumSigs[i] else ZERO_SIG)
  }

  function EncQuorum(h: Header, n: nat): (b: Bytes)
    requires n <= |h.quorumKeys|
    ensures |b| == 96 * n
  {
    if n == 0 then [] else EncQuorum(h, n - 1) + EncQuorumEntry(h, n - 1)
  }

  /** The fields before the quorum. */
  function EncHeaderBase(h: Header): (b: Bytes)
    ensures |b| == 188
  {
    EncU32(h.version) + EncU64(h.height) + h.prevHash + h.merkleRoot + EncU64(h.timestamp) + EncU64(h.nonce)
    + h.validatorKey + h.validatorSig
  }

  /** `serialize_header`: the quorum is always written. */
  function EncHeader(h: Header): (b: Bytes)
    ensures |b| == 192 + 96 * |h.quorumKeys|
  {
    EncHeaderBase(h) + EncU32(|h.quorumKeys| % TWO_32) + EncQuorum(h, |h.quorumKeys|)
  }

  function HeaderHash(k: Curve, h: Header): Hash256 {
    k.hash(EncHeader(h))
  }

  // ---- Counting ----

  predicate VerifySignature(k: Curve, h: Header) {
    h.validatorKey != ZERO_KEY && k.edVerify(h.validatorSig, SigningHash(k, h), h.validatorKey)
  }

  /** The header carries a valid signature of this key, as validator or in the quorum. */
  predicate SignedBy(k: Curve, h: Header, pk: Key256) {
    (pk == h.validatorKey && VerifySignature(k, h)) || SignedAmong(k, h, pk, |h.quorumKeys|)
  }

  predicate SignedAmong(k: Curve, h: Header, pk: Key256, n: nat)
    requires n <= |h.quorumKeys|
  {
    exists i :: 0 <= i < n && i < |h.quorumSigs| && h.quorumKeys[i] == pk
                && k.edVerify(h.quorumSigs[i], SigningHash(k, h), pk)
  }

  /** The distinct authorized keys with a valid signature in the header. */
  ghost function QuorumSet(k: Curve, h: Header, auth: seq<Key256>): set<Key256> {
    set pk | pk in auth && SignedBy(k, h, pk)
  }

  ghost function Quorum(k: Curve, h: Header, auth: seq<Key256>): nat {
    |QuorumSet(k, h, auth)|
  }

  method Contains(keys: seq<Key256>, pk: Key256) returns (found: bool)
    ensures found <==> pk in keys
  {
    for i := 0 to |keys|
      invariant pk !in keys[..i]
    {
      if keys[i] == pk { return true; }
    }
    return false;
  }

  /** `verify_quorum` returns exactly the number of distinct authorized signers. */
  method VerifyQuorum(k: Curve, h: Header, auth: seq<Key256>) returns (n: nat)
    ensures n == Quorum(k, h, auth)
  {
    if auth == [] {
      assert QuorumSet(k, h, auth) == {};
      return 0;
    }
    var verified: seq<Key256> := [];
    if VerifySignature(k, h) {
      var found := Contains(auth, h.validatorKey);
      if found { verified := [h.validatorKey]; }
    }
    var count := if |h.quorumKeys| <= |h.quorumSigs| then |h.quorumKeys| else |h.quorumSigs|;
    for i := 0 to count
      invariant NoDup(verified) && Counted(k, h, auth, verified, i)
    {
      var pk := h.quorumKeys[i];
      var authorized := Contains(auth, pk);
      var counted := Contains(verified, pk);
      CountOneMore(k, h, auth, verified, i);
      if authorized && !counted && k.edVerify(h.quorumSigs[i], SigningHash(k, h), pk) {
        verified := verified + [pk];
      }
    }
    assert forall x :: SignedAmong(k, h, x, count) <==> SignedAmong(k, h, x, |h.quorumKeys|);
    assert Elements(verified) == QuorumSet(k, h, auth);
    NoDupCardinality(verified);
    return |verified|;
  }

  /** The vector holds the authorized keys that signed as validator or among the first n. */
  ghost predicate Counted(k: Curve, h: Header, auth: seq<Key256>, verified: seq<Key256>, n: nat)
    requires n <= |h.quorumKeys|
  {
    forall x :: x in verified <==>
      x in auth && ((x == h.validatorKey && VerifySignature(k, h)) || SignedAmong(k, h, x, n))
  }

  lemma CountOneMore(k: Curve, h: Header, auth: seq<Key256>, verified: seq<Key256>, i: nat)
    requires i < |h.quorumKeys| && i < |h.quorumSigs| && Counted(k, h, auth, verified, i)
    ensures var pk := h.quorumKeys[i];
      Counted(k, h, auth,
        if pk in auth && pk !in verified && k.edVerify(h.quorumSigs[i], SigningHash(k, h), pk) then verified + [pk] else verified,
        i + 1)
  {
    var pk := h.quorumKeys[i];
    forall x ensures SignedAmong(k, h, x, i + 1) <==>
      SignedAmong(k, h, x, i) || (x == pk && k.edVerify(h.quorumSigs[i], SigningHash(k, h), pk)) {}
  }

  // ---- The canonical quorum vectors ----

  datatype Signer = Signer(key: Key256, sig: Sig64)

  function Keys(q: seq<Signer>): (r: seq<Key256>)
    ensures |r| == |q| && forall i :: 0 <= i < |q| ==> r[i] == q[i].key
  {
    seq(|q|, i requires 0 <= i < |q| => q[i].key)
  }

  function Sigs(q: seq<Signer>): (r: seq<Sig64>)
    ensures |r| == |q| && forall i :: 0 <= i < |q| ==> r[i] == q[i].sig
  {
    seq(|q|, i requires 0 <= i < |q| => q[i].sig)
  }

  function Signers(keys: seq<Key256>, sigs: seq<Sig64>): (q: seq<Signer>)
    requires |keys| == |sigs|
    ensures Keys(q) == keys && Sigs(q) == sigs
  {
    seq(|keys|, i requires 0 <= i < |keys| => Signer(keys[i], sigs[i]))
  }

  /** The leading entries with smaller keys. */
  function Position(q: seq<Signer>, key: Key256): (p: nat)
    ensures p <= |q|
    ensures forall i :: 0 <= i < p ==> Less(q[i].key, key)
    ensures p < |q| ==> !Less(q[p].key, key)
  {
    if q == [] || !Less(q[0].key, key) then 0 else 1 + Position(q[1..], key)
  }

  function Insert(q: seq<Signer>, s: Signer): seq<Signer> {
    if s.key in Keys(q) then q else
    var p := Position(q, s.key);
    q[..p] + [s] + q[p..]
  }

  function InsertAll(ss: seq<Signer>): seq<Signer> {
    if ss == [] then [] else Insert(InsertAll(ss[..|ss| - 1]), ss[|ss| - 1])
  }

  ghost predicate Sorted(q: seq<Signer>) {
    forall i, j :: 0 <= i < j < |q| ==> Less(q[i].key, q[j].key)
  }

  lemma InsertSorted(q: seq<Signer>, s: Signer)
    requires Sorted(q)
    ensures Sorted(Insert(q, s))
    ensures forall x :: x in Insert(q, s) <==> x in q || (x == s && s.key !in Keys(q))
  {
    if s.key !in Keys(q) {
      var p := Position(q, s.key);
      forall i | p <= i < |q| ensures Less(s.key, q[i].key) {
        assert q[i].key in Keys(q) && q[p].key in Keys(q);
        LessTotal(s.key, q[p].key);
        if p < i { LessTrans(s.key, q[p].key, q[i].key); }
      }
      InsertAt(q, p, s);
      InsertMembers(q, p, s);
    }
  }

  lemma HeadNotInTail(q: seq<Signer>)
    requires Sorted(q) && q != []
    ensures q[0] !in q[1..] && forall x :: x in q <==> x == q[0] || x in q[1..]
  {
    assert q == [q[0]] + q[1..];
    forall i | 0 <= i < |q[1..]| ensures q[1..][i] != q[0] {
      assert Less(q[0].key, q[i + 1].key);
      LessTotal(q[0].key, q[i + 1].key);
    }
  }

  lemma EmptyAlike(q: seq<Signer>, r: seq<Signer>)
    requires forall x :: x in r ==> x in q
    ensures q == [] ==> r == []
  {
    if r != [] { assert r[0] in q; }
  }

  /** Sorted vectors with the same entries are the same vector. */
  lemma {:induction false} SortedUnique(q: seq<Signer>, r: seq<Signer>)
    requires Sorted(q) && Sorted(r) && forall x :: x in q <==> x in r
    ensures q == r
  {
    EmptyAlike(q, r);
    if q != [] {
      assert q[0] in r && r[0] in q;
      HeadNotInTail(q);
      HeadNotInTail(r);
      if q[0] != r[0] {
        var i :| 0 <= i < |r| && r[i] == q[0];
        var j :| 0 <= j < |q| && q[j] == r[0];
        LessTotal(q[0].key, r[0].key);
      }
      SortedUnique(q[1..], r[1..]);
      assert q == [q[0]] + q[1..] && r == [r[0]] + r[1..];
    }
  }

  ghost predicate DistinctSigners(ss: seq<Signer>) {
    forall i, j :: 0 <= i < j < |ss| ==> ss[i].key != ss[j].key
  }

  lemma {:induction false} InsertAllSorted(ss: seq<Signer>)
    requires DistinctSigners(ss)
    ensures Sorted(InsertAll(ss)) && forall x :: x in InsertAll(ss) <==> x in ss
  {
    if ss != [] {
      var n := |ss| - 1;
      InsertAllSorted(ss[..n]);
      InsertSorted(InsertAll(ss[..n]), ss[n]);
      var q := InsertAll(ss[..n]);
      forall i | 0 <= i < |q| ensures Keys(q)[i] != ss[n].key {
        assert q[i] in ss[..n];
      }
      assert ss == ss[..n] + [ss[n]];
    }
  }

  /** Canonicity: signatures of distinct signers, added in any order to an empty quorum, give
      the same parallel vectors, hence the same header bytes and hash. */
  lemma QuorumOrderIrrelevant(k: Curve, h: Header, ss: seq<Signer>, tt: seq<Signer>)
    requires DistinctSigners(ss) && DistinctSigners(tt) && multiset(ss) == multiset(tt)
    ensures InsertAll(ss) == InsertAll(tt)
    ensures var hs := h.(quorumKeys := Keys(InsertAll(ss)), quorumSigs := Sigs(InsertAll(ss)));
      var ht := h.(quorumKeys := Keys(InsertAll(tt)), quorumSigs := Sigs(InsertAll(tt)));
      EncHeader(hs) == EncHeader(ht) && HeaderHash(k, hs) == HeaderHash(k, ht)
  {
    InsertAllSorted(ss);
    InsertAllSorted(tt);
    forall x ensures x in ss <==> x in tt {
      assert x in multiset(ss) <==> x in multiset(tt);
    }
    SortedUnique(InsertAll(ss), InsertAll(tt));
  }

  lemma InsertVectors(keys: seq<Key256>, sigs: seq<Sig64>, pos: nat, pk: Key256, sig: Sig64)
    requires |keys| == |sigs| && pos <= |keys| && pk !in keys && pos == Position(Signers(keys, sigs), pk)
    ensures var q := Insert(Signers(keys, sigs), Signer(pk, sig));
      Keys(q) == keys[..pos] + [pk] + keys[pos..] && Sigs(q) == sigs[..pos] + [sig] + sigs[pos..]
  {
    var q, s := Signers(keys, sigs), Signer(pk, sig);
    Concatenated(q[..pos], [s]);
    Concatenated(q[..pos] + [s], q[pos..]);
    assert Keys(q[..pos]) == keys[..pos] && Keys(q[pos..]) == keys[pos..] && Keys([s]) == [pk];
    assert Sigs(q[..pos]) == sigs[..pos] && Sigs(q[pos..]) == sigs[pos..] && Sigs([s]) == [sig];
    assert s.key !in Keys(q);
  }

  lemma Concatenated(q: seq<Signer>, r: seq<Signer>)
    ensures Keys(q + r) == Keys(q) + Keys(r) && Sigs(q + r) == Sigs(q) + Sigs(r)
  {
  }

  function AddSigner(h: Header, pk: Key256, sig: Sig64): (r: Header)
    requires |h.quorumKeys| == |h.quorumSigs|
    ensures |r.quorumKeys| == |r.quorumSigs|
  {
    var q := Insert(Signers(h.quorumKeys, h.quorumSigs), Signer(pk, sig));
    h.(quorumKeys := Keys(q), quorumSigs := Sigs(q))
  }

  /** `sign`: the signature covers neither the validator key nor the quorum. */
  function Sign(k: Curve, h: Header, sk: Sig64, pk: Key256): (r: Header)
    requires |h.quorumKeys| == |h.quorumSigs|
    ensures |r.quorumKeys| == |r.quorumSigs|
  {
    var sig := k.edSign(SigningHash(k, h), sk);
    AddSigner(h.(validatorKey := pk, validatorSig := sig), pk, sig)
  }

  /** The signatures of the cosigners, in the order their keys are given. */
  function Cosign(k: Curve, h: Header, sks: seq<Sig64>): (r: Header)
    requires |h.quorumKeys| == |h.quorumSigs|
    ensures |r.quorumKeys| == |r.quorumSigs|
  {
    if sks == [] then h else
    var sk := sks[|sks| - 1];
    var h' := Cosign(k, h, sks[..|sks| - 1]);
    AddSigner(h', k.skToPk(sk), k.edSign(SigningHash(k, h'), sk))
  }

  /** The header object: signing fields are fixed, the validator and the quorum are filled in. */
  class BlockHeader {
    const base: Header
    var validatorKey: Key256
    var validatorSig: Sig64
    var quorumKeys: seq<Key256>
    var quorumSigs: seq<Sig64>

    function Value(): Header
      reads this
    {
      base.(validatorKey := validatorKey, validatorSig := validatorSig, quorumKeys := quorumKeys, quorumSigs := quorumSigs)
    }

    constructor (h: Header)
      ensures Value() == h
    {
      base := h;
      validatorKey, validatorSig, quorumKeys, quorumSigs := h.validatorKey, h.validatorSig, h.quorumKeys, h.quorumSigs;
    }

    method AddQuorumSignature(pk: Key256, sig: Sig64)
      requires |quorumKeys| == |quorumSigs|
      modifies this`quorumKeys, this`quorumSigs
      ensures Value() == AddSigner(old(Value()), pk, sig)
    {
      ghost var q := Signers(quorumKeys, quorumSigs);
      for i := 0 to |quorumKeys|
        invariant pk !in quorumKeys[..i]
      {
        if quorumKeys[i] == pk {
          assert Keys(q)[i] == pk;
          return;
        }
      }
      var pos := 0;
      while pos < |quorumKeys| && Less(quorumKeys[pos], pk)
        invariant pos <= Position(q, pk)
      {
        assert q[pos].key == quorumKeys[pos];
        pos := pos + 1;
      }
      InsertVectors(quorumKeys, quorumSigs, pos, pk, sig);
      quorumKeys := quorumKeys[..pos] + [pk] + quorumKeys[pos..];
      quorumSigs := quorumSigs[..pos] + [sig] + quorumSigs[pos..];
    }

    method SignAs(k: Curve, sk: Sig64, pk: Key256)
      requires |quorumKeys| == |quorumSigs|
      modifies this
      ensures Value() == Sign(k, old(Value()), sk, pk)
    {
      validatorKey := pk;
      validatorSig := k.edSign(SigningHash(k, Value()), sk);
      AddQuorumSignature(pk, validatorSig);
    }

    method CosignAll(k: Curve, sks: seq<Sig64>)
      requires |quorumKeys| == |quorumSigs|
      modifies this
      ensures Value() == Cosign(k, old(Value()), sks)
    {
      for i := 0 to |sks|
        invariant |quorumKeys| == |quorumSigs|
        invariant Value() == Cosign(k, old(Value()), sks[..i])
      {
        assert sks[..i + 1][..i] == sks[..i];
        var sig := k.edSign(SigningHash(k, Value()), sks[i]);
        AddQuorumSignature(k.skToPk(sks[i]), sig);
      }
      assert sks[..|sks|] == sks;
    }
  }
}
