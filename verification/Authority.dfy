/** Who can make a block: what acceptance demands of the signatures in a header, and which
    signatures a mined block carries (src/block.cpp:252-340, src/node.cpp:169-193, 693-727). */
module Authority {
  import opened Types
  import opened Sequences
  import opened LittleEndian
  import opened CurveModel
  import opened HeaderModel
  import opened VaultModel
  import opened Ledger
  import opened Runs
  import opened Replica
  import opened Wire
  import opened Binding
  import opened ByteOrder
  import Stealth

  // ---- What acceptance demands ----

  /** The header carries a signature of this key over the fields written out in `SigningString`,
      in the validator's place or in the quorum. */
  ghost predicate Carries(k: Curve, h: Header, pk: Key256) {
    || (h.validatorKey == pk && pk != ZERO_KEY && k.edVerify(h.validatorSig, k.hash(SigningString(h)), pk))
    || (exists i :: 0 <= i < |h.quorumKeys| && i < |h.quorumSigs| && h.quorumKeys[i] == pk
                    && k.edVerify(h.quorumSigs[i], k.hash(SigningString(h)), pk))
  }

  /** Enough distinct authorized validators have signed. */
  ghost predicate SignedByEnough(p: Params, h: Header, signers: set<Key256>) {
    |signers| >= 1 && |signers| >= p.threshold && forall pk :: pk in signers ==> pk in p.authorized && Carries(p.k, h, pk)
  }

  lemma CarriesIsSigned(k: Curve, h: Header, pk: Key256)
    ensures Carries(k, h, pk) <==> SignedBy(k, h, pk)
  {
    SigningIsOfString(k, h);
    hide SigningHash, SigningString;
  }

  /** The threshold: a block with deposits has the authority it needs if and only if as many
      distinct authorized validators as the threshold says, and at least one, have signed its
      header; any other block if and only if nobody is authorized or its validator is
      authorized and has signed it. */
  lemma AuthorityExact(p: Params, b: Block)
    ensures AuthOk(p, b) <==>
      if b.deposits != [] then exists signers :: SignedByEnough(p, b.header, signers)
      else p.authorized == [] || (b.header.validatorKey in p.authorized && b.header.validatorKey != ZERO_KEY
             && p.k.edVerify(b.header.validatorSig, p.k.hash(SigningString(b.header)), b.header.validatorKey))
  {
    var h := b.header;
    SigningIsOfString(p.k, h);
    forall pk ensures Carries(p.k, h, pk) <==> SignedBy(p.k, h, pk) { CarriesIsSigned(p.k, h, pk); }
    hide SigningHash, SigningString, Carries, SignedBy;
    var all := QuorumSet(p.k, h, p.authorized);
    if exists signers :: SignedByEnough(p, h, signers) {
      var signers :| SignedByEnough(p, h, signers);
      SubsetIsSmaller(signers, all);
      var pk :| pk in signers;
    }
    if p.authorized != [] && Quorum(p.k, h, p.authorized) >= RequiredQuorum(p) { assert SignedByEnough(p, h, all); }
  }

  /** Nobody without authority extends the ledger: a block that a node takes in, on the tip or
      over it, was signed as its kind demands. */
  lemma TakenInIsAuthorised(p: Params, s: NodeState, b: Block)
    requires ValidBlock(p, s, b)
    ensures b.deposits != [] ==> exists signers :: SignedByEnough(p, b.header, signers)
    ensures b.deposits == [] && p.authorized != [] ==> b.header.validatorKey in p.authorized && Carries(p.k, b.header, b.header.validatorKey)
  {
    hide DepositsOk, TxsOk, WithdrawalsOk, CanonicalAll, NextVault, SigningString;
    AuthorityExact(p, b);
  }

  // ---- What a mined block carries ----

  /** Signatures made with this secret key verify under its public key. */
  ghost predicate KeyWorks(k: Curve, sk: Sig64, pk: Key256) {
    forall m: Hash256 {:trigger k.edSign(m, sk)} :: k.edVerify(k.edSign(m, sk), m, pk)
  }

  /** All signatures of a header are valid. */
  ghost predicate AllSigned(k: Curve, h: Header, hash: Hash256) {
    && |h.quorumKeys| == |h.quorumSigs| && SigningHash(k, h) == hash
    && forall i :: 0 <= i < |h.quorumKeys| ==> k.edVerify(h.quorumSigs[i], hash, h.quorumKeys[i])
  }

  lemma AddSigned(k: Curve, h: Header, hash: Hash256, pk: Key256, sig: Sig64)
    requires AllSigned(k, h, hash) && k.edVerify(sig, hash, pk)
    ensures AllSigned(k, AddSigner(h, pk, sig), hash)
  {
    var q := Signers(h.quorumKeys, h.quorumSigs);
    if pk !in Keys(q) { InsertVectors(h.quorumKeys, h.quorumSigs, Position(q, pk), pk, sig); }
  }

  lemma {:induction false} CosignSigned(k: Curve, h: Header, hash: Hash256, sks: seq<Sig64>)
    requires AllSigned(k, h, hash) && forall sk :: sk in sks ==> KeyWorks(k, sk, k.skToPk(sk))
    ensures AllSigned(k, Cosign(k, h, sks), hash)
  {
    if sks != [] {
      var n := |sks| - 1;
      CosignSigned(k, h, hash, sks[..n]);
      AddSigned(k, Cosign(k, h, sks[..n]), hash, k.skToPk(sks[n]), k.edSign(hash, sks[n]));
    }
  }

  /** A mined block counts exactly its signatories: the quorum of its header is the number of
      distinct authorized keys among the validator's and its cosigners'. */
  lemma MinedCounts(p: Params, s: NodeState, timestamp: U64, sections: Block, sks: seq<Sig64>)
    requires s.db.topHeight + 1 < TWO_64 && p.pk != ZERO_KEY && KeyWorks(p.k, p.sk, p.pk)
    requires forall sk :: sk in sks ==> KeyWorks(p.k, sk, p.k.skToPk(sk))
    ensures var h := Cosign(p.k, MineBlock(p, s, timestamp, sections).header, sks);
      Quorum(p.k, h, p.authorized) == |Signatories(p.k, p.pk, sks) * Elements(p.authorized)|
  {
    var signed := MineBlock(p, s, timestamp, sections).header;
    var hash := SigningHash(p.k, signed);
    SignSigned(p.k, NextHeader(p, s, timestamp, sections), p.sk, p.pk);
    MinedQuorum(p, s, timestamp, sections, sks);
    CosignKeeps(p.k, signed, sks);
    CosignSigned(p.k, signed, hash, sks);
    hide SigningHash, MineBlock, Cosign, QuorumSet;
    SignatoriesHold(p.k, p.pk, sks);
    CountsEntries(p, Cosign(p.k, signed, sks), hash, Signatories(p.k, p.pk, sks));
  }

  lemma SignSigned(k: Curve, h: Header, sk: Sig64, pk: Key256)
    requires h.quorumKeys == [] && h.quorumSigs == [] && KeyWorks(k, sk, pk)
    ensures var r := HeaderModel.Sign(k, h, sk, pk); AllSigned(k, r, SigningHash(k, r)) && r.validatorKey == pk
  {
    var sig := k.edSign(SigningHash(k, h), sk);
    AddSigned(k, h.(validatorKey := pk, validatorSig := sig), SigningHash(k, h), pk, sig);
  }

  lemma {:induction false} SignatoriesHold(k: Curve, pk: Key256, sks: seq<Sig64>)
    ensures pk in Signatories(k, pk, sks)
  {
    if sks != [] { SignatoriesHold(k, pk, sks[..|sks| - 1]); }
  }

  lemma CountsEntries(p: Params, h: Header, hash: Hash256, keys: set<Key256>)
    requires AllSigned(p.k, h, hash) && QuorumOf(h, keys) && h.validatorKey in keys
    ensures QuorumSet(p.k, h, p.authorized) == keys * Elements(p.authorized)
  {
    hide SigningHash;
    forall pk ensures pk in QuorumSet(p.k, h, p.authorized) <==> pk in keys && pk in p.authorized {
      if pk in keys && pk in p.authorized {
        assert pk in Elements(h.quorumKeys);
        var i :| 0 <= i < |h.quorumKeys| && h.quorumKeys[i] == pk;
        assert SignedAmong(p.k, h, pk, |h.quorumKeys|);
      }
    }
  }

  /** When a deposit is booked: exactly if the vault admits its amount, its output can be derived,
      and, where somebody is authorized, the validator and the cosigners hold as many distinct
      authorized keys as the threshold says, and at least one. */
  lemma DepositNeedsQuorum(p: Params, s: NodeState, a: BuyArgs)
    requires s.db.topHeight + 1 < TWO_64 && Solvent(s.vault) && p.pk != ZERO_KEY && KeyWorks(p.k, p.sk, p.pk)
    requires forall sk :: sk in a.cosigners ==> KeyWorks(p.k, sk, p.k.skToPk(sk))
    ensures var signers := Signatories(p.k, p.pk, a.cosigners) * Elements(p.authorized);
      Buy(p, s, a).Mined?
      <==> 0 < a.gross <= MAX_TRANSACTION_AMOUNT && p.depositBps <= 10000 && s.vault.collateral + a.gross < TWO_64
           && Stealth.CreateOutput(p.k, a.to, ReceiptOf(p, a).net, DepositSecret(p.k, a)).Some?
           && (p.authorized == [] || (|signers| >= 1 && |signers| >= p.threshold))
  {
    hide Append, Quorum, MineBlock, Cosign, Stealth.CreateOutput, Stealth.DepositSeed, Stealth.SeededSecret, ToHex;
    DepositOnSolvent(s.vault, p.depositBps, a.gross);
    var (v, r) := ApplyDeposit(s.vault, p.depositBps, a.gross);
    if r.Done? {
      DepositSplit(s.vault, p.depositBps, a.gross);
      var sections := DepositSections(p, r.value, a);
      if sections.Some? { MinedCounts(p, s, a.timestamp, sections.value, a.cosigners); }
    }
  }
}
