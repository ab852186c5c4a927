/** The daemon's deposit handler: the identity of an L2 event, counting attestations, and
    idempotency by the ledger's deposit table (src/rpc_server.cpp:378-471). */
module DepositHandler {
  import opened Types
  import opened Sequences
  import opened CurveModel
  import opened HeaderModel
  import opened VaultModel
  import opened DbModel
  import opened Ledger
  import opened Runs
  import Oracle

  // ---- The identity of an event ----

  const COLON: Byte := 58

  /** std::to_string on an unsigned integer. */
  function Decimal(n: nat): (d: Bytes)
    ensures d != [] && forall i :: 0 <= i < |d| ==> 48 <= d[i] <= 57
  {
    if n < 10 then [48 + n] else Decimal(n / 10) + [48 + n % 10]
  }

  lemma {:induction false} DecimalInjective(m: nat, n: nat)
    requires Decimal(m) == Decimal(n)
    ensures m == n
  {
    var a, b := Decimal(m), Decimal(n);
    assert a[|a| - 1] == b[|b| - 1];
    if m >= 10 && n >= 10 {
      assert a[..|a| - 1] == Decimal(m / 10) && b[..|b| - 1] == Decimal(n / 10);
      DecimalInjective(m / 10, n / 10);
    }
  }

  predicate NoColon(b: Bytes) { COLON !in b }

  function FirstColon(s: Bytes): nat {
    if s == [] || s[0] == COLON then 0 else 1 + FirstColon(s[1..])
  }

  lemma {:induction false} FirstColonIs(a: Bytes, x: Bytes)
    requires NoColon(a)
    ensures FirstColon(a + [COLON] + x) == |a|
  {
    if a != [] {
      assert (a + [COLON] + x)[1..] == a[1..] + [COLON] + x;
      FirstColonIs(a[1..], x);
    }
  }

  /** What stands before the first colon is determined by the whole. */
  lemma SplitAtColon(a: Bytes, x: Bytes, b: Bytes, y: Bytes)
    requires NoColon(a) && NoColon(b) && a + [COLON] + x == b + [COLON] + y
    ensures a == b && x == y
  {
    FirstColonIs(a, x);
    FirstColonIs(b, y);
    assert (a + [COLON] + x)[..|a|] == a && (b + [COLON] + y)[..|b|] == b;
    assert (a + [COLON] + x)[|a| + 1..] == x && (b + [COLON] + y)[|b| + 1..] == y;
  }

  /** chainId:contract:txHash:logIndex. */
  function EventId(chain: nat, contract: Bytes, tx: Bytes, log: nat): Bytes {
    Decimal(chain) + [COLON] + (contract + [COLON] + (tx + [COLON] + Decimal(log)))
  }

  /** What stands after the last colon is determined by the whole. */
  lemma SplitAtLastColon(x: Bytes, a: Bytes, y: Bytes, b: Bytes)
    requires NoColon(a) && NoColon(b) && x + [COLON] + a == y + [COLON] + b
    ensures x == y && a == b
  {
    var s, t := x + [COLON] + a, y + [COLON] + b;
    assert forall i :: |x| < i < |s| ==> s[i] == a[i - |x| - 1];
    assert forall i :: |y| < i < |t| ==> t[i] == b[i - |y| - 1];
    assert s[|x|] == COLON && t[|y|] == COLON;
    assert |x| == |y|;
    assert s[..|x|] == x && t[..|y|] == y;
    assert s[|x| + 1..] == a && t[|y| + 1..] == b;
  }

  /** The exact identity of an event: ids are equal if and only if chain and log index are, and
      contract and transaction joined by a colon are. */
  lemma EventIdExact(c: nat, a: Bytes, t: Bytes, l: nat, d: nat, b: Bytes, u: Bytes, m: nat)
    ensures EventId(c, a, t, l) == EventId(d, b, u, m)
      <==> c == d && l == m && a + [COLON] + t == b + [COLON] + u
  {
    var x, y := a + [COLON] + t, b + [COLON] + u;
    Grouped(a, t, Decimal(l));
    Grouped(b, u, Decimal(m));
    if EventId(c, a, t, l) == EventId(d, b, u, m) {
      SplitAtColon(Decimal(c), x + [COLON] + Decimal(l), Decimal(d), y + [COLON] + Decimal(m));
      SplitAtLastColon(x, Decimal(l), y, Decimal(m));
      DecimalInjective(c, d);
      DecimalInjective(l, m);
    }
  }

  lemma Grouped(a: Bytes, t: Bytes, l: Bytes)
    ensures a + [COLON] + (t + [COLON] + l) == (a + [COLON] + t) + [COLON] + l
  {
  }

  /** With contracts that hold no colon, as addresses do, different logs, transactions, contracts
      or chains are different events, whatever the transaction hashes are. */
  lemma EventIdInjective(c: nat, a: Bytes, t: Bytes, l: nat, d: nat, b: Bytes, u: Bytes, m: nat)
    requires NoColon(a) && NoColon(b) && EventId(c, a, t, l) == EventId(d, b, u, m)
    ensures c == d && a == b && t == u && l == m
  {
    EventIdExact(c, a, t, l, d, b, u, m);
    SplitAtColon(a, t, b, u);
  }

  /** The handler does not ask for an address: contract "a:b" with transaction "c", and contract
      "a" with transaction "b:c", are one event. */
  lemma EventIdsCollide(c: nat, l: nat)
    ensures EventId(c, [97, COLON, 98], [99], l) == EventId(c, [97], [98, COLON, 99], l)
  {
    EventIdExact(c, [97, COLON, 98], [99], l, c, [97], [98, COLON, 99], l);
    assert [97, COLON, 98] + [COLON] + [99] == [97] + [COLON] + [98, COLON, 99];
  }

  // ---- Attestations ----

  ghost predicate Attests(k: Curve, auth: seq<Key256>, hash: Hash256, items: seq<Signer>, pk: Key256) {
    pk in auth && exists i :: 0 <= i < |items| && items[i].key == pk && k.edVerify(items[i].sig, hash, pk)
  }

  /** The authorized keys with a valid signature among the items. */
  ghost function Attesters(k: Curve, auth: seq<Key256>, hash: Hash256, items: seq<Signer>): set<Key256> {
    set pk | pk in auth && Attests(k, auth, hash, items, pk)
  }

  method CollectAttestations(k: Curve, auth: seq<Key256>, hash: Hash256, items: seq<Signer>) returns (attested: seq<Key256>)
    ensures NoDup(attested) && Elements(attested) == Attesters(k, auth, hash, items)
    ensures |attested| == |Attesters(k, auth, hash, items)|
  {
    attested := [];
    for i := 0 to |items|
      invariant NoDup(attested) && forall pk :: pk in attested <==> Attests(k, auth, hash, items[..i], pk)
    {
      var pk := items[i].key;
      var authorized := Contains(auth, pk);
      var counted := Contains(attested, pk);
      OneMoreItem(k, auth, hash, items, i);
      if authorized && k.edVerify(items[i].sig, hash, pk) && !counted { attested := attested + [pk]; }
    }
    assert items[..|items|] == items;
    assert forall pk :: pk in attested ==> pk in auth;
    NoDupCardinality(attested);
  }

  lemma OneMoreItem(k: Curve, auth: seq<Key256>, hash: Hash256, items: seq<Signer>, i: nat)
    requires i < |items|
    ensures forall pk :: Attests(k, auth, hash, items[..i + 1], pk) <==>
      Attests(k, auth, hash, items[..i], pk) || (pk in auth && items[i].key == pk && k.edVerify(items[i].sig, hash, pk))
  {
    var a, b := items[..i], items[..i + 1];
    assert b[i] == items[i] && forall j :: 0 <= j < i ==> a[j] == b[j];
  }

  // ---- The handler over the ledger ----

  datatype Reply = Conflict | Unauthorized | Created(block: Block) | Thrown

  /** An event in the deposit table is refused, then the attestations are counted, then the
      deposit is bought under the event's id. */
  ghost function HandleDeposit(p: Params, s: NodeState, id: Text, hash: Hash256, items: seq<Signer>, a: BuyArgs): (NodeState, Reply)
    requires id != [] && s.db.topHeight + 1 < TWO_64
  {
    if id in s.db.tables.deposits then (s, Conflict) else
    if |Attesters(p.k, p.authorized, hash, items)| < RequiredQuorum(p) then (s, Unauthorized) else
    match Buy(p, s, a.(customTxHash := id))
    case Mined(t, b) => (t, Created(b))
    case Failed(t) => (t, Thrown)
  }

  /** Enough distinct authorized validators attest the event, and at least one. */
  ghost predicate Certified(p: Params, hash: Hash256, items: seq<Signer>, signers: set<Key256>) {
    && |signers| >= 1 && |signers| >= p.threshold
    && forall pk :: pk in signers ==> pk in p.authorized && exists item :: item in items && item.key == pk && p.k.edVerify(item.sig, hash, pk)
  }

  /** Nothing is minted without a certificate: a new event is refused as unauthorized exactly when
      fewer distinct authorized validators than the threshold, or none, have attested it. */
  lemma CertificateNeeded(p: Params, s: NodeState, id: Text, hash: Hash256, items: seq<Signer>, a: BuyArgs)
    requires id != [] && s.db.topHeight + 1 < TWO_64
    ensures var r := HandleDeposit(p, s, id, hash, items, a).1;
      && (r == Unauthorized <==> id !in s.db.tables.deposits && !exists signers :: Certified(p, hash, items, signers))
      && (r.Created? ==> exists signers :: Certified(p, hash, items, signers))
  {
    hide Buy;
    var all := Attesters(p.k, p.authorized, hash, items);
    if |all| >= RequiredQuorum(p) {
      forall pk | pk in all ensures exists item :: item in items && item.key == pk && p.k.edVerify(item.sig, hash, pk) {
        var i :| 0 <= i < |items| && items[i].key == pk && p.k.edVerify(items[i].sig, hash, pk);
        assert items[i] in items;
      }
      assert Certified(p, hash, items, all);
    }
    if signers :| Certified(p, hash, items, signers) {
      forall pk | pk in signers ensures pk in all {
        var item :| item in items && item.key == pk && p.k.edVerify(item.sig, hash, pk);
        var i :| 0 <= i < |items| && items[i] == item;
      }
      SubsetIsSmaller(signers, all);
    }
  }

  /** The deposit table is the daemon's memory of minted events: a reply of 200 adds exactly
      this event, 409 is given exactly for an event that is there, and nothing else changes it. */
  lemma HandlerIsIdempotent(p: Params, s: NodeState, id: Text, hash: Hash256, items: seq<Signer>, a: BuyArgs)
    requires id != [] && s.db.topHeight + 1 < TWO_64
    ensures var (t, r) := HandleDeposit(p, s, id, hash, items, a);
      && (r == Conflict <==> id in s.db.tables.deposits)
      && t.db.tables.deposits.Keys == s.db.tables.deposits.Keys + (if r.Created? then {id} else {})
      && (r.Created? ==> id !in s.db.tables.deposits && |r.block.deposits| == 1 && r.block.deposits[0].txHash == id)
  {
    hide Buy, Append, CommitTables, Attesters;
    var bought := a.(customTxHash := id);
    BuyKeepsDeposits(p, s, bought);
    if id !in s.db.tables.deposits && Buy(p, s, bought).Mined? {
      var b := Buy(p, s, bought).block;
      OneDepositId(p, s, bought);
      AppendDeposits(p, s, b);
      assert DepositIds(b.deposits) == {id};
    }
  }

  /** The handler is the daemon that the oracle talks to: over a deposit table with the ids
      minted so far it gives the same reply and mints the same ids, a refusal by the ledger
      being the daemon's refusal. */
  lemma HandlerIsDaemon(p: Params, s: NodeState, id: Text, hash: Hash256, items: seq<Signer>, a: BuyArgs, minted: seq<Text>)
    requires id != [] && s.db.topHeight + 1 < TWO_64 && Elements(minted) == s.db.tables.deposits.Keys
    ensures var (t, r) := HandleDeposit(p, s, id, hash, items, a);
      var (minted', status) := Oracle.Handle(minted, id, Oracle.Post(true, r.Created?, true));
      && Elements(minted') == t.db.tables.deposits.Keys
      && (status == Oracle.Minted200 <==> r.Created?) && (status == Oracle.Processed409 <==> r == Conflict)
  {
    HandlerIsIdempotent(p, s, id, hash, items, a);
    hide HandleDeposit;
    ElementsPush(minted, id);
    assert id in minted <==> id in Elements(minted);
    assert Elements(minted) + {} == Elements(minted);
  }

  lemma AppendDeposits(p: Params, s: NodeState, b: Block)
    ensures Append(p, s, b).db.tables.deposits.Keys == s.db.tables.deposits.Keys + DepositIds(b.deposits)
  {
    hide PutOutputs, CanonicalAll, NextVault, BlockHash, Spends, NewOutputs, DepositIds;
    IdsListed(b.deposits);
  }

  lemma BuyKeepsDeposits(p: Params, s: NodeState, a: BuyArgs)
    requires s.db.topHeight + 1 < TWO_64
    ensures Buy(p, s, a).Failed? ==> Buy(p, s, a).state.db == s.db
  {
    hide Append, MineBlock, Quorum, DepositSections;
  }

  lemma OneDepositId(p: Params, s: NodeState, a: BuyArgs)
    requires s.db.topHeight + 1 < TWO_64 && a.customTxHash != [] && Buy(p, s, a).Mined?
    ensures var b := Buy(p, s, a).block; |b.deposits| == 1 && b.deposits[0].txHash == a.customTxHash
    ensures Buy(p, s, a).state == Append(p, s, Buy(p, s, a).block)
  {
    hide Append, MineBlock, Quorum;
    var sections := DepositSections(p, ApplyDeposit(s.vault, p.depositBps, a.gross).1.value, a).value;
    assert MineBlock(p, s, a.timestamp, sections).deposits == sections.deposits by { SectionsStay(p, s, a.timestamp, sections); }
  }

  lemma SectionsStay(p: Params, s: NodeState, timestamp: U64, sections: Block)
    requires s.db.topHeight + 1 < TWO_64
    ensures MineBlock(p, s, timestamp, sections).deposits == sections.deposits
  {
  }
}
