/** The block codec both ways: what is written is read back exactly for the blocks within
    the protocol's limits, and what is read re-encodes to the consumed bytes exactly when no
    legacy fallback was taken. */
module RoundTrip {
  import opened Types
  import opened Sequences
  import opened LittleEndian
  import opened CurveModel
  import opened HeaderModel
  import opened Encoding
  import opened Parsing

  /** e is the encoding of what was read from s, up to `missing` bytes; t is what remains,
      the end of s. */
  ghost predicate Matches(e: Bytes, t: Bytes, missing: nat, s: Bytes) {
    |e| + |t| == |s| + missing && (missing == 0 ==> e + t == s) && EndOf(t, s)
  }

  ghost predicate EndOf(t: Bytes, s: Bytes) {
    |t| <= |s| && s[|s| - |t|..] == t
  }

  lemma Chain(e: Bytes, t: Bytes, m: nat, s: Bytes, e': Bytes, t': Bytes, m': nat)
    requires Matches(e, t, m, s) && Matches(e', t', m', t)
    ensures Matches(e + e', t', m + m', s)
  {
    if m + m' == 0 { assert (e + e') + t' == e + (e' + t'); }
    assert t[|t| - |t'|..] == s[|s| - |t|..][|t| - |t'|..] == s[|s| - |t'|..];
  }

  lemma Reassociate(a: Bytes, b: Bytes, c: Bytes)
    ensures (a + b) + c == a + (b + c)
  {
  }

  // ---- Primitives ----

  lemma TakeAppend(a: Bytes, t: Bytes)
    ensures Take(|a|, a + t) == Some(Read(a, t, 0))
  {
    assert (a + t)[..|a|] == a && (a + t)[|a|..] == t;
  }

  lemma TakeMatches(n: nat, s: Bytes)
    ensures match Take(n, s) case None => true case Some(r) => Matches(r.value, r.rest, r.missing, s)
  {
  }

  lemma U32Inverts(v: U32, t: Bytes)
    ensures ReadU32(EncU32(v) + t) == Some(Read(v, t, 0))
  {
    PowersOf256();
    TakeAppend(EncU32(v), t);
    DecodeEncode(v, U32_BYTES);
  }

  lemma U32Matches(s: Bytes)
    ensures match ReadU32(s) case None => true case Some(r) => Matches(EncU32(r.value), r.rest, r.missing, s)
  {
    if |s| >= 4 { EncodeDecode(s[..4]); }
  }

  lemma U64Inverts(v: U64, t: Bytes)
    ensures ReadU64(EncU64(v) + t) == Some(Read(v, t, 0))
  {
    PowersOf256();
    TakeAppend(EncU64(v), t);
    DecodeEncode(v, U64_BYTES);
  }

  lemma U64Matches(s: Bytes)
    ensures match ReadU64(s) case None => true case Some(r) => Matches(EncU64(r.value), r.rest, r.missing, s)
  {
    if |s| >= 8 { EncodeDecode(s[..8]); }
  }

  lemma KeyInverts(key: Key256, t: Bytes)
    ensures ReadKey(EncKey(key) + t) == Some(Read(key, t, 0))
  {
    TakeAppend(key, t);
  }

  predicate TextOk(s: Text) { |s| <= MAX_STRING }

  lemma TextInverts(x: Text, t: Bytes)
    requires TextOk(x)
    ensures ReadText(EncText(x) + t) == Some(Read(x, t, 0))
  {
    Reassociate(EncU32(|x|), x, t);
    U32Inverts(|x|, x + t);
    TakeAppend(x, t);
  }

  lemma TextMatches(s: Bytes)
    ensures match ReadText(s) case None => true case Some(r) => TextOk(r.value) && r.missing == 0 && Matches(EncText(r.value), r.rest, 0, s)
  {
    U32Matches(s);
    if ReadText(s).Some? {
      var n := ReadU32(s).value;
      TakeMatches(n.value, n.rest);
      var r := ReadText(s).value;
      Chain(EncU32(n.value), n.rest, n.missing, s, r.value, r.rest, r.missing);
    }
  }

  // ---- Sequences of items ----

  /** f reads back what enc writes, for the items that are ok. */
  ghost predicate Inverts<T(!new)>(f: Parser<T>, enc: T -> Bytes, ok: T -> bool) {
    forall x, t: Bytes {:trigger f(enc(x) + t)} :: ok(x) ==> f(enc(x) + t) == Some(Read(x, t, 0))
  }

  /** What f reads is ok and matches its encoding. */
  ghost predicate ReadsBack<T(!new)>(f: Parser<T>, enc: T -> Bytes, ok: T -> bool) {
    forall s: Bytes {:trigger f(s)} ::
      match f(s) case None => true case Some(r) => ok(r.value) && Matches(enc(r.value), r.rest, r.missing, s)
  }

  ghost predicate All<T(!new)>(ok: T -> bool, xs: seq<T>) {
    forall i :: 0 <= i < |xs| ==> ok(xs[i])
  }

  lemma {:induction false} ManyInverts<T(!new)>(f: Parser<T>, enc: T -> Bytes, ok: T -> bool, xs: seq<T>, t: Bytes)
    requires Inverts(f, enc, ok) && All(ok, xs)
    ensures ReadMany(f, |xs|, EncMany(enc, xs) + t) == Some(Read(xs, t, 0))
  {
    if xs == [] {
      assert EncMany(enc, xs) + t == t;
    } else {
      Reassociate(enc(xs[0]), EncMany(enc, xs[1..]), t);
      assert f(enc(xs[0]) + (EncMany(enc, xs[1..]) + t)) == Some(Read(xs[0], EncMany(enc, xs[1..]) + t, 0));
      ManyInverts(f, enc, ok, xs[1..], t);
      assert [xs[0]] + xs[1..] == xs;
    }
  }

  lemma {:induction false} ManyMatches<T(!new)>(f: Parser<T>, enc: T -> Bytes, ok: T -> bool, n: nat, s: Bytes)
    requires ReadsBack(f, enc, ok)
    ensures match ReadMany(f, n, s) case None => true
      case Some(r) => All(ok, r.value) && Matches(EncMany(enc, r.value), r.rest, r.missing, s)
  {
    if n == 0 {
      assert [] + s == s;
    } else if ReadMany(f, n, s).Some? {
      var x := f(s).value;
      ManyMatches(f, enc, ok, n - 1, x.rest);
      var xs := ReadMany(f, n - 1, x.rest).value;
      Chain(enc(x.value), x.rest, x.missing, s, EncMany(enc, xs.value), xs.rest, xs.missing);
      assert ([x.value] + xs.value)[1..] == xs.value;
    }
  }

  lemma CountedInverts<T(!new)>(f: Parser<T>, enc: T -> Bytes, ok: T -> bool, lo: nat, hi: nat, xs: seq<T>, t: Bytes)
    requires Inverts(f, enc, ok) && All(ok, xs) && lo <= |xs| <= hi < TWO_32
    ensures ReadCounted(f, lo, hi, EncCounted(enc, xs) + t) == Some(Read(xs, t, 0))
  {
    hide EncMany, ReadMany, Inverts, All, EncU32, Parsing.ReadU32;
    Reassociate(EncU32(|xs|), EncMany(enc, xs), t);
    U32Inverts(|xs|, EncMany(enc, xs) + t);
    ManyInverts(f, enc, ok, xs, t);
  }

  lemma CountedMatches<T(!new)>(f: Parser<T>, enc: T -> Bytes, ok: T -> bool, lo: nat, hi: nat, s: Bytes)
    requires ReadsBack(f, enc, ok) && hi < TWO_32
    ensures match ReadCounted(f, lo, hi, s) case None => true
      case Some(r) => lo <= |r.value| <= hi && All(ok, r.value) && Matches(EncCounted(enc, r.value), r.rest, r.missing, s)
  {
    hide EncMany, ReadMany, ReadsBack, All;
    U32Matches(s);
    if ReadCounted(f, lo, hi, s).Some? {
      var n := ReadU32(s).value;
      ManyMatches(f, enc, ok, n.value, n.rest);
      var r := ReadMany(f, n.value, n.rest).value;
      Chain(EncU32(n.value), n.rest, n.missing, s, EncMany(enc, r.value), r.rest, r.missing);
    }
  }

  lemma TrailingInverts<T(!new)>(f: Parser<T>, enc: T -> Bytes, ok: T -> bool, hi: nat, xs: seq<T>, t: Bytes)
    requires Inverts(f, enc, ok) && All(ok, xs) && |xs| <= hi < TWO_32
    ensures ReadTrailing(f, hi, EncCounted(enc, xs) + t) == Some(Read(xs, t, 0))
  {
    CountedInverts(f, enc, ok, 0, hi, xs, t);
  }

  lemma TrailingMatches<T(!new)>(f: Parser<T>, enc: T -> Bytes, ok: T -> bool, hi: nat, s: Bytes)
    requires ReadsBack(f, enc, ok) && hi < TWO_32
    ensures match ReadTrailing(f, hi, s) case None => true
      case Some(r) => |r.value| <= hi && All(ok, r.value) && Matches(EncCounted(enc, r.value), r.rest, r.missing, s)
  {
    CountedMatches(f, enc, ok, 0, hi, s);
  }

  // ---- Keys, points and outputs ----

  predicate AnyKey(key: Key256) { true }

  lemma KeysRoundTrip()
    ensures Inverts(ReadKey, EncKey, AnyKey) && ReadsBack(ReadKey, EncKey, AnyKey)
  {
    forall x, t: Bytes ensures ReadKey(EncKey(x) + t) == Some(Read(x, t, 0)) { KeyInverts(x, t); }
    forall s: Bytes ensures match ReadKey(s) case None => true case Some(r) => Matches(EncKey(r.value), r.rest, r.missing, s) {
      TakeMatches(32, s);
    }
  }

  lemma PointsRoundTrip(k: Curve)
    ensures Inverts(PointParser(k), EncKey, k.valid) && ReadsBack(PointParser(k), EncKey, k.valid)
  {
    forall x, t: Bytes | k.valid(x) ensures PointParser(k)(EncKey(x) + t) == Some(Read(x, t, 0)) { KeyInverts(x, t); }
    forall s: Bytes ensures match PointParser(k)(s) case None => true
        case Some(r) => k.valid(r.value) && Matches(EncKey(r.value), r.rest, r.missing, s) {
      TakeMatches(32, s);
    }
  }

  predicate OutputOk(k: Curve, o: OneTimeOutput) { k.valid(o.ephemeral) && k.valid(o.destination) }

  function OutputOks(k: Curve): OneTimeOutput -> bool { o => OutputOk(k, o) }

  lemma OutputInverts(k: Curve, o: OneTimeOutput, t: Bytes)
    requires OutputOk(k, o)
    ensures ReadOutput(k, EncOutput(o) + t) == Some(Read(o, t, 0))
  {
    var d, a := o.destination + EncU64(o.amount), EncU64(o.amount);
    Reassociate(o.ephemeral, d, t);
    KeyInverts(o.ephemeral, d + t);
    Reassociate(o.destination, a, t);
    KeyInverts(o.destination, a + t);
    U64Inverts(o.amount, t);
  }

  lemma OutputMatches(k: Curve, s: Bytes)
    ensures match ReadOutput(k, s) case None => true
      case Some(r) => OutputOk(k, r.value) && Matches(EncOutput(r.value), r.rest, r.missing, s)
  {
    if ReadOutput(k, s).Some? {
      var e := ReadKey(s).value;
      var d := ReadKey(e.rest).value;
      var a := ReadU64(d.rest).value;
      TakeMatches(32, s);
      TakeMatches(32, e.rest);
      U64Matches(d.rest);
      Chain(d.value, d.rest, 0, e.rest, EncU64(a.value), a.rest, 0);
      Chain(e.value, e.rest, 0, s, d.value + EncU64(a.value), a.rest, 0);
    }
  }

  lemma OutputsRoundTrip(k: Curve)
    ensures Inverts(OutputParser(k), EncOutput, OutputOks(k)) && ReadsBack(OutputParser(k), EncOutput, OutputOks(k))
  {
    forall o, t: Bytes | OutputOk(k, o) ensures OutputParser(k)(EncOutput(o) + t) == Some(Read(o, t, 0)) { OutputInverts(k, o, t); }
    forall s: Bytes ensures match OutputParser(k)(s) case None => true
        case Some(r) => OutputOk(k, r.value) && Matches(EncOutput(r.value), r.rest, r.missing, s) {
      OutputMatches(k, s);
    }
  }

  // ---- Signatures and transactions ----

  ghost predicate RingOk(k: Curve, sig: RingSignature) {
    k.valid(sig.keyImage) && 1 <= |sig.responses| == |sig.ring| <= MAX_RING && All(k.valid, sig.ring)
  }

  lemma RingSigInverts(k: Curve, sig: RingSignature, t: Bytes)
    requires RingOk(k, sig)
    ensures ReadRingSig(k, EncRingSig(sig) + t) == Some(Read(sig, t, 0))
  {
    KeysRoundTrip();
    PointsRoundTrip(k);
    var resp, ring, n := EncCounted(EncKey, sig.responses), EncCounted(EncKey, sig.ring), |sig.ring|;
    Reassociate(sig.keyImage, sig.c0 + (resp + ring), t);
    KeyInverts(sig.keyImage, (sig.c0 + (resp + ring)) + t);
    Reassociate(sig.c0, resp + ring, t);
    KeyInverts(sig.c0, (resp + ring) + t);
    Reassociate(resp, ring, t);
    CountedInverts(ReadKey, EncKey, AnyKey, 1, MAX_RING, sig.responses, ring + t);
    CountedInverts(PointParser(k), EncKey, k.valid, n, n, sig.ring, t);
  }

  lemma RingSigMatches(k: Curve, s: Bytes)
    ensures match ReadRingSig(k, s) case None => true
      case Some(r) => RingOk(k, r.value) && Matches(EncRingSig(r.value), r.rest, r.missing, s)
  {
    if ReadRingSig(k, s).Some? {
      var image := ReadKey(s).value;
      var c0 := ReadKey(image.rest).value;
      var resp := ReadCounted(ReadKey, 1, MAX_RING, c0.rest).value;
      var n := |resp.value|;
      var ring := ReadCounted(PointParser(k), n, n, resp.rest).value;
      KeysRoundTrip();
      PointsRoundTrip(k);
      TakeMatches(32, s);
      TakeMatches(32, image.rest);
      CountedMatches(ReadKey, EncKey, AnyKey, 1, MAX_RING, c0.rest);
      CountedMatches(PointParser(k), EncKey, k.valid, n, n, resp.rest);
      var er, ep := EncCounted(EncKey, resp.value), EncCounted(EncKey, ring.value);
      Chain(er, resp.rest, resp.missing, c0.rest, ep, ring.rest, ring.missing);
      Chain(c0.value, c0.rest, 0, image.rest, er + ep, ring.rest, resp.missing + ring.missing);
      Chain(image.value, image.rest, 0, s, c0.value + (er + ep), ring.rest, resp.missing + ring.missing);
    }
  }

  ghost predicate TxOk(k: Curve, tx: ShieldedTransaction) {
    RingOk(k, tx.ringSig) && |tx.outputs| <= MAX_TX_OUTPUTS && All(OutputOks(k), tx.outputs) && TextOk(tx.timestamp)
  }

  lemma TxInverts(k: Curve, tx: ShieldedTransaction, t: Bytes)
    requires TxOk(k, tx)
    ensures ReadTx(k, EncTx(tx) + t) == Some(Read(tx, t, 0))
  {
    OutputsRoundTrip(k);
    var sig, outs, fee, time := EncRingSig(tx.ringSig), EncCounted(EncOutput, tx.outputs), EncU64(tx.publicFee), EncText(tx.timestamp);
    Reassociate(tx.txHash, sig + (outs + (fee + time)), t);
    KeyInverts(tx.txHash, (sig + (outs + (fee + time))) + t);
    Reassociate(sig, outs + (fee + time), t);
    RingSigInverts(k, tx.ringSig, (outs + (fee + time)) + t);
    Reassociate(outs, fee + time, t);
    CountedInverts(OutputParser(k), EncOutput, OutputOks(k), 0, MAX_TX_OUTPUTS, tx.outputs, (fee + time) + t);
    Reassociate(fee, time, t);
    U64Inverts(tx.publicFee, time + t);
    TextInverts(tx.timestamp, t);
  }

  lemma TxMatches(k: Curve, s: Bytes)
    ensures match ReadTx(k, s) case None => true
      case Some(r) => TxOk(k, r.value) && Matches(EncTx(r.value), r.rest, r.missing, s)
  {
    if ReadTx(k, s).Some? {
      var h := ReadKey(s).value;
      var sig := ReadRingSig(k, h.rest).value;
      var outs := ReadCounted(OutputParser(k), 0, MAX_TX_OUTPUTS, sig.rest).value;
      var fee := ReadU64(outs.rest).value;
      var time := ReadText(fee.rest).value;
      OutputsRoundTrip(k);
      TakeMatches(32, s);
      RingSigMatches(k, h.rest);
      CountedMatches(OutputParser(k), EncOutput, OutputOks(k), 0, MAX_TX_OUTPUTS, sig.rest);
      U64Matches(outs.rest);
      TextMatches(fee.rest);
      var es, eo, ef, et := EncRingSig(sig.value), EncCounted(EncOutput, outs.value), EncU64(fee.value), EncText(time.value);
      Chain(ef, fee.rest, 0, outs.rest, et, time.rest, 0);
      Chain(eo, outs.rest, outs.missing, sig.rest, ef + et, time.rest, 0);
      Chain(es, sig.rest, sig.missing, h.rest, eo + (ef + et), time.rest, outs.missing);
      Chain(h.value, h.rest, 0, s, es + (eo + (ef + et)), time.rest, sig.missing + outs.missing);
    }
  }

  // ---- Deposits and withdrawals ----

  lemma AmountsInvert(a: Amounts, t: Bytes)
    ensures ReadAmounts(EncAmounts(a.gross, a.fee, a.net) + t) == Some(Read(a, t, 0))
  {
    var f, n := EncU64(a.fee), EncU64(a.net);
    Reassociate(EncU64(a.gross), f + n, t);
    U64Inverts(a.gross, (f + n) + t);
    Reassociate(f, n, t);
    U64Inverts(a.fee, n + t);
    U64Inverts(a.net, t);
  }

  lemma AmountsMatch(s: Bytes)
    ensures match ReadAmounts(s) case None => true
      case Some(r) => r.missing == 0 && Matches(EncAmounts(r.value.gross, r.value.fee, r.value.net), r.rest, 0, s)
  {
    if ReadAmounts(s).Some? {
      var g := ReadU64(s).value;
      var f := ReadU64(g.rest).value;
      var n := ReadU64(f.rest).value;
      U64Matches(s);
      U64Matches(g.rest);
      U64Matches(f.rest);
      Chain(EncU64(f.value), f.rest, 0, g.rest, EncU64(n.value), n.rest, 0);
      Chain(EncU64(g.value), g.rest, 0, s, EncU64(f.value) + EncU64(n.value), n.rest, 0);
    }
  }

  function JoinAll(keys: seq<Key256>): (b: Bytes)
    ensures |b| == 32 * |keys|
  {
    if keys == [] then [] else keys[0] + JoinAll(keys[1..])
  }

  lemma {:induction false} KeysOfInvert(keys: seq<Key256>, t: Bytes)
    ensures KeysOf(|keys|, JoinAll(keys) + t) == keys && (JoinAll(keys) + t)[32 * |keys|..] == t
  {
    if keys != [] {
      var s := JoinAll(keys) + t;
      Reassociate(keys[0], JoinAll(keys[1..]), t);
      TakeAppend(keys[0], JoinAll(keys[1..]) + t);
      KeysOfInvert(keys[1..], t);
      assert s[..32] == keys[0] && s[32..] == JoinAll(keys[1..]) + t;
      assert [keys[0]] + keys[1..] == keys;
    } else {
      assert JoinAll(keys) + t == t;
    }
  }

  lemma {:induction false} KeysOfMatch(n: nat, s: Bytes)
    requires |s| >= 32 * n
    ensures JoinAll(KeysOf(n, s)) == s[..32 * n]
  {
    if n > 0 {
      KeysOfMatch(n - 1, s[32..]);
      assert s[..32 * n] == s[..32] + s[32..][..32 * (n - 1)];
    }
  }

  /** Keys that are there are read; where the input ends, zeros stand for them. */
  lemma KeysOrZerosMatch(n: nat, s: Bytes)
    ensures var r := KeysOrZeros(n, s); Matches(JoinAll(r.value), r.rest, r.missing, s)
  {
    if |s| >= 32 * n {
      KeysOfMatch(n, s);
      assert s[..32 * n] + s[32 * n..] == s;
    }
  }

  lemma KeysOrZerosInvert(keys: seq<Key256>, t: Bytes)
    ensures KeysOrZeros(|keys|, JoinAll(keys) + t) == Read(keys, t, 0)
  {
    KeysOfInvert(keys, t);
  }

  lemma JoinOne(a: Key256)
    ensures JoinAll([a]) == a
  {
    assert [a][1..] == [];
  }

  lemma JoinTwo(a: Key256, b: Key256)
    ensures JoinAll([a, b]) == a + b
  {
    assert [a, b][1..] == [b];
    JoinOne(b);
  }

  lemma JoinThree(a: Key256, b: Key256, c: Key256)
    ensures JoinAll([a, b, c]) == a + (b + c)
  {
    assert [a, b, c][1..] == [b, c];
    JoinTwo(b, c);
  }

  predicate DepositOk(d: DepositReceipt) { TextOk(d.txHash) }

  lemma DepositInverts(d: DepositReceipt, t: Bytes)
    requires DepositOk(d)
    ensures ReadDeposit(EncDeposit(d) + t) == Some(Read(d, t, 0))
  {
    var amounts, keys := EncAmounts(d.gross, d.fee, d.net), d.viewPub + d.spendPub;
    Reassociate(amounts, EncText(d.txHash) + keys, t);
    AmountsInvert(Amounts(d.gross, d.fee, d.net), (EncText(d.txHash) + keys) + t);
    Reassociate(EncText(d.txHash), keys, t);
    TextInverts(d.txHash, keys + t);
    JoinTwo(d.viewPub, d.spendPub);
    KeysOrZerosInvert([d.viewPub, d.spendPub], t);
  }

  lemma DepositMatches(s: Bytes)
    ensures match ReadDeposit(s) case None => true
      case Some(r) => DepositOk(r.value) && Matches(EncDeposit(r.value), r.rest, r.missing, s)
  {
    hide ReadAmounts, ReadText, KeysOrZeros, EncAmounts, EncText;
    if ReadDeposit(s).Some? {
      var a := ReadAmounts(s).value;
      var h := ReadText(a.rest).value;
      var keys := KeysOrZeros(2, h.rest);
      AmountsMatch(s);
      TextMatches(a.rest);
      KeysOrZerosMatch(2, h.rest);
      JoinTwo(keys.value[0], keys.value[1]);
      assert keys.value == [keys.value[0], keys.value[1]];
      var ek := JoinAll(keys.value);
      Chain(EncText(h.value), h.rest, 0, a.rest, ek, keys.rest, keys.missing);
      Chain(EncAmounts(a.value.gross, a.value.fee, a.value.net), a.rest, 0, s, EncText(h.value) + ek, keys.rest, keys.missing);
    }
  }

  predicate WithdrawalOk(w: WithdrawalReceipt) { TextOk(w.orderId) && TextOk(w.destination) }

  /** The five keys at the end of a withdrawal. */
  function BurnBytes(w: WithdrawalReceipt): (b: Bytes)
    ensures |b| == 160
  {
    w.keyImage + (w.burnedKey + (w.burnC0 + (w.burnS + w.changeKey)))
  }

  lemma BurnBytesJoin(w: WithdrawalReceipt, t: Bytes)
    ensures var image, burn, change := [w.keyImage], [w.burnedKey, w.burnC0, w.burnS], [w.changeKey];
      && BurnBytes(w) + t == JoinAll(image) + (JoinAll(burn) + (JoinAll(change) + t))
      && BurnBytes(w) == JoinAll(image) + (JoinAll(burn) + JoinAll(change))
  {
    JoinOne(w.keyImage);
    JoinThree(w.burnedKey, w.burnC0, w.burnS);
    JoinOne(w.changeKey);
    assert w.burnedKey + (w.burnC0 + (w.burnS + w.changeKey)) == (w.burnedKey + (w.burnC0 + w.burnS)) + w.changeKey;
    Reassociate(w.keyImage, (w.burnedKey + (w.burnC0 + w.burnS)) + w.changeKey, t);
    Reassociate(w.burnedKey + (w.burnC0 + w.burnS), w.changeKey, t);
  }

  lemma WithdrawalInverts(w: WithdrawalReceipt, t: Bytes)
    requires WithdrawalOk(w)
    ensures ReadWithdrawal(EncWithdrawal(w) + t) == Some(Read(w, t, 0))
  {
    var amounts, id, dest, keys := EncAmounts(w.gross, w.fee, w.net), EncText(w.orderId), EncText(w.destination), BurnBytes(w);
    Reassociate(amounts, id + (dest + keys), t);
    AmountsInvert(Amounts(w.gross, w.fee, w.net), (id + (dest + keys)) + t);
    Reassociate(id, dest + keys, t);
    TextInverts(w.orderId, (dest + keys) + t);
    Reassociate(dest, keys, t);
    TextInverts(w.destination, keys + t);
    BurnBytesJoin(w, t);
    var image, burn, change := [w.keyImage], [w.burnedKey, w.burnC0, w.burnS], [w.changeKey];
    KeysOrZerosInvert(image, JoinAll(burn) + (JoinAll(change) + t));
    KeysOrZerosInvert(burn, JoinAll(change) + t);
    KeysOrZerosInvert(change, t);
  }

  lemma TextOrEmptyMatches(s: Bytes)
    ensures match TextOrEmpty(s) case None => true case Some(r) => TextOk(r.value) && Matches(EncText(r.value), r.rest, r.missing, s)
  {
    TextMatches(s);
  }

  lemma WithdrawalMatches(s: Bytes)
    ensures match ReadWithdrawal(s) case None => true
      case Some(r) => WithdrawalOk(r.value) && Matches(EncWithdrawal(r.value), r.rest, r.missing, s)
  {
    hide ReadAmounts, ReadText, TextOrEmpty, KeysOrZeros, EncAmounts, EncText;
    if ReadWithdrawal(s).Some? {
      var a := ReadAmounts(s).value;
      var id := ReadText(a.rest).value;
      var dest := TextOrEmpty(id.rest).value;
      var image := KeysOrZeros(1, dest.rest);
      var burn := KeysOrZeros(3, image.rest);
      var change := KeysOrZeros(1, burn.rest);
      AmountsMatch(s);
      TextMatches(a.rest);
      TextOrEmptyMatches(id.rest);
      KeysOrZerosMatch(1, dest.rest);
      KeysOrZerosMatch(3, image.rest);
      KeysOrZerosMatch(1, burn.rest);
      var w := ReadWithdrawal(s).value.value;
      assert image.value == [w.keyImage] && burn.value == [w.burnedKey, w.burnC0, w.burnS] && change.value == [w.changeKey];
      BurnBytesJoin(w, []);
      var ei, eb, ec := JoinAll(image.value), JoinAll(burn.value), JoinAll(change.value);
      Chain(eb, burn.rest, burn.missing, image.rest, ec, change.rest, change.missing);
      Chain(ei, image.rest, image.missing, dest.rest, eb + ec, change.rest, burn.missing + change.missing);
      var m := image.missing + burn.missing + change.missing;
      Chain(EncText(dest.value), dest.rest, dest.missing, id.rest, BurnBytes(w), change.rest, m);
      Chain(EncText(id.value), id.rest, 0, a.rest, EncText(dest.value) + BurnBytes(w), change.rest, dest.missing + m);
      Chain(EncAmounts(w.gross, w.fee, w.net), a.rest, 0, s, EncText(id.value) + (EncText(dest.value) + BurnBytes(w)),
            change.rest, dest.missing + m);
    }
  }

  // ---- Headers ----

  predicate AnyEntry(e: Entry) { true }
  function EncEntry(e: Entry): Bytes { e.key + e.sig }

  lemma EntriesRoundTrip()
    ensures Inverts(EntryParser(), EncEntry, AnyEntry) && ReadsBack(EntryParser(), EncEntry, AnyEntry)
  {
    forall e, t: Bytes ensures EntryParser()(EncEntry(e) + t) == Some(Read(e, t, 0)) {
      Reassociate(e.key, e.sig, t);
      KeyInverts(e.key, e.sig + t);
      TakeAppend(e.sig, t);
    }
    forall s: Bytes ensures match EntryParser()(s) case None => true
        case Some(r) => Matches(EncEntry(r.value), r.rest, r.missing, s) {
      if ReadEntry(s).Some? {
        var key := ReadKey(s).value;
        TakeMatches(32, s);
        TakeMatches(64, key.rest);
        Chain(key.value, key.rest, 0, s, ReadSig(key.rest).value.value, ReadSig(key.rest).value.rest, 0);
      }
    }
  }

  function AfterNonce(h: Header): Bytes { h.validatorKey + h.validatorSig }
  function AfterRoot(h: Header): Bytes { EncU64(h.timestamp) + (EncU64(h.nonce) + AfterNonce(h)) }
  function AfterHeight(h: Header): Bytes { h.prevHash + (h.merkleRoot + AfterRoot(h)) }
  function BaseBytes(h: Header): Bytes { EncU32(h.version) + (EncU64(h.height) + AfterHeight(h)) }

  lemma BaseGrouped(h: Header)
    ensures EncHeaderBase(h) == BaseBytes(h)
  {
    var a := EncU32(h.version) + EncU64(h.height);
    var b := a + h.prevHash + h.merkleRoot;
    var c := b + EncU64(h.timestamp) + EncU64(h.nonce);
    Reassociate(c, h.validatorKey, h.validatorSig);
    assert c + AfterNonce(h) == b + AfterRoot(h);
    assert b + AfterRoot(h) == a + AfterHeight(h);
    Reassociate(EncU32(h.version), EncU64(h.height), AfterHeight(h));
  }

  /** The header without its quorum. */
  function Bare(h: Header): Header { h.(quorumKeys := [], quorumSigs := []) }

  lemma BaseInverts(h: Header, t: Bytes)
    ensures ReadHeaderBase(BaseBytes(h) + t) == Some(Read(Bare(h), t, 0))
  {
    var s1, s2, s3 := AfterHeight(h), AfterRoot(h), AfterNonce(h);
    Reassociate(EncU32(h.version), EncU64(h.height) + s1, t);
    U32Inverts(h.version, (EncU64(h.height) + s1) + t);
    Reassociate(EncU64(h.height), s1, t);
    U64Inverts(h.height, s1 + t);
    Reassociate(h.prevHash, h.merkleRoot + s2, t);
    KeyInverts(h.prevHash, (h.merkleRoot + s2) + t);
    Reassociate(h.merkleRoot, s2, t);
    KeyInverts(h.merkleRoot, s2 + t);
    Reassociate(EncU64(h.timestamp), EncU64(h.nonce) + s3, t);
    U64Inverts(h.timestamp, (EncU64(h.nonce) + s3) + t);
    Reassociate(EncU64(h.nonce), s3, t);
    U64Inverts(h.nonce, s3 + t);
    Reassociate(h.validatorKey, h.validatorSig, t);
    KeyInverts(h.validatorKey, h.validatorSig + t);
    TakeAppend(h.validatorSig, t);
  }

  lemma BaseMatches(s: Bytes)
    ensures match ReadHeaderBase(s) case None => true
      case Some(r) => r.value == Bare(r.value) && r.missing == 0 && Matches(BaseBytes(r.value), r.rest, 0, s)
  {
    if ReadHeaderBase(s).Some? {
      var version := ReadU32(s).value;
      var height := ReadU64(version.rest).value;
      var prev := ReadKey(height.rest).value;
      var root := ReadKey(prev.rest).value;
      var time := ReadU64(root.rest).value;
      var nonce := ReadU64(time.rest).value;
      var key := ReadKey(nonce.rest).value;
      var sig := ReadSig(key.rest).value;
      var h := ReadHeaderBase(s).value.value;
      U32Matches(s);
      U64Matches(version.rest);
      TakeMatches(32, height.rest);
      TakeMatches(32, prev.rest);
      U64Matches(root.rest);
      U64Matches(time.rest);
      TakeMatches(32, nonce.rest);
      TakeMatches(64, key.rest);
      Chain(key.value, key.rest, 0, nonce.rest, sig.value, sig.rest, 0);
      Chain(EncU64(nonce.value), nonce.rest, 0, time.rest, AfterNonce(h), sig.rest, 0);
      Chain(EncU64(time.value), time.rest, 0, root.rest, EncU64(nonce.value) + AfterNonce(h), sig.rest, 0);
      Chain(root.value, root.rest, 0, prev.rest, AfterRoot(h), sig.rest, 0);
      Chain(prev.value, prev.rest, 0, height.rest, root.value + AfterRoot(h), sig.rest, 0);
      Chain(EncU64(height.value), height.rest, 0, version.rest, AfterHeight(h), sig.rest, 0);
      Chain(EncU32(version.value), version.rest, 0, s, EncU64(height.value) + AfterHeight(h), sig.rest, 0);
    }
  }

  function Entries(h: Header): (q: seq<Entry>)
    requires |h.quorumKeys| == |h.quorumSigs|
    ensures |q| == |h.quorumKeys| && forall i :: 0 <= i < |q| ==> q[i] == Entry(h.quorumKeys[i], h.quorumSigs[i])
  {
    seq<Entry>(|h.quorumKeys|, i requires 0 <= i < |h.quorumKeys| => Entry(h.quorumKeys[i], h.quorumSigs[i]))
  }

  lemma {:induction false} EncManyPush<T>(f: T -> Bytes, xs: seq<T>, x: T)
    ensures EncMany(f, xs + [x]) == EncMany(f, xs) + f(x)
  {
    if xs == [] {
      assert [] + [x] == [x] && [x][1..] == [];
      assert f(x) + [] == f(x) && [] + f(x) == f(x);
    } else {
      EncManyPush(f, xs[1..], x);
      assert (xs + [x])[1..] == xs[1..] + [x];
      Reassociate(f(xs[0]), EncMany(f, xs[1..]), f(x));
    }
  }

  lemma {:induction false} QuorumIsEntries(h: Header, n: nat)
    requires n <= |h.quorumKeys| == |h.quorumSigs|
    ensures EncQuorum(h, n) == EncMany(EncEntry, Entries(h)[..n])
  {
    if n > 0 {
      QuorumIsEntries(h, n - 1);
      EncManyPush(EncEntry, Entries(h)[..n - 1], Entries(h)[n - 1]);
      assert Entries(h)[..n] == Entries(h)[..n - 1] + [Entries(h)[n - 1]];
    }
  }

  lemma HeaderBytes(h: Header)
    requires |h.quorumKeys| == |h.quorumSigs|
    ensures EncHeader(h) == BaseBytes(h) + EncCounted(EncEntry, Entries(h))
  {
    BaseGrouped(h);
    QuorumIsEntries(h, |h.quorumKeys|);
    assert Entries(h)[..|h.quorumKeys|] == Entries(h);
    Reassociate(EncHeaderBase(h), EncU32(|h.quorumKeys| % TWO_32), EncQuorum(h, |h.quorumKeys|));
  }

  /** Paired vectors of at most 64 entries, and none before version 3. */
  predicate HeaderOk(h: Header) {
    |h.quorumKeys| == |h.quorumSigs| <= MAX_QUORUM && (h.version < 3 ==> h.quorumKeys == [])
  }

  lemma EntriesSplit(h: Header)
    requires |h.quorumKeys| == |h.quorumSigs|
    ensures EntryKeys(Entries(h)) == h.quorumKeys && EntrySigs(Entries(h)) == h.quorumSigs
  {
  }

  lemma HeaderInverts(h: Header, t: Bytes)
    requires HeaderOk(h) && h.version >= 3
    ensures ReadHeader(EncHeader(h) + t) == Some(Read(h, t, 0))
  {
    var q := EncCounted(EncEntry, Entries(h));
    HeaderBytes(h);
    Reassociate(BaseBytes(h), q, t);
    BaseInverts(h, q + t);
    EntriesRoundTrip();
    TrailingInverts(EntryParser(), EncEntry, AnyEntry, MAX_QUORUM, Entries(h), t);
    EntriesSplit(h);
  }

  lemma EntriesJoin(h: Header, q: seq<Entry>)
    requires h.quorumKeys == EntryKeys(q) && h.quorumSigs == EntrySigs(q)
    ensures Entries(h) == q
  {
  }

  lemma HeaderMatches(s: Bytes)
    ensures match ReadHeader(s) case None => true
      case Some(r) => HeaderOk(r.value) && Matches(EncHeader(r.value), r.rest, r.missing, s)
  {
    if ReadHeader(s).Some? {
      var b := ReadHeaderBase(s).value;
      var q := ReadQuorum(b.value.version, b.rest).value;
      var h := ReadHeader(s).value.value;
      BaseMatches(s);
      EntriesRoundTrip();
      TrailingMatches(EntryParser(), EncEntry, AnyEntry, MAX_QUORUM, b.rest);
      EntriesJoin(h, q.value);
      HeaderBytes(h);
      assert BaseBytes(h) == BaseBytes(b.value);
      Chain(BaseBytes(h), b.rest, 0, s, EncCounted(EncEntry, q.value), q.rest, q.missing);
    }
  }

  // ---- Blocks ----

  function TxOks(k: Curve): ShieldedTransaction -> bool { tx => TxFits(k, tx) }

  /** The compiled form of TxOk. */
  predicate TxFits(k: Curve, tx: ShieldedTransaction) {
    && k.valid(tx.ringSig.keyImage) && 1 <= |tx.ringSig.responses| == |tx.ringSig.ring| <= MAX_RING
    && (forall i :: 0 <= i < |tx.ringSig.ring| ==> k.valid(tx.ringSig.ring[i]))
    && |tx.outputs| <= MAX_TX_OUTPUTS && (forall i :: 0 <= i < |tx.outputs| ==> OutputOk(k, tx.outputs[i]))
    && TextOk(tx.timestamp)
  }

  lemma TxsRoundTrip(k: Curve)
    ensures Inverts(TxParser(k), EncTx, TxOks(k)) && ReadsBack(TxParser(k), EncTx, TxOks(k))
  {
    forall tx, t: Bytes | TxFits(k, tx) ensures TxParser(k)(EncTx(tx) + t) == Some(Read(tx, t, 0)) { TxInverts(k, tx, t); }
    forall s: Bytes ensures match TxParser(k)(s) case None => true
        case Some(r) => TxFits(k, r.value) && Matches(EncTx(r.value), r.rest, r.missing, s) {
      TxMatches(k, s);
      if ReadTx(k, s).Some? { FitsIffOk(k, ReadTx(k, s).value.value); }
    }
  }

  lemma FitsIffOk(k: Curve, tx: ShieldedTransaction)
    ensures TxFits(k, tx) <==> TxOk(k, tx)
  {
    if TxOk(k, tx) {
      forall i | 0 <= i < |tx.outputs| ensures OutputOk(k, tx.outputs[i]) { assert OutputOks(k)(tx.outputs[i]); }
    }
  }

  lemma DepositsRoundTrip()
    ensures Inverts(DepositParser(), EncDeposit, DepositOk) && ReadsBack(DepositParser(), EncDeposit, DepositOk)
  {
    forall d, t: Bytes | DepositOk(d) ensures DepositParser()(EncDeposit(d) + t) == Some(Read(d, t, 0)) { DepositInverts(d, t); }
    forall s: Bytes ensures match DepositParser()(s) case None => true
        case Some(r) => DepositOk(r.value) && Matches(EncDeposit(r.value), r.rest, r.missing, s) {
      DepositMatches(s);
    }
  }

  lemma WithdrawalsRoundTrip()
    ensures Inverts(WithdrawalParser(), EncWithdrawal, WithdrawalOk) && ReadsBack(WithdrawalParser(), EncWithdrawal, WithdrawalOk)
  {
    forall w, t: Bytes | WithdrawalOk(w) ensures WithdrawalParser()(EncWithdrawal(w) + t) == Some(Read(w, t, 0)) {
      WithdrawalInverts(w, t);
    }
    forall s: Bytes ensures match WithdrawalParser()(s) case None => true
        case Some(r) => WithdrawalOk(r.value) && Matches(EncWithdrawal(r.value), r.rest, r.missing, s) {
      WithdrawalMatches(s);
    }
  }

  /** The protocol's limits on a block. */
  ghost predicate BlockOk(k: Curve, b: Block) {
    && HeaderOk(b.header)
    && |b.txs| <= MAX_SECTION && All(TxOks(k), b.txs)
    && |b.deposits| <= MAX_SECTION && All(DepositOk, b.deposits)
    && |b.withdrawals| <= MAX_SECTION && All(WithdrawalOk, b.withdrawals)
    && |b.depositOutputs| <= MAX_OUTPUTS && All(OutputOks(k), b.depositOutputs)
    && |b.withdrawalOutputs| <= MAX_OUTPUTS && All(OutputOks(k), b.withdrawalOutputs)
  }

  // The tails of a block's encoding, section by section.
  function FromOutputs(b: Block): Bytes { EncCounted(EncOutput, b.depositOutputs) + EncCounted(EncOutput, b.withdrawalOutputs) }
  function FromWithdrawals(b: Block): Bytes { EncCounted(EncWithdrawal, b.withdrawals) + FromOutputs(b) }
  function FromDeposits(b: Block): Bytes { EncCounted(EncDeposit, b.deposits) + FromWithdrawals(b) }
  function FromTxs(b: Block): Bytes { EncCounted(EncTx, b.txs) + FromDeposits(b) }

  /** A block within the limits, of version 3 or later, is read back from its encoding,
      whatever follows it; no legacy branch is taken on the way. */
  lemma BlockInverts(k: Curve, b: Block, t: Bytes)
    requires BlockOk(k, b) && b.header.version >= 3
    ensures ReadBlock(k, EncBlock(b) + t) == Some(Read(b, t, 0))
  {
    hide ReadCounted, ReadTrailing, ReadHeader, EncCounted, EncHeader, Inverts, ReadsBack, All;
    var wouts := EncCounted(EncOutput, b.withdrawalOutputs);
    TxsRoundTrip(k);
    DepositsRoundTrip();
    WithdrawalsRoundTrip();
    OutputsRoundTrip(k);
    Reassociate(EncHeader(b.header), FromTxs(b), t);
    HeaderInverts(b.header, FromTxs(b) + t);
    Reassociate(EncCounted(EncTx, b.txs), FromDeposits(b), t);
    CountedInverts(TxParser(k), EncTx, TxOks(k), 0, MAX_SECTION, b.txs, FromDeposits(b) + t);
    Reassociate(EncCounted(EncDeposit, b.deposits), FromWithdrawals(b), t);
    CountedInverts(DepositParser(), EncDeposit, DepositOk, 0, MAX_SECTION, b.deposits, FromWithdrawals(b) + t);
    Reassociate(EncCounted(EncWithdrawal, b.withdrawals), FromOutputs(b), t);
    CountedInverts(WithdrawalParser(), EncWithdrawal, WithdrawalOk, 0, MAX_SECTION, b.withdrawals, FromOutputs(b) + t);
    Reassociate(EncCounted(EncOutput, b.depositOutputs), wouts, t);
    TrailingInverts(OutputParser(k), EncOutput, OutputOks(k), MAX_OUTPUTS, b.depositOutputs, wouts + t);
    TrailingInverts(OutputParser(k), EncOutput, OutputOks(k), MAX_OUTPUTS, b.withdrawalOutputs, t);
  }

  /** On any byte string: what is read is within the limits, what remains is a suffix of the
      input, and re-encoding the block gives exactly the consumed prefix if and only if no
      legacy fallback was taken; otherwise it is longer by what the fallbacks filled in. */
  lemma BlockMatches(k: Curve, s: Bytes)
    ensures match ReadBlock(k, s) case None => true
      case Some(r) =>
        && BlockOk(k, r.value) && EndOf(r.rest, s)
        && |EncBlock(r.value)| + |r.rest| == |s| + r.missing
        && (r.missing == 0 <==> EncBlock(r.value) + r.rest == s)
  {
    hide ReadCounted, ReadTrailing, ReadHeader, EncCounted, EncHeader, Inverts, ReadsBack, All;
    if ReadBlock(k, s).Some? {
      var h := ReadHeader(s).value;
      var txs := ReadCounted(TxParser(k), 0, MAX_SECTION, h.rest).value;
      var deps := ReadCounted(DepositParser(), 0, MAX_SECTION, txs.rest).value;
      var ws := ReadCounted(WithdrawalParser(), 0, MAX_SECTION, deps.rest).value;
      var douts := ReadTrailing(OutputParser(k), MAX_OUTPUTS, ws.rest).value;
      var wouts := ReadTrailing(OutputParser(k), MAX_OUTPUTS, douts.rest).value;
      var b := ReadBlock(k, s).value.value;
      TxsRoundTrip(k);
      DepositsRoundTrip();
      WithdrawalsRoundTrip();
      OutputsRoundTrip(k);
      HeaderMatches(s);
      CountedMatches(TxParser(k), EncTx, TxOks(k), 0, MAX_SECTION, h.rest);
      CountedMatches(DepositParser(), EncDeposit, DepositOk, 0, MAX_SECTION, txs.rest);
      CountedMatches(WithdrawalParser(), EncWithdrawal, WithdrawalOk, 0, MAX_SECTION, deps.rest);
      TrailingMatches(OutputParser(k), EncOutput, OutputOks(k), MAX_OUTPUTS, ws.rest);
      TrailingMatches(OutputParser(k), EncOutput, OutputOks(k), MAX_OUTPUTS, douts.rest);
      var m4 := douts.missing + wouts.missing;
      var m3 := ws.missing + m4;
      var m2 := deps.missing + m3;
      Chain(EncCounted(EncOutput, douts.value), douts.rest, douts.missing, ws.rest,
            EncCounted(EncOutput, wouts.value), wouts.rest, wouts.missing);
      Chain(EncCounted(EncWithdrawal, ws.value), ws.rest, ws.missing, deps.rest, FromOutputs(b), wouts.rest, m4);
      Chain(EncCounted(EncDeposit, deps.value), deps.rest, deps.missing, txs.rest, FromWithdrawals(b), wouts.rest, m3);
      Chain(EncCounted(EncTx, txs.value), txs.rest, txs.missing, h.rest, FromDeposits(b), wouts.rest, m2);
      Chain(EncHeader(h.value), h.rest, h.missing, s, FromTxs(b), wouts.rest, txs.missing + m2);
    }
  }

  // ---- The exact round trip ----

  /** Nothing in any section. */
  predicate NoSections(b: Block) {
    b.txs == [] && b.deposits == [] && b.withdrawals == [] && b.depositOutputs == [] && b.withdrawalOutputs == []
  }

  lemma EmptyCount<T>(enc: T -> Bytes)
    ensures EncCounted(enc, []) == EncU32(0)
  {
  }

  lemma ReadZero<T>(f: Parser<T>, hi: nat, t: Bytes)
    ensures ReadCounted(f, 0, hi, EncU32(0) + t) == Some(Read([], t, 0))
    ensures ReadTrailing(f, hi, EncU32(0) + t) == Some(Read([], t, 0))
  {
    U32Inverts(0, t);
  }

  /** Before version 3 the reader takes the quorum's count for that of the transactions, and
      so on: every section is read under the count of the one before it. */
  lemma OldHeader(h: Header, t: Bytes)
    requires HeaderOk(h) && h.version < 3
    ensures ReadHeader(EncHeader(h) + t) == Some(Read(h, EncU32(0) + t, 4))
  {
    HeaderBytes(h);
    assert Entries(h) == [];
    EmptyCount(EncEntry);
    Reassociate(BaseBytes(h), EncU32(0), t);
    BaseInverts(h, EncU32(0) + t);
    EntriesSplit(h);
  }

  lemma {:induction false} OldSections(k: Curve, b: Block)
    requires HeaderOk(b.header) && b.header.version < 3
    ensures ReadBlock(k, EncBlock(b)).Some? && ReadBlock(k, EncBlock(b)).value.value == b <==> NoSections(b)
  {
    hide ReadCounted, ReadTrailing, ReadHeader, EncCounted, EncHeader;
    OldHeader(b.header, FromTxs(b));
    ReadZero(TxParser(k), MAX_SECTION, FromTxs(b));
    EmptyCount(EncTx);
    ReadZero(DepositParser(), MAX_SECTION, FromDeposits(b));
    EmptyCount(EncDeposit);
    ReadZero(WithdrawalParser(), MAX_SECTION, FromWithdrawals(b));
    EmptyCount(EncWithdrawal);
    ReadZero(OutputParser(k), MAX_OUTPUTS, FromOutputs(b));
    EmptyCount(EncOutput);
    ReadZero(OutputParser(k), MAX_OUTPUTS, EncCounted(EncOutput, b.withdrawalOutputs));
  }

  /** `deserialize(serialize(b))` is b exactly for the blocks within the protocol's limits
      that are of version 3 or later, or have nothing in their sections. */
  lemma BlockRoundTrip(k: Curve, b: Block)
    ensures ReadBlock(k, EncBlock(b)).Some? && ReadBlock(k, EncBlock(b)).value.value == b
      <==> BlockOk(k, b) && (b.header.version >= 3 || NoSections(b))
  {
    hide ReadBlock, EncBlock;
    BlockMatches(k, EncBlock(b));
    if BlockOk(k, b) && b.header.version >= 3 {
      BlockInverts(k, b, []);
      assert EncBlock(b) + [] == EncBlock(b);
    } else if HeaderOk(b.header) && b.header.version < 3 {
      OldSections(k, b);
    }
  }

  // ---- Read back or refused ----

  /** f gives back what enc wrote, or refuses it; it never takes it for something else. */
  ghost predicate Faithful<T(!new)>(f: Parser<T>, enc: T -> Bytes, fits: T -> bool) {
    forall x, t: Bytes {:trigger f(enc(x) + t)} :: fits(x) ==> IsOrNone(f(enc(x) + t), x, t)
  }

  predicate IsOrNone<T(==)>(r: Option<Read<T>>, x: T, t: Bytes) {
    r.None? || r == Some(Read(x, t, 0))
  }

  lemma {:induction false} ManyFaithful<T(!new)>(f: Parser<T>, enc: T -> Bytes, fits: T -> bool, xs: seq<T>, t: Bytes)
    requires Faithful(f, enc, fits) && All(fits, xs)
    ensures IsOrNone(ReadMany(f, |xs|, EncMany(enc, xs) + t), xs, t)
  {
    if xs == [] {
      assert EncMany(enc, xs) + t == t;
    } else {
      var rest := EncMany(enc, xs[1..]) + t;
      Reassociate(enc(xs[0]), EncMany(enc, xs[1..]), t);
      assert IsOrNone(f(enc(xs[0]) + rest), xs[0], rest);
      ManyFaithful(f, enc, fits, xs[1..], t);
      assert [xs[0]] + xs[1..] == xs;
    }
  }

  lemma CountedFaithful<T(!new)>(f: Parser<T>, enc: T -> Bytes, fits: T -> bool, lo: nat, hi: nat, xs: seq<T>, t: Bytes)
    requires Faithful(f, enc, fits) && All(fits, xs) && |xs| < TWO_32
    ensures IsOrNone(ReadCounted(f, lo, hi, EncCounted(enc, xs) + t), xs, t)
    ensures IsOrNone(ReadTrailing(f, hi, EncCounted(enc, xs) + t), xs, t)
  {
    hide EncMany, ReadMany, Faithful, All, EncU32, Parsing.ReadU32;
    Reassociate(EncU32(|xs|), EncMany(enc, xs), t);
    U32Inverts(|xs|, EncMany(enc, xs) + t);
    ManyFaithful(f, enc, fits, xs, t);
  }

  lemma OutputsFaithful(k: Curve)
    ensures Faithful(OutputParser(k), EncOutput, AnyOutput)
  {
    forall o, t: Bytes ensures IsOrNone(OutputParser(k)(EncOutput(o) + t), o, t) { OutputReads(k, o, t); }
  }

  predicate AnyOutput(o: OneTimeOutput) { true }

  /** An output is read back exactly when its two points are valid. */
  lemma OutputReads(k: Curve, o: OneTimeOutput, t: Bytes)
    ensures ReadOutput(k, EncOutput(o) + t) == if OutputOk(k, o) then Some(Read(o, t, 0)) else None
  {
    var d, a := o.destination + EncU64(o.amount), EncU64(o.amount);
    Reassociate(o.ephemeral, d, t);
    KeyInverts(o.ephemeral, d + t);
    Reassociate(o.destination, a, t);
    KeyInverts(o.destination, a + t);
    U64Inverts(o.amount, t);
  }

  lemma PointsFaithful(k: Curve)
    ensures Faithful(PointParser(k), EncKey, AnyKey) && Faithful(ReadKey, EncKey, AnyKey)
  {
    forall x, t: Bytes ensures IsOrNone(PointParser(k)(EncKey(x) + t), x, t) && IsOrNone(ReadKey(EncKey(x) + t), x, t) {
      KeyInverts(x, t);
    }
  }

  /** Vectors of fewer than 2^32 elements: their counts are written without wrapping. */
  predicate TxSized(tx: ShieldedTransaction) {
    |tx.ringSig.responses| < TWO_32 && |tx.ringSig.ring| < TWO_32 && |tx.outputs| < TWO_32
  }

  lemma RingSigFaithful(k: Curve, sig: RingSignature, t: Bytes)
    requires |sig.responses| < TWO_32 && |sig.ring| < TWO_32
    ensures IsOrNone(ReadRingSig(k, EncRingSig(sig) + t), sig, t)
  {
    hide ReadCounted, EncCounted, Faithful;
    PointsFaithful(k);
    var resp, ring, n := EncCounted(EncKey, sig.responses), EncCounted(EncKey, sig.ring), |sig.responses|;
    Reassociate(sig.keyImage, sig.c0 + (resp + ring), t);
    KeyInverts(sig.keyImage, (sig.c0 + (resp + ring)) + t);
    Reassociate(sig.c0, resp + ring, t);
    KeyInverts(sig.c0, (resp + ring) + t);
    Reassociate(resp, ring, t);
    CountedFaithful(ReadKey, EncKey, AnyKey, 1, MAX_RING, sig.responses, ring + t);
    CountedFaithful(PointParser(k), EncKey, AnyKey, n, n, sig.ring, t);
  }

  lemma TextFaithful(x: Text, t: Bytes)
    ensures IsOrNone(ReadText(EncText(x) + t), x, t)
  {
    Reassociate(EncU32(|x|), x, t);
    U32Inverts(|x|, x + t);
    TakeAppend(x, t);
  }

  lemma TxFaithful(k: Curve, tx: ShieldedTransaction, t: Bytes)
    requires TxSized(tx)
    ensures IsOrNone(ReadTx(k, EncTx(tx) + t), tx, t)
  {
    hide ReadCounted, EncCounted, ReadRingSig, EncRingSig, ReadText, EncText, Parsing.ReadU64, EncU64;
    OutputsFaithful(k);
    hide Faithful;
    var sig, outs, fee, time := EncRingSig(tx.ringSig), EncCounted(EncOutput, tx.outputs), EncU64(tx.publicFee), EncText(tx.timestamp);
    Reassociate(tx.txHash, sig + (outs + (fee + time)), t);
    KeyInverts(tx.txHash, (sig + (outs + (fee + time))) + t);
    Reassociate(sig, outs + (fee + time), t);
    RingSigFaithful(k, tx.ringSig, (outs + (fee + time)) + t);
    Reassociate(outs, fee + time, t);
    CountedFaithful(OutputParser(k), EncOutput, AnyOutput, 0, MAX_TX_OUTPUTS, tx.outputs, (fee + time) + t);
    Reassociate(fee, time, t);
    U64Inverts(tx.publicFee, time + t);
    TextFaithful(tx.timestamp, t);
  }

  lemma TxsFaithful(k: Curve)
    ensures Faithful(TxParser(k), EncTx, TxSized)
  {
    forall tx, t: Bytes | TxSized(tx) ensures IsOrNone(TxParser(k)(EncTx(tx) + t), tx, t) { TxFaithful(k, tx, t); }
  }

  lemma DepositFaithful(d: DepositReceipt, t: Bytes)
    ensures IsOrNone(ReadDeposit(EncDeposit(d) + t), d, t)
  {
    var amounts, keys := EncAmounts(d.gross, d.fee, d.net), d.viewPub + d.spendPub;
    Reassociate(amounts, EncText(d.txHash) + keys, t);
    AmountsInvert(Amounts(d.gross, d.fee, d.net), (EncText(d.txHash) + keys) + t);
    Reassociate(EncText(d.txHash), keys, t);
    TextFaithful(d.txHash, keys + t);
    if TextOk(d.txHash) { DepositInverts(d, t); }
  }

  predicate AnyDeposit(d: DepositReceipt) { true }

  lemma DepositsFaithful()
    ensures Faithful(DepositParser(), EncDeposit, AnyDeposit)
  {
    forall d, t: Bytes ensures IsOrNone(DepositParser()(EncDeposit(d) + t), d, t) { DepositFaithful(d, t); }
  }

  lemma WithdrawalFaithful(w: WithdrawalReceipt, t: Bytes)
    ensures IsOrNone(ReadWithdrawal(EncWithdrawal(w) + t), w, t)
  {
    if WithdrawalOk(w) {
      WithdrawalInverts(w, t);
    } else {
      hide ReadAmounts, ReadText, KeysOrZeros, EncAmounts, EncText;
      var amounts, id, dest, keys := EncAmounts(w.gross, w.fee, w.net), EncText(w.orderId), EncText(w.destination), BurnBytes(w);
      Reassociate(amounts, id + (dest + keys), t);
      AmountsInvert(Amounts(w.gross, w.fee, w.net), (id + (dest + keys)) + t);
      Reassociate(id, dest + keys, t);
      TextReads(w.orderId, (dest + keys) + t);
      Reassociate(dest, keys, t);
      TextReads(w.destination, keys + t);
    }
  }

  lemma TextReads(x: Text, t: Bytes)
    ensures ReadText(EncText(x) + t) == if TextOk(x) then Some(Read(x, t, 0)) else None
  {
    Reassociate(EncU32(|x|), x, t);
    U32Inverts(|x|, x + t);
    TakeAppend(x, t);
  }

  predicate AnyWithdrawal(w: WithdrawalReceipt) { true }

  lemma WithdrawalsFaithful()
    ensures Faithful(WithdrawalParser(), EncWithdrawal, AnyWithdrawal)
  {
    forall w, t: Bytes ensures IsOrNone(WithdrawalParser()(EncWithdrawal(w) + t), w, t) { WithdrawalFaithful(w, t); }
  }

  /** Paired quorum vectors, none before version 3, and no vector of 2^32 elements. */
  ghost predicate Sized(b: Block) {
    && |b.header.quorumKeys| == |b.header.quorumSigs| < TWO_32 && (b.header.version < 3 ==> b.header.quorumKeys == [])
    && |b.txs| < TWO_32 && All(TxSized, b.txs) && |b.deposits| < TWO_32 && |b.withdrawals| < TWO_32
    && |b.depositOutputs| < TWO_32 && |b.withdrawalOutputs| < TWO_32
  }

  lemma HeaderFaithful(h: Header, t: Bytes)
    requires |h.quorumKeys| == |h.quorumSigs| < TWO_32 && h.version >= 3
    ensures IsOrNone(ReadHeader(EncHeader(h) + t), h, t)
  {
    hide ReadHeaderBase, BaseBytes, EncHeader, ReadCounted, EncCounted, Faithful;
    var q := EncCounted(EncEntry, Entries(h));
    HeaderBytes(h);
    Reassociate(BaseBytes(h), q, t);
    BaseInverts(h, q + t);
    EntriesFaithful();
    CountedFaithful(EntryParser(), EncEntry, AnyEntry, 0, MAX_QUORUM, Entries(h), t);
    EntriesSplit(h);
  }

  lemma EntriesFaithful()
    ensures Faithful(EntryParser(), EncEntry, AnyEntry)
  {
    EntriesRoundTrip();
  }

  /** From version 3 on, the bytes of a block are read as that block or not at all. */
  lemma ReadsOrFails(k: Curve, b: Block, t: Bytes)
    requires Sized(b) && b.header.version >= 3
    ensures IsOrNone(ReadBlock(k, EncBlock(b) + t), b, t)
  {
    hide ReadCounted, ReadTrailing, ReadHeader, EncCounted, EncHeader, Faithful, All;
    var wouts := EncCounted(EncOutput, b.withdrawalOutputs);
    TxsFaithful(k);
    DepositsFaithful();
    WithdrawalsFaithful();
    OutputsFaithful(k);
    AnyIsAll(b);
    Reassociate(EncHeader(b.header), FromTxs(b), t);
    HeaderFaithful(b.header, FromTxs(b) + t);
    Reassociate(EncCounted(EncTx, b.txs), FromDeposits(b), t);
    CountedFaithful(TxParser(k), EncTx, TxSized, 0, MAX_SECTION, b.txs, FromDeposits(b) + t);
    Reassociate(EncCounted(EncDeposit, b.deposits), FromWithdrawals(b), t);
    CountedFaithful(DepositParser(), EncDeposit, AnyDeposit, 0, MAX_SECTION, b.deposits, FromWithdrawals(b) + t);
    Reassociate(EncCounted(EncWithdrawal, b.withdrawals), FromOutputs(b), t);
    CountedFaithful(WithdrawalParser(), EncWithdrawal, AnyWithdrawal, 0, MAX_SECTION, b.withdrawals, FromOutputs(b) + t);
    Reassociate(EncCounted(EncOutput, b.depositOutputs), wouts, t);
    CountedFaithful(OutputParser(k), EncOutput, AnyOutput, 0, MAX_OUTPUTS, b.depositOutputs, wouts + t);
    CountedFaithful(OutputParser(k), EncOutput, AnyOutput, 0, MAX_OUTPUTS, b.withdrawalOutputs, t);
  }

  lemma AnyIsAll(b: Block)
    ensures All(AnyDeposit, b.deposits) && All(AnyWithdrawal, b.withdrawals)
    ensures All(AnyOutput, b.depositOutputs) && All(AnyOutput, b.withdrawalOutputs)
  {
  }

  /** Whatever a block's bytes are taken for, it has the block's height. */
  lemma HeightReads(k: Curve, b: Block)
    ensures var r := ReadBlock(k, EncBlock(b)); r.Some? ==> r.value.value.header.height == b.header.height
  {
    hide ReadSections, ReadHeaderBase, BaseBytes, ReadQuorum;
    var q := EncU32(|b.header.quorumKeys| % TWO_32) + EncQuorum(b.header, |b.header.quorumKeys|);
    BaseGrouped(b.header);
    Reassociate(EncHeaderBase(b.header), EncU32(|b.header.quorumKeys| % TWO_32), EncQuorum(b.header, |b.header.quorumKeys|));
    Reassociate(BaseBytes(b.header), q, FromTxs(b));
    BaseInverts(b.header, q + FromTxs(b));
    SectionsHeader(k, EncBlock(b));
  }

  lemma SectionsHeader(k: Curve, s: Bytes)
    ensures var r := ReadBlock(k, s); r.Some? ==> ReadHeader(s).Some? && r.value.value.header == ReadHeader(s).value.value
  {
    hide ReadHeader, ReadCounted, ReadTrailing;
  }

  /** The header of a stored block is read back with it; before version 3 no transaction is. */
  lemma HeaderReads(k: Curve, b: Block)
    requires Sized(b)
    ensures match ReadBlock(k, EncBlock(b)) case None => true
      case Some(r) => r.value.header == b.header && (b.header.version < 3 ==> r.value.txs == [])
  {
    if b.header.version >= 3 {
      ReadsOrFails(k, b, []);
      assert EncBlock(b) + [] == EncBlock(b);
    } else {
      hide ReadHeader, ReadTrailing, EncHeader, EncCounted, ReadCounted;
      OldHeader(b.header, FromTxs(b));
      ReadZero(TxParser(k), MAX_SECTION, FromTxs(b));
    }
  }
}
