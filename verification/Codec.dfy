/** The writer and the reader as objects, and the serializers and deserializers that drive
    them (include/serialization.hpp, src/block.cpp). */
module Codec {
  import opened Types
  import opened LittleEndian
  import opened CurveModel
  import opened HeaderModel
  import opened Encoding
  import opened Parsing
  import RoundTrip

  // ---- Digits ----

  lemma DivDiv(v: nat, a: nat, b: nat)
    requires a > 0 && b > 0
    ensures a * b > 0 && (v / a) / b == v / (a * b)
  {
    var q, r := v / a, v % a;
    var x, y := q / b, q % b;
    Euclid(v, a);
    Euclid(q, b);
    assert a * (b * x + y) == a * b * x + a * y;
    var low := a * y + r;
    assert v == (a * b) * x + low;
    MulSucc(a, y, b);
    assert 0 <= a * y;
    QuotientOf(v, a * b, x, low);
  }

  /** The byte a shift by 8i and a mask select. */
  lemma {:induction false} Digit(v: nat, n: nat, i: nat)
    requires i < n
    ensures LE(v, n)[i] == (v / Pow256(i)) % 256
  {
    if i > 0 {
      Digit(v / 256, n - 1, i - 1);
      DivDiv(v, 256, Pow256(i - 1));
    }
  }

  class ByteWriter {
    var buffer: Bytes

    constructor ()
      ensures buffer == []
    {
      buffer := [];
    }

    /** The n low-order bytes, one shift at a time. */
    method WriteInt(v: nat, n: nat)
      modifies this
      ensures buffer == old(buffer) + LE(v, n)
    {
      for i := 0 to n
        invariant buffer == old(buffer) + LE(v, n)[..i]
      {
        Digit(v, n, i);
        buffer := buffer + [(v / Pow256(i)) % 256];
      }
    }

    method WriteU32(v: U32)
      modifies this
      ensures buffer == old(buffer) + EncU32(v)
    {
      WriteInt(v, U32_BYTES);
    }

    method WriteU64(v: U64)
      modifies this
      ensures buffer == old(buffer) + EncU64(v)
    {
      WriteInt(v, U64_BYTES);
    }

    method WriteBytes(b: Bytes)
      modifies this
      ensures buffer == old(buffer) + b
    {
      buffer := buffer + b;
    }

    method WriteString(s: Text)
      modifies this
      ensures buffer == old(buffer) + EncText(s)
    {
      WriteU32(|s|);
      WriteBytes(s);
    }
  }

  lemma TakeAt(data: Bytes, start: nat, n: nat)
    requires start + n <= |data|
    ensures Take(n, data[start..]) == Some(Read(data[start..start + n], data[start + n..], 0))
  {
    assert data[start..][..n] == data[start..start + n] && data[start..][n..] == data[start + n..];
  }

  class ByteReader {
    const data: Bytes
    var cursor: nat

    ghost predicate Valid()
      reads this
    {
      cursor <= |data|
    }

    /** What has not been read. */
    function Rest(): Bytes
      requires Valid()
      reads this
    {
      data[cursor..]
    }

    function Remaining(): (n: nat)
      requires Valid()
      reads this
      ensures n == |Rest()|
    {
      |data| - cursor
    }

    constructor (data: Bytes)
      ensures Valid() && Rest() == data && this.data == data
    {
      this.data := data;
      cursor := 0;
    }

    /** The next n bytes as a little-endian integer; None is the exception. */
    method ReadInt(n: nat) returns (v: Option<nat>)
      requires Valid()
      modifies this
      ensures Valid() && match Take(n, old(Rest()))
        case None => v.None?
        case Some(r) => v == Some(FromLE(r.value)) && Rest() == r.rest
    {
      if Remaining() < n { return None; }
      ghost var start := cursor;
      TakeAt(data, start, n);
      var val := 0;
      for i := 0 to n
        invariant cursor == start + i && val == FromLE(data[start..start + i])
      {
        FromLEAppend(data[start..start + i], data[cursor]);
        assert data[start..start + i + 1] == data[start..start + i] + [data[cursor]];
        val := val + Pow256(i) * data[cursor];
        cursor := cursor + 1;
      }
      return Some(val);
    }

    method ReadU32() returns (v: Option<U32>)
      requires Valid()
      modifies this
      ensures Valid() && Did(Parsing.ReadU32(old(Rest())), v, Rest())
    {
      PowersOf256();
      var x := ReadInt(U32_BYTES);
      if x.None? { return None; }
      return Some(x.value);
    }

    method ReadU64() returns (v: Option<U64>)
      requires Valid()
      modifies this
      ensures Valid() && Did(Parsing.ReadU64(old(Rest())), v, Rest())
    {
      PowersOf256();
      var x := ReadInt(U64_BYTES);
      if x.None? { return None; }
      return Some(x.value);
    }

    method ReadBytes(n: nat) returns (b: Option<Bytes>)
      requires Valid()
      modifies this
      ensures Valid() && Did(Take(n, old(Rest())), b, Rest())
    {
      if Remaining() < n { return None; }
      TakeAt(data, cursor, n);
      b := Some(data[cursor..cursor + n]);
      cursor := cursor + n;
    }

    method ReadString() returns (s: Option<Text>)
      requires Valid()
      modifies this
      ensures Valid() && Did(ReadText(old(Rest())), s, Rest())
    {
      var len := ReadU32();
      if len.None? || len.value > MAX_STRING { return None; }
      var b := ReadBytes(len.value);
      if b.None? { return None; }
      return Some(b.value);
    }

    method ReadKey() returns (key: Option<Key256>)
      requires Valid()
      modifies this
      ensures Valid() && Did(Parsing.ReadKey(old(Rest())), key, Rest())
    {
      var b := ReadBytes(32);
      if b.None? { return None; }
      return Some(b.value);
    }

    method ReadSig() returns (sig: Option<Sig64>)
      requires Valid()
      modifies this
      ensures Valid() && Did(Parsing.ReadSig(old(Rest())), sig, Rest())
    {
      var b := ReadBytes(64);
      if b.None? { return None; }
      return Some(b.value);
    }
  }

  /** A read of the object did what the function says: the value, and the place after it. */
  ghost predicate Did<T>(x: Option<Read<T>>, got: Option<T>, rest: Bytes) {
    match x case None => got.None? case Some(r) => got == Some(r.value) && rest == r.rest
  }

  // ---- Writing ----

  lemma ManyPush<T>(f: T -> Bytes, xs: seq<T>, i: nat)
    requires i < |xs|
    ensures EncMany(f, xs[..i + 1]) == EncMany(f, xs[..i]) + f(xs[i])
  {
    RoundTrip.EncManyPush(f, xs[..i], xs[i]);
    assert xs[..i + 1] == xs[..i] + [xs[i]];
  }

  /** The loops of the serializers: a count, then the items. */
  method WriteKeys(w: ByteWriter, keys: seq<Key256>)
    modifies w
    ensures w.buffer == old(w.buffer) + EncCounted(EncKey, keys)
  {
    w.WriteU32(|keys| % TWO_32);
    ghost var start := w.buffer;
    for i := 0 to |keys|
      invariant w.buffer == start + EncMany(EncKey, keys[..i])
    {
      ManyPush(EncKey, keys, i);
      w.WriteBytes(keys[i]);
    }
    assert keys[..|keys|] == keys;
  }

  method SerializeOutput(w: ByteWriter, o: OneTimeOutput)
    modifies w
    ensures w.buffer == old(w.buffer) + EncOutput(o)
  {
    w.WriteBytes(o.ephemeral);
    w.WriteBytes(o.destination);
    w.WriteU64(o.amount);
  }

  method WriteOutputs(w: ByteWriter, outs: seq<OneTimeOutput>)
    modifies w
    ensures w.buffer == old(w.buffer) + EncCounted(EncOutput, outs)
  {
    w.WriteU32(|outs| % TWO_32);
    ghost var start := w.buffer;
    for i := 0 to |outs|
      invariant w.buffer == start + EncMany(EncOutput, outs[..i])
    {
      ManyPush(EncOutput, outs, i);
      SerializeOutput(w, outs[i]);
    }
    assert outs[..|outs|] == outs;
  }

  method SerializeRingSig(w: ByteWriter, sig: RingSignature)
    modifies w
    ensures w.buffer == old(w.buffer) + EncRingSig(sig)
  {
    w.WriteBytes(sig.keyImage);
    w.WriteBytes(sig.c0);
    WriteKeys(w, sig.responses);
    WriteKeys(w, sig.ring);
  }

  method SerializeTx(w: ByteWriter, tx: ShieldedTransaction)
    modifies w
    ensures w.buffer == old(w.buffer) + EncTx(tx)
  {
    ghost var start := w.buffer;
    w.WriteBytes(tx.txHash);
    SerializeRingSig(w, tx.ringSig);
    WriteOutputs(w, tx.outputs);
    w.WriteU64(tx.publicFee);
    w.WriteString(tx.timestamp);
    Five(start, tx.txHash, EncRingSig(tx.ringSig), EncCounted(EncOutput, tx.outputs), EncU64(tx.publicFee), EncText(tx.timestamp));
  }

  lemma Five(s: Bytes, a: Bytes, b: Bytes, c: Bytes, d: Bytes, e: Bytes)
    ensures s + a + b + c + d + e == s + (a + (b + (c + (d + e))))
  {
    assert s + a + b + c + d + e == s + a + b + c + (d + e);
    assert s + a + b + c + (d + e) == s + a + b + (c + (d + e));
  }

  method WriteTxs(w: ByteWriter, txs: seq<ShieldedTransaction>)
    modifies w
    ensures w.buffer == old(w.buffer) + EncCounted(EncTx, txs)
  {
    hide EncTx;
    w.WriteU32(|txs| % TWO_32);
    ghost var start := w.buffer;
    for i := 0 to |txs|
      invariant w.buffer == start + EncMany(EncTx, txs[..i])
    {
      ManyPush(EncTx, txs, i);
      SerializeTx(w, txs[i]);
    }
    assert txs[..|txs|] == txs;
  }

  method WriteAmounts(w: ByteWriter, gross: U64, fee: U64, net: U64)
    modifies w
    ensures w.buffer == old(w.buffer) + EncAmounts(gross, fee, net)
  {
    w.WriteU64(gross);
    w.WriteU64(fee);
    w.WriteU64(net);
  }

  method SerializeDeposit(w: ByteWriter, d: DepositReceipt)
    modifies w
    ensures w.buffer == old(w.buffer) + EncDeposit(d)
  {
    ghost var start := w.buffer;
    WriteAmounts(w, d.gross, d.fee, d.net);
    w.WriteString(d.txHash);
    w.WriteBytes(d.viewPub);
    w.WriteBytes(d.spendPub);
    Five(start, EncAmounts(d.gross, d.fee, d.net), EncText(d.txHash), d.viewPub, d.spendPub, []);
  }

  method WriteDeposits(w: ByteWriter, deps: seq<DepositReceipt>)
    modifies w
    ensures w.buffer == old(w.buffer) + EncCounted(EncDeposit, deps)
  {
    hide EncDeposit;
    w.WriteU32(|deps| % TWO_32);
    ghost var start := w.buffer;
    for i := 0 to |deps|
      invariant w.buffer == start + EncMany(EncDeposit, deps[..i])
    {
      ManyPush(EncDeposit, deps, i);
      SerializeDeposit(w, deps[i]);
    }
    assert deps[..|deps|] == deps;
  }

  method WriteBurnKeys(w: ByteWriter, x: WithdrawalReceipt)
    modifies w
    ensures w.buffer == old(w.buffer) + RoundTrip.BurnBytes(x)
  {
    ghost var start := w.buffer;
    w.WriteBytes(x.keyImage);
    w.WriteBytes(x.burnedKey);
    w.WriteBytes(x.burnC0);
    w.WriteBytes(x.burnS);
    w.WriteBytes(x.changeKey);
    Five(start, x.keyImage, x.burnedKey, x.burnC0, x.burnS, x.changeKey);
  }

  method SerializeWithdrawal(w: ByteWriter, x: WithdrawalReceipt)
    modifies w
    ensures w.buffer == old(w.buffer) + EncWithdrawal(x)
  {
    ghost var start := w.buffer;
    WriteAmounts(w, x.gross, x.fee, x.net);
    w.WriteString(x.orderId);
    w.WriteString(x.destination);
    WriteBurnKeys(w, x);
    Five(start, EncAmounts(x.gross, x.fee, x.net), EncText(x.orderId), EncText(x.destination), RoundTrip.BurnBytes(x), []);
  }

  method WriteWithdrawals(w: ByteWriter, ws: seq<WithdrawalReceipt>)
    modifies w
    ensures w.buffer == old(w.buffer) + EncCounted(EncWithdrawal, ws)
  {
    hide EncWithdrawal;
    w.WriteU32(|ws| % TWO_32);
    ghost var start := w.buffer;
    for i := 0 to |ws|
      invariant w.buffer == start + EncMany(EncWithdrawal, ws[..i])
    {
      ManyPush(EncWithdrawal, ws, i);
      SerializeWithdrawal(w, ws[i]);
    }
    assert ws[..|ws|] == ws;
  }

  method WriteHeaderBase(w: ByteWriter, h: Header)
    modifies w
    ensures w.buffer == old(w.buffer) + EncHeaderBase(h)
  {
    ghost var start := w.buffer;
    w.WriteU32(h.version);
    w.WriteU64(h.height);
    w.WriteBytes(h.prevHash);
    w.WriteBytes(h.merkleRoot);
    WriteHeaderEnd(w, h);
    Five(start, EncU32(h.version), EncU64(h.height), h.prevHash, h.merkleRoot, RoundTrip.AfterRoot(h));
    RoundTrip.BaseGrouped(h);
  }

  method WriteHeaderEnd(w: ByteWriter, h: Header)
    modifies w
    ensures w.buffer == old(w.buffer) + RoundTrip.AfterRoot(h)
  {
    ghost var start := w.buffer;
    w.WriteU64(h.timestamp);
    w.WriteU64(h.nonce);
    w.WriteBytes(h.validatorKey);
    w.WriteBytes(h.validatorSig);
    Five(start, EncU64(h.timestamp), EncU64(h.nonce), h.validatorKey, h.validatorSig, []);
  }

  method SerializeHeader(w: ByteWriter, h: Header)
    modifies w
    ensures w.buffer == old(w.buffer) + EncHeader(h)
  {
    hide EncHeaderBase, EncU32;
    ghost var start := w.buffer;
    WriteHeaderBase(w, h);
    w.WriteU32(|h.quorumKeys| % TWO_32);
    ghost var counted := w.buffer;
    for i := 0 to |h.quorumKeys|
      invariant w.buffer == counted + EncQuorum(h, i)
    {
      w.WriteBytes(h.quorumKeys[i]);
      w.WriteBytes(if i < |h.quorumSigs| then h.quorumSigs[i] else ZERO_SIG);
      RoundTrip.Reassociate(counted, EncQuorum(h, i), EncQuorumEntry(h, i));
    }
    Five(start, EncHeaderBase(h), EncU32(|h.quorumKeys| % TWO_32), EncQuorum(h, |h.quorumKeys|), [], []);
    RoundTrip.Reassociate(EncHeaderBase(h), EncU32(|h.quorumKeys| % TWO_32), EncQuorum(h, |h.quorumKeys|));
  }

  /** `Block::serialize`. */
  method Serialize(b: Block) returns (bytes: Bytes)
    ensures bytes == EncBlock(b)
  {
    hide EncHeader, EncCounted;
    var w := new ByteWriter();
    SerializeHeader(w, b.header);
    WriteTxs(w, b.txs);
    WriteDeposits(w, b.deposits);
    WriteWithdrawals(w, b.withdrawals);
    WriteOutputs(w, b.depositOutputs);
    WriteOutputs(w, b.withdrawalOutputs);
    bytes := w.buffer;
    Five(EncHeader(b.header), EncCounted(EncTx, b.txs), EncCounted(EncDeposit, b.deposits), EncCounted(EncWithdrawal, b.withdrawals),
         EncCounted(EncOutput, b.depositOutputs), EncCounted(EncOutput, b.withdrawalOutputs));
  }

  // ---- Reading ----

  /** After i of n items: what is still to be read completes what has been. */
  ghost predicate Reading<T>(f: Parser<T>, n: nat, s: Bytes, i: nat, got: seq<T>, rest: Bytes) {
    && |got| == i <= n
    && match ReadMany(f, n - i, rest)
       case None => ReadMany(f, n, s).None?
       case Some(r) => ReadMany(f, n, s).Some? && ReadMany(f, n, s).value.value == got + r.value
                       && ReadMany(f, n, s).value.rest == r.rest
  }

  lemma ReadingStep<T>(f: Parser<T>, n: nat, s: Bytes, i: nat, got: seq<T>, rest: Bytes)
    requires Reading(f, n, s, i, got, rest) && i < n
    ensures match f(rest)
      case None => ReadMany(f, n, s).None?
      case Some(x) => Reading(f, n, s, i + 1, got + [x.value], x.rest)
  {
    if f(rest).Some? {
      var x := f(rest).value;
      var more := ReadMany(f, n - i - 1, x.rest);
      if more.Some? { assert (got + [x.value]) + more.value.value == got + ([x.value] + more.value.value); }
    }
  }

  lemma ReadingDone<T>(f: Parser<T>, n: nat, s: Bytes, got: seq<T>, rest: Bytes)
    requires Reading(f, n, s, n, got, rest)
    ensures ReadMany(f, n, s).Some? && ReadMany(f, n, s).value.value == got && ReadMany(f, n, s).value.rest == rest
  {
    assert got + [] == got;
  }

  /** A count within bounds; None is the exception. */
  method ReadCount(r: ByteReader, lo: nat, hi: nat) returns (n: Option<nat>)
    requires r.Valid()
    modifies r
    ensures r.Valid() && match Parsing.ReadU32(old(r.Rest()))
      case None => n.None?
      case Some(x) => if x.value < lo || x.value > hi then n.None? else n == Some(x.value) && r.Rest() == x.rest
  {
    var x := r.ReadU32();
    if x.None? || x.value < lo || x.value > hi { return None; }
    return Some(x.value);
  }

  method ReadPoint(k: Curve, r: ByteReader) returns (key: Option<Key256>)
    requires r.Valid()
    modifies r
    ensures r.Valid() && Did(Parsing.ReadPoint(k, old(r.Rest())), key, r.Rest())
  {
    key := r.ReadKey();
    if key.Some? && !k.valid(key.value) { key := None; }
  }

  method DeserializeOutput(k: Curve, r: ByteReader) returns (o: Option<OneTimeOutput>)
    requires r.Valid()
    modifies r
    ensures r.Valid() && Did(ReadOutput(k, old(r.Rest())), o, r.Rest())
  {
    var e := r.ReadKey();
    if e.None? { return None; }
    var d := r.ReadKey();
    if d.None? { return None; }
    var a := r.ReadU64();
    if a.None? { return None; }
    if !k.valid(e.value) { return None; }
    if !k.valid(d.value) { return None; }
    return Some(OneTimeOutput(e.value, d.value, a.value));
  }

  method ReadOutputs(k: Curve, r: ByteReader, hi: nat) returns (outs: Option<seq<OneTimeOutput>>)
    requires r.Valid()
    modifies r
    ensures r.Valid() && Did(ReadCounted(OutputParser(k), 0, hi, old(r.Rest())), outs, r.Rest())
  {
    hide ReadOutput;
    var n := ReadCount(r, 0, hi);
    if n.None? { return None; }
    ghost var s := r.Rest();
    var got := [];
    for i := 0 to n.value
      invariant r.Valid() && Reading(OutputParser(k), n.value, s, i, got, r.Rest())
    {
      ReadingStep(OutputParser(k), n.value, s, i, got, r.Rest());
      var o := DeserializeOutput(k, r);
      if o.None? { return None; }
      got := got + [o.value];
    }
    ReadingDone(OutputParser(k), n.value, s, got, r.Rest());
    return Some(got);
  }

  /** The responses, then the keys of the ring. */
  method ReadResponses(r: ByteReader) returns (keys: Option<seq<Key256>>)
    requires r.Valid()
    modifies r
    ensures r.Valid() && Did(ReadCounted(Parsing.ReadKey, 1, MAX_RING, old(r.Rest())), keys, r.Rest())
  {
    var n := ReadCount(r, 1, MAX_RING);
    if n.None? { return None; }
    ghost var s := r.Rest();
    var got := [];
    for i := 0 to n.value
      invariant r.Valid() && Reading(Parsing.ReadKey, n.value, s, i, got, r.Rest())
    {
      ReadingStep(Parsing.ReadKey, n.value, s, i, got, r.Rest());
      var key := r.ReadKey();
      if key.None? { return None; }
      got := got + [key.value];
    }
    ReadingDone(Parsing.ReadKey, n.value, s, got, r.Rest());
    return Some(got);
  }

  method ReadRing(k: Curve, r: ByteReader, count: nat) returns (keys: Option<seq<Key256>>)
    requires r.Valid()
    modifies r
    ensures r.Valid() && Did(ReadCounted(PointParser(k), count, count, old(r.Rest())), keys, r.Rest())
  {
    var n := ReadCount(r, count, count);
    if n.None? { return None; }
    ghost var s := r.Rest();
    var got := [];
    for i := 0 to n.value
      invariant r.Valid() && Reading(PointParser(k), n.value, s, i, got, r.Rest())
    {
      ReadingStep(PointParser(k), n.value, s, i, got, r.Rest());
      var key := ReadPoint(k, r);
      if key.None? { return None; }
      got := got + [key.value];
    }
    ReadingDone(PointParser(k), n.value, s, got, r.Rest());
    return Some(got);
  }

  method DeserializeRingSig(k: Curve, r: ByteReader) returns (sig: Option<RingSignature>)
    requires r.Valid()
    modifies r
    ensures r.Valid() && Did(ReadRingSig(k, old(r.Rest())), sig, r.Rest())
  {
    hide ReadCounted, Parsing.ReadKey;
    var image := r.ReadKey();
    if image.None? { return None; }
    var c0 := r.ReadKey();
    if c0.None? || !k.valid(image.value) { return None; }
    var resp := ReadResponses(r);
    if resp.None? { return None; }
    var ring := ReadRing(k, r, |resp.value|);
    if ring.None? { return None; }
    return Some(RingSignature(image.value, c0.value, resp.value, ring.value));
  }

  method DeserializeTx(k: Curve, r: ByteReader) returns (tx: Option<ShieldedTransaction>)
    requires r.Valid()
    modifies r
    ensures r.Valid() && Did(ReadTx(k, old(r.Rest())), tx, r.Rest())
  {
    hide ReadCounted, ReadRingSig, ReadText, Parsing.ReadKey, Parsing.ReadU64;
    var h := r.ReadKey();
    if h.None? { return None; }
    var sig := DeserializeRingSig(k, r);
    if sig.None? { return None; }
    var outs := ReadOutputs(k, r, MAX_TX_OUTPUTS);
    if outs.None? { return None; }
    var fee := r.ReadU64();
    if fee.None? { return None; }
    var time := r.ReadString();
    if time.None? { return None; }
    return Some(ShieldedTransaction(h.value, sig.value, outs.value, fee.value, time.value));
  }

  method ReadTxs(k: Curve, r: ByteReader) returns (txs: Option<seq<ShieldedTransaction>>)
    requires r.Valid()
    modifies r
    ensures r.Valid() && Did(ReadCounted(TxParser(k), 0, MAX_SECTION, old(r.Rest())), txs, r.Rest())
  {
    hide ReadTx;
    var n := ReadCount(r, 0, MAX_SECTION);
    if n.None? { return None; }
    ghost var s := r.Rest();
    var got := [];
    for i := 0 to n.value
      invariant r.Valid() && Reading(TxParser(k), n.value, s, i, got, r.Rest())
    {
      ReadingStep(TxParser(k), n.value, s, i, got, r.Rest());
      var tx := DeserializeTx(k, r);
      if tx.None? { return None; }
      got := got + [tx.value];
    }
    ReadingDone(TxParser(k), n.value, s, got, r.Rest());
    return Some(got);
  }

  method ReadThreeAmounts(r: ByteReader) returns (a: Option<Amounts>)
    requires r.Valid()
    modifies r
    ensures r.Valid() && Did(ReadAmounts(old(r.Rest())), a, r.Rest())
  {
    var g := r.ReadU64();
    if g.None? { return None; }
    var f := r.ReadU64();
    if f.None? { return None; }
    var n := r.ReadU64();
    if n.None? { return None; }
    return Some(Amounts(g.value, f.value, n.value));
  }

  /** One key of n. */
  lemma KeysStep(n: nat, s: Bytes, keys: seq<Key256>)
    requires n > 0 && |s| >= 32 * n
    ensures keys + KeysOf(n, s) == (keys + [s[..32]]) + KeysOf(n - 1, s[32..])
    ensures s[32..][32 * (n - 1)..] == s[32 * n..]
  {
    assert KeysOf(n, s) == [s[..32]] + KeysOf(n - 1, s[32..]);
  }

  /** Keys that are there, or zeros: the branches on `remaining()`. */
  method ReadKeysOrZeros(r: ByteReader, n: nat) returns (keys: seq<Key256>)
    requires r.Valid()
    modifies r
    ensures r.Valid() && keys == KeysOrZeros(n, old(r.Rest())).value && r.Rest() == KeysOrZeros(n, old(r.Rest())).rest
  {
    if r.Remaining() < 32 * n { return ZeroKeys(n); }
    ghost var s := r.Rest();
    keys := [];
    for i := 0 to n
      invariant r.Valid() && |r.Rest()| >= 32 * (n - i)
      invariant keys + KeysOf(n - i, r.Rest()) == KeysOf(n, s)
      invariant r.Rest()[32 * (n - i)..] == s[32 * n..]
    {
      hide KeysOf;
      KeysStep(n - i, r.Rest(), keys);
      var key := r.ReadKey();
      keys := keys + [key.value];
    }
  }

  method DeserializeDeposit(r: ByteReader) returns (d: Option<DepositReceipt>)
    requires r.Valid()
    modifies r
    ensures r.Valid() && Did(ReadDeposit(old(r.Rest())), d, r.Rest())
  {
    hide ReadAmounts, ReadText, KeysOrZeros;
    var a := ReadThreeAmounts(r);
    if a.None? { return None; }
    var h := r.ReadString();
    if h.None? { return None; }
    var keys := ReadKeysOrZeros(r, 2);
    return Some(DepositReceipt(a.value.gross, a.value.fee, a.value.net, h.value, keys[0], keys[1]));
  }

  method ReadDeposits(r: ByteReader) returns (deps: Option<seq<DepositReceipt>>)
    requires r.Valid()
    modifies r
    ensures r.Valid() && Did(ReadCounted(DepositParser(), 0, MAX_SECTION, old(r.Rest())), deps, r.Rest())
  {
    hide ReadDeposit;
    var n := ReadCount(r, 0, MAX_SECTION);
    if n.None? { return None; }
    ghost var s := r.Rest();
    var got := [];
    for i := 0 to n.value
      invariant r.Valid() && Reading(DepositParser(), n.value, s, i, got, r.Rest())
    {
      ReadingStep(DepositParser(), n.value, s, i, got, r.Rest());
      var d := DeserializeDeposit(r);
      if d.None? { return None; }
      got := got + [d.value];
    }
    ReadingDone(DepositParser(), n.value, s, got, r.Rest());
    return Some(got);
  }

  method DeserializeWithdrawal(r: ByteReader) returns (w: Option<WithdrawalReceipt>)
    requires r.Valid()
    modifies r
    ensures r.Valid() && Did(ReadWithdrawal(old(r.Rest())), w, r.Rest())
  {
    hide ReadAmounts, ReadText, KeysOrZeros;
    var a := ReadThreeAmounts(r);
    if a.None? { return None; }
    var id := r.ReadString();
    if id.None? { return None; }
    var dest: Option<Text> := Some([]);
    if r.Remaining() > 4 { dest := r.ReadString(); }
    if dest.None? { return None; }
    var image := ReadKeysOrZeros(r, 1);
    var burn := ReadKeysOrZeros(r, 3);
    var change := ReadKeysOrZeros(r, 1);
    return Some(WithdrawalReceipt(a.value.gross, a.value.fee, a.value.net, id.value, dest.value,
                                  image[0], burn[0], burn[1], burn[2], change[0]));
  }

  method ReadWithdrawals(r: ByteReader) returns (ws: Option<seq<WithdrawalReceipt>>)
    requires r.Valid()
    modifies r
    ensures r.Valid() && Did(ReadCounted(WithdrawalParser(), 0, MAX_SECTION, old(r.Rest())), ws, r.Rest())
  {
    hide ReadWithdrawal;
    var n := ReadCount(r, 0, MAX_SECTION);
    if n.None? { return None; }
    ghost var s := r.Rest();
    var got := [];
    for i := 0 to n.value
      invariant r.Valid() && Reading(WithdrawalParser(), n.value, s, i, got, r.Rest())
    {
      ReadingStep(WithdrawalParser(), n.value, s, i, got, r.Rest());
      var w := DeserializeWithdrawal(r);
      if w.None? { return None; }
      got := got + [w.value];
    }
    ReadingDone(WithdrawalParser(), n.value, s, got, r.Rest());
    return Some(got);
  }

  method ReadHeaderFields(r: ByteReader) returns (h: Option<Header>)
    requires r.Valid()
    modifies r
    ensures r.Valid() && Did(ReadHeaderBase(old(r.Rest())), h, r.Rest())
  {
    hide Parsing.ReadU32, Parsing.ReadU64, Parsing.ReadKey, Parsing.ReadSig;
    var version := r.ReadU32();
    if version.None? { return None; }
    var height := r.ReadU64();
    if height.None? { return None; }
    var prev := r.ReadKey();
    if prev.None? { return None; }
    var root := r.ReadKey();
    if root.None? { return None; }
    var time := r.ReadU64();
    if time.None? { return None; }
    var nonce := r.ReadU64();
    if nonce.None? { return None; }
    var key := r.ReadKey();
    if key.None? { return None; }
    var sig := r.ReadSig();
    if sig.None? { return None; }
    return Some(Header(version.value, height.value, prev.value, root.value, time.value, nonce.value, key.value, sig.value, [], []));
  }

  method ReadEntries(r: ByteReader) returns (q: Option<seq<Entry>>)
    requires r.Valid()
    modifies r
    ensures r.Valid() && Did(ReadCounted(EntryParser(), 0, MAX_QUORUM, old(r.Rest())), q, r.Rest())
  {
    var n := ReadCount(r, 0, MAX_QUORUM);
    if n.None? { return None; }
    ghost var s := r.Rest();
    var got: seq<Entry> := [];
    for i := 0 to n.value
      invariant r.Valid() && Reading(EntryParser(), n.value, s, i, got, r.Rest())
    {
      ReadingStep(EntryParser(), n.value, s, i, got, r.Rest());
      var key := r.ReadKey();
      if key.None? { return None; }
      var sig := r.ReadSig();
      if sig.None? { return None; }
      got := got + [Entry(key.value, sig.value)];
    }
    ReadingDone(EntryParser(), n.value, s, got, r.Rest());
    return Some(got);
  }

  method DeserializeHeader(r: ByteReader) returns (h: Option<Header>)
    requires r.Valid()
    modifies r
    ensures r.Valid() && Did(ReadHeader(old(r.Rest())), h, r.Rest())
  {
    hide ReadHeaderBase, ReadCounted;
    var b := ReadHeaderFields(r);
    if b.None? { return None; }
    var q: Option<seq<Entry>> := Some([]);
    if b.value.version >= 3 && r.Remaining() >= 4 { q := ReadEntries(r); }
    if q.None? { return None; }
    return Some(b.value.(quorumKeys := EntryKeys(q.value), quorumSigs := EntrySigs(q.value)));
  }

  /** The outputs that older blocks do not have. */
  method ReadTrailingOutputs(k: Curve, r: ByteReader) returns (outs: Option<seq<OneTimeOutput>>)
    requires r.Valid()
    modifies r
    ensures r.Valid() && Did(ReadTrailing(OutputParser(k), MAX_OUTPUTS, old(r.Rest())), outs, r.Rest())
  {
    if r.Remaining() < 4 { return Some([]); }
    outs := ReadOutputs(k, r, MAX_OUTPUTS);
  }

  method DeserializeSections(k: Curve, r: ByteReader, h: Header) returns (b: Option<Block>)
    requires r.Valid()
    modifies r
    ensures r.Valid() && Did(ReadSections(k, h, old(r.Rest())), b, r.Rest())
  {
    hide ReadCounted, ReadTrailing, OutputParser, TxParser, DepositParser, WithdrawalParser;
    var txs := ReadTxs(k, r);
    if txs.None? { return None; }
    var deps := ReadDeposits(r);
    if deps.None? { return None; }
    var ws := ReadWithdrawals(r);
    if ws.None? { return None; }
    var douts := ReadTrailingOutputs(k, r);
    if douts.None? { return None; }
    var wouts := ReadTrailingOutputs(k, r);
    if wouts.None? { return None; }
    return Some(Block(h, txs.value, deps.value, ws.value, douts.value, wouts.value));
  }

  method DeserializeBlock(k: Curve, r: ByteReader) returns (b: Option<Block>)
    requires r.Valid()
    modifies r
    ensures r.Valid() && Did(ReadBlock(k, old(r.Rest())), b, r.Rest())
  {
    hide ReadHeader, ReadSections;
    var h := DeserializeHeader(r);
    if h.None? { return None; }
    b := DeserializeSections(k, r, h.value);
  }

  /** `Block::deserialize`. */
  method Deserialize(k: Curve, data: Bytes) returns (b: Option<Block>)
    ensures match ReadBlock(k, data) case None => b.None? case Some(r) => b == Some(r.value)
  {
    hide ReadBlock;
    var r := new ByteReader(data);
    b := DeserializeBlock(k, r);
  }
}
