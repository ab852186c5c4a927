/** The block format read back: every deserializer as a function from the bytes that remain
    (src/block.cpp:18-236, 475-530; include/serialization.hpp:64-131). */
module Parsing {
  import opened Types
  import opened LittleEndian
  import opened CurveModel
  import opened HeaderModel
  import opened Encoding

  /** A value, the bytes after it, and how many bytes of its encoding were not in the input:
      a legacy fallback fills the fields they would hold. */
  datatype Read<+T> = Read(value: T, rest: Bytes, missing: nat)

  type Parser<!T> = Bytes -> Option<Read<T>>

  const MAX_STRING: nat := 65536
  const MAX_SECTION: nat := 10000
  const MAX_OUTPUTS: nat := 20000
  const MAX_TX_OUTPUTS: nat := 256
  const MAX_RING: nat := 64
  const MAX_QUORUM: nat := 64

  // ---- Primitives ----

  function Take(n: nat, s: Bytes): (r: Option<Read<Bytes>>)
    ensures r.Some? ==> |r.value.value| == n
  {
    if |s| < n then None else Some(Read(s[..n], s[n..], 0))
  }

  function ReadU32(s: Bytes): Option<Read<U32>> {
    match Take(U32_BYTES, s) case None => None case Some(r) => PowersOf256(); Some(Read(FromLE(r.value), r.rest, 0))
  }

  function ReadU64(s: Bytes): Option<Read<U64>> {
    match Take(U64_BYTES, s) case None => None case Some(r) => PowersOf256(); Some(Read(FromLE(r.value), r.rest, 0))
  }

  function ReadKey(s: Bytes): Option<Read<Key256>> {
    match Take(32, s) case None => None case Some(r) => Some(Read(r.value, r.rest, 0))
  }

  function ReadSig(s: Bytes): Option<Read<Sig64>> {
    match Take(64, s) case None => None case Some(r) => Some(Read(r.value, r.rest, 0))
  }

  function ReadText(s: Bytes): Option<Read<Text>> {
    match ReadU32(s) case None => None case Some(n) =>
      if n.value > MAX_STRING then None else
      match Take(n.value, n.rest) case None => None case Some(r) => Some(Read(r.value, r.rest, 0))
  }

  /** A point that must be valid. */
  function ReadPoint(k: Curve, s: Bytes): Option<Read<Key256>> {
    match ReadKey(s) case None => None case Some(r) => if k.valid(r.value) then Some(r) else None
  }

  // ---- Sequences ----

  function ReadMany<T>(f: Parser<T>, n: nat, s: Bytes): (r: Option<Read<seq<T>>>)
    ensures r.Some? ==> |r.value.value| == n
  {
    if n == 0 then Some(Read([], s, 0)) else
    match f(s) case None => None case Some(x) =>
      match ReadMany(f, n - 1, x.rest) case None => None case Some(xs) =>
        Some(Read([x.value] + xs.value, xs.rest, x.missing + xs.missing))
  }

  /** A u32 count within bounds, and that many items. */
  function ReadCounted<T>(f: Parser<T>, lo: nat, hi: nat, s: Bytes): Option<Read<seq<T>>> {
    match ReadU32(s) case None => None case Some(n) =>
      if n.value < lo || n.value > hi then None else ReadMany(f, n.value, n.rest)
  }

  /** A section that older blocks do not have. */
  function ReadTrailing<T>(f: Parser<T>, hi: nat, s: Bytes): Option<Read<seq<T>>> {
    if |s| >= 4 then ReadCounted(f, 0, hi, s) else Some(Read([], s, 4))
  }

  // ---- The parts of a block ----

  function ReadOutput(k: Curve, s: Bytes): Option<Read<OneTimeOutput>> {
    match ReadKey(s) case None => None case Some(e) =>
      match ReadKey(e.rest) case None => None case Some(d) =>
        match ReadU64(d.rest) case None => None case Some(a) =>
          if !k.valid(e.value) || !k.valid(d.value) then None else
          Some(Read(OneTimeOutput(e.value, d.value, a.value), a.rest, 0))
  }

  function OutputParser(k: Curve): Parser<OneTimeOutput> { s => ReadOutput(k, s) }
  function PointParser(k: Curve): Parser<Key256> { s => ReadPoint(k, s) }

  function ReadRingSig(k: Curve, s: Bytes): Option<Read<RingSignature>> {
    match ReadKey(s) case None => None case Some(image) =>
      match ReadKey(image.rest) case None => None case Some(c0) =>
        if !k.valid(image.value) then None else
        match ReadCounted(ReadKey, 1, MAX_RING, c0.rest) case None => None case Some(resp) =>
          var n := |resp.value|;
          match ReadCounted(PointParser(k), n, n, resp.rest) case None => None case Some(ring) =>
            Some(Read(RingSignature(image.value, c0.value, resp.value, ring.value), ring.rest, resp.missing + ring.missing))
  }

  function ReadTx(k: Curve, s: Bytes): Option<Read<ShieldedTransaction>> {
    match ReadKey(s) case None => None case Some(h) =>
      match ReadRingSig(k, h.rest) case None => None case Some(sig) =>
        match ReadCounted(OutputParser(k), 0, MAX_TX_OUTPUTS, sig.rest) case None => None case Some(outs) =>
          match ReadU64(outs.rest) case None => None case Some(fee) =>
            match ReadText(fee.rest) case None => None case Some(t) =>
              Some(Read(ShieldedTransaction(h.value, sig.value, outs.value, fee.value, t.value), t.rest, sig.missing + outs.missing))
  }

  function TxParser(k: Curve): Parser<ShieldedTransaction> { s => ReadTx(k, s) }

  datatype Amounts = Amounts(gross: U64, fee: U64, net: U64)

  function ReadAmounts(s: Bytes): Option<Read<Amounts>> {
    match ReadU64(s) case None => None case Some(g) =>
      match ReadU64(g.rest) case None => None case Some(f) =>
        match ReadU64(f.rest) case None => None case Some(n) =>
          Some(Read(Amounts(g.value, f.value, n.value), n.rest, 0))
  }

  function KeysOf(n: nat, s: Bytes): (r: seq<Key256>)
    requires |s| >= 32 * n
    ensures |r| == n
  {
    if n == 0 then [] else [s[..32]] + KeysOf(n - 1, s[32..])
  }

  function ZeroKeys(n: nat): (r: seq<Key256>)
    ensures |r| == n && forall i :: 0 <= i < n ==> r[i] == ZERO_KEY
  {
    if n == 0 then [] else [ZERO_KEY] + ZeroKeys(n - 1)
  }

  /** n keys if they are there, else zeros: the legacy fallback. */
  function KeysOrZeros(n: nat, s: Bytes): (r: Read<seq<Key256>>)
    ensures |r.value| == n
  {
    if |s| >= 32 * n then Read(KeysOf(n, s), s[32 * n..], 0) else Read(ZeroKeys(n), s, 32 * n)
  }

  function ReadDeposit(s: Bytes): Option<Read<DepositReceipt>> {
    match ReadAmounts(s) case None => None case Some(a) =>
      match ReadText(a.rest) case None => None case Some(h) =>
        var keys := KeysOrZeros(2, h.rest);
        Some(Read(DepositReceipt(a.value.gross, a.value.fee, a.value.net, h.value, keys.value[0], keys.value[1]), keys.rest, keys.missing))
  }

  /** A string if more than its length prefix is left, else the empty one. */
  function TextOrEmpty(s: Bytes): Option<Read<Text>> {
    if |s| > 4 then ReadText(s) else Some(Read([], s, 4))
  }

  function ReadWithdrawal(s: Bytes): Option<Read<WithdrawalReceipt>> {
    match ReadAmounts(s) case None => None case Some(a) =>
      match ReadText(a.rest) case None => None case Some(id) =>
        match TextOrEmpty(id.rest) case None => None case Some(dest) =>
          var image := KeysOrZeros(1, dest.rest);
          var burn := KeysOrZeros(3, image.rest);
          var change := KeysOrZeros(1, burn.rest);
          Some(Read(WithdrawalReceipt(a.value.gross, a.value.fee, a.value.net, id.value, dest.value,
                                      image.value[0], burn.value[0], burn.value[1], burn.value[2], change.value[0]),
                    change.rest, dest.missing + image.missing + burn.missing + change.missing))
  }

  function DepositParser(): Parser<DepositReceipt> { s => ReadDeposit(s) }
  function WithdrawalParser(): Parser<WithdrawalReceipt> { s => ReadWithdrawal(s) }

  /** One entry of the quorum. */
  datatype Entry = Entry(key: Key256, sig: Sig64)

  function ReadEntry(s: Bytes): Option<Read<Entry>> {
    match ReadKey(s) case None => None case Some(key) =>
      match ReadSig(key.rest) case None => None case Some(sig) => Some(Read(Entry(key.value, sig.value), sig.rest, 0))
  }

  function EntryParser(): Parser<Entry> { s => ReadEntry(s) }

  function EntryKeys(q: seq<Entry>): (r: seq<Key256>)
    ensures |r| == |q| && forall i :: 0 <= i < |q| ==> r[i] == q[i].key
  {
    seq<Key256>(|q|, i requires 0 <= i < |q| => q[i].key)
  }

  function EntrySigs(q: seq<Entry>): (r: seq<Sig64>)
    ensures |r| == |q| && forall i :: 0 <= i < |q| ==> r[i] == q[i].sig
  {
    seq<Sig64>(|q|, i requires 0 <= i < |q| => q[i].sig)
  }

  /** The quorum is read from version 3 on, if anything is left. */
  function ReadQuorum(version: U32, s: Bytes): Option<Read<seq<Entry>>> {
    if version >= 3 then ReadTrailing(EntryParser(), MAX_QUORUM, s) else Some(Read([], s, 4))
  }

  /** The fixed-size fields of the header. */
  function ReadHeaderBase(s: Bytes): Option<Read<Header>> {
    match ReadU32(s) case None => None case Some(version) =>
      match ReadU64(version.rest) case None => None case Some(height) =>
        match ReadKey(height.rest) case None => None case Some(prev) =>
          match ReadKey(prev.rest) case None => None case Some(root) =>
            match ReadU64(root.rest) case None => None case Some(time) =>
              match ReadU64(time.rest) case None => None case Some(nonce) =>
                match ReadKey(nonce.rest) case None => None case Some(key) =>
                  match ReadSig(key.rest) case None => None case Some(sig) =>
                    Some(Read(Header(version.value, height.value, prev.value, root.value, time.value, nonce.value,
                                     key.value, sig.value, [], []), sig.rest, 0))
  }

  function ReadHeader(s: Bytes): Option<Read<Header>> {
    match ReadHeaderBase(s) case None => None case Some(h) =>
      match ReadQuorum(h.value.version, h.rest) case None => None case Some(q) =>
        Some(Read(h.value.(quorumKeys := EntryKeys(q.value), quorumSigs := EntrySigs(q.value)), q.rest, q.missing))
  }

  /** The sections under a header. */
  function ReadSections(k: Curve, h: Header, s: Bytes): Option<Read<Block>> {
    match ReadCounted(TxParser(k), 0, MAX_SECTION, s) case None => None case Some(txs) =>
      match ReadCounted(DepositParser(), 0, MAX_SECTION, txs.rest) case None => None case Some(deps) =>
        match ReadCounted(WithdrawalParser(), 0, MAX_SECTION, deps.rest) case None => None case Some(ws) =>
          match ReadTrailing(OutputParser(k), MAX_OUTPUTS, ws.rest) case None => None case Some(douts) =>
            match ReadTrailing(OutputParser(k), MAX_OUTPUTS, douts.rest) case None => None case Some(wouts) =>
              Some(Read(Block(h, txs.value, deps.value, ws.value, douts.value, wouts.value), wouts.rest,
                        txs.missing + deps.missing + ws.missing + douts.missing + wouts.missing))
  }

  /** `Block::deserialize`; what follows the block is ignored. */
  function ReadBlock(k: Curve, s: Bytes): Option<Read<Block>> {
    match ReadHeader(s) case None => None case Some(h) =>
      match ReadSections(k, h.value, h.rest) case None => None case Some(b) =>
        Some(Read(b.value, b.rest, h.missing + b.missing))
  }
}
