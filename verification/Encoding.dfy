/** Byte encodings of the parts of a block: what the serializers append, as values
    (src/block.cpp, include/serialization.hpp). */
module Encoding {
  import opened Types
  import opened LittleEndian
  import opened HeaderModel

  /** A sequence of items, each encoded by f, one after the other. */
  function EncMany<T>(f: T -> Bytes, xs: seq<T>): Bytes {
    if xs == [] then [] else f(xs[0]) + EncMany(f, xs[1..])
  }

  /** A u32 count and the items. */
  function EncCounted<T>(f: T -> Bytes, xs: seq<T>): Bytes {
    EncU32(|xs| % TWO_32) + EncMany(f, xs)
  }

  function EncText(s: Text): (b: Bytes)
    ensures |b| == 4 + |s|
  {
    EncU32(|s|) + s
  }

  function EncKey(key: Key256): (b: Bytes)
    ensures |b| == 32
  {
    key
  }

  // Concatenations are grouped to the right, the way they are read back.

  function EncOutput(out: OneTimeOutput): (b: Bytes)
    ensures |b| == 72
  {
    out.ephemeral + (out.destination + EncU64(out.amount))
  }

  function EncRingSig(sig: RingSignature): Bytes {
    sig.keyImage + (sig.c0 + (EncCounted(EncKey, sig.responses) + EncCounted(EncKey, sig.ring)))
  }

  function EncTx(tx: ShieldedTransaction): Bytes {
    tx.txHash + (EncRingSig(tx.ringSig) + (EncCounted(EncOutput, tx.outputs) + (EncU64(tx.publicFee) + EncText(tx.timestamp))))
  }

  function EncAmounts(gross: U64, fee: U64, net: U64): (b: Bytes)
    ensures |b| == 24
  {
    EncU64(gross) + (EncU64(fee) + EncU64(net))
  }

  function EncDeposit(d: DepositReceipt): Bytes {
    EncAmounts(d.gross, d.fee, d.net) + (EncText(d.txHash) + (d.viewPub + d.spendPub))
  }

  function EncWithdrawal(w: WithdrawalReceipt): Bytes {
    EncAmounts(w.gross, w.fee, w.net) + (EncText(w.orderId) + (EncText(w.destination)
    + (w.keyImage + (w.burnedKey + (w.burnC0 + (w.burnS + w.changeKey))))))
  }

  function EncBlock(b: Block): Bytes {
    EncHeader(b.header) + (EncCounted(EncTx, b.txs) + (EncCounted(EncDeposit, b.deposits)
    + (EncCounted(EncWithdrawal, b.withdrawals) + (EncCounted(EncOutput, b.depositOutputs)
    + EncCounted(EncOutput, b.withdrawalOutputs)))))
  }
}
