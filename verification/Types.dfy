/** Values shared by every component: machine integers, byte strings, and the
    records that are hashed, signed, stored and sent (include/types.hpp,
    include/block.hpp, include/stealth.hpp, include/ring_signature.hpp,
    include/vault.hpp). */
module Types {

  const TWO_32: int := 0x1_0000_0000
  const TWO_64: int := 0x1_0000_0000_0000_0000

  /** uint8_t, uint32_t and uint64_t. */
  type Byte = b: int | 0 <= b < 256
  type U32 = x: int | 0 <= x < TWO_32
  type U64 = x: int | 0 <= x < TWO_64

  type Bytes = seq<Byte>

  /** A C++ `std::string` is a byte string; sizes of 4 GiB and more are left out. */
  type Text = s: Bytes | |s| < TWO_32

  /** `std::array<uint8_t, 32>` and `std::array<uint8_t, 64>`. */
  type Key256 = k: Bytes | |k| == 32 witness seq(32, (i: nat) => 0)
  type Sig64 = k: Bytes | |k| == 64 witness seq(64, (i: nat) => 0)
  type Hash256 = Key256
  type KeyImage = Key256

  function Zeros(n: nat): (b: Bytes)
    ensures |b| == n && forall i :: 0 <= i < n ==> b[i] == 0
  {
    seq(n, (i: nat) => 0)
  }

  const ZERO_KEY: Key256 := Zeros(32)
  const ZERO_SIG: Sig64 := Zeros(64)

  datatype Option<+T> = None | Some(value: T)

  datatype OneTimeOutput = OneTimeOutput(ephemeral: Key256, destination: Key256, amount: U64)

  datatype RingSignature = RingSignature(
    keyImage: KeyImage, c0: Key256, responses: seq<Key256>, ring: seq<Key256>)

  datatype ShieldedTransaction = ShieldedTransaction(
    txHash: Hash256, ringSig: RingSignature, outputs: seq<OneTimeOutput>, publicFee: U64, timestamp: Text)

  datatype DepositReceipt = DepositReceipt(
    gross: U64, fee: U64, net: U64, txHash: Text, viewPub: Key256, spendPub: Key256)

  datatype WithdrawalReceipt = WithdrawalReceipt(
    gross: U64, fee: U64, net: U64, orderId: Text, destination: Text,
    keyImage: KeyImage, burnedKey: Key256, burnC0: Key256, burnS: Key256, changeKey: Key256)

  datatype Header = Header(
    version: U32, height: U64, prevHash: Hash256, merkleRoot: Hash256, timestamp: U64, nonce: U64,
    validatorKey: Key256, validatorSig: Sig64, quorumKeys: seq<Key256>, quorumSigs: seq<Sig64>)

  datatype Block = Block(
    header: Header, txs: seq<ShieldedTransaction>, deposits: seq<DepositReceipt>,
    withdrawals: seq<WithdrawalReceipt>, depositOutputs: seq<OneTimeOutput>,
    withdrawalOutputs: seq<OneTimeOutput>)

  /** The three balances of the vault. */
  datatype Balances = Balances(collateral: U64, circulating: U64, feePool: U64)

  ghost predicate NoDup<T(!new)>(s: seq<T>) {
    forall i, j :: 0 <= i < j < |s| ==> s[i] != s[j]
  }

  function Elements<T(==)>(s: seq<T>): set<T> {
    set x | x in s
  }

  lemma {:induction false} NoDupCardinality<T(!new)>(s: seq<T>)
    requires NoDup(s)
    ensures |Elements(s)| == |s|
  {
    if s != [] {
      var n := |s| - 1;
      NoDupCardinality(s[..n]);
      assert Elements(s) == Elements(s[..n]) + {s[n]};
    }
  }

  function Map<A, B>(f: A -> B, s: seq<A>): (r: seq<B>)
    ensures |r| == |s|
    ensures forall i :: 0 <= i < |s| ==> r[i] == f(s[i])
  {
    seq(|s|, i requires 0 <= i < |s| => f(s[i]))
  }

  function Flatten<T>(ss: seq<seq<T>>): seq<T> {
    if ss == [] then [] else Flatten(ss[..|ss| - 1]) + ss[|ss| - 1]
  }
}
