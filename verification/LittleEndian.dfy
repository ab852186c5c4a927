/** Fixed-width little-endian integers, as `ByteWriter` and `ByteReader` move them, and
    the big-endian keys of the block table (include/serialization.hpp). */
module LittleEndian {
  import opened Types
  import opened ByteOrder

  function Pow256(n: nat): (p: nat)
    ensures p > 0
  {
    if n == 0 then 1 else 256 * Pow256(n - 1)
  }

  /** The n low-order bytes of v, least significant first. */
  function LE(v: nat, n: nat): (b: Bytes)
    ensures |b| == n
  {
    if n == 0 then [] else [v % 256] + LE(v / 256, n - 1)
  }

  function FromLE(b: Bytes): (v: nat)
    ensures v < Pow256(|b|)
  {
    if b == [] then 0 else b[0] + 256 * FromLE(b[1..])
  }

  lemma {:induction false} DecodeEncode(v: nat, n: nat)
    requires v < Pow256(n)
    ensures FromLE(LE(v, n)) == v
  {
    if n > 0 {
      DecodeEncode(v / 256, n - 1);
      assert LE(v, n)[1..] == LE(v / 256, n - 1);
    }
  }

  lemma {:induction false} EncodeDecode(b: Bytes)
    ensures LE(FromLE(b), |b|) == b
  {
    if b != [] {
      EncodeDecode(b[1..]);
      assert b == [b[0]] + b[1..];
    }
  }

  lemma {:induction false} FromLEAppend(b: Bytes, x: Byte)
    ensures FromLE(b + [x]) == FromLE(b) + Pow256(|b|) * x
  {
    if b == [] {
      assert [] + [x] == [x];
      assert FromLE([x][1..]) == 0;
    } else {
      FromLEAppend(b[1..], x);
      assert (b + [x])[1..] == b[1..] + [x];
      var p := Pow256(|b| - 1);
      assert 256 * (p * x) == (256 * p) * x;
    }
  }

  lemma PowersOf256()
    ensures Pow256(4) == TWO_32 && Pow256(8) == TWO_64
  {
    assert Pow256(4) == 256 * (256 * (256 * (256 * Pow256(0))));
    assert Pow256(8) == 256 * (256 * (256 * (256 * Pow256(4))));
  }

  // Named widths: a literal would make the solver unroll `LE`.
  const U32_BYTES: nat := 4
  const U64_BYTES: nat := 8
  const WIDE_BYTES: nat := 64

  function EncU32(v: U32): (b: Bytes)
    ensures |b| == 4
  {
    LE(v, U32_BYTES)
  }

  function EncU64(v: U64): (b: Bytes)
    ensures |b| == 8
  {
    LE(v, U64_BYTES)
  }

  /** Two encodings in front of anything are equal only for equal values and equal rests. */
  lemma LEInjective(v: nat, w: nat, n: nat, x: Bytes, y: Bytes)
    requires v < Pow256(n) && w < Pow256(n)
    requires LE(v, n) + x == LE(w, n) + y
    ensures v == w && x == y
  {
    assert (LE(v, n) + x)[..n] == LE(v, n) && (LE(w, n) + y)[..n] == LE(w, n);
    assert (LE(v, n) + x)[n..] == x && (LE(w, n) + y)[n..] == y;
    DecodeEncode(v, n);
    DecodeEncode(w, n);
  }

  lemma U64Tells(a: U64, b: U64)
    requires EncU64(a) == EncU64(b)
    ensures a == b
  {
    PowersOf256();
    DecodeEncode(a, U64_BYTES);
    DecodeEncode(b, U64_BYTES);
  }

  // ---- Big-endian keys: their byte order is the numeric order ----

  function BE(v: nat, n: nat): (b: Bytes)
    requires v < Pow256(n)
    ensures |b| == n
  {
    if n == 0 then [] else
    var p := Pow256(n - 1);
    DivMod(v, v, p);
    [v / p] + BE(v % p, n - 1)
  }

  /** Heights compare as numbers exactly when their LMDB keys compare as bytes, so a cursor
      visits blocks by height and equal keys mean equal heights. */
  lemma {:induction false} BigEndianOrder(v: nat, w: nat, n: nat)
    requires v < Pow256(n) && w < Pow256(n)
    ensures Less(BE(v, n), BE(w, n)) <==> v < w
    ensures BE(v, n) == BE(w, n) <==> v == w
  {
    if n > 0 {
      BigEndianUnfold(v, n);
      BigEndianUnfold(w, n);
      var p := Pow256(n - 1);
      var q, r, x, y := v / p, v % p, w / p, w % p;
      DivMod(v, w, p);
      DivMod(w, v, p);
      BigEndianOrder(r, y, n - 1);
      LessCons(q, x, BE(r, n - 1), BE(y, n - 1));
    }
  }

  lemma BigEndianUnfold(v: nat, n: nat)
    requires 0 < n && v < Pow256(n)
    ensures var p := Pow256(n - 1);
      0 <= v / p < 256 && 0 <= v % p < p && BE(v, n) == [v / p] + BE(v % p, n - 1)
  {
    DivMod(v, v, Pow256(n - 1));
  }

  lemma LessCons(x: Byte, y: Byte, a: Bytes, b: Bytes)
    ensures Less([x] + a, [y] + b) <==> x < y || (x == y && Less(a, b))
    ensures [x] + a == [y] + b <==> x == y && a == b
  {
    assert ([x] + a)[1..] == a && ([y] + b)[1..] == b;
    assert ([x] + a)[0] == x && ([y] + b)[0] == y;
  }

  lemma DivMod(v: nat, w: nat, p: nat)
    requires p > 0
    ensures 0 <= v % p < p && v / p >= 0
    ensures v < 256 * p ==> v / p < 256
    ensures v < w <==> v / p < w / p || (v / p == w / p && v % p < w % p)
  {
    Euclid(v, p);
    Euclid(w, p);
    QuotientOrder(p, v / p, v % p, w / p, w % p);
    QuotientOrder(p, v / p, v % p, 256, 0);
  }

  lemma Euclid(v: nat, p: nat)
    requires p > 0
    ensures v == p * (v / p) + v % p && 0 <= v % p < p && 0 <= v / p
  {
  }

  lemma QuotientOrder(p: nat, q: int, x: int, r: int, y: int)
    requires 0 <= x < p && 0 <= y < p
    ensures p * q + x < p * r + y <==> q < r || (q == r && x < y)
  {
    if q < r {
      MulSucc(p, q, r);
    } else if r < q {
      MulSucc(p, r, q);
    }
  }

  lemma QuotientOf(v: nat, p: nat, q: nat, r: nat)
    requires p > 0 && v == p * q + r && r < p
    ensures v / p == q
  {
    Euclid(v, p);
    QuotientOrder(p, v / p, v % p, q, r);
    QuotientOrder(p, q, r, v / p, v % p);
  }

  lemma MulSucc(p: nat, x: int, y: int)
    requires x < y
    ensures p * x + p <= p * y
  {
    var d := y - x - 1;
    assert p * y == p * (x + 1 + d) == p * x + p + p * d;
  }
}
