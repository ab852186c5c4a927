/** Bit strings, most significant bit first. */
module Bits {
  import opened Types
  import opened LittleEndian
  import opened Sequences

  type Bit = b: int | 0 <= b < 2

  function Pow2(n: nat): (p: nat)
    ensures p > 0
  {
    if n == 0 then 1 else 2 * Pow2(n - 1)
  }

  /** The n low-order bits of v. */
  function BitsOf(v: nat, n: nat): (b: seq<Bit>)
    ensures |b| == n
  {
    if n == 0 then [] else BitsOf(v / 2, n - 1) + [v % 2]
  }

  function Val(b: seq<Bit>): (v: nat)
    ensures v < Pow2(|b|)
  {
    if b == [] then 0 else 2 * Val(b[..|b| - 1]) + b[|b| - 1]
  }

  lemma {:induction false} ValOfBits(v: nat, n: nat)
    requires v < Pow2(n)
    ensures Val(BitsOf(v, n)) == v
  {
    if n > 0 {
      ValOfBits(v / 2, n - 1);
      assert BitsOf(v, n)[..n - 1] == BitsOf(v / 2, n - 1);
    }
  }

  lemma {:induction false} BitsOfVal(b: seq<Bit>)
    ensures BitsOf(Val(b), |b|) == b
  {
    if b != [] {
      BitsOfVal(b[..|b| - 1]);
      assert b == b[..|b| - 1] + [b[|b| - 1]];
    }
  }

  lemma Pow2Add(m: nat, n: nat)
    ensures Pow2(m + n) == Pow2(m) * Pow2(n)
    decreases n
  {
    if n > 0 {
      Pow2Add(m, n - 1);
      assert Pow2(m) * (2 * Pow2(n - 1)) == 2 * (Pow2(m) * Pow2(n - 1));
    }
  }

  lemma {:induction false} ValConcat(a: seq<Bit>, b: seq<Bit>)
    ensures Val(a + b) == Val(a) * Pow2(|b|) + Val(b)
  {
    if b == [] {
      assert a + b == a;
    } else {
      var n := |b| - 1;
      ValConcat(a, b[..n]);
      assert (a + b)[..|a + b| - 1] == a + b[..n];
      Doubled(Val(a), Pow2(n), Val(b[..n]), b[n]);
    }
  }

  lemma Doubled(x: nat, p: nat, y: nat, z: nat)
    ensures 2 * (x * p + y) + z == x * (2 * p) + (2 * y + z)
  {
  }

  lemma QuotientRemainder(q: nat, p: nat, r: nat)
    requires r < p
    ensures (q * p + r) / p == q && (q * p + r) % p == r
  {
    var v := q * p + r;
    assert q * p == p * q;
    QuotientOf(v, p, q, r);
    Euclid(v, p);
  }

  /** A shift by the bits after the field and a mask of its width select the field. */
  lemma Select(pre: seq<Bit>, mid: seq<Bit>, post: seq<Bit>)
    ensures (Val(pre + mid + post) / Pow2(|post|)) % Pow2(|mid|) == Val(mid)
  {
    ValConcat(pre + mid, post);
    ValConcat(pre, mid);
    QuotientRemainder(Val(pre + mid), Pow2(|post|), Val(post));
    QuotientRemainder(Val(pre), Pow2(|mid|), Val(mid));
  }

  /** The bit at position k. */
  lemma BitAt(b: seq<Bit>, k: nat)
    requires k < |b|
    ensures (Val(b) / Pow2(|b| - 1 - k)) % 2 == b[k]
  {
    Select(b[..k], [b[k]], b[k + 1..]);
    assert b == b[..k] + [b[k]] + b[k + 1..];
    assert [b[k]][..0] == [] && Val([b[k]]) == b[k] && Pow2(1) == 2;
  }

  /** Setting a clear bit adds its weight. */
  lemma {:induction false} SetAdds(b: seq<Bit>, k: nat)
    requires k < |b|
    ensures Val(b[k := 1]) == Val(b) + (if b[k] == 1 then 0 else Pow2(|b| - 1 - k))
  {
    var n := |b| - 1;
    if k < n {
      SetAdds(b[..n], k);
      assert b[k := 1][..n] == b[..n][k := 1];
    } else {
      assert b[k := 1][..n] == b[..n];
    }
  }

  /** An 11-bit field of a 24-bit window. */
  lemma Field(w: seq<Bit>, rem: nat)
    requires |w| == 24 && rem <= 13
    ensures (Val(w) / Pow2(13 - rem)) % 2048 == Val(w[rem..rem + 11])
  {
    hide Val, Pow2;
    Select(w[..rem], w[rem..rem + 11], w[rem + 11..]);
    assert w == w[..rem] + w[rem..rem + 11] + w[rem + 11..];
    Pow2Of11();
  }

  lemma Pow2Of11()
    ensures Pow2(11) == 2048
  {
    Pow2Of8();
    Pow2Add(8, 3);
    assert Pow2(3) == 8;
  }

  lemma SliceOfSlice<T>(s: seq<T>, a: nat, b: nat, c: nat, d: nat)
    requires a <= b <= |s| && c <= d <= b - a
    ensures s[a..b][c..d] == s[a + c..a + d]
  {
    var t := s[a..b];
    assert forall k :: 0 <= k < d - c ==> t[c..d][k] == t[c + k] == s[a + (c + k)];
  }

  lemma Splice<T>(s: seq<T>, a: nat, b: nat, k: nat, x: T)
    requires a + k < b <= |s|
    ensures s[..a] + s[a..b][k := x] + s[b..] == s[a + k := x]
  {
    var t := s[a..b][k := x];
    assert forall i :: 0 <= i < |t| ==> t[i] == if i == k then x else s[a + i];
  }

  lemma EqualParts<T>(a: seq<T>, x: seq<T>, b: seq<T>, y: seq<T>)
    requires |a| == |b| && a + x == b + y
    ensures a == b && x == y
  {
    assert (a + x)[..|a|] == a && (b + y)[..|b|] == b;
    assert (a + x)[|a|..] == x && (b + y)[|b|..] == y;
  }

  lemma SplitPrefix<T>(s: seq<T>, a: nat, b: nat)
    requires a <= b <= |s|
    ensures s[..b] == s[..a] + s[a..b]
  {
  }

  lemma ThreeSlices<T>(s: seq<T>, i: nat, j: nat)
    requires i <= j <= |s|
    ensures s == s[..i] + s[i..j] + s[j..]
  {
  }

  lemma MiddleIs<T>(s: seq<T>, a: seq<T>, b: seq<T>, c: seq<T>, from: nat, len: nat)
    requires s == a + b + c && |a| == from && |b| == len
    ensures s[from..from + len] == b
  {
  }

  lemma SliceOfPrefix<T>(s: seq<T>, t: seq<T>, a: nat, b: nat)
    requires a <= b <= |s|
    ensures (s + t)[a..b] == s[a..b]
  {
  }

  // ---- Bytes as bits ----

  function StreamBits(s: Bytes): (b: seq<Bit>)
    ensures |b| == 8 * |s|
  {
    if s == [] then [] else StreamBits(s[..|s| - 1]) + BitsOf(s[|s| - 1], 8)
  }

  lemma StreamPush(s: Bytes, x: Byte)
    ensures StreamBits(s + [x]) == StreamBits(s) + BitsOf(x, 8)
  {
    PushInit(s, x);
  }

  lemma ByteInjective(x: Byte, y: Byte)
    requires BitsOf(x, 8) == BitsOf(y, 8)
    ensures x == y
  {
    Pow2Of8();
    ValOfBits(x, 8);
    ValOfBits(y, 8);
  }

  lemma {:induction false} StreamBitsInjective(s: Bytes, t: Bytes)
    requires |s| == |t| && StreamBits(s) == StreamBits(t)
    ensures s == t
  {
    hide StreamBits, BitsOf;
    if s != [] {
      var n := |s| - 1;
      LastSplit(s);
      LastSplit(t);
      StreamPush(s[..n], s[n]);
      StreamPush(t[..n], t[n]);
      EqualParts(StreamBits(s[..n]), BitsOf(s[n], 8), StreamBits(t[..n]), BitsOf(t[n], 8));
      StreamBitsInjective(s[..n], t[..n]);
      ByteInjective(s[n], t[n]);
    }
  }

  lemma Pow2Of8()
    ensures Pow2(8) == 256
  {
    assert Pow2(4) == 16;
    Pow2Add(4, 4);
  }

  lemma {:induction false} StreamBitsConcat(s: Bytes, t: Bytes)
    ensures StreamBits(s + t) == StreamBits(s) + StreamBits(t)
  {
    if t == [] {
      assert s + t == s;
    } else {
      hide StreamBits, BitsOf;
      var n := |t| - 1;
      var last := BitsOf(t[n], 8);
      StreamBitsConcat(s, t[..n]);
      LastSplit(t);
      StreamPush(s + t[..n], t[n]);
      StreamPush(t[..n], t[n]);
      assert s + t == (s + t[..n]) + [t[n]];
      assert (StreamBits(s) + StreamBits(t[..n])) + last == StreamBits(s) + (StreamBits(t[..n]) + last);
    }
  }

  /** Changing one byte changes its eight bits. */
  lemma ByteBits(s: Bytes, i: nat, x: Byte, from: nat)
    requires i < |s| && from == 8 * i
    ensures StreamBits(s)[from..from + 8] == BitsOf(s[i], 8)
    ensures StreamBits(s[i := x]) == StreamBits(s)[..from] + BitsOf(x, 8) + StreamBits(s)[from + 8..]
  {
    ThreeParts(s, i, s[i]);
    assert s[i := s[i]] == s;
    ThreeParts(s, i, x);
    Middle(StreamBits(s[..i]), BitsOf(s[i], 8), StreamBits(s[i + 1..]));
  }

  lemma Middle<T>(a: seq<T>, b: seq<T>, c: seq<T>)
    ensures (a + b + c)[..|a|] == a && (a + b + c)[|a|..|a| + |b|] == b && (a + b + c)[|a| + |b|..] == c
  {
  }

  lemma ThreeParts(s: Bytes, i: nat, x: Byte)
    requires i < |s|
    ensures StreamBits(s[i := x]) == StreamBits(s[..i]) + BitsOf(x, 8) + StreamBits(s[i + 1..])
  {
    assert s[i := x] == s[..i] + [x] + s[i + 1..];
    StreamBitsConcat(s[..i] + [x], s[i + 1..]);
    StreamBitsConcat(s[..i], [x]);
    assert [x][..0] == [];
  }

  /** The bytes of a bit string. */
  function BytesOf(b: seq<Bit>): (s: Bytes)
    requires |b| % 8 == 0
    ensures 8 * |s| == |b|
  {
    if b == [] then [] else
    Pow2Of8();
    BytesOf(b[..|b| - 8]) + [Val(b[|b| - 8..])]
  }

  lemma BytesPush(b: seq<Bit>)
    requires |b| % 8 == 0 && b != []
    ensures |b| >= 8 && Val(b[|b| - 8..]) < 256 && BytesOf(b) == BytesOf(b[..|b| - 8]) + [Val(b[|b| - 8..])]
  {
    Pow2Of8();
  }

  lemma {:induction false} BitsOfBytes(b: seq<Bit>)
    requires |b| % 8 == 0
    ensures StreamBits(BytesOf(b)) == b
  {
    if b != [] {
      hide StreamBits, BytesOf, BitsOf, Val;
      var n := |b| - 8;
      BytesPush(b);
      BitsOfBytes(b[..n]);
      BitsOfVal(b[n..]);
      StreamPush(BytesOf(b[..n]), Val(b[n..]));
      Halves(b, n);
    }
  }

  lemma Halves(b: seq<Bit>, n: nat)
    requires n <= |b|
    ensures b[..n] + b[n..] == b
  {
  }
}
