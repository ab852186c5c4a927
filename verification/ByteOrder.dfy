/** The two orders the node relies on: byte-wise lexicographic order (quorum keys,
    LMDB cursors) and the order of hexadecimal strings (fork choice). */
module ByteOrder {
  import opened Types

  /** std::lexicographical_compare, and `<` on std::string. */
  predicate Less(a: Bytes, b: Bytes) {
    b != [] && (a == [] || a[0] < b[0] || (a[0] == b[0] && Less(a[1..], b[1..])))
  }

  lemma {:induction false} LessTrans(a: Bytes, b: Bytes, c: Bytes)
    requires Less(a, b) && Less(b, c)
    ensures Less(a, c)
  {
    if a != [] && a[0] == b[0] == c[0] {
      LessTrans(a[1..], b[1..], c[1..]);
    }
  }

  lemma {:induction false} LessTotal(a: Bytes, b: Bytes)
    ensures Less(a, b) || a == b || Less(b, a)
    ensures !(Less(a, b) && Less(b, a))
    ensures Less(a, b) ==> a != b
  {
    if a != [] && b != [] && a[0] == b[0] {
      LessTotal(a[1..], b[1..]);
      assert a == [a[0]] + a[1..] && b == [b[0]] + b[1..];
    }
  }

  // ---- Hexadecimal text ----

  function HexDigit(d: Byte): Byte
    requires d < 16
  {
    if d < 10 then 48 + d else 87 + d
  }

  function ToHex(b: Bytes): (h: Bytes)
    ensures |h| == 2 * |b|
  {
    if b == [] then [] else [HexDigit(b[0] / 16), HexDigit(b[0] % 16)] + ToHex(b[1..])
  }

  lemma {:induction false} ToHexAppend(a: Bytes, x: Byte)
    ensures ToHex(a + [x]) == ToHex(a) + [HexDigit(x / 16), HexDigit(x % 16)]
  {
    if a == [] {
      assert [] + [x] == [x];
    } else {
      ToHexAppend(a[1..], x);
      assert (a + [x])[1..] == a[1..] + [x];
    }
  }

  /** The stream-based loop of `to_hex`. */
  method ToHexLoop(data: Bytes) returns (oss: Bytes)
    ensures oss == ToHex(data)
  {
    oss := [];
    for i := 0 to |data|
      invariant oss == ToHex(data[..i])
    {
      ToHexAppend(data[..i], data[i]);
      assert data[..i + 1] == data[..i] + [data[i]];
      oss := oss + [HexDigit(data[i] / 16), HexDigit(data[i] % 16)];
    }
    assert data[..|data|] == data;
  }

  /** Comparing the hexadecimal strings of two byte strings is comparing the bytes. */
  lemma {:induction false} HexOrder(a: Bytes, b: Bytes)
    ensures Less(ToHex(a), ToHex(b)) <==> Less(a, b)
    ensures ToHex(a) == ToHex(b) <==> a == b
  {
    if a != [] && b != [] {
      HexOrder(a[1..], b[1..]);
      var ha, hb := ToHex(a), ToHex(b);
      assert ha[1..][1..] == ToHex(a[1..]) && hb[1..][1..] == ToHex(b[1..]);
      assert ha == [ha[0], ha[1]] + ToHex(a[1..]) && hb == [hb[0], hb[1]] + ToHex(b[1..]);
      assert a == [a[0]] + a[1..] && b == [b[0]] + b[1..];
      if a[0] == b[0] {
        assert Less(ha, hb) <==> Less(ha[1..], hb[1..]);
      } else {
        assert ha[0] != hb[0] || ha[1] != hb[1];
      }
    }
  }

  // ---- Cursor order: the keys of a table, smallest first ----

  ghost predicate IsLeast(m: Key256, s: set<Key256>) {
    m in s && forall k :: k in s ==> k == m || Less(m, k)
  }

  lemma {:induction false} LeastExists(s: set<Key256>)
    requires s != {}
    ensures exists m: Key256 :: IsLeast(m, s)
    decreases |s|
  {
    var x :| x in s;
    var rest := s - {x};
    if rest == {} {
      assert s == {x};
      assert IsLeast(x, s);
    } else {
      LeastExists(rest);
      var m: Key256 :| IsLeast(m, rest);
      LessTotal(x, m);
      if Less(x, m) {
        forall k | k in s ensures k == x || Less(x, k) {
          if k != x && k != m { assert k in rest; LessTrans(x, m, k); }
        }
        assert IsLeast(x, s);
      } else {
        assert IsLeast(m, s);
      }
    }
  }

  lemma LeastUnique(a: Key256, b: Key256, s: set<Key256>)
    requires IsLeast(a, s) && IsLeast(b, s)
    ensures a == b
  {
    LessTotal(a, b);
  }

  ghost function Least(s: set<Key256>): (m: Key256)
    requires s != {}
    ensures IsLeast(m, s)
  {
    LeastExists(s);
    var m: Key256 :| IsLeast(m, s);
    m
  }

  /** The order in which an LMDB cursor visits the keys of a table. */
  ghost function SortedKeys(s: set<Key256>): (r: seq<Key256>)
    ensures forall k :: k in r <==> k in s
    ensures |r| == |s|
    decreases |s|
  {
    if s == {} then [] else var m := Least(s); [m] + SortedKeys(s - {m})
  }

  lemma {:induction false} SortedKeysNoDup(s: set<Key256>)
    ensures NoDup(SortedKeys(s))
    decreases |s|
  {
    if s != {} {
      var m := Least(s);
      SortedKeysNoDup(s - {m});
      var t := SortedKeys(s - {m});
      forall i, j | 0 <= i < j < |s| ensures SortedKeys(s)[i] != SortedKeys(s)[j] {
        assert SortedKeys(s)[j] == t[j - 1];
        assert t[j - 1] in t;
      }
    }
  }

  lemma {:induction false} LessAfter(a: Bytes, x: Bytes, y: Bytes)
    ensures Less(a + x, a + y) <==> Less(x, y)
  {
    if a == [] {
      assert a + x == x && a + y == y;
    } else {
      LessAfter(a[1..], x, y);
      assert (a + x)[1..] == a[1..] + x && (a + y)[1..] == a[1..] + y;
    }
  }

  lemma {:induction false} LessBefore(a: Bytes, b: Bytes, x: Bytes)
    requires |a| == |b| && Less(a, b)
    ensures Less(a + x, b + x)
  {
    if a[0] == b[0] {
      LessBefore(a[1..], b[1..], x);
    }
    assert (a + x)[1..] == a[1..] + x && (b + x)[1..] == b[1..] + x;
  }
}
