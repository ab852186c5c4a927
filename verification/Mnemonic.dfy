/** BIP-39 phrases of 24 words: the window-shift encoder and the bit-setting decoders
    (src/mnemonic.cpp:25-133; BIP-39, section "Generating the mnemonic"). */
module Mnemonic {
  import opened Types
  import opened Bits

  const STREAM: nat := 33
  const WORDS: nat := 24

  /** The bits of word indices of 11 bits each. */
  function IndexBits(idx: seq<nat>): (b: seq<Bit>)
    ensures |b| == 11 * |idx|
  {
    if idx == [] then [] else IndexBits(idx[..|idx| - 1]) + BitsOf(idx[|idx| - 1], 11)
  }

  // ---- The encoder ----

  /** The 11 bits at 11 i, out of a window of three bytes; past the end the third is 0. */
  function Window(s: Bytes, i: nat): nat
    requires |s| == STREAM && i < WORDS
  {
    var at, rem := (11 * i) / 8, (11 * i) % 8;
    var third: nat := if at + 2 < STREAM then s[at + 2] else 0;
    var val := 65536 * s[at] + 256 * s[at + 1] + third;
    (val / Pow2(13 - rem)) % 2048
  }

  function Windows(s: Bytes, n: nat): (r: seq<nat>)
    requires |s| == STREAM && n <= WORDS
    ensures |r| == n && forall i :: 0 <= i < n ==> r[i] == Window(s, i)
  {
    seq(n, i requires 0 <= i < n => Window(s, i))
  }

  lemma ThreeBytes(a: Byte, b: Byte, c: Byte)
    ensures Val(StreamBits([a, b, c])) == 65536 * a + 256 * b + c
    ensures |StreamBits([a, b, c])| == 24
  {
    Pow2Of8();
    assert [a, b, c][..2] == [a, b] && [a, b][..1] == [a] && [a][..0] == [];
    assert StreamBits([a]) == BitsOf(a, 8);
    ValOfBits(a, 8);
    ValOfBits(b, 8);
    ValOfBits(c, 8);
    ValConcat(StreamBits([a]), BitsOf(b, 8));
    ValConcat(StreamBits([a, b]), BitsOf(c, 8));
  }

  /** Bits of a slice of bytes. */
  lemma SliceBits(s: Bytes, i: nat, n: nat, from: nat, len: nat)
    requires i + n <= |s| && from == 8 * i && len == 8 * n
    ensures StreamBits(s)[from..from + len] == StreamBits(s[i..i + n])
  {
    var j := i + n;
    ThreeSlices(s, i, j);
    StreamBitsConcat(s[..i] + s[i..j], s[j..]);
    StreamBitsConcat(s[..i], s[i..j]);
    hide StreamBits;
    MiddleIs(StreamBits(s), StreamBits(s[..i]), StreamBits(s[i..j]), StreamBits(s[j..]), from, len);
  }

  lemma FieldBounds(i: nat)
    requires i < WORDS
    ensures var at, rem := (11 * i) / 8, (11 * i) % 8; at + 2 <= STREAM && 8 * at + rem == 11 * i && rem < 8
  {
  }

  /** An 11-bit field in three bytes of a stream. */
  lemma ThreeByteField(t: Bytes, at: nat, rem: nat, from: nat)
    requires at + 3 <= |t| && rem < 8 && from == 8 * at
    ensures ((65536 * t[at] + 256 * t[at + 1] + t[at + 2]) / Pow2(13 - rem)) % 2048
      == Val(StreamBits(t)[from + rem..from + (rem + 11)])
  {
    var window := t[at..at + 3];
    assert window == [t[at], t[at + 1], t[at + 2]];
    ThreeBytes(t[at], t[at + 1], t[at + 2]);
    hide StreamBits, Val, Pow2;
    Field(StreamBits(window), rem);
    SliceBits(t, at, 3, from, 24);
    SliceOfSlice(StreamBits(t), from, from + 24, rem, rem + 11);
  }

  /** The window-shift extraction gives the value of bits 11 i .. 11 i + 11. */
  lemma WindowIsSlice(s: Bytes, i: nat)
    requires |s| == STREAM && i < WORDS
    ensures Window(s, i) == Val(StreamBits(s)[11 * i..11 * i + 11])
  {
    var padded: Bytes := s + [0];
    FieldBounds(i);
    ThreeByteField(padded, (11 * i) / 8, (11 * i) % 8, 8 * ((11 * i) / 8));
    StreamBitsConcat(s, [0]);
    hide StreamBits, Val, Pow2;
    SliceOfPrefix(StreamBits(s), StreamBits([0]), 11 * i, 11 * i + 11);
  }

  /** The indices of a stream spell its bits. */
  lemma {:induction false} WindowsSpell(s: Bytes, n: nat)
    requires |s| == STREAM && n <= WORDS
    ensures IndexBits(Windows(s, n)) == StreamBits(s)[..11 * n]
  {
    hide Window, StreamBits, Val, BitsOf;
    if n > 0 {
      var bits, w := StreamBits(s), Windows(s, n);
      WindowsSpell(s, n - 1);
      WindowIsSlice(s, n - 1);
      assert w[..n - 1] == Windows(s, n - 1);
      BitsOfVal(bits[11 * (n - 1)..11 * n]);
      SplitPrefix(bits, 11 * (n - 1), 11 * n);
    }
  }

  // ---- The decoder ----

  /** `x |= 1 << (7 - k)`. */
  function SetBit(x: Byte, k: nat): (r: Byte)
    requires k < 8
  {
    SetFits(x, k);
    if (x / Pow2(7 - k)) % 2 == 1 then x else x + Pow2(7 - k)
  }

  lemma SetFits(x: Byte, k: nat)
    requires k < 8
    ensures (x / Pow2(7 - k)) % 2 == 1 || x + Pow2(7 - k) < 256
    ensures var r := if (x / Pow2(7 - k)) % 2 == 1 then x else x + Pow2(7 - k); BitsOf(r, 8) == BitsOf(x, 8)[k := 1]
  {
    var b := BitsOf(x, 8);
    Pow2Of8();
    ValOfBits(x, 8);
    BitAt(b, k);
    SetAdds(b, k);
    BitsOfVal(b[k := 1]);
  }

  lemma SetBitBits(x: Byte, k: nat)
    requires k < 8
    ensures BitsOf(SetBit(x, k), 8) == BitsOf(x, 8)[k := 1]
  {
    SetFits(x, k);
  }

  /** Setting a bit of a byte sets that bit of the stream. */
  lemma SetInByte(s: Bytes, i: nat, k: nat, from: nat)
    requires i < |s| && k < 8 && from == 8 * i
    ensures StreamBits(s[i := SetBit(s[i], k)]) == StreamBits(s)[from + k := 1]
  {
    hide StreamBits, BitsOf, SetBit, Pow2, Val;
    SetBitBits(s[i], k);
    ByteBits(s, i, SetBit(s[i], k), from);
    Splice(StreamBits(s), from, from + 8, k, 1);
  }

  lemma SetInStream(s: Bytes, t: nat)
    requires t < 8 * |s|
    ensures t / 8 < |s| && StreamBits(s[t / 8 := SetBit(s[t / 8], t % 8)]) == StreamBits(s)[t := 1]
  {
    SetInByte(s, t / 8, t % 8, 8 * (t / 8));
    assert 8 * (t / 8) + t % 8 == t;
  }

  predicate Indices(idx: seq<nat>) {
    |idx| == WORDS && forall i :: 0 <= i < WORDS ==> idx[i] < 2048
  }

  lemma {:induction false} ZeroStream(n: nat)
    ensures StreamBits(Zeros(n)) == seq<Bit>(8 * n, (i: nat) => 0)
  {
    if n > 0 {
      ZeroStream(n - 1);
      assert Zeros(n)[..n - 1] == Zeros(n - 1);
      ZeroBits(8);
    }
  }

  lemma {:induction false} ZeroBits(n: nat)
    ensures BitsOf(0, n) == seq<Bit>(n, (i: nat) => 0)
  {
    if n > 0 { ZeroBits(n - 1); }
  }

  /** The bits spelled so far, then zeros. */
  ghost predicate Spelled(a: Bytes, bits: seq<Bit>, n: nat) {
    |a| == STREAM && |bits| == 264 && n <= 264
    && StreamBits(a)[..n] == bits[..n] && forall t :: n <= t < 264 ==> StreamBits(a)[t] == 0
  }

  /** One bit of the stream: set if it is 1, left alone if it is 0. */
  lemma SpellBit(a: Bytes, bits: seq<Bit>, t: nat)
    requires Spelled(a, bits, t) && t < 264
    ensures bits[t] == 0 ==> Spelled(a, bits, t + 1)
    ensures bits[t] == 1 ==> Spelled(a[t / 8 := SetBit(a[t / 8], t % 8)], bits, t + 1)
  {
    SetInStream(a, t);
    assert bits[..t + 1] == bits[..t] + [bits[t]];
    assert StreamBits(a)[..t + 1] == StreamBits(a)[..t] + [StreamBits(a)[t]];
    var marked := StreamBits(a)[t := 1];
    assert marked[..t + 1] == StreamBits(a)[..t] + [1];
  }

  lemma {:induction false} IndexBitAt(idx: seq<nat>, i: nat, b: nat)
    requires i < |idx| && b < 11 && idx[i] < 2048
    ensures IndexBits(idx)[11 * i + b] == (idx[i] / Pow2(10 - b)) % 2
    decreases |idx|
  {
    var n := |idx| - 1;
    if i < n {
      IndexBitAt(idx[..n], i, b);
    } else {
      var bits := BitsOf(idx[n], 11);
      Pow2Of11();
      ValOfBits(idx[n], 11);
      BitAt(bits, b);
    }
  }

  /** The decoding loops, in place on 33 zero bytes. */
  method SetBits(idx: seq<nat>, a: array<Byte>)
    requires Indices(idx) && a.Length == STREAM && a[..] == Zeros(STREAM)
    modifies a
    ensures StreamBits(a[..]) == IndexBits(idx)
  {
    ghost var bits := IndexBits(idx);
    ZeroStream(STREAM);
    for i := 0 to WORDS
      invariant Spelled(a[..], bits, 11 * i)
    {
      for b := 0 to 11
        invariant Spelled(a[..], bits, 11 * i + b)
      {
        var target := 11 * i + b;
        IndexBitAt(idx, i, b);
        SpellBit(a[..], bits, target);
        if (idx[i] / Pow2(10 - b)) % 2 == 1 {
          ghost var before := a[..];
          a[target / 8] := SetBit(a[target / 8], target % 8);
          assert a[..] == before[target / 8 := SetBit(before[target / 8], target % 8)];
        }
      }
    }
    assert StreamBits(a[..])[..264] == StreamBits(a[..]) && bits[..264] == bits;
  }

  /** A stream that spells given indices. */
  ghost predicate Decodes(idx: seq<nat>, s: Bytes) {
    |s| == STREAM && StreamBits(s) == IndexBits(idx)
  }

  method Decode(idx: seq<nat>) returns (s: Bytes)
    requires Indices(idx)
    ensures Decodes(idx, s)
  {
    var a := new Byte[STREAM](i => 0);
    assert a[..] == Zeros(STREAM);
    SetBits(idx, a);
    s := a[..];
  }

  lemma {:induction false} IndexBitsInjective(x: seq<nat>, y: seq<nat>)
    requires |x| == |y| && IndexBits(x) == IndexBits(y)
    requires forall i :: 0 <= i < |x| ==> x[i] < 2048 && y[i] < 2048
    ensures x == y
  {
    hide BitsOf, Val;
    if x != [] {
      var n := |x| - 1;
      EqualParts(IndexBits(x[..n]), BitsOf(x[n], 11), IndexBits(y[..n]), BitsOf(y[n], 11));
      IndexBitsInjective(x[..n], y[..n]);
      Pow2Of11();
      ValOfBits(x[n], 11);
      ValOfBits(y[n], 11);
      assert x == x[..n] + [x[n]] && y == y[..n] + [y[n]];
    }
  }

  /** Encoder and decoder are inverse: a stream decodes from its own 24 indices and from no
      other stream's; every index sequence is that of the stream it decodes to. */
  lemma EncodeDecode(s: Bytes, idx: seq<nat>)
    requires |s| == STREAM && Indices(idx)
    ensures Indices(Windows(s, WORDS)) && Decodes(Windows(s, WORDS), s)
    ensures Decodes(idx, s) <==> idx == Windows(s, WORDS)
  {
    WindowsSpell(s, WORDS);
    assert StreamBits(s)[..11 * WORDS] == StreamBits(s);
    if Decodes(idx, s) { IndexBitsInjective(idx, Windows(s, WORDS)); }
  }

  lemma DecodesOnce(idx: seq<nat>, s: Bytes, t: Bytes)
    requires Decodes(idx, s) && Decodes(idx, t)
    ensures s == t
  {
    StreamBitsInjective(s, t);
  }

  /** The stream of given indices. */
  function DecodeOf(idx: seq<nat>): (s: Bytes)
    requires |idx| == WORDS
    ensures Decodes(idx, s)
  {
    BitsOfBytes(IndexBits(idx));
    BytesOf(IndexBits(idx))
  }

  // ---- Phrases ----

  predicate IsSpace(c: Byte) { c == 32 || 9 <= c <= 13 }

  predicate IsWord(w: Text) { w != [] && forall i :: 0 <= i < |w| ==> !IsSpace(w[i]) }

  /** 2048 distinct words without blanks. */
  ghost predicate WordList(words: seq<Text>) {
    |words| == 2048 && NoDup(words) && forall i :: 0 <= i < |words| ==> IsWord(words[i])
  }

  const BLANK: Bytes := [32]

  function Join(ws: seq<Bytes>): Bytes {
    if ws == [] then [] else if |ws| == 1 then ws[0] else Join(ws[..|ws| - 1]) + BLANK + ws[|ws| - 1]
  }

  /** How many leading bytes are blank. */
  function Blanks(s: Bytes): (n: nat)
    ensures n <= |s| && (n < |s| ==> !IsSpace(s[n]))
  {
    if s == [] || !IsSpace(s[0]) then 0 else 1 + Blanks(s[1..])
  }

  /** How many leading bytes are not. */
  function WordLength(s: Bytes): (n: nat)
    ensures n <= |s| && (s != [] && !IsSpace(s[0]) ==> n > 0)
  {
    if s == [] || IsSpace(s[0]) then 0 else 1 + WordLength(s[1..])
  }

  /** `iss >> w` until it fails. */
  function Split(s: Bytes): seq<Bytes>
    decreases |s|
  {
    var t := s[Blanks(s)..];
    if t == [] then [] else
    var n := WordLength(t);
    [t[..n]] + Split(t[n..])
  }

  method SplitWords(phrase: Bytes) returns (words: seq<Bytes>)
    ensures words == Split(phrase)
  {
    hide IsSpace;
    words := [];
    var rest := phrase;
    while true
      invariant words + Split(rest) == Split(phrase)
      decreases |rest|
    {
      var t := rest[Blanks(rest)..];
      if t == [] { return; }
      var n := WordLength(t);
      assert (words + [t[..n]]) + Split(t[n..]) == words + ([t[..n]] + Split(t[n..]));
      words := words + [t[..n]];
      rest := t[n..];
    }
  }

  lemma {:induction false} LengthOfWord(w: Bytes, t: Bytes)
    requires forall i :: 0 <= i < |w| ==> !IsSpace(w[i])
    requires t == [] || IsSpace(t[0])
    ensures WordLength(w + t) == |w|
  {
    if w != [] {
      assert (w + t)[1..] == w[1..] + t;
      LengthOfWord(w[1..], t);
    } else {
      assert w + t == t;
    }
  }

  /** A word, and a blank or the end after it. */
  lemma SplitFirst(w: Text, t: Bytes)
    requires IsWord(w) && (t == [] || IsSpace(t[0]))
    ensures Split(w + t) == [w] + Split(t)
  {
    var s := w + t;
    assert s[0] == w[0] && Blanks(s) == 0 && s[0..] == s;
    LengthOfWord(w, t);
    assert s[..|w|] == w && s[|w|..] == t;
  }

  lemma SplitBlank(t: Bytes)
    ensures Split(BLANK + t) == Split(t)
  {
    assert (BLANK + t)[1..] == t;
    var n := Blanks(t);
    assert (BLANK + t)[1 + n..] == t[n..];
  }

  /** From the front: the first word, a blank, the rest. */
  lemma {:induction false} JoinFront(ws: seq<Bytes>)
    requires |ws| > 1
    ensures Join(ws) == ws[0] + (BLANK + Join(ws[1..]))
  {
    var n := |ws| - 1;
    if n == 1 {
      assert ws[..1][0] == ws[0] && ws[1..][0] == ws[1];
      assert Join(ws) == ws[0] + BLANK + ws[1] == ws[0] + (BLANK + ws[1]);
    } else {
      JoinFront(ws[..n]);
      assert ws[..n][1..] == ws[1..][..n - 1];
      var mid := Join(ws[1..][..n - 1]);
      assert (ws[0] + (BLANK + mid)) + BLANK + ws[n] == ws[0] + (BLANK + (mid + BLANK + ws[n]));
    }
  }

  lemma {:induction false} SplitJoin(ws: seq<Text>)
    requires forall i :: 0 <= i < |ws| ==> IsWord(ws[i])
    ensures Split(Join(ws)) == ws
  {
    if |ws| == 1 {
      SplitFirst(ws[0], []);
      assert ws[0] + [] == ws[0] && ws == [ws[0]] + [];
    } else if |ws| > 1 {
      JoinFront(ws);
      SplitJoin(ws[1..]);
      SplitFirst(ws[0], BLANK + Join(ws[1..]));
      SplitBlank(Join(ws[1..]));
      assert ws == [ws[0]] + ws[1..];
    }
  }

  // ---- Generating, validating, recovering ----

  /** The first byte of SHA-256. */
  type Sha = Bytes -> Byte

  function Pick(words: seq<Text>, idx: seq<nat>): (r: seq<Text>)
    requires |words| == 2048 && forall i :: 0 <= i < |idx| ==> idx[i] < 2048
    ensures |r| == |idx| && forall i :: 0 <= i < |r| ==> r[i] == words[idx[i]]
  {
    seq<Text>(|idx|, i requires 0 <= i < |idx| => words[idx[i]])
  }

  function Stream(sha: Sha, entropy: Key256): (s: Bytes)
    ensures |s| == STREAM && s[..32] == entropy && s[32] == sha(entropy)
  {
    entropy + [sha(entropy)]
  }

  function WindowsOf(sha: Sha, entropy: Key256): (idx: seq<nat>)
    ensures |idx| == WORDS && forall i :: 0 <= i < WORDS ==> idx[i] < 2048
  {
    Windows(Stream(sha, entropy), WORDS)
  }

  /** The phrase of 32 random bytes. */
  function Phrase(words: seq<Text>, sha: Sha, entropy: Key256): Bytes
    requires |words| == 2048
  {
    Join(Pick(words, WindowsOf(sha, entropy)))
  }

  method Generate24Words(words: seq<Text>, sha: Sha, entropy: Key256) returns (phrase: Bytes)
    requires |words| == 2048
    ensures phrase == Phrase(words, sha, entropy)
  {
    var stream := Stream(sha, entropy);
    ghost var picked := Pick(words, WindowsOf(sha, entropy));
    phrase := [];
    for i := 0 to WORDS
      invariant phrase == Join(picked[..i])
    {
      assert picked[..i + 1][..i] == picked[..i];
      if i > 0 { phrase := phrase + BLANK; }
      phrase := phrase + words[Window(stream, i)];
    }
    assert picked[..WORDS] == picked;
  }

  /** The index of a word in the list. */
  function IndexOf(words: seq<Text>, w: Bytes): (i: Option<nat>)
    ensures i.Some? ==> i.value < |words| && words[i.value] == w
    ensures i.None? ==> forall j :: 0 <= j < |words| ==> words[j] != w
  {
    if words == [] then None else
    if words[|words| - 1] == w then Some(|words| - 1) else IndexOf(words[..|words| - 1], w)
  }

  /** The indices of the words of a phrase, if there are 24 and all are known. */
  function IndicesOf(words: seq<Text>, ws: seq<Bytes>): (r: Option<seq<nat>>)
    ensures r.Some? ==> |r.value| == |ws| && forall i :: 0 <= i < |ws| ==> r.value[i] < |words| && words[r.value[i]] == ws[i]
  {
    if ws == [] then Some([]) else
    var n := |ws| - 1;
    var init, last := IndicesOf(words, ws[..n]), IndexOf(words, ws[n]);
    if init.None? || last.None? then None else Some(init.value + [last.value])
  }

  /** The stream a phrase of 24 known words spells. */
  function StreamOf(words: seq<Text>, phrase: Bytes): Option<Bytes> {
    var ws := Split(phrase);
    if |ws| != WORDS then None else
    match IndicesOf(words, ws) case None => None case Some(idx) => Some(DecodeOf(idx))
  }

  /** The entropy of a valid phrase: None is a refusal. */
  function Entropy(words: seq<Text>, sha: Sha, phrase: Bytes): Option<Key256> {
    match StreamOf(words, phrase) case None => None case Some(s) =>
      if sha(s[..32]) == s[32] then Some(s[..32]) else None
  }

  method LookUp(words: seq<Text>, ws: seq<Bytes>) returns (r: Option<seq<nat>>)
    requires NoDup(words)
    ensures r == IndicesOf(words, ws)
  {
    var idx: seq<nat> := [];
    for i := 0 to |ws|
      invariant IndicesOf(words, ws[..i]) == Some(idx)
    {
      assert ws[..i + 1][..i] == ws[..i];
      var at := IndexOf(words, ws[i]);
      if at.None? {
        Unknown(words, ws, i + 1);
        return None;
      }
      idx := idx + [at.value];
    }
    assert ws[..|ws|] == ws;
    return Some(idx);
  }

  lemma {:induction false} Unknown(words: seq<Text>, ws: seq<Bytes>, i: nat)
    requires i <= |ws| && IndicesOf(words, ws[..i]).None?
    ensures IndicesOf(words, ws).None?
    decreases |ws| - i
  {
    if i == |ws| {
      assert ws[..i] == ws;
    } else {
      assert ws[..i + 1][..i] == ws[..i];
      Unknown(words, ws, i + 1);
    }
  }

  /** `validate_mnemonic` and `mnemonic_to_entropy`: both rebuild the stream and compare its checksum. */
  method ToEntropy(words: seq<Text>, sha: Sha, phrase: Bytes) returns (e: Option<Key256>)
    requires WordList(words)
    ensures e == Entropy(words, sha, phrase)
  {
    var ws := SplitWords(phrase);
    if |ws| != WORDS { return None; }
    var idx := LookUp(words, ws);
    if idx.None? { return None; }
    var s := Decode(idx.value);
    DecodesOnce(idx.value, s, DecodeOf(idx.value));
    if sha(s[..32]) != s[32] { return None; }
    return Some(s[..32]);
  }

  /** A generated phrase validates and gives back its entropy. */
  lemma GeneratedRecovers(words: seq<Text>, sha: Sha, entropy: Key256)
    requires WordList(words)
    ensures Entropy(words, sha, Phrase(words, sha, entropy)) == Some(entropy)
  {
    hide Windows, Window, StreamBits, IndexBits;
    var idx, stream := WindowsOf(sha, entropy), Stream(sha, entropy);
    var picked := Pick(words, idx);
    SplitJoin(picked);
    PickFound(words, idx);
    EncodeDecode(stream, idx);
    DecodesOnce(idx, stream, DecodeOf(idx));
  }

  lemma IndexOfWord(words: seq<Text>, i: nat)
    requires NoDup(words) && i < |words|
    ensures IndexOf(words, words[i]) == Some(i)
  {
    var w := words[i];
    assert IndexOf(words, w).Some?;
  }

  lemma {:induction false} PickFound(words: seq<Text>, idx: seq<nat>)
    requires WordList(words) && forall i :: 0 <= i < |idx| ==> idx[i] < 2048
    ensures IndicesOf(words, Pick(words, idx)) == Some(idx)
  {
    if idx != [] {
      var n := |idx| - 1;
      PickFound(words, idx[..n]);
      IndexOfWord(words, idx[n]);
      assert Pick(words, idx)[..n] == Pick(words, idx[..n]);
      assert idx == idx[..n] + [idx[n]];
    }
  }

  /** Every phrase that is accepted has the words generated from its entropy, in their order:
      generating again gives the phrase up to blanks. */
  lemma AcceptedIsGenerated(words: seq<Text>, sha: Sha, phrase: Bytes)
    requires WordList(words)
    ensures match Entropy(words, sha, phrase) case None => true
      case Some(e) => Split(phrase) == Split(Phrase(words, sha, e))
  {
    hide Windows, Window, StreamBits, IndexBits;
    var found := Entropy(words, sha, phrase);
    if found.Some? {
      var ws, e := Split(phrase), found.value;
      var idx := IndicesOf(words, ws).value;
      var s := DecodeOf(idx);
      assert s == s[..32] + [s[32]] == Stream(sha, e);
      EncodeDecode(s, idx);
      assert Pick(words, idx) == ws;
      SplitJoin(Pick(words, idx));
    }
  }
}
