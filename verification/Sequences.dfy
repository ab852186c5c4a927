/** Facts about sequences without repetition, used for any element type. */
module Sequences {
  import opened Types

  lemma NoDupConcat<T(!new)>(a: seq<T>, b: seq<T>)
    ensures NoDup(a + b) <==> NoDup(a) && NoDup(b) && Elements(a) !! Elements(b)
  {
    var c := a + b;
    if NoDup(c) {
      forall i, j | 0 <= i < j < |a| ensures a[i] != a[j] { assert c[i] != c[j]; }
      forall i, j | 0 <= i < j < |b| ensures b[i] != b[j] { assert c[|a| + i] != c[|a| + j]; }
      forall i, j | 0 <= i < |a| && 0 <= j < |b| ensures a[i] != b[j] { assert c[i] != c[|a| + j]; }
    } else {
      var i, j :| 0 <= i < j < |c| && c[i] == c[j];
      if j >= |a| && i < |a| { assert a[i] in Elements(a) && b[j - |a|] in Elements(b); }
      else if i >= |a| { assert b[i - |a|] == b[j - |a|]; }
    }
  }

  lemma ElementsConcat<T>(a: seq<T>, b: seq<T>)
    ensures Elements(a + b) == Elements(a) + Elements(b)
  {
  }

  lemma {:induction false} OnceEach<T(!new)>(s: seq<T>)
    requires NoDup(s)
    ensures multiset(s) == multiset(Elements(s))
  {
    if s == [] {
    } else {
      var n := |s| - 1;
      assert s == s[..n] + [s[n]];
      NoDupConcat(s[..n], [s[n]]);
      assert s[n] in [s[n]] && s[n] !in s[..n];
      OnceEach(s[..n]);
      assert Elements(s) == Elements(s[..n]) + {s[n]};
    }
  }

  /** Two enumerations of the same set are permutations of each other. */
  lemma SameElements<T(!new)>(a: seq<T>, b: seq<T>)
    requires NoDup(a) && NoDup(b) && Elements(a) == Elements(b)
    ensures multiset(a) == multiset(b)
  {
    OnceEach(a);
    OnceEach(b);
  }

  lemma SameMembers<T(!new)>(a: seq<T>, b: seq<T>, x: T)
    requires multiset(a) == multiset(b)
    ensures x in a <==> x in b
  {
    assert x in a <==> x in multiset(a);
    assert x in b <==> x in multiset(b);
  }

  lemma LastSplit<T>(s: seq<T>)
    requires s != []
    ensures s == s[..|s| - 1] + [s[|s| - 1]]
  {
  }

  lemma AppendInit<T>(a: seq<T>, b: seq<T>)
    requires b != []
    ensures a + b == (a + b[..|b| - 1]) + [b[|b| - 1]]
  {
  }

  lemma PushInit<T>(s: seq<T>, x: T)
    ensures (s + [x])[..|s|] == s && (s + [x])[|s|] == x
  {
  }

  /** A sequence has as many elements as positions exactly when nothing repeats. */
  lemma {:induction false} CardinalityCounts<T(!new)>(s: seq<T>)
    ensures |Elements(s)| <= |s|
    ensures |Elements(s)| == |s| <==> NoDup(s)
  {
    if s != [] {
      var n := |s| - 1;
      LastSplit(s);
      CardinalityCounts(s[..n]);
      assert Elements(s) == Elements(s[..n]) + {s[n]};
      NoDupConcat(s[..n], [s[n]]);
      assert Elements([s[n]]) == {s[n]};
    }
  }

  lemma UnionCardinality<T>(a: set<T>, b: set<T>)
    ensures |a + b| <= |a| + |b|
    ensures |a + b| == |a| + |b| <==> a !! b
  {
    assert a + b == a + (b - a);
    assert b == (b - a) + (b * a);
    assert a !! b <==> b * a == {};
  }

  lemma SubsetIsSmaller<T>(a: set<T>, b: set<T>)
    requires a <= b
    ensures |a| <= |b|
  {
    assert b == a + (b - a);
  }

  lemma NoDupPermuted<T(!new)>(a: seq<T>, b: seq<T>)
    requires NoDup(a) && multiset(a) == multiset(b)
    ensures NoDup(b) && Elements(b) == Elements(a)
  {
    assert |multiset(a)| == |a| && |multiset(b)| == |b|;
    forall x ensures x in a <==> x in b { SameMembers(a, b, x); }
    assert Elements(a) == Elements(b);
    CardinalityCounts(a);
    CardinalityCounts(b);
  }

  /** Where everything is after an insertion. */
  lemma InsertAt<T>(s: seq<T>, p: nat, x: T)
    requires p <= |s|
    ensures var r := s[..p] + [x] + s[p..];
      |r| == |s| + 1 && forall i :: 0 <= i < |r| ==> r[i] == if i < p then s[i] else if i == p then x else s[i - 1]
  {
  }

  lemma InsertMembers<T>(s: seq<T>, p: nat, x: T)
    requires p <= |s|
    ensures forall y :: y in s[..p] + [x] + s[p..] <==> y in s || y == x
  {
    assert s == s[..p] + s[p..];
  }

  lemma TakeOne<T>(s: seq<T>, i: nat)
    requires i < |s|
    ensures multiset(s[..i] + s[i + 1..]) == multiset(s) - multiset{s[i]}
  {
    assert s == s[..i] + ([s[i]] + s[i + 1..]);
  }

  lemma EmptyPermuted<T>(a: seq<T>, b: seq<T>)
    requires multiset(a) == multiset(b)
    ensures |a| == |b|
  {
    assert |multiset(a)| == |a| && |multiset(b)| == |b|;
  }
}
