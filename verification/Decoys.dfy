/** Choosing the members of a ring: collecting candidates, shuffling them in place, taking
    the first ones (src/node.cpp:220-258, 282-315). */
module Decoys {
  import opened Types
  import opened Sequences
  import opened Ledger

  method HasKey(keys: seq<Key256>, key: Key256) returns (found: bool)
    ensures found <==> key in keys
  {
    for i := 0 to |keys|
      invariant key !in keys[..i]
    {
      if keys[i] == key { return true; }
    }
    return false;
  }

  method CollectCandidates(pool: seq<OneTimeOutput>, own: Key256, target: U64) returns (c: seq<Key256>)
    ensures c == Candidates(pool, own, target)
  {
    c := [];
    for i := 0 to |pool|
      invariant c == Candidates(pool[..i], own, target)
    {
      assert pool[..i + 1][..i] == pool[..i];
      var o := pool[i];
      if target > 0 && o.amount != target { continue; }
      if o.destination != own {
        var already := HasKey(c, o.destination);
        if !already { c := c + [o.destination]; }
      }
    }
    assert pool[..|pool|] == pool;
  }

  /** Fisher-Yates in place, from the last index down. */
  method ShuffleInPlace<T>(a: array<T>, pick: nat -> nat)
    modifies a
    ensures a[..] == old(if a.Length == 0 then a[..] else Shuffle(a[..], a.Length - 1, pick))
  {
    if a.Length == 0 { return; }
    ghost var goal := Shuffle(a[..], a.Length - 1, pick);
    var i := a.Length - 1;
    while i > 0
      invariant 0 <= i < a.Length && Shuffle(a[..], i, pick) == goal
    {
      var j := pick(i) % (i + 1);
      ghost var before := a[..];
      a[i], a[j] := a[j], a[i];
      assert a[..] == Swap(before, i, j);
      i := i - 1;
    }
  }

  method ChooseDecoys(pool: seq<OneTimeOutput>, ringSize: nat, own: Key256, target: U64, pick: nat -> nat) returns (selected: seq<Key256>)
    ensures selected == SelectDecoys(pool, ringSize, own, target, pick)
  {
    var c := CollectCandidates(pool, own, target);
    var a := new Key256[|c|](i requires 0 <= i < |c| => c[i]);
    assert a[..] == c;
    ShuffleInPlace(a, pick);
    var wanted := if ringSize > 0 then ringSize - 1 else 0;
    var take := if wanted < a.Length then wanted else a.Length;
    selected := [];
    for i := 0 to take
      invariant selected == a[..i]
    {
      selected := selected + [a[i]];
    }
  }

  method Present(pool: seq<OneTimeOutput>, input: OneTimeOutput) returns (found: bool)
    ensures found <==> input in pool
  {
    for i := 0 to |pool|
      invariant input !in pool[..i]
    {
      if pool[i].destination == input.destination && pool[i].ephemeral == input.ephemeral && pool[i].amount == input.amount {
        assert pool[i] == input;
        return true;
      }
    }
    return false;
  }

  // ---- What is chosen ----

  lemma {:induction false} ShuffleMembers<T(!new)>(s: seq<T>, i: nat, pick: nat -> nat)
    requires i < |s| || i == 0
    ensures multiset(Shuffle(s, i, pick)) == multiset(s)
    decreases i
  {
    if i > 0 {
      var j := pick(i) % (i + 1);
      SwapMembers(s, i, j);
      ShuffleMembers(Swap(s, i, j), i - 1, pick);
    }
  }

  lemma SwapMembers<T(!new)>(s: seq<T>, i: nat, j: nat)
    requires i < |s| && j < |s|
    ensures multiset(Swap(s, i, j)) == multiset(s)
  {
  }

  /** The keys that may hide an input: the destinations of the pool's outputs of the wanted
      amount, any amount if that is 0, other than the input's own. */
  ghost function Hiding(pool: seq<OneTimeOutput>, own: Key256, target: U64): set<Key256> {
    set o | o in pool && (target == 0 || o.amount == target) && o.destination != own :: o.destination
  }

  /** One decoy less than the ring has members, or all there are. */
  function DecoyCount(ringSize: nat, available: nat): nat {
    var wanted := if ringSize == 0 then 0 else ringSize - 1;
    if wanted < available then wanted else available
  }

  lemma {:induction false} CandidatesExact(pool: seq<OneTimeOutput>, own: Key256, target: U64)
    ensures var c := Candidates(pool, own, target); NoDup(c) && Elements(c) == Hiding(pool, own, target)
  {
    if pool != [] {
      var n := |pool| - 1;
      CandidatesExact(pool[..n], own, target);
      LastSplit(pool);
      assert forall o :: o in pool <==> o in pool[..n] || o == pool[n];
      var c, d := Candidates(pool[..n], own, target), pool[n].destination;
      if Candidates(pool, own, target) != c {
        NoDupConcat(c, [d]);
        ElementsConcat(c, [d]);
        assert Elements([d]) == {d};
      }
    }
  }

  /** How many and which: as many distinct decoys as the ring has room for beside the input, or all
      there are, each the key of a pool output of the wanted amount, none the input's own. */
  lemma DecoysExact(pool: seq<OneTimeOutput>, ringSize: nat, own: Key256, target: U64, pick: nat -> nat)
    ensures var d, all := SelectDecoys(pool, ringSize, own, target, pick), Hiding(pool, own, target);
      |d| == DecoyCount(ringSize, |all|) && NoDup(d) && (forall x :: x in d ==> x in all) && own !in all
  {
    var c := Candidates(pool, own, target);
    CandidatesExact(pool, own, target);
    NoDupCardinality(c);
    if c != [] {
      ShuffleMembers(c, |c| - 1, pick);
      NoDupPermuted(c, Shuffle(c, |c| - 1, pick));
    }
  }

  /** The shuffle looks only at the numbers drawn for the indices up to i. */
  lemma {:induction false} ShuffleReads<T>(s: seq<T>, i: nat, pick: nat -> nat, other: nat -> nat)
    requires (i < |s| || i == 0) && forall j :: 0 <= j <= i ==> pick(j) == other(j)
    ensures Shuffle(s, i, pick) == Shuffle(s, i, other)
    decreases i
  {
    if i > 0 { ShuffleReads(Swap(s, i, pick(i) % (i + 1)), i - 1, pick, other); }
  }

  lemma Cancel<T>(a: seq<T>, b: seq<T>, rest: seq<T>)
    requires multiset(a + rest) == multiset(b + rest)
    ensures multiset(a) == multiset(b)
  {
    assert multiset(a) == multiset(a + rest) - multiset(rest);
    assert multiset(b) == multiset(b + rest) - multiset(rest);
  }

  lemma Later<T(!new)>(s: seq<T>, t: seq<T>, i: nat)
    requires 0 < i < |s| && |t| == |s| && multiset(s) == multiset(t) && s[i + 1..] == t[i + 1..]
    ensures exists j :: 0 <= j <= i && s[j] == t[i]
  {
    assert s == s[..i + 1] + s[i + 1..] && t == t[..i + 1] + s[i + 1..];
    Cancel(s[..i + 1], t[..i + 1], s[i + 1..]);
    assert t[..i + 1][i] == t[i];
    SameMembers(s[..i + 1], t[..i + 1], t[i]);
  }

  lemma OneLeft<T(!new)>(s: seq<T>, t: seq<T>)
    requires |t| == |s| && multiset(s) == multiset(t) && (s != [] ==> s[1..] == t[1..])
    ensures s == t
  {
    if s != [] {
      assert s == [s[0]] + s[1..] && t == [t[0]] + s[1..];
      Cancel([s[0]], [t[0]], s[1..]);
      assert s[0] in multiset([s[0]]);
    }
  }

  /** Drawing j at index i leaves the rest to the smaller indices. */
  lemma ShuffleUnfolds<T>(s: seq<T>, i: nat, j: nat, pick: nat -> nat, rest: nat -> nat)
    requires 0 < i < |s| && j <= i && pick(i) == j && forall x :: 0 <= x < i ==> pick(x) == rest(x)
    ensures Shuffle(s, i, pick) == Shuffle(Swap(s, i, j), i - 1, rest)
  {
    assert j % (i + 1) == j;
    ShuffleReads(Swap(s, i, j), i - 1, pick, rest);
  }

  /** No order is left out: every permutation of the elements is the outcome of some draws, each
      within its range. */
  lemma {:induction false} EveryOrder<T(!new)>(s: seq<T>, t: seq<T>, i: nat) returns (pick: nat -> nat)
    requires (i < |s| || (i == 0 && s == [])) && |t| == |s| && multiset(s) == multiset(t) && (i < |s| ==> s[i + 1..] == t[i + 1..])
    ensures Shuffle(s, i, pick) == t && forall j: nat :: pick(j) <= j
    decreases i
  {
    if i == 0 {
      OneLeft(s, t);
      pick := (j: nat) => 0;
      assert Shuffle(s, 0, pick) == s;
    } else {
      Later(s, t, i);
      var j :| 0 <= j <= i && s[j] == t[i];
      var s' := Swap(s, i, j);
      ShuffleStep(s, t, i, j);
      var rest := EveryOrder(s', t, i - 1);
      hide Shuffle;
      pick := (x: nat) => if x == i then j else rest(x);
      ShuffleUnfolds(s, i, j, pick, rest);
    }
  }

  lemma ShuffleStep<T(!new)>(s: seq<T>, t: seq<T>, i: nat, j: nat)
    requires 0 < i < |s| && j <= i && |t| == |s| && multiset(s) == multiset(t) && s[i + 1..] == t[i + 1..] && s[j] == t[i]
    ensures var s' := Swap(s, i, j); multiset(s') == multiset(t) && s'[i..] == t[i..]
  {
    SwapMembers(s, i, j);
    var s' := Swap(s, i, j);
    forall x | i <= x < |s| ensures s'[x] == t[x] {
      if x > i { assert s[x] == s[i + 1..][x - i - 1] == t[i + 1..][x - i - 1] == t[x]; }
    }
  }

  /** Every choice is possible: any sequence of as many distinct hiding keys as the ring takes is
      what some draws choose. */
  lemma EveryChoice(pool: seq<OneTimeOutput>, ringSize: nat, own: Key256, target: U64, chosen: seq<Key256>)
    returns (pick: nat -> nat)
    requires NoDup(chosen) && Elements(chosen) <= Hiding(pool, own, target)
    requires |chosen| == DecoyCount(ringSize, |Hiding(pool, own, target)|)
    ensures SelectDecoys(pool, ringSize, own, target, pick) == chosen
  {
    var c := Candidates(pool, own, target);
    CandidatesExact(pool, own, target);
    NoDupCardinality(c);
    hide Candidates, Hiding, Shuffle, SelectDecoys, DecoyCount;
    var order := Completed(c, chosen);
    if c == [] {
      pick := (j: nat) => 0;
    } else {
      pick := EveryOrder(c, order, |c| - 1);
    }
    SelectsFirst(pool, ringSize, own, target, pick, order);
    assert order[..|chosen|] == chosen;
  }

  /** Distinct elements of a sequence, then the others. */
  lemma Completed<T(!new)>(c: seq<T>, chosen: seq<T>) returns (order: seq<T>)
    requires NoDup(c) && NoDup(chosen) && Elements(chosen) <= Elements(c)
    ensures chosen <= order && multiset(order) == multiset(c) && |order| == |c|
  {
    var others := Rest(Elements(c) - Elements(chosen));
    order := chosen + others;
    NoDupConcat(chosen, others);
    ElementsConcat(chosen, others);
    SameElements(c, order);
    EmptyPermuted(c, order);
  }

  lemma SelectsFirst(pool: seq<OneTimeOutput>, ringSize: nat, own: Key256, target: U64, pick: nat -> nat, order: seq<Key256>)
    requires var c := Candidates(pool, own, target); |order| == |c| && (c != [] ==> Shuffle(c, |c| - 1, pick) == order)
    ensures DecoyCount(ringSize, |order|) <= |order|
    ensures SelectDecoys(pool, ringSize, own, target, pick) == order[..DecoyCount(ringSize, |order|)]
  {
    hide Candidates, Shuffle;
  }

  lemma Rest<T(!new)>(s: set<T>) returns (r: seq<T>)
    ensures NoDup(r) && Elements(r) == s
    decreases |s|
  {
    if s == {} {
      r := [];
    } else {
      var x :| x in s;
      var t := Rest(s - {x});
      r := t + [x];
      NoDupConcat(t, [x]);
      ElementsConcat(t, [x]);
      assert Elements([x]) == {x};
    }
  }

  /** Every hiding key is chosen by some draws, if the ring has room for a decoy. */
  lemma EveryDecoyPossible(pool: seq<OneTimeOutput>, ringSize: nat, own: Key256, target: U64, x: Key256)
    returns (pick: nat -> nat)
    requires ringSize > 1 && x in Hiding(pool, own, target)
    ensures x in SelectDecoys(pool, ringSize, own, target, pick)
  {
    var all := Hiding(pool, own, target);
    var others := Rest(all - {x});
    NoDupCardinality(others);
    var chosen := [x] + others[..DecoyCount(ringSize, |all|) - 1];
    NoDupConcat(others[..DecoyCount(ringSize, |all|) - 1], others[DecoyCount(ringSize, |all|) - 1..]);
    assert others == others[..DecoyCount(ringSize, |all|) - 1] + others[DecoyCount(ringSize, |all|) - 1..];
    NoDupConcat([x], others[..DecoyCount(ringSize, |all|) - 1]);
    assert forall y :: y in chosen ==> y == x || y in Elements(others);
    pick := EveryChoice(pool, ringSize, own, target, chosen);
    assert chosen[0] == x;
  }

  /** The ring of a transfer: the input's key once, at the drawn position, among min(4, available)
      distinct keys of other outputs of its amount. */
  lemma RingHides(s: NodeState, a: TransferArgs)
    ensures var (ring, at) := RingOf(s, a);
      var own, all := a.input.destination, Hiding(s.pool, a.input.destination, a.input.amount);
      && |ring| == 1 + (if |all| < 4 then |all| else 4) && NoDup(ring)
      && at == a.rnd.position % |ring| && ring[at] == own
      && (forall i :: 0 <= i < |ring| && i != at ==> ring[i] in all && ring[i] != own)
  {
    var own := a.input.destination;
    var d := SelectDecoys(s.pool, RING_SIZE, own, a.input.amount, a.rnd.pick);
    var at := a.rnd.position % (|d| + 1);
    DecoysExact(s.pool, RING_SIZE, own, a.input.amount, a.rnd.pick);
    InsertAt(d, at, own);
    hide SelectDecoys, Hiding;
    RingDistinct(d, at, own);
  }

  lemma RingDistinct(d: seq<Key256>, at: nat, own: Key256)
    requires at <= |d| && NoDup(d) && own !in d
    ensures NoDup(d[..at] + [own] + d[at..])
  {
    InsertAt(d, at, own);
  }
}
