/** Amounts with a tag (the key image that spends them, or where they must go): sums over the unspent ones. */
module Coins {
  import opened Types
  import opened Sequences

  datatype Coin<I> = Coin(tag: I, amount: nat)

  /** The total of the coins whose tag is not in `spent`. */
  ghost function Unspent<I(!new)>(coins: seq<Coin<I>>, spent: set<I>): nat {
    if coins == [] then 0 else
    var n := |coins| - 1;
    Unspent(coins[..n], spent) + if coins[n].tag in spent then 0 else coins[n].amount
  }

  function Sum<I>(coins: seq<Coin<I>>): nat {
    if coins == [] then 0 else Sum(coins[..|coins| - 1]) + coins[|coins| - 1].amount
  }

  ghost predicate DistinctTags<I(!new)>(coins: seq<Coin<I>>) {
    forall i, j :: 0 <= i < j < |coins| ==> coins[i].tag != coins[j].tag
  }

  ghost predicate Has<I(!new)>(coins: seq<Coin<I>>, tag: I) {
    exists i :: 0 <= i < |coins| && coins[i].tag == tag
  }

  lemma {:induction false} UnspentConcat<I(!new)>(a: seq<Coin<I>>, b: seq<Coin<I>>, spent: set<I>)
    ensures Unspent(a + b, spent) == Unspent(a, spent) + Unspent(b, spent)
  {
    if b == [] {
      assert a + b == a;
    } else {
      var n := |b| - 1;
      UnspentConcat(a, b[..n], spent);
      assert (a + b)[..|a + b| - 1] == a + b[..n];
    }
  }

  lemma {:induction false} SumConcat<I>(a: seq<Coin<I>>, b: seq<Coin<I>>)
    ensures Sum(a + b) == Sum(a) + Sum(b)
  {
    if b == [] {
      assert a + b == a;
    } else {
      var n := |b| - 1;
      SumConcat(a, b[..n]);
      assert (a + b)[..|a + b| - 1] == a + b[..n];
    }
  }

  lemma SumPush<I>(a: seq<Coin<I>>, c: Coin<I>)
    ensures Sum(a + [c]) == Sum(a) + c.amount
  {
    PushInit(a, c);
  }

  /** Images that no coin has make no difference. */
  lemma {:induction false} OtherTags<I(!new)>(coins: seq<Coin<I>>, spent: set<I>, more: set<I>)
    requires forall x :: x in more ==> !Has(coins, x)
    ensures Unspent(coins, spent + more) == Unspent(coins, spent)
  {
    if coins != [] {
      var n := |coins| - 1;
      forall x | x in more ensures !Has(coins[..n], x) {
        assert !Has(coins, x);
        assert forall i :: 0 <= i < n ==> coins[..n][i] == coins[i];
      }
      assert forall x :: x in more ==> coins[n].tag != x;
      OtherTags(coins[..n], spent, more);
    }
  }

  lemma {:induction false} NoneSpent<I(!new)>(coins: seq<Coin<I>>, spent: set<I>)
    requires forall i :: 0 <= i < |coins| ==> coins[i].tag !in spent
    ensures Unspent(coins, spent) == Sum(coins)
  {
    if coins != [] { NoneSpent(coins[..|coins| - 1], spent); }
  }

  /** Spending one coin takes away its amount and nothing else. */
  lemma {:induction false} SpendOne<I(!new)>(coins: seq<Coin<I>>, spent: set<I>, c: Coin<I>)
    requires DistinctTags(coins) && c in coins && c.tag !in spent
    ensures Unspent(coins, spent + {c.tag}) + c.amount == Unspent(coins, spent)
  {
    var n := |coins| - 1;
    var last := coins[n];
    if last == c {
      assert forall i :: 0 <= i < n ==> coins[i].tag != c.tag;
      OtherTags(coins[..n], spent, {c.tag});
    } else {
      var i :| 0 <= i < |coins| && coins[i] == c;
      assert coins[..n][i] == c && coins[i].tag != last.tag;
      SpendOne(coins[..n], spent, c);
    }
  }

  /** Spending several distinct unspent coins takes away their sum. */
  lemma {:induction false} SpendAll<I(!new)>(coins: seq<Coin<I>>, spent: set<I>, owners: seq<Coin<I>>)
    requires DistinctTags(coins) && DistinctTags(owners)
    requires forall i :: 0 <= i < |owners| ==> owners[i] in coins && owners[i].tag !in spent
    ensures Unspent(coins, spent + Tags(owners)) + Sum(owners) == Unspent(coins, spent)
  {
    if owners == [] {
      assert spent + Tags(owners) == spent;
    } else {
      var n := |owners| - 1;
      var init, c := owners[..n], owners[n];
      SpendAll(coins, spent, init);
      assert Tags(owners) == Tags(init) + {c.tag};
      SpendOne(coins, spent + Tags(init), c);
      assert spent + Tags(owners) == (spent + Tags(init)) + {c.tag};
    }
  }

  ghost function Tags<I(!new)>(coins: seq<Coin<I>>): set<I> {
    set i | 0 <= i < |coins| :: coins[i].tag
  }

  /** A coin that is unspent is part of the unspent total. */
  lemma {:induction false} UnspentCovers<I(!new)>(coins: seq<Coin<I>>, spent: set<I>, c: Coin<I>)
    requires c in coins && c.tag !in spent
    ensures c.amount <= Unspent(coins, spent)
  {
    var n := |coins| - 1;
    if coins[n] != c {
      var i :| 0 <= i < |coins| && coins[i] == c;
      assert coins[..n][i] == c;
      UnspentCovers(coins[..n], spent, c);
    }
  }

  lemma {:induction false} UnspentTake<I(!new)>(a: seq<Coin<I>>, i: nat, spent: set<I>)
    requires i < |a|
    ensures Unspent(a, spent) == Unspent(a[..i] + a[i + 1..], spent) + if a[i].tag in spent then 0 else a[i].amount
  {
    UnspentConcat(a[..i], a[i + 1..], spent);
    UnspentConcat(a[..i], [a[i]], spent);
    UnspentConcat(a[..i] + [a[i]], a[i + 1..], spent);
    assert a == a[..i] + [a[i]] + a[i + 1..];
    assert [a[i]][..0] == [];
  }

  /** The total does not depend on the order. */
  lemma {:induction false} UnspentAnyOrder<I(!new)>(a: seq<Coin<I>>, b: seq<Coin<I>>, spent: set<I>)
    requires multiset(a) == multiset(b)
    ensures Unspent(a, spent) == Unspent(b, spent)
    decreases |a|
  {
    EmptyPermuted(a, b);
    if a != [] {
      var n := |a| - 1;
      SameMembers(a, b, a[n]);
      var i :| 0 <= i < |b| && b[i] == a[n];
      TakeOne(a, n);
      TakeOne(b, i);
      assert a[..n] + a[n + 1..] == a[..n];
      UnspentAnyOrder(a[..n], b[..i] + b[i + 1..], spent);
      UnspentTake(b, i, spent);
    }
  }
}
