/** Walks around a ring: a state carried from member to member, starting anywhere and
    going round. Used for the challenge chain of a ring signature. */
module Walks {
  import opened Types

  /** i modulo n for i < 2n. */
  function Wrap(i: nat, n: nat): nat {
    if i < n then i else i - n
  }

  /** What a walk does at member i in state c; None is a failure. */
  type Walker<!T> = (nat, T) -> Option<T>

  /** The state reached after `steps` members of a ring of n, going round from index i. */
  function Close<T>(f: Walker<T>, n: nat, i: nat, c: T, steps: nat): Option<T>
    decreases steps
  {
    if steps == 0 then Some(c) else
    match f(i, c)
    case None => None
    case Some(c') => Close(f, n, Wrap(i + 1, n), c', steps - 1)
  }

  lemma {:induction false} CloseSplit<T>(f: Walker<T>, n: nat, i: nat, c: T, a: nat, b: nat)
    requires i < n && a <= n
    ensures Close(f, n, i, c, a + b)
      == (match Close(f, n, i, c, a) case None => None case Some(x) => Close(f, n, Wrap(i + a, n), x, b))
    decreases a
  {
    if a > 0 {
      var c' := f(i, c);
      if c'.Some? { CloseSplit(f, n, Wrap(i + 1, n), c'.value, a - 1, b); }
    }
  }

  /** A walk that fails early fails at every greater length. */
  lemma CloseShorter<T>(f: Walker<T>, n: nat, i: nat, c: T, a: nat, b: nat)
    requires i < n && a <= n && a <= b
    ensures Close(f, n, i, c, a).None? ==> Close(f, n, i, c, b).None?
  {
    CloseSplit(f, n, i, c, a, b - a);
  }

  /** The vector c holds, at the member t steps after `next`, the state the walk has there. */
  ghost predicate Reaches<T(!new)>(f: Walker<T>, n: nat, next: nat, c1: T, t: nat, c: seq<T>)
    requires |c| == n && next < n && t < n
  {
    Close(f, n, next, c1, t) == Some(c[Wrap(next + t, n)])
  }

  ghost predicate Trace<T(!new)>(f: Walker<T>, n: nat, next: nat, c1: T, upto: nat, c: seq<T>)
    requires |c| == n && next < n && upto <= n
  {
    forall t :: 0 <= t < upto ==> Reaches(f, n, next, c1, t, c)
  }

  lemma ExtendTrace<T(!new)>(f: Walker<T>, n: nat, next: nat, c1: T, step: nat, c: seq<T>)
    requires |c| == n && next < n && 1 <= step < n
    requires Trace(f, n, next, c1, step, c)
    ensures var i := Wrap(next + (step - 1), n);
      match f(i, c[i])
      case Some(c') => Trace(f, n, next, c1, step + 1, c[Wrap(next + step, n) := c'])
      case None => Close(f, n, next, c1, n - 1).None? && (next != 0 && step <= n - next ==> Close(f, n, next, c1, n - next).None?)
  {
    var i := Wrap(next + (step - 1), n);
    assert Reaches(f, n, next, c1, step - 1, c);
    CloseSplit(f, n, next, c1, step - 1, 1);
    assert Close(f, n, next, c1, step) == Close(f, n, i, c[i], 1);
    match f(i, c[i])
    case None =>
      CloseShorter(f, n, next, c1, step, n - 1);
      if next != 0 && step <= n - next { CloseShorter(f, n, next, c1, step, n - next); }
    case Some(c') =>
      var j := Wrap(next + step, n);
      var c'' := c[j := c'];
      forall t | 0 <= t <= step ensures Reaches(f, n, next, c1, t, c'') {
        if t < step {
          assert Reaches(f, n, next, c1, t, c) && Wrap(next + t, n) != j;
        } else {
          assert Close(f, n, Wrap(i + 1, n), c', 0) == Some(c');
        }
      }
  }

  /** The vector of states of a walk that starts after index `own` and passes every other
      member once, filled in place. */
  method Fill<T(!new)>(f: Walker<T>, n: nat, own: nat, c1: T, blank: T) returns (c: Option<seq<T>>)
    requires own < n
    ensures var next := Wrap(own + 1, n);
      match c
      case None => Close(f, n, next, c1, n - 1).None?
      case Some(v) => |v| == n && Close(f, n, next, c1, n - 1) == Some(v[own])
                      && Some(v[0]) == (if next == 0 then Some(c1) else Close(f, n, next, c1, n - next))
  {
    var next := Wrap(own + 1, n);
    var v := seq(n, (i: nat) => blank)[next := c1];
    for step := 1 to n
      invariant |v| == n && Trace(f, n, next, c1, step, v)
    {
      var i := Wrap(own + step, n);
      var c' := f(i, v[i]);
      ExtendTrace(f, n, next, c1, step, v);
      if c'.None? { return None; }
      v := v[Wrap(i + 1, n) := c'.value];
    }
    assert Reaches(f, n, next, c1, n - 1, v) && Reaches(f, n, next, c1, 0, v);
    if next != 0 { assert Reaches(f, n, next, c1, n - next, v); }
    return Some(v);
  }

  /** Away from index `own`, where f succeeds h agrees with it. */
  ghost predicate Agrees<T(!new)>(f: Walker<T>, h: Walker<T>, own: nat) {
    forall i: nat, c :: i != own && f(i, c).Some? ==> h(i, c) == f(i, c)
  }

  /** A walk of f that does not pass `own` is a walk of h. */
  lemma {:induction false} CloseAgrees<T(!new)>(f: Walker<T>, h: Walker<T>, own: nat, n: nat, i: nat, c: T, steps: nat)
    requires Agrees(f, h, own) && i < n && own < n
    requires i + steps <= own || (own < i && i + steps <= own + n)
    ensures Close(f, n, i, c, steps).Some? ==> Close(h, n, i, c, steps) == Close(f, n, i, c, steps)
    decreases steps
  {
    if steps > 1 {
      var c' := f(i, c);
      if c'.Some? { CloseAgrees(f, h, own, n, Wrap(i + 1, n), c'.value, steps - 1); }
    }
  }

  /** The signer walks h from c1 after `own` round to `own`, passing c0 at index 0; the
      verifier walks f from c0 at index 0. If f leads from the signer's last state back to
      c1 at `own`, the verifier arrives at c0 again. */
  lemma WalkCloses<T(!new)>(f: Walker<T>, h: Walker<T>, own: nat, n: nat, c1: T, c0: T, last: T)
    requires Agrees(f, h, own) && own < n
    requires var next := Wrap(own + 1, n);
      Close(h, n, next, c1, n - 1) == Some(last) && Some(c0) == (if next == 0 then Some(c1) else Close(h, n, next, c1, n - next))
    requires f(own, last).Some? ==> f(own, last) == Some(c1)
    requires Close(f, n, 0, c0, n).Some?
    ensures Close(f, n, 0, c0, n) == Some(c0)
  {
    var next := Wrap(own + 1, n);
    // up to the real index, the verifier repeats the signer's challenges
    CloseSplit(f, n, 0, c0, own, n - own);
    CloseAgrees(f, h, own, n, 0, c0, own);
    if next != 0 { CloseSplit(h, n, next, c1, n - next, own); }
    assert Close(f, n, 0, c0, own) == Some(last);
    // there it returns to c1, and from c1 it reaches c0
    assert Close(f, n, 0, c0, n) == Close(f, n, next, c1, n - own - 1);
    if next != 0 { CloseAgrees(f, h, own, n, next, c1, n - next); }
  }
}
