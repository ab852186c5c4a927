/** When the replay of a rollback cannot throw: at the replayed deposit rate, as long as all
    deposits together fit in u64 (src/blockchain_db.cpp:605-640). */
module Replaying {
  import opened Types
  import opened Sequences
  import opened CurveModel
  import opened VaultModel
  import opened DbModel
  import opened Ledger
  import opened Chain
  import opened Agreement
  import opened Atomicity
  import opened Conservation

  function Gross(deps: seq<DepositReceipt>): nat {
    if deps == [] then 0 else Gross(deps[..|deps| - 1]) + deps[|deps| - 1].gross
  }

  function GrossOf(c: seq<Block>): nat {
    if c == [] then 0 else GrossOf(c[..|c| - 1]) + Gross(c[|c| - 1].deposits)
  }

  /** Each block ran on some solvent vault with the chain's circulating supply. */
  ghost predicate Ran(d: U32, w: U32, c: seq<Block>) {
    var n := |c| - 1;
    n > 0 ==> Ran(d, w, c[..n]) && RanOn(d, w, c[..n], c[n])
  }

  ghost predicate RanOn(d: U32, w: U32, c: seq<Block>, b: Block)
    requires c != []
  {
    exists v: Balances :: Solvent(v) && v.circulating == Circulating(d, c) && VaultAfter(d, w, v, b).Some?
  }

  /** Deposits accepted by one solvent vault are accepted by another with room for them. */
  lemma {:induction false} DepositsElsewhere(d: U32, v: Balances, u: Balances, deps: seq<DepositReceipt>)
    requires Solvent(v) && Solvent(u) && DepositAll(v, d, deps).Some? && u.collateral + Gross(deps) < TWO_64
    ensures DepositAll(u, d, deps).Some? && DepositAll(u, d, deps).value.collateral == u.collateral + Gross(deps)
  {
    if deps != [] {
      var n := |deps| - 1;
      DepositsElsewhere(d, v, u, deps[..n]);
      DepositsSolvent(v, d, deps[..n]);
      DepositsSolvent(u, d, deps[..n]);
      DepositOnSolvent(DepositAll(v, d, deps[..n]).value, d, deps[n].gross);
      DepositOnSolvent(DepositAll(u, d, deps[..n]).value, d, deps[n].gross);
    }
  }

  /** Withdrawals depend on the circulating supply alone, whatever the rate. */
  lemma {:induction false} WithdrawalsElsewhere(w: U32, x: U32, v: Balances, u: Balances, ws: seq<WithdrawalReceipt>)
    requires Solvent(v) && Solvent(u) && v.circulating == u.circulating && x <= 10000 && WithdrawAll(v, w, ws).Some?
    ensures WithdrawAll(u, x, ws).Some? && WithdrawAll(u, x, ws).value.collateral <= u.collateral
  {
    if ws != [] {
      var n := |ws| - 1;
      WithdrawalsElsewhere(w, x, v, u, ws[..n]);
      WithdrawalsSolvent(v, w, ws[..n]);
      WithdrawalsSolvent(u, x, ws[..n]);
      WithdrawalsCirculate(v, w, ws[..n]);
      WithdrawalsCirculate(u, x, ws[..n]);
      WithdrawOnSolvent(WithdrawAll(v, w, ws[..n]).value, w, ws[n].gross);
      WithdrawOnSolvent(WithdrawAll(u, x, ws[..n]).value, x, ws[n].gross);
    }
  }

  lemma BlockElsewhere(d: U32, w: U32, x: U32, v: Balances, u: Balances, b: Block)
    requires Solvent(v) && Solvent(u) && v.circulating == u.circulating && x <= 10000
    requires VaultAfter(d, w, v, b).Some? && u.collateral + Gross(b.deposits) < TWO_64
    ensures VaultAfter(d, x, u, b).Some? && VaultAfter(d, x, u, b).value.collateral <= u.collateral + Gross(b.deposits)
  {
    DepositsElsewhere(d, v, u, b.deposits);
    DepositsSolvent(v, d, b.deposits);
    DepositsSolvent(u, d, b.deposits);
    DepositsCirculate(v, d, b.deposits);
    DepositsCirculate(u, d, b.deposits);
    WithdrawalsElsewhere(w, x, DepositAll(v, d, b.deposits).value, DepositAll(u, d, b.deposits).value, b.withdrawals);
  }

  /** A chain that ran at deposit rate d replays at rate d and any withdrawal rate. */
  lemma {:induction false} RanReplays(d: U32, w: U32, x: U32, c: seq<Block>)
    requires c != [] && Ran(d, w, c) && GrossOf(c) < TWO_64 && x <= 10000
    ensures Replay(d, x, c).Some? && Replay(d, x, c).value.collateral <= GrossOf(c)
  {
    hide VaultAfter;
    var n := |c| - 1;
    if n > 0 {
      RanReplays(d, w, x, c[..n]);
      ReplaySolvent(d, x, c[..n]);
      ReplayCirculates(d, x, c[..n]);
      var v: Balances :| Solvent(v) && v.circulating == Circulating(d, c[..n]) && VaultAfter(d, w, v, c[n]).Some?;
      BlockElsewhere(d, w, x, v, Replay(d, x, c[..n]).value, c[n]);
    }
  }

  /** At the replayed deposit rate the replay of a readable chain never throws. */
  lemma ReplayRunsAtItsRate(k: Curve, w: U32, c: seq<Block>)
    requires c != [] && Readable(k, c) && Ran(REPLAY_BPS, w, c) && GrossOf(c) < TWO_64
    ensures ReplayRuns(k, c)
  {
    hide Reread, VaultAfter;
    if |c| > 1 {
      ReadableInit(k, c);
      ReadReplayOf(k, c[..|c| - 1]);
      assert GrossOf(c[..|c| - 1]) <= GrossOf(c);
      RanReplays(REPLAY_BPS, w, REPLAY_BPS, c[..|c| - 1]);
    }
  }

  lemma RanPush(d: U32, w: U32, c: seq<Block>, b: Block, v: Balances)
    requires c != [] && Ran(d, w, c) && Solvent(v) && v.circulating == Circulating(d, c) && VaultAfter(d, w, v, b).Some?
    ensures Ran(d, w, c + [b])
  {
    PushInit(c, b);
    assert RanOn(d, w, c, b);
  }
}
