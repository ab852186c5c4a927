/** The loops of remote validation, each against the predicate it decides (src/node.cpp:736-1128). */
module Checks {
  import opened Types
  import opened Sequences
  import opened CurveModel
  import opened HeaderModel
  import opened VaultModel
  import opened DbModel
  import opened Coins
  import opened Ledger
  import Ring

  method FindOutput(pool: seq<OneTimeOutput>, key: Key256) returns (r: Option<OneTimeOutput>)
    ensures r == Lookup(pool, key)
  {
    for i := 0 to |pool|
      invariant Lookup(pool, key) == Lookup(pool[i..], key)
    {
      if pool[i].destination == key { return Some(pool[i]); }
      assert pool[i..][1..] == pool[i + 1..];
    }
    return None;
  }

  /** Adding the outputs to the fee: refuses a zero amount and an overflow. */
  method SumSpent(fee: U64, outs: seq<OneTimeOutput>) returns (total: Option<U64>)
    ensures total.Some? <==> Positive(outs) && fee + SumAmounts(outs) < TWO_64
    ensures total.Some? ==> total.value == fee + SumAmounts(outs)
  {
    var sum := fee;
    for i := 0 to |outs|
      invariant Positive(outs[..i]) && sum == fee + SumAmounts(outs[..i])
    {
      assert outs[..i + 1][..i] == outs[..i];
      if outs[i].amount == 0 { return None; }
      var next := SafeAdd(sum, outs[i].amount);
      if next.None? {
        SumGrows(outs, i + 1);
        return None;
      }
      sum := next.value;
    }
    assert outs[..|outs|] == outs;
    return Some(sum);
  }

  lemma {:induction false} SumGrows(outs: seq<OneTimeOutput>, i: nat)
    requires i <= |outs|
    ensures SumAmounts(outs[..i]) <= SumAmounts(outs)
    decreases |outs|
  {
    if i < |outs| {
      var n := |outs| - 1;
      SumGrows(outs[..n], i);
      assert outs[..n][..i] == outs[..i];
    } else {
      assert outs[..i] == outs;
    }
  }

  /** The common amount of the ring members in the pool; None if one is missing, if two
      differ, or if the ring is empty. */
  method RingDenomination(pool: seq<OneTimeOutput>, ring: seq<Key256>) returns (amount: Option<nat>)
    ensures forall total: nat :: RingMembersOk(pool, ring, total) <==> amount == Some(total)
  {
    amount := None;
    for i := 0 to |ring|
      invariant i == 0 <==> amount.None?
      invariant amount.Some? ==> forall j :: 0 <= j < i ==> Lookup(pool, ring[j]).Some? && Lookup(pool, ring[j]).value.amount == amount.value
    {
      var u := FindOutput(pool, ring[i]);
      if u.None? { return None; }
      if amount.None? {
        amount := Some(u.value.amount);
      } else if u.value.amount != amount.value {
        assert Lookup(pool, ring[0]).value.amount == amount.value;
        return None;
      }
    }
    if amount.Some? { assert Lookup(pool, ring[0]).value.amount == amount.value; }
  }

  method CheckTx(p: Params, s: NodeState, height: nat, tx: ShieldedTransaction) returns (ok: bool)
    ensures ok == TxOk(p, s, height, tx)
  {
    if !TxHashOk(p.k, height, tx) { return false; }
    var verified := Ring.VerifyLoop(p.k, tx.txHash, tx.ringSig);
    if !verified { return false; }
    if IsSpent(p.k, s, tx.ringSig.keyImage) { return false; }
    var total := SumSpent(tx.publicFee, tx.outputs);
    if total.None? { return false; }
    var distinct := Ring.DistinctKeys(tx.ringSig.ring);
    if !distinct { return false; }
    var amount := RingDenomination(s.pool, tx.ringSig.ring);
    return amount == Some(total.value);
  }

  /** Whether an image, up to torsion, is among those already collected from the block. */
  method SeenImage(k: Curve, images: seq<KeyImage>, image: KeyImage) returns (found: bool)
    ensures found <==> Canonical(k, image) in CanonicalAll(k, images)
  {
    for i := 0 to |images|
      invariant forall j :: 0 <= j < i ==> Canonical(k, images[j]) != Canonical(k, image)
    {
      if Canonical(k, images[i]) == Canonical(k, image) {
        assert CanonicalAll(k, images)[i] == Canonical(k, image);
        return true;
      }
    }
    return false;
  }

  lemma ImagesPush(k: Curve, images: seq<KeyImage>, image: KeyImage)
    ensures NoDup(CanonicalAll(k, images + [image]))
      <==> NoDup(CanonicalAll(k, images)) && Canonical(k, image) !in CanonicalAll(k, images)
  {
    var c, x := CanonicalAll(k, images), Canonical(k, image);
    assert CanonicalAll(k, images + [image]) == c + [x];
    NoDupConcat(c, [x]);
    assert Elements([x]) == {x};
  }

  lemma ImagesPrefix(k: Curve, a: seq<KeyImage>, b: seq<KeyImage>)
    requires a <= b && NoDup(CanonicalAll(k, b))
    ensures NoDup(CanonicalAll(k, a))
  {
    var c, d := CanonicalAll(k, a), CanonicalAll(k, b);
    forall i, j | 0 <= i < j < |c| ensures c[i] != c[j] { assert c[i] == d[i] && c[j] == d[j]; }
  }

  /** The transactions of a block: every one acceptable, no image twice. */
  method CheckTxs(p: Params, s: NodeState, b: Block) returns (ok: bool, images: seq<KeyImage>)
    ensures ok <==> TxsOk(p, s, b) && NoDup(CanonicalAll(p.k, TxImages(b.txs)))
    ensures ok ==> images == TxImages(b.txs)
  {
    hide TxOk, Canonical;
    images := [];
    for i := 0 to |b.txs|
      invariant forall j :: 0 <= j < i ==> TxOk(p, s, b.header.height, b.txs[j])
      invariant images == TxImages(b.txs)[..i] && NoDup(CanonicalAll(p.k, images))
    {
      var tx := b.txs[i];
      var good := CheckTx(p, s, b.header.height, tx);
      if !good { return false, []; }
      var seen := SeenImage(p.k, images, tx.ringSig.keyImage);
      ImagesPush(p.k, images, tx.ringSig.keyImage);
      assert TxImages(b.txs)[..i + 1] == images + [tx.ringSig.keyImage];
      if seen {
        if NoDup(CanonicalAll(p.k, TxImages(b.txs))) { ImagesPrefix(p.k, TxImages(b.txs)[..i + 1], TxImages(b.txs)); }
        return false, [];
      }
      images := images + [tx.ringSig.keyImage];
    }
    assert images == TxImages(b.txs);
    return true, images;
  }

  // ---- Deposits ----

  method SeenText(texts: seq<Text>, t: Text) returns (found: bool)
    ensures found <==> t in texts
  {
    for i := 0 to |texts|
      invariant t !in texts[..i]
    {
      if texts[i] == t { return true; }
    }
    return false;
  }

  ghost predicate DepositsUpTo(p: Params, s: NodeState, b: Block, v: Balances, n: nat, seen: seq<Text>, now: Balances)
    requires |b.deposits| == |b.depositOutputs|
  {
    && |seen| == n <= |b.deposits|
    && (forall i :: 0 <= i < n ==> seen[i] == b.deposits[i].txHash)
    && (forall i :: 0 <= i < n ==> DepositOk(p, s, b.deposits[i], b.depositOutputs[i]))
    && NoDup(seen)
    && DepositAll(v, p.depositBps, b.deposits[..n]) == Some(now)
  }

  ghost predicate DepositsPass(p: Params, s: NodeState, b: Block, v: Balances) {
    DepositsOk(p, s, b) && DepositAll(v, p.depositBps, b.deposits).Some?
  }

  method CheckOneDeposit(p: Params, s: NodeState, b: Block, ghost v: Balances, i: nat, seen: seq<Text>, temp: Vault) returns (ok: bool)
    requires temp.depositBps == p.depositBps && |b.deposits| == |b.depositOutputs|
    requires i < |b.deposits| && DepositsUpTo(p, s, b, v, i, seen, temp.State())
    modifies temp`collateral, temp`circulating, temp`feePool
    ensures ok ==> DepositsUpTo(p, s, b, v, i + 1, seen + [b.deposits[i].txHash], temp.State())
    ensures !ok ==> !DepositsPass(p, s, b, v)
  {
    var dep, out := b.deposits[i], b.depositOutputs[i];
    var again := SeenText(seen, dep.txHash);
    if again { return false; }
    if !DepositOk(p, s, dep, out) { return false; }
    assert b.deposits[..i + 1][..i] == b.deposits[..i];
    var r := temp.Deposit(dep.gross, dep.txHash, ZERO_KEY);
    if r.Refused? {
      DepositStuck(v, p.depositBps, b.deposits, i + 1);
      return false;
    }
    return true;
  }

  /** The deposits of a block, run on the temporary vault as they are checked. */
  method CheckDeposits(p: Params, s: NodeState, b: Block, temp: Vault) returns (ok: bool)
    requires temp.depositBps == p.depositBps
    modifies temp`collateral, temp`circulating, temp`feePool
    ensures ok <==> DepositsPass(p, s, b, old(temp.State()))
    ensures ok ==> DepositAll(old(temp.State()), p.depositBps, b.deposits) == Some(temp.State())
  {
    ghost var v := temp.State();
    if |b.deposits| != |b.depositOutputs| { return false; }
    var seen: seq<Text> := [];
    for i := 0 to |b.deposits|
      invariant DepositsUpTo(p, s, b, v, i, seen, temp.State())
    {
      var good := CheckOneDeposit(p, s, b, v, i, seen, temp);
      if !good { return false; }
      seen := seen + [b.deposits[i].txHash];
    }
    assert b.deposits[..|b.deposits|] == b.deposits;
    return true;
  }

  // ---- Withdrawals: every change output claimed by exactly one withdrawal ----

  /** The outputs claimed so far. */
  ghost function Claimed(outs: seq<OneTimeOutput>, claimed: seq<bool>): multiset<Change>
    requires |claimed| == |outs|
  {
    if outs == [] then multiset{} else
    var n := |outs| - 1;
    Claimed(outs[..n], claimed[..n]) + if claimed[n] then multiset{AsChange(outs[n])} else multiset{}
  }

  ghost function AllClaims(outs: seq<OneTimeOutput>): multiset<Change> {
    multiset(Map(AsChange, outs))
  }

  lemma AllPush(outs: seq<OneTimeOutput>)
    requires outs != []
    ensures AllClaims(outs) == AllClaims(outs[..|outs| - 1]) + multiset{AsChange(outs[|outs| - 1])}
  {
    assert Map(AsChange, outs) == Map(AsChange, outs[..|outs| - 1]) + [AsChange(outs[|outs| - 1])];
  }

  /** Claims are some of the outputs; an output that no claim can still take is wholly claimed. */
  lemma {:induction false} ClaimsWithin(outs: seq<OneTimeOutput>, claimed: seq<bool>, x: Change)
    requires |claimed| == |outs|
    ensures Claimed(outs, claimed)[x] <= AllClaims(outs)[x]
    ensures (forall i :: 0 <= i < |outs| && AsChange(outs[i]) == x ==> claimed[i]) ==> Claimed(outs, claimed)[x] == AllClaims(outs)[x]
    ensures |Claimed(outs, claimed)| <= |outs|
    ensures |Claimed(outs, claimed)| == |outs| ==> Claimed(outs, claimed) == AllClaims(outs)
  {
    if outs != [] {
      var n := |outs| - 1;
      AllPush(outs);
      ClaimsWithin(outs[..n], claimed[..n], x);
      if forall i :: 0 <= i < |outs| && AsChange(outs[i]) == x ==> claimed[i] {
        forall i | 0 <= i < n && AsChange(outs[..n][i]) == x ensures claimed[..n][i] {
          assert AsChange(outs[i]) == x;
        }
      }
    }
  }

  lemma {:induction false} ClaimOne(outs: seq<OneTimeOutput>, claimed: seq<bool>, i: nat)
    requires |claimed| == |outs| && i < |outs| && !claimed[i]
    ensures Claimed(outs, claimed[i := true]) == Claimed(outs, claimed) + multiset{AsChange(outs[i])}
  {
    var n := |outs| - 1;
    if i == n {
      assert claimed[i := true][..n] == claimed[..n];
    } else {
      assert claimed[i := true][..n] == claimed[..n][i := true];
      ClaimOne(outs[..n], claimed[..n], i);
    }
  }

  lemma {:induction false} NothingClaimed(outs: seq<OneTimeOutput>, claimed: seq<bool>)
    requires |claimed| == |outs| && forall i :: 0 <= i < |outs| ==> !claimed[i]
    ensures Claimed(outs, claimed) == multiset{}
  {
    if outs != [] { NothingClaimed(outs[..|outs| - 1], claimed[..|outs| - 1]); }
  }

  /** The first unclaimed output with this amount and destination. */
  method FindChange(outs: seq<OneTimeOutput>, claimed: seq<bool>, due: Change) returns (at: Option<nat>)
    requires |claimed| == |outs|
    ensures at.Some? ==> at.value < |outs| && !claimed[at.value] && AsChange(outs[at.value]) == due
    ensures at.None? ==> forall i :: 0 <= i < |outs| && AsChange(outs[i]) == due ==> claimed[i]
  {
    for i := 0 to |outs|
      invariant forall j :: 0 <= j < i && AsChange(outs[j]) == due ==> claimed[j]
    {
      if !claimed[i] && outs[i].amount == due.amount && outs[i].destination == due.tag { return Some(i); }
    }
    return None;
  }

  lemma {:induction false} ChangesWithin(pool: seq<OneTimeOutput>, ws: seq<WithdrawalReceipt>, i: nat)
    requires i <= |ws|
    ensures multiset(Changes(pool, ws[..i])) <= multiset(Changes(pool, ws))
    decreases |ws|
  {
    hide ChangeOf;
    if i < |ws| {
      var n := |ws| - 1;
      ChangesWithin(pool, ws[..n], i);
      assert ws[..n][..i] == ws[..i];
    } else {
      assert ws[..i] == ws;
    }
  }

  /** A due change that no unclaimed output can meet is never met. */
  lemma Unmet(pool: seq<OneTimeOutput>, ws: seq<WithdrawalReceipt>, i: nat, outs: seq<OneTimeOutput>, claimed: seq<bool>, due: Change)
    requires i < |ws| && |claimed| == |outs| && ChangeOf(pool, ws[i]) == [due]
    requires Claimed(outs, claimed) == multiset(Changes(pool, ws[..i]))
    requires forall j :: 0 <= j < |outs| && AsChange(outs[j]) == due ==> claimed[j]
    ensures multiset(Changes(pool, ws)) != AllClaims(outs)
  {
    assert ws[..i + 1][..i] == ws[..i];
    assert Changes(pool, ws[..i + 1]) == Changes(pool, ws[..i]) + [due];
    hide ChangeOf, Changes, Claimed, AllClaims;
    ClaimsWithin(outs, claimed, due);
    ChangesWithin(pool, ws, i + 1);
    Overdue(Changes(pool, ws[..i]), due, multiset(Changes(pool, ws)), AllClaims(outs));
  }

  /** If all holds one more x than some, they differ. */
  lemma Overdue<T>(s: seq<T>, x: T, all: multiset<T>, some: multiset<T>)
    requires multiset(s + [x]) <= all && multiset(s)[x] == some[x]
    ensures all != some
  {
    assert multiset(s + [x])[x] == multiset(s)[x] + 1;
  }

  /** One withdrawal, its change output apart. */
  method CheckWithdrawal(p: Params, s: NodeState, w: WithdrawalReceipt) returns (ok: bool)
    ensures ok == WithdrawalOk(p, s, w)
  {
    if w.gross == 0 { return false; }
    if FeeCalc(w.gross, p.withdrawBps) != Some(w.fee) || w.net != w.gross - w.fee { return false; }
    var address := IsValidEvmAddress(w.destination);
    if !address { return false; }
    var burned := FindOutput(s.pool, w.burnedKey);
    if burned.None? || burned.value.amount < w.gross { return false; }
    if burned.value.amount == w.gross && w.changeKey != ZERO_KEY { return false; }
    if !Ring.VerifyBurn(p.k, BurnMessageOf(p.k, w), w.burnedKey, w.keyImage, w.burnC0, w.burnS) { return false; }
    return !IsSpent(p.k, s, w.keyImage);
  }

  /** Claims the output that meets the change of withdrawal i, if a change is due. */
  method ClaimChange(pool: seq<OneTimeOutput>, ws: seq<WithdrawalReceipt>, i: nat, outs: seq<OneTimeOutput>, claimed: seq<bool>)
    returns (ok: bool, now: seq<bool>, due: nat)
    requires i < |ws| && |claimed| == |outs| && Claimed(outs, claimed) == multiset(Changes(pool, ws[..i]))
    ensures !ok ==> multiset(Changes(pool, ws)) != AllClaims(outs)
    ensures ok ==> |now| == |outs| && Claimed(outs, now) == multiset(Changes(pool, ws[..i + 1]))
                   && due == |Changes(pool, ws[..i + 1])| - |Changes(pool, ws[..i])|
  {
    assert ws[..i + 1][..i] == ws[..i];
    var change := ChangeOf(pool, ws[i]);
    if change == [] { return true, claimed, 0; }
    var at := FindChange(outs, claimed, change[0]);
    if at.None? {
      Unmet(pool, ws, i, outs, claimed, change[0]);
      return false, claimed, 0;
    }
    ClaimOne(outs, claimed, at.value);
    return true, claimed[at.value := true], 1;
  }

  method CheckChangeOutputs(k: Curve, outs: seq<OneTimeOutput>) returns (ok: bool)
    ensures ok <==> forall i :: 0 <= i < |outs| ==> ChangeOutputOk(k, outs[i])
  {
    for i := 0 to |outs|
      invariant forall j :: 0 <= j < i ==> ChangeOutputOk(k, outs[j])
    {
      if !ChangeOutputOk(k, outs[i]) { return false; }
    }
    return true;
  }

  ghost predicate WithdrawalsPass(p: Params, s: NodeState, b: Block, images: seq<KeyImage>, v: Balances) {
    && (forall i :: 0 <= i < |b.withdrawals| ==> WithdrawalOk(p, s, b.withdrawals[i])) && ChangeBalanced(s.pool, b)
    && NoDup(CanonicalAll(p.k, images + WithdrawalImages(b.withdrawals)))
    && WithdrawAll(v, p.withdrawBps, b.withdrawals).Some?
  }

  /** The variables of the withdrawal loop. */
  datatype Claims = Claims(spent: seq<KeyImage>, claimed: seq<bool>, expected: nat)

  /** What the loop has established after n withdrawals. */
  ghost predicate WithdrawalsUpTo(p: Params, s: NodeState, b: Block, images: seq<KeyImage>, v: Balances, n: nat, t: Claims, now: Balances) {
    && n <= |b.withdrawals| && |t.claimed| == |b.withdrawalOutputs|
    && (forall i :: 0 <= i < n ==> WithdrawalOk(p, s, b.withdrawals[i]))
    && t.spent == images + WithdrawalImages(b.withdrawals)[..n] && NoDup(CanonicalAll(p.k, t.spent))
    && Claimed(b.withdrawalOutputs, t.claimed) == multiset(Changes(s.pool, b.withdrawals[..n]))
    && t.expected == |Changes(s.pool, b.withdrawals[..n])|
    && WithdrawAll(v, p.withdrawBps, b.withdrawals[..n]) == Some(now)
  }

  method CheckOneWithdrawal(p: Params, s: NodeState, b: Block, ghost images: seq<KeyImage>, ghost v: Balances,
                            i: nat, t: Claims, temp: Vault) returns (ok: bool, t': Claims)
    requires temp.withdrawBps == p.withdrawBps && i < |b.withdrawals|
    requires WithdrawalsUpTo(p, s, b, images, v, i, t, temp.State())
    modifies temp`collateral, temp`circulating, temp`feePool
    ensures ok ==> WithdrawalsUpTo(p, s, b, images, v, i + 1, t', temp.State())
    ensures !ok ==> !WithdrawalsPass(p, s, b, images, v)
  {
    hide WithdrawalOk, ApplyWithdrawal, Canonical, Claimed;
    var ws := b.withdrawals;
    t' := t;
    var good := CheckWithdrawal(p, s, ws[i]);
    if !good { return false, t'; }
    var met, now, due := ClaimChange(s.pool, ws, i, b.withdrawalOutputs, t.claimed);
    if !met { return false, t'; }
    var seen := SeenImage(p.k, t.spent, ws[i].keyImage);
    OneMoreImage(p.k, images, WithdrawalImages(ws), i);
    if seen { return false, t'; }
    assert ws[..i + 1][..i] == ws[..i];
    var r := temp.RequestWithdrawal(ws[i].gross, Zeros(16));
    if r.Refused? {
      WithdrawStuck(v, p.withdrawBps, ws, i + 1);
      return false, t';
    }
    t' := Claims(t.spent + [ws[i].keyImage], now, t.expected + due);
    UpToNext(p, s, b, images, v, i, t, old(temp.State()), t', temp.State());
    return true, t';
  }

  lemma UpToNext(p: Params, s: NodeState, b: Block, images: seq<KeyImage>, v: Balances, i: nat, t: Claims, now: Balances,
                 t': Claims, now': Balances)
    requires i < |b.withdrawals| && WithdrawalsUpTo(p, s, b, images, v, i, t, now)
    requires WithdrawalOk(p, s, b.withdrawals[i]) && |t'.claimed| == |b.withdrawalOutputs|
    requires t'.spent == t.spent + [b.withdrawals[i].keyImage] && NoDup(CanonicalAll(p.k, t'.spent))
    requires Claimed(b.withdrawalOutputs, t'.claimed) == multiset(Changes(s.pool, b.withdrawals[..i + 1]))
    requires t'.expected == |Changes(s.pool, b.withdrawals[..i + 1])|
    requires WithdrawAll(v, p.withdrawBps, b.withdrawals[..i + 1]) == Some(now')
    ensures WithdrawalsUpTo(p, s, b, images, v, i + 1, t', now')
  {
    hide WithdrawalOk, WithdrawAll, Changes, Claimed, Canonical;
    OneMoreImage(p.k, images, WithdrawalImages(b.withdrawals), i);
  }

  /** The withdrawals of a block after its change outputs have been looked at. */
  method CheckWithdrawals(p: Params, s: NodeState, b: Block, images: seq<KeyImage>, temp: Vault) returns (ok: bool)
    requires temp.withdrawBps == p.withdrawBps && NoDup(CanonicalAll(p.k, images))
    modifies temp`collateral, temp`circulating, temp`feePool
    ensures ok <==> WithdrawalsPass(p, s, b, images, old(temp.State()))
    ensures ok ==> WithdrawAll(old(temp.State()), p.withdrawBps, b.withdrawals) == Some(temp.State())
  {
    ghost var v := temp.State();
    var t := Claims(images, seq(|b.withdrawalOutputs|, (i: nat) => false), 0);
    NothingClaimed(b.withdrawalOutputs, t.claimed);
    assert images + WithdrawalImages(b.withdrawals)[..0] == images;
    for i := 0 to |b.withdrawals|
      invariant WithdrawalsUpTo(p, s, b, images, v, i, t, temp.State())
    {
      var good, t' := CheckOneWithdrawal(p, s, b, images, v, i, t, temp);
      if !good { return false; }
      t := t';
    }
    AllClaimed(p, s, b, images, v, t, temp.State());
    return |b.withdrawalOutputs| == t.expected;
  }

  lemma SizesAgree(outs: seq<OneTimeOutput>, due: seq<Change>)
    ensures |multiset(due)| == |due| && |AllClaims(outs)| == |outs|
  {
  }

  /** After the last withdrawal nothing is left over exactly when the counts agree. */
  lemma AllClaimed(p: Params, s: NodeState, b: Block, images: seq<KeyImage>, v: Balances, t: Claims, now: Balances)
    requires WithdrawalsUpTo(p, s, b, images, v, |b.withdrawals|, t, now)
    ensures |b.withdrawalOutputs| == t.expected <==> WithdrawalsPass(p, s, b, images, v)
    ensures WithdrawAll(v, p.withdrawBps, b.withdrawals) == Some(now)
  {
    hide WithdrawalOk, ApplyWithdrawal, Canonical;
    var n, outs := |b.withdrawals|, b.withdrawalOutputs;
    assert b.withdrawals[..n] == b.withdrawals && WithdrawalImages(b.withdrawals)[..n] == WithdrawalImages(b.withdrawals);
    ClaimsWithin(outs, t.claimed, Coin(ZERO_KEY, 0));
    SizesAgree(outs, Changes(s.pool, b.withdrawals));
  }

  lemma OneMoreImage(k: Curve, images: seq<KeyImage>, more: seq<KeyImage>, i: nat)
    requires i < |more|
    ensures images + more[..i + 1] == (images + more[..i]) + [more[i]]
    ensures NoDup(CanonicalAll(k, images + more[..i + 1]))
      <==> NoDup(CanonicalAll(k, images + more[..i])) && Canonical(k, more[i]) !in CanonicalAll(k, images + more[..i])
    ensures NoDup(CanonicalAll(k, images + more)) ==> NoDup(CanonicalAll(k, images + more[..i + 1]))
  {
    assert images + more[..i + 1] == (images + more[..i]) + [more[i]];
    ImagesPush(k, images + more[..i], more[i]);
    if NoDup(CanonicalAll(k, images + more)) { ImagesPrefix(k, images + more[..i + 1], images + more); }
  }

  // ---- Authentication ----

  method CheckAuth(p: Params, b: Block) returns (ok: bool)
    ensures ok == AuthOk(p, b)
  {
    if b.deposits != [] {
      if p.authorized == [] { return false; }
      var quorum := VerifyQuorum(p.k, b.header, p.authorized);
      return quorum >= RequiredQuorum(p);
    }
    if p.authorized == [] { return true; }
    if !VerifySignature(p.k, b.header) { return false; }
    ok := Contains(p.authorized, b.header.validatorKey);
  }

  lemma {:induction false} DepositsAudited(v: Balances, bps: U32, deps: seq<DepositReceipt>)
    requires AuditSolvency(v) && DepositAll(v, bps, deps).Some?
    ensures AuditSolvency(DepositAll(v, bps, deps).value)
  {
    if deps != [] { DepositsAudited(v, bps, deps[..|deps| - 1]); }
  }

  lemma {:induction false} WithdrawalsAudited(v: Balances, bps: U32, ws: seq<WithdrawalReceipt>)
    requires AuditSolvency(v) && WithdrawAll(v, bps, ws).Some?
    ensures AuditSolvency(WithdrawAll(v, bps, ws).value)
  {
    if ws != [] { WithdrawalsAudited(v, bps, ws[..|ws| - 1]); }
  }
}
