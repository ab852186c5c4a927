/** The 1:1 vault: checked u64 arithmetic, floor fees, and the object whose three
    balances every deposit, withdrawal and claim moves (include/types.hpp, src/vault.cpp). */
module VaultModel {
  import opened Types
  import opened ByteOrder

  const MAX_TRANSACTION_AMOUNT: U64 := 100_000_000_000_000

  function SafeAdd(a: U64, b: U64): Option<U64> {
    if a + b < TWO_64 then Some(a + b) else None
  }

  function SafeSub(a: U64, b: U64): Option<U64> {
    if a < b then None else Some(a - b)
  }

  /** The 128-bit product and floor division of `safe_fee_calc`; None is its exception. */
  function FeeCalc(amount: U64, bps: U32): (fee: Option<U64>)
    ensures fee.Some? <==> bps <= 10000
    ensures fee.Some? ==> fee.value <= amount
    ensures fee.Some? ==> 10000 * fee.value <= amount * bps <= 10000 * fee.value + 9999
  {
    if bps > 10000 then None else FeeBound(amount, bps); Some(amount * bps / 10000)
  }

  lemma FeeBound(amount: U64, bps: U32)
    requires bps <= 10000
    ensures 0 <= amount * bps / 10000 <= amount
  {
    MulMonotone(amount, bps, 10000);
    DivBound(amount * bps, amount);
  }

  lemma MulMonotone(a: nat, x: nat, y: nat)
    requires x <= y
    ensures 0 <= a * x <= a * y
  {
  }

  lemma DivBound(p: nat, a: nat)
    requires p <= a * 10000
    ensures 0 <= p / 10000 <= a
  {
  }

  predicate IsXDigit(c: Byte) {
    48 <= c <= 57 || 65 <= c <= 70 || 97 <= c <= 102
  }

  /** "0x" or "0X", then 40 hexadecimal digits, not all of them '0'. */
  predicate ValidEvmAddress(a: Text) {
    && |a| == 42 && a[0] == 48 && (a[1] == 120 || a[1] == 88)
    && (forall i :: 2 <= i < 42 ==> IsXDigit(a[i]))
    && (exists i :: 2 <= i < 42 && a[i] != 48)
  }

  method IsValidEvmAddress(addr: Text) returns (ok: bool)
    ensures ok == ValidEvmAddress(addr)
  {
    if |addr| != 42 { return false; }
    if addr[0] != 48 || (addr[1] != 120 && addr[1] != 88) { return false; }
    var allZero := true;
    for i := 2 to 42
      invariant forall j :: 2 <= j < i ==> IsXDigit(addr[j])
      invariant allZero <==> forall j :: 2 <= j < i ==> addr[j] == 48
    {
      if !IsXDigit(addr[i]) { return false; }
      if addr[i] != 48 { allZero := false; }
    }
    return !allZero;
  }

  datatype VaultError =
    | ZeroAmount | AboveLimit | BadRate | BadAddress | NotEnough
    | Insolvent | Arithmetic | InvariantBroken

  datatype Outcome<+T> = Done(value: T) | Refused(error: VaultError)

  /** Fee and net amount of one successful deposit or withdrawal. */
  datatype Split = Split(fee: U64, net: U64)

  predicate Solvent(b: Balances) {
    b.collateral == b.circulating + b.feePool
  }

  /** `audit_solvency`: the u64 sum wraps. */
  predicate AuditSolvency(b: Balances) {
    b.collateral == (b.circulating + b.feePool) % TWO_64
  }

  function ApplyDeposit(b: Balances, bps: U32, gross: U64): (Balances, Outcome<Split>) {
    if gross == 0 then (b, Refused(ZeroAmount)) else
    if gross > MAX_TRANSACTION_AMOUNT then (b, Refused(AboveLimit)) else
    var fee := FeeCalc(gross, bps);
    if fee.None? then (b, Refused(BadRate)) else
    var net := SafeSub(gross, fee.value);
    if net.None? then (b, Refused(Arithmetic)) else
    var col, circ, pool := SafeAdd(b.collateral, gross), SafeAdd(b.circulating, net.value), SafeAdd(b.feePool, fee.value);
    if col.None? || circ.None? || pool.None? then (b, Refused(Arithmetic)) else
    var b' := Balances(col.value, circ.value, pool.value);
    (b', if AuditSolvency(b') then Done(Split(fee.value, net.value)) else Refused(InvariantBroken))
  }

  function ApplyWithdrawal(b: Balances, bps: U32, tokens: U64): (Balances, Outcome<Split>) {
    if tokens == 0 then (b, Refused(ZeroAmount)) else
    if tokens > MAX_TRANSACTION_AMOUNT then (b, Refused(AboveLimit)) else
    if tokens > b.circulating then (b, Refused(NotEnough)) else
    var fee := FeeCalc(tokens, bps);
    if fee.None? then (b, Refused(BadRate)) else
    var net := SafeSub(tokens, fee.value);
    if net.None? then (b, Refused(Arithmetic)) else
    if net.value > b.collateral then (b, Refused(Insolvent)) else
    var circ, col, pool := SafeSub(b.circulating, tokens), SafeSub(b.collateral, net.value), SafeAdd(b.feePool, fee.value);
    if col.None? || circ.None? || pool.None? then (b, Refused(Arithmetic)) else
    var b' := Balances(col.value, circ.value, pool.value);
    (b', if AuditSolvency(b') then Done(Split(fee.value, net.value)) else Refused(InvariantBroken))
  }

  function ApplyClaim(b: Balances, amount: U64, dest: Text): (Balances, Outcome<U64>) {
    if amount == 0 then (b, Refused(ZeroAmount)) else
    if amount > MAX_TRANSACTION_AMOUNT then (b, Refused(AboveLimit)) else
    if !ValidEvmAddress(dest) then (b, Refused(BadAddress)) else
    if amount > b.feePool then (b, Refused(NotEnough)) else
    var col, pool := SafeSub(b.collateral, amount), SafeSub(b.feePool, amount);
    if col.None? || pool.None? then (b, Refused(Arithmetic)) else
    var b' := Balances(col.value, b.circulating, pool.value);
    (b', if AuditSolvency(b') then Done(pool.value) else Refused(InvariantBroken))
  }

  // ---- What one call does to a solvent vault ----

  /** A solvent vault stays solvent, a refused deposit changes nothing, an accepted one
      moves exactly gross, net and fee, and it is refused only for the caller's amount,
      the configured rate, or a balance that would leave u64. */
  lemma DepositOnSolvent(b: Balances, bps: U32, gross: U64)
    requires Solvent(b)
    ensures var (b', r) := ApplyDeposit(b, bps, gross);
      && Solvent(b')
      && (r.Refused? ==> b' == b)
      && (r.Done? ==> b'.collateral == b.collateral + gross && b'.circulating == b.circulating + r.value.net
                      && b'.feePool == b.feePool + r.value.fee && r.value.fee + r.value.net == gross)
      && (r.Done? <==> 0 < gross <= MAX_TRANSACTION_AMOUNT && bps <= 10000 && b.collateral + gross < TWO_64)
      && (r.Refused? ==> r.error !in {Insolvent, NotEnough, BadAddress, InvariantBroken})
  {
    var _ := FeeCalc(gross, bps);
  }

  /** The insolvency, arithmetic and invariant exceptions of a withdrawal cannot be raised
      by a solvent vault: it refuses only a bad amount, a bad rate, or more than circulates. */
  lemma WithdrawOnSolvent(b: Balances, bps: U32, tokens: U64)
    requires Solvent(b)
    ensures var (b', r) := ApplyWithdrawal(b, bps, tokens);
      && Solvent(b')
      && (r.Refused? ==> b' == b && r.error in {ZeroAmount, AboveLimit, NotEnough, BadRate})
      && (r.Done? ==> b'.collateral == b.collateral - r.value.net && b'.circulating == b.circulating - tokens
                      && b'.feePool == b.feePool + r.value.fee && r.value.fee + r.value.net == tokens)
      && (r.Done? <==> 0 < tokens <= MAX_TRANSACTION_AMOUNT && bps <= 10000 && tokens <= b.circulating)
  {
    var _ := FeeCalc(tokens, bps);
  }

  lemma ClaimOnSolvent(b: Balances, amount: U64, dest: Text)
    requires Solvent(b)
    ensures var (b', r) := ApplyClaim(b, amount, dest);
      && Solvent(b') && b'.circulating == b.circulating
      && (r.Refused? ==> b' == b && r.error in {ZeroAmount, AboveLimit, BadAddress, NotEnough})
      && (r.Done? ==> b'.feePool == b.feePool - amount == r.value && b'.collateral == b.collateral - amount)
      && (r.Done? <==> 0 < amount <= MAX_TRANSACTION_AMOUNT && ValidEvmAddress(dest) && amount <= b.feePool)
  {
  }

  // ---- Whole runs ----

  datatype VaultState = VaultState(bal: Balances, depositBps: U32, withdrawBps: U32)

  datatype VaultOp =
    | OpDeposit(gross: U64) | OpWithdraw(tokens: U64) | OpClaim(amount: U64, dest: Text)
    | OpSetFees(newDeposit: U32, newWithdraw: U32)

  function Apply(s: VaultState, op: VaultOp): VaultState {
    match op
    case OpDeposit(g) => s.(bal := ApplyDeposit(s.bal, s.depositBps, g).0)
    case OpWithdraw(t) => s.(bal := ApplyWithdrawal(s.bal, s.withdrawBps, t).0)
    case OpClaim(a, d) => s.(bal := ApplyClaim(s.bal, a, d).0)
    case OpSetFees(d, w) => if d > 1000 || w > 1000 then s else s.(depositBps := d, withdrawBps := w)
  }

  function Run(s: VaultState, ops: seq<VaultOp>): VaultState {
    if ops == [] then s else Apply(Run(s, ops[..|ops| - 1]), ops[|ops| - 1])
  }

  /** The exact fee total of a run in 1/10000ths of a unit, the claims paid, and the
      number of fee-bearing operations that succeeded. */
  datatype Tally = Tally(exact: nat, claimed: nat, count: nat)

  function Count(s: VaultState, op: VaultOp): Tally {
    match op
    case OpDeposit(g) => if ApplyDeposit(s.bal, s.depositBps, g).1.Done? then Tally(g * s.depositBps, 0, 1) else Tally(0, 0, 0)
    case OpWithdraw(t) => if ApplyWithdrawal(s.bal, s.withdrawBps, t).1.Done? then Tally(t * s.withdrawBps, 0, 1) else Tally(0, 0, 0)
    case OpClaim(a, d) => if ApplyClaim(s.bal, a, d).1.Done? then Tally(0, a, 0) else Tally(0, 0, 0)
    case OpSetFees(_, _) => Tally(0, 0, 0)
  }

  function Total(s: VaultState, ops: seq<VaultOp>): Tally {
    if ops == [] then Tally(0, 0, 0) else
    var n := |ops| - 1;
    var t, u := Total(s, ops[..n]), Count(Run(s, ops[..n]), ops[n]);
    Tally(t.exact + u.exact, t.claimed + u.claimed, t.count + u.count)
  }

  /** What one operation adds to the pool and to the tally. */
  lemma CountOne(s: VaultState, op: VaultOp)
    requires Solvent(s.bal)
    ensures var (s', u) := (Apply(s, op), Count(s, op));
      && Solvent(s'.bal)
      && 10000 * (s'.bal.feePool - s.bal.feePool + u.claimed) <= u.exact
      && u.exact <= 10000 * (s'.bal.feePool - s.bal.feePool + u.claimed) + 9999 * u.count
  {
    match op
    case OpDeposit(g) => DepositOnSolvent(s.bal, s.depositBps, g); var _ := FeeCalc(g, s.depositBps);
    case OpWithdraw(t) => WithdrawOnSolvent(s.bal, s.withdrawBps, t); var _ := FeeCalc(t, s.withdrawBps);
    case OpClaim(a, dest) => ClaimOnSolvent(s.bal, a, dest);
    case OpSetFees(_, _) =>
  }

  /** In every run from zero balances, with any rates and any mixture of operations, the
      collateral is the circulating supply plus the fee pool, as integers, and the pool
      plus what was claimed from it falls short of the exact fees by less than one unit
      per operation that bore a fee. */
  lemma {:induction false} RunFromZero(s0: VaultState, ops: seq<VaultOp>)
    requires s0.bal == Balances(0, 0, 0)
    ensures var (s, t) := (Run(s0, ops), Total(s0, ops));
      && Solvent(s.bal)
      && 10000 * (s.bal.feePool + t.claimed) <= t.exact <= 10000 * (s.bal.feePool + t.claimed) + 9999 * t.count
  {
    if ops != [] {
      var n := |ops| - 1;
      RunFromZero(s0, ops[..n]);
      CountOne(Run(s0, ops[..n]), ops[n]);
    }
  }

  // ---- The object ----

  const ZERO_X: Bytes := [48, 120]
  const ORD: Bytes := [79, 82, 68, 45]

  class Vault {
    var collateral: U64
    var circulating: U64
    var feePool: U64
    var depositBps: U32
    var withdrawBps: U32

    function State(): Balances
      reads this
    {
      Balances(collateral, circulating, feePool)
    }

    constructor (depositBps: U32, withdrawBps: U32)
      ensures State() == Balances(0, 0, 0)
      ensures this.depositBps == depositBps && this.withdrawBps == withdrawBps
    {
      collateral, circulating, feePool := 0, 0, 0;
      this.depositBps, this.withdrawBps := depositBps, withdrawBps;
    }

    /** `randomHash` is the random transaction id used when no hash is supplied. */
    method Deposit(gross: U64, customTxHash: Text, randomHash: Key256) returns (r: Outcome<DepositReceipt>)
      modifies this`collateral, this`circulating, this`feePool
      ensures State() == ApplyDeposit(old(State()), depositBps, gross).0
      ensures match ApplyDeposit(old(State()), depositBps, gross).1
        case Refused(e) => r == Refused(e)
        case Done(s) => r == Done(DepositReceipt(gross, s.fee, s.net,
          if customTxHash != [] then customTxHash else ZERO_X + ToHex(randomHash), ZERO_KEY, ZERO_KEY))
    {
      if gross == 0 { return Refused(ZeroAmount); }
      if gross > MAX_TRANSACTION_AMOUNT { return Refused(AboveLimit); }
      var fee := FeeCalc(gross, depositBps);
      if fee.None? { return Refused(BadRate); }
      var net := SafeSub(gross, fee.value);
      if net.None? { return Refused(Arithmetic); }
      var col, circ, pool := SafeAdd(collateral, gross), SafeAdd(circulating, net.value), SafeAdd(feePool, fee.value);
      if col.None? || circ.None? || pool.None? { return Refused(Arithmetic); }
      collateral, circulating, feePool := col.value, circ.value, pool.value;
      if !AuditSolvency(State()) { return Refused(InvariantBroken); }
      var tx: Text := customTxHash;
      if customTxHash == [] {
        var h := ToHexLoop(randomHash);
        tx := ZERO_X + h;
      }
      return Done(DepositReceipt(gross, fee.value, net.value, tx, ZERO_KEY, ZERO_KEY));
    }

    /** `orderBytes` are the 16 random bytes of the order id. */
    method RequestWithdrawal(tokens: U64, orderBytes: Bytes) returns (r: Outcome<WithdrawalReceipt>)
      requires |orderBytes| == 16
      modifies this`collateral, this`circulating, this`feePool
      ensures State() == ApplyWithdrawal(old(State()), withdrawBps, tokens).0
      ensures match ApplyWithdrawal(old(State()), withdrawBps, tokens).1
        case Refused(e) => r == Refused(e)
        case Done(s) => r == Done(WithdrawalReceipt(tokens, s.fee, s.net, ORD + ToHex(orderBytes), [],
          ZERO_KEY, ZERO_KEY, ZERO_KEY, ZERO_KEY, ZERO_KEY))
    {
      if tokens == 0 { return Refused(ZeroAmount); }
      if tokens > MAX_TRANSACTION_AMOUNT { return Refused(AboveLimit); }
      if tokens > circulating { return Refused(NotEnough); }
      var fee := FeeCalc(tokens, withdrawBps);
      if fee.None? { return Refused(BadRate); }
      var net := SafeSub(tokens, fee.value);
      if net.None? { return Refused(Arithmetic); }
      if net.value > collateral { return Refused(Insolvent); }
      var circ, col, pool := SafeSub(circulating, tokens), SafeSub(collateral, net.value), SafeAdd(feePool, fee.value);
      if col.None? || circ.None? || pool.None? { return Refused(Arithmetic); }
      circulating, collateral, feePool := circ.value, col.value, pool.value;
      if !AuditSolvency(State()) { return Refused(InvariantBroken); }
      var h := ToHexLoop(orderBytes);
      return Done(WithdrawalReceipt(tokens, fee.value, net.value, ORD + h, [],
        ZERO_KEY, ZERO_KEY, ZERO_KEY, ZERO_KEY, ZERO_KEY));
    }

    method ClaimFees(amount: U64, dest: Text) returns (r: Outcome<U64>)
      modifies this`collateral, this`feePool
      ensures (State(), r) == ApplyClaim(old(State()), amount, dest)
    {
      if amount == 0 { return Refused(ZeroAmount); }
      if amount > MAX_TRANSACTION_AMOUNT { return Refused(AboveLimit); }
      var ok := IsValidEvmAddress(dest);
      if !ok { return Refused(BadAddress); }
      if amount > feePool { return Refused(NotEnough); }
      var col, pool := SafeSub(collateral, amount), SafeSub(feePool, amount);
      if col.None? || pool.None? { return Refused(Arithmetic); }
      collateral, feePool := col.value, pool.value;
      if !AuditSolvency(State()) { return Refused(InvariantBroken); }
      return Done(feePool);
    }

    /** The balances are overwritten before the check; false is the exception. */
    method RestoreState(b: Balances) returns (ok: bool)
      modifies this`collateral, this`circulating, this`feePool
      ensures State() == b && ok == AuditSolvency(b)
    {
      collateral, circulating, feePool := b.collateral, b.circulating, b.feePool;
      return AuditSolvency(State());
    }

    method SetFeeBps(d: U32, w: U32) returns (ok: bool)
      modifies this`depositBps, this`withdrawBps
      ensures ok == (d <= 1000 && w <= 1000)
      ensures VaultState(State(), depositBps, withdrawBps)
        == Apply(VaultState(old(State()), old(depositBps), old(withdrawBps)), OpSetFees(d, w))
    {
      if d > 1000 || w > 1000 { return false; }
      depositBps, withdrawBps := d, w;
      return true;
    }
  }
}
