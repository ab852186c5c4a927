/** The outbound relayer: withdrawal orders of the confidential chain are paid by a contract
    that executes each order at most once, across RPC failures, lost confirmations, crashes
    and damaged state files (contracts/scripts/oracle_listener.js:343-531). */
module Relayer {
  import opened Types
  import opened Sequences
  import opened StateFile

  // ---- The world around the relayer ----

  /** A withdrawal as a block reports it; `goodAddress` is what the public chain's library says of
      the recipient. */
  datatype Order = Order(id: Text, recipient: Text, amount: nat, fee: nat, goodAddress: bool)

  /** What the contract is asked to pay for an order, and pays. */
  datatype Payment = Payment(id: Text, recipient: Text, amount: nat, fee: nat)

  function PaymentOf(o: Order): Payment { Payment(o.id, o.recipient, o.amount, o.fee) }

  function IdsPaid(ps: seq<Payment>): (r: seq<Text>)
    ensures |r| == |ps| && forall i :: 0 <= i < |r| ==> r[i] == ps[i].id
  {
    seq<Text>(|ps|, i requires 0 <= i < |ps| => ps[i].id)
  }

  /** The withdrawals of each block of the chain; blocks deep enough do not change. */
  type Orders = nat -> seq<Order>

  /** The contract: which orders are executed, the payments made, and transactions that were
      broadcast and may still land. */
  datatype Contract = Contract(executed: set<Text>, paid: seq<Payment>, pending: set<Payment>)

  /** A broadcast transaction is executed, unless its order has been. */
  function Land(c: Contract, pay: Payment): Contract {
    if pay.id in c.executed then c else c.(executed := c.executed + {pay.id}, paid := c.paid + [pay])
  }

  /** How the calls for one order go: the first read of the executed flag, the preparation and
      signature, the broadcast, the confirmation; and when that fails, whether a broadcast
      transaction of the order lands all the same and whether the failure is recognised as
      an order already executed. */
  datatype Calls = Calls(read: bool, prepared: bool, broadcast: bool, confirmed: bool, landed: bool, recognised: bool)

  // ---- The relayer's state ----

  datatype Task = Idle | Fetching(h: nat, max: nat) | Scanning(h: nat, max: nat, queue: seq<Order>)

  datatype Memory = Memory(height: nat, processed: seq<Text>, quarantined: seq<Text>, failures: map<Text, nat>, task: Task)

  datatype File = Absent | Damaged | Saved(height: nat, processed: seq<Text>, quarantined: seq<Text>)

  /** `ever` remembers every order that was quarantined: the saved list keeps the last 5000. */
  datatype World = World(contract: Contract, file: File, mem: Option<Memory>, ever: set<Text>)

  const MAX_FAILURES: nat := 3

  function SaveFile(m: Memory): File { Saved(m.height, LastOf(m.processed, KEEP), LastOf(m.quarantined, KEEP)) }

  function WithFile(f: File, m: Memory, saved: bool): File {
    if saved then SaveFile(m) else f
  }

  function Load(f: File): Memory {
    match f
    case Saved(height, processed, quarantined) => Memory(height, processed, quarantined, map[], Idle)
    case _ => Memory(0, [], [], map[], Idle)
  }

  /** What one order does to memory and contract; false stops the scan of the block. */
  function Attempt(c: Contract, m: Memory, o: Order, calls: Calls): (Contract, Memory, bool) {
    if o.id == [] || o.id in m.processed || o.id in m.quarantined then (c, m, true) else
    if !calls.read then (c, m, false) else
    if o.id in c.executed then (c, m.(processed := Insert(m.processed, o.id)), true) else
    if !o.goodAddress || o.amount == 0 then (c, m.(quarantined := Insert(m.quarantined, o.id)), true) else
    if !calls.prepared then (c, m, false) else
    if calls.broadcast && calls.confirmed then (Land(c, PaymentOf(o)), m.(processed := Insert(m.processed, o.id)), true) else
    var c' := Broadcast(c, PaymentOf(o), calls);
    if calls.recognised && o.id in c'.executed then (c', m.(processed := Insert(m.processed, o.id)), true) else
    var (m', go) := Failed(m, o.id);
    (c', m', go)
  }

  /** A transaction whose confirmation was lost stays pending, or has landed already. */
  function Broadcast(c: Contract, pay: Payment, calls: Calls): Contract {
    var c' := if calls.broadcast then c.(pending := c.pending + {pay}) else c;
    if calls.landed && pay in c'.pending then Land(c', pay) else c'
  }

  /** A failed order is counted and left in place, and quarantined the third time. */
  function Failed(m: Memory, id: Text): (Memory, bool) {
    var fails := (if id in m.failures then m.failures[id] else 0) + 1;
    var m' := m.(failures := m.failures[id := fails]);
    if fails >= MAX_FAILURES then (m'.(quarantined := Insert(m'.quarantined, id)), true) else (m', false)
  }

  /** What the running process does between two awaits. */
  datatype Action =
    | Poll(safe: nat, answered: bool)      // the height that is deep enough is queried
    | Fetch(answered: bool)                // the next block is fetched
    | Next(calls: Calls)                   // the next order of the block
    | EndBlock(saved: bool)                // the block is done
    | SaveInbound(saved: bool)             // the other poll writes the file

  datatype Move =
    | Boot
    | Crash(damaged: bool)
    | Landing(pay: Payment)                // a pending transaction lands at last
    | Act(action: Action)

  function Step(orders: Orders, w: World, move: Move): World {
    match move
    case Boot => if w.mem.Some? then w else w.(mem := Some(Load(w.file)))
    case Crash(damaged) => w.(mem := None, file := if damaged then Damaged else w.file)
    case Landing(pay) => if pay in w.contract.pending then w.(contract := Land(w.contract, pay)) else w
    case Act(action) => if w.mem.None? then w else Perform(orders, w, w.mem.value, action)
  }

  function Perform(orders: Orders, w: World, m: Memory, action: Action): World {
    match action
    case Poll(safe, answered) =>
      if !m.task.Idle? || !answered || m.height + 1 > safe then w
      else w.(mem := Some(m.(task := Fetching(m.height + 1, safe))))
    case Fetch(answered) => if m.task.Fetching? then w.(mem := Some(FetchBlock(orders, m, answered))) else w
    case Next(calls) => if m.task.Scanning? && m.task.queue != [] then NextOrder(w, m, calls) else w
    case EndBlock(saved) => if m.task.Scanning? && m.task.queue == [] then CloseBlock(w, m, saved) else w
    case SaveInbound(saved) => w.(file := WithFile(w.file, m, saved))
  }

  function FetchBlock(orders: Orders, m: Memory, answered: bool): Memory
    requires m.task.Fetching?
  {
    m.(task := if answered then Scanning(m.task.h, m.task.max, orders(m.task.h)) else Idle)
  }

  function NextOrder(w: World, m: Memory, calls: Calls): World
    requires m.task.Scanning? && m.task.queue != []
  {
    var (c, m', go) := Attempt(w.contract, m, m.task.queue[0], calls);
    var m'' := m'.(task := if go then Scanning(m.task.h, m.task.max, m.task.queue[1..]) else Idle);
    w.(contract := c, mem := Some(m''), ever := w.ever + Elements(m'.quarantined))
  }

  function CloseBlock(w: World, m: Memory, saved: bool): World
    requires m.task.Scanning?
  {
    var next := if m.task.h < m.task.max then Fetching(m.task.h + 1, m.task.max) else Idle;
    var m' := m.(height := m.task.h, task := next);
    w.(mem := Some(m'), file := WithFile(w.file, m', saved))
  }

  function Run(orders: Orders, w: World, moves: seq<Move>): World {
    if moves == [] then w else Step(orders, Run(orders, w, moves[..|moves| - 1]), moves[|moves| - 1])
  }

  // ---- Safety ----

  /** The payment to its recipient, of its amount and fee, of an order of the chain that names an
      address and an amount. */
  ghost predicate Due(orders: Orders, pay: Payment) {
    exists h: nat, o: Order :: h >= 1 && o in orders(h) && o.goodAddress && o.amount > 0
      && pay == Payment(o.id, o.recipient, o.amount, o.fee)
  }

  ghost predicate ContractOk(orders: Orders, c: Contract) {
    && NoDup(IdsPaid(c.paid)) && c.executed == Elements(IdsPaid(c.paid))
    && forall pay :: pay in c.paid || pay in c.pending ==> Due(orders, pay)
  }

  ghost predicate Settled(w: World, id: Text) {
    id == [] || id in w.contract.executed || id in w.ever
  }

  /** Every order up to this height is executed on chain or was quarantined. */
  ghost predicate SettledUpTo(orders: Orders, w: World, height: nat) {
    forall h: nat, o: Order :: 1 <= h <= height && o in orders(h) ==> Settled(w, o.id)
  }

  ghost predicate Lists(w: World, processed: seq<Text>, quarantined: seq<Text>) {
    (forall id :: id in processed ==> id in w.contract.executed) && (forall id :: id in quarantined ==> id in w.ever)
  }

  ghost predicate TaskOk(orders: Orders, w: World, m: Memory) {
    match m.task
    case Idle => true
    case Fetching(h, max) => h == m.height + 1 && h <= max
    case Scanning(h, max, queue) =>
      && h == m.height + 1 && h <= max
      && (forall o :: o in queue ==> o in orders(h))
      && (forall o :: o in orders(h) ==> o in queue || Settled(w, o.id))
  }

  ghost predicate MemoryOk(orders: Orders, w: World, m: Memory) {
    && SettledUpTo(orders, w, m.height) && Lists(w, m.processed, m.quarantined) && TaskOk(orders, w, m)
    && (forall id :: id in m.failures && m.failures[id] >= MAX_FAILURES ==> id in m.quarantined)
  }

  ghost predicate FileOk(orders: Orders, w: World) {
    w.file.Saved? ==> SettledUpTo(orders, w, w.file.height) && Lists(w, w.file.processed, w.file.quarantined)
  }

  ghost predicate Inv(orders: Orders, w: World) {
    && ContractOk(orders, w.contract) && FileOk(orders, w)
    && (w.mem.Some? ==> MemoryOk(orders, w, w.mem.value))
  }

  /** More executed and more quarantined orders, the same memory and file. */
  ghost predicate Grows(w: World, v: World) {
    w.contract.executed <= v.contract.executed && w.ever <= v.ever && w.file == v.file
  }

  lemma GrowingKeeps(orders: Orders, w: World, v: World, m: Memory)
    requires Grows(w, v)
    ensures MemoryOk(orders, w, m) ==> MemoryOk(orders, v, m)
    ensures FileOk(orders, w) ==> FileOk(orders, v)
  {
    assert forall id :: Settled(w, id) ==> Settled(v, id);
  }

  lemma LandKeeps(orders: Orders, c: Contract, pay: Payment)
    requires ContractOk(orders, c) && Due(orders, pay)
    ensures ContractOk(orders, Land(c, pay)) && c.executed <= Land(c, pay).executed && pay.id in Land(c, pay).executed
  {
    if pay.id !in c.executed {
      var ids := IdsPaid(c.paid);
      assert IdsPaid(c.paid + [pay]) == ids + [pay.id];
      NoDupConcat(ids, [pay.id]);
      assert Elements([pay.id]) == {pay.id};
      ElementsConcat(ids, [pay.id]);
    }
  }

  lemma BroadcastKeeps(orders: Orders, c: Contract, pay: Payment, calls: Calls)
    requires ContractOk(orders, c) && Due(orders, pay)
    ensures ContractOk(orders, Broadcast(c, pay, calls)) && c.executed <= Broadcast(c, pay, calls).executed
  {
    var c' := if calls.broadcast then c.(pending := c.pending + {pay}) else c;
    assert ContractOk(orders, c');
    LandKeeps(orders, c', pay);
  }

  /** What one order does: the contract stays sound, the lists stay true, and an order the
      scan goes past is executed or quarantined. */
  lemma AttemptKeeps(orders: Orders, c: Contract, m: Memory, o: Order, h: nat, calls: Calls)
    requires ContractOk(orders, c) && h >= 1 && o in orders(h)
    requires forall id :: id in m.processed ==> id in c.executed
    requires forall id :: id in m.failures && m.failures[id] >= MAX_FAILURES ==> id in m.quarantined
    ensures var (c', m', go) := Attempt(c, m, o, calls);
      && ContractOk(orders, c') && c.executed <= c'.executed
      && (forall id :: id in m'.processed ==> id in c'.executed)
      && (forall id :: id in m.quarantined ==> id in m'.quarantined)
      && (forall id :: id in m'.failures && m'.failures[id] >= MAX_FAILURES ==> id in m'.quarantined)
      && (go ==> o.id == [] || o.id in c'.executed || o.id in m'.quarantined)
      && m'.height == m.height && m'.task == m.task
  {
    if o.goodAddress && o.amount > 0 {
      assert Due(orders, PaymentOf(o));
      LandKeeps(orders, c, PaymentOf(o));
      BroadcastKeeps(orders, c, PaymentOf(o), calls);
    }
  }

  lemma NextKeeps(orders: Orders, w: World, m: Memory, calls: Calls)
    requires Inv(orders, w) && w.mem == Some(m) && m.task.Scanning? && m.task.queue != []
    ensures Inv(orders, NextOrder(w, m, calls))
  {
    var o, rest := m.task.queue[0], m.task.queue[1..];
    var (c, m', go) := Attempt(w.contract, m, o, calls);
    AttemptKeeps(orders, w.contract, m, o, m.task.h, calls);
    var v := w.(contract := c, ever := w.ever + Elements(m'.quarantined));
    GrowingKeeps(orders, w, v, m);
    assert forall x :: x in m.task.queue ==> x == o || x in rest;
    hide Attempt, Settled;
    if go { assert Settled(v, o.id) by { SettledIs(v, o.id); } }
  }

  lemma SettledIs(w: World, id: Text)
    requires id == [] || id in w.contract.executed || id in w.ever
    ensures Settled(w, id)
  {
  }

  lemma CloseKeeps(orders: Orders, w: World, m: Memory, saved: bool)
    requires Inv(orders, w) && w.mem == Some(m) && m.task.Scanning? && m.task.queue == []
    ensures Inv(orders, CloseBlock(w, m, saved))
  {
    var v := CloseBlock(w, m, saved);
    assert forall id :: Settled(w, id) <==> Settled(v, id);
    assert SettledUpTo(orders, w, m.task.h);
    SaveKeeps(orders, w, v.mem.value, saved);
  }

  lemma SaveKeeps(orders: Orders, w: World, m: Memory, saved: bool)
    requires FileOk(orders, w) && SettledUpTo(orders, w, m.height) && Lists(w, m.processed, m.quarantined)
    ensures FileOk(orders, w.(file := WithFile(w.file, m, saved)))
  {
    var v := w.(file := WithFile(w.file, m, saved));
    assert forall id :: Settled(w, id) <==> Settled(v, id);
    assert forall x :: x in LastOf(m.processed, KEEP) ==> x in m.processed;
    assert forall x :: x in LastOf(m.quarantined, KEEP) ==> x in m.quarantined;
  }

  lemma PerformKeeps(orders: Orders, w: World, m: Memory, action: Action)
    requires Inv(orders, w) && w.mem == Some(m)
    ensures Inv(orders, Perform(orders, w, m, action))
  {
    match action
    case Poll(_, _) =>
    case Fetch(_) =>
    case Next(calls) => if m.task.Scanning? && m.task.queue != [] { NextKeeps(orders, w, m, calls); }
    case EndBlock(saved) => if m.task.Scanning? && m.task.queue == [] { CloseKeeps(orders, w, m, saved); }
    case SaveInbound(saved) => SaveKeeps(orders, w, m, saved);
  }

  lemma StepKeeps(orders: Orders, w: World, move: Move)
    requires Inv(orders, w)
    ensures Inv(orders, Step(orders, w, move))
  {
    match move
    case Boot =>
    case Crash(_) =>
    case Landing(pay) =>
      if pay in w.contract.pending {
        LandKeeps(orders, w.contract, pay);
        if w.mem.Some? { GrowingKeeps(orders, w, w.(contract := Land(w.contract, pay)), w.mem.value); }
        GrowingKeeps(orders, w, w.(contract := Land(w.contract, pay)), Load(Absent));
      }
    case Act(action) => if w.mem.Some? { PerformKeeps(orders, w, w.mem.value, action); }
  }

  const FRESH: World := World(Contract({}, [], {}), Absent, None, {})

  /** Safety: along every run, whatever fails, crashes, lands late or is damaged, every order
      with an id at or below the height cursor, in memory or on file, has been executed on
      chain or was quarantined; only orders of the chain with an address and an amount are
      paid, each to its recipient with its amount and fee, and none twice. */
  lemma {:induction false} RelayerSafe(orders: Orders, moves: seq<Move>)
    ensures Inv(orders, Run(orders, FRESH, moves))
  {
    if moves != [] {
      RelayerSafe(orders, moves[..|moves| - 1]);
      StepKeeps(orders, Run(orders, FRESH, moves[..|moves| - 1]), moves[|moves| - 1]);
    }
  }

  // ---- Progress ----

  /** The ids of the orders in the blocks from..to. */
  function Ids(orders: Orders, from: nat, to: nat): seq<Text>
    decreases 1 + to - from
  {
    if from > to then [] else IdsOf(orders(from)) + Ids(orders, from + 1, to)
  }

  function IdsOf(os: seq<Order>): (r: seq<Text>)
    ensures |r| == |os| && forall i :: 0 <= i < |r| ==> r[i] == os[i].id
  {
    seq<Text>(|os|, i requires 0 <= i < |os| => os[i].id)
  }

  /** The failures an order has left before quarantine. */
  function Left(m: Memory, id: Text): nat {
    if id in m.processed || id in m.quarantined || (id in m.failures && m.failures[id] >= MAX_FAILURES) then 0
    else MAX_FAILURES - (if id in m.failures then m.failures[id] else 0)
  }

  function SumLeft(m: Memory, ids: seq<Text>): nat {
    if ids == [] then 0 else SumLeft(m, ids[..|ids| - 1]) + Left(m, ids[|ids| - 1])
  }

  /** Blocks to scan and failures left in them. */
  function Work(orders: Orders, m: Memory, max: nat): nat {
    (if m.height <= max then max - m.height else 0) + SumLeft(m, Ids(orders, m.height + 1, max))
  }

  lemma {:induction false} SumMonotone(m: Memory, n: Memory, ids: seq<Text>)
    requires forall id :: Left(n, id) <= Left(m, id)
    ensures SumLeft(n, ids) <= SumLeft(m, ids)
    ensures (exists id :: id in ids && Left(n, id) < Left(m, id)) ==> SumLeft(n, ids) < SumLeft(m, ids)
  {
    if ids != [] {
      var init, last := ids[..|ids| - 1], ids[|ids| - 1];
      SumMonotone(m, n, init);
      assert forall id :: id in ids <==> id in init || id == last;
    }
  }

  lemma {:induction false} SumConcat(m: Memory, a: seq<Text>, b: seq<Text>)
    ensures SumLeft(m, a + b) == SumLeft(m, a) + SumLeft(m, b)
  {
    if b == [] {
      assert a + b == a;
    } else {
      SumConcat(m, a, b[..|b| - 1]);
      assert (a + b)[..|a + b| - 1] == a + b[..|b| - 1];
    }
  }

  /** All the reads for an order succeed. */
  predicate ReadsSucceed(calls: Calls) { calls.read && calls.prepared }

  /** An order leaves no failure count lower than before, and if it stops the scan its own is
      one higher. */
  lemma AttemptProgress(c: Contract, m: Memory, o: Order, calls: Calls)
    requires ReadsSucceed(calls)
    ensures var (c', m', go) := Attempt(c, m, o, calls);
      && (forall id :: Left(m', id) <= Left(m, id)) && (!go ==> Left(m', o.id) < Left(m, o.id))
      && m'.height == m.height && m'.task == m.task
  {
  }

  /** The rest of a poll whose reads succeed; calls i is the answer to the i-th order. */
  function Drain(orders: Orders, w: World, m: Memory, calls: nat -> Calls, fetched: nat -> bool, i: nat, saved: bool): World
    decreases RestOfPoll(m.task), if m.task.Scanning? then |m.task.queue| else 0
  {
    match m.task
    case Idle => w
    case Fetching(h, max) =>
      if h > max then w else
      var m' := FetchBlock(orders, m, fetched(h));
      Drain(orders, w.(mem := Some(m')), m', calls, fetched, i, saved)
    case Scanning(h, max, queue) =>
      if h > max then w else
      var w' := if queue == [] then CloseBlock(w, m, saved) else NextOrder(w, m, calls(i));
      Drain(orders, w', w'.mem.value, calls, fetched, i + 1, saved)
  }

  /** Blocks still ahead in the poll, counting fetching and scanning apart. */
  function RestOfPoll(t: Task): nat {
    match t
    case Idle => 0
    case Fetching(h, max) => if h <= max then 2 * (max - h) + 2 else 0
    case Scanning(h, max, _) => if h <= max then 2 * (max - h) + 1 else 0
  }

  /** In the middle of a poll, at the block after the cursor. */
  ghost predicate Midway(orders: Orders, m: Memory, max: nat) {
    match m.task
    case Idle => false
    case Fetching(h, top) => h == m.height + 1 && h <= top == max
    case Scanning(h, top, queue) => h == m.height + 1 && h <= top == max && forall o :: o in queue ==> o in orders(h)
  }

  lemma SameLists(m: Memory, n: Memory, ids: seq<Text>)
    requires n == m.(height := n.height, task := n.task)
    ensures SumLeft(n, ids) == SumLeft(m, ids)
  {
    SumMonotone(m, n, ids);
    SumMonotone(n, m, ids);
  }

  lemma OrderCounts(orders: Orders, m: Memory, o: Order, max: nat)
    requires o in orders(m.height + 1) && m.height + 1 <= max
    ensures o.id in Ids(orders, m.height + 1, max)
  {
    var os := orders(m.height + 1);
    var i :| 0 <= i < |os| && os[i] == o;
    assert IdsOf(os)[i] == o.id;
  }

  lemma CloseProgress(orders: Orders, w: World, m: Memory, max: nat, saved: bool)
    requires Midway(orders, m, max) && m.task.Scanning?
    ensures Work(orders, CloseBlock(w, m, saved).mem.value, max) < Work(orders, m, max)
  {
    var n := CloseBlock(w, m, saved).mem.value;
    SumConcat(m, IdsOf(orders(m.height + 1)), Ids(orders, m.height + 2, max));
    SameLists(m, n, Ids(orders, m.height + 2, max));
  }

  lemma NextProgress(orders: Orders, w: World, m: Memory, max: nat, calls: Calls)
    requires Midway(orders, m, max) && m.task.Scanning? && m.task.queue != [] && ReadsSucceed(calls)
    ensures var n := NextOrder(w, m, calls).mem.value;
      && Work(orders, n, max) <= Work(orders, m, max) && n.height == m.height
      && (if n.task.Idle? then Work(orders, n, max) < Work(orders, m, max)
          else n.task == Scanning(m.task.h, m.task.max, m.task.queue[1..]))
  {
    hide Attempt, NextOrder, Left, Work;
    var o := m.task.queue[0];
    AttemptProgress(w.contract, m, o, calls);
    NextShape(w, m, calls);
    OrderCounts(orders, m, o, max);
    WorkShrinks(orders, m, NextOrder(w, m, calls).mem.value, max, o.id);
  }

  lemma NextShape(w: World, m: Memory, calls: Calls)
    requires m.task.Scanning? && m.task.queue != []
    ensures NextOrder(w, m, calls).mem.Some?
    ensures var (c, m', go) := Attempt(w.contract, m, m.task.queue[0], calls);
      var n := NextOrder(w, m, calls).mem.value;
      && n.height == m'.height && n.task == (if go then Scanning(m.task.h, m.task.max, m.task.queue[1..]) else Idle)
      && forall id :: Left(n, id) == Left(m', id)
  {
    hide Attempt;
  }

  /** Fewer failures left make less work. */
  lemma WorkShrinks(orders: Orders, m: Memory, n: Memory, max: nat, id: Text)
    requires n.height == m.height && id in Ids(orders, m.height + 1, max) && forall x :: Left(n, x) <= Left(m, x)
    ensures Work(orders, n, max) <= Work(orders, m, max)
    ensures Left(n, id) < Left(m, id) ==> Work(orders, n, max) < Work(orders, m, max)
  {
    hide Left;
    SumMonotone(m, n, Ids(orders, m.height + 1, max));
  }

  /** Progress: a poll that has work and whose reads succeed decreases the work, because it
      either gets past a block or uses up a failure of an order, of which each has three. */
  lemma {:induction false} PollProgresses(orders: Orders, w: World, m: Memory, max: nat, calls: nat -> Calls, fetched: nat -> bool, i: nat, saved: bool)
    requires w.mem == Some(m) && Midway(orders, m, max)
    requires (forall j :: ReadsSucceed(calls(j))) && forall h :: fetched(h)
    ensures var v := Drain(orders, w, m, calls, fetched, i, saved);
      v.mem.Some? && Work(orders, v.mem.value, max) < Work(orders, m, max)
    decreases RestOfPoll(m.task), if m.task.Scanning? then |m.task.queue| else 0
  {
    hide Attempt, Work;
    match m.task
    case Idle =>
    case Fetching(h, _) =>
      var m' := FetchBlock(orders, m, true);
      assert fetched(h);
      WorkAnyTask(orders, m, m', max);
      PollProgresses(orders, w.(mem := Some(m')), m', max, calls, fetched, i, saved);
    case Scanning(h, _, queue) =>
      if queue == [] {
        CloseProgress(orders, w, m, max, saved);
        var w' := CloseBlock(w, m, saved);
        if w'.mem.value.task.Fetching? { PollProgresses(orders, w', w'.mem.value, max, calls, fetched, i + 1, saved); }
      } else {
        NextProgress(orders, w, m, max, calls(i));
        var w' := NextOrder(w, m, calls(i));
        if w'.mem.value.task.Scanning? { PollProgresses(orders, w', w'.mem.value, max, calls, fetched, i + 1, saved); }
      }
  }

  lemma WorkAnyTask(orders: Orders, m: Memory, n: Memory, max: nat)
    requires n == m.(task := n.task)
    ensures Work(orders, n, max) == Work(orders, m, max)
  {
    SameLists(m, n, Ids(orders, m.height + 1, max));
  }

  /** What every step keeps, a whole poll keeps. */
  lemma {:induction false} PollKeeps(orders: Orders, w: World, m: Memory, calls: nat -> Calls, fetched: nat -> bool, i: nat, saved: bool)
    requires Inv(orders, w) && w.mem == Some(m)
    ensures Inv(orders, Drain(orders, w, m, calls, fetched, i, saved))
    decreases RestOfPoll(m.task), if m.task.Scanning? then |m.task.queue| else 0
  {
    hide Inv, NextOrder, CloseBlock;
    match m.task
    case Idle =>
    case Fetching(h, max) =>
      if h <= max {
        var m' := FetchBlock(orders, m, fetched(h));
        PerformKeeps(orders, w, m, Fetch(fetched(h)));
        PollKeeps(orders, w.(mem := Some(m')), m', calls, fetched, i, saved);
      }
    case Scanning(h, max, queue) =>
      if h <= max {
        var w' := if queue == [] then CloseBlock(w, m, saved) else NextOrder(w, m, calls(i));
        PerformKeeps(orders, w, m, if queue == [] then EndBlock(saved) else Next(calls(i)));
        StaysInPoll(w, m, calls(i), saved);
        PollKeeps(orders, w', w'.mem.value, calls, fetched, i + 1, saved);
      }
  }

  lemma StaysInPoll(w: World, m: Memory, calls: Calls, saved: bool)
    requires m.task.Scanning? && m.task.h <= m.task.max
    ensures var w' := if m.task.queue == [] then CloseBlock(w, m, saved) else NextOrder(w, m, calls);
      w'.mem.Some? && var t := w'.mem.value.task;
      RestOfPoll(t) < RestOfPoll(m.task) || (t.Scanning? && RestOfPoll(t) == RestOfPoll(m.task) && |t.queue| < |m.task.queue|)
  {
  }

  // ---- Payment ----

  /** Every call for an order succeeds. */
  predicate AllSucceed(calls: Calls) { calls.read && calls.prepared && calls.broadcast && calls.confirmed }

  predicate CanBePaid(o: Order) { o.id != [] && o.goodAddress && o.amount > 0 }

  /** Payment: an order that can be paid, has not been handled and is not executed is paid when its
      calls succeed, exactly once, and marked as processed; nothing else is paid or quarantined. */
  lemma PaysOnce(c: Contract, m: Memory, o: Order, calls: Calls)
    requires CanBePaid(o) && o.id !in m.processed && o.id !in m.quarantined && o.id !in c.executed && AllSucceed(calls)
    requires c.executed == Elements(IdsPaid(c.paid))
    ensures var (c', m', go) := Attempt(c, m, o, calls);
      && go && c'.executed == c.executed + {o.id} && o.id in m'.processed && o.id !in m'.quarantined
      && c'.paid == c.paid + [Payment(o.id, o.recipient, o.amount, o.fee)] && multiset(IdsPaid(c'.paid))[o.id] == 1
      && m'.quarantined == m.quarantined && m'.failures == m.failures
  {
    assert o.id !in multiset(IdsPaid(c.paid));
    assert IdsPaid(c.paid + [PaymentOf(o)]) == IdsPaid(c.paid) + [o.id];
  }

  /** An order of the chain without an address or an amount bears this id. */
  ghost predicate Unpayable(orders: Orders, id: Text) {
    exists h: nat, o: Order :: h >= 1 && o in orders(h) && o.id == id && !(o.goodAddress && o.amount > 0)
  }

  /** This move is an attempt to pay the order that fails: it can be paid and has not been, the
      reads succeed, but the payment is not confirmed and is not seen to have been executed. */
  ghost predicate Fails(w: World, id: Text, move: Move) {
    && w.mem.Some? && move.Act? && move.action.Next?
    && var m, calls := w.mem.value, move.action.calls;
    && m.task.Scanning? && m.task.queue != []
    && var o := m.task.queue[0];
    && o.id == id && CanBePaid(o) && id !in m.processed && id !in m.quarantined && id !in w.contract.executed
    && calls.read && calls.prepared && !(calls.broadcast && calls.confirmed)
    && !(calls.recognised && calls.landed && (calls.broadcast || PaymentOf(o) in w.contract.pending))
  }

  /** The failed attempts to pay an order in the life of the process that runs at the end. */
  ghost function Failures(orders: Orders, moves: seq<Move>, id: Text): nat {
    if moves == [] then 0 else
    var n := |moves| - 1;
    var w := Run(orders, FRESH, moves[..n]);
    if moves[n].Boot? && w.mem.None? then 0
    else Failures(orders, moves[..n], id) + if Fails(w, id, moves[n]) then 1 else 0
  }

  function CountOf(m: Memory, id: Text): nat { if id in m.failures then m.failures[id] else 0 }

  lemma StepCounts(orders: Orders, w: World, move: Move, id: Text)
    ensures var v := Step(orders, w, move);
      v.mem.Some? ==> if move.Boot? && w.mem.None? then CountOf(v.mem.value, id) == 0
        else w.mem.Some? && CountOf(v.mem.value, id) == CountOf(w.mem.value, id) + if Fails(w, id, move) then 1 else 0
  {
  }

  lemma {:induction false} FailuresCounted(orders: Orders, moves: seq<Move>, id: Text)
    ensures var w := Run(orders, FRESH, moves); w.mem.Some? ==> CountOf(w.mem.value, id) == Failures(orders, moves, id)
  {
    if moves != [] {
      var n := |moves| - 1;
      FailuresCounted(orders, moves[..n], id);
      StepCounts(orders, Run(orders, FRESH, moves[..n]), moves[n], id);
    }
  }

  /** An order newly quarantined cannot be paid, or has failed for the third time. */
  lemma StepQuarantines(orders: Orders, w: World, move: Move, id: Text)
    requires Inv(orders, w) && id in Step(orders, w, move).ever && id !in w.ever
    ensures Unpayable(orders, id) || (Fails(w, id, move) && CountOf(w.mem.value, id) + 1 >= 3)
  {
    var m := w.mem.value;
    var o := m.task.queue[0];
    assert id in Attempt(w.contract, m, o, move.action.calls).1.quarantined && id !in m.quarantined;
    assert o in orders(m.task.h);
  }

  /** No order is quarantined without cause: along every run, every order ever quarantined bears
      the id of one without an address or an amount, or some process had failed three times to
      pay it. */
  lemma {:induction false} QuarantinedForCause(orders: Orders, moves: seq<Move>, id: Text)
    requires id in Run(orders, FRESH, moves).ever
    ensures Unpayable(orders, id) || exists n: nat :: n <= |moves| && Failures(orders, moves[..n], id) >= 3
  {
    var n := |moves| - 1;
    var w := Run(orders, FRESH, moves[..n]);
    if id in w.ever {
      QuarantinedForCause(orders, moves[..n], id);
      if k: nat :| k <= n && Failures(orders, moves[..n][..k], id) >= 3 { assert moves[..n][..k] == moves[..k]; }
    } else {
      RelayerSafe(orders, moves[..n]);
      StepQuarantines(orders, w, moves[n], id);
      FailuresCounted(orders, moves[..n], id);
      assert moves[..|moves|] == moves;
    }
  }

  lemma NextPays(orders: Orders, w: World, m: Memory, calls: Calls)
    requires Inv(orders, w) && w.mem == Some(m) && m.task.Scanning? && m.task.queue != [] && AllSucceed(calls)
    ensures var v := NextOrder(w, m, calls);
      && v.mem.value.task == Scanning(m.task.h, m.task.max, m.task.queue[1..]) && v.mem.value.height == m.height
      && forall id :: id in v.ever ==> id in w.ever || Unpayable(orders, id)
  {
    var o := m.task.queue[0];
    assert o in orders(m.task.h);
    hide Settled;
    var m' := Attempt(w.contract, m, o, calls).1;
    assert forall id :: id in m'.quarantined ==> id in m.quarantined || (id == o.id && Unpayable(orders, id));
  }

  lemma {:induction false} DrainPays(orders: Orders, w: World, m: Memory, max: nat, calls: nat -> Calls, fetched: nat -> bool, i: nat, saved: bool)
    requires Inv(orders, w) && w.mem == Some(m) && Midway(orders, m, max)
    requires (forall j :: AllSucceed(calls(j))) && forall h :: fetched(h)
    ensures var v := Drain(orders, w, m, calls, fetched, i, saved);
      && v.mem.Some? && v.mem.value.height == max && v.mem.value.task.Idle? && (saved ==> v.file == SaveFile(v.mem.value))
      && forall id :: id in v.ever ==> id in w.ever || Unpayable(orders, id)
    decreases RestOfPoll(m.task), if m.task.Scanning? then |m.task.queue| else 0
  {
    hide Inv, Attempt, Unpayable;
    match m.task
    case Idle =>
    case Fetching(h, _) =>
      assert fetched(h);
      var m' := FetchBlock(orders, m, true);
      PerformKeeps(orders, w, m, Fetch(true));
      DrainPays(orders, w.(mem := Some(m')), m', max, calls, fetched, i, saved);
    case Scanning(h, _, queue) =>
      if queue == [] {
        var w' := CloseBlock(w, m, saved);
        CloseKeeps(orders, w, m, saved);
        if h < max { DrainPays(orders, w', w'.mem.value, max, calls, fetched, i + 1, saved); }
        else { DrainIdle(orders, w', w'.mem.value, calls, fetched, i + 1, saved); }
      } else {
        var w' := NextOrder(w, m, calls(i));
        NextPays(orders, w, m, calls(i));
        NextKeeps(orders, w, m, calls(i));
        DrainPays(orders, w', w'.mem.value, max, calls, fetched, i + 1, saved);
      }
  }

  lemma DrainIdle(orders: Orders, w: World, m: Memory, calls: nat -> Calls, fetched: nat -> bool, i: nat, saved: bool)
    requires m.task.Idle?
    ensures Drain(orders, w, m, calls, fetched, i, saved) == w
  {
  }

  /** Everybody is paid: after a poll whose calls all succeed, every order up to the safe height
      that can be paid has been executed, once, unless it had been quarantined before or shares
      its id with one that cannot be paid; and where the file was written, a restart resumes there. */
  lemma PollPays(orders: Orders, w: World, m: Memory, safe: nat, calls: nat -> Calls, fetched: nat -> bool, saved: bool)
    requires Inv(orders, w) && w.mem == Some(m) && m.task.Idle?
    requires (forall j :: AllSucceed(calls(j))) && forall h :: fetched(h)
    ensures var w' := Perform(orders, w, m, Poll(safe, true));
      var v := Drain(orders, w', w'.mem.value, calls, fetched, 0, saved);
      && v.mem.Some? && v.mem.value.height == (if m.height < safe then safe else m.height)
      && (forall h: nat, o: Order :: 1 <= h <= safe && o in orders(h) && CanBePaid(o) && !Unpayable(orders, o.id)
            ==> o.id in v.contract.executed || o.id in w.ever)
      && v.contract.executed == Elements(IdsPaid(v.contract.paid)) && NoDup(IdsPaid(v.contract.paid))
      && (saved && m.height < safe ==> v.file.Saved? && Load(v.file).height == safe)
      && ((saved && m.height < safe && |v.mem.value.processed| <= 5000 && |v.mem.value.quarantined| <= 5000)
            ==> Load(v.file) == v.mem.value.(failures := map[]))
  {
    hide Unpayable, Attempt, Drain;
    PerformKeeps(orders, w, m, Poll(safe, true));
    var w' := Perform(orders, w, m, Poll(safe, true));
    var v := Drain(orders, w', w'.mem.value, calls, fetched, 0, saved);
    PollKeeps(orders, w', w'.mem.value, calls, fetched, 0, saved);
    if m.height < safe { DrainPays(orders, w', w'.mem.value, safe, calls, fetched, 0, saved); }
    else { DrainIdle(orders, w', w'.mem.value, calls, fetched, 0, saved); }
    assert SettledUpTo(orders, v, v.mem.value.height);
    forall h: nat, o: Order | 1 <= h <= safe && o in orders(h) && CanBePaid(o) && !Unpayable(orders, o.id)
      ensures o.id in v.contract.executed || o.id in w.ever { assert Settled(v, o.id); }
  }

  // ---- The poll as loops ----

  /** The next block of a poll, if there is one. */
  function Ahead(h: nat, max: nat): Task {
    if h <= max then Fetching(h, max) else Idle
  }

  class Relay {
    var contract: Contract
    var file: File
    var height: nat
    var processed: seq<Text>
    var quarantined: seq<Text>
    var failures: map<Text, nat>
    ghost var ever: set<Text>

    function Held(task: Task): Memory
      reads this
    {
      Memory(height, processed, quarantined, failures, task)
    }

    ghost function State(task: Task): World
      reads this
    {
      World(contract, file, Some(Held(task)), ever)
    }

    constructor (contract: Contract, file: File, ghost ever: set<Text>)
      ensures State(Idle) == World(contract, file, Some(Load(file)), ever)
    {
      this.contract, this.file, this.ever := contract, file, ever;
      height, processed, quarantined, failures := 0, [], [], map[];
      new;
      if file.Saved? { height, processed, quarantined := file.height, file.processed, file.quarantined; }
    }

    method SaveState(written: bool)
      modifies this`file
      ensures file == WithFile(old(file), Held(Idle), written)
    {
      if written { file := Saved(height, LastOf(processed, KEEP), LastOf(quarantined, KEEP)); }
    }

    /** One order; false stops the scan. */
    method ProcessOrder(o: Order, calls: Calls) returns (go: bool)
      modifies this`contract, this`processed, this`quarantined, this`failures
      ensures (contract, Held(Idle), go) == Attempt(old(contract), old(Held(Idle)), o, calls)
    {
      if o.id == [] || o.id in processed || o.id in quarantined { return true; }
      if !calls.read { return false; }
      if o.id in contract.executed {
        processed := Insert(processed, o.id);
        return true;
      }
      if !o.goodAddress || o.amount == 0 {
        quarantined := Insert(quarantined, o.id);
        return true;
      }
      if !calls.prepared { return false; }
      if calls.broadcast && calls.confirmed {
        contract := Land(contract, PaymentOf(o));
        processed := Insert(processed, o.id);
        return true;
      }
      contract := Broadcast(contract, PaymentOf(o), calls);
      if calls.recognised && o.id in contract.executed {
        processed := Insert(processed, o.id);
        return true;
      }
      var fails := (if o.id in failures then failures[o.id] else 0) + 1;
      failures := failures[o.id := fails];
      if fails >= MAX_FAILURES {
        quarantined := Insert(quarantined, o.id);
        return true;
      }
      return false;
    }

    /** The orders of one block; `sent` is the number of answers used so far. */
    method ScanBlock(h: nat, max: nat, queue: seq<Order>, calls: nat -> Calls, sent: nat, ghost orders: Orders, ghost fetched: nat -> bool,
                     ghost saved: bool) returns (done: bool, used: nat)
      requires h <= max
      modifies this`contract, this`processed, this`quarantined, this`failures, this`ever
      ensures var before := old(Drain(orders, State(Scanning(h, max, queue)), Held(Scanning(h, max, queue)), calls, fetched, sent, saved));
        before == if done then Drain(orders, State(Scanning(h, max, [])), Held(Scanning(h, max, [])), calls, fetched, used, saved)
                  else State(Idle)
    {
      used := sent;
      ghost var goal := Drain(orders, State(Scanning(h, max, queue)), Held(Scanning(h, max, queue)), calls, fetched, sent, saved);
      for i := 0 to |queue|
        invariant height == old(height) && file == old(file)
        invariant goal == Drain(orders, State(Scanning(h, max, queue[i..])), Held(Scanning(h, max, queue[i..])), calls, fetched, used, saved)
      {
        assert queue[i..][0] == queue[i] && queue[i..][1..] == queue[i + 1..];
        ghost var w, m := State(Scanning(h, max, queue[i..])), Held(Scanning(h, max, queue[i..]));
        AttemptAnyTask(contract, Held(Idle), m, queue[i], calls(used));
        var go := ProcessOrder(queue[i], calls(used));
        ever := ever + Elements(quarantined);
        assert State(if go then Scanning(h, max, queue[i + 1..]) else Idle) == NextOrder(w, m, calls(used));
        used := used + 1;
        if !go { return false, used; }
      }
      return true, used;
    }

    /** `pollOutboundWithdrawals`, with the safe height and the outcomes of the calls as parameters. */
    method PollOutboundWithdrawals(orders: Orders, safe: nat, answered: bool, calls: nat -> Calls, fetched: nat -> bool, saved: bool)
      modifies this
      ensures var w := old(State(Idle));
        var w' := Perform(orders, w, w.mem.value, Poll(safe, answered));
        State(Idle) == Drain(orders, w', w'.mem.value, calls, fetched, 0, saved)
    {
      hide Attempt, LastOf, NextOrder;
      if !answered || height + 1 > safe { return; }
      ghost var goal := Drain(orders, State(Fetching(height + 1, safe)), Held(Fetching(height + 1, safe)), calls, fetched, 0, saved);
      var used := 0;
      for h := height + 1 to safe + 1
        invariant height + 1 == h
        invariant goal == Drain(orders, State(Ahead(h, safe)), Held(Ahead(h, safe)), calls, fetched, used, saved)
      {
        if !fetched(h) { return; }
        var done, now := ScanBlock(h, safe, orders(h), calls, used, orders, fetched, saved);
        if !done { return; }
        ghost var w, m := State(Scanning(h, safe, [])), Held(Scanning(h, safe, []));
        height := h;
        SaveState(saved);
        used := now + 1;
        assert State(Ahead(h + 1, safe)) == CloseBlock(w, m, saved);
      }
    }
  }

  lemma AttemptAnyTask(c: Contract, m: Memory, n: Memory, o: Order, calls: Calls)
    requires n == m.(task := n.task)
    ensures var (c', m', go) := Attempt(c, m, o, calls); Attempt(c, n, o, calls) == (c', m'.(task := n.task), go)
  {
  }
}
