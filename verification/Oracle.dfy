/** The inbound oracle: deposit events of the L2 vault are posted to an idempotent daemon
    across RPC failures, lost replies, crashes and damaged state files
    (contracts/scripts/oracle_listener.js:146-337, src/rpc_server.cpp:378-471). */
module Oracle {
  import opened Types
  import opened Sequences
  import opened StateFile

  // ---- The world around the oracle ----

  /** The ids of the deposit events of each L2 block, in canonical order. Confirmed blocks do
      not change. */
  type Logs = nat -> seq<Text>

  datatype Event = Event(id: Text, block: nat)

  function EventsOf(ids: seq<Text>, block: nat): (r: seq<Event>)
    ensures |r| == |ids| && forall i :: 0 <= i < |r| ==> r[i] == Event(ids[i], block)
  {
    seq(|ids|, i requires 0 <= i < |ids| => Event(ids[i], block))
  }

  /** The events of the blocks from..to, sorted: what a successful query leads to. */
  function EventsIn(logs: Logs, from: nat, to: nat): seq<Event>
    decreases 1 + to - from
  {
    if from > to then [] else EventsOf(logs(from), from) + EventsIn(logs, from + 1, to)
  }

  /** The reply to a post. The daemon may refuse a new event, and a request or a reply may be
      lost: `arrives` and `answered` say how far it got, `accepted` what the daemon decided. */
  datatype Post = Post(arrives: bool, accepted: bool, answered: bool)

  datatype Status = Minted200 | Processed409 | Error | NoReply

  /** The daemon: an event already in its table gives 409 and changes nothing. */
  function Handle(minted: seq<Text>, id: Text, p: Post): (seq<Text>, Status) {
    if !p.arrives then (minted, NoReply) else
    if id in minted then (minted, if p.answered then Processed409 else NoReply) else
    if p.accepted then (minted + [id], if p.answered then Minted200 else NoReply) else
    (minted, if p.answered then Error else NoReply)
  }

  // ---- The oracle's state ----

  datatype File = Absent | Damaged | Saved(cursor: nat, processed: seq<Text>)

  /** What the process holds: the cursor, the processed ids in insertion order, and what is
      left of the poll that is running. */
  datatype Task = Idle | Posting(to: nat, queue: seq<Event>)
  datatype Memory = Memory(cursor: nat, processed: seq<Text>, task: Task)

  datatype World = World(minted: seq<Text>, file: File, mem: Option<Memory>)

  /** `saveState`, when the write succeeds. */
  function SaveFile(m: Memory): File { Saved(m.cursor, LastOf(m.processed, KEEP)) }

  /** `loadState` and the start block: a missing or damaged file gives the clean state. */
  function Load(f: File, start: nat): Memory
    requires start > 0
  {
    match f
    case Saved(cursor, processed) => Memory(if cursor == 0 then start - 1 else cursor, processed, Idle)
    case _ => Memory(start - 1, [], Idle)
  }

  /** What the running process does between two awaits. */
  datatype Action =
    | Poll(confirmed: nat, answered: bool) // the head and the events are queried
    | PostNext(post: Post, saved: bool)    // the next event of the queue
    | Finish(saved: bool)                  // the queue is done
    | SaveOutbound(saved: bool)            // the other poll writes the file
    | Throw                                // an exception ends the poll; nothing is moved or saved

  datatype Move =
    | Boot(head: nat)                      // a process starts; it exits if its cursor is above the head
    | Crash(damaged: bool)                 // the process dies, perhaps while writing
    | Act(action: Action)

  function WithFile(f: File, m: Memory, saved: bool): File {
    if saved then SaveFile(m) else f
  }

  function Step(logs: Logs, start: nat, w: World, move: Move): World
    requires start > 0
  {
    match move
    case Boot(head) =>
      if w.mem.Some? then w else
      var m := Load(w.file, start);
      if m.cursor > head then w else w.(mem := Some(m))
    case Crash(damaged) => w.(mem := None, file := if damaged then Damaged else w.file)
    case Act(action) => if w.mem.None? then w else Perform(logs, w, w.mem.value, action)
  }

  function Perform(logs: Logs, w: World, m: Memory, action: Action): World {
    match action
    case Poll(confirmed, answered) =>
      if !m.task.Idle? || confirmed <= m.cursor || !answered then w
      else w.(mem := Some(m.(task := Posting(confirmed, EventsIn(logs, m.cursor + 1, confirmed)))))
    case PostNext(p, saved) =>
      if m.task.Idle? || m.task.queue == [] then w else PostOne(w, m, p, saved)
    case Finish(saved) =>
      if m.task.Idle? || m.task.queue != [] then w else
      var m' := m.(cursor := m.task.to, task := Idle);
      World(w.minted, WithFile(w.file, m', saved), Some(m'))
    case SaveOutbound(saved) => w.(file := WithFile(w.file, m, saved))
    case Throw => w.(mem := Some(m.(task := Idle)))
  }

  /** The next event: skipped if processed, done on 200 and 409, and on anything else the
      cursor goes back to just before it and the poll ends. */
  function PostOne(w: World, m: Memory, p: Post, saved: bool): World
    requires m.task.Posting? && m.task.queue != []
  {
    var e, rest := m.task.queue[0], m.task.queue[1..];
    if e.id in m.processed then w.(mem := Some(m.(task := Posting(m.task.to, rest)))) else
    var (minted, status) := Handle(w.minted, e.id, p);
    if status == Minted200 || status == Processed409 then
      World(minted, w.file, Some(Memory(m.cursor, Insert(m.processed, e.id), Posting(m.task.to, rest))))
    else
      var m' := Memory(if e.block > 0 then e.block - 1 else m.cursor, m.processed, Idle);
      World(minted, WithFile(w.file, m', saved), Some(m'))
  }

  function Run(logs: Logs, start: nat, w: World, moves: seq<Move>): World
    requires start > 0
  {
    if moves == [] then w else Step(logs, start, Run(logs, start, w, moves[..|moves| - 1]), moves[|moves| - 1])
  }

  // ---- Exactly once ----

  /** Every event of the blocks from the start block to n has been minted. */
  ghost predicate MintedUpTo(logs: Logs, start: nat, minted: seq<Text>, n: nat) {
    forall b: nat, id: Text :: start <= b <= n && id in logs(b) ==> id in minted
  }

  /** What a cursor and a list of processed ids promise, in memory or on file. */
  ghost predicate Kept(logs: Logs, start: nat, minted: seq<Text>, cursor: nat, processed: seq<Text>) {
    MintedUpTo(logs, start, minted, cursor) && forall id :: id in processed ==> id in minted
  }

  /** While events are posted: those not in the queue are minted, and the queue is in order. */
  ghost predicate QueueOk(logs: Logs, start: nat, minted: seq<Text>, cursor: nat, task: Task) {
    task.Posting? ==>
      && cursor + 1 >= start && cursor <= task.to
      && (forall i :: 0 <= i < |task.queue| ==> cursor < task.queue[i].block <= task.to && task.queue[i].id in logs(task.queue[i].block))
      && (forall i, j :: 0 <= i < j < |task.queue| ==> task.queue[i].block <= task.queue[j].block)
      && (forall b: nat, id: Text :: start <= b <= task.to && id in logs(b) ==> id in minted || Event(id, b) in task.queue)
  }

  ghost predicate FileOk(logs: Logs, start: nat, minted: seq<Text>, f: File) {
    f.Saved? ==> Kept(logs, start, minted, f.cursor, f.processed) && (f.cursor == 0 || f.cursor + 1 >= start)
  }

  ghost predicate Inv(logs: Logs, start: nat, w: World) {
    && NoDup(w.minted) && (forall id :: id in w.minted ==> exists b: nat :: b >= start && id in logs(b))
    && FileOk(logs, start, w.minted, w.file)
    && (w.mem.Some? ==>
          && w.mem.value.cursor + 1 >= start
          && Kept(logs, start, w.minted, w.mem.value.cursor, w.mem.value.processed)
          && QueueOk(logs, start, w.minted, w.mem.value.cursor, w.mem.value.task))
  }

  lemma MintingKeeps(logs: Logs, start: nat, w: World, id: Text, b: nat)
    requires Inv(logs, start, w) && id !in w.minted && b >= start && id in logs(b)
    ensures Inv(logs, start, w.(minted := w.minted + [id]))
  {
    var minted := w.minted + [id];
    NoDupConcat(w.minted, [id]);
    assert forall x :: x in minted <==> x in w.minted || x == id;
  }

  lemma HandleKeeps(logs: Logs, start: nat, w: World, id: Text, b: nat, p: Post)
    requires Inv(logs, start, w) && b >= start && id in logs(b)
    ensures var (minted, status) := Handle(w.minted, id, p);
      && Inv(logs, start, w.(minted := minted)) && (status in {Minted200, Processed409} ==> id in minted)
      && (forall x :: x in w.minted ==> x in minted)
  {
    if id !in w.minted { MintingKeeps(logs, start, w, id, b); }
  }

  lemma {:induction false} EventsInOrder(logs: Logs, from: nat, to: nat)
    ensures var q := EventsIn(logs, from, to);
      && (forall i :: 0 <= i < |q| ==> from <= q[i].block <= to && q[i].id in logs(q[i].block))
      && (forall i, j :: 0 <= i < j < |q| ==> q[i].block <= q[j].block)
      && (forall b: nat, id: Text :: from <= b <= to && id in logs(b) ==> Event(id, b) in q)
    decreases 1 + to - from
  {
    if from <= to {
      EventsInOrder(logs, from + 1, to);
      var first, rest := EventsOf(logs(from), from), EventsIn(logs, from + 1, to);
      forall b: nat, id: Text | from <= b <= to && id in logs(b) ensures Event(id, b) in first + rest {
        if b == from {
          var i :| 0 <= i < |logs(from)| && logs(from)[i] == id;
          assert first[i] == Event(id, b);
        }
      }
    }
  }

  lemma SaveOk(logs: Logs, start: nat, minted: seq<Text>, f: File, m: Memory, saved: bool)
    requires FileOk(logs, start, minted, f) && m.cursor + 1 >= start && Kept(logs, start, minted, m.cursor, m.processed)
    ensures FileOk(logs, start, minted, WithFile(f, m, saved))
  {
    assert forall x :: x in LastOf(m.processed, KEEP) ==> x in m.processed;
  }

  lemma PostKeeps(logs: Logs, start: nat, w: World, m: Memory, p: Post, saved: bool)
    requires Inv(logs, start, w) && w.mem == Some(m) && m.task.Posting? && m.task.queue != []
    ensures Inv(logs, start, PostOne(w, m, p, saved))
  {
    var e, rest := m.task.queue[0], m.task.queue[1..];
    QueueShrinks(logs, start, w.minted, m);
    if e.id !in m.processed {
      HandleKeeps(logs, start, w, e.id, e.block, p);
      var (minted, status) := Handle(w.minted, e.id, p);
      if !(status == Minted200 || status == Processed409) {
        var m' := Memory(if e.block > 0 then e.block - 1 else m.cursor, m.processed, Idle);
        SaveOk(logs, start, minted, w.file, m', saved);
      }
    }
  }

  /** Taking the first event off the queue; and all events of earlier blocks are minted. */
  lemma QueueShrinks(logs: Logs, start: nat, minted: seq<Text>, m: Memory)
    requires QueueOk(logs, start, minted, m.cursor, m.task) && m.task.Posting? && m.task.queue != []
    ensures var e, rest := m.task.queue[0], m.task.queue[1..];
      && e.block >= start && e.block > 0 && e.id in logs(e.block)
      && MintedUpTo(logs, start, minted, e.block - 1)
      && (forall later: seq<Text> :: (forall x :: x in minted ==> x in later) && e.id in later
            ==> QueueOk(logs, start, later, m.cursor, Posting(m.task.to, rest)))
  {
    var q := m.task.queue;
    assert q == [q[0]] + q[1..];
    assert forall i :: 0 <= i < |q| ==> q[i].block >= q[0].block;
    assert forall b: nat, id: Text :: b < q[0].block ==> Event(id, b) !in q;
  }

  lemma FinishKeeps(logs: Logs, start: nat, w: World, m: Memory, saved: bool)
    requires Inv(logs, start, w) && w.mem == Some(m) && m.task.Posting? && m.task.queue == []
    ensures var m' := m.(cursor := m.task.to, task := Idle); Inv(logs, start, World(w.minted, WithFile(w.file, m', saved), Some(m')))
  {
    SaveOk(logs, start, w.minted, w.file, m.(cursor := m.task.to, task := Idle), saved);
  }

  lemma BootKeeps(logs: Logs, start: nat, w: World)
    requires start > 0 && Inv(logs, start, w)
    ensures Inv(logs, start, w.(mem := Some(Load(w.file, start))))
  {
  }

  lemma PerformKeeps(logs: Logs, start: nat, w: World, m: Memory, action: Action)
    requires Inv(logs, start, w) && w.mem == Some(m)
    ensures Inv(logs, start, Perform(logs, w, m, action))
  {
    hide Inv, PostOne;
    match action
    case Poll(confirmed, answered) => PollKeeps(logs, start, w, m, confirmed);
    case PostNext(p, saved) => if m.task.Posting? && m.task.queue != [] { PostKeeps(logs, start, w, m, p, saved); }
    case Finish(saved) => if m.task.Posting? && m.task.queue == [] { FinishKeeps(logs, start, w, m, saved); }
    case SaveOutbound(saved) => SaveKeeps(logs, start, w, m, saved);
    case Throw => ThrowKeeps(logs, start, w, m);
  }

  /** The events of a fresh query are in order, and everything else up to its end is minted. */
  lemma QueryOk(logs: Logs, start: nat, minted: seq<Text>, cursor: nat, confirmed: nat)
    requires cursor + 1 >= start && cursor <= confirmed && MintedUpTo(logs, start, minted, cursor)
    ensures QueueOk(logs, start, minted, cursor, Posting(confirmed, EventsIn(logs, cursor + 1, confirmed)))
  {
    EventsInOrder(logs, cursor + 1, confirmed);
    hide EventsIn;
    var q := EventsIn(logs, cursor + 1, confirmed);
    forall b: nat, id: Text | start <= b <= confirmed && id in logs(b) ensures id in minted || Event(id, b) in q {
      if b > cursor { assert cursor + 1 <= b <= confirmed; }
    }
  }

  lemma PollKeeps(logs: Logs, start: nat, w: World, m: Memory, confirmed: nat)
    requires Inv(logs, start, w) && w.mem == Some(m)
    ensures m.task.Idle? && confirmed > m.cursor ==>
      Inv(logs, start, w.(mem := Some(m.(task := Posting(confirmed, EventsIn(logs, m.cursor + 1, confirmed))))))
  {
    hide EventsIn, QueueOk;
    if confirmed > m.cursor { QueryOk(logs, start, w.minted, m.cursor, confirmed); }
  }

  lemma SaveKeeps(logs: Logs, start: nat, w: World, m: Memory, saved: bool)
    requires Inv(logs, start, w) && w.mem == Some(m)
    ensures Inv(logs, start, w.(file := WithFile(w.file, m, saved)))
  {
    SaveOk(logs, start, w.minted, w.file, m, saved);
  }

  lemma ThrowKeeps(logs: Logs, start: nat, w: World, m: Memory)
    requires Inv(logs, start, w) && w.mem == Some(m)
    ensures Inv(logs, start, w.(mem := Some(m.(task := Idle))))
  {
  }

  lemma StepKeeps(logs: Logs, start: nat, w: World, move: Move)
    requires start > 0 && Inv(logs, start, w)
    ensures Inv(logs, start, Step(logs, start, w, move))
  {
    match move
    case Boot(_) => BootKeeps(logs, start, w);
    case Crash(_) =>
    case Act(action) => if w.mem.Some? { PerformKeeps(logs, start, w, w.mem.value, action); }
  }

  /** Exactly-once minting: along every run from an empty ledger and no state file, whatever
      fails, crashes or is damaged, every event from the start block to the cursor, in memory
      or on file, has been minted; nothing but events is minted, and no event twice. */
  lemma {:induction false} ExactlyOnce(logs: Logs, start: nat, moves: seq<Move>)
    requires start > 0
    ensures Inv(logs, start, Run(logs, start, World([], Absent, None), moves))
  {
    if moves != [] {
      ExactlyOnce(logs, start, moves[..|moves| - 1]);
      StepKeeps(logs, start, Run(logs, start, World([], Absent, None), moves[..|moves| - 1]), moves[|moves| - 1]);
    }
  }

  // ---- The poll as a loop ----

  /** What is left of a poll: events are posted one after the other until one fails or the
      queue is done; reply i answers the i-th post from here. */
  function Drain(w: World, m: Memory, replies: nat -> Post, i: nat, saved: bool): World
    decreases if m.task.Posting? then |m.task.queue| else 0
  {
    if m.task.Idle? then w else
    if m.task.queue == [] then
      var m' := m.(cursor := m.task.to, task := Idle);
      World(w.minted, WithFile(w.file, m', saved), Some(m'))
    else
      var w' := PostOne(w, m, replies(i), saved);
      Drain(w', w'.mem.value, replies, i + 1, saved)
  }

  lemma {:induction false} RunConcat(logs: Logs, start: nat, w: World, a: seq<Move>, b: seq<Move>)
    requires start > 0
    ensures Run(logs, start, w, a + b) == Run(logs, start, Run(logs, start, w, a), b)
  {
    if b == [] {
      assert a + b == a;
    } else {
      RunConcat(logs, start, w, a, b[..|b| - 1]);
      assert (a + b)[..|a + b| - 1] == a + b[..|b| - 1];
    }
  }

  lemma OneMove(logs: Logs, start: nat, w: World, move: Move)
    requires start > 0
    ensures Run(logs, start, w, [move]) == Step(logs, start, w, move)
  {
    assert [move][..0] == [];
    assert Run(logs, start, w, [move][..0]) == w;
  }

  /** A poll is a run of single steps, so what every step keeps, a poll keeps. */
  lemma {:induction false} DrainIsRun(logs: Logs, start: nat, w: World, m: Memory, replies: nat -> Post, i: nat, saved: bool)
    returns (moves: seq<Move>)
    requires start > 0 && w.mem == Some(m)
    ensures Drain(w, m, replies, i, saved) == Run(logs, start, w, moves)
    decreases if m.task.Posting? then |m.task.queue| else 0
  {
    if m.task.Idle? {
      moves := [];
    } else if m.task.queue == [] {
      moves := [Act(Finish(saved))];
      OneMove(logs, start, w, Act(Finish(saved)));
    } else {
      var move := Act(PostNext(replies(i), saved));
      var w' := PostOne(w, m, replies(i), saved);
      OneMove(logs, start, w, move);
      var rest := DrainIsRun(logs, start, w', w'.mem.value, replies, i + 1, saved);
      RunConcat(logs, start, w, [move], rest);
      moves := [move] + rest;
    }
  }

  // ---- Progress ----

  /** The post arrives, the daemon does not refuse the event, and the reply comes back. */
  predicate GoesWell(p: Post) { p.arrives && p.accepted && p.answered }

  lemma PostMints(logs: Logs, start: nat, w: World, m: Memory, p: Post, saved: bool)
    requires Inv(logs, start, w) && w.mem == Some(m) && m.task.Posting? && m.task.queue != [] && GoesWell(p)
    ensures var v := PostOne(w, m, p, saved);
      && v.mem.Some? && v.mem.value.cursor == m.cursor && v.mem.value.task == Posting(m.task.to, m.task.queue[1..])
      && m.task.queue[0].id in v.mem.value.processed && forall x :: x in m.processed ==> x in v.mem.value.processed
  {
  }

  lemma {:induction false} DrainMints(logs: Logs, start: nat, w: World, m: Memory, replies: nat -> Post, i: nat, saved: bool)
    requires Inv(logs, start, w) && w.mem == Some(m) && m.task.Posting? && forall j :: GoesWell(replies(j))
    ensures var v := Drain(w, m, replies, i, saved);
      && Inv(logs, start, v) && v.mem.Some? && v.mem.value.cursor == m.task.to && v.mem.value.task.Idle?
      && (saved ==> v.file == SaveFile(v.mem.value))
      && (forall e :: e in m.task.queue ==> e.id in v.mem.value.processed)
      && (forall x :: x in m.processed ==> x in v.mem.value.processed)
    decreases |m.task.queue|
  {
    hide Inv, PostOne;
    if m.task.queue == [] {
      FinishKeeps(logs, start, w, m, saved);
    } else {
      var w' := PostOne(w, m, replies(i), saved);
      PostKeeps(logs, start, w, m, replies(i), saved);
      PostMints(logs, start, w, m, replies(i), saved);
      DrainMints(logs, start, w', w'.mem.value, replies, i + 1, saved);
      assert m.task.queue == [m.task.queue[0]] + m.task.queue[1..];
    }
  }

  /** Everything is minted: a poll whose posts all go well ends with the cursor at the confirmed
      head; every event from the start block on has been minted, once, those of the poll are marked
      as processed, and where the file was written a restart resumes there. */
  lemma PollMints(logs: Logs, start: nat, w: World, m: Memory, confirmed: nat, replies: nat -> Post, saved: bool)
    requires start > 0 && Inv(logs, start, w) && w.mem == Some(m) && m.task.Idle? && forall j :: GoesWell(replies(j))
    ensures var w' := Perform(logs, w, m, Poll(confirmed, true));
      var v := Drain(w', w'.mem.value, replies, 0, saved);
      && v.mem.Some? && v.mem.value.cursor == (if m.cursor < confirmed then confirmed else m.cursor) && NoDup(v.minted)
      && (forall b: nat, id: Text :: start <= b <= confirmed && id in logs(b) ==> id in v.minted)
      && (forall b: nat, id: Text :: m.cursor < b <= confirmed && id in logs(b) ==> id in v.mem.value.processed)
      && (saved && m.cursor < confirmed ==> v.file.Saved? && Load(v.file, start).cursor == confirmed)
      && (saved && m.cursor < confirmed && |v.mem.value.processed| <= 5000 ==> Load(v.file, start) == v.mem.value)
  {
    hide EventsIn, QueueOk, PostOne;
    if m.cursor < confirmed {
      PollKeeps(logs, start, w, m, confirmed);
      EventsInOrder(logs, m.cursor + 1, confirmed);
      var w' := Perform(logs, w, m, Poll(confirmed, true));
      DrainMints(logs, start, w', w'.mem.value, replies, 0, saved);
      hide Drain;
      forall b: nat, id: Text | m.cursor < b <= confirmed && id in logs(b)
        ensures id in Drain(w', w'.mem.value, replies, 0, saved).mem.value.processed { assert Event(id, b) in w'.mem.value.task.queue; }
    }
  }

  /** Whatever the replies, a poll leaves the cursor between where it was and the confirmed head:
      a failure never makes it forget what it had seen through. */
  lemma {:induction false} NeverBack(logs: Logs, start: nat, w: World, m: Memory, replies: nat -> Post, i: nat, saved: bool)
    requires Inv(logs, start, w) && w.mem == Some(m)
    ensures var v := Drain(w, m, replies, i, saved);
      v.mem.Some? && m.cursor <= v.mem.value.cursor <= if m.task.Posting? then m.task.to else m.cursor
    decreases if m.task.Posting? then |m.task.queue| else 0
  {
    hide Handle, LastOf, Insert;
    if m.task.Posting? && m.task.queue != [] {
      var w' := PostOne(w, m, replies(i), saved);
      PostKeeps(logs, start, w, m, replies(i), saved);
      NeverBack(logs, start, w', w'.mem.value, replies, i + 1, saved);
    }
  }

  class Daemon {
    var minted: seq<Text>

    constructor ()
      ensures minted == []
    {
      minted := [];
    }

    method Deposit(id: Text, p: Post) returns (status: Status)
      modifies this
      ensures (minted, status) == Handle(old(minted), id, p)
    {
      if !p.arrives { return NoReply; }
      if id in minted { return if p.answered then Processed409 else NoReply; }
      if !p.accepted { return if p.answered then Error else NoReply; }
      minted := minted + [id];
      return if p.answered then Minted200 else NoReply;
    }
  }

  lemma DropNext<T>(s: seq<T>, i: nat)
    requires i < |s|
    ensures s[i..] != [] && s[i..][0] == s[i] && s[i..][1..] == s[i + 1..]
  {
  }

  /** The state file, and the closure variables of the listener. */
  class Listener {
    const start: nat
    var file: File
    var cursor: nat
    var processed: seq<Text>

    function Held(task: Task): Memory
      reads this
    {
      Memory(cursor, processed, task)
    }

    constructor (start: nat, file: File)
      requires start > 0
      ensures this.start == start && this.file == file && Held(Idle) == Load(file, start)
    {
      this.start, this.file := start, file;
      cursor, processed := start - 1, [];
      new;
      if file.Saved? {
        cursor := if file.cursor == 0 then start - 1 else file.cursor;
        processed := file.processed;
      }
    }

    method SaveState(written: bool)
      modifies this`file
      ensures file == WithFile(old(file), Held(Idle), written)
    {
      if written { file := Saved(cursor, LastOf(processed, KEEP)); }
    }

    /** `pollInboundDeposits`, with the confirmed head, the query's outcome and the replies to
        the posts as parameters. */
    method PollInboundDeposits(logs: Logs, confirmed: nat, answered: bool, daemon: Daemon, replies: nat -> Post, saved: bool)
      modifies this`file, this`cursor, this`processed, daemon
      ensures var w := World(old(daemon.minted), old(file), Some(old(Held(Idle))));
        var w' := Perform(logs, w, w.mem.value, Poll(confirmed, answered));
        World(daemon.minted, file, Some(Held(Idle))) == Drain(w', w'.mem.value, replies, 0, saved)
    {
      hide EventsIn, LastOf, Insert, Handle;
      if confirmed <= cursor || !answered { return; }
      var events := EventsIn(logs, cursor + 1, confirmed);
      ghost var w0 := World(daemon.minted, file, Some(Held(Posting(confirmed, events))));
      ghost var goal := Drain(w0, w0.mem.value, replies, 0, saved);
      var sent := 0;
      for i := 0 to |events|
        invariant goal == Drain(World(daemon.minted, file, Some(Held(Posting(confirmed, events[i..])))),
                                Held(Posting(confirmed, events[i..])), replies, sent, saved)
      {
        var e := events[i];
        DropNext(events, i);
        var reply := replies(sent);
        sent := sent + 1;
        if e.id in processed { continue; }
        var status := daemon.Deposit(e.id, reply);
        if status == Minted200 || status == Processed409 {
          processed := Insert(processed, e.id);
        } else {
          if e.block > 0 { cursor := e.block - 1; }
          SaveState(saved);
          return;
        }
      }
      cursor := confirmed;
      SaveState(saved);
    }
  }
}
