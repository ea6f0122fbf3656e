/** The locks that `send`, `reply`, `write` and the receive path take, and why they cannot deadlock. */
module Locks {
  import opened Packages

  datatype Lock =
    | TransportNotify  // the byte stream's observable, held while a chunk is processed
    | Table            // request_msgids_mutex
    | StreamNotify     // the dispatcher's observable, held while the listener runs
    | Senders          // senders_mutex
    | Ids              // msgid_released_mutex
    | WriteLock        // write_lock
    | Queue            // the package queue's mutex

  function Rank(l: Lock): nat {
    match l
    case TransportNotify => 0
    case Table => 1
    case StreamNotify => 2
    case Senders => 3
    case Ids => 4
    case WriteLock => 5
    case Queue => 6
  }

  predicate Recursive(l: Lock) { l.Table? || l.Ids? || l.WriteLock? }

  datatype Op = Acquire(l: Lock) | Release(l: Lock) | Await  // Await: until a reply is flagged

  // ---------- What each operation does with the locks ----------

  function Around(l: Lock, body: seq<Op>): seq<Op> { [Acquire(l)] + body + [Release(l)] }

  /** Waiting on the condition variable gives `senders_mutex` up and takes it again. */
  function Waits(k: nat): seq<Op> {
    if k == 0 then [] else [Release(Senders), Await, Acquire(Senders)] + Waits(k - 1)
  }

  /** `send`, woken `k` times before its reply is there. */
  function SendOps(k: nat): seq<Op> {
    Around(Senders, Around(Ids, []) + Around(WriteLock, []) + Waits(k) + Around(Ids, []))
  }

  function WriteOps(): seq<Op> { Around(WriteLock, []) }

  function ReplyOps(known: bool): seq<Op> {
    Around(Table, if known then Around(Senders, Around(WriteLock, [])) else [])
  }

  /** What the receive path does with one frame. */
  datatype Incoming = ReplyFrame | RequestFrame(generateNid: bool) | OneWayFrame

  function FrameOps(f: Incoming): seq<Op> {
    match f
    case ReplyFrame => Around(Senders, [])
    case RequestFrame(generateNid) =>
      Around(Table, Around(StreamNotify, if generateNid then ReplyOps(true) else Around(Queue, [])))
    case OneWayFrame => Around(StreamNotify, Around(Queue, []))
  }

  function FramesOps(fs: seq<Incoming>): seq<Op> {
    if fs == [] then [] else FrameOps(fs[0]) + FramesOps(fs[1..])
  }

  datatype Operation = Send(wakeups: nat) | Write | Reply(known: bool) | ReceiveChunk(frames: seq<Incoming>)

  function OpsOf(o: Operation): seq<Op> {
    match o
    case Send(k) => SendOps(k)
    case Write => WriteOps()
    case Reply(known) => ReplyOps(known)
    case ReceiveChunk(fs) => Around(TransportNotify, FramesOps(fs))
  }

  // ---------- The discipline ----------

  /** The locks held after `ops`, or None if `ops` takes a lock out of order, takes again a lock
      that is not recursive, gives up one it does not hold, or waits while holding any. */
  function Exec(held: multiset<Lock>, ops: seq<Op>): Option<multiset<Lock>>
    decreases |ops|
  {
    if ops == [] then Some(held) else
      match ops[0]
      case Acquire(l) =>
        if (l in held && Recursive(l)) || forall h :: h in held ==> Rank(h) < Rank(l)
        then Exec(held + multiset{l}, ops[1..]) else None
      case Release(l) => if l in held then Exec(held - multiset{l}, ops[1..]) else None
      case Await => if held == multiset{} then Exec(held, ops[1..]) else None
  }

  predicate Disciplined(held: multiset<Lock>, ops: seq<Op>) { Exec(held, ops) == Some(multiset{}) }

  lemma {:induction false} ExecAppend(held: multiset<Lock>, a: seq<Op>, b: seq<Op>)
    ensures Exec(held, a + b) == match Exec(held, a) { case None => None case Some(h) => Exec(h, b) }
    decreases |a|
  {
    if a == [] {
      assert a + b == b;
    } else {
      assert (a + b)[1..] == a[1..] + b;
      match a[0] {
        case Acquire(l) => ExecAppend(held + multiset{l}, a[1..], b);
        case Release(l) => ExecAppend(held - multiset{l}, a[1..], b);
        case Await => ExecAppend(held, a[1..], b);
      }
    }
  }

  predicate Fits(held: multiset<Lock>, l: Lock) {
    (l in held && Recursive(l)) || forall h :: h in held ==> Rank(h) < Rank(l)
  }

  lemma ExecAround(held: multiset<Lock>, l: Lock, body: seq<Op>)
    requires Fits(held, l) && Exec(held + multiset{l}, body) == Some(held + multiset{l})
    ensures Exec(held, Around(l, body)) == Some(held)
  {
    var up := held + multiset{l};
    assert up - multiset{l} == held;
    assert Around(l, body) == [Acquire(l)] + (body + [Release(l)]);
    ExecAppend(up, body, [Release(l)]);
    assert [Release(l)][1..] == [];
    assert ([Acquire(l)] + (body + [Release(l)]))[1..] == body + [Release(l)];
  }

  lemma {:induction false} ExecWaits(k: nat)
    ensures Exec(multiset{Senders}, Waits(k)) == Some(multiset{Senders})
  {
    if k > 0 {
      ExecWaits(k - 1);
      var once := [Release(Senders), Await, Acquire(Senders)];
      assert multiset{Senders} - multiset{Senders} == multiset{};
      assert once[1..] == [Await, Acquire(Senders)] && once[1..][1..] == [Acquire(Senders)]
        && once[1..][1..][1..] == [];
      assert Exec(multiset{}, [Acquire(Senders)]) == Some(multiset{} + multiset{Senders});
      assert multiset{} + multiset{Senders} == multiset{Senders};
      ExecAppend(multiset{Senders}, once, Waits(k - 1));
    }
  }

  lemma SendDisciplined(k: nat)
    ensures Disciplined(multiset{}, SendOps(k))
  {
    var s := multiset{Senders};
    ExecAround(s, Ids, []);
    ExecAround(s, WriteLock, []);
    ExecWaits(k);
    var ids, out, waits := Around(Ids, []), Around(WriteLock, []), Waits(k);
    ExecAppend(s, ids, out);
    ExecAppend(s, ids + out, waits);
    ExecAppend(s, ids + out + waits, ids);
    assert multiset{} + s == s;
    ExecAround(multiset{}, Senders, ids + out + waits + ids);
  }

  lemma ReplyFits(held: multiset<Lock>, known: bool)
    requires held == multiset{} || held == multiset{TransportNotify, Table, StreamNotify}
    ensures Exec(held, ReplyOps(known)) == Some(held)
  {
    var t := held + multiset{Table};
    if known {
      ExecAround(t + multiset{Senders}, WriteLock, []);
      ExecAround(t, Senders, Around(WriteLock, []));
    }
    ExecAround(held, Table, if known then Around(Senders, Around(WriteLock, [])) else []);
  }

  lemma FrameFits(f: Incoming)
    ensures Exec(multiset{TransportNotify}, FrameOps(f)) == Some(multiset{TransportNotify})
  {
    var t := multiset{TransportNotify};
    match f {
      case ReplyFrame => ExecAround(t, Senders, []);
      case RequestFrame(generateNid) =>
        var u := t + multiset{Table};
        var v := u + multiset{StreamNotify};
        assert v == multiset{TransportNotify, Table, StreamNotify};
        if generateNid { ReplyFits(v, true); } else { ExecAround(v, Queue, []); }
        var body := if generateNid then ReplyOps(true) else Around(Queue, []);
        ExecAround(u, StreamNotify, body);
        ExecAround(t, Table, Around(StreamNotify, body));
      case OneWayFrame =>
        ExecAround(t + multiset{StreamNotify}, Queue, []);
        ExecAround(t, StreamNotify, Around(Queue, []));
    }
  }

  lemma {:induction false} FramesFit(fs: seq<Incoming>)
    ensures Exec(multiset{TransportNotify}, FramesOps(fs)) == Some(multiset{TransportNotify})
  {
    if fs != [] {
      FrameFits(fs[0]);
      FramesFit(fs[1..]);
      ExecAppend(multiset{TransportNotify}, FrameOps(fs[0]), FramesOps(fs[1..]));
    }
  }

  /** Every operation takes its locks in increasing rank, re-enters only recursive ones, waits
      for its reply without any, and ends with none. */
  lemma OperationsDisciplined(o: Operation)
    ensures Disciplined(multiset{}, OpsOf(o))
  {
    match o {
      case Send(k) => SendDisciplined(k);
      case Write => ExecAround(multiset{}, WriteLock, []);
      case Reply(known) => ReplyFits(multiset{}, known);
      case ReceiveChunk(fs) =>
        FramesFit(fs);
        assert multiset{} + multiset{TransportNotify} == multiset{TransportNotify};
        ExecAround(multiset{}, TransportNotify, FramesOps(fs));
    }
  }

  // ---------- Threads ----------

  datatype Thread = Thread(held: multiset<Lock>, todo: seq<Op>)

  type Threads = map<nat, Thread>

  /** A mutex can be taken when nobody else holds it, and by its own holder only if recursive. */
  predicate CanTake(ts: Threads, t: nat, l: Lock)
    requires t in ts
  {
    && (forall u :: u in ts && u != t ==> l !in ts[u].held)
    && (l in ts[t].held ==> Recursive(l))
  }

  predicate Running(ts: Threads, t: nat) { t in ts && ts[t].todo != [] && !ts[t].todo[0].Await? }

  predicate CanStep(ts: Threads, t: nat)
    requires t in ts
  {
    ts[t].todo != [] && (ts[t].todo[0].Acquire? ==> CanTake(ts, t, ts[t].todo[0].l))
  }

  function StepThread(ts: Threads, t: nat): Threads
    requires t in ts && CanStep(ts, t)
  {
    var th := ts[t];
    var held := match th.todo[0]
      case Acquire(l) => th.held + multiset{l}
      case Release(l) => th.held - multiset{l}
      case Await => th.held;
    ts[t := Thread(held, th.todo[1..])]
  }

  datatype Move = Start(t: nat, o: Operation) | Go(t: nat)

  predicate Possible(ts: Threads, m: Move) {
    match m
    case Start(t, _) => t !in ts || ts[t].todo == []
    case Go(t) => t in ts && CanStep(ts, t)
  }

  function Next(ts: Threads, m: Move): Threads
    requires Possible(ts, m)
  {
    match m
    case Start(t, o) => ts[t := Thread(multiset{}, OpsOf(o))]
    case Go(t) => StepThread(ts, t)
  }

  predicate AllDisciplined(ts: Threads) { forall t :: t in ts ==> Disciplined(ts[t].held, ts[t].todo) }

  /** No lock is held by two threads. */
  predicate Exclusive(ts: Threads) {
    forall t, u, l: Lock :: t in ts && u in ts && t != u && l in ts[t].held ==> l !in ts[u].held
  }

  predicate Safe(ts: Threads) { AllDisciplined(ts) && Exclusive(ts) }

  lemma Replace(ts: Threads, t: nat, th: Thread)
    requires Safe(ts) && Disciplined(th.held, th.todo)
    requires forall u, l: Lock :: u in ts && u != t && l in th.held ==> l !in ts[u].held
    ensures Safe(ts[t := th])
  {
    hide Disciplined;
  }

  /** What the discipline says about the next operation. */
  lemma FirstOp(held: multiset<Lock>, ops: seq<Op>)
    requires Disciplined(held, ops)
    ensures ops == [] ==> held == multiset{}
    ensures ops != [] && ops[0].Await? ==> held == multiset{} && Disciplined(held, ops[1..])
    ensures ops != [] && ops[0].Acquire? ==> Fits(held, ops[0].l) && Disciplined(held + multiset{ops[0].l}, ops[1..])
    ensures ops != [] && ops[0].Release? ==> ops[0].l in held && Disciplined(held - multiset{ops[0].l}, ops[1..])
  {
  }

  lemma NextKeepsSafe(ts: Threads, m: Move)
    requires Safe(ts) && Possible(ts, m)
    ensures Safe(Next(ts, m))
  {
    match m {
      case Start(t, o) =>
        OperationsDisciplined(o);
        Replace(ts, t, Thread(multiset{}, OpsOf(o)));
      case Go(t) =>
        FirstOp(ts[t].held, ts[t].todo);
        var th := StepThread(ts, t)[t];
        assert Disciplined(th.held, th.todo);
        hide Disciplined, Fits, AllDisciplined;
        forall u, l: Lock | u in ts && u != t && l in th.held ensures l !in ts[u].held {
          if l !in ts[t].held {
            assert ts[t].todo[0] == Acquire(l);
          }
        }
        Replace(ts, t, th);
    }
  }

  predicate IsRun(ts: Threads, moves: seq<Move>)
    decreases |moves|
  {
    moves == [] || (Possible(ts, moves[0]) && IsRun(Next(ts, moves[0]), moves[1..]))
  }

  function After(ts: Threads, moves: seq<Move>): Threads
    requires IsRun(ts, moves)
    decreases |moves|
  {
    if moves == [] then ts else After(Next(ts, moves[0]), moves[1..])
  }

  lemma {:induction false} RunIsSafe(ts: Threads, moves: seq<Move>)
    requires Safe(ts) && IsRun(ts, moves)
    ensures Safe(After(ts, moves))
    decreases |moves|
  {
    hide Safe, Next;
    if moves != [] {
      NextKeepsSafe(ts, moves[0]);
      RunIsSafe(Next(ts, moves[0]), moves[1..]);
    }
  }

  lemma MayReenter(ts: Threads, t: nat, l: Lock)
    requires Exclusive(ts) && t in ts
    ensures l in ts[t].held && Recursive(l) ==> CanTake(ts, t, l)
  {
  }

  /** A blocked thread's lock is held by a thread that is running and, if blocked in turn,
      wants a lock of higher rank. */
  lemma HolderOf(ts: Threads, t: nat) returns (v: nat)
    requires Safe(ts) && Running(ts, t) && !CanStep(ts, t)
    ensures Running(ts, v) && (CanStep(ts, v) || (ts[v].todo[0].Acquire?
      && Rank(ts[v].todo[0].l) > Rank(ts[t].todo[0].l)))
  {
    var l := ts[t].todo[0].l;
    FirstOp(ts[t].held, ts[t].todo);
    v :| v in ts && v != t && l in ts[v].held;
    FirstOp(ts[v].held, ts[v].todo);
    hide Disciplined, AllDisciplined;
    if !CanStep(ts, v) {
      MayReenter(ts, v, ts[v].todo[0].l);
    }
  }

  lemma {:induction false} Chase(ts: Threads, t: nat) returns (u: nat)
    requires Safe(ts) && Running(ts, t)
    ensures Running(ts, u) && CanStep(ts, u)
    decreases if ts[t].todo[0].Acquire? then 7 - Rank(ts[t].todo[0].l) else 0
  {
    hide Safe;
    if CanStep(ts, t) {
      return t;
    }
    u := HolderOf(ts, t);
    if !CanStep(ts, u) {
      u := Chase(ts, u);
    }
  }

  /** No deadlock: in every state that any operations on any number of threads can reach, if some
      thread is not finished and not just waiting for its reply, some such thread can go on; and
      a thread that waits for its reply holds no lock at all. */
  lemma NoDeadlock(moves: seq<Move>)
    requires IsRun(map[], moves)
    ensures var ts := After(map[], moves);
      && ((exists t :: Running(ts, t)) ==> exists u :: Running(ts, u) && CanStep(ts, u))
      && forall t :: t in ts && ts[t].todo != [] && ts[t].todo[0].Await? ==> ts[t].held == multiset{}
  {
    RunIsSafe(map[], moves);
    var ts := After(map[], moves);
    hide Disciplined, CanStep;
    if t :| Running(ts, t) {
      var u := Chase(ts, t);
    }
    forall t | t in ts && ts[t].todo != [] && ts[t].todo[0].Await? ensures ts[t].held == multiset{} {
      FirstOp(ts[t].held, ts[t].todo);
    }
  }
}
