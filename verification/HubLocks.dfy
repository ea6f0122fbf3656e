/** The locks of a hub's connections: each has one for its table and one for a value that is being
    received, and handlers of one connection consult the tables of others while they hold their own. */
module HubLocks {
  datatype Lock =
    | Tracked(i: nat)   // tracked_mutex of connection i
    | Updating(i: nat)  // update_in_process_mutex of connection i

  /** What a handler does with a lock: it keeps it to its end, or it takes it and gives it back at once.
      Both mutexes are recursive. */
  datatype Op = Keep(l: Lock) | Brief(l: Lock)

  /** Some thread in the middle of a handler: the locks it holds, and what it has still to do. */
  datatype Task = Task(held: set<Lock>, todo: seq<Op>)

  type Tasks = map<nat, Task>

  /** In all of them `js` are the connections whose tables are consulted on the way: those that are told
      of a new child or of a changed value, or that the application's listeners ask. */
  datatype Operation =
    | CmdAttach(i: nat, js: seq<nat>)
    | CmdPropValue(i: nat, js: seq<nat>)
    | ProcessPropValue(i: nat, js: seq<nat>)
    | UpdateProp(i: nat)

  function Consult(js: seq<nat>): seq<Op> { seq(|js|, n requires 0 <= n < |js| => Brief(Tracked(js[n]))) }

  function OpsOf(o: Operation): seq<Op> {
    match o
    case CmdAttach(i, js) => [Keep(Tracked(i))] + Consult(js)
    case CmdPropValue(i, js) => [Keep(Tracked(i)), Keep(Updating(i))] + Consult(js)
    case ProcessPropValue(i, js) => [Brief(Tracked(i)), Keep(Updating(i))] + Consult(js)
    case UpdateProp(i) => [Brief(Updating(i)), Keep(Tracked(i)), Keep(Updating(i))]
  }

  datatype Move = Begin(t: nat, o: Operation) | Take(t: nat) | End(t: nat)

  /** No other thread holds the lock. */
  predicate Free(ts: Tasks, t: nat, l: Lock) { forall u :: u in ts && u != t ==> l !in ts[u].held }

  predicate Possible(ts: Tasks, m: Move) {
    match m
    case Begin(t, _) => t !in ts
    case Take(t) => t in ts && ts[t].todo != [] && Free(ts, t, ts[t].todo[0].l)
    case End(t) => t in ts && ts[t].todo == []
  }

  function Taken(task: Task): Task
    requires task.todo != []
  {
    Task(if task.todo[0].Keep? then task.held + {task.todo[0].l} else task.held, task.todo[1..])
  }

  function Next(ts: Tasks, m: Move): Tasks
    requires Possible(ts, m)
  {
    match m
    case Begin(t, o) => ts[t := Task({}, OpsOf(o))]
    case Take(t) => ts[t := Taken(ts[t])]
    case End(t) => ts - {t}
  }

  predicate IsRun(ts: Tasks, moves: seq<Move>)
    decreases |moves|
  {
    moves == [] || (Possible(ts, moves[0]) && IsRun(Next(ts, moves[0]), moves[1..]))
  }

  function After(ts: Tasks, moves: seq<Move>): Tasks
    requires IsRun(ts, moves)
    decreases |moves|
  {
    if moves == [] then ts else After(Next(ts, moves[0]), moves[1..])
  }

  // ---------- Stuck ----------

  /** The thread has still to take a lock that the other holds. */
  predicate Wants(ts: Tasks, t: nat, u: nat)
    requires t in ts && u in ts
  {
    u != t && exists op :: op in ts[t].todo && op.l in ts[u].held
  }

  /** One of these holds what the thread has still to take. */
  ghost predicate Hindered(ts: Tasks, t: nat, d: set<nat>)
    requires t in ts
  {
    exists u :: u in d && u in ts && Wants(ts, t, u)
  }

  /** Threads each of which has still to take a lock that another of them holds. */
  ghost predicate Dead(ts: Tasks, d: set<nat>) { forall t :: t in d ==> t in ts && Hindered(ts, t, d) }

  ghost predicate Stuck(ts: Tasks, t: nat) { exists d :: t in d && Dead(ts, d) }

  lemma By(ts: Tasks, t: nat, d: set<nat>, u: nat)
    requires t in ts && u in ts && u in d && Wants(ts, t, u)
    ensures Hindered(ts, t, d)
  {
    hide Wants;
  }

  /** What a thread has still to take it does not get. */
  lemma StillWants(ts: Tasks, m: Move, t: nat, u: nat)
    requires t in ts && u in ts && Wants(ts, t, u) && Possible(ts, m) && m != End(u)
    ensures var ts' := Next(ts, m); t in ts' && u in ts' && Wants(ts', t, u)
  {
    var op :| op in ts[t].todo && op.l in ts[u].held;
    var ts' := Next(ts, m);
    assert t in ts' && u in ts' && op.l in ts'[u].held;
    if m == Take(t) {
      assert op != ts[t].todo[0];
      assert op in ts[t].todo[1..];
    }
    assert op in ts'[t].todo;
  }

  lemma WantsMore(ts: Tasks, t: nat, u: nat)
    requires t in ts && u in ts && Wants(ts, t, u)
    ensures ts[t].todo != []
  {
  }

  lemma DeadMore(ts: Tasks, d: set<nat>, t: nat)
    requires Dead(ts, d) && t in d
    ensures t in ts && ts[t].todo != []
  {
    assert Hindered(ts, t, d);
    hide Dead, Wants;
    var u :| u in d && u in ts && Wants(ts, t, u);
    WantsMore(ts, t, u);
  }

  lemma OneStays(ts: Tasks, m: Move, d: set<nat>, t: nat)
    requires Dead(ts, d) && t in d && Possible(ts, m)
    ensures t in Next(ts, m) && Hindered(Next(ts, m), t, d)
  {
    assert t in ts && Hindered(ts, t, d);
    var u :| u in d && u in ts && Wants(ts, t, u);
    DeadMore(ts, d, u);
    hide Dead, Hindered, Wants;
    StillWants(ts, m, t, u);
    hide Next;
    By(Next(ts, m), t, d, u);
  }

  lemma DeadStays(ts: Tasks, m: Move, d: set<nat>)
    requires Dead(ts, d) && Possible(ts, m)
    ensures Dead(Next(ts, m), d)
  {
    forall t | t in d ensures t in Next(ts, m) && Hindered(Next(ts, m), t, d) {
      OneStays(ts, m, d, t);
    }
    hide Possible, Next, Hindered;
  }

  lemma {:induction false} DeadForever(ts: Tasks, moves: seq<Move>, d: set<nat>)
    requires Dead(ts, d) && IsRun(ts, moves)
    ensures Dead(After(ts, moves), d)
    decreases |moves|
  {
    hide Dead, Next, Possible;
    if moves != [] {
      DeadStays(ts, moves[0], d);
      DeadForever(Next(ts, moves[0]), moves[1..], d);
    }
  }

  // ---------- Going on ----------

  lemma Going(ts: Tasks, m: Move, more: seq<Move>)
    requires Possible(ts, m) && IsRun(Next(ts, m), more)
    ensures IsRun(ts, [m] + more) && After(ts, [m] + more) == After(Next(ts, m), more)
  {
    hide Possible, Next;
    assert ([m] + more)[1..] == more;
  }

  lemma {:induction false} Join(ts: Tasks, moves: seq<Move>, more: seq<Move>)
    requires IsRun(ts, moves) && IsRun(After(ts, moves), more)
    ensures IsRun(ts, moves + more) && After(ts, moves + more) == After(After(ts, moves), more)
    decreases |moves|
  {
    hide Possible, Next;
    if moves == [] {
      assert moves + more == more;
    } else {
      assert (moves + more)[1..] == moves[1..] + more;
      Join(Next(ts, moves[0]), moves[1..], more);
    }
  }

  /** Nobody holds anything that the thread has still to take. */
  predicate Unhindered(ts: Tasks, t: nat)
    requires t in ts
  {
    forall u :: u in ts ==> !Wants(ts, t, u)
  }

  /** Such a thread comes to its end. */
  lemma {:induction false} Finishes(ts: Tasks, t: nat) returns (moves: seq<Move>)
    requires t in ts && Unhindered(ts, t)
    ensures IsRun(ts, moves) && After(ts, moves) == ts - {t}
    decreases |ts[t].todo|
  {
    if ts[t].todo == [] {
      moves := [End(t)];
      Going(ts, End(t), []);
      assert [End(t)] + [] == [End(t)];
    } else {
      var m := Take(t);
      forall u | u in ts && u != t ensures ts[t].todo[0].l !in ts[u].held {
        assert !Wants(ts, t, u);
      }
      var ts' := Next(ts, m);
      forall u | u in ts' ensures !Wants(ts', t, u) {
        assert !Wants(ts, t, u);
        assert forall op :: op in ts'[t].todo ==> op in ts[t].todo;
      }
      var more := Finishes(ts', t);
      Going(ts, m, more);
      moves := [m] + more;
      assert ts' - {t} == ts - {t};
    }
  }

  lemma SameWants(ts: Tasks, s: nat, t: nat, u: nat)
    requires t in ts - {s} && u in ts - {s}
    ensures Wants(ts - {s}, t, u) == Wants(ts, t, u)
  {
    assert (ts - {s})[t] == ts[t] && (ts - {s})[u] == ts[u];
  }

  lemma DeadWithout(ts: Tasks, s: nat, d: set<nat>)
    requires Dead(ts - {s}, d)
    ensures Dead(ts, d)
  {
    var ts' := ts - {s};
    hide Wants;
    forall t | t in d ensures t in ts && Hindered(ts, t, d) {
      assert t in ts' && Hindered(ts', t, d);
      hide Dead;
      var u :| u in d && u in ts' && Wants(ts', t, u);
      SameWants(ts, s, t, u);
      By(ts, t, d, u);
    }
    hide Hindered;
  }

  /** If all that there are hindered each other, they would all be stuck. */
  lemma SomeoneGoesOn(ts: Tasks, t: nat) returns (s: nat)
    requires t in ts && !Stuck(ts, t)
    ensures s in ts && Unhindered(ts, s)
  {
    assert !Dead(ts, ts.Keys);
    s :| s in ts.Keys && !(s in ts && Hindered(ts, s, ts.Keys));
    forall u | u in ts ensures !Wants(ts, s, u) {
      if Wants(ts, s, u) {
        By(ts, s, ts.Keys, u);
      }
    }
  }

  lemma {:induction false} CanEnd(ts: Tasks, t: nat) returns (moves: seq<Move>)
    requires t in ts && !Stuck(ts, t)
    ensures IsRun(ts, moves) && t !in After(ts, moves)
    decreases |ts|
  {
    var s := SomeoneGoesOn(ts, t);
    moves := Finishes(ts, s);
    if s != t {
      var ts' := ts - {s};
      forall d | t in d ensures !Dead(ts', d) {
        if Dead(ts', d) {
          DeadWithout(ts, s, d);
        }
      }
      assert ts'.Keys == ts.Keys - {s};
      hide Dead, Unhindered;
      assert !Stuck(ts', t);
      var more := CanEnd(ts', t);
      Join(ts, moves, more);
      moves := moves + more;
    }
  }

  /** A handler can still come to its end, by some run of all threads, exactly if it is not one of threads
      each of which has still to take a lock that another of them holds. */
  lemma CanEndIff(ts: Tasks, t: nat)
    requires t in ts
    ensures (exists moves :: IsRun(ts, moves) && t !in After(ts, moves)) <==> !Stuck(ts, t)
  {
    if Stuck(ts, t) {
      var d :| t in d && Dead(ts, d);
      forall moves | IsRun(ts, moves) ensures t in After(ts, moves) {
        DeadForever(ts, moves, d);
      }
    } else {
      var moves := CanEnd(ts, t);
    }
  }

  // ---------- It happens ----------

  /** One move more. */
  lemma Then(moves: seq<Move>, ts: Tasks, m: Move, ts': Tasks)
    requires IsRun(map[], moves) && After(map[], moves) == ts && Possible(ts, m) && Next(ts, m) == ts'
    ensures IsRun(map[], moves + [m]) && After(map[], moves + [m]) == ts'
  {
    hide Possible, Next;
    assert [m][1..] == [];
    Going(ts, m, []);
    Join(map[], moves, [m]);
  }

  /** Two handlers, one thread each, and how far they have come. */
  function Two(a: Task, b: Task): Tasks { map[0 := a, 1 := b] }

  lemma BothBegin(o: Operation, p: Operation) returns (moves: seq<Move>)
    ensures IsRun(map[], moves) && After(map[], moves) == Two(Task({}, OpsOf(o)), Task({}, OpsOf(p)))
  {
    var ts: Tasks := map[0 := Task({}, OpsOf(o))];
    Then([], map[], Begin(0, o), ts);
    assert [] + [Begin(0, o)] == [Begin(0, o)];
    assert ts[1 := Task({}, OpsOf(p))] == Two(Task({}, OpsOf(o)), Task({}, OpsOf(p)));
    Then([Begin(0, o)], ts, Begin(1, p), Two(Task({}, OpsOf(o)), Task({}, OpsOf(p))));
    moves := [Begin(0, o)] + [Begin(1, p)];
  }

  lemma FirstTakes(moves: seq<Move>, a: Task, b: Task)
    requires IsRun(map[], moves) && After(map[], moves) == Two(a, b) && a.todo != [] && a.todo[0].l !in b.held
    ensures IsRun(map[], moves + [Take(0)]) && After(map[], moves + [Take(0)]) == Two(Taken(a), b)
  {
    assert Two(a, b)[0 := Taken(a)] == Two(Taken(a), b);
    hide IsRun, After;
    Then(moves, Two(a, b), Take(0), Two(Taken(a), b));
  }

  lemma SecondTakes(moves: seq<Move>, a: Task, b: Task)
    requires IsRun(map[], moves) && After(map[], moves) == Two(a, b) && b.todo != [] && b.todo[0].l !in a.held
    ensures IsRun(map[], moves + [Take(1)]) && After(map[], moves + [Take(1)]) == Two(a, Taken(b))
  {
    assert Two(a, b)[1 := Taken(b)] == Two(a, Taken(b));
    hide IsRun, After;
    Then(moves, Two(a, b), Take(1), Two(a, Taken(b)));
  }

  lemma TwoWant(a: Task, b: Task, op: Op, other: Op)
    requires op in a.todo && op.l in b.held && other in b.todo && other.l in a.held
    ensures var ts := Two(a, b); 0 in ts && 1 in ts && Wants(ts, 0, 1) && Wants(ts, 1, 0)
  {
    var ts := Two(a, b);
    assert op in ts[0].todo && other in ts[1].todo;
  }

  /** Two threads that each have still to take what the other holds. */
  lemma TwoStuck(a: Task, b: Task, op: Op, other: Op)
    requires op in a.todo && op.l in b.held && other in b.todo && other.l in a.held
    ensures Stuck(Two(a, b), 0) && Stuck(Two(a, b), 1)
  {
    var ts, d := Two(a, b), {0, 1};
    TwoWant(a, b, op, other);
    hide Wants, Two;
    By(ts, 0, d, 1);
    By(ts, 1, d, 0);
    hide Hindered;
    assert 0 in d && 1 in d && Dead(ts, d);
  }

  lemma Kept(l: Lock, rest: seq<Op>)
    ensures Taken(Task({}, [Keep(l)] + rest)) == Task({l}, rest)
  {
    assert ([Keep(l)] + rest)[1..] == rest && {} + {l} == {l};
  }

  /** A node is attached from either of two connections, under nodes that the other watches: both workers
      hold their own table and want the other's, for ever. */
  lemma TwoAttaches() returns (moves: seq<Move>)
    ensures IsRun(map[], moves) && Stuck(After(map[], moves), 0) && Stuck(After(map[], moves), 1)
  {
    assert Consult([1])[0] == Brief(Tracked(1)) && Consult([0])[0] == Brief(Tracked(0));
    moves := TwoOwnTables(CmdAttach(0, [1]), CmdAttach(1, [0]), Consult([1]), Consult([0]));
  }

  /** Each of two clients sets a property that the other watches: the same. */
  lemma TwoValues() returns (moves: seq<Move>)
    ensures IsRun(map[], moves) && Stuck(After(map[], moves), 0) && Stuck(After(map[], moves), 1)
  {
    var o, p := CmdPropValue(0, [1]), CmdPropValue(1, [0]);
    var a, b := [Keep(Updating(0))] + Consult([1]), [Keep(Updating(1))] + Consult([0]);
    assert OpsOf(o) == [Keep(Tracked(0))] + a && OpsOf(p) == [Keep(Tracked(1))] + b;
    assert Consult([1])[0] in a && Consult([0])[0] in b;
    moves := TwoOwnTables(o, p, a, b);
  }

  lemma TwoOwnTables(o: Operation, p: Operation, a: seq<Op>, b: seq<Op>) returns (moves: seq<Move>)
    requires OpsOf(o) == [Keep(Tracked(0))] + a && OpsOf(p) == [Keep(Tracked(1))] + b
    requires Brief(Tracked(1)) in a && Brief(Tracked(0)) in b
    ensures IsRun(map[], moves) && Stuck(After(map[], moves), 0) && Stuck(After(map[], moves), 1)
  {
    moves := BothBegin(o, p);
    Kept(Tracked(0), a);
    Kept(Tracked(1), b);
    hide IsRun, After, OpsOf, Two, Stuck, Taken;
    FirstTakes(moves, Task({}, OpsOf(o)), Task({}, OpsOf(p)));
    SecondTakes(moves + [Take(0)], Task({Tracked(0)}, a), Task({}, OpsOf(p)));
    moves := moves + [Take(0)] + [Take(1)];
    TwoStuck(Task({Tracked(0)}, a), Task({Tracked(1)}, b), Brief(Tracked(1)), Brief(Tracked(0)));
  }

  /** One connection is enough: a value arrives for a property whose listener needs the table, while a
      reader of a property of that connection holds the table and has its answer. */
  lemma ValueAgainstReader() returns (moves: seq<Move>)
    ensures IsRun(map[], moves) && Stuck(After(map[], moves), 0) && Stuck(After(map[], moves), 1)
  {
    var o, p := ProcessPropValue(0, [0]), UpdateProp(0);
    var t, u := Tracked(0), Updating(0);
    assert OpsOf(o) == [Brief(t), Keep(u), Brief(t)] && OpsOf(p) == [Brief(u), Keep(t), Keep(u)];
    var o1, o2 := Task({}, [Keep(u), Brief(t)]), Task({u}, [Brief(t)]);
    var p1, p2 := Task({}, [Keep(t), Keep(u)]), Task({t}, [Keep(u)]);
    assert Taken(Task({}, OpsOf(o))) == o1 && Taken(o1) == o2 && Taken(Task({}, OpsOf(p))) == p1 && Taken(p1) == p2;
    moves := BothBegin(o, p);
    hide IsRun, After, Two, Stuck, Taken;
    FirstTakes(moves, Task({}, OpsOf(o)), Task({}, OpsOf(p)));
    moves := moves + [Take(0)];
    SecondTakes(moves, o1, Task({}, OpsOf(p)));
    moves := moves + [Take(1)];
    FirstTakes(moves, o1, p1);
    moves := moves + [Take(0)];
    SecondTakes(moves, o2, p1);
    moves := moves + [Take(1)];
    TwoStuck(o2, p2, Brief(t), Keep(u));
  }
}
