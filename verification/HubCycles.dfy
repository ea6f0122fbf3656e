/** Which handlers can bring a hub to where some of them never end: those among which some locks are each kept
    by one while it takes another of them. */
module HubCycles {
  import opened HubLocks

  /** Only handlers of this kind are begun. */
  predicate Only(moves: seq<Move>, ops: set<Operation>) { forall m :: m in moves && m.Begin? ==> m.o in ops }

  /** Some run of such handlers, any number of threads at each, gets a thread stuck. */
  ghost predicate CanStick(ops: set<Operation>) {
    exists moves, t :: IsRun(map[], moves) && Only(moves, ops) && Stuck(After(map[], moves), t)
  }

  /** The lock that a handler keeps first. */
  function Main(o: Operation): Lock {
    match o
    case CmdAttach(i, _) => Tracked(i)
    case CmdPropValue(i, _) => Tracked(i)
    case ProcessPropValue(i, _) => Updating(i)
    case UpdateProp(i) => Tracked(i)
  }

  /** The place of that step among its own. */
  function Turn(o: Operation): nat { if o.CmdAttach? || o.CmdPropValue? then 0 else 1 }

  /** What it does from there on. */
  function Late(o: Operation): seq<Op> { if Turn(o) <= |OpsOf(o)| then OpsOf(o)[Turn(o)..] else [] }

  /** What it does after that step. */
  function Rest(o: Operation): seq<Op> { if Turn(o) < |OpsOf(o)| then OpsOf(o)[Turn(o) + 1..] else [] }

  lemma Shape(o: Operation)
    ensures Turn(o) < |OpsOf(o)| && OpsOf(o)[Turn(o)] == Keep(Main(o))
    ensures Late(o) != [] && Late(o)[0] == Keep(Main(o)) && Late(o)[1..] == Rest(o)
    ensures if Turn(o) == 0 then Late(o) == OpsOf(o) else OpsOf(o)[0].Brief? && Late(o) == OpsOf(o)[1..]
  {
  }

  /** The handler takes the one lock while it keeps the other. */
  predicate TakesWhile(o: Operation, l: Lock, k: Lock) {
    && l == Main(o) && k != l
    && match o
       case CmdAttach(_, js) => k.Tracked? && k.i in js
       case CmdPropValue(i, js) => k == Updating(i) || (k.Tracked? && k.i in js)
       case ProcessPropValue(_, js) => k.Tracked? && k.i in js
       case UpdateProp(i) => k == Updating(i)
  }

  lemma TakesIs(o: Operation, k: Lock)
    requires k != Main(o)
    ensures TakesWhile(o, Main(o), k) <==> exists op :: op in Rest(o) && op.l == k
  {
    Shape(o);
    var rest := Rest(o);
    match o {
      case CmdAttach(i, js) =>
        assert rest == Consult(js);
        Consulted(js, k);
      case CmdPropValue(i, js) =>
        assert rest == [Keep(Updating(i))] + Consult(js);
        Consulted(js, k);
        hide Consult;
        OneOrIn(Keep(Updating(i)), Consult(js), k);
      case ProcessPropValue(i, js) =>
        assert rest == Consult(js);
        Consulted(js, k);
      case UpdateProp(i) => assert rest == [Keep(Updating(i))];
    }
  }

  lemma OneOrIn(op: Op, more: seq<Op>, k: Lock)
    ensures (exists p :: p in [op] + more && p.l == k) <==> op.l == k || exists p :: p in more && p.l == k
  {
    assert forall p :: p in [op] + more <==> p == op || p in more;
  }

  lemma Consulted(js: seq<nat>, k: Lock)
    ensures (exists op :: op in Consult(js) && op.l == k) <==> k.Tracked? && k.i in js
  {
    if k.Tracked? && k.i in js {
      var n :| 0 <= n < |js| && js[n] == k.i;
      assert Consult(js)[n] == Brief(k);
    }
  }

  /** A cycle, or several: each of these locks is kept by some handler while it takes another of them. */
  ghost predicate Knot(ops: set<Operation>, ls: set<Lock>) {
    ls != {} && forall l :: l in ls ==> Tied(ops, ls, l)
  }

  ghost predicate Tied(ops: set<Operation>, ls: set<Lock>, l: Lock) {
    exists o, k :: o in ops && k in ls && TakesWhile(o, l, k)
  }

  // ---------- From a stuck thread to a knot ----------

  function KeptIn(ops: seq<Op>): set<Lock> { set op | op in ops && op.Keep? :: op.l }

  /** The thread is at this handler, `n` steps after it began. */
  predicate At(task: Task, o: Operation, n: nat) {
    n <= |OpsOf(o)| && task.todo == OpsOf(o)[n..] && task.held == KeptIn(OpsOf(o)[..n])
  }

  ghost predicate Stems(task: Task, ops: set<Operation>) { exists o, n :: o in ops && At(task, o, n) }

  ghost predicate AllStem(ts: Tasks, ops: set<Operation>) { forall t :: t in ts ==> Stems(ts[t], ops) }

  predicate Exclusive(ts: Tasks) { forall t, u :: t in ts && u in ts && t != u ==> ts[t].held !! ts[u].held }

  lemma TakenAt(task: Task, o: Operation, n: nat)
    requires At(task, o, n) && task.todo != []
    ensures At(Taken(task), o, n + 1)
  {
    var ops := OpsOf(o);
    assert ops[..n + 1] == ops[..n] + [ops[n]];
    assert task.todo[0] == ops[n] && task.todo[1..] == ops[n + 1..];
    KeptMore(ops[..n], ops[n]);
    hide KeptIn, OpsOf;
  }

  lemma KeptMore(ops: seq<Op>, op: Op)
    ensures KeptIn(ops + [op]) == if op.Keep? then KeptIn(ops) + {op.l} else KeptIn(ops)
  {
    assert forall p :: p in ops + [op] <==> p in ops || p == op;
  }

  lemma NextStems(ts: Tasks, m: Move, ops: set<Operation>)
    requires AllStem(ts, ops) && Possible(ts, m) && (m.Begin? ==> m.o in ops)
    ensures AllStem(Next(ts, m), ops)
  {
    match m {
      case Begin(t, o) =>
        assert At(Task({}, OpsOf(o)), o, 0) by { assert OpsOf(o)[0..] == OpsOf(o) && OpsOf(o)[..0] == []; }
        assert Stems(Task({}, OpsOf(o)), ops);
      case Take(t) =>
        assert Stems(ts[t], ops);
        var o, n :| o in ops && At(ts[t], o, n);
        TakenAt(ts[t], o, n);
        assert Stems(Taken(ts[t]), ops);
      case End(t) =>
    }
    hide Stems;
  }

  lemma NextExclusive(ts: Tasks, m: Move)
    requires Exclusive(ts) && Possible(ts, m)
    ensures Exclusive(Next(ts, m))
  {
  }

  lemma {:induction false} RunStems(ts: Tasks, moves: seq<Move>, ops: set<Operation>)
    requires AllStem(ts, ops) && Exclusive(ts) && IsRun(ts, moves) && Only(moves, ops)
    ensures AllStem(After(ts, moves), ops) && Exclusive(After(ts, moves))
    decreases |moves|
  {
    hide AllStem, Exclusive, Possible, Next;
    if moves != [] {
      assert moves[0] in moves && forall m :: m in moves[1..] ==> m in moves;
      NextStems(ts, moves[0], ops);
      NextExclusive(ts, moves[0]);
      RunStems(Next(ts, moves[0]), moves[1..], ops);
    }
  }

  /** What a handler keeps beside its main lock, it keeps after it; and then only this is left to keep. */
  lemma HeldShape(task: Task, o: Operation, n: nat)
    requires At(task, o, n)
    ensures task.held != {} ==> Main(o) in task.held
    ensures Main(o) in task.held ==> n > Turn(o)
    ensures forall k :: k in task.held && k != Main(o) ==>
      (o.CmdPropValue? || o.UpdateProp?) && k == Updating(o.i) && Main(o) == Tracked(o.i)
  {
    MainFirst(task, o, n);
    var ops := OpsOf(o);
    match o {
      case CmdAttach(i, js) => OnlyKeeps(ops, n, Main(o), Main(o), js);
      case CmdPropValue(i, js) => OnlyKeeps(ops, n, Main(o), Updating(i), js);
      case ProcessPropValue(i, js) => OnlyKeeps(ops, n, Main(o), Main(o), js);
      case UpdateProp(i) =>
    }
  }

  lemma MainFirst(task: Task, o: Operation, n: nat)
    requires At(task, o, n)
    ensures task.held != {} ==> Main(o) in task.held
    ensures Main(o) in task.held ==> n > Turn(o)
  {
    var ops := OpsOf(o);
    Shape(o);
    if task.held != {} {
      var k :| k in task.held;
      var op :| op in ops[..n] && op.Keep? && op.l == k;
      hide OpsOf, Main;
      assert n > Turn(o);
      assert ops[..n][Turn(o)] == Keep(Main(o));
    }
  }

  lemma OnlyKeeps(ops: seq<Op>, n: nat, l: Lock, k: Lock, js: seq<nat>)
    requires n <= |ops|
    requires forall op :: op in ops && op.Keep? ==> op.l == l || op.l == k
    ensures forall op :: op in ops[..n] && op.Keep? ==> op.l == l || op.l == k
  {
  }

  /** What a thread that keeps its main lock has still to take from another is the other's main lock. */
  lemma WantedIsMain(a: Task, o: Operation, n: nat, b: Task, p: Operation, m: nat, op: Op)
    requires At(a, o, n) && At(b, p, m) && a.held !! b.held
    requires Main(o) in a.held && op in a.todo && op.l in b.held
    ensures op.l == Main(p) && TakesWhile(o, Main(o), op.l)
  {
    HeldShape(a, o, n);
    HeldShape(b, p, m);
    Shape(o);
    assert op.l != Main(o);
    InRest(o, n, op);
    TakesIs(o, op.l);
    assert TakesWhile(o, Main(o), op.l);
    assert op.l != Main(p) ==> Main(p) in b.held;
  }

  lemma InRest(o: Operation, n: nat, op: Op)
    requires Turn(o) < n <= |OpsOf(o)| && op in OpsOf(o)[n..]
    ensures op in Rest(o)
  {
    hide OpsOf, Turn;
    assert OpsOf(o)[n..] == Rest(o)[n - Turn(o) - 1..];
  }

  /** The main locks that these threads keep. */
  ghost function Mains(ts: Tasks, d: set<nat>, ops: set<Operation>): set<Lock> {
    set t, l | t in d && t in ts && l in ts[t].held && IsMain(ts[t], ops, l) :: l
  }

  ghost predicate IsMain(task: Task, ops: set<Operation>, l: Lock) {
    exists o, n :: o in ops && At(task, o, n) && Main(o) == l
  }

  lemma InMains(ts: Tasks, d: set<nat>, ops: set<Operation>, t: nat, o: Operation, n: nat)
    requires t in d && t in ts && o in ops && At(ts[t], o, n) && Main(o) in ts[t].held
    ensures Main(o) in Mains(ts, d, ops)
  {
    assert IsMain(ts[t], ops, Main(o));
  }

  /** Somebody among them holds what the thread has still to take. */
  lemma HeldUp(ts: Tasks, d: set<nat>, t: nat) returns (u: nat, op: Op)
    requires Dead(ts, d) && t in d
    ensures t in ts && u in ts && u in d && u != t && op in ts[t].todo && op.l in ts[u].held
  {
    assert t in ts && Hindered(ts, t, d);
    hide Dead;
    u :| u in d && u in ts && Wants(ts, t, u);
    hide Hindered;
    op :| op in ts[t].todo && op.l in ts[u].held;
  }

  lemma StemOf(ts: Tasks, ops: set<Operation>, t: nat) returns (o: Operation, n: nat)
    requires AllStem(ts, ops) && t in ts
    ensures o in ops && At(ts[t], o, n)
  {
    assert Stems(ts[t], ops);
    hide AllStem, At;
    o, n :| o in ops && At(ts[t], o, n);
  }

  lemma MainOf(ts: Tasks, d: set<nat>, ops: set<Operation>, l: Lock) returns (t: nat, o: Operation, n: nat)
    requires l in Mains(ts, d, ops)
    ensures t in d && t in ts && l in ts[t].held && o in ops && At(ts[t], o, n) && Main(o) == l
  {
    hide At, Main;
    t :| t in d && t in ts && l in ts[t].held && IsMain(ts[t], ops, l);
    o, n :| o in ops && At(ts[t], o, n) && Main(o) == l;
  }

  lemma Apart(ts: Tasks, t: nat, u: nat)
    requires Exclusive(ts) && t in ts && u in ts && t != u
    ensures ts[t].held !! ts[u].held
  {
  }

  lemma Ties(ops: set<Operation>, ls: set<Lock>, o: Operation, k: Lock)
    requires o in ops && k in ls && TakesWhile(o, Main(o), k)
    ensures Tied(ops, ls, Main(o))
  {
    hide TakesWhile, Main;
  }

  lemma OneIsTied(ts: Tasks, d: set<nat>, ops: set<Operation>, l: Lock)
    requires AllStem(ts, ops) && Exclusive(ts) && Dead(ts, d) && l in Mains(ts, d, ops)
    ensures Tied(ops, Mains(ts, d, ops), l)
  {
    hide *;
    var t, o, n := MainOf(ts, d, ops, l);
    var u, op := HeldUp(ts, d, t);
    var p, m := StemOf(ts, ops, u);
    Apart(ts, t, u);
    WantedIsMain(ts[t], o, n, ts[u], p, m, op);
    InMains(ts, d, ops, u, p, m);
    Ties(ops, Mains(ts, d, ops), o, op.l);
  }

  lemma SomeMain(ts: Tasks, d: set<nat>, ops: set<Operation>, t: nat)
    requires AllStem(ts, ops) && Dead(ts, d) && t in d
    ensures Mains(ts, d, ops) != {}
  {
    hide *;
    var u, op := HeldUp(ts, d, t);
    var p, m := StemOf(ts, ops, u);
    HeldShape(ts[u], p, m);
    InMains(ts, d, ops, u, p, m);
  }

  lemma StuckKnots(moves: seq<Move>, ops: set<Operation>, t: nat)
    requires IsRun(map[], moves) && Only(moves, ops) && Stuck(After(map[], moves), t)
    ensures exists ls :: Knot(ops, ls)
  {
    hide *;
    NothingStems(ops);
    RunStems(map[], moves, ops);
    DeadKnots(After(map[], moves), ops, t);
  }

  lemma DeadKnots(ts: Tasks, ops: set<Operation>, t: nat)
    requires AllStem(ts, ops) && Exclusive(ts) && Stuck(ts, t)
    ensures exists ls :: Knot(ops, ls)
  {
    hide AllStem, Exclusive, Dead, Tied, Mains;
    var d :| t in d && Dead(ts, d);
    var ls := Mains(ts, d, ops);
    SomeMain(ts, d, ops, t);
    forall l | l in ls ensures Tied(ops, ls, l) {
      OneIsTied(ts, d, ops, l);
    }
    assert Knot(ops, ls);
  }

  lemma NothingStems(ops: set<Operation>)
    ensures AllStem(map[], ops) && Exclusive(map[])
  {
  }

  // ---------- From a knot to stuck threads ----------

  /** Handler `t` by thread `t`, each just before it takes its main lock. */
  function Ready(os: seq<Operation>): Tasks { map t | 0 <= t < |os| :: Task({}, Late(os[t])) }

  /** The first `n` have taken it. */
  function Keeping(os: seq<Operation>, n: nat): Tasks {
    map t | 0 <= t < |os| :: if t < n then Task({Main(os[t])}, Rest(os[t])) else Task({}, Late(os[t]))
  }

  lemma OneMove(ts: Tasks, m: Move)
    requires Possible(ts, m)
    ensures IsRun(ts, [m]) && After(ts, [m]) == Next(ts, m)
  {
    NoMoves(Next(ts, m));
    hide Possible, Next;
    Going(ts, m, []);
    assert [m] + [] == [m];
  }

  /** The thread begins it, and takes the first lock if that is not the one to keep. */
  lemma Begins(ts: Tasks, t: nat, o: Operation) returns (moves: seq<Move>)
    requires t !in ts && forall u :: u in ts ==> ts[u].held == {}
    ensures IsRun(ts, moves) && After(ts, moves) == ts[t := Task({}, Late(o))]
    ensures forall m :: m in moves && m.Begin? ==> m.o == o
  {
    var ts1 := ts[t := Task({}, OpsOf(o))];
    assert Next(ts, Begin(t, o)) == ts1;
    moves := [Begin(t, o)];
    Shape(o);
    hide OpsOf, Late;
    OneMove(ts, Begin(t, o));
    if Turn(o) != 0 {
      assert ts1[t].todo != [] && Free(ts1, t, ts1[t].todo[0].l);
      assert Taken(ts1[t]) == Task({}, Late(o));
      assert Next(ts1, Take(t)) == ts[t := Task({}, Late(o))];
      OneMove(ts1, Take(t));
      hide IsRun, After, Possible, Next;
      Join(ts, moves, [Take(t)]);
      moves := moves + [Take(t)];
    }
  }

  lemma OneReady(os: seq<Operation>, o: Operation)
    ensures Ready(os + [o]) == Ready(os)[|os| := Task({}, Late(o))]
    ensures |os| !in Ready(os) && forall u :: u in Ready(os) ==> Ready(os)[u].held == {}
  {
    hide Late;
  }

  lemma OneBegins(os: seq<Operation>, o: Operation) returns (moves: seq<Move>)
    ensures IsRun(Ready(os), moves) && After(Ready(os), moves) == Ready(os + [o])
    ensures forall m :: m in moves && m.Begin? ==> m.o == o
  {
    hide *;
    OneReady(os, o);
    moves := Begins(Ready(os), |os|, o);
  }

  lemma {:induction false} AllBegin(os: seq<Operation>, ops: set<Operation>) returns (moves: seq<Move>)
    requires forall o :: o in os ==> o in ops
    ensures IsRun(map[], moves) && Only(moves, ops) && After(map[], moves) == Ready(os)
    decreases |os|
  {
    if os == [] {
      moves := [];
      assert Ready(os) == map[];
    } else {
      var n := |os| - 1;
      assert os == os[..n] + [os[n]];
      hide IsRun, After, Ready;
      var first := AllBegin(os[..n], ops);
      var last := OneBegins(os[..n], os[n]);
      Join(map[], first, last);
      moves := first + last;
    }
  }

  predicate Distinct(os: seq<Operation>) { forall i, j :: 0 <= i < j < |os| ==> Main(os[i]) != Main(os[j]) }

  lemma {:induction false} AllKeep(os: seq<Operation>, n: nat) returns (moves: seq<Move>)
    requires n <= |os| && Distinct(os)
    ensures IsRun(Ready(os), moves) && After(Ready(os), moves) == Keeping(os, n)
    ensures forall m :: m in moves ==> m.Take?
    decreases n
  {
    hide *;
    if n == 0 {
      moves := [];
      NoneKeeps(os);
      NoMoves(Ready(os));
    } else {
      var first := AllKeep(os, n - 1);
      moves := OneMoreKeeps(os, n - 1, first);
    }
  }

  lemma NoneKeeps(os: seq<Operation>)
    ensures Keeping(os, 0) == Ready(os)
  {
    hide Late, Rest, Main;
  }

  lemma OneMoreKeeps(os: seq<Operation>, n: nat, first: seq<Move>) returns (moves: seq<Move>)
    requires n < |os| && Distinct(os) && forall m :: m in first ==> m.Take?
    requires IsRun(Ready(os), first) && After(Ready(os), first) == Keeping(os, n)
    ensures IsRun(Ready(os), moves) && After(Ready(os), moves) == Keeping(os, n + 1)
    ensures forall m :: m in moves ==> m.Take?
  {
    hide *;
    OneKeeps(os, n);
    OneMove(Keeping(os, n), Take(n));
    Join(Ready(os), first, [Take(n)]);
    moves := first + [Take(n)];
  }

  lemma NoMoves(ts: Tasks)
    ensures IsRun(ts, []) && After(ts, []) == ts
  {
  }

  lemma KeepsIt(o: Operation)
    ensures Late(o) != [] && Late(o)[0].l == Main(o)
    ensures Taken(Task({}, Late(o))) == Task({Main(o)}, Rest(o))
  {
    Shape(o);
    hide Late, Rest, Main;
    assert {} + {Main(o)} == {Main(o)};
  }

  lemma OneKeepsMore(os: seq<Operation>, n: nat)
    requires n < |os|
    ensures Keeping(os, n + 1) == Keeping(os, n)[n := Task({Main(os[n])}, Rest(os[n]))]
    ensures n in Keeping(os, n) && Keeping(os, n)[n] == Task({}, Late(os[n]))
  {
    hide Late, Rest, Main;
  }

  lemma MainIsFree(os: seq<Operation>, n: nat)
    requires n < |os| && Distinct(os)
    ensures Free(Keeping(os, n), n, Main(os[n]))
  {
    hide Late, Rest, Main;
  }

  lemma OneKeeps(os: seq<Operation>, n: nat)
    requires n < |os| && Distinct(os)
    ensures var ts := Keeping(os, n); Possible(ts, Take(n)) && Next(ts, Take(n)) == Keeping(os, n + 1)
  {
    hide Keeping, Distinct, Free, Late, Rest, Main, Taken;
    KeepsIt(os[n]);
    OneKeepsMore(os, n);
    MainIsFree(os, n);
  }

  /** Of these handlers the one takes, while it keeps its main lock, the main lock of the other. */
  predicate Blocks(os: seq<Operation>, t: nat, u: nat)
    requires t < |os|
  {
    u < |os| && TakesWhile(os[t], Main(os[t]), Main(os[u]))
  }

  predicate Blocked(os: seq<Operation>, t: nat)
    requires t < |os|
  {
    exists u: nat :: u < |os| && Blocks(os, t, u)
  }

  lemma OneHindered(os: seq<Operation>, t: nat)
    requires t < |os| && Blocked(os, t)
    ensures var ts := Keeping(os, |os|); t in ts && Hindered(ts, t, ts.Keys)
  {
    var u: nat :| u < |os| && Blocks(os, t, u);
    assert Main(os[u]) != Main(os[t]);
    TakesIs(os[t], Main(os[u]));
    var ts := Keeping(os, |os|);
    hide TakesWhile, Main, Rest, Late;
    var op :| op in Rest(os[t]) && op.l == Main(os[u]);
    assert t in ts && u in ts && u in ts.Keys;
    assert op in ts[t].todo && op.l in ts[u].held;
    assert Wants(ts, t, u);
    By(ts, t, ts.Keys, u);
  }

  /** All of them are stuck then. */
  lemma KeepingIsDead(os: seq<Operation>)
    requires forall t: nat :: t < |os| ==> Blocked(os, t)
    ensures Dead(Keeping(os, |os|), Keeping(os, |os|).Keys)
  {
    var ts := Keeping(os, |os|);
    assert forall t :: t in ts ==> 0 <= t < |os|;
    hide Blocked, Keeping, Hindered;
    forall t | t in ts.Keys ensures Hindered(ts, t, ts.Keys) {
      OneHindered(os, t);
    }
  }

  lemma {:induction false} Listed(ls: set<Lock>) returns (q: seq<Lock>)
    ensures forall l :: l in q <==> l in ls
    ensures forall i, j :: 0 <= i < j < |q| ==> q[i] != q[j]
    decreases |ls|
  {
    q := [];
    if ls != {} {
      var l :| l in ls;
      var rest := Listed(ls - {l});
      q := [l] + rest;
    }
  }

  /** A handler that ties the lock. */
  ghost function Pick(ops: set<Operation>, ls: set<Lock>, l: Lock): (o: Operation)
    requires Tied(ops, ls, l)
    ensures o in ops && exists k :: k in ls && TakesWhile(o, l, k)
  {
    var o :| o in ops && exists k :: k in ls && TakesWhile(o, l, k);
    o
  }

  ghost predicate TakesOneOf(o: Operation, l: Lock, ls: set<Lock>) { exists k :: k in ls && TakesWhile(o, l, k) }

  lemma {:induction false} Picked(ops: set<Operation>, ls: set<Lock>, q: seq<Lock>) returns (os: seq<Operation>)
    requires forall l :: l in q ==> Tied(ops, ls, l)
    ensures |os| == |q| && forall o :: o in os ==> o in ops
    ensures forall t: nat :: t < |q| ==> Main(os[t]) == q[t] && TakesOneOf(os[t], q[t], ls)
    decreases |q|
  {
    os := [];
    if q != [] {
      var rest := Picked(ops, ls, q[1..]);
      var o := Pick(ops, ls, q[0]);
      assert Main(o) == q[0] && TakesOneOf(o, q[0], ls);
      hide Tied, TakesOneOf, Main, TakesWhile;
      os := [o] + rest;
    }
  }

  lemma OneIsBlocked(os: seq<Operation>, q: seq<Lock>, ls: set<Lock>, t: nat)
    requires |os| == |q| && t < |q| && forall u: nat :: u < |q| ==> Main(os[u]) == q[u]
    requires TakesOneOf(os[t], q[t], ls) && forall k :: k in ls ==> k in q
    ensures Blocked(os, t)
  {
    hide Main, TakesWhile;
    var k :| k in ls && TakesWhile(os[t], q[t], k);
    assert k in q;
    var u: nat :| u < |q| && q[u] == k;
    assert Blocks(os, t, u);
  }

  /** One handler for each lock of the knot. */
  lemma ForEach(ops: set<Operation>, ls: set<Lock>) returns (os: seq<Operation>)
    requires Knot(ops, ls)
    ensures |os| > 0 && (forall o :: o in os ==> o in ops) && Distinct(os)
    ensures forall t: nat :: t < |os| ==> Blocked(os, t)
  {
    hide Tied, TakesOneOf, Main, Blocked;
    var q := Listed(ls);
    os := Picked(ops, ls, q);
    var l :| l in ls;
    assert l in q;
    forall t: nat | t < |os| ensures Blocked(os, t) {
      OneIsBlocked(os, q, ls, t);
    }
  }

  lemma OnlyMore(moves: seq<Move>, more: seq<Move>, ops: set<Operation>)
    requires Only(moves, ops) && forall m :: m in more ==> m.Take?
    ensures Only(moves + more, ops)
  {
  }

  lemma Sticks(moves: seq<Move>, ts: Tasks, t: nat, ops: set<Operation>)
    requires IsRun(map[], moves) && After(map[], moves) == ts && Only(moves, ops) && t in ts && Dead(ts, ts.Keys)
    ensures CanStick(ops)
  {
    hide IsRun, After, Only, Dead;
    assert t in ts.Keys;
    assert Stuck(ts, t);
  }

  lemma FirstKeeps(os: seq<Operation>)
    requires |os| > 0
    ensures 0 in Keeping(os, |os|)
  {
    hide Late, Rest, Main;
  }

  lemma KnotSticks(ops: set<Operation>, ls: set<Lock>)
    requires Knot(ops, ls)
    ensures CanStick(ops)
  {
    hide *;
    var os := ForEach(ops, ls);
    var first := AllBegin(os, ops);
    var second := AllKeep(os, |os|);
    KeepingIsDead(os);
    FirstKeeps(os);
    Join(map[], first, second);
    OnlyMore(first, second, ops);
    Sticks(first + second, Keeping(os, |os|), 0, ops);
  }

  /** Handlers of these kinds can get stuck, in some run with any number of threads, exactly if there are locks
      each of which one of them keeps while it takes another: the graph of what is taken while what is kept
      has a cycle. */
  lemma StickIff(ops: set<Operation>)
    ensures CanStick(ops) <==> exists ls :: Knot(ops, ls)
  {
    if CanStick(ops) {
      var moves, t :| IsRun(map[], moves) && Only(moves, ops) && Stuck(After(map[], moves), t);
      hide Knot, Stuck, IsRun, After, Only;
      StuckKnots(moves, ops, t);
    }
    if ls :| Knot(ops, ls) {
      hide Knot, CanStick;
      KnotSticks(ops, ls);
    }
  }
}
