/** Runs of a star: an attach reaches every other end once at most and never comes back, and
    whatever is under way dies out. */
module StarRuns {
  import opened Bytes
  import opened Packages
  import opened Mirror
  import opened MirrorProof
  import opened MirrorRuns
  import opened MirrorWaits
  import opened Star

  /** A run in which every fetch of a leaf brings what it does not track yet; see MirrorRaces. */
  predicate IsStarRun(st: Star, events: seq<StarEvent>)
    decreases |events|
  {
    events == [] ||
    (StarEnabled(st, events[0]) && StarSound(st, events[0]) && IsStarRun(StarStep(st, events[0]), events[1..]))
  }

  function StarAfter(st: Star, events: seq<StarEvent>): Star
    requires IsStarRun(st, events)
    decreases |events|
  {
    if events == [] then st else StarAfter(StarStep(st, events[0]), events[1..])
  }

  lemma {:induction false} StarRunKeeps(st: Star, events: seq<StarEvent>)
    requires StarInv(st) && IsStarRun(st, events)
    ensures StarInv(StarAfter(st, events)) && |StarAfter(st, events).links| >= |st.links|
    decreases |events|
  {
    hide StarInv;
    if events != [] {
      StarKeeps(st, events[0]);
      StarRunKeeps(StarStep(st, events[0]), events[1..]);
    }
  }

  lemma StarBegins(tree: Tree)
    requires FreshSide(Fresh(tree))
    ensures StarInv(Star(tree, []))
  {
  }

  /** Some run from a hub without connections ends in `st`. */
  ghost predicate Reachable(st: Star) {
    exists tree, events :: FreshSide(Fresh(tree)) && IsStarRun(Star(tree, []), events)
      && StarAfter(Star(tree, []), events) == st
  }

  lemma ReachableStarInv(st: Star)
    requires Reachable(st)
    ensures StarInv(st)
  {
    hide FreshSide;
    var tree, events :| FreshSide(Fresh(tree)) && IsStarRun(Star(tree, []), events)
      && StarAfter(Star(tree, []), events) == st;
    StarRunKeeps(Star(tree, []), events);
  }

  /** In every reachable state every link keeps the naming invariant and sees the one tree, and a
      node is a proxy of one connection at most. */
  lemma LinksAgree(st: Star, i: nat, j: nat)
    requires Reachable(st) && i < |st.links| && j < |st.links|
    ensures Inv(st.links[i]) && TreeOf(st.links[i].a) == st.tree
    ensures i != j ==> forall n :: n in st.links[i].a.own ==> n !in st.links[j].a.own
  {
    ReachableStarInv(st);
    hide Reachable, Inv, FreshSide;
    assert LinkOk(st.tree, st.links[i]);
    if i < j {
      assert st.links[i].a.own.Keys !! st.links[j].a.own.Keys;
    } else if j < i {
      assert st.links[j].a.own.Keys !! st.links[i].a.own.Keys;
    }
    hide LinkOk, Disjoint, StarInv;
  }

  // ---------- Weighing queues ----------

  /** What messages are worth: an announcement, a subscription, a question. */
  datatype Worth = Worth(announced: nat, subscribe: nat, at: nat)

  function One(m: Msg, w: Worth): nat {
    if Structural(m) then w.announced else if m.Subscribe? then w.subscribe else w.at
  }

  function Weigh(q: seq<Msg>, w: Worth): nat {
    if q == [] then 0 else One(q[0], w) + Weigh(q[1..], w)
  }

  lemma WeighFirst(q: seq<Msg>, w: Worth)
    requires q != []
    ensures Weigh(q, w) == One(q[0], w) + Weigh(q[1..], w)
  {
  }

  lemma OneSubscription(k: Nid, w: Worth)
    ensures One(Subscribe(k), w) == w.subscribe
  {
  }

  lemma {:induction false} WeighAppend(q: seq<Msg>, m: Msg, w: Worth)
    ensures Weigh(q + [m], w) == Weigh(q, w) + One(m, w)
  {
    if q == [] {
      assert [m][1..] == [];
    } else {
      assert (q + [m])[1..] == q[1..] + [m];
      WeighAppend(q[1..], m, w);
    }
  }

  function Total(ws: seq<nat>): nat {
    if ws == [] then 0 else Total(ws[..|ws| - 1]) + ws[|ws| - 1]
  }

  lemma {:induction false} TotalWithin(ws: seq<nat>, ws': seq<nat>, c: nat)
    requires |ws'| == |ws| && forall j :: 0 <= j < |ws| ==> ws'[j] <= ws[j] + c
    ensures Total(ws') <= Total(ws) + c * |ws|
  {
    if ws != [] {
      var n := |ws| - 1;
      TotalWithin(ws[..n], ws'[..n], c);
      assert c * |ws| == c * n + c;
    }
  }

  /** One place changes as it likes, the others by `c` at most. */
  lemma {:induction false} TotalChanges(ws: seq<nat>, ws': seq<nat>, i: nat, c: nat)
    requires |ws'| == |ws| && i < |ws| && forall j :: 0 <= j < |ws| && j != i ==> ws'[j] <= ws[j] + c
    ensures Total(ws') + ws[i] <= Total(ws) + ws'[i] + c * (|ws| - 1)
  {
    var n := |ws| - 1;
    if i == n {
      TotalWithin(ws[..n], ws'[..n], c);
    } else {
      TotalChanges(ws[..n], ws'[..n], i, c);
      assert c * (|ws| - 1) == c * (n - 1) + c;
    }
  }

  // ---------- Told once, and not of one's own ----------

  const Announcing := Worth(1, 0, 0)

  /** Announcements on their way that leaf `j` may yet hear of: those for it, and those of others. */
  function Others(st: Star, j: nat): seq<nat> {
    seq(|st.links|, i requires 0 <= i < |st.links| => if i == j then 0 else Weigh(st.links[i].ba, Announcing))
  }

  function Coming(st: Star, j: nat): nat
    requires j < |st.links|
  {
    Weigh(st.links[j].ab, Announcing) + Total(Others(st, j))
  }

  /** Leaf `j` is told of a new node. */
  function HeardIn(st: Star, e: StarEvent, j: nat): nat
    requires j < |st.links| && StarEnabled(st, e)
  {
    if e == Leaf(j, Receive) && Structural(st.links[j].ab[0]) then 1 else 0
  }

  /** A node is attached by an application, but not that of leaf `j`. */
  function ElsewhereIn(e: StarEvent, j: nat): nat {
    if e.HubAttach? || (e.Leaf? && e.i != j && e.act.AppAttach?) then 1 else 0
  }

  function Heard(st: Star, events: seq<StarEvent>, j: nat): nat
    requires j < |st.links| && IsStarRun(st, events)
    decreases |events|
  {
    if events == [] then 0 else
      HeardIn(st, events[0], j) + Heard(StarStep(st, events[0]), events[1..], j)
  }

  function Elsewhere(events: seq<StarEvent>, j: nat): nat {
    if events == [] then 0 else ElsewhereIn(events[0], j) + Elsewhere(events[1..], j)
  }

  lemma WeighTold(q: seq<Msg>, q': seq<Msg>, w: Worth)
    requires Told(q, q')
    ensures Weigh(q, w) <= Weigh(q', w) <= Weigh(q, w) + w.announced
  {
    if q' != q {
      WeighAppend(q, q'[|q|], w);
    }
  }

  // ---------- What a step does to the queues of a link ----------

  lemma LinkOf(st: Star, j: nat)
    requires StarInv(st) && j < |st.links|
    ensures Inv(st.links[j]) && st.links[j].a.calls == NoCalls && BothQueued(st.links[j])
    ensures TreeOf(st.links[j].a) == st.tree
  {
    assert LinkOk(st.tree, st.links[j]);
  }

  lemma FlowNotified(s: State, p: Node, name: Name, w: Worth)
    requires Inv(s) && p < s.a.nodes && s.a.calls == NoCalls
    ensures var t := Notified(s, p, name);
      && t.b == s.b && t.ba == s.ba
      && Weigh(s.ab, w) <= Weigh(t.ab, w) <= Weigh(s.ab, w) + w.announced
  {
    NotifiedStep(s, p, name);
    WeighTold(s.ab, Notified(s, p, name).ab, w);
    hide Inv, Notified, Told, Weigh;
  }

  /** The receiving link trades an announcement for a subscription. */
  lemma FlowReceived(s: State, w: Worth)
    requires Inv(s) && EnabledLeft(s, Receive)
    ensures var t, m := StepLeft(s, Receive), s.ba[0];
      && Weigh(s.ba, w) == One(m, w) + Weigh(t.ba, w)
      && Weigh(t.ab, w) == Weigh(s.ab, w) + (if Learns(s.a, m) then w.subscribe else 0)
      && (Learns(s.a, m) ==> Structural(m))
      && AnswerOnly(m, s.b, t.b)
  {
    hide Inv, StepLeft, Grown, Weigh, One, TreeOf;
    HubReceives(s);
    WeighFirst(s.ba, w);
    if Learns(s.a, s.ba[0]) {
      WeighAppend(s.ab, Subscribe(s.ba[0].child), w);
      assert One(Subscribe(s.ba[0].child), w) == w.subscribe by { OneSubscription(s.ba[0].child, w); }
    }
    hide Learns;
  }

  /** What link `j` makes of a message that link `i` received: an announcement at most. */
  predicate FlowsTo(st: Star, i: nat, j: nat, w: Worth)
    requires i < |st.links| && EnabledLeft(st.links[i], Receive) && j < |st.links|
  {
    var s, t, learns := st.links[j], Reached(st, i, j), Learns(st.links[i].a, st.links[i].ba[0]);
    && t.b == s.b && t.ba == s.ba
    && Weigh(s.ab, w) <= Weigh(t.ab, w) <= Weigh(s.ab, w) + (if learns then w.announced else 0)
  }

  /** What a message that link `i` receives is to link `j`: a new node under one that it has, or nothing. */
  predicate PassedOn(st: Star, i: nat, j: nat)
    requires i < |st.links| && EnabledLeft(st.links[i], Receive) && j < |st.links|
  {
    var x, m, s := st.links[i].a, st.links[i].ba[0], st.links[j];
    if Learns(x, m) then
      x.tracked[m.parent] < s.a.nodes && Reached(st, i, j) == Notified(s, x.tracked[m.parent], m.name)
    else Reached(st, i, j) == s
  }

  lemma LinkOkOf(st: Star, j: nat)
    requires StarInv(st) && j < |st.links|
    ensures LinkOk(st.tree, st.links[j]) && st.links[j].a.nodes == st.tree.nodes
  {
    assert LinkOk(st.tree, st.links[j]);
  }

  lemma PassesOn(st: Star, i: nat, j: nat)
    requires i < |st.links| && EnabledLeft(st.links[i], Receive) && j < |st.links| && j != i && StarInv(st)
    ensures PassedOn(st, i, j)
  {
    hide StarInv, LinkOk, Notified, Grown, Learns, StepLeft;
    LinkOkOf(st, i);
    LinkOkOf(st, j);
    ReachedStep(st, i, j);
    LinkReceives(st.tree, st.links[i]);
    hide Reached;
  }

  lemma FlowPassed(st: Star, i: nat, j: nat, w: Worth)
    requires i < |st.links| && EnabledLeft(st.links[i], Receive) && j < |st.links|
    requires PassedOn(st, i, j) && st.links[j].a.calls == NoCalls && Inv(st.links[j])
    ensures FlowsTo(st, i, j, w)
  {
    hide Inv, Notified, Weigh, Reached;
    var x, m := st.links[i].a, st.links[i].ba[0];
    if Learns(x, m) {
      FlowNotified(st.links[j], x.tracked[m.parent], m.name, w);
    }
  }

  lemma FlowReached(st: Star, i: nat, j: nat, w: Worth)
    requires i < |st.links| && EnabledLeft(st.links[i], Receive) && j < |st.links| && j != i && StarInv(st)
    ensures FlowsTo(st, i, j, w)
  {
    hide *;
    LinkOf(st, j);
    PassesOn(st, i, j);
    FlowPassed(st, i, j, w);
  }

  /** Answers that have come and are not fetched yet. */
  function Answers(x: Side): nat { (if x.calls.reply.Some? then 1 else 0) + (if x.calls.valued then 1 else 0) }

  /** A step of a leaf: its attach announces one node at most; receiving, it trades an announcement
      for a subscription; a blocking call puts one question and takes one answer. */
  predicate Flows(s: State, act: Act, t: State, w: Worth)
    requires EnabledLeft(Flip(s), act)
  {
    match act
    case AppAttach(_, _) => t.ab == s.ab && Weigh(t.ba, w) <= Weigh(s.ba, w) + w.announced
    case Look(_, _, _) => t.ab == s.ab && t.ba == s.ba
    case FetchStart(_) => t.ab == s.ab && Weigh(t.ba, w) == Weigh(s.ba, w) + w.at
    case FetchDone(_) => t.ab == s.ab && t.ba == s.ba && Answers(t.b) < Answers(s.b)
    case Insert(_) => t.ab == s.ab && t.ba == s.ba
    case ValueStart(_) => t.ab == s.ab && Weigh(t.ba, w) == Weigh(s.ba, w) + w.at
    case ValueDone => t.ab == s.ab && t.ba == s.ba && Answers(t.b) < Answers(s.b)
    case Receive =>
      && Weigh(s.ab, w) == One(s.ab[0], w) + Weigh(t.ab, w) && Answers(t.b) == Answers(s.b)
      && Weigh(t.ba, w) <= Weigh(s.ba, w) + (if Structural(s.ab[0]) then w.subscribe else 0)
  }

  lemma FlowLeaf(s: State, act: Act, w: Worth)
    requires Inv(s) && s.a.calls == NoCalls && EnabledLeft(Flip(s), act) && Sound(Flip(s), act)
    ensures var t := Flip(StepLeft(Flip(s), act)); t.a == s.a && Flows(s, act, t, w)
  {
    var f := Flip(s);
    FlipInv(s);
    LeafActs(f, act);
    hide Inv, StepLeft, EnabledLeft, Told, Sound;
    EffectFlows(s, act, StepLeft(f, act), w);
    hide LeafEffect, Flows;
  }

  lemma EffectFlows(s: State, act: Act, t: State, w: Worth)
    requires EnabledLeft(Flip(s), act) && LeafEffect(Flip(s), act, t)
    ensures t.b == s.a && Flows(s, act, Flip(t), w)
  {
    match act {
      case AppAttach(_, _) => WeighTold(s.ba, t.ab, w);
      case FetchStart(_) => WeighAppend(s.ba, t.ab[|s.ba|], w);
      case ValueStart(k) => WeighAppend(s.ba, GetValue(k), w);
      case Receive =>
        if t.ab != s.ba {
          WeighAppend(s.ba, Subscribe(s.ab[0].child), w);
        }
      case _ =>
    }
    hide Told;
  }

  // ---------- Told once ----------

  lemma ComingAtConnect(st: Star, leaf: Side, j: nat)
    requires StarEnabled(st, Connect(leaf)) && j < |st.links|
    ensures Coming(StarStep(st, Connect(leaf)), j) == Coming(st, j)
  {
    var st' := StarStep(st, Connect(leaf));
    var q := [Subscribe(0)];
    assert q[1..] == [];
    assert Weigh(q, Announcing) == 0;
    assert Others(st', j) == Others(st, j) + [0];
    var ws := Others(st, j);
    assert (ws + [0])[..|ws|] == ws;
  }

  lemma ComingAtAttach(st: Star, p: Node, name: Name, j: nat)
    requires StarInv(st) && StarEnabled(st, HubAttach(p, name)) && j < |st.links|
    ensures Coming(StarStep(st, HubAttach(p, name)), j) <= Coming(st, j) + 1
  {
    var st' := StarStep(st, HubAttach(p, name));
    forall k | 0 <= k < |st.links|
      ensures st'.links[k].ba == st.links[k].ba
      ensures Weigh(st'.links[k].ab, Announcing) <= Weigh(st.links[k].ab, Announcing) + 1
    {
      LinkOf(st, k);
      FlowNotified(st.links[k], p, name, Announcing);
    }
    hide StarInv, Weigh, Notified;
    assert Others(st', j) == Others(st, j);
  }

  /** Only link `i` may have lost something that it was to bring to the others. */
  lemma OthersShrink(st: Star, st': Star, i: nat, j: nat, lost: nat)
    requires |st'.links| == |st.links| && i < |st.links|
    requires forall k :: 0 <= k < |st.links| && k != i ==> st'.links[k].ba == st.links[k].ba
    requires Weigh(st'.links[i].ba, Announcing) + lost <= Weigh(st.links[i].ba, Announcing)
    ensures Total(Others(st', j)) + (if j == i then 0 else lost) <= Total(Others(st, j))
  {
    hide Weigh;
    TotalChanges(Others(st, j), Others(st', j), i, 0);
  }

  lemma ComingAtReceive(st: Star, i: nat, j: nat)
    requires StarInv(st) && StarEnabled(st, HubReceive(i)) && j < |st.links|
    ensures Coming(StarStep(st, HubReceive(i)), j) <= Coming(st, j)
  {
    var st' := StarStep(st, HubReceive(i));
    var learns := Learns(st.links[i].a, st.links[i].ba[0]);
    LinkOf(st, i);
    FlowReceived(st.links[i], Announcing);
    ReachedSelf(st, i);
    hide StarInv, Weigh, Learns, Inv, EnabledLeft, StepLeft, Reached, Others;
    forall k | 0 <= k < |st.links| && k != i ensures st'.links[k].ba == st.links[k].ba {
      FlowReached(st, i, k, Announcing);
    }
    if j != i {
      FlowReached(st, i, j, Announcing);
    }
    OthersShrink(st, st', i, j, if learns then 1 else 0);
  }

  lemma ReachedSelf(st: Star, i: nat)
    requires i < |st.links| && EnabledLeft(st.links[i], Receive)
    ensures Reached(st, i, i) == StepLeft(st.links[i], Receive)
  {
  }

  /** A leaf adds to what is coming to the others, and takes from what is coming to itself. */
  lemma ComingMoves(st: Star, st': Star, i: nat, j: nat, gain: nat, heard: nat)
    requires |st'.links| == |st.links| && i < |st.links| && j < |st.links|
    requires forall k :: 0 <= k < |st.links| && k != i ==> st'.links[k] == st.links[k]
    requires Weigh(st'.links[i].ba, Announcing) <= Weigh(st.links[i].ba, Announcing) + gain
    requires Weigh(st'.links[i].ab, Announcing) + heard <= Weigh(st.links[i].ab, Announcing)
    ensures Coming(st', j) + (if j == i then heard else 0) <= Coming(st, j) + (if j == i then 0 else gain)
  {
    hide Weigh;
    TotalChanges(Others(st, j), Others(st', j), i, 0);
    hide Total;
  }

  lemma LeafStep(st: Star, i: nat, act: Act)
    requires StarEnabled(st, Leaf(i, act))
    ensures var st' := StarStep(st, Leaf(i, act));
      && st'.links[i] == Flip(StepLeft(Flip(st.links[i]), act))
      && forall k :: 0 <= k < |st.links| && k != i ==> st'.links[k] == st.links[k]
  {
    hide StepLeft, EnabledLeft;
  }

  lemma FlowAnnounced(s: State, act: Act)
    requires Inv(s) && s.a.calls == NoCalls && EnabledLeft(Flip(s), act) && Sound(Flip(s), act)
    ensures var t := Flip(StepLeft(Flip(s), act));
      && Weigh(t.ba, Announcing) <= Weigh(s.ba, Announcing) + (if act.AppAttach? then 1 else 0)
      && Weigh(t.ab, Announcing) + HeardBy(s, act) <= Weigh(s.ab, Announcing)
  {
    hide *;
    FlowLeaf(s, act, Announcing);
    FlowsAnnounced(s, act, Flip(StepLeft(Flip(s), act)));
  }

  lemma FlowsAnnounced(s: State, act: Act, t: State)
    requires EnabledLeft(Flip(s), act) && Flows(s, act, t, Announcing)
    ensures Weigh(t.ba, Announcing) <= Weigh(s.ba, Announcing) + (if act.AppAttach? then 1 else 0)
    ensures Weigh(t.ab, Announcing) + HeardBy(s, act) <= Weigh(s.ab, Announcing)
  {
    hide Weigh;
  }

  function HeardBy(s: State, act: Act): nat
    requires EnabledLeft(Flip(s), act)
  {
    if act.Receive? && Structural(s.ab[0]) then 1 else 0
  }

  lemma LeafCounts(st: Star, i: nat, act: Act, j: nat)
    requires StarEnabled(st, Leaf(i, act)) && j < |st.links|
    ensures HeardIn(st, Leaf(i, act), j) == if j == i then HeardBy(st.links[i], act) else 0
  {
  }

  lemma ComingAtLeaf(st: Star, i: nat, act: Act, j: nat)
    requires StarInv(st) && StarEnabled(st, Leaf(i, act)) && StarSound(st, Leaf(i, act)) && j < |st.links|
    ensures Coming(StarStep(st, Leaf(i, act)), j) + HeardIn(st, Leaf(i, act), j) <= Coming(st, j)
      + ElsewhereIn(Leaf(i, act), j)
  {
    LinkOf(st, i);
    hide StarInv, Inv, StepLeft, Weigh, Coming, EnabledLeft;
    LeafStep(st, i, act);
    hide StarStep;
    FlowAnnounced(st.links[i], act);
    LeafCounts(st, i, act, j);
    hide HeardIn;
    ComingMoves(st, StarStep(st, Leaf(i, act)), i, j, if act.AppAttach? then 1 else 0, HeardBy(st.links[i], act));
  }

  lemma ComingStep(st: Star, e: StarEvent, j: nat)
    requires StarInv(st) && StarEnabled(st, e) && StarSound(st, e) && j < |st.links|
    ensures Coming(StarStep(st, e), j) + HeardIn(st, e, j) <= Coming(st, j) + ElsewhereIn(e, j)
  {
    hide StarInv, StarStep, Coming, StarEnabled;
    match e {
      case Connect(leaf) => ComingAtConnect(st, leaf, j);
      case HubAttach(p, name) => ComingAtAttach(st, p, name, j);
      case HubReceive(i) => ComingAtReceive(st, i, j);
      case Leaf(i, act) => ComingAtLeaf(st, i, act, j);
    }
  }

  lemma {:induction false} HeardAtMost(st: Star, events: seq<StarEvent>, j: nat)
    requires StarInv(st) && IsStarRun(st, events) && j < |st.links|
    ensures Heard(st, events, j) <= Coming(st, j) + Elsewhere(events, j)
    decreases |events|
  {
    if events != [] {
      var e := events[0];
      hide StarInv, StarStep, Coming, HeardIn, ElsewhereIn, StarEnabled;
      StarKeeps(st, e);
      ComingStep(st, e, j);
      HeardAtMost(StarStep(st, e), events[1..], j);
    }
  }

  /** In every run, leaf `j` hears of no more nodes than other ends attached, and those that were
      on their way when the run began; attaches of its own never come back to it. */
  lemma ToldOnceEach(st: Star, events: seq<StarEvent>, j: nat)
    requires Reachable(st) && IsStarRun(st, events) && j < |st.links|
    ensures Heard(st, events, j) <= Coming(st, j) + Elsewhere(events, j)
  {
    ReachableStarInv(st);
    HeardAtMost(st, events, j);
    hide *;
  }

  /** A connection is told of a new node exactly when its peer subscribed to the parent, or the
      parent is a proxy of it, and the name was free; then it is told once, and where the node hangs. */
  predicate ToldRight(s: State, p: Node, name: Name, t: State) {
    if (p, name) in s.a.edges || (p !in s.a.listening && p !in s.a.own) then t.ab == s.ab
    else
      && |t.ab| == |s.ab| + 1 && t.ab[..|s.ab|] == s.ab && Structural(t.ab[|s.ab|])
      && t.ab[|s.ab|].parent in s.a.tracked && s.a.tracked[t.ab[|s.ab|].parent] == p
      && t.ab[|s.ab|].name == name && t.ab[|s.ab|].child in t.a.tracked && t.a.tracked[t.ab[|s.ab|].child] == s.a.nodes
  }

  lemma NotifiedRight(s: State, p: Node, name: Name)
    requires Inv(s) && p < s.a.nodes
    ensures ToldRight(s, p, name, Notified(s, p, name))
  {
    OwnBelow(s.a, s.b);
    AttachNodeNew(s.a, s.b, p, name, s.next);
    ProxyNid(s, p);
    assert p in s.a.listening ==> s.a.listening[p] in s.a.tracked && s.a.tracked[s.a.listening[p]] == p by {
      assert ListeningOk(s.a, s.b);
    }
    hide Inv, AttachNode;
    TellingRight(s, p, name);
    hide AttachedNew, ToldRight;
  }

  lemma TellingRight(s: State, p: Node, name: Name)
    requires p in s.a.listening ==> s.a.listening[p] in s.a.tracked && s.a.tracked[s.a.listening[p]] == p
    requires p in s.a.own ==> s.a.own[p].nid in s.a.tracked && s.a.tracked[s.a.own[p].nid] == p
    ensures var (a, ms, next) := AttachedNew(s.a, p, name, s.next);
      ToldRight(s, p, name, s.(a := a, ab := s.ab + ms, next := next))
  {
    assert s.ab + [] == s.ab;
  }

  /** The hub's application attaches a node: that is how it reaches each connection. */
  lemma HubAttachTells(st: Star, p: Node, name: Name, j: nat)
    requires Reachable(st) && StarEnabled(st, HubAttach(p, name)) && j < |st.links|
    ensures ToldRight(st.links[j], p, name, StarStep(st, HubAttach(p, name)).links[j])
  {
    ReachableStarInv(st);
    LinkOf(st, j);
    hide Reachable, StarInv, ToldRight, Inv;
    NotifiedRight(st.links[j], p, name);
    hide Notified;
  }

  lemma StepLink(st: Star, i: nat, j: nat)
    requires i < |st.links| && EnabledLeft(st.links[i], Receive) && j < |st.links|
    ensures StarStep(st, HubReceive(i)).links[j] == Reached(st, i, j)
  {
    hide Reached, Learns, Grown;
  }

  lemma PassedRight(st: Star, i: nat, j: nat)
    requires i < |st.links| && EnabledLeft(st.links[i], Receive) && j < |st.links|
    requires PassedOn(st, i, j) && Inv(st.links[j])
    ensures var x, m, s, t := st.links[i].a, st.links[i].ba[0], st.links[j], Reached(st, i, j);
      if Learns(x, m) then ToldRight(s, x.tracked[m.parent], m.name, t) else t == s
  {
    hide Inv, Notified, ToldRight, Reached;
    var x, m := st.links[i].a, st.links[i].ba[0];
    if Learns(x, m) {
      NotifiedRight(st.links[j], x.tracked[m.parent], m.name);
    }
  }

  /** Connection `i` brings a node: that is how it reaches each other connection. */
  lemma HubReceiveTells(st: Star, i: nat, j: nat)
    requires Reachable(st) && StarEnabled(st, HubReceive(i)) && j < |st.links| && j != i
    ensures var x, m, s, t := st.links[i].a, st.links[i].ba[0], st.links[j], StarStep(st, HubReceive(i)).links[j];
      if Learns(x, m) then ToldRight(s, x.tracked[m.parent], m.name, t) else t == s
  {
    assert EnabledLeft(st.links[i], Receive);
    hide *;
    ReachableStarInv(st);
    LinkOf(st, j);
    PassesOn(st, i, j);
    StepLink(st, i, j);
    PassedRight(st, i, j);
  }

  /** What goes back for a message. */
  function Back(x: Side, m: Msg): seq<Msg> { if Learns(x, m) then [Subscribe(m.child)] else [] }

  predicate GoesBack(s: State, t: State) { s.ba != [] && t.ab == s.ab + Back(s.a, s.ba[0]) }

  lemma SubscriptionBack(s: State)
    requires Inv(s) && EnabledLeft(s, Receive)
    ensures GoesBack(s, StepLeft(s, Receive))
  {
    hide Inv, StepLeft, Grown, TreeOf, Learns, AnswerOnly;
    HubReceives(s);
    hide EnabledLeft;
    assert s.ab + [] == s.ab;
  }

  /** And connection `i` gets nothing back but a subscription to its children. */
  lemma NothingComesBack(st: Star, i: nat)
    requires Reachable(st) && StarEnabled(st, HubReceive(i))
    ensures var x, m, s, t := st.links[i].a, st.links[i].ba[0], st.links[i], StarStep(st, HubReceive(i)).links[i];
      t.ab == s.ab + if Learns(x, m) then [Subscribe(m.child)] else []
  {
    hide Reachable, StarInv, Inv, StepLeft, Grown, Reached, Learns;
    ReachableStarInv(st);
    LinkOf(st, i);
    ReachedSelf(st, i);
    SubscriptionBack(st.links[i]);
    assert StarStep(st, HubReceive(i)).links[i] == Reached(st, i, i);
    hide StarStep, Inv;
  }

  lemma ProxyNid(s: State, p: Node)
    requires Inv(s)
    ensures p in s.a.own ==> s.a.own[p].nid in s.a.tracked && s.a.tracked[s.a.own[p].nid] == p
  {
    if p in s.a.own {
      assert ProxyOk(s.a, s.b, p);
    }
  }

  // ---------- Everything dies out ----------

  /** What processes messages, as opposed to starting something new. */
  predicate Reaction(e: StarEvent) {
    e.HubReceive? || (e.Leaf? && (e.act.Receive? || e.act.FetchDone? || e.act.ValueDone?))
  }

  /** What is still to be done on a link of a star of `n`: an announcement from a leaf may be passed
      on to all others. */
  function LinkWork(s: State, n: nat): nat {
    Weigh(s.ba, Worth(2 * n, 1, 2)) + Weigh(s.ab, Worth(2, 1, 2)) + Answers(s.b)
  }

  function Works(st: Star): seq<nat> {
    seq(|st.links|, i requires 0 <= i < |st.links| => LinkWork(st.links[i], |st.links|))
  }

  function Work(st: Star): nat { Total(Works(st)) }

  /** One message less on the way from the leaf, a subscription more at most on the way to it. */
  lemma WorkTraded(s: State, t: State, m: Msg, learns: bool, n: nat)
    requires n >= 1 && AnswerOnly(m, s.b, t.b) && (learns ==> Structural(m))
    requires var w := Worth(2 * n, 1, 2); Weigh(s.ba, w) == One(m, w) + Weigh(t.ba, w)
    requires var w := Worth(2, 1, 2); Weigh(t.ab, w) == Weigh(s.ab, w) + (if learns then 1 else 0)
    ensures LinkWork(t, n) + (if learns then 2 * n - 1 else 1) <= LinkWork(s, n)
  {
    hide Weigh;
  }

  lemma WorkAtReceive(s: State, n: nat)
    requires Inv(s) && EnabledLeft(s, Receive) && n >= 1
    ensures LinkWork(StepLeft(s, Receive), n) + (if Learns(s.a, s.ba[0]) then 2 * n - 1 else 1) <= LinkWork(s, n)
  {
    assert s.ba != [];
    hide *;
    FlowReceived(s, Worth(2 * n, 1, 2));
    FlowReceived(s, Worth(2, 1, 2));
    WorkTraded(s, StepLeft(s, Receive), s.ba[0], Learns(s.a, s.ba[0]), n);
  }

  lemma WorkFlows(s: State, act: Act, t: State, n: nat)
    requires n >= 1 && EnabledLeft(Flip(s), act) && (act.Receive? || act.FetchDone? || act.ValueDone?)
    requires Flows(s, act, t, Worth(2 * n, 1, 2)) && Flows(s, act, t, Worth(2, 1, 2))
    ensures LinkWork(t, n) < LinkWork(s, n)
  {
    hide Weigh;
  }

  lemma WorkAtLeaf(s: State, act: Act, n: nat)
    requires Inv(s) && s.a.calls == NoCalls && EnabledLeft(Flip(s), act) && Sound(Flip(s), act) && n >= 1
    requires act.Receive? || act.FetchDone? || act.ValueDone?
    ensures LinkWork(Flip(StepLeft(Flip(s), act)), n) < LinkWork(s, n)
  {
    hide *;
    FlowLeaf(s, act, Worth(2 * n, 1, 2));
    FlowLeaf(s, act, Worth(2, 1, 2));
    WorkFlows(s, act, Flip(StepLeft(Flip(s), act)), n);
  }

  predicate WorksTo(st: Star, i: nat, j: nat)
    requires i < |st.links| && EnabledLeft(st.links[i], Receive) && j < |st.links|
  {
    var n, learns := |st.links|, Learns(st.links[i].a, st.links[i].ba[0]);
    LinkWork(Reached(st, i, j), n) <= LinkWork(st.links[j], n) + (if learns then 2 else 0)
  }

  lemma WorkTold(st: Star, i: nat, j: nat)
    requires i < |st.links| && EnabledLeft(st.links[i], Receive) && j < |st.links| && FlowsTo(st, i, j, Worth(2, 1, 2))
    ensures WorksTo(st, i, j)
  {
    hide Weigh, Reached, Learns, EnabledLeft;
  }

  lemma WorkAtOthers(st: Star, i: nat, j: nat)
    requires i < |st.links| && EnabledLeft(st.links[i], Receive) && j < |st.links| && j != i && StarInv(st)
    ensures WorksTo(st, i, j)
  {
    hide *;
    FlowReached(st, i, j, Worth(2, 1, 2));
    WorkTold(st, i, j);
  }

  lemma HubReceiveShrinks(st: Star, i: nat)
    requires StarInv(st) && StarEnabled(st, HubReceive(i))
    ensures Work(StarStep(st, HubReceive(i))) < Work(st)
  {
    var st' := StarStep(st, HubReceive(i));
    var n, learns := |st.links|, Learns(st.links[i].a, st.links[i].ba[0]);
    LinkOf(st, i);
    WorkAtReceive(st.links[i], n);
    ReachedSelf(st, i);
    hide StarInv, Learns, Inv, EnabledLeft, StepLeft, Reached, LinkWork;
    forall j | 0 <= j < n && j != i ensures Works(st')[j] <= Works(st)[j] + (if learns then 2 else 0) {
      WorkAtOthers(st, i, j);
    }
    TotalChanges(Works(st), Works(st'), i, if learns then 2 else 0);
  }

  lemma LeafShrinks(st: Star, i: nat, act: Act)
    requires StarInv(st) && StarEnabled(st, Leaf(i, act)) && StarSound(st, Leaf(i, act)) && Reaction(Leaf(i, act))
    ensures Work(StarStep(st, Leaf(i, act))) < Work(st)
  {
    var st' := StarStep(st, Leaf(i, act));
    LinkOf(st, i);
    WorkAtLeaf(st.links[i], act, |st.links|);
    hide StarInv, Inv, EnabledLeft, StepLeft, LinkWork;
    TotalChanges(Works(st), Works(st'), i, 0);
  }

  lemma ReactionShrinks(st: Star, e: StarEvent)
    requires StarInv(st) && StarEnabled(st, e) && StarSound(st, e) && Reaction(e)
    ensures Work(StarStep(st, e)) < Work(st)
  {
    hide StarInv, Work, StarEnabled, StarStep;
    match e {
      case HubReceive(i) => HubReceiveShrinks(st, i);
      case Leaf(i, act) => LeafShrinks(st, i, act);
    }
  }

  lemma {:induction false} ReactionsShrink(st: Star, events: seq<StarEvent>)
    requires StarInv(st) && IsStarRun(st, events) && forall e :: e in events ==> Reaction(e)
    ensures |events| + Work(StarAfter(st, events)) <= Work(st)
    decreases |events|
  {
    hide StarInv, StarStep, Work, StarEnabled, Reaction;
    if events != [] {
      var e := events[0];
      StarKeeps(st, e);
      ReactionShrinks(st, e);
      ReactionsShrink(StarStep(st, e), events[1..]);
    }
  }

  /** However messages are processed, there is an end to it: so many steps remain at most. */
  lemma ReactionsEnd(st: Star, events: seq<StarEvent>)
    requires Reachable(st) && IsStarRun(st, events) && forall e :: e in events ==> Reaction(e)
    ensures |events| + Work(StarAfter(st, events)) <= Work(st)
  {
    ReachableStarInv(st);
    ReactionsShrink(st, events);
    hide *;
  }

  predicate Idle(s: State) { s.ab == [] && s.ba == [] && !Locked(s.b) }

  /** The leaf holds an answer that was overtaken: what it would track is tracked already. */
  predicate Overtaken(s: State) {
    var done := FetchDone(s.b.calls.holder);
    EnabledLeft(Flip(s), done) && !Sound(Flip(s), done)
  }

  predicate Settled(s: State) { Idle(s) || (s.ba == [] && Overtaken(s)) }

  /** No processing is enabled, but of what was overtaken. */
  ghost predicate Quiet(st: Star) { forall e :: StarEnabled(st, e) && StarSound(st, e) ==> !Reaction(e) }

  lemma QuietLink(st: Star, i: nat)
    requires Quiet(st) && i < |st.links|
    ensures NoReaction(st.links[i])
  {
    OthersAreSound(st.links[i]);
    hide EnabledLeft, Sound;
    assert !StarEnabled(st, HubReceive(i));
    assert !StarEnabled(st, Leaf(i, Receive));
    assert !StarEnabled(st, Leaf(i, ValueDone));
    forall c | EnabledLeft(Flip(st.links[i]), FetchDone(c)) ensures !Sound(Flip(st.links[i]), FetchDone(c)) {
      assert StarEnabled(st, Leaf(i, FetchDone(c)));
    }
  }

  lemma NoReactionLeft(st: Star, e: StarEvent)
    requires StarEnabled(st, e) && StarSound(st, e) && forall i :: 0 <= i < |st.links| ==> NoReaction(st.links[i])
    ensures !Reaction(e)
  {
    hide EnabledLeft, Sound;
  }

  lemma SettledLink(st: Star, i: nat)
    requires StarInv(st) && i < |st.links|
    ensures Settled(st.links[i]) <==> NoReaction(st.links[i])
  {
    LinkOf(st, i);
    hide StarInv, BothQueued;
    SettledIff(st.links[i]);
    hide Settled, NoReaction, Inv;
  }

  /** It ends only when there is nothing left: no message in any queue, no blocking call without an
      answer; or with a leaf whose fetch was overtaken. */
  lemma QuietIffSettled(st: Star)
    requires StarInv(st)
    ensures Quiet(st) <==> forall i :: 0 <= i < |st.links| ==> Settled(st.links[i])
  {
    hide StarInv, Settled, NoReaction, Quiet;
    if Quiet(st) {
      forall i | 0 <= i < |st.links| ensures Settled(st.links[i]) {
        QuietLink(st, i);
        SettledLink(st, i);
      }
    }
    if forall i :: 0 <= i < |st.links| ==> Settled(st.links[i]) {
      forall i | 0 <= i < |st.links| ensures NoReaction(st.links[i]) {
        SettledLink(st, i);
      }
      QuietFrom(st);
    }
  }

  lemma QuietFrom(st: Star)
    requires forall i :: 0 <= i < |st.links| ==> NoReaction(st.links[i])
    ensures Quiet(st)
  {
    hide StarEnabled, StarSound, NoReaction, Reaction;
    forall e | StarEnabled(st, e) && StarSound(st, e) ensures !Reaction(e) {
      NoReactionLeft(st, e);
    }
  }

  lemma OthersAreSound(s: State)
    ensures EnabledLeft(Flip(s), Receive) ==> Sound(Flip(s), Receive)
    ensures EnabledLeft(Flip(s), ValueDone) ==> Sound(Flip(s), ValueDone)
  {
  }

  /** No reaction of this link is enabled, but a fetch that was overtaken. */
  ghost predicate NoReaction(s: State) {
    && !EnabledLeft(s, Receive) && !EnabledLeft(Flip(s), Receive) && !EnabledLeft(Flip(s), ValueDone)
    && (forall c :: EnabledLeft(Flip(s), FetchDone(c)) ==> !Sound(Flip(s), FetchDone(c)))
  }

  lemma SettledIff(s: State)
    requires s.a.calls == NoCalls && BothQueued(s)
    ensures Settled(s) <==> NoReaction(s)
  {
    var done := FetchDone(s.b.calls.holder);
    assert forall c :: EnabledLeft(Flip(s), FetchDone(c)) ==> FetchDone(c) == done;
    assert s.b.calls.reply.Some? && s.b.calls.fetching.Some? ==> EnabledLeft(Flip(s), done);
  }

  /** From any reachable state, processing messages leads there. */
  lemma CanDrain(st: Star) returns (events: seq<StarEvent>)
    requires Reachable(st)
    ensures IsStarRun(st, events) && (forall e :: e in events ==> Reaction(e))
    ensures forall i :: 0 <= i < |StarAfter(st, events).links| ==> Settled(StarAfter(st, events).links[i])
  {
    ReachableStarInv(st);
    hide *;
    events := Drain(st);
  }

  lemma {:induction false} Drain(st: Star) returns (events: seq<StarEvent>)
    requires StarInv(st)
    ensures IsStarRun(st, events) && (forall e :: e in events ==> Reaction(e))
    ensures forall i :: 0 <= i < |StarAfter(st, events).links| ==> Settled(StarAfter(st, events).links[i])
    decreases Work(st)
  {
    hide StarInv, StarStep, StarEnabled, StarSound, Work, Settled;
    if e :| StarEnabled(st, e) && StarSound(st, e) && Reaction(e) {
      StarKeeps(st, e);
      ReactionShrinks(st, e);
      var rest := Drain(StarStep(st, e));
      events := [e] + rest;
      assert events[1..] == rest;
    } else {
      events := [];
      QuietIffSettled(st);
    }
  }
}
