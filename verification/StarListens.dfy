/** What a connection to a hub is for: it begins as any connection does, the leaf is subscribed to the hub's root
    once its first message was handled, and from then on it comes to have what is attached there. */
module StarListens {
  import opened Bytes
  import opened Packages
  import opened Mirror
  import opened MirrorProof
  import opened MirrorRuns
  import opened MirrorWaits
  import opened MirrorHears
  import opened Star
  import opened StarRuns
  import opened StarOrigins

  /** A connection opened at a hub is in the state that runs of one connection start from; the leaf is the end
      that subscribes. */
  lemma ConnectionBegins(st: Star, leaf: Side)
    requires StarRuns.Reachable(st) && StarEnabled(st, Connect(leaf))
    ensures var t := StarStep(st, Connect(leaf));
      && t.tree == st.tree && |t.links| == |st.links| + 1 && t.links[..|st.links|] == st.links
      && Initial(Flip(t.links[|st.links|])) && TreeOf(t.links[|st.links|].a) == st.tree && t.links[|st.links|].b == leaf
  {
    ReachableStarInv(st);
    hide StarRuns.Reachable, LinkOk, Disjoint;
  }

  // ---------- The subscription ----------

  /** The hub's end listens to the root, or the subscription is the next message it receives. */
  predicate WillListen(s: State) {
    s.a.root in s.a.listening || (s.ba != [] && s.ba[0] == Subscribe(0))
  }

  /** What a step leaves of the queue to the hub, and of those it listens to. */
  predicate Keeps(s: State, t: State, popped: bool) {
    && t.a.root == s.a.root && KeepsListening(s.a, t.a)
    && (if popped then s.ba != [] && t.ba == s.ba[1..] else |s.ba| <= |t.ba| && t.ba[..|s.ba|] == s.ba)
  }

  lemma SelfKeeps(s: State)
    ensures Keeps(s, s, false)
  {
  }

  lemma NotifiedKeeps(s: State, p: Node, name: Name)
    requires p < s.a.nodes && Inv(s)
    ensures Keeps(s, Notified(s, p, name), false)
  {
    NotifiedFields(s, p, name);
    HungListens(NewNode(s.a), p, name, s.a.nodes, s.next);
    hide Inv, AttachNode;
  }

  lemma ReceiveKeeps(s: State)
    requires EnabledLeft(s, Receive) && Inv(s)
    ensures Keeps(s, StepLeft(s, Receive), true)
  {
    LeftKeepsQueue(s, Receive);
    ReceiveListens(s);
    ReceiveGrows(s);
    hide Inv, StepLeft, EnabledLeft;
  }

  lemma LeafKeeps(s: State, act: Act)
    requires EnabledLeft(Flip(s), act) && Sound(Flip(s), act) && s.a.calls == NoCalls && Inv(s)
    ensures Keeps(s, Flip(StepLeft(Flip(s), act)), false)
  {
    HubSideStays(s, act);
    SentIsAppended(Flip(s), act);
    hide Inv, StepLeft, EnabledLeft, Sound, SentByLeft;
  }

  lemma ReachedKeeps(st: Star, r: nat, j: nat)
    requires r < |st.links| && EnabledLeft(st.links[r], Receive) && j < |st.links| && StarInv(st)
    ensures Keeps(st.links[j], Reached(st, r, j), j == r)
  {
    hide *;
    LinkOf(st, j);
    if j == r {
      ReachedSelf(st, r);
      ReceiveKeeps(st.links[r]);
    } else {
      PassesOn(st, r, j);
      PassedKeeps(st, r, j);
    }
  }

  lemma PassedKeeps(st: Star, r: nat, j: nat)
    requires r < |st.links| && EnabledLeft(st.links[r], Receive) && j < |st.links| && PassedOn(st, r, j)
    requires Inv(st.links[j])
    ensures Keeps(st.links[j], Reached(st, r, j), false)
  {
    hide Inv, Keeps, Notified, Reached;
    var x, m := st.links[r].a, st.links[r].ba[0];
    if Learns(x, m) {
      NotifiedKeeps(st.links[j], x.tracked[m.parent], m.name);
    } else {
      SelfKeeps(st.links[j]);
    }
  }

  lemma LinkKeeps(st: Star, e: StarEvent, j: nat)
    requires StarEnabled(st, e) && StarSound(st, e) && j < |st.links| && StarInv(st)
    ensures Keeps(st.links[j], StarStep(st, e).links[j], e == HubReceive(j))
  {
    hide StarInv, StepLeft, Notified, Reached, EnabledLeft, Sound, Inv, Keeps, BothQueued, Learns, Grown;
    LinkOf(st, j);
    match e {
      case Connect(leaf) => SelfKeeps(st.links[j]);
      case HubAttach(p, name) => NotifiedKeeps(st.links[j], p, name);
      case HubReceive(r) => ReachedKeeps(st, r, j);
      case Leaf(r, act) =>
        if r == j {
          LeafKeeps(st.links[j], act);
        } else {
          SelfKeeps(st.links[j]);
        }
    }
  }

  lemma WillListenOn(s: State, t: State)
    requires Keeps(s, t, false) && WillListen(s)
    ensures WillListen(t)
  {
    if s.ba != [] {
      assert t.ba[0] == t.ba[..|s.ba|][0];
    }
  }

  lemma NowListens(s: State)
    requires EnabledLeft(s, Receive) && WillListen(s) && Inv(s)
    ensures var t := StepLeft(s, Receive); t.a.root in t.a.listening
  {
    ReceiveListens(s);
    ReceiveKeeps(s);
    assert 0 in s.a.tracked && s.a.tracked[0] == s.a.root;
    hide Inv, StepLeft, EnabledLeft;
  }

  lemma WillListenStep(st: Star, e: StarEvent, j: nat)
    requires StarEnabled(st, e) && StarSound(st, e) && j < |st.links| && WillListen(st.links[j]) && StarInv(st)
    ensures WillListen(StarStep(st, e).links[j])
    ensures e == HubReceive(j) ==> Listens(StarStep(st, e).links[j])
  {
    if e == HubReceive(j) {
      hide *;
      LinkOf(st, j);
      Receives(st, j);
      NowListens(st.links[j]);
      IsListening(StepLeft(st.links[j], Receive));
    } else {
      hide *;
      LinkKeeps(st, e, j);
      WillListenOn(st.links[j], StarStep(st, e).links[j]);
    }
  }

  predicate Listens(s: State) { s.a.root in s.a.listening }

  lemma IsListening(s: State)
    requires s.a.root in s.a.listening
    ensures Listens(s) && WillListen(s)
  {
  }

  lemma Receives(st: Star, j: nat)
    requires StarEnabled(st, HubReceive(j)) && j < |st.links|
    ensures EnabledLeft(st.links[j], Receive)
    ensures StarStep(st, HubReceive(j)).links[j] == StepLeft(st.links[j], Receive)
  {
    StepLink(st, j, j);
    ReachedSelf(st, j);
    hide StarStep, StepLeft, Reached;
  }

  lemma {:induction false} WillListenRun(st: Star, events: seq<StarEvent>, j: nat)
    requires IsStarRun(st, events) && j < |st.links| && WillListen(st.links[j]) && StarInv(st)
    ensures j < |StarAfter(st, events).links| && WillListen(StarAfter(st, events).links[j])
    ensures Listens(st.links[j]) || HubReceive(j) in events ==> Listens(StarAfter(st, events).links[j])
    decreases |events|
  {
    hide StarInv, StarStep, StarEnabled, StarSound, WillListen, Listens;
    if events != [] {
      var e, t := events[0], StarStep(st, events[0]);
      assert |t.links| >= |st.links| by { MoreLinks(st, e); }
      StarKeeps(st, e);
      WillListenStep(st, e, j);
      LinkKeeps(st, e, j);
      if Listens(st.links[j]) {
        ListensOn(st.links[j], t.links[j], e == HubReceive(j));
      }
      WillListenRun(t, events[1..], j);
    }
  }

  lemma MoreLinks(st: Star, e: StarEvent)
    requires StarEnabled(st, e)
    ensures |StarStep(st, e).links| >= |st.links|
  {
  }

  lemma ListensOn(s: State, t: State, popped: bool)
    requires Keeps(s, t, popped) && Listens(s)
    ensures Listens(t)
  {
  }

  /** A leaf that has connected is listened for at the hub's root for good, from when the hub has received one
      message from it, whatever else goes on. */
  lemma ConnectedListens(st: Star, leaf: Side, events: seq<StarEvent>)
    requires StarRuns.Reachable(st) && StarEnabled(st, Connect(leaf))
    requires IsStarRun(StarStep(st, Connect(leaf)), events) && HubReceive(|st.links|) in events
    ensures var t, j := StarAfter(StarStep(st, Connect(leaf)), events), |st.links|;
      j < |t.links| && t.links[j].a.root in t.links[j].a.listening
  {
    ReachableStarInv(st);
    ConnectionBegins(st, leaf);
    var st1, j := StarStep(st, Connect(leaf)), |st.links|;
    assert StarInv(st1) by { hide StarInv; StarKeeps(st, Connect(leaf)); }
    assert WillListen(st1.links[j]);
    hide StarInv, StarStep, StarRuns.Reachable, Initial, IsStarRun, StarAfter, WillListen;
    WillListenRun(st1, events, j);
  }

  // ---------- What is told arrives ----------

  /** One message more: it tells of the hub's new node, where it hangs. */
  predicate IsTold(s: State, p: Node, name: Name, t: State) {
    && |t.ab| == |s.ab| + 1 && t.ab[..|s.ab|] == s.ab && Structural(t.ab[|s.ab|])
    && t.ab[|s.ab|].parent in s.a.tracked && s.a.tracked[t.ab[|s.ab|].parent] == p
    && t.ab[|s.ab|].name == name && t.ab[|s.ab|].child in t.a.tracked && t.a.tracked[t.ab[|s.ab|].child] == s.a.nodes
  }

  /** The announcement is under way to the leaf, or has arrived. */
  predicate Owed(s: State, m: Msg)
    requires Structural(m)
  {
    m in s.ab || Arrived(s.b, m)
  }

  lemma OwedOn(s: State, t: State, popped: bool, m: Msg)
    requires Structural(m) && Owed(s, m) && QueueGoesOn(s, t, popped) && Grows(s.b, t.b)
    requires popped && s.ab[0] == m ==> Arrived(t.b, m)
    ensures Owed(t, m)
  {
    if Arrived(s.b, m) {
      ArrivedStays(s.b, t.b, m);
    }
  }

  lemma PoppedSome(s: State, t: State, popped: bool)
    requires QueueGoesOn(s, t, popped)
    ensures popped ==> s.ab != []
  {
  }

  lemma NotifiedPeer(s: State, p: Node, name: Name)
    requires p < s.a.nodes && Inv(s)
    ensures Grows(s.b, Notified(s, p, name).b)
  {
    NotifiedFields(s, p, name);
    SelfGrows(s.b);
    hide Inv, Notified;
  }

  lemma ReachedPeer(st: Star, r: nat, j: nat)
    requires r < |st.links| && EnabledLeft(st.links[r], Receive) && j < |st.links| && StarInv(st)
    ensures Grows(st.links[j].b, Reached(st, r, j).b)
  {
    hide *;
    LinkOf(st, j);
    if j == r {
      ReachedSelf(st, r);
      ReceiveGrows(st.links[r]);
    } else {
      PassesOn(st, r, j);
      PassedPeer(st, r, j);
    }
  }

  lemma PassedPeer(st: Star, r: nat, j: nat)
    requires r < |st.links| && EnabledLeft(st.links[r], Receive) && j < |st.links| && PassedOn(st, r, j)
    requires Inv(st.links[j])
    ensures Grows(st.links[j].b, Reached(st, r, j).b)
  {
    hide Inv, Grows, Notified, Reached;
    var x, m := st.links[r].a, st.links[r].ba[0];
    if Learns(x, m) {
      NotifiedPeer(st.links[j], x.tracked[m.parent], m.name);
    } else {
      SelfGrows(st.links[j].b);
    }
  }

  lemma LeafPeer(s: State, act: Act)
    requires EnabledLeft(Flip(s), act) && Sound(Flip(s), act) && Inv(s)
    ensures Grows(s.b, Flip(StepLeft(Flip(s), act)).b)
  {
    FlipInv(s);
    hide Inv, StepLeft, Grows, EnabledLeft, Sound;
    StepGrows(Flip(s), act);
  }

  /** A leaf's own side only grows. */
  lemma LeafEndGrows(st: Star, e: StarEvent, j: nat)
    requires StarEnabled(st, e) && StarSound(st, e) && j < |st.links| && StarInv(st)
    ensures Grows(st.links[j].b, StarStep(st, e).links[j].b)
  {
    hide StarInv, StepLeft, Notified, Reached, EnabledLeft, Sound, Inv, Grows, BothQueued, Learns, Grown;
    LinkOf(st, j);
    SelfGrows(st.links[j].b);
    match e {
      case Connect(leaf) =>
      case HubAttach(p, name) => NotifiedPeer(st.links[j], p, name);
      case HubReceive(r) => ReachedPeer(st, r, j);
      case Leaf(r, act) =>
        if r == j {
          LeafPeer(st.links[j], act);
        }
    }
  }

  lemma LeafReceives(st: Star, j: nat, m: Msg)
    requires StarEnabled(st, Leaf(j, Receive)) && j < |st.links| && st.links[j].ab != [] && st.links[j].ab[0] == m
    requires Structural(m) && StarInv(st)
    ensures Arrived(StarStep(st, Leaf(j, Receive)).links[j].b, m)
  {
    LinkOf(st, j);
    LeafStep(st, j, Receive);
    hide StarInv, StarStep, StepLeft, Arrived, Inv, BothQueued;
    FlipInv(st.links[j]);
    ReceivedArrives(Flip(st.links[j]));
  }

  lemma OwedStep(st: Star, e: StarEvent, j: nat, m: Msg)
    requires StarEnabled(st, e) && StarSound(st, e) && j < |st.links| && StarInv(st)
    requires Structural(m) && Owed(st.links[j], m)
    ensures Owed(StarStep(st, e).links[j], m)
  {
    var popped := e == Leaf(j, Receive);
    hide *;
    QueueStep(st, e, j);
    LeafEndGrows(st, e, j);
    PoppedSome(st.links[j], StarStep(st, e).links[j], popped);
    if popped && st.links[j].ab[0] == m {
      LeafReceives(st, j, m);
    }
    OwedOn(st.links[j], StarStep(st, e).links[j], popped, m);
  }

  lemma {:induction false} OwedRun(st: Star, events: seq<StarEvent>, j: nat, m: Msg)
    requires IsStarRun(st, events) && j < |st.links| && StarInv(st) && Structural(m) && Owed(st.links[j], m)
    ensures j < |StarAfter(st, events).links| && Owed(StarAfter(st, events).links[j], m)
    decreases |events|
  {
    hide StarInv, StarStep, StarEnabled, StarSound, Owed;
    if events != [] {
      var e := events[0];
      MoreLinks(st, e);
      StarKeeps(st, e);
      OwedStep(st, e, j, m);
      OwedRun(StarStep(st, e), events[1..], j, m);
    }
  }

  lemma ToldIsOwed(s: State, p: Node, name: Name, t: State)
    requires IsTold(s, p, name, t)
    ensures Owed(t, t.ab[|s.ab|])
  {
    hide Arrived;
  }

  lemma OwedHasArrived(s: State, m: Msg)
    requires Structural(m) && Owed(s, m) && s.ab == []
    ensures Arrived(s.b, m)
  {
  }

  /** Free names under nodes that the connection listens to, or knows as proxies, are told. */
  lemma RightIsTold(s: State, p: Node, name: Name, t: State)
    requires ToldRight(s, p, name, t) && (p, name) !in s.a.edges && (p in s.a.listening || p in s.a.own)
    ensures IsTold(s, p, name, t)
  {
  }

  lemma ToldArrives(st: Star, events: seq<StarEvent>, j: nat, s: State, p: Node, name: Name)
    requires IsStarRun(st, events) && j < |st.links| && StarInv(st) && IsTold(s, p, name, st.links[j])
    ensures j < |StarAfter(st, events).links|
    ensures var t := StarAfter(st, events).links[j]; t.ab == [] ==> Arrived(t.b, st.links[j].ab[|s.ab|])
  {
    var m := st.links[j].ab[|s.ab|];
    assert Structural(m);
    ToldIsOwed(s, p, name, st.links[j]);
    hide *;
    OwedRun(st, events, j, m);
    if StarAfter(st, events).links[j].ab == [] {
      OwedHasArrived(StarAfter(st, events).links[j], m);
    }
  }

  /** A node that the hub attaches under a node that a leaf listens to, at a free name: the leaf is told, and when
      the leaf has worked off its queue it has a proxy of it, and something at the place; whatever else went on. */
  lemma AttachReachesLeaf(st: Star, p: Node, name: Name, j: nat, events: seq<StarEvent>)
    requires StarRuns.Reachable(st) && StarEnabled(st, HubAttach(p, name)) && j < |st.links|
    requires (p, name) !in st.tree.edges && (p in st.links[j].a.listening || p in st.links[j].a.own)
    requires IsStarRun(StarStep(st, HubAttach(p, name)), events)
    ensures var s, t := st.links[j], StarStep(st, HubAttach(p, name)).links[j];
      && IsTold(s, p, name, t)
      && j < |StarAfter(StarStep(st, HubAttach(p, name)), events).links|
      && var u := StarAfter(StarStep(st, HubAttach(p, name)), events).links[j];
         u.ab == [] ==> Arrived(u.b, t.ab[|s.ab|])
  {
    var st1 := StarStep(st, HubAttach(p, name));
    ReachableStarInv(st);
    assert StarSound(st, HubAttach(p, name));
    LinkOf(st, j);
    assert st.links[j].a.edges == st.tree.edges;
    hide *;
    StarKeeps(st, HubAttach(p, name));
    HubAttachTells(st, p, name, j);
    RightIsTold(st.links[j], p, name, st1.links[j]);
    ToldArrives(st1, events, j, st.links[j], p, name);
  }

  /** The same for a node that another leaf brings. */
  lemma BroughtReachesLeaf(st: Star, i: nat, j: nat, events: seq<StarEvent>)
    requires StarRuns.Reachable(st) && StarEnabled(st, HubReceive(i)) && j < |st.links| && j != i
    requires Learns(st.links[i].a, st.links[i].ba[0])
    requires var p, name := st.links[i].a.tracked[st.links[i].ba[0].parent], st.links[i].ba[0].name;
      (p, name) !in st.tree.edges && (p in st.links[j].a.listening || p in st.links[j].a.own)
    requires IsStarRun(StarStep(st, HubReceive(i)), events)
    ensures var p, name := st.links[i].a.tracked[st.links[i].ba[0].parent], st.links[i].ba[0].name;
      var s, t := st.links[j], StarStep(st, HubReceive(i)).links[j];
      && IsTold(s, p, name, t)
      && j < |StarAfter(StarStep(st, HubReceive(i)), events).links|
      && var u := StarAfter(StarStep(st, HubReceive(i)), events).links[j];
         u.ab == [] ==> Arrived(u.b, t.ab[|s.ab|])
  {
    var st1 := StarStep(st, HubReceive(i));
    var p, name := st.links[i].a.tracked[st.links[i].ba[0].parent], st.links[i].ba[0].name;
    ReachableStarInv(st);
    assert StarSound(st, HubReceive(i));
    LinkOf(st, j);
    assert st.links[j].a.edges == st.tree.edges;
    HubReceiveTells(st, i, j);
    hide *;
    StarKeeps(st, HubReceive(i));
    RightIsTold(st.links[j], p, name, st1.links[j]);
    ToldArrives(st1, events, j, st.links[j], p, name);
  }

  /** Put together: a leaf connects, and the hub receives its first message sooner or later; from then on what
      the hub attaches under its root, at a free name, is told to the leaf and arrives there. */
  lemma ConnectedIsTold(st: Star, leaf: Side, before: seq<StarEvent>, name: Name, after: seq<StarEvent>)
    requires StarRuns.Reachable(st) && StarEnabled(st, Connect(leaf))
    requires IsStarRun(StarStep(st, Connect(leaf)), before) && HubReceive(|st.links|) in before
    requires var st1 := StarAfter(StarStep(st, Connect(leaf)), before);
      && (st1.tree.root, name) !in st1.tree.edges && StarEnabled(st1, HubAttach(st1.tree.root, name))
      && IsStarRun(StarStep(st1, HubAttach(st1.tree.root, name)), after)
    ensures var st1, j := StarAfter(StarStep(st, Connect(leaf)), before), |st.links|;
      var st2 := StarStep(st1, HubAttach(st1.tree.root, name));
      && j < |st1.links| && IsTold(st1.links[j], st1.tree.root, name, st2.links[j])
      && j < |StarAfter(st2, after).links|
      && var u := StarAfter(st2, after).links[j]; u.ab == [] ==> Arrived(u.b, st2.links[j].ab[|st1.links[j].ab|])
  {
    var st1, j := StarAfter(StarStep(st, Connect(leaf)), before), |st.links|;
    hide *;
    ConnectedListens(st, leaf, before);
    ReachesOn(st, leaf, before);
    RootOf(st1, j);
    AttachReachesLeaf(st1, st1.tree.root, name, j, after);
  }

  /** The same for what another leaf brings under the hub's root. */
  lemma ConnectedIsBrought(st: Star, leaf: Side, before: seq<StarEvent>, i: nat, after: seq<StarEvent>)
    requires StarRuns.Reachable(st) && StarEnabled(st, Connect(leaf))
    requires IsStarRun(StarStep(st, Connect(leaf)), before) && HubReceive(|st.links|) in before
    requires var st1 := StarAfter(StarStep(st, Connect(leaf)), before);
      && StarEnabled(st1, HubReceive(i)) && i != |st.links| && Learns(st1.links[i].a, st1.links[i].ba[0])
      && st1.links[i].a.tracked[st1.links[i].ba[0].parent] == st1.tree.root
      && (st1.tree.root, st1.links[i].ba[0].name) !in st1.tree.edges
      && IsStarRun(StarStep(st1, HubReceive(i)), after)
    ensures var st1, j := StarAfter(StarStep(st, Connect(leaf)), before), |st.links|;
      var st2 := StarStep(st1, HubReceive(i));
      && j < |st1.links| && IsTold(st1.links[j], st1.tree.root, st1.links[i].ba[0].name, st2.links[j])
      && j < |StarAfter(st2, after).links|
      && var u := StarAfter(st2, after).links[j]; u.ab == [] ==> Arrived(u.b, st2.links[j].ab[|st1.links[j].ab|])
  {
    var st1, j := StarAfter(StarStep(st, Connect(leaf)), before), |st.links|;
    hide *;
    ConnectedListens(st, leaf, before);
    ReachesOn(st, leaf, before);
    RootOf(st1, j);
    BroughtReachesLeaf(st1, i, j, after);
  }

  lemma RootOf(st: Star, j: nat)
    requires StarRuns.Reachable(st) && j < |st.links|
    ensures st.links[j].a.root == st.tree.root
  {
    ReachableStarInv(st);
    LinkOf(st, j);
    hide StarRuns.Reachable, StarInv, Inv, BothQueued;
  }

  lemma ReachesOn(st: Star, leaf: Side, before: seq<StarEvent>)
    requires StarRuns.Reachable(st) && StarEnabled(st, Connect(leaf)) && IsStarRun(StarStep(st, Connect(leaf)), before)
    ensures StarRuns.Reachable(StarAfter(StarStep(st, Connect(leaf)), before))
  {
    hide StarStep, StarEnabled, FreshSide;
    var tree, events :| FreshSide(Fresh(tree)) && IsStarRun(Star(tree, []), events)
      && StarAfter(Star(tree, []), events) == st;
    assert StarSound(st, Connect(leaf));
    var more := [Connect(leaf)] + before;
    assert more[1..] == before;
    assert IsStarRun(st, more) && StarAfter(st, more) == StarAfter(StarStep(st, Connect(leaf)), before);
    StarRunsJoin(Star(tree, []), events, more);
    hide IsStarRun, StarAfter, StarSound;
    assert FreshSide(Fresh(tree)) && IsStarRun(Star(tree, []), events + more);
  }

  lemma {:induction false} StarRunsJoin(st: Star, events: seq<StarEvent>, more: seq<StarEvent>)
    requires IsStarRun(st, events) && IsStarRun(StarAfter(st, events), more)
    ensures IsStarRun(st, events + more)
    ensures StarAfter(st, events + more) == StarAfter(StarAfter(st, events), more)
    decreases |events|
  {
    hide StarStep, StarEnabled, StarSound;
    if events == [] {
      assert events + more == more;
    } else {
      assert (events + more)[1..] == events[1..] + more;
      StarRunsJoin(StarStep(st, events[0]), events[1..], more);
    }
  }

  // ---------- What a leaf attaches arrives at the hub ----------

  /** The announcement is under way to the hub, or has arrived. */
  predicate OwedUp(s: State, m: Msg)
    requires Structural(m)
  {
    m in s.ba || Arrived(s.a, m)
  }

  lemma OwedUpOn(s: State, t: State, popped: bool, m: Msg)
    requires Structural(m) && OwedUp(s, m) && Keeps(s, t, popped) && Grows(s.a, t.a)
    requires popped && s.ba[0] == m ==> Arrived(t.a, m)
    ensures OwedUp(t, m)
  {
    if Arrived(s.a, m) {
      ArrivedStays(s.a, t.a, m);
    } else if !popped {
      assert m in t.ba[..|s.ba|];
    }
  }

  lemma PoppedUp(s: State, t: State, popped: bool)
    requires Keeps(s, t, popped)
    ensures popped ==> s.ba != []
  {
  }

  lemma HubHears(st: Star, j: nat, m: Msg)
    requires StarEnabled(st, HubReceive(j)) && j < |st.links| && st.links[j].ba != [] && st.links[j].ba[0] == m
    requires Structural(m) && StarInv(st)
    ensures Arrived(StarStep(st, HubReceive(j)).links[j].a, m)
  {
    LinkOf(st, j);
    Receives(st, j);
    hide StarInv, StarStep, StepLeft, Arrived, Inv, BothQueued, StarEnabled;
    ReceivedArrives(st.links[j]);
  }

  lemma OwedUpStep(st: Star, e: StarEvent, j: nat, m: Msg)
    requires StarEnabled(st, e) && StarSound(st, e) && j < |st.links| && StarInv(st)
    requires Structural(m) && OwedUp(st.links[j], m)
    ensures OwedUp(StarStep(st, e).links[j], m)
  {
    var popped := e == HubReceive(j);
    hide *;
    LinkKeeps(st, e, j);
    HubEndGrows(st, e, j);
    PoppedUp(st.links[j], StarStep(st, e).links[j], popped);
    if popped && st.links[j].ba[0] == m {
      HubHears(st, j, m);
    }
    OwedUpOn(st.links[j], StarStep(st, e).links[j], popped, m);
  }

  lemma {:induction false} OwedUpRun(st: Star, events: seq<StarEvent>, j: nat, m: Msg)
    requires IsStarRun(st, events) && j < |st.links| && StarInv(st) && Structural(m) && OwedUp(st.links[j], m)
    ensures j < |StarAfter(st, events).links| && OwedUp(StarAfter(st, events).links[j], m)
    decreases |events|
  {
    hide StarInv, StarStep, StarEnabled, StarSound, OwedUp;
    if events != [] {
      var e := events[0];
      MoreLinks(st, e);
      StarKeeps(st, e);
      OwedUpStep(st, e, j, m);
      OwedUpRun(StarStep(st, e), events[1..], j, m);
    }
  }

  /** A leaf's own attach, as the other end of its link sees it. */
  lemma LeafTells(st: Star, i: nat, p: Node, name: Name)
    requires StarEnabled(st, Leaf(i, AppAttach(p, name))) && StarInv(st)
    requires (p, name) !in st.links[i].b.edges && (p in st.links[i].b.listening || p in st.links[i].b.own)
    ensures IsTold(Flip(st.links[i]), p, name, Flip(StarStep(st, Leaf(i, AppAttach(p, name))).links[i]))
  {
    var f := Flip(st.links[i]);
    LinkOf(st, i);
    LeafStep(st, i, AppAttach(p, name));
    assert StepLeft(f, AppAttach(p, name)) == Notified(f, p, name);
    hide StarInv, StarStep, StepLeft, Inv, BothQueued, Notified, ToldRight, IsTold;
    FlipInv(st.links[i]);
    NotifiedRight(f, p, name);
    RightIsTold(f, p, name, Notified(f, p, name));
    FlipBack(Notified(f, p, name));
  }

  lemma FlipBack(s: State)
    ensures Flip(Flip(s)) == s
  {
  }

  lemma ToldUp(s: State, p: Node, name: Name, t: State)
    requires IsTold(Flip(s), p, name, Flip(t))
    ensures |s.ba| < |t.ba| && Structural(t.ba[|s.ba|]) && OwedUp(t, t.ba[|s.ba|])
  {
    hide Arrived;
  }

  lemma OwedUpHasArrived(s: State, m: Msg)
    requires Structural(m) && OwedUp(s, m) && s.ba == []
    ensures Arrived(s.a, m)
  {
  }

  /** A node that a leaf attaches under its root, or under a node that it knows from the hub, at a free name: the hub
      is told, and when it has worked off what the leaf sent it has a proxy of it, and something at the place. From
      there BroughtReachesLeaf has it. */
  lemma AttachReachesHub(st: Star, i: nat, p: Node, name: Name, events: seq<StarEvent>)
    requires StarRuns.Reachable(st) && StarEnabled(st, Leaf(i, AppAttach(p, name)))
    requires (p, name) !in st.links[i].b.edges && (p in st.links[i].b.listening || p in st.links[i].b.own)
    requires IsStarRun(StarStep(st, Leaf(i, AppAttach(p, name))), events)
    ensures var s, t := st.links[i], StarStep(st, Leaf(i, AppAttach(p, name))).links[i];
      && IsTold(Flip(s), p, name, Flip(t)) && |s.ba| < |t.ba| && Structural(t.ba[|s.ba|])
      && i < |StarAfter(StarStep(st, Leaf(i, AppAttach(p, name))), events).links|
      && var u := StarAfter(StarStep(st, Leaf(i, AppAttach(p, name))), events).links[i];
         u.ba == [] ==> Arrived(u.a, t.ba[|s.ba|])
  {
    var e := Leaf(i, AppAttach(p, name));
    var st1 := StarStep(st, e);
    assert i < |st.links| && i < |st1.links| && StarSound(st, e);
    hide *;
    ReachableStarInv(st);
    StarKeeps(st, e);
    LeafTells(st, i, p, name);
    ToldUp(st.links[i], p, name, st1.links[i]);
    var m := st1.links[i].ba[|st.links[i].ba|];
    OwedUpRun(st1, events, i, m);
    if StarAfter(st1, events).links[i].ba == [] {
      OwedUpHasArrived(StarAfter(st1, events).links[i], m);
    }
  }
}
