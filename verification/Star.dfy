/** A hub with any number of connections: one tree mirrored to many ends. Each connection has a
    naming of its own; what they share is the hub's tree. The hub end of a link is its left end. */
module Star {
  import opened Bytes
  import opened Packages
  import opened Mirror
  import opened MirrorProof
  import opened MirrorRuns
  import opened MirrorWaits

  datatype Tree = Tree(root: Node, nodes: nat, edges: map<(Node, Name), Node>)

  datatype Star = Star(tree: Tree, links: seq<State>)

  function TreeOf(x: Side): Tree { Tree(x.root, x.nodes, x.edges) }

  /** The hub's end of a connection just opened. */
  function Fresh(tree: Tree): Side {
    Side(tree.root, tree.nodes, tree.edges, map[0 := tree.root], map[], map[], NoCalls)
  }

  datatype StarEvent =
    | Connect(leaf: Side)
    | HubAttach(p: Node, name: Name)
    | HubReceive(i: nat)
    | Leaf(i: nat, act: Act)

  /** The handler of a message creates a proxy. */
  predicate Learns(x: Side, m: Msg) {
    match m
    case ChildAdded(parent, k, _) => parent in x.tracked && k !in x.tracked
    case Attach(parent, _, _) => parent in x.tracked
    case Subscribe(_) => false
    case At(_, _) => false
    case GetValue(_) => false
  }

  /** One more node, hung under a name unless that name is taken. */
  function Grown(tree: Tree, p: Node, name: Name): Tree {
    Tree(tree.root, tree.nodes + 1, if (p, name) in tree.edges then tree.edges else tree.edges[(p, name) := tree.nodes])
  }

  /** A connection is told by the hub's tree that a new node, none of its proxies, was attached. */
  function Notified(s: State, p: Node, name: Name): State {
    var (a, ms, next) := AttachNode(NewNode(s.a), p, name, s.a.nodes, s.next);
    s.(a := a, ab := s.ab + ms, next := next)
  }

  predicate StarEnabled(st: Star, e: StarEvent) {
    match e
    case Connect(leaf) => FreshSide(leaf) && leaf.listening == map[leaf.root := 0]
    case HubAttach(p, _) => p < st.tree.nodes
    case HubReceive(i) => i < |st.links| && EnabledLeft(st.links[i], Receive)
    case Leaf(i, act) => i < |st.links| && EnabledLeft(Flip(st.links[i]), act)
  }

  /** What link `j` makes of a message that link `i` receives at the hub. */
  function Reached(st: Star, i: nat, j: nat): State
    requires i < |st.links| && j < |st.links| && EnabledLeft(st.links[i], Receive)
  {
    var x, m := st.links[i].a, st.links[i].ba[0];
    if j == i then StepLeft(st.links[i], Receive)
    else if Learns(x, m) then Notified(st.links[j], x.tracked[m.parent], m.name)
    else st.links[j]
  }

  function StarStep(st: Star, e: StarEvent): (st': Star)
    requires StarEnabled(st, e)
    ensures |st'.links| == if e.Connect? then |st.links| + 1 else |st.links|
  {
    match e
    case Connect(leaf) => st.(links := st.links + [State(Fresh(st.tree), leaf, [], [Subscribe(0)], 1)])
    case HubAttach(p, name) =>
      Star(Grown(st.tree, p, name), seq(|st.links|, j requires 0 <= j < |st.links| => Notified(st.links[j], p, name)))
    case HubReceive(i) =>
      var x, m := st.links[i].a, st.links[i].ba[0];
      Star(if Learns(x, m) then Grown(st.tree, x.tracked[m.parent], m.name) else st.tree,
           seq(|st.links|, j requires 0 <= j < |st.links| => Reached(st, i, j)))
    case Leaf(i, act) => st.(links := st.links[i := Flip(StepLeft(Flip(st.links[i]), act))])
  }

  // ---------- What every step keeps ----------

  /** A leaf's fetch brings what it does not track yet. */
  predicate StarSound(st: Star, e: StarEvent)
    requires StarEnabled(st, e)
  {
    e.Leaf? ==> Sound(Flip(st.links[e.i]), e.act)
  }

  /** The hub's end has no blocking call under way; nobody's question is lost. */
  predicate LinkOk(tree: Tree, s: State) {
    Inv(s) && s.a.calls == NoCalls && BothQueued(s) && TreeOf(s.a) == tree
  }

  /** Every link keeps its naming and sees the one tree; a node is a proxy of one connection at most. */
  predicate StarInv(st: Star) {
    && FreshSide(Fresh(st.tree))
    && (forall i :: 0 <= i < |st.links| ==> LinkOk(st.tree, st.links[i]))
    && Disjoint(st.links)
  }

  // ---------- One link ----------

  /** At most one new node is announced. */
  predicate Told(q: seq<Msg>, q': seq<Msg>) {
    q' == q || (|q'| == |q| + 1 && q' == q + [q'[|q|]] && Structural(q'[|q|]))
  }

  /** Being notified: at most one message to the peer, and nothing else that anyone could see. */
  lemma NotifiedStep(s: State, p: Node, name: Name)
    requires Inv(s) && p < s.a.nodes && s.a.calls == NoCalls
    ensures var t := Notified(s, p, name);
      && Inv(t) && TreeOf(t.a) == Grown(TreeOf(s.a), p, name) && t.a.own == s.a.own && t.a.calls == s.a.calls
      && t.b == s.b && t.ba == s.ba
      && Told(s.ab, t.ab)
  {
    var act := AppAttach(p, name);
    assert EnabledLeft(s, act) && StepLeft(s, act) == Notified(s, p, name);
    StepLeftKeeps(s, act);
    NotifiedFields(s, p, name);
    hide Inv, Notified, StepLeft;
  }

  lemma NotifiedFields(s: State, p: Node, name: Name)
    requires Inv(s) && p < s.a.nodes
    ensures var t := Notified(s, p, name);
      && TreeOf(t.a) == Grown(TreeOf(s.a), p, name) && t.a.own == s.a.own && t.a.calls == s.a.calls
      && t.b == s.b && t.ba == s.ba
      && Told(s.ab, t.ab)
  {
    OwnBelow(s.a, s.b);
    AttachNodeNew(s.a, s.b, p, name, s.next);
    AttachedFields(s.a, p, name, s.next);
    AttachedTells(s.a, p, name, s.next, s.ab);
    hide Inv, AttachNode, AttachedNew, Told;
  }

  lemma AttachedTells(x: Side, p: Node, name: Name, next: Nid, q: seq<Msg>)
    ensures Told(q, q + AttachedNew(x, p, name, next).1)
  {
    assert q + [] == q;
  }

  /** What receiving a message shows its sender: the answer to a question. */
  predicate AnswerOnly(m: Msg, y: Side, y': Side) {
    match m
    case At(_, _) => y' == y.(calls := y.calls.(reply := y'.calls.reply)) && y'.calls.reply.Some?
    case GetValue(_) => y' == y.(calls := y.calls.(valued := y.calls.valuing.Some?))
    case _ => y' == y
  }

  /** Receiving at the hub: a subscription goes back if a proxy was created, nothing otherwise. */
  lemma HubReceives(s: State)
    requires Inv(s) && EnabledLeft(s, Receive)
    ensures var t, x, m := StepLeft(s, Receive), s.a, s.ba[0];
      && Inv(t) && t.a.calls == s.a.calls && t.ba == s.ba[1..]
      && (Learns(x, m) ==>
            && Structural(m) && x.tracked[m.parent] < x.nodes
            && TreeOf(t.a) == Grown(TreeOf(x), x.tracked[m.parent], m.name) && t.a.own.Keys == x.own.Keys + {x.nodes}
            && t.ab == s.ab + [Subscribe(m.child)])
      && (!Learns(x, m) ==> t.a.own == x.own && t.ab == s.ab && (x.calls == NoCalls ==> TreeOf(t.a) == TreeOf(x)))
      && AnswerOnly(m, s.b, t.b)
  {
    StepLeftKeeps(s, Receive);
    DropHead(s.a, s.b, s.ba, s.next);
    HubReceivesFields(s);
    hide Inv, StepLeft;
  }

  lemma HubReceivesFields(s: State)
    requires Inv(s) && EnabledLeft(s, Receive) && MsgOk(s.a, s.b, s.ba[0])
    ensures var t, x, m := StepLeft(s, Receive), s.a, s.ba[0];
      && t.a.calls == s.a.calls && t.ba == s.ba[1..]
      && (Learns(x, m) ==>
            && x.tracked[m.parent] < x.nodes
            && TreeOf(t.a) == Grown(TreeOf(x), x.tracked[m.parent], m.name) && t.a.own.Keys == x.own.Keys + {x.nodes}
            && t.ab == s.ab + [Subscribe(m.child)])
      && (!Learns(x, m) ==> t.a.own == x.own && t.ab == s.ab && (x.calls == NoCalls ==> TreeOf(t.a) == TreeOf(x)))
      && AnswerOnly(m, s.b, t.b)
  {
    assert forall k :: k in s.a.tracked ==> s.a.tracked[k] < s.a.nodes by { InTable(s.a, s.next); }
    if s.ba[0].ChildAdded? && s.ba[0].child in s.a.tracked {
      TrackedPlace(s.a, s.b, s.ba[0], s.next);
    }
    hide Inv, Known, StepLeft, WithProxy, Grown;
    var x, m := s.a, s.ba[0];
    match m {
      case ChildAdded(parent, k, name) =>
        ChildAddedStep(s);
        if k !in x.tracked { WithProxyTree(x, k, parent, name); }
      case Attach(parent, k, name) =>
        AttachStep(s);
        WithProxyTree(x, k, parent, name);
      case Subscribe(k) => SubscribeStep(s);
      case At(k, name) => AtStep(s);
      case GetValue(k) => GetValueStep(s);
    }
  }

  lemma InTable(x: Side, next: Nid)
    requires TrackedOk(x, next)
    ensures forall k :: k in x.tracked ==> x.tracked[k] < x.nodes
  {
  }

  lemma WithProxyTree(x: Side, k: Nid, parent: Nid, name: Name)
    requires parent in x.tracked
    ensures var x' := WithProxy(x, k, parent, name);
      && TreeOf(x') == Grown(TreeOf(x), x.tracked[parent], name) && x'.own.Keys == x.own.Keys + {x.nodes}
      && x'.calls == x.calls
  {
  }

  lemma AtStep(s: State)
    requires EnabledLeft(s, Receive) && s.ba[0].At?
    ensures var t := StepLeft(s, Receive);
      && TreeOf(t.a) == TreeOf(s.a) && t.a.own == s.a.own && t.a.calls == s.a.calls
      && t.ab == s.ab && t.ba == s.ba[1..] && AnswerOnly(s.ba[0], s.b, t.b)
  {
    hide FindNid;
  }

  lemma GetValueStep(s: State)
    requires EnabledLeft(s, Receive) && s.ba[0].GetValue?
    ensures var t := StepLeft(s, Receive);
      t.a == s.a && t.ab == s.ab && t.ba == s.ba[1..] && AnswerOnly(s.ba[0], s.b, t.b)
  {
  }

  /** What a step of a leaf shows the hub: the hub's end does not change, an attach announces at
      most one node, and a message received is answered by a subscription at most. */
  predicate LeafEffect(s: State, act: Act, t: State)
    requires EnabledLeft(s, act)
  {
    && t.b == s.b && t.ba == (if act.Receive? then s.ba[1..] else s.ba)
    && match act
       case AppAttach(_, _) => Told(s.ab, t.ab) && t.a.calls == s.a.calls
       case Look(_, _, _) => t.ab == s.ab && t.a.calls == s.a.calls.(looked := t.a.calls.looked)
       case FetchStart(_) => |t.ab| == |s.ab| + 1 && t.ab == s.ab + [t.ab[|s.ab|]] && t.ab[|s.ab|].At?
       case FetchDone(_) => t.ab == s.ab && t.a.calls.reply.None? && s.a.calls.reply.Some?
         && t.a.calls.valued == s.a.calls.valued
       case Insert(_) => t.ab == s.ab && t.a.calls == s.a.calls.(loose := t.a.calls.loose)
       case ValueStart(k) => t.ab == s.ab + [GetValue(k)]
       case ValueDone => t.ab == s.ab && t.a.calls.reply == s.a.calls.reply && !t.a.calls.valued && s.a.calls.valued
       case Receive =>
         && t.a.calls == s.a.calls
         && (t.ab == s.ab || (Structural(s.ba[0]) && t.ab == s.ab + [Subscribe(s.ba[0].child)]))
  }

  lemma LeafActs(s: State, act: Act)
    requires Inv(s) && EnabledLeft(s, act) && Sound(s, act) && s.b.calls == NoCalls
    ensures Inv(StepLeft(s, act)) && LeafEffect(s, act, StepLeft(s, act))
  {
    StepLeftKeeps(s, act);
    LeafShows(s, act);
    hide Inv, StepLeft, LeafEffect;
  }

  lemma LeafShows(s: State, act: Act)
    requires Inv(s) && EnabledLeft(s, act) && s.b.calls == NoCalls
    ensures LeafEffect(s, act, StepLeft(s, act))
  {
    hide Inv, AttachNode, Handle, Told, Grown;
    match act {
      case AppAttach(p, name) => NotifiedFields(s, p, name);
      case Receive =>
        HubReceives(s);
        NoAt(s);
        assert s.ba[0] in s.ba;
        hide StepLeft;
      case _ =>
    }
  }

  lemma NoAt(s: State)
    requires Inv(s) && s.b.calls == NoCalls
    ensures forall m :: m in s.ba ==> !m.At?
  {
    assert MsgsOk(s.a, s.b, s.ba);
    hide Half;
    forall m | m in s.ba ensures !m.At? {
      assert MsgOk(s.a, s.b, m);
    }
  }

  // ---------- Every step keeps every link ----------

  lemma LinkNotified(tree: Tree, s: State, p: Node, name: Name)
    requires LinkOk(tree, s) && p < tree.nodes
    ensures LinkOk(Grown(tree, p, name), Notified(s, p, name)) && Notified(s, p, name).a.own == s.a.own
  {
    NotifiedStep(s, p, name);
    NotifiedQueued(s, p, name);
    hide Inv, Notified, Grown, Told, BothQueued;
  }

  lemma NotifiedQueued(s: State, p: Node, name: Name)
    requires BothQueued(s) && p < s.a.nodes && s.a.calls == NoCalls
    ensures BothQueued(Notified(s, p, name))
  {
    assert EnabledLeft(s, AppAttach(p, name)) && StepLeft(s, AppAttach(p, name)) == Notified(s, p, name);
    hide BothQueued, StepLeft, Notified;
    StepLeftQueued(s, AppAttach(p, name));
  }

  lemma LinkReceives(tree: Tree, s: State)
    requires LinkOk(tree, s) && EnabledLeft(s, Receive)
    ensures var t, x, m := StepLeft(s, Receive), s.a, s.ba[0];
      && LinkOk(if Learns(x, m) then Grown(tree, x.tracked[m.parent], m.name) else tree, t)
      && t.a.own.Keys == (if Learns(x, m) then x.own.Keys + {tree.nodes} else x.own.Keys)
      && (Learns(x, m) ==> x.tracked[m.parent] < tree.nodes)
  {
    HubReceives(s);
    StepLeftQueued(s, Receive);
    hide Inv, StepLeft, Grown, BothQueued;
  }

  lemma LinkLeaf(tree: Tree, s: State, act: Act)
    requires LinkOk(tree, s) && EnabledLeft(Flip(s), act) && Sound(Flip(s), act)
    ensures var t := Flip(StepLeft(Flip(s), act)); LinkOk(tree, t) && t.a.own == s.a.own
  {
    var f := Flip(s);
    assert Inv(f) by { FlipInv(s); }
    LeafActs(f, act);
    StepLeftQueued(f, act);
    FlipInv(StepLeft(f, act));
    hide Inv, StepLeft, Queued;
  }

  lemma LinkConnects(tree: Tree, leaf: Side)
    requires FreshSide(Fresh(tree)) && FreshSide(leaf) && leaf.listening == map[leaf.root := 0]
    ensures LinkOk(tree, State(Fresh(tree), leaf, [], [Subscribe(0)], 1))
  {
    var s := State(leaf, Fresh(tree), [Subscribe(0)], [], 1);
    InitialInv(s);
    InitialQueued(s);
    FlipInv(s);
    hide Inv;
  }

  lemma GrownFresh(tree: Tree, p: Node, name: Name)
    requires FreshSide(Fresh(tree)) && p < tree.nodes
    ensures FreshSide(Fresh(Grown(tree, p, name)))
  {
    if (p, name) !in tree.edges {
      NewEdge(Fresh(tree), Fresh(Grown(tree, p, name)), p, name);
    }
  }

  lemma StarKeeps(st: Star, e: StarEvent)
    requires StarInv(st) && StarEnabled(st, e) && StarSound(st, e)
    ensures StarInv(StarStep(st, e))
  {
    hide LinkOk, FreshSide, Notified, StepLeft, Fresh, Grown, EnabledLeft, Learns, Sound;
    match e {
      case Connect(leaf) => LinkConnects(st.tree, leaf); NoProxies(st.tree);
      case HubAttach(p, name) =>
        GrownFresh(st.tree, p, name);
        forall j | 0 <= j < |st.links|
          ensures LinkOk(Grown(st.tree, p, name), Notified(st.links[j], p, name))
          ensures Notified(st.links[j], p, name).a.own == st.links[j].a.own
        {
          LinkNotified(st.tree, st.links[j], p, name);
        }
      case HubReceive(i) => HubReceiveKeeps(st, i);
      case Leaf(i, act) => LinkLeaf(st.tree, st.links[i], act);
    }
  }

  lemma NoProxies(tree: Tree)
    ensures Fresh(tree).own == map[]
  {
  }

  /** What reaches link `j` when link `i` receives at the hub: the new node, if there is one. */
  lemma ReachedStep(st: Star, i: nat, j: nat)
    requires i < |st.links| && EnabledLeft(st.links[i], Receive) && j < |st.links| && j != i
    ensures var x, m := st.links[i].a, st.links[i].ba[0];
      && (Learns(x, m) ==> Reached(st, i, j) == Notified(st.links[j], x.tracked[m.parent], m.name))
      && (!Learns(x, m) ==> Reached(st, i, j) == st.links[j])
  {
  }

  lemma StepTree(st: Star, i: nat)
    requires i < |st.links| && EnabledLeft(st.links[i], Receive)
    ensures var x, m := st.links[i].a, st.links[i].ba[0];
      StarStep(st, HubReceive(i)).tree == if Learns(x, m) then Grown(st.tree, x.tracked[m.parent], m.name) else st.tree
    ensures Reached(st, i, i) == StepLeft(st.links[i], Receive)
  {
    hide Notified, StepLeft, Learns;
  }

  lemma ReachedOther(st: Star, i: nat, j: nat)
    requires i < |st.links| && EnabledLeft(st.links[i], Receive) && j < |st.links| && j != i
    requires LinkOk(st.tree, st.links[i]) && LinkOk(st.tree, st.links[j])
    ensures LinkOk(StarStep(st, HubReceive(i)).tree, Reached(st, i, j)) && Reached(st, i, j).a.own == st.links[j].a.own
  {
    hide LinkOk, StarStep, Reached, Notified, Grown;
    var x, m := st.links[i].a, st.links[i].ba[0];
    StepTree(st, i);
    ReachedStep(st, i, j);
    LinkReceives(st.tree, st.links[i]);
    if Learns(x, m) {
      LinkNotified(st.tree, st.links[j], x.tracked[m.parent], m.name);
    }
  }

  lemma ReachedKeeps(st: Star, i: nat, j: nat)
    requires StarInv(st) && i < |st.links| && EnabledLeft(st.links[i], Receive) && j < |st.links|
    ensures LinkOk(StarStep(st, HubReceive(i)).tree, Reached(st, i, j))
    ensures Reached(st, i, j).a.own.Keys ==
      (if j == i && Learns(st.links[i].a, st.links[i].ba[0]) then st.links[j].a.own.Keys + {st.tree.nodes}
        else st.links[j].a.own.Keys)
    ensures forall n :: n in st.links[j].a.own ==> n < st.tree.nodes
  {
    assert LinkOk(st.tree, st.links[i]) && LinkOk(st.tree, st.links[j]);
    InvOwnBelow(st.links[j]);
    hide Inv, BothQueued, StarStep, Reached, StarInv;
    if j == i {
      LinkReceives(st.tree, st.links[i]);
      StepTree(st, i);
    } else {
      ReachedOther(st, i, j);
    }
    hide LinkOk, Learns, Grown, StepLeft;
  }

  lemma TreeFresh(st: Star, i: nat)
    requires StarInv(st) && i < |st.links| && EnabledLeft(st.links[i], Receive)
    ensures FreshSide(Fresh(StarStep(st, HubReceive(i)).tree))
  {
    var x, m := st.links[i].a, st.links[i].ba[0];
    LinkReceives(st.tree, st.links[i]);
    if Learns(x, m) {
      GrownFresh(st.tree, x.tracked[m.parent], m.name);
    }
    hide FreshSide, Fresh, Grown, LinkOk, Reached;
  }

  predicate Disjoint(links: seq<State>) {
    forall i, j :: 0 <= i < j < |links| ==> links[i].a.own.Keys !! links[j].a.own.Keys
  }

  lemma DisjointStays(links: seq<State>, links': seq<State>, i: nat, learns: bool, n: Node)
    requires Disjoint(links) && |links'| == |links|
    requires forall j :: 0 <= j < |links| ==>
      links'[j].a.own.Keys == if j == i && learns then links[j].a.own.Keys + {n} else links[j].a.own.Keys
    requires forall j :: 0 <= j < |links| ==> forall m :: m in links[j].a.own ==> m < n
    ensures Disjoint(links')
  {
  }

  /** What becomes of link `j` when link `i` receives at the hub. */
  predicate LinkGoesOn(st: Star, st': Star, i: nat, j: nat, learns: bool)
    requires |st'.links| == |st.links| && j < |st.links|
  {
    && LinkOk(st'.tree, st'.links[j])
    && st'.links[j].a.own.Keys == (if j == i && learns then st.links[j].a.own.Keys + {st.tree.nodes}
      else st.links[j].a.own.Keys)
    && forall n :: n in st.links[j].a.own ==> n < st.tree.nodes
  }

  lemma AllGoOn(st: Star, st': Star, i: nat, learns: bool)
    requires |st'.links| == |st.links| && Disjoint(st.links) && FreshSide(Fresh(st'.tree))
    requires forall j :: 0 <= j < |st.links| ==> LinkGoesOn(st, st', i, j, learns)
    ensures StarInv(st')
  {
    hide LinkOk, FreshSide, Fresh, Disjoint;
    forall j | 0 <= j < |st.links|
      ensures LinkOk(st'.tree, st'.links[j])
      ensures st'.links[j].a.own.Keys == if j == i && learns then st.links[j].a.own.Keys + {st.tree.nodes}
        else st.links[j].a.own.Keys
      ensures forall n :: n in st.links[j].a.own ==> n < st.tree.nodes
    {
      assert LinkGoesOn(st, st', i, j, learns);
    }
    hide LinkGoesOn;
    DisjointStays(st.links, st'.links, i, learns, st.tree.nodes);
  }

  lemma HubReceiveKeeps(st: Star, i: nat)
    requires StarInv(st) && i < |st.links| && EnabledLeft(st.links[i], Receive)
    ensures StarInv(StarStep(st, HubReceive(i)))
  {
    var st' := StarStep(st, HubReceive(i));
    var learns := Learns(st.links[i].a, st.links[i].ba[0]);
    TreeFresh(st, i);
    hide FreshSide, Fresh, Learns, Disjoint, LinkOk;
    forall j | 0 <= j < |st.links| ensures LinkGoesOn(st, st', i, j, learns) {
      hide Reached;
      ReachedKeeps(st, i, j);
    }
    hide LinkGoesOn, StarStep;
    AllGoOn(st, st', i, learns);
  }
}
