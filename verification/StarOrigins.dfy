/** Where what an end hears of came from: every announcement that reaches a leaf is of one attach that
    was made in the run by another end, and no two are of the same. */
module StarOrigins {
  import opened Bytes
  import opened Packages
  import opened Mirror
  import opened MirrorProof
  import opened MirrorRuns
  import opened MirrorWaits
  import opened MirrorRaces
  import opened Star
  import opened StarRuns

  /** An attach: the hub's, by the node it made; a leaf's, by the nid that it drew. */
  datatype Origin = AtHub(n: Node) | AtLeaf(i: nat, k: Nid)

  /** The attach that a step is; one that a leaf tells nobody about is not counted. */
  function Made(st: Star, e: StarEvent): set<Origin>
    requires StarEnabled(st, e)
  {
    match e
    case HubAttach(_, _) => {AtHub(st.tree.nodes)}
    case Leaf(i, act) =>
      if act.AppAttach? && SentByLeft(Flip(st.links[i]), act) != [] then {AtLeaf(i, st.links[i].next)} else {}
    case _ => {}
  }

  function MadeIn(st: Star, events: seq<StarEvent>): set<Origin>
    requires IsStarRun(st, events)
    decreases |events|
  {
    if events == [] then {} else Made(st, events[0]) + MadeIn(StarStep(st, events[0]), events[1..])
  }

  // ---------- Each link ----------

  /** What a leaf announced, and the proxies made of it, were attached by it; what is announced to it
      is a node that the hub had not when the run began. */
  predicate LinkTraced(s: State, i: nat, n0: nat, made: set<Origin>) {
    && (forall m :: m in s.ba && Structural(m) ==> AtLeaf(i, m.child) in made)
    && (forall n :: n in s.a.own ==> AtLeaf(i, s.a.own[n].nid) in made)
    && (forall m :: m in s.ab && Structural(m) ==> m.child in s.a.tracked && s.a.tracked[m.child] >= n0)
  }

  lemma TracedMore(s: State, i: nat, n0: nat, made: set<Origin>, more: set<Origin>)
    requires LinkTraced(s, i, n0, made)
    ensures LinkTraced(s, i, n0, made + more)
  {
  }

  /** What being notified appends: the new node, under a nid drawn for it. */
  lemma NotifiedTells(s: State, p: Node, name: Name)
    requires Inv(s) && p < s.a.nodes
    ensures var t := Notified(s, p, name);
      && (forall k :: k in s.a.tracked ==> k in t.a.tracked && t.a.tracked[k] == s.a.tracked[k])
      && t.b == s.b && t.ba == s.ba && t.a.own == s.a.own
      && ((t.ab == s.ab && s.next <= t.next) || ToldNew(s, t))
  {
    OwnBelow(s.a, s.b);
    AttachNodeNew(s.a, s.b, p, name, s.next);
    AttachedGrows(s.a, s.b, p, name, s.next);
    AttachedFields(s.a, p, name, s.next);
    hide Inv, AttachNode;
    AttachedTellsNew(s, p, name);
    hide AttachedNew, ToldNew;
  }

  predicate ToldNew(s: State, t: State) {
    && |t.ab| == |s.ab| + 1 && t.ab == s.ab + [t.ab[|s.ab|]] && Structural(t.ab[|s.ab|])
    && t.ab[|s.ab|].child == s.next && t.next == s.next + 1
    && s.next in t.a.tracked && t.a.tracked[s.next] == s.a.nodes
  }

  lemma AttachedTellsNew(s: State, p: Node, name: Name)
    ensures var (a, ms, next) := AttachedNew(s.a, p, name, s.next);
      var t := s.(a := a, ab := s.ab + ms, next := next);
      (t.ab == s.ab && s.next <= t.next) || ToldNew(s, t)
  {
    assert s.ab + [] == s.ab;
  }

  lemma NotifiedTraced(s: State, p: Node, name: Name, i: nat, n0: nat, made: set<Origin>)
    requires Inv(s) && p < s.a.nodes && LinkTraced(s, i, n0, made) && n0 <= s.a.nodes
    ensures LinkTraced(Notified(s, p, name), i, n0, made)
  {
    NotifiedTells(s, p, name);
    hide Inv, Notified;
    TracedByTelling(s, Notified(s, p, name), i, n0, made);
    hide LinkTraced, ToldNew;
  }

  lemma TracedByTelling(s: State, t: State, i: nat, n0: nat, made: set<Origin>)
    requires LinkTraced(s, i, n0, made) && n0 <= s.a.nodes && t.ba == s.ba && t.a.own == s.a.own
    requires forall k :: k in s.a.tracked ==> k in t.a.tracked && t.a.tracked[k] == s.a.tracked[k]
    requires t.ab == s.ab || ToldNew(s, t)
    ensures LinkTraced(t, i, n0, made)
  {
    assert t.ab != s.ab ==> forall m :: m in t.ab ==> m in s.ab || m == t.ab[|s.ab|];
  }

  /** Receiving at the hub: the proxy made carries the nid announced. */
  lemma ReceivedTraced(s: State, i: nat, n0: nat, made: set<Origin>)
    requires Inv(s) && EnabledLeft(s, Receive) && LinkTraced(s, i, n0, made)
    ensures LinkTraced(StepLeft(s, Receive), i, n0, made)
  {
    ReceivedParts(s);
    hide Inv, StepLeft, EnabledLeft;
    TracedByParts(s, StepLeft(s, Receive), i, n0, made);
  }

  /** What a message leaves at the hub: a proxy for what was announced, and no announcement. */
  predicate Parts(s: State, t: State)
    requires s.ba != []
  {
    && t.ba == s.ba[1..]
    && (t.a.own == s.a.own
        || (Structural(s.ba[0]) && t.a.own == s.a.own[s.a.nodes := Proxy(s.ba[0].child, s.ba[0].parent, s.ba[0].name)]))
    && (t.ab == s.ab || (Structural(s.ba[0]) && t.ab == s.ab + [Subscribe(s.ba[0].child)]))
    && (forall k :: k in s.a.tracked ==> k in t.a.tracked && t.a.tracked[k] == s.a.tracked[k])
  }

  lemma ReceivedParts(s: State)
    requires Inv(s) && EnabledLeft(s, Receive)
    ensures Parts(s, StepLeft(s, Receive))
  {
    DropHead(s.a, s.b, s.ba, s.next);
    hide Inv;
    ReceiveOwn(s);
    hide StepLeft, MsgOk;
    HubReceives(s);
    ReceivedTable(s);
    hide Grown, AnswerOnly, TreeOf;
  }

  lemma ReceivedTable(s: State)
    requires Inv(s) && EnabledLeft(s, Receive)
    ensures var t := StepLeft(s, Receive); forall k :: k in s.a.tracked ==>
      k in t.a.tracked && t.a.tracked[k] == s.a.tracked[k]
  {
    StepGrows(s, Receive);
    hide Inv, StepLeft;
  }

  lemma TracedByParts(s: State, t: State, i: nat, n0: nat, made: set<Origin>)
    requires s.ba != [] && Parts(s, t) && LinkTraced(s, i, n0, made)
    ensures LinkTraced(t, i, n0, made)
  {
    assert s.ba[0] in s.ba;
  }

  /** A leaf's step: it adds to its queue what it attaches, if it tells of it. */
  lemma LeafTraced(s: State, act: Act, i: nat, n0: nat, made: set<Origin>)
    requires Inv(s) && s.a.calls == NoCalls && EnabledLeft(Flip(s), act) && Sound(Flip(s), act)
    requires LinkTraced(s, i, n0, made)
    ensures var f := Flip(s);
      LinkTraced(Flip(StepLeft(f, act)), i, n0,
        made + if act.AppAttach? && SentByLeft(f, act) != [] then {AtLeaf(i, s.next)} else {})
  {
    var f := Flip(s);
    LeafParts(s, act);
    var t, ms := StepLeft(f, act), SentByLeft(f, act);
    hide Inv, StepLeft, SentByLeft, EnabledLeft, Sound, LinkTraced;
    TracedByLeaf(s, t, ms, act.AppAttach?, i, n0, made);
  }

  lemma LeafParts(s: State, act: Act)
    requires Inv(s) && s.a.calls == NoCalls && EnabledLeft(Flip(s), act) && Sound(Flip(s), act)
    ensures var f := Flip(s); var t, ms := StepLeft(f, act), SentByLeft(f, act);
      && t.b == s.a && (t.ba == s.ab || (s.ab != [] && t.ba == s.ab[1..])) && t.ab == s.ba + ms
      && |ms| <= 1 && (|ms| == 1 && Structural(ms[0]) ==> act.AppAttach? && ms[0].child == s.next)
  {
    var f := Flip(s);
    FlipInv(s);
    hide Inv, StepLeft, SentByLeft, Sound, Told;
    LeafActs(f, act);
    AnnouncedFresh(f, act);
    SentIsAppended(f, act);
  }

  lemma TracedByLeaf(s: State, t: State, ms: seq<Msg>, attach: bool, i: nat, n0: nat, made: set<Origin>)
    requires t.b == s.a && (t.ba == s.ab || (s.ab != [] && t.ba == s.ab[1..])) && t.ab == s.ba + ms
    requires |ms| <= 1 && (|ms| == 1 && Structural(ms[0]) ==> attach && ms[0].child == s.next)
    requires LinkTraced(s, i, n0, made)
    ensures LinkTraced(Flip(t), i, n0, made + if attach && ms != [] then {AtLeaf(i, s.next)} else {})
  {
    assert forall m :: m in t.ba ==> m in s.ab;
    assert forall m :: m in t.ab ==> m in s.ba || (|ms| == 1 && m == ms[0]);
  }

  lemma ConnectTraced(tree: Tree, leaf: Side, i: nat, n0: nat, made: set<Origin>)
    ensures LinkTraced(State(Fresh(tree), leaf, [], [Subscribe(0)], 1), i, n0, made)
  {
  }

  // ---------- The star ----------

  /** The hub's nodes that no connection brought were attached by the hub in this run, or were there. */
  predicate HubTraced(st: Star, n0: nat, made: set<Origin>) {
    forall n :: n0 <= n < st.tree.nodes && (forall i :: 0 <= i < |st.links| ==> n !in st.links[i].a.own) ==>
      AtHub(n) in made
  }

  predicate Traced(st: Star, n0: nat, made: set<Origin>) {
    && n0 <= st.tree.nodes && HubTraced(st, n0, made)
    && forall i :: 0 <= i < |st.links| ==> LinkTraced(st.links[i], i, n0, made)
  }

  lemma LinksTraced(st: Star, e: StarEvent, i: nat, n0: nat, made: set<Origin>)
    requires StarInv(st) && StarEnabled(st, e) && StarSound(st, e) && Traced(st, n0, made)
    requires i < |StarStep(st, e).links|
    ensures LinkTraced(StarStep(st, e).links[i], i, n0, made + Made(st, e))
  {
    hide LinkTraced, StarInv, HubTraced, StepLeft, Notified, Reached, EnabledLeft, Sound, SentByLeft, Inv, Learns,
      Grown;
    match e {
      case Connect(leaf) =>
        if i == |st.links| {
          ConnectTraced(st.tree, leaf, i, n0, made + Made(st, e));
        } else {
          TracedMore(st.links[i], i, n0, made, Made(st, e));
        }
      case HubAttach(p, name) =>
        LinkOf(st, i);
        NotifiedTraced(st.links[i], p, name, i, n0, made);
        TracedMore(Notified(st.links[i], p, name), i, n0, made, Made(st, e));
      case HubReceive(r) =>
        LinkOf(st, i);
        LinkOf(st, r);
        ReachTraced(st, r, i, n0, made);
        TracedMore(Reached(st, r, i), i, n0, made, Made(st, e));
      case Leaf(r, act) =>
        LinkOf(st, i);
        if i == r {
          LeafTraced(st.links[i], act, i, n0, made);
        } else {
          TracedMore(st.links[i], i, n0, made, Made(st, e));
        }
    }
  }

  lemma PassedTraced(st: Star, r: nat, i: nat, n0: nat, made: set<Origin>)
    requires r < |st.links| && EnabledLeft(st.links[r], Receive) && i < |st.links| && PassedOn(st, r, i)
    requires LinkTraced(st.links[i], i, n0, made) && n0 <= st.links[i].a.nodes && Inv(st.links[i])
    ensures LinkTraced(Reached(st, r, i), i, n0, made)
  {
    hide Inv, LinkTraced, Notified, Reached;
    var x, m := st.links[r].a, st.links[r].ba[0];
    if Learns(x, m) {
      NotifiedTraced(st.links[i], x.tracked[m.parent], m.name, i, n0, made);
    }
  }

  lemma ReachTraced(st: Star, r: nat, i: nat, n0: nat, made: set<Origin>)
    requires r < |st.links| && EnabledLeft(st.links[r], Receive) && i < |st.links| && n0 <= st.tree.nodes
    requires LinkTraced(st.links[i], i, n0, made) && StarInv(st)
    ensures LinkTraced(Reached(st, r, i), i, n0, made)
  {
    hide *;
    LinkOf(st, i);
    LinkOkOf(st, i);
    if i == r {
      ReachedSelf(st, r);
      ReceivedTraced(st.links[r], r, n0, made);
    } else {
      PassesOn(st, r, i);
      PassedTraced(st, r, i, n0, made);
    }
  }

  /** A node is no connection's proxy. */
  predicate Hubs(st: Star, n: Node) { forall i :: 0 <= i < |st.links| ==> n !in st.links[i].a.own }

  /** What a step does to the hub's nodes: one more at most, attached by the hub or made a proxy. */
  lemma HubNodes(st: Star, e: StarEvent, n: Node)
    requires StarInv(st) && StarEnabled(st, e) && StarSound(st, e) && n < StarStep(st, e).tree.nodes
    requires Hubs(StarStep(st, e), n)
    ensures (n < st.tree.nodes && Hubs(st, n)) || (e.HubAttach? && n == st.tree.nodes)
  {
    var st' := StarStep(st, e);
    match e {
      case Connect(leaf) =>
        forall i | 0 <= i < |st.links| ensures n !in st.links[i].a.own {
          assert st'.links[i] == st.links[i];
        }
      case HubAttach(p, name) =>
        forall i | 0 <= i < |st.links| ensures n !in st.links[i].a.own {
          LinkOf(st, i);
          NotifiedTells(st.links[i], p, name);
          assert st'.links[i] == Notified(st.links[i], p, name);
        }
      case HubReceive(r) => ReceiveNodes(st, r, n);
      case Leaf(r, act) =>
        hide StarInv, EnabledLeft;
        forall i | 0 <= i < |st.links| ensures n !in st.links[i].a.own {
          assert n !in st'.links[i].a.own;
          LeafOwn(st, r, act, i);
        }
    }
    hide StarInv, Notified, StepLeft, EnabledLeft, Sound;
  }

  lemma LeafOwn(st: Star, r: nat, act: Act, i: nat)
    requires StarInv(st) && StarEnabled(st, Leaf(r, act)) && StarSound(st, Leaf(r, act)) && i < |st.links|
    ensures StarStep(st, Leaf(r, act)).links[i].a.own == st.links[i].a.own && StarStep(st, Leaf(r, act)).tree == st.tree
  {
    LinkOf(st, r);
    hide StarInv, Inv, BothQueued;
    HubSideStays(st.links[r], act);
    LeafStep(st, r, act);
    LeafTree(st, r, act);
    hide StarStep, StepLeft;
  }

  lemma LeafTree(st: Star, r: nat, act: Act)
    requires StarEnabled(st, Leaf(r, act))
    ensures StarStep(st, Leaf(r, act)).tree == st.tree
  {
    hide StepLeft, EnabledLeft;
  }

  lemma HubSideStays(s: State, act: Act)
    requires Inv(s) && s.a.calls == NoCalls && EnabledLeft(Flip(s), act) && Sound(Flip(s), act)
    ensures Flip(StepLeft(Flip(s), act)).a == s.a
  {
    FlipInv(s);
    LeafActs(Flip(s), act);
    hide Inv, StepLeft, EnabledLeft, Sound, Told;
  }

  lemma ReceiveNodes(st: Star, r: nat, n: Node)
    requires StarEnabled(st, HubReceive(r)) && n < StarStep(st, HubReceive(r)).tree.nodes
    requires Hubs(StarStep(st, HubReceive(r)), n) && StarInv(st)
    ensures n < st.tree.nodes && Hubs(st, n)
  {
    assert r < |st.links| && EnabledLeft(st.links[r], Receive);
    hide *;
    forall i | 0 <= i < |st.links| ensures n !in st.links[i].a.own {
      ReachedOwn(st, r, i);
      StepLink(st, r, i);
      HubsNot(StarStep(st, HubReceive(r)), n, i);
    }
    HubsAll(st, n);
    ReachedNew(st, r);
    ReceiveTree(st, r);
    StepLink(st, r, r);
    HubsNot(StarStep(st, HubReceive(r)), n, r);
  }

  lemma HubsNot(st: Star, n: Node, i: nat)
    requires Hubs(st, n) && i < |st.links|
    ensures n !in st.links[i].a.own
  {
  }

  lemma HubsAll(st: Star, n: Node)
    requires forall i :: 0 <= i < |st.links| ==> n !in st.links[i].a.own
    ensures Hubs(st, n)
  {
  }

  lemma ReceiveTree(st: Star, r: nat)
    requires r < |st.links| && EnabledLeft(st.links[r], Receive)
    ensures var nodes := StarStep(st, HubReceive(r)).tree.nodes;
      nodes == if LearnsAt(st, r) then st.tree.nodes + 1 else st.tree.nodes
  {
    StepTree(st, r);
    hide StarStep, Learns, EnabledLeft, StepLeft;
  }

  /** What link `r` is about to receive makes a proxy at the hub. */
  predicate LearnsAt(st: Star, r: nat)
    requires r < |st.links| && EnabledLeft(st.links[r], Receive)
  {
    Learns(st.links[r].a, st.links[r].ba[0])
  }

  lemma ReachedKeys(st: Star, r: nat, i: nat)
    requires r < |st.links| && EnabledLeft(st.links[r], Receive) && i < |st.links| && StarInv(st)
    ensures Reached(st, r, i).a.own.Keys ==
      if i == r && LearnsAt(st, r) then st.links[i].a.own.Keys + {st.tree.nodes} else st.links[i].a.own.Keys
  {
    hide StarInv, Learns, LinkOk, Reached, StarStep;
    ReachedKeeps(st, r, i);
  }

  lemma ReachedOwn(st: Star, r: nat, i: nat)
    requires r < |st.links| && EnabledLeft(st.links[r], Receive) && i < |st.links| && StarInv(st)
    ensures forall n :: n in st.links[i].a.own ==> n in Reached(st, r, i).a.own
  {
    hide *;
    ReachedKeys(st, r, i);
    assert forall n :: n in st.links[i].a.own.Keys ==> n in Reached(st, r, i).a.own.Keys;
  }

  lemma ReachedNew(st: Star, r: nat)
    requires r < |st.links| && EnabledLeft(st.links[r], Receive) && StarInv(st)
    ensures LearnsAt(st, r) ==> st.tree.nodes in Reached(st, r, r).a.own
  {
    hide *;
    ReachedKeys(st, r, r);
    assert LearnsAt(st, r) ==> st.tree.nodes in Reached(st, r, r).a.own.Keys;
  }

  lemma HubTracedStep(st: Star, e: StarEvent, n0: nat, made: set<Origin>)
    requires StarInv(st) && StarEnabled(st, e) && StarSound(st, e) && HubTraced(st, n0, made) && n0 <= st.tree.nodes
    ensures HubTraced(StarStep(st, e), n0, made + Made(st, e)) && n0 <= StarStep(st, e).tree.nodes
  {
    var st' := StarStep(st, e);
    forall n | n0 <= n < st'.tree.nodes && (forall i :: 0 <= i < |st'.links| ==> n !in st'.links[i].a.own)
      ensures AtHub(n) in made + Made(st, e)
    {
      HubNodes(st, e, n);
    }
    hide StarInv, StepLeft, EnabledLeft, Sound, Notified, Reached, SentByLeft;
  }

  lemma TracedStep(st: Star, e: StarEvent, n0: nat, made: set<Origin>)
    requires StarInv(st) && StarEnabled(st, e) && StarSound(st, e) && Traced(st, n0, made)
    ensures Traced(StarStep(st, e), n0, made + Made(st, e))
  {
    HubTracedStep(st, e, n0, made);
    hide StarInv, HubTraced, LinkTraced, StarStep, Made, StarEnabled, StarSound;
    forall i | 0 <= i < |StarStep(st, e).links| ensures LinkTraced(StarStep(st, e).links[i], i, n0,
      made + Made(st, e)) {
      LinksTraced(st, e, i, n0, made);
    }
  }

  lemma {:induction false} TracedRun(st: Star, events: seq<StarEvent>, n0: nat, made: set<Origin>)
    requires StarInv(st) && IsStarRun(st, events) && Traced(st, n0, made)
    ensures Traced(StarAfter(st, events), n0, made + MadeIn(st, events))
    decreases |events|
  {
    hide StarInv, Traced, StarStep, Made, StarEnabled, StarSound;
    if events == [] {
      assert made + {} == made;
    } else {
      var e := events[0];
      StarKeeps(st, e);
      TracedStep(st, e, n0, made);
      TracedRun(StarStep(st, e), events[1..], n0, made + Made(st, e));
      assert made + Made(st, e) + MadeIn(StarStep(st, e), events[1..])
        == made + (Made(st, e) + MadeIn(StarStep(st, e), events[1..]));
    }
  }

  // ---------- What an end hears ----------

  /** The attach that a node of the hub came from. */
  ghost predicate CameFrom(st: Star, n: Node, o: Origin) {
    match o
    case AtHub(m) => m == n && Hubs(st, n)
    case AtLeaf(i, k) => i < |st.links| && n in st.links[i].a.own && st.links[i].a.own[n].nid == k
  }

  lemma BeginsTraced(tree: Tree)
    requires FreshSide(Fresh(tree))
    ensures StarInv(Star(tree, [])) && Traced(Star(tree, []), tree.nodes, {})
  {
    StarBegins(tree);
    hide StarInv, FreshSide;
  }

  lemma RunReaches(tree: Tree, events: seq<StarEvent>)
    requires FreshSide(Fresh(tree)) && IsStarRun(Star(tree, []), events)
    ensures StarRuns.Reachable(StarAfter(Star(tree, []), events))
  {
    hide FreshSide, IsStarRun, StarAfter;
  }

  /** In every run from a hub without connections: what leaf `j` is to hear next is a node that came
      from one attach of that run, and not from one of its own. */
  lemma HeardWasMadeElsewhere(tree: Tree, events: seq<StarEvent>, j: nat, m: Msg)
    requires FreshSide(Fresh(tree)) && IsStarRun(Star(tree, []), events)
    requires var st := StarAfter(Star(tree, []), events); j < |st.links| && m in st.links[j].ab && Structural(m)
    ensures var st := StarAfter(Star(tree, []), events);
      && m.child in st.links[j].a.tracked
      && exists o :: o in MadeIn(Star(tree, []), events) && CameFrom(st, st.links[j].a.tracked[m.child], o)
           && (o.AtLeaf? ==> o.i != j)
  {
    hide IsStarRun, StarAfter, MadeIn, StarInv, Traced, FreshSide, CameFrom;
    var st0 := Star(tree, []);
    BeginsTraced(tree);
    StarRunKeeps(st0, events);
    TracedRun(st0, events, tree.nodes, {});
    assert {} + MadeIn(st0, events) == MadeIn(st0, events);
    HeardFrom(StarAfter(st0, events), tree.nodes, MadeIn(st0, events), j, m);
  }

  lemma OriginOf(st: Star, n0: nat, made: set<Origin>, n: Node) returns (o: Origin)
    requires Traced(st, n0, made) && n0 <= n < st.tree.nodes
    ensures o in made && CameFrom(st, n, o)
  {
    if Hubs(st, n) {
      o := AtHub(n);
    } else {
      var i :| 0 <= i < |st.links| && n in st.links[i].a.own;
      o := AtLeaf(i, st.links[i].a.own[n].nid);
      assert LinkTraced(st.links[i], i, n0, made);
    }
  }

  lemma TracedNode(st: Star, n0: nat, made: set<Origin>, j: nat, m: Msg)
    requires Traced(st, n0, made) && j < |st.links| && m in st.links[j].ab && Structural(m)
    ensures m.child in st.links[j].a.tracked && st.links[j].a.tracked[m.child] >= n0
  {
    assert LinkTraced(st.links[j], j, n0, made);
  }

  lemma HeardFrom(st: Star, n0: nat, made: set<Origin>, j: nat, m: Msg)
    requires StarInv(st) && Traced(st, n0, made) && j < |st.links| && m in st.links[j].ab && Structural(m)
    ensures m.child in st.links[j].a.tracked
    ensures exists o :: o in made && CameFrom(st, st.links[j].a.tracked[m.child], o) && (o.AtLeaf? ==> o.i != j)
  {
    LinkOf(st, j);
    hide StarInv, Traced, Inv, BothQueued;
    AnnouncedNode(st.links[j], m);
    TracedNode(st, n0, made, j, m);
    var n := st.links[j].a.tracked[m.child];
    var o := OriginOf(st, n0, made, n);
    assert o in made && CameFrom(st, n, o) && (o.AtLeaf? ==> o.i != j);
  }

  /** What is announced to a leaf is a node of the hub's, and no proxy of that leaf's. */
  lemma AnnouncedNode(s: State, m: Msg)
    requires Inv(s) && m in s.ab && Structural(m)
    ensures m.child in s.a.tracked && s.a.tracked[m.child] < s.a.nodes && s.a.tracked[m.child] !in s.a.own
  {
    assert MsgOk(s.b, s.a, m);
    assert TrackedOk(s.a, s.next);
    hide Half;
  }

  /** Two nodes of the hub did not come from the same attach. */
  lemma OriginsDiffer(st: Star, n: Node, n': Node, o: Origin)
    requires StarInv(st) && CameFrom(st, n, o) && CameFrom(st, n', o)
    ensures n == n'
  {
    match o {
      case AtHub(_) =>
      case AtLeaf(i, k) =>
        LinkOf(st, i);
        hide StarInv;
        assert ProxyOk(st.links[i].a, st.links[i].b, n) && ProxyOk(st.links[i].a, st.links[i].b, n');
        hide Inv;
    }
  }

  // ---------- Nothing is heard twice ----------

  /** The children announced in a queue, in the order that their nids were drawn in. */
  predicate Rising(q: seq<Msg>, lo: Nid, hi: Nid) {
    && (forall i :: 0 <= i < |q| && Structural(q[i]) ==> lo <= q[i].child < hi)
    && (forall i, j :: 0 <= i < j < |q| && Structural(q[i]) && Structural(q[j]) ==> q[i].child < q[j].child)
  }

  lemma RisingMore(q: seq<Msg>, q': seq<Msg>, lo: Nid, hi: Nid, hi': Nid)
    requires Rising(q, lo, hi) && hi <= hi' && |q'| == |q| + 1 && q' == q + [q'[|q|]]
    requires Structural(q'[|q|]) ==> q'[|q|].child == hi && hi < hi' && lo <= hi
    ensures Rising(q', lo, hi')
  {
  }

  lemma RisingLess(q: seq<Msg>, lo: Nid, hi: Nid, hi': Nid)
    requires Rising(q, lo, hi) && q != [] && hi <= hi'
    ensures Rising(q[1..], if Structural(q[0]) then q[0].child + 1 else lo, hi')
    ensures Rising(q[1..], lo, hi')
  {
  }

  lemma RisingLater(q: seq<Msg>, lo: Nid, hi: Nid, hi': Nid)
    requires Rising(q, lo, hi) && hi <= hi'
    ensures Rising(q, lo, hi')
  {
  }

  /** What leaf `j` hears in a step. */
  function Hearing(st: Star, e: StarEvent, j: nat): seq<Nid>
    requires j < |st.links| && StarEnabled(st, e)
  {
    if e == Leaf(j, Receive) && Structural(st.links[j].ab[0]) then [st.links[j].ab[0].child] else []
  }

  function HeardChildren(st: Star, events: seq<StarEvent>, j: nat): seq<Nid>
    requires j < |st.links| && IsStarRun(st, events)
    decreases |events|
  {
    if events == [] then [] else Hearing(st, events[0], j) + HeardChildren(StarStep(st, events[0]), events[1..], j)
  }

  /** What a step does to the queue towards a leaf, and to the counter. */
  predicate QueueGoesOn(s: State, t: State, popped: bool) {
    && s.next <= t.next
    && if popped then s.ab != [] && t.ab == s.ab[1..] else t.ab == s.ab || ToldNew(s, t) || Subscribes(s.ab, t.ab)
  }

  predicate Subscribes(q: seq<Msg>, q': seq<Msg>) {
    |q'| == |q| + 1 && q' == q + [q'[|q|]] && q'[|q|].Subscribe?
  }

  lemma QueueReceives(s: State)
    requires Inv(s) && EnabledLeft(s, Receive)
    ensures QueueGoesOn(s, StepLeft(s, Receive), false)
  {
    StepGrows(s, Receive);
    SubscriptionBack(s);
    hide Inv, StepLeft, Grows, Learns, EnabledLeft;
    assert s.ab + [] == s.ab;
  }

  lemma QueueLeaf(s: State, act: Act)
    requires Inv(s) && s.a.calls == NoCalls && EnabledLeft(Flip(s), act) && Sound(Flip(s), act)
    ensures QueueGoesOn(s, Flip(StepLeft(Flip(s), act)), act.Receive?)
  {
    hide *;
    FlipInv(s);
    FlipFields(s);
    LeafActs(Flip(s), act);
    StepGrows(Flip(s), act);
    LeafQueues(s, act, StepLeft(Flip(s), act));
  }

  lemma FlipFields(s: State)
    ensures Flip(s).b.calls == s.a.calls && Flip(s).next == s.next
  {
  }

  lemma LeafQueues(s: State, act: Act, t: State)
    requires EnabledLeft(Flip(s), act) && LeafEffect(Flip(s), act, t) && s.next <= t.next
    ensures QueueGoesOn(s, Flip(t), act.Receive?)
  {
  }

  lemma QueueNotified(s: State, p: Node, name: Name)
    requires Inv(s) && p < s.a.nodes
    ensures QueueGoesOn(s, Notified(s, p, name), false)
  {
    NotifiedTells(s, p, name);
    hide Inv, Notified;
  }

  lemma PassedQueue(st: Star, r: nat, j: nat)
    requires r < |st.links| && EnabledLeft(st.links[r], Receive) && j < |st.links| && PassedOn(st, r, j)
    requires Inv(st.links[j])
    ensures QueueGoesOn(st.links[j], Reached(st, r, j), false)
  {
    hide Inv, QueueGoesOn, Notified, Reached;
    var x, m := st.links[r].a, st.links[r].ba[0];
    if Learns(x, m) {
      QueueNotified(st.links[j], x.tracked[m.parent], m.name);
    } else {
      QueueSame(st.links[j]);
    }
  }

  lemma QueueReached(st: Star, r: nat, j: nat)
    requires r < |st.links| && EnabledLeft(st.links[r], Receive) && j < |st.links| && StarInv(st)
    ensures QueueGoesOn(st.links[j], Reached(st, r, j), false)
  {
    hide *;
    LinkOf(st, j);
    if j == r {
      ReachedSelf(st, r);
      QueueReceives(st.links[r]);
    } else {
      PassesOn(st, r, j);
      PassedQueue(st, r, j);
    }
  }

  lemma QueueSame(s: State)
    ensures QueueGoesOn(s, s, false)
  {
  }

  lemma QueueStep(st: Star, e: StarEvent, j: nat)
    requires StarInv(st) && StarEnabled(st, e) && StarSound(st, e) && j < |st.links|
    ensures QueueGoesOn(st.links[j], StarStep(st, e).links[j], e == Leaf(j, Receive))
  {
    hide StarInv, StepLeft, Notified, Reached, EnabledLeft, Sound, Inv, QueueGoesOn, BothQueued;
    LinkOf(st, j);
    match e {
      case Connect(leaf) => QueueSame(st.links[j]);
      case HubAttach(p, name) => QueueNotified(st.links[j], p, name);
      case HubReceive(r) => QueueReached(st, r, j);
      case Leaf(r, act) =>
        if r == j {
          QueueLeaf(st.links[j], act);
        } else {
          QueueSame(st.links[j]);
        }
    }
  }

  lemma RisingStep(st: Star, e: StarEvent, j: nat, lo: Nid)
    requires StarInv(st) && StarEnabled(st, e) && StarSound(st, e) && j < |st.links|
    requires lo <= st.links[j].next && Rising(st.links[j].ab, lo, st.links[j].next)
    ensures var t, ks := StarStep(st, e).links[j], Hearing(st, e, j);
      if ks == [] then Rising(t.ab, lo, t.next) && lo <= t.next
      else ks == [ks[0]] && lo <= ks[0] < t.next && Rising(t.ab, ks[0] + 1, t.next)
  {
    var s, t := st.links[j], StarStep(st, e).links[j];
    QueueStep(st, e, j);
    RisingGoesOn(s, t, e == Leaf(j, Receive), lo);
    hide StarInv, StarStep, EnabledLeft, StepLeft, Rising, QueueGoesOn;
  }

  lemma RisingGoesOn(s: State, t: State, popped: bool, lo: Nid)
    requires QueueGoesOn(s, t, popped) && lo <= s.next && Rising(s.ab, lo, s.next)
    ensures lo <= t.next && Rising(t.ab, lo, t.next)
    ensures popped && Structural(s.ab[0]) ==>
      var k := s.ab[0].child; lo <= k < t.next && Rising(t.ab, k + 1, t.next)
  {
    if popped {
      RisingLess(s.ab, lo, s.next, t.next);
    } else if t.ab == s.ab {
      RisingLater(s.ab, lo, s.next, t.next);
    } else {
      RisingMore(s.ab, t.ab, lo, s.next, t.next);
    }
  }

  lemma {:induction false} HeardRising(st: Star, events: seq<StarEvent>, j: nat, lo: Nid)
    requires StarInv(st) && IsStarRun(st, events) && j < |st.links|
    requires lo <= st.links[j].next && Rising(st.links[j].ab, lo, st.links[j].next)
    ensures Ascending(HeardChildren(st, events, j), lo)
    decreases |events|
  {
    hide StarInv, StarStep, StarEnabled, StarSound, Hearing, Rising, Ascending;
    if events == [] {
      AscendingNothing(lo);
    } else {
      var e := events[0];
      var t, ks := StarStep(st, e), Hearing(st, e, j);
      StarKeeps(st, e);
      RisingStep(st, e, j, lo);
      var rest := HeardChildren(t, events[1..], j);
      if ks == [] {
        HeardRising(t, events[1..], j, lo);
        assert [] + rest == rest;
      } else {
        HeardRising(t, events[1..], j, ks[0] + 1);
        AscendingFrom(rest, ks[0], lo);
      }
    }
  }

  lemma AscendingFrom(ks: seq<Nid>, k: Nid, lo: Nid)
    requires Ascending(ks, k + 1) && lo <= k
    ensures Ascending([k] + ks, lo)
  {
  }

  predicate AllRising(st: Star) { forall j :: 0 <= j < |st.links| ==> Rising(st.links[j].ab, 0, st.links[j].next) }

  lemma AllRisingStep(st: Star, e: StarEvent)
    requires StarInv(st) && StarEnabled(st, e) && StarSound(st, e) && AllRising(st)
    ensures AllRising(StarStep(st, e))
  {
    var st' := StarStep(st, e);
    NewLinkRises(st, e);
    hide StarInv, StarStep, StarEnabled, StarSound, Rising, QueueGoesOn;
    forall j | 0 <= j < |st'.links| ensures Rising(st'.links[j].ab, 0, st'.links[j].next) {
      if j < |st.links| {
        QueueStep(st, e, j);
        RisingGoesOn(st.links[j], st'.links[j], e == Leaf(j, Receive), 0);
      }
    }
  }

  lemma NewLinkRises(st: Star, e: StarEvent)
    requires StarEnabled(st, e)
    ensures var st' := StarStep(st, e);
      forall j :: |st.links| <= j < |st'.links| ==> Rising(st'.links[j].ab, 0, st'.links[j].next)
  {
    hide StepLeft, EnabledLeft;
  }

  lemma {:induction false} AllRisingRun(st: Star, events: seq<StarEvent>)
    requires StarInv(st) && IsStarRun(st, events) && AllRising(st)
    ensures AllRising(StarAfter(st, events))
    decreases |events|
  {
    hide StarInv, StarStep, StarEnabled, StarSound, AllRising;
    if events != [] {
      StarKeeps(st, events[0]);
      AllRisingStep(st, events[0]);
      AllRisingRun(StarStep(st, events[0]), events[1..]);
    }
  }

  predicate Distinct<T(==)>(ks: seq<T>) { forall a, b :: 0 <= a < b < |ks| ==> ks[a] != ks[b] }

  lemma AscendingDistinct(ks: seq<Nid>, lo: Nid)
    requires Ascending(ks, lo)
    ensures Distinct(ks)
  {
  }

  /** In every run from a reachable star, a leaf hears of no child twice. */
  lemma NothingIsHeardTwice(st: Star, events: seq<StarEvent>, j: nat)
    requires StarRuns.Reachable(st) && IsStarRun(st, events) && j < |st.links|
    ensures Distinct(HeardChildren(st, events, j))
  {
    ReachableStarInv(st);
    ReachableRising(st);
    hide StarInv, StarRuns.Reachable, IsStarRun;
    assert Rising(st.links[j].ab, 0, st.links[j].next);
    HeardRising(st, events, j, 0);
    hide HeardChildren, Distinct, Ascending;
    AscendingDistinct(HeardChildren(st, events, j), 0);
  }

  lemma ReachableRising(st: Star)
    requires StarRuns.Reachable(st)
    ensures AllRising(st)
  {
    hide FreshSide, IsStarRun, StarAfter, StarInv, AllRising;
    var tree, events :| FreshSide(Fresh(tree)) && IsStarRun(Star(tree, []), events)
      && StarAfter(Star(tree, []), events) == st;
    StarBegins(tree);
    NoLinksRise(tree);
    AllRisingRun(Star(tree, []), events);
  }

  lemma NoLinksRise(tree: Tree)
    ensures AllRising(Star(tree, []))
  {
  }

  // ---------- Each of another attach ----------

  lemma NotifiedGrows(s: State, p: Node, name: Name)
    requires p < s.a.nodes && Inv(s)
    ensures Grows(s.a, Notified(s, p, name).a)
  {
    OwnBelow(s.a, s.b);
    AttachNodeNew(s.a, s.b, p, name, s.next);
    AttachedGrows(s.a, s.b, p, name, s.next);
    hide Inv, AttachNode, AttachedNew, Grows;
  }

  lemma PassedGrows(st: Star, r: nat, j: nat)
    requires r < |st.links| && EnabledLeft(st.links[r], Receive) && j < |st.links| && PassedOn(st, r, j)
    requires Inv(st.links[j])
    ensures Grows(st.links[j].a, Reached(st, r, j).a)
  {
    hide Inv, Grows, Notified, Reached;
    var x, m := st.links[r].a, st.links[r].ba[0];
    if Learns(x, m) {
      NotifiedGrows(st.links[j], x.tracked[m.parent], m.name);
    } else {
      SelfGrows(st.links[j].a);
    }
  }

  lemma ReachedGrows(st: Star, r: nat, j: nat)
    requires r < |st.links| && EnabledLeft(st.links[r], Receive) && j < |st.links| && StarInv(st)
    ensures Grows(st.links[j].a, Reached(st, r, j).a)
  {
    hide *;
    LinkOf(st, j);
    if j == r {
      ReachedSelf(st, r);
      ReceiveGrows(st.links[r]);
    } else {
      PassesOn(st, r, j);
      PassedGrows(st, r, j);
    }
  }

  /** The hub's end of a connection only grows. */
  lemma HubEndGrows(st: Star, e: StarEvent, j: nat)
    requires StarEnabled(st, e) && StarSound(st, e) && j < |st.links| && StarInv(st)
    ensures Grows(st.links[j].a, StarStep(st, e).links[j].a)
  {
    hide StarInv, StepLeft, Notified, Reached, EnabledLeft, Sound, Inv, Grows, BothQueued, Learns, Grown;
    LinkOf(st, j);
    SelfGrows(st.links[j].a);
    match e {
      case Connect(leaf) =>
      case HubAttach(p, name) => NotifiedGrows(st.links[j], p, name);
      case HubReceive(r) => ReachedGrows(st, r, j);
      case Leaf(r, act) => LeafOwnSide(st, r, act, j);
    }
  }

  lemma LeafOwnSide(st: Star, r: nat, act: Act, j: nat)
    requires StarEnabled(st, Leaf(r, act)) && StarSound(st, Leaf(r, act)) && j < |st.links| && StarInv(st)
    ensures StarStep(st, Leaf(r, act)).links[j].a == st.links[j].a
  {
    LinkOf(st, r);
    hide StarInv, Inv, BothQueued;
    HubSideStays(st.links[r], act);
    LeafStep(st, r, act);
    hide StarStep, StepLeft;
  }

  lemma {:induction false} HubEndGrowsOn(st: Star, events: seq<StarEvent>, j: nat)
    requires StarInv(st) && IsStarRun(st, events) && j < |st.links|
    ensures |st.links| <= |StarAfter(st, events).links|
    ensures Grows(st.links[j].a, StarAfter(st, events).links[j].a)
    decreases |events|
  {
    hide StarInv, StarStep, StarEnabled, StarSound, Grows;
    SelfGrows(st.links[j].a);
    if events != [] {
      var t := StarStep(st, events[0]);
      StarKeeps(st, events[0]);
      HubEndGrows(st, events[0], j);
      HubEndGrowsOn(t, events[1..], j);
      GrowsFurther(st.links[j].a, t.links[j].a, StarAfter(t, events[1..]).links[j].a);
    }
  }

  /** A nid that a leaf was told: a node which the hub did not have at first, and no proxy of that leaf's. */
  predicate HeardNode(x: Side, n0: nat, k: Nid) {
    k in x.tracked && n0 <= x.tracked[k] < x.nodes && x.tracked[k] !in x.own
  }

  lemma HeardNodeStays(x: Side, x': Side, n0: nat, k: Nid)
    requires HeardNode(x, n0, k) && Grows(x, x')
    ensures HeardNode(x', n0, k)
  {
  }

  lemma HearingIs(st: Star, e: StarEvent, j: nat)
    requires StarEnabled(st, e) && j < |st.links| && Hearing(st, e, j) != []
    ensures var q := st.links[j].ab; q != [] && Structural(q[0]) && Hearing(st, e, j) == [q[0].child]
  {
  }

  lemma HearingNode(st: Star, e: StarEvent, n0: nat, made: set<Origin>, j: nat)
    requires StarEnabled(st, e) && j < |st.links| && Traced(st, n0, made) && StarInv(st)
    ensures forall k :: k in Hearing(st, e, j) ==> HeardNode(st.links[j].a, n0, k)
  {
    hide *;
    if Hearing(st, e, j) != [] {
      HearingIs(st, e, j);
      LinkOf(st, j);
      var m := st.links[j].ab[0];
      assert m in st.links[j].ab;
      AnnouncedNode(st.links[j], m);
      TracedNode(st, n0, made, j, m);
      IsHeardNode(st.links[j].a, n0, m.child);
    }
  }

  lemma IsHeardNode(x: Side, n0: nat, k: Nid)
    requires k in x.tracked && n0 <= x.tracked[k] < x.nodes && x.tracked[k] !in x.own
    ensures HeardNode(x, n0, k)
  {
  }

  lemma {:induction false} HeardNodes(st: Star, events: seq<StarEvent>, n0: nat, made: set<Origin>, j: nat)
    requires IsStarRun(st, events) && j < |st.links| && Traced(st, n0, made) && StarInv(st)
    ensures |st.links| <= |StarAfter(st, events).links|
    ensures forall k :: k in HeardChildren(st, events, j) ==> HeardNode(StarAfter(st, events).links[j].a, n0, k)
    decreases |events|
  {
    hide StarInv, Traced, StarStep, StarEnabled, StarSound, Hearing, HeardNode, Made, Grows;
    HubEndGrowsOn(st, events, j);
    if events != [] {
      var e := events[0];
      HearingNode(st, e, n0, made, j);
      forall k | k in Hearing(st, e, j) ensures HeardNode(StarAfter(st, events).links[j].a, n0, k) {
        HeardNodeStays(st.links[j].a, StarAfter(st, events).links[j].a, n0, k);
      }
      StarKeeps(st, e);
      TracedStep(st, e, n0, made);
      HeardNodes(StarStep(st, e), events[1..], n0, made + Made(st, e), j);
    }
  }

  /** The node that a leaf knows by the nid came from this attach, which was not one of its own. */
  ghost predicate ComesFrom(st: Star, j: nat, k: Nid, o: Origin) {
    && j < |st.links| && k in st.links[j].a.tracked && CameFrom(st, st.links[j].a.tracked[k], o)
    && (o.AtLeaf? ==> o.i != j)
  }

  lemma OneComesFrom(st: Star, n0: nat, made: set<Origin>, j: nat, k: Nid) returns (o: Origin)
    requires j < |st.links| && HeardNode(st.links[j].a, n0, k) && Traced(st, n0, made) && StarInv(st)
    ensures o in made && ComesFrom(st, j, k, o)
  {
    LinkOf(st, j);
    hide StarInv, Traced, Inv, BothQueued;
    o := OriginOf(st, n0, made, st.links[j].a.tracked[k]);
  }

  /** One attach each, for children under different nids. */
  ghost predicate ComeFrom(st: Star, j: nat, ks: seq<Nid>, os: seq<Origin>, made: set<Origin>) {
    && |os| == |ks|
    && (forall a :: 0 <= a < |ks| ==> os[a] in made && ComesFrom(st, j, ks[a], os[a]))
    && Distinct(os)
  }

  lemma {:induction false} AllComeFrom(st: Star, n0: nat, made: set<Origin>, j: nat, ks: seq<Nid>)
    returns (os: seq<Origin>)
    requires j < |st.links| && Traced(st, n0, made) && StarInv(st)
    requires forall k :: k in ks ==> HeardNode(st.links[j].a, n0, k)
    requires Distinct(ks)
    ensures ComeFrom(st, j, ks, os, made)
  {
    hide StarInv, Traced, HeardNode, ComesFrom;
    os := [];
    if ks != [] {
      var o := OneComesFrom(st, n0, made, j, ks[0]);
      var rest := AllComeFrom(st, n0, made, j, ks[1..]);
      forall b | 0 <= b < |rest| ensures rest[b] != o {
        assert ComesFrom(st, j, ks[1..][b], rest[b]);
        if rest[b] == o {
          SameOrigin(st, j, ks[0], ks[1..][b], o);
        }
      }
      os := [o] + rest;
    }
  }

  lemma SameOrigin(st: Star, j: nat, k: Nid, l: Nid, o: Origin)
    requires ComesFrom(st, j, k, o) && ComesFrom(st, j, l, o) && StarInv(st)
    ensures k == l
  {
    OriginsDiffer(st, st.links[j].a.tracked[k], st.links[j].a.tracked[l], o);
    LinkOf(st, j);
    hide StarInv, CameFrom;
    assert TrackedOk(st.links[j].a, st.links[j].next);
    hide Inv;
  }

  /** Over any run: all that a leaf hears, at whatever time, comes from attaches that were made by other
      ends since there was a hub, each from one of its own. */
  lemma HeardComeFromAttaches(tree: Tree, before: seq<StarEvent>, events: seq<StarEvent>, j: nat)
    returns (os: seq<Origin>)
    requires FreshSide(Fresh(tree)) && IsStarRun(Star(tree, []), before)
    requires var st := StarAfter(Star(tree, []), before); IsStarRun(st, events) && j < |st.links|
    ensures var st0 := Star(tree, []); var st := StarAfter(st0, before);
      ComeFrom(StarAfter(st, events), j, HeardChildren(st, events, j), os, MadeIn(st0, before) + MadeIn(st, events))
  {
    hide *;
    var st0 := Star(tree, []);
    BeginsTraced(tree);
    RunReaches(tree, before);
    var st := StarAfter(st0, before);
    var made := {} + MadeIn(st0, before);
    StarRunKeeps(st0, before);
    TracedRun(st0, before, tree.nodes, {});
    NothingIsHeardTwice(st, events, j);
    HeardNodes(st, events, tree.nodes, made, j);
    StarRunKeeps(st, events);
    TracedRun(st, events, tree.nodes, made);
    assert made + MadeIn(st, events) == MadeIn(st0, before) + MadeIn(st, events);
    os := AllComeFrom(StarAfter(st, events), tree.nodes, made + MadeIn(st, events), j, HeardChildren(st, events, j));
  }
}
