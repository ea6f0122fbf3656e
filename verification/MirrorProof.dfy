/** Every step of a connection keeps the naming invariant. */
module MirrorProof {
  import opened Bytes
  import opened Packages
  import opened Mirror

  // ---------- get_nid ----------

  lemma FindNidTracked(tracked: map<Nid, Node>, k: Nid)
    requires Injective(tracked) && k in tracked
    ensures FindNid(tracked, tracked[k]) == Some(k)
  {
    hide FindNid;
  }

  lemma FindNidUntracked(tracked: map<Nid, Node>, n: Node)
    requires forall k :: k in tracked ==> tracked[k] != n
    ensures FindNid(tracked, n) == None
  {
    hide FindNid;
  }

  /** An original that is not tracked yet gets the next nid. */
  function Track(x: Side, n: Node, next: Nid): Side { x.(tracked := x.tracked[next := n]) }

  function WithEdge(x: Side, p: Node, name: Name, n: Node): Side { x.(edges := x.edges[(p, name) := n]) }

  /** What attaching a new node of its own comes to: at most one message, to whoever has a
      reason to know about the parent. */
  function AttachedNew(x: Side, p: Node, name: Name, next: Nid): (Side, seq<Msg>, Nid) {
    var n, x1 := x.nodes, NewNode(x);
    if (p, name) in x.edges then (x1, [], next)
    else if p in x.listening then
      (Track(WithEdge(x1, p, name, n), n, next), [ChildAdded(x.listening[p], next, name)], next + 1)
    else if p in x.own then
      (Track(WithEdge(x1, p, name, n), n, next), [Attach(x.own[p].nid, next, name)], next + 1)
    else (WithEdge(x1, p, name, n), [], next)
  }

  lemma AttachNodeNew(x: Side, y: Side, p: Node, name: Name, next: Nid)
    requires TrackedOk(x, next) && ListeningOk(x, y) && p < x.nodes && forall m :: m in x.own ==> m < x.nodes
    ensures AttachNode(NewNode(x), p, name, x.nodes, next) == AttachedNew(x, p, name, next)
  {
    var n := x.nodes;
    if (p, name) !in x.edges {
      var x1 := WithEdge(NewNode(x), p, name, n);
      FindNidUntracked(x.tracked, n);
      if p in x.listening {
        FindNidTracked(x.tracked, x.listening[p]);
        assert TellAdded(x1, p, name, n, next) == (Track(x1, n, next), [ChildAdded(x.listening[p], next, name)],
          next + 1);
        assert p !in x.own;
        assert [ChildAdded(x.listening[p], next, name)] + [] == [ChildAdded(x.listening[p], next, name)];
      } else if p in x.own {
        assert TellAttach(x1, p, name, n, next) == (Track(x1, n, next), [Attach(x.own[p].nid, next, name)], next + 1);
        assert [] + [Attach(x.own[p].nid, next, name)] == [Attach(x.own[p].nid, next, name)];
      } else {
        assert TellAdded(x1, p, name, n, next).1 + TellAttach(x1, p, name, n, next).1 == [];
      }
    }
  }

  // ---------- Growth ----------

  /** Trees, tracking tables and proxies only ever grow; new proxies are new nodes. */
  predicate Grows(x: Side, x': Side) {
    && x'.root == x.root && x.nodes <= x'.nodes
    && (forall k :: k in x.tracked ==> k in x'.tracked && x'.tracked[k] == x.tracked[k])
    && (forall n :: n in x.own ==> n in x'.own && x'.own[n] == x.own[n])
    && (forall n :: n in x'.own ==> n in x.own || n >= x.nodes)
    && (forall e :: e in x.edges ==> e in x'.edges && x'.edges[e] == x.edges[e])
  }

  lemma KnownGrows(x: Side, x': Side, parent: Nid, k: Nid, name: Name, next: Nid)
    requires TrackedOk(x, next) && Grows(x, x') && Known(x, parent, k, name)
    ensures Known(x', parent, k, name)
    ensures x.tracked[parent] in x.own <==> x'.tracked[parent] in x'.own
  {
  }

  /** Nids that an end starts to track: fresh ones, and those of new proxies of the peer's originals. */
  predicate NewNids(x: Side, x': Side, y: Side, next: Nid) {
    forall k :: k in x'.tracked && k !in x.tracked ==>
      k >= next || (k in y.tracked && y.tracked[k] !in y.own && x'.tracked[k] in x'.own)
  }

  lemma PeerProxies(y: Side, x: Side, x': Side, next: Nid)
    requires ProxiesOk(y, x) && TrackedOk(x, next) && Grows(x, x')
    ensures ProxiesOk(y, x')
  {
    forall n | n in y.own ensures ProxyOk(y, x', n) {
      assert ProxyOk(y, x, n);
      KnownGrows(x, x', y.own[n].parent, y.own[n].nid, y.own[n].name, next);
    }
  }

  /** The state of an own AT is the same. */
  predicate SameQuestion(x: Side, x': Side) {
    x'.calls.fetching == x.calls.fetching && x'.calls.reply == x.calls.reply
  }

  /** A proxy to be inserted is still to be inserted. */
  predicate StillLoose(x: Side, x': Side) {
    forall c :: c in x.calls.loose ==> c in x'.calls.loose && x'.calls.loose[c] == x.calls.loose[c]
  }

  lemma FetchOkGrows(x: Side, x': Side, y: Side, next: Nid)
    requires FetchOk(x, y) && TrackedOk(x, next) && Grows(x, x') && x'.calls == x.calls
    ensures FetchOk(x', y)
  {
    CallersGrow(x, x');
    ReplyGrows(x, x', y, next);
    hide CallersOk, ReplyOk, TrackedOk, Grows;
  }

  lemma CallersGrow(x: Side, x': Side)
    requires CallersOk(x) && Grows(x, x') && x'.calls == x.calls
    ensures CallersOk(x')
  {
  }

  lemma ReplyGrows(x: Side, x': Side, y: Side, next: Nid)
    requires ReplyOk(x, y) && TrackedOk(x, next) && Grows(x, x') && SameQuestion(x, x')
    ensures ReplyOk(x', y)
  {
    if x.calls.reply.Some? && x.calls.reply.value.Some? && x.calls.fetching.Some? {
      var (p, name) := x.calls.fetching.value;
      OwnThereGrows(x, x', p, x.calls.reply.value.value, name, next);
    }
    hide OwnThere, Known, ProxyThere, TrackedOk;
  }

  lemma OwnThereGrows(x: Side, x': Side, p: Node, k: Nid, name: Name, next: Nid)
    requires TrackedOk(x, next) && Grows(x, x')
    ensures OwnThere(x, p, k, name) ==> OwnThere(x', p, k, name)
  {
  }

  lemma ProxyThereGrows(x: Side, x': Side, q: Nid, name: Name)
    requires Grows(x, x') && ProxyThere(x, q, name)
    ensures ProxyThere(x', q, name)
  {
  }

  /** What a reply said is still so when the peer has grown. */
  lemma SaysOfGrown(y: Side, x: Side, x': Side, next: Nid)
    requires ReplyOk(y, x) && TrackedOk(x, next) && Grows(x, x')
    ensures ReplyOk(y, x')
  {
    if y.calls.reply.Some? && y.calls.reply.value.Some? && y.calls.fetching.Some? {
      var (p, name) := y.calls.fetching.value;
      var k := y.calls.reply.value.value;
      if p in y.own && Known(x, y.own[p].nid, k, name) {
        KnownGrows(x, x', y.own[p].nid, k, name, next);
      } else if p in y.own && ProxyThere(x, y.own[p].nid, name) {
        ProxyThereGrows(x, x', y.own[p].nid, name);
      }
    }
    hide Known, OwnThere, ProxyThere, Grows, TrackedOk;
  }

  lemma PeerMsgs(y: Side, x: Side, x': Side, toY: seq<Msg>, next: Nid)
    requires MsgsOk(y, x, toY) && TrackedOk(x, next) && Grows(x, x') && SameQuestion(x, x')
    ensures MsgsOk(y, x', toY)
  {
    forall m | m in toY ensures MsgOk(y, x', m) {
      assert MsgOk(y, x, m);
      if m.ChildAdded? || m.Attach? {
        KnownGrows(x, x', m.parent, m.child, m.name, next);
      }
    }
  }

  lemma PeerPaired(y: Side, x: Side, x': Side, next: Nid)
    requires Paired(y, x) && TrackedOk(x, next) && TrackedOk(y, next) && Grows(x, x') && NewNids(x, x', y, next)
    ensures Paired(y, x') && Paired(x', y)
  {
    forall k | k in y.tracked && k in x'.tracked && k != 0
      ensures y.tracked[k] in y.own <==> x'.tracked[k] !in x'.own
    {
      if k in x.tracked {
        assert x.tracked[k] < x.nodes;
      }
    }
  }

  /** The peer's half does not notice that this end grew. */
  lemma PeerGrows(y: Side, x: Side, x': Side, toY: seq<Msg>, next: Nid, next': Nid)
    requires Half(y, x, toY, next) && TrackedOk(x, next) && Grows(x, x') && NewNids(x, x', y, next) && next <= next'
    requires SameQuestion(x, x')
    ensures Half(y, x', toY, next')
  {
    PeerProxies(y, x, x', next);
    PeerMsgs(y, x, x', toY, next);
    PeerPaired(y, x, x', next);
    assert ListeningOk(y, x') by { hide ProxiesOk, MsgsOk, Paired, Placed, EdgesOk; }
    assert TrackedOk(y, next') by { hide ProxiesOk, MsgsOk, Paired, Placed, EdgesOk; }
    SaysOfGrown(y, x, x', next);
    hide CallersOk, ReplyOk;
    hide ProxiesOk, MsgsOk, Paired, Placed, EdgesOk, ListeningOk, TrackedOk;
  }

  /** Two messages or proxies about the same node of the peer name the same place. */
  lemma SamePlace(y: Side, p1: Nid, p2: Nid, k: Nid, n1: Name, n2: Name, next: Nid)
    requires TrackedOk(y, next) && EdgesOk(y) && Known(y, p1, k, n1) && Known(y, p2, k, n2)
    ensures p1 == p2 && n1 == n2
  {
    assert (y.tracked[p1], n1) == (y.tracked[p2], n2);
  }

  lemma SamePlaceOf(y: Side, p1: Nid, p2: Nid, k: Nid, n1: Name, n2: Name, next: Nid)
    requires TrackedOk(y, next) && EdgesOk(y)
    ensures Known(y, p1, k, n1) && Known(y, p2, k, n2) ==> p1 == p2 && n1 == n2
  {
    if Known(y, p1, k, n1) && Known(y, p2, k, n2) {
      SamePlace(y, p1, p2, k, n1, n2, next);
    }
  }

  /** A node that came to be tracked while a CHILD_ADDED for it was waiting hangs where the
      message says. */
  lemma OwnMsg(x: Side, x': Side, y: Side, m: Msg, next: Nid, next': Nid)
    requires MsgOk(x, y, m) && TrackedOk(x, next) && TrackedOk(x', next') && TrackedOk(y, next) && EdgesOk(y)
    requires ProxiesOk(x', y) && Grows(x, x') && NewNids(x, x', y, next) && StillLoose(x, x')
    requires m.Attach? ==> m.child !in x'.tracked
    ensures MsgOk(x', y, m)
  {
    if m.ChildAdded? && m.child in x'.tracked {
      if m.child in x.tracked {
        assert Taken(x, m.parent, m.name) || IsLoose(x, x.tracked[m.child]);
      } else {
        var n := x'.tracked[m.child];
        assert m.child < next && n in x'.own && ProxyOk(x', y, n);
        var p := x'.own[n];
        assert p.nid == m.child;
        hide ProxiesOk, NewNids, EdgesOk;
        SamePlaceOf(y, p.parent, m.parent, m.child, p.name, m.name, next);
      }
    }
  }

  lemma OwnMsgs(x: Side, x': Side, y: Side, toX: seq<Msg>, next: Nid, next': Nid)
    requires MsgsOk(x, y, toX) && TrackedOk(x, next) && TrackedOk(x', next') && TrackedOk(y, next) && EdgesOk(y)
    requires ProxiesOk(x', y) && Grows(x, x') && NewNids(x, x', y, next) && StillLoose(x, x')
    requires forall m :: m in toX && m.Attach? ==> m.child !in x'.tracked
    ensures MsgsOk(x', y, toX)
  {
    forall m | m in toX ensures MsgOk(x', y, m) {
      assert MsgOk(x, y, m);
      hide MsgOk;
      OwnMsg(x, x', y, m, next, next');
    }
    hide TrackedOk, EdgesOk, ProxiesOk, Grows, NewNids, MsgOk;
  }

  /** An end whose tables grew in order keeps its half. */
  lemma OwnGrows(x: Side, x': Side, y: Side, toX: seq<Msg>, next: Nid, next': Nid)
    requires Half(x, y, toX, next) && TrackedOk(y, next) && EdgesOk(y) && Grows(x, x') && NewNids(x, x', y, next)
    requires next <= next'
    requires StillLoose(x, x')
    requires TrackedOk(x', next') && EdgesOk(x') && ProxiesOk(x', y) && Placed(x') && ListeningOk(x', y)
    requires FetchOk(x', y)
    requires forall m :: m in toX && m.Attach? ==> m.child !in x'.tracked
    ensures Half(x', y, toX, next')
  {
    OwnMsgs(x, x', y, toX, next, next');
    PeerPairedOf(y, x, x', next);
    hide TrackedOk, EdgesOk, ProxiesOk, Placed, ListeningOk, FetchOk, MsgsOk, Paired, Grows, NewNids;
  }

  lemma PeerPairedOf(y: Side, x: Side, x': Side, next: Nid)
    requires Paired(x, y) && TrackedOk(x, next) && TrackedOk(y, next) && Grows(x, x') && NewNids(x, x', y, next)
    ensures Paired(x', y)
  {
    assert Paired(y, x);
    PeerPaired(y, x, x', next);
  }

  lemma ListeningGrows(x: Side, x': Side, y: Side, next: Nid)
    requires ListeningOk(x, y) && TrackedOk(x, next) && Grows(x, x') && x'.listening == x.listening
    ensures ListeningOk(x', y)
  {
    forall n | n in x'.listening
      ensures n !in x'.own && x'.listening[n] in x'.tracked && x'.tracked[x'.listening[n]] == n
      ensures x'.listening[n] in y.tracked
    {
      assert x.tracked[x.listening[n]] < x.nodes;
    }
  }

  lemma OwnProxiesGrow(x: Side, x': Side, y: Side, next: Nid)
    requires ProxiesOk(x, y) && TrackedOk(x, next) && Grows(x, x') && StillLoose(x, x')
    ensures forall n :: n in x.own ==> ProxyOk(x', y, n)
  {
    forall n | n in x.own ensures ProxyOk(x', y, n) {
      assert ProxyOk(x, y, n);
    }
  }

  // ---------- Attaching a node of one's own ----------

  lemma NewEdge(x: Side, x': Side, p: Node, name: Name)
    requires EdgesOk(x) && p < x.nodes && (p, name) !in x.edges && x.root < x.nodes
    requires x'.nodes == x.nodes + 1 && x'.root == x.root && x'.edges == x.edges[(p, name) := x.nodes]
    ensures EdgesOk(x')
  {
    assert forall e :: e in x.edges ==> x.edges[e] != x.nodes;
  }

  lemma OriginalPlaced(x: Side, x': Side, p: Node, name: Name)
    requires Placed(x) && (p, name) !in x.edges && x.nodes !in x.own
    requires x'.own == x.own && x'.edges == x.edges[(p, name) := x.nodes]
    requires forall k :: k in x.tracked ==> k in x'.tracked && x'.tracked[k] == x.tracked[k]
    ensures Placed(x')
  {
  }

  lemma NewTracked(x: Side, x': Side, next: Nid)
    requires TrackedOk(x, next) && x'.root == x.root && x'.nodes == x.nodes + 1 && x'.own == x.own
    requires x'.tracked == x.tracked || x'.tracked == x.tracked[next := x.nodes]
    ensures TrackedOk(x', if x'.tracked == x.tracked then next else next + 1)
  {
    assert forall k :: k in x.tracked ==> x.tracked[k] != x.nodes;
  }

  lemma AttachedFields(x: Side, p: Node, name: Name, next: Nid)
    ensures var (x', ms, next') := AttachedNew(x, p, name, next);
      && x'.root == x.root && x'.nodes == x.nodes + 1 && x'.own == x.own && x'.listening == x.listening
      && x'.calls == x.calls
      && x'.edges == (if (p, name) in x.edges then x.edges else x.edges[(p, name) := x.nodes])
      && ((x'.tracked == x.tracked && next' == next) || (x'.tracked == x.tracked[next := x.nodes] && next' == next + 1))
  {
  }

  lemma AttachedTree(x: Side, p: Node, name: Name, next: Nid)
    requires TrackedOk(x, next) && EdgesOk(x) && Placed(x) && p < x.nodes && x.nodes !in x.own
    ensures var x' := AttachedNew(x, p, name, next).0; EdgesOk(x') && Placed(x')
  {
    var x' := AttachedNew(x, p, name, next).0;
    AttachedFields(x, p, name, next);
    assert next !in x.tracked && x.root < x.nodes;
    hide AttachedNew, TrackedOk;
    if (p, name) in x.edges {
      assert EdgesOk(x') by { hide Placed; }
      assert Placed(x') by { hide EdgesOk; }
    } else {
      NewEdge(x, x', p, name);
      OriginalPlaced(x, x', p, name);
    }
  }

  lemma AttachedGrows(x: Side, y: Side, p: Node, name: Name, next: Nid)
    requires TrackedOk(x, next)
    ensures var (x', ms, next') := AttachedNew(x, p, name, next);
      && Grows(x, x') && NewNids(x, x', y, next) && TrackedOk(x', next') && next <= next'
      && (forall k :: k in x'.tracked ==> k in x.tracked || k == next)
  {
    var (x', ms, next') := AttachedNew(x, p, name, next);
    AttachedFields(x, p, name, next);
    hide AttachedNew;
    assert next !in x.tracked;
    assert x'.tracked == x.tracked[next := x.nodes] ==> next in x'.tracked;
    NewTracked(x, x', next);
    hide TrackedOk;
  }

  lemma TellsChild(x: Side, y: Side, p: Node, name: Name, next: Nid)
    requires TrackedOk(x, next) && TrackedOk(y, next) && ListeningOk(x, y)
    requires p in x.listening && x.nodes !in x.own
    ensures MsgOk(y, Track(WithEdge(NewNode(x), p, name, x.nodes), x.nodes, next),
      ChildAdded(x.listening[p], next, name))
  {
  }

  lemma TellsAttach(x: Side, y: Side, p: Node, name: Name, next: Nid)
    requires TrackedOk(x, next) && TrackedOk(y, next) && ProxiesOk(x, y) && p in x.own && x.nodes !in x.own
    ensures MsgOk(y, Track(WithEdge(NewNode(x), p, name, x.nodes), x.nodes, next), Attach(x.own[p].nid, next, name))
  {
    ProxyIsOriginal(x, y, p);
    hide ProxiesOk;
  }

  /** The one message an attach sends, if any, is in order, and its nid is new. */
  lemma AttachedMsgs(x: Side, y: Side, p: Node, name: Name, next: Nid)
    requires TrackedOk(x, next) && TrackedOk(y, next) && ProxiesOk(x, y) && ListeningOk(x, y) && p < x.nodes
    ensures var (x', ms, _) := AttachedNew(x, p, name, next);
      |ms| <= 1 && forall m :: m in ms ==> MsgOk(y, x', m) && (m.Attach? || m.ChildAdded?) && m.child == next
  {
    OwnBelow(x, y);
    if p in x.listening {
      TellsChild(x, y, p, name, next);
    } else if p in x.own {
      TellsAttach(x, y, p, name, next);
    }
    hide TrackedOk, ProxiesOk, ListeningOk, MsgOk, Track, WithEdge, NewNode;
  }

  lemma AppendMsgs(y: Side, x: Side, toY: seq<Msg>, ms: seq<Msg>, next: Nid)
    requires MsgsOk(y, x, toY) && |ms| <= 1 && forall m :: m in ms ==> MsgOk(y, x, m)
    requires forall m :: m in ms ==> !m.At? && (m.Attach? ==> forall o :: o in toY && o.Attach? ==> o.child != m.child)
    ensures MsgsOk(y, x, toY + ms)
  {
    hide MsgOk;
    if |ms| == 1 {
      assert ms[0] in ms;
    }
    assert forall m :: m in toY + ms ==> m in toY || m in ms;
    assert forall i :: 0 <= i < |toY| ==> toY[i] in toY;
  }

  lemma OldChildren(y: Side, x: Side, toY: seq<Msg>, next: Nid)
    requires MsgsOk(y, x, toY) && TrackedOk(x, next)
    ensures forall o :: o in toY && o.Attach? ==> o.child < next
  {
    forall o | o in toY && o.Attach? ensures o.child < next {
      assert MsgOk(y, x, o);
    }
  }

  /** Both halves, when the tables of one end grew in order. */
  lemma BothGrow(x: Side, x': Side, y: Side, toX: seq<Msg>, toY: seq<Msg>, next: Nid, next': Nid)
    requires Half(x, y, toX, next) && Half(y, x, toY, next) && Grows(x, x') && NewNids(x, x', y, next) && next <= next'
    requires StillLoose(x, x') && SameQuestion(x, x')
    requires TrackedOk(x', next') && EdgesOk(x') && Placed(x') && ListeningOk(x', y) && FetchOk(x', y)
    requires forall n :: n in x'.own ==> ProxyOk(x', y, n)
    requires forall m :: m in toX && m.Attach? ==> m.child !in x'.tracked
    ensures Half(x', y, toX, next') && Half(y, x', toY, next')
  {
    assert ProxiesOk(x', y);
    hide TrackedOk, EdgesOk, ProxiesOk, ProxyOk, Placed, ListeningOk, FetchOk, Paired, MsgsOk, Grows, NewNids;
    hide StillLoose, SameQuestion;
    OwnGrows(x, x', y, toX, next, next');
    PeerGrows(y, x, x', toY, next, next');
  }

  /** Both halves survive an attach on the left. */
  lemma AttachedKeeps(x: Side, y: Side, toX: seq<Msg>, toY: seq<Msg>, p: Node, name: Name, next: Nid)
    requires Half(x, y, toX, next) && Half(y, x, toY, next) && p < x.nodes
    ensures var (x', ms, next') := AttachedNew(x, p, name, next);
      Half(x', y, toX, next') && Half(y, x', toY + ms, next')
  {
    var (x', ms, next') := AttachedNew(x, p, name, next);
    hide AttachedNew, TrackedOk, EdgesOk, ProxiesOk, ProxyOk, Placed, ListeningOk, FetchOk, Paired, MsgsOk, MsgOk;
    hide Grows, NewNids;
    OwnBelow(x, y);
    AttachedFields(x, p, name, next);
    AttachedTree(x, p, name, next);
    AttachedGrows(x, y, p, name, next);
    AttachedMsgs(x, y, p, name, next);
    OldChildren(y, x, toY, next);
    OldChildren(x, y, toX, next);
    NotBrought(x, y, toX);
    OwnProxiesGrow(x, x', y, next);
    ListeningGrows(x, x', y, next);
    FetchOkGrows(x, x', y, next);
    BothGrow(x, x', y, toX, toY, next, next');
    AttachedSent(x', y, toY, ms, next, next');
  }

  lemma AttachedSent(x: Side, y: Side, toY: seq<Msg>, ms: seq<Msg>, next: Nid, next': Nid)
    requires Half(y, x, toY, next') && forall o :: o in toY && o.Attach? ==> o.child < next
    requires |ms| <= 1 && forall m :: m in ms ==> MsgOk(y, x, m) && (m.Attach? || m.ChildAdded?) && m.child == next
    ensures Half(y, x, toY + ms, next')
  {
    hide TrackedOk, EdgesOk, ProxiesOk, Placed, ListeningOk, FetchOk, Paired, MsgsOk, MsgOk;
    AppendMsgs(y, x, toY, ms, next);
  }

  lemma OwnBelow(x: Side, y: Side)
    requires ProxiesOk(x, y)
    ensures forall n :: n in x.own ==> n < x.nodes
  {
    forall n | n in x.own ensures n < x.nodes {
      assert ProxyOk(x, y, n);
    }
  }

  // ---------- Learning a node of the peer ----------

  /** A proxy for the peer's node `k`, hung under its name unless that name is taken. */
  function WithProxy(x: Side, k: Nid, parent: Nid, name: Name): Side
    requires parent in x.tracked
  {
    var p := x.tracked[parent];
    var x1 := NewProxy(x, k, parent, name);
    if (p, name) in x.edges then x1 else WithEdge(x1, p, name, x.nodes)
  }

  lemma WithProxyTracked(x: Side, k: Nid, parent: Nid, name: Name, next: Nid)
    requires TrackedOk(x, next) && parent in x.tracked && k !in x.tracked && k < next
    ensures TrackedOk(WithProxy(x, k, parent, name), next)
  {
    assert forall j :: j in x.tracked ==> x.tracked[j] != x.nodes;
  }

  lemma WithProxyTree(x: Side, k: Nid, parent: Nid, name: Name, next: Nid)
    requires TrackedOk(x, next) && EdgesOk(x) && Placed(x) && parent in x.tracked && k !in x.tracked
    ensures EdgesOk(WithProxy(x, k, parent, name)) && Placed(WithProxy(x, k, parent, name))
  {
    var p, x' := x.tracked[parent], WithProxy(x, k, parent, name);
    assert p < x.nodes && x.root < x.nodes;
    assert forall e :: e in x.edges ==> x.edges[e] != x.nodes;
    hide TrackedOk;
    assert EdgesOk(x') by {
      hide Placed;
      if (p, name) !in x.edges {
        NewEdge(x, x', p, name);
      }
    }
    assert Placed(x') by { hide EdgesOk; }
  }

  lemma WithProxyFields(x: Side, k: Nid, parent: Nid, name: Name)
    requires parent in x.tracked && k !in x.tracked && x.nodes !in x.own
    ensures var x' := WithProxy(x, k, parent, name);
      && Grows(x, x') && x'.calls == x.calls && x'.listening == x.listening
      && x'.own == x.own[x.nodes := Proxy(k, parent, name)] && x'.tracked == x.tracked[k := x.nodes]
  {
  }

  lemma WithProxyNids(x: Side, y: Side, k: Nid, parent: Nid, name: Name, next: Nid)
    requires parent in x.tracked && k !in x.tracked && x.nodes !in x.own && Known(y, parent, k, name)
    ensures NewNids(x, WithProxy(x, k, parent, name), y, next)
  {
    WithProxyFields(x, k, parent, name);
    hide WithProxy, Grows;
  }

  lemma WithProxyGrows(x: Side, y: Side, k: Nid, parent: Nid, name: Name, next: Nid)
    requires ProxiesOk(x, y) && TrackedOk(x, next) && parent in x.tracked && k !in x.tracked
    requires Known(y, parent, k, name)
    ensures var x' := WithProxy(x, k, parent, name);
      && Grows(x, x') && NewNids(x, x', y, next) && (forall n :: n in x'.own ==> ProxyOk(x', y, n))
      && x'.calls == x.calls && x'.listening == x.listening && x'.tracked == x.tracked[k := x.nodes]
  {
    var x' := WithProxy(x, k, parent, name);
    OwnBelow(x, y);
    WithProxyFields(x, k, parent, name);
    hide ProxyOk, WithProxy, Grows, TrackedOk, ProxiesOk, Known, NewNids;
    WithProxyNids(x, y, k, parent, name, next);
    NewProxyOk(x, y, k, parent, name);
    OwnProxiesGrow(x, x', y, next);
  }

  lemma NewProxyOk(x: Side, y: Side, k: Nid, parent: Nid, name: Name)
    requires parent in x.tracked && k !in x.tracked && Known(y, parent, k, name)
    ensures ProxyOk(WithProxy(x, k, parent, name), y, x.nodes)
  {
  }

  lemma WithProxyKeeps(x: Side, y: Side, toX: seq<Msg>, toY: seq<Msg>, k: Nid, parent: Nid, name: Name, next: Nid)
    requires Half(x, y, toX, next) && Half(y, x, toY, next)
    requires parent in x.tracked && k !in x.tracked && Known(y, parent, k, name)
    requires forall m :: m in toX && m.Attach? ==> m.child != k
    ensures var x' := WithProxy(x, k, parent, name); Half(x', y, toX, next) && Half(y, x', toY, next)
  {
    var x' := WithProxy(x, k, parent, name);
    KnownBelow(y, parent, k, name, next);
    hide TrackedOk, EdgesOk, ProxiesOk, Placed, ListeningOk, FetchOk, Paired, MsgsOk, MsgOk, Grows, NewNids, Known;
    hide WithProxy;
    WithProxyTracked(x, k, parent, name, next);
    WithProxyTree(x, k, parent, name, next);
    WithProxyGrows(x, y, k, parent, name, next);
    NotBrought(x, y, toX);
    ListeningGrows(x, x', y, next);
    FetchOkGrows(x, x', y, next);
    BothGrow(x, x', y, toX, toY, next, next);
  }

  lemma KnownBelow(y: Side, parent: Nid, k: Nid, name: Name, next: Nid)
    requires TrackedOk(y, next) && Known(y, parent, k, name)
    ensures k < next && k != 0
  {
  }

  // ---------- Receiving ----------

  lemma DropHead(x: Side, y: Side, toX: seq<Msg>, next: Nid)
    requires Half(x, y, toX, next) && toX != []
    ensures Half(x, y, toX[1..], next) && MsgOk(x, y, toX[0])
    ensures toX[0].Attach? ==> forall m :: m in toX[1..] && m.Attach? ==> m.child != toX[0].child
    ensures toX[0].At? ==> forall m :: m in toX[1..] ==> !m.At?
  {
    assert MsgsOk(x, y, toX[1..]) by {
      assert forall m :: m in toX[1..] ==> m in toX;
      hide MsgOk;
    }
    assert toX[0] in toX;
    hide TrackedOk, EdgesOk, ProxiesOk, Placed, ListeningOk, FetchOk, Paired, MsgOk;
  }

  lemma SendSubscribe(y: Side, x: Side, toY: seq<Msg>, k: Nid, next: Nid)
    requires Half(y, x, toY, next) && MsgOk(y, x, Subscribe(k))
    ensures Half(y, x, toY + [Subscribe(k)], next)
  {
    AppendMsgs(y, x, toY, [Subscribe(k)], next);
    hide TrackedOk, EdgesOk, ProxiesOk, Placed, ListeningOk, FetchOk, Paired, MsgsOk;
  }

  lemma AsksForChildren(x: Side, y: Side, k: Nid, parent: Nid, name: Name)
    requires parent in x.tracked && Known(y, parent, k, name)
    ensures MsgOk(y, WithProxy(x, k, parent, name), Subscribe(k))
  {
  }

  /** A node learned from the peer, by either message: the peer is asked for its children. */
  lemma LearnKeeps(x: Side, y: Side, toX: seq<Msg>, toY: seq<Msg>, k: Nid, parent: Nid, name: Name, next: Nid)
    requires Half(x, y, toX, next) && Half(y, x, toY, next)
    requires parent in x.tracked && k !in x.tracked && Known(y, parent, k, name)
    requires forall m :: m in toX && m.Attach? ==> m.child != k
    ensures var x' := WithProxy(x, k, parent, name); Half(x', y, toX, next) && Half(y, x', toY + [Subscribe(k)], next)
  {
    hide Half, WithProxy, Known, MsgOk;
    WithProxyKeeps(x, y, toX, toY, k, parent, name, next);
    AsksForChildren(x, y, k, parent, name);
    SendSubscribe(y, WithProxy(x, k, parent, name), toY, k, next);
  }

  lemma LearnIsWithProxy(x: Side, k: Nid, parent: Nid, name: Name, next: Nid)
    requires parent in x.tracked
    ensures AttachNode(NewProxy(x, k, parent, name), x.tracked[parent], name, x.nodes, next)
      == (WithProxy(x, k, parent, name), [], next)
  {
  }

  /** What processing a CHILD_ADDED comes to: nothing new, a proxy hung that was still loose, or a
      new proxy. */
  lemma ChildAddedStep(s: State)
    requires EnabledLeft(s, Receive) && s.ba[0].ChildAdded? && s.ba[0].parent in s.a.tracked
    ensures var x, m := s.a, s.ba[0];
      && (m.child in x.tracked && Taken(x, m.parent, m.name) ==> StepLeft(s, Receive) == s.(ba := s.ba[1..]))
      && (m.child in x.tracked && !Taken(x, m.parent, m.name) && x.tracked[m.child] in x.own ==>
            StepLeft(s, Receive)
              == s.(a := WithEdge(x, x.tracked[m.parent], m.name, x.tracked[m.child]), ba := s.ba[1..]))
      && (m.child !in x.tracked ==>
            StepLeft(s, Receive) == State(WithProxy(x, m.child, m.parent, m.name), s.b, s.ab + [Subscribe(m.child)],
              s.ba[1..], s.next))
  {
    var x, m := s.a, s.ba[0];
    assert s.ab + [] == s.ab;
    if m.child !in x.tracked {
      LearnIsWithProxy(x, m.child, m.parent, m.name, s.next);
      assert [Subscribe(m.child)] + [] == [Subscribe(m.child)];
      hide AttachNode, WithProxy;
    }
  }

  lemma SubscribeStep(s: State)
    requires EnabledLeft(s, Receive) && s.ba[0].Subscribe?
    ensures StepLeft(s, Receive) == s.(a := OnSubscribe(s.a, s.ba[0].nid), ba := s.ba[1..])
  {
  }

  /** What processing an ATTACH comes to. */
  lemma AttachStep(s: State)
    requires EnabledLeft(s, Receive) && s.ba[0].Attach? && s.ba[0].parent in s.a.tracked
    ensures var m := s.ba[0];
      StepLeft(s, Receive) == State(WithProxy(s.a, m.child, m.parent, m.name), s.b, s.ab + [Subscribe(m.child)],
        s.ba[1..], s.next)
  {
    var m := s.ba[0];
    LearnIsWithProxy(s.a, m.child, m.parent, m.name, s.next);
    assert [] + [Subscribe(m.child)] == [Subscribe(m.child)];
    hide AttachNode, WithProxy;
  }

  lemma OnlyMessageFor(x: Side, y: Side, toX: seq<Msg>, m: Msg, next: Nid)
    requires MsgsOk(x, y, toX) && TrackedOk(y, next) && EdgesOk(y) && m.ChildAdded? && MsgOk(x, y, m)
    ensures forall o :: o in toX && o.Attach? ==> o.child != m.child
  {
    NothingElseBrings(x, y, toX, m.parent, m.child, m.name, next);
  }

  // ---------- Hanging a loose proxy ----------

  /** The proxy to be inserted goes where it was fetched from, and nowhere else. */
  lemma LoosePlace(x: Side, y: Side, c: Caller)
    requires ProxiesOk(x, y) && FetchOk(x, y) && c in x.calls.loose
    ensures var l := x.calls.loose[c];
      && l.p in x.own && l.n in x.own && l.n < x.nodes && l.p < x.nodes
      && x.own[l.n].parent in x.tracked && x.tracked[x.own[l.n].parent] == l.p && x.own[l.n].name == l.name
  {
    var l := x.calls.loose[c];
    assert LooseOk(x, l);
    assert ProxyOk(x, y, l.p) && ProxyOk(x, y, l.n);
  }

  lemma HangTree(x: Side, p: Node, name: Name, n: Node, next: Nid)
    requires TrackedOk(x, next) && EdgesOk(x) && Placed(x) && (p, name) !in x.edges && p < x.nodes && n < x.nodes
    requires n in x.own
    requires x.own[n].parent in x.tracked && x.tracked[x.own[n].parent] == p && x.own[n].name == name
    ensures var x' := WithEdge(x, p, name, n); EdgesOk(x') && Placed(x') && TrackedOk(x', next)
  {
    var x' := WithEdge(x, p, name, n);
    assert n != x.root;
    assert forall e :: e in x.edges && x.edges[e] == n ==> e == (p, name) by { hide TrackedOk, EdgesOk; }
    assert TrackedOk(x', next) by { hide EdgesOk, Placed; }
    hide TrackedOk;
    assert Placed(x') by { hide EdgesOk; }
    hide Placed;
  }

  lemma HangGrows(x: Side, y: Side, p: Node, name: Name, n: Node, next: Nid)
    requires (p, name) !in x.edges
    ensures var x' := WithEdge(x, p, name, n);
      Grows(x, x') && NewNids(x, x', y, next) && x'.own == x.own && x'.tracked == x.tracked
  {
  }

  lemma HangKeeps(x: Side, y: Side, toX: seq<Msg>, toY: seq<Msg>, c: Caller, next: Nid)
    requires Half(x, y, toX, next) && Half(y, x, toY, next) && c in x.calls.loose
    requires var l := x.calls.loose[c]; (l.p, l.name) !in x.edges
    ensures var l := x.calls.loose[c]; var x' := WithEdge(x, l.p, l.name, l.n);
      Half(x', y, toX, next) && Half(y, x', toY, next)
  {
    var l := x.calls.loose[c];
    var x' := WithEdge(x, l.p, l.name, l.n);
    hide TrackedOk, EdgesOk, ProxiesOk, ProxyOk, Placed, ListeningOk, FetchOk, Paired, MsgsOk, MsgOk, Grows, NewNids;
    LoosePlace(x, y, c);
    HangTree(x, l.p, l.name, l.n, next);
    HangGrows(x, y, l.p, l.name, l.n, next);
    OwnProxiesGrow(x, x', y, next);
    ListeningGrows(x, x', y, next);
    FetchOkGrows(x, x', y, next);
    NotBrought(x, y, toX);
    BothGrow(x, x', y, toX, toY, next, next);
  }

  /** A CHILD_ADDED for a node that is tracked names the place of its proxy. */
  lemma TrackedPlace(x: Side, y: Side, m: Msg, next: Nid)
    requires TrackedOk(x, next) && TrackedOk(y, next) && EdgesOk(y) && ProxiesOk(x, y) && Paired(x, y)
    requires m.ChildAdded? && MsgOk(x, y, m) && m.child in x.tracked
    ensures var n := x.tracked[m.child]; n in x.own && x.own[n] == Proxy(m.child, m.parent, m.name)
  {
    var n := x.tracked[m.child];
    assert n in x.own;
    assert ProxyOk(x, y, n);
    assert x.own[n].nid == m.child;
    hide ProxiesOk, Paired;
    SamePlace(y, x.own[n].parent, m.parent, m.child, x.own[n].name, m.name, next);
  }

  lemma ChildAddedKeeps(s: State)
    requires EnabledLeft(s, Receive) && s.ba[0].ChildAdded? && Inv(s)
    ensures Inv(StepLeft(s, Receive))
  {
    var x, y, m := s.a, s.b, s.ba[0];
    DropHead(x, y, s.ba, s.next);
    hide EdgesOk, ProxiesOk, Placed, Paired, ListeningOk, MsgsOk, FetchOk, TrackedOk;
    OnlyMessageFor(x, y, s.ba[1..], m, s.next);
    ChildAddedStep(s);
    if m.child in x.tracked {
      TrackedPlace(x, y, m, s.next);
      if !Taken(x, m.parent, m.name) {
        var c :| c in x.calls.loose && x.calls.loose[c].n == x.tracked[m.child];
        LoosePlace(x, y, c);
        HangKeeps(x, y, s.ba[1..], s.ab, c, s.next);
      }
    } else {
      LearnKeeps(x, y, s.ba[1..], s.ab, m.child, m.parent, m.name, s.next);
    }
    hide Half, StepLeft;
  }

  lemma AttachKeeps(s: State)
    requires EnabledLeft(s, Receive) && s.ba[0].Attach? && Inv(s)
    ensures Inv(StepLeft(s, Receive))
  {
    var x, y, m := s.a, s.b, s.ba[0];
    DropHead(x, y, s.ba, s.next);
    hide Half, WithProxy;
    AttachStep(s);
    LearnKeeps(x, y, s.ba[1..], s.ab, m.child, m.parent, m.name, s.next);
    hide StepLeft;
  }

  /** Only subscriptions, or the state of a fetch, differ. */
  predicate SameTables(x: Side, x': Side) {
    && x'.root == x.root && x'.nodes == x.nodes && x'.edges == x.edges && x'.tracked == x.tracked && x'.own == x.own
  }

  lemma SameKnown(x: Side, x': Side, parent: Nid, k: Nid, name: Name)
    requires SameTables(x, x')
    ensures Known(x', parent, k, name) == Known(x, parent, k, name) && Taken(x', parent, name) == Taken(x, parent, name)
  {
  }

  lemma SameProxies(x: Side, x': Side, y: Side)
    requires SameTables(x, x')
    ensures ProxiesOk(x, y) && x'.calls.loose == x.calls.loose ==> ProxiesOk(x', y)
    ensures ProxiesOk(y, x) ==> ProxiesOk(y, x')
  {
    if ProxiesOk(x, y) && x'.calls.loose == x.calls.loose {
      forall n | n in x'.own ensures ProxyOk(x', y, n) {
        assert ProxyOk(x, y, n);
        SameKnown(x, x', x.own[n].parent, x.own[n].nid, x.own[n].name);
      }
    }
    if ProxiesOk(y, x) {
      forall n | n in y.own ensures ProxyOk(y, x', n) {
        assert ProxyOk(y, x, n);
        SameKnown(x, x', y.own[n].parent, y.own[n].nid, y.own[n].name);
      }
    }
  }

  lemma SameMsgs(x: Side, x': Side, y: Side, toX: seq<Msg>, toY: seq<Msg>)
    requires SameTables(x, x')
    ensures MsgsOk(x, y, toX) && x'.calls.loose == x.calls.loose ==> MsgsOk(x', y, toX)
    ensures MsgsOk(y, x, toY) && (forall m :: m in toY ==> !m.At? || SameQuestion(x, x'))
      ==> MsgsOk(y, x', toY)
  {
    if MsgsOk(x, y, toX) && x'.calls.loose == x.calls.loose {
      forall m | m in toX ensures MsgOk(x', y, m) {
        assert MsgOk(x, y, m);
      }
    }
    if MsgsOk(y, x, toY) && forall m :: m in toY ==> !m.At? || SameQuestion(x, x') {
      forall m | m in toY ensures MsgOk(y, x', m) {
        assert MsgOk(y, x, m);
      }
    }
  }

  lemma SameRest(x: Side, x': Side, y: Side, next: Nid)
    requires SameTables(x, x') && TrackedOk(x, next) && EdgesOk(x) && Placed(x) && Paired(x, y)
    ensures TrackedOk(x', next) && EdgesOk(x') && Placed(x') && Paired(x', y)
  {
    assert TrackedOk(x', next) by { hide EdgesOk, Placed, Paired; }
    assert EdgesOk(x') by { hide TrackedOk, Placed, Paired; }
    assert Placed(x') by { hide TrackedOk, EdgesOk, Paired; }
    hide TrackedOk, EdgesOk, Placed;
  }

  lemma SameSays(y: Side, x: Side, x': Side)
    requires SameTables(x, x') && ReplyOk(y, x)
    ensures ReplyOk(y, x')
  {
    if y.calls.reply.Some? && y.calls.reply.value.Some? && y.calls.fetching.Some? {
      var (p, name) := y.calls.fetching.value;
      if p in y.own {
        SameKnown(x, x', y.own[p].nid, y.calls.reply.value.value, name);
        assert ProxyThere(x, y.own[p].nid, name) == ProxyThere(x', y.own[p].nid, name);
      }
    }
    hide Known, OwnThere, ProxyThere, Taken;
  }

  lemma SamePeer(y: Side, x: Side, x': Side)
    requires SameTables(x, x') && Paired(y, x) && ListeningOk(y, x) && FetchOk(y, x)
    ensures Paired(y, x') && ListeningOk(y, x') && FetchOk(y, x')
  {
    SameSays(y, x, x');
    hide CallersOk, ReplyOk;
    assert ListeningOk(y, x') by { hide Paired; }
    assert Paired(y, x') by { hide ListeningOk; }
    hide Paired, ListeningOk;
  }

  /** Both halves, when only subscriptions or the state of a fetch changed. */
  lemma SameTablesKeep(x: Side, x': Side, y: Side, toX: seq<Msg>, toY: seq<Msg>, next: Nid)
    requires Half(x, y, toX, next) && Half(y, x, toY, next) && SameTables(x, x')
    requires ListeningOk(x', y) && FetchOk(x', y) && x'.calls.loose == x.calls.loose
    requires forall m :: m in toY ==> !m.At? || SameQuestion(x, x')
    ensures Half(x', y, toX, next) && Half(y, x', toY, next)
  {
    SameProxies(x, x', y);
    SameMsgs(x, x', y, toX, toY);
    SameRest(x, x', y, next);
    SamePeer(y, x, x');
    hide TrackedOk, EdgesOk, ProxiesOk, Placed, ListeningOk, FetchOk, Paired, MsgsOk;
  }

  lemma SubscribeListens(x: Side, y: Side, k: Nid)
    requires ListeningOk(x, y) && FetchOk(x, y) && MsgOk(x, y, Subscribe(k))
    ensures ListeningOk(OnSubscribe(x, k), y) && FetchOk(OnSubscribe(x, k), y)
  {
  }

  lemma SubscribeKeeps(s: State)
    requires EnabledLeft(s, Receive) && s.ba[0].Subscribe? && Inv(s)
    ensures Inv(StepLeft(s, Receive))
  {
    var x, y, k := s.a, s.b, s.ba[0].nid;
    SubscribeStep(s);
    DropHead(x, y, s.ba, s.next);
    hide StepLeft, EnabledLeft;
    hide TrackedOk, EdgesOk, ProxiesOk, Placed, ListeningOk, FetchOk, Paired, MsgsOk, MsgOk;
    SubscribeListens(x, y, k);
    assert SameTables(x, OnSubscribe(x, k)) && OnSubscribe(x, k).calls == x.calls;
    hide OnSubscribe;
    SameTablesKeep(x, OnSubscribe(x, k), y, s.ba[1..], s.ab, s.next);
    hide Half;
  }

  // ---------- AT and its reply ----------

  /** Wherever this end has a proxy of the peer's node under a tracked parent, the peer has that
      node under that name of the node that carries the parent's nid. */
  lemma EdgeToProxy(x: Side, y: Side, k: Nid, name: Name, next: Nid)
    requires TrackedOk(x, next) && ProxiesOk(x, y) && Placed(x) && k in x.tracked
    requires (x.tracked[k], name) in x.edges && x.edges[(x.tracked[k], name)] in x.own
    ensures Known(y, k, x.own[x.edges[(x.tracked[k], name)]].nid, name)
  {
    var n := x.edges[(x.tracked[k], name)];
    assert ProxyOk(x, y, n);
    assert (x.tracked[k], name) == (x.tracked[x.own[n].parent], x.own[n].name);
    hide Known, Taken;
  }

  /** The child AT asks for: an original of this end; or a node of the asking end, which was
      attached there after it had looked. */
  lemma AtFinds(x: Side, y: Side, k: Nid, name: Name, next: Nid)
    requires TrackedOk(x, next) && ProxiesOk(x, y) && Placed(x) && EdgesOk(x) && ProxiesOk(y, x)
    requires MsgOk(x, y, At(k, name))
    ensures k in x.tracked && x.tracked[k] !in x.own
    ensures (x.tracked[k], name) in x.edges ==>
      var n := x.edges[(x.tracked[k], name)];
      && n != x.root && n < x.nodes
      && (n in x.own ==>
            && x.own[n].nid in x.tracked && x.tracked[x.own[n].nid] == n
            && OwnThere(y, y.calls.fetching.value.0, x.own[n].nid, name) && ProxyThere(x, k, name))
  {
    var p := y.calls.fetching.value.0;
    assert ProxyOk(y, x, p);
    assert y.tracked[k] == p;
    if (x.tracked[k], name) in x.edges && x.edges[(x.tracked[k], name)] in x.own {
      assert ProxyOk(x, y, x.edges[(x.tracked[k], name)]);
      EdgeToProxy(x, y, k, name, next);
    }
  }

  lemma TrackTracked(x: Side, n: Node, next: Nid)
    requires TrackedOk(x, next) && n < x.nodes && forall k :: k in x.tracked ==> x.tracked[k] != n
    ensures TrackedOk(Track(x, n, next), next + 1) && next !in x.tracked
  {
  }

  lemma TrackTree(x: Side, y: Side, n: Node, next: Nid)
    requires EdgesOk(x) && Placed(x) && ProxiesOk(x, y) && next !in x.tracked
    ensures var x' := Track(x, n, next); EdgesOk(x') && Placed(x')
  {
    assert EdgesOk(Track(x, n, next)) by { hide Placed, ProxiesOk; }
    hide EdgesOk;
  }

  lemma TrackGrows(x: Side, y: Side, n: Node, next: Nid)
    requires next !in x.tracked
    ensures var x' := Track(x, n, next); Grows(x, x') && NewNids(x, x', y, next)
  {
  }

  lemma TrackOriginal(x: Side, y: Side, toX: seq<Msg>, toY: seq<Msg>, n: Node, next: Nid)
    requires Half(x, y, toX, next) && Half(y, x, toY, next)
    requires n < x.nodes && forall k :: k in x.tracked ==> x.tracked[k] != n
    ensures var x' := Track(x, n, next); Half(x', y, toX, next + 1) && Half(y, x', toY, next + 1)
  {
    var x' := Track(x, n, next);
    hide TrackedOk, EdgesOk, ProxiesOk, ProxyOk, Placed, ListeningOk, FetchOk, Paired, MsgsOk, MsgOk, Grows, NewNids;
    TrackTracked(x, n, next);
    TrackTree(x, y, n, next);
    TrackGrows(x, y, n, next);
    OwnProxiesGrow(x, x', y, next);
    ListeningGrows(x, x', y, next);
    FetchOkGrows(x, x', y, next);
    OldChildren(x, y, toX, next);
    NotBrought(x, y, toX);
    BothGrow(x, x', y, toX, toY, next, next + 1);
  }

  /** The peer's blocked fetch gets its reply. */
  lemma ReplyArrives(x: Side, y: Side, toX: seq<Msg>, toY: seq<Msg>, r: Option<Nid>, next: Nid)
    requires Half(x, y, toX, next) && Half(y, x, toY, next) && y.calls.fetching.Some?
    requires forall m :: m in toX ==> !m.At?
    requires r.Some? ==> Says(y, x, y.calls.fetching.value.0, r.value, y.calls.fetching.value.1)
    ensures var y' := y.(calls := y.calls.(reply := Some(r))); Half(x, y', toX, next) && Half(y', x, toY, next)
  {
    var y' := y.(calls := y.calls.(reply := Some(r)));
    ReplySet(y, x, r);
    hide Half, ListeningOk, FetchOk, Says;
    SameTablesKeep(y, y', x, toY, toX, next);
  }

  lemma ReplySet(y: Side, x: Side, r: Option<Nid>)
    requires ListeningOk(y, x) && FetchOk(y, x) && y.calls.fetching.Some?
    requires r.Some? ==> Says(y, x, y.calls.fetching.value.0, r.value, y.calls.fetching.value.1)
    ensures var y' := y.(calls := y.calls.(reply := Some(r))); ListeningOk(y', x) && FetchOk(y', x)
  {
    var y' := y.(calls := y.calls.(reply := Some(r)));
    if r.Some? {
      var (p, name) := y.calls.fetching.value;
      assert OwnThere(y', p, r.value, name) == OwnThere(y, p, r.value, name);
    }
    assert CallersOk(y');
    hide Known, OwnThere, ProxyThere, CallersOk;
  }

  lemma AtKeeps(s: State)
    requires EnabledLeft(s, Receive) && s.ba[0].At? && Inv(s)
    ensures Inv(StepLeft(s, Receive))
  {
    var x, y, k, name, rest := s.a, s.b, s.ba[0].nid, s.ba[0].name, s.ba[1..];
    DropHead(x, y, s.ba, s.next);
    AtFinds(x, y, k, name, s.next);
    AtAsks(x, y, k, name);
    AtMissIs(s);
    hide Half, StepLeft, GetNid, EnabledLeft, OwnThere, MsgOk;
    if (x.tracked[k], name) !in x.edges {
      ReplyArrives(x, y, rest, s.ab, None, s.next);
    } else {
      AtAnswered(x, y, rest, s.ab, k, name, s.next);
      AtStepIs(s);
    }
  }

  lemma AtMissIs(s: State)
    requires EnabledLeft(s, Receive) && s.ba[0].At? && s.ba[0].nid in s.a.tracked
    ensures (s.a.tracked[s.ba[0].nid], s.ba[0].name) !in s.a.edges ==>
      StepLeft(s, Receive) == State(s.a, s.b.(calls := s.b.calls.(reply := Some(None))), s.ab, s.ba[1..], s.next)
  {
    hide GetNid;
  }

  lemma AtAsks(x: Side, y: Side, k: Nid, name: Name)
    requires MsgOk(x, y, At(k, name))
    ensures y.calls.fetching.Some? && y.calls.fetching.value.0 in y.own
    ensures y.calls.fetching.value.1 == name && y.own[y.calls.fetching.value.0].nid == k
  {
  }

  lemma AtStepIs(s: State)
    requires EnabledLeft(s, Receive) && s.ba[0].At? && s.ba[0].nid in s.a.tracked
    requires (s.a.tracked[s.ba[0].nid], s.ba[0].name) in s.a.edges
    ensures var (nid, x', next') := GetNid(s.a, s.a.edges[(s.a.tracked[s.ba[0].nid], s.ba[0].name)], s.next);
      StepLeft(s, Receive) == State(x', s.b.(calls := s.b.calls.(reply := Some(Some(nid)))), s.ab, s.ba[1..], next')
  {
    hide GetNid;
  }

  lemma AtAnswered(x: Side, y: Side, toX: seq<Msg>, toY: seq<Msg>, k: Nid, name: Name, next: Nid)
    requires Half(x, y, toX, next) && Half(y, x, toY, next) && k in x.tracked && forall m :: m in toX ==> !m.At?
    requires y.calls.fetching.Some? && y.calls.fetching.value.1 == name
    requires y.calls.fetching.value.0 in y.own && y.own[y.calls.fetching.value.0].nid == k
    requires (x.tracked[k], name) in x.edges
    requires var n := x.edges[(x.tracked[k], name)];
      && n != x.root && n < x.nodes
      && (n in x.own ==>
            && x.own[n].nid in x.tracked && x.tracked[x.own[n].nid] == n
            && OwnThere(y, y.calls.fetching.value.0, x.own[n].nid, name) && ProxyThere(x, k, name))
    ensures var (nid, x', next') := GetNid(x, x.edges[(x.tracked[k], name)], next);
      var y' := y.(calls := y.calls.(reply := Some(Some(nid)))); Half(x', y', toX, next') && Half(y', x', toY, next')
  {
    var n := x.edges[(x.tracked[k], name)];
    if n in x.own {
      FindNidTracked(x.tracked, x.own[n].nid);
      hide Half, FindNid, OwnThere, ProxyThere, Known;
      ReplyArrives(x, y, toX, toY, Some(x.own[n].nid), next);
    } else {
      AtTracks(x, y, toX, toY, k, name, n, next);
      hide Half, GetNid, OwnThere, ProxyThere, Known;
      var (nid, x', next') := GetNid(x, n, next);
      ReplyArrives(x', y, toX, toY, Some(nid), next');
    }
  }

  lemma GetValueKeeps(s: State)
    requires EnabledLeft(s, Receive) && s.ba[0].GetValue? && Inv(s)
    ensures Inv(StepLeft(s, Receive))
  {
    var x, y, y' := s.a, s.b, s.b.(calls := s.b.calls.(valued := s.b.calls.valuing.Some?));
    DropHead(x, y, s.ba, s.next);
    assert CallersOk(y') by { SameCallers(y, y'); }
    CallsOnly(y, y', x);
    hide Half;
    SameTablesKeep(y, y', x, s.ab, s.ba[1..], s.next);
  }

  /** Only what concerns neither the table nor an AT differs. */
  lemma CallsOnly(x: Side, x': Side, y: Side)
    requires ListeningOk(x, y) && FetchOk(x, y) && SameTables(x, x') && x'.listening == x.listening
    requires SameQuestion(x, x') && x'.calls.loose == x.calls.loose
    requires CallersOk(x')
    ensures ListeningOk(x', y) && FetchOk(x', y)
  {
    if x.calls.reply.Some? && x.calls.reply.value.Some? {
      var (p, name) := x.calls.fetching.value;
      assert OwnThere(x, p, x.calls.reply.value.value, name) == OwnThere(x', p, x.calls.reply.value.value, name);
    }
    hide Known, OwnThere, ProxyThere, CallersOk;
  }

  lemma AtTracks(x: Side, y: Side, toX: seq<Msg>, toY: seq<Msg>, k: Nid, name: Name, n: Node, next: Nid)
    requires Half(x, y, toX, next) && Half(y, x, toY, next) && k in x.tracked
    requires (x.tracked[k], name) in x.edges && x.edges[(x.tracked[k], name)] == n && n !in x.own && n != x.root
    requires n < x.nodes
    ensures var (nid, x', next') := GetNid(x, n, next);
      Half(x', y, toX, next') && Half(y, x', toY, next') && Known(x', k, nid, name)
  {
    hide EdgesOk, ProxiesOk, Placed, Paired, ListeningOk, MsgsOk, FetchOk;
    if j :| j in x.tracked && x.tracked[j] == n {
      FindNidTracked(x.tracked, j);
      hide Half, FindNid;
    } else {
      FindNidUntracked(x.tracked, n);
      TrackOriginal(x, y, toX, toY, n, next);
      assert k < next && next != 0;
      hide Half, FindNid;
    }
  }

  lemma SameCallers(x: Side, x': Side)
    requires CallersOk(x) && SameTables(x, x') && x'.calls.looked == x.calls.looked && x'.calls.loose == x.calls.loose
    requires x'.calls.fetching == x.calls.fetching && x'.calls.holder == x.calls.holder
    ensures CallersOk(x')
  {
  }

  lemma FetchState(x: Side, x': Side, y: Side)
    requires ListeningOk(x, y) && SameTables(x, x') && x'.listening == x.listening && x'.calls.reply.None?
    requires CallersOk(x')
    ensures ListeningOk(x', y) && FetchOk(x', y)
  {
    hide CallersOk;
  }

  lemma LookCallers(x: Side, c: Caller, p: Node, name: Name)
    requires CallersOk(x) && !Busy(x, c) && p in x.own
    ensures CallersOk(x.(calls := x.calls.(looked := x.calls.looked[c := (p, name)])))
  {
  }

  lemma LookKeeps(s: State, c: Caller, p: Node, name: Name)
    requires Inv(s) && EnabledLeft(s, Look(c, p, name))
    ensures Inv(StepLeft(s, Look(c, p, name)))
  {
    var x' := StepLeft(s, Look(c, p, name)).a;
    LookCallers(s.a, c, p, name);
    CallsOnly(s.a, x', s.b);
    hide Half, CallersOk;
    SameTablesKeep(s.a, x', s.b, s.ba, s.ab, s.next);
  }

  lemma ValueStartKeeps(s: State, k: Nid)
    requires Inv(s) && EnabledLeft(s, ValueStart(k))
    ensures Inv(StepLeft(s, ValueStart(k)))
  {
    var x, x' := s.a, StepLeft(s, ValueStart(k)).a;
    SameCallers(x, x');
    CallsOnly(x, x', s.b);
    assert k in s.b.tracked by {
      assert ProxyOk(x, s.b, x.tracked[k]);
    }
    hide ListeningOk, FetchOk, Paired, Placed, EdgesOk, ProxiesOk, MsgsOk, TrackedOk;
    SameTablesKeep(x, x', s.b, s.ba, s.ab, s.next);
    hide MsgOk;
    assert MsgOk(s.b, x', GetValue(k)) by { GetValueOk(s.b, x', k); }
    AppendMsgs(s.b, x', s.ab, [GetValue(k)], s.next);
  }

  lemma GetValueOk(y: Side, x: Side, k: Nid)
    requires k in y.tracked
    ensures MsgOk(y, x, GetValue(k))
  {
  }

  lemma ValueDoneKeeps(s: State)
    requires Inv(s) && EnabledLeft(s, ValueDone)
    ensures Inv(StepLeft(s, ValueDone))
  {
    var x' := StepLeft(s, ValueDone).a;
    SameCallers(s.a, x');
    CallsOnly(s.a, x', s.b);
    hide Half, CallersOk;
    SameTablesKeep(s.a, x', s.b, s.ba, s.ab, s.next);
  }

  lemma AskingCallers(x: Side, c: Caller)
    requires CallersOk(x) && c in x.calls.looked
    ensures CallersOk(x.(calls := Asking(x.calls, c)))
  {
  }

  lemma FetchStarts(x: Side, y: Side, toX: seq<Msg>, toY: seq<Msg>, c: Caller, next: Nid)
    requires Half(x, y, toX, next) && Half(y, x, toY, next) && x.calls.fetching.None?
    requires c in x.calls.looked && x.calls.looked[c].0 in x.own
    ensures var (p, name) := x.calls.looked[c]; var x' := x.(calls := Asking(x.calls, c));
      Half(x', y, toX, next) && Half(y, x', toY + [At(x.own[p].nid, name)], next)
  {
    hide ListeningOk, Paired, Placed, EdgesOk, ProxiesOk, MsgsOk, TrackedOk;
    var (p, name) := x.calls.looked[c];
    var x', m := x.(calls := Asking(x.calls, c)), At(x.own[p].nid, name);
    AskingCallers(x, c);
    NoAtWaiting(y, x, toY);
    FetchState(x, x', y);
    hide FetchOk, CallersOk, ReplyOk;
    SameTablesKeep(x, x', y, toX, toY, next);
    assert MsgOk(y, x', m);
    hide MsgOk;
    AppendAt(y, x', toY, m);
  }

  lemma FetchStartKeeps(s: State, c: Caller)
    requires Inv(s) && EnabledLeft(s, FetchStart(c))
    ensures Inv(StepLeft(s, FetchStart(c)))
  {
    hide Half;
    FetchStarts(s.a, s.b, s.ba, s.ab, c, s.next);
  }

  lemma NoAtWaiting(y: Side, x: Side, toY: seq<Msg>)
    requires MsgsOk(y, x, toY) && (x.calls.fetching.None? || x.calls.reply.Some?)
    ensures forall m :: m in toY ==> !m.At?
  {
    forall m | m in toY ensures !m.At? {
      assert MsgOk(y, x, m);
    }
  }

  lemma AppendAt(y: Side, x: Side, toY: seq<Msg>, m: Msg)
    requires MsgsOk(y, x, toY) && m.At? && MsgOk(y, x, m) && forall o :: o in toY ==> !o.At?
    ensures MsgsOk(y, x, toY + [m])
  {
    hide MsgOk;
    assert forall o :: o in toY + [m] ==> o in toY || o == m;
    assert forall i :: 0 <= i < |toY| ==> toY[i] in toY;
  }

  lemma ProxyIsOriginal(x: Side, y: Side, p: Node)
    requires ProxiesOk(x, y) && p in x.own
    ensures var k := x.own[p].nid; k in x.tracked && x.tracked[k] == p && k in y.tracked && y.tracked[k] !in y.own
  {
    assert ProxyOk(x, y, p);
  }

  /** A fetch overwrites nothing: what it brings is not tracked yet. */
  predicate Sound(s: State, act: Act)
    requires EnabledLeft(s, act)
  {
    act.FetchDone? && s.a.calls.reply.value.Some? ==> s.a.calls.reply.value.value !in s.a.tracked
  }

  lemma LooseProxyTree(x: Side, k: Nid, parent: Nid, c: Caller, p: Node, name: Name, next: Nid)
    requires TrackedOk(x, next) && EdgesOk(x) && Placed(x) && k !in x.tracked && k < next
    ensures var x' := LooseProxy(x, k, parent, c, p, name); TrackedOk(x', next) && EdgesOk(x') && Placed(x')
  {
    assert forall j :: j in x.tracked ==> x.tracked[j] != x.nodes;
    assert forall e :: e in x.edges ==> x.edges[e] != x.nodes;
  }

  function LooseProxy(x: Side, k: Nid, parent: Nid, c: Caller, p: Node, name: Name): Side {
    NewProxy(x, k, parent, name).(calls := x.calls.(loose := x.calls.loose[c := Loose(p, name, x.nodes)]))
  }

  lemma LooseProxyGrows(x: Side, y: Side, k: Nid, c: Caller, p: Node, name: Name, next: Nid)
    requires ProxiesOk(x, y) && TrackedOk(x, next) && p in x.own && k !in x.tracked && Known(y, x.own[p].nid, k, name)
    requires c !in x.calls.loose
    ensures var x' := LooseProxy(x, k, x.own[p].nid, c, p, name);
      Grows(x, x') && NewNids(x, x', y, next) && x'.listening == x.listening
      && forall n :: n in x'.own ==> ProxyOk(x', y, n)
  {
    var parent := x.own[p].nid;
    var x' := LooseProxy(x, k, parent, c, p, name);
    OwnBelow(x, y);
    LooseProxyFields(x, k, parent, c, p, name);
    LooseProxyOk(x, y, k, parent, c, p, name);
    LooseProxyAdds(x, y, k, parent, c, p, name, next);
    hide LooseProxy, ProxyOk, Grows, TrackedOk, Known, ProxiesOk, NewNids;
    OwnProxiesGrow(x, x', y, next);
  }

  lemma LooseProxyAdds(x: Side, y: Side, k: Nid, parent: Nid, c: Caller, p: Node, name: Name, next: Nid)
    requires k !in x.tracked && x.nodes !in x.own && Known(y, parent, k, name)
    ensures var x' := LooseProxy(x, k, parent, c, p, name); Grows(x, x') && NewNids(x, x', y, next)
  {
    LooseProxyFields(x, k, parent, c, p, name);
    hide LooseProxy;
  }

  lemma LooseProxyOk(x: Side, y: Side, k: Nid, parent: Nid, c: Caller, p: Node, name: Name)
    requires Known(y, parent, k, name)
    ensures ProxyOk(LooseProxy(x, k, parent, c, p, name), y, x.nodes)
  {
    var x' := LooseProxy(x, k, parent, c, p, name);
    assert c in x'.calls.loose && x'.calls.loose[c].n == x.nodes;
  }

  lemma LooseCallers(x: Side, k: Nid, c: Caller, p: Node, name: Name)
    requires CallersOk(x) && x.calls.fetching.None? && p in x.own && forall n :: n in x.own ==> n < x.nodes
    requires c !in x.calls.looked && c !in x.calls.loose
    ensures CallersOk(LooseProxy(x, k, x.own[p].nid, c, p, name))
  {
    var x' := LooseProxy(x, k, x.own[p].nid, c, p, name);
    forall d | d in x'.calls.loose ensures LooseOk(x', x'.calls.loose[d]) {
      if d != c {
        assert LooseOk(x, x.calls.loose[d]);
      }
    }
  }

  lemma LooseProxyFields(x: Side, k: Nid, parent: Nid, c: Caller, p: Node, name: Name)
    ensures var x' := LooseProxy(x, k, parent, c, p, name);
      && SameQuestion(x, x') && (c !in x.calls.loose ==> StillLoose(x, x'))
      && x'.root == x.root && x'.nodes == x.nodes + 1 && x'.edges == x.edges && x'.listening == x.listening
      && x'.tracked == x.tracked[k := x.nodes] && x'.own == x.own[x.nodes := Proxy(k, parent, name)]
  {
  }

  lemma LooseProxyKeeps(
    x: Side, y: Side, toX: seq<Msg>, toY: seq<Msg>, k: Nid, c: Caller, p: Node, name: Name, next: Nid)
    requires Half(x, y, toX, next) && Half(y, x, toY, next) && x.calls.reply.None? && x.calls.fetching.None?
    requires c !in x.calls.looked && c !in x.calls.loose
    requires p in x.own && k !in x.tracked && Known(y, x.own[p].nid, k, name)
    requires forall m :: m in toX && m.Attach? ==> m.child != k
    ensures var x' := LooseProxy(x, k, x.own[p].nid, c, p, name); Half(x', y, toX, next) && Half(y, x', toY, next)
  {
    var x' := LooseProxy(x, k, x.own[p].nid, c, p, name);
    KnownBelow(y, x.own[p].nid, k, name, next);
    hide TrackedOk, EdgesOk, ProxiesOk, ProxyOk, Placed, ListeningOk, Paired, MsgsOk, MsgOk, Grows, NewNids, Known;
    hide LooseProxy, CallersOk, StillLoose;
    OwnBelow(x, y);
    LooseProxyTree(x, k, x.own[p].nid, c, p, name, next);
    LooseProxyGrows(x, y, k, c, p, name, next);
    ListeningGrows(x, x', y, next);
    LooseCallers(x, k, c, p, name);
    LooseProxyFields(x, k, x.own[p].nid, c, p, name);
    NotBrought(x, y, toX);
    BothGrow(x, x', y, toX, toY, next, next);
  }

  lemma NotBrought(x: Side, y: Side, toX: seq<Msg>)
    requires MsgsOk(x, y, toX)
    ensures forall m :: m in toX && m.Attach? ==> m.child !in x.tracked
  {
    forall m | m in toX && m.Attach? ensures m.child !in x.tracked {
      assert MsgOk(x, y, m);
    }
  }

  /** The state once a fetch has ended and its lock was given back. */
  function Done(x: Side): Side { x.(calls := x.calls.(fetching := None, holder := 0, reply := None)) }

  lemma DoneCallers(x: Side)
    requires CallersOk(x)
    ensures CallersOk(Done(x))
  {
  }

  /** What a sound reply says: the peer's child of that name. */
  lemma SoundReply(x: Side, y: Side)
    requires FetchOk(x, y) && x.calls.reply.Some? && x.calls.reply.value.Some?
    requires x.calls.reply.value.value !in x.tracked
    ensures x.calls.fetching.Some?
    ensures var (p, name) := x.calls.fetching.value;
      p in x.own && Known(y, x.own[p].nid, x.calls.reply.value.value, name)
  {
  }

  lemma DoneKeeps(x: Side, y: Side, toX: seq<Msg>, toY: seq<Msg>, next: Nid)
    requires Half(x, y, toX, next) && Half(y, x, toY, next) && x.calls.fetching.Some? && x.calls.reply.Some?
    ensures Half(Done(x), y, toX, next) && Half(y, Done(x), toY, next)
    ensures var c := x.calls.holder; c !in x.calls.looked && c !in x.calls.loose
  {
    hide TrackedOk, EdgesOk, ProxiesOk, Placed, ListeningOk, Paired, MsgsOk, ReplyOk;
    NoAtWaiting(y, x, toY);
    DoneCallers(x);
    FetchState(x, Done(x), y);
    hide CallersOk;
    SameTablesKeep(x, Done(x), y, toX, toY, next);
  }

  /** A reply that brings what is not tracked: its node, and that no ATTACH brings the same. */
  lemma SoundBrings(x: Side, y: Side, toX: seq<Msg>, k: Nid, next: Nid)
    requires Half(x, y, toX, next) && TrackedOk(y, next) && EdgesOk(y)
    requires x.calls.reply == Some(Some(k)) && k !in x.tracked
    ensures x.calls.fetching.Some? && x.calls.fetching.value.0 in x.own
    ensures var (p, name) := x.calls.fetching.value; Known(y, x.own[p].nid, k, name)
    ensures forall m :: m in toX && m.Attach? ==> m.child != k
  {
    hide TrackedOk, EdgesOk, ProxiesOk, Placed, ListeningOk, FetchOk, Paired, MsgsOk, Known;
    SoundReply(x, y);
    var (p, name) := x.calls.fetching.value;
    ProxyIsOriginal(x, y, p);
    NothingElseBrings(x, y, toX, x.own[p].nid, k, name, next);
  }

  lemma FetchDoneKeeps(s: State, c: Caller)
    requires Inv(s) && EnabledLeft(s, FetchDone(c)) && Sound(s, FetchDone(c))
    ensures Inv(StepLeft(s, FetchDone(c)))
  {
    var x, y, done := s.a, s.b, Done(s.a);
    DoneKeeps(x, y, s.ba, s.ab, s.next);
    if x.calls.reply.value.Some? {
      var k := x.calls.reply.value.value;
      var (p, name) := x.calls.fetching.value;
      assert TrackedOk(y, s.next) && EdgesOk(y);
      hide Half, Known, TrackedOk, EdgesOk;
      SoundBrings(x, y, s.ba, k, s.next);
      LooseProxyKeeps(done, y, s.ba, s.ab, k, c, p, name, s.next);
      assert OnFetched(x) == LooseProxy(done, k, x.own[p].nid, c, p, name);
    }
    hide Half;
  }

  // ---------- Inserting what was fetched ----------

  function Without(x: Side, c: Caller): Side { x.(calls := x.calls.(loose := x.calls.loose - {c})) }

  lemma StillIsLoose(x: Side, c: Caller, n: Node)
    requires IsLoose(x, n)
    ensures IsLoose(Without(x, c), n) || (c in x.calls.loose && x.calls.loose[c].n == n)
  {
    var d :| d in x.calls.loose && x.calls.loose[d].n == n;
    if d != c {
      assert d in Without(x, c).calls.loose;
    }
  }

  lemma SettledProxies(x: Side, y: Side, c: Caller)
    requires ProxiesOk(x, y) && FetchOk(x, y) && c in x.calls.loose
    requires var l := x.calls.loose[c]; (l.p, l.name) in x.edges
    ensures ProxiesOk(Without(x, c), y)
  {
    var x' := Without(x, c);
    LoosePlace(x, y, c);
    hide FetchOk, IsLoose;
    forall n | n in x'.own ensures ProxyOk(x', y, n) {
      assert ProxyOk(x, y, n);
      if IsLoose(x, n) {
        StillIsLoose(x, c, n);
      }
    }
  }

  lemma SettledMsg(x: Side, y: Side, c: Caller, m: Msg, next: Nid)
    requires ProxiesOk(x, y) && FetchOk(x, y) && c in x.calls.loose
    requires TrackedOk(x, next) && TrackedOk(y, next) && EdgesOk(y) && Paired(x, y) && MsgOk(x, y, m)
    requires var l := x.calls.loose[c]; (l.p, l.name) in x.edges
    ensures MsgOk(Without(x, c), y, m)
  {
    if m.ChildAdded? && m.child in x.tracked {
      LoosePlace(x, y, c);
      TrackedPlace(x, y, m, next);
      hide FetchOk, IsLoose, TrackedOk, EdgesOk, Paired, ProxiesOk;
      if IsLoose(x, x.tracked[m.child]) {
        StillIsLoose(x, c, x.tracked[m.child]);
      }
    }
  }

  lemma SettledMsgs(x: Side, y: Side, c: Caller, toX: seq<Msg>, next: Nid)
    requires ProxiesOk(x, y) && FetchOk(x, y) && c in x.calls.loose
    requires TrackedOk(x, next) && TrackedOk(y, next) && EdgesOk(y) && Paired(x, y) && MsgsOk(x, y, toX)
    requires var l := x.calls.loose[c]; (l.p, l.name) in x.edges
    ensures MsgsOk(Without(x, c), y, toX)
  {
    hide TrackedOk, ProxiesOk, FetchOk, EdgesOk, Paired, MsgOk;
    forall m | m in toX ensures MsgOk(Without(x, c), y, m) {
      SettledMsg(x, y, c, m, next);
    }
  }

  lemma SettledFetch(x: Side, y: Side, c: Caller)
    requires ListeningOk(x, y) && FetchOk(x, y)
    ensures ListeningOk(Without(x, c), y) && FetchOk(Without(x, c), y)
  {
    var x' := Without(x, c);
    if x.calls.reply.Some? && x.calls.reply.value.Some? {
      var (p, name) := x.calls.fetching.value;
      assert OwnThere(x', p, x.calls.reply.value.value, name) == OwnThere(x, p, x.calls.reply.value.value, name);
    }
    assert CallersOk(x') by {
      forall d | d in x'.calls.loose ensures LooseOk(x', x'.calls.loose[d]) {
        assert LooseOk(x, x.calls.loose[d]);
      }
    }
    hide Known, OwnThere, ProxyThere, CallersOk;
  }

  /** A caller has nothing to insert any more, as something hangs there. */
  lemma SettleKeeps(x: Side, y: Side, toX: seq<Msg>, toY: seq<Msg>, c: Caller, next: Nid)
    requires Half(x, y, toX, next) && Half(y, x, toY, next) && c in x.calls.loose
    requires var l := x.calls.loose[c]; (l.p, l.name) in x.edges
    ensures Half(Without(x, c), y, toX, next) && Half(y, Without(x, c), toY, next)
  {
    var x' := Without(x, c);
    hide TrackedOk, EdgesOk, ProxiesOk, Placed, ListeningOk, FetchOk, Paired, MsgsOk;
    SettledProxies(x, y, c);
    SettledMsgs(x, y, c, toX, next);
    SettledFetch(x, y, c);
    SameProxies(x, x', y);
    SameMsgs(x, x', y, toX, toY);
    SameRest(x, x', y, next);
    SamePeer(y, x, x');
  }

  lemma InsertKeeps(s: State, c: Caller)
    requires Inv(s) && EnabledLeft(s, Insert(c))
    ensures Inv(StepLeft(s, Insert(c)))
  {
    var x, l := s.a, s.a.calls.loose[c];
    hide Half;
    if (l.p, l.name) !in x.edges {
      HangKeeps(x, s.b, s.ba, s.ab, c, s.next);
      var x1 := WithEdge(x, l.p, l.name, l.n);
      SettleKeeps(x1, s.b, s.ba, s.ab, c, s.next);
      assert OnInsert(x, c) == Without(x1, c);
    } else {
      SettleKeeps(x, s.b, s.ba, s.ab, c, s.next);
    }
  }

  /** No ATTACH for a child of one of the peer's originals is on its way. */
  lemma NothingElseBrings(x: Side, y: Side, toX: seq<Msg>, parent: Nid, k: Nid, name: Name, next: Nid)
    requires MsgsOk(x, y, toX) && TrackedOk(y, next) && EdgesOk(y) && Known(y, parent, k, name)
    requires y.tracked[parent] !in y.own
    ensures forall m :: m in toX && m.Attach? ==> m.child != k
  {
    forall m | m in toX && m.Attach? ensures m.child != k {
      assert MsgOk(x, y, m);
      SamePlaceOf(y, m.parent, parent, k, m.name, name, next);
    }
  }

  // ---------- Every step ----------

  lemma AppAttachKeeps(s: State, p: Node, name: Name)
    requires Inv(s) && EnabledLeft(s, AppAttach(p, name))
    ensures Inv(StepLeft(s, AppAttach(p, name)))
  {
    OwnBelow(s.a, s.b);
    AttachNodeNew(s.a, s.b, p, name, s.next);
    hide Half, AttachNode, AttachedNew;
    AttachedKeeps(s.a, s.b, s.ba, s.ab, p, name, s.next);
  }

  lemma StepLeftKeeps(s: State, act: Act)
    requires Inv(s) && EnabledLeft(s, act) && Sound(s, act)
    ensures Inv(StepLeft(s, act))
  {
    hide Inv, StepLeft, Sound;
    match act {
      case AppAttach(p, name) => AppAttachKeeps(s, p, name);
      case Look(c, p, name) => LookKeeps(s, c, p, name);
      case FetchStart(c) => FetchStartKeeps(s, c);
      case FetchDone(c) => FetchDoneKeeps(s, c);
      case Insert(c) => InsertKeeps(s, c);
      case ValueStart(k) => ValueStartKeeps(s, k);
      case ValueDone => ValueDoneKeeps(s);
      case Receive =>
        match s.ba[0] {
          case ChildAdded(_, _, _) => ChildAddedKeeps(s);
          case Attach(_, _, _) => AttachKeeps(s);
          case Subscribe(_) => SubscribeKeeps(s);
          case At(_, _) => AtKeeps(s);
          case GetValue(_) => GetValueKeeps(s);
        }
    }
  }

  predicate SoundStep(s: State, e: Event)
    requires Enabled(s, e)
  {
    Sound(if e.left then s else Flip(s), e.act)
  }

  lemma StepKeeps(s: State, e: Event)
    requires Inv(s) && Enabled(s, e) && SoundStep(s, e)
    ensures Inv(Step(s, e))
  {
    hide Half, StepLeft, Sound;
    StepLeftKeeps(if e.left then s else Flip(s), e.act);
  }

  lemma InitialInv(s: State)
    requires Initial(s)
    ensures Inv(s)
  {
  }
}
