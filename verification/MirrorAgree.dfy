/** Where the two trees agree: when a place that both ends have filled holds the same child. */
module MirrorAgree {
  import opened Bytes
  import opened Packages
  import opened Mirror
  import opened MirrorProof
  import opened MirrorRuns
  import opened MirrorScenes

  /** Both ends have a child of this name under the node of this nid. */
  predicate Both(s: State, q: Nid, name: Name) {
    q in s.a.tracked && q in s.b.tracked && (s.a.tracked[q], name) in s.a.edges && (s.b.tracked[q], name) in s.b.edges
  }

  function LeftChild(s: State, q: Nid, name: Name): Node
    requires Both(s, q, name)
  {
    s.a.edges[(s.a.tracked[q], name)]
  }

  function RightChild(s: State, q: Nid, name: Name): Node
    requires Both(s, q, name)
  {
    s.b.edges[(s.b.tracked[q], name)]
  }

  /** The nid stands for the one node at the left end and for the other at the right end. */
  predicate Pairs(s: State, k: Nid, n: Node, m: Node) {
    k in s.a.tracked && k in s.b.tracked && s.a.tracked[k] == n && s.b.tracked[k] == m
  }

  /** They are the same child: some nid pairs them. */
  ghost predicate Same(s: State, q: Nid, name: Name)
    requires Both(s, q, name)
  {
    exists k :: Pairs(s, k, LeftChild(s, q, name), RightChild(s, q, name))
  }

  /** Where one of them is a proxy, it is the proxy of the other. */
  lemma ProxyPairs(s: State, q: Nid, name: Name)
    requires Both(s, q, name) && LeftChild(s, q, name) in s.a.own && Inv(s)
    ensures Pairs(s, s.a.own[LeftChild(s, q, name)].nid, LeftChild(s, q, name), RightChild(s, q, name))
  {
    assert ProxyOk(s.a, s.b, LeftChild(s, q, name));
    EdgeToProxy(s.a, s.b, q, name, s.next);
    hide TrackedOk, EdgesOk, ProxiesOk, Placed, Paired, ListeningOk, MsgsOk, FetchOk;
  }

  lemma RightProxyPairs(s: State, q: Nid, name: Name)
    requires Both(s, q, name) && RightChild(s, q, name) in s.b.own && Inv(s)
    ensures Pairs(s, s.b.own[RightChild(s, q, name)].nid, LeftChild(s, q, name), RightChild(s, q, name))
  {
    FlipInv(s);
    hide Inv;
    ProxyPairs(Flip(s), q, name);
  }

  /** What a nid pairs, the root apart, is an original and a proxy. */
  lemma PairHasProxy(s: State, q: Nid, name: Name, k: Nid)
    requires Both(s, q, name) && Pairs(s, k, LeftChild(s, q, name), RightChild(s, q, name)) && Inv(s)
    ensures LeftChild(s, q, name) in s.a.own <==> RightChild(s, q, name) !in s.b.own
  {
    assert k != 0 by {
      assert s.a.tracked[0] == s.a.root && LeftChild(s, q, name) != s.a.root;
    }
    hide TrackedOk, EdgesOk, ProxiesOk, Placed, ListeningOk, MsgsOk, FetchOk;
  }

  lemma SameIffInv(s: State, q: Nid, name: Name)
    requires Both(s, q, name) && Inv(s)
    ensures Same(s, q, name) <==> LeftChild(s, q, name) in s.a.own || RightChild(s, q, name) in s.b.own
    ensures !(LeftChild(s, q, name) in s.a.own && RightChild(s, q, name) in s.b.own)
  {
    hide Inv, Both, LeftChild, RightChild, Pairs;
    if LeftChild(s, q, name) in s.a.own {
      ProxyPairs(s, q, name);
      PairHasProxy(s, q, name, s.a.own[LeftChild(s, q, name)].nid);
    } else if RightChild(s, q, name) in s.b.own {
      RightProxyPairs(s, q, name);
    }
    if Same(s, q, name) {
      var k :| Pairs(s, k, LeftChild(s, q, name), RightChild(s, q, name));
      PairHasProxy(s, q, name, k);
    }
  }

  /** Children of one name under a node that both ends know are the same exactly if one of them is a
      proxy; two nodes that each end hung there itself are not. */
  lemma SameIff(s: State, q: Nid, name: Name)
    requires Reachable(s) && Both(s, q, name)
    ensures Same(s, q, name) <==> LeftChild(s, q, name) in s.a.own || RightChild(s, q, name) in s.b.own
    ensures !(LeftChild(s, q, name) in s.a.own && RightChild(s, q, name) in s.b.own)
  {
    hide *;
    ReachableInv(s);
    SameIffInv(s, q, name);
  }

  lemma ChildStays(x: Side, x': Side, p: Node, name: Name)
    requires Grows(x, x') && (p, name) in x.edges && x.edges[(p, name)] < x.nodes
    ensures (p, name) in x'.edges && x'.edges[(p, name)] == x.edges[(p, name)]
    ensures x'.edges[(p, name)] in x'.own <==> x.edges[(p, name)] in x.own
  {
  }

  lemma ChildrenExist(s: State, q: Nid, name: Name)
    requires Both(s, q, name) && Inv(s)
    ensures LeftChild(s, q, name) < s.a.nodes && RightChild(s, q, name) < s.b.nodes
  {
  }

  lemma BothStays(s: State, t: State, q: Nid, name: Name)
    requires Grows(s.a, t.a) && Grows(s.b, t.b) && Both(s, q, name)
    requires LeftChild(s, q, name) < s.a.nodes && RightChild(s, q, name) < s.b.nodes
    ensures Both(t, q, name)
    ensures LeftChild(t, q, name) == LeftChild(s, q, name) && RightChild(t, q, name) == RightChild(s, q, name)
    ensures LeftChild(t, q, name) in t.a.own <==> LeftChild(s, q, name) in s.a.own
    ensures RightChild(t, q, name) in t.b.own <==> RightChild(s, q, name) in s.b.own
  {
    ChildStays(s.a, t.a, s.a.tracked[q], name);
    ChildStays(s.b, t.b, s.b.tracked[q], name);
  }

  /** It is decided once and for all: the same children stay the same, and others stay apart. */
  lemma SameForever(s: State, q: Nid, name: Name, events: seq<Event>)
    requires Reachable(s) && Both(s, q, name) && IsRun(s, events) && SoundRun(s, events)
    ensures var t := After(s, events);
      && Both(t, q, name)
      && LeftChild(t, q, name) == LeftChild(s, q, name) && RightChild(t, q, name) == RightChild(s, q, name)
      && (Same(t, q, name) <==> Same(s, q, name))
  {
    hide *;
    var t := After(s, events);
    ReachableInv(s);
    RunGrows(s, events);
    RunKeeps(s, events);
    ChildrenExist(s, q, name);
    BothStays(s, t, q, name);
    SameIffInv(s, q, name);
    SameIffInv(t, q, name);
  }

  /** A proxy hangs where its node does, if it hangs anywhere. */
  lemma HangsThere(s: State, q: Nid, name: Name, k: Nid, e: (Node, Name))
    requires k in s.a.tracked && k in s.b.tracked && s.b.tracked[k] in s.b.own
    requires q in s.a.tracked && q in s.b.tracked && (s.a.tracked[q], name) in s.a.edges
    requires s.a.edges[(s.a.tracked[q], name)] == s.a.tracked[k] && e in s.b.edges && s.b.edges[e] == s.b.tracked[k]
    requires Inv(s)
    ensures e == (s.b.tracked[q], name)
  {
    var m := s.b.tracked[k];
    var p := s.b.own[m];
    assert ProxyOk(s.b, s.a, m);
    assert p.nid == k;
    assert Known(s.a, p.parent, k, p.name);
    assert e == (s.b.tracked[p.parent], p.name);
    assert (s.a.tracked[p.parent], p.name) == (s.a.tracked[q], name);
    assert p.parent == q;
  }

  /** What an end has for the other's child of a place where they differ hangs nowhere. */
  lemma OtherHangsNowhere(s: State, q: Nid, name: Name, k: Nid)
    requires Reachable(s) && Both(s, q, name) && !Same(s, q, name)
    requires k in s.a.tracked && k in s.b.tracked && s.a.tracked[k] == LeftChild(s, q, name)
    ensures s.b.tracked[k] in s.b.own && forall e :: e in s.b.edges ==> s.b.edges[e] != s.b.tracked[k]
  {
    hide *;
    ReachableInv(s);
    SameIffInv(s, q, name);
    NotTheRoot(s, q, name, k);
    NidsPairNodes(s, k);
    forall e | e in s.b.edges ensures s.b.edges[e] != s.b.tracked[k] {
      if s.b.edges[e] == s.b.tracked[k] {
        LeftChildIs(s, q, name);
        HangsThere(s, q, name, k, e);
        ItPairs(s, q, name, k, e);
      }
    }
  }

  lemma NotTheRoot(s: State, q: Nid, name: Name, k: Nid)
    requires Both(s, q, name) && k in s.a.tracked && s.a.tracked[k] == LeftChild(s, q, name) && Inv(s)
    ensures k != 0
  {
    assert s.a.tracked[0] == s.a.root;
    hide ProxiesOk, Placed, Paired, ListeningOk, MsgsOk, FetchOk;
  }

  lemma LeftChildIs(s: State, q: Nid, name: Name)
    requires Both(s, q, name)
    ensures q in s.a.tracked && q in s.b.tracked && (s.a.tracked[q], name) in s.a.edges
    ensures LeftChild(s, q, name) == s.a.edges[(s.a.tracked[q], name)]
  {
  }

  lemma ItPairs(s: State, q: Nid, name: Name, k: Nid, e: (Node, Name))
    requires Both(s, q, name) && k in s.a.tracked && k in s.b.tracked && s.a.tracked[k] == LeftChild(s, q, name)
    requires e in s.b.edges && s.b.edges[e] == s.b.tracked[k] && e == (s.b.tracked[q], name)
    ensures Same(s, q, name)
  {
    assert Pairs(s, k, LeftChild(s, q, name), RightChild(s, q, name));
  }

  /** Both ends attach a child of one name to their roots before either hears of the other's. */
  lemma SameName() returns (s: State)
    ensures Reachable(s) && Both(s, 0, One) && !Same(s, 0, One)
    ensures |s.ab| == 1 && |s.ba| == 1
  {
    ReachAttached();
    hide Reachable;
    PlayAttach(Attached, 0, One);
    var a := Side(0, 2, map[(0, One) := 1], map[0 := 0, 2 := 1], map[], map[0 := 0], NoCalls);
    assert AttachedNew(Client0, 0, One, 2) == (a, [ChildAdded(0, 2, One)], 3);
    assert [] + [ChildAdded(0, 2, One)] == [ChildAdded(0, 2, One)];
    s := State(a, ServerAttached, [ChildAdded(0, 2, One)], [ChildAdded(0, 1, One)], 3);
    SameIff(s, 0, One);
  }
}
