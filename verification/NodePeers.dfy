/** The two ends of a connection together: what one end makes of the packages that the other writes about
    nodes. */
module NodePeers {
  import opened Bytes
  import opened Packages
  import opened Payloads
  import opened Framing
  import opened Dispatcher
  import opened MessageIds
  import opened Mirror
  import opened NodeSync

  /** Two ends with nothing in common but the counter that nids are drawn from. */
  ghost predicate Apart(x: NodeSync, y: NodeSync)
    reads x, y, x.dev, y.dev
  {
    && x != y && x.dev != y.dev && x.dev.transport != y.dev.transport && x.dev.incoming != y.dev.incoming
    && x.dev.codec != y.dev.codec
  }

  /** What the other end does leaves an end as it was, but for the counter. */
  twostate lemma StillValid(y: NodeSync)
    requires old(y.Valid()) && unchanged(y) && unchanged(y.dev) && unchanged(y.dev.codec) && unchanged(y.dev.incoming)
    requires unchanged(old(y.dev.pending.Keys)) && unchanged(y.dev.transport) && y.source.next <= TWO_64
    ensures y.Valid()
  {
  }

  lemma CounterIn(y: NodeSync)
    requires y.Valid()
    ensures y.source.next <= TWO_64
  {
  }

  /** The child that an end has at a place, if any. */
  function ChildAt(x: NodeSync, k: Nid, name: Name): Option<Node>
    reads x
  {
    if k in x.tracked && (x.tracked[k], name) in x.edges then Some(x.edges[(x.tracked[k], name)]) else None
  }

  lemma AnsweredNid(x: Side, n: Node, next: Nid)
    requires forall k :: k in x.tracked ==> k < TWO_64
    requires next < TWO_64
    ensures var (k, x', _) := Mirror.GetNid(x, n, next); k in x'.tracked && x'.tracked[k] == n && k < TWO_64
  {
  }

  lemma QuestionAt(k: Nid, name: Name)
    requires k < TWO_64 && Fits(name)
    ensures var p := Copied(MsgBytes(At(k, name), [], false));
      && WellFormed(p) && NidOf(p) == k && CmdOf(p) == CMD_AT && ReadString(p, 0).0 == name
      && ReadMsg(p) == Some(Labelled(At(k, name), [], false))
  {
    NameRoundTrip(CMD_AT, k, name, HEADER_SIZE);
    hide ReadString, StringField, DecodeAttach, DecodeChildAdded, NidOf;
  }

  lemma AtRuled(x: Side, next: Nid, k: Nid, name: Name, known: set<bytes>, x': Side, next': Nid)
    requires k < TWO_64 && Fits(name)
    requires WellFormed(Copied(MsgBytes(At(k, name), [], false)))
    requires AsRuled(x, next, Copied(MsgBytes(At(k, name), [], false)), known, x', next')
    ensures x' == OnAt(x, k, name, next).0
  {
    QuestionAt(k, name);
    HandleIs(x, next, Copied(MsgBytes(At(k, name), [], false)));
    hide MsgBytes, ReadMsg, OnAt, Handle;
  }

  lemma AnswerIs(x: Side, k: Nid, name: Name, next: Nid)
    requires next < TWO_64 && forall j :: j in x.tracked ==> j < TWO_64
    ensures var (x', r, _) := OnAt(x, k, name, next);
      && (r.Some? <==> k in x.tracked && (x.tracked[k], name) in x.edges)
      && (r.Some? ==> r.value < TWO_64 && r.value in x'.tracked && x'.tracked[r.value] == x.edges[(x.tracked[k], name)])
  {
    if k in x.tracked && (x.tracked[k], name) in x.edges {
      AnsweredNid(x, x.edges[(x.tracked[k], name)], next);
    }
    hide Mirror.GetNid;
  }

  /** `y` answers the question for a child. */
  method AnswerAt(y: NodeSync, req: Package, ghost k: Nid, ghost name: Name) returns (ghost answer: Option<Nid>)
    requires y.Valid() && req.Valid() && y.source.next + 2 < TWO_64 && k < TWO_64 && Fits(name)
    requires req.data == Copied(MsgBytes(At(k, name), [], false))
    modifies y, y.source, y.dev`pending, y.dev.transport
    ensures y.Valid() && unchanged(y`types) && unchanged(y`values) && unchanged(y`own)
    ensures old(y.ReplyTo(req, [])) == AtReply(k, answer, old(y.ChildType(k, name)))
    ensures y.dev.transport.stream
      == old(y.dev.transport.stream) + Answered(old(y.dev.pending), req, old(y.ReplyTo(req, [])))
    ensures answer.Some? <==> old(ChildAt(y, k, name)).Some?
    ensures answer.Some? ==>
      answer.value < TWO_64 && answer.value in y.tracked && y.tracked[answer.value] == old(ChildAt(y, k, name)).value
  {
    QuestionAt(k, name);
    answer := OnAt(y.View(), k, name, y.source.next).1;
    AnswerIs(y.View(), k, name, y.source.next);
    ghost var x, next := y.View(), y.source.next;
    hide MsgBytes, ReadString, Answered, AtReply, OnAt, AsRuled, DecodeAttach, DecodeChildAdded, StringFields, FindNid;
    y.ProcessPackage(req, [], false, None);
    AtRuled(x, next, k, name, y.known, y.View(), y.source.next);
  }

  /** What `OnFetched` makes of a nid that came. */
  lemma FetchedSide(x: Side, p: Node, name: Name, nid: Nid, x': Side)
    requires p in x.own
    requires OnFetched(x.(calls := NoCalls.(fetching := Some((p, name)), reply := Some(Some(nid)))))
      == x'.(calls := NoCalls.(loose := map[0 := Loose(p, name, x.nodes)]))
    ensures x'.tracked == x.tracked[nid := x.nodes] && x'.own == x.own[x.nodes := Proxy(nid, x.own[p].nid, name)]
  {
  }

  /** `x` takes the answer in. */
  method TakeFetched(x: NodeSync, rep: Package, p: Node, name: Name, ghost k: Nid, ghost answer: Option<Nid>,
      ghost typ: bytes, ghost pad: nat)
    returns (r: Option<Node>)
    requires x.Valid() && rep.Valid() && p in x.own && k < TWO_64 && Fits(typ)
    requires (answer.Some? ==> answer.value < TWO_64) && rep.data == AtReply(k, answer, typ) + Zeros(pad)
    modifies x`nodes, x`own, x`types, x`values, x`tracked, x`nulls
    ensures x.Valid() && (r.Some? <==> answer.Some? && typ in x.known)
    ensures r.Some? ==>
      && r.value == old(x.nodes) && x.tracked == old(x.tracked)[answer.value := r.value]
      && x.own == old(x.own)[r.value := Proxy(answer.value, old(x.own)[p].nid, name)] && x.Made(r.value, typ)
  {
    AtReplyRead(k, answer, typ, pad);
    if answer.None? {
      ErrorReplyIsEmptyValue(CMD_AT_ERROR, k, pad);
    }
    ghost var was := x.View();
    hide ReadString, AtReply, OnFetched;
    r := x.FetchedNode(rep, p, name);
    if r.Some? {
      FetchedSide(was, p, name, answer.value, x.View());
    }
  }

  /** `x` takes in what `y` answered about the child. */
  method TakeChild(x: NodeSync, y: NodeSync, rep: Package, p: Node, name: Name, ghost k: Nid,
      ghost answer: Option<Nid>, ghost child: Option<Node>, ghost typ: bytes, ghost pad: nat)
    returns (r: Option<Node>)
    requires x.Valid() && y.Valid() && Apart(x, y) && rep.Valid() && p in x.own && k < TWO_64 && Fits(typ)
    requires (answer.Some? <==> child.Some?) && (answer.Some? ==> answer.value < TWO_64 && y.TypeOf(child.value) == typ)
    requires answer.Some? ==> answer.value in y.tracked && y.tracked[answer.value] == child.value
    requires rep.data == AtReply(k, answer, typ) + Zeros(pad)
    modifies x`nodes, x`own, x`types, x`values, x`tracked, x`nulls
    ensures x.Valid() && y.Valid()
    ensures r.Some? <==> child.Some? && y.TypeOf(child.value) in x.known
    ensures r.Some? ==>
      r.value in x.own && x.own[r.value].nid in x.tracked && x.tracked[x.own[r.value].nid] == r.value
      && SameKind(x, x.own[r.value].nid, y, child.value)
  {
    hide ReadString, AtReply, NodeSync.Valid, NodeSync.Made;
    CounterIn(y);
    r := TakeFetched(x, rep, p, name, k, answer, typ, pad);
    StillValid(y);
  }

  /** A whole fetch: `y` answers the question that `x` wrote in StartFetch, for the child of its proxy `p`, and
      `x` takes the answer in that AnswerAt wrote, padded on its way. `req` and `rep` are the packages as they
      arrive. A proxy comes of it exactly if `y` has the child and `x` knows its type; it is tracked under the nid
      that `y` tracks the child under, and is of its type. */
  method Fetch(x: NodeSync, y: NodeSync, p: Node, name: Name, req: Package, rep: Package, ghost pad: nat)
    returns (r: Option<Node>)
    requires x.Valid() && y.Valid() && Apart(x, y) && p in x.own && Fits(name) && y.source.next + 2 < TWO_64
    requires req.Valid() && rep.Valid() && req.data == Copied(MsgBytes(At(x.own[p].nid, name), [], false))
    requires rep.data == y.ReplyTo(req, []) + Zeros(pad)
    modifies x`nodes, x`own, x`types, x`values, x`tracked, x`nulls
    modifies y, y.source, y.dev`pending, y.dev.transport
    ensures x.Valid() && y.Valid()
    ensures var child := old(ChildAt(y, x.own[p].nid, name));
      && (r.Some? <==> child.Some? && y.TypeOf(child.value) in x.known)
      && (r.Some? ==>
            r.value in x.own && x.own[r.value].nid in x.tracked && x.tracked[x.own[r.value].nid] == r.value
            && SameKind(x, x.own[r.value].nid, y, child.value))
  {
    ghost var k, typ := x.own[p].nid, y.ChildType(x.own[p].nid, name);
    ghost var child := ChildAt(y, k, name);
    TypeFits(y, k, name);
    NidFits(x, p);
    hide MsgBytes, ReadString, Frame, WithWord, Answered, AtReply, OnAt, ChildAt, KindIn, NodeSync.Made,
      NodeSync.Valid, NodeSync.ReplyTo, NodeSync.ChildType, SameKind;
    ghost var answer := AnswerAt(y, req, k, name);
    CounterIn(y);
    StillValid(x);
    r := TakeChild(x, y, rep, p, name, k, answer, child, typ, pad);
  }

  lemma NidFits(x: NodeSync, p: Node)
    requires x.Valid() && p in x.own
    ensures x.own[p].nid < TWO_64
  {
  }

  lemma TypeFits(y: NodeSync, k: Nid, name: Name)
    requires y.Valid()
    ensures Fits(y.ChildType(k, name))
    ensures ChildAt(y, k, name).Some? ==> y.ChildType(k, name) == y.TypeOf(ChildAt(y, k, name).value)
  {
  }

  /** `y` lists the children of the node, and its caller reads their names in the reply, padded on its way; none
      if `y` does not track the nid. */
  method List(y: NodeSync, list: seq<Name>, req: Package, rep: Package, ghost k: Nid, ghost pad: nat)
    returns (names: seq<Name>)
    requires y.Valid() && req.Valid() && rep.Valid() && y.source.next + 2 < TWO_64 && k < TWO_64
    requires req.data == Copied(MakePackage(CMD_LS, k, [])) && rep.data == y.ReplyTo(req, list) + Zeros(pad)
    requires k in y.tracked ==> y.Lists(list, y.tracked[k])
    requires (forall i :: 0 <= i < |list| ==> Short(list[i])) && |StringFields(list)| < 0x7fff_0000 && |list| < TWO_32
    modifies y, y.source, y.dev`pending, y.dev.transport
    ensures y.Valid() && y.View() == old(y.View())
    ensures y.dev.transport.stream
      == old(y.dev.transport.stream) + Answered(old(y.dev.pending), req, old(y.ReplyTo(req, list)))
    ensures names == if k in y.tracked then list else []
  {
    PaddedFields(CMD_LS, k, [], HEADER_SIZE);
    LsReplyRead(k, if k in y.tracked then Some(list) else None, pad);
    hide ReadString, StringFields, Answered, LsReply, AsRuled, DecodeAttach, DecodeChildAdded, DecodeLs, MakePackage,
      NidOf;
    y.ProcessPackage(req, list, false, None);
    names := Ls(rep);
  }

  /** The message that tells the peer of a new child, and the node that it makes there. */
  ghost predicate Learns(y: NodeSync, m: Msg)
    reads y
  {
    (m.ChildAdded? || m.Attach?) && m.parent in y.tracked && m.child !in y.tracked
  }

  lemma MessageOf(m: Msg, typ: bytes, owned: bool)
    requires Sendable(m, typ) && (m.ChildAdded? || m.Attach?)
    ensures var p := MsgBytes(m, typ, owned);
      && WellFormed(p) && NidOf(p) == m.parent
      && (if m.ChildAdded? then CmdOf(p) == CMD_CHILD_ADDED && DecodeChildAdded(p) == (m.child, m.name, typ, owned)
          else CmdOf(p) == CMD_NODE_ATTACH && DecodeAttach(p) == (typ, m.name, m.child))
  {
    var p := MsgBytes(m, typ, owned);
    assert p + Zeros(0) == p;
    if m.ChildAdded? {
      ChildAddedRoundTrip(m.parent, m.child, m.name, typ, owned, 0);
      HeaderFields(CMD_CHILD_ADDED, m.parent, ChildAddedPayload(m.child, m.name, typ, owned));
    } else {
      AttachRoundTrip(m.parent, typ, m.name, m.child, 0);
      HeaderFields(CMD_NODE_ATTACH, m.parent, AttachPayload(typ, m.name, m.child));
    }
    hide DecodeChildAdded, DecodeAttach, ChildAddedPayload, AttachPayload, NidOf;
  }

  /** `y` hears of a new child: exactly if it knows the type, a proxy of that type comes of it, tracked under the
      nid in the message. */
  method Hear(y: NodeSync, p: Package, ghost m: Msg, ghost typ: bytes, ghost owned: bool)
    requires y.Valid() && p.Valid() && y.source.next + 2 < TWO_64 && Sendable(m, typ) && Learns(y, m)
    requires p.data == MsgBytes(m, typ, owned) && m.parent !in y.nulls
    modifies y, y.source, y.dev`pending, y.dev.transport
    ensures y.Valid() && (m.child in y.tracked <==> typ in y.known)
    ensures typ in y.known ==>
      && y.tracked[m.child] == old(y.nodes) && y.Made(old(y.nodes), typ)
      && old(y.nodes) in y.own && y.own[old(y.nodes)] == Proxy(m.child, m.parent, m.name)
  {
    MessageOf(m, typ, owned);
    ghost var x, next := y.View(), y.source.next;
    hide MsgBytes, ReadString, Answered, AsRuled, DecodeAttach, DecodeChildAdded, StringFields, FindNid, NidOf;
    y.ProcessPackage(p, [], false, None);
    HearRuled(x, next, m, typ, owned, y.known, y.View(), y.source.next);
  }

  lemma HearRuled(x: Side, next: Nid, m: Msg, typ: bytes, owned: bool, known: set<bytes>, x': Side, next': Nid)
    requires Sendable(m, typ) && (m.ChildAdded? || m.Attach?) && m.parent in x.tracked && m.child !in x.tracked
    requires WellFormed(MsgBytes(m, typ, owned)) && AsRuled(x, next, MsgBytes(m, typ, owned), known, x', next')
    ensures typ !in known ==> x' == x
    ensures typ in known ==>
      && m.child in x'.tracked && x'.tracked[m.child] == x.nodes
      && x.nodes in x'.own && x'.own[x.nodes] == Proxy(m.child, m.parent, m.name)
  {
    MsgRoundTrip(m, typ, owned, 0);
    assert MsgBytes(m, typ, owned) + Zeros(0) == MsgBytes(m, typ, owned);
    HandleIs(x, next, MsgBytes(m, typ, owned));
    hide MsgBytes, ReadMsg, Handle;
  }

  lemma TellsOf(x: Side, p: Node, name: Name, n: Node, next: Nid, m: Msg)
    requires AttachNode(x, p, name, n, next).1 == [m]
    ensures (m.ChildAdded? || m.Attach?) && m.name == name
    ensures var (x', _, next') := AttachNode(x, p, name, n, next);
      m.child in x'.tracked && x'.tracked[m.child] == n && next' <= next + 3
  {
    var x1 := x.(edges := x.edges[(p, name) := n]);
    var (x2, m2, next2) := TellAdded(x1, p, name, n, next);
    var (x3, m3, next3) := TellAttach(x2, p, name, n, next2);
    assert AttachNode(x, p, name, n, next) == (x3, m2 + m3, next3);
    assert m == (m2 + m3)[0];
    AddedOf(x1, p, name, n, next);
    AttachOf(x2, p, name, n, next2);
    hide TellAdded, TellAttach, AttachNode;
    if |m2| == 1 {
      assert m3 == [] && m2 == [m];
    } else {
      assert m2 == [] && m3 == [m];
    }
  }

  lemma AddedOf(x: Side, p: Node, name: Name, n: Node, next: Nid)
    ensures var (x', ms, next') := TellAdded(x, p, name, n, next);
      && |ms| <= 1 && next' <= next + 2
      && (ms == [] || (ms[0].ChildAdded? && ms[0].name == name && ms[0].child in x'.tracked
            && x'.tracked[ms[0].child] == n))
  {
    hide FindNid;
  }

  lemma AttachOf(x: Side, p: Node, name: Name, n: Node, next: Nid)
    ensures var (x', ms, next') := TellAttach(x, p, name, n, next);
      && |ms| <= 1 && next' <= next + 1 && (ms == [] ==> x' == x)
      && (ms == [] || (ms[0].Attach? && ms[0].name == name && ms[0].child in x'.tracked
            && x'.tracked[ms[0].child] == n))
  {
    hide FindNid;
  }

  /** The nid stands for the node at the one end and for a proxy of its type, without a value yet, at the other. */
  ghost predicate SameKind(x: NodeSync, k: Nid, y: NodeSync, n: Node)
    reads x, y
  {
    && k in y.tracked && y.tracked[k] == n && k in x.tracked && x.tracked[k] in x.own && x.own[x.tracked[k]].nid == k
    && x.Made(x.tracked[k], y.TypeOf(n))
  }

  /** `x` attaches the node, and writes that one message. */
  method AttachAndTell(x: NodeSync, p: Node, name: Name, typ: bytes, value: bytes, ghost m: Msg) returns (n: Node)
    requires x.Valid() && x.source.next + 2 < TWO_64 && Fits(name) && Fits(typ)
    requires AttachNode(NewNode(x.View()), p, name, x.nodes, x.source.next).1 == [m]
    modifies x`nodes, x`tracked, x`nulls, x`edges, x`types, x`values, x.source, x.dev.transport
    ensures x.Valid() && n == old(x.nodes) && x.source.next <= old(x.source.next) + 3
    ensures x.dev.transport.stream
      == old(x.dev.transport.stream) + Frame(WithWord(0, MsgBytes(m, typ, x.OwnedBy(n, p))))
    ensures (m.ChildAdded? || m.Attach?) && m.child in x.tracked && x.tracked[m.child] == n && x.TypeOf(n) == typ
  {
    TellsOf(NewNode(x.View()), p, name, x.nodes, x.source.next, m);
    WireOne(m, typ, x.OwnedBy(x.nodes, p));
    hide MsgBytes, Frame, WithWord, AttachNode, Wire;
    n := x.AppAttach(p, name, typ, value);
  }

  /** `y` hears of the node `n` of `x`. */
  method HearOf(x: NodeSync, y: NodeSync, n: Node, pkg: Package, ghost m: Msg, ghost typ: bytes, ghost owned: bool)
    requires x.Valid() && y.Valid() && Apart(x, y) && y.source.next + 2 < TWO_64
    requires typ in y.known && Sendable(m, typ) && Learns(y, m) && m.parent !in y.nulls
    requires m.child in x.tracked && x.tracked[m.child] == n && x.TypeOf(n) == typ
    requires pkg.Valid() && pkg.data == MsgBytes(m, typ, owned)
    modifies y, y.source, y.dev`pending, y.dev.transport
    ensures x.Valid() && y.Valid() && SameKind(y, m.child, x, n)
  {
    hide MsgBytes, Sendable, KindIn, NodeSync.Valid, SameKind, NodeSync.Made;
    CounterIn(x);
    Hear(y, pkg, m, typ, owned);
    CounterIn(y);
    StillValid(x);
    IsSameKind(y, m.child, x, n, typ);
  }

  /** `x` attaches a node, of whatever type, and `y` hears of it in the package of the message that AttachAndTell
      wrote: the proxy at `y` is of the type of the node at `x`, and the same nid stands for both. */
  method Mirrored(x: NodeSync, y: NodeSync, p: Node, name: Name, typ: bytes, value: bytes, pkg: Package, ghost m: Msg)
    returns (n: Node)
    requires x.Valid() && y.Valid() && Apart(x, y) && x.source.next + 5 < TWO_64 && y.source.next + 5 < TWO_64
    requires Fits(name) && typ in y.known && Sendable(m, typ) && Learns(y, m) && m.parent !in y.nulls
    requires AttachNode(NewNode(x.View()), p, name, x.nodes, x.source.next).1 == [m]
    requires pkg.Valid() && pkg.data == MsgBytes(m, typ, x.OwnedBy(x.nodes, p))
    modifies x, x.source, x.dev.transport, y, y.source, y.dev`pending, y.dev.transport
    ensures x.Valid() && y.Valid() && SameKind(y, m.child, x, n) && x.TypeOf(n) == typ
  {
    ghost var owned := x.OwnedBy(x.nodes, p);
    hide MsgBytes, AttachNode, Sendable, Learns, KindIn, Fits, NewNode, NodeSync.Valid, SameKind, NodeSync.Made;
    n := AttachAndTell(x, p, name, typ, value, m);
    StillValid(y);
    HearOf(x, y, n, pkg, m, typ, owned);
  }

  lemma IsSameKind(x: NodeSync, k: Nid, y: NodeSync, n: Node, typ: bytes)
    requires k in y.tracked && y.tracked[k] == n && k in x.tracked && x.tracked[k] in x.own
    requires x.own[x.tracked[k]].nid == k && x.Made(x.tracked[k], typ) && y.TypeOf(n) == typ
    ensures SameKind(x, k, y, n)
  {
  }
}
