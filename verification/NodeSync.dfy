/** `node_sync` as it is written: handlers that update the tracking table and the tree in place,
    read packages and write packages to the dispatcher. Each is proved to do what the rules in
    Mirror say, and every question is answered once. */
module NodeSync {
  import opened Bytes
  import opened Packages
  import opened Payloads
  import opened Framing
  import opened MessageIds
  import opened Dispatcher
  import opened Mirror

  /** The server's counter; a client draws from it with GENERATE_NID. */
  class NidSource {
    var next: Nid

    method Draw() returns (k: Nid)
      modifies this
      ensures k == old(next) && next == old(next) + 1
    {
      k := next;
      next := next + 1;
    }
  }

  // ---------- Messages as packages ----------

  /** Strings that fit a package together with another one. */
  predicate Fits(s: bytes) { |s| < 0x3fff_ff00 }

  /** The package for a message about a node of type `typ`, owned by its parent or not. */
  function MsgBytes(m: Msg, typ: bytes, owned: bool): bytes {
    match m
    case ChildAdded(parent, k, name) => MakePackage(CMD_CHILD_ADDED, parent, ChildAddedPayload(k, name, typ, owned))
    case Attach(parent, k, name) => MakePackage(CMD_NODE_ATTACH, parent, AttachPayload(typ, name, k))
    case Subscribe(k) => MakePackage(CMD_SUBSCRIBE_ADD_REMOVE, k, [])
    case At(k, name) => MakePackage(CMD_AT, k, StringField(name))
    case GetValue(k) => MakePackage(CMD_PROP_GET_VALUE, k, [])
  }

  datatype Labelled = Labelled(msg: Msg, typ: bytes, owned: bool)

  /** What the receiver of a package takes it to say. */
  function ReadMsg(p: bytes): Option<Labelled>
    requires WellFormed(p)
  {
    if CmdOf(p) == CMD_CHILD_ADDED then
      var (k, name, typ, owned) := DecodeChildAdded(p);
      Some(Labelled(ChildAdded(NidOf(p), k, name), typ, owned))
    else if CmdOf(p) == CMD_NODE_ATTACH then
      var (typ, name, k) := DecodeAttach(p);
      Some(Labelled(Attach(NidOf(p), k, name), typ, false))
    else if CmdOf(p) == CMD_SUBSCRIBE_ADD_REMOVE then Some(Labelled(Subscribe(NidOf(p)), [], false))
    else if CmdOf(p) == CMD_AT then Some(Labelled(At(NidOf(p), ReadString(p, 0).0), [], false))
    else if CmdOf(p) == CMD_PROP_GET_VALUE then Some(Labelled(GetValue(NidOf(p)), [], false))
    else None
  }

  predicate Sendable(m: Msg, typ: bytes) {
    && Fits(typ)
    && match m
       case ChildAdded(parent, k, name) => parent < TWO_64 && k < TWO_64 && Fits(name)
       case Attach(parent, k, name) => parent < TWO_64 && k < TWO_64 && Fits(name)
       case Subscribe(k) => k < TWO_64
       case At(k, name) => k < TWO_64 && Fits(name)
       case GetValue(k) => k < TWO_64
  }

  /** A message comes out of its package as it went in, through the padding that `send` adds. */
  lemma MsgRoundTrip(m: Msg, typ: bytes, owned: bool, pad: nat)
    requires Sendable(m, typ)
    ensures var r := ReadMsg(MsgBytes(m, typ, owned) + Zeros(pad));
      && r.Some? && r.value.msg == m
      && (m.ChildAdded? || m.Attach? ==> r.value.typ == typ)
      && (m.ChildAdded? ==> r.value.owned == owned)
  {
    var p := MsgBytes(m, typ, owned) + Zeros(pad);
    hide ReadString, DecodeChildAdded, DecodeAttach, NidOf, StringField, ChildAddedPayload, AttachPayload;
    match m {
      case ChildAdded(parent, k, name) =>
        ChildAddedRoundTrip(parent, k, name, typ, owned, pad);
        PaddedFields(CMD_CHILD_ADDED, parent, ChildAddedPayload(k, name, typ, owned), pad);
      case Attach(parent, k, name) =>
        AttachRoundTrip(parent, typ, name, k, pad);
        PaddedFields(CMD_NODE_ATTACH, parent, AttachPayload(typ, name, k), pad);
      case Subscribe(k) => PaddedFields(CMD_SUBSCRIBE_ADD_REMOVE, k, [], pad);
      case At(k, name) => NameRoundTrip(CMD_AT, k, name, pad);
      case GetValue(k) => PaddedFields(CMD_PROP_GET_VALUE, k, [], pad);
    }
  }

  function FramesFor(ms: seq<Msg>, typ: bytes, owned: bool): seq<bytes> {
    seq(|ms|, i requires 0 <= i < |ms| => FrameOf(Write(MsgBytes(ms[i], typ, owned))))
  }

  /** The bytes that messages about one node put on the stream. */
  function Wire(ms: seq<Msg>, typ: bytes, owned: bool): bytes { Stream(FramesFor(ms, typ, owned)) }

  lemma WireNothing(typ: bytes, owned: bool)
    ensures Wire([], typ, owned) == []
  {
  }

  lemma WireAppend(ms: seq<Msg>, ns: seq<Msg>, typ: bytes, owned: bool)
    ensures Wire(ms + ns, typ, owned) == Wire(ms, typ, owned) + Wire(ns, typ, owned)
  {
    hide MsgBytes, FrameOf, Stream;
    StreamAppend(FramesFor(ms, typ, owned), FramesFor(ns, typ, owned));
    assert FramesFor(ms + ns, typ, owned) == FramesFor(ms, typ, owned) + FramesFor(ns, typ, owned);
  }

  lemma WireOne(m: Msg, typ: bytes, owned: bool)
    ensures Wire([m], typ, owned) == Frame(WithWord(0, MsgBytes(m, typ, owned)))
  {
    hide MsgBytes, Frame, WithWord;
    var f := WithWord(0, MsgBytes(m, typ, owned));
    var fs := FramesFor([m], typ, owned);
    assert fs == [f] && fs[1..] == [];
    assert Stream(fs[1..]) == [];
    assert Frame(f) + [] == Frame(f);
  }

  lemma MsgFits(m: Msg, typ: bytes, owned: bool)
    requires Sendable(m, typ)
    ensures Writable(WithWord(0, MsgBytes(m, typ, owned)))
  {
  }

  lemma NidInRange(p: bytes, pos: nat)
    ensures ReadScalar(p, pos, 8) < TWO_64
  {
    Widths();
  }

  lemma AttachedNidInRange(p: bytes)
    ensures DecodeAttach(p).2 < TWO_64 && DecodeChildAdded(p).0 < TWO_64
  {
    hide ReadScalar;
    NidInRange(p, ReadString(p, ReadString(p, 0).1).1);
    NidInRange(p, 0);
  }

  /** A proxy is never announced to the peer it stands for. */
  lemma ProxyIsNotAnnounced(x: Side, p: Node, name: Name, n: Node, next: Nid)
    requires n in x.own
    ensures AttachNode(x, p, name, n, next).1 == [] && AttachNode(x, p, name, n, next).2 == next
  {
  }

  lemma SubscriptionOnly(k: Nid, typ: bytes, owned: bool)
    ensures [Subscribe(k)] + [] == [Subscribe(k)]
    ensures Wire([Subscribe(k)], typ, owned) == Wire([Subscribe(k)], [], false)
  {
    WireOne(Subscribe(k), typ, owned);
    WireOne(Subscribe(k), [], false);
  }

  /** What answering `p` puts on the stream: one reply under its id, if it is still to be answered. */
  function Answered(pending: map<Package, msgid>, p: Package, reply: bytes): bytes {
    if p in pending then Frame(WithWord(Flagged(pending[p]), reply)) else []
  }

  function UpdatedBytes(k: Nid, v: bytes): bytes {
    Frame(WithWord(0, MakePackage(CMD_PROP_VALUE_UPDATED, k, ValuePayload(v))))
  }

  // What each question is answered with.

  function AtReply(k: Nid, r: Option<Nid>, typ: bytes): bytes {
    if r.None? then MakePackage(CMD_AT_ERROR, k, []) else MakePackage(CMD_AT_SUCCESS, r.value, StringField(typ))
  }

  function LsReply(k: Nid, list: Option<seq<Name>>): bytes {
    if list.None? then MakePackage(CMD_LS_ERROR, k, []) else MakePackage(CMD_LS_SUCCESS, k, LsPayload(list.value))
  }

  function GetReply(k: Nid, v: Option<bytes>): bytes {
    if v.None? then MakePackage(CMD_PROP_GET_VALUE_ERROR, k, [])
      else MakePackage(CMD_PROP_GET_VALUE_SUCCESS, k, ValuePayload(v.value))
  }

  // And what its caller reads in that, through any padding.

  lemma AtReplyRead(k: Nid, r: Option<Nid>, typ: bytes, pad: nat)
    requires k < TWO_64 && (r.Some? ==> r.value < TWO_64) && Fits(typ)
    ensures var p := AtReply(k, r, typ) + Zeros(pad);
      && WellFormed(p) && (CmdOf(p) == CMD_AT_ERROR <==> r.None?)
      && (r.Some? ==> NidOf(p) == r.value && ReadString(p, 0).0 == typ)
  {
    hide ReadString, StringField;
    if r.None? {
      PaddedFields(CMD_AT_ERROR, k, [], pad);
    } else {
      NameRoundTrip(CMD_AT_SUCCESS, r.value, typ, pad);
    }
  }

  lemma LsReplyRead(k: Nid, list: Option<seq<Name>>, pad: nat)
    requires k < TWO_64
    requires list.Some? ==> |list.value| < TWO_32 && forall i :: 0 <= i < |list.value| ==> Short(list.value[i])
    ensures var p := LsReply(k, list) + Zeros(pad);
      WellFormed(p) && DecodeLs(p) == if list.Some? then list.value else []
  {
    hide ReadString, StringField, StringFields, ReadStrings, EncodeLE;
    if list.None? {
      PaddedFields(CMD_LS_ERROR, k, [], pad);
    } else {
      LsRoundTrip(k, list.value, pad);
    }
  }

  /** An error is read as an empty value. */
  lemma GetReplyRead(k: Nid, v: Option<bytes>, pad: nat)
    requires k < TWO_64 && (v.Some? ==> Fits(v.value))
    ensures ReadString(GetReply(k, v) + Zeros(pad), 0).0 == if v.Some? then v.value else []
  {
    hide ReadString, StringField;
    if v.None? {
      ErrorReplyIsEmptyValue(CMD_PROP_GET_VALUE_ERROR, k, pad);
    } else {
      ValueRoundTrip(CMD_PROP_GET_VALUE_SUCCESS, k, v.value, pad);
    }
  }

  /** The answer to GENERATE_NID is the nid. */
  lemma NidReplyRead(k: Nid, pad: nat)
    requires k < TWO_64
    ensures var p := MakePackage(0, k, []) + Zeros(pad); WellFormed(p) && NidOf(p) == k
  {
    PaddedFields(0, k, [], pad);
  }

  lemma TrackedIsFound(tracked: map<Nid, Node>, k: Nid)
    requires k in tracked
    ensures FindNid(tracked, tracked[k]).Some?
  {
    hide FindNid;
  }

  lemma ThreeAppended<T>(s: seq<T>, a: seq<T>, b: seq<T>, c: seq<T>)
    ensures s + a + b + c == s + (a + b + c)
  {
  }

  lemma SmallReply(cmd: byte, nid: nat, s: bytes)
    requires Fits(s)
    ensures Writable(WithWord(0, MakePackage(cmd, nid, StringField(s))))
  {
  }

  lemma AskingEmptyFits(cmd: byte, nid: nat)
    ensures WritablePackage(MakePackage(cmd, nid, []))
  {
  }

  lemma AskingFits(cmd: byte, nid: nat, s: bytes)
    requires Fits(s)
    ensures WritablePackage(MakePackage(cmd, nid, StringField(s)))
  {
  }

  lemma EmptyReply(cmd: byte, nid: nat)
    ensures Writable(WithWord(0, MakePackage(cmd, nid, [])))
  {
  }

  /** The commands that a caller waits on. GENERATE_NID is the fourth; it is answered before
      anything is queued. */
  predicate Question(cmd: byte) { cmd == CMD_AT || cmd == CMD_LS || cmd == CMD_PROP_GET_VALUE }

  predicate OfNodes(cmd: byte) {
    cmd == CMD_NODE_ATTACH || cmd == CMD_SUBSCRIBE_ADD_REMOVE || cmd == CMD_CHILD_ADDED
  }

  predicate OfValues(cmd: byte) {
    cmd == CMD_PROP_VALUE_UPDATED || cmd == CMD_SUBSCRIBE || cmd == CMD_UNSUBSCRIBE || cmd == CMD_PROP_SET_VALUE
  }

  /** The rule in Mirror for the message in a package; the peer's side plays no part in it. */
  lemma HandleIs(x: Side, next: Nid, p: bytes)
    requires WellFormed(p) && ReadMsg(p).Some?
    ensures var m := ReadMsg(p).value.msg; var t := Handle(Mirror.State(x, x, [], [], next), m);
      match m
      case ChildAdded(parent, k, name) => t.a == OnChildAdded(x, parent, k, name, next).0
        && t.next == OnChildAdded(x, parent, k, name, next).2
      case Attach(parent, k, name) => t.a == OnAttach(x, parent, k, name, next).0
        && t.next == OnAttach(x, parent, k, name, next).2
      case Subscribe(k) => t.a == OnSubscribe(x, k) && t.next == next
      case GetValue(k) => t.a == x && t.next == next
      case At(k, name) => t.a == OnAt(x, k, name, next).0 && t.next == OnAt(x, k, name, next).2
  {
    hide ReadMsg, OnChildAdded, OnAttach, OnAt;
  }

  /** The rule for the message makes a proxy. */
  predicate Makes(x: Side, m: Msg) {
    (m.Attach? && m.parent in x.tracked) || (m.ChildAdded? && m.parent in x.tracked && m.child !in x.tracked)
  }

  /** From these tables and this counter the rule for the message in a package, if any, leads to those; they stay
      if the rule would make a proxy of an unknown type. */
  ghost predicate AsRuled(x: Side, next: Nid, p: bytes, known: set<bytes>, x': Side, next': Nid)
    requires WellFormed(p)
  {
    var m := ReadMsg(p);
    m.Some? ==>
      if Makes(x, m.value.msg) && m.value.typ !in known then x' == x && next' == next
      else
        var t := Handle(Mirror.State(x, x, [], [], next), m.value.msg);
        x' == t.a && next' == t.next
  }

  /** Values are not the concern of any rule. */
  lemma NoRule(x: Side, next: Nid, p: bytes, known: set<bytes>)
    requires WellFormed(p) && (OfValues(CmdOf(p)) || (!Question(CmdOf(p)) && !OfNodes(CmdOf(p))))
    ensures AsRuled(x, next, p, known, x, next)
  {
    hide Handle, DecodeAttach, DecodeChildAdded, ReadString;
  }

  lemma QuestionRuled(x: Side, next: Nid, p: bytes, known: set<bytes>, x': Side, next': Nid)
    requires WellFormed(p) && Question(CmdOf(p))
    requires if CmdOf(p) == CMD_AT
      then x' == OnAt(x, NidOf(p), ReadString(p, 0).0, next).0 && next' == OnAt(x, NidOf(p), ReadString(p, 0).0, next).2
      else x' == x && next' == next
    ensures AsRuled(x, next, p, known, x', next')
  {
    if ReadMsg(p).Some? {
      HandleIs(x, next, p);
    }
    hide Handle, OnAt, ReadString, DecodeAttach, DecodeChildAdded;
  }

  /** What concerns values: those held, the notifications given, who is watched, entries without a node, what
      is receiving, and the bytes written. */
  datatype Store = Store(
    values: map<Node, bytes>, changes: seq<Node>, watched: set<Node>, nulls: set<Nid>, deserializing: set<Node>,
    out: bytes)

  function KindIn(types: map<Node, bytes>, n: Node): bytes { if n in types then types[n] else [] }

  /** Every other node is of the type and has the value that it had. */
  ghost predicate OthersKept(n: Node, types: map<Node, bytes>, values: map<Node, bytes>, types': map<Node, bytes>,
      values': map<Node, bytes>)
  {
    forall m :: m != n ==>
      && KindIn(types', m) == KindIn(types, m) && (m in values' <==> m in values)
      && (m in values' ==> values'[m] == values[m])
  }

  class NodeSync {
    const dev: RequestReplyDispatcher
    const source: NidSource
    const known: set<bytes>  // the types there is a factory for
    const root: Node
    var nodes: nat
    var edges: map<(Node, Name), Node>
    var tracked: map<Nid, Node>
    var nulls: set<Nid>           // entries without a node, left by a SET for an unknown nid
    var own: map<Node, Proxy>
    var listening: map<Node, Nid>
    var types: map<Node, bytes>   // of properties; any other node has the empty type
    var values: map<Node, bytes>  // of properties
    var watched: set<Node>        // properties whose changes the peer subscribed to
    var deserializing: set<Node>  // properties that are receiving a value
    var changes: seq<Node>        // notifications given to local listeners
    var owner: map<Node, Node>

    ghost function View(): Side
      reads this
    {
      Side(root, nodes, edges, tracked, own, listening, NoCalls)
    }

    ghost predicate Valid()
      reads this, source, dev, dev.codec, dev.incoming, dev.pending.Keys, dev.transport
    {
      && dev.Valid() && dev.transport.whole
      && source.next <= TWO_64
      && (forall k :: k in tracked ==> k < TWO_64) && nulls !! tracked.Keys
      && (forall n :: n in own ==> own[n].nid < TWO_64)
      && (forall n :: n in types ==> Fits(types[n]))
    }

    ghost function Stored(): Store
      reads this, dev.transport
    {
      Store(values, changes, watched, nulls, deserializing, dev.transport.stream)
    }

    function TypeOf(n: Node): bytes
      reads this`types
    {
      KindIn(types, n)
    }

    predicate OwnedBy(n: Node, p: Node)
      reads this
    {
      n in owner && owner[n] == p
    }

    /** The node is of that type, a property without a value yet exactly if the type is not empty. */
    predicate Made(n: Node, typ: bytes)
      reads this`types, this`values
    {
      TypeOf(n) == typ && (n in values <==> typ != []) && (n in values ==> values[n] == [])
    }

    constructor (dev: RequestReplyDispatcher, source: NidSource, known: set<bytes>, root: Node, nodes: nat,
        edges: map<(Node, Name), Node>)
      requires dev.Valid() && dev.transport.whole && source.next <= TWO_64
      ensures Valid() && this.dev == dev && this.source == source && this.known == known
      ensures View() == Side(root, nodes, edges, map[], map[], map[], NoCalls)
      ensures types == map[] && owner == map[] && Stored() == Store(map[], [], {}, {}, {}, dev.transport.stream)
    {
      this.dev, this.source, this.known := dev, source, known;
      this.root, this.nodes, this.edges := root, nodes, edges;
      tracked, own, listening, types, values, owner, watched := map[], map[], map[], map[], map[], map[], {};
      nulls, deserializing, changes := {}, {}, [];
    }

    // ---------- Tracking ----------

    /** The entries are searched in nid order. */
    method Search(n: Node) returns (found: Option<Nid>)
      ensures found == FindNid(tracked, n)
    {
      var rest := tracked;
      while rest != map[]
        invariant FindNid(tracked, n) == FindNid(rest, n)
        decreases |rest|
      {
        var j := FirstKey(rest);
        if rest[j] == n {
          return Some(j);
        }
        assert |rest - {j}| < |rest| by { assert (rest - {j}).Keys == rest.Keys - {j}; }
        rest := rest - {j};
      }
      return None;
    }

    /** A node that is not found is tracked under a new nid. */
    method GetNid(n: Node) returns (k: Nid)
      requires Valid() && source.next < TWO_64
      modifies this`tracked, this`nulls, source
      ensures Valid() && k < TWO_64 && old(source.next) <= source.next <= old(source.next) + 1
      ensures nulls == old(nulls) - tracked.Keys && old(tracked).Keys <= tracked.Keys
      ensures (k, View(), source.next) == Mirror.GetNid(old(View()), n, old(source.next))
    {
      hide FindNid;
      var found := Search(n);
      if found.Some? {
        return found.value;
      }
      k := source.Draw();
      DoTrack(n, k);
    }

    method DoTrack(n: Node, k: Nid)
      modifies this`tracked, this`nulls
      ensures tracked == old(tracked)[k := n] && nulls == old(nulls) - {k}
    {
      tracked, nulls := tracked[k := n], nulls - {k};
    }

    /** The server's side of a new connection: the root takes the first nid drawn. */
    method SetRoot()
      requires Valid() && source.next < TWO_64
      modifies this`tracked, this`nulls, source
      ensures Valid() && source.next == old(source.next) + 1
      ensures View() == old(View()).(tracked := old(tracked)[old(source.next) := root])
    {
      var k := source.Draw();
      DoTrack(root, k);
    }

    /** The client's side: the root is bound to nid 0, the server's root is subscribed to, and the
        client listens to its own. */
    method StreamOpened()
      requires Valid()
      modifies this`tracked, this`nulls, this`listening, dev.transport
      ensures Valid()
      ensures View() == old(View()).(tracked := old(tracked)[0 := root], listening := old(listening)[root := 0])
      ensures dev.transport.stream == old(dev.transport.stream) + Wire([Subscribe(0)], [], false)
    {
      DoTrack(root, 0);
      SubscribeAddRemove(0);
      listening := listening[root := 0];
    }

    // ---------- Messages out ----------

    method WriteOut(p: Package, ghost m: Msg, ghost typ: bytes, ghost owned: bool)
      requires Valid() && p.Valid() && Sendable(m, typ) && p.data == MsgBytes(m, typ, owned)
      modifies dev.transport
      ensures Valid() && dev.transport.stream == old(dev.transport.stream) + Wire([m], typ, owned)
    {
      MsgFits(m, typ, owned);
      WireOne(m, typ, owned);
      hide MsgBytes, Wire, WithWord, Frame;
      var _ := dev.Write(p);
    }

    method SubscribeAddRemove(k: Nid)
      requires Valid() && k < TWO_64
      modifies dev.transport
      ensures Valid() && dev.transport.stream == old(dev.transport.stream) + Wire([Subscribe(k)], [], false)
    {
      var p := NewPackage(CMD_SUBSCRIBE_ADD_REMOVE, k);
      WriteOut(p, Subscribe(k), [], false);
    }

    /** The listener's `child_added`, once the tree has a new child: the peer is told, unless the child
        is a proxy of its own node. */
    method ChildAdded(p: Node, name: Name, n: Node)
      requires Valid() && source.next + 1 < TWO_64 && Fits(name)
      modifies this`tracked, this`nulls, source, dev.transport
      ensures Valid() && old(source.next) <= source.next <= old(source.next) + 2
      ensures nulls == old(nulls) - tracked.Keys && old(tracked).Keys <= tracked.Keys
      ensures n !in own ==>
        var (x, ms, next) := TellAdded(old(View()), p, name, n, old(source.next));
        && View() == x && source.next == next
        && dev.transport.stream == old(dev.transport.stream) + Wire(ms, TypeOf(n), OwnedBy(n, p))
      ensures n in own ==>
        && dev.transport.stream == old(dev.transport.stream)
        && if p in listening then (View(), source.next) == (Mirror.GetNid(old(View()), p, old(source.next)).1,
             Mirror.GetNid(old(View()), p, old(source.next)).2)
           else View() == old(View()) && source.next == old(source.next)
    {
      WireNothing(TypeOf(n), OwnedBy(n, p));
      if p !in listening {
        return;
      }
      var parent := GetNid(p);
      if n in own {
        return;
      }
      var k := GetNid(n);
      hide Wire, Mirror.GetNid;
      var pack := EncodeChildAdded(parent, k, name, TypeOf(n), OwnedBy(n, p));
      WriteOut(pack, Mirror.ChildAdded(parent, k, name), TypeOf(n), OwnedBy(n, p));
    }

    /** `attach` of a proxy's new child: the peer is asked to attach it too. */
    method TellPeer(p: Node, name: Name, n: Node)
      requires Valid() && source.next < TWO_64 && Fits(name) && n !in own
      modifies this`tracked, this`nulls, source, dev.transport
      ensures Valid() && old(source.next) <= source.next <= old(source.next) + 1
      ensures nulls == old(nulls) - tracked.Keys && old(tracked).Keys <= tracked.Keys
      ensures var (x, ms, next) := TellAttach(old(View()), p, name, n, old(source.next));
        && View() == x && source.next == next
        && dev.transport.stream == old(dev.transport.stream) + Wire(ms, TypeOf(n), OwnedBy(n, p))
    {
      WireNothing(TypeOf(n), OwnedBy(n, p));
      if p !in own {
        return;
      }
      var k := GetNid(n);
      hide Wire, Mirror.GetNid;
      var pack := EncodeAttach(own[p].nid, TypeOf(n), name, k);
      WriteOut(pack, Mirror.Attach(own[p].nid, k, name), TypeOf(n), OwnedBy(n, p));
    }

    /** Both calls that a new child under `p` may cause. */
    method Announce(p: Node, name: Name, n: Node)
      requires Valid() && source.next + 2 < TWO_64 && Fits(name) && n !in own
      modifies this`tracked, this`nulls, source, dev.transport
      ensures Valid() && old(source.next) <= source.next <= old(source.next) + 3
      ensures nulls == old(nulls) - tracked.Keys && old(tracked).Keys <= tracked.Keys
      ensures var (x2, m2, next2) := TellAdded(old(View()), p, name, n, old(source.next));
        var (x3, m3, next3) := TellAttach(x2, p, name, n, next2);
        && View() == x3 && source.next == next3
        && dev.transport.stream == old(dev.transport.stream) + Wire(m2 + m3, TypeOf(n), OwnedBy(n, p))
    {
      hide Wire, TellAdded, TellAttach;
      ghost var sent := dev.transport.stream;
      ChildAdded(p, name, n);
      ghost var x2, next2 := View(), source.next;
      TellPeer(p, name, n);
      ghost var m2, m3 := TellAdded(old(View()), p, name, n, old(source.next)).1, TellAttach(x2, p, name, n, next2).1;
      WireAppend(m2, m3, TypeOf(n), OwnedBy(n, p));
      AppendAssoc(sent, Wire(m2, TypeOf(n), OwnedBy(n, p)), Wire(m3, TypeOf(n), OwnedBy(n, p)));
    }

    /** A node is hung under a name of the tree; its listeners and its proxy's connection hear of it. */
    method AttachTo(p: Node, name: Name, n: Node)
      requires Valid() && source.next + 2 < TWO_64 && Fits(name)
      modifies this`tracked, this`nulls, this`edges, source, dev.transport
      ensures Valid() && old(source.next) <= source.next
      ensures nulls == old(nulls) - tracked.Keys && old(tracked).Keys <= tracked.Keys
      ensures var (x, ms, next) := AttachNode(old(View()), p, name, n, old(source.next));
        && View() == x && source.next == next
        && dev.transport.stream == old(dev.transport.stream) + Wire(ms, TypeOf(n), OwnedBy(n, p))
    {
      WireNothing(TypeOf(n), OwnedBy(n, p));
      hide Wire, TellAdded, TellAttach;
      if (p, name) in edges {
        return;
      }
      edges := edges[(p, name) := n];
      if n in own {
        return;
      }
      Announce(p, name, n);
    }

    /** The application attaches a new node, a property if its type is not empty: what Mirror calls
        AppAttach. */
    method AppAttach(p: Node, name: Name, typ: bytes, value: bytes) returns (n: Node)
      requires Valid() && source.next + 2 < TWO_64 && Fits(name) && Fits(typ)
      modifies this`nodes, this`tracked, this`nulls, this`edges, this`types, this`values, source, dev.transport
      ensures Valid() && n == old(nodes) && TypeOf(n) == typ && (n in values <==> typ != [])
      ensures nulls == old(nulls) - tracked.Keys && old(tracked).Keys <= tracked.Keys
      ensures (n in values ==> values[n] == value) && OthersKept(n, old(types), old(values), types, values)
      ensures var (x, ms, next) := AttachNode(NewNode(old(View())), p, name, n, old(source.next));
        && View() == x && source.next == next
        && dev.transport.stream == old(dev.transport.stream) + Wire(ms, typ, OwnedBy(n, p))
    {
      hide Wire, AttachNode;
      n := nodes;
      nodes := nodes + 1;
      SetType(n, typ, value);
      AttachTo(p, name, n);
    }

    method SetType(n: Node, typ: bytes, value: bytes)
      requires Fits(typ)
      modifies this`types, this`values
      ensures TypeOf(n) == typ && (n in values <==> typ != []) && (n in values ==> values[n] == value)
      ensures forall m :: m != n ==> (m in types <==> m in old(types)) && (m in types ==> types[m] == old(types)[m])
      ensures forall m :: m != n ==>
        (m in values <==> m in old(values)) && (m in values ==> values[m] == old(values)[m])
      ensures n in types ==> Fits(types[n])
    {
      if typ != [] {
        types, values := types[n := typ], values[n := value];
      } else {
        types, values := types - {n}, values - {n};
      }
    }

    // ---------- Commands ----------

    function GetNode(k: Nid): Option<Node>
      reads this
    {
      if k in tracked then Some(tracked[k]) else None
    }

    /** A proxy for the peer's node `k` is made and tracked. */
    method Generate(k: Nid, parent: Nid, name: Name, typ: bytes) returns (n: Node)
      requires Valid() && k < TWO_64 && Fits(typ)
      modifies this`nodes, this`own, this`types, this`values, this`tracked, this`nulls
      ensures Valid() && n == old(nodes) && View() == NewProxy(old(View()), k, parent, name)
      ensures nulls == old(nulls) - tracked.Keys && old(tracked).Keys <= tracked.Keys
      ensures Made(n, typ) && OthersKept(n, old(types), old(values), types, values)
    {
      n := nodes;
      nodes := nodes + 1;
      own := own[n := Proxy(k, parent, name)];
      SetType(n, typ, []);
      DoTrack(n, k);
    }

    /** The proxy is hung up first and subscribed to then. */
    method LearnAttached(parentNid: Nid, parent: Node, k: Nid, name: Name, typ: bytes)
      requires Valid() && k < TWO_64 && Fits(typ) && Fits(name) && source.next + 2 < TWO_64
      modifies this`nodes, this`own, this`types, this`values, this`tracked, this`nulls, this`edges, source,
        dev.transport
      ensures Valid() && Made(old(nodes), typ) && OthersKept(old(nodes), old(types), old(values), types, values)
      ensures nulls == old(nulls) - tracked.Keys && old(tracked).Keys <= tracked.Keys
      ensures (View(), [], source.next)
        == AttachNode(NewProxy(old(View()), k, parentNid, name), parent, name, old(nodes), old(source.next))
      ensures dev.transport.stream == old(dev.transport.stream) + Wire([Subscribe(k)], [], false)
    {
      hide Wire, AttachNode;
      var n := Generate(k, parentNid, name, typ);
      ProxyIsNotAnnounced(View(), parent, name, n, source.next);
      WireNothing(TypeOf(n), OwnedBy(n, parent));
      AttachTo(parent, name, n);
      SubscribeAddRemove(k);
    }

    /** ATTACH: the peer hung a node of its own under its proxy; a proxy of that node is hung under
        the original, and its children are subscribed to. */
    method CmdAttach(p: Package)
      requires Valid() && p.Valid() && source.next + 2 < TWO_64 && NidOf(p.data) !in nulls
      requires var (typ, name, _) := DecodeAttach(p.data); Fits(typ) && Fits(name)
      modifies this`nodes, this`own, this`types, this`values, this`tracked, this`nulls, this`edges, source,
        dev.transport
      ensures Valid()
      ensures nulls == old(nulls) - tracked.Keys && old(tracked).Keys <= tracked.Keys
      ensures if old(GetNode(NidOf(p.data))).Some? && DecodeAttach(p.data).0 in known
        then Made(old(nodes), DecodeAttach(p.data).0) && OthersKept(old(nodes), old(types), old(values), types, values)
        else unchanged(this) && unchanged(source) && unchanged(dev.transport)
      ensures var (typ, name, k) := DecodeAttach(p.data);
        var (x, ms, next) := OnAttach(old(View()), NidOf(p.data), k, name, old(source.next));
        if typ in known then
          && View() == x && source.next == next
          && dev.transport.stream == old(dev.transport.stream) + Wire(ms, [], false)
        else unchanged(this) && unchanged(source) && unchanged(dev.transport)
    {
      hide Wire, AttachNode, ReadString, Made, OthersKept;
      var found := GetNode(p.GetNid());
      if found.None? {
        WireNothing([], false);
        return;
      }
      var typ, name, k := ReadAttach(p);
      if typ !in known {
        return;
      }
      AttachedNidInRange(p.data);
      hide DecodeAttach;
      var parent := found.value;
      assert [] + [Subscribe(k)] == [Subscribe(k)];
      LearnAttached(p.GetNid(), parent, k, name, typ);
    }

    method LearnChild(parentNid: Nid, parent: Node, k: Nid, name: Name, typ: bytes) returns (n: Node)
      requires Valid() && k < TWO_64 && Fits(typ) && Fits(name) && source.next + 2 < TWO_64
      modifies this`nodes, this`own, this`types, this`values, this`tracked, this`nulls, this`edges, source,
        dev.transport
      ensures Valid() && n == old(nodes) && Made(n, typ) && OthersKept(n, old(types), old(values), types, values)
      ensures nulls == old(nulls) - tracked.Keys && old(tracked).Keys <= tracked.Keys
      ensures (View(), [], source.next)
        == AttachNode(NewProxy(old(View()), k, parentNid, name), parent, name, old(nodes), old(source.next))
      ensures dev.transport.stream == old(dev.transport.stream) + Wire([Subscribe(k)], [], false)
    {
      hide Wire, AttachNode;
      n := Generate(k, parentNid, name, typ);
      ProxyIsNotAnnounced(View(), parent, name, n, source.next);
      WireNothing(TypeOf(n), OwnedBy(n, parent));
      SubscribeAddRemove(k);
      AttachTo(parent, name, n);
    }

    /** The child, made a proxy if it is not tracked yet, is hung under its parent. */
    method HangChild(parentNid: Nid, parent: Node, k: Nid, name: Name, typ: bytes) returns (r: Option<Node>)
      requires Valid() && k < TWO_64 && Fits(typ) && Fits(name) && source.next + 2 < TWO_64
      requires parentNid in tracked && tracked[parentNid] == parent
      modifies this`nodes, this`own, this`types, this`values, this`tracked, this`nulls, this`edges, source,
        dev.transport
      ensures Valid()
      ensures nulls == old(nulls) - tracked.Keys && old(tracked).Keys <= tracked.Keys
      ensures r == if k in old(tracked) then Some(old(tracked)[k]) else if typ in known then Some(old(nodes)) else None
      ensures if k !in old(tracked) && typ in known
        then Made(old(nodes), typ) && OthersKept(old(nodes), old(types), old(values), types, values)
        else unchanged(this`types) && unchanged(this`values)
      ensures var (x, ms, next) := OnChildAdded(old(View()), parentNid, k, name, old(source.next));
        if r.Some? then
          && View() == x && source.next == next
          && dev.transport.stream
               == old(dev.transport.stream) + Wire(ms, old(TypeOf(r.value)), old(OwnedBy(r.value, parent)))
        else unchanged(this) && unchanged(source) && unchanged(dev.transport)
    {
      hide Wire, AttachNode, Made, OthersKept;
      var found := GetNode(k);
      if found.None? {
        if typ !in known {
          return None;
        }
        var n := LearnChild(parentNid, parent, k, name, typ);
        SubscriptionOnly(k, old(TypeOf(n)), old(OwnedBy(n, parent)));
        return Some(n);
      }
      AttachTo(parent, name, found.value);
      return found;
    }

    method SetOwner(n: Node, parent: Node)
      requires Valid()
      modifies this`owner
      ensures Valid() && View() == old(View()) && owner == old(owner)[n := parent]
    {
      owner := owner[n := parent];
    }

    /** CHILD_ADDED: a node that is not tracked yet becomes a proxy whose children are subscribed to;
        either way it is hung where the peer has it, and owned by its parent if it is so there. */
    method CmdChildAdded(p: Package)
      requires Valid() && p.Valid() && source.next + 2 < TWO_64
      requires var (_, name, typ, _) := DecodeChildAdded(p.data); Fits(typ) && Fits(name)
      modifies this`nodes, this`own, this`types, this`values, this`tracked, this`nulls, this`edges, this`owner, source,
        dev.transport
      ensures Valid()
      ensures nulls == old(nulls) - tracked.Keys && old(tracked).Keys <= tracked.Keys
      ensures var (k, _, typ, _) := DecodeChildAdded(p.data);
        if old(GetNode(NidOf(p.data))).Some? && k !in old(tracked) && typ in known
        then Made(old(nodes), typ) && OthersKept(old(nodes), old(types), old(values), types, values)
        else unchanged(this`types) && unchanged(this`values)
      ensures var (k, name, typ, owned) := DecodeChildAdded(p.data); var parent := old(GetNode(p.GetNid()));
        var n := if k in old(tracked) then old(tracked)[k] else old(nodes);
        var (x, ms, next) := OnChildAdded(old(View()), NidOf(p.data), k, name, old(source.next));
        if parent.Some? && (k in old(tracked) || typ in known) then
          && View() == x && source.next == next
          && dev.transport.stream == old(dev.transport.stream) + Wire(ms, old(TypeOf(n)), old(OwnedBy(n, parent.value)))
          && owner == (if owned then old(owner)[n := parent.value] else old(owner))
        else unchanged(this) && unchanged(source) && unchanged(dev.transport)
    {
      hide Wire, ReadString, Made, OthersKept, Fits;
      var foundParent := GetNode(p.GetNid());
      if foundParent.None? {
        return;
      }
      var k, name, typ, isParent := ReadChildAdded(p);
      AttachedNidInRange(p.data);
      hide DecodeChildAdded, OnChildAdded;
      var hung := HangChild(p.GetNid(), foundParent.value, k, name, typ);
      if hung.Some? && isParent {
        SetOwner(hung.value, foundParent.value);
      }
    }

    method CmdSubscribeAddRemove(p: Package)
      requires Valid() && p.Valid() && NidOf(p.data) !in nulls
      modifies this`listening
      ensures Valid() && View() == OnSubscribe(old(View()), NidOf(p.data))
    {
      var found := GetNode(p.GetNid());
      if found.Some? {
        listening := listening[found.value := p.GetNid()];
      }
    }

    // ---------- Questions: every branch answers, once ----------

    /** The type of the child that an AT asks for. */
    function ChildType(k: Nid, name: Name): bytes
      reads this
    {
      if k in tracked && (tracked[k], name) in edges then TypeOf(edges[(tracked[k], name)]) else []
    }

    /** The value of a node that is known and a property. */
    function PropValue(k: Nid): Option<bytes>
      reads this
    {
      if k in tracked && tracked[k] in values then Some(values[tracked[k]]) else None
    }

    method Answer(p: Package, rep: Package)
      requires Valid() && rep.Valid() && Writable(WithWord(0, rep.data))
      modifies dev`pending, dev.transport
      ensures Valid() && dev.pending == old(dev.pending) - {p}
      ensures dev.transport.stream == old(dev.transport.stream) + Answered(old(dev.pending), p, rep.data)
    {
      hide WithWord, Frame, Flagged;
      var _ := dev.Reply(p, rep);
      assert p !in old(dev.pending) ==> dev.transport.stream + [] == dev.transport.stream;
    }

    /** AT: an error if the node or the child is unknown; otherwise the child's nid, given to it now
        if need be, and its type. */
    method CmdAt(p: Package)
      requires Valid() && p.Valid() && source.next < TWO_64
      modifies this`tracked, this`nulls, source, dev`pending, dev.transport
      ensures Valid() && dev.pending == old(dev.pending) - {p}
      ensures nulls == old(nulls) - tracked.Keys && old(tracked).Keys <= tracked.Keys
      ensures var k, name := NidOf(p.data), ReadString(p.data, 0).0;
        var (x, r, next) := OnAt(old(View()), k, name, old(source.next));
        && View() == x && source.next == next
        && dev.transport.stream == old(dev.transport.stream) + Answered(old(dev.pending), p,
          AtReply(k, r, old(ChildType(k, name))))
    {
      hide Answered, Mirror.GetNid, ReadString, MakePackage, StringField;
      var t := GetNode(p.GetNid());
      var resp;
      if t.None? {
        resp := NewPackage(CMD_AT_ERROR, p.GetNid());
      } else {
        var path, _ := p.GetString(0);
        if (t.value, path) !in edges {
          resp := NewPackage(CMD_AT_ERROR, p.GetNid());
        } else {
          var n := edges[(t.value, path)];
          var nid := GetNid(n);
          resp := EncodeName(CMD_AT_SUCCESS, nid, TypeOf(n));
          SmallReply(CMD_AT_SUCCESS, nid, TypeOf(n));
        }
      }
      EmptyReply(CMD_AT_ERROR, p.GetNid());
      Answer(p, resp);
    }

    /** Each child's name, once, in the order that the tree lists them in. */
    predicate Lists(list: seq<Name>, n: Node)
      reads this
    {
      && (forall i, j :: 0 <= i < j < |list| ==> list[i] != list[j])
      && (forall i :: 0 <= i < |list| ==> (n, list[i]) in edges)
      && (forall e :: e in edges && e.0 == n ==> e.1 in list)
    }

    /** LS: the names of the node's children. */
    method CmdLs(p: Package, list: seq<Name>)
      requires Valid() && p.Valid() && (GetNode(NidOf(p.data)).Some? ==> Lists(list, GetNode(NidOf(p.data)).value))
      requires (forall i :: 0 <= i < |list| ==> Short(list[i])) && |StringFields(list)| < 0x7fff_0000
      modifies dev`pending, dev.transport
      ensures Valid() && dev.pending == old(dev.pending) - {p}
      ensures dev.transport.stream == old(dev.transport.stream) + Answered(old(dev.pending), p,
        LsReply(NidOf(p.data), if NidOf(p.data) in tracked then Some(list) else None))
    {
      hide Answered;
      var nid := p.GetNid();
      var resp;
      if GetNode(nid).None? {
        resp := NewPackage(CMD_LS_ERROR, nid);
      } else {
        resp := CmdLsReply(nid, list);
      }
      Answer(p, resp);
    }

    /** GET: the value, if the node is known and a property. */
    method CmdGetProp(p: Package)
      requires Valid() && p.Valid() && forall n :: n in values ==> Fits(values[n])
      modifies dev`pending, dev.transport
      ensures Valid() && dev.pending == old(dev.pending) - {p}
      ensures dev.transport.stream == old(dev.transport.stream)
        + Answered(old(dev.pending), p, GetReply(NidOf(p.data), PropValue(NidOf(p.data))))
    {
      hide Answered;
      var nid := p.GetNid();
      var found := GetNode(nid);
      var resp;
      if found.None? || found.value !in values {
        resp := NewPackage(CMD_PROP_GET_VALUE_ERROR, nid);
      } else {
        resp := EncodeName(CMD_PROP_GET_VALUE_SUCCESS, nid, values[found.value]);
      }
      Answer(p, resp);
    }

    /** GENERATE_NID is answered with the next nid, before anything is queued. */
    method ProcessNotification(p: Package) returns (queued: bool)
      requires Valid() && p.Valid() && source.next < TWO_64
      modifies source, dev`pending, dev.transport
      ensures Valid() && queued == (CmdOf(p.data) != CMD_GENERATE_NID)
      ensures queued ==> unchanged(source) && unchanged(dev) && unchanged(dev.transport)
      ensures !queued ==>
        && source.next == old(source.next) + 1 && dev.pending == old(dev.pending) - {p}
        && dev.transport.stream == old(dev.transport.stream) + Answered(old(dev.pending), p,
          MakePackage(0, old(source.next), []))
    {
      hide Answered;
      if p.GetCmd() == CMD_GENERATE_NID {
        var k := source.Draw();
        var rep := NewPackage(0, k);
        Answer(p, rep);
        return false;
      }
      return true;
    }

    // ---------- Properties ----------

    /** SUBSCRIBE and UNSUBSCRIBE. */
    method CmdSubscribe(p: Package, erase: bool)
      requires Valid() && p.Valid()
      modifies this`watched
      ensures Valid()
      ensures watched == match GetNode(NidOf(p.data))
        case None => old(watched)
        case Some(n) => if n !in values then old(watched) else if erase then old(watched) - {n} else old(watched) + {n}
    {
      var found := GetNode(p.GetNid());
      if found.None? || found.value !in values {
        return;
      }
      watched := if erase then watched - {found.value} else watched + {found.value};
    }

    /** The listener's `updated`: the value goes to the peer under the first nid of the node. */
    method Updated(n: Node)
      requires Valid() && n in values && Fits(values[n]) && FindNid(tracked, n).Some?
      modifies dev.transport
      ensures Valid()
      ensures dev.transport.stream == old(dev.transport.stream) + UpdatedBytes(FindNid(tracked, n).value, values[n])
    {
      hide FindNid, Frame, WithWord, MakePackage, StringField;
      var nid := Search(n);
      var resp := EncodeName(CMD_PROP_VALUE_UPDATED, nid.value, values[n]);
      SmallReply(CMD_PROP_VALUE_UPDATED, nid.value, values[n]);
      var _ := dev.Write(resp);
    }

    /** A proxy's value goes to the owner, unless it has no bytes. */
    method RequestPropSetValue(n: Node)
      requires Valid() && n in own && n in values && Fits(values[n])
      modifies dev.transport
      ensures Valid()
      ensures dev.transport.stream == old(dev.transport.stream)
        + if values[n] == [] then [] else Frame(WithWord(0, MakePackage(CMD_PROP_SET_VALUE, own[n].nid, values[n])))
    {
      hide Frame;
      if |values[n]| == 0 {
        return;
      }
      var req := NewPackage(CMD_PROP_SET_VALUE, own[n].nid);
      req.Append(values[n]);
      assert req.data == MakePackage(CMD_PROP_SET_VALUE, own[n].nid, values[n]);
      var _ := dev.Write(req);
    }

    /** `subscribe`, which a proxy calls for its first listener. */
    method SubscribeProp(k: Nid)
      requires Valid() && k < TWO_64
      modifies dev.transport
      ensures Valid()
      ensures dev.transport.stream
        == old(dev.transport.stream) + Frame(WithWord(0, MakePackage(CMD_SUBSCRIBE, k, [])))
    {
      hide Frame, WithWord;
      var req := NewPackage(CMD_SUBSCRIBE, k);
      EmptyReply(CMD_SUBSCRIBE, k);
      var _ := dev.Write(req);
    }

    /** `unsubscribe`, which it calls when the last one has left. */
    method UnsubscribeProp(k: Nid)
      requires Valid() && k < TWO_64
      modifies dev.transport
      ensures Valid()
      ensures dev.transport.stream
        == old(dev.transport.stream) + Frame(WithWord(0, MakePackage(CMD_UNSUBSCRIBE, k, [])))
    {
      hide Frame, WithWord;
      var req := NewPackage(CMD_UNSUBSCRIBE, k);
      EmptyReply(CMD_UNSUBSCRIBE, k);
      var _ := dev.Write(req);
    }

    /** The question of `update_prop`, unless a property of the connection is being received, or the nid is not
        that of a proxy of a property. */
    method StartRead(k: Nid, receiving: bool) returns (id: Option<msgid>)
      requires Valid() && k < TWO_64
      modifies dev, dev.transport
      ensures Valid() && dev.pending == old(dev.pending)
      ensures id.Some? <==>
        !receiving && PropOf(k).Some? && PropOf(k).value in own && PropOf(k).value !in deserializing
      ensures id.None? ==> unchanged(dev) && unchanged(dev.transport)
      ensures id.Some? ==>
        && (id.value, dev.ids) == MessageIds.Generate(old(dev.ids)) && dev.notified == old(dev.notified)
        && dev.received == old(dev.received)[id.value := false]
        && dev.transport.stream
             == old(dev.transport.stream) + Frame(WithWord(id.value, Copied(MsgBytes(GetValue(k), [], false))))
    {
      hide Frame, WithWord, MessageIds.Generate;
      if receiving || k !in tracked {
        return None;
      }
      var n := tracked[k];
      if n !in own || n in deserializing || n !in values {
        return None;
      }
      var req := NewPackage(CMD_PROP_GET_VALUE, k);
      AskingEmptyFits(CMD_PROP_GET_VALUE, k);
      var ok, drawn := dev.BeginSend(req);
      return Some(drawn);
    }

    /** What `update_prop` does with the answer: it is stored as a value received, without a notification of
        its own; what a listener or another thread sets meanwhile is stored as well. */
    method TakeAnswer(n: Node, rep: Package, storingNotifies: bool, meanwhile: Option<bytes>)
      requires Valid() && rep.Valid() && n in own && n in values && n !in deserializing && FindNid(tracked, n).Some?
      requires Fits(ReadString(rep.data, 0).0) && (meanwhile.Some? ==> Fits(meanwhile.value))
      modifies this`values, this`changes, this`deserializing, dev.transport
      ensures Valid() && deserializing == old(deserializing)
      ensures values == old(values)[n := if meanwhile.Some? then meanwhile.value else ReadString(rep.data, 0).0]
      ensures !storingNotifies ==> changes == old(changes) && dev.transport.stream == old(dev.transport.stream)
      ensures storingNotifies ==>
        && changes == old(changes) + (if meanwhile.Some? then [n, n] else [n])
        && dev.transport.stream == old(dev.transport.stream) + old(ToldValue(n, ReadString(rep.data, 0).0))
             + (if meanwhile.Some? then old(ToldValue(n, meanwhile.value)) else [])
    {
      hide ReadString, UpdatedBytes, FindNid, Frame, ToldValue, Fits;
      deserializing := deserializing + {n};
      var v := ReadValue(rep);
      SetReceiving(n, v, storingNotifies);
      if meanwhile.Some? {
        SetReceiving(n, meanwhile.value, storingNotifies);
      }
      deserializing := deserializing - {n};
    }

    /** `notify_change`: the local listeners hear of it, and the peer, if it subscribed. */
    method NotifyChange(n: Node)
      requires Valid() && n in values && Fits(values[n]) && FindNid(tracked, n).Some?
      modifies this`changes, dev.transport
      ensures Valid() && changes == old(changes) + [n]
      ensures dev.transport.stream == old(dev.transport.stream) + ToldValue(n, values[n])
    {
      hide UpdatedBytes, FindNid;
      changes := changes + [n];
      if n in watched {
        Updated(n);
      }
    }

    /** What goes to the peer when the node has a new value. */
    function ToldValue(n: Node, v: bytes): bytes
      reads this`watched, this`tracked
      requires FindNid(tracked, n).Some?
    {
      if n in watched then UpdatedBytes(FindNid(tracked, n).value, v) else []
    }

    /** `set_value`: a proxy asks its owner to take the value, unless it is just receiving it. */
    method StoreValue(n: Node, v: bytes)
      requires Valid() && n in values && Fits(v)
      modifies this`values, dev.transport
      ensures Valid() && values == old(values)[n := v]
      ensures n !in own || n in deserializing ==> dev.transport.stream == old(dev.transport.stream)
      ensures n in own && n !in deserializing ==>
        dev.transport.stream == old(dev.transport.stream)
          + if v == [] then [] else Frame(WithWord(0, MakePackage(CMD_PROP_SET_VALUE, own[n].nid, v)))
    {
      values := values[n := v];
      if n in own && n !in deserializing {
        RequestPropSetValue(n);
      }
    }

    /** A property of this end gets a value, and notifies of it, twice if storing the value notifies by itself. */
    method Change(n: Node, v: bytes, storingNotifies: bool)
      requires Valid() && n in values && Fits(v) && FindNid(tracked, n).Some?
      modifies this`values, this`changes, dev.transport
      ensures Valid() && values == old(values)[n := v]
      ensures changes == old(changes) + if storingNotifies then [n, n] else [n]
      ensures dev.transport.stream == old(dev.transport.stream)
        + if storingNotifies then ToldValue(n, v) + ToldValue(n, v) else ToldValue(n, v)
    {
      hide UpdatedBytes, FindNid;
      values := values[n := v];
      if storingNotifies {
        NotifyChange(n);
      }
      NotifyChange(n);
    }

    /** SET: the owner takes the value and notifies, twice if storing a value of that type notifies
        by itself. A nid that is not tracked leaves an entry without a node. */
    method CmdPropValue(p: Package, storingNotifies: bool)
      requires Valid() && p.Valid() && Fits(p.data)
      modifies this`values, this`nulls, this`changes, dev.transport
      ensures Valid() && nulls == old(nulls) + (if NidOf(p.data) in tracked then {} else {NidOf(p.data)})
      ensures match GetNode(NidOf(p.data))
        case None => values == old(values) && changes == old(changes)
          && dev.transport.stream == old(dev.transport.stream)
        case Some(n) =>
          var v := DecodeSet(p.data);
          if n !in old(values) then
            values == old(values) && changes == old(changes) && dev.transport.stream == old(dev.transport.stream)
          else
            && values == old(values)[n := v] && changes == old(changes) + (if storingNotifies then [n, n] else [n])
            && dev.transport.stream
                 == old(dev.transport.stream) + (if storingNotifies then ToldValue(n, v) + ToldValue(n, v)
                   else ToldValue(n, v))
    {
      hide UpdatedBytes, FindNid;
      var nid := p.GetNid();
      if nid !in tracked {
        nulls := nulls + {nid};
        return;
      }
      var n := tracked[nid];
      if n !in values {
        return;
      }
      TrackedIsFound(tracked, nid);
      Change(n, p.data[HEADER_SIZE..], storingNotifies);
    }

    /** `set_value` of a proxy that is receiving: nothing is sent, and storing may notify by itself. */
    method SetReceiving(n: Node, v: bytes, storingNotifies: bool)
      requires Valid() && n in own && n in values && n in deserializing && Fits(v) && FindNid(tracked, n).Some?
      modifies this`values, this`changes, dev.transport
      ensures Valid() && values == old(values)[n := v]
      ensures changes == old(changes) + if storingNotifies then [n] else []
      ensures dev.transport.stream == old(dev.transport.stream) + if storingNotifies then ToldValue(n, v) else []
    {
      hide UpdatedBytes, FindNid, Frame;
      StoreValue(n, v);
      if storingNotifies {
        NotifyChange(n);
      }
    }

    /** The value received is stored, and the listeners are notified, twice if storing notifies by itself. */
    method StoreReceived(n: Node, v: bytes, storingNotifies: bool)
      requires Valid() && n in own && n in values && n in deserializing && Fits(v) && FindNid(tracked, n).Some?
      modifies this`values, this`changes, dev.transport
      ensures Valid() && values == old(values)[n := v]
      ensures changes == old(changes) + (if storingNotifies then [n] else []) + [n]
      ensures dev.transport.stream
        == old(dev.transport.stream) + (if storingNotifies then ToldValue(n, v) else []) + ToldValue(n, v)
    {
      hide UpdatedBytes, FindNid, Frame, ToldValue;
      SetReceiving(n, v, storingNotifies);
      NotifyChange(n);
    }

    /** All of it; what a listener then sets the proxy to (`meanwhile`) is stored as well. */
    method Receive(n: Node, v: bytes, storingNotifies: bool, meanwhile: Option<bytes>)
      requires Valid() && n in own && n in values && n !in deserializing && FindNid(tracked, n).Some?
      requires Fits(v) && (meanwhile.Some? ==> Fits(meanwhile.value))
      modifies this`values, this`changes, this`deserializing, dev.transport
      ensures Valid() && deserializing == old(deserializing)
      ensures values == old(values)[n := if meanwhile.Some? then meanwhile.value else v]
      ensures changes == old(changes) + Times(n, storingNotifies, meanwhile.Some?)
      ensures dev.transport.stream == old(dev.transport.stream) + ReceiptTold(n, v, storingNotifies, meanwhile)
    {
      hide UpdatedBytes, FindNid, Frame, ToldValue, Fits;
      deserializing := deserializing + {n};
      StoreReceived(n, v, storingNotifies);
      if meanwhile.Some? {
        SetReceiving(n, meanwhile.value, storingNotifies);
      }
      deserializing := deserializing - {n};
      ghost var first := if storingNotifies then [n] else [];
      ghost var third := if storingNotifies && meanwhile.Some? then [n] else [];
      ThreeAppended(old(changes), first, [n], third);
      ghost var told := if storingNotifies then old(ToldValue(n, v)) else [];
      ghost var again := if storingNotifies && meanwhile.Some? then old(ToldValue(n, meanwhile.value)) else [];
      ThreeAppended(old(dev.transport.stream), told, old(ToldValue(n, v)), again);
    }

    /** The notifications for a value received, and for one that the proxy is set to on that. */
    function Times(n: Node, storingNotifies: bool, again: bool): seq<Node> {
      (if storingNotifies then [n] else []) + [n] + (if storingNotifies && again then [n] else [])
    }

    /** The listeners hear of a value at least once, and of it only. */
    lemma ListenersHear(n: Node, storingNotifies: bool, again: bool)
      ensures n in Times(n, storingNotifies, again) && forall m :: m in Times(n, storingNotifies, again) ==> m == n
      ensures |Times(n, storingNotifies, again)|
        == 1 + (if storingNotifies then 1 else 0) + if storingNotifies && again then 1 else 0
    {
    }

    /** What the peer is told of it, if it watches the proxy: UPDATEDs only. */
    function ReceiptTold(n: Node, v: bytes, storingNotifies: bool, meanwhile: Option<bytes>): bytes
      reads this`watched, this`tracked
      requires FindNid(tracked, n).Some?
    {
      var once := ToldValue(n, v);
      (if storingNotifies then once else []) + once
        + (if storingNotifies && meanwhile.Some? then ToldValue(n, meanwhile.value) else [])
    }

    /** UPDATED: the proxy receives the value. No SET goes back; nothing is written at all unless the peer
        itself watches the proxy. */
    method ProcessPropValue(p: Package, storingNotifies: bool, meanwhile: Option<bytes>)
      requires Valid() && p.Valid() && Fits(ReadString(p.data, 0).0) && (meanwhile.Some? ==> Fits(meanwhile.value))
      modifies this`values, this`changes, this`deserializing, dev.transport
      ensures Valid() && deserializing == old(deserializing)
      ensures match GetNode(NidOf(p.data))
        case None => values == old(values) && changes == old(changes)
          && dev.transport.stream == old(dev.transport.stream)
        case Some(n) =>
          var v := ReadString(p.data, 0).0;
          if n in own && n in old(values) && n !in deserializing then
            && values == old(values)[n := if meanwhile.Some? then meanwhile.value else v]
            && changes == old(changes) + Times(n, storingNotifies, meanwhile.Some?)
            && dev.transport.stream == old(dev.transport.stream) + ReceiptTold(n, v, storingNotifies, meanwhile)
          else values == old(values) && changes == old(changes) && dev.transport.stream == old(dev.transport.stream)
    {
      hide ReadString, UpdatedBytes, FindNid, Frame, Times, ReceiptTold, ToldValue;
      var found := GetNode(p.GetNid());
      if found.None? || found.value !in own || found.value in deserializing || found.value !in values {
        return;
      }
      var v := ReadValue(p);
      TrackedIsFound(tracked, NidOf(p.data));
      Receive(found.value, v, storingNotifies, meanwhile);
    }

    // ---------- The worker's switch ----------

    /** What the handlers ask of a package: strings of bounded length, and a SET for a known node.
        `list` are the names that the tree lists for the node an LS is about. */
    ghost predicate Handleable(p: Package, list: seq<Name>)
      requires p.Valid()
      reads this, p
    {
      var cmd := p.GetCmd();
      && cmd != CMD_AT_SUCCESS
      && (cmd == CMD_NODE_ATTACH || cmd == CMD_SUBSCRIBE_ADD_REMOVE ==> NidOf(p.data) !in nulls)
      && (cmd == CMD_NODE_ATTACH ==> Fits(DecodeAttach(p.data).0) && Fits(DecodeAttach(p.data).1))
      && (cmd == CMD_CHILD_ADDED ==> Fits(DecodeChildAdded(p.data).1) && Fits(DecodeChildAdded(p.data).2))
      && (cmd == CMD_LS && NidOf(p.data) in tracked ==> Lists(list, tracked[NidOf(p.data)]))
      && (cmd == CMD_LS ==> (forall i :: 0 <= i < |list| ==> Short(list[i])) && |StringFields(list)| < 0x7fff_0000)
      && (cmd == CMD_PROP_GET_VALUE ==> forall n :: n in values ==> Fits(values[n]))
      && (cmd == CMD_PROP_SET_VALUE ==> Fits(p.data))
      && (cmd == CMD_PROP_VALUE_UPDATED ==> Fits(ReadString(p.data, 0).0))
    }

    /** The three questions: each is answered by the handler for it. */
    method ProcessQuestion(p: Package, list: seq<Name>)
      requires Valid() && p.Valid() && source.next < TWO_64 && Handleable(p, list) && Question(CmdOf(p.data))
      modifies this`tracked, this`nulls, source, dev`pending, dev.transport
      ensures Valid() && dev.pending == old(dev.pending) - {p}
      ensures nulls == old(nulls) - tracked.Keys && old(tracked).Keys <= tracked.Keys
      ensures dev.transport.stream == old(dev.transport.stream) + Answered(old(dev.pending), p, old(ReplyTo(p, list)))
      ensures if CmdOf(p.data) == CMD_AT
        then View() == OnAt(old(View()), NidOf(p.data), ReadString(p.data, 0).0, old(source.next)).0
          && source.next == OnAt(old(View()), NidOf(p.data), ReadString(p.data, 0).0, old(source.next)).2
        else View() == old(View()) && source.next == old(source.next)
    {
      hide ReadString, OnAt, Answered, NidOf, StringFields, AtReply, LsReply, GetReply;
      var cmd := p.GetCmd();
      if cmd == CMD_AT {
        CmdAt(p);
      } else if cmd == CMD_LS {
        CmdLs(p, list);
      } else {
        CmdGetProp(p);
      }
    }

    /** The reply that the present tables hold for a question. */
    ghost function ReplyTo(p: Package, list: seq<Name>): bytes
      requires p.Valid()
      reads this, source, p
    {
      var k, name := NidOf(p.data), ReadString(p.data, 0).0;
      if p.GetCmd() == CMD_AT then AtReply(k, OnAt(View(), k, name, source.next).1, ChildType(k, name))
      else if p.GetCmd() == CMD_LS then LsReply(k, if k in tracked then Some(list) else None)
      else GetReply(k, PropValue(k))
    }

    /** The property of this nid, if there is one. */
    function PropOf(k: Nid): Option<Node>
      reads this
    {
      if k in tracked && tracked[k] in values then Some(tracked[k]) else None
    }

    /** After a SET of `v`: the property has it, its listeners have been notified, and the peer told if it
        watches; a nid that is not tracked has left an entry without a node. */
    ghost function SetTo(k: Nid, v: bytes, storingNotifies: bool): Store
      reads this, dev.transport
    {
      match PropOf(k)
      case None => Stored().(nulls := nulls + (if k in tracked then {} else {k}))
      case Some(n) =>
        TrackedIsFound(tracked, k);
        Stored().(
          values := values[n := v],
          changes := changes + (if storingNotifies then [n, n] else [n]),
          out := dev.transport.stream + (if storingNotifies then ToldValue(n, v) + ToldValue(n, v)
            else ToldValue(n, v)))
    }

    /** After an UPDATED of `v`: the proxy, unless it was receiving already, has it, or what one of its
        listeners then set it to. */
    ghost function UpdatedTo(k: Nid, v: bytes, storingNotifies: bool, meanwhile: Option<bytes>): Store
      reads this, dev.transport
    {
      match PropOf(k)
      case None => Stored()
      case Some(n) =>
        if n !in own || n in deserializing then Stored() else
          TrackedIsFound(tracked, k);
          Stored().(
            values := values[n := if meanwhile.Some? then meanwhile.value else v],
            changes := changes + Times(n, storingNotifies, meanwhile.Some?),
            out := dev.transport.stream + ReceiptTold(n, v, storingNotifies, meanwhile))
    }

    /** After SUBSCRIBE or UNSUBSCRIBE. */
    ghost function WatchedAs(k: Nid, on: bool): Store
      reads this, dev.transport
    {
      match PropOf(k)
      case None => Stored()
      case Some(n) => Stored().(watched := if on then watched + {n} else watched - {n})
    }

    /** The commands about values: each does what it is for, and they leave the tree and the tables alone, but
        for the entry without a node that a SET may leave. */
    method ProcessValueCommand(p: Package, storingNotifies: bool, meanwhile: Option<bytes>)
      requires Valid() && p.Valid() && OfValues(CmdOf(p.data))
      requires CmdOf(p.data) == CMD_PROP_VALUE_UPDATED ==> Fits(ReadString(p.data, 0).0)
      requires meanwhile.Some? ==> Fits(meanwhile.value)
      requires CmdOf(p.data) == CMD_PROP_SET_VALUE ==> Fits(p.data)
      modifies this`values, this`nulls, this`changes, this`deserializing, this`watched, dev.transport
      ensures Valid()
      ensures CmdOf(p.data) != CMD_PROP_SET_VALUE ==> nulls == old(nulls)
      ensures CmdOf(p.data) == CMD_PROP_SET_VALUE ==>
        Stored() == old(SetTo(NidOf(p.data), DecodeSet(p.data), storingNotifies))
      ensures CmdOf(p.data) == CMD_PROP_VALUE_UPDATED ==>
        Stored() == old(UpdatedTo(NidOf(p.data), ReadString(p.data, 0).0, storingNotifies, meanwhile))
      ensures CmdOf(p.data) == CMD_SUBSCRIBE ==> Stored() == old(WatchedAs(NidOf(p.data), true))
      ensures CmdOf(p.data) == CMD_UNSUBSCRIBE ==> Stored() == old(WatchedAs(NidOf(p.data), false))
    {
      hide ReadString, UpdatedBytes, FindNid, Times, ReceiptTold, ToldValue;
      var cmd := p.GetCmd();
      if cmd == CMD_PROP_VALUE_UPDATED {
        ProcessPropValue(p, storingNotifies, meanwhile);
      } else if cmd == CMD_SUBSCRIBE {
        CmdSubscribe(p, false);
      } else if cmd == CMD_UNSUBSCRIBE {
        CmdSubscribe(p, true);
      } else if cmd == CMD_PROP_SET_VALUE {
        CmdPropValue(p, storingNotifies);
      }
    }

    /** The type of the proxy that a message makes, if it makes one. */
    function NewType(p: bytes): Option<bytes>
      requires WellFormed(p)
      reads this
    {
      if NidOf(p) !in tracked then None
      else if CmdOf(p) == CMD_NODE_ATTACH && DecodeAttach(p).0 in known then Some(DecodeAttach(p).0)
      else if CmdOf(p) == CMD_CHILD_ADDED && DecodeChildAdded(p).0 !in tracked && DecodeChildAdded(p).2 in known then
        Some(DecodeChildAdded(p).2)
      else None
    }

    /** The node that is owned by its parent after the message, as it is at the peer. */
    function NewOwned(p: bytes): map<Node, Node>
      requires WellFormed(p)
      reads this
    {
      var (k, _, typ, owned) := DecodeChildAdded(p);
      if CmdOf(p) == CMD_CHILD_ADDED && NidOf(p) in tracked && owned && (k in tracked || typ in known) then
        map[(if k in tracked then tracked[k] else nodes) := tracked[NidOf(p)]]
      else map[]
    }

    /** What the message causes to be written: a subscription to the children of a proxy it makes, or the
        announcements of a tracked node that it hangs. */
    ghost function NodeOut(p: bytes): bytes
      requires WellFormed(p)
      reads this, source
    {
      if CmdOf(p) == CMD_NODE_ATTACH && NewType(p).Some? then
        var (_, name, k) := DecodeAttach(p);
        Wire(OnAttach(View(), NidOf(p), k, name, source.next).1, [], false)
      else if CmdOf(p) == CMD_CHILD_ADDED then
        var (k, name, typ, _) := DecodeChildAdded(p);
        if NidOf(p) in tracked && (k in tracked || typ in known) then
          var n := if k in tracked then tracked[k] else nodes;
          Wire(OnChildAdded(View(), NidOf(p), k, name, source.next).1, TypeOf(n), OwnedBy(n, tracked[NidOf(p)]))
        else []
      else []
    }

    method AttachRuled(p: Package)
      requires Valid() && p.Valid() && source.next + 2 < TWO_64 && Handleable(p, [])
      requires CmdOf(p.data) == CMD_NODE_ATTACH
      modifies this`nodes, this`own, this`types, this`values, this`tracked, this`nulls, this`edges, source,
        dev.transport
      ensures Valid()
      ensures nulls == old(nulls) - tracked.Keys && old(tracked).Keys <= tracked.Keys
      ensures AsRuled(old(View()), old(source.next), p.data, known, View(), source.next)
      ensures match old(NewType(p.data))
        case Some(typ) => Made(old(nodes), typ) && OthersKept(old(nodes), old(types), old(values), types, values)
        case None => unchanged(this`types) && unchanged(this`values)
      ensures owner == old(owner) + old(NewOwned(p.data))
      ensures dev.transport.stream == old(dev.transport.stream) + old(NodeOut(p.data))
    {
      HandleIs(View(), source.next, p.data);
      hide Handle, DecodeAttach, DecodeChildAdded, ReadString, Wire, OnAttach, OnChildAdded, NidOf, Made, OthersKept;
      CmdAttach(p);
      assert owner + map[] == owner;
    }

    method SubscribeRuled(p: Package)
      requires Valid() && p.Valid() && Handleable(p, []) && CmdOf(p.data) == CMD_SUBSCRIBE_ADD_REMOVE
      modifies this`listening
      ensures Valid()
      ensures AsRuled(old(View()), old(source.next), p.data, known, View(), source.next)
      ensures match old(NewType(p.data))
        case Some(typ) => Made(old(nodes), typ) && OthersKept(old(nodes), old(types), old(values), types, values)
        case None => unchanged(this`types) && unchanged(this`values)
      ensures owner == old(owner) + old(NewOwned(p.data))
      ensures dev.transport.stream == old(dev.transport.stream) + old(NodeOut(p.data))
    {
      HandleIs(View(), source.next, p.data);
      hide Handle, DecodeAttach, DecodeChildAdded, ReadString, Wire, OnAttach, OnChildAdded, NidOf, Made, OthersKept;
      CmdSubscribeAddRemove(p);
      assert owner + map[] == owner;
    }

    lemma ChildOutIs(p: bytes)
      requires WellFormed(p) && CmdOf(p) == CMD_CHILD_ADDED
      ensures NodeOut(p) ==
        var (k, name, typ, _) := DecodeChildAdded(p); var parent := GetNode(NidOf(p));
        var n := if k in tracked then tracked[k] else nodes;
        if parent.Some? && (k in tracked || typ in known) then
          Wire(OnChildAdded(View(), NidOf(p), k, name, source.next).1, TypeOf(n), OwnedBy(n, parent.value))
        else []
    {
    }

    lemma ChildOwnedIs(p: bytes)
      requires WellFormed(p) && CmdOf(p) == CMD_CHILD_ADDED
      ensures var (k, _, typ, owned) := DecodeChildAdded(p); var parent := GetNode(NidOf(p));
        var n := if k in tracked then tracked[k] else nodes;
        owner + NewOwned(p)
          == if parent.Some? && (k in tracked || typ in known) && owned then owner[n := parent.value] else owner
    {
    }

    lemma ChildTypeIs(p: bytes)
      requires WellFormed(p) && CmdOf(p) == CMD_CHILD_ADDED
      ensures var (k, _, typ, _) := DecodeChildAdded(p);
        NewType(p) == if GetNode(NidOf(p)).Some? && k !in tracked && typ in known then Some(typ) else None
    {
    }

    method ChildAddedRuled(p: Package)
      requires Valid() && p.Valid() && source.next + 2 < TWO_64 && Handleable(p, [])
      requires CmdOf(p.data) == CMD_CHILD_ADDED
      modifies this`nodes, this`own, this`types, this`values, this`tracked, this`nulls, this`edges, this`owner, source,
        dev.transport
      ensures Valid()
      ensures nulls == old(nulls) - tracked.Keys && old(tracked).Keys <= tracked.Keys
      ensures AsRuled(old(View()), old(source.next), p.data, known, View(), source.next)
      ensures match old(NewType(p.data))
        case Some(typ) => Made(old(nodes), typ) && OthersKept(old(nodes), old(types), old(values), types, values)
        case None => unchanged(this`types) && unchanged(this`values)
      ensures owner == old(owner) + old(NewOwned(p.data))
      ensures dev.transport.stream == old(dev.transport.stream) + old(NodeOut(p.data))
    {
      HandleIs(View(), source.next, p.data);
      ChildOutIs(p.data);
      ChildOwnedIs(p.data);
      ChildTypeIs(p.data);
      hide Handle, DecodeAttach, DecodeChildAdded, ReadString, Wire, OnAttach, OnChildAdded, NidOf, Made, OthersKept,
        NodeOut, NewOwned, NewType;
      CmdChildAdded(p);
    }

    /** The messages about nodes: the rule in Mirror for each, and a proxy of the type in the message. */
    method ProcessMessage(p: Package)
      requires Valid() && p.Valid() && source.next + 2 < TWO_64 && Handleable(p, [])
      requires OfNodes(CmdOf(p.data))
      modifies this`nodes, this`own, this`types, this`values, this`tracked, this`nulls, this`edges, this`owner,
        this`listening, source, dev.transport
      ensures Valid()
      ensures nulls == old(nulls) - tracked.Keys && old(tracked).Keys <= tracked.Keys
      ensures AsRuled(old(View()), old(source.next), p.data, known, View(), source.next)
      ensures match old(NewType(p.data))
        case Some(typ) => Made(old(nodes), typ) && OthersKept(old(nodes), old(types), old(values), types, values)
        case None => unchanged(this`types) && unchanged(this`values)
      ensures owner == old(owner) + old(NewOwned(p.data))
      ensures dev.transport.stream == old(dev.transport.stream) + old(NodeOut(p.data))
    {
      hide AsRuled, NodeOut, NewOwned, NewType, Made, OthersKept, Handleable, Wire;
      if p.GetCmd() == CMD_NODE_ATTACH {
        AttachRuled(p);
      } else if p.GetCmd() == CMD_SUBSCRIBE_ADD_REMOVE {
        SubscribeRuled(p);
      } else {
        ChildAddedRuled(p);
      }
    }

    /** Each command reaches its handler. A question leaves the table of unanswered requests, in the
        one reply that is written for it; nothing else touches that table. Values, types and subscriptions
        change by the commands that are for that. */
    method ProcessPackage(p: Package, list: seq<Name>, storingNotifies: bool, meanwhile: Option<bytes>)
      requires Valid() && p.Valid() && source.next + 2 < TWO_64 && Handleable(p, list)
      requires meanwhile.Some? ==> Fits(meanwhile.value)
      modifies this, source, dev`pending, dev.transport
      ensures Valid()
      ensures CmdOf(p.data) != CMD_PROP_SET_VALUE ==> nulls == old(nulls) - tracked.Keys
      ensures AsRuled(old(View()), old(source.next), p.data, known, View(), source.next)
      ensures dev.pending == (if Question(CmdOf(p.data)) then old(dev.pending) - {p} else old(dev.pending))
      ensures Question(CmdOf(p.data)) ==>
        dev.transport.stream == old(dev.transport.stream) + Answered(old(dev.pending), p, old(ReplyTo(p, list)))
      ensures CmdOf(p.data) == CMD_PROP_SET_VALUE ==>
        Stored() == old(SetTo(NidOf(p.data), DecodeSet(p.data), storingNotifies))
      ensures CmdOf(p.data) == CMD_PROP_VALUE_UPDATED ==>
        Stored() == old(UpdatedTo(NidOf(p.data), ReadString(p.data, 0).0, storingNotifies, meanwhile))
      ensures CmdOf(p.data) == CMD_SUBSCRIBE ==> Stored() == old(WatchedAs(NidOf(p.data), true))
      ensures CmdOf(p.data) == CMD_UNSUBSCRIBE ==> Stored() == old(WatchedAs(NidOf(p.data), false))
      ensures OfValues(CmdOf(p.data)) || CmdOf(p.data) == CMD_LS ==>
        View() == old(View()) && source.next == old(source.next)
      ensures !OfValues(CmdOf(p.data)) ==>
        unchanged(this`changes) && unchanged(this`watched) && unchanged(this`deserializing)
      ensures match old(NewType(p.data))
        case Some(typ) => Made(old(nodes), typ) && OthersKept(old(nodes), old(types), old(values), types, values)
        case None => unchanged(this`types) && (!OfValues(CmdOf(p.data)) ==> unchanged(this`values))
      ensures owner == old(owner) + old(NewOwned(p.data))
      ensures OfNodes(CmdOf(p.data)) ==> dev.transport.stream == old(dev.transport.stream) + old(NodeOut(p.data))
      ensures !Question(CmdOf(p.data)) && !OfNodes(CmdOf(p.data)) && !OfValues(CmdOf(p.data)) ==>
        unchanged(this) && unchanged(source) && unchanged(dev.transport)
    {
      hide ReplyTo, AsRuled, ReadString, OnAt, Answered, NidOf, DecodeAttach, DecodeChildAdded, SetTo, UpdatedTo,
        WatchedAs, Made, OthersKept, NodeOut, Stored;
      var cmd := p.GetCmd();
      if cmd == CMD_AT || cmd == CMD_LS || cmd == CMD_PROP_GET_VALUE {
        ProcessQuestion(p, list);
        QuestionRuled(old(View()), old(source.next), p.data, known, View(), source.next);
      } else if OfValues(cmd) {
        ProcessValueCommand(p, storingNotifies, meanwhile);
        NoRule(old(View()), old(source.next), p.data, known);
      } else if OfNodes(cmd) {
        ProcessMessage(p);
      } else {
        NoRule(old(View()), old(source.next), p.data, known);
      }
      assert old(owner) + map[] == old(owner) && old(nulls) - old(tracked).Keys == old(nulls);
    }

    // ---------- The client's half of a fetch ----------

    /** The question of `fetch_node`. */
    method StartFetch(p: Node, name: Name) returns (id: msgid)
      requires Valid() && p in own && Fits(name)
      modifies dev, dev.transport
      ensures Valid() && dev.pending == old(dev.pending) && dev.notified == old(dev.notified)
      ensures (id, dev.ids) == MessageIds.Generate(old(dev.ids)) && dev.received == old(dev.received)[id := false]
      ensures dev.transport.stream
        == old(dev.transport.stream) + Frame(WithWord(id, Copied(MsgBytes(At(own[p].nid, name), [], false))))
    {
      hide Frame, WithWord, MessageIds.Generate, StringField;
      var req := EncodeName(CMD_AT, own[p].nid, name);
      AskingFits(CMD_AT, own[p].nid, name);
      var ok;
      ok, id := dev.BeginSend(req);
    }

    /** What `fetch_node` makes of the reply: nothing on an error or an unknown type, else a proxy that
        is tracked under the nid in the reply. */
    method FetchedNode(rep: Package, p: Node, name: Name) returns (r: Option<Node>)
      requires Valid() && rep.Valid() && p in own && Fits(ReadString(rep.data, 0).0)
      modifies this`nodes, this`own, this`types, this`values, this`tracked, this`nulls
      ensures Valid()
      ensures nulls == old(nulls) - tracked.Keys && old(tracked).Keys <= tracked.Keys
      ensures r.Some? ==>
        Made(r.value, ReadString(rep.data, 0).0) && OthersKept(r.value, old(types), old(values), types, values)
      ensures var typ := ReadString(rep.data, 0).0;
        if CmdOf(rep.data) == CMD_AT_ERROR || typ !in known then r.None? && unchanged(this)
        else
          var asked := NoCalls.(fetching := Some((p, name)), reply := Some(Some(NidOf(rep.data))));
          var got := NoCalls.(loose := map[0 := Loose(p, name, old(nodes))]);
          r == Some(old(nodes)) && OnFetched(old(View()).(calls := asked)) == View().(calls := got)
    {
      hide ReadString;
      if rep.GetCmd() == CMD_AT_ERROR {
        return None;
      }
      var typ, _ := rep.GetString(0);
      if typ !in known {
        return None;
      }
      var n := Generate(rep.GetNid(), own[p].nid, name, typ);
      assert map[][0 := Loose(p, name, n)] == map[0 := Loose(p, name, n)];
      return Some(n);
    }

    /** `get`, once it has the fetched node: it is inserted, and null is returned if that is refused
        because the name has been taken. */
    method InsertFetched(p: Node, name: Name, n: Node) returns (r: Option<Node>)
      modifies this`edges
      ensures r == if (p, name) in old(edges) then None else Some(n)
      ensures View() == OnInsert(old(View()).(calls := NoCalls.(loose := map[0 := Loose(p, name, n)])), 0)
    {
      assert map[0 := Loose(p, name, n)] - {0} == map[];
      if (p, name) in edges {
        return None;
      }
      edges := edges[(p, name) := n];
      return Some(n);
    }
  }

  /** Opening a connection puts its two ends into the state that Mirror starts from. */
  method Open(server: NodeSync, client: NodeSync)
    requires server.Valid() && client.Valid() && server != client && server.source == client.source
    requires server.source.next == 0
    requires server.View() == Side(server.root, server.nodes, server.edges, map[], map[], map[], NoCalls)
    requires client.View() == Side(client.root, client.nodes, client.edges, map[], map[], map[], NoCalls)
    requires server.root < server.nodes && client.root < client.nodes && EdgesOk(server.View())
    requires EdgesOk(client.View())
    modifies server, client, server.source, client.dev.transport
    ensures Initial(Mirror.State(client.View(), server.View(), [Subscribe(0)], [], server.source.next))
    ensures client.dev.transport.stream == old(client.dev.transport.stream) + Wire([Subscribe(0)], [], false)
  {
    hide Wire;
    server.SetRoot();
    client.StreamOpened();
  }

  // ---------- From one end's rules to the other's ----------

  /** A message as its sender gives it to the dispatcher; a question is sent under an id. */
  datatype Outgoing = Outgoing(msg: Msg, typ: bytes, owned: bool, id: msgid)

  predicate Asks(m: Msg) { m.At? || m.GetValue? }

  predicate CanGo(o: Outgoing) { Sendable(o.msg, o.typ) && (Asks(o.msg) ==> Usable(o.id)) }

  function CallFor(o: Outgoing): Call {
    var p := MsgBytes(o.msg, o.typ, o.owned);
    if Asks(o.msg) then Send(o.id, p) else Write(p)
  }

  function CallsFor(os: seq<Outgoing>): (cs: seq<Call>)
    ensures |cs| == |os| && forall i :: 0 <= i < |cs| ==> cs[i] == CallFor(os[i])
  {
    seq(|os|, i requires 0 <= i < |os| => CallFor(os[i]))
  }

  /** The receiver of the frame reads the message: all of it, and as a request under its id if it is a
      question, else as a one-way package. */
  predicate Hears(frame: bytes, o: Outgoing) {
    |frame| >= ID_BYTES &&
    var d := Demux(frame);
    && (if Asks(o.msg) then d.Request? && d.id == o.id else d.OneWay?)
    && WellFormed(d.pkg)
    && var r := ReadMsg(d.pkg);
       && r.Some? && r.value.msg == o.msg
       && (o.msg.ChildAdded? || o.msg.Attach? ==> r.value.typ == o.typ)
       && (o.msg.ChildAdded? ==> r.value.owned == o.owned)
  }

  lemma HearsIt(frame: bytes, o: Outgoing)
    requires CanGo(o) && |frame| >= ID_BYTES && Demux(frame) == Seen(CallFor(o))
    ensures Hears(frame, o)
  {
    var p := MsgBytes(o.msg, o.typ, o.owned);
    MsgRoundTrip(o.msg, o.typ, o.owned, 0);
    MsgRoundTrip(o.msg, o.typ, o.owned, HEADER_SIZE);
    WellFormedMsg(o.msg, o.typ, o.owned);
    hide ReadMsg, MsgBytes, Demux, Sendable;
    assert p + Zeros(0) == p;
  }

  lemma WellFormedMsg(m: Msg, typ: bytes, owned: bool)
    ensures WellFormed(MsgBytes(m, typ, owned))
  {
  }

  lemma CallGoes(o: Outgoing)
    requires CanGo(o)
    ensures CarriesId(CallFor(o)) && Writable(FrameOf(CallFor(o)))
  {
    MsgFits(o.msg, o.typ, o.owned);
    AtMost(o.msg, o.typ, o.owned);
    hide MsgBytes;
  }

  lemma AtMost(m: Msg, typ: bytes, owned: bool)
    requires Sendable(m, typ)
    ensures |MsgBytes(m, typ, owned)| < 0x7fff_ff00
  {
  }

  /** The messages one end gives to its dispatcher, whatever chunks their bytes arrive in, are the
      messages the other end's handlers read: all of them, in order, each with all that it said. */
  lemma MessagesAreHeard(os: seq<Outgoing>, chunks: seq<bytes>)
    requires (forall o :: o in os ==> CanGo(o)) && Concat(chunks) == Stream(Frames(CallsFor(os)))
    ensures var seen := Run([], chunks).0; |seen| == |os| && forall i :: 0 <= i < |seen| ==> Hears(seen[i], os[i])
  {
    hide Run, Stream, Concat, Demux, CanGo, CallFor, Hears, FrameOf, CarriesId;
    forall c | c in CallsFor(os) ensures CarriesId(c) && Writable(FrameOf(c)) {
      var i :| 0 <= i < |os| && c == CallsFor(os)[i];
      assert os[i] in os;
      CallGoes(os[i]);
    }
    assert Concat(chunks) + [] == Concat(chunks);
    EndToEnd(CallsFor(os), chunks, []);
    var seen := Run([], chunks).0;
    forall i | 0 <= i < |seen| ensures Hears(seen[i], os[i]) {
      assert os[i] in os;
      HearsIt(seen[i], os[i]);
    }
  }
}
