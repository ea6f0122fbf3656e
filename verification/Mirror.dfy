/** One connection between two ends that mirror each other's tree: how nodes get their nids,
    which messages are exchanged, and what every step does. Both ends follow the same rules;
    the client asks the server for fresh nids, so both draw from the one counter `next`. */
module Mirror {
  import opened Bytes
  import opened Packages

  type Node = nat
  type Nid = nat
  type Name = bytes

  datatype Msg =
    | ChildAdded(parent: Nid, child: Nid, name: Name)
    | Attach(parent: Nid, child: Nid, name: Name)
    | Subscribe(nid: Nid)  // SUBSCRIBE_ADD_REMOVE
    | At(nid: Nid, name: Name)
    | GetValue(nid: Nid)   // PROP_GET_VALUE

  /** A proxy of this connection: its nid, and the parent and name it was learned under. */
  datatype Proxy = Proxy(nid: Nid, parent: Nid, name: Name)

  /** A proxy that `fetch_node` has tracked and `get` has still to insert under its parent. */
  datatype Loose = Loose(p: Node, name: Name, n: Node)

  type Caller = nat

  /** What callers at an end are in the middle of. A `get` looks a child up, and only then takes the
      tracking lock to fetch it; it gives the lock back before it inserts the child. `update_prop`
      takes the same lock for its question. Any number of callers, one lock holder at a time. */
  datatype Calls = Calls(
    looked: map<Caller, (Node, Name)>,  // not found; the lock is not taken yet
    fetching: Option<(Node, Name)>,     // a blocking AT under way; it holds the lock
    holder: Caller,                     // whose it is
    reply: Option<Option<Nid>>,         // its reply, once there: a nid, or an error
    loose: map<Caller, Loose>,
    valuing: Option<Nid>,               // a blocking GET under way; it holds the lock
    valued: bool)                       // its reply is there

  const NoCalls := Calls(map[], None, 0, None, map[], None, false)

  /** One end. Nodes are numbered as they are created; `own` are the proxies of this connection,
      every other node is an original as far as the peer is concerned. */
  datatype Side = Side(
    root: Node,
    nodes: nat,
    edges: map<(Node, Name), Node>,
    tracked: map<Nid, Node>,
    own: map<Node, Proxy>,
    listening: map<Node, Nid>,            // subscribed nodes, and the nid each was subscribed by
    calls: Calls)

  predicate Locked(x: Side) { x.calls.fetching.Some? || x.calls.valuing.Some? }

  datatype State = State(a: Side, b: Side, ab: seq<Msg>, ba: seq<Msg>, next: Nid)

  function Flip(s: State): State { State(s.b, s.a, s.ba, s.ab, s.next) }

  // ---------- Tracking ----------

  predicate Injective(tracked: map<Nid, Node>) {
    forall j, k :: j in tracked && k in tracked && tracked[j] == tracked[k] ==> j == k
  }

  lemma {:induction false} Least(s: set<nat>) returns (k: nat)
    requires s != {}
    ensures k in s && forall j :: j in s ==> k <= j
    decreases |s|
  {
    k :| k in s;
    var rest := s - {k};
    assert s == rest + {k};
    if rest != {} {
      var l := Least(rest);
      k := if k < l then k else l;
    }
  }

  /** The first entry of an ordered map. */
  function FirstKey<T>(m: map<nat, T>): (k: nat)
    requires m != map[]
    ensures k in m && forall j :: j in m ==> k <= j
  {
    assert exists k :: k in m && forall j :: j in m ==> k <= j by {
      var k := Least(m.Keys);
      assert k in m && forall j :: j in m ==> k <= j;
    }
    var k :| k in m && forall j :: j in m ==> k <= j;
    k
  }

  /** The search in `get_nid`: the first entry, in nid order, that holds the node. */
  function FindNid(tracked: map<Nid, Node>, n: Node): (r: Option<Nid>)
    ensures r.Some? ==> r.value in tracked && tracked[r.value] == n
    ensures r.None? ==> forall k :: k in tracked ==> tracked[k] != n
    decreases |tracked|
  {
    if tracked == map[] then None else
      var k := FirstKey(tracked);
      var rest := tracked - {k};
      assert forall j :: j in tracked ==> j == k || (j in rest && rest[j] == tracked[j]);
      if tracked[k] == n then Some(k) else FindNid(rest, n)
  }

  /** `get_nid` with tracking: an untracked node is given a fresh nid. */
  function GetNid(x: Side, n: Node, next: Nid): (Nid, Side, Nid) {
    match FindNid(x.tracked, n)
    case Some(k) => (k, x, next)
    case None => (next, x.(tracked := x.tracked[next := n]), next + 1)
  }

  /** `child_added` of a node that is not an own proxy: tell the peer, if it subscribed. */
  function TellAdded(x: Side, p: Node, name: Name, n: Node, next: Nid): (Side, seq<Msg>, Nid) {
    if p !in x.listening then (x, [], next) else
      var (pn, x1, next1) := GetNid(x, p, next);
      var (k, x2, next2) := GetNid(x1, n, next1);
      (x2, [ChildAdded(pn, k, name)], next2)
  }

  /** `client_node::attach` of such a node under an own proxy: ask the peer to attach it. */
  function TellAttach(x: Side, p: Node, name: Name, n: Node, next: Nid): (Side, seq<Msg>, Nid) {
    if p !in x.own then (x, [], next) else
      var (k, x1, next1) := GetNid(x, n, next);
      (x1, [Attach(x.own[p].nid, k, name)], next1)
  }

  /** Attaching `n` under `p`. A name already taken keeps its node; an own proxy is not announced. */
  function AttachNode(x: Side, p: Node, name: Name, n: Node, next: Nid): (Side, seq<Msg>, Nid) {
    if (p, name) in x.edges then (x, [], next) else
      var x1 := x.(edges := x.edges[(p, name) := n]);
      if n in x.own then (x1, [], next) else
        var (x2, m2, next2) := TellAdded(x1, p, name, n, next);
        var (x3, m3, next3) := TellAttach(x2, p, name, n, next2);
        (x3, m2 + m3, next3)
  }

  function NewNode(x: Side): Side { x.(nodes := x.nodes + 1) }

  /** A proxy for nid `k` is created and tracked. */
  function NewProxy(x: Side, k: Nid, parent: Nid, name: Name): Side {
    x.(nodes := x.nodes + 1, own := x.own[x.nodes := Proxy(k, parent, name)], tracked := x.tracked[k := x.nodes])
  }

  // ---------- Steps of the left end ----------

  datatype Act =
    | AppAttach(p: Node, name: Name)  // the application attaches a node of its own
    | Look(c: Caller, p: Node, name: Name)  // `get` finds no such child
    | FetchStart(c: Caller)
    | FetchDone(c: Caller)
    | Insert(c: Caller)
    | ValueStart(k: Nid)              // `update_prop`
    | ValueDone
    | Receive

  /** The caller is in the middle of a `get`. */
  predicate Busy(x: Side, c: Caller) {
    c in x.calls.looked || c in x.calls.loose || (x.calls.fetching.Some? && x.calls.holder == c)
  }

  predicate EnabledLeft(s: State, act: Act) {
    var x := s.a;
    match act
    case AppAttach(p, _) => !Locked(x) && p < x.nodes
    case Look(c, p, name) => !Busy(x, c) && p in x.own && (p, name) !in x.edges
    case FetchStart(c) => !Locked(x) && c in x.calls.looked && x.calls.looked[c].0 in x.own
    case FetchDone(c) =>
      x.calls.fetching.Some? && x.calls.holder == c && x.calls.reply.Some? && x.calls.fetching.value.0 in x.own
    case Insert(c) => c in x.calls.loose
    case ValueStart(k) => !Locked(x) && k in x.tracked && x.tracked[k] in x.own
    case ValueDone => x.calls.valuing.Some? && x.calls.valued
    case Receive => !Locked(x) && s.ba != []
  }

  function OnChildAdded(x: Side, parent: Nid, k: Nid, name: Name, next: Nid): (Side, seq<Msg>, Nid) {
    if parent !in x.tracked then (x, [], next)
    else if k in x.tracked then AttachNode(x, x.tracked[parent], name, x.tracked[k], next)
    else
      var (x1, ms, next1) := AttachNode(NewProxy(x, k, parent, name), x.tracked[parent], name, x.nodes, next);
      (x1, [Subscribe(k)] + ms, next1)
  }

  function OnAttach(x: Side, parent: Nid, k: Nid, name: Name, next: Nid): (Side, seq<Msg>, Nid) {
    if parent !in x.tracked then (x, [], next) else
      var (x1, ms, next1) := AttachNode(NewProxy(x, k, parent, name), x.tracked[parent], name, x.nodes, next);
      (x1, ms + [Subscribe(k)], next1)
  }

  function OnSubscribe(x: Side, k: Nid): Side {
    if k !in x.tracked then x else x.(listening := x.listening[x.tracked[k] := k])
  }

  /** The reply to AT: an error, or the nid of the child, which is tracked from now on. */
  function OnAt(x: Side, k: Nid, name: Name, next: Nid): (Side, Option<Nid>, Nid) {
    if k !in x.tracked || (x.tracked[k], name) !in x.edges then (x, None, next) else
      var (nid, x1, next1) := GetNid(x, x.edges[(x.tracked[k], name)], next);
      (x1, Some(nid), next1)
  }

  /** The reply to an own AT: the proxy is created and tracked, to be inserted afterwards. */
  function OnFetched(x: Side): Side
    requires x.calls.fetching.Some? && x.calls.reply.Some? && x.calls.fetching.value.0 in x.own
  {
    var (p, name) := x.calls.fetching.value;
    var done := x.(calls := x.calls.(fetching := None, holder := 0, reply := None));
    match x.calls.reply.value
    case None => done
    case Some(k) =>
      NewProxy(done, k, x.own[p].nid, name)
        .(calls := done.calls.(loose := x.calls.loose[x.calls.holder := Loose(p, name, x.nodes)]))
  }

  /** `insert` of the fetched child; refused when the name has been taken meanwhile. */
  function OnInsert(x: Side, c: Caller): Side
    requires c in x.calls.loose
  {
    var l := x.calls.loose[c];
    var done := x.(calls := x.calls.(loose := x.calls.loose - {c}));
    if (l.p, l.name) in x.edges then done else done.(edges := x.edges[(l.p, l.name) := l.n])
  }

  function Handle(s: State, m: Msg): State {
    match m
    case ChildAdded(parent, k, name) =>
      var (a, ms, next) := OnChildAdded(s.a, parent, k, name, s.next);
      s.(a := a, ab := s.ab + ms, next := next)
    case Attach(parent, k, name) =>
      var (a, ms, next) := OnAttach(s.a, parent, k, name, s.next);
      s.(a := a, ab := s.ab + ms, next := next)
    case Subscribe(k) => s.(a := OnSubscribe(s.a, k))
    case At(k, name) =>
      var (a, r, next) := OnAt(s.a, k, name, s.next);
      s.(a := a, b := s.b.(calls := s.b.calls.(reply := Some(r))), next := next)
    case GetValue(_) => s.(b := s.b.(calls := s.b.calls.(valued := s.b.calls.valuing.Some?)))
  }

  /** A caller that had looked takes the lock and asks. */
  function Asking(calls: Calls, c: Caller): Calls
    requires c in calls.looked
  {
    calls.(looked := calls.looked - {c}, fetching := Some(calls.looked[c]), holder := c, reply := None)
  }

  function StepLeft(s: State, act: Act): State
    requires EnabledLeft(s, act)
  {
    match act
    case AppAttach(p, name) =>
      var (a, ms, next) := AttachNode(NewNode(s.a), p, name, s.a.nodes, s.next);
      s.(a := a, ab := s.ab + ms, next := next)
    case Look(c, p, name) => s.(a := s.a.(calls := s.a.calls.(looked := s.a.calls.looked[c := (p, name)])))
    case FetchStart(c) =>
      var (p, name) := s.a.calls.looked[c];
      s.(a := s.a.(calls := Asking(s.a.calls, c)), ab := s.ab + [At(s.a.own[p].nid, name)])
    case FetchDone(_) => s.(a := OnFetched(s.a))
    case Insert(c) => s.(a := OnInsert(s.a, c))
    case ValueStart(k) => s.(a := s.a.(calls := s.a.calls.(valuing := Some(k), valued := false)),
      ab := s.ab + [GetValue(k)])
    case ValueDone => s.(a := s.a.(calls := s.a.calls.(valuing := None, valued := false)))
    case Receive => Handle(s.(ba := s.ba[1..]), s.ba[0])
  }

  datatype Event = Event(left: bool, act: Act)

  predicate Enabled(s: State, e: Event) { EnabledLeft(if e.left then s else Flip(s), e.act) }

  function Step(s: State, e: Event): State
    requires Enabled(s, e)
  {
    if e.left then StepLeft(s, e.act) else Flip(StepLeft(Flip(s), e.act))
  }

  /** A fresh connection: any two trees, the roots tracked as 0, the client (left) already
      listening to its own root and subscribing to the server's. */
  predicate Initial(s: State) {
    && FreshSide(s.a) && FreshSide(s.b) && s.next == 1
    && s.a.listening == map[s.a.root := 0] && s.b.listening == map[]
    && s.ab == [Subscribe(0)] && s.ba == []
  }

  predicate FreshSide(x: Side) {
    && x.tracked == map[0 := x.root] && x.own == map[] && x.calls == NoCalls
    && x.root < x.nodes && EdgesOk(x)
  }

  // ---------- What every step keeps ----------

  predicate TrackedOk(x: Side, next: Nid) {
    && 1 <= next
    && 0 in x.tracked && x.tracked[0] == x.root && x.root < x.nodes && x.root !in x.own
    && (forall k :: k in x.tracked ==> k < next && x.tracked[k] < x.nodes)
    && Injective(x.tracked)
  }

  /** Nodes exist, the root has no parent, every other node has at most one. */
  predicate EdgesOk(x: Side) {
    && (forall e :: e in x.edges ==> e.0 < x.nodes && x.edges[e] < x.nodes && x.edges[e] != x.root)
    && (forall e, f :: e in x.edges && f in x.edges && x.edges[e] == x.edges[f] ==> e == f)
  }

  /** The peer has, as an original, the node `k` under `parent` with this name. */
  predicate Known(y: Side, parent: Nid, k: Nid, name: Name) {
    && parent in y.tracked && k in y.tracked && k != 0 && y.tracked[k] !in y.own
    && (y.tracked[parent], name) in y.edges && y.edges[(y.tracked[parent], name)] == y.tracked[k]
  }

  /** This end has something under that name of the parent. */
  predicate Taken(x: Side, parent: Nid, name: Name) {
    parent in x.tracked && (x.tracked[parent], name) in x.edges
  }

  predicate IsLoose(x: Side, n: Node) { exists c :: c in x.calls.loose && x.calls.loose[c].n == n }

  /** A proxy carries its own nid and stands for the peer's node of that nid; and it hangs where it
      was learned, or something else does, or it is still to be inserted. */
  predicate ProxyOk(x: Side, y: Side, n: Node)
    requires n in x.own
  {
    var p := x.own[n];
    && n < x.nodes && p.nid in x.tracked && x.tracked[p.nid] == n && Known(y, p.parent, p.nid, p.name)
    && (Taken(x, p.parent, p.name) || IsLoose(x, n))
  }

  predicate ProxiesOk(x: Side, y: Side) { forall n :: n in x.own ==> ProxyOk(x, y, n) }

  /** An own proxy hangs where it was learned, if it hangs anywhere. */
  predicate Placed(x: Side) {
    forall e :: e in x.edges && x.edges[e] in x.own ==>
      var p := x.own[x.edges[e]]; p.parent in x.tracked && e == (x.tracked[p.parent], p.name)
  }

  /** A nid tracked by both ends, other than the root's, is one original and one proxy. */
  predicate Paired(x: Side, y: Side) {
    forall k :: k in x.tracked && k in y.tracked && k != 0 ==> (x.tracked[k] in x.own <==> y.tracked[k] !in y.own)
  }

  predicate ListeningOk(x: Side, y: Side) {
    forall n :: n in x.listening ==>
      n !in x.own && x.listening[n] in x.tracked && x.tracked[x.listening[n]] == n && x.listening[n] in y.tracked
  }

  /** A message on its way from `y` to `x`. */
  predicate MsgOk(x: Side, y: Side, m: Msg) {
    match m
    case ChildAdded(parent, k, name) =>
      && parent in x.tracked && Known(y, parent, k, name) && y.tracked[parent] !in y.own
      && (k in x.tracked ==> Taken(x, parent, name) || IsLoose(x, x.tracked[k]))
    case Attach(parent, k, name) =>
      && parent in x.tracked && Known(y, parent, k, name) && y.tracked[parent] in y.own && k !in x.tracked
    case Subscribe(k) => k in x.tracked && x.tracked[k] !in x.own && k in y.tracked
    case At(k, name) =>
      && y.calls.fetching.Some? && y.calls.reply.None? && y.calls.fetching.value.1 == name
      && y.calls.fetching.value.0 in y.own && y.own[y.calls.fetching.value.0].nid == k
    case GetValue(k) => k in x.tracked
  }

  predicate MsgsOk(x: Side, y: Side, toX: seq<Msg>) {
    && (forall m :: m in toX ==> MsgOk(x, y, m))
    && (forall i, j :: 0 <= i < j < |toX| && toX[i].Attach? && toX[j].Attach? ==> toX[i].child != toX[j].child)
    && (forall i, j :: 0 <= i < j < |toX| && toX[i].At? ==> !toX[j].At?)
  }

  /** A node of this end hangs under that name and has the nid `k`. */
  predicate OwnThere(x: Side, p: Node, k: Nid, name: Name) {
    k in x.tracked && x.tracked[k] !in x.own && (p, name) in x.edges && x.edges[(p, name)] == x.tracked[k]
  }

  /** A proxy hangs under that name of the node that carries the nid `q`. */
  predicate ProxyThere(y: Side, q: Nid, name: Name) {
    q in y.tracked && (y.tracked[q], name) in y.edges && y.edges[(y.tracked[q], name)] in y.own
  }

  /** What a reply says: the peer's child of that name, or the node that this end attached there
      itself, after it had looked, and that the peer has a proxy of there. */
  predicate Says(x: Side, y: Side, p: Node, k: Nid, name: Name) {
    p in x.own
    && (Known(y, x.own[p].nid, k, name) || (OwnThere(x, p, k, name) && ProxyThere(y, x.own[p].nid, name)))
  }

  /** What a caller is to insert is a proxy that was learned where it is to go. */
  predicate LooseOk(x: Side, l: Loose) {
    l.p in x.own && l.n in x.own && x.own[l.n].parent == x.own[l.p].nid && x.own[l.n].name == l.name
  }

  /** Callers ask for children of proxies, and each is at one point of its `get`. */
  predicate CallersOk(x: Side) {
    && (forall c :: c in x.calls.looked ==> x.calls.looked[c].0 in x.own && c !in x.calls.loose)
    && (forall c :: c in x.calls.loose ==> LooseOk(x, x.calls.loose[c]))
    && (x.calls.fetching.Some? ==>
          x.calls.fetching.value.0 in x.own && x.calls.holder !in x.calls.looked && x.calls.holder !in x.calls.loose)
  }

  predicate ReplyOk(x: Side, y: Side) {
    x.calls.reply.Some? && x.calls.reply.value.Some? ==>
      && x.calls.fetching.Some?
      && Says(x, y, x.calls.fetching.value.0, x.calls.reply.value.value, x.calls.fetching.value.1)
  }

  predicate FetchOk(x: Side, y: Side) { CallersOk(x) && ReplyOk(x, y) }

  predicate Half(x: Side, y: Side, toX: seq<Msg>, next: Nid) {
    && TrackedOk(x, next) && EdgesOk(x) && ProxiesOk(x, y) && Placed(x) && Paired(x, y)
    && ListeningOk(x, y) && MsgsOk(x, y, toX) && FetchOk(x, y)
  }

  predicate Inv(s: State) { Half(s.a, s.b, s.ba, s.next) && Half(s.b, s.a, s.ab, s.next) }
}
