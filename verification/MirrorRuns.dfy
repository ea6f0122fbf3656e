/** What holds in every run of a mirrored connection, and what `client_node::get` finds. */
module MirrorRuns {
  import opened Bytes
  import opened Packages
  import opened Mirror
  import opened MirrorProof

  predicate IsRun(s: State, events: seq<Event>)
    decreases |events|
  {
    events == [] || (Enabled(s, events[0]) && IsRun(Step(s, events[0]), events[1..]))
  }

  function After(s: State, events: seq<Event>): State
    requires IsRun(s, events)
    decreases |events|
  {
    if events == [] then s else After(Step(s, events[0]), events[1..])
  }

  /** A run in which every fetch brings a nid that is not tracked yet. MirrorSound says exactly which
      runs these are, in terms of what happened between the lookup and the fetch of each `get`. */
  predicate SoundRun(s: State, events: seq<Event>)
    requires IsRun(s, events)
    decreases |events|
  {
    events == [] || (SoundStep(s, events[0]) && SoundRun(Step(s, events[0]), events[1..]))
  }

  lemma {:induction false} RunKeeps(s: State, events: seq<Event>)
    requires Inv(s) && IsRun(s, events) && SoundRun(s, events)
    ensures Inv(After(s, events))
    decreases |events|
  {
    hide Inv, Step, SoundStep;
    if events != [] {
      StepKeeps(s, events[0]);
      RunKeeps(Step(s, events[0]), events[1..]);
    }
  }

  /** Some such run of some fresh connection ends in `s`. */
  ghost predicate Reachable(s: State) {
    exists s0, events :: Initial(s0) && IsRun(s0, events) && SoundRun(s0, events) && After(s0, events) == s
  }

  lemma ReachableInv(s: State)
    requires Reachable(s)
    ensures Inv(s)
  {
    hide Inv;
    var s0, events :| Initial(s0) && IsRun(s0, events) && SoundRun(s0, events) && After(s0, events) == s;
    InitialInv(s0);
    RunKeeps(s0, events);
  }

  lemma InitialReachable(s: State)
    requires Initial(s)
    ensures Reachable(s)
  {
    hide Initial;
    assert IsRun(s, []) && SoundRun(s, []) && After(s, []) == s;
  }

  lemma {:induction false} RunsJoin(s: State, events: seq<Event>, more: seq<Event>)
    requires IsRun(s, events) && IsRun(After(s, events), more)
    ensures IsRun(s, events + more) && After(s, events + more) == After(After(s, events), more)
    ensures SoundRun(s, events) && SoundRun(After(s, events), more) ==> SoundRun(s, events + more)
    decreases |events|
  {
    hide Step, SoundStep;
    if events == [] {
      assert events + more == more;
    } else {
      assert (events + more)[1..] == events[1..] + more;
      RunsJoin(Step(s, events[0]), events[1..], more);
    }
  }

  lemma OneEvent(s: State, e: Event)
    requires Enabled(s, e)
    ensures IsRun(s, [e]) && After(s, [e]) == Step(s, e) && (SoundStep(s, e) ==> SoundRun(s, [e]))
  {
    hide Step, SoundStep;
    assert [e][1..] == [];
  }

  lemma ReachableRun(s: State, events: seq<Event>)
    requires Reachable(s) && IsRun(s, events) && SoundRun(s, events)
    ensures Reachable(After(s, events))
  {
    hide Step, Enabled, Initial;
    var s0, before :| Initial(s0) && IsRun(s0, before) && SoundRun(s0, before) && After(s0, before) == s;
    RunsJoin(s0, before, events);
    hide IsRun, SoundRun, After;
    assert Initial(s0) && IsRun(s0, before + events) && SoundRun(s0, before + events);
  }

  lemma ReachableStep(s: State, e: Event)
    requires Reachable(s) && Enabled(s, e) && SoundStep(s, e)
    ensures Reachable(Step(s, e))
  {
    hide *;
    OneEvent(s, e);
    ReachableRun(s, [e]);
  }

  // ---------- Nids name nodes ----------

  /** Every nid that an end tracks is below the counter, so the next one is new everywhere; 0 is
      the root; no node has two nids. */
  lemma NidsAreBelowCounter(s: State)
    requires Reachable(s)
    ensures forall k :: k in s.a.tracked ==> k < s.next
    ensures forall k :: k in s.b.tracked ==> k < s.next
    ensures s.a.tracked.Keys >= {0} && s.a.tracked[0] == s.a.root && s.b.tracked.Keys >= {0}
    ensures s.b.tracked[0] == s.b.root
    ensures forall j, k :: j in s.a.tracked && k in s.a.tracked && s.a.tracked[j] == s.a.tracked[k] ==> j == k
    ensures forall j, k :: j in s.b.tracked && k in s.b.tracked && s.b.tracked[j] == s.b.tracked[k] ==> j == k
  {
    ReachableInv(s);
    assert TrackedOk(s.a, s.next) && TrackedOk(s.b, s.next);
    hide Inv;
  }

  /** A nid tracked by both ends, the root's apart, pairs one original with one proxy, and the
      proxy knows its own nid. */
  lemma NidsPairNodes(s: State, k: Nid)
    requires Reachable(s) && k in s.a.tracked && k in s.b.tracked && k != 0
    ensures s.a.tracked[k] in s.a.own <==> s.b.tracked[k] !in s.b.own
    ensures s.a.tracked[k] in s.a.own ==> s.a.own[s.a.tracked[k]].nid == k
    ensures s.b.tracked[k] in s.b.own ==> s.b.own[s.b.tracked[k]].nid == k
  {
    ReachableInv(s);
    ProxyKnowsNid(s.a, s.b, s.ba, k, s.next);
    ProxyKnowsNid(s.b, s.a, s.ab, k, s.next);
    hide TrackedOk, EdgesOk, ProxiesOk, Placed, ListeningOk, MsgsOk, FetchOk, Reachable;
  }

  lemma ProxyKnowsNid(x: Side, y: Side, toX: seq<Msg>, k: Nid, next: Nid)
    requires Half(x, y, toX, next) && k in x.tracked
    ensures x.tracked[k] in x.own ==> x.own[x.tracked[k]].nid == k
  {
    if x.tracked[k] in x.own {
      assert ProxyOk(x, y, x.tracked[k]);
      hide EdgesOk, Placed, Paired, ListeningOk, MsgsOk, FetchOk, ProxiesOk;
    }
  }

  /** When a message is processed, the receiver already tracks the node it is about: the parent
      of the new child, or the node to subscribe to or to look in; and the sender tracks the
      new child, whose nid was drawn before. */
  lemma MessagesFindTheirNode(s: State, m: Msg)
    requires Reachable(s) && m in s.ba
    ensures (if m.ChildAdded? || m.Attach? then m.parent else m.nid) in s.a.tracked
    ensures m.ChildAdded? || m.Attach? ==>
      m.child in s.b.tracked && m.child < s.next && s.b.tracked[m.child] !in s.b.own
    ensures m.Attach? ==> m.child !in s.a.tracked
  {
    ReachableInv(s);
    assert MsgOk(s.a, s.b, m);
    if m.At? {
      assert ProxyOk(s.b, s.a, s.b.calls.fetching.value.0);
    }
  }

  lemma InvOwnBelow(s: State)
    requires Inv(s)
    ensures forall n :: n in s.a.own ==> n < s.a.nodes
  {
    OwnBelow(s.a, s.b);
  }

  /** Nothing an end has learned is ever lost or renamed: trees, tables and proxies only grow. */
  lemma StepGrows(s: State, act: Act)
    requires Inv(s) && EnabledLeft(s, act) && Sound(s, act)
    ensures Grows(s.a, StepLeft(s, act).a) && Grows(s.b, StepLeft(s, act).b) && s.next <= StepLeft(s, act).next
  {
    hide Inv, StepLeft, Grows, EnabledLeft;
    match act {
      case AppAttach(p, name) => AppAttachGrows(s, p, name);
      case FetchDone(c) => FetchDoneGrows(s, c);
      case Receive => ReceiveGrows(s);
      case _ => CallGrows(s, act);
    }
  }

  lemma AppAttachGrows(s: State, p: Node, name: Name)
    requires Inv(s) && EnabledLeft(s, AppAttach(p, name))
    ensures var s' := StepLeft(s, AppAttach(p, name)); Grows(s.a, s'.a) && Grows(s.b, s'.b) && s.next <= s'.next
  {
    OwnBelow(s.a, s.b);
    AttachNodeNew(s.a, s.b, p, name, s.next);
    AttachedGrows(s.a, s.b, p, name, s.next);
    SelfGrows(s.b);
    hide Half, AttachNode, AttachedNew, Grows;
  }

  lemma FetchDoneGrows(s: State, c: Caller)
    requires Inv(s) && EnabledLeft(s, FetchDone(c)) && Sound(s, FetchDone(c))
    ensures var s' := StepLeft(s, FetchDone(c)); Grows(s.a, s'.a) && Grows(s.b, s'.b) && s.next <= s'.next
  {
    OwnBelow(s.a, s.b);
    SelfGrows(s.b);
    hide Half, Grows;
    OnFetchedGrows(s.a);
  }

  lemma CallGrows(s: State, act: Act)
    requires EnabledLeft(s, act) && !act.AppAttach? && !act.FetchDone? && !act.Receive?
    ensures var s' := StepLeft(s, act); Grows(s.a, s'.a) && Grows(s.b, s'.b) && s.next <= s'.next
  {
  }

  lemma OnFetchedGrows(x: Side)
    requires x.calls.fetching.Some? && x.calls.reply.Some? && x.calls.fetching.value.0 in x.own
    requires forall n :: n in x.own ==> n < x.nodes
    requires x.calls.reply.value.Some? ==> x.calls.reply.value.value !in x.tracked
    ensures Grows(x, OnFetched(x))
  {
  }

  lemma ReceiveGrows(s: State)
    requires Inv(s) && EnabledLeft(s, Receive)
    ensures var s' := StepLeft(s, Receive); Grows(s.a, s'.a) && Grows(s.b, s'.b) && s.next <= s'.next
  {
    var x, y := s.a, s.b;
    DropHead(x, y, s.ba, s.next);
    OwnBelow(x, y);
    SelfGrows(x);
    SelfGrows(y);
    hide ProxiesOk, EdgesOk, Placed, Paired, ListeningOk, MsgsOk, FetchOk, TrackedOk, StepLeft;
    match s.ba[0] {
      case ChildAdded(_, k, _) =>
        if k in x.tracked {
          TrackedPlace(x, y, s.ba[0], s.next);
        }
        hide Half, Grows;
        ChildAddedGrows(s);
      case Attach(parent, k, name) =>
        AttachStep(s);
        WithProxyFields(x, k, parent, name);
        hide Half, Grows, WithProxy;
      case Subscribe(_) => hide Half; CallReceived(s);
      case At(k, name) => OnAtGrows(x, k, name, s.next); AtReceived(s); hide Half, Grows, OnAt;
      case GetValue(_) => hide Half; CallReceived(s);
    }
  }

  lemma CallReceived(s: State)
    requires EnabledLeft(s, Receive) && (s.ba[0].Subscribe? || s.ba[0].GetValue?)
    ensures var s' := StepLeft(s, Receive); Grows(s.a, s'.a) && Grows(s.b, s'.b) && s.next == s'.next
  {
  }

  lemma AtReceived(s: State)
    requires EnabledLeft(s, Receive) && s.ba[0].At?
    ensures var s' := StepLeft(s, Receive); var (a, _, next) := OnAt(s.a, s.ba[0].nid, s.ba[0].name, s.next);
      s'.a == a && s'.next == next && Grows(s.b, s'.b)
  {
    hide OnAt;
  }

  lemma ChildAddedGrows(s: State)
    requires EnabledLeft(s, Receive) && s.ba[0].ChildAdded? && s.ba[0].parent in s.a.tracked
    requires s.ba[0].child in s.a.tracked ==> s.a.tracked[s.ba[0].child] in s.a.own
    requires s.a.nodes !in s.a.own && Grows(s.a, s.a) && Grows(s.b, s.b)
    ensures var s' := StepLeft(s, Receive); Grows(s.a, s'.a) && Grows(s.b, s'.b) && s.next <= s'.next
  {
    var x, y, m := s.a, s.b, s.ba[0];
    ChildAddedStep(s);
    hide StepLeft, Grows;
    if m.child in x.tracked {
      if !Taken(x, m.parent, m.name) {
        HangGrows(x, y, x.tracked[m.parent], m.name, x.tracked[m.child], s.next);
      }
    } else {
      WithProxyFields(x, m.child, m.parent, m.name);
      hide WithProxy;
    }
  }

  lemma OnAtGrows(x: Side, k: Nid, name: Name, next: Nid)
    requires TrackedOk(x, next)
    ensures Grows(x, OnAt(x, k, name, next).0) && next <= OnAt(x, k, name, next).2
  {
    assert next !in x.tracked;
    hide TrackedOk, FindNid;
  }

  lemma EventGrows(s: State, e: Event)
    requires Inv(s) && Enabled(s, e) && SoundStep(s, e)
    ensures Grows(s.a, Step(s, e).a) && Grows(s.b, Step(s, e).b)
  {
    hide Half, Grows, StepLeft, Sound;
    StepGrows(if e.left then s else Flip(s), e.act);
  }

  lemma {:induction false} RunGrows(s: State, events: seq<Event>)
    requires Inv(s) && IsRun(s, events) && SoundRun(s, events)
    ensures Grows(s.a, After(s, events).a) && Grows(s.b, After(s, events).b)
    decreases |events|
  {
    hide Inv, Step, Enabled, Grows, SoundStep;
    SelfGrows(s.a);
    SelfGrows(s.b);
    if events != [] {
      var t := Step(s, events[0]);
      StepKeeps(s, events[0]);
      EventGrows(s, events[0]);
      RunGrows(t, events[1..]);
      GrowsFurther(s.a, t.a, After(t, events[1..]).a);
      GrowsFurther(s.b, t.b, After(t, events[1..]).b);
    }
  }

  /** However long a connection runs on, no nid changes its meaning, no proxy its nid, and no edge
      goes away. */
  lemma NothingIsForgotten(s: State, events: seq<Event>)
    requires Reachable(s) && IsRun(s, events) && SoundRun(s, events)
    ensures var t := After(s, events);
      && (forall k :: k in s.a.tracked ==> k in t.a.tracked && t.a.tracked[k] == s.a.tracked[k])
      && (forall n :: n in s.a.own ==> n in t.a.own && t.a.own[n] == s.a.own[n])
      && (forall e :: e in s.a.edges ==> e in t.a.edges && t.a.edges[e] == s.a.edges[e])
  {
    ReachableInv(s);
    RunGrows(s, events);
    hide Inv, IsRun, After, Reachable, SoundRun;
  }

  // ---------- The copy is faithful ----------

  /** Every edge to a proxy of the peer's node is an edge of the peer: same parent nid, same
      name, same child nid. */
  lemma CachedEdgesAreFaithful(s: State, k: Nid, name: Name)
    requires Reachable(s) && k in s.a.tracked && (s.a.tracked[k], name) in s.a.edges
    requires var n := s.a.edges[(s.a.tracked[k], name)]; n in s.a.own
    ensures var n := s.a.edges[(s.a.tracked[k], name)];
      && k in s.b.tracked && s.a.own[n].nid in s.b.tracked && (s.b.tracked[k], name) in s.b.edges
      && s.b.edges[(s.b.tracked[k], name)] == s.b.tracked[s.a.own[n].nid]
  {
    ReachableInv(s);
    EdgeToProxy(s.a, s.b, k, name, s.next);
  }

  /** However often and in whatever order a node of the peer was learned, by fetching it or by
      being told, there is one proxy for it and at most one edge to that proxy. */
  lemma OneProxyPerNode(s: State, n: Node, m: Node)
    requires Reachable(s) && n in s.a.own && m in s.a.own && s.a.own[n].nid == s.a.own[m].nid
    ensures n == m
    ensures forall e, f :: e in s.a.edges && f in s.a.edges && s.a.edges[e] == n && s.a.edges[f] == n ==> e == f
  {
    ReachableInv(s);
    assert ProxyOk(s.a, s.b, n) && ProxyOk(s.a, s.b, m);
    hide ProxyOk;
  }

  // ---------- Fetching ----------

  /** A fetch by `c` under way, `s` being the state before its `get` looked: nothing of this end has
      changed, and an error reply, once there, says what the peer has now. */
  predicate Fetching(s: State, t: State, c: Caller, p: Node, name: Name) {
    && Inv(t) && p in s.a.own && (p, name) !in s.a.edges && s.a.calls == NoCalls
    && t.a == s.a.(calls := NoCalls.(fetching := Some((p, name)), holder := c, reply := t.a.calls.reply))
    && Grows(s.b, t.b) && !Locked(t.b)
    && (t.a.calls.reply == Some(None) ==> NotThere(t.b, s.a.own[p].nid, name))
  }

  predicate NotThere(y: Side, k: Nid, name: Name) { k in y.tracked && (y.tracked[k], name) !in y.edges }

  function Looked(s: State, c: Caller, p: Node, name: Name): State {
    s.(a := s.a.(calls := NoCalls.(looked := map[c := (p, name)])))
  }

  function Asked(s: State, c: Caller, p: Node, name: Name): State
    requires p in s.a.own
  {
    s.(a := s.a.(calls := NoCalls.(fetching := Some((p, name)), holder := c)), ab := s.ab + [At(s.a.own[p].nid, name)])
  }

  lemma Looks(s: State, c: Caller, p: Node, name: Name)
    requires s.a.calls == NoCalls && p in s.a.own && (p, name) !in s.a.edges
    ensures Enabled(s, Event(true, Look(c, p, name))) && SoundStep(s, Event(true, Look(c, p, name)))
    ensures Step(s, Event(true, Look(c, p, name))) == Looked(s, c, p, name)
  {
    assert map[][c := (p, name)] == map[c := (p, name)];
  }

  lemma Asks(s: State, c: Caller, p: Node, name: Name)
    requires p in s.a.own
    ensures var t, e := Looked(s, c, p, name), Event(true, FetchStart(c));
      Enabled(t, e) && SoundStep(t, e) && Step(t, e) == Asked(s, c, p, name)
  {
    assert map[c := (p, name)] - {c} == map[];
  }

  lemma LooksAndAsks(s: State, c: Caller, p: Node, name: Name)
    requires s.a.calls == NoCalls && p in s.a.own && (p, name) !in s.a.edges
    ensures Enabled(s, Event(true, Look(c, p, name))) && SoundStep(s, Event(true, Look(c, p, name)))
    ensures Step(s, Event(true, Look(c, p, name))) == Looked(s, c, p, name)
    ensures Enabled(Looked(s, c, p, name), Event(true, FetchStart(c)))
    ensures SoundStep(Looked(s, c, p, name), Event(true, FetchStart(c)))
    ensures Step(Looked(s, c, p, name), Event(true, FetchStart(c))) == Asked(s, c, p, name)
    ensures Asked(s, c, p, name).ab == s.ab + [At(s.a.own[p].nid, name)] && Asked(s, c, p, name).a.calls.reply.None?
  {
    Looks(s, c, p, name);
    Asks(s, c, p, name);
    hide Enabled, Step, SoundStep;
  }

  lemma FetchStarted(s: State, c: Caller, p: Node, name: Name)
    requires Inv(s) && p in s.a.own && (p, name) !in s.a.edges && s.a.calls == NoCalls && !Locked(s.b)
    ensures Fetching(s, Asked(s, c, p, name), c, p, name)
  {
    hide Inv, Grows;
    LooksAndAsks(s, c, p, name);
    hide Step, SoundStep, Enabled;
    StepKeeps(s, Event(true, Look(c, p, name)));
    StepKeeps(Looked(s, c, p, name), Event(true, FetchStart(c)));
    SelfGrows(s.b);
  }

  lemma SelfGrows(x: Side)
    ensures Grows(x, x)
  {
  }

  lemma GrowsFurther(x: Side, y: Side, z: Side)
    requires Grows(x, y) && Grows(y, z)
    ensures Grows(x, z)
  {
  }

  /** One message of the peer's queue: only the AT at its end gives the reply. */
  lemma PeerWorks(s: State, t: State, c: Caller, p: Node, name: Name, waiting: seq<Msg>)
    requires Fetching(s, t, c, p, name) && t.a.calls.reply.None? && t.ab == waiting + [At(s.a.own[p].nid, name)]
    ensures Enabled(t, Event(false, Receive)) && SoundStep(t, Event(false, Receive))
    ensures var t' := Step(t, Event(false, Receive));
      && Fetching(s, t', c, p, name)
      && (waiting == [] ==> t'.a.calls.reply.Some?)
      && (waiting != [] ==> t'.a.calls.reply.None? && t'.ab == waiting[1..] + [At(s.a.own[p].nid, name)])
  {
    hide Inv, Grows;
    var e := Event(false, Receive);
    var f, at := Flip(t), At(s.a.own[p].nid, name);
    assert Inv(f) by { FlipInv(t); }
    StepKeeps(t, e);
    StepGrows(f, Receive);
    GrowsFurther(s.b, f.a, StepLeft(f, Receive).a);
    if waiting == [] {
      AtAnswers(f, s.a.own[p].nid, name);
    } else {
      assert f.ba[0] == waiting[0] && f.ba[1..] == waiting[1..] + [at];
      assert f.ba[|waiting|] == at;
      NoSecondAt(f, |waiting|);
      OthersDoNotAnswer(f);
    }
    hide StepLeft;
  }

  lemma FlipInv(s: State)
    requires Inv(s)
    ensures Inv(Flip(s))
  {
    hide Half;
  }

  lemma NoSecondAt(s: State, j: nat)
    requires Inv(s) && 0 < j < |s.ba| && s.ba[j].At?
    ensures !s.ba[0].At?
  {
    assert MsgsOk(s.a, s.b, s.ba);
    hide Half;
  }

  lemma OthersDoNotAnswer(s: State)
    requires EnabledLeft(s, Receive) && !s.ba[0].At? && s.b.calls.valuing.None? && !s.b.calls.valued
    ensures var s' := StepLeft(s, Receive); s'.b == s.b && s'.ba == s.ba[1..] && s'.a.calls == s.a.calls
  {
    var x := s.a;
    match s.ba[0] {
      case ChildAdded(parent, k, name) =>
        if parent in x.tracked {
          if k in x.tracked { AttachKeepsCalls(x, x.tracked[parent], name, x.tracked[k], s.next); }
          else { AttachKeepsCalls(NewProxy(x, k, parent, name), x.tracked[parent], name, x.nodes, s.next); }
        }
        hide AttachNode;
      case Attach(parent, k, name) =>
        if parent in x.tracked {
          AttachKeepsCalls(NewProxy(x, k, parent, name), x.tracked[parent], name, x.nodes, s.next);
        }
        hide AttachNode;
      case Subscribe(k) =>
      case GetValue(k) =>
    }
  }

  lemma AttachKeepsCalls(x: Side, p: Node, name: Name, n: Node, next: Nid)
    ensures AttachNode(x, p, name, n, next).0.calls == x.calls
  {
    hide FindNid;
  }

  /** An AT is answered when it is received; an error says what is so then. */
  lemma AtAnswers(s: State, k: Nid, name: Name)
    requires Inv(s) && EnabledLeft(s, Receive) && s.ba[0] == At(k, name)
    ensures var s' := StepLeft(s, Receive);
      && s'.b == s.b.(calls := s.b.calls.(reply := s'.b.calls.reply)) && s'.b.calls.reply.Some?
        && s'.a.calls == s.a.calls
      && (s'.b.calls.reply == Some(None) ==> NotThere(s'.a, k, name))
  {
    DropHead(s.a, s.b, s.ba, s.next);
    hide TrackedOk, EdgesOk, ProxiesOk, Placed, Paired, ListeningOk, MsgsOk, FetchOk;
    AtFinds(s.a, s.b, k, name, s.next);
    hide Half;
    AtIs(s, k, name);
    hide StepLeft;
  }

  lemma AtIs(s: State, k: Nid, name: Name)
    requires EnabledLeft(s, Receive) && s.ba[0] == At(k, name) && k in s.a.tracked
    ensures var s' := StepLeft(s, Receive);
      && s'.b == s.b.(calls := s.b.calls.(reply := s'.b.calls.reply)) && s'.b.calls.reply.Some?
        && s'.a.calls == s.a.calls
      && (s'.b.calls.reply == Some(None) ==> NotThere(s'.a, k, name))
  {
    hide FindNid;
  }

  /** What the reply leaves behind: a proxy for the peer's node of that name, or no such node. */
  predicate FetchResult(t: State, p: Node, name: Name, r: Option<Node>) {
    p in t.a.own &&
    match r
    case Some(n) =>
      && n in t.a.own && (p, name) in t.a.edges && t.a.edges[(p, name)] == n
      && Known(t.b, t.a.own[p].nid, t.a.own[n].nid, name)
    case None => NotThere(t.b, t.a.own[p].nid, name)
  }

  /** What a reply names was not learned in the meantime: the name is free, as it was at the lookup,
      and nobody else is about to insert anything. */
  lemma ReplyIsNew(x: Side, y: Side, next: Nid)
    requires TrackedOk(x, next) && TrackedOk(y, next) && EdgesOk(y) && ProxiesOk(x, y) && Paired(x, y) && FetchOk(x, y)
    requires x.calls.fetching.Some? && x.calls.fetching.value !in x.edges && x.calls.loose == map[]
    requires x.calls.reply.Some? && x.calls.reply.value.Some? && x.calls.fetching.value.0 in x.own
    ensures x.calls.reply.value.value !in x.tracked
    ensures Known(y, x.own[x.calls.fetching.value.0].nid, x.calls.reply.value.value, x.calls.fetching.value.1)
  {
    var (p, name) := x.calls.fetching.value;
    var k := x.calls.reply.value.value;
    assert Known(y, x.own[p].nid, k, name);
    hide FetchOk, Known;
    if k in x.tracked {
      ProxyAt(x, y, p, k, name, next);
    }
  }

  /** A tracked node that the peer has under the name of one of its originals is the proxy learned
      there. */
  lemma ProxyAt(x: Side, y: Side, p: Node, k: Nid, name: Name, next: Nid)
    requires TrackedOk(x, next) && TrackedOk(y, next) && EdgesOk(y) && ProxiesOk(x, y) && Paired(x, y)
    requires p in x.own && k in x.tracked && Known(y, x.own[p].nid, k, name)
    ensures x.tracked[k] in x.own && x.own[x.tracked[k]] == Proxy(k, x.own[p].nid, name)
    ensures (p, name) in x.edges || IsLoose(x, x.tracked[k])
  {
    var n := x.tracked[k];
    assert n in x.own;
    assert ProxyOk(x, y, n) && ProxyOk(x, y, p);
    assert x.own[n].nid == k;
    hide ProxiesOk, Paired;
    SamePlace(y, x.own[n].parent, x.own[p].nid, k, x.own[n].name, name, next);
  }

  function Fetched(t: State): State
    requires t.a.calls.fetching.Some? && t.a.calls.reply.Some? && t.a.calls.fetching.value.0 in t.a.own
  {
    t.(a := OnFetched(t.a))
  }

  lemma ReplyIsNewIn(t: State)
    requires Inv(t) && t.a.calls.fetching.Some? && t.a.calls.fetching.value !in t.a.edges && t.a.calls.loose == map[]
    requires t.a.calls.reply.Some? && t.a.calls.reply.value.Some?
    ensures var (p, name) := t.a.calls.fetching.value; var k := t.a.calls.reply.value.value;
      p in t.a.own && k !in t.a.tracked && Known(t.b, t.a.own[p].nid, k, name)
  {
    assert FetchOk(t.a, t.b);
    ReplyIsNew(t.a, t.b, t.next);
    hide Half, Known;
  }

  lemma FetchDoneIs(t: State, c: Caller)
    requires t.a.calls.fetching.Some? && t.a.calls.holder == c && t.a.calls.reply.Some?
    requires t.a.calls.fetching.value.0 in t.a.own
    requires t.a.calls.reply.value.Some? ==> t.a.calls.reply.value.value !in t.a.tracked
    ensures Enabled(t, Event(true, FetchDone(c))) && SoundStep(t, Event(true, FetchDone(c)))
    ensures Step(t, Event(true, FetchDone(c))) == Fetched(t)
  {
    hide OnFetched;
  }

  lemma FetchIsSound(s: State, t: State, c: Caller, p: Node, name: Name)
    requires Fetching(s, t, c, p, name) && t.a.calls.reply.Some?
    ensures Enabled(t, Event(true, FetchDone(c))) && SoundStep(t, Event(true, FetchDone(c)))
    ensures Step(t, Event(true, FetchDone(c))) == Fetched(t)
    ensures t.a.calls.reply.value.Some? ==>
      t.a.calls.reply.value.value !in t.a.tracked && Known(t.b, t.a.own[p].nid, t.a.calls.reply.value.value, name)
  {
    hide Inv, Known, Fetched, Grows, Enabled, SoundStep, Step;
    if t.a.calls.reply.value.Some? {
      ReplyIsNewIn(t);
    }
    FetchDoneIs(t, c);
  }

  /** After the fetch: nothing more if there was no such child, else the proxy is inserted. */
  lemma FetchEnds(s: State, t: State, c: Caller, p: Node, name: Name)
    requires Fetching(s, t, c, p, name) && t.a.calls.reply == Some(None)
    ensures var t' := Fetched(t);
      && Inv(t') && Grows(s.a, t'.a) && Grows(s.b, t'.b) && t'.a.calls == NoCalls && !Locked(t'.b)
      && FetchResult(t', p, name, None)
  {
    FetchIsSound(s, t, c, p, name);
    hide Half, Step, Enabled, SoundStep;
    StepKeeps(t, Event(true, FetchDone(c)));
    SelfGrows(s.a);
    hide Inv;
  }

  lemma FetchInserts(s: State, t: State, c: Caller, p: Node, name: Name)
    requires Fetching(s, t, c, p, name) && t.a.calls.reply.Some? && t.a.calls.reply.value.Some?
    ensures Enabled(Fetched(t), Event(true, Insert(c))) && SoundStep(Fetched(t), Event(true, Insert(c)))
    ensures var t' := Step(Fetched(t), Event(true, Insert(c)));
      && Inv(t') && Grows(s.a, t'.a) && Grows(s.b, t'.b) && t'.a.calls == NoCalls && !Locked(t'.b)
      && FetchResult(t', p, name, Some(t.a.nodes))
  {
    FetchIsSound(s, t, c, p, name);
    InsertStep(t, c, p, name);
    hide Half, Step, Enabled, SoundStep, Known;
    StepKeeps(t, Event(true, FetchDone(c)));
    StepKeeps(Fetched(t), Event(true, Insert(c)));
    FetchedGrows(s, t, c, p, name);
    hide Inv, Grows;
  }

  lemma InsertStep(t: State, c: Caller, p: Node, name: Name)
    requires t.a.calls.fetching == Some((p, name)) && t.a.calls.holder == c && t.a.calls.loose == map[]
    requires t.a.calls.reply.Some? && t.a.calls.reply.value.Some? && p in t.a.own && (p, name) !in t.a.edges
    ensures Enabled(Fetched(t), Event(true, Insert(c))) && SoundStep(Fetched(t), Event(true, Insert(c)))
    ensures var k := t.a.calls.reply.value.value;
      Step(Fetched(t), Event(true, Insert(c)))
        == t.(a := WithEdge(NewProxy(t.a, k, t.a.own[p].nid, name), p, name, t.a.nodes)
                    .(calls := t.a.calls.(fetching := None, holder := 0, reply := None)))
  {
    var l := Loose(p, name, t.a.nodes);
    assert map[][c := l] - {c} == map[];
  }

  lemma FetchedGrows(s: State, t: State, c: Caller, p: Node, name: Name)
    requires Fetching(s, t, c, p, name) && t.a.calls.reply.Some? && t.a.calls.reply.value.Some?
    requires t.a.calls.reply.value.value !in t.a.tracked
    requires Known(t.b, t.a.own[p].nid, t.a.calls.reply.value.value, name)
    ensures var k := t.a.calls.reply.value.value;
      var t' := t.(a := WithEdge(NewProxy(t.a, k, t.a.own[p].nid, name), p, name, t.a.nodes)
                          .(calls := t.a.calls.(fetching := None, holder := 0, reply := None)));
      Grows(s.a, t'.a) && FetchResult(t', p, name, Some(t.a.nodes))
  {
    OwnBelow(t.a, t.b);
    hide Inv, Known;
    NewProxyGrows(s.a, t.a, t.a.calls.reply.value.value, t.a.own[p].nid, p, name);
  }

  lemma NewProxyGrows(x0: Side, x: Side, k: Nid, parent: Nid, p: Node, name: Name)
    requires SameTables(x0, x) && k !in x.tracked && (p, name) !in x.edges && p in x.own && forall n :: n in x.own ==>
      n < x.nodes
    ensures forall c :: Grows(x0, WithEdge(NewProxy(x, k, parent, name), p, name, x.nodes).(calls := c))
    ensures NewProxy(x, k, parent, name).own == x.own[x.nodes := Proxy(k, parent, name)] && p != x.nodes
  {
  }

  /** `fetch_node`, and the insertion that follows it: AT is sent, and the caller blocks until the
      peer, working off its queue, has answered. The peer must not be blocked itself. */
  method FetchNode(s: State, c: Caller, p: Node, name: Name) returns (t: State, r: Option<Node>)
    requires Reachable(s) && p in s.a.own && (p, name) !in s.a.edges && s.a.calls == NoCalls && !Locked(s.b)
    ensures Reachable(t) && Grows(s.a, t.a) && Grows(s.b, t.b) && t.a.calls == NoCalls && !Locked(t.b)
    ensures FetchResult(t, p, name, r)
  {
    hide *;
    ReachableInv(s);
    FetchStarted(s, c, p, name);
    LooksAndAsks(s, c, p, name);
    t := Step(s, Event(true, Look(c, p, name)));
    ReachableStep(s, Event(true, Look(c, p, name)));
    ReachableStep(t, Event(true, FetchStart(c)));
    t := Step(t, Event(true, FetchStart(c)));
    ghost var waiting := s.ab;
    while t.a.calls.reply.None?
      invariant Fetching(s, t, c, p, name) && Reachable(t)
      invariant t.a.calls.reply.None? ==> t.ab == waiting + [At(s.a.own[p].nid, name)]
      decreases |waiting|, t.a.calls.reply.None?
    {
      PeerWorks(s, t, c, p, name, waiting);
      ReachableStep(t, Event(false, Receive));
      t := Step(t, Event(false, Receive));
      if waiting != [] {
        waiting := waiting[1..];
      }
    }
    FetchIsSound(s, t, c, p, name);
    ReachableStep(t, Event(true, FetchDone(c)));
    if t.a.calls.reply.value.None? {
      FetchEnds(s, t, c, p, name);
      r := None;
      t := Step(t, Event(true, FetchDone(c)));
    } else {
      FetchInserts(s, t, c, p, name);
      r := Some(t.a.nodes);
      t := Step(t, Event(true, FetchDone(c)));
      ReachableStep(t, Event(true, Insert(c)));
      t := Step(t, Event(true, Insert(c)));
    }
  }

  // ---------- client_node::get ----------

  /** Following a path of names down one end's tree. */
  function Walk(x: Side, n: Node, path: seq<Name>): Option<Node>
    decreases |path|
  {
    if path == [] then Some(n)
    else if (n, path[0]) !in x.edges then None
    else Walk(x, x.edges[(n, path[0])], path[1..])
  }

  /** Whatever happened in between, and however much of it was cached: where a path of proxies leads
      to at this end, it leads at the peer to the node that the last of them stands for. */
  lemma {:induction false} PathsAreFaithful(s: State, p: Node, path: seq<Name>)
    requires Reachable(s) && p in s.a.own && AllProxies(s.a, p, path)
    ensures Walk(s.a, p, path).Some? && Walk(s.a, p, path).value in s.a.own
    ensures var n := Walk(s.a, p, path).value;
      && s.a.own[p].nid in s.b.tracked && s.a.own[n].nid in s.b.tracked
      && Walk(s.b, s.b.tracked[s.a.own[p].nid], path) == Some(s.b.tracked[s.a.own[n].nid])
    decreases |path|
  {
    hide Reachable, Known;
    ProxyStandsForSomething(s, p);
    if path != [] {
      var n := s.a.edges[(p, path[0])];
      CachedStep(s, p, path[0], n);
      PathsAreFaithful(s, n, path[1..]);
      StepDown(s, p, n, path);
    }
  }

  lemma StepDown(s: State, p: Node, n: Node, path: seq<Name>)
    requires path != [] && p in s.a.own && n in s.a.own && Known(s.b, s.a.own[p].nid, s.a.own[n].nid, path[0])
    ensures Walk(s.b, s.b.tracked[s.a.own[p].nid], path) == Walk(s.b, s.b.tracked[s.a.own[n].nid], path[1..])
  {
  }

  predicate AllProxies(x: Side, p: Node, path: seq<Name>)
    decreases |path|
  {
    path != [] ==>
      (p, path[0]) in x.edges && x.edges[(p, path[0])] in x.own && AllProxies(x, x.edges[(p, path[0])], path[1..])
  }

  datatype Found =
    | Here(node: Node)                       // a proxy of the peer's node
    | Local(node: Node, rest: seq<Name>)     // a node of this end; its own lookup goes on
    | Nowhere

  /** What was found at a path stays there. */
  lemma {:induction false} FoundStays(x: Side, x': Side, n: Node, path: seq<Name>)
    requires Grows(x, x') && Walk(x, n, path).Some?
    ensures Walk(x', n, path) == Walk(x, n, path)
    decreases |path|
  {
    if path != [] {
      FoundStays(x, x', x.edges[(n, path[0])], path[1..]);
    }
  }

  lemma ProxyStandsForSomething(t: State, n: Node)
    requires Reachable(t) && n in t.a.own
    ensures t.a.own[n].nid in t.b.tracked && t.a.own[n].nid in t.a.tracked && t.a.tracked[t.a.own[n].nid] == n
  {
    ReachableInv(t);
    assert ProxyOk(t.a, t.b, n);
    hide Half, Reachable;
  }

  /** A cached edge between proxies is an edge between the nodes they stand for. */
  lemma CachedStep(t: State, p: Node, name: Name, n: Node)
    requires Reachable(t) && p in t.a.own && (p, name) in t.a.edges && t.a.edges[(p, name)] == n && n in t.a.own
    ensures Known(t.b, t.a.own[p].nid, t.a.own[n].nid, name)
  {
    ReachableInv(t);
    ProxyStandsForSomething(t, p);
    EdgeToProxy(t.a, t.b, t.a.own[p].nid, name, t.next);
    hide Half, Known, Reachable;
  }

  /** `get`: cached children are followed, the others are fetched if `create`. What it returns is
      a proxy of the very node that the peer has at that path, or nothing, and then the peer has
      nothing there either. */
  method Get(s: State, c: Caller, p: Node, path: seq<Name>, create: bool) returns (t: State, r: Found)
    requires Reachable(s) && p in s.a.own && s.a.calls == NoCalls && !Locked(s.b)
    ensures Reachable(t) && Grows(s.a, t.a) && Grows(s.b, t.b) && t.a.calls == NoCalls && !Locked(t.b)
    ensures !create ==> t == s
    ensures p in t.a.own && t.a.own[p].nid in t.b.tracked
    ensures var start := t.b.tracked[t.a.own[p].nid];
      match r
      case Here(n) => n in t.a.own && t.a.own[n].nid in t.b.tracked
        && Walk(t.b, start, path) == Some(t.b.tracked[t.a.own[n].nid])
      case Local(n, rest) => n !in t.a.own && |rest| < |path| && path[|path| - |rest|..] == rest
        && Walk(t.a, p, path[..|path| - |rest|]) == Some(n)
      case Nowhere => if create then Walk(t.b, start, path) == None else Walk(t.a, p, path) == None
    decreases |path|
  {
    hide Reachable, Grows, Known;
    t := s;
    SelfGrows(s.a);
    SelfGrows(s.b);
    if path == [] {
      ProxyStandsForSomething(t, p);
      return t, Here(p);
    }
    var name, rest := path[0], path[1..];
    if (p, name) !in t.a.edges {
      if !create {
        ProxyStandsForSomething(t, p);
        return t, Nowhere;
      }
      var fetched;
      t, fetched := FetchNode(t, c, p, name);
      if fetched.None? {
        return t, Nowhere;
      }
    }
    GrowsKeepsProxy(s.a, t.a, p);
    var n := t.a.edges[(p, name)];
    if n !in t.a.own {
      ProxyStandsForSomething(t, p);
      LocalFound(t.a, p, path, n);
      return t, Local(n, rest);
    }
    ghost var t1 := t;
    t, r := Get(t, c, n, rest, create);
    GetDown(s, t1, t, p, name, n, rest, path);
  }

  lemma GrowsKeepsProxy(x: Side, y: Side, p: Node)
    requires Grows(x, y)
    ensures p in x.own ==> p in y.own && y.own[p] == x.own[p]
  {
  }

  lemma LocalFound(x: Side, p: Node, path: seq<Name>, n: Node)
    requires path != [] && (p, path[0]) in x.edges && x.edges[(p, path[0])] == n
    ensures Walk(x, p, path[..1]) == Some(n) && path[|path| - |path[1..]|..] == path[1..] && |path| - |path[1..]| == 1
  {
    assert path[..1][1..] == [];
  }

  lemma WalkDownTo(x: Side, p: Node, name: Name, rest: seq<Name>, path: seq<Name>, i: nat)
    requires path == [name] + rest && (p, name) in x.edges && i <= |rest|
    ensures Walk(x, p, path[..i + 1]) == Walk(x, x.edges[(p, name)], rest[..i]) && path[i + 1..] == rest[i..]
  {
    assert path[..i + 1][1..] == rest[..i];
    assert path[..i + 1][0] == name;
  }

  lemma WalkDown(x: Side, p: Node, name: Name, rest: seq<Name>, path: seq<Name>)
    requires path == [name] + rest && (p, name) in x.edges
    ensures Walk(x, p, path) == Walk(x, x.edges[(p, name)], rest)
    ensures forall i :: 0 <= i <= |rest| ==> Walk(x, p, path[..i + 1]) == Walk(x, x.edges[(p, name)], rest[..i])
    ensures forall i :: 0 <= i <= |rest| ==> path[i + 1..] == rest[i..]
  {
    WalkDownTo(x, p, name, rest, path, |rest|);
    assert path[..|rest| + 1] == path && rest[..|rest|] == rest;
    hide Walk;
    forall i | 0 <= i <= |rest|
      ensures Walk(x, p, path[..i + 1]) == Walk(x, x.edges[(p, name)], rest[..i]) && path[i + 1..] == rest[i..]
    {
      WalkDownTo(x, p, name, rest, path, i);
    }
  }

  /** From what was found below the first segment to what was found along the whole path. */
  lemma GetDown(s: State, t1: State, t: State, p: Node, name: Name, n: Node, rest: seq<Name>, path: seq<Name>)
    requires Grows(s.a, t1.a) && Grows(s.b, t1.b) && Grows(t1.a, t.a) && Grows(t1.b, t.b) && Reachable(t)
    requires path == [name] + rest && p in s.a.own && p in t1.a.own && (p, name) in t1.a.edges
    requires t1.a.edges[(p, name)] == n && n in t1.a.own
    ensures Grows(s.a, t.a) && Grows(s.b, t.b)
    ensures p in t.a.own && n in t.a.own && t.a.own[p].nid in t.b.tracked && t.a.own[n].nid in t.b.tracked
    ensures Walk(t.b, t.b.tracked[t.a.own[p].nid], path) == Walk(t.b, t.b.tracked[t.a.own[n].nid], rest)
    ensures Walk(t.a, p, path) == Walk(t.a, n, rest)
    ensures forall i :: 0 <= i <= |rest| ==> Walk(t.a, p, path[..i + 1]) == Walk(t.a, n, rest[..i])
    ensures forall i :: 0 <= i <= |rest| ==> path[i + 1..] == rest[i..]
  {
    hide Reachable, Grows, Walk;
    GrowsFurther(s.a, t1.a, t.a);
    GrowsFurther(s.b, t1.b, t.b);
    GrowsKeepsProxy(t1.a, t.a, p);
    GrowsKeepsProxy(t1.a, t.a, n);
    EdgeStays(t1.a, t.a, p, name);
    CachedStep(t, p, name, n);
    WalkDown(t.a, p, name, rest, path);
    WalkDown(t.b, t.b.tracked[t.a.own[p].nid], name, rest, path);
  }

  lemma EdgeStays(x: Side, y: Side, p: Node, name: Name)
    requires Grows(x, y) && (p, name) in x.edges
    ensures (p, name) in y.edges && y.edges[(p, name)] == x.edges[(p, name)]
  {
  }

  // ---------- Each node is announced once ----------

  predicate Structural(m: Msg) { m.ChildAdded? || m.Attach? }

  /** The messages that a step of the left end appends to its queue. */
  function SentByLeft(s: State, act: Act): seq<Msg>
    requires EnabledLeft(s, act)
  {
    match act
    case AppAttach(p, name) => AttachNode(NewNode(s.a), p, name, s.a.nodes, s.next).1
    case FetchStart(c) => [At(s.a.own[s.a.calls.looked[c].0].nid, s.a.calls.looked[c].1)]
    case ValueStart(k) => [GetValue(k)]
    case Look(_, _, _) => []
    case FetchDone(_) => []
    case Insert(_) => []
    case ValueDone => []
    case Receive =>
      match s.ba[0]
      case ChildAdded(parent, k, name) => OnChildAdded(s.a, parent, k, name, s.next).1
      case Attach(parent, k, name) => OnAttach(s.a, parent, k, name, s.next).1
      case Subscribe(k) => []
      case At(k, name) => []
      case GetValue(k) => []
  }

  lemma SentIsAppended(s: State, act: Act)
    requires EnabledLeft(s, act)
    ensures StepLeft(s, act).ab == s.ab + SentByLeft(s, act)
  {
    hide AttachNode, OnChildAdded, OnAttach;
    assert s.ab + [] == s.ab;
  }

  lemma AnnouncedFresh(s: State, act: Act)
    requires Inv(s) && EnabledLeft(s, act) && Sound(s, act)
    ensures var s' := StepLeft(s, act); var ms := SentByLeft(s, act);
      && |ms| <= 1
      && (|ms| == 1 && Structural(ms[0]) ==>
            && act.AppAttach? && ms[0].child == s.next && s'.next == s.next + 1
            && s.next in s'.a.tracked && s'.a.tracked[s.next] == s.a.nodes && s.a.nodes !in s'.a.own)
      && s.next <= s'.next
  {
    hide Inv, StepLeft, Grows, Sound;
    StepGrows(s, act);
    match act {
      case AppAttach(p, name) =>
        hide SentByLeft;
        AttachAnnounces(s, p, name);
      case Receive =>
        hide SentByLeft;
        ReceiveSends(s);
        var ms := SentByLeft(s, act);
        assert |ms| == 1 ==> ms[0] in ms;
      case _ =>
    }
  }

  lemma AttachAnnounces(s: State, p: Node, name: Name)
    requires Inv(s) && EnabledLeft(s, AppAttach(p, name))
    ensures var s' := StepLeft(s, AppAttach(p, name)); var ms := SentByLeft(s, AppAttach(p, name));
      && |ms| <= 1
      && (|ms| == 1 && Structural(ms[0]) ==>
            && ms[0].child == s.next && s'.next == s.next + 1
            && s.next in s'.a.tracked && s'.a.tracked[s.next] == s.a.nodes && s.a.nodes !in s'.a.own)
  {
    OwnBelow(s.a, s.b);
    AttachNodeNew(s.a, s.b, p, name, s.next);
    hide Half, AttachNode;
  }

  lemma HeadIsProxy(s: State)
    requires Inv(s) && s.ba != [] && s.ba[0].ChildAdded? && s.ba[0].child in s.a.tracked
    ensures s.a.tracked[s.ba[0].child] in s.a.own
  {
    DropHead(s.a, s.b, s.ba, s.next);
    hide ProxiesOk, EdgesOk, Placed, Paired, ListeningOk, MsgsOk, FetchOk, TrackedOk, MsgOk;
    TrackedPlace(s.a, s.b, s.ba[0], s.next);
    hide Half;
  }

  /** Processing a message sends nothing but a subscription. */
  lemma ReceiveSends(s: State)
    requires Inv(s) && EnabledLeft(s, Receive)
    ensures var ms := SentByLeft(s, Receive); |ms| <= 1 && forall m :: m in ms ==> m.Subscribe?
  {
    hide Inv, OnChildAdded, OnAttach;
    match s.ba[0] {
      case ChildAdded(parent, k, name) =>
        if k in s.a.tracked {
          HeadIsProxy(s);
        }
        ChildAddedSends(s.a, parent, k, name, s.next);
      case Attach(parent, k, name) => AttachSends(s.a, parent, k, name, s.next);
      case _ =>
    }
  }

  lemma ChildAddedSends(x: Side, parent: Nid, k: Nid, name: Name, next: Nid)
    requires k in x.tracked ==> x.tracked[k] in x.own
    ensures var ms := OnChildAdded(x, parent, k, name, next).1; ms == [] || ms == [Subscribe(k)]
  {
    if parent in x.tracked && k !in x.tracked {
      LearnIsWithProxy(x, k, parent, name, next);
      assert [Subscribe(k)] + [] == [Subscribe(k)];
      hide WithProxy, AttachNode;
    }
  }

  lemma AttachSends(x: Side, parent: Nid, k: Nid, name: Name, next: Nid)
    ensures var ms := OnAttach(x, parent, k, name, next).1; ms == [] || ms == [Subscribe(k)]
  {
    if parent in x.tracked {
      LearnIsWithProxy(x, k, parent, name, next);
      assert [] + [Subscribe(k)] == [Subscribe(k)];
      hide WithProxy, AttachNode;
    }
  }

  /** The child that a step announces, if any. */
  function AnnouncedBy(s: State, e: Event): seq<Nid>
    requires Enabled(s, e)
  {
    var ms := SentByLeft(if e.left then s else Flip(s), e.act);
    if |ms| == 1 && Structural(ms[0]) then [ms[0].child] else []
  }

  /** The children announced in a run, by either end, in order. */
  function Announced(s: State, events: seq<Event>): seq<Nid>
    requires IsRun(s, events)
    decreases |events|
  {
    if events == [] then [] else AnnouncedBy(s, events[0]) + Announced(Step(s, events[0]), events[1..])
  }

  lemma AnnouncedByIsFresh(s: State, e: Event)
    requires Inv(s) && Enabled(s, e) && SoundStep(s, e)
    ensures var ks := AnnouncedBy(s, e); ks == [] || (ks == [s.next] && Step(s, e).next == s.next + 1)
    ensures s.next <= Step(s, e).next
  {
    hide Half, StepLeft, SentByLeft;
    AnnouncedFresh(if e.left then s else Flip(s), e.act);
  }

  predicate Ascending(ks: seq<Nid>, from: Nid) {
    && (forall i :: 0 <= i < |ks| ==> ks[i] >= from)
    && (forall i, j :: 0 <= i < j < |ks| ==> ks[i] < ks[j])
  }

  lemma Prepended(ks: seq<Nid>, k: Nid, from: Nid)
    requires Ascending(ks, from)
    ensures k < from ==> Ascending([k] + ks, k)
    ensures k <= from ==> Ascending(ks, k)
  {
  }

  /** Only an attach by the application announces anything: once, a node that is not a proxy of
      this connection, under a nid drawn for it in this step. What arrives is never passed back. */
  lemma OnlyAttachAnnounces(s: State, act: Act, m: Msg)
    requires Reachable(s) && EnabledLeft(s, act) && Sound(s, act) && m in SentByLeft(s, act) && Structural(m)
    ensures var s' := StepLeft(s, act);
      && act.AppAttach? && SentByLeft(s, act) == [m] && s'.ab == s.ab + [m]
      && m.child == s.next && s'.a.tracked[m.child] == s.a.nodes && s.a.nodes !in s'.a.own
      && forall k :: k in s.a.tracked || k in s.b.tracked ==> k != m.child
  {
    hide Inv, StepLeft, SentByLeft, Reachable, EnabledLeft;
    ReachableInv(s);
    AnnouncedFresh(s, act);
    SentIsAppended(s, act);
    NidsAreBelowCounter(s);
    var ms := SentByLeft(s, act);
    assert ms == [m];
  }

  lemma {:induction false} AnnouncedInOrder(s: State, events: seq<Event>)
    requires Inv(s) && IsRun(s, events) && SoundRun(s, events)
    ensures Ascending(Announced(s, events), s.next)
    decreases |events|
  {
    hide Inv, Step, AnnouncedBy, Ascending, SoundStep;
    if events == [] {
      assert Ascending([], s.next) by { AscendingNothing(s.next); }
    } else {
      var t := Step(s, events[0]);
      var rest := Announced(t, events[1..]);
      AnnouncedByIsFresh(s, events[0]);
      StepKeeps(s, events[0]);
      AnnouncedInOrder(t, events[1..]);
      Prepended(rest, s.next, t.next);
      assert [] + rest == rest;
    }
  }

  /** Over a whole run, in both directions together, no child is announced twice. */
  lemma AnnouncedOnce(s: State, events: seq<Event>)
    requires Initial(s) && IsRun(s, events) && SoundRun(s, events)
    ensures var ks := Announced(s, events); forall i, j :: 0 <= i < j < |ks| ==> ks[i] != ks[j]
  {
    InitialInv(s);
    AnnouncedInOrder(s, events);
    hide Announced;
  }

  lemma AscendingNothing(from: Nid)
    ensures Ascending([], from)
  {
  }
}
