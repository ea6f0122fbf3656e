/** `get` looks a child up before it takes the lock to fetch it, and inserts it after it gave the lock
    back. What may come in between, other callers at work on the same child included, and what exactly
    it does. */
module MirrorRaces {
  import opened Bytes
  import opened Packages
  import opened Mirror
  import opened MirrorProof
  import opened MirrorRuns
  import opened MirrorWaits

  /** What can happen at a place, that is under a name of a proxy at the left end. */
  datatype Cause =
    | Hears      // a CHILD_ADDED for it is handled, or an ATTACH, which in a sound run does not come
    | Attaches   // the application attaches a node there
    | Fetches    // a caller gets the reply that the peer has a child there, and tracks a proxy for it
    | Inserts    // a caller inserts there what it fetched
    | PeerTakes  // the peer handles an ATTACH for it, having nothing under that name

  predicate Happens(w: Cause, s: State, e: Event, p: Node, name: Name) {
    match w
    case Hears =>
      && e.left && e.act.Receive? && s.ba != [] && Structural(s.ba[0])
      && s.ba[0].parent in s.a.tracked && s.a.tracked[s.ba[0].parent] == p && s.ba[0].name == name
    case Attaches => e.left && e.act == AppAttach(p, name)
    case Fetches =>
      && e.left && e.act.FetchDone? && s.a.calls.fetching == Some((p, name))
      && s.a.calls.reply.Some? && s.a.calls.reply.value.Some?
    case Inserts =>
      && e.left && e.act.Insert? && e.act.c in s.a.calls.loose
      && s.a.calls.loose[e.act.c].p == p && s.a.calls.loose[e.act.c].name == name
    case PeerTakes =>
      && !e.left && e.act.Receive? && s.ab != [] && s.ab[0].Attach? && p in s.a.own
      && s.ab[0].parent == s.a.own[p].nid && s.ab[0].name == name && !Taken(s.b, s.ab[0].parent, name)
  }

  predicate HappensIn(w: Cause, s: State, events: seq<Event>, p: Node, name: Name)
    requires IsRun(s, events)
    decreases |events|
  {
    events != [] && (Happens(w, s, events[0], p, name) || HappensIn(w, Step(s, events[0]), events[1..], p, name))
  }

  lemma FirstHappens(w: Cause, s: State, events: seq<Event>, p: Node, name: Name)
    requires IsRun(s, events) && events != []
    ensures HappensIn(w, s, events, p, name)
      <==> Happens(w, s, events[0], p, name) || HappensIn(w, Step(s, events[0]), events[1..], p, name)
  {
    hide Step, Happens, Enabled;
  }

  lemma NothingYet(s: State, p: Node, name: Name)
    ensures After(s, []) == s && forall w :: !HappensIn(w, s, [], p, name)
  {
  }

  /** The caller neither ends its `get` nor begins another. */
  predicate InGet(e: Event, c: Caller, fetched: bool) {
    e.left ==> !(e.act.Look? && e.act.c == c) && e.act != Insert(c) && (e.act == FetchDone(c) ==> fetched)
  }

  predicate SameGet(events: seq<Event>, c: Caller, fetched: bool) {
    forall e :: e in events ==> InGet(e, c, fetched)
  }

  lemma FirstInGet(events: seq<Event>, c: Caller, fetched: bool)
    requires SameGet(events, c, fetched) && events != []
    ensures InGet(events[0], c, fetched) && SameGet(events[1..], c, fetched)
  {
  }

  lemma FirstOfRun(s: State, events: seq<Event>)
    requires IsRun(s, events) && events != []
    ensures Enabled(s, events[0])
    ensures var t := Step(s, events[0]); IsRun(t, events[1..]) && After(s, events) == After(t, events[1..])
  {
    hide Step, Enabled;
  }

  lemma FirstSound(s: State, events: seq<Event>)
    requires IsRun(s, events) && SoundRun(s, events) && events != []
    ensures Enabled(s, events[0]) && SoundStep(s, events[0])
    ensures var t := Step(s, events[0]); IsRun(t, events[1..]) && SoundRun(t, events[1..])
  {
    hide Step, SoundStep, Enabled;
  }

  lemma StepOwn(s: State, e: Event, p: Node)
    requires Inv(s) && Enabled(s, e) && SoundStep(s, e) && p in s.a.own
    ensures Inv(Step(s, e)) && p in Step(s, e).a.own && Step(s, e).a.own[p] == s.a.own[p]
  {
    StepKeeps(s, e);
    EventGrows(s, e);
    hide Inv, Step;
  }

  /** A step of one end changes nothing at the other but its callers' answers. */
  lemma PeerLeavesTables(s: State, act: Act)
    requires EnabledLeft(s, act)
    ensures StepLeft(s, act).b == s.b.(calls := StepLeft(s, act).b.calls)
  {
    if act.Receive? {
      ReceiveShows(s);
      hide StepLeft;
    } else {
      hide AttachNode, OnFetched, OnInsert;
    }
  }

  // ---------- A caller stays at its place ----------

  /** The caller is at one of the three points of a `get` of this place, or it is done. */
  predicate Wants(x: Side, c: Caller, p: Node, name: Name) {
    && (c in x.calls.looked ==> x.calls.looked[c] == (p, name))
    && (x.calls.fetching.Some? && x.calls.holder == c ==> x.calls.fetching.value == (p, name))
    && (c in x.calls.loose ==> x.calls.loose[c].p == p && x.calls.loose[c].name == name)
  }

  /** Of an end's callers, those that its own steps leave as they are. */
  predicate SameCalls(x: Side, x': Side) {
    && x'.calls.looked == x.calls.looked && x'.calls.fetching == x.calls.fetching
    && x'.calls.holder == x.calls.holder && x'.calls.loose == x.calls.loose
  }

  lemma ReceiveKeepsCalls(s: State)
    requires EnabledLeft(s, Receive)
    ensures SameCalls(s.a, StepLeft(s, Receive).a) && SameCalls(s.b, StepLeft(s, Receive).b)
  {
    ReceiveShows(s);
    hide StepLeft;
  }

  lemma ActKeepsCalls(s: State, act: Act)
    requires EnabledLeft(s, act) && (act.AppAttach? || act.ValueStart? || act.ValueDone?)
    ensures SameCalls(s.a, StepLeft(s, act).a)
  {
    if act.AppAttach? {
      AttachKeepsOwn(NewNode(s.a), act.p, act.name, s.a.nodes, s.next);
    }
    hide AttachNode;
  }

  lemma CallKeepsWants(s: State, act: Act, c: Caller, p: Node, name: Name)
    requires EnabledLeft(s, act) && Wants(s.a, c, p, name) && InGet(Event(true, act), c, true)
    requires act.Look? || act.FetchStart? || act.FetchDone? || act.Insert?
    ensures Wants(StepLeft(s, act).a, c, p, name)
  {
  }

  lemma StepKeepsWants(s: State, e: Event, c: Caller, p: Node, name: Name)
    requires Enabled(s, e) && Wants(s.a, c, p, name) && InGet(e, c, true)
    ensures Wants(Step(s, e).a, c, p, name)
  {
    hide StepLeft, EnabledLeft, Wants, SameCalls;
    var f := if e.left then s else Flip(s);
    if e.act.Receive? {
      ReceiveKeepsCalls(f);
      SameWants(s.a, Step(s, e).a, c, p, name);
    } else if !e.left {
      PeerKeepsCalls(f, e.act);
      SameWants(s.a, Step(s, e).a, c, p, name);
    } else if e.act.AppAttach? || e.act.ValueStart? || e.act.ValueDone? {
      ActKeepsCalls(s, e.act);
      SameWants(s.a, Step(s, e).a, c, p, name);
    } else {
      CallKeepsWants(s, e.act, c, p, name);
    }
  }

  lemma PeerKeepsCalls(s: State, act: Act)
    requires EnabledLeft(s, act) && !act.Receive?
    ensures SameCalls(s.b, StepLeft(s, act).b)
  {
    hide AttachNode, OnFetched, OnInsert;
  }

  lemma SameWants(x: Side, x': Side, c: Caller, p: Node, name: Name)
    requires Wants(x, c, p, name) && SameCalls(x, x')
    ensures Wants(x', c, p, name)
  {
  }

  lemma MoreMayBeFetched(events: seq<Event>, c: Caller)
    ensures SameGet(events, c, false) ==> SameGet(events, c, true)
  {
  }

  lemma {:induction false} RunKeepsWants(s: State, events: seq<Event>, c: Caller, p: Node, name: Name)
    requires IsRun(s, events) && Wants(s.a, c, p, name) && SameGet(events, c, true)
    ensures Wants(After(s, events).a, c, p, name)
    decreases |events|
  {
    hide *;
    if events == [] {
      NothingYet(s, p, name);
    } else {
      FirstOfRun(s, events);
      FirstInGet(events, c, true);
      StepKeepsWants(s, events[0], c, p, name);
      RunKeepsWants(Step(s, events[0]), events[1..], c, p, name);
    }
  }

  // ---------- What comes to hang at a place ----------

  lemma ReceiveHangs(s: State, p: Node, name: Name)
    requires EnabledLeft(s, Receive)
    ensures var t, m := StepLeft(s, Receive), s.ba[0];
      (p, name) in t.a.edges <==>
        || (p, name) in s.a.edges
        || (Structural(m) && m.parent in s.a.tracked && s.a.tracked[m.parent] == p && m.name == name)
  {
    var x, m := s.a, s.ba[0];
    match m {
      case ChildAdded(parent, k, n) =>
        if parent in x.tracked {
          if k in x.tracked { AttachHangs(x, x.tracked[parent], n, x.tracked[k], s.next, p, name); }
          else { AttachHangs(NewProxy(x, k, parent, n), x.tracked[parent], n, x.nodes, s.next, p, name); }
        }
        hide AttachNode;
      case Attach(parent, k, n) =>
        if parent in x.tracked {
          AttachHangs(NewProxy(x, k, parent, n), x.tracked[parent], n, x.nodes, s.next, p, name);
        }
        hide AttachNode;
      case Subscribe(k) =>
      case At(k, n) => hide FindNid;
      case GetValue(k) =>
    }
  }

  lemma AttachHangs(x: Side, q: Node, n: Name, node: Node, next: Nid, p: Node, name: Name)
    ensures (p, name) in AttachNode(x, q, n, node, next).0.edges <==> (p, name) in x.edges || (q == p && n == name)
  {
    AttachOnly(x, q, n, node, next);
    hide AttachNode;
  }

  /** An ATTACH never goes to a proxy. */
  lemma AttachIsElsewhere(s: State)
    requires Inv(s) && s.ba != [] && s.ba[0].Attach?
    ensures s.ba[0].parent in s.a.tracked && s.a.tracked[s.ba[0].parent] !in s.a.own
  {
    var x, y, m := s.a, s.b, s.ba[0];
    assert m in s.ba;
    assert MsgOk(x, y, m);
    assert m.parent in y.tracked && y.tracked[m.parent] in y.own;
    hide MsgsOk, ProxiesOk, Placed, ListeningOk, FetchOk;
  }

  lemma LeftHangs(s: State, act: Act, p: Node, name: Name)
    requires EnabledLeft(s, act) && !act.Receive?
    ensures (p, name) in StepLeft(s, act).a.edges <==>
      (p, name) in s.a.edges || Happens(Attaches, s, Event(true, act), p, name)
      || Happens(Inserts, s, Event(true, act), p, name)
  {
    if act.AppAttach? {
      AttachHangs(NewNode(s.a), act.p, act.name, s.a.nodes, s.next, p, name);
    }
    hide AttachNode;
  }

  /** Something comes to hang at the place. */
  predicate Hangs(s: State, e: Event, p: Node, name: Name) {
    Happens(Hears, s, e, p, name) || Happens(Attaches, s, e, p, name) || Happens(Inserts, s, e, p, name)
  }

  lemma HasHead(s: State)
    requires EnabledLeft(s, Receive)
    ensures s.ba != []
  {
  }

  lemma HearsIff(s: State, p: Node, name: Name)
    requires s.ba != []
    ensures var x, m := s.a, s.ba[0];
      Happens(Hears, s, Event(true, Receive), p, name) <==>
      Structural(m) && m.parent in x.tracked && x.tracked[m.parent] == p && m.name == name
  {
  }

  lemma HangsIfHeard(s: State, p: Node, name: Name)
    ensures Hangs(s, Event(true, Receive), p, name) <==> Happens(Hears, s, Event(true, Receive), p, name)
  {
  }

  lemma HeardHangs(s: State, p: Node, name: Name)
    requires EnabledLeft(s, Receive)
    ensures (p, name) in StepLeft(s, Receive).a.edges <==>
      (p, name) in s.a.edges || Hangs(s, Event(true, Receive), p, name)
  {
    HasHead(s);
    hide *;
    ReceiveHangs(s, p, name);
    HearsIff(s, p, name);
    HangsIfHeard(s, p, name);
  }

  lemma OthersHang(s: State, e: Event, p: Node, name: Name)
    requires Enabled(s, e) && !(e.left && e.act.Receive?)
    ensures (p, name) in Step(s, e).a.edges <==> (p, name) in s.a.edges || Hangs(s, e, p, name)
  {
    hide StepLeft, EnabledLeft;
    if e.left {
      LeftHangs(s, e.act, p, name);
    } else {
      PeerLeavesTables(Flip(s), e.act);
    }
  }

  lemma StepHangs(s: State, e: Event, p: Node, name: Name)
    requires Enabled(s, e)
    ensures (p, name) in Step(s, e).a.edges <==> (p, name) in s.a.edges || Hangs(s, e, p, name)
  {
    hide StepLeft, EnabledLeft, Hangs;
    if e.left && e.act.Receive? {
      HeardHangs(s, p, name);
    } else {
      OthersHang(s, e, p, name);
    }
  }

  predicate HangsIn(s: State, events: seq<Event>, p: Node, name: Name)
    requires IsRun(s, events)
  {
    HappensIn(Hears, s, events, p, name) || HappensIn(Attaches, s, events, p, name)
    || HappensIn(Inserts, s, events, p, name)
  }

  lemma HangsInIs(s: State, events: seq<Event>, p: Node, name: Name)
    requires IsRun(s, events)
    ensures HangsIn(s, events, p, name)
      <==> HappensIn(Hears, s, events, p, name) || HappensIn(Attaches, s, events, p, name)
           || HappensIn(Inserts, s, events, p, name)
  {
    hide HappensIn, IsRun;
  }

  lemma FirstHangs(s: State, events: seq<Event>, p: Node, name: Name)
    requires IsRun(s, events) && events != []
    ensures HangsIn(s, events, p, name)
      <==> Hangs(s, events[0], p, name) || HangsIn(Step(s, events[0]), events[1..], p, name)
  {
    hide Happens, HappensIn, IsRun, Step, Enabled;
    assert Enabled(s, events[0]) && IsRun(Step(s, events[0]), events[1..]) by { RunHead(s, events); }
    FirstHappens(Hears, s, events, p, name);
    FirstHappens(Attaches, s, events, p, name);
    FirstHappens(Inserts, s, events, p, name);
  }

  lemma RunHead(s: State, events: seq<Event>)
    requires IsRun(s, events) && events != []
    ensures Enabled(s, events[0]) && IsRun(Step(s, events[0]), events[1..])
  {
    hide Step, Enabled;
  }

  lemma {:induction false} RunHangs(s: State, events: seq<Event>, p: Node, name: Name)
    requires IsRun(s, events)
    ensures (p, name) in After(s, events).a.edges <==> (p, name) in s.a.edges || HangsIn(s, events, p, name)
    decreases |events|
  {
    hide *;
    if events == [] {
      NothingYet(s, p, name);
      HangsInIs(s, [], p, name);
    } else {
      FirstOfRun(s, events);
      FirstHangs(s, events, p, name);
      StepHangs(s, events[0], p, name);
      RunHangs(Step(s, events[0]), events[1..], p, name);
    }
  }

  // ---------- What comes to be learned of a place ----------

  /** A proxy was made for the peer's node of that name under the nid `q`. */
  ghost predicate LearnedAt(x: Side, q: Nid, name: Name) {
    exists n :: n in x.own && x.own[n].parent == q && x.own[n].name == name
  }

  lemma CallOwn(s: State, act: Act)
    requires EnabledLeft(s, act) && !act.Receive? && !act.FetchDone?
    ensures StepLeft(s, act).a.own == s.a.own
  {
    if act.AppAttach? {
      AttachKeepsOwn(NewNode(s.a), act.p, act.name, s.a.nodes, s.next);
    }
    hide AttachNode;
  }

  lemma ReceiveOwn(s: State)
    requires EnabledLeft(s, Receive) && MsgOk(s.a, s.b, s.ba[0])
    ensures var x, m, x' := s.a, s.ba[0], StepLeft(s, Receive).a;
      if m.Attach? || (m.ChildAdded? && m.child !in x.tracked)
      then x'.own == x.own[x.nodes := Proxy(m.child, m.parent, m.name)] else x'.own == x.own
  {
    var x, m := s.a, s.ba[0];
    match m {
      case ChildAdded(parent, k, name) =>
        if k in x.tracked { AttachKeepsOwn(x, x.tracked[parent], name, x.tracked[k], s.next); }
        else { AttachKeepsOwn(NewProxy(x, k, parent, name), x.tracked[parent], name, x.nodes, s.next); }
        hide AttachNode, Known;
      case Attach(parent, k, name) =>
        AttachKeepsOwn(NewProxy(x, k, parent, name), x.tracked[parent], name, x.nodes, s.next);
        hide AttachNode, Known;
      case Subscribe(k) =>
      case At(k, name) => hide FindNid;
      case GetValue(k) =>
    }
  }

  lemma LearnedMore(x: Side, x': Side, q: Nid, name: Name, m: Proxy)
    requires x'.own == x.own[x.nodes := m] && forall n :: n in x.own ==> n < x.nodes
    ensures LearnedAt(x', q, name) <==> LearnedAt(x, q, name) || (m.parent == q && m.name == name)
  {
    if LearnedAt(x, q, name) {
      var n :| n in x.own && x.own[n].parent == q && x.own[n].name == name;
      assert n in x'.own && x'.own[n] == x.own[n];
    }
    if m.parent == q && m.name == name {
      assert x.nodes in x'.own && x'.own[x.nodes] == m;
    }
  }

  /** A message names a place as the proxies do. */
  predicate HeadAt(x: Side, m: Msg, p: Node)
    requires p in x.own
  {
    var q := x.own[p].nid;
    && q in x.tracked && x.tracked[q] == p
    && (m.ChildAdded? ==> m.parent in x.tracked && (x.tracked[m.parent] == p <==> m.parent == q))
    && (m.Attach? ==> m.parent != q && m.parent in x.tracked && x.tracked[m.parent] != p)
    && (m.ChildAdded? && m.child in x.tracked ==>
          x.tracked[m.child] in x.own && x.own[x.tracked[m.child]] == Proxy(m.child, m.parent, m.name))
  }

  /** What the head of the queue says about proxies and their places. */
  lemma HeadPlace(s: State, p: Node)
    requires s.ba != [] && p in s.a.own && Inv(s)
    ensures HeadAt(s.a, s.ba[0], p)
  {
    hide *;
    HeadOk(s);
    ProxyIn(s, p);
    TableOk(s);
    match s.ba[0] {
      case ChildAdded(_, k, _) =>
        if k in s.a.tracked {
          HeadProxyPlace(s);
        }
        ChildAt(s.a, s.b, s.ba[0], p, s.next);
      case Attach(_, _, _) =>
        AttachIsElsewhere(s);
        AttachAt(s.a, s.ba[0], p);
      case _ => AnswerAt(s.a, s.ba[0], p);
    }
  }

  lemma ProxyIn(s: State, p: Node)
    requires p in s.a.own && Inv(s)
    ensures var q := s.a.own[p].nid; q in s.a.tracked && s.a.tracked[q] == p
  {
    assert ProxyOk(s.a, s.b, p);
    hide Half;
  }

  lemma HeadProxyPlace(s: State)
    requires s.ba != [] && s.ba[0].ChildAdded? && s.ba[0].child in s.a.tracked && Inv(s)
    ensures var m, n := s.ba[0], s.a.tracked[s.ba[0].child];
      n in s.a.own && s.a.own[n] == Proxy(m.child, m.parent, m.name)
  {
    HeadOk(s);
    hide ProxiesOk, EdgesOk, Placed, Paired, ListeningOk, MsgsOk, FetchOk, TrackedOk, MsgOk;
    TrackedPlace(s.a, s.b, s.ba[0], s.next);
    hide Half;
  }

  lemma ChildAt(x: Side, y: Side, m: Msg, p: Node, next: Nid)
    requires m.ChildAdded? && MsgOk(x, y, m) && TrackedOk(x, next) && p in x.own
    requires x.own[p].nid in x.tracked && x.tracked[x.own[p].nid] == p
    requires m.child in x.tracked ==>
      x.tracked[m.child] in x.own && x.own[x.tracked[m.child]] == Proxy(m.child, m.parent, m.name)
    ensures HeadAt(x, m, p)
  {
    hide Known, Taken;
  }

  lemma AttachAt(x: Side, m: Msg, p: Node)
    requires m.Attach? && m.parent in x.tracked && x.tracked[m.parent] !in x.own && p in x.own
    requires x.own[p].nid in x.tracked && x.tracked[x.own[p].nid] == p
    ensures HeadAt(x, m, p)
  {
  }

  lemma AnswerAt(x: Side, m: Msg, p: Node)
    requires !m.ChildAdded? && !m.Attach? && p in x.own
    requires x.own[p].nid in x.tracked && x.tracked[x.own[p].nid] == p
    ensures HeadAt(x, m, p)
  {
  }

  lemma ReceiveLearns(s: State, p: Node, name: Name)
    requires EnabledLeft(s, Receive) && p in s.a.own && Inv(s)
    ensures var q := s.a.own[p].nid;
      LearnedAt(StepLeft(s, Receive).a, q, name) <==>
      LearnedAt(s.a, q, name) || Happens(Hears, s, Event(true, Receive), p, name)
  {
    hide *;
    HasHead(s);
    HeadOk(s);
    HeadPlace(s, p);
    InvOwnBelow(s);
    ReceiveOwn(s);
    PlaceLearned(s.a, StepLeft(s, Receive).a, s.ba[0], p, name);
    HearsIff(s, p, name);
  }

  lemma HeadOk(s: State)
    requires Inv(s) && s.ba != []
    ensures MsgOk(s.a, s.b, s.ba[0])
  {
    DropHead(s.a, s.b, s.ba, s.next);
    hide Half, MsgOk;
  }

  /** What a message at the head does to what is known of a place. */
  lemma PlaceLearned(x: Side, x': Side, m: Msg, p: Node, name: Name)
    requires p in x.own && forall n :: n in x.own ==> n < x.nodes
    requires HeadAt(x, m, p)
    requires if m.Attach? || (m.ChildAdded? && m.child !in x.tracked)
      then x'.own == x.own[x.nodes := Proxy(m.child, m.parent, m.name)] else x'.own == x.own
    ensures var q := x.own[p].nid;
      LearnedAt(x', q, name) <==>
      || LearnedAt(x, q, name)
      || (Structural(m) && m.parent in x.tracked && x.tracked[m.parent] == p && m.name == name)
  {
    var q := x.own[p].nid;
    hide LearnedAt;
    if m.Attach? || (m.ChildAdded? && m.child !in x.tracked) {
      LearnedMore(x, x', q, name, Proxy(m.child, m.parent, m.name));
    } else {
      LearnedSame(x, x', q, name);
      if m.ChildAdded? {
        LearnedOf(x, x.tracked[m.child]);
      }
    }
  }

  lemma ProxyNidsDiffer(x: Side, y: Side, p: Node, r: Node)
    requires ProxiesOk(x, y) && p in x.own && r in x.own
    ensures x.own[p].nid == x.own[r].nid <==> p == r
  {
    assert ProxyOk(x, y, p) && ProxyOk(x, y, r);
  }

  /** What was fetched is known of the place that was asked for. */
  lemma FetchLearns(s: State, c: Caller, p: Node, name: Name)
    requires EnabledLeft(s, FetchDone(c)) && p in s.a.own && Inv(s)
    ensures var q := s.a.own[p].nid;
      LearnedAt(StepLeft(s, FetchDone(c)).a, q, name) <==>
      LearnedAt(s.a, q, name) || Happens(Fetches, s, Event(true, FetchDone(c)), p, name)
  {
    HasReply(s, c);
    hide *;
    InvOwnBelow(s);
    NidsDiffer(s, p, s.a.calls.fetching.value.0);
    FetchedOwn(s, c);
    FetchesIff(s, c, p, name);
    FetchedLearns(s.a, StepLeft(s, FetchDone(c)).a, p, name);
  }

  lemma HasReply(s: State, c: Caller)
    requires EnabledLeft(s, FetchDone(c))
    ensures s.a.calls.fetching.Some? && s.a.calls.reply.Some? && s.a.calls.fetching.value.0 in s.a.own
  {
  }

  lemma NidsDiffer(s: State, p: Node, r: Node)
    requires p in s.a.own && r in s.a.own && Inv(s)
    ensures s.a.own[p].nid == s.a.own[r].nid <==> p == r
  {
    hide ProxiesOk;
    ProxyNidsDiffer(s.a, s.b, p, r);
  }

  lemma FetchesIff(s: State, c: Caller, p: Node, name: Name)
    requires s.a.calls.fetching.Some? && s.a.calls.reply.Some?
    ensures Happens(Fetches, s, Event(true, FetchDone(c)), p, name) <==>
      s.a.calls.fetching.value == (p, name) && s.a.calls.reply.value.Some?
  {
  }

  /** The proxy that a reply brings, if any. */
  predicate FetchedInto(x: Side, x': Side) {
    && x.calls.fetching.Some? && x.calls.reply.Some? && x.calls.fetching.value.0 in x.own
    && x'.edges == x.edges && x'.root == x.root
    && match x.calls.reply.value
       case None => x'.own == x.own && x'.tracked == x.tracked
       case Some(k) =>
         var (p, name) := x.calls.fetching.value;
         x'.own == x.own[x.nodes := Proxy(k, x.own[p].nid, name)] && x'.tracked == x.tracked[k := x.nodes]
  }

  lemma FetchedOwn(s: State, c: Caller)
    requires EnabledLeft(s, FetchDone(c))
    ensures FetchedInto(s.a, StepLeft(s, FetchDone(c)).a)
  {
  }

  lemma FetchedLearns(x: Side, x': Side, p: Node, name: Name)
    requires FetchedInto(x, x') && p in x.own && forall n :: n in x.own ==> n < x.nodes
    requires x.own[p].nid == x.own[x.calls.fetching.value.0].nid <==> p == x.calls.fetching.value.0
    ensures var q := x.own[p].nid;
      LearnedAt(x', q, name) <==>
      LearnedAt(x, q, name) || (x.calls.fetching.value == (p, name) && x.calls.reply.value.Some?)
  {
    hide LearnedAt;
    var (r, n) := x.calls.fetching.value;
    if x.calls.reply.value.Some? {
      LearnedMore(x, x', x.own[p].nid, name, Proxy(x.calls.reply.value.value, x.own[r].nid, n));
    } else {
      LearnedSame(x, x', x.own[p].nid, name);
    }
  }

  /** The place is shown to this end: a proxy is there for it from then on. */
  predicate Reveals(s: State, e: Event, p: Node, name: Name) {
    Happens(Hears, s, e, p, name) || Happens(Fetches, s, e, p, name)
  }

  lemma StepLearns(s: State, e: Event, p: Node, name: Name)
    requires Enabled(s, e) && p in s.a.own && Inv(s)
    ensures var q := s.a.own[p].nid;
      LearnedAt(Step(s, e).a, q, name) <==> LearnedAt(s.a, q, name) || Reveals(s, e, p, name)
  {
    hide Inv, LearnedAt, StepLeft, EnabledLeft;
    if e.left && e.act.Receive? {
      ReceiveLearns(s, p, name);
    } else if e.left && e.act.FetchDone? {
      FetchLearns(s, e.act.c, p, name);
    } else {
      if e.left {
        CallOwn(s, e.act);
      } else {
        PeerLeavesTables(Flip(s), e.act);
      }
      LearnedSame(s.a, Step(s, e).a, s.a.own[p].nid, name);
    }
  }

  lemma LearnedSame(x: Side, x': Side, q: Nid, name: Name)
    requires x'.own == x.own
    ensures LearnedAt(x', q, name) == LearnedAt(x, q, name)
  {
  }

  lemma LearnedOf(x: Side, n: Node)
    requires n in x.own
    ensures LearnedAt(x, x.own[n].parent, x.own[n].name)
  {
  }

  predicate RevealsIn(s: State, events: seq<Event>, p: Node, name: Name)
    requires IsRun(s, events)
  {
    HappensIn(Hears, s, events, p, name) || HappensIn(Fetches, s, events, p, name)
  }

  lemma RevealsInIs(s: State, events: seq<Event>, p: Node, name: Name)
    requires IsRun(s, events)
    ensures RevealsIn(s, events, p, name)
      <==> HappensIn(Hears, s, events, p, name) || HappensIn(Fetches, s, events, p, name)
  {
    hide HappensIn, IsRun;
  }

  lemma FirstReveals(s: State, events: seq<Event>, p: Node, name: Name)
    requires IsRun(s, events) && events != []
    ensures RevealsIn(s, events, p, name)
      <==> Reveals(s, events[0], p, name) || RevealsIn(Step(s, events[0]), events[1..], p, name)
  {
    hide Happens, HappensIn, IsRun, Step, Enabled;
    assert Enabled(s, events[0]) && IsRun(Step(s, events[0]), events[1..]) by { RunHead(s, events); }
    FirstHappens(Hears, s, events, p, name);
    FirstHappens(Fetches, s, events, p, name);
  }

  lemma {:induction false} RunLearns(s: State, events: seq<Event>, p: Node, name: Name)
    requires IsRun(s, events) && SoundRun(s, events) && p in s.a.own && Inv(s)
    ensures var q := s.a.own[p].nid;
      LearnedAt(After(s, events).a, q, name) <==> LearnedAt(s.a, q, name) || RevealsIn(s, events, p, name)
    decreases |events|
  {
    hide *;
    if events == [] {
      NothingYet(s, p, name);
      RevealsInIs(s, [], p, name);
    } else {
      FirstOfRun(s, events);
      FirstSound(s, events);
      FirstReveals(s, events, p, name);
      StepLearns(s, events[0], p, name);
      StepOwn(s, events[0], p);
      RunLearns(Step(s, events[0]), events[1..], p, name);
    }
  }

  // ---------- What the peer takes from this end ----------

  /** Nodes are numbered as they are created, and the node that carries `q` is an original. */
  predicate OriginalAt(x: Side, q: Nid) {
    q in x.tracked && x.tracked[q] !in x.own && x.nodes !in x.own
    && forall e :: e in x.edges ==> x.edges[e] != x.nodes
  }

  lemma AttachedProxies(x: Side, p: Node, n: Name, next: Nid, q: Nid, name: Name)
    requires OriginalAt(x, q) && q < next
    ensures ProxyThere(AttachedNew(x, p, n, next).0, q, name) == ProxyThere(x, q, name)
  {
    AttachedFields(x, p, n, next);
    hide AttachedNew;
  }

  lemma WithProxyThere(x: Side, k: Nid, parent: Nid, n: Name, q: Nid, name: Name)
    requires parent in x.tracked && k !in x.tracked && OriginalAt(x, q)
    ensures ProxyThere(WithProxy(x, k, parent, n), q, name) <==>
      ProxyThere(x, q, name) || (x.tracked[parent] == x.tracked[q] && n == name && !Taken(x, parent, name))
  {
  }

  lemma HungElsewhere(x: Side, r: Node, n: Name, node: Node, q: Nid, name: Name)
    requires q in x.tracked && r != x.tracked[q]
    ensures ProxyThere(WithEdge(x, r, n, node), q, name) == ProxyThere(x, q, name)
  {
  }

  /** What a proxy of the peer stands for at this end. */
  lemma StandsFor(s: State, p: Node)
    requires Inv(s) && p in s.b.own
    ensures var q := s.b.own[p].nid; OriginalAt(s.a, q) && q < s.next && q in s.b.tracked && s.b.tracked[q] == p
  {
    ProxyIsOriginal(s.b, s.a, p);
    OwnBelow(s.a, s.b);
    assert EdgesOk(s.a) && TrackedOk(s.a, s.next);
    hide Inv, Half;
  }

  /** Where the left end comes to have a proxy under an original: where an ATTACH says so. */
  predicate TakenRight(s: State, t: State, q: Nid, name: Name) {
    s.ba != [] &&
    var m := s.ba[0];
    ProxyThere(t.a, q, name) <==>
      ProxyThere(s.a, q, name) || (m.Attach? && m.parent == q && m.name == name && !Taken(s.a, q, name))
  }

  lemma TakenByAttach(s: State, q: Nid, name: Name)
    requires EnabledLeft(s, Receive) && s.ba[0].Attach? && OriginalAt(s.a, q)
    requires var x, m := s.a, s.ba[0];
      m.parent in x.tracked && m.child !in x.tracked && (x.tracked[m.parent] == x.tracked[q] ==> m.parent == q)
    ensures TakenRight(s, StepLeft(s, Receive), q, name)
  {
    var m := s.ba[0];
    AttachStep(s);
    WithProxyThere(s.a, m.child, m.parent, m.name, q, name);
    hide StepLeft, ProxyThere, OriginalAt, WithProxy;
  }

  lemma TakenByChild(s: State, q: Nid, name: Name)
    requires EnabledLeft(s, Receive) && s.ba[0].ChildAdded? && OriginalAt(s.a, q)
    requires var x, m := s.a, s.ba[0];
      && m.parent in x.tracked && x.tracked[m.parent] != x.tracked[q]
      && (m.child in x.tracked ==> x.tracked[m.child] in x.own)
    ensures TakenRight(s, StepLeft(s, Receive), q, name)
  {
    var x, m := s.a, s.ba[0];
    ChildAddedStep(s);
    hide StepLeft, ProxyThere, WithProxy;
    if m.child !in x.tracked {
      WithProxyThere(x, m.child, m.parent, m.name, q, name);
    } else if !Taken(x, m.parent, m.name) {
      HungElsewhere(x, x.tracked[m.parent], m.name, x.tracked[m.child], q, name);
    }
  }

  /** What a message at the head says of an original that the peer has a proxy of. */
  predicate HeadApart(x: Side, m: Msg, q: Nid) {
    && q in x.tracked
    && (m.ChildAdded? ==>
          && m.parent in x.tracked && x.tracked[m.parent] != x.tracked[q]
          && (m.child in x.tracked ==> x.tracked[m.child] in x.own))
    && (m.Attach? ==>
          m.parent in x.tracked && m.child !in x.tracked && (x.tracked[m.parent] == x.tracked[q] ==> m.parent == q))
  }

  lemma HeadIsApart(s: State, p: Node)
    requires s.ba != [] && p in s.b.own && Inv(s)
    ensures HeadApart(s.a, s.ba[0], s.b.own[p].nid)
  {
    var q, m := s.b.own[p].nid, s.ba[0];
    StandsFor(s, p);
    HeadOk(s);
    assert TrackedOk(s.a, s.next);
    hide Inv, Known;
    SameNid(s.a, s.next, q);
    hide TrackedOk;
    if m.ChildAdded? && m.child in s.a.tracked {
      HeadIsProxy(s);
    }
  }

  lemma TakenByReceive(s: State, p: Node, name: Name)
    requires EnabledLeft(s, Receive) && p in s.b.own && Inv(s)
    ensures TakenRight(s, StepLeft(s, Receive), s.b.own[p].nid, name)
  {
    hide *;
    HasHead(s);
    StandsFor(s, p);
    HeadIsApart(s, p);
    ApartTakes(s, s.b.own[p].nid, name);
  }

  lemma ApartTakes(s: State, q: Nid, name: Name)
    requires EnabledLeft(s, Receive) && HeadApart(s.a, s.ba[0], q) && OriginalAt(s.a, q) && q < s.next
    ensures TakenRight(s, StepLeft(s, Receive), q, name)
  {
    hide OriginalAt, StepLeft, ProxyThere;
    match s.ba[0] {
      case ChildAdded(_, _, _) => TakenByChild(s, q, name);
      case Attach(_, _, _) => TakenByAttach(s, q, name);
      case _ => AnswersTake(s, q, name);
    }
  }

  lemma SameNid(x: Side, next: Nid, q: Nid)
    requires TrackedOk(x, next) && q in x.tracked
    ensures forall k :: k in x.tracked && x.tracked[k] == x.tracked[q] ==> k == q
  {
  }

  lemma AnswersTake(s: State, q: Nid, name: Name)
    requires EnabledLeft(s, Receive) && q in s.a.tracked && q < s.next
    requires s.ba[0].Subscribe? || s.ba[0].At? || s.ba[0].GetValue?
    ensures ProxyThere(StepLeft(s, Receive).a, q, name) == ProxyThere(s.a, q, name)
  {
    hide FindNid;
  }

  /** What the left end does of its own hangs no proxy under an original. */
  lemma TakenByAct(s: State, act: Act, p: Node, name: Name)
    requires EnabledLeft(s, act) && Sound(s, act) && !act.Receive? && p in s.b.own && Inv(s)
    ensures var q := s.b.own[p].nid; ProxyThere(StepLeft(s, act).a, q, name) == ProxyThere(s.a, q, name)
  {
    hide *;
    var q := s.b.own[p].nid;
    StandsFor(s, p);
    match act {
      case AppAttach(r, n) => TakenByAppAttach(s, r, n, q, name);
      case FetchDone(c) => TakenByFetch(s, c, q, name);
      case Insert(c) => TakenByInsert(s, c, q, name);
      case _ => TakenByCall(s, act, q, name);
    }
  }

  lemma TakenByAppAttach(s: State, r: Node, n: Name, q: Nid, name: Name)
    requires EnabledLeft(s, AppAttach(r, n)) && OriginalAt(s.a, q) && q < s.next && Inv(s)
    ensures ProxyThere(StepLeft(s, AppAttach(r, n)).a, q, name) == ProxyThere(s.a, q, name)
  {
    OwnBelow(s.a, s.b);
    AttachNodeNew(s.a, s.b, r, n, s.next);
    hide Inv, AttachNode, AttachedNew, ProxyThere, OriginalAt;
    AttachedProxies(s.a, r, n, s.next, q, name);
  }

  lemma TakenByFetch(s: State, c: Caller, q: Nid, name: Name)
    requires EnabledLeft(s, FetchDone(c)) && Sound(s, FetchDone(c)) && OriginalAt(s.a, q)
    ensures ProxyThere(StepLeft(s, FetchDone(c)).a, q, name) == ProxyThere(s.a, q, name)
  {
    FetchedOwn(s, c);
    hide StepLeft;
  }

  lemma TakenByInsert(s: State, c: Caller, q: Nid, name: Name)
    requires EnabledLeft(s, Insert(c)) && OriginalAt(s.a, q) && Inv(s)
    ensures ProxyThere(StepLeft(s, Insert(c)).a, q, name) == ProxyThere(s.a, q, name)
  {
    HasLoose(s, c);
    LooseGoesToProxy(s, c);
    hide Inv;
    InsertIs(s, c);
    hide StepLeft, EnabledLeft;
  }

  lemma HasLoose(s: State, c: Caller)
    requires EnabledLeft(s, Insert(c))
    ensures c in s.a.calls.loose
  {
  }

  lemma TakenByCall(s: State, act: Act, q: Nid, name: Name)
    requires EnabledLeft(s, act) && (act.Look? || act.FetchStart? || act.ValueStart? || act.ValueDone?)
    ensures ProxyThere(StepLeft(s, act).a, q, name) == ProxyThere(s.a, q, name)
  {
  }

  lemma LooseGoesToProxy(s: State, c: Caller)
    requires Inv(s) && c in s.a.calls.loose
    ensures s.a.calls.loose[c].p in s.a.own
  {
    assert LooseOk(s.a, s.a.calls.loose[c]);
    hide Half;
  }

  lemma InsertIs(s: State, c: Caller)
    requires EnabledLeft(s, Insert(c))
    ensures var x, l, x' := s.a, s.a.calls.loose[c], StepLeft(s, Insert(c)).a;
      && x'.own == x.own && x'.tracked == x.tracked
      && x'.edges == (if (l.p, l.name) in x.edges then x.edges else x.edges[(l.p, l.name) := l.n])
  {
  }

  lemma TakenIs(s: State, t: State, p: Node, name: Name)
    requires p in s.a.own && TakenRight(Flip(s), t, s.a.own[p].nid, name)
    ensures var q := s.a.own[p].nid;
      ProxyThere(t.a, q, name) <==>
      ProxyThere(s.b, q, name) || Happens(PeerTakes, s, Event(false, Receive), p, name)
  {
    hide ProxyThere, Taken;
  }

  lemma PeerTakesStep(s: State, act: Act, p: Node, name: Name)
    requires EnabledLeft(Flip(s), act) && Sound(Flip(s), act) && p in s.a.own && Inv(s)
    ensures var q := s.a.own[p].nid;
      ProxyThere(StepLeft(Flip(s), act).a, q, name) <==>
      ProxyThere(s.b, q, name) || Happens(PeerTakes, s, Event(false, act), p, name)
  {
    FlipInv(s);
    hide Inv, StepLeft, Sound, ProxyThere, TakenRight, EnabledLeft;
    if act.Receive? {
      TakenByReceive(Flip(s), p, name);
      TakenIs(s, StepLeft(Flip(s), act), p, name);
      hide Happens;
    } else {
      TakenByAct(Flip(s), act, p, name);
    }
  }

  lemma LeftTakes(s: State, act: Act, p: Node, name: Name)
    requires EnabledLeft(s, act) && p in s.a.own
    ensures var q := s.a.own[p].nid;
      && ProxyThere(StepLeft(s, act).b, q, name) == ProxyThere(s.b, q, name)
      && !Happens(PeerTakes, s, Event(true, act), p, name)
  {
    PeerLeavesTables(s, act);
    hide StepLeft, EnabledLeft;
  }

  lemma StepTakes(s: State, e: Event, p: Node, name: Name)
    requires Enabled(s, e) && SoundStep(s, e) && p in s.a.own && Inv(s)
    ensures var q := s.a.own[p].nid;
      ProxyThere(Step(s, e).b, q, name) <==> ProxyThere(s.b, q, name) || Happens(PeerTakes, s, e, p, name)
  {
    hide Inv, StepLeft, EnabledLeft, Sound, ProxyThere, Happens;
    if e.left {
      LeftTakes(s, e.act, p, name);
    } else {
      PeerTakesStep(s, e.act, p, name);
    }
  }

  lemma {:induction false} RunTakes(s: State, events: seq<Event>, p: Node, name: Name)
    requires IsRun(s, events) && SoundRun(s, events) && p in s.a.own && Inv(s)
    ensures var q := s.a.own[p].nid;
      ProxyThere(After(s, events).b, q, name) <==>
      ProxyThere(s.b, q, name) || HappensIn(PeerTakes, s, events, p, name)
    decreases |events|
  {
    hide *;
    if events == [] {
      NothingYet(s, p, name);
    } else {
      FirstOfRun(s, events);
      FirstSound(s, events);
      FirstHappens(PeerTakes, s, events, p, name);
      StepTakes(s, events[0], p, name);
      StepOwn(s, events[0], p);
      RunTakes(Step(s, events[0]), events[1..], p, name);
    }
  }

  // ---------- The lookup ----------

  /** Another caller has fetched what is there, and not inserted it yet. */
  ghost predicate LooseAt(x: Side, p: Node, name: Name) {
    exists c :: c in x.calls.loose && x.calls.loose[c].p == p && x.calls.loose[c].name == name
  }

  lemma LearnedIffLoose(x: Side, y: Side, p: Node, name: Name)
    requires ProxiesOk(x, y) && CallersOk(x) && p in x.own && (p, name) !in x.edges
    ensures LearnedAt(x, x.own[p].nid, name) <==> LooseAt(x, p, name)
  {
    var q := x.own[p].nid;
    assert ProxyOk(x, y, p);
    if LearnedAt(x, q, name) {
      var n :| n in x.own && x.own[n].parent == q && x.own[n].name == name;
      assert ProxyOk(x, y, n);
      assert IsLoose(x, n);
      var c :| c in x.calls.loose && x.calls.loose[c].n == n;
      assert LooseOk(x, x.calls.loose[c]);
      ProxyNidsDiffer(x, y, p, x.calls.loose[c].p);
    }
    if LooseAt(x, p, name) {
      var c :| c in x.calls.loose && x.calls.loose[c].p == p && x.calls.loose[c].name == name;
      assert LooseOk(x, x.calls.loose[c]);
    }
    hide ProxiesOk, CallersOk, Known, Taken;
  }

  /** Before anything hangs at this end, the peer has no proxy there. */
  lemma NotTakenYet(s: State, p: Node, name: Name)
    requires Inv(s) && p in s.a.own && (p, name) !in s.a.edges
    ensures !ProxyThere(s.b, s.a.own[p].nid, name)
  {
    ProxyIsOriginal(s.a, s.b, p);
    hide MsgsOk, ListeningOk, FetchOk, EdgesOk, Paired, Placed, TrackedOk, ProxiesOk;
    if ProxyThere(s.b, s.a.own[p].nid, name) {
      EdgeToProxy(s.b, s.a, s.a.own[p].nid, name, s.next);
    }
  }

  lemma LookedState(s: State, c: Caller, p: Node, name: Name)
    requires Enabled(s, Event(true, Look(c, p, name)))
    ensures var e := Event(true, Look(c, p, name));
      && SoundStep(s, e) && p in s.a.own && (p, name) !in s.a.edges
      && Step(s, e) == s.(a := s.a.(calls := s.a.calls.(looked := s.a.calls.looked[c := (p, name)])))
      && Wants(Step(s, e).a, c, p, name)
  {
  }

  lemma AfterLook(s: State, c: Caller, p: Node, name: Name)
    requires Enabled(s, Event(true, Look(c, p, name))) && Inv(s)
    ensures p in s.a.own
    ensures var s1 := Step(s, Event(true, Look(c, p, name))); var q := s.a.own[p].nid;
      && Inv(s1) && s1.a.own == s.a.own && (p, name) !in s1.a.edges && Wants(s1.a, c, p, name)
      && (LearnedAt(s1.a, q, name) <==> LooseAt(s.a, p, name)) && !ProxyThere(s1.b, q, name)
  {
    var look := Event(true, Look(c, p, name));
    LookedState(s, c, p, name);
    NotTakenYet(s, p, name);
    assert CallersOk(s.a);
    hide CallersOk, LooseAt, Wants;
    LearnedIffLoose(s.a, s.b, p, name);
    hide Half, Enabled, SoundStep, ProxyThere;
    StepKeeps(s, look);
    hide Step;
    LearnedSame(s.a, Step(s, look).a, s.a.own[p].nid, name);
    hide LearnedAt, Inv;
  }

  // ---------- The first window: between the lookup and the lock ----------

  lemma SameChild(y: Side, parent: Nid, name: Name, k: Nid, l: Nid, next: Nid)
    requires TrackedOk(y, next) && Known(y, parent, k, name) && Known(y, parent, l, name)
    ensures k == l
  {
  }

  lemma KnownIsNoProxy(y: Side, q: Nid, k: Nid, name: Name)
    requires Known(y, q, k, name)
    ensures !ProxyThere(y, q, name)
  {
  }

  lemma LearnedChild(x: Side, y: Side, p: Node, name: Name, k: Nid, next: Nid)
    requires TrackedOk(y, next) && ProxiesOk(x, y) && p in x.own && Known(y, x.own[p].nid, k, name)
    requires LearnedAt(x, x.own[p].nid, name)
    ensures k in x.tracked
  {
    var n :| n in x.own && x.own[n].parent == x.own[p].nid && x.own[n].name == name;
    assert ProxyOk(x, y, n);
    SameChild(y, x.own[p].nid, name, k, x.own[n].nid, next);
    hide Known;
  }

  lemma TrackedIffLearned(t: State, p: Node, name: Name, k: Nid)
    requires Inv(t) && t.a.calls.fetching == Some((p, name)) && t.a.calls.reply == Some(Some(k))
    ensures p in t.a.own
    ensures var q := t.a.own[p].nid; k in t.a.tracked <==> LearnedAt(t.a, q, name) || ProxyThere(t.b, q, name)
  {
    var x, y := t.a, t.b;
    assert Says(x, y, p, k, name);
    hide ProxiesOk, EdgesOk, Placed, ListeningOk, MsgsOk, FetchOk, Paired, TrackedOk, LearnedAt, Known, ProxyThere;
    var q := x.own[p].nid;
    if Known(y, q, k, name) {
      KnownIsNoProxy(y, q, k, name);
      if k in x.tracked {
        ProxyAt(x, y, p, k, name, t.next);
        LearnedOf(x, x.tracked[k]);
      }
      if LearnedAt(x, q, name) {
        LearnedChild(x, y, p, name, k, t.next);
      }
    }
    hide Half;
  }

  /** A `get` that looked for a child and has its reply: what it brings is tracked already, so that
      tracking it overwrites an entry, exactly if one of these: another `get` had fetched the child and
      not inserted it when this one looked, or has fetched it since; a CHILD_ADDED for the place was
      handled since; or the peer has since taken an ATTACH for it, so that its reply names a node of
      this end. */
  lemma FetchOverwritesIff(s: State, c: Caller, p: Node, name: Name, events: seq<Event>, k: Nid)
    requires Enabled(s, Event(true, Look(c, p, name))) && Inv(s)
    requires var s1 := Step(s, Event(true, Look(c, p, name)));
      IsRun(s1, events) && SoundRun(s1, events) && SameGet(events, c, false)
    requires var t := After(Step(s, Event(true, Look(c, p, name))), events);
      t.a.calls.fetching.Some? && t.a.calls.holder == c && t.a.calls.reply == Some(Some(k))
    ensures var s1 := Step(s, Event(true, Look(c, p, name))); var t := After(s1, events);
      k in t.a.tracked <==>
        || LooseAt(s.a, p, name)
        || HappensIn(Fetches, s1, events, p, name)
        || HappensIn(Hears, s1, events, p, name)
        || HappensIn(PeerTakes, s1, events, p, name)
  {
    var s1 := Step(s, Event(true, Look(c, p, name)));
    hide *;
    AfterLook(s, c, p, name);
    RunKeeps(s1, events);
    RunLearns(s1, events, p, name);
    RunTakes(s1, events, p, name);
    RunOwn(s1, events, p);
    MoreMayBeFetched(events, c);
    RunKeepsWants(s1, events, c, p, name);
    HolderWants(After(s1, events).a, c, p, name);
    TrackedIffLearned(After(s1, events), p, name, k);
    RevealsInIs(s1, events, p, name);
  }

  lemma HolderWants(x: Side, c: Caller, p: Node, name: Name)
    requires Wants(x, c, p, name) && x.calls.fetching.Some? && x.calls.holder == c
    ensures x.calls.fetching == Some((p, name))
  {
  }

  lemma RunOwn(s: State, events: seq<Event>, p: Node)
    requires Inv(s) && IsRun(s, events) && SoundRun(s, events) && p in s.a.own
    ensures p in After(s, events).a.own && After(s, events).a.own[p] == s.a.own[p]
  {
    RunGrows(s, events);
    hide Inv, IsRun, After, SoundRun;
  }

  /** What overwriting means: the node that had the nid has none any more; and if it was a proxy,
      there are two proxies of one node then. */
  predicate Broken(x: Side, x': Side, k: Nid) {
    && k in x.tracked && k in x'.tracked
    && var n, n' := x.tracked[k], x'.tracked[k];
       && n != n' && n' in x'.own && x'.own[n'].nid == k
       && (forall j :: j in x'.tracked ==> x'.tracked[j] != n)
       && (n in x.own ==> n in x'.own && x'.own[n].nid == k)
  }

  lemma OverwritingBreaks(t: State, c: Caller, k: Nid)
    requires EnabledLeft(t, FetchDone(c)) && t.a.calls.reply == Some(Some(k)) && k in t.a.tracked && Inv(t)
    ensures Broken(t.a, StepLeft(t, FetchDone(c)).a, k)
  {
    hide *;
    InvOwnBelow(t);
    FetchedOwn(t, c);
    TableOk(t);
    if t.a.tracked[k] in t.a.own {
      TrackedProxyNid(t, k);
    }
    Overwrites(t.a, StepLeft(t, FetchDone(c)).a, k, t.next);
  }

  lemma TableOk(t: State)
    requires Inv(t)
    ensures TrackedOk(t.a, t.next)
  {
  }

  lemma Overwrites(x: Side, x': Side, k: Nid, next: Nid)
    requires FetchedInto(x, x') && x.calls.reply == Some(Some(k)) && k in x.tracked && TrackedOk(x, next)
    requires forall n :: n in x.own ==> n < x.nodes
    requires x.tracked[k] in x.own ==> x.own[x.tracked[k]].nid == k
    ensures Broken(x, x', k)
  {
    Overwritten(x, next, k);
    hide TrackedOk;
  }

  lemma Overwritten(x: Side, next: Nid, k: Nid)
    requires TrackedOk(x, next) && k in x.tracked
    ensures x.tracked[k] < x.nodes
    ensures var t := x.tracked[k := x.nodes]; forall j :: j in t ==> t[j] != x.tracked[k]
  {
  }

  lemma TrackedProxyNid(t: State, k: Nid)
    requires Inv(t) && k in t.a.tracked && t.a.tracked[k] in t.a.own
    ensures t.a.own[t.a.tracked[k]].nid == k
  {
    assert ProxyOk(t.a, t.b, t.a.tracked[k]);
    hide EdgesOk, Placed, Paired, ListeningOk, MsgsOk, FetchOk;
  }

  // ---------- Both windows ----------

  /** A `get` that has fetched a child of the peer and is about to insert it: whatever happened since its
      lookup, the insertion is refused exactly if since then a CHILD_ADDED for that place was handled (or an
      ATTACH, in a run that is not sound), the application attached a node there, or another `get`
      inserted what it had fetched there. */
  lemma InsertRefusedIff(s: State, c: Caller, p: Node, name: Name, events: seq<Event>)
    requires Enabled(s, Event(true, Look(c, p, name)))
    requires IsRun(Step(s, Event(true, Look(c, p, name))), events) && SameGet(events, c, true)
    requires c in After(Step(s, Event(true, Look(c, p, name))), events).a.calls.loose
    ensures var s1 := Step(s, Event(true, Look(c, p, name))); var t := After(s1, events); var l := t.a.calls.loose[c];
      && l.p == p && l.name == name
      && ((l.p, l.name) in t.a.edges <==>
            || HappensIn(Hears, s1, events, p, name)
            || HappensIn(Attaches, s1, events, p, name)
            || HappensIn(Inserts, s1, events, p, name))
  {
    var s1 := Step(s, Event(true, Look(c, p, name)));
    hide *;
    LookedState(s, c, p, name);
    RunHangs(s1, events, p, name);
    RunKeepsWants(s1, events, c, p, name);
    LooseWants(After(s1, events).a, c, p, name);
    HangsInIs(s1, events, p, name);
  }

  /** `get` returns null then, although the peer has the child. */
  lemma RefusedIsThere(s: State, c: Caller)
    requires Reachable(s) && c in s.a.calls.loose
    ensures var l := s.a.calls.loose[c];
      l.p in s.a.own && l.n in s.a.own && Known(s.b, s.a.own[l.p].nid, s.a.own[l.n].nid, l.name)
  {
    ReachableInv(s);
    hide Inv, Reachable, Known;
    LooseIsKnown(s, c);
  }

  lemma LooseWants(x: Side, c: Caller, p: Node, name: Name)
    requires Wants(x, c, p, name) && c in x.calls.loose
    ensures x.calls.loose[c].p == p && x.calls.loose[c].name == name
  {
  }

  lemma LooseIsKnown(t: State, c: Caller)
    requires Inv(t) && c in t.a.calls.loose
    ensures var l := t.a.calls.loose[c];
      l.p in t.a.own && l.n in t.a.own && Known(t.b, t.a.own[l.p].nid, t.a.own[l.n].nid, l.name)
  {
    var l := t.a.calls.loose[c];
    assert LooseOk(t.a, l);
    assert ProxyOk(t.a, t.b, l.n);
    hide Half, Known;
  }
}
