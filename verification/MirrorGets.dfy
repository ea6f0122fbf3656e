/** `get` among whatever else goes on: any steps of both ends, other callers at this end included, may
    come between its own. */
module MirrorGets {
  import opened Bytes
  import opened Packages
  import opened Mirror
  import opened MirrorProof
  import opened MirrorRuns
  import opened MirrorWaits
  import opened MirrorRaces

  /** How `get` goes on at one name of its path, and what happens meanwhile. */
  datatype Piece =
    | Cached(before: seq<Event>)                        // the child is there when it looks
    | Fetched(before: seq<Event>, between: seq<Event>)  // it is not, and is fetched and inserted

  function Until(piece: Piece, c: Caller, p: Node, name: Name): seq<Event>
    requires piece.Fetched?
  {
    piece.before + ([Event(true, Look(c, p, name))] + piece.between)
  }

  function EventsOf(piece: Piece, c: Caller, p: Node, name: Name): seq<Event> {
    match piece
    case Cached(before) => before
    case Fetched(_, _) => Until(piece, c, p, name) + [Event(true, Insert(c))]
  }

  /** A run in which the caller gets the child: it finds it, or it brings it, nobody having put anything
      there by the time of its insertion. */
  predicate Gets(s: State, c: Caller, p: Node, name: Name, piece: Piece) {
    match piece
    case Cached(before) =>
      IsRun(s, before) && SoundRun(s, before) && (p, name) in After(s, before).a.edges
    case Fetched(before, between) =>
      var events := Until(piece, c, p, name);
      && IsRun(s, events) && SoundRun(s, events) && SameGet(between, c, true)
      && var t := After(s, events); c in t.a.calls.loose && (p, name) !in t.a.edges
  }

  /** What it got. */
  function Got(s: State, c: Caller, p: Node, name: Name, piece: Piece): Node
    requires Gets(s, c, p, name, piece)
  {
    match piece
    case Cached(before) => After(s, before).a.edges[(p, name)]
    case Fetched(_, _) => After(s, Until(piece, c, p, name)).a.calls.loose[c].n
  }

  lemma RunsOf(s: State, events: seq<Event>, more: seq<Event>)
    requires IsRun(s, events + more)
    ensures IsRun(s, events) && IsRun(After(s, events), more)
    ensures After(s, events + more) == After(After(s, events), more)
    decreases |events|
  {
    hide Step, Enabled;
    if events == [] {
      assert [] + more == more;
    } else {
      assert (events + more)[0] == events[0] && (events + more)[1..] == events[1..] + more;
      RunsOf(Step(s, events[0]), events[1..], more);
    }
  }

  /** The caller is still at its place when it is about to insert. */
  lemma StillWants(s: State, c: Caller, p: Node, name: Name, piece: Piece)
    requires piece.Fetched? && Gets(s, c, p, name, piece)
    ensures var t := After(s, Until(piece, c, p, name));
      c in t.a.calls.loose && t.a.calls.loose[c].p == p && t.a.calls.loose[c].name == name
  {
    var look := Event(true, Look(c, p, name));
    var before, between := piece.before, piece.between;
    var events := before + ([look] + between);
    assert events == Until(piece, c, p, name);
    hide *;
    GetsParts(s, c, p, name, piece);
    RunsOf(s, before, [look] + between);
    RunsOf(After(s, before), [look], between);
    StartsWith(After(s, before), look, between);
    LookedState(After(s, before), c, p, name);
    RunKeepsWants(Step(After(s, before), look), between, c, p, name);
    LooseWants(After(s, events).a, c, p, name);
  }

  lemma GetsParts(s: State, c: Caller, p: Node, name: Name, piece: Piece)
    requires piece.Fetched? && Gets(s, c, p, name, piece)
    ensures var events := Until(piece, c, p, name);
      && IsRun(s, events) && SoundRun(s, events) && SameGet(piece.between, c, true)
      && var t := After(s, events); c in t.a.calls.loose && (p, name) !in t.a.edges
  {
    hide Until, IsRun, SoundRun, SameGet, After;
  }

  lemma StartsWith(s: State, e: Event, more: seq<Event>)
    requires IsRun(s, [e] + more)
    ensures Enabled(s, e) && IsRun(Step(s, e), more) && After(s, [e] + more) == After(Step(s, e), more)
  {
    hide Step, Enabled;
    assert ([e] + more)[1..] == more;
  }

  /** Having got the child, it hangs there. */
  lemma GotHangs(s: State, c: Caller, p: Node, name: Name, piece: Piece)
    requires Reachable(s) && Gets(s, c, p, name, piece)
    ensures var events := EventsOf(piece, c, p, name);
      && IsRun(s, events) && SoundRun(s, events) && Reachable(After(s, events))
      && (p, name) in After(s, events).a.edges && After(s, events).a.edges[(p, name)] == Got(s, c, p, name, piece)
  {
    match piece {
      case Cached(before) =>
        hide Reachable, IsRun, SoundRun, After;
        ReachableRun(s, before);
      case Fetched(before, between) =>
        var events, insert := Until(piece, c, p, name), Event(true, Insert(c));
        assert EventsOf(piece, c, p, name) == events + [insert];
        assert Got(s, c, p, name, piece) == After(s, events).a.calls.loose[c].n;
        hide *;
        GetsParts(s, c, p, name, piece);
        StillWants(s, c, p, name, piece);
        ReachableRun(s, events);
        var t := After(s, events);
        InsertHangs(t, c);
        OneEvent(t, insert);
        RunsJoin(s, events, [insert]);
        ReachableStep(t, insert);
    }
  }

  lemma InsertHangs(t: State, c: Caller)
    requires c in t.a.calls.loose && (t.a.calls.loose[c].p, t.a.calls.loose[c].name) !in t.a.edges
    ensures var e, l := Event(true, Insert(c)), t.a.calls.loose[c];
      && Enabled(t, e) && SoundStep(t, e)
      && (l.p, l.name) in Step(t, e).a.edges && Step(t, e).a.edges[(l.p, l.name)] == l.n
  {
  }

  /** A run in which the caller gets, name by name, the whole path, all of it proxies. */
  predicate GetsAll(s: State, c: Caller, p: Node, path: seq<Name>, pieces: seq<Piece>)
    decreases |path|
  {
    if path == [] then pieces == []
    else
      && pieces != [] && Gets(s, c, p, path[0], pieces[0])
      && IsRun(s, EventsOf(pieces[0], c, p, path[0]))
      && var n, t := Got(s, c, p, path[0], pieces[0]), After(s, EventsOf(pieces[0], c, p, path[0]));
         n in t.a.own && GetsAll(t, c, n, path[1..], pieces[1..])
  }

  /** How it ends: the state, and the node that `get` returns. */
  function Ends(s: State, c: Caller, p: Node, path: seq<Name>, pieces: seq<Piece>): (State, Node)
    requires GetsAll(s, c, p, path, pieces)
    decreases |path|
  {
    if path == [] then (s, p) else
      var t := After(s, EventsOf(pieces[0], c, p, path[0]));
      Ends(t, c, Got(s, c, p, path[0], pieces[0]), path[1..], pieces[1..])
  }

  /** The node that a proxy stands for is the one that the peer has at the path from what another stands for. */
  predicate LeadsTo(t: State, p: Node, path: seq<Name>, n: Node) {
    && p in t.a.own && n in t.a.own && t.a.own[p].nid in t.b.tracked && t.a.own[n].nid in t.b.tracked
    && Walk(t.b, t.b.tracked[t.a.own[p].nid], path) == Some(t.b.tracked[t.a.own[n].nid])
  }

  /** What both ends have learned stays. */
  predicate BothGrown(s: State, t: State) { Grows(s.a, t.a) && Grows(s.b, t.b) }

  lemma BothGrownOn(s: State, t: State, u: State)
    requires BothGrown(s, t) && BothGrown(t, u)
    ensures BothGrown(s, u)
  {
    hide Grows;
    GrowsFurther(s.a, t.a, u.a);
    GrowsFurther(s.b, t.b, u.b);
  }

  lemma RunGrown(s: State, events: seq<Event>)
    requires Reachable(s) && IsRun(s, events) && SoundRun(s, events)
    ensures BothGrown(s, After(s, events))
  {
    ReachableInv(s);
    hide Reachable, Inv, Grows, IsRun, SoundRun, After;
    RunGrows(s, events);
  }

  lemma NoStep(s: State, p: Node)
    requires Reachable(s) && p in s.a.own
    ensures LeadsTo(s, p, [], p) && BothGrown(s, s)
  {
    hide Reachable, Grows;
    ProxyStandsForSomething(s, p);
    SelfGrows(s.a);
    SelfGrows(s.b);
  }

  lemma OneStep(s: State, t: State, p: Node, n: Node, path: seq<Name>, m: Node)
    requires path != [] && p in s.a.own && n in s.a.own && Known(s.b, s.a.own[p].nid, s.a.own[n].nid, path[0])
    requires BothGrown(s, t) && LeadsTo(t, n, path[1..], m) && TrackedNodesExist(s.b)
    ensures LeadsTo(t, p, path, m)
  {
    hide Walk;
    assert p in t.a.own && t.a.own[p] == s.a.own[p] && t.a.own[n] == s.a.own[n];
    KnownStays(s.b, t.b, s.a.own[p].nid, s.a.own[n].nid, path[0]);
    hide Grows, Known;
    StepDown(t, p, n, path);
  }

  lemma KnownStays(y: Side, y': Side, parent: Nid, k: Nid, name: Name)
    requires Grows(y, y') && Known(y, parent, k, name) && TrackedNodesExist(y)
    ensures Known(y', parent, k, name)
  {
  }

  predicate TrackedNodesExist(y: Side) { forall k :: k in y.tracked ==> y.tracked[k] < y.nodes }

  /** Whatever both ends did meanwhile, what `get` returns stands for the node that the peer has at that
      path. */
  lemma {:induction false} GetFinds(s: State, c: Caller, p: Node, path: seq<Name>, pieces: seq<Piece>)
    requires Reachable(s) && p in s.a.own && GetsAll(s, c, p, path, pieces)
    ensures var (t, n) := Ends(s, c, p, path, pieces); Reachable(t) && BothGrown(s, t) && LeadsTo(t, p, path, n)
    decreases |path|
  {
    hide Reachable, Gets, Got, EventsOf, IsRun, After, BothGrown, LeadsTo;
    if path == [] {
      NoStep(s, p);
    } else {
      var name, piece := path[0], pieces[0];
      var events := EventsOf(piece, c, p, name);
      var n, u := Got(s, c, p, name, piece), After(s, events);
      GotHangs(s, c, p, name, piece);
      RunGrown(s, events);
      StaysOwn(s, u, p);
      CachedStep(u, p, name, n);
      GetFinds(u, c, n, path[1..], pieces[1..]);
      var (t, m) := Ends(u, c, n, path[1..], pieces[1..]);
      BothGrownOn(s, u, t);
      OneStepOf(u, t, p, n, path, m);
    }
  }

  lemma StaysOwn(s: State, t: State, p: Node)
    requires BothGrown(s, t) && p in s.a.own
    ensures p in t.a.own
  {
  }

  lemma OneStepOf(s: State, t: State, p: Node, n: Node, path: seq<Name>, m: Node)
    requires path != [] && p in s.a.own && n in s.a.own && Known(s.b, s.a.own[p].nid, s.a.own[n].nid, path[0])
    requires Reachable(s) && BothGrown(s, t) && LeadsTo(t, n, path[1..], m)
    ensures LeadsTo(t, p, path, m)
  {
    ReachableInv(s);
    PeerTableOk(s);
    hide Reachable, Inv, BothGrown, LeadsTo, Known;
    OneStep(s, t, p, n, path, m);
  }

  lemma PeerTableOk(s: State)
    requires Inv(s)
    ensures TrackedNodesExist(s.b)
  {
    assert TrackedOk(s.b, s.next);
    hide Half;
  }

  // ---------- Nothing found ----------

  /** The caller has its reply, an error. */
  predicate Missed(x: Side, c: Caller) {
    x.calls.fetching.Some? && x.calls.holder == c && x.calls.reply == Some(None)
  }

  /** The peer handles the question, and has no such child. */
  predicate MissAt(s: State, e: Event, p: Node, name: Name) {
    && !e.left && e.act.Receive? && s.ab != [] && p in s.a.own && s.ab[0] == At(s.a.own[p].nid, name)
    && NotThere(s.b, s.a.own[p].nid, name)
  }

  lemma LeftMisses(s: State, act: Act, c: Caller)
    requires EnabledLeft(s, act) && Missed(StepLeft(s, act).a, c)
    ensures Missed(s.a, c)
  {
    if act.Receive? {
      ReceiveShows(s);
      hide StepLeft;
    } else if act.AppAttach? {
      AttachKeepsOwn(NewNode(s.a), act.p, act.name, s.a.nodes, s.next);
    }
    hide AttachNode;
  }

  /** What the error says: there was no such child when the question was handled. */
  lemma AtMisses(s: State)
    requires EnabledLeft(s, Receive) && s.ba[0].At? && s.ba[0].nid in s.a.tracked
    ensures StepLeft(s, Receive).b.calls.reply == Some(None) ==> NotThere(s.a, s.ba[0].nid, s.ba[0].name)
  {
    hide FindNid;
  }

  lemma PeerKeepsReply(s: State, act: Act)
    requires EnabledLeft(s, act) && (act.Receive? ==> !s.ba[0].At?)
    ensures var x, x' := s.b.calls, StepLeft(s, act).b.calls;
      x'.fetching == x.fetching && x'.holder == x.holder && x'.reply == x.reply
  {
    if act.Receive? {
      ReceiveShows(s);
      hide StepLeft;
    } else {
      hide AttachNode, OnFetched, OnInsert;
    }
  }

  /** The question at the head of the queue is the one that is being asked. */
  lemma HeadAsks(s: State, c: Caller, p: Node, name: Name)
    requires s.ba != [] && s.ba[0].At? && Inv(s) && Wants(s.b, c, p, name)
    ensures s.b.calls.fetching.Some? && s.ba[0].nid in s.a.tracked
    ensures s.b.calls.holder == c ==> p in s.b.own && s.ba[0] == At(s.b.own[p].nid, name)
  {
    HeadOk(s);
    ProxyIsOriginal(s.b, s.a, s.b.calls.fetching.value.0);
    hide Inv, Half;
  }

  lemma AtReplies(s: State)
    requires EnabledLeft(s, Receive) && s.ba[0].At?
    ensures var x, x' := s.b.calls, StepLeft(s, Receive).b.calls; x'.fetching == x.fetching && x'.holder == x.holder
  {
    ReceiveShows(s);
    hide StepLeft;
  }

  lemma PeerMisses(s: State, act: Act, c: Caller, p: Node, name: Name)
    requires EnabledLeft(s, act) && !Missed(s.b, c) && Missed(StepLeft(s, act).b, c) && Wants(s.b, c, p, name)
    requires Inv(s)
    ensures MissAt(Flip(s), Event(false, act), p, name)
  {
    hide *;
    if act.Receive? {
      HasHead(s);
      if s.ba[0].At? {
        HeadAsks(s, c, p, name);
        AtMisses(s);
        AtReplies(s);
        MissIs(s, StepLeft(s, act), c, p, name);
        return;
      }
    }
    PeerKeepsReply(s, act);
    MissedSame(s.b, StepLeft(s, act).b, c);
  }

  lemma MissedSame(x: Side, x': Side, c: Caller)
    requires x'.calls.fetching == x.calls.fetching && x'.calls.holder == x.calls.holder
    requires x'.calls.reply == x.calls.reply
    ensures Missed(x', c) == Missed(x, c)
  {
  }

  lemma MissIs(s: State, t: State, c: Caller, p: Node, name: Name)
    requires Missed(t.b, c) && t.b.calls.holder == s.b.calls.holder && s.ba != [] && s.ba[0].At?
    requires s.b.calls.holder == c ==> p in s.b.own && s.ba[0] == At(s.b.own[p].nid, name)
    requires t.b.calls.reply == Some(None) ==> NotThere(s.a, s.ba[0].nid, s.ba[0].name)
    ensures MissAt(Flip(s), Event(false, Receive), p, name)
  {
  }

  lemma StepMisses(s: State, e: Event, c: Caller, p: Node, name: Name)
    requires Enabled(s, e) && !Missed(s.a, c) && Missed(Step(s, e).a, c) && Wants(s.a, c, p, name) && Inv(s)
    ensures MissAt(s, e, p, name)
  {
    if e.left {
      hide Inv, StepLeft, EnabledLeft, Missed;
      LeftMisses(s, e.act, c);
    } else {
      FlipInv(s);
      hide Inv, StepLeft, EnabledLeft, Missed, MissAt, Wants;
      PeerMisses(Flip(s), e.act, c, p, name);
    }
  }

  /** At some point of the run the peer handled the question and had no such child. */
  lemma {:induction false} MissWasSeen(s: State, events: seq<Event>, c: Caller, p: Node, name: Name) returns (i: nat)
    requires IsRun(s, events) && SoundRun(s, events) && SameGet(events, c, true) && Wants(s.a, c, p, name)
    requires !Missed(s.a, c) && Missed(After(s, events).a, c) && Inv(s)
    ensures i < |events| && IsRun(s, events[..i]) && MissAt(After(s, events[..i]), events[i], p, name)
    decreases |events|
  {
    hide *;
    i := 0;
    if events == [] {
      NothingYet(s, p, name);
    } else {
      var e := events[0];
      FirstOfRun(s, events);
      FirstSound(s, events);
      FirstInGet(events, c, true);
      if Missed(Step(s, e).a, c) {
        StepMisses(s, e, c, p, name);
        Nothing(s, events);
      } else {
        StepKeeps(s, e);
        StepKeepsWants(s, e, c, p, name);
        var j := MissWasSeen(Step(s, e), events[1..], c, p, name);
        i := j + 1;
        assert [e] + events[1..][..j] == events[..i];
        Prepends(s, e, events[1..][..j]);
      }
    }
  }

  lemma Nothing(s: State, events: seq<Event>)
    ensures IsRun(s, events[..0]) && After(s, events[..0]) == s
  {
    assert events[..0] == [];
  }

  lemma Prepends(s: State, e: Event, more: seq<Event>)
    requires Enabled(s, e) && IsRun(Step(s, e), more)
    ensures IsRun(s, [e] + more) && After(s, [e] + more) == After(Step(s, e), more)
  {
    hide Step, Enabled;
    assert ([e] + more)[1..] == more;
  }

  /** `get` has nothing to return when its question was answered with an error; and then, at some point
      since its lookup, whatever else was going on, the peer had no such child. */
  lemma GetMisses(s: State, c: Caller, p: Node, name: Name, events: seq<Event>) returns (i: nat)
    requires Reachable(s) && Enabled(s, Event(true, Look(c, p, name)))
    requires var s1 := Step(s, Event(true, Look(c, p, name)));
      IsRun(s1, events) && SoundRun(s1, events) && SameGet(events, c, true) && Missed(After(s1, events).a, c)
    ensures var s1 := Step(s, Event(true, Look(c, p, name)));
      i < |events| && IsRun(s1, events[..i]) && MissAt(After(s1, events[..i]), events[i], p, name)
  {
    hide *;
    ReachableInv(s);
    AfterLook(s, c, p, name);
    NotMissedYet(s, c, p, name);
    i := MissWasSeen(Step(s, Event(true, Look(c, p, name))), events, c, p, name);
  }

  lemma NotMissedYet(s: State, c: Caller, p: Node, name: Name)
    requires Enabled(s, Event(true, Look(c, p, name)))
    ensures !Missed(Step(s, Event(true, Look(c, p, name))).a, c)
  {
  }
}
