/** Blocking calls. `fetch_node` and `update_prop` keep the tracking lock of their end while they
    wait, and answering either needs that lock at the other end. */
module MirrorWaits {
  import opened Bytes
  import opened Packages
  import opened Mirror
  import opened MirrorProof
  import opened MirrorRuns

  /** Some run ends in `s`, whatever its fetches brought. */
  ghost predicate EverReachable(s: State) {
    exists s0, events :: Initial(s0) && IsRun(s0, events) && After(s0, events) == s
  }

  /** A caller that holds the lock waits for its answer. */
  predicate Waiting(x: Side) {
    (x.calls.fetching.Some? && x.calls.reply.None?) || (x.calls.valuing.Some? && !x.calls.valued)
  }

  /** A caller that holds the lock has its answer, and can go on. */
  predicate Answered(x: Side) {
    (x.calls.fetching.Some? && x.calls.reply.Some?) || (x.calls.valuing.Some? && x.calls.valued)
  }

  /** The question of a caller that waits is still in the queue, and there is one such caller. */
  predicate Queued(x: Side, toY: seq<Msg>) {
    && (x.calls.fetching.Some? && x.calls.reply.None? ==> exists m :: m in toY && m.At?)
    && (x.calls.valuing.Some? && !x.calls.valued ==> exists m :: m in toY && m.GetValue?)
    && (x.calls.fetching.Some? ==> x.calls.fetching.value.0 in x.own && x.calls.valuing.None?)
  }

  predicate BothQueued(s: State) { Queued(s.a, s.ab) && Queued(s.b, s.ba) }

  // ---------- The question stays until it is answered ----------

  /** Telling the peer gives out nids at most. */
  lemma TellingTracks(x: Side, p: Node, name: Name, n: Node, next: Nid)
    ensures var x' := TellAdded(x, p, name, n, next).0; x' == x.(tracked := x'.tracked)
    ensures var x' := TellAttach(x, p, name, n, next).0; x' == x.(tracked := x'.tracked)
  {
    hide FindNid;
  }

  lemma AttachOnly(x: Side, p: Node, name: Name, n: Node, next: Nid)
    ensures var x' := AttachNode(x, p, name, n, next).0;
      x' == x.(tracked := x'.tracked, edges := if (p, name) in x.edges then x.edges else x.edges[(p, name) := n])
  {
    var x1 := x.(edges := x.edges[(p, name) := n]);
    TellingTracks(x1, p, name, n, next);
    var (x2, _, next2) := TellAdded(x1, p, name, n, next);
    TellingTracks(x2, p, name, n, next2);
    hide TellAdded, TellAttach;
  }

  lemma AttachKeepsOwn(x: Side, p: Node, name: Name, n: Node, next: Nid)
    ensures var x' := AttachNode(x, p, name, n, next).0; x'.own == x.own && x'.calls == x.calls
  {
    AttachOnly(x, p, name, n, next);
    hide AttachNode;
  }

  /** What receiving a message shows: it leaves the queue, nothing else leaves any, proxies stay, and
      only the answer to a question reaches the peer's callers. */
  lemma ReceiveShows(s: State)
    requires EnabledLeft(s, Receive)
    ensures var t, m := StepLeft(s, Receive), s.ba[0];
      && t.ba == s.ba[1..] && s.ab <= t.ab && t.a.calls == s.a.calls && s.a.own.Keys <= t.a.own.Keys
      && t.b == s.b.(calls := t.b.calls)
      && (match m
          case At(_, _) => t.b.calls == s.b.calls.(reply := t.b.calls.reply) && t.b.calls.reply.Some?
          case GetValue(_) => t.b.calls == s.b.calls.(valued := s.b.calls.valuing.Some?)
          case _ => t.b.calls == s.b.calls)
  {
    var x, m := s.a, s.ba[0];
    match m {
      case ChildAdded(parent, k, name) =>
        if parent in x.tracked {
          if k in x.tracked { AttachKeepsOwn(x, x.tracked[parent], name, x.tracked[k], s.next); }
          else { AttachKeepsOwn(NewProxy(x, k, parent, name), x.tracked[parent], name, x.nodes, s.next); }
        }
        hide AttachNode;
      case Attach(parent, k, name) =>
        if parent in x.tracked {
          AttachKeepsOwn(NewProxy(x, k, parent, name), x.tracked[parent], name, x.nodes, s.next);
        }
        hide AttachNode;
      case Subscribe(k) =>
      case At(k, name) => hide FindNid;
      case GetValue(k) =>
    }
  }

  lemma StillThere(q: seq<Msg>)
    requires q != []
    ensures (exists m :: m in q && m.At?) ==> q[0].At? || exists m :: m in q[1..] && m.At?
    ensures (exists m :: m in q && m.GetValue?) ==> q[0].GetValue? || exists m :: m in q[1..] && m.GetValue?
  {
    assert forall m :: m in q ==> m == q[0] || m in q[1..];
  }

  lemma QueuedMore(x: Side, x': Side, q: seq<Msg>, q': seq<Msg>)
    requires Queued(x, q) && q <= q' && x'.calls == x.calls && x.own.Keys <= x'.own.Keys
    ensures Queued(x', q')
  {
    assert forall m :: m in q ==> m in q';
  }

  lemma ReceiveQueued(s: State)
    requires BothQueued(s) && EnabledLeft(s, Receive)
    ensures BothQueued(StepLeft(s, Receive))
  {
    var t := StepLeft(s, Receive);
    ReceiveShows(s);
    hide StepLeft;
    QueuedMore(s.a, t.a, s.ab, t.ab);
    StillThere(s.ba);
  }

  lemma AskedQueued(x: Side, q: seq<Msg>, m: Msg)
    ensures (exists o :: o in q + [m] && o.At?) <==> m.At? || exists o :: o in q && o.At?
    ensures (exists o :: o in q + [m] && o.GetValue?) <==> m.GetValue? || exists o :: o in q && o.GetValue?
  {
    assert m in q + [m];
    assert forall o :: o in q ==> o in q + [m];
  }

  lemma AttachQueued(s: State, p: Node, name: Name)
    requires BothQueued(s) && EnabledLeft(s, AppAttach(p, name))
    ensures BothQueued(StepLeft(s, AppAttach(p, name)))
  {
    var t := StepLeft(s, AppAttach(p, name));
    AttachKeepsOwn(NewNode(s.a), p, name, s.a.nodes, s.next);
    hide AttachNode, Queued;
    QueuedMore(s.a, t.a, s.ab, t.ab);
  }

  lemma CallQueued(s: State, act: Act)
    requires BothQueued(s) && EnabledLeft(s, act) && !act.AppAttach? && !act.Receive?
    ensures BothQueued(StepLeft(s, act))
  {
    match act {
      case FetchStart(_) => AskedQueued(s.a, s.ab, StepLeft(s, act).ab[|s.ab|]);
      case ValueStart(k) => AskedQueued(s.a, s.ab, GetValue(k));
      case _ =>
    }
  }

  lemma StepLeftQueued(s: State, act: Act)
    requires BothQueued(s) && EnabledLeft(s, act)
    ensures BothQueued(StepLeft(s, act))
  {
    hide BothQueued, StepLeft, EnabledLeft;
    match act {
      case AppAttach(p, name) => AttachQueued(s, p, name);
      case Receive => ReceiveQueued(s);
      case _ => CallQueued(s, act);
    }
  }

  lemma {:induction false} RunQueued(s: State, events: seq<Event>)
    requires BothQueued(s) && IsRun(s, events)
    ensures BothQueued(After(s, events))
    decreases |events|
  {
    hide Queued, StepLeft;
    if events != [] {
      var e := events[0];
      StepLeftQueued(if e.left then s else Flip(s), e.act);
      RunQueued(Step(s, e), events[1..]);
    }
  }

  lemma InitialQueued(s: State)
    requires Initial(s)
    ensures BothQueued(s)
  {
  }

  lemma EverReachableQueued(s: State)
    requires EverReachable(s)
    ensures BothQueued(s)
  {
    hide BothQueued, Initial, IsRun, After;
    var s0, events :| Initial(s0) && IsRun(s0, events) && After(s0, events) == s;
    InitialQueued(s0);
    RunQueued(s0, events);
  }

  // ---------- The peer can answer ----------

  /** The peer works off its queue until the answer is there. */
  lemma {:induction false} PeerAnswers(s: State) returns (events: seq<Event>)
    requires BothQueued(s) && Waiting(s.a) && !Locked(s.b)
    ensures IsRun(s, events) && Answered(After(s, events).a)
    decreases |s.ab|
  {
    var e := Event(false, Receive);
    var f := Flip(s);
    assert s.ab != [] && Enabled(s, e);
    ReceiveShows(f);
    StepLeftQueued(f, Receive);
    var t := Step(s, e);
    assert t.ab == s.ab[1..] && t.b.calls == s.b.calls && (Waiting(t.a) || Answered(t.a));
    hide Queued, StepLeft;
    OneEvent(s, e);
    if Waiting(t.a) {
      hide Waiting, Answered;
      var more := PeerAnswers(t);
      RunsJoin(s, [e], more);
      events := [e] + more;
    } else {
      events := [e];
    }
  }

  lemma PeerFinishes(s: State) returns (e: Event)
    requires BothQueued(s) && Waiting(s.a) && Answered(s.b) && !Waiting(s.b)
    ensures Enabled(s, e) && BothQueued(Step(s, e)) && Waiting(Step(s, e).a) && !Locked(Step(s, e).b)
  {
    e := if s.b.calls.fetching.Some? then Event(false, FetchDone(s.b.calls.holder)) else Event(false, ValueDone);
    StepLeftQueued(Flip(s), e.act);
    hide Queued;
  }

  lemma MutualLeft(s: State, act: Act)
    requires Waiting(s.a) && EnabledLeft(s, act) && (s.a.calls.fetching.Some? ==> s.a.calls.valuing.None?)
    ensures act.Look? || act.Insert?
    ensures var t := StepLeft(s, act); Waiting(t.a) && t.b == s.b
  {
  }

  /** While both wait, nothing that can happen answers either. */
  lemma MutualStep(s: State, e: Event)
    requires Waiting(s.a) && Waiting(s.b) && Enabled(s, e) && BothQueued(s)
    ensures Waiting(Step(s, e).a) && Waiting(Step(s, e).b)
  {
    assert s.a.calls.fetching.Some? ==> s.a.calls.valuing.None?;
    assert s.b.calls.fetching.Some? ==> s.b.calls.valuing.None?;
    hide Queued, Waiting, StepLeft, EnabledLeft;
    MutualLeft(if e.left then s else Flip(s), e.act);
  }

  lemma {:induction false} MutualWaitStays(s: State, events: seq<Event>)
    requires Waiting(s.a) && Waiting(s.b) && BothQueued(s) && IsRun(s, events)
    ensures Waiting(After(s, events).a) && Waiting(After(s, events).b)
    decreases |events|
  {
    if events != [] {
      var e := events[0];
      MutualStep(s, e);
      StepLeftQueued(if e.left then s else Flip(s), e.act);
      hide Queued, Waiting, StepLeft;
      MutualWaitStays(Step(s, e), events[1..]);
    }
  }

  /** In every reachable state in which a caller of the left end waits: its answer can still come,
      by some run, exactly if no caller of the peer waits with the peer's lock. */
  lemma AnswerCanComeIff(s: State)
    requires EverReachable(s) && Waiting(s.a)
    ensures (exists events :: IsRun(s, events) && Answered(After(s, events).a)) <==> !Waiting(s.b)
  {
    EverReachableQueued(s);
    if Waiting(s.b) {
      forall events | IsRun(s, events) ensures !Answered(After(s, events).a) {
        MutualWaitStays(s, events);
        RunQueued(s, events);
      }
    } else if Locked(s.b) {
      var e := PeerFinishes(s);
      OneEvent(s, e);
      hide Queued, Waiting, Answered, Step, Enabled;
      var more := PeerAnswers(Step(s, e));
      RunsJoin(s, [e], more);
    } else {
      var events := PeerAnswers(s);
    }
  }
}
