/** What holds in every run of two joined dispatchers, of any length and interleaving. */
module RequestReplyRuns {
  import opened Bytes
  import opened Packages
  import opened MessageIds
  import opened RequestReply
  import opened RequestReplyProof

  /** A run: every event is enabled, and no send starts with 32767 senders outstanding. */
  predicate IsRun(n: Net, events: seq<Event>)
    decreases |events|
  {
    events == [] ||
    (var e := events[0];
     Enabled(n, e) && WithinIds(if e.left then n.a else n.b, e.act) && IsRun(Step(n, e), events[1..]))
  }

  function After(n: Net, events: seq<Event>): Net
    requires IsRun(n, events)
    decreases |events|
  {
    if events == [] then n else After(Step(n, events[0]), events[1..])
  }

  ghost predicate Reachable(n: Net) { exists events :: IsRun(InitialNet, events) && After(InitialNet, events) == n }

  lemma InitialInv()
    ensures Inv(InitialNet)
  {
    forall x: msgid | Usable(x)
      ensures Tokens(InitialNet.a, InitialNet.b, [], [], x) == 0
    {
      assert PendingWith(InitialNet.b, x) == {} && ReadyWith(InitialNet.a, x) == {};
    }
  }

  lemma {:induction false} RunKeeps(n: Net, events: seq<Event>)
    requires Inv(n) && IsRun(n, events)
    ensures Inv(After(n, events))
    decreases |events|
  {
    hide Inv, Step;
    if events != [] {
      StepKeeps(n, events[0]);
      RunKeeps(Step(n, events[0]), events[1..]);
    }
  }

  lemma ReachableInv(n: Net)
    requires Reachable(n)
    ensures Inv(n)
  {
    hide Inv;
    var events :| IsRun(InitialNet, events) && After(InitialNet, events) == n;
    InitialInv();
    RunKeeps(InitialNet, events);
  }

  // ---------- Message ids ----------

  /** Every id an endpoint ever minted is in exactly one place: its free list, a request under
      way, the peer's table, a reply under way, or a sender whose reply has come. Every other
      id is nowhere. */
  lemma IdsAreConserved(n: Net, x: msgid)
    requires Reachable(n) && Usable(x)
    ensures Tokens(n.a, n.b, n.ab, n.ba, x) == (if 1 <= x < n.a.ids.next then 1 else 0)
    ensures Tokens(n.b, n.a, n.ba, n.ab, x) == (if 1 <= x < n.b.ids.next then 1 else 0)
  {
    ReachableInv(n);
    TokensOf(n.a, n.b, n.ab, n.ba, x);
    TokensOf(n.b, n.a, n.ba, n.ab, x);
  }

  /** The id the next `send` takes has no reply, no request and no sender anywhere. */
  lemma NextIdIsUnused(n: Net)
    requires Reachable(n) && |n.a.senders| < REPLY_FLAG - 1
    ensures var id := Generate(n.a.ids).0;
      && Usable(id)
      && (forall t :: t in n.a.senders ==> n.a.senders[t].id != id)
      && (forall w :: w in n.ab ==> w.word != id)
      && (forall w :: w in n.ba ==> w.word != Flagged(id))
      && (forall h :: h in n.b.pending ==> n.b.pending[h].id != id)
  {
    ReachableInv(n);
    NewId(n.a);
    FreeIdIsQuiet(n.a, n.b, n.ab, n.ba, Generate(n.a.ids).0);
  }

  /** The counter is one more than the most senders ever outstanding, however long the run. */
  lemma CounterIsPeak(n: Net)
    requires Reachable(n)
    ensures n.a.ids.next == 1 + n.a.peak <= REPLY_FLAG && |n.a.senders| <= n.a.peak
    ensures n.a.ids.next - 1 == |n.a.ids.free| + |n.a.senders|
  {
    ReachableInv(n);
  }

  /** The next id is usable exactly while fewer than 32767 senders are outstanding. */
  lemma NextIdUsableIff(n: Net)
    requires Reachable(n)
    ensures Usable(Generate(n.a.ids).0) <==> |n.a.senders| < REPLY_FLAG - 1
  {
    ReachableInv(n);
    if |n.a.senders| < REPLY_FLAG - 1 {
      NewId(n.a);
    } else {
      assert |n.a.ids.free| == 0;
    }
  }

  /** One sender too many: its request is taken for a one-way package, so nobody can answer it. */
  lemma RequestLostBeyondIds(n: Net, t: nat, pkg: bytes)
    requires Reachable(n) && t !in n.a.senders && |n.a.senders| == REPLY_FLAG - 1
    ensures var n1 := StepLeft(n, Send(t, pkg));
      |n1.ab| == |n.ab| + 1 && forall e: Endpoint :: Demuxed(e, n1.ab[|n.ab|]) == e
  {
    ReachableInv(n);
    assert Generate(n.a.ids).0 == REPLY_FLAG;
  }

  lemma {:induction false} RunExtends(n: Net, events: seq<Event>, e: Event)
    requires IsRun(n, events) && Enabled(After(n, events), e)
    requires WithinIds(if e.left then After(n, events).a else After(n, events).b, e.act)
    ensures IsRun(n, events + [e]) && After(n, events + [e]) == Step(After(n, events), e)
    decreases |events|
  {
    hide Step;
    if events == [] {
      assert [e][1..] == [];
      assert events + [e] == [e];
    } else {
      assert (events + [e])[1..] == events[1..] + [e];
      RunExtends(Step(n, events[0]), events[1..], e);
    }
  }

  function Callers(k: nat): set<nat> { if k == 0 then {} else Callers(k - 1) + {k - 1} }

  lemma {:induction false} CallersCount(k: nat)
    ensures |Callers(k)| == k && forall t :: t in Callers(k) ==> t < k
  {
    if k > 0 {
      CallersCount(k - 1);
    }
  }

  lemma OneSenderMore(n: Net, t: nat, pkg: bytes)
    requires t !in n.a.senders && |n.a.senders| < REPLY_FLAG - 1
    ensures var e := Event(true, Send(t, pkg));
      Enabled(n, e) && WithinIds(n.a, e.act) && Step(n, e).a.senders.Keys == n.a.senders.Keys + {t}
  {
    hide Generate;
  }

  /** Any number of senders up to 32767 can be outstanding: they send one after the other. */
  lemma {:induction false} ManySenders(k: nat, pkg: bytes) returns (events: seq<Event>)
    requires k < REPLY_FLAG
    ensures IsRun(InitialNet, events) && After(InitialNet, events).a.senders.Keys == Callers(k)
  {
    hide IsRun, After, Step, Enabled, WithinIds;
    if k == 0 {
      events := [];
      RunNothing();
    } else {
      var sent := ManySenders(k - 1, pkg);
      var n, e := After(InitialNet, sent), Event(true, Send(k - 1, pkg));
      CallersCount(k - 1);
      assert |n.a.senders| == |n.a.senders.Keys|;
      OneSenderMore(n, k - 1, pkg);
      RunExtends(InitialNet, sent, e);
      events := sent + [e];
    }
  }

  lemma RunNothing()
    ensures IsRun(InitialNet, []) && After(InitialNet, []) == InitialNet
  {
  }

  /** So the limit is met: after some run 32767 senders are outstanding, and the request of the next
      changes nothing at whoever receives it. */
  lemma LimitIsReached(pkg: bytes) returns (events: seq<Event>)
    ensures IsRun(InitialNet, events)
    ensures var n := After(InitialNet, events); var t := REPLY_FLAG - 1;
      && |n.a.senders| == t && EnabledLeft(n, Send(t, pkg)) && !Usable(Generate(n.a.ids).0)
      && var n1 := StepLeft(n, Send(t, pkg));
         |n1.ab| == |n.ab| + 1 && forall e: Endpoint :: Demuxed(e, n1.ab[|n.ab|]) == e
  {
    events := ManySenders(REPLY_FLAG - 1, pkg);
    hide IsRun, After, StepLeft, Generate, Demuxed;
    var n := After(InitialNet, events);
    assert Reachable(n);
    CallersCount(REPLY_FLAG - 1);
    assert |n.a.senders| == |n.a.senders.Keys|;
    NextIdUsableIff(n);
    RequestLostBeyondIds(n, REPLY_FLAG - 1, pkg);
  }

  // ---------- Requests and replies ----------

  /** Requests received are the replies made and the requests still in the table. */
  lemma RequestsBalance(n: Net)
    requires Reachable(n)
    ensures n.a.requestsSeen == n.a.repliesMade + |n.a.pending|
    ensures n.b.requestsSeen == n.b.repliesMade + |n.b.pending|
  {
    ReachableInv(n);
  }

  /** A request that was answered: no longer in the table, and its handle not to be given again. */
  predicate Closed(a: Endpoint, h: nat) { h !in a.pending && h < a.nextHandle }

  lemma StaysClosed(n: Net, e: Event, h: nat)
    requires Enabled(n, e) && Closed(n.a, h)
    ensures Closed(Step(n, e).a, h)
  {
    if e.left && e.act.Receive? {
      assert Closed(Demuxed(n.a, n.ba[0]), h);
      hide Demuxed;
    }
  }

  lemma {:induction false} ClosedForGood(n: Net, events: seq<Event>, h: nat)
    requires IsRun(n, events) && Closed(n.a, h)
    ensures Closed(After(n, events).a, h)
    decreases |events|
  {
    if events != [] {
      StaysClosed(n, events[0], h);
      hide Step, Closed;
      ClosedForGood(Step(n, events[0]), events[1..], h);
    }
  }

  /** A request is answered once: however long the run goes on after the reply, a second one is
      refused and changes nothing. */
  lemma SecondReplyRefused(n: Net, h: nat, p: bytes, events: seq<Event>, q: bytes)
    requires Reachable(n) && h in n.a.pending && IsRun(StepLeft(n, Reply(h, p)), events)
    ensures var m := After(StepLeft(n, Reply(h, p)), events); h !in m.a.pending && StepLeft(m, Reply(h, q)) == m
  {
    hide *;
    ReachableInv(n);
    ReplyCloses(n, h, p);
    ClosedForGood(StepLeft(n, Reply(h, p)), events, h);
    ClosedRefuses(After(StepLeft(n, Reply(h, p)), events), h, q);
  }

  lemma ReplyCloses(n: Net, h: nat, p: bytes)
    requires Inv(n) && h in n.a.pending
    ensures EnabledLeft(n, Reply(h, p)) && Closed(StepLeft(n, Reply(h, p)).a, h)
  {
    hide Conserved, SlotOk, SendersOk, RequestTagsOk, PendingTagsOk, ReplyTagsOk;
  }

  lemma ClosedRefuses(n: Net, h: nat, q: bytes)
    requires Closed(n.a, h)
    ensures h !in n.a.pending && StepLeft(n, Reply(h, q)) == n
  {
  }

  /** A one-way package never enters the table. */
  lemma OneWayNeverPending(n: Net, h: nat)
    requires Reachable(n) && h in n.b.pending
    ensures exists t ::
      t in n.a.senders && n.a.senders[t].id == n.b.pending[h].id && n.a.senders[t].tag == n.b.pending[h].tag
  {
    ReachableInv(n);
    PendingAlone(n.a, n.b, h, n.ab, n.ba);
    var t := n.a.holder[n.b.pending[h].id];
    assert t in n.a.senders;
  }

  // ---------- Which reply `send` returns ----------

  /** A sender that wakes takes the reply to its own request exactly if no other reply was
      processed between its own and its waking; `in` is one slot for all senders. */
  lemma WakeTakesOwnReplyIff(n: Net, t: nat)
    requires Reachable(n) && EnabledLeft(n, Wake(t))
    ensures n.a.slotTag == n.a.senders[t].tag <==> n.a.repliesSeen == n.a.senders[t].seenAt
    ensures n.a.repliesSeen == n.a.senders[t].seenAt ==>
      n.a.senders[t].tag in n.b.answered && n.a.slot == Copied(n.b.answered[n.a.senders[t].tag])
  {
    ReachableInv(n);
    assert SlotOk(n.a, n.b);
  }

  /** A run in which a reply is only processed when no sender still has to wake from one. */
  predicate Prompt(n: Net, events: seq<Event>)
    requires IsRun(n, events)
    decreases |events|
  {
    events == [] || (InTime(n, events[0]) && Prompt(Step(n, events[0]), events[1..]))
  }

  predicate InTime(n: Net, e: Event)
    requires Enabled(n, e)
  {
    e.act.Receive? ==> NoneReady(if e.left then n.a else n.b) || !IsReply((if e.left then n.ba else n.ab)[0].word)
  }

  predicate NoneReady(a: Endpoint) { forall t :: t in a.senders ==> !Ready(a, t) }

  /** Nobody's reply has been overwritten. */
  predicate SlotFresh(a: Endpoint) {
    forall t :: t in a.senders && Ready(a, t) ==> a.senders[t].seenAt == a.repliesSeen
  }

  lemma PromptReceive(a: Endpoint, w: Wire)
    requires SlotFresh(a) && (NoneReady(a) || !IsReply(w.word))
    ensures SlotFresh(Demuxed(a, w))
  {
    if IsReply(w.word) && Unflagged(w.word) != 0 {
      ReplyInFields(a, w, Unflagged(w.word));
      assert Demuxed(a, w).repliesSeen == a.repliesSeen + 1;
      hide ReceiveReply, Ready;
    }
  }

  lemma PromptSend(a: Endpoint, t: nat)
    requires SendersOk(a) && Generate(a.ids).0 !in a.holder && t !in a.senders && SlotFresh(a)
    ensures SlotFresh(Sending(a, t))
  {
    SendingReady(a, t);
    hide SendersOk, Generate, Ready;
  }

  lemma PromptStep(n: Net, act: Act)
    requires Inv(n) && EnabledLeft(n, act) && WithinIds(n.a, act) && SlotFresh(n.a) && SlotFresh(n.b)
    requires act.Receive? ==> NoneReady(n.a) || !IsReply(n.ba[0].word)
    ensures SlotFresh(StepLeft(n, act).a) && SlotFresh(StepLeft(n, act).b)
  {
    match act {
      case Send(t, p) => hide *; PromptSending(n, t, p);
      case Receive => hide *; PromptReceiving(n);
      case _ => hide *; PromptOther(n, act);
    }
  }

  lemma PromptSending(n: Net, t: nat, p: bytes)
    requires Inv(n) && EnabledLeft(n, Send(t, p)) && WithinIds(n.a, Send(t, p)) && SlotFresh(n.a) && SlotFresh(n.b)
    ensures SlotFresh(StepLeft(n, Send(t, p)).a) && SlotFresh(StepLeft(n, Send(t, p)).b)
  {
    NewId(n.a);
    PromptSend(n.a, t);
    hide Inv, SlotFresh;
  }

  lemma PromptReceiving(n: Net)
    requires EnabledLeft(n, Receive) && SlotFresh(n.a) && SlotFresh(n.b)
    requires NoneReady(n.a) || !IsReply(n.ba[0].word)
    ensures SlotFresh(StepLeft(n, Receive).a) && SlotFresh(StepLeft(n, Receive).b)
  {
    PromptReceive(n.a, n.ba[0]);
    hide NoneReady, SlotFresh, Demuxed;
  }

  lemma PromptOther(n: Net, act: Act)
    requires EnabledLeft(n, act) && SlotFresh(n.a) && SlotFresh(n.b) && !act.Send? && !act.Receive?
    ensures SlotFresh(StepLeft(n, act).a) && SlotFresh(StepLeft(n, act).b)
  {
  }

  lemma {:induction false} PromptRun(n: Net, events: seq<Event>)
    requires Inv(n) && IsRun(n, events) && Prompt(n, events) && SlotFresh(n.a) && SlotFresh(n.b)
    ensures SlotFresh(After(n, events).a) && SlotFresh(After(n, events).b)
    decreases |events|
  {
    if events != [] {
      var e := events[0];
      StepKeeps(n, e);
      PromptStep(if e.left then n else Flip(n), e.act);
      hide Inv, StepLeft, SlotFresh, NoneReady;
      PromptRun(Step(n, e), events[1..]);
    }
  }

  /** In such a run every `send` returns the reply made to its own request, padded by the slot. */
  lemma PromptSendsGetOwnReplies(events: seq<Event>, t: nat)
    requires IsRun(InitialNet, events) && Prompt(InitialNet, events)
    requires EnabledLeft(After(InitialNet, events), Wake(t))
    ensures var n := After(InitialNet, events); var tag := n.a.senders[t].tag;
      n.a.slotTag == tag && tag in n.b.answered && n.a.slot == Copied(n.b.answered[tag])
  {
    InitialInv();
    PromptRun(InitialNet, events);
    assert Reachable(After(InitialNet, events));
    WakeTakesOwnReplyIff(After(InitialNet, events), t);
  }

  /** A run in which each end never has more than one sender outstanding. */
  predicate OneSender(n: Net, events: seq<Event>)
    requires IsRun(n, events)
    decreases |events|
  {
    |n.a.senders| <= 1 && |n.b.senders| <= 1 && (events == [] || OneSender(Step(n, events[0]), events[1..]))
  }

  lemma OnlyOne(s: set<nat>, u: nat, t: nat)
    requires |s| <= 1 && u in s && t in s
    ensures t == u
  {
    var rest := s - {u};
    assert s == rest + {u};
  }

  /** With one sender, a reply on its way means that the sender is not ready. */
  lemma OneSenderNotReady(n: Net)
    requires Inv(n) && |n.a.senders| <= 1 && n.ba != [] && IsReply(n.ba[0].word)
    ensures NoneReady(n.a)
  {
    var a, w := n.a, n.ba[0];
    var id := Unflagged(w.word);
    assert Usable(id) && Flagged(id) == w.word by {
      assert w in n.ba && WordOk(w);
    }
    assert ReadyWith(a, id) == {} && id in a.holder by {
      CountPositive(n.ba, w.word);
      hide TagsOk, SlotOk, SendersOk;
      TokenHasHolder(a, n.b, n.ab, n.ba, id);
    }
    var u := a.holder[id];
    assert u in a.senders && a.senders[u].id == id by {
      hide TagsOk, SlotOk, Conserved;
    }
    hide Inv;
    forall t | t in a.senders ensures !Ready(a, t) {
      assert |a.senders.Keys| == |a.senders|;
      OnlyOne(a.senders.Keys, u, t);
      assert t in ReadyWith(a, id) <==> Ready(a, t);
    }
  }

  lemma FlipInv(n: Net)
    requires Inv(n)
    ensures Inv(Flip(n))
  {
    hide InvHalf;
  }

  lemma {:induction false} OneSenderIsPrompt(n: Net, events: seq<Event>)
    requires Inv(n) && IsRun(n, events) && OneSender(n, events)
    ensures Prompt(n, events)
    decreases |events|
  {
    if events != [] {
      hide Inv, Step, Enabled, InTime;
      StepKeeps(n, events[0]);
      OneSenderInTime(n, events[0]);
      OneSenderIsPrompt(Step(n, events[0]), events[1..]);
    }
  }

  lemma OneSenderInTime(n: Net, e: Event)
    requires Enabled(n, e) && |n.a.senders| <= 1 && |n.b.senders| <= 1 && Inv(n)
    ensures InTime(n, e)
  {
    FlipInv(n);
    hide Inv, NoneReady;
    if e.act.Receive? && IsReply((if e.left then n.ba else n.ab)[0].word) {
      OneSenderNotReady(if e.left then n else Flip(n));
    }
  }

  /** In particular: with one sender at a time, each gets its own reply. */
  lemma OneSenderGetsOwnReply(events: seq<Event>, t: nat)
    requires IsRun(InitialNet, events) && OneSender(InitialNet, events)
    requires EnabledLeft(After(InitialNet, events), Wake(t))
    ensures var n := After(InitialNet, events); var tag := n.a.senders[t].tag;
      n.a.slotTag == tag && tag in n.b.answered && n.a.slot == Copied(n.b.answered[tag])
  {
    InitialInv();
    OneSenderIsPrompt(InitialNet, events);
    PromptSendsGetOwnReplies(events, t);
  }

  lemma RunOne(n: Net, e: Event, rest: seq<Event>)
    requires Enabled(n, e) && WithinIds(if e.left then n.a else n.b, e.act) && IsRun(Step(n, e), rest)
    ensures IsRun(n, [e] + rest) && After(n, [e] + rest) == After(Step(n, e), rest)
  {
    assert ([e] + rest)[1..] == rest;
  }

  lemma RunTwo(n: Net, e: Event, f: Event, n2: Net, rest: seq<Event>)
    requires Enabled(n, e) && WithinIds(if e.left then n.a else n.b, e.act)
    requires Enabled(Step(n, e), f) && WithinIds(if f.left then Step(n, e).a else Step(n, e).b, f.act)
    requires Step(Step(n, e), f) == n2 && IsRun(n2, rest)
    ensures IsRun(n, [e, f] + rest) && After(n, [e, f] + rest) == After(n2, rest)
  {
    RunOne(Step(n, e), f, rest);
    RunOne(n, e, [f] + rest);
    assert [e] + ([f] + rest) == [e, f] + rest;
  }

  ghost function SwapSent(p: bytes, q: bytes): Net {
    Step(Step(InitialNet, Event(true, Send(1, p))), Event(true, Send(2, q)))
  }

  lemma SentThen(p: bytes, q: bytes, rest: seq<Event>)
    requires IsRun(SwapSent(p, q), rest)
    ensures var events := [Event(true, Send(1, p)), Event(true, Send(2, q))] + rest;
      IsRun(InitialNet, events) && After(InitialNet, events) == After(SwapSent(p, q), rest)
    ensures var n := SwapSent(p, q);
      && n.a.senders == map[1 := Sender(1, 1, 0), 2 := Sender(2, 2, 0)] && n.b == FreshEndpoint && n.ba == []
      && n.ab == [Wire(1, 1, Copied(p)), Wire(2, 2, Copied(q))]
  {
    var e, f := Event(true, Send(1, p)), Event(true, Send(2, q));
    hide IsRun, After;
    RunTwo(InitialNet, e, f, SwapSent(p, q), rest);
  }

  /** The peer receives both requests and answers the first, then the second. */
  lemma AnsweredThen(n: Net, p: bytes, q: bytes, rest: seq<Event>) returns (n': Net)
    requires n.b == FreshEndpoint && n.ba == []
    requires |n.ab| == 2 && n.ab[0].word == 1 && n.ab[1].word == 2 && n.ab[0].tag == 1 && n.ab[1].tag == 2
    ensures n'.a == n.a && n'.ba == [Wire(Flagged(1), 1, p), Wire(Flagged(2), 2, q)]
    ensures var r, s1, s2 := Event(false, Receive), Event(false, Reply(0, p)), Event(false, Reply(1, q));
      IsRun(n', rest) ==>
        IsRun(n, [r, r] + ([s1, s2] + rest)) && After(n, [r, r] + ([s1, s2] + rest)) == After(n', rest)
  {
    var r, s1, s2 := Event(false, Receive), Event(false, Reply(0, p)), Event(false, Reply(1, q));
    var m := Step(Step(n, r), r);
    assert m.a == n.a && m.ba == n.ba && m.b.pending == map[0 := Pending(1, 1), 1 := Pending(2, 2)];
    n' := Step(Step(m, s1), s2);
    hide IsRun, After;
    if IsRun(n', rest) {
      RunTwo(m, s1, s2, n', rest);
      RunTwo(n, r, r, m, [s1, s2] + rest);
    }
  }

  lemma BothBack(n: Net) returns (n': Net)
    requires |n.ba| == 2 && n.ba[0].word == Flagged(1) && n.ba[1].word == Flagged(2) && n.ba[1].tag == 2
    requires n.a.senders == map[1 := Sender(1, 1, 0), 2 := Sender(2, 2, 0)]
    ensures var events := [Event(true, Receive), Event(true, Receive)];
      IsRun(n, events) && After(n, events) == n'
    ensures EnabledLeft(n', Wake(1)) && n'.a.slotTag == 2 && n'.a.senders[1].tag == 1
  {
    var e := Event(true, Receive);
    n' := Step(Step(n, e), e);
    RunTwo(n, e, e, n', []);
    assert [e, e] + [] == [e, e];
  }

  /** The wire after both requests, and what follows. */
  function SwapEvents(p: bytes, q: bytes): seq<Event> {
    [Event(true, Send(1, p)), Event(true, Send(2, q))]
    + ([Event(false, Receive), Event(false, Receive)]
      + ([Event(false, Reply(0, p)), Event(false, Reply(1, q))] + [Event(true, Receive), Event(true, Receive)]))
  }

  /** Two senders are enough to go wrong: both replies arrive before the first sender wakes,
      and it returns the reply to the second sender's request. */
  lemma TwoSendersCanSwap(p: bytes, q: bytes) returns (events: seq<Event>, t: nat)
    ensures IsRun(InitialNet, events) && EnabledLeft(After(InitialNet, events), Wake(t))
    ensures After(InitialNet, events).a.slotTag != After(InitialNet, events).a.senders[t].tag
  {
    events, t := SwapEvents(p, q), 1;
    assert IsRun(SwapSent(p, q), []);
    var back := [Event(true, Receive), Event(true, Receive)];
    var middle := [Event(false, Receive), Event(false, Receive)]
      + ([Event(false, Reply(0, p)), Event(false, Reply(1, q))] + back);
    assert events == [Event(true, Send(1, p)), Event(true, Send(2, q))] + middle;
    hide *;
    SentThen(p, q, []);
    var n6 := AnsweredThen(SwapSent(p, q), p, q, back);
    var n8 := BothBack(n6);
    SentThen(p, q, middle);
  }
}
