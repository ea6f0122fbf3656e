/** What one dispatcher sends the other comes to receive: all of it, in order, each as what it was sent as. */
module RequestReplyOrder {
  import opened Bytes
  import opened Packages
  import opened MessageIds
  import opened RequestReply
  import opened RequestReplyProof
  import opened RequestReplyRuns

  /** A request, which its sender waits on; a package that nobody waits on; a reply. */
  datatype Item = Asked(pkg: bytes) | Told(pkg: bytes) | Answered(pkg: bytes)

  /** What a frame is to the end that receives it. */
  function Reads(w: Wire): Item {
    if Unflagged(w.word) == 0 then Told(w.pkg) else if IsReply(w.word) then Answered(w.pkg) else Asked(w.pkg)
  }

  function ReadAll(q: seq<Wire>): seq<Item> { seq(|q|, i requires 0 <= i < |q| => Reads(q[i])) }

  /** What the left end sends in the step; a request goes out as a copy, and a reply that is refused not at all. */
  function SentBy(n: Net, e: Event): seq<Item> {
    if !e.left then [] else
      match e.act
      case Send(_, pkg) => [Asked(Copied(pkg))]
      case Write(pkg) => [Told(pkg)]
      case Reply(h, pkg) => if h in n.a.pending then [Answered(pkg)] else []
      case _ => []
  }

  /** What the right end receives in the step. */
  function ReceivedBy(n: Net, e: Event): seq<Item>
    requires Enabled(n, e)
  {
    if !e.left && e.act.Receive? then [Reads(n.ab[0])] else []
  }

  function Sent(n: Net, events: seq<Event>): seq<Item>
    requires IsRun(n, events)
    decreases |events|
  {
    if events == [] then [] else SentBy(n, events[0]) + Sent(Step(n, events[0]), events[1..])
  }

  function Received(n: Net, events: seq<Event>): seq<Item>
    requires IsRun(n, events)
    decreases |events|
  {
    if events == [] then [] else ReceivedBy(n, events[0]) + Received(Step(n, events[0]), events[1..])
  }

  lemma ReadMore(q: seq<Wire>, w: Wire)
    ensures ReadAll(q + [w]) == ReadAll(q) + [Reads(w)]
  {
    hide Reads;
  }

  lemma SentIsRead(n: Net, act: Act)
    requires EnabledLeft(n, act) && WithinIds(n.a, act) && Inv(n)
    ensures ReadAll(StepLeft(n, act).ab) == ReadAll(n.ab) + SentBy(n, Event(true, act))
  {
    match act {
      case Send(t, pkg) => SendIsRead(n, t, pkg); hide *;
      case Reply(h, pkg) => ReplyIsRead(n, h, pkg); hide *;
      case _ => OtherIsRead(n, act); hide *;
    }
  }

  lemma OtherIsRead(n: Net, act: Act)
    requires EnabledLeft(n, act) && !act.Send? && !act.Reply?
    ensures ReadAll(StepLeft(n, act).ab) == ReadAll(n.ab) + SentBy(n, Event(true, act))
  {
    hide Demuxed, Waking, ReadAll;
    if act.Write? {
      ReadMore(n.ab, Wire(0, 0, act.pkg));
    }
  }

  lemma SendIsRead(n: Net, t: nat, pkg: bytes)
    requires EnabledLeft(n, Send(t, pkg)) && WithinIds(n.a, Send(t, pkg)) && Inv(n)
    ensures ReadAll(StepLeft(n, Send(t, pkg)).ab) == ReadAll(n.ab) + SentBy(n, Event(true, Send(t, pkg)))
  {
    NewId(n.a);
    ReadMore(n.ab, Wire(Generate(n.a.ids).0, n.a.nextTag, Copied(pkg)));
    hide Inv, ReadAll, Sending, Generate;
  }

  lemma ReplyIsRead(n: Net, h: nat, pkg: bytes)
    requires EnabledLeft(n, Reply(h, pkg)) && Inv(n)
    ensures ReadAll(StepLeft(n, Reply(h, pkg)).ab) == ReadAll(n.ab) + SentBy(n, Event(true, Reply(h, pkg)))
  {
    hide *;
    if h in n.a.pending {
      PendingUsable(n, h);
    }
    UsableIsRead(n, h, pkg);
  }

  lemma UsableIsRead(n: Net, h: nat, pkg: bytes)
    requires EnabledLeft(n, Reply(h, pkg)) && (h in n.a.pending ==> Usable(n.a.pending[h].id))
    ensures ReadAll(StepLeft(n, Reply(h, pkg)).ab) == ReadAll(n.ab) + SentBy(n, Event(true, Reply(h, pkg)))
  {
    if h in n.a.pending {
      var w := Wire(Flagged(n.a.pending[h].id), n.a.pending[h].tag, pkg);
      assert Reads(w) == Answered(pkg);
      hide ReadAll, Answering, Reads, Flagged;
      ReadMore(n.ab, w);
    } else {
      hide ReadAll;
      assert ReadAll(n.ab) + [] == ReadAll(n.ab);
    }
  }

  lemma PendingUsable(n: Net, h: nat)
    requires Inv(n) && h in n.a.pending
    ensures Usable(n.a.pending[h].id)
  {
    hide Conserved, SendersOk, SlotOk, RequestTagsOk, PendingTagsOk, ReplyTagsOk;
  }

  lemma PeerReads(n: Net, act: Act)
    requires Enabled(n, Event(false, act))
    ensures ReceivedBy(n, Event(false, act)) + ReadAll(Step(n, Event(false, act)).ab) == ReadAll(n.ab)
  {
    hide Sending, Answering, Demuxed, Waking, Reads;
    if act.Receive? {
      assert n.ab == [n.ab[0]] + n.ab[1..];
    }
  }

  lemma OneMore(n: Net, e: Event)
    requires Enabled(n, e) && WithinIds(if e.left then n.a else n.b, e.act) && Inv(n)
    ensures ReceivedBy(n, e) + ReadAll(Step(n, e).ab) == ReadAll(n.ab) + SentBy(n, e)
  {
    hide Inv, StepLeft, ReadAll, Reads;
    if e.left {
      SentIsRead(n, e.act);
    } else {
      PeerReads(n, e.act);
    }
  }

  /** Over any run: what was under way and what has been sent is what has been received and what is under way. */
  lemma {:induction false} AllInOrder(n: Net, events: seq<Event>)
    requires IsRun(n, events) && Inv(n)
    ensures ReadAll(n.ab) + Sent(n, events) == Received(n, events) + ReadAll(After(n, events).ab)
    decreases |events|
  {
    if events == [] {
      assert ReadAll(n.ab) + [] == [] + ReadAll(n.ab);
    } else {
      var e, m, more := events[0], Step(n, events[0]), events[1..];
      Unfolded(n, events);
      hide *;
      StepKeeps(n, e);
      OneMore(n, e);
      AllInOrder(m, more);
      Spliced(ReadAll(n.ab), SentBy(n, e), ReceivedBy(n, e), ReadAll(m.ab), Sent(m, more), Received(m, more),
        ReadAll(After(m, more).ab));
    }
  }

  lemma Unfolded(n: Net, events: seq<Event>)
    requires events != [] && IsRun(n, events)
    ensures var e, m, more := events[0], Step(n, events[0]), events[1..];
      && Enabled(n, e) && WithinIds(if e.left then n.a else n.b, e.act) && IsRun(m, more)
      && After(n, events) == After(m, more)
      && Sent(n, events) == SentBy(n, e) + Sent(m, more) && Received(n, events) == ReceivedBy(n, e) + Received(m, more)
  {
    hide Step, Enabled, SentBy, ReceivedBy, WithinIds;
  }

  lemma Spliced(a: seq<Item>, s: seq<Item>, r: seq<Item>, b: seq<Item>, ss: seq<Item>, rs: seq<Item>, c: seq<Item>)
    requires r + b == a + s && b + ss == rs + c
    ensures a + (s + ss) == r + rs + c
  {
    assert a + (s + ss) == a + s + ss;
    assert r + b + ss == r + (b + ss);
    assert r + (rs + c) == r + rs + c;
  }

  /** In every run of two fresh dispatchers, what one has received is a prefix of what the other has sent, and all of
      it once nothing is under way: requests as requests, one-way packages as one-way packages, replies as
      replies. */
  lemma SentIsReceived(events: seq<Event>)
    requires IsRun(InitialNet, events)
    ensures var n := After(InitialNet, events);
      && Received(InitialNet, events) <= Sent(InitialNet, events)
      && (n.ab == [] ==> Received(InitialNet, events) == Sent(InitialNet, events))
  {
    InitialInv();
    AllInOrder(InitialNet, events);
    assert ReadAll(InitialNet.ab) == [];
    var n, sent, received := After(InitialNet, events), Sent(InitialNet, events), Received(InitialNet, events);
    hide IsRun, After, Sent, Received;
    assert [] + sent == sent;
    assert n.ab == [] ==> ReadAll(n.ab) == [] && received + [] == received;
  }
}
