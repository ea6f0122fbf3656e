/** What an announcement is for: once it is received, the other end has something at that place, and a proxy of
    the node announced. */
module MirrorHears {
  import opened Bytes
  import opened Packages
  import opened Mirror
  import opened MirrorProof
  import opened MirrorRuns

  /** The place is filled, and the nid stands for a proxy. */
  predicate Arrived(x: Side, m: Msg)
    requires Structural(m)
  {
    && m.parent in x.tracked && (x.tracked[m.parent], m.name) in x.edges
    && m.child in x.tracked && x.tracked[m.child] in x.own && x.own[x.tracked[m.child]].nid == m.child
  }

  lemma ArrivedStays(x: Side, x': Side, m: Msg)
    requires Structural(m) && Arrived(x, m) && Grows(x, x')
    ensures Arrived(x', m)
  {
  }

  lemma MadeArrives(x: Side, k: Nid, parent: Nid, name: Name, m: Msg)
    requires Structural(m) && m.child == k && m.parent == parent && m.name == name && parent in x.tracked && parent != k
    ensures Arrived(WithProxy(x, k, parent, name), m)
  {
  }

  /** The receiver has the parent, and of the child nothing or a proxy. */
  predicate Fitting(x: Side, m: Msg)
    requires Structural(m)
  {
    && m.parent in x.tracked
    && (m.child in x.tracked ==>
          m.ChildAdded? && x.tracked[m.child] in x.own && x.own[x.tracked[m.child]].nid == m.child)
  }

  lemma HeadFits(s: State)
    requires EnabledLeft(s, Receive) && Structural(s.ba[0]) && Inv(s)
    ensures Fitting(s.a, s.ba[0])
  {
    var x, m := s.a, s.ba[0];
    DropHead(x, s.b, s.ba, s.next);
    hide ProxiesOk, EdgesOk, Placed, Paired, ListeningOk, MsgsOk, FetchOk, TrackedOk;
    if m.ChildAdded? && m.child in x.tracked {
      TrackedPlace(x, s.b, m, s.next);
    }
    hide Half, Known;
  }

  lemma ReceivedArrives(s: State)
    requires EnabledLeft(s, Receive) && Structural(s.ba[0]) && Inv(s)
    ensures Arrived(StepLeft(s, Receive).a, s.ba[0])
  {
    hide Inv, StepLeft, Arrived, Fitting;
    HeadFits(s);
    FitsArrives(s);
  }

  lemma FitsArrives(s: State)
    requires EnabledLeft(s, Receive) && Structural(s.ba[0]) && Fitting(s.a, s.ba[0])
    ensures Arrived(StepLeft(s, Receive).a, s.ba[0])
  {
    var known := s.ba[0].child in s.a.tracked;
    hide *;
    if known {
      AgainArrives(s);
    } else {
      NewArrives(s);
    }
  }

  lemma NewArrives(s: State)
    requires EnabledLeft(s, Receive) && Structural(s.ba[0])
    requires s.ba[0].parent in s.a.tracked && s.ba[0].child !in s.a.tracked
    ensures Arrived(StepLeft(s, Receive).a, s.ba[0])
  {
    var x, m := s.a, s.ba[0];
    MadeArrives(x, m.child, m.parent, m.name, m);
    hide StepLeft, WithProxy, Arrived;
    if m.Attach? {
      AttachStep(s);
    } else {
      ChildAddedStep(s);
    }
  }

  lemma AgainArrives(s: State)
    requires EnabledLeft(s, Receive) && s.ba[0].ChildAdded? && s.ba[0].parent in s.a.tracked
    requires var x, m := s.a, s.ba[0];
      m.child in x.tracked && x.tracked[m.child] in x.own && x.own[x.tracked[m.child]].nid == m.child
    ensures Arrived(StepLeft(s, Receive).a, s.ba[0])
  {
    KnownArrives(s.a, s.ba[0]);
    hide StepLeft, WithEdge, WithProxy, Arrived;
    ChildAddedStep(s);
  }

  /** The proxy is there already, and hung if nothing else is. */
  lemma KnownArrives(x: Side, m: Msg)
    requires Structural(m) && m.parent in x.tracked && m.child in x.tracked && x.tracked[m.child] in x.own
    requires x.own[x.tracked[m.child]].nid == m.child
    ensures Taken(x, m.parent, m.name) ==> Arrived(x, m)
    ensures Arrived(WithEdge(x, x.tracked[m.parent], m.name, x.tracked[m.child]), m)
  {
  }

  /** How often the left end receives. */
  function Receipts(events: seq<Event>): nat {
    if events == [] then 0
    else (if events[0].left && events[0].act.Receive? then 1 else 0) + Receipts(events[1..])
  }

  /** A queue is worked off from the front and added to at its end. */
  lemma QueueGoes(s: State, e: Event)
    requires Enabled(s, e)
    ensures if e.left && e.act.Receive? then s.ba != [] && Step(s, e).ba == s.ba[1..]
      else |s.ba| <= |Step(s, e).ba| && Step(s, e).ba[..|s.ba|] == s.ba
  {
    if e.left {
      LeftKeepsQueue(s, e.act);
      hide StepLeft;
    } else {
      SentIsAppended(Flip(s), e.act);
      hide StepLeft, SentByLeft;
    }
  }

  lemma LeftKeepsQueue(s: State, act: Act)
    requires EnabledLeft(s, act)
    ensures StepLeft(s, act).ba == if act.Receive? then s.ba[1..] else s.ba
  {
    hide AttachNode, OnChildAdded, OnAttach, OnAt, OnSubscribe, OnFetched, OnInsert;
  }

  /** Whatever else goes on at both ends: an announcement under way, once the end that it is for has received as
      many messages as there were up to it, has arrived. */
  lemma {:induction false} AnnouncementArrives(s: State, events: seq<Event>, i: nat)
    requires i < |s.ba| && Structural(s.ba[i]) && IsRun(s, events) && SoundRun(s, events) && Receipts(events) > i
    requires Inv(s)
    ensures Arrived(After(s, events).a, s.ba[i])
    decreases |events|
  {
    var e, s1 := events[0], Step(s, events[0]);
    hide Inv, Step, Enabled, SoundStep, Arrived, Grows;
    QueueGoes(s, e);
    StepKeeps(s, e);
    if e.left && e.act.Receive? {
      if i == 0 {
        FirstArrives(s, events);
      } else {
        AnnouncementArrives(s1, events[1..], i - 1);
      }
    } else {
      assert s1.ba[i] == s1.ba[..|s.ba|][i];
      AnnouncementArrives(s1, events[1..], i);
    }
  }

  lemma FirstArrives(s: State, events: seq<Event>)
    requires events != [] && events[0] == Event(true, Receive) && s.ba != [] && Structural(s.ba[0])
    requires IsRun(s, events) && SoundRun(s, events) && Inv(s)
    ensures Arrived(After(s, events).a, s.ba[0])
  {
    var s1, more := Step(s, events[0]), events[1..];
    FirstOf(s, events);
    hide *;
    ReceivedStep(s);
    StepKeeps(s, events[0]);
    RunGrows(s1, more);
    ArrivedStays(s1.a, After(s1, more).a, s.ba[0]);
  }

  lemma ReceivedStep(s: State)
    requires Enabled(s, Event(true, Receive)) && Structural(s.ba[0]) && Inv(s)
    ensures Arrived(Step(s, Event(true, Receive)).a, s.ba[0])
  {
    hide StepLeft, Arrived, Inv;
    ReceivedArrives(s);
  }

  // ---------- Subscriptions ----------

  /** The end tells its peer what is attached under the node of the nid. */
  predicate ListensTo(x: Side, k: Nid) { k in x.tracked && x.tracked[k] in x.listening }

  /** An announcement that makes a proxy is answered with a subscription to the proxy's children. */
  lemma LearningSubscribes(s: State)
    requires EnabledLeft(s, Receive) && Structural(s.ba[0]) && s.ba[0].child !in s.a.tracked && Inv(s)
    ensures StepLeft(s, Receive).ab == s.ab + [Subscribe(s.ba[0].child)]
  {
    HeadFits(s);
    hide Inv, StepLeft, WithProxy;
    if s.ba[0].Attach? {
      AttachStep(s);
    } else {
      ChildAddedStep(s);
    }
  }

  /** Nothing that is listened to is forgotten. */
  predicate KeepsListening(x: Side, x': Side) { forall n :: n in x.listening ==> n in x'.listening }

  /** And a subscription received is entered. */
  lemma ListensStep(s: State, e: Event)
    requires Enabled(s, e) && Inv(s)
    ensures KeepsListening(s.a, Step(s, e).a)
    ensures s.ba != [] && s.ba[0].Subscribe? && e == Event(true, Receive) ==> ListensTo(Step(s, e).a, s.ba[0].nid)
  {
    StepIs(s, e);
    hide *;
    if e.left && e.act.Receive? {
      HeadSubscribes(s);
      ReceiveListens(s);
    } else if e.left {
      ActListens(s, e.act);
    } else {
      PeerListens(Flip(s), e.act);
    }
  }

  lemma StepIs(s: State, e: Event)
    requires Enabled(s, e)
    ensures e.left ==> EnabledLeft(s, e.act) && Step(s, e) == StepLeft(s, e.act) && (e.act.Receive? ==> s.ba != [])
    ensures !e.left ==>
      EnabledLeft(Flip(s), e.act) && Step(s, e).a == StepLeft(Flip(s), e.act).b && Flip(s).b == s.a
    ensures e.left && e.act.Receive? ==> e == Event(true, Receive)
  {
    hide StepLeft;
  }

  lemma HeadSubscribes(s: State)
    requires s.ba != [] && Inv(s)
    ensures s.ba[0].Subscribe? ==> s.ba[0].nid in s.a.tracked
  {
    assert s.ba[0] in s.ba && MsgOk(s.a, s.b, s.ba[0]);
  }

  lemma ActListens(s: State, act: Act)
    requires EnabledLeft(s, act) && !act.Receive?
    ensures KeepsListening(s.a, StepLeft(s, act).a)
  {
    if act.AppAttach? {
      HungListens(NewNode(s.a), act.p, act.name, s.a.nodes, s.next);
    }
    hide AttachNode;
  }

  lemma PeerListens(s: State, act: Act)
    requires EnabledLeft(s, act)
    ensures KeepsListening(s.b, StepLeft(s, act).b)
  {
    hide AttachNode, OnChildAdded, OnAttach, OnAt, OnSubscribe, OnFetched, OnInsert;
  }

  lemma ReceiveListens(s: State)
    requires EnabledLeft(s, Receive)
    ensures KeepsListening(s.a, StepLeft(s, Receive).a)
    ensures s.ba[0].Subscribe? && s.ba[0].nid in s.a.tracked ==>
      ListensTo(StepLeft(s, Receive).a, s.ba[0].nid)
  {
    match s.ba[0] {
      case ChildAdded(parent, k, name) => AddedListens(s.a, parent, k, name, s.next); hide OnChildAdded;
      case Attach(parent, k, name) => AttachListens(s.a, parent, k, name, s.next); hide OnAttach;
      case Subscribe(k) =>
      case At(k, name) => AtListens(s.a, k, name, s.next); hide OnAt;
      case GetValue(_) =>
    }
  }

  lemma HungListens(x: Side, p: Node, name: Name, n: Node, next: Nid)
    ensures AttachNode(x, p, name, n, next).0.listening == x.listening
  {
    hide FindNid;
  }

  lemma AddedListens(x: Side, parent: Nid, k: Nid, name: Name, next: Nid)
    ensures OnChildAdded(x, parent, k, name, next).0.listening == x.listening
  {
    if parent in x.tracked {
      if k in x.tracked {
        HungListens(x, x.tracked[parent], name, x.tracked[k], next);
      } else {
        HungListens(NewProxy(x, k, parent, name), x.tracked[parent], name, x.nodes, next);
      }
    }
    hide AttachNode;
  }

  lemma AttachListens(x: Side, parent: Nid, k: Nid, name: Name, next: Nid)
    ensures OnAttach(x, parent, k, name, next).0.listening == x.listening
  {
    if parent in x.tracked {
      HungListens(NewProxy(x, k, parent, name), x.tracked[parent], name, x.nodes, next);
    }
    hide AttachNode;
  }

  lemma AtListens(x: Side, k: Nid, name: Name, next: Nid)
    ensures OnAt(x, k, name, next).0.listening == x.listening
  {
    hide FindNid;
  }

  lemma ListensStays(x: Side, x': Side, k: Nid)
    requires ListensTo(x, k) && Grows(x, x') && KeepsListening(x, x')
    ensures ListensTo(x', k)
  {
  }

  lemma KeepsFurther(x: Side, y: Side, z: Side)
    requires KeepsListening(x, y) && KeepsListening(y, z)
    ensures KeepsListening(x, z)
  {
  }

  lemma {:induction false} ListensRun(s: State, events: seq<Event>)
    requires IsRun(s, events) && SoundRun(s, events) && Inv(s)
    ensures KeepsListening(s.a, After(s, events).a)
    decreases |events|
  {
    if events != [] {
      var s1 := Step(s, events[0]);
      hide Inv, Step, Enabled, SoundStep, KeepsListening;
      ListensStep(s, events[0]);
      StepKeeps(s, events[0]);
      ListensRun(s1, events[1..]);
      KeepsFurther(s.a, s1.a, After(s1, events[1..]).a);
    }
  }

  lemma FirstSubscribes(s: State, events: seq<Event>)
    requires events != [] && events[0] == Event(true, Receive) && s.ba != [] && s.ba[0].Subscribe?
    requires IsRun(s, events) && SoundRun(s, events) && Inv(s)
    ensures ListensTo(After(s, events).a, s.ba[0].nid)
  {
    var s1, more := Step(s, events[0]), events[1..];
    FirstOf(s, events);
    hide *;
    ListensStep(s, events[0]);
    StepKeeps(s, events[0]);
    RunGrows(s1, more);
    ListensRun(s1, more);
    ListensStays(s1.a, After(s1, more).a, s.ba[0].nid);
  }

  lemma FirstOf(s: State, events: seq<Event>)
    requires events != [] && IsRun(s, events) && SoundRun(s, events)
    ensures Enabled(s, events[0]) && SoundStep(s, events[0])
    ensures IsRun(Step(s, events[0]), events[1..]) && SoundRun(Step(s, events[0]), events[1..])
    ensures After(s, events) == After(Step(s, events[0]), events[1..])
  {
    hide Step, Enabled, SoundStep;
  }

  /** A subscription under way, once the end that it is for has received as many messages as there were up to it,
      is in force, and stays so. */
  lemma {:induction false} SubscriptionArrives(s: State, events: seq<Event>, i: nat)
    requires i < |s.ba| && s.ba[i].Subscribe? && IsRun(s, events) && SoundRun(s, events) && Receipts(events) > i
    requires Inv(s)
    ensures ListensTo(After(s, events).a, s.ba[i].nid)
    decreases |events|
  {
    var e, s1 := events[0], Step(s, events[0]);
    hide Inv, Step, Enabled, SoundStep, ListensTo, Grows, KeepsListening;
    QueueGoes(s, e);
    StepKeeps(s, e);
    if e.left && e.act.Receive? {
      if i == 0 {
        FirstSubscribes(s, events);
      } else {
        SubscriptionArrives(s1, events[1..], i - 1);
      }
    } else {
      assert s1.ba[i] == s1.ba[..|s.ba|][i];
      SubscriptionArrives(s1, events[1..], i);
    }
  }
}
