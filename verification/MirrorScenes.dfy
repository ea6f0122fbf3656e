/** Runs that are met: two ends that wait for each other, and a `get` that is overtaken. */
module MirrorScenes {
  import opened Bytes
  import opened Packages
  import opened Mirror
  import opened MirrorProof
  import opened MirrorRuns
  import opened MirrorWaits
  import opened MirrorRaces

  const One: Name := [1]
  const Two: Name := [2]

  // ---------- Playing a run ----------

  lemma Play(s: State, e: Event, t: State)
    requires Reachable(s) && Enabled(s, e) && SoundStep(s, e) && Step(s, e) == t
    ensures Reachable(t)
  {
    ReachableStep(s, e);
  }

  lemma PlayAttach(s: State, p: Node, name: Name)
    requires Reachable(s) && EnabledLeft(s, AppAttach(p, name))
    ensures var (a, ms, next) := AttachedNew(s.a, p, name, s.next);
      var t := State(a, s.b, s.ab + ms, s.ba, next); StepLeft(s, AppAttach(p, name)) == t && Reachable(t)
  {
    ReachableInv(s);
    OwnBelow(s.a, s.b);
    AttachNodeNew(s.a, s.b, p, name, s.next);
    hide Inv, AttachNode, AttachedNew, Reachable;
    Play(s, Event(true, AppAttach(p, name)), StepLeft(s, AppAttach(p, name)));
  }

  lemma FlipReachable(s: State)
    requires Reachable(s)
    ensures Inv(Flip(s))
  {
    ReachableInv(s);
    FlipInv(s);
    hide Inv, Reachable;
  }

  lemma PlayPeerAttach(s: State, p: Node, name: Name)
    requires Reachable(s) && Enabled(s, Event(false, AppAttach(p, name)))
    ensures var (b, ms, next) := AttachedNew(s.b, p, name, s.next);
      var t := State(s.a, b, s.ab, s.ba + ms, next); Step(s, Event(false, AppAttach(p, name))) == t && Reachable(t)
  {
    FlipReachable(s);
    OwnBelow(s.b, s.a);
    AttachNodeNew(s.b, s.a, p, name, s.next);
    hide Inv, AttachNode, AttachedNew, Reachable;
    Play(s, Event(false, AppAttach(p, name)), Step(s, Event(false, AppAttach(p, name))));
  }

  lemma PlayChildAdded(s: State)
    requires Reachable(s) && EnabledLeft(s, Receive) && s.ba[0].ChildAdded?
    requires s.ba[0].parent in s.a.tracked && s.ba[0].child !in s.a.tracked
    ensures var m := s.ba[0];
      var t := State(WithProxy(s.a, m.child, m.parent, m.name), s.b, s.ab + [Subscribe(m.child)], s.ba[1..], s.next);
      StepLeft(s, Receive) == t && Reachable(t)
  {
    ChildAddedStep(s);
    hide WithProxy, StepLeft, Reachable;
    Play(s, Event(true, Receive), StepLeft(s, Receive));
  }

  lemma PlayPeerChildAdded(s: State)
    requires Reachable(s) && Enabled(s, Event(false, Receive)) && s.ab[0].ChildAdded?
    requires s.ab[0].parent in s.b.tracked && s.ab[0].child !in s.b.tracked
    ensures var m := s.ab[0];
      var t := State(s.a, WithProxy(s.b, m.child, m.parent, m.name), s.ab[1..], s.ba + [Subscribe(m.child)], s.next);
      Step(s, Event(false, Receive)) == t && Reachable(t)
  {
    ChildAddedStep(Flip(s));
    hide WithProxy, StepLeft, Reachable;
    Play(s, Event(false, Receive), Step(s, Event(false, Receive)));
  }

  lemma PlayPeerSubscribe(s: State)
    requires Reachable(s) && Enabled(s, Event(false, Receive)) && s.ab[0].Subscribe?
    ensures var t := State(s.a, OnSubscribe(s.b, s.ab[0].nid), s.ab[1..], s.ba, s.next);
      Step(s, Event(false, Receive)) == t && Reachable(t)
  {
    hide Reachable;
    Play(s, Event(false, Receive), Step(s, Event(false, Receive)));
  }

  // ---------- A node of the server, known to the client ----------

  const Client0 := Side(0, 1, map[], map[0 := 0], map[], map[0 := 0], NoCalls)
  const Server0 := Side(0, 1, map[], map[0 := 0], map[], map[], NoCalls)

  const Client1 :=
    Side(0, 2, map[(0, One) := 1], map[0 := 0, 1 := 1], map[1 := Proxy(1, 0, One)], map[0 := 0], NoCalls)
  const Server1 := Side(0, 2, map[(0, One) := 1], map[0 := 0, 1 := 1], map[], map[0 := 0, 1 := 1], NoCalls)

  /** The client's tree and the server's each had a root only; the server attached a node. */
  const Known1 := State(Client1, Server1, [], [], 2)

  const ServerAttached := Side(0, 2, map[(0, One) := 1], map[0 := 0, 1 := 1], map[], map[0 := 0], NoCalls)
  const Attached := State(Client0, ServerAttached, [], [ChildAdded(0, 1, One)], 2)

  const Begun := State(Client0, Server0, [Subscribe(0)], [], 1)
  const ServerListening := Side(0, 1, map[], map[0 := 0], map[], map[0 := 0], NoCalls)

  lemma BegunIsInitial()
    ensures Initial(Begun)
  {
    assert FreshSide(Client0);
    assert FreshSide(Server0);
  }

  lemma BegunReceives()
    ensures var e := Event(false, Receive);
      Enabled(Begun, e) && SoundStep(Begun, e) && Step(Begun, e) == State(Client0, ServerListening, [], [], 1)
  {
    assert OnSubscribe(Server0, 0) == ServerListening && Begun.ab[1..] == [];
  }

  lemma ReachListening()
    ensures Reachable(State(Client0, ServerListening, [], [], 1))
  {
    hide *;
    BegunIsInitial();
    InitialReachable(Begun);
    BegunReceives();
    Play(Begun, Event(false, Receive), State(Client0, ServerListening, [], [], 1));
  }

  lemma ReachAttached()
    ensures Reachable(Attached)
  {
    hide Reachable;
    ReachListening();
    PlayPeerAttach(State(Client0, ServerListening, [], [], 1), 0, One);
    assert AttachedNew(ServerListening, 0, One, 1) == (ServerAttached, [ChildAdded(0, 1, One)], 2);
    assert [] + [ChildAdded(0, 1, One)] == [ChildAdded(0, 1, One)];
  }

  lemma ReachKnown1()
    ensures Reachable(Known1)
  {
    hide Reachable;
    ReachAttached();
    PlayChildAdded(Attached);
    var s3 := State(Client1, ServerAttached, [Subscribe(1)], [], 2);
    assert WithProxy(Client0, 1, 0, One) == Client1 && [] + [Subscribe(1)] == [Subscribe(1)] && Attached.ba[1..] == [];
    PlayPeerSubscribe(s3);
    assert OnSubscribe(ServerAttached, 1) == Server1 && s3.ab[1..] == [];
  }

  // ---------- Waiting for each other ----------

  const Client2 :=
    Side(0, 3, map[(0, One) := 1, (0, Two) := 2], map[0 := 0, 1 := 1, 2 := 2], map[1 := Proxy(1, 0, One)],
      map[0 := 0], NoCalls)
  const Server2 :=
    Side(0, 3, map[(0, One) := 1, (0, Two) := 2], map[0 := 0, 1 := 1, 2 := 2], map[2 := Proxy(2, 0, Two)],
         map[0 := 0, 1 := 1], NoCalls)

  /** Each has a proxy of a node of the other. */
  const Known2 := State(Client2, Server2, [], [Subscribe(2)], 3)

  const Told2 := State(Client2, Server1, [ChildAdded(0, 2, Two)], [], 3)

  lemma ClientAttaches()
    ensures Reachable(Told2)
  {
    ReachKnown1();
    hide Reachable;
    PlayAttach(Known1, 0, Two);
    assert AttachedNew(Client1, 0, Two, 2) == (Client2, [ChildAdded(0, 2, Two)], 3);
    assert [] + [ChildAdded(0, 2, Two)] == [ChildAdded(0, 2, Two)];
  }

  lemma ReachKnown2()
    ensures Reachable(Known2)
  {
    ClientAttaches();
    hide Reachable;
    PlayPeerChildAdded(Told2);
    assert WithProxy(Server1, 2, 0, Two) == Server2 && Told2.ab[1..] == [] && [] + [Subscribe(2)] == [Subscribe(2)];
  }

  lemma PlayLook(s: State, c: Caller, p: Node, name: Name)
    requires Reachable(s) && s.a.calls == NoCalls && p in s.a.own && (p, name) !in s.a.edges
    ensures Reachable(Asked(s, c, p, name))
  {
    hide Reachable;
    LooksAndAsks(s, c, p, name);
    hide Step, Enabled, SoundStep;
    Play(s, Event(true, Look(c, p, name)), Looked(s, c, p, name));
    Play(Looked(s, c, p, name), Event(true, FetchStart(c)), Asked(s, c, p, name));
  }

  lemma PlayPeerLook(s: State, c: Caller, p: Node, name: Name)
    requires Reachable(s) && s.b.calls == NoCalls && p in s.b.own && (p, name) !in s.b.edges
    ensures Reachable(Flip(Asked(Flip(s), c, p, name)))
  {
    hide Reachable;
    var f := Flip(s);
    LooksAndAsks(f, c, p, name);
    hide StepLeft, EnabledLeft, Sound, Looked, Asked;
    Play(s, Event(false, Look(c, p, name)), Flip(Looked(f, c, p, name)));
    Play(Flip(Looked(f, c, p, name)), Event(false, FetchStart(c)), Flip(Asked(f, c, p, name)));
  }

  /** Both ends fetch: both wait, and by MirrorWaits no run can answer either. */
  lemma BothFetch() returns (s: State)
    ensures Reachable(s) && Waiting(s.a) && Waiting(s.b) && s.a.calls.fetching.Some? && s.b.calls.fetching.Some?
  {
    ReachKnown2();
    PlayLook(Known2, 0, 1, Two);
    var s1 := Asked(Known2, 0, 1, Two);
    hide Reachable;
    PlayPeerLook(s1, 0, 2, One);
    s := Flip(Asked(Flip(s1), 0, 2, One));
  }

  lemma PlayPeerValue(s: State, k: Nid)
    requires Reachable(s) && s.b.calls == NoCalls && k in s.b.tracked && s.b.tracked[k] in s.b.own
    ensures Reachable(s.(b := s.b.(calls := NoCalls.(valuing := Some(k))), ba := s.ba + [GetValue(k)]))
  {
    hide Reachable;
    Play(s, Event(false, ValueStart(k)), s.(b := s.b.(calls := NoCalls.(valuing := Some(k))),
      ba := s.ba + [GetValue(k)]));
  }

  /** One end fetches and the other asks for a value: both wait just the same. */
  lemma FetchAndGet() returns (s: State)
    ensures Reachable(s) && Waiting(s.a) && Waiting(s.b) && s.a.calls.fetching.Some? && s.b.calls.fetching.None?
  {
    ReachKnown2();
    PlayLook(Known2, 0, 1, Two);
    var s1 := Asked(Known2, 0, 1, Two);
    hide Reachable;
    PlayPeerValue(s1, 2);
    s := s1.(b := s1.b.(calls := NoCalls.(valuing := Some(2))), ba := s1.ba + [GetValue(2)]);
  }

  /** So the answer of a caller that waits may never come. */
  lemma AnswerMayNeverCome() returns (s: State)
    ensures EverReachable(s) && Waiting(s.a) && s.b.calls.fetching.None?
    ensures forall events :: IsRun(s, events) ==> !Answered(After(s, events).a)
  {
    s := FetchAndGet();
    ReachableEver(s);
    hide Reachable, EverReachable, IsRun, After, Answered, Waiting;
    AnswerCanComeIff(s);
  }

  lemma ReachableEver(s: State)
    requires Reachable(s)
    ensures EverReachable(s)
  {
    hide Initial, IsRun, SoundRun, After;
  }

  // ---------- A `get` that is overtaken ----------

  const Server3 :=
    Side(0, 3, map[(0, One) := 1, (1, Two) := 2], map[0 := 0, 1 := 1, 2 := 2], map[], map[0 := 0, 1 := 1], NoCalls)

  /** The server attached a child to the node that the client has a proxy of; the message is on its way. */
  const Told := State(Client1, Server3, [], [ChildAdded(1, 2, Two)], 3)

  lemma ReachTold()
    ensures Reachable(Told)
  {
    ReachKnown1();
    hide Reachable;
    PlayPeerAttach(Known1, 1, Two);
    assert AttachedNew(Server1, 1, Two, 2) == (Server3, [ChildAdded(1, 2, Two)], 3);
    assert [] + [ChildAdded(1, 2, Two)] == [ChildAdded(1, 2, Two)];
  }

  const Client3 :=
    Side(0, 3, map[(0, One) := 1, (1, Two) := 2], map[0 := 0, 1 := 1, 2 := 2],
         map[1 := Proxy(1, 0, One), 2 := Proxy(2, 1, Two)], map[0 := 0], NoCalls)

  /** What the server answers: the child has the nid 2. */
  lemma ServerAnswers(b: Side)
    requires b.tracked == Server3.tracked && b.edges == Server3.edges
    ensures OnAt(b, 1, Two, 3) == (b, Some(2), 3)
  {
    FindNidTracked(b.tracked, 2);
    hide FindNid;
  }

  lemma PlayAnswer(s: State)
    requires Reachable(s) && !Locked(s.b) && s.ab == [At(1, Two)] && s.next == 3
    requires s.b.tracked == Server3.tracked && s.b.edges == Server3.edges
    ensures Reachable(s.(a := s.a.(calls := s.a.calls.(reply := Some(Some(2)))), ab := []))
  {
    ServerAnswers(s.b);
    hide OnAt, Reachable;
    assert s.ab[1..] == [];
    Play(s, Event(false, Receive), s.(a := s.a.(calls := s.a.calls.(reply := Some(Some(2)))), ab := []));
  }

  const AskingClient3 := Client3.(calls := NoCalls.(fetching := Some((1, Two))))

  lemma ToldWhileLooking()
    ensures Reachable(State(AskingClient3, Server3, [Subscribe(2), At(1, Two)], [], 3))
  {
    ReachTold();
    hide Reachable;
    var looked := NoCalls.(looked := map[0 := (1, Two)]);
    var s1 := Told.(a := Client1.(calls := looked));
    assert map[][0 := (1, Two)] == map[0 := (1, Two)];
    Play(Told, Event(true, Look(0, 1, Two)), s1);
    PlayChildAdded(s1);
    var s2 := State(Client3.(calls := looked), Server3, [Subscribe(2)], [], 3);
    assert WithProxy(s1.a, 2, 1, Two) == s2.a && [] + [Subscribe(2)] == [Subscribe(2)] && s1.ba[1..] == [];
    AsksToo(s2);
  }

  lemma AsksToo(s2: State)
    requires Reachable(s2)
    requires s2 == State(Client3.(calls := NoCalls.(looked := map[0 := (1, Two)])), Server3, [Subscribe(2)], [], 3)
    ensures Reachable(State(AskingClient3, Server3, [Subscribe(2), At(1, Two)], [], 3))
  {
    hide Reachable;
    assert map[0 := (1, Two)] - {0} == map[];
    assert [Subscribe(2)] + [At(1, Two)] == [Subscribe(2), At(1, Two)];
    Play(s2, Event(true, FetchStart(0)), State(AskingClient3, Server3, [Subscribe(2), At(1, Two)], [], 3));
  }

  /** The message is handled after `get` looked and before it took the lock: what it then fetches is
      tracked already, for the proxy that the message made. */
  lemma OvertakenFetch() returns (s: State)
    ensures Reachable(s) && EnabledLeft(s, FetchDone(0)) && s.a.calls.reply == Some(Some(2))
    ensures 2 in s.a.tracked && s.a.tracked[2] in s.a.own
  {
    ToldWhileLooking();
    hide Reachable;
    var s3 := State(AskingClient3, Server3, [Subscribe(2), At(1, Two)], [], 3);
    PlayPeerSubscribe(s3);
    var s4 := State(AskingClient3, OnSubscribe(Server3, 2), [At(1, Two)], [], 3);
    assert s3.ab[1..] == [At(1, Two)];
    PlayAnswer(s4);
    s := s4.(a := AskingClient3.(calls := AskingClient3.calls.(reply := Some(Some(2)))), ab := []);
  }

  const Fetched1 := Client3.(edges := Client1.edges, calls := NoCalls.(loose := map[0 := Loose(1, Two, 2)]))

  lemma ReachFetched()
    ensures Reachable(State(Fetched1, Server3, [], Told.ba, 3))
  {
    hide Reachable;
    ReachTold();
    PlayLook(Told, 0, 1, Two);
    var s1 := Asked(Told, 0, 1, Two);
    assert [] + [At(1, Two)] == [At(1, Two)];
    PlayAnswer(s1);
    var answered := Client1.(calls := NoCalls.(fetching := Some((1, Two)), reply := Some(Some(2))));
    var s2 := State(answered, Server3, [], Told.ba, 3);
    assert s1.(a := s1.a.(calls := s1.a.calls.(reply := Some(Some(2)))), ab := []) == s2;
    FetchesLoose(answered);
    hide OnFetched;
    Play(s2, Event(true, FetchDone(0)), State(Fetched1, Server3, [], Told.ba, 3));
  }

  lemma FetchesLoose(answered: Side)
    requires answered == Client1.(calls := NoCalls.(fetching := Some((1, Two)), reply := Some(Some(2))))
    ensures OnFetched(answered) == Fetched1
  {
    assert map[][0 := Loose(1, Two, 2)] == map[0 := Loose(1, Two, 2)];
  }

  /** The message is handled after the lock was given back and before `get` inserts: the insertion is
      refused, because the fetched proxy itself hangs there. */
  lemma OvertakenInsert() returns (s: State)
    ensures Reachable(s) && s.a.calls.loose == map[0 := Loose(1, Two, 2)]
    ensures (1, Two) in s.a.edges && s.a.edges[(1, Two)] == 2 && 2 in s.a.own
  {
    hide Reachable;
    ReachFetched();
    var s3 := State(Fetched1, Server3, [], [ChildAdded(1, 2, Two)], 3);
    ChildAddedStep(s3);
    s := State(WithEdge(Fetched1, 1, Two, 2), Server3, [], [], 3);
    assert s3.ba[1..] == [];
    hide StepLeft;
    Play(s3, Event(true, Receive), s);
  }

  // ---------- Two callers that get the same child ----------

  const Place := (1, Two)

  /** The second caller waits for the lock while the first fetches. */
  const SecondWaits := NoCalls.(looked := map[2 := Place])

  function Gets(a: Side, calls: Calls): State { State(a.(calls := calls), Server3, [], Told.ba, 3) }

  const ClientFetched := Client3.(edges := Client1.edges)

  lemma BothLook()
    ensures Reachable(Gets(Client1, NoCalls.(looked := map[1 := Place, 2 := Place])))
  {
    hide Reachable;
    ReachTold();
    var s1 := Gets(Client1, NoCalls.(looked := map[1 := Place]));
    assert map[][1 := Place] == map[1 := Place];
    Play(Told, Event(true, Look(1, 1, Two)), s1);
    assert map[1 := Place][2 := Place] == map[1 := Place, 2 := Place];
    Play(s1, Event(true, Look(2, 1, Two)), Gets(Client1, NoCalls.(looked := map[1 := Place, 2 := Place])));
  }

  lemma FirstAsks()
    ensures Reachable(Gets(Client1, SecondWaits.(fetching := Some(Place), holder := 1, reply := Some(Some(2)))))
  {
    hide Reachable;
    BothLook();
    var s1 := Gets(Client1, NoCalls.(looked := map[1 := Place, 2 := Place]));
    var s2 := Gets(Client1, SecondWaits.(fetching := Some(Place), holder := 1)).(ab := [At(1, Two)]);
    assert map[1 := Place, 2 := Place] - {1} == map[2 := Place];
    assert [] + [At(1, Two)] == [At(1, Two)];
    Play(s1, Event(true, FetchStart(1)), s2);
    PlayAnswer(s2);
  }

  lemma FirstFetches()
    ensures Reachable(Gets(ClientFetched, SecondWaits.(loose := map[1 := Loose(1, Two, 2)])))
  {
    hide Reachable;
    FirstAsks();
    var s1 := Gets(Client1, SecondWaits.(fetching := Some(Place), holder := 1, reply := Some(Some(2))));
    assert map[][1 := Loose(1, Two, 2)] == map[1 := Loose(1, Two, 2)];
    Play(s1, Event(true, FetchDone(1)), Gets(ClientFetched, SecondWaits.(loose := map[1 := Loose(1, Two, 2)])));
  }

  lemma FirstInserts()
    ensures Reachable(Gets(Client3, SecondWaits))
  {
    hide Reachable;
    FirstFetches();
    assert map[1 := Loose(1, Two, 2)] - {1} == map[];
    assert Client1.edges[Place := 2] == Client3.edges;
    Play(Gets(ClientFetched, SecondWaits.(loose := map[1 := Loose(1, Two, 2)])), Event(true, Insert(1)),
         Gets(Client3, SecondWaits));
  }

  const SecondAnswered := Gets(Client3, NoCalls.(fetching := Some(Place), holder := 2, reply := Some(Some(2))))

  /** Both look, and one fetches and inserts the child: what the other then fetches is tracked already,
      though no CHILD_ADDED was handled and nothing was attached. */
  lemma TwoGets()
    ensures Reachable(SecondAnswered) && EnabledLeft(SecondAnswered, FetchDone(2))
    ensures 2 in SecondAnswered.a.tracked && SecondAnswered.a.tracked[2] == 2 && 2 in SecondAnswered.a.own
  {
    hide Reachable;
    FirstInserts();
    var s1 := Gets(Client3, NoCalls.(fetching := Some(Place), holder := 2)).(ab := [At(1, Two)]);
    assert map[2 := Place] - {2} == map[];
    assert [] + [At(1, Two)] == [At(1, Two)];
    Play(Gets(Client3, SecondWaits), Event(true, FetchStart(2)), s1);
    PlayAnswer(s1);
  }

  /** It tracks a second proxy over the first, and its insertion is refused. */
  lemma SecondIsRefused() returns (s: State)
    ensures EverReachable(s) && s.a.calls.loose == map[2 := Loose(1, Two, 3)]
    ensures Place in s.a.edges && s.a.edges[Place] == 2 && 2 in s.a.tracked && s.a.tracked[2] == 3
    ensures 2 in s.a.own && 3 in s.a.own && s.a.own[2] == s.a.own[3]
  {
    s := SecondOverwrites();
  }

  lemma SecondOverwrites() returns (s: State)
    ensures EverReachable(s) && s.a == SecondOver
  {
    TwoGets();
    ReachableEver(SecondAnswered);
    hide Reachable, EverReachable;
    SecondTracks();
    s := SecondAnswered.(a := SecondOver);
    EverStep(SecondAnswered, Event(true, FetchDone(2)));
  }

  const SecondOver := Side(0, 4, Client3.edges, map[0 := 0, 1 := 1, 2 := 3],
    map[1 := Proxy(1, 0, One), 2 := Proxy(2, 1, Two), 3 := Proxy(2, 1, Two)], map[0 := 0],
    NoCalls.(loose := map[2 := Loose(1, Two, 3)]))

  lemma SecondTracks()
    ensures var e := Event(true, FetchDone(2));
      Enabled(SecondAnswered, e) && Step(SecondAnswered, e) == SecondAnswered.(a := SecondOver)
  {
    assert map[][2 := Loose(1, Two, 3)] == map[2 := Loose(1, Two, 3)];
    assert OnFetched(SecondAnswered.a) == SecondOver;
  }

  lemma EverStep(s: State, e: Event)
    requires EverReachable(s) && Enabled(s, e)
    ensures EverReachable(Step(s, e))
  {
    hide Step, Enabled, Initial;
    var s0, before :| Initial(s0) && IsRun(s0, before) && After(s0, before) == s;
    OneEvent(s, e);
    RunsJoin(s0, before, [e]);
    hide IsRun, After;
    assert Initial(s0) && IsRun(s0, before + [e]);
  }
}
