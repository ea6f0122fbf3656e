/** One property: its owner at one end, its proxy at the other, either of them set by any number of
    threads. Changes travel as SET towards the owner and as UPDATED towards the proxy, questions as GET; a
    reply overtakes the queued UPDATEDs, but while it is awaited they are not processed.

    Four things can leave the ends apart, and are called breaks here: a subscription says nothing
    about the present value; a proxy that is set to a value with no bytes sends no SET; neither does one
    that is set, by a listener or another thread, while it is receiving a value; and of two threads that
    change the owner, the one that was first to make its UPDATED may be last to write it. */
module PropertySync {
  import opened Bytes
  import opened Packages

  type Value = bytes

  datatype Up = Sub | Unsub | SetTo(v: Value) | Get

  datatype State = State(
    owner: Value,
    proxy: Value,
    sending: multiset<Value>, // stored in the proxy, the SET still to be written
    up: seq<Up>,              // from the proxy's end to the owner's
    notes: nat,               // changes of the owner that the connection has not been told of yet
    telling: multiset<Value>, // UPDATEDs made and still to be written
    down: seq<Value>,         // UPDATED, to the proxy's end
    watched: bool,            // the owner has the connection for a listener
    getting: bool,            // a GET under way; it holds the tracking lock of the proxy's end
    reply: Option<Value>,
    atBreak: (Value, Value),  // at the last break: what was coming to the proxy, and what the owner held
    synced: bool)             // since then the proxy was told of the owner's value, or asked with no UPDATED under way

  datatype Event =
    | OwnerSet(v: Value, extra: bool)  // the owner's value is changed; it notifies once or twice
    | Tell                             // the connection is notified, and makes an UPDATED of the present value
    | WriteUpdated(v: Value)
    | ProxySet(v: Value)
    | WriteSet(v: Value)
    | AddFirst                         // the proxy's first listener
    | RemoveLast
    | GetStart
    | GetDone(meanwhile: Option<Value>)  // the reply is taken in; what the proxy is set to while it is, last
    | ProcessUp(extra: bool)
    | ProcessUpdated(meanwhile: Option<Value>)

  predicate Enabled(s: State, e: Event) {
    match e
    case GetStart => !s.getting
    case GetDone(_) => s.getting && s.reply.Some?
    case Tell => s.notes > 0
    case WriteUpdated(v) => v in s.telling
    case WriteSet(v) => v in s.sending
    case ProcessUp(_) => s.up != []
    case ProcessUpdated(_) => !s.getting && s.down != []
    case _ => true
  }

  /** The owner takes a new value and notifies its listeners. */
  function Changed(s: State, v: Value, extra: bool): State {
    s.(owner := v, notes := s.notes + if extra then 2 else 1)
  }

  /** An UPDATED is written. If it is the last one there is to write, and the owner has changed since it was
      made, that is a break. */
  function Told(s: State, v: Value): State {
    var t := s.(telling := s.telling - multiset{v}, down := s.down + [v]);
    if v == s.owner then t.(synced := true)
    else if Telling(t) then t
    else t.(synced := false, atBreak := (v, s.owner))
  }

  /** A change of the owner has still to become an UPDATED on its way. */
  predicate Telling(s: State) { s.notes > 0 || s.telling != multiset{} }

  /** What the proxy will hold once everything under way to it has arrived. */
  function Coming(s: State): Value {
    if s.down != [] then s.down[|s.down| - 1] else if s.reply.Some? then s.reply.value else s.proxy
  }

  function Handled(s: State, m: Up, extra: bool): State {
    match m
    case Sub => if s.watched then s else s.(watched := true, synced := false, atBreak := (Coming(s), s.owner))
    case Unsub => s.(watched := false, synced := false)
    case SetTo(v) => Changed(s, v, extra)
    case Get => s.(reply := Some(s.owner), synced := s.watched && (s.synced || s.down == []))
  }

  /** Nothing more is on its way to the proxy. */
  predicate NothingComes(s: State) { s.down == [] && s.reply.None? }

  /** The proxy takes a value that is not sent. It is as good as forgotten if another value is on its way,
      and a break if none is. */
  function Unsent(s: State, v: Value): State {
    if NothingComes(s) then s.(proxy := v, synced := false, atBreak := (v, s.owner)) else s.(proxy := v)
  }

  /** The proxy takes a new value; an empty one is not sent. */
  function AssignProxy(s: State, v: Value): State {
    if v != [] then s.(proxy := v, sending := s.sending + multiset{v}) else Unsent(s, v)
  }

  /** The proxy receives a value, and is set to another one while it does. */
  function Received(s: State, v: Value, meanwhile: Option<Value>): State {
    match meanwhile
    case None => s.(proxy := v)
    case Some(w) => Unsent(s, w)
  }

  function Step(s: State, e: Event): State
    requires Enabled(s, e)
  {
    match e
    case OwnerSet(v, extra) => Changed(s, v, extra)
    case Tell => s.(notes := s.notes - 1, telling := if s.watched then s.telling + multiset{s.owner} else s.telling)
    case WriteUpdated(v) => Told(s, v)
    case ProxySet(v) => AssignProxy(s, v)
    case WriteSet(v) => s.(sending := s.sending - multiset{v}, up := s.up + [SetTo(v)])
    case AddFirst => s.(up := s.up + [Sub])
    case RemoveLast => s.(up := s.up + [Unsub])
    case GetStart => s.(getting := true, up := s.up + [Get])
    case GetDone(meanwhile) => Received(s.(getting := false, reply := None), s.reply.value, meanwhile)
    case ProcessUp(extra) => Handled(s.(up := s.up[1..]), s.up[0], extra)
    case ProcessUpdated(meanwhile) => Received(s.(down := s.down[1..]), s.down[0], meanwhile)
  }

  predicate Initial(s: State) {
    && s.up == [] && s.down == [] && s.sending == multiset{} && !Telling(s)
    && !s.watched && !s.getting && s.reply.None? && !s.synced
  }

  predicate IsRun(s: State, events: seq<Event>)
    decreases |events|
  {
    events == [] || (Enabled(s, events[0]) && IsRun(Step(s, events[0]), events[1..]))
  }

  function After(s: State, events: seq<Event>): State
    requires IsRun(s, events)
    decreases |events|
  {
    if events == [] then s else After(Step(s, events[0]), events[1..])
  }

  // ---------- The invariant ----------

  predicate SetQueued(s: State) { exists m :: m in s.up && m.SetTo? }

  /** A SET is on its way to the owner, or a change of it to the proxy that is not an UPDATED yet. */
  predicate UnderWay(s: State) { SetQueued(s) || s.sending != multiset{} || Telling(s) }

  function Gets(up: seq<Up>): nat {
    if up == [] then 0 else (if up[0].Get? then 1 else 0) + Gets(up[1..])
  }

  lemma {:induction false} GetsAppend(up: seq<Up>, m: Up)
    ensures Gets(up + [m]) == Gets(up) + (if m.Get? then 1 else 0)
  {
    if up == [] {
      assert (up + [m])[1..] == [];
    } else {
      assert (up + [m])[1..] == up[1..] + [m];
      GetsAppend(up[1..], m);
    }
  }

  /** Each GET is on its way, or its reply is; never both, never two. */
  predicate OneGet(s: State) { Gets(s.up) + (if s.reply.Some? then 1 else 0) == if s.getting then 1 else 0 }

  /** While the owner is watched and no change is under way: what the proxy will come to hold is
      what the owner holds, exactly if the two have been in touch since the last break, or the
      values at that break were the same. */
  predicate AgreeIff(s: State) {
    s.watched && !UnderWay(s) ==> (Coming(s) == s.owner <==> s.synced || s.atBreak.0 == s.atBreak.1)
  }

  predicate Inv(s: State) { OneGet(s) && AgreeIff(s) }

  lemma SetsStay(up: seq<Up>, m: Up)
    ensures (exists o :: o in up + [m] && o.SetTo?) <==> m.SetTo? || exists o :: o in up && o.SetTo?
  {
    assert m in up + [m];
    assert forall o :: o in up ==> o in up + [m];
  }

  lemma SetLeaves(up: seq<Up>)
    requires up != []
    ensures (exists o :: o in up && o.SetTo?) <==> up[0].SetTo? || exists o :: o in up[1..] && o.SetTo?
  {
    assert up[0] in up;
    assert forall o :: o in up <==> o == up[0] || o in up[1..];
  }

  lemma AskingKeepsOneGet(s: State, e: Event)
    requires OneGet(s) && Enabled(s, e) && (e.WriteSet? || e.AddFirst? || e.RemoveLast? || e.GetStart?)
    ensures OneGet(Step(s, e))
  {
    match e {
      case WriteSet(v) => GetsAppend(s.up, SetTo(v));
      case AddFirst => GetsAppend(s.up, Sub);
      case RemoveLast => GetsAppend(s.up, Unsub);
      case GetStart => GetsAppend(s.up, Get);
    }
    hide Gets;
  }

  lemma HandlingKeepsOneGet(s: State, extra: bool)
    requires OneGet(s) && s.up != []
    ensures OneGet(Step(s, ProcessUp(extra)))
  {
    assert Gets(s.up) == (if s.up[0].Get? then 1 else 0) + Gets(s.up[1..]);
    hide Gets;
  }

  lemma StepKeepsOneGet(s: State, e: Event)
    requires OneGet(s) && Enabled(s, e)
    ensures OneGet(Step(s, e))
  {
    match e {
      case ProcessUp(extra) => HandlingKeepsOneGet(s, extra);
      case WriteSet(_) => AskingKeepsOneGet(s, e);
      case AddFirst => AskingKeepsOneGet(s, e);
      case RemoveLast => AskingKeepsOneGet(s, e);
      case GetStart => AskingKeepsOneGet(s, e);
      case _ => hide Gets;
    }
  }

  lemma ProcessUpKeepsAgreement(s: State, extra: bool)
    requires AgreeIff(s) && s.up != []
    ensures AgreeIff(Step(s, ProcessUp(extra)))
  {
    SetLeaves(s.up);
    var t := Step(s, ProcessUp(extra));
    assert t.up == s.up[1..];
    if s.up[0].SetTo? {
      assert t.notes > 0;
    } else {
      assert SetQueued(t) == SetQueued(s);
    }
    hide SetQueued;
  }

  lemma OwnerKeepsAgreement(s: State, e: Event)
    requires AgreeIff(s) && Enabled(s, e) && (e.OwnerSet? || e.Tell? || e.WriteUpdated?)
    ensures AgreeIff(Step(s, e))
  {
    assert SetQueued(Step(s, e)) == SetQueued(s);
    hide SetQueued;
    match e {
      case OwnerSet(_, _) => assert Step(s, e).notes > 0;
      case Tell => assert s.watched ==> s.owner in Step(s, e).telling;
      case WriteUpdated(v) => ToldAgrees(s, v);
    }
  }

  lemma ToldAgrees(s: State, v: Value)
    requires v in s.telling
    ensures var t := Told(s, v); !Telling(t) ==> (Coming(t) == t.owner <==> t.synced || t.atBreak.0 == t.atBreak.1)
  {
    assert (s.down + [v])[|s.down|] == v;
  }

  lemma AsksKeepsAgreement(s: State, e: Event)
    requires AgreeIff(s) && Enabled(s, e) && (e.AddFirst? || e.RemoveLast? || e.GetStart? || e.WriteSet?)
    ensures AgreeIff(Step(s, e))
  {
    match e {
      case WriteSet(v) => SetsStay(s.up, SetTo(v));
      case AddFirst => SetsStay(s.up, Sub);
      case RemoveLast => SetsStay(s.up, Unsub);
      case GetStart => SetsStay(s.up, Get);
    }
    assert SetQueued(Step(s, e)) <==> SetQueued(s) || e.WriteSet?;
    hide SetQueued;
  }

  lemma ProxySetAgrees(s: State, v: Value)
    requires AgreeIff(s)
    ensures AgreeIff(AssignProxy(s, v))
  {
    var t := AssignProxy(s, v);
    assert SetQueued(t) == SetQueued(s);
    hide SetQueued;
    if v != [] {
      assert v in t.sending;
    } else {
      UnsentAgrees(s, v);
    }
  }

  lemma UnsentAgrees(s: State, v: Value)
    requires AgreeIff(s)
    ensures AgreeIff(Unsent(s, v))
  {
    assert SetQueued(Unsent(s, v)) == SetQueued(s);
    hide SetQueued;
  }

  /** Taking in what is first on its way leaves what was to come in the end. */
  lemma ReceivedAgrees(s: State, t: State, v: Value, meanwhile: Option<Value>)
    requires AgreeIff(s) && Coming(t.(proxy := v)) == Coming(s)
    requires t == s.(down := t.down, getting := t.getting, reply := t.reply)
    ensures AgreeIff(Received(t, v, meanwhile))
  {
    assert SetQueued(Received(t, v, meanwhile)) == SetQueued(s);
    hide SetQueued;
  }

  lemma ProxyKeepsAgreement(s: State, e: Event)
    requires AgreeIff(s) && OneGet(s) && Enabled(s, e) && (e.ProxySet? || e.GetDone? || e.ProcessUpdated?)
    ensures AgreeIff(Step(s, e))
  {
    assert !s.getting ==> s.reply.None?;
    hide AgreeIff, OneGet, Received, AssignProxy;
    match e {
      case ProxySet(v) => ProxySetAgrees(s, v);
      case ProcessUpdated(meanwhile) => ReceivedAgrees(s, s.(down := s.down[1..]), s.down[0], meanwhile);
      case GetDone(meanwhile) => ReceivedAgrees(s, s.(getting := false, reply := None), s.reply.value, meanwhile);
    }
  }

  lemma StepKeepsAgreement(s: State, e: Event)
    requires AgreeIff(s) && OneGet(s) && Enabled(s, e)
    ensures AgreeIff(Step(s, e))
  {
    hide AgreeIff, OneGet, Step, Enabled;
    match e {
      case ProcessUp(extra) => assert s.up != [] by { HasUp(s, extra); } ProcessUpKeepsAgreement(s, extra);
      case OwnerSet(_, _) => OwnerKeepsAgreement(s, e);
      case Tell => OwnerKeepsAgreement(s, e);
      case WriteUpdated(_) => OwnerKeepsAgreement(s, e);
      case ProxySet(_) => ProxyKeepsAgreement(s, e);
      case GetDone(_) => ProxyKeepsAgreement(s, e);
      case ProcessUpdated(_) => ProxyKeepsAgreement(s, e);
      case _ => AsksKeepsAgreement(s, e);
    }
  }

  lemma HasUp(s: State, extra: bool)
    requires Enabled(s, ProcessUp(extra))
    ensures s.up != []
  {
  }

  lemma {:induction false} RunKeeps(s: State, events: seq<Event>)
    requires Inv(s) && IsRun(s, events)
    ensures Inv(After(s, events))
    decreases |events|
  {
    hide OneGet, AgreeIff, Step;
    if events != [] {
      StepKeepsOneGet(s, events[0]);
      StepKeepsAgreement(s, events[0]);
      RunKeeps(Step(s, events[0]), events[1..]);
    }
  }

  // ---------- What holds in every run ----------

  ghost predicate Reachable(s: State) {
    exists s0, events :: Initial(s0) && IsRun(s0, events) && After(s0, events) == s
  }

  lemma ReachableInv(s: State)
    requires Reachable(s)
    ensures Inv(s)
  {
    var s0, events :| Initial(s0) && IsRun(s0, events) && After(s0, events) == s;
    RunKeeps(s0, events);
  }

  /** Whatever sets, gets and updates were interleaved, by whatever threads: in every reachable state of a
      subscribed property a change is under way, or what is on its way to the proxy (else what it holds)
      ends in the owner's value; the last exactly if they were in touch since the last break, or the values
      there were the same. */
  lemma Converges(s: State)
    requires Reachable(s) && s.watched
    ensures UnderWay(s) || (Coming(s) == s.owner <==> s.synced || s.atBreak.0 == s.atBreak.1)
  {
    ReachableInv(s);
    hide OneGet, UnderWay;
  }

  predicate Quiet(s: State) {
    s.up == [] && s.down == [] && !s.getting && s.sending == multiset{} && !Telling(s)
  }

  /** With nothing on its way, the two values themselves agree, exactly in that case. */
  lemma QuietAgreesIff(s: State)
    requires Reachable(s) && s.watched && Quiet(s)
    ensures s.proxy == s.owner <==> s.synced || s.atBreak.0 == s.atBreak.1
  {
    Converges(s);
    ReachableInv(s);
  }

  /** The step is one of the breaks, or the owner is told to forget the subscription. */
  predicate Breaks(s: State, e: Event)
    requires Enabled(s, e)
  {
    match e
    case ProxySet(v) => v == [] && NothingComes(s)
    case ProcessUp(_) => s.up[0].Unsub?
    case ProcessUpdated(meanwhile) => meanwhile.Some? && |s.down| == 1
    case GetDone(meanwhile) => meanwhile.Some? && s.down == []
    case WriteUpdated(v) => v != s.owner && s.notes == 0 && s.telling == multiset{v}
    case _ => false
  }

  /** No break, and no UNSUBSCRIBE processed. */
  predicate Unbroken(s: State, events: seq<Event>)
    requires IsRun(s, events)
    decreases |events|
  {
    events == [] || (!Breaks(s, events[0]) && Unbroken(Step(s, events[0]), events[1..]))
  }

  lemma StepStaysSynced(s: State, e: Event)
    requires s.watched && s.synced && Enabled(s, e) && !Breaks(s, e) && OneGet(s)
    ensures Step(s, e).watched && Step(s, e).synced
  {
  }

  lemma {:induction false} SyncedRun(s: State, events: seq<Event>)
    requires s.watched && s.synced && IsRun(s, events) && Unbroken(s, events) && OneGet(s)
    ensures After(s, events).watched && After(s, events).synced
    decreases |events|
  {
    if events != [] {
      StepStaysSynced(s, events[0]);
      StepKeepsOneGet(s, events[0]);
      hide OneGet, Step, Breaks;
      SyncedRun(Step(s, events[0]), events[1..]);
    }
  }

  /** Once in touch, the ends stay so, and agree whenever all is quiet, until the proxy's last
      listener leaves, or it is set to a value that is not sent, nothing more being on its way, or the last
      UPDATED to be written is outdated. */
  lemma StaysSynced(s: State, events: seq<Event>)
    requires Reachable(s) && s.watched && s.synced && IsRun(s, events) && Unbroken(s, events)
    ensures var t := After(s, events); t.watched && t.synced && (Quiet(t) ==> t.proxy == t.owner)
  {
    ReachableInv(s);
    SyncedRun(s, events);
    RunKeeps(s, events);
    hide Reachable, IsRun, After, Unbroken;
  }

  /** Every reply is the answer to the one GET under way. */
  lemma RepliesAnswerGets(s: State)
    requires Reachable(s)
    ensures s.reply.Some? ==> s.getting && forall m :: m in s.up ==> !m.Get?
    ensures s.getting && s.reply.None? ==> exists m :: m in s.up && m.Get?
  {
    ReachableInv(s);
    hide AgreeIff;
    NoGets(s.up);
  }

  lemma {:induction false} NoGets(up: seq<Up>)
    ensures Gets(up) == 0 <==> forall m :: m in up ==> !m.Get?
  {
    if up != [] {
      NoGets(up[1..]);
      assert forall m :: m in up <==> m == up[0] || m in up[1..];
    }
  }

  // ---------- Updates die out ----------

  /** Telling and processing, as opposed to a new set, get or listener. */
  predicate Reaction(e: Event) {
    e.ProcessUp? || e.ProcessUpdated? || e.GetDone? || e.Tell? || e.WriteUpdated? || e.WriteSet?
  }

  function UpWork(up: seq<Up>): nat {
    if up == [] then 0 else (match up[0] case SetTo(_) => 7 case Get => 2 case _ => 1) + UpWork(up[1..])
  }

  lemma {:induction false} UpWorkAppend(up: seq<Up>, v: Value)
    ensures UpWork(up + [SetTo(v)]) == UpWork(up) + 7
  {
    if up == [] {
      assert [SetTo(v)][1..] == [];
    } else {
      assert (up + [SetTo(v)])[1..] == up[1..] + [SetTo(v)];
      UpWorkAppend(up[1..], v);
    }
  }

  function Work(s: State): nat {
    8 * |s.sending| + UpWork(s.up) + 3 * s.notes + 2 * |s.telling| + |s.down| + if s.reply.Some? then 1 else 0
  }

  lemma ToldFields(s: State, v: Value)
    ensures var t := Told(s, v);
      && t.telling == s.telling - multiset{v} && t.down == s.down + [v]
      && t.sending == s.sending && t.up == s.up && t.notes == s.notes && t.reply == s.reply
  {
  }

  lemma UpdatedWorks(s: State, v: Value)
    requires v in s.telling
    ensures Work(Told(s, v)) < Work(s)
  {
    ToldFields(s, v);
    hide UpWork, Told;
    assert |s.telling - multiset{v}| == |s.telling| - 1;
  }

  lemma SetWorks(s: State, v: Value)
    requires v in s.sending
    ensures Work(Step(s, WriteSet(v))) < Work(s)
  {
    assert |s.sending - multiset{v}| == |s.sending| - 1;
    UpWorkAppend(s.up, v);
    hide UpWork;
  }

  lemma UpWorks(s: State, extra: bool)
    requires s.up != []
    ensures Work(Step(s, ProcessUp(extra))) < Work(s)
  {
    assert UpWork(s.up) == (match s.up[0] case SetTo(_) => 7 case Get => 2 case _ => 1) + UpWork(s.up[1..]);
    hide UpWork;
  }

  lemma TellWorks(s: State)
    requires s.notes > 0
    ensures Work(Step(s, Tell)) < Work(s)
  {
    assert |s.telling + multiset{s.owner}| == |s.telling| + 1;
    hide UpWork;
  }

  lemma ReceivingWorks(s: State, e: Event)
    requires Enabled(s, e) && (e.ProcessUpdated? || e.GetDone?)
    ensures Work(Step(s, e)) < Work(s)
  {
    hide UpWork;
  }

  lemma ReactionWorks(s: State, e: Event)
    requires Enabled(s, e) && Reaction(e)
    ensures Work(Step(s, e)) < Work(s)
  {
    hide Work, Handled, Received, AssignProxy;
    match e {
      case WriteUpdated(v) => UpdatedWorks(s, v);
      case WriteSet(v) => SetWorks(s, v);
      case ProcessUp(extra) => UpWorks(s, extra);
      case Tell => TellWorks(s);
      case _ => ReceivingWorks(s, e);
    }
  }

  /** No message begets messages for ever: an UPDATED causes no SET, a SET at most two UPDATEDs. */
  lemma {:induction false} ReactionsEnd(s: State, events: seq<Event>)
    requires IsRun(s, events) && forall e :: e in events ==> Reaction(e)
    ensures |events| + Work(After(s, events)) <= Work(s)
    decreases |events|
  {
    if events != [] {
      var t := Step(s, events[0]);
      assert Reaction(events[0]);
      ReactionWorks(s, events[0]);
      hide Step, Work, Enabled, Reaction;
      ReactionsEnd(t, events[1..]);
    }
  }

  /** They end in quiet. */
  lemma QuietIff(s: State)
    requires Reachable(s)
    ensures (forall e :: Enabled(s, e) ==> !Reaction(e)) <==> Quiet(s)
  {
    RepliesAnswerGets(s);
    hide Reachable;
    if forall e :: Enabled(s, e) ==> !Reaction(e) {
      assert !Enabled(s, ProcessUp(false)) && !Enabled(s, ProcessUpdated(None)) && !Enabled(s, GetDone(None));
      assert !Enabled(s, Tell);
      forall v ensures v !in s.telling && v !in s.sending {
        assert !Enabled(s, WriteUpdated(v)) && !Enabled(s, WriteSet(v));
      }
    }
  }

  // ---------- The breaks are real ----------

  function Start(owner: Value, proxy: Value): State {
    State(owner, proxy, multiset{}, [], 0, multiset{}, [], false, false, None, ([], []), false)
  }

  /** A run from a fresh property to quiet, watched by its proxy, after which the two values differ. */
  ghost predicate EndsApart(s: State, events: seq<Event>) {
    Initial(s) && IsRun(s, events) && var t := After(s, events); t.watched && Quiet(t) && t.proxy != t.owner
  }

  lemma {:induction false} RunFurther(s: State, events: seq<Event>, e: Event)
    requires IsRun(s, events) && Enabled(After(s, events), e)
    ensures IsRun(s, events + [e]) && After(s, events + [e]) == Step(After(s, events), e)
    decreases |events|
  {
    if events == [] {
      assert [e][1..] == [];
    } else {
      assert (events + [e])[1..] == events[1..] + [e];
      RunFurther(Step(s, events[0]), events[1..], e);
    }
  }

  /** A property that its proxy watches. */
  function Subscribed(x: Value, y: Value): State { Start(x, y).(watched := true, atBreak := (y, x)) }

  lemma WatchedRun(x: Value, y: Value)
    ensures IsRun(Start(x, y), [AddFirst] + [ProcessUp(false)])
    ensures After(Start(x, y), [AddFirst] + [ProcessUp(false)]) == Subscribed(x, y)
  {
    var s := Start(x, y);
    RunFurther(s, [], AddFirst);
    assert [] + [AddFirst] == [AddFirst];
    RunFurther(s, [AddFirst], ProcessUp(false));
  }

  /** A subscription brings changes, not the value there is. */
  lemma SubscribingIsNotAsking(x: Value, y: Value)
    requires x != y
    ensures EndsApart(Start(x, y), [AddFirst] + [ProcessUp(false)])
  {
    WatchedRun(x, y);
    hide IsRun, After;
  }

  /** An empty value set at the proxy never reaches the owner. */
  lemma EmptyIsNotSent(x: Value)
    requires x != []
    ensures EndsApart(Start(x, x), [AddFirst] + [ProcessUp(false)] + [ProxySet([])])
  {
    WatchedRun(x, x);
    hide IsRun, After;
    RunFurther(Start(x, x), [AddFirst] + [ProcessUp(false)], ProxySet([]));
  }

  /** The owner is changed and the proxy's end told, the UPDATED on its way. */
  function Changing(v: Value): seq<Event> {
    [AddFirst] + [ProcessUp(false)] + [OwnerSet(v, false)] + [Tell] + [WriteUpdated(v)]
  }

  lemma ChangingRun(x: Value, v: Value)
    ensures IsRun(Start(x, x), Changing(v))
    ensures After(Start(x, x), Changing(v)) == Subscribed(x, x).(owner := v, down := [v], synced := true)
  {
    var s, r := Start(x, x), [AddFirst] + [ProcessUp(false)];
    WatchedRun(x, x);
    hide IsRun, After;
    RunFurther(s, r, OwnerSet(v, false));
    RunFurther(s, r + [OwnerSet(v, false)], Tell);
    assert multiset{} + multiset{v} == multiset{v} && multiset{v} - multiset{v} == multiset{};
    RunFurther(s, r + [OwnerSet(v, false)] + [Tell], WriteUpdated(v));
  }

  /** A listener that sets the proxy when it is told of a value is not heard: nothing is sent while the
      proxy receives. */
  lemma ListenersSetIsNotSent(x: Value, v: Value, w: Value)
    requires v != w
    ensures EndsApart(Start(x, x), Changing(v) + [ProcessUpdated(Some(w))])
    ensures IsRun(Start(x, x), Changing(v)) && After(Start(x, x), Changing(v)).synced
  {
    ChangingRun(x, v);
    hide IsRun, After, Changing;
    RunFurther(Start(x, x), Changing(v), ProcessUpdated(Some(w)));
  }

  /** The same when the reply to a GET is taken in, and storing a value notifies. */
  lemma ReadersSetIsNotSent(x: Value, w: Value)
    requires x != w
    ensures EndsApart(Start(x, x),
      [AddFirst] + [ProcessUp(false)] + [GetStart] + [ProcessUp(false)] + [GetDone(Some(w))])
  {
    var s, r := Start(x, x), [AddFirst] + [ProcessUp(false)];
    WatchedRun(x, x);
    hide IsRun, After;
    RunFurther(s, r, GetStart);
    RunFurther(s, r + [GetStart], ProcessUp(false));
    RunFurther(s, r + [GetStart] + [ProcessUp(false)], GetDone(Some(w)));
  }

  /** Two threads change the owner, to v and then to w, and write what they have to tell the other way
      round. */
  function OutOfOrder(v: Value, w: Value): seq<Event> {
    [AddFirst] + [ProcessUp(false)] + [OwnerSet(v, false)] + [Tell] + [OwnerSet(w, false)] + [Tell]
    + [WriteUpdated(w)] + [WriteUpdated(v)] + [ProcessUpdated(None)] + [ProcessUpdated(None)]
  }

  /** The proxy is left with the older value. */
  lemma OutdatedIsWrittenLast(x: Value, v: Value, w: Value)
    requires v != w
    ensures EndsApart(Start(x, x), OutOfOrder(v, w))
  {
    var s, r := Start(x, x), [AddFirst] + [ProcessUp(false)];
    WatchedRun(x, x);
    hide IsRun, After;
    RunFurther(s, r, OwnerSet(v, false));
    var r1 := r + [OwnerSet(v, false)];
    RunFurther(s, r1, Tell);
    assert multiset{} + multiset{v} == multiset{v};
    var r2 := r1 + [Tell];
    RunFurther(s, r2, OwnerSet(w, false));
    RunFurther(s, r2 + [OwnerSet(w, false)], Tell);
    var r3 := r2 + [OwnerSet(w, false)] + [Tell];
    var both := multiset{v} + multiset{w};
    assert After(s, r3) == Subscribed(x, x).(owner := w, telling := both);
    WritesBoth(s, r3, x, v, w);
  }

  lemma WritesBoth(s: State, r3: seq<Event>, x: Value, v: Value, w: Value)
    requires v != w && IsRun(s, r3)
    requires After(s, r3) == Subscribed(x, x).(owner := w, telling := multiset{v} + multiset{w})
    ensures var r := r3 + [WriteUpdated(w)] + [WriteUpdated(v)] + [ProcessUpdated(None)] + [ProcessUpdated(None)];
      IsRun(s, r) && var t := After(s, r); t.watched && Quiet(t) && t.proxy == v && t.owner == w
  {
    hide IsRun, After;
    var both := multiset{v} + multiset{w};
    RunFurther(s, r3, WriteUpdated(w));
    assert both - multiset{w} == multiset{v} && multiset{v} - multiset{v} == multiset{};
    RunFurther(s, r3 + [WriteUpdated(w)], WriteUpdated(v));
    var r4 := r3 + [WriteUpdated(w)] + [WriteUpdated(v)];
    assert After(s, r4).down == [w, v];
    RunFurther(s, r4, ProcessUpdated(None));
    RunFurther(s, r4 + [ProcessUpdated(None)], ProcessUpdated(None));
  }

  /** The run of the next lemma: an UPDATED is queued, the last listener leaves, the owner changes
      again, and only then a listener comes back and asks for the value. */
  function Resubscribing(x: Value, y: Value): seq<Event> {
    Asking(x, y) + [GetDone(None)] + [ProcessUpdated(None)]
  }

  function Asking(x: Value, y: Value): seq<Event> {
    Leaving(x, y) + [AddFirst] + [ProcessUp(false)] + [GetStart] + [ProcessUp(false)]
  }

  function Leaving(x: Value, y: Value): seq<Event> {
    Changing(x) + [RemoveLast] + [ProcessUp(false)] + [OwnerSet(y, false)] + [Tell]
  }

  lemma LeavingRun(x: Value, y: Value)
    ensures IsRun(Start(y, y), Leaving(x, y))
    ensures After(Start(y, y), Leaving(x, y)) == Start(y, y).(down := [x], atBreak := (y, y))
  {
    var s, r := Start(y, y), Changing(x);
    ChangingRun(y, x);
    hide IsRun, After, Changing;
    RunFurther(s, r, RemoveLast);
    RunFurther(s, r + [RemoveLast], ProcessUp(false));
    RunFurther(s, r + [RemoveLast] + [ProcessUp(false)], OwnerSet(y, false));
    RunFurther(s, r + [RemoveLast] + [ProcessUp(false)] + [OwnerSet(y, false)], Tell);
  }

  lemma AskingRun(x: Value, y: Value)
    requires x != y
    ensures IsRun(Start(y, y), Asking(x, y))
    ensures After(Start(y, y), Asking(x, y))
      == Subscribed(y, y).(down := [x], getting := true, reply := Some(y), atBreak := (x, y))
  {
    LeavingRun(x, y);
    hide IsRun, After, Leaving;
    var s, r := Start(y, y), Leaving(x, y);
    RunFurther(s, r, AddFirst);
    RunFurther(s, r + [AddFirst], ProcessUp(false));
    RunFurther(s, r + [AddFirst] + [ProcessUp(false)], GetStart);
    RunFurther(s, r + [AddFirst] + [ProcessUp(false)] + [GetStart], ProcessUp(false));
  }

  /** A reply overtakes the UPDATEDs queued before it: one left over from an earlier subscription
      then replaces the newer value. */
  lemma OldUpdateOverwrites(x: Value, y: Value)
    requires x != y
    ensures EndsApart(Start(y, y), Resubscribing(x, y))
  {
    AskingRun(x, y);
    hide IsRun, After, Asking;
    RunFurther(Start(y, y), Asking(x, y), GetDone(None));
    RunFurther(Start(y, y), Asking(x, y) + [GetDone(None)], ProcessUpdated(None));
  }
}
