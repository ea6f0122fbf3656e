/** Which values the two ends of a property come to hold: every value that is set at either end is put at the
    owner once, the owner holds the one put last, and what the proxy is told are values that the owner held. */
module PropertyValues {
  import opened Bytes
  import opened Packages
  import opened PropertySync

  /** The last of these, or what was there before. */
  function Last(before: Value, vs: seq<Value>): Value { if vs == [] then before else vs[|vs| - 1] }

  lemma LastAppended(before: Value, vs: seq<Value>, ws: seq<Value>)
    ensures Last(Last(before, vs), ws) == Last(before, vs + ws)
  {
  }

  // ---------- What is put at the owner ----------

  /** The SETs among the commands. */
  function SetsIn(up: seq<Up>): multiset<Value> {
    if up == [] then multiset{} else (if up[0].SetTo? then multiset{up[0].v} else multiset{}) + SetsIn(up[1..])
  }

  lemma {:induction false} SetsInAppend(up: seq<Up>, m: Up)
    ensures SetsIn(up + [m]) == SetsIn(up) + if m.SetTo? then multiset{m.v} else multiset{}
  {
    if up == [] {
      assert (up + [m])[1..] == [];
    } else {
      assert (up + [m])[1..] == up[1..] + [m];
      SetsInAppend(up[1..], m);
    }
  }

  /** The value of a SET that the step works off. */
  function SetBy(s: State, e: Event): seq<Value>
    requires Enabled(s, e)
  {
    if e.ProcessUp? && s.up[0].SetTo? then [s.up[0].v] else []
  }

  /** What the application sets the owner to. */
  function OwnerSetBy(e: Event): seq<Value> { if e.OwnerSet? then [e.v] else [] }

  /** What the proxy is set to; an empty value is no SET. */
  function ProxySetBy(e: Event): multiset<Value> { if e.ProxySet? && e.v != [] then multiset{e.v} else multiset{} }

  function ProxySets(events: seq<Event>): multiset<Value> {
    if events == [] then multiset{} else ProxySetBy(events[0]) + ProxySets(events[1..])
  }

  function OwnerSets(events: seq<Event>): multiset<Value> {
    if events == [] then multiset{} else multiset(OwnerSetBy(events[0])) + OwnerSets(events[1..])
  }

  /** The values put at the owner, in order: by its application, and by the SETs worked off. */
  function Puts(s: State, events: seq<Event>): seq<Value>
    requires IsRun(s, events)
    decreases |events|
  {
    if events == [] then [] else
      OwnerSetBy(events[0]) + SetBy(s, events[0]) + Puts(Step(s, events[0]), events[1..])
  }

  /** The SETs that are still to be worked off. */
  function SetsComing(s: State): multiset<Value> { s.sending + SetsIn(s.up) }

  lemma SetMoves(s: State, e: Event)
    requires Enabled(s, e)
    ensures SetsComing(Step(s, e)) + multiset(SetBy(s, e)) == SetsComing(s) + ProxySetBy(e)
  {
    if e.ProcessUp? {
      assert s.up != [];
      SetWorkedOff(s, e.extra);
      hide *;
    } else if e.WriteSet? {
      assert e.v in s.sending;
      SetWritten(s, e.v);
      hide SetsComing, Step;
    } else if e.AddFirst? || e.RemoveLast? || e.GetStart? {
      OtherAsked(s, e);
      hide SetsComing, Step;
    } else {
      hide *;
      OtherSets(s, e);
    }
  }

  lemma OtherAsked(s: State, e: Event)
    requires Enabled(s, e) && (e.AddFirst? || e.RemoveLast? || e.GetStart?)
    ensures SetsComing(Step(s, e)) == SetsComing(s)
  {
    SetsInAppend(s.up, Sub);
    SetsInAppend(s.up, Unsub);
    SetsInAppend(s.up, Get);
    hide SetsIn;
  }

  lemma SetWorkedOff(s: State, extra: bool)
    requires s.up != []
    ensures SetsComing(Step(s, ProcessUp(extra))) + multiset(SetBy(s, ProcessUp(extra))) == SetsComing(s)
  {
    var t := Step(s, ProcessUp(extra));
    assert t.up == s.up[1..] && t.sending == s.sending;
    assert SetsIn(s.up) == (if s.up[0].SetTo? then multiset{s.up[0].v} else multiset{}) + SetsIn(s.up[1..]);
    hide SetsIn, Step;
  }

  lemma SetWritten(s: State, v: Value)
    requires v in s.sending
    ensures SetsComing(Step(s, WriteSet(v))) == SetsComing(s)
  {
    SetsInAppend(s.up, SetTo(v));
    hide SetsIn;
  }

  lemma OtherSets(s: State, e: Event)
    requires Enabled(s, e)
    requires !e.ProcessUp? && !e.WriteSet? && !e.AddFirst? && !e.RemoveLast? && !e.GetStart?
    ensures SetsComing(Step(s, e)) == SetsComing(s) + ProxySetBy(e) && SetBy(s, e) == []
  {
    OtherFields(s, e);
    hide SetsIn, Step, Enabled;
  }

  lemma OtherFields(s: State, e: Event)
    requires Enabled(s, e)
    requires !e.ProcessUp? && !e.WriteSet? && !e.AddFirst? && !e.RemoveLast? && !e.GetStart?
    ensures Step(s, e).up == s.up && Step(s, e).sending == s.sending + ProxySetBy(e)
  {
    if e.WriteUpdated? {
      ToldFields(s, e.v);
      hide Told;
    } else {
      hide Told, Coming, Telling;
    }
  }

  lemma OwnerStep(s: State, e: Event)
    requires Enabled(s, e)
    ensures Step(s, e).owner == Last(s.owner, OwnerSetBy(e) + SetBy(s, e))
  {
  }

  lemma BothSets(xs: seq<Value>, ys: seq<Value>, zs: seq<Value>)
    ensures multiset(xs + ys + zs) == multiset(xs) + multiset(ys) + multiset(zs)
  {
  }

  lemma Moved(a: multiset<Value>, b: multiset<Value>, c: multiset<Value>, d: multiset<Value>, o: multiset<Value>,
      os: multiset<Value>, p: multiset<Value>, ps: multiset<Value>, x: multiset<Value>)
    requires b + d == a + p && x + c == b + os + ps
    ensures o + d + x + c == a + (o + os) + (p + ps)
  {
    forall v ensures (o + d + x + c)[v] == (a + (o + os) + (p + ps))[v] {
      assert (b + d)[v] == (a + p)[v] && (x + c)[v] == (b + os + ps)[v];
    }
  }

  /** Over any run: what was put at the owner is what the application set it to and what the proxy was set to,
      each as often as it was set, but for the SETs that are still under way; and the owner holds what was put
      there last. */
  lemma {:induction false} EverySetReachesOwner(s: State, events: seq<Event>)
    requires IsRun(s, events)
    ensures var t := After(s, events);
      && multiset(Puts(s, events)) + SetsComing(t) == SetsComing(s) + OwnerSets(events) + ProxySets(events)
      && t.owner == Last(s.owner, Puts(s, events))
    decreases |events|
  {
    hide Step, Enabled, SetsComing, SetBy, OwnerSetBy, ProxySetBy;
    if events != [] {
      var e, s1, rest := events[0], Step(s, events[0]), events[1..];
      SetMoves(s, e);
      OwnerStep(s, e);
      EverySetReachesOwner(s1, rest);
      BothSets(OwnerSetBy(e), SetBy(s, e), Puts(s1, rest));
      LastAppended(s.owner, OwnerSetBy(e) + SetBy(s, e), Puts(s1, rest));
      Moved(SetsComing(s), SetsComing(s1), SetsComing(After(s1, rest)), multiset(SetBy(s, e)),
        multiset(OwnerSetBy(e)), OwnerSets(rest), ProxySetBy(e), ProxySets(rest), multiset(Puts(s1, rest)));
    }
  }

  /** So once no SET is under way, the owner has been put to every value that was set at either end. */
  lemma QuietHoldsLastPut(s: State, events: seq<Event>)
    requires Initial(s) && IsRun(s, events) && Quiet(After(s, events))
    ensures multiset(Puts(s, events)) == OwnerSets(events) + ProxySets(events)
    ensures After(s, events).owner == Last(s.owner, Puts(s, events))
  {
    EverySetReachesOwner(s, events);
    var t := After(s, events);
    NoSetsComing(s);
    NoSetsComing(t);
    hide *;
    assert multiset(Puts(s, events)) + SetsComing(t) == SetsComing(s) + OwnerSets(events) + ProxySets(events);
    NoneLeft(multiset(Puts(s, events)), SetsComing(t), SetsComing(s), OwnerSets(events), ProxySets(events));
  }

  lemma NoneLeft(x: multiset<Value>, c: multiset<Value>, a: multiset<Value>, os: multiset<Value>, ps: multiset<Value>)
    requires x + c == a + os + ps && c == multiset{} && a == multiset{}
    ensures x == os + ps
  {
    forall v ensures x[v] == (os + ps)[v] {
      assert (x + c)[v] == (a + os + ps)[v];
    }
  }

  lemma NoSetsComing(s: State)
    requires s.up == [] && s.sending == multiset{}
    ensures SetsComing(s) == multiset{}
  {
  }

  // ---------- What the proxy is told ----------

  /** The value of the UPDATED that the step makes. */
  function ToldBy(s: State, e: Event): multiset<Value> {
    if e.Tell? && s.watched then multiset{s.owner} else multiset{}
  }

  /** The value of the UPDATED that the step works off. */
  function UpdatedBy(s: State, e: Event): seq<Value>
    requires Enabled(s, e)
  {
    if e.ProcessUpdated? then [s.down[0]] else []
  }

  /** How often the owner notifies in the step. */
  function NotesBy(s: State, e: Event): nat
    requires Enabled(s, e)
  {
    match e
    case OwnerSet(_, extra) => if extra then 2 else 1
    case ProcessUp(extra) => if s.up[0].SetTo? then (if extra then 2 else 1) else 0
    case _ => 0
  }

  /** What the proxy takes in the step: a value set there, one received, one that it is set to on that. */
  function TakenBy(s: State, e: Event): seq<Value>
    requires Enabled(s, e)
  {
    match e
    case ProxySet(v) => [v]
    case GetDone(meanwhile) => [s.reply.value] + if meanwhile.Some? then [meanwhile.value] else []
    case ProcessUpdated(meanwhile) => [s.down[0]] + if meanwhile.Some? then [meanwhile.value] else []
    case _ => []
  }

  /** UPDATEDs made and not worked off. */
  function UpdatesComing(s: State): multiset<Value> { s.telling + multiset(s.down) }

  lemma UpdateMoves(s: State, e: Event)
    requires Enabled(s, e)
    ensures UpdatesComing(Step(s, e)) + multiset(UpdatedBy(s, e)) == UpdatesComing(s) + ToldBy(s, e)
  {
    match e {
      case ProcessUpdated(meanwhile) => UpdateWorkedOff(s, meanwhile);
      case WriteUpdated(v) => UpdateWritten(s, v);
      case Tell =>
      case _ => OtherUpdates(s, e);
    }
  }

  lemma UpdateWorkedOff(s: State, meanwhile: Option<Value>)
    requires s.down != []
    ensures UpdatesComing(Received(s.(down := s.down[1..]), s.down[0], meanwhile)) + multiset([s.down[0]])
      == UpdatesComing(s)
  {
    assert s.down == [s.down[0]] + s.down[1..];
  }

  lemma UpdateWritten(s: State, v: Value)
    requires v in s.telling
    ensures UpdatesComing(Told(s, v)) == UpdatesComing(s)
  {
    ToldFields(s, v);
    hide Told;
  }

  lemma OtherUpdates(s: State, e: Event)
    requires Enabled(s, e) && !e.ProcessUpdated? && !e.WriteUpdated? && !e.Tell?
    ensures UpdatesComing(Step(s, e)) == UpdatesComing(s)
  {
    TellingStays(s, e);
    hide Step;
  }

  lemma NoteMoves(s: State, e: Event)
    requires Enabled(s, e)
    ensures Step(s, e).notes + (if e.Tell? then 1 else 0) == s.notes + NotesBy(s, e)
  {
  }

  lemma ProxyStep(s: State, e: Event)
    requires Enabled(s, e)
    ensures Step(s, e).proxy == Last(s.proxy, TakenBy(s, e))
  {
  }

  function Tolds(s: State, events: seq<Event>): multiset<Value>
    requires IsRun(s, events)
    decreases |events|
  {
    if events == [] then multiset{} else ToldBy(s, events[0]) + Tolds(Step(s, events[0]), events[1..])
  }

  function Updates(s: State, events: seq<Event>): seq<Value>
    requires IsRun(s, events)
    decreases |events|
  {
    if events == [] then [] else UpdatedBy(s, events[0]) + Updates(Step(s, events[0]), events[1..])
  }

  function Notes(s: State, events: seq<Event>): nat
    requires IsRun(s, events)
    decreases |events|
  {
    if events == [] then 0 else NotesBy(s, events[0]) + Notes(Step(s, events[0]), events[1..])
  }

  function Tells(events: seq<Event>): nat {
    if events == [] then 0 else (if events[0].Tell? then 1 else 0) + Tells(events[1..])
  }

  function Takes(s: State, events: seq<Event>): seq<Value>
    requires IsRun(s, events)
    decreases |events|
  {
    if events == [] then [] else TakenBy(s, events[0]) + Takes(Step(s, events[0]), events[1..])
  }

  lemma Carried(a: multiset<Value>, b: multiset<Value>, c: multiset<Value>, d: multiset<Value>, p: multiset<Value>,
      ps: multiset<Value>, x: multiset<Value>)
    requires b + d == a + p && x + c == b + ps
    ensures d + x + c == a + (p + ps)
  {
    forall v ensures (d + x + c)[v] == (a + (p + ps))[v] {
      assert (b + d)[v] == (a + p)[v] && (x + c)[v] == (b + ps)[v];
    }
  }

  /** Over any run: every UPDATED made has been worked off once or is under way, the connection has been told of
      every notification or is still to be told, and the proxy holds what it took last. */
  lemma {:induction false} EveryUpdateReachesProxy(s: State, events: seq<Event>)
    requires IsRun(s, events)
    ensures var t := After(s, events);
      && multiset(Updates(s, events)) + UpdatesComing(t) == UpdatesComing(s) + Tolds(s, events)
      && t.notes + Tells(events) == s.notes + Notes(s, events)
      && t.proxy == Last(s.proxy, Takes(s, events))
    decreases |events|
  {
    hide Step, Enabled, UpdatesComing, UpdatedBy, ToldBy, NotesBy, TakenBy;
    if events != [] {
      var e, s1, rest := events[0], Step(s, events[0]), events[1..];
      UpdateMoves(s, e);
      NoteMoves(s, e);
      ProxyStep(s, e);
      EveryUpdateReachesProxy(s1, rest);
      LastAppended(s.proxy, TakenBy(s, e), Takes(s1, rest));
      assert multiset(UpdatedBy(s, e) + Updates(s1, rest)) == multiset(UpdatedBy(s, e)) + multiset(Updates(s1, rest));
      Carried(UpdatesComing(s), UpdatesComing(s1), UpdatesComing(After(s1, rest)), multiset(UpdatedBy(s, e)),
        ToldBy(s, e), Tolds(s1, rest), multiset(Updates(s1, rest)));
    }
  }

  /** All that is under way to the proxy are values that the owner held. */
  predicate FromOwner(s: State, held: set<Value>) {
    && s.owner in held && (forall v :: v in s.telling ==> v in held) && (forall v :: v in s.down ==> v in held)
    && (s.reply.Some? ==> s.reply.value in held)
  }

  lemma FromOwnerStep(s: State, e: Event, held: set<Value>)
    requires FromOwner(s, held) && Enabled(s, e)
    ensures FromOwner(Step(s, e), held + {Step(s, e).owner})
  {
    ReplyStep(s, e);
    match e {
      case WriteUpdated(v) => ToldFields(s, v); hide Told;
      case Tell =>
      case ProcessUpdated(_) => FewerDown(s, e); hide Step;
      case _ => TellingStays(s, e); hide Step;
    }
  }

  lemma ReplyStep(s: State, e: Event)
    requires Enabled(s, e)
    ensures var r := Step(s, e).reply; r == s.reply || r == Some(s.owner) || r == None
  {
  }

  lemma FewerDown(s: State, e: Event)
    requires Enabled(s, e) && e.ProcessUpdated?
    ensures Step(s, e).telling == s.telling && Step(s, e).down == s.down[1..]
  {
  }

  lemma TellingStays(s: State, e: Event)
    requires Enabled(s, e) && !e.ProcessUpdated? && !e.WriteUpdated? && !e.Tell?
    ensures Step(s, e).telling == s.telling && Step(s, e).down == s.down
  {
  }

  /** The values that the owner held in the run. */
  function Held(s: State, events: seq<Event>): set<Value>
    requires IsRun(s, events)
    decreases |events|
  {
    {s.owner} + if events == [] then {} else Held(Step(s, events[0]), events[1..])
  }

  lemma {:induction false} HeldRun(s: State, events: seq<Event>, held: set<Value>)
    requires FromOwner(s, held) && IsRun(s, events)
    ensures FromOwner(After(s, events), held + Held(s, events))
    decreases |events|
  {
    assert s.owner in held;
    if events == [] {
      assert held + Held(s, events) == held;
    } else {
      var s1 := Step(s, events[0]);
      FromOwnerStep(s, events[0], held);
      hide Step, FromOwner, Enabled;
      HeldRun(s1, events[1..], held + {s1.owner});
      assert s1.owner in Held(s1, events[1..]);
      assert held + {s1.owner} + Held(s1, events[1..]) == held + Held(s, events);
    }
  }

  /** In every run of a fresh property, all UPDATEDs and replies are values that the owner held in it. */
  lemma ProxyHearsOnlyOwner(s: State, events: seq<Event>)
    requires Initial(s) && IsRun(s, events)
    ensures var t := After(s, events);
      && (forall v :: v in t.telling || v in t.down ==> v in Held(s, events))
      && (t.reply.Some? ==> t.reply.value in Held(s, events))
  {
    HeldRun(s, events, {s.owner});
    assert s.owner in Held(s, events);
    assert {s.owner} + Held(s, events) == Held(s, events);
    hide IsRun, After, Held;
  }

  // ---------- A value that is set arrives ----------

  /** What goes on by itself: messages are written and worked off, and nobody sets anything meanwhile. */
  predicate Settles(e: Event) {
    Reaction(e) && (e.ProcessUpdated? ==> e.meanwhile.None?) && (e.GetDone? ==> e.meanwhile.None?)
  }

  predicate AllSettle(events: seq<Event>) { forall e :: e in events ==> Settles(e) }

  /** A SET of the value is under way. */
  predicate SetGoes(s: State) { s.sending != multiset{} || s.up != [] }

  /** The owner's new value is under way. */
  predicate UpdateGoes(s: State) { s.notes > 0 || s.telling != multiset{} || s.down != [] }

  /** One value is spreading: all that is under way is it; the owner has it unless a SET is under way, and the
      proxy unless that or the news of it is. */
  predicate Spreading(s: State, v: Value) {
    && s.watched && !s.getting && s.reply.None?
    && (forall w :: w in s.sending ==> w == v) && (forall m :: m in s.up ==> m == SetTo(v))
    && (forall w :: w in s.telling ==> w == v) && (forall w :: w in s.down ==> w == v)
    && (s.owner == v || (SetGoes(s) && !UpdateGoes(s)))
    && (s.proxy == v || SetGoes(s) || UpdateGoes(s))
  }

  lemma SpreadingStep(s: State, e: Event, v: Value)
    requires Spreading(s, v) && Enabled(s, e) && Settles(e)
    ensures Spreading(Step(s, e), v)
  {
    match e {
      case ProcessUp(extra) => SpreadingUp(s, extra, v);
      case WriteSet(w) => SpreadingSet(s, w, v);
      case Tell => SpreadingTell(s, v);
      case WriteUpdated(w) => SpreadingTold(s, w, v);
      case _ => SpreadingUpdated(s, v);
    }
  }

  lemma SpreadingUp(s: State, extra: bool, v: Value)
    requires Spreading(s, v) && s.up != []
    ensures Spreading(Step(s, ProcessUp(extra)), v)
  {
    assert s.up[0] in s.up;
    assert forall m :: m in s.up[1..] ==> m in s.up;
  }

  lemma SpreadingSet(s: State, w: Value, v: Value)
    requires Spreading(s, v) && w in s.sending
    ensures Spreading(Step(s, WriteSet(w)), v)
  {
  }

  lemma SpreadingTell(s: State, v: Value)
    requires Spreading(s, v) && s.notes > 0
    ensures Spreading(Step(s, Tell), v)
  {
    assert s.owner in Step(s, Tell).telling;
  }

  lemma SpreadingTold(s: State, w: Value, v: Value)
    requires Spreading(s, v) && w in s.telling
    ensures Spreading(Step(s, WriteUpdated(w)), v)
  {
  }

  lemma SpreadingUpdated(s: State, v: Value)
    requires Spreading(s, v) && s.down != []
    ensures Spreading(Step(s, ProcessUpdated(None)), v)
  {
    assert s.down[0] in s.down;
    assert forall w :: w in s.down[1..] ==> w in s.down;
  }

  lemma {:induction false} SpreadingRun(s: State, events: seq<Event>, v: Value)
    requires Spreading(s, v) && IsRun(s, events) && AllSettle(events)
    ensures Spreading(After(s, events), v)
    decreases |events|
  {
    if events != [] {
      assert events[0] in events && forall e :: e in events[1..] ==> e in events;
      SpreadingStep(s, events[0], v);
      hide Spreading, Step, Enabled, Settles;
      SpreadingRun(Step(s, events[0]), events[1..], v);
    }
  }

  lemma SpreadAtLast(s: State, v: Value)
    requires Spreading(s, v) && Quiet(s)
    ensures s.owner == v && s.proxy == v
  {
  }

  /** A value that the proxy is set to in quiet is, when all is quiet again, the value of both ends: however far
      they were apart before, and in whatever order messages are written and worked off. */
  lemma SetArrives(s: State, v: Value, events: seq<Event>)
    requires s.watched && Quiet(s) && v != [] && Reachable(s)
    requires IsRun(Step(s, ProxySet(v)), events) && AllSettle(events)
    requires Quiet(After(Step(s, ProxySet(v)), events))
    ensures var t := After(Step(s, ProxySet(v)), events); t.owner == v && t.proxy == v
  {
    ReachableInv(s);
    assert Spreading(Step(s, ProxySet(v)), v) by { hide AgreeIff; }
    hide *;
    SpreadingRun(Step(s, ProxySet(v)), events, v);
    SpreadAtLast(After(Step(s, ProxySet(v)), events), v);
  }

  /** The same for a value that the owner is set to. */
  lemma ChangeArrives(s: State, v: Value, extra: bool, events: seq<Event>)
    requires s.watched && Quiet(s) && Reachable(s)
    requires IsRun(Step(s, OwnerSet(v, extra)), events) && AllSettle(events)
    requires Quiet(After(Step(s, OwnerSet(v, extra)), events))
    ensures var t := After(Step(s, OwnerSet(v, extra)), events); t.owner == v && t.proxy == v
  {
    ReachableInv(s);
    assert Spreading(Step(s, OwnerSet(v, extra)), v) by { hide AgreeIff; }
    hide *;
    SpreadingRun(Step(s, OwnerSet(v, extra)), events, v);
    SpreadAtLast(After(Step(s, OwnerSet(v, extra)), events), v);
  }

  /** A question is under way, or its answer, or the proxy has it. */
  predicate Asking(s: State, x: Value) {
    && s.owner == x && s.sending == multiset{} && !Telling(s) && s.down == []
    && (if s.getting then (s.up == [Get] && s.reply.None?) || (s.up == [] && s.reply == Some(x))
        else s.up == [] && s.reply.None? && s.proxy == x)
  }

  lemma AskingStep(s: State, e: Event, x: Value)
    requires Asking(s, x) && Enabled(s, e) && Settles(e)
    ensures Asking(Step(s, e), x)
  {
  }

  lemma {:induction false} AskingRun(s: State, events: seq<Event>, x: Value)
    requires Asking(s, x) && IsRun(s, events) && AllSettle(events)
    ensures Asking(After(s, events), x)
    decreases |events|
  {
    if events != [] {
      assert events[0] in events && forall e :: e in events[1..] ==> e in events;
      AskingStep(s, events[0], x);
      hide Asking, Step, Enabled, Settles;
      AskingRun(Step(s, events[0]), events[1..], x);
    }
  }

  /** A proxy that is read in quiet has the owner's value then, subscribed or not; the owner keeps it. */
  lemma ReadArrives(s: State, events: seq<Event>)
    requires Quiet(s) && Reachable(s)
    requires IsRun(Step(s, GetStart), events) && AllSettle(events) && Quiet(After(Step(s, GetStart), events))
    ensures var t := After(Step(s, GetStart), events); t.owner == s.owner && t.proxy == s.owner
  {
    ReachableInv(s);
    assert Asking(Step(s, GetStart), s.owner) by { hide AgreeIff; }
    hide IsRun, After, Reachable, AllSettle;
    AskingRun(Step(s, GetStart), events, s.owner);
  }

  // ---------- It does get quiet ----------

  /** While it is not quiet something can go on by itself. */
  lemma SomeSettles(s: State) returns (e: Event)
    requires Reachable(s) && !Quiet(s)
    ensures Enabled(s, e) && Settles(e)
  {
    RepliesAnswerGets(s);
    hide Reachable;
    if s.up != [] {
      e := ProcessUp(false);
    } else if s.sending != multiset{} {
      var v :| v in s.sending;
      e := WriteSet(v);
    } else if s.notes > 0 {
      e := Tell;
    } else if s.telling != multiset{} {
      var v :| v in s.telling;
      e := WriteUpdated(v);
    } else if s.getting {
      e := GetDone(None);
    } else {
      e := ProcessUpdated(None);
    }
  }

  lemma ReachableStep(s: State, e: Event)
    requires Reachable(s) && Enabled(s, e)
    ensures Reachable(Step(s, e))
  {
    hide Step, Enabled, Initial;
    var s0, before :| Initial(s0) && IsRun(s0, before) && After(s0, before) == s;
    RunFurther(s0, before, e);
    hide IsRun, After;
    assert Initial(s0) && IsRun(s0, before + [e]);
  }

  /** From any state, what is under way can be worked off without anybody's help. */
  lemma {:induction false} CanSettle(s: State) returns (events: seq<Event>)
    requires Reachable(s)
    ensures IsRun(s, events) && AllSettle(events) && Quiet(After(s, events))
    decreases Work(s)
  {
    events := [];
    if !Quiet(s) {
      var e := SomeSettles(s);
      assert Reaction(e);
      ReactionWorks(s, e);
      ReachableStep(s, e);
      hide Reachable, Step, Enabled, Work, Quiet, Settles;
      var more := CanSettle(Step(s, e));
      events := [e] + more;
      assert events[1..] == more;
    }
  }
}
