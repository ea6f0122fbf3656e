/** Which runs are sound, in terms of what happened: those in which nothing came between the lookup of a
    `get` and its fetch, at either end. */
module MirrorSound {
  import opened Bytes
  import opened Packages
  import opened Mirror
  import opened MirrorProof
  import opened MirrorRuns
  import opened MirrorWaits
  import opened MirrorRaces
  import opened MirrorGets

  /** The fetch that ends in this step brings a node. */
  predicate Brings(s: State, e: Event, c: Caller) {
    e == Event(true, FetchDone(c)) && s.a.calls.reply.Some? && s.a.calls.reply.value.Some?
  }

  /** One of the four causes, over the steps since the lookup in `s`. */
  ghost predicate Disturbed(s: State, c: Caller, p: Node, name: Name, since: seq<Event>)
    requires Enabled(s, Event(true, Look(c, p, name))) && IsRun(Step(s, Event(true, Look(c, p, name))), since)
  {
    var s1 := Step(s, Event(true, Look(c, p, name)));
    || LooseAt(s.a, p, name)
    || HappensIn(Fetches, s1, since, p, name)
    || HappensIn(Hears, s1, since, p, name)
    || HappensIn(PeerTakes, s1, since, p, name)
  }

  /** The `get` that looks in `s` is not disturbed before it has fetched what it brings, if anything, `i` steps
      later. */
  ghost predicate GoesWell(s: State, c: Caller, p: Node, name: Name, events: seq<Event>, i: nat)
    requires Enabled(s, Event(true, Look(c, p, name))) && i < |events|
  {
    var s1 := Step(s, Event(true, Look(c, p, name)));
    IsRun(s1, events[..i]) && SameGet(events[..i], c, false) && Brings(After(s1, events[..i]), events[i], c) ==>
      !Disturbed(s, c, p, name, events[..i])
  }

  /** No `get` of the left end that looks in this run is disturbed. */
  ghost predicate Undisturbed(s: State, events: seq<Event>)
    requires IsRun(s, events)
    decreases |events|
  {
    events != [] ==>
      && (events[0].left && events[0].act.Look? ==>
            forall i :: 0 <= i < |events[1..]| ==>
              GoesWell(s, events[0].act.c, events[0].act.p, events[0].act.name, events[1..], i))
      && Undisturbed(Step(s, events[0]), events[1..])
  }

  // ---------- Parts of runs ----------

  lemma {:induction false} SoundParts(s: State, events: seq<Event>, more: seq<Event>)
    requires IsRun(s, events + more) && SoundRun(s, events + more)
    ensures IsRun(s, events) && SoundRun(s, events) && IsRun(After(s, events), more) && SoundRun(After(s, events), more)
    decreases |events|
  {
    hide Step, Enabled, SoundStep;
    RunsOf(s, events, more);
    if events == [] {
      assert [] + more == more;
    } else {
      assert (events + more)[0] == events[0] && (events + more)[1..] == events[1..] + more;
      SoundParts(Step(s, events[0]), events[1..], more);
    }
  }

  lemma FirstUndisturbed(s: State, events: seq<Event>)
    requires IsRun(s, events) && Undisturbed(s, events) && events != []
    ensures Enabled(s, events[0]) && IsRun(Step(s, events[0]), events[1..])
    ensures Undisturbed(Step(s, events[0]), events[1..])
  {
    hide Step, Enabled, GoesWell;
  }

  /** What an undisturbed run says of a lookup in the middle of it. */
  lemma {:induction false} AtLook(s: State, before: seq<Event>, c: Caller, p: Node, name: Name, events: seq<Event>,
      i: nat)
    requires IsRun(s, before + ([Event(true, Look(c, p, name))] + events)) && i < |events|
    requires Undisturbed(s, before + ([Event(true, Look(c, p, name))] + events))
    ensures IsRun(s, before) && Enabled(After(s, before), Event(true, Look(c, p, name)))
    ensures GoesWell(After(s, before), c, p, name, events, i)
    decreases |before|
  {
    var look := Event(true, Look(c, p, name));
    var all := before + ([look] + events);
    hide Step, Enabled, GoesWell;
    if before == [] {
      assert all == [look] + events;
      assert all[0] == look && all[1..] == events;
    } else {
      assert all[0] == before[0] && all[1..] == before[1..] + ([look] + events);
      FirstUndisturbed(s, all);
      AtLook(Step(s, before[0]), before[1..], c, p, name, events, i);
    }
  }

  // ---------- Every fetch follows a lookup ----------

  /** The caller has looked and has not fetched yet. */
  predicate Pending(x: Side, c: Caller) { c in x.calls.looked || (x.calls.fetching.Some? && x.calls.holder == c) }

  /** Only a lookup makes a caller pending, and a pending caller makes no step but to ask. */
  lemma LeftPends(s: State, act: Act, c: Caller)
    requires EnabledLeft(s, act) && CallersOk(s.a) && Pending(StepLeft(s, act).a, c)
    ensures (act.Look? && act.c == c) || (Pending(s.a, c) && InGet(Event(true, act), c, false))
  {
    if act.Receive? {
      ReceiveKeepsCalls(s);
      hide StepLeft;
    } else if act.AppAttach? {
      ActKeepsCalls(s, act);
      hide StepLeft;
    }
  }

  lemma CallersIn(s: State)
    requires Inv(s)
    ensures CallersOk(s.a)
  {
  }

  lemma PeerPends(s: State, act: Act, c: Caller)
    requires EnabledLeft(Flip(s), act)
    ensures Pending(StepLeft(Flip(s), act).b, c) == Pending(s.a, c)
  {
    if act.Receive? {
      ReceiveKeepsCalls(Flip(s));
    } else {
      PeerKeepsCalls(Flip(s), act);
    }
    hide StepLeft, EnabledLeft;
  }

  lemma StepPends(s: State, e: Event, c: Caller)
    requires Enabled(s, e) && Pending(Step(s, e).a, c) && Inv(s)
    ensures (e.left && e.act.Look? && e.act.c == c) || (Pending(s.a, c) && InGet(e, c, false))
  {
    CallersIn(s);
    hide Inv, StepLeft, EnabledLeft, CallersOk, Pending;
    if e.left {
      LeftPends(s, e.act, c);
    } else {
      PeerPends(s, e.act, c);
    }
  }

  lemma LastStep(s: State, events: seq<Event>, e: Event)
    requires IsRun(s, events + [e]) && SoundRun(s, events + [e]) && Inv(s)
    ensures IsRun(s, events) && SoundRun(s, events) && Inv(After(s, events))
    ensures Enabled(After(s, events), e) && After(s, events + [e]) == Step(After(s, events), e)
  {
    RunsOf(s, events, [e]);
    SoundParts(s, events, [e]);
    RunKeeps(s, events);
    assert [e][1..] == [];
    hide Step, SoundStep, Enabled, Inv;
  }

  /** How a caller came to be pending: where it last looked, and what followed. */
  lemma {:induction false} LookBefore(s: State, events: seq<Event>, c: Caller)
    returns (before: seq<Event>, p: Node, name: Name, since: seq<Event>)
    requires IsRun(s, events) && SoundRun(s, events) && !Pending(s.a, c) && Pending(After(s, events).a, c) && Inv(s)
    ensures events == before + ([Event(true, Look(c, p, name))] + since) && SameGet(since, c, false)
    decreases |events|
  {
    hide *;
    before, p, name, since := [], 0, [], [];
    if events == [] {
      NoStepYet(s);
    } else {
      var n := |events| - 1;
      var e := events[n];
      assert events == events[..n] + [e];
      LastStep(s, events[..n], e);
      StepPends(After(s, events[..n]), e, c);
      if e.left && e.act.Look? && e.act.c == c {
        before, p, name := events[..n], e.act.p, e.act.name;
        IsLook(e);
        assert [e] + [] == [e];
        NoneSame(c);
      } else {
        before, p, name, since := LookBefore(s, events[..n], c);
        MoreSame(since, e, c);
        Regroup(before, Event(true, Look(c, p, name)), since, [e]);
        since := since + [e];
      }
    }
  }

  lemma NoStepYet(s: State)
    ensures After(s, []) == s
  {
  }

  lemma IsLook(e: Event)
    requires e.left && e.act.Look?
    ensures e == Event(true, Look(e.act.c, e.act.p, e.act.name))
  {
  }

  lemma Regroup(before: seq<Event>, e: Event, since: seq<Event>, more: seq<Event>)
    ensures before + ([e] + since) + more == before + ([e] + (since + more))
  {
  }

  lemma NoneSame(c: Caller)
    ensures SameGet([], c, false)
  {
  }

  lemma MoreSame(since: seq<Event>, e: Event, c: Caller)
    requires SameGet(since, c, false) && InGet(e, c, false)
    ensures SameGet(since + [e], c, false)
  {
    hide InGet;
  }

  // ---------- Sound means undisturbed ----------

  /** A `get` that has fetched: sound exactly if it was not disturbed. */
  lemma FetchSoundIff(s: State, c: Caller, p: Node, name: Name, since: seq<Event>)
    requires Enabled(s, Event(true, Look(c, p, name))) && Inv(s)
    requires var s1 := Step(s, Event(true, Look(c, p, name)));
      IsRun(s1, since) && SoundRun(s1, since) && SameGet(since, c, false)
    requires var t := After(Step(s, Event(true, Look(c, p, name))), since);
      Enabled(t, Event(true, FetchDone(c))) && Brings(t, Event(true, FetchDone(c)), c)
    ensures var t := After(Step(s, Event(true, Look(c, p, name))), since);
      SoundStep(t, Event(true, FetchDone(c))) <==> !Disturbed(s, c, p, name, since)
  {
    var t := After(Step(s, Event(true, Look(c, p, name))), since);
    HasFetched(t, c);
    var k := t.a.calls.reply.value.value;
    hide *;
    FetchOverwritesIff(s, c, p, name, since, k);
    SoundIfNew(t, c, k);
    DisturbedIs(s, c, p, name, since);
  }

  lemma HasFetched(t: State, c: Caller)
    requires Enabled(t, Event(true, FetchDone(c))) && Brings(t, Event(true, FetchDone(c)), c)
    ensures t.a.calls.fetching.Some? && t.a.calls.holder == c
    ensures t.a.calls.reply.Some? && t.a.calls.reply.value.Some?
  {
  }

  lemma SoundIfNew(t: State, c: Caller, k: Nid)
    requires Enabled(t, Event(true, FetchDone(c))) && t.a.calls.reply == Some(Some(k))
    ensures SoundStep(t, Event(true, FetchDone(c))) <==> k !in t.a.tracked
  {
  }

  lemma DisturbedIs(s: State, c: Caller, p: Node, name: Name, since: seq<Event>)
    requires Enabled(s, Event(true, Look(c, p, name))) && IsRun(Step(s, Event(true, Look(c, p, name))), since)
    ensures var s1 := Step(s, Event(true, Look(c, p, name)));
      Disturbed(s, c, p, name, since) <==>
        || LooseAt(s.a, p, name)
        || HappensIn(Fetches, s1, since, p, name)
        || HappensIn(Hears, s1, since, p, name)
        || HappensIn(PeerTakes, s1, since, p, name)
  {
    hide HappensIn, LooseAt, IsRun, Step, Enabled;
  }

  /** In a sound run each `get` goes well. */
  lemma SoundGoesWell(s: State, c: Caller, p: Node, name: Name, events: seq<Event>, i: nat)
    requires Enabled(s, Event(true, Look(c, p, name))) && i < |events| && Inv(s)
    requires var s1 := Step(s, Event(true, Look(c, p, name))); IsRun(s1, events) && SoundRun(s1, events)
    ensures GoesWell(s, c, p, name, events, i)
  {
    hide *;
    var s1 := Step(s, Event(true, Look(c, p, name)));
    SoundPrefix(s1, events, i);
    var t := After(s1, events[..i]);
    if SameGet(events[..i], c, false) && Brings(t, events[i], c) {
      BringsIs(t, events[i], c);
      FetchSoundIff(s, c, p, name, events[..i]);
    }
    IsWell(s, c, p, name, events, i);
  }

  lemma IsWell(s: State, c: Caller, p: Node, name: Name, events: seq<Event>, i: nat)
    requires Enabled(s, Event(true, Look(c, p, name))) && i < |events|
    requires var s1 := Step(s, Event(true, Look(c, p, name)));
      IsRun(s1, events[..i]) && SameGet(events[..i], c, false) && Brings(After(s1, events[..i]), events[i], c) ==>
        !Disturbed(s, c, p, name, events[..i])
    ensures GoesWell(s, c, p, name, events, i)
  {
    hide Step, Enabled, SameGet, Brings, Disturbed, IsRun, After;
  }

  lemma SoundPrefix(s: State, events: seq<Event>, i: nat)
    requires IsRun(s, events) && SoundRun(s, events) && i < |events|
    ensures IsRun(s, events[..i]) && SoundRun(s, events[..i])
    ensures Enabled(After(s, events[..i]), events[i]) && SoundStep(After(s, events[..i]), events[i])
  {
    hide *;
    assert events == events[..i] + events[i..];
    RunsOf(s, events[..i], events[i..]);
    SoundParts(s, events[..i], events[i..]);
    HeadSound(After(s, events[..i]), events[i..]);
  }

  lemma BringsIs(s: State, e: Event, c: Caller)
    requires Brings(s, e, c)
    ensures e == Event(true, FetchDone(c))
  {
  }

  lemma HeadSound(s: State, events: seq<Event>)
    requires IsRun(s, events) && SoundRun(s, events) && events != []
    ensures Enabled(s, events[0]) && SoundStep(s, events[0])
  {
    hide Step, Enabled, SoundStep;
  }

  lemma {:induction false} SoundIsUndisturbed(s: State, events: seq<Event>)
    requires IsRun(s, events) && SoundRun(s, events) && Inv(s)
    ensures Undisturbed(s, events)
    decreases |events|
  {
    if events != [] {
      var e := events[0];
      FirstOfRun(s, events);
      FirstSound(s, events);
      hide Step, Enabled, SoundStep, IsRun, SoundRun, GoesWell, Inv;
      StepKeeps(s, e);
      SoundIsUndisturbed(Step(s, e), events[1..]);
      if e.left && e.act.Look? {
        forall i | 0 <= i < |events[1..]| ensures GoesWell(s, e.act.c, e.act.p, e.act.name, events[1..], i) {
          SoundGoesWell(s, e.act.c, e.act.p, e.act.name, events[1..], i);
        }
      }
    }
  }

  /** The other direction, for the next step of the left end. */
  lemma NextIsSound(s: State, events: seq<Event>, e: Event, more: seq<Event>)
    requires s.a.calls == NoCalls && IsRun(s, events + ([e] + more)) && Undisturbed(s, events + ([e] + more)) && Inv(s)
    requires IsRun(s, events) && SoundRun(s, events) && Enabled(After(s, events), e) && e.left
    ensures SoundStep(After(s, events), e)
  {
    hide *;
    var t := After(s, events);
    if e.act.FetchDone? && Brings(t, e, e.act.c) {
      var c := e.act.c;
      NobodyPends(s, c);
      FetchPends(t, e, c);
      var before, p, name, since := LookBefore(s, events, c);
      FetchAfter(s, before, c, p, name, since, e, more);
    } else {
      OthersSound(t, e);
    }
  }

  lemma NobodyPends(s: State, c: Caller)
    requires s.a.calls == NoCalls
    ensures !Pending(s.a, c)
  {
  }

  lemma FetchPends(t: State, e: Event, c: Caller)
    requires Enabled(t, e) && Brings(t, e, c)
    ensures e == Event(true, FetchDone(c)) && Pending(t.a, c)
  {
  }

  lemma OthersSound(t: State, e: Event)
    requires Enabled(t, e) && e.left && (e.act.FetchDone? ==> !Brings(t, e, e.act.c))
    ensures SoundStep(t, e)
  {
  }

  lemma FetchAfter(
    s: State, before: seq<Event>, c: Caller, p: Node, name: Name, since: seq<Event>, e: Event, more: seq<Event>)
    requires e == Event(true, FetchDone(c)) && SameGet(since, c, false) && Inv(s)
    requires var events := before + ([Event(true, Look(c, p, name))] + since);
      && IsRun(s, events + ([e] + more)) && Undisturbed(s, events + ([e] + more))
      && IsRun(s, events) && SoundRun(s, events) && Enabled(After(s, events), e) && Brings(After(s, events), e, c)
    ensures SoundStep(After(s, before + ([Event(true, Look(c, p, name))] + since)), e)
  {
    hide *;
    var look, rest := Event(true, Look(c, p, name)), since + ([e] + more);
    Regroup(before, look, since, [e] + more);
    AtLook(s, before, c, p, name, rest, |since|);
    assert rest[..|since|] == since && rest[|since|] == e;
    var u := After(s, before);
    SoundParts(s, before, [look] + since);
    RunsOf(s, before, [look] + since);
    RunKeeps(s, before);
    StartsWith(u, look, since);
    StartSound(u, look, since);
    WellMeans(u, c, p, name, rest, |since|);
    FetchSoundIff(u, c, p, name, since);
  }

  lemma StartSound(s: State, e: Event, more: seq<Event>)
    requires IsRun(s, [e] + more) && SoundRun(s, [e] + more)
    ensures Enabled(s, e) && IsRun(Step(s, e), more) && SoundRun(Step(s, e), more)
  {
    hide Step, Enabled, SoundStep;
    assert ([e] + more)[1..] == more;
  }

  lemma WellMeans(s: State, c: Caller, p: Node, name: Name, events: seq<Event>, i: nat)
    requires Enabled(s, Event(true, Look(c, p, name))) && i < |events| && GoesWell(s, c, p, name, events, i)
    requires var s1 := Step(s, Event(true, Look(c, p, name)));
      IsRun(s1, events[..i]) && SameGet(events[..i], c, false) && Brings(After(s1, events[..i]), events[i], c)
    ensures !Disturbed(s, c, p, name, events[..i])
  {
    hide Step, Enabled, SameGet, Brings, Disturbed, IsRun, After;
  }

  // ---------- Both ends ----------

  function FlipEvent(e: Event): Event { Event(!e.left, e.act) }

  /** The same run, seen from the other end. */
  function Flipped(events: seq<Event>): seq<Event> {
    seq(|events|, i requires 0 <= i < |events| => FlipEvent(events[i]))
  }

  lemma FlipStep(s: State, e: Event)
    ensures Enabled(Flip(s), FlipEvent(e)) == Enabled(s, e)
    ensures Enabled(s, e) ==>
      Step(Flip(s), FlipEvent(e)) == Flip(Step(s, e)) && SoundStep(Flip(s), FlipEvent(e)) == SoundStep(s, e)
  {
    hide StepLeft, EnabledLeft, Sound;
    assert Flip(Flip(s)) == s;
  }

  lemma {:induction false} FlipRun(s: State, events: seq<Event>)
    requires IsRun(s, events)
    ensures IsRun(Flip(s), Flipped(events)) && After(Flip(s), Flipped(events)) == Flip(After(s, events))
    ensures SoundRun(Flip(s), Flipped(events)) == SoundRun(s, events)
    decreases |events|
  {
    hide Step, Enabled, SoundStep, Flip, FlipEvent;
    if events != [] {
      FlipStep(s, events[0]);
      FlipRun(Step(s, events[0]), events[1..]);
      assert Flipped(events)[0] == FlipEvent(events[0]) && Flipped(events)[1..] == Flipped(events[1..]);
    }
  }

  lemma FlippedSplit(before: seq<Event>, e: Event, more: seq<Event>)
    ensures Flipped(before + ([e] + more)) == Flipped(before) + ([FlipEvent(e)] + Flipped(more))
  {
  }

  lemma FlipIs(s: State, e: Event)
    ensures Flip(s).a == s.b && FlipEvent(e).left == !e.left
  {
  }

  lemma OneMoreSound(s: State, before: seq<Event>, e: Event, more: seq<Event>)
    requires s.a.calls == NoCalls && s.b.calls == NoCalls && Inv(s)
    requires var events := before + ([e] + more);
      && IsRun(s, events) && Undisturbed(s, events)
      && IsRun(Flip(s), Flipped(events)) && Undisturbed(Flip(s), Flipped(events))
    requires IsRun(s, before) && SoundRun(s, before) && Enabled(After(s, before), e)
    ensures SoundStep(After(s, before), e)
  {
    hide *;
    if e.left {
      NextIsSound(s, before, e, more);
    } else {
      var t := After(s, before);
      FlipInv(s);
      FlipIs(s, e);
      FlippedSplit(before, e, more);
      FlipRun(s, before);
      FlipStep(t, e);
      NextIsSound(Flip(s), Flipped(before), FlipEvent(e), Flipped(more));
    }
  }

  lemma {:induction false} UndisturbedIsSound(s: State, events: seq<Event>, n: nat)
    requires s.a.calls == NoCalls && s.b.calls == NoCalls && n <= |events| && IsRun(s, events) && Inv(s)
    requires IsRun(Flip(s), Flipped(events)) && Undisturbed(s, events) && Undisturbed(Flip(s), Flipped(events))
    ensures IsRun(s, events[..n]) && SoundRun(s, events[..n])
    decreases n
  {
    if n == 0 {
      assert events[..0] == [];
    } else {
      var before, e, more := events[..n - 1], events[n - 1], events[n..];
      assert events == before + ([e] + more) && events[..n] == before + [e];
      hide *;
      UndisturbedIsSound(s, events, n - 1);
      SplitAt(s, before, e, more);
      OneMoreSound(s, before, e, more);
      OneEvent(After(s, before), e);
      RunsJoin(s, before, [e]);
    }
  }

  lemma SplitAt(s: State, before: seq<Event>, e: Event, more: seq<Event>)
    requires IsRun(s, before + ([e] + more))
    ensures IsRun(s, before) && Enabled(After(s, before), e)
  {
    hide *;
    RunsOf(s, before, [e] + more);
    StartsWith(After(s, before), e, more);
  }

  /** A run of a fresh connection is sound exactly if, at either end, no `get` that brings a node was
      disturbed between its lookup and its fetch. */
  lemma SoundIff(s: State, events: seq<Event>)
    requires Initial(s) && IsRun(s, events)
    ensures IsRun(Flip(s), Flipped(events))
    ensures SoundRun(s, events) <==> Undisturbed(s, events) && Undisturbed(Flip(s), Flipped(events))
  {
    assert s.a.calls == NoCalls && s.b.calls == NoCalls;
    assert events[..|events|] == events;
    hide *;
    InitialInv(s);
    FlipInv(s);
    FlipRun(s, events);
    if SoundRun(s, events) {
      SoundIsUndisturbed(s, events);
      SoundIsUndisturbed(Flip(s), Flipped(events));
    }
    if Undisturbed(s, events) && Undisturbed(Flip(s), Flipped(events)) {
      UndisturbedIsSound(s, events, |events|);
    }
  }
}
