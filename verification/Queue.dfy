/** The locking queue and the thread that works it off. */
module Queue {
  import opened Bytes
  import opened Packages

  /** The monitor: each method runs under the mutex. */
  class LockingQueue<T(==)> {
    var elements: seq<T>

    constructor ()
      ensures elements == []
    {
      elements := [];
    }

    method Push(value: T)
      modifies this
      ensures elements == old(elements) + [value]
    {
      elements := elements + [value];
    }

    /** What others push while a thread waits, one after another. */
    method OthersPush(values: seq<T>)
      modifies this
      ensures elements == old(elements) + values
    {
      for i := 0 to |values|
        invariant elements == old(elements) + values[..i]
      {
        Push(values[i]);
      }
    }

    /** Waits while there is nothing, then takes the first element. Each time it wakes, what others
        pushed while it waited is there; `pushes` are those, and must bring something in the end. */
    method Pop(pushes: seq<seq<T>>) returns (value: T, waits: nat)
      requires elements != [] || Concat(pushes) != []
      modifies this
      ensures waits <= |pushes| && old(elements) + Concat(pushes[..waits]) == [value] + elements
      ensures waits > 0 ==> old(elements) + Concat(pushes[..waits - 1]) == []
    {
      waits := 0;
      assert elements + Concat([]) == elements && pushes[..0] == [];
      hide Concat;
      while |elements| < 1
        invariant waits <= |pushes| && elements == old(elements) + Concat(pushes[..waits])
        invariant waits > 0 ==> old(elements) + Concat(pushes[..waits - 1]) == []
        invariant elements == [] ==> waits < |pushes|
        decreases |pushes| - waits
      {
        ConcatMore(pushes, waits);
        AppendAssoc(old(elements), Concat(pushes[..waits]), pushes[waits]);
        OthersPush(pushes[waits]);
        waits := waits + 1;
        assert waits == |pushes| ==> pushes[..waits] == pushes;
      }
      value := elements[0];
      elements := elements[1..];
    }

    /** The worker's loop, as long as nobody clears its flag, while others go on pushing: it hands on
        what comes before the first null, takes that null, and leaves what comes after. */
    method WorkOff(stop: T, pushes: seq<seq<T>>) returns (processed: seq<T>, waits: nat)
      requires stop in elements + Concat(pushes)
      modifies this
      ensures stop !in processed && waits <= |pushes|
      ensures old(elements) + Concat(pushes[..waits]) == processed + [stop] + elements
    {
      processed, waits := [], 0;
      assert elements + Concat([]) == elements && pushes[0..] == pushes && pushes[..0] == [];
      hide Concat;
      while true
        invariant waits <= |pushes| && stop in elements + Concat(pushes[waits..]) && stop !in processed
        invariant old(elements) + Concat(pushes[..waits]) == processed + elements
        decreases |elements| + |Concat(pushes[waits..])|
      {
        ghost var before := elements;
        assert elements + Concat(pushes[waits..]) != [];
        var p, n := Pop(pushes[waits..]);
        ConcatSplit(pushes, waits, n);
        OneTaken(old(elements), Concat(pushes[..waits]), Concat(pushes[waits..][..n]), processed, before, p, elements);
        TakenThen(before, Concat(pushes[waits..][..n]), Concat(pushes[waits + n..]), p, elements, stop);
        waits := waits + n;
        if p == stop {
          return;
        }
        processed := processed + [p];
      }
    }
  }

  function Concat<T>(parts: seq<seq<T>>): seq<T> {
    if parts == [] then [] else Concat(parts[..|parts| - 1]) + parts[|parts| - 1]
  }

  lemma OneTaken<T>(start: seq<T>, c: seq<T>, d: seq<T>, processed: seq<T>, before: seq<T>, p: T, rest: seq<T>)
    requires start + c == processed + before && before + d == [p] + rest
    ensures start + (c + d) == processed + [p] + rest
  {
    AppendAssoc(start, c, d);
    AppendAssoc(processed, before, d);
    AppendAssoc(processed, [p], rest);
  }

  lemma TakenThen<T>(before: seq<T>, d: seq<T>, e: seq<T>, p: T, rest: seq<T>, stop: T)
    requires before + d == [p] + rest && stop in before + (d + e)
    ensures |before| + |d + e| == 1 + |rest| + |e| && (p == stop || stop in rest + e)
  {
    AppendAssoc(before, d, e);
    AppendAssoc([p], rest, e);
    assert [p] + (rest + e) == before + (d + e);
  }

  lemma ConcatMore<T>(parts: seq<seq<T>>, n: nat)
    requires n < |parts|
    ensures Concat(parts[..n + 1]) == Concat(parts[..n]) + parts[n]
  {
    assert parts[..n + 1][..n] == parts[..n];
  }

  lemma {:induction false} ConcatSplit<T>(parts: seq<seq<T>>, m: nat, n: nat)
    requires m <= |parts| && n <= |parts[m..]|
    ensures Concat(parts[..m + n]) == Concat(parts[..m]) + Concat(parts[m..][..n])
    ensures Concat(parts[m..]) == Concat(parts[m..][..n]) + Concat(parts[m + n..])
  {
    ConcatTwo(parts[..m], parts[m..][..n]);
    assert parts[..m] + parts[m..][..n] == parts[..m + n];
    ConcatTwo(parts[m..][..n], parts[m + n..]);
    assert parts[m..][..n] + parts[m + n..] == parts[m..];
  }

  lemma {:induction false} ConcatTwo<T>(a: seq<seq<T>>, b: seq<seq<T>>)
    ensures Concat(a + b) == Concat(a) + Concat(b)
  {
    if b == [] {
      assert a + b == a;
    } else {
      var n := |b| - 1;
      assert (a + b)[..|a| + n] == a + b[..n];
      ConcatTwo(a, b[..n]);
    }
  }

  // ---------- Arrivals, worker and shutdown, interleaved ----------

  /** A package, of which only matters whether it is a GENERATE_NID. */
  datatype Package = Package(id: nat, generateNid: bool)

  datatype Place = AtLoopHead | Waiting | Ended

  datatype State = State(
    queue: seq<Option<Package>>,   // None is the null package
    run: bool,                     // package_processing_thread_run
    worker: Place,
    woken: bool,                   // the destructor has pushed its null package
    arrived: seq<Package>,         // history: all packages delivered
    answered: seq<Package>,        // history: those answered on arrival
    pushed: seq<Option<Package>>,  // history: all pushes
    processed: seq<Package>,       // history: those handed to their handlers
    dropped: seq<Option<Package>>) // history: what was popped and not processed

  datatype Event =
    | Arrive(p: Option<Package>)  // on the receiving thread, which the destructor does not stop
    | ClearFlag                   // the destructor's first line
    | PushNull                    // and its second
    | CheckFlag                   // the loop's condition
    | PopOne

  predicate Enabled(s: State, e: Event) {
    match e
    case Arrive(_) => true
    case ClearFlag => s.run
    case PushNull => !s.run && !s.woken
    case CheckFlag => s.worker == AtLoopHead
    case PopOne => s.worker == Waiting && s.queue != []
  }

  function Pushed(s: State, item: Option<Package>): State {
    s.(queue := s.queue + [item], pushed := s.pushed + [item])
  }

  function Step(s: State, e: Event): State
    requires Enabled(s, e)
  {
    match e
    case Arrive(None) => s
    case Arrive(Some(p)) =>
      var t := s.(arrived := s.arrived + [p]);
      if p.generateNid then t.(answered := s.answered + [p]) else Pushed(t, Some(p))
    case ClearFlag => s.(run := false)
    case PushNull => Pushed(s, None).(woken := true)
    case CheckFlag => s.(worker := if s.run then Waiting else Ended)
    case PopOne =>
      var t := s.(queue := s.queue[1..]);
      if !s.run || s.queue[0].None? then t.(worker := Ended, dropped := s.dropped + [s.queue[0]])
      else t.(worker := AtLoopHead, processed := s.processed + [s.queue[0].value])
  }

  function Initial(): State { State([], true, AtLoopHead, false, [], [], [], [], []) }

  predicate IsRun(s: State, events: seq<Event>)
    decreases |events|
  {
    events == [] || (Enabled(s, events[0]) && IsRun(Step(s, events[0]), events[1..]))
  }

  function After(s: State, events: seq<Event>): State
    requires IsRun(s, events)
    decreases |events|
  {
    if events == [] then s else After(Step(s, events[0]), events[1..])
  }

  function Generating(ps: seq<Package>): seq<Package> {
    if ps == [] then [] else Generating(ps[..|ps| - 1]) + (if ps[|ps| - 1].generateNid then [ps[|ps| - 1]] else [])
  }

  /** The packages to be queued, in order of arrival. */
  function Others(ps: seq<Package>): seq<Package> {
    if ps == [] then [] else Others(ps[..|ps| - 1]) + (if ps[|ps| - 1].generateNid then [] else [ps[|ps| - 1]])
  }

  function AsItems(ps: seq<Package>): seq<Option<Package>> {
    seq(|ps|, i requires 0 <= i < |ps| => Some(ps[i]))
  }

  /** The packages among the items pushed. */
  function PackagesIn(items: seq<Option<Package>>): seq<Package> {
    if items == [] then [] else
      var last := items[|items| - 1];
      PackagesIn(items[..|items| - 1]) + (if last.None? then [] else [last.value])
  }

  /** Everything pushed is in one place, in order; the null package is the destructor's; once it is
      pushed, it stays in the queue until it ends the worker. */
  predicate Inv(s: State) {
    && AsItems(s.processed) + s.dropped + s.queue == s.pushed
    && PackagesIn(s.pushed) == Others(s.arrived) && s.answered == Generating(s.arrived)
    && (s.worker != Ended ==> s.dropped == [])
    && (s.woken ==> !s.run) && (s.worker == Ended ==> !s.run)
    && (None in s.pushed <==> s.woken)
    && (s.woken && s.worker != Ended ==> None in s.queue)
  }

  lemma ItemsSnoc(ps: seq<Package>, p: Package)
    ensures AsItems(ps + [p]) == AsItems(ps) + [Some(p)]
  {
  }

  lemma PushKeeps(s: State, item: Option<Package>)
    requires AsItems(s.processed) + s.dropped + s.queue == s.pushed
    ensures var t := Pushed(s, item);
      && AsItems(t.processed) + t.dropped + t.queue == t.pushed
      && PackagesIn(t.pushed) == PackagesIn(s.pushed) + (if item.None? then [] else [item.value])
      && (None in t.pushed <==> None in s.pushed || item.None?)
      && (None in t.queue <==> None in s.queue || item.None?)
  {
    assert (s.pushed + [item])[..|s.pushed|] == s.pushed;
    assert AsItems(s.processed) + s.dropped + (s.queue + [item]) == AsItems(s.processed) + s.dropped + s.queue + [item];
    assert item in s.pushed + [item] && item in s.queue + [item];
  }

  lemma ArriveKeeps(s: State, p: Package)
    requires Inv(s)
    ensures Inv(Step(s, Arrive(Some(p))))
  {
    ArrivedMore(s.arrived, p);
    PushKeeps(s, Some(p));
    hide AsItems, PackagesIn, Others, Generating;
  }

  lemma ArrivedMore(ps: seq<Package>, p: Package)
    ensures Others(ps + [p]) == if p.generateNid then Others(ps) else Others(ps) + [p]
    ensures Generating(ps + [p]) == if p.generateNid then Generating(ps) + [p] else Generating(ps)
  {
    assert (ps + [p])[..|ps|] == ps;
    assert Others(ps) + [] == Others(ps) && Generating(ps) + [] == Generating(ps);
  }

  lemma PopKeeps(s: State)
    requires Inv(s) && Enabled(s, PopOne)
    ensures Inv(Step(s, PopOne))
  {
    var t, x := Step(s, PopOne), s.queue[0];
    assert s.queue == [x] + s.queue[1..];
    assert s.dropped == [];
    if s.run && x.Some? {
      ItemsSnoc(s.processed, x.value);
      assert AsItems(s.processed) + [] + s.queue == AsItems(s.processed) + [x] + [] + s.queue[1..];
    } else {
      assert AsItems(s.processed) + [] + s.queue == AsItems(s.processed) + ([] + [x]) + s.queue[1..];
    }
    hide AsItems, PackagesIn, Others, Generating;
  }

  lemma StepKeeps(s: State, e: Event)
    requires Inv(s) && Enabled(s, e)
    ensures Inv(Step(s, e))
  {
    match e {
      case Arrive(None) =>
      case Arrive(Some(p)) => ArriveKeeps(s, p);
      case ClearFlag =>
      case PushNull =>
        PushKeeps(s, None);
        assert PackagesIn(s.pushed) + [] == PackagesIn(s.pushed);
        hide AsItems, PackagesIn, Others, Generating;
      case CheckFlag =>
      case PopOne => PopKeeps(s);
    }
  }

  lemma {:induction false} WorkerRunKeeps(s: State, events: seq<Event>)
    requires Inv(s) && IsRun(s, events)
    ensures Inv(After(s, events))
    decreases |events|
  {
    hide Inv, Step;
    if events != [] {
      StepKeeps(s, events[0]);
      WorkerRunKeeps(Step(s, events[0]), events[1..]);
    }
  }

  lemma {:induction false} PackagesOfPrefix(ps: seq<Package>, rest: seq<Option<Package>>)
    ensures ps <= PackagesIn(AsItems(ps) + rest)
  {
    var all := AsItems(ps) + rest;
    if rest != [] {
      assert all[..|all| - 1] == AsItems(ps) + rest[..|rest| - 1];
      PackagesOfPrefix(ps, rest[..|rest| - 1]);
    } else if ps != [] {
      var n := |ps| - 1;
      assert all == AsItems(ps) && all[..n] == AsItems(ps[..n]) + [];
      PackagesOfPrefix(ps[..n], []);
      PackagesOfItems(ps);
    }
  }

  lemma {:induction false} PackagesOfItems(ps: seq<Package>)
    ensures PackagesIn(AsItems(ps)) == ps
  {
    if ps != [] {
      var n := |ps| - 1;
      assert AsItems(ps)[..n] == AsItems(ps[..n]);
      PackagesOfItems(ps[..n]);
    }
  }

  /** In every run: what was processed is a prefix of what arrived to be queued, in order of arrival,
      and was pushed before the null package, if that was pushed at all; every GENERATE_NID was
      answered at once, whatever the queue held. */
  lemma ProcessedInOrder(events: seq<Event>)
    requires IsRun(Initial(), events)
    ensures var s := After(Initial(), events);
      && s.processed <= Others(s.arrived) && s.answered == Generating(s.arrived)
      && |s.processed| <= |s.pushed| && None !in s.pushed[..|s.processed|]
  {
    var s := After(Initial(), events);
    WorkerRunKeeps(Initial(), events);
    var rest := s.dropped + s.queue;
    assert AsItems(s.processed) + s.dropped + s.queue == AsItems(s.processed) + rest;
    PackagesOfPrefix(s.processed, rest);
    assert s.pushed[..|s.processed|] == AsItems(s.processed);
  }

  // ---------- Nothing is lost ----------

  /** The packages that the events bring. */
  function Arrivals(events: seq<Event>): seq<Package> {
    if events == [] then []
    else (if events[0].Arrive? && events[0].p.Some? then [events[0].p.value] else []) + Arrivals(events[1..])
  }

  function Pops(events: seq<Event>): nat {
    if events == [] then 0 else (if events[0].PopOne? then 1 else 0) + Pops(events[1..])
  }

  lemma {:induction false} ArrivedAre(s: State, events: seq<Event>)
    requires IsRun(s, events)
    ensures After(s, events).arrived == s.arrived + Arrivals(events)
    decreases |events|
  {
    if events == [] {
      assert s.arrived + [] == s.arrived;
    } else {
      var e := events[0];
      var mine := if e.Arrive? && e.p.Some? then [e.p.value] else [];
      assert Step(s, e).arrived == s.arrived + mine;
      ArrivedAre(Step(s, e), events[1..]);
      assert s.arrived + mine + Arrivals(events[1..]) == s.arrived + (mine + Arrivals(events[1..]));
    }
  }

  /** The null package is not there before the flag is cleared. */
  lemma NoNullYet(s: State)
    requires s.run && Inv(s)
    ensures None !in s.queue
  {
    assert forall x :: x in s.queue ==> x in AsItems(s.processed) + s.dropped + s.queue;
    hide AsItems, PackagesIn, Others, Generating;
  }

  lemma StillRuns(s: State, e: Event)
    requires Enabled(s, e) && Step(s, e).run && Inv(s)
    ensures s.run && |Step(s, e).processed| == |s.processed| + if e.PopOne? then 1 else 0
  {
    assert s.run;
    NoNullYet(s);
    hide Inv;
  }

  lemma {:induction false} EachPopProcesses(s: State, events: seq<Event>)
    requires IsRun(s, events) && After(s, events).run && Inv(s)
    ensures s.run && |After(s, events).processed| == |s.processed| + Pops(events)
    decreases |events|
  {
    if events != [] {
      StepKeeps(s, events[0]);
      hide Inv, Step, Enabled;
      EachPopProcesses(Step(s, events[0]), events[1..]);
      StillRuns(s, events[0]);
    }
  }

  lemma {:induction false} QueuedAre(a: seq<Option<Package>>, b: seq<Option<Package>>)
    ensures PackagesIn(a + b) == PackagesIn(a) + PackagesIn(b)
    decreases |b|
  {
    if b == [] {
      assert a + b == a;
    } else {
      var n := |b| - 1;
      assert (a + b)[..|a| + n] == a + b[..n];
      QueuedAre(a, b[..n]);
    }
  }

  /** As long as nobody clears the flag: every package that came, other than a GENERATE_NID, has been processed or is
      in the queue, in the order they came in; every GENERATE_NID has been answered; the worker has processed a
      package whenever it took one, and while there is one its next steps process it. */
  lemma NothingIsLost(events: seq<Event>)
    requires IsRun(Initial(), events) && After(Initial(), events).run
    ensures var s := After(Initial(), events);
      && s.processed + PackagesIn(s.queue) == Others(Arrivals(events)) && |PackagesIn(s.queue)| == |s.queue|
      && s.answered == Generating(Arrivals(events)) && |s.processed| == Pops(events)
      && (s.queue != [] ==> ProcessesNext(s))
  {
    var s := After(Initial(), events);
    WorkerRunKeeps(Initial(), events);
    ArrivedAre(Initial(), events);
    EachPopProcesses(Initial(), events);
    assert [] + Arrivals(events) == Arrivals(events) && Initial().processed == [];
    hide IsRun, After, Inv, Initial, Arrivals, Pops, Generating, Others;
    NoneIsLost(s);
  }

  /** The worker, once it is past the loop's head, can take the first package, and processes it. */
  predicate ProcessesNext(s: State)
    requires s.queue != []
  {
    && (s.worker == AtLoopHead || s.worker == Waiting)
    && var t := if s.worker == AtLoopHead then Step(s, CheckFlag) else s;
       && t.queue == s.queue && Enabled(t, PopOne) && s.queue[0].Some?
       && Step(t, PopOne).processed == s.processed + [s.queue[0].value]
  }

  lemma NoneIsLost(s: State)
    requires s.run && Inv(s)
    ensures s.processed + PackagesIn(s.queue) == Others(s.arrived) && |PackagesIn(s.queue)| == |s.queue|
    ensures s.answered == Generating(s.arrived)
    ensures s.queue != [] ==> ProcessesNext(s)
  {
    NoNullYet(s);
    assert s.dropped == [] && AsItems(s.processed) + [] + s.queue == AsItems(s.processed) + s.queue;
    QueuedAre(AsItems(s.processed), s.queue);
    PackagesOfItems(s.processed);
    AllPackages(s.queue);
    assert s.queue != [] ==> s.queue[0] in s.queue;
    hide AsItems, PackagesIn, Others, Generating;
  }

  lemma {:induction false} AllPackages(q: seq<Option<Package>>)
    requires None !in q
    ensures |PackagesIn(q)| == |q|
    decreases |q|
  {
    if q != [] {
      var n := |q| - 1;
      assert forall x :: x in q[..n] ==> x in q;
      assert q[n] in q;
      AllPackages(q[..n]);
    }
  }

  // ---------- Shutdown ----------

  function WorkerSteps(events: seq<Event>): nat {
    if events == [] then 0 else (if events[0].CheckFlag? || events[0].PopOne? then 1 else 0) + WorkerSteps(events[1..])
  }

  lemma {:induction false} NothingMore(s: State, events: seq<Event>)
    requires !s.run && IsRun(s, events)
    ensures var t := After(s, events);
      && !t.run && t.processed == s.processed
      && WorkerSteps(events) <= (if s.worker == Ended then 0 else 1)
      && (t.worker == Ended <==> s.worker == Ended || WorkerSteps(events) == 1)
    decreases |events|
  {
    if events != [] {
      var t := Step(s, events[0]);
      assert !t.run && t.processed == s.processed;
      NothingMore(t, events[1..]);
    }
  }

  /** Once the flag is cleared, whatever arrives: nothing more is processed in any run, and the
      worker takes one step more at most, which ends it. Once the null package is pushed as well,
      the worker has ended or can take that step. */
  lemma StopEndsWorker(before: seq<Event>, events: seq<Event>)
    requires IsRun(Initial(), before) && !After(Initial(), before).run && IsRun(After(Initial(), before), events)
    ensures var s := After(Initial(), before); var t := After(s, events);
      && t.processed == s.processed && WorkerSteps(events) <= 1 && (WorkerSteps(events) == 1 ==> t.worker == Ended)
      && (t.woken ==> t.worker == Ended || Enabled(t, CheckFlag) || Enabled(t, PopOne))
  {
    var s := After(Initial(), before);
    WorkerRunKeeps(Initial(), before);
    WorkerRunKeeps(s, events);
    NothingMore(s, events);
    hide AsItems, PackagesIn, Others, Generating;
  }

  /** Clearing the flag does not wake a worker that waits for a package: with the queue empty it has
      no step until something is pushed. */
  lemma FlagAloneDoesNotWake()
    ensures var before := [CheckFlag, ClearFlag];
      && IsRun(Initial(), before)
      && var s := After(Initial(), before);
         s.worker == Waiting && !Enabled(s, CheckFlag) && !Enabled(s, PopOne) && Enabled(s, PushNull)
         && Enabled(Step(s, PushNull), PopOne)
  {
    var s1 := Step(Initial(), CheckFlag);
    assert IsRun(Initial(), [CheckFlag, ClearFlag]) && After(Initial(), [CheckFlag, ClearFlag])
      == Step(s1, ClearFlag) by {
      assert [CheckFlag, ClearFlag][1..] == [ClearFlag] && [ClearFlag][1..] == [];
    }
  }
}
