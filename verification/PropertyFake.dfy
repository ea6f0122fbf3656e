/** The proxy of a property: a local value and its listeners, kept in step with the owner by the
    commands it has its connection write. */
module PropertyFake {
  import opened Bytes
  import opened Packages
  import opened PropertySync

  /** Whether the owner has the connection for a listener once it has processed these commands. */
  function Watching(watched: bool, up: seq<Up>): bool {
    if up == [] then watched else
      match up[|up| - 1]
      case Sub => true
      case Unsub => false
      case _ => Watching(watched, up[..|up| - 1])
  }

  lemma WatchingSnoc(watched: bool, up: seq<Up>, m: Up)
    ensures Watching(watched, up + [m]) == if m.Sub? then true else if m.Unsub? then false else Watching(watched, up)
  {
    assert (up + [m])[..|up|] == up;
  }

  class PropertyValueFake {
    var value: Value
    var listeners: set<nat>
    var deserializing: bool
    var sent: seq<Up>  // the commands written so far

    /** The commands amount to a subscription exactly while there are listeners. */
    ghost predicate Valid() reads this { Watching(false, sent) <==> listeners != {} }

    constructor (value: Value)
      ensures Valid() && this.value == value && listeners == {} && !deserializing && sent == []
    {
      this.value, listeners, deserializing, sent := value, {}, false, [];
    }

    method AddListener(l: nat)
      requires Valid()
      modifies this`listeners, this`sent
      ensures Valid() && listeners == old(listeners) + {l}
      ensures sent == old(sent) + (if old(listeners) <= {l} then [Sub] else [])
    {
      listeners := listeners + {l};
      WatchingSnoc(false, sent, Sub);
      if |listeners| == 1 {
        OnlyOne(listeners, l);
        sent := sent + [Sub];
      } else {
        assert old(listeners) <= {l} ==> listeners == {l};
        assert old(listeners) != {};
      }
    }

    method RemoveListener(l: nat)
      requires Valid()
      modifies this`listeners, this`sent
      ensures Valid() && listeners == old(listeners) - {l}
      ensures sent == old(sent) + (if old(listeners) <= {l} then [Unsub] else [])
    {
      listeners := listeners - {l};
      WatchingSnoc(false, sent, Unsub);
      if |listeners| == 0 {
        sent := sent + [Unsub];
      }
    }

    /** A value that serializes to nothing is not sent; nor is one that is being received. */
    method SetValue(v: Value)
      requires Valid()
      modifies this`value, this`sent
      ensures Valid() && value == v
      ensures sent == old(sent) + (if deserializing || v == [] then [] else [SetTo(v)])
    {
      value := v;
      if !deserializing && |v| != 0 {
        WatchingSnoc(false, sent, SetTo(v));
        sent := sent + [SetTo(v)];
      }
    }

    /** A value from the owner, by UPDATED or in reply to GET: it is stored with `set_value`, and nothing is
        sent back; nor is what the proxy is set to while it is told of it. */
    method Receive(v: Value, meanwhile: Option<Value>)
      requires Valid() && !deserializing
      modifies this`value, this`sent, this`deserializing
      ensures Valid() && value == Last(v, meanwhile) && sent == old(sent) && !deserializing
    {
      deserializing := true;
      SetValue(v);
      if meanwhile.Some? {
        SetValue(meanwhile.value);
      }
      deserializing := false;
    }

    /** Reading asks the owner first, `answer` being its reply, unless this or (`receiving`) another property
        of the connection is receiving a value. */
    method GetValue(answer: Value, meanwhile: Option<Value>, receiving: bool) returns (v: Value)
      requires Valid()
      modifies this`value, this`sent, this`deserializing
      ensures Valid() && v == value && deserializing == old(deserializing)
      ensures if old(deserializing) || receiving then v == old(value) && sent == old(sent)
        else v == Last(answer, meanwhile) && sent == old(sent) + [Get]
    {
      if !deserializing && !receiving {
        WatchingSnoc(false, sent, Get);
        sent := sent + [Get];
        Receive(answer, meanwhile);
      }
      v := value;
    }
  }

  function Last(v: Value, meanwhile: Option<Value>): Value { if meanwhile.Some? then meanwhile.value else v }

  lemma OnlyOne(s: set<nat>, l: nat)
    requires l in s && |s| == 1
    ensures s == {l}
  {
    assert |s - {l}| == 0;
  }

  // ---------- Subscriptions in the protocol ----------

  lemma {:induction false} WatchingCons(watched: bool, up: seq<Up>)
    requires up != []
    ensures Watching(watched, up) == Watching(if up[0].Sub? then true else if up[0].Unsub? then false
      else watched, up[1..])
  {
    if |up| > 1 {
      assert up[..|up| - 1][1..] == up[1..][..|up| - 2];
      WatchingCons(watched, up[..|up| - 1]);
    }
  }

  /** Processing commands does not change what they amount to. */
  lemma WatchingStays(s: State, e: Event)
    requires Enabled(s, e)
    ensures var t := Step(s, e);
      Watching(t.watched, t.up) == if e.AddFirst? then true else if e.RemoveLast? then false
        else Watching(s.watched, s.up)
  {
    match e {
      case ProcessUp(_) => WatchingCons(s.watched, s.up); hide Watching;
      case WriteSet(v) => WatchingSnoc(s.watched, s.up, SetTo(v)); hide Watching;
      case GetStart => WatchingSnoc(s.watched, s.up, Get); hide Watching;
      case AddFirst => WatchingSnoc(s.watched, s.up, Sub); hide Watching;
      case RemoveLast => WatchingSnoc(s.watched, s.up, Unsub); hide Watching;
      case _ => hide Watching;
    }
  }

  /** The last change of listeners in a run. */
  function Listened(listened: bool, events: seq<Event>): bool
    decreases |events|
  {
    if events == [] then listened else
      Listened(if events[0].AddFirst? then true else if events[0].RemoveLast? then false else listened, events[1..])
  }

  /** Over any run: when all commands are processed, the owner is watched exactly if the proxy was
      last left with listeners. */
  lemma {:induction false} WatchedIffListened(s: State, events: seq<Event>)
    requires IsRun(s, events)
    ensures var t := After(s, events);
      && Watching(t.watched, t.up) == Listened(Watching(s.watched, s.up), events)
      && (t.up == [] ==> t.watched == Listened(Watching(s.watched, s.up), events))
    decreases |events|
  {
    if events != [] {
      WatchingStays(s, events[0]);
      hide Step, Watching;
      WatchedIffListened(Step(s, events[0]), events[1..]);
    }
  }
}
