/** The two ends of a property as they are written take the steps of PropertySync, whose lemmas are about all
    runs: what one end writes are the messages of that step, and what the other makes of the package of a
    message is the step that works it off. */
module PropertyPeers {
  import opened Bytes
  import opened Packages
  import opened Payloads
  import opened Framing
  import opened Dispatcher
  import opened Mirror
  import opened NodeSync
  import opened MessageIds
  import PS = PropertySync

  // ---------- Messages as packages ----------

  /** The package of a command to the owner, as it arrives: a question was padded by `send`. */
  function UpPackage(k: Nid, m: PS.Up): bytes {
    match m
    case Sub => MakePackage(CMD_SUBSCRIBE, k, [])
    case Unsub => MakePackage(CMD_UNSUBSCRIBE, k, [])
    case SetTo(v) => MakePackage(CMD_PROP_SET_VALUE, k, v)
    case Get => Copied(MakePackage(CMD_PROP_GET_VALUE, k, []))
  }

  /** What it puts on the stream; `id` is 0 for all but questions. */
  function UpBytes(k: Nid, m: PS.Up, id: msgid): bytes { Frame(WithWord(id, UpPackage(k, m))) }

  /** The package of an UPDATED. */
  function DownPackage(k: Nid, v: bytes): bytes { MakePackage(CMD_PROP_VALUE_UPDATED, k, ValuePayload(v)) }

  function DownBytes(k: Nid, vs: seq<bytes>): bytes {
    if vs == [] then [] else Frame(WithWord(0, DownPackage(k, vs[0]))) + DownBytes(k, vs[1..])
  }

  lemma DownOne(k: Nid, v: bytes)
    ensures DownBytes(k, [v]) == UpdatedBytes(k, v)
    ensures DownBytes(k, [v, v]) == UpdatedBytes(k, v) + UpdatedBytes(k, v)
    ensures DownBytes(k, []) == []
  {
    hide Frame, WithWord, MakePackage, ValuePayload;
    assert [v, v][1..] == [v] && [v][1..] == [];
    assert DownBytes(k, []) == [];
    assert DownBytes(k, [v]) == Frame(WithWord(0, DownPackage(k, v))) + DownBytes(k, []);
  }

  // ---------- The owner's end ----------

  /** The property `m`, tracked as `k` and under no other nid, and what its connection has listened to. */
  ghost predicate OwnerShows(y: NodeSync, m: Node, k: Nid, s: PS.State)
    reads y
  {
    && k in y.tracked && y.tracked[k] == m && FindNid(y.tracked, m) == Some(k) && m in y.values
    && s.owner == y.values[m] && (s.watched <==> m in y.watched) && s.notes == 0 && s.telling == multiset{}
  }

  /** One notification: the connection is told, and writes an UPDATED if it is subscribed. */
  function Notification(watched: bool, v: bytes): seq<PS.Event> {
    if watched then [PS.Tell] + [PS.WriteUpdated(v)] else [PS.Tell]
  }

  function Notifications(watched: bool, v: bytes, extra: bool): seq<PS.Event> {
    if extra then Notification(watched, v) + Notification(watched, v) else Notification(watched, v)
  }

  /** The UPDATEDs that they come to. */
  function Copies(watched: bool, v: bytes, extra: bool): seq<bytes> {
    if !watched then [] else if extra then [v, v] else [v]
  }

  /** Between this state and that only what the owner tells has changed. */
  predicate Told(s: PS.State, t: PS.State, down: seq<bytes>) {
    && t.owner == s.owner && t.proxy == s.proxy && t.sending == s.sending && t.up == s.up && t.watched == s.watched
    && t.getting == s.getting && t.reply == s.reply && t.telling == s.telling && t.down == s.down + down
  }

  lemma OneNotification(s: PS.State)
    requires s.notes > 0 && s.telling == multiset{}
    ensures PS.IsRun(s, Notification(s.watched, s.owner))
    ensures var t := PS.After(s, Notification(s.watched, s.owner));
      Told(s, t, if s.watched then [s.owner] else []) && t.notes == s.notes - 1
  {
    var s1 := PS.Step(s, PS.Tell);
    if s.watched {
      var e := PS.WriteUpdated(s.owner);
      assert s1.telling == multiset{s.owner};
      assert multiset{s.owner} - multiset{s.owner} == multiset{};
      assert Told(s, PS.Step(s1, e), [s.owner]);
      hide PS.IsRun, PS.After, PS.Told;
      OneStep(s1, e);
      FirstThen(s, PS.Tell, [e]);
    } else {
      assert s.down + [] == s.down;
      OneStep(s, PS.Tell);
      hide PS.IsRun, PS.After;
    }
  }

  lemma RunsJoin(s: PS.State, events: seq<PS.Event>, more: seq<PS.Event>)
    requires PS.IsRun(s, events) && PS.IsRun(PS.After(s, events), more)
    ensures PS.IsRun(s, events + more) && PS.After(s, events + more) == PS.After(PS.After(s, events), more)
    decreases |events|
  {
    hide PS.Step, PS.Enabled;
    if events == [] {
      assert events + more == more;
    } else {
      assert (events + more)[1..] == events[1..] + more;
      RunsJoin(PS.Step(s, events[0]), events[1..], more);
    }
  }

  lemma FirstThen(s: PS.State, e: PS.Event, more: seq<PS.Event>)
    requires PS.Enabled(s, e) && PS.IsRun(PS.Step(s, e), more)
    ensures PS.IsRun(s, [e] + more) && PS.After(s, [e] + more) == PS.After(PS.Step(s, e), more)
  {
    hide PS.Step, PS.Enabled;
    assert ([e] + more)[1..] == more;
  }

  /** All that one change of the owner comes to. */
  lemma AllNotified(s: PS.State, extra: bool)
    requires s.notes == (if extra then 2 else 1) && s.telling == multiset{}
    ensures PS.IsRun(s, Notifications(s.watched, s.owner, extra))
    ensures var t := PS.After(s, Notifications(s.watched, s.owner, extra));
      Told(s, t, Copies(s.watched, s.owner, extra)) && t.notes == 0
  {
    hide PS.IsRun, PS.After, Notification;
    OneNotification(s);
    if extra {
      var t := PS.After(s, Notification(s.watched, s.owner));
      OneNotification(t);
      RunsJoin(s, Notification(s.watched, s.owner), Notification(t.watched, t.owner));
      assert s.watched ==> s.down + [s.owner] + [s.owner] == s.down + [s.owner, s.owner];
    }
  }

  /** A SET, and what the owner tells on that. */
  function Taking(s: PS.State, v: bytes, extra: bool): seq<PS.Event> {
    [PS.ProcessUp(extra)] + Notifications(s.watched, v, extra)
  }

  lemma TakingRun(s: PS.State, v: bytes, extra: bool)
    requires s.up != [] && s.up[0] == PS.SetTo(v) && s.notes == 0 && s.telling == multiset{}
    ensures PS.IsRun(s, Taking(s, v, extra))
    ensures var t := PS.After(s, Taking(s, v, extra));
      Told(s.(up := s.up[1..], owner := v), t, Copies(s.watched, v, extra)) && t.notes == 0
  {
    var s1 := PS.Step(s, PS.ProcessUp(extra));
    AllNotified(s1, extra);
    hide PS.IsRun, PS.After, Notifications;
    FirstThen(s, PS.ProcessUp(extra), Notifications(s.watched, v, extra));
  }

  /** What the command in a package asks the owner to do. */
  lemma UpFields(k: Nid, m: PS.Up)
    requires k < TWO_64
    ensures var p := UpPackage(k, m);
      && WellFormed(p) && NidOf(p) == k
      && CmdOf(p) == (if m.Sub? then CMD_SUBSCRIBE else if m.Unsub? then CMD_UNSUBSCRIBE
           else if m.SetTo? then CMD_PROP_SET_VALUE else CMD_PROP_GET_VALUE)
      && (m.SetTo? ==> DecodeSet(p) == m.v)
  {
    match m {
      case Sub => HeaderFields(CMD_SUBSCRIBE, k, []);
      case Unsub => HeaderFields(CMD_UNSUBSCRIBE, k, []);
      case SetTo(v) =>
        HeaderFields(CMD_PROP_SET_VALUE, k, v);
        SetRoundTrip(k, v, 0);
        assert UpPackage(k, m) + Zeros(0) == UpPackage(k, m);
      case Get => PaddedFields(CMD_PROP_GET_VALUE, k, [], HEADER_SIZE);
    }
    hide NidOf, MakePackage;
  }

  /** The events of the owner's end for a command that is worked off. */
  function Working(s: PS.State, extra: bool): seq<PS.Event>
    requires s.up != []
  {
    if s.up[0].SetTo? then Taking(s, s.up[0].v, extra) else [PS.ProcessUp(extra)]
  }

  method TakeSet(y: NodeSync, p: Package, ghost m: Node, ghost k: Nid, extra: bool, ghost s: PS.State)
    requires y.Valid() && p.Valid() && y.source.next + 2 < TWO_64 && k < TWO_64 && OwnerShows(y, m, k, s)
    requires s.up != [] && s.up[0].SetTo? && p.data == UpPackage(k, s.up[0]) && Fits(p.data)
    modifies y, y.source, y.dev`pending, y.dev.transport
    ensures y.Valid() && PS.IsRun(s, Taking(s, s.up[0].v, extra))
    ensures var t := PS.After(s, Taking(s, s.up[0].v, extra));
      && OwnerShows(y, m, k, t) && t.down == s.down + Copies(s.watched, s.up[0].v, extra)
      && y.dev.transport.stream == old(y.dev.transport.stream) + DownBytes(k, Copies(s.watched, s.up[0].v, extra))
  {
    ghost var v := s.up[0].v;
    UpFields(k, s.up[0]);
    TakingRun(s, v, extra);
    DownOne(k, v);
    hide PS.IsRun, PS.After, Taking, UpPackage, NidOf, DecodeSet, FindNid, UpdatedBytes, DownBytes, AsRuled, Answered,
      DecodeAttach, DecodeChildAdded, ReadString;
    y.ProcessPackage(p, [], extra, None);
  }

  lemma OneStep(s: PS.State, e: PS.Event)
    requires PS.Enabled(s, e)
    ensures PS.IsRun(s, [e]) && PS.After(s, [e]) == PS.Step(s, e)
  {
    assert [e][1..] == [];
  }

  method TakeSubscription(y: NodeSync, p: Package, ghost m: Node, ghost k: Nid, extra: bool, ghost s: PS.State)
    requires y.Valid() && p.Valid() && y.source.next + 2 < TWO_64 && k < TWO_64 && OwnerShows(y, m, k, s)
    requires s.up != [] && (s.up[0].Sub? || s.up[0].Unsub?) && p.data == UpPackage(k, s.up[0])
    modifies y, y.source, y.dev`pending, y.dev.transport
    ensures y.Valid() && OwnerShows(y, m, k, PS.Step(s, PS.ProcessUp(extra)))
    ensures y.dev.transport.stream == old(y.dev.transport.stream)
  {
    UpFields(k, s.up[0]);
    hide UpPackage, NidOf, DecodeSet, FindNid, UpdatedBytes, AsRuled, Answered, DecodeAttach, DecodeChildAdded,
      ReadString;
    y.ProcessPackage(p, [], extra, None);
  }

  /** A question is answered with what the owner holds, and the reply in the model is that value. */
  method TakeQuestion(y: NodeSync, p: Package, ghost m: Node, ghost k: Nid, extra: bool, ghost s: PS.State)
    requires y.Valid() && p.Valid() && y.source.next + 2 < TWO_64 && k < TWO_64 && OwnerShows(y, m, k, s)
    requires s.up != [] && s.up[0].Get? && p.data == UpPackage(k, s.up[0])
    requires forall n :: n in y.values ==> Fits(y.values[n])
    modifies y, y.source, y.dev`pending, y.dev.transport
    ensures y.Valid() && OwnerShows(y, m, k, PS.Step(s, PS.ProcessUp(extra)))
    ensures var t := PS.Step(s, PS.ProcessUp(extra));
      && t.reply == Some(s.owner)
      && y.dev.transport.stream
           == old(y.dev.transport.stream) + Answered(old(y.dev.pending), p, GetReply(k, t.reply))
  {
    UpFields(k, s.up[0]);
    hide UpPackage, NidOf, DecodeSet, FindNid, UpdatedBytes, AsRuled, Answered, DecodeAttach, DecodeChildAdded,
      ReadString, GetReply;
    y.ProcessPackage(p, [], extra, None);
  }

  /** What working a command off puts on the stream, if it is the package `p`: the UPDATEDs it adds to those
      under way, or the reply to a question. */
  function Written(k: Nid, s: PS.State, t: PS.State, pending: map<Package, msgid>, p: Package): bytes
    requires s.up != [] && |s.down| <= |t.down|
  {
    if s.up[0].Get? then Answered(pending, p, GetReply(k, t.reply)) else DownBytes(k, t.down[|s.down|..])
  }

  /** The worker, given the package of the first command under way, takes the steps that work that command off. */
  method TakeCommand(y: NodeSync, p: Package, ghost m: Node, ghost k: Nid, extra: bool, ghost s: PS.State)
    requires y.Valid() && p.Valid() && y.source.next + 2 < TWO_64 && k < TWO_64 && OwnerShows(y, m, k, s)
    requires s.up != [] && p.data == UpPackage(k, s.up[0]) && Fits(p.data)
    requires forall n :: n in y.values ==> Fits(y.values[n])
    modifies y, y.source, y.dev`pending, y.dev.transport
    ensures y.Valid() && PS.IsRun(s, Working(s, extra))
    ensures var t := PS.After(s, Working(s, extra));
      && OwnerShows(y, m, k, t) && |s.down| <= |t.down|
      && y.dev.transport.stream == old(y.dev.transport.stream) + Written(k, s, t, old(y.dev.pending), p)
  {
    var cmd := p.GetCmd();
    UpFields(k, s.up[0]);
    OneStep(s, PS.ProcessUp(extra));
    DownOne(k, []);
    hide PS.IsRun, PS.After, Taking, UpPackage, NidOf, CmdOf, DecodeSet, OwnerShows, DownBytes, Answered, GetReply;
    if cmd == CMD_PROP_SET_VALUE {
      TakeSet(y, p, m, k, extra, s);
      assert (s.down + Copies(s.watched, s.up[0].v, extra))[|s.down|..] == Copies(s.watched, s.up[0].v, extra);
    } else if cmd == CMD_PROP_GET_VALUE {
      TakeQuestion(y, p, m, k, extra, s);
    } else {
      TakeSubscription(y, p, m, k, extra, s);
      assert s.down[|s.down|..] == [];
    }
  }

  /** A change of the owner, and what it tells on that. */
  function Setting(s: PS.State, v: bytes, extra: bool): seq<PS.Event> {
    [PS.OwnerSet(v, extra)] + Notifications(s.watched, v, extra)
  }

  lemma SettingRun(s: PS.State, v: bytes, extra: bool)
    requires s.notes == 0 && s.telling == multiset{}
    ensures PS.IsRun(s, Setting(s, v, extra))
    ensures var t := PS.After(s, Setting(s, v, extra));
      Told(s.(owner := v), t, Copies(s.watched, v, extra)) && t.notes == 0
  {
    var s1 := PS.Step(s, PS.OwnerSet(v, extra));
    AllNotified(s1, extra);
    hide PS.IsRun, PS.After, Notifications;
    FirstThen(s, PS.OwnerSet(v, extra), Notifications(s.watched, v, extra));
  }

  /** The application sets the owner. */
  method SetOwner(y: NodeSync, m: Node, v: bytes, extra: bool, ghost k: Nid, ghost s: PS.State)
    requires y.Valid() && OwnerShows(y, m, k, s) && Fits(v)
    modifies y`values, y`changes, y.dev.transport
    ensures y.Valid() && PS.IsRun(s, Setting(s, v, extra))
    ensures var t := PS.After(s, Setting(s, v, extra));
      && OwnerShows(y, m, k, t) && t.down == s.down + Copies(s.watched, v, extra)
      && y.dev.transport.stream == old(y.dev.transport.stream) + DownBytes(k, Copies(s.watched, v, extra))
  {
    SettingRun(s, v, extra);
    DownOne(k, v);
    hide PS.IsRun, PS.After, FindNid, UpdatedBytes, DownBytes, Setting;
    y.Change(m, v, extra);
  }

  // ---------- The proxy's end ----------

  /** The proxy `n` of the nid, which is not receiving. */
  ghost predicate ProxyShows(x: NodeSync, n: Node, k: Nid, s: PS.State)
    reads x
  {
    && k in x.tracked && x.tracked[k] == n && n in x.own && x.own[n].nid == k && n in x.values
    && n !in x.deserializing && n !in x.watched && s.proxy == x.values[n] && s.sending == multiset{}
  }

  function ProxySetting(v: bytes): seq<PS.Event> {
    if v == [] then [PS.ProxySet(v)] else [PS.ProxySet(v)] + [PS.WriteSet(v)]
  }

  lemma ProxySettingRun(s: PS.State, v: bytes)
    requires s.sending == multiset{}
    ensures PS.IsRun(s, ProxySetting(v))
    ensures var t := PS.After(s, ProxySetting(v));
      && t.proxy == v && t.sending == multiset{} && t.up == s.up + (if v == [] then [] else [PS.SetTo(v)])
  {
    var s1 := PS.Step(s, PS.ProxySet(v));
    assert [PS.ProxySet(v)][1..] == [];
    if v != [] {
      assert s1.sending == multiset{v};
      assert PS.Enabled(s1, PS.WriteSet(v));
      assert multiset{v} - multiset{v} == multiset{};
      OneStep(s1, PS.WriteSet(v));
      FirstThen(s, PS.ProxySet(v), [PS.WriteSet(v)]);
    }
  }

  /** The application sets the proxy. */
  method SetProxy(x: NodeSync, n: Node, v: bytes, ghost k: Nid, ghost s: PS.State)
    requires x.Valid() && ProxyShows(x, n, k, s) && Fits(v)
    modifies x`values, x.dev.transport
    ensures x.Valid() && PS.IsRun(s, ProxySetting(v))
    ensures var t := PS.After(s, ProxySetting(v));
      && ProxyShows(x, n, k, t)
      && x.dev.transport.stream == old(x.dev.transport.stream) + if v == [] then [] else UpBytes(k, PS.SetTo(v), 0)
  {
    ProxySettingRun(s, v);
    hide PS.IsRun, PS.After, Frame, WithWord, MakePackage;
    x.StoreValue(n, v);
  }

  /** The proxy's first listener comes, or its last one leaves. */
  method Listen(x: NodeSync, n: Node, on: bool, k: Nid, ghost s: PS.State)
    requires x.Valid() && ProxyShows(x, n, k, s) && k < TWO_64
    modifies x.dev.transport
    ensures x.Valid() && ProxyShows(x, n, k, PS.Step(s, if on then PS.AddFirst else PS.RemoveLast))
    ensures PS.Step(s, if on then PS.AddFirst else PS.RemoveLast).up == s.up + [if on then PS.Sub else PS.Unsub]
    ensures x.dev.transport.stream
      == old(x.dev.transport.stream) + UpBytes(k, if on then PS.Sub else PS.Unsub, 0)
  {
    hide Frame, WithWord, MakePackage;
    if on {
      x.SubscribeProp(k);
    } else {
      x.UnsubscribeProp(k);
    }
  }

  /** A caller asks for the owner's value. */
  method Ask(x: NodeSync, n: Node, k: Nid, ghost s: PS.State) returns (id: msgid)
    requires x.Valid() && ProxyShows(x, n, k, s) && k < TWO_64 && !s.getting
    modifies x.dev, x.dev.transport
    ensures x.Valid() && ProxyShows(x, n, k, PS.Step(s, PS.GetStart)) && id == Generate(old(x.dev.ids)).0
    ensures PS.Step(s, PS.GetStart).up == s.up + [PS.Get]
    ensures x.dev.transport.stream == old(x.dev.transport.stream) + UpBytes(k, PS.Get, id)
  {
    hide Frame, WithWord, MakePackage;
    var asked := x.StartRead(k, false);
    id := asked.value;
  }

  /** The worker, given the package of the first UPDATED under way, takes the step that works it off. */
  method TakeUpdate(x: NodeSync, p: Package, n: Node, ghost k: Nid, extra: bool, meanwhile: Option<bytes>,
      ghost s: PS.State)
    requires x.Valid() && p.Valid() && x.source.next + 2 < TWO_64 && k < TWO_64 && ProxyShows(x, n, k, s)
    requires !s.getting && s.down != [] && p.data == DownPackage(k, s.down[0]) && Fits(s.down[0])
    requires meanwhile.Some? ==> Fits(meanwhile.value)
    modifies x, x.source, x.dev`pending, x.dev.transport
    ensures x.Valid() && ProxyShows(x, n, k, PS.Step(s, PS.ProcessUpdated(meanwhile)))
    ensures x.dev.transport.stream == old(x.dev.transport.stream)
  {
    DownFields(k, s.down[0]);
    hide DownPackage, NidOf, DecodeSet, FindNid, UpdatedBytes, AsRuled, Answered, DecodeAttach, DecodeChildAdded,
      ReadString;
    x.ProcessPackage(p, [], extra, meanwhile);
  }

  lemma DownFields(k: Nid, v: bytes)
    requires k < TWO_64 && Fits(v)
    ensures var p := DownPackage(k, v);
      WellFormed(p) && NidOf(p) == k && CmdOf(p) == CMD_PROP_VALUE_UPDATED && ReadString(p, 0).0 == v
  {
    ValueRoundTrip(CMD_PROP_VALUE_UPDATED, k, v, 0);
    hide ReadString;
    assert DownPackage(k, v) + Zeros(0) == DownPackage(k, v);
  }

  /** The caller takes the answer in, however it was padded on its way. */
  method TakeReply(x: NodeSync, rep: Package, n: Node, ghost k: Nid, extra: bool, meanwhile: Option<bytes>,
      ghost pad: nat, ghost s: PS.State)
    requires x.Valid() && rep.Valid() && k < TWO_64 && ProxyShows(x, n, k, s) && FindNid(x.tracked, n).Some?
    requires s.getting && s.reply.Some? && rep.data == GetReply(k, s.reply) + Zeros(pad) && Fits(s.reply.value)
    requires meanwhile.Some? ==> Fits(meanwhile.value)
    modifies x`values, x`changes, x`deserializing, x.dev.transport
    ensures x.Valid() && ProxyShows(x, n, k, PS.Step(s, PS.GetDone(meanwhile)))
    ensures x.dev.transport.stream == old(x.dev.transport.stream)
  {
    GetReplyRead(k, s.reply, pad);
    hide FindNid, UpdatedBytes, ReadString, GetReply;
    x.TakeAnswer(n, rep, extra, meanwhile);
  }
}
