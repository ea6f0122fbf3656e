/** The request/reply dispatcher: numbered requests, replies and one-way packages over one codec. */
module Dispatcher {
  import opened Bytes
  import opened Packages
  import opened Framing
  import opened MessageIds

  const ID_BYTES: nat := 2

  /** What the receiver of a frame makes of it. */
  datatype Event =
    | OneWay(pkg: bytes)
    | Request(id: msgid, pkg: bytes)
    | Response(id: msgid, pkg: bytes)

  function WordOf(frame: bytes): msgid
    requires |frame| >= ID_BYTES
  {
    Widths();
    DecodeLE(frame[..ID_BYTES])
  }

  function Demux(frame: bytes): Event
    requires |frame| >= ID_BYTES
  {
    var word := WordOf(frame);
    var body := frame[ID_BYTES..];
    if Unflagged(word) == 0 then OneWay(body)
    else if IsReply(word) then Response(Unflagged(word), body)
    else Request(Unflagged(word), body)
  }

  /** A frame as the dispatcher writes it: the message id word, then the package. */
  function WithWord(word: msgid, pkg: bytes): bytes { EncodeLE(word, ID_BYTES) + pkg }

  predicate WritablePackage(pkg: bytes) { WellFormed(pkg) && Writable(WithWord(0, Copied(pkg))) }

  class RequestReplyDispatcher {
    const codec: PackageCodec
    const transport: Transport
    const incoming: Package  // the one slot that replies arrive in
    var ids: Allocator
    var received: map<msgid, bool>  // sender_response_received
    var pending: map<Package, msgid>  // requests delivered and not yet answered
    var notified: seq<Package>  // packages handed to the listener, in order

    ghost predicate Valid()
      reads this, codec, incoming, pending.Keys
    {
      && codec.Valid()
      && incoming.Valid() && incoming !in pending && incoming !in notified
      && forall p :: p in pending ==> p.Valid()
    }

    /** The first id made, 0, is thrown away. */
    constructor (transport: Transport)
      ensures Valid() && fresh(codec) && fresh(incoming) && this.transport == transport
      ensures ids == Allocator(1, []) && received == map[] && pending == map[] && notified == []
      ensures codec.Unparsed() == [] && incoming.data == Zeros(HEADER_SIZE)
    {
      this.transport := transport;
      codec := new PackageCodec();
      incoming := new Package();
      HeaderOfZeros();
      ids := Allocator(0, []);
      received, pending, notified := map[], map[], [];
      new;
      var _ := GenerateMsgid();
    }

    method GenerateMsgid() returns (id: msgid)
      modifies this`ids
      ensures (id, ids) == Generate(old(ids))
    {
      if |ids.free| > 0 {
        id := ids.free[|ids.free| - 1];
        ids := ids.(free := ids.free[..|ids.free| - 1]);
      } else {
        id := ids.next;
        ids := ids.(next := Successor(ids.next));
      }
    }

    method ReleaseMsgid(id: msgid)
      modifies this`ids
      ensures ids == Release(old(ids), id)
    {
      ids := ids.(free := ids.free + [id]);
    }

    method WriteWord(p: Package, word: msgid) returns (ok: bool)
      requires p.Valid() && Writable(WithWord(word, p.data))
      modifies transport
      ensures transport.whole ==> ok
      ensures ok ==> transport.stream == old(transport.stream) + Frame(WithWord(word, p.data))
    {
      var buf := EncodeLE(word, ID_BYTES) + p.data;
      ok := WriteFrame(transport, buf);
    }

    /** A one-way package goes out as it is. */
    method Write(p: Package) returns (ok: bool)
      requires p.Valid() && Writable(WithWord(0, p.data))
      modifies transport
      ensures transport.whole ==> ok
      ensures ok ==> transport.stream == old(transport.stream) + Frame(WithWord(0, p.data))
    {
      ok := WriteWord(p, 0);
    }

    /** `send` up to the point where it blocks. The request is passed by value, so a copy of it
        goes out. When the write fails the id is given back at once. */
    method BeginSend(req: Package) returns (ok: bool, id: msgid)
      requires Valid() && req.Valid() && WritablePackage(req.data)
      modifies this, transport
      ensures Valid() && unchanged(`pending) && unchanged(`notified)
      ensures id == Generate(old(ids)).0 && received == old(received)[id := false]
      ensures transport.whole ==> ok
      ensures ok ==> ids == Generate(old(ids)).1
      ensures ok ==> transport.stream == old(transport.stream) + Frame(WithWord(id, Copied(req.data)))
      ensures !ok ==> ids == Release(Generate(old(ids)).1, id)
    {
      var copy := new Package.Copy(req);
      id := GenerateMsgid();
      received := received[id := false];
      assert |WithWord(id, copy.data)| == |WithWord(0, Copied(req.data))|;
      ok := WriteWord(copy, id);
      if !ok {
        ReleaseMsgid(id);
      }
    }

    /** `send` after its reply was flagged: the id is given back and the slot is copied out. */
    method FinishSend(id: msgid, resp: Package)
      requires Valid() && id in received && received[id]
      requires resp != incoming && resp !in pending && resp.Valid()
      modifies this`ids, resp
      ensures Valid() && resp.Valid()
      ensures ids == Release(old(ids), id) && resp.data == Copied(incoming.data)
    {
      ReleaseMsgid(id);
      resp.Assign(incoming);
    }

    /** Answers a request that is still pending, once; anything else is refused. */
    method Reply(req: Package, reply: Package) returns (ok: bool)
      requires Valid() && reply.Valid() && Writable(WithWord(0, reply.data))
      modifies this`pending, transport
      ensures Valid()
      ensures pending == old(pending) - {req}
      ensures req in old(pending) && transport.whole ==> ok
      ensures req !in old(pending) ==> !ok && transport.stream == old(transport.stream)
      ensures ok ==> transport.stream == old(transport.stream) + Frame(WithWord(Flagged(old(pending)[req]), reply.data))
    {
      if req !in pending {
        assert pending - {req} == pending;
        return false;
      }
      var word := Flagged(pending[req]);
      assert |WithWord(word, reply.data)| == |WithWord(0, reply.data)|;
      ok := WriteWord(reply, word);
      pending := pending - {req};
    }

    /** One frame: a reply fills the slot and flags its sender, a request is entered in the
        table and handed on, a one-way package is only handed on. */
    method ProcessFrame(frame: bytes)
      requires Valid() && |frame| >= ID_BYTES + HEADER_SIZE
      modifies this, incoming
      ensures Valid() && unchanged(`ids)
      ensures match Demux(frame)
        case Response(id, pkg) =>
          incoming.data == Copied(pkg) && received == old(received)[id := true]
          && unchanged(`pending) && unchanged(`notified)
        case Request(id, pkg) =>
          unchanged(incoming) && unchanged(`received)
          && |notified| == |old(notified)| + 1 && fresh(notified[|old(notified)|])
          && notified == old(notified) + [notified[|old(notified)|]]
          && notified[|old(notified)|].data == pkg
          && pending == old(pending)[notified[|old(notified)|] := id]
        case OneWay(pkg) =>
          unchanged(incoming) && unchanged(`received) && unchanged(`pending)
          && |notified| == |old(notified)| + 1 && fresh(notified[|old(notified)|])
          && notified == old(notified) + [notified[|old(notified)|]]
          && notified[|old(notified)|].data == pkg
    {
      var word := WordOf(frame);
      var res := new Package();
      res.Resize(|frame| - ID_BYTES);
      res.data := frame[ID_BYTES..];
      var isReply := IsReply(word);
      word := Unflagged(word);
      if word != 0 {
        if isReply {
          incoming.Assign(res);
          received := received[word := true];
        } else {
          pending := pending[res := word];
          notified := notified + [res];
        }
      } else {
        notified := notified + [res];
      }
    }

    /** A chunk of the stream: the codec's frames are demultiplexed one after the other. Afterwards
        the packages handed on, the table, the flags and the slot are those that the frames in it
        amount to. */
    method ProcessChunk(data: bytes)
      requires Valid()
      requires forall f :: f in Drain(codec.Unparsed() + data).0 ==> |f| >= ID_BYTES + HEADER_SIZE
      modifies this, incoming, codec
      ensures Valid() && unchanged(`ids)
      ensures codec.Unparsed() == Drain(old(codec.Unparsed()) + data).1
      ensures var frames := Drain(old(codec.Unparsed()) + data).0;
        && |old(notified)| <= |notified| && notified[..|old(notified)|] == old(notified)
        && Hold(notified[|old(notified)|..], Handed(frames))
        && pending == TableAfter(old(pending), notified[|old(notified)|..], HandedIds(frames))
        && received == ReceivedAfter(old(received), frames) && incoming.data == SlotAfter(old(incoming.data), frames)
    {
      hide Demux, Handed, HandedIds, ReceivedAfter, SlotAfter, TableAfter, Drain, Hold;
      var frames := codec.ProcessNotification(data);
      NoFrames(pending, received, incoming.data);
      ghost var left := codec.Unparsed();
      ghost var n := |notified|;
      assert frames[..0] == [] && notified[n..] == [];
      for i := 0 to |frames|
        invariant Valid() && unchanged(`ids) && codec.Unparsed() == left
        invariant n <= |notified| && notified[..n] == old(notified)
        invariant |HandedIds(frames[..i])| == |notified| - n
        invariant Hold(notified[n..], Handed(frames[..i]))
        invariant pending == TableAfter(old(pending), notified[n..], HandedIds(frames[..i]))
        invariant received == ReceivedAfter(old(received), frames[..i])
        invariant incoming.data == SlotAfter(old(incoming.data), frames[..i])
      {
        assert frames[i] in frames;
        FrameMore(frames, i, old(received), old(incoming.data));
        ghost var was := notified;
        assert incoming !in was[n..];
        ProcessFrame(frames[i]);
        if |notified| > |was| {
          assert notified[n..] == was[n..] + [notified[|was|]];
          HoldMore(was[n..], Handed(frames[..i]), notified[|was|]);
          TableStep(old(pending), was[n..], notified[|was|], frames, i);
        } else {
          assert notified == was;
        }
      }
      assert frames[..|frames|] == frames;
    }
  }

  /** The packages that a list of frames hands to the listener: all but the replies. */
  function Handed(frames: seq<bytes>): seq<bytes>
    requires forall f :: f in frames ==> |f| >= ID_BYTES
  {
    if frames == [] then [] else
      var event := Demux(frames[|frames| - 1]);
      Handed(frames[..|frames| - 1]) + (if event.Response? then [] else [event.pkg])
  }

  /** For each package handed on, the id it is to be answered under, if any. */
  function HandedIds(frames: seq<bytes>): (ids: seq<Option<msgid>>)
    requires forall f :: f in frames ==> |f| >= ID_BYTES
    ensures |ids| == |Handed(frames)|
  {
    if frames == [] then [] else
      HandedIds(frames[..|frames| - 1]) +
      (match Demux(frames[|frames| - 1])
       case OneWay(_) => [None]
       case Request(id, _) => [Some(id)]
       case Response(_, _) => [])
  }

  /** The table once these packages were handed on under these ids. */
  function TableAfter(pending: map<Package, msgid>, handed: seq<Package>, ids: seq<Option<msgid>>): map<Package, msgid>
    requires |ids| == |handed|
  {
    if handed == [] then pending else
      var n := |handed| - 1;
      var before := TableAfter(pending, handed[..n], ids[..n]);
      if ids[n].None? then before else before[handed[n] := ids[n].value]
  }

  /** The flags once these frames were processed: every reply has flagged its id. */
  function ReceivedAfter(received: map<msgid, bool>, frames: seq<bytes>): map<msgid, bool>
    requires forall f :: f in frames ==> |f| >= ID_BYTES
  {
    if frames == [] then received else
      var before := ReceivedAfter(received, frames[..|frames| - 1]);
      match Demux(frames[|frames| - 1]) case Response(id, _) => before[id := true] case _ => before
  }

  /** The slot once these frames were processed: it holds the last reply, if there was one. */
  function SlotAfter(slot: bytes, frames: seq<bytes>): bytes
    requires forall f :: f in frames ==> |f| >= ID_BYTES
  {
    if frames == [] then slot else
      match Demux(frames[|frames| - 1])
      case Response(_, pkg) => Copied(pkg)
      case _ => SlotAfter(slot, frames[..|frames| - 1])
  }

  lemma NoFrames(pending: map<Package, msgid>, received: map<msgid, bool>, slot: bytes)
    ensures Handed([]) == [] && HandedIds([]) == [] && TableAfter(pending, [], []) == pending
    ensures ReceivedAfter(received, []) == received && SlotAfter(slot, []) == slot && Hold([], Handed([]))
  {
  }

  /** These packages hold these bytes, one by one. */
  predicate Hold(ps: seq<Package>, datas: seq<bytes>)
    reads ps
  {
    |ps| == |datas| && forall i :: 0 <= i < |ps| ==> ps[i].data == datas[i]
  }

  lemma HoldMore(ps: seq<Package>, datas: seq<bytes>, p: Package)
    requires Hold(ps, datas)
    ensures Hold(ps + [p], datas + [p.data])
  {
  }

  lemma TableMore(pending: map<Package, msgid>, handed: seq<Package>, p: Package, ids: seq<Option<msgid>>,
      id: Option<msgid>)
    requires |ids| == |handed|
    ensures var before := TableAfter(pending, handed, ids);
      TableAfter(pending, handed + [p], ids + [id]) == if id.None? then before else before[p := id.value]
  {
    assert (handed + [p])[..|handed|] == handed && (ids + [id])[..|ids|] == ids;
  }

  /** The table after one frame more, if that hands a package on. */
  lemma TableStep(pending: map<Package, msgid>, handed: seq<Package>, p: Package, frames: seq<bytes>, i: nat)
    requires i < |frames| && forall f :: f in frames ==> |f| >= ID_BYTES
    requires |HandedIds(frames[..i])| == |handed| && !Demux(frames[i]).Response?
    ensures |HandedIds(frames[..i + 1])| == |handed| + 1
    ensures var before := TableAfter(pending, handed, HandedIds(frames[..i]));
      TableAfter(pending, handed + [p], HandedIds(frames[..i + 1]))
        == if Demux(frames[i]).Request? then before[p := Demux(frames[i]).id] else before
  {
    FrameMore(frames, i, map[], []);
    hide TableAfter, Handed, HandedIds, Demux;
    TableMore(pending, handed, p, HandedIds(frames[..i]),
      if Demux(frames[i]).Request? then Some(Demux(frames[i]).id) else None);
  }

  lemma FrameMore(frames: seq<bytes>, i: nat, received: map<msgid, bool>, slot: bytes)
    requires i < |frames| && forall f :: f in frames ==> |f| >= ID_BYTES
    ensures var before, after := frames[..i], frames[..i + 1];
      match Demux(frames[i])
      case OneWay(pkg) =>
        && Handed(after) == Handed(before) + [pkg] && HandedIds(after) == HandedIds(before) + [None]
        && ReceivedAfter(received, after) == ReceivedAfter(received, before)
          && SlotAfter(slot, after) == SlotAfter(slot, before)
      case Request(id, pkg) =>
        && Handed(after) == Handed(before) + [pkg] && HandedIds(after) == HandedIds(before) + [Some(id)]
        && ReceivedAfter(received, after) == ReceivedAfter(received, before)
          && SlotAfter(slot, after) == SlotAfter(slot, before)
      case Response(id, pkg) =>
        && Handed(after) == Handed(before) && HandedIds(after) == HandedIds(before)
        && ReceivedAfter(received, after) == ReceivedAfter(received, before)[id := true]
          && SlotAfter(slot, after) == Copied(pkg)
  {
    assert frames[..i + 1][..i] == frames[..i];
    assert Handed(frames[..i]) + [] == Handed(frames[..i]) && HandedIds(frames[..i]) + [] == HandedIds(frames[..i]);
    hide Demux;
  }

  // ---------- End-to-end delivery ----------

  /** A successful call on the sending dispatcher. */
  datatype Call =
    | Write(pkg: bytes)
    | Send(id: msgid, pkg: bytes)
    | Reply(id: msgid, pkg: bytes)

  /** The frame the call appends to the stream, as the methods above state it. */
  function FrameOf(c: Call): (f: bytes)
    ensures |f| >= ID_BYTES
  {
    match c
    case Write(p) => WithWord(0, p)
    case Send(id, p) => WithWord(id, Copied(p))
    case Reply(id, p) => WithWord(Flagged(id), p)
  }

  /** What the other end should see: the same kind, id and package, a request padded once. */
  function Seen(c: Call): Event {
    match c
    case Write(p) => OneWay(p)
    case Send(id, p) => Request(id, Copied(p))
    case Reply(id, p) => Response(id, p)
  }

  predicate CarriesId(c: Call) { c.Write? || Usable(c.id) }

  lemma WordBack(word: msgid, pkg: bytes)
    ensures WordOf(WithWord(word, pkg)) == word && WithWord(word, pkg)[ID_BYTES..] == pkg
  {
    Widths();
    hide EncodeLE, DecodeLE;
    DecodeEncodeLE(word, ID_BYTES);
    assert WithWord(word, pkg)[..ID_BYTES] == EncodeLE(word, ID_BYTES);
  }

  /** The id word keeps a call's kind and id apart exactly when the id is neither 0 nor flagged. */
  lemma DemuxInvertsIff(c: Call)
    ensures Demux(FrameOf(c)) == Seen(c) <==> CarriesId(c)
  {
    hide WordOf, WithWord;
    match c {
      case Write(p) => WordBack(0, p);
      case Send(id, p) => WordBack(id, Copied(p));
      case Reply(id, p) => WordBack(Flagged(id), p);
    }
  }

  function Frames(calls: seq<Call>): (fs: seq<bytes>)
    ensures |fs| == |calls| && forall i :: 0 <= i < |fs| ==> fs[i] == FrameOf(calls[i])
  {
    seq(|calls|, i requires 0 <= i < |calls| => FrameOf(calls[i]))
  }

  /** Any calls, their bytes cut up in any way: the other end sees the same events in order,
      and a prefix of them while bytes are still missing. */
  lemma EndToEnd(calls: seq<Call>, chunks: seq<bytes>, more: bytes)
    requires forall c :: c in calls ==> CarriesId(c) && Writable(FrameOf(c))
    requires Concat(chunks) + more == Stream(Frames(calls))
    ensures var seen := Run([], chunks).0;
      && |seen| <= |calls|
      && (more == [] ==> |seen| == |calls|)
      && forall i :: 0 <= i < |seen| ==> |seen[i]| >= ID_BYTES && Demux(seen[i]) == Seen(calls[i])
  {
    hide Run, Stream, Concat, Demux, FrameOf;
    forall f | f in Frames(calls) ensures f != [] && |f| < TWO_32 {
      var i :| 0 <= i < |calls| && f == Frames(calls)[i];
      assert calls[i] in calls;
    }
    FramesSurviveChunking(Frames(calls), chunks, more);
    forall i | 0 <= i < |Run([], chunks).0|
      ensures |Run([], chunks).0[i]| >= ID_BYTES && Demux(Run([], chunks).0[i]) == Seen(calls[i])
    {
      assert Run([], chunks).0[i] == Frames(calls)[i] == FrameOf(calls[i]);
      assert calls[i] in calls;
      DemuxInvertsIff(calls[i]);
    }
  }

  /** A reply crosses two more copies, into the slot and out of it: `send` returns the bytes
      that were replied and 18 zeros; a request reaches its handler with 9 zeros. */
  lemma Padding(c: Call)
    ensures c.Send? ==> Seen(c).pkg == c.pkg + Zeros(9)
    ensures c.Reply? ==> Copied(Copied(Seen(c).pkg)) == c.pkg + Zeros(18)
    ensures c.Write? ==> Seen(c).pkg == c.pkg
  {
    CopiesPad(c.pkg, 2);
    assert CopiedTimes(c.pkg, 2) == Copied(CopiedTimes(c.pkg, 1))
      && CopiedTimes(c.pkg, 1) == Copied(CopiedTimes(c.pkg, 0));
  }
}
