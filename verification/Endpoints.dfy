/** The dispatcher as it is written takes the steps of an endpoint: RequestReply, whose lemmas are
    about all runs, is about these methods. */
module Endpoints {
  import opened Bytes
  import opened Packages
  import opened Framing
  import opened MessageIds
  import opened Dispatcher
  import RR = RequestReply

  /** The two tables hold the same requests under the same ids; `names` says which is which. */
  ghost predicate SameTable(pending: map<Package, msgid>, table: map<nat, RR.Pending>, names: map<nat, Package>) {
    && names.Keys == table.Keys
    && (forall h :: h in names ==> names[h] in pending && pending[names[h]] == table[h].id)
    && (forall g, h :: g in names && h in names && names[g] == names[h] ==> g == h)
    && (forall p :: p in pending ==> exists h :: h in names && names[h] == p)
  }

  lemma TableWithout(pending: map<Package, msgid>, table: map<nat, RR.Pending>, names: map<nat, Package>, h: nat)
    requires SameTable(pending, table, names) && h in names
    ensures SameTable(pending - {names[h]}, table - {h}, names - {h})
  {
    forall p | p in pending - {names[h]} ensures exists g :: g in names - {h} && (names - {h})[g] == p {
      var g :| g in names && names[g] == p;
      assert g in names - {h};
    }
  }

  lemma TableWith(
    pending: map<Package, msgid>, table: map<nat, RR.Pending>, names: map<nat, Package>, h: nat, p: Package,
      entry: RR.Pending)
    requires SameTable(pending, table, names) && h !in names && p !in pending
    ensures SameTable(pending[p := entry.id], table[h := entry], names[h := p])
  {
    var names', pending' := names[h := p], pending[p := entry.id];
    forall q | q in pending' ensures exists g :: g in names' && names'[g] == q {
      if q == p {
        assert h in names' && names'[h] == q;
      } else {
        var g :| g in names && names[g] == q;
        assert g in names' && names'[g] == q;
      }
    }
  }

  /** The dispatcher is in the endpoint's state. */
  ghost predicate Shows(d: RequestReplyDispatcher, e: RR.Endpoint, names: map<nat, Package>)
    reads d, d.incoming
  {
    && d.ids == e.ids && d.received == e.received && d.incoming.data == e.slot
    && SameTable(d.pending, e.pending, names) && forall h :: h in names ==> h < e.nextHandle
  }

  /** What a frame in flight is on the stream. */
  function OnStream(w: RR.Wire): bytes { Frame(WithWord(w.word, w.pkg)) }

  method Begin(transport: Transport) returns (d: RequestReplyDispatcher)
    ensures fresh(d) && d.Valid() && d.transport == transport && Shows(d, RR.FreshEndpoint, map[])
  {
    d := new RequestReplyDispatcher(transport);
  }

  /** `send`, up to where it blocks. */
  method Send(d: RequestReplyDispatcher, req: Package, ghost e: RR.Endpoint, ghost names: map<nat, Package>,
      ghost t: nat)
    requires d.Valid() && d.transport.whole && Shows(d, e, names) && req.Valid() && WritablePackage(req.data)
    modifies d, d.transport
    ensures d.Valid() && Shows(d, RR.Sending(e, t), names)
    ensures d.transport.stream == old(d.transport.stream) + OnStream(RR.Wire(Generate(e.ids).0, e.nextTag,
      Copied(req.data)))
  {
    hide Generate, Frame, WithWord;
    var ok, id := d.BeginSend(req);
  }

  /** `write`: a package that nobody waits on. The endpoint stays as it is; the frame is that of the step. */
  method Write(d: RequestReplyDispatcher, p: Package, ghost n: RR.Net, ghost names: map<nat, Package>)
    requires d.Valid() && d.transport.whole && Shows(d, n.a, names) && p.Valid() && Writable(WithWord(0, p.data))
    modifies d.transport
    ensures d.Valid() && Shows(d, RR.StepLeft(n, RR.Write(p.data)).a, names)
    ensures RR.StepLeft(n, RR.Write(p.data)).ab == n.ab + [RR.Wire(0, 0, p.data)]
    ensures d.transport.stream == old(d.transport.stream) + OnStream(RR.Wire(0, 0, p.data))
  {
    hide Frame, WithWord, SameTable;
    var _ := d.Write(p);
  }

  /** `send`, once its reply was flagged. */
  method Wake(d: RequestReplyDispatcher, resp: Package, ghost e: RR.Endpoint, ghost names: map<nat, Package>, t: nat,
      id: msgid)
    requires d.Valid() && Shows(d, e, names) && t in e.senders && RR.Ready(e, t) && id == e.senders[t].id
    requires resp != d.incoming && resp !in d.pending && resp.Valid()
    modifies d`ids, resp
    ensures d.Valid() && Shows(d, RR.Waking(e, t), names) && resp.data == Copied(e.slot)
  {
    d.FinishSend(id, resp);
  }

  /** `reply` to a request that is in the table. */
  method Reply(d: RequestReplyDispatcher, rep: Package, ghost e: RR.Endpoint, ghost names: map<nat, Package>,
      ghost h: nat, req: Package)
    requires d.Valid() && d.transport.whole && Shows(d, e, names) && h in names && names[h] == req
    requires rep.Valid() && Writable(WithWord(0, rep.data))
    modifies d`pending, d.transport
    ensures d.Valid() && Shows(d, RR.Answering(e, h, rep.data), names - {h})
    ensures d.transport.stream
      == old(d.transport.stream) + OnStream(RR.Wire(Flagged(e.pending[h].id), e.pending[h].tag, rep.data))
  {
    hide Frame, WithWord, Flagged;
    assert req in d.pending && d.pending[req] == e.pending[h].id;
    TableWithout(d.pending, e.pending, names, h);
    hide SameTable;
    var ok := d.Reply(req, rep);
  }

  /** One frame received; the package in it, unless it is a reply, is handed to the listener. */
  method Receive(d: RequestReplyDispatcher, frame: bytes, ghost e: RR.Endpoint, ghost names: map<nat, Package>,
      ghost w: RR.Wire)
    returns (ghost names': map<nat, Package>)
    requires d.Valid() && Shows(d, e, names) && |frame| >= ID_BYTES + HEADER_SIZE
    requires frame == WithWord(w.word, w.pkg)
    modifies d, d.incoming
    ensures d.Valid() && Shows(d, RR.Demuxed(e, w), names')
    ensures if Unflagged(w.word) != 0 && IsReply(w.word) then d.notified == old(d.notified)
      else
        && |d.notified| == |old(d.notified)| + 1 && d.notified[..|old(d.notified)|] == old(d.notified)
        && d.notified[|old(d.notified)|].data == w.pkg
  {
    WordBack(w.word, w.pkg);
    hide WithWord, WordOf;
    ghost var table, was := d.pending, d.notified;
    assert e.nextHandle !in names && names.Keys == e.pending.Keys;
    d.ProcessFrame(frame);
    names' := names;
    if Unflagged(w.word) != 0 && !IsReply(w.word) {
      names' := names[e.nextHandle := d.notified[|was|]];
      TableWith(table, e.pending, names, e.nextHandle, d.notified[|was|], RR.Pending(Unflagged(w.word), w.tag));
    }
    hide SameTable;
  }
}
