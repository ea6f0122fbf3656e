/** Two dispatchers joined by FIFO streams: what every interleaving of sends, receives, replies
    and wake-ups keeps. Frames are whole here; Dispatcher.EndToEnd says why they may be. */
module RequestReply {
  import opened Bytes
  import opened Packages
  import opened MessageIds

  /** A frame in flight. The tag numbers the request that the frame belongs to; it is
      bookkeeping for the proofs and is not sent. */
  datatype Wire = Wire(word: msgid, tag: nat, pkg: bytes)

  /** A caller blocked in `send`. `seenAt` is how many replies had been processed just after
      its own was. */
  datatype Sender = Sender(id: msgid, tag: nat, seenAt: nat)

  /** A request that reached its handler. */
  datatype Pending = Pending(id: msgid, tag: nat)

  datatype Endpoint = Endpoint(
    ids: Allocator,
    received: map<msgid, bool>,
    senders: map<nat, Sender>,
    slot: bytes,
    pending: map<nat, Pending>,
    // histories
    holder: map<msgid, nat>,  // the sender that each id in use was given to
    slotTag: nat,
    nextTag: nat,
    nextHandle: nat,
    repliesSeen: nat,
    requestsSeen: nat,
    repliesMade: nat,
    answered: map<nat, bytes>,  // the reply made to the peer's request with this tag
    peak: nat)                  // the most senders ever outstanding at once

  datatype Net = Net(a: Endpoint, b: Endpoint, ab: seq<Wire>, ba: seq<Wire>)

  datatype Act =
    | Send(t: nat, pkg: bytes)
    | Write(pkg: bytes)
    | Receive
    | Reply(h: nat, pkg: bytes)
    | Wake(t: nat)

  datatype Event = Event(left: bool, act: Act)

  function Flip(n: Net): Net { Net(n.b, n.a, n.ba, n.ab) }

  function Max(x: nat, y: nat): nat { if x > y then x else y }

  // ---------- Steps of the left endpoint ----------

  predicate EnabledLeft(n: Net, act: Act) {
    match act
    case Send(t, _) => t !in n.a.senders
    case Write(_) => true
    case Receive => n.ba != []
    case Reply(_, _) => true
    case Wake(t) => t in n.a.senders && Ready(n.a, t)
  }

  /** The sender's reply has been flagged. */
  predicate Ready(e: Endpoint, t: nat)
    requires t in e.senders
  {
    e.senders[t].id in e.received && e.received[e.senders[t].id]
  }

  function ReceiveReply(a: Endpoint, id: msgid, w: Wire): Endpoint {
    a.(slot := Copied(w.pkg), slotTag := w.tag, received := a.received[id := true], repliesSeen := a.repliesSeen + 1,
       senders := map t | t in a.senders ::
         if a.senders[t].id == id then a.senders[t].(seenAt := a.repliesSeen + 1) else a.senders[t])
  }

  function ReceiveRequest(a: Endpoint, id: msgid, w: Wire): Endpoint {
    a.(pending := a.pending[a.nextHandle := Pending(id, w.tag)], nextHandle := a.nextHandle + 1,
       requestsSeen := a.requestsSeen + 1)
  }

  function Demuxed(a: Endpoint, w: Wire): Endpoint {
    var id := Unflagged(w.word);
    if id == 0 then a
    else if IsReply(w.word) then ReceiveReply(a, id, w)
    else ReceiveRequest(a, id, w)
  }

  /** The endpoint once `send` has written its request and blocks. */
  function Sending(a: Endpoint, t: nat): Endpoint {
    var (id, ids) := Generate(a.ids);
    var senders := a.senders[t := Sender(id, a.nextTag, 0)];
    a.(ids := ids, received := a.received[id := false], senders := senders, holder := a.holder[id := t],
       nextTag := a.nextTag + 1, peak := Max(a.peak, |senders|))
  }

  /** The endpoint once `send` has returned. */
  function Waking(a: Endpoint, t: nat): Endpoint
    requires t in a.senders
  {
    var id := a.senders[t].id;
    a.(ids := Release(a.ids, id), senders := a.senders - {t}, holder := a.holder - {id})
  }

  /** The endpoint once a pending request has been replied to. */
  function Answering(a: Endpoint, h: nat, pkg: bytes): Endpoint
    requires h in a.pending
  {
    a.(pending := a.pending - {h}, repliesMade := a.repliesMade + 1, answered := a.answered[a.pending[h].tag := pkg])
  }

  function StepLeft(n: Net, act: Act): Net
    requires EnabledLeft(n, act)
  {
    var a := n.a;
    match act
    case Send(t, pkg) => n.(a := Sending(a, t), ab := n.ab + [Wire(Generate(a.ids).0, a.nextTag, Copied(pkg))])
    case Write(pkg) => n.(ab := n.ab + [Wire(0, 0, pkg)])
    case Receive => n.(a := Demuxed(a, n.ba[0]), ba := n.ba[1..])
    case Reply(h, pkg) =>
      if h !in a.pending then n
      else n.(a := Answering(a, h, pkg), ab := n.ab + [Wire(Flagged(a.pending[h].id), a.pending[h].tag, pkg)])
    case Wake(t) => n.(a := Waking(a, t))
  }

  predicate Enabled(n: Net, e: Event) { EnabledLeft(if e.left then n else Flip(n), e.act) }

  function Step(n: Net, e: Event): Net
    requires Enabled(n, e)
  {
    if e.left then StepLeft(n, e.act) else Flip(StepLeft(Flip(n), e.act))
  }

  const FreshEndpoint :=
    Endpoint(Allocator(1, []), map[], map[], Zeros(HEADER_SIZE), map[], map[], 0, 1, 0, 0, 0, 0, map[], 0)

  const InitialNet := Net(FreshEndpoint, FreshEndpoint, [], [])

  // ---------- Where the ids are ----------

  function CountWord(s: seq<Wire>, w: msgid): nat {
    if s == [] then 0 else (if s[0].word == w then 1 else 0) + CountWord(s[1..], w)
  }

  function PendingWith(e: Endpoint, x: msgid): set<nat> { set h | h in e.pending && e.pending[h].id == x }

  function ReadyWith(e: Endpoint, x: msgid): set<nat> {
    set t | t in e.senders && e.senders[t].id == x && Ready(e, t)
  }

  /** How often an id of `a` occurs: in the free list, in requests under way, in the peer's
      table, in replies under way, at senders whose reply has come. */
  function Tokens(a: Endpoint, b: Endpoint, ab: seq<Wire>, ba: seq<Wire>, x: msgid): nat
    requires Usable(x)
  {
    multiset(a.ids.free)[x] + CountWord(ab, x) + |PendingWith(b, x)| + CountWord(ba, Flagged(x)) + |ReadyWith(a, x)|
  }

  predicate Minted(a: Endpoint, x: msgid) { 1 <= x < a.ids.next }

  predicate Bounded(a: Endpoint) {
    && 1 <= a.ids.next <= REPLY_FLAG
    && |a.ids.free| + |a.senders| == a.ids.next - 1 == a.peak
  }

  predicate SendersOk(a: Endpoint) {
    && a.nextTag >= 1
    && (forall t :: t in a.senders ==>
          && a.senders[t].id in a.holder && a.holder[a.senders[t].id] == t
          && 1 <= a.senders[t].tag < a.nextTag)
    && (forall x :: x in a.holder ==> a.holder[x] in a.senders && a.senders[a.holder[x]].id == x)
  }

  predicate TagsDistinct(a: Endpoint) {
    forall t, u :: t in a.senders && u in a.senders && t != u ==> a.senders[t].tag != a.senders[u].tag
  }

  function InUse(a: Endpoint, x: msgid): nat { if x in a.holder then 1 else 0 }

  /** A minted id is either free, once, or in use by one sender; no other id is either. */
  predicate FreeOrInUse(a: Endpoint) {
    forall x: msgid :: multiset(a.ids.free)[x] + InUse(a, x) == if Minted(a, x) then 1 else 0
  }

  /** Every id ever minted is in exactly one place, and no other id is anywhere. */
  predicate Conserved(a: Endpoint, b: Endpoint, ab: seq<Wire>, ba: seq<Wire>) {
    forall x: msgid :: Usable(x) ==> Tokens(a, b, ab, ba, x) == (if Minted(a, x) then 1 else 0)
  }

  predicate WordOk(w: Wire) { w.word != REPLY_FLAG }

  predicate RequestTagsOk(a: Endpoint, b: Endpoint, ab: seq<Wire>) {
    forall t, w :: t in a.senders && w in ab && w.word == a.senders[t].id ==>
      w.tag == a.senders[t].tag && w.tag !in b.answered
  }

  predicate PendingTagsOk(a: Endpoint, b: Endpoint) {
    forall t, h :: t in a.senders && h in b.pending && b.pending[h].id == a.senders[t].id ==>
      b.pending[h].tag == a.senders[t].tag && a.senders[t].tag !in b.answered
  }

  predicate ReplyTagsOk(a: Endpoint, b: Endpoint, ba: seq<Wire>) {
    forall t, w :: t in a.senders && w in ba && w.word == Flagged(a.senders[t].id) ==>
      w.tag == a.senders[t].tag && w.tag in b.answered && w.pkg == b.answered[w.tag]
  }

  /** Whatever carries the id of a blocked sender belongs to that sender's request, which is
      answered once it is on its way back and not before. */
  predicate TagsOk(a: Endpoint, b: Endpoint, ab: seq<Wire>, ba: seq<Wire>) {
    && (forall w :: w in ab ==> WordOk(w))
    && (forall h :: h in b.pending ==> h < b.nextHandle && Usable(b.pending[h].id))
    && (forall tag :: tag in b.answered ==> tag < a.nextTag)
    && RequestTagsOk(a, b, ab) && PendingTagsOk(a, b) && ReplyTagsOk(a, b, ba)
  }

  /** A flagged sender finds its own reply in the slot exactly if no reply came after its own. */
  predicate SlotOk(a: Endpoint, b: Endpoint) {
    forall t :: t in a.senders && Ready(a, t) ==>
      && a.senders[t].seenAt <= a.repliesSeen
      && a.senders[t].tag in b.answered
      && (a.senders[t].seenAt == a.repliesSeen <==> a.slotTag == a.senders[t].tag)
      && (a.senders[t].seenAt == a.repliesSeen ==> a.slot == Copied(b.answered[a.senders[t].tag]))
  }

  predicate BooksOk(a: Endpoint) { a.requestsSeen == a.repliesMade + |a.pending| }

  predicate InvHalf(a: Endpoint, b: Endpoint, ab: seq<Wire>, ba: seq<Wire>) {
    Bounded(a) && SendersOk(a) && TagsDistinct(a) && FreeOrInUse(a) && Conserved(a, b, ab, ba)
      && TagsOk(a, b, ab, ba) && SlotOk(a, b) && BooksOk(a)
  }

  predicate Inv(n: Net) { InvHalf(n.a, n.b, n.ab, n.ba) && InvHalf(n.b, n.a, n.ba, n.ab) }

  /** The only limit on runs: a send starts with fewer than 32767 senders outstanding. */
  predicate WithinIds(a: Endpoint, act: Act) { act.Send? ==> |a.senders| < REPLY_FLAG - 1 }

  // ---------- Counting ----------

  lemma {:induction false} CountAppend(s: seq<Wire>, f: Wire, w: msgid)
    ensures CountWord(s + [f], w) == CountWord(s, w) + (if f.word == w then 1 else 0)
  {
    if s != [] {
      assert (s + [f])[1..] == s[1..] + [f];
      CountAppend(s[1..], f, w);
    } else {
      assert s + [f] == [f] && [f][1..] == [];
    }
  }

  lemma {:induction false} CountPositive(s: seq<Wire>, w: msgid)
    ensures CountWord(s, w) > 0 <==> exists f :: f in s && f.word == w
  {
    if s != [] {
      CountPositive(s[1..], w);
      if f :| f in s && f.word == w && s[0].word != w {
        assert f in s[1..];
      }
    }
  }

  lemma FreeCount(free: seq<msgid>, id: msgid)
    ensures multiset(free + [id]) == multiset(free) + multiset{id}
    ensures |free| > 0 ==> multiset(free) == multiset(free[..|free| - 1]) + multiset{free[|free| - 1]}
  {
    if |free| > 0 {
      assert free == free[..|free| - 1] + [free[|free| - 1]];
    }
  }

  lemma TokensOf(a: Endpoint, b: Endpoint, ab: seq<Wire>, ba: seq<Wire>, x: msgid)
    requires Conserved(a, b, ab, ba) && Usable(x)
    ensures Tokens(a, b, ab, ba, x) == if Minted(a, x) then 1 else 0
  {
  }

  lemma FreeOf(a: Endpoint, x: msgid)
    requires FreeOrInUse(a)
    ensures multiset(a.ids.free)[x] + InUse(a, x) == if Minted(a, x) then 1 else 0
  {
  }

  /** A frame in flight, or a request in the table, has a sender blocked on its id. */
  lemma TokenHasHolder(a: Endpoint, b: Endpoint, ab: seq<Wire>, ba: seq<Wire>, x: msgid)
    requires FreeOrInUse(a) && Conserved(a, b, ab, ba) && Usable(x)
    requires CountWord(ab, x) + |PendingWith(b, x)| + CountWord(ba, Flagged(x)) > 0
    ensures CountWord(ab, x) + |PendingWith(b, x)| + CountWord(ba, Flagged(x)) == 1
    ensures ReadyWith(a, x) == {} && Minted(a, x) && x in a.holder && multiset(a.ids.free)[x] == 0
  {
    TokensOf(a, b, ab, ba, x);
    FreeOf(a, x);
  }

  /** An id that no sender is blocked on is nowhere but in the free list, if minted at all. */
  lemma FreeIdIsQuiet(a: Endpoint, b: Endpoint, ab: seq<Wire>, ba: seq<Wire>, x: msgid)
    requires FreeOrInUse(a) && Conserved(a, b, ab, ba) && Usable(x) && x !in a.holder
    ensures CountWord(ab, x) == |PendingWith(b, x)| == CountWord(ba, Flagged(x)) == |ReadyWith(a, x)| == 0
    ensures forall w :: w in ab ==> w.word != x
    ensures forall w :: w in ba ==> w.word != Flagged(x)
    ensures forall h :: h in b.pending ==> b.pending[h].id != x
  {
    TokensOf(a, b, ab, ba, x);
    FreeOf(a, x);
    CountPositive(ab, x);
    CountPositive(ba, Flagged(x));
    assert PendingWith(b, x) == {};
    assert forall h :: h in b.pending ==> (h in PendingWith(b, x) <==> b.pending[h].id == x);
  }
}
