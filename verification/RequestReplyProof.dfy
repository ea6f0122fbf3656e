/** Every step of two joined dispatchers keeps the invariant. */
module RequestReplyProof {
  import opened Bytes
  import opened Packages
  import opened MessageIds
  import opened RequestReply

  // ---------- Changes that one half of the invariant does not notice ----------

  /** The requests of `a` do not notice a frame that is not a request of `a`. */
  lemma SendOther(a: Endpoint, b: Endpoint, ab: seq<Wire>, ba: seq<Wire>, f: Wire)
    requires InvHalf(a, b, ab, ba) && WordOk(f) && !Usable(f.word)
    ensures InvHalf(a, b, ab + [f], ba)
  {
    hide Bounded, SendersOk, SlotOk, BooksOk;
    assert SendersOk(a) && TagsOk(a, b, ab, ba);
    forall x: msgid | Usable(x)
      ensures Tokens(a, b, ab + [f], ba, x) == (if Minted(a, x) then 1 else 0)
    {
      assert Tokens(a, b, ab, ba, x) == (if Minted(a, x) then 1 else 0);
      CountAppend(ab, f, x);
    }
    HeldIdsAreUsable(a);
    assert TagsOk(a, b, ab + [f], ba);
  }

  /** Nor a frame of the peer that is not a reply. */
  lemma SendOtherBack(a: Endpoint, b: Endpoint, ab: seq<Wire>, ba: seq<Wire>, f: Wire)
    requires InvHalf(a, b, ab, ba) && !IsReply(f.word)
    ensures InvHalf(a, b, ab, ba + [f])
  {
    hide Bounded, SendersOk, SlotOk, BooksOk;
    forall x: msgid | Usable(x)
      ensures Tokens(a, b, ab, ba + [f], x) == (if Minted(a, x) then 1 else 0)
    {
      assert Tokens(a, b, ab, ba, x) == (if Minted(a, x) then 1 else 0);
      CountAppend(ba, f, Flagged(x));
    }
    assert TagsOk(a, b, ab, ba + [f]);
  }

  lemma HeldIdsAreUsable(a: Endpoint)
    requires Bounded(a) && SendersOk(a) && FreeOrInUse(a)
    ensures forall t :: t in a.senders ==> Usable(a.senders[t].id)
  {
    forall t | t in a.senders ensures Usable(a.senders[t].id) {
      FreeOf(a, a.senders[t].id);
    }
  }

  lemma TailCounts(s: seq<Wire>, x: msgid)
    requires s != []
    ensures CountWord(s, x) == (if s[0].word == x then 1 else 0) + CountWord(s[1..], x)
    ensures forall w :: w in s[1..] ==> w in s
  {
  }

  lemma TakeOther(a: Endpoint, b: Endpoint, ab: seq<Wire>, ba: seq<Wire>)
    requires InvHalf(a, b, ab, ba) && ab != [] && !Usable(ab[0].word)
    ensures InvHalf(a, b, ab[1..], ba)
  {
    hide Bounded, SendersOk, SlotOk, BooksOk;
    forall x: msgid | Usable(x)
      ensures Tokens(a, b, ab[1..], ba, x) == (if Minted(a, x) then 1 else 0)
    {
      assert Tokens(a, b, ab, ba, x) == (if Minted(a, x) then 1 else 0);
      TailCounts(ab, x);
    }
    TailCounts(ab, 0);
    assert TagsOk(a, b, ab[1..], ba);
  }

  lemma TakeOtherBack(a: Endpoint, b: Endpoint, ab: seq<Wire>, ba: seq<Wire>)
    requires InvHalf(a, b, ab, ba) && ba != [] && !IsReply(ba[0].word)
    ensures InvHalf(a, b, ab, ba[1..])
  {
    hide Bounded, SendersOk, SlotOk, BooksOk;
    forall x: msgid | Usable(x)
      ensures Tokens(a, b, ab, ba[1..], x) == (if Minted(a, x) then 1 else 0)
    {
      assert Tokens(a, b, ab, ba, x) == (if Minted(a, x) then 1 else 0);
      TailCounts(ba, Flagged(x));
    }
    TailCounts(ba, 0);
    assert TagsOk(a, b, ab, ba[1..]);
  }

  /** The requests of `b` only look at the table and the answers of `a`. */
  lemma PeerChanged(b: Endpoint, a: Endpoint, a': Endpoint, ba: seq<Wire>, ab: seq<Wire>)
    requires InvHalf(b, a, ba, ab)
    requires a'.pending == a.pending && a'.answered == a.answered && a'.nextHandle == a.nextHandle
    ensures InvHalf(b, a', ba, ab)
  {
    hide Bounded, SendersOk, BooksOk;
    forall x: msgid | Usable(x)
      ensures Tokens(b, a', ba, ab, x) == (if Minted(b, x) then 1 else 0)
    {
      assert Tokens(b, a, ba, ab, x) == (if Minted(b, x) then 1 else 0);
      assert PendingWith(a', x) == PendingWith(a, x);
    }
  }

  lemma SameIds(a: Endpoint, a': Endpoint, b: Endpoint, ab: seq<Wire>, ba: seq<Wire>)
    requires FreeOrInUse(a) && Conserved(a, b, ab, ba)
    requires a'.ids == a.ids && a'.senders == a.senders && a'.holder == a.holder && a'.received == a.received
    ensures FreeOrInUse(a') && Conserved(a', b, ab, ba)
  {
    forall x: msgid | Usable(x)
      ensures Tokens(a', b, ab, ba, x) == if Minted(a', x) then 1 else 0
    {
      TokensOf(a, b, ab, ba, x);
      assert ReadyWith(a', x) == ReadyWith(a, x);
    }
    forall x: msgid
      ensures multiset(a'.ids.free)[x] + InUse(a', x) == if Minted(a', x) then 1 else 0
    {
      FreeOf(a, x);
    }
  }

  /** Tags stay right when senders leave or only their `seenAt` changes. */
  lemma TagsOfFewer(a: Endpoint, a': Endpoint, b: Endpoint, ab: seq<Wire>, ba: seq<Wire>)
    requires TagsOk(a, b, ab, ba) && a'.nextTag >= a.nextTag
    requires forall t :: t in a'.senders ==>
      t in a.senders && a'.senders[t].id == a.senders[t].id && a'.senders[t].tag == a.senders[t].tag
    ensures TagsOk(a', b, ab, ba)
  {
  }

  lemma SlotOfFewer(a: Endpoint, a': Endpoint, b: Endpoint)
    requires SlotOk(a, b)
    requires forall t :: t in a'.senders && Ready(a', t) ==>
      t in a.senders && a'.senders[t] == a.senders[t] && Ready(a, t)
    requires a'.slot == a.slot && a'.slotTag == a.slotTag && a'.repliesSeen == a.repliesSeen
    ensures SlotOk(a', b)
  {
  }

  /** The requests of `a` do not look at the table or the answers of `a`. */
  lemma OwnTableChanged(a: Endpoint, a': Endpoint, b: Endpoint, ab: seq<Wire>, ba: seq<Wire>)
    requires InvHalf(a, b, ab, ba) && BooksOk(a')
    requires a'.ids == a.ids && a'.senders == a.senders && a'.holder == a.holder && a'.nextTag == a.nextTag
    requires a'.peak == a.peak
    requires a'.received == a.received && a'.slot == a.slot && a'.slotTag == a.slotTag
    requires a'.repliesSeen == a.repliesSeen
    ensures InvHalf(a', b, ab, ba)
  {
    SameIds(a, a', b, ab, ba);
    TagsOfFewer(a, a', b, ab, ba);
    SlotOfFewer(a, a', b);
    hide FreeOrInUse, Conserved, TagsOk, SlotOk, BooksOk;
  }

  // ---------- send: an id leaves the free list, or is made, and goes out ----------

  /** The id handed out is usable, and no sender is blocked on it. */
  lemma NewId(a: Endpoint)
    requires Bounded(a) && FreeOrInUse(a) && |a.senders| < REPLY_FLAG - 1
    ensures var (id, ids) := Generate(a.ids);
      && Usable(id) && id !in a.holder
      && forall x: msgid :: multiset(ids.free)[x] + (if x == id then 1 else InUse(a, x))
           == if 1 <= x < ids.next then 1 else 0
  {
    var (id, ids) := Generate(a.ids);
    FreeCount(a.ids.free, id);
    FreeOf(a, id);
    if |a.ids.free| > 0 {
      assert id in multiset(a.ids.free);
    }
    forall x: msgid
      ensures multiset(ids.free)[x] + (if x == id then 1 else InUse(a, x)) == if 1 <= x < ids.next then 1 else 0
    {
      FreeOf(a, x);
    }
  }

  lemma SendingBounded(a: Endpoint, t: nat)
    requires Bounded(a) && t !in a.senders && |a.senders| < REPLY_FLAG - 1
    ensures Bounded(Sending(a, t))
  {
    assert Sending(a, t).senders.Keys == a.senders.Keys + {t};
  }

  lemma SendingSenders(a: Endpoint, t: nat)
    requires SendersOk(a) && TagsDistinct(a) && t !in a.senders && Generate(a.ids).0 !in a.holder
    ensures SendersOk(Sending(a, t)) && TagsDistinct(Sending(a, t))
  {
    var a', id := Sending(a, t), Generate(a.ids).0;
    assert a'.senders == a.senders[t := Sender(id, a.nextTag, 0)] && a'.holder == a.holder[id := t]
      && a'.nextTag == a.nextTag + 1;
    hide Generate, Sending;
    forall u | u in a'.senders
      ensures a'.senders[u].id in a'.holder && a'.holder[a'.senders[u].id] == u && 1 <= a'.senders[u].tag < a'.nextTag
    {
      if u != t {
        assert u in a.senders;
      }
    }
    forall x | x in a'.holder
      ensures a'.holder[x] in a'.senders && a'.senders[a'.holder[x]].id == x
    {
      if x != id {
        assert x in a.holder;
      }
    }
    hide TagsDistinct;
    assert SendersOk(a');
    SendingDistinct(a, t);
  }

  lemma SendingDistinct(a: Endpoint, t: nat)
    requires SendersOk(a) && TagsDistinct(a) && t !in a.senders
    ensures TagsDistinct(Sending(a, t))
  {
    hide Generate;
    assert forall u :: u in a.senders ==> a.senders[u].tag < a.nextTag;
    hide SendersOk;
  }

  lemma SendingFree(a: Endpoint, t: nat)
    requires Bounded(a) && FreeOrInUse(a) && |a.senders| < REPLY_FLAG - 1
    ensures FreeOrInUse(Sending(a, t))
  {
    NewId(a);
    var a', id := Sending(a, t), Generate(a.ids).0;
    hide Generate, FreeOrInUse, Bounded;
    forall x: msgid
      ensures multiset(a'.ids.free)[x] + InUse(a', x) == if Minted(a', x) then 1 else 0
    {
      assert InUse(a', x) == if x == id then 1 else InUse(a, x);
    }
    FreeIntro(a');
  }

  lemma FreeIntro(a: Endpoint)
    requires forall x: msgid :: multiset(a.ids.free)[x] + InUse(a, x) == if Minted(a, x) then 1 else 0
    ensures FreeOrInUse(a)
  {
  }

  lemma SendingReady(a: Endpoint, t: nat)
    requires SendersOk(a) && t !in a.senders && Generate(a.ids).0 !in a.holder
    ensures !Ready(Sending(a, t), t)
    ensures forall u :: u in a.senders ==>
      Sending(a, t).senders[u] == a.senders[u] && Ready(Sending(a, t), u) == Ready(a, u)
    ensures forall x :: ReadyWith(Sending(a, t), x) == ReadyWith(a, x)
  {
    hide Generate;
    assert forall u :: u in a.senders ==> a.senders[u].id != Generate(a.ids).0;
  }

  lemma SendingConserves(a: Endpoint, t: nat, b: Endpoint, ab: seq<Wire>, ba: seq<Wire>, f: Wire)
    requires Bounded(a) && SendersOk(a) && FreeOrInUse(a) && Conserved(a, b, ab, ba)
    requires t !in a.senders && |a.senders| < REPLY_FLAG - 1 && f.word == Generate(a.ids).0
    ensures Conserved(Sending(a, t), b, ab + [f], ba)
  {
    var a', id := Sending(a, t), Generate(a.ids).0;
    NewId(a);
    FreeIdIsQuiet(a, b, ab, ba, id);
    SendingReady(a, t);
    hide Bounded, SendersOk, Conserved, FreeOrInUse, Generate, ReadyWith;
    forall x: msgid | Usable(x)
      ensures Tokens(a', b, ab + [f], ba, x) == if Minted(a', x) then 1 else 0
    {
      TokensOf(a, b, ab, ba, x);
      FreeOf(a, x);
      CountAppend(ab, f, x);
    }
    ConservedIntro(a', b, ab + [f], ba);
  }

  lemma ConservedIntro(a: Endpoint, b: Endpoint, ab: seq<Wire>, ba: seq<Wire>)
    requires forall x: msgid :: Usable(x) ==> Tokens(a, b, ab, ba, x) == if Minted(a, x) then 1 else 0
    ensures Conserved(a, b, ab, ba)
  {
  }

  /** Tags stay right when one sender with a new id, and a frame for it, are added. */
  lemma TagsOfOneMore(a: Endpoint, a': Endpoint, t: nat, b: Endpoint, ab: seq<Wire>, ba: seq<Wire>, f: Wire)
    requires RequestTagsOk(a, b, ab) && PendingTagsOk(a, b) && ReplyTagsOk(a, b, ba)
    requires a'.senders == a.senders[t := Sender(f.word, f.tag, 0)] && t !in a.senders
    requires f.tag !in b.answered && forall u :: u in a.senders ==> a.senders[u].id != f.word
    requires forall w :: w in ab ==> w.word != f.word
    requires forall w :: w in ba ==> w.word != Flagged(f.word)
    requires forall h :: h in b.pending ==> b.pending[h].id != f.word
    ensures RequestTagsOk(a', b, ab + [f]) && PendingTagsOk(a', b) && ReplyTagsOk(a', b, ba)
  {
    assert forall w :: w in ab + [f] <==> w in ab || w == f;
    assert RequestTagsOk(a', b, ab + [f]) by { hide PendingTagsOk, ReplyTagsOk; }
    assert PendingTagsOk(a', b) by { hide RequestTagsOk, ReplyTagsOk; }
    hide RequestTagsOk, PendingTagsOk;
  }

  lemma SendingTags(a: Endpoint, t: nat, b: Endpoint, ab: seq<Wire>, ba: seq<Wire>, f: Wire)
    requires TagsOk(a, b, ab, ba) && SendersOk(a) && t !in a.senders
    requires f.word == Generate(a.ids).0 && f.tag == a.nextTag && Usable(f.word) && f.word !in a.holder
    requires forall w :: w in ab ==> w.word != f.word
    requires forall w :: w in ba ==> w.word != Flagged(f.word)
    requires forall h :: h in b.pending ==> b.pending[h].id != f.word
    ensures TagsOk(Sending(a, t), b, ab + [f], ba)
  {
    assert forall u :: u in a.senders ==> a.senders[u].id != f.word;
    hide Generate, SendersOk, RequestTagsOk, PendingTagsOk, ReplyTagsOk;
    TagsOfOneMore(a, Sending(a, t), t, b, ab, ba, f);
    assert forall w :: w in ab + [f] <==> w in ab || w == f;
  }

  lemma SendOwn(a: Endpoint, t: nat, b: Endpoint, ab: seq<Wire>, ba: seq<Wire>, f: Wire)
    requires InvHalf(a, b, ab, ba) && t !in a.senders && |a.senders| < REPLY_FLAG - 1
    requires f.word == Generate(a.ids).0 && f.tag == a.nextTag
    ensures InvHalf(Sending(a, t), b, ab + [f], ba)
  {
    NewId(a);
    FreeIdIsQuiet(a, b, ab, ba, f.word);
    SendingBounded(a, t);
    SendingSenders(a, t);
    SendingFree(a, t);
    SendingConserves(a, t, b, ab, ba, f);
    SendingTags(a, t, b, ab, ba, f);
    SendingReady(a, t);
    SlotOfFewer(a, Sending(a, t), b);
    hide Bounded, SendersOk, TagsDistinct, FreeOrInUse, Conserved, TagsOk, SlotOk, Generate, Ready, ReadyWith;
  }

  // ---------- wake: a flagged sender gives its id back ----------

  lemma WakingFree(a: Endpoint, t: nat)
    requires SendersOk(a) && FreeOrInUse(a) && t in a.senders
    ensures FreeOrInUse(Waking(a, t))
  {
    var a', id := Waking(a, t), a.senders[t].id;
    FreeCount(a.ids.free, id);
    forall x: msgid
      ensures multiset(a'.ids.free)[x] + InUse(a', x) == if Minted(a', x) then 1 else 0
    {
      FreeOf(a, x);
    }
  }

  lemma WakingHolders(a: Endpoint, t: nat)
    requires SendersOk(a) && t in a.senders
    ensures SendersOk(Waking(a, t))
  {
    var a', id := Waking(a, t), a.senders[t].id;
    assert a'.senders == a.senders - {t} && a'.holder == a.holder - {id} && a'.nextTag == a.nextTag;
    assert forall u :: u in a'.senders ==> a.senders[u].id != id;
    hide Waking;
  }

  lemma WakingTags(a: Endpoint, t: nat)
    requires TagsDistinct(a) && t in a.senders
    ensures TagsDistinct(Waking(a, t))
  {
  }

  lemma WakingBounded(a: Endpoint, t: nat)
    requires Bounded(a) && t in a.senders
    ensures Bounded(Waking(a, t))
  {
    FewerSenders(a.senders, t);
  }

  lemma WakingSenders(a: Endpoint, t: nat)
    requires Bounded(a) && SendersOk(a) && TagsDistinct(a) && FreeOrInUse(a) && t in a.senders
    ensures var a' := Waking(a, t); Bounded(a') && SendersOk(a') && TagsDistinct(a') && FreeOrInUse(a')
  {
    hide *;
    WakingFree(a, t);
    WakingHolders(a, t);
    WakingTags(a, t);
    WakingBounded(a, t);
  }

  lemma FewerSenders(senders: map<nat, Sender>, t: nat)
    requires t in senders
    ensures |senders - {t}| == |senders| - 1
  {
    assert (senders - {t}).Keys == senders.Keys - {t};
  }

  lemma WakingConserves(a: Endpoint, t: nat, b: Endpoint, ab: seq<Wire>, ba: seq<Wire>)
    requires SendersOk(a) && Conserved(a, b, ab, ba) && t in a.senders && Ready(a, t)
    ensures Conserved(Waking(a, t), b, ab, ba)
  {
    var a', id := Waking(a, t), a.senders[t].id;
    FreeCount(a.ids.free, id);
    forall x: msgid | Usable(x)
      ensures Tokens(a', b, ab, ba, x) == if Minted(a', x) then 1 else 0
    {
      TokensOf(a, b, ab, ba, x);
      assert ReadyWith(a', x) == ReadyWith(a, x) - {t};
      assert t in ReadyWith(a, x) <==> x == id;
    }
  }

  lemma WakeOwn(a: Endpoint, t: nat, b: Endpoint, ab: seq<Wire>, ba: seq<Wire>)
    requires InvHalf(a, b, ab, ba) && t in a.senders && Ready(a, t)
    ensures InvHalf(Waking(a, t), b, ab, ba)
  {
    WakingSenders(a, t);
    WakingConserves(a, t, b, ab, ba);
    TagsOfFewer(a, Waking(a, t), b, ab, ba);
    SlotOfFewer(a, Waking(a, t), b);
    hide Bounded, SendersOk, TagsDistinct, FreeOrInUse, Conserved, TagsOk, SlotOk;
  }

  // ---------- reply: a token moves from the table of `a` onto the stream ----------

  lemma AnsweringBooks(a: Endpoint, h: nat, pkg: bytes)
    requires BooksOk(a) && h in a.pending
    ensures BooksOk(Answering(a, h, pkg))
  {
    assert Answering(a, h, pkg).pending.Keys == a.pending.Keys - {h};
  }

  lemma AnsweringConserves(b: Endpoint, a: Endpoint, h: nat, pkg: bytes, ba: seq<Wire>, ab: seq<Wire>, f: Wire)
    requires Conserved(b, a, ba, ab) && h in a.pending && Usable(a.pending[h].id) && f.word == Flagged(a.pending[h].id)
    ensures Conserved(b, Answering(a, h, pkg), ba, ab + [f])
  {
    forall x: msgid | Usable(x)
      ensures Tokens(b, Answering(a, h, pkg), ba, ab + [f], x) == if Minted(b, x) then 1 else 0
    {
      TokensOf(b, a, ba, ab, x);
      CountAppend(ab, f, Flagged(x));
      assert PendingWith(Answering(a, h, pkg), x) == PendingWith(a, x) - {h};
      assert h in PendingWith(a, x) <==> x == a.pending[h].id;
    }
  }

  /** The one sender a pending request belongs to; its id is nowhere else, and it is not ready. */
  lemma PendingAlone(b: Endpoint, a: Endpoint, h: nat, ba: seq<Wire>, ab: seq<Wire>)
    requires InvHalf(b, a, ba, ab) && h in a.pending
    ensures var p := a.pending[h];
      && Usable(p.id) && p.id in b.holder && var u := b.holder[p.id];
      && u in b.senders && b.senders[u].id == p.id && b.senders[u].tag == p.tag && p.tag !in a.answered && !Ready(b, u)
      && (forall g :: g in a.pending && a.pending[g].id == p.id ==> g == h)
      && (forall w :: w in ba ==> w.word != p.id)
      && (forall w :: w in ab ==> w.word != Flagged(p.id))
  {
    PendingOnly(b, a, h, ba, ab);
    var x := a.pending[h].id;
    var u := b.holder[x];
    assert u in b.senders && b.senders[u].id == x;
    assert u in ReadyWith(b, x) <==> Ready(b, u);
    hide Conserved, FreeOrInUse, SlotOk, Ready, ReadyWith;
  }

  lemma PendingOnly(b: Endpoint, a: Endpoint, h: nat, ba: seq<Wire>, ab: seq<Wire>)
    requires FreeOrInUse(b) && Conserved(b, a, ba, ab) && h in a.pending && Usable(a.pending[h].id)
    ensures var x := a.pending[h].id;
      && x in b.holder && ReadyWith(b, x) == {}
      && (forall g :: g in a.pending && a.pending[g].id == x ==> g == h)
      && (forall w :: w in ba ==> w.word != x)
      && (forall w :: w in ab ==> w.word != Flagged(x))
  {
    var x := a.pending[h].id;
    assert h in PendingWith(a, x);
    TokenHasHolder(b, a, ba, ab, x);
    CountPositive(ba, x);
    CountPositive(ab, Flagged(x));
    var rest := PendingWith(a, x) - {h};
    assert |rest| == 0 && PendingWith(a, x) == rest + {h};
    assert forall g :: g in a.pending && a.pending[g].id == x ==> g in PendingWith(a, x);
  }

  lemma AnsweringTags(b: Endpoint, a: Endpoint, h: nat, pkg: bytes, ba: seq<Wire>, ab: seq<Wire>, f: Wire)
    requires TagsOk(b, a, ba, ab) && SendersOk(b) && TagsDistinct(b) && h in a.pending
    requires var p := a.pending[h];
      && f == Wire(Flagged(p.id), p.tag, pkg) && p.id in b.holder && b.senders[b.holder[p.id]].tag == p.tag
      && (forall g :: g in a.pending && a.pending[g].id == p.id ==> g == h)
      && (forall w :: w in ba ==> w.word != p.id)
      && (forall w :: w in ab ==> w.word != Flagged(p.id))
      && Usable(p.id) && (forall t :: t in b.senders ==> Usable(b.senders[t].id))
    ensures TagsOk(b, Answering(a, h, pkg), ba, ab + [f])
  {
    var a', p, u := Answering(a, h, pkg), a.pending[h], b.holder[a.pending[h].id];
    assert forall t :: t in b.senders && b.senders[t].id == p.id ==> t == u;
    assert forall t :: t in b.senders && t != u ==> b.senders[t].tag != p.tag;
    assert p.tag < b.nextTag;
    hide SendersOk, TagsDistinct;
    AnsweringReplies(b, a, a', p, u, ba, ab, f);
    assert PendingTagsOk(b, a') by { hide RequestTagsOk, ReplyTagsOk; }
    assert RequestTagsOk(b, a', ba) by { hide PendingTagsOk, ReplyTagsOk; }
    hide RequestTagsOk, PendingTagsOk, ReplyTagsOk;
    assert forall w :: w in ab + [f] ==> w in ab || w == f;
  }

  lemma AnsweringReplies(b: Endpoint, a: Endpoint, a': Endpoint, p: Pending, u: nat, ba: seq<Wire>, ab: seq<Wire>,
      f: Wire)
    requires ReplyTagsOk(b, a, ab) && u in b.senders && b.senders[u].id == p.id && b.senders[u].tag == p.tag
    requires forall t :: t in b.senders && t != u ==> b.senders[t].id != p.id && b.senders[t].tag != p.tag
    requires Usable(p.id) && (forall t :: t in b.senders ==> Usable(b.senders[t].id))
    requires a'.answered == a.answered[p.tag := f.pkg] && f.word == Flagged(p.id) && f.tag == p.tag
    requires forall w :: w in ab ==> w.word != f.word
    ensures ReplyTagsOk(b, a', ab + [f])
  {
    forall t, w | t in b.senders && w in ab + [f] && w.word == Flagged(b.senders[t].id)
      ensures w.tag == b.senders[t].tag && w.tag in a'.answered && w.pkg == a'.answered[w.tag]
    {
      if w in ab {
        assert t != u;
      } else {
        assert w == f;
      }
    }
  }

  lemma AnsweringSlot(b: Endpoint, a: Endpoint, h: nat, pkg: bytes)
    requires SlotOk(b, a) && SendersOk(b) && TagsDistinct(b) && h in a.pending
    requires var p := a.pending[h];
      p.id in b.holder && b.senders[b.holder[p.id]].tag == p.tag && !Ready(b, b.holder[p.id])
    ensures SlotOk(b, Answering(a, h, pkg))
  {
    assert forall t :: t in b.senders && Ready(b, t) ==> b.senders[t].tag != a.pending[h].tag;
    hide SendersOk, TagsDistinct;
  }

  lemma ReplyPeer(b: Endpoint, a: Endpoint, h: nat, pkg: bytes, ba: seq<Wire>, ab: seq<Wire>)
    requires InvHalf(b, a, ba, ab) && h in a.pending
    ensures InvHalf(b, Answering(a, h, pkg), ba, ab + [Wire(Flagged(a.pending[h].id), a.pending[h].tag, pkg)])
  {
    var f := Wire(Flagged(a.pending[h].id), a.pending[h].tag, pkg);
    PendingAlone(b, a, h, ba, ab);
    HeldIdsAreUsable(b);
    AnsweringConserves(b, a, h, pkg, ba, ab, f);
    AnsweringTags(b, a, h, pkg, ba, ab, f);
    AnsweringSlot(b, a, h, pkg);
    hide Bounded, SendersOk, TagsDistinct, FreeOrInUse, Conserved, TagsOk, SlotOk, BooksOk;
  }

  // ---------- receiving a request: a token moves from the stream into the table of `a` ----------

  lemma RequestPeer(b: Endpoint, a: Endpoint, ba: seq<Wire>, ab: seq<Wire>)
    requires InvHalf(b, a, ba, ab) && ba != [] && Usable(ba[0].word)
    ensures InvHalf(b, ReceiveRequest(a, ba[0].word, ba[0]), ba[1..], ab)
  {
    RequestConserves(b, a, ba, ab);
    RequestTags(b, a, ba, ab);
    assert SlotOk(b, ReceiveRequest(a, ba[0].word, ba[0])) by { hide Ready; }
    hide Bounded, SendersOk, TagsDistinct, FreeOrInUse, Conserved, TagsOk, SlotOk, BooksOk;
  }

  lemma PendingAfterRequest(a: Endpoint, w: Wire, x: msgid)
    requires a.nextHandle !in a.pending
    ensures |PendingWith(ReceiveRequest(a, w.word, w), x)| == |PendingWith(a, x)| + if x == w.word then 1 else 0
  {
    var a' := ReceiveRequest(a, w.word, w);
    if x == w.word {
      assert PendingWith(a', x) == PendingWith(a, x) + {a.nextHandle};
    } else {
      assert PendingWith(a', x) == PendingWith(a, x);
    }
  }

  lemma RequestConserves(b: Endpoint, a: Endpoint, ba: seq<Wire>, ab: seq<Wire>)
    requires Conserved(b, a, ba, ab) && TagsOk(b, a, ba, ab) && ba != [] && Usable(ba[0].word)
    ensures Conserved(b, ReceiveRequest(a, ba[0].word, ba[0]), ba[1..], ab)
  {
    var a' := ReceiveRequest(a, ba[0].word, ba[0]);
    assert a.nextHandle !in a.pending;
    hide TagsOk, Conserved, PendingWith, ReadyWith;
    forall x: msgid | Usable(x)
      ensures Tokens(b, a', ba[1..], ab, x) == if Minted(b, x) then 1 else 0
    {
      TokensOf(b, a, ba, ab, x);
      TailCounts(ba, x);
      PendingAfterRequest(a, ba[0], x);
    }
    ConservedIntro(b, a', ba[1..], ab);
  }

  lemma RequestTags(b: Endpoint, a: Endpoint, ba: seq<Wire>, ab: seq<Wire>)
    requires TagsOk(b, a, ba, ab) && ba != [] && Usable(ba[0].word)
    ensures TagsOk(b, ReceiveRequest(a, ba[0].word, ba[0]), ba[1..], ab)
  {
    TailCounts(ba, 0);
    assert ba[0] in ba;
  }

  lemma RequestBooks(a: Endpoint, w: Wire)
    requires BooksOk(a) && a.nextHandle !in a.pending
    ensures BooksOk(ReceiveRequest(a, w.word, w))
  {
    assert ReceiveRequest(a, w.word, w).pending.Keys == a.pending.Keys + {a.nextHandle};
  }

  // ---------- receiving a reply: a token moves from the stream to its sender ----------

  lemma ReplyInOwn(a: Endpoint, b: Endpoint, ab: seq<Wire>, ba: seq<Wire>, id: msgid)
    requires InvHalf(a, b, ab, ba) && ba != [] && Usable(id) && ba[0].word == Flagged(id)
    ensures InvHalf(ReceiveReply(a, id, ba[0]), b, ab, ba[1..])
  {
    TailCounts(ba, ba[0].word);
    TokenHasHolder(a, b, ab, ba, id);
    ReplyInSenders(a, ba[0], id);
    ReplyInConserves(a, b, ab, ba, id);
    ReplyInTags(a, b, ab, ba, id);
    ReplyInSlot(a, b, ab, ba, id);
    hide Bounded, SendersOk, TagsDistinct, FreeOrInUse, Conserved, TagsOk, SlotOk, BooksOk;
    BooksUnchanged(a, ba[0], id);
  }

  lemma BooksUnchanged(a: Endpoint, w: Wire, id: msgid)
    requires BooksOk(a)
    ensures BooksOk(ReceiveReply(a, id, w))
  {
  }

  lemma ReplyInFields(a: Endpoint, w: Wire, id: msgid)
    ensures var a' := ReceiveReply(a, id, w);
      && a'.senders.Keys == a.senders.Keys && a'.ids == a.ids && a'.holder == a.holder && a'.nextTag == a.nextTag
      && (forall t :: t in a.senders ==> a'.senders[t].id == a.senders[t].id && a'.senders[t].tag == a.senders[t].tag)
      && (forall t :: t in a.senders && a.senders[t].id != id ==>
            a'.senders[t] == a.senders[t] && Ready(a', t) == Ready(a, t))
      && (forall t :: t in a.senders && a.senders[t].id == id ==>
            a'.senders[t].seenAt == a.repliesSeen + 1 && Ready(a', t))
  {
  }

  lemma ReplyInSenders(a: Endpoint, w: Wire, id: msgid)
    requires Bounded(a) && SendersOk(a) && TagsDistinct(a) && FreeOrInUse(a)
    ensures var a' := ReceiveReply(a, id, w); Bounded(a') && SendersOk(a') && TagsDistinct(a') && FreeOrInUse(a')
  {
    var a' := ReceiveReply(a, id, w);
    ReplyInFields(a, w, id);
    assert a'.peak == a.peak;
    assert |a'.senders| == |a'.senders.Keys| == |a.senders|;
    assert FreeOrInUse(a') by {
      hide ReceiveReply;
      forall x: msgid
        ensures multiset(a'.ids.free)[x] + InUse(a', x) == if Minted(a', x) then 1 else 0
      {
        FreeOf(a, x);
      }
    }
    hide ReceiveReply, FreeOrInUse;
  }

  lemma ReplyInConserves(a: Endpoint, b: Endpoint, ab: seq<Wire>, ba: seq<Wire>, id: msgid)
    requires SendersOk(a) && Conserved(a, b, ab, ba) && ba != [] && Usable(id) && ba[0].word == Flagged(id)
    requires id in a.holder && ReadyWith(a, id) == {}
    ensures Conserved(ReceiveReply(a, id, ba[0]), b, ab, ba[1..])
  {
    var a' := ReceiveReply(a, id, ba[0]);
    ReplyInFields(a, ba[0], id);
    hide ReceiveReply, Ready;
    assert forall t :: t in a.senders && a.senders[t].id == id ==> t == a.holder[id];
    assert ReadyWith(a', id) == {a.holder[id]};
    hide SendersOk;
    forall x: msgid | Usable(x)
      ensures Tokens(a', b, ab, ba[1..], x) == if Minted(a', x) then 1 else 0
    {
      TokensOf(a, b, ab, ba, x);
      TailCounts(ba, Flagged(x));
      if x != id {
        assert ReadyWith(a', x) == ReadyWith(a, x);
      }
    }
  }

  lemma ReplyInTags(a: Endpoint, b: Endpoint, ab: seq<Wire>, ba: seq<Wire>, id: msgid)
    requires TagsOk(a, b, ab, ba) && ba != []
    ensures TagsOk(ReceiveReply(a, id, ba[0]), b, ab, ba[1..])
  {
    ReplyInFields(a, ba[0], id);
    TailCounts(ba, 0);
    hide ReceiveReply, Ready;
    TagsOfFewer(a, ReceiveReply(a, id, ba[0]), b, ab, ba);
  }

  lemma ReplyInSlot(a: Endpoint, b: Endpoint, ab: seq<Wire>, ba: seq<Wire>, id: msgid)
    requires TagsOk(a, b, ab, ba) && SlotOk(a, b) && SendersOk(a) && TagsDistinct(a) && ba != []
    requires ba[0].word == Flagged(id) && Usable(id) && id in a.holder
    ensures SlotOk(ReceiveReply(a, id, ba[0]), b)
  {
    var a', u, w := ReceiveReply(a, id, ba[0]), a.holder[id], ba[0];
    ReplyInFields(a, w, id);
    assert a'.repliesSeen == a.repliesSeen + 1 && a'.slotTag == w.tag && a'.slot == Copied(w.pkg);
    hide ReceiveReply;
    assert w in ba && a.senders[u].id == id;
    assert w.tag == a.senders[u].tag && w.tag in b.answered && w.pkg == b.answered[w.tag];
    assert forall t :: t in a.senders && t != u ==> a.senders[t].tag != w.tag && a.senders[t].id != id;
    hide TagsOk, SendersOk, TagsDistinct, Ready, Copied;
  }

  // ---------- Every step ----------

  lemma StepLeftKeeps(n: Net, act: Act)
    requires Inv(n) && EnabledLeft(n, act) && WithinIds(n.a, act)
    ensures Inv(StepLeft(n, act))
  {
    var a, b := n.a, n.b;
    match act {
      case Send(t, pkg) =>
        var f := Wire(Generate(a.ids).0, a.nextTag, Copied(pkg));
        NewId(a);
        SendOwn(a, t, b, n.ab, n.ba, f);
        SendOtherBack(b, a, n.ba, n.ab, f);
        PeerChanged(b, a, Sending(a, t), n.ba, n.ab + [f]);
      case Write(pkg) =>
        SendOther(a, b, n.ab, n.ba, Wire(0, 0, pkg));
        SendOtherBack(b, a, n.ba, n.ab, Wire(0, 0, pkg));
      case Receive =>
        ReceiveKeeps(n);
      case Reply(h, pkg) =>
        if h in a.pending {
          ReplyPeer(b, a, h, pkg, n.ba, n.ab);
          PendingAlone(b, a, h, n.ba, n.ab);
          AnsweringBooks(a, h, pkg);
          SendOther(a, b, n.ab, n.ba, Wire(Flagged(a.pending[h].id), a.pending[h].tag, pkg));
          OwnTableChanged(a, Answering(a, h, pkg), b, n.ab + [Wire(Flagged(a.pending[h].id), a.pending[h].tag, pkg)],
            n.ba);
        }
      case Wake(t) =>
        WakeOwn(a, t, b, n.ab, n.ba);
        PeerChanged(b, a, Waking(a, t), n.ba, n.ab);
    }
  }

  lemma OneWayKeeps(n: Net)
    requires Inv(n) && n.ba != [] && n.ba[0].word == 0
    ensures Inv(StepLeft(n, Receive))
  {
    hide InvHalf;
    TakeOtherBack(n.a, n.b, n.ab, n.ba);
    TakeOther(n.b, n.a, n.ba, n.ab);
  }

  lemma ReplyInKeeps(n: Net, id: msgid)
    requires Inv(n) && n.ba != [] && Usable(id) && n.ba[0].word == Flagged(id)
    ensures Inv(StepLeft(n, Receive))
  {
    hide InvHalf;
    ReplyInOwn(n.a, n.b, n.ab, n.ba, id);
    TakeOther(n.b, n.a, n.ba, n.ab);
    PeerChanged(n.b, n.a, ReceiveReply(n.a, id, n.ba[0]), n.ba[1..], n.ab);
  }

  lemma RequestInKeeps(n: Net)
    requires n.ba != [] && Usable(n.ba[0].word) && Inv(n)
    ensures Inv(StepLeft(n, Receive))
  {
    hide InvHalf, StepLeft, ReceiveRequest, BooksOk;
    var a, b, w := n.a, n.b, n.ba[0];
    var a' := ReceiveRequest(a, w.word, w);
    TableFacts(a, b, n.ab, n.ba);
    RequestStep(n);
    RequestBooks(a, w);
    RequestFields(a, w);
    RequestPeer(b, a, n.ba, n.ab);
    TakeOtherBack(a, b, n.ab, n.ba);
    OwnTableChanged(a, a', b, n.ab, n.ba[1..]);
  }

  lemma TableFacts(a: Endpoint, b: Endpoint, ab: seq<Wire>, ba: seq<Wire>)
    requires InvHalf(a, b, ab, ba) && InvHalf(b, a, ba, ab)
    ensures BooksOk(a) && a.nextHandle !in a.pending
  {
  }

  lemma RequestStep(n: Net)
    requires n.ba != [] && Usable(n.ba[0].word)
    ensures StepLeft(n, Receive) == Net(ReceiveRequest(n.a, n.ba[0].word, n.ba[0]), n.b, n.ab, n.ba[1..])
  {
  }

  lemma RequestFields(a: Endpoint, w: Wire)
    ensures var a' := ReceiveRequest(a, w.word, w);
      && a'.ids == a.ids && a'.senders == a.senders && a'.holder == a.holder && a'.nextTag == a.nextTag
        && a'.peak == a.peak
      && a'.received == a.received && a'.slot == a.slot && a'.slotTag == a.slotTag && a'.repliesSeen == a.repliesSeen
  {
  }

  lemma ReceiveKeeps(n: Net)
    requires Inv(n) && n.ba != []
    ensures Inv(StepLeft(n, Receive))
  {
    var w := n.ba[0];
    assert w in n.ba && WordOk(w);
    hide InvHalf, StepLeft;
    if w.word == 0 {
      OneWayKeeps(n);
    } else if IsReply(w.word) {
      ReplyInKeeps(n, Unflagged(w.word));
    } else {
      RequestInKeeps(n);
    }
  }

  lemma StepKeeps(n: Net, e: Event)
    requires Inv(n) && Enabled(n, e) && WithinIds(if e.left then n.a else n.b, e.act)
    ensures Inv(Step(n, e))
  {
    StepLeftKeeps(if e.left then n else Flip(n), e.act);
  }
}
