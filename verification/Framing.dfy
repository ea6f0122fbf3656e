/** Length-prefixed framing over a byte stream that arrives in arbitrary chunks. */
module Framing {
  import opened Bytes
  import opened Packages

  const SIZE_BYTES: nat := 4

  function Frame(f: bytes): (b: bytes)
    ensures |b| == SIZE_BYTES + |f|
  {
    EncodeLE(|f| % TWO_32, SIZE_BYTES) + f
  }

  function Stream(fs: seq<bytes>): bytes {
    if fs == [] then [] else Frame(fs[0]) + Stream(fs[1..])
  }

  /** The sizes `write` can send: it puts the frame's size in a signed 32-bit integer. */
  predicate Writable(f: bytes) { |f| < 0x8000_0000 }

  // ---------- Reference parser: no chunks, no state ----------

  /** The first frame of `s` and what follows it, when the frame is all there. */
  function Next(s: bytes): (r: Option<(bytes, bytes)>)
    ensures r.Some? ==> |s| == SIZE_BYTES + |r.value.0| + |r.value.1|
  {
    if |s| < SIZE_BYTES then None else
      var size := DecodeLE(s[..SIZE_BYTES]);
      if |s| - SIZE_BYTES < size then None
      else Some((s[SIZE_BYTES..SIZE_BYTES + size], s[SIZE_BYTES + size..]))
  }

  /** Every complete frame in `s`, empty ones included. */
  function Parse(s: bytes): seq<bytes>
    decreases |s|
  {
    match Next(s)
    case None => []
    case Some((f, rest)) => [f] + Parse(rest)
  }

  function NonEmpty(fs: seq<bytes>): seq<bytes> {
    if fs == [] then [] else (if fs[0] == [] then [] else [fs[0]]) + NonEmpty(fs[1..])
  }

  function BeforeEmpty(fs: seq<bytes>): seq<bytes> {
    if fs == [] || fs[0] == [] then [] else [fs[0]] + BeforeEmpty(fs[1..])
  }

  // ---------- What one call of the decoder does ----------

  /** From all bytes not yet turned into frames: the frames emitted and the bytes still held.
      An empty frame's header is swallowed, and the call then returns at once. */
  function Drain(u: bytes): (r: (seq<bytes>, bytes))
    decreases |u|
  {
    match Next(u)
    case None => ([], u)
    case Some((f, rest)) =>
      if f == [] then ([], rest) else
        var (fs, left) := Drain(rest);
        ([f] + fs, left)
  }

  /** A run of calls, one for each chunk. */
  function Run(u: bytes, chunks: seq<bytes>): (r: (seq<bytes>, bytes))
    decreases |chunks|
  {
    if chunks == [] then ([], u)
    else
      var (fs, u1) := Drain(u + chunks[0]);
      var (fs', u2) := Run(u1, chunks[1..]);
      (fs + fs', u2)
  }

  function Concat(chunks: seq<bytes>): bytes {
    if chunks == [] then [] else chunks[0] + Concat(chunks[1..])
  }

  // ---------- The decoder itself ----------

  class PackageCodec {
    var buffer: bytes
    var packSize: nat

    constructor ()
      ensures Valid() && Unparsed() == []
    {
      buffer, packSize := [], 0;
    }

    /** A size already read is kept apart from the buffer until its frame is complete. */
    ghost predicate Valid()
      reads this
    {
      packSize < TWO_32 && (packSize != 0 ==> |buffer| < packSize)
    }

    function Unparsed(): bytes
      reads this
    {
      if packSize == 0 then buffer else EncodeLE(packSize, SIZE_BYTES) + buffer
    }

    method ProcessNotification(data: bytes) returns (frames: seq<bytes>)
      requires Valid()
      modifies this
      ensures Valid()
      ensures (frames, Unparsed()) == Drain(old(Unparsed()) + data)
    {
      hide Next, EncodeLE, DecodeLE;
      frames := [];
      ghost var received := Unparsed() + data;
      buffer := buffer + data;
      assert Unparsed() == received;
      assert frames + Drain(received).0 == Drain(received).0;
      while true
        invariant packSize < TWO_32
        invariant Drain(received).0 == frames + Drain(Unparsed()).0
        invariant Drain(received).1 == Drain(Unparsed()).1
        decreases |buffer|
      {
        ghost var held := Unparsed();
        NextOfState(packSize, buffer);
        HeaderRead(buffer);
        if packSize == 0 && |buffer| >= SIZE_BYTES {
          packSize := DecodeLE(buffer[..SIZE_BYTES]);
          buffer := buffer[SIZE_BYTES..];
          NextOfState(packSize, buffer);
        }
        if packSize == 0 || |buffer| < packSize {
          assert Drain(held) == ([], Unparsed());
          assert frames + [] == frames;
          return;
        }
        var result := buffer[..packSize];
        AppendAssoc(frames, [result], Drain(buffer[packSize..]).0);
        frames := frames + [result];
        buffer := buffer[packSize..];
        packSize := 0;
      }
    }
  }

  /** The first frame of the unparsed bytes, when its size has been read already. */
  lemma NextOfState(packSize: nat, buffer: bytes)
    requires packSize < TWO_32
    ensures var u := EncodeLE(packSize, SIZE_BYTES) + buffer;
      packSize > 0 ==> Next(u) == (if |buffer| < packSize then None else Some((buffer[..packSize], buffer[packSize..])))
  {
    if packSize > 0 {
      Widths();
      hide EncodeLE, DecodeLE;
      DecodeEncodeLE(packSize, SIZE_BYTES);
      var u := EncodeLE(packSize, SIZE_BYTES) + buffer;
      assert u[..SIZE_BYTES] == EncodeLE(packSize, SIZE_BYTES);
      if |buffer| >= packSize {
        assert u[SIZE_BYTES..SIZE_BYTES + packSize] == buffer[..packSize];
        assert u[SIZE_BYTES + packSize..] == buffer[packSize..];
      }
    }
  }

  /** Moving the size from the front of the buffer into `packSize` keeps the unparsed bytes. */
  lemma HeaderRead(buffer: bytes)
    ensures |buffer| < SIZE_BYTES ==> Next(buffer) == None
    ensures |buffer| >= SIZE_BYTES ==> (
      var size, rest := DecodeLE(buffer[..SIZE_BYTES]), buffer[SIZE_BYTES..];
      && size < TWO_32 && EncodeLE(size, SIZE_BYTES) + rest == buffer
      && (size == 0 ==> Next(buffer) == Some(([], rest))))
  {
    Widths();
    hide EncodeLE, DecodeLE;
    if |buffer| >= SIZE_BYTES {
      EncodeDecodeLE(buffer[..SIZE_BYTES]);
      assert buffer == buffer[..SIZE_BYTES] + buffer[SIZE_BYTES..];
    }
  }

  // ---------- Writing ----------

  /** The byte stream under the codec: each write accepts some prefix of what it is given. */
  class Transport {
    var stream: bytes
    const whole: bool  // every write is accepted in full

    constructor (whole: bool)
      ensures stream == [] && this.whole == whole
    {
      stream := [];
      this.whole := whole;
    }

    method Write(data: bytes) returns (n: nat)
      modifies this
      ensures n <= |data| && stream == old(stream) + data[..n] && (whole ==> n == |data|)
    {
      n :| n <= |data| && (whole ==> n == |data|);
      stream := stream + data[..n];
    }
  }

  /** Reports success exactly when the whole frame went out; what went out is a prefix of the
      size followed by a prefix of the frame. */
  method WriteFrame(transport: Transport?, p: bytes) returns (ok: bool)
    requires Writable(p)
    modifies transport
    ensures transport == null ==> !ok
    ensures transport != null && transport.whole ==> ok
    ensures transport != null ==>
      exists m: nat, n: nat :: (m <= SIZE_BYTES && n <= |p|
        && transport.stream == old(transport.stream) + EncodeLE(|p|, SIZE_BYTES)[..m] + p[..n]
        && (ok <==> m == SIZE_BYTES && n == |p|))
    ensures ok ==> transport.stream == old(transport.stream) + Frame(p)
  {
    hide EncodeLE;
    if transport == null {
      return false;
    }
    var size := EncodeLE(|p|, SIZE_BYTES);
    var m := transport.Write(size);
    var n := transport.Write(p);
    ok := m + n == |p| + SIZE_BYTES;
    if ok {
      assert size[..m] == size && p[..n] == p;
      AppendAssoc(old(transport.stream), size, p);
    }
  }

  // ---------- Conservation: every byte received is accounted for ----------

  /** The frames, empty ones included, that one call takes off the front of `u`. */
  function Taken(u: bytes): seq<bytes>
    decreases |u|
  {
    match Next(u)
    case None => []
    case Some((f, rest)) => if f == [] then [f] else [f] + Taken(rest)
  }

  function RunTaken(u: bytes, chunks: seq<bytes>): seq<bytes>
    decreases |chunks|
  {
    if chunks == [] then [] else Taken(u + chunks[0]) + RunTaken(Drain(u + chunks[0]).1, chunks[1..])
  }

  /** Writing a frame and reading the first frame are inverse to each other. */
  lemma NextInverse(f: bytes, s: bytes)
    ensures |f| < TWO_32 ==> Next(Frame(f) + s) == Some((f, s))
    ensures Next(s).Some? ==> var (g, rest) := Next(s).value; |g| < TWO_32 && s == Frame(g) + rest
  {
    Widths();
    hide EncodeLE, DecodeLE;
    if |f| < TWO_32 {
      DecodeEncodeLE(|f|, SIZE_BYTES);
      assert (Frame(f) + s)[..SIZE_BYTES] == EncodeLE(|f|, SIZE_BYTES);
      assert (Frame(f) + s)[SIZE_BYTES..] == f + s;
    }
    if Next(s).Some? {
      EncodeDecodeLE(s[..SIZE_BYTES]);
      assert s == s[..SIZE_BYTES] + s[SIZE_BYTES..];
      AppendAssoc(s[..SIZE_BYTES], Next(s).value.0, Next(s).value.1);
    }
  }

  lemma {:induction false} StreamAppend(fs: seq<bytes>, gs: seq<bytes>)
    ensures Stream(fs + gs) == Stream(fs) + Stream(gs)
  {
    hide Frame;
    if fs == [] {
      assert fs + gs == gs;
    } else {
      assert (fs + gs)[1..] == fs[1..] + gs;
      StreamAppend(fs[1..], gs);
      AppendAssoc(Frame(fs[0]), Stream(fs[1..]), Stream(gs));
    }
  }

  lemma {:induction false} NonEmptyAppend(fs: seq<bytes>, gs: seq<bytes>)
    ensures NonEmpty(fs + gs) == NonEmpty(fs) + NonEmpty(gs)
    ensures [] !in fs ==> NonEmpty(fs) == fs
  {
    if fs == [] {
      assert fs + gs == gs;
    } else {
      var t := fs[1..];
      assert fs == [fs[0]] + t && (fs + gs)[1..] == t + gs;
      NonEmptyAppend(t, gs);
      AppendAssoc([fs[0]], NonEmpty(t), NonEmpty(gs));
    }
  }

  lemma {:induction false} BeforeEmptyAppend(fs: seq<bytes>, gs: seq<bytes>)
    ensures BeforeEmpty(fs + gs) == if [] in fs then BeforeEmpty(fs) else fs + BeforeEmpty(gs)
    ensures BeforeEmpty(fs) <= NonEmpty(fs)
  {
    hide NonEmpty;
    if fs == [] {
      assert fs + gs == gs;
      EmptyLists();
    } else {
      var t := fs[1..];
      assert fs == [fs[0]] + t && (fs + gs)[1..] == t + gs;
      BeforeEmptyAppend(t, gs);
      AppendAssoc([fs[0]], t, BeforeEmpty(gs));
      NonEmptyAppend([fs[0]], t);
    }
  }

  lemma {:induction false} DrainConserves(u: bytes)
    ensures u == Stream(Taken(u)) + Drain(u).1
    ensures Drain(u).0 == NonEmpty(Taken(u))
    ensures [] !in Taken(u) ==> Next(Drain(u).1).None?
    decreases |u|
  {
    hide Next, Frame;
    if Next(u).Some? {
      var (f, rest) := Next(u).value;
      NextInverse([], u);
      if f == [] {
        assert Stream([f]) == Frame(f) + Stream([]);
      } else {
        DrainConserves(rest);
        assert Taken(u)[1..] == Taken(rest);
        AppendAssoc(Frame(f), Stream(Taken(rest)), Drain(rest).1);
      }
    }
  }

  /** After any run: the frames taken, re-encoded, and the bytes still held are together
      exactly the bytes received; and what was emitted is the frames that are not empty. */
  lemma {:induction false} RunConserves(u: bytes, chunks: seq<bytes>)
    ensures u + Concat(chunks) == Stream(RunTaken(u, chunks)) + Run(u, chunks).1
    ensures Run(u, chunks).0 == NonEmpty(RunTaken(u, chunks))
    ensures [] !in RunTaken(u, chunks) && Next(u).None? ==> Next(Run(u, chunks).1).None?
    decreases |chunks|
  {
    hide Next, Drain, Taken, Stream, NonEmpty;
    if chunks == [] {
      EmptyLists();
    } else {
      var v, t := u + chunks[0], chunks[1..];
      var u1 := Drain(v).1;
      DrainConserves(v);
      RunConserves(u1, t);
      StreamAppend(Taken(v), RunTaken(u1, t));
      NonEmptyAppend(Taken(v), RunTaken(u1, t));
      AppendAssoc(u, chunks[0], Concat(t));
      AppendAssoc(Stream(Taken(v)), u1, Concat(t));
      AppendAssoc(Stream(Taken(v)), Stream(RunTaken(u1, t)), Run(u1, t).1);
    }
  }

  lemma EmptyLists()
    ensures Stream([]) == [] && NonEmpty([]) == [] && BeforeEmpty([]) == []
  {
  }

  // ---------- The parser inverts the writer ----------

  predicate Sized(fs: seq<bytes>) { forall f :: f in fs ==> |f| < TWO_32 }

  lemma {:induction false} ParseStream(fs: seq<bytes>, s: bytes)
    requires Sized(fs)
    ensures Parse(Stream(fs) + s) == fs + Parse(s)
  {
    hide Next, Frame;
    if fs != [] {
      var t := fs[1..];
      NextInverse(fs[0], Stream(t) + s);
      AppendAssoc(Frame(fs[0]), Stream(t), s);
      ParseStream(t, s);
      assert fs == [fs[0]] + t;
      AppendAssoc([fs[0]], t, Parse(s));
    } else {
      assert Stream(fs) + s == s && fs + Parse(s) == Parse(s);
    }
  }

  lemma {:induction false} TakenSized(u: bytes)
    ensures Sized(Taken(u))
    decreases |u|
  {
    hide Next;
    if Next(u).Some? {
      NextInverse([], u);
      TakenSized(Next(u).value.1);
    }
  }

  lemma {:induction false} RunTakenSized(u: bytes, chunks: seq<bytes>)
    ensures Sized(RunTaken(u, chunks))
    decreases |chunks|
  {
    hide Taken, Drain;
    if chunks != [] {
      TakenSized(u + chunks[0]);
      RunTakenSized(Drain(u + chunks[0]).1, chunks[1..]);
    }
  }

  // ---------- Chunking ----------

  lemma RunParse(chunks: seq<bytes>, more: bytes)
    ensures Parse(Concat(chunks) + more) == RunTaken([], chunks) + Parse(Run([], chunks).1 + more)
  {
    hide *;
    RunConserves([], chunks);
    RunTakenSized([], chunks);
    var taken, rest := RunTaken([], chunks), Run([], chunks).1;
    assert [] + Concat(chunks) == Concat(chunks);
    ParseStream(taken, rest + more);
    AppendAssoc(Stream(taken), rest, more);
  }

  /** The frames of a stream, none of them empty, come out in order however the stream is cut
      up; as long as only part of it has arrived, a prefix of them has come out. */
  lemma FramesSurviveChunking(fs: seq<bytes>, chunks: seq<bytes>, more: bytes)
    requires [] !in fs && Sized(fs)
    requires Concat(chunks) + more == Stream(fs)
    ensures Run([], chunks).0 <= fs
    ensures more == [] ==> Run([], chunks).0 == fs
  {
    hide Run, RunTaken, Stream, Next, NonEmpty, BeforeEmpty;
    var taken, rest := RunTaken([], chunks), Run([], chunks).1;
    RunConserves([], chunks);
    RunParse(chunks, more);
    ParseStream(fs, []);
    NothingToRead();
    assert Stream(fs) + [] == Stream(fs) && fs + [] == fs;
    assert taken + Parse(rest + more) == fs;
    assert taken <= fs;
    NonEmptyAppend(taken, []);
    if more == [] {
      assert rest + more == rest;
    }
  }

  lemma NothingToRead()
    ensures Next([]).None? && Parse([]) == []
  {
  }

  /** No frame that carries bytes comes after an empty one. */
  predicate NoFrameAfterEmpty(fs: seq<bytes>) {
    forall i, j :: 0 <= i < j < |fs| && fs[i] == [] ==> fs[j] == []
  }

  lemma {:induction false} AllEmpty(fs: seq<bytes>)
    ensures NonEmpty(fs) == [] <==> forall i :: 0 <= i < |fs| ==> fs[i] == []
  {
    if fs != [] {
      var t := fs[1..];
      AllEmpty(t);
      assert forall i :: 0 <= i < |t| ==> t[i] == fs[i + 1];
      assert forall i :: 0 < i < |fs| ==> fs[i] == t[i - 1];
    }
  }

  lemma {:induction false} EmptiesLast(fs: seq<bytes>)
    ensures NonEmpty(fs) == BeforeEmpty(fs) <==> NoFrameAfterEmpty(fs)
  {
    if fs != [] {
      var t := fs[1..];
      EmptiesLast(t);
      AllEmpty(t);
      assert forall i :: 0 <= i < |t| ==> t[i] == fs[i + 1];
      assert forall i :: 0 < i < |fs| ==> fs[i] == t[i - 1];
      if fs[0] == [] {
        assert NonEmpty(fs) == NonEmpty(t) && BeforeEmpty(fs) == [];
        if i :| 0 <= i < |t| && t[i] != [] {
          assert fs[0] == [] && fs[i + 1] != [];
        }
      } else {
        assert NonEmpty(fs) == [fs[0]] + NonEmpty(t) && BeforeEmpty(fs) == [fs[0]] + BeforeEmpty(t);
        assert NonEmpty(t) == NonEmpty(fs)[1..] && BeforeEmpty(t) == BeforeEmpty(fs)[1..];
        if NoFrameAfterEmpty(fs) {
          assert NoFrameAfterEmpty(t);
        } else {
          var i, j :| 0 <= i < j < |fs| && fs[i] == [] && fs[j] != [];
          assert t[i - 1] == [] && t[j - 1] != [];
        }
      }
    }
  }

  lemma {:induction false} DrainBeforeEmpty(u: bytes)
    ensures Drain(u).0 == BeforeEmpty(Parse(u))
    decreases |u|
  {
    hide Next;
    if Next(u).Some? {
      DrainBeforeEmpty(Next(u).value.1);
    }
  }

  lemma OneShot(s: bytes)
    ensures Run([], [s]).0 == BeforeEmpty(Parse(s))
  {
    hide Drain, Parse, BeforeEmpty;
    DrainBeforeEmpty(s);
    assert [] + s == s && [s][1..] == [];
    assert Run([], [s]).0 == Drain(s).0 + [];
  }

  /** Every run emits at least what comes before the first empty frame and at most what is not empty. */
  lemma RunBetween(chunks: seq<bytes>)
    ensures BeforeEmpty(Parse(Concat(chunks))) <= Run([], chunks).0 <= NonEmpty(Parse(Concat(chunks)))
  {
    hide Next, Run, RunTaken, NonEmpty, BeforeEmpty, Concat;
    var s, taken, rest := Concat(chunks), RunTaken([], chunks), Run([], chunks).1;
    RunParse(chunks, []);
    assert s + [] == s && rest + [] == rest;
    RunConserves([], chunks);
    NothingToRead();
    NonEmptyAppend(taken, Parse(rest));
    BeforeEmptyAppend(taken, Parse(rest));
    if [] !in taken {
      assert Parse(rest) == [];
      assert taken + [] == taken;
      EmptyLists();
    }
  }

  function Singletons(s: bytes): seq<bytes> {
    if s == [] then [] else [[s[0]]] + Singletons(s[1..])
  }

  lemma {:induction false} SingletonsConcat(s: bytes)
    ensures Concat(Singletons(s)) == s
  {
    if s != [] {
      SingletonsConcat(s[1..]);
      assert Singletons(s)[1..] == Singletons(s[1..]);
      assert s == [s[0]] + s[1..];
    }
  }

  /** One more byte completes at most one frame, and then nothing is left over. */
  lemma OneByte(u: bytes, b: byte)
    requires Next(u).None? && Next(u + [b]).Some?
    ensures Next(u + [b]).value.1 == []
  {
    hide DecodeLE;
    if |u| >= SIZE_BYTES {
      assert (u + [b])[..SIZE_BYTES] == u[..SIZE_BYTES];
    }
  }

  /** One call with one byte: nothing is left that a further call could use. */
  lemma OneByteDrain(u: bytes, b: byte, t: bytes)
    requires Next(u).None?
    ensures var (fs, u1) := Drain(u + [b]);
      Next(u1).None? && NonEmpty(Parse(u + [b] + t)) == fs + NonEmpty(Parse(u1 + t))
  {
    hide Next, Frame;
    var v := u + [b];
    if Next(v).Some? {
      var f := Next(v).value.0;
      OneByte(u, b);
      NextInverse(f, t);
      NextInverse(f, v);
      assert v == Frame(f);
      NothingToRead();
      assert [] + t == t;
      assert Drain([]) == ([], []);
    } else {
      assert [] + NonEmpty(Parse(v + t)) == NonEmpty(Parse(v + t));
    }
  }

  lemma {:induction false} ByteAtATime(u: bytes, s: bytes)
    requires Next(u).None?
    ensures Run(u, Singletons(s)).0 == NonEmpty(Parse(u + s))
    decreases |s|
  {
    hide Next, Drain;
    if s == [] {
      assert u + s == u;
      assert Parse(u) == [];
    } else {
      hide Parse, NonEmpty;
      var t := s[1..];
      assert s == [s[0]] + t && Singletons(s)[1..] == Singletons(t);
      AppendAssoc(u, [s[0]], t);
      OneByteDrain(u, s[0], t);
      ByteAtATime(Drain(u + [s[0]]).1, t);
    }
  }

  /** Cutting the stream up differently never changes the frames, exactly when no frame that
      carries bytes follows an empty frame. */
  lemma ChunkingIndependentIff(s: bytes)
    ensures (forall chunks :: Concat(chunks) == s ==> Run([], chunks).0 == Run([], [s]).0)
       <==> NoFrameAfterEmpty(Parse(s))
  {
    hide *;
    OneShot(s);
    EmptiesLast(Parse(s));
    if NoFrameAfterEmpty(Parse(s)) {
      forall chunks | Concat(chunks) == s ensures Run([], chunks).0 == Run([], [s]).0 {
        RunBetween(chunks);
      }
    } else {
      SingletonsConcat(s);
      NothingToRead();
      ByteAtATime([], s);
      assert [] + s == s;
    }
  }
}
