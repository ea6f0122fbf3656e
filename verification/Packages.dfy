/** Packages: a growable byte buffer that starts with a 9-byte header
    (8 bytes of node id, 1 byte of command), read and written at offsets past the header. */
module Packages {
  import opened Bytes

  const HEADER_SIZE: nat := 9

  datatype Option<+T> = None | Some(value: T)

  // ---------- What the bytes of a package mean ----------

  predicate WellFormed(p: bytes) { |p| >= HEADER_SIZE }

  function NidOf(p: bytes): (n: nat)
    requires WellFormed(p)
    ensures n < TWO_64
  {
    Widths();
    DecodeLE(p[..8])
  }

  function CmdOf(p: bytes): byte
    requires WellFormed(p)
  {
    p[8]
  }

  /** A package whose header is (nid, cmd) and whose data is `payload`. */
  function MakePackage(cmd: byte, nid: nat, payload: bytes): (p: bytes)
    ensures WellFormed(p)
  {
    EncodeLE(nid, 8) + [cmd] + payload
  }

  /** Reading `sz` bytes at offset `pos`; fails when they are not all inside the package. */
  function ReadBytes(p: bytes, pos: nat, sz: nat): Option<bytes> {
    if HEADER_SIZE + pos + sz > |p| then None else Some(p[HEADER_SIZE + pos..HEADER_SIZE + pos + sz])
  }

  /** Reading an integer `w` bytes wide; 0 when the read fails. */
  function ReadScalar(p: bytes, pos: nat, w: nat): nat {
    match ReadBytes(p, pos, w)
    case None => 0
    case Some(b) => DecodeLE(b)
  }

  /** A string on the wire: its length on 4 bytes, then its characters. */
  function StringField(s: bytes): bytes { EncodeLE(|s| % TWO_32, 4) + s }

  /** The string at `pos` and the offset after it. The characters are all zero when the
      length field runs past the end of the package. */
  function ReadString(p: bytes, pos: nat): (bytes, nat) {
    var sz := ReadScalar(p, pos, 4);
    var s := match ReadBytes(p, pos + 4, sz) { case None => Zeros(sz) case Some(b) => b };
    (s, pos + 4 + sz)
  }

  /** Copying a package keeps its bytes and adds one empty header's worth of zeros. */
  function Copied(p: bytes): bytes { p + Zeros(HEADER_SIZE) }

  // ---------- The class ----------

  class Package {
    var data: bytes

    ghost predicate Valid() reads this { WellFormed(data) }

    constructor ()
      ensures Valid() && data == MakePackage(0, 0, [])
    {
      data := [];
      new;
      ExtendBy(8);
      ExtendBy(1);
      HeaderOfZeros();
    }

    constructor Copy(p: Package)
      requires p.Valid()
      ensures Valid() && data == Copied(p.data)
    {
      data := p.data;
      new;
      ExtendBy(8);
      ExtendBy(1);
      ZerosAppend(8, 1);
      PaddedHeader(p.data, Zeros(9));
      SetCmd(p.GetCmd());
      SetNid(p.GetNid());
      SameHeader(p.data);
    }

    /** Assignment takes its operand by value, so it stores the bytes of a copy. */
    method Assign(p: Package)
      requires p.Valid()
      modifies this
      ensures Valid() && data == Copied(old(p.data))
    {
      var op := new Package.Copy(p);
      Resize(|op.data|);
      data := op.data;
      SetNid(op.GetNid());
      SetCmd(op.GetCmd());
      SameHeader(op.data);
    }

    method Resize(n: nat)
      modifies this
      ensures data == (if n <= |old(data)| then old(data)[..n] else old(data) + Zeros(n - |old(data)|))
    {
      data := if n <= |data| then data[..n] else data + Zeros(n - |data|);
    }

    method ExtendBy(amount: nat)
      modifies this
      ensures data == old(data) + Zeros(amount)
    {
      Resize(|data| + amount);
    }

    method Append(b: bytes)
      modifies this
      ensures data == old(data) + b
    {
      var pos := |data|;
      ExtendBy(|b|);
      data := data[..pos] + b;
    }

    method AppendString(s: bytes)
      requires |s| < 0x8000_0000  // the byte count is passed on as a signed 32-bit integer
      modifies this
      ensures data == old(data) + StringField(s)
    {
      Append(EncodeLE(|s| % TWO_32, 4));
      Append(s);
    }

    method Read(pos: nat, sz: nat) returns (ok: bool, got: bytes)
      ensures (if ok then Some(got) else None) == ReadBytes(data, pos, sz)
      ensures !ok ==> got == []
    {
      var at := pos + HEADER_SIZE;
      if at + sz > |data| {
        return false, [];
      }
      return true, data[at..at + sz];
    }

    method GetString(pos: nat) returns (s: bytes, next: nat)
      ensures (s, next) == ReadString(data, pos)
    {
      var okSize, size := Read(pos, 4);
      var sz := if okSize then DecodeLE(size) else 0;
      s := Zeros(sz);
      next := pos + 4;
      var ok, chars := Read(next, sz);
      if ok {
        s := chars;
      }
      next := next + |s|;
    }

    function GetNid(): nat
      requires Valid()
      reads this
    {
      NidOf(data)
    }

    function GetCmd(): byte
      requires Valid()
      reads this
    {
      CmdOf(data)
    }

    method SetNid(n: nat)
      requires Valid() && n < TWO_64
      modifies this
      ensures Valid() && data == EncodeLE(n, 8) + old(data)[8..]
      ensures GetNid() == n && GetCmd() == old(GetCmd()) && data[9..] == old(data)[9..]
    {
      Widths();
      DecodeEncodeLE(n, 8);
      data := EncodeLE(n, 8) + data[8..];
      assert data[..8] == EncodeLE(n, 8);
    }

    method SetCmd(c: byte)
      requires Valid()
      modifies this
      ensures Valid() && data == old(data)[8 := c]
      ensures GetCmd() == c && GetNid() == old(GetNid()) && data[9..] == old(data)[9..]
    {
      data := data[8 := c];
      assert data[..8] == old(data)[..8];
    }
  }

  lemma HeaderOfZeros()
    ensures MakePackage(0, 0, []) == Zeros(9)
  {
    DecodeZeros(8);
    EncodeDecodeLE(Zeros(8));
    assert EncodeLE(0, 8) == Zeros(8);
    assert MakePackage(0, 0, []) == Zeros(8) + [0];
  }

  /** Writing back the header a package (or its copy) already has changes nothing. */
  lemma SameHeader(p: bytes)
    requires WellFormed(p)
    ensures EncodeLE(NidOf(p), 8) + p[8..] == p && p[8 := CmdOf(p)] == p
    ensures var c := p + Zeros(9); EncodeLE(NidOf(p), 8) + c[8 := CmdOf(p)][8..] == c
  {
    EncodeDecodeLE(p[..8]);
    assert p == p[..8] + p[8..];
    var c := p + Zeros(9);
    assert c[8 := CmdOf(p)] == c;
    assert c == c[..8] + c[8..] && c[..8] == p[..8];
  }

  lemma PaddedHeader(p: bytes, z: bytes)
    requires WellFormed(p)
    ensures NidOf(p + z) == NidOf(p) && CmdOf(p + z) == CmdOf(p)
  {
    assert (p + z)[..8] == p[..8];
  }

  lemma HeaderFields(cmd: byte, nid: nat, payload: bytes)
    requires nid < TWO_64
    ensures NidOf(MakePackage(cmd, nid, payload)) == nid
    ensures CmdOf(MakePackage(cmd, nid, payload)) == cmd
    ensures MakePackage(cmd, nid, payload)[HEADER_SIZE..] == payload
  {
    Widths();
    DecodeEncodeLE(nid, 8);
    assert MakePackage(cmd, nid, payload)[..8] == EncodeLE(nid, 8);
  }

  lemma PaddedFields(cmd: byte, nid: nat, payload: bytes, pad: nat)
    requires nid < TWO_64
    ensures var p := MakePackage(cmd, nid, payload) + Zeros(pad); NidOf(p) == nid && CmdOf(p) == cmd
  {
    HeaderFields(cmd, nid, payload);
    PaddedHeader(MakePackage(cmd, nid, payload), Zeros(pad));
  }

  // ---------- Copies refine the original ----------

  /** The bytes after `n` copies or assignments in a row. */
  function CopiedTimes(p: bytes, n: nat): bytes {
    if n == 0 then p else Copied(CopiedTimes(p, n - 1))
  }

  lemma {:induction false} CopiesPad(p: bytes, n: nat)
    ensures CopiedTimes(p, n) == p + Zeros(HEADER_SIZE * n)
  {
    if n > 0 {
      CopiesPad(p, n - 1);
      ZerosAppend(HEADER_SIZE * (n - 1), HEADER_SIZE);
      assert CopiedTimes(p, n) == p + (Zeros(HEADER_SIZE * (n - 1)) + Zeros(HEADER_SIZE));
    }
  }

  /** However often a package is copied: the header, every read that succeeded and every
      integer read from past the original's end are the same in the copy. */
  lemma CopiesRefine(p: bytes, n: nat)
    requires WellFormed(p)
    ensures var c := CopiedTimes(p, n);
      && |c| == |p| + HEADER_SIZE * n
      && NidOf(c) == NidOf(p) && CmdOf(c) == CmdOf(p)
      && (forall pos: nat, sz: nat :: ReadBytes(p, pos, sz).Some? ==> ReadBytes(c, pos, sz) == ReadBytes(p, pos, sz))
      && (forall pos: nat, w: nat :: HEADER_SIZE + pos >= |p| ==>
        ReadScalar(p, pos, w) == 0 && ReadScalar(c, pos, w) == 0)
  {
    CopiesPad(p, n);
    PaddedHeader(p, Zeros(HEADER_SIZE * n));
    var c := CopiedTimes(p, n);
    forall pos: nat, sz: nat | ReadBytes(p, pos, sz).Some?
      ensures ReadBytes(c, pos, sz) == ReadBytes(p, pos, sz)
    {
      assert c[HEADER_SIZE + pos..HEADER_SIZE + pos + sz] == p[HEADER_SIZE + pos..HEADER_SIZE + pos + sz];
    }
    forall pos: nat, w: nat | HEADER_SIZE + pos >= |p|
      ensures ReadScalar(p, pos, w) == 0 && ReadScalar(c, pos, w) == 0
    {
      PastTheEnd(p, HEADER_SIZE * n, pos, w);
    }
  }

  lemma PastTheEnd(p: bytes, z: nat, pos: nat, w: nat)
    requires HEADER_SIZE + pos >= |p|
    ensures ReadScalar(p, pos, w) == 0 && ReadScalar(p + Zeros(z), pos, w) == 0
  {
    DecodeZeros(w);
    match ReadBytes(p + Zeros(z), pos, w) {
      case None =>
      case Some(b) => assert b == Zeros(w);
    }
    match ReadBytes(p, pos, w) {
      case None =>
      case Some(b) => assert b == Zeros(0) && w == 0;
    }
  }

  /** The one kind of read on which a padded package can differ: an integer that starts inside
      the data and ends in the padding. The original gives 0, the copy gives the value of
      the bytes that are there, so the two agree exactly when those bytes are all zero. */
  lemma StraddlingRead(p: bytes, z: nat, pos: nat, w: nat)
    requires HEADER_SIZE + pos < |p| < HEADER_SIZE + pos + w <= |p| + z
    ensures ReadScalar(p, pos, w) == 0
    ensures ReadScalar(p + Zeros(z), pos, w) == DecodeLE(p[HEADER_SIZE + pos..])
    ensures ReadScalar(p + Zeros(z), pos, w) == ReadScalar(p, pos, w)
       <==> p[HEADER_SIZE + pos..] == Zeros(|p| - HEADER_SIZE - pos)
  {
    var tail := p[HEADER_SIZE + pos..];
    var at := HEADER_SIZE + pos;
    assert (p + Zeros(z))[at..at + w] == tail + Zeros(w - |tail|);
    DecodePadded(tail, w - |tail|);
    DecodeZeros(|tail|);
    EncodeDecodeLE(tail);
    EncodeDecodeLE(Zeros(|tail|));
  }

  // ---------- Reading back what was appended ----------

  /** `field` is what the data of `p` holds at offset `pos`. */
  predicate HasAt(p: bytes, pos: nat, field: bytes) {
    HEADER_SIZE + pos + |field| <= |p| && p[HEADER_SIZE + pos..HEADER_SIZE + pos + |field|] == field
  }

  lemma ReadIntAt(p: bytes, pos: nat, v: nat, w: nat)
    requires w in {1, 4, 8}
    requires v < if w == 1 then 256 else if w == 4 then TWO_32 else TWO_64
    requires HasAt(p, pos, EncodeLE(v, w))
    ensures ReadScalar(p, pos, w) == v
  {
    Widths();
    DecodeEncodeLE(v, w);
  }

  lemma HasAtSplit(p: bytes, pos: nat, a: bytes, b: bytes)
    ensures HasAt(p, pos, a + b) <==> HasAt(p, pos, a) && HasAt(p, pos + |a|, b)
  {
    var at := HEADER_SIZE + pos;
    if at + |a| + |b| <= |p| {
      assert p[at..at + |a| + |b|] == p[at..at + |a|] + p[at + |a|..at + |a| + |b|];
      if HasAt(p, pos, a + b) {
        assert p[at..at + |a|] == (a + b)[..|a|] == a;
        assert p[at + |a|..at + |a| + |b|] == (a + b)[|a|..] == b;
      }
    }
  }

  /** A string is read back from where it was appended, whatever precedes or follows it. */
  lemma ReadStringAt(p: bytes, pos: nat, s: bytes)
    requires |s| < TWO_32 && HasAt(p, pos, StringField(s))
    ensures ReadString(p, pos) == (s, pos + |StringField(s)|)
  {
    assert StringField(s) == EncodeLE(|s|, 4) + s;
    HasAtSplit(p, pos, EncodeLE(|s|, 4), s);
    assert ReadScalar(p, pos, 4) == |s| by {
      ReadIntAt(p, pos, |s|, 4);
    }
    assert ReadBytes(p, pos + 4, |s|) == Some(s);
  }

  /** Where the fields of a padded package are. */
  lemma FieldsAt(cmd: byte, nid: nat, a: bytes, b: bytes, c: bytes, d: bytes, z: bytes)
    ensures var p := MakePackage(cmd, nid, a + b + c + d) + z;
      HasAt(p, 0, a) && HasAt(p, |a|, b) && HasAt(p, |a| + |b|, c) && HasAt(p, |a| + |b| + |c|, d)
  {
    var p := MakePackage(cmd, nid, a + b + c + d) + z;
    assert HasAt(p, 0, a + b + c + d);
    HasAtSplit(p, 0, a + b + c, d);
    HasAtSplit(p, 0, a + b, c);
    HasAtSplit(p, 0, a, b);
  }
}
