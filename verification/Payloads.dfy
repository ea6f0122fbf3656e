/** The payload of every command, as its sender appends it and as its receiver reads it. */
module Payloads {
  import opened Bytes
  import opened Packages

  const CMD_AT: byte := 1
  const CMD_AT_SUCCESS: byte := 2
  const CMD_AT_ERROR: byte := 3
  const CMD_LS: byte := 4
  const CMD_LS_SUCCESS: byte := 5
  const CMD_LS_ERROR: byte := 6
  const CMD_PROP_GET_VALUE: byte := 8
  const CMD_PROP_GET_VALUE_ERROR: byte := 9
  const CMD_PROP_GET_VALUE_SUCCESS: byte := 10
  const CMD_SUBSCRIBE: byte := 11
  const CMD_UNSUBSCRIBE: byte := 12
  const CMD_PROP_VALUE_UPDATED: byte := 13
  const CMD_PROP_SET_VALUE: byte := 14
  const CMD_NODE_ATTACH: byte := 15
  const CMD_GENERATE_NID: byte := 17
  const CMD_CHILD_ADDED: byte := 18
  const CMD_SUBSCRIBE_ADD_REMOVE: byte := 19

  /** Strings whose length the `int` parameter of `append` can carry. */
  predicate Short(s: bytes) { |s| < 0x8000_0000 }

  method NewPackage(cmd: byte, nid: nat) returns (p: Package)
    requires nid < TWO_64
    ensures fresh(p) && p.Valid() && p.data == MakePackage(cmd, nid, [])
  {
    p := new Package();
    p.SetCmd(cmd);
    p.SetNid(nid);
    assert p.data[8..] == [cmd];
  }

  // ---------- AT and its reply: one string ----------

  method EncodeName(cmd: byte, nid: nat, name: bytes) returns (p: Package)
    requires nid < TWO_64 && Short(name)
    ensures fresh(p) && p.Valid() && p.data == MakePackage(cmd, nid, StringField(name))
  {
    p := NewPackage(cmd, nid);
    p.AppendString(name);
  }

  lemma NameRoundTrip(cmd: byte, nid: nat, name: bytes, pad: nat)
    requires nid < TWO_64 && Short(name)
    ensures var p := MakePackage(cmd, nid, StringField(name)) + Zeros(pad);
      NidOf(p) == nid && CmdOf(p) == cmd && ReadString(p, 0).0 == name
  {
    PaddedFields(cmd, nid, StringField(name), pad);
    var p := MakePackage(cmd, nid, StringField(name)) + Zeros(pad);
    assert HasAt(p, 0, StringField(name));
    ReadStringAt(p, 0, name);
  }

  // ---------- LS reply: a count and that many strings ----------

  function StringFields(list: seq<bytes>): bytes {
    if list == [] then [] else StringField(list[0]) + StringFields(list[1..])
  }

  lemma {:induction false} StringFieldsSnoc(list: seq<bytes>, s: bytes)
    ensures StringFields(list + [s]) == StringFields(list) + StringField(s)
  {
    if list == [] {
      assert list + [s] == [s] && [s][1..] == [];
    } else {
      StringFieldsSnoc(list[1..], s);
      assert (list + [s])[1..] == list[1..] + [s];
    }
  }

  function LsPayload(list: seq<bytes>): bytes { EncodeLE(|list| % TWO_32, 4) + StringFields(list) }

  function ReadStrings(p: bytes, pos: nat, count: nat): seq<bytes>
    decreases count
  {
    if count == 0 then [] else
      var (s, next) := ReadString(p, pos);
      [s] + ReadStrings(p, next, count - 1)
  }

  /** The names a reply to LS carries; none unless the reply reports success. */
  function DecodeLs(p: bytes): seq<bytes>
    requires WellFormed(p)
  {
    if CmdOf(p) != CMD_LS_SUCCESS then [] else ReadStrings(p, 4, ReadScalar(p, 0, 4))
  }

  method CmdLsReply(nid: nat, list: seq<bytes>) returns (p: Package)
    requires nid < TWO_64 && forall i :: 0 <= i < |list| ==> Short(list[i])
    ensures fresh(p) && p.Valid() && p.data == MakePackage(CMD_LS_SUCCESS, nid, LsPayload(list))
  {
    hide StringField, EncodeLE;
    p := NewPackage(CMD_LS_SUCCESS, nid);
    ghost var start := p.data + EncodeLE(|list| % TWO_32, 4);
    p.Append(EncodeLE(|list| % TWO_32, 4));
    for i := 0 to |list|
      invariant fresh(p) && p.Valid()
      invariant p.data == start + StringFields(list[..i])
    {
      p.AppendString(list[i]);
      StringFieldsSnoc(list[..i], list[i]);
      AppendAssoc(start, StringFields(list[..i]), StringField(list[i]));
      assert list[..i + 1] == list[..i] + [list[i]];
    }
    assert list[..|list|] == list;
  }

  lemma {:induction false} ReadStringsSnoc(p: bytes, pos: nat, count: nat, at: nat)
    requires StringsEnd(p, pos, count) == at
    ensures ReadStrings(p, pos, count + 1) == ReadStrings(p, pos, count) + [ReadString(p, at).0]
    ensures StringsEnd(p, pos, count + 1) == ReadString(p, at).1
    decreases count
  {
    if count > 0 {
      ReadStringsSnoc(p, ReadString(p, pos).1, count - 1, at);
    }
  }

  function StringsEnd(p: bytes, pos: nat, count: nat): nat
    decreases count
  {
    if count == 0 then pos else StringsEnd(p, ReadString(p, pos).1, count - 1)
  }

  method Ls(rep: Package) returns (res: seq<bytes>)
    requires rep.Valid()
    ensures res == DecodeLs(rep.data)
  {
    res := [];
    if rep.GetCmd() != CMD_LS_SUCCESS {
      return;
    }
    var pos := 0;
    var ok, counted := rep.Read(pos, 4);
    var count := if ok then DecodeLE(counted) else 0;
    pos := pos + 4;
    for i := 0 to count
      invariant res == ReadStrings(rep.data, 4, i)
      invariant pos == StringsEnd(rep.data, 4, i)
    {
      var name, next := rep.GetString(pos);
      ReadStringsSnoc(rep.data, 4, i, pos);
      pos := next;
      res := res + [name];
    }
  }

  lemma {:induction false} ReadStringsAt(p: bytes, pos: nat, list: seq<bytes>)
    requires HasAt(p, pos, StringFields(list)) && forall i :: 0 <= i < |list| ==> Short(list[i])
    ensures ReadStrings(p, pos, |list|) == list
    decreases |list|
  {
    if list != [] {
      HasAtSplit(p, pos, StringField(list[0]), StringFields(list[1..]));
      ReadStringAt(p, pos, list[0]);
      hide HasAt, StringField, ReadString;
      ReadStringsAt(p, pos + |StringField(list[0])|, list[1..]);
    }
  }

  lemma LsRoundTrip(nid: nat, list: seq<bytes>, pad: nat)
    requires nid < TWO_64 && |list| < TWO_32 && forall i :: 0 <= i < |list| ==> Short(list[i])
    ensures DecodeLs(MakePackage(CMD_LS_SUCCESS, nid, LsPayload(list)) + Zeros(pad)) == list
  {
    PaddedFields(CMD_LS_SUCCESS, nid, LsPayload(list), pad);
    assert HasAt(MakePackage(CMD_LS_SUCCESS, nid, LsPayload(list)) + Zeros(pad), 0, LsPayload(list)) by {
      hide StringFields, EncodeLE, LsPayload;
    }
    hide MakePackage, StringFields, ReadStrings, ReadScalar, EncodeLE, CmdOf, HasAt, Zeros;
    var p := MakePackage(CMD_LS_SUCCESS, nid, LsPayload(list)) + Zeros(pad);
    var count := EncodeLE(|list|, 4);
    HasAtSplit(p, 0, count, StringFields(list));
    ReadIntAt(p, 0, |list|, 4);
    ReadStringsAt(p, 4, list);
  }

  // ---------- GET reply and UPDATED: a length and that many bytes ----------

  function ValuePayload(v: bytes): bytes { StringField(v) }

  /** The buffer handed to the deserializer: zero-filled first, so a failed read leaves zeros. */
  method ReadValue(p: Package) returns (v: bytes)
    ensures v == ReadString(p.data, 0).0
  {
    var okSize, size := p.Read(0, 4);
    v := Zeros(if okSize then DecodeLE(size) else 0);
    var ok, got := p.Read(4, |v|);
    if ok {
      v := got;
    }
  }

  lemma ValueRoundTrip(cmd: byte, nid: nat, v: bytes, pad: nat)
    requires nid < TWO_64 && Short(v)
    ensures var p := MakePackage(cmd, nid, ValuePayload(v)) + Zeros(pad);
      NidOf(p) == nid && CmdOf(p) == cmd && ReadString(p, 0).0 == v
  {
    NameRoundTrip(cmd, nid, v, pad);
  }

  /** A GET that failed is read as an empty value, although its reader never looks at the command. */
  lemma ErrorReplyIsEmptyValue(cmd: byte, nid: nat, pad: nat)
    ensures ReadString(MakePackage(cmd, nid, []) + Zeros(pad), 0).0 == []
  {
    PastTheEnd(MakePackage(cmd, nid, []), pad, 0, 4);
    assert |ReadString(MakePackage(cmd, nid, []) + Zeros(pad), 0).0| == 0;
  }

  // ---------- SET: the bare value ----------

  function DecodeSet(p: bytes): bytes
    requires WellFormed(p)
  {
    p[HEADER_SIZE..]
  }

  /** SET has no length field, so its value survives exactly when nothing was padded:
      it must be sent with `write`, never with `send`. */
  lemma SetRoundTrip(nid: nat, v: bytes, pad: nat)
    requires nid < TWO_64
    ensures DecodeSet(MakePackage(CMD_PROP_SET_VALUE, nid, v) + Zeros(pad)) == v <==> pad == 0
  {
    HeaderFields(CMD_PROP_SET_VALUE, nid, v);
    var p := MakePackage(CMD_PROP_SET_VALUE, nid, v);
    assert DecodeSet(p + Zeros(pad)) == DecodeSet(p) + Zeros(pad);
    if pad == 0 {
      assert v + Zeros(0) == v;
    } else {
      assert |v + Zeros(pad)| != |v|;
    }
  }

  // ---------- ATTACH: type, name, nid ----------

  function AttachPayload(typ: bytes, name: bytes, child: nat): bytes {
    StringField(typ) + StringField(name) + EncodeLE(child, 8)
  }

  method EncodeAttach(parent: nat, typ: bytes, name: bytes, child: nat) returns (p: Package)
    requires parent < TWO_64 && child < TWO_64 && Short(typ) && Short(name)
    ensures fresh(p) && p.Valid() && p.data == MakePackage(CMD_NODE_ATTACH, parent, AttachPayload(typ, name, child))
  {
    p := NewPackage(CMD_NODE_ATTACH, parent);
    p.AppendString(typ);
    p.AppendString(name);
    p.Append(EncodeLE(child, 8));
  }

  function DecodeAttach(p: bytes): (bytes, bytes, nat) {
    var (typ, pos1) := ReadString(p, 0);
    var (name, pos2) := ReadString(p, pos1);
    (typ, name, ReadScalar(p, pos2, 8))
  }

  method ReadAttach(p: Package) returns (typ: bytes, name: bytes, child: nat)
    ensures (typ, name, child) == DecodeAttach(p.data)
  {
    var pos;
    typ, pos := p.GetString(0);
    name, pos := p.GetString(pos);
    var ok, b := p.Read(pos, 8);
    child := if ok then DecodeLE(b) else 0;
  }

  lemma AttachRoundTrip(parent: nat, typ: bytes, name: bytes, child: nat, pad: nat)
    requires parent < TWO_64 && child < TWO_64 && Short(typ) && Short(name)
    ensures var p := MakePackage(CMD_NODE_ATTACH, parent, AttachPayload(typ, name, child)) + Zeros(pad);
      NidOf(p) == parent && DecodeAttach(p) == (typ, name, child)
  {
    var payload := AttachPayload(typ, name, child);
    var p := MakePackage(CMD_NODE_ATTACH, parent, payload) + Zeros(pad);
    PaddedFields(CMD_NODE_ATTACH, parent, payload, pad);
    var t, n, c := StringField(typ), StringField(name), EncodeLE(child, 8);
    assert HasAt(p, 0, payload);
    HasAtSplit(p, 0, t + n, c);
    HasAtSplit(p, 0, t, n);
    assert ReadString(p, 0) == (typ, |t|) by { ReadStringAt(p, 0, typ); }
    assert ReadString(p, |t|) == (name, |t| + |n|) by { ReadStringAt(p, |t|, name); }
    ReadIntAt(p, |t| + |n|, child, 8);
  }

  // ---------- CHILD_ADDED: nid, name, type, ownership ----------

  function ChildAddedPayload(child: nat, name: bytes, typ: bytes, owned: bool): bytes {
    EncodeLE(child, 8) + StringField(name) + StringField(typ) + EncodeLE(if owned then 1 else 0, 1)
  }

  method EncodeChildAdded(parent: nat, child: nat, name: bytes, typ: bytes, owned: bool) returns (p: Package)
    requires parent < TWO_64 && child < TWO_64 && Short(typ) && Short(name)
    ensures fresh(p) && p.Valid()
    ensures p.data == MakePackage(CMD_CHILD_ADDED, parent, ChildAddedPayload(child, name, typ, owned))
  {
    p := NewPackage(CMD_CHILD_ADDED, parent);
    p.Append(EncodeLE(child, 8));
    p.AppendString(name);
    p.AppendString(typ);
    p.Append(EncodeLE(if owned then 1 else 0, 1));
  }

  function DecodeChildAdded(p: bytes): (nat, bytes, bytes, bool) {
    var child := ReadScalar(p, 0, 8);
    var (name, pos1) := ReadString(p, 8);
    var (typ, pos2) := ReadString(p, pos1);
    (child, name, typ, ReadScalar(p, pos2, 1) != 0)
  }

  method ReadChildAdded(p: Package) returns (child: nat, name: bytes, typ: bytes, owned: bool)
    ensures (child, name, typ, owned) == DecodeChildAdded(p.data)
  {
    var ok, b := p.Read(0, 8);
    child := if ok then DecodeLE(b) else 0;
    var pos := 8;
    name, pos := p.GetString(pos);
    typ, pos := p.GetString(pos);
    ok, b := p.Read(pos, 1);
    owned := ok && DecodeLE(b) != 0;
  }

  lemma ChildAddedRoundTrip(parent: nat, child: nat, name: bytes, typ: bytes, owned: bool, pad: nat)
    requires parent < TWO_64 && child < TWO_64 && Short(typ) && Short(name)
    ensures var p := MakePackage(CMD_CHILD_ADDED, parent, ChildAddedPayload(child, name, typ, owned)) + Zeros(pad);
      NidOf(p) == parent && DecodeChildAdded(p) == (child, name, typ, owned)
  {
    var payload := ChildAddedPayload(child, name, typ, owned);
    var p := MakePackage(CMD_CHILD_ADDED, parent, payload) + Zeros(pad);
    PaddedFields(CMD_CHILD_ADDED, parent, payload, pad);
    var flag := if owned then 1 else 0;
    var c, n, t, f := EncodeLE(child, 8), StringField(name), StringField(typ), EncodeLE(flag, 1);
    FieldsAt(CMD_CHILD_ADDED, parent, c, n, t, f, Zeros(pad));
    ReadIntAt(p, 0, child, 8);
    ReadStringAt(p, 8, name);
    ReadStringAt(p, 8 + |n|, typ);
    ReadIntAt(p, 8 + |n| + |t|, flag, 1);
  }
}
