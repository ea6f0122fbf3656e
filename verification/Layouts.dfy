/** What the packages look like on the stream, byte by byte. */
module Layouts {
  import opened Bytes
  import opened Packages
  import opened Payloads
  import opened Framing
  import opened MessageIds
  import opened Dispatcher

  lemma LowByteFirst(v: byte, n: nat)
    requires n > 0
    ensures EncodeLE(v, n) == [v] + EncodeLE(0, n - 1)
  {
    assert v % 256 == v && v / 256 == 0;
  }

  /** Integers are little-endian, on one byte, four or eight. */
  lemma OnOne(v: byte)
    ensures EncodeLE(v, 1) == [v]
  {
    LowByteFirst(v, 1);
  }

  lemma OnFour(v: byte)
    ensures EncodeLE(v, 4) == [v, 0, 0, 0]
  {
    LowByteFirst(v, 4);
    LowByteFirst(0, 3);
    LowByteFirst(0, 2);
    LowByteFirst(0, 1);
    assert EncodeLE(0, 0) == [];
    hide EncodeLE;
  }

  lemma OnEight(v: byte)
    ensures EncodeLE(v, 8) == [v, 0, 0, 0, 0, 0, 0, 0]
  {
    LowByteFirst(v, 8);
    LowByteFirst(0, 7);
    LowByteFirst(0, 6);
    LowByteFirst(0, 5);
    OnFour(0);
    hide EncodeLE;
  }

  /** On two bytes: 258 is 2 and 1. */
  lemma TwoBytes(low: byte, high: byte)
    ensures EncodeLE(low + 256 * high, 2) == [low, high]
  {
    var v := low + 256 * high;
    assert v % 256 == low && v / 256 == high;
    LowByteFirst(high, 1);
  }

  /** One letter: a length on four bytes and the letter. */
  lemma OneLetter(a: byte)
    ensures StringField([a]) == [1, 0, 0, 0, a]
  {
    OnFour(1);
    hide EncodeLE;
  }

  /** CHILD_ADDED: nid of the parent, command; nid of the child, name, type, ownership. */
  lemma ChildAddedLooks(parent: byte, child: byte, a: byte, t: byte, owned: bool)
    ensures MakePackage(CMD_CHILD_ADDED, parent, ChildAddedPayload(child, [a], [t], owned)) ==
      [parent, 0, 0, 0, 0, 0, 0, 0, 18] + [child, 0, 0, 0, 0, 0, 0, 0] + [1, 0, 0, 0, a] + [1, 0, 0, 0, t]
        + [if owned then 1 else 0]
  {
    OnEight(parent);
    OnEight(child);
    OnOne(if owned then 1 else 0);
    OneLetter(a);
    OneLetter(t);
    hide EncodeLE, StringField;
  }

  /** ATTACH: nid of the parent, command; type, name, nid of the child. */
  lemma AttachLooks(parent: byte, child: byte, a: byte, t: byte)
    ensures MakePackage(CMD_NODE_ATTACH, parent, AttachPayload([t], [a], child)) ==
      [parent, 0, 0, 0, 0, 0, 0, 0, 15] + [1, 0, 0, 0, t] + [1, 0, 0, 0, a] + [child, 0, 0, 0, 0, 0, 0, 0]
  {
    OnEight(parent);
    OnEight(child);
    OneLetter(a);
    OneLetter(t);
    hide EncodeLE, StringField;
  }

  /** A question AT: nid, command, the name. */
  lemma AtLooks(nid: byte, a: byte)
    ensures MakePackage(CMD_AT, nid, StringField([a])) == [nid, 0, 0, 0, 0, 0, 0, 0, 1] + [1, 0, 0, 0, a]
  {
    OnEight(nid);
    OneLetter(a);
    hide EncodeLE, StringField;
  }

  /** A SET: nid, command, the bare value. */
  lemma SetLooks(nid: byte, a: byte)
    ensures MakePackage(CMD_PROP_SET_VALUE, nid, [a]) == [nid, 0, 0, 0, 0, 0, 0, 0, 14] + [a]
  {
    OnEight(nid);
    hide EncodeLE;
  }

  /** A frame: the length of what follows, the message id, the package. */
  lemma FrameLooks(low: byte, high: byte, p: bytes)
    requires |p| < 254
    ensures Frame(WithWord(low + 256 * high, p)) == [|p| + 2, 0, 0, 0] + [low, high] + p
  {
    TwoBytes(low, high);
    OnFour(|p| + 2);
    var word, f := low + 256 * high, [low, high] + p;
    assert WithWord(word, p) == f;
    assert |f| % TWO_32 == |p| + 2;
    hide EncodeLE, WithWord;
  }
}
