/** The 16-bit message ids of a dispatcher: bit 15 marks a reply, 0 marks a package that wants
    none, and ids given back are used again before new ones are made. */
module MessageIds {

  const REPLY_FLAG := 0x8000

  type msgid = x: int | 0 <= x < 0x1_0000

  /** The ids a frame can carry without colliding with the flag or with one-way packages. */
  predicate Usable(id: msgid) { 0 < id < REPLY_FLAG }

  predicate IsReply(word: msgid) { word >= REPLY_FLAG }

  /** Sets bit 15. */
  function Flagged(id: msgid): msgid { if IsReply(id) then id else id + REPLY_FLAG }

  /** Clears bit 15. */
  function Unflagged(word: msgid): msgid { if IsReply(word) then word - REPLY_FLAG else word }

  /** One more, in 16 bits. */
  function Successor(id: msgid): msgid { if id == 0xFFFF then 0 else id + 1 }

  datatype Allocator = Allocator(next: msgid, free: seq<msgid>)

  /** The id handed out and the allocator afterwards. */
  function Generate(a: Allocator): (msgid, Allocator) {
    if |a.free| > 0 then
      (a.free[|a.free| - 1], a.(free := a.free[..|a.free| - 1]))
    else
      (a.next, a.(next := Successor(a.next)))
  }

  function Release(a: Allocator, id: msgid): Allocator { a.(free := a.free + [id]) }
}
