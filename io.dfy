/** The stream wrapper that lets the dispatcher look at the first byte of a file
    without taking it away from the engine that will read the file afterwards. */
module Io {

  newtype byte = x: int | 0 <= x < 256

  /** What `peek` answers for a stream whose unread bytes are `pending`:
      the next byte, or -1 at end of stream. */
  function PeekOf(pending: seq<byte>): (b: int)
    ensures -1 <= b <= 255
    ensures b == -1 <==> pending == []
    ensures pending != [] ==> b == pending[0] as int
  {
    if pending == [] then -1 else pending[0] as int
  }

  /** A byte stream with one byte of lookahead. `pending` is what the next reader of
      the stream will receive, in order; `peeks` counts the lookaheads taken. */
  class PeekableInputStream {
    var pending: seq<byte>
    ghost var peeks: nat

    constructor (bytes: seq<byte>)
      ensures pending == bytes && peeks == 0
    {
      pending := bytes;
      peeks := 0;
    }

    /** Looks at the next byte without consuming it: every byte, the looked-at one
        included, is still delivered to the next reader. */
    method Peek() returns (b: int)
      modifies this`peeks
      ensures b == PeekOf(pending)
      ensures pending == old(pending) && peeks == old(peeks) + 1
    {
      b := if pending == [] then -1 else pending[0] as int;
      peeks := peeks + 1;
    }
  }
}
