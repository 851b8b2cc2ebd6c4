/**
 * The two standard-library collaborators the domain package works through:
 * an in-memory byte buffer with a read offset (Go's `bytes.Buffer`) and a
 * pool of reusable buffers (Go's `sync.Pool` holding `*bytes.Buffer`).
 */
module Buffers {
  import opened Common

  /**
   * A growable byte buffer. `data[..off]` has been read already; the
   * buffer's content, as seen by readers and by `Bytes()`, is `data[off..]`.
   */
  class Buffer {
    var data: seq<byte>
    var off: nat

    ghost predicate Valid()
      reads this
    {
      off <= |data|
    }

    /** The unread bytes: what `Bytes()` returns and what a reader gets next. */
    function Unread(): (r: seq<byte>)
      reads this
      requires Valid()
      ensures |r| == |data| - off
    {
      data[off..]
    }

    /** `new(bytes.Buffer)`: an empty buffer. */
    constructor ()
      ensures Valid() && Unread() == [] && off == 0
    {
      data := [];
      off := 0;
    }

    /** `Reset`: drop everything, read or unread. Works on any buffer. */
    method Reset()
      modifies this
      ensures Valid() && Unread() == [] && data == [] && off == 0
    {
      data := [];
      off := 0;
    }

    /** `Write`: append `p` to the unread bytes; never fails. */
    method Write(p: seq<byte>)
      requires Valid()
      modifies this
      ensures Valid() && Unread() == old(Unread()) + p
    {
      data := data + p;
    }

    /** `Bytes`: the unread bytes, without consuming them. */
    method Bytes() returns (r: seq<byte>)
      requires Valid()
      ensures r == Unread()
    {
      r := data[off..];
    }

    /** `Next`: consume up to `n` bytes and return them. */
    method Next(n: nat) returns (r: seq<byte>)
      requires Valid()
      modifies this
      ensures Valid()
      ensures r == old(Unread())[..if n < |old(Unread())| then n else |old(Unread())|]
      ensures Unread() == old(Unread())[|r|..]
    {
      var m := if n < |data| - off then n else |data| - off;
      r := data[off..off + m];
      off := off + m;
    }

    /**
     * `WriteTo` with another buffer as the writer, which is what `io.Copy`
     * runs when its source is a buffer: all unread bytes are appended to
     * `w` and this buffer is reset. A buffer's `Write` never returns an
     * error, so neither does this.
     */
    method WriteTo(w: Buffer) returns (n: nat, err: Option<Error>)
      requires Valid() && w.Valid() && w != this
      modifies this, w
      ensures Valid() && w.Valid()
      ensures w.Unread() == old(w.Unread()) + old(Unread())
      ensures n == |old(Unread())|
      ensures Unread() == [] && data == [] && off == 0
      ensures err == None
    {
      var pending := data[off..];
      w.Write(pending);
      n := |pending|;
      off := off + n;
      Reset();
      err := None;
    }
  }

  /**
   * A pool of idle buffers. `Get` hands out an idle buffer, or a new one
   * when none is idle; `Put` makes a buffer idle again. What a pooled
   * buffer holds is unspecified, so borrowers reset it before use.
   */
  class BufferPool {
    var idle: set<Buffer>

    constructor ()
      ensures idle == {}
    {
      idle := {};
    }

    method Get() returns (b: Buffer)
      modifies this
      ensures b !in idle && idle == old(idle) - {b}
      ensures old(idle) != {} ==> b in old(idle)
      ensures old(idle) == {} ==> fresh(b)
    {
      if idle == {} {
        b := new Buffer();
      } else {
        b :| b in idle;
        idle := idle - {b};
      }
    }

    method Put(b: Buffer)
      modifies this
      ensures idle == old(idle) + {b}
    {
      idle := idle + {b};
    }
  }
}
