/** The byte streams the codec reads from and writes to (`std::io::Read` / `std::io::Write` over
    in-memory bytes) and the two I/O error kinds the codec produces. */
module Streams {
  import opened ByteCodec

  datatype ErrorKind = UnexpectedEof | InvalidData

  /** `std::io::Result`. */
  datatype Result<T> = Ok(value: T) | Err(kind: ErrorKind)

  function Min(a: nat, b: nat): nat
  {
    if a <= b then a else b
  }

  /** The part of `s` that a sink with `room` free bytes accepts. */
  function Clip(s: seq<byte>, room: nat): (r: seq<byte>)
    ensures |r| == Min(|s|, room)
  {
    s[..Min(|s|, room)]
  }

  /** Emitting `a` and then, if all of `a` fitted, `b`, stores what emitting `a + b` at once stores. */
  lemma ClipConcat(a: seq<byte>, b: seq<byte>, room: nat)
    ensures Clip(a + b, room) == Clip(a, room) + (if room >= |a| then Clip(b, room - |a|) else [])
  {
  }

  /** A sink that took all of `a` and then its share of `b` holds its share of `a + b`. */
  lemma ClipThen(start: seq<byte>, a: seq<byte>, b: seq<byte>, room: nat, mid: seq<byte>, bytes: seq<byte>)
    requires room >= |a| && mid == start + Clip(a, room) && bytes == mid + Clip(b, room - |a|)
    ensures bytes == start + Clip(a + b, room)
  {
    ClipConcat(a, b, room);
  }

  /** An input stream: the bytes it holds and how many have been consumed. */
  class Reader {
    const data: seq<byte>
    var pos: nat

    ghost predicate Valid()
      reads this
    {
      pos <= |data|
    }

    /** The bytes not consumed yet. */
    function Rest(): seq<byte>
      reads this
      requires Valid()
    {
      data[pos..]
    }

    constructor (data: seq<byte>)
      ensures Valid() && this.data == data && Rest() == data
    {
      this.data := data;
      pos := 0;
    }

    /** `Read::read`: delivers as many of the `n` requested bytes as remain. */
    method Read(n: nat) returns (chunk: seq<byte>)
      requires Valid()
      modifies this
      ensures Valid()
      ensures chunk == old(Rest())[..Min(n, |old(Rest())|)]
      ensures Rest() == old(Rest())[|chunk|..]
    {
      var k := Min(n, |data| - pos);
      chunk := data[pos..pos + k];
      pos := pos + k;
    }

    /** `Read::read_exact`: all `n` bytes, or `UnexpectedEof` once the stream runs dry. */
    method ReadExact(n: nat) returns (res: Result<seq<byte>>)
      requires Valid()
      modifies this
      ensures Valid()
      ensures |old(Rest())| >= n ==> res == Ok(old(Rest())[..n]) && Rest() == old(Rest())[n..]
      ensures |old(Rest())| < n ==> res == Err(UnexpectedEof) && Rest() == []
    {
      var chunk := Read(n);
      if |chunk| == n {
        res := Ok(chunk);
      } else {
        res := Err(UnexpectedEof);
      }
    }
  }

  /** An output sink: what has been written so far, and how much it can hold in all. */
  class Writer {
    var bytes: seq<byte>
    const capacity: nat

    ghost predicate Valid()
      reads this
    {
      |bytes| <= capacity
    }

    function Room(): nat
      reads this
      requires Valid()
    {
      capacity - |bytes|
    }

    constructor (capacity: nat)
      ensures Valid() && bytes == [] && this.capacity == capacity
    {
      bytes := [];
      this.capacity := capacity;
    }

    /** `Write::write`: stores as many bytes of `buf` as there is room for and says how many. */
    method Write(buf: seq<byte>) returns (n: nat)
      requires Valid()
      modifies this
      ensures Valid()
      ensures n == Min(|buf|, old(Room()))
      ensures bytes == old(bytes) + Clip(buf, old(Room()))
    {
      n := Min(|buf|, capacity - |bytes|);
      bytes := bytes + buf[..n];
    }
  }
}
