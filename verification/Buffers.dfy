/**
 The movable-window byte buffer: a storage array, a read index and a write index. `Contents()` is
 the plain byte sequence the buffer stands for; every operation is specified on it alone.
 */
module Buffers {
  import opened Bytes

  const CHEAP_PREPEND := 8
  const INITIAL_SIZE := 1024
  const EXTRA_SIZE := 65536

  function Max(a: int, b: int): int { if a > b then a else b }

  const CR: byte := 13
  const LF: byte := 10

  predicate CrlfAt(s: seq<byte>, i: int) {
    0 <= i && i + 1 < |s| && s[i] == CR && s[i + 1] == LF
  }

  /** `s` with `bytes` written over it from position `at`. */
  function Spliced(s: seq<byte>, at: nat, bytes: seq<byte>): (r: seq<byte>)
    requires at + |bytes| <= |s|
    ensures |r| == |s|
  {
    s[..at] + bytes + s[at + |bytes|..]
  }

  lemma SplicedWindow(s: seq<byte>, lo: nat, at: nat, hi: nat, bytes: seq<byte>)
    requires lo <= at && at + |bytes| <= |s| && at <= hi <= |s| && (at == hi || at + |bytes| <= hi)
    ensures var end := Max(hi, at + |bytes|);
            Spliced(s, at, bytes)[lo..end] == s[lo..at] + bytes + s[at + |bytes|..end]
  {
  }

  /** The outcome of one `readv`: the bytes it delivered, or an error number. */
  datatype ReadResult = Data(bytes: seq<byte>) | Error(errno: int)

  class Buffer {
    var data: array<byte>
    var reader: nat
    var writer: nat

    ghost predicate Valid()
      reads this
    {
      && reader <= writer <= data.Length
      && CHEAP_PREPEND <= data.Length
      && (reader == writer ==> reader == CHEAP_PREPEND)
    }

    ghost function Contents(): (s: seq<byte>)
      requires Valid()
      reads this, data
      ensures |s| == writer - reader
    {
      data[reader..writer]
    }

    constructor ()
      ensures Valid() && fresh(data)
      ensures Contents() == [] && data.Length == CHEAP_PREPEND + INITIAL_SIZE && reader == CHEAP_PREPEND
    {
      data := new byte[CHEAP_PREPEND + INITIAL_SIZE];
      reader, writer := CHEAP_PREPEND, CHEAP_PREPEND;
    }

    function ReadableBytes(): nat
      requires Valid()
      reads this
    {
      writer - reader
    }

    function WriteableBytes(): nat
      requires Valid()
      reads this
    {
      data.Length - writer
    }

    function PrependableBytes(): nat
      reads this
    {
      reader
    }

    method Swap(rhs: Buffer)
      requires Valid() && rhs.Valid()
      modifies this, rhs
      ensures Valid() && rhs.Valid()
      ensures data == old(rhs.data) && reader == old(rhs.reader) && writer == old(rhs.writer)
      ensures rhs.data == old(data) && rhs.reader == old(reader) && rhs.writer == old(writer)
      ensures Contents() == old(rhs.Contents()) && rhs.Contents() == old(Contents())
    {
      data, rhs.data := rhs.data, data;
      reader, rhs.reader := rhs.reader, reader;
      writer, rhs.writer := rhs.writer, writer;
    }

    /** Offset of the first CRLF among the readable bytes, or -1. */
    method FindCrlf() returns (at: int)
      requires Valid()
      ensures at == -1 ==> forall i :: !CrlfAt(Contents(), i)
      ensures at != -1 ==> CrlfAt(Contents(), at) && forall i :: 0 <= i < at ==> !CrlfAt(Contents(), i)
    {
      at := 0;
      while reader + at + 1 < writer
        invariant 0 <= at
        invariant forall i :: 0 <= i < at ==> !CrlfAt(Contents(), i)
        decreases writer - at
      {
        if data[reader + at] == CR && data[reader + at + 1] == LF {
          return;
        }
        at := at + 1;
      }
      at := -1;
    }

    method RetrieveAll()
      requires Valid()
      modifies this
      ensures Valid() && data == old(data)
      ensures Contents() == []
    {
      reader, writer := CHEAP_PREPEND, CHEAP_PREPEND;
    }

    method Retrieve(len: nat)
      requires Valid() && len <= ReadableBytes()
      modifies this
      ensures Valid() && data == old(data)
      ensures Contents() == old(Contents())[len..]
    {
      if len < ReadableBytes() {
        reader := reader + len;
      } else {
        RetrieveAll();
      }
    }

    method RetrieveAsString(len: nat) returns (s: seq<byte>)
      requires Valid() && len <= ReadableBytes()
      modifies this
      ensures Valid() && data == old(data)
      ensures s == old(Contents())[..len] && Contents() == old(Contents())[len..]
    {
      s := data[reader..reader + len];
      Retrieve(len);
    }

    /** Room for `len` more bytes, by growing the storage or by sliding the unread bytes down. */
    method MakeSpace(len: nat)
      requires Valid() && WriteableBytes() < len
      modifies this, data
      ensures Valid() && (data == old(data) || fresh(data))
      ensures WriteableBytes() >= len
      ensures Contents() == old(Contents())
      ensures data.Length <= Max(old(data.Length), |Contents()| + 2 * len + CHEAP_PREPEND - 1)
      ensures old(data.Length - writer + reader) >= len + CHEAP_PREPEND ==> data == old(data)
    {
      if WriteableBytes() + PrependableBytes() < len + CHEAP_PREPEND {
        Resize(writer + len);
      } else {
        SlideDown();
      }
    }

    /** The unread bytes move down to the reserved prefix with an overlapping forward copy. */
    method SlideDown()
      requires Valid() && CHEAP_PREPEND < reader
      modifies this`reader, this`writer, data
      ensures Valid() && reader == CHEAP_PREPEND && Contents() == old(Contents())
    {
      var readable := ReadableBytes();
      ghost var unread := Contents();
      var k := 0;
      while k < readable
        invariant 0 <= k <= readable
        invariant forall i :: 0 <= i < k ==> data[CHEAP_PREPEND + i] == unread[i]
        invariant forall i :: k <= i < readable ==> data[reader + i] == unread[i]
        modifies data
      {
        data[CHEAP_PREPEND + k] := data[reader + k];
        k := k + 1;
      }
      reader := CHEAP_PREPEND;
      writer := reader + readable;
      assert |Contents()| == |unread| && forall i :: 0 <= i < |unread| ==> Contents()[i] == unread[i];
    }

    /** `std::vector::resize` to a larger size. */
    method Resize(size: nat)
      requires Valid() && data.Length <= size
      modifies this
      ensures Valid() && fresh(data) && data.Length == size
      ensures reader == old(reader) && writer == old(writer)
      ensures data[..old(data.Length)] == old(data[..]) && Contents() == old(Contents())
    {
      var grown := new byte[size];
      forall i | 0 <= i < data.Length {
        grown[i] := data[i];
      }
      data := grown;
      assert forall i :: reader <= i < writer ==> data[i] == old(data[i]);
    }

    method EnsureWriteableBytes(len: nat)
      requires Valid()
      modifies this, data
      ensures Valid() && (data == old(data) || fresh(data))
      ensures WriteableBytes() >= len
      ensures Contents() == old(Contents())
      ensures data.Length <= Max(old(data.Length), |Contents()| + 2 * len + CHEAP_PREPEND - 1)
      ensures old(data.Length - writer) >= len ==> data == old(data) && reader == old(reader) && writer == old(writer)
    {
      if WriteableBytes() < len {
        MakeSpace(len);
      }
    }

    method Append(bytes: seq<byte>)
      requires Valid()
      modifies this, data
      ensures Valid() && (data == old(data) || fresh(data))
      ensures Contents() == old(Contents()) + bytes
      ensures data.Length <= Max(old(data.Length), |old(Contents())| + 2 * |bytes| + CHEAP_PREPEND - 1)
      ensures old(WriteableBytes()) >= |bytes| ==> data == old(data) && writer == old(writer) + |bytes|
    {
      EnsureWriteableBytes(|bytes|);
      ghost var before := data[..];
      CopyIn(writer, bytes);
      SplicedWindow(before, reader, writer, writer, bytes);
      writer := writer + |bytes|;
    }

    /** `std::copy` of outside bytes into the storage. */
    method CopyIn(at: nat, bytes: seq<byte>)
      requires Valid() && at + |bytes| <= data.Length
      modifies data
      ensures data[..] == Spliced(old(data[..]), at, bytes)
    {
      forall i | 0 <= i < |bytes| {
        data[at + i] := bytes[i];
      }
    }

    method Prepend(bytes: seq<byte>)
      requires Valid() && |bytes| <= PrependableBytes()
      modifies this, data
      ensures Valid() && data == old(data)
      ensures Contents() == bytes + old(Contents())
    {
      reader := reader - |bytes|;
      SplicedWindow(data[..], reader, reader, writer, bytes);
      CopyIn(reader, bytes);
    }

    method Shrink(reserve: nat)
      requires Valid()
      modifies this
      ensures Valid() && fresh(data)
      ensures Contents() == old(Contents())
      ensures WriteableBytes() >= reserve
      ensures data.Length <= Max(CHEAP_PREPEND + INITIAL_SIZE, 2 * (|Contents()| + reserve) + CHEAP_PREPEND - 1)
    {
      var other := new Buffer();
      other.EnsureWriteableBytes(ReadableBytes() + reserve);
      var all := RetrieveAsString(ReadableBytes());
      other.Append(all);
      Swap(other);
    }

    /**
     `readFd`: the kernel scatters the bytes over the writable tail and a 64 KiB stack block, and
     what landed in the block is appended afterwards.
     */
    method ReadFd(result: ReadResult) returns (n: int)
      requires Valid()
      requires result.Data? ==> |result.bytes| <= WriteableBytes() + EXTRA_SIZE
      modifies this, data
      ensures Valid() && (data == old(data) || fresh(data))
      ensures result.Error? ==> n < 0 && Contents() == old(Contents())
      ensures result.Data? ==> n == |result.bytes| && Contents() == old(Contents()) + result.bytes
    {
      if result.Error? {
        return -1;
      }
      n := |result.bytes|;
      var writable := WriteableBytes();
      if n <= writable {
        Append(result.bytes);
      } else {
        Append(result.bytes[..writable]);
        Append(result.bytes[writable..]);
        assert result.bytes == result.bytes[..writable] + result.bytes[writable..];
      }
    }

    // The source's integers are 1, 2 and 4 bytes wide; the contracts hold at every width.

    method AppendInt(width: nat, x: int)
      requires Valid() && width > 0 && IsSigned(width, x)
      modifies this, data
      ensures Valid() && (data == old(data) || fresh(data))
      ensures Contents() == old(Contents()) + Encode(width, x)
    {
      Append(Encode(width, x));
    }

    method PrependInt(width: nat, x: int)
      requires Valid() && width > 0 && IsSigned(width, x) && width <= PrependableBytes()
      modifies this, data
      ensures Valid() && data == old(data)
      ensures Contents() == Encode(width, x) + old(Contents())
    {
      Prepend(Encode(width, x));
    }

    method PeekInt(width: nat) returns (x: int)
      requires Valid() && width > 0 && width <= ReadableBytes()
      ensures Leads(width, x, Contents())
    {
      ghost var unread := Contents();
      assert data[reader..reader + width] == unread[..width];
      LeadingInteger(width, unread);
      x := Decode(data[reader..reader + width]);
    }

    /** The value read is the only one whose encoding leads the buffer: the value that was written. */
    method ReadInt(width: nat) returns (x: int)
      requires Valid() && width > 0 && width <= ReadableBytes()
      modifies this
      ensures Valid() && data == old(data)
      ensures Leads(width, x, old(Contents())) && old(Contents()) == Encode(width, x) + Contents()
    {
      x := PeekInt(width);
      Retrieve(width);
    }
  }

  /** One call on a buffer; `Compact` is `shrink`, `Exchange` a `swap` with a buffer that holds the bytes given. */
  datatype Operation =
    | Put(bytes: seq<byte>)
    | PutFront(bytes: seq<byte>)
    | Take(len: nat)
    | Receive(bytes: seq<byte>)
    | Compact(reserve: nat)
    | Exchange(bytes: seq<byte>)

  /** The operation on a plain byte sequence; a call its caller may not make is skipped. */
  function OnSequence(s: seq<byte>, op: Operation, allowed: bool): seq<byte> {
    if !allowed then s else
    match op
    case Put(b) => s + b
    case PutFront(b) => b + s
    case Take(len) => if len <= |s| then s[len..] else s
    case Receive(b) => s + b
    case Compact(_) => s
    case Exchange(b) => b
  }

  ghost function OnSequenceAll(ops: seq<Operation>, allowed: seq<bool>): seq<byte>
    requires |allowed| == |ops|
  {
    if ops == [] then []
    else OnSequence(OnSequenceAll(ops[..|ops| - 1], allowed[..|ops| - 1]), ops[|ops| - 1], allowed[|ops| - 1])
  }

  /** The only calls a caller may not make: see `PrependableBytes` and the two blocks given to `readv`. */
  predicate MayRefuse(op: Operation, s: seq<byte>) {
    match op
    case PutFront(b) => |b| > CHEAP_PREPEND || (b != [] && s != [])
    case Receive(b) => |b| > EXTRA_SIZE
    case _ => false
  }

  method Perform(b: Buffer, op: Operation) returns (ok: bool)
    requires b.Valid()
    modifies b, b.data
    ensures b.Valid() && (b.data == old(b.data) || fresh(b.data))
    ensures b.Contents() == OnSequence(old(b.Contents()), op, ok)
    ensures !ok ==> MayRefuse(op, old(b.Contents()))
  {
    ok := true;
    match op
    case Put(bytes) => b.Append(bytes);
    case PutFront(bytes) =>
      ok := |bytes| <= b.PrependableBytes();
      if ok { b.Prepend(bytes); }
    case Take(len) => if len <= b.ReadableBytes() { b.Retrieve(len); }
    case Receive(bytes) =>
      ok := |bytes| <= b.WriteableBytes() + EXTRA_SIZE;
      if ok { var _ := b.ReadFd(Data(bytes)); }
    case Compact(reserve) => b.Shrink(reserve);
    case Exchange(bytes) =>
      var other := new Buffer();
      other.Append(bytes);
      b.Swap(other);
  }

  /**
   Any sequence of calls on a new buffer leaves what the same calls leave of a plain sequence; an
   empty buffer always takes 8 bytes in front.
   */
  method Execute(ops: seq<Operation>) returns (b: Buffer, allowed: seq<bool>)
    ensures fresh(b) && b.Valid() && |allowed| == |ops|
    ensures b.Contents() == OnSequenceAll(ops, allowed)
    ensures forall i :: 0 <= i < |ops| && !allowed[i] ==> MayRefuse(ops[i], OnSequenceAll(ops[..i], allowed[..i]))
  {
    b := new Buffer();
    allowed := [];
    for k := 0 to |ops|
      invariant fresh(b) && b.Valid() && fresh(b.data) && |allowed| == k
      invariant b.Contents() == OnSequenceAll(ops[..k], allowed)
      invariant forall i :: 0 <= i < k && !allowed[i] ==> MayRefuse(ops[i], OnSequenceAll(ops[..i], allowed[..i]))
    {
      ghost var before := allowed;
      var ok := Perform(b, ops[k]);
      allowed := allowed + [ok];
      assert ops[..k + 1][..k] == ops[..k] && allowed[..k] == before;
      assert forall i :: 0 <= i < k ==> allowed[..i] == before[..i];
    }
    assert ops[..|ops|] == ops;
  }
}
