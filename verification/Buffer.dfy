/** `Buffer.h` and `Buffer.cpp`: an array with a reader and a writer index as a byte queue. */
module Buffer {
  import opened Wrappers
  import opened L = BufferLayout

  function Zeros(n: nat): seq<Byte> {
    seq(n, _ => 0)
  }

  function ShrunkStorage(bytes: seq<Byte>, reserve: nat): seq<Byte> {
    Zeros(CHEAP_PREPEND) + bytes + Zeros(reserve)
  }

  class Buffer {
    var buffer: array<Byte>
    var readerIndex: nat
    var writerIndex: nat

    ghost predicate Valid()
      reads this
    {
      readerIndex <= writerIndex <= buffer.Length && CHEAP_PREPEND <= buffer.Length
    }

    ghost function Shape(): Layout
      reads this
    {
      Layout(buffer.Length, readerIndex, writerIndex)
    }

    /** The bytes between the indices, the queue's contents. */
    ghost function Contents(): seq<Byte>
      requires Valid()
      reads this, buffer
    {
      buffer[readerIndex..writerIndex]
    }

    constructor ()
      ensures Valid() && fresh(buffer) && Shape() == INITIAL == Layout(1032, 8, 8) && Contents() == []
    {
      buffer := new Byte[CHEAP_PREPEND + INITIAL_SIZE](_ => 0);
      readerIndex := CHEAP_PREPEND;
      writerIndex := CHEAP_PREPEND;
    }

    method Retrieve(len: nat)
      requires Valid() && len <= |Contents()|
      modifies this`readerIndex
      ensures Valid() && Shape() == old(Shape()).(reader := old(readerIndex) + len)
      ensures Contents() == old(Contents())[len..]
    {
      readerIndex := readerIndex + len;
    }

    /** `end` is a position in the storage. */
    method RetrieveUntil(end: nat)
      requires Valid() && readerIndex <= end <= writerIndex
      modifies this`readerIndex
      ensures Valid() && readerIndex == end && Contents() == old(Contents())[end - old(readerIndex)..]
    {
      Retrieve(end - readerIndex);
    }

    method RetrieveAll()
      requires Valid()
      modifies this`readerIndex, this`writerIndex
      ensures Valid() && Shape() == old(Shape()).(reader := CHEAP_PREPEND, writer := CHEAP_PREPEND)
      ensures Contents() == []
    {
      readerIndex := CHEAP_PREPEND;
      writerIndex := CHEAP_PREPEND;
    }

    method RetrieveAsString() returns (str: seq<Byte>)
      requires Valid()
      modifies this`readerIndex, this`writerIndex
      ensures Valid() && Shape() == old(Shape()).(reader := CHEAP_PREPEND, writer := CHEAP_PREPEND)
      ensures str == old(Contents()) && Contents() == []
    {
      str := buffer[readerIndex..writerIndex];
      RetrieveAll();
    }

    /** buffer_.resize(size): new storage with the old bytes and zeros behind them. */
    method Resize(size: nat)
      requires Valid() && buffer.Length <= size
      modifies this`buffer
      ensures Valid() && fresh(buffer) && Shape() == old(Shape()).(size := size) && Contents() == old(Contents())
    {
      var bigger := new Byte[size](_ => 0);
      var i := 0;
      while i < buffer.Length
        invariant 0 <= i <= buffer.Length && unchanged(this)
        invariant bigger[..i] == buffer[..i]
      {
        bigger[i] := buffer[i];
        i := i + 1;
      }
      assert bigger[readerIndex..writerIndex] == bigger[..i][readerIndex..writerIndex]
          == buffer[readerIndex..writerIndex];
      buffer := bigger;
    }

    /** The readable bytes are copied forwards, in place, to the front. */
    method Compact()
      requires Valid() && CHEAP_PREPEND < readerIndex
      modifies this`readerIndex, this`writerIndex, buffer
      ensures Valid() && Contents() == old(Contents())
      ensures Shape() == old(Shape()).(reader := CHEAP_PREPEND, writer := CHEAP_PREPEND + |Contents()|)
    {
      ghost var bytes := Contents();
      var n := writerIndex - readerIndex;
      var i := 0;
      while i < n
        invariant 0 <= i <= n && unchanged(this)
        invariant forall k :: 0 <= k < i ==> buffer[CHEAP_PREPEND + k] == bytes[k]
        invariant forall k :: i <= k < n ==> buffer[readerIndex + k] == bytes[k]
      {
        buffer[CHEAP_PREPEND + i] := buffer[readerIndex + i];
        i := i + 1;
      }
      readerIndex := CHEAP_PREPEND;
      writerIndex := readerIndex + n;
    }

    method MakeSpace(len: nat)
      requires Valid() && writerIndex + len > buffer.Length
      modifies this, buffer
      ensures Valid() && (buffer == old(buffer) || fresh(buffer))
      ensures Contents() == old(Contents()) && Shape() == L.MakeSpace(old(Shape()), len)
    {
      if buffer.Length - writerIndex + readerIndex < len + CHEAP_PREPEND {
        Resize(writerIndex + len);
      } else {
        Compact();
      }
    }

    method EnsureWritableBytes(len: nat)
      requires Valid()
      modifies this, buffer
      ensures Valid() && (buffer == old(buffer) || fresh(buffer))
      ensures Contents() == old(Contents()) && Shape() == L.EnsureWritable(old(Shape()), len)
      ensures len <= buffer.Length - writerIndex
    {
      if buffer.Length - writerIndex < len {
        MakeSpace(len);
      }
    }

    /** std::copy(data, data + len, begin() + at). */
    method CopyIn(data: seq<Byte>, at: nat)
      requires at + |data| <= buffer.Length
      modifies buffer
      ensures buffer[at..at + |data|] == data
      ensures buffer[..at] == old(buffer[..at]) && buffer[at + |data|..] == old(buffer[at + |data|..])
    {
      var i := 0;
      while i < |data|
        invariant 0 <= i <= |data|
        invariant buffer[at..at + i] == data[..i]
        invariant buffer[..at] == old(buffer[..at]) && buffer[at + |data|..] == old(buffer[at + |data|..])
      {
        buffer[at + i] := data[i];
        i := i + 1;
      }
    }

    method HasWritten(len: nat)
      requires Valid() && writerIndex + len <= buffer.Length
      modifies this`writerIndex
      ensures writerIndex == old(writerIndex) + len
    {
      writerIndex := writerIndex + len;
    }

    /** Bytes stored behind the writer index, by std::copy or by the kernel, and the step of the
        index over them. */
    method WriteBehind(data: seq<Byte>)
      requires Valid() && |data| <= buffer.Length - writerIndex
      modifies this`writerIndex, buffer
      ensures Valid() && Contents() == old(Contents()) + data
      ensures Shape() == old(Shape()).(writer := old(writerIndex) + |data|)
    {
      ghost var front := buffer[..writerIndex];
      CopyIn(data, writerIndex);
      assert buffer[..writerIndex + |data|] == buffer[..writerIndex] + buffer[writerIndex..writerIndex + |data|]
          == front + data;
      HasWritten(|data|);
      assert Contents() == (front + data)[readerIndex..];
    }

    method Append(data: seq<Byte>)
      requires Valid()
      modifies this, buffer
      ensures Valid() && (buffer == old(buffer) || fresh(buffer))
      ensures Contents() == old(Contents()) + data && Shape() == L.AppendLayout(old(Shape()), |data|)
      ensures buffer.Length == Max(old(buffer.Length), writerIndex)
    {
      EnsureWritableBytes(|data|);
      WriteBehind(data);
    }

    method Prepend(data: seq<Byte>)
      requires Valid() && |data| <= readerIndex
      modifies this`readerIndex, buffer
      ensures Valid() && Contents() == data + old(Contents())
      ensures Shape() == old(Shape()).(reader := old(readerIndex) - |data|)
    {
      readerIndex := readerIndex - |data|;
      ghost var behind := buffer[readerIndex + |data|..];
      CopyIn(data, readerIndex);
      assert buffer[readerIndex..] == buffer[readerIndex..readerIndex + |data|] + buffer[readerIndex + |data|..]
          == data + behind;
      assert Contents() == buffer[readerIndex..][..writerIndex - readerIndex];
    }

    /** readv fills the space behind the writer index first, then extrabuf; `received` is what it
        read, `None` an error. */
    method ReadFd(received: Option<seq<Byte>>) returns (n: int)
      requires Valid() && (received.Some? ==> |received.value| <= buffer.Length - writerIndex + 65536)
      modifies this, buffer
      ensures Valid() && (buffer == old(buffer) || fresh(buffer))
      ensures received.None? ==> n == -1 && Contents() == old(Contents()) && Shape() == old(Shape())
      ensures received.Some? ==>
                && n == |received.value| && Contents() == old(Contents()) + received.value
                && Shape() == L.ReadFdLayout(old(Shape()), n) && buffer.Length == Max(old(buffer.Length), writerIndex)
    {
      if received.None? {
        return -1;
      }
      var data, writable := received.value, buffer.Length - writerIndex;
      n := |data|;
      if n <= writable {
        WriteBehind(data);
      } else {
        WriteBehind(data[..writable]);
        assert data == data[..writable] + data[writable..];
        Append(data[writable..]);
      }
    }

    /** The readable bytes are copied into new storage behind kCheapPrepend, but the indices
        stay as they are. */
    method Shrink(reserve: nat)
      requires Valid()
      modifies this`buffer
      ensures fresh(buffer) && readerIndex == old(readerIndex) && writerIndex == old(writerIndex)
      ensures buffer[..] == ShrunkStorage(old(Contents()), reserve)
    {
      var n := writerIndex - readerIndex;
      var buf := new Byte[CHEAP_PREPEND + n + reserve](_ => 0);
      var i := 0;
      while i < n
        invariant 0 <= i <= n && unchanged(this)
        invariant forall k :: 0 <= k < buf.Length ==>
          buf[k] == if CHEAP_PREPEND <= k < CHEAP_PREPEND + i then buffer[readerIndex + k - CHEAP_PREPEND] else 0
      {
        buf[CHEAP_PREPEND + i] := buffer[readerIndex + i];
        i := i + 1;
      }
      buffer := buf;
    }
  }

  /** One operation on a buffer; `taken` is what it retrieved. */
  method Perform(b: Buffer, op: Op) returns (taken: seq<Byte>)
    requires b.Valid() && Legal(b.Shape(), op)
    modifies b, b.buffer
    ensures b.Valid() && (b.buffer == old(b.buffer) || fresh(b.buffer)) && b.Shape() == Next(old(b.Shape()), op)
    ensures taken == TakenBy(old(b.Contents()), op) && b.Contents() == LeftBy(old(b.Contents()), op)
  {
    taken := [];
    match op
    case Append(data) =>
      b.Append(data);
    case ReadFd(data) =>
      var _ := b.ReadFd(Some(data));
    case Prepend(data) =>
      b.Prepend(data);
    case Retrieve(len) =>
      taken := b.buffer[b.readerIndex..b.readerIndex + len];
      b.Retrieve(len);
    case RetrieveAsString =>
      taken := b.RetrieveAsString();
  }

  /** Over any run, through every compaction and growth, a buffer is the deque of its bytes; without
      prepends it is FIFO: the bytes retrieved and then the readable ones are the bytes given, in
      order; and the storage keeps to its bound. */
  method PerformAll(b: Buffer, ops: seq<Op>) returns (taken: seq<Byte>)
    requires b.Valid() && LegalRun(b.Shape(), ops)
    modifies b, b.buffer
    ensures b.Valid() && b.Shape() == RunLayout(old(b.Shape()), ops)
    ensures taken == Taken(old(b.Contents()), ops) && b.Contents() == Left(old(b.Contents()), ops)
    ensures NoPrepend(ops) ==> taken + b.Contents() == old(b.Contents()) + AllGiven(ops)
    ensures b.buffer.Length <= Max(old(b.buffer.Length), Peak(old(b.Shape()), ops))
    ensures b.buffer.Length == Max(old(b.buffer.Length), HighWater(old(b.Shape()), ops))
    ensures b.buffer == old(b.buffer) || fresh(b.buffer)
    decreases ops
  {
    if ops == [] {
      return [];
    }
    SpaceBound(b.Shape(), ops);
    NoSlack(b.Shape(), ops);
    if NoPrepend(ops) {
      FirstInFirstOut(b.Contents(), ops);
    }
    var first := Perform(b, ops[0]);
    var rest := PerformAll(b, ops[1..]);
    taken := first + rest;
  }

  /** A prepend is undone by the retrieval of as many bytes. */
  method PrependThenRetrieve(b: Buffer, data: seq<Byte>)
    requires b.Valid() && |data| <= b.readerIndex
    modifies b, b.buffer
    ensures b.Valid() && b.Shape() == old(b.Shape()) && b.Contents() == old(b.Contents())
  {
    b.Prepend(data);
    b.Retrieve(|data|);
  }

  // shrink

  /** A history that shrink spoils: after an append of two bytes and the retrieval of one, the
      byte left is replaced by a zero, or, without a reserve, the writer index is outside the
      storage. */
  method ShrinkAfterRetrieve(reserve: nat) returns (before: seq<Byte>, size: nat, writer: nat, after: seq<Byte>)
    ensures before == [2] && size == CHEAP_PREPEND + 1 + reserve && writer == CHEAP_PREPEND + 2
    ensures reserve == 0 ==> writer > size
    ensures reserve > 0 ==> after == [0]
  {
    var b := new Buffer();
    b.Append([1, 2]);
    b.Retrieve(1);
    before := b.buffer[b.readerIndex..b.writerIndex];
    b.Shrink(reserve);
    size, writer, after := b.buffer.Length, b.writerIndex, [];
    assert b.buffer.Length == |b.buffer[..]|;
    if writer <= size {
      after := b.buffer[b.readerIndex..b.writerIndex];
      assert after == b.buffer[..][b.readerIndex..b.writerIndex];
    }
  }

  /** What is readable after shrink, or nothing when the indices point outside the storage. */
  function AfterShrink(reader: nat, bytes: seq<Byte>, reserve: nat): Option<seq<Byte>> {
    var s := ShrunkStorage(bytes, reserve);
    if reader + |bytes| <= |s| then Some(s[reader..reader + |bytes|]) else None
  }

  /** shrink keeps the contents, whatever they are, exactly when the reader index is where the
      copy begins, or when there is nothing to keep and the indices stay inside. */
  lemma ShrinkKeepsIff(reader: nat, n: nat, reserve: nat)
    ensures (forall bytes: seq<Byte> :: |bytes| == n ==> AfterShrink(reader, bytes, reserve) == Some(bytes))
            <==> reader == CHEAP_PREPEND || (n == 0 && reader <= CHEAP_PREPEND + reserve)
  {
    var ones: seq<Byte> := seq(n, _ => 1);
    var s := ShrunkStorage(ones, reserve);
    if reader == CHEAP_PREPEND || (n == 0 && reader <= CHEAP_PREPEND + reserve) {
    } else if reader + n <= |s| {
      var at := if reader < CHEAP_PREPEND then reader else reader + n - 1;
      assert s[at] == 0 && s[reader..reader + n][at - reader] != ones[at - reader];
      assert AfterShrink(reader, ones, reserve) != Some(ones);
    } else {
      assert AfterShrink(reader, ones, reserve) == None;
    }
  }
}
