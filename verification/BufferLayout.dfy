/** The indices of a `Buffer` and the size of its storage, without the bytes. */
module BufferLayout {

  const CHEAP_PREPEND := 8
  const INITIAL_SIZE := 1024

  /** buffer_.size(), readerIndex_ and writerIndex_. */
  datatype Layout = Layout(size: nat, reader: nat, writer: nat)

  predicate Valid(l: Layout) {
    l.reader <= l.writer <= l.size && CHEAP_PREPEND <= l.size
  }

  function Readable(l: Layout): nat
    requires Valid(l)
  {
    l.writer - l.reader
  }

  function Writable(l: Layout): nat
    requires Valid(l)
  {
    l.size - l.writer
  }

  const INITIAL := Layout(CHEAP_PREPEND + INITIAL_SIZE, CHEAP_PREPEND, CHEAP_PREPEND)

  /** The guard of makeSpace: free bytes at both ends do not suffice. */
  predicate MustGrow(l: Layout, len: nat)
    requires Valid(l)
  {
    Writable(l) + l.reader < len + CHEAP_PREPEND
  }

  function MakeSpace(l: Layout, len: nat): Layout
    requires Valid(l)
  {
    if MustGrow(l, len) then l.(size := l.writer + len)
    else l.(reader := CHEAP_PREPEND, writer := CHEAP_PREPEND + Readable(l))
  }

  /** The assert of the compaction: the readable bytes move towards the front. */
  predicate MakeSpaceAsserts(l: Layout, len: nat)
    requires Valid(l)
  {
    MustGrow(l, len) || CHEAP_PREPEND < l.reader
  }

  function EnsureWritable(l: Layout, len: nat): Layout
    requires Valid(l)
  {
    if Writable(l) < len then MakeSpace(l, len) else l
  }

  /** ensureWritableBytes calls makeSpace only when its assert holds, and gets the space. */
  lemma EnsureWritableWorks(l: Layout, len: nat)
    requires Valid(l)
    ensures Writable(l) < len ==> MakeSpaceAsserts(l, len)
    ensures var l' := EnsureWritable(l, len);
            Valid(l') && Writable(l') >= len && Readable(l') == Readable(l)
  {
  }

  function AppendLayout(l: Layout, len: nat): Layout
    requires Valid(l)
  {
    var l' := EnsureWritable(l, len);
    l'.(writer := l'.writer + len)
  }

  /** readFd: what does not fit behind the writer index goes through extrabuf. */
  function ReadFdLayout(l: Layout, n: nat): Layout
    requires Valid(l)
  {
    if n <= Writable(l) then l.(writer := l.writer + n)
    else AppendLayout(l.(writer := l.size), n - Writable(l))
  }

  /** Where the bytes are after an append: behind the others when they fit there; behind the
      others at the front when everything fits with 8 bytes in front; and otherwise behind the
      others where these are, in a storage that ends with them. */
  lemma AppendCases(l: Layout, len: nat)
    requires Valid(l)
    ensures var n := l.writer - l.reader + len;
            AppendLayout(l, len) ==
            if l.writer + len <= l.size then Layout(l.size, l.reader, l.writer + len)
            else if 8 + n <= l.size then Layout(l.size, 8, 8 + n)
            else Layout(l.writer + len, l.reader, l.writer + len)
  {
  }

  // Runs

  type Byte = bv8

  datatype Op =
    | Append(data: seq<Byte>)
    | ReadFd(data: seq<Byte>) // what readv delivered
    | Prepend(data: seq<Byte>)
    | Retrieve(len: nat)
    | RetrieveAsString

  /** What the asserts of the operations, and readv, demand. */
  predicate Legal(l: Layout, op: Op)
    requires Valid(l)
  {
    match op
    case Append(_) => true
    case ReadFd(data) => |data| <= Writable(l) + 65536 // sizeof extrabuf
    case Prepend(data) => |data| <= l.reader
    case Retrieve(len) => len <= Readable(l)
    case RetrieveAsString => true
  }

  function Next(l: Layout, op: Op): (l': Layout)
    requires Valid(l) && Legal(l, op)
    ensures Valid(l')
  {
    match op
    case Append(data) => AppendLayout(l, |data|)
    case ReadFd(data) => ReadFdLayout(l, |data|)
    case Prepend(data) => l.(reader := l.reader - |data|)
    case Retrieve(len) => l.(reader := l.reader + len)
    case RetrieveAsString => l.(reader := CHEAP_PREPEND, writer := CHEAP_PREPEND)
  }

  /** Whatever readv delivers, readFd leaves the bytes where an append of them would. */
  lemma ReadFdAppends(l: Layout, data: seq<Byte>)
    requires Valid(l) && |data| <= l.size - l.writer + 65536
    ensures Legal(l, ReadFd(data)) && Next(l, ReadFd(data)) == Next(l, Append(data))
  {
  }

  predicate LegalRun(l: Layout, ops: seq<Op>)
    requires Valid(l)
    decreases ops
  {
    ops == [] || (Legal(l, ops[0]) && LegalRun(Next(l, ops[0]), ops[1..]))
  }

  function RunLayout(l: Layout, ops: seq<Op>): (l': Layout)
    requires Valid(l) && LegalRun(l, ops)
    ensures Valid(l')
    decreases ops
  {
    if ops == [] then l else RunLayout(Next(l, ops[0]), ops[1..])
  }

  /** The bytes that an operation puts at the end of the queue. */
  function Given(op: Op): seq<Byte> {
    if op.Append? || op.ReadFd? then op.data else []
  }

  function AllGiven(ops: seq<Op>): seq<Byte> {
    if ops == [] then [] else Given(ops[0]) + AllGiven(ops[1..])
  }

  predicate NoPrepend(ops: seq<Op>) {
    forall i :: 0 <= i < |ops| ==> !ops[i].Prepend?
  }

  // The contents as a deque: bytes come in at either end and go out at the front

  /** What an operation takes out of the bytes `q`, and what it leaves. */
  function TakenBy(q: seq<Byte>, op: Op): seq<Byte> {
    match op
    case Retrieve(len) => if len <= |q| then q[..len] else q
    case RetrieveAsString => q
    case _ => []
  }

  function LeftBy(q: seq<Byte>, op: Op): seq<Byte> {
    match op
    case Append(data) => q + data
    case ReadFd(data) => q + data
    case Prepend(data) => data + q
    case Retrieve(len) => if len <= |q| then q[len..] else []
    case RetrieveAsString => []
  }

  function Taken(q: seq<Byte>, ops: seq<Op>): seq<Byte>
    decreases ops
  {
    if ops == [] then [] else TakenBy(q, ops[0]) + Taken(LeftBy(q, ops[0]), ops[1..])
  }

  function Left(q: seq<Byte>, ops: seq<Op>): seq<Byte>
    decreases ops
  {
    if ops == [] then q else Left(LeftBy(q, ops[0]), ops[1..])
  }

  lemma Regroup(first: seq<Byte>, rest: seq<Byte>, end: seq<Byte>, middle: seq<Byte>,
                start: seq<Byte>, given: seq<Byte>, later: seq<Byte>)
    requires first + middle == start + given && rest + end == middle + later
    ensures first + rest + end == start + (given + later)
  {
    calc {
      first + rest + end;
      first + (rest + end);
      first + (middle + later);
      first + middle + later;
      start + given + later;
      start + (given + later);
    }
  }

  /** FIFO: without prepends, the bytes taken and then the ones left are the ones that were there
      and those given, in order. */
  lemma {:induction false} FirstInFirstOut(q: seq<Byte>, ops: seq<Op>)
    requires NoPrepend(ops)
    ensures Taken(q, ops) + Left(q, ops) == q + AllGiven(ops)
    decreases ops
  {
    if ops == [] {
    } else {
      var q' := LeftBy(q, ops[0]);
      FirstInFirstOut(q', ops[1..]);
      Regroup(TakenBy(q, ops[0]), Taken(q', ops[1..]), Left(q', ops[1..]), q', q, Given(ops[0]), AllGiven(ops[1..]));
    }
  }

  lemma FrontOf(taken: seq<Byte>, left: seq<Byte>, data: seq<Byte>, q: seq<Byte>, given: seq<Byte>)
    requires taken + left == data + q + given && |data| <= |taken|
    ensures taken[..|data|] == data && taken[|data|..] + left == q + given
  {
    assert data + q + given == data + (q + given);
    assert taken[..|data|] == (taken + left)[..|data|];
    assert taken[|data|..] + left == (taken + left)[|data|..];
  }

  lemma TakenAfterPrepend(q: seq<Byte>, data: seq<Byte>, ops: seq<Op>)
    ensures Taken(q, [Prepend(data)] + ops) == Taken(data + q, ops)
    ensures Left(q, [Prepend(data)] + ops) == Left(data + q, ops)
  {
    var all := [Prepend(data)] + ops;
    assert all[1..] == ops && all[0] == Prepend(data);
  }

  /** Prepended bytes go out first: a run that retrieves at least as many bytes as were prepended
      retrieves these, in order, before any byte that was there. */
  lemma PrependedFirst(q: seq<Byte>, data: seq<Byte>, ops: seq<Op>, taken: seq<Byte>, left: seq<Byte>)
    requires NoPrepend(ops) && taken == Taken(q, [Prepend(data)] + ops) && left == Left(q, [Prepend(data)] + ops)
    requires |data| <= |taken|
    ensures taken[..|data|] == data && taken[|data|..] + left == q + AllGiven(ops)
  {
    TakenAfterPrepend(q, data, ops);
    FirstInFirstOut(data + q, ops);
    FrontOf(taken, left, data, q, AllGiven(ops));
  }

  // Space

  function Max(a: int, b: int): int {
    if a < b then b else a
  }

  /** The most storage that one operation can ask for. */
  function Demand(l: Layout, op: Op): nat
    requires Valid(l)
  {
    if op.Append? || op.ReadFd? then Readable(l) + 2 * |op.data| + CHEAP_PREPEND - 1 else 0
  }

  /** The largest demand over a run. */
  function Peak(l: Layout, ops: seq<Op>): nat
    requires Valid(l) && LegalRun(l, ops)
    decreases ops
  {
    if ops == [] then 0 else Max(Demand(l, ops[0]), Peak(Next(l, ops[0]), ops[1..]))
  }

  /** One operation grows the storage to no more than its demand. */
  lemma OpBound(l: Layout, op: Op)
    requires Valid(l) && Legal(l, op)
    ensures l.size <= Next(l, op).size <= Max(l.size, Demand(l, op))
    ensures Readable(Next(l, op)) == match op
                                     case Append(data) => Readable(l) + |data|
                                     case ReadFd(data) => Readable(l) + |data|
                                     case Prepend(data) => Readable(l) + |data|
                                     case Retrieve(len) => Readable(l) - len
                                     case RetrieveAsString => 0
  {
  }

  /** The furthest that the writer index gets over a run. */
  function HighWater(l: Layout, ops: seq<Op>): nat
    requires Valid(l) && LegalRun(l, ops)
    decreases ops
  {
    if ops == [] then l.writer else Max(l.writer, HighWater(Next(l, ops[0]), ops[1..]))
  }

  /** The storage grows only as far as the bytes in it: a growing append leaves nothing writable. */
  lemma GrowsToWriter(l: Layout, op: Op)
    requires Valid(l) && Legal(l, op)
    ensures Next(l, op).size == Max(l.size, Next(l, op).writer)
  {
  }

  /** Over any run, the storage is as large as it was, or as the bytes have ever needed. */
  lemma {:induction false} NoSlack(l: Layout, ops: seq<Op>)
    requires Valid(l) && LegalRun(l, ops)
    ensures RunLayout(l, ops).size == Max(l.size, HighWater(l, ops))
    decreases ops
  {
    if ops == [] {
    } else {
      GrowsToWriter(l, ops[0]);
      NoSlack(Next(l, ops[0]), ops[1..]);
    }
  }

  /** Space bound: whatever the order of the operations, the storage never exceeds its initial size
      and the largest readable + 2 * len + 7 over the bytes that arrived. */
  lemma {:induction false} SpaceBound(l: Layout, ops: seq<Op>)
    requires Valid(l) && LegalRun(l, ops)
    ensures l.size <= RunLayout(l, ops).size <= Max(l.size, Peak(l, ops))
    decreases ops
  {
    if ops == [] {
    } else {
      OpBound(l, ops[0]);
      SpaceBound(Next(l, ops[0]), ops[1..]);
    }
  }

  lemma SpaceBoundOfNew(ops: seq<Op>)
    requires LegalRun(INITIAL, ops)
    ensures RunLayout(INITIAL, ops).size == Max(1032, HighWater(INITIAL, ops)) <= Max(1032, Peak(INITIAL, ops))
  {
    NoSlack(INITIAL, ops);
    SpaceBound(INITIAL, ops);
  }
}
