/** muduo/Buffer.h and muduo/Buffer.cpp: two indexes into a growable array of bytes. */
module Buffers {
  import opened Prelude

  const CHEAP_PREPEND: nat := 8
  const INITIAL_SIZE: nat := 1024
  const EXTRA_SIZE: nat := 65536

  /** What one readv(2) call did: it failed, or it delivered these bytes, filling the first segment first. */
  datatype ReadResult = ReadFailed | ReadBytes(bytes: seq<byte>)

  /** The three members of the source's class as one value. */
  datatype Buf = Buf(store: seq<byte>, readIndex: nat, writeIndex: nat) {
    ghost predicate Ok() {
      readIndex <= writeIndex <= |store| && CHEAP_PREPEND + INITIAL_SIZE <= |store|
    }

    function Readable(): seq<byte>
      requires Ok()
    {
      store[readIndex..writeIndex]
    }

    function Writable(): nat
      requires Ok()
    {
      |store| - writeIndex
    }
  }

  function Zeros(n: nat): seq<byte> {
    seq(n, _ => 0)
  }

  /** The default constructor as written: the write index starts at 1024, not at 8. */
  function NewBuf(): Buf {
    Buf(Zeros(CHEAP_PREPEND + INITIAL_SIZE), CHEAP_PREPEND, INITIAL_SIZE)
  }

  /** Overwrite the bytes of s from position at with data. */
  function Splice(s: seq<byte>, at: nat, data: seq<byte>): seq<byte>
    requires at + |data| <= |s|
  {
    s[..at] + data + s[at + |data|..]
  }

  lemma SpliceIs(s: seq<byte>, was: seq<byte>, at: nat, data: seq<byte>)
    requires at + |data| <= |was| == |s|
    requires forall j :: at <= j < at + |data| ==> s[j] == data[j - at]
    requires forall j :: 0 <= j < |s| && !(at <= j < at + |data|) ==> s[j] == was[j]
    ensures s == Splice(was, at, data)
  {
  }

  function MakeSpace(b: Buf, len: nat): Buf
    requires b.Ok() && b.Writable() < len
  {
    if b.Writable() + b.readIndex < len + CHEAP_PREPEND then
      b.(store := b.store + Zeros(b.writeIndex + len - |b.store|))
    else
      Buf(Splice(b.store, CHEAP_PREPEND, b.Readable()), CHEAP_PREPEND, CHEAP_PREPEND + |b.Readable()|)
  }

  /** Making space frees enough room, hides itself from the reader, and grows the storage only within the bound. */
  lemma MakeSpaceFits(b: Buf, len: nat)
    requires b.Ok() && b.Writable() < len
    ensures b.Writable() + b.readIndex < len + CHEAP_PREPEND || CHEAP_PREPEND < b.readIndex
    ensures MakeSpace(b, len).Ok() && len <= MakeSpace(b, len).Writable()
    ensures MakeSpace(b, len).Readable() == b.Readable()
    ensures |b.store| <= |MakeSpace(b, len).store|
    ensures |MakeSpace(b, len).store| <= Max(|b.store|, 2 * (|b.Readable()| + len) + CHEAP_PREPEND)
  {
  }

  function EnsureWritable(b: Buf, len: nat): (e: Buf)
    requires b.Ok()
    ensures e.Ok() && len <= e.Writable() && e.Readable() == b.Readable()
    ensures |b.store| <= |e.store| <= Max(|b.store|, 2 * (|b.Readable()| + len) + CHEAP_PREPEND)
  {
    if b.Writable() < len then MakeSpaceFits(b, len); MakeSpace(b, len) else b
  }

  function AppendBytes(b: Buf, data: seq<byte>): Buf
    requires b.Ok()
  {
    var e := EnsureWritable(b, |data|);
    Buf(Splice(e.store, e.writeIndex, data), e.readIndex, e.writeIndex + |data|)
  }

  function ReadFd(b: Buf, res: ReadResult): Buf
    requires b.Ok()
    requires res.ReadBytes? ==> |res.bytes| <= b.Writable() + EXTRA_SIZE
  {
    match res
    case ReadFailed => b
    case ReadBytes(bytes) =>
      if |bytes| <= b.Writable() then
        Buf(Splice(b.store, b.writeIndex, bytes), b.readIndex, b.writeIndex + |bytes|)
      else
        AppendBytes(Buf(Splice(b.store, b.writeIndex, bytes[..b.Writable()]), b.readIndex, |b.store|),
                    bytes[b.Writable()..])
  }

  function PrependBytes(b: Buf, data: seq<byte>): Buf
    requires b.Ok() && |data| <= b.readIndex
  {
    var at := b.readIndex - |data|;
    Buf(Splice(b.store, at, data), at, b.writeIndex)
  }

  function RetrieveBytes(b: Buf, len: nat): Buf
    requires b.Ok() && len <= |b.Readable()|
  {
    b.(readIndex := b.readIndex + len)
  }

  function RetrieveAllBytes(b: Buf): Buf
    requires b.Ok()
  {
    b.(readIndex := CHEAP_PREPEND, writeIndex := CHEAP_PREPEND)
  }

  // ----- The byte queue the class stands for -----

  datatype Op =
    | Append(data: seq<byte>)
    | Read(res: ReadResult)
    | Prepend(data: seq<byte>)
    | Retrieve(len: nat)
    | RetrieveAsString

  /** What the source's assertions, and readv's two segments, ask of a call. */
  ghost predicate Allowed(b: Buf, op: Op)
    requires b.Ok()
  {
    match op
    case Append(_) => true
    case Read(res) => res.ReadBytes? ==> |res.bytes| <= b.Writable() + EXTRA_SIZE
    case Prepend(data) => |data| <= b.readIndex
    case Retrieve(len) => len <= |b.Readable()|
    case RetrieveAsString => true
  }

  ghost function Apply(b: Buf, op: Op): (r: Buf)
    requires b.Ok() && Allowed(b, op)
    ensures r.Ok()
  {
    match op
    case Append(data) =>
      AppendRefines(b, data);
      AppendBytes(b, data)
    case Read(res) =>
      ReadRefines(b, res);
      ReadFd(b, res)
    case Prepend(data) =>
      PrependRefines(b, data);
      PrependBytes(b, data)
    case Retrieve(len) => RetrieveBytes(b, len)
    case RetrieveAsString => RetrieveAllBytes(b)
  }

  /** The same operation on a plain sequence of bytes. */
  ghost function QueueApply(q: seq<byte>, op: Op): seq<byte> {
    match op
    case Append(data) => q + data
    case Read(res) => if res.ReadBytes? then q + res.bytes else q
    case Prepend(data) => data + q
    case Retrieve(len) => if len <= |q| then q[len..] else []
    case RetrieveAsString => []
  }

  lemma ApplyRefinesQueue(b: Buf, op: Op)
    requires b.Ok() && Allowed(b, op)
    ensures Apply(b, op).Readable() == QueueApply(b.Readable(), op)
    ensures |b.store| <= |Apply(b, op).store|
    ensures |Apply(b, op).store| <= Max(|b.store|, 2 * |Apply(b, op).Readable()| + CHEAP_PREPEND)
  {
    match op
    case Append(data) => AppendRefines(b, data);
    case Read(res) => ReadRefines(b, res);
    case Prepend(data) => PrependRefines(b, data);
    case Retrieve(len) =>
    case RetrieveAsString =>
  }

  lemma AppendRefines(b: Buf, data: seq<byte>)
    requires b.Ok()
    ensures AppendBytes(b, data).Ok()
    ensures AppendBytes(b, data).Readable() == b.Readable() + data
    ensures |b.store| <= |AppendBytes(b, data).store|
    ensures |AppendBytes(b, data).store| <= Max(|b.store|, 2 * (|b.Readable()| + |data|) + CHEAP_PREPEND)
  {
    var e := EnsureWritable(b, |data|);
    assert AppendBytes(b, data).Readable() == e.Readable() + data;
  }

  /** The two segments of readv are unobservable: the bytes arrive as one. */
  lemma ReadRefines(b: Buf, res: ReadResult)
    requires b.Ok() && Allowed(b, Read(res))
    ensures ReadFd(b, res).Ok()
    ensures ReadFd(b, res).Readable() == QueueApply(b.Readable(), Read(res))
    ensures |b.store| <= |ReadFd(b, res).store|
    ensures |ReadFd(b, res).store| <= Max(|b.store|, 2 * |ReadFd(b, res).Readable()| + CHEAP_PREPEND)
  {
    if res.ReadBytes? {
      var cut := Min(|res.bytes|, b.Writable());
      var filled := Buf(Splice(b.store, b.writeIndex, res.bytes[..cut]), b.readIndex, b.writeIndex + cut);
      assert filled.Readable() == b.Readable() + res.bytes[..cut];
      assert res.bytes == res.bytes[..cut] + res.bytes[cut..];
      if b.Writable() < |res.bytes| {
        AppendRefines(filled, res.bytes[cut..]);
      }
    }
  }

  lemma PrependRefines(b: Buf, data: seq<byte>)
    requires b.Ok() && |data| <= b.readIndex
    ensures PrependBytes(b, data).Ok() && |PrependBytes(b, data).store| == |b.store|
    ensures PrependBytes(b, data).Readable() == data + b.Readable()
  {
    var p := PrependBytes(b, data);
    assert p.store[b.readIndex..] == b.store[b.readIndex..];
    assert p.store[p.readIndex..b.readIndex] == data;
    assert p.Readable() == p.store[p.readIndex..b.readIndex] + p.store[b.readIndex..][..|b.Readable()|];
    assert b.Readable() == b.store[b.readIndex..][..|b.Readable()|];
  }

  // ----- Whole runs -----

  ghost predicate AllowedRun(b: Buf, ops: seq<Op>)
    requires b.Ok()
    decreases ops
  {
    ops == [] || (Allowed(b, ops[0]) && AllowedRun(Apply(b, ops[0]), ops[1..]))
  }

  ghost function Run(b: Buf, ops: seq<Op>): Buf
    requires b.Ok() && AllowedRun(b, ops)
    decreases ops
  {
    if ops == [] then b else Run(Apply(b, ops[0]), ops[1..])
  }

  ghost function QueueRun(q: seq<byte>, ops: seq<Op>): seq<byte>
    decreases ops
  {
    if ops == [] then q else QueueRun(QueueApply(q, ops[0]), ops[1..])
  }

  /** The largest number of readable bytes the plain queue holds at any moment of the run. */
  ghost function Peak(q: seq<byte>, ops: seq<Op>): nat
    decreases ops
  {
    if ops == [] then |q| else Max(|q|, Peak(QueueApply(q, ops[0]), ops[1..]))
  }

  /** Over any run the class is a byte queue, and its storage stays within twice the peak plus eight. */
  lemma {:induction false} RunRefinesQueue(b: Buf, ops: seq<Op>)
    requires b.Ok() && AllowedRun(b, ops)
    ensures Run(b, ops).Ok()
    ensures Run(b, ops).Readable() == QueueRun(b.Readable(), ops)
    ensures |b.store| <= |Run(b, ops).store|
    ensures |Run(b, ops).store| <= Max(|b.store|, 2 * Peak(b.Readable(), ops) + CHEAP_PREPEND)
    decreases ops
  {
    if ops == [] {
    } else {
      var b1, q1 := Apply(b, ops[0]), QueueApply(b.Readable(), ops[0]);
      ApplyRefinesQueue(b, ops[0]);
      RunRefinesQueue(b1, ops[1..]);
      PeakCoversStart(q1, ops[1..]);
      hide Apply, QueueApply, Buf.Readable, Buf.Ok;
      assert Peak(q1, ops[1..]) <= Peak(b.Readable(), ops);
      assert Run(b, ops) == Run(b1, ops[1..]) && QueueRun(b.Readable(), ops) == QueueRun(q1, ops[1..]);
      hide Run, QueueRun, Peak, AllowedRun;
      var final, peak := Run(b1, ops[1..]), Peak(b.Readable(), ops);
      BoundsCompose(|b.store|, |b1.store|, |final.store|, |q1|, Peak(q1, ops[1..]), peak);
    }
  }

  lemma BoundsCompose(s0: nat, s1: nat, s2: nat, readable: nat, peak1: nat, peak0: nat)
    requires s1 <= Max(s0, 2 * readable + CHEAP_PREPEND) && s2 <= Max(s1, 2 * peak1 + CHEAP_PREPEND)
    requires readable <= peak1 <= peak0
    ensures s2 <= Max(s0, 2 * peak0 + CHEAP_PREPEND)
  {
  }

  lemma PeakCoversStart(q: seq<byte>, ops: seq<Op>)
    ensures |q| <= Peak(q, ops)
    decreases ops
  {
  }

  /**
   * A freshly constructed buffer already shows 1016 zero bytes, so what a run leaves readable is what the
   * operations put there exactly when they would leave an empty queue and those zeros in the same state.
   */
  lemma NewBufferRun(ops: seq<Op>)
    requires AllowedRun(NewBuf(), ops)
    ensures NewBuf().Readable() == Zeros(1016)
    ensures Run(NewBuf(), ops).Ok()
    ensures Run(NewBuf(), ops).Readable() == QueueRun(Zeros(1016), ops)
    ensures |Run(NewBuf(), ops).store| <= Max(1032, 2 * Peak(Zeros(1016), ops) + 8)
  {
    assert NewBuf().Readable() == Zeros(1016);
    RunRefinesQueue(NewBuf(), ops);
  }

  // ----- The class itself -----

  class Buffer {
    var buffer: array<byte>
    var readIndex: nat
    var writeIndex: nat

    ghost function View(): Buf
      reads this, buffer
    {
      Buf(buffer[..], readIndex, writeIndex)
    }

    ghost predicate Valid()
      reads this, buffer
    {
      View().Ok()
    }

    ghost function Readable(): seq<byte>
      reads this, buffer
      requires Valid()
    {
      View().Readable()
    }

    constructor ()
      ensures Valid() && fresh(buffer) && View() == NewBuf()
    {
      buffer := new byte[CHEAP_PREPEND + INITIAL_SIZE](_ => 0);
      readIndex := CHEAP_PREPEND;
      writeIndex := INITIAL_SIZE;
      new;
      assert buffer[..] == Zeros(CHEAP_PREPEND + INITIAL_SIZE);
    }

    method ReadableBytes() returns (n: nat)
      requires Valid()
      ensures n == |Readable()|
    {
      n := writeIndex - readIndex;
    }

    method Peek(n: nat) returns (bytes: seq<byte>)
      requires Valid() && n <= |Readable()|
      ensures bytes == Readable()[..n]
    {
      bytes := buffer[readIndex..readIndex + n];
    }

    method Retrieve(len: nat)
      requires Valid() && len <= |Readable()|
      modifies this`readIndex
      ensures Valid() && View() == RetrieveBytes(old(View()), len)
      ensures Readable() == old(Readable())[len..]
    {
      readIndex := readIndex + len;
    }

    method RetrieveAll()
      requires Valid()
      modifies this`readIndex, this`writeIndex
      ensures Valid() && View() == RetrieveAllBytes(old(View())) && Readable() == []
    {
      readIndex := CHEAP_PREPEND;
      writeIndex := CHEAP_PREPEND;
    }

    method RetrieveAsString() returns (s: seq<byte>)
      requires Valid()
      modifies this`readIndex, this`writeIndex
      ensures s == old(Readable())
      ensures Valid() && View() == RetrieveAllBytes(old(View())) && Readable() == []
    {
      s := Peek(writeIndex - readIndex);
      RetrieveAll();
    }

    /** std::vector::resize to a larger size: new storage, old bytes kept, zeros behind them. */
    method Resize(n: nat)
      requires buffer.Length <= n
      modifies this`buffer
      ensures fresh(buffer) && buffer[..] == old(buffer[..]) + Zeros(n - old(buffer.Length))
    {
      var was := buffer;
      buffer := new byte[n](i requires 0 <= i < n reads was => if i < was.Length then was[i] else 0);
      assert buffer[..] == was[..] + Zeros(n - was.Length);
    }

    /** std::copy to lower addresses inside the same array; the two ranges may overlap. */
    method CopyDown(from: nat, to: nat, dest: nat)
      requires dest < from <= to <= buffer.Length
      modifies buffer
      ensures buffer[..] == Splice(old(buffer[..]), dest, old(buffer[from..to]))
    {
      var k := 0;
      while k < to - from
        invariant k <= to - from
        invariant forall j :: dest <= j < dest + k ==> buffer[j] == old(buffer[j - dest + from])
        invariant forall j :: 0 <= j < buffer.Length && (j < dest || dest + k <= j) ==> buffer[j] == old(buffer[j])
      {
        buffer[dest + k] := buffer[from + k];
        k := k + 1;
      }
      SpliceIs(buffer[..], old(buffer[..]), dest, old(buffer[from..to]));
    }

    /** std::copy from outside into the array. */
    method CopyIn(dest: nat, data: seq<byte>)
      requires dest + |data| <= buffer.Length
      modifies buffer
      ensures buffer[..] == Splice(old(buffer[..]), dest, data)
    {
      var k := 0;
      while k < |data|
        invariant k <= |data|
        invariant forall j :: dest <= j < dest + k ==> buffer[j] == data[j - dest]
        invariant forall j :: 0 <= j < buffer.Length && (j < dest || dest + k <= j) ==> buffer[j] == old(buffer[j])
      {
        buffer[dest + k] := data[k];
        k := k + 1;
      }
      SpliceIs(buffer[..], old(buffer[..]), dest, data);
    }

    method MakeSpaceFor(len: nat)
      requires Valid() && View().Writable() < len
      modifies this, buffer
      ensures buffer == old(buffer) || fresh(buffer)
      ensures View() == MakeSpace(old(View()), len)
    {
      if buffer.Length - writeIndex + readIndex < len + CHEAP_PREPEND {
        Resize(writeIndex + len);
      } else {
        assert CHEAP_PREPEND < readIndex;
        var readable := writeIndex - readIndex;
        CopyDown(readIndex, writeIndex, CHEAP_PREPEND);
        readIndex := CHEAP_PREPEND;
        writeIndex := readIndex + readable;
      }
    }

    method EnsureWritableBytes(len: nat)
      requires Valid()
      modifies this, buffer
      ensures buffer == old(buffer) || fresh(buffer)
      ensures Valid() && View() == EnsureWritable(old(View()), len) && len <= View().Writable()
    {
      if buffer.Length - writeIndex < len {
        MakeSpaceFor(len);
      }
    }

    method Append(data: seq<byte>)
      requires Valid()
      modifies this, buffer
      ensures buffer == old(buffer) || fresh(buffer)
      ensures Valid() && View() == AppendBytes(old(View()), data)
      ensures Readable() == old(Readable()) + data
    {
      AppendRefines(View(), data);
      EnsureWritableBytes(|data|);
      CopyIn(writeIndex, data);
      writeIndex := writeIndex + |data|;
    }

    method Prepend(data: seq<byte>)
      requires Valid() && |data| <= readIndex
      modifies this`readIndex, buffer
      ensures Valid() && View() == PrependBytes(old(View()), data)
      ensures Readable() == data + old(Readable())
    {
      ApplyRefinesQueue(View(), Op.Prepend(data));
      readIndex := readIndex - |data|;
      CopyIn(readIndex, data);
    }

    /** The result of readv(2) is a parameter; the kernel's own writes are the two CopyIn-like fills. */
    method Readfd(res: ReadResult) returns (n: int)
      requires Valid()
      requires res.ReadBytes? ==> |res.bytes| <= View().Writable() + EXTRA_SIZE
      modifies this, buffer
      ensures buffer == old(buffer) || fresh(buffer)
      ensures Valid() && View() == ReadFd(old(View()), res)
      ensures Readable() == if res.ReadBytes? then old(Readable()) + res.bytes else old(Readable())
      ensures n == if res.ReadBytes? then |res.bytes| else -1
    {
      ReadRefines(View(), res);
      hide Apply;
      var writable := buffer.Length - writeIndex;
      if res.ReadFailed? {
        n := -1;
        return;
      }
      n := |res.bytes|;
      var inPlace := Min(n, writable);
      CopyIn(writeIndex, res.bytes[..inPlace]);
      var extrabuf := res.bytes[inPlace..];
      if n <= writable {
        assert res.bytes[..inPlace] == res.bytes;
        writeIndex := writeIndex + n;
      } else {
        writeIndex := buffer.Length;
        Append(extrabuf);
      }
    }
  }
}
