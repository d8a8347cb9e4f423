/** muduo/log/base/AsyncLogging.cpp: producers and one backend thread exchanging a pool of buffers. */
module AsyncLoggings {
  import opened Prelude
  import LogStreams

  const CAPACITY: nat := LogStreams.LARGE_BUFFER
  const MAX_BATCH: nat := 25

  type Line = string

  /** One buffer object: which one it is, and the lines copied into it since its last reset. */
  datatype Chunk = Chunk(id: nat, lines: seq<Line>)

  /** Where the backend thread stands; Crashed means one of its assertions failed or it followed a null pointer. */
  datatype Phase = Top | Waiting | Taken | Writing | Done | Crashed

  /**
   * The shared buffers, then the backend's own, then what left the process. given lists every line passed to append,
   * batches what each exchange took, nextId counts the buffers ever allocated.
   */
  datatype Log = Log(
    current: Chunk, next: Option<Chunk>, buffers: seq<Chunk>,
    phase: Phase, running: bool, new1: Option<Chunk>, new2: Option<Chunk>, toWrite: seq<Chunk>, written: nat,
    file: seq<Line>,
    given: seq<Line>, batches: seq<seq<seq<Line>>>, nextId: nat)

  function NewLog(): Log {
    Log(Chunk(0, []), Some(Chunk(1, [])), [],
        Top, true, Some(Chunk(2, [])), Some(Chunk(3, [])), [], 0, [], [], [], 4)
  }

  function Size(lines: seq<Line>): nat {
    |Concat(lines)|
  }

  predicate Fits(c: Chunk, line: Line) {
    CAPACITY - Size(c.lines) > |line|
  }

  /** FixedBuffer::append: all or nothing. */
  function Copy(c: Chunk, line: Line): Chunk {
    if Fits(c, line) then c.(lines := c.lines + [line]) else c
  }

  /** The current buffer is full: queue it, and put the spare or a new buffer in its place. */
  function Rotate(l: Log): Log {
    var full := l.(buffers := l.buffers + [l.current], next := None);
    if l.next.Some? then full.(current := l.next.value)
    else full.(current := Chunk(l.nextId, []), nextId := l.nextId + 1)
  }

  /** append: one critical section of a producer. */
  function AppendLine(l: Log, line: Line): Log {
    var r := if Fits(l.current, line) then l else Rotate(l);
    r.(current := Copy(r.current, line), given := l.given + [line])
  }

  function Contents(chunks: seq<Chunk>): seq<seq<Line>> {
    seq(|chunks|, i requires 0 <= i < |chunks| => chunks[i].lines)
  }

  function Exchange(l: Log): Log
    requires l.new1.Some?
  {
    l.(current := l.new1.value, new1 := None, buffers := [], toWrite := l.buffers + [l.current], phase := Taken)
  }

  function LendSpare(l: Log): Log {
    if l.next.None? then l.(next := l.new2, new2 := None) else l
  }

  /** The end of the backend's critical section. */
  function Swap(l: Log): Log {
    if l.new1.None? then l.(phase := Crashed)
    else LendSpare(Exchange(l)).(batches := l.batches + [Contents(l.buffers + [l.current])])
  }

  predicate Spare(o: Option<Chunk>) {
    o.Some? && o.value.lines == []
  }

  /** The assertions at the loop head, then the test for an empty buffers_. */
  function Enter(l: Log): Log {
    if !Spare(l.new1) || !Spare(l.new2) || l.toWrite != [] then l.(phase := Crashed)
    else if l.buffers == [] then l.(phase := Waiting)
    else Swap(l)
  }

  function Kept<T>(batch: seq<T>): seq<T> {
    if |batch| > MAX_BATCH then batch[..2] else batch
  }

  function Trim(l: Log): Log {
    if l.toWrite == [] then l.(phase := Crashed)
    else l.(toWrite := Kept(l.toWrite), written := 0, phase := Writing)
  }

  function WriteOne(l: Log): Log
    requires l.written < |l.toWrite|
  {
    l.(file := l.file + l.toWrite[l.written].lines, written := l.written + 1)
  }

  function Reset(c: Chunk): Chunk {
    c.(lines := [])
  }

  function Last(chunks: seq<Chunk>): Chunk
    requires chunks != []
  {
    chunks[|chunks| - 1]
  }

  function Init(chunks: seq<Chunk>): seq<Chunk>
    requires chunks != []
  {
    chunks[..|chunks| - 1]
  }

  function RefillFirst(l: Log): Log
    requires l.toWrite != []
  {
    l.(new1 := Some(Reset(Last(l.toWrite))), toWrite := Init(l.toWrite))
  }

  function RefillSecond(l: Log): Log
    requires l.toWrite != []
  {
    l.(new2 := Some(Reset(Last(l.toWrite))), toWrite := Init(l.toWrite))
  }

  function FirstTwo<T>(batch: seq<T>): seq<T> {
    if |batch| > 2 then batch[..2] else batch
  }

  function Missing(l: Log): nat {
    (if l.new1.None? then 1 else 0) + (if l.new2.None? then 1 else 0)
  }

  /** Refill whichever spare is missing from the back of the batch. */
  function FillSpares(l: Log): Log
    requires Missing(l) <= |l.toWrite|
  {
    var a := if l.new1.None? then RefillFirst(l) else l;
    if a.new2.None? then RefillSecond(a) else a
  }

  /** Keep two written buffers at most, and make the missing spares of them. */
  function Recycle(l: Log): Log {
    var t := l.(toWrite := FirstTwo(l.toWrite));
    if |t.toWrite| < Missing(t) then l.(phase := Crashed)
    else FillSpares(t).(toWrite := [], written := 0, phase := Top)
  }

  datatype Event = Append(line: Line) | EnterLoop | Wake | TrimBatch | WriteBuffer | Refill | Stop | Exit

  predicate Allowed(l: Log, e: Event) {
    match e
    case Append(_) => true
    case EnterLoop => l.phase == Top && l.running
    case Wake => l.phase == Waiting
    case TrimBatch => l.phase == Taken
    case WriteBuffer => l.phase == Writing && l.written < |l.toWrite|
    case Refill => l.phase == Writing && l.written >= |l.toWrite|
    case Stop => true
    case Exit => l.phase == Top && !l.running
  }

  function Step(l: Log, e: Event): Log
    requires Allowed(l, e)
  {
    match e
    case Append(line) => AppendLine(l, line)
    case EnterLoop => Enter(l)
    case Wake => Swap(l)
    case TrimBatch => Trim(l)
    case WriteBuffer => WriteOne(l)
    case Refill => Recycle(l)
    case Stop => l.(running := false)
    case Exit => l.(phase := Done)
  }

  predicate AllowedRun(l: Log, es: seq<Event>)
    decreases es
  {
    es == [] || (Allowed(l, es[0]) && AllowedRun(Step(l, es[0]), es[1..]))
  }

  function Run(l: Log, es: seq<Event>): Log
    requires AllowedRun(l, es)
    decreases es
  {
    if es == [] then l else Run(Step(l, es[0]), es[1..])
  }

  // ----- Pool safety -----

  function CountOne(c: Chunk, id: nat): nat {
    if c.id == id then 1 else 0
  }

  function CountOpt(o: Option<Chunk>, id: nat): nat {
    if o.Some? then CountOne(o.value, id) else 0
  }

  function Count(chunks: seq<Chunk>, id: nat): nat {
    if chunks == [] then 0 else CountOne(chunks[0], id) + Count(chunks[1..], id)
  }

  /** In how many places buffer id is held. */
  function Held(l: Log, id: nat): nat {
    CountOne(l.current, id) + CountOpt(l.next, id) + Count(l.buffers, id)
    + CountOpt(l.new1, id) + CountOpt(l.new2, id) + Count(l.toWrite, id)
  }

  lemma {:induction false} CountAppend(a: seq<Chunk>, b: seq<Chunk>, id: nat)
    ensures Count(a + b, id) == Count(a, id) + Count(b, id)
  {
    if a == [] {
      assert a + b == b;
    } else {
      CountAppend(a[1..], b, id);
      assert (a + b)[1..] == a[1..] + b;
    }
  }

  lemma CountSnoc(a: seq<Chunk>, c: Chunk, id: nat)
    ensures Count(a + [c], id) == Count(a, id) + CountOne(c, id)
  {
    CountAppend(a, [c], id);
    assert [c][1..] == [];
  }

  lemma CountTake(chunks: seq<Chunk>, n: nat, id: nat)
    requires n <= |chunks|
    ensures Count(chunks[..n], id) <= Count(chunks, id)
  {
    CountAppend(chunks[..n], chunks[n..], id);
    assert chunks == chunks[..n] + chunks[n..];
  }

  /** What the backend can rely on, by phase. */
  predicate BackendOk(l: Log) {
    match l.phase
    case Top => Spare(l.new1) && Spare(l.new2) && l.toWrite == []
    case Waiting => Spare(l.new1) && Spare(l.new2) && l.toWrite == []
    case Taken => l.new1.None? && l.toWrite != [] && (if l.new2.None? then |l.toWrite| >= 2 else Spare(l.new2))
    case Writing => l.new1.None? && l.toWrite != [] && (if l.new2.None? then |l.toWrite| >= 2 else Spare(l.new2))
    case Done => true
    case Crashed => false
  }

  ghost predicate PoolOk(l: Log) {
    && BackendOk(l)
    && (if l.next.None? then l.buffers != [] else l.next.value.lines == [])
    && (forall id: nat :: Held(l, id) <= if id < l.nextId then 1 else 0)
  }

  lemma RotateHolds(l: Log, id: nat)
    ensures var d := Rotate(l);
            Held(d, id) <= Held(l, id) + if l.nextId <= id < d.nextId then 1 else 0
  {
    CountSnoc(l.buffers, l.current, id);
  }

  lemma AppendHolds(l: Log, line: Line, id: nat)
    ensures var d := AppendLine(l, line);
            Held(d, id) <= Held(l, id) + if l.nextId <= id < d.nextId then 1 else 0
  {
    RotateHolds(l, id);
    assert AppendLine(l, line).current.id == (if Fits(l.current, line) then l else Rotate(l)).current.id;
  }

  lemma SwapHolds(l: Log, id: nat)
    requires l.toWrite == []
    ensures Held(Swap(l), id) <= Held(l, id)
  {
    CountSnoc(l.buffers, l.current, id);
  }

  lemma RefillHolds(l: Log, id: nat)
    requires l.toWrite != []
    ensures l.new1.None? ==> Held(RefillFirst(l), id) == Held(l, id)
    ensures l.new2.None? ==> Held(RefillSecond(l), id) == Held(l, id)
  {
    CountSnoc(Init(l.toWrite), Last(l.toWrite), id);
    assert l.toWrite == Init(l.toWrite) + [Last(l.toWrite)];
  }

  lemma RecycleHolds(l: Log, id: nat)
    ensures Held(Recycle(l), id) <= Held(l, id)
  {
    if Recycle(l).phase != Crashed {
      var t := l.(toWrite := FirstTwo(l.toWrite));
      if |l.toWrite| > 2 {
        CountTake(l.toWrite, 2, id);
      }
      assert Held(t, id) <= Held(l, id);
      var a := if t.new1.None? then RefillFirst(t) else t;
      if t.new1.None? {
        RefillHolds(t, id);
      }
      if a.new2.None? {
        RefillHolds(a, id);
      }
    }
  }

  /** A step hands buffer id around, frees it, or allocates it as the one new buffer. */
  lemma StepHolds(l: Log, e: Event, id: nat)
    requires Allowed(l, e) && BackendOk(l)
    ensures l.nextId <= Step(l, e).nextId
    ensures Held(Step(l, e), id) <= Held(l, id) + if l.nextId <= id < Step(l, e).nextId then 1 else 0
  {
    match e
    case Append(line) => AppendHolds(l, line, id);
    case EnterLoop => SwapHolds(l, id);
    case Wake => SwapHolds(l, id);
    case TrimBatch => if |l.toWrite| > MAX_BATCH { CountTake(l.toWrite, 2, id); }
    case Refill => RecycleHolds(l, id);
    case _ =>
  }

  lemma StepKeepsBackend(l: Log, e: Event)
    requires Allowed(l, e) && PoolOk(l)
    ensures BackendOk(Step(l, e))
    ensures var d := Step(l, e); if d.next.None? then d.buffers != [] else d.next.value.lines == []
  {
    hide Held, Fits, Copy, Contents;
  }

  lemma StepKeepsPool(l: Log, e: Event)
    requires Allowed(l, e) && PoolOk(l)
    ensures PoolOk(Step(l, e))
  {
    StepKeepsBackend(l, e);
    forall id: nat
      ensures Held(Step(l, e), id) <= if id < Step(l, e).nextId then 1 else 0
    {
      StepHolds(l, e, id);
    }
  }

  lemma NewLogPool()
    ensures PoolOk(NewLog())
  {
  }

  lemma {:induction false} RunKeepsPool(l: Log, es: seq<Event>)
    requires AllowedRun(l, es) && PoolOk(l)
    ensures PoolOk(Run(l, es))
    decreases es
  {
    if es == [] {
    } else {
      StepKeepsPool(l, es[0]);
      RunKeepsPool(Step(l, es[0]), es[1..]);
    }
  }

  /**
   * In every interleaving no assertion of the backend fails, at each loop head both spares exist and are empty,
   * and no buffer is held in two places.
   */
  lemma PoolSafety(es: seq<Event>)
    requires AllowedRun(NewLog(), es)
    ensures var l := Run(NewLog(), es);
            && l.phase != Crashed
            && (l.phase == Top ==> Spare(l.new1) && Spare(l.new2) && l.toWrite == [])
            && (l.next.None? ==> l.buffers != [])
            && (forall id: nat :: Held(l, id) <= 1)
  {
    NewLogPool();
    RunKeepsPool(NewLog(), es);
  }

  // ----- Log conservation -----

  function Lines(chunks: seq<Chunk>): seq<Line> {
    Concat(Contents(chunks))
  }

  /** All lines the exchanges took, oldest first. */
  function TakenLines(batches: seq<seq<seq<Line>>>): seq<Line> {
    if batches == [] then []
    else TakenLines(batches[..|batches| - 1]) + Concat(batches[|batches| - 1])
  }

  /** Of those, the lines of the buffers that were written: a batch of more than 25 keeps its first two. */
  function WrittenLines(batches: seq<seq<seq<Line>>>): seq<Line> {
    if batches == [] then []
    else WrittenLines(batches[..|batches| - 1]) + Concat(Kept(batches[|batches| - 1]))
  }

  /** How many lines sat in the third and later buffers of batches of more than 25. */
  function DroppedLines(batches: seq<seq<seq<Line>>>): nat {
    if batches == [] then 0
    else
      var b := batches[|batches| - 1];
      DroppedLines(batches[..|batches| - 1]) + if |b| > MAX_BATCH then |Concat(b[2..])| else 0
  }

  /** The lines that fit an empty buffer. */
  function Short(lines: seq<Line>): seq<Line> {
    if lines == [] then []
    else
      var line := lines[|lines| - 1];
      Short(lines[..|lines| - 1]) + if |line| < CAPACITY then [line] else []
  }

  /** What the batch in progress will still add to the file. */
  function Pending(l: Log): seq<Line> {
    match l.phase
    case Taken => Lines(Kept(l.toWrite))
    case Writing => if l.written <= |l.toWrite| then Lines(l.toWrite[l.written..]) else []
    case _ => []
  }

  ghost predicate Accounted(l: Log) {
    TakenLines(l.batches) + Lines(l.buffers) + l.current.lines == Short(l.given)
  }

  ghost predicate Filed(l: Log) {
    && l.file + Pending(l) == WrittenLines(l.batches)
    && (l.phase == Writing ==> l.written <= |l.toWrite|)
    && (l.phase == Taken ==> l.batches != [] && l.batches[|l.batches| - 1] == Contents(l.toWrite))
  }

  lemma ContentsSnoc(a: seq<Chunk>, c: Chunk)
    ensures Contents(a + [c]) == Contents(a) + [c.lines]
    ensures Lines(a + [c]) == Lines(a) + c.lines
  {
    assert Contents(a + [c]) == Contents(a) + [c.lines];
    ConcatSnoc(Contents(a), c.lines);
  }

  lemma LinesFront(chunks: seq<Chunk>)
    requires chunks != []
    ensures Lines(chunks) == chunks[0].lines + Lines(chunks[1..])
  {
    assert Contents(chunks)[1..] == Contents(chunks[1..]);
  }

  lemma KeptContents(chunks: seq<Chunk>)
    ensures Contents(Kept(chunks)) == Kept(Contents(chunks))
  {
  }

  lemma ShortSnoc(lines: seq<Line>, line: Line)
    ensures Short(lines + [line]) == Short(lines) + if |line| < CAPACITY then [line] else []
  {
    assert (lines + [line])[..|lines|] == lines;
  }

  lemma AppendAccounted(l: Log, line: Line)
    requires Accounted(l) && PoolOk(l)
    ensures Accounted(AppendLine(l, line))
  {
    var d := AppendLine(l, line);
    var before := TakenLines(l.batches) + Lines(l.buffers);
    ShortSnoc(l.given, line);
    if Fits(l.current, line) {
      assert d.current.lines == l.current.lines + [line];
      Assoc(before, l.current.lines, [line]);
    } else {
      ContentsSnoc(l.buffers, l.current);
      Assoc(TakenLines(l.batches), Lines(l.buffers), l.current.lines);
      assert d.buffers == l.buffers + [l.current] && d.batches == l.batches;
      FreshCopy(d.current.id, line);
    }
  }

  /** A line goes into an empty buffer exactly when it is shorter than the buffer. */
  lemma FreshCopy(id: nat, line: Line)
    ensures Copy(Chunk(id, []), line).lines == if |line| < CAPACITY then [line] else []
  {
  }

  lemma SwapAccounted(l: Log)
    requires Accounted(l) && Spare(l.new1)
    ensures Accounted(Swap(l))
  {
    var d := Swap(l);
    var batch := Contents(l.buffers + [l.current]);
    assert d.batches[..|d.batches| - 1] == l.batches;
    ContentsSnoc(l.buffers, l.current);
    Assoc(TakenLines(l.batches), Lines(l.buffers), l.current.lines);
    assert TakenLines(d.batches) + [] + [] == TakenLines(d.batches);
  }

  lemma SwapFiled(l: Log)
    requires Filed(l) && Spare(l.new1) && l.phase in {Top, Waiting}
    ensures Filed(Swap(l))
  {
    var d := Swap(l);
    assert d.batches[..|d.batches| - 1] == l.batches;
    KeptContents(d.toWrite);
    assert l.file + [] == l.file;
  }

  lemma StepAccounted(l: Log, e: Event)
    requires Allowed(l, e) && Accounted(l) && PoolOk(l)
    ensures Accounted(Step(l, e))
  {
    hide AppendLine, Swap, Held, Short, TakenLines, Lines;
    match e
    case Append(line) => AppendAccounted(l, line);
    case EnterLoop => if l.buffers != [] { SwapAccounted(l); }
    case Wake => SwapAccounted(l);
    case _ =>
  }

  lemma WriteOneFiled(l: Log)
    requires Filed(l) && l.phase == Writing && l.written < |l.toWrite|
    ensures Filed(WriteOne(l))
  {
    var rest := l.toWrite[l.written..];
    LinesFront(rest);
    assert rest[1..] == l.toWrite[l.written + 1..];
    Assoc(l.file, rest[0].lines, Lines(rest[1..]));
  }

  lemma TrimFiled(l: Log)
    requires Filed(l) && l.phase == Taken && l.toWrite != []
    ensures Filed(Trim(l))
  {
    assert Kept(l.toWrite)[0..] == Kept(l.toWrite);
  }

  lemma RecycleFiled(l: Log)
    requires Filed(l) && PoolOk(l) && l.phase == Writing && l.written >= |l.toWrite|
    ensures Filed(Recycle(l))
  {
    assert l.toWrite[l.written..] == [];
  }

  /** A producer touches nothing the file's account depends on. */
  lemma AppendFiled(l: Log, line: Line)
    requires Filed(l)
    ensures Filed(AppendLine(l, line))
  {
    var d := AppendLine(l, line);
    assert d.file == l.file && d.phase == l.phase && d.toWrite == l.toWrite && d.written == l.written;
    assert d.batches == l.batches;
    assert Pending(d) == Pending(l);
  }

  lemma StepFiled(l: Log, e: Event)
    requires Allowed(l, e) && Filed(l) && PoolOk(l)
    ensures Filed(Step(l, e))
  {
    match e
    case Append(line) => AppendFiled(l, line);
    case EnterLoop => if l.buffers != [] { SwapFiled(l); }
    case Wake => SwapFiled(l);
    case TrimBatch => TrimFiled(l);
    case WriteBuffer => WriteOneFiled(l);
    case Refill => RecycleFiled(l);
    case Stop =>
    case Exit =>
  }

  lemma {:induction false} RunConserves(l: Log, es: seq<Event>)
    requires AllowedRun(l, es) && PoolOk(l) && Accounted(l) && Filed(l)
    ensures Accounted(Run(l, es)) && Filed(Run(l, es))
    decreases es
  {
    if es == [] {
    } else {
      StepKeepsPool(l, es[0]);
      StepAccounted(l, es[0]);
      StepFiled(l, es[0]);
      RunConserves(Step(l, es[0]), es[1..]);
    }
  }

  lemma {:induction false} DroppedExactly(batches: seq<seq<seq<Line>>>)
    ensures |TakenLines(batches)| == |WrittenLines(batches)| + DroppedLines(batches)
    ensures DroppedLines(batches) == 0 ==> WrittenLines(batches) == TakenLines(batches)
  {
    if batches == [] {
    } else {
      var b := batches[|batches| - 1];
      DroppedExactly(batches[..|batches| - 1]);
      if |b| > MAX_BATCH {
        ConcatAppend(b[..2], b[2..]);
        assert b == b[..2] + b[2..];
        assert |Concat(b[2..])| == 0 ==> Concat(b[..2]) + Concat(b[2..]) == Concat(b[..2]);
      }
    }
  }

  predicate AllFit(lines: seq<Line>) {
    forall i :: 0 <= i < |lines| ==> |lines[i]| < CAPACITY
  }

  /** Only the last buffer of a batch can be empty. */
  predicate Packed(batch: seq<seq<Line>>) {
    forall i :: 0 <= i < |batch| - 1 ==> batch[i] != []
  }

  predicate AllPacked(batches: seq<seq<seq<Line>>>) {
    forall i :: 0 <= i < |batches| ==> Packed(batches[i])
  }

  predicate NoEmptyChunk(chunks: seq<Chunk>) {
    forall i :: 0 <= i < |chunks| ==> chunks[i].lines != []
  }

  /** If every line fits an empty buffer, no empty buffer is ever queued by a producer. */
  predicate FullBuffers(l: Log) {
    AllFit(l.given) ==> NoEmptyChunk(l.buffers) && AllPacked(l.batches)
  }

  lemma AppendFullBuffers(l: Log, line: Line)
    requires FullBuffers(l)
    ensures FullBuffers(AppendLine(l, line))
  {
    var d := AppendLine(l, line);
    if AllFit(d.given) {
      assert d.given[|l.given|] == line;
      assert forall i :: 0 <= i < |l.given| ==> d.given[i] == l.given[i];
      if !Fits(l.current, line) {
        assert Concat<char>([]) == [];
        assert l.current.lines != [];
      }
    }
  }

  lemma SwapFullBuffers(l: Log)
    requires FullBuffers(l)
    ensures FullBuffers(Swap(l))
  {
    var d, batch := Swap(l), Contents(l.buffers + [l.current]);
    if AllFit(d.given) && l.new1.Some? {
      assert Packed(batch);
      assert d.batches == l.batches + [batch];
    }
  }

  lemma StepFullBuffers(l: Log, e: Event)
    requires Allowed(l, e) && FullBuffers(l)
    ensures FullBuffers(Step(l, e))
  {
    match e
    case Append(line) => AppendFullBuffers(l, line);
    case EnterLoop => SwapFullBuffers(l);
    case Wake => SwapFullBuffers(l);
    case _ =>
  }

  lemma {:induction false} RunFullBuffers(l: Log, es: seq<Event>)
    requires AllowedRun(l, es) && FullBuffers(l)
    ensures FullBuffers(Run(l, es))
    decreases es
  {
    if es == [] {
    } else {
      StepFullBuffers(l, es[0]);
      RunFullBuffers(Step(l, es[0]), es[1..]);
    }
  }

  /** The guard of the cut was false for every batch. */
  predicate NoneCut(batches: seq<seq<seq<Line>>>) {
    forall i :: 0 <= i < |batches| ==> |batches[i]| <= MAX_BATCH
  }

  lemma CutTakesLines(batch: seq<seq<Line>>)
    requires Packed(batch) && |batch| > MAX_BATCH
    ensures |Concat(batch[2..])| > 0
  {
    assert batch[2..][0] == batch[2];
  }

  lemma {:induction false} DroppedIffCut(batches: seq<seq<seq<Line>>>)
    requires AllPacked(batches)
    ensures DroppedLines(batches) == 0 <==> NoneCut(batches)
    decreases batches
  {
    if batches == [] {
    } else {
      var init, last := batches[..|batches| - 1], batches[|batches| - 1];
      DroppedIffCut(init);
      if |last| > MAX_BATCH {
        CutTakesLines(last);
      }
      assert forall i :: 0 <= i < |init| ==> init[i] == batches[i];
    }
  }

  /** All the lines not lost: in the file, on the way there, in buffers_ and in currentBuffer_. */
  function Surviving(l: Log): seq<Line> {
    l.file + Pending(l) + Lines(l.buffers) + l.current.lines
  }

  /**
   * In every interleaving the lines short enough for a buffer are, whole and in order, the lines the exchanges took,
   * then buffers_, then currentBuffer_; the file plus the batch in progress is what the exchanges took with every
   * batch of more than 25 buffers cut to its two oldest; the number of lines missing is the number cut off; and, if
   * every line given fits a buffer, none is missing exactly when no batch had more than 25 buffers. The lines given
   * are those of the append calls.
   */
  lemma LogConservation(es: seq<Event>)
    requires AllowedRun(NewLog(), es)
    ensures var l := Run(NewLog(), es);
            && TakenLines(l.batches) + Lines(l.buffers) + l.current.lines == Short(l.given)
            && l.file + Pending(l) == WrittenLines(l.batches)
            && |Surviving(l)| + DroppedLines(l.batches) == |Short(l.given)|
            && (Surviving(l) == Short(l.given) <==> DroppedLines(l.batches) == 0)
            && (AllFit(l.given) ==> (Surviving(l) == l.given <==> NoneCut(l.batches)))
            && l.given == LinesGiven(es)
  {
    var l := Run(NewLog(), es);
    RunRecords(NewLog(), es);
    assert [] + LinesGiven(es) == LinesGiven(es);
    RunConserves(NewLog(), es);
    DroppedExactly(l.batches);
    if AllFit(l.given) {
      RunFullBuffers(NewLog(), es);
      DroppedIffCut(l.batches);
      ShortAll(l.given);
    }
  }

  lemma {:induction false} ShortAll(lines: seq<Line>)
    requires AllFit(lines)
    ensures Short(lines) == lines
    decreases lines
  {
    if lines == [] {
    } else {
      ShortAll(lines[..|lines| - 1]);
    }
  }

  // ----- What each call comes to -----

  /** The lines passed to append in a run. */
  function LinesGiven(es: seq<Event>): seq<Line> {
    if es == [] then [] else (if es[0].Append? then [es[0].line] else []) + LinesGiven(es[1..])
  }

  lemma StepRecords(l: Log, e: Event)
    requires Allowed(l, e)
    ensures Step(l, e).given == l.given + if e.Append? then [e.line] else []
  {
    assert l.given + [] == l.given;
  }

  /** given is exactly what the callers of append passed. */
  lemma {:induction false} RunRecords(l: Log, es: seq<Event>)
    requires AllowedRun(l, es)
    ensures Run(l, es).given == l.given + LinesGiven(es)
    decreases es
  {
    if es == [] {
      assert l.given + [] == l.given;
    } else {
      StepRecords(l, es[0]);
      RunRecords(Step(l, es[0]), es[1..]);
      Assoc(l.given, if es[0].Append? then [es[0].line] else [], LinesGiven(es[1..]));
    }
  }

  /**
   * append allocates a buffer exactly when the line does not fit the current one and there is no spare; otherwise a
   * rotation makes the spare current, and either way the full buffer goes to the end of buffers_.
   */
  lemma AllocatesOnlyWithoutSpare(l: Log, line: Line)
    ensures var d, full := AppendLine(l, line), CAPACITY - |Concat(l.current.lines)| <= |line|;
            && d.nextId == l.nextId + (if full && l.next.None? then 1 else 0)
            && d.current.id == (if !full then l.current.id else if l.next.Some? then l.next.value.id else l.nextId)
            && d.buffers == (if full then l.buffers + [l.current] else l.buffers)
            && d.next == (if full then None else l.next)
  {
  }

  /** After stop() the backend may finish its turn but begins no other. */
  lemma {:induction false} StoppedBeginsNoTurn(l: Log, es: seq<Event>)
    requires AllowedRun(l, es) && !l.running
    ensures !Run(l, es).running && forall i :: 0 <= i < |es| ==> !es[i].EnterLoop?
    decreases es
  {
    if es == [] {
    } else {
      StoppedBeginsNoTurn(Step(l, es[0]), es[1..]);
      assert forall i :: 0 < i < |es| ==> es[i] == es[1..][i - 1];
    }
  }

  lemma StopStops(l: Log, es: seq<Event>)
    requires AllowedRun(Step(l, Stop), es)
    ensures forall i :: 0 <= i < |es| ==> !es[i].EnterLoop?
    ensures Run(Step(l, Stop), es).phase == Top ==> Allowed(Run(Step(l, Stop), es), Exit)
  {
    StoppedBeginsNoTurn(Step(l, Stop), es);
  }

  // ----- A run that loses lines -----

  /** A line that leaves no room for another in its buffer. */
  function FullLine(): Line {
    seq(CAPACITY - 1, _ => 'x')
  }

  function FullLines(n: nat): seq<Event> {
    seq(n, _ => Append(FullLine()))
  }

  /** After n + 1 full lines and no turn of the backend, n buffers are queued. */
  predicate Backlog(l: Log, n: nat) {
    && l.phase == Top && l.running && l.batches == [] && |l.buffers| == n && l.current.lines == [FullLine()]
    && AllFit(l.given)
  }

  lemma BacklogGrows(l: Log, n: nat)
    requires PoolOk(l) && Backlog(l, n)
    ensures Backlog(AppendLine(l, FullLine()), n + 1)
  {
    ConcatOne(FullLine());
    FreshCopy(Rotate(l).current.id, FullLine());
  }

  lemma BacklogBegins()
    ensures Backlog(AppendLine(NewLog(), FullLine()), 0)
  {
    FreshCopy(0, FullLine());
    assert Fits(NewLog().current, FullLine());
  }

  lemma {:induction false} FullLinesQueue(n: nat)
    ensures AllowedRun(NewLog(), FullLines(n + 1))
    ensures var l := Run(NewLog(), FullLines(n + 1)); PoolOk(l) && Backlog(l, n)
    decreases n
  {
    NewLogPool();
    if n == 0 {
      RunOne(NewLog(), Append(FullLine()));
      assert FullLines(1) == [Append(FullLine())];
      BacklogBegins();
    } else {
      FullLinesQueue(n - 1);
      var l := Run(NewLog(), FullLines(n));
      BacklogGrows(l, n - 1);
      RunOne(l, Append(FullLine()));
      RunAppend(NewLog(), FullLines(n), [Append(FullLine())]);
      assert FullLines(n + 1) == FullLines(n) + [Append(FullLine())];
    }
    RunKeepsPool(NewLog(), FullLines(n + 1));
  }

  lemma BacklogTaken(l: Log, n: nat)
    requires PoolOk(l) && Backlog(l, n) && n > 0
    ensures Allowed(l, EnterLoop)
    ensures var d := Step(l, EnterLoop); AllFit(d.given) && d.batches != [] && |d.batches[0]| == n + 1
  {
  }

  /** More than 25 full lines before the backend's turn: some are lost, though each fits a buffer. */
  lemma OversizedBatchLoses() returns (es: seq<Event>)
    ensures AllowedRun(NewLog(), es)
    ensures var l := Run(NewLog(), es); AllFit(l.given) && Surviving(l) != l.given
  {
    FullLinesQueue(MAX_BATCH);
    var l := Run(NewLog(), FullLines(MAX_BATCH + 1));
    BacklogTaken(l, MAX_BATCH);
    RunOne(l, EnterLoop);
    RunAppend(NewLog(), FullLines(MAX_BATCH + 1), [EnterLoop]);
    es := FullLines(MAX_BATCH + 1) + [EnterLoop];
    LogConservation(es);
  }

  // ----- The class -----

  lemma {:induction false} CountIn(chunks: seq<Chunk>, i: nat)
    requires i < |chunks|
    ensures Count(chunks, chunks[i].id) >= 1
  {
    if i == 0 {
    } else {
      CountIn(chunks[1..], i - 1);
    }
  }

  lemma WrittenNext(l: Log, i: nat)
    requires i <= |l.toWrite|
    ensures l.file + Lines(l.toWrite[..0]) == l.file
    ensures i < |l.toWrite| ==>
              l.file + Lines(l.toWrite[..i + 1]) == (l.file + Lines(l.toWrite[..i])) + l.toWrite[i].lines
  {
    if i < |l.toWrite| {
      assert l.toWrite[..i + 1] == l.toWrite[..i] + [l.toWrite[i]];
      ContentsSnoc(l.toWrite[..i], l.toWrite[i]);
      Assoc(l.file, Lines(l.toWrite[..i]), l.toWrite[i].lines);
    }
  }

  /** The batch closed form of the write loop, linked to single steps by WriteUpToStep. */
  function WriteUpTo(l: Log, n: nat): Log
    requires n <= |l.toWrite|
  {
    l.(file := l.file + Lines(l.toWrite[..n]), written := n)
  }

  lemma WriteUpToStep(l: Log, n: nat)
    requires l.phase == Writing && l.written == 0 && n < |l.toWrite|
    ensures WriteUpTo(l, 0) == l
    ensures WriteUpTo(l, n + 1) == Step(WriteUpTo(l, n), WriteBuffer)
  {
    WrittenNext(l, n);
  }

  function Appended(l: Log, lines: seq<Line>): Log
    decreases lines
  {
    if lines == [] then l else Appended(AppendLine(l, lines[0]), lines[1..])
  }

  /** One turn of the loop, with what producers append at its two unlocked places. */
  function Iteration(l: Log, waiting: seq<Line>, later: seq<Line>): Log {
    var a := Enter(l);
    var b := if a.phase == Waiting then Swap(Appended(a, waiting)) else a;
    var c := Trim(Appended(b, later));
    Recycle(WriteUpTo(c, |c.toWrite|).(written := 0))
  }

  // Pointers are buffer numbers, and the store is the memory they point into.

  ghost function ChunkAt(store: seq<seq<Line>>, b: nat): Chunk
    requires b < |store|
  {
    Chunk(b, store[b])
  }

  ghost function OptChunk(store: seq<seq<Line>>, b: Option<nat>): Option<Chunk>
    requires b.Some? ==> b.value < |store|
  {
    if b.None? then None else Some(ChunkAt(store, b.value))
  }

  ghost predicate InStore(store: seq<seq<Line>>, bs: seq<nat>) {
    forall i :: 0 <= i < |bs| ==> bs[i] < |store|
  }

  ghost function ChunksOf(store: seq<seq<Line>>, bs: seq<nat>): seq<Chunk>
    requires InStore(store, bs)
  {
    seq(|bs|, i requires 0 <= i < |bs| => ChunkAt(store, bs[i]))
  }

  lemma NoChunks(store: seq<seq<Line>>)
    ensures InStore(store, []) && ChunksOf(store, []) == []
  {
  }

  lemma ChunksSnoc(store: seq<seq<Line>>, bs: seq<nat>, b: nat)
    requires InStore(store, bs) && b < |store|
    ensures InStore(store, bs + [b]) && ChunksOf(store, bs + [b]) == ChunksOf(store, bs) + [ChunkAt(store, b)]
  {
  }

  /** A new buffer moves none of the others. */
  lemma StoreGrows(store: seq<seq<Line>>, bs: seq<nat>)
    requires InStore(store, bs)
    ensures InStore(store + [[]], bs) && ChunksOf(store + [[]], bs) == ChunksOf(store, bs)
  {
  }

  lemma ChunksFirstTwo(store: seq<seq<Line>>, bs: seq<nat>)
    requires InStore(store, bs)
    ensures |ChunksOf(store, bs)| == |bs|
    ensures |bs| > 2 ==> InStore(store, bs[..2]) && ChunksOf(store, bs[..2]) == ChunksOf(store, bs)[..2]
  {
  }

  class AsyncLogging {
    var store: seq<seq<Line>>
    var currentBuffer: Option<nat>
    var nextBuffer: Option<nat>
    var buffers: seq<nat>
    var running: bool
    var newBuffer1: Option<nat>
    var newBuffer2: Option<nat>
    var buffersToWrite: seq<nat>
    var output: string
    ghost var phase: Phase
    ghost var file: seq<Line>
    ghost var given: seq<Line>
    ghost var batches: seq<seq<seq<Line>>>

    /** No pointer dangles. */
    ghost predicate Known()
      reads this
    {
      && currentBuffer.Some? && currentBuffer.value < |store|
      && (nextBuffer.Some? ==> nextBuffer.value < |store|)
      && (newBuffer1.Some? ==> newBuffer1.value < |store|)
      && (newBuffer2.Some? ==> newBuffer2.value < |store|)
      && InStore(store, buffers) && InStore(store, buffersToWrite)
    }

    ghost function View(): Log
      reads this
      requires Known()
    {
      Log(ChunkAt(store, currentBuffer.value), OptChunk(store, nextBuffer), ChunksOf(store, buffers),
          phase, running, OptChunk(store, newBuffer1), OptChunk(store, newBuffer2),
          ChunksOf(store, buffersToWrite), 0, file, given, batches, |store|)
    }

    ghost predicate Valid()
      reads this
    {
      Known() && output == Concat(file)
    }

    /** The constructor, start, and the locals threadFunc sets up before its loop. */
    constructor ()
      ensures Valid() && View() == NewLog()
    {
      store := [[], [], [], []];
      currentBuffer, nextBuffer, buffers, running := Some(0), Some(1), [], true;
      newBuffer1, newBuffer2, buffersToWrite, output := Some(2), Some(3), [], "";
      phase, file, given, batches := Top, [], [], [];
      new;
      assert View() == NewLog();
    }

    /** FixedBuffer::append through the current pointer. */
    method AppendToCurrent(line: Line)
      requires Known() && CurrentUnshared(View())
      modifies this`store
      ensures Known() && View() == old(View()).(current := Copy(old(View()).current, line))
    {
      ghost var was := store;
      var b := currentBuffer.value;
      if CAPACITY - |Concat(store[b])| > |line| {
        store := store[b := store[b] + [line]];
      }
      assert ChunksOf(store, buffers) == ChunksOf(was, buffers);
      assert ChunksOf(store, buffersToWrite) == ChunksOf(was, buffersToWrite);
    }

    /** buffers_.push_back(currentBuffer_), which leaves the object held twice for a moment. */
    method QueueCurrent()
      requires Known()
      modifies this`buffers
      ensures Known() && View() == old(View()).(buffers := old(View()).buffers + [old(View()).current])
    {
      ChunksSnoc(store, buffers, currentBuffer.value);
      hide InStore, ChunksOf;
      buffers := buffers + [currentBuffer.value];
    }

    method DoRotate()
      requires Known()
      modifies this`currentBuffer, this`nextBuffer, this`buffers, this`store
      ensures Known() && View() == Rotate(old(View()))
    {
      hide InStore, ChunksOf;
      QueueCurrent();
      currentBuffer := None;
      if nextBuffer.Some? {
        currentBuffer := nextBuffer;
        nextBuffer := None;
      } else {
        StoreGrows(store, buffers);
        StoreGrows(store, buffersToWrite);
        currentBuffer := Some(|store|);
        store := store + [[]];
      }
    }

    method DoAppend(line: Line)
      requires Valid() && PoolOk(View())
      modifies this
      ensures Valid() && View() == AppendLine(old(View()), line)
    {
      HeldOnceUnshared(View());
      RotatedUnshared(View());
      var fits := CAPACITY - |Concat(store[currentBuffer.value])| > |line|;
      assert fits == Fits(View().current, line);
      hide PoolOk, CurrentUnshared, Rotate, Concat, Fits, Copy, InStore, ChunksOf, ChunkAt, OptChunk;
      if fits {
        AppendToCurrent(line);
      } else {
        DoRotate();
        AppendToCurrent(line);
      }
      given := given + [line];
    }

    /** The head of the loop, up to the wait. */
    method DoEnter()
      requires Valid() && PoolOk(View()) && phase == Top && running
      modifies this
      ensures Valid() && View() == Enter(old(View()))
    {
      if buffers == [] {
        phase := Waiting;
      } else {
        DoSwap();
      }
    }

    method DoExchange()
      requires Valid() && newBuffer1.Some? && buffersToWrite == []
      modifies this`currentBuffer, this`newBuffer1, this`buffers, this`buffersToWrite, this`phase
      ensures Valid() && View() == Exchange(old(View()))
    {
      NoChunks(store);
      hide InStore, ChunksOf, ChunkAt, Concat;
      QueueCurrent();
      currentBuffer := newBuffer1;
      newBuffer1 := None;
      buffersToWrite, buffers := buffers, buffersToWrite;
      phase := Taken;
    }

    /** The rest of the critical section, after the wait if there was one. */
    method DoSwap()
      requires Valid() && newBuffer1.Some? && buffersToWrite == []
      modifies this
      ensures Valid() && View() == Swap(old(View()))
    {
      DoExchange();
      batches := batches + [Contents(View().toWrite)];
      if nextBuffer.None? {
        nextBuffer := newBuffer2;
        newBuffer2 := None;
      }
    }

    method DoTrim()
      requires Valid() && PoolOk(View()) && phase == Taken
      modifies this`buffersToWrite, this`phase
      ensures Valid() && View() == Trim(old(View()))
    {
      ghost var bs := buffersToWrite;
      if |buffersToWrite| > MAX_BATCH {
        buffersToWrite := buffersToWrite[..2];
      }
      assert ChunksOf(store, buffersToWrite) == Kept(ChunksOf(store, bs));
      phase := Writing;
    }

    /** The write loop; the file receives the text of each buffer in turn. */
    method WriteBuffers()
      requires Valid() && PoolOk(View()) && phase == Writing
      modifies this`output, this`file
      ensures Valid()
      ensures View() == WriteUpTo(old(View()), |buffersToWrite|).(written := 0)
    {
      ghost var l := View();
      var i := 0;
      WrittenNext(l, 0);
      hide PoolOk, Lines, Concat;
      while i < |buffersToWrite|
        invariant i <= |buffersToWrite|
        invariant file == l.file + Lines(l.toWrite[..i])
        invariant output == Concat(file)
      {
        WrittenNext(l, i);
        ConcatAppend(file, store[buffersToWrite[i]]);
        output := output + Concat(store[buffersToWrite[i]]);
        file := file + store[buffersToWrite[i]];
        i := i + 1;
      }
    }

    /** back(), pop_back() and reset(). */
    method PopReset() returns (b: nat)
      requires Known() && buffersToWrite != [] && BackUnshared(View())
      modifies this`buffersToWrite, this`store
      ensures Known() && View() == old(View()).(toWrite := Init(old(View()).toWrite))
      ensures b == Last(old(View()).toWrite).id < |store| && store[b] == []
    {
      ghost var was, bs := store, buffersToWrite;
      var n := |buffersToWrite|;
      b := buffersToWrite[n - 1];
      buffersToWrite := buffersToWrite[..n - 1];
      store := store[b := []];
      assert ChunksOf(store, buffers) == ChunksOf(was, buffers);
      assert ChunksOf(store, buffersToWrite) == Init(ChunksOf(was, bs));
    }

    method FillFirst()
      requires Known() && HeldOnce(View()) && buffersToWrite != [] && newBuffer1.None?
      modifies this`buffersToWrite, this`store, this`newBuffer1
      ensures Known() && View() == RefillFirst(old(View())) && HeldOnce(View())
    {
      HeldOnceBack(View());
      RefillFirstOnce(View());
      var b := PopReset();
      newBuffer1 := Some(b);
    }

    method FillSecond()
      requires Known() && HeldOnce(View()) && buffersToWrite != [] && newBuffer2.None?
      modifies this`buffersToWrite, this`store, this`newBuffer2
      ensures Known() && View() == RefillSecond(old(View()))
    {
      HeldOnceBack(View());
      var b := PopReset();
      newBuffer2 := Some(b);
    }

    method DoFillSpares()
      requires Known() && HeldOnce(View()) && Missing(View()) <= |buffersToWrite|
      modifies this`buffersToWrite, this`store, this`newBuffer1, this`newBuffer2
      ensures Known() && View() == FillSpares(old(View()))
    {
      if newBuffer1.None? {
        FillFirst();
      }
      assert View() == if old(View()).new1.None? then RefillFirst(old(View())) else old(View());
      assert |View().toWrite| == |buffersToWrite|;
      if newBuffer2.None? {
        FillSecond();
      }
    }

    method DoRecycle()
      requires Valid() && HeldOnce(View()) && BackendOk(View()) && phase == Writing
      modifies this`buffersToWrite, this`store, this`newBuffer1, this`newBuffer2, this`phase
      ensures Valid() && View() == Recycle(old(View()))
    {
      FirstTwoOnce(View());
      ChunksFirstTwo(store, buffersToWrite);
      RecycleShape(View());
      hide InStore, ChunksOf, ChunkAt, HeldOnce, FillSpares, Recycle, Missing, BackendOk, Concat;
      if |buffersToWrite| > 2 {
        buffersToWrite := buffersToWrite[..2];
      }
      assert View() == old(View()).(toWrite := FirstTwo(old(View()).toWrite));
      DoFillSpares();
      NoChunks(store);
      buffersToWrite := [];
      phase := Top;
    }

    /** What other threads append while the backend does not hold the mutex. */
    method AppendAll(lines: seq<Line>)
      requires Valid() && PoolOk(View())
      modifies this
      ensures Valid() && PoolOk(View()) && View() == Appended(old(View()), lines)
    {
      hide PoolOk, AppendLine;
      var i := 0;
      assert lines[0..] == lines;
      while i < |lines|
        invariant i <= |lines| && Valid() && PoolOk(View())
        invariant Appended(View(), lines[i..]) == Appended(old(View()), lines)
      {
        AppendedStep(View(), lines, i);
        AppendKeepsPool(View(), lines[i]);
        DoAppend(lines[i]);
        i := i + 1;
      }
      assert lines[i..] == [];
    }

    /**
     * One turn of threadFunc's loop. Producers append the lines of waiting if the backend waits, and those of later
     * while it works without the mutex.
     */
    method LoopOnce(waiting: seq<Line>, later: seq<Line>)
      requires Valid() && PoolOk(View()) && phase == Top && running
      modifies this
      ensures Valid() && PoolOk(View()) && phase == Top
      ensures View() == Iteration(old(View()), waiting, later)
    {
      hide PoolOk, Appended, Enter, Swap, Trim, WriteUpTo, Recycle;
      EnterKeepsPool(View());
      var waits := buffers == [];
      DoEnter();
      if waits {
        AppendAll(waiting);
        AppendedKeeps(Enter(old(View())), waiting);
        WaitingReady(View());
        SwapKeepsPool(View());
        DoSwap();
      }
      ghost var b := View();
      AppendAll(later);
      AppendedKeeps(b, later);
      TrimKeepsPool(View());
      DoTrim();
      ghost var c := View();
      WriteBuffers();
      WrittenPool(c, |c.toWrite|);
      WrittenReady(c);
      RecycleKeepsPool(WriteUpTo(c, |c.toWrite|).(written := 0));
      DoRecycle();
    }
  }

  /** No other pointer leads to the last buffer of the batch. */
  ghost predicate BackUnshared(l: Log)
    requires l.toWrite != []
  {
    var id := Last(l.toWrite).id;
    && l.current.id != id
    && (l.next.Some? ==> l.next.value.id != id)
    && (l.new1.Some? ==> l.new1.value.id != id)
    && (l.new2.Some? ==> l.new2.value.id != id)
    && (forall i :: 0 <= i < |l.buffers| ==> l.buffers[i].id != id)
    && (forall i :: 0 <= i < |l.toWrite| - 1 ==> l.toWrite[i].id != id)
  }

  lemma HeldOnceBack(l: Log)
    requires l.toWrite != [] && Held(l, Last(l.toWrite).id) <= 1
    ensures BackUnshared(l)
  {
    var id := Last(l.toWrite).id;
    CountSnoc(Init(l.toWrite), Last(l.toWrite), id);
    assert l.toWrite == Init(l.toWrite) + [Last(l.toWrite)];
    forall i | 0 <= i < |l.buffers| ensures l.buffers[i].id != id {
      CountIn(l.buffers, i);
    }
    forall i | 0 <= i < |l.toWrite| - 1 ensures l.toWrite[i].id != id {
      assert Init(l.toWrite)[i] == l.toWrite[i];
      CountIn(Init(l.toWrite), i);
    }
  }

  ghost predicate HeldOnce(l: Log) {
    forall id: nat :: Held(l, id) <= 1
  }

  /** There are always enough written buffers to refill from. */
  lemma RecycleShape(l: Log)
    requires BackendOk(l) && l.phase == Writing
    ensures var t := l.(toWrite := FirstTwo(l.toWrite));
            && Missing(t) <= |t.toWrite|
            && Recycle(l) == FillSpares(t).(toWrite := [], written := 0, phase := Top)
  {
  }

  lemma FirstTwoOnce(l: Log)
    requires HeldOnce(l)
    ensures HeldOnce(l.(toWrite := FirstTwo(l.toWrite)))
  {
    var t := l.(toWrite := FirstTwo(l.toWrite));
    forall id: nat ensures Held(t, id) <= 1 {
      if |l.toWrite| > 2 {
        CountTake(l.toWrite, 2, id);
      }
      assert Held(t, id) <= Held(l, id);
    }
  }

  lemma RefillFirstOnce(l: Log)
    requires HeldOnce(l) && l.toWrite != [] && l.new1.None?
    ensures HeldOnce(RefillFirst(l))
  {
    forall id: nat ensures Held(RefillFirst(l), id) <= 1 {
      RefillHolds(l, id);
    }
  }

  /** No other pointer leads to the current buffer. */
  ghost predicate CurrentUnshared(l: Log) {
    && (l.next.Some? ==> l.next.value.id != l.current.id)
    && (l.new1.Some? ==> l.new1.value.id != l.current.id)
    && (l.new2.Some? ==> l.new2.value.id != l.current.id)
    && (forall i :: 0 <= i < |l.buffers| ==> l.buffers[i].id != l.current.id)
    && (forall i :: 0 <= i < |l.toWrite| ==> l.toWrite[i].id != l.current.id)
  }

  lemma HeldOnceUnshared(l: Log)
    requires Held(l, l.current.id) <= 1
    ensures CurrentUnshared(l)
  {
    forall i | 0 <= i < |l.buffers| ensures l.buffers[i].id != l.current.id {
      CountIn(l.buffers, i);
    }
    forall i | 0 <= i < |l.toWrite| ensures l.toWrite[i].id != l.current.id {
      CountIn(l.toWrite, i);
    }
  }

  lemma RotatedUnshared(l: Log)
    requires forall id: nat :: Held(l, id) <= if id < l.nextId then 1 else 0
    ensures CurrentUnshared(Rotate(l))
  {
    var r := Rotate(l);
    RotateHolds(l, r.current.id);
    HeldOnceUnshared(r);
  }

  // ----- A turn of the loop is a run of the machine -----

  lemma {:induction false} RunAppend(l: Log, a: seq<Event>, b: seq<Event>)
    requires AllowedRun(l, a) && AllowedRun(Run(l, a), b)
    ensures AllowedRun(l, a + b) && Run(l, a + b) == Run(Run(l, a), b)
    decreases a
  {
    if a == [] {
      assert a + b == b;
    } else {
      RunAppend(Step(l, a[0]), a[1..], b);
      assert (a + b)[1..] == a[1..] + b;
    }
  }

  lemma RunOne(l: Log, e: Event)
    requires Allowed(l, e)
    ensures AllowedRun(l, [e]) && Run(l, [e]) == Step(l, e)
  {
    assert [e][1..] == [];
  }

  lemma {:induction false} AppendedIsRun(l: Log, lines: seq<Line>) returns (es: seq<Event>)
    ensures AllowedRun(l, es) && Run(l, es) == Appended(l, lines)
    decreases lines
  {
    if lines == [] {
      es := [];
    } else {
      var rest := AppendedIsRun(AppendLine(l, lines[0]), lines[1..]);
      RunOne(l, Append(lines[0]));
      RunAppend(l, [Append(lines[0])], rest);
      es := [Append(lines[0])] + rest;
    }
  }

  lemma {:induction false} WritesAreRun(l: Log, n: nat) returns (es: seq<Event>)
    requires l.phase == Writing && l.written == 0 && n <= |l.toWrite|
    ensures AllowedRun(l, es) && Run(l, es) == WriteUpTo(l, n)
    decreases n
  {
    if n == 0 {
      es := [];
      assert l.file + Lines(l.toWrite[..0]) == l.file;
    } else {
      var rest := WritesAreRun(l, n - 1);
      WriteUpToStep(l, n - 1);
      RunOne(WriteUpTo(l, n - 1), WriteBuffer);
      RunAppend(l, rest, [WriteBuffer]);
      es := rest + [WriteBuffer];
    }
  }

  lemma EnterIsRun(l: Log, waiting: seq<Line>) returns (es: seq<Event>)
    requires PoolOk(l) && l.phase == Top && l.running
    ensures AllowedRun(l, es)
    ensures Run(l, es) == if Enter(l).phase == Waiting then Swap(Appended(Enter(l), waiting)) else Enter(l)
    ensures PoolOk(Run(l, es)) && Run(l, es).phase == Taken
  {
    EnterKeepsPool(l);
    RunOne(l, EnterLoop);
    es := [EnterLoop];
    if Enter(l).phase == Waiting {
      var appends := AppendedIsRun(Enter(l), waiting);
      AppendedKeeps(Enter(l), waiting);
      RunKeepsPool(Enter(l), appends);
      WaitingReady(Appended(Enter(l), waiting));
      RunOne(Appended(Enter(l), waiting), Wake);
      RunAppend(l, es, appends);
      RunAppend(l, es + appends, [Wake]);
      es := es + appends + [Wake];
    }
    RunKeepsPool(l, es);
  }

  /** One turn of the loop, producers included, is a run of the machine, so every result about runs speaks of it. */
  lemma IterationIsRun(l: Log, waiting: seq<Line>, later: seq<Line>) returns (es: seq<Event>)
    requires PoolOk(l) && l.phase == Top && l.running
    ensures AllowedRun(l, es) && Run(l, es) == Iteration(l, waiting, later)
  {
    var enter := EnterIsRun(l, waiting);
    var b := Run(l, enter);
    var appends := AppendedIsRun(b, later);
    RunAppend(l, enter, appends);
    AppendedKeeps(b, later);
    RunKeepsPool(b, appends);
    var d := Appended(b, later);
    TrimKeepsPool(d);
    RunOne(d, TrimBatch);
    RunAppend(l, enter + appends, [TrimBatch]);
    var writes := WritesAreRun(Trim(d), |Trim(d).toWrite|);
    RunAppend(l, enter + appends + [TrimBatch], writes);
    var w := WriteUpTo(Trim(d), |Trim(d).toWrite|);
    RunOne(w, Refill);
    RunAppend(l, enter + appends + [TrimBatch] + writes, [Refill]);
    es := enter + appends + [TrimBatch] + writes + [Refill];
    RunKeepsPool(Trim(d), writes);
    RecycleIgnoresWritten(w);
  }

  lemma RecycleIgnoresWritten(l: Log)
    requires PoolOk(l) && l.phase == Writing && l.written == |l.toWrite|
    ensures Recycle(l) == Recycle(l.(written := 0))
  {
    StepKeepsPool(l, Refill);
  }

  lemma AppendedStep(l: Log, lines: seq<Line>, i: nat)
    requires i < |lines|
    ensures Appended(l, lines[i..]) == Appended(AppendLine(l, lines[i]), lines[i + 1..])
  {
    assert lines[i..][1..] == lines[i + 1..];
  }

  lemma AppendKeepsPool(l: Log, line: Line)
    requires PoolOk(l)
    ensures PoolOk(AppendLine(l, line))
  {
    StepKeepsPool(l, Append(line));
  }

  /** Producers leave the backend's own state alone. */
  lemma {:induction false} AppendedKeeps(l: Log, lines: seq<Line>)
    ensures var d := Appended(l, lines);
            d.phase == l.phase && d.running == l.running && d.toWrite == l.toWrite && d.written == l.written
            && d.new1 == l.new1 && d.new2 == l.new2
    decreases lines
  {
    if lines == [] {
    } else {
      AppendedKeeps(AppendLine(l, lines[0]), lines[1..]);
    }
  }

  lemma EnterKeepsPool(l: Log)
    requires PoolOk(l) && l.phase == Top && l.running
    ensures PoolOk(Enter(l)) && Enter(l).phase == if l.buffers == [] then Waiting else Taken
  {
    StepKeepsPool(l, EnterLoop);
  }

  lemma WaitingReady(l: Log)
    requires PoolOk(l) && l.phase == Waiting
    ensures l.new1.Some? && l.toWrite == [] && Swap(l).phase == Taken
  {
  }

  lemma TrimKeepsPool(l: Log)
    requires PoolOk(l) && l.phase == Taken
    ensures PoolOk(Trim(l)) && Trim(l).phase == Writing
  {
    StepKeepsPool(l, TrimBatch);
  }

  lemma WrittenReady(l: Log)
    requires PoolOk(l) && l.phase == Writing
    ensures var w := WriteUpTo(l, |l.toWrite|).(written := 0); w.phase == Writing && w.toWrite == l.toWrite
  {
  }

  lemma RecycleKeepsPool(l: Log)
    requires PoolOk(l) && l.phase == Writing && l.written == 0
    ensures HeldOnce(l) && BackendOk(l) && PoolOk(Recycle(l)) && Recycle(l).phase == Top
  {
    var w := l.(written := |l.toWrite|);
    forall id: nat ensures Held(w, id) <= if id < w.nextId then 1 else 0 {
      assert Held(w, id) == Held(l, id);
    }
    StepKeepsPool(w, Refill);
    assert Recycle(w).phase != Crashed;
    assert Recycle(l) == Recycle(w);
  }

  lemma SwapKeepsPool(l: Log)
    requires PoolOk(l) && l.phase in {Top, Waiting}
    ensures PoolOk(Swap(l))
  {
    var w := l.(phase := Waiting);
    forall id: nat ensures Held(w, id) <= if id < w.nextId then 1 else 0 {
      assert Held(w, id) == Held(l, id);
    }
    StepKeepsPool(w, Wake);
    assert Swap(w) == Swap(l);
  }

  /** Writing changes nothing the pool depends on. */
  lemma WrittenPool(l: Log, n: nat)
    requires PoolOk(l) && n <= |l.toWrite|
    ensures PoolOk(WriteUpTo(l, n).(written := 0))
  {
    forall id: nat
      ensures Held(WriteUpTo(l, n).(written := 0), id) == Held(l, id)
    {
    }
  }
}
