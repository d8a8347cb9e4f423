/** muduo/net/TcpConnection.cpp: the outgoing byte stream of one connection. */
module TcpConnections {
  import opened Prelude
  import Buffers

  datatype State = Connecting | Connected | Disconnecting | Disconnected

  /** What write(2) did: it took the first n bytes offered, or it failed. */
  datatype WriteResult = Wrote(n: nat) | WouldBlock | WriteError

  /** Work posted to the connection's loop by other threads. */
  datatype Task = SendTask(message: seq<byte>) | ShutdownTask

  /**
   * A connection as one value. The first five fields are the source's; wire holds the bytes the kernel took,
   * shuts the length of wire at each shutdown(SHUT_WR), given the messages that reached sendInLoop,
   * promised the number of bytes that passed send's state check, closed whether handleClose has run.
   */
  datatype Conn = Conn(
    state: State, reading: bool, writing: bool, output: seq<byte>, completions: nat, posted: seq<Task>,
    wire: seq<byte>, shuts: seq<nat>, given: seq<seq<byte>>, promised: nat, closed: bool)

  function NewConn(initial: seq<byte>): Conn {
    Conn(Connecting, false, false, initial, 0, [], [], [], [], 0, false)
  }

  predicate Fits(w: WriteResult, len: nat) {
    w.Wrote? ==> w.n <= len
  }

  predicate WritesDirectly(c: Conn) {
    !c.writing && c.output == []
  }

  /** How much of the message the direct write takes. */
  function Taken(c: Conn, w: WriteResult): nat {
    if WritesDirectly(c) && w.Wrote? then w.n else 0
  }

  function DirectWrite(c: Conn, message: seq<byte>, w: WriteResult): Conn
    requires Fits(w, |message|)
  {
    if WritesDirectly(c) && w.Wrote? then
      c.(wire := c.wire + message[..w.n],
         completions := if w.n == |message| then c.completions + 1 else c.completions)
    else c
  }

  function SendInLoop(c: Conn, message: seq<byte>, w: WriteResult): Conn
    requires Fits(w, |message|)
  {
    var d := DirectWrite(c.(given := c.given + [message]), message, w);
    if Taken(c, w) < |message| then d.(output := d.output + message[Taken(c, w)..], writing := true) else d
  }

  function ShutdownInLoop(c: Conn): Conn {
    if c.writing then c else c.(shuts := c.shuts + [|c.wire|])
  }

  function HandleWrite(c: Conn, w: WriteResult): Conn
    requires Fits(w, |c.output|)
  {
    if !c.writing || !w.Wrote? || w.n == 0 then c
    else
      var sent := c.(wire := c.wire + c.output[..w.n], output := c.output[w.n..]);
      if sent.output != [] then sent
      else
        var idle := sent.(writing := false, completions := c.completions + 1);
        if c.state == Disconnecting then ShutdownInLoop(idle) else idle
  }

  function HandleClose(c: Conn): Conn {
    c.(reading := false, writing := false, closed := true)
  }

  function SendStep(c: Conn, message: seq<byte>, inLoop: bool, w: WriteResult): Conn
    requires Fits(w, |message|)
  {
    if c.state != Connected then c
    else
      var p := c.(promised := c.promised + |message|);
      if inLoop then SendInLoop(p, message, w) else p.(posted := p.posted + [SendTask(message)])
  }

  function ShutdownStep(c: Conn, inLoop: bool): Conn {
    if c.state != Connected then c
    else
      var d := c.(state := Disconnecting);
      if inLoop then ShutdownInLoop(d) else d.(posted := d.posted + [ShutdownTask])
  }

  predicate TaskAllowed(c: Conn, w: WriteResult) {
    c.posted != [] && (c.posted[0].SendTask? ==> Fits(w, |c.posted[0].message|))
  }

  function RunTaskStep(c: Conn, w: WriteResult): Conn
    requires TaskAllowed(c, w)
  {
    var rest := c.(posted := c.posted[1..]);
    match c.posted[0]
    case SendTask(message) => SendInLoop(rest, message, w)
    case ShutdownTask => ShutdownInLoop(rest)
  }

  datatype Event =
    | Establish
    | Send(message: seq<byte>, inLoop: bool, w: WriteResult)
    | Shutdown(inLoop: bool)
    | RunTask(w: WriteResult)
    | Writable(w: WriteResult)
    | Close
    | Destroy

  /** The source's assertions, and the fact that write(2) takes no more than it is offered. */
  predicate Allowed(c: Conn, e: Event) {
    match e
    case Establish => c.state == Connecting
    case Send(message, _, w) => Fits(w, |message|)
    case Shutdown(_) => true
    case RunTask(w) => TaskAllowed(c, w)
    case Writable(w) => Fits(w, |c.output|)
    case Close => c.state in {Connected, Disconnecting}
    case Destroy => c.state in {Connected, Disconnecting}
  }

  function Step(c: Conn, e: Event): Conn
    requires Allowed(c, e)
  {
    match e
    case Establish => c.(state := Connected, reading := true)
    case Send(message, inLoop, w) => SendStep(c, message, inLoop, w)
    case Shutdown(inLoop) => ShutdownStep(c, inLoop)
    case RunTask(w) => RunTaskStep(c, w)
    case Writable(w) => HandleWrite(c, w)
    case Close => HandleClose(c)
    case Destroy => c.(state := Disconnected, reading := false, writing := false)
  }

  predicate AllowedRun(c: Conn, es: seq<Event>)
    decreases es
  {
    es == [] || (Allowed(c, es[0]) && AllowedRun(Step(c, es[0]), es[1..]))
  }

  function Run(c: Conn, es: seq<Event>): Conn
    requires AllowedRun(c, es)
    decreases es
  {
    if es == [] then c else Run(Step(c, es[0]), es[1..])
  }

  lemma RunCons(c: Conn, e: Event, es: seq<Event>)
    requires Allowed(c, e) && AllowedRun(Step(c, e), es)
    ensures AllowedRun(c, [e] + es) && Run(c, [e] + es) == Run(Step(c, e), es)
  {
    assert ([e] + es)[1..] == es;
  }

  // ----- Stream integrity -----

  /** Everything given to sendInLoop is on the wire or queued, in order, behind what the buffer started with. */
  ghost predicate Conserves(c: Conn, initial: seq<byte>) {
    c.wire + c.output == initial + Concat(c.given)
  }

  lemma SendInLoopConserves(c: Conn, message: seq<byte>, w: WriteResult, initial: seq<byte>)
    requires Fits(w, |message|) && Conserves(c, initial)
    ensures Conserves(SendInLoop(c, message, w), initial)
  {
    var nwrote := Taken(c, w);
    ConcatSnoc(c.given, message);
    Assoc(initial, Concat(c.given), message);
    assert message == message[..nwrote] + message[nwrote..];
    if WritesDirectly(c) {
      assert c.wire + c.output == c.wire;
      assert [] + message[nwrote..] == message[nwrote..];
      assert nwrote == |message| ==> message[nwrote..] == [];
      Assoc(c.wire, message[..nwrote], message[nwrote..]);
    } else {
      assert message[0..] == message;
      assert message == [] ==> Concat(c.given) + message == Concat(c.given);
      Assoc(c.wire, c.output, message);
    }
  }

  lemma StepConserves(c: Conn, e: Event, initial: seq<byte>)
    requires Allowed(c, e) && Conserves(c, initial)
    ensures Conserves(Step(c, e), initial)
  {
    match e
    case Send(message, inLoop, w) =>
      if c.state == Connected && inLoop {
        SendInLoopConserves(c.(promised := c.promised + |message|), message, w, initial);
      }
    case RunTask(w) =>
      if c.posted[0].SendTask? {
        SendInLoopConserves(c.(posted := c.posted[1..]), c.posted[0].message, w, initial);
      }
    case Writable(w) =>
      if w.Wrote? {
        assert c.output == c.output[..w.n] + c.output[w.n..];
        Assoc(c.wire, c.output[..w.n], c.output[w.n..]);
      }
    case _ =>
  }

  /** After any run, short writes, failed writes and closes included. */
  lemma {:induction false} StreamIntegrityFrom(c: Conn, es: seq<Event>, initial: seq<byte>)
    requires AllowedRun(c, es) && Conserves(c, initial)
    ensures Conserves(Run(c, es), initial)
    decreases es
  {
    if es == [] {
    } else {
      StepConserves(c, es[0], initial);
      StreamIntegrityFrom(Step(c, es[0]), es[1..], initial);
    }
  }

  lemma StreamIntegrity(initial: seq<byte>, es: seq<Event>)
    requires AllowedRun(NewConn(initial), es)
    ensures var c := Run(NewConn(initial), es);
            c.wire + c.output == initial + Concat(c.given)
  {
    StreamIntegrityFrom(NewConn(initial), es, initial);
  }

  ghost predicate OnlyMessagesOnWire(initial: seq<byte>) {
    forall es :: AllowedRun(NewConn(initial), es) ==>
      Run(NewConn(initial), es).wire <= Concat(Run(NewConn(initial), es).given)
  }

  /** The peer sees nothing but messages exactly when the output buffer starts empty; the default Buffer does not. */
  lemma OnlyMessagesIffEmptyStart(initial: seq<byte>)
    ensures OnlyMessagesOnWire(initial) <==> initial == []
  {
    if initial == [] {
      forall es | AllowedRun(NewConn(initial), es)
        ensures Run(NewConn(initial), es).wire <= Concat(Run(NewConn(initial), es).given)
      {
        StreamIntegrity(initial, es);
        var c := Run(NewConn(initial), es);
        assert Concat(c.given) == c.wire + c.output;
      }
    } else {
      var es := StrayByteRun(initial);
      assert !(Run(NewConn(initial), es).wire <= Concat(Run(NewConn(initial), es).given));
    }
  }

  /** One message whose first byte differs from the stale one, then one writable event. */
  lemma StrayByteRun(initial: seq<byte>) returns (es: seq<Event>)
    requires initial != []
    ensures AllowedRun(NewConn(initial), es)
    ensures !(Run(NewConn(initial), es).wire <= Concat(Run(NewConn(initial), es).given))
  {
    var b: byte := if initial[0] == 0 then 1 else 0;
    var c1 := NewConn(initial).(state := Connected, reading := true);
    var c2 := Step(c1, Send([b], true, WouldBlock));
    assert c2.output == initial + [b] && c2.writing && c2.given == [[b]] && c2.wire == [];
    var c3 := HandleWrite(c2, Wrote(1));
    assert c3.wire == [initial[0]] && c3.given == [[b]];
    ConcatOne([b]);
    assert c3.wire[0] != Concat(c3.given)[0];
    RunCons(c2, Writable(Wrote(1)), []);
    es := [Writable(Wrote(1))] + [];
    RunCons(c1, Send([b], true, WouldBlock), es);
    es := [Send([b], true, WouldBlock)] + es;
    RunCons(NewConn(initial), Establish, es);
    es := [Establish] + es;
  }

  // ----- Shutting down -----

  predicate InLoop(e: Event) {
    match e
    case Send(_, inLoop, _) => inLoop
    case Shutdown(inLoop) => inLoop
    case _ => true
  }

  predicate AllInLoop(es: seq<Event>) {
    forall i :: 0 <= i < |es| ==> InLoop(es[i])
  }

  /** Between construction and handleClose. */
  predicate Live(c: Conn) {
    !c.closed && c.state != Disconnected
  }

  /** The write side is shut at most once, never before shutdown(), and no byte follows it. */
  predicate ShutOnce(c: Conn) {
    && c.posted == []
    && (c.state in {Connecting, Connected} ==> c.shuts == [])
    && (c.shuts != [] ==> |c.shuts| == 1 && c.shuts[0] == |c.wire| && !c.writing)
  }

  /** Has a message byte reached sendInLoop? */
  predicate Spoke(c: Conn) {
    Concat(c.given) != []
  }

  /**
   * While live, writing is enabled exactly when bytes wait and a message byte has been given; until then the buffer
   * still holds what it started with, and nothing is on the wire.
   */
  predicate WritingMatches(c: Conn, initial: seq<byte>) {
    Live(c) ==>
      && (c.writing <==> c.output != [] && Spoke(c))
      && (!Spoke(c) ==> c.wire == [] && c.output == initial)
  }

  /** While live, a connection being shut down has had its write side shut exactly when no message byte waits. */
  predicate ShutWhenDrained(c: Conn) {
    Live(c) && c.state == Disconnecting ==> (c.shuts != [] <==> c.output == [] || !Spoke(c))
  }

  lemma SendKeepsWritingMatches(c: Conn, message: seq<byte>, w: WriteResult, initial: seq<byte>)
    requires Fits(w, |message|) && WritingMatches(c, initial)
    ensures WritingMatches(SendInLoop(c, message, w), initial)
    ensures Spoke(SendInLoop(c, message, w)) <==> Spoke(c) || message != []
  {
    ConcatSnoc(c.given, message);
  }

  lemma StepKeepsWritingMatches(c: Conn, e: Event, initial: seq<byte>)
    requires Allowed(c, e) && WritingMatches(c, initial)
    ensures WritingMatches(Step(c, e), initial)
  {
    match e
    case Send(message, inLoop, w) =>
      if c.state == Connected && inLoop {
        SendKeepsWritingMatches(c.(promised := c.promised + |message|), message, w, initial);
      }
    case RunTask(w) =>
      if c.posted[0].SendTask? {
        SendKeepsWritingMatches(c.(posted := c.posted[1..]), c.posted[0].message, w, initial);
      }
    case _ =>
  }

  lemma StepKeepsGraceful(c: Conn, e: Event, initial: seq<byte>)
    requires Allowed(c, e) && InLoop(e) && ShutOnce(c) && WritingMatches(c, initial) && ShutWhenDrained(c)
    ensures ShutOnce(Step(c, e)) && ShutWhenDrained(Step(c, e))
  {
  }

  lemma {:induction false} GracefulFrom(c: Conn, es: seq<Event>, initial: seq<byte>)
    requires AllowedRun(c, es) && AllInLoop(es)
    requires ShutOnce(c) && WritingMatches(c, initial) && ShutWhenDrained(c)
    ensures var d := Run(c, es); ShutOnce(d) && WritingMatches(d, initial) && ShutWhenDrained(d)
    decreases es
  {
    if es == [] {
    } else {
      StepKeepsGraceful(c, es[0], initial);
      StepKeepsWritingMatches(c, es[0], initial);
      GracefulFrom(Step(c, es[0]), es[1..], initial);
    }
  }

  /** All bytes given are on the wire, behind what the buffer started with; or none were given. */
  predicate AllOut(c: Conn, initial: seq<byte>) {
    c.wire == initial + Concat(c.given) || !Spoke(c)
  }

  /**
   * With send and shutdown called in the loop thread, whatever the buffer started with: one shutdown at most and no
   * byte after it; while live, it has happened exactly when shutdown() was called and every byte given is on the wire,
   * and writing is enabled exactly when a given byte is not.
   */
  lemma GracefulShutdown(initial: seq<byte>, es: seq<Event>)
    requires AllowedRun(NewConn(initial), es) && AllInLoop(es)
    ensures var c := Run(NewConn(initial), es);
            && |c.shuts| <= 1
            && (c.shuts != [] ==> c.shuts[0] == |c.wire|)
            && (Live(c) ==>
                  && (c.writing <==> !AllOut(c, initial))
                  && (c.shuts != [] <==> c.state == Disconnecting && AllOut(c, initial)))
  {
    GracefulFrom(NewConn(initial), es, initial);
    StreamIntegrity(initial, es);
    OutputEmptyIffOut(Run(NewConn(initial), es), initial);
  }

  lemma OutputEmptyIffOut(c: Conn, initial: seq<byte>)
    requires Conserves(c, initial)
    ensures c.wire == initial + Concat(c.given) <==> c.output == []
  {
    assert c.output == [] ==> c.wire + c.output == c.wire;
  }

  function PostedBytes(tasks: seq<Task>): nat {
    if tasks == [] then 0
    else (if tasks[0].SendTask? then |tasks[0].message| else 0) + PostedBytes(tasks[1..])
  }

  lemma {:induction false} PostedBytesSnoc(tasks: seq<Task>, t: Task)
    ensures PostedBytes(tasks + [t]) == PostedBytes(tasks) + PostedBytes([t])
  {
    if tasks == [] {
      assert tasks + [t] == [t];
    } else {
      PostedBytesSnoc(tasks[1..], t);
      assert (tasks + [t])[1..] == tasks[1..] + [t];
    }
  }

  /** Bytes that passed send's check have reached sendInLoop or are still posted. */
  predicate Tally(c: Conn) {
    c.promised == |Concat(c.given)| + PostedBytes(c.posted)
  }

  lemma SendInLoopTallies(c: Conn, message: seq<byte>, w: WriteResult)
    requires Fits(w, |message|)
    ensures var d := SendInLoop(c, message, w);
            d.promised == c.promised && d.posted == c.posted &&
            |Concat(d.given)| == |Concat(c.given)| + |message|
  {
    ConcatSnoc(c.given, message);
  }

  lemma SendKeepsTally(c: Conn, message: seq<byte>, inLoop: bool, w: WriteResult)
    requires Fits(w, |message|) && Tally(c)
    ensures Tally(SendStep(c, message, inLoop, w))
  {
    hide SendInLoop, Concat, PostedBytes;
    if c.state == Connected {
      var p := c.(promised := c.promised + |message|);
      SendInLoopTallies(p, message, w);
      PostedBytesSnoc(c.posted, SendTask(message));
      PostedBytesOne(message);
    }
  }

  lemma PostedBytesOne(message: seq<byte>)
    ensures PostedBytes([SendTask(message)]) == |message|
  {
    assert [SendTask(message)][1..] == [];
  }

  lemma RunTaskKeepsTally(c: Conn, w: WriteResult)
    requires TaskAllowed(c, w) && Tally(c)
    ensures Tally(RunTaskStep(c, w))
  {
    if c.posted[0].SendTask? {
      SendInLoopTallies(c.(posted := c.posted[1..]), c.posted[0].message, w);
    }
  }

  lemma StepKeepsTally(c: Conn, e: Event)
    requires Allowed(c, e) && Tally(c)
    ensures Tally(Step(c, e))
  {
    match e
    case Send(message, inLoop, w) => SendKeepsTally(c, message, inLoop, w);
    case Shutdown(_) => PostedBytesSnoc(c.posted, ShutdownTask);
    case RunTask(w) => RunTaskKeepsTally(c, w);
    case _ =>
  }

  lemma {:induction false} RunKeepsTally(c: Conn, es: seq<Event>)
    requires AllowedRun(c, es) && Tally(c)
    ensures Tally(Run(c, es))
    decreases es
  {
    if es == [] {
    } else {
      StepKeepsTally(c, es[0]);
      RunKeepsTally(Step(c, es[0]), es[1..]);
    }
  }

  lemma {:induction false} RunKeepsWritingMatches(c: Conn, es: seq<Event>, initial: seq<byte>)
    requires AllowedRun(c, es) && WritingMatches(c, initial)
    ensures WritingMatches(Run(c, es), initial)
    decreases es
  {
    if es == [] {
    } else {
      StepKeepsWritingMatches(c, es[0], initial);
      RunKeepsWritingMatches(Step(c, es[0]), es[1..], initial);
    }
  }

  lemma ShutMeansDrained(c: Conn, e: Event, initial: seq<byte>)
    requires Allowed(c, e) && Live(c) && WritingMatches(c, initial) && |c.shuts| < |Step(c, e).shuts|
    ensures var d := Step(c, e); (d.output == [] || !Spoke(d)) && d.shuts == c.shuts + [|d.wire|]
  {
  }

  /**
   * With other threads calling send and shutdown too, whatever the buffer started with: a live connection that shuts
   * its write side has put on the wire all that reached sendInLoop, so of what send() accepted exactly the posted bytes
   * are cut off.
   */
  lemma ShutLosesOnlyPosted(initial: seq<byte>, es: seq<Event>, e: Event)
    requires AllowedRun(NewConn(initial), es)
    requires var c := Run(NewConn(initial), es); Live(c) && Allowed(c, e) && |c.shuts| < |Step(c, e).shuts|
    ensures var c := Run(NewConn(initial), es);
            var d := Step(c, e);
            && d.shuts == c.shuts + [|d.wire|]
            && AllOut(d, initial)
            && d.promised == |Concat(d.given)| + PostedBytes(d.posted)
  {
    var c := Run(NewConn(initial), es);
    StreamIntegrityFrom(NewConn(initial), es, initial);
    RunKeepsTally(NewConn(initial), es);
    RunKeepsWritingMatches(NewConn(initial), es, initial);
    StepKeepsTally(c, e);
    StepConserves(c, e, initial);
    ShutMeansDrained(c, e, initial);
    OutputEmptyIffOut(Step(c, e), initial);
  }

  /** One byte queued behind what the buffer held, then a send and a shutdown posted by another thread. */
  function TwoPosted(initial: seq<byte>): Conn {
    var posted := [SendTask([2]), ShutdownTask];
    Conn(Disconnecting, true, true, initial + [1], 0, posted, [], [], [[1]], 2, false)
  }

  lemma TwoPostedReached(initial: seq<byte>, es: seq<Event>)
    requires AllowedRun(TwoPosted(initial), es)
    ensures var prefix := [Establish, Send([1], true, WouldBlock), Send([2], false, WouldBlock), Shutdown(false)];
            AllowedRun(NewConn(initial), prefix + es) &&
            Run(NewConn(initial), prefix + es) == Run(TwoPosted(initial), es)
  {
    var e2, e3 := Send([1], true, WouldBlock), Send([2], false, WouldBlock);
    var c1 := NewConn(initial).(state := Connected, reading := true);
    var c2 := c1.(output := initial + [1], writing := true, given := [[1]], promised := 1);
    var c3 := c2.(posted := [SendTask([2])], promised := 2);
    assert [1 as byte][0..] == [1] && [] + [[1 as byte]] == [[1]];
    assert Step(c1, e2) == c2;
    assert Step(c2, e3) == c3;
    assert Step(c3, Shutdown(false)) == TwoPosted(initial);
    RunCons(c3, Shutdown(false), es);
    RunCons(c2, e3, [Shutdown(false)] + es);
    RunCons(c1, e2, [e3] + ([Shutdown(false)] + es));
    RunCons(NewConn(initial), Establish, [e2] + ([e3] + ([Shutdown(false)] + es)));
    assert [Establish] + ([e2] + ([e3] + ([Shutdown(false)] + es))) == [Establish, e2, e3, Shutdown(false)] + es;
  }

  /** The drain then shuts the write side before the posted message has run. */
  lemma ForeignShutdownDropsAMessage(initial: seq<byte>) returns (es: seq<Event>)
    ensures AllowedRun(NewConn(initial), es)
    ensures var c := Run(NewConn(initial), es);
            && Live(c) && c.wire == initial + [1] && c.shuts == [|c.wire|]
            && c.promised == 2 && PostedBytes(c.posted) == 1
  {
    var c := TwoPosted(initial);
    var drain := Writable(Wrote(|c.output|));
    assert c.output[..|c.output|] == c.output && [] + c.output == c.output;
    PostedBytesSnoc([SendTask([2])], ShutdownTask);
    assert c.posted == [SendTask([2])] + [ShutdownTask];
    RunCons(c, drain, []);
    TwoPostedReached(initial, [drain] + []);
    es := [Establish, Send([1], true, WouldBlock), Send([2], false, WouldBlock), Shutdown(false)] + ([drain] + []);
  }

  // ----- When shutdown() can cut off a message -----

  predicate AllSends(tasks: seq<Task>) {
    forall i :: 0 <= i < |tasks| ==> tasks[i].SendTask?
  }

  /** The posted messages that have a byte. */
  function NonEmptySends(tasks: seq<Task>): nat {
    if tasks == [] then 0
    else (if tasks[0].SendTask? && tasks[0].message != [] then 1 else 0) + NonEmptySends(tasks[1..])
  }

  lemma {:induction false} NonEmptyIffBytes(tasks: seq<Task>)
    ensures NonEmptySends(tasks) > 0 <==> PostedBytes(tasks) > 0
    decreases tasks
  {
    if tasks == [] {
    } else {
      NonEmptyIffBytes(tasks[1..]);
    }
  }

  /** Before shutdown() nothing is shut, and only sends are posted. */
  predicate Unshut(c: Conn) {
    c.state in {Connecting, Connected} ==> c.shuts == [] && AllSends(c.posted)
  }

  lemma StepUnshut(c: Conn, e: Event)
    requires Allowed(c, e) && Unshut(c)
    ensures Unshut(Step(c, e))
  {
    if e.RunTask? {
      assert c.posted[0] in c.posted;
      assert forall i :: 0 <= i < |c.posted[1..]| ==> c.posted[1..][i] == c.posted[i + 1];
    }
  }

  lemma {:induction false} RunUnshut(c: Conn, es: seq<Event>)
    requires AllowedRun(c, es) && Unshut(c)
    ensures Unshut(Run(c, es))
    decreases es
  {
    if es == [] {
    } else {
      StepUnshut(c, es[0]);
      RunUnshut(Step(c, es[0]), es[1..]);
    }
  }

  /** The write side of a live connection is shut while a byte that send() accepted is still posted. */
  predicate CutOff(c: Conn) {
    Live(c) && c.shuts != [] && PostedBytes(c.posted) > 0
  }

  /** Some way the rest of a run can go cuts off a message. */
  ghost predicate CanCutOff(c: Conn) {
    exists es :: AllowedRun(c, es) && CutOff(Run(c, es))
  }

  /** One message with bytes is posted, before any shutdown. */
  predicate OneAhead(tasks: seq<Task>) {
    && tasks != [] && tasks[0].SendTask?
    && if tasks[0].message == [] then OneAhead(tasks[1..]) else PostedBytes(tasks[1..]) == 0
  }

  lemma {:induction false} OneThenShutdown(tasks: seq<Task>)
    requires AllSends(tasks) && NonEmptySends(tasks) == 1
    ensures OneAhead(tasks + [ShutdownTask])
    decreases tasks
  {
    var rest := tasks[1..];
    assert (tasks + [ShutdownTask])[1..] == rest + [ShutdownTask];
    assert AllSends(rest) by {
      assert forall i :: 0 <= i < |rest| ==> rest[i] == tasks[i + 1];
    }
    assert tasks[0].SendTask?;
    if tasks[0].message == [] {
      OneThenShutdown(rest);
    } else {
      NonEmptyIffBytes(rest);
      PostedBytesSnoc(rest, ShutdownTask);
    }
  }

  /** Being shut down, with nothing left to cut off or the one message sure to go first. */
  predicate Harmless(c: Conn) {
    && (c.state == Disconnecting || c.state == Disconnected)
    && (PostedBytes(c.posted) == 0 || (OneAhead(c.posted) && !c.writing && c.shuts == []))
  }

  lemma StepHarmless(c: Conn, e: Event)
    requires Allowed(c, e) && Harmless(c)
    ensures Harmless(Step(c, e))
  {
  }

  lemma {:induction false} RunHarmless(c: Conn, es: seq<Event>)
    requires AllowedRun(c, es) && Harmless(c)
    ensures !CutOff(Run(c, es))
    decreases es
  {
    if es == [] {
    } else {
      StepHarmless(c, es[0]);
      RunHarmless(Step(c, es[0]), es[1..]);
    }
  }

  lemma {:induction false} ClosedStays(c: Conn, es: seq<Event>)
    requires AllowedRun(c, es) && c.closed
    ensures Run(c, es).closed
    decreases es
  {
    if es == [] {
    } else {
      ClosedStays(Step(c, es[0]), es[1..]);
    }
  }

  /** A full drain shuts the write side, whatever is posted. */
  lemma DrainCutsOff(c: Conn)
    requires Live(c) && c.state == Disconnecting && c.writing && c.output != [] && PostedBytes(c.posted) > 0
    ensures CanCutOff(c)
  {
    var drain := Writable(Wrote(|c.output|));
    RunCons(c, drain, []);
    assert CutOff(Run(c, [drain] + []));
  }

  /** A posted message that finds the socket full enables writing; the drain then comes before the other message. */
  lemma {:induction false} BlockedCutsOff(c: Conn, sends: seq<Task>)
    requires Live(c) && c.state == Disconnecting && !c.writing
    requires c.posted == sends + [ShutdownTask] && AllSends(sends) && NonEmptySends(sends) > 1
    ensures CanCutOff(c)
    decreases sends
  {
    var d, rest := Step(c, RunTask(WouldBlock)), sends[1..];
    assert sends[0].SendTask? && c.posted[0] == sends[0];
    assert c.posted[1..] == rest + [ShutdownTask];
    assert AllSends(rest) by {
      assert forall i :: 0 <= i < |rest| ==> rest[i] == sends[i + 1];
    }
    if sends[0].message == [] {
      BlockedCutsOff(d, rest);
    } else {
      NonEmptyIffBytes(rest);
      PostedBytesSnoc(rest, ShutdownTask);
      DrainCutsOff(d);
    }
    var es :| AllowedRun(d, es) && CutOff(Run(d, es));
    RunCons(c, RunTask(WouldBlock), es);
    assert CutOff(Run(c, [RunTask(WouldBlock)] + es));
  }

  /**
   * What the caller of shutdown() can see: a message with bytes is posted and, unless the call itself runs in the loop,
   * writing is enabled or a second one is posted.
   */
  predicate Risky(c: Conn, inLoop: bool) {
    NonEmptySends(c.posted) > 0 && (inLoop || c.writing || NonEmptySends(c.posted) > 1)
  }

  lemma RiskyCutsOff(c: Conn, inLoop: bool)
    requires Live(c) && c.state == Connected && Unshut(c) && (c.writing ==> c.output != []) && Risky(c, inLoop)
    ensures CanCutOff(ShutdownStep(c, inLoop))
  {
    var d := ShutdownStep(c, inLoop);
    NonEmptyIffBytes(c.posted);
    PostedBytesSnoc(c.posted, ShutdownTask);
    if c.writing {
      DrainCutsOff(d);
    } else if inLoop {
      assert AllowedRun(d, []) && CutOff(Run(d, []));
    } else {
      BlockedCutsOff(d, c.posted);
    }
  }

  lemma SafeShutdown(c: Conn, inLoop: bool)
    requires c.state == Connected && Unshut(c) && !Risky(c, inLoop)
    ensures Harmless(ShutdownStep(c, inLoop))
  {
    NonEmptyIffBytes(c.posted);
    PostedBytesSnoc(c.posted, ShutdownTask);
    if NonEmptySends(c.posted) == 1 {
      OneThenShutdown(c.posted);
    }
  }

  /**
   * For every starting buffer and every run up to a call of shutdown() on a connected connection: the write side can be
   * shut with an accepted byte still posted if and only if the connection has not been closed and the call is risky.
   */
  lemma ShutdownCutsOffIffRisky(initial: seq<byte>, before: seq<Event>, inLoop: bool)
    requires AllowedRun(NewConn(initial), before) && Run(NewConn(initial), before).state == Connected
    ensures var c := Run(NewConn(initial), before);
            CanCutOff(ShutdownStep(c, inLoop)) <==> !c.closed && Risky(c, inLoop)
  {
    var c := Run(NewConn(initial), before);
    RunUnshut(NewConn(initial), before);
    RunKeepsWritingMatches(NewConn(initial), before, initial);
    if !c.closed && Risky(c, inLoop) {
      RiskyCutsOff(c, inLoop);
    } else {
      var d := ShutdownStep(c, inLoop);
      forall es | AllowedRun(d, es) ensures !CutOff(Run(d, es)) {
        if c.closed {
          ClosedStays(d, es);
        } else {
          SafeShutdown(c, inLoop);
          RunHarmless(d, es);
        }
      }
    }
  }

  // ----- What each call comes to -----

  /** While live, a shutdown whose posted part has run has shut the write side or waits for a drain. */
  predicate ShutdownHeld(c: Conn) {
    Live(c) && c.state == Disconnecting && ShutdownTask !in c.posted ==> c.shuts != [] || c.writing
  }

  lemma StepHoldsShutdown(c: Conn, e: Event)
    requires Allowed(c, e) && ShutdownHeld(c)
    ensures ShutdownHeld(Step(c, e))
  {
    match e
    case RunTask(w) => assert c.posted == [c.posted[0]] + c.posted[1..];
    case Shutdown(inLoop) => assert ShutdownTask in c.posted + [ShutdownTask];
    case _ =>
  }

  lemma {:induction false} ShutdownHeldFrom(c: Conn, es: seq<Event>)
    requires AllowedRun(c, es) && ShutdownHeld(c)
    ensures ShutdownHeld(Run(c, es))
    decreases es
  {
    if es == [] {
    } else {
      StepHoldsShutdown(c, es[0]);
      ShutdownHeldFrom(Step(c, es[0]), es[1..]);
    }
  }

  /** The three calls of shutdownInLoop that find writing off. */
  predicate ShutsNow(c: Conn, e: Event)
    requires Allowed(c, e)
  {
    match e
    case Shutdown(inLoop) => inLoop && c.state == Connected && !c.writing
    case RunTask(_) => c.posted[0] == ShutdownTask && !c.writing
    case Writable(w) => c.state == Disconnecting && c.writing && w == Wrote(|c.output|) && c.output != []
    case _ => false
  }

  /** The write side is shut, behind the bytes written by then, in exactly those steps. */
  lemma ShutsExactly(c: Conn, e: Event)
    requires Allowed(c, e)
    ensures Step(c, e).shuts == if ShutsNow(c, e) then c.shuts + [|Step(c, e).wire|] else c.shuts
  {
  }

  /** No shutdown() is lost: from any start and over any run, other threads' calls included. */
  lemma ShutdownCarriedOut(initial: seq<byte>, es: seq<Event>)
    requires AllowedRun(NewConn(initial), es)
    ensures var c := Run(NewConn(initial), es);
            && (Live(c) && c.state == Disconnecting && ShutdownTask !in c.posted ==> c.shuts != [] || c.writing)
            && (Live(c) && c.state == Disconnecting && ShutdownTask !in c.posted && AllOut(c, initial) ==>
                  c.shuts != [])
  {
    ShutdownHeldFrom(NewConn(initial), es);
    RunKeepsWritingMatches(NewConn(initial), es, initial);
    StreamIntegrity(initial, es);
    OutputEmptyIffOut(Run(NewConn(initial), es), initial);
  }

  /** Reading is enabled from connectEstablished to handleClose or connectDestroyed. */
  predicate ReadingMatches(c: Conn) {
    && (c.reading <==> (c.state == Connected || c.state == Disconnecting) && !c.closed)
    && (c.state == Connecting ==> !c.closed)
  }

  lemma {:induction false} RunKeepsReading(c: Conn, es: seq<Event>)
    requires AllowedRun(c, es) && ReadingMatches(c)
    ensures ReadingMatches(Run(c, es))
    decreases es
  {
    if es == [] {
    } else {
      RunKeepsReading(Step(c, es[0]), es[1..]);
    }
  }

  function Messages(tasks: seq<Task>): seq<seq<byte>> {
    if tasks == [] then []
    else (if tasks[0].SendTask? then [tasks[0].message] else []) + Messages(tasks[1..])
  }

  lemma {:induction false} MessagesAppend(a: seq<Task>, b: seq<Task>)
    ensures Messages(a + b) == Messages(a) + Messages(b)
  {
    if a == [] {
      assert a + b == b;
    } else {
      MessagesAppend(a[1..], b);
      assert (a + b)[1..] == a[1..] + b;
    }
  }

  /** The message another thread's send() accepts in this step. */
  function PostedBy(c: Conn, e: Event): seq<seq<byte>>
    requires Allowed(c, e)
  {
    if e.Send? && !e.inLoop && c.state == Connected then [e.message] else []
  }

  /** The posted message whose turn it is. */
  function TakenBy(c: Conn, e: Event): seq<seq<byte>>
    requires Allowed(c, e)
  {
    if e.RunTask? && c.posted[0].SendTask? then [c.posted[0].message] else []
  }

  /** The message that send() accepts in the loop's thread. */
  function OwnBy(c: Conn, e: Event): seq<seq<byte>>
    requires Allowed(c, e)
  {
    if e.Send? && e.inLoop && c.state == Connected then [e.message] else []
  }

  lemma StepGives(c: Conn, e: Event)
    requires Allowed(c, e)
    ensures Step(c, e).given == c.given + (OwnBy(c, e) + TakenBy(c, e))
  {
    hide SendInLoop;
    assert c.given + [] == c.given;
    match e
    case Send(message, _, w) => SendInLoopGives(c.(promised := c.promised + |message|), message, w);
    case RunTask(w) =>
      if c.posted[0].SendTask? {
        SendInLoopGives(c.(posted := c.posted[1..]), c.posted[0].message, w);
      }
    case _ =>
  }

  lemma SendInLoopGives(c: Conn, message: seq<byte>, w: WriteResult)
    requires Fits(w, |message|)
    ensures SendInLoop(c, message, w).given == c.given + [message]
  {
  }

  lemma StepPosts(c: Conn, e: Event)
    requires Allowed(c, e)
    ensures Step(c, e).posted ==
            if e.RunTask? then c.posted[1..]
            else if e.Send? && !e.inLoop && c.state == Connected then c.posted + [SendTask(e.message)]
            else if e.Shutdown? && !e.inLoop && c.state == Connected then c.posted + [ShutdownTask]
            else c.posted
  {
  }

  lemma MessagesOne(t: Task)
    ensures Messages([t]) == if t.SendTask? then [t.message] else []
  {
    assert [t][1..] == [];
  }

  lemma StepDelivers(c: Conn, e: Event)
    requires Allowed(c, e)
    ensures Messages(c.posted) + PostedBy(c, e) == TakenBy(c, e) + Messages(Step(c, e).posted)
  {
    StepPosts(c, e);
    hide Step;
    if e.RunTask? {
    } else if e.Send? {
      MessagesAppend(c.posted, [SendTask(e.message)]);
      MessagesOne(SendTask(e.message));
    } else {
      MessagesAppend(c.posted, [ShutdownTask]);
      MessagesOne(ShutdownTask);
    }
  }

  function PostedIn(c: Conn, es: seq<Event>): seq<seq<byte>>
    requires AllowedRun(c, es)
    decreases es
  {
    if es == [] then [] else PostedBy(c, es[0]) + PostedIn(Step(c, es[0]), es[1..])
  }

  function TakenIn(c: Conn, es: seq<Event>): seq<seq<byte>>
    requires AllowedRun(c, es)
    decreases es
  {
    if es == [] then [] else TakenBy(c, es[0]) + TakenIn(Step(c, es[0]), es[1..])
  }

  function GivenIn(c: Conn, es: seq<Event>): seq<seq<byte>>
    requires AllowedRun(c, es)
    decreases es
  {
    if es == [] then [] else (OwnBy(c, es[0]) + TakenBy(c, es[0])) + GivenIn(Step(c, es[0]), es[1..])
  }

  /**
   * Messages reach sendInLoop whole and unchanged: those that send() accepts in the loop's thread at once, and those of
   * other threads in the order accepted, each once; the rest of them is still posted.
   */
  lemma {:induction false} MessagesDelivered(c: Conn, es: seq<Event>)
    requires AllowedRun(c, es)
    ensures Run(c, es).given == c.given + GivenIn(c, es)
    ensures Messages(c.posted) + PostedIn(c, es) == TakenIn(c, es) + Messages(Run(c, es).posted)
    decreases es
  {
    if es == [] {
      assert c.given + [] == c.given && Messages(c.posted) + [] == [] + Messages(c.posted);
    } else {
      var d := Step(c, es[0]);
      StepGives(c, es[0]);
      StepDelivers(c, es[0]);
      MessagesDelivered(d, es[1..]);
      var own, taken, posted := OwnBy(c, es[0]), TakenBy(c, es[0]), PostedBy(c, es[0]);
      hide Step, OwnBy, TakenBy, PostedBy, Messages;
      Assoc(c.given, own + taken, GivenIn(d, es[1..]));
      Assoc(Messages(c.posted), posted, PostedIn(d, es[1..]));
      Assoc(taken, Messages(d.posted), PostedIn(d, es[1..]));
      Assoc(taken, TakenIn(d, es[1..]), Messages(Run(c, es).posted));
    }
  }

  /** A message went to the socket whole, in the call that gave it; an empty one when write(2) returned 0. */
  predicate SentWhole(c: Conn, e: Event)
    requires Allowed(c, e)
  {
    var d := Step(c, e);
    && (e.Send? || e.RunTask?) && e.w.Wrote?
    && d.given != c.given && c.output == [] && d.wire == c.wire + d.given[|d.given| - 1]
  }

  /**
   * In a live connection after any run, a step queues one write-complete callback if it empties the queue or sends a
   * whole message, empty or not, at once; no other step queues any.
   */
  lemma WriteCompleteExactly(initial: seq<byte>, es: seq<Event>, e: Event)
    requires AllowedRun(NewConn(initial), es)
    requires Live(Run(NewConn(initial), es)) && Allowed(Run(NewConn(initial), es), e)
    ensures var c := Run(NewConn(initial), es);
            Step(c, e).completions - c.completions ==
            if (c.output != [] && Step(c, e).output == []) || SentWhole(c, e) then 1 else 0
  {
    RunKeepsWritingMatches(NewConn(initial), es, initial);
    CompletesWhen(Run(NewConn(initial), es), e);
  }

  lemma CompletesWhen(c: Conn, e: Event)
    requires Allowed(c, e) && (c.writing ==> c.output != [])
    ensures Step(c, e).completions - c.completions ==
            if (c.output != [] && Step(c, e).output == []) || SentWhole(c, e) then 1 else 0
  {
    hide SendInLoop, HandleWrite;
    match e
    case Send(message, inLoop, w) =>
      if c.state == Connected && inLoop {
        SendCompletes(c.(promised := c.promised + |message|), message, w);
      }
    case RunTask(w) =>
      if c.posted[0].SendTask? {
        SendCompletes(c.(posted := c.posted[1..]), c.posted[0].message, w);
      }
    case Writable(w) => WritableCompletes(c, w);
    case _ =>
  }

  lemma WritableCompletes(c: Conn, w: WriteResult)
    requires Fits(w, |c.output|) && (c.writing ==> c.output != [])
    ensures HandleWrite(c, w).completions - c.completions ==
            if c.output != [] && HandleWrite(c, w).output == [] then 1 else 0
  {
  }

  lemma SendCompletes(c: Conn, message: seq<byte>, w: WriteResult)
    requires Fits(w, |message|) && (c.writing ==> c.output != [])
    ensures var d := SendInLoop(c, message, w);
            && d.given != c.given && d.given[|d.given| - 1] == message && (c.output != [] ==> d.output != [])
            && (w.Wrote? && c.output == [] && d.wire == c.wire + message <==>
                  d.completions == c.completions + 1)
            && (d.completions == c.completions || d.completions == c.completions + 1)
  {
    if WritesDirectly(c) && w.Wrote? && w.n == |message| {
      assert message[..w.n] == message;
    }
    assert |c.given + [message]| != |c.given|;
  }

  // ----- The classes -----

  /** A connected socket: what write(2) took and when its write side was shut. */
  class Socket {
    ghost var wire: seq<byte>
    ghost var shuts: seq<nat>

    constructor ()
      ensures wire == [] && shuts == []
    {
      wire := [];
      shuts := [];
    }

    /** The outcome of write(2) is the caller's parameter. */
    method Write(data: seq<byte>, w: WriteResult) returns (n: int)
      requires Fits(w, |data|)
      modifies this`wire
      ensures n == if w.Wrote? then w.n else -1
      ensures wire == if w.Wrote? then old(wire) + data[..w.n] else old(wire)
    {
      n := if w.Wrote? then w.n else -1;
      if w.Wrote? {
        wire := wire + data[..w.n];
      }
    }

    method ShutdownWrite()
      modifies this`shuts
      ensures shuts == old(shuts) + [|wire|]
    {
      shuts := shuts + [|wire|];
    }
  }

  class TcpConnection {
    var state: State
    var reading: bool
    var writing: bool
    const outputBuffer: Buffers.Buffer
    const socket: Socket
    var completions: nat
    var posted: seq<Task>
    ghost var given: seq<seq<byte>>
    ghost var promised: nat
    ghost var closed: bool

    ghost predicate Valid()
      reads this, outputBuffer, outputBuffer.buffer
    {
      outputBuffer.Valid()
    }

    ghost function View(): Conn
      reads this, socket, outputBuffer, outputBuffer.buffer
      requires Valid()
    {
      Conn(state, reading, writing, outputBuffer.Readable(), completions, posted,
           socket.wire, socket.shuts, given, promised, closed)
    }

    /** The output buffer is a default Buffer, so the connection starts with 1016 zero bytes to send. */
    constructor ()
      ensures Valid() && View() == NewConn(Buffers.Zeros(1016))
      ensures fresh(socket) && fresh(outputBuffer) && fresh(outputBuffer.buffer)
    {
      state, reading, writing := Connecting, false, false;
      outputBuffer := new Buffers.Buffer();
      socket := new Socket();
      completions, posted := 0, [];
      given, promised, closed := [], 0, false;
      new;
      Buffers.NewBufferRun([]);
    }

    /** The first half of sendInLoop: try the socket when nothing is queued. */
    method TryWrite(message: seq<byte>, w: WriteResult) returns (nwrote: nat)
      requires Valid() && Fits(w, |message|)
      modifies this`completions, socket`wire
      ensures Valid() && View() == DirectWrite(old(View()), message, w)
      ensures nwrote == Taken(old(View()), w)
    {
      nwrote := 0;
      var readable := outputBuffer.ReadableBytes();
      if !writing && readable == 0 {
        var n := socket.Write(message, w);
        if n >= 0 {
          nwrote := n;
          if nwrote == |message| {
            completions := completions + 1;
          }
        }
      }
    }

    /** The second half of sendInLoop: queue the rest. */
    method QueueRest(rest: seq<byte>)
      requires Valid()
      modifies this`writing, outputBuffer, outputBuffer.buffer
      ensures outputBuffer.buffer == old(outputBuffer.buffer) || fresh(outputBuffer.buffer)
      ensures Valid() && View() == old(View()).(output := old(View()).output + rest, writing := true)
    {
      outputBuffer.Append(rest);
      if !writing {
        writing := true;
      }
    }

    method DoSendInLoop(message: seq<byte>, w: WriteResult)
      requires Valid() && Fits(w, |message|)
      modifies this, socket, outputBuffer, outputBuffer.buffer
      ensures outputBuffer.buffer == old(outputBuffer.buffer) || fresh(outputBuffer.buffer)
      ensures Valid() && View() == SendInLoop(old(View()), message, w)
    {
      given := given + [message];
      var nwrote := TryWrite(message, w);
      if nwrote < |message| {
        QueueRest(message[nwrote..]);
      }
    }

    method DoShutdownInLoop()
      requires Valid()
      modifies socket
      ensures Valid() && View() == ShutdownInLoop(old(View()))
    {
      if !writing {
        socket.ShutdownWrite();
      }
    }

    /** Offer the whole queue to the socket and drop what it took. */
    method Drain(w: WriteResult) returns (n: int, left: nat)
      requires Valid() && Fits(w, |View().output|)
      modifies socket`wire, outputBuffer`readIndex
      ensures Valid() && n == (if w.Wrote? then w.n else -1) && left == |View().output|
      ensures var c := old(View());
              View() == if n > 0 then c.(wire := c.wire + c.output[..n], output := c.output[n..]) else c
    {
      var readable := outputBuffer.ReadableBytes();
      var bytes := outputBuffer.Peek(readable);
      n := socket.Write(bytes, w);
      if n > 0 {
        outputBuffer.Retrieve(n);
      } else {
        assert socket.wire == old(socket.wire);
      }
      left := outputBuffer.ReadableBytes();
    }

    method DoHandleWrite(w: WriteResult)
      requires Valid() && Fits(w, |View().output|)
      modifies this, socket, outputBuffer`readIndex
      ensures Valid() && View() == HandleWrite(old(View()), w)
    {
      if writing {
        var n, left := Drain(w);
        if n > 0 && left == 0 {
          writing := false;
          completions := completions + 1;
          if state == Disconnecting {
            DoShutdownInLoop();
          }
        }
      }
    }

    method DoSend(message: seq<byte>, inLoop: bool, w: WriteResult)
      requires Valid() && Fits(w, |message|)
      modifies this, socket, outputBuffer, outputBuffer.buffer
      ensures outputBuffer.buffer == old(outputBuffer.buffer) || fresh(outputBuffer.buffer)
      ensures Valid() && View() == SendStep(old(View()), message, inLoop, w)
    {
      hide SendInLoop;
      if state == Connected {
        promised := promised + |message|;
        assert View() == old(View()).(promised := old(View()).promised + |message|);
        if inLoop {
          DoSendInLoop(message, w);
        } else {
          posted := posted + [SendTask(message)];
        }
      }
    }

    method DoShutdown(inLoop: bool)
      requires Valid()
      modifies this, socket
      ensures Valid() && View() == ShutdownStep(old(View()), inLoop)
    {
      if state == Connected {
        state := Disconnecting;
        if inLoop {
          DoShutdownInLoop();
        } else {
          posted := posted + [ShutdownTask];
        }
      }
    }

    method RunPosted(w: WriteResult)
      requires Valid() && TaskAllowed(View(), w)
      modifies this, socket, outputBuffer, outputBuffer.buffer
      ensures outputBuffer.buffer == old(outputBuffer.buffer) || fresh(outputBuffer.buffer)
      ensures Valid() && View() == RunTaskStep(old(View()), w)
    {
      var task := posted[0];
      posted := posted[1..];
      match task
      case SendTask(message) => DoSendInLoop(message, w);
      case ShutdownTask => DoShutdownInLoop();
    }

    method ConnectEstablished()
      requires Valid() && state == Connecting
      modifies this
      ensures Valid() && View() == Step(old(View()), Establish)
    {
      state := Connected;
      reading := true;
    }

    method DoHandleClose()
      requires Valid() && state in {Connected, Disconnecting}
      modifies this
      ensures Valid() && View() == Step(old(View()), Close)
    {
      closed := true;
      reading, writing := false, false;
    }

    method ConnectDestroyed()
      requires Valid() && state in {Connected, Disconnecting}
      modifies this
      ensures Valid() && View() == Step(old(View()), Destroy)
    {
      state := Disconnected;
      reading, writing := false, false;
    }
  }
}
