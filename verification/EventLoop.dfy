/** muduo/EventLoop.cpp: the queue of functors that other threads hand to a loop, and its wakeup. */
module EventLoops {
  import opened Prelude

  /** Who queued a functor: another thread, or the loop's own thread from inside or outside loop(). */
  datatype Origin = Foreign | OwnInside | OwnOutside

  datatype Task = Task(id: nat, origin: Origin)

  /** Where the loop's thread stands. */
  datatype Phase = Outside | Polling | Handling | Draining

  /**
   * readable says whether the eventfd has a count to read, signalling how many threads are between their push and
   * their wakeup. batch is the vector dePendingFunctors swapped out and next the loop index in it. queued and ran are
   * the histories of queueInLoop and of the functors started from it, direct that of the functors run at once.
   */
  datatype Loop = Loop(
    phase: Phase, quit: bool, calling: bool, pending: seq<Task>, batch: seq<Task>, next: nat,
    readable: bool, signalling: nat, queued: seq<Task>, ran: seq<Task>, direct: seq<nat>)

  function NewLoop(): Loop {
    Loop(Outside, false, false, [], [], 0, false, 0, [], [], [])
  }

  function Push(l: Loop, t: Task): Loop {
    l.(pending := l.pending + [t], queued := l.queued + [t])
  }

  /** queueInLoop on the loop's own thread: it signals only while functors are being called. */
  function OwnQueue(l: Loop, id: nat): Loop {
    var p := Push(l, Task(id, if l.phase == Outside then OwnOutside else OwnInside));
    if l.calling then p.(readable := true) else p
  }

  function BeginDrain(l: Loop): Loop {
    l.(phase := Draining, calling := true, batch := l.pending, next := 0, pending := [])
  }

  function RunFunctor(l: Loop): Loop
    requires l.next < |l.batch|
  {
    l.(ran := l.ran + [l.batch[l.next]], next := l.next + 1)
  }

  function EndDrain(l: Loop): Loop {
    l.(phase := if l.quit then Outside else Polling, calling := false, batch := [], next := 0)
  }

  datatype Event =
    | Start
    | PollReturns
    | ReadWakeup
    | StartDrain
    | Call
    | FinishDrain
    | CallNow(id: nat)
    | QueueOwn(id: nat)
    | QueueForeign(id: nat)
    | Wakeup
    | Quit(own: bool)

  /** The loop's thread takes its own steps in program order; other threads push, wake and quit at any moment. */
  predicate Allowed(l: Loop, e: Event) {
    match e
    case Start => l.phase == Outside
    case PollReturns => l.phase == Polling
    case ReadWakeup => l.phase == Handling
    case StartDrain => l.phase == Handling
    case Call => l.phase == Draining && l.next < |l.batch|
    case FinishDrain => l.phase == Draining && l.next >= |l.batch|
    case CallNow(_) => l.phase != Polling
    case QueueOwn(_) => l.phase != Polling
    case QueueForeign(_) => true
    case Wakeup => l.signalling > 0
    case Quit(own) => own ==> l.phase != Polling
  }

  function Step(l: Loop, e: Event): Loop
    requires Allowed(l, e)
  {
    match e
    case Start => l.(phase := Polling, quit := false)
    case PollReturns => l.(phase := Handling)
    case ReadWakeup => l.(readable := false)
    case StartDrain => BeginDrain(l)
    case Call => RunFunctor(l)
    case FinishDrain => EndDrain(l)
    case CallNow(id) => l.(direct := l.direct + [id])
    case QueueOwn(id) => OwnQueue(l, id)
    case QueueForeign(id) => Push(l, Task(id, Foreign)).(signalling := l.signalling + 1)
    case Wakeup => l.(signalling := l.signalling - 1, readable := true)
    case Quit(own) => if own then l.(quit := true) else l.(quit := true, signalling := l.signalling + 1)
  }

  predicate AllowedRun(l: Loop, es: seq<Event>)
    decreases es
  {
    es == [] || (Allowed(l, es[0]) && AllowedRun(Step(l, es[0]), es[1..]))
  }

  function Run(l: Loop, es: seq<Event>): Loop
    requires AllowedRun(l, es)
    decreases es
  {
    if es == [] then l else Run(Step(l, es[0]), es[1..])
  }

  // ----- No lost wakeup -----

  /** Nothing will wake the loop: the eventfd is not readable and no thread is about to make it so. */
  predicate Unsignalled(l: Loop) {
    !l.readable && l.signalling == 0
  }

  predicate AllQueuedOutside(tasks: seq<Task>) {
    forall i :: 0 <= i < |tasks| ==> tasks[i].origin == OwnOutside
  }

  /** Where the next drain does not come before the next poll, unsignalled work was queued outside loop(). */
  predicate Woken(l: Loop) {
    && (l.calling <==> l.phase == Draining)
    && (l.phase != Handling && Unsignalled(l) ==> AllQueuedOutside(l.pending))
  }

  lemma {:induction false} RunWoken(l: Loop, es: seq<Event>)
    requires AllowedRun(l, es) && Woken(l)
    ensures Woken(Run(l, es))
    decreases es
  {
    if es == [] {
    } else {
      RunWoken(Step(l, es[0]), es[1..]);
    }
  }

  /** No queueInLoop by the loop's own thread while it is outside loop(). */
  predicate NoneOutside(l: Loop, es: seq<Event>)
    requires AllowedRun(l, es)
    decreases es
  {
    es == [] || ((es[0].QueueOwn? ==> l.phase != Outside) && NoneOutside(Step(l, es[0]), es[1..]))
  }

  lemma {:induction false} NoneOutsideOrigins(l: Loop, es: seq<Event>)
    requires AllowedRun(l, es) && NoneOutside(l, es)
    requires forall t :: t in l.pending ==> t.origin != OwnOutside
    ensures forall t :: t in Run(l, es).pending ==> t.origin != OwnOutside
    decreases es
  {
    if es == [] {
    } else {
      NoneOutsideOrigins(Step(l, es[0]), es[1..]);
    }
  }

  /** The loop sits in poll with functors waiting and nothing on the way to wake it. */
  predicate Asleep(l: Loop) {
    l.phase == Polling && l.pending != [] && Unsignalled(l)
  }

  /** At some moment of the run. */
  predicate AsleepIn(l: Loop, es: seq<Event>)
    requires AllowedRun(l, es)
    decreases es
  {
    Asleep(l) || (es != [] && AsleepIn(Step(l, es[0]), es[1..]))
  }

  /** Some loop() is called with functors waiting and no signal on the way. */
  predicate StartsUnsignalled(l: Loop, es: seq<Event>)
    requires AllowedRun(l, es)
    decreases es
  {
    && es != []
    && ((es[0].Start? && l.pending != [] && Unsignalled(l)) || StartsUnsignalled(Step(l, es[0]), es[1..]))
  }

  /** What a functor queues is signalled while functors are being called. */
  predicate DrainSignalled(l: Loop) {
    (l.calling <==> l.phase == Draining) && (l.phase == Draining && l.pending != [] ==> !Unsignalled(l))
  }

  lemma FallsAsleepWhen(l: Loop, e: Event)
    requires Allowed(l, e) && DrainSignalled(l) && !Asleep(l)
    ensures DrainSignalled(Step(l, e))
    ensures Asleep(Step(l, e)) <==> e.Start? && l.pending != [] && Unsignalled(l)
  {
  }

  lemma {:induction false} AsleepOnlyFromStart(l: Loop, es: seq<Event>)
    requires AllowedRun(l, es) && DrainSignalled(l) && !Asleep(l)
    ensures AsleepIn(l, es) <==> StartsUnsignalled(l, es)
    decreases es
  {
    if es == [] {
    } else {
      FallsAsleepWhen(l, es[0]);
      var k := Step(l, es[0]);
      if Asleep(k) {
        assert AsleepIn(k, es[1..]);
      } else {
        AsleepOnlyFromStart(k, es[1..]);
      }
    }
  }

  /**
   * With any number of other threads: a wakeup is lost, the loop sitting in poll with functors waiting and no signal on
   * the way, in exactly the runs that call loop() with functors waiting and no signal on the way. All of those were
   * queued by the loop's own thread outside loop(), so without such calls none is ever lost.
   */
  lemma NoLostWakeup(es: seq<Event>)
    requires AllowedRun(NewLoop(), es)
    ensures AsleepIn(NewLoop(), es) <==> StartsUnsignalled(NewLoop(), es)
    ensures var l := Run(NewLoop(), es);
            && (Asleep(l) ==> AllQueuedOutside(l.pending))
            && (NoneOutside(NewLoop(), es) ==> !Asleep(l))
  {
    AsleepOnlyFromStart(NewLoop(), es);
    RunWoken(NewLoop(), es);
    if NoneOutside(NewLoop(), es) {
      NoneOutsideOrigins(NewLoop(), es);
      var l := Run(NewLoop(), es);
      assert l.pending != [] ==> l.pending[0] in l.pending;
    }
  }

  /** The exception is real: queue one functor on the loop's thread, then call loop(). */
  lemma QueuedBeforeLoopWaits() returns (es: seq<Event>)
    ensures AllowedRun(NewLoop(), es)
    ensures Asleep(Run(NewLoop(), es))
  {
    var l1 := Step(NewLoop(), QueueOwn(0));
    var l2 := Step(l1, Start);
    es := [QueueOwn(0), Start];
    assert es[1..] == [Start] && es[1..][1..] == [];
    assert Run(l1, [Start]) == l2;
  }

  // ----- No lost quit -----

  /** A loop told to quit does not sit in poll without a signal. */
  predicate QuitWoken(l: Loop) {
    l.phase == Polling && l.quit ==> !Unsignalled(l)
  }

  lemma {:induction false} RunQuitWoken(l: Loop, es: seq<Event>)
    requires AllowedRun(l, es) && QuitWoken(l)
    ensures QuitWoken(Run(l, es))
    decreases es
  {
    if es == [] {
    } else {
      RunQuitWoken(Step(l, es[0]), es[1..]);
    }
  }

  predicate NoStart(es: seq<Event>) {
    forall i :: 0 <= i < |es| ==> !es[i].Start?
  }

  /** Told to quit and inside, it is still told; outside, it stays there. */
  predicate Quitting(l: Loop) {
    l.phase != Outside ==> l.quit
  }

  lemma {:induction false} RunQuitting(l: Loop, es: seq<Event>)
    requires AllowedRun(l, es) && NoStart(es) && Quitting(l)
    ensures Quitting(Run(l, es))
    decreases es
  {
    if es == [] {
    } else {
      assert !es[0].Start?;
      assert NoStart(es[1..]);
      RunQuitting(Step(l, es[0]), es[1..]);
    }
  }

  /**
   * After quit() by any thread: until loop() is called again the loop never sits in poll without a signal, and its
   * next drain is its last.
   */
  lemma QuitLeaves(before: seq<Event>, own: bool, after: seq<Event>)
    requires AllowedRun(NewLoop(), before) && Allowed(Run(NewLoop(), before), Quit(own))
    requires AllowedRun(Step(Run(NewLoop(), before), Quit(own)), after) && NoStart(after)
    ensures var l := Run(Step(Run(NewLoop(), before), Quit(own)), after);
            && (l.phase == Polling ==> !Unsignalled(l))
            && (Allowed(l, FinishDrain) ==> Step(l, FinishDrain).phase == Outside)
  {
    var q := Step(Run(NewLoop(), before), Quit(own));
    RunQuitWoken(NewLoop(), before);
    RunQuitting(q, after);
    RunQuitWoken(q, after);
  }

  // ----- Every functor handed over is run or queued -----

  /** The functors that runInLoop runs at once, and those that queueInLoop is given, in a run. */
  function DirectIds(es: seq<Event>): seq<nat> {
    if es == [] then [] else (if es[0].CallNow? then [es[0].id] else []) + DirectIds(es[1..])
  }

  function QueuedIds(es: seq<Event>): seq<nat> {
    if es == [] then []
    else (if es[0].QueueOwn? || es[0].QueueForeign? then [es[0].id] else []) + QueuedIds(es[1..])
  }

  function Ids(tasks: seq<Task>): seq<nat> {
    seq(|tasks|, i requires 0 <= i < |tasks| => tasks[i].id)
  }

  lemma IdsSnoc(tasks: seq<Task>, t: Task)
    ensures Ids(tasks + [t]) == Ids(tasks) + [t.id]
  {
  }

  lemma StepHandsOver(l: Loop, e: Event)
    requires Allowed(l, e)
    ensures Step(l, e).direct == l.direct + (if e.CallNow? then [e.id] else [])
    ensures Ids(Step(l, e).queued) == Ids(l.queued) + (if e.QueueOwn? || e.QueueForeign? then [e.id] else [])
  {
    match e
    case QueueOwn(id) => IdsSnoc(l.queued, Task(id, if l.phase == Outside then OwnOutside else OwnInside));
    case QueueForeign(id) => IdsSnoc(l.queued, Task(id, Foreign));
    case _ =>
  }

  /** What is run at once, and what is queued, is exactly what the callers handed over, in order. */
  lemma {:induction false} RunHandsOver(l: Loop, es: seq<Event>)
    requires AllowedRun(l, es)
    ensures Run(l, es).direct == l.direct + DirectIds(es)
    ensures Ids(Run(l, es).queued) == Ids(l.queued) + QueuedIds(es)
    decreases es
  {
    if es == [] {
      assert l.direct + [] == l.direct && Ids(l.queued) + [] == Ids(l.queued);
    } else {
      var k, e := Step(l, es[0]), es[0];
      StepHandsOver(l, e);
      RunHandsOver(k, es[1..]);
      Assoc(l.direct, if e.CallNow? then [e.id] else [], DirectIds(es[1..]));
      Assoc(Ids(l.queued), if e.QueueOwn? || e.QueueForeign? then [e.id] else [], QueuedIds(es[1..]));
    }
  }

  // ----- Order, exactly once, and the snapshot -----

  /** Functors started, then the rest of the swapped batch, then the queue: all that was queued, in order. */
  predicate InOrder(l: Loop) {
    && l.next <= |l.batch|
    && (l.phase != Draining ==> l.batch == [])
    && l.ran + l.batch[l.next..] + l.pending == l.queued
  }

  lemma StepInOrder(l: Loop, e: Event)
    requires Allowed(l, e) && InOrder(l)
    ensures InOrder(Step(l, e))
  {
    match e
    case StartDrain =>
      assert l.pending[0..] == l.pending;
      assert l.ran + [] + l.pending == l.ran + l.pending + [];
    case Call =>
      assert l.batch[l.next..] == [l.batch[l.next]] + l.batch[l.next + 1..];
      Assoc(l.ran, [l.batch[l.next]], l.batch[l.next + 1..]);
    case QueueOwn(id) =>
      var t := Task(id, if l.phase == Outside then OwnOutside else OwnInside);
      Assoc(l.ran + l.batch[l.next..], l.pending, [t]);
    case QueueForeign(id) => Assoc(l.ran + l.batch[l.next..], l.pending, [Task(id, Foreign)]);
    case _ =>
  }

  lemma {:induction false} RunInOrder(l: Loop, es: seq<Event>)
    requires AllowedRun(l, es) && InOrder(l)
    ensures InOrder(Run(l, es))
    decreases es
  {
    if es == [] {
    } else {
      StepInOrder(l, es[0]);
      RunInOrder(Step(l, es[0]), es[1..]);
    }
  }

  /**
   * Over any run the functors started from the queue, then the rest of the batch, then the queue are those that callers
   * gave to queueInLoop, once each and in order; those that runInLoop runs at once are run at once.
   */
  lemma TaskOrder(es: seq<Event>)
    requires AllowedRun(NewLoop(), es)
    ensures var l := Run(NewLoop(), es);
            && l.next <= |l.batch|
            && l.ran + l.batch[l.next..] + l.pending == l.queued && l.ran <= l.queued
            && Ids(l.ran + l.batch[l.next..] + l.pending) == QueuedIds(es)
            && l.direct == DirectIds(es)
  {
    RunInOrder(NewLoop(), es);
    RunHandsOver(NewLoop(), es);
    var l := Run(NewLoop(), es);
    Assoc(l.ran, l.batch[l.next..], l.pending);
    assert [] + DirectIds(es) == DirectIds(es);
  }

  function Calls(es: seq<Event>): nat {
    if es == [] then 0 else (if es[0].Call? then 1 else 0) + Calls(es[1..])
  }

  predicate NoFinish(es: seq<Event>) {
    forall i :: 0 <= i < |es| ==> !es[i].FinishDrain?
  }

  lemma StepInDrain(l: Loop, e: Event)
    requires Allowed(l, e) && !e.FinishDrain? && l.phase == Draining && l.next <= |l.batch|
    ensures var k := Step(l, e);
            && k.phase == Draining && k.batch == l.batch
            && k.next == l.next + (if e.Call? then 1 else 0) <= |l.batch|
            && k.ran == l.ran + l.batch[l.next..k.next]
  {
    assert l.ran + l.batch[l.next..l.next] == l.ran;
  }

  /**
   * Inside one drain, whatever is queued meanwhile, the functors called are those of the snapshot in order, so at most
   * as many as were left in it; and the drain can end exactly when all of them have been called.
   */
  lemma {:induction false} DrainRunsSnapshot(l: Loop, es: seq<Event>)
    requires AllowedRun(l, es) && NoFinish(es) && l.phase == Draining && l.next <= |l.batch|
    ensures var m := Run(l, es);
            && m.phase == Draining && m.batch == l.batch
            && m.next == l.next + Calls(es) <= |l.batch|
            && m.ran == l.ran + l.batch[l.next..m.next]
            && (Allowed(m, FinishDrain) <==> Calls(es) == |l.batch| - l.next)
    decreases es
  {
    if es == [] {
      assert l.ran + l.batch[l.next..l.next] == l.ran;
    } else {
      assert !es[0].FinishDrain?;
      var k := Step(l, es[0]);
      StepInDrain(l, es[0]);
      DrainRunsSnapshot(k, es[1..]);
      var m := Run(k, es[1..]);
      assert l.batch[l.next..m.next] == l.batch[l.next..k.next] + l.batch[k.next..m.next];
      Assoc(l.ran, l.batch[l.next..k.next], l.batch[k.next..m.next]);
    }
  }

  // ----- One whole drain -----

  function OwnTasks(ids: seq<nat>): seq<Task> {
    seq(|ids|, i requires 0 <= i < |ids| => Task(ids[i], OwnInside))
  }

  function AllOwnTasks(spawned: seq<seq<nat>>): seq<Task> {
    OwnTasks(Concat(spawned))
  }

  function QueueEvents(ids: seq<nat>): seq<Event> {
    seq(|ids|, i requires 0 <= i < |ids| => QueueOwn(ids[i]))
  }

  /** The rest of a drain whose functors queue the given ids, one list for each functor left. */
  function DrainEvents(spawned: seq<seq<nat>>): seq<Event> {
    if spawned == [] then [FinishDrain] else [Call] + QueueEvents(spawned[0]) + DrainEvents(spawned[1..])
  }

  lemma {:induction false} RunAppend(l: Loop, a: seq<Event>, b: seq<Event>)
    requires AllowedRun(l, a) && AllowedRun(Run(l, a), b)
    ensures AllowedRun(l, a + b) && Run(l, a + b) == Run(Run(l, a), b)
    decreases a
  {
    if a == [] {
      assert a + b == b;
    } else {
      RunAppend(Step(l, a[0]), a[1..], b);
      assert (a + b)[1..] == a[1..] + b;
    }
  }

  lemma {:induction false} QueueEventsQueue(l: Loop, ids: seq<nat>)
    requires l.phase == Draining && l.calling
    ensures AllowedRun(l, QueueEvents(ids))
    ensures Run(l, QueueEvents(ids)) ==
            l.(pending := l.pending + OwnTasks(ids), queued := l.queued + OwnTasks(ids),
               readable := l.readable || ids != [])
    decreases ids
  {
    if ids == [] {
      assert l.pending + OwnTasks(ids) == l.pending && l.queued + OwnTasks(ids) == l.queued;
    } else {
      var k := Step(l, QueueOwn(ids[0]));
      QueueEventsQueue(k, ids[1..]);
      assert QueueEvents(ids)[1..] == QueueEvents(ids[1..]);
      assert OwnTasks(ids) == [Task(ids[0], OwnInside)] + OwnTasks(ids[1..]);
      Assoc(l.pending, [Task(ids[0], OwnInside)], OwnTasks(ids[1..]));
      Assoc(l.queued, [Task(ids[0], OwnInside)], OwnTasks(ids[1..]));
    }
  }

  lemma CallAndQueue(l: Loop, ids: seq<nat>)
    requires l.phase == Draining && l.calling && l.next < |l.batch|
    ensures AllowedRun(l, [Call] + QueueEvents(ids))
    ensures Run(l, [Call] + QueueEvents(ids)) ==
            l.(ran := l.ran + [l.batch[l.next]], next := l.next + 1,
               pending := l.pending + OwnTasks(ids), queued := l.queued + OwnTasks(ids),
               readable := l.readable || ids != [])
  {
    QueueEventsQueue(RunFunctor(l), ids);
    assert ([Call] + QueueEvents(ids))[1..] == QueueEvents(ids);
  }

  lemma OwnTasksAppend(a: seq<nat>, b: seq<nat>)
    ensures OwnTasks(a + b) == OwnTasks(a) + OwnTasks(b)
  {
  }

  lemma {:induction false} DrainEventsDrain(l: Loop, spawned: seq<seq<nat>>)
    requires l.phase == Draining && l.calling && l.next + |spawned| == |l.batch|
    ensures AllowedRun(l, DrainEvents(spawned))
    ensures var tasks := AllOwnTasks(spawned);
            Run(l, DrainEvents(spawned)) ==
            EndDrain(l.(ran := l.ran + l.batch[l.next..], pending := l.pending + tasks, queued := l.queued + tasks,
                        readable := l.readable || tasks != []))
    decreases spawned
  {
    if spawned == [] {
      assert l.batch[l.next..] == [] && AllOwnTasks(spawned) == [];
      assert l.ran + [] == l.ran && l.pending + [] == l.pending && l.queued + [] == l.queued;
      assert DrainEvents(spawned)[1..] == [];
    } else {
      var first := [Call] + QueueEvents(spawned[0]);
      CallAndQueue(l, spawned[0]);
      var k := Run(l, first);
      DrainEventsDrain(k, spawned[1..]);
      RunAppend(l, first, DrainEvents(spawned[1..]));
      OwnTasksAppend(spawned[0], Concat(spawned[1..]));
      var a, b := OwnTasks(spawned[0]), AllOwnTasks(spawned[1..]);
      assert AllOwnTasks(spawned) == a + b;
      assert l.batch[l.next..] == [l.batch[l.next]] + l.batch[l.next + 1..];
      Assoc(l.ran, [l.batch[l.next]], l.batch[l.next + 1..]);
      Assoc(l.pending, a, b);
      Assoc(l.queued, a, b);
    }
  }

  /** A whole dePendingFunctors: the snapshot has run, and what its functors queued is left for the next drain. */
  function Drained(l: Loop, tasks: seq<Task>): Loop {
    l.(phase := if l.quit then Outside else Polling, calling := false, pending := tasks,
       readable := l.readable || tasks != [], queued := l.queued + tasks, ran := l.ran + l.pending)
  }

  lemma WholeDrain(l: Loop, spawned: seq<seq<nat>>)
    requires l.phase == Handling && l.batch == [] && l.next == 0 && |spawned| == |l.pending|
    ensures AllowedRun(l, [StartDrain] + DrainEvents(spawned))
    ensures Run(l, [StartDrain] + DrainEvents(spawned)) == Drained(l, AllOwnTasks(spawned))
  {
    DrainEventsDrain(BeginDrain(l), spawned);
    assert ([StartDrain] + DrainEvents(spawned))[1..] == DrainEvents(spawned);
    assert l.pending[0..] == l.pending;
    assert [] + AllOwnTasks(spawned) == AllOwnTasks(spawned);
  }

  // ----- The class -----

  class EventLoop {
    var quit: bool
    var callingPendingFunctors: bool
    var pendingFunctors: seq<Task>
    var wakeupReadable: bool
    var phase: Phase
    ghost var signalling: nat
    ghost var queued: seq<Task>
    ghost var ran: seq<Task>
    ghost var direct: seq<nat>

    /** The loop between two steps of its thread, outside a drain. */
    ghost function View(): Loop
      reads this
    {
      Loop(
        phase, quit, callingPendingFunctors, pendingFunctors, [], 0, wakeupReadable, signalling, queued, ran, direct)
    }

    constructor ()
      ensures View() == NewLoop()
    {
      quit, callingPendingFunctors, pendingFunctors, wakeupReadable := false, false, [], false;
      phase, signalling, queued, ran, direct := Outside, 0, [], [], [];
    }

    /** write(2) to the eventfd makes it readable. */
    method DoWakeup()
      modifies this`wakeupReadable
      ensures wakeupReadable
    {
      wakeupReadable := true;
    }

    /** read(2) from the eventfd empties it. */
    method HandleRead()
      requires phase == Handling
      modifies this`wakeupReadable
      ensures View() == Step(old(View()), ReadWakeup)
    {
      wakeupReadable := false;
    }

    /** From another thread, quit() also wakes the loop. */
    method DoQuit(inLoopThread: bool)
      requires inLoopThread ==> phase != Polling
      modifies this`quit, this`wakeupReadable
      ensures inLoopThread ==> View() == Step(old(View()), Quit(true))
      ensures !inLoopThread ==> View() == Step(Step(old(View()), Quit(false)), Wakeup)
    {
      quit := true;
      if !inLoopThread {
        DoWakeup();
      }
    }

    method QueueInLoop(id: nat, inLoopThread: bool)
      requires inLoopThread ==> phase != Polling
      modifies this`pendingFunctors, this`wakeupReadable, this`queued
      ensures inLoopThread ==> View() == Step(old(View()), QueueOwn(id))
      ensures !inLoopThread ==> View() == Step(Step(old(View()), QueueForeign(id)), Wakeup)
    {
      var own := if phase == Outside then OwnOutside else OwnInside;
      var t := Task(id, if inLoopThread then own else Foreign);
      pendingFunctors := pendingFunctors + [t];
      queued := queued + [t];
      if !inLoopThread || callingPendingFunctors {
        DoWakeup();
      }
    }

    /** On the loop's thread the functor runs at once and is never queued. */
    method RunInLoop(id: nat, inLoopThread: bool)
      requires inLoopThread ==> phase != Polling
      modifies this`pendingFunctors, this`wakeupReadable, this`queued, this`direct
      ensures inLoopThread ==> View() == Step(old(View()), CallNow(id))
      ensures !inLoopThread ==> View() == Step(Step(old(View()), QueueForeign(id)), Wakeup)
    {
      if inLoopThread {
        direct := direct + [id];
      } else {
        QueueInLoop(id, false);
      }
    }

    /**
     * dePendingFunctors, where the i-th functor of the snapshot queues the functors spawned[i]. Exactly the snapshot
     * runs; what it queues waits for the next drain, and is signalled; the whole is one run of the machine.
     */
    method DePendingFunctors(spawned: seq<seq<nat>>)
      requires phase == Handling && |spawned| == |pendingFunctors|
      modifies this
      ensures ran == old(ran) + old(pendingFunctors) && pendingFunctors == AllOwnTasks(spawned)
      ensures AllowedRun(old(View()), [StartDrain] + DrainEvents(spawned))
      ensures View() == Run(old(View()), [StartDrain] + DrainEvents(spawned))
    {
      WholeDrain(View(), spawned);
      callingPendingFunctors := true;
      phase := Draining;
      var functors := pendingFunctors;
      pendingFunctors := [];
      CallFunctors(functors, spawned);
      callingPendingFunctors := false;
      phase := if quit then Outside else Polling;
      assert View() == Drained(old(View()), AllOwnTasks(spawned));
    }

    /** The loop of dePendingFunctors. */
    method CallFunctors(functors: seq<Task>, spawned: seq<seq<nat>>)
      requires phase == Draining && callingPendingFunctors && pendingFunctors == [] && |spawned| == |functors|
      modifies this`pendingFunctors, this`wakeupReadable, this`queued, this`ran
      ensures ran == old(ran) + functors
      ensures pendingFunctors == AllOwnTasks(spawned) && queued == old(queued) + AllOwnTasks(spawned)
      ensures wakeupReadable == (old(wakeupReadable) || AllOwnTasks(spawned) != [])
    {
      var i := 0;
      while i < |functors|
        invariant i <= |functors|
        invariant ran == old(ran) + functors[..i]
        invariant pendingFunctors == AllOwnTasks(spawned[..i]) && queued == old(queued) + pendingFunctors
        invariant wakeupReadable == (old(wakeupReadable) || pendingFunctors != [])
      {
        ran := ran + [functors[i]];
        assert functors[..i + 1] == functors[..i] + [functors[i]];
        assert spawned[..i + 1] == spawned[..i] + [spawned[i]];
        ConcatSnoc(spawned[..i], spawned[i]);
        OwnTasksAppend(Concat(spawned[..i]), spawned[i]);
        Assoc(old(queued), pendingFunctors, OwnTasks(spawned[i]));
        CallFunctor(spawned[i]);
        i := i + 1;
      }
      assert spawned[..i] == spawned && functors[..i] == functors;
    }

    /** One functor, as far as the queue can see it: it queues these ids. */
    method CallFunctor(ids: seq<nat>)
      requires phase == Draining && callingPendingFunctors
      modifies this`pendingFunctors, this`wakeupReadable, this`queued
      ensures pendingFunctors == old(pendingFunctors) + OwnTasks(ids) && queued == old(queued) + OwnTasks(ids)
      ensures wakeupReadable == (old(wakeupReadable) || ids != [])
    {
      var i := 0;
      while i < |ids|
        invariant i <= |ids|
        invariant pendingFunctors == old(pendingFunctors) + OwnTasks(ids[..i])
        invariant queued == old(queued) + OwnTasks(ids[..i])
        invariant wakeupReadable == (old(wakeupReadable) || i > 0)
      {
        QueueInLoop(ids[i], true);
        assert OwnTasks(ids[..i + 1]) == OwnTasks(ids[..i]) + [Task(ids[i], OwnInside)];
        i := i + 1;
      }
      assert ids[..i] == ids;
    }
  }
}
