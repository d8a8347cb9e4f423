/** muduo/net/Connector.cpp: one outgoing connection attempt at a time, retried with growing delays. */
module Connectors {
  import opened Prelude
  import Pollers

  datatype State = Disconnected | Connecting | Connected

  datatype Errno =
    | Success | EInProgress | EIntr | EIsConn
    | EAgain | EAddrInUse | EAddrNotAvail | EConnRefused | ENetUnreach
    | Unexpected

  datatype Outcome = Pending | Retryable | Fatal

  /** The switch of connect(). */
  function OutcomeOf(e: Errno): Outcome {
    match e
    case Success | EInProgress | EIntr | EIsConn => Pending
    case EAgain | EAddrInUse | EAddrNotAvail | EConnRefused | ENetUnreach => Retryable
    case Unexpected => Fatal
  }

  const INIT_RETRY_DELAY_MS: nat := 500
  const MAX_RETRY_DELAY_MS: nat := 30000

  /** A functor the connector has posted to its loop. */
  datatype Job = ResetJob | StartJob

  datatype Phase = Handling | Draining

  /** BadState: a state assertion failed; ChannelHeld: connecting() found a channel; NoChannel: none to remove. */
  datatype Fault = NoFault | BadState | ChannelHeld | NoChannel

  /**
   * Sockets are numbered as they are opened; closed and handed are the histories of close() and of the new-connection
   * callback. registered says whether the poller knows the channel, active whether the last poll reported it. The
   * loop's part: jobs are the pending functors, the first left of them swapped out by the running drain; timers holds
   * the iteration in which each outstanding retry timer was set; delays are the retry delays since the last restart.
   */
  datatype Machine = Machine(
    state: State, wanted: bool, channel: Option<nat>, registered: bool, active: bool, retryDelay: nat,
    phase: Phase, iteration: nat, jobs: seq<Job>, left: nat, timers: seq<nat>,
    delays: seq<nat>, attempts: nat, closed: seq<nat>, handed: seq<nat>, fault: Fault)

  function NewMachine(): Machine {
    Machine(
      Disconnected, false, None, false, false, INIT_RETRY_DELAY_MS, Draining, 0, [], 0, [], [], 0, [], [], NoFault)
  }

  // ----- Handlers -----

  function Retry(m: Machine, socket: nat): Machine {
    var c := m.(closed := m.closed + [socket], state := Disconnected);
    if c.wanted then
      c.(timers := c.timers + [c.iteration], delays := c.delays + [c.retryDelay],
         retryDelay := Min(c.retryDelay * 2, MAX_RETRY_DELAY_MS))
    else c
  }

  function BeginConnecting(m: Machine, socket: nat): Machine {
    if m.channel.Some? then m.(state := Connecting, fault := ChannelHeld)
    else m.(state := Connecting, channel := Some(socket), registered := true)
  }

  /** What the switch of connect() does with the socket. */
  function Dispatch(m: Machine, outcome: Outcome, socket: nat): Machine {
    match outcome
    case Pending => BeginConnecting(m, socket)
    case Retryable => Retry(m, socket)
    case Fatal => m.(closed := m.closed + [socket])
  }

  function Connect(m: Machine, e: Errno): Machine {
    Dispatch(m.(attempts := m.attempts + 1), OutcomeOf(e), m.attempts)
  }

  function StartInLoop(m: Machine, e: Errno): Machine {
    if m.state != Disconnected then m.(fault := BadState)
    else if m.wanted then Connect(m, e)
    else m
  }

  function RemoveAndReset(m: Machine): Machine {
    if m.channel.None? || !m.registered then m.(fault := NoChannel)
    else m.(registered := false, jobs := m.jobs + [ResetJob])
  }

  /** err says whether getSocketError finds an error. */
  function HandleWrite(m: Machine, err: bool): Machine {
    if m.state == Connecting then
      var c := RemoveAndReset(m);
      if c.fault != NoFault || m.channel.None? then c
      else if err then Retry(c, m.channel.value)
      else if c.wanted then c.(state := Connected, handed := c.handed + [m.channel.value])
      else c.(state := Connected, closed := c.closed + [m.channel.value])
    else if m.state != Disconnected then m.(fault := BadState)
    else m
  }

  function HandleError(m: Machine): Machine {
    if m.state != Connecting then m.(fault := BadState)
    else
      var c := RemoveAndReset(m);
      if c.fault != NoFault || m.channel.None? then c else Retry(c, m.channel.value)
  }

  /** Channel::handleEvent for a channel with error and write callbacks only. */
  function HandleEvent(m: Machine, error: bool, output: bool, err: bool): Machine {
    var c := if error then HandleError(m) else m;
    if c.fault == NoFault && output then HandleWrite(c, err) else c
  }

  function ResetChannel(m: Machine): Machine {
    m.(channel := None, registered := false)
  }

  function Start(m: Machine, inLoop: bool, e: Errno): Machine {
    var c := m.(wanted := true);
    if inLoop then StartInLoop(c, e) else c.(jobs := c.jobs + [StartJob])
  }

  function Restarted(m: Machine): Machine {
    m.(state := Disconnected, retryDelay := INIT_RETRY_DELAY_MS, delays := [], wanted := true)
  }

  function Restart(m: Machine, e: Errno): Machine {
    StartInLoop(Restarted(m), e)
  }

  /** The cancel of the retry timer may come too late, for one already expired. */
  function Stop(m: Machine, inTime: bool): Machine {
    m.(wanted := false, timers := if inTime then [] else m.timers)
  }

  function RunJob(m: Machine, e: Errno): Machine
    requires m.jobs != [] && m.left > 0
  {
    var c := m.(jobs := m.jobs[1..], left := m.left - 1);
    if m.jobs[0] == ResetJob then ResetChannel(c) else StartInLoop(c, e)
  }

  // ----- The machine -----

  datatype Event =
    | Poll(reported: bool)
    | Channel(error: bool, output: bool, err: bool)
    | TimerFires(e: Errno)
    | BeginDrain
    | Functor(e: Errno)
    | StartCalled(inLoop: bool, e: Errno)
    | RestartCalled(e: Errno)
    | StopCalled(inTime: bool)

  /** No attempt is under way or due: no retry timer outstanding and no posted start. */
  predicate Calm(m: Machine) {
    m.timers == [] && StartJob !in m.jobs
  }

  /**
   * The loop polls, handles what poll reported, drains the functors posted so far and polls again. A retry timer fires
   * in a later iteration than the one that set it. start() is called only when disconnected, restart() only when no
   * attempt is in progress, both only while calm; stop() at any time.
   */
  predicate Allowed(m: Machine, e: Event) {
    && m.fault == NoFault
    && match e
       case Poll(reported) => m.phase == Draining && m.left == 0 && (reported ==> m.channel.Some? && m.registered)
       case Channel(_, _, _) => m.phase == Handling && m.active
       case TimerFires(_) => m.phase == Handling && m.timers != [] && m.timers[0] < m.iteration
       case BeginDrain => m.phase == Handling && !m.active
       case Functor(_) => m.phase == Draining && m.left > 0 && m.jobs != []
       case StartCalled(_, _) => m.state == Disconnected && Calm(m)
       case RestartCalled(_) => m.state != Connecting && Calm(m)
       case StopCalled(_) => true
  }

  function Step(m: Machine, e: Event): Machine
    requires Allowed(m, e)
  {
    match e
    case Poll(reported) => m.(phase := Handling, iteration := m.iteration + 1, active := reported)
    case Channel(error, output, err) => HandleEvent(m.(active := false), error, output, err)
    case TimerFires(e) => StartInLoop(m.(timers := m.timers[1..]), e)
    case BeginDrain => m.(phase := Draining, left := |m.jobs|)
    case Functor(e) => RunJob(m, e)
    case StartCalled(inLoop, e) => Start(m, inLoop, e)
    case RestartCalled(e) => Restart(m, e)
    case StopCalled(inTime) => Stop(m, inTime)
  }

  predicate AllowedRun(m: Machine, es: seq<Event>)
    decreases es
  {
    es == [] || (Allowed(m, es[0]) && AllowedRun(Step(m, es[0]), es[1..]))
  }

  function Run(m: Machine, es: seq<Event>): Machine
    requires AllowedRun(m, es)
    decreases es
  {
    if es == [] then m else Run(Step(m, es[0]), es[1..])
  }

  // ----- The channel is gone before the next attempt -----

  /** Removed from the poller but not yet reset. */
  predicate Awaiting(m: Machine) {
    m.channel.Some? && !m.registered
  }

  predicate Posted(m: Machine, starting: bool) {
    m.jobs ==
    if Awaiting(m) then (if starting then [ResetJob, StartJob] else [ResetJob])
    else if starting then [StartJob] else []
  }

  predicate Sound(m: Machine) {
    && (m.state == Connecting <==> m.channel.Some? && m.registered)
    && (m.channel.None? ==> !m.registered)
    && (m.active ==> m.state == Connecting && m.phase == Handling)
    && (Posted(m, false) || (Posted(m, true) && m.state == Disconnected && m.timers == []))
    && |m.timers| <= 1
    && (m.timers != [] ==> m.state == Disconnected && m.timers[0] <= m.iteration)
    && (m.timers != [] && Awaiting(m) ==> m.timers[0] == m.iteration)
    && m.left <= |m.jobs|
    && (Awaiting(m) && m.phase == Draining ==> m.left > 0)
  }

  /** The errnos after which connect() goes on to wait for the socket to become writable. */
  predicate UnderWay(e: Errno) {
    e == Success || e == EInProgress || e == EIntr || e == EIsConn
  }

  /** Those after which it tries again later. */
  predicate TriedAgain(e: Errno) {
    e == EAgain || e == EAddrInUse || e == EAddrNotAvail || e == EConnRefused || e == ENetUnreach
  }

  /** An attempt made in the loop thread before the old channel's reset has run goes as far as connecting(). */
  predicate Collides(m: Machine, e: Event)
    requires Allowed(m, e)
  {
    && Awaiting(m)
    && ((e.StartCalled? && e.inLoop) || e.RestartCalled?)
    && UnderWay(e.e)
  }

  /** startInLoop from a calm, disconnected state whose channel is gone. */
  lemma StartSound(m: Machine, e: Errno)
    requires Sound(m) && m.fault == NoFault && m.state == Disconnected && m.timers == [] && Posted(m, false)
    ensures var c := StartInLoop(m, e);
            if Awaiting(m) && m.wanted && UnderWay(e) then c.fault == ChannelHeld
            else Sound(c) && c.fault == NoFault
  {
  }

  lemma HandleSound(m: Machine, error: bool, output: bool, err: bool)
    requires Sound(m) && m.fault == NoFault && m.state == Connecting && m.phase == Handling && !m.active
    ensures var c := HandleEvent(m, error, output, err); Sound(c) && c.fault == NoFault
  {
    assert [] + [ResetJob] == [ResetJob];
  }

  lemma FunctorSound(m: Machine, e: Errno)
    requires Sound(m) && Allowed(m, Functor(e))
    ensures var c := RunJob(m, e); Sound(c) && c.fault == NoFault
  {
    if m.jobs[0] == StartJob {
      StartSound(m.(jobs := m.jobs[1..], left := m.left - 1), e);
    }
  }

  lemma StepSound(m: Machine, e: Event)
    requires Sound(m) && Allowed(m, e)
    ensures Step(m, e).fault == if Collides(m, e) then ChannelHeld else NoFault
    ensures !Collides(m, e) ==> Sound(Step(m, e))
  {
    hide StartInLoop, HandleEvent, RunJob;
    match e
    case Poll(_) =>
    case Channel(error, output, err) => HandleSound(m.(active := false), error, output, err);
    case TimerFires(e) => StartSound(m.(timers := m.timers[1..]), e);
    case BeginDrain =>
    case Functor(e) => FunctorSound(m, e);
    case StartCalled(inLoop, e) => if inLoop { StartSound(m.(wanted := true), e); }
    case RestartCalled(e) => StartSound(Restarted(m), e);
    case StopCalled(_) =>
  }

  // ----- Every socket has one fate -----

  function Times(s: seq<nat>, k: nat): nat {
    if s == [] then 0 else (if s[0] == k then 1 else 0) + Times(s[1..], k)
  }

  lemma {:induction false} TimesSnoc(s: seq<nat>, x: nat, k: nat)
    ensures Times(s + [x], k) == Times(s, k) + (if x == k then 1 else 0)
  {
    if s == [] {
      assert s + [x] == [x];
    } else {
      TimesSnoc(s[1..], x, k);
      assert (s + [x])[1..] == s[1..] + [x];
    }
  }

  predicate Holds(m: Machine, k: nat) {
    m.channel == Some(k) && m.registered
  }

  /** How often socket k is held by the current channel, closed or handed over. */
  function Fates(m: Machine, k: nat): nat {
    (if Holds(m, k) then 1 else 0) + Times(m.closed, k) + Times(m.handed, k)
  }

  lemma RetryFates(m: Machine, socket: nat, k: nat)
    ensures Fates(Retry(m, socket), k) == Fates(m, k) + (if k == socket then 1 else 0)
  {
    TimesSnoc(m.closed, socket, k);
  }

  lemma BeginFates(m: Machine, socket: nat, k: nat)
    requires m.channel.None?
    ensures Fates(BeginConnecting(m, socket), k) == Fates(m, k) + (if k == socket then 1 else 0)
  {
  }

  lemma CloseFates(m: Machine, socket: nat, k: nat)
    ensures Fates(m.(closed := m.closed + [socket]), k) == Fates(m, k) + (if k == socket then 1 else 0)
  {
    TimesSnoc(m.closed, socket, k);
  }

  lemma DispatchFates(m: Machine, outcome: Outcome, socket: nat, k: nat)
    requires m.fault == NoFault && Dispatch(m, outcome, socket).fault == NoFault
    ensures var c := Dispatch(m, outcome, socket);
            c.attempts == m.attempts && Fates(c, k) == Fates(m, k) + (if k == socket then 1 else 0)
  {
    RetryAttempts(m, socket);
    hide Retry, Fates;
    if outcome == Pending {
      BeginFates(m, socket, k);
    } else if outcome == Retryable {
      RetryFates(m, socket, k);
    } else {
      CloseFates(m, socket, k);
    }
  }

  lemma ConnectFates(m: Machine, e: Errno, k: nat)
    requires m.fault == NoFault && Connect(m, e).fault == NoFault
    ensures var c := Connect(m, e);
            c.attempts == m.attempts + 1 && Fates(c, k) == Fates(m, k) + (if k == m.attempts then 1 else 0)
  {
    hide Dispatch, OutcomeOf;
    DispatchFates(m.(attempts := m.attempts + 1), OutcomeOf(e), m.attempts, k);
  }

  lemma StartFates(m: Machine, e: Errno, k: nat)
    requires m.fault == NoFault && StartInLoop(m, e).fault == NoFault
    ensures var c := StartInLoop(m, e);
            Fates(c, k) == Fates(m, k) + (if k == m.attempts && c.attempts > m.attempts then 1 else 0)
  {
    if m.state == Disconnected && m.wanted {
      ConnectFates(m, e, k);
      hide Connect, Fates;
    }
  }

  lemma RetryAttempts(m: Machine, socket: nat)
    ensures Retry(m, socket).attempts == m.attempts
  {
  }

  lemma HandleFates(m: Machine, error: bool, output: bool, err: bool, k: nat)
    requires Sound(m) && m.fault == NoFault && m.state == Connecting && m.phase == Handling && !m.active
    ensures var c := HandleEvent(m, error, output, err); c.attempts == m.attempts && Fates(c, k) == Fates(m, k)
  {
    var socket, c := m.channel.value, RemoveAndReset(m);
    assert Fates(c, k) == Fates(m, k) - (if k == socket then 1 else 0);
    RetryFates(c, socket, k);
    TimesSnoc(c.closed, socket, k);
    TimesSnoc(c.handed, socket, k);
  }

  lemma FunctorFates(m: Machine, e: Errno, k: nat)
    requires Sound(m) && Allowed(m, Functor(e))
    ensures var c := RunJob(m, e);
            Fates(c, k) == Fates(m, k) + (if k == m.attempts && c.attempts > m.attempts then 1 else 0)
  {
    FunctorSound(m, e);
    if m.jobs[0] == StartJob {
      StartFates(m.(jobs := m.jobs[1..], left := m.left - 1), e, k);
    }
  }

  lemma OneMoreAttempt(m: Machine, e: Errno)
    ensures m.attempts <= StartInLoop(m, e).attempts <= m.attempts + 1
  {
  }

  lemma StepFates(m: Machine, e: Event, k: nat)
    requires Sound(m) && Allowed(m, e) && Step(m, e).fault == NoFault
    ensures var c := Step(m, e);
            && m.attempts <= c.attempts <= m.attempts + 1
            && Fates(c, k) == Fates(m, k) + (if k == m.attempts && c.attempts > m.attempts then 1 else 0)
  {
    match e
    case Channel(error, output, err) => HandleFates(m.(active := false), error, output, err, k);
    case TimerFires(e) =>
      StartFates(m.(timers := m.timers[1..]), e, k);
      OneMoreAttempt(m.(timers := m.timers[1..]), e);
    case Functor(e) =>
      FunctorFates(m, e, k);
      OneMoreAttempt(m.(jobs := m.jobs[1..], left := m.left - 1), e);
    case StartCalled(inLoop, e) =>
      if inLoop {
        StartFates(m.(wanted := true), e, k);
        OneMoreAttempt(m.(wanted := true), e);
      }
    case RestartCalled(e) =>
      StartFates(Restarted(m), e, k);
      OneMoreAttempt(Restarted(m), e);
    case _ =>
  }

  // ----- The delays -----

  function Pow2(k: nat): nat {
    if k == 0 then 1 else 2 * Pow2(k - 1)
  }

  function Backoff(k: nat): nat {
    Min(INIT_RETRY_DELAY_MS * Pow2(k), MAX_RETRY_DELAY_MS)
  }

  predicate Doubling(delay: nat, delays: seq<nat>) {
    && delay == Backoff(|delays|)
    && forall k :: 0 <= k < |delays| ==> delays[k] == Backoff(k)
  }

  /** Since the last restart, the k-th retry waited 500 ms doubled k times, capped at 30 s; so will the next. */
  predicate Spaced(m: Machine) {
    Doubling(m.retryDelay, m.delays)
  }

  lemma NextDelay(delay: nat, delays: seq<nat>)
    requires Doubling(delay, delays)
    ensures Doubling(Min(delay * 2, MAX_RETRY_DELAY_MS), delays + [delay])
  {
    assert Pow2(|delays| + 1) == 2 * Pow2(|delays|);
  }

  lemma RetrySpaced(m: Machine, socket: nat)
    requires Spaced(m)
    ensures Spaced(Retry(m, socket))
  {
    NextDelay(m.retryDelay, m.delays);
  }

  lemma StartSpaced(m: Machine, e: Errno)
    requires Spaced(m)
    ensures Spaced(StartInLoop(m, e))
  {
    RetrySpaced(m.(attempts := m.attempts + 1), m.attempts);
  }

  lemma WriteSpaced(m: Machine, err: bool)
    requires Spaced(m)
    ensures Spaced(HandleWrite(m, err))
  {
    if m.channel.Some? {
      RetrySpaced(RemoveAndReset(m), m.channel.value);
    }
    hide Doubling, Retry;
  }

  lemma ErrorSpaced(m: Machine)
    requires Spaced(m)
    ensures Spaced(HandleError(m))
  {
    if m.channel.Some? {
      RetrySpaced(RemoveAndReset(m), m.channel.value);
    }
    hide Doubling, Retry;
  }

  lemma HandleSpaced(m: Machine, error: bool, output: bool, err: bool)
    requires Spaced(m)
    ensures Spaced(HandleEvent(m, error, output, err))
  {
    hide Spaced, HandleError, HandleWrite;
    ErrorSpaced(m);
    WriteSpaced(if error then HandleError(m) else m, err);
  }

  lemma StepSpaced(m: Machine, e: Event)
    requires Spaced(m) && Allowed(m, e)
    ensures Spaced(Step(m, e))
  {
    hide HandleEvent;
    match e
    case Channel(error, output, err) => HandleSpaced(m.(active := false), error, output, err);
    case TimerFires(e) => StartSpaced(m.(timers := m.timers[1..]), e);
    case Functor(e) => StartSpaced(m.(jobs := m.jobs[1..], left := m.left - 1), e);
    case StartCalled(_, e) => StartSpaced(m.(wanted := true), e);
    case RestartCalled(e) => StartSpaced(Restarted(m), e);
    case _ =>
  }

  // ----- Whole runs -----

  predicate CollidesIn(m: Machine, es: seq<Event>)
    requires AllowedRun(m, es)
    decreases es
  {
    es != [] && (Collides(m, es[0]) || CollidesIn(Step(m, es[0]), es[1..]))
  }

  /** An assertion fails in exactly the runs with an attempt in the loop thread before the old channel was reset. */
  lemma {:induction false} RunFault(m: Machine, es: seq<Event>)
    requires Sound(m) && m.fault == NoFault && AllowedRun(m, es)
    ensures Run(m, es).fault == if CollidesIn(m, es) then ChannelHeld else NoFault
    ensures !CollidesIn(m, es) ==> Sound(Run(m, es))
    decreases es
  {
    if es == [] {
    } else {
      StepSound(m, es[0]);
      if !Collides(m, es[0]) {
        RunFault(Step(m, es[0]), es[1..]);
      }
    }
  }

  lemma {:induction false} RunFates(m: Machine, es: seq<Event>, k: nat)
    requires Sound(m) && AllowedRun(m, es) && !CollidesIn(m, es)
    requires Fates(m, k) == if k < m.attempts then 1 else 0
    ensures var c := Run(m, es); Fates(c, k) == if k < c.attempts then 1 else 0
    decreases es
  {
    if es == [] {
    } else {
      StepSound(m, es[0]);
      StepFates(m, es[0], k);
      RunFates(Step(m, es[0]), es[1..], k);
    }
  }

  lemma {:induction false} RunSpaced(m: Machine, es: seq<Event>)
    requires Spaced(m) && AllowedRun(m, es)
    ensures Spaced(Run(m, es))
    decreases es
  {
    if es == [] {
    } else {
      StepSpaced(m, es[0]);
      RunSpaced(Step(m, es[0]), es[1..]);
    }
  }

  /**
   * Over every run that does not collide: no assertion fails, connecting() always found channel_ null, and each socket
   * opened is held by the current channel, was closed once, or was handed over once, exactly one of the three.
   */
  lemma SocketConservation(es: seq<Event>, k: nat)
    requires AllowedRun(NewMachine(), es) && !CollidesIn(NewMachine(), es)
    ensures var m := Run(NewMachine(), es);
            && m.fault == NoFault
            && (m.state == Connecting <==> m.channel.Some? && m.registered)
            && (if Holds(m, k) then 1 else 0) + Times(m.closed, k) + Times(m.handed, k) ==
               (if k < m.attempts then 1 else 0)
  {
    RunFault(NewMachine(), es);
    RunFates(NewMachine(), es, k);
  }

  lemma RetryDelays(es: seq<Event>, k: nat)
    requires AllowedRun(NewMachine(), es)
    ensures var m := Run(NewMachine(), es);
            k < |m.delays| ==> m.delays[k] == Min(500 * Pow2(k), 30000)
  {
    RunSpaced(NewMachine(), es);
  }

  // ----- What stop and start promise -----

  predicate NoStarts(es: seq<Event>) {
    forall i :: 0 <= i < |es| ==> !es[i].StartCalled? && !es[i].RestartCalled?
  }

  /** Nothing opened, nothing handed over, no retry set. */
  predicate Quiet(m: Machine, r: Machine) {
    !r.wanted && r.attempts == m.attempts && r.handed == m.handed && r.delays == m.delays
  }

  lemma StepQuiet(m: Machine, e: Event)
    requires Allowed(m, e) && !m.wanted && !e.StartCalled? && !e.RestartCalled?
    ensures Quiet(m, Step(m, e))
  {
  }

  /** After stop(), until the next start, no socket is opened or handed over and no retry is set, in any run. */
  lemma {:induction false} StoppedStaysQuiet(m: Machine, es: seq<Event>)
    requires AllowedRun(m, es) && !m.wanted && NoStarts(es)
    ensures Quiet(m, Run(m, es))
    decreases es
  {
    if es == [] {
    } else {
      assert !es[0].StartCalled? && !es[0].RestartCalled?;
      StepQuiet(m, es[0]);
      assert NoStarts(es[1..]);
      StoppedStaysQuiet(Step(m, es[0]), es[1..]);
    }
  }

  /** Neither connected nor connecting, and no attempt posted or timed. */
  predicate Idle(m: Machine) {
    m.state == Disconnected && m.timers == [] && StartJob !in m.jobs
  }

  predicate Trying(m: Machine) {
    m.wanted ==> !Idle(m)
  }

  /** What connect(2) reports in this step, if the step calls it. */
  function AttemptIn(m: Machine, e: Event): Option<Errno>
    requires Allowed(m, e)
  {
    match e
    case TimerFires(errno) => if m.wanted then Some(errno) else None
    case Functor(errno) => if m.wanted && m.jobs[0] == StartJob then Some(errno) else None
    case StartCalled(inLoop, errno) => if inLoop then Some(errno) else None
    case RestartCalled(errno) => Some(errno)
    case _ => None
  }

  /** connect() is called and fails with an errno it does not expect. */
  predicate Abandons(m: Machine, e: Event)
    requires Allowed(m, e)
  {
    AttemptIn(m, e) == Some(Unexpected)
  }

  /** startInLoop with nothing else under way: a wanted connector stays idle exactly after an unexpected errno. */
  lemma StartTrying(m: Machine, e: Errno)
    requires Idle(m)
    ensures Trying(StartInLoop(m, e)) <==> !(m.wanted && e == Unexpected)
  {
  }

  lemma HandleTrying(m: Machine, error: bool, output: bool, err: bool)
    requires Sound(m) && m.fault == NoFault && m.state == Connecting && m.phase == Handling && !m.active
    ensures Trying(HandleEvent(m, error, output, err))
  {
  }

  lemma FunctorTrying(m: Machine, e: Errno)
    requires Sound(m) && Allowed(m, Functor(e)) && Trying(m)
    ensures Trying(RunJob(m, e)) <==> !Abandons(m, Functor(e))
  {
    var c := m.(jobs := m.jobs[1..], left := m.left - 1);
    if m.jobs[0] == StartJob {
      StartTrying(c, e);
    } else {
      assert StartJob in m.jobs ==> StartJob in c.jobs;
    }
  }

  lemma StepTrying(m: Machine, e: Event)
    requires Sound(m) && Allowed(m, e) && Trying(m)
    ensures Trying(Step(m, e)) <==> !Abandons(m, e)
  {
    match e
    case Channel(error, output, err) => HandleTrying(m.(active := false), error, output, err);
    case TimerFires(errno) => StartTrying(m.(timers := m.timers[1..]), errno);
    case Functor(errno) => FunctorTrying(m, errno);
    case StartCalled(inLoop, errno) => if inLoop { StartTrying(m.(wanted := true), errno); }
    case RestartCalled(errno) => StartTrying(Restarted(m), errno);
    case _ =>
  }

  /** At every moment of the run. */
  predicate AlwaysTrying(m: Machine, es: seq<Event>)
    requires AllowedRun(m, es)
    decreases es
  {
    Trying(m) && (es == [] || AlwaysTrying(Step(m, es[0]), es[1..]))
  }

  predicate AbandonsIn(m: Machine, es: seq<Event>)
    requires AllowedRun(m, es)
    decreases es
  {
    es != [] && (Abandons(m, es[0]) || AbandonsIn(Step(m, es[0]), es[1..]))
  }

  /** A run is over once an assertion has failed. */
  lemma RunAfterFault(m: Machine, es: seq<Event>)
    requires AllowedRun(m, es) && m.fault != NoFault
    ensures es == []
  {
  }

  lemma {:induction false} TryingFrom(m: Machine, es: seq<Event>)
    requires Sound(m) && AllowedRun(m, es) && Trying(m)
    ensures AlwaysTrying(m, es) <==> !AbandonsIn(m, es)
    decreases es
  {
    if es == [] {
    } else {
      StepSound(m, es[0]);
      StepTrying(m, es[0]);
      if Collides(m, es[0]) {
        RunAfterFault(Step(m, es[0]), es[1..]);
      } else if Trying(Step(m, es[0])) {
        TryingFrom(Step(m, es[0]), es[1..]);
      }
    }
  }

  /** In every run, a wanted connector always has its next attempt on the way if and only if no errno is unexpected. */
  lemma KeepsTrying(es: seq<Event>)
    requires AllowedRun(NewMachine(), es)
    ensures AlwaysTrying(NewMachine(), es) <==> !AbandonsIn(NewMachine(), es)
  {
    TryingFrom(NewMachine(), es);
  }

  /** One unexpected errno is enough, without any assertion failing. */
  lemma UnexpectedErrnoStrands()
    ensures AllowedRun(NewMachine(), [StartCalled(true, Unexpected)])
    ensures var m := Run(NewMachine(), [StartCalled(true, Unexpected)]); m.fault == NoFault && m.wanted && Idle(m)
  {
    RunCons(NewMachine(), StartCalled(true, Unexpected), []);
    assert [StartCalled(true, Unexpected)] + [] == [StartCalled(true, Unexpected)];
  }

  lemma StepIdle(m: Machine, e: Event)
    requires Sound(m) && Allowed(m, e) && Idle(m) && !e.StartCalled? && !e.RestartCalled?
    ensures Idle(Step(m, e)) && Step(m, e).attempts == m.attempts
  {
  }

  /** An idle connector opens no socket until start() or restart() is called. */
  lemma {:induction false} IdleStays(m: Machine, es: seq<Event>)
    requires Sound(m) && AllowedRun(m, es) && Idle(m) && NoStarts(es)
    ensures Idle(Run(m, es)) && Run(m, es).attempts == m.attempts
    decreases es
  {
    if es == [] {
    } else {
      assert !es[0].StartCalled? && !es[0].RestartCalled?;
      StepSound(m, es[0]);
      StepIdle(m, es[0]);
      assert NoStarts(es[1..]);
      IdleStays(Step(m, es[0]), es[1..]);
    }
  }

  // ----- What each attempt and each channel event comes to -----

  /**
   * One attempt of a calm connector: one new socket; it becomes the channel's, or it is closed, by errno; and exactly
   * for the five errnos that are tried again one timer is set in this iteration, for the current delay, which doubles.
   */
  predicate AttemptMade(m: Machine, r: Machine, e: Errno) {
    && r.attempts == m.attempts + 1 && r.handed == m.handed
    && r.closed == (if UnderWay(e) then m.closed else m.closed + [m.attempts])
    && r.timers == (if TriedAgain(e) then [m.iteration] else [])
    && r.delays == (if TriedAgain(e) then m.delays + [m.retryDelay] else m.delays)
    && r.retryDelay == (if TriedAgain(e) then Min(2 * m.retryDelay, 30000) else m.retryDelay)
    && r.state == (if UnderWay(e) then Connecting else Disconnected)
    && (UnderWay(e) && m.channel.None? ==> r.channel == Some(m.attempts) && r.registered)
    && (!UnderWay(e) ==> r.channel == m.channel && r.registered == m.registered)
  }

  lemma StartMakesAttempt(m: Machine, e: Errno)
    requires m.state == Disconnected && m.timers == [] && m.wanted
    ensures AttemptMade(m, StartInLoop(m, e), e)
  {
    assert [] + [m.iteration] == [m.iteration];
  }

  /** The machine just before startInLoop: the timer gone, the functor popped, the flag set, the delay reset. */
  function BeforeAttempt(m: Machine, e: Event): Machine
    requires Allowed(m, e)
  {
    if e.RestartCalled? then m.(retryDelay := 500, delays := []) else m
  }

  /** A step calls connect() exactly when AttemptIn says so, and then makes exactly that attempt. */
  lemma AttemptsExactly(m: Machine, e: Event)
    requires Sound(m) && Allowed(m, e)
    ensures AttemptIn(m, e).None? ==> Step(m, e).attempts == m.attempts
    ensures AttemptIn(m, e).Some? ==> AttemptMade(BeforeAttempt(m, e), Step(m, e), AttemptIn(m, e).value)
  {
    if AttemptIn(m, e).None? {
      NoAttempt(m, e);
    } else {
      AttemptPrepared(m, e);
      StartMakesAttempt(AtAttempt(m, e), AttemptIn(m, e).value);
    }
    hide Step, StartInLoop, AtAttempt, BeforeAttempt, AttemptIn, Sound, Allowed;
  }

  lemma NoAttempt(m: Machine, e: Event)
    requires Allowed(m, e) && AttemptIn(m, e).None?
    ensures Step(m, e).attempts == m.attempts
  {
    if e.Channel? {
      ChannelAttempts(m.(active := false), e.error, e.output, e.err);
    }
    hide Connect, HandleEvent;
  }

  lemma ChannelAttempts(m: Machine, error: bool, output: bool, err: bool)
    ensures HandleEvent(m, error, output, err).attempts == m.attempts
  {
  }

  /** The machine as startInLoop finds it. */
  function AtAttempt(m: Machine, e: Event): Machine
    requires Allowed(m, e)
  {
    match e
    case TimerFires(_) => m.(timers := m.timers[1..])
    case Functor(_) => m.(jobs := m.jobs[1..], left := m.left - 1)
    case StartCalled(_, _) => m.(wanted := true)
    case RestartCalled(_) => Restarted(m)
    case _ => m
  }

  lemma AttemptPrepared(m: Machine, e: Event)
    requires Sound(m) && Allowed(m, e) && AttemptIn(m, e).Some?
    ensures var c := AtAttempt(m, e);
            && c.state == Disconnected && c.timers == [] && c.wanted
            && Step(m, e) == StartInLoop(c, AttemptIn(m, e).value)
            && c.attempts == m.attempts && c.handed == m.handed && c.closed == m.closed && c.iteration == m.iteration
            && c.channel == m.channel && c.registered == m.registered
            && c.delays == BeforeAttempt(m, e).delays && c.retryDelay == BeforeAttempt(m, e).retryDelay
  {
    hide StartInLoop;
  }

  /**
   * An event on the channel: an error, or a writable event with a pending error, closes the socket and, while wanted,
   * sets one timer for the current delay; a writable event without ends the attempt; in both cases the channel leaves
   * the poller and its reset is queued; anything else changes nothing.
   */
  lemma ChannelExactly(m: Machine, error: bool, output: bool, err: bool)
    requires Sound(m) && Allowed(m, Channel(error, output, err))
    ensures var r, socket := Step(m, Channel(error, output, err)), m.channel.value;
            if error || (output && err) then
              && r.state == Disconnected && r.closed == m.closed + [socket] && r.handed == m.handed
              && r.timers == (if m.wanted then [m.iteration] else [])
              && r.delays == (if m.wanted then m.delays + [m.retryDelay] else m.delays)
              && r.retryDelay == (if m.wanted then Min(2 * m.retryDelay, 30000) else m.retryDelay)
              && !r.registered && r.jobs == m.jobs + [ResetJob]
            else if output then
              && r.state == Connected && r.timers == m.timers && r.delays == m.delays
              && r.handed == (if m.wanted then m.handed + [socket] else m.handed)
              && r.closed == (if m.wanted then m.closed else m.closed + [socket])
              && !r.registered && r.jobs == m.jobs + [ResetJob]
            else r == m.(active := false)
  {
    assert [] + [m.iteration] == [m.iteration];
  }

  predicate StopHeld(m: Machine) {
    !m.wanted && m.timers == []
  }

  lemma StepStopHeld(m: Machine, e: Event)
    requires Allowed(m, e) && StopHeld(m) && !e.StartCalled? && !e.RestartCalled?
    ensures StopHeld(Step(m, e)) && !e.TimerFires?
  {
  }

  lemma {:induction false} RunStopHeld(m: Machine, es: seq<Event>)
    requires AllowedRun(m, es) && StopHeld(m) && NoStarts(es)
    ensures StopHeld(Run(m, es)) && forall i :: 0 <= i < |es| ==> !es[i].TimerFires?
    decreases es
  {
    if es == [] {
    } else {
      assert !es[0].StartCalled? && !es[0].RestartCalled?;
      StepStopHeld(m, es[0]);
      assert NoStarts(es[1..]);
      RunStopHeld(Step(m, es[0]), es[1..]);
      assert forall i :: 0 < i < |es| ==> es[i] == es[1..][i - 1];
    }
  }

  /** From any state, stop() holds until the next start: nothing opened, handed over or set; in time, no timer fires. */
  lemma StopStops(m: Machine, inTime: bool, es: seq<Event>)
    requires Allowed(m, StopCalled(inTime)) && AllowedRun(Step(m, StopCalled(inTime)), es) && NoStarts(es)
    ensures var r := Run(Step(m, StopCalled(inTime)), es);
            && !r.wanted && r.attempts == m.attempts && r.handed == m.handed && r.delays == m.delays
    ensures inTime ==> forall i :: 0 <= i < |es| ==> !es[i].TimerFires?
  {
    StoppedStaysQuiet(Step(m, StopCalled(inTime)), es);
    if inTime {
      RunStopHeld(Step(m, StopCalled(inTime)), es);
    }
  }

  /** A step hands over a socket exactly when a wanted connector's channel is writable without any error. */
  lemma HandsOverExactly(m: Machine, e: Event)
    requires Sound(m) && Allowed(m, e)
    ensures Step(m, e).handed ==
            if e.Channel? && !e.error && e.output && !e.err && m.wanted then m.handed + [m.channel.value] else m.handed
  {
  }

  /** Starting only while channel_ is null is enough. */
  predicate StartsClear(m: Machine, es: seq<Event>)
    requires AllowedRun(m, es)
    decreases es
  {
    es == [] ||
    (((es[0].StartCalled? || es[0].RestartCalled?) ==> m.channel.None?) && StartsClear(Step(m, es[0]), es[1..]))
  }

  lemma {:induction false} ClearNeverCollides(m: Machine, es: seq<Event>)
    requires AllowedRun(m, es) && StartsClear(m, es)
    ensures !CollidesIn(m, es)
    decreases es
  {
    if es == [] {
    } else {
      ClearNeverCollides(Step(m, es[0]), es[1..]);
    }
  }

  lemma RunCons(m: Machine, e: Event, es: seq<Event>)
    requires Allowed(m, e) && AllowedRun(Step(m, e), es)
    ensures AllowedRun(m, [e] + es) && Run(m, [e] + es) == Run(Step(m, e), es)
  {
    assert ([e] + es)[1..] == es;
  }

  /** stop() while connecting, a failed connection, start() again in one iteration: the old channel is still there. */
  lemma StartBeforeResetCollides() returns (es: seq<Event>)
    ensures AllowedRun(NewMachine(), es) && Run(NewMachine(), es).fault == ChannelHeld
  {
    var begin, hit, failed := StartCalled(true, EInProgress), Poll(true), Channel(false, true, true);
    var m1 := Step(NewMachine(), begin);
    var m2 := Step(m1, hit);
    var m3 := Step(m2, StopCalled(true));
    var m4 := Step(m3, failed);
    assert m4.jobs == [ResetJob] && m4.timers == [] && m4.state == Disconnected;
    RunCons(m4, begin, []);
    es := [begin] + [];
    RunCons(m3, failed, es);
    es := [failed] + es;
    RunCons(m2, StopCalled(true), es);
    es := [StopCalled(true)] + es;
    RunCons(m1, hit, es);
    es := [hit] + es;
    RunCons(NewMachine(), begin, es);
    es := [begin] + es;
  }

  // ----- What the loop's poller sees -----

  /** A stand-in for the mask of a writable event. */
  const WRITE_BIT := 1

  /** The current channel's slot, its descriptor named by its socket. */
  function WatchesOf(m: Machine): Pollers.Watches {
    if m.channel.Some? && m.registered then map[m.channel.value := Pollers.Watch(false, WRITE_BIT)] else map[]
  }

  /** connecting(): a new channel enables writing. */
  lemma StartCalls(m: Machine, e: Errno) returns (ops: seq<Pollers.Op>)
    requires m.channel.Some? ==> !m.registered
    ensures Pollers.Calls(WatchesOf(m), ops, WatchesOf(StartInLoop(m, e)))
  {
    Pollers.NoCalls(WatchesOf(m));
    ops := [];
    if WatchesOf(StartInLoop(m, e)) != map[] {
      ops := [Pollers.Update(m.attempts, WRITE_BIT)];
      assert ops[1..] == [];
      assert Pollers.Apply(map[], ops[0]) == map[m.attempts := Pollers.Watch(false, WRITE_BIT)];
    }
  }

  /** removeAndResetChannel: disableAll, then removeChannel. */
  lemma HandleCalls(m: Machine, error: bool, output: bool, err: bool) returns (ops: seq<Pollers.Op>)
    requires Sound(m) && m.fault == NoFault && m.state == Connecting && m.phase == Handling && !m.active
    ensures Pollers.Calls(WatchesOf(m), ops, WatchesOf(HandleEvent(m, error, output, err)))
  {
    if error || output {
      var socket := m.channel.value;
      Pollers.DisabledThenRemoved(WatchesOf(m), socket);
      assert WatchesOf(m) - {socket} == map[];
      assert !HandleEvent(m, error, output, err).registered;
      ops := [Pollers.Update(socket, Pollers.NONE_EVENT), Pollers.Remove(socket)];
    } else {
      Pollers.NoCalls(WatchesOf(m));
      ops := [];
    }
  }

  /** Every step uses the poller only as the assertions of updateChannel and removeChannel allow. */
  lemma StepCalls(m: Machine, e: Event) returns (ops: seq<Pollers.Op>)
    requires Sound(m) && Allowed(m, e)
    ensures Pollers.Calls(WatchesOf(m), ops, WatchesOf(Step(m, e)))
  {
    Pollers.NoCalls(WatchesOf(m));
    ops := [];
    match e
    case Channel(error, output, err) => ops := HandleCalls(m.(active := false), error, output, err);
    case TimerFires(errno) => ops := StartCalls(m.(timers := m.timers[1..]), errno);
    case Functor(errno) =>
      if m.jobs[0] == StartJob {
        ops := StartCalls(m.(jobs := m.jobs[1..], left := m.left - 1), errno);
      }
    case StartCalled(inLoop, errno) => if inLoop { ops := StartCalls(m.(wanted := true), errno); }
    case RestartCalled(errno) => ops := StartCalls(Restarted(m), errno);
    case _ =>
  }

  /** So it does over any run without a collision. */
  lemma {:induction false} RunCalls(m: Machine, es: seq<Event>) returns (ops: seq<Pollers.Op>)
    requires Sound(m) && AllowedRun(m, es) && !CollidesIn(m, es)
    ensures Pollers.Calls(WatchesOf(m), ops, WatchesOf(Run(m, es)))
    decreases es
  {
    if es == [] {
      Pollers.NoCalls(WatchesOf(m));
      ops := [];
    } else {
      var k := Step(m, es[0]);
      StepSound(m, es[0]);
      ops := StepCalls(m, es[0]);
      var more := RunCalls(k, es[1..]);
      Pollers.CallsAppend(WatchesOf(m), ops, WatchesOf(k), more, WatchesOf(Run(m, es)));
      ops := ops + more;
    }
  }

  // ----- The class -----

  class Connector {
    var state: State
    var connectFlag: bool
    var channel: Option<nat>
    var retryDelayMs: nat
    var registered: bool
    var active: bool
    var phase: Phase
    var iteration: nat
    var jobs: seq<Job>
    var left: nat
    var timers: seq<nat>
    var attempts: nat
    ghost var delays: seq<nat>
    ghost var closed: seq<nat>
    ghost var handed: seq<nat>
    var fault: Fault

    ghost function View(): Machine
      reads this
    {
      Machine(state, connectFlag, channel, registered, active, retryDelayMs, phase, iteration, jobs, left, timers,
              delays, attempts, closed, handed, fault)
    }

    constructor ()
      ensures View() == NewMachine()
    {
      state, connectFlag, channel, retryDelayMs := Disconnected, false, None, INIT_RETRY_DELAY_MS;
      registered, active, phase, iteration, jobs, left, timers := false, false, Draining, 0, [], 0, [];
      delays, attempts, closed, handed, fault := [], 0, [], [], NoFault;
    }

    method DoRetry(socket: nat)
      modifies this`state, this`retryDelayMs, this`timers, this`delays, this`closed
      ensures View() == Retry(old(View()), socket)
    {
      closed := closed + [socket];
      state := Disconnected;
      if connectFlag {
        timers := timers + [iteration];
        delays := delays + [retryDelayMs];
        retryDelayMs := Min(retryDelayMs * 2, MAX_RETRY_DELAY_MS);
      }
    }

    method DoConnecting(socket: nat)
      modifies this`state, this`channel, this`registered, this`fault
      ensures View() == BeginConnecting(old(View()), socket)
    {
      state := Connecting;
      if channel.Some? {
        fault := ChannelHeld;
      } else {
        channel := Some(socket);
        registered := true;
      }
    }

    method DoDispatch(outcome: Outcome, socket: nat)
      modifies this`state, this`channel, this`retryDelayMs, this`registered, this`timers
      modifies this`delays, this`closed, this`fault
      ensures View() == Dispatch(old(View()), outcome, socket)
    {
      if outcome == Pending {
        DoConnecting(socket);
      } else if outcome == Retryable {
        DoRetry(socket);
      } else {
        closed := closed + [socket];
      }
    }

    method DoConnect(e: Errno)
      modifies this`state, this`channel, this`retryDelayMs, this`registered, this`timers
      modifies this`attempts, this`delays, this`closed, this`fault
      ensures View() == Connect(old(View()), e)
    {
      hide Dispatch, OutcomeOf;
      var socket := attempts;
      attempts := attempts + 1;
      DoDispatch(OutcomeOf(e), socket);
    }

    method DoStartInLoop(e: Errno)
      modifies this`state, this`channel, this`retryDelayMs, this`registered, this`timers
      modifies this`attempts, this`delays, this`closed, this`fault
      ensures View() == StartInLoop(old(View()), e)
    {
      if state != Disconnected {
        fault := BadState;
      } else if connectFlag {
        DoConnect(e);
      }
    }

    method DoStart(inLoop: bool, e: Errno)
      modifies this`state, this`connectFlag, this`channel, this`retryDelayMs, this`registered, this`jobs
      modifies this`timers, this`attempts, this`delays, this`closed, this`fault
      ensures View() == Start(old(View()), inLoop, e)
    {
      connectFlag := true;
      if inLoop {
        DoStartInLoop(e);
      } else {
        jobs := jobs + [StartJob];
      }
    }

    method DoRestart(e: Errno)
      modifies this`state, this`connectFlag, this`channel, this`retryDelayMs, this`registered, this`timers
      modifies this`attempts, this`delays, this`closed, this`fault
      ensures View() == Restart(old(View()), e)
    {
      state := Disconnected;
      retryDelayMs := INIT_RETRY_DELAY_MS;
      delays := [];
      connectFlag := true;
      assert View() == Restarted(old(View()));
      DoStartInLoop(e);
    }

    method DoStop(inTime: bool)
      modifies this`connectFlag, this`timers
      ensures View() == Stop(old(View()), inTime)
    {
      connectFlag := false;
      if inTime {
        timers := [];
      }
    }

    method RemoveAndResetChannel() returns (socket: nat)
      modifies this`registered, this`jobs, this`fault
      ensures View() == RemoveAndReset(old(View()))
      ensures old(channel).Some? ==> socket == old(channel).value
    {
      socket := if channel.Some? then channel.value else 0;
      if channel.None? || !registered {
        fault := NoChannel;
      } else {
        registered := false;
        jobs := jobs + [ResetJob];
      }
    }

    method DoResetChannel()
      modifies this`channel, this`registered
      ensures View() == ResetChannel(old(View()))
    {
      channel := None;
      registered := false;
    }

    method DoHandleWrite(err: bool)
      requires fault == NoFault
      modifies this`state, this`retryDelayMs, this`registered, this`jobs, this`timers
      modifies this`delays, this`closed, this`handed, this`fault
      ensures View() == HandleWrite(old(View()), err)
    {
      if state == Connecting {
        var socket := RemoveAndResetChannel();
        if fault != NoFault {
          return;
        }
        if err {
          DoRetry(socket);
        } else {
          state := Connected;
          if connectFlag {
            handed := handed + [socket];
          } else {
            closed := closed + [socket];
          }
        }
      } else if state != Disconnected {
        fault := BadState;
      }
    }

    method DoHandleError()
      requires fault == NoFault
      modifies this`state, this`retryDelayMs, this`registered, this`jobs, this`timers
      modifies this`delays, this`closed, this`fault
      ensures View() == HandleError(old(View()))
    {
      if state != Connecting {
        fault := BadState;
        return;
      }
      var socket := RemoveAndResetChannel();
      if fault == NoFault {
        DoRetry(socket);
      }
    }
  }
}
