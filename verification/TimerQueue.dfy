/** muduo/TimerQueue.cpp: two ordered indexes over manually owned timers, and a one-shot alarm. */
module TimerQueues {
  import opened Prelude

  const ADDRESS_MAX: nat := 0xFFFF_FFFF_FFFF_FFFF
  const MICROS_PER_SECOND: nat := 1000 * 1000

  /** A Timer object; the sequence number tells it from any other ever made. */
  datatype Timer = Timer(expiration: int, repeat: bool, interval: nat, sequence: nat)

  datatype Entry = Entry(when: int, addr: nat)

  /** A TimerId, and an element of activeTimers_ and cancelingTimers_. */
  datatype Id = Id(addr: nat, sequence: nat)

  /** The timerfd: idle, or due at a deadline that was set at some moment. */
  datatype Alarm = Idle | Armed(deadline: int, setAt: int)

  datatype Ran = Ran(sequence: nat, when: int, at: int)

  /**
   * The queue, the Timer objects in memory by address, those whose addTimerInLoop is still posted, the expired batch
   * and how many of its callbacks have started, the clock, and the history of callbacks run. crashed records a failed
   * assertion or the use of a deleted Timer.
   */
  datatype Queue = Queue(
    timers: seq<Entry>, active: set<Id>, canceling: set<Id>, calling: bool, alarm: Alarm,
    heap: map<nat, Timer>, posted: set<nat>, batch: seq<Entry>, next: nat, batchNow: int,
    clock: int, created: nat, ran: seq<Ran>, crashed: bool)

  function NewQueue(clock: int): Queue {
    Queue([], {}, {}, false, Idle, map[], {}, [], 0, clock, clock, 0, [], false)
  }

  // ----- std::set<std::pair<Timestamp, Timer*>> as a sorted sequence -----

  predicate Less(a: Entry, b: Entry) {
    a.when < b.when || (a.when == b.when && a.addr < b.addr)
  }

  predicate Sorted(s: seq<Entry>) {
    forall i, j :: 0 <= i < j < |s| ==> Less(s[i], s[j])
  }

  function Insertion(s: seq<Entry>, e: Entry): seq<Entry> {
    if s == [] || Less(e, s[0]) then [e] + s else [s[0]] + Insertion(s[1..], e)
  }

  function Removal(s: seq<Entry>, e: Entry): seq<Entry> {
    if s == [] then [] else if s[0] == e then s[1..] else [s[0]] + Removal(s[1..], e)
  }

  /** lower_bound: how many entries come before e. */
  function LowerBound(s: seq<Entry>, e: Entry): (n: nat)
    ensures n <= |s|
  {
    if s == [] || !Less(s[0], e) then 0 else 1 + LowerBound(s[1..], e)
  }

  lemma {:induction false} InsertionSorts(s: seq<Entry>, e: Entry)
    requires Sorted(s) && e !in s
    ensures Sorted(Insertion(s, e)) && |Insertion(s, e)| == |s| + 1
    ensures forall x :: x in Insertion(s, e) <==> x == e || x in s
    ensures Insertion(s, e)[0] == if s == [] || Less(e, s[0]) then e else s[0]
  {
    if s == [] || Less(e, s[0]) {
    } else {
      InsertionSorts(s[1..], e);
      assert s == [s[0]] + s[1..];
      var t := Insertion(s[1..], e);
      forall j | 0 <= j < |t| ensures Less(s[0], t[j]) {
        assert t[j] in t;
      }
    }
  }

  lemma {:induction false} RemovalSorts(s: seq<Entry>, e: Entry)
    requires Sorted(s) && e in s
    ensures Sorted(Removal(s, e)) && |Removal(s, e)| == |s| - 1
    ensures forall x :: x in Removal(s, e) <==> x != e && x in s
  {
    assert s == [s[0]] + s[1..];
    if s[0] == e {
    } else {
      RemovalSorts(s[1..], e);
      var t := Removal(s[1..], e);
      forall j | 0 <= j < |t| ensures Less(s[0], t[j]) {
        assert t[j] in t;
      }
    }
  }

  lemma {:induction false} LowerBoundSplits(s: seq<Entry>, e: Entry)
    requires Sorted(s)
    ensures forall i :: 0 <= i < LowerBound(s, e) ==> Less(s[i], e)
    ensures forall i :: LowerBound(s, e) <= i < |s| ==> !Less(s[i], e)
  {
    if s == [] || !Less(s[0], e) {
    } else {
      LowerBoundSplits(s[1..], e);
      forall i | 0 <= i < LowerBound(s, e) ensures Less(s[i], e) {
        if i > 0 { assert s[i] == s[1..][i - 1]; }
      }
      forall i | LowerBound(s, e) <= i < |s| ensures !Less(s[i], e) {
        assert s[i] == s[1..][i - 1];
      }
    }
  }

  // ----- The operations -----

  /** howMuchTimeFromNow: a timespec of seconds and nanoseconds, never less than 100 microseconds. */
  function HowMuchTimeFromNow(when: int, now: int): (ts: (int, int))
    ensures 0 <= ts.1 < 1_000_000_000
    ensures ts.0 * MICROS_PER_SECOND * 1000 + ts.1 == Max(when - now, 100) * 1000
  {
    var micros := if when - now < 100 then 100 else when - now;
    (micros / MICROS_PER_SECOND, micros % MICROS_PER_SECOND * 1000)
  }

  function ResetTimerfd(q: Queue, expiration: int): (r: Queue)
    ensures r.alarm == Armed(Max(expiration, q.clock + 100), q.clock)
  {
    var ts := HowMuchTimeFromNow(expiration, q.clock);
    q.(alarm := Armed(q.clock + ts.0 * MICROS_PER_SECOND + ts.1 / 1000, q.clock))
  }

  /** Reading the timerfd puts it back to idle if it is due. */
  function ReadTimerfd(q: Queue): Queue {
    if q.alarm.Armed? && q.alarm.deadline <= q.clock then q.(alarm := Idle) else q
  }

  predicate EarliestChanged(q: Queue, when: int) {
    q.timers == [] || when < q.timers[0].when
  }

  /** addTimer's new: a Timer in memory, with its addTimerInLoop posted. */
  function Allocated(q: Queue, addr: nat, t: Timer): Queue {
    q.(heap := q.heap[addr := t], posted := q.posted + {addr}, created := q.created + 1)
  }

  function Insert(q: Queue, addr: nat): (r: Queue)
    ensures r.batch == q.batch
  {
    if addr !in q.heap || |q.timers| != |q.active| then q.(crashed := true)
    else
      var e := Entry(q.heap[addr].expiration, addr);
      var id := Id(addr, q.heap[addr].sequence);
      if e in q.timers || id in q.active then q.(crashed := true)
      else q.(timers := Insertion(q.timers, e), active := q.active + {id})
  }

  function AddTimerInLoop(q: Queue, addr: nat): Queue {
    var r := Insert(q.(posted := q.posted - {addr}), addr);
    if addr in q.heap && EarliestChanged(q, q.heap[addr].expiration) then ResetTimerfd(r, q.heap[addr].expiration)
    else r
  }

  function CancelInLoop(q: Queue, id: Id): Queue {
    if |q.timers| != |q.active| then q.(crashed := true)
    else if id in q.active then
      if id.addr !in q.heap || Entry(q.heap[id.addr].expiration, id.addr) !in q.timers then q.(crashed := true)
      else
        q.(timers := Removal(q.timers, Entry(q.heap[id.addr].expiration, id.addr)),
           heap := q.heap - {id.addr},
           active := q.active - {id})
    else if q.calling then q.(canceling := q.canceling + {id})
    else q
  }

  function IdsOf(batch: seq<Entry>, heap: map<nat, Timer>): set<Id> {
    set e | e in batch && e.addr in heap :: Id(e.addr, heap[e.addr].sequence)
  }

  /** The first n timers moved from the two indexes to the batch. */
  function Cut(q: Queue, n: nat): Queue
    requires n <= |q.timers|
  {
    q.(timers := q.timers[n..], active := q.active - IdsOf(q.timers[..n], q.heap), batch := q.timers[..n])
  }

  /** getExpired: cut off the entries due at now and drop them from both indexes. */
  function GetExpired(q: Queue, now: int): Queue {
    var n := LowerBound(q.timers, Entry(now, ADDRESS_MAX));
    var ids := IdsOf(q.timers[..n], q.heap);
    if |q.timers| != |q.active| || (n < |q.timers| && q.timers[n].when <= now)
       || !(ids <= q.active) || !(forall e :: e in q.timers[..n] ==> e.addr in q.heap)
    then q.(crashed := true)
    else Cut(q, n).(next := 0, batchNow := now)
  }

  /** handleRead up to its loop over the expired timers. */
  function BeginRead(q: Queue): Queue {
    GetExpired(ReadTimerfd(q), q.clock).(calling := true, canceling := {})
  }

  /** One turn of that loop: start the next callback. */
  function RunNext(q: Queue): Queue
    requires q.next < |q.batch|
  {
    var e := q.batch[q.next];
    if e.addr !in q.heap then q.(crashed := true)
    else
      q.(ran := q.ran + [Ran(q.heap[e.addr].sequence, q.heap[e.addr].expiration, q.batchNow)], next := q.next + 1)
  }

  /** The first timer of the batch restarted, before it is inserted again. */
  function Restarted(q: Queue): Queue
    requires q.batch != [] && q.batch[0].addr in q.heap
  {
    var addr := q.batch[0].addr;
    q.(batch := q.batch[1..],
       heap := q.heap[addr := q.heap[addr].(expiration := q.batchNow + q.heap[addr].interval)])
  }

  /** The first timer of the batch deleted. */
  function Deleted(q: Queue): Queue
    requires q.batch != []
  {
    q.(batch := q.batch[1..], heap := q.heap - {q.batch[0].addr})
  }

  /** One turn of reset's loop, on the first of the remaining batch. */
  function ResetOne(q: Queue): (r: Queue)
    requires q.batch != []
    ensures r.batch == q.batch[1..]
  {
    var addr := q.batch[0].addr;
    if addr !in q.heap then q.(batch := q.batch[1..], crashed := true)
    else
      var t := q.heap[addr];
      if t.repeat && Id(addr, t.sequence) !in q.canceling then Insert(Restarted(q), addr) else Deleted(q)
  }

  function ResetAll(q: Queue): (r: Queue)
    decreases |q.batch|
  {
    if q.batch == [] then q else ResetAll(ResetOne(q))
  }

  function Rearm(q: Queue): Queue {
    if q.timers == [] then q
    else if q.timers[0].addr !in q.heap then q.(crashed := true)
    else
      var nextExpire := q.heap[q.timers[0].addr].expiration;
      if nextExpire > 0 then ResetTimerfd(q, nextExpire) else q
  }

  /** handleRead from the end of its loop: reset. */
  function EndRead(q: Queue): Queue {
    Rearm(ResetAll(q.(calling := false, next := 0)))
  }

  datatype Event =
    | Tick(clock: int)
    | New(addr: nat, when: int, repeat: bool, interval: nat)
    | Add(addr: nat)
    | Cancel(id: Id)
    | Expire
    | Callback
    | Finish

  /**
   * The clock never runs back; new returns an address no live Timer has; an add runs once for each new timer; and
   * callbacks may add and cancel between Expire and Finish.
   */
  predicate Allowed(q: Queue, e: Event) {
    match e
    case Tick(clock) => q.clock <= clock
    case New(addr, _, _, _) => addr !in q.heap && addr < ADDRESS_MAX
    case Add(addr) => addr in q.posted
    case Cancel(_) => true
    case Expire => !q.calling
    case Callback => q.calling && q.next < |q.batch|
    case Finish => q.calling && q.next >= |q.batch|
  }

  function Step(q: Queue, e: Event): Queue
    requires Allowed(q, e)
  {
    match e
    case Tick(clock) => q.(clock := clock)
    case New(addr, when, repeat, interval) =>
      Allocated(q, addr, Timer(when, repeat, interval, q.created + 1))
    case Add(addr) => AddTimerInLoop(q, addr)
    case Cancel(id) => CancelInLoop(q, id)
    case Expire => BeginRead(q)
    case Callback => RunNext(q)
    case Finish => EndRead(q)
  }

  predicate AllowedRun(q: Queue, es: seq<Event>)
    decreases es
  {
    es == [] || (Allowed(q, es[0]) && AllowedRun(Step(q, es[0]), es[1..]))
  }

  function Run(q: Queue, es: seq<Event>): Queue
    requires AllowedRun(q, es)
    decreases es
  {
    if es == [] then q else Run(Step(q, es[0]), es[1..])
  }

  // ----- The two indexes describe the same timers -----

  function Addresses(batch: seq<Entry>): set<nat> {
    if batch == [] then {} else {batch[0].addr} + Addresses(batch[1..])
  }

  lemma {:induction false} AddressesAt(batch: seq<Entry>)
    ensures forall i :: 0 <= i < |batch| ==> batch[i].addr in Addresses(batch)
    ensures forall a :: a in Addresses(batch) ==> exists i :: 0 <= i < |batch| && batch[i].addr == a
  {
    if batch == [] {
    } else {
      var rest := batch[1..];
      AddressesAt(rest);
      forall i | 0 <= i < |batch| ensures batch[i].addr in Addresses(batch) {
        assert i > 0 ==> batch[i] == rest[i - 1];
      }
      forall a | a in Addresses(batch) ensures exists i :: 0 <= i < |batch| && batch[i].addr == a {
        if a != batch[0].addr {
          assert a in Addresses(rest);
          var i :| 0 <= i < |rest| && rest[i].addr == a;
          assert batch[i + 1].addr == a;
        }
      }
    }
  }

  predicate InBatch(q: Queue, addr: nat) {
    addr in Addresses(q.batch)
  }

  /** timers_ and activeTimers_ list the same timers, keyed by their current expirations. */
  ghost predicate Indexed(q: Queue) {
    && Sorted(q.timers)
    && |q.timers| == |q.active|
    && (forall e :: e in q.timers ==>
          e.addr in q.heap && q.heap[e.addr].expiration == e.when && Id(e.addr, q.heap[e.addr].sequence) in q.active)
    && (forall id :: id in q.active ==>
          id.addr in q.heap && q.heap[id.addr].sequence == id.sequence &&
          Entry(q.heap[id.addr].expiration, id.addr) in q.timers)
  }

  ghost predicate IsQueued(q: Queue, addr: nat) {
    addr in q.heap && Id(addr, q.heap[addr].sequence) in q.active
  }

  /** Sequence numbers are unique among the timers in memory. */
  ghost predicate Numbered(q: Queue) {
    && (forall a :: a in q.heap ==> a < ADDRESS_MAX && 1 <= q.heap[a].sequence <= q.created)
    && (forall a, b :: a in q.heap && b in q.heap && a != b ==> q.heap[a].sequence != q.heap[b].sequence)
  }

  /** Every timer in memory has exactly one owner: posted, queued, or in the current batch. */
  ghost predicate Placed(q: Queue) {
    && (forall a :: a in q.heap ==> a in q.posted || IsQueued(q, a) || InBatch(q, a))
    && (forall a :: a in q.posted ==> a in q.heap && !IsQueued(q, a) && !InBatch(q, a))
    && (forall i :: 0 <= i < |q.batch| ==>
          q.batch[i].addr in q.heap && !IsQueued(q, q.batch[i].addr) &&
          q.heap[q.batch[i].addr].expiration == q.batch[i].when)
    && (forall i, j :: 0 <= i < j < |q.batch| ==> q.batch[i].addr != q.batch[j].addr)
  }

  ghost predicate Sound(q: Queue) {
    !q.crashed && Indexed(q) && Numbered(q) && Placed(q)
  }

  lemma InsertIndexed(q: Queue, addr: nat)
    requires !q.crashed && Indexed(q) && addr in q.heap && !IsQueued(q, addr)
    ensures var r := Insert(q, addr);
            && !r.crashed && Indexed(r)
            && r.timers != []
            && r.timers[0].when ==
               (if EarliestChanged(q, q.heap[addr].expiration) then q.heap[addr].expiration else q.timers[0].when)
  {
    var e := Entry(q.heap[addr].expiration, addr);
    assert e !in q.timers;
    InsertionSorts(q.timers, e);
  }

  /** A timer that nobody owns becomes a queued one. */
  lemma InsertPlaced(q: Queue, addr: nat)
    requires !q.crashed && Indexed(q) && Placed(q.(posted := q.posted + {addr})) && addr !in q.posted
    ensures Placed(Insert(q, addr))
  {
    var p := q.(posted := q.posted + {addr});
    assert addr in p.posted && !IsQueued(p, addr) && !InBatch(p, addr);
    AddressesAt(q.batch);
    var r := Insert(q, addr);
    assert r.heap == q.heap && r.batch == q.batch;
    forall a | a in r.heap
      ensures IsQueued(r, a) <==> IsQueued(p, a) || a == addr
      ensures InBatch(r, a) <==> InBatch(p, a)
    {
    }
    forall a | a in r.posted ensures a in r.heap && !IsQueued(r, a) && !InBatch(r, a) {
      assert a in p.posted;
    }
    forall a | a in r.heap ensures a in r.posted || IsQueued(r, a) || InBatch(r, a) {
      assert a in p.posted || IsQueued(p, a) || InBatch(p, a);
    }
  }

  lemma CancelIndexed(q: Queue, id: Id)
    requires !q.crashed && Indexed(q)
    ensures !CancelInLoop(q, id).crashed && Indexed(CancelInLoop(q, id))
    ensures forall e :: e in CancelInLoop(q, id).timers ==> e in q.timers
  {
    if id in q.active {
      var e := Entry(q.heap[id.addr].expiration, id.addr);
      RemovalSorts(q.timers, e);
    }
  }

  lemma CancelPlaced(q: Queue, id: Id)
    requires !q.crashed && Indexed(q) && Placed(q)
    ensures Placed(CancelInLoop(q, id))
  {
    var r := CancelInLoop(q, id);
    if id in q.active {
      assert IsQueued(q, id.addr);
      assert r.heap == q.heap - {id.addr} && r.batch == q.batch && r.posted == q.posted;
      forall a | a in r.heap
        ensures IsQueued(r, a) <==> IsQueued(q, a)
        ensures InBatch(r, a) <==> InBatch(q, a)
      {
      }
    }
  }

  lemma {:induction false} IdsCount(batch: seq<Entry>, heap: map<nat, Timer>)
    requires forall e :: e in batch ==> e.addr in heap
    requires forall i, j :: 0 <= i < j < |batch| ==> batch[i].addr != batch[j].addr
    ensures |IdsOf(batch, heap)| == |batch|
  {
    if batch == [] {
      assert IdsOf(batch, heap) == {};
    } else {
      var init, e := batch[..|batch| - 1], batch[|batch| - 1];
      var id := Id(e.addr, heap[e.addr].sequence);
      IdsCount(init, heap);
      assert batch == init + [e];
      assert IdsOf(batch, heap) == IdsOf(init, heap) + {id};
      assert id !in IdsOf(init, heap);
    }
  }

  /** No two queued entries share an address. */
  lemma QueuedAddressesDiffer(q: Queue)
    requires Indexed(q)
    ensures forall i, j :: 0 <= i < j < |q.timers| ==> q.timers[i].addr != q.timers[j].addr
  {
    forall i, j | 0 <= i < j < |q.timers| ensures q.timers[i].addr != q.timers[j].addr {
      assert q.timers[i] in q.timers && q.timers[j] in q.timers;
      assert Less(q.timers[i], q.timers[j]);
    }
  }

  /** The cut takes exactly the entries due at now. */
  lemma CutIsDue(q: Queue, now: int)
    requires Indexed(q) && Numbered(q)
    ensures var n := LowerBound(q.timers, Entry(now, ADDRESS_MAX));
            forall i :: 0 <= i < |q.timers| ==> (i < n <==> q.timers[i].when <= now)
  {
    var sentry := Entry(now, ADDRESS_MAX);
    LowerBoundSplits(q.timers, sentry);
    forall i | 0 <= i < |q.timers|
      ensures i < LowerBound(q.timers, sentry) <==> q.timers[i].when <= now
    {
      assert q.timers[i] in q.timers;
      assert Less(q.timers[i], sentry) <==> q.timers[i].when <= now;
    }
  }

  /** Cutting off the first n entries cuts the ids of exactly those entries. */
  lemma CutIds(q: Queue, n: nat)
    requires Indexed(q) && n <= |q.timers|
    ensures var ids := IdsOf(q.timers[..n], q.heap);
            && ids <= q.active
            && (forall e :: e in q.timers[..n] ==> e.addr in q.heap && Id(e.addr, q.heap[e.addr].sequence) in ids)
            && (forall e :: e in q.timers[n..] ==> Id(e.addr, q.heap[e.addr].sequence) !in ids)
  {
    QueuedAddressesDiffer(q);
    var due, ids := q.timers[..n], IdsOf(q.timers[..n], q.heap);
    forall e | e in due ensures e.addr in q.heap && Id(e.addr, q.heap[e.addr].sequence) in ids {
      assert e in q.timers;
    }
    forall e | e in q.timers[n..] ensures Id(e.addr, q.heap[e.addr].sequence) !in ids {
      var j :| n <= j < |q.timers| && q.timers[j] == e;
      assert e in q.timers;
    }
  }

  lemma CutIdsRest(q: Queue, n: nat)
    requires Indexed(q) && n <= |q.timers|
    ensures var ids := IdsOf(q.timers[..n], q.heap);
            && |ids| == n
            && (forall id :: id in q.active && id !in ids ==>
                  Entry(q.heap[id.addr].expiration, id.addr) in q.timers[n..])
  {
    QueuedAddressesDiffer(q);
    CutIds(q, n);
    IdsCount(q.timers[..n], q.heap);
    assert q.timers == q.timers[..n] + q.timers[n..];
    forall id | id in q.active && id !in IdsOf(q.timers[..n], q.heap)
      ensures Entry(q.heap[id.addr].expiration, id.addr) in q.timers[n..]
    {
      assert Entry(q.heap[id.addr].expiration, id.addr) in q.timers;
    }
  }

  /** No assertion of getExpired fails: it is the cut at now. */
  lemma GetExpiredCuts(q: Queue, now: int)
    requires !q.crashed && Indexed(q) && Numbered(q)
    ensures GetExpired(q, now) ==
            Cut(q, LowerBound(q.timers, Entry(now, ADDRESS_MAX))).(next := 0, batchNow := now)
  {
    var n := LowerBound(q.timers, Entry(now, ADDRESS_MAX));
    CutIsDue(q, now);
    CutIds(q, n);
  }

  lemma CutIndexed(q: Queue, n: nat)
    requires Indexed(q) && n <= |q.timers|
    ensures Indexed(Cut(q, n))
  {
    CutIds(q, n);
    CutIdsRest(q, n);
    assert forall e :: e in q.timers[n..] ==> e in q.timers;
  }

  /** The entries cut off were queued and are no longer. */
  lemma CutLeavesQueue(q: Queue, n: nat)
    requires Indexed(q) && n <= |q.timers|
    ensures var r := Cut(q, n);
            && (forall i :: 0 <= i < n ==>
                  r.batch[i].addr in r.heap && r.heap[r.batch[i].addr].expiration == r.batch[i].when)
            && (forall i :: 0 <= i < n ==>
                  IsQueued(q, r.batch[i].addr) && !IsQueued(r, r.batch[i].addr))
  {
    CutIds(q, n);
    forall i | 0 <= i < n ensures q.timers[..n][i] in q.timers {
      assert q.timers[..n][i] == q.timers[i];
    }
  }

  lemma CutStaysOwned(q: Queue, n: nat)
    requires Indexed(q) && Placed(q) && q.batch == [] && n <= |q.timers|
    ensures var r := Cut(q, n);
            && (forall a :: a in r.heap ==> a in r.posted || IsQueued(r, a) || InBatch(r, a))
            && (forall a :: a in r.posted ==> a in r.heap && !IsQueued(r, a) && !InBatch(r, a))
  {
    CutLeavesQueue(q, n);
    AddressesAt(q.timers[..n]);
    var r := Cut(q, n);
    forall a | a in r.heap ensures a in r.posted || IsQueued(r, a) || InBatch(r, a) {
      assert !InBatch(q, a);
      if IsQueued(q, a) {
        ExpiredOrNot(q, n, a);
      }
    }
    forall a | a in r.posted ensures a in r.heap && !IsQueued(r, a) && !InBatch(r, a) {
      assert !IsQueued(q, a);
    }
  }

  lemma CutPlaced(q: Queue, n: nat)
    requires Indexed(q) && Placed(q) && q.batch == [] && n <= |q.timers|
    ensures Placed(Cut(q, n))
  {
    CutLeavesQueue(q, n);
    CutStaysOwned(q, n);
    QueuedAddressesDiffer(q);
  }

  lemma SoundDependsOn(c: Queue, r: Queue)
    requires Sound(c) && c.heap == r.heap && c.posted == r.posted && c.active == r.active && c.batch == r.batch
    requires c.timers == r.timers && c.created == r.created && c.crashed == r.crashed
    ensures Sound(r)
  {
    forall a ensures (IsQueued(r, a) <==> IsQueued(c, a)) && (InBatch(r, a) <==> InBatch(c, a)) {
    }
  }

  lemma ReadTimerfdSound(q: Queue)
    requires Sound(q)
    ensures Sound(ReadTimerfd(q))
  {
    SoundDependsOn(q, ReadTimerfd(q));
  }

  lemma GetExpiredSound(q: Queue, now: int)
    requires Sound(q) && q.batch == []
    ensures Sound(GetExpired(q, now))
  {
    var n := LowerBound(q.timers, Entry(now, ADDRESS_MAX));
    GetExpiredCuts(q, now);
    CutIndexed(q, n);
    CutPlaced(q, n);
    SoundDependsOn(Cut(q, n), GetExpired(q, now));
  }

  lemma ExpiredOrNot(q: Queue, n: nat, a: nat)
    requires Indexed(q) && n <= |q.timers| && IsQueued(q, a)
    ensures Id(a, q.heap[a].sequence) in IdsOf(q.timers[..n], q.heap) ==> a in Addresses(q.timers[..n])
  {
    if Id(a, q.heap[a].sequence) in IdsOf(q.timers[..n], q.heap) {
      var e :| e in q.timers[..n] && e.addr == a;
      AddressesAt(q.timers[..n]);
    }
  }

  /** Taking the first entry off the batch takes its address off, and no other. */
  lemma PopAddress(q: Queue)
    requires Placed(q) && q.batch != []
    ensures Addresses(q.batch[1..]) == Addresses(q.batch) - {q.batch[0].addr}
    ensures q.batch[0].addr in q.heap && !IsQueued(q, q.batch[0].addr) && q.batch[0].addr !in q.posted
  {
    var rest := q.batch[1..];
    AddressesAt(rest);
    forall i | 0 <= i < |rest| ensures rest[i].addr != q.batch[0].addr {
      assert rest[i] == q.batch[i + 1];
    }
    assert InBatch(q, q.batch[0].addr);
  }

  lemma RestartKeepsIndexed(q: Queue)
    requires Indexed(q) && Numbered(q) && Placed(q) && q.batch != []
    ensures Indexed(Restarted(q)) && Numbered(Restarted(q))
  {
    PopAddress(q);
  }

  lemma RestartKeepsPlaced(q: Queue)
    requires Indexed(q) && Placed(q) && q.batch != []
    ensures Placed(Restarted(q).(posted := q.posted + {q.batch[0].addr}))
  {
    PopAddress(q);
    var addr := q.batch[0].addr;
    var p := Restarted(q).(posted := q.posted + {addr});
    forall a ensures IsQueued(p, a) <==> IsQueued(q, a) {
    }
    forall a ensures InBatch(p, a) <==> InBatch(q, a) && a != addr {
    }
    forall i | 0 <= i < |p.batch| ensures p.batch[i] == q.batch[i + 1] && p.batch[i].addr != addr {
    }
  }

  lemma DeleteKeepsIndexed(q: Queue)
    requires Indexed(q) && Numbered(q) && Placed(q) && q.batch != []
    ensures Indexed(Deleted(q)) && Numbered(Deleted(q))
  {
    PopAddress(q);
  }

  lemma DeleteKeepsPlaced(q: Queue)
    requires Indexed(q) && Placed(q) && q.batch != []
    ensures Placed(Deleted(q))
  {
    PopAddress(q);
    var addr := q.batch[0].addr;
    var p := Deleted(q);
    forall a ensures IsQueued(p, a) <==> IsQueued(q, a) && a != addr {
    }
    forall a ensures InBatch(p, a) <==> InBatch(q, a) && a != addr {
    }
    forall i | 0 <= i < |p.batch| ensures p.batch[i] == q.batch[i + 1] && p.batch[i].addr != addr {
    }
  }

  /** reset's loop: what remains of the batch is still owned by it. */
  lemma ResetOneSound(q: Queue)
    requires Sound(q) && q.batch != []
    ensures Sound(ResetOne(q))
  {
    PopAddress(q);
    var addr := q.batch[0].addr;
    var t := q.heap[addr];
    if t.repeat && Id(addr, t.sequence) !in q.canceling {
      RestartKeepsIndexed(q);
      RestartKeepsPlaced(q);
      assert ResetOne(q) == Insert(Restarted(q), addr);
      InsertIndexed(Restarted(q), addr);
      InsertPlaced(Restarted(q), addr);
    } else {
      DeleteKeepsIndexed(q);
      DeleteKeepsPlaced(q);
      assert ResetOne(q) == Deleted(q);
    }
  }

  lemma {:induction false} ResetAllSound(q: Queue)
    requires Sound(q)
    ensures Sound(ResetAll(q)) && ResetAll(q).batch == []
    decreases |q.batch|
  {
    if q.batch == [] {
    } else {
      ResetOneSound(q);
      ResetAllSound(ResetOne(q));
    }
  }

  // ----- Every step keeps the indexes and the owners -----

  ghost predicate Good(q: Queue) {
    Sound(q) && (!q.calling ==> q.batch == [])
  }

  lemma NewIndexed(q: Queue, addr: nat, t: Timer)
    requires Indexed(q) && Numbered(q) && addr !in q.heap && addr < ADDRESS_MAX && t.sequence == q.created + 1
    ensures Indexed(Allocated(q, addr, t)) && Numbered(Allocated(q, addr, t))
  {
  }

  lemma NewPlaced(q: Queue, addr: nat, t: Timer)
    requires Indexed(q) && Placed(q) && addr !in q.heap
    ensures Placed(Allocated(q, addr, t))
  {
    var r := Allocated(q, addr, t);
    AddressesAt(q.batch);
    forall a ensures (IsQueued(r, a) <==> IsQueued(q, a)) && (InBatch(r, a) <==> InBatch(q, a)) {
    }
  }

  /** The owner of a posted timer lets go of it. */
  lemma UnpostSound(q: Queue, addr: nat)
    requires Sound(q) && addr in q.posted
    ensures var m := q.(posted := q.posted - {addr});
            && Indexed(m) && Numbered(m) && Placed(m.(posted := m.posted + {addr}))
            && addr in m.heap && !IsQueued(m, addr)
  {
    var m := q.(posted := q.posted - {addr});
    assert m.posted + {addr} == q.posted;
    assert m.(posted := m.posted + {addr}) == q;
    assert !IsQueued(q, addr);
  }

  lemma InsertSound(q: Queue, addr: nat)
    requires !q.crashed && Indexed(q) && Numbered(q) && addr !in q.posted
    requires Placed(q.(posted := q.posted + {addr}))
    ensures Sound(Insert(q, addr))
  {
    assert addr in q.posted + {addr};
    assert !IsQueued(q.(posted := q.posted + {addr}), addr);
    InsertIndexed(q, addr);
    InsertPlaced(q, addr);
    assert Numbered(Insert(q, addr));
  }

  lemma AddSound(q: Queue, addr: nat)
    requires Sound(q) && addr in q.posted
    ensures Sound(AddTimerInLoop(q, addr))
  {
    hide Indexed, Placed, Numbered, Insertion, HowMuchTimeFromNow;
    var m := q.(posted := q.posted - {addr});
    UnpostSound(q, addr);
    InsertSound(m, addr);
    SoundDependsOn(Insert(m, addr), AddTimerInLoop(q, addr));
  }

  lemma AddFirst(q: Queue, addr: nat)
    requires Sound(q) && addr in q.posted
    ensures var r := AddTimerInLoop(q, addr);
            addr in q.heap && r.timers != [] && r.timers[0].when ==
            if EarliestChanged(q, q.heap[addr].expiration) then q.heap[addr].expiration else q.timers[0].when
  {
    UnpostSound(q, addr);
    InsertIndexed(q.(posted := q.posted - {addr}), addr);
  }

  lemma BeginReadSound(q: Queue)
    requires Good(q) && !q.calling
    ensures Sound(BeginRead(q))
  {
    SoundDependsOn(q, ReadTimerfd(q));
    GetExpiredSound(ReadTimerfd(q), q.clock);
    SoundDependsOn(GetExpired(ReadTimerfd(q), q.clock), BeginRead(q));
  }

  lemma RunNextSound(q: Queue)
    requires Sound(q) && q.next < |q.batch|
    ensures Sound(RunNext(q))
  {
    SoundDependsOn(q, RunNext(q));
  }

  lemma RearmSound(q: Queue)
    requires Sound(q)
    ensures Sound(Rearm(q))
    ensures Rearm(q) == if q.timers == [] || q.timers[0].when <= 0 then q else ResetTimerfd(q, q.timers[0].when)
  {
    assert q.timers != [] ==> q.timers[0] in q.timers;
    SoundDependsOn(q, Rearm(q));
  }

  lemma EndReadSound(q: Queue)
    requires Sound(q)
    ensures Sound(EndRead(q)) && EndRead(q).batch == []
  {
    var c := q.(calling := false, next := 0);
    SoundDependsOn(q, c);
    ResetAllSound(c);
    RearmSound(ResetAll(c));
  }

  lemma NewSound(q: Queue, addr: nat, t: Timer)
    requires Sound(q) && addr !in q.heap && addr < ADDRESS_MAX && t.sequence == q.created + 1
    ensures Sound(Allocated(q, addr, t))
  {
    NewIndexed(q, addr, t);
    NewPlaced(q, addr, t);
  }

  lemma CancelSound(q: Queue, id: Id)
    requires Sound(q)
    ensures Sound(CancelInLoop(q, id))
  {
    CancelIndexed(q, id);
    CancelPlaced(q, id);
    assert Numbered(CancelInLoop(q, id));
  }

  lemma LoopStepGood(q: Queue, e: Event)
    requires Allowed(q, e) && Good(q) && (e.Tick? || e.New?)
    ensures Good(Step(q, e))
  {
    match e
    case Tick(clock) => SoundDependsOn(q, q.(clock := clock));
    case New(addr, when, repeat, interval) => NewSound(q, addr, Timer(when, repeat, interval, q.created + 1));
  }

  lemma TaskStepGood(q: Queue, e: Event)
    requires Allowed(q, e) && Good(q) && (e.Add? || e.Cancel?)
    ensures Good(Step(q, e))
  {
    match e
    case Add(addr) => AddSound(q, addr);
    case Cancel(id) => CancelSound(q, id);
  }

  lemma ReadStepGood(q: Queue, e: Event)
    requires Allowed(q, e) && Good(q) && (e.Expire? || e.Callback? || e.Finish?)
    ensures Good(Step(q, e))
  {
    match e
    case Expire => BeginReadSound(q);
    case Callback => RunNextSound(q);
    case Finish => EndReadSound(q);
  }

  lemma StepGood(q: Queue, e: Event)
    requires Allowed(q, e) && Good(q)
    ensures Good(Step(q, e))
  {
    if e.Expire? || e.Callback? || e.Finish? {
      ReadStepGood(q, e);
    } else if e.Add? || e.Cancel? {
      TaskStepGood(q, e);
    } else {
      LoopStepGood(q, e);
    }
  }

  lemma {:induction false} RunGood(q: Queue, es: seq<Event>)
    requires AllowedRun(q, es) && Good(q)
    ensures Good(Run(q, es))
    decreases es
  {
    if es == [] {
    } else {
      StepGood(q, es[0]);
      RunGood(Step(q, es[0]), es[1..]);
    }
  }

  /**
   * Through any mix of adds, cancels, expiries and repeats no assertion fails and no deleted timer is touched; the two
   * indexes list the same timers under their current expirations; and every timer in memory has exactly one owner.
   */
  lemma TimerOwnership(clock: int, es: seq<Event>)
    requires AllowedRun(NewQueue(clock), es)
    ensures var q := Run(NewQueue(clock), es);
            && !q.crashed
            && Indexed(q)
            && (forall a :: a in q.heap ==>
                  && (a in q.posted || IsQueued(q, a) || InBatch(q, a))
                  && !(a in q.posted && IsQueued(q, a))
                  && !(a in q.posted && InBatch(q, a))
                  && !(IsQueued(q, a) && InBatch(q, a)))
            && (forall a :: a in q.posted || InBatch(q, a) ==> a in q.heap)
  {
    RunGood(NewQueue(clock), es);
    var q := Run(NewQueue(clock), es);
    AddressesAt(q.batch);
  }

  // ----- The alarm -----

  /** If a timer is queued, the alarm is pending and not late for it, give or take the 100 microseconds. */
  predicate AlarmCovers(q: Queue) {
    q.timers != [] ==> q.alarm.Armed? && q.alarm.deadline <= Max(q.timers[0].when, q.alarm.setAt + 100)
  }

  /** Inside a batch only timers that come before the batch's own time have to be covered already. */
  predicate CoversBefore(q: Queue) {
    q.timers != [] && q.timers[0].when < q.batchNow ==> AlarmCovers(q)
  }

  ghost predicate Timely(q: Queue) {
    && 0 < q.batchNow <= q.clock
    && (q.alarm.Armed? ==> q.alarm.setAt <= q.clock)
    && (if q.calling then CoversBefore(q) else AlarmCovers(q))
  }

  lemma ResetOneCovers(q: Queue)
    requires Sound(q) && q.batch != [] && CoversBefore(q)
    ensures var r := ResetOne(q);
            CoversBefore(r) && r.clock == q.clock && r.alarm == q.alarm && r.batchNow == q.batchNow
            && r.calling == q.calling
  {
    hide Indexed, Placed, Numbered;
    PopAddress(q);
    var addr := q.batch[0].addr;
    if q.heap[addr].repeat && Id(addr, q.heap[addr].sequence) !in q.canceling {
      RestartKeepsIndexed(q);
      InsertIndexed(Restarted(q), addr);
    }
  }

  lemma {:induction false} ResetAllCovers(q: Queue)
    requires Sound(q) && CoversBefore(q)
    ensures var r := ResetAll(q);
            CoversBefore(r) && r.clock == q.clock && r.alarm == q.alarm && r.batchNow == q.batchNow
            && r.calling == q.calling
    decreases |q.batch|
  {
    if q.batch == [] {
    } else {
      ResetOneSound(q);
      ResetOneCovers(q);
      ResetAllCovers(ResetOne(q));
    }
  }

  lemma AddTimely(q: Queue, addr: nat)
    requires Timely(q) && addr in q.heap
    requires var r := AddTimerInLoop(q, addr);
             r.timers != [] && r.timers[0].when ==
             if EarliestChanged(q, q.heap[addr].expiration) then q.heap[addr].expiration else q.timers[0].when
    ensures Timely(AddTimerInLoop(q, addr))
  {
  }

  /** Cancelling never makes the first timer earlier. */
  lemma CancelFirst(q: Queue, id: Id)
    requires !q.crashed && Indexed(q)
    ensures var r := CancelInLoop(q, id);
            r.timers != [] ==> q.timers != [] && q.timers[0].when <= r.timers[0].when
  {
    CancelIndexed(q, id);
    var r := CancelInLoop(q, id);
    if r.timers != [] {
      assert r.timers[0] in q.timers;
      var i :| 0 <= i < |q.timers| && q.timers[i] == r.timers[0];
      assert i == 0 || Less(q.timers[0], q.timers[i]);
    }
  }

  lemma CancelTimely(q: Queue, id: Id)
    requires Timely(q)
    requires var r := CancelInLoop(q, id);
             r.timers != [] ==> q.timers != [] && q.timers[0].when <= r.timers[0].when
    ensures Timely(CancelInLoop(q, id))
  {
  }

  /** What handleRead does before its callbacks: no assertion fails, and the cut is at the clock. */
  lemma BeginReadCuts(q: Queue)
    requires Sound(q)
    ensures var n := LowerBound(q.timers, Entry(q.clock, ADDRESS_MAX));
            var r := BeginRead(q);
            && r.batch == q.timers[..n] && r.timers == q.timers[n..]
            && r.batchNow == q.clock && r.clock == q.clock && r.ran == q.ran && r.calling
            && r.alarm == ReadTimerfd(q).alarm
            && (forall i :: 0 <= i < |q.timers| ==> (i < n <==> q.timers[i].when <= q.clock))
  {
    var f := ReadTimerfd(q);
    SoundDependsOn(q, f);
    CutIsDue(f, q.clock);
    GetExpiredCuts(f, q.clock);
  }

  lemma BeginReadTimely(q: Queue)
    requires Good(q) && Timely(q) && !q.calling
    ensures Timely(BeginRead(q))
  {
    BeginReadCuts(q);
    var n := LowerBound(q.timers, Entry(q.clock, ADDRESS_MAX));
    if n < |q.timers| {
      assert q.timers[n..][0] == q.timers[n];
    }
  }

  lemma EndReadTimely(q: Queue)
    requires Good(q) && Timely(q) && q.calling
    ensures Timely(EndRead(q))
  {
    hide Indexed, Placed, Numbered;
    var c := q.(calling := false, next := 0);
    SoundDependsOn(q, c);
    ResetAllSound(c);
    ResetAllCovers(c);
    RearmSound(ResetAll(c));
  }

  lemma StepTimely(q: Queue, e: Event)
    requires Allowed(q, e) && Good(q) && Timely(q)
    ensures Timely(Step(q, e))
  {
    match e
    case Tick(clock) =>
    case New(addr, when, repeat, interval) =>
    case Add(addr) =>
      AddFirst(q, addr);
      AddTimely(q, addr);
    case Cancel(id) =>
      CancelFirst(q, id);
      CancelTimely(q, id);
    case Expire => BeginReadTimely(q);
    case Callback =>
    case Finish => EndReadTimely(q);
  }

  lemma {:induction false} RunTimely(q: Queue, es: seq<Event>)
    requires AllowedRun(q, es) && Good(q) && Timely(q)
    ensures Good(Run(q, es)) && Timely(Run(q, es))
    decreases es
  {
    if es == [] {
    } else {
      StepGood(q, es[0]);
      StepTimely(q, es[0]);
      RunTimely(Step(q, es[0]), es[1..]);
    }
  }

  /**
   * With one clock that starts after the epoch: whenever timers are queued and no batch is being handled, the alarm is
   * pending, due no later than the earliest expiration or 100 microseconds after it was last set.
   */
  lemma AlarmNeverLate(clock: int, es: seq<Event>)
    requires 0 < clock && AllowedRun(NewQueue(clock), es)
    ensures var q := Run(NewQueue(clock), es);
            !q.calling && q.timers != [] ==>
              q.alarm.Armed? && q.alarm.setAt <= q.clock &&
              q.alarm.deadline <= Max(q.timers[0].when, q.alarm.setAt + 100)
  {
    RunTimely(NewQueue(clock), es);
  }

  /** Handling an expiry leaves no due alarm armed, and an alarm that is not due alone. */
  lemma ReadClearsDueAlarm(q: Queue)
    requires Sound(q)
    ensures var a := BeginRead(q).alarm;
            if q.alarm.Armed? && q.alarm.deadline <= q.clock then a == Idle else a == q.alarm
  {
    BeginReadCuts(q);
  }

  /** An added timer moves the alarm exactly when it expires strictly before every queued one. */
  lemma AddMovesAlarm(q: Queue, addr: nat)
    requires Sound(q) && addr in q.posted
    ensures var when := q.heap[addr].expiration;
            AddTimerInLoop(q, addr).alarm ==
            if forall e :: e in q.timers ==> when < e.when then Armed(Max(when, q.clock + 100), q.clock) else q.alarm
  {
    var when := q.heap[addr].expiration;
    assert q.timers != [] ==> q.timers[0] in q.timers;
    forall e | e in q.timers ensures q.timers[0].when <= e.when {
    }
    InsertKeepsAlarm(q.(posted := q.posted - {addr}), addr);
    hide Sound, Insert;
    assert (forall e :: e in q.timers ==> when < e.when) <==> q.timers == [] || when < q.timers[0].when;
  }

  lemma InsertKeepsAlarm(q: Queue, addr: nat)
    ensures Insert(q, addr).alarm == q.alarm && Insert(q, addr).clock == q.clock
  {
  }

  // ----- Cancelling -----

  /** The timer with this sequence number has been made and is no more. */
  ghost predicate Dead(q: Queue, sequence: nat) {
    sequence <= q.created && forall a :: a in q.heap ==> q.heap[a].sequence != sequence
  }

  lemma ResetOneKeepsDead(q: Queue, sequence: nat)
    requires q.batch != [] && Dead(q, sequence)
    ensures Dead(ResetOne(q), sequence) && ResetOne(q).ran == q.ran && ResetOne(q).created == q.created
  {
  }

  lemma {:induction false} ResetAllKeepsDead(q: Queue, sequence: nat)
    requires Dead(q, sequence)
    ensures Dead(ResetAll(q), sequence) && ResetAll(q).ran == q.ran && ResetAll(q).created == q.created
    decreases |q.batch|
  {
    if q.batch == [] {
    } else {
      ResetOneKeepsDead(q, sequence);
      ResetAllKeepsDead(ResetOne(q), sequence);
    }
  }

  lemma FinishKeepsDead(q: Queue, sequence: nat)
    requires Dead(q, sequence)
    ensures Dead(EndRead(q), sequence) && EndRead(q).ran == q.ran
  {
    ResetAllKeepsDead(q.(calling := false, next := 0), sequence);
  }

  /** A dead timer stays dead and its callback is not run. */
  lemma StepKeepsDead(q: Queue, e: Event, sequence: nat)
    requires Allowed(q, e) && Good(q) && Dead(q, sequence)
    ensures Dead(Step(q, e), sequence)
    ensures q.ran <= Step(q, e).ran
    ensures forall i :: |q.ran| <= i < |Step(q, e).ran| ==> Step(q, e).ran[i].sequence != sequence
  {
    hide Indexed, Placed, Numbered;
    match e
    case Finish => FinishKeepsDead(q, sequence);
    case Callback => BatchUnqueued(q, q.batch[q.next]);
    case _ =>
  }

  lemma {:induction false} DeadNeverRuns(q: Queue, es: seq<Event>, sequence: nat)
    requires AllowedRun(q, es) && Good(q) && Dead(q, sequence)
    ensures Dead(Run(q, es), sequence)
    ensures q.ran <= Run(q, es).ran
    ensures forall i :: |q.ran| <= i < |Run(q, es).ran| ==> Run(q, es).ran[i].sequence != sequence
    decreases es
  {
    if es == [] {
    } else {
      StepGood(q, es[0]);
      StepKeepsDead(q, es[0], sequence);
      DeadNeverRuns(Step(q, es[0]), es[1..], sequence);
    }
  }

  lemma CancelQueuedKills(q: Queue, id: Id)
    requires Sound(q) && id in q.active
    ensures Dead(CancelInLoop(q, id), id.sequence) && CancelInLoop(q, id).ran == q.ran
  {
    CancelIndexed(q, id);
  }

  /** A queued timer that is cancelled never runs again, whatever happens afterwards. */
  lemma CancelledNeverRuns(clock: int, before: seq<Event>, id: Id, after: seq<Event>)
    requires AllowedRun(NewQueue(clock), before)
    requires id in Run(NewQueue(clock), before).active
    requires AllowedRun(CancelInLoop(Run(NewQueue(clock), before), id), after)
    ensures var q := Run(NewQueue(clock), before);
            var r := Run(CancelInLoop(q, id), after);
            forall i :: |q.ran| <= i < |r.ran| ==> r.ran[i].sequence != id.sequence
  {
    var q := Run(NewQueue(clock), before);
    RunGood(NewQueue(clock), before);
    CancelSound(q, id);
    CancelQueuedKills(q, id);
    DeadNeverRuns(CancelInLoop(q, id), after, id.sequence);
  }

  /** In the current batch, and in cancelingTimers_. */
  predicate Condemned(q: Queue, id: Id) {
    && id in q.canceling && InBatch(q, id.addr)
    && id.addr in q.heap && q.heap[id.addr].sequence == id.sequence && id.sequence <= q.created
  }

  /** Gone, or to be deleted when the current batch ends. */
  ghost predicate Doomed(q: Queue, id: Id) {
    Dead(q, id.sequence) || (q.calling && Condemned(q, id))
  }

  /** Cancelling a living timer dooms it exactly when its add has already run in the loop. */
  lemma CancelDoomsUnlessPosted(q: Queue, id: Id)
    requires Good(q) && id.addr in q.heap && q.heap[id.addr].sequence == id.sequence
    ensures Doomed(CancelInLoop(q, id), id) <==> id.addr !in q.posted
  {
    if id in q.active {
      CancelQueuedKills(q, id);
      assert IsQueued(q, id.addr);
    } else if id.addr in q.posted {
      assert !InBatch(q, id.addr);
      var r := CancelInLoop(q, id);
      assert r.heap == q.heap && r.batch == q.batch;
    } else {
      assert !IsQueued(q, id.addr) && InBatch(q, id.addr);
    }
  }

  lemma ResetOneCondemned(q: Queue, id: Id)
    requires Placed(q) && q.batch != [] && Numbered(q) && Condemned(q, id)
    ensures if q.batch[0].addr == id.addr then Dead(ResetOne(q), id.sequence) else Condemned(ResetOne(q), id)
  {
    PopAddress(q);
    if q.batch[0].addr == id.addr {
      assert ResetOne(q) == Deleted(q);
    }
  }

  /** The reset loop deletes a timer of the batch that is in cancelingTimers_. */
  lemma {:induction false} ResetAllKillsCondemned(q: Queue, id: Id)
    requires Sound(q) && Condemned(q, id)
    ensures Dead(ResetAll(q), id.sequence)
    decreases |q.batch|
  {
    ResetOneCondemned(q, id);
    if q.batch[0].addr == id.addr {
      ResetAllKeepsDead(ResetOne(q), id.sequence);
    } else {
      ResetOneSound(q);
      ResetAllKillsCondemned(ResetOne(q), id);
    }
  }

  lemma FinishKillsCondemned(q: Queue, id: Id)
    requires Sound(q) && Condemned(q, id)
    ensures Dead(EndRead(q), id.sequence)
  {
    var c := q.(calling := false, next := 0);
    SoundDependsOn(q, c);
    ResetAllKillsCondemned(c, id);
  }

  lemma CancelSparesBatch(q: Queue, addr: nat)
    requires Indexed(q) && Placed(q) && InBatch(q, addr)
    ensures !IsQueued(q, addr) && forall other :: other in q.active ==> other.addr != addr
  {
    AddressesAt(q.batch);
  }

  lemma AddCondemned(q: Queue, addr: nat, id: Id)
    requires q.calling && Condemned(q, id)
    ensures var r := AddTimerInLoop(q, addr); r.calling && Condemned(r, id)
  {
  }

  lemma CancelCondemned(q: Queue, other: Id, id: Id)
    requires q.calling && Condemned(q, id) && forall o :: o in q.active ==> o.addr != id.addr
    ensures var r := CancelInLoop(q, other); r.calling && Condemned(r, id)
  {
  }

  lemma StepKeepsDoomed(q: Queue, e: Event, id: Id)
    requires Allowed(q, e) && Good(q) && Doomed(q, id)
    ensures Doomed(Step(q, e), id)
  {
    if Dead(q, id.sequence) {
      StepKeepsDead(q, e, id.sequence);
    } else {
      CancelSparesBatch(q, id.addr);
      hide Indexed, Placed, Numbered, AddTimerInLoop, CancelInLoop;
      match e
      case Finish => FinishKillsCondemned(q, id);
      case Add(addr) => AddCondemned(q, addr, id);
      case Cancel(other) => CancelCondemned(q, other, id);
      case _ =>
    }
  }

  /** A timer cancelled during a batch it belongs to is dead once that batch is over, so it never runs after it. */
  lemma {:induction false} DoomedDiesWithBatch(q: Queue, es: seq<Event>, id: Id)
    requires AllowedRun(q, es) && Good(q) && Doomed(q, id)
    ensures Good(Run(q, es)) && Doomed(Run(q, es), id)
    ensures !Run(q, es).calling ==> Dead(Run(q, es), id.sequence)
    decreases es
  {
    if es == [] {
    } else {
      StepGood(q, es[0]);
      StepKeepsDoomed(q, es[0], id);
      DoomedDiesWithBatch(Step(q, es[0]), es[1..], id);
    }
  }

  /** Equal but for whether id is in cancelingTimers_. */
  ghost predicate SameBut(a: Queue, b: Queue, id: Id) {
    a == b.(canceling := a.canceling) && a.canceling - {id} == b.canceling - {id}
  }

  lemma {:induction false} ResetAllSame(a: Queue, b: Queue, id: Id)
    requires SameBut(a, b, id) && Dead(b, id.sequence)
    ensures SameBut(ResetAll(a), ResetAll(b), id)
    decreases |b.batch|
  {
    if b.batch == [] {
    } else {
      ResetOneSame(a, b, id);
      ResetOneKeepsDead(b, id.sequence);
      ResetAllSame(ResetOne(a), ResetOne(b), id);
    }
  }

  lemma InsertSame(q: Queue, canceling: set<Id>, addr: nat)
    ensures Insert(q.(canceling := canceling), addr) == Insert(q, addr).(canceling := canceling)
  {
  }

  lemma ResetOneSame(a: Queue, b: Queue, id: Id)
    requires b.batch != [] && SameBut(a, b, id) && Dead(b, id.sequence)
    ensures SameBut(ResetOne(a), ResetOne(b), id)
  {
    var addr := b.batch[0].addr;
    if addr in b.heap {
      var own := Id(addr, b.heap[addr].sequence);
      assert own != id;
      assert own in a.canceling <==> own in a.canceling - {id};
      assert own in b.canceling <==> own in b.canceling - {id};
      assert Restarted(a) == Restarted(b).(canceling := a.canceling);
      InsertSame(Restarted(b), a.canceling, addr);
    }
  }

  lemma EndReadSame(a: Queue, b: Queue, id: Id)
    requires SameBut(a, b, id) && Dead(b, id.sequence)
    ensures SameBut(EndRead(a), EndRead(b), id)
  {
    ResetAllSame(a.(calling := false, next := 0), b.(calling := false, next := 0), id);
  }

  lemma CancelSame(a: Queue, b: Queue, id: Id, other: Id)
    requires SameBut(a, b, id)
    ensures SameBut(CancelInLoop(a, other), CancelInLoop(b, other), id)
  {
    assert (a.canceling + {other}) - {id} == (a.canceling - {id}) + ({other} - {id});
    assert (b.canceling + {other}) - {id} == (b.canceling - {id}) + ({other} - {id});
  }

  lemma AddSame(a: Queue, b: Queue, addr: nat, id: Id)
    requires SameBut(a, b, id)
    ensures SameBut(AddTimerInLoop(a, addr), AddTimerInLoop(b, addr), id)
  {
  }

  lemma GetExpiredSame(q: Queue, canceling: set<Id>, now: int)
    ensures GetExpired(q.(canceling := canceling), now) == GetExpired(q, now).(canceling := canceling)
  {
  }

  lemma BeginReadSame(a: Queue, b: Queue, id: Id)
    requires SameBut(a, b, id)
    ensures BeginRead(a) == BeginRead(b)
  {
    assert ReadTimerfd(a) == ReadTimerfd(b).(canceling := a.canceling);
    GetExpiredSame(ReadTimerfd(b), a.canceling, b.clock);
  }

  lemma StepSame(a: Queue, b: Queue, e: Event, id: Id)
    requires Allowed(b, e) && SameBut(a, b, id) && Dead(b, id.sequence)
    ensures Allowed(a, e) && SameBut(Step(a, e), Step(b, e), id)
  {
    match e
    case Tick(_) =>
    case New(_, _, _, _) =>
    case Add(addr) => AddSame(a, b, addr, id);
    case Cancel(other) => CancelSame(a, b, id, other);
    case Expire => BeginReadSame(a, b, id);
    case Callback =>
    case Finish => EndReadSame(a, b, id);
  }

  lemma {:induction false} RunSame(a: Queue, b: Queue, es: seq<Event>, id: Id)
    requires AllowedRun(b, es) && Good(b) && SameBut(a, b, id) && Dead(b, id.sequence)
    ensures AllowedRun(a, es) && SameBut(Run(a, es), Run(b, es), id)
    decreases es
  {
    if es == [] {
    } else {
      StepSame(a, b, es[0], id);
      StepGood(b, es[0]);
      StepKeepsDead(b, es[0], id.sequence);
      RunSame(Step(a, es[0]), Step(b, es[0]), es[1..], id);
    }
  }

  /**
   * Cancelling an id whose timer is gone changes nothing for the rest of any run, even when the address has been given
   * to another timer, except that cancelingTimers_ may hold the stale id.
   */
  lemma StaleCancelHarmless(clock: int, before: seq<Event>, id: Id, after: seq<Event>)
    requires AllowedRun(NewQueue(clock), before)
    requires Dead(Run(NewQueue(clock), before), id.sequence)
    requires AllowedRun(Run(NewQueue(clock), before), after)
    ensures var q := Run(NewQueue(clock), before);
            && AllowedRun(CancelInLoop(q, id), after)
            && SameBut(Run(CancelInLoop(q, id), after), Run(q, after), id)
  {
    var q := Run(NewQueue(clock), before);
    RunGood(NewQueue(clock), before);
    assert id !in q.active;
    assert (q.canceling + {id}) - {id} == q.canceling - {id};
    RunSame(CancelInLoop(q, id), q, after, id);
  }

  // ----- Callbacks run when due -----

  /** getExpired takes exactly the queued timers that are due. */
  lemma ExpireTakesExactlyDue(q: Queue)
    requires Good(q) && !q.calling
    ensures var r := BeginRead(q);
            forall e :: e in q.timers ==>
              (e in r.batch <==> e.when <= q.clock) && (e in r.timers <==> q.clock < e.when)
  {
    BeginReadCuts(q);
    var n := LowerBound(q.timers, Entry(q.clock, ADDRESS_MAX));
    DueOrLater(q.timers, n, q.clock);
  }

  lemma DueOrLater(timers: seq<Entry>, n: nat, now: int)
    requires n <= |timers|
    requires forall i :: 0 <= i < |timers| ==> (i < n <==> timers[i].when <= now)
    ensures forall e :: e in timers ==> (e in timers[..n] <==> e.when <= now) && (e in timers[n..] <==> now < e.when)
  {
    forall e | e in timers
      ensures (e in timers[..n] <==> e.when <= now) && (e in timers[n..] <==> now < e.when)
    {
      var i :| 0 <= i < |timers| && timers[i] == e;
      if i < n {
        assert timers[..n][i] == e;
      } else {
        assert timers[n..][i - n] == e;
      }
    }
  }

  /** Every callback that has run was due. */
  predicate Punctual(q: Queue) {
    && (forall i :: 0 <= i < |q.ran| ==> q.ran[i].when <= q.ran[i].at <= q.clock)
    && (forall i :: 0 <= i < |q.batch| ==> q.batch[i].when <= q.batchNow)
    && q.batchNow <= q.clock
  }

  lemma {:induction false} ResetAllKeepsHistory(q: Queue)
    ensures var r := ResetAll(q);
            r.ran == q.ran && r.clock == q.clock && r.batchNow == q.batchNow && r.batch == []
    decreases |q.batch|
  {
    if q.batch == [] {
    } else {
      ResetAllKeepsHistory(ResetOne(q));
    }
  }

  lemma StepPunctual(q: Queue, e: Event)
    requires Allowed(q, e) && Good(q) && Punctual(q)
    ensures Punctual(Step(q, e))
  {
    hide Indexed, Placed, Numbered;
    match e
    case Expire => BeginReadPunctual(q);
    case Callback => RunNextPunctual(q);
    case Finish => EndReadPunctual(q);
    case _ =>
  }

  lemma BeginReadPunctual(q: Queue)
    requires Sound(q) && Punctual(q)
    ensures Punctual(BeginRead(q))
  {
    BeginReadCuts(q);
  }

  lemma RunNextPunctual(q: Queue)
    requires Placed(q) && Punctual(q) && q.next < |q.batch|
    ensures Punctual(RunNext(q))
  {
  }

  lemma EndReadPunctual(q: Queue)
    requires Punctual(q)
    ensures Punctual(EndRead(q))
  {
    ResetAllKeepsHistory(q.(calling := false, next := 0));
  }

  /** No timer's callback runs before its expiration. */
  lemma {:induction false} NeverEarly(q: Queue, es: seq<Event>)
    requires AllowedRun(q, es) && Good(q) && Punctual(q)
    ensures Punctual(Run(q, es))
    decreases es
  {
    if es == [] {
    } else {
      StepGood(q, es[0]);
      StepPunctual(q, es[0]);
      NeverEarly(Step(q, es[0]), es[1..]);
    }
  }

  // ----- What a batch does -----

  /** No address twice. */
  predicate Distinct(batch: seq<Entry>) {
    batch == [] || (batch[0].addr !in Addresses(batch[1..]) && Distinct(batch[1..]))
  }

  lemma {:induction false} PlacedDistinct(batch: seq<Entry>)
    requires forall i, j :: 0 <= i < j < |batch| ==> batch[i].addr != batch[j].addr
    ensures Distinct(batch)
  {
    if batch == [] {
    } else {
      AddressesAt(batch[1..]);
      PlacedDistinct(batch[1..]);
    }
  }

  predicate SameAt(a: map<nat, Timer>, b: map<nat, Timer>, addr: nat) {
    (addr in a <==> addr in b) && (addr in a ==> a[addr] == b[addr])
  }

  lemma ResetOneSpares(q: Queue, addr: nat)
    requires q.batch != [] && q.batch[0].addr != addr
    ensures var r := ResetOne(q);
            && SameAt(q.heap, r.heap, addr)
            && r.posted == q.posted && r.canceling == q.canceling && r.batchNow == q.batchNow
  {
  }

  /** reset's loop leaves every timer outside the batch as it is. */
  lemma {:induction false} ResetAllSpares(q: Queue, addr: nat)
    requires addr !in Addresses(q.batch)
    ensures SameAt(q.heap, ResetAll(q).heap, addr)
    decreases |q.batch|
  {
    if q.batch == [] {
    } else {
      ResetOneSpares(q, addr);
      ResetAllSpares(ResetOne(q), addr);
    }
  }

  /** Restarted for one interval after the batch's time, or deleted. */
  predicate Settled(q: Queue, r: Queue, addr: nat)
    requires addr in q.heap
  {
    var t := q.heap[addr];
    if t.repeat && Id(addr, t.sequence) !in q.canceling then
      addr in r.heap && r.heap[addr] == t.(expiration := q.batchNow + t.interval)
    else addr !in r.heap
  }

  lemma {:induction false} ResetAllSettles(q: Queue, addr: nat)
    requires Distinct(q.batch) && addr in Addresses(q.batch) && addr in q.heap
    ensures Settled(q, ResetAll(q), addr)
    decreases |q.batch|
  {
    var r := ResetOne(q);
    if q.batch[0].addr != addr {
      ResetOneSpares(q, addr);
      hide ResetOne;
      ResetAllSettles(r, addr);
    } else {
      ResetOneSettles(q);
      hide ResetOne;
      ResetAllSpares(r, addr);
    }
  }

  lemma ResetOneSettles(q: Queue)
    requires q.batch != [] && q.batch[0].addr in q.heap
    ensures Settled(q, ResetOne(q), q.batch[0].addr)
  {
  }

  lemma {:induction false} ResetAllPosted(q: Queue)
    ensures ResetAll(q).posted == q.posted
    decreases |q.batch|
  {
    if q.batch == [] {
    } else {
      ResetAllPosted(ResetOne(q));
    }
  }

  /** A timer in memory that is neither posted nor in a batch is queued under its expiration. */
  lemma QueuedEntry(q: Queue, addr: nat)
    requires Indexed(q) && Placed(q) && q.batch == [] && addr in q.heap && addr !in q.posted
    ensures Entry(q.heap[addr].expiration, addr) in q.timers
  {
  }

  lemma RearmKeepsTimers(q: Queue)
    ensures Rearm(q).heap == q.heap && Rearm(q).posted == q.posted
  {
  }

  lemma EndReadSettles(q: Queue, addr: nat)
    requires Distinct(q.batch) && addr in q.heap
    ensures EndRead(q).posted == q.posted
    ensures if InBatch(q, addr) then Settled(q, EndRead(q), addr) else SameAt(q.heap, EndRead(q).heap, addr)
  {
    var c := q.(calling := false, next := 0);
    RearmKeepsTimers(ResetAll(c));
    ResetAllPosted(c);
    if InBatch(q, addr) {
      ResetAllSettles(c, addr);
    } else {
      ResetAllSpares(c, addr);
    }
  }

  lemma EndReadQueues(q: Queue, addr: nat)
    requires Sound(q) && addr in q.heap && InBatch(q, addr) && addr in EndRead(q).heap
    ensures Entry(EndRead(q).heap[addr].expiration, addr) in EndRead(q).timers
  {
    PlacedDistinct(q.batch);
    EndReadSettles(q, addr);
    EndReadSound(q);
    QueuedEntry(EndRead(q), addr);
  }

  /**
   * When a batch ends, over any run: each of its timers that repeats and was not cancelled meanwhile is queued again
   * for one interval after the batch's time; every other one is deleted; timers outside the batch are untouched.
   */
  lemma BatchSettles(clock: int, es: seq<Event>, addr: nat)
    requires AllowedRun(NewQueue(clock), es)
    requires var q := Run(NewQueue(clock), es); Allowed(q, Finish) && addr in q.heap
    ensures var q := Run(NewQueue(clock), es);
            var r := EndRead(q);
            if InBatch(q, addr) then
              && Settled(q, r, addr)
              && (addr in r.heap ==> Entry(r.heap[addr].expiration, addr) in r.timers)
            else SameAt(q.heap, r.heap, addr)
  {
    RunGood(NewQueue(clock), es);
    var q := Run(NewQueue(clock), es);
    PlacedDistinct(q.batch);
    EndReadSettles(q, addr);
    if addr in EndRead(q).heap && InBatch(q, addr) {
      EndReadQueues(q, addr);
    }
  }

  /** The callbacks of the batch's entries from i up to j. */
  function RanFrom(q: Queue, i: nat, j: nat): seq<Ran>
    requires i <= j <= |q.batch| && forall e :: e in q.batch ==> e.addr in q.heap
  {
    seq(j - i, k requires 0 <= k < j - i => var e := q.batch[i + k]; Ran(q.heap[e.addr].sequence, e.when, q.batchNow))
  }

  /** The batch, its time and its timers in memory are the same. */
  ghost predicate SameBatch(q: Queue, r: Queue) {
    && r.calling && r.batch == q.batch && r.batchNow == q.batchNow
    && forall e :: e in q.batch ==> e.addr in q.heap && e.addr in r.heap && r.heap[e.addr] == q.heap[e.addr]
  }

  lemma SameBatchTrans(q: Queue, m: Queue, r: Queue)
    requires SameBatch(q, m) && SameBatch(m, r)
    ensures SameBatch(q, r)
  {
  }

  lemma RanFromSplit(q: Queue, m: Queue, i: nat, j: nat, k: nat)
    requires SameBatch(q, m) && i <= j <= k <= |q.batch|
    ensures RanFrom(q, i, k) == RanFrom(q, i, j) + RanFrom(m, j, k)
  {
  }

  lemma BatchUnqueued(q: Queue, e: Entry)
    requires Placed(q) && e in q.batch
    ensures e.addr in q.heap && !IsQueued(q, e.addr) && q.heap[e.addr].expiration == e.when
  {
  }

  lemma StepSameBatch(q: Queue, e: Event)
    requires Allowed(q, e) && Good(q) && q.calling && !e.Finish?
    ensures SameBatch(q, Step(q, e))
  {
    var r := Step(q, e);
    forall x | x in q.batch ensures x.addr in q.heap && x.addr in r.heap && r.heap[x.addr] == q.heap[x.addr] {
      BatchUnqueued(q, x);
    }
  }

  lemma StepInBatch(q: Queue, e: Event)
    requires Allowed(q, e) && Good(q) && q.calling && !e.Finish? && q.next <= |q.batch|
    ensures var r := Step(q, e);
            && SameBatch(q, r)
            && r.next == q.next + (if e.Callback? then 1 else 0) <= |q.batch|
            && r.ran == q.ran + RanFrom(q, q.next, r.next)
  {
    StepSameBatch(q, e);
    if e.Callback? {
      BatchUnqueued(q, q.batch[q.next]);
      assert RanFrom(q, q.next, q.next + 1) == [Step(q, e).ran[|q.ran|]];
    } else {
      assert q.ran + RanFrom(q, q.next, q.next) == q.ran;
    }
  }

  predicate NoFinish(es: seq<Event>) {
    forall i :: 0 <= i < |es| ==> !es[i].Finish?
  }

  /**
   * Whatever its callbacks add and cancel, a batch runs each of its entries once, in order, with the expiration it was
   * taken for; and it can end exactly when all have run.
   */
  lemma {:induction false} BatchRunsInOrder(q: Queue, es: seq<Event>)
    requires AllowedRun(q, es) && Good(q) && NoFinish(es) && q.calling && q.next <= |q.batch|
    ensures var r := Run(q, es);
            && SameBatch(q, r) && q.next <= r.next <= |q.batch|
            && r.ran == q.ran + RanFrom(q, q.next, r.next)
            && (Allowed(r, Finish) <==> r.next == |q.batch|)
    decreases es
  {
    if es == [] {
      BatchPresent(q);
      assert q.ran + RanFrom(q, q.next, q.next) == q.ran;
    } else {
      assert !es[0].Finish?;
      var m := Step(q, es[0]);
      StepInBatch(q, es[0]);
      StepGood(q, es[0]);
      assert NoFinish(es[1..]);
      BatchRunsInOrder(m, es[1..]);
      BatchRunsOn(q, m, Run(m, es[1..]));
    }
  }

  lemma BatchPresent(q: Queue)
    requires Placed(q) && q.calling
    ensures SameBatch(q, q)
  {
    forall x | x in q.batch ensures x.addr in q.heap {
      BatchUnqueued(q, x);
    }
  }

  lemma BatchRunsOn(q: Queue, m: Queue, r: Queue)
    requires SameBatch(q, m) && SameBatch(m, r) && q.next <= m.next <= r.next <= |q.batch|
    requires m.ran == q.ran + RanFrom(q, q.next, m.next) && r.ran == m.ran + RanFrom(m, m.next, r.next)
    ensures SameBatch(q, r) && r.ran == q.ran + RanFrom(q, q.next, r.next)
  {
    SameBatchTrans(q, m, r);
    RanFromSplit(q, m, q.next, m.next, r.next);
    Assoc(q.ran, RanFrom(q, q.next, m.next), RanFrom(m, m.next, r.next));
  }

  // ----- Cancelling, in terms of what runs -----

  /** The timer with this sequence number has started a callback since the first n. */
  predicate RanSince(q: Queue, n: nat, sequence: nat) {
    exists i :: n <= i < |q.ran| && q.ran[i].sequence == sequence
  }

  predicate Living(q: Queue, id: Id) {
    id.addr in q.heap && q.heap[id.addr].sequence == id.sequence
  }

  /**
   * From any run: a living timer cancelled after its add has run in the loop, queued or in the current batch, never
   * runs again once no batch that was current at the cancel is left.
   */
  lemma CancelledRunsNoMore(clock: int, before: seq<Event>, id: Id, mid: seq<Event>, after: seq<Event>)
    requires AllowedRun(NewQueue(clock), before)
    requires var q := Run(NewQueue(clock), before); Living(q, id) && id.addr !in q.posted
    requires var c := CancelInLoop(Run(NewQueue(clock), before), id);
             AllowedRun(c, mid) && !Run(c, mid).calling && AllowedRun(Run(c, mid), after)
    ensures var m := Run(CancelInLoop(Run(NewQueue(clock), before), id), mid);
            !RanSince(Run(m, after), |m.ran|, id.sequence)
  {
    var q := Run(NewQueue(clock), before);
    RunGood(NewQueue(clock), before);
    StepGood(q, Cancel(id));
    CancelDoomsUnlessPosted(q, id);
    var c := CancelInLoop(q, id);
    DoomedDiesWithBatch(c, mid, id);
    DeadNeverRuns(Run(c, mid), after, id.sequence);
  }

  function Callbacks(n: nat): seq<Event> {
    seq(n, _ => Callback)
  }

  lemma CallbacksCons(n: nat)
    requires n > 0
    ensures Callbacks(n) == [Callback] + Callbacks(n - 1)
  {
  }

  lemma CallbacksNoFinish(n: nat)
    ensures NoFinish(Callbacks(n))
  {
  }

  /** Everything a callback leaves alone, its own calls being steps of their own. */
  predicate SameButRan(q: Queue, r: Queue) {
    && r.calling == q.calling && r.batch == q.batch && r.heap == q.heap && r.posted == q.posted && r.clock == q.clock
  }

  lemma SameButRanTrans(q: Queue, k: Queue, r: Queue)
    requires SameButRan(q, k) && SameButRan(k, r)
    ensures SameButRan(q, r)
  {
  }

  lemma CallbackStep(q: Queue)
    requires Good(q) && q.calling && q.next < |q.batch|
    ensures Allowed(q, Callback)
    ensures var r := Step(q, Callback);
            Good(r) && SameButRan(q, r) && r.next == q.next + 1 && r.calling && |r.batch| == |q.batch|
  {
    StepGood(q, Callback);
  }

  lemma RunCons(q: Queue, e: Event, es: seq<Event>)
    requires Allowed(q, e) && AllowedRun(Step(q, e), es)
    ensures AllowedRun(q, [e] + es) && Run(q, [e] + es) == Run(Step(q, e), es)
  {
    assert ([e] + es)[1..] == es;
  }

  lemma {:induction false} CallbacksAllowed(q: Queue, n: nat)
    requires Good(q) && q.calling && q.next + n <= |q.batch|
    ensures AllowedRun(q, Callbacks(n))
    ensures var r := Run(q, Callbacks(n)); Good(r) && SameButRan(q, r) && r.next == q.next + n
    decreases n
  {
    hide Good, Step, Allowed;
    if n == 0 {
      assert Callbacks(0) == [];
    } else {
      hide Run, AllowedRun, SameButRan;
      CallbackStep(q);
      var k := Step(q, Callback);
      CallbacksAllowed(k, n - 1);
      SameButRanTrans(q, k, Run(k, Callbacks(n - 1)));
      RunCons(q, Callback, Callbacks(n - 1));
      CallbacksCons(n);
    }
  }

  /** A posted timer is neither queued nor in the batch, and the end of a batch leaves it so. */
  lemma FinishSparesPosted(q: Queue, id: Id)
    requires Good(q) && Allowed(q, Finish) && Living(q, id) && id.addr in q.posted
    ensures var r := EndRead(q); Good(r) && !r.calling && Living(r, id) && id.addr in r.posted
    ensures EndRead(q).heap[id.addr] == q.heap[id.addr] && EndRead(q).clock == q.clock
  {
    StepGood(q, Finish);
    PlacedDistinct(q.batch);
    assert !InBatch(q, id.addr);
    hide Good, Sound, EndRead;
    EndReadSettles(q, id.addr);
    EndReadEnds(q);
  }

  lemma EndReadEnds(q: Queue)
    ensures !EndRead(q).calling && EndRead(q).clock == q.clock
  {
    ResetAllKeepsClock(q.(calling := false, next := 0));
  }

  lemma {:induction false} ResetAllKeepsClock(q: Queue)
    ensures ResetAll(q).clock == q.clock && ResetAll(q).calling == q.calling
    decreases |q.batch|
  {
    if q.batch == [] {
    } else {
      ResetAllKeepsClock(ResetOne(q));
    }
  }

  /** The rest of the current batch, if there is one, and its end. */
  lemma EndBatch(q: Queue, id: Id) returns (mid: seq<Event>)
    requires Good(q) && Living(q, id) && id.addr in q.posted
    ensures AllowedRun(q, mid)
    ensures var r := Run(q, mid); Good(r) && !r.calling && Living(r, id) && id.addr in r.posted
  {
    hide Good;
    mid := [];
    if q.calling {
      var n := if q.next < |q.batch| then |q.batch| - q.next else 0;
      if n == 0 {
        assert Callbacks(n) == [];
      } else {
        CallbacksAllowed(q, n);
      }
      var r := Run(q, Callbacks(n));
      FinishSparesPosted(r, id);
      assert [Finish][1..] == [];
      RunAppend(q, Callbacks(n), [Finish]);
      mid := Callbacks(n) + [Finish];
    }
  }

  lemma {:induction false} RunAppend(q: Queue, a: seq<Event>, b: seq<Event>)
    requires AllowedRun(q, a) && AllowedRun(Run(q, a), b)
    ensures AllowedRun(q, a + b) && Run(q, a + b) == Run(Run(q, a), b)
    decreases a
  {
    if a == [] {
      assert a + b == b;
    } else {
      RunAppend(Step(q, a[0]), a[1..], b);
      assert (a + b)[1..] == a[1..] + b;
    }
  }

  /** The add, then a clock at which the timer is due. */
  lemma AddThenDue(q: Queue, id: Id) returns (r: Queue)
    requires Good(q) && !q.calling && Living(q, id) && id.addr in q.posted
    ensures Allowed(q, Add(id.addr))
    ensures var a := Step(q, Add(id.addr));
            a.clock == q.clock && r == a.(clock := Max(q.clock, q.heap[id.addr].expiration))
    ensures Good(r) && !r.calling && Living(r, id) && r.ran == q.ran
    ensures Entry(r.heap[id.addr].expiration, id.addr) in r.timers && r.heap[id.addr].expiration <= r.clock
  {
    hide Indexed, Placed, Numbered;
    var a := Step(q, Add(id.addr));
    StepGood(q, Add(id.addr));
    r := a.(clock := Max(q.clock, q.heap[id.addr].expiration));
    StepGood(a, Tick(r.clock));
    QueuedEntry(r, id.addr);
  }

  /** A due timer gets a place in the next batch. */
  lemma DueBegins(q: Queue, id: Id) returns (j: nat)
    requires Good(q) && !q.calling && Living(q, id)
    requires Entry(q.heap[id.addr].expiration, id.addr) in q.timers && q.heap[id.addr].expiration <= q.clock
    ensures Allowed(q, Expire)
    ensures var b := Step(q, Expire);
            && Good(b) && b.calling && b.next == 0 && b.ran == q.ran
            && j < |b.batch| && b.batch[j].addr == id.addr && Living(b, id)
  {
    hide Indexed, Placed, Numbered;
    var e := Entry(q.heap[id.addr].expiration, id.addr);
    ExpireTakesExactlyDue(q);
    StepGood(q, Expire);
    BeginReadKeeps(q);
    var b := BeginRead(q);
    j :| 0 <= j < |b.batch| && b.batch[j] == e;
  }

  /** Calling back as far as place j of the batch runs that timer. */
  lemma CallbacksReach(b: Queue, j: nat, id: Id)
    requires Good(b) && b.calling && b.next == 0 && j < |b.batch| && b.batch[j].addr == id.addr && Living(b, id)
    ensures AllowedRun(b, Callbacks(j + 1)) && RanSince(Run(b, Callbacks(j + 1)), |b.ran|, id.sequence)
  {
    CallbacksAllowed(b, j + 1);
    CallbacksNoFinish(j + 1);
    BatchRunsInOrder(b, Callbacks(j + 1));
    var r := Run(b, Callbacks(j + 1));
    hide Good, Run, AllowedRun, Callbacks, RanSince;
    RanAppended(r, b.ran, RanFrom(b, 0, j + 1), j);
  }

  lemma RanAppended(r: Queue, before: seq<Ran>, tail: seq<Ran>, j: nat)
    requires r.ran == before + tail && j < |tail|
    ensures RanSince(r, |before|, tail[j].sequence)
  {
    assert r.ran[|before| + j] == tail[j];
  }

  /** A due timer runs in the next batch. */
  lemma DueRuns(q: Queue, id: Id) returns (es: seq<Event>)
    requires Good(q) && !q.calling && Living(q, id)
    requires Entry(q.heap[id.addr].expiration, id.addr) in q.timers && q.heap[id.addr].expiration <= q.clock
    ensures AllowedRun(q, es) && RanSince(Run(q, es), |q.ran|, id.sequence)
  {
    hide Good, Step, Allowed, RanSince;
    var j := DueBegins(q, id);
    CallbacksReach(Step(q, Expire), j, id);
    RunCons(q, Expire, Callbacks(j + 1));
    es := [Expire] + Callbacks(j + 1);
  }

  lemma BeginReadKeeps(q: Queue)
    requires Sound(q)
    ensures var b := BeginRead(q); b.heap == q.heap && b.ran == q.ran && b.calling && b.next == 0
  {
    SoundDependsOn(q, ReadTimerfd(q));
    GetExpiredCuts(ReadTimerfd(q), q.clock);
  }

  /**
   * And from any run: a living timer cancelled while its add is still posted can still run, in a batch that begins
   * after the cancel. With CancelledRunsNoMore, a cancel is lost exactly while the add is posted.
   */
  lemma PostedCancelIsLost(clock: int, before: seq<Event>, id: Id) returns (mid: seq<Event>, after: seq<Event>)
    requires AllowedRun(NewQueue(clock), before)
    requires var q := Run(NewQueue(clock), before); Living(q, id) && id.addr in q.posted
    ensures var c := CancelInLoop(Run(NewQueue(clock), before), id);
            && AllowedRun(c, mid) && !Run(c, mid).calling
            && AllowedRun(Run(c, mid), after) && RanSince(Run(Run(c, mid), after), |Run(c, mid).ran|, id.sequence)
  {
    var q := Run(NewQueue(clock), before);
    RunGood(NewQueue(clock), before);
    CancelGood(q, id);
    CancelSparesPosted(q, id);
    hide Good, RanSince, CancelInLoop, Step;
    var c := CancelInLoop(q, id);
    mid := EndBatch(c, id);
    after := PostedRuns(Run(c, mid), id);
  }

  /** Outside a batch, a posted timer runs once its add has run, the clock is due and the next batch begins. */
  lemma PostedRuns(q: Queue, id: Id) returns (es: seq<Event>)
    requires Good(q) && !q.calling && Living(q, id) && id.addr in q.posted
    ensures AllowedRun(q, es) && RanSince(Run(q, es), |q.ran|, id.sequence)
  {
    hide Good, RanSince;
    var r := AddThenDue(q, id);
    es := DueRuns(r, id);
    RunCons(Step(q, Add(id.addr)), Tick(r.clock), es);
    es := [Tick(r.clock)] + es;
    RunCons(q, Add(id.addr), es);
    es := [Add(id.addr)] + es;
  }

  lemma CancelGood(q: Queue, id: Id)
    requires Good(q)
    ensures Good(CancelInLoop(q, id))
  {
    StepGood(q, Cancel(id));
  }

  lemma CancelSparesPosted(q: Queue, id: Id)
    requires Good(q) && Living(q, id) && id.addr in q.posted
    ensures var c := CancelInLoop(q, id); Living(c, id) && id.addr in c.posted
  {
    assert !IsQueued(q, id.addr);
  }

  /** After new, a cancel and the add at time 1, the timer is queued. */
  lemma CancelledThenAdded()
    ensures var es := [New(7, 1, false, 0), Cancel(Id(7, 1)), Add(7)];
            && AllowedRun(NewQueue(1), es)
            && var q := Run(NewQueue(1), es);
               && Good(q) && !q.calling && q.ran == [] && q.clock == 1
               && q.timers == [Entry(1, 7)] && 7 in q.heap && q.heap[7].sequence == 1
  {
    var q1 := Step(NewQueue(1), New(7, 1, false, 0));
    var q2 := Step(q1, Cancel(Id(7, 1)));
    RunCons(q2, Add(7), []);
    RunCons(q1, Cancel(Id(7, 1)), [Add(7)] + []);
    RunCons(NewQueue(1), New(7, 1, false, 0), [Cancel(Id(7, 1))] + ([Add(7)] + []));
    var es := [New(7, 1, false, 0), Cancel(Id(7, 1)), Add(7)];
    assert [New(7, 1, false, 0)] + ([Cancel(Id(7, 1))] + ([Add(7)] + [])) == es;
    RunGood(NewQueue(1), es);
  }

  /** The shortest such run: cancelled before its add has run, a timer fires all the same. */
  lemma CancelBeforeAddFires()
    ensures var es := [New(7, 1, false, 0), Cancel(Id(7, 1)), Add(7)] + ([Expire] + ([Callback] + []));
            AllowedRun(NewQueue(1), es) && Run(NewQueue(1), es).ran == [Ran(1, 1, 1)]
  {
    var es := [New(7, 1, false, 0), Cancel(Id(7, 1)), Add(7)];
    CancelledThenAdded();
    var q := Run(NewQueue(1), es);
    ExpireOnly(q, Entry(1, 7));
    var b := Step(q, Expire);
    RunCons(b, Callback, []);
    RunCons(q, Expire, [Callback] + []);
    RunAppend(NewQueue(1), es, [Expire] + ([Callback] + []));
  }

  lemma ExpireOnly(q: Queue, e: Entry)
    requires Good(q) && !q.calling && q.timers == [e] && e.when <= q.clock && e.addr in q.heap
    ensures var b := BeginRead(q);
            b.batch == [e] && b.next == 0 && b.calling && b.heap == q.heap && b.ran == q.ran && b.batchNow == q.clock
    ensures q.heap[e.addr].expiration == e.when
  {
    BeginReadKeeps(q);
    BeginReadCuts(q);
    assert q.timers[0] == e && e in q.timers;
  }

  // ----- A timer as asked for -----

  /** addTimer makes exactly the timer asked for, posted, with a new sequence number, and changes nothing else. */
  lemma NewTimerAsAsked(q: Queue, addr: nat, when: int, repeat: bool, interval: nat)
    requires Allowed(q, New(addr, when, repeat, interval))
    ensures var r := Step(q, New(addr, when, repeat, interval));
            && addr in r.heap && addr in r.posted && r.created == q.created + 1
            && r.heap[addr].expiration == when && r.heap[addr].repeat == repeat && r.heap[addr].interval == interval
            && r.heap[addr].sequence == q.created + 1
            && r.heap - {addr} == q.heap && r.posted == q.posted + {addr}
            && r.timers == q.timers && r.active == q.active && r.batch == q.batch
            && r.alarm == q.alarm && r.ran == q.ran
  {
  }

  predicate SameKind(a: Timer, b: Timer) {
    a.repeat == b.repeat && a.interval == b.interval && a.sequence == b.sequence
  }

  lemma ResetOneKeepsKind(q: Queue, addr: nat)
    requires q.batch != []
    ensures var r := ResetOne(q);
            addr in r.heap ==> addr in q.heap && SameKind(q.heap[addr], r.heap[addr])
  {
  }

  lemma {:induction false} ResetAllKeepsKind(q: Queue, addr: nat)
    ensures var r := ResetAll(q);
            addr in r.heap ==> addr in q.heap && SameKind(q.heap[addr], r.heap[addr])
    decreases |q.batch|
  {
    if q.batch == [] {
    } else {
      ResetOneKeepsKind(q, addr);
      ResetAllKeepsKind(ResetOne(q), addr);
    }
  }

  lemma EndReadKeepsKind(q: Queue, addr: nat)
    ensures var r := EndRead(q);
            addr in r.heap ==> addr in q.heap && SameKind(q.heap[addr], r.heap[addr])
  {
    var c := q.(calling := false, next := 0);
    ResetAllKeepsKind(c, addr);
    RearmKeepsTimers(ResetAll(c));
  }

  /** Every timer of r was in q, of the same kind, or is the one that e made. */
  predicate HeapFrom(q: Queue, e: Event, r: Queue) {
    && q.created <= r.created
    && forall a :: a in r.heap ==>
         (a in q.heap && SameKind(q.heap[a], r.heap[a])) ||
         (e.New? && a == e.addr && r.heap[a].sequence == q.created + 1)
  }

  lemma FinishHeap(q: Queue)
    requires Numbered(q)
    ensures HeapFrom(q, Finish, EndRead(q))
  {
    var c := q.(calling := false, next := 0);
    ResetAllKeepsDead(c, 0);
    hide ResetAll, EndRead, Numbered;
    forall a | a in EndRead(q).heap ensures a in q.heap && SameKind(q.heap[a], EndRead(q).heap[a]) {
      EndReadKeepsKind(q, a);
    }
    EndReadKeepsCount(q);
  }

  lemma EndReadKeepsCount(q: Queue)
    ensures EndRead(q).created == ResetAll(q.(calling := false, next := 0)).created
  {
  }

  lemma AddHeap(q: Queue, addr: nat)
    ensures HeapFrom(q, Add(addr), AddTimerInLoop(q, addr))
  {
  }

  lemma CancelHeap(q: Queue, id: Id)
    ensures HeapFrom(q, Cancel(id), CancelInLoop(q, id))
  {
  }

  lemma ExpireHeap(q: Queue)
    requires Sound(q)
    ensures HeapFrom(q, Expire, BeginRead(q))
  {
    BeginReadKeeps(q);
    ExpireKeepsCount(q);
    hide Sound, BeginRead;
  }

  lemma StepHeap(q: Queue, e: Event)
    requires Allowed(q, e) && Good(q)
    ensures HeapFrom(q, e, Step(q, e))
  {
    hide Indexed, Placed, Numbered, EndRead, BeginRead, AddTimerInLoop, CancelInLoop;
    match e
    case Finish => FinishHeap(q);
    case Expire => ExpireHeap(q);
    case Add(addr) => AddHeap(q, addr);
    case Cancel(id) => CancelHeap(q, id);
    case _ =>
  }

  lemma ExpireKeepsCount(q: Queue)
    ensures BeginRead(q).created == q.created
  {
  }

  /** A timer that stays living keeps its interval and repeat flag; numbers are not reused, so any other is dead. */
  lemma StepKeepsKind(q: Queue, e: Event, id: Id)
    requires Allowed(q, e) && Good(q) && Living(q, id)
    ensures Living(Step(q, e), id) ==> SameKind(q.heap[id.addr], Step(q, e).heap[id.addr])
    ensures !Living(Step(q, e), id) ==> Dead(Step(q, e), id.sequence)
  {
    var r := Step(q, e);
    StepHeap(q, e);
    hide Step, Allowed, Indexed, Placed;
    assert id.sequence <= q.created;
    forall a | a in r.heap && a != id.addr ensures r.heap[a].sequence != id.sequence {
    }
  }

  lemma {:induction false} RunKeepsKind(q: Queue, es: seq<Event>, id: Id)
    requires AllowedRun(q, es) && Good(q) && Living(q, id) && Living(Run(q, es), id)
    ensures SameKind(q.heap[id.addr], Run(q, es).heap[id.addr])
    decreases es
  {
    if es == [] {
    } else {
      var r := Step(q, es[0]);
      StepGood(q, es[0]);
      StepKeepsKind(q, es[0], id);
      if Living(r, id) {
        RunKeepsKind(r, es[1..], id);
      } else {
        DeadNeverRuns(r, es[1..], id.sequence);
      }
    }
  }

  /** A step that does not end a batch holding the timer leaves it as it is, or deletes it. */
  lemma StepKeepsTimer(q: Queue, e: Event, id: Id)
    requires Allowed(q, e) && Good(q) && Living(q, id) && !(e.Finish? && InBatch(q, id.addr))
    ensures Living(Step(q, e), id) ==> Step(q, e).heap[id.addr] == q.heap[id.addr]
  {
    if e.Finish? {
      GoodDistinct(q);
      EndReadSettles(q, id.addr);
      hide EndRead, Good;
    } else if e.Expire? {
      BeginReadKeeps(q);
      hide BeginRead, Good;
    }
  }

  lemma GoodDistinct(q: Queue)
    requires Placed(q)
    ensures Distinct(q.batch)
  {
    PlacedDistinct(q.batch);
  }

  /** The timer's first batch has not ended in this run. */
  predicate FirstBatchOpen(q: Queue, es: seq<Event>, addr: nat)
    requires AllowedRun(q, es)
    decreases es
  {
    es == [] || (!(es[0].Finish? && InBatch(q, addr)) && FirstBatchOpen(Step(q, es[0]), es[1..], addr))
  }

  lemma {:induction false} RunKeepsTimer(q: Queue, es: seq<Event>, id: Id)
    requires AllowedRun(q, es) && Good(q) && Living(q, id) && Living(Run(q, es), id) && FirstBatchOpen(q, es, id.addr)
    ensures Run(q, es).heap[id.addr] == q.heap[id.addr]
    decreases es
  {
    if es == [] {
    } else {
      var r := Step(q, es[0]);
      StepGood(q, es[0]);
      StepKeepsTimer(q, es[0], id);
      StepKeepsKind(q, es[0], id);
      if Living(r, id) {
        RunKeepsTimer(r, es[1..], id);
      } else {
        DeadNeverRuns(r, es[1..], id.sequence);
      }
    }
  }

  /** cancelingTimers_ holds what was cancelled since the batch began, and nothing older. */
  lemma StepCanceling(q: Queue, e: Event, id: Id)
    requires Allowed(q, e)
    ensures id in Step(q, e).canceling ==> !e.Expire? && (id in q.canceling || (e == Cancel(id) && q.calling))
  {
    hide IdsOf, LowerBound, Insertion, Removal, HowMuchTimeFromNow;
    if e.Finish? {
      ResetAllKeepsCanceling(q.(calling := false, next := 0));
      hide ResetAll;
    }
  }

  lemma {:induction false} ResetAllKeepsCanceling(q: Queue)
    ensures ResetAll(q).canceling == q.canceling
    decreases |q.batch|
  {
    if q.batch == [] {
    } else {
      ResetAllKeepsCanceling(ResetOne(q));
    }
  }

  predicate NoCancel(es: seq<Event>, id: Id) {
    forall i :: 0 <= i < |es| ==> es[i] != Cancel(id)
  }

  lemma {:induction false} RunCanceling(q: Queue, es: seq<Event>, id: Id)
    requires AllowedRun(q, es) && Good(q) && id !in q.canceling && NoCancel(es, id)
    ensures id !in Run(q, es).canceling
    decreases es
  {
    if es == [] {
    } else {
      assert es[0] != Cancel(id);
      assert NoCancel(es[1..], id);
      StepGood(q, es[0]);
      StepCanceling(q, es[0], id);
      RunCanceling(Step(q, es[0]), es[1..], id);
    }
  }

  /** What the end of a batch at time now owes a timer of it that was not cancelled. */
  predicate Repeated(r: Queue, addr: nat, t: Timer, now: int) {
    if t.repeat then
      && addr in r.heap && r.heap[addr] == t.(expiration := now + t.interval)
      && Entry(now + t.interval, addr) in r.timers
    else addr !in r.heap
  }

  lemma FinishRepeats(b: Queue, id: Id)
    requires Good(b) && Allowed(b, Finish) && InBatch(b, id.addr) && Living(b, id) && id !in b.canceling
    ensures Repeated(Step(b, Finish), id.addr, b.heap[id.addr], b.batchNow)
  {
    hide Indexed, Placed, Numbered, EndRead;
    GoodDistinct(b);
    EndReadSettles(b, id.addr);
    if id.addr in EndRead(b).heap {
      EndReadQueues(b, id.addr);
    }
  }

  /** One batch up to its end: its time, its timers, and no cancel but those made in it. */
  lemma DuringBatch(p: Queue, during: seq<Event>, id: Id)
    requires Good(p) && Allowed(p, Expire) && Living(p, id)
    requires AllowedRun(Step(p, Expire), during) && NoFinish(during) && NoCancel(during, id)
    ensures var b := Run(Step(p, Expire), during);
            && Good(b) && b.batchNow == p.clock && id !in b.canceling
            && (InBatch(b, id.addr) ==> Living(b, id) && b.heap[id.addr] == p.heap[id.addr])
  {
    var b0 := Step(p, Expire);
    StepGood(p, Expire);
    BeginReadKeeps(p);
    BeginReadFresh(p);
    hide Good, Step, Allowed, BeginRead;
    RunGood(b0, during);
    var b := Run(b0, during);
    RunCanceling(b0, during, id);
    BatchRunsInOrder(b0, during);
    if InBatch(b, id.addr) {
      SameBatchAt(b0, b, id.addr);
    }
  }

  /** One whole batch, seen from one of its timers that is not cancelled in it. */
  lemma BatchRepeats(p: Queue, during: seq<Event>, id: Id)
    requires Good(p) && Allowed(p, Expire) && Living(p, id)
    requires AllowedRun(Step(p, Expire), during) && NoFinish(during) && NoCancel(during, id)
    requires var b := Run(Step(p, Expire), during); Allowed(b, Finish) && InBatch(b, id.addr)
    ensures Repeated(Step(Run(Step(p, Expire), during), Finish), id.addr, p.heap[id.addr], p.clock)
  {
    DuringBatch(p, during, id);
    hide Good, Step, Allowed;
    FinishRepeats(Run(Step(p, Expire), during), id);
  }

  /**
   * addTimer, from any run and through any run: until its first batch ends, a timer that still lives is exactly the one
   * asked for.
   */
  lemma TimerAsAskedFor(clock: int, before: seq<Event>, made: Event, mid: seq<Event>)
    requires AllowedRun(NewQueue(clock), before) && made.New? && Allowed(Run(NewQueue(clock), before), made)
    requires AllowedRun(Step(Run(NewQueue(clock), before), made), mid)
    ensures var n := Step(Run(NewQueue(clock), before), made);
            var p, id := Run(n, mid), Id(made.addr, n.created);
            && Good(p)
            && (Living(p, id) ==> SameKind(p.heap[id.addr], Timer(made.when, made.repeat, made.interval, n.created)))
            && (Living(p, id) && FirstBatchOpen(n, mid, made.addr) ==> p.heap[id.addr].expiration == made.when)
  {
    var q := Run(NewQueue(clock), before);
    RunGood(NewQueue(clock), before);
    StepGood(q, made);
    NewTimerAsAsked(q, made.addr, made.when, made.repeat, made.interval);
    var n := Step(q, made);
    var id := Id(made.addr, n.created);
    hide Good, Step, Allowed, FirstBatchOpen;
    RunGood(n, mid);
    if Living(Run(n, mid), id) {
      RunKeepsKind(n, mid, id);
      if FirstBatchOpen(n, mid, made.addr) {
        RunKeepsTimer(n, mid, id);
      }
    }
  }

  /**
   * And when a batch it is in ends without a cancel of it since the batch began, a timer added with repeat is queued
   * again for its interval after the batch's time, and one added without is gone.
   */
  lemma TimerRepeatsAsAskedFor(clock: int, before: seq<Event>, made: Event, mid: seq<Event>, during: seq<Event>)
    requires AllowedRun(NewQueue(clock), before) && made.New? && Allowed(Run(NewQueue(clock), before), made)
    requires AllowedRun(Step(Run(NewQueue(clock), before), made), mid)
    requires var n := Step(Run(NewQueue(clock), before), made);
             var p, id := Run(n, mid), Id(made.addr, n.created);
             && Living(p, id) && Allowed(p, Expire) && AllowedRun(Step(p, Expire), during)
             && NoFinish(during) && NoCancel(during, id)
             && Allowed(Run(Step(p, Expire), during), Finish) && InBatch(Run(Step(p, Expire), during), made.addr)
    ensures var n := Step(Run(NewQueue(clock), before), made);
            var p := Run(n, mid);
            var r := Step(Run(Step(p, Expire), during), Finish);
            var due := p.clock + made.interval;
            if made.repeat then
              && made.addr in r.heap && r.heap[made.addr] == Timer(due, true, made.interval, n.created)
              && Entry(due, made.addr) in r.timers
            else made.addr !in r.heap
  {
    hide Good, Step, Allowed, Run, AllowedRun, NoFinish, NoCancel, InBatch;
    var n := Step(Run(NewQueue(clock), before), made);
    TimerAsAskedFor(clock, before, made, mid);
    BatchRepeats(Run(n, mid), during, Id(made.addr, n.created));
  }

  lemma BeginReadFresh(q: Queue)
    requires Sound(q)
    ensures BeginRead(q).canceling == {} && BeginRead(q).batchNow == q.clock
  {
    BeginReadCuts(q);
  }

  lemma SameBatchAt(q: Queue, r: Queue, addr: nat)
    requires SameBatch(q, r) && InBatch(r, addr)
    ensures addr in q.heap && addr in r.heap && r.heap[addr] == q.heap[addr] && r.batchNow == q.batchNow
  {
    AddressesAt(q.batch);
  }

  // ----- The class -----

  class TimerQueue {
    var timers: seq<Entry>
    var active: set<Id>
    var canceling: set<Id>
    var callingExpiredTimers: bool
    var alarm: Alarm
    var heap: map<nat, Timer>
    var posted: set<nat>
    var expired: seq<Entry>
    var next: nat
    var batchNow: int
    var clock: int
    ghost var created: nat
    ghost var ran: seq<Ran>

    ghost function View(): Queue
      reads this
    {
      Queue(timers, active, canceling, callingExpiredTimers, alarm, heap, posted, expired, next, batchNow,
            clock, created, ran, false)
    }

    constructor (now: int)
      ensures View() == NewQueue(now)
    {
      timers, active, canceling, callingExpiredTimers, alarm := [], {}, {}, false, Idle;
      heap, posted, expired, next, batchNow, clock, created, ran := map[], {}, [], 0, now, now, 0, [];
    }

    method DoInsert(addr: nat) returns (earliestChanged: bool)
      requires Indexed(View()) && addr in heap && !IsQueued(View(), addr)
      modifies this`timers, this`active
      ensures View() == Insert(old(View()), addr)
      ensures earliestChanged == EarliestChanged(old(View()), heap[addr].expiration)
    {
      InsertIndexed(View(), addr);
      assert |timers| == |active|;
      var when := heap[addr].expiration;
      earliestChanged := timers == [] || when < timers[0].when;
      timers := Insertion(timers, Entry(when, addr));
      active := active + {Id(addr, heap[addr].sequence)};
    }

    method ResetTimerfdTo(expiration: int)
      modifies this`alarm
      ensures View() == ResetTimerfd(old(View()), expiration)
    {
      var ts := HowMuchTimeFromNow(expiration, clock);
      alarm := Armed(clock + ts.0 * MICROS_PER_SECOND + ts.1 / 1000, clock);
    }

    method DoAddTimerInLoop(addr: nat)
      requires Sound(View()) && addr in posted
      modifies this
      ensures View() == AddTimerInLoop(old(View()), addr)
    {
      UnpostSound(View(), addr);
      posted := posted - {addr};
      var earliestChanged := DoInsert(addr);
      if earliestChanged {
        ResetTimerfdTo(heap[addr].expiration);
      }
    }

    method DoCancelInLoop(id: Id)
      requires Sound(View())
      modifies this
      ensures View() == CancelInLoop(old(View()), id)
    {
      assert |timers| == |active|;
      if id in active {
        var e := Entry(heap[id.addr].expiration, id.addr);
        assert e in timers;
        timers := Removal(timers, e);
        heap := heap - {id.addr};
        active := active - {id};
      } else if callingExpiredTimers {
        canceling := canceling + {id};
      }
    }

    /** The loop of getExpired over the second index. */
    method EraseExpired()
      requires forall e :: e in expired ==> e.addr in heap
      modifies this`active
      ensures active == old(active) - IdsOf(expired, heap)
    {
      var i := 0;
      while i < |expired|
        invariant i <= |expired|
        invariant active == old(active) - IdsOf(expired[..i], heap)
      {
        var addr := expired[i].addr;
        assert expired[..i + 1] == expired[..i] + [expired[i]];
        assert IdsOf(expired[..i + 1], heap) == IdsOf(expired[..i], heap) + {Id(addr, heap[addr].sequence)};
        active := active - {Id(addr, heap[addr].sequence)};
        i := i + 1;
      }
      assert expired[..i] == expired;
    }

    method DoGetExpired(now: int)
      requires Sound(View())
      modifies this`timers, this`active, this`expired, this`next, this`batchNow
      ensures View() == GetExpired(old(View()), now)
    {
      GetExpiredCuts(View(), now);
      var n := LowerBound(timers, Entry(now, ADDRESS_MAX));
      CutIds(View(), n);
      expired := timers[..n];
      timers := timers[n..];
      EraseExpired();
      assert View() == Cut(old(View()), n);
      next, batchNow := 0, now;
    }

    method ReadAlarm()
      modifies this`alarm
      ensures View() == ReadTimerfd(old(View()))
    {
      if alarm.Armed? && alarm.deadline <= clock {
        alarm := Idle;
      }
    }

    /** handleRead up to its loop. */
    method DoBeginRead()
      requires Sound(View())
      modifies this
      ensures View() == BeginRead(old(View()))
    {
      ghost var q := View();
      ReadAlarm();
      ReadTimerfdSound(q);
      assert View() == ReadTimerfd(q);
      DoGetExpired(clock);
      ghost var g := View();
      assert g == GetExpired(ReadTimerfd(q), q.clock);
      callingExpiredTimers := true;
      canceling := {};
      assert View() == g.(calling := true, canceling := {});
    }

    method ResetFirst()
      requires Sound(View()) && expired != []
      modifies this`timers, this`active, this`heap, this`expired
      ensures View() == ResetOne(old(View()))
    {
      hide Indexed, Placed, Numbered;
      ghost var q := View();
      var addr := expired[0].addr;
      PopAddress(q);
      expired := expired[1..];
      if heap[addr].repeat && Id(addr, heap[addr].sequence) !in canceling {
        heap := heap[addr := heap[addr].(expiration := batchNow + heap[addr].interval)];
        assert View() == Restarted(q);
        RestartKeepsIndexed(q);
        var ignored := DoInsert(addr);
      } else {
        heap := heap - {addr};
        assert View() == Deleted(q);
      }
    }

    /** reset's loop. */
    method ResetBatch()
      requires Sound(View())
      modifies this`timers, this`active, this`heap, this`expired
      ensures View() == ResetAll(old(View()))
    {
      while expired != []
        invariant Sound(View()) && ResetAll(View()) == ResetAll(old(View()))
        decreases |expired|
      {
        ResetOneSound(View());
        ResetFirst();
      }
    }

    /** handleRead from the end of its loop. */
    method DoEndRead()
      requires Sound(View())
      modifies this
      ensures View() == EndRead(old(View()))
    {
      callingExpiredTimers := false;
      next := 0;
      SoundDependsOn(old(View()), View());
      ResetAllSound(View());
      ResetBatch();
      RearmSound(View());
      if timers != [] {
        assert timers[0] in timers;
        var nextExpire := heap[timers[0].addr].expiration;
        if nextExpire > 0 {
          ResetTimerfdTo(nextExpire);
        }
      }
    }
  }
}
