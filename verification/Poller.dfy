/** muduo/Poll.cpp: a dense array of pollfds, a map by descriptor, and an index stored in each channel. */
module Pollers {
  import opened Prelude

  const NONE_EVENT := 0

  /** The system's struct pollfd; fd is -fd-1 while the slot is ignored. */
  datatype PollFd = PollFd(fd: int, events: int, revents: int)

  /** The descriptor a slot belongs to, ignored or not. */
  function Owner(slot: PollFd): nat {
    if slot.fd < 0 then -slot.fd - 1 else slot.fd
  }

  // ----- What the poller means: for each registered descriptor, its events and whether poll(2) skips it -----

  datatype Watch = Watch(ignored: bool, events: int)

  type Watches = map<nat, Watch>

  function WatchOf(slot: PollFd): Watch {
    Watch(slot.fd < 0, slot.events)
  }

  /** updateChannel: an existing slot can become ignored but is never watched again. */
  function Updated(w: Watches, fd: nat, events: int): Watches {
    if fd in w then w[fd := Watch(w[fd].ignored || events == NONE_EVENT, events)] else w[fd := Watch(false, events)]
  }

  datatype Op = Update(fd: nat, events: int) | Remove(fd: nat)

  function Apply(w: Watches, op: Op): Watches {
    match op
    case Update(fd, events) => Updated(w, fd, events)
    case Remove(fd) => w - {fd}
  }

  function Run(w: Watches, ops: seq<Op>): Watches
    decreases ops
  {
    if ops == [] then w else Run(Apply(w, ops[0]), ops[1..])
  }

  predicate NeverRemoved(fd: nat, ops: seq<Op>) {
    forall i :: 0 <= i < |ops| ==> ops[i] != Remove(fd)
  }

  /** Some update of fd enables no event. */
  predicate Silenced(fd: nat, ops: seq<Op>) {
    exists i :: 0 <= i < |ops| && ops[i] == Update(fd, NONE_EVENT)
  }

  /** While a descriptor stays registered, it is ignored exactly if it was, or an update enabled none of its events. */
  lemma {:induction false} IgnoredExactly(w: Watches, fd: nat, ops: seq<Op>)
    requires fd in w && NeverRemoved(fd, ops)
    ensures fd in Run(w, ops) && (Run(w, ops)[fd].ignored <==> w[fd].ignored || Silenced(fd, ops))
    decreases ops
  {
    if ops == [] {
    } else {
      assert ops[0] != Remove(fd);
      assert NeverRemoved(fd, ops[1..]);
      var k := Apply(w, ops[0]);
      assert k[fd].ignored <==> w[fd].ignored || ops[0] == Update(fd, NONE_EVENT);
      SilencedCons(fd, ops);
      IgnoredExactly(k, fd, ops[1..]);
    }
  }

  lemma SilencedCons(fd: nat, ops: seq<Op>)
    requires ops != []
    ensures Silenced(fd, ops) <==> ops[0] == Update(fd, NONE_EVENT) || Silenced(fd, ops[1..])
  {
    var rest := ops[1..];
    if i :| 0 <= i < |rest| && rest[i] == Update(fd, NONE_EVENT) {
      assert ops[i + 1] == Update(fd, NONE_EVENT);
    }
    if i :| 0 <= i < |ops| && ops[i] == Update(fd, NONE_EVENT) {
      assert i > 0 ==> rest[i - 1] == Update(fd, NONE_EVENT);
    }
  }

  lemma {:induction false} RunAppend(w: Watches, a: seq<Op>, b: seq<Op>)
    ensures Run(w, a + b) == Run(Run(w, a), b)
    decreases a
  {
    if a == [] {
      assert a + b == b;
    } else {
      RunAppend(Apply(w, a[0]), a[1..], b);
      assert (a + b)[1..] == a[1..] + b;
    }
  }

  /**
   * In any run: a descriptor last added by update(fd, events) and not removed since is ignored exactly if some later
   * update enabled none of its events, whatever that adding update enabled and whatever was enabled in between.
   */
  lemma IgnoredSinceAdded(w: Watches, fd: nat, before: seq<Op>, events: int, after: seq<Op>)
    requires fd !in Run(w, before) && NeverRemoved(fd, after)
    ensures var r := Run(w, before + ([Update(fd, events)] + after));
            fd in r && (r[fd].ignored <==> Silenced(fd, after))
  {
    var added := Apply(Run(w, before), Update(fd, events));
    RunAppend(w, before, [Update(fd, events)] + after);
    assert ([Update(fd, events)] + after)[1..] == after;
    IgnoredExactly(added, fd, after);
  }

  // ----- What the assertions of updateChannel and removeChannel ask -----

  /** removeChannel: registered, no events, and ignored. updateChannel asks nothing of a fresh or registered channel. */
  predicate Allowed(w: Watches, op: Op) {
    op.Remove? ==> op.fd in w && w[op.fd] == Watch(true, NONE_EVENT)
  }

  predicate AllowedRun(w: Watches, ops: seq<Op>)
    decreases ops
  {
    ops == [] || (Allowed(w, ops[0]) && AllowedRun(Apply(w, ops[0]), ops[1..]))
  }

  lemma UpdatedThenGone(w: Watches, fd: nat, events: int)
    ensures Updated(w, fd, events) - {fd} == w - {fd}
  {
  }

  /** Disabling everything on a registered channel is all that removing it needs. */
  lemma DisabledThenRemoved(w: Watches, fd: nat)
    requires fd in w
    ensures AllowedRun(w, [Update(fd, NONE_EVENT), Remove(fd)])
    ensures Run(w, [Update(fd, NONE_EVENT), Remove(fd)]) == w - {fd}
  {
    var ops := [Update(fd, NONE_EVENT), Remove(fd)];
    assert ops[1..] == [Remove(fd)] && ops[1..][1..] == [];
    var k := Apply(w, ops[0]);
    assert AllowedRun(k, ops[1..]) && Run(k, ops[1..]) == k - {fd};
    UpdatedThenGone(w, fd, NONE_EVENT);
  }

  /** These calls of updateChannel and removeChannel lead from w to v, and each meets its assertions. */
  ghost predicate Calls(w: Watches, ops: seq<Op>, v: Watches) {
    AllowedRun(w, ops) && Run(w, ops) == v
  }

  lemma NoCalls(w: Watches)
    ensures Calls(w, [], w)
  {
  }

  lemma {:induction false} CallsAppend(w: Watches, a: seq<Op>, v: Watches, b: seq<Op>, u: Watches)
    requires Calls(w, a, v) && Calls(v, b, u)
    ensures Calls(w, a + b, u)
    decreases a
  {
    if a == [] {
      assert a + b == b;
    } else {
      CallsAppend(Apply(w, a[0]), a[1..], v, b, u);
      assert (a + b)[1..] == a[1..] + b;
    }
  }

  lemma OneUpdate(w: Watches, fd: nat, events: int)
    ensures Calls(w, [Update(fd, events)], Updated(w, fd, events))
  {
    assert [Update(fd, events)][1..] == [];
  }

  // ----- The scan for active channels -----

  /** The first n slots with positive revents, in array order. */
  function FirstActive(slots: seq<PollFd>, n: int): seq<PollFd> {
    if slots == [] || n <= 0 then []
    else if slots[0].revents > 0 then [slots[0]] + FirstActive(slots[1..], n - 1)
    else FirstActive(slots[1..], n)
  }

  function AllActive(slots: seq<PollFd>): seq<PollFd> {
    if slots == [] then []
    else (if slots[0].revents > 0 then [slots[0]] else []) + AllActive(slots[1..])
  }

  function CountActive(slots: seq<PollFd>): nat {
    if slots == [] then 0 else (if slots[|slots| - 1].revents > 0 then 1 else 0) + CountActive(slots[..|slots| - 1])
  }

  lemma {:induction false} AllActiveSnoc(slots: seq<PollFd>, slot: PollFd)
    ensures AllActive(slots + [slot]) == AllActive(slots) + if slot.revents > 0 then [slot] else []
    decreases slots
  {
    if slots == [] {
      assert slots + [slot] == [slot] && [slot][1..] == [];
    } else {
      AllActiveSnoc(slots[1..], slot);
      assert (slots + [slot])[1..] == slots[1..] + [slot];
    }
  }

  /** The i-th slot is found exactly if its revents are positive, behind the active ones before it. */
  lemma {:induction false} AllActiveAt(slots: seq<PollFd>, i: nat)
    requires i < |slots|
    ensures |AllActive(slots)| == CountActive(slots)
    ensures slots[i].revents > 0 ==>
              CountActive(slots[..i]) < |AllActive(slots)| && AllActive(slots)[CountActive(slots[..i])] == slots[i]
    decreases slots
  {
    var init, last := slots[..|slots| - 1], slots[|slots| - 1];
    AllActiveSnoc(init, last);
    assert slots == init + [last];
    if init == [] {
    } else if i < |init| {
      AllActiveAt(init, i);
      assert slots[..i] == init[..i];
    } else {
      AllActiveAt(init, 0);
    }
  }

  function Cut(slots: seq<PollFd>, n: int): seq<PollFd> {
    if n <= 0 then [] else if n < |slots| then slots[..n] else slots
  }

  lemma CutCons(slot: PollFd, rest: seq<PollFd>, n: int)
    requires n > 0
    ensures Cut([slot] + rest, n) == [slot] + Cut(rest, n - 1)
  {
  }

  lemma {:induction false} FirstActiveCuts(slots: seq<PollFd>, n: int)
    ensures FirstActive(slots, n) == Cut(AllActive(slots), n)
    decreases slots
  {
    if slots == [] || n <= 0 {
    } else if slots[0].revents > 0 {
      FirstActiveCuts(slots[1..], n - 1);
      CutCons(slots[0], AllActive(slots[1..]), n);
    } else {
      FirstActiveCuts(slots[1..], n);
      assert AllActive(slots) == AllActive(slots[1..]);
    }
  }

  /** Stopping after numEvents slots loses none exactly when numEvents covers them all. */
  lemma EarlyStopLosesNothing(slots: seq<PollFd>, n: int)
    ensures FirstActive(slots, n) <= AllActive(slots)
    ensures FirstActive(slots, n) == AllActive(slots) <==> |AllActive(slots)| <= Max(n, 0)
  {
    FirstActiveCuts(slots, n);
    hide FirstActive, AllActive;
  }

  // ----- The dense array and the indexes, as values -----

  type Indexes = map<nat, int>

  /** Slots and registered descriptors are in bijection through the index stored for each descriptor. */
  ghost predicate Bijective(slots: seq<PollFd>, index: Indexes) {
    && (forall fd :: fd in index ==> 0 <= index[fd] < |slots| && Owner(slots[index[fd]]) == fd)
    && (forall i :: 0 <= i < |slots| ==> Owner(slots[i]) in index && index[Owner(slots[i])] == i)
  }

  ghost function Meaning(slots: seq<PollFd>, index: Indexes): Watches
    requires Bijective(slots, index)
  {
    map fd | fd in index :: WatchOf(slots[index[fd]])
  }

  lemma AppendSlot(slots: seq<PollFd>, index: Indexes, fd: nat, events: int)
    requires Bijective(slots, index) && fd !in index
    ensures var s, ix := slots + [PollFd(fd, events, 0)], index[fd := |slots|];
            Bijective(s, ix) && Meaning(s, ix) == Updated(Meaning(slots, index), fd, events)
  {
    var s, ix := slots + [PollFd(fd, events, 0)], index[fd := |slots|];
    forall i | 0 <= i < |s| ensures Owner(s[i]) in ix && ix[Owner(s[i])] == i {
      assert i < |slots| ==> s[i] == slots[i];
    }
  }

  /** The new contents of an existing slot. */
  function RewrittenSlot(slot: PollFd, fd: nat, events: int): PollFd {
    PollFd(if events == NONE_EVENT then -1 - fd else slot.fd, events, 0)
  }

  lemma RewriteSlot(slots: seq<PollFd>, index: Indexes, fd: nat, events: int)
    requires Bijective(slots, index) && fd in index
    ensures var s := slots[index[fd] := RewrittenSlot(slots[index[fd]], fd, events)];
            Bijective(s, index) && Meaning(s, index) == Updated(Meaning(slots, index), fd, events)
  {
  }

  function RemovedSlot(slots: seq<PollFd>, idx: int): seq<PollFd>
    requires 0 <= idx < |slots|
  {
    slots[idx := slots[|slots| - 1]][..|slots| - 1]
  }

  /** Swap-with-last: the index of the slot that moved is repaired, ignored or not. */
  function RemovedIndex(slots: seq<PollFd>, index: Indexes, fd: nat): Indexes
    requires fd in index && 0 <= index[fd] < |slots|
  {
    var rest := map k | k in index && k != fd :: index[k];
    if index[fd] == |slots| - 1 then rest else rest[Owner(slots[|slots| - 1]) := index[fd]]
  }

  lemma RemoveKeepsSlots(slots: seq<PollFd>, index: Indexes, fd: nat)
    requires Bijective(slots, index) && fd in index
    ensures var s, ix := RemovedSlot(slots, index[fd]), RemovedIndex(slots, index, fd);
            forall k :: k in ix <==> k in index && k != fd
    ensures var s, ix := RemovedSlot(slots, index[fd]), RemovedIndex(slots, index, fd);
            forall k :: k in ix ==> 0 <= ix[k] < |s| && s[ix[k]] == slots[index[k]]
  {
    var last := |slots| - 1;
    assert Owner(slots[last]) in index && index[Owner(slots[last])] == last;
  }

  lemma RemovedAt(slots: seq<PollFd>, index: Indexes, fd: nat, i: nat)
    requires Bijective(slots, index) && fd in index && i < |slots| - 1
    ensures var s, ix := RemovedSlot(slots, index[fd]), RemovedIndex(slots, index, fd);
            Owner(s[i]) in ix && ix[Owner(s[i])] == i
  {
    var j := if i == index[fd] then |slots| - 1 else i;
    assert RemovedSlot(slots, index[fd])[i] == slots[j];
    assert Owner(slots[j]) in index && index[Owner(slots[j])] == j;
  }

  lemma RemoveSlot(slots: seq<PollFd>, index: Indexes, fd: nat)
    requires Bijective(slots, index) && fd in index
    ensures var s, ix := RemovedSlot(slots, index[fd]), RemovedIndex(slots, index, fd);
            Bijective(s, ix) && Meaning(s, ix) == Meaning(slots, index) - {fd}
  {
    RemoveBijective(slots, index, fd);
    RemoveKeepsSlots(slots, index, fd);
  }

  lemma RemoveBijective(slots: seq<PollFd>, index: Indexes, fd: nat)
    requires Bijective(slots, index) && fd in index
    ensures Bijective(RemovedSlot(slots, index[fd]), RemovedIndex(slots, index, fd))
  {
    var s, ix := RemovedSlot(slots, index[fd]), RemovedIndex(slots, index, fd);
    RemoveKeepsSlots(slots, index, fd);
    forall i | 0 <= i < |s| ensures Owner(s[i]) in ix && ix[Owner(s[i])] == i {
      RemovedAt(slots, index, fd, i);
    }
  }

  function Polled(slots: seq<PollFd>, revents: seq<int>): seq<PollFd>
    requires |revents| == |slots|
  {
    seq(|slots|, i requires 0 <= i < |slots| && |revents| == |slots| => slots[i].(revents := revents[i]))
  }

  /** poll(2) writes the revents it is given, slot by slot, and nothing else. */
  lemma PolledRevents(slots: seq<PollFd>, revents: seq<int>, i: nat)
    requires |revents| == |slots| && i < |slots|
    ensures |Polled(slots, revents)| == |slots|
    ensures Polled(slots, revents)[i] == PollFd(slots[i].fd, slots[i].events, revents[i])
  {
  }

  lemma PolledSlots(slots: seq<PollFd>, index: Indexes, revents: seq<int>)
    requires Bijective(slots, index) && |revents| == |slots|
    ensures Bijective(Polled(slots, revents), index)
    ensures Meaning(Polled(slots, revents), index) == Meaning(slots, index)
  {
    var s := Polled(slots, revents);
    assert forall i :: 0 <= i < |s| ==> Owner(s[i]) == Owner(slots[i]) && WatchOf(s[i]) == WatchOf(slots[i]);
  }

  // ----- What the channels hold, as values -----

  datatype Held = Held(events: int, revents: int, index: int)

  type Table = map<nat, Held>

  function IndexOf(t: Table): Indexes {
    map fd | fd in t :: t[fd].index
  }

  /** Every slot holds the events its channel has enabled. */
  ghost predicate Matches(w: Watches, t: Table) {
    (forall fd :: fd in w <==> fd in t) && forall fd :: fd in w ==> w[fd].events == t[fd].events
  }

  ghost predicate TableOk(slots: seq<PollFd>, t: Table) {
    Bijective(slots, IndexOf(t)) && Matches(Meaning(slots, IndexOf(t)), t)
  }

  lemma IndexOfUpdate(t: Table, fd: nat, h: Held)
    ensures IndexOf(t[fd := h]) == IndexOf(t)[fd := h.index]
  {
  }

  lemma UpdatedMatches(w: Watches, t: Table, fd: nat, h: Held)
    requires forall k :: k in w <==> k in t
    requires forall k :: k in w && k != fd ==> w[k].events == t[k].events
    ensures Matches(Updated(w, fd, h.events), t[fd := h])
  {
  }

  function Tell(t: Table, slot: PollFd): Table
    requires Owner(slot) in t
  {
    t[Owner(slot) := t[Owner(slot)].(revents := slot.revents)]
  }

  predicate AllIn(slots: seq<PollFd>, t: Table) {
    forall slot :: slot in slots ==> Owner(slot) in t
  }

  /** What the channels hold once the owner of each of these slots has been told its revents. */
  function Told(t: Table, slots: seq<PollFd>): (r: Table)
    requires AllIn(slots, t)
    ensures forall fd :: fd in t <==> fd in r
    ensures forall fd :: fd in t ==> r[fd].events == t[fd].events && r[fd].index == t[fd].index
  {
    if slots == [] then t else Tell(Told(t, slots[..|slots| - 1]), slots[|slots| - 1])
  }

  lemma ToldNone(t: Table)
    ensures Told(t, []) == t
  {
  }

  lemma ToldSnoc(t: Table, slots: seq<PollFd>, slot: PollFd)
    requires AllIn(slots, t) && Owner(slot) in t
    ensures AllIn(slots + [slot], t) && Told(t, slots + [slot]) == Tell(Told(t, slots), slot)
  {
    assert (slots + [slot])[..|slots|] == slots;
  }

  predicate DistinctOwners(slots: seq<PollFd>) {
    forall i, j :: 0 <= i < j < |slots| ==> Owner(slots[i]) != Owner(slots[j])
  }

  /** With distinct owners, every slot's owner is told that slot's revents. */
  lemma {:induction false} ToldEach(t: Table, slots: seq<PollFd>, k: nat)
    requires DistinctOwners(slots) && AllIn(slots, t) && k < |slots|
    ensures Told(t, slots)[Owner(slots[k])].revents == slots[k].revents
    decreases slots
  {
    var last := |slots| - 1;
    if k == last {
    } else {
      assert Owner(slots[k]) != Owner(slots[last]);
      ToldEach(t, slots[..last], k);
    }
  }

  /** And nobody else anything. */
  lemma {:induction false} ToldNobodyElse(t: Table, slots: seq<PollFd>, fd: nat)
    requires AllIn(slots, t) && fd in t && forall k :: 0 <= k < |slots| ==> Owner(slots[k]) != fd
    ensures Told(t, slots)[fd] == t[fd]
    decreases slots
  {
    if slots == [] {
    } else {
      ToldNobodyElse(t, slots[..|slots| - 1], fd);
    }
  }

  lemma {:induction false} FirstActiveFrom(slots: seq<PollFd>, n: int)
    ensures forall slot :: slot in FirstActive(slots, n) ==> slot in slots && slot.revents > 0
    decreases slots
  {
    if slots == [] {
    } else {
      FirstActiveFrom(slots[1..], if slots[0].revents > 0 then n - 1 else n);
    }
  }

  lemma {:induction false} FirstActiveDistinct(slots: seq<PollFd>, n: int)
    requires DistinctOwners(slots)
    ensures DistinctOwners(FirstActive(slots, n))
    decreases slots
  {
    if slots == [] || n <= 0 {
    } else {
      var m := if slots[0].revents > 0 then n - 1 else n;
      FirstActiveDistinct(slots[1..], m);
      FirstActiveFrom(slots[1..], m);
      var rest := FirstActive(slots[1..], m);
      forall k | 0 <= k < |rest| ensures Owner(rest[k]) != Owner(slots[0]) {
        assert rest[k] in slots[1..];
      }
    }
  }

  /** The scan tells the channel of each slot it finds that slot's revents, and no other channel anything. */
  lemma ScanTells(slots: seq<PollFd>, t: Table, n: int, fd: nat)
    requires TableOk(slots, t) && fd in t
    ensures AllIn(FirstActive(slots, n), t)
    ensures var found := FirstActive(slots, n);
            && (forall k :: 0 <= k < |found| && Owner(found[k]) == fd ==>
                  Told(t, found)[fd].revents == found[k].revents)
            && ((forall k :: 0 <= k < |found| ==> Owner(found[k]) != fd) ==> Told(t, found)[fd] == t[fd])
  {
    var found := FirstActive(slots, n);
    BijectiveDistinct(slots, IndexOf(t));
    hide TableOk, IndexOf, Bijective, FirstActive, Told;
    FirstActiveFrom(slots, n);
    FirstActiveDistinct(slots, n);
    forall k | 0 <= k < |found| && Owner(found[k]) == fd ensures Told(t, found)[fd].revents == found[k].revents {
      ToldEach(t, found, k);
    }
    if forall k :: 0 <= k < |found| ==> Owner(found[k]) != fd {
      ToldNobodyElse(t, found, fd);
    }
  }

  lemma BijectiveDistinct(slots: seq<PollFd>, index: Indexes)
    requires Bijective(slots, index)
    ensures DistinctOwners(slots) && forall slot :: slot in slots ==> Owner(slot) in index
  {
    forall i, j | 0 <= i < j < |slots| ensures Owner(slots[i]) != Owner(slots[j]) {
      assert index[Owner(slots[i])] == i && index[Owner(slots[j])] == j;
    }
  }

  /** Being told revents changes neither indexes nor events. */
  lemma ToldOk(slots: seq<PollFd>, t: Table, found: seq<PollFd>)
    requires TableOk(slots, t) && AllIn(found, t)
    ensures IndexOf(Told(t, found)) == IndexOf(t) && TableOk(slots, Told(t, found))
  {
    assert IndexOf(Told(t, found)) == IndexOf(t);
  }

  lemma AddedOk(slots: seq<PollFd>, t: Table, fd: nat, h: Held)
    requires TableOk(slots, t) && fd !in t && h.index == |slots|
    ensures var s, u := slots + [PollFd(fd, h.events, 0)], t[fd := h];
            TableOk(s, u) && Meaning(s, IndexOf(u)) == Updated(Meaning(slots, IndexOf(t)), fd, h.events)
  {
    AppendSlot(slots, IndexOf(t), fd, h.events);
    IndexOfUpdate(t, fd, h);
    UpdatedMatches(Meaning(slots, IndexOf(t)), t, fd, h);
  }

  /** A channel changes its events, and its slot follows. */
  lemma RewrittenOk(slots: seq<PollFd>, t: Table, fd: nat, h: Held)
    requires TableOk(slots, t) && fd in t && h.index == t[fd].index
    ensures 0 <= h.index < |slots| && Owner(slots[h.index]) == fd
    ensures var s, u := slots[h.index := RewrittenSlot(slots[h.index], fd, h.events)], t[fd := h];
            TableOk(s, u) && Meaning(s, IndexOf(u)) == Updated(Meaning(slots, IndexOf(t)), fd, h.events)
  {
    assert IndexOf(t)[fd] == h.index;
    RewriteSlot(slots, IndexOf(t), fd, h.events);
    IndexOfUpdate(t, fd, h);
    assert IndexOf(t)[fd := h.index] == IndexOf(t);
    UpdatedMatches(Meaning(slots, IndexOf(t)), t, fd, h);
  }

  /** The table once fd is gone and the channel of the last slot has been told its new index. */
  function RemovedTable(slots: seq<PollFd>, t: Table, fd: nat): Table
    requires slots != [] && fd in t
  {
    var idx, last := t[fd].index, |slots| - 1;
    if idx == last || Owner(slots[last]) !in t then t - {fd}
    else (t - {fd})[Owner(slots[last]) := t[Owner(slots[last])].(index := idx)]
  }

  lemma RemovedTableIndex(slots: seq<PollFd>, t: Table, fd: nat)
    requires Bijective(slots, IndexOf(t)) && fd in t
    ensures slots != [] && IndexOf(RemovedTable(slots, t, fd)) == RemovedIndex(slots, IndexOf(t), fd)
  {
    var last := |slots| - 1;
    assert IndexOf(t)[fd] == t[fd].index;
    assert Owner(slots[last]) in IndexOf(t);
  }

  lemma RemovedTableMatches(slots: seq<PollFd>, w: Watches, t: Table, fd: nat)
    requires slots != [] && fd in t && Matches(w, t)
    requires t[fd].index != |slots| - 1 ==> Owner(slots[|slots| - 1]) != fd
    ensures Matches(w - {fd}, RemovedTable(slots, t, fd))
  {
  }

  lemma RemovedOk(slots: seq<PollFd>, t: Table, fd: nat)
    requires TableOk(slots, t) && fd in t
    ensures 0 <= t[fd].index < |slots|
    ensures var s, u := RemovedSlot(slots, t[fd].index), RemovedTable(slots, t, fd);
            TableOk(s, u) && Meaning(s, IndexOf(u)) == Meaning(slots, IndexOf(t)) - {fd}
  {
    hide RemovedIndex, RemovedSlot, Matches;
    assert IndexOf(t)[fd] == t[fd].index;
    assert Owner(slots[t[fd].index]) == fd;
    RemoveSlot(slots, IndexOf(t), fd);
    RemovedTableIndex(slots, t, fd);
    RemovedTableMatches(slots, Meaning(slots, IndexOf(t)), t, fd);
  }

  /** The slot that removeChannel's assertions look at. */
  lemma RemovableSlot(slots: seq<PollFd>, t: Table, fd: nat)
    requires TableOk(slots, t) && Allowed(Meaning(slots, IndexOf(t)), Remove(fd))
    ensures fd in t && t[fd].events == NONE_EVENT && 0 <= t[fd].index < |slots|
    ensures var slot := slots[t[fd].index]; slot.fd == -1 - fd && slot.events == t[fd].events
    ensures t[fd].index < |slots| - 1 ==> Owner(slots[|slots| - 1]) in t && Owner(slots[|slots| - 1]) != fd
  {
    var index := IndexOf(t);
    assert index[fd] == t[fd].index && Owner(slots[index[fd]]) == fd;
    assert Owner(slots[|slots| - 1]) in index && index[Owner(slots[|slots| - 1])] == |slots| - 1;
  }

  lemma PolledOk(slots: seq<PollFd>, t: Table, revents: seq<int>)
    requires TableOk(slots, t) && |revents| == |slots|
    ensures TableOk(Polled(slots, revents), t)
    ensures Meaning(Polled(slots, revents), IndexOf(t)) == Meaning(slots, IndexOf(t))
  {
    PolledSlots(slots, IndexOf(t), revents);
  }

  lemma TableOwners(slots: seq<PollFd>, t: Table)
    requires TableOk(slots, t)
    ensures AllIn(slots, t)
  {
    BijectiveDistinct(slots, IndexOf(t));
  }

  /** The scan has found these, and the rest of its result is still ahead of it. */
  predicate Scanned(slots: seq<PollFd>, n: int, i: nat, left: int, found: seq<PollFd>) {
    i <= |slots| && found + FirstActive(slots[i..], left) == FirstActive(slots, n)
  }

  lemma ScanBegins(slots: seq<PollFd>, n: int)
    ensures Scanned(slots, n, 0, n, [])
  {
    assert slots[0..] == slots && [] + FirstActive(slots, n) == FirstActive(slots, n);
  }

  lemma ScanStep(slots: seq<PollFd>, n: int, i: nat, left: int, found: seq<PollFd>)
    requires Scanned(slots, n, i, left, found) && i < |slots| && left > 0
    ensures if slots[i].revents > 0 then Scanned(slots, n, i + 1, left - 1, found + [slots[i]])
            else Scanned(slots, n, i + 1, left, found)
  {
    assert slots[i..][1..] == slots[i + 1..];
    Assoc(found, [slots[i]], FirstActive(slots[i + 1..], left - 1));
  }

  lemma ScanEnds(slots: seq<PollFd>, n: int, i: nat, left: int, found: seq<PollFd>)
    requires Scanned(slots, n, i, left, found) && (i == |slots| || left <= 0)
    ensures found == FirstActive(slots, n)
  {
    assert found + [] == found;
  }

  // ----- The classes -----

  class Channel {
    const fd: nat
    var events: int
    var revents: int
    var index: int

    ghost function View(): Held
      reads this
    {
      Held(events, revents, index)
    }

    constructor (fd: nat)
      ensures this.fd == fd && View() == Held(NONE_EVENT, 0, -1)
    {
      this.fd := fd;
      events, revents, index := NONE_EVENT, 0, -1;
    }
  }

  class Poller {
    var pollfds: seq<PollFd>
    var channels: map<nat, Channel>

    /** What the registered channels hold. */
    ghost function Channels(): Table
      reads this`channels, channels.Values
    {
      map fd | fd in channels :: channels[fd].View()
    }

    /** Each channel stands under its own descriptor. */
    ghost predicate Keyed()
      reads this`channels
    {
      forall fd :: fd in channels ==> channels[fd].fd == fd
    }

    /** And holds the index of its own slot, which holds its events. */
    ghost predicate Valid()
      reads this, channels.Values
    {
      Keyed() && TableOk(pollfds, Channels())
    }

    ghost function View(): Watches
      reads this, channels.Values
      requires Valid()
    {
      Meaning(pollfds, IndexOf(Channels()))
    }

    constructor ()
      ensures Valid() && View() == map[]
    {
      pollfds, channels := [], map[];
    }

    /** The assertions on a channel: new to the poller, or the one registered under its descriptor. */
    ghost predicate Known(channel: Channel)
      reads this`channels, channel
    {
      if channel.index < 0 then channel.fd !in channels
      else channel.fd in channels && channels[channel.fd] == channel
    }

    /** channels_[fd] = channel, with the index of its slot. */
    method Register(channel: Channel, idx: int)
      requires Keyed() && channel.fd !in channels
      modifies this`channels, channel`index
      ensures Keyed() && channels == old(channels)[channel.fd := channel]
      ensures channel.View() == old(channel.View()).(index := idx)
      ensures Channels() == old(Channels())[channel.fd := channel.View()]
    {
      channel.index := idx;
      channels := channels[channel.fd := channel];
    }

    /** A channel not yet registered gets a new slot at the end. */
    method AddSlotFor(channel: Channel)
      requires Valid() && channel.fd !in channels
      modifies this, channel`index
      ensures Valid() && View() == Updated(old(View()), channel.fd, channel.events)
      ensures channels == old(channels)[channel.fd := channel] && channel.index == old(|pollfds|)
    {
      hide TableOk, Meaning, Updated, Bijective, IndexOf;
      AddedOk(pollfds, Channels(), channel.fd, channel.View().(index := |pollfds|));
      pollfds := pollfds + [PollFd(channel.fd, channel.events, 0)];
      Register(channel, |pollfds| - 1);
    }

    /** The new mask, seen from the table. */
    method StoreEvents(channel: Channel, events: int)
      requires Keyed() && Known(channel)
      modifies channel`events
      ensures channel.View() == old(channel.View()).(events := events)
      ensures Channels() == if channel.fd in channels then old(Channels())[channel.fd := channel.View()]
                            else old(Channels())
    {
      channel.events := events;
    }

    /** A registered channel's slot is rewritten, and ignored from now on if no event is enabled. */
    method RewriteSlotOf(channel: Channel)
      requires 0 <= channel.index < |pollfds|
      modifies this`pollfds
      ensures var was := old(pollfds)[channel.index];
              pollfds == old(pollfds)[channel.index := RewrittenSlot(was, channel.fd, channel.events)]
    {
      var idx := channel.index;
      var pfd := pollfds[idx].(events := channel.events, revents := 0);
      if channel.events == NONE_EVENT {
        pfd := pfd.(fd := -1 - channel.fd);
      }
      pollfds := pollfds[idx := pfd];
    }

    /** The channel's mask may be newer than its slot; t is what the table held when the slots last followed it. */
    method UpdateChannel(channel: Channel, ghost t: Table)
      requires Keyed() && Known(channel) && TableOk(pollfds, t)
      requires channel.fd in channels ==> channel.fd in t && t[channel.fd].index == channel.index
      requires Channels() == if channel.fd in channels then t[channel.fd := channel.View()] else t
      modifies this, channel`index
      ensures Valid() && View() == Updated(Meaning(old(pollfds), IndexOf(t)), channel.fd, channel.events)
      ensures channels == old(channels)[channel.fd := channel]
      ensures channel.index == if old(channel.index) < 0 then old(|pollfds|) else old(channel.index)
    {
      hide TableOk, Meaning, Updated, Bijective, IndexOf;
      if channel.index < 0 {
        AddSlotFor(channel);
      } else {
        RewrittenOk(pollfds, t, channel.fd, channel.View());
        RewriteSlotOf(channel);
        assert channels[channel.fd := channel] == channels;
      }
    }

    /** Channel's enableReading, enableWriting and disableWriting: a new mask, then update(). */
    method SetEvents(channel: Channel, events: int)
      requires Valid() && Known(channel)
      modifies this, channel`index, channel`events
      ensures Valid() && View() == Updated(old(View()), channel.fd, events)
      ensures channels == old(channels)[channel.fd := channel] && channel.events == events
      ensures Known(channel)
    {
      hide TableOk, Meaning, Updated, Bijective, IndexOf;
      ghost var t := Channels();
      StoreEvents(channel, events);
      UpdateChannel(channel, t);
    }

    /** Channel::disableAll: a registered channel is then as removeChannel wants it. */
    method DisableAll(channel: Channel)
      requires Valid() && Known(channel)
      modifies this, channel`index, channel`events
      ensures Valid() && View() == Updated(old(View()), channel.fd, NONE_EVENT)
      ensures channels == old(channels)[channel.fd := channel] && channel.events == NONE_EVENT
      ensures old(channel.fd in channels) ==> Known(channel) && Allowed(View(), Remove(channel.fd))
    {
      SetEvents(channel, NONE_EVENT);
    }

    /** What connectDestroyed and removeAndResetChannel do with a registered channel: disableAll, then removeChannel. */
    method DisableAndRemove(channel: Channel)
      requires Valid() && Known(channel) && channel.fd in channels
      modifies this, channels.Values`index, channel`events
      ensures Valid() && View() == old(View()) - {channel.fd}
      ensures channels == old(channels) - {channel.fd}
    {
      hide TableOk, Meaning, Updated, Bijective, IndexOf, Allowed;
      UpdatedThenGone(View(), channel.fd, NONE_EVENT);
      DisableAll(channel);
      RemoveChannel(channel);
    }

    /** A channel is told its new index. */
    method MoveTo(fd: nat, idx: int)
      requires Keyed() && fd in channels
      modifies channels.Values`index
      ensures Channels() == old(Channels())[fd := old(Channels())[fd].(index := idx)]
    {
      channels[fd].index := idx;
    }

    /** Swap with the last slot and pop, telling the channel that moved its new index. */
    method DropSlot(idx: int)
      requires Keyed() && 0 <= idx < |pollfds|
      requires idx < |pollfds| - 1 ==> Owner(pollfds[|pollfds| - 1]) in channels
      modifies this`pollfds, channels.Values`index
      ensures pollfds == RemovedSlot(old(pollfds), idx)
      ensures idx == |pollfds| ==> Channels() == old(Channels())
      ensures idx < |pollfds| ==>
                var fd := Owner(old(pollfds)[|pollfds|]);
                Channels() == old(Channels())[fd := old(Channels())[fd].(index := idx)]
    {
      var last := |pollfds| - 1;
      if idx == last {
        pollfds := pollfds[..last];
      } else {
        var channelAtEnd := pollfds[last].fd;
        pollfds := pollfds[idx := pollfds[last]][last := pollfds[idx]];
        if channelAtEnd < 0 {
          channelAtEnd := -channelAtEnd - 1;
        }
        MoveTo(channelAtEnd, idx);
        pollfds := pollfds[..last];
      }
    }

    /** After DisableAll every assertion holds. The removed channel keeps its stale index. */
    method RemoveChannel(channel: Channel)
      requires Valid() && Known(channel) && Allowed(View(), Remove(channel.fd))
      modifies this, channels.Values`index
      ensures Valid() && View() == old(View()) - {channel.fd}
      ensures channels == old(channels) - {channel.fd} && channel.index == old(channel.index)
    {
      hide TableOk, Meaning, Allowed, Bijective, IndexOf;
      ghost var slots, t := pollfds, Channels();
      RemovableSlot(slots, t, channel.fd);
      assert t[channel.fd] == channel.View();
      var idx := channel.index;
      assert 0 <= idx < |pollfds| && channel.events == NONE_EVENT;
      assert pollfds[idx].fd == -1 - channel.fd && pollfds[idx].events == channel.events;
      RemovedOk(slots, t, channel.fd);
      channels := channels - {channel.fd};
      assert Channels() == t - {channel.fd} && channel !in channels.Values;
      DropSlot(idx);
      assert Channels() == RemovedTable(slots, t, channel.fd);
    }

    /** The kernel's part of poll(2): new revents in every slot. */
    method Poll(revents: seq<int>)
      requires Valid() && |revents| == |pollfds|
      modifies this`pollfds
      ensures Valid() && View() == old(View())
      ensures pollfds == Polled(old(pollfds), revents)
    {
      hide TableOk, Meaning, Polled;
      PolledOk(pollfds, Channels(), revents);
      pollfds := Polled(pollfds, revents);
    }

    /** One slot of the scan: its channel is found and told the slot's revents. */
    method TellChannel(pfd: PollFd) returns (channel: Channel)
      requires Keyed() && pfd.fd >= 0 && pfd.fd in channels
      modifies channels.Values`revents
      ensures channel == channels[Owner(pfd)] && Channels() == Tell(old(Channels()), pfd)
    {
      channel := channels[pfd.fd];
      channel.revents := pfd.revents;
    }

    /** The channel of each slot, in order. */
    ghost predicate Owners(active: seq<Channel>, slots: seq<PollFd>)
      reads this`channels
    {
      && |active| == |slots|
      && forall k :: 0 <= k < |slots| ==> Owner(slots[k]) in channels && active[k] == channels[Owner(slots[k])]
    }

    /**
     * The channels of the first numEvents slots with positive revents, in array order, each told its slot's revents.
     * POSIX poll() gives a negative descriptor no revents, so every lookup succeeds.
     */
    method FillActiveChannels(numEvents: int) returns (active: seq<Channel>)
      requires Valid()
      requires forall i :: 0 <= i < |pollfds| && pollfds[i].fd < 0 ==> pollfds[i].revents == 0
      modifies channels.Values`revents
      ensures Valid() && View() == old(View())
      ensures Owners(active, FirstActive(pollfds, numEvents))
      ensures AllIn(FirstActive(pollfds, numEvents), old(Channels()))
      ensures Channels() == Told(old(Channels()), FirstActive(pollfds, numEvents))
    {
      hide TableOk, Meaning, Bijective, IndexOf, FirstActive, Scanned, Told;
      ghost var t := Channels();
      TableOwners(pollfds, t);
      ScanBegins(pollfds, numEvents);
      ToldNone(t);
      active := [];
      ghost var found: seq<PollFd> := [];
      var left := numEvents;
      var i := 0;
      while i < |pollfds| && left > 0
        invariant i <= |pollfds| && Scanned(pollfds, numEvents, i, left, found)
        invariant Owners(active, found)
        invariant AllIn(found, t) && Channels() == Told(t, found)
      {
        var pfd := pollfds[i];
        ScanStep(pollfds, numEvents, i, left, found);
        if pfd.revents > 0 {
          left := left - 1;
          assert pfd in pollfds;
          var channel := TellChannel(pfd);
          active := active + [channel];
          ToldSnoc(t, found, pfd);
          found := found + [pfd];
        }
        i := i + 1;
      }
      ScanEnds(pollfds, numEvents, i, left, found);
      ToldOk(pollfds, t, found);
    }
  }
}
