/** muduo/net/TcpServer.cpp with the connection lifecycle of TcpConnection.cpp: message passing between loops. */
module TcpServers {
  import opened Prelude
  import LogStreams
  import Pollers
  import C = TcpConnections

  /** What has happened to a connection, in the order it must happen. */
  datatype Milestone = Established | Closed | Erased | Destroyed

  const LIFE: seq<Milestone> := [Established, Closed, Erased, Destroyed]

  /** A channel's place in its loop's poller; Stale is a removed channel that still keeps its old index. */
  datatype Slot = Absent | Watched | Ignored | Stale

  datatype Peer = Peer(
    name: string, home: nat, state: C.State, reading: bool, writing: bool, slot: Slot, life: seq<Milestone>)

  /** A functor posted to a loop. */
  datatype Job = EstablishJob(id: nat) | EraseJob(id: nat) | DestroyJob(id: nat) | SendJob(id: nat)

  /** active holds the ready connections of the last poll not yet handled, queue the pending functors. */
  datatype Worker = Worker(active: set<nat>, queue: seq<Job>)

  /** The assertion of the source that failed, if one has. */
  datatype Fault = NoFault | WrongThread | BadState | NotErased | BadRemoval | StaleUpdate

  /** Loop 0 is the accept loop. readBit says whether kReadEvent has a bit set; nothing below depends on it. */
  datatype Server = Server(
    name: string, readBit: bool, nextId: nat, names: map<string, nat>, peers: map<nat, Peer>,
    loops: seq<Worker>, fault: Fault)

  function NewServer(name: string, readBit: bool, threads: nat): Server {
    Server(name, readBit, 1, map[], map[], seq(threads + 1, _ => Worker({}, [])), NoFault)
  }

  function ConnName(server: string, id: nat): string {
    server + "#" + LogStreams.Decimal(id)
  }

  lemma NamesDiffer(server: string, a: nat, b: nat)
    ensures ConnName(server, a) == ConnName(server, b) ==> a == b
  {
    if ConnName(server, a) == ConnName(server, b) {
      var prefix := server + "#";
      assert ConnName(server, a)[|prefix|..] == LogStreams.Decimal(a);
      assert ConnName(server, b)[|prefix|..] == LogStreams.Decimal(b);
      LogStreams.DecimalRoundTrip(a);
      LogStreams.DecimalRoundTrip(b);
    }
  }

  // ----- Handlers -----

  function SlotAfter(p: Peer, readBit: bool): Slot {
    match p.slot
    case Absent => Watched
    case Watched => if p.writing || (p.reading && readBit) then Watched else Ignored
    case Ignored => Ignored
    case Stale => Stale
  }

  /** Store the connection and tell its poller: updateChannel finds no entry for a channel already removed. */
  function Update(s: Server, id: nat, p: Peer): Server {
    if p.slot.Stale? then s.(fault := StaleUpdate)
    else s.(peers := s.peers[id := p.(slot := SlotAfter(p, s.readBit))])
  }

  function Post(s: Server, to: nat, job: Job, front: bool): Server
    requires to < |s.loops|
  {
    var q := s.loops[to].queue;
    s.(loops := s.loops[to := s.loops[to].(queue := if front then [job] + q else q + [job])])
  }

  function DoEstablish(s: Server, here: nat, id: nat): Server
    requires id in s.peers
  {
    var p := s.peers[id];
    if p.home != here then s.(fault := WrongThread)
    else if p.state != C.Connecting then s.(fault := BadState)
    else Update(s, id, p.(state := C.Connected, reading := true, life := p.life + [Established]))
  }

  function RemoveChannel(s: Server, id: nat): Server
    requires id in s.peers
  {
    var p := s.peers[id];
    if p.slot != Ignored || p.reading || p.writing then s.(fault := BadRemoval)
    else s.(peers := s.peers[id := p.(slot := Stale, life := p.life + [Destroyed])])
  }

  predicate Open(state: C.State) {
    state == C.Connected || state == C.Disconnecting
  }

  function DoDestroy(s: Server, here: nat, id: nat): Server
    requires id in s.peers
  {
    var p := s.peers[id];
    if p.home != here then s.(fault := WrongThread)
    else if !Open(p.state) then s.(fault := BadState)
    else
      var s1 := Update(s, id, p.(state := C.Disconnected, reading := false, writing := false));
      if s1.fault != NoFault then s1 else RemoveChannel(s1, id)
  }

  function RecordErased(s: Server, id: nat): Server
    requires id in s.peers
  {
    var p := s.peers[id];
    s.(names := s.names - {p.name}, peers := s.peers[id := p.(life := p.life + [Erased])])
  }

  /** removeConnectionInLoop. */
  function DoErase(s: Server, here: nat, id: nat): Server
    requires id in s.peers && s.peers[id].home < |s.loops|
  {
    var p := s.peers[id];
    if here != 0 then s.(fault := WrongThread)
    else if p.name !in s.names then s.(fault := NotErased)
    else if p.home == here then DoDestroy(RecordErased(s, id), here, id)
    else Post(RecordErased(s, id), p.home, DestroyJob(id), false)
  }

  function RecordClosed(s: Server, id: nat): Server
    requires id in s.peers
  {
    var p := s.peers[id];
    Update(s, id, p.(reading := false, writing := false, life := p.life + [Closed]))
  }

  /** handleClose, whose callback is removeConnection. */
  function DoClose(s: Server, here: nat, id: nat): Server
    requires |s.loops| > 0 && id in s.peers && s.peers[id].home < |s.loops|
  {
    var p := s.peers[id];
    if p.home != here then s.(fault := WrongThread)
    else if !Open(p.state) then s.(fault := BadState)
    else
      var s1 := RecordClosed(s, id);
      if s1.fault != NoFault then s1
      else if here == 0 then DoErase(s1, here, id)
      else Post(s1, 0, EraseJob(id), false)
  }

  /** sendInLoop, as far as the channel goes: bytes left over enable writing. */
  function DoSend(s: Server, here: nat, id: nat, unfinished: bool): Server
    requires id in s.peers
  {
    var p := s.peers[id];
    if p.home != here then s.(fault := WrongThread)
    else if unfinished && !p.writing then Update(s, id, p.(writing := true))
    else s
  }

  /** handleWrite, as far as the channel goes: an emptied buffer disables writing. */
  function DoWrite(s: Server, here: nat, id: nat, emptied: bool): Server
    requires id in s.peers
  {
    var p := s.peers[id];
    if p.home != here then s.(fault := WrongThread)
    else if p.writing && emptied then Update(s, id, p.(writing := false))
    else s
  }

  /** What poll(2) and the system calls of one handleEvent report. */
  datatype Ready = Ready(hangup: bool, input: bool, output: bool, eof: bool, emptied: bool)

  /** Channel::handleEvent: the close callback, then the read callback and return, else the write callback. */
  function DoHandle(s: Server, here: nat, id: nat, r: Ready): Server
    requires |s.loops| > 0 && id in s.peers && s.peers[id].home < |s.loops|
  {
    var s1 := if r.hangup && !r.input then DoClose(s, here, id) else s;
    if s1.fault != NoFault then s1
    else if r.input then (if r.eof then DoClose(s1, here, id) else s1)
    else if r.output then DoWrite(s1, here, id, r.emptied)
    else s1
  }

  /** newConnection with the loop its connection is given to. */
  function DoAccept(s: Server, home: nat): Server
    requires home < |s.loops|
  {
    var s1 := AddPeer(s, home);
    if home == 0 then DoEstablish(s1, 0, s.nextId) else Post(s1, home, EstablishJob(s.nextId), false)
  }

  function AddPeer(s: Server, home: nat): Server {
    var name := ConnName(s.name, s.nextId);
    s.(nextId := s.nextId + 1, names := s.names[name := s.nextId],
       peers := s.peers[s.nextId := Peer(name, home, C.Connecting, false, false, Absent, [])])
  }

  // ----- The machine -----

  datatype Event =
    | Accept(home: nat)
    | Poll(l: nat, ready: set<nat>)
    | Handle(l: nat, id: nat, r: Ready)
    | RunJob(l: nat, unfinished: bool)
    | OwnSend(id: nat, unfinished: bool)
    | ForeignSend(id: nat)
    | Shutdown(id: nat)

  /**
   * Loops take their steps in any interleaving; each handles every ready channel before it runs functors or polls
   * again, and poll(2) reports nothing for an ignored descriptor. Users may send and shut down at any moment.
   */
  predicate Allowed(s: Server, e: Event) {
    && s.fault == NoFault
    && match e
       case Accept(home) => home < |s.loops|
       case Poll(l, ready) =>
         && l < |s.loops| && s.loops[l].active == {}
         && forall id :: id in ready ==> id in s.peers && s.peers[id].home == l && s.peers[id].slot == Watched
       case Handle(l, id, _) =>
         l < |s.loops| && id in s.loops[l].active && id in s.peers && s.peers[id].home < |s.loops|
       case RunJob(l, _) =>
         && l < |s.loops| && s.loops[l].active == {} && s.loops[l].queue != []
         && var id := s.loops[l].queue[0].id; id in s.peers && s.peers[id].home < |s.loops|
       case OwnSend(id, _) => id in s.peers
       case ForeignSend(id) => id in s.peers && s.peers[id].home < |s.loops|
       case Shutdown(id) => id in s.peers
  }

  function Unready(s: Server, l: nat, id: nat): Server
    requires l < |s.loops|
  {
    s.(loops := s.loops[l := s.loops[l].(active := s.loops[l].active - {id})])
  }

  function Popped(s: Server, l: nat): Server
    requires l < |s.loops| && s.loops[l].queue != []
  {
    s.(loops := s.loops[l := s.loops[l].(queue := s.loops[l].queue[1..])])
  }

  function DoJob(s: Server, l: nat, job: Job, unfinished: bool): Server
    requires job.id in s.peers && s.peers[job.id].home < |s.loops|
  {
    match job
    case EstablishJob(id) => DoEstablish(s, l, id)
    case EraseJob(id) => DoErase(s, l, id)
    case DestroyJob(id) => DoDestroy(s, l, id)
    case SendJob(id) => DoSend(s, l, id, unfinished)
  }

  function Step(s: Server, e: Event): Server
    requires Allowed(s, e)
  {
    match e
    case Accept(home) => DoAccept(s, home)
    case Poll(l, ready) => s.(loops := s.loops[l := s.loops[l].(active := ready)])
    case Handle(l, id, r) => DoHandle(Unready(s, l, id), l, id, r)
    case RunJob(l, unfinished) => DoJob(Popped(s, l), l, s.loops[l].queue[0], unfinished)
    case OwnSend(id, unfinished) =>
      if s.peers[id].state == C.Connected then DoSend(s, s.peers[id].home, id, unfinished) else s
    case ForeignSend(id) =>
      if s.peers[id].state == C.Connected then Post(s, s.peers[id].home, SendJob(id), false) else s
    case Shutdown(id) =>
      if s.peers[id].state == C.Connected then s.(peers := s.peers[id := s.peers[id].(state := C.Disconnecting)]) else s
  }

  predicate AllowedRun(s: Server, es: seq<Event>)
    decreases es
  {
    es == [] || (Allowed(s, es[0]) && AllowedRun(Step(s, es[0]), es[1..]))
  }

  function Run(s: Server, es: seq<Event>): Server
    requires AllowedRun(s, es)
    decreases es
  {
    if es == [] then s else Run(Step(s, es[0]), es[1..])
  }

  // ----- The invariant -----

  /** The connection's fields agree with how far its life has come. */
  predicate PeerOk(p: Peer) {
    && p.life <= LIFE
    && (|p.life| == 0 ==> p.state == C.Connecting && p.slot == Absent && !p.reading && !p.writing)
    && (|p.life| == 1 ==> Open(p.state) && p.reading && (p.slot == Watched || p.slot == Ignored))
    && (2 <= |p.life| <= 3 ==> Open(p.state) && p.slot == Ignored && !p.reading)
    && (|p.life| == 4 ==> p.state == C.Disconnected && p.slot == Stale && !p.reading && !p.writing)
  }

  predicate PeersOk(s: Server) {
    forall id :: id in s.peers ==>
      PeerOk(s.peers[id]) && id < s.nextId && s.peers[id].home < |s.loops| && s.peers[id].name == ConnName(s.name, id)
  }

  /** The map holds a connection under its own name from newConnection until it is erased. */
  predicate NamesOk(s: Server) {
    && (forall n :: n in s.names ==> s.names[n] in s.peers && s.peers[s.names[n]].name == n)
    && (forall id :: id in s.peers ==> (s.peers[id].name in s.names <==> |s.peers[id].life| < 3))
  }

  /** The loop and the stage at which a lifecycle functor is waiting. */
  predicate Waits(p: Peer, l: nat, job: Job) {
    match job
    case EstablishJob(_) => l == p.home && |p.life| == 0
    case EraseJob(_) => l == 0 && |p.life| == 2
    case DestroyJob(_) => l == p.home && |p.life| == 3
    case SendJob(_) => false
  }

  function Count(q: seq<Job>, job: Job): nat {
    if q == [] then 0 else (if q[0] == job then 1 else 0) + Count(q[1..], job)
  }

  function Due(peers: map<nat, Peer>, l: nat, job: Job): nat {
    if job.id in peers && Waits(peers[job.id], l, job) then 1 else 0
  }

  /** Each connection's next lifecycle functor is posted exactly once, in its loop, and no other is posted anywhere. */
  ghost predicate JobsOk(peers: map<nat, Peer>, loops: seq<Worker>) {
    forall l, job: Job :: 0 <= l < |loops| && !job.SendJob? ==> Count(loops[l].queue, job) == Due(peers, l, job)
  }

  /** A posted send waits in its connection's loop, behind the establishing. */
  predicate SendsOk(peers: map<nat, Peer>, loops: seq<Worker>) {
    forall l, job: Job :: 0 <= l < |loops| && job in loops[l].queue ==>
      job.id in peers && (job.SendJob? ==> peers[job.id].home == l && |peers[job.id].life| > 0)
  }

  predicate ActiveOk(peers: map<nat, Peer>, loops: seq<Worker>) {
    forall l, id :: 0 <= l < |loops| && id in loops[l].active ==>
      id in peers && peers[id].home == l && |peers[id].life| == 1
  }

  predicate TablesOk(s: Server) {
    PeersOk(s) && NamesOk(s) && SendsOk(s.peers, s.loops) && ActiveOk(s.peers, s.loops)
  }

  ghost predicate Sound(s: Server) {
    |s.loops| > 0 && TablesOk(s) && JobsOk(s.peers, s.loops)
  }

  // ----- The queues, functor by functor -----

  lemma {:induction false} CountSnoc(q: seq<Job>, job: Job, j: Job)
    ensures Count(q + [job], j) == Count(q, j) + (if j == job then 1 else 0)
  {
    if q == [] {
      assert q + [job] == [job];
    } else {
      CountSnoc(q[1..], job, j);
      assert (q + [job])[1..] == q[1..] + [job];
    }
  }

  lemma PostCounts(s: Server, l: nat, job: Job, front: bool, k: nat, j: Job)
    requires l < |s.loops| && k < |s.loops|
    ensures Count(Post(s, l, job, front).loops[k].queue, j) ==
            Count(s.loops[k].queue, j) + (if k == l && j == job then 1 else 0)
  {
    CountSnoc(s.loops[l].queue, job, j);
    assert ([job] + s.loops[l].queue)[1..] == s.loops[l].queue;
  }

  /** At this stage no functor of the connection is posted. */
  predicate Idle(peers: map<nat, Peer>, id: nat) {
    id in peers ==> |peers[id].life| == 1 || |peers[id].life| > 3
  }

  /** Taking the functor a connection waits for leaves it without one. */
  lemma TakeJob(s: Server, l: nat, job: Job, p: Peer)
    requires l < |s.loops| && !job.SendJob? && JobsOk(s.peers, Post(s, l, job, true).loops)
    requires Idle(map[job.id := p], job.id)
    ensures job.id in s.peers && Waits(s.peers[job.id], l, job)
    ensures JobsOk(s.peers[job.id := p], s.loops)
  {
    var t := Post(s, l, job, true);
    PostCounts(s, l, job, true, l, job);
    assert Count(t.loops[l].queue, job) == Due(s.peers, l, job);
    var peers := s.peers[job.id := p];
    forall k, j: Job | 0 <= k < |s.loops| && !j.SendJob? ensures Count(s.loops[k].queue, j) == Due(peers, k, j) {
      PostCounts(s, l, job, true, k, j);
      assert Count(t.loops[k].queue, j) == Due(s.peers, k, j);
      assert map[job.id := p][job.id] == p;
    }
  }

  /** Posting the functor that goes with a connection's new stage. */
  lemma GiveJob(s: Server, l: nat, job: Job, p: Peer, front: bool)
    requires l < |s.loops| && Waits(p, l, job) && JobsOk(s.peers, s.loops) && Idle(s.peers, job.id)
    ensures JobsOk(s.peers[job.id := p], Post(s, l, job, front).loops)
  {
    var t := Post(s, l, job, front);
    var peers := s.peers[job.id := p];
    forall k, j: Job | 0 <= k < |s.loops| && !j.SendJob? ensures Count(t.loops[k].queue, j) == Due(peers, k, j) {
      PostCounts(s, l, job, front, k, j);
      assert Count(s.loops[k].queue, j) == Due(s.peers, k, j);
    }
  }

  /** A change that leaves a connection's stage and loop alone. */
  lemma SameJobs(peers: map<nat, Peer>, loops: seq<Worker>, id: nat, p: Peer)
    requires JobsOk(peers, loops)
    requires id in peers && (p.home == peers[id].home && |p.life| == |peers[id].life|)
    ensures JobsOk(peers[id := p], loops)
  {
    forall l, j: Job | 0 <= l < |loops| && !j.SendJob? ensures Count(loops[l].queue, j) == Due(peers[id := p], l, j) {
      assert Count(loops[l].queue, j) == Due(peers, l, j);
    }
  }

  lemma PostSends(s: Server, l: nat, job: Job, front: bool)
    requires l < |s.loops| && !job.SendJob?
    ensures SendsOk(s.peers, Post(s, l, job, front).loops) <==> SendsOk(s.peers, s.loops) && job.id in s.peers
  {
    var t := Post(s, l, job, front);
    assert forall k, j :: 0 <= k < |s.loops| && j in s.loops[k].queue ==> j in t.loops[k].queue;
    assert job in t.loops[l].queue;
  }

  lemma PostActive(s: Server, l: nat, job: Job, front: bool)
    requires l < |s.loops|
    ensures ActiveOk(s.peers, Post(s, l, job, front).loops) <==> ActiveOk(s.peers, s.loops)
  {
    var t := Post(s, l, job, front);
    assert forall k :: 0 <= k < |s.loops| ==> t.loops[k].active == s.loops[k].active;
  }

  lemma PostTables(s: Server, l: nat, job: Job, front: bool)
    requires l < |s.loops| && !job.SendJob?
    ensures TablesOk(Post(s, l, job, front)) <==> TablesOk(s) && job.id in s.peers
  {
    PostSends(s, l, job, front);
    PostActive(s, l, job, front);
    assert PeersOk(Post(s, l, job, front)) <==> PeersOk(s);
    assert NamesOk(Post(s, l, job, front)) <==> NamesOk(s);
  }

  // ----- The next state of one connection -----

  predicate Unlisted(loops: seq<Worker>, id: nat) {
    forall l :: 0 <= l < |loops| ==> id !in loops[l].active
  }

  predicate Follows(s: Server, id: nat, p: Peer) {
    && id in s.peers && PeerOk(p) && p.home == s.peers[id].home && p.name == s.peers[id].name
    && |p.life| > 0 && (|p.life| == 1 || Unlisted(s.loops, id))
  }

  lemma NextPeers(s: Server, id: nat, p: Peer)
    requires PeersOk(s) && Follows(s, id, p)
    ensures PeersOk(s.(peers := s.peers[id := p]))
  {
  }

  lemma NextNames(s: Server, id: nat, p: Peer)
    requires NamesOk(s) && Follows(s, id, p) && (|p.life| < 3 <==> |s.peers[id].life| < 3)
    ensures NamesOk(s.(peers := s.peers[id := p]))
  {
    var t := s.(peers := s.peers[id := p]);
    assert forall k :: k in s.peers ==> k in t.peers && t.peers[k].name == s.peers[k].name;
  }

  lemma NextLoops(s: Server, id: nat, p: Peer)
    requires SendsOk(s.peers, s.loops) && ActiveOk(s.peers, s.loops) && Follows(s, id, p)
    ensures SendsOk(s.peers[id := p], s.loops) && ActiveOk(s.peers[id := p], s.loops)
  {
  }

  lemma NextTables(s: Server, id: nat, p: Peer)
    requires TablesOk(s) && Follows(s, id, p) && (|p.life| < 3 <==> |s.peers[id].life| < 3)
    ensures TablesOk(s.(peers := s.peers[id := p]))
  {
    NextPeers(s, id, p);
    NextNames(s, id, p);
    NextLoops(s, id, p);
  }

  lemma OnlyOpenActive(s: Server, id: nat)
    requires ActiveOk(s.peers, s.loops) && id in s.peers && |s.peers[id].life| != 1
    ensures Unlisted(s.loops, id)
  {
  }

  /** A change within one stage. */
  lemma SameStage(s: Server, id: nat, p: Peer)
    requires Sound(s) && id in s.peers && PeerOk(p)
    requires p.life == s.peers[id].life && p.home == s.peers[id].home && p.name == s.peers[id].name && |p.life| > 0
    ensures Sound(s.(peers := s.peers[id := p]))
  {
    if |p.life| != 1 {
      OnlyOpenActive(s, id);
    }
    NextTables(s, id, p);
    SameJobs(s.peers, s.loops, id, p);
  }

  // ----- Establishing, destroying, erasing, closing, accepting -----

  lemma Establishes(s: Server, l: nat, id: nat)
    requires id in s.peers && PeerOk(s.peers[id]) && |s.peers[id].life| == 0 && s.peers[id].home == l
    ensures var p := s.peers[id].(state := C.Connected, reading := true, slot := Watched, life := LIFE[..1]);
            DoEstablish(s, l, id) == s.(peers := s.peers[id := p]) && PeerOk(p)
  {
    assert s.peers[id].life + [Established] == LIFE[..1];
  }

  lemma EstablishSound(s: Server, l: nat, id: nat)
    requires l < |s.loops| && Sound(Post(s, l, EstablishJob(id), true))
    ensures id in s.peers && Sound(DoEstablish(s, l, id)) && DoEstablish(s, l, id).fault == s.fault
  {
    PostTables(s, l, EstablishJob(id), true);
    var p := s.peers[id].(state := C.Connected, reading := true, slot := Watched, life := LIFE[..1]);
    TakeJob(s, l, EstablishJob(id), p);
    Establishes(s, l, id);
    NextTables(s, id, p);
    var t := DoEstablish(s, l, id);
    assert TablesOk(t) && JobsOk(t.peers, t.loops);
  }

  lemma Destroys(s: Server, l: nat, id: nat)
    requires id in s.peers && PeerOk(s.peers[id]) && |s.peers[id].life| == 3 && s.peers[id].home == l
    requires s.fault == NoFault
    ensures var p :=
              s.peers[id].(state := C.Disconnected, reading := false, writing := false, slot := Stale, life := LIFE);
            DoDestroy(s, l, id) == s.(peers := s.peers[id := p]) && PeerOk(p)
  {
    assert s.peers[id].life == LIFE[..3];
    assert LIFE[..3] + [Destroyed] == LIFE;
    var shut := s.peers[id].(state := C.Disconnected, reading := false, writing := false);
    var p := shut.(slot := Stale, life := LIFE);
    assert s.peers[id := shut][id := p] == s.peers[id := p];
  }

  lemma DestroySound(s: Server, l: nat, id: nat)
    requires l < |s.loops| && s.fault == NoFault && Sound(Post(s, l, DestroyJob(id), true))
    ensures id in s.peers && Sound(DoDestroy(s, l, id)) && DoDestroy(s, l, id).fault == s.fault
  {
    PostTables(s, l, DestroyJob(id), true);
    var p := s.peers[id].(state := C.Disconnected, reading := false, writing := false, slot := Stale, life := LIFE);
    TakeJob(s, l, DestroyJob(id), p);
    Destroys(s, l, id);
    OnlyOpenActive(s, id);
    NextTables(s, id, p);
    var t := DoDestroy(s, l, id);
    assert TablesOk(t) && JobsOk(t.peers, t.loops);
  }

  lemma ErasedNames(s: Server, id: nat)
    requires PeersOk(s) && NamesOk(s) && id in s.peers && |s.peers[id].life| == 2
    ensures s.peers[id].name in s.names && NamesOk(RecordErased(s, id))
  {
    var t := RecordErased(s, id);
    forall k | k in s.peers && k != id ensures s.peers[k].name != s.peers[id].name {
      NamesDiffer(s.name, k, id);
    }
    assert forall k :: k in s.peers ==> k in t.peers && t.peers[k].name == s.peers[k].name;
  }

  lemma ErasedTables(s: Server, id: nat)
    requires TablesOk(s) && id in s.peers && |s.peers[id].life| == 2
    ensures s.peers[id].name in s.names && TablesOk(RecordErased(s, id))
  {
    var p := RecordErased(s, id).peers[id];
    assert s.peers[id].life == LIFE[..2] && p.life == LIFE[..3];
    OnlyOpenActive(s, id);
    NextPeers(s, id, p);
    ErasedNames(s, id);
    NextLoops(s, id, p);
  }

  lemma ErasedJobs(s: Server, id: nat, front: bool)
    requires |s.loops| > 0 && PeersOk(s) && JobsOk(s.peers, Post(s, 0, EraseJob(id), true).loops)
    ensures id in s.peers && s.peers[id].home < |s.loops| && |s.peers[id].life| == 2
    ensures var t := Post(RecordErased(s, id), s.peers[id].home, DestroyJob(id), front); JobsOk(t.peers, t.loops)
  {
    var idle := Peer("", 0, C.Connected, false, false, Watched, LIFE[..1]);
    TakeJob(s, 0, EraseJob(id), idle);
    var p := RecordErased(s, id).peers[id];
    GiveJob(s.(peers := s.peers[id := idle]), p.home, DestroyJob(id), p, front);
    assert s.peers[id := idle][id := p] == s.peers[id := p];
  }

  lemma ErasedSound(s: Server, id: nat, front: bool)
    requires |s.loops| > 0 && Sound(Post(s, 0, EraseJob(id), true))
    ensures id in s.peers && s.peers[id].home < |s.loops| && s.peers[id].name in s.names
    ensures Sound(Post(RecordErased(s, id), s.peers[id].home, DestroyJob(id), front))
  {
    PostTables(s, 0, EraseJob(id), true);
    ErasedJobs(s, id, front);
    ErasedTables(s, id);
    PostTables(RecordErased(s, id), s.peers[id].home, DestroyJob(id), front);
  }

  lemma EraseSound(s: Server, id: nat)
    requires |s.loops| > 0 && s.fault == NoFault && Sound(Post(s, 0, EraseJob(id), true))
    ensures id in s.peers && s.peers[id].home < |s.loops|
    ensures Sound(DoErase(s, 0, id)) && DoErase(s, 0, id).fault == s.fault
  {
    ErasedSound(s, id, true);
    ErasedSound(s, id, false);
    if s.peers[id].home == 0 {
      DestroySound(RecordErased(s, id), 0, id);
    }
  }

  lemma Closes(s: Server, id: nat)
    requires id in s.peers && PeerOk(s.peers[id]) && |s.peers[id].life| == 1
    ensures var p := s.peers[id].(reading := false, writing := false, slot := Ignored, life := LIFE[..2]);
            RecordClosed(s, id) == s.(peers := s.peers[id := p]) && PeerOk(p)
  {
    assert s.peers[id].life == LIFE[..1];
    assert LIFE[..1] + [Closed] == LIFE[..2];
  }

  lemma CloseSound(s: Server, here: nat, id: nat)
    requires Sound(s) && s.fault == NoFault && id in s.peers && s.peers[id].home == here < |s.loops|
    requires |s.peers[id].life| == 1 && Unlisted(s.loops, id)
    ensures Sound(DoClose(s, here, id)) && DoClose(s, here, id).fault == NoFault
  {
    Closes(s, id);
    var t := RecordClosed(s, id);
    NextTables(s, id, t.peers[id]);
    GiveJob(s, 0, EraseJob(id), t.peers[id], here == 0);
    PostTables(t, 0, EraseJob(id), here == 0);
    var u := Post(t, 0, EraseJob(id), here == 0);
    assert TablesOk(u) && JobsOk(u.peers, u.loops);
    if here == 0 {
      EraseSound(t, id);
    }
  }

  lemma AddedNames(s: Server, home: nat)
    requires PeersOk(s) && NamesOk(s)
    ensures NamesOk(AddPeer(s, home))
  {
    forall n | n in s.names ensures n != ConnName(s.name, s.nextId) {
      NamesDiffer(s.name, s.names[n], s.nextId);
    }
    forall k | k in s.peers ensures s.peers[k].name != ConnName(s.name, s.nextId) {
      NamesDiffer(s.name, k, s.nextId);
    }
  }

  lemma AddedTables(s: Server, home: nat)
    requires TablesOk(s) && home < |s.loops|
    ensures s.nextId !in s.peers && TablesOk(AddPeer(s, home))
  {
    AddedNames(s, home);
    AddedPeers(s, home);
    AddedLoops(s, home);
    hide PeersOk, NamesOk, SendsOk, ActiveOk;
    assert TablesOk(AddPeer(s, home));
  }

  lemma AddedPeers(s: Server, home: nat)
    requires PeersOk(s) && home < |s.loops|
    ensures s.nextId !in s.peers && PeersOk(AddPeer(s, home))
  {
  }

  lemma AddedLoops(s: Server, home: nat)
    requires PeersOk(s) && SendsOk(s.peers, s.loops) && ActiveOk(s.peers, s.loops)
    ensures var t := AddPeer(s, home); SendsOk(t.peers, t.loops) && ActiveOk(t.peers, t.loops)
  {
    var t := AddPeer(s, home);
    assert s.nextId !in s.peers;
    assert forall k :: k in s.peers ==> k in t.peers && t.peers[k] == s.peers[k];
  }

  lemma AcceptSound(s: Server, home: nat)
    requires Sound(s) && home < |s.loops|
    ensures Sound(DoAccept(s, home)) && DoAccept(s, home).fault == s.fault
  {
    var t, job := AddPeer(s, home), EstablishJob(s.nextId);
    AddedTables(s, home);
    GiveJob(s, home, job, t.peers[s.nextId], home == 0);
    PostTables(t, home, job, home == 0);
    var u := Post(t, home, job, home == 0);
    assert TablesOk(u) && JobsOk(u.peers, u.loops);
    if home == 0 {
      EstablishSound(t, 0, s.nextId);
    }
  }

  // ----- Every step keeps it -----

  /** A posted send that could not write everything, run after its connection was destroyed. */
  predicate Strands(s: Server, e: Event)
    requires Allowed(s, e)
  {
    e.RunJob? && e.unfinished
    && var job := s.loops[e.l].queue[0]; job.SendJob? && s.peers[job.id].state == C.Disconnected
  }

  predicate SameQueues(a: seq<Worker>, b: seq<Worker>) {
    |a| == |b| && forall l :: 0 <= l < |a| ==> a[l].queue == b[l].queue
  }

  lemma ActiveChanged(s: Server, loops: seq<Worker>)
    requires Sound(s) && SameQueues(loops, s.loops) && ActiveOk(s.peers, loops)
    ensures Sound(s.(loops := loops))
  {
    var t := s.(loops := loops);
    assert PeersOk(t) && NamesOk(t);
    assert SendsOk(t.peers, t.loops);
    assert JobsOk(t.peers, t.loops);
  }

  lemma UnreadySound(s: Server, l: nat, id: nat)
    requires Sound(s) && l < |s.loops| && id in s.loops[l].active
    ensures Sound(Unready(s, l, id)) && Unlisted(Unready(s, l, id).loops, id)
    ensures id in s.peers && s.peers[id].home == l && |s.peers[id].life| == 1
  {
    UnreadyActive(s, l, id);
    hide Sound, ActiveOk;
    ActiveChanged(s, Unready(s, l, id).loops);
  }

  lemma UnreadyActive(s: Server, l: nat, id: nat)
    requires ActiveOk(s.peers, s.loops) && l < |s.loops| && id in s.loops[l].active
    ensures var t := Unready(s, l, id);
            SameQueues(t.loops, s.loops) && ActiveOk(s.peers, t.loops) && Unlisted(t.loops, id)
    ensures id in s.peers && s.peers[id].home == l && |s.peers[id].life| == 1
  {
    assert s.peers[id].home == l;
  }

  lemma SendSound(s: Server, id: nat, unfinished: bool)
    requires Sound(s) && s.fault == NoFault && id in s.peers && |s.peers[id].life| > 0
    ensures var t := DoSend(s, s.peers[id].home, id, unfinished);
            Sound(t) && t.fault == if unfinished && s.peers[id].state == C.Disconnected then StaleUpdate else NoFault
  {
    var p := s.peers[id];
    if unfinished && !p.writing && !p.slot.Stale? {
      SameStage(s, id, p.(writing := true, slot := SlotAfter(p.(writing := true), s.readBit)));
    }
  }

  lemma WriteSound(s: Server, id: nat, emptied: bool)
    requires Sound(s) && s.fault == NoFault && id in s.peers && |s.peers[id].life| == 1
    ensures var t := DoWrite(s, s.peers[id].home, id, emptied); Sound(t) && t.fault == NoFault
  {
    var p := s.peers[id];
    if p.writing && emptied {
      SameStage(s, id, p.(writing := false, slot := SlotAfter(p.(writing := false), s.readBit)));
    }
  }

  lemma ShutdownSound(s: Server, id: nat)
    requires Sound(s) && id in s.peers && s.peers[id].state == C.Connected
    ensures Sound(s.(peers := s.peers[id := s.peers[id].(state := C.Disconnecting)]))
  {
    SameStage(s, id, s.peers[id].(state := C.Disconnecting));
  }

  lemma PollSound(s: Server, l: nat, ready: set<nat>)
    requires Sound(s) && Allowed(s, Poll(l, ready))
    ensures Sound(Step(s, Poll(l, ready)))
  {
    ActiveChanged(s, Step(s, Poll(l, ready)).loops);
  }

  /** After the close callback of a hang-up, the write callback of the same pass finds nothing to do. */
  lemma ClosedStops(s: Server, l: nat, id: nat, r: Ready)
    requires Sound(s) && s.fault == NoFault && id in s.peers && s.peers[id].home == l < |s.loops|
    requires |s.peers[id].life| == 1 && Unlisted(s.loops, id) && ((r.hangup && !r.input) || (r.input && r.eof))
    ensures DoHandle(s, l, id, r) == DoClose(s, l, id)
  {
    CloseSound(s, l, id);
    CloseQuiets(s, l, id);
    hide Sound, DoClose;
  }

  lemma CloseQuiets(s: Server, l: nat, id: nat)
    requires s.fault == NoFault && id in s.peers && PeerOk(s.peers[id]) && |s.peers[id].life| == 1
    requires s.peers[id].home == l < |s.loops|
    ensures var t := DoClose(s, l, id); id in t.peers && t.peers[id].home == l && !t.peers[id].writing
  {
    Closes(s, id);
  }

  lemma ReadySound(s: Server, l: nat, id: nat, r: Ready)
    requires Sound(s) && s.fault == NoFault && id in s.peers && s.peers[id].home == l < |s.loops|
    requires |s.peers[id].life| == 1 && Unlisted(s.loops, id)
    ensures var t := DoHandle(s, l, id, r); Sound(t) && t.fault == NoFault
  {
    if (r.hangup && !r.input) || (r.input && r.eof) {
      CloseSound(s, l, id);
      ClosedStops(s, l, id, r);
    } else {
      WriteSound(s, id, r.emptied);
    }
  }

  lemma HandleSound(s: Server, l: nat, id: nat, r: Ready)
    requires Sound(s) && Allowed(s, Handle(l, id, r))
    ensures var t := Step(s, Handle(l, id, r)); Sound(t) && t.fault == NoFault
  {
    UnreadySound(s, l, id);
    ReadySound(Unready(s, l, id), l, id, r);
  }

  lemma ForeignSendSound(s: Server, id: nat)
    requires Sound(s) && id in s.peers && |s.peers[id].life| > 0
    ensures Sound(Post(s, s.peers[id].home, SendJob(id), false))
  {
    var l := s.peers[id].home;
    var t := Post(s, l, SendJob(id), false);
    forall k, j: Job | 0 <= k < |s.loops| && !j.SendJob? ensures Count(t.loops[k].queue, j) == Due(s.peers, k, j) {
      PostCounts(s, l, SendJob(id), false, k, j);
    }
    PostActive(s, l, SendJob(id), false);
    assert PeersOk(t) && NamesOk(t) && SendsOk(t.peers, t.loops);
  }

  lemma PoppedJobs(s: Server, l: nat)
    requires JobsOk(s.peers, s.loops) && l < |s.loops| && s.loops[l].queue != [] && s.loops[l].queue[0].SendJob?
    ensures JobsOk(s.peers, Popped(s, l).loops)
  {
    var t := Popped(s, l);
    forall k, j: Job | 0 <= k < |s.loops| && !j.SendJob? ensures Count(t.loops[k].queue, j) == Due(s.peers, k, j) {
      assert Count(s.loops[k].queue, j) == Due(s.peers, k, j);
    }
  }

  lemma PoppedSendSound(s: Server, l: nat)
    requires Sound(s) && l < |s.loops| && s.loops[l].queue != [] && s.loops[l].queue[0].SendJob?
    ensures Sound(Popped(s, l))
  {
    var t := Popped(s, l);
    PoppedJobs(s, l);
    assert forall k, j :: 0 <= k < |s.loops| && j in t.loops[k].queue ==> j in s.loops[k].queue;
    assert ActiveOk(t.peers, t.loops) && SendsOk(t.peers, t.loops);
    assert PeersOk(t) && NamesOk(t);
  }

  /** The first functor of a queue finds its connection at the stage it was posted for. */
  lemma HeadJob(s: Server, l: nat)
    requires Sound(s) && l < |s.loops| && s.loops[l].queue != []
    ensures var job := s.loops[l].queue[0];
            && job.id in s.peers
            && (if job.SendJob? then s.peers[job.id].home == l && |s.peers[job.id].life| > 0
                else Waits(s.peers[job.id], l, job))
  {
    var job := s.loops[l].queue[0];
    assert job in s.loops[l].queue;
    assert !job.SendJob? ==> Count(s.loops[l].queue, job) == Due(s.peers, l, job);
  }

  lemma PopThenPost(s: Server, l: nat)
    requires l < |s.loops| && s.loops[l].queue != []
    ensures Post(Popped(s, l), l, s.loops[l].queue[0], true) == s
  {
    var t := Popped(s, l);
    assert [s.loops[l].queue[0]] + t.loops[l].queue == s.loops[l].queue;
    assert s.loops[l := t.loops[l]][l := s.loops[l]] == s.loops;
  }

  lemma JobSound(s: Server, l: nat, unfinished: bool)
    requires Sound(s) && Allowed(s, RunJob(l, unfinished))
    ensures var e := RunJob(l, unfinished);
            Sound(Step(s, e)) && Step(s, e).fault == if Strands(s, e) then StaleUpdate else NoFault
  {
    var job, t := s.loops[l].queue[0], Popped(s, l);
    HeadJob(s, l);
    PopThenPost(s, l);
    hide Sound;
    match job
    case EstablishJob(id) => EstablishSound(t, l, id);
    case EraseJob(id) => EraseSound(t, id);
    case DestroyJob(id) => DestroySound(t, l, id);
    case SendJob(id) =>
      PoppedSendSound(s, l);
      SendSound(t, id, unfinished);
  }

  lemma StepSound(s: Server, e: Event)
    requires Sound(s) && Allowed(s, e)
    ensures Sound(Step(s, e)) && Step(s, e).fault == if Strands(s, e) then StaleUpdate else NoFault
  {
    match e
    case Accept(home) => AcceptSound(s, home);
    case Poll(l, ready) => PollSound(s, l, ready);
    case Handle(l, id, r) => HandleSound(s, l, id, r);
    case RunJob(l, unfinished) => JobSound(s, l, unfinished);
    case OwnSend(id, unfinished) => if s.peers[id].state == C.Connected { SendSound(s, id, unfinished); }
    case ForeignSend(id) => if s.peers[id].state == C.Connected { ForeignSendSound(s, id); }
    case Shutdown(id) => if s.peers[id].state == C.Connected { ShutdownSound(s, id); }
  }

  lemma {:induction false} RunSound(s: Server, es: seq<Event>)
    requires Sound(s) && AllowedRun(s, es)
    ensures Sound(Run(s, es))
    decreases es
  {
    if es == [] {
    } else {
      StepSound(s, es[0]);
      RunSound(Step(s, es[0]), es[1..]);
    }
  }

  // ----- The life of every connection -----

  predicate LaterPeer(p: Peer, q: Peer) {
    q.home == p.home && p.life <= q.life
  }

  /** The server keeps its name, and what has happened to a connection stays happened. */
  predicate Grown(s: Server, t: Server) {
    && t.name == s.name && t.readBit == s.readBit && |t.loops| == |s.loops|
    && forall id :: id in s.peers ==> id in t.peers && LaterPeer(s.peers[id], t.peers[id])
  }

  lemma GrownTrans(s: Server, t: Server, u: Server)
    requires Grown(s, t) && Grown(t, u)
    ensures Grown(s, u)
  {
    assert forall id :: id in s.peers ==> id in t.peers;
  }

  lemma UpdateGrows(s: Server, id: nat, p: Peer)
    requires id in s.peers && LaterPeer(s.peers[id], p)
    ensures Grown(s, Update(s, id, p))
  {
  }

  lemma DestroyGrows(s: Server, here: nat, id: nat)
    requires id in s.peers
    ensures Grown(s, DoDestroy(s, here, id))
  {
    var p := s.peers[id].(state := C.Disconnected, reading := false, writing := false);
    var t := Update(s, id, p);
    UpdateGrows(s, id, p);
    assert Grown(t, RemoveChannel(t, id));
    GrownTrans(s, t, RemoveChannel(t, id));
  }

  lemma EraseGrows(s: Server, here: nat, id: nat)
    requires id in s.peers && s.peers[id].home < |s.loops|
    ensures Grown(s, DoErase(s, here, id))
  {
    var t := RecordErased(s, id);
    assert Grown(s, t);
    DestroyGrows(t, here, id);
    GrownTrans(s, t, DoDestroy(t, here, id));
  }

  lemma CloseGrows(s: Server, here: nat, id: nat)
    requires |s.loops| > 0 && id in s.peers && s.peers[id].home < |s.loops|
    ensures Grown(s, DoClose(s, here, id))
  {
    var p := s.peers[id];
    var t := RecordClosed(s, id);
    UpdateGrows(s, id, p.(reading := false, writing := false, life := p.life + [Closed]));
    hide Update, DoErase;
    EraseGrows(t, here, id);
    GrownTrans(s, t, DoErase(t, here, id));
  }

  lemma WriteGrows(s: Server, here: nat, id: nat, emptied: bool)
    requires id in s.peers
    ensures Grown(s, DoWrite(s, here, id, emptied))
  {
    UpdateGrows(s, id, s.peers[id].(writing := false));
  }

  lemma HandleGrows(s: Server, here: nat, id: nat, r: Ready)
    requires |s.loops| > 0 && id in s.peers && s.peers[id].home < |s.loops|
    ensures Grown(s, DoHandle(s, here, id, r))
  {
    var t := if r.hangup && !r.input then DoClose(s, here, id) else s;
    CloseGrows(s, here, id);
    assert Grown(s, t);
    WriteGrows(t, here, id, r.emptied);
    GrownTrans(s, t, DoWrite(t, here, id, r.emptied));
  }

  lemma AcceptGrows(s: Server, home: nat)
    requires home < |s.loops| && s.nextId !in s.peers
    ensures Grown(s, DoAccept(s, home))
  {
    var t := AddPeer(s, home);
    assert Grown(s, t) && Grown(t, DoAccept(s, home));
    GrownTrans(s, t, DoAccept(s, home));
  }

  lemma JobGrows(s: Server, l: nat, job: Job, unfinished: bool)
    requires job.id in s.peers && s.peers[job.id].home < |s.loops|
    ensures Grown(s, DoJob(s, l, job, unfinished))
  {
    match job
    case EstablishJob(id) =>
    case EraseJob(id) => EraseGrows(s, l, id);
    case DestroyJob(id) => DestroyGrows(s, l, id);
    case SendJob(id) =>
  }

  lemma StepGrows(s: Server, e: Event)
    requires Allowed(s, e) && s.nextId !in s.peers
    ensures Grown(s, Step(s, e))
  {
    match e
    case Accept(home) => AcceptGrows(s, home);
    case Poll(l, ready) =>
    case Handle(l, id, r) => HandleGrows(Unready(s, l, id), l, id, r);
    case RunJob(l, unfinished) => JobGrows(Popped(s, l), l, s.loops[l].queue[0], unfinished);
    case OwnSend(id, unfinished) =>
    case ForeignSend(id) =>
    case Shutdown(id) =>
  }

  lemma {:induction false} RunGrows(s: Server, es: seq<Event>)
    requires Sound(s) && AllowedRun(s, es)
    ensures Grown(s, Run(s, es))
    decreases es
  {
    if es == [] {
    } else {
      StepSound(s, es[0]);
      StepGrows(s, es[0]);
      RunGrows(Step(s, es[0]), es[1..]);
      GrownTrans(s, Step(s, es[0]), Run(s, es));
    }
  }

  lemma NewServerSound(name: string, readBit: bool, threads: nat)
    ensures Sound(NewServer(name, readBit, threads))
  {
  }

  /**
   * Whatever the interleaving of the accept loop and the I/O loops, each connection is established, closed, erased
   * from the map and destroyed in that order and each at most once; every thread and state assertion holds, erase
   * finds its name, and removeChannel its ignored slot. Only updateChannel on a removed channel can fail.
   */
  lemma Lifecycle(name: string, readBit: bool, threads: nat, es: seq<Event>)
    requires AllowedRun(NewServer(name, readBit, threads), es)
    ensures var s := Run(NewServer(name, readBit, threads), es);
            && (s.fault == NoFault || s.fault == StaleUpdate)
            && (forall id :: id in s.peers ==> s.peers[id].life <= LIFE)
            && (forall id :: id in s.peers ==> (ConnName(name, id) in s.names <==> |s.peers[id].life| < 3))
  {
    NewServerSound(name, readBit, threads);
    RunSound(NewServer(name, readBit, threads), es);
    RunFault(NewServer(name, readBit, threads), es);
    RunGrows(NewServer(name, readBit, threads), es);
  }

  /** The run comes to a posted send that outlives its connection and cannot write everything. */
  predicate StrandsIn(s: Server, es: seq<Event>)
    requires AllowedRun(s, es)
    decreases es
  {
    es != [] && (Strands(s, es[0]) || StrandsIn(Step(s, es[0]), es[1..]))
  }

  /** An assertion fails in exactly the runs where a posted send is stranded. */
  lemma {:induction false} RunFault(s: Server, es: seq<Event>)
    requires Sound(s) && s.fault == NoFault && AllowedRun(s, es)
    ensures Run(s, es).fault == if StrandsIn(s, es) then StaleUpdate else NoFault
    decreases es
  {
    if es == [] {
    } else {
      StepSound(s, es[0]);
      if !Strands(s, es[0]) {
        RunFault(Step(s, es[0]), es[1..]);
      }
    }
  }

  lemma QuietPeer(s: Server, id: nat)
    requires Sound(s) && id in s.peers && forall l :: 0 <= l < |s.loops| ==> s.loops[l].queue == []
    ensures s.peers[id].life == [Established] || s.peers[id].life == LIFE
  {
    var p := s.peers[id];
    assert Count(s.loops[p.home].queue, EstablishJob(id)) == Due(s.peers, p.home, EstablishJob(id));
    assert Count(s.loops[0].queue, EraseJob(id)) == Due(s.peers, 0, EraseJob(id));
    assert Count(s.loops[p.home].queue, DestroyJob(id)) == Due(s.peers, p.home, DestroyJob(id));
    assert p.life == LIFE[..|p.life|];
  }

  /** No functor lost: once every queue is empty, each connection is open and in the map, or destroyed and out of it. */
  lemma NothingLeftBehind(name: string, readBit: bool, threads: nat, es: seq<Event>, id: nat)
    requires AllowedRun(NewServer(name, readBit, threads), es)
    requires var s := Run(NewServer(name, readBit, threads), es);
             id in s.peers && forall l :: 0 <= l < |s.loops| ==> s.loops[l].queue == []
    ensures var s := Run(NewServer(name, readBit, threads), es);
            s.peers[id].life == if ConnName(name, id) in s.names then [Established] else LIFE
  {
    Lifecycle(name, readBit, threads, es);
    NewServerSound(name, readBit, threads);
    RunSound(NewServer(name, readBit, threads), es);
    QuietPeer(Run(NewServer(name, readBit, threads), es), id);
  }

  predicate NoForeignSends(es: seq<Event>) {
    forall i :: 0 <= i < |es| ==> !es[i].ForeignSend?
  }

  predicate NoneSending(s: Server) {
    forall l, j :: 0 <= l < |s.loops| && j in s.loops[l].queue ==> !j.SendJob?
  }

  lemma PostNoneSending(s: Server, l: nat, job: Job)
    requires l < |s.loops| && NoneSending(s) && !job.SendJob?
    ensures NoneSending(Post(s, l, job, false))
  {
  }

  lemma CloseNoneSending(s: Server, here: nat, id: nat)
    requires |s.loops| > 0 && id in s.peers && s.peers[id].home < |s.loops| && NoneSending(s)
    ensures NoneSending(DoClose(s, here, id))
  {
    var t := RecordClosed(s, id);
    if here != 0 {
      PostNoneSending(t, 0, EraseJob(id));
    }
  }

  lemma HandleNoneSending(s: Server, here: nat, id: nat, r: Ready)
    requires |s.loops| > 0 && id in s.peers && s.peers[id].home < |s.loops| && NoneSending(s)
    ensures NoneSending(DoHandle(s, here, id, r))
  {
    CloseNoneSending(s, here, id);
    var t := if r.hangup && !r.input then DoClose(s, here, id) else s;
    CloseGrows(s, here, id);
    assert DoWrite(t, here, id, r.emptied).loops == t.loops;
  }

  lemma JobNoneSending(s: Server, l: nat, unfinished: bool)
    requires Allowed(s, RunJob(l, unfinished)) && NoneSending(s)
    ensures NoneSending(Step(s, RunJob(l, unfinished))) && !Strands(s, RunJob(l, unfinished))
  {
    var t, job := Popped(s, l), s.loops[l].queue[0];
    assert job in s.loops[l].queue;
    assert NoneSending(t);
    if job.EraseJob? {
      PostNoneSending(RecordErased(t, job.id), t.peers[job.id].home, DestroyJob(job.id));
    }
  }

  lemma StepNoneSending(s: Server, e: Event)
    requires Allowed(s, e) && NoneSending(s) && !e.ForeignSend?
    ensures NoneSending(Step(s, e)) && !Strands(s, e)
  {
    match e
    case Accept(home) => PostNoneSending(AddPeer(s, home), home, EstablishJob(s.nextId));
    case Handle(l, id, r) => HandleNoneSending(Unready(s, l, id), l, id, r);
    case RunJob(l, unfinished) => JobNoneSending(s, l, unfinished);
    case _ =>
  }

  lemma {:induction false} RunNoneSending(s: Server, es: seq<Event>)
    requires AllowedRun(s, es) && NoneSending(s) && NoForeignSends(es)
    ensures !StrandsIn(s, es)
    decreases es
  {
    if es == [] {
    } else {
      assert !es[0].ForeignSend?;
      StepNoneSending(s, es[0]);
      RunNoneSending(Step(s, es[0]), es[1..]);
    }
  }

  /** With send called only in the connection's own loop, no assertion ever fails. */
  lemma OwnSendsNeverFail(name: string, readBit: bool, threads: nat, es: seq<Event>)
    requires AllowedRun(NewServer(name, readBit, threads), es) && NoForeignSends(es)
    ensures Run(NewServer(name, readBit, threads), es).fault == NoFault
  {
    NewServerSound(name, readBit, threads);
    RunFault(NewServer(name, readBit, threads), es);
    RunNoneSending(NewServer(name, readBit, threads), es);
  }

  // ----- When a connection closes -----

  /** What poll and read report of a peer that is gone: a hang-up without input, or input that is end of file. */
  predicate PeerGone(r: Ready) {
    (r.hangup && !r.input) || (r.input && r.eof)
  }

  /** The pass reaches the write callback, which finds its output buffer emptied. */
  predicate Emptied(r: Ready) {
    !r.input && r.output && r.emptied
  }

  /** The connection with writing cleared and its poller told. */
  function Quieted(p: Peer, readBit: bool): Peer {
    var q := p.(writing := false);
    q.(slot := SlotAfter(q, readBit))
  }

  /** A pass over a connection whose peer is gone closes it. */
  lemma GonePassCloses(s: Server, l: nat, id: nat, r: Ready)
    requires Sound(s) && Allowed(s, Handle(l, id, r)) && PeerGone(r)
    ensures id in Step(s, Handle(l, id, r)).peers && |Step(s, Handle(l, id, r)).peers[id].life| > 1
  {
    UnreadySound(s, l, id);
    var t := Unready(s, l, id);
    ClosedStops(t, l, id, r);
    CloseAdvances(t, l, id);
  }

  lemma CloseAdvances(s: Server, here: nat, id: nat)
    requires Sound(s) && s.fault == NoFault && id in s.peers && s.peers[id].home == here < |s.loops|
    requires |s.peers[id].life| == 1
    ensures id in DoClose(s, here, id).peers && |DoClose(s, here, id).peers[id].life| > 1
  {
    Closes(s, id);
    var t := RecordClosed(s, id);
    assert |t.peers[id].life| == 2;
    EraseGrows(t, here, id);
    hide Sound;
  }

  /** Any other pass only clears writing, and only if the write callback found the buffer emptied. */
  lemma OtherPassKeeps(s: Server, l: nat, id: nat, r: Ready)
    requires Sound(s) && Allowed(s, Handle(l, id, r)) && !PeerGone(r)
    ensures var t := Step(s, Handle(l, id, r));
            && id in s.peers && s.peers[id].home == l && |s.peers[id].life| == 1
            && t.peers == (if Emptied(r) && s.peers[id].writing
                           then s.peers[id := Quieted(s.peers[id], s.readBit)] else s.peers)
            && t.names == s.names && SameQueues(t.loops, s.loops) && t.nextId == s.nextId
  {
    UnreadySound(s, l, id);
    hide Sound;
  }

  /** The life of a connection goes past its opening in exactly the passes that find its peer gone. */
  lemma PassClosesExactly(s: Server, l: nat, id: nat, r: Ready)
    requires Sound(s) && Allowed(s, Handle(l, id, r))
    ensures id in Step(s, Handle(l, id, r)).peers
    ensures |Step(s, Handle(l, id, r)).peers[id].life| > 1 <==> PeerGone(r)
  {
    if PeerGone(r) {
      GonePassCloses(s, l, id, r);
    } else {
      OtherPassKeeps(s, l, id, r);
      hide Step, Sound;
    }
  }

  /** How far a connection's life has come; nothing for one not yet accepted. */
  function Age(s: Server, id: nat): nat {
    if id in s.peers then |s.peers[id].life| else 0
  }

  predicate ClosingPass(e: Event, id: nat) {
    e.Handle? && e.id == id && PeerGone(e.r)
  }

  /** A pass over one connection ages no other. */
  lemma OthersKeep(s: Server, e: Event, id: nat)
    requires Sound(s) && Allowed(s, e) && e.Handle? && e.id != id
    ensures Age(Step(s, e), id) == Age(s, id)
  {
    var t := Unready(s, e.l, e.id);
    UnreadySound(s, e.l, e.id);
    if PeerGone(e.r) {
      ClosedStops(t, e.l, e.id, e.r);
      Closes(t, e.id);
      CloseOnlyAt(t, e.l, e.id, id);
    } else {
      OtherPassKeeps(s, e.l, e.id, e.r);
    }
    hide Sound, DoHandle;
  }

  lemma CloseOnlyAt(s: Server, here: nat, id: nat, other: nat)
    requires |s.loops| > 0 && id in s.peers && s.peers[id].home < |s.loops| && other != id
    ensures Age(DoClose(s, here, id), other) == Age(s, other)
  {
    EraseOnlyAt(RecordClosed(s, id), here, id, other);
    hide DoErase;
  }

  lemma EraseOnlyAt(s: Server, here: nat, id: nat, other: nat)
    requires id in s.peers && s.peers[id].home < |s.loops| && other != id
    ensures Age(DoErase(s, here, id), other) == Age(s, other)
  {
    DestroyOnlyAt(RecordErased(s, id), here, id, other);
    hide DoDestroy;
  }

  lemma DestroyOnlyAt(s: Server, here: nat, id: nat, other: nat)
    requires id in s.peers && other != id
    ensures Age(DoDestroy(s, here, id), other) == Age(s, other)
  {
  }

  lemma SendAge(s: Server, here: nat, id: nat, unfinished: bool, other: nat)
    requires id in s.peers
    ensures Age(DoSend(s, here, id, unfinished), other) == Age(s, other)
  {
  }

  lemma EstablishAge(s: Server, l: nat, id: nat, other: nat)
    requires id in s.peers && PeerOk(s.peers[id]) && |s.peers[id].life| == 0 && s.peers[id].home == l
    ensures Age(DoEstablish(s, l, id), other) == if other == id then 1 else Age(s, other)
  {
    Establishes(s, l, id);
    hide DoEstablish;
  }

  /** Erasing and destroying come after closing, and grow a life. */
  lemma LateJobAge(s: Server, l: nat, job: Job, other: nat)
    requires job.id in s.peers && s.peers[job.id].home < |s.loops| && |s.peers[job.id].life| > 1
    requires job.EraseJob? || job.DestroyJob?
    ensures Age(DoJob(s, l, job, false), other) > 1 <==> Age(s, other) > 1
  {
    JobGrows(s, l, job, false);
    if other != job.id {
      if job.EraseJob? {
        EraseOnlyAt(s, l, job.id, other);
      } else {
        DestroyOnlyAt(s, l, job.id, other);
      }
    }
    hide DoErase, DoDestroy;
  }

  lemma JobAge(s: Server, l: nat, unfinished: bool, id: nat)
    requires Sound(s) && Allowed(s, RunJob(l, unfinished))
    ensures Age(Step(s, RunJob(l, unfinished)), id) > 1 <==> Age(s, id) > 1
  {
    var t, job := Popped(s, l), s.loops[l].queue[0];
    HeadJob(s, l);
    assert PeerOk(t.peers[job.id]);
    hide Sound, DoErase, DoDestroy, DoEstablish, DoSend;
    match job
    case EstablishJob(k) => EstablishAge(t, l, k, id);
    case SendJob(k) => SendAge(t, l, k, unfinished, id);
    case _ => LateJobAge(t, l, job, id);
  }

  lemma AcceptAge(s: Server, home: nat, id: nat)
    requires Sound(s) && home < |s.loops|
    ensures Age(DoAccept(s, home), id) > 1 <==> Age(s, id) > 1
  {
    var t := AddPeer(s, home);
    assert s.nextId !in s.peers;
    if home == 0 {
      EstablishAge(t, 0, s.nextId, id);
    }
    hide Sound, DoEstablish;
  }

  lemma HandleAge(s: Server, l: nat, other: nat, r: Ready, id: nat)
    requires Sound(s) && Allowed(s, Handle(l, other, r))
    ensures Age(Step(s, Handle(l, other, r)), id) > 1 <==> Age(s, id) > 1 || ClosingPass(Handle(l, other, r), id)
  {
    if other == id {
      OpenPass(s, l, id, r);
      PassClosesExactly(s, l, id, r);
    } else {
      OthersKeep(s, Handle(l, other, r), id);
    }
    hide Step, Sound;
  }

  lemma StepAge(s: Server, e: Event, id: nat)
    requires Sound(s) && Allowed(s, e)
    ensures Age(Step(s, e), id) > 1 <==> Age(s, id) > 1 || ClosingPass(e, id)
  {
    hide Sound, DoAccept, DoHandle, DoJob, DoSend;
    match e
    case Accept(home) => AcceptAge(s, home, id);
    case Handle(l, other, r) => HandleAge(s, l, other, r, id);
    case RunJob(l, unfinished) => JobAge(s, l, unfinished, id);
    case OwnSend(k, unfinished) => SendAge(s, s.peers[k].home, k, unfinished, id);
    case _ =>
  }

  lemma OpenPass(s: Server, l: nat, id: nat, r: Ready)
    requires Sound(s) && Allowed(s, Handle(l, id, r))
    ensures id in s.peers && |s.peers[id].life| == 1
  {
  }

  predicate ClosingIn(es: seq<Event>, id: nat) {
    es != [] && (ClosingPass(es[0], id) || ClosingIn(es[1..], id))
  }

  lemma {:induction false} RunAge(s: Server, es: seq<Event>, id: nat)
    requires Sound(s) && AllowedRun(s, es)
    ensures Age(Run(s, es), id) > 1 <==> Age(s, id) > 1 || ClosingIn(es, id)
    decreases es
  {
    if es == [] {
    } else {
      StepSound(s, es[0]);
      StepAge(s, es[0], id);
      RunAge(Step(s, es[0]), es[1..], id);
    }
  }

  /** Over any run a connection has been closed if and only if some pass over it found its peer gone. */
  lemma ClosedExactlyWhenGone(name: string, readBit: bool, threads: nat, es: seq<Event>, id: nat)
    requires AllowedRun(NewServer(name, readBit, threads), es) && id in Run(NewServer(name, readBit, threads), es).peers
    ensures Closed in Run(NewServer(name, readBit, threads), es).peers[id].life <==> ClosingIn(es, id)
  {
    var s := Run(NewServer(name, readBit, threads), es);
    NewServerSound(name, readBit, threads);
    RunSound(NewServer(name, readBit, threads), es);
    RunAge(NewServer(name, readBit, threads), es, id);
    ClosedAge(s.peers[id]);
  }

  lemma ClosedAge(p: Peer)
    requires PeerOk(p)
    ensures Closed in p.life <==> |p.life| > 1
  {
    assert p.life == LIFE[..|p.life|];
    assert |p.life| > 1 ==> p.life[1] == Closed;
  }

  // ----- The same handlers with the real output buffer -----

  /** A peer is what the connection model calls the connection, without its buffer and socket. */
  predicate Shows(p: Peer, c: C.Conn) {
    p.state == c.state && p.reading == c.reading && p.writing == c.writing
  }

  lemma EstablishShows(s: Server, id: nat, c: C.Conn)
    requires id in s.peers && PeerOk(s.peers[id]) && |s.peers[id].life| == 0 && Shows(s.peers[id], c)
    ensures Shows(DoEstablish(s, s.peers[id].home, id).peers[id], C.Step(c, C.Establish))
  {
    Establishes(s, s.peers[id].home, id);
  }

  /**
   * sendInLoop: unfinished means that the direct write, if there was one, did not take the whole message. On a removed
   * channel the fault is then exactly a write left short with writing still off.
   */
  lemma SendShows(s: Server, id: nat, c: C.Conn, message: seq<byte>, w: C.WriteResult)
    requires id in s.peers && s.fault == NoFault && Shows(s.peers[id], c) && C.Fits(w, |message|)
    ensures var unfinished := C.Taken(c, w) < |message|;
            var t := DoSend(s, s.peers[id].home, id, unfinished);
            && (t.fault == StaleUpdate <==> s.peers[id].slot.Stale? && !c.writing && unfinished)
            && (t.fault == NoFault ==> Shows(t.peers[id], C.SendInLoop(c, message, w)))
  {
  }

  /** send() in the loop's thread, with the same meaning of unfinished. */
  lemma OwnSendShows(s: Server, id: nat, c: C.Conn, message: seq<byte>, w: C.WriteResult)
    requires id in s.peers && PeerOk(s.peers[id]) && s.fault == NoFault
    requires Shows(s.peers[id], c) && C.Fits(w, |message|)
    ensures Shows(Step(s, OwnSend(id, C.Taken(c, w) < |message|)).peers[id], C.SendStep(c, message, true, w))
  {
  }

  /** handleWrite: emptied means that the output buffer is empty afterwards. */
  lemma WriteShows(s: Server, id: nat, c: C.Conn, w: C.WriteResult)
    requires id in s.peers && !s.peers[id].slot.Stale? && Shows(s.peers[id], c)
    requires C.Fits(w, |c.output|) && (c.writing ==> c.output != [])
    ensures var d := C.HandleWrite(c, w);
            Shows(DoWrite(s, s.peers[id].home, id, d.output == []).peers[id], d)
  {
  }

  lemma CloseShows(s: Server, id: nat, c: C.Conn)
    requires id in s.peers && PeerOk(s.peers[id]) && |s.peers[id].life| == 1 && Shows(s.peers[id], c)
    ensures Shows(RecordClosed(s, id).peers[id], C.HandleClose(c))
  {
    Closes(s, id);
  }

  lemma DestroyShows(s: Server, id: nat, c: C.Conn)
    requires id in s.peers && PeerOk(s.peers[id]) && |s.peers[id].life| == 3 && Shows(s.peers[id], c)
    requires s.fault == NoFault
    ensures C.Allowed(c, C.Destroy) && Shows(DoDestroy(s, s.peers[id].home, id).peers[id], C.Step(c, C.Destroy))
  {
    Destroys(s, s.peers[id].home, id);
  }

  lemma ShutdownShows(s: Server, id: nat, c: C.Conn, inLoop: bool)
    requires Allowed(s, Shutdown(id)) && Shows(s.peers[id], c)
    ensures Shows(Step(s, Shutdown(id)).peers[id], C.ShutdownStep(c, inLoop))
  {
  }

  /** send() from another thread posts one sendInLoop behind what its loop already has, while connected. */
  lemma ForeignSendPosts(s: Server, id: nat)
    requires Allowed(s, ForeignSend(id))
    ensures var t, home := Step(s, ForeignSend(id)), s.peers[id].home;
            && t.peers == s.peers && |t.loops| == |s.loops|
            && t.loops[home].queue ==
               s.loops[home].queue + (if s.peers[id].state == C.Connected then [SendJob(id)] else [])
            && forall l :: 0 <= l < |s.loops| && l != home ==> t.loops[l] == s.loops[l]
  {
  }

  /** And that sendInLoop, when its turn comes, agrees with the connection model. */
  lemma PostedSendShows(s: Server, l: nat, c: C.Conn, message: seq<byte>, w: C.WriteResult)
    requires Sound(s) && C.Fits(w, |message|)
    requires Allowed(s, RunJob(l, C.Taken(c, w) < |message|)) && s.loops[l].queue[0].SendJob?
    requires Shows(s.peers[s.loops[l].queue[0].id], c)
    ensures var id, t := s.loops[l].queue[0].id, Step(s, RunJob(l, C.Taken(c, w) < |message|));
            && (t.fault == StaleUpdate <==> s.peers[id].slot.Stale? && !c.writing && C.Taken(c, w) < |message|)
            && (t.fault == NoFault ==> Shows(t.peers[id], C.SendInLoop(c, message, w)))
  {
    HeadJob(s, l);
    SendShows(Popped(s, l), s.loops[l].queue[0].id, c, message, w);
    hide Sound, DoSend, C.SendInLoop;
  }

  // ----- What each loop's poller sees -----

  const READ_BIT := 1
  const WRITE_BIT := 2

  /** The mask of a connection's channel, in two stand-in bits. */
  function EventsOf(p: Peer, readBit: bool): int {
    (if p.reading && readBit then READ_BIT else 0) + (if p.writing then WRITE_BIT else 0)
  }

  predicate Registered(p: Peer) {
    p.slot == Watched || p.slot == Ignored
  }

  function WatchOf(p: Peer, readBit: bool): Pollers.Watch {
    Pollers.Watch(p.slot == Ignored, EventsOf(p, readBit))
  }

  /** Loop l's poller as the slots of its connections describe it, each descriptor named by its connection's id. */
  function WatchesOf(peers: map<nat, Peer>, readBit: bool, l: nat): Pollers.Watches {
    map id | id in peers && peers[id].home == l && Registered(peers[id]) :: WatchOf(peers[id], readBit)
  }

  lemma PutWatch(peers: map<nat, Peer>, readBit: bool, l: nat, id: nat, p: Peer)
    requires id in peers ==> p.home == peers[id].home
    ensures var w := WatchesOf(peers, readBit, l);
            WatchesOf(peers[id := p], readBit, l) ==
            if p.home != l then w else if Registered(p) then w[id := WatchOf(p, readBit)] else w - {id}
  {
  }

  function PollerOf(s: Server, l: nat): Pollers.Watches {
    WatchesOf(s.peers, s.readBit, l)
  }

  /** A connection's channel is not stale: update() is one call, and the slot tag is the poller's own rule. */
  lemma UpdateCalls(s: Server, id: nat, p: Peer, l: nat) returns (ops: seq<Pollers.Op>)
    requires id in s.peers && p.home == s.peers[id].home && p.slot == s.peers[id].slot && !p.slot.Stale?
    ensures Pollers.Calls(PollerOf(s, l), ops, PollerOf(Update(s, id, p), l))
  {
    var w := PollerOf(s, l);
    PutWatch(s.peers, s.readBit, l, id, Update(s, id, p).peers[id]);
    if p.home == l {
      Pollers.OneUpdate(w, id, EventsOf(p, s.readBit));
      ops := [Pollers.Update(id, EventsOf(p, s.readBit))];
    } else {
      Pollers.NoCalls(w);
      ops := [];
    }
  }

  lemma DestroyCalls(s: Server, here: nat, id: nat, l: nat) returns (ops: seq<Pollers.Op>)
    requires id in s.peers && PeerOk(s.peers[id]) && |s.peers[id].life| == 3 && s.peers[id].home == here
    requires s.fault == NoFault
    ensures Pollers.Calls(PollerOf(s, l), ops, PollerOf(DoDestroy(s, here, id), l))
  {
    var w := PollerOf(s, l);
    Destroys(s, here, id);
    PutWatch(s.peers, s.readBit, l, id, DoDestroy(s, here, id).peers[id]);
    if here == l {
      Pollers.DisabledThenRemoved(w, id);
      ops := [Pollers.Update(id, Pollers.NONE_EVENT), Pollers.Remove(id)];
    } else {
      Pollers.NoCalls(w);
      ops := [];
    }
  }

  lemma EraseCalls(s: Server, id: nat, l: nat) returns (ops: seq<Pollers.Op>)
    requires id in s.peers && s.peers[id].home < |s.loops| && PeerOk(s.peers[id]) && |s.peers[id].life| == 2
    requires s.fault == NoFault && s.peers[id].name in s.names
    ensures Pollers.Calls(PollerOf(s, l), ops, PollerOf(DoErase(s, 0, id), l))
  {
    var t := RecordErased(s, id);
    assert t.peers[id].life == LIFE[..3] by {
      assert s.peers[id].life == LIFE[..2];
    }
    PutWatch(s.peers, s.readBit, l, id, t.peers[id]);
    assert PollerOf(t, l) == PollerOf(s, l);
    if s.peers[id].home == 0 {
      ops := DestroyCalls(t, 0, id, l);
    } else {
      Pollers.NoCalls(PollerOf(s, l));
      ops := [];
    }
  }

  lemma CloseCalls(s: Server, here: nat, id: nat, l: nat) returns (ops: seq<Pollers.Op>)
    requires Sound(s) && s.fault == NoFault && id in s.peers && s.peers[id].home == here < |s.loops|
    requires |s.peers[id].life| == 1
    ensures Pollers.Calls(PollerOf(s, l), ops, PollerOf(DoClose(s, here, id), l))
  {
    var p := s.peers[id];
    Closes(s, id);
    ops := UpdateCalls(s, id, p.(reading := false, writing := false, life := p.life + [Closed]), l);
    if here == 0 {
      var t := RecordClosed(s, id);
      var more := EraseCalls(t, id, l);
      Pollers.CallsAppend(PollerOf(s, l), ops, PollerOf(t, l), more, PollerOf(DoErase(t, 0, id), l));
      ops := ops + more;
    }
  }

  lemma HandleCalls(s: Server, l0: nat, id: nat, r: Ready, l: nat) returns (ops: seq<Pollers.Op>)
    requires Sound(s) && s.fault == NoFault && id in s.peers && s.peers[id].home == l0 < |s.loops|
    requires |s.peers[id].life| == 1 && Unlisted(s.loops, id)
    ensures Pollers.Calls(PollerOf(s, l), ops, PollerOf(DoHandle(s, l0, id, r), l))
  {
    if (r.hangup && !r.input) || (r.input && r.eof) {
      ClosedStops(s, l0, id, r);
      ops := CloseCalls(s, l0, id, l);
    } else if !r.input && r.output && s.peers[id].writing && r.emptied {
      ops := UpdateCalls(s, id, s.peers[id].(writing := false), l);
    } else {
      Pollers.NoCalls(PollerOf(s, l));
      ops := [];
    }
  }

  lemma SendCalls(s: Server, here: nat, id: nat, unfinished: bool, l: nat) returns (ops: seq<Pollers.Op>)
    requires id in s.peers
    ensures Pollers.Calls(PollerOf(s, l), ops, PollerOf(DoSend(s, here, id, unfinished), l))
  {
    var p := s.peers[id];
    if p.home == here && unfinished && !p.writing && !p.slot.Stale? {
      ops := UpdateCalls(s, id, p.(writing := true), l);
    } else {
      Pollers.NoCalls(PollerOf(s, l));
      ops := [];
    }
  }

  lemma AcceptCalls(s: Server, home: nat, l: nat) returns (ops: seq<Pollers.Op>)
    requires Sound(s) && home < |s.loops|
    ensures Pollers.Calls(PollerOf(s, l), ops, PollerOf(DoAccept(s, home), l))
  {
    var id, t := s.nextId, AddPeer(s, home);
    PutWatch(s.peers, s.readBit, l, id, t.peers[id]);
    assert id !in s.peers && PollerOf(t, l) == PollerOf(s, l);
    if home == 0 {
      ops := UpdateCalls(t, id, t.peers[id].(state := C.Connected, reading := true, life := [] + [Established]), l);
    } else {
      Pollers.NoCalls(PollerOf(s, l));
      ops := [];
    }
  }

  lemma JobCalls(s: Server, l0: nat, unfinished: bool, l: nat) returns (ops: seq<Pollers.Op>)
    requires Sound(s) && Allowed(s, RunJob(l0, unfinished))
    ensures Pollers.Calls(PollerOf(s, l), ops, PollerOf(Step(s, RunJob(l0, unfinished)), l))
  {
    var job, t := s.loops[l0].queue[0], Popped(s, l0);
    var p := s.peers[job.id];
    HeadJob(s, l0);
    match job
    case EstablishJob(id) =>
      ops := UpdateCalls(t, id, p.(state := C.Connected, reading := true, life := p.life + [Established]), l);
    case EraseJob(id) => ops := EraseCalls(t, id, l);
    case DestroyJob(id) => ops := DestroyCalls(t, l0, id, l);
    case SendJob(id) => ops := SendCalls(t, l0, id, unfinished, l);
  }

  /**
   * Every step acts on each loop's poller through calls that meet the assertions of updateChannel and removeChannel;
   * the one update that would not, on a stale channel, is the fault.
   */
  lemma StepCalls(s: Server, e: Event, l: nat) returns (ops: seq<Pollers.Op>)
    requires Sound(s) && Allowed(s, e)
    ensures Pollers.Calls(PollerOf(s, l), ops, PollerOf(Step(s, e), l))
  {
    var w := PollerOf(s, l);
    hide Sound, Pollers.Calls, WatchesOf;
    Pollers.NoCalls(w);
    ops := [];
    match e
    case Accept(home) => ops := AcceptCalls(s, home, l);
    case Poll(_, _) =>
    case Handle(l0, id, r) =>
      UnreadySound(s, l0, id);
      ops := HandleCalls(Unready(s, l0, id), l0, id, r, l);
    case RunJob(l0, unfinished) => ops := JobCalls(s, l0, unfinished, l);
    case OwnSend(id, unfinished) =>
      if s.peers[id].state == C.Connected {
        ops := SendCalls(s, s.peers[id].home, id, unfinished, l);
      }
    case ForeignSend(_) =>
    case Shutdown(id) => ShutdownWatch(s, id, l);
  }

  lemma ShutdownWatch(s: Server, id: nat, l: nat)
    requires Allowed(s, Shutdown(id))
    ensures PollerOf(Step(s, Shutdown(id)), l) == PollerOf(s, l)
  {
    PutWatch(s.peers, s.readBit, l, id, s.peers[id].(state := C.Disconnecting));
  }

  lemma {:induction false} RunCalls(s: Server, es: seq<Event>, l: nat) returns (ops: seq<Pollers.Op>)
    requires Sound(s) && AllowedRun(s, es)
    ensures Pollers.Calls(PollerOf(s, l), ops, PollerOf(Run(s, es), l))
    decreases es
  {
    var w := PollerOf(s, l);
    if es == [] {
      Pollers.NoCalls(w);
      ops := [];
    } else {
      var t := Step(s, es[0]);
      StepSound(s, es[0]);
      StepGrows(s, es[0]);
      ops := StepCalls(s, es[0], l);
      var more := RunCalls(t, es[1..], l);
      Pollers.CallsAppend(w, ops, PollerOf(t, l), more, PollerOf(Run(s, es), l));
      ops := ops + more;
    }
  }

  /** Over any run every loop's poller is used only as its assertions allow, from empty on. */
  lemma PollersUsedRightly(name: string, readBit: bool, threads: nat, es: seq<Event>, l: nat)
    returns (ops: seq<Pollers.Op>)
    requires AllowedRun(NewServer(name, readBit, threads), es)
    ensures var s := Run(NewServer(name, readBit, threads), es);
            Pollers.Calls(map[], ops, PollerOf(s, l))
  {
    var s := NewServer(name, readBit, threads);
    NewServerSound(name, readBit, threads);
    assert PollerOf(s, l) == map[];
    ops := RunCalls(s, es, l);
  }

  // ----- The assertion that can fail -----

  lemma RunCons(s: Server, e: Event, es: seq<Event>)
    requires Allowed(s, e) && AllowedRun(Step(s, e), es)
    ensures AllowedRun(s, [e] + es) && Run(s, [e] + es) == Run(Step(s, e), es)
  {
    assert ([e] + es)[1..] == es;
  }

  /** A server on one loop, its one connection established. */
  function OneOpen(readBit: bool): Server {
    Server("s", readBit, 2, map[ConnName("s", 1) := 1],
           map[1 := Peer(ConnName("s", 1), 0, C.Connected, true, false, Watched, [Established])],
           [Worker({}, [])], NoFault)
  }

  /** The same after the connection was closed, erased and destroyed, with a send still posted. */
  function OneStranded(readBit: bool): Server {
    OneOpen(readBit).(names := map[], loops := [Worker({}, [SendJob(1)])],
               peers := map[1 := Peer(ConnName("s", 1), 0, C.Disconnected, false, false, Stale, LIFE)])
  }

  lemma FirstOpen(readBit: bool)
    ensures Allowed(NewServer("s", readBit, 0), Accept(0))
    ensures Step(NewServer("s", readBit, 0), Accept(0)) == OneOpen(readBit)
  {
    var s := AddPeer(NewServer("s", readBit, 0), 0);
    assert s.loops == [Worker({}, [])];
    Establishes(s, 0, 1);
    assert LIFE[..1] == [Established];
    assert s.peers[1 := OneOpen(readBit).peers[1]] == OneOpen(readBit).peers;
  }

  lemma ClosedBySameLoop(s: Server, readBit: bool)
    requires s == OneOpen(readBit).(loops := [Worker({}, [SendJob(1)])])
    ensures DoClose(s, 0, 1) == OneStranded(readBit)
  {
    Closes(s, 1);
    var c := RecordClosed(s, 1);
    var e := RecordErased(c, 1);
    assert c.peers[1].name in c.names && e.names == map[];
    assert LIFE[..2] + [Erased] == LIFE[..3];
    Destroys(e, 0, 1);
    assert e.peers[1 := OneStranded(readBit).peers[1]] == OneStranded(readBit).peers;
  }

  /**
   * One loop is enough, whatever kReadEvent is: a send posted by another thread waits while the peer hangs up;
   * handleClose destroys the connection at once; the send then cannot write and enables writing on the removed channel.
   */
  lemma PostedSendOutlivesConnection(readBit: bool) returns (es: seq<Event>)
    ensures AllowedRun(NewServer("s", readBit, 0), es) && Run(NewServer("s", readBit, 0), es).fault == StaleUpdate
  {
    var hangup := Handle(0, 1, Ready(true, false, false, false, false));
    FirstOpen(readBit);
    SendAndHangUp(hangup, readBit);
    StrandedFails(readBit);
    hide Step, Allowed, OneOpen, OneStranded;
    var s1 := OneOpen(readBit);
    var s2 := Step(s1, ForeignSend(1));
    var s3 := Step(s2, Poll(0, {1}));
    RunCons(OneStranded(readBit), RunJob(0, true), []);
    es := [RunJob(0, true)] + [];
    RunCons(s3, hangup, es);
    es := [hangup] + es;
    RunCons(s2, Poll(0, {1}), es);
    es := [Poll(0, {1})] + es;
    RunCons(s1, ForeignSend(1), es);
    es := [ForeignSend(1)] + es;
    RunCons(NewServer("s", readBit, 0), Accept(0), es);
    es := [Accept(0)] + es;
  }

  lemma StrandedFails(readBit: bool)
    ensures Allowed(OneStranded(readBit), RunJob(0, true))
    ensures Step(OneStranded(readBit), RunJob(0, true)).fault == StaleUpdate
  {
  }

  lemma SendAndHangUp(hangup: Event, readBit: bool)
    requires hangup == Handle(0, 1, Ready(true, false, false, false, false))
    ensures Allowed(OneOpen(readBit), ForeignSend(1))
    ensures var s2 := Step(OneOpen(readBit), ForeignSend(1));
            && Allowed(s2, Poll(0, {1}))
            && Allowed(Step(s2, Poll(0, {1})), hangup)
            && Step(Step(s2, Poll(0, {1})), hangup) == OneStranded(readBit)
  {
    var s2 := Step(OneOpen(readBit), ForeignSend(1));
    assert [] + [SendJob(1)] == [SendJob(1)];
    assert s2.loops == [Worker({}, [SendJob(1)])];
    var s3 := Step(s2, Poll(0, {1}));
    var empty: set<nat> := {};
    assert {1} - {1} == empty;
    assert Unready(s3, 0, 1).loops == [Worker({}, [SendJob(1)])];
    ClosedBySameLoop(Unready(s3, 0, 1), readBit);
  }

  // ----- The class -----

  /**
   * The server with the connections and loops its methods reach through pointers; a failing assertion sets fault.
   */
  class TcpServer {
    const name: string
    const readBit: bool
    var nextConnId: nat
    var connections: map<string, nat>
    var peers: map<nat, Peer>
    var loops: seq<Worker>
    var fault: Fault

    ghost function View(): Server
      reads this
    {
      Server(name, readBit, nextConnId, connections, peers, loops, fault)
    }

    constructor (name: string, readBit: bool, threads: nat)
      ensures View() == NewServer(name, readBit, threads)
    {
      this.name, this.readBit := name, readBit;
      nextConnId, connections, peers, fault := 1, map[], map[], NoFault;
      loops := seq(threads + 1, _ => Worker({}, []));
    }

    method UpdateChannel(id: nat, p: Peer)
      modifies this`peers, this`fault
      ensures View() == Update(old(View()), id, p)
    {
      if p.slot == Stale {
        fault := StaleUpdate;
      } else {
        peers := peers[id := p.(slot := SlotAfter(p, readBit))];
      }
    }

    method QueueInLoop(to: nat, job: Job)
      requires to < |loops|
      modifies this`loops
      ensures View() == Post(old(View()), to, job, false)
    {
      loops := loops[to := loops[to].(queue := loops[to].queue + [job])];
    }

    method ConnectEstablished(here: nat, id: nat)
      requires id in peers
      modifies this`peers, this`fault
      ensures View() == DoEstablish(old(View()), here, id)
    {
      var p := peers[id];
      if p.home != here {
        fault := WrongThread;
        return;
      }
      if p.state != C.Connecting {
        fault := BadState;
        return;
      }
      UpdateChannel(id, p.(state := C.Connected, reading := true, life := p.life + [Established]));
    }

    method ConnectDestroyed(here: nat, id: nat)
      requires id in peers
      modifies this`peers, this`fault
      ensures View() == DoDestroy(old(View()), here, id)
    {
      var p := peers[id];
      if p.home != here {
        fault := WrongThread;
        return;
      }
      if !Open(p.state) {
        fault := BadState;
        return;
      }
      UpdateChannel(id, p.(state := C.Disconnected, reading := false, writing := false));
      if fault == NoFault {
        p := peers[id];
        if p.slot != Ignored || p.reading || p.writing {
          fault := BadRemoval;
        } else {
          peers := peers[id := p.(slot := Stale, life := p.life + [Destroyed])];
        }
      }
    }

    method RemoveConnectionInLoop(here: nat, id: nat)
      requires id in peers && peers[id].home < |loops|
      modifies this`connections, this`peers, this`loops, this`fault
      ensures View() == DoErase(old(View()), here, id)
    {
      var p := peers[id];
      if here != 0 {
        fault := WrongThread;
        return;
      }
      if p.name !in connections {
        fault := NotErased;
        return;
      }
      connections := connections - {p.name};
      peers := peers[id := p.(life := p.life + [Erased])];
      if p.home == here {
        ConnectDestroyed(here, id);
      } else {
        QueueInLoop(p.home, DestroyJob(id));
      }
    }

    method HandleClose(here: nat, id: nat)
      requires |loops| > 0 && id in peers && peers[id].home < |loops|
      modifies this`connections, this`peers, this`loops, this`fault
      ensures View() == DoClose(old(View()), here, id)
    {
      var p := peers[id];
      if p.home != here {
        fault := WrongThread;
        return;
      }
      if !Open(p.state) {
        fault := BadState;
        return;
      }
      UpdateChannel(id, p.(reading := false, writing := false, life := p.life + [Closed]));
      if fault == NoFault {
        RemoveConnection(here, id);
      }
    }

    method RemoveConnection(here: nat, id: nat)
      requires |loops| > 0 && id in peers && peers[id].home < |loops|
      modifies this`connections, this`peers, this`loops, this`fault
      ensures View() == if here == 0 then DoErase(old(View()), here, id) else Post(old(View()), 0, EraseJob(id), false)
    {
      if here == 0 {
        RemoveConnectionInLoop(here, id);
      } else {
        QueueInLoop(0, EraseJob(id));
      }
    }

    /** Runs in the accept loop; home is the loop that getNextLoop chose. */
    method NewConnection(home: nat)
      requires home < |loops|
      modifies this`nextConnId, this`connections, this`peers, this`loops, this`fault
      ensures View() == DoAccept(old(View()), home)
    {
      var id := nextConnId;
      nextConnId := nextConnId + 1;
      var connName := ConnName(name, id);
      connections := connections[connName := id];
      peers := peers[id := Peer(connName, home, C.Connecting, false, false, Absent, [])];
      if home == 0 {
        ConnectEstablished(0, id);
      } else {
        QueueInLoop(home, EstablishJob(id));
      }
    }
  }
}
