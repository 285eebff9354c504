/**
 The life of a connection across event loops (src/TcpServer.cpp, src/TcpConnection.cpp,
 src/EventLoop.cpp, src/Poller.cpp).  Loop 0 is the base loop, which accepts and owns the
 connection map; every connection is served by one loop.  A loop blocks in poll, handles the
 active channels callback by callback, then runs the functors it had pending.  Steps of
 different loops interleave freely.  A failed assertion, or a call on a destroyed connection,
 sets `fault`.
 */
module Lifecycle {
  import opened Bytes
  import opened Polling
  import LogStreams
  import TcpOutput

  type ConnId = nat

  // ----- State -----

  /** What must happen to a connection, in this order and each once. */
  datatype Milestone = Established | Closed | Erased | Destroyed

  const PATH: seq<Milestone> := [Established, Closed, Erased, Destroyed]

  datatype Conn = Conn(
    loop: nat,
    fd: int,
    reading: bool,                 // the channel's interest in POLLIN | POLLPRI
    out: TcpOutput.Output,         // state_, interest in POLLOUT and the output side
    indexed: bool,                 // index_ >= 0
    history: seq<Milestone>,
    released: bool)                // destructed, and the descriptor closed
  {
    function Stage(): nat {
      |history|
    }

    function Events(): set<Flag> {
      (if reading then READ_EVENT else NONE_EVENT) + (if out.writing then WRITE_EVENT else NONE_EVENT)
    }

    /** What `handleClose` and `connectDestroyed` assert. */
    predicate Up() {
      out.state == TcpOutput.Connected || out.state == TcpOutput.Disconnecting
    }
  }

  /** Bound functors; each holds a reference to its connection. */
  datatype Functor =
    | ConnectEstablished(conn: ConnId)
    | RemoveConnectionInLoop(conn: ConnId)
    | ConnectDestroyed(conn: ConnId)

  datatype Phase = Blocked | Handling | Draining

  datatype Ready = Ready(fd: int, conn: ConnId, revents: set<Flag>)

  datatype Loop = Loop(
    table: Table<ConnId>,          // the poller
    pending: seq<Functor>,         // pendingFunctors_
    batch: seq<Functor>,           // of the functors being run, those still to run
    spent: seq<Functor>,           // ... and those that have run
    phase: Phase,
    active: seq<Ready>,            // activeChannels_ still to be handled
    current: ConnId,               // the channel being handled ...
    calls: seq<Callback>)          // ... and its callbacks still to be made
  {
    function Queue(): seq<Functor> {
      batch + pending
    }
  }

  datatype System = System(loops: seq<Loop>, conns: seq<Conn>, connections: set<ConnId>, fault: bool) {
    predicate Shaped() {
      0 < |loops| && forall c :: 0 <= c < |conns| ==> conns[c].loop < |loops|
    }
  }

  const IDLE: Loop := Loop(map[], [], [], [], Blocked, [], 0, [])

  /** A server with `n` further loops. */
  function Initial(n: nat): (s: System)
    ensures s.Shaped()
  {
    System(seq(n + 1, _ => IDLE), [], {}, false)
  }

  /** Names are unique, so the map is a set of numbers: `connName` is the server's name, '#', and the number. */
  function Name(server: string, id: int): string {
    server + "#" + LogStreams.Decimal(id)
  }

  lemma NamesAreUnique(server: string, a: int, b: int)
    requires Name(server, a) == Name(server, b)
    ensures a == b
  {
    LogStreams.DecimalRoundTrip(a);
    LogStreams.DecimalRoundTrip(b);
    assert Name(server, a)[|server| + 1..] == LogStreams.Decimal(a);
    assert Name(server, b)[|server| + 1..] == LogStreams.Decimal(b);
  }

  // ----- Operations -----

  function Fault(s: System): System {
    s.(fault := true)
  }

  function WithConn(s: System, c: ConnId, k: Conn): System
    requires c < |s.conns|
  {
    s.(conns := s.conns[c := k])
  }

  function WithTable(s: System, l: nat, t: Table<ConnId>): System
    requires l < |s.loops|
  {
    s.(loops := s.loops[l := s.loops[l].(table := t)])
  }

  /** `queueInLoop`. */
  function Push(s: System, l: nat, f: Functor): System
    requires l < |s.loops|
  {
    s.(loops := s.loops[l := s.loops[l].(pending := s.loops[l].pending + [f])])
  }

  // `at` is the loop whose thread makes the call: every operation asserts that it is the right one.

  /** The connection becomes `k` and its channel tells the poller. */
  function UpdateChannel(s: System, at: nat, c: ConnId, k: Conn): System
    requires c < |s.conns| && k.loop < |s.loops|
  {
    var t := s.loops[k.loop].table;
    if at == k.loop && UpdateAsserts(t, c, k.fd, k.indexed)
    then WithTable(WithConn(s, c, k.(indexed := true)), k.loop, Updated(t, c, k.fd, k.Events()))
    else Fault(s)
  }

  function RemoveChannel(s: System, at: nat, c: ConnId): (r: System)
    requires s.Shaped() && c < |s.conns|
    ensures r.Shaped()
  {
    var k := s.conns[c];
    var t := s.loops[k.loop].table;
    if at == k.loop && RemoveAsserts(t, c, k.fd, k.Events()) then WithTable(s, k.loop, t - {k.fd}) else Fault(s)
  }

  function Connected(k: Conn): Conn {
    k.(reading := true, out := k.out.(state := TcpOutput.Connected), history := k.history + [Established])
  }

  function Shut(k: Conn): Conn {
    k.(reading := false, out := TcpOutput.Close(k.out), history := k.history + [Closed])
  }

  function Retired(k: Conn): Conn {
    k.(reading := false, out := TcpOutput.Retire(k.out), history := k.history + [Destroyed])
  }

  /** `connectEstablished`. */
  function Establish(s: System, at: nat, c: ConnId): (r: System)
    requires s.Shaped() && c < |s.conns|
    ensures r.Shaped()
  {
    var k := s.conns[c];
    if at == k.loop && k.out.state == TcpOutput.Connecting then UpdateChannel(s, at, c, Connected(k))
    else Fault(s)
  }

  /** `newConnection`: the established callback runs at once if the base loop serves the connection. */
  function NewConnection(s: System, at: nat, fd: int, l: nat, notify: bool): (r: System)
    requires s.Shaped() && l < |s.loops|
    ensures r.Shaped()
  {
    var c := |s.conns|;
    var s1 := Created(s, fd, l, notify);
    if at != 0 then Fault(s)
    else if l == at then Establish(s1, at, c)
    else Push(s1, l, ConnectEstablished(c))
  }

  function NewConn(l: nat, fd: int, notify: bool): Conn {
    Conn(l, fd, false, TcpOutput.Initial(notify), false, [], false)
  }

  function Created(s: System, fd: int, l: nat, notify: bool): (r: System)
    requires s.Shaped() && l < |s.loops|
    ensures r.Shaped() && |r.conns| == |s.conns| + 1
  {
    s.(conns := s.conns + [NewConn(l, fd, notify)],
       connections := s.connections + {|s.conns|})
  }

  /** `removeConnectionInLoop`. */
  function RemoveInLoop(s: System, at: nat, c: ConnId): (r: System)
    requires s.Shaped() && c < |s.conns|
    ensures r.Shaped() && |r.conns| == |s.conns|
  {
    if at == 0 && c in s.connections
    then Push(Erase(s, c), s.conns[c].loop, ConnectDestroyed(c))
    else Fault(s)
  }

  function Erase(s: System, c: ConnId): System
    requires c < |s.conns|
  {
    WithConn(s, c, s.conns[c].(history := s.conns[c].history + [Erased])).(connections := s.connections - {c})
  }

  /** `handleClose`, and `removeConnection` behind its close callback. */
  function HandleClose(s: System, at: nat, c: ConnId): (r: System)
    requires s.Shaped() && c < |s.conns|
    ensures r.Shaped() && |r.conns| == |s.conns|
  {
    var s1 := CloseChannel(s, at, c);
    if s1.fault then s1
    else if at == 0 then RemoveInLoop(s1, at, c)
    else Push(s1, 0, RemoveConnectionInLoop(c))
  }

  function CloseChannel(s: System, at: nat, c: ConnId): (r: System)
    requires s.Shaped() && c < |s.conns|
    ensures r.Shaped() && |r.conns| == |s.conns|
  {
    var k := s.conns[c];
    if at == k.loop && k.Up() then UpdateChannel(s, at, c, Shut(k))
    else Fault(s)
  }

  /** `connectDestroyed`. */
  function Destroy(s: System, at: nat, c: ConnId): (r: System)
    requires s.Shaped() && c < |s.conns|
    ensures r.Shaped()
  {
    var s1 := DisableChannel(s, at, c);
    if s1.fault then s1 else RemoveChannel(s1, at, c)
  }

  function DisableChannel(s: System, at: nat, c: ConnId): (r: System)
    requires s.Shaped() && c < |s.conns|
    ensures r.Shaped() && |r.conns| == |s.conns|
  {
    var k := s.conns[c];
    if at == k.loop && k.Up() then UpdateChannel(s, at, c, Retired(k))
    else Fault(s)
  }

  /** The output side changes; the poller is told when the writing interest does. */
  function SetOut(s: System, at: nat, c: ConnId, out: TcpOutput.Output): (r: System)
    requires s.Shaped() && c < |s.conns|
    ensures r.Shaped() && |r.conns| == |s.conns|
  {
    var k := s.conns[c].(out := out);
    if at != k.loop then Fault(s)
    else if out.writing == s.conns[c].out.writing then WithConn(s, c, k)
    else UpdateChannel(s, at, c, k)
  }

  /** One callback of a channel: `eof` says what a read finds, `n` what a write achieves. */
  function Call(s: System, at: nat, c: ConnId, call: Callback, eof: bool, n: int): (r: System)
    requires s.Shaped() && c < |s.conns|
    requires call == WriteCallback ==> n <= |s.conns[c].out.buffer|
    ensures r.Shaped() && |r.conns| == |s.conns|
  {
    if s.conns[c].released then Fault(s)
    else
      match call
      case CloseCallback => HandleClose(s, at, c)
      case ErrorCallback => s
      case ReadCallback => if eof then HandleClose(s, at, c) else s
      case WriteCallback => SetOut(s, at, c, TcpOutput.HandleWrite(s.conns[c].out, n))
  }

  function Execute(s: System, at: nat, f: Functor): (r: System)
    requires s.Shaped()
    ensures r.Shaped()
  {
    if f.conn >= |s.conns| || s.conns[f.conn].released then Fault(s)
    else
      match f
      case ConnectEstablished(c) => Establish(s, at, c)
      case RemoveConnectionInLoop(c) => RemoveInLoop(s, at, c)
      case ConnectDestroyed(c) => Destroy(s, at, c)
  }

  // ----- Steps -----

  datatype Step =
    | Accept(fd: int, on: nat, notify: bool)
    | PollReturns(loop: nat, ready: seq<Ready>)
    | NextChannel(loop: nat)
    | Callback(loop: nat, conn: ConnId, call: Polling.Callback, eof: bool, n: int)
    | BeginDrain(loop: nat)
    | RunFunctor(loop: nat, functor: Functor)
    | EndDrain(loop: nat)
    | Send(loop: nat, conn: ConnId, message: seq<byte>, nwrote: int)
    | Shutdown(loop: nat, conn: ConnId)
    | Release(conn: ConnId)

  /** The poll contract: ready entries are registered, not ignored, and reported once. */
  ghost predicate Reportable(t: Table<ConnId>, ready: seq<Ready>) {
    && (forall i :: 0 <= i < |ready| ==> ReadyIn(t, ready[i]))
    && (forall i, j :: 0 <= i < j < |ready| ==> ready[i].fd != ready[j].fd)
  }

  predicate ReadyIn(t: Table<ConnId>, r: Ready) {
    && r.fd in t && t[r.fd].owner == r.conn && !t[r.fd].ignored
    && r.revents != {} && r.revents <= t[r.fd].events + {ERR, HUP, NVAL}
  }

  /** A bound functor, or the connection map, keeps the connection alive. */
  ghost predicate Referenced(s: System, c: ConnId) {
    || c in s.connections
    || exists l, f :: 0 <= l < |s.loops| && f in s.loops[l].Queue() + s.loops[l].spent && f.conn == c
  }

  ghost predicate FdFree(s: System, fd: int) {
    forall c :: 0 <= c < |s.conns| && !s.conns[c].released ==> s.conns[c].fd != fd
  }

  ghost predicate Enabled(s: System, e: Step)
    requires s.Shaped()
  {
    match e
    case Accept(fd, l, notify) =>
      // in the base loop's handlers; the kernel reuses a descriptor only after it is closed
      l < |s.loops| && s.loops[0].phase == Handling && FdFree(s, fd)
    case PollReturns(l, ready) =>
      l < |s.loops| && s.loops[l].phase == Blocked && Reportable(s.loops[l].table, ready)
    case NextChannel(l) =>
      l < |s.loops| && s.loops[l].phase == Handling && s.loops[l].calls == [] && s.loops[l].active != []
    case Callback(l, c, call, eof, n) =>
      && l < |s.loops| && s.loops[l].phase == Handling && s.loops[l].calls != []
      && c == s.loops[l].current && call == s.loops[l].calls[0]
      && (c < |s.conns| ==> n <= |s.conns[c].out.buffer|)
    case BeginDrain(l) =>
      l < |s.loops| && s.loops[l].phase == Handling && s.loops[l].calls == [] && s.loops[l].active == []
    case RunFunctor(l, f) =>
      l < |s.loops| && s.loops[l].phase == Draining && s.loops[l].batch != [] && f == s.loops[l].batch[0]
    case EndDrain(l) =>
      l < |s.loops| && s.loops[l].phase == Draining && s.loops[l].batch == []
    case Send(l, c, message, nwrote) =>
      // on the connection's loop; a direct write does not fail
      && c < |s.conns| && !s.conns[c].released && l == s.conns[c].loop
      && 0 <= nwrote <= TcpOutput.StrLen(message)
    case Shutdown(l, c) =>
      c < |s.conns| && !s.conns[c].released && l == s.conns[c].loop
    case Release(c) =>
      c < |s.conns| && !s.conns[c].released && !Referenced(s, c)
  }

  function WithLoop(s: System, l: nat, p: Loop): System
    requires l < |s.loops|
  {
    s.(loops := s.loops[l := p])
  }

  function Popped(p: Loop): Loop
    requires p.batch != []
  {
    p.(batch := p.batch[1..], spent := p.spent + [p.batch[0]])
  }

  function Drained(p: Loop): Loop {
    p.(phase := Draining, batch := p.pending, pending := [])
  }

  function Next(s: System, e: Step): (r: System)
    requires s.Shaped() && Enabled(s, e)
    ensures r.Shaped()
  {
    match e
    case Accept(fd, l, notify) => NewConnection(s, 0, fd, l, notify)
    case PollReturns(l, ready) =>
      WithLoop(s, l, s.loops[l].(phase := Handling, active := ready))
    case NextChannel(l) =>
      var p := s.loops[l];
      WithLoop(s, l, p.(active := p.active[1..], current := p.active[0].conn, calls := Callbacks(p.active[0].revents)))
    case Callback(l, c, call, eof, n) =>
      var p := s.loops[l];
      var s1 := WithLoop(s, l, p.(calls := p.calls[1..]));
      if c < |s.conns| then Call(s1, l, c, call, eof, n) else Fault(s1)
    case BeginDrain(l) => WithLoop(s, l, Drained(s.loops[l]))
    case RunFunctor(l, f) => Execute(WithLoop(s, l, Popped(s.loops[l])), l, f)
    case EndDrain(l) => WithLoop(s, l, s.loops[l].(phase := Blocked, spent := []))
    case Send(l, c, message, nwrote) => SetOut(s, l, c, TcpOutput.Send(s.conns[c].out, message, nwrote))
    case Shutdown(l, c) => SetOut(s, l, c, TcpOutput.Shutdown(s.conns[c].out))
    case Release(c) => WithConn(s, c, s.conns[c].(released := true))
  }

  /** A hang-up without input is reported without urgent data or peer shutdown. */
  predicate Polite(e: Step) {
    e.PollReturns? ==> forall i :: 0 <= i < |e.ready| ==> ClosesOnce(e.ready[i].revents)
  }

  ghost predicate EnabledRun(s: System, es: seq<Step>)
    requires s.Shaped()
    decreases |es|
  {
    es == [] || (Enabled(s, es[0]) && EnabledRun(Next(s, es[0]), es[1..]))
  }

  ghost function Run(s: System, es: seq<Step>): (r: System)
    requires s.Shaped() && EnabledRun(s, es)
    ensures r.Shaped()
    decreases |es|
  {
    if es == [] then s else Run(Next(s, es[0]), es[1..])
  }

  // ----- The invariant -----

  /** A connection's fields, by how far it has come. */
  ghost predicate StageOk(k: Conn) {
    && k.Stage() <= |PATH| && k.history == PATH[..k.Stage()]
    && (k.out.state == TcpOutput.Connecting <==> k.Stage() == 0)
    && (k.out.state == TcpOutput.Disconnected <==> k.Stage() == 4)
    && (k.reading <==> k.Stage() == 1)
    && (k.indexed <==> 1 <= k.Stage())
    && (k.out.closed <==> 2 <= k.Stage())
    && (k.released ==> k.Stage() == 4)
  }

  ghost predicate OutOk(k: Conn) {
    TcpOutput.Inv(k.out) && !k.out.aborted
  }

  ghost predicate ConnsOk(s: System) {
    && (forall c :: 0 <= c < |s.conns| ==> StageOk(s.conns[c]) && OutOk(s.conns[c]))
    && (forall c: ConnId :: c in s.connections <==> c < |s.conns| && s.conns[c].Stage() <= 2)
  }

  /** Between establishment and destruction the channel is registered. */
  predicate Registered(k: Conn) {
    1 <= k.Stage() <= 3
  }

  function SlotOf(c: ConnId, k: Conn): Slot<ConnId> {
    Slot(c, k.Events(), 2 <= k.Stage())
  }

  predicate InTable(s: System, c: ConnId)
    requires s.Shaped() && c < |s.conns|
  {
    var k := s.conns[c];
    var t := s.loops[k.loop].table;
    k.fd in t && t[k.fd] == SlotOf(c, k)
  }

  predicate OwnerOk(s: System, l: nat, fd: int)
    requires l < |s.loops| && fd in s.loops[l].table
  {
    var c := s.loops[l].table[fd].owner;
    c < |s.conns| && Registered(s.conns[c]) && s.conns[c].loop == l && s.conns[c].fd == fd
  }

  ghost predicate TablesOk(s: System)
    requires s.Shaped()
  {
    && (forall c :: 0 <= c < |s.conns| && Registered(s.conns[c]) ==> InTable(s, c))
    && (forall l, fd :: 0 <= l < |s.loops| && fd in s.loops[l].table ==> OwnerOk(s, l, fd))
  }

  ghost predicate FdsOk(s: System) {
    forall c, d :: 0 <= c < d < |s.conns| && !s.conns[c].released && !s.conns[d].released ==>
      s.conns[c].fd != s.conns[d].fd
  }

  /** Before establishment, after closing and after erasing, the next step waits in a queue. */
  predicate Owing(k: Conn) {
    k.Stage() == 0 || k.Stage() == 2 || k.Stage() == 3
  }

  function Owed(c: ConnId, k: Conn): Functor {
    if k.Stage() == 0 then ConnectEstablished(c)
    else if k.Stage() == 2 then RemoveConnectionInLoop(c)
    else ConnectDestroyed(c)
  }

  function Place(k: Conn): nat {
    if k.Stage() == 2 then 0 else k.loop
  }

  predicate FunctorOk(s: System, l: nat, f: Functor) {
    f.conn < |s.conns| && Owing(s.conns[f.conn]) && f == Owed(f.conn, s.conns[f.conn]) && l == Place(s.conns[f.conn])
  }

  ghost predicate NoDuplicates(q: seq<Functor>) {
    forall i, j :: 0 <= i < j < |q| ==> q[i] != q[j]
  }

  predicate Waits(s: System, c: ConnId)
    requires s.Shaped() && c < |s.conns|
  {
    Owed(c, s.conns[c]) in s.loops[Place(s.conns[c])].Queue()
  }

  /** Every functor queued is owed, and every one owed is queued once; connection `x` apart. */
  ghost predicate QueuesOkBut(s: System, x: int)
    requires s.Shaped()
  {
    && (forall l, f :: 0 <= l < |s.loops| && f in s.loops[l].Queue() ==> FunctorOk(s, l, f) && f.conn != x)
    && (forall l :: 0 <= l < |s.loops| ==> NoDuplicates(s.loops[l].Queue()))
    && (forall c :: 0 <= c < |s.conns| && c != x && Owing(s.conns[c]) ==> Waits(s, c))
  }

  predicate Closing(call: Callback) {
    call == CloseCallback || call == ReadCallback
  }

  ghost predicate ClosingOnce(calls: seq<Callback>) {
    forall i, j :: 0 <= i < j < |calls| && Closing(calls[i]) ==> !Closing(calls[j])
  }

  ghost predicate NeverClosing(calls: seq<Callback>) {
    forall i :: 0 <= i < |calls| ==> !Closing(calls[i])
  }

  /** A channel waiting to be handled belongs to an open connection of this loop. */
  predicate ActiveOk(s: System, l: nat, r: Ready) {
    && r.conn < |s.conns| && s.conns[r.conn].loop == l && s.conns[r.conn].Stage() == 1
    && s.conns[r.conn].fd == r.fd && ClosesOnce(r.revents)
  }

  /** The channel being handled can close only while it is open. */
  ghost predicate CurrentOk(s: System, l: nat, c: ConnId, calls: seq<Callback>) {
    && c < |s.conns| && s.conns[c].loop == l && Registered(s.conns[c])
    && ClosingOnce(calls) && (2 <= s.conns[c].Stage() ==> NeverClosing(calls))
  }

  ghost predicate WorkOk(s: System, l: nat)
    requires l < |s.loops|
  {
    var p := s.loops[l];
    && (p.phase != Handling ==> p.active == [] && p.calls == [])
    && (p.phase != Draining ==> p.batch == [])
    && (forall i :: 0 <= i < |p.active| ==> ActiveOk(s, l, p.active[i]))
    && (forall i, j :: 0 <= i < j < |p.active| ==> p.active[i].fd != p.active[j].fd)
    && (p.calls != [] ==> CurrentOk(s, l, p.current, p.calls))
    && (p.calls != [] ==> forall i :: 0 <= i < |p.active| ==> p.active[i].conn != p.current)
  }

  ghost predicate WorksOk(s: System) {
    forall l :: 0 <= l < |s.loops| ==> WorkOk(s, l)
  }

  ghost predicate Core(s: System) {
    s.Shaped() && !s.fault && ConnsOk(s) && TablesOk(s) && FdsOk(s)
  }

  /** The invariant, but for a functor about connection `x`. */
  ghost predicate InvBut(s: System, x: int) {
    Core(s) && QueuesOkBut(s, x) && WorksOk(s)
  }

  ghost predicate Inv(s: System) {
    InvBut(s, -1)
  }

  // ----- Queues -----

  ghost predicate SameQueues(s: System, r: System) {
    |r.loops| == |s.loops| && forall l :: 0 <= l < |s.loops| ==> r.loops[l].Queue() == s.loops[l].Queue()
  }

  /** Connections other than `x` are the same ones at the same stage. */
  ghost predicate OthersStay(s: System, r: System, x: int) {
    forall c :: 0 <= c < |r.conns| && c != x ==>
      c < |s.conns| && r.conns[c].Stage() == s.conns[c].Stage() && r.conns[c].loop == s.conns[c].loop
  }

  lemma QueuesFrame(s: System, r: System, x: int)
    requires s.Shaped() && r.Shaped() && QueuesOkBut(s, x)
    requires SameQueues(s, r) && OthersStay(s, r, x) && |s.conns| <= |r.conns|
    ensures QueuesOkBut(r, x)
  {
    forall l, f | 0 <= l < |r.loops| && f in r.loops[l].Queue()
      ensures FunctorOk(r, l, f) && f.conn != x
    {
      assert FunctorOk(s, l, f);
    }
    forall c | 0 <= c < |r.conns| && c != x && Owing(r.conns[c])
      ensures Waits(r, c)
    {
      assert Waits(s, c);
    }
  }

  lemma Excluded(s: System, x: nat)
    requires s.Shaped() && QueuesOkBut(s, -1) && (x < |s.conns| ==> !Owing(s.conns[x]))
    ensures QueuesOkBut(s, x)
  {
    forall l, f | 0 <= l < |s.loops| && f in s.loops[l].Queue()
      ensures f.conn != x
    {
      assert FunctorOk(s, l, f);
    }
  }

  lemma Settled(s: System, x: nat)
    requires s.Shaped() && x < |s.conns| && QueuesOkBut(s, x) && !Owing(s.conns[x])
    ensures QueuesOkBut(s, -1)
  {
  }

  lemma PushQueue(s: System, m: nat, g: Functor)
    requires m < |s.loops|
    ensures var r := Push(s, m, g);
            && |r.loops| == |s.loops|
            && r.loops[m].Queue() == s.loops[m].Queue() + [g]
            && (forall l :: 0 <= l < |s.loops| && l != m ==> r.loops[l] == s.loops[l])
            && (forall l, f :: 0 <= l < |s.loops| ==>
                  (f in r.loops[l].Queue() <==> f in s.loops[l].Queue() || (l == m && f == g)))
  {
    var r := Push(s, m, g);
    assert r.loops[m].Queue() == s.loops[m].Queue() + [g];
  }

  lemma PushSettles(s: System, x: nat)
    requires s.Shaped() && x < |s.conns| && QueuesOkBut(s, x) && Owing(s.conns[x])
    ensures QueuesOkBut(Push(s, Place(s.conns[x]), Owed(x, s.conns[x])), -1)
  {
    var m, g := Place(s.conns[x]), Owed(x, s.conns[x]);
    var r := Push(s, m, g);
    PushQueue(s, m, g);
    forall l, f | 0 <= l < |r.loops| && f in r.loops[l].Queue()
      ensures FunctorOk(r, l, f)
    {
      assert f in s.loops[l].Queue() ==> FunctorOk(s, l, f);
    }
    forall c | 0 <= c < |r.conns| && Owing(r.conns[c])
      ensures Waits(r, c)
    {
      assert c != x ==> Waits(s, c);
    }
    assert g !in s.loops[m].Queue();
    SnocDistinct(s.loops[m].Queue(), g);
  }

  lemma SnocDistinct(q: seq<Functor>, g: Functor)
    requires NoDuplicates(q) && g !in q
    ensures NoDuplicates(q + [g])
  {
  }

  lemma PopExcludes(s: System, l: nat)
    requires s.Shaped() && QueuesOkBut(s, -1) && l < |s.loops| && s.loops[l].batch != []
    ensures var f := s.loops[l].batch[0];
            FunctorOk(s, l, f) && QueuesOkBut(WithLoop(s, l, Popped(s.loops[l])), f.conn)
  {
    var f := s.loops[l].batch[0];
    var r := WithLoop(s, l, Popped(s.loops[l]));
    var q, rest := s.loops[l].Queue(), r.loops[l].Queue();
    assert q == [f] + rest;
    assert f in q;
    assert FunctorOk(s, l, f);
    forall m, g | 0 <= m < |r.loops| && g in r.loops[m].Queue()
      ensures FunctorOk(r, m, g) && g.conn != f.conn
    {
      assert g in s.loops[m].Queue();
      assert FunctorOk(s, m, g);
      if m == l {
        var i :| 0 <= i < |rest| && rest[i] == g;
        assert q[0] == f && q[i + 1] == g;
      }
    }
    forall i | 0 <= i < |rest|
      ensures rest[i] == q[i + 1]
    {
    }
    forall c | 0 <= c < |r.conns| && c != f.conn && Owing(r.conns[c])
      ensures Waits(r, c)
    {
      assert Waits(s, c);
    }
  }

  // ----- Tables -----

  ghost predicate SameTables(s: System, r: System) {
    |r.loops| == |s.loops| && forall l :: 0 <= l < |s.loops| ==> r.loops[l].table == s.loops[l].table
  }

  /** To the pollers, `r` has the connections of `s`. */
  ghost predicate SameSlots(s: System, r: System) {
    && |r.conns| == |s.conns|
    && forall c :: 0 <= c < |s.conns| ==>
         && r.conns[c].loop == s.conns[c].loop && r.conns[c].fd == s.conns[c].fd
         && Registered(r.conns[c]) == Registered(s.conns[c]) && SlotOf(c, r.conns[c]) == SlotOf(c, s.conns[c])
  }

  lemma TablesFrame(s: System, r: System)
    requires s.Shaped() && r.Shaped() && TablesOk(s) && SameTables(s, r) && SameSlots(s, r)
    ensures TablesOk(r)
  {
    forall c | 0 <= c < |r.conns| && Registered(r.conns[c])
      ensures InTable(r, c)
    {
      assert InTable(s, c);
    }
    forall l, fd | 0 <= l < |r.loops| && fd in r.loops[l].table
      ensures OwnerOk(r, l, fd)
    {
      assert OwnerOk(s, l, fd);
    }
  }

  /** Live connections do not share a descriptor. */
  lemma FdsDiffer(s: System, c: ConnId, d: ConnId)
    requires FdsOk(s) && c < |s.conns| && d < |s.conns| && c != d
    requires !s.conns[c].released && !s.conns[d].released
    ensures s.conns[c].fd != s.conns[d].fd
  {
  }

  /** The new slot of a connection, and how its stage moves with it. */
  ghost predicate UpdateOk(k: Conn, next: Conn) {
    && !k.released && next.fd == k.fd && next.loop == k.loop && next.indexed == k.indexed && Registered(next)
    && k.Stage() <= 3 && (k.indexed <==> Registered(k))
    && (2 <= next.Stage() <==> k.indexed && (2 <= k.Stage() || next.Events() == NONE_EVENT))
  }

  lemma UpdateAllowed(s: System, c: ConnId, k: Conn)
    requires Core(s) && c < |s.conns| && UpdateOk(s.conns[c], k)
    ensures UpdateAsserts(s.loops[k.loop].table, c, k.fd, k.indexed)
  {
    var t := s.loops[k.loop].table;
    if k.indexed {
      assert InTable(s, c);
    } else if k.fd in t {
      assert OwnerOk(s, k.loop, k.fd);
      FdsDiffer(s, c, t[k.fd].owner);
    }
  }

  lemma UpdateKeepsTables(s: System, c: ConnId, k: Conn)
    requires Core(s) && c < |s.conns| && UpdateOk(s.conns[c], k)
    ensures var r := UpdateChannel(s, k.loop, c, k); r.Shaped() && TablesOk(r)
  {
    UpdateAllowed(s, c, k);
    var r := UpdateChannel(s, k.loop, c, k);
    forall d | 0 <= d < |r.conns| && Registered(r.conns[d])
      ensures InTable(r, d)
    {
      if d != c {
        assert InTable(s, d);
        FdsDiffer(s, c, d);
      } else if k.indexed {
        assert InTable(s, c);
      }
    }
    forall l, fd | 0 <= l < |r.loops| && fd in r.loops[l].table
      ensures OwnerOk(r, l, fd)
    {
      assert (l == k.loop && fd == k.fd) || OwnerOk(s, l, fd);
    }
  }

  /** Apart from tables and connection `c`, which becomes `k`, nothing changes. */
  ghost predicate Only(s: System, r: System, c: ConnId, k: Conn)
    requires c < |s.conns|
  {
    && r.conns == s.conns[c := k] && r.connections == s.connections
    && SameQueues(s, r) && SameWork(s, r)
  }

  ghost predicate SameWork(s: System, r: System) {
    |r.loops| == |s.loops| && forall l :: 0 <= l < |s.loops| ==> SameWorkAt(s.loops[l], r.loops[l])
  }

  predicate SameWorkAt(p: Loop, q: Loop) {
    && q.phase == p.phase && q.active == p.active && q.current == p.current && q.calls == p.calls
    && (p.batch == [] ==> q.batch == [])
  }

  lemma UpdateKeepsCore(s: System, c: ConnId, k: Conn)
    requires Core(s) && c < |s.conns| && UpdateOk(s.conns[c], k)
    requires StageOk(k.(indexed := true)) && OutOk(k)
    requires k.Stage() <= 2 <==> s.conns[c].Stage() <= 2
    ensures var r := UpdateChannel(s, k.loop, c, k); Core(r) && Only(s, r, c, k.(indexed := true))
  {
    UpdateAllowed(s, c, k);
    UpdateKeepsTables(s, c, k);
    var r := UpdateChannel(s, k.loop, c, k);
    forall d | 0 <= d < |r.conns|
      ensures r.conns[d].fd == s.conns[d].fd && (r.conns[d].released == s.conns[d].released)
    {
    }
  }

  // ----- Work -----

  /** Whether loop `l`, as it stands, allows connection `c` to be at stage `stage`. */
  ghost predicate Permits(p: Loop, c: ConnId, stage: nat) {
    && (forall i :: 0 <= i < |p.active| && p.active[i].conn == c ==> stage == 1)
    && (p.calls != [] && p.current == c ==> 1 <= stage <= 3 && (2 <= stage ==> NeverClosing(p.calls)))
  }

  ghost predicate AllPermit(s: System, c: ConnId, stage: nat) {
    forall l :: 0 <= l < |s.loops| ==> Permits(s.loops[l], c, stage)
  }

  lemma WorksMove(s: System, r: System, c: ConnId)
    requires WorksOk(s) && SameWork(s, r) && |s.conns| <= |r.conns| && OthersStay(s, r, c) && c < |r.conns|
    requires forall d :: 0 <= d < |s.conns| ==> r.conns[d].fd == s.conns[d].fd && r.conns[d].loop == s.conns[d].loop
    requires AllPermit(s, c, r.conns[c].Stage())
    ensures WorksOk(r)
  {
    forall l | 0 <= l < |r.loops|
      ensures WorkOk(r, l)
    {
      assert WorkOk(s, l) && Permits(s.loops[l], c, r.conns[c].Stage()) && SameWorkAt(s.loops[l], r.loops[l]);
      var p := s.loops[l];
      forall i | 0 <= i < |p.active|
        ensures ActiveOk(r, l, p.active[i])
      {
        assert ActiveOk(s, l, p.active[i]);
      }
    }
  }

  /** Stages a connection reaches in functors are permitted by every loop. */
  lemma FunctorsPermitted(s: System, c: ConnId, stage: nat)
    requires s.Shaped() && WorksOk(s) && c < |s.conns|
    requires
      || (s.conns[c].Stage() == 0 && stage == 1)
      || (s.conns[c].Stage() == 2 && stage == 3)
      || (s.conns[c].Stage() == 3 && stage == 4 && s.loops[s.conns[c].loop].phase == Draining)
      || s.conns[c].Stage() == stage
    ensures AllPermit(s, c, stage)
  {
    forall l | 0 <= l < |s.loops|
      ensures Permits(s.loops[l], c, stage)
    {
      var p := s.loops[l];
      assert WorkOk(s, l);
      forall i | 0 <= i < |p.active| && p.active[i].conn == c
        ensures stage == 1
      {
        assert ActiveOk(s, l, p.active[i]);
      }
    }
  }

  // ----- What each operation keeps -----

  lemma PushKeeps(s: System, x: nat)
    requires InvBut(s, x) && x < |s.conns| && Owing(s.conns[x])
    ensures Inv(Push(s, Place(s.conns[x]), Owed(x, s.conns[x])))
  {
    var m, g := Place(s.conns[x]), Owed(x, s.conns[x]);
    var r := Push(s, m, g);
    PushSettles(s, x);
    TablesFrame(s, r);
    FunctorsPermitted(s, x, s.conns[x].Stage());
    WorksMove(s, r, x);
  }

  lemma EstablishKeeps(s: System, c: ConnId)
    requires c < |s.conns| && InvBut(s, c) && s.conns[c].Stage() == 0
    ensures Inv(Establish(s, s.conns[c].loop, c))
  {
    var k, r := s.conns[c], Establish(s, s.conns[c].loop, c);
    var k1 := Connected(k);
    assert StageOk(k);
    assert IN in k1.Events();
    UpdateKeepsCore(s, c, k1);
    FunctorsPermitted(s, c, 1);
    WorksMove(s, r, c);
    QueuesFrame(s, r, c);
    Settled(r, c);
  }

  lemma EraseKeepsCore(s: System, c: ConnId)
    requires c < |s.conns| && Core(s) && s.conns[c].Stage() == 2
    ensures Core(Erase(s, c))
  {
    var r := Erase(s, c);
    assert StageOk(s.conns[c]);
    assert StageOk(r.conns[c]) by {
      assert r.conns[c].history == PATH[..3];
    }
    TablesFrame(s, r);
  }

  lemma EraseKeeps(s: System, c: ConnId)
    requires c < |s.conns| && InvBut(s, c) && s.conns[c].Stage() == 2
    ensures var r := Erase(s, c); InvBut(r, c) && r.conns[c].Stage() == 3 && r.conns[c].loop == s.conns[c].loop
  {
    var r := Erase(s, c);
    EraseKeepsCore(s, c);
    FunctorsPermitted(s, c, 3);
    WorksMove(s, r, c);
    QueuesFrame(s, r, c);
  }

  lemma RemoveKeeps(s: System, c: ConnId)
    requires c < |s.conns| && InvBut(s, c) && s.conns[c].Stage() == 2
    ensures Inv(RemoveInLoop(s, 0, c))
  {
    EraseKeeps(s, c);
    PushKeeps(Erase(s, c), c);
  }

  lemma CloseChannelKeeps(s: System, c: ConnId)
    requires Inv(s) && c < |s.conns| && s.conns[c].Stage() == 1 && AllPermit(s, c, 2)
    ensures var r := CloseChannel(s, s.conns[c].loop, c);
            InvBut(r, c) && r.conns[c].Stage() == 2 && r.conns[c].loop == s.conns[c].loop
  {
    var k, r := s.conns[c], CloseChannel(s, s.conns[c].loop, c);
    var k1 := Shut(k);
    assert StageOk(k) && OutOk(k);
    assert k1.history == PATH[..2];
    TcpOutput.StepKeeps(k.out, TcpOutput.HandleClose);
    assert k1.Events() == NONE_EVENT;
    UpdateKeepsCore(s, c, k1);
    WorksMove(s, r, c);
    Excluded(s, c);
    QueuesFrame(s, r, c);
  }

  lemma HandleCloseKeeps(s: System, c: ConnId)
    requires Inv(s) && c < |s.conns| && s.conns[c].Stage() == 1 && AllPermit(s, c, 2)
    ensures Inv(HandleClose(s, s.conns[c].loop, c))
  {
    CloseChannelKeeps(s, c);
    var s1 := CloseChannel(s, s.conns[c].loop, c);
    if s.conns[c].loop == 0 {
      RemoveKeeps(s1, c);
    } else {
      PushKeeps(s1, c);
    }
  }

  /** The assertions on the way hold, and the connection's slot goes. */
  lemma DestroyEffect(s: System, c: ConnId)
    requires Core(s) && c < |s.conns| && s.conns[c].Stage() == 3
    ensures var k := s.conns[c];
            Destroy(s, k.loop, c) == WithTable(WithConn(s, c, Retired(k)), k.loop, s.loops[k.loop].table - {k.fd})
  {
    var k := s.conns[c];
    var t := s.loops[k.loop].table;
    assert StageOk(k) && InTable(s, c);
    assert Retired(k).Events() == NONE_EVENT;
    var s1 := DisableChannel(s, k.loop, c);
    assert s1 == WithTable(WithConn(s, c, Retired(k)), k.loop, t[k.fd := Slot(c, NONE_EVENT, true)]);
    assert s1.loops[k.loop].table - {k.fd} == t - {k.fd};
  }

  lemma DestroyKeepsTables(s: System, c: ConnId)
    requires Core(s) && c < |s.conns| && s.conns[c].Stage() == 3
    ensures TablesOk(Destroy(s, s.conns[c].loop, c))
  {
    DestroyEffect(s, c);
    var k, r := s.conns[c], Destroy(s, s.conns[c].loop, c);
    assert InTable(s, c);
    forall d | 0 <= d < |r.conns| && Registered(r.conns[d])
      ensures InTable(r, d)
    {
      assert d != c && InTable(s, d);
      FdsDiffer(s, c, d);
    }
    forall l, fd | 0 <= l < |r.loops| && fd in r.loops[l].table
      ensures OwnerOk(r, l, fd)
    {
      assert OwnerOk(s, l, fd);
    }
  }

  lemma RetiredOk(k: Conn)
    requires StageOk(k) && OutOk(k) && k.Stage() == 3
    ensures StageOk(Retired(k)) && OutOk(Retired(k))
  {
    TcpOutput.StepKeeps(k.out, TcpOutput.Destroy);
    assert Retired(k).history == PATH[..4];
  }

  lemma DestroyKeeps(s: System, c: ConnId)
    requires c < |s.conns| && InvBut(s, c) && s.conns[c].Stage() == 3
    requires s.loops[s.conns[c].loop].phase == Draining
    ensures Inv(Destroy(s, s.conns[c].loop, c))
  {
    var k, r := s.conns[c], Destroy(s, s.conns[c].loop, c);
    RetiredOk(k);
    DestroyEffect(s, c);
    DestroyKeepsTables(s, c);
    assert r.conns == s.conns[c := Retired(k)];
    FunctorsPermitted(s, c, 4);
    WorksMove(s, r, c);
    QueuesFrame(s, r, c);
    Settled(r, c);
  }

  /** A change of the output side that leaves the stage alone. */
  ghost predicate OutStep(k: Conn, out: TcpOutput.Output) {
    && TcpOutput.Inv(out) && !out.aborted && out.closed == k.out.closed
    && (out.state == k.out.state || (k.out.state == TcpOutput.Connected && out.state == TcpOutput.Disconnecting))
    && (out.writing != k.out.writing ==> Registered(k))
  }

  /** A change the pollers and the queues do not see. */
  lemma StayKeeps(s: System, c: ConnId, k: Conn)
    requires Inv(s) && c < |s.conns| && StageOk(k) && OutOk(k)
    requires k.loop == s.conns[c].loop && k.fd == s.conns[c].fd && k.Stage() == s.conns[c].Stage()
    requires k.Events() == s.conns[c].Events() && (s.conns[c].released ==> k.released)
    ensures Inv(WithConn(s, c, k))
  {
    var r := WithConn(s, c, k);
    TablesFrame(s, r);
    FunctorsPermitted(s, c, k.Stage());
    WorksMove(s, r, c);
    QueuesFrame(s, r, -1);
  }

  lemma SetOutKeeps(s: System, c: ConnId, out: TcpOutput.Output)
    requires Inv(s) && c < |s.conns| && OutStep(s.conns[c], out)
    ensures Inv(SetOut(s, s.conns[c].loop, c, out))
  {
    var k, r := s.conns[c], SetOut(s, s.conns[c].loop, c, out);
    var k1 := k.(out := out);
    assert StageOk(k) && StageOk(k1);
    if out.writing == k.out.writing {
      StayKeeps(s, c, k1);
    } else {
      assert k.Stage() == 1 ==> IN in k1.Events();
      UpdateKeepsCore(s, c, k1);
      assert k1.(indexed := true) == k1;
      FunctorsPermitted(s, c, k.Stage());
      WorksMove(s, r, c);
      QueuesFrame(s, r, -1);
    }
  }

  // ----- What each step keeps -----

  lemma LoopKeepsCore(s: System, l: nat, p: Loop)
    requires Core(s) && l < |s.loops| && p.table == s.loops[l].table
    ensures Core(WithLoop(s, l, p))
  {
    TablesFrame(s, WithLoop(s, l, p));
  }

  lemma LoopKeepsWorks(s: System, l: nat, p: Loop)
    requires WorksOk(s) && l < |s.loops| && WorkOk(WithLoop(s, l, p), l)
    ensures WorksOk(WithLoop(s, l, p))
  {
    var r := WithLoop(s, l, p);
    forall m | 0 <= m < |r.loops|
      ensures WorkOk(r, m)
    {
      assert WorkOk(s, m);
      assert m != l ==> forall i :: 0 <= i < |s.loops[m].active| ==> ActiveOk(s, m, s.loops[m].active[i]);
    }
  }

  /** A loop may change what only it sees, if its queue and its table stay. */
  lemma LoopKeeps(s: System, l: nat, p: Loop)
    requires Inv(s) && l < |s.loops|
    requires p.table == s.loops[l].table && p.Queue() == s.loops[l].Queue()
    requires WorkOk(WithLoop(s, l, p), l)
    ensures Inv(WithLoop(s, l, p))
  {
    LoopKeepsCore(s, l, p);
    LoopKeepsWorks(s, l, p);
    QueuesFrame(s, WithLoop(s, l, p), -1);
  }

  /** An unignored slot belongs to an open connection. */
  lemma ReadyIsOpen(s: System, l: nat, r: Ready)
    requires Inv(s) && l < |s.loops| && ReadyIn(s.loops[l].table, r) && ClosesOnce(r.revents)
    ensures ActiveOk(s, l, r)
  {
    assert OwnerOk(s, l, r.fd);
    assert InTable(s, r.conn);
  }

  lemma PollReturnsKeeps(s: System, l: nat, ready: seq<Ready>)
    requires Inv(s) && Enabled(s, PollReturns(l, ready)) && Polite(PollReturns(l, ready))
    ensures Inv(Next(s, PollReturns(l, ready)))
  {
    var p := s.loops[l].(phase := Handling, active := ready);
    var r := WithLoop(s, l, p);
    assert WorkOk(s, l);
    forall i | 0 <= i < |ready|
      ensures ActiveOk(r, l, ready[i])
    {
      ReadyIsOpen(s, l, ready[i]);
    }
    LoopKeeps(s, l, p);
  }

  lemma CallbacksCloseOnce(revents: set<Flag>)
    requires ClosesOnce(revents)
    ensures ClosingOnce(Callbacks(revents))
  {
    ClosesOnceExactly(revents);
    var calls := Callbacks(revents);
    forall i, j | 0 <= i < j < |calls| && Closing(calls[i])
      ensures !Closing(calls[j])
    {
      assert calls[i] in calls && calls[j] in calls;
    }
  }

  lemma NextChannelKeeps(s: System, l: nat)
    requires Inv(s) && Enabled(s, NextChannel(l))
    ensures Inv(Next(s, NextChannel(l)))
  {
    var p := s.loops[l];
    var q := p.(active := p.active[1..], current := p.active[0].conn, calls := Callbacks(p.active[0].revents));
    var r := WithLoop(s, l, q);
    assert WorkOk(s, l) && ActiveOk(s, l, p.active[0]);
    CallbacksCloseOnce(p.active[0].revents);
    forall i | 0 <= i < |q.active|
      ensures ActiveOk(r, l, q.active[i]) && q.active[i].conn != q.current
    {
      assert q.active[i] == p.active[i + 1] && ActiveOk(s, l, p.active[i + 1]);
    }
    LoopKeeps(s, l, q);
  }

  lemma BeginDrainKeeps(s: System, l: nat)
    requires Inv(s) && Enabled(s, BeginDrain(l))
    ensures Inv(Next(s, BeginDrain(l)))
  {
    assert WorkOk(s, l);
    var p := s.loops[l];
    assert Drained(p).Queue() == p.pending + [] == [] + p.pending == p.Queue();
    LoopKeeps(s, l, Drained(p));
  }

  lemma EndDrainKeeps(s: System, l: nat)
    requires Inv(s) && Enabled(s, EndDrain(l))
    ensures Inv(Next(s, EndDrain(l)))
  {
    assert WorkOk(s, l);
    LoopKeeps(s, l, s.loops[l].(phase := Blocked, spent := []));
  }

  lemma PopKeeps(s: System, l: nat)
    requires Inv(s) && l < |s.loops| && s.loops[l].batch != [] && s.loops[l].phase == Draining
    ensures var f := s.loops[l].batch[0];
            FunctorOk(s, l, f) && InvBut(WithLoop(s, l, Popped(s.loops[l])), f.conn)
  {
    PopExcludes(s, l);
    assert WorkOk(s, l);
    LoopKeepsCore(s, l, Popped(s.loops[l]));
    LoopKeepsWorks(s, l, Popped(s.loops[l]));
  }

  lemma RunFunctorKeeps(s: System, l: nat, f: Functor)
    requires Inv(s) && Enabled(s, RunFunctor(l, f))
    ensures Inv(Next(s, RunFunctor(l, f)))
  {
    PopKeeps(s, l);
    var r := WithLoop(s, l, Popped(s.loops[l]));
    assert StageOk(s.conns[f.conn]);
    match f
    case ConnectEstablished(c) => EstablishKeeps(r, c);
    case RemoveConnectionInLoop(c) => RemoveKeeps(r, c);
    case ConnectDestroyed(c) => DestroyKeeps(r, c);
  }

  lemma CreatedKeepsTables(s: System, fd: int, l: nat, notify: bool)
    requires s.Shaped() && TablesOk(s) && l < |s.loops|
    ensures TablesOk(Created(s, fd, l, notify))
  {
    var c, r := |s.conns|, Created(s, fd, l, notify);
    forall d | 0 <= d < |r.conns| && Registered(r.conns[d])
      ensures InTable(r, d)
    {
      assert d < c && InTable(s, d);
    }
    forall m, f | 0 <= m < |r.loops| && f in r.loops[m].table
      ensures OwnerOk(r, m, f)
    {
      assert OwnerOk(s, m, f);
    }
  }

  lemma CreatedKeepsFds(s: System, fd: int, l: nat, notify: bool)
    requires s.Shaped() && FdsOk(s) && l < |s.loops| && FdFree(s, fd)
    ensures FdsOk(Created(s, fd, l, notify))
  {
  }

  lemma CreatedKeepsConns(s: System, fd: int, l: nat, notify: bool)
    requires s.Shaped() && ConnsOk(s) && l < |s.loops|
    ensures ConnsOk(Created(s, fd, l, notify))
  {
    var c, r := |s.conns|, Created(s, fd, l, notify);
    NewConnOk(l, fd, notify);
    forall d | 0 <= d < |r.conns|
      ensures StageOk(r.conns[d]) && OutOk(r.conns[d])
    {
      assert d < c ==> r.conns[d] == s.conns[d];
    }
  }

  lemma NewConnOk(l: nat, fd: int, notify: bool)
    ensures var k := NewConn(l, fd, notify); StageOk(k) && OutOk(k)
  {
  }

  lemma CreatedKeepsCore(s: System, fd: int, l: nat, notify: bool)
    requires Core(s) && l < |s.loops| && FdFree(s, fd)
    ensures Core(Created(s, fd, l, notify))
  {
    CreatedKeepsTables(s, fd, l, notify);
    CreatedKeepsFds(s, fd, l, notify);
    CreatedKeepsConns(s, fd, l, notify);
  }

  lemma CreatedKeeps(s: System, fd: int, l: nat, notify: bool)
    requires Inv(s) && l < |s.loops| && FdFree(s, fd)
    ensures InvBut(Created(s, fd, l, notify), |s.conns|)
  {
    var c, r := |s.conns|, Created(s, fd, l, notify);
    CreatedKeepsCore(s, fd, l, notify);
    Excluded(s, c);
    QueuesFrame(s, r, c);
    forall m | 0 <= m < |s.loops|
      ensures Permits(s.loops[m], c, 0)
    {
      assert WorkOk(s, m);
      assert forall i :: 0 <= i < |s.loops[m].active| ==> ActiveOk(s, m, s.loops[m].active[i]);
    }
    WorksMove(s, r, c);
  }

  lemma AcceptKeeps(s: System, fd: int, l: nat, notify: bool)
    requires Inv(s) && l < |s.loops| && FdFree(s, fd)
    ensures Inv(NewConnection(s, 0, fd, l, notify))
  {
    CreatedKeeps(s, fd, l, notify);
    var c, r := |s.conns|, Created(s, fd, l, notify);
    if l == 0 {
      EstablishKeeps(r, c);
    } else {
      PushKeeps(r, c);
    }
  }

  /** Only a destroyed connection is without references, and no poller knows it. */
  lemma UnreferencedIsDestroyed(s: System, c: ConnId)
    requires Inv(s) && c < |s.conns| && !Referenced(s, c)
    ensures s.conns[c].history == PATH
    ensures forall l, fd :: 0 <= l < |s.loops| && fd in s.loops[l].table ==> s.loops[l].table[fd].owner != c
  {
    var k := s.conns[c];
    assert StageOk(k);
    assert Owing(k) ==> Waits(s, c);
    forall l, f | 0 <= l < |s.loops| && f in s.loops[l].Queue()
      ensures f.conn != c
    {
      assert f in s.loops[l].Queue() + s.loops[l].spent;
    }
    assert PATH[..4] == PATH;
    forall l, fd | 0 <= l < |s.loops| && fd in s.loops[l].table
      ensures s.loops[l].table[fd].owner != c
    {
      assert OwnerOk(s, l, fd);
    }
  }

  lemma ReleaseKeeps(s: System, c: ConnId)
    requires Inv(s) && Enabled(s, Release(c))
    ensures Inv(Next(s, Release(c)))
  {
    UnreferencedIsDestroyed(s, c);
    assert StageOk(s.conns[c]) && OutOk(s.conns[c]);
    StayKeeps(s, c, s.conns[c].(released := true));
  }

  lemma SendKeeps(s: System, l: nat, c: ConnId, message: seq<byte>, nwrote: int)
    requires Inv(s) && Enabled(s, Send(l, c, message, nwrote))
    ensures Inv(Next(s, Send(l, c, message, nwrote)))
  {
    var k := s.conns[c];
    assert StageOk(k) && OutOk(k);
    TcpOutput.StepKeeps(k.out, TcpOutput.DoSend(message, nwrote));
    TcpOutput.AbortsExactly(k.out, TcpOutput.DoSend(message, nwrote));
    SetOutKeeps(s, c, TcpOutput.Send(k.out, message, nwrote));
  }

  lemma ShutdownKeeps(s: System, l: nat, c: ConnId)
    requires Inv(s) && Enabled(s, Shutdown(l, c))
    ensures Inv(Next(s, Shutdown(l, c)))
  {
    var k := s.conns[c];
    assert StageOk(k) && OutOk(k);
    TcpOutput.StepKeeps(k.out, TcpOutput.DoShutdown);
    SetOutKeeps(s, c, TcpOutput.Shutdown(k.out));
  }

  /** Taking the next callback off; if it may close, no loop objects to that. */
  lemma TakeCallKeeps(s: System, l: nat)
    requires Inv(s) && l < |s.loops| && s.loops[l].calls != []
    ensures var p := s.loops[l];
            var r := WithLoop(s, l, p.(calls := p.calls[1..]));
            && Inv(r) && p.current < |s.conns| && Registered(s.conns[p.current]) && s.conns[p.current].loop == l
            && (Closing(p.calls[0]) ==> s.conns[p.current].Stage() == 1 && AllPermit(r, p.current, 2))
  {
    var p := s.loops[l];
    var q := p.(calls := p.calls[1..]);
    var r := WithLoop(s, l, q);
    assert WorkOk(s, l) && CurrentOk(s, l, p.current, p.calls);
    assert forall i :: 0 <= i < |q.calls| ==> q.calls[i] == p.calls[i + 1];
    assert forall i :: 0 <= i < |p.active| ==> ActiveOk(s, l, p.active[i]);
    LoopKeeps(s, l, q);
    if Closing(p.calls[0]) {
      forall m | 0 <= m < |r.loops|
        ensures Permits(r.loops[m], p.current, 2)
      {
        assert WorkOk(s, m);
        assert m != l ==> forall i :: 0 <= i < |s.loops[m].active| ==> ActiveOk(s, m, s.loops[m].active[i]);
      }
    }
  }

  lemma CallbackKeeps(s: System, l: nat, c: ConnId, call: Polling.Callback, eof: bool, n: int)
    requires Inv(s) && Enabled(s, Callback(l, c, call, eof, n))
    ensures Inv(Next(s, Callback(l, c, call, eof, n)))
  {
    TakeCallKeeps(s, l);
    var p := s.loops[l];
    var r := WithLoop(s, l, p.(calls := p.calls[1..]));
    var k := s.conns[c];
    assert StageOk(k);
    match call
    case CloseCallback => HandleCloseKeeps(r, c);
    case ErrorCallback =>
    case ReadCallback =>
      if eof {
        HandleCloseKeeps(r, c);
      }
    case WriteCallback => HandleWriteKeeps(r, c, n);
  }

  lemma HandleWriteKeeps(s: System, c: ConnId, n: int)
    requires Inv(s) && c < |s.conns| && Registered(s.conns[c]) && n <= |s.conns[c].out.buffer|
    ensures Inv(SetOut(s, s.conns[c].loop, c, TcpOutput.HandleWrite(s.conns[c].out, n)))
  {
    var k := s.conns[c];
    assert OutOk(k);
    TcpOutput.StepKeeps(k.out, TcpOutput.Writable(n));
    TcpOutput.AbortsExactly(k.out, TcpOutput.Writable(n));
    SetOutKeeps(s, c, TcpOutput.HandleWrite(k.out, n));
  }

  lemma StepKeeps(s: System, e: Step)
    requires Inv(s) && Enabled(s, e) && Polite(e)
    ensures Inv(Next(s, e))
  {
    match e
    case Accept(fd, l, notify) => AcceptKeeps(s, fd, l, notify);
    case PollReturns(l, ready) => PollReturnsKeeps(s, l, ready);
    case NextChannel(l) => NextChannelKeeps(s, l);
    case Callback(l, c, call, eof, n) => CallbackKeeps(s, l, c, call, eof, n);
    case BeginDrain(l) => BeginDrainKeeps(s, l);
    case RunFunctor(l, f) => RunFunctorKeeps(s, l, f);
    case EndDrain(l) => EndDrainKeeps(s, l);
    case Send(l, c, message, nwrote) => SendKeeps(s, l, c, message, nwrote);
    case Shutdown(l, c) => ShutdownKeeps(s, l, c);
    case Release(c) => ReleaseKeeps(s, c);
  }

  lemma {:induction false} RunKeeps(s: System, es: seq<Step>)
    requires Inv(s) && EnabledRun(s, es) && forall i :: 0 <= i < |es| ==> Polite(es[i])
    ensures Inv(Run(s, es))
    decreases |es|
  {
    if es != [] {
      StepKeeps(s, es[0]);
      RunKeeps(Next(s, es[0]), es[1..]);
    }
  }

  lemma InitialWorks(n: nat)
    ensures WorksOk(Initial(n))
  {
  }

  lemma InitialQueues(n: nat)
    ensures QueuesOkBut(Initial(n), -1)
  {
    assert forall l :: 0 <= l < |Initial(n).loops| ==> Initial(n).loops[l].Queue() == [];
  }

  lemma InitialCore(n: nat)
    ensures Core(Initial(n))
  {
  }

  lemma InitialOk(n: nat)
    ensures Inv(Initial(n))
  {
    InitialCore(n);
    InitialQueues(n);
    InitialWorks(n);
  }

  // ----- Main results -----

  ghost predicate AllPolite(es: seq<Step>) {
    forall i :: 0 <= i < |es| ==> Polite(es[i])
  }

  /** The connection has passed the milestones in order, each at most once, and is alive until the last. */
  ghost predicate OnPath(k: Conn) {
    && k.history <= PATH && (k.released ==> k.history == PATH)
    && k.out.wire + k.out.buffer == k.out.accepted && TcpOutput.LogOk(k.out.log)
  }

  /**
   On every interleaving of the loops no assertion fails and nothing dead is called; every
   connection is on its path, with its output conserved; the map holds exactly those not erased;
   and whatever a connection waits for is queued, once, where it must run.
   */
  lemma LifecycleIsSafe(n: nat, es: seq<Step>)
    requires EnabledRun(Initial(n), es) && AllPolite(es)
    ensures var s := Run(Initial(n), es);
            && !s.fault
            && (forall c :: 0 <= c < |s.conns| ==> OnPath(s.conns[c]))
            && (forall c: ConnId :: c in s.connections <==> c < |s.conns| && Erased !in s.conns[c].history)
            && QueuesOkBut(s, -1)
  {
    InitialOk(n);
    RunKeeps(Initial(n), es);
    var s := Run(Initial(n), es);
    forall c | 0 <= c < |s.conns|
      ensures OnPath(s.conns[c]) && (s.conns[c].Stage() <= 2 <==> Erased !in s.conns[c].history)
    {
      var k := s.conns[c];
      assert StageOk(k) && OutOk(k);
      assert k.Stage() >= 3 ==> k.history[2] == Erased;
    }
  }

  /**
   When a handler is about to run, its channel is still registered with its loop's poller, is
   not ignored, and its connection is alive; the same, but for being ignored, holds throughout
   the handler.
   */
  lemma HandlersFindTheirChannels(n: nat, es: seq<Step>, l: nat)
    requires EnabledRun(Initial(n), es) && AllPolite(es)
    requires l < |Run(Initial(n), es).loops|
    ensures var s := Run(Initial(n), es);
            var p := s.loops[l];
            && (forall i :: 0 <= i < |p.active| ==>
                  var r := p.active[i];
                  r.conn < |s.conns| && !s.conns[r.conn].released &&
                  r.fd in p.table && p.table[r.fd] == Slot(r.conn, s.conns[r.conn].Events(), false))
            && (p.calls != [] ==>
                  && p.current < |s.conns| && !s.conns[p.current].released
                  && s.conns[p.current].fd in p.table && p.table[s.conns[p.current].fd].owner == p.current)
  {
    InitialOk(n);
    RunKeeps(Initial(n), es);
    var s := Run(Initial(n), es);
    var p := s.loops[l];
    assert WorkOk(s, l);
    forall i | 0 <= i < |p.active|
      ensures ActiveOk(s, l, p.active[i]) && InTable(s, p.active[i].conn) && StageOk(s.conns[p.active[i].conn])
    {
      assert ActiveOk(s, l, p.active[i]);
    }
    if p.calls != [] {
      assert InTable(s, p.current) && StageOk(s.conns[p.current]);
    }
  }
}
