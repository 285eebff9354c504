/**
 I/O multiplexing (src/Poller.cpp, include/Channel.h, src/Channel.cpp).  A poller keeps a
 vector for poll(2) and a map from descriptor to channel; each registered channel stores its
 position in the vector.  The abstract view is a table from descriptor to slot.
 */
module Polling {
  datatype Flag = IN | PRI | OUT | ERR | HUP | NVAL | RDHUP

  const NONE_EVENT: set<Flag> := {}
  const READ_EVENT: set<Flag> := {IN, PRI}
  const WRITE_EVENT: set<Flag> := {OUT}

  // ----- The abstract table -----

  /** What the poller holds for a descriptor; `ignored` entries are skipped by poll(2). */
  datatype Slot<C> = Slot(owner: C, events: set<Flag>, ignored: bool)

  type Table<C> = map<int, Slot<C>>

  /** `updateChannel`: interest is replaced; once ignored, a slot stays ignored. */
  function Updated<C>(t: Table<C>, owner: C, fd: int, events: set<Flag>): Table<C> {
    if fd in t then
      t[fd := Slot(owner, events, t[fd].ignored || events == NONE_EVENT)]
    else
      t[fd := Slot(owner, events, false)]
  }

  /** The assertions of `updateChannel`; `indexed` says the channel has been registered before. */
  predicate UpdateAsserts<C(==)>(t: Table<C>, owner: C, fd: int, indexed: bool) {
    if indexed then fd in t && t[fd].owner == owner else fd !in t
  }

  /** The assertions of `removeChannel`. */
  predicate RemoveAsserts<C(==)>(t: Table<C>, owner: C, fd: int, events: set<Flag>) {
    fd in t && t[fd] == Slot(owner, events, true) && events == NONE_EVENT
  }

  datatype TableOp<C> = Update(owner: C, fd: int, events: set<Flag>) | Remove(fd: int)

  function ApplyOp<C>(t: Table<C>, op: TableOp<C>): Table<C> {
    match op
    case Update(owner, fd, events) => Updated(t, owner, fd, events)
    case Remove(fd) => t - {fd}
  }

  function ApplyOps<C>(t: Table<C>, ops: seq<TableOp<C>>): Table<C>
    decreases |ops|
  {
    if ops == [] then t else ApplyOps(ApplyOp(t, ops[0]), ops[1..])
  }

  lemma {:induction false} ApplyOpsSnoc<C>(t: Table<C>, ops: seq<TableOp<C>>, op: TableOp<C>)
    ensures ApplyOps(t, ops + [op]) == ApplyOp(ApplyOps(t, ops), op)
    decreases |ops|
  {
    if ops == [] {
      assert (ops + [op])[1..] == [];
    } else {
      assert (ops + [op])[1..] == ops[1..] + [op];
      ApplyOpsSnoc(ApplyOp(t, ops[0]), ops[1..], op);
    }
  }

  /** A descriptor once ignored is polled again only after a removal. */
  lemma {:induction false} IgnoredIsSticky<C>(t: Table<C>, ops: seq<TableOp<C>>, fd: int)
    requires fd in t && t[fd].ignored
    requires Remove(fd) !in ops
    ensures var u := ApplyOps(t, ops); fd in u && u[fd].ignored
    decreases |ops|
  {
    if ops != [] {
      assert ops[0] in ops;
      IgnoredIsSticky(ApplyOp(t, ops[0]), ops[1..], fd);
    }
  }

  // ----- Event dispatch -----

  datatype Callback = CloseCallback | ErrorCallback | ReadCallback | WriteCallback

  predicate Closes(revents: set<Flag>) {
    HUP in revents && IN !in revents
  }

  predicate Reads(revents: set<Flag>) {
    IN in revents || PRI in revents || RDHUP in revents
  }

  /** The callbacks one `handleEvent` makes, in order. */
  function Callbacks(revents: set<Flag>): seq<Callback> {
    (if Closes(revents) then [CloseCallback] else []) +
    (if ERR in revents || NVAL in revents then [ErrorCallback] else []) +
    (if Reads(revents) then [ReadCallback] else []) +
    (if OUT in revents then [WriteCallback] else [])
  }

  function Rank(call: Callback): nat {
    match call
    case CloseCallback => 0
    case ErrorCallback => 1
    case ReadCallback => 2
    case WriteCallback => 3
  }

  /** Each callback is made exactly for its flags, and close comes before error, read and write. */
  lemma CallbacksExactly(revents: set<Flag>)
    ensures var calls := Callbacks(revents);
            && (CloseCallback in calls <==> HUP in revents && IN !in revents)
            && (ErrorCallback in calls <==> ERR in revents || NVAL in revents)
            && (ReadCallback in calls <==> IN in revents || PRI in revents || RDHUP in revents)
            && (WriteCallback in calls <==> OUT in revents)
            && (forall i, j :: 0 <= i < j < |calls| ==> Rank(calls[i]) < Rank(calls[j]))
  {
    var close := if Closes(revents) then [CloseCallback] else [];
    var error := if ERR in revents || NVAL in revents then [ErrorCallback] else [];
    var read := if Reads(revents) then [ReadCallback] else [];
    var write := if OUT in revents then [WriteCallback] else [];
    assert Callbacks(revents) == close + error + read + write;
    FourMembers(close, error, read, write);
    FourOrdered(close, error, read, write);
  }

  lemma FourMembers(a: seq<Callback>, b: seq<Callback>, c: seq<Callback>, d: seq<Callback>)
    ensures forall call :: call in a + b + c + d <==> call in a || call in b || call in c || call in d
  {
  }

  lemma FourOrdered(a: seq<Callback>, b: seq<Callback>, c: seq<Callback>, d: seq<Callback>)
    requires a <= [CloseCallback] && b <= [ErrorCallback] && c <= [ReadCallback] && d <= [WriteCallback]
    ensures var calls := a + b + c + d; forall i, j :: 0 <= i < j < |calls| ==> Rank(calls[i]) < Rank(calls[j])
  {
  }

  /** Each callback at most once, and never a close before a read of the same event ... */
  predicate ClosesOnce(revents: set<Flag>) {
    !(CloseCallback in Callbacks(revents) && ReadCallback in Callbacks(revents))
  }

  /** ... exactly when a hang-up without input comes without urgent data or peer shutdown. */
  lemma ClosesOnceExactly(revents: set<Flag>)
    ensures ClosesOnce(revents) <==> !(HUP in revents && IN !in revents && (PRI in revents || RDHUP in revents))
    ensures forall i, j :: 0 <= i < j < |Callbacks(revents)| ==> Callbacks(revents)[i] != Callbacks(revents)[j]
  {
    CallbacksExactly(revents);
  }

  class Channel {
    const fd: nat
    var events: set<Flag>
    var revents: set<Flag>
    var index: int

    constructor (fd: nat)
      ensures this.fd == fd && events == NONE_EVENT && revents == {} && index == -1
    {
      this.fd := fd;
      events, revents, index := NONE_EVENT, {}, -1;
    }

    /** `handleEvent`, reporting the callbacks it makes. */
    method HandleEvent() returns (calls: seq<Callback>)
      ensures calls == Callbacks(revents)
    {
      calls := [];
      if HUP in revents && IN !in revents {
        calls := calls + [CloseCallback];
      }
      if ERR in revents || NVAL in revents {
        calls := calls + [ErrorCallback];
      }
      if IN in revents || PRI in revents || RDHUP in revents {
        calls := calls + [ReadCallback];
      }
      if OUT in revents {
        calls := calls + [WriteCallback];
      }
    }
  }

  // ----- The poller's data, as values -----

  datatype PollFd = PollFd(fd: int, events: set<Flag>, revents: set<Flag>)

  /** The descriptor behind a vector entry: ignored entries hold `-fd - 1`. */
  function Decode(fd: int): nat {
    if fd < 0 then -fd - 1 else fd
  }

  /** `pollfds_`, `channels_`, and for each registered descriptor its channel's `index_`. */
  datatype Board<C> = Board(pollfds: seq<PollFd>, channels: map<int, C>, index: map<int, int>) {
    ghost predicate Valid() {
      && channels.Keys == index.Keys
      && (forall fd :: fd in index ==> 0 <= index[fd] < |pollfds| && Decode(pollfds[index[fd]].fd) == fd)
      && (forall i :: 0 <= i < |pollfds| ==> At(i) in index && index[At(i)] == i)
    }

    function At(i: int): nat
      requires 0 <= i < |pollfds|
    {
      Decode(pollfds[i].fd)
    }

    ghost function View(): Table<C>
      requires Valid()
    {
      map fd | fd in index :: Slot(channels[fd], pollfds[index[fd]].events, pollfds[index[fd]].fd < 0)
    }
  }

  function Register<C>(b: Board<C>, ch: C, fd: nat, events: set<Flag>): Board<C> {
    Board(b.pollfds + [PollFd(fd, events, {})], b.channels[fd := ch], b.index[fd := |b.pollfds|])
  }

  function Modify<C>(b: Board<C>, fd: nat, events: set<Flag>): Board<C>
    requires fd in b.index && 0 <= b.index[fd] < |b.pollfds|
  {
    var was := b.pollfds[b.index[fd]];
    var stored := if events == NONE_EVENT then -(fd as int) - 1 else was.fd;
    b.(pollfds := b.pollfds[b.index[fd] := PollFd(stored, events, {})])
  }

  /** Removal by swapping with the last entry, whose descriptor learns its new position. */
  function Unregister<C>(b: Board<C>, fd: nat): Board<C>
    requires fd in b.index && 0 <= b.index[fd] < |b.pollfds|
  {
    var idx, last := b.index[fd], |b.pollfds| - 1;
    var moved := b.At(last);
    Board(b.pollfds[idx := b.pollfds[last]][..last], b.channels - {fd},
          if idx == last then b.index - {fd} else (b.index - {fd})[moved := idx])
  }

  lemma RegisterRefines<C>(b: Board<C>, ch: C, fd: nat, events: set<Flag>)
    requires b.Valid() && fd !in b.index
    ensures Register(b, ch, fd, events).Valid()
    ensures Register(b, ch, fd, events).View() == Updated(b.View(), ch, fd, events)
  {
    var r := Register(b, ch, fd, events);
    forall i | 0 <= i < |r.pollfds|
      ensures r.At(i) in r.index && r.index[r.At(i)] == i
    {
      if i < |b.pollfds| {
        assert r.At(i) == b.At(i);
      }
    }
    forall f | f in b.index
      ensures f != fd && r.index[f] == b.index[f] && r.pollfds[r.index[f]] == b.pollfds[b.index[f]]
    {
    }
  }

  lemma ModifyRefines<C>(b: Board<C>, fd: nat, events: set<Flag>)
    requires b.Valid() && fd in b.index
    ensures Modify(b, fd, events).Valid()
    ensures Modify(b, fd, events).View() == Updated(b.View(), b.channels[fd], fd, events)
  {
    var r := Modify(b, fd, events);
    forall i | 0 <= i < |r.pollfds|
      ensures r.At(i) == b.At(i)
    {
    }
    forall f | f in r.index
      ensures Decode(r.pollfds[r.index[f]].fd) == f
      ensures f != fd ==> r.pollfds[r.index[f]] == b.pollfds[b.index[f]]
    {
      assert r.At(r.index[f]) == b.At(b.index[f]);
    }
  }

  lemma EntriesDistinct<C>(b: Board<C>, i: nat)
    requires b.Valid() && i < |b.pollfds|
    ensures b.At(i) in b.channels
    ensures forall j :: 0 <= j < i ==> b.pollfds[j].fd != b.pollfds[i].fd
  {
    assert b.index[b.At(i)] == i;
    forall j | 0 <= j < i
      ensures b.pollfds[j].fd != b.pollfds[i].fd
    {
      assert b.index[b.At(j)] == j;
    }
  }

  lemma UnregisterKeepsBijection<C>(b: Board<C>, fd: nat)
    requires b.Valid() && fd in b.index
    ensures Unregister(b, fd).Valid()
  {
    var r := Unregister(b, fd);
    var idx, last := b.index[fd], |b.pollfds| - 1;
    forall i | 0 <= i < |r.pollfds|
      ensures r.At(i) in r.index && r.index[r.At(i)] == i
    {
      assert r.At(i) == b.At(if i == idx then last else i);
      assert b.index[b.At(i)] == i && b.index[b.At(last)] == last;
    }
    forall f | f in r.index
      ensures 0 <= r.index[f] < |r.pollfds| && Decode(r.pollfds[r.index[f]].fd) == f
    {
      assert b.At(b.index[f]) == f;
    }
  }

  lemma UnregisterRefines<C>(b: Board<C>, fd: nat)
    requires b.Valid() && fd in b.index
    ensures Unregister(b, fd).Valid()
    ensures Unregister(b, fd).View() == b.View() - {fd}
  {
    UnregisterKeepsBijection(b, fd);
    var r := Unregister(b, fd);
    var last := |b.pollfds| - 1;
    forall f | f in r.index
      ensures r.pollfds[r.index[f]] == b.pollfds[b.index[f]]
    {
      if b.index[fd] != last && f == b.At(last) {
        assert b.index[f] == last;
      }
    }
    assert r.View().Keys == (b.View() - {fd}).Keys;
  }

  /** The calls the poller's assertions admit in a given state. */
  ghost predicate Admitted<C(!new)>(b: Board<C>, op: TableOp<C>)
    requires b.Valid()
  {
    match op
    case Update(owner, fd, _) => 0 <= fd && (fd in b.channels ==> b.channels[fd] == owner)
    case Remove(fd) => 0 <= fd && fd in b.channels
  }

  ghost function ApplyToBoard<C(!new)>(b: Board<C>, op: TableOp<C>): (r: Board<C>)
    requires b.Valid() && Admitted(b, op)
  {
    match op
    case Update(owner, fd, events) => if fd in b.index then Modify(b, fd, events) else Register(b, owner, fd, events)
    case Remove(fd) => Unregister(b, fd)
  }

  lemma StepRefinesTable<C(!new)>(b: Board<C>, op: TableOp<C>)
    requires b.Valid() && Admitted(b, op)
    ensures ApplyToBoard(b, op).Valid()
    ensures ApplyToBoard(b, op).View() == ApplyOp(b.View(), op)
  {
    match op
    case Update(owner, fd, events) =>
      if fd in b.index {
        ModifyRefines(b, fd, events);
      } else {
        RegisterRefines(b, owner, fd, events);
      }
    case Remove(fd) =>
      UnregisterRefines(b, fd);
  }

  ghost predicate BoardStep<C(!new)>(b: Board<C>, op: TableOp<C>, next: Board<C>) {
    b.Valid() ==> Admitted(b, op) && next == ApplyToBoard(b, op)
  }

  /** A run of admitted calls, with the board after each. */
  ghost predicate BoardRun<C(!new)>(boards: seq<Board<C>>, ops: seq<TableOp<C>>) {
    && |boards| == |ops| + 1
    && boards[0].Valid()
    && forall i :: 0 <= i < |ops| ==> BoardStep(boards[i], ops[i], boards[i + 1])
  }

  /** Every run keeps vector, map and positions in bijection and acts on the table alone. */
  lemma {:induction false} RunRefinesTable<C(!new)>(boards: seq<Board<C>>, ops: seq<TableOp<C>>, n: nat)
    requires BoardRun(boards, ops) && n <= |ops|
    ensures boards[n].Valid()
    ensures boards[n].View() == ApplyOps(boards[0].View(), ops[..n])
  {
    if n == 0 {
      assert ops[..0] == [];
    } else {
      RunRefinesTable(boards, ops, n - 1);
      assert BoardStep(boards[n - 1], ops[n - 1], boards[n - 1 + 1]);
      StepRefinesTable(boards[n - 1], ops[n - 1]);
      ApplyOpsSnoc(boards[0].View(), ops[..n - 1], ops[n - 1]);
      assert ops[..n] == ops[..n - 1] + [ops[n - 1]];
    }
  }

  /** Descriptors with reported events, in vector order. */
  function ReadyFds(pfds: seq<PollFd>): seq<int> {
    if pfds == [] then []
    else
      var last := pfds[|pfds| - 1];
      ReadyFds(pfds[..|pfds| - 1]) + (if last.revents != {} then [last.fd] else [])
  }

  lemma {:induction false} ReadyFdsSplit(a: seq<PollFd>, b: seq<PollFd>)
    ensures ReadyFds(a + b) == ReadyFds(a) + ReadyFds(b)
    decreases |b|
  {
    if b == [] {
      assert a + b == a;
    } else {
      var init := b[..|b| - 1];
      assert (a + b)[..|a + b| - 1] == a + init;
      ReadyFdsSplit(a, init);
    }
  }

  lemma ReadyFdsSnoc(pfds: seq<PollFd>, i: nat)
    requires i < |pfds|
    ensures ReadyFds(pfds[..i + 1]) == ReadyFds(pfds[..i]) + (if pfds[i].revents != {} then [pfds[i].fd] else [])
  {
    assert pfds[..i + 1][..i] == pfds[..i];
  }

  /** Once a prefix holds as many ready entries as the whole, the rest holds none. */
  lemma ReadyFdsRest(pfds: seq<PollFd>, i: nat)
    requires i <= |pfds|
    ensures |ReadyFds(pfds[..i])| == |ReadyFds(pfds)| ==>
              ReadyFds(pfds[..i]) == ReadyFds(pfds) && forall j :: i <= j < |pfds| ==> pfds[j].revents == {}
    ensures i == |pfds| ==> ReadyFds(pfds[..i]) == ReadyFds(pfds)
  {
    assert pfds == pfds[..i] + pfds[i..];
    ReadyFdsSplit(pfds[..i], pfds[i..]);
    if ReadyFds(pfds[i..]) == [] {
      forall j | i <= j < |pfds|
        ensures pfds[j].revents == {}
      {
        ReadyFdsExactly(pfds[i..], j - i);
      }
    }
  }

  /** Exactly the entries with events are listed. */
  lemma {:induction false} ReadyFdsExactly(pfds: seq<PollFd>, i: nat)
    requires i < |pfds|
    ensures pfds[i].revents != {} ==> pfds[i].fd in ReadyFds(pfds)
    decreases |pfds|
  {
    var n := |pfds| - 1;
    if i < n {
      ReadyFdsExactly(pfds[..n], i);
    }
  }

  lemma {:induction false} ReadyFdsSound(pfds: seq<PollFd>, k: nat) returns (i: nat)
    requires k < |ReadyFds(pfds)|
    ensures i < |pfds| && pfds[i].fd == ReadyFds(pfds)[k] && pfds[i].revents != {}
    decreases |pfds|
  {
    var n := |pfds| - 1;
    if k < |ReadyFds(pfds[..n])| {
      i := ReadyFdsSound(pfds[..n], k);
    } else {
      i := n;
    }
  }

  /** On a valid board no channel is listed twice, and every listed one is registered and polled. */
  lemma {:induction false} ReadyFdsDistinct<C>(b: Board<C>, n: nat)
    requires b.Valid() && n <= |b.pollfds|
    requires forall i :: 0 <= i < |b.pollfds| && b.pollfds[i].fd < 0 ==> b.pollfds[i].revents == {}
    ensures forall k :: 0 <= k < |ReadyFds(b.pollfds[..n])| ==>
              var fd := ReadyFds(b.pollfds[..n])[k];
              fd in b.View() && !b.View()[fd].ignored && b.index[fd] < n
    ensures forall j, k :: 0 <= j < k < |ReadyFds(b.pollfds[..n])| ==>
              ReadyFds(b.pollfds[..n])[j] != ReadyFds(b.pollfds[..n])[k]
  {
    if n > 0 {
      ReadyFdsDistinct(b, n - 1);
      ReadyFdsSnoc(b.pollfds, n - 1);
      assert b.index[b.At(n - 1)] == n - 1;
    }
  }

  /** poll(2): the result counts the entries with events, and negative descriptors have none. */
  ghost predicate PollContract(pfds: seq<PollFd>, numEvents: int) {
    && numEvents == |ReadyFds(pfds)|
    && forall i :: 0 <= i < |pfds| && pfds[i].fd < 0 ==> pfds[i].revents == {}
  }

  // ----- The object -----

  class Poller {
    var pollfds: seq<PollFd>
    var channels: map<int, Channel>

    ghost function Registered(): set<Channel>
      reads this
    {
      set fd | fd in channels :: channels[fd]
    }

    ghost function Layout(): Board<Channel>
      reads this, Registered()
    {
      Board(pollfds, channels, map fd | fd in channels :: channels[fd].index)
    }

    ghost predicate Named()
      reads this, Registered()
    {
      forall fd :: fd in channels ==> channels[fd].fd == fd
    }

    /** Vector, map and stored positions are in bijection. */
    ghost predicate Valid()
      reads this, Registered()
    {
      Named() && Layout().Valid()
    }

    ghost function View(): Table<Channel>
      reads this, Registered()
      requires Valid()
    {
      Layout().View()
    }

    constructor ()
      ensures Valid() && View() == map[]
    {
      pollfds, channels := [], map[];
    }

    method AddEntry(ch: Channel)
      requires Named() && ch.fd !in channels
      modifies this, ch`index
      ensures Named() && 0 <= ch.index
      ensures Layout() == Register(old(Layout()), ch, ch.fd, ch.events)
    {
      ghost var b := Layout();
      assert forall fd :: fd in channels ==> channels[fd] != ch;
      pollfds := pollfds + [PollFd(ch.fd, ch.events, {})];
      ch.index := |pollfds| - 1;
      channels := channels[ch.fd := ch];
      assert forall fd :: fd in b.index ==> fd in channels && channels[fd].index == b.index[fd];
      assert Layout().index == b.index[ch.fd := |b.pollfds|];
    }

    method ChangeEntry(ch: Channel)
      requires Named() && ch.fd in channels && channels[ch.fd] == ch && 0 <= ch.index < |pollfds|
      modifies this`pollfds
      ensures Layout() == Modify(old(Layout()), ch.fd, ch.events)
    {
      var pfd := pollfds[ch.index];
      var fd: int := if ch.events == NONE_EVENT then -(ch.fd as int) - 1 else pfd.fd;
      pollfds := pollfds[ch.index := PollFd(fd, ch.events, {})];
    }

    method DropEntry(ch: Channel)
      requires Named() && ch.fd in channels && channels[ch.fd] == ch && 0 <= ch.index < |pollfds|
      requires ch.index < |pollfds| - 1 ==>
                 var last := Decode(pollfds[|pollfds| - 1].fd); last in channels && last != ch.fd
      modifies this, Registered()`index
      ensures Named() && ch.index == old(ch.index)
      ensures Layout() == Unregister(old(Layout()), ch.fd)
    {
      ghost var b := Layout();
      var idx, last := ch.index, |pollfds| - 1;
      channels := channels - {ch.fd};
      if idx == last {
        pollfds := pollfds[..last];
      } else {
        var channelAtEnd := pollfds[last].fd;
        pollfds := pollfds[idx := pollfds[last]];
        if channelAtEnd < 0 {
          channelAtEnd := -channelAtEnd - 1;
        }
        var moved := channels[channelAtEnd];
        assert forall fd :: fd in channels && fd != channelAtEnd ==> channels[fd] != moved;
        moved.index := idx;
        pollfds := pollfds[..last];
      }
      assert Layout().index == Unregister(b, ch.fd).index;
    }

    method UpdateChannel(ch: Channel)
      requires Valid() && UpdateAsserts(View(), ch, ch.fd, 0 <= ch.index)
      modifies this, ch`index
      ensures Valid() && 0 <= ch.index
      ensures View() == Updated(old(View()), ch, ch.fd, ch.events)
    {
      if ch.index < 0 {
        assert ch.fd !in channels;
        RegisterRefines(Layout(), ch, ch.fd, ch.events);
        AddEntry(ch);
      } else {
        assert ch.fd in channels && channels[ch.fd] == ch;
        assert Layout().index[ch.fd] == ch.index;
        assert 0 <= ch.index < |pollfds|;
        assert pollfds[ch.index].fd == ch.fd || pollfds[ch.index].fd == -(ch.fd as int) - 1;
        ModifyRefines(Layout(), ch.fd, ch.events);
        ChangeEntry(ch);
      }
    }

    /** Swap with the last entry, whose channel learns its new position, and shrink. */
    method RemoveChannel(ch: Channel)
      requires Valid() && RemoveAsserts(View(), ch, ch.fd, ch.events)
      modifies this, Registered()`index
      ensures Valid() && View() == old(View()) - {ch.fd}
      ensures ch.index == old(ch.index)
    {
      ghost var b := Layout();
      assert ch.fd in channels && channels[ch.fd] == ch;
      assert b.index[ch.fd] == ch.index;
      assert pollfds[ch.index].fd == -(ch.fd as int) - 1 && pollfds[ch.index].events == ch.events;
      assert b.index[b.At(|pollfds| - 1)] == |pollfds| - 1;
      UnregisterRefines(b, ch.fd);
      DropEntry(ch);
    }

    /** `channels` are the ones registered for `fds`, in that order. */
    ghost predicate Matches(active: seq<Channel>, fds: seq<int>)
      reads this
    {
      |active| == |fds| && forall k :: 0 <= k < |fds| ==> fds[k] in channels && active[k] == channels[fds[k]]
    }

    /** Whether the channel of entry `j` carries the events poll(2) reported for it. */
    ghost predicate Reported(j: int)
      reads this, Registered()
    {
      0 <= j < |pollfds| && pollfds[j].fd in channels && channels[pollfds[j].fd].revents == pollfds[j].revents
    }

    /** `channel->set_revents(pfd->revents)` for the channel of entry `i`. */
    method SetRevents(i: nat) returns (channel: Channel)
      requires Named() && i < |pollfds| && pollfds[i].fd in channels
      modifies Registered()`revents
      ensures channel == channels[pollfds[i].fd] && Named() && Layout() == old(Layout()) && Reported(i)
      ensures forall j :: old(Reported(j)) && pollfds[j].fd != pollfds[i].fd ==> Reported(j)
    {
      channel := channels[pollfds[i].fd];
      assert channel.fd == pollfds[i].fd;
      channel.revents := pollfds[i].revents;
      assert Layout().index == old(Layout().index);
    }

    /** Everything reported for the entries before `i` has been passed on. */
    ghost predicate Noted(active: seq<Channel>, i: nat)
      requires i <= |pollfds|
      reads this, Registered()
    {
      && Matches(active, ReadyFds(pollfds[..i]))
      && forall j :: 0 <= j < i && pollfds[j].revents != {} ==> Reported(j)
    }

    /** One turn of the loop over the entries. */
    method NoteEntry(i: nat, active: seq<Channel>) returns (more: seq<Channel>)
      requires Valid() && i < |pollfds| && Noted(active, i)
      requires pollfds[i].fd < 0 ==> pollfds[i].revents == {}
      modifies Registered()`revents
      ensures Valid() && Layout() == old(Layout()) && Noted(more, i + 1)
      ensures |more| == |active| + if pollfds[i].revents != {} then 1 else 0
    {
      more := active;
      ReadyFdsSnoc(pollfds, i);
      if pollfds[i].revents != {} {
        EntriesDistinct(Layout(), i);
        assert ReadyFds(pollfds[..i + 1]) == ReadyFds(pollfds[..i]) + [pollfds[i].fd];
        var channel := SetRevents(i);
        more := active + [channel];
      }
    }

    /** The ready channels in vector order, found with an early exit after `numEvents` of them. */
    method FillActiveChannels(numEvents: int) returns (active: seq<Channel>)
      requires Valid() && PollContract(pollfds, numEvents)
      modifies Registered()`revents
      ensures Valid() && Layout() == old(Layout())
      ensures Matches(active, ReadyFds(pollfds))
      ensures forall j :: 0 <= j < |pollfds| && pollfds[j].revents != {} ==> Reported(j)
    {
      active := [];
      var left, i := numEvents, 0;
      while i < |pollfds| && left > 0
        invariant 0 <= i <= |pollfds| && Valid() && Layout() == old(Layout()) && Noted(active, i)
        invariant |active| == numEvents - left && 0 <= left
      {
        var ready := pollfds[i].revents != {};
        ReadyFdsRest(pollfds, i);
        active := NoteEntry(i, active);
        if ready {
          left := left - 1;
        }
        i := i + 1;
      }
      ReadyFdsRest(pollfds, i);
    }
  }
}
