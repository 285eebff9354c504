/**
 The output side of a connection (src/TcpConnection.cpp): direct writes, the fallback buffer,
 the writing interest and half-close.  `Output` is the connection as a value together with
 what the peer has been given; `TcpConnection` is the object.
 */
module TcpOutput {
  import opened Bytes
  import opened Buffers
  import opened Polling

  datatype State = Connecting | Connected | Disconnecting | Disconnected

  /** What the connection did, with the bytes accepted but still unwritten at that moment. */
  datatype Note =
    | Wrote(bytes: seq<byte>)
    | WriteCompleteQueued(backlog: seq<byte>)
    | ShutdownWrite(backlog: seq<byte>, afterClose: bool)

  datatype Output = Output(
    state: State,
    writing: bool,            // the channel's interest in POLLOUT
    buffer: seq<byte>,        // readable bytes of outputBuffer_
    wire: seq<byte>,          // everything written to the socket
    accepted: seq<byte>,      // everything given to sendInLoop
    closed: bool,             // handleClose has run
    notify: bool,             // a write-complete callback is set
    aborted: bool,            // the assertion on the direct write failed
    log: seq<Note>)

  function Initial(notify: bool): Output {
    Output(Connecting, false, [], [], [], false, notify, false, [])
  }

  /** The direct write stops at the first NUL byte: its length comes from `strlen`. */
  function StrLen(message: seq<byte>): (n: nat)
    ensures n <= |message|
  {
    if message == [] || message[0] == 0 then 0 else 1 + StrLen(message[1..])
  }

  lemma {:induction false} StrLenIsFirstNul(message: seq<byte>)
    ensures forall i :: 0 <= i < StrLen(message) ==> message[i] != 0
    ensures StrLen(message) < |message| ==> message[StrLen(message)] == 0
  {
    if message != [] && message[0] != 0 {
      StrLenIsFirstNul(message[1..]);
      assert forall i :: 0 < i < |message| ==> message[i] == message[1..][i - 1];
    }
  }

  // ----- The operations -----

  function WriteOut(o: Output, bytes: seq<byte>): Output {
    if bytes == [] then o else o.(wire := o.wire + bytes, log := o.log + [Wrote(bytes)])
  }

  function QueueComplete(o: Output, backlog: seq<byte>): Output {
    if o.notify then o.(log := o.log + [WriteCompleteQueued(backlog)]) else o
  }

  function ShutdownInLoop(o: Output): Output {
    if o.writing then o else o.(log := o.log + [ShutdownWrite(o.buffer, o.closed)])
  }

  /** The message is taken on and its first `n` bytes written; a complete write is announced. */
  function WriteDirectly(o: Output, message: seq<byte>, n: nat, direct: bool): Output
    requires n <= |message|
  {
    var o1 := WriteOut(o.(accepted := o.accepted + message), message[..n]);
    if direct && n == |message| then QueueComplete(o1, o1.buffer + message[n..]) else o1
  }

  function BufferRest(o: Output, rest: seq<byte>): Output {
    if rest == [] then o else o.(buffer := o.buffer + rest, writing := true)
  }

  /** `nwrote` is the result of the direct write, used only when one is made. */
  function SendInLoop(o: Output, message: seq<byte>, nwrote: int): Output
    requires nwrote <= |message|
  {
    var direct := o.buffer == [] && !o.writing;
    var n := if direct then nwrote else 0;
    if n < 0 then o.(aborted := true) else BufferRest(WriteDirectly(o, message, n, direct), message[n..])
  }

  function Send(o: Output, message: seq<byte>, nwrote: int): Output
    requires nwrote <= |message|
  {
    if o.state == Connected then SendInLoop(o, message, nwrote) else o
  }

  function HandleWrite(o: Output, n: int): Output
    requires n <= |o.buffer|
  {
    if !o.writing || n <= 0 then o
    else
      var o1 := WriteOut(o, o.buffer[..n]).(buffer := o.buffer[n..]);
      if o1.buffer != [] then o1
      else
        var o2 := QueueComplete(o1.(writing := false), o1.buffer);
        if o2.state == Disconnecting then ShutdownInLoop(o2) else o2
  }

  function Shutdown(o: Output): Output {
    if o.state == Connected then ShutdownInLoop(o.(state := Disconnecting)) else o
  }

  /** What `handleClose` does here: all interest goes, the state and the buffer stay. */
  function Close(o: Output): Output {
    o.(writing := false, closed := true)
  }

  /** What `connectDestroyed` does here. */
  function Retire(o: Output): Output {
    o.(state := Disconnected, writing := false)
  }

  // ----- Runs -----

  datatype Event =
    | Establish
    | DoSend(message: seq<byte>, nwrote: int)
    | Writable(n: int)
    | DoShutdown
    | HandleClose
    | Destroy

  /** What write(2) and the connection's life cycle promise. */
  predicate Possible(o: Output, e: Event) {
    && !o.aborted
    && match e
       case Establish => o.state == Connecting
       case DoSend(message, nwrote) => nwrote <= StrLen(message)
       case Writable(n) => n <= |o.buffer|
       case DoShutdown => true
       case HandleClose => o.state == Connected || o.state == Disconnecting
       case Destroy => o.closed
  }

  function Step(o: Output, e: Event): Output
    requires Possible(o, e)
  {
    match e
    case Establish => o.(state := Connected)
    case DoSend(message, nwrote) => Send(o, message, nwrote)
    case Writable(n) => HandleWrite(o, n)
    case DoShutdown => Shutdown(o)
    case HandleClose => Close(o)
    case Destroy => Retire(o)
  }

  ghost predicate PossibleRun(o: Output, es: seq<Event>)
    decreases |es|
  {
    es == [] || (Possible(o, es[0]) && PossibleRun(Step(o, es[0]), es[1..]))
  }

  ghost function Run(o: Output, es: seq<Event>): Output
    requires PossibleRun(o, es)
    decreases |es|
  {
    if es == [] then o else Run(Step(o, es[0]), es[1..])
  }

  // ----- The invariant -----

  /** Nothing is written, and nothing shut down again, after a half-close. */
  ghost predicate SilentAfterShutdown(log: seq<Note>) {
    forall i, j :: 0 <= i < j < |log| && log[i].ShutdownWrite? ==> !log[j].ShutdownWrite? && !log[j].Wrote?
  }

  /** A write-complete notice is queued only with everything written. */
  ghost predicate CompleteMeansComplete(log: seq<Note>) {
    forall i :: 0 <= i < |log| && log[i].WriteCompleteQueued? ==> log[i].backlog == []
  }

  /** Before `handleClose`, the half-close comes only with everything written. */
  ghost predicate ShutdownMeansFlushed(log: seq<Note>) {
    forall i :: 0 <= i < |log| && log[i].ShutdownWrite? && !log[i].afterClose ==> log[i].backlog == []
  }

  ghost predicate HasShutdown(log: seq<Note>) {
    exists i :: 0 <= i < |log| && log[i].ShutdownWrite?
  }

  /** The bytes of the `Wrote` notes, in order. */
  function WrittenBytes(log: seq<Note>): seq<byte> {
    if log == [] then []
    else
      var last := log[|log| - 1];
      WrittenBytes(log[..|log| - 1]) + (if last.Wrote? then last.bytes else [])
  }

  ghost predicate Inv(o: Output) {
    Conserved(o) && HalfClosed(o)
  }

  ghost predicate Conserved(o: Output) {
    && o.wire + o.buffer == o.accepted
    && WrittenBytes(o.log) == o.wire
    && (o.writing ==> o.buffer != [])
    && (!o.closed && o.state != Disconnected ==> (o.writing <==> o.buffer != []))
    && (o.state == Connecting ==> o.buffer == [] && !o.writing && !o.closed)
    && (HasShutdown(o.log) ==> !o.writing && (o.state == Disconnecting || o.state == Disconnected))
    && LogOk(o.log) && Announced(o)
  }

  /** Once nothing is left, the last write has been followed by its write-complete notice. */
  ghost predicate Announced(o: Output) {
    o.notify && o.buffer == [] && o.log != [] ==> !o.log[|o.log| - 1].Wrote?
  }

  /** A requested shutdown has happened as soon as nothing is left to write. */
  ghost predicate HalfClosed(o: Output) {
    o.state == Disconnecting && !o.closed ==> (HasShutdown(o.log) <==> o.buffer == [])
  }

  lemma WrittenSnoc(log: seq<Note>, note: Note)
    ensures WrittenBytes(log + [note]) == WrittenBytes(log) + (if note.Wrote? then note.bytes else [])
    ensures HasShutdown(log + [note]) <==> HasShutdown(log) || note.ShutdownWrite?
  {
    assert (log + [note])[..|log|] == log;
    assert forall i :: 0 <= i < |log| ==> (log + [note])[i] == log[i];
    assert (log + [note])[|log|] == note;
  }

  lemma ShutdownInLoopKeeps(o: Output)
    requires Conserved(o) && !HasShutdown(o.log)
    requires o.state == Disconnecting
    ensures Inv(ShutdownInLoop(o))
  {
    if !o.writing {
      WrittenSnoc(o.log, ShutdownWrite(o.buffer, o.closed));
      LogShutdown(o.log, o.buffer, o.closed);
    }
  }

  lemma LogShutdown(log: seq<Note>, backlog: seq<byte>, afterClose: bool)
    requires LogOk(log) && !HasShutdown(log) && (afterClose || backlog == [])
    ensures LogOk(log + [ShutdownWrite(backlog, afterClose)])
  {
    forall i | 0 <= i < |log|
      ensures (log + [ShutdownWrite(backlog, afterClose)])[i] == log[i] && !log[i].ShutdownWrite?
    {
    }
  }

  ghost predicate LogOk(log: seq<Note>) {
    SilentAfterShutdown(log) && CompleteMeansComplete(log) && ShutdownMeansFlushed(log)
  }

  lemma LogSnoc(log: seq<Note>, note: Note)
    requires LogOk(log) && !HasShutdown(log)
    requires !note.Wrote? ==> note.backlog == []
    ensures LogOk(log + [note])
  {
    forall i | 0 <= i < |log|
      ensures (log + [note])[i] == log[i] && !log[i].ShutdownWrite?
    {
    }
  }

  lemma WriteOutKeepsLog(o: Output, bytes: seq<byte>)
    requires !HasShutdown(o.log) && LogOk(o.log) && WrittenBytes(o.log) == o.wire
    ensures var r := WriteOut(o, bytes);
            && r == o.(wire := o.wire + bytes, log := r.log) && WrittenBytes(r.log) == r.wire
            && !HasShutdown(r.log) && LogOk(r.log)
  {
    if bytes == [] {
      AppendAssoc(o.wire, [], []);
    } else {
      LogSnoc(o.log, Wrote(bytes));
      WrittenSnoc(o.log, Wrote(bytes));
    }
  }

  lemma SendKeeps(o: Output, message: seq<byte>, nwrote: int)
    requires Inv(o) && o.state == Connected && nwrote <= |message|
    ensures Inv(SendInLoop(o, message, nwrote))
  {
    var direct := o.buffer == [] && !o.writing;
    var n := if direct then nwrote else 0;
    if 0 <= n {
      var o0 := o.(accepted := o.accepted + message);
      WriteOutKeepsLog(o0, message[..n]);
      var o1 := WriteOut(o0, message[..n]);
      if direct && n == |message| {
        LogSnoc(o1.log, WriteCompleteQueued(o1.buffer + message[n..]));
        WrittenSnoc(o1.log, WriteCompleteQueued(o1.buffer + message[n..]));
      }
      TakeDrop(message, n);
      if direct {
        AppendAssoc(o.wire, [], []);
        AppendAssoc(o.wire, message[..n], message[n..]);
        AppendAssoc(message[n..], [], []);
        AppendAssoc(message[..n], [], []);
      } else {
        AppendAssoc(o.wire, o.buffer, message);
        AppendAssoc(o.wire, [], []);
      }
    }
  }

  /** The buffer runs dry: the interest goes, the notice is queued, a requested shutdown happens. */
  lemma DrainedKeeps(o: Output)
    requires o.notify ==> Conserved(o.(log := o.log + [WriteCompleteQueued([])], writing := false))
    requires !o.notify ==> Conserved(o.(writing := false))
    requires o.buffer == [] && !HasShutdown(o.log)
    ensures var o2 := QueueComplete(o.(writing := false), o.buffer);
            Inv(if o2.state == Disconnecting then ShutdownInLoop(o2) else o2)
  {
    WrittenSnoc(o.log, WriteCompleteQueued([]));
    var o2 := QueueComplete(o.(writing := false), o.buffer);
    if o2.state == Disconnecting {
      ShutdownInLoopKeeps(o2);
    }
  }

  lemma HandleWriteKeeps(o: Output, n: int)
    requires Inv(o) && n <= |o.buffer|
    ensures Inv(HandleWrite(o, n))
  {
    if o.writing && 0 < n {
      WriteOutKeepsLog(o, o.buffer[..n]);
      var o1 := WriteOut(o, o.buffer[..n]).(buffer := o.buffer[n..]);
      TakeDrop(o.buffer, n);
      AppendAssoc(o.wire, o.buffer[..n], o.buffer[n..]);
      if o1.buffer == [] {
        LogSnoc(o1.log, WriteCompleteQueued([]));
        WrittenSnoc(o1.log, WriteCompleteQueued([]));
        DrainedKeeps(o1);
      }
    }
  }

  lemma StepKeeps(o: Output, e: Event)
    requires Inv(o) && Possible(o, e)
    ensures Inv(Step(o, e))
  {
    match e
    case DoSend(message, nwrote) =>
      if o.state == Connected {
        SendKeeps(o, message, nwrote);
      }
    case Writable(n) =>
      HandleWriteKeeps(o, n);
    case DoShutdown =>
      if o.state == Connected {
        ShutdownInLoopKeeps(o.(state := Disconnecting));
      }
    case _ =>
  }

  /**
   Every run of sends, partial writes, shutdowns and a close: bytes on the wire followed by the
   buffered ones are the accepted ones in order, and the log is faithful throughout.
   */
  lemma {:induction false} RunKeeps(o: Output, es: seq<Event>)
    requires Inv(o) && PossibleRun(o, es)
    ensures Inv(Run(o, es))
    decreases |es|
  {
    if es != [] {
      StepKeeps(o, es[0]);
      RunKeeps(Step(o, es[0]), es[1..]);
    }
  }

  lemma OutputIsConserved(notify: bool, es: seq<Event>)
    requires PossibleRun(Initial(notify), es)
    ensures var o := Run(Initial(notify), es);
            && o.wire + o.buffer == o.accepted
            && WrittenBytes(o.log) == o.wire
            && CompleteMeansComplete(o.log) && SilentAfterShutdown(o.log) && ShutdownMeansFlushed(o.log)
            && Announced(o) && HalfClosed(o)
  {
    RunKeeps(Initial(notify), es);
  }

  // ----- What each event does, exactly -----

  /** The direct write of `sendInLoop` is made. */
  predicate WritesDirectly(o: Output, e: Event) {
    e.DoSend? && o.state == Connected && o.buffer == [] && !o.writing
  }

  /** How many bytes write(2) takes: what it reports, when it is called. */
  function Took(o: Output, e: Event): nat {
    if WritesDirectly(o, e) && 0 < e.nwrote then e.nwrote
    else if e.Writable? && o.writing && 0 < e.n then e.n
    else 0
  }

  /** Nothing is left of what was to be written. */
  predicate Finishes(o: Output, e: Event) {
    || (WritesDirectly(o, e) && e.nwrote == |e.message|)
    || (e.Writable? && o.writing && 0 < e.n == |o.buffer|)
  }

  predicate HalfCloses(o: Output, e: Event) {
    || (e.DoShutdown? && o.state == Connected && !o.writing)
    || (e.Writable? && o.state == Disconnecting && Finishes(o, e))
  }

  /** What an event adds to the log: the bytes taken, the notice, the half-close. */
  function Notes(o: Output, e: Event): seq<Note>
    requires Possible(o, e)
  {
    var r := Step(o, e);
    (if 0 < Took(o, e) then [Wrote(r.wire[if |o.wire| <= |r.wire| then |o.wire| else 0..])] else []) +
    (if o.notify && Finishes(o, e) then [WriteCompleteQueued([])] else []) +
    (if HalfCloses(o, e) then [ShutdownWrite(r.buffer, o.closed)] else [])
  }

  lemma DropWire(wire: seq<byte>, bytes: seq<byte>)
    ensures (wire + bytes)[|wire|..] == bytes
  {
  }

  lemma StepWrites(o: Output, e: Event)
    requires Inv(o) && Possible(o, e)
    ensures |Step(o, e).wire| == |o.wire| + Took(o, e)
  {
  }

  lemma SendNotes(o: Output, e: Event)
    requires Inv(o) && Possible(o, e) && e.DoSend?
    ensures Step(o, e).log == o.log + Notes(o, e)
  {
    StepWrites(o, e);
    AppendAssoc(o.log, [], []);
    if WritesDirectly(o, e) && 0 <= e.nwrote {
      var wrote := [Wrote(e.message[..e.nwrote])];
      DropWire(o.wire, e.message[..e.nwrote]);
      AppendAssoc(o.log, wrote, [WriteCompleteQueued([])]);
    }
  }

  lemma WritableNotes(o: Output, e: Event)
    requires Inv(o) && Possible(o, e) && e.Writable?
    ensures Step(o, e).log == o.log + Notes(o, e)
  {
    StepWrites(o, e);
    AppendAssoc(o.log, [], []);
    if o.writing && 0 < e.n {
      DropWire(o.wire, o.buffer[..e.n]);
      var wrote := [Wrote(o.buffer[..e.n])];
      var complete := if o.notify && Finishes(o, e) then [WriteCompleteQueued([])] else [];
      var shutdown := if HalfCloses(o, e) then [ShutdownWrite([], o.closed)] else [];
      Chain(o.log, wrote, complete, shutdown);
    }
  }

  lemma Chain(log: seq<Note>, a: seq<Note>, b: seq<Note>, c: seq<Note>)
    ensures log + (a + b + c) == ((log + a) + b) + c
    ensures b == [] ==> (log + a) + b == log + a
    ensures c == [] ==> ((log + a) + b) + c == (log + a) + b
  {
  }

  lemma StepNotes(o: Output, e: Event)
    requires Inv(o) && Possible(o, e)
    ensures Step(o, e).log == o.log + Notes(o, e)
  {
    AppendAssoc(o.log, [], []);
    match e
    case DoSend(_, _) => SendNotes(o, e);
    case Writable(_) => WritableNotes(o, e);
    case _ =>
  }

  ghost function TookAll(o: Output, es: seq<Event>): nat
    requires PossibleRun(o, es)
    decreases |es|
  {
    if es == [] then 0 else Took(o, es[0]) + TookAll(Step(o, es[0]), es[1..])
  }

  lemma {:induction false} RunWrites(o: Output, es: seq<Event>)
    requires Inv(o) && PossibleRun(o, es)
    ensures |Run(o, es).wire| == |o.wire| + TookAll(o, es)
    decreases |es|
  {
    if es != [] {
      StepWrites(o, es[0]);
      StepKeeps(o, es[0]);
      RunWrites(Step(o, es[0]), es[1..]);
    }
  }

  /** On every run, what write(2) reported to have taken is on the wire, and all the rest is buffered. */
  lemma WrittenExactly(notify: bool, es: seq<Event>)
    requires PossibleRun(Initial(notify), es)
    ensures var o, n := Run(Initial(notify), es), TookAll(Initial(notify), es);
            n <= |o.accepted| && o.wire == o.accepted[..n] && o.buffer == o.accepted[n..]
  {
    RunKeeps(Initial(notify), es);
    RunWrites(Initial(notify), es);
    var o := Run(Initial(notify), es);
    assert (o.wire + o.buffer)[..|o.wire|] == o.wire;
    DropWire(o.wire, o.buffer);
  }

  lemma {:induction false} RunSplit(o: Output, a: seq<Event>, b: seq<Event>)
    ensures PossibleRun(o, a + b) <==> PossibleRun(o, a) && PossibleRun(Run(o, a), b)
    ensures PossibleRun(o, a + b) ==> Run(o, a + b) == Run(Run(o, a), b)
    decreases |a|
  {
    if a == [] {
      assert a + b == b;
    } else {
      assert (a + b)[1..] == a[1..] + b;
      if Possible(o, a[0]) {
        RunSplit(Step(o, a[0]), a[1..], b);
      }
    }
  }

  lemma RunOne(o: Output, e: Event)
    ensures PossibleRun(o, [e]) <==> Possible(o, e)
    ensures Possible(o, e) ==> Run(o, [e]) == Step(o, e)
  {
    assert [e][1..] == [];
  }

  lemma RunSnoc(o: Output, a: seq<Event>, e: Event)
    requires PossibleRun(o, a + [e])
    ensures PossibleRun(o, a) && Possible(Run(o, a), e) && Run(o, a + [e]) == Step(Run(o, a), e)
  {
    RunSplit(o, a, [e]);
    RunOne(Run(o, a), e);
  }

  // ----- The state, from the events alone -----

  /** A shutdown came while the connection was established. */
  ghost predicate ShutDown(es: seq<Event>) {
    exists j :: 0 <= j < |es| && es[j] == DoShutdown && Establish in es[..j]
  }

  /** What the state must be after the events. */
  ghost function StateOf(es: seq<Event>): State {
    if Destroy in es then Disconnected
    else if Establish !in es then Connecting
    else if ShutDown(es) then Disconnecting
    else Connected
  }

  lemma ShutDownSnoc(es: seq<Event>, e: Event)
    ensures ShutDown(es + [e]) <==> ShutDown(es) || (e == DoShutdown && Establish in es)
  {
    var all := es + [e];
    assert forall j :: 0 <= j <= |es| ==> all[..j] == es[..j];
    assert es[..|es|] == es && all[|es|] == e;
    assert forall j :: 0 <= j < |es| ==> all[j] == es[j];
  }

  /** Only these three events touch the state. */
  lemma StepState(o: Output, e: Event)
    requires Possible(o, e)
    ensures Step(o, e).state ==
              if e == Establish then Connected
              else if e == Destroy then Disconnected
              else if e == DoShutdown && o.state == Connected then Disconnecting
              else o.state
    ensures Step(o, e).closed == (o.closed || e == HandleClose) && Step(o, e).notify == o.notify
  {
  }

  /** The state and the close are those the events call for. */
  ghost predicate Follows(o: Output, es: seq<Event>) {
    o.state == StateOf(es) && o.closed == (HandleClose in es) && (HandleClose in es ==> Establish in es)
  }

  lemma StateSnoc(o: Output, es: seq<Event>, e: Event)
    requires Possible(o, e) && Follows(o, es)
    ensures Follows(Step(o, e), es + [e])
  {
    ShutDownSnoc(es, e);
    StepState(o, e);
  }

  /**
   On every run the state follows from the events: connected exactly when established, with no
   shutdown since and not destroyed - so a shutdown is remembered while output is pending.
   */
  lemma {:induction false} StateExactly(notify: bool, es: seq<Event>)
    requires PossibleRun(Initial(notify), es)
    ensures Follows(Run(Initial(notify), es), es) && Run(Initial(notify), es).notify == notify
    decreases |es|
  {
    if es != [] {
      var init, e := es[..|es| - 1], es[|es| - 1];
      assert init + [e] == es;
      RunSnoc(Initial(notify), init, e);
      StateExactly(notify, init);
      StateSnoc(Run(Initial(notify), init), init, e);
      StepState(Run(Initial(notify), init), e);
    }
  }

  /** The assertion on the direct write fails exactly when that write reports an error. */
  lemma AbortsExactly(o: Output, e: Event)
    requires Inv(o) && Possible(o, e)
    ensures Step(o, e).aborted <==>
              e.DoSend? && o.state == Connected && o.buffer == [] && !o.writing && e.nwrote < 0
  {
  }

  /** A run on which it does, as a full socket makes it: nothing is buffered and the message is gone. */
  lemma FailedDirectWriteAborts(message: seq<byte>)
    ensures var es := [Establish, DoSend(message, -1)];
            && PossibleRun(Initial(false), es)
            && Run(Initial(false), es).aborted && Run(Initial(false), es).accepted == []
  {
    var es := [Establish, DoSend(message, -1)];
    var o1 := Step(Initial(false), es[0]);
    assert es[1..][0] == es[1] && es[1..][1..] == [];
    var o2 := Step(o1, es[1]);
    assert PossibleRun(o2, es[1..][1..]) && Run(o2, es[1..][1..]) == o2;
    assert PossibleRun(o1, es[1..]) && Run(o1, es[1..]) == o2;
  }

  /** `shutdown()` cuts off accepted bytes exactly in these states, all of them after `handleClose`. */
  lemma ShutdownTruncatesExactly(o: Output)
    requires Inv(o) && !o.aborted
    ensures var log := Shutdown(o).log;
            (|log| == |o.log| + 1 && log[|o.log|].ShutdownWrite? && log[|o.log|].backlog != []) <==>
              o.state == Connected && !o.writing && o.buffer != []
    ensures o.state == Connected && !o.writing && o.buffer != [] ==> o.closed
  {
  }

  /** Such a state is reachable: a partial write, the peer closing, then `shutdown()`. */
  lemma ShutdownAfterCloseTruncates(a: byte, b: byte)
    requires a != 0 && b != 0
    ensures var es := [Establish, DoSend([a, b], 1), HandleClose, DoShutdown];
            PossibleRun(Initial(false), es) && ShutdownWrite([b], true) in Run(Initial(false), es).log
  {
    var es := [Establish, DoSend([a, b], 1), HandleClose, DoShutdown];
    assert StrLen([a, b]) == 2 by {
      assert [a, b][1..] == [b] && [b][1..] == [];
      assert StrLen([b]) == 1;
    }
    var o1 := Step(Initial(false), es[0]);
    var o2 := Step(o1, es[1]);
    assert [a, b][1..] == [b];
    assert o2.buffer == [b] && o2.writing;
    var o3 := Step(o2, es[2]);
    var o4 := Step(o3, es[3]);
    assert o4.log[|o4.log| - 1] == ShutdownWrite([b], true);
    assert es[1..][1..][1..][1..] == [];
    assert Run(o3, es[1..][1..][1..]) == o4;
    assert Run(o2, es[1..][1..]) == o4;
    assert Run(o1, es[1..]) == o4;
  }

  // ----- The object -----

  class TcpConnection {
    var state: State
    var events: set<Flag>
    const outputBuffer: Buffer
    const notify: bool
    var aborted: bool
    ghost var wire: seq<byte>
    ghost var accepted: seq<byte>
    ghost var closed: bool
    ghost var log: seq<Note>

    ghost predicate Valid()
      reads this, outputBuffer, outputBuffer.data
    {
      outputBuffer.Valid()
    }

    ghost function View(): Output
      reads this, outputBuffer, outputBuffer.data
      requires Valid()
    {
      Output(state, OUT in events, outputBuffer.Contents(), wire, accepted, closed, notify, aborted, log)
    }

    constructor (notify: bool)
      ensures Valid() && View() == Initial(notify)
      ensures fresh(outputBuffer) && fresh(outputBuffer.data)
    {
      state, events, aborted := Connecting, NONE_EVENT, false;
      outputBuffer := new Buffer();
      this.notify := notify;
      wire, accepted, closed, log := [], [], false, [];
    }

    method DoShutdownInLoop()
      requires Valid()
      modifies this`log
      ensures Valid() && View() == ShutdownInLoop(old(View()))
    {
      if OUT !in events {
        log := log + [ShutdownWrite(outputBuffer.Contents(), closed)];
      }
    }

    method RequestShutdown()
      requires Valid()
      modifies this`log, this`state
      ensures Valid() && View() == Shutdown(old(View()))
    {
      if state == Connected {
        state := Disconnecting;
        DoShutdownInLoop();
      }
    }

    /** `handleWrite`; `n` is what write(2) returns for the whole readable part. */
    method OnWritable(n: int)
      requires Valid() && n <= |outputBuffer.Contents()|
      modifies this`events, this`wire, this`log, outputBuffer`reader
      ensures Valid() && View() == HandleWrite(old(View()), n)
    {
      if OUT in events {
        if n > 0 {
          ghost var bytes := outputBuffer.Contents();
          wire, log := wire + bytes[..n], log + [Wrote(bytes[..n])];
          outputBuffer.RetrieveBytes(n);
          assert outputBuffer.Contents() == bytes[n..];
          if outputBuffer.writer - outputBuffer.reader == 0 {
            events := events - WRITE_EVENT;
            if notify {
              log := log + [WriteCompleteQueued([])];
            }
            if state == Disconnecting {
              DoShutdownInLoop();
            }
          }
        }
      }
    }

    method NoteDirectWrite(message: seq<byte>, n: nat, direct: bool)
      requires Valid() && n <= |message| && (!direct ==> n == 0)
      requires direct ==> outputBuffer.Contents() == []
      modifies this`accepted, this`wire, this`log
      ensures Valid() && View() == WriteDirectly(old(View()), message, n, direct)
    {
      accepted := accepted + message;
      if n > 0 {
        wire, log := wire + message[..n], log + [Wrote(message[..n])];
      }
      if direct && n == |message| && notify {
        assert outputBuffer.Contents() + message[n..] == [];
        log := log + [WriteCompleteQueued([])];
      }
    }

    method AppendRest(rest: seq<byte>)
      requires Valid() && rest != []
      modifies this`events, outputBuffer, outputBuffer.data
      ensures Valid() && View() == BufferRest(old(View()), rest)
      ensures outputBuffer.data == old(outputBuffer.data) || fresh(outputBuffer.data)
    {
      outputBuffer.AppendChars(rest);
      if OUT !in events {
        events := events + WRITE_EVENT;
      }
    }

    /** `send` on the loop thread; `nwrote` is what the direct write(2) returns, if one is made. */
    method SendMessage(message: seq<byte>, nwrote: int)
      requires Valid() && nwrote <= StrLen(message)
      modifies this, outputBuffer, outputBuffer.data
      ensures Valid() && View() == Send(old(View()), message, nwrote)
      ensures outputBuffer.data == old(outputBuffer.data) || fresh(outputBuffer.data)
    {
      if state == Connected {
        var direct := outputBuffer.writer - outputBuffer.reader == 0 && OUT !in events;
        var n := if direct then nwrote else 0;
        if n < 0 {
          aborted := true;
        } else {
          NoteDirectWrite(message, n, direct);
          if n < |message| {
            AppendRest(message[n..]);
          }
        }
      }
    }

    /** `connectEstablished`. */
    method OnEstablished()
      requires Valid() && Possible(View(), Establish)
      modifies this`state, this`events
      ensures Valid() && View() == Step(old(View()), Establish)
    {
      state := Connected;
      events := events + READ_EVENT;
    }

    /** `connectDestroyed`. */
    method OnDestroyed()
      requires Valid() && Possible(View(), Destroy)
      modifies this`state, this`events
      ensures Valid() && View() == Step(old(View()), Destroy)
    {
      state := Disconnected;
      events := NONE_EVENT;
    }

    /** `handleClose`, its part here. */
    method OnClose()
      requires Valid() && (state == Connected || state == Disconnecting)
      modifies this`events, this`closed
      ensures Valid() && View() == Close(old(View()))
    {
      events := NONE_EVENT;
      closed := true;
    }
  }
}
