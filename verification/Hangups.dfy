/**
 Why a hang-up must not be reported together with urgent data (src/Channel.cpp, src/TcpServer.cpp):
 what one `handleEvent` does at the end of the stream, and a run on which it closes twice.
 */
module Hangups {
  import opened Polling
  import opened Lifecycle
  import TcpOutput

  // ----- Why hang-ups must be polite -----

  /** One `handleEvent` in which every read finds the end of the stream. */
  function CallAll(s: System, at: nat, c: ConnId, calls: seq<Callback>): (r: System)
    requires s.Shaped() && c < |s.conns|
    ensures r.Shaped() && |r.conns| == |s.conns|
    decreases |calls|
  {
    if calls == [] then s else CallAll(Call(s, at, c, calls[0], true, 0), at, c, calls[1..])
  }

  lemma {:induction false} CallAllSplit(s: System, at: nat, c: ConnId, a: seq<Callback>, b: seq<Callback>)
    requires s.Shaped() && c < |s.conns|
    ensures CallAll(s, at, c, a + b) == CallAll(CallAll(s, at, c, a), at, c, b)
    decreases |a|
  {
    if a == [] {
      assert a + b == b;
    } else {
      assert (a + b)[1..] == a[1..] + b;
      CallAllSplit(Call(s, at, c, a[0], true, 0), at, c, a[1..], b);
    }
  }

  /** A callback list with `call` in it or not. */
  function If(b: bool, call: Callback): seq<Callback> {
    if b then [call] else []
  }

  /** Errors only log, and a write that achieves nothing changes nothing. */
  lemma QuietCalls(s: System, at: nat, c: ConnId, e: bool, w: bool)
    requires s.Shaped() && c < |s.conns| && !s.conns[c].released && at == s.conns[c].loop
    ensures CallAll(s, at, c, If(e, ErrorCallback)) == s && CallAll(s, at, c, If(w, WriteCallback)) == s
  {
    var k := s.conns[c];
    assert k.(out := TcpOutput.HandleWrite(k.out, 0)) == k;
    assert s.conns[c := k] == s.conns;
  }

  /** What is left of one event: the close and the read. */
  lemma CallAllEssence(s: System, at: nat, c: ConnId, revents: set<Flag>)
    requires s.Shaped() && c < |s.conns|
    requires var s1 := CallAll(s, at, c, If(Closes(revents), CloseCallback));
             var s2 := CallAll(s1, at, c, If(Reads(revents), ReadCallback));
             && !s1.conns[c].released && s1.conns[c].loop == at
             && !s2.conns[c].released && s2.conns[c].loop == at
    ensures CallAll(s, at, c, Callbacks(revents)) ==
            CallAll(CallAll(s, at, c, If(Closes(revents), CloseCallback)), at, c, If(Reads(revents), ReadCallback))
  {
    var close, error := If(Closes(revents), CloseCallback), If(ERR in revents || NVAL in revents, ErrorCallback);
    var read, write := If(Reads(revents), ReadCallback), If(OUT in revents, WriteCallback);
    assert Callbacks(revents) == close + error + read + write;
    CallAllSplit(s, at, c, close + error + read, write);
    CallAllSplit(s, at, c, close + error, read);
    CallAllSplit(s, at, c, close, error);
    var s1 := CallAll(s, at, c, close);
    QuietCalls(s1, at, c, ERR in revents || NVAL in revents, false);
    QuietCalls(CallAll(s1, at, c, read), at, c, false, OUT in revents);
  }

  lemma FirstClose(s: System, c: ConnId)
    requires Inv(s) && c < |s.conns| && s.conns[c].Stage() == 1 && AllPermit(s, c, 2)
    ensures var r := HandleClose(s, s.conns[c].loop, c);
            && Inv(r) && !r.conns[c].released
            && r.conns[c].loop == s.conns[c].loop && r.conns[c].Stage() == if s.conns[c].loop == 0 then 3 else 2
  {
    HandleCloseKeeps(s, c);
    CloseChannelKeeps(s, c);
    assert StageOk(HandleClose(s, s.conns[c].loop, c).conns[c]);
  }

  /** The state still admits a second close, which the connection map or the history gives away. */
  lemma SecondClose(s: System, c: ConnId)
    requires Inv(s) && c < |s.conns| && s.conns[c].Stage() == if s.conns[c].loop == 0 then 3 else 2
    ensures var r := HandleClose(s, s.conns[c].loop, c);
            && !r.conns[c].released && r.conns[c].loop == s.conns[c].loop
            && !(!r.fault && r.conns[c].history <= PATH) && s.conns[c].history <= r.conns[c].history
  {
    var k, r := s.conns[c], HandleClose(s, s.conns[c].loop, c);
    assert StageOk(k) && InTable(s, c);
    if k.loop != 0 {
      assert r.conns[c].history == k.history + [Closed];
      assert r.conns[c].history[2] == Closed;
    }
  }

  /**
   An event at the end of the stream is handled as it should be exactly when it closes once; it
   then closes the connection exactly for a hang-up, input, urgent data or peer shutdown.
   */
  lemma EventClosesOnceExactly(s: System, c: ConnId, revents: set<Flag>)
    requires Inv(s) && c < |s.conns| && s.conns[c].Stage() == 1 && AllPermit(s, c, 2)
    ensures var r := CallAll(s, s.conns[c].loop, c, Callbacks(revents));
            && ((!r.fault && r.conns[c].history <= PATH) <==> ClosesOnce(revents))
            && (Closed in r.conns[c].history <==>
                  HUP in revents || IN in revents || PRI in revents || RDHUP in revents)
  {
    ClosesOnceExactly(revents);
    assert StageOk(s.conns[c]);
    FirstClose(s, c);
    var s1 := HandleClose(s, s.conns[c].loop, c);
    assert StageOk(s1.conns[c]);
    assert s1.conns[c].history[1] == Closed;
    SecondClose(s1, c);
    CallOnce(s, c);
    CallOnce(s1, c);
    CallAllEssence(s, s.conns[c].loop, c, revents);
  }

  lemma CallOnce(s: System, c: ConnId)
    requires s.Shaped() && c < |s.conns| && !s.conns[c].released
    ensures CallAll(s, s.conns[c].loop, c, []) == s
    ensures CallAll(s, s.conns[c].loop, c, [CloseCallback]) == HandleClose(s, s.conns[c].loop, c)
    ensures CallAll(s, s.conns[c].loop, c, [ReadCallback]) == HandleClose(s, s.conns[c].loop, c)
  {
  }

  lemma RunStep(s: System, e: Step, es: seq<Step>)
    requires s.Shaped() && Enabled(s, e) && EnabledRun(Next(s, e), es)
    ensures EnabledRun(s, [e] + es) && Run(s, [e] + es) == Run(Next(s, e), es)
  {
    assert ([e] + es)[1..] == es;
  }

  /** The base loop with connection 0 open on descriptor 5, blocked in poll. */
  function OneOpen(): System {
    var k := NewConn(0, 5, false);
    System([IDLE.(table := map[5 := Slot(0, READ_EVENT, false)])],
           [Connected(k).(indexed := true, history := [Established])],
           {0}, false)
  }

  const UNTIL_OPEN: seq<Step> := [PollReturns(0, []), Accept(5, 0, false), BeginDrain(0), EndDrain(0)]

  function OneOpenIn(phase: Phase): System {
    OneOpen().(loops := [OneOpen().loops[0].(phase := phase)])
  }

  lemma AcceptOnBase()
    ensures var s := System([IDLE.(phase := Handling)], [], {}, false);
            s.Shaped() && NewConnection(s, 0, 5, 0, false) == OneOpenIn(Handling)
  {
    var s := System([IDLE.(phase := Handling)], [], {}, false);
    var s1 := Created(s, 5, 0, false);
    var k := NewConn(0, 5, false);
    assert s1.conns == [k] && s1.connections == {0};
    var r := Establish(s1, 0, 0);
    var k1 := OneOpen().conns[0];
    assert k1.Events() == READ_EVENT;
    assert k1.history == k.history + [Established];
    assert r.conns == [k1];
    assert r.loops == OneOpenIn(Handling).loops;
  }

  lemma UntilAccept()
    ensures var s0, s1 := Initial(0), System([IDLE.(phase := Handling)], [], {}, false);
            && Enabled(s0, PollReturns(0, [])) && Next(s0, PollReturns(0, [])) == s1
            && Enabled(s1, Accept(5, 0, false)) && Next(s1, Accept(5, 0, false)) == OneOpenIn(Handling)
  {
    AcceptOnBase();
  }

  lemma UntilBlocked()
    ensures var s2, s3 := OneOpenIn(Handling), OneOpenIn(Draining);
            && s2.Shaped() && Enabled(s2, BeginDrain(0)) && Next(s2, BeginDrain(0)) == s3
            && s3.Shaped() && Enabled(s3, EndDrain(0)) && Next(s3, EndDrain(0)) == OneOpen()
  {
  }

  ghost predicate Leads(s: System, e: Step, r: System) {
    s.Shaped() && Enabled(s, e) && Next(s, e) == r
  }

  /** Four steps, by the states they lead through. */
  lemma RunFour(s0: System, s1: System, s2: System, s3: System, s4: System, e: seq<Step>, es: seq<Step>)
    requires |e| == 4 && Leads(s0, e[0], s1) && Leads(s1, e[1], s2) && Leads(s2, e[2], s3) && Leads(s3, e[3], s4)
    requires s4.Shaped() && EnabledRun(s4, es)
    ensures EnabledRun(s0, e + es) && Run(s0, e + es) == Run(s4, es)
  {
    RunStep(s3, e[3], es);
    RunStep(s2, e[2], [e[3]] + es);
    RunStep(s1, e[1], [e[2]] + ([e[3]] + es));
    RunStep(s0, e[0], [e[1]] + ([e[2]] + ([e[3]] + es)));
    assert e + es == [e[0]] + ([e[1]] + ([e[2]] + ([e[3]] + es)));
  }

  lemma OneOpenReachable(es: seq<Step>)
    requires OneOpen().Shaped() && EnabledRun(OneOpen(), es)
    ensures EnabledRun(Initial(0), UNTIL_OPEN + es) && Run(Initial(0), UNTIL_OPEN + es) == Run(OneOpen(), es)
  {
    UntilAccept();
    UntilBlocked();
    var s1 := System([IDLE.(phase := Handling)], [], {}, false);
    RunFour(Initial(0), s1, OneOpenIn(Handling), OneOpenIn(Draining), OneOpen(), UNTIL_OPEN, es);
  }

  const HANGUP_WITH_URGENT_DATA: seq<Step> :=
    [PollReturns(0, [Ready(5, 0, {HUP, PRI})]), NextChannel(0),
     Callback(0, 0, CloseCallback, true, 0), Callback(0, 0, ReadCallback, true, 0)]

  /** The states of that run: after the first close the connection is erased, yet still up. */
  lemma DoubleCloseStates() returns (s2: System, s3: System)
    ensures var es, s0 := HANGUP_WITH_URGENT_DATA, OneOpen();
            && s0.Shaped() && Enabled(s0, es[0]) && Enabled(Next(s0, es[0]), es[1])
            && s2 == Next(Next(s0, es[0]), es[1]) && Enabled(s2, es[2])
            && s3 == Next(s2, es[2]) && Enabled(s3, es[3]) && Next(s3, es[3]).fault
  {
    var es, s0 := HANGUP_WITH_URGENT_DATA, OneOpen();
    s2 := Next(Next(s0, es[0]), es[1]);
    assert s2.loops[0].calls == [CloseCallback, ReadCallback];
    assert s2.loops[0].current == 0 && s2.conns == s0.conns && s2.connections == {0};
    s3 := Next(s2, es[2]);
    assert s3.conns[0].Up() && 0 !in s3.connections && s3.loops[0].calls == [ReadCallback];
  }

  /** A run on which the second close finds the connection already erased. */
  lemma DoubleCloseFaults()
    ensures var es := UNTIL_OPEN + HANGUP_WITH_URGENT_DATA;
            EnabledRun(Initial(0), es) && Run(Initial(0), es).fault
  {
    var es, s0 := HANGUP_WITH_URGENT_DATA, OneOpen();
    var s2, s3 := DoubleCloseStates();
    RunFour(s0, Next(s0, es[0]), s2, s3, Next(s3, es[3]), es, []);
    assert es + [] == es;
    OneOpenReachable(es);
  }
}
