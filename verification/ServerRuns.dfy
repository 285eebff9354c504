/**
 What a run of the server amounts to, read off the list of its steps: which connections there
 are, what each of them did with its output, which callbacks were made and which functors were
 called (src/TcpServer.cpp, src/EventLoop.cpp, src/Channel.cpp, src/TcpConnection.cpp).
 */
module ServerRuns {
  import opened Bytes
  import opened Polling
  import opened Lifecycle
  import TcpOutput
  import Codec
  import Delivery

  // ----- Connections and their output -----

  /** How many connections the steps accept. */
  function AcceptCount(es: seq<Step>): nat {
    if es == [] then 0 else (if es[0].Accept? then 1 else 0) + AcceptCount(es[1..])
  }

  predicate ClosesNow(call: Callback, eof: bool) {
    call == CloseCallback || (call == ReadCallback && eof)
  }

  /** What a step means to the output side of connection `c`, when `born` connections exist. */
  function EventsOf(e: Step, c: ConnId, born: nat): seq<TcpOutput.Event> {
    match e
    case Accept(_, on, _) => if born == c && on == 0 then [TcpOutput.Establish] else []
    case Callback(_, d, call, eof, n) =>
      if d != c then []
      else if ClosesNow(call, eof) then [TcpOutput.HandleClose]
      else if call == WriteCallback then [TcpOutput.Writable(n)]
      else []
    case RunFunctor(_, f) =>
      if f == ConnectEstablished(c) then [TcpOutput.Establish]
      else if f == ConnectDestroyed(c) then [TcpOutput.Destroy]
      else []
    case Send(_, d, message, nwrote) => if d == c then [TcpOutput.DoSend(message, nwrote)] else []
    case Shutdown(_, d) => if d == c then [TcpOutput.DoShutdown] else []
    case _ => []
  }

  /** The steps of connection `c`, as events of its output side. */
  function Project(es: seq<Step>, c: ConnId, born: nat): seq<TcpOutput.Event>
    decreases |es|
  {
    if es == [] then [] else EventsOf(es[0], c, born) + Project(es[1..], c, Later(es[0], born))
  }

  datatype Outcome = Impossible | Reached(out: TcpOutput.Output)

  /** Where the events lead, if they are possible. */
  ghost function Final(o: TcpOutput.Output, events: seq<TcpOutput.Event>): Outcome {
    if TcpOutput.PossibleRun(o, events) then Reached(TcpOutput.Run(o, events)) else Impossible
  }

  ghost predicate Leads(o: TcpOutput.Output, events: seq<TcpOutput.Event>, r: TcpOutput.Output) {
    Final(o, events) == Reached(r)
  }

  lemma LeadsNowhere(o: TcpOutput.Output)
    ensures Leads(o, [], o)
  {
  }

  lemma LeadsByOne(o: TcpOutput.Output, e: TcpOutput.Event)
    requires TcpOutput.Possible(o, e)
    ensures Leads(o, [e], TcpOutput.Step(o, e))
  {
    TcpOutput.RunOne(o, e);
  }

  lemma LeadsOn(o: TcpOutput.Output, a: seq<TcpOutput.Event>, m: TcpOutput.Output, b: seq<TcpOutput.Event>,
                r: TcpOutput.Output)
    requires Leads(o, a, m) && Leads(m, b, r)
    ensures Leads(o, a + b, r)
  {
    TcpOutput.RunSplit(o, a, b);
  }

  /** Only connection `c` may differ, and it keeps its loop and descriptor. */
  ghost predicate OnlyConn(s: System, r: System, c: ConnId) {
    && |r.conns| == |s.conns|
    && (forall d :: 0 <= d < |s.conns| && d != c ==> r.conns[d] == s.conns[d])
    && (c < |s.conns| ==> SamePlace(s.conns[c], r.conns[c]))
  }

  predicate SamePlace(k: Conn, next: Conn) {
    next.loop == k.loop && next.fd == k.fd && next.released == k.released
  }

  lemma EstablishOut(s: System, at: nat, c: ConnId)
    requires s.Shaped() && c < |s.conns| && !Establish(s, at, c).fault
    ensures var r := Establish(s, at, c);
            && OnlyConn(s, r, c) && s.conns[c].out.state == TcpOutput.Connecting
            && r.conns[c].out == s.conns[c].out.(state := TcpOutput.Connected)
  {
  }

  lemma RemoveOut(s: System, at: nat, c: ConnId)
    requires s.Shaped() && c < |s.conns| && !RemoveInLoop(s, at, c).fault
    ensures var r := RemoveInLoop(s, at, c); OnlyConn(s, r, c) && r.conns[c].out == s.conns[c].out
  {
  }

  lemma CloseOut(s: System, at: nat, c: ConnId)
    requires s.Shaped() && c < |s.conns| && !HandleClose(s, at, c).fault
    ensures var r := HandleClose(s, at, c);
            && OnlyConn(s, r, c) && s.conns[c].Up() && r.conns[c].out == TcpOutput.Close(s.conns[c].out)
  {
    var s1 := CloseChannel(s, at, c);
    assert OnlyConn(s, s1, c) && s1.conns[c].out == TcpOutput.Close(s.conns[c].out);
    if at == 0 {
      RemoveOut(s1, at, c);
    }
  }

  lemma DestroyOut(s: System, at: nat, c: ConnId)
    requires s.Shaped() && c < |s.conns| && !Destroy(s, at, c).fault
    ensures var r := Destroy(s, at, c); OnlyConn(s, r, c) && r.conns[c].out == TcpOutput.Retire(s.conns[c].out)
  {
  }

  lemma SetOutOut(s: System, at: nat, c: ConnId, out: TcpOutput.Output)
    requires s.Shaped() && c < |s.conns| && !SetOut(s, at, c, out).fault
    ensures var r := SetOut(s, at, c, out); OnlyConn(s, r, c) && r.conns[c].out == out
  {
  }

  /** What shows of a connection: its loop, its descriptor, whether it is released, its output. */
  datatype Fate = Fate(loop: nat, fd: int, released: bool, output: Outcome)

  ghost function FateOf(k: Conn): Fate {
    Fate(k.loop, k.fd, k.released, Reached(k.out))
  }

  /** What the steps `es` make of connection `c`, which was `k` when `born` connections existed. */
  ghost function Played(k: Conn, es: seq<Step>, c: ConnId, born: nat): Fate {
    Fate(k.loop, k.fd, k.released || Release(c) in es, Final(k.out, Project(es, c, born)))
  }

  ghost predicate Became(k: Conn, next: Conn, es: seq<Step>, c: ConnId, born: nat) {
    FateOf(next) == Played(k, es, c, born)
  }

  lemma BecameNothing(k: Conn, c: ConnId, born: nat)
    ensures Became(k, k, [], c, born)
  {
    LeadsNowhere(k.out);
  }

  lemma ProjectFirst(e: Step, rest: seq<Step>, c: ConnId, born: nat)
    ensures Project([e] + rest, c, born) == EventsOf(e, c, born) + Project(rest, c, Later(e, born))
  {
    assert ([e] + rest)[1..] == rest;
  }

  /** How many connections exist after a step. */
  function Later(e: Step, born: nat): nat {
    if e.Accept? then born + 1 else born
  }

  /** One step makes `m` of connection `c`. */
  ghost predicate Moves(k: Conn, m: Conn, e: Step, c: ConnId, born: nat) {
    SamePlaceBut(k, m, e, c) && Final(k.out, EventsOf(e, c, born)) == Reached(m.out)
  }

  lemma BecameOn(k: Conn, m: Conn, r: Conn, e: Step, rest: seq<Step>, c: ConnId, born: nat, later: nat)
    requires later == Later(e, born) && Moves(k, m, e, c, born) && Became(m, r, rest, c, later)
    ensures Became(k, r, [e] + rest, c, born)
  {
    ProjectFirst(e, rest, c, born);
    LeadsOn(k.out, EventsOf(e, c, born), m.out, Project(rest, c, later), r.out);
  }

  predicate SamePlaceBut(k: Conn, next: Conn, e: Step, c: ConnId) {
    next.loop == k.loop && next.fd == k.fd && next.released == (k.released || e == Release(c))
  }

  /** A step leads the output of every existing connection by the events it means to it. */
  ghost predicate Projects(s: System, r: System, e: Step, c: ConnId)
    requires c < |s.conns|
  {
    c < |r.conns| && Moves(s.conns[c], r.conns[c], e, c, |s.conns|)
  }

  /** The functor about to run finds its connection as it should be. */
  lemma FunctorFinds(s: System, l: nat, f: Functor)
    requires Inv(s) && Enabled(s, RunFunctor(l, f))
    ensures f.conn < |s.conns| && !s.conns[f.conn].out.aborted
    ensures f.ConnectDestroyed? ==> s.conns[f.conn].out.closed
    ensures !s.conns[f.conn].released && !Next(s, RunFunctor(l, f)).fault
  {
    PopKeeps(s, l);
    RunFunctorKeeps(s, l, f);
    assert StageOk(s.conns[f.conn]) && OutOk(s.conns[f.conn]);
  }

  lemma FunctorOut(s: System, l: nat, f: Functor)
    requires Inv(s) && Enabled(s, RunFunctor(l, f))
    ensures f.conn < |s.conns|
    ensures var r, o := Next(s, RunFunctor(l, f)), s.conns[f.conn].out;
            && OnlyConn(s, r, f.conn)
            && (f.ConnectEstablished? ==>
                  && TcpOutput.Possible(o, TcpOutput.Establish)
                  && r.conns[f.conn].out == TcpOutput.Step(o, TcpOutput.Establish))
            && (f.RemoveConnectionInLoop? ==> r.conns[f.conn].out == o)
            && (f.ConnectDestroyed? ==>
                  && TcpOutput.Possible(o, TcpOutput.Destroy)
                  && r.conns[f.conn].out == TcpOutput.Step(o, TcpOutput.Destroy))
  {
    FunctorFinds(s, l, f);
    var s1 := WithLoop(s, l, Popped(s.loops[l]));
    match f
    case ConnectEstablished(d) => EstablishOut(s1, l, d);
    case RemoveConnectionInLoop(d) => RemoveOut(s1, l, d);
    case ConnectDestroyed(d) => DestroyOut(s1, l, d);
  }

  lemma FunctorProjects(s: System, l: nat, f: Functor, c: ConnId)
    requires Inv(s) && Enabled(s, RunFunctor(l, f)) && c < |s.conns|
    ensures Projects(s, Next(s, RunFunctor(l, f)), RunFunctor(l, f), c)
  {
    FunctorOut(s, l, f);
    var o := s.conns[c].out;
    LeadsNowhere(o);
    if f == ConnectEstablished(c) {
      LeadsByOne(o, TcpOutput.Establish);
    } else if f == ConnectDestroyed(c) {
      LeadsByOne(o, TcpOutput.Destroy);
    }
  }

  lemma CallbackOut(s: System, l: nat, d: ConnId, call: Callback, eof: bool, n: int)
    requires Inv(s) && Enabled(s, Callback(l, d, call, eof, n))
    ensures d < |s.conns|
    ensures var r, o := Next(s, Callback(l, d, call, eof, n)), s.conns[d].out;
            && OnlyConn(s, r, d)
            && (ClosesNow(call, eof) ==>
                  && TcpOutput.Possible(o, TcpOutput.HandleClose)
                  && r.conns[d].out == TcpOutput.Step(o, TcpOutput.HandleClose))
            && (call == WriteCallback ==>
                  && TcpOutput.Possible(o, TcpOutput.Writable(n))
                  && r.conns[d].out == TcpOutput.Step(o, TcpOutput.Writable(n)))
            && (!ClosesNow(call, eof) && call != WriteCallback ==> r.conns[d].out == o)
  {
    CallbackKeeps(s, l, d, call, eof, n);
    TakeCallKeeps(s, l);
    var p := s.loops[l];
    var s1 := WithLoop(s, l, p.(calls := p.calls[1..]));
    assert OutOk(s.conns[d]);
    if ClosesNow(call, eof) {
      CloseOut(s1, l, d);
    } else if call == WriteCallback {
      SetOutOut(s1, l, d, TcpOutput.HandleWrite(s.conns[d].out, n));
    }
  }

  lemma CallbackProjects(s: System, l: nat, d: ConnId, call: Callback, eof: bool, n: int, c: ConnId)
    requires Inv(s) && Enabled(s, Callback(l, d, call, eof, n)) && c < |s.conns|
    ensures Projects(s, Next(s, Callback(l, d, call, eof, n)), Callback(l, d, call, eof, n), c)
  {
    CallbackOut(s, l, d, call, eof, n);
    var o := s.conns[c].out;
    LeadsNowhere(o);
    if d == c && ClosesNow(call, eof) {
      LeadsByOne(o, TcpOutput.HandleClose);
    } else if d == c && call == WriteCallback {
      LeadsByOne(o, TcpOutput.Writable(n));
    }
  }

  function UserEvent(e: Step): TcpOutput.Event
    requires e.Send? || e.Shutdown?
  {
    if e.Send? then TcpOutput.DoSend(e.message, e.nwrote) else TcpOutput.DoShutdown
  }

  lemma UserOut(s: System, e: Step)
    requires Inv(s) && Enabled(s, e) && (e.Send? || e.Shutdown?)
    ensures var o, r := s.conns[e.conn].out, Next(s, e);
            && OnlyConn(s, r, e.conn) && TcpOutput.Possible(o, UserEvent(e))
            && r.conns[e.conn].out == TcpOutput.Step(o, UserEvent(e))
  {
    StepKeeps(s, e);
    assert OutOk(s.conns[e.conn]);
    SetOutOut(s, e.loop, e.conn, TcpOutput.Step(s.conns[e.conn].out, UserEvent(e)));
  }

  lemma UserProjects(s: System, e: Step, c: ConnId)
    requires Inv(s) && Enabled(s, e) && (e.Send? || e.Shutdown?) && c < |s.conns|
    ensures Projects(s, Next(s, e), e, c)
  {
    UserOut(s, e);
    LeadsNowhere(s.conns[c].out);
    LeadsByOne(s.conns[e.conn].out, UserEvent(e));
  }

  /** Steps in which a loop moves on by itself, or a connection is released. */
  lemma QuietProjects(s: System, e: Step, c: ConnId)
    requires s.Shaped() && Enabled(s, e) && c < |s.conns|
    requires e.PollReturns? || e.NextChannel? || e.BeginDrain? || e.EndDrain? || e.Release?
    ensures Projects(s, Next(s, e), e, c)
  {
    LeadsNowhere(s.conns[c].out);
  }

  lemma AcceptLeaves(s: System, e: Step, c: ConnId)
    requires Inv(s) && Enabled(s, e) && e.Accept? && c < |s.conns|
    ensures Projects(s, Next(s, e), e, c)
  {
    AcceptProjects(s, e.fd, e.on, e.notify);
    assert Next(s, e).conns[..|s.conns|][c] == s.conns[c];
    LeadsNowhere(s.conns[c].out);
  }

  /** An accepted connection is the one the step describes, and the others stay. */
  lemma AcceptProjects(s: System, fd: int, l: nat, notify: bool)
    requires Inv(s) && Enabled(s, Accept(fd, l, notify))
    ensures var r, c := Next(s, Accept(fd, l, notify)), |s.conns|;
            && |r.conns| == c + 1 && r.conns[..c] == s.conns
            && r.conns[c].loop == l && r.conns[c].fd == fd && !r.conns[c].released
            && Leads(TcpOutput.Initial(notify), EventsOf(Accept(fd, l, notify), c, c), r.conns[c].out)
  {
    AcceptKeeps(s, fd, l, notify);
    var c, s1 := |s.conns|, Created(s, fd, l, notify);
    LeadsNowhere(TcpOutput.Initial(notify));
    if l == 0 {
      EstablishOut(s1, 0, c);
      LeadsByOne(TcpOutput.Initial(notify), TcpOutput.Establish);
    }
  }

  lemma StepProjects(s: System, e: Step, c: ConnId)
    requires Inv(s) && Enabled(s, e) && c < |s.conns|
    ensures Projects(s, Next(s, e), e, c)
  {
    match e
    case Accept(_, _, _) => AcceptLeaves(s, e, c);
    case Callback(l, d, call, eof, n) => CallbackProjects(s, l, d, call, eof, n, c);
    case RunFunctor(l, f) => FunctorProjects(s, l, f, c);
    case Send(_, _, _, _) => UserProjects(s, e, c);
    case Shutdown(_, _) => UserProjects(s, e, c);
    case _ => QuietProjects(s, e, c);
  }

  lemma StepCounts(s: System, e: Step)
    requires Inv(s) && Enabled(s, e) && Polite(e)
    ensures |Next(s, e).conns| == Later(e, |s.conns|)
  {
    match e
    case Accept(fd, l, notify) => AcceptProjects(s, fd, l, notify);
    case Callback(l, d, call, eof, n) => TakeCallKeeps(s, l);
    case RunFunctor(l, f) => FunctorOut(s, l, f);
    case _ =>
  }

  /** What a step does to a connection that exists, and that the invariant stays. */
  lemma StepFacts(s: System, e: Step, c: ConnId)
    requires Inv(s) && Enabled(s, e) && Polite(e) && c < |s.conns|
    ensures Inv(Next(s, e)) && |Next(s, e).conns| == Later(e, |s.conns|)
    ensures c < |Next(s, e).conns| && Moves(s.conns[c], Next(s, e).conns[c], e, c, |s.conns|)
  {
    StepKeeps(s, e);
    StepProjects(s, e, c);
    StepCounts(s, e);
  }

  /** A run, for a connection that exists. */
  lemma {:induction false} RunProjects(s: System, es: seq<Step>, c: ConnId)
    requires Inv(s) && EnabledRun(s, es) && AllPolite(es)
    ensures c < |s.conns| ==> c < |Run(s, es).conns| && Became(s.conns[c], Run(s, es).conns[c], es, c, |s.conns|)
    decreases |es|
  {
    if |s.conns| <= c {
    } else if es == [] {
      BecameNothing(s.conns[c], c, |s.conns|);
    } else {
      var s1, rest := Next(s, es[0]), es[1..];
      StepFacts(s, es[0], c);
      RunProjects(s1, rest, c);
      BecameOn(s.conns[c], s1.conns[c], Run(s1, rest).conns[c], es[0], rest, c, |s.conns|, |s1.conns|);
      FirstAndRest(es);
    }
  }

  lemma FirstAndRest(es: seq<Step>)
    requires es != []
    ensures [es[0]] + es[1..] == es
  {
  }

  /** A connection as an accept describes it. */
  function Fresh(a: Step): Conn
    requires a.Accept?
  {
    Conn(a.on, a.fd, false, TcpOutput.Initial(a.notify), false, [], false)
  }

  /** Connection `c` is what the accept `a` and the steps make of it. */
  ghost predicate MadeBy(k: Conn, a: Step, es: seq<Step>, c: ConnId, born: nat)
    requires a.Accept?
  {
    FateOf(k) == Fate(a.on, a.fd, Release(c) in es, Final(TcpOutput.Initial(a.notify), Project(es, c, born)))
  }

  /** Steps name only connections that exist. */
  lemma NotYetNamed(s: System, e: Step, c: ConnId)
    requires Inv(s) && Enabled(s, e) && |s.conns| <= c
    ensures e != Release(c) && ((e.Accept? && |s.conns| == c) || EventsOf(e, c, |s.conns|) == [])
  {
    match e
    case Callback(l, d, call, eof, n) => TakeCallKeeps(s, l);
    case RunFunctor(l, f) => PopKeeps(s, l);
    case _ =>
  }

  lemma MadeNow(s: System, e: Step, rest: seq<Step>)
    requires Inv(s) && Enabled(s, e) && e.Accept? && AllPolite(rest) && EnabledRun(Next(s, e), rest)
    ensures var c := |s.conns|;
            c < |Run(Next(s, e), rest).conns| && MadeBy(Run(Next(s, e), rest).conns[c], e, [e] + rest, c, c)
  {
    var c, s1 := |s.conns|, Next(s, e);
    AcceptProjects(s, e.fd, e.on, e.notify);
    StepKeeps(s, e);
    RunProjects(s1, rest, c);
    BecameOn(Fresh(e), s1.conns[c], Run(s1, rest).conns[c], e, rest, c, c, c + 1);
  }

  lemma {:induction false} RunCounts(s: System, es: seq<Step>)
    requires Inv(s) && EnabledRun(s, es) && AllPolite(es)
    ensures |Run(s, es).conns| == |s.conns| + AcceptCount(es)
    decreases |es|
  {
    if es != [] {
      StepKeeps(s, es[0]);
      StepCounts(s, es[0]);
      RunCounts(Next(s, es[0]), es[1..]);
    }
  }

  /** Before it is accepted, a connection is in no step. */
  lemma {:induction false} SkipsBefore(s: System, es: seq<Step>, c: ConnId)
    requires Inv(s) && EnabledRun(s, es) && AllPolite(es) && |Run(s, es).conns| <= c
    ensures Project(es, c, |s.conns|) == [] && Release(c) !in es
    decreases |es|
  {
    if es != [] {
      StepKeeps(s, es[0]);
      StepCounts(s, es[0]);
      RunCounts(s, es);
      NotYetNamed(s, es[0], c);
      SkipsBefore(Next(s, es[0]), es[1..], c);
    }
  }

  lemma {:induction false} ProjectSplit(a: seq<Step>, b: seq<Step>, c: ConnId, born: nat)
    ensures Project(a + b, c, born) == Project(a, c, born) + Project(b, c, born + AcceptCount(a))
    decreases |a|
  {
    if a == [] {
      assert a + b == b;
    } else {
      var e, rest, later := a[0], a[1..], Later(a[0], born);
      ProjectSplit(rest, b, c, later);
      SplitFirst(e, rest, b, c, born, Project(b, c, later + AcceptCount(rest)));
      FirstAndRest(a);
      assert a + b == [e] + (rest + b);
      assert born + AcceptCount(a) == later + AcceptCount(rest);
    }
  }

  lemma SplitFirst(e: Step, rest: seq<Step>, b: seq<Step>, c: ConnId, born: nat, tail: seq<TcpOutput.Event>)
    requires Project(rest + b, c, Later(e, born)) == Project(rest, c, Later(e, born)) + tail
    ensures Project([e] + (rest + b), c, born) == Project([e] + rest, c, born) + tail
  {
    ProjectFirst(e, rest + b, c, born);
    ProjectFirst(e, rest, c, born);
    AppendAssoc(EventsOf(e, c, born), Project(rest, c, Later(e, born)), tail);
  }

  lemma PlayedSkips(k: Conn, a: seq<Step>, b: seq<Step>, c: ConnId, born: nat)
    requires Project(a, c, born) == [] && Release(c) !in a
    ensures Played(k, a + b, c, born) == Played(k, b, c, born + AcceptCount(a))
  {
    ProjectSkips(a, b, c, born);
    StillNamed(a, b, Release(c));
    SameFate(k, Release(c) in a + b, Release(c) in b, Project(a + b, c, born), Project(b, c, born + AcceptCount(a)));
  }

  lemma SameFate(k: Conn, r: bool, r': bool, events: seq<TcpOutput.Event>, events': seq<TcpOutput.Event>)
    requires r == r' && events == events'
    ensures Fate(k.loop, k.fd, k.released || r, Final(k.out, events)) ==
            Fate(k.loop, k.fd, k.released || r', Final(k.out, events'))
  {
  }

  lemma ProjectSkips(a: seq<Step>, b: seq<Step>, c: ConnId, born: nat)
    requires Project(a, c, born) == []
    ensures Project(a + b, c, born) == Project(b, c, born + AcceptCount(a))
  {
    ProjectSplit(a, b, c, born);
    AppendAssoc(Project(b, c, born + AcceptCount(a)), [], []);
  }

  lemma StillNamed(a: seq<Step>, b: seq<Step>, e: Step)
    requires e !in a
    ensures e in a + b <==> e in b
  {
  }

  lemma {:induction false} RunSplit(s: System, a: seq<Step>, b: seq<Step>)
    requires s.Shaped()
    ensures EnabledRun(s, a + b) <==> EnabledRun(s, a) && EnabledRun(Run(s, a), b)
    ensures EnabledRun(s, a + b) ==> Run(s, a + b) == Run(Run(s, a), b)
    decreases |a|
  {
    if a == [] {
      assert a + b == b;
    } else {
      assert (a + b)[1..] == a[1..] + b;
      if Enabled(s, a[0]) {
        RunSplit(Next(s, a[0]), a[1..], b);
      }
    }
  }

  lemma PoliteParts(a: seq<Step>, b: seq<Step>)
    requires AllPolite(a + b)
    ensures AllPolite(a) && AllPolite(b)
  {
    assert forall i :: 0 <= i < |a| ==> a[i] == (a + b)[i];
    assert forall i :: 0 <= i < |b| ==> b[i] == (a + b)[|a| + i];
  }

  /** The state in which `a` is accepted, and what follows. */
  lemma UntilAccept(n: nat, before: seq<Step>, a: Step, after: seq<Step>)
    requires EnabledRun(Initial(n), before + ([a] + after)) && AllPolite(before + ([a] + after)) && a.Accept?
    ensures EnabledRun(Initial(n), before) && AllPolite(before) && AllPolite(after)
    ensures var s := Run(Initial(n), before);
            && Inv(s) && |s.conns| == AcceptCount(before) && Enabled(s, a) && EnabledRun(Next(s, a), after)
            && Run(Initial(n), before + ([a] + after)) == Run(Next(s, a), after)
  {
    InitialOk(n);
    RunSplit(Initial(n), before, [a] + after);
    PoliteParts(before, [a] + after);
    PoliteParts([a], after);
    RunKeeps(Initial(n), before);
    RunCounts(Initial(n), before);
    assert ([a] + after)[1..] == after;
  }

  /** The step that accepts connection `c`. */
  lemma {:induction false} AcceptAt(es: seq<Step>, c: nat) returns (i: nat)
    requires c < AcceptCount(es)
    ensures i < |es| && es[i].Accept? && AcceptCount(es[..i]) == c
    decreases |es|
  {
    if es[0].Accept? && c == 0 {
      i := 0;
    } else {
      var j := AcceptAt(es[1..], if es[0].Accept? then c - 1 else c);
      i := j + 1;
      assert es[..i][1..] == es[1..][..j];
    }
  }

  /** Every connection there is was accepted by some step. */
  lemma ConnectionsAreAccepted(n: nat, es: seq<Step>)
    requires EnabledRun(Initial(n), es) && AllPolite(es)
    ensures |Run(Initial(n), es).conns| == AcceptCount(es)
  {
    InitialOk(n);
    RunCounts(Initial(n), es);
  }

  /**
   On every run of the server, the connection of an accept is on the loop and the descriptor given
   there; its output is exactly the run of `TcpOutput` that its own sends, shutdowns, write
   callbacks, closes and destruction make; and it is released exactly if a step released it.
   */
  lemma ConnectionsFollowTheirSteps(n: nat, before: seq<Step>, a: Step, after: seq<Step>)
    requires EnabledRun(Initial(n), before + ([a] + after)) && AllPolite(before + ([a] + after)) && a.Accept?
    ensures var es, c := before + ([a] + after), AcceptCount(before);
            c < |Run(Initial(n), es).conns| && MadeBy(Run(Initial(n), es).conns[c], a, es, c, 0)
  {
    var c := AcceptCount(before);
    InitialOk(n);
    UntilAccept(n, before, a, after);
    MadeNow(Run(Initial(n), before), a, after);
    SkipsBefore(Initial(n), before, c);
    MadeEarlier(Run(Initial(n), before + ([a] + after)).conns[c], a, before, [a] + after, c);
  }

  lemma MadeEarlier(k: Conn, a: Step, before: seq<Step>, rest: seq<Step>, c: ConnId)
    requires a.Accept? && c == AcceptCount(before) && Project(before, c, 0) == [] && Release(c) !in before
    requires MadeBy(k, a, rest, c, c)
    ensures MadeBy(k, a, before + rest, c, 0)
  {
    PlayedSkips(Fresh(a), before, rest, c, 0);
  }

  /** The messages a run takes on for the connection of accept `a`. */
  ghost function SentOn(n: nat, before: seq<Step>, a: Step, after: seq<Step>): seq<seq<byte>>
    requires EnabledRun(Initial(n), before + ([a] + after)) && AllPolite(before + ([a] + after)) && a.Accept?
  {
    ConnectionsFollowTheirSteps(n, before, a, after);
    Delivery.Taken(TcpOutput.Initial(a.notify), Project(before + ([a] + after), AcceptCount(before), 0))
  }

  ghost function OutputOf(n: nat, before: seq<Step>, a: Step, after: seq<Step>): TcpOutput.Output
    requires EnabledRun(Initial(n), before + ([a] + after)) && AllPolite(before + ([a] + after)) && a.Accept?
  {
    ConnectionsFollowTheirSteps(n, before, a, after);
    Run(Initial(n), before + ([a] + after)).conns[AcceptCount(before)].out
  }

  /** So what is sent on any connection of the server arrives. */
  lemma ServerMessagesArrive(n: nat, before: seq<Step>, a: Step, after: seq<Step>, ms: seq<Codec.Message>,
                             pieces: seq<seq<byte>>)
    requires EnabledRun(Initial(n), before + ([a] + after)) && AllPolite(before + ([a] + after)) && a.Accept?
    requires SentOn(n, before, a, after) == Delivery.Frames(ms) && forall m :: m in ms ==> Codec.Encodable(m)
    requires Concat(pieces) <= OutputOf(n, before, a, after).wire
    ensures Codec.Incremental(Codec.Parse)
    ensures var out := OutputOf(n, before, a, after);
            var got := Codec.DrainChunks(Codec.Parse, [], pieces);
            && got.messages <= ms && !got.failed
            && (out.buffer == [] && Concat(pieces) == out.wire ==> got == Codec.Drained(ms, [], false))
  {
    ConnectionsFollowTheirSteps(n, before, a, after);
    var events := Project(before + ([a] + after), AcceptCount(before), 0);
    Delivery.SentMessagesArrive(a.notify, events, ms, pieces);
  }

  // ----- Callbacks -----

  /** A callback of a connection's channel. */
  datatype Due = Due(conn: ConnId, call: Callback)

  function Tagged(c: ConnId, calls: seq<Callback>): seq<Due> {
    seq(|calls|, i requires 0 <= i < |calls| => Due(c, calls[i]))
  }

  /** The callbacks that ready channels call for, in order. */
  function CallsFor(ready: seq<Ready>): seq<Due> {
    if ready == [] then [] else Tagged(ready[0].conn, Callbacks(ready[0].revents)) + CallsFor(ready[1..])
  }

  /** What poll has reported to loop `l` ... */
  function Reported(es: seq<Step>, l: nat): seq<Due> {
    if es == [] then []
    else (if es[0].PollReturns? && es[0].loop == l then CallsFor(es[0].ready) else []) + Reported(es[1..], l)
  }

  /** ... and the callbacks that loop `l` has made. */
  function Made(es: seq<Step>, l: nat): seq<Due> {
    if es == [] then []
    else (if es[0].Callback? && es[0].loop == l then [Due(es[0].conn, es[0].call)] else []) + Made(es[1..], l)
  }

  /** The callbacks loop `p` has still to make. */
  function Outstanding(p: Loop): seq<Due> {
    Tagged(p.current, p.calls) + CallsFor(p.active)
  }

  /** The same channels are to be handled. */
  ghost predicate SameDispatch(s: System, r: System) {
    && |r.loops| == |s.loops|
    && forall l :: 0 <= l < |s.loops| ==>
         && r.loops[l].active == s.loops[l].active && r.loops[l].current == s.loops[l].current
         && r.loops[l].calls == s.loops[l].calls
  }

  lemma EstablishDispatch(s: System, at: nat, c: ConnId)
    requires s.Shaped() && c < |s.conns|
    ensures SameDispatch(s, Establish(s, at, c))
  {
  }

  lemma RemoveDispatch(s: System, at: nat, c: ConnId)
    requires s.Shaped() && c < |s.conns|
    ensures SameDispatch(s, RemoveInLoop(s, at, c))
  {
  }

  lemma CloseDispatch(s: System, at: nat, c: ConnId)
    requires s.Shaped() && c < |s.conns|
    ensures SameDispatch(s, HandleClose(s, at, c))
  {
    var s1 := CloseChannel(s, at, c);
    assert SameDispatch(s, s1);
    RemoveDispatch(s1, at, c);
  }

  lemma DestroyDispatch(s: System, at: nat, c: ConnId)
    requires s.Shaped() && c < |s.conns|
    ensures SameDispatch(s, Destroy(s, at, c))
  {
    assert SameDispatch(s, DisableChannel(s, at, c));
  }

  lemma CallDispatch(s: System, at: nat, c: ConnId, call: Callback, eof: bool, n: int)
    requires s.Shaped() && c < |s.conns| && (call == WriteCallback ==> n <= |s.conns[c].out.buffer|)
    ensures SameDispatch(s, Call(s, at, c, call, eof, n))
  {
    CloseDispatch(s, at, c);
    if call == WriteCallback {
      SetOutDispatch(s, at, c, TcpOutput.HandleWrite(s.conns[c].out, n));
    }
  }

  lemma SetOutDispatch(s: System, at: nat, c: ConnId, out: TcpOutput.Output)
    requires s.Shaped() && c < |s.conns|
    ensures SameDispatch(s, SetOut(s, at, c, out))
  {
  }

  lemma ExecuteDispatch(s: System, at: nat, f: Functor)
    requires s.Shaped()
    ensures SameDispatch(s, Execute(s, at, f))
  {
    if f.conn < |s.conns| {
      EstablishDispatch(s, at, f.conn);
      RemoveDispatch(s, at, f.conn);
      DestroyDispatch(s, at, f.conn);
    }
  }

  lemma AcceptDispatch(s: System, fd: int, l: nat, notify: bool)
    requires s.Shaped() && l < |s.loops|
    ensures SameDispatch(s, NewConnection(s, 0, fd, l, notify))
  {
    EstablishDispatch(Created(s, fd, l, notify), 0, |s.conns|);
  }

  lemma TaggedFirst(c: ConnId, calls: seq<Callback>)
    requires calls != []
    ensures Tagged(c, calls) == [Due(c, calls[0])] + Tagged(c, calls[1..])
  {
  }

  /** What one step adds to the callbacks reported, and to those made. */
  function ReportedBy(e: Step, l: nat): seq<Due> {
    if e.PollReturns? && e.loop == l then CallsFor(e.ready) else []
  }

  function MadeCall(e: Step, l: nat): seq<Due> {
    if e.Callback? && e.loop == l then [Due(e.conn, e.call)] else []
  }

  /** What was outstanding and is reported now was made now or is outstanding still. */
  ghost predicate Balanced(s: System, r: System, e: Step, l: nat)
    requires l < |s.loops|
  {
    && |r.loops| == |s.loops|
    && Outstanding(s.loops[l]) + ReportedBy(e, l) == MadeCall(e, l) + Outstanding(r.loops[l])
  }

  lemma CallbackBalance(s: System, e: Step, l: nat)
    requires Inv(s) && Enabled(s, e) && e.Callback? && l < |s.loops|
    ensures Balanced(s, Next(s, e), e, l)
  {
    TakeCallKeeps(s, e.loop);
    var p := s.loops[e.loop];
    var s1 := WithLoop(s, e.loop, p.(calls := p.calls[1..]));
    CallDispatch(s1, e.loop, e.conn, e.call, e.eof, e.n);
    TaggedFirst(p.current, p.calls);
    AppendAssoc([Due(p.current, p.calls[0])], Tagged(p.current, p.calls[1..]), CallsFor(p.active));
    AppendAssoc(Outstanding(s.loops[l]), [], []);
  }

  /** Steps of a loop on its own: poll fills the list when it is empty, the next channel unfolds. */
  lemma MoveBalance(s: System, e: Step, l: nat)
    requires Inv(s) && Enabled(s, e) && (e.PollReturns? || e.NextChannel?) && l < |s.loops|
    ensures Balanced(s, Next(s, e), e, l)
  {
    assert WorkOk(s, e.loop);
    var p := s.loops[l];
    AppendAssoc(Outstanding(p), [], []);
    AppendAssoc(Outstanding(Next(s, e).loops[l]), [], []);
    if e.loop == l {
      AppendAssoc(CallsFor(Next(s, e).loops[l].active), [], []);
      assert Tagged(p.current, []) == [];
    }
  }

  lemma DispatchBalance(s: System, r: System, e: Step, l: nat)
    requires SameDispatch(s, r) && l < |s.loops| && !e.PollReturns? && !e.Callback?
    ensures Balanced(s, r, e, l)
  {
    AppendAssoc(Outstanding(s.loops[l]), [], []);
  }

  lemma QuietDispatch(s: System, e: Step)
    requires s.Shaped() && Enabled(s, e)
    requires e.BeginDrain? || e.EndDrain? || e.Send? || e.Shutdown? || e.Release?
    ensures SameDispatch(s, Next(s, e))
  {
    if e.Send? {
      SetOutDispatch(s, e.loop, e.conn, TcpOutput.Send(s.conns[e.conn].out, e.message, e.nwrote));
    } else if e.Shutdown? {
      SetOutDispatch(s, e.loop, e.conn, TcpOutput.Shutdown(s.conns[e.conn].out));
    }
  }

  lemma StepBalance(s: System, e: Step, l: nat)
    requires Inv(s) && Enabled(s, e) && l < |s.loops|
    ensures Balanced(s, Next(s, e), e, l)
  {
    match e
    case Accept(fd, on, notify) =>
      AcceptDispatch(s, fd, on, notify);
      DispatchBalance(s, Next(s, e), e, l);
    case PollReturns(_, _) => MoveBalance(s, e, l);
    case NextChannel(_) => MoveBalance(s, e, l);
    case Callback(_, _, _, _, _) => CallbackBalance(s, e, l);
    case RunFunctor(m, f) =>
      ExecuteDispatch(WithLoop(s, m, Popped(s.loops[m])), m, f);
      DispatchBalance(s, Next(s, e), e, l);
    case _ =>
      QuietDispatch(s, e);
      DispatchBalance(s, Next(s, e), e, l);
  }

  lemma Exchange<T>(a: seq<T>, b: seq<T>, c: seq<T>, d: seq<T>, e: seq<T>, f: seq<T>, g: seq<T>)
    requires a + b == c + d && d + e == f + g
    ensures a + (b + e) == (c + f) + g
  {
    AppendAssoc(a, b, e);
    AppendAssoc(c, d, e);
    AppendAssoc(c, f, g);
  }

  /** What loop `l`, if there is one, has still to make. */
  function OutstandingAt(s: System, l: nat): seq<Due> {
    if l < |s.loops| then Outstanding(s.loops[l]) else []
  }

  lemma AnyBalance(s: System, e: Step, l: nat)
    requires Inv(s) && Enabled(s, e)
    ensures OutstandingAt(s, l) + ReportedBy(e, l) == MadeCall(e, l) + OutstandingAt(Next(s, e), l)
    ensures |Next(s, e).loops| == |s.loops|
  {
    StepBalance(s, e, 0);
    if l < |s.loops| {
      StepBalance(s, e, l);
    }
  }

  lemma {:induction false} RunBalance(s: System, es: seq<Step>, l: nat)
    requires Inv(s) && EnabledRun(s, es) && AllPolite(es)
    ensures |Run(s, es).loops| == |s.loops|
    ensures OutstandingAt(s, l) + Reported(es, l) == Made(es, l) + OutstandingAt(Run(s, es), l)
    decreases |es|
  {
    if es == [] {
      AppendAssoc(OutstandingAt(s, l), [], []);
    } else {
      var s1, rest := Next(s, es[0]), es[1..];
      StepKeeps(s, es[0]);
      AnyBalance(s, es[0], l);
      RunBalance(s1, rest, l);
      Exchange(OutstandingAt(s, l), ReportedBy(es[0], l), MadeCall(es[0], l), OutstandingAt(s1, l),
               Reported(rest, l), Made(rest, l), OutstandingAt(Run(s1, rest), l));
    }
  }

  /**
   On every run, each loop makes exactly the callbacks that the events reported to it call for, in
   the order reported, each once: those made and those outstanding are those reported.
   */
  lemma CallbacksAreThoseReported(n: nat, es: seq<Step>, l: nat)
    requires EnabledRun(Initial(n), es) && AllPolite(es)
    ensures |Run(Initial(n), es).loops| == n + 1
    ensures Made(es, l) + OutstandingAt(Run(Initial(n), es), l) == Reported(es, l)
  {
    InitialOk(n);
    RunBalance(Initial(n), es, l);
    AppendAssoc(Reported(es, l), [], []);
    assert OutstandingAt(Initial(n), l) == [];
  }

  // ----- Functors -----

  /** The functors loop `l` has called. */
  function Called(es: seq<Step>, l: nat): seq<Functor> {
    if es == [] then []
    else (if es[0].RunFunctor? && es[0].loop == l then [es[0].functor] else []) + Called(es[1..], l)
  }

  /** The loop that serves connection `c`. */
  function LoopOf(s: System, c: ConnId): nat {
    if c < |s.conns| then s.conns[c].loop else 0
  }

  /** What a step queues on loop `l`: the hand-over of a new, a closed or an erased connection. */
  function PushedBy(s: System, e: Step, l: nat): seq<Functor> {
    match e
    case Accept(_, on, _) => if on == l && on != 0 then [ConnectEstablished(|s.conns|)] else []
    case Callback(at, c, call, eof, _) =>
      if !ClosesNow(call, eof) then []
      else if at == 0 then (if LoopOf(s, c) == l then [ConnectDestroyed(c)] else [])
      else (if l == 0 then [RemoveConnectionInLoop(c)] else [])
    case RunFunctor(_, f) =>
      if f.RemoveConnectionInLoop? && LoopOf(s, f.conn) == l then [ConnectDestroyed(f.conn)] else []
    case _ => []
  }

  ghost function Pushed(s: System, es: seq<Step>, l: nat): seq<Functor>
    requires s.Shaped() && EnabledRun(s, es)
    decreases |es|
  {
    if es == [] then [] else PushedBy(s, es[0], l) + Pushed(Next(s, es[0]), es[1..], l)
  }

  /** Queues grow at the end by what `more` says. */
  ghost predicate Grows(s: System, r: System, more: map<nat, Functor>) {
    && |r.loops| == |s.loops|
    && forall l :: 0 <= l < |s.loops| ==>
         r.loops[l].Queue() == s.loops[l].Queue() + if l in more then [more[l]] else []
  }

  lemma NothingPushed(s: System, r: System)
    requires SameQueues(s, r)
    ensures Grows(s, r, map[])
  {
    forall l | 0 <= l < |s.loops|
      ensures r.loops[l].Queue() == s.loops[l].Queue() + []
    {
      AppendAssoc(s.loops[l].Queue(), [], []);
    }
  }

  lemma OnePushed(s: System, r: System, m: nat, f: Functor)
    requires m < |r.loops| && SameQueues(s, r)
    ensures Grows(s, Push(r, m, f), map[m := f])
  {
    PushQueue(r, m, f);
    forall l | 0 <= l < |s.loops|
      ensures l != m ==> Push(r, m, f).loops[l].Queue() == s.loops[l].Queue() + []
    {
      AppendAssoc(s.loops[l].Queue(), [], []);
    }
  }

  /** What closing pushes, and where. */
  function ClosePushed(s: System, at: nat, c: ConnId): map<nat, Functor>
    requires c < |s.conns|
  {
    if at == 0 then map[s.conns[c].loop := ConnectDestroyed(c)] else map[0 := RemoveConnectionInLoop(c)]
  }

  lemma ClosePushes(s: System, at: nat, c: ConnId)
    requires s.Shaped() && c < |s.conns| && !HandleClose(s, at, c).fault
    ensures Grows(s, HandleClose(s, at, c), ClosePushed(s, at, c))
  {
    var s1 := CloseChannel(s, at, c);
    assert SameQueues(s, s1) && s1.conns[c].loop == s.conns[c].loop;
    if at == 0 {
      assert SameQueues(s, Erase(s1, c));
      OnePushed(s, Erase(s1, c), s.conns[c].loop, ConnectDestroyed(c));
    } else {
      OnePushed(s, s1, 0, RemoveConnectionInLoop(c));
    }
  }

  function CalledBy(e: Step, l: nat): seq<Functor> {
    if e.RunFunctor? && e.loop == l then [e.functor] else []
  }

  /** What was queued and is pushed now was called now or is queued still. */
  ghost predicate QueueBalanced(s: System, r: System, e: Step, l: nat)
    requires l < |s.loops|
  {
    && |r.loops| == |s.loops|
    && s.loops[l].Queue() + PushedBy(s, e, l) == CalledBy(e, l) + r.loops[l].Queue()
  }

  /** A step that calls no functor and pushes `more`. */
  lemma PushBalance(s: System, r: System, e: Step, more: map<nat, Functor>, l: nat)
    requires l < |s.loops| && Grows(s, r, more) && !e.RunFunctor?
    requires PushedBy(s, e, l) == if l in more then [more[l]] else []
    ensures QueueBalanced(s, r, e, l)
  {
    AppendAssoc(r.loops[l].Queue(), [], []);
  }

  /** The state in which a callback of loop `l` runs, and that in which a functor does. */
  function AtCallback(s: System, l: nat): System
    requires l < |s.loops| && s.loops[l].calls != []
  {
    WithLoop(s, l, s.loops[l].(calls := s.loops[l].calls[1..]))
  }

  function AtFunctor(s: System, l: nat): System
    requires l < |s.loops| && s.loops[l].batch != []
  {
    WithLoop(s, l, Popped(s.loops[l]))
  }

  lemma ClosingStep(s: System, e: Step)
    requires Inv(s) && Enabled(s, e) && e.Callback? && ClosesNow(e.call, e.eof)
    ensures var s1 := AtCallback(s, e.loop);
            && s1.Shaped() && e.conn < |s1.conns| && s1.conns == s.conns && SameQueues(s, s1)
            && Next(s, e) == HandleClose(s1, e.loop, e.conn) && !Next(s, e).fault
  {
    CallbackKeeps(s, e.loop, e.conn, e.call, e.eof, e.n);
    TakeCallKeeps(s, e.loop);
  }

  lemma FunctorStep(s: System, e: Step)
    requires Inv(s) && Enabled(s, e) && e.RunFunctor?
    ensures var s1, f := AtFunctor(s, e.loop), e.functor;
            && s1.Shaped() && f.conn < |s1.conns| && s1.conns == s.conns && !s1.conns[f.conn].released
            && Next(s, e) == Execute(s1, e.loop, f) && !Next(s, e).fault
            && |s1.loops| == |s.loops| && s.loops[e.loop].Queue() == [f] + s1.loops[e.loop].Queue()
            && (forall l :: 0 <= l < |s.loops| && l != e.loop ==> s1.loops[l] == s.loops[l])
  {
    FunctorFinds(s, e.loop, e.functor);
    HeadOfQueue(s.loops[e.loop]);
  }

  lemma HeadOfQueue(p: Loop)
    requires p.batch != []
    ensures p.Queue() == [p.batch[0]] + Popped(p).Queue()
  {
  }

  lemma CloseQueues(s: System, e: Step, l: nat)
    requires Inv(s) && Enabled(s, e) && e.Callback? && ClosesNow(e.call, e.eof) && l < |s.loops|
    ensures QueueBalanced(s, Next(s, e), e, l)
  {
    ClosingStep(s, e);
    CloseBalance(s, AtCallback(s, e.loop), Next(s, e), e, l);
  }

  lemma CloseBalance(s: System, s1: System, r: System, e: Step, l: nat)
    requires e.Callback? && ClosesNow(e.call, e.eof) && l < |s.loops|
    requires s1.Shaped() && e.conn < |s1.conns| && s1.conns == s.conns && SameQueues(s, s1)
    requires r == HandleClose(s1, e.loop, e.conn) && !r.fault
    ensures QueueBalanced(s, r, e, l)
  {
    ClosePushes(s1, e.loop, e.conn);
    var more := ClosePushed(s1, e.loop, e.conn);
    GrowsFrom(s, s1, r, more);
    PushBalance(s, r, e, more, l);
  }

  lemma GrowsFrom(s: System, s1: System, r: System, more: map<nat, Functor>)
    requires SameQueues(s, s1) && Grows(s1, r, more)
    ensures Grows(s, r, more)
  {
  }

  lemma SetOutQueues(s: System, at: nat, c: ConnId, out: TcpOutput.Output)
    requires s.Shaped() && c < |s.conns|
    ensures SameQueues(s, SetOut(s, at, c, out))
  {
  }

  lemma CallbackQueues(s: System, e: Step, l: nat)
    requires Inv(s) && Enabled(s, e) && e.Callback? && !ClosesNow(e.call, e.eof) && l < |s.loops|
    ensures QueueBalanced(s, Next(s, e), e, l)
  {
    TakeCallKeeps(s, e.loop);
    var p := s.loops[e.loop];
    var s1 := WithLoop(s, e.loop, p.(calls := p.calls[1..]));
    assert SameQueues(s, s1);
    if e.call == WriteCallback {
      SetOutQueues(s1, e.loop, e.conn, TcpOutput.HandleWrite(s1.conns[e.conn].out, e.n));
    }
    NothingPushed(s, Next(s, e));
    PushBalance(s, Next(s, e), e, map[], l);
  }

  lemma AcceptQueues(s: System, e: Step, l: nat)
    requires Inv(s) && Enabled(s, e) && e.Accept? && l < |s.loops|
    ensures QueueBalanced(s, Next(s, e), e, l)
  {
    var s1 := Created(s, e.fd, e.on, e.notify);
    assert SameQueues(s, s1);
    if e.on != 0 {
      OnePushed(s, s1, e.on, ConnectEstablished(|s.conns|));
      PushBalance(s, Next(s, e), e, map[e.on := ConnectEstablished(|s.conns|)], l);
    } else {
      NothingPushed(s, Next(s, e));
      PushBalance(s, Next(s, e), e, map[], l);
    }
  }

  /** What a functor pushes while it runs. */
  lemma ExecutePushes(s: System, at: nat, f: Functor)
    requires s.Shaped() && f.conn < |s.conns| && !s.conns[f.conn].released && !Execute(s, at, f).fault
    ensures Grows(s, Execute(s, at, f),
                  if f.RemoveConnectionInLoop? then map[s.conns[f.conn].loop := ConnectDestroyed(f.conn)] else map[])
  {
    var r, c := Execute(s, at, f), f.conn;
    match f
    case ConnectEstablished(_) =>
      assert SameQueues(s, r);
      NothingPushed(s, r);
    case RemoveConnectionInLoop(_) =>
      assert SameQueues(s, Erase(s, c));
      OnePushed(s, Erase(s, c), s.conns[c].loop, ConnectDestroyed(c));
    case ConnectDestroyed(_) =>
      assert SameQueues(s, DisableChannel(s, at, c));
      assert SameQueues(s, r);
      NothingPushed(s, r);
  }

  /** The functor called leaves the head of its queue; erasing hands the connection on. */
  lemma FunctorQueues(s: System, e: Step, l: nat)
    requires Inv(s) && Enabled(s, e) && e.RunFunctor? && l < |s.loops|
    ensures QueueBalanced(s, Next(s, e), e, l)
  {
    FunctorStep(s, e);
    FunctorBalance(s, AtFunctor(s, e.loop), Next(s, e), e, l);
  }

  lemma FunctorBalance(s: System, s1: System, r: System, e: Step, l: nat)
    requires e.RunFunctor? && l < |s.loops| == |s1.loops| && e.loop < |s.loops|
    requires s1.Shaped() && e.functor.conn < |s1.conns| && s1.conns == s.conns && !s1.conns[e.functor.conn].released
    requires r == Execute(s1, e.loop, e.functor) && !r.fault
    requires s.loops[e.loop].Queue() == [e.functor] + s1.loops[e.loop].Queue()
    requires l != e.loop ==> s1.loops[l] == s.loops[l]
    ensures QueueBalanced(s, r, e, l)
  {
    ExecutePushes(s1, e.loop, e.functor);
    HeadGoes(s.loops[l].Queue(), CalledBy(e, l), s1.loops[l].Queue(), PushedBy(s, e, l), r.loops[l].Queue());
  }

  lemma HeadGoes(q: seq<Functor>, head: seq<Functor>, q1: seq<Functor>, more: seq<Functor>, r: seq<Functor>)
    requires (q == head + q1 || (head == [] && q == q1)) && r == q1 + more
    ensures q + more == head + r
  {
    AppendAssoc(head, q1, more);
    AppendAssoc(r, [], []);
  }

  lemma QuietQueues(s: System, e: Step, l: nat)
    requires Inv(s) && Enabled(s, e) && l < |s.loops|
    requires !e.Accept? && !e.Callback? && !e.RunFunctor?
    ensures QueueBalanced(s, Next(s, e), e, l)
  {
    if e.BeginDrain? {
      assert WorkOk(s, e.loop);
      AppendAssoc(s.loops[e.loop].pending, [], []);
    } else if e.Send? {
      SetOutQueues(s, e.loop, e.conn, TcpOutput.Send(s.conns[e.conn].out, e.message, e.nwrote));
    } else if e.Shutdown? {
      SetOutQueues(s, e.loop, e.conn, TcpOutput.Shutdown(s.conns[e.conn].out));
    }
    assert SameQueues(s, Next(s, e));
    NothingPushed(s, Next(s, e));
    PushBalance(s, Next(s, e), e, map[], l);
  }

  lemma StepQueues(s: System, e: Step, l: nat)
    requires Inv(s) && Enabled(s, e) && l < |s.loops|
    ensures QueueBalanced(s, Next(s, e), e, l)
  {
    if e.Accept? {
      AcceptQueues(s, e, l);
    } else if e.RunFunctor? {
      FunctorQueues(s, e, l);
    } else if !e.Callback? {
      QuietQueues(s, e, l);
    } else if ClosesNow(e.call, e.eof) {
      CloseQueues(s, e, l);
    } else {
      CallbackQueues(s, e, l);
    }
  }

  /** The queue of loop `l`, if there is one. */
  function QueueAt(s: System, l: nat): seq<Functor> {
    if l < |s.loops| then s.loops[l].Queue() else []
  }

  lemma AnyQueues(s: System, e: Step, l: nat)
    requires Inv(s) && Enabled(s, e)
    ensures QueueAt(s, l) + PushedBy(s, e, l) == CalledBy(e, l) + QueueAt(Next(s, e), l)
    ensures |Next(s, e).loops| == |s.loops|
  {
    StepQueues(s, e, 0);
    if l < |s.loops| {
      StepQueues(s, e, l);
    } else {
      assert PushedBy(s, e, l) == [];
    }
  }

  lemma {:induction false} RunQueues(s: System, es: seq<Step>, l: nat)
    requires Inv(s) && EnabledRun(s, es) && AllPolite(es)
    ensures |Run(s, es).loops| == |s.loops|
    ensures QueueAt(s, l) + Pushed(s, es, l) == Called(es, l) + QueueAt(Run(s, es), l)
    decreases |es|
  {
    if es == [] {
      AppendAssoc(QueueAt(s, l), [], []);
    } else {
      var s1, rest := Next(s, es[0]), es[1..];
      StepKeeps(s, es[0]);
      AnyQueues(s, es[0], l);
      RunQueues(s1, rest, l);
      Exchange(QueueAt(s, l), PushedBy(s, es[0], l), CalledBy(es[0], l), QueueAt(s1, l),
               Pushed(s1, rest, l), Called(rest, l), QueueAt(Run(s1, rest), l));
    }
  }

  /**
   On every run, each loop calls exactly the functors handed to it, in that order and each once:
   those called and those queued are those that accepts, closes and erasures push.
   */
  lemma FunctorsAreThosePushed(n: nat, es: seq<Step>, l: nat)
    requires EnabledRun(Initial(n), es) && AllPolite(es)
    ensures |Run(Initial(n), es).loops| == n + 1
    ensures Called(es, l) + QueueAt(Run(Initial(n), es), l) == Pushed(Initial(n), es, l)
  {
    InitialOk(n);
    RunQueues(Initial(n), es, l);
    AppendAssoc(Pushed(Initial(n), es, l), [], []);
    assert QueueAt(Initial(n), l) == [];
  }

  // ----- Interest and assertions -----

  /** On every run the poller watches an open connection for input, and for output exactly while some is buffered. */
  lemma InterestExactly(n: nat, es: seq<Step>, c: ConnId)
    requires EnabledRun(Initial(n), es) && AllPolite(es)
    requires c < |Run(Initial(n), es).conns| && Run(Initial(n), es).conns[c].history == [Established]
    ensures var s := Run(Initial(n), es);
            var k := s.conns[c];
            && k.loop < |s.loops| && k.fd in s.loops[k.loop].table
            && s.loops[k.loop].table[k.fd] == Slot(c, {IN, PRI} + (if k.out.buffer != [] then {OUT} else {}), false)
  {
    InitialOk(n);
    RunKeeps(Initial(n), es);
    var s := Run(Initial(n), es);
    assert StageOk(s.conns[c]) && OutOk(s.conns[c]) && InTable(s, c);
  }

  /** When the operations fail an assertion: on the wrong thread, in the wrong state, or refused by map or poller. */
  lemma OperationsFaultExactly(s: System, at: nat, c: ConnId)
    requires s.Shaped() && c < |s.conns| && !s.fault
    ensures var k := s.conns[c];
            var t := s.loops[k.loop].table;
            && (Establish(s, at, c).fault <==>
                  at != k.loop || k.out.state != TcpOutput.Connecting || !UpdateAsserts(t, c, k.fd, k.indexed))
            && (RemoveInLoop(s, at, c).fault <==> at != 0 || c !in s.connections)
            && (HandleClose(s, at, c).fault <==>
                  at != k.loop || !k.Up() || !UpdateAsserts(t, c, k.fd, k.indexed) || (at == 0 && c !in s.connections))
            && (at != k.loop || !k.Up() || !UpdateAsserts(t, c, k.fd, k.indexed) ==> Destroy(s, at, c).fault)
  {
  }
}
