/**
 The server as an object (src/TcpServer.cpp, src/TcpConnection.cpp, src/EventLoop.cpp): each method
 moves it by the operation or the step of `Lifecycle` that it performs.
 */
module Servers {
  import opened Bytes
  import opened Polling
  import opened Lifecycle
  import TcpOutput

  /** The server with its loops and connections; `at` is the loop whose thread makes the call. */
  class TcpServer {
    var loops: seq<Loop>
    var conns: seq<Conn>
    var connections: set<ConnId>
    var fault: bool

    ghost predicate Valid()
      reads this
    {
      View().Shaped()
    }

    ghost function View(): System
      reads this
    {
      System(loops, conns, connections, fault)
    }

    /** A base loop and `n` further ones. */
    constructor (n: nat)
      ensures Valid() && View() == Initial(n)
    {
      loops, conns, connections, fault := seq(n + 1, _ => IDLE), [], {}, false;
    }

    /** `queueInLoop`, from any thread. */
    method QueueInLoop(l: nat, f: Functor)
      requires Valid() && l < |loops|
      modifies this`loops
      ensures Valid() && View() == Push(old(View()), l, f)
    {
      loops := loops[l := loops[l].(pending := loops[l].pending + [f])];
    }

    /** `Channel::update` down to the poller; `k` holds the new interest. */
    method UpdateChannelOf(at: nat, c: ConnId, k: Conn)
      requires Valid() && c < |conns| && k.loop < |loops|
      modifies this`loops, this`conns, this`fault
      ensures Valid() && View() == UpdateChannel(old(View()), at, c, k)
    {
      var t := loops[k.loop].table;
      if at == k.loop && if k.indexed then k.fd in t && t[k.fd].owner == c else k.fd !in t {
        var ignored := k.fd in t && (t[k.fd].ignored || k.Events() == NONE_EVENT);
        loops := loops[k.loop := loops[k.loop].(table := t[k.fd := Slot(c, k.Events(), ignored)])];
        conns := conns[c := k.(indexed := true)];
      } else {
        fault := true;
      }
    }

    /** `newConnection`; `l` is the loop the pool chose. */
    method OnNewConnection(at: nat, fd: int, l: nat, notify: bool)
      requires Valid() && l < |loops|
      modifies this
      ensures Valid() && View() == NewConnection(old(View()), at, fd, l, notify)
    {
      if at != 0 {
        fault := true;
        return;
      }
      var c := |conns|;
      conns := conns + [NewConn(l, fd, notify)];
      connections := connections + {c};
      if l == at {
        OnEstablished(at, c);
      } else {
        QueueInLoop(l, ConnectEstablished(c));
      }
    }

    /** `connectEstablished`. */
    method OnEstablished(at: nat, c: ConnId)
      requires Valid() && c < |conns|
      modifies this`loops, this`conns, this`fault
      ensures Valid() && View() == Establish(old(View()), at, c)
    {
      var k := conns[c];
      if at == k.loop && k.out.state == TcpOutput.Connecting {
        var out := k.out.(state := TcpOutput.Connected);
        UpdateChannelOf(at, c, k.(reading := true, out := out, history := k.history + [Established]));
      } else {
        fault := true;
      }
    }

    /** `removeConnectionInLoop`. */
    method OnRemoveInLoop(at: nat, c: ConnId)
      requires Valid() && c < |conns|
      modifies this
      ensures Valid() && View() == RemoveInLoop(old(View()), at, c)
    {
      if at == 0 && c in connections {
        connections := connections - {c};
        conns := conns[c := conns[c].(history := conns[c].history + [Erased])];
        QueueInLoop(conns[c].loop, ConnectDestroyed(c));
      } else {
        fault := true;
      }
    }

    /** The assertions and `disableAll` of `handleClose` and `connectDestroyed`. */
    method DisableAll(at: nat, c: ConnId, k: Conn)
      requires Valid() && c < |conns| && k.loop == conns[c].loop
      modifies this`loops, this`conns, this`fault
      ensures Valid()
      ensures View() ==
              if at == k.loop && old(conns[c].Up()) then UpdateChannel(old(View()), at, c, k) else Fault(old(View()))
    {
      if at == k.loop && conns[c].Up() {
        UpdateChannelOf(at, c, k);
      } else {
        fault := true;
      }
    }

    /** `handleClose` and `removeConnection`. */
    method OnHandleClose(at: nat, c: ConnId)
      requires Valid() && c < |conns|
      modifies this
      ensures Valid() && View() == HandleClose(old(View()), at, c)
    {
      var k := conns[c];
      DisableAll(at, c, k.(reading := false, out := TcpOutput.Close(k.out), history := k.history + [Closed]));
      if !fault {
        if at == 0 {
          OnRemoveInLoop(at, c);
        } else {
          QueueInLoop(0, RemoveConnectionInLoop(c));
        }
      }
    }

    /** `connectDestroyed`. */
    method OnDestroyed(at: nat, c: ConnId)
      requires Valid() && c < |conns|
      modifies this
      ensures Valid() && View() == Destroy(old(View()), at, c)
    {
      var k := conns[c];
      DisableAll(at, c, k.(reading := false, out := TcpOutput.Retire(k.out), history := k.history + [Destroyed]));
      if !fault {
        RemoveChannelOf(at, c);
      }
    }

    /** `EventLoop::removeChannel` with the poller's assertions. */
    method RemoveChannelOf(at: nat, c: ConnId)
      requires Valid() && c < |conns|
      modifies this`loops, this`fault
      ensures Valid() && View() == RemoveChannel(old(View()), at, c)
    {
      var k := conns[c];
      var t := loops[k.loop].table;
      if at == k.loop && k.fd in t && t[k.fd] == Slot(c, k.Events(), true) && k.Events() == NONE_EVENT {
        loops := loops[k.loop := loops[k.loop].(table := t - {k.fd})];
      } else {
        fault := true;
      }
    }

    /** The output side has become `out`; the channel follows if its writing interest changed. */
    method FollowOutput(at: nat, c: ConnId, out: TcpOutput.Output)
      requires Valid() && c < |conns|
      modifies this`loops, this`conns, this`fault
      ensures Valid() && View() == SetOut(old(View()), at, c, out)
    {
      var k := conns[c];
      if at != k.loop {
        fault := true;
      } else if out.writing == k.out.writing {
        conns := conns[c := k.(out := out)];
      } else {
        UpdateChannelOf(at, c, k.(out := out));
      }
    }

    /** One callback of `handleEvent`: `handleRead`, `handleWrite`, `handleClose` or `handleError`. */
    method OnCallback(at: nat, c: ConnId, call: Callback, eof: bool, n: int)
      requires Valid() && c < |conns| && (call == WriteCallback ==> n <= |conns[c].out.buffer|)
      modifies this
      ensures Valid() && View() == Call(old(View()), at, c, call, eof, n)
    {
      if conns[c].released {
        fault := true;
      } else if call == CloseCallback || (call == ReadCallback && eof) {
        OnHandleClose(at, c);
      } else if call == WriteCallback {
        FollowOutput(at, c, TcpOutput.HandleWrite(conns[c].out, n));
      }
    }

    /** A bound functor runs. */
    method OnFunctor(at: nat, f: Functor)
      requires Valid()
      modifies this
      ensures Valid() && View() == Execute(old(View()), at, f)
    {
      if f.conn >= |conns| || conns[f.conn].released {
        fault := true;
      } else {
        match f
        case ConnectEstablished(c) => OnEstablished(at, c);
        case RemoveConnectionInLoop(c) => OnRemoveInLoop(at, c);
        case ConnectDestroyed(c) => OnDestroyed(at, c);
      }
    }

    method SetLoop(l: nat, p: Loop)
      requires Valid() && l < |loops|
      modifies this`loops
      ensures Valid() && View() == WithLoop(old(View()), l, p)
    {
      loops := loops[l := p];
    }

    /** Loop `l` makes the next callback of the channel it is handling. */
    method MakeCallback(l: nat, eof: bool, n: int)
      requires Valid() && l < |loops| && loops[l].calls != []
      requires Enabled(View(), Callback(l, loops[l].current, loops[l].calls[0], eof, n))
      modifies this
      ensures Valid()
      ensures View() == Next(old(View()), Callback(l, old(loops[l].current), old(loops[l].calls[0]), eof, n))
    {
      var p := loops[l];
      SetLoop(l, p.(calls := p.calls[1..]));
      if p.current < |conns| {
        OnCallback(l, p.current, p.calls[0], eof, n);
      } else {
        fault := true;
      }
    }

    /** Loop `l` runs the next functor of its batch. */
    method RunNextFunctor(l: nat)
      requires Valid() && l < |loops| && loops[l].batch != [] && Enabled(View(), RunFunctor(l, loops[l].batch[0]))
      modifies this
      ensures Valid() && View() == Next(old(View()), RunFunctor(l, old(loops[l].batch[0])))
    {
      var p := loops[l];
      SetLoop(l, p.(batch := p.batch[1..], spent := p.spent + [p.batch[0]]));
      OnFunctor(l, p.batch[0]);
    }

    /** One of the steps in which a loop moves on by itself. */
    method MoveOn(e: Step)
      requires Valid() && Enabled(View(), e)
      requires e.PollReturns? || e.NextChannel? || e.BeginDrain? || e.EndDrain?
      modifies this`loops
      ensures Valid() && View() == Next(old(View()), e)
    {
      var p := loops[e.loop];
      match e
      case PollReturns(l, ready) => SetLoop(l, p.(phase := Handling, active := ready));
      case NextChannel(l) =>
        var r := p.active[0];
        SetLoop(l, p.(active := p.active[1..], current := r.conn, calls := Callbacks(r.revents)));
      case BeginDrain(l) => SetLoop(l, p.(phase := Draining, batch := p.pending, pending := []));
      case EndDrain(l) => SetLoop(l, p.(phase := Blocked, spent := []));
    }

    /** One step of whichever kind: the object moves exactly as the state machine does. */
    method Perform(e: Step)
      requires Valid() && Enabled(View(), e)
      modifies this
      ensures Valid() && View() == Next(old(View()), e)
    {
      match e
      case Accept(fd, l, notify) => OnNewConnection(0, fd, l, notify);
      case Callback(l, _, _, eof, n) => MakeCallback(l, eof, n);
      case RunFunctor(l, _) => RunNextFunctor(l);
      case Send(l, c, message, nwrote) => FollowOutput(l, c, TcpOutput.Send(conns[c].out, message, nwrote));
      case Shutdown(l, c) => FollowOutput(l, c, TcpOutput.Shutdown(conns[c].out));
      case Release(c) => conns := conns[c := conns[c].(released := true)];
      case _ => MoveOn(e);
    }

    /** Any run, step by step; from a state that satisfies the invariant it never fails an assertion. */
    method PerformAll(es: seq<Step>)
      requires Valid() && EnabledRun(View(), es)
      modifies this
      ensures Valid() && View() == Run(old(View()), es)
      ensures old(Inv(View())) && AllPolite(es) ==> Inv(View()) && !fault
    {
      ghost var safe := Inv(View()) && AllPolite(es);
      ghost var final := Run(View(), es);
      var i := 0;
      assert es[0..] == es;
      while i < |es|
        invariant i <= |es| && Valid() && EnabledRun(View(), es[i..]) && Run(View(), es[i..]) == final
        invariant safe ==> Inv(View())
      {
        assert es[i..][0] == es[i] && es[i..][1..] == es[i + 1..];
        if safe {
          StepKeeps(View(), es[i]);
        }
        Perform(es[i]);
        i := i + 1;
      }
    }
  }
}
