/**
 From `send` on one side to parsed messages on the other: the output side of a connection
 (src/TcpConnection.cpp) joined to the incremental parser (src/codec.cpp).  In between, the
 network hands over a prefix of the bytes written, in pieces of any size.
 */
module Delivery {
  import opened Bytes
  import opened Codec
  import Buffers
  import TcpOutput

  /** The messages a run has taken on: those given to `send` while connected. */
  ghost function Taken(o: TcpOutput.Output, es: seq<TcpOutput.Event>): seq<seq<byte>>
    requires TcpOutput.PossibleRun(o, es)
    decreases |es|
  {
    if es == [] then []
    else
      var next := TcpOutput.Step(o, es[0]);
      (if es[0].DoSend? && o.state == TcpOutput.Connected && !next.aborted then [es[0].message] else []) +
      Taken(next, es[1..])
  }

  lemma StepTakes(o: TcpOutput.Output, e: TcpOutput.Event)
    requires TcpOutput.Possible(o, e)
    ensures var next := TcpOutput.Step(o, e);
            next.accepted ==
            o.accepted + (if e.DoSend? && o.state == TcpOutput.Connected && !next.aborted then e.message else [])
  {
    AppendAssoc(o.accepted, [], []);
  }

  lemma ConcatFirst(m: seq<byte>, ms: seq<seq<byte>>)
    ensures Concat([m] + ms) == m + Concat(ms)
  {
    assert ([m] + ms)[1..] == ms;
  }

  lemma {:induction false} AcceptedIsTaken(o: TcpOutput.Output, es: seq<TcpOutput.Event>)
    requires TcpOutput.PossibleRun(o, es)
    ensures TcpOutput.Run(o, es).accepted == o.accepted + Concat(Taken(o, es))
    decreases |es|
  {
    if es == [] {
      AppendAssoc(o.accepted, [], []);
    } else {
      var next := TcpOutput.Step(o, es[0]);
      var later := Taken(next, es[1..]);
      StepTakes(o, es[0]);
      AcceptedIsTaken(next, es[1..]);
      if es[0].DoSend? && o.state == TcpOutput.Connected && !next.aborted {
        ConcatFirst(es[0].message, later);
        AppendAssoc(o.accepted, es[0].message, Concat(later));
      } else {
        assert [] + later == later;
        AppendAssoc(o.accepted, [], []);
      }
    }
  }

  /** Each message encoded by itself, as it is given to `send`. */
  function Frames(ms: seq<Message>): seq<seq<byte>> {
    if ms == [] then [] else [Encode(ms[0])] + Frames(ms[1..])
  }

  lemma {:induction false} FramesJoined(ms: seq<Message>)
    ensures Concat(Frames(ms)) == EncodeAll(Encode, ms)
    decreases |ms|
  {
    if ms != [] {
      ConcatFirst(Encode(ms[0]), Frames(ms[1..]));
      FramesJoined(ms[1..]);
    }
  }

  /** Draining the beginning of a stream gives the beginning of its messages, and no error before its time. */
  lemma DrainPrefix(p: Parser, s: seq<byte>, t: seq<byte>)
    requires Incremental(p)
    ensures Drain(p, s).messages <= Drain(p, s + t).messages
    ensures Drain(p, s).failed ==> Drain(p, s + t).failed
  {
    DrainExtends(p, s, t);
    DrainStops(p, s);
  }

  lemma DrainAll(ms: seq<Message>)
    requires forall m :: m in ms ==> Encodable(m)
    ensures Incremental(Parse) && Drain(Parse, EncodeAll(Encode, ms)) == Drained(ms, [], false)
  {
    var whole := EncodeAll(Encode, ms);
    assert Concat([whole]) == whole + Concat([]) == whole by {
      ConcatFirst(whole, []);
      AppendAssoc(whole, [], []);
    }
    TransmittedMessagesArrive(ms, [whole]);
    StreamIndependentOfChunks([whole]);
  }

  /** What was written but has not come, and what was not written. */
  lemma Missing(received: seq<byte>, wire: seq<byte>, buffer: seq<byte>) returns (missing: seq<byte>)
    requires received <= wire
    ensures received + missing == wire + buffer
  {
    missing := wire[|received|..] + buffer;
  }

  lemma ReceiveBeginning(p: Parser, wire: seq<byte>, buffer: seq<byte>, ms: seq<Message>, pieces: seq<seq<byte>>)
    requires Incremental(p) && !p([]).Success?
    requires Drain(p, wire + buffer) == Drained(ms, [], false) && Concat(pieces) <= wire
    ensures var got := DrainChunks(p, [], pieces);
            && got.messages <= ms && !got.failed
            && (buffer == [] && Concat(pieces) == wire ==> got == Drained(ms, [], false))
  {
    var received := Concat(pieces);
    var missing := Missing(received, wire, buffer);
    ChunkingIsInvisible(p, [], pieces);
    assert [] + received == received;
    DrainPrefix(p, received, missing);
    AppendAssoc(wire, [], []);
  }

  /**
   Encoded messages are sent on a connection, with any partial writes, notices and shutdowns;
   the peer has received some beginning of what was written, in any pieces, parsing after each.
   It then holds a beginning of the messages sent, with no parse error; and all of them, with
   nothing left over, once the sender's buffer is empty and everything written has come.
   */
  lemma SentMessagesArrive(notify: bool, es: seq<TcpOutput.Event>, ms: seq<Message>, pieces: seq<seq<byte>>)
    requires TcpOutput.PossibleRun(TcpOutput.Initial(notify), es)
    requires Taken(TcpOutput.Initial(notify), es) == Frames(ms) && forall m :: m in ms ==> Encodable(m)
    requires Concat(pieces) <= TcpOutput.Run(TcpOutput.Initial(notify), es).wire
    ensures Incremental(Parse)
    ensures var o := TcpOutput.Run(TcpOutput.Initial(notify), es);
            var got := DrainChunks(Parse, [], pieces);
            && got.messages <= ms && !got.failed
            && (o.buffer == [] && Concat(pieces) == o.wire ==> got == Drained(ms, [], false))
  {
    var o := TcpOutput.Run(TcpOutput.Initial(notify), es);
    SentIsEncoded(notify, es, ms);
    DrainAll(ms);
    ReceiveBeginning(Parse, o.wire, o.buffer, ms, pieces);
  }

  lemma SentIsEncoded(notify: bool, es: seq<TcpOutput.Event>, ms: seq<Message>)
    requires TcpOutput.PossibleRun(TcpOutput.Initial(notify), es)
    requires Taken(TcpOutput.Initial(notify), es) == Frames(ms)
    ensures var o := TcpOutput.Run(TcpOutput.Initial(notify), es); o.wire + o.buffer == EncodeAll(Encode, ms)
  {
    TcpOutput.OutputIsConserved(notify, es);
    AcceptedIsTaken(TcpOutput.Initial(notify), es);
    FramesJoined(ms);
  }

  // ----- The receiving buffer -----

  /** `d` after `ms`. */
  function After(ms: seq<Message>, d: Drained): Drained {
    d.(messages := ms + d.messages)
  }

  lemma AfterAll(ms: seq<Message>, more: seq<Message>, d: Drained)
    ensures After(ms, After(more, d)) == After(ms + more, d)
  {
    AppendAssoc(ms, more, d.messages);
  }

  lemma DrainStep(p: Parser, s: seq<byte>)
    requires Incremental(p)
    ensures p(s).Success? ==>
              p(s).consumed <= |s| && Drain(p, s) == After([p(s).message], Drain(p, s[p(s).consumed..]))
    ensures !p(s).Success? ==> Drain(p, s) == Drained([], s, p(s).Error?)
  {
  }

  /** The message the out-parameters of a successful `parseMessage` stand for. */
  function MessageOf(cmd: seq<byte>, topic: seq<byte>, content: seq<byte>): Message {
    if cmd == PUB then Publish(topic, content) else Command(cmd, topic)
  }

  /** One call of `parseMessage`, with its out-parameters put together. */
  method ParseOne(buf: Buffers.Buffer) returns (result: ParseResult, message: Message)
    requires buf.Valid()
    modifies buf`reader
    ensures buf.Valid()
    ensures var s := old(buf.Contents());
            var o := Parse(s);
            && result == Verdict(o)
            && (o.Success? ==> 0 < o.consumed <= |s| && message == o.message && buf.Contents() == s[o.consumed..])
            && (!o.Success? ==> buf.Contents() == s)
  {
    ghost var s := buf.Contents();
    if Parse(s).Success? {
      ParsedIsEncoded(s);
    }
    var cmd, topic, content;
    result, cmd, topic, content := ParseMessage(buf, [], [], []);
    message := MessageOf(cmd, topic, content);
  }

  /** Parsing until it stops succeeding. */
  method DrainBuffer(buf: Buffers.Buffer) returns (ms: seq<Message>, failed: bool)
    requires buf.Valid()
    modifies buf`reader
    ensures buf.Valid() && Incremental(Parse)
    ensures Drain(Parse, old(buf.Contents())) == Drained(ms, buf.Contents(), failed)
  {
    ParseIsIncremental();
    ghost var whole := Drain(Parse, buf.Contents());
    ms := [];
    while true
      invariant buf.Valid() && whole == After(ms, Drain(Parse, buf.Contents()))
      decreases |buf.Contents()|
    {
      ghost var s := buf.Contents();
      DrainStep(Parse, s);
      var result, message := ParseOne(buf);
      if result != ParseSuccess {
        AppendAssoc(ms, [], []);
        return ms, result == ParseError;
      }
      AfterAll(ms, [message], Drain(Parse, buf.Contents()));
      ms := ms + [message];
    }
  }

  /** A readable connection: `readFd`, then parsing. */
  method ReceivePiece(buf: Buffers.Buffer, piece: seq<byte>) returns (ms: seq<Message>, failed: bool)
    requires buf.Valid() && Buffers.Allowed(buf.View(), Buffers.ReadFd(piece))
    modifies buf, buf.data
    ensures buf.Valid() && (buf.data == old(buf.data) || fresh(buf.data)) && Incremental(Parse)
    ensures Drain(Parse, old(buf.Contents()) + piece) == Drained(ms, buf.Contents(), failed)
  {
    var _, _ := buf.ReadFromFd(Buffers.Received(piece), 0);
    ms, failed := DrainBuffer(buf);
  }

  lemma ChunksStep(p: Parser, held: seq<byte>, pieces: seq<seq<byte>>, i: nat)
    requires Incremental(p) && i < |pieces|
    ensures var d := Drain(p, held + pieces[i]);
            DrainChunks(p, held, pieces[i..]) == After(d.messages, DrainChunks(p, d.rest, pieces[i + 1..]))
  {
    assert pieces[i..][0] == pieces[i] && pieces[i..][1..] == pieces[i + 1..];
  }

  /** Pieces of at most 65536 bytes, which `readFd` always has room for: the buffer gives what the stream holds. */
  method ReceiveAll(buf: Buffers.Buffer, pieces: seq<seq<byte>>) returns (ms: seq<Message>, failed: bool)
    requires buf.Valid() && buf.Contents() == []
    requires forall i :: 0 <= i < |pieces| ==> |pieces[i]| <= Buffers.EXTRA_BUF
    modifies buf, buf.data
    ensures buf.Valid() && Incremental(Parse)
    ensures DrainChunks(Parse, [], pieces) == Drained(ms, buf.Contents(), failed)
  {
    ParseIsIncremental();
    ghost var whole := DrainChunks(Parse, [], pieces);
    ms, failed := [], false;
    assert pieces[0..] == pieces;
    var i := 0;
    while i < |pieces|
      invariant i <= |pieces| && buf.Valid() && (buf.data == old(buf.data) || fresh(buf.data))
      invariant failed == Parse(buf.Contents()).Error?
      invariant whole == After(ms, DrainChunks(Parse, buf.Contents(), pieces[i..]))
    {
      ghost var held := buf.Contents();
      ChunksStep(Parse, held, pieces, i);
      DrainStops(Parse, held + pieces[i]);
      var more;
      more, failed := ReceivePiece(buf, pieces[i]);
      AfterAll(ms, more, DrainChunks(Parse, buf.Contents(), pieces[i + 1..]));
      ms := ms + more;
      i := i + 1;
    }
    AppendAssoc(ms, [], []);
  }
}
