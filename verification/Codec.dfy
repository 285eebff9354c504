/**
 The pub/sub line codec (src/codec.cpp): an incremental parser over the readable bytes of a
 connection buffer, and the message encoding it inverts.
 */
module Codec {
  import opened Bytes
  import opened Buffers

  const PUB: seq<byte> := [112, 117, 98]

  /** A parsed message.  `content` is carried only by the "pub" command. */
  datatype Message =
    | Command(cmd: seq<byte>, topic: seq<byte>)
    | Publish(topic: seq<byte>, content: seq<byte>)

  datatype Outcome = Error | Continue | Success(message: Message, consumed: nat)

  // ----- Searching -----

  /** `std::find` for a space from index `i`. */
  function FindFrom(s: seq<byte>, i: nat): (at: nat)
    requires i <= |s|
    ensures i <= at <= |s|
    ensures at < |s| ==> s[at] == SPACE
    decreases |s| - i
  {
    if i == |s| || s[i] == SPACE then i else FindFrom(s, i + 1)
  }

  function FindSpace(s: seq<byte>): (at: nat)
    ensures at <= |s|
    ensures at < |s| ==> s[at] == SPACE
  {
    FindFrom(s, 0)
  }

  lemma {:induction false} FindsFirst(s: seq<byte>, i: nat, k: nat)
    requires i <= k < |s| && k < FindFrom(s, i)
    ensures s[k] != SPACE
    decreases |s| - i
  {
    if i < k {
      FindsFirst(s, i + 1, k);
    }
  }

  // ----- Parsing -----

  /** What `parseMessage` decides from the readable bytes. */
  function Parse(s: seq<byte>): Outcome {
    var crlf := SearchCRLF(s);
    if crlf == |s| then Continue
    else
      var line := s[..crlf];
      var space := FindSpace(line);
      if space == |line| then Error
      else
        var cmd, topic := line[..space], line[space + 1..];
        if cmd == PUB then
          var rest := s[crlf + 2..];
          var end := SearchCRLF(rest);
          if end == |rest| then Continue
          else Success(Publish(topic, rest[..end]), crlf + 2 + end + 2)
        else
          Success(Command(cmd, topic), crlf + 2)
  }

  // ----- The encoding the parser inverts -----

  ghost predicate Encodable(m: Message) {
    match m
    case Command(cmd, topic) => cmd != PUB && SPACE !in cmd && NoCRLF(cmd) && NoCRLF(topic)
    case Publish(topic, content) => NoCRLF(topic) && NoCRLF(content)
  }

  function Line(cmd: seq<byte>, topic: seq<byte>): seq<byte> {
    cmd + [SPACE] + topic + CRLF
  }

  function Encode(m: Message): seq<byte> {
    match m
    case Command(cmd, topic) => Line(cmd, topic)
    case Publish(topic, content) => Line(PUB, topic) + content + CRLF
  }

  /** The first CR LF of a text without one, followed by CR LF, is the appended one. */
  lemma SearchAppended(s: seq<byte>, t: seq<byte>)
    requires NoCRLF(s)
    ensures SearchCRLF(s + CRLF + t) == |s|
  {
    var u := s + CRLF + t;
    SearchFindsLeast(u, 0, |s|);
    var at := SearchCRLF(u);
    assert at < |s| ==> CrlfAt(s, at);
  }

  /** A line's command ends at its first space. */
  lemma SplitLine(cmd: seq<byte>, topic: seq<byte>)
    requires SPACE !in cmd
    ensures var line := cmd + [SPACE] + topic;
            FindSpace(line) == |cmd| && line[..|cmd|] == cmd && line[|cmd| + 1..] == topic
  {
    var line := cmd + [SPACE] + topic;
    var at := FindSpace(line);
    assert forall k :: 0 <= k < |cmd| ==> line[k] == cmd[k];
    if |cmd| < at {
      FindsFirst(line, 0, |cmd|);
    }
  }

  lemma LineHasNoCRLF(cmd: seq<byte>, topic: seq<byte>)
    requires NoCRLF(cmd) && NoCRLF(topic)
    ensures NoCRLF(cmd + [SPACE] + topic)
  {
    var line := cmd + [SPACE] + topic;
    forall k
      ensures !CrlfAt(line, k)
    {
      assert !CrlfAt(cmd, k) && !CrlfAt(topic, k - |cmd| - 1);
    }
  }

  lemma FirstLine(cmd: seq<byte>, topic: seq<byte>, t: seq<byte>)
    requires SPACE !in cmd && NoCRLF(cmd) && NoCRLF(topic)
    ensures var s := Line(cmd, topic) + t;
            var crlf := SearchCRLF(s);
            && crlf == |cmd| + 1 + |topic| && s[crlf + 2..] == t
            && FindSpace(s[..crlf]) == |cmd| && s[..crlf][..|cmd|] == cmd && s[..crlf][|cmd| + 1..] == topic
  {
    var line := cmd + [SPACE] + topic;
    LineHasNoCRLF(cmd, topic);
    SearchAppended(line, t);
    assert Line(cmd, topic) + t == line + CRLF + t;
    assert (line + CRLF + t)[..|line|] == line;
    SplitLine(cmd, topic);
  }

  /** Parsing an encoded message followed by any bytes gives that message and its length. */
  lemma ParseEncoded(m: Message, t: seq<byte>)
    requires Encodable(m)
    ensures Parse(Encode(m) + t) == Success(m, |Encode(m)|)
  {
    match m
    case Command(cmd, topic) =>
      FirstLine(cmd, topic, t);
    case Publish(topic, content) =>
      var rest := content + CRLF + t;
      assert Encode(m) + t == Line(PUB, topic) + rest;
      FirstLine(PUB, topic, rest);
      SearchAppended(content, t);
      assert rest[..|content|] == content;
  }

  lemma SliceHasNoCRLF(s: seq<byte>, i: nat, j: nat)
    requires NoCRLF(s) && i <= j <= |s|
    ensures NoCRLF(s[i..j])
  {
    forall k
      ensures !CrlfAt(s[i..j], k)
    {
      assert !CrlfAt(s, i + k);
    }
  }

  lemma NoneBeforeFirst(s: seq<byte>, k: int)
    ensures !CrlfAt(s[..SearchCRLF(s)], k)
  {
    if CrlfAt(s, k) {
      SearchFindsLeast(s, 0, k);
    }
  }

  lemma BeforeCRLF(s: seq<byte>)
    requires SearchCRLF(s) < |s|
    ensures var at := SearchCRLF(s); NoCRLF(s[..at]) && s[..at + 2] == s[..at] + CRLF
  {
    forall k
      ensures !CrlfAt(s[..SearchCRLF(s)], k)
    {
      NoneBeforeFirst(s, k);
    }
    TakeCRLF(s, SearchCRLF(s));
  }

  lemma LineIsEncoded(s: seq<byte>)
    requires SearchCRLF(s) < |s|
    ensures var line := s[..SearchCRLF(s)];
            var space := FindSpace(line);
            space < |line| ==>
              && NoCRLF(line[..space]) && NoCRLF(line[space + 1..]) && SPACE !in line[..space]
              && s[..|line| + 2] == Line(line[..space], line[space + 1..])
  {
    BeforeCRLF(s);
    var line := s[..SearchCRLF(s)];
    var space := FindSpace(line);
    if space < |line| {
      forall k | 0 <= k < space
        ensures line[k] != SPACE
      {
        FindsFirst(line, 0, k);
      }
      SliceHasNoCRLF(line, 0, space);
      SliceHasNoCRLF(line, space + 1, |line|);
      assert line[0..space] == line[..space] && line[space + 1..|line|] == line[space + 1..];
      assert line == line[..space] + [SPACE] + line[space + 1..];
    }
  }

  /** Conversely, a success consumed exactly the encoding of the message it reports. */
  lemma ParsedIsEncoded(s: seq<byte>)
    requires Parse(s).Success?
    ensures var r := Parse(s);
            Encodable(r.message) && r.consumed == |Encode(r.message)| <= |s| && s[..r.consumed] == Encode(r.message)
  {
    LineIsEncoded(s);
    var crlf := SearchCRLF(s);
    var r := Parse(s);
    if r.message.Publish? {
      var rest := s[crlf + 2..];
      BeforeCRLF(rest);
      DropTake(s, crlf + 2, SearchCRLF(rest) + 2);
    }
  }

  predicate StartsWith(s: seq<byte>, prefix: seq<byte>) {
    |prefix| <= |s| && s[..|prefix|] == prefix
  }

  lemma ParsePrefix(s: seq<byte>, m: Message)
    requires Encodable(m) && StartsWith(s, Encode(m))
    ensures Parse(s) == Success(m, |Encode(m)|)
  {
    var n := |Encode(m)|;
    ParseEncoded(m, s[n..]);
    TakeDrop(s, n);
  }

  /** Success means, and is meant by: the bytes start with an encoding of the message. */
  lemma ParseCharacterised(s: seq<byte>, m: Message)
    ensures Parse(s) == Success(m, |Encode(m)|) <==> Encodable(m) && StartsWith(s, Encode(m))
  {
    if Encodable(m) && StartsWith(s, Encode(m)) {
      ParsePrefix(s, m);
    } else if Parse(s).Success? {
      ParsedIsEncoded(s);
    }
  }

  // ----- Extension -----

  lemma SearchExtends(s: seq<byte>, t: seq<byte>)
    requires SearchCRLF(s) < |s|
    ensures SearchCRLF(s + t) == SearchCRLF(s)
  {
    var at := SearchCRLF(s);
    SearchFindsLeast(s + t, 0, at);
    SearchFindsLeast(s, 0, SearchCRLF(s + t));
  }

  /** More input never revises a success or an error; only `Continue` can change. */
  lemma ParseExtends(s: seq<byte>, t: seq<byte>)
    requires !Parse(s).Continue?
    ensures Parse(s + t) == Parse(s)
  {
    if Parse(s).Success? {
      ParsedIsEncoded(s);
      var r := Parse(s);
      DropAppend(s, t, r.consumed);
      ParsePrefix(s + t, r.message);
    } else {
      SearchExtends(s, t);
      DropAppend(s, t, SearchCRLF(s));
    }
  }

  // ----- Draining -----

  type Parser = seq<byte> -> Outcome

  /** A parser whose verdicts survive more input and whose successes consume something. */
  ghost predicate Incremental(p: Parser) {
    && (forall s :: p(s).Success? ==> 0 < p(s).consumed <= |s|)
    && (forall s, t :: !p(s).Continue? ==> p(s + t) == p(s))
  }

  lemma ParseIsIncremental()
    ensures Incremental(Parse)
  {
    forall s | Parse(s).Success?
      ensures 0 < Parse(s).consumed <= |s|
    {
      ParsedIsEncoded(s);
    }
    forall s, t | !Parse(s).Continue?
      ensures Parse(s + t) == Parse(s)
    {
      ParseExtends(s, t);
    }
  }

  datatype Drained = Drained(messages: seq<Message>, rest: seq<byte>, failed: bool)

  /** Calling the parser until it stops succeeding. */
  ghost function Drain(p: Parser, s: seq<byte>): Drained
    requires Incremental(p)
    decreases |s|
  {
    match p(s)
    case Error => Drained([], s, true)
    case Continue => Drained([], s, false)
    case Success(m, n) =>
      var later := Drain(p, s[n..]);
      Drained([m] + later.messages, later.rest, later.failed)
  }

  /** Appending each chunk in turn and draining after it. */
  ghost function DrainChunks(p: Parser, held: seq<byte>, chunks: seq<seq<byte>>): Drained
    requires Incremental(p)
    decreases |chunks|
  {
    if chunks == [] then
      Drained([], held, p(held).Error?)
    else
      var first := Drain(p, held + chunks[0]);
      var later := DrainChunks(p, first.rest, chunks[1..]);
      Drained(first.messages + later.messages, later.rest, later.failed)
  }

  lemma {:induction false} DrainStops(p: Parser, s: seq<byte>)
    requires Incremental(p)
    ensures var d := Drain(p, s); !p(d.rest).Success? && d.failed == p(d.rest).Error?
    decreases |s|
  {
    if p(s).Success? {
      DrainStops(p, s[p(s).consumed..]);
    }
  }

  /** Draining early and then going on is the same as draining once at the end. */
  lemma {:induction false} DrainExtends(p: Parser, s: seq<byte>, t: seq<byte>)
    requires Incremental(p)
    ensures var d := Drain(p, s);
            var e := Drain(p, d.rest + t);
            Drain(p, s + t) == Drained(d.messages + e.messages, e.rest, e.failed)
    decreases |s|
  {
    if p(s).Success? {
      var n := p(s).consumed;
      assert p(s + t) == p(s);
      DropAppend(s, t, n);
      DrainExtends(p, s[n..], t);
      var d := Drain(p, s[n..]);
      AppendAssoc([p(s).message], d.messages, Drain(p, d.rest + t).messages);
    }
  }

  /** Chunking is invisible: any cut of a stream yields the messages of the whole stream. */
  lemma {:induction false} ChunkingIsInvisible(p: Parser, held: seq<byte>, chunks: seq<seq<byte>>)
    requires Incremental(p) && !p(held).Success?
    ensures DrainChunks(p, held, chunks) == Drain(p, held + Concat(chunks))
    decreases |chunks|
  {
    if chunks == [] {
      AppendAssoc(held, [], []);
    } else {
      var s := held + chunks[0];
      DrainStops(p, s);
      ChunkingIsInvisible(p, Drain(p, s).rest, chunks[1..]);
      DrainExtends(p, s, Concat(chunks[1..]));
      AppendAssoc(held, chunks[0], Concat(chunks[1..]));
    }
  }

  /** From an empty buffer: same messages, same unread bytes, same verdict. */
  lemma StreamIndependentOfChunks(chunks: seq<seq<byte>>)
    ensures Incremental(Parse)
    ensures DrainChunks(Parse, [], chunks) == Drain(Parse, Concat(chunks))
  {
    ParseIsIncremental();
    ChunkingIsInvisible(Parse, [], chunks);
    AppendAssoc(Concat(chunks), [], []);
  }

  /** A parser that recognises an encoding in front of any bytes. */
  ghost predicate Recognises(p: Parser, encode: Message -> seq<byte>, m: Message) {
    forall t :: p(encode(m) + t) == Success(m, |encode(m)|)
  }

  function EncodeAll(encode: Message -> seq<byte>, ms: seq<Message>): seq<byte> {
    if ms == [] then [] else encode(ms[0]) + EncodeAll(encode, ms[1..])
  }

  /** The messages of a stream are determined: any encoding of messages decodes to them. */
  lemma {:induction false} DrainEncoded(p: Parser, encode: Message -> seq<byte>, ms: seq<Message>, t: seq<byte>)
    requires Incremental(p) && !p(t).Success?
    requires forall m :: m in ms ==> Recognises(p, encode, m)
    ensures Drain(p, EncodeAll(encode, ms) + t) == Drained(ms, t, p(t).Error?)
    decreases |ms|
  {
    if ms == [] {
      AppendAssoc(t, [], []);
    } else {
      var head, tail := encode(ms[0]), EncodeAll(encode, ms[1..]) + t;
      AppendAssoc(head, EncodeAll(encode, ms[1..]), t);
      assert Recognises(p, encode, ms[0]);
      assert p(head + tail) == Success(ms[0], |head|);
      DropAppend(head, tail, |head|);
      AppendAssoc(tail, [], []);
      DrainEncoded(p, encode, ms[1..], t);
    }
  }

  /** However a sender's messages are cut in transit, exactly they arrive. */
  lemma TransmittedMessagesArrive(ms: seq<Message>, chunks: seq<seq<byte>>)
    requires forall m :: m in ms ==> Encodable(m)
    requires Concat(chunks) == EncodeAll(Encode, ms)
    ensures Incremental(Parse)
    ensures DrainChunks(Parse, [], chunks) == Drained(ms, [], false)
  {
    StreamIndependentOfChunks(chunks);
    forall m | m in ms
      ensures Recognises(Parse, Encode, m)
    {
      forall t ensures Parse(Encode(m) + t) == Success(m, |Encode(m)|) {
        ParseEncoded(m, t);
      }
    }
    DrainEncoded(Parse, Encode, ms, []);
    AppendAssoc(EncodeAll(Encode, ms), [], []);
  }

  // ----- What an error and an incomplete message mean -----

  /** A space, the end of the line and an empty second line. */
  const COMPLETION: seq<byte> := [SPACE] + CRLF + CRLF

  lemma NoCRLFThenSpace(s: seq<byte>)
    requires NoCRLF(s)
    ensures NoCRLF(s + [SPACE])
  {
    forall k
      ensures !CrlfAt(s + [SPACE], k)
    {
      assert CrlfAt(s + [SPACE], k) ==> CrlfAt(s, k);
    }
  }

  lemma SearchCompleted(s: seq<byte>)
    requires SearchCRLF(s) == |s|
    ensures SearchCRLF(s + COMPLETION) == |s| + 1 && (s + COMPLETION)[..|s| + 1] == s + [SPACE]
    ensures (s + COMPLETION)[|s| + 3..] == CRLF
  {
    NoneMeansNoCRLF(s);
    NoCRLFThenSpace(s);
    SearchAppended(s + [SPACE], CRLF);
    assert s + COMPLETION == s + [SPACE] + CRLF + CRLF;
  }

  lemma NoneMeansNoCRLF(s: seq<byte>)
    requires SearchCRLF(s) == |s|
    ensures NoCRLF(s)
  {
    assert s[..|s|] == s;
    forall k
      ensures !CrlfAt(s, k)
    {
      NoneBeforeFirst(s, k);
    }
  }

  /** An incomplete message can always still be completed. */
  lemma ContinueIsHopeful(s: seq<byte>)
    requires Parse(s).Continue?
    ensures Parse(s + COMPLETION).Success?
  {
    var crlf := SearchCRLF(s);
    if crlf == |s| {
      SearchCompleted(s);
      var line := s + [SPACE];
      assert line[|s|] == SPACE;
      SpaceIsFound(line, |s|);
      SearchAppended([], []);
      assert [] + CRLF + [] == CRLF;
    } else {
      SearchExtends(s, COMPLETION);
      var rest := s[crlf + 2..];
      assert (s + COMPLETION)[..crlf] == s[..crlf];
      assert (s + COMPLETION)[crlf + 2..] == rest + COMPLETION;
      SearchCompleted(rest);
    }
  }

  lemma SpaceIsFound(line: seq<byte>, k: nat)
    requires k < |line| && line[k] == SPACE
    ensures FindSpace(line) < |line|
  {
    if FindSpace(line) == |line| {
      FindsFirst(line, 0, k);
    }
  }

  /** `ParseError` is reported exactly when no further input could make the message parse. */
  lemma ErrorIsHopeless(s: seq<byte>)
    ensures Parse(s).Error? <==> forall t :: !Parse(s + t).Success?
  {
    if Parse(s).Error? {
      forall t
        ensures !Parse(s + t).Success?
      {
        ParseExtends(s, t);
      }
    } else if Parse(s).Continue? {
      ContinueIsHopeful(s);
    } else {
      assert s + [] == s;
    }
  }

  // ----- The method on a buffer -----

  datatype ParseResult = ParseError | ParseSuccess | ParseContinue

  function Verdict(o: Outcome): ParseResult {
    match o
    case Error => ParseError
    case Continue => ParseContinue
    case Success(_, _) => ParseSuccess
  }

  function Consumed(o: Outcome): nat {
    if o.Success? then o.consumed else 0
  }

  /**
   `parseMessage`.  The out-parameters are C++ references, so their previous values come in:
   a "pub" line assigns `cmd` and `topic` even when its content is still incomplete, and only
   a complete "pub" assigns `content`.
   */
  method ParseMessage(buf: Buffer, cmd0: seq<byte>, topic0: seq<byte>, content0: seq<byte>)
    returns (result: ParseResult, cmd: seq<byte>, topic: seq<byte>, content: seq<byte>)
    requires buf.Valid()
    modifies buf`reader
    ensures buf.Valid()
    ensures var s := old(buf.Contents());
            var o, crlf := Parse(s), SearchCRLF(s);
            && result == Verdict(o)
            && buf.reader == old(buf.reader) + Consumed(o)
            && (o.Success? ==> topic == o.message.topic && cmd == (if o.message.Publish? then PUB else o.message.cmd))
            && content == (if o.Success? && o.message.Publish? then o.message.content else content0)
            && (o.Error? || crlf == |s| ==> cmd == cmd0 && topic == topic0)
            && (o.Continue? && crlf < |s| ==> cmd == PUB && Line(PUB, topic) == s[..crlf] + CRLF)
  {
    cmd, topic, content := cmd0, topic0, content0;
    var found, crlf, line := ReadLine(buf);
    if !found {
      return ParseContinue, cmd, topic, content;
    }
    var space := FindSpace(line);
    if space == |line| {
      return ParseError, cmd, topic, content;
    }
    cmd, topic := line[..space], line[space + 1..];
    if cmd == PUB {
      result, content := ParseContent(buf, crlf + 2, content);
    } else {
      buf.RetrieveUntil(crlf + 2);
      result := ParseSuccess;
    }
  }

  /** The readable bytes up to the first CR LF. */
  method ReadLine(buf: Buffer) returns (found: bool, crlf: nat, line: seq<byte>)
    requires buf.Valid()
    ensures var s := buf.Contents(); crlf == SearchCRLF(s) && found == (crlf < |s|) && line == s[..crlf]
  {
    ghost var s := buf.Contents();
    TakeDrop(s, 0);
    found, crlf := buf.FindCRLF(0);
    line := buf.StringBetween(0, crlf);
    TakeDrop(s, crlf);
  }

  /** The second line of a "pub", whose first line ended before `start`. */
  method ParseContent(buf: Buffer, start: nat, content0: seq<byte>) returns (result: ParseResult, content: seq<byte>)
    requires buf.Valid() && start <= buf.writer - buf.reader
    modifies buf`reader
    ensures buf.Valid()
    ensures var rest := old(buf.Contents())[start..];
            var end := SearchCRLF(rest);
            if end == |rest| then
              result == ParseContinue && content == content0 && buf.reader == old(buf.reader)
            else
              result == ParseSuccess && content == rest[..end] && buf.reader == old(buf.reader) + start + end + 2
  {
    content := content0;
    ghost var s := buf.Contents();
    var found, end := buf.FindCRLF(start);
    if found {
      content := buf.StringBetween(start, start + end);
      DropTake(s, start, end);
      buf.RetrieveUntil(start + end + 2);
      result := ParseSuccess;
    } else {
      result := ParseContinue;
    }
  }
}
