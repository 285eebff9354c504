/**
 The connection buffer (include/Buffer.h, src/Buffer.cpp): one backing store with a
 reader and a writer index.  `Storage` is the exact layout; `Buffer` is the object that
 updates it in place.
 */
module Buffers {
  import opened Bytes

  const CHEAP_PREPEND: nat := 8
  const INITIAL_SIZE: nat := 1024
  const EXTRA_BUF: nat := 65536

  datatype Storage = Storage(store: seq<byte>, reader: nat, writer: nat) {
    predicate Valid() {
      && reader <= writer <= |store|
      && CHEAP_PREPEND + INITIAL_SIZE <= |store|
    }

    function Readable(): seq<byte>
      requires Valid()
    {
      store[reader..writer]
    }

    function Writable(): nat
      requires Valid()
    {
      |store| - writer
    }
  }

  const EMPTY: Storage := Storage(Zeros(CHEAP_PREPEND + INITIAL_SIZE), CHEAP_PREPEND, CHEAP_PREPEND)

  /** `s` with the `n` bytes from `from` moved down to `to`. */
  function Shifted(s: seq<byte>, to: nat, from: nat, n: nat): (r: seq<byte>)
    requires to <= from && from + n <= |s|
    ensures |r| == |s|
  {
    s[..to] + s[from..from + n] + s[to + n..]
  }

  /** One more byte of a forward copy, whose source has not been overwritten yet. */
  lemma ShiftOne(s: seq<byte>, to: nat, from: nat, n: nat)
    requires to < from && from + n < |s|
    ensures Shifted(s, to, from, n)[from + n] == s[from + n]
    ensures Shifted(s, to, from, n + 1) == Shifted(s, to, from, n)[to + n := s[from + n]]
  {
  }

  /** `makeSpace`: grow the vector, or move the readable bytes down to index 8. */
  function MakeSpace(b: Storage, len: nat): (r: Storage)
    requires b.Valid() && b.Writable() < len
    ensures r.Valid() && r.Readable() == b.Readable() && len <= r.Writable()
  {
    if b.Writable() + b.reader < len + CHEAP_PREPEND then
      b.(store := b.store + Zeros(b.writer + len - |b.store|))
    else
      var readable := b.writer - b.reader;
      Storage(Shifted(b.store, CHEAP_PREPEND, b.reader, readable), CHEAP_PREPEND, CHEAP_PREPEND + readable)
  }

  function EnsureWritable(b: Storage, len: nat): (r: Storage)
    requires b.Valid()
    ensures r.Valid() && r.Readable() == b.Readable() && len <= r.Writable()
  {
    if b.Writable() < len then MakeSpace(b, len) else b
  }

  /** Bytes placed behind the writer index, which then moves past them. */
  function WriteBytes(b: Storage, bytes: seq<byte>): (r: Storage)
    requires b.Valid() && |bytes| <= b.Writable()
    ensures r.Valid() && r.Readable() == b.Readable() + bytes
  {
    Storage(b.store[..b.writer] + bytes + b.store[b.writer + |bytes|..], b.reader, b.writer + |bytes|)
  }

  function AppendBytes(b: Storage, bytes: seq<byte>): (r: Storage)
    requires b.Valid()
    ensures r.Valid() && r.Readable() == b.Readable() + bytes
  {
    WriteBytes(EnsureWritable(b, |bytes|), bytes)
  }

  function PrependBytes(b: Storage, bytes: seq<byte>): (r: Storage)
    requires b.Valid() && |bytes| <= b.reader
    ensures r.Valid() && r.Readable() == bytes + b.Readable()
  {
    PrependSlice(b.store, bytes, b.reader, b.writer);
    Storage(b.store[..b.reader - |bytes|] + bytes + b.store[b.reader..], b.reader - |bytes|, b.writer)
  }

  lemma PrependSlice(store: seq<byte>, bytes: seq<byte>, reader: nat, writer: nat)
    requires |bytes| <= reader <= writer <= |store|
    ensures var s := store[..reader - |bytes|] + bytes + store[reader..];
            |s| == |store| && s[reader - |bytes|..writer] == bytes + store[reader..writer]
  {
    var k, rest := reader - |bytes|, store[reader..];
    var s := store[..k] + bytes + rest;
    assert s == store[..k] + (bytes + rest);
    assert s[k..] == bytes + rest;
    assert s[k..writer] == s[k..][..writer - k];
    assert (bytes + rest)[..writer - k] == bytes + rest[..writer - reader];
  }

  /** `readFd` when `readv` delivered `bytes`: the tail that does not fit spills and is appended. */
  function ReceiveBytes(b: Storage, bytes: seq<byte>): (r: Storage)
    requires b.Valid()
    ensures r.Valid() && r.Readable() == b.Readable() + bytes
  {
    var writable := b.Writable();
    if |bytes| <= writable then
      WriteBytes(b, bytes)
    else
      assert bytes == bytes[..writable] + bytes[writable..];
      AppendBytes(WriteBytes(b, bytes[..writable]), bytes[writable..])
  }

  // ----- Whole runs -----

  datatype Op =
    | Append(bytes: seq<byte>)
    | Prepend(bytes: seq<byte>)
    | Retrieve(n: nat)
    | RetrieveAll
    | ReadFd(bytes: seq<byte>)
    | ReadFdError

  /** What the buffer asserts of its callers, and what `readv` promises. */
  predicate Allowed(b: Storage, op: Op)
    requires b.Valid()
  {
    match op
    case Prepend(bytes) => |bytes| <= b.reader
    case Retrieve(n) => n <= b.writer - b.reader
    case ReadFd(bytes) => |bytes| <= b.Writable() + EXTRA_BUF
    case _ => true
  }

  function Apply(b: Storage, op: Op): (r: Storage)
    requires b.Valid() && Allowed(b, op)
    ensures r.Valid()
  {
    match op
    case Append(bytes) => AppendBytes(b, bytes)
    case Prepend(bytes) => PrependBytes(b, bytes)
    case Retrieve(n) => b.(reader := b.reader + n)
    case RetrieveAll => b.(reader := CHEAP_PREPEND, writer := CHEAP_PREPEND)
    case ReadFd(bytes) => ReceiveBytes(b, bytes)
    case ReadFdError => b
  }

  ghost predicate AllowedRun(b: Storage, ops: seq<Op>)
    requires b.Valid()
    decreases |ops|
  {
    ops == [] || (Allowed(b, ops[0]) && AllowedRun(Apply(b, ops[0]), ops[1..]))
  }

  ghost function Run(b: Storage, ops: seq<Op>): (r: Storage)
    requires b.Valid() && AllowedRun(b, ops)
    ensures r.Valid()
    decreases |ops|
  {
    if ops == [] then b else Run(Apply(b, ops[0]), ops[1..])
  }

  /** The reference: a plain byte queue that also takes bytes at its front. */
  function QueueApply(q: seq<byte>, op: Op): seq<byte> {
    match op
    case Append(bytes) => q + bytes
    case Prepend(bytes) => bytes + q
    case Retrieve(n) => if n <= |q| then q[n..] else []
    case RetrieveAll => []
    case ReadFd(bytes) => q + bytes
    case ReadFdError => q
  }

  function QueueRun(q: seq<byte>, ops: seq<Op>): seq<byte>
    decreases |ops|
  {
    if ops == [] then q else QueueRun(QueueApply(q, ops[0]), ops[1..])
  }

  /** The largest number of readable bytes at any point of a run. */
  ghost function Peak(b: Storage, ops: seq<Op>): (p: nat)
    requires b.Valid() && AllowedRun(b, ops)
    ensures b.writer - b.reader <= p
    decreases |ops|
  {
    var here := b.writer - b.reader;
    if ops == [] then here
    else
      var later := Peak(Apply(b, ops[0]), ops[1..]);
      if here <= later then later else here
  }

  function Bound(peak: nat): nat {
    if CHEAP_PREPEND + INITIAL_SIZE <= 2 * peak + 7 then 2 * peak + 7 else CHEAP_PREPEND + INITIAL_SIZE
  }

  /** Every run of buffer operations is a run of the byte queue. */
  lemma {:induction false} RunRefinesQueue(b: Storage, ops: seq<Op>)
    requires b.Valid() && AllowedRun(b, ops)
    ensures Run(b, ops).Readable() == QueueRun(b.Readable(), ops)
    decreases |ops|
  {
    if ops != [] {
      assert Apply(b, ops[0]).Readable() == QueueApply(b.Readable(), ops[0]);
      RunRefinesQueue(Apply(b, ops[0]), ops[1..]);
    }
  }

  /** Growth happens only when the reader index is small against the new readable size. */
  lemma AppendStaysBelow(b: Storage, bytes: seq<byte>, peak: nat)
    requires b.Valid() && |b.store| <= Bound(peak)
    requires b.writer - b.reader + |bytes| <= peak
    ensures |AppendBytes(b, bytes).store| <= Bound(peak)
  {
  }

  lemma StepStaysBelow(b: Storage, op: Op, peak: nat)
    requires b.Valid() && Allowed(b, op) && |b.store| <= Bound(peak)
    requires Apply(b, op).writer - Apply(b, op).reader <= peak
    ensures |Apply(b, op).store| <= Bound(peak)
  {
    match op
    case Append(bytes) =>
      assert |Apply(b, op).Readable()| == |b.Readable()| + |bytes|;
      AppendStaysBelow(b, bytes, peak);
    case ReadFd(bytes) =>
      assert |Apply(b, op).Readable()| == |b.Readable()| + |bytes|;
      if b.Writable() < |bytes| {
        AppendStaysBelow(WriteBytes(b, bytes[..b.Writable()]), bytes[b.Writable()..], peak);
      }
    case _ =>
  }

  lemma {:induction false} RunStaysBelow(b: Storage, ops: seq<Op>, peak: nat)
    requires b.Valid() && AllowedRun(b, ops)
    requires Peak(b, ops) <= peak && |b.store| <= Bound(peak)
    ensures |Run(b, ops).store| <= Bound(peak)
    decreases |ops|
  {
    if ops != [] {
      StepStaysBelow(b, ops[0], peak);
      RunStaysBelow(Apply(b, ops[0]), ops[1..], peak);
    }
  }

  /** A fresh buffer never owns more than max(1032, 2P + 7) bytes, P being its peak content. */
  lemma CapacityBound(ops: seq<Op>)
    requires AllowedRun(EMPTY, ops)
    ensures |Run(EMPTY, ops).store| <= Bound(Peak(EMPTY, ops))
  {
    RunStaysBelow(EMPTY, ops, Peak(EMPTY, ops));
  }

  lemma RunFirst(b: Storage, op: Op, ops: seq<Op>)
    requires b.Valid() && Allowed(b, op) && AllowedRun(Apply(b, op), ops)
    ensures AllowedRun(b, [op] + ops) && Run(b, [op] + ops) == Run(Apply(b, op), ops)
    ensures Peak(b, [op] + ops) == Larger(b.writer - b.reader, Peak(Apply(b, op), ops))
  {
    assert ([op] + ops)[1..] == ops;
  }

  function Larger(a: nat, b: nat): nat {
    if a <= b then b else a
  }

  /** The bound is met exactly, for every peak from 1025 on. */
  lemma CapacityBoundIsReached(p: nat)
    requires INITIAL_SIZE < p
    ensures var ops := [Append(Zeros(p - 1))] + ([Retrieve(p - 1)] + ([Append(Zeros(p))] + []));
            AllowedRun(EMPTY, ops) && Peak(EMPTY, ops) == p && |Run(EMPTY, ops).store| == 2 * p + 7
  {
    var b1 := Apply(EMPTY, Append(Zeros(p - 1)));
    assert |b1.store| == p + 7 && b1.reader == 8 && b1.writer == p + 7;
    var b2 := Apply(b1, Retrieve(p - 1));
    var b3 := Apply(b2, Append(Zeros(p)));
    assert |b3.store| == 2 * p + 7 && b3.reader == p + 7 && b3.writer == 2 * p + 7;
    RunFirst(b2, Append(Zeros(p)), []);
    RunFirst(b1, Retrieve(p - 1), [Append(Zeros(p))] + []);
    RunFirst(EMPTY, Append(Zeros(p - 1)), [Retrieve(p - 1)] + ([Append(Zeros(p))] + []));
  }

  /** All bytes prepended on a run. */
  function Prepended(ops: seq<Op>): nat {
    if ops == [] then 0 else (if ops[0].Prepend? then |ops[0].bytes| else 0) + Prepended(ops[1..])
  }

  /** There are always 8 bytes in front for a cheap prepend, but for what has been prepended. */
  lemma {:induction false} HeadroomIsKept(b: Storage, ops: seq<Op>, used: nat)
    requires b.Valid() && AllowedRun(b, ops) && CHEAP_PREPEND <= b.reader + used
    ensures CHEAP_PREPEND <= Run(b, ops).reader + used + Prepended(ops)
    decreases |ops|
  {
    if ops != [] {
      HeadroomIsKept(Apply(b, ops[0]), ops[1..], used + if ops[0].Prepend? then |ops[0].bytes| else 0);
    }
  }

  // ----- The object -----

  datatype Readv = Received(bytes: seq<byte>) | Failed(errno: int)

  class Buffer {
    var data: array<byte>
    var reader: nat
    var writer: nat

    ghost predicate Valid()
      reads this, data
    {
      View().Valid()
    }

    ghost function View(): Storage
      reads this, data
    {
      Storage(data[..], reader, writer)
    }

    ghost function Contents(): seq<byte>
      reads this, data
      requires Valid()
    {
      View().Readable()
    }

    constructor ()
      ensures Valid() && fresh(data) && View() == EMPTY
      ensures reader == writer == 8 && data.Length == 8 + 1024
    {
      data := new byte[CHEAP_PREPEND + INITIAL_SIZE](_ => 0);
      reader, writer := CHEAP_PREPEND, CHEAP_PREPEND;
    }

    /** `std::copy` of the readable bytes onto index 8: source and target may overlap. */
    method Compact()
      requires Valid() && CHEAP_PREPEND < reader
      modifies this, data
      ensures data == old(data)
      ensures reader == CHEAP_PREPEND && writer == CHEAP_PREPEND + old(writer - reader)
      ensures data[..] == Shifted(old(data[..]), CHEAP_PREPEND, old(reader), old(writer - reader))
    {
      var n := writer - reader;
      ghost var s := data[..];
      assert s == Shifted(s, CHEAP_PREPEND, reader, 0);
      for i := 0 to n
        modifies data
        invariant data[..] == Shifted(s, CHEAP_PREPEND, reader, i)
      {
        ShiftOne(s, CHEAP_PREPEND, reader, i);
        data[CHEAP_PREPEND + i] := data[reader + i];
      }
      reader := CHEAP_PREPEND;
      writer := reader + n;
    }

    /** `buffer_.resize(size)`: a larger vector with the old bytes in front. */
    method Resize(size: nat)
      requires Valid() && data.Length <= size
      modifies this`data
      ensures fresh(data) && data[..] == old(data[..]) + Zeros(size - old(data.Length))
    {
      var bigger := new byte[size](_ => 0);
      forall k | 0 <= k < data.Length {
        bigger[k] := data[k];
      }
      data := bigger;
      assert data[..] == old(data[..]) + Zeros(size - old(data.Length));
    }

    method EnsureWritableBytes(len: nat)
      requires Valid()
      modifies this, data
      ensures Valid() && (data == old(data) || fresh(data))
      ensures View() == EnsureWritable(old(View()), len)
    {
      if data.Length - writer < len {
        if data.Length - writer + reader < len + CHEAP_PREPEND {
          Resize(writer + len);
        } else {
          assert CHEAP_PREPEND < reader;
          Compact();
        }
      }
      assert len <= data.Length - writer;
    }

    /** The bytes land behind the writer index; nothing else moves. */
    method CopyIn(at: nat, bytes: seq<byte>)
      requires at + |bytes| <= data.Length
      modifies data
      ensures data[..] == old(data[..at]) + bytes + old(data[at + |bytes|..])
    {
      for i := 0 to |bytes|
        invariant data[..] == old(data[..at]) + bytes[..i] + old(data[at + i..])
      {
        data[at + i] := bytes[i];
      }
    }

    method AppendChars(bytes: seq<byte>)
      requires Valid()
      modifies this, data
      ensures Valid() && (data == old(data) || fresh(data))
      ensures View() == AppendBytes(old(View()), bytes)
    {
      EnsureWritableBytes(|bytes|);
      CopyIn(writer, bytes);
      writer := writer + |bytes|;
    }

    method PrependChars(bytes: seq<byte>)
      requires Valid() && |bytes| <= reader
      modifies this, data
      ensures Valid() && data == old(data)
      ensures View() == PrependBytes(old(View()), bytes)
    {
      reader := reader - |bytes|;
      CopyIn(reader, bytes);
    }

    method RetrieveBytes(n: nat)
      requires Valid() && n <= writer - reader
      modifies this`reader
      ensures Valid() && View() == Apply(old(View()), Retrieve(n))
    {
      reader := reader + n;
    }

    /** `retrieveUntil`, the end given as a position counted from `peek()`. */
    method RetrieveUntil(end: nat)
      requires Valid() && end <= writer - reader
      modifies this`reader
      ensures Valid() && reader == old(reader) + end
    {
      RetrieveBytes(end);
    }

    method RetrieveEverything()
      requires Valid()
      modifies this`reader, this`writer
      ensures Valid() && View() == Apply(old(View()), RetrieveAll) && reader == writer == 8
    {
      reader, writer := CHEAP_PREPEND, CHEAP_PREPEND;
    }

    method RetrieveAsString() returns (str: seq<byte>)
      requires Valid()
      modifies this`reader, this`writer
      ensures Valid() && View() == Apply(old(View()), RetrieveAll)
      ensures str == old(Contents())
    {
      str := data[reader..writer];
      RetrieveEverything();
    }

    /** What a successful `readv` scattered over the free space and the spill buffer. */
    method TakeReceived(received: seq<byte>)
      requires Valid() && Allowed(View(), ReadFd(received))
      modifies this, data
      ensures Valid() && (data == old(data) || fresh(data))
      ensures View() == ReceiveBytes(old(View()), received)
    {
      var writable := data.Length - writer;
      if |received| <= writable {
        WriteIn(received);
      } else {
        WriteIn(received[..writable]);
        AppendChars(received[writable..]);
      }
    }

    /** Bytes that fit go behind the writer index. */
    method WriteIn(bytes: seq<byte>)
      requires Valid() && |bytes| <= data.Length - writer
      modifies this`writer, data
      ensures Valid() && View() == WriteBytes(old(View()), bytes)
    {
      CopyIn(writer, bytes);
      writer := writer + |bytes|;
    }

    /** `readFd`, given what `readv` does; `savedErrno` is assigned only when it fails. */
    method ReadFromFd(outcome: Readv, errno0: int) returns (n: int, savedErrno: int)
      requires Valid() && (outcome.Received? ==> Allowed(View(), ReadFd(outcome.bytes)))
      modifies this, data
      ensures Valid() && (data == old(data) || fresh(data))
      ensures match outcome
              case Failed(errno) => n == -1 && savedErrno == errno && View() == old(View())
              case Received(bytes) => n == |bytes| && savedErrno == errno0 && View() == ReceiveBytes(old(View()), bytes)
    {
      match outcome
      case Failed(errno) =>
        return -1, errno;
      case Received(bytes) =>
        TakeReceived(bytes);
        return |bytes|, errno0;
    }

    /** `findCRLF(start)`, positions counted from `peek()`: the first CR LF at or after `start`. */
    method FindCRLF(start: nat) returns (found: bool, at: nat)
      requires Valid() && start <= writer - reader
      ensures at == SearchCRLF(Contents()[start..])
      ensures found == (start + at < writer - reader)
    {
      ghost var s := Contents()[start..];
      at := 0;
      while reader + start + at + 2 <= writer
        invariant at <= |s|
        invariant SearchCRLF(s) == SearchFrom(s, at)
      {
        var p := reader + start + at;
        assert s[at] == data[p] && s[at + 1] == data[p + 1];
        if data[p] == CR && data[p + 1] == LF {
          return true, at;
        }
        at := at + 1;
      }
      return false, writer - reader - start;
    }

    /** The string between two positions counted from `peek()`. */
    method StringBetween(from: nat, to: nat) returns (str: seq<byte>)
      requires Valid() && from <= to <= writer - reader
      ensures str == Contents()[from..to]
    {
      str := data[reader + from..reader + to];
      ghost var c := Contents();
      assert forall k :: 0 <= k < |str| ==> str[k] == c[from..to][k];
    }
  }
}
