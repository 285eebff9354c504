/**
 The asynchronous logger's exchange of buffers between appending threads and the back end
 (src/AsyncLogging.cpp).  The steps are the sections under the mutex and the back end's own
 work between them.  `moving` selects what `std::move` does to a `BufferPtr`: it empties a
 `unique_ptr` (the typedef kept as a comment) and copies a raw pointer (the code as written).
 */
module AsyncLogs {
  import opened Bytes

  const LARGE_BUFFER: nat := 4000 * 1000

  datatype Option<T> = None | Some(value: T)

  type Ptr = nat
  type Heap = map<Ptr, seq<byte>>

  /** Where the back end stands: at the head of its loop, waiting for the mutex, or with buffers to write. */
  datatype Pc = Top | Waiting | Writing

  datatype Logger = Logger(
    moving: bool,
    heap: Heap,               // the text held by each buffer
    current: Ptr,
    next: Option<Ptr>,
    buffers: seq<Ptr>,
    new1: Option<Ptr>,        // the back end's spare buffers
    new2: Option<Ptr>,
    toWrite: seq<Ptr>,
    written: nat,             // buffers of `toWrite` already in the file
    file: seq<byte>,
    pc: Pc,
    accepted: seq<byte>,      // the lines appended, in order, but for those as long as a buffer
    overflows: nat,           // how often a full current buffer was replaced
    fault: bool)              // an assertion of the back end failed

  function Initial(moving: bool): (s: Logger)
    ensures WellFormed(s)
  {
    var heap := map[0 := [], 1 := [], 2 := [], 3 := []];
    Logger(moving, heap, 0, Some(1), [], Some(2), Some(3), [], 0, [], Top, [], 0, false)
  }

  /** `FixedBuffer::append`: the whole line or nothing. */
  function BufferAppend(heap: Heap, p: Ptr, line: seq<byte>): Heap
    requires p in heap
  {
    heap[p := BoundedAppend(heap[p], line, LARGE_BUFFER)]
  }

  /** The line as far as any buffer can take it: a line as long as a buffer is dropped. */
  function Fitting(line: seq<byte>): seq<byte> {
    if |line| < LARGE_BUFFER then line else []
  }

  datatype Step = AppendLine(line: seq<byte>, address: Ptr) | Check | Exchange | WriteOne | Recycle

  predicate WellFormed(s: Logger) {
    && s.current in s.heap
    && (s.next.Some? ==> s.next.value in s.heap)
    && (s.new1.Some? ==> s.new1.value in s.heap)
    && (s.new2.Some? ==> s.new2.value in s.heap)
    && (forall i :: 0 <= i < |s.buffers| ==> s.buffers[i] in s.heap)
    && (forall i :: 0 <= i < |s.toWrite| ==> s.toWrite[i] in s.heap)
    && s.written <= |s.toWrite|
  }

  /** `address` is what `new Buffer` would return. */
  predicate Enabled(s: Logger, step: Step) {
    match step
    case AppendLine(_, address) => address !in s.heap
    case Check => s.pc == Top
    case Exchange => s.pc == Waiting
    case WriteOne => s.pc == Writing && s.written < |s.toWrite|
    case Recycle => s.pc == Writing && s.written == |s.toWrite|
  }

  function Append(s: Logger, line: seq<byte>, address: Ptr): (r: Logger)
    requires WellFormed(s)
    ensures WellFormed(r)
  {
    var t := s.(accepted := s.accepted + Fitting(line));
    if |line| < LARGE_BUFFER - |s.heap[s.current]| then
      t.(heap := BufferAppend(s.heap, s.current, line))
    else
      var u := t.(buffers := s.buffers + [s.current], overflows := s.overflows + 1);
      match s.next
      case Some(p) => u.(current := p, next := if s.moving then None else s.next, heap := BufferAppend(s.heap, p, line))
      case None => u.(current := address, heap := BufferAppend(s.heap[address := []], address, line))
  }

  predicate Spare(s: Logger, p: Option<Ptr>)
    requires p.Some? ==> p.value in s.heap
  {
    p.Some? && s.heap[p.value] == []
  }

  /** The three assertions at the head of the loop. */
  function DoCheck(s: Logger): (r: Logger)
    requires WellFormed(s)
    ensures WellFormed(r)
  {
    if Spare(s, s.new1) && Spare(s, s.new2) && s.toWrite == [] then s.(pc := Waiting) else s.(fault := true)
  }

  /** The section under the mutex, after any wait; a missing spare would leave no current buffer. */
  function DoExchange(s: Logger): (r: Logger)
    requires WellFormed(s)
    ensures WellFormed(r)
  {
    if s.new1.None? then s.(fault := true)
    else
      s.(pc := Writing, written := 0, toWrite := s.buffers + [s.current], buffers := [],
         current := s.new1.value, new1 := None,
         next := if s.next.None? then s.new2 else s.next,
         new2 := if s.next.None? then None else s.new2)
  }

  function DoWriteOne(s: Logger): (r: Logger)
    requires WellFormed(s) && s.written < |s.toWrite|
    ensures WellFormed(r)
  {
    s.(file := s.file + s.heap[s.toWrite[s.written]], written := s.written + 1)
  }

  /** One spare buffer is taken back from the end of `toWrite` and emptied. */
  function Refill1(s: Logger): Logger {
    if s.new1.Some? then s
    else if s.toWrite == [] then s.(fault := true)
    else
      var p := s.toWrite[|s.toWrite| - 1];
      s.(new1 := Some(p), toWrite := s.toWrite[..|s.toWrite| - 1], heap := s.heap[p := []])
  }

  function Refill2(s: Logger): Logger {
    if s.new2.Some? then s
    else if s.toWrite == [] then s.(fault := true)
    else
      var p := s.toWrite[|s.toWrite| - 1];
      s.(new2 := Some(p), toWrite := s.toWrite[..|s.toWrite| - 1], heap := s.heap[p := []])
  }

  predicate InUse(s: Logger, p: Ptr) {
    p == s.current || Some(p) == s.next || p in s.buffers || Some(p) == s.new1 || Some(p) == s.new2
  }

  /** Resizing and clearing `toWrite`: with owning pointers, a buffer not taken back is freed. */
  function Cleared(r: Logger, was: seq<Ptr>): Logger {
    var unused := set p | p in was && !InUse(r, p);
    r.(toWrite := [], pc := Top, heap := if r.moving then r.heap - unused else r.heap)
  }

  /** The state after resizing and taking back the spares. */
  function Refilled(s: Logger): Logger {
    Refill2(Refill1(s.(toWrite := if |s.toWrite| > 2 then s.toWrite[..2] else s.toWrite, written := 0)))
  }

  function DoRecycle(s: Logger): Logger {
    Cleared(Refilled(s), s.toWrite)
  }

  function Next(s: Logger, step: Step): (r: Logger)
    requires WellFormed(s) && Enabled(s, step)
    ensures WellFormed(r)
  {
    match step
    case AppendLine(line, address) => Append(s, line, address)
    case Check => DoCheck(s)
    case Exchange => DoExchange(s)
    case WriteOne => DoWriteOne(s)
    case Recycle => RecycleWellFormed(s); DoRecycle(s)
  }

  lemma Refill1WellFormed(s: Logger)
    requires WellFormed(s) && s.written == 0
    ensures WellFormed(Refill1(s)) && Refill1(s).written == 0
  {
  }

  lemma Refill2WellFormed(s: Logger)
    requires WellFormed(s) && s.written == 0
    ensures WellFormed(Refill2(s)) && Refill2(s).written == 0
  {
  }

  lemma RecycleWellFormed(s: Logger)
    requires WellFormed(s)
    ensures WellFormed(DoRecycle(s))
  {
    var kept := s.(toWrite := if |s.toWrite| > 2 then s.toWrite[..2] else s.toWrite, written := 0);
    Refill1WellFormed(kept);
    Refill2WellFormed(Refill1(kept));
    ClearedWellFormed(Refill2(Refill1(kept)), s.toWrite);
  }

  lemma ClearedWellFormed(r: Logger, was: seq<Ptr>)
    requires WellFormed(r) && r.written == 0
    ensures WellFormed(Cleared(r, was))
  {
  }

  // ----- Conservation -----

  function Flat(heap: Heap, ps: seq<Ptr>): seq<byte>
    requires forall i :: 0 <= i < |ps| ==> ps[i] in heap
  {
    if ps == [] then [] else heap[ps[0]] + Flat(heap, ps[1..])
  }

  /** File, unwritten buffers, full buffers, current buffer. */
  function Stream(s: Logger): seq<byte>
    requires WellFormed(s)
  {
    s.file + Flat(s.heap, s.toWrite[s.written..]) + Flat(s.heap, s.buffers) + s.heap[s.current]
  }

  function Opt(p: Option<Ptr>): multiset<Ptr> {
    if p.Some? then multiset{p.value} else multiset{}
  }

  /** Every buffer in use except `next`, with multiplicity. */
  function Core(s: Logger): multiset<Ptr> {
    multiset(s.toWrite) + multiset(s.buffers) + multiset{s.current} + Opt(s.new1) + Opt(s.new2)
  }

  ghost predicate Distinct(m: multiset<Ptr>) {
    forall p :: m[p] <= 1
  }

  /** `next`, if set, is an empty buffer nobody else holds. */
  predicate Unshared(s: Logger)
    requires WellFormed(s)
  {
    s.next.Some? ==> s.next.value !in Core(s) && s.heap[s.next.value] == []
  }

  /** What holds of the back end's buffers at either end of its loop. */
  predicate Shape(s: Logger) {
    && WellFormed(s) && !s.fault
    && (s.new1.Some? ==> s.heap[s.new1.value] == [])
    && (s.new2.Some? ==> s.heap[s.new2.value] == [])
    && (s.pc != Writing ==> s.new1.Some? && s.new2.Some? && s.toWrite == [])
    && (s.pc == Writing ==> s.new1.None? && |s.toWrite| >= (if s.new2.None? then 2 else 1))
  }

  predicate NextOk(s: Logger)
    requires WellFormed(s)
  {
    if s.moving then
      Unshared(s) && (s.next.None? ==> s.buffers != [])
    else
      s.next.Some? && s.new2.Some? && s.overflows <= 1 && (s.overflows == 0 ==> Unshared(s))
  }

  ghost predicate Inv(s: Logger) {
    Shape(s) && Distinct(Core(s)) && NextOk(s) && Stream(s) == s.accepted
  }

  // ----- Preservation -----

  lemma {:induction false} FlatFrame(h: Heap, h': Heap, ps: seq<Ptr>)
    requires forall i :: 0 <= i < |ps| ==> ps[i] in h && ps[i] in h' && h[ps[i]] == h'[ps[i]]
    ensures Flat(h, ps) == Flat(h', ps)
    decreases |ps|
  {
    if ps != [] {
      FlatFrame(h, h', ps[1..]);
    }
  }

  lemma FlatHead(h: Heap, ps: seq<Ptr>, i: nat)
    requires i < |ps| && forall k :: 0 <= k < |ps| ==> ps[k] in h
    ensures Flat(h, ps[i..]) == h[ps[i]] + Flat(h, ps[i + 1..])
  {
    assert ps[i..][1..] == ps[i + 1..];
  }

  lemma {:induction false} FlatSnoc(h: Heap, ps: seq<Ptr>, p: Ptr)
    requires p in h && forall i :: 0 <= i < |ps| ==> ps[i] in h
    ensures Flat(h, ps + [p]) == Flat(h, ps) + h[p]
    decreases |ps|
  {
    if ps == [] {
      assert [p][1..] == [] && [] + [p] == [p];
    } else {
      assert (ps + [p])[1..] == ps[1..] + [p];
      FlatSnoc(h, ps[1..], p);
      AppendAssoc(h[ps[0]], Flat(h, ps[1..]), h[p]);
    }
  }

  /** Distinctness, pointwise. */
  lemma Apart(s: Logger)
    requires Distinct(Core(s))
    ensures s.current !in s.buffers && s.current !in s.toWrite
    ensures s.new1.Some? ==> s.new1.value !in s.buffers && s.new1.value !in s.toWrite && s.new1.value != s.current
    ensures s.new2.Some? ==> s.new2.value !in s.buffers && s.new2.value !in s.toWrite && s.new2.value != s.current
    ensures forall p :: p in s.toWrite ==> p !in s.buffers
  {
    forall p | p in s.toWrite
      ensures p !in s.buffers
    {
      assert Core(s)[p] <= 1;
    }
    assert Core(s)[s.current] <= 1;
    assert s.new1.Some? ==> Core(s)[s.new1.value] <= 1;
    assert s.new2.Some? ==> Core(s)[s.new2.value] <= 1;
  }

  lemma AppendFitsKeeps(s: Logger, line: seq<byte>, address: Ptr)
    requires Inv(s) && |line| < LARGE_BUFFER - |s.heap[s.current]|
    ensures Inv(Append(s, line, address))
  {
    var r := Append(s, line, address);
    Apart(s);
    FlatFrame(s.heap, r.heap, s.toWrite[s.written..]);
    FlatFrame(s.heap, r.heap, s.buffers);
    AppendAssoc(s.file + Flat(s.heap, s.toWrite[s.written..]) + Flat(s.heap, s.buffers), s.heap[s.current], line);
    assert Core(r) == Core(s);
  }

  /** A full current buffer is replaced by an empty, unshared `p`. */
  lemma ReplaceKeepsStream(s: Logger, r: Logger, p: Ptr, line: seq<byte>)
    requires WellFormed(s) && Distinct(Core(s)) && p !in Core(s)
    requires WellFormed(r) && r.heap == s.heap[p := Fitting(line)]
    requires r.file == s.file && r.toWrite == s.toWrite && r.written == s.written
    requires r.buffers == s.buffers + [s.current] && r.current == p
    ensures Stream(r) == Stream(s) + Fitting(line)
  {
    Apart(s);
    forall i | s.written <= i < |s.toWrite|
      ensures s.toWrite[i] != p
    {
      assert s.toWrite[i] in multiset(s.toWrite);
    }
    forall i | 0 <= i < |s.buffers|
      ensures s.buffers[i] != p
    {
      assert s.buffers[i] in multiset(s.buffers);
    }
    FlatFrame(s.heap, r.heap, s.toWrite[s.written..]);
    FlatFrame(s.heap, r.heap, s.buffers);
    FlatSnoc(r.heap, s.buffers, s.current);
    AppendAssoc(s.file + Flat(s.heap, s.toWrite[s.written..]), Flat(s.heap, s.buffers), s.heap[s.current]);
  }

  lemma AppendToEmpty(heap: Heap, p: Ptr, line: seq<byte>)
    ensures BufferAppend(heap[p := []], p, line) == heap[p := Fitting(line)]
    ensures p in heap && heap[p] == [] ==> heap[p := []] == heap
  {
    AppendAssoc(line, [], []);
  }

  lemma OutsideHeapOutsideCore(s: Logger, address: Ptr)
    requires WellFormed(s) && address !in s.heap
    ensures address !in Core(s)
  {
    assert address in multiset(s.toWrite) ==> address in s.toWrite;
    assert address in multiset(s.buffers) ==> address in s.buffers;
  }

  lemma ReplaceKeepsCore(s: Logger, r: Logger, p: Ptr)
    requires r.toWrite == s.toWrite && r.new1 == s.new1 && r.new2 == s.new2
    requires r.buffers == s.buffers + [s.current] && r.current == p
    requires Distinct(Core(s)) && p !in Core(s)
    ensures Core(r) == Core(s) + multiset{p} && Distinct(Core(r))
  {
    assert multiset(s.buffers + [s.current]) == multiset(s.buffers) + multiset{s.current};
  }

  lemma ReplaceKeepsShape(s: Logger, r: Logger, p: Ptr, line: seq<byte>)
    requires Shape(s) && p !in Core(s)
    requires r.heap == s.heap[p := Fitting(line)]
    requires r == s.(heap := r.heap, accepted := r.accepted, overflows := r.overflows,
                     current := p, next := r.next, buffers := s.buffers + [s.current])
    requires r.next.Some? ==> r.next.value in r.heap
    ensures Shape(r)
  {
    assert s.new1.Some? ==> s.new1.value in Core(s);
    assert s.new2.Some? ==> s.new2.value in Core(s);
  }

  lemma AppendOverflowKeeps(s: Logger, line: seq<byte>, address: Ptr)
    requires Inv(s) && address !in s.heap
    requires LARGE_BUFFER - |s.heap[s.current]| <= |line|
    requires s.moving || s.overflows == 0
    ensures Inv(Append(s, line, address))
  {
    var r := Append(s, line, address);
    var p := if s.next.Some? then s.next.value else address;
    OutsideHeapOutsideCore(s, address);
    AppendToEmpty(s.heap, p, line);
    ReplaceKeepsShape(s, r, p, line);
    ReplaceKeepsCore(s, r, p);
    ReplaceKeepsStream(s, r, p, line);
  }

  /** The assertions at the head of the loop hold. */
  lemma CheckKeeps(s: Logger)
    requires Inv(s) && s.pc == Top
    ensures DoCheck(s) == s.(pc := Waiting) && Inv(DoCheck(s))
  {
  }

  lemma ExchangeKeepsCore(s: Logger)
    requires Shape(s) && Distinct(Core(s)) && s.pc == Waiting
    ensures var r := DoExchange(s);
            Distinct(Core(r)) && Core(s) == Core(r) + (if s.next.None? then Opt(s.new2) else multiset{})
  {
    var r := DoExchange(s);
    assert multiset(s.buffers + [s.current]) == multiset(s.buffers) + multiset{s.current};
    assert Core(s) == multiset(s.buffers) + multiset{s.current} + Opt(s.new1) + Opt(s.new2);
    assert Core(r) == multiset(r.toWrite) + Opt(s.new1) + Opt(r.new2);
    assert forall p :: Core(r)[p] <= Core(s)[p];
  }

  lemma ExchangeWellFormed(s: Logger)
    requires Shape(s) && s.pc == Waiting
    ensures WellFormed(DoExchange(s))
  {
  }

  lemma Regroup(a: seq<byte>, b: seq<byte>, c: seq<byte>)
    ensures a + [] + b + c == a + (b + c) + [] + []
  {
  }

  lemma ExchangeKeepsStream(s: Logger)
    requires Shape(s) && s.pc == Waiting
    ensures WellFormed(DoExchange(s)) && Stream(DoExchange(s)) == Stream(s)
  {
    var r := DoExchange(s);
    FlatSnoc(s.heap, s.buffers, s.current);
    assert s.toWrite[s.written..] == [] && r.toWrite[0..] == r.toWrite;
    var full, last := Flat(s.heap, s.buffers), s.heap[s.current];
    ExchangeWellFormed(s);
    Regroup(s.file, full, last);
  }

  lemma ExchangeKeeps(s: Logger)
    requires Inv(s) && s.pc == Waiting
    ensures Inv(DoExchange(s))
  {
    ExchangeKeepsCore(s);
    ExchangeKeepsStream(s);
    if s.next.None? {
      assert Core(s)[s.new2.value] <= 1;
    }
  }

  lemma WriteOneKeeps(s: Logger)
    requires Inv(s) && s.pc == Writing && s.written < |s.toWrite|
    ensures Inv(DoWriteOne(s))
  {
    var r := DoWriteOne(s);
    FlatHead(s.heap, s.toWrite, s.written);
    AppendAssoc(s.file, s.heap[s.toWrite[s.written]], Flat(s.heap, s.toWrite[s.written + 1..]));
    assert Core(r) == Core(s);
  }

  /** The buffers taken back: the second of the first two, and the first when both spares are gone. */
  function Taken1(s: Logger): Ptr
    requires s.toWrite != []
  {
    if |s.toWrite| >= 2 then s.toWrite[1] else s.toWrite[0]
  }

  function Taken(s: Logger): multiset<Ptr>
    requires s.toWrite != []
  {
    if s.new2.None? then multiset{Taken1(s), s.toWrite[0]} else multiset{Taken1(s)}
  }

  lemma RecycleForm(s: Logger)
    requires Shape(s) && s.pc == Writing
    ensures var r := DoRecycle(s);
            r == s.(toWrite := [], written := 0, pc := Top, new1 := Some(Taken1(s)), heap := r.heap,
                    new2 := if s.new2.None? then Some(s.toWrite[0]) else s.new2)
  {
  }

  /** Buffers in use stay, those taken back empty; with owning pointers the others go. */
  lemma RecycleHeap(s: Logger)
    requires Shape(s) && s.pc == Writing
    ensures var r := DoRecycle(s);
            && (forall p :: p in r.heap ==> p in s.heap)
            && (forall p :: InUse(r, p) && p in s.heap ==>
                  p in r.heap && r.heap[p] == if p in Taken(s) then [] else s.heap[p])
            && (forall p :: r.moving && p in s.toWrite && !InUse(r, p) ==> p !in r.heap)
  {
    var mid := Refilled(s);
    RefilledHeap(s);
    ClearedHeap(mid, s.toWrite);
  }

  lemma RefilledHeap(s: Logger)
    requires Shape(s) && s.pc == Writing
    ensures var m := Refilled(s);
            m.moving == s.moving && m.heap.Keys == s.heap.Keys &&
            forall p :: p in s.heap ==> m.heap[p] == if p in Taken(s) then [] else s.heap[p]
  {
  }

  lemma ClearedHeap(m: Logger, was: seq<Ptr>)
    ensures var r := Cleared(m, was);
            && (forall p :: InUse(r, p) <==> InUse(m, p))
            && (forall p :: p in r.heap <==> p in m.heap && !(m.moving && p in was && !InUse(m, p)))
            && (forall p :: p in r.heap ==> r.heap[p] == m.heap[p])
  {
  }

  lemma TakenFromWritten(s: Logger)
    requires Shape(s) && s.pc == Writing
    ensures Taken(s) <= multiset(s.toWrite)
    ensures s.toWrite[0] in s.toWrite && Taken1(s) in s.toWrite
  {
    if |s.toWrite| >= 2 {
      assert s.toWrite == [s.toWrite[0], s.toWrite[1]] + s.toWrite[2..];
    }
  }

  lemma RecycleKeepsCore(s: Logger)
    requires Shape(s) && Distinct(Core(s)) && s.pc == Writing
    ensures Core(DoRecycle(s)) <= Core(s) && Distinct(Core(DoRecycle(s)))
  {
    RecycleForm(s);
    TakenFromWritten(s);
    var r := DoRecycle(s);
    assert Core(r) == multiset(s.buffers) + multiset{s.current} + Opt(s.new2) + Taken(s);
    assert forall p :: Core(r)[p] <= Core(s)[p];
  }

  /** The full and the current buffers are in use and were not taken back. */
  lemma RecycleKeepsTexts(s: Logger)
    requires Shape(s) && Distinct(Core(s)) && s.pc == Writing
    ensures var r := DoRecycle(s);
            && s.current in r.heap && r.heap[s.current] == s.heap[s.current]
            && forall i :: 0 <= i < |s.buffers| ==>
                 s.buffers[i] in r.heap && r.heap[s.buffers[i]] == s.heap[s.buffers[i]]
  {
    RecycleForm(s);
    RecycleHeap(s);
    TakenFromWritten(s);
    Apart(s);
    var r := DoRecycle(s);
    forall i | 0 <= i < |s.buffers|
      ensures InUse(r, s.buffers[i]) && s.buffers[i] !in Taken(s)
    {
    }
  }

  lemma RecycleKeepsStream(s: Logger)
    requires Shape(s) && Distinct(Core(s)) && s.pc == Writing && s.written == |s.toWrite|
    ensures WellFormed(DoRecycle(s)) && Stream(DoRecycle(s)) == Stream(s)
  {
    var r := DoRecycle(s);
    RecycleForm(s);
    RecycleWellFormed(s);
    RecycleKeepsTexts(s);
    FlatFrame(s.heap, r.heap, s.buffers);
    assert s.toWrite[s.written..] == [] && r.toWrite[r.written..] == [];
  }

  lemma RecycleKeeps(s: Logger)
    requires Inv(s) && s.pc == Writing && s.written == |s.toWrite|
    ensures Inv(DoRecycle(s))
  {
    RecycleForm(s);
    RecycleHeap(s);
    TakenFromWritten(s);
    RecycleKeepsCore(s);
    RecycleKeepsStream(s);
    Apart(s);
    assert s.toWrite[0] in multiset(s.toWrite) && Taken1(s) in multiset(s.toWrite);
  }

  // ----- One undisturbed turn of the back end -----

  function WriteAll(s: Logger): Logger
    requires WellFormed(s)
  {
    s.(file := s.file + Flat(s.heap, s.toWrite[s.written..]), written := |s.toWrite|)
  }

  lemma WriteAllKeeps(s: Logger)
    requires Inv(s) && s.pc == Writing
    ensures Inv(WriteAll(s))
  {
    var r := WriteAll(s);
    assert r.toWrite[r.written..] == [];
    AppendAssoc(r.file, [], []);
    assert Core(r) == Core(s);
  }

  function Turn(s: Logger): Logger
    requires Shape(s) && s.pc == Top
  {
    DoRecycle(WriteAll(DoExchange(DoCheck(s))))
  }

  lemma ExchangeEmpties(s: Logger)
    requires Shape(s) && s.pc == Waiting
    ensures var r := DoExchange(s);
            && r.pc == Writing && r.accepted == s.accepted && r.buffers == []
            && r.current in r.heap && r.heap[r.current] == []
  {
  }

  lemma WrittenIsFile(s: Logger)
    requires WellFormed(s) && s.written == |s.toWrite| && s.buffers == [] && s.heap[s.current] == []
    ensures Stream(s) == s.file
  {
    assert s.toWrite[s.written..] == [];
    AppendAssoc(s.file, [], []);
  }

  lemma RecycleKeepsFile(s: Logger)
    ensures var r := DoRecycle(s);
            && r.file == s.file && r.accepted == s.accepted && r.pc == Top
            && r.overflows == s.overflows && r.moving == s.moving
  {
  }

  /** It brings every accepted line into the file and leaves the loop's assertions true again. */
  lemma TurnDelivers(s: Logger)
    requires Inv(s) && s.pc == Top
    ensures Inv(Turn(s)) && Turn(s).pc == Top && Turn(s).file == s.accepted == Turn(s).accepted
  {
    var s0 := DoCheck(s);
    CheckKeeps(s);
    ExchangeKeeps(s0);
    ExchangeEmpties(s0);
    var s1 := DoExchange(s0);
    WriteAllKeeps(s1);
    WrittenIsFile(WriteAll(s1));
    RecycleKeeps(WriteAll(s1));
    RecycleKeepsFile(WriteAll(s1));
  }

  // ----- Whole runs -----

  ghost predicate EnabledRun(s: Logger, steps: seq<Step>)
    requires WellFormed(s)
    decreases |steps|
  {
    steps == [] || (Enabled(s, steps[0]) && EnabledRun(Next(s, steps[0]), steps[1..]))
  }

  ghost function Run(s: Logger, steps: seq<Step>): (r: Logger)
    requires WellFormed(s) && EnabledRun(s, steps)
    ensures WellFormed(r)
    decreases |steps|
  {
    if steps == [] then s else Run(Next(s, steps[0]), steps[1..])
  }

  lemma StepGrows(s: Logger, step: Step)
    requires WellFormed(s) && Enabled(s, step)
    ensures s.overflows <= Next(s, step).overflows && s.moving == Next(s, step).moving
  {
    if step == Recycle {
      RecycleKeepsFile(s);
    }
  }

  lemma {:induction false} OverflowsGrow(s: Logger, steps: seq<Step>)
    requires WellFormed(s) && EnabledRun(s, steps)
    ensures s.overflows <= Run(s, steps).overflows && s.moving == Run(s, steps).moving
    decreases |steps|
  {
    if steps != [] {
      StepGrows(s, steps[0]);
      OverflowsGrow(Next(s, steps[0]), steps[1..]);
    }
  }

  lemma StepKeeps(s: Logger, step: Step)
    requires Inv(s) && Enabled(s, step)
    requires Next(s, step).moving || Next(s, step).overflows <= 1
    ensures Inv(Next(s, step))
  {
    match step
    case AppendLine(line, address) =>
      if |line| < LARGE_BUFFER - |s.heap[s.current]| {
        AppendFitsKeeps(s, line, address);
      } else {
        AppendOverflowKeeps(s, line, address);
      }
    case Check => CheckKeeps(s);
    case Exchange => ExchangeKeeps(s);
    case WriteOne => WriteOneKeeps(s);
    case Recycle => RecycleKeeps(s);
  }

  lemma {:induction false} RunKeeps(s: Logger, steps: seq<Step>)
    requires Inv(s) && EnabledRun(s, steps)
    requires Run(s, steps).moving || Run(s, steps).overflows <= 1
    ensures Inv(Run(s, steps))
    decreases |steps|
  {
    if steps != [] {
      var t := Next(s, steps[0]);
      OverflowsGrow(t, steps[1..]);
      StepKeeps(s, steps[0]);
      RunKeeps(t, steps[1..]);
    }
  }

  lemma InitialInv(moving: bool)
    ensures Inv(Initial(moving))
  {
    var s := Initial(moving);
    assert Core(s) == multiset{0, 2, 3};
  }

  // ----- What the lines of a run have to do with the stream -----

  /** Everything given to `append`, in order. */
  function Appended(steps: seq<Step>): seq<byte> {
    if steps == [] then []
    else (if steps[0].AppendLine? then steps[0].line else []) + Appended(steps[1..])
  }

  /** The same without the lines as long as a buffer. */
  function Kept(steps: seq<Step>): seq<byte> {
    if steps == [] then []
    else (if steps[0].AppendLine? then Fitting(steps[0].line) else []) + Kept(steps[1..])
  }

  predicate AllFit(steps: seq<Step>) {
    forall i :: 0 <= i < |steps| && steps[i].AppendLine? ==> |steps[i].line| < LARGE_BUFFER
  }

  lemma AllFitSplit(steps: seq<Step>)
    requires steps != []
    ensures AllFit(steps) <==> (steps[0].AppendLine? ==> |steps[0].line| < LARGE_BUFFER) && AllFit(steps[1..])
  {
    assert forall i :: 0 < i < |steps| ==> steps[i] == steps[1..][i - 1];
  }

  lemma {:induction false} KeptIsAppendedExactly(steps: seq<Step>)
    ensures |Kept(steps)| <= |Appended(steps)|
    ensures AllFit(steps) ==> Kept(steps) == Appended(steps)
    ensures !AllFit(steps) ==> |Kept(steps)| < |Appended(steps)|
    decreases |steps|
  {
    if steps != [] {
      KeptIsAppendedExactly(steps[1..]);
      AllFitSplit(steps);
    }
  }

  lemma StepAccepts(s: Logger, step: Step)
    requires WellFormed(s) && Enabled(s, step)
    ensures Next(s, step).accepted == s.accepted + (if step.AppendLine? then Fitting(step.line) else [])
  {
    AppendAssoc(s.accepted, [], []);
    if step == Recycle {
      RecycleKeepsFile(s);
    }
  }

  lemma {:induction false} AcceptedIsKept(s: Logger, steps: seq<Step>)
    requires WellFormed(s) && EnabledRun(s, steps)
    ensures Run(s, steps).accepted == s.accepted + Kept(steps)
    decreases |steps|
  {
    AppendAssoc(s.accepted, [], []);
    if steps != [] {
      StepAccepts(s, steps[0]);
      AcceptedIsKept(Next(s, steps[0]), steps[1..]);
      AppendAssoc(s.accepted, if steps[0].AppendLine? then Fitting(steps[0].line) else [], Kept(steps[1..]));
    }
  }

  /** No assertion of the back end failed; of the lines that fit, none is lost, repeated or out of place. */
  ghost predicate Lossless(moving: bool, steps: seq<Step>)
    requires EnabledRun(Initial(moving), steps)
  {
    var s := Run(Initial(moving), steps);
    !s.fault && Stream(s) == Kept(steps)
  }

  lemma LosslessWhile(moving: bool, steps: seq<Step>)
    requires EnabledRun(Initial(moving), steps) && (moving || Run(Initial(moving), steps).overflows <= 1)
    ensures Inv(Run(Initial(moving), steps)) && Lossless(moving, steps)
  {
    InitialInv(moving);
    OverflowsGrow(Initial(moving), steps);
    RunKeeps(Initial(moving), steps);
    AcceptedIsKept(Initial(moving), steps);
    AppendAssoc(Kept(steps), [], []);
  }

  // ----- With owning pointers -----

  /** Every buffer that exists is in use. */
  ghost predicate NoLeak(s: Logger) {
    forall p :: p in s.heap ==> InUse(s, p) || p in s.toWrite
  }

  lemma RecycleKeepsNoLeak(s: Logger)
    requires s.moving && Shape(s) && NoLeak(s) && s.pc == Writing
    ensures NoLeak(DoRecycle(s))
  {
    RecycleForm(s);
    RecycleHeap(s);
  }

  lemma AppendKeepsNoLeak(s: Logger, line: seq<byte>, address: Ptr)
    requires WellFormed(s) && NoLeak(s)
    ensures NoLeak(Append(s, line, address))
  {
    var r := Append(s, line, address);
    assert r.current != s.current ==> r.buffers == s.buffers + [s.current];
    assert forall p :: InUse(s, p) ==> InUse(r, p);
  }

  lemma ExchangeKeepsNoLeak(s: Logger)
    requires Shape(s) && NoLeak(s) && s.pc == Waiting
    ensures NoLeak(DoExchange(s))
  {
    var r := DoExchange(s);
    assert forall p :: InUse(s, p) ==> InUse(r, p) || p in r.toWrite;
  }

  lemma StepKeepsNoLeak(s: Logger, step: Step)
    requires s.moving && Inv(s) && NoLeak(s) && Enabled(s, step)
    ensures NoLeak(Next(s, step))
  {
    match step
    case AppendLine(line, address) => AppendKeepsNoLeak(s, line, address);
    case Check => CheckKeeps(s);
    case Exchange => ExchangeKeepsNoLeak(s);
    case WriteOne =>
    case Recycle => RecycleKeepsNoLeak(s);
  }

  lemma {:induction false} RunKeepsNoLeak(s: Logger, steps: seq<Step>)
    requires s.moving && Inv(s) && NoLeak(s) && EnabledRun(s, steps)
    ensures NoLeak(Run(s, steps))
    decreases |steps|
  {
    if steps != [] {
      StepGrows(s, steps[0]);
      StepKeeps(s, steps[0]);
      StepKeepsNoLeak(s, steps[0]);
      RunKeepsNoLeak(Next(s, steps[0]), steps[1..]);
    }
  }

  /** With buffers moved, every interleaving is lossless, no two roles share a buffer, and none leaks. */
  lemma MovingBuffersAreLossless(steps: seq<Step>)
    requires EnabledRun(Initial(true), steps)
    ensures var s := Run(Initial(true), steps);
            && Lossless(true, steps)
            && Distinct(Core(s) + Opt(s.next)) && (s.next.None? ==> s.buffers != []) && NoLeak(s)
  {
    InitialInv(true);
    OverflowsGrow(Initial(true), steps);
    LosslessWhile(true, steps);
    RunKeepsNoLeak(Initial(true), steps);
  }

  /**
   In either form, as long as it is lossless at all: everything given to `append` is there, in
   order, exactly when no line was as long as a buffer.
   */
  lemma DroppedExactly(moving: bool, steps: seq<Step>)
    requires EnabledRun(Initial(moving), steps) && (moving || Run(Initial(moving), steps).overflows <= 1)
    ensures Stream(Run(Initial(moving), steps)) == Appended(steps) <==> AllFit(steps)
  {
    LosslessWhile(moving, steps);
    KeptIsAppendedExactly(steps);
  }

  /** Such a line, whatever it says, leaves nothing behind. */
  lemma OversizeLineIsDropped(moving: bool, line: seq<byte>)
    requires LARGE_BUFFER <= |line|
    ensures var steps := [AppendLine(line, 4)];
            && EnabledRun(Initial(moving), steps)
            && Appended(steps) == line && Stream(Run(Initial(moving), steps)) == []
  {
    var steps := [AppendLine(line, 4)];
    assert steps[1..] == [];
    AppendAssoc(line, [], []);
    LosslessWhile(moving, steps);
  }

  // ----- With raw pointers -----

  /** Lossless as long as at most `k` overflows happen and lines have at most `longest` bytes. */
  ghost predicate LosslessUpTo(k: nat, longest: nat) {
    forall steps :: EnabledRun(Initial(false), steps) ==>
      LinesUpTo(steps, longest) && Run(Initial(false), steps).overflows <= k ==> Lossless(false, steps)
  }

  lemma {:induction false} RunSplit(s: Logger, a: seq<Step>, b: seq<Step>)
    requires WellFormed(s)
    ensures EnabledRun(s, a + b) <==> EnabledRun(s, a) && EnabledRun(Run(s, a), b)
    ensures EnabledRun(s, a + b) ==> Run(s, a + b) == Run(Run(s, a), b)
    decreases |a|
  {
    if a == [] {
      assert a + b == b;
    } else {
      assert (a + b)[1..] == a[1..] + b;
      if Enabled(s, a[0]) {
        RunSplit(Next(s, a[0]), a[1..], b);
      }
    }
  }

  const LETTER: byte := 97

  function Letters(n: nat): (text: seq<byte>)
    ensures |text| == n
  {
    seq(n, _ => LETTER)
  }

  /** `n` lines of one byte each. */
  function Lines(n: nat): seq<Step> {
    seq(n, _ => AppendLine([LETTER], 4))
  }

  /** The logger with `n` more letters in its current buffer. */
  function Filled(s: Logger, n: nat): (r: Logger)
    requires WellFormed(s)
    ensures WellFormed(r)
  {
    s.(heap := s.heap[s.current := s.heap[s.current] + Letters(n)], accepted := s.accepted + Letters(n))
  }

  lemma FilledOnce(s: Logger, n: nat)
    requires WellFormed(s) && |s.heap[s.current]| + 1 < LARGE_BUFFER
    ensures Filled(Append(s, [LETTER], 4), n) == Filled(s, n + 1)
  {
    assert Letters(n + 1) == [LETTER] + Letters(n);
    AppendAssoc(s.heap[s.current], [LETTER], Letters(n));
    AppendAssoc(s.accepted, [LETTER], Letters(n));
  }

  /** Short lines fill the current buffer as long as a byte stays free. */
  lemma {:induction false} Fill(s: Logger, n: nat)
    requires WellFormed(s) && 4 !in s.heap && |s.heap[s.current]| + n < LARGE_BUFFER
    ensures EnabledRun(s, Lines(n)) && Run(s, Lines(n)) == Filled(s, n)
    decreases n
  {
    if n == 0 {
      AppendAssoc(s.heap[s.current], [], []);
      AppendAssoc(s.accepted, [], []);
      assert Letters(0) == [];
    } else {
      assert Lines(n)[1..] == Lines(n - 1);
      var t := Append(s, [LETTER], 4);
      FilledOnce(s, n - 1);
      Fill(t, n - 1);
    }
  }

  const ROOM: nat := LARGE_BUFFER - 1

  /** The first buffer is full, and the first line in its successor comes. */
  lemma FirstOverflow(s: Logger)
    requires WellFormed(s) && 4 !in s.heap && |s.heap[s.current]| == ROOM
    requires !s.moving && s.next.Some? && s.next.value != s.current && s.heap[s.next.value] == []
    ensures EnabledRun(s, Lines(1))
    ensures var r := Run(s, Lines(1));
            r == s.(heap := s.heap[s.next.value := [LETTER]], current := s.next.value, overflows := s.overflows + 1,
                    buffers := s.buffers + [s.current], accepted := s.accepted + [LETTER])
  {
    assert [] + [LETTER] == [LETTER];
    assert Lines(1)[1..] == [];
  }

  /** `next` still names the full current buffer, so the line finds no room and is dropped. */
  lemma SecondOverflow(s: Logger)
    requires WellFormed(s) && 4 !in s.heap && |s.heap[s.current]| == ROOM
    requires !s.moving && s.next == Some(s.current)
    ensures EnabledRun(s, Lines(1))
    ensures Run(s, Lines(1)) == s.(accepted := s.accepted + [LETTER], buffers := s.buffers + [s.current],
                                   overflows := s.overflows + 1)
  {
    assert s.heap[s.current := s.heap[s.current]] == s.heap;
    assert Lines(1)[1..] == [];
  }

  lemma FlatTwo(heap: Heap)
    requires 0 in heap && 1 in heap
    ensures Flat(heap, [0, 1]) == heap[0] + heap[1]
  {
    FlatSnoc(heap, [0], 1);
    FlatSnoc(heap, [], 0);
    assert [] + [0] == [0] && [0] + [1] == [0, 1];
    AppendAssoc(heap[0], [], []);
  }

  lemma StreamOfTwo(s: Logger)
    requires WellFormed(s) && s.toWrite == [] && s.file == [] && s.buffers == [0, 1]
    ensures 0 in s.heap && 1 in s.heap && Stream(s) == s.heap[0] + s.heap[1] + s.heap[s.current]
  {
    assert s.buffers[0] in s.heap && s.buffers[1] in s.heap;
    FlatTwo(s.heap);
    assert s.toWrite[s.written..] == [];
    AppendAssoc(s.heap[0] + s.heap[1], [], []);
  }

  /** No line is longer than `longest`. */
  ghost predicate LinesUpTo(steps: seq<Step>, longest: nat) {
    forall i :: 0 <= i < |steps| && steps[i].AppendLine? ==> |steps[i].line| <= longest
  }

  /** Two full buffers of one-byte lines and one more: the state it leads to. */
  lemma LosingRun(steps: seq<Step>) returns (s: Logger)
    requires steps == Lines(ROOM) + Lines(1) + Lines(ROOM - 1) + Lines(1)
    ensures EnabledRun(Initial(false), steps) && s == Run(Initial(false), steps)
    ensures s.overflows == 2 && s.toWrite == [] && s.file == [] && s.buffers == [0, 1] && s.current == 1
    ensures 0 in s.heap && 1 in s.heap && |s.heap[0]| == |s.heap[1]| == ROOM && |s.accepted| == 2 * ROOM + 1
  {
    var s0 := Initial(false);
    Fill(s0, ROOM);
    var s1 := Filled(s0, ROOM);
    FirstOverflow(s1);
    var s2 := Run(s1, Lines(1));
    Fill(s2, ROOM - 1);
    var s3 := Filled(s2, ROOM - 1);
    SecondOverflow(s3);
    s := Run(s3, Lines(1));
    RunSplit(s0, Lines(ROOM), Lines(1));
    RunSplit(s0, Lines(ROOM) + Lines(1), Lines(ROOM - 1));
    RunSplit(s0, Lines(ROOM) + Lines(1) + Lines(ROOM - 1), Lines(1));
  }

  /** The second overflow finds `next` aliasing the full current buffer, and the line is lost. */
  lemma TwoOverflowsLose() returns (steps: seq<Step>)
    ensures EnabledRun(Initial(false), steps) && LinesUpTo(steps, 1)
    ensures Run(Initial(false), steps).overflows == 2 && !Lossless(false, steps)
  {
    steps := Lines(ROOM) + Lines(1) + Lines(ROOM - 1) + Lines(1);
    var s := LosingRun(steps);
    StreamOfTwo(s);
    AcceptedIsKept(Initial(false), steps);
    AppendAssoc(Kept(steps), [], []);
    assert |Stream(s)| == 3 * ROOM;
  }

  /** The code as written, whatever the longest line, is lossless exactly as long as at most one overflow happens. */
  lemma RawPointersLosslessExactly(k: nat, longest: nat)
    requires 0 < longest
    ensures LosslessUpTo(k, longest) <==> k <= 1
  {
    if k <= 1 {
      forall steps | EnabledRun(Initial(false), steps) && Run(Initial(false), steps).overflows <= k
        ensures Lossless(false, steps)
      {
        LosslessWhile(false, steps);
      }
    } else {
      var steps := TwoOverflowsLose();
      assert LinesUpTo(steps, longest);
    }
  }

  // ----- The object -----

  /** The local variables of `threadFunc` and its output file. */
  datatype Back = Back(
    new1: Option<Ptr>,
    new2: Option<Ptr>,
    toWrite: seq<Ptr>,
    written: nat,
    file: seq<byte>,
    pc: Pc,
    fault: bool)

  class AsyncLogging {
    const moving: bool
    var heap: Heap
    var current: Ptr
    var next: Option<Ptr>
    var buffers: seq<Ptr>
    ghost var accepted: seq<byte>
    ghost var overflows: nat

    /** The whole logger, given where its back end stands. */
    ghost function With(b: Back): Logger
      reads this
    {
      Logger(moving, heap, current, next, buffers, b.new1, b.new2, b.toWrite, b.written, b.file, b.pc,
             accepted, overflows, b.fault)
    }

    constructor (moving: bool)
      ensures With(Back(Some(2), Some(3), [], 0, [], Top, false)) == Initial(moving)
    {
      this.moving := moving;
      heap := map[0 := [], 1 := [], 2 := [], 3 := []];
      current, next, buffers := 0, Some(1), [];
      accepted, overflows := [], 0;
    }

    /** `append`, under the mutex, wherever the back end stands. */
    method AppendText(line: seq<byte>, address: Ptr, ghost b: Back)
      requires WellFormed(With(b)) && address !in heap
      modifies this
      ensures With(b) == Append(old(With(b)), line, address)
    {
      accepted := accepted + Fitting(line);
      if |line| < LARGE_BUFFER - |heap[current]| {
        heap := BufferAppend(heap, current, line);
      } else {
        buffers, overflows := buffers + [current], overflows + 1;
        TakeNext(address);
        heap := BufferAppend(heap, current, line);
      }
    }

    /** The next buffer if there is one, else a new one. */
    method TakeNext(address: Ptr)
      modifies this`heap, this`current, this`next
      ensures match old(next)
              case Some(p) => current == p && heap == old(heap) && next == if moving then None else old(next)
              case None => current == address && heap == old(heap)[address := []] && next == None
    {
      if next.Some? {
        current := next.value;
        if moving {
          next := None;
        }
      } else {
        heap, current := heap[address := []], address;
      }
    }

    /** The assertions at the head of the back end's loop. */
    method CheckSpares(b: Back) returns (r: Back)
      requires WellFormed(With(b)) && b.pc == Top
      ensures With(r) == DoCheck(With(b))
    {
      if b.new1.None? || heap[b.new1.value] != [] || b.new2.None? || heap[b.new2.value] != [] || b.toWrite != [] {
        return b.(fault := true);
      }
      r := b.(pc := Waiting);
    }

    /** The back end's section under the mutex, after any wait. */
    method ExchangeBuffers(b: Back) returns (r: Back)
      requires WellFormed(With(b)) && b.pc == Waiting
      modifies this`current, this`next, this`buffers
      ensures With(r) == DoExchange(old(With(b)))
    {
      if b.new1.None? {
        return b.(fault := true);
      }
      r := b.(toWrite := buffers + [current], written := 0, pc := Writing, new1 := None);
      current, buffers := b.new1.value, [];
      if next.None? {
        next := b.new2;
        r := r.(new2 := None);
      }
    }

    /** The loop over `buffersToWrite`. */
    method WriteOut(b: Back) returns (r: Back)
      requires b.written <= |b.toWrite| && forall i :: 0 <= i < |b.toWrite| ==> b.toWrite[i] in heap
      ensures r == b.(file := b.file + Flat(heap, b.toWrite[b.written..]), written := |b.toWrite|)
    {
      var i, file := b.written, b.file;
      ghost var all := b.file + Flat(heap, b.toWrite[b.written..]);
      while i < |b.toWrite|
        invariant i <= |b.toWrite|
        invariant file + Flat(heap, b.toWrite[i..]) == all
      {
        FlatHead(heap, b.toWrite, i);
        AppendAssoc(file, heap[b.toWrite[i]], Flat(heap, b.toWrite[i + 1..]));
        file := file + heap[b.toWrite[i]];
        i := i + 1;
      }
      AppendAssoc(file, [], []);
      r := b.(file := file, written := i);
    }

    /** A spare is taken back from the end of `buffersToWrite` and emptied. */
    method TakeBack(toWrite: seq<Ptr>) returns (p: Ptr, rest: seq<Ptr>)
      requires toWrite != []
      modifies this`heap
      ensures p == toWrite[|toWrite| - 1] && rest == toWrite[..|toWrite| - 1] && heap == old(heap)[p := []]
    {
      p, rest := toWrite[|toWrite| - 1], toWrite[..|toWrite| - 1];
      heap := heap[p := []];
    }

    /** Resizing, and taking back the spares. */
    method TakeSpares(b: Back) returns (r: Back)
      modifies this`heap
      ensures var kept := if |b.toWrite| > 2 then b.toWrite[..2] else b.toWrite;
              With(r) == Refill2(Refill1(old(With(b)).(toWrite := kept, written := 0)))
    {
      r := b.(toWrite := if |b.toWrite| > 2 then b.toWrite[..2] else b.toWrite, written := 0);
      if r.new1.None? {
        if r.toWrite == [] {
          r := r.(fault := true);
        } else {
          var p, rest := TakeBack(r.toWrite);
          r := r.(new1 := Some(p), toWrite := rest);
        }
      }
      if r.new2.None? {
        if r.toWrite == [] {
          r := r.(fault := true);
        } else {
          var p, rest := TakeBack(r.toWrite);
          r := r.(new2 := Some(p), toWrite := rest);
        }
      }
    }

    /** Resizing, taking back the spares and clearing. */
    method RecycleBuffers(b: Back) returns (r: Back)
      modifies this`heap
      ensures With(r) == DoRecycle(old(With(b)))
    {
      var x := TakeSpares(b);
      r := Clear(x, b.toWrite);
    }

    /** `buffersToWrite` held `was`; what nobody took back goes. */
    method Clear(b: Back, was: seq<Ptr>) returns (r: Back)
      modifies this`heap
      ensures With(r) == Cleared(old(With(b)), was)
    {
      r := b.(toWrite := [], pc := Top);
      if moving {
        heap := heap - set p | p in was && !(
          p == current || Some(p) == next || p in buffers || Some(p) == b.new1 || Some(p) == b.new2);
      }
    }

    /** The body of the `while` loop, undisturbed by `append`. */
    method BackEndTurn(b: Back) returns (r: Back)
      requires Shape(With(b)) && b.pc == Top
      modifies this`heap, this`current, this`next, this`buffers
      ensures With(r) == Turn(old(With(b)))
    {
      var w := CheckSpares(b);
      var x := ExchangeBuffers(w);
      var y := WriteOut(x);
      assert With(y) == WriteAll(DoExchange(old(With(b))));
      r := RecycleBuffers(y);
    }
  }
}
