/**
 Timers (src/TimerQueue.cpp, src/Timer.cpp): an ordered set of (expiration, address) pairs, the
 heap of timer objects behind it, and the timerfd that is armed for the earliest expiration.
 Times are microseconds.
 */
module Timers {
  import opened Bytes

  type Addr = nat

  const UINTPTR_MAX: nat := 0xFFFF_FFFF_FFFF_FFFF
  const MICROS_PER_SECOND: int := 1000 * 1000

  // ----- Arithmetic -----

  datatype Timespec = Timespec(sec: int, nsec: int)

  function Max(a: int, b: int): int {
    if a <= b then b else a
  }

  /** `howMuchTimeFromNow`, the clock reading given; the quotient and remainder are of a positive number. */
  function HowMuchTimeFromNow(when: int, clock: int): Timespec {
    var micros := if when - clock < 100 then 100 else when - clock;
    Timespec(micros / MICROS_PER_SECOND, (micros % MICROS_PER_SECOND) * 1000)
  }

  /** Normalised, never zero (zero would disarm the timerfd) and exactly the clamped delay. */
  lemma TimespecIsExact(when: int, clock: int)
    ensures var ts := HowMuchTimeFromNow(when, clock);
            && 0 <= ts.sec && 0 <= ts.nsec < 1_000_000_000
            && (ts.sec, ts.nsec) != (0, 0)
            && ts.sec * 1_000_000_000 + ts.nsec == 1000 * Max(when - clock, 100)
  {
    var micros := Max(when - clock, 100);
    assert micros == MICROS_PER_SECOND * (micros / MICROS_PER_SECOND) + micros % MICROS_PER_SECOND;
  }

  /** When a timerfd armed with `ts` at `clock` fires. */
  function Deadline(ts: Timespec, clock: int): int {
    clock + ts.sec * MICROS_PER_SECOND + ts.nsec / 1000
  }

  lemma DeadlineIsExact(when: int, clock: int)
    ensures Deadline(HowMuchTimeFromNow(when, clock), clock) == Max(when, clock + 100)
  {
    TimespecIsExact(when, clock);
  }

  /** The cast of a `double` number of seconds to whole microseconds drops the fraction. */
  function Micros(seconds: real): int {
    var m := seconds * 1000000.0;
    if 0.0 <= m then m.Floor else -((-m).Floor)
  }

  function Magnitude(x: real): real {
    if x < 0.0 then -x else x
  }

  /** Within a microsecond, never away from zero, and exact for whole microseconds. */
  lemma MicrosExactly(seconds: real)
    ensures var exact, m := seconds * 1000000.0, Micros(seconds) as real;
            && Magnitude(exact - m) < 1.0
            && (if exact < 0.0 then exact <= m <= 0.0 else 0.0 <= m <= exact)
            && (exact == exact.Floor as real ==> m == exact)
  {
    var exact := seconds * 1000000.0;
    if exact == exact.Floor as real {
      assert (-exact).Floor == -exact.Floor;
    }
  }

  // ----- Timers and entries -----

  datatype Timer = Timer(uid: nat, expiration: int, interval: real) {
    predicate Repeats() {
      interval > 0.0
    }
  }

  datatype Entry = Entry(when: int, addr: Addr)

  predicate Before(a: Entry, b: Entry) {
    a.when < b.when || (a.when == b.when && a.addr < b.addr)
  }

  ghost predicate Sorted(es: seq<Entry>) {
    forall i, j :: 0 <= i < j < |es| ==> Before(es[i], es[j])
  }

  /** `std::set::insert`. */
  function Inserted(es: seq<Entry>, e: Entry): seq<Entry> {
    if es == [] || Before(e, es[0]) then [e] + es
    else if e == es[0] then es
    else [es[0]] + Inserted(es[1..], e)
  }

  lemma {:induction false} InsertedContains(es: seq<Entry>, e: Entry, x: Entry)
    ensures x in Inserted(es, e) <==> x in es || x == e
    decreases |es|
  {
    if !(es == [] || Before(e, es[0]) || e == es[0]) {
      InsertedContains(es[1..], e, x);
      assert es == [es[0]] + es[1..];
    }
  }

  lemma {:induction false} InsertedSorted(es: seq<Entry>, e: Entry)
    requires Sorted(es)
    ensures Sorted(Inserted(es, e))
    decreases |es|
  {
    if !(es == [] || Before(e, es[0]) || e == es[0]) {
      InsertedSorted(es[1..], e);
      var rest := Inserted(es[1..], e);
      forall j | 0 <= j < |rest|
        ensures Before(es[0], rest[j])
      {
        InsertedContains(es[1..], e, rest[j]);
      }
    }
  }

  /** `std::set::lower_bound`: how many entries come before `bound`. */
  function LowerBound(es: seq<Entry>, bound: Entry): (k: nat)
    ensures k <= |es|
  {
    if es == [] || !Before(es[0], bound) then 0 else 1 + LowerBound(es[1..], bound)
  }

  lemma {:induction false} LowerBoundSplits(es: seq<Entry>, bound: Entry)
    requires Sorted(es)
    ensures var k := LowerBound(es, bound);
            && (forall i :: 0 <= i < k ==> Before(es[i], bound))
            && (forall i :: k <= i < |es| ==> !Before(es[i], bound))
    decreases |es|
  {
    if es != [] && Before(es[0], bound) {
      LowerBoundSplits(es[1..], bound);
      var k := LowerBound(es[1..], bound);
      assert forall i :: 0 < i < |es| ==> es[i] == es[1..][i - 1];
    }
  }

  /** How many entries `getExpired` takes: the sentinel pairs `now` with the highest address. */
  function ExpiredCount(es: seq<Entry>, now: int): (k: nat)
    ensures k <= |es|
  {
    LowerBound(es, Entry(now, UINTPTR_MAX))
  }

  /** With real addresses below the sentinel, exactly the entries due by `now` are taken. */
  lemma ExpiredExactly(es: seq<Entry>, now: int)
    requires Sorted(es) && forall i :: 0 <= i < |es| ==> es[i].addr < UINTPTR_MAX
    ensures forall i :: 0 <= i < |es| ==> (i < ExpiredCount(es, now) <==> es[i].when <= now)
  {
    LowerBoundSplits(es, Entry(now, UINTPTR_MAX));
  }

  // ----- The queue -----

  datatype Arm = Disarmed | Armed(at: int, deadline: int) | Fired

  datatype Run = Run(uid: nat, at: int, oneShot: bool)

  datatype Queue = Queue(
    timers: seq<Entry>,           // the set, in its order
    store: map<Addr, Timer>,      // live timer objects
    arm: Arm,                     // the timerfd
    created: nat,                 // timers created so far
    runs: seq<Run>,               // callbacks run so far
    fault: bool)                  // an assertion failed

  const EMPTY: Queue := Queue([], map[], Disarmed, 0, [], false)

  /** A timer created by a caller: the address it gets, and the clock when it is armed for. */
  datatype NewTimer = NewTimer(addr: Addr, when: int, interval: real, clock: int)

  function ArmFor(when: int, clock: int): Arm {
    Armed(clock, Deadline(HowMuchTimeFromNow(when, clock), clock))
  }

  /** `insert` for a live timer, with its assertion. */
  function Insert(q: Queue, addr: Addr): Queue
    requires addr in q.store
  {
    var e := Entry(q.store[addr].expiration, addr);
    q.(timers := Inserted(q.timers, e), fault := q.fault || e in q.timers)
  }

  predicate EarliestChanges(q: Queue, when: int) {
    q.timers == [] || when < q.timers[0].when
  }

  /** `addTimer` and `addTimerInLoop`. */
  function Add(q: Queue, n: NewTimer): Queue {
    var r := Insert(Created(q, n), n.addr);
    if EarliestChanges(q, n.when) then r.(arm := ArmFor(n.when, n.clock)) else r
  }

  function AddAll(q: Queue, ns: seq<NewTimer>): Queue
    decreases |ns|
  {
    if ns == [] then q else AddAll(Add(q, ns[0]), ns[1..])
  }

  /** `getExpired`: the due entries leave the set. */
  function TakeExpired(q: Queue, now: int): Queue {
    var k := ExpiredCount(q.timers, now);
    q.(timers := q.timers[k..], fault := q.fault || (k < |q.timers| && q.timers[k].when <= now))
  }

  /** One callback: the timer runs, and may add timers of its own; a dead timer is a fault. */
  function RunOne(q: Queue, e: Entry, now: int, adds: seq<NewTimer>): Queue {
    AddAll(Ran(q, e, now), adds)
  }

  function Ran(q: Queue, e: Entry, now: int): Queue {
    if e.addr !in q.store then q.(fault := true)
    else q.(runs := q.runs + [RunOf(q.store[e.addr], now)])
  }

  function RunOf(t: Timer, now: int): Run {
    Run(t.uid, now, !t.Repeats())
  }

  function RunAll(q: Queue, todo: seq<Entry>, now: int, adds: seq<seq<NewTimer>>): Queue
    requires |adds| == |todo|
    decreases |todo|
  {
    if todo == [] then q else RunAll(RunOne(q, todo[0], now, adds[0]), todo[1..], now, adds[1..])
  }

  function Put(q: Queue, addr: Addr, t: Timer): Queue {
    q.(store := q.store[addr := t])
  }

  /** `restart`, then back into the set. */
  function Restart(q: Queue, addr: Addr, expiration: int): Queue
    requires addr in q.store
  {
    Insert(Put(q, addr, q.store[addr].(expiration := expiration)), addr)
  }

  /** One turn of `reset`: a repeating timer restarts from `now`, another is deleted. */
  function ResetOne(q: Queue, e: Entry, now: int): Queue {
    if e.addr !in q.store then q.(fault := true)
    else
      var t := q.store[e.addr];
      if t.Repeats() then
        Restart(q, e.addr, now + Micros(t.interval))
      else
        q.(store := q.store - {e.addr})
  }

  function ResetAll(q: Queue, done: seq<Entry>, now: int): Queue
    decreases |done|
  {
    if done == [] then q else ResetAll(ResetOne(q, done[0], now), done[1..], now)
  }

  function NextExpire(q: Queue): int {
    if q.timers != [] && q.timers[0].addr in q.store then q.store[q.timers[0].addr].expiration else 0
  }

  /** The end of `reset`: re-arm for the earliest timer if its expiration is a valid time stamp. */
  function Rearm(q: Queue, clock: int): Queue {
    if NextExpire(q) > 0 then q.(arm := ArmFor(NextExpire(q), clock)) else q
  }

  function Expired(q: Queue, now: int): seq<Entry> {
    q.timers[..ExpiredCount(q.timers, now)]
  }

  /** `readTimerfd`: a fired timerfd is consumed; otherwise the read finds nothing. */
  function ReadTimerfd(q: Queue): Queue {
    q.(arm := if q.arm.Fired? then Disarmed else q.arm)
  }

  function Callbacks(q: Queue, now: int, adds: seq<seq<NewTimer>>): Queue
    requires |adds| == |Expired(q, now)|
  {
    RunAll(TakeExpired(ReadTimerfd(q), now), Expired(q, now), now, adds)
  }

  /** `handleRead`: `adds[i]` are the timers the i-th callback adds, `clock` the reading when re-arming. */
  function HandleRead(q: Queue, now: int, adds: seq<seq<NewTimer>>, clock: int): Queue
    requires |adds| == |Expired(q, now)|
  {
    Rearm(ResetAll(Callbacks(q, now, adds), Expired(q, now), now), clock)
  }

  // ----- Freshness: what the allocator promises -----

  ghost predicate FreshAdds(q: Queue, ns: seq<NewTimer>)
    decreases |ns|
  {
    ns == [] || (ns[0].addr !in q.store && ns[0].addr < UINTPTR_MAX && FreshAdds(Add(q, ns[0]), ns[1..]))
  }

  ghost predicate FreshRun(q: Queue, todo: seq<Entry>, now: int, adds: seq<seq<NewTimer>>)
    decreases |todo|
  {
    && |adds| == |todo|
    && (todo == [] ||
        (&& FreshAdds(Ran(q, todo[0], now), adds[0])
         && FreshRun(RunOne(q, todo[0], now, adds[0]), todo[1..], now, adds[1..])))
  }

  // ----- The invariant -----

  function At(q: Queue, a: Addr): Entry
    requires a in q.store
  {
    Entry(q.store[a].expiration, a)
  }

  ghost predicate Tracks(q: Queue, e: Entry) {
    e.addr in q.store && At(q, e.addr) == e
  }

  /** Entries and live timers correspond, those in `flying` being taken out of the set for now. */
  ghost predicate Ok(q: Queue, flying: seq<Entry>) {
    && !q.fault && Sorted(q.timers) && Sorted(flying)
    && (forall e :: e in q.timers ==> Tracks(q, e))
    && (forall e :: e in flying ==> Tracks(q, e) && e !in q.timers)
    && (forall a :: a in q.store ==> a < UINTPTR_MAX && (At(q, a) in q.timers || At(q, a) in flying))
  }

  ghost predicate Uids(q: Queue) {
    && (forall a :: a in q.store ==> q.store[a].uid < q.created)
    && (forall a, b :: a in q.store && b in q.store && a != b ==> q.store[a].uid != q.store[b].uid)
    && (forall i :: 0 <= i < |q.runs| ==> q.runs[i].uid < q.created)
  }

  /** A one-shot timer runs at most once, ever. */
  ghost predicate AtMostOnce(runs: seq<Run>) {
    forall i, j :: 0 <= i < j < |runs| && runs[i].oneShot ==> runs[i].uid != runs[j].uid
  }

  /** A live timer that has run is a repeating one, or among those just `ran`. */
  ghost predicate Hist(q: Queue, ran: seq<Entry>) {
    && AtMostOnce(q.runs)
    && (forall a, i :: a in q.store && 0 <= i < |q.runs| && q.runs[i].uid == q.store[a].uid ==>
          q.runs[i].oneShot == !q.store[a].Repeats() && (q.store[a].Repeats() || At(q, a) in ran))
  }

  ghost predicate Inv(q: Queue, flying: seq<Entry>, ran: seq<Entry>) {
    Ok(q, flying) && Uids(q) && Hist(q, ran)
  }

  /** `Ok`, but for a timer at `addr` that is neither in the set nor in `flying`. */
  ghost predicate OkBut(q: Queue, addr: Addr, flying: seq<Entry>) {
    && !q.fault && Sorted(q.timers) && Sorted(flying)
    && (forall e :: e in q.timers ==> Tracks(q, e) && e.addr != addr)
    && (forall e :: e in flying ==> Tracks(q, e) && e !in q.timers && e.addr != addr)
    && (forall a :: a in q.store && a != addr ==> a < UINTPTR_MAX && (At(q, a) in q.timers || At(q, a) in flying))
  }

  lemma PutTracks(q: Queue, addr: Addr, t: Timer, e: Entry)
    requires e.addr != addr
    ensures Tracks(Put(q, addr, t), e) == Tracks(q, e)
  {
  }

  /** Storing a timer there and inserting it makes the correspondence complete. */
  lemma PutKeepsOk(q: Queue, addr: Addr, t: Timer, flying: seq<Entry>)
    requires OkBut(q, addr, flying) && addr < UINTPTR_MAX
    ensures Ok(Insert(Put(q, addr, t), addr), flying)
  {
    var r := Insert(Put(q, addr, t), addr);
    var e := Entry(t.expiration, addr);
    InsertedSorted(q.timers, e);
    forall x
      ensures x in r.timers <==> x in q.timers || x == e
    {
      InsertedContains(q.timers, e, x);
    }
    forall x | x in q.timers || x in flying
      ensures Tracks(r, x)
    {
      PutTracks(q, addr, t, x);
    }
    forall a | a in r.store
      ensures a < UINTPTR_MAX && (At(r, a) in r.timers || At(r, a) in flying)
    {
      if a != addr {
        assert At(r, a) == At(q, a);
      }
    }
  }

  function Created(q: Queue, n: NewTimer): Queue {
    q.(store := q.store[n.addr := Timer(q.created, n.when, n.interval)], created := q.created + 1)
  }

  lemma CreatedKeeps(q: Queue, n: NewTimer, ran: seq<Entry>)
    requires Uids(q) && Hist(q, ran) && n.addr !in q.store
    ensures Uids(Created(q, n)) && Hist(Created(q, n), ran)
  {
  }

  /** Only the set, the timerfd and the fault differ. */
  ghost predicate SameTimers(q: Queue, r: Queue) {
    r.store == q.store && r.created == q.created && r.runs == q.runs
  }

  lemma SameTimersKeep(q: Queue, r: Queue, ran: seq<Entry>)
    requires SameTimers(q, r) && Uids(q) && Hist(q, ran)
    ensures Uids(r) && Hist(r, ran)
  {
    assert forall a :: a in q.store ==> At(r, a) == At(q, a);
  }

  lemma AddKeeps(q: Queue, n: NewTimer, flying: seq<Entry>, ran: seq<Entry>)
    requires Inv(q, flying, ran) && n.addr !in q.store && n.addr < UINTPTR_MAX
    ensures Inv(Add(q, n), flying, ran)
  {
    CreatedKeeps(q, n, ran);
    SameTimersKeep(Created(q, n), Add(q, n), ran);
    PutKeepsOk(q, n.addr, Timer(q.created, n.when, n.interval), flying);
    OkIgnoresRest(Insert(Put(q, n.addr, Timer(q.created, n.when, n.interval)), n.addr), Add(q, n), flying);
  }

  lemma OkIgnoresRest(q: Queue, r: Queue, flying: seq<Entry>)
    requires Ok(q, flying) && r.timers == q.timers && r.store == q.store && r.fault == q.fault
    ensures Ok(r, flying)
  {
    assert forall a :: a in q.store ==> At(r, a) == At(q, a);
    assert forall e :: Tracks(q, e) ==> Tracks(r, e);
  }

  lemma {:induction false} AddAllKeeps(q: Queue, ns: seq<NewTimer>, flying: seq<Entry>, ran: seq<Entry>)
    requires Inv(q, flying, ran) && FreshAdds(q, ns)
    ensures Inv(AddAll(q, ns), flying, ran)
    decreases |ns|
  {
    if ns != [] {
      AddKeeps(q, ns[0], flying, ran);
      AddAllKeeps(Add(q, ns[0]), ns[1..], flying, ran);
    }
  }

  // ----- The phases of handleRead -----

  lemma RanKeeps(q: Queue, flying: seq<Entry>, ran: seq<Entry>, e: Entry, now: int)
    requires Inv(q, flying, ran) && e in flying && e !in ran
    ensures Inv(Ran(q, e, now), flying, ran + [e])
  {
    var r := Ran(q, e, now);
    assert Tracks(q, e);
    var uid := q.store[e.addr].uid;
    assert forall a :: a in q.store ==> At(r, a) == At(q, a);
    forall i | 0 <= i < |q.runs| && q.runs[i].uid == uid
      ensures !q.runs[i].oneShot
    {
      assert At(q, e.addr) !in ran;
    }
  }

  lemma {:induction false} RunAllKeeps(q: Queue, ran: seq<Entry>, todo: seq<Entry>, now: int, adds: seq<seq<NewTimer>>)
    requires Inv(q, ran + todo, ran) && FreshRun(q, todo, now, adds)
    ensures Inv(RunAll(q, todo, now, adds), ran + todo, ran + todo)
    decreases |todo|
  {
    if todo == [] {
      assert ran + todo == ran;
    } else {
      var e, flying := todo[0], ran + todo;
      assert e == flying[|ran|];
      assert forall i :: 0 <= i < |ran| ==> ran[i] == flying[i];
      RanKeeps(q, flying, ran, e, now);
      AddAllKeeps(Ran(q, e, now), adds[0], flying, ran + [e]);
      assert flying == (ran + [e]) + todo[1..];
      RunAllKeeps(RunOne(q, e, now, adds[0]), ran + [e], todo[1..], now, adds[1..]);
    }
  }

  /** Splitting the set at the sentinel separates due from later entries. */
  lemma ExpiredMembers(es: seq<Entry>, now: int)
    requires Sorted(es) && forall i :: 0 <= i < |es| ==> es[i].addr < UINTPTR_MAX
    ensures var k := ExpiredCount(es, now);
            && Sorted(es[..k]) && Sorted(es[k..])
            && (forall x :: x in es[..k] <==> x in es && x.when <= now)
            && (forall x :: x in es[k..] <==> x in es && now < x.when)
  {
    ExpiredExactly(es, now);
    var k := ExpiredCount(es, now);
    assert forall i :: 0 <= i < |es| - k ==> es[k..][i] == es[k + i];
    forall x | x in es
      ensures x.when <= now ==> x in es[..k]
      ensures now < x.when ==> x in es[k..]
    {
      var i :| 0 <= i < |es| && es[i] == x;
      if i < k {
        assert es[..k][i] == x;
      } else {
        assert es[k..][i - k] == x;
      }
    }
  }

  lemma TakeExpiredKeeps(q: Queue, now: int)
    requires Inv(q, [], [])
    ensures Inv(TakeExpired(q, now), Expired(q, now), [])
  {
    var r, flying := TakeExpired(q, now), Expired(q, now);
    forall i | 0 <= i < |q.timers|
      ensures q.timers[i].addr < UINTPTR_MAX
    {
      assert Tracks(q, q.timers[i]);
    }
    ExpiredExactly(q.timers, now);
    ExpiredMembers(q.timers, now);
    assert !r.fault;
    forall e | e in r.timers || e in flying
      ensures Tracks(r, e)
    {
      assert Tracks(q, e);
    }
    forall a | a in r.store
      ensures At(r, a) in r.timers || At(r, a) in flying
    {
      assert At(q, a) in q.timers;
    }
    SameTimersKeep(q, r, []);
  }

  /** The first of the entries in flight is alone with its address. */
  lemma HeadIsApart(q: Queue, flying: seq<Entry>)
    requires Ok(q, flying) && flying != []
    ensures OkBut(q, flying[0].addr, flying[1..])
  {
    var e, rest := flying[0], flying[1..];
    assert Tracks(q, e);
    forall x | x in rest
      ensures x in flying && x.addr != e.addr
    {
      var i :| 0 <= i < |rest| && rest[i] == x;
      assert flying[i + 1] == x && Before(flying[0], flying[i + 1]);
      assert Tracks(q, x);
    }
    forall x | x in q.timers
      ensures x.addr != e.addr
    {
      assert Tracks(q, x);
    }
    forall a | a in q.store && a != e.addr
      ensures At(q, a) in q.timers || At(q, a) in rest
    {
      assert flying == [e] + rest;
    }
  }

  lemma RestartKeepsHist(q: Queue, flying: seq<Entry>, expiration: int)
    requires Uids(q) && Hist(q, flying) && flying != [] && flying[0].addr in q.store
    requires q.store[flying[0].addr].Repeats()
    ensures var r := Put(q, flying[0].addr, q.store[flying[0].addr].(expiration := expiration));
            Uids(r) && Hist(r, flying[1..])
  {
    var e := flying[0];
    var r := Put(q, e.addr, q.store[e.addr].(expiration := expiration));
    forall a | a in q.store
      ensures r.store[a].uid == q.store[a].uid && r.store[a].Repeats() == q.store[a].Repeats()
      ensures a != e.addr && At(q, a) in flying ==> At(r, a) in flying[1..]
    {
      assert flying == [e] + flying[1..];
    }
  }

  lemma DeleteKeeps(q: Queue, flying: seq<Entry>)
    requires Inv(q, flying, flying) && flying != []
    ensures Inv(q.(store := q.store - {flying[0].addr}), flying[1..], flying[1..])
  {
    HeadIsApart(q, flying);
    var r := q.(store := q.store - {flying[0].addr});
    forall e | e in q.timers || e in flying[1..]
      ensures Tracks(r, e)
    {
      assert Tracks(q, e);
    }
    forall a | a in r.store
      ensures At(r, a) == At(q, a) && (At(q, a) in flying ==> At(q, a) in flying[1..])
    {
      assert flying == [flying[0]] + flying[1..];
    }
  }

  lemma RestartKeeps(q: Queue, flying: seq<Entry>, expiration: int)
    requires Inv(q, flying, flying) && flying != [] && flying[0].addr in q.store
    requires q.store[flying[0].addr].Repeats()
    ensures Inv(Restart(q, flying[0].addr, expiration), flying[1..], flying[1..])
  {
    var addr := flying[0].addr;
    var t := q.store[addr].(expiration := expiration);
    HeadIsApart(q, flying);
    assert addr < UINTPTR_MAX;
    PutKeepsOk(q, addr, t, flying[1..]);
    RestartKeepsHist(q, flying, expiration);
    SameTimersKeep(Put(q, addr, t), Insert(Put(q, addr, t), addr), flying[1..]);
  }

  lemma HeadIsLive(q: Queue, flying: seq<Entry>)
    requires Ok(q, flying) && flying != []
    ensures flying[0].addr in q.store
  {
    assert Tracks(q, flying[0]);
  }

  lemma RestartOneKeeps(q: Queue, flying: seq<Entry>, now: int)
    requires Inv(q, flying, flying) && flying != [] && flying[0].addr in q.store
    requires q.store[flying[0].addr].Repeats()
    ensures Inv(ResetOne(q, flying[0], now), flying[1..], flying[1..])
  {
    RestartKeeps(q, flying, now + Micros(q.store[flying[0].addr].interval));
  }

  lemma DeleteOneKeeps(q: Queue, flying: seq<Entry>, now: int)
    requires Inv(q, flying, flying) && flying != [] && flying[0].addr in q.store
    requires !q.store[flying[0].addr].Repeats()
    ensures Inv(ResetOne(q, flying[0], now), flying[1..], flying[1..])
  {
    DeleteKeeps(q, flying);
  }

  lemma ResetOneKeeps(q: Queue, flying: seq<Entry>, now: int)
    requires Inv(q, flying, flying) && flying != []
    ensures Inv(ResetOne(q, flying[0], now), flying[1..], flying[1..])
  {
    HeadIsLive(q, flying);
    if q.store[flying[0].addr].Repeats() {
      RestartOneKeeps(q, flying, now);
    } else {
      DeleteOneKeeps(q, flying, now);
    }
  }

  lemma {:induction false} ResetAllKeeps(q: Queue, flying: seq<Entry>, now: int)
    requires Inv(q, flying, flying)
    ensures Inv(ResetAll(q, flying, now), [], [])
    decreases |flying|
  {
    if flying != [] {
      ResetOneKeeps(q, flying, now);
      ResetAllKeeps(ResetOne(q, flying[0], now), flying[1..], now);
    }
  }

  /** `handleRead` keeps everything, and none of its assertions fails. */
  lemma HandleReadKeeps(q: Queue, now: int, adds: seq<seq<NewTimer>>, clock: int)
    requires Inv(q, [], [])
    requires FreshRun(TakeExpired(ReadTimerfd(q), now), Expired(q, now), now, adds)
    ensures Inv(HandleRead(q, now, adds, clock), [], [])
  {
    var q0 := ReadTimerfd(q);
    OkIgnoresRest(q, q0, []);
    SameTimersKeep(q, q0, []);
    TakeExpiredKeeps(q0, now);
    var flying := Expired(q, now);
    assert [] + flying == flying;
    RunAllKeeps(TakeExpired(q0, now), [], flying, now, adds);
    var q1 := ResetAll(Callbacks(q, now, adds), flying, now);
    ResetAllKeeps(Callbacks(q, now, adds), flying, now);
    OkIgnoresRest(q1, Rearm(q1, clock), []);
    SameTimersKeep(q1, Rearm(q1, clock), []);
  }

  // ----- What handleRead does, exactly -----

  function ToSet(es: seq<Entry>): set<Entry> {
    set e | e in es
  }

  lemma InsertedSet(es: seq<Entry>, e: Entry)
    ensures ToSet(Inserted(es, e)) == ToSet(es) + {e}
  {
    forall x
      ensures x in Inserted(es, e) <==> x in es || x == e
    {
      InsertedContains(es, e, x);
    }
  }

  function Added(ns: seq<NewTimer>): set<Entry> {
    if ns == [] then {} else {Entry(ns[0].when, ns[0].addr)} + Added(ns[1..])
  }

  function AddedAll(adds: seq<seq<NewTimer>>): set<Entry> {
    if adds == [] then {} else Added(adds[0]) + AddedAll(adds[1..])
  }

  /** Live timers of `q` are still there unchanged in `r`. */
  ghost predicate Extends(q: Queue, r: Queue) {
    forall a :: a in q.store ==> a in r.store && r.store[a] == q.store[a]
  }

  lemma {:induction false} AddAllEffect(q: Queue, ns: seq<NewTimer>)
    requires FreshAdds(q, ns)
    ensures AddAll(q, ns).runs == q.runs && Extends(q, AddAll(q, ns))
    ensures ToSet(AddAll(q, ns).timers) == ToSet(q.timers) + Added(ns)
    decreases |ns|
  {
    if ns != [] {
      InsertedSet(q.timers, Entry(ns[0].when, ns[0].addr));
      AddAllEffect(Add(q, ns[0]), ns[1..]);
    }
  }

  ghost predicate Live(q: Queue, es: seq<Entry>) {
    forall i :: 0 <= i < |es| ==> es[i].addr in q.store
  }

  function RunsOf(q: Queue, todo: seq<Entry>, now: int): seq<Run>
    requires Live(q, todo)
  {
    seq(|todo|, i requires 0 <= i < |todo| => RunOf(q.store[todo[i].addr], now))
  }

  lemma {:induction false} RunAllEffect(q: Queue, todo: seq<Entry>, now: int, adds: seq<seq<NewTimer>>)
    requires FreshRun(q, todo, now, adds) && Live(q, todo)
    ensures var r := RunAll(q, todo, now, adds);
            && r.runs == q.runs + RunsOf(q, todo, now) && Extends(q, r)
            && ToSet(r.timers) == ToSet(q.timers) + AddedAll(adds)
    decreases |todo|
  {
    if todo != [] {
      var q1 := Ran(q, todo[0], now);
      AddAllEffect(q1, adds[0]);
      var q2 := AddAll(q1, adds[0]);
      RunAllEffect(q2, todo[1..], now, adds[1..]);
      assert q.runs + RunsOf(q, todo, now) == q1.runs + RunsOf(q2, todo[1..], now);
    }
  }

  /** The entries under which the repeating timers of `done` come back. */
  function Restarted(q: Queue, done: seq<Entry>, now: int): set<Entry>
    requires Live(q, done)
  {
    set i | 0 <= i < |done| && q.store[done[i].addr].Repeats() ::
      Entry(now + Micros(q.store[done[i].addr].interval), done[i].addr)
  }

  lemma RestartedHead(q: Queue, done: seq<Entry>, now: int)
    requires done != [] && Live(q, done)
    ensures Live(q, done[1..])
    ensures Restarted(q, done, now) ==
              (if q.store[done[0].addr].Repeats() then
                 {Entry(now + Micros(q.store[done[0].addr].interval), done[0].addr)} else {})
              + Restarted(q, done[1..], now)
  {
    var whole, tail := Restarted(q, done, now), Restarted(q, done[1..], now);
    forall x | x in whole
      ensures x in tail ||
              (&& q.store[done[0].addr].Repeats()
               && x == Entry(now + Micros(q.store[done[0].addr].interval), done[0].addr))
    {
      var i :| 0 <= i < |done| && q.store[done[i].addr].Repeats() &&
               x == Entry(now + Micros(q.store[done[i].addr].interval), done[i].addr);
      assert 0 < i ==> done[1..][i - 1] == done[i];
    }
    forall x | x in tail
      ensures x in whole
    {
      var i :| 0 <= i < |done[1..]| && q.store[done[1..][i].addr].Repeats() &&
               x == Entry(now + Micros(q.store[done[1..][i].addr].interval), done[1..][i].addr);
      assert done[i + 1] == done[1..][i];
    }
  }

  ghost predicate AgreeOn(q: Queue, r: Queue, es: seq<Entry>) {
    forall i :: 0 <= i < |es| ==>
      es[i].addr in q.store && es[i].addr in r.store && r.store[es[i].addr] == q.store[es[i].addr]
  }

  lemma RestartedFrame(q: Queue, r: Queue, done: seq<Entry>, now: int)
    requires AgreeOn(q, r, done)
    ensures Live(q, done) && Live(r, done) && Restarted(q, done, now) == Restarted(r, done, now)
  {
  }

  lemma LiveFlying(q: Queue, flying: seq<Entry>)
    requires Ok(q, flying)
    ensures Live(q, flying)
  {
    forall i | 0 <= i < |flying|
      ensures flying[i].addr in q.store
    {
      assert Tracks(q, flying[i]);
    }
  }

  lemma ResetOneEffect(q: Queue, done: seq<Entry>, now: int)
    requires Ok(q, done) && done != []
    ensures var r := ResetOne(q, done[0], now);
            && AgreeOn(q, r, done[1..]) && r.runs == q.runs && done[0].addr in q.store
            && ToSet(r.timers) == ToSet(q.timers) +
                 (if q.store[done[0].addr].Repeats() then
                    {Entry(now + Micros(q.store[done[0].addr].interval), done[0].addr)} else {})
            && (forall a :: a in q.store && a != done[0].addr ==> a in r.store && r.store[a] == q.store[a])
  {
    HeadIsApart(q, done);
    var e := done[0];
    assert Tracks(q, e);
    var t := q.store[e.addr];
    if t.Repeats() {
      InsertedSet(q.timers, Entry(now + Micros(t.interval), e.addr));
    }
    forall i | 0 <= i < |done[1..]|
      ensures done[1..][i].addr in q.store && done[1..][i].addr != e.addr
    {
      assert done[1..][i] in done[1..];
      assert Tracks(q, done[1..][i]);
    }
  }

  /** Timers whose entry is not among `done` are as before. */
  ghost predicate Untouched(q: Queue, r: Queue, done: seq<Entry>) {
    forall a :: a in q.store && At(q, a) !in done ==> a in r.store && r.store[a] == q.store[a]
  }

  lemma UntouchedStep(q: Queue, q1: Queue, r: Queue, done: seq<Entry>)
    requires done != [] && Tracks(q, done[0])
    requires forall a :: a in q.store && a != done[0].addr ==> a in q1.store && q1.store[a] == q.store[a]
    requires Untouched(q1, r, done[1..])
    ensures Untouched(q, r, done)
  {
    forall a | a in q.store && At(q, a) !in done
      ensures a in r.store && r.store[a] == q.store[a]
    {
      assert done == [done[0]] + done[1..];
      assert At(q1, a) == At(q, a) && At(q, a) !in done[1..];
    }
  }

  lemma {:induction false} ResetAllEffect(q: Queue, done: seq<Entry>, now: int)
    requires Inv(q, done, done)
    ensures Live(q, done)
    ensures var r := ResetAll(q, done, now);
            && r.runs == q.runs
            && ToSet(r.timers) == ToSet(q.timers) + Restarted(q, done, now)
            && Untouched(q, r, done)
    decreases |done|
  {
    LiveFlying(q, done);
    if done != [] {
      var q1 := ResetOne(q, done[0], now);
      ResetOneKeeps(q, done, now);
      ResetOneEffect(q, done, now);
      ResetAllEffect(q1, done[1..], now);
      RestartedHead(q, done, now);
      RestartedFrame(q, q1, done[1..], now);
      assert Tracks(q, done[0]);
      UntouchedStep(q, q1, ResetAll(q, done, now), done);
    }
  }

  /** Entries due later than `now`. */
  function Later(es: seq<Entry>, now: int): set<Entry> {
    set e | e in es && now < e.when
  }

  lemma DueExactly(q: Queue, now: int)
    requires Ok(q, [])
    ensures var due := Expired(q, now);
            Sorted(due) && Live(q, due) && forall e :: e in due <==> e in q.timers && e.when <= now
    ensures ToSet(TakeExpired(ReadTimerfd(q), now).timers) == Later(q.timers, now)
  {
    forall i | 0 <= i < |q.timers|
      ensures q.timers[i].addr < UINTPTR_MAX && q.timers[i].addr in q.store
    {
      assert Tracks(q, q.timers[i]);
    }
    ExpiredMembers(q.timers, now);
  }

  lemma CallbacksEffect(q: Queue, now: int, adds: seq<seq<NewTimer>>)
    requires Inv(q, [], [])
    requires FreshRun(TakeExpired(ReadTimerfd(q), now), Expired(q, now), now, adds)
    ensures var due, r := Expired(q, now), Callbacks(q, now, adds);
            && Inv(r, due, due) && Extends(q, r)
            && Live(q, due) && r.runs == q.runs + RunsOf(q, due, now)
            && ToSet(r.timers) == Later(q.timers, now) + AddedAll(adds)
  {
    var due, q0 := Expired(q, now), ReadTimerfd(q);
    OkIgnoresRest(q, q0, []);
    SameTimersKeep(q, q0, []);
    TakeExpiredKeeps(q0, now);
    DueExactly(q, now);
    RunAllEffect(TakeExpired(q0, now), due, now, adds);
    assert [] + due == due;
    RunAllKeeps(TakeExpired(q0, now), [], due, now, adds);
  }

  lemma ExtendsAgrees(q: Queue, r: Queue, es: seq<Entry>)
    requires Extends(q, r) && Live(q, es)
    ensures AgreeOn(q, r, es)
  {
  }

  /** A timer due later is not among the due entries, before or after the callbacks. */
  lemma LaterUntouched(q: Queue, q2: Queue, r: Queue, due: seq<Entry>, now: int)
    requires Extends(q, q2) && Untouched(q2, r, due)
    requires forall e :: e in due ==> e.when <= now
    ensures forall a :: a in q.store && now < q.store[a].expiration ==> a in r.store && r.store[a] == q.store[a]
  {
    forall a | a in q.store && now < q.store[a].expiration
      ensures a in r.store && r.store[a] == q.store[a]
    {
      assert At(q2, a).when == q.store[a].expiration;
    }
  }

  /**
   `handleRead` runs exactly the timers due by `now`, in key order; afterwards the set holds the
   later ones, those the callbacks added and the repeating ones restarted from `now`; and no
   timer that was not due has changed.
   */
  lemma HandleReadExactly(q: Queue, now: int, adds: seq<seq<NewTimer>>, clock: int)
    requires Inv(q, [], [])
    requires FreshRun(TakeExpired(ReadTimerfd(q), now), Expired(q, now), now, adds)
    ensures var due, r := Expired(q, now), HandleRead(q, now, adds, clock);
            && Sorted(due) && (forall e :: e in due <==> e in q.timers && e.when <= now)
            && Live(q, due) && r.runs == q.runs + RunsOf(q, due, now)
            && ToSet(r.timers) == Later(q.timers, now) + AddedAll(adds) + Restarted(q, due, now)
            && (forall a :: a in q.store && now < q.store[a].expiration ==> a in r.store && r.store[a] == q.store[a])
  {
    var due, q2 := Expired(q, now), Callbacks(q, now, adds);
    DueExactly(q, now);
    CallbacksEffect(q, now, adds);
    ResetAllEffect(q2, due, now);
    ExtendsAgrees(q, q2, due);
    RestartedFrame(q, q2, due, now);
    LaterUntouched(q, q2, ResetAll(q2, due, now), due, now);
  }

  // ----- Arming -----

  /** The timerfd has fired, or will by `when` or 100 microseconds after it was armed. */
  predicate InTime(arm: Arm, when: int) {
    arm.Fired? || (arm.Armed? && arm.deadline <= Max(when, arm.at + 100))
  }

  /** It does so for the earliest expiration. */
  predicate ArmOk(q: Queue) {
    q.timers != [] ==> InTime(q.arm, q.timers[0].when)
  }

  /** During `handleRead` this is owed only to timers already overdue again. */
  predicate ArmOwed(q: Queue, now: int) {
    q.timers != [] && q.timers[0].when < now ==> ArmOk(q)
  }

  lemma ArmForOk(when: int, clock: int)
    ensures ArmFor(when, clock) == Armed(clock, Max(when, clock + 100))
  {
    DeadlineIsExact(when, clock);
  }

  lemma AddArms(q: Queue, n: NewTimer)
    ensures ArmOk(q) ==> ArmOk(Add(q, n))
    ensures forall now :: ArmOwed(q, now) ==> ArmOwed(Add(q, n), now)
  {
    ArmForOk(n.when, n.clock);
  }

  /** The timerfd is armed exactly when a new timer comes first, from its clock reading on. */
  lemma AddArmsExactly(q: Queue, n: NewTimer)
    ensures Add(q, n).arm ==
              if q.timers == [] || n.when < q.timers[0].when then Armed(n.clock, Max(n.when, n.clock + 100)) else q.arm
  {
    ArmForOk(n.when, n.clock);
  }

  /** `reset` arms it exactly for a positive earliest expiration, from the clock reading there on. */
  lemma RearmExactly(q: Queue, clock: int)
    requires Ok(q, [])
    ensures Rearm(q, clock).arm ==
              if q.timers != [] && 0 < q.timers[0].when then Armed(clock, Max(q.timers[0].when, clock + 100)) else q.arm
  {
    if q.timers != [] {
      assert Tracks(q, q.timers[0]);
      ArmForOk(q.timers[0].when, clock);
    }
  }

  lemma {:induction false} AddAllArms(q: Queue, ns: seq<NewTimer>, now: int)
    requires ArmOwed(q, now)
    ensures ArmOwed(AddAll(q, ns), now)
    decreases |ns|
  {
    if ns != [] {
      AddArms(q, ns[0]);
      AddAllArms(Add(q, ns[0]), ns[1..], now);
    }
  }

  lemma {:induction false} RunAllArms(q: Queue, todo: seq<Entry>, now: int, adds: seq<seq<NewTimer>>)
    requires ArmOwed(q, now) && |adds| == |todo|
    ensures ArmOwed(RunAll(q, todo, now, adds), now)
    decreases |todo|
  {
    if todo != [] {
      AddAllArms(Ran(q, todo[0], now), adds[0], now);
      RunAllArms(RunOne(q, todo[0], now, adds[0]), todo[1..], now, adds[1..]);
    }
  }

  lemma ResetOneArms(q: Queue, e: Entry, now: int)
    requires ArmOwed(q, now)
    ensures ArmOwed(ResetOne(q, e, now), now)
  {
  }

  lemma {:induction false} ResetAllArms(q: Queue, done: seq<Entry>, now: int)
    requires ArmOwed(q, now)
    ensures ArmOwed(ResetAll(q, done, now), now)
    decreases |done|
  {
    if done != [] {
      ResetOneArms(q, done[0], now);
      ResetAllArms(ResetOne(q, done[0], now), done[1..], now);
    }
  }

  lemma RearmOk(q: Queue, now: int, clock: int)
    requires Ok(q, []) && ArmOwed(q, now) && 0 < now
    ensures ArmOk(Rearm(q, clock))
  {
    if q.timers != [] {
      assert Tracks(q, q.timers[0]);
      ArmForOk(NextExpire(q), clock);
    }
  }

  lemma TakeExpiredArms(q: Queue, now: int)
    requires Ok(q, [])
    ensures ArmOwed(TakeExpired(ReadTimerfd(q), now), now)
  {
    DueExactly(q, now);
    var r := TakeExpired(ReadTimerfd(q), now);
    if r.timers != [] {
      assert r.timers[0] in ToSet(r.timers);
    }
  }

  /** With a positive clock, `handleRead` leaves the timerfd armed in time, whatever the time stamps. */
  lemma HandleReadArms(q: Queue, now: int, adds: seq<seq<NewTimer>>, clock: int)
    requires Inv(q, [], []) && 0 < now
    requires FreshRun(TakeExpired(ReadTimerfd(q), now), Expired(q, now), now, adds)
    ensures ArmOk(HandleRead(q, now, adds, clock))
  {
    var q1 := TakeExpired(ReadTimerfd(q), now);
    TakeExpiredArms(q, now);
    var due := Expired(q, now);
    RunAllArms(q1, due, now, adds);
    var q2 := ResetAll(Callbacks(q, now, adds), due, now);
    ResetAllArms(Callbacks(q, now, adds), due, now);
    CallbacksEffect(q, now, adds);
    ResetAllKeeps(Callbacks(q, now, adds), due, now);
    RearmOk(q2, now, clock);
  }

  // ----- Whole runs -----

  datatype Event =
    | AddTimer(timer: NewTimer)
    | TimerfdFires
    | TimerfdReadable(now: int, adds: seq<seq<NewTimer>>, clock: int)

  ghost predicate Possible(q: Queue, e: Event) {
    match e
    case AddTimer(n) => n.addr !in q.store && n.addr < UINTPTR_MAX
    case TimerfdFires => q.arm.Armed?
    case TimerfdReadable(now, adds, clock) => FreshRun(TakeExpired(ReadTimerfd(q), now), Expired(q, now), now, adds)
  }

  ghost function Step(q: Queue, e: Event): Queue
    requires Possible(q, e)
  {
    match e
    case AddTimer(n) => Add(q, n)
    case TimerfdFires => q.(arm := Fired)
    case TimerfdReadable(now, adds, clock) => HandleRead(q, now, adds, clock)
  }

  ghost predicate PossibleRun(q: Queue, es: seq<Event>)
    decreases |es|
  {
    es == [] || (Possible(q, es[0]) && PossibleRun(Step(q, es[0]), es[1..]))
  }

  ghost function RunEvents(q: Queue, es: seq<Event>): Queue
    requires PossibleRun(q, es)
    decreases |es|
  {
    if es == [] then q else RunEvents(Step(q, es[0]), es[1..])
  }

  predicate PositiveClock(es: seq<Event>) {
    forall i :: 0 <= i < |es| && es[i].TimerfdReadable? ==> 0 < es[i].now
  }

  lemma StepKeeps(q: Queue, e: Event)
    requires Inv(q, [], []) && Possible(q, e)
    ensures Inv(Step(q, e), [], [])
    ensures ArmOk(q) && (e.TimerfdReadable? ==> 0 < e.now) ==> ArmOk(Step(q, e))
  {
    match e
    case AddTimer(n) =>
      AddKeeps(q, n, [], []);
      AddArms(q, n);
    case TimerfdFires =>
      OkIgnoresRest(q, q.(arm := Fired), []);
      SameTimersKeep(q, q.(arm := Fired), []);
    case TimerfdReadable(now, adds, clock) =>
      HandleReadKeeps(q, now, adds, clock);
      if 0 < now {
        HandleReadArms(q, now, adds, clock);
      }
  }

  lemma {:induction false} RunKeeps(q: Queue, es: seq<Event>)
    requires Inv(q, [], []) && PossibleRun(q, es)
    ensures Inv(RunEvents(q, es), [], [])
    ensures ArmOk(q) && PositiveClock(es) ==> ArmOk(RunEvents(q, es))
    decreases |es|
  {
    if es != [] {
      StepKeeps(q, es[0]);
      RunKeeps(Step(q, es[0]), es[1..]);
    }
  }

  /** On every run: no assertion fails, entries match live timers, one-shot timers run at most once. */
  lemma TimersAreSafe(es: seq<Event>)
    requires PossibleRun(EMPTY, es)
    ensures var q := RunEvents(EMPTY, es); !q.fault && Ok(q, []) && AtMostOnce(q.runs)
    ensures PositiveClock(es) ==> ArmOk(RunEvents(EMPTY, es))
  {
    RunKeeps(EMPTY, es);
  }

  // ----- Where timers come from, and when they are due -----

  function Joined(adds: seq<seq<NewTimer>>): seq<NewTimer> {
    if adds == [] then [] else adds[0] + Joined(adds[1..])
  }

  /** The timers an event creates, in order. */
  function CreatedBy(e: Event): seq<NewTimer> {
    match e
    case AddTimer(n) => [n]
    case TimerfdFires => []
    case TimerfdReadable(_, adds, _) => Joined(adds)
  }

  function CreatedByAll(es: seq<Event>): seq<NewTimer> {
    if es == [] then [] else CreatedBy(es[0]) + CreatedByAll(es[1..])
  }

  datatype LastTime = Never | Last(time: int)

  /** When the timer numbered `uid` last ran. */
  function LastRun(runs: seq<Run>, uid: nat): LastTime {
    if runs == [] then Never
    else
      var last := runs[|runs| - 1];
      if last.uid == uid then Last(last.at) else LastRun(runs[..|runs| - 1], uid)
  }

  /** When a timer is due: first as its creator said, then an interval after it last ran. */
  function DueAt(n: NewTimer, last: LastTime): int {
    match last
    case Never => n.when
    case Last(time) => time + Micros(n.interval)
  }

  /** The live timer at `a` is the last one created there, with its interval. */
  ghost predicate Origin(q: Queue, ns: seq<NewTimer>, a: Addr)
    requires a in q.store
  {
    var t := q.store[a];
    && t.uid < |ns| && ns[t.uid].addr == a && t.interval == ns[t.uid].interval
    && (forall j :: t.uid < j < |ns| ==> ns[j].addr != a)
  }

  /** Its expiration, unless it has run at `now` and still waits to be reset. */
  ghost predicate OnTime(q: Queue, ns: seq<NewTimer>, a: Addr, ran: seq<Entry>, now: int)
    requires a in q.store && q.store[a].uid < |ns|
  {
    var t := q.store[a];
    var last := LastRun(q.runs, t.uid);
    if At(q, a) in ran then last == Last(now) else t.expiration == DueAt(ns[t.uid], last)
  }

  /** `ns` are all timers created so far; runs are of those, repeated only if they have an interval. */
  ghost predicate Terms(q: Queue, ns: seq<NewTimer>, ran: seq<Entry>, now: int) {
    && q.created == |ns|
    && (forall a :: a in q.store ==> Origin(q, ns, a) && OnTime(q, ns, a, ran, now))
    && (forall i :: 0 <= i < |q.runs| ==>
          q.runs[i].uid < |ns| && (q.runs[i].oneShot <==> ns[q.runs[i].uid].interval <= 0.0))
  }

  lemma {:induction false} NoRunYet(runs: seq<Run>, uid: nat)
    requires forall i :: 0 <= i < |runs| ==> runs[i].uid != uid
    ensures LastRun(runs, uid) == Never
    decreases |runs|
  {
    if runs != [] {
      NoRunYet(runs[..|runs| - 1], uid);
    }
  }

  lemma LastRunSnoc(runs: seq<Run>, run: Run, uid: nat)
    ensures LastRun(runs + [run], uid) == if run.uid == uid then Last(run.at) else LastRun(runs, uid)
  {
    assert (runs + [run])[..|runs|] == runs;
  }

  lemma AddKeepsTerms(q: Queue, ns: seq<NewTimer>, n: NewTimer, flying: seq<Entry>, ran: seq<Entry>, now: int)
    requires Terms(q, ns, ran, now) && Ok(q, flying) && Uids(q) && (forall e :: e in ran ==> e in flying)
    requires n.addr !in q.store
    ensures Terms(Add(q, n), ns + [n], ran, now)
  {
    var r, all := Add(q, n), ns + [n];
    assert r.store == q.store[n.addr := Timer(q.created, n.when, n.interval)] && r.runs == q.runs;
    NoRunYet(q.runs, q.created);
    assert forall e :: e in ran ==> Tracks(q, e) && e.addr in q.store;
    forall a | a in r.store
      ensures Origin(r, all, a) && OnTime(r, all, a, ran, now)
    {
      if a != n.addr {
        assert Origin(q, ns, a) && OnTime(q, ns, a, ran, now);
        assert At(r, a) == At(q, a);
      }
    }
  }

  lemma {:induction false} AddAllKeepsTerms(q: Queue, ns: seq<NewTimer>, more: seq<NewTimer>, flying: seq<Entry>,
                                            ran: seq<Entry>, now: int)
    requires Terms(q, ns, ran, now) && Inv(q, flying, ran) && (forall e :: e in ran ==> e in flying)
    requires FreshAdds(q, more)
    ensures Terms(AddAll(q, more), ns + more, ran, now)
    decreases |more|
  {
    if more == [] {
      assert ns + more == ns;
    } else {
      AddKeeps(q, more[0], flying, ran);
      AddKeepsTerms(q, ns, more[0], flying, ran, now);
      AddAllKeepsTerms(Add(q, more[0]), ns + [more[0]], more[1..], flying, ran, now);
      assert ns + more == (ns + [more[0]]) + more[1..];
    }
  }

  lemma RanKeepsTerms(q: Queue, ns: seq<NewTimer>, flying: seq<Entry>, ran: seq<Entry>, e: Entry, now: int)
    requires Terms(q, ns, ran, now) && Inv(q, flying, ran) && e in flying
    ensures Terms(Ran(q, e, now), ns, ran + [e], now)
  {
    var r := Ran(q, e, now);
    assert Tracks(q, e);
    var run := RunOf(q.store[e.addr], now);
    assert Origin(q, ns, e.addr);
    forall a | a in r.store
      ensures Origin(r, ns, a) && OnTime(r, ns, a, ran + [e], now)
    {
      assert Origin(q, ns, a) && OnTime(q, ns, a, ran, now);
      LastRunSnoc(q.runs, run, q.store[a].uid);
      assert At(r, a) == At(q, a);
      assert At(r, a) in ran + [e] <==> At(r, a) in ran || a == e.addr;
    }
  }

  lemma {:induction false} RunAllKeepsTerms(q: Queue, ns: seq<NewTimer>, ran: seq<Entry>, todo: seq<Entry>, now: int,
                                            adds: seq<seq<NewTimer>>)
    requires Terms(q, ns, ran, now) && Inv(q, ran + todo, ran) && FreshRun(q, todo, now, adds)
    ensures Terms(RunAll(q, todo, now, adds), ns + Joined(adds), ran + todo, now)
    decreases |todo|
  {
    if todo == [] {
      assert ran + todo == ran && ns + Joined(adds) == ns;
    } else {
      var e := todo[0];
      MoveOver(ran, todo);
      RunOneKeepsTerms(q, ns, ran, todo, now, adds[0]);
      RunAllKeepsTerms(RunOne(q, e, now, adds[0]), ns + adds[0], ran + [e], todo[1..], now, adds[1..]);
      AppendAssoc(ns, adds[0], Joined(adds[1..]));
    }
  }

  /** The first entry still to run joins those that ran. */
  lemma MoveOver(ran: seq<Entry>, todo: seq<Entry>)
    requires todo != []
    ensures ran + todo == (ran + [todo[0]]) + todo[1..]
    ensures todo[0] in ran + todo && forall e :: e in ran + [todo[0]] ==> e in ran + todo
    ensures Sorted(ran + todo) ==> todo[0] !in ran
  {
    assert (ran + todo)[|ran|] == todo[0];
    assert forall i :: 0 <= i < |ran| ==> ran[i] == (ran + todo)[i];
  }

  lemma RunOneKeepsTerms(q: Queue, ns: seq<NewTimer>, ran: seq<Entry>, todo: seq<Entry>, now: int,
                         adds: seq<NewTimer>)
    requires todo != [] && Terms(q, ns, ran, now) && Inv(q, ran + todo, ran)
    requires FreshAdds(Ran(q, todo[0], now), adds)
    ensures var r := RunOne(q, todo[0], now, adds);
            Terms(r, ns + adds, ran + [todo[0]], now) && Inv(r, ran + todo, ran + [todo[0]])
  {
    var e, flying := todo[0], ran + todo;
    MoveOver(ran, todo);
    RanKeeps(q, flying, ran, e, now);
    RanKeepsTerms(q, ns, flying, ran, e, now);
    AddAllKeeps(Ran(q, e, now), adds, flying, ran + [e]);
    AddAllKeepsTerms(Ran(q, e, now), ns, adds, flying, ran + [e], now);
  }

  lemma ResetOneKeepsTerms(q: Queue, ns: seq<NewTimer>, flying: seq<Entry>, now: int)
    requires Terms(q, ns, flying, now) && Inv(q, flying, flying) && flying != []
    ensures Terms(ResetOne(q, flying[0], now), ns, flying[1..], now)
  {
    var e, r := flying[0], ResetOne(q, flying[0], now);
    HeadIsLive(q, flying);
    HeadIsApart(q, flying);
    assert Tracks(q, e);
    var t := q.store[e.addr];
    assert r.runs == q.runs && r.created == q.created && r.store ==
      if t.Repeats() then q.store[e.addr := t.(expiration := now + Micros(t.interval))] else q.store - {e.addr};
    ResetTerms(q, r, ns, flying, now);
  }

  lemma ResetTerms(q: Queue, r: Queue, ns: seq<NewTimer>, flying: seq<Entry>, now: int)
    requires Terms(q, ns, flying, now) && flying != []
    requires flying[0].addr in q.store && At(q, flying[0].addr) == flying[0]
    requires forall x :: x in flying[1..] ==> x.addr != flying[0].addr
    requires r.runs == q.runs && r.created == q.created
    requires var addr := flying[0].addr;
             var t := q.store[addr];
             || r.store == q.store - {addr}
             || r.store == q.store[addr := t.(expiration := now + Micros(t.interval))]
    ensures Terms(r, ns, flying[1..], now)
  {
    var e, rest := flying[0], flying[1..];
    assert flying == [e] + rest;
    forall a | a in r.store
      ensures Origin(r, ns, a) && OnTime(r, ns, a, rest, now)
    {
      assert Origin(q, ns, a) && OnTime(q, ns, a, flying, now);
      assert a != e.addr ==> At(r, a) == At(q, a) && At(q, a) != e;
    }
  }

  lemma {:induction false} ResetAllKeepsTerms(q: Queue, ns: seq<NewTimer>, flying: seq<Entry>, now: int)
    requires Terms(q, ns, flying, now) && Inv(q, flying, flying)
    ensures Terms(ResetAll(q, flying, now), ns, [], now)
    decreases |flying|
  {
    if flying != [] {
      ResetOneKeeps(q, flying, now);
      ResetOneKeepsTerms(q, ns, flying, now);
      ResetAllKeepsTerms(ResetOne(q, flying[0], now), ns, flying[1..], now);
    }
  }

  /** `Terms` looks at the timers and the runs; with nothing waiting to be reset, `now` is no matter. */
  lemma TermsFrame(q: Queue, r: Queue, ns: seq<NewTimer>, now: int, later: int)
    requires Terms(q, ns, [], now) && SameTimers(q, r)
    ensures Terms(r, ns, [], later)
  {
    forall a | a in r.store
      ensures Origin(r, ns, a) && OnTime(r, ns, a, [], later)
    {
      assert Origin(q, ns, a) && OnTime(q, ns, a, [], now);
    }
  }

  lemma TakeExpiredKeepsTerms(q: Queue, ns: seq<NewTimer>, now: int)
    requires Terms(q, ns, [], now) && Inv(q, [], [])
    ensures var r := TakeExpired(ReadTimerfd(q), now); Terms(r, ns, [], now) && Inv(r, Expired(q, now), [])
  {
    var q0 := ReadTimerfd(q);
    OkIgnoresRest(q, q0, []);
    SameTimersKeep(q, q0, []);
    TakeExpiredKeeps(q0, now);
    TermsFrame(q, TakeExpired(q0, now), ns, now, now);
  }

  lemma CallbacksKeepTerms(q: Queue, ns: seq<NewTimer>, now: int, adds: seq<seq<NewTimer>>)
    requires Terms(q, ns, [], now) && Inv(q, [], [])
    requires FreshRun(TakeExpired(ReadTimerfd(q), now), Expired(q, now), now, adds)
    ensures Terms(Callbacks(q, now, adds), ns + Joined(adds), Expired(q, now), now)
  {
    var due := Expired(q, now);
    TakeExpiredKeepsTerms(q, ns, now);
    AppendAssoc(due, [], []);
    RunAllKeepsTerms(TakeExpired(ReadTimerfd(q), now), ns, [], due, now, adds);
  }

  lemma CallbacksKeep(q: Queue, now: int, adds: seq<seq<NewTimer>>)
    requires Inv(q, [], [])
    requires FreshRun(TakeExpired(ReadTimerfd(q), now), Expired(q, now), now, adds)
    ensures Inv(Callbacks(q, now, adds), Expired(q, now), Expired(q, now))
  {
    CallbacksEffect(q, now, adds);
  }

  lemma HandleReadKeepsTerms(q: Queue, ns: seq<NewTimer>, now: int, adds: seq<seq<NewTimer>>, clock: int)
    requires Terms(q, ns, [], now) && Inv(q, [], [])
    requires FreshRun(TakeExpired(ReadTimerfd(q), now), Expired(q, now), now, adds)
    ensures Terms(HandleRead(q, now, adds, clock), ns + Joined(adds), [], now)
  {
    var due, q2 := Expired(q, now), Callbacks(q, now, adds);
    CallbacksKeepTerms(q, ns, now, adds);
    CallbacksKeep(q, now, adds);
    ResetAllKeepsTerms(q2, ns + Joined(adds), due, now);
    var q3 := ResetAll(q2, due, now);
    TermsFrame(q3, Rearm(q3, clock), ns + Joined(adds), now, now);
  }

  lemma StepKeepsTerms(q: Queue, ns: seq<NewTimer>, e: Event)
    requires Terms(q, ns, [], 0) && Inv(q, [], []) && Possible(q, e)
    ensures Terms(Step(q, e), ns + CreatedBy(e), [], 0)
  {
    match e
    case AddTimer(n) =>
      AddKeepsTerms(q, ns, n, [], [], 0);
    case TimerfdFires =>
      assert ns + [] == ns;
      TermsFrame(q, q.(arm := Fired), ns, 0, 0);
    case TimerfdReadable(now, adds, clock) =>
      TermsFrame(q, q, ns, 0, now);
      HandleReadKeepsTerms(q, ns, now, adds, clock);
      TermsFrame(Step(q, e), Step(q, e), ns + Joined(adds), now, 0);
  }

  lemma {:induction false} RunKeepsTerms(q: Queue, ns: seq<NewTimer>, es: seq<Event>)
    requires Terms(q, ns, [], 0) && Inv(q, [], []) && PossibleRun(q, es)
    ensures Terms(RunEvents(q, es), ns + CreatedByAll(es), [], 0)
    decreases |es|
  {
    AppendAssoc(ns, [], []);
    if es != [] {
      StepKeepsTerms(q, ns, es[0]);
      StepKeeps(q, es[0]);
      RunKeepsTerms(Step(q, es[0]), ns + CreatedBy(es[0]), es[1..]);
      AppendAssoc(ns, CreatedBy(es[0]), CreatedByAll(es[1..]));
    }
  }

  /** What `Terms` comes to between events. */
  ghost predicate TermsKept(q: Queue, ns: seq<NewTimer>) {
    && q.created == |ns|
    && (forall a :: a in q.store ==>
          && Origin(q, ns, a)
          && q.store[a].expiration == DueAt(ns[q.store[a].uid], LastRun(q.runs, q.store[a].uid)))
    && (forall i :: 0 <= i < |q.runs| ==> q.runs[i].uid < |ns|)
    && (forall i, j :: 0 <= i < j < |q.runs| && q.runs[i].uid == q.runs[j].uid ==> 0.0 < ns[q.runs[i].uid].interval)
  }

  lemma TermsMean(q: Queue, ns: seq<NewTimer>)
    requires Terms(q, ns, [], 0) && AtMostOnce(q.runs)
    ensures TermsKept(q, ns)
  {
    forall a | a in q.store
      ensures Origin(q, ns, a) && OnTime(q, ns, a, [], 0)
    {
    }
  }

  /**
   On every run, each live timer is the last one that an `addTimer` or a callback created at its
   address and has the interval given there; it is due at the time given there until it first
   runs, and one interval after it last ran from then on.  Only timers created run, and only
   those given an interval run more than once.
   */
  lemma TimersKeepTheirTerms(es: seq<Event>)
    requires PossibleRun(EMPTY, es)
    ensures TermsKept(RunEvents(EMPTY, es), CreatedByAll(es))
  {
    NothingYet();
    RunKeepsTerms(EMPTY, [], es);
    TimersAreSafe(es);
    TermsMean(RunEvents(EMPTY, es), [] + CreatedByAll(es));
    assert [] + CreatedByAll(es) == CreatedByAll(es);
  }

  lemma NothingYet()
    ensures Inv(EMPTY, [], []) && Terms(EMPTY, [], [], 0)
  {
  }

  predicate NoAdds(adds: seq<seq<NewTimer>>) {
    forall i :: 0 <= i < |adds| ==> adds[i] == []
  }

  lemma {:induction false} QuietCallbacks(q: Queue, todo: seq<Entry>, now: int, adds: seq<seq<NewTimer>>)
    requires |adds| == |todo| && NoAdds(adds)
    ensures FreshRun(q, todo, now, adds) && RunAll(q, todo, now, adds).arm == q.arm
    decreases |todo|
  {
    if todo != [] {
      QuietCallbacks(RunOne(q, todo[0], now, adds[0]), todo[1..], now, adds[1..]);
    }
  }

  lemma {:induction false} ResetKeepsArm(q: Queue, done: seq<Entry>, now: int)
    ensures ResetAll(q, done, now).arm == q.arm
    decreases |done|
  {
    if done != [] {
      ResetKeepsArm(ResetOne(q, done[0], now), done[1..], now);
    }
  }

  // ----- When re-arming succeeds, exactly -----

  /** All that arming looks at: whether there are timers, the earliest expiration, and the timerfd. */
  datatype Lead = Lead(none: bool, when: int, arm: Arm)

  function LeadOf(q: Queue): Lead {
    Lead(q.timers == [], if q.timers == [] then 0 else q.timers[0].when, q.arm)
  }

  /** An added timer takes the lead, and the timerfd, if it comes first. */
  function LeadAdd(l: Lead, n: NewTimer): Lead {
    if l.none || n.when < l.when then Lead(false, n.when, ArmFor(n.when, n.clock)) else l
  }

  function LeadAddAll(l: Lead, ns: seq<NewTimer>): Lead
    decreases |ns|
  {
    if ns == [] then l else LeadAddAll(LeadAdd(l, ns[0]), ns[1..])
  }

  function LeadAll(l: Lead, adds: seq<seq<NewTimer>>): Lead
    decreases |adds|
  {
    if adds == [] then l else LeadAll(LeadAddAll(l, adds[0]), adds[1..])
  }

  lemma {:induction false} AddAllLead(q: Queue, ns: seq<NewTimer>)
    ensures LeadOf(AddAll(q, ns)) == LeadAddAll(LeadOf(q), ns)
    decreases |ns|
  {
    if ns != [] {
      assert LeadOf(Add(q, ns[0])) == LeadAdd(LeadOf(q), ns[0]);
      AddAllLead(Add(q, ns[0]), ns[1..]);
    }
  }

  lemma {:induction false} RunAllLead(q: Queue, todo: seq<Entry>, now: int, adds: seq<seq<NewTimer>>)
    requires |adds| == |todo|
    ensures LeadOf(RunAll(q, todo, now, adds)) == LeadAll(LeadOf(q), adds)
    decreases |todo|
  {
    if todo != [] {
      AddAllLead(Ran(q, todo[0], now), adds[0]);
      RunAllLead(RunOne(q, todo[0], now, adds[0]), todo[1..], now, adds[1..]);
    }
  }

  /** What the timerfd is after the callbacks, from the queue before and what they add. */
  function ArmLeft(q: Queue, now: int, adds: seq<seq<NewTimer>>): Arm {
    LeadAll(LeadOf(TakeExpired(ReadTimerfd(q), now)), adds).arm
  }

  /** Re-arming from the end of `reset`, given the timerfd as the callbacks left it. */
  lemma RearmSucceedsExactly(q: Queue, clock: int)
    requires Ok(q, [])
    ensures ArmOk(Rearm(q, clock)) <==> forall e :: e in ToSet(q.timers) ==> 0 < e.when || InTime(q.arm, e.when)
  {
    if q.timers != [] {
      var first := q.timers[0];
      assert first in ToSet(q.timers) && Tracks(q, first);
      ArmForOk(first.when, clock);
      forall e | e in ToSet(q.timers)
        ensures first.when <= e.when
      {
        var i :| 0 <= i < |q.timers| && q.timers[i] == e;
        assert 0 < i ==> Before(q.timers[0], q.timers[i]);
      }
    }
  }

  /**
   `handleRead` leaves the timerfd due in time exactly when every timer that will be there - the
   later ones, those added and those restarted - has a positive expiration or is served by the
   timerfd as the callbacks leave it.
   */
  lemma ArmsExactly(q: Queue, now: int, adds: seq<seq<NewTimer>>, clock: int)
    requires Inv(q, [], [])
    requires FreshRun(TakeExpired(ReadTimerfd(q), now), Expired(q, now), now, adds)
    ensures Live(q, Expired(q, now))
    ensures ArmOk(HandleRead(q, now, adds, clock)) <==>
              forall e :: e in Later(q.timers, now) + AddedAll(adds) + Restarted(q, Expired(q, now), now) ==>
                0 < e.when || InTime(ArmLeft(q, now, adds), e.when)
  {
    var due := Expired(q, now);
    DueExactly(q, now);
    CallbacksEffect(q, now, adds);
    var q2 := Callbacks(q, now, adds);
    var q3 := ResetAll(q2, due, now);
    ResetAllKeeps(q2, due, now);
    ResetKeepsArm(q2, due, now);
    RunAllLead(TakeExpired(ReadTimerfd(q), now), due, now, adds);
    RearmSucceedsExactly(q3, clock);
    HandleReadExactly(q, now, adds, clock);
    assert Rearm(q3, clock).timers == q3.timers;
  }

  lemma {:induction false} NothingAdded(l: Lead, adds: seq<seq<NewTimer>>)
    requires NoAdds(adds)
    ensures AddedAll(adds) == {} && LeadAll(l, adds) == l
    decreases |adds|
  {
    if adds != [] {
      NothingAdded(l, adds[1..]);
    }
  }

  /** When no callback adds a timer and the timerfd had fired: exactly when all expirations are positive. */
  lemma RearmsExactly(q: Queue, now: int, adds: seq<seq<NewTimer>>, clock: int)
    requires Inv(q, [], []) && q.arm.Fired?
    requires |adds| == |Expired(q, now)| && NoAdds(adds)
    ensures Live(q, Expired(q, now))
    ensures ArmOk(HandleRead(q, now, adds, clock)) <==>
              forall e :: e in Later(q.timers, now) + Restarted(q, Expired(q, now), now) ==> 0 < e.when
  {
    var q1 := TakeExpired(ReadTimerfd(q), now);
    QuietCallbacks(q1, Expired(q, now), now, adds);
    NothingAdded(LeadOf(q1), adds);
    ArmsExactly(q, now, adds, clock);
  }

  lemma RunStep(q: Queue, es: seq<Event>)
    requires es != [] && Possible(q, es[0]) && PossibleRun(Step(q, es[0]), es[1..])
    ensures PossibleRun(q, es) && RunEvents(q, es) == RunEvents(Step(q, es[0]), es[1..])
  {
  }

  lemma RunFour(q: Queue, es: seq<Event>)
    requires |es| == 4 && Possible(q, es[0]) && Possible(Step(q, es[0]), es[1])
    requires var q2 := Step(Step(q, es[0]), es[1]); Possible(q2, es[2]) && Possible(Step(q2, es[2]), es[3])
    ensures PossibleRun(q, es) && RunEvents(q, es) == Step(Step(Step(Step(q, es[0]), es[1]), es[2]), es[3])
  {
    assert es[3..][1..] == [] && es[2..][1..] == es[3..] && es[1..][1..] == es[2..];
    var q1 := Step(q, es[0]);
    var q2 := Step(q1, es[1]);
    RunStep(Step(q2, es[2]), es[3..]);
    RunStep(q2, es[2..]);
    RunStep(q1, es[1..]);
    RunStep(q, es);
  }

  const BEFORE_THE_EPOCH: seq<Event> :=
    [AddTimer(NewTimer(2, -1500, 0.0, -3000)), AddTimer(NewTimer(3, -5, 0.0, -3000)),
     TimerfdFires, TimerfdReadable(-1000, [[]], -1000)]

  lemma AddedBeforeTheEpoch() returns (q: Queue)
    ensures var es := BEFORE_THE_EPOCH;
            && Possible(EMPTY, es[0]) && Possible(Step(EMPTY, es[0]), es[1])
            && q == Step(Step(EMPTY, es[0]), es[1])
            && q.timers == [Entry(-1500, 2), Entry(-5, 3)] && q.arm == Armed(-3000, -1500) && Inv(q, [], [])
  {
    var es := BEFORE_THE_EPOCH;
    var q1 := Step(EMPTY, es[0]);
    ArmForOk(-1500, -3000);
    assert q1.timers == [Entry(-1500, 2)];
    q := Step(q1, es[1]);
    assert [Entry(-5, 3)] + [] == [Entry(-5, 3)];
    assert q1.timers[1..] == [];
    AddKeeps(EMPTY, es[0].timer, [], []);
    AddKeeps(q1, es[1].timer, [], []);
  }

  /** The timerfd has fired at its deadline; the first timer runs, and nothing is armed for the second. */
  lemma SecondTimerIsLeft(q: Queue)
    requires Inv(q, [], []) && q.timers == [Entry(-1500, 2), Entry(-5, 3)] && q.arm.Fired?
    ensures Possible(q, TimerfdReadable(-1000, [[]], -1000))
    ensures var r := Step(q, TimerfdReadable(-1000, [[]], -1000)); Entry(-5, 3) in r.timers && !ArmOk(r)
  {
    var adds: seq<seq<NewTimer>> := [[]];
    ExpiredExactly(q.timers, -1000);
    assert q.timers[0].when <= -1000 < q.timers[1].when;
    assert Expired(q, -1000) == [Entry(-1500, 2)];
    QuietCallbacks(TakeExpired(ReadTimerfd(q), -1000), Expired(q, -1000), -1000, adds);
    assert Entry(-5, 3) in Later(q.timers, -1000);
    RearmsExactly(q, -1000, adds, -1000);
    HandleReadExactly(q, -1000, adds, -1000);
    assert Entry(-5, 3) in ToSet(HandleRead(q, -1000, adds, -1000).timers);
  }

  /** The positive clock is needed: before the epoch a remaining timer is left with nothing armed. */
  lemma NegativeClockLosesTimer()
    ensures PossibleRun(EMPTY, BEFORE_THE_EPOCH)
    ensures var r := RunEvents(EMPTY, BEFORE_THE_EPOCH); Entry(-5, 3) in r.timers && !ArmOk(r)
  {
    var es := BEFORE_THE_EPOCH;
    var q2 := AddedBeforeTheEpoch();
    var q3 := Step(q2, es[2]);
    StepKeeps(q2, es[2]);
    SecondTimerIsLeft(q3);
    RunFour(EMPTY, es);
  }

  // ----- The object -----

  /** One more entry before `e` belongs to the part in front of its place. */
  lemma InsertedAt(es: seq<Entry>, e: Entry, i: nat)
    requires i < |es| && Before(es[i], e)
    ensures es[..i] + Inserted(es[i..], e) == es[..i + 1] + Inserted(es[i + 1..], e)
  {
    assert es[i..][1..] == es[i + 1..];
    var tail := Inserted(es[i + 1..], e);
    assert Inserted(es[i..], e) == [es[i]] + tail;
    assert es[..i + 1] == es[..i] + [es[i]];
  }

  lemma LowerBoundAt(es: seq<Entry>, bound: Entry, i: nat)
    requires i < |es| && Before(es[i], bound)
    ensures LowerBound(es[i..], bound) == 1 + LowerBound(es[i + 1..], bound)
  {
    assert es[i..][1..] == es[i + 1..];
  }

  class TimerQueue {
    var timers: seq<Entry>
    var store: map<Addr, Timer>
    var arm: Arm
    var created: nat
    var fault: bool
    ghost var runs: seq<Run>

    ghost function View(): Queue
      reads this
    {
      Queue(timers, store, arm, created, runs, fault)
    }

    constructor ()
      ensures View() == EMPTY
    {
      timers, store, arm, created, fault, runs := [], map[], Disarmed, 0, false, [];
    }

    /** The position of `e` in the set: the first entry not before it. */
    method FindPlace(e: Entry) returns (i: nat)
      ensures i <= |timers| && Inserted(timers, e) == timers[..i] + Inserted(timers[i..], e)
      ensures i < |timers| ==> !Before(timers[i], e)
      ensures forall j :: 0 <= j < i ==> Before(timers[j], e)
    {
      i := 0;
      assert timers[0..] == timers;
      while i < |timers| && Before(timers[i], e)
        invariant i <= |timers|
        invariant Inserted(timers, e) == timers[..i] + Inserted(timers[i..], e)
        invariant forall j :: 0 <= j < i ==> Before(timers[j], e)
      {
        InsertedAt(timers, e, i);
        i := i + 1;
      }
    }

    /** `insert`. */
    method InsertTimer(addr: Addr) returns (earliestChanged: bool)
      requires addr in store && Sorted(timers)
      modifies this`timers, this`fault
      ensures View() == Insert(old(View()), addr)
      ensures earliestChanged == EarliestChanges(old(View()), store[addr].expiration)
    {
      var e := Entry(store[addr].expiration, addr);
      earliestChanged := timers == [] || e.when < timers[0].when;
      var i := FindPlace(e);
      assert timers == timers[..i] + timers[i..];
      if i < |timers| && timers[i] == e {
        fault := true;
      } else {
        AbsentAt(timers, e, i);
        timers := timers[..i] + ([e] + timers[i..]);
      }
    }

    /** `addTimer` on the loop thread. */
    method AddTimer(n: NewTimer)
      requires Sorted(timers)
      modifies this
      ensures View() == Add(old(View()), n)
    {
      store := store[n.addr := Timer(created, n.when, n.interval)];
      created := created + 1;
      var earliestChanged := InsertTimer(n.addr);
      if earliestChanged {
        arm := ArmFor(n.when, n.clock);
      }
    }

    /** `getExpired`: the prefix before the sentinel. */
    method GetExpired(now: int) returns (expired: seq<Entry>)
      modifies this`timers, this`fault
      ensures expired == Expired(old(View()), now) && View() == TakeExpired(old(View()), now)
    {
      var sentry := Entry(now, UINTPTR_MAX);
      var k := 0;
      assert timers[0..] == timers;
      while k < |timers| && Before(timers[k], sentry)
        invariant k <= |timers| && View() == old(View())
        invariant LowerBound(timers, sentry) == k + LowerBound(timers[k..], sentry)
      {
        LowerBoundAt(timers, sentry, k);
        k := k + 1;
      }
      assert k < |timers| ==> timers[k..][0] == timers[k];
      assert LowerBound(timers[k..], sentry) == 0;
      if k < |timers| && timers[k].when <= now {
        fault := true;
      }
      expired, timers := timers[..k], timers[k..];
    }

    /** One callback: it runs, and what it adds goes through `addTimer`. */
    method RunCallback(e: Entry, now: int, adds: seq<NewTimer>)
      requires Sorted(timers) && e.addr in store
      modifies this
      ensures View() == RunOne(old(View()), e, now, adds) && Sorted(timers)
    {
      runs := runs + [RunOf(store[e.addr], now)];
      ghost var final := AddAll(View(), adds);
      var i := 0;
      assert adds[0..] == adds;
      while i < |adds|
        invariant i <= |adds| && Sorted(timers) && AddAll(View(), adds[i..]) == final
      {
        assert adds[i..][1..] == adds[i + 1..] && adds[i..][0] == adds[i];
        InsertedSorted(timers, Entry(adds[i].when, adds[i].addr));
        AddTimer(adds[i]);
        i := i + 1;
      }
    }

    /** `handleRead`. */
    method HandleTimerfd(now: int, adds: seq<seq<NewTimer>>, clock: int)
      requires Inv(View(), [], [])
      requires FreshRun(TakeExpired(ReadTimerfd(View()), now), Expired(View(), now), now, adds)
      modifies this
      ensures View() == HandleRead(old(View()), now, adds, clock) && Inv(View(), [], [])
    {
      ghost var q := View();
      CallbacksEffect(q, now, adds);
      HandleReadKeeps(q, now, adds, clock);
      TakeExpiredSorted(q, now);
      if arm.Fired? {
        arm := Disarmed;
      }
      var expired := GetExpired(now);
      RunCallbacks(expired, now, adds);
      ResetTimers(expired, now, clock);
    }

    /** The loop over the expired timers. */
    method RunCallbacks(expired: seq<Entry>, now: int, adds: seq<seq<NewTimer>>)
      requires Sorted(timers) && |adds| == |expired| && Live(View(), expired)
      modifies this
      ensures View() == RunAll(old(View()), expired, now, adds)
    {
      ghost var final := RunAll(View(), expired, now, adds);
      var i := 0;
      assert expired[0..] == expired && adds[0..] == adds;
      while i < |expired|
        invariant i <= |expired| && Sorted(timers) && Live(View(), expired)
        invariant RunAll(View(), expired[i..], now, adds[i..]) == final
      {
        assert expired[i..][1..] == expired[i + 1..] && expired[i..][0] == expired[i];
        assert adds[i..][1..] == adds[i + 1..] && adds[i..][0] == adds[i];
        AddAllLive(Ran(View(), expired[i], now), adds[i], expired);
        RunCallback(expired[i], now, adds[i]);
        i := i + 1;
      }
    }

    /** The loop of `reset`, and its re-arming. */
    method ResetTimers(expired: seq<Entry>, now: int, clock: int)
      requires Inv(View(), expired, expired)
      modifies this`timers, this`fault, this`store, this`arm
      ensures View() == Rearm(ResetAll(old(View()), expired, now), clock)
    {
      ghost var final := ResetAll(View(), expired, now);
      var i := 0;
      assert expired[0..] == expired;
      while i < |expired|
        invariant i <= |expired|
        invariant Inv(View(), expired[i..], expired[i..]) && ResetAll(View(), expired[i..], now) == final
      {
        ghost var q := View();
        ResetOneKeeps(q, expired[i..], now);
        assert expired[i..][1..] == expired[i + 1..] && expired[i..][0] == expired[i];
        ResetTimer(expired[i], now);
        assert View() == ResetOne(q, expired[i], now);
        i := i + 1;
      }
      if timers != [] && timers[0].addr in store && store[timers[0].addr].expiration > 0 {
        arm := ArmFor(store[timers[0].addr].expiration, clock);
      }
    }

    /** `restart` and `insert` for a repeating timer, `delete` for another. */
    method ResetTimer(e: Entry, now: int)
      requires Sorted(timers)
      modifies this`timers, this`fault, this`store
      ensures View() == ResetOne(old(View()), e, now)
    {
      if e.addr !in store {
        fault := true;
      } else if store[e.addr].Repeats() {
        var t := store[e.addr];
        store := store[e.addr := t.(expiration := now + Micros(t.interval))];
        var _ := InsertTimer(e.addr);
      } else {
        store := store - {e.addr};
      }
    }
  }

  lemma TakeExpiredSorted(q: Queue, now: int)
    requires Inv(q, [], [])
    ensures var r := TakeExpired(ReadTimerfd(q), now); Sorted(r.timers) && Live(r, Expired(q, now))
  {
    DueExactly(q, now);
  }

  /** Adding timers deletes none. */
  lemma {:induction false} AddAllLive(q: Queue, ns: seq<NewTimer>, es: seq<Entry>)
    requires Live(q, es)
    ensures Live(AddAll(q, ns), es)
    decreases |ns|
  {
    if ns != [] {
      AddAllLive(Add(q, ns[0]), ns[1..], es);
    }
  }

  /** Past the entries before `e`, a set without `e` there does not hold it at all. */
  lemma AbsentAt(es: seq<Entry>, e: Entry, i: nat)
    requires Sorted(es) && i <= |es| && (i < |es| ==> !Before(es[i], e) && es[i] != e)
    requires forall j :: 0 <= j < i ==> Before(es[j], e)
    ensures e !in es && Inserted(es[i..], e) == [e] + es[i..]
  {
  }
}
