/**
 The reactor's task queue and wakeup (src/EventLoop.cpp).  `Loop` is the shared state of one
 loop and its thread, moved by atomic steps of the loop thread and of any number of other
 threads; `EventLoop` is the object whose methods perform them.
 */
module EventLoops {
  type Task = nat

  /** Where the loop thread stands in `loop()`. */
  datatype Pc =
    | Idle        // before loop()
    | Deciding    // at the test of quit_
    | Polling     // about to block in poll(2), or blocked there
    | Handling    // running channel handlers
    | Flagged     // callingPendingFunctors_ is set, the queue not yet swapped
    | Draining    // running the swapped-out functors
    | Stopped

  datatype Loop = Loop(
    pc: Pc,
    quit: bool,
    calling: bool,
    pending: seq<Task>,
    batch: seq<Task>,         // what is left of the vector swapped out by doPendingFunctors
    counter: nat,             // the eventfd
    waking: nat,              // other threads between their push or quit and their wakeup()
    owesWake: bool,           // the loop thread between its own push and wakeup()
    enqueued: seq<Task>,      // every task queued so far
    ran: seq<Task>,           // every task run so far
    swaps: nat,               // batches started so far
    enqueuedAt: seq<nat>,     // for each queued task, the batches started before
    ranAt: seq<nat>)          // for each task run, its batch

  const INITIAL: Loop := Loop(Idle, false, false, [], [], 0, 0, false, [], [], 0, [], [])

  const EVENTFD_MAX: nat := 0xFFFF_FFFF_FFFF_FFFE

  /** write(2) of 1 to the eventfd; a full counter stays full. */
  function Bumped(counter: nat): (r: nat)
    ensures 0 < r
  {
    if counter < EVENTFD_MAX then counter + 1 else counter
  }

  datatype Step =
    | Enter
    | Decide
    | PollReturns
    | ReadWakeup
    | BeginDrain
    | Swap
    | RunNext
    | EndDrain
    | LoopQueues(task: Task)
    | LoopWakes
    | LoopQuits
    | OtherQueues(task: Task)
    | OtherQuits
    | OtherWakes
    | EarlyQueue(task: Task)  // the loop thread queues outside loop()

  /** The loop thread is outside `loop()`. */
  predicate Outside(s: Loop) {
    s.pc == Idle || s.pc == Stopped
  }

  /** The loop thread is in a handler or a functor. */
  predicate Inside(s: Loop) {
    s.pc == Handling || s.pc == Draining
  }

  predicate Enabled(s: Loop, step: Step) {
    match step
    case Enter => Outside(s)
    case Decide => s.pc == Deciding
    case PollReturns => s.pc == Polling
    case ReadWakeup => s.pc == Handling
    case BeginDrain => s.pc == Handling
    case Swap => s.pc == Flagged
    case RunNext => s.pc == Draining && s.batch != [] && !s.owesWake
    case EndDrain => s.pc == Draining && s.batch == [] && !s.owesWake
    case LoopQueues(_) => Inside(s) && !s.owesWake
    case LoopWakes => s.owesWake
    case LoopQuits => Inside(s) || Outside(s)
    case OtherQueues(_) => true
    case OtherQuits => true
    case OtherWakes => 0 < s.waking
    case EarlyQueue(_) => Outside(s)
  }

  function Push(s: Loop, task: Task): Loop {
    s.(pending := s.pending + [task], enqueued := s.enqueued + [task], enqueuedAt := s.enqueuedAt + [s.swaps])
  }

  function Next(s: Loop, step: Step): Loop
    requires Enabled(s, step)
  {
    match step
    case Enter => s.(pc := Deciding, quit := false)
    case Decide => s.(pc := if s.quit then Stopped else Polling)
    case PollReturns => s.(pc := Handling)
    case ReadWakeup => s.(counter := 0)
    case BeginDrain => s.(pc := Flagged, calling := true)
    case Swap => s.(pc := Draining, batch := s.pending, pending := [], swaps := s.swaps + 1)
    case RunNext => s.(batch := s.batch[1..], ran := s.ran + [s.batch[0]], ranAt := s.ranAt + [s.swaps])
    case EndDrain => s.(pc := Deciding, calling := false)
    case LoopQueues(task) => Push(s, task).(owesWake := s.calling)
    case LoopWakes => s.(owesWake := false, counter := Bumped(s.counter))
    case LoopQuits => s.(quit := true)
    case OtherQueues(task) => Push(s, task).(waking := s.waking + 1)
    case OtherQuits => s.(quit := true, waking := s.waking + 1)
    case OtherWakes => s.(waking := s.waking - 1, counter := Bumped(s.counter))
    case EarlyQueue(task) => Push(s, task)
  }

  ghost predicate EnabledRun(s: Loop, steps: seq<Step>)
    decreases |steps|
  {
    steps == [] || (Enabled(s, steps[0]) && EnabledRun(Next(s, steps[0]), steps[1..]))
  }

  ghost function Run(s: Loop, steps: seq<Step>): Loop
    requires EnabledRun(s, steps)
    decreases |steps|
  {
    if steps == [] then s else Run(Next(s, steps[0]), steps[1..])
  }

  /** The steps are possible and lead from `s` to `r`. */
  ghost predicate Reaches(s: Loop, steps: seq<Step>, r: Loop) {
    EnabledRun(s, steps) && Run(s, steps) == r
  }

  lemma {:induction false} RunSplit(s: Loop, a: seq<Step>, b: seq<Step>)
    ensures EnabledRun(s, a + b) <==> EnabledRun(s, a) && EnabledRun(Run(s, a), b)
    ensures EnabledRun(s, a + b) ==> Run(s, a + b) == Run(Run(s, a), b)
    decreases |a|
  {
    if a == [] {
      assert a + b == b;
    } else {
      assert (a + b)[1..] == a[1..] + b;
      if Enabled(s, a[0]) {
        RunSplit(Next(s, a[0]), a[1..], b);
      }
    }
  }

  /** A run, taken apart at its last step. */
  lemma RunLast(s: Loop, steps: seq<Step>)
    requires steps != [] && EnabledRun(s, steps)
    ensures var n := |steps| - 1;
            && EnabledRun(s, steps[..n]) && Enabled(Run(s, steps[..n]), steps[n])
            && Run(s, steps) == Next(Run(s, steps[..n]), steps[n])
  {
    SplitLast(steps);
    RunSnoc(s, steps[..|steps| - 1], steps[|steps| - 1]);
  }

  lemma SplitLast(steps: seq<Step>)
    requires steps != []
    ensures steps[..|steps| - 1] + [steps[|steps| - 1]] == steps
  {
  }

  lemma RunSnoc(s: Loop, a: seq<Step>, x: Step)
    requires EnabledRun(s, a + [x])
    ensures EnabledRun(s, a) && Enabled(Run(s, a), x) && Run(s, a + [x]) == Next(Run(s, a), x)
  {
    RunSplit(s, a, [x]);
    RunOne(Run(s, a), x);
  }

  lemma RunOne(s: Loop, step: Step)
    ensures EnabledRun(s, [step]) <==> Enabled(s, step)
    ensures Enabled(s, step) ==> Run(s, [step]) == Next(s, step)
  {
    assert [step][1..] == [];
  }

  // ----- No lost wakeup -----

  /** The poll about to be entered will return, or another thread is about to make it return. */
  predicate WakeupDue(s: Loop) {
    0 < s.counter || 0 < s.waking
  }

  predicate NoLostWakeup(s: Loop) {
    s.pc == Polling && (s.pending != [] || s.quit) ==> WakeupDue(s)
  }

  /** Tasks are pending and nothing will make poll return for them. */
  predicate Unheard(s: Loop) {
    s.pending != [] && !WakeupDue(s)
  }

  /** What `calling` and `owesWake` follow from. */
  predicate Shape(s: Loop) {
    && (s.calling <==> s.pc == Flagged || s.pc == Draining)
    && (s.owesWake ==> s.pc == Draining)
  }

  /** The last step enters `loop()` with unheard tasks. */
  ghost predicate EntersUnheard(steps: seq<Step>) {
    var n := |steps| - 1;
    0 <= n && steps[n] == Enter && EnabledRun(INITIAL, steps[..n]) && Unheard(Run(INITIAL, steps[..n]))
  }

  /** The last two steps do, and go on to poll. */
  ghost predicate PollsUnheard(steps: seq<Step>) {
    var n := |steps| - 1;
    0 <= n && steps[n] == Decide && EntersUnheard(steps[..n])
  }

  /**
   Where tasks can be unheard: outside `loop()`, and on the way from there to the first poll;
   `entered` and `polls` say that the last step, or the last two, were on that way.
   */
  predicate WakeInv(s: Loop, entered: bool, polls: bool) {
    && Shape(s)
    && (entered <==> s.pc == Deciding && Unheard(s)) && (entered ==> !s.quit)
    && (polls <==> s.pc == Polling && Unheard(s))
    && (s.pc == Polling && s.quit ==> WakeupDue(s))
    && (s.pc == Draining && s.pending != [] ==> WakeupDue(s) || s.owesWake)
  }

  lemma StepKeepsWakeInv(s: Loop, entered: bool, polls: bool, step: Step)
    requires WakeInv(s, entered, polls) && Enabled(s, step)
    ensures WakeInv(Next(s, step), step == Enter && Unheard(s), step == Decide && entered)
  {
  }

  lemma {:induction false} RunKeepsWakeInv(steps: seq<Step>)
    requires EnabledRun(INITIAL, steps)
    ensures WakeInv(Run(INITIAL, steps), EntersUnheard(steps), PollsUnheard(steps))
    decreases |steps|
  {
    if steps != [] {
      var init := steps[..|steps| - 1];
      RunLast(INITIAL, steps);
      RunKeepsWakeInv(init);
      StepKeepsWakeInv(Run(INITIAL, init), EntersUnheard(init), PollsUnheard(init), steps[|steps| - 1]);
    }
  }

  /**
   On every interleaving, and over any number of calls of `loop()`: a loop blocks with work or a
   quit outstanding and nobody to wake it exactly at the first poll of a `loop()` that was entered
   with tasks pending, the eventfd at zero and no thread about to write it, nobody acting since.
   */
  lemma WakeupIsLostExactly(steps: seq<Step>)
    requires EnabledRun(INITIAL, steps)
    ensures NoLostWakeup(Run(INITIAL, steps)) <==> !PollsUnheard(steps)
  {
    RunKeepsWakeInv(steps);
  }

  predicate Early(step: Step) {
    step.EarlyQueue? || step == LoopQuits || step == Enter || step == Decide
  }

  /** Nobody but the loop thread has acted, and that only on its way to its first poll. */
  predicate OnlyEarly(steps: seq<Step>) {
    forall i :: 0 <= i < |steps| ==> Early(steps[i])
  }

  lemma OnlyEarlyLast(steps: seq<Step>)
    requires steps != []
    ensures OnlyEarly(steps) <==> OnlyEarly(steps[..|steps| - 1]) && Early(steps[|steps| - 1])
  {
  }

  lemma {:induction false} BeforeEntering(steps: seq<Step>)
    requires EnabledRun(INITIAL, steps) && Enter !in steps
    ensures var s := Run(INITIAL, steps); s.pc == Idle && !s.owesWake && (OnlyEarly(steps) <==> !WakeupDue(s))
    decreases |steps|
  {
    if steps != [] {
      RunLast(INITIAL, steps);
      OnlyEarlyLast(steps);
      BeforeEntering(steps[..|steps| - 1]);
    }
  }

  /** During the first `loop()`: exactly when only the loop thread has acted and it had queued a task. */
  lemma FirstWakeupIsLostExactly(before: seq<Step>, after: seq<Step>)
    requires EnabledRun(INITIAL, before + [Enter] + after) && Enter !in before && Enter !in after
    ensures var steps := before + [Enter] + after;
            var s := Run(INITIAL, steps);
            NoLostWakeup(s) <==> !(OnlyEarly(steps) && s.pc == Polling && s.pending != [])
  {
    var steps := before + [Enter] + after;
    RunSplit(INITIAL, before + [Enter], after);
    RunSplit(INITIAL, before, [Enter]);
    BeforeEntering(before);
    WakeupIsLostExactly(steps);
    RunKeepsWakeInv(steps);
    if OnlyEarly(steps) && Run(INITIAL, steps).pc == Polling {
      EarlyRunKeepsQuiet(steps);
    }
    if PollsUnheard(steps) {
      var n := |steps| - 2;
      assert steps[n] == Enter && steps[n + 1] == Decide;
      assert steps[..n + 1][..n] == steps[..n];
      assert n == |before| && steps[..n] == before;
      assert forall i :: 0 <= i < n ==> Early(before[i]);
    }
  }

  lemma {:induction false} EarlyRunKeepsQuiet(steps: seq<Step>)
    requires EnabledRun(INITIAL, steps) && OnlyEarly(steps)
    ensures !WakeupDue(Run(INITIAL, steps))
    decreases |steps|
  {
    if steps != [] {
      RunLast(INITIAL, steps);
      OnlyEarlyLast(steps);
      EarlyRunKeepsQuiet(steps[..|steps| - 1]);
    }
  }

  /** Without early tasks, no task is ever unheard where that matters. */
  predicate Heard(s: Loop) {
    && Shape(s) && NoLostWakeup(s)
    && ((Outside(s) || s.pc == Deciding) && s.pending != [] ==> WakeupDue(s))
    && (s.pc == Draining && s.pending != [] ==> WakeupDue(s) || s.owesWake)
  }

  lemma {:induction false} WakeupIsNeverLost(s: Loop, steps: seq<Step>)
    requires Heard(s) && EnabledRun(s, steps)
    requires forall step :: step in steps ==> !step.EarlyQueue?
    ensures Heard(Run(s, steps))
    decreases |steps|
  {
    if steps != [] {
      WakeupIsNeverLost(Next(s, steps[0]), steps[1..]);
    }
  }

  /** In particular, none is lost when the loop thread queues only from handlers and functors. */
  lemma NoWakeupLostOnAnyRun(steps: seq<Step>)
    requires EnabledRun(INITIAL, steps)
    requires forall step :: step in steps ==> !step.EarlyQueue?
    ensures NoLostWakeup(Run(INITIAL, steps))
  {
    WakeupIsNeverLost(INITIAL, steps);
  }

  /** A task queued by the loop thread before loop() wakes nobody. */
  lemma EarlyQueueLosesWakeup(task: Task)
    ensures var steps := [EarlyQueue(task)] + [Enter] + [Decide];
            EnabledRun(INITIAL, steps) && !NoLostWakeup(Run(INITIAL, steps))
  {
    RunOne(INITIAL, EarlyQueue(task));
    var s1 := Next(INITIAL, EarlyQueue(task));
    RunOne(s1, Enter);
    RunOne(Next(s1, Enter), Decide);
    RunSplit(INITIAL, [EarlyQueue(task)], [Enter]);
    RunSplit(INITIAL, [EarlyQueue(task)] + [Enter], [Decide]);
    FirstWakeupIsLostExactly([EarlyQueue(task)], [Decide]);
  }

  // ----- Which quits are honoured -----

  predicate Quits(step: Step) {
    step == LoopQuits || step == OtherQuits
  }

  /** A quit that no later entry into `loop()` has cleared. */
  ghost predicate QuitSinceEntry(steps: seq<Step>) {
    exists i :: 0 <= i < |steps| && Quits(steps[i]) && NoEntryAfter(steps, i)
  }

  predicate NoEntryAfter(steps: seq<Step>, i: int)
    requires 0 <= i < |steps|
  {
    forall j :: i < j < |steps| ==> steps[j] != Enter
  }

  lemma QuitSinceEntryLast(steps: seq<Step>)
    requires steps != []
    ensures var n := |steps| - 1;
            QuitSinceEntry(steps) <==> Quits(steps[n]) || (steps[n] != Enter && QuitSinceEntry(steps[..n]))
  {
    var n := |steps| - 1;
    assert NoEntryAfter(steps, n);
    forall i | 0 <= i < n
      ensures NoEntryAfter(steps, i) <==> steps[n] != Enter && NoEntryAfter(steps[..n], i)
    {
    }
    if QuitSinceEntry(steps) && !Quits(steps[n]) {
      var i :| 0 <= i < |steps| && Quits(steps[i]) && NoEntryAfter(steps, i);
      assert Quits(steps[..n][i]) && NoEntryAfter(steps[..n], i);
    }
    if steps[n] != Enter && QuitSinceEntry(steps[..n]) {
      var i :| 0 <= i < n && Quits(steps[..n][i]) && NoEntryAfter(steps[..n], i);
      assert Quits(steps[i]) && NoEntryAfter(steps, i);
    }
  }

  /** The flag is set exactly when a quit came after the last entry into `loop()`. */
  lemma {:induction false} QuitIsHeardExactly(steps: seq<Step>)
    requires EnabledRun(INITIAL, steps)
    ensures Run(INITIAL, steps).quit <==> QuitSinceEntry(steps)
    decreases |steps|
  {
    if steps != [] {
      RunLast(INITIAL, steps);
      QuitSinceEntryLast(steps);
      QuitIsHeardExactly(steps[..|steps| - 1]);
    }
  }

  /** So the test at the head of the loop ends it exactly then. */
  lemma LoopStopsExactly(steps: seq<Step>)
    requires EnabledRun(INITIAL, steps + [Decide])
    ensures Run(INITIAL, steps + [Decide]).pc == if QuitSinceEntry(steps) then Stopped else Polling
  {
    RunSplit(INITIAL, steps, [Decide]);
    RunOne(Run(INITIAL, steps), Decide);
    QuitIsHeardExactly(steps);
  }

  /** Whatever quits came before it, entering the loop and testing the flag goes on to poll. */
  lemma EarlyQuitIsForgotten(before: seq<Step>)
    requires EnabledRun(INITIAL, before + [Enter] + [Decide])
    ensures Run(INITIAL, before + [Enter] + [Decide]).pc == Polling
  {
    var steps := before + [Enter];
    LoopStopsExactly(steps);
    QuitSinceEntryLast(steps);
  }

  // ----- Order and batches -----

  /** Run, swapped-out and waiting tasks are the queued ones; each batch takes those queued since the last. */
  ghost predicate OrderInv(s: Loop) {
    && s.ran + s.batch + s.pending == s.enqueued
    && |s.ranAt| == |s.ran| && |s.enqueuedAt| == |s.enqueued|
    && (s.pc == Draining || s.batch == [])
    && (forall i :: 0 <= i < |s.ran| ==> s.ranAt[i] == s.enqueuedAt[i] + 1)
    && (forall i :: |s.ran| <= i < |s.ran| + |s.batch| ==> s.enqueuedAt[i] + 1 == s.swaps)
    && (forall i :: |s.ran| + |s.batch| <= i < |s.enqueued| ==> s.enqueuedAt[i] == s.swaps)
  }

  lemma PushKeepsOrder(s: Loop, task: Task)
    requires OrderInv(s)
    ensures OrderInv(Push(s, task))
  {
    var r := Push(s, task);
    assert r.ran + r.batch + r.pending == s.ran + s.batch + s.pending + [task];
  }

  lemma StepKeepsOrder(s: Loop, step: Step)
    requires OrderInv(s) && Enabled(s, step)
    ensures OrderInv(Next(s, step))
  {
    match step
    case Swap =>
      assert s.ran + s.pending + [] == s.ran + s.batch + s.pending;
    case RunNext =>
      var r := Next(s, step);
      assert s.batch == [s.batch[0]] + s.batch[1..];
      assert r.ran + r.batch + r.pending == s.ran + s.batch + s.pending;
      assert s.enqueuedAt[|s.ran|] + 1 == s.swaps;
    case LoopQueues(task) => PushKeepsOrder(s, task);
    case OtherQueues(task) => PushKeepsOrder(s, task);
    case EarlyQueue(task) => PushKeepsOrder(s, task);
    case _ =>
  }

  lemma {:induction false} RunKeepsOrder(s: Loop, steps: seq<Step>)
    requires OrderInv(s) && EnabledRun(s, steps)
    ensures OrderInv(Run(s, steps))
    decreases |steps|
  {
    if steps != [] {
      StepKeepsOrder(s, steps[0]);
      RunKeepsOrder(Next(s, steps[0]), steps[1..]);
    }
  }

  // ----- The same from the list of steps alone -----

  predicate Queues(step: Step) {
    step.LoopQueues? || step.OtherQueues? || step.EarlyQueue?
  }

  /** The tasks given to `queueInLoop`, in order. */
  function Tasks(steps: seq<Step>): seq<Task> {
    if steps == [] then []
    else
      var last := steps[|steps| - 1];
      Tasks(steps[..|steps| - 1]) + if Queues(last) then [last.task] else []
  }

  /** How many batches have been started. */
  function Batches(steps: seq<Step>): nat {
    if steps == [] then 0
    else Batches(steps[..|steps| - 1]) + if steps[|steps| - 1] == Swap then 1 else 0
  }

  /** For each task, the number of batches started before it was queued. */
  function QueuedAt(steps: seq<Step>): seq<nat> {
    if steps == [] then []
    else
      var init := steps[..|steps| - 1];
      QueuedAt(init) + if Queues(steps[|steps| - 1]) then [Batches(init)] else []
  }

  /** For each call of a functor, the number of batches started before it. */
  function CalledAt(steps: seq<Step>): seq<nat> {
    if steps == [] then []
    else
      var init := steps[..|steps| - 1];
      CalledAt(init) + if steps[|steps| - 1] == RunNext then [Batches(init)] else []
  }

  ghost predicate Recorded(s: Loop, steps: seq<Step>) {
    && s.enqueued == Tasks(steps) && s.swaps == Batches(steps)
    && s.enqueuedAt == QueuedAt(steps) && s.ranAt == CalledAt(steps)
  }

  lemma StepRecords(s: Loop, steps: seq<Step>)
    requires steps != [] && Recorded(s, steps[..|steps| - 1]) && Enabled(s, steps[|steps| - 1])
    ensures Recorded(Next(s, steps[|steps| - 1]), steps)
  {
  }

  lemma {:induction false} RunRecords(steps: seq<Step>)
    requires EnabledRun(INITIAL, steps)
    ensures Recorded(Run(INITIAL, steps), steps)
    decreases |steps|
  {
    if steps != [] {
      var init := steps[..|steps| - 1];
      RunLast(INITIAL, steps);
      RunRecords(init);
      StepRecords(Run(INITIAL, init), steps);
    }
  }

  /**
   Whoever queues them, the tasks given to `queueInLoop` are called in that order and each at most
   once: those called, those swapped out and those pending are all of them.  Each is called in
   exactly the first batch started after it was queued - so one queued during a drain waits for a
   later batch.
   */
  lemma TasksRunInOrder(steps: seq<Step>)
    requires EnabledRun(INITIAL, steps)
    ensures var s := Run(INITIAL, steps);
            && s.ran + s.batch + s.pending == Tasks(steps) && |s.ran| == |CalledAt(steps)|
            && |QueuedAt(steps)| == |Tasks(steps)|
            && forall i :: 0 <= i < |s.ran| ==> CalledAt(steps)[i] == QueuedAt(steps)[i] + 1
  {
    RunKeepsOrder(INITIAL, steps);
    RunRecords(steps);
  }

  predicate Wakes(step: Step) {
    step == LoopWakes || step == OtherWakes
  }

  /** How often the eventfd has been written since it was last read. */
  function WakesSinceRead(steps: seq<Step>): nat {
    if steps == [] || steps[|steps| - 1] == ReadWakeup then 0
    else WakesSinceRead(steps[..|steps| - 1]) + if Wakes(steps[|steps| - 1]) then 1 else 0
  }

  /** How many other threads have pushed or quit but not yet written the eventfd. */
  function WakesOwed(steps: seq<Step>): int {
    if steps == [] then 0
    else
      var last := steps[|steps| - 1];
      var owed := WakesOwed(steps[..|steps| - 1]);
      if last.OtherQueues? || last == OtherQuits then owed + 1
      else if last == OtherWakes then owed - 1
      else owed
  }

  /** The eventfd counts its writes since the last read, as far as it can; every wakeup owed is still to come. */
  lemma {:induction false} EventfdExactly(steps: seq<Step>)
    requires EnabledRun(INITIAL, steps)
    ensures var s := Run(INITIAL, steps);
            && s.counter == (if WakesSinceRead(steps) < EVENTFD_MAX then WakesSinceRead(steps) else EVENTFD_MAX)
            && s.waking == WakesOwed(steps)
    decreases |steps|
  {
    if steps != [] {
      RunLast(INITIAL, steps);
      EventfdExactly(steps[..|steps| - 1]);
    }
  }

  // ----- A turn of the loop -----

  function Calls(n: nat): seq<Step> {
    seq(n, _ => RunNext)
  }

  lemma {:induction false} CallAll(s: Loop)
    requires s.pc == Draining && !s.owesWake
    ensures EnabledRun(s, Calls(|s.batch|))
    ensures Run(s, Calls(|s.batch|)) ==
            s.(batch := [], ran := s.ran + s.batch, ranAt := s.ranAt + seq(|s.batch|, _ => s.swaps))
    decreases |s.batch|
  {
    if s.batch != [] {
      assert Calls(|s.batch|)[1..] == Calls(|s.batch| - 1);
      var r := Next(s, RunNext);
      CallAll(r);
      assert s.ran + s.batch == r.ran + r.batch;
      assert s.ranAt + seq(|s.batch|, _ => s.swaps) == r.ranAt + seq(|r.batch|, _ => r.swaps);
    } else {
      assert s.ran + [] == s.ran && s.ranAt + seq(0, _ => s.swaps) == s.ranAt;
    }
  }

  /** From poll to poll, nobody disturbing. */
  function TurnSteps(n: nat): seq<Step> {
    [PollReturns, BeginDrain] + ([Swap] + (Calls(n) + ([EndDrain] + [Decide])))
  }

  /** Once woken, the loop calls everything that is pending and polls again, or stops if told to. */
  lemma WokenLoopCallsAll(s: Loop)
    requires s.pc == Polling && !s.owesWake
    ensures EnabledRun(s, TurnSteps(|s.pending|))
    ensures var r := Run(s, TurnSteps(|s.pending|));
            r.ran == s.ran + s.pending && r.pending == [] && r.pc == if s.quit then Stopped else Polling
  {
    var flagged := Next(Next(s, PollReturns), BeginDrain);
    var draining := Next(flagged, Swap);
    CallAll(draining);
    var drained := Run(draining, Calls(|s.pending|));
    var ended := Next(drained, EndDrain);
    RunOne(drained, EndDrain);
    RunOne(ended, Decide);
    RunSplit(drained, [EndDrain], [Decide]);
    RunSplit(draining, Calls(|s.pending|), [EndDrain] + [Decide]);
    RunOne(flagged, Swap);
    RunSplit(flagged, [Swap], Calls(|s.pending|) + ([EndDrain] + [Decide]));
    RunTwo(s, PollReturns, BeginDrain);
    RunSplit(s, [PollReturns, BeginDrain], [Swap] + (Calls(|s.pending|) + ([EndDrain] + [Decide])));
  }

  // ----- The object -----

  /** Someone queues a task: the loop thread, or another one. */
  datatype Queuing = Queuing(task: Task, inLoopThread: bool)

  /** The atomic steps of one `queueInLoop`. */
  function QueueSteps(s: Loop, q: Queuing): seq<Step> {
    if !q.inLoopThread then [OtherQueues(q.task), OtherWakes]
    else if Outside(s) then [EarlyQueue(q.task)]
    else if s.calling then [LoopQueues(q.task), LoopWakes]
    else [LoopQueues(q.task)]
  }

  /** The steps of a functor during which `qs` are queued. */
  function FunctorSteps(qs: seq<Queuing>): seq<Step> {
    if qs == [] then [RunNext]
    else
      var q := qs[|qs| - 1];
      FunctorSteps(qs[..|qs| - 1]) +
      (if q.inLoopThread then [LoopQueues(q.task), LoopWakes] else [OtherQueues(q.task), OtherWakes])
  }

  /** The steps of a batch; `script[i]` is what is queued while its i-th functor runs. */
  function BatchSteps(script: seq<seq<Queuing>>): seq<Step> {
    if script == [] then [] else BatchSteps(script[..|script| - 1]) + FunctorSteps(script[|script| - 1])
  }

  function DrainSteps(script: seq<seq<Queuing>>): seq<Step> {
    [BeginDrain, Swap] + BatchSteps(script) + [EndDrain]
  }

  lemma RunTwo(s: Loop, x: Step, y: Step)
    requires Enabled(s, x) && Enabled(Next(s, x), y)
    ensures EnabledRun(s, [x, y]) && Run(s, [x, y]) == Next(Next(s, x), y)
  {
    assert [x, y] == [x] + [y];
    RunOne(s, x);
    RunOne(Next(s, x), y);
    RunSplit(s, [x], [y]);
  }

  class EventLoop {
    var quit: bool
    var calling: bool
    var pending: seq<Task>
    var counter: nat
    ghost var pc: Pc
    ghost var batch: seq<Task>
    ghost var waking: nat
    ghost var owesWake: bool
    ghost var enqueued: seq<Task>
    var ran: seq<Task>
    ghost var swaps: nat
    ghost var enqueuedAt: seq<nat>
    ghost var ranAt: seq<nat>

    ghost function View(): Loop
      reads this
    {
      Loop(pc, quit, calling, pending, batch, counter, waking, owesWake, enqueued, ran, swaps, enqueuedAt, ranAt)
    }

    constructor ()
      ensures View() == INITIAL
    {
      quit, calling, pending, counter := false, false, [], 0;
      pc, batch, waking, owesWake, enqueued, ran := Idle, [], 0, false, [], [];
      swaps, enqueuedAt, ranAt := 0, [], [];
    }

    /** The section of `queueInLoop` under the mutex. */
    method PushTask(task: Task)
      modifies this`pending, this`enqueued, this`enqueuedAt
      ensures View() == Push(old(View()), task)
    {
      pending := pending + [task];
      enqueued, enqueuedAt := enqueued + [task], enqueuedAt + [swaps];
    }

    /** `wakeup`. */
    method Wakeup()
      modifies this`counter
      ensures View() == old(View()).(counter := Bumped(old(counter)))
    {
      if counter < EVENTFD_MAX {
        counter := counter + 1;
      }
    }

    /** `queueInLoop`. */
    method QueueInLoop(q: Queuing)
      requires Shape(View()) && MayQueue(View(), q)
      modifies this`pending, this`counter, this`enqueued, this`enqueuedAt
      ensures Reaches(old(View()), QueueSteps(old(View()), q), View())
    {
      QueueRun(View(), q);
      PushTask(q.task);
      if !q.inLoopThread || calling {
        Wakeup();
      }
    }

    /** `quit`. */
    method Quit(inLoopThread: bool)
      requires inLoopThread ==> Inside(View()) || Outside(View())
      modifies this`quit, this`counter
      ensures Reaches(old(View()), if inLoopThread then [LoopQuits] else [OtherQuits, OtherWakes], View())
    {
      QuitRun(View(), inLoopThread);
      quit := true;
      if !inLoopThread {
        Wakeup();
      }
    }

    /** The loop's own channel handler, `handleRead`. */
    method HandleRead()
      requires Enabled(View(), ReadWakeup)
      modifies this`counter
      ensures View() == Next(old(View()), ReadWakeup)
    {
      counter := 0;
    }

    /** Entering `loop()`. */
    method EnterLoop()
      requires Enabled(View(), Enter)
      modifies this`quit, this`pc
      ensures View() == Next(old(View()), Enter)
    {
      quit, pc := false, Deciding;
    }

    /** The test of the `while` loop. */
    method TestQuit() returns (goesOn: bool)
      requires Enabled(View(), Decide)
      modifies this`pc
      ensures View() == Next(old(View()), Decide) && goesOn == (pc == Polling)
    {
      goesOn := !quit;
      pc := if quit then Stopped else Polling;
    }

    /** `task` is called; it is the next of the batch. */
    method CallTask(task: Task)
      requires Enabled(View(), RunNext) && task == batch[0]
      modifies this`batch, this`ran, this`ranAt
      ensures Reaches(old(View()), FunctorSteps([]), View())
      ensures View() == Next(old(View()), RunNext) && ran + batch == old(ran + batch)
    {
      RunOne(View(), RunNext);
      ran := ran + [task];
      ranAt, batch := ranAt + [swaps], batch[1..];
    }

    /** A functor of the batch runs while `qs` are queued, by itself or by others. */
    method RunTask(task: Task, qs: seq<Queuing>)
      requires Shape(View()) && Enabled(View(), RunNext) && task == batch[0]
      modifies this`pending, this`counter, this`enqueued, this`enqueuedAt
      modifies this`batch, this`ran, this`ranAt
      ensures Reaches(old(View()), FunctorSteps(qs), View())
      ensures Shape(View()) && pc == Draining && !owesWake
      ensures batch == old(batch)[1..] && ran + batch == old(ran + batch)
    {
      ghost var s := View();
      CallTask(task);
      var i := 0;
      while i < |qs|
        invariant i <= |qs| && Shape(View()) && pc == Draining && !owesWake
        invariant batch == old(batch)[1..] && ran + batch == old(ran + batch)
        invariant Reaches(s, FunctorSteps(qs[..i]), View())
      {
        ghost var v := View();
        QueueRun(v, qs[i]);
        QueueInLoop(qs[i]);
        FunctorGrows(s, qs, i, v, View());
        i := i + 1;
      }
      assert qs[..|qs|] == qs;
    }

    /** The loop of `doPendingFunctors` over the vector swapped out. */
    method RunBatch(functors: seq<Task>, script: seq<seq<Queuing>>)
      requires Shape(View()) && pc == Draining && !owesWake && batch == functors && |script| == |functors|
      modifies this`pending, this`counter, this`enqueued, this`enqueuedAt
      modifies this`batch, this`ran, this`ranAt
      ensures Reaches(old(View()), BatchSteps(script), View())
      ensures Shape(View()) && pc == Draining && !owesWake && batch == [] && ran == old(ran) + functors
    {
      ghost var s := View();
      var i := 0;
      while i < |functors|
        invariant i <= |functors| && Shape(View()) && pc == Draining && !owesWake
        invariant batch == functors[i..] && ran + batch == old(ran) + functors
        invariant Reaches(s, BatchSteps(script[..i]), View())
      {
        ghost var v := View();
        TailStep(functors, i);
        RunTask(functors[i], script[i]);
        BatchGrows(s, script, i, v, View());
        i := i + 1;
      }
      assert script[..|script|] == script;
    }

    /** Setting the flag, and the section under the mutex. */
    method SwapOut() returns (functors: seq<Task>)
      requires Enabled(View(), BeginDrain)
      modifies this`calling, this`batch, this`pending, this`pc, this`swaps
      ensures View() == Next(Next(old(View()), BeginDrain), Swap) && functors == old(pending)
    {
      calling := true;
      functors, pending := pending, [];
      batch, pc, swaps := functors, Draining, swaps + 1;
    }

    method Finish()
      requires Enabled(View(), EndDrain)
      modifies this`calling, this`pc
      ensures View() == Next(old(View()), EndDrain)
    {
      calling, pc := false, Deciding;
    }

    /** `doPendingFunctors`: exactly the tasks waiting at the swap run; what is queued meanwhile waits. */
    method DoPendingFunctors(script: seq<seq<Queuing>>)
      requires Shape(View()) && Enabled(View(), BeginDrain) && |script| == |pending|
      modifies this
      ensures Reaches(old(View()), DrainSteps(script), View())
      ensures ran == old(ran) + old(pending)
    {
      ghost var s := View();
      var functors := SwapOut();
      RunBatch(functors, script);
      DrainRun(s, script);
      Finish();
    }
  }

  lemma FunctorGrows(s: Loop, qs: seq<Queuing>, i: nat, v: Loop, r: Loop)
    requires i < |qs| && Reaches(s, FunctorSteps(qs[..i]), v) && Reaches(v, QueueSteps(v, qs[i]), r)
    requires v.pc == Draining && v.calling
    ensures Reaches(s, FunctorSteps(qs[..i + 1]), r)
  {
    assert qs[..i + 1][..i] == qs[..i];
    RunSplit(s, FunctorSteps(qs[..i]), QueueSteps(v, qs[i]));
  }

  lemma BatchGrows(s: Loop, script: seq<seq<Queuing>>, i: nat, v: Loop, r: Loop)
    requires i < |script| && Reaches(s, BatchSteps(script[..i]), v) && Reaches(v, FunctorSteps(script[i]), r)
    ensures Reaches(s, BatchSteps(script[..i + 1]), r)
  {
    assert script[..i + 1][..i] == script[..i];
    RunSplit(s, BatchSteps(script[..i]), FunctorSteps(script[i]));
  }

  lemma TailStep(functors: seq<Task>, i: nat)
    requires i < |functors|
    ensures functors[i..][0] == functors[i] && functors[i..][1..] == functors[i + 1..]
  {
  }

  lemma DrainRun(s: Loop, script: seq<seq<Queuing>>)
    requires Enabled(s, BeginDrain)
    requires var s1 := Next(Next(s, BeginDrain), Swap);
             EnabledRun(s1, BatchSteps(script)) && Enabled(Run(s1, BatchSteps(script)), EndDrain)
    ensures EnabledRun(s, DrainSteps(script))
    ensures Run(s, DrainSteps(script)) == Next(Run(Next(Next(s, BeginDrain), Swap), BatchSteps(script)), EndDrain)
  {
    RunTwo(s, BeginDrain, Swap);
    RunSplit(s, [BeginDrain, Swap], BatchSteps(script));
    RunOne(Run(Next(Next(s, BeginDrain), Swap), BatchSteps(script)), EndDrain);
    RunSplit(s, [BeginDrain, Swap] + BatchSteps(script), [EndDrain]);
  }

  /** The loop thread queues only where it runs user code, and not while it owes a wakeup. */
  predicate MayQueue(s: Loop, q: Queuing) {
    q.inLoopThread ==> (Inside(s) || Outside(s)) && !s.owesWake
  }

  /** Nobody disturbing, the steps of a `queueInLoop` add up to this. */
  lemma QueueRun(s: Loop, q: Queuing)
    requires Shape(s) && MayQueue(s, q)
    ensures EnabledRun(s, QueueSteps(s, q))
    ensures Run(s, QueueSteps(s, q)) ==
            Push(s, q.task).(counter := if !q.inLoopThread || s.calling then Bumped(s.counter) else s.counter)
  {
    if !q.inLoopThread {
      RunTwo(s, OtherQueues(q.task), OtherWakes);
    } else if Outside(s) {
      RunOne(s, EarlyQueue(q.task));
    } else if s.calling {
      RunTwo(s, LoopQueues(q.task), LoopWakes);
    } else {
      RunOne(s, LoopQueues(q.task));
    }
  }

  lemma QuitRun(s: Loop, inLoopThread: bool)
    requires inLoopThread ==> Inside(s) || Outside(s)
    ensures var steps := if inLoopThread then [LoopQuits] else [OtherQuits, OtherWakes];
            && EnabledRun(s, steps)
            && Run(s, steps) == s.(quit := true, counter := if inLoopThread then s.counter else Bumped(s.counter))
  {
    if inLoopThread {
      RunOne(s, LoopQuits);
    } else {
      RunTwo(s, OtherQuits, OtherWakes);
    }
  }
}
