/**
 The soft lock and its deferred-work payload as a step system.

 One atomic access of shared memory is one step, so a run is any interleaving of
 the steps of any number of calls of `with_access`. Every call carries its own
 program counter; `Step` is what the call does next.
 */
module SoftLock {

  /** What the closure passed to `with_access` does: a producer's submission, one
      turn of the consumer loop, or the final reading of the statistics. */
  datatype Op =
    | Submit
    | Consume(budget: nat, total: nat)
    | Observe

  /** The seven values read by the closing access of the benchmark. */
  datatype Readings = Readings(
    processed: nat, pending: nat, queueLeft: nat,
    full: nat, pend: nat, items: nat, batches: nat)

  function NothingRead(): Readings {
    Readings(0, 0, 0, 0, 0, 0, 0)
  }

  datatype Shared = Shared(
    // SoftLock
    locked: bool,
    pending: bool,
    // DemoInner
    pendingSubmit: nat,
    queueHeld: bool, // the queue's own mutex
    queue: seq<nat>,
    nextId: nat,
    processed: nat,
    drainedItems: nat,
    drainedBatches: nat,
    directItems: nat,
    fullEntries: nat,
    pendEntries: nat,
    // the benchmark's flag
    producersDone: bool,
    // history, read by no step
    popped: seq<nat>, // ids in the order they left the queue
    pushed: nat,      // deferred submissions whose id has entered the queue
    flagged: nat,     // deferred submissions whose `pending` store has happened
    completions: nat) // pend-only calls that have completed

  /** `SoftLock::new(DemoInner::new())`, and `producers_done` not yet set. */
  predicate IsNew(s: Shared) {
    && !s.locked && !s.pending
    && s.pendingSubmit == 0 && !s.queueHeld && s.queue == [] && s.nextId == 1 && s.processed == 0
    && s.drainedItems == 0 && s.drainedBatches == 0 && s.directItems == 0
    && s.fullEntries == 0 && s.pendEntries == 0
    && !s.producersDone
    && s.popped == [] && s.pushed == 0 && s.flagged == 0 && s.completions == 0
  }

  /** `run_pended_op` has two callers. */
  datatype Caller = Closure | Guard

  datatype Pc =
    | Enter                                      // AccessGuard::guard: the CAS
    // the producer's closure with full access
    | CountFull
    | DrawId
    | LockForId(id: nat)
    | PushId(id: nat)
    | CountDirect
    | UnlockId
    // the producer's closure with pend-only access
    | CountPend
    | PendSubmit
    // run_pended_op
    | SwapCount(caller: Caller)
    | CountBatch(n: nat, caller: Caller)
    | CountItems(n: nat, caller: Caller)
    | LockForDrain(n: nat, caller: Caller)
    | DrawDrained(n: nat, caller: Caller)
    | PushDrained(id: nat, n: nat, caller: Caller)
    | UnlockDrain(caller: Caller)
    // process_some
    | LockToPop
    | Pop(k: nat)
    | CountPopped(k: nat)
    | UnlockPop
    // the rest of the consumer's closure
    | LoadProcessed
    | LoadDone
    | LoadPending(done: bool)
    | LockLen(done: bool, left: nat)
    | LoadLen(done: bool, left: nat)
    | UnlockLen
    // the closing access
    | Look(k: nat)
    | Unreachable
    // Drop for AccessGuard
    | SwapPending
    | Release
    | Recheck
    | Reacquire
    | SetPending
    | Done

  datatype Call = Call(
    op: Op,
    pc: Pc,
    result: bool,       // what `with_access` returns to the consumer loop
    seen: Readings,
    // history of the guard's drop, read by no step
    rounds: nat,        // drain rounds so far
    start: nat,         // completions when the drop began
    mark: nat)          // flagged when the last round swapped `pending`

  function Fresh(op: Op): Call {
    Call(op, Enter, true, NothingRead(), 0, 0, 0)
  }

  function FullEntry(op: Op): Pc {
    match op
    case Submit => CountFull
    case Consume(_, _) => SwapCount(Closure)
    case Observe => Look(0)
  }

  function PendEntry(op: Op): Pc {
    match op
    case Submit => CountPend
    case Consume(_, _) => SetPending
    case Observe => Unreachable
  }

  function AfterDrain(caller: Caller): Pc {
    match caller
    case Closure => LockToPop
    case Guard => Release
  }

  /** The closure has returned; the guard's `drop` begins. */
  function BeginDrop(s: Shared, c: Call): Call {
    c.(pc := SwapPending, rounds := 0, start := s.completions)
  }

  function Budget(op: Op): nat {
    if op.Consume? then op.budget else 0
  }

  function Target(op: Op): nat {
    if op.Consume? then op.total else 0
  }

  // The parts of a call, as the source divides it into functions.

  predicate InSubmit(pc: Pc) {
    pc.CountFull? || pc.DrawId? || pc.LockForId? || pc.PushId? || pc.CountDirect? || pc.UnlockId?
  }

  predicate InPend(pc: Pc) {
    pc.CountPend? || pc.PendSubmit? || pc.SetPending?
  }

  predicate InDrain(pc: Pc) {
    pc.SwapCount? || pc.CountBatch? || pc.CountItems? || pc.LockForDrain? || pc.DrawDrained? ||
    pc.PushDrained? || pc.UnlockDrain?
  }

  predicate InPop(pc: Pc) {
    pc.LockToPop? || pc.Pop? || pc.CountPopped? || pc.UnlockPop?
  }

  predicate InCheck(pc: Pc) {
    pc.LoadProcessed? || pc.LoadDone? || pc.LoadPending? || pc.LockLen? || pc.LoadLen? || pc.UnlockLen?
  }

  predicate InLock(pc: Pc) {
    pc.Enter? || pc.Release? || pc.Recheck? || pc.Reacquire? || pc.SwapPending?
  }

  /** A producer with full access: the entry count and `submit_direct`. */
  function SubmitStep(s: Shared, c: Call): (Shared, Call)
    requires InSubmit(c.pc)
  {
    match c.pc
    case CountFull => (s.(fullEntries := s.fullEntries + 1), c.(pc := DrawId))
    case DrawId => (s.(nextId := s.nextId + 1), c.(pc := LockForId(s.nextId)))
    case LockForId(id) => (s.(queueHeld := true), c.(pc := PushId(id)))
    case PushId(id) => (s.(queue := s.queue + [id]), c.(pc := CountDirect))
    case CountDirect => (s.(directItems := s.directItems + 1), c.(pc := UnlockId))
    case UnlockId => (s.(queueHeld := false), BeginDrop(s, c))
  }

  /** Pend-only access: the entry count, `pend_submit` and the guard's store of `pending`. */
  function PendStep(s: Shared, c: Call): (Shared, Call)
    requires InPend(c.pc)
  {
    match c.pc
    case CountPend => (s.(pendEntries := s.pendEntries + 1), c.(pc := PendSubmit))
    case PendSubmit => (s.(pendingSubmit := s.pendingSubmit + 1), c.(pc := SetPending))
    case SetPending =>
      (s.(pending := true,
          completions := s.completions + 1,
          flagged := if c.op.Submit? then s.flagged + 1 else s.flagged),
       c.(pc := Done))
  }

  /** `run_pended_op`. */
  function DrainStep(s: Shared, c: Call): (Shared, Call)
    requires InDrain(c.pc)
  {
    match c.pc
    case SwapCount(caller) =>
      var n := s.pendingSubmit;
      (s.(pendingSubmit := 0), c.(pc := if n == 0 then AfterDrain(caller) else CountBatch(n, caller)))
    case CountBatch(n, caller) => (s.(drainedBatches := s.drainedBatches + 1), c.(pc := CountItems(n, caller)))
    case CountItems(n, caller) => (s.(drainedItems := s.drainedItems + n), c.(pc := LockForDrain(n, caller)))
    case LockForDrain(n, caller) => (s.(queueHeld := true), c.(pc := DrawDrained(n, caller)))
    case DrawDrained(n, caller) =>
      if n == 0 then (s, c.(pc := UnlockDrain(caller)))
      else (s.(nextId := s.nextId + 1), c.(pc := PushDrained(s.nextId, n - 1, caller)))
    case PushDrained(id, n, caller) =>
      (s.(queue := s.queue + [id], pushed := s.pushed + 1), c.(pc := DrawDrained(n, caller)))
    case UnlockDrain(caller) => (s.(queueHeld := false), c.(pc := AfterDrain(caller)))
  }

  /** `process_some`. */
  function PopStep(s: Shared, c: Call): (Shared, Call)
    requires InPop(c.pc)
  {
    match c.pc
    case LockToPop => (s.(queueHeld := true), c.(pc := Pop(Budget(c.op))))
    case Pop(k) =>
      if k == 0 || s.queue == [] then (s, c.(pc := UnlockPop))
      else (s.(queue := s.queue[1..], popped := s.popped + [s.queue[0]]), c.(pc := CountPopped(k - 1)))
    case CountPopped(k) => (s.(processed := s.processed + 1), c.(pc := Pop(k)))
    case UnlockPop => (s.(queueHeld := false), c.(pc := LoadProcessed))
  }

  /** The consumer deciding whether to go on. */
  function CheckStep(s: Shared, c: Call): (Shared, Call)
    requires InCheck(c.pc)
  {
    match c.pc
    case LoadProcessed =>
      if s.processed >= Target(c.op) then (s, BeginDrop(s, c.(result := false)))
      else (s, c.(pc := LoadDone))
    case LoadDone => (s, c.(pc := LoadPending(s.producersDone)))
    case LoadPending(done) => (s, c.(pc := LockLen(done, s.pendingSubmit)))
    case LockLen(done, left) => (s.(queueHeld := true), c.(pc := LoadLen(done, left)))
    case LoadLen(done, left) => (s, c.(pc := UnlockLen, result := !(done && left == 0 && |s.queue| == 0)))
    case UnlockLen => (s.(queueHeld := false), BeginDrop(s, c))
  }

  /** The closing access: six loads, and `queue_len` between the second and the third. */
  function LookStep(s: Shared, c: Call): (Shared, Call)
    requires c.pc.Look?
  {
    var k := c.pc.k;
    if k == 0 then (s, c.(pc := Look(1), seen := c.seen.(processed := s.processed)))
    else if k == 1 then (s, c.(pc := Look(2), seen := c.seen.(pending := s.pendingSubmit)))
    else if k == 2 then (s.(queueHeld := true), c.(pc := Look(3)))
    else if k == 3 then (s, c.(pc := Look(4), seen := c.seen.(queueLeft := |s.queue|)))
    else if k == 4 then (s.(queueHeld := false), c.(pc := Look(5)))
    else if k == 5 then (s, c.(pc := Look(6), seen := c.seen.(full := s.fullEntries)))
    else if k == 6 then (s, c.(pc := Look(7), seen := c.seen.(pend := s.pendEntries)))
    else if k == 7 then (s, c.(pc := Look(8), seen := c.seen.(items := s.drainedItems)))
    else (s, BeginDrop(s, c.(seen := c.seen.(batches := s.drainedBatches))))
  }

  /** The first CAS on `locked`, and the loop of the holder's drop. */
  function LockStep(s: Shared, c: Call): (Shared, Call)
    requires InLock(c.pc)
  {
    match c.pc
    case Enter =>
      if s.locked then (s, c.(pc := PendEntry(c.op)))
      else (s.(locked := true), c.(pc := FullEntry(c.op)))
    case SwapPending =>
      (s.(pending := false),
       c.(pc := if s.pending then SwapCount(Guard) else Release, rounds := c.rounds + 1, mark := s.flagged))
    case Release => (s.(locked := false), c.(pc := Recheck))
    case Recheck => (s, c.(pc := if s.pending then Reacquire else Done))
    case Reacquire => if s.locked then (s, c) else (s.(locked := true), c.(pc := SwapPending))
  }

  /** The next atomic access of a call. A step that takes the queue's mutex is
      offered only while the mutex is free (see `Blocked`). */
  function Step(s: Shared, c: Call): (Shared, Call) {
    if InSubmit(c.pc) then SubmitStep(s, c)
    else if InPend(c.pc) then PendStep(s, c)
    else if InDrain(c.pc) then DrainStep(s, c)
    else if InPop(c.pc) then PopStep(s, c)
    else if InCheck(c.pc) then CheckStep(s, c)
    else if InLock(c.pc) then LockStep(s, c)
    else if c.pc.Look? then LookStep(s, c)
    else (s, c)
  }

  /** The call is about to take the queue's mutex. */
  predicate WantsQueue(pc: Pc) {
    pc.LockForId? || pc.LockForDrain? || pc.LockToPop? || pc.LockLen? || pc == Look(2)
  }

  predicate Blocked(s: Shared, c: Call) {
    WantsQueue(c.pc) && s.queueHeld
  }

  /** The call has won `locked` and not yet released it. */
  predicate Holds(pc: Pc) {
    !(pc.Enter? || pc.CountPend? || pc.PendSubmit? || pc.SetPending? || pc.Recheck? || pc.Reacquire? ||
      pc.Unreachable? || pc.Done?)
  }

  /** The call lost the CAS and has not completed. */
  predicate PendOnly(pc: Pc) {
    pc.CountPend? || pc.PendSubmit? || pc.SetPending? || pc.Unreachable?
  }

  predicate Finished(pc: Pc) {
    pc.Done? || pc.Unreachable?
  }

  // ---- systems and runs ----

  /** Shared memory and the calls in progress. Under preemption the sequence is the stack of contexts. */
  datatype System = System(sh: Shared, calls: seq<Call>)

  datatype Action =
    | Fork(op: Op)             // a new call starts on top
    | Begin(i: nat, op: Op)    // a finished call's thread starts its next call
    | Move(i: nat)             // call i takes its next step
    | Retire                   // the finished call on top goes away
    | FinishProducers          // the main thread stores `producers_done`

  predicate Can(x: System, a: Action) {
    match a
    case Fork(_) => true
    case Begin(i, _) => i < |x.calls| && x.calls[i].pc.Done?
    case Move(i) => i < |x.calls| && !Finished(x.calls[i].pc) && !Blocked(x.sh, x.calls[i])
    case Retire => |x.calls| > 0 && x.calls[|x.calls| - 1].pc.Done?
    case FinishProducers => true
  }

  function Do(x: System, a: Action): System
    requires Can(x, a)
  {
    match a
    case Fork(op) => x.(calls := x.calls + [Fresh(op)])
    case Begin(i, op) => x.(calls := x.calls[i := Fresh(op)])
    case Move(i) =>
      var (s, c) := Step(x.sh, x.calls[i]);
      System(s, x.calls[i := c])
    case Retire => x.(calls := x.calls[..|x.calls| - 1])
    case FinishProducers => x.(sh := x.sh.(producersDone := true))
  }

  /** A run is a list of actions, newest last. */
  ghost predicate Legal(x: System, run: seq<Action>)
    decreases |run|, 0
  {
    run == [] ||
    (Legal(x, run[..|run| - 1]) && Can(After(x, run[..|run| - 1]), run[|run| - 1]))
  }

  ghost function After(x: System, run: seq<Action>): System
    requires Legal(x, run)
    decreases |run|, 1
  {
    if run == [] then x else Do(After(x, run[..|run| - 1]), run[|run| - 1])
  }

  /** A fresh lock, and no call yet. */
  predicate IsStart(x: System) {
    IsNew(x.sh) && x.calls == []
  }
}
