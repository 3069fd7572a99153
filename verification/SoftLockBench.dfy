/**
 `run_softlock_bench`: one consumer, any number of producers, the joins and the
 closing access, in every interleaving of their atomic accesses.
 */
module SoftLockBench {
  import opened Numbers
  import opened SoftLock
  import opened SoftLockInvariant
  import opened Interleavings

  datatype Scenario = Scenario(producers: nat, opsPerProducer: nat, budget: nat)

  function TotalOps(sc: Scenario): nat {
    sc.producers * sc.opsPerProducer
  }

  datatype Main =
    | Joining(k: nat)     // producers 0..k-1 have been joined
    | JoiningConsumer     // producers_done has been stored
    | Closing             // the final access
    | Over

  /** Call 0 is the consumer's, call p + 1 producer p's, the last one the main thread's.
      `left[p]` counts the submissions producer p has not begun. */
  datatype Bench = Bench(sc: Scenario, x: System, left: seq<nat>, main: Main)

  function RoleOp(sc: Scenario, i: nat): Op {
    if i == 0 then Consume(sc.budget, TotalOps(sc)) else if i <= sc.producers then Submit else Observe
  }

  ghost predicate IsBenchStart(b: Bench) {
    && IsNew(b.x.sh)
    && |b.x.calls| == b.sc.producers + 2
    && AllIdle(b.x.calls)
    && (forall i :: 0 <= i < |b.x.calls| ==> b.x.calls[i].op == RoleOp(b.sc, i))
    && b.x.calls[0].result
    && |b.left| == b.sc.producers
    && (forall p :: 0 <= p < |b.left| ==> b.left[p] == b.sc.opsPerProducer)
    && b.main == Joining(0)
  }

  predicate Shaped(b: Bench) {
    |b.x.calls| == b.sc.producers + 2 && |b.left| == b.sc.producers
  }

  predicate ProducerFinished(b: Bench, p: nat)
    requires Shaped(b) && p < b.sc.producers
  {
    Idle(b.x.calls[p + 1]) && b.left[p] == 0
  }

  predicate ConsumerFinished(b: Bench)
    requires Shaped(b)
  {
    Idle(b.x.calls[0]) && !b.x.calls[0].result
  }

  datatype BenchAction =
    | Advance(i: nat)           // a call's next step
    | NextSubmission(p: nat)    // producer p's loop goes round
    | NextAccess                // the consumer's loop goes round
    | MainStep                  // the main thread joins, stores, makes or ends the closing access

  predicate BenchCan(b: Bench, a: BenchAction)
    requires Shaped(b)
  {
    match a
    case Advance(i) => Can(b.x, Move(i))
    case NextSubmission(p) => p < b.sc.producers && Idle(b.x.calls[p + 1]) && b.left[p] > 0
    case NextAccess => Idle(b.x.calls[0]) && b.x.calls[0].result
    case MainStep =>
      match b.main
      case Joining(k) => k < b.sc.producers ==> ProducerFinished(b, k)
      case JoiningConsumer => ConsumerFinished(b) && Idle(b.x.calls[b.sc.producers + 1])
      case Closing => Idle(b.x.calls[b.sc.producers + 1])
      case Over => false
  }

  function BenchDo(b: Bench, a: BenchAction): (b': Bench)
    requires Shaped(b) && BenchCan(b, a)
    ensures Shaped(b') && b'.sc == b.sc
  {
    match a
    case Advance(i) => b.(x := Do(b.x, Move(i)))
    case NextSubmission(p) => b.(x := Do(b.x, Begin(p + 1, Submit)), left := b.left[p := b.left[p] - 1])
    case NextAccess => b.(x := Do(b.x, Begin(0, RoleOp(b.sc, 0))))
    case MainStep =>
      match b.main
      case Joining(k) =>
        if k < b.sc.producers then b.(main := Joining(k + 1))
        else b.(x := Do(b.x, FinishProducers), main := JoiningConsumer)
      case JoiningConsumer => b.(x := Do(b.x, Begin(b.sc.producers + 1, Observe)), main := Closing)
      case Closing => b.(main := Over)
      case Over => b
  }

  ghost predicate BenchLegal(b: Bench, run: seq<BenchAction>)
    requires Shaped(b)
    decreases |run|, 0
  {
    run == [] ||
    (BenchLegal(b, run[..|run| - 1]) && BenchCan(BenchAfter(b, run[..|run| - 1]), run[|run| - 1]))
  }

  ghost function BenchAfter(b: Bench, run: seq<BenchAction>): (b': Bench)
    requires Shaped(b) && BenchLegal(b, run)
    ensures Shaped(b') && b'.sc == b.sc
    decreases |run|, 1
  {
    if run == [] then b else BenchDo(BenchAfter(b, run[..|run| - 1]), run[|run| - 1])
  }

  // ---- the invariant ----

  function Left(left: seq<nat>): nat {
    if left == [] then 0 else Left(left[..|left| - 1]) + left[|left| - 1]
  }

  /** How many producers the main thread has joined. */
  function Joined(b: Bench): nat {
    if b.main.Joining? then b.main.k else b.sc.producers
  }

  ghost predicate RolesKept(b: Bench)
    requires Shaped(b)
  {
    forall i :: 0 <= i < |b.x.calls| ==> b.x.calls[i].op == RoleOp(b.sc, i)
  }

  /** Every submission of the scenario is counted, about to be, or not begun. */
  ghost predicate Accounted(b: Bench) {
    b.x.sh.fullEntries + b.x.sh.pendEntries + Sum(Weights(b.x.calls)).entering + Left(b.left) == TotalOps(b.sc)
  }

  /** The main thread has only passed finished threads. */
  ghost predicate MainOk(b: Bench)
    requires Shaped(b)
  {
    && Joined(b) <= b.sc.producers
    && (forall p :: 0 <= p < Joined(b) ==> ProducerFinished(b, p))
    && (b.x.sh.producersDone <==> !b.main.Joining?)
    && (b.main.Closing? || b.main.Over? ==> ConsumerFinished(b))
    && (!b.main.Closing? ==> Idle(b.x.calls[b.sc.producers + 1]))
  }

  /** What the consumer has learnt in its closure. */
  ghost predicate ConsumerOk(b: Bench)
    requires Shaped(b)
  {
    var s, c := b.x.sh, b.x.calls[0];
    && (!c.result ==> s.processed == TotalOps(b.sc))
    && (c.pc.LoadDone? || c.pc.LoadPending? || c.pc.LockLen? || c.pc.LoadLen? ==> s.processed < TotalOps(b.sc))
    && (c.pc.LoadPending? || c.pc.LockLen? || c.pc.LoadLen? ==> (c.pc.done ==> s.producersDone))
    && (c.pc.LockLen? || c.pc.LoadLen? ==> (c.pc.done && c.pc.left == 0 ==> s.pendingSubmit == 0))
  }

  /** How far the closing access has got. */
  function Looked(pc: Pc): nat {
    if pc.Look? then pc.k else if pc.Enter? then 0 else 9
  }

  ghost predicate SeenOk(s: Shared, total: nat, seen: Readings, looked: nat) {
    && (looked >= 1 ==> seen.processed == s.processed == total)
    && (looked >= 2 ==> seen.pending == s.pendingSubmit == 0)
    && (looked >= 4 ==> seen.queueLeft == |s.queue| == 0)
    && (looked >= 6 ==> seen.full == s.fullEntries)
    && (looked >= 7 ==> seen.pend == s.pendEntries)
    && (looked >= 8 ==> seen.items == s.drainedItems == s.pendEntries)
    && (looked >= 9 ==> seen.batches == s.drainedBatches)
  }

  predicate ClosingPc(pc: Pc) {
    pc.Enter? || pc.Look? || DropsOnly(pc) || pc.Done?
  }

  ghost predicate ClosingOk(b: Bench)
    requires Shaped(b)
  {
    b.main.Closing? || b.main.Over? ==>
      var c := b.x.calls[b.sc.producers + 1];
      ClosingPc(c.pc) && SeenOk(b.x.sh, TotalOps(b.sc), c.seen, Looked(c.pc))
  }

  ghost predicate BenchInv(b: Bench) {
    && Shaped(b) && Inv(b.x)
    && RolesKept(b) && Accounted(b) && MainOk(b) && ConsumerOk(b) && ClosingOk(b)
  }

  // ---- consequences of counting ----

  /** What counting alone gives: no more is processed than the scenario submits, and if all of it is,
      nothing is anywhere else. */
  lemma CountingBounds(b: Bench)
    requires Shaped(b) && Inv(b.x) && Accounted(b)
    ensures var s := b.x.sh;
            && s.processed <= TotalOps(b.sc)
            && s.fullEntries + s.pendEntries <= TotalOps(b.sc)
            && (s.processed == TotalOps(b.sc) ==>
                  && s.pendingSubmit == 0 && s.queue == [] && |s.popped| == TotalOps(b.sc)
                  && s.fullEntries + s.pendEntries == TotalOps(b.sc)
                  && s.drainedItems == s.pendEntries
                  && s.drainedBatches <= s.drainedItems)
  {
    WeightsSound(b.x.calls);
    SumSound(Weights(b.x.calls), -1);
  }

  /** Once the producers are finished and nothing is pending or queued, a consumer about to decide
      has processed everything. */
  lemma DrainedMeansProcessed(b: Bench)
    requires Shaped(b) && Inv(b.x) && Accounted(b)
    requires IdleBut(b.x.calls, 0) && Left(b.left) == 0
    requires b.x.calls[0].pc.LoadLen? && b.x.sh.pendingSubmit == 0 && b.x.sh.queue == []
    ensures b.x.sh.processed == TotalOps(b.sc)
  {
    IdleHoldNothing(b.x.calls, 0);
    IdleDeferNothing(b.x.calls, 0);
    WeightAt(b.x.calls, 0);
    SumJoins(Weights(b.x.calls), 0);
  }

  lemma {:induction false} NothingLeft(left: seq<nat>)
    requires forall p :: 0 <= p < |left| ==> left[p] == 0
    ensures Left(left) == 0
  {
    if left == [] {
    } else {
      NothingLeft(left[..|left| - 1]);
    }
  }

  lemma {:induction false} TotalUpdate(left: seq<nat>, p: nat, v: nat)
    requires p < |left|
    ensures Left(left[p := v]) == Left(left) - left[p] + v
  {
    var n := |left| - 1;
    if p == n {
      assert left[p := v][..n] == left[..n];
    } else {
      TotalUpdate(left[..n], p, v);
      assert left[p := v][..n] == left[..n][p := v];
    }
  }

  lemma {:induction false} TotalEven(left: seq<nat>, v: nat)
    requires forall p :: 0 <= p < |left| ==> left[p] == v
    ensures Left(left) == |left| * v
  {
    if left == [] {
    } else {
      var n := |left| - 1;
      TotalEven(left[..n], v);
      assert |left| * v == n * v + v;
    }
  }

  /** With every producer joined, only the consumer can be in progress before the closing access. */
  lemma OnlyConsumer(b: Bench)
    requires Shaped(b) && MainOk(b) && !b.main.Joining? && !b.main.Closing?
    ensures IdleBut(b.x.calls, 0) && Left(b.left) == 0
  {
    forall i | 0 <= i < |b.x.calls| && i != 0 ensures Idle(b.x.calls[i]) {
      if i <= b.sc.producers {
        assert ProducerFinished(b, i - 1);
      }
    }
    forall p | 0 <= p < |b.left| ensures b.left[p] == 0 {
      assert ProducerFinished(b, p);
    }
    NothingLeft(b.left);
  }

  // ---- single steps ----

  lemma StepKeepsOp(s: Shared, c: Call)
    ensures Step(s, c).1.op == c.op
  {
    if InSubmit(c.pc) {
    } else if InPend(c.pc) {
    } else if InDrain(c.pc) {
    } else if InPop(c.pc) {
    } else if InCheck(c.pc) {
    } else if InLock(c.pc) {
    }
  }

  predicate AtEntry(pc: Pc) {
    pc.Enter? || pc.CountFull? || pc.CountPend?
  }

  /** The step counts no entry, and does not lead to where one is counted. */
  predicate CountsNoEntry(s: Shared, c: Call) {
    var (s', c') := Step(s, c);
    s'.fullEntries == s.fullEntries && s'.pendEntries == s.pendEntries && !AtEntry(c'.pc)
  }

  lemma SubmittedPastEntry(s: Shared, c: Call)
    requires !AtEntry(c.pc) && (InSubmit(c.pc) || InPend(c.pc) || InDrain(c.pc))
    ensures CountsNoEntry(s, c)
  {
    if InSubmit(c.pc) {
    } else if InPend(c.pc) {
    }
  }

  lemma PastEntry(s: Shared, c: Call)
    requires !AtEntry(c.pc)
    ensures CountsNoEntry(s, c)
  {
    if InSubmit(c.pc) || InPend(c.pc) || InDrain(c.pc) {
      SubmittedPastEntry(s, c);
    } else if InPop(c.pc) {
    } else if InCheck(c.pc) {
    } else if InLock(c.pc) {
    }
  }

  /** A producer's call is counted once. */
  lemma StepCountsEntry(s: Shared, c: Call)
    requires CarriesLatest(s, c)
    ensures var (s', c') := Step(s, c);
            && s'.fullEntries + s'.pendEntries + Bit(Entering(c')) == s.fullEntries + s.pendEntries + Bit(Entering(c))
            && s'.fullEntries >= s.fullEntries && s'.pendEntries >= s.pendEntries
  {
    if !AtEntry(c.pc) {
      PastEntry(s, c);
    }
  }

  lemma SubmitCountsProcessed(s: Shared, c: Call)
    requires InSubmit(c.pc) || InPend(c.pc) || InDrain(c.pc)
    ensures var s' := Step(s, c).0;
            s'.processed >= s.processed && s'.producersDone == s.producersDone
  {
    if InSubmit(c.pc) {
    } else if InPend(c.pc) {
    }
  }

  lemma StepCountsProcessed(s: Shared, c: Call)
    ensures var s' := Step(s, c).0;
            s'.processed >= s.processed && s'.producersDone == s.producersDone
  {
    if InSubmit(c.pc) || InPend(c.pc) || InDrain(c.pc) {
      SubmitCountsProcessed(s, c);
    } else if InPop(c.pc) {
    } else if InCheck(c.pc) {
    } else if InLock(c.pc) {
    }
  }

  /** A call that does not hold the lock pops nothing, and only a producer adds to pending_submit. */
  lemma NonHolderStep(s: Shared, c: Call)
    requires CarriesLatest(s, c) && !Holds(c.pc)
    ensures var s' := Step(s, c).0;
            s'.processed == s.processed && (!c.op.Submit? ==> s'.pendingSubmit == s.pendingSubmit)
  {
    if InLock(c.pc) {
    } else if InPend(c.pc) {
    }
  }

  // ---- every action keeps the invariant ----

  lemma AdvanceKeepsRoles(b: Bench, i: nat)
    requires Shaped(b) && RolesKept(b) && Can(b.x, Move(i))
    ensures RolesKept(BenchDo(b, Advance(i)))
  {
    StepKeepsOp(b.x.sh, b.x.calls[i]);
  }

  lemma AdvanceKeepsAccounted(b: Bench, i: nat)
    requires BenchInv(b) && Can(b.x, Move(i))
    ensures Accounted(BenchDo(b, Advance(i)))
  {
    var c := b.x.calls[i];
    var c' := Step(b.x.sh, c).1;
    assert CallOk(b.x.sh, c);
    StepCountsEntry(b.x.sh, c);
    WeightsUpdate(b.x.calls, i, c');
    WeightAt(b.x.calls, i);
    SumSplit(Weights(b.x.calls), i, Weigh(c'));
  }

  lemma AdvanceKeepsMain(b: Bench, i: nat)
    requires BenchInv(b) && Can(b.x, Move(i))
    ensures MainOk(BenchDo(b, Advance(i)))
  {
    var b' := BenchDo(b, Advance(i));
    StepCountsProcessed(b.x.sh, b.x.calls[i]);
    forall p | 0 <= p < Joined(b') ensures ProducerFinished(b', p) {
      assert ProducerFinished(b, p);
    }
  }

  /** The loop's second way out, `producers_finished && pending == 0 && queue_len == 0`, is never taken:
      whenever it would hold, everything was processed, and the first check has already ended the loop. */
  lemma SecondExitClosed(b: Bench)
    requires BenchInv(b) && b.x.calls[0].pc.LoadLen?
    ensures var c := b.x.calls[0]; !(c.pc.done && c.pc.left == 0 && b.x.sh.queue == [])
  {
    var c := b.x.calls[0];
    if c.pc.done && c.pc.left == 0 && b.x.sh.queue == [] {
      OnlyConsumer(b);
      DrainedMeansProcessed(b);
    }
  }

  lemma CheckStepOk(s: Shared, c: Call, total: nat)
    requires InCheck(c.pc) && Target(c.op) == total && s.processed <= total
    requires !c.result ==> s.processed == total
    requires !c.pc.LoadProcessed? && !c.pc.UnlockLen? ==> s.processed < total
    requires c.pc.LoadLen? ==> !(c.pc.done && c.pc.left == 0 && s.queue == [])
    ensures var c' := CheckStep(s, c).1;
            && (!c'.result ==> s.processed == total)
            && (c'.pc.LoadDone? || c'.pc.LoadPending? || c'.pc.LockLen? || c'.pc.LoadLen? ==> s.processed < total)
            && !c'.pc.LoadProcessed?
  {
  }

  lemma CheckLearns(s: Shared, c: Call)
    requires InCheck(c.pc)
    requires c.pc.LoadPending? || c.pc.LockLen? || c.pc.LoadLen? ==> (c.pc.done ==> s.producersDone)
    requires c.pc.LockLen? || c.pc.LoadLen? ==> (c.pc.done && c.pc.left == 0 ==> s.pendingSubmit == 0)
    ensures var (s', c') := CheckStep(s, c);
            && s'.processed == s.processed && s'.producersDone == s.producersDone && s'.pendingSubmit == s.pendingSubmit
            && (c'.pc.LoadPending? || c'.pc.LockLen? || c'.pc.LoadLen? ==> (c'.pc.done ==> s.producersDone))
            && (c'.pc.LockLen? || c'.pc.LoadLen? ==> (c'.pc.done && c'.pc.left == 0 ==> s.pendingSubmit == 0))
  {
  }

  /** The consumer's own steps: it stops only when everything is processed. */
  lemma ConsumerStepOk(b: Bench)
    requires BenchInv(b) && Can(b.x, Move(0)) && Accounted(BenchDo(b, Advance(0)))
    ensures ConsumerOk(BenchDo(b, Advance(0)))
  {
    var s, c := b.x.sh, b.x.calls[0];
    var b' := BenchDo(b, Advance(0));
    CountingBounds(b);
    if InCheck(c.pc) {
      if c.pc.LoadLen? {
        SecondExitClosed(b);
      }
      CheckStepOk(s, c, TotalOps(b.sc));
      CheckLearns(s, c);
    } else {
      MoveKeepsInv(b.x, 0);
      CountingBounds(b');
      StepCountsProcessed(s, c);
      OutsideCheck(s, c);
    }
  }

  /** Only the consumer's decision changes its result or leads to the decision's later loads. */
  lemma OutsideCheck(s: Shared, c: Call)
    requires !InCheck(c.pc)
    ensures var c' := Step(s, c).1;
            c'.result == c.result && (InCheck(c'.pc) ==> c'.pc.LoadProcessed?)
  {
    if InSubmit(c.pc) {
    } else if InPend(c.pc) {
    } else if InDrain(c.pc) {
    } else if InPop(c.pc) {
    } else if InLock(c.pc) {
    }
  }

  lemma JoinedProducersRest(b: Bench, i: nat)
    requires BenchInv(b) && b.x.sh.producersDone && i < |b.x.calls| && b.x.calls[i].op.Submit?
    ensures Idle(b.x.calls[i])
  {
    assert ProducerFinished(b, i - 1);
  }

  /** Other calls' steps leave what the consumer has learnt true. */
  lemma OtherStepConsumerOk(b: Bench, i: nat)
    requires BenchInv(b) && Can(b.x, Move(i)) && i != 0 && Accounted(BenchDo(b, Advance(i)))
    ensures ConsumerOk(BenchDo(b, Advance(i)))
  {
    var s, c, d := b.x.sh, b.x.calls[0], b.x.calls[i];
    var b' := BenchDo(b, Advance(i));
    assert CallOk(s, d);
    MoveKeepsInv(b.x, i);
    CountingBounds(b');
    StepCountsProcessed(s, d);
    if Holds(c.pc) {
      if Holds(d.pc) {
        OneHolder(b.x, 0, i);
      }
      NonHolderStep(s, d);
      if s.producersDone && d.op.Submit? {
        JoinedProducersRest(b, i);
      }
    }
  }

  lemma AdvanceKeepsConsumer(b: Bench, i: nat)
    requires BenchInv(b) && Can(b.x, Move(i)) && Accounted(BenchDo(b, Advance(i)))
    ensures ConsumerOk(BenchDo(b, Advance(i)))
  {
    if i == 0 {
      ConsumerStepOk(b);
    } else {
      OtherStepConsumerOk(b, i);
    }
  }

  /** In the closing access nobody else can step. */
  lemma OnlyMain(b: Bench)
    requires BenchInv(b) && (b.main.Closing? || b.main.Over?)
    ensures IdleBut(b.x.calls, b.sc.producers + 1) && Left(b.left) == 0
    ensures b.x.sh.processed == TotalOps(b.sc)
  {
    forall i | 0 <= i < |b.x.calls| && i != b.sc.producers + 1 ensures Idle(b.x.calls[i]) {
      if i > 0 {
        assert ProducerFinished(b, i - 1);
      }
    }
    forall p | 0 <= p < |b.left| ensures b.left[p] == 0 {
      assert ProducerFinished(b, p);
    }
    NothingLeft(b.left);
  }

  /** With every other call idle, the lock is held only by this one. */
  lemma AloneLockIsOwn(x: System, n: nat)
    requires Inv(x) && n < |x.calls| && IdleBut(x.calls, n)
    ensures x.sh.locked <==> Holds(x.calls[n].pc)
  {
    IdleHoldNothing(x.calls, n);
    WeightAt(x.calls, n);
    SumJoins(Weights(x.calls), n);
  }

  lemma LookSees(s: Shared, total: nat, c: Call)
    requires c.pc.Look? && SeenOk(s, total, c.seen, Looked(c.pc))
    requires s.processed == total && s.pendingSubmit == 0 && s.queue == []
    requires s.drainedItems == s.pendEntries && s.drainedBatches <= s.drainedItems
    ensures var (s', c') := LookStep(s, c);
            ClosingPc(c'.pc) && SeenOk(s', total, c'.seen, Looked(c'.pc))
  {
    LookOnlyReads(s, c);
  }

  /** After its looking, the closing access only drops its guard; with nothing pending it drains nothing. */
  predicate DropsOnly(pc: Pc) {
    pc.SwapPending? || pc.Release? || pc.Recheck? || pc.Reacquire? || pc == SwapCount(Guard)
  }

  lemma DropKeepsSeen(s: Shared, c: Call)
    requires DropsOnly(c.pc) && s.pendingSubmit == 0
    ensures var (s', c') := Step(s, c);
            && c'.seen == c.seen && (DropsOnly(c'.pc) || c'.pc.Done?)
            && s' == s.(locked := s'.locked, pending := s'.pending)
  {
    if InDrain(c.pc) {
    } else {
      assert InLock(c.pc);
    }
  }

  lemma ClosingStepOk(b: Bench)
    requires BenchInv(b) && b.main.Closing? && Can(b.x, Move(b.sc.producers + 1))
    requires Accounted(BenchDo(b, Advance(b.sc.producers + 1)))
    ensures ClosingOk(BenchDo(b, Advance(b.sc.producers + 1)))
  {
    var n := b.sc.producers + 1;
    var s, c := b.x.sh, b.x.calls[n];
    var b' := BenchDo(b, Advance(n));
    OnlyMain(b);
    CountingBounds(b);
    if c.pc.Enter? {
      AloneLockIsOwn(b.x, n);
    } else if c.pc.Look? {
      LookSees(s, TotalOps(b.sc), c);
    } else {
      DropKeepsSeen(s, c);
    }
  }

  lemma NobodyElseMoves(b: Bench, i: nat)
    requires BenchInv(b) && (b.main.Closing? || b.main.Over?) && Can(b.x, Move(i))
    ensures b.main.Closing? && i == b.sc.producers + 1
  {
    OnlyMain(b);
  }

  lemma AdvanceKeepsClosing(b: Bench, i: nat)
    requires BenchInv(b) && Can(b.x, Move(i)) && Accounted(BenchDo(b, Advance(i)))
    ensures ClosingOk(BenchDo(b, Advance(i)))
  {
    if b.main.Closing? || b.main.Over? {
      NobodyElseMoves(b, i);
      ClosingStepOk(b);
    }
  }

  lemma AdvanceKeepsInv(b: Bench, i: nat)
    requires BenchInv(b) && Can(b.x, Move(i))
    ensures BenchInv(BenchDo(b, Advance(i)))
  {
    MoveKeepsInv(b.x, i);
    AdvanceKeepsRoles(b, i);
    AdvanceKeepsAccounted(b, i);
    AdvanceKeepsMain(b, i);
    AdvanceKeepsConsumer(b, i);
    AdvanceKeepsClosing(b, i);
  }

  lemma SubmissionKeepsInv(b: Bench, p: nat)
    requires BenchInv(b) && BenchCan(b, NextSubmission(p))
    ensures BenchInv(BenchDo(b, NextSubmission(p)))
  {
    var b' := BenchDo(b, NextSubmission(p));
    BeginKeepsInv(b.x, p + 1, Submit);
    BeginWeighs(b.x.calls, p + 1, Submit);
    TotalUpdate(b.left, p, b.left[p] - 1);
    forall q | 0 <= q < Joined(b') ensures ProducerFinished(b', q) {
      assert ProducerFinished(b, q);
    }
  }

  lemma AccessKeepsInv(b: Bench)
    requires BenchInv(b) && BenchCan(b, NextAccess)
    ensures BenchInv(BenchDo(b, NextAccess))
  {
    var b' := BenchDo(b, NextAccess);
    BeginKeepsInv(b.x, 0, RoleOp(b.sc, 0));
    BeginWeighs(b.x.calls, 0, RoleOp(b.sc, 0));
    forall q | 0 <= q < Joined(b') ensures ProducerFinished(b', q) {
      assert ProducerFinished(b, q);
    }
  }

  lemma JoinKeepsInv(b: Bench)
    requires BenchInv(b) && BenchCan(b, MainStep) && b.main.Joining?
    ensures BenchInv(BenchDo(b, MainStep))
  {
    var b' := BenchDo(b, MainStep);
    if b.main.k == b.sc.producers {
      DoneFlagIsFree(b.x);
    }
    forall q | 0 <= q < Joined(b') ensures ProducerFinished(b', q) {
      assert q < Joined(b) ==> ProducerFinished(b, q);
    }
  }

  lemma CloseKeepsInv(b: Bench)
    requires BenchInv(b) && BenchCan(b, MainStep) && b.main.JoiningConsumer?
    ensures BenchInv(BenchDo(b, MainStep))
  {
    var b' := BenchDo(b, MainStep);
    BeginKeepsInv(b.x, b.sc.producers + 1, Observe);
    BeginWeighs(b.x.calls, b.sc.producers + 1, Observe);
    forall q | 0 <= q < Joined(b') ensures ProducerFinished(b', q) {
      assert ProducerFinished(b, q);
    }
  }

  lemma EndKeepsInv(b: Bench)
    requires BenchInv(b) && BenchCan(b, MainStep) && b.main.Closing?
    ensures BenchInv(BenchDo(b, MainStep))
  {
    var b' := BenchDo(b, MainStep);
    forall q | 0 <= q < Joined(b') ensures ProducerFinished(b', q) {
      assert ProducerFinished(b, q);
    }
  }

  lemma BenchActionKeepsInv(b: Bench, a: BenchAction)
    requires BenchInv(b) && BenchCan(b, a)
    ensures BenchInv(BenchDo(b, a))
  {
    match a {
      case Advance(i) => AdvanceKeepsInv(b, i);
      case NextSubmission(p) => SubmissionKeepsInv(b, p);
      case NextAccess => AccessKeepsInv(b);
      case MainStep =>
        if b.main.Joining? {
          JoinKeepsInv(b);
        } else if b.main.JoiningConsumer? {
          CloseKeepsInv(b);
        } else {
          EndKeepsInv(b);
        }
    }
  }

  lemma BenchStartInv(b: Bench)
    requires IsBenchStart(b)
    ensures BenchInv(b)
  {
    IdleInv(b.x);
    IdleDeferNothing(b.x.calls, -1);
    TotalEven(b.left, b.sc.opsPerProducer);
    assert Idle(b.x.calls[0]) && Idle(b.x.calls[b.sc.producers + 1]);
  }

  lemma {:induction false} BenchRunInv(b: Bench, run: seq<BenchAction>)
    requires IsBenchStart(b) && BenchLegal(b, run)
    ensures BenchInv(BenchAfter(b, run))
    decreases |run|
  {
    if run == [] {
      BenchStartInv(b);
    } else {
      var n := |run| - 1;
      BenchRunInv(b, run[..n]);
      BenchActionKeepsInv(BenchAfter(b, run[..n]), run[n]);
    }
  }

  // ---- the benchmark's assertions ----

  /** What the closing access reads: everything processed, nothing pending, nothing queued, every
      drained item counted once, and no empty batch. */
  ghost predicate Verdict(sc: Scenario, seen: Readings) {
    && seen.processed == TotalOps(sc)
    && seen.pending == 0
    && seen.queueLeft == 0
    && seen.full + seen.pend == TotalOps(sc)
    && seen.items == seen.pend
    && seen.batches <= seen.items
  }

  /** Each of the seven readings is the counter it is named after. */
  ghost predicate ReadsCounters(s: Shared, seen: Readings) {
    && seen.processed == s.processed
    && seen.pending == s.pendingSubmit
    && seen.queueLeft == |s.queue|
    && seen.full == s.fullEntries
    && seen.pend == s.pendEntries
    && seen.items == s.drainedItems
    && seen.batches == s.drainedBatches
  }

  /** Benchmark correctness: in every complete run of every scenario the closing access was Full, read the final
      counters, its three assertions hold, and exactly the ids 1 .. total were popped, in order. */
  lemma BenchCorrect(b: Bench, run: seq<BenchAction>)
    requires IsBenchStart(b) && BenchLegal(b, run) && BenchAfter(b, run).main.Over?
    ensures var e := BenchAfter(b, run);
            && e.x.calls[b.sc.producers + 1].pc.Done?
            && Verdict(b.sc, e.x.calls[b.sc.producers + 1].seen)
            && ReadsCounters(e.x.sh, e.x.calls[b.sc.producers + 1].seen)
            && e.x.sh.popped == Ids(TotalOps(b.sc))
  {
    BenchRunInv(b, run);
    OverMeansCorrect(BenchAfter(b, run));
  }

  lemma OverMeansCorrect(b: Bench)
    requires BenchInv(b) && b.main.Over?
    ensures Idle(b.x.calls[b.sc.producers + 1])
    ensures Verdict(b.sc, b.x.calls[b.sc.producers + 1].seen)
    ensures ReadsCounters(b.x.sh, b.x.calls[b.sc.producers + 1].seen)
    ensures b.x.sh.popped == Ids(TotalOps(b.sc))
  {
    OnlyMain(b);
    CountingBounds(b);
    OrderSplits(b.x.sh);
  }

  /** The `unreachable!` arm is never taken. */
  lemma ClosingIsFull(b: Bench, run: seq<BenchAction>)
    requires IsBenchStart(b) && BenchLegal(b, run)
    ensures forall i :: 0 <= i < |BenchAfter(b, run).x.calls| ==> !BenchAfter(b, run).x.calls[i].pc.Unreachable?
  {
    BenchRunInv(b, run);
    NeverUnreachable(BenchAfter(b, run));
  }

  lemma NeverUnreachable(b: Bench)
    requires BenchInv(b)
    ensures forall i :: 0 <= i < |b.x.calls| ==> !b.x.calls[i].pc.Unreachable?
  {
    forall i | 0 <= i < |b.x.calls| ensures !b.x.calls[i].pc.Unreachable? {
      assert CallOk(b.x.sh, b.x.calls[i]);
    }
  }

  /** The consumer leaves its loop only with everything processed. */
  lemma ConsumerStopsWhenProcessed(b: Bench, run: seq<BenchAction>)
    requires IsBenchStart(b) && BenchLegal(b, run) && ConsumerFinished(BenchAfter(b, run))
    ensures BenchAfter(b, run).x.sh.processed == TotalOps(b.sc)
  {
    BenchRunInv(b, run);
  }

  lemma SecondExitNeverTaken(b: Bench, run: seq<BenchAction>)
    requires IsBenchStart(b) && BenchLegal(b, run) && BenchAfter(b, run).x.calls[0].pc.LoadLen?
    ensures var e := BenchAfter(b, run); Step(e.x.sh, e.x.calls[0]).1.result
  {
    BenchRunInv(b, run);
    SecondExitClosed(BenchAfter(b, run));
  }

  lemma QuotientAtLeastOne(x: real, q: real)
    requires x >= q > 0.0
    ensures (x / q) * q == x && x / q >= 1.0
  {
    assert (x / q) * q == x;
  }

  /** `avg_batch`. */
  function AverageOf(items: nat, batches: nat): real {
    if batches == 0 then 0.0 else items as real / batches as real
  }

  /** average is 0.0 if there was no batch, and otherwise the quotient, which is at least 1. */
  ghost predicate IsAverage(average: real, items: nat, batches: nat) {
    if batches == 0 then average == 0.0 else average * batches as real == items as real && average >= 1.0
  }

  lemma AverageIs(items: nat, batches: nat)
    requires batches <= items
    ensures IsAverage(AverageOf(items, batches), items, batches)
  {
    if batches > 0 {
      QuotientAtLeastOne(items as real, batches as real);
    }
  }

  /** In every complete run the reported average batch is the average over the run's drains. */
  lemma AverageBatch(b: Bench, run: seq<BenchAction>)
    requires IsBenchStart(b) && BenchLegal(b, run) && BenchAfter(b, run).main.Over?
    ensures var e := BenchAfter(b, run);
            var seen := e.x.calls[b.sc.producers + 1].seen;
            IsAverage(AverageOf(seen.items, seen.batches), e.x.sh.drainedItems, e.x.sh.drainedBatches)
  {
    BenchCorrect(b, run);
    var seen := BenchAfter(b, run).x.calls[b.sc.producers + 1].seen;
    AverageIs(seen.items, seen.batches);
  }
}
