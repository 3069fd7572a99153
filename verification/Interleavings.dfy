/** What holds in every run of the soft lock, however the calls interleave. */
module Interleavings {
  import opened Numbers
  import opened SoftLock
  import opened SoftLockInvariant
  import AbstractQueue

  lemma RunInv(start: System, run: seq<Action>)
    requires IsStart(start) && Legal(start, run)
    ensures Inv(After(start, run))
  {
    StartInv(start);
    RunKeepsInv(start, run);
  }

  /** Someone holds exactly when `locked` is set. */
  lemma LockedMeansHeld(x: System)
    requires Inv(x)
    ensures x.sh.locked <==> exists i :: 0 <= i < |x.calls| && Holds(x.calls[i].pc)
  {
    var ws := Weights(x.calls);
    WeightsSound(x.calls);
    SumSound(ws, -1);
    if x.sh.locked {
      var i :| 0 <= i < |ws| && ws[i].holds != 0;
      assert Holds(x.calls[i].pc);
    }
  }

  lemma OneHolder(x: System, i: nat, j: nat)
    requires Inv(x) && i < |x.calls| && j < |x.calls| && Holds(x.calls[i].pc) && Holds(x.calls[j].pc)
    ensures i == j
    ensures Joins(Rest(Weights(x.calls), i), Weigh(x.calls[i]), Sum(Weights(x.calls)))
    ensures HolderPartsZero(Rest(Weights(x.calls), i))
  {
    var rest := Others(x.calls, i);
    assert rest.holds == 0;
  }

  /** A holder's own weight is all there is of the holder parts. */
  lemma MutexIsTheHolders(x: System, i: nat)
    requires Inv(x) && i < |x.calls| && Holds(x.calls[i].pc)
    ensures x.sh.queueHeld <==> HasQueue(x.calls[i].pc)
  {
    OneHolder(x, i, i);
  }

  ghost predicate Exclusive(x: System) {
    && (x.sh.locked <==> exists i :: 0 <= i < |x.calls| && Holds(x.calls[i].pc))
    && (forall i, j :: 0 <= i < j < |x.calls| ==> !(Holds(x.calls[i].pc) && Holds(x.calls[j].pc)))
    && (forall i :: 0 <= i < |x.calls| ==> !Blocked(x.sh, x.calls[i]))
  }

  lemma InvExclusive(x: System)
    requires Inv(x)
    ensures Exclusive(x)
  {
    LockedMeansHeld(x);
    forall i, j | 0 <= i < j < |x.calls| ensures !(Holds(x.calls[i].pc) && Holds(x.calls[j].pc)) {
      if Holds(x.calls[i].pc) && Holds(x.calls[j].pc) {
        OneHolder(x, i, j);
      }
    }
    forall i | 0 <= i < |x.calls| ensures !Blocked(x.sh, x.calls[i]) {
      NeverBlocked(x, i);
    }
  }

  /** Mutual exclusion over all runs: `locked` is set exactly when one call is between a winning CAS
      and its release store, that call alone runs the queue operations, and the queue's
      own mutex is free whenever a call wants it. */
  lemma MutualExclusion(start: System, run: seq<Action>)
    requires IsStart(start) && Legal(start, run)
    ensures Exclusive(After(start, run))
  {
    RunInv(start, run);
    var x := After(start, run);
    InvExclusive(x);
  }

  lemma NeverBlocked(x: System, i: nat)
    requires Inv(x) && i < |x.calls|
    ensures !Blocked(x.sh, x.calls[i])
  {
    if WantsQueue(x.calls[i].pc) {
      MutexIsTheHolders(x, i);
    }
  }

  /** A call between drawing an id and pushing it. */
  predicate Carrying(pc: Pc) {
    pc.LockForId? || pc.PushId? || pc.PushDrained?
  }

  /** What was popped is 1..p, and with no id in a holder's hands the queue is exactly the ids
      p+1 .. next_id-1, in order. */
  ghost predicate FirstInFirstOut(x: System) {
    var p := |x.sh.popped|;
    && x.sh.popped == Ids(p)
    && (forall k :: 0 <= k < |x.sh.queue| ==> x.sh.queue[k] == p + 1 + k)
    && ((forall i :: 0 <= i < |x.calls| ==> !Carrying(x.calls[i].pc)) ==> x.sh.nextId == p + |x.sh.queue| + 1)
  }

  lemma OrderSplits(s: Shared)
    requires InOrder(s)
    ensures s.popped == Ids(|s.popped|)
    ensures forall k :: 0 <= k < |s.queue| ==> s.queue[k] == |s.popped| + 1 + k
  {
    var all := Arrived(s);
    assert forall k :: 0 <= k < |s.popped| ==> s.popped[k] == all[k];
    assert forall k :: 0 <= k < |s.queue| ==> s.queue[k] == all[|s.popped| + k];
  }

  lemma InvFirstInFirstOut(x: System)
    requires Inv(x)
    ensures FirstInFirstOut(x)
  {
    OrderSplits(x.sh);
    if forall i :: 0 <= i < |x.calls| ==> !Carrying(x.calls[i].pc) {
      NoCarriers(x.calls);
    }
  }

  /** The ids stay contiguous in every run, although a producer draws its id before it takes the queue's mutex. */
  lemma ContiguousIds(start: System, run: seq<Action>)
    requires IsStart(start) && Legal(start, run)
    ensures FirstInFirstOut(After(start, run))
  {
    RunInv(start, run);
    var x := After(start, run);
    InvFirstInFirstOut(x);
  }

  lemma {:induction false} NoCarriers(calls: seq<Call>)
    requires forall i :: 0 <= i < |calls| ==> !Carrying(calls[i].pc)
    ensures Sum(Weights(calls)).carries == 0
    decreases |calls|
  {
    if calls == [] {
    } else {
      var n := |calls| - 1;
      NoCarriers(calls[..n]);
    }
  }

  // ---- deferred submissions ----

  /** A producer between its `pend_submit` and its guard's store of `pending`. */
  predicate Flagging(c: Call) {
    c.pc.SetPending? && c.op.Submit?
  }

  /** A holder that has swapped `pending` and is about to swap `pending_submit`. */
  predicate Answering(c: Call) {
    c.pc == SwapCount(Guard)
  }

  lemma {:induction false} NoFlaggers(calls: seq<Call>)
    requires forall i :: 0 <= i < |calls| ==> !Flagging(calls[i])
    ensures Sum(Weights(calls)).unflagged == 0
    decreases |calls|
  {
    if calls == [] {
    } else {
      var n := |calls| - 1;
      NoFlaggers(calls[..n]);
    }
  }

  lemma {:induction false} NoAnswerers(calls: seq<Call>)
    requires forall i :: 0 <= i < |calls| ==> !Answering(calls[i])
    ensures Sum(Weights(calls)).answering == 0
    decreases |calls|
  {
    if calls == [] {
    } else {
      var n := |calls| - 1;
      NoAnswerers(calls[..n]);
    }
  }

  /** Deferred work is never forgotten: either it is flagged, or some call is about to flag it or to drain it. */
  ghost predicate IntentFlagged(x: System) {
    x.sh.pendingSubmit > 0 ==>
      || x.sh.pending
      || (exists i :: 0 <= i < |x.calls| && Flagging(x.calls[i]))
      || (exists i :: 0 <= i < |x.calls| && Answering(x.calls[i]))
  }

  lemma IntentsAlwaysFlagged(start: System, run: seq<Action>)
    requires IsStart(start) && Legal(start, run)
    ensures IntentFlagged(After(start, run))
  {
    RunInv(start, run);
    var x := After(start, run);
    InvFlagged(x);
  }

  lemma InvFlagged(x: System)
    requires Inv(x)
    ensures IntentFlagged(x)
  {
    if x.sh.pendingSubmit > 0 && !x.sh.pending {
      if forall i :: 0 <= i < |x.calls| ==> !Answering(x.calls[i]) {
        NoAnswerers(x.calls);
        if forall i :: 0 <= i < |x.calls| ==> !Flagging(x.calls[i]) {
          NoFlaggers(x.calls);
          assert false;
        }
      }
    }
  }

  /** Call i has swapped `pending` and has not yet released `locked`. */
  predicate InRound(x: System, i: nat) {
    i < |x.calls| && (InGuardDrain(x.calls[i].pc) || x.calls[i].pc.Release?)
  }

  /** Call i stays in that round in every state of the run from x. */
  ghost predicate StaysInRound(x: System, run: seq<Action>, i: nat)
    requires Legal(x, run)
    decreases |run|
  {
    InRound(After(x, run), i) && (run != [] ==> StaysInRound(x, run[..|run| - 1], i))
  }

  lemma RoundKeepsMark(x: System, a: Action, i: nat)
    requires Can(x, a) && InRound(x, i) && InRound(Do(x, a), i)
    ensures Do(x, a).calls[i].mark == x.calls[i].mark
  {
    if a.Move? && a.i == i {
      if InDrain(x.calls[i].pc) {
      } else {
        assert x.calls[i].pc.Release?;
      }
    }
  }

  lemma {:induction false} RoundRemembers(x: System, run: seq<Action>, i: nat)
    requires Legal(x, run) && StaysInRound(x, run, i) && InRound(x, i)
    ensures InRound(After(x, run), i) && After(x, run).calls[i].mark == x.calls[i].mark
    decreases |run|
  {
    if run == [] {
    } else {
      var n := |run| - 1;
      RoundRemembers(x, run[..n], i);
      RoundKeepsMark(After(x, run[..n]), run[n], i);
    }
  }

  /** Any intent flagged before a holder's swap of `pending` has its id in the queue, or already popped,
      by the time that holder is about to clear `locked`; whatever the other calls do in between. */
  lemma FlaggedBeforeSwapIsDrained(start: System, before: seq<Action>, i: nat, round: seq<Action>)
    requires IsStart(start) && Legal(start, before)
    requires var x := After(start, before); i < |x.calls| && x.calls[i].pc.SwapPending? && Can(x, Move(i))
    requires var y := Do(After(start, before), Move(i)); Legal(y, round) && StaysInRound(y, round, i)
    requires After(Do(After(start, before), Move(i)), round).calls[i].pc.Release?
    ensures After(Do(After(start, before), Move(i)), round).sh.pushed >= After(start, before).sh.flagged
  {
    RunInv(start, before);
    var x := After(start, before);
    var y := Do(x, Move(i));
    assert y.calls[i].mark == x.sh.flagged;
    MoveKeepsInv(x, i);
    assert InRound(y, i);
    RoundRemembers(y, round, i);
    RunKeepsInv(y, round);
    var z := After(y, round);
    assert CallOk(z.sh, z.calls[i]);
  }

  /** In every run, a guard's drop has drained at most once more than there were pend-only
      completions since the drop began. */
  lemma DrainRoundsBounded(start: System, run: seq<Action>, i: nat)
    requires IsStart(start) && Legal(start, run) && i < |After(start, run).calls|
    ensures var x := After(start, run);
            var c := x.calls[i];
            Dropping(c.pc) ==> c.start <= x.sh.completions && c.rounds <= 1 + x.sh.completions - c.start
  {
    RunInv(start, run);
    var x := After(start, run);
    assert CallOk(x.sh, x.calls[i]);
  }

  // ---- conservation ----

  /** Every submission is processed, queued, pending, or in exactly one call's hands; and no
      batch is counted without an item. */
  ghost predicate Conserved(s: Shared, w: Weight) {
    && s.fullEntries + s.pendEntries ==
         s.processed + |s.queue| + s.pendingSubmit +
         w.popping + (w.directing - w.uncounted) + w.submitting + w.swapped + w.undrained
    && s.drainedBatches <= s.drainedItems + w.batching
  }

  lemma Conservation(start: System, run: seq<Action>)
    requires IsStart(start) && Legal(start, run)
    ensures var x := After(start, run); Conserved(x.sh, Sum(Weights(x.calls)))
  {
    RunInv(start, run);
    var x := After(start, run);
  }

  /** With no call in progress: nothing is held, every submission is processed, queued or still pending,
      and what is pending is flagged. */
  ghost predicate Quiescent(s: Shared) {
    && !s.locked && !s.queueHeld
    && s.popped + s.queue == Ids(s.processed + |s.queue|)
    && s.processed == |s.popped|
    && s.fullEntries + s.pendEntries == s.processed + |s.queue| + s.pendingSubmit
    && s.directItems == s.fullEntries
    && s.drainedItems + s.pendingSubmit == s.pendEntries
    && s.drainedBatches <= s.drainedItems
    && (s.pendingSubmit > 0 ==> s.pending)
  }

  lemma QuiescentStates(start: System, run: seq<Action>)
    requires IsStart(start) && Legal(start, run)
    requires AllIdle(After(start, run).calls)
    ensures Quiescent(After(start, run).sh)
  {
    RunInv(start, run);
    var x := After(start, run);
    InvQuiescent(x);
  }

  lemma InvQuiescent(x: System)
    requires Inv(x)
    requires AllIdle(x.calls)
    ensures Quiescent(x.sh)
  {
    IdleHoldNothing(x.calls, -1);
    IdleDeferNothing(x.calls, -1);
    OrderSplits(x.sh);
  }

  // ---- work left over ----

  /** Two producer calls, and the little of the shared state that decides what they do next. */
  ghost predicate Pair(x: System, first: Pc, second: Pc, locked: bool, left: nat) {
    && |x.calls| == 2 && x.calls[0].op.Submit? && x.calls[1].op.Submit?
    && x.calls[0].pc == first && x.calls[1].pc == second
    && x.sh.locked == locked && x.sh.pendingSubmit == left
    && (left == 0 ==> !x.sh.pending)
  }

  /** Some run leads from a fresh lock to x. */
  ghost predicate Reachable(x: System) {
    exists start: System, run: seq<Action> :: IsStart(start) && Leads(start, run, x)
  }

  ghost predicate Leads(start: System, run: seq<Action>, x: System) {
    Legal(start, run) && After(start, run) == x
  }

  lemma ReachMore(x: System, a: Action)
    requires Reachable(x) && Can(x, a)
    ensures Reachable(Do(x, a))
  {
    var start: System, run: seq<Action> :| IsStart(start) && Leads(start, run, x);
    assert (run + [a])[..|run|] == run;
    assert Leads(start, run + [a], Do(x, a));
  }

  lemma ReachableInv(x: System)
    requires Reachable(x)
    ensures Inv(x)
  {
    var start: System, run: seq<Action> :| IsStart(start) && Leads(start, run, x);
    RunInv(start, run);
  }

  /** The next step of one of the two calls. */
  lemma PairMoves(x: System, i: nat, first: Pc, second: Pc, locked: bool, left: nat) returns (y: System)
    requires Reachable(x) && i < 2 == |x.calls| && !Finished(x.calls[i].pc)
    requires var (s', c') := Step(x.sh, x.calls[i]); Pair(System(s', x.calls[i := c']), first, second, locked, left)
    ensures Reachable(y) && Pair(y, first, second, locked, left)
  {
    ReachableInv(x);
    NeverBlocked(x, i);
    y := Do(x, Move(i));
    ReachMore(x, Move(i));
  }

  lemma FirstDraws(x: System) returns (y: System, id: nat)
    requires Reachable(x) && Pair(x, CountFull, CountPend, true, 0)
    ensures Reachable(y) && Pair(y, PushId(id), CountPend, true, 0)
  {
    y := PairMoves(x, 0, DrawId, CountPend, true, 0);
    id := y.sh.nextId;
    y := PairMoves(y, 0, LockForId(id), CountPend, true, 0);
    y := PairMoves(y, 0, PushId(id), CountPend, true, 0);
  }

  /** The first call submits directly. */
  lemma FirstSubmits(x: System) returns (y: System)
    requires Reachable(x) && Pair(x, CountFull, CountPend, true, 0)
    ensures Reachable(y) && Pair(y, UnlockId, CountPend, true, 0)
  {
    var id;
    y, id := FirstDraws(x);
    y := PairMoves(y, 0, CountDirect, CountPend, true, 0);
    y := PairMoves(y, 0, UnlockId, CountPend, true, 0);
  }

  lemma FirstUnlocks(x: System) returns (y: System)
    requires Reachable(x) && Pair(x, UnlockId, CountPend, true, 0)
    ensures Reachable(y) && Pair(y, SwapPending, CountPend, true, 0)
  {
    y := PairMoves(x, 0, SwapPending, CountPend, true, 0);
  }

  lemma FirstDrops(x: System) returns (y: System)
    requires Reachable(x) && Pair(x, UnlockId, CountPend, true, 0)
    ensures Reachable(y) && Pair(y, Release, CountPend, true, 0)
  {
    y := FirstUnlocks(x);
    y := PairMoves(y, 0, Release, CountPend, true, 0);
  }

  lemma FirstReleases(x: System) returns (y: System)
    requires Reachable(x) && Pair(x, UnlockId, CountPend, true, 0)
    ensures Reachable(y) && Pair(y, Recheck, CountPend, false, 0)
  {
    y := FirstDrops(x);
    y := PairMoves(y, 0, Recheck, CountPend, false, 0);
  }

  /** The first call leaves, seeing nothing flagged. */
  lemma FirstLeaves(x: System) returns (y: System)
    requires Reachable(x) && Pair(x, UnlockId, CountPend, true, 0)
    ensures Reachable(y) && Pair(y, Done, CountPend, false, 0)
  {
    y := FirstReleases(x);
    y := PairMoves(y, 0, Done, CountPend, false, 0);
  }

  /** The second call reports its submission and leaves. */
  lemma SecondReports(x: System) returns (y: System)
    requires Reachable(x) && Pair(x, Done, CountPend, false, 0)
    ensures Reachable(y) && Pair(y, Done, Done, false, 1)
  {
    y := PairMoves(x, 1, Done, PendSubmit, false, 0);
    y := PairMoves(y, 1, Done, SetPending, false, 1);
    y := PairMoves(y, 1, Done, Done, false, 1);
  }

  lemma TwoCallsRace(start: System) returns (x: System)
    requires IsStart(start)
    ensures Reachable(x) && Pair(x, CountFull, CountPend, true, 0)
  {
    assert Leads(start, [], start);
    ReachMore(start, Fork(Submit));
    x := Do(start, Fork(Submit));
    ReachMore(x, Fork(Submit));
    x := Do(x, Fork(Submit));
    x := PairMoves(x, 0, CountFull, Enter, true, 0);
    x := PairMoves(x, 1, CountFull, CountPend, true, 0);
  }

  lemma FirstGetsThrough(start: System) returns (x: System)
    requires IsStart(start)
    ensures Reachable(x) && Pair(x, Done, CountPend, false, 0)
  {
    x := TwoCallsRace(start);
    x := FirstSubmits(x);
    x := FirstLeaves(x);
  }

  /** Threads, unlike nested contexts, can leave work behind: a producer that loses the CAS and
      reports only after the holder's last look at `pending` leaves its submission pending, with no
      call left to drain it. */
  lemma ThreadsCanLeaveWork(start: System) returns (x: System)
    requires IsStart(start)
    ensures Reachable(x) && AllIdle(x.calls) && x.sh.pendingSubmit == 1
  {
    x := FirstGetsThrough(start);
    x := SecondReports(x);
    assert Idle(x.calls[0]) && Idle(x.calls[1]);
  }

  // ---- refinement ----

  function Abstract(s: Shared): AbstractQueue.Queue {
    AbstractQueue.Queue(s.popped, s.queue)
  }

  /** The abstract operation a step performs: none, a submit, or a pop. */
  function Performs(s: Shared, c: Call): seq<AbstractQueue.QueueOp> {
    if c.pc.PushId? || c.pc.PushDrained? then [AbstractQueue.Submit]
    else if c.pc.Pop? && c.pc.k > 0 && s.queue != [] then [AbstractQueue.Pop]
    else []
  }

  /** Each step is an abstract submit, an abstract pop, or a stutter. */
  lemma MoveRefines(x: System, i: nat)
    requires Inv(x) && Can(x, Move(i))
    ensures var q, q' := Abstract(x.sh), Abstract(Do(x, Move(i)).sh);
            var ops := Performs(x.sh, x.calls[i]);
            if ops == [] then q' == q
            else AbstractQueue.CanApply(q, ops[0]) && q' == AbstractQueue.Apply(q, ops[0])
  {
    var c := x.calls[i];
    if MovesIds(c.pc) {
      OneHolder(x, i, i);
      assert CallOk(x.sh, c);
    } else {
      OthersLeaveQueue(x.sh, c);
    }
  }

  function ActionPerforms(x: System, a: Action): seq<AbstractQueue.QueueOp>
    requires Can(x, a)
  {
    if a.Move? then Performs(x.sh, x.calls[a.i]) else []
  }

  /** The abstract operations of a run, in order. */
  ghost function Operations(start: System, run: seq<Action>): seq<AbstractQueue.QueueOp>
    requires Legal(start, run)
    decreases |run|
  {
    if run == [] then []
    else
      var front := run[..|run| - 1];
      Operations(start, front) + ActionPerforms(After(start, front), run[|run| - 1])
  }

  lemma ActionRefines(x: System, a: Action, ops: seq<AbstractQueue.QueueOp>)
    requires Inv(x) && Can(x, a) && AbstractQueue.Explains(ops, Abstract(x.sh))
    ensures AbstractQueue.Explains(ops + ActionPerforms(x, a), Abstract(Do(x, a).sh))
  {
    var did := ActionPerforms(x, a);
    if a.Move? {
      MoveRefines(x, a.i);
    }
    if did == [] {
      assert ops + did == ops;
    } else {
      AbstractQueue.Extend(ops, Abstract(x.sh), did[0]);
      assert did == [did[0]];
    }
  }

  /** Every run of the soft lock is a run of the plain queue: its operations, one after the other, explain the ids
      popped and the ids queued. */
  lemma {:induction false} RunRefines(start: System, run: seq<Action>)
    requires IsStart(start) && Legal(start, run)
    ensures AbstractQueue.Explains(Operations(start, run), Abstract(After(start, run).sh))
    decreases |run|
  {
    if run == [] {
    } else {
      var front := run[..|run| - 1];
      RunRefines(start, front);
      RunInv(start, front);
      ActionRefines(After(start, front), run[|run| - 1], Operations(start, front));
    }
  }
}
