/**
 Whole calls of `with_access`, from the first CAS to the end of the guard's drop: what
 each comes to when nobody disturbs it, for every state it may begin in, and what of
 that holds in every interleaving.
 */
module SoftLockAccess {
  import opened Numbers
  import opened SoftLock
  import opened SoftLockInvariant
  import opened Interleavings
  import opened SoftLockObjects

  /** The lock is won, and the call goes on from `pc`. */
  lemma EnterRuns(s: Shared, c: Call, end: Shared, last: Call)
    requires c.pc.Enter? && !s.locked
    requires Runs(s.(locked := true), c.(pc := FullEntry(c.op)), end, last)
    ensures Runs(s, c, end, last)
  {
    RunsStep(s, c, end, last);
  }

  /** A call that has begun its drop ends it. */
  function Ended(s: Shared, c: Call): Call {
    BeginDrop(s, c).(pc := Done, rounds := 1, mark := s.flagged)
  }

  lemma BeganRuns(s: Shared, c: Call)
    requires !s.queueHeld
    ensures Runs(s, BeginDrop(s, c), Round(s), Ended(s, c))
  {
    DropRuns(s, BeginDrop(s, c));
  }

  // ---- a producer's call ----

  /** With the lock: it is counted, its id is queued directly, and a flag set meanwhile is answered. */
  lemma SubmitAccessRuns(s: Shared, c: Call)
    requires c.pc.Enter? && c.op.Submit? && !s.locked && !s.queueHeld
    ensures var t := Submitted(s.(locked := true, fullEntries := s.fullEntries + 1));
            Runs(s, c, Round(t), Ended(t, c))
  {
    var s1 := s.(locked := true);
    var s2 := s1.(fullEntries := s.fullEntries + 1);
    var t := Submitted(s2);
    SubmitRuns(s2, c.(pc := DrawId));
    BeganRuns(t, c);
    RunsOn(s2, c.(pc := DrawId), t, BeginDrop(t, c), Round(t), Ended(t, c));
    RunsStep(s1, c.(pc := CountFull), Round(t), Ended(t, c));
    EnterRuns(s, c, Round(t), Ended(t, c));
  }

  /** Without: it is counted, one more submission is pending, and it is flagged. */
  lemma PendAccessRuns(s: Shared, c: Call)
    requires c.pc.Enter? && c.op.Submit? && s.locked
    ensures Runs(s, c,
                 s.(pendEntries := s.pendEntries + 1, pendingSubmit := s.pendingSubmit + 1, pending := true,
                    completions := s.completions + 1, flagged := s.flagged + 1),
                 c.(pc := Done))
  {
    var s1 := s.(pendEntries := s.pendEntries + 1);
    var s2 := s1.(pendingSubmit := s.pendingSubmit + 1);
    var s3 := s2.(pending := true, completions := s.completions + 1, flagged := s.flagged + 1);
    RunsNot(s3, c.(pc := Done));
    RunsStep(s2, c.(pc := SetPending), s3, c.(pc := Done));
    RunsStep(s1, c.(pc := PendSubmit), s3, c.(pc := Done));
    RunsStep(s, c.(pc := CountPend), s3, c.(pc := Done));
    RunsStep(s, c, s3, c.(pc := Done));
  }

  // ---- the consumer's call ----

  /** Whether the consumer's loop goes on, from what it reads after its pops. */
  predicate GoesOn(s: Shared, total: nat) {
    s.processed < total && !(s.producersDone && s.pendingSubmit == 0 && s.queue == [])
  }

  lemma CheckEnds(s: Shared, c: Call, done: bool, left: nat)
    requires c.pc == LockLen(done, left) && !s.queueHeld
    ensures Runs(s, c, s, BeginDrop(s, c.(result := !(done && left == 0 && s.queue == []))))
  {
    var h := s.(queueHeld := true);
    var c' := c.(result := !(done && left == 0 && s.queue == []));
    RunsNot(s, BeginDrop(s, c'));
    RunsStep(h, c'.(pc := UnlockLen), s, BeginDrop(s, c'));
    RunsStep(h, c.(pc := LoadLen(done, left)), s, BeginDrop(s, c'));
    RunsStep(s, c, s, BeginDrop(s, c'));
  }

  /** The consumer's decision: false if everything is processed, or if the producers are done and nothing is pending
      or queued; and true otherwise. */
  lemma CheckRuns(s: Shared, c: Call)
    requires c.pc.LoadProcessed? && !s.queueHeld
    ensures Runs(s, c, s, BeginDrop(s, c.(result := GoesOn(s, Target(c.op)))))
  {
    var end := BeginDrop(s, c.(result := GoesOn(s, Target(c.op))));
    if s.processed >= Target(c.op) {
      RunsNot(s, end);
      RunsStep(s, c, s, end);
    } else {
      var c2 := c.(pc := LoadPending(s.producersDone));
      var c3 := c.(pc := LockLen(s.producersDone, s.pendingSubmit));
      CheckEnds(s, c3, s.producersDone, s.pendingSubmit);
      RunsStep(s, c2, s, end);
      RunsStep(s, c.(pc := LoadDone), s, end);
      RunsStep(s, c, s, end);
    }
  }

  /** With the lock: everything pending is drained, up to `budget` ids are taken, the decision is made on what is
      left, and a flag set meanwhile is answered. */
  lemma ConsumeAccessRuns(s: Shared, c: Call)
    requires c.pc.Enter? && c.op.Consume? && !s.locked && !s.queueHeld
    ensures var t := Processed(Drained(s.(locked := true)), c.op.budget);
            var c' := c.(result := GoesOn(t, c.op.total));
            Runs(s, c, Round(t), Ended(t, c'))
  {
    var s1 := s.(locked := true);
    var d := Drained(s1);
    var t := Processed(d, c.op.budget);
    var c' := c.(result := GoesOn(t, c.op.total));
    DrainRuns(s1, c.(pc := SwapCount(Closure)), Closure);
    ProcessRuns(d, c.(pc := LockToPop));
    CheckRuns(t, c.(pc := LoadProcessed));
    BeganRuns(t, c');
    RunsOn(t, c.(pc := LoadProcessed), t, BeginDrop(t, c'), Round(t), Ended(t, c'));
    RunsOn(d, c.(pc := LockToPop), t, c.(pc := LoadProcessed), Round(t), Ended(t, c'));
    RunsOn(s1, c.(pc := SwapCount(Closure)), d, c.(pc := LockToPop), Round(t), Ended(t, c'));
    EnterRuns(s, c, Round(t), Ended(t, c'));
  }

  /** Without: nothing but the flag is stored, and the loop's result stays what it was, true. */
  lemma ConsumePendRuns(s: Shared, c: Call)
    requires c.pc.Enter? && c.op.Consume? && s.locked
    ensures Runs(s, c, s.(pending := true, completions := s.completions + 1), c.(pc := Done))
  {
    var s1 := s.(pending := true, completions := s.completions + 1);
    RunsNot(s1, c.(pc := Done));
    RunsStep(s, c.(pc := SetPending), s1, c.(pc := Done));
    RunsStep(s, c, s1, c.(pc := Done));
  }

  // ---- the closing call ----

  /** One of its loads. */
  lemma LookRuns(s: Shared, c: Call, k: nat, s': Shared, seen: Readings, end: Shared, last: Call)
    requires c.pc == Look(k) && k < 8 && LookStep(s, c) == (s', c.(pc := Look(k + 1), seen := seen))
    requires Runs(s', c.(pc := Look(k + 1), seen := seen), end, last)
    ensures Runs(s, c, end, last)
  {
    RunsStep(s, c, end, last);
  }

  lemma LastLookRuns(s: Shared, c: Call, r7: Readings)
    requires c.pc == Look(7) && c.seen == r7 && !s.queueHeld
    ensures Runs(s, c, Round(s), Ended(s, c.(seen := r7.(items := s.drainedItems, batches := s.drainedBatches))))
  {
    var r8 := r7.(items := s.drainedItems);
    var all := r8.(batches := s.drainedBatches);
    var end := Ended(s, c.(seen := all));
    BeganRuns(s, c.(seen := all));
    RunsStep(s, c.(pc := Look(8), seen := r8), Round(s), end);
    LookRuns(s, c, 7, s, r8, Round(s), end);
  }

  lemma ObserveEnds(s: Shared, c: Call, r5: Readings)
    requires c.pc == Look(5) && c.seen == r5 && !s.queueHeld
    ensures var all := r5.(full := s.fullEntries, pend := s.pendEntries, items := s.drainedItems,
                           batches := s.drainedBatches);
            Runs(s, c, Round(s), Ended(s, c.(seen := all)))
  {
    var r6 := r5.(full := s.fullEntries);
    var r7 := r6.(pend := s.pendEntries);
    var c7 := c.(pc := Look(7), seen := r7);
    var end := Ended(s, c.(seen := r7.(items := s.drainedItems, batches := s.drainedBatches)));
    LastLookRuns(s, c7, r7);
    LookRuns(s, c.(pc := Look(6), seen := r6), 6, s, r7, Round(s), end);
    LookRuns(s, c, 5, s, r6, Round(s), end);
  }

  /** The length is read under the queue's mutex. */
  lemma LengthRuns(s: Shared, c: Call, end: Shared, last: Call)
    requires c.pc == Look(2) && !s.queueHeld
    requires Runs(s, c.(pc := Look(5), seen := c.seen.(queueLeft := |s.queue|)), end, last)
    ensures Runs(s, c, end, last)
  {
    var h, r := s.(queueHeld := true), c.seen.(queueLeft := |s.queue|);
    LookRuns(h, c.(pc := Look(4), seen := r), 4, s, r, end, last);
    LookRuns(h, c.(pc := Look(3)), 3, h, r, end, last);
    LookRuns(s, c, 2, h, c.seen, end, last);
  }

  function AllRead(s: Shared): Readings {
    Readings(s.processed, s.pendingSubmit, |s.queue|, s.fullEntries, s.pendEntries, s.drainedItems, s.drainedBatches)
  }

  /** With the lock: it reads the seven counters. */
  lemma ObserveAccessRuns(s: Shared, c: Call)
    requires c.pc.Enter? && c.op.Observe? && !s.locked && !s.queueHeld
    ensures var t := s.(locked := true);
            Runs(s, c, Round(t), Ended(t, c.(seen := AllRead(s))))
  {
    var t := s.(locked := true);
    var r1 := c.seen.(processed := s.processed);
    var r2 := r1.(pending := s.pendingSubmit);
    var r3 := r2.(queueLeft := |s.queue|);
    var end := Ended(t, c.(seen := AllRead(s)));
    ObserveEnds(t, c.(pc := Look(5), seen := r3), r3);
    LengthRuns(t, c.(pc := Look(2), seen := r2), Round(t), end);
    LookRuns(t, c.(pc := Look(1), seen := r1), 1, t, r2, Round(t), end);
    LookRuns(t, c.(pc := Look(0)), 0, t, r1, Round(t), end);
    EnterRuns(s, c, Round(t), end);
  }

  // ---- in every interleaving ----

  /** None of the run's steps is call i's. */
  predicate OthersOnly(run: seq<Action>, i: nat) {
    forall k :: 0 <= k < |run| ==> run[k] != Move(i)
  }

  lemma {:induction false} OthersLeaveCall(x: System, run: seq<Action>, i: nat)
    requires Legal(x, run) && OthersOnly(run, i) && i < |x.calls| && !x.calls[i].pc.Done?
    ensures i < |After(x, run).calls| && After(x, run).calls[i] == x.calls[i]
    decreases |run|
  {
    if run == [] {
    } else {
      OthersLeaveCall(x, run[..|run| - 1], i);
    }
  }

  /** The step at a clear flag, and then the release. */
  ghost predicate OnlyReleases(x: System, y: System, z: System, i: nat) {
    && y.sh == x.sh
    && i < |z.calls| && z.calls[i].pc.Release? && Can(z, Move(i))
    && Do(z, Move(i)).sh == z.sh.(locked := false)
  }

  lemma SwapFindsClear(x: System, i: nat)
    requires Can(x, Move(i)) && x.calls[i].pc.SwapPending? && !x.sh.pending
    ensures var y := Do(x, Move(i)); y.sh == x.sh && y.calls[i].pc.Release?
  {
  }

  lemma ReleaseOnlyUnlocks(z: System, i: nat)
    requires i < |z.calls| && z.calls[i].pc.Release?
    ensures Can(z, Move(i)) && Do(z, Move(i)).sh == z.sh.(locked := false)
  {
  }

  /** A guard whose swap finds `pending` clear drains nothing in that round, however much is recorded: in every run,
      its swap changes nothing, and its next step is the release store, which changes nothing but `locked`. */
  lemma UnflaggedRoundOnlyReleases(start: System, before: seq<Action>, i: nat, x: System, y: System,
                                   between: seq<Action>)
    requires IsStart(start) && Legal(start, before) && x == After(start, before)
    requires Can(x, Move(i)) && x.calls[i].pc.SwapPending? && !x.sh.pending && y == Do(x, Move(i))
    requires Legal(y, between) && OthersOnly(between, i)
    ensures OnlyReleases(x, y, After(y, between), i)
  {
    SwapFindsClear(x, i);
    OthersLeaveCall(y, between, i);
    ReleaseOnlyUnlocks(After(y, between), i);
  }

  /** A call finishes by its guard's last look at `pending`, which it makes only after having held the lock; or it
      leaves `pending` set behind it. */
  lemma FinishesFlagged(x: System, i: nat)
    requires Can(x, Move(i))
    ensures var pc, y := x.calls[i].pc, Do(x, Move(i));
            && (y.calls[i].pc.Done? ==> (pc.Recheck? && !x.sh.pending) || y.sh.pending)
            && (y.calls[i].pc.Recheck? ==> Holds(pc))
  {
    var c := x.calls[i];
    if InLock(c.pc) {
    } else if InPend(c.pc) {
    } else if Holds(c.pc) {
      HolderFinishesByLook(x.sh, c);
    }
  }

  lemma HolderFinishesByLook(s: Shared, c: Call)
    requires Holds(c.pc) && !InLock(c.pc)
    ensures !Step(s, c).1.pc.Done?
  {
    if InSubmit(c.pc) {
    } else if InDrain(c.pc) {
    } else if InPop(c.pc) {
    } else if InCheck(c.pc) {
    }
  }
}
