/**
 When a run of the soft lock leaves work behind: exactly when some call is pend-only
 at the last exit, that is, when the last guard to leave looks at `pending`, sees
 nothing, and goes.
 */
module Leftovers {
  import opened Numbers
  import opened SoftLock
  import opened SoftLockInvariant
  import opened Interleavings
  import opened Preemption

  /** A guard's drop ends: it looks at `pending` once more and sees nothing. */
  predicate IsExit(x: System, a: Action) {
    a.Move? && a.i < |x.calls| && x.calls[a.i].pc.Recheck? && !x.sh.pending
  }

  ghost predicate SomePendOnly(calls: seq<Call>) {
    exists i :: 0 <= i < |calls| && PendOnly(calls[i].pc)
  }

  ghost predicate SomeAnswerable(calls: seq<Call>) {
    exists i :: 0 <= i < |calls| && Answerable(calls[i].pc)
  }

  /** `pending` is set, or will be. */
  ghost predicate Due(x: System) {
    x.sh.pending || SomePendOnly(x.calls)
  }

  /** No exit of the run is taken while a call is pend-only. */
  ghost predicate CleanExits(start: System, run: seq<Action>)
    requires Legal(start, run)
    decreases |run|
  {
    run == [] ||
    (var front := run[..|run| - 1];
     var x := After(start, front);
     CleanExits(start, front) && (IsExit(x, run[|run| - 1]) ==> !SomePendOnly(x.calls)))
  }

  /** The run has no exit. */
  ghost predicate ExitFree(start: System, run: seq<Action>)
    requires Legal(start, run)
    decreases |run|
  {
    run == [] ||
    (var front := run[..|run| - 1]; ExitFree(start, front) && !IsExit(After(start, front), run[|run| - 1]))
  }

  // ---- who answers ----

  /** A call that answers for `pending` goes on doing so until it exits. */
  lemma StaysAnswerable(s: Shared, c: Call)
    requires Answerable(c.pc) && !(c.pc.Recheck? && !s.pending)
    ensures Answerable(Step(s, c).1.pc)
  {
    if InLock(c.pc) {
    } else {
      HolderStays(s, c);
    }
  }

  /** With nobody answering, a call that enters wins. */
  lemma EntersAnswerable(x: System, i: nat)
    requires Inv(x) && Can(x, Move(i)) && !SomeAnswerable(x.calls) && !PendOnly(x.calls[i].pc)
    ensures !x.sh.locked && Answerable(Do(x, Move(i)).calls[i].pc)
  {
    LockedMeansHeld(x);
    assert !Answerable(x.calls[i].pc);
    assert InLock(x.calls[i].pc);
  }

  /** Answering does not end but by an exit. */
  lemma MoveKeepsAnswerable(x: System, i: nat)
    requires Can(x, Move(i)) && SomeAnswerable(x.calls) && !IsExit(x, Move(i))
    ensures SomeAnswerable(Do(x, Move(i)).calls)
  {
    var j :| 0 <= j < |x.calls| && Answerable(x.calls[j].pc);
    if j == i {
      StaysAnswerable(x.sh, x.calls[i]);
    }
    assert Answerable(Do(x, Move(i)).calls[j].pc);
  }

  lemma ActionKeepsAnswerable(x: System, a: Action)
    requires Can(x, a) && SomeAnswerable(x.calls) && !IsExit(x, a)
    ensures SomeAnswerable(Do(x, a).calls)
  {
    if a.Move? {
      MoveKeepsAnswerable(x, a.i);
    } else {
      var j :| 0 <= j < |x.calls| && Answerable(x.calls[j].pc);
      assert Answerable(Do(x, a).calls[j].pc);
    }
  }

  // ---- clean exits ----

  /** Whatever is flagged or will be has a call that answers for it. */
  ghost predicate Answered(x: System) {
    Inv(x) && (Due(x) ==> SomeAnswerable(x.calls))
  }

  /** Actions other than steps make nobody pend-only. */
  lemma OtherActionsDue(x: System, a: Action)
    requires Can(x, a) && !a.Move? && Due(Do(x, a))
    ensures Due(x)
  {
    var y := Do(x, a);
    if !y.sh.pending {
      var i :| 0 <= i < |y.calls| && PendOnly(y.calls[i].pc);
      assert PendOnly(x.calls[i].pc);
    }
  }

  lemma ExitSettles(x: System, i: nat)
    requires Can(x, Move(i)) && IsExit(x, Move(i))
    ensures var y := Do(x, Move(i));
            y.sh == x.sh && (SomePendOnly(y.calls) <==> SomePendOnly(x.calls))
  {
    var y := Do(x, Move(i));
    forall j | 0 <= j < |x.calls| ensures PendOnly(y.calls[j].pc) <==> PendOnly(x.calls[j].pc) {
    }
  }

  lemma ActionKeepsAnswered(x: System, a: Action)
    requires Answered(x) && Can(x, a) && (IsExit(x, a) ==> !SomePendOnly(x.calls))
    ensures Answered(Do(x, a))
  {
    ActionKeepsInv(x, a);
    if IsExit(x, a) {
      ExitSettles(x, a.i);
    } else if SomeAnswerable(x.calls) {
      ActionKeepsAnswerable(x, a);
    } else if a.Move? {
      EntersAnswerable(x, a.i);
    } else if Due(Do(x, a)) {
      OtherActionsDue(x, a);
    }
  }

  lemma {:induction false} RunAnswered(start: System, run: seq<Action>)
    requires IsStart(start) && Legal(start, run) && CleanExits(start, run)
    ensures Answered(After(start, run))
    decreases |run|
  {
    if run == [] {
      StartInv(start);
    } else {
      var front := run[..|run| - 1];
      RunAnswered(start, front);
      ActionKeepsAnswered(After(start, front), run[|run| - 1]);
    }
  }

  /** Nobody is in progress, so nobody answers. */
  lemma IdleAnswersNothing(calls: seq<Call>)
    requires AllIdle(calls)
    ensures !SomeAnswerable(calls) && !SomePendOnly(calls)
  {
    assert forall i :: 0 <= i < |calls| ==> Idle(calls[i]);
  }

  lemma UnflaggedLosesNothing(x: System)
    requires Inv(x) && AllIdle(x.calls) && !x.sh.pending
    ensures NothingLost(x.sh)
  {
    InvQuiescent(x);
  }

  /** Threads, too, leave nothing behind, in every run in which no exit is taken while a call is pend-only. */
  lemma CleanExitsLoseNothing(start: System, run: seq<Action>)
    requires IsStart(start) && Legal(start, run) && CleanExits(start, run) && AllIdle(After(start, run).calls)
    ensures NothingLost(After(start, run).sh)
  {
    RunAnswered(start, run);
    IdleAnswersNothing(After(start, run).calls);
    UnflaggedLosesNothing(After(start, run));
  }

  lemma HolderBelowOn(calls: seq<Call>, j: int, n: int)
    requires HolderBelow(calls, j) && j <= n
    ensures HolderBelow(calls, n)
  {
    var i :| 0 <= i < |calls| && i < j && Holds(calls[i].pc);
  }

  lemma NestedExitClean(x: System, a: Action)
    requires Stacked(x) && NestedAction(x, a) && IsExit(x, a)
    ensures !SomePendOnly(x.calls)
  {
    var n := |x.calls| - 1;
    assert Answerable(x.calls[n].pc);
    if j :| 0 <= j < |x.calls| && PendOnly(x.calls[j].pc) {
      HolderBelowOn(x.calls, j, n);
    }
  }

  lemma CleanOneMore(start: System, run: seq<Action>)
    requires Legal(start, run) && run != [] && CleanExits(start, run[..|run| - 1])
    requires var x := After(start, run[..|run| - 1]); IsExit(x, run[|run| - 1]) ==> !SomePendOnly(x.calls)
    ensures CleanExits(start, run)
  {
  }

  /** Under nested preemption no exit is ever taken while a call is pend-only: `NoLostWork` is a special case. */
  lemma {:induction false} NestedExitsClean(start: System, run: seq<Action>)
    requires IsStart(start) && Legal(start, run) && Nested(start, run)
    ensures CleanExits(start, run)
    decreases |run|
  {
    if run == [] {
    } else {
      var front := run[..|run| - 1];
      NestedSplits(start, run);
      NestedExitsClean(start, front);
      NestedRunStacked(start, front);
      var x := After(start, front);
      if IsExit(x, run[|run| - 1]) {
        NestedExitClean(x, run[|run| - 1]);
      }
      CleanOneMore(start, run);
    }
  }

  // ---- the last exit ----

  predicate Coming(pc: Pc) {
    pc.CountPend? || pc.PendSubmit?
  }

  /** Calls that lost the lock and have not recorded their submission yet. */
  function StillComing(calls: seq<Call>): nat {
    if calls == [] then 0 else StillComing(calls[..|calls| - 1]) + Bit(Coming(calls[|calls| - 1].pc))
  }

  lemma {:induction false} ComingUpdate(calls: seq<Call>, i: nat, c: Call)
    requires i < |calls|
    ensures StillComing(calls[i := c]) == StillComing(calls) - Bit(Coming(calls[i].pc)) + Bit(Coming(c.pc))
  {
    var n := |calls| - 1;
    if i == n {
      assert calls[i := c][..n] == calls[..n];
    } else {
      ComingUpdate(calls[..n], i, c);
      assert calls[i := c][..n] == calls[..n][i := c];
    }
  }

  lemma {:induction false} NoneComing(calls: seq<Call>)
    requires AllIdle(calls)
    ensures StillComing(calls) == 0
  {
    if calls == [] {
    } else {
      var n := |calls| - 1;
      assert Idle(calls[n]);
      NoneComing(calls[..n]);
    }
  }

  /** What is left to settle once nobody answers any more: whether anything is due, and how many submissions. */
  ghost predicate Settled(x: System, due: bool, count: int) {
    Inv(x) && (SomeAnswerable(x.calls) || (Due(x) == due && x.sh.pendingSubmit + StillComing(x.calls) == count))
  }

  /** A pend-only call's steps only carry out what is due. */
  lemma PendOnlyStep(s: Shared, c: Call)
    requires CarriesLatest(s, c) && PendOnly(c.pc) && !Finished(c.pc)
    ensures var (s', c') := Step(s, c);
            && s'.pendingSubmit + Bit(Coming(c'.pc)) == s.pendingSubmit + Bit(Coming(c.pc))
            && (s'.pending || PendOnly(c'.pc)) && (s.pending ==> s'.pending)
  {
    assert InPend(c.pc);
  }

  lemma PendOnlyMoveSettles(x: System, i: nat, due: bool, count: int)
    requires Settled(x, due, count) && Can(x, Move(i)) && !SomeAnswerable(x.calls) && PendOnly(x.calls[i].pc)
    ensures Settled(Do(x, Move(i)), due, count)
  {
    var y := Do(x, Move(i));
    ActionKeepsInv(x, Move(i));
    assert CallOk(x.sh, x.calls[i]);
    PendOnlyStep(x.sh, x.calls[i]);
    ComingUpdate(x.calls, i, y.calls[i]);
    assert SomePendOnly(x.calls);
    assert y.sh.pending || PendOnly(y.calls[i].pc);
  }

  lemma {:induction false} ComingAppend(calls: seq<Call>, c: Call)
    ensures StillComing(calls + [c]) == StillComing(calls) + Bit(Coming(c.pc))
  {
    assert (calls + [c])[..|calls|] == calls;
  }

  lemma OtherActionSettles(x: System, a: Action, due: bool, count: int)
    requires Settled(x, due, count) && Can(x, a) && !SomeAnswerable(x.calls) && !a.Move?
    ensures Settled(Do(x, a), due, count)
  {
    var y := Do(x, a);
    ActionKeepsInv(x, a);
    if Due(y) {
      OtherActionsDue(x, a);
    }
    if SomePendOnly(x.calls) {
      var i :| 0 <= i < |x.calls| && PendOnly(x.calls[i].pc);
      assert PendOnly(y.calls[i].pc);
    }
    match a {
      case Fork(op) => ComingAppend(x.calls, Fresh(op));
      case Begin(i, op) => ComingUpdate(x.calls, i, Fresh(op));
      case _ =>
    }
  }

  lemma ActionSettles(x: System, a: Action, due: bool, count: int)
    requires Settled(x, due, count) && Can(x, a) && !IsExit(x, a)
    ensures Settled(Do(x, a), due, count)
  {
    if SomeAnswerable(x.calls) {
      ActionKeepsInv(x, a);
      ActionKeepsAnswerable(x, a);
    } else if !a.Move? {
      OtherActionSettles(x, a, due, count);
    } else if PendOnly(x.calls[a.i].pc) {
      PendOnlyMoveSettles(x, a.i, due, count);
    } else {
      ActionKeepsInv(x, a);
      EntersAnswerable(x, a.i);
    }
  }

  lemma {:induction false} RunSettles(x: System, run: seq<Action>, due: bool, count: int)
    requires Settled(x, due, count) && Legal(x, run) && ExitFree(x, run)
    ensures Settled(After(x, run), due, count)
    decreases |run|
  {
    if run == [] {
    } else {
      var front := run[..|run| - 1];
      RunSettles(x, front, due, count);
      ActionSettles(After(x, front), run[|run| - 1], due, count);
    }
  }

  /** What a state with every call idle owes to the last exit, at x. */
  ghost predicate DecidedAt(x: System, end: Shared) {
    && (end.pending <==> SomePendOnly(x.calls))
    && end.pendingSubmit == x.sh.pendingSubmit + StillComing(x.calls)
    && (NothingLost(end) <==> !SomePendOnly(x.calls))
  }

  lemma ExitSettled(x: System, i: nat)
    requires Inv(x) && Can(x, Move(i)) && IsExit(x, Move(i))
    ensures Settled(Do(x, Move(i)), SomePendOnly(x.calls), x.sh.pendingSubmit + StillComing(x.calls))
  {
    ActionKeepsInv(x, Move(i));
    ExitSettles(x, i);
    ComingUpdate(x.calls, i, Do(x, Move(i)).calls[i]);
  }

  lemma IdleDecided(x: System, z: System)
    requires Settled(z, SomePendOnly(x.calls), x.sh.pendingSubmit + StillComing(x.calls)) && AllIdle(z.calls)
    ensures DecidedAt(x, z.sh)
  {
    IdleAnswersNothing(z.calls);
    NoneComing(z.calls);
    if !z.sh.pending {
      UnflaggedLosesNothing(z);
    }
  }

  lemma ExitDecides(x: System, y: System, after: seq<Action>)
    requires Settled(y, SomePendOnly(x.calls), x.sh.pendingSubmit + StillComing(x.calls))
    requires Legal(y, after) && ExitFree(y, after) && AllIdle(After(y, after).calls)
    ensures DecidedAt(x, After(y, after).sh)
  {
    RunSettles(y, after, SomePendOnly(x.calls), x.sh.pendingSubmit + StillComing(x.calls));
    IdleDecided(x, After(y, after));
  }

  /** In every run that ends with every call idle, the last exit decides: `pending` stays set if and only if some
      call was pend-only then; what stays pending is what was pending then and what those calls were still to
      record; and nothing is left behind if and only if no call was pend-only. */
  lemma LastExitDecides(start: System, before: seq<Action>, i: nat, x: System, y: System, after: seq<Action>)
    requires IsStart(start) && Legal(start, before) && x == After(start, before)
    requires Can(x, Move(i)) && IsExit(x, Move(i)) && y == Do(x, Move(i))
    requires Legal(y, after) && ExitFree(y, after) && AllIdle(After(y, after).calls)
    ensures DecidedAt(x, After(y, after).sh)
  {
    RunInv(start, before);
    ExitSettled(x, i);
    ExitDecides(x, y, after);
  }

  /** A run without any exit is one of those in which no exit is taken while a call is pend-only. */
  lemma {:induction false} ExitFreeClean(start: System, run: seq<Action>)
    requires Legal(start, run) && ExitFree(start, run)
    ensures CleanExits(start, run)
    decreases |run|
  {
    if run == [] {
    } else {
      ExitFreeClean(start, run[..|run| - 1]);
      CleanOneMore(start, run);
    }
  }
}
