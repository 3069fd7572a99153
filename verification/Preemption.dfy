/**
 The soft lock under nested preemption: the calls form a stack of contexts, only the
 top one steps, and it finishes before the one below resumes. Same steps as in
 arbitrary interleavings; only the scheduler is restricted.
 */
module Preemption {
  import opened Numbers
  import opened SoftLock
  import opened SoftLockInvariant
  import opened Interleavings

  /** The actions a stack of contexts allows. */
  predicate NestedAction(x: System, a: Action) {
    match a
    case Fork(_) => true
    case Move(i) => i + 1 == |x.calls|
    case Retire => true
    case _ => false
  }

  ghost predicate Nested(x: System, run: seq<Action>)
    requires Legal(x, run)
    decreases |run|
  {
    run == [] || (Nested(x, run[..|run| - 1]) && NestedAction(After(x, run[..|run| - 1]), run[|run| - 1]))
  }

  /** The last action of a nested run. */
  lemma NestedSplits(start: System, run: seq<Action>)
    requires Legal(start, run) && Nested(start, run) && run != []
    ensures var n := |run| - 1;
            && Legal(start, run[..n]) && Nested(start, run[..n])
            && Can(After(start, run[..n]), run[n]) && NestedAction(After(start, run[..n]), run[n])
            && After(start, run) == Do(After(start, run[..n]), run[n])
  {
  }

  ghost predicate HolderBelow(calls: seq<Call>, j: int) {
    exists i :: 0 <= i < |calls| && i < j && Holds(calls[i].pc)
  }

  /** The call won `locked` and its drop is not over: it answers for a set `pending`. */
  predicate Answerable(pc: Pc) {
    Holds(pc) || pc.Recheck? || pc.Reacquire?
  }

  /** A pend-only context has a holder below it, a context that won has none, and a set flag
      always has a context answering for it. */
  ghost predicate Stacked(x: System) {
    && Inv(x)
    && (forall j :: 0 <= j < |x.calls| && PendOnly(x.calls[j].pc) ==> HolderBelow(x.calls, j))
    && (forall j :: 0 <= j < |x.calls| && Answerable(x.calls[j].pc) ==> !HolderBelow(x.calls, j))
    && (x.sh.pending ==> exists j :: 0 <= j < |x.calls| && Answerable(x.calls[j].pc))
  }

  /** Who is pend-only and who is answerable after a step. */
  lemma StepRoles(s: Shared, c: Call)
    ensures var (s', c') := Step(s, c);
            && (PendOnly(c'.pc) ==> PendOnly(c.pc) || (c.pc.Enter? && s.locked))
            && (Answerable(c'.pc) ==> Answerable(c.pc) || (c.pc.Enter? && !s.locked))
            && (s'.pending && !Answerable(c'.pc) ==>
                  (s.pending && !Answerable(c.pc)) || PendOnly(c.pc))
  {
    if InLock(c.pc) {
    } else if InPend(c.pc) {
    } else if Holds(c.pc) {
      HolderUnobtrusive(s, c);
      HolderStays(s, c);
    }
  }

  lemma HolderStays(s: Shared, c: Call)
    requires Holds(c.pc) && !InLock(c.pc)
    ensures Holds(Step(s, c).1.pc)
  {
    if InSubmit(c.pc) {
    } else if InDrain(c.pc) {
    } else if InPop(c.pc) {
    } else if InCheck(c.pc) {
    }
  }

  lemma SameBelow(calls: seq<Call>, calls': seq<Call>, j: int)
    requires j <= |calls| && j <= |calls'|
    requires forall i :: 0 <= i < j ==> calls[i] == calls'[i]
    ensures HolderBelow(calls, j) <==> HolderBelow(calls', j)
  {
    if HolderBelow(calls, j) {
      var i :| 0 <= i < |calls| && i < j && Holds(calls[i].pc);
      assert Holds(calls'[i].pc);
    }
    if HolderBelow(calls', j) {
      var i :| 0 <= i < |calls'| && i < j && Holds(calls'[i].pc);
      assert i < |calls| && calls[i] == calls'[i];
      assert Holds(calls[i].pc);
    }
  }

  /** After the top context's step, a set flag has a context answering for it. */
  lemma TopMoveAnswered(x: System)
    requires Stacked(x) && |x.calls| > 0 && Can(x, Move(|x.calls| - 1))
    ensures var y := Do(x, Move(|x.calls| - 1));
            y.sh.pending ==> exists j :: 0 <= j < |y.calls| && Answerable(y.calls[j].pc)
  {
    var n := |x.calls| - 1;
    var c := x.calls[n];
    var y := Do(x, Move(n));
    StepRoles(x.sh, c);
    if y.sh.pending && !Answerable(y.calls[n].pc) {
      var j: nat;
      if x.sh.pending && !Answerable(c.pc) {
        j :| j < |x.calls| && Answerable(x.calls[j].pc);
      } else {
        j :| j < |x.calls| && j < n && Holds(x.calls[j].pc);
      }
      assert Answerable(y.calls[j].pc);
    }
  }

  lemma TopMoveKeepsStacked(x: System)
    requires Stacked(x) && |x.calls| > 0 && Can(x, Move(|x.calls| - 1))
    ensures Stacked(Do(x, Move(|x.calls| - 1)))
  {
    var n := |x.calls| - 1;
    var c := x.calls[n];
    var y := Do(x, Move(n));
    MoveKeepsInv(x, n);
    StepRoles(x.sh, c);
    LockedMeansHeld(x);
    forall j | 0 <= j <= n ensures HolderBelow(x.calls, j) <==> HolderBelow(y.calls, j) {
      SameBelow(x.calls, y.calls, j);
    }
    if c.pc.Enter? && x.sh.locked {
      var i :| 0 <= i < |x.calls| && Holds(x.calls[i].pc);
      assert i < n;
      assert HolderBelow(x.calls, n);
    }
    TopMoveAnswered(x);
  }

  lemma ForkKeepsStacked(x: System, op: Op)
    requires Stacked(x)
    ensures Stacked(Do(x, Fork(op)))
  {
    var y := Do(x, Fork(op));
    ForkKeepsInv(x, op);
    forall j | 0 <= j < |x.calls|
      ensures y.calls[j] == x.calls[j] && (HolderBelow(x.calls, j) <==> HolderBelow(y.calls, j))
    {
      SameBelow(x.calls, y.calls, j);
    }
    if x.sh.pending {
      var j :| 0 <= j < |x.calls| && Answerable(x.calls[j].pc);
      assert Answerable(y.calls[j].pc);
    }
  }

  lemma RetireKeepsStacked(x: System)
    requires Stacked(x) && Can(x, Retire)
    ensures Stacked(Do(x, Retire))
  {
    var y := Do(x, Retire);
    RetireKeepsInv(x);
    forall j | 0 <= j < |y.calls|
      ensures y.calls[j] == x.calls[j] && (HolderBelow(x.calls, j) <==> HolderBelow(y.calls, j))
    {
      SameBelow(x.calls, y.calls, j);
    }
    if x.sh.pending {
      var j :| 0 <= j < |x.calls| && Answerable(x.calls[j].pc);
      assert j < |y.calls| && Answerable(y.calls[j].pc);
    }
  }

  lemma NestedActionKeepsStacked(x: System, a: Action)
    requires Stacked(x) && Can(x, a) && NestedAction(x, a)
    ensures Stacked(Do(x, a))
  {
    match a {
      case Fork(op) => ForkKeepsStacked(x, op);
      case Move(i) => TopMoveKeepsStacked(x);
      case Retire => RetireKeepsStacked(x);
    }
  }

  lemma StartStacked(x: System)
    requires IsStart(x)
    ensures Stacked(x)
  {
    StartInv(x);
  }

  lemma {:induction false} NestedRunStacked(start: System, run: seq<Action>)
    requires IsStart(start) && Legal(start, run) && Nested(start, run)
    ensures Stacked(After(start, run))
    decreases |run|
  {
    if run == [] {
      StartStacked(start);
    } else {
      var n := |run| - 1;
      NestedRunStacked(start, run[..n]);
      NestedActionKeepsStacked(After(start, run[..n]), run[n]);
    }
  }

  /** Nothing locked, nothing flagged, nothing pending, and every submission ever made is
      in the queue or popped, its id in order. */
  ghost predicate NothingLost(s: Shared) {
    && !s.locked && !s.pending && !s.queueHeld
    && s.pendingSubmit == 0
    && s.popped + s.queue == Ids(s.fullEntries + s.pendEntries)
    && s.processed == |s.popped|
    && s.directItems == s.fullEntries && s.drainedItems == s.pendEntries
  }

  /** No lost work: for every nested run, with preemptions of any depth at any step, whenever the
      stack is empty no submission is left over. */
  lemma NoLostWork(start: System, run: seq<Action>)
    requires IsStart(start) && Legal(start, run) && Nested(start, run)
    requires After(start, run).calls == []
    ensures NothingLost(After(start, run).sh)
  {
    NestedRunStacked(start, run);
    EmptyStackLosesNothing(After(start, run));
  }

  lemma EmptyStackLosesNothing(x: System)
    requires Stacked(x) && x.calls == []
    ensures NothingLost(x.sh)
  {
    InvQuiescent(x);
  }

  /** Under nested preemption the re-acquiring CAS succeeds the first time: the spin body never runs. */
  lemma ReacquireSucceeds(start: System, run: seq<Action>)
    requires IsStart(start) && Legal(start, run) && Nested(start, run)
    requires var x := After(start, run); |x.calls| > 0 && x.calls[|x.calls| - 1].pc.Reacquire?
    ensures var x := After(start, run);
            !x.sh.locked && Step(x.sh, x.calls[|x.calls| - 1]).1.pc.SwapPending?
  {
    NestedRunStacked(start, run);
    TopReacquires(After(start, run));
  }

  lemma TopReacquires(x: System)
    requires Stacked(x) && |x.calls| > 0 && x.calls[|x.calls| - 1].pc.Reacquire?
    ensures !x.sh.locked
    ensures Step(x.sh, x.calls[|x.calls| - 1]).1.pc.SwapPending?
  {
    LockedMeansHeld(x);
    assert InLock(x.calls[|x.calls| - 1].pc);
  }

  /** A nested run never gets stuck: the top context can step or leave. (Only the closing access, which
      the benchmark makes when no other call exists, panics if it meets a holder.) */
  lemma NestedProgress(start: System, run: seq<Action>)
    requires IsStart(start) && Legal(start, run) && Nested(start, run)
    requires var x := After(start, run); |x.calls| > 0 && !x.calls[|x.calls| - 1].pc.Unreachable?
    ensures var x := After(start, run); Can(x, Move(|x.calls| - 1)) || Can(x, Retire)
  {
    NestedRunStacked(start, run);
    var x := After(start, run);
    NeverBlocked(x, |x.calls| - 1);
  }
}
