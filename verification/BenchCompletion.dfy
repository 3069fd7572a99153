/**
 The soft-lock benchmark can always go on, and exactly when it can finish: from every
 reachable state some continuation ends with the closing access over, if the budget
 is positive or there is nothing to do; otherwise no run ever does.
 */
module BenchCompletion {
  import opened Numbers
  import opened SoftLock
  import opened SoftLockInvariant
  import opened Interleavings
  import opened SoftLockBench
  import opened Termination
  import C = ConsumerTermination

  // ---- never stuck ----

  lemma CallCanStep(b: Bench, i: nat)
    requires BenchInv(b) && i < |b.x.calls| && !Idle(b.x.calls[i])
    ensures BenchCan(b, Advance(i))
  {
    NeverUnreachable(b);
    NeverBlocked(b.x, i);
  }

  /** Until the closing access is over, something can happen. */
  lemma NeverStuck(b: Bench) returns (a: BenchAction)
    requires BenchInv(b) && !b.main.Over?
    ensures BenchCan(b, a)
  {
    var i := match b.main case Joining(k) => k + 1 case JoiningConsumer => 0 case _ => b.sc.producers + 1;
    if i < |b.x.calls| && !Idle(b.x.calls[i]) {
      CallCanStep(b, i);
      a := Advance(i);
    } else if b.main.Joining? && b.main.k < b.sc.producers && b.left[b.main.k] > 0 {
      a := NextSubmission(b.main.k);
    } else if b.main.JoiningConsumer? && b.x.calls[0].result {
      a := NextAccess;
    } else {
      a := MainStep;
    }
  }

  // ---- finishing ----

  ghost predicate CanFinish(b: Bench)
    requires Shaped(b)
  {
    exists run :: BenchLegal(b, run) && BenchAfter(b, run).main.Over?
  }

  lemma SingleLegal(b: Bench, a: BenchAction)
    requires Shaped(b) && BenchCan(b, a)
    ensures BenchLegal(b, [a]) && BenchAfter(b, [a]) == BenchDo(b, a)
  {
    assert [a][..0] == [];
    assert BenchLegal(b, []) && BenchAfter(b, []) == b;
  }

  lemma {:induction false} Prepend(b: Bench, a: BenchAction, run: seq<BenchAction>)
    requires Shaped(b) && BenchCan(b, a) && BenchLegal(BenchDo(b, a), run)
    ensures BenchLegal(b, [a] + run) && BenchAfter(b, [a] + run) == BenchAfter(BenchDo(b, a), run)
    decreases |run|
  {
    if run == [] {
      SingleLegal(b, a);
      assert [a] + run == [a];
    } else {
      var n := |run| - 1;
      Prepend(b, a, run[..n]);
      assert ([a] + run)[..|run|] == [a] + run[..n];
    }
  }

  lemma FinishAfter(b: Bench, a: BenchAction)
    requires Shaped(b) && BenchCan(b, a) && CanFinish(BenchDo(b, a))
    ensures CanFinish(b)
  {
    var run :| BenchLegal(BenchDo(b, a), run) && BenchAfter(BenchDo(b, a), run).main.Over?;
    Prepend(b, a, run);
  }

  lemma {:induction false} FinishAfterRun(b: Bench, before: seq<BenchAction>)
    requires Shaped(b) && BenchLegal(b, before) && CanFinish(BenchAfter(b, before))
    ensures CanFinish(b)
    decreases |before|
  {
    if before == [] {
    } else {
      var n := |before| - 1;
      FinishAfter(BenchAfter(b, before[..n]), before[n]);
      FinishAfterRun(b, before[..n]);
    }
  }

  // ---- what a sensible scheduler has left to do ----

  function Ranks(calls: seq<Call>, F: nat): nat {
    if calls == [] then 0 else Ranks(calls[..|calls| - 1], F) + Rank(calls[|calls| - 1], F)
  }

  function MayPendCount(calls: seq<Call>): nat {
    if calls == [] then 0 else MayPendCount(calls[..|calls| - 1]) + Bit(MayPend(calls[|calls| - 1].pc))
  }

  lemma {:induction false} RanksUpdate(calls: seq<Call>, i: nat, c: Call, F: nat)
    requires i < |calls|
    ensures Ranks(calls[i := c], F) == Ranks(calls, F) - Rank(calls[i], F) + Rank(c, F)
  {
    var n := |calls| - 1;
    if i == n {
      assert calls[i := c][..n] == calls[..n];
    } else {
      RanksUpdate(calls[..n], i, c, F);
      assert calls[i := c][..n] == calls[..n][i := c];
    }
  }

  lemma {:induction false} MayPendUpdate(calls: seq<Call>, i: nat, c: Call)
    requires i < |calls|
    ensures MayPendCount(calls[i := c]) == MayPendCount(calls) - Bit(MayPend(calls[i].pc)) + Bit(MayPend(c.pc))
  {
    var n := |calls| - 1;
    if i == n {
      assert calls[i := c][..n] == calls[..n];
    } else {
      MayPendUpdate(calls[..n], i, c);
      assert calls[i := c][..n] == calls[..n][i := c];
    }
  }

  /** Steps left of the calls in progress, if no other call begins; `F` bounds the pend-only completions. */
  function StepsLeft(x: System, F: nat): nat {
    ITEM * x.sh.pendingSubmit + Ranks(x.calls, F)
  }

  function Stage(b: Bench): nat {
    match b.main
    case Joining(k) => if k <= b.sc.producers then 3 + b.sc.producers - k else 3
    case JoiningConsumer => 2
    case Closing => 1
    case Over => 0
  }

  predicate PendsWithin(x: System, F: nat) {
    x.sh.completions + MayPendCount(x.calls) <= F
  }

  /** A call in progress whose next step gets it further: the holder's, if the lock is held. */
  lemma PickCall(b: Bench, i: nat) returns (j: nat)
    requires BenchInv(b) && i < |b.x.calls| && !Idle(b.x.calls[i])
    ensures j < |b.x.calls| && !Idle(b.x.calls[j]) && !Spins(b.x.sh, b.x.calls[j])
  {
    j := i;
    if b.x.sh.locked {
      LockedMeansHeld(b.x);
      j :| 0 <= j < |b.x.calls| && Holds(b.x.calls[j].pc);
    }
  }

  lemma StepGetsFurther(b: Bench, j: nat, F: nat)
    requires BenchInv(b) && BenchCan(b, Advance(j)) && !Spins(b.x.sh, b.x.calls[j]) && PendsWithin(b.x, F)
    ensures var b' := BenchDo(b, Advance(j)); StepsLeft(b'.x, F) < StepsLeft(b.x, F) && PendsWithin(b'.x, F)
  {
    var s, c := b.x.sh, b.x.calls[j];
    var c' := Step(s, c).1;
    assert CallOk(s, c);
    RanksUpdate(b.x.calls, j, c', F);
    MayPendUpdate(b.x.calls, j, c');
    CompletionsCounted(s, c);
    StepFalls(s, c, F);
  }

  /** Once the producers are joined, r accesses suffice. */
  ghost predicate Enough(b: Bench, r: nat)
    requires Shaped(b)
  {
    b.main.JoiningConsumer? ==> C.Quiet(b) && C.Suffices(b, r)
  }

  lemma JoinedQuiet(b: Bench)
    requires BenchInv(b) && !b.main.Joining?
    ensures C.Quiet(b)
  {
  }

  lemma AdvanceEnough(b: Bench, j: nat, r: nat)
    requires BenchInv(b) && BenchCan(b, Advance(j)) && Enough(b, r)
    ensures BenchInv(BenchDo(b, Advance(j))) && Enough(BenchDo(b, Advance(j)), r)
  {
    BenchActionKeepsInv(b, Advance(j));
    if b.main.JoiningConsumer? {
      C.ActionSuffices(b, Advance(j), r, r);
    }
  }

  predicate Feasible(sc: Scenario) {
    sc.budget > 0 || TotalOps(sc) == 0
  }

  lemma SomeAccessesSuffice(b: Bench) returns (r: nat)
    requires BenchInv(b) && C.Quiet(b) && Feasible(b.sc)
    ensures C.Suffices(b, r)
  {
    C.OutstandingIsNat(b);
    r := 1;
    if b.sc.budget > 0 {
      r := Max(1, CeilDiv(C.Outstanding(b), b.sc.budget));
      CeilDivCovers(C.Outstanding(b), b.sc.budget);
      ProductMonotone(CeilDiv(C.Outstanding(b), b.sc.budget), r, b.sc.budget);
    }
  }

  // ---- all calls idle ----

  lemma IdleCanMain(b: Bench)
    requires BenchInv(b) && AllIdle(b.x.calls) && !b.main.Over? && (forall p :: 0 <= p < |b.left| ==> b.left[p] == 0)
    requires b.main.JoiningConsumer? ==> !b.x.calls[0].result
    ensures BenchCan(b, MainStep) && Stage(BenchDo(b, MainStep)) < Stage(b)
  {
    assert Idle(b.x.calls[0]) && Idle(b.x.calls[b.sc.producers + 1]);
    if b.main.Joining? && b.main.k < b.sc.producers {
      assert Idle(b.x.calls[b.main.k + 1]);
    }
  }

  /** A submission, a stage of the main thread, or an access less. */
  predicate Nearer(b: Bench, b': Bench, r: nat, r': nat) {
    || Left(b'.left) < Left(b.left)
    || (Left(b'.left) == Left(b.left) && Stage(b') < Stage(b))
    || (Left(b'.left) == Left(b.left) && Stage(b') == Stage(b) && r' < r)
  }

  lemma SubmissionNearer(b: Bench, p: nat, r: nat)
    requires BenchInv(b) && Enough(b, r) && p < |b.left| && b.left[p] > 0 && Idle(b.x.calls[p + 1])
    ensures var a := NextSubmission(p);
            BenchCan(b, a) && BenchInv(BenchDo(b, a)) && Enough(BenchDo(b, a), r) && Nearer(b, BenchDo(b, a), r, r)
  {
    TotalUpdate(b.left, p, b.left[p] - 1);
    BenchActionKeepsInv(b, NextSubmission(p));
    if b.main.JoiningConsumer? {
      C.ProducersRest(b, p);
    }
  }

  lemma AccessNearer(b: Bench, r: nat)
    requires BenchInv(b) && Enough(b, r) && b.main.JoiningConsumer? && BenchCan(b, NextAccess)
    ensures var b' := BenchDo(b, NextAccess);
            BenchInv(b') && r >= 1 && Enough(b', r - 1) && Nearer(b, b', r, r - 1)
  {
    BenchActionKeepsInv(b, NextAccess);
    C.AccessSuffices(b, r);
    C.QuietStays(b, NextAccess);
  }

  lemma MainNearer(b: Bench, r: nat) returns (r': nat)
    requires BenchInv(b) && Feasible(b.sc) && AllIdle(b.x.calls) && !b.main.Over?
    requires forall p :: 0 <= p < |b.left| ==> b.left[p] == 0
    requires b.main.JoiningConsumer? ==> !b.x.calls[0].result
    ensures BenchCan(b, MainStep)
    ensures var b' := BenchDo(b, MainStep); BenchInv(b') && Enough(b', r') && Nearer(b, b', r, r')
  {
    r' := r;
    IdleCanMain(b);
    BenchActionKeepsInv(b, MainStep);
    var b' := BenchDo(b, MainStep);
    if b'.main.JoiningConsumer? {
      JoinedQuiet(b');
      r' := SomeAccessesSuffice(b');
    }
  }

  /** The next call, or the main thread's next step, once nothing is in progress. */
  lemma NextBeginning(b: Bench, r: nat) returns (a: BenchAction, r': nat)
    requires BenchInv(b) && Enough(b, r) && Feasible(b.sc) && AllIdle(b.x.calls) && !b.main.Over?
    ensures BenchCan(b, a)
    ensures var b' := BenchDo(b, a); BenchInv(b') && Enough(b', r') && Nearer(b, b', r, r')
  {
    assert Idle(b.x.calls[0]);
    if p :| 0 <= p < |b.left| && b.left[p] > 0 {
      assert Idle(b.x.calls[p + 1]);
      SubmissionNearer(b, p, r);
      a, r' := NextSubmission(p), r;
    } else if b.main.JoiningConsumer? && b.x.calls[0].result {
      AccessNearer(b, r);
      a, r' := NextAccess, r - 1;
    } else {
      a := MainStep;
      r' := MainNearer(b, r);
    }
  }

  // ---- the schedule ----

  lemma {:induction false} Finishes(b: Bench, r: nat, F: nat)
    requires BenchInv(b) && Enough(b, r) && Feasible(b.sc) && PendsWithin(b.x, F)
    ensures CanFinish(b)
    decreases Left(b.left), Stage(b), r, StepsLeft(b.x, F)
  {
    if b.main.Over? {
      assert BenchLegal(b, []) && BenchAfter(b, []) == b;
    } else if i :| 0 <= i < |b.x.calls| && !Idle(b.x.calls[i]) {
      var j := PickCall(b, i);
      CallCanStep(b, j);
      StepGetsFurther(b, j, F);
      AdvanceEnough(b, j, r);
      Finishes(BenchDo(b, Advance(j)), r, F);
      FinishAfter(b, Advance(j));
    } else {
      var a, r' := NextBeginning(b, r);
      var b' := BenchDo(b, a);
      Finishes(b', r', b'.x.sh.completions + MayPendCount(b'.x.calls));
      FinishAfter(b, a);
    }
  }

  lemma StateCanFinish(b: Bench)
    requires BenchInv(b) && Feasible(b.sc)
    ensures CanFinish(b)
  {
    var r := 0;
    if b.main.JoiningConsumer? {
      JoinedQuiet(b);
      r := SomeAccessesSuffice(b);
    }
    Finishes(b, r, b.x.sh.completions + MayPendCount(b.x.calls));
  }

  // ---- a consumer without a budget ----

  /** Nothing has been popped, and nothing will be. */
  ghost predicate PopsNothing(b: Bench)
    requires Shaped(b)
  {
    && b.x.sh.popped == []
    && forall i :: 0 <= i < |b.x.calls| ==> (b.x.calls[i].pc.Pop? ==> b.x.calls[i].pc.k == 0)
  }

  lemma StepPopsNothing(s: Shared, c: Call)
    requires s.popped == [] && Budget(c.op) == 0 && (c.pc.Pop? ==> c.pc.k == 0)
    ensures var (s', c') := Step(s, c); s'.popped == [] && (c'.pc.Pop? ==> c'.pc.k == 0 || c.pc.CountPopped?)
  {
    if InPop(c.pc) {
    } else if MovesIds(c.pc) {
    } else {
      OthersLeaveQueue(s, c);
      PopsOnlyInPop(s, c);
    }
  }

  lemma PopsOnlyInPop(s: Shared, c: Call)
    requires !InPop(c.pc)
    ensures !Step(s, c).1.pc.Pop?
  {
    if InSubmit(c.pc) {
    } else if InPend(c.pc) {
    } else if InDrain(c.pc) {
    } else if InCheck(c.pc) {
    } else if InLock(c.pc) {
    }
  }

  /** A popped id not counted yet has been popped. */
  lemma NothingPopping(b: Bench, i: nat)
    requires BenchInv(b) && b.x.sh.popped == [] && i < |b.x.calls|
    ensures !b.x.calls[i].pc.CountPopped?
  {
    WeightAt(b.x.calls, i);
    SumJoins(Weights(b.x.calls), i);
  }

  lemma ActionPopsNothing(b: Bench, a: BenchAction)
    requires BenchInv(b) && b.sc.budget == 0 && PopsNothing(b) && BenchCan(b, a)
    ensures PopsNothing(BenchDo(b, a))
  {
    if a.Advance? {
      NothingPopping(b, a.i);
      assert b.x.calls[a.i].op == RoleOp(b.sc, a.i);
      StepPopsNothing(b.x.sh, b.x.calls[a.i]);
    }
  }

  lemma {:induction false} RunPopsNothing(b: Bench, run: seq<BenchAction>)
    requires IsBenchStart(b) && b.sc.budget == 0 && BenchLegal(b, run)
    ensures PopsNothing(BenchAfter(b, run))
    decreases |run|
  {
    if run == [] {
      assert forall i :: 0 <= i < |b.x.calls| ==> Idle(b.x.calls[i]);
    } else {
      var n := |run| - 1;
      RunPopsNothing(b, run[..n]);
      BenchRunInv(b, run[..n]);
      ActionPopsNothing(BenchAfter(b, run[..n]), run[n]);
    }
  }

  // ---- results ----

  /** From every reachable state the benchmark can still finish, if the budget is positive or nothing is to be done;
      with a budget of zero and something to be done no run ever finishes. */
  lemma FinishExactly(start: Bench, run: seq<BenchAction>)
    requires IsBenchStart(start) && BenchLegal(start, run)
    ensures CanFinish(BenchAfter(start, run)) <==> start.sc.budget > 0 || TotalOps(start.sc) == 0
  {
    var b := BenchAfter(start, run);
    BenchRunInv(start, run);
    if Feasible(start.sc) {
      StateCanFinish(b);
    } else if CanFinish(b) {
      FinishAfterRun(start, run);
      NeverFinishes(start);
    }
  }

  lemma NeverFinishes(start: Bench)
    requires IsBenchStart(start) && start.sc.budget == 0 && TotalOps(start.sc) > 0
    ensures !CanFinish(start)
  {
    forall run | BenchLegal(start, run) ensures !BenchAfter(start, run).main.Over? {
      RunPopsNothing(start, run);
      if BenchAfter(start, run).main.Over? {
        BenchCorrect(start, run);
      }
    }
  }

  /** And until it has, something can happen. */
  lemma RunGoesOn(start: Bench, run: seq<BenchAction>) returns (a: BenchAction)
    requires IsBenchStart(start) && BenchLegal(start, run) && !BenchAfter(start, run).main.Over?
    ensures BenchCan(BenchAfter(start, run), a)
  {
    BenchRunInv(start, run);
    a := NeverStuck(BenchAfter(start, run));
  }
}
