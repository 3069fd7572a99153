/** Once the producers have finished, the consumer's loop ends, and how soon. */
module ConsumerTermination {
  import opened Numbers
  import opened SoftLock
  import opened SoftLockInvariant
  import opened Interleavings
  import opened SoftLockBench
  import opened Termination

  /** Every producer has finished. */
  ghost predicate Quiet(b: Bench)
    requires Shaped(b)
  {
    forall p :: 0 <= p < b.sc.producers ==> ProducerFinished(b, p)
  }

  /** Submissions not yet popped. */
  function Outstanding(b: Bench): int {
    TotalOps(b.sc) - |b.x.sh.popped|
  }

  /** The access has not popped anything yet, and will take over everything pending. */
  predicate Early(pc: Pc) {
    pc.Enter? || (InDrain(pc) && pc.caller.Closure?) || pc.LockToPop?
  }

  /** An access begun after the producers finished: what it still pops, r further accesses can complete. */
  predicate FreshAccess(b: Bench, r: nat)
    requires Shaped(b)
  {
    var s, pc := b.x.sh, b.x.calls[0].pc;
    && (Early(pc) || pc.Pop? || pc.CountPopped? || pc.UnlockPop? || pc.LoadProcessed?)
    && (Early(pc) ==> Outstanding(b) <= r * b.sc.budget + b.sc.budget)
    && (pc.Pop? || pc.CountPopped? ==> Outstanding(b) <= r * b.sc.budget + pc.k)
    && (pc.UnlockPop? || pc.LoadProcessed? ==> Outstanding(b) <= r * b.sc.budget)
    && (!pc.Enter? && !pc.SwapCount? ==> s.pendingSubmit == 0)
  }

  /** The consumer needs at most r further accesses. */
  ghost predicate Suffices(b: Bench, r: nat)
    requires Shaped(b)
  {
    || !b.x.calls[0].result
    || (r >= 1 && Outstanding(b) <= r * b.sc.budget)
    || FreshAccess(b, r)
  }

  lemma QuietIdle(b: Bench)
    requires BenchInv(b) && Quiet(b) && !b.main.Closing?
    ensures IdleBut(b.x.calls, 0) && Left(b.left) == 0
  {
    forall i | 0 <= i < |b.x.calls| && i != 0 ensures Idle(b.x.calls[i]) {
      if i <= b.sc.producers {
        assert ProducerFinished(b, i - 1);
      }
    }
    forall p | 0 <= p < |b.left| ensures b.left[p] == 0 {
      assert ProducerFinished(b, p);
    }
    NothingLeft(b.left);
  }

  /** With the producers finished, nothing pending and nothing queued, everything was popped. */
  lemma EmptyMeansAllPopped(b: Bench)
    requires BenchInv(b) && IdleBut(b.x.calls, 0) && Left(b.left) == 0
    requires b.x.calls[0].pc.Pop? && b.x.sh.pendingSubmit == 0 && b.x.sh.queue == []
    ensures Outstanding(b) == 0
  {
    IdleHoldNothing(b.x.calls, 0);
    IdleDeferNothing(b.x.calls, 0);
    WeightAt(b.x.calls, 0);
    SumJoins(Weights(b.x.calls), 0);
  }

  lemma ProcessedIsPopped(b: Bench)
    requires BenchInv(b) && IdleBut(b.x.calls, 0) && b.x.calls[0].pc.LoadProcessed?
    ensures b.x.sh.processed == |b.x.sh.popped|
  {
    IdleHoldNothing(b.x.calls, 0);
    WeightAt(b.x.calls, 0);
    SumJoins(Weights(b.x.calls), 0);
  }

  /** A call's steps never put an id back. */
  lemma StepPops(s: Shared, c: Call)
    ensures |Step(s, c).0.popped| >= |s.popped|
  {
    if !c.pc.Pop? {
      if MovesIds(c.pc) {
      } else {
        OthersLeaveQueue(s, c);
      }
    }
  }

  /** The consumer's steps in a fresh access, one part of the closure at a time. */
  lemma EarlyStep(b: Bench, r: nat)
    requires BenchInv(b) && IdleBut(b.x.calls, 0) && Can(b.x, Move(0))
    requires FreshAccess(b, r) && Early(b.x.calls[0].pc)
    ensures FreshAccess(BenchDo(b, Advance(0)), r)
  {
    assert b.x.calls[0].op == RoleOp(b.sc, 0);
    if InDrain(b.x.calls[0].pc) {
      DrainingStep(b, r);
    } else {
      AloneLockIsOwn(b.x, 0);
      assert b.x.calls[0].pc.LockToPop? ==> InPop(b.x.calls[0].pc);
    }
  }

  lemma DrainingStep(b: Bench, r: nat)
    requires Shaped(b) && Can(b.x, Move(0)) && FreshAccess(b, r)
    requires InDrain(b.x.calls[0].pc) && b.x.calls[0].pc.caller.Closure?
    ensures FreshAccess(BenchDo(b, Advance(0)), r)
  {
  }

  lemma PopStepFits(b: Bench, r: nat)
    requires BenchInv(b) && IdleBut(b.x.calls, 0) && Left(b.left) == 0 && Can(b.x, Move(0))
    requires FreshAccess(b, r) && b.x.calls[0].pc.Pop?
    ensures FreshAccess(BenchDo(b, Advance(0)), r)
  {
    assert InPop(b.x.calls[0].pc);
    if b.x.sh.queue == [] {
      EmptyMeansAllPopped(b);
    }
  }

  lemma PoppedStepFits(b: Bench, r: nat)
    requires BenchInv(b) && Can(b.x, Move(0))
    requires FreshAccess(b, r) && (b.x.calls[0].pc.CountPopped? || b.x.calls[0].pc.UnlockPop?)
    ensures FreshAccess(BenchDo(b, Advance(0)), r)
  {
    assert InPop(b.x.calls[0].pc);
  }

  lemma DecidingStep(b: Bench, r: nat)
    requires BenchInv(b) && IdleBut(b.x.calls, 0) && Can(b.x, Move(0))
    requires FreshAccess(b, r) && b.x.calls[0].pc.LoadProcessed?
    ensures Suffices(BenchDo(b, Advance(0)), r)
  {
    ProcessedIsPopped(b);
    assert InCheck(b.x.calls[0].pc);
  }

  /** The consumer's loop only ever turns its result from true to false. */
  lemma ResultStays(s: Shared, c: Call)
    requires !c.result && !c.pc.LoadLen?
    ensures !Step(s, c).1.result
  {
    if InSubmit(c.pc) {
    } else if InPend(c.pc) {
    } else if InDrain(c.pc) {
    } else if InPop(c.pc) {
    } else if InCheck(c.pc) {
    } else if InLock(c.pc) {
    }
  }

  lemma ConsumerStepSuffices(b: Bench, r: nat)
    requires BenchInv(b) && Quiet(b) && !b.main.Closing? && Can(b.x, Move(0)) && Suffices(b, r)
    ensures Suffices(BenchDo(b, Advance(0)), r)
  {
    var s, c := b.x.sh, b.x.calls[0];
    QuietIdle(b);
    if !c.result {
      ResultStays(s, c);
    } else if r >= 1 && Outstanding(b) <= r * b.sc.budget {
      StepPops(s, c);
    } else if Early(c.pc) {
      EarlyStep(b, r);
    } else if c.pc.LoadProcessed? {
      DecidingStep(b, r);
    } else if c.pc.Pop? {
      PopStepFits(b, r);
    } else {
      PoppedStepFits(b, r);
    }
  }

  // ---- runs ----

  /** Whose action it is. */
  predicate IsConsumers(a: BenchAction) {
    a == Advance(0) || a.NextAccess?
  }

  function Accesses(run: seq<BenchAction>): nat {
    if run == [] then 0 else Accesses(run[..|run| - 1]) + Bit(run[|run| - 1].NextAccess?)
  }

  function ConsumerSteps(run: seq<BenchAction>): nat {
    if run == [] then 0 else ConsumerSteps(run[..|run| - 1]) + Bit(IsConsumers(run[|run| - 1]))
  }

  lemma QuietStays(b: Bench, a: BenchAction)
    requires BenchInv(b) && Quiet(b) && BenchCan(b, a)
    ensures Quiet(BenchDo(b, a))
  {
    var b' := BenchDo(b, a);
    forall p | 0 <= p < b'.sc.producers ensures ProducerFinished(b', p) {
      assert ProducerFinished(b, p);
    }
  }

  lemma ProducersRest(b: Bench, p: nat)
    requires Shaped(b) && Quiet(b) && p < b.sc.producers
    ensures Idle(b.x.calls[p + 1]) && b.left[p] == 0
  {
    assert ProducerFinished(b, p);
  }

  /** Only the consumer, and the closing access, can still step. */
  lemma QuietMoves(b: Bench, i: nat)
    requires BenchInv(b) && Quiet(b) && Can(b.x, Move(i)) && i != 0
    ensures b.main.Closing? && i == b.sc.producers + 1
  {
    if i <= b.sc.producers {
      ProducersRest(b, i - 1);
    }
  }

  /** The main thread and the closing access leave the consumer alone. */
  lemma OthersSuffice(b: Bench, a: BenchAction, r: nat)
    requires BenchInv(b) && Quiet(b) && BenchCan(b, a) && Suffices(b, r) && !IsConsumers(a)
    ensures Suffices(BenchDo(b, a), r)
  {
    match a {
      case Advance(i) => QuietMoves(b, i);
      case NextSubmission(p) => ProducersRest(b, p);
      case MainStep =>
    }
  }

  lemma AccessSuffices(b: Bench, r: nat)
    requires BenchInv(b) && BenchCan(b, NextAccess) && Suffices(b, r)
    ensures r >= 1 && Suffices(BenchDo(b, NextAccess), r - 1)
  {
    assert r >= 1;
    OneLess(r, b.sc.budget);
  }

  lemma ActionSuffices(b: Bench, a: BenchAction, r: nat, r': int)
    requires BenchInv(b) && Quiet(b) && BenchCan(b, a) && Suffices(b, r) && r' == r - Bit(a.NextAccess?)
    ensures BenchInv(BenchDo(b, a)) && Quiet(BenchDo(b, a))
    ensures r' >= 0 && Suffices(BenchDo(b, a), r')
  {
    BenchActionKeepsInv(b, a);
    QuietStays(b, a);
    if a.NextAccess? {
      AccessSuffices(b, r);
    } else if a == Advance(0) {
      ClosingConsumerRests(b);
      ConsumerStepSuffices(b, r);
    } else {
      OthersSuffice(b, a, r);
    }
  }

  lemma ClosingConsumerRests(b: Bench)
    requires BenchInv(b) && Can(b.x, Move(0))
    ensures !b.main.Closing? && !b.main.Over?
  {
  }

  lemma OutstandingIsNat(b: Bench)
    requires BenchInv(b)
    ensures Outstanding(b) >= 0
  {
    CountingBounds(b);
    WeightsSound(b.x.calls);
    SumSound(Weights(b.x.calls), -1);
  }

  // ---- every access ends ----

  /** What one access can cost. */
  function AccessCost(F: nat, budget: nat): nat {
    Rounds(F, 0) + 2 * budget + 25
  }

  /** Pays for r accesses and the one in progress. */
  ghost predicate Funded(b: Bench, r: nat, F: nat, funds: int)
    requires Shaped(b)
  {
    && r * AccessCost(F, b.sc.budget) >= 0
    && FundedBy(b.x.sh, b.x.calls[0], r * AccessCost(F, b.sc.budget), F, funds)
  }

  /** Pays for the access in progress, and keeps a reserve as long as there may be another. */
  predicate FundedBy(s: Shared, c: Call, reserve: nat, F: nat, funds: int) {
    && s.completions + Bit(InPend(c.pc)) <= F
    && (c.result ==> reserve + Potential(s, c, F) <= funds)
    && (!c.result ==> Potential(s, c, F) <= funds)
  }

  lemma StepFundedBy(s: Shared, c: Call, reserve: nat, F: nat, funds: int)
    requires CallOk(s, c) && (s.locked ==> Holds(c.pc)) && !Finished(c.pc) && FundedBy(s, c, reserve, F, funds)
    requires c.pc.LoadLen? ==> c.result
    ensures var (s', c') := Step(s, c); FundedBy(s', c', reserve, F, funds - 1)
  {
    AloneStepFunded(s, c, F);
    if !c.result {
      ResultStays(s, c);
    }
  }

  lemma ConsumerAlone(b: Bench)
    requires BenchInv(b) && Quiet(b) && Can(b.x, Move(0))
    ensures b.x.sh.locked ==> Holds(b.x.calls[0].pc)
    ensures CallOk(b.x.sh, b.x.calls[0])
  {
    ClosingConsumerRests(b);
    QuietIdle(b);
    AloneLockIsOwn(b.x, 0);
  }

  lemma ConsumerStepFunded(b: Bench, r: nat, F: nat, funds: int)
    requires BenchInv(b) && Quiet(b) && Can(b.x, Move(0)) && Funded(b, r, F, funds)
    ensures Funded(BenchDo(b, Advance(0)), r, F, funds - 1)
  {
    ConsumerAlone(b);
    AdvanceConsumer(b);
    StepFundedBy(b.x.sh, b.x.calls[0], r * AccessCost(F, b.sc.budget), F, funds);
  }

  lemma AdvanceConsumer(b: Bench)
    requires Shaped(b) && Can(b.x, Move(0))
    ensures var b' := BenchDo(b, Advance(0)); (b'.x.sh, b'.x.calls[0]) == Step(b.x.sh, b.x.calls[0])
  {
  }

  lemma AloneStepFunded(s: Shared, c: Call, F: nat)
    requires CallOk(s, c) && (s.locked ==> Holds(c.pc)) && !Finished(c.pc)
    requires s.completions + Bit(InPend(c.pc)) <= F
    ensures var (s', c') := Step(s, c);
            s'.completions + Bit(InPend(c'.pc)) <= F && Potential(s', c', F) <= Potential(s, c, F) - 1
  {
    StepFalls(s, c, F);
    AloneCompletions(s, c);
  }

  lemma AloneCompletions(s: Shared, c: Call)
    requires s.locked ==> Holds(c.pc)
    ensures var (s', c') := Step(s, c);
            s'.completions + Bit(InPend(c'.pc)) <= s.completions + Bit(InPend(c.pc))
  {
    if InLock(c.pc) {
    } else if InPend(c.pc) {
    } else if Holds(c.pc) {
      HolderUnobtrusive(s, c);
      HolderStaysHere(s, c);
    }
  }

  lemma HolderStaysHere(s: Shared, c: Call)
    requires Holds(c.pc) && !InLock(c.pc)
    ensures !InPend(Step(s, c).1.pc)
  {
    if InSubmit(c.pc) {
    } else if InDrain(c.pc) {
    } else if InPop(c.pc) {
    } else if InCheck(c.pc) {
    }
  }

  lemma AccessFunded(b: Bench, r: nat, F: nat, funds: int)
    requires BenchInv(b) && BenchCan(b, NextAccess) && Funded(b, r, F, funds) && r >= 1
    ensures Funded(BenchDo(b, NextAccess), r - 1, F, funds - 1)
  {
    assert r * AccessCost(F, b.sc.budget) == (r - 1) * AccessCost(F, b.sc.budget) + AccessCost(F, b.sc.budget);
  }

  lemma OthersFunded(b: Bench, a: BenchAction, r: nat, F: nat, funds: int)
    requires BenchInv(b) && Quiet(b) && BenchCan(b, a) && !IsConsumers(a) && !ConsumerFinished(b)
    requires Funded(b, r, F, funds)
    ensures Funded(BenchDo(b, a), r, F, funds)
  {
    match a {
      case Advance(i) => QuietMoves(b, i);
      case NextSubmission(p) => ProducersRest(b, p);
      case MainStep =>
    }
  }

  /** The consumer is done, or its remaining steps are paid for. */
  ghost predicate Solvent(b: Bench, r: nat, F: nat, funds: int)
    requires Shaped(b)
  {
    funds >= 0 && (ConsumerFinished(b) || Funded(b, r, F, funds))
  }

  lemma FinishedConsumerRests(b: Bench, a: BenchAction)
    requires BenchInv(b) && BenchCan(b, a) && ConsumerFinished(b)
    ensures !IsConsumers(a) && ConsumerFinished(BenchDo(b, a))
  {
  }

  lemma UnfinishedPays(b: Bench, a: BenchAction, r: nat, F: nat, funds: int, r': nat, funds': int)
    requires BenchInv(b) && Quiet(b) && BenchCan(b, a) && !ConsumerFinished(b)
    requires r' == r - Bit(a.NextAccess?) && funds' == funds - Bit(IsConsumers(a))
    requires Funded(b, r, F, funds)
    ensures Funded(BenchDo(b, a), r', F, funds')
  {
    if a.NextAccess? {
      AccessFunded(b, r, F, funds);
    } else if a == Advance(0) {
      ConsumerStepFunded(b, r, F, funds);
    } else {
      OthersFunded(b, a, r, F, funds);
    }
  }

  lemma FundedIsNat(b: Bench, r: nat, F: nat, funds: int)
    requires Shaped(b) && Funded(b, r, F, funds)
    ensures funds >= 0
  {
    assert r * AccessCost(F, b.sc.budget) >= 0;
  }

  lemma ActionSolvent(b: Bench, a: BenchAction, r: nat, F: nat, funds: int, r': nat, funds': int)
    requires BenchInv(b) && Quiet(b) && BenchCan(b, a) && Solvent(b, r, F, funds)
    requires r' == r - Bit(a.NextAccess?) && funds' == funds - Bit(IsConsumers(a))
    ensures Solvent(BenchDo(b, a), r', F, funds')
  {
    if ConsumerFinished(b) {
      FinishedConsumerRests(b, a);
    } else {
      UnfinishedPays(b, a, r, F, funds, r', funds');
      FundedIsNat(BenchDo(b, a), r', F, funds');
    }
  }

  /** Nothing but the consumer is left, and r further accesses suffice and are paid for. */
  ghost predicate Audited(b: Bench, r: int, F: nat, funds: int)
    requires Shaped(b)
  {
    BenchInv(b) && Quiet(b) && r >= 0 && Suffices(b, r) && Solvent(b, r, F, funds)
  }

  /** One action, with the accesses and the consumer's steps still allowed before and after it. */
  predicate Takes(b: Bench, a: BenchAction, b': Bench, r: int, funds: int, r': int, funds': int) {
    && Shaped(b) && BenchCan(b, a) && b' == BenchDo(b, a)
    && r' == r - Bit(a.NextAccess?) && funds' == funds - Bit(IsConsumers(a))
  }

  lemma ActionAudited(b: Bench, a: BenchAction, b': Bench, r: int, F: nat, funds: int, r': int, funds': int)
    requires Takes(b, a, b', r, funds, r', funds') && Audited(b, r, F, funds)
    ensures Shaped(b') && Audited(b', r', F, funds')
  {
    ActionSuffices(b, a, r, r');
    ActionSolvent(b, a, r, F, funds, r', funds');
  }

  ghost predicate AuditedBench(b: Bench, r: int, F: nat, funds: int) {
    Shaped(b) && Audited(b, r, F, funds)
  }

  /** The last action of a run. */
  lemma RunSplits(b: Bench, run: seq<BenchAction>, r: int, funds: int)
    requires Shaped(b) && BenchLegal(b, run) && run != []
    ensures var front := run[..|run| - 1];
            && BenchLegal(b, front)
            && Takes(BenchAfter(b, front), run[|run| - 1], BenchAfter(b, run), r - Accesses(front),
                     funds - ConsumerSteps(front), r - Accesses(run), funds - ConsumerSteps(run))
  {
  }

  lemma BenchAudited(b: Bench, a: BenchAction, b': Bench, r: int, F: nat, funds: int, r': int, funds': int)
    requires Takes(b, a, b', r, funds, r', funds') && AuditedBench(b, r, F, funds)
    ensures AuditedBench(b', r', F, funds')
  {
    ActionAudited(b, a, b', r, F, funds, r', funds');
  }

  lemma {:induction false} StepsWithin(b: Bench, run: seq<BenchAction>, r: int, F: nat, funds: int,
                                       e: Bench, r': int, funds': int)
    requires AuditedBench(b, r, F, funds) && BenchLegal(b, run)
    requires e == BenchAfter(b, run) && r' == r - Accesses(run) && funds' == funds - ConsumerSteps(run)
    ensures AuditedBench(e, r', F, funds')
    decreases |run|
  {
    if run == [] {
      assert e == b && r' == r && funds' == funds;
    } else {
      var front := run[..|run| - 1];
      RunSplits(b, run, r, funds);
      var x, k, m := BenchAfter(b, front), r - Accesses(front), funds - ConsumerSteps(front);
      StepsWithin(b, front, r, F, funds, x, k, m);
      BenchAudited(x, run[|run| - 1], e, k, F, m, r', funds');
    }
  }

  /** A quiet reachable state is audited for as many accesses as cover what is outstanding. */
  lemma QuietAudited(b: Bench, r: nat) returns (funds: nat)
    requires BenchInv(b) && Quiet(b) && r >= 1 && Outstanding(b) <= r * b.sc.budget
    ensures var F := b.x.sh.completions + 1;
            && funds == r * AccessCost(F, b.sc.budget) + Potential(b.x.sh, b.x.calls[0], F)
            && Audited(b, r, F, funds)
  {
    var F := b.x.sh.completions + 1;
    assert r * AccessCost(F, b.sc.budget) >= 0;
    funds := r * AccessCost(F, b.sc.budget) + Potential(b.x.sh, b.x.calls[0], F);
  }

  /** Consumer termination: from any reachable state in which the producers have finished, with a positive
      budget, the consumer begins at most ceil(outstanding / budget) further accesses (one, if nothing is
      outstanding), whatever access is already in progress. */
  lemma AccessesBounded(start: Bench, before: seq<BenchAction>, run: seq<BenchAction>)
    requires IsBenchStart(start) && BenchLegal(start, before)
    requires var b := BenchAfter(start, before); Quiet(b) && b.sc.budget > 0 && BenchLegal(b, run)
    ensures var b := BenchAfter(start, before);
            Outstanding(b) >= 0 && Accesses(run) <= Max(1, CeilDiv(Outstanding(b), b.sc.budget))
  {
    BenchRunInv(start, before);
    var b := BenchAfter(start, before);
    OutstandingIsNat(b);
    var r := Max(1, CeilDiv(Outstanding(b), b.sc.budget));
    CeilDivCovers(Outstanding(b), b.sc.budget);
    ProductMonotone(CeilDiv(Outstanding(b), b.sc.budget), r, b.sc.budget);
    var funds := QuietAudited(b, r);
    StepsWithin(b, run, r, b.x.sh.completions + 1, funds,
                BenchAfter(b, run), r - Accesses(run), funds - ConsumerSteps(run));
  }

  /** The consumer's steps from such a state are bounded as a whole: every access ends, and so does the loop. */
  lemma ConsumerStepsBounded(start: Bench, before: seq<BenchAction>, run: seq<BenchAction>, r: nat)
    requires IsBenchStart(start) && BenchLegal(start, before)
    requires var b := BenchAfter(start, before);
             Quiet(b) && BenchLegal(b, run) && r >= 1 && Outstanding(b) <= r * b.sc.budget
    ensures var b := BenchAfter(start, before);
            var F := b.x.sh.completions + 1;
            ConsumerSteps(run) <= r * AccessCost(F, b.sc.budget) + Potential(b.x.sh, b.x.calls[0], F)
  {
    BenchRunInv(start, before);
    var b := BenchAfter(start, before);
    var funds := QuietAudited(b, r);
    StepsWithin(b, run, r, b.x.sh.completions + 1, funds,
                BenchAfter(b, run), r - Accesses(run), funds - ConsumerSteps(run));
  }

  /** And it is never stuck: until it has finished it can take a step or begin an access. */
  lemma ConsumerNeverStuck(start: Bench, before: seq<BenchAction>)
    requires IsBenchStart(start) && BenchLegal(start, before)
    requires !ConsumerFinished(BenchAfter(start, before))
    ensures var b := BenchAfter(start, before); BenchCan(b, Advance(0)) || BenchCan(b, NextAccess)
  {
    BenchRunInv(start, before);
    var b := BenchAfter(start, before);
    NeverBlocked(b.x, 0);
    assert CallOk(b.x.sh, b.x.calls[0]);
  }
}
