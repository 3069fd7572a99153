/** The baseline can always go on, and finishes under the same condition as the soft-lock benchmark. */
module MutexCompletion {
  import opened Numbers
  import opened MutexBench
  import opened SoftLockInvariant
  import SoftLockBench

  // ---- never stuck ----

  /** The thread that holds the mutex, or any thread in progress if none does, can step. */
  lemma PickThread(b: Bench, i: nat) returns (j: nat)
    requires MutexBench.Inv(b) && i < |b.threads| && !Rests(b.threads[i])
    ensures Can(b, Advance(j))
  {
    j := i;
    if b.sh.held {
      var ws := MutexBench.Weights(b.threads);
      MutexBench.WeightsSound(b.threads);
      SumSound(ws, -1);
      j :| 0 <= j < |ws| && ws[j].holds != 0;
    }
  }

  lemma NeverStuck(b: Bench) returns (a: Action)
    requires MutexBench.Inv(b) && !b.main.Over?
    ensures Can(b, a)
  {
    var i := if b.main.Joining? then b.main.k + 1 else 0;
    if i < |b.threads| && !Rests(b.threads[i]) {
      var j := PickThread(b, i);
      a := Advance(j);
    } else if b.main.Joining? && b.main.k < b.sc.producers && b.left[b.main.k] > 0 {
      a := NextSubmission(b.main.k);
    } else if b.main.JoiningConsumer? && b.threads[0].again {
      a := NextTurn;
    } else {
      a := MainStep;
    }
  }

  // ---- finishing ----

  ghost predicate CanFinish(b: Bench)
    requires Shaped(b)
  {
    exists run :: Legal(b, run) && After(b, run).main.Over?
  }

  lemma SingleLegal(b: Bench, a: Action)
    requires Shaped(b) && Can(b, a)
    ensures Legal(b, [a]) && After(b, [a]) == Do(b, a)
  {
    assert [a][..0] == [];
    assert Legal(b, []) && After(b, []) == b;
  }

  lemma {:induction false} Prepend(b: Bench, a: Action, run: seq<Action>)
    requires Shaped(b) && Can(b, a) && Legal(Do(b, a), run)
    ensures Legal(b, [a] + run) && After(b, [a] + run) == After(Do(b, a), run)
    decreases |run|
  {
    if run == [] {
      SingleLegal(b, a);
      assert [a] + run == [a];
    } else {
      var n := |run| - 1;
      Prepend(b, a, run[..n]);
      assert ([a] + run)[..|run|] == [a] + run[..n];
    }
  }

  lemma FinishAfter(b: Bench, a: Action)
    requires Shaped(b) && Can(b, a) && CanFinish(Do(b, a))
    ensures CanFinish(b)
  {
    var run :| Legal(Do(b, a), run) && After(Do(b, a), run).main.Over?;
    Prepend(b, a, run);
  }

  lemma {:induction false} FinishAfterRun(b: Bench, before: seq<Action>)
    requires Shaped(b) && Legal(b, before) && CanFinish(After(b, before))
    ensures CanFinish(b)
    decreases |before|
  {
    if before == [] {
    } else {
      var n := |before| - 1;
      FinishAfter(After(b, before[..n]), before[n]);
      FinishAfterRun(b, before[..n]);
    }
  }

  // ---- what is left to do ----

  /** Steps left of a thread's turn. */
  function TurnRank(sc: Scenario, t: Thread): nat {
    match t.pc
    case Resting => 0
    case CountLock => 5
    case Lock => 4
    case Draw => 3
    case Push(_) => 2
    case Unlock => 1
    case CountTurn => 6 + 2 * sc.budget
    case LockTurn => 5 + 2 * sc.budget
    case Pop(k) => 4 + 2 * k
    case CountPopped(k) => 5 + 2 * k
    case LoadProcessed => 3
    case LoadDone => 2
    case EndTurn(_) => 1
  }

  function TurnRanks(sc: Scenario, threads: seq<Thread>): nat {
    if threads == [] then 0
    else TurnRanks(sc, threads[..|threads| - 1]) + TurnRank(sc, threads[|threads| - 1])
  }

  lemma {:induction false} RanksUpdate(sc: Scenario, threads: seq<Thread>, i: nat, t: Thread)
    requires i < |threads|
    ensures TurnRanks(sc, threads[i := t]) == TurnRanks(sc, threads) - TurnRank(sc, threads[i]) + TurnRank(sc, t)
  {
    var n := |threads| - 1;
    if i == n {
      assert threads[i := t][..n] == threads[..n];
    } else {
      RanksUpdate(sc, threads[..n], i, t);
      assert threads[i := t][..n] == threads[..n][i := t];
    }
  }

  lemma StepGetsFurther(b: Bench, j: nat)
    requires MutexBench.Inv(b) && Can(b, Advance(j))
    ensures TurnRanks(b.sc, Do(b, Advance(j)).threads) < TurnRanks(b.sc, b.threads)
  {
    var t := b.threads[j];
    var t' := Step(b.sc, b.sh, t).1;
    RanksUpdate(b.sc, b.threads, j, t');
    assert TurnRank(b.sc, t') < TurnRank(b.sc, t);
  }

  function Stage(b: Bench): nat {
    match b.main
    case Joining(k) => if k <= b.sc.producers then 2 + b.sc.producers - k else 2
    case JoiningConsumer => 1
    case Over => 0
  }

  function Outstanding(b: Bench): int {
    TotalOps(b.sc) - |b.sh.popped|
  }

  /** The consumer's turn, and what r further turns can complete of what it leaves. */
  predicate TurnSuffices(b: Bench, r: nat)
    requires Shaped(b)
  {
    var t, budget := b.threads[0], b.sc.budget;
    match t.pc
    case CountTurn => Outstanding(b) <= r * budget + budget
    case LockTurn => Outstanding(b) <= r * budget + budget
    case Pop(k) => Outstanding(b) <= r * budget + k
    case CountPopped(k) => Outstanding(b) <= r * budget + k
    case LoadProcessed => Outstanding(b) <= r * budget
    case Resting => !t.again || (r >= 1 && Outstanding(b) <= r * budget)
    case EndTurn(again) => !again || (r >= 1 && Outstanding(b) <= r * budget)
    case _ => r >= 1 && Outstanding(b) <= r * budget
  }

  /** Once the producers are joined, r further turns suffice. */
  ghost predicate Enough(b: Bench, r: nat)
    requires Shaped(b)
  {
    b.main.JoiningConsumer? ==>
      r * b.sc.budget >= 0 && (TurnSuffices(b, r) || (r >= 1 && Outstanding(b) <= r * b.sc.budget))
  }

  /** With the producers joined and the queue empty, a consumer about to pop has popped everything. */
  lemma EmptyMeansAllPopped(b: Bench)
    requires MutexBench.Inv(b) && b.main.JoiningConsumer?
    ensures b.sh.queue == [] && b.threads[0].pc.Pop? ==> Outstanding(b) == 0
    ensures b.threads[0].pc.LoadProcessed? ==> b.sh.processed == |b.sh.popped|
    ensures Outstanding(b) >= 0
  {
    MutexBench.ProducersRest(b);
    RestingWeighNothing(b.threads, 0);
    MutexBench.WeightAt(b.threads, 0);
    SumJoins(MutexBench.Weights(b.threads), 0);
  }

  lemma AdvanceEnough(b: Bench, j: nat, r: nat)
    requires MutexBench.Inv(b) && Can(b, Advance(j)) && Enough(b, r)
    ensures Enough(Do(b, Advance(j)), r)
  {
    if b.main.JoiningConsumer? {
      MutexBench.ProducersRest(b);
      assert j == 0;
      EmptyMeansAllPopped(b);
      ConsumerStepEnough(b, r);
    }
  }

  lemma ConsumerStepEnough(b: Bench, r: nat)
    requires MutexBench.Inv(b) && Can(b, Advance(0)) && Enough(b, r) && b.main.JoiningConsumer?
    requires b.sh.queue == [] && b.threads[0].pc.Pop? ==> Outstanding(b) == 0
    requires b.threads[0].pc.LoadProcessed? ==> b.sh.processed == |b.sh.popped|
    ensures Enough(Do(b, Advance(0)), r)
  {
    assert RoleOk(0, b.threads[0]);
  }

  predicate Feasible(sc: Scenario) {
    sc.budget > 0 || TotalOps(sc) == 0
  }

  lemma SomeTurnsSuffice(b: Bench) returns (r: nat)
    requires MutexBench.Inv(b) && Feasible(b.sc)
    ensures Enough(b, r)
  {
    r := 1 + TotalOps(b.sc);
    assert r * b.sc.budget >= 0;
    if b.sc.budget > 0 {
      assert r * b.sc.budget == (b.sc.budget - 1) * r + r;
      assert (b.sc.budget - 1) * r >= 0;
    }
  }

  lemma TurnEnough(b: Bench, r: nat)
    requires MutexBench.Inv(b) && Enough(b, r) && b.main.JoiningConsumer? && Can(b, NextTurn)
    ensures r >= 1 && Enough(Do(b, NextTurn), r - 1)
  {
    assert r >= 1;
    OneLess(r, b.sc.budget);
  }

  /** A submission, a stage of the main thread, or a turn less. */
  predicate Nearer(b: Bench, b': Bench, r: nat, r': nat) {
    var n, n' := SoftLockBench.Left(b.left), SoftLockBench.Left(b'.left);
    n' < n || (n' == n && Stage(b') < Stage(b)) || (n' == n && Stage(b') == Stage(b) && r' < r)
  }

  lemma NothingLeft(b: Bench, p: nat)
    requires MutexBench.Inv(b) && b.main.JoiningConsumer? && p < |b.left|
    ensures b.left[p] == 0
  {
    assert ProducerFinished(b, p);
  }

  /** The next turn, or the main thread's next step, once every thread rests. */
  lemma NextBeginning(b: Bench, r: nat) returns (a: Action, r': nat)
    requires MutexBench.Inv(b) && Enough(b, r) && Feasible(b.sc) && !b.main.Over?
    requires forall i :: 0 <= i < |b.threads| ==> Rests(b.threads[i])
    ensures Can(b, a)
    ensures var b' := Do(b, a); MutexBench.Inv(b') && Enough(b', r') && Nearer(b, b', r, r')
  {
    r' := r;
    if p :| 0 <= p < |b.left| && b.left[p] > 0 {
      a := NextSubmission(p);
      SoftLockBench.TotalUpdate(b.left, p, b.left[p] - 1);
      MutexBench.ActionKeepsInv(b, a);
      if b.main.JoiningConsumer? {
        NothingLeft(b, p);
      }
    } else if b.main.JoiningConsumer? && b.threads[0].again {
      a := NextTurn;
      MutexBench.ActionKeepsInv(b, a);
      TurnEnough(b, r);
      r' := r - 1;
    } else {
      a := MainStep;
      MutexBench.ActionKeepsInv(b, a);
      r' := SomeTurnsSuffice(Do(b, a));
    }
  }

  lemma {:induction false} Finishes(b: Bench, r: nat)
    requires MutexBench.Inv(b) && Enough(b, r) && Feasible(b.sc)
    ensures CanFinish(b)
    decreases SoftLockBench.Left(b.left), Stage(b), r, TurnRanks(b.sc, b.threads)
  {
    if b.main.Over? {
      assert Legal(b, []) && After(b, []) == b;
    } else if i :| 0 <= i < |b.threads| && !Rests(b.threads[i]) {
      var j := PickThread(b, i);
      StepGetsFurther(b, j);
      AdvanceEnough(b, j, r);
      MutexBench.ActionKeepsInv(b, Advance(j));
      Finishes(Do(b, Advance(j)), r);
      FinishAfter(b, Advance(j));
    } else {
      var a, r' := NextBeginning(b, r);
      Finishes(Do(b, a), r');
      FinishAfter(b, a);
    }
  }

  // ---- a consumer without a budget ----

  predicate PopsNothing(b: Bench)
    requires Shaped(b)
  {
    b.sh.popped == [] && forall i :: 0 <= i < |b.threads| ==> (b.threads[i].pc.Pop? ==> b.threads[i].pc.k == 0)
  }

  lemma NothingPopping(b: Bench, i: nat)
    requires MutexBench.Inv(b) && b.sh.popped == [] && i < |b.threads|
    ensures !b.threads[i].pc.CountPopped?
  {
    MutexBench.WeightAt(b.threads, i);
    SumJoins(MutexBench.Weights(b.threads), i);
  }

  lemma {:induction false} RunPopsNothing(b: Bench, run: seq<Action>)
    requires MutexBench.IsStart(b) && b.sc.budget == 0 && Legal(b, run)
    ensures PopsNothing(After(b, run))
    decreases |run|
  {
    if run == [] {
      assert forall i :: 0 <= i < |b.threads| ==> Rests(b.threads[i]);
    } else {
      var n := |run| - 1;
      var x := After(b, run[..n]);
      RunPopsNothing(b, run[..n]);
      MutexBench.RunInv(b, run[..n]);
      if run[n].Advance? {
        NothingPopping(x, run[n].i);
      }
      ActionPopsNothing(x, run[n]);
    }
  }

  lemma ActionPopsNothing(b: Bench, a: Action)
    requires Shaped(b) && b.sc.budget == 0 && PopsNothing(b) && Can(b, a)
    requires a.Advance? ==> !b.threads[a.i].pc.CountPopped?
    ensures PopsNothing(Do(b, a))
  {
  }

  // ---- results ----

  /** From every reachable state the baseline can still finish, if the budget is positive or nothing is to be done;
      with a budget of zero and something to be done no run ever finishes. */
  lemma FinishExactly(start: Bench, run: seq<Action>)
    requires MutexBench.IsStart(start) && Legal(start, run)
    ensures CanFinish(After(start, run)) <==> start.sc.budget > 0 || TotalOps(start.sc) == 0
  {
    var b := After(start, run);
    MutexBench.RunInv(start, run);
    if Feasible(start.sc) {
      var r := SomeTurnsSuffice(b);
      Finishes(b, r);
    } else if CanFinish(b) {
      FinishAfterRun(start, run);
      NeverFinishes(start);
    }
  }

  lemma NeverFinishes(start: Bench)
    requires MutexBench.IsStart(start) && start.sc.budget == 0 && TotalOps(start.sc) > 0
    ensures !CanFinish(start)
  {
    forall run | Legal(start, run) ensures !After(start, run).main.Over? {
      RunPopsNothing(start, run);
      if After(start, run).main.Over? {
        BenchCorrect(start, run);
      }
    }
  }

  /** And until it has, something can happen. */
  lemma RunGoesOn(start: Bench, run: seq<Action>) returns (a: Action)
    requires MutexBench.IsStart(start) && Legal(start, run) && !After(start, run).main.Over?
    ensures Can(After(start, run), a)
  {
    MutexBench.RunInv(start, run);
    a := NeverStuck(After(start, run));
  }
}
