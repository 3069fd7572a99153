/**
 How many steps calls take. `Rank` bounds the steps a call still has, given that at
 most F pend-only calls ever complete; deferred submissions pay for their own draining.
 Every nested run with a bounded number of preemptions is bounded.
 */
module Termination {
  import opened Numbers
  import opened SoftLock
  import opened SoftLockInvariant
  import opened Preemption

  const ROUND: nat := 16 // more than one drain round takes, items aside
  const ITEM: nat := 3   // more than draining one item takes

  /** Steps left in `run_pended_op`. */
  function DrainRank(pc: Pc): nat
    requires InDrain(pc)
  {
    match pc
    case SwapCount(_) => 12
    case CountBatch(n, _) => 11 + ITEM * n
    case CountItems(n, _) => 10 + ITEM * n
    case LockForDrain(n, _) => 9 + ITEM * n
    case DrawDrained(n, _) => 8 + ITEM * n
    case PushDrained(_, n, _) => 9 + ITEM * n
    case UnlockDrain(_) => 7
  }

  function SubmitRank(pc: Pc): nat
    requires InSubmit(pc)
  {
    if pc.CountFull? then 6 else if pc.DrawId? then 5 else if pc.LockForId? then 4
    else if pc.PushId? then 3 else if pc.CountDirect? then 2 else 1
  }

  function CheckRank(pc: Pc): nat
    requires InCheck(pc)
  {
    if pc.LoadProcessed? then 7 else if pc.LoadDone? then 6 else if pc.LoadPending? then 5
    else if pc.LockLen? then 4 else if pc.LoadLen? then 3 else 2
  }

  function PopRank(pc: Pc, budget: nat): nat
    requires InPop(pc)
  {
    match pc
    case LockToPop => 10 + 2 * budget
    case Pop(k) => 9 + 2 * k
    case CountPopped(k) => 10 + 2 * k
    case UnlockPop => 8
  }

  function Rounds(F: nat, rounds: nat): nat {
    if rounds <= F + 1 then ROUND * (F + 1 - rounds) else 0
  }

  function DropRank(c: Call, F: nat): nat
    requires Dropping(c.pc)
  {
    Rounds(F, c.rounds) +
    (if InDrain(c.pc) then DrainRank(c.pc)
     else if c.pc.Release? then 6
     else if c.pc.Recheck? then 2
     else if c.pc.Reacquire? then 1
     else 0)
  }

  function PendRank(pc: Pc): nat
    requires InPend(pc)
  {
    if pc.CountPend? then 7 else if pc.PendSubmit? then 6 else 1
  }

  function Rank(c: Call, F: nat): nat {
    if Finished(c.pc) then 0
    else if InPend(c.pc) then PendRank(c.pc)
    else if Dropping(c.pc) then DropRank(c, F)
    else
      Rounds(F, 0) +
      if InSubmit(c.pc) then SubmitRank(c.pc)
      else if InDrain(c.pc) then 11 + 2 * Budget(c.op) + DrainRank(c.pc)
      else if InPop(c.pc) then PopRank(c.pc, Budget(c.op))
      else if InCheck(c.pc) then CheckRank(c.pc)
      else if c.pc.Look? then 1 + (if c.pc.k <= 8 then 8 - c.pc.k else 0)
      else 24 + 2 * Budget(c.op)
  }

  /** The steps a call still has, and those its deferred submissions will cost. */
  function Potential(s: Shared, c: Call, F: nat): nat {
    ITEM * s.pendingSubmit + Rank(c, F)
  }

  predicate Spins(s: Shared, c: Call) {
    c.pc.Reacquire? && s.locked
  }

  lemma DropFalls(s: Shared, c: Call, F: nat)
    requires Dropping(c.pc) && InLock(c.pc) && !Spins(s, c) && RoundsBounded(s, c) && s.completions <= F
    ensures var (s', c') := LockStep(s, c); Potential(s', c', F) < Potential(s, c, F)
  {
    if c.pc.SwapPending? {
      assert Rounds(F, c.rounds) == Rounds(F, c.rounds + 1) + ROUND;
    }
  }

  lemma EnterFalls(s: Shared, c: Call, F: nat)
    requires c.pc.Enter?
    ensures var (s', c') := LockStep(s, c); Potential(s', c', F) < Potential(s, c, F)
  {
  }

  lemma TakeFalls(s: Shared, c: Call, F: nat)
    requires c.pc.SwapCount? || c.pc.CountBatch? || c.pc.CountItems?
    ensures var (s', c') := DrainStep(s, c); Potential(s', c', F) < Potential(s, c, F)
  {
  }

  lemma MoveFalls(s: Shared, c: Call, F: nat)
    requires c.pc.LockForDrain? || c.pc.PushDrained? || c.pc.UnlockDrain?
    ensures var (s', c') := DrainStep(s, c); Potential(s', c', F) < Potential(s, c, F)
  {
  }

  lemma DrawFalls(s: Shared, c: Call, F: nat)
    requires c.pc.DrawDrained?
    ensures var (s', c') := DrainStep(s, c); Potential(s', c', F) < Potential(s, c, F)
  {
  }

  lemma SubmitFalls(s: Shared, c: Call, F: nat)
    requires InSubmit(c.pc)
    ensures var (s', c') := SubmitStep(s, c); Potential(s', c', F) < Potential(s, c, F)
  {
  }

  lemma PendFalls(s: Shared, c: Call, F: nat)
    requires InPend(c.pc)
    ensures var (s', c') := PendStep(s, c); Potential(s', c', F) < Potential(s, c, F)
  {
  }

  lemma PopFalls(s: Shared, c: Call, F: nat)
    requires c.pc.Pop?
    ensures var (s', c') := PopStep(s, c); Potential(s', c', F) < Potential(s, c, F)
  {
  }

  lemma AroundPopFalls(s: Shared, c: Call, F: nat)
    requires c.pc.LockToPop? || c.pc.CountPopped? || c.pc.UnlockPop?
    ensures var (s', c') := PopStep(s, c); Potential(s', c', F) < Potential(s, c, F)
  {
  }

  lemma CheckFalls(s: Shared, c: Call, F: nat)
    requires c.pc.LoadDone? || c.pc.LoadPending? || c.pc.LockLen? || c.pc.LoadLen?
    ensures var (s', c') := CheckStep(s, c); Potential(s', c', F) < Potential(s, c, F)
  {
  }

  lemma DecidingFalls(s: Shared, c: Call, F: nat)
    requires c.pc.LoadProcessed? || c.pc.UnlockLen?
    ensures var (s', c') := CheckStep(s, c); Potential(s', c', F) < Potential(s, c, F)
  {
  }

  lemma LookFalls(s: Shared, c: Call, F: nat)
    requires c.pc.Look?
    ensures var (s', c') := LookStep(s, c); Potential(s', c', F) < Potential(s, c, F)
  {
    LookOnlyReads(s, c);
    LookAdvances(s, c);
  }

  lemma LookAdvances(s: Shared, c: Call)
    requires c.pc.Look?
    ensures var c' := LookStep(s, c).1;
            if c.pc.k < 8 then c'.pc == Look(c.pc.k + 1) else c'.pc.SwapPending? && c'.rounds == 0
  {
  }

  /** Every step but a failed re-acquire lowers the potential, whoever else is running. */
  lemma StepFalls(s: Shared, c: Call, F: nat)
    requires RoundsBounded(s, c) && s.completions <= F && !Finished(c.pc) && !Spins(s, c)
    ensures var (s', c') := Step(s, c); Potential(s', c', F) < Potential(s, c, F)
  {
    if InSubmit(c.pc) {
      SubmitFalls(s, c, F);
    } else if InPend(c.pc) {
      PendFalls(s, c, F);
    } else if InDrain(c.pc) {
      if c.pc.SwapCount? || c.pc.CountBatch? || c.pc.CountItems? {
        TakeFalls(s, c, F);
      } else if c.pc.DrawDrained? {
        DrawFalls(s, c, F);
      } else {
        MoveFalls(s, c, F);
      }
    } else if InPop(c.pc) {
      if c.pc.Pop? {
        PopFalls(s, c, F);
      } else {
        AroundPopFalls(s, c, F);
      }
    } else if InCheck(c.pc) {
      if c.pc.LoadProcessed? || c.pc.UnlockLen? {
        DecidingFalls(s, c, F);
      } else {
        CheckFalls(s, c, F);
      }
    } else if c.pc.Look? {
      LookFalls(s, c, F);
    } else if c.pc.Enter? {
      EnterFalls(s, c, F);
    } else {
      DropFalls(s, c, F);
    }
  }

  // ---- nested runs ----

  /** The steps all contexts still have, one more for leaving each. */
  function Ranks(calls: seq<Call>, F: nat): nat {
    if calls == [] then 0 else Ranks(calls[..|calls| - 1], F) + Rank(calls[|calls| - 1], F) + 1
  }

  /** Calls that may yet complete pend-only. */
  predicate MayPend(pc: Pc) {
    pc.Enter? || InPend(pc)
  }

  function Candidates(calls: seq<Call>): nat {
    if calls == [] then 0 else Candidates(calls[..|calls| - 1]) + Bit(MayPend(calls[|calls| - 1].pc))
  }

  /** The preemptions in a run, and the largest budget among them. */
  function Forks(run: seq<Action>): nat {
    if run == [] then 0 else Forks(run[..|run| - 1]) + Bit(run[|run| - 1].Fork?)
  }

  predicate BudgetsWithin(run: seq<Action>, B: nat) {
    forall k :: 0 <= k < |run| && run[k].Fork? ==> Budget(run[k].op) <= B
  }

  /** What one preemption can cost. */
  function ForkCost(F: nat, B: nat): nat {
    Rounds(F, 0) + 2 * B + 26
  }

  lemma CompletionsCounted(s: Shared, c: Call)
    ensures var (s', c') := Step(s, c);
            s'.completions + Bit(MayPend(c'.pc)) <= s.completions + Bit(MayPend(c.pc))
  {
    if InLock(c.pc) {
    } else if InPend(c.pc) {
    } else if Holds(c.pc) {
      HolderUnobtrusive(s, c);
      HolderStays(s, c);
    }
  }

  /** n times c. */
  function Times(n: nat, c: nat): nat {
    if n == 0 then 0 else Times(n - 1, c) + c
  }

  lemma {:induction false} TimesIsProduct(n: nat, c: nat)
    ensures Times(n, c) == n * c
  {
    if n == 0 {
    } else {
      TimesIsProduct(n - 1, c);
      assert n * c == (n - 1) * c + c;
    }
  }

  /** Potential and pend-only candidates of a whole stack. */
  ghost predicate Paid(x: System, steps: nat, forks: nat, F: nat, B: nat) {
    && x.sh.completions + Candidates(x.calls) <= forks
    && steps + ITEM * x.sh.pendingSubmit + Ranks(x.calls, F) <= Times(forks, ForkCost(F, B))
  }

  lemma ForkPaid(x: System, op: Op, steps: nat, forks: nat, F: nat, B: nat)
    requires Paid(x, steps, forks, F, B) && Budget(op) <= B
    ensures Paid(Do(x, Fork(op)), steps + 1, forks + 1, F, B)
  {
    var y := Do(x, Fork(op));
    assert y.calls[..|x.calls|] == x.calls;
  }

  lemma MovePaid(x: System, steps: nat, forks: nat, F: nat, B: nat)
    requires Stacked(x) && |x.calls| > 0 && Can(x, Move(|x.calls| - 1))
    requires Paid(x, steps, forks, F, B) && forks <= F
    ensures Paid(Do(x, Move(|x.calls| - 1)), steps + 1, forks, F, B)
  {
    var n := |x.calls| - 1;
    var c := x.calls[n];
    var y := Do(x, Move(n));
    assert y.calls[..n] == x.calls[..n];
    assert CallOk(x.sh, c);
    if c.pc.Reacquire? {
      TopReacquires(x);
    }
    CompletionsCounted(x.sh, c);
    StepFalls(x.sh, c, F);
  }

  lemma ActionPaid(x: System, a: Action, steps: nat, forks: nat, F: nat, B: nat)
    requires Stacked(x) && Can(x, a) && NestedAction(x, a)
    requires Paid(x, steps, forks, F, B) && forks <= F
    requires a.Fork? ==> Budget(a.op) <= B
    ensures Paid(Do(x, a), steps + 1, forks + Bit(a.Fork?), F, B)
  {
    match a {
      case Fork(op) => ForkPaid(x, op, steps, forks, F, B);
      case Move(i) => MovePaid(x, steps, forks, F, B);
      case Retire =>
    }
  }

  lemma PaidOn(x: System, a: Action, y: System, steps: nat, steps': nat, forks: nat, forks': nat, F: nat, B: nat)
    requires Stacked(x) && Can(x, a) && NestedAction(x, a) && y == Do(x, a)
    requires Paid(x, steps, forks, F, B) && forks <= F
    requires (a.Fork? ==> Budget(a.op) <= B) && steps' == steps + 1 && forks' == forks + Bit(a.Fork?)
    ensures Paid(y, steps', forks', F, B)
  {
    ActionPaid(x, a, steps, forks, F, B);
  }

  lemma StartPaid(x: System, F: nat, B: nat)
    requires IsStart(x)
    ensures Paid(x, 0, 0, F, B)
  {
  }

  lemma ForksSplit(run: seq<Action>)
    requires run != []
    ensures Forks(run) == Forks(run[..|run| - 1]) + Bit(run[|run| - 1].Fork?)
  {
  }

  lemma {:induction false} NestedRunPaid(start: System, run: seq<Action>, F: nat, B: nat)
    requires IsStart(start) && Legal(start, run) && Nested(start, run)
    requires Forks(run) <= F && BudgetsWithin(run, B)
    ensures Paid(After(start, run), |run|, Forks(run), F, B)
    decreases |run|
  {
    if run == [] {
      StartPaid(start, F, B);
    } else {
      var n := |run| - 1;
      var x := After(start, run[..n]);
      NestedSplits(start, run);
      ForksSplit(run);
      NestedRunPaid(start, run[..n], F, B);
      NestedRunStacked(start, run[..n]);
      PaidOn(x, run[n], After(start, run), n, |run|, Forks(run[..n]), Forks(run), F, B);
    }
  }

  /** Termination: with at most F preemptions, whose consumer budgets are at most B, every nested run
      is at most F * (16 * (F + 1) + 2 * B + 26) actions long. So every guard drop ends. */
  lemma NestedRunsEnd(start: System, run: seq<Action>, F: nat, B: nat)
    requires IsStart(start) && Legal(start, run) && Nested(start, run)
    requires Forks(run) <= F && BudgetsWithin(run, B)
    ensures |run| <= F * (16 * (F + 1) + 2 * B + 26)
  {
    NestedRunPaid(start, run, F, B);
    assert ForkCost(F, B) == 16 * (F + 1) + 2 * B + 26;
    TimesIsProduct(Forks(run), ForkCost(F, B));
    ProductMonotone(Forks(run), F, ForkCost(F, B));
  }

  lemma ProductMonotone(a: nat, b: nat, c: nat)
    requires a <= b
    ensures a * c <= b * c
  {
  }
}
