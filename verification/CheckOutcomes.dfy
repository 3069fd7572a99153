/**
 What an instrumented module does compared with its source, depending on what the
 checks and `__morestack` do.
 */
module CheckOutcomes {
  import opened Numbers
  import opened StackIR
  import opened Simulation
  import opened SplitStackPass
  import opened CheckCoverage
  import opened PassObjects
  import S = StackSafety

  // ---- the same runs ----

  ghost predicate Same(a: Config, b: Config) {
    a.trace == b.trace && a.status == b.status
  }

  ghost predicate Reaches(p: Program, env: Env, c: Config, a: Config)
    requires Startable(p, env, c)
  {
    exists n: nat :: Same(Run(p, env, c, n), a)
  }

  /** Each program gets, instruction by instruction, to where the other gets, and ends where the other ends. */
  ghost predicate SameRuns(p: Program, q: Program, env: Env, c: Config) {
    && Startable(p, env, c) && Startable(q, env, c)
    && (forall n: nat :: Reaches(q, env, c, Run(p, env, c, n)))
    && (forall m: nat :: Reaches(p, env, c, Run(q, env, c, m)))
  }

  ghost predicate NeverStopped(q: Program, env: Env, c: Config)
    requires Startable(q, env, c)
  {
    forall m: nat :: !Run(q, env, c, m).status.Aborted?
  }

  lemma FollowedSame(q: Program, env: Env, c: Config, a: Config)
    requires Startable(q, env, c) && GetsTo(q, env, c, a) && NeverStopped(q, env, c)
    ensures Reaches(q, env, c, a)
  {
    var m := Following(q, env, c, a);
    assert Same(Run(q, env, c, m), a);
  }

  lemma MatchedSame(p: Program, env: Env, c: Config, b: Config)
    requires Startable(p, env, c) && CameBy(p, env, c, b) && !b.status.Aborted?
    ensures Reaches(p, env, c, b)
  {
    var n := Matching(p, env, c, b);
    assert Same(Run(p, env, c, n), b);
  }

  lemma NotStoppedSame(p: Program, q: Program, env: Env, c: Config)
    requires Preserves(p, q, env, c) && NeverStopped(q, env, c)
    ensures SameRuns(p, q, env, c)
  {
    forall n: nat ensures Reaches(q, env, c, Run(p, env, c, n)) {
      FollowedSame(q, env, c, Run(p, env, c, n));
    }
    forall m: nat ensures Reaches(p, env, c, Run(q, env, c, m)) {
      MatchedSame(p, env, c, Run(q, env, c, m));
    }
  }

  // ---- `__morestack` comes back ----

  lemma ReturningNeverStops(q: Program, env: Env, c: Config)
    requires Startable(q, env, c) && !c.status.Aborted? && forall t :: env.comesBack(t)
    ensures NeverStopped(q, env, c)
  {
    forall m: nat ensures !Run(q, env, c, m).status.Aborted? {
      RunInvariant(q, env, (d: Config) => !d.status.Aborted?, c, m);
    }
  }

  /** When `__morestack` returns, the instrumented module runs exactly as its source does. */
  lemma ReturningMorestackUnnoticed(p: Program, pad: nat, q: Program, env: Env, main: nat, sp: nat)
    requires ModuleOk(p) && AllInstrumented(p, pad, q) && Defined(p, main) && sp < WORD
    requires forall t :: env.comesBack(t)
    ensures SameRuns(p, q, env, Initial(env, main, sp))
  {
    ModuleMeaning(p, pad, q, env, main, sp);
    ReturningNeverStops(q, env, Initial(env, main, sp));
    NotStoppedSame(p, q, env, Initial(env, main, sp));
  }

  // ---- every check passes ----

  ghost predicate PassesIfChecked(q: Program, env: Env, c: Config) {
    ConfigOk(q, c) && (S.CheckNext(q, c) ==> Passes(c.sp, Word(BlockOf(q, Top(c)).term.pad), env.bound))
  }

  ghost predicate EveryCheckPasses(q: Program, env: Env, c: Config)
    requires Startable(q, env, c)
  {
    forall m: nat :: PassesIfChecked(q, env, Run(q, env, c, m))
  }

  ghost predicate AllGuarded(q: Program) {
    forall k :: 0 <= k < |q| && q[k].body != [] ==> MorestackGuarded(q[k].body)
  }

  /** No activation is in a block that calls `__morestack`. */
  ghost predicate AwayFromMore(q: Program, c: Config) {
    && ConfigOk(q, c) && !c.status.Aborted?
    && forall i :: 0 <= i < |c.stack| ==> Clean(BlockOf(q, c.stack[i]).instrs)
  }

  lemma GotoAway(q: Program, c: Config, c': Config, x: nat)
    requires AllGuarded(q) && AwayFromMore(q, c) && c.status.Running?
    requires ConfigOk(q, c') && c'.status.Running? && c'.stack == Goto(c, x).stack
    requires var t := BlockOf(q, Top(c)).term; x in Succs(t) && (t.CheckBr? ==> x == t.ok)
    ensures AwayFromMore(q, c')
  {
    var f := q[Top(c).fn].body;
    assert MorestackGuarded(f);
    assert FrameOk(q, Top(c'));
  }

  lemma TermStaysAway(q: Program, env: Env, c: Config)
    requires ProgramOk(q) && AllGuarded(q) && AwayFromMore(q, c) && c.status.Running? && PassesIfChecked(q, env, c)
    requires Top(c).pos == |BlockOf(q, Top(c)).instrs|
    ensures AwayFromMore(q, Step(q, env, c))
  {
    StepOk(q, env, c);
    var t := BlockOf(q, Top(c)).term;
    if !t.Ret? {
      assert forall j :: 0 <= j < |Succs(t)| ==> Succs(t)[j] in Succs(t);
      assert t.CondBr? ==> Succs(t)[1] == t.ifFalse;
      GotoAway(q, c, Step(q, env, c), Top(Step(q, env, c)).blk);
    }
  }

  lemma StepStaysAway(q: Program, env: Env, c: Config)
    requires ProgramOk(q) && AllGuarded(q) && AwayFromMore(q, c) && PassesIfChecked(q, env, c)
    ensures AwayFromMore(q, Step(q, env, c))
  {
    StepOk(q, env, c);
    if c.status.Running? {
      if Top(c).pos == |BlockOf(q, Top(c)).instrs| {
        TermStaysAway(q, env, c);
      } else {
        var i := BlockOf(q, Top(c)).instrs[Top(c).pos];
        if i.Call? && Defined(q, i.callee) {
          assert MorestackGuarded(q[i.callee].body);
        }
      }
    }
  }

  lemma {:induction false} RunStaysAway(q: Program, env: Env, c: Config, m: nat)
    requires Startable(q, env, c) && AllGuarded(q) && EveryCheckPasses(q, env, c) && AwayFromMore(q, c)
    ensures AwayFromMore(q, Run(q, env, c, m))
  {
    if m == 0 {
    } else {
      RunStaysAway(q, env, c, m - 1);
      assert PassesIfChecked(q, env, Run(q, env, c, m - 1));
      StepStaysAway(q, env, Run(q, env, c, m - 1));
    }
  }

  lemma InstrumentedGuarded(p: Program, pad: nat, q: Program)
    requires ModuleOk(p) && AllInstrumented(p, pad, q) && forall k :: 0 <= k < |p| ==> Plain(p[k].body)
    ensures AllGuarded(q)
  {
    forall k | 0 <= k < |q| && q[k].body != [] ensures MorestackGuarded(q[k].body) {
      assert Instrumented(p[k], pad, q[k]) && Plain(p[k].body);
      if ShouldSkip(p[k]) {
        assert forall b :: 0 <= b < |p[k].body| ==> Clean(p[k].body[b].instrs);
      } else {
        InstrumentationCovers(p[k].body, pad, q[k].body);
      }
    }
  }

  /** When every check passes, the instrumented module runs exactly as its source does. */
  lemma PassingChecksUnnoticed(p: Program, pad: nat, q: Program, env: Env, main: nat, sp: nat)
    requires ModuleOk(p) && AllInstrumented(p, pad, q) && forall k :: 0 <= k < |p| ==> Plain(p[k].body)
    requires Defined(p, main) && sp < WORD
    requires Startable(q, env, Initial(env, main, sp)) && EveryCheckPasses(q, env, Initial(env, main, sp))
    ensures SameRuns(p, q, env, Initial(env, main, sp))
  {
    var c := Initial(env, main, sp);
    ModuleMeaning(p, pad, q, env, main, sp);
    InstrumentedGuarded(p, pad, q);
    InstrumentedDefined(p, pad, q);
    assert MorestackGuarded(q[main].body);
    forall m: nat ensures !Run(q, env, c, m).status.Aborted? {
      RunStaysAway(q, env, c, m);
    }
    NotStoppedSame(p, q, env, c);
  }

  // ---- a check fails, and `__morestack` never comes back ----

  /** Whatever the module got done before it was stopped, its source does too, and with nothing in between. */
  lemma StoppedAtPrefix(p: Program, pad: nat, q: Program, env: Env, main: nat, sp: nat, m: nat) returns (n: nat)
    requires ModuleOk(p) && AllInstrumented(p, pad, q) && Defined(p, main) && sp < WORD
    ensures Startable(p, env, Initial(env, main, sp)) && Startable(q, env, Initial(env, main, sp))
    ensures Run(q, env, Initial(env, main, sp), m).trace == Run(p, env, Initial(env, main, sp), n).trace
    ensures forall l: nat :: n <= l ==>
              Run(q, env, Initial(env, main, sp), m).trace <= Run(p, env, Initial(env, main, sp), l).trace
  {
    var c := Initial(env, main, sp);
    ModuleMeaning(p, pad, q, env, main, sp);
    assert CameBy(p, env, c, Run(q, env, c, m));
    n := Matching(p, env, c, Run(q, env, c, m));
    forall l: nat | n <= l ensures Run(p, env, c, n).trace <= Run(p, env, c, l).trace {
      RunExtends(p, env, c, n, l);
    }
  }

  // ---- what the pass makes is what the safety results are about ----

  /** A module the pass has not seen, none of whose functions with a body is skipped, comes out checked throughout. */
  lemma OutputAllChecked(p: Program, pad: nat, q: Program)
    requires ModuleOk(p) && AllInstrumented(p, pad, q)
    requires forall k :: 0 <= k < |p| && p[k].body != [] ==> Plain(p[k].body) && !ShouldSkip(p[k])
    ensures S.AllChecked(q, pad)
  {
    InstrumentedDefined(p, pad, q);
    forall k | 0 <= k < |q| && q[k].body != [] ensures Checked(q[k].body, pad) {
      assert Defined(q, k) && Defined(p, k);
      ModuleCovered(p, pad, q, k);
    }
  }

  /** So its original instructions, which are those of its source, run with the pad free above the bound. */
  lemma OutputRollsSafely(p: Program, pad: nat, q: Program, env: Env, main: nat, sp: nat, n: nat, reach: nat)
    requires ModuleOk(p) && AllInstrumented(p, pad, q)
    requires forall k :: 0 <= k < |p| && p[k].body != [] ==> Plain(p[k].body) && !ShouldSkip(p[k])
    requires Defined(p, main) && sp < WORD && S.Room(env, pad, sp) && reach <= pad
    requires S.NeverComesBack(env) && S.Tame(q, env)
    ensures Startable(q, env, Initial(env, main, sp))
    ensures S.RollsSafely(q, pad, env, reach, Run(q, env, Initial(env, main, sp), n))
    ensures CameBy(p, env, Initial(env, main, sp), Run(q, env, Initial(env, main, sp), n))
  {
    OutputAllChecked(p, pad, q);
    ModuleMeaning(p, pad, q, env, main, sp);
    assert Defined(q, main) by { InstrumentedDefined(p, pad, q); }
    S.TameNeverMisled(q, pad, env, main, sp, n);
    S.RollingSafety(q, pad, env, main, sp, n, reach);
  }
}
