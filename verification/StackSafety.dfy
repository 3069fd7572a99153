/**
 What the checks guarantee while a program of instrumented functions runs: how many
 there are, and that everything between them runs with room on the stack.
 */
module StackSafety {
  import opened Numbers
  import opened StackIR
  import opened SplitStackPass
  import opened CheckCoverage

  /** Every function with a body has been through the pass. */
  ghost predicate AllChecked(p: Program, pad: nat) {
    ProgramOk(p) && forall k :: 0 <= k < |p| && p[k].body != [] ==> Checked(p[k].body, pad)
  }

  /** A check comes next. */
  predicate PreCheck(p: Program, fr: Frame)
    requires FrameOk(p, fr)
  {
    fr.pos == |BlockOf(p, fr).instrs| && BlockOf(p, fr).term.CheckBr?
  }

  /** `__morestack` is called next. */
  predicate AtMore(p: Program, fr: Frame)
    requires FrameOk(p, fr)
  {
    fr.pos < |BlockOf(p, fr).instrs| && BlockOf(p, fr).instrs[fr.pos].Morestack?
  }

  predicate CheckNext(p: Program, c: Config)
    requires ConfigOk(p, c)
  {
    c.status.Running? && PreCheck(p, Top(c))
  }

  /** An original instruction or terminator comes next. */
  predicate OriginalNext(p: Program, c: Config)
    requires ConfigOk(p, c)
  {
    c.status.Running? && !PreCheck(p, Top(c)) && !AtMore(p, Top(c))
  }

  // ---- where a check can come next ----

  /** An activation that is waiting for a call is not at a check. */
  ghost predicate WaitingClear(p: Program, c: Config)
    requires ConfigOk(p, c)
  {
    forall i :: 0 <= i < |c.stack| - 1 ==> !PreCheck(p, c.stack[i])
  }

  /** Right behind an instruction there is a check if and only if it is an alloca. */
  lemma CheckAfter(p: Program, pad: nat, fr: Frame)
    requires AllChecked(p, pad) && FrameOk(p, fr) && fr.pos < |BlockOf(p, fr).instrs|
    ensures FrameOk(p, fr.(pos := fr.pos + 1))
    ensures PreCheck(p, fr.(pos := fr.pos + 1)) <==> BlockOf(p, fr).instrs[fr.pos].Alloca?
  {
    var f := p[fr.fn].body;
    assert Checked(f, pad);
    var i := f[fr.blk].instrs[fr.pos];
    if i.Alloca? {
      assert AllocaAt(f, fr.blk, fr.pos, i.id);
    }
  }

  /** A function starts with a check. */
  lemma CheckAtEntry(p: Program, pad: nat, fn: nat, base: nat)
    requires AllChecked(p, pad) && Defined(p, fn) && base < WORD
    ensures FrameOk(p, Frame(fn, -1, 0, 0, base)) && PreCheck(p, Frame(fn, -1, 0, 0, base))
  {
    assert Checked(p[fn].body, pad) && BodyOk(p[fn].body);
  }

  /** No branch leads straight to a check. */
  lemma NoCheckAfterBranch(p: Program, pad: nat, fr: Frame)
    requires AllChecked(p, pad) && FrameOk(p, fr) && fr.prev != -1 && fr.pos == 0
    ensures !PreCheck(p, fr)
  {
    var f := p[fr.fn].body;
    assert Checked(f, pad) && BodyOk(f) && BlockOk(f, f[fr.prev]);
    var j :| 0 <= j < |Succs(f[fr.prev].term)| && Succs(f[fr.prev].term)[j] == fr.blk;
  }

  lemma CheckHasPad(p: Program, pad: nat, fr: Frame)
    requires AllChecked(p, pad) && FrameOk(p, fr) && PreCheck(p, fr)
    ensures BlockOf(p, fr).term.pad == pad && MorePlaced(p[fr.fn].body, BlockOf(p, fr).term)
  {
    assert Checked(p[fr.fn].body, pad);
  }

  // ---- one step ----

  /** What a step changes that matters here: the checks done, the entries and allocas, and whether a check is next. */
  ghost predicate Balanced(p: Program, c: Config)
    requires ConfigOk(p, c)
  {
    c.checks + Bit(CheckNext(p, c)) == c.entries + Allocas(c.trace)
  }

  function Allocas(t: Trace): nat {
    if t == [] then 0 else Allocas(t[..|t| - 1]) + Bit(t[|t| - 1].Allocated?)
  }

  lemma AllocasEmit(t: Trace, e: Event)
    ensures Allocas(t + [e]) == Allocas(t) + Bit(e.Allocated?)
  {
    assert (t + [e])[..|t|] == t;
  }

  ghost predicate Counted(p: Program, c: Config)
    requires ConfigOk(p, c)
  {
    WaitingClear(p, c) && Balanced(p, c)
  }

  ghost predicate CountedState(p: Program, c: Config) {
    ConfigOk(p, c) && Counted(p, c)
  }

  /** An instruction that only moves on, and is no alloca. */
  lemma MoveCounts(p: Program, pad: nat, c: Config, e: Event)
    requires AllChecked(p, pad) && ConfigOk(p, c) && c.status.Running? && Top(c).pos < |BlockOf(p, Top(c)).instrs|
    requires Counted(p, c) && !BlockOf(p, Top(c)).instrs[Top(c).pos].Alloca? && !e.Allocated?
    ensures ConfigOk(p, Emit(Advance(c), e)) && Counted(p, Emit(Advance(c), e)) && !CheckNext(p, Emit(Advance(c), e))
    ensures ConfigOk(p, Advance(c)) && Counted(p, Advance(c))
  {
    CheckAfter(p, pad, Top(c));
    AllocasEmit(c.trace, e);
  }

  lemma AllocaCounts(p: Program, pad: nat, env: Env, c: Config)
    requires AllChecked(p, pad) && ConfigOk(p, c) && c.status.Running? && Top(c).pos < |BlockOf(p, Top(c)).instrs|
    requires Counted(p, c) && BlockOf(p, Top(c)).instrs[Top(c).pos].Alloca?
    ensures ConfigOk(p, Step(p, env, c)) && Counted(p, Step(p, env, c))
  {
    CheckAfter(p, pad, Top(c));
    AllocasEmit(c.trace, Allocated(BlockOf(p, Top(c)).instrs[Top(c).pos].id));
  }

  lemma EnterCounts(p: Program, pad: nat, env: Env, c: Config, fn: nat)
    requires AllChecked(p, pad) && ConfigOk(p, c) && c.status.Running? && Counted(p, c) && !CheckNext(p, c)
    requires Defined(p, fn)
    ensures ConfigOk(p, Enter(env, c, fn)) && Counted(p, Enter(env, c, fn))
  {
    CheckAtEntry(p, pad, fn, c.sp);
    var c' := Enter(env, c, fn);
    forall i | 0 <= i < |c'.stack| - 1 ensures !PreCheck(p, c'.stack[i]) {
      if i < |c.stack| - 1 {
        assert c'.stack[i] == c.stack[i];
      }
    }
  }

  lemma CallCounts(p: Program, pad: nat, env: Env, c: Config)
    requires AllChecked(p, pad) && ConfigOk(p, c) && c.status.Running? && Top(c).pos < |BlockOf(p, Top(c)).instrs|
    requires Counted(p, c) && BlockOf(p, Top(c)).instrs[Top(c).pos].Call?
    ensures ConfigOk(p, Step(p, env, c)) && Counted(p, Step(p, env, c))
  {
    var i := BlockOf(p, Top(c)).instrs[Top(c).pos];
    var c' := Emit(Advance(c), Called(i.id));
    MoveCounts(p, pad, c, Called(i.id));
    CallSteps(p, env, c);
    if Defined(p, i.callee) {
      EnterCounts(p, pad, env, c', i.callee);
    }
  }

  lemma MorestackCounts(p: Program, pad: nat, env: Env, c: Config)
    requires AllChecked(p, pad) && ConfigOk(p, c) && c.status.Running? && Top(c).pos < |BlockOf(p, Top(c)).instrs|
    requires Counted(p, c) && BlockOf(p, Top(c)).instrs[Top(c).pos].Morestack?
    ensures ConfigOk(p, Step(p, env, c)) && Counted(p, Step(p, env, c))
  {
    if env.comesBack(c.trace) {
      MoveCounts(p, pad, c, Returned);
      assert Step(p, env, c) == Advance(c);
    } else {
      assert Step(p, env, c) == c.(status := Aborted);
    }
  }

  lemma OtherCounts(p: Program, pad: nat, env: Env, c: Config)
    requires AllChecked(p, pad) && ConfigOk(p, c) && c.status.Running? && Top(c).pos < |BlockOf(p, Top(c)).instrs|
    requires var i := BlockOf(p, Top(c)).instrs[Top(c).pos]; i.Phi? || i.Other?
    requires Counted(p, c)
    ensures ConfigOk(p, Step(p, env, c)) && Counted(p, Step(p, env, c))
  {
    var i := BlockOf(p, Top(c)).instrs[Top(c).pos];
    var e := if i.Phi? then TookPhi(i.id, IndexOf(i.incoming, Top(c).prev)) else Did(i.id);
    MoveCounts(p, pad, c, e);
    assert Step(p, env, c) == Emit(Advance(c), e);
  }

  lemma InstrCounts(p: Program, pad: nat, env: Env, c: Config)
    requires AllChecked(p, pad) && ConfigOk(p, c) && c.status.Running? && Top(c).pos < |BlockOf(p, Top(c)).instrs|
    requires Counted(p, c)
    ensures ConfigOk(p, Step(p, env, c)) && Counted(p, Step(p, env, c))
  {
    var i := BlockOf(p, Top(c)).instrs[Top(c).pos];
    if i.Alloca? {
      AllocaCounts(p, pad, env, c);
    } else if i.Call? {
      CallCounts(p, pad, env, c);
    } else if i.Morestack? {
      MorestackCounts(p, pad, env, c);
    } else {
      OtherCounts(p, pad, env, c);
    }
  }

  lemma GotoTakes(p: Program, pad: nat, c: Config, c': Config, x: nat)
    requires AllChecked(p, pad) && ConfigOk(p, c) && c.stack != [] && ConfigOk(p, c') && WaitingClear(p, c)
    requires c'.stack == Goto(c, x).stack
    ensures WaitingClear(p, c') && !PreCheck(p, Top(c'))
  {
    NoCheckAfterBranch(p, pad, Top(c'));
  }

  lemma GotoCounts(p: Program, pad: nat, c: Config, c': Config, x: nat)
    requires AllChecked(p, pad) && CountedState(p, c) && OriginalNext(p, c) && ConfigOk(p, c')
    requires c'.stack == Goto(c, x).stack && c'.checks == c.checks && c'.entries == c.entries
    requires Allocas(c'.trace) == Allocas(c.trace)
    ensures CountedState(p, c')
  {
    GotoTakes(p, pad, c, c', x);
  }

  lemma BranchCounts(p: Program, pad: nat, env: Env, c: Config)
    requires AllChecked(p, pad) && CountedState(p, c) && OriginalNext(p, c) && Top(c).pos == |BlockOf(p, Top(c)).instrs|
    requires !BlockOf(p, Top(c)).term.Ret?
    ensures CountedState(p, Step(p, env, c))
  {
    var t := BlockOf(p, Top(c)).term;
    StepOk(p, env, c);
    if t.CondBr? {
      var taken := env.decide(t.id, c.trace);
      AllocasEmit(c.trace, Branched(t.id, taken));
      GotoCounts(p, pad, c, Step(p, env, c), if taken then t.ifTrue else t.ifFalse);
    } else {
      GotoCounts(p, pad, c, Step(p, env, c), t.target);
    }
  }

  lemma CheckCounts(p: Program, pad: nat, env: Env, c: Config)
    requires AllChecked(p, pad) && ConfigOk(p, c) && CheckNext(p, c) && Counted(p, c)
    ensures ConfigOk(p, Step(p, env, c)) && Counted(p, Step(p, env, c))
  {
    StepOk(p, env, c);
    var c' := Step(p, env, c);
    GotoTakes(p, pad, c, c', Top(c').blk);
  }

  lemma RetCounts(p: Program, pad: nat, env: Env, c: Config)
    requires AllChecked(p, pad) && ConfigOk(p, c) && OriginalNext(p, c) && Top(c).pos == |BlockOf(p, Top(c)).instrs|
    requires Counted(p, c) && BlockOf(p, Top(c)).term.Ret?
    ensures ConfigOk(p, Step(p, env, c)) && Counted(p, Step(p, env, c))
  {
    StepOk(p, env, c);
    AllocasEmit(c.trace, Returned);
  }

  lemma StepCounts(p: Program, pad: nat, env: Env, c: Config)
    requires AllChecked(p, pad) && CountedState(p, c)
    ensures CountedState(p, Step(p, env, c))
  {
    if c.status.Running? {
      if Top(c).pos < |BlockOf(p, Top(c)).instrs| {
        InstrCounts(p, pad, env, c);
      } else if BlockOf(p, Top(c)).term.CheckBr? {
        CheckCounts(p, pad, env, c);
      } else if BlockOf(p, Top(c)).term.Ret? {
        RetCounts(p, pad, env, c);
      } else {
        BranchCounts(p, pad, env, c);
      }
    }
  }

  lemma InitialCounted(p: Program, pad: nat, env: Env, main: nat, sp: nat)
    requires AllChecked(p, pad) && Defined(p, main) && sp < WORD
    ensures CountedState(p, Initial(env, main, sp))
  {
    InitialOk(p, env, main, sp);
    CheckAtEntry(p, pad, main, sp);
  }

  lemma RunCounted(p: Program, pad: nat, env: Env, main: nat, sp: nat, n: nat)
    requires AllChecked(p, pad) && Defined(p, main) && sp < WORD
    ensures ConfigOk(p, Initial(env, main, sp)) && CountedState(p, Run(p, env, Initial(env, main, sp), n))
  {
    InitialCounted(p, pad, env, main, sp);
    forall c | CountedState(p, c) ensures CountedState(p, Step(p, env, c)) {
      StepCounts(p, pad, env, c);
    }
    RunInvariant(p, env, c => CountedState(p, c), Initial(env, main, sp), n);
  }

  /** The checks executed are the functions entered and the allocas executed, but for the one that is next. A run
      that ended or was stopped has one for each. */
  ghost predicate OneCheckEach(p: Program, c: Config) {
    && ConfigOk(p, c)
    && c.checks + Bit(CheckNext(p, c)) == c.entries + Allocas(c.trace)
    && (!c.status.Running? ==> c.checks == c.entries + Allocas(c.trace))
  }

  /** In every run, whatever `__morestack` does. */
  lemma ChecksExecuted(p: Program, pad: nat, env: Env, main: nat, sp: nat, n: nat)
    requires AllChecked(p, pad) && Defined(p, main) && sp < WORD
    ensures ConfigOk(p, Initial(env, main, sp)) && OneCheckEach(p, Run(p, env, Initial(env, main, sp), n))
  {
    RunCounted(p, pad, env, main, sp, n);
  }

  // ---- the comparison ----

  lemma WrapTwice(s: nat, n: nat, pad: nat)
    requires s < WORD && n < WORD && pad <= s
    ensures WrapSub(WrapSub(s, n), pad) == if n + pad <= s then s - n - pad else s - n - pad + WORD
  {
    var x := WrapSub(s, n);
    assert x == if n <= s then s - n else s - n + WORD;
  }

  /** Lowering SP from s by n, and by the pad for the comparison, wraps around to at or above the bound. */
  predicate WrapsHigh(s: nat, n: nat, pad: nat, bound: nat) {
    n + pad > s && s - n - pad + WORD >= bound
  }

  /** From where there is room, after any decrement n: the comparison is right if and only if it did not wrap
      to at or above the bound. */
  lemma ComparisonExact(s: nat, n: nat, pad: nat, bound: nat)
    requires s < WORD && n < WORD && s >= bound + pad
    ensures (Passes(WrapSub(s, n), pad, bound) <==> s - n - pad >= bound) <==> !WrapsHigh(s, n, pad, bound)
  {
    WrapTwice(s, n, pad);
  }

  /** From every SP with room there is an alloca that passes its check although it does not fit. */
  lemma HugeAllocaPasses(s: nat, pad: nat, bound: nat) returns (n: nat)
    requires s < WORD && s >= bound + pad && pad >= 1
    ensures n < WORD && s - n - pad < 0 && Passes(WrapSub(s, n), pad, bound)
  {
    n := s - pad + 1;
    WrapTwice(s, n, pad);
  }

  // ---- room ----

  predicate Room(env: Env, pad: nat, sp: nat) {
    sp >= env.bound + pad
  }

  /** By how much SP was lowered last, and where it would be if words did not wrap. */
  function Lowered(c: Config): nat
    requires c.sp < WORD && c.before < WORD
  {
    WrapSub(c.before, c.sp)
  }

  function RealSp(c: Config): int
    requires c.sp < WORD && c.before < WORD
  {
    c.before - Lowered(c)
  }

  /** A check is next, and the decrement before it has wrapped to where the check cannot tell. */
  predicate Misled(p: Program, pad: nat, env: Env, c: Config) {
    && ConfigOk(p, c) && c.before < WORD
    && CheckNext(p, c) && WrapsHigh(c.before, Lowered(c), pad, env.bound)
  }

  /** Up to and including the n-th state of the run. */
  ghost predicate NeverMisled(p: Program, pad: nat, env: Env, start: Config, n: nat)
    requires ProgramOk(p) && ConfigOk(p, start)
  {
    forall m: nat :: m <= n ==> !Misled(p, pad, env, Run(p, env, start, m))
  }

  ghost predicate NeverComesBack(env: Env) {
    forall t :: !env.comesBack(t)
  }

  /** No decrement of SP in the program is larger than `limit`. */
  ghost predicate Within(p: Program, env: Env, limit: nat) {
    && (forall fn: nat :: Defined(p, fn) ==> Word(env.frame(fn)) <= limit)
    && (forall k, id, t :: 0 <= k < |p| && HasAlloca(p[k].body, id) ==> Word(env.size(id, t)) <= limit)
  }

  /** Every call was made with room; there is room, unless a check is next or has just failed; and a check that is
      next follows one decrement from where there was room. */
  ghost predicate Safe(p: Program, pad: nat, env: Env, limit: nat, c: Config)
    requires ConfigOk(p, c) && c.before < WORD
  {
    && (forall i :: 0 <= i < |c.stack| ==> Room(env, pad, c.stack[i].base))
    && (CheckNext(p, c) ==> Room(env, pad, c.before) && Lowered(c) <= limit)
    && (OriginalNext(p, c) ==> Room(env, pad, c.sp))
  }

  lemma LowerFrom(c: Config, n: nat)
    requires c.sp < WORD
    ensures var c' := Lower(c, n); c'.sp < WORD && c'.before == c.sp && Lowered(c') == Word(n)
  {
    var w := Word(n);
    assert WrapSub(c.sp, w) == if w <= c.sp then c.sp - w else c.sp - w + WORD;
  }

  lemma AllocaSafe(p: Program, pad: nat, env: Env, limit: nat, c: Config, id: nat)
    requires AllChecked(p, pad) && Within(p, env, limit) && ConfigOk(p, c) && c.before < WORD
    requires OriginalNext(p, c) && Safe(p, pad, env, limit, c) && Top(c).pos < |BlockOf(p, Top(c)).instrs|
    requires BlockOf(p, Top(c)).instrs[Top(c).pos].Alloca? && BlockOf(p, Top(c)).instrs[Top(c).pos].id == id
    ensures Kept(p, pad, env, limit, Step(p, env, c))
  {
    CheckAfter(p, pad, Top(c));
    assert AllocaAt(p[Top(c).fn].body, Top(c).blk, Top(c).pos, id);
    assert HasAlloca(p[Top(c).fn].body, id);
    LowerFrom(Emit(Advance(c), Allocated(id)), env.size(id, c.trace));
  }

  lemma EnterSafe(p: Program, pad: nat, env: Env, limit: nat, c: Config, fn: nat)
    requires AllChecked(p, pad) && Within(p, env, limit) && ConfigOk(p, c) && c.status.Running? && Defined(p, fn)
    requires Room(env, pad, c.sp) && forall i :: 0 <= i < |c.stack| ==> Room(env, pad, c.stack[i].base)
    ensures Kept(p, pad, env, limit, Enter(env, c, fn))
  {
    CheckAtEntry(p, pad, fn, c.sp);
    LowerFrom(c, env.frame(fn));
  }

  lemma MoveSafe(p: Program, pad: nat, env: Env, limit: nat, c: Config, e: Event)
    requires AllChecked(p, pad) && Kept(p, pad, env, limit, c) && OriginalNext(p, c)
    requires Top(c).pos < |BlockOf(p, Top(c)).instrs| && !BlockOf(p, Top(c)).instrs[Top(c).pos].Alloca?
    ensures Kept(p, pad, env, limit, Emit(Advance(c), e))
    ensures forall i :: 0 <= i < |c.stack| ==> Room(env, pad, Emit(Advance(c), e).stack[i].base)
  {
    CheckAfter(p, pad, Top(c));
  }

  lemma CallSafe(p: Program, pad: nat, env: Env, limit: nat, c: Config)
    requires AllChecked(p, pad) && Within(p, env, limit) && Kept(p, pad, env, limit, c) && OriginalNext(p, c)
    requires Top(c).pos < |BlockOf(p, Top(c)).instrs| && BlockOf(p, Top(c)).instrs[Top(c).pos].Call?
    ensures Kept(p, pad, env, limit, Step(p, env, c))
  {
    var i := BlockOf(p, Top(c)).instrs[Top(c).pos];
    var c' := Emit(Advance(c), Called(i.id));
    MoveSafe(p, pad, env, limit, c, Called(i.id));
    CallSteps(p, env, c);
    if Defined(p, i.callee) {
      EnterSafe(p, pad, env, limit, c', i.callee);
    }
  }

  lemma OtherSafe(p: Program, pad: nat, env: Env, limit: nat, c: Config)
    requires AllChecked(p, pad) && Kept(p, pad, env, limit, c) && OriginalNext(p, c)
    requires Top(c).pos < |BlockOf(p, Top(c)).instrs|
    requires var i := BlockOf(p, Top(c)).instrs[Top(c).pos]; i.Phi? || i.Other?
    ensures Kept(p, pad, env, limit, Step(p, env, c))
  {
    var i := BlockOf(p, Top(c)).instrs[Top(c).pos];
    var e := if i.Phi? then TookPhi(i.id, IndexOf(i.incoming, Top(c).prev)) else Did(i.id);
    MoveSafe(p, pad, env, limit, c, e);
    assert Step(p, env, c) == Emit(Advance(c), e);
  }

  lemma MoreSafe(p: Program, pad: nat, env: Env, limit: nat, c: Config)
    requires NeverComesBack(env) && Kept(p, pad, env, limit, c) && c.status.Running? && AtMore(p, Top(c))
    ensures Kept(p, pad, env, limit, Step(p, env, c)) && Step(p, env, c) == c.(status := Aborted)
  {
    assert !env.comesBack(c.trace);
  }

  lemma InstrSafe(p: Program, pad: nat, env: Env, limit: nat, c: Config)
    requires AllChecked(p, pad) && NeverComesBack(env) && Within(p, env, limit) && Kept(p, pad, env, limit, c)
    requires c.status.Running? && Top(c).pos < |BlockOf(p, Top(c)).instrs|
    ensures Kept(p, pad, env, limit, Step(p, env, c))
  {
    var i := BlockOf(p, Top(c)).instrs[Top(c).pos];
    if i.Alloca? {
      AllocaSafe(p, pad, env, limit, c, i.id);
    } else if i.Call? {
      CallSafe(p, pad, env, limit, c);
    } else if i.Morestack? {
      MoreSafe(p, pad, env, limit, c);
    } else {
      OtherSafe(p, pad, env, limit, c);
    }
  }

  /** The check is right: it passes exactly when the pad is free below where SP really is. */
  predicate CheckRight(p: Program, pad: nat, env: Env, c: Config) {
    && ConfigOk(p, c) && c.before < WORD
    && (CheckNext(p, c) ==> (Passes(c.sp, Word(pad), env.bound) <==> RealSp(c) - pad >= env.bound))
  }

  lemma RightUnlessMisled(p: Program, pad: nat, env: Env, limit: nat, c: Config)
    requires Kept(p, pad, env, limit, c)
    ensures CheckRight(p, pad, env, c) <==> !Misled(p, pad, env, c)
  {
    if CheckNext(p, c) {
      assert WrapSub(c.before, Lowered(c)) == c.sp;
      ComparisonExact(c.before, Lowered(c), pad, env.bound);
    }
  }

  /** Where a check passes and is right, SP did not wrap. */
  lemma PassedWithRoom(p: Program, pad: nat, env: Env, limit: nat, c: Config)
    requires Kept(p, pad, env, limit, c) && CheckNext(p, c) && CheckRight(p, pad, env, c)
    requires Passes(c.sp, Word(pad), env.bound)
    ensures Room(env, pad, c.sp) && RealSp(c) == c.sp
  {
  }

  lemma CheckSafe(p: Program, pad: nat, env: Env, limit: nat, c: Config)
    requires AllChecked(p, pad) && Kept(p, pad, env, limit, c) && CheckNext(p, c) && !Misled(p, pad, env, c)
    ensures Kept(p, pad, env, limit, Step(p, env, c))
  {
    StepOk(p, env, c);
    CheckHasPad(p, pad, Top(c));
    RightUnlessMisled(p, pad, env, limit, c);
    if Passes(c.sp, Word(pad), env.bound) {
      PassedWithRoom(p, pad, env, limit, c);
    }
    NoCheckAfterBranch(p, pad, Top(Step(p, env, c)));
  }

  lemma TermSafe(p: Program, pad: nat, env: Env, limit: nat, c: Config)
    requires AllChecked(p, pad) && Kept(p, pad, env, limit, c) && OriginalNext(p, c) && WaitingClear(p, c)
    requires Top(c).pos == |BlockOf(p, Top(c)).instrs|
    ensures Kept(p, pad, env, limit, Step(p, env, c))
  {
    StepOk(p, env, c);
    var c' := Step(p, env, c);
    if !BlockOf(p, Top(c)).term.Ret? {
      NoCheckAfterBranch(p, pad, Top(c'));
    }
  }

  ghost predicate Kept(p: Program, pad: nat, env: Env, limit: nat, c: Config) {
    ConfigOk(p, c) && c.before < WORD && Safe(p, pad, env, limit, c)
  }

  /** The invariant of a run. */
  ghost predicate Sound(p: Program, pad: nat, env: Env, limit: nat, c: Config) {
    Kept(p, pad, env, limit, c) && CountedState(p, c)
  }

  lemma StepSound(p: Program, pad: nat, env: Env, limit: nat, c: Config)
    requires AllChecked(p, pad) && NeverComesBack(env) && Within(p, env, limit)
    requires Sound(p, pad, env, limit, c) && !Misled(p, pad, env, c)
    ensures Sound(p, pad, env, limit, Step(p, env, c))
  {
    StepCounts(p, pad, env, c);
    if c.status.Running? {
      if CheckNext(p, c) {
        CheckSafe(p, pad, env, limit, c);
      } else if Top(c).pos < |BlockOf(p, Top(c)).instrs| {
        InstrSafe(p, pad, env, limit, c);
      } else {
        TermSafe(p, pad, env, limit, c);
      }
    }
  }

  // ---- runs ----

  /** A thread starts where there is room, in a program that was instrumented throughout; a failed check is final. */
  ghost predicate Startable(p: Program, pad: nat, env: Env, main: nat, sp: nat) {
    AllChecked(p, pad) && NeverComesBack(env) && Defined(p, main) && sp < WORD && Room(env, pad, sp)
  }

  lemma InitialSound(p: Program, pad: nat, env: Env, limit: nat, main: nat, sp: nat)
    requires Startable(p, pad, env, main, sp) && Within(p, env, limit)
    ensures Sound(p, pad, env, limit, Initial(env, main, sp))
  {
    InitialCounted(p, pad, env, main, sp);
    CheckAtEntry(p, pad, main, sp);
    LowerFrom(Config(Running, [], [], sp, 0, 0, sp), env.frame(main));
  }

  lemma {:induction false} RunSound(p: Program, pad: nat, env: Env, limit: nat, main: nat, sp: nat, n: nat)
    requires Startable(p, pad, env, main, sp) && Within(p, env, limit)
    requires var start := Initial(env, main, sp);
             ConfigOk(p, start) && (n > 0 ==> NeverMisled(p, pad, env, start, n - 1))
    ensures Sound(p, pad, env, limit, Run(p, env, Initial(env, main, sp), n))
  {
    var start := Initial(env, main, sp);
    if n == 0 {
      InitialSound(p, pad, env, limit, main, sp);
    } else {
      RunSound(p, pad, env, limit, main, sp, n - 1);
      var c := Run(p, env, start, n - 1);
      assert !Misled(p, pad, env, c);
      StepSound(p, pad, env, limit, c);
    }
  }

  lemma AnyWithin(p: Program, env: Env)
    ensures Within(p, env, WORD)
  {
  }

  /** Original code runs with the pad free above the bound; and a prologue that writes at most `reach` below its
      caller's SP writes nothing below the bound. */
  ghost predicate RollsSafely(p: Program, pad: nat, env: Env, reach: nat, c: Config) {
    && ConfigOk(p, c)
    && (OriginalNext(p, c) ==> c.sp - pad >= env.bound)
    && (forall i :: 0 <= i < |c.stack| ==> c.stack[i].base - reach >= env.bound)
  }

  /** Rolling safety, for every call tree and every run, whether or not the activations' own checks will pass, as
      long as the pad covers the reach and no check so far was misled. */
  lemma RollingSafety(p: Program, pad: nat, env: Env, main: nat, sp: nat, n: nat, reach: nat)
    requires Startable(p, pad, env, main, sp) && reach <= pad
    requires ConfigOk(p, Initial(env, main, sp)) && NeverMisled(p, pad, env, Initial(env, main, sp), n)
    ensures RollsSafely(p, pad, env, reach, Run(p, env, Initial(env, main, sp), n))
  {
    AnyWithin(p, env);
    RunSound(p, pad, env, WORD, main, sp, n);
  }

  /** Up to and including the n-th state of the run. */
  ghost predicate AlwaysRight(p: Program, pad: nat, env: Env, start: Config, n: nat)
    requires ProgramOk(p) && ConfigOk(p, start)
  {
    forall m: nat :: m <= n ==> CheckRight(p, pad, env, Run(p, env, start, m))
  }

  /** And the condition is exact: every check of a run lets through what fits and nothing else, if and only if no
      decrement the run executes wraps to at or above the bound. */
  lemma {:induction false} ChecksRightExactly(p: Program, pad: nat, env: Env, main: nat, sp: nat, n: nat)
    requires Startable(p, pad, env, main, sp) && ConfigOk(p, Initial(env, main, sp))
    ensures AlwaysRight(p, pad, env, Initial(env, main, sp), n) <==> NeverMisled(p, pad, env, Initial(env, main, sp), n)
  {
    var start := Initial(env, main, sp);
    if n == 0 {
      OneMoreExactly(p, pad, env, main, sp, n);
    } else {
      ChecksRightExactly(p, pad, env, main, sp, n - 1);
      ToPrevious(p, pad, env, start, n);
      if NeverMisled(p, pad, env, start, n - 1) {
        OneMoreExactly(p, pad, env, main, sp, n);
      }
    }
  }

  lemma ToPrevious(p: Program, pad: nat, env: Env, start: Config, n: nat)
    requires ProgramOk(p) && ConfigOk(p, start) && n > 0
    ensures var c := Run(p, env, start, n);
            && (AlwaysRight(p, pad, env, start, n) <==>
                  AlwaysRight(p, pad, env, start, n - 1) && CheckRight(p, pad, env, c))
            && (NeverMisled(p, pad, env, start, n) <==>
                  NeverMisled(p, pad, env, start, n - 1) && !Misled(p, pad, env, c))
  {
  }

  lemma OneMoreExactly(p: Program, pad: nat, env: Env, main: nat, sp: nat, n: nat)
    requires Startable(p, pad, env, main, sp)
    requires var start := Initial(env, main, sp);
             ConfigOk(p, start) && (n > 0 ==> NeverMisled(p, pad, env, start, n - 1))
    ensures var c := Run(p, env, Initial(env, main, sp), n);
            CheckRight(p, pad, env, c) <==> !Misled(p, pad, env, c)
  {
    AnyWithin(p, env);
    RunSound(p, pad, env, WORD, main, sp, n);
    RightUnlessMisled(p, pad, env, WORD, Run(p, env, Initial(env, main, sp), n));
  }

  /** What a caller can check beforehand: no decrement is larger than the bound's address. */
  ghost predicate Tame(p: Program, env: Env) {
    Within(p, env, env.bound)
  }

  lemma TameNotMisled(p: Program, pad: nat, env: Env, c: Config)
    requires Kept(p, pad, env, env.bound, c)
    ensures !Misled(p, pad, env, c)
  {
  }

  lemma {:induction false} TameNeverMisled(p: Program, pad: nat, env: Env, main: nat, sp: nat, n: nat)
    requires Startable(p, pad, env, main, sp) && Tame(p, env) && ConfigOk(p, Initial(env, main, sp))
    ensures NeverMisled(p, pad, env, Initial(env, main, sp), n)
  {
    var start := Initial(env, main, sp);
    if n == 0 {
    } else {
      TameNeverMisled(p, pad, env, main, sp, n - 1);
      ToPrevious(p, pad, env, start, n);
    }
    RunSound(p, pad, env, env.bound, main, sp, n);
    TameNotMisled(p, pad, env, Run(p, env, start, n));
  }

  lemma TameSound(p: Program, pad: nat, env: Env, main: nat, sp: nat, n: nat)
    requires Startable(p, pad, env, main, sp) && Tame(p, env) && ConfigOk(p, Initial(env, main, sp))
    ensures Sound(p, pad, env, env.bound, Run(p, env, Initial(env, main, sp), n))
  {
    TameNeverMisled(p, pad, env, main, sp, n);
    RunSound(p, pad, env, env.bound, main, sp, n);
  }

  // ---- headroom ----

  /** The stack from an SP down to the configured bottom, which lies `guard` below the bound. */
  function Left(env: Env, guard: nat, sp: int): int {
    sp - (env.bound - guard)
  }

  /** A check fails, and `__morestack` is called, exactly when less than the margin and the pad is left; and even
      then they are left but for the last decrement of SP. */
  ghost predicate HasHeadroom(p: Program, pad: nat, env: Env, guard: nat, c: Config) {
    && ConfigOk(p, c) && c.before < WORD
    && (CheckNext(p, c) ==>
          var c' := Step(p, env, c);
          && c'.sp == c.sp
          && Left(env, guard, RealSp(c)) >= guard + pad - Lowered(c)
          && ConfigOk(p, c') && c'.status.Running?
          && (AtMore(p, Top(c')) <==> Left(env, guard, RealSp(c)) < guard + pad))
  }

  /** The only way to `__morestack` is a check that fails. */
  lemma CheckBranches(p: Program, pad: nat, env: Env, c: Config)
    requires AllChecked(p, pad) && ConfigOk(p, c) && CheckNext(p, c) && ConfigOk(p, Step(p, env, c)) && pad < WORD
    ensures Step(p, env, c).status.Running?
    ensures AtMore(p, Top(Step(p, env, c))) <==> !Passes(c.sp, pad, env.bound)
  {
    CheckHasPad(p, pad, Top(c));
    var f, t := p[Top(c).fn].body, BlockOf(p, Top(c)).term;
    assert Checked(f, pad) && BodyOk(f) && BlockOk(f, f[Top(c).blk]);
    assert Succs(t)[0] == t.ok && t.ok in Succs(t);
    assert Clean(f[t.ok].instrs);
  }

  lemma SafeHeadroom(p: Program, pad: nat, env: Env, limit: nat, guard: nat, c: Config)
    requires AllChecked(p, pad) && Kept(p, pad, env, limit, c) && !Misled(p, pad, env, c)
    ensures HasHeadroom(p, pad, env, guard, c)
  {
    if CheckNext(p, c) {
      StepOk(p, env, c);
      RightUnlessMisled(p, pad, env, limit, c);
      CheckBranches(p, pad, env, c);
    }
  }

  lemma Headroom(p: Program, pad: nat, env: Env, main: nat, sp: nat, n: nat, guard: nat)
    requires Startable(p, pad, env, main, sp)
    requires ConfigOk(p, Initial(env, main, sp)) && NeverMisled(p, pad, env, Initial(env, main, sp), n)
    ensures HasHeadroom(p, pad, env, guard, Run(p, env, Initial(env, main, sp), n))
  {
    AnyWithin(p, env);
    RunSound(p, pad, env, WORD, main, sp, n);
    SafeHeadroom(p, pad, env, WORD, guard, Run(p, env, Initial(env, main, sp), n));
  }

  // ---- a thread without room ----

  /** The first two steps of a thread whose first check fails. */
  lemma FirstCheck(p: Program, pad: nat, env: Env, main: nat, sp: nat)
    requires AllChecked(p, pad) && Defined(p, main) && env.frame(main) + pad <= sp < WORD
    ensures var c := Initial(env, main, sp);
            && ConfigOk(p, c) && CheckNext(p, c) && c.sp == sp - env.frame(main)
            && ConfigOk(p, Step(p, env, c)) && Step(p, env, c).status.Running?
            && (AtMore(p, Top(Step(p, env, c))) <==> !Room(env, pad, c.sp))
            && !CheckNext(p, Step(p, env, c))
  {
    var c := Initial(env, main, sp);
    InitialOk(p, env, main, sp);
    CheckAtEntry(p, pad, main, sp);
    StepOk(p, env, c);
    CheckBranches(p, pad, env, c);
    NoCheckAfterBranch(p, pad, Top(Step(p, env, c)));
  }

  /** The n-th state of a thread whose first check fails. */
  ghost predicate Stopping(p: Program, c: Config, n: nat) {
    && ConfigOk(p, c) && c.trace == [] && !OriginalNext(p, c)
    && (n == 0 ==> CheckNext(p, c))
    && (n == 1 ==> c.status.Running? && AtMore(p, Top(c)) && !CheckNext(p, c))
    && (n >= 2 ==> c.status.Aborted?)
  }

  lemma StoppingOn(p: Program, env: Env, c: Config, n: nat)
    requires ConfigOk(p, c) && Stopping(p, c, n) && n >= 1 && !env.comesBack(c.trace)
    ensures Stopping(p, Step(p, env, c), n + 1)
  {
  }

  lemma StoppingFirst(p: Program, pad: nat, env: Env, main: nat, sp: nat)
    requires AllChecked(p, pad) && Defined(p, main) && env.frame(main) + pad <= sp < WORD && !Room(env, pad, sp)
    ensures var c := Initial(env, main, sp);
            ConfigOk(p, c) && Stopping(p, c, 0) && Stopping(p, Step(p, env, c), 1)
  {
    FirstCheck(p, pad, env, main, sp);
  }

  /** A thread that starts without room runs no original instruction: its first check fails, and that is all. */
  lemma {:induction false} StopsAtOnce(p: Program, pad: nat, env: Env, main: nat, sp: nat, n: nat)
    requires AllChecked(p, pad) && NeverComesBack(env) && Defined(p, main) && env.frame(main) + pad <= sp < WORD
    requires !Room(env, pad, sp) && ConfigOk(p, Initial(env, main, sp))
    ensures Stopping(p, Run(p, env, Initial(env, main, sp), n), n)
  {
    StoppingFirst(p, pad, env, main, sp);
    if n == 0 {
    } else {
      StopsAtOnce(p, pad, env, main, sp, n - 1);
      var d, _ := RunNext(p, env, Initial(env, main, sp), n - 1);
      if n > 1 {
        StoppingOn(p, env, d, n - 1);
      }
    }
  }
}
