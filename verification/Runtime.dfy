/** The runtime's bounds, and how deep a thread gets with them. */
module Runtime {
  import opened Numbers
  import opened StackIR
  import opened SplitStackPass
  import opened CheckCoverage
  import S = StackSafety

  const GUARD_MARGIN: nat := 8 * 1024
  const DEFAULT_MAX_STACK_BYTES: nat := 2 * 1024 * 1024

  /** HOPTER_MAX_STACK_KB as `strtoul` reads it, or None where it is unset or empty. */
  function MaxStackBytes(kb: Option<nat>): nat {
    if kb.Some? && kb.value > 0 then Word(kb.value * 1024) else DEFAULT_MAX_STACK_BYTES
  }

  /** `sp - s_max_stack_bytes + kGuardMargin` on 64-bit words. */
  function StackBound(sp: nat, maxStack: nat): nat {
    (sp - maxStack + GUARD_MARGIN) % WORD
  }

  class StackRuntime {
    var initSp: nat
    var maxStackBytes: nat
    var bounds: map<nat, nat>   // __hopter_stklet_bound, by thread

    /** Before the constructor has run: static storage is zero. */
    constructor ()
      ensures initSp == 0 && maxStackBytes == 0 && bounds == map[]
    {
      initSp, maxStackBytes, bounds := 0, 0, map[];
    }

    /** `__split_stack_ctor`, in thread t. */
    method Ctor(t: nat, sp: nat, kb: Option<nat>)
      requires sp < WORD && (kb.Some? ==> kb.value < WORD)
      modifies this
      ensures initSp == sp && maxStackBytes == MaxStackBytes(kb)
      ensures bounds == old(bounds)[t := StackBound(sp, MaxStackBytes(kb))]
      // no setting, or one that reads as 0: 2 MiB, less 8 KiB
      ensures kb == None || kb == Some(0) ==> maxStackBytes == 2097152 && (sp >= 2088960 ==> bounds[t] == sp - 2088960)
      // any other setting below 2^54, in a stack inside the address space
      ensures kb.Some? && 0 < kb.value < 0x40_0000_0000_0000 ==>
                maxStackBytes == kb.value * 1024 &&
                (0 <= sp - kb.value * 1024 + 8192 < WORD ==> bounds[t] == sp - kb.value * 1024 + 8192)
    {
      initSp := sp;
      maxStackBytes := DEFAULT_MAX_STACK_BYTES;
      if kb.Some? {
        if kb.value > 0 {
          maxStackBytes := (kb.value * 1024) % WORD;
        }
      }
      bounds := bounds[t := WrapBound(sp)];
    }

    /** `thread_trampoline`, in the new thread t. */
    method Trampoline(t: nat, sp: nat)
      requires sp < WORD && maxStackBytes < WORD
      modifies this
      ensures bounds == old(bounds)[t := StackBound(sp, maxStackBytes)]
      ensures 0 <= sp - maxStackBytes + 8192 < WORD ==> bounds[t] == sp - maxStackBytes + 8192
      ensures initSp == old(initSp) && maxStackBytes == old(maxStackBytes)
    {
      bounds := bounds[t := WrapBound(sp)];
    }

    /** The two operations one after the other, each on a word. */
    function WrapBound(sp: nat): (b: nat)
      requires sp < WORD && maxStackBytes < WORD
      reads this
      ensures b == StackBound(sp, maxStackBytes)
    {
      (WrapSub(sp, maxStackBytes) + GUARD_MARGIN) % WORD
    }
  }

  /** The bound is the margin above the stack's configured bottom if and only if neither the bottom nor the bound
      leaves the address space. */
  lemma BoundExact(sp: nat, maxStack: nat)
    requires sp < WORD && maxStack < WORD
    ensures StackBound(sp, maxStack) == sp - maxStack + GUARD_MARGIN <==> 0 <= sp - maxStack + GUARD_MARGIN < WORD
  {
  }

  /** A thread starts with room for the pad if and only if the margin and the pad fit in its stack and the stack in
      the address space; or SP is so high that the bound wraps around to below the pad. */
  lemma StartsWithRoom(env: Env, sp: nat, maxStack: nat, pad: nat)
    requires sp < WORD && maxStack < WORD && env.bound == StackBound(sp, maxStack)
    ensures S.Room(env, pad, sp) <==>
              || GUARD_MARGIN + pad <= maxStack <= sp + GUARD_MARGIN
              || (sp - maxStack + GUARD_MARGIN >= WORD && maxStack + WORD >= GUARD_MARGIN + pad)
  {
  }

  const KB_LIMIT: nat := 0x40_0000_0000_0000 // 2^54

  /** The setting is multiplied exactly if and only if it is less than 2^54 KiB. */
  lemma SettingExact(kb: nat)
    requires 0 < kb < WORD
    ensures MaxStackBytes(Some(kb)) == kb * 1024 <==> kb < KB_LIMIT
    ensures MaxStackBytes(Some(kb)) == 1024 * (kb % KB_LIMIT)
  {
    assert KB_LIMIT * 1024 == WORD;
    assert kb * 1024 == (kb / KB_LIMIT) * WORD + 1024 * (kb % KB_LIMIT);
    RemainderUnique(kb * 1024, WORD, kb / KB_LIMIT, 1024 * (kb % KB_LIMIT));
  }

  /** Without a setting, or with one that reads as 0, a thread with at least 2 MiB less the margin below its SP
      starts with room, whatever pad fits there. */
  lemma DefaultWorks(env: Env, sp: nat, kb: Option<nat>, pad: nat)
    requires (kb == None || kb == Some(0)) && 2088960 <= sp < WORD && env.bound == StackBound(sp, MaxStackBytes(kb))
    ensures MaxStackBytes(kb) == 2097152 && env.bound == sp - 2088960
    ensures S.Room(env, pad, sp) <==> pad <= 2088960
  {
    StartsWithRoom(env, sp, MaxStackBytes(kb), pad);
  }

  /** For every setting, in every thread whose bound does not wrap upwards: it gives room to start if and only if what
      is left of it modulo 2^54 KiB covers the margin and the pad, and is not more than there are addresses. */
  lemma SettingsThatWork(env: Env, sp: nat, kb: nat, pad: nat)
    requires 0 < kb < WORD && sp < WORD - GUARD_MARGIN && env.bound == StackBound(sp, MaxStackBytes(Some(kb)))
    ensures S.Room(env, pad, sp) <==> GUARD_MARGIN + pad <= 1024 * (kb % KB_LIMIT) <= sp + GUARD_MARGIN
  {
    SettingExact(kb);
    StartsWithRoom(env, sp, MaxStackBytes(Some(kb)), pad);
  }

  /** The smallest setting that wraps to no stack at all. */
  lemma HugeSettingWraps(sp: nat, pad: nat)
    requires 0x1000 + pad <= sp < WORD - GUARD_MARGIN
    ensures MaxStackBytes(Some(KB_LIMIT)) == 0
    ensures !Passes(sp, pad, StackBound(sp, MaxStackBytes(Some(KB_LIMIT))))
  {
    SettingExact(KB_LIMIT);
  }

  // ---- a thread under its bound ----

  /** A thread whose bound the runtime has set, with the bound inside the address space. The stack may be of any
      size, even smaller than the margin. */
  predicate Bounded(env: Env, sp: nat, maxStack: nat) {
    && sp < WORD && maxStack < WORD
    && 0 <= sp - maxStack + GUARD_MARGIN < WORD
    && env.bound == StackBound(sp, maxStack)
  }

  /** A setting that is too small, such as any of 1 to 8 KiB, stops every thread at its first check, before any
      original instruction; a setting that is large enough lets it start with room. */
  lemma ThreadStarts(p: Program, pad: nat, env: Env, main: nat, sp: nat, maxStack: nat, n: nat)
    requires S.AllChecked(p, pad) && S.NeverComesBack(env) && Defined(p, main) && env.frame(main) + pad <= sp
    requires Bounded(env, sp, maxStack)
    ensures S.Startable(p, pad, env, main, sp) <==> GUARD_MARGIN + pad <= maxStack
    ensures ConfigOk(p, Initial(env, main, sp))
    ensures maxStack < GUARD_MARGIN + pad ==>
              var c := Run(p, env, Initial(env, main, sp), n);
              c.trace == [] && !S.OriginalNext(p, c) && (n >= 2 ==> c.status.Aborted?)
  {
    StartsWithRoom(env, sp, maxStack, pad);
    BoundExact(sp, maxStack);
    InitialOk(p, env, main, sp);
    if maxStack < GUARD_MARGIN + pad {
      S.StopsAtOnce(p, pad, env, main, sp, n);
    }
  }

  /** A thread that starts with room is safe throughout, as long as no executed decrement misleads a check: its
      prologues write above the bound, its own code runs with the pad above it, and where a check fails the margin
      and the pad are left but for the last decrement. The stack's configured bottom is the margin below the bound. */
  lemma ThreadSafety(p: Program, pad: nat, env: Env, main: nat, sp: nat, maxStack: nat, n: nat, reach: nat)
    requires S.AllChecked(p, pad) && S.NeverComesBack(env) && Defined(p, main)
    requires Bounded(env, sp, maxStack) && GUARD_MARGIN + pad <= maxStack && reach <= pad
    requires ConfigOk(p, Initial(env, main, sp)) && S.NeverMisled(p, pad, env, Initial(env, main, sp), n)
    ensures S.RollsSafely(p, pad, env, reach, Run(p, env, Initial(env, main, sp), n))
    ensures S.HasHeadroom(p, pad, env, GUARD_MARGIN, Run(p, env, Initial(env, main, sp), n))
    ensures S.Left(env, GUARD_MARGIN, sp) == maxStack
  {
    StartsWithRoom(env, sp, maxStack, pad);
    BoundExact(sp, maxStack);
    S.RollingSafety(p, pad, env, main, sp, n, reach);
    S.Headroom(p, pad, env, main, sp, n, GUARD_MARGIN);
  }

  // ---- frames of one size ----

  ghost predicate NoAllocas(p: Program) {
    forall k, id :: 0 <= k < |p| ==> !HasAlloca(p[k].body, id)
  }

  /** SP goes down by one frame per activation. */
  ghost predicate Stepped(size: nat, sp: nat, c: Config) {
    && (forall i :: 0 <= i < |c.stack| ==> c.stack[i].base + i * size == sp)
    && (c.status.Running? ==> c.sp + |c.stack| * size == sp)
  }

  lemma EnterStepped(env: Env, size: nat, sp: nat, c: Config, fn: nat)
    requires c.sp < WORD && size <= c.sp && env.frame(fn) == size && c.status.Running? && Stepped(size, sp, c)
    ensures Stepped(size, sp, Enter(env, c, fn))
  {
    assert (|c.stack| + 1) * size == |c.stack| * size + size;
  }

  lemma StepStepped(p: Program, pad: nat, env: Env, size: nat, sp: nat, c: Config)
    requires S.AllChecked(p, pad) && NoAllocas(p) && (forall fn :: env.frame(fn) == size) && size <= env.bound
    requires S.Sound(p, pad, env, env.bound, c) && Stepped(size, sp, c)
    ensures Stepped(size, sp, Step(p, env, c))
  {
    if c.status.Running? {
      if Top(c).pos < |BlockOf(p, Top(c)).instrs| {
        InstrStepped(p, pad, env, size, sp, c);
      } else {
        TermStepped(p, env, size, sp, c);
      }
    }
  }

  lemma NoAllocaHere(p: Program, fr: Frame)
    requires NoAllocas(p) && FrameOk(p, fr) && fr.pos < |BlockOf(p, fr).instrs|
    ensures !BlockOf(p, fr).instrs[fr.pos].Alloca?
  {
    var i := BlockOf(p, fr).instrs[fr.pos];
    if i.Alloca? {
      assert AllocaAt(p[fr.fn].body, fr.blk, fr.pos, i.id);
      assert HasAlloca(p[fr.fn].body, i.id);
    }
  }

  lemma MoveStepped(size: nat, sp: nat, c: Config, e: Event)
    requires c.stack != [] && Stepped(size, sp, c)
    ensures Stepped(size, sp, Advance(c)) && Stepped(size, sp, Emit(Advance(c), e))
  {
    assert forall i :: 0 <= i < |c.stack| ==> Advance(c).stack[i].base == c.stack[i].base;
  }

  lemma CallStepped(p: Program, env: Env, size: nat, sp: nat, c: Config)
    requires ConfigOk(p, c) && c.status.Running? && Top(c).pos < |BlockOf(p, Top(c)).instrs|
    requires BlockOf(p, Top(c)).instrs[Top(c).pos].Call?
    requires Stepped(size, sp, c) && (forall fn :: env.frame(fn) == size) && size <= c.sp
    ensures Stepped(size, sp, Step(p, env, c))
  {
    var i := BlockOf(p, Top(c)).instrs[Top(c).pos];
    var c' := Emit(Advance(c), Called(i.id));
    MoveStepped(size, sp, c, Called(i.id));
    CallSteps(p, env, c);
    if Defined(p, i.callee) {
      EnterStepped(env, size, sp, c', i.callee);
    }
  }

  lemma InstrStepped(p: Program, pad: nat, env: Env, size: nat, sp: nat, c: Config)
    requires S.AllChecked(p, pad) && NoAllocas(p) && (forall fn :: env.frame(fn) == size) && size <= env.bound
    requires S.Sound(p, pad, env, env.bound, c) && Stepped(size, sp, c)
    requires c.status.Running? && Top(c).pos < |BlockOf(p, Top(c)).instrs|
    ensures Stepped(size, sp, Step(p, env, c))
  {
    var i := BlockOf(p, Top(c)).instrs[Top(c).pos];
    NoAllocaHere(p, Top(c));
    if i.Call? {
      CallStepped(p, env, size, sp, c);
    } else if i.Morestack? {
      MoveStepped(size, sp, c, Returned);
    } else {
      MoveStepped(size, sp, c, if i.Phi? then TookPhi(i.id, IndexOf(i.incoming, Top(c).prev)) else Did(i.id));
    }
  }

  lemma TermStepped(p: Program, env: Env, size: nat, sp: nat, c: Config)
    requires ConfigOk(p, c) && c.status.Running? && Top(c).pos == |BlockOf(p, Top(c)).instrs|
    requires Stepped(size, sp, c)
    ensures Stepped(size, sp, Step(p, env, c))
  {
    var t := BlockOf(p, Top(c)).term;
    if !t.Ret? {
      var c' := Step(p, env, c);
      assert forall i :: 0 <= i < |c.stack| ==> c'.stack[i].base == c.stack[i].base;
    }
  }

  /** The check of the d-th activation, counted from the thread's first, passes exactly when d frames and the pad
      fit between the margin and the top of the stack; and only then does its own code run. */
  ghost predicate DeepAsItFits(p: Program, pad: nat, env: Env, size: nat, maxStack: nat, c: Config) {
    && ConfigOk(p, c)
    && (S.CheckNext(p, c) ==>
          (Passes(c.sp, Word(pad), env.bound) <==> |c.stack| * size + pad <= maxStack - GUARD_MARGIN))
    && (S.OriginalNext(p, c) ==> |c.stack| * size + pad <= maxStack - GUARD_MARGIN)
  }

  lemma StateDeepAsItFits(p: Program, pad: nat, env: Env, size: nat, sp: nat, maxStack: nat, c: Config)
    requires S.Kept(p, pad, env, env.bound, c) && Stepped(size, sp, c) && Bounded(env, sp, maxStack)
    requires pad < WORD
    ensures DeepAsItFits(p, pad, env, size, maxStack, c)
  {
    BoundExact(sp, maxStack);
    if S.CheckNext(p, c) {
      S.TameNotMisled(p, pad, env, c);
      S.RightUnlessMisled(p, pad, env, env.bound, c);
      DeepRealSp(p, pad, env, size, sp, c);
    }
  }

  /** In a tame run SP is where it really is. */
  lemma DeepRealSp(p: Program, pad: nat, env: Env, size: nat, sp: nat, c: Config)
    requires S.Kept(p, pad, env, env.bound, c) && S.CheckNext(p, c)
    ensures S.RealSp(c) == c.sp
  {
  }

  lemma StartStepped(p: Program, env: Env, main: nat, sp: nat)
    requires sp < WORD && env.frame(main) <= sp
    ensures Stepped(env.frame(main), sp, Initial(env, main, sp))
  {
  }

  lemma UniformTame(p: Program, env: Env, size: nat)
    requires NoAllocas(p) && (forall fn :: env.frame(fn) == size) && size <= env.bound < WORD
    ensures S.Tame(p, env)
  {
  }

  /** With room to start. */
  lemma {:induction false} DepthWithRoom(p: Program, pad: nat, env: Env, main: nat, sp: nat, size: nat, n: nat)
    requires S.Startable(p, pad, env, main, sp) && S.Tame(p, env) && NoAllocas(p) && size <= env.bound
    requires (forall fn :: env.frame(fn) == size) && ConfigOk(p, Initial(env, main, sp))
    ensures Stepped(size, sp, Run(p, env, Initial(env, main, sp), n))
  {
    if n == 0 {
      assert env.frame(main) == size;
      StartStepped(p, env, main, sp);
    } else {
      DepthWithRoom(p, pad, env, main, sp, size, n - 1);
      S.TameSound(p, pad, env, main, sp, n - 1);
      var d, _ := RunNext(p, env, Initial(env, main, sp), n - 1);
      StepStepped(p, pad, env, size, sp, d);
    }
  }

  /** Without: the first check is the only one, and fails. */
  lemma DepthWithoutRoom(p: Program, pad: nat, env: Env, main: nat, sp: nat, maxStack: nat, size: nat, n: nat)
    requires S.AllChecked(p, pad) && S.NeverComesBack(env) && Defined(p, main) && Bounded(env, sp, maxStack)
    requires env.frame(main) == size && size + pad <= sp && maxStack < GUARD_MARGIN + pad
    requires ConfigOk(p, Initial(env, main, sp))
    ensures DeepAsItFits(p, pad, env, size, maxStack, Run(p, env, Initial(env, main, sp), n))
  {
    StartsWithRoom(env, sp, maxStack, pad);
    BoundExact(sp, maxStack);
    S.FirstCheck(p, pad, env, main, sp);
    S.StopsAtOnce(p, pad, env, main, sp, n);
    if n == 0 {
      assert |Initial(env, main, sp).stack| * size == size;
    }
  }

  /** In every run of functions without allocas whose frames are all of one size, whatever the size of the stack. */
  lemma DepthOfFrames(p: Program, pad: nat, env: Env, main: nat, sp: nat, maxStack: nat, size: nat, n: nat)
    requires S.AllChecked(p, pad) && S.NeverComesBack(env) && Defined(p, main) && NoAllocas(p)
    requires Bounded(env, sp, maxStack) && size + pad <= sp && size <= env.bound
    requires forall fn :: env.frame(fn) == size
    ensures ConfigOk(p, Initial(env, main, sp))
    ensures DeepAsItFits(p, pad, env, size, maxStack, Run(p, env, Initial(env, main, sp), n))
  {
    InitialOk(p, env, main, sp);
    assert env.frame(main) == size;
    if maxStack < GUARD_MARGIN + pad {
      DepthWithoutRoom(p, pad, env, main, sp, maxStack, size, n);
    } else {
      StartsWithRoom(env, sp, maxStack, pad);
      UniformTame(p, env, size);
      S.TameSound(p, pad, env, main, sp, n);
      DepthWithRoom(p, pad, env, main, sp, size, n);
      StateDeepAsItFits(p, pad, env, size, sp, maxStack, Run(p, env, Initial(env, main, sp), n));
    }
  }

  /** All checks of a chain of d such frames pass if and only if the last one does. */
  lemma ChainPasses(size: nat, pad: nat, room: int, d: nat)
    requires d >= 1
    ensures (forall i: nat {:trigger i * size} :: 1 <= i <= d ==> i * size + pad <= room) <==> d * size + pad <= room
  {
    forall i: nat | 1 <= i <= d ensures i * size <= d * size {
      assert (d - i) * size + i * size == d * size;
    }
  }
}
