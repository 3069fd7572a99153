/**
 The instrumentation of a function: a check at entry, and one after every alloca.
 */
module SplitStackPass {
  import opened Numbers
  import opened StackIR
  import opened Simulation
  import opened Rewriting

  const FRAME_PADDING: nat := 128

  /** `(kFramePadding + ClExtraPad + 15) & ~15`. */
  function FramePad(extraPad: nat): nat
    requires extraPad < 0x1_0000_0000
  {
    BitAnd(FRAME_PADDING + extraPad + 15, BitNot(15))
  }

  /** The pad is the least multiple of 16 that covers 128 bytes and what was asked for: 128 if that was nothing. */
  lemma FramePadRounds(extraPad: nat)
    requires extraPad < 0x1_0000_0000
    ensures IsRoundUp(128 + extraPad, 16, FramePad(extraPad))
    ensures extraPad == 0 ==> FramePad(extraPad) == 128
  {
    assert Pow2(4) == 16;
    MaskUpRounds(FRAME_PADDING + extraPad, 4);
  }

  predicate StartsWith(s: string, prefix: string) {
    prefix <= s
  }

  predicate ShouldSkip(f: Function) {
    || f.declaration
    || f.noSplitStack
    || f.naked
    || StartsWith(f.name, "__morestack")
    || StartsWith(f.name, "__split_stack")
    || f.name == "__hopter_stklet_bound"
  }

  // ---- what the rewriting is, on values ----

  /** The entry block is split before its first instruction, and its branch checked. */
  function CheckEntry(f: seq<Block>, pad: nat): seq<Block>
    requires BodyOk(f)
  {
    Guard(Split(f, 0, 0), 0, pad)
  }

  predicate AllocaAt(f: seq<Block>, b: int, pos: int, id: nat) {
    0 <= b < |f| && 0 <= pos < |f[b].instrs| && f[b].instrs[pos].Alloca? && f[b].instrs[pos].id == id
  }

  /** An alloca's block is split before and after the alloca, and the branch between is checked. */
  function CheckAlloca(f: seq<Block>, b: nat, pos: nat, pad: nat): seq<Block>
    requires b < |f| && pos < |f[b].instrs|
  {
    Guard(Split(Split(f, b, pos), |f|, 1), |f|, pad)
  }

  /** g is f with the allocas of the worklist checked, one after the other. */
  ghost predicate Rewrites(f: seq<Block>, ids: seq<nat>, pad: nat, g: seq<Block>)
    decreases |ids|
  {
    if ids == [] then g == f
    else
      var n := |ids| - 1;
      exists h, b: nat, pos: nat ::
        Rewrites(f, ids[..n], pad, h) && AllocaAt(h, b, pos, ids[n]) && g == CheckAlloca(h, b, pos, pad)
  }

  /** LLVM's `isStaticAlloca`: in the entry block, of constant size. */
  predicate IsStaticAlloca(b: nat, i: Instr) {
    i.Alloca? && b == 0 && i.constantSize
  }

  /** The worklist's part from one block. */
  function DynAllocasIn(b: nat, instrs: seq<Instr>): seq<nat> {
    if instrs == [] then []
    else
      var n := |instrs| - 1;
      DynAllocasIn(b, instrs[..n]) +
      if instrs[n].Alloca? && !IsStaticAlloca(b, instrs[n]) then [instrs[n].id] else []
  }

  function DynAllocas(f: seq<Block>): seq<nat> {
    if f == [] then []
    else DynAllocas(f[..|f| - 1]) + DynAllocasIn(|f| - 1, f[|f| - 1].instrs)
  }

  /** What `instrumentFunction` makes of a body. */
  ghost predicate Instruments(f: seq<Block>, pad: nat, g: seq<Block>)
    requires BodyOk(f)
  {
    var e := CheckEntry(f, pad);
    Rewrites(e, DynAllocas(e), pad, g)
  }

  // ---- the rewriting preserves meaning ----

  /** In every program, every world and every run, putting g in f's place preserves meaning. */
  ghost predicate SameMeaning(f: seq<Block>, g: seq<Block>) {
    && BodyOk(g)
    && forall p: Program, k: nat, env: Env, main: nat, sp: nat ::
         Placed(p, k, f, main, sp) ==> Preserves(p, WithBody(p, k, g), env, Initial(env, main, sp))
  }

  predicate Placed(p: Program, k: nat, f: seq<Block>, main: nat, sp: nat) {
    ProgramOk(p) && Defined(p, k) && p[k].body == f && Defined(p, main) && sp < WORD
  }

  lemma MeaningOn(f: seq<Block>, g: seq<Block>, h: seq<Block>)
    requires SameMeaning(f, g) && SameMeaning(g, h)
    ensures SameMeaning(f, h)
  {
    forall p: Program, k: nat, env: Env, main: nat, sp: nat | Placed(p, k, f, main, sp)
      ensures Preserves(p, WithBody(p, k, h), env, Initial(env, main, sp))
    {
      var q := WithBody(p, k, g);
      WithBodyOk(p, k, g);
      assert Placed(q, k, g, main, sp);
      assert WithBody(q, k, h) == WithBody(p, k, h);
      PreservesOn(p, q, WithBody(p, k, h), env, Initial(env, main, sp));
    }
  }

  lemma SplitMeaning(f: seq<Block>, b: nat, pos: nat)
    requires SplitFits(f, b, pos)
    ensures SameMeaning(f, Split(f, b, pos))
  {
    SplitOk(f, b, pos);
    forall p: Program, k: nat, env: Env, main: nat, sp: nat | Placed(p, k, f, main, sp)
      ensures Preserves(p, WithBody(p, k, Split(f, b, pos)), env, Initial(env, main, sp))
    {
      SplitPreserves(p, env, k, b, pos, main, sp);
    }
  }

  lemma GuardMeaning(f: seq<Block>, b: nat, pad: nat)
    requires GuardFits(f, b)
    ensures SameMeaning(f, Guard(f, b, pad))
  {
    GuardOk(f, b, pad);
    forall p: Program, k: nat, env: Env, main: nat, sp: nat | Placed(p, k, f, main, sp)
      ensures Preserves(p, WithBody(p, k, Guard(f, b, pad)), env, Initial(env, main, sp))
    {
      GuardPreserves(p, env, k, b, pad, main, sp);
    }
  }

  lemma EntryFits(f: seq<Block>)
    requires BodyOk(f)
    ensures SplitFits(f, 0, 0) && GuardFits(Split(f, 0, 0), 0)
  {
    SplitOk(f, 0, 0);
    var g := Split(f, 0, 0);
    assert f[0].instrs[0..] == f[0].instrs;
    assert BlockOk(f, f[0]);
    assert g[0].term == Br(|f|);
  }

  lemma EntryMeaning(f: seq<Block>, pad: nat)
    requires BodyOk(f)
    ensures SameMeaning(f, CheckEntry(f, pad))
  {
    EntryFits(f);
    SplitMeaning(f, 0, 0);
    GuardMeaning(Split(f, 0, 0), 0, pad);
    MeaningOn(f, Split(f, 0, 0), CheckEntry(f, pad));
  }

  lemma AllocaFits(f: seq<Block>, b: nat, pos: nat, id: nat)
    requires BodyOk(f) && AllocaAt(f, b, pos, id)
    ensures SplitFits(f, b, pos)
    ensures SplitFits(Split(f, b, pos), |f|, 1)
    ensures GuardFits(Split(Split(f, b, pos), |f|, 1), |f|)
  {
    assert BlockOk(f, f[b]);
    assert NoPhis(f[b].instrs[pos..]);
    SplitOk(f, b, pos);
    var g := Split(f, b, pos);
    assert BlockOk(g, g[|f|]);
    SplitOk(g, |f|, 1);
    var h := Split(g, |f|, 1);
    assert |f| !in Succs(g[|f|].term);
    assert h[|f|].term == Br(|f| + 1);
    assert h[|f| + 1].instrs == g[|f|].instrs[1..];
  }

  lemma AllocaMeaning(f: seq<Block>, b: nat, pos: nat, id: nat, pad: nat)
    requires BodyOk(f) && AllocaAt(f, b, pos, id)
    ensures SameMeaning(f, CheckAlloca(f, b, pos, pad))
  {
    AllocaFits(f, b, pos, id);
    var g := Split(f, b, pos);
    var h := Split(g, |f|, 1);
    SplitMeaning(f, b, pos);
    SplitMeaning(g, |f|, 1);
    GuardMeaning(h, |f|, pad);
    MeaningOn(f, g, h);
    MeaningOn(f, h, Guard(h, |f|, pad));
  }

  lemma MeaningItself(f: seq<Block>)
    requires BodyOk(f)
    ensures SameMeaning(f, f)
  {
    forall p: Program, k: nat, env: Env, main: nat, sp: nat | Placed(p, k, f, main, sp)
      ensures Preserves(p, WithBody(p, k, f), env, Initial(env, main, sp))
    {
      assert WithBody(p, k, f) == p;
      InitialOk(p, env, main, sp);
      PreservesItself(p, env, Initial(env, main, sp));
    }
  }

  lemma {:induction false} RewritingMeaning(f: seq<Block>, ids: seq<nat>, pad: nat, g: seq<Block>)
    requires BodyOk(f) && Rewrites(f, ids, pad, g)
    ensures SameMeaning(f, g)
    decreases |ids|
  {
    if ids == [] {
      MeaningItself(f);
    } else {
      var n := |ids| - 1;
      var h, b: nat, pos: nat :|
        Rewrites(f, ids[..n], pad, h) && AllocaAt(h, b, pos, ids[n]) && g == CheckAlloca(h, b, pos, pad);
      RewritingMeaning(f, ids[..n], pad, h);
      AllocaMeaning(h, b, pos, ids[n], pad);
      MeaningOn(f, h, g);
    }
  }

  /** The instrumentation preserves meaning: for every function, in every program and on every input, with
      several allocas in one block or allocas in loops. */
  lemma InstrumentationMeaning(f: seq<Block>, pad: nat, g: seq<Block>)
    requires BodyOk(f) && Instruments(f, pad, g)
    ensures SameMeaning(f, g)
  {
    EntryMeaning(f, pad);
    var e := CheckEntry(f, pad);
    RewritingMeaning(e, DynAllocas(e), pad, g);
    MeaningOn(f, e, g);
  }
}
