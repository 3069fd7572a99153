/** The pass at work on a module, in place, and what it makes of a whole program. */
module PassObjects {
  import opened Numbers
  import opened StackIR
  import opened Simulation
  import opened Rewriting
  import opened SplitStackPass
  import opened CheckCoverage

  /** A module as the pass finds it: LLVM has verified it, and declarations are the functions without a body. */
  predicate ModuleOk(p: Program) {
    ProgramOk(p) && forall k :: 0 <= k < |p| ==> (p[k].declaration <==> p[k].body == [])
  }

  /** The functions the pass leaves alone, by their own attributes and names: those without a body, those marked
      no-split-stack or naked, the bound's own, and the runtime's, `__morestack...` and `__split_stack...`. */
  ghost predicate LeftAlone(f: Function) {
    || f.declaration
    || f.noSplitStack
    || f.naked
    || f.name == "__hopter_stklet_bound"
    || (exists rest: string :: f.name == "__morestack" + rest)
    || (exists rest: string :: f.name == "__split_stack" + rest)
  }

  lemma PrefixRest(s: string, prefix: string)
    ensures StartsWith(s, prefix) <==> exists rest: string :: s == prefix + rest
  {
    if StartsWith(s, prefix) {
      assert s == prefix + s[|prefix|..];
    }
  }

  lemma SkipsExactly(f: Function)
    ensures ShouldSkip(f) <==> LeftAlone(f)
  {
    PrefixRest(f.name, "__morestack");
    PrefixRest(f.name, "__split_stack");
  }

  /** What one function becomes. */
  ghost predicate Instrumented(f: Function, pad: nat, g: Function) {
    if ShouldSkip(f) then g == f
    else BodyOk(f.body) && g == f.(body := g.body) && Instruments(f.body, pad, g.body)
  }

  /** What a module becomes. */
  ghost predicate AllInstrumented(p: Program, pad: nat, q: Program) {
    |q| == |p| && forall k :: 0 <= k < |p| ==> Instrumented(p[k], pad, q[k])
  }

  // ---- whole modules keep their meaning ----

  lemma InstrumentedDefined(p: Program, pad: nat, q: Program)
    requires ModuleOk(p) && AllInstrumented(p, pad, q)
    ensures ProgramOk(q)
    ensures forall fn :: Defined(p, fn) <==> Defined(q, fn)
  {
    forall k | 0 <= k < |p|
      ensures p[k].body == [] <==> q[k].body == []
      ensures q[k].body != [] ==> BodyOk(q[k].body)
    {
      assert Instrumented(p[k], pad, q[k]);
      if !ShouldSkip(p[k]) {
        InstrumentationMeaning(p[k].body, pad, q[k].body);
      }
    }
  }

  /** The first n functions instrumented, the others still to do. */
  lemma {:induction false} PrefixMeaning(p: Program, pad: nat, q: Program, n: nat, env: Env, main: nat, sp: nat)
    requires ModuleOk(p) && AllInstrumented(p, pad, q) && n <= |p| && Defined(p, main) && sp < WORD
    ensures ProgramOk(q[..n] + p[n..])
    ensures Preserves(p, q[..n] + p[n..], env, Initial(env, main, sp))
  {
    if n == 0 {
      assert q[..n] + p[n..] == p;
      InitialOk(p, env, main, sp);
      PreservesItself(p, env, Initial(env, main, sp));
    } else {
      var k := n - 1;
      PrefixMeaning(p, pad, q, k, env, main, sp);
      OneMoreMeaning(p, pad, q, k, env, main, sp);
    }
  }

  lemma ReplacedMeaning(p: Program, r: Program, k: nat, f: seq<Block>, g: seq<Block>, env: Env, main: nat, sp: nat)
    requires SameMeaning(f, g) && Placed(r, k, f, main, sp) && Preserves(p, r, env, Initial(env, main, sp))
    ensures ProgramOk(WithBody(r, k, g))
    ensures Preserves(p, WithBody(r, k, g), env, Initial(env, main, sp))
  {
    WithBodyOk(r, k, g);
    PreservesOn(p, r, WithBody(r, k, g), env, Initial(env, main, sp));
  }

  lemma NextPlaced(p: Program, pad: nat, q: Program, k: nat, main: nat, sp: nat)
    requires ModuleOk(p) && AllInstrumented(p, pad, q) && k < |p| && Defined(p, main) && sp < WORD
    requires ProgramOk(q[..k] + p[k..]) && !ShouldSkip(p[k])
    ensures Placed(q[..k] + p[k..], k, p[k].body, main, sp)
  {
    MixedDefined(p, pad, q, k, main);
    MixedDefined(p, pad, q, k, k);
  }

  lemma MixedDefined(p: Program, pad: nat, q: Program, k: nat, fn: nat)
    requires ModuleOk(p) && AllInstrumented(p, pad, q) && k < |p| && fn < |p|
    ensures var r := q[..k] + p[k..];
            r[fn] == (if fn < k then q[fn] else p[fn]) && (Defined(r, fn) <==> Defined(p, fn))
  {
    InstrumentedDefined(p, pad, q);
    assert Defined(p, fn) <==> Defined(q, fn);
  }

  lemma MixedNext(p: Program, pad: nat, q: Program, k: nat)
    requires AllInstrumented(p, pad, q) && k < |p|
    ensures var r := q[..k] + p[k..];
            q[..k + 1] + p[k + 1..] == if ShouldSkip(p[k]) then r else WithBody(r, k, q[k].body)
  {
    var r := q[..k] + p[k..];
    assert Instrumented(p[k], pad, q[k]);
    assert q[..k + 1] + p[k + 1..] == r[k := q[k]];
  }

  lemma OneMoreMeaning(p: Program, pad: nat, q: Program, k: nat, env: Env, main: nat, sp: nat)
    requires ModuleOk(p) && AllInstrumented(p, pad, q) && k < |p| && Defined(p, main) && sp < WORD
    requires ProgramOk(q[..k] + p[k..]) && Preserves(p, q[..k] + p[k..], env, Initial(env, main, sp))
    ensures ProgramOk(q[..k + 1] + p[k + 1..])
    ensures Preserves(p, q[..k + 1] + p[k + 1..], env, Initial(env, main, sp))
  {
    var r := q[..k] + p[k..];
    assert Instrumented(p[k], pad, q[k]);
    MixedNext(p, pad, q, k);
    if !ShouldSkip(p[k]) {
      InstrumentationMeaning(p[k].body, pad, q[k].body);
      NextPlaced(p, pad, q, k, main, sp);
      ReplacedMeaning(p, r, k, p[k].body, q[k].body, env, main, sp);
    }
  }

  /** A module keeps its meaning: whatever is instrumented and whatever skipped, on every input. */
  lemma ModuleMeaning(p: Program, pad: nat, q: Program, env: Env, main: nat, sp: nat)
    requires ModuleOk(p) && AllInstrumented(p, pad, q) && Defined(p, main) && sp < WORD
    ensures Preserves(p, q, env, Initial(env, main, sp))
  {
    PrefixMeaning(p, pad, q, |p|, env, main, sp);
    assert q[..|p|] + p[|p|..] == q;
  }

  /** Every function that is not skipped, and that has not been through the pass before, is checked throughout. */
  lemma ModuleCovered(p: Program, pad: nat, q: Program, k: nat)
    requires ModuleOk(p) && AllInstrumented(p, pad, q) && k < |p| && !ShouldSkip(p[k]) && Plain(p[k].body)
    ensures Checked(q[k].body, pad) && SameAllocas(p[k].body, q[k].body)
  {
    assert Instrumented(p[k], pad, q[k]);
    InstrumentationCovers(p[k].body, pad, q[k].body);
  }

  // ---- the pass ----

  lemma EntryKeepsAllocas(f: seq<Block>, pad: nat)
    requires BodyOk(f)
    ensures BodyOk(CheckEntry(f, pad)) && SameAllocas(f, CheckEntry(f, pad))
  {
    EntryMeaning(f, pad);
    EntryFits(f);
    SplitKeepsAllocas(f, 0, 0);
    GuardKeepsAllocas(Split(f, 0, 0), 0, pad);
  }

  lemma CheckKeepsAllocas(f: seq<Block>, b: nat, pos: nat, id: nat, pad: nat)
    requires BodyOk(f) && AllocaAt(f, b, pos, id)
    ensures BodyOk(CheckAlloca(f, b, pos, pad)) && SameAllocas(f, CheckAlloca(f, b, pos, pad))
  {
    AllocaMeaning(f, b, pos, id, pad);
    AllocaFits(f, b, pos, id);
    SplitKeepsAllocas(f, b, pos);
    SplitKeepsAllocas(Split(f, b, pos), |f|, 1);
    GuardKeepsAllocas(Split(Split(f, b, pos), |f|, 1), |f|, pad);
  }

  /** The worklist loop's invariant. */
  ghost predicate Halfway(f: seq<Block>, ids: seq<nat>, i: nat, pad: nat, h: seq<Block>) {
    i <= |ids| && BodyOk(h) && SameAllocas(f, h) && Rewrites(f, ids[..i], pad, h)
  }

  lemma HalfwayOn(f: seq<Block>, ids: seq<nat>, i: nat, pad: nat, h: seq<Block>, b: nat, pos: nat)
    requires Halfway(f, ids, i, pad, h) && i < |ids| && AllocaAt(h, b, pos, ids[i])
    ensures Halfway(f, ids, i + 1, pad, CheckAlloca(h, b, pos, pad))
  {
    CheckKeepsAllocas(h, b, pos, ids[i], pad);
    var done := ids[..i + 1];
    assert done[..i] == ids[..i] && done[i] == ids[i];
  }

  class Module {
    var functions: seq<Function>

    constructor (functions: seq<Function>)
      ensures this.functions == functions
    {
      this.functions := functions;
    }

    /** Function k's body is replaced. */
    method Replace(k: nat, g: seq<Block>)
      requires k < |functions|
      modifies this
      ensures functions == WithBody(old(functions), k, g)
    {
      functions := functions[k := functions[k].(body := g)];
    }

    /** `splitBasicBlock`: the new block is the last one, and phis of its successors take it for their predecessor. */
    method SplitBasicBlock(k: nat, b: nat, pos: nat) returns (n: nat)
      requires k < |functions| && b < |functions[k].body| && pos <= |functions[k].body[b].instrs|
      modifies this
      ensures n == |old(functions)[k].body|
      ensures functions == WithBody(old(functions), k, Split(old(functions)[k].body, b, pos))
    {
      var f := functions[k].body;
      n := |f|;
      var instrs, term := f[b].instrs, f[b].term;
      var g := f[b := Block(instrs[..pos], Br(n))];
      var x := 0;
      while x < n
        invariant x <= n && |g| == n
        invariant forall y :: 0 <= y < x ==> g[y] == SplitBlock(f, b, pos, y)
        invariant forall y :: x <= y < n ==> g[y] == if y == b then Block(instrs[..pos], Br(n)) else f[y]
      {
        if x in Succs(term) {
          g := g[x := g[x].(instrs := RenamePhis(g[x].instrs, b, n))];
        }
        x := x + 1;
      }
      g := g + [Block(instrs[pos..], term)];
      assert g == Split(f, b, pos);
      Replace(k, g);
    }

    /** The block with the call of `__morestack` is made, and block b's branch to its only successor erased for
        the comparison. */
    method AddCheck(k: nat, b: nat, pad: nat)
      requires k < |functions| && b < |functions[k].body| && functions[k].body[b].term.Br?
      modifies this
      ensures functions == WithBody(old(functions), k, Guard(old(functions)[k].body, b, pad))
    {
      var f := functions[k].body;
      var cont := f[b].term.target;
      var more := |f|;
      f := f + [Block([Morestack], Br(cont))];
      f := f[b := f[b].(term := CheckBr(pad, cont, more))];
      assert f == Guard(functions[k].body, b, pad);
      Replace(k, f);
    }

    /** The worklist: the allocas of every block, in order, that LLVM does not call static. */
    method CollectDynAllocas(k: nat) returns (ids: seq<nat>)
      requires k < |functions|
      ensures ids == DynAllocas(functions[k].body)
    {
      var f := functions[k].body;
      ids := [];
      for b := 0 to |f|
        invariant ids == DynAllocas(f[..b])
      {
        var instrs := f[b].instrs;
        for j := 0 to |instrs|
          invariant ids == DynAllocas(f[..b]) + DynAllocasIn(b, instrs[..j])
        {
          assert instrs[..j + 1][..j] == instrs[..j];
          if instrs[j].Alloca? && !IsStaticAlloca(b, instrs[j]) {
            ids := ids + [instrs[j].id];
          }
        }
        assert instrs[..|instrs|] == instrs;
        assert f[..b + 1][..b] == f[..b];
      }
      assert f[..|f|] == f;
    }

    /** `AI->getParent()`, and where in it the alloca is. */
    method FindAlloca(k: nat, id: nat) returns (b: nat, pos: nat)
      requires k < |functions| && HasAlloca(functions[k].body, id)
      ensures AllocaAt(functions[k].body, b, pos, id)
    {
      var f := functions[k].body;
      b, pos := 0, 0;
      while b < |f|
        invariant b <= |f| && pos == 0
        invariant forall x, j :: 0 <= x < b ==> !AllocaAt(f, x, j, id)
      {
        while pos < |f[b].instrs|
          invariant pos <= |f[b].instrs|
          invariant forall j :: 0 <= j < pos ==> !AllocaAt(f, b, j, id)
        {
          if f[b].instrs[pos].Alloca? && f[b].instrs[pos].id == id {
            return;
          }
          pos := pos + 1;
        }
        b, pos := b + 1, 0;
      }
      assert false;
    }

    /** The entry's check. */
    method InstrumentEntry(k: nat, pad: nat)
      requires k < |functions| && BodyOk(functions[k].body)
      modifies this
      ensures functions == WithBody(old(functions), k, CheckEntry(old(functions)[k].body, pad))
    {
      EntryFits(functions[k].body);
      var cont := SplitBasicBlock(k, 0, 0);
      AddCheck(k, 0, pad);
    }

    /** One alloca's check. */
    method InstrumentAlloca(k: nat, id: nat, pad: nat) returns (ghost b: nat, ghost pos: nat)
      requires k < |functions| && BodyOk(functions[k].body) && HasAlloca(functions[k].body, id)
      modifies this
      ensures AllocaAt(old(functions)[k].body, b, pos, id)
      ensures functions == WithBody(old(functions), k, CheckAlloca(old(functions)[k].body, b, pos, pad))
    {
      var parent, at := FindAlloca(k, id);
      b, pos := parent, at;
      AllocaFits(functions[k].body, parent, at, id);
      var allocaBlock := SplitBasicBlock(k, parent, at);
      var rest := SplitBasicBlock(k, allocaBlock, 1);
      AddCheck(k, allocaBlock, pad);
    }

    method InstrumentAllocas(k: nat, ids: seq<nat>, pad: nat)
      requires k < |functions| && BodyOk(functions[k].body)
      requires forall i :: 0 <= i < |ids| ==> HasAlloca(functions[k].body, ids[i])
      modifies this
      ensures |functions| == |old(functions)| && functions == WithBody(old(functions), k, functions[k].body)
      ensures Rewrites(old(functions)[k].body, ids, pad, functions[k].body)
    {
      ghost var f := functions[k].body;
      for i := 0 to |ids|
        invariant |functions| == |old(functions)| && functions == WithBody(old(functions), k, functions[k].body)
        invariant Halfway(f, ids, i, pad, functions[k].body)
      {
        ghost var h := functions[k].body;
        ghost var b, pos := InstrumentAlloca(k, ids[i], pad);
        HalfwayOn(f, ids, i, pad, h, b, pos);
      }
      assert ids[..|ids|] == ids;
    }

    /** `instrumentFunction`. */
    method InstrumentFunction(k: nat, extraPad: nat) returns (changed: bool)
      requires k < |functions| && ModuleOk(functions) && extraPad < 0x1_0000_0000
      modifies this
      ensures changed <==> !LeftAlone(old(functions)[k])
      ensures |functions| == |old(functions)| && functions == old(functions)[k := functions[k]]
      ensures LeftAlone(old(functions)[k]) ==> functions == old(functions)
      ensures !LeftAlone(old(functions)[k]) ==>
                Instruments(old(functions)[k].body, FramePad(extraPad), functions[k].body)
      ensures Instrumented(old(functions)[k], FramePad(extraPad), functions[k])
    {
      SkipsExactly(functions[k]);
      if ShouldSkip(functions[k]) {
        return false;
      }
      var pad := FramePad(extraPad);
      ghost var f := functions[k].body;
      EntryKeepsAllocas(f, pad);
      InstrumentEntry(k, pad);
      ghost var e := functions[k].body;
      var ids := CollectDynAllocas(k);
      forall i | 0 <= i < |ids| ensures HasAlloca(e, ids[i]) {
        EveryAllocaCollected(f, pad, ids[i]);
      }
      InstrumentAllocas(k, ids, pad);
      changed := true;
    }

    /** `SplitStackPass::run`. */
    method Run(extraPad: nat) returns (changed: bool)
      requires ModuleOk(functions) && extraPad < 0x1_0000_0000
      modifies this
      ensures AllInstrumented(old(functions), FramePad(extraPad), functions)
      ensures |functions| == |old(functions)|
      ensures forall k :: 0 <= k < |functions| ==>
                if LeftAlone(old(functions)[k]) then functions[k] == old(functions)[k]
                else BodyOk(old(functions)[k].body) &&
                     Instruments(old(functions)[k].body, FramePad(extraPad), functions[k].body)
      ensures changed <==> exists k :: 0 <= k < |old(functions)| && !LeftAlone(old(functions)[k])
      ensures !changed ==> functions == old(functions)
    {
      ghost var p := functions;
      changed := false;
      for k := 0 to |functions|
        invariant |functions| == |p| && ModuleOk(functions)
        invariant forall j :: 0 <= j < k ==> Instrumented(p[j], FramePad(extraPad), functions[j])
        invariant functions[k..] == p[k..]
        invariant changed <==> exists j :: 0 <= j < k && !LeftAlone(p[j])
        invariant !changed ==> functions == p
      {
        assert functions[k] == functions[k..][0] == p[k..][0];
        assert forall j :: k + 1 <= j < |p| ==> functions[j] == functions[k..][j - k] == p[k..][j - k];
        ghost var before := functions;
        var one := InstrumentFunction(k, extraPad);
        InstrumentedModuleOk(before, k, FramePad(extraPad), functions);
        changed := changed || one;
      }
      forall k | 0 <= k < |p| ensures ShouldSkip(p[k]) <==> LeftAlone(p[k]) {
        SkipsExactly(p[k]);
      }
    }
  }

  lemma InstrumentedModuleOk(p: Program, k: nat, pad: nat, q: Program)
    requires ModuleOk(p) && k < |p| && |q| == |p| && q == p[k := q[k]] && Instrumented(p[k], pad, q[k])
    ensures ModuleOk(q)
  {
    if !ShouldSkip(p[k]) {
      InstrumentationMeaning(p[k].body, pad, q[k].body);
    }
  }
}
