/**
 Where the instrumentation leaves its checks: one in an entry block of its own, and
 one right after every alloca, each with a call of `__morestack` beside it.
 */
module CheckCoverage {
  import opened StackIR
  import opened Rewriting
  import opened SplitStackPass

  ghost predicate HasAlloca(f: seq<Block>, id: nat) {
    exists b, j :: AllocaAt(f, b, j, id)
  }

  /** Neither function has an alloca the other has not. */
  ghost predicate SameAllocas(f: seq<Block>, g: seq<Block>) {
    forall id :: HasAlloca(f, id) <==> HasAlloca(g, id)
  }

  /** An alloca's id is its own. */
  ghost predicate Distinct(f: seq<Block>) {
    forall b, j, b', j', id :: AllocaAt(f, b, j, id) && AllocaAt(f, b', j', id) ==> b == b' && j == j'
  }

  /** A function the pass has not seen yet. */
  ghost predicate Plain(f: seq<Block>) {
    && Distinct(f)
    && (forall b :: 0 <= b < |f| ==> !f[b].term.CheckBr?)
    && (forall b, j :: 0 <= b < |f| && 0 <= j < |f[b].instrs| ==> !f[b].instrs[j].Morestack?)
  }

  // ---- the shape of an instrumented function ----

  /** The other side of the check calls `__morestack` and then goes on where the check goes on. */
  predicate MorePlaced(f: seq<Block>, t: Term) {
    t.CheckBr? && t.more < |f| && f[t.more] == Block([Morestack], Br(t.ok))
  }

  /** The instruction at (b, j) is the last before a check. */
  predicate CoveredAt(f: seq<Block>, b: int, j: int, pad: nat) {
    0 <= b < |f| && j == |f[b].instrs| - 1 && f[b].term.CheckBr? && f[b].term.pad == pad
  }

  predicate CheckPlaced(f: seq<Block>, b: nat, done: seq<nat>, pad: nat)
    requires b < |f|
  {
    f[b].term.CheckBr? ==>
      && MorePlaced(f, f[b].term) && f[b].term.pad == pad
      && if b == 0 then f[b].instrs == []
         else f[b].instrs != [] && var last := f[b].instrs[|f[b].instrs| - 1]; last.Alloca? && last.id in done
  }

  /** The entry is checked, the allocas `done` are checked, and there is no other check. */
  ghost predicate Worked(f: seq<Block>, done: seq<nat>, pad: nat) {
    && |f| > 0 && f[0].term.CheckBr?
    && (forall b :: 0 <= b < |f| ==> CheckPlaced(f, b, done, pad))
    && (forall b, j, id :: AllocaAt(f, b, j, id) && id in done ==> CoveredAt(f, b, j, pad))
    && Distinct(f)
  }

  predicate Clean(instrs: seq<Instr>) {
    forall j :: 0 <= j < |instrs| ==> !instrs[j].Morestack?
  }

  /** `__morestack` is called in blocks of its own, and only a check that fails leads there. */
  ghost predicate MorestackGuarded(f: seq<Block>) {
    && |f| > 0 && Clean(f[0].instrs)
    && (forall b :: 0 <= b < |f| && !Clean(f[b].instrs) ==> f[b].instrs == [Morestack])
    && (forall b, x: nat :: 0 <= b < |f| && x < |f| && x in Succs(f[b].term) && !Clean(f[x].instrs) ==>
          f[b].term.CheckBr? && x != f[b].term.ok)
  }

  /** What the pass makes of a function. */
  ghost predicate Checked(f: seq<Block>, pad: nat) {
    && |f| > 0 && f[0] == Block([], f[0].term) && f[0].term.CheckBr?
    && (forall b :: 0 <= b < |f| && f[b].term.CheckBr? ==> f[b].term.pad == pad && MorePlaced(f, f[b].term))
    && (forall b :: 0 < b < |f| && f[b].term.CheckBr? ==>
          f[b].instrs != [] && f[b].instrs[|f[b].instrs| - 1].Alloca?)
    && (forall b, j, id :: AllocaAt(f, b, j, id) ==> CoveredAt(f, b, j, pad))
    && MorestackGuarded(f)
  }

  // ---- where splitting and checking leave the allocas ----

  function SplitSource(f: seq<Block>, b: nat, x: int): int {
    if x == |f| then b else x
  }

  function SplitOffset(f: seq<Block>, pos: nat, x: int): int {
    if x == |f| then pos else 0
  }

  lemma SplitAllocas(f: seq<Block>, b: nat, pos: nat, x: int, j: int, id: nat)
    requires b < |f| && pos <= |f[b].instrs|
    requires AllocaAt(Split(f, b, pos), x, j, id)
    ensures AllocaAt(f, SplitSource(f, b, x), j + SplitOffset(f, pos, x), id)
    ensures x == b ==> j < pos
  {
    assert Split(f, b, pos)[x] == SplitBlock(f, b, pos, x);
  }

  lemma SplitFindsAlloca(f: seq<Block>, b: nat, pos: nat, x: int, j: int, id: nat)
    requires b < |f| && pos <= |f[b].instrs|
    requires AllocaAt(f, x, j, id)
    ensures if x == b && j >= pos then AllocaAt(Split(f, b, pos), |f|, j - pos, id)
            else AllocaAt(Split(f, b, pos), x, j, id)
  {
    assert Split(f, b, pos)[x] == SplitBlock(f, b, pos, x);
    assert Split(f, b, pos)[|f|] == SplitBlock(f, b, pos, |f|);
  }

  lemma SplitKeepsAllocas(f: seq<Block>, b: nat, pos: nat)
    requires b < |f| && pos <= |f[b].instrs|
    ensures SameAllocas(f, Split(f, b, pos))
    ensures Distinct(f) ==> Distinct(Split(f, b, pos))
  {
    var g := Split(f, b, pos);
    forall x, j, id | AllocaAt(g, x, j, id)
      ensures AllocaAt(f, SplitSource(f, b, x), j + SplitOffset(f, pos, x), id)
      ensures x == b ==> j < pos
    {
      SplitAllocas(f, b, pos, x, j, id);
    }
    forall x, j, id | AllocaAt(f, x, j, id) ensures HasAlloca(g, id) {
      SplitFindsAlloca(f, b, pos, x, j, id);
    }
  }

  lemma GuardAllocas(f: seq<Block>, b: nat, pad: nat, x: int, j: int, id: nat)
    requires b < |f| && f[b].term.Br?
    ensures AllocaAt(Guard(f, b, pad), x, j, id) <==> AllocaAt(f, x, j, id)
  {
  }

  lemma GuardKeepsAllocas(f: seq<Block>, b: nat, pad: nat)
    requires b < |f| && f[b].term.Br?
    ensures SameAllocas(f, Guard(f, b, pad))
    ensures Distinct(f) ==> Distinct(Guard(f, b, pad))
  {
    forall x, j, id ensures AllocaAt(Guard(f, b, pad), x, j, id) <==> AllocaAt(f, x, j, id) {
      GuardAllocas(f, b, pad, x, j, id);
    }
  }

  // ---- one more alloca checked ----

  /** Block x of the split function, where x is not part of the split: the same but for phis. */
  lemma SplitKeepsBlock(f: seq<Block>, b: nat, pos: nat, x: nat)
    requires b < |f| && pos <= |f[b].instrs| && x < |f| && x != b
    ensures var g := Split(f, b, pos);
            g[x].term == f[x].term && |g[x].instrs| == |f[x].instrs| &&
            forall j :: 0 <= j < |f[x].instrs| && !f[x].instrs[j].Phi? ==> g[x].instrs[j] == f[x].instrs[j]
  {
    assert Split(f, b, pos)[x] == SplitBlock(f, b, pos, x);
  }

  lemma SplitKeepsMore(f: seq<Block>, b: nat, pos: nat, t: Term)
    requires b < |f| && pos <= |f[b].instrs| && MorePlaced(f, t) && t.more != b
    ensures MorePlaced(Split(f, b, pos), t)
  {
    SplitKeepsBlock(f, b, pos, t.more);
    assert Split(f, b, pos)[t.more].instrs == [Morestack];
  }

  /** What a split next to an alloca not yet checked may assume. */
  ghost predicate NextTo(f: seq<Block>, b: nat, pos: nat, done: seq<nat>, pad: nat, q: nat, id: nat) {
    Worked(f, done, pad) && AllocaAt(f, b, q, id) && id !in done && q <= pos <= q + 1
  }

  /** A check that ends the block to be split stays behind an alloca that is done. */
  lemma CheckMovesOn(f: seq<Block>, b: nat, pos: nat, done: seq<nat>, pad: nat, q: nat, id: nat)
    requires NextTo(f, b, pos, done, pad, q, id)
    ensures b != 0
    ensures f[b].term.CheckBr? ==> pos < |f[b].instrs|
    ensures forall x :: 0 <= x < |f| && f[x].term.CheckBr? ==> f[x].term.more != b
  {
    assert CheckPlaced(f, 0, done, pad) && CheckPlaced(f, b, done, pad);
    if f[b].term.CheckBr? {
      var last := |f[b].instrs| - 1;
      assert AllocaAt(f, b, last, f[b].instrs[last].id);
    }
    forall x | 0 <= x < |f| && f[x].term.CheckBr? ensures f[x].term.more != b {
      assert CheckPlaced(f, x, done, pad);
    }
  }

  lemma SplitPlacesCheck(f: seq<Block>, b: nat, pos: nat, done: seq<nat>, pad: nat, q: nat, id: nat, x: nat)
    requires NextTo(f, b, pos, done, pad, q, id) && x <= |f|
    ensures CheckPlaced(Split(f, b, pos), x, done, pad)
  {
    CheckMovesOn(f, b, pos, done, pad, q, id);
    var g := Split(f, b, pos);
    assert g[x] == SplitBlock(f, b, pos, x);
    if x == |f| {
      assert CheckPlaced(f, b, done, pad);
      if f[b].term.CheckBr? {
        SplitKeepsMore(f, b, pos, f[b].term);
      }
    } else if x != b && f[x].term.CheckBr? {
      assert CheckPlaced(f, x, done, pad);
      SplitKeepsMore(f, b, pos, f[x].term);
      SplitKeepsBlock(f, b, pos, x);
    }
  }

  lemma SplitCovers(f: seq<Block>, b: nat, pos: nat, done: seq<nat>, pad: nat, q: nat, id: nat, x: int, j: int, a: nat)
    requires NextTo(f, b, pos, done, pad, q, id)
    requires AllocaAt(Split(f, b, pos), x, j, a) && a in done
    ensures CoveredAt(Split(f, b, pos), x, j, pad)
  {
    CheckMovesOn(f, b, pos, done, pad, q, id);
    SplitAllocas(f, b, pos, x, j, a);
    assert CoveredAt(f, SplitSource(f, b, x), j + SplitOffset(f, pos, x), pad);
    assert Split(f, b, pos)[x] == SplitBlock(f, b, pos, x);
  }

  lemma SplitWorked(f: seq<Block>, b: nat, pos: nat, done: seq<nat>, pad: nat, q: nat, id: nat)
    requires NextTo(f, b, pos, done, pad, q, id)
    ensures Worked(Split(f, b, pos), done, pad)
  {
    var g := Split(f, b, pos);
    CheckMovesOn(f, b, pos, done, pad, q, id);
    SplitKeepsBlock(f, b, pos, 0);
    SplitKeepsAllocas(f, b, pos);
    forall x | 0 <= x < |g| ensures CheckPlaced(g, x, done, pad) {
      SplitPlacesCheck(f, b, pos, done, pad, q, id, x);
    }
    forall x, j, a | AllocaAt(g, x, j, a) && a in done ensures CoveredAt(g, x, j, pad) {
      SplitCovers(f, b, pos, done, pad, q, id, x, j, a);
    }
  }

  lemma GuardPlacesCheck(f: seq<Block>, b: nat, done: seq<nat>, pad: nat, id: nat, x: nat)
    requires Worked(f, done, pad) && 0 < b < |f| && f[b].term.Br? && |f[b].instrs| == 1 && AllocaAt(f, b, 0, id)
    requires x <= |f|
    ensures CheckPlaced(Guard(f, b, pad), x, done + [id], pad)
  {
    if x < |f| {
      assert CheckPlaced(f, x, done, pad);
    }
  }

  lemma GuardWorked(f: seq<Block>, b: nat, done: seq<nat>, pad: nat, id: nat)
    requires Worked(f, done, pad) && 0 < b < |f| && f[b].term.Br? && |f[b].instrs| == 1 && AllocaAt(f, b, 0, id)
    ensures Worked(Guard(f, b, pad), done + [id], pad)
  {
    var g := Guard(f, b, pad);
    GuardKeepsAllocas(f, b, pad);
    forall x | 0 <= x < |g| ensures CheckPlaced(g, x, done + [id], pad) {
      GuardPlacesCheck(f, b, done, pad, id, x);
    }
    forall x, j, a | AllocaAt(g, x, j, a) && a in done + [id] ensures CoveredAt(g, x, j, pad) {
      GuardAllocas(f, b, pad, x, j, a);
      if a == id {
        assert AllocaAt(f, b, 0, id);
      } else {
        assert CoveredAt(f, x, j, pad);
      }
    }
  }

  /** One turn of the worklist loop: the alloca is checked, and what was done stays done. */
  lemma CheckAllocaWorked(f: seq<Block>, b: nat, pos: nat, done: seq<nat>, pad: nat, id: nat)
    requires Worked(f, done, pad) && AllocaAt(f, b, pos, id) && id !in done
    ensures Worked(CheckAlloca(f, b, pos, pad), done + [id], pad)
    ensures SameAllocas(f, CheckAlloca(f, b, pos, pad))
  {
    var n := |f|;
    SplitWorked(f, b, pos, done, pad, pos, id);
    SplitKeepsAllocas(f, b, pos);
    SplitFindsAlloca(f, b, pos, b, pos, id);
    var g := Split(f, b, pos);
    SplitWorked(g, n, 1, done, pad, 0, id);
    SplitKeepsAllocas(g, n, 1);
    SplitFindsAlloca(g, n, 1, n, 0, id);
    var h := Split(g, n, 1);
    assert h[n] == SplitBlock(g, n, 1, n);
    GuardWorked(h, n, done, pad, id);
    GuardKeepsAllocas(h, n, pad);
  }

  lemma SplitGuarded(f: seq<Block>, b: nat, pos: nat)
    requires MorestackGuarded(f) && b < |f| && pos <= |f[b].instrs| && Clean(f[b].instrs)
    ensures MorestackGuarded(Split(f, b, pos))
  {
    var g := Split(f, b, pos);
    forall x: nat | x < |f| ensures Clean(g[x].instrs) <==> Clean(f[x].instrs) {
      SplitCleans(f, b, pos, x);
    }
    forall x | 0 <= x < |g| && !Clean(g[x].instrs) ensures g[x].instrs == [Morestack] {
      if x < |f| {
        assert g[x] == SplitBlock(f, b, pos, x);
      }
    }
  }

  lemma SplitCleans(f: seq<Block>, b: nat, pos: nat, x: nat)
    requires b < |f| && pos <= |f[b].instrs| && Clean(f[b].instrs) && x < |f|
    ensures Clean(Split(f, b, pos)[x].instrs) <==> Clean(f[x].instrs)
  {
    if x == b {
      assert Split(f, b, pos)[x] == SplitBlock(f, b, pos, x);
    } else {
      SplitKeepsBlock(f, b, pos, x);
      var xs, ys := f[x].instrs, Split(f, b, pos)[x].instrs;
      assert Split(f, b, pos)[x] == SplitBlock(f, b, pos, x);
      forall j | 0 <= j < |xs| ensures ys[j].Morestack? <==> xs[j].Morestack? {
      }
    }
  }

  lemma GuardGuarded(f: seq<Block>, b: nat, pad: nat)
    requires MorestackGuarded(f) && GuardFits(f, b)
    ensures MorestackGuarded(Guard(f, b, pad))
  {
    var g := Guard(f, b, pad);
    assert f[b].term.target in Succs(f[b].term);
    forall x, y: nat | 0 <= x < |g| && y < |g| && y in Succs(g[x].term) && !Clean(g[y].instrs)
      ensures g[x].term.CheckBr? && y != g[x].term.ok
    {
      if x < |f| && x != b {
        assert BlockOk(f, f[x]);
      }
    }
  }

  lemma CheckAllocaGuarded(f: seq<Block>, b: nat, pos: nat, id: nat, pad: nat)
    requires MorestackGuarded(f) && BodyOk(f) && AllocaAt(f, b, pos, id)
    ensures MorestackGuarded(CheckAlloca(f, b, pos, pad)) && BodyOk(CheckAlloca(f, b, pos, pad))
  {
    AllocaFits(f, b, pos, id);
    AllocaMeaning(f, b, pos, id, pad);
    SplitGuarded(f, b, pos);
    var g := Split(f, b, pos);
    assert g[|f|] == SplitBlock(f, b, pos, |f|);
    SplitGuarded(g, |f|, 1);
    GuardGuarded(Split(g, |f|, 1), |f|, pad);
  }

  // ---- the worklist ----

  predicate NoDup(ids: seq<nat>) {
    forall i, j :: 0 <= i < j < |ids| ==> ids[i] != ids[j]
  }

  lemma NoDupJoins(xs: seq<nat>, ys: seq<nat>)
    requires NoDup(xs) && NoDup(ys) && forall x :: x in xs ==> x !in ys
    ensures NoDup(xs + ys)
  {
    var zs := xs + ys;
    forall i, j | 0 <= i < j < |zs| ensures zs[i] != zs[j] {
      if i < |xs| && j >= |xs| {
        assert zs[i] in xs && zs[j] in ys;
      }
    }
  }

  lemma RewritesLast(f: seq<Block>, ids: seq<nat>, pad: nat, g: seq<Block>) returns (h: seq<Block>, b: nat, pos: nat)
    requires Rewrites(f, ids, pad, g) && ids != []
    ensures var n := |ids| - 1;
            Rewrites(f, ids[..n], pad, h) && AllocaAt(h, b, pos, ids[n]) && g == CheckAlloca(h, b, pos, pad)
  {
    var n := |ids| - 1;
    h, b, pos :| Rewrites(f, ids[..n], pad, h) && AllocaAt(h, b, pos, ids[n]) && g == CheckAlloca(h, b, pos, pad);
  }

  lemma OneMoreWorked(f: seq<Block>, h: seq<Block>, b: nat, pos: nat, ids: seq<nat>, pad: nat)
    requires ids != [] && NoDup(ids) && SameAllocas(f, h) && Worked(h, ids[..|ids| - 1], pad)
    requires AllocaAt(h, b, pos, ids[|ids| - 1])
    ensures Worked(CheckAlloca(h, b, pos, pad), ids, pad) && SameAllocas(f, CheckAlloca(h, b, pos, pad))
  {
    var front, last := ids[..|ids| - 1], ids[|ids| - 1];
    CheckAllocaWorked(h, b, pos, front, pad, last);
    assert front + [last] == ids;
  }

  lemma {:induction false} RewritesWorked(f: seq<Block>, ids: seq<nat>, pad: nat, g: seq<Block>)
    requires Worked(f, [], pad) && Rewrites(f, ids, pad, g) && NoDup(ids)
    ensures Worked(g, ids, pad) && SameAllocas(f, g)
    decreases |ids|
  {
    if ids == [] {
    } else {
      var h, b, pos := RewritesLast(f, ids, pad, g);
      RewritesWorked(f, ids[..|ids| - 1], pad, h);
      OneMoreWorked(f, h, b, pos, ids, pad);
    }
  }

  lemma {:induction false} RewritesGuarded(f: seq<Block>, ids: seq<nat>, pad: nat, g: seq<Block>)
    requires MorestackGuarded(f) && BodyOk(f) && Rewrites(f, ids, pad, g)
    ensures MorestackGuarded(g) && BodyOk(g)
    decreases |ids|
  {
    if ids == [] {
    } else {
      var h, b, pos := RewritesLast(f, ids, pad, g);
      RewritesGuarded(f, ids[..|ids| - 1], pad, h);
      CheckAllocaGuarded(h, b, pos, ids[|ids| - 1], pad);
    }
  }

  lemma {:induction false} CollectedIn(b: nat, instrs: seq<Instr>, id: nat)
    ensures id in DynAllocasIn(b, instrs) <==>
            exists j :: 0 <= j < |instrs| && instrs[j].Alloca? && instrs[j].id == id && !IsStaticAlloca(b, instrs[j])
  {
    if instrs == [] {
    } else {
      var n := |instrs| - 1;
      CollectedIn(b, instrs[..n], id);
    }
  }

  ghost predicate DynamicIn(f: seq<Block>, b: int, id: nat) {
    0 <= b < |f| && exists j :: AllocaAt(f, b, j, id) && !IsStaticAlloca(b, f[b].instrs[j])
  }

  lemma DynamicInLast(f: seq<Block>, id: nat)
    requires f != []
    ensures id in DynAllocasIn(|f| - 1, f[|f| - 1].instrs) <==> DynamicIn(f, |f| - 1, id)
  {
    var n := |f| - 1;
    var instrs := f[n].instrs;
    CollectedIn(n, instrs, id);
    if id in DynAllocasIn(n, instrs) {
      var j :| 0 <= j < |instrs| && instrs[j].Alloca? && instrs[j].id == id && !IsStaticAlloca(n, instrs[j]);
      assert AllocaAt(f, n, j, id);
    }
  }

  lemma DynamicInFront(f: seq<Block>, b: int, id: nat)
    requires f != [] && b < |f| - 1
    ensures DynamicIn(f[..|f| - 1], b, id) <==> DynamicIn(f, b, id)
  {
    var f' := f[..|f| - 1];
    if DynamicIn(f, b, id) {
      var j :| AllocaAt(f, b, j, id) && !IsStaticAlloca(b, f[b].instrs[j]);
      assert AllocaAt(f', b, j, id);
    }
    if DynamicIn(f', b, id) {
      var j :| AllocaAt(f', b, j, id) && !IsStaticAlloca(b, f'[b].instrs[j]);
      assert AllocaAt(f, b, j, id);
    }
  }

  /** The worklist is exactly the allocas that are not static to LLVM. */
  lemma {:induction false} Collected(f: seq<Block>, id: nat)
    ensures id in DynAllocas(f) <==> exists b :: DynamicIn(f, b, id)
  {
    if f == [] {
    } else {
      var n := |f| - 1;
      Collected(f[..n], id);
      DynamicInLast(f, id);
      forall b | b < n ensures DynamicIn(f[..n], b, id) <==> DynamicIn(f, b, id) {
        DynamicInFront(f, b, id);
      }
      if b :| DynamicIn(f, b, id) {
        assert b < n || b == n;
      }
    }
  }

  /** On any body the worklist is the allocas outside its entry block, and those in it whose size is not constant. */
  lemma WorklistExactly(f: seq<Block>, id: nat)
    ensures id in DynAllocas(f) <==>
            exists b, j :: AllocaAt(f, b, j, id) && (b != 0 || !f[b].instrs[j].constantSize)
  {
    Collected(f, id);
    if b :| DynamicIn(f, b, id) {
      var j :| AllocaAt(f, b, j, id) && !IsStaticAlloca(b, f[b].instrs[j]);
      assert AllocaAt(f, b, j, id) && (b != 0 || !f[b].instrs[j].constantSize);
    }
    if b, j :| AllocaAt(f, b, j, id) && (b != 0 || !f[b].instrs[j].constantSize) {
      assert AllocaAt(f, b, j, id) && !IsStaticAlloca(b, f[b].instrs[j]);
      assert DynamicIn(f, b, id);
    }
  }

  /** The worklist holds every alloca there is: once the entry is split, none is static to LLVM any more. */
  lemma EveryAllocaCollected(f: seq<Block>, pad: nat, id: nat)
    requires BodyOk(f)
    ensures id in DynAllocas(CheckEntry(f, pad)) <==> HasAlloca(f, id)
  {
    var e := CheckEntry(f, pad);
    assert Split(f, 0, 0)[0] == SplitBlock(f, 0, 0, 0);
    SplitKeepsAllocas(f, 0, 0);
    assert Split(f, 0, 0)[0].term.Br? by { EntryFits(f); }
    GuardKeepsAllocas(Split(f, 0, 0), 0, pad);
    assert e[0].instrs == [] by { EntryFits(f); EntryBlockEmpty(f); }
    Collected(e, id);
    if HasAlloca(e, id) {
      var b, j :| AllocaAt(e, b, j, id);
      assert DynamicIn(e, b, id);
    }
  }

  lemma EntryBlockEmpty(f: seq<Block>)
    requires BodyOk(f)
    ensures Split(f, 0, 0)[0] == Block([], Br(|f|))
  {
    assert Split(f, 0, 0)[0] == SplitBlock(f, 0, 0, 0);
    assert BlockOk(f, f[0]);
    assert forall j :: 0 <= j < |Succs(f[0].term)| ==> Succs(f[0].term)[j] != 0;
  }

  lemma {:induction false} CollectedOnceIn(f: seq<Block>, b: nat, n: nat)
    requires Distinct(f) && b < |f| && n <= |f[b].instrs|
    ensures NoDup(DynAllocasIn(b, f[b].instrs[..n]))
    decreases n
  {
    if n == 0 {
    } else {
      var instrs := f[b].instrs[..n];
      var front := f[b].instrs[..n - 1];
      assert instrs[..n - 1] == front;
      CollectedOnceIn(f, b, n - 1);
      if instrs[n - 1].Alloca? {
        var id := instrs[n - 1].id;
        CollectedIn(b, front, id);
        assert AllocaAt(f, b, n - 1, id);
        assert forall j :: 0 <= j < n - 1 && front[j].Alloca? && front[j].id == id ==> AllocaAt(f, b, j, id);
      }
    }
  }

  lemma FrontDistinct(f: seq<Block>)
    requires Distinct(f) && f != []
    ensures Distinct(f[..|f| - 1])
  {
    var f' := f[..|f| - 1];
    forall b, j, id | AllocaAt(f', b, j, id) ensures AllocaAt(f, b, j, id) {
    }
  }

  lemma {:induction false} CollectedOnce(f: seq<Block>)
    requires Distinct(f)
    ensures NoDup(DynAllocas(f))
  {
    if f == [] {
    } else {
      var n := |f| - 1;
      var instrs := f[n].instrs;
      FrontDistinct(f);
      CollectedOnce(f[..n]);
      assert instrs[..|instrs|] == instrs;
      CollectedOnceIn(f, n, |instrs|);
      forall id | id in DynAllocas(f[..n]) ensures id !in DynAllocasIn(n, instrs) {
        CollectedApart(f, id);
      }
      NoDupJoins(DynAllocas(f[..n]), DynAllocasIn(n, instrs));
    }
  }

  lemma CollectedApart(f: seq<Block>, id: nat)
    requires Distinct(f) && f != [] && id in DynAllocas(f[..|f| - 1])
    ensures id !in DynAllocasIn(|f| - 1, f[|f| - 1].instrs)
  {
    var n := |f| - 1;
    Collected(f[..n], id);
    var b :| DynamicIn(f[..n], b, id);
    DynamicInFront(f, b, id);
    var j :| AllocaAt(f, b, j, id);
    DynamicInLast(f, id);
  }

  // ---- the whole pass ----

  lemma EntryWorked(f: seq<Block>, pad: nat)
    requires BodyOk(f) && Plain(f)
    ensures Worked(CheckEntry(f, pad), [], pad) && SameAllocas(f, CheckEntry(f, pad))
  {
    EntryBlockEmpty(f);
    var g := Split(f, 0, 0);
    SplitKeepsAllocas(f, 0, 0);
    GuardKeepsAllocas(g, 0, pad);
    forall x | 0 < x < |g| ensures !g[x].term.CheckBr? {
      assert g[x] == SplitBlock(f, 0, 0, x);
    }
  }

  lemma EntryGuarded(f: seq<Block>, pad: nat)
    requires BodyOk(f) && Plain(f)
    ensures MorestackGuarded(CheckEntry(f, pad)) && BodyOk(CheckEntry(f, pad))
  {
    EntryFits(f);
    EntryMeaning(f, pad);
    SplitGuarded(f, 0, 0);
    GuardGuarded(Split(f, 0, 0), 0, pad);
  }

  lemma WorkedChecked(g: seq<Block>, ids: seq<nat>, pad: nat)
    requires Worked(g, ids, pad) && MorestackGuarded(g) && forall id :: HasAlloca(g, id) ==> id in ids
    ensures Checked(g, pad)
  {
    assert CheckPlaced(g, 0, ids, pad);
    forall b | 0 <= b < |g| && g[b].term.CheckBr?
      ensures g[b].term.pad == pad && MorePlaced(g, g[b].term)
      ensures b > 0 ==> g[b].instrs != [] && g[b].instrs[|g[b].instrs| - 1].Alloca?
    {
      assert CheckPlaced(g, b, ids, pad);
    }
    forall b, j, id | AllocaAt(g, b, j, id) ensures CoveredAt(g, b, j, pad) {
      assert HasAlloca(g, id);
    }
  }

  /** The instrumented function has a check at its entry and one right after every alloca it ever had, and no other. */
  lemma InstrumentationCovers(f: seq<Block>, pad: nat, g: seq<Block>)
    requires BodyOk(f) && Plain(f) && Instruments(f, pad, g)
    ensures Checked(g, pad) && SameAllocas(f, g)
  {
    var e := CheckEntry(f, pad);
    EntryWorked(f, pad);
    EntryGuarded(f, pad);
    CollectedOnce(e);
    RewritesGuarded(e, DynAllocas(e), pad, g);
    RewritesWorked(e, DynAllocas(e), pad, g);
    forall id | HasAlloca(g, id) ensures id in DynAllocas(e) {
      EveryAllocaCollected(f, pad, id);
    }
    WorkedChecked(g, DynAllocas(e), pad);
  }
}
