/**
 The two changes the pass makes to a function, as functions on its blocks, and the
 proof that each preserves what the program does: splitting a block, and replacing
 a branch by a stack check with a call of `__morestack` beside it.
 */
module Rewriting {
  import opened Numbers
  import opened StackIR
  import opened Simulation

  // ---- BasicBlock::splitBasicBlock ----

  function RenameIncoming(xs: seq<nat>, from: nat, to: nat): (ys: seq<nat>)
    ensures |ys| == |xs|
    ensures forall j :: 0 <= j < |xs| ==> ys[j] == if xs[j] == from then to else xs[j]
  {
    seq(|xs|, j requires 0 <= j < |xs| => if xs[j] == from then to else xs[j])
  }

  function RenamePhi(i: Instr, from: nat, to: nat): Instr {
    if i.Phi? then i.(incoming := RenameIncoming(i.incoming, from, to)) else i
  }

  function RenamePhis(list: seq<Instr>, from: nat, to: nat): (js: seq<Instr>)
    ensures |js| == |list|
    ensures forall k :: 0 <= k < |list| ==> js[k] == RenamePhi(list[k], from, to)
  {
    seq(|list|, k requires 0 <= k < |list| => RenamePhi(list[k], from, to))
  }

  /** Block b keeps its first `pos` instructions and branches to a new block with the others and the old
      terminator; phis of the old successors now come from the new block. */
  function SplitBlock(f: seq<Block>, b: nat, pos: nat, x: nat): Block
    requires b < |f| && pos <= |f[b].instrs| && x <= |f|
  {
    if x == |f| then Block(f[b].instrs[pos..], f[b].term)
    else
      var kept := if x == b then Block(f[b].instrs[..pos], Br(|f|)) else f[x];
      if x in Succs(f[b].term) then kept.(instrs := RenamePhis(kept.instrs, b, |f|)) else kept
  }

  function Split(f: seq<Block>, b: nat, pos: nat): (g: seq<Block>)
    requires b < |f| && pos <= |f[b].instrs|
    ensures |g| == |f| + 1
    ensures forall x :: 0 <= x < |g| ==> g[x] == SplitBlock(f, b, pos, x)
  {
    seq(|f| + 1, x requires 0 <= x < |f| + 1 => SplitBlock(f, b, pos, x))
  }

  /** A place a block may be split: after its phis. */
  predicate SplitFits(f: seq<Block>, b: nat, pos: nat) {
    BodyOk(f) && b < |f| && pos <= |f[b].instrs| && NoPhis(f[b].instrs[pos..])
  }

  lemma SplitBlockOk(f: seq<Block>, b: nat, pos: nat, x: nat)
    requires SplitFits(f, b, pos) && x <= |f|
    ensures BlockOk(Split(f, b, pos), SplitBlock(f, b, pos, x))
  {
    assert BlockOk(f, f[b]);
    if x < |f| {
      assert BlockOk(f, f[x]);
    }
  }

  lemma SplitOk(f: seq<Block>, b: nat, pos: nat)
    requires SplitFits(f, b, pos)
    ensures BodyOk(Split(f, b, pos))
  {
    var g := Split(f, b, pos);
    forall x | 0 <= x < |g| ensures BlockOk(g, g[x]) {
      SplitBlockOk(f, b, pos, x);
    }
    assert NoPhis(g[0].instrs);
  }

  // ---- the check ----

  /** Block b's branch becomes a check: on to the same block, or by way of a new one that calls `__morestack`. */
  function Guard(f: seq<Block>, b: nat, pad: nat): (g: seq<Block>)
    requires b < |f| && f[b].term.Br?
  {
    var x := f[b].term.target;
    f[b := f[b].(term := CheckBr(pad, x, |f|))] + [Block([Morestack], Br(x))]
  }

  /** The branch's target takes no phi from b. */
  predicate GuardFits(f: seq<Block>, b: nat) {
    BodyOk(f) && b < |f| && f[b].term.Br? && f[b].term.target < |f| && NoPhis(f[f[b].term.target].instrs)
  }

  lemma GuardOk(f: seq<Block>, b: nat, pad: nat)
    requires GuardFits(f, b)
    ensures BodyOk(Guard(f, b, pad))
  {
    var g := Guard(f, b, pad);
    assert BlockOk(f, f[b]);
    assert Succs(f[b].term)[0] == f[b].term.target;
    forall x | 0 <= x < |g| ensures BlockOk(g, g[x]) {
      if x < |f| {
        assert BlockOk(f, f[x]);
      }
    }
  }

  // ---- lockstep ----

  /** The same configuration, but for where the frames are; `related` says where. */
  ghost predicate Alike(related: (Frame, Frame) -> bool, c: Config, d: Config) {
    && c.status == d.status && c.trace == d.trace && c.sp == d.sp
    && |c.stack| == |d.stack|
    && forall i :: 0 <= i < |c.stack| ==> related(c.stack[i], d.stack[i])
  }

  /** Functions are entered alike. */
  ghost predicate EntersAlike(related: (Frame, Frame) -> bool) {
    forall fn, base :: related(Frame(fn, -1, 0, 0, base), Frame(fn, -1, 0, 0, base))
  }

  /** Two instructions with the same effect, at frames fr and fr'. */
  predicate SameInstr(i: Instr, i': Instr, fr: Frame, fr': Frame) {
    if i.Phi? then i'.Phi? && i'.id == i.id && IndexOf(i'.incoming, fr'.prev) == IndexOf(i.incoming, fr.prev)
    else i' == i
  }

  lemma TopsAlike(related: (Frame, Frame) -> bool, c: Config, d: Config, fr: Frame, fr': Frame)
    requires Alike(related, c, d) && c.stack != [] && related(fr, fr')
    ensures Alike(related, SetTop(c, fr), SetTop(d, fr'))
  {
  }

  lemma AdvanceAlike(related: (Frame, Frame) -> bool, c: Config, d: Config, e: Event)
    requires Alike(related, c, d) && c.stack != []
    requires related(Top(c).(pos := Top(c).pos + 1), Top(d).(pos := Top(d).pos + 1))
    ensures Alike(related, Advance(c), Advance(d)) && Alike(related, Emit(Advance(c), e), Emit(Advance(d), e))
  {
    TopsAlike(related, c, d, Top(c).(pos := Top(c).pos + 1), Top(d).(pos := Top(d).pos + 1));
  }

  lemma EnterAlike(env: Env, related: (Frame, Frame) -> bool, c: Config, d: Config, fn: nat)
    requires Alike(related, c, d) && c.sp < WORD && EntersAlike(related)
    ensures Alike(related, Enter(env, c, fn), Enter(env, d, fn))
  {
  }

  lemma InstrsAlike(p: Program, q: Program, env: Env, related: (Frame, Frame) -> bool, c: Config, d: Config,
                    i: Instr, i': Instr)
    requires ConfigOk(p, c) && ConfigOk(q, d) && Alike(related, c, d) && c.stack != []
    requires SameInstr(i, i', Top(c), Top(d)) && EntersAlike(related)
    requires related(Top(c).(pos := Top(c).pos + 1), Top(d).(pos := Top(d).pos + 1))
    requires forall fn :: Defined(p, fn) <==> Defined(q, fn)
    ensures Alike(related, DoInstr(p, env, c, i), DoInstr(q, env, d, i'))
  {
    if i.Call? {
      AdvanceAlike(related, c, d, Called(i.id));
      if Defined(p, i.callee) {
        EnterAlike(env, related, Emit(Advance(c), Called(i.id)), Emit(Advance(d), Called(i.id)), i.callee);
      }
    } else if i.Alloca? {
      AdvanceAlike(related, c, d, Allocated(i.id));
    } else {
      AdvanceAlike(related, c, d,
                   if i.Phi? then TookPhi(i.id, IndexOf(i.incoming, Top(c).prev))
                   else if i.Other? then Did(i.id) else Returned);
    }
  }

  lemma TermsAlike(env: Env, related: (Frame, Frame) -> bool, c: Config, d: Config, t: Term)
    requires Alike(related, c, d) && c.stack != [] && c.sp < WORD && Top(c).base == Top(d).base
    requires forall x :: x in Succs(t) ==>
               related(Top(c).(prev := Top(c).blk, blk := x, pos := 0), Top(d).(prev := Top(d).blk, blk := x, pos := 0))
    ensures Alike(related, DoTerm(env, c, t), DoTerm(env, d, t))
  {
    match t {
      case Br(x) => assert x in Succs(t); GotosAlike(related, c, d, x);
      case CondBr(_, x, y) =>
        assert x in Succs(t) && y in Succs(t);
        GotosAlike(related, c, d, x);
        GotosAlike(related, c, d, y);
      case CheckBr(_, x, y) =>
        assert x in Succs(t) && y in Succs(t);
        GotosAlike(related, c, d, x);
        GotosAlike(related, c, d, y);
      case Ret =>
    }
  }

  lemma GotosAlike(related: (Frame, Frame) -> bool, c: Config, d: Config, x: nat)
    requires Alike(related, c, d) && c.stack != []
    requires related(Top(c).(prev := Top(c).blk, blk := x, pos := 0), Top(d).(prev := Top(d).blk, blk := x, pos := 0))
    ensures Alike(related, Goto(c, x), Goto(d, x))
  {
    TopsAlike(related, c, d,
              Top(c).(prev := Top(c).blk, blk := x, pos := 0), Top(d).(prev := Top(d).blk, blk := x, pos := 0));
  }

  // ---- splitting preserves meaning ----

  /** p with function k's body replaced. */
  function WithBody(p: Program, k: nat, g: seq<Block>): Program
    requires k < |p|
  {
    p[k := p[k].(body := g)]
  }

  lemma WithBodyOk(p: Program, k: nat, g: seq<Block>)
    requires ProgramOk(p) && Defined(p, k) && BodyOk(g)
    ensures ProgramOk(WithBody(p, k, g))
    ensures forall fn :: Defined(p, fn) <==> Defined(WithBody(p, k, g), fn)
  {
  }

  function Moved(b: nat, n: nat, prev: int): int {
    if prev == b then n else prev
  }

  /** Where a frame of the original is, after block b of function k was split at `pos` into a new block n. */
  predicate SplitFrame(k: nat, b: nat, pos: nat, n: nat, fr: Frame, fr': Frame) {
    && fr'.fn == fr.fn && fr'.base == fr.base
    && if fr.fn != k then fr' == fr
       else if fr.blk == b && fr.pos >= pos then
         || (fr'.blk == n && fr'.pos == fr.pos - pos)
         || (fr.pos == pos && fr'.blk == b && fr'.pos == pos && fr'.prev == Moved(b, n, fr.prev))
       else fr'.blk == fr.blk && fr'.pos == fr.pos && fr'.prev == Moved(b, n, fr.prev)
  }

  lemma {:induction false} IndexRenamed(xs: seq<nat>, from: nat, to: nat, x: int)
    requires forall j :: 0 <= j < |xs| ==> xs[j] != to
    requires x != to
    ensures IndexOf(RenameIncoming(xs, from, to), Moved(from, to, x)) == IndexOf(xs, x)
  {
    if xs == [] {
    } else {
      IndexRenamed(xs[1..], from, to, x);
      assert RenameIncoming(xs, from, to)[1..] == RenameIncoming(xs[1..], from, to);
    }
  }

  lemma {:induction false} IndexElsewhere(xs: seq<nat>, from: nat, to: nat, x: int)
    requires x != from
    ensures IndexOf(xs, Moved(from, to, x)) == IndexOf(xs, x)
  {
  }

  /** A phi takes the same entry before and after its block's predecessor b was split. */
  lemma PhiAlike(p: Program, k: nat, b: nat, pos: nat, fr: Frame)
    requires ProgramOk(p) && FrameOk(p, fr) && fr.fn == k && SplitFits(p[k].body, b, pos)
    requires var f := p[k].body; fr.pos < |f[fr.blk].instrs| && f[fr.blk].instrs[fr.pos].Phi?
    ensures var f := p[k].body;
            var i := f[fr.blk].instrs[fr.pos];
            var i' := if fr.blk in Succs(f[b].term) then RenamePhi(i, b, |f|) else i;
            IndexOf(i'.incoming, Moved(b, |f|, fr.prev)) == IndexOf(i.incoming, fr.prev)
  {
    var f := p[k].body;
    var i := f[fr.blk].instrs[fr.pos];
    assert BlockOk(f, f[fr.blk]);
    if fr.blk in Succs(f[b].term) {
      IndexRenamed(i.incoming, b, |f|, fr.prev);
    } else {
      IndexElsewhere(i.incoming, b, |f|, fr.prev);
    }
  }

  ghost predicate SplitRel(p: Program, k: nat, b: nat, pos: nat, c: Config, d: Config)
    requires k < |p| && b < |p[k].body| && pos <= |p[k].body[b].instrs|
  {
    && ConfigOk(p, c) && ConfigOk(WithBody(p, k, Split(p[k].body, b, pos)), d)
    && Alike((fr, fr') => SplitFrame(k, b, pos, |p[k].body|, fr, fr'), c, d)
  }

  /** The one place where the split function takes a step of its own: the branch to the new block. */
  predicate AtSeam(k: nat, b: nat, pos: nat, d: Config) {
    d.stack != [] && Top(d).fn == k && Top(d).blk == b && Top(d).pos == pos
  }

  function SplitRank(k: nat, b: nat, pos: nat, d: Config): nat {
    Bit(AtSeam(k, b, pos, d))
  }

  lemma SeamStep(p: Program, env: Env, k: nat, b: nat, pos: nat, c: Config, d: Config)
    requires ProgramOk(p) && Defined(p, k) && SplitFits(p[k].body, b, pos)
    requires SplitRel(p, k, b, pos, c, d) && c.status.Running? && AtSeam(k, b, pos, d)
    ensures var d' := Step(WithBody(p, k, Split(p[k].body, b, pos)), env, d);
            Alike((fr, fr') => SplitFrame(k, b, pos, |p[k].body|, fr, fr'), c, d') && !AtSeam(k, b, pos, d')
  {
    var n := |p[k].body|;
    var q := WithBody(p, k, Split(p[k].body, b, pos));
    assert BlockOf(q, Top(d)).term == Br(n) && |BlockOf(q, Top(d)).instrs| == pos;
    TopsAlike((fr, fr') => SplitFrame(k, b, pos, n, fr, fr'), c, d, Top(c), Top(d).(prev := b, blk := n, pos := 0));
    assert SetTop(c, Top(c)).stack == c.stack;
  }

  /** Away from the seam, a frame meets the same instruction. */
  lemma SplitSameInstr(p: Program, k: nat, b: nat, pos: nat, fr: Frame, fr': Frame)
    requires ProgramOk(p) && Defined(p, k) && SplitFits(p[k].body, b, pos)
    requires FrameOk(p, fr) && FrameOk(WithBody(p, k, Split(p[k].body, b, pos)), fr')
    requires SplitFrame(k, b, pos, |p[k].body|, fr, fr') && !(fr'.fn == k && fr'.blk == b && fr'.pos == pos)
    requires fr.pos < |BlockOf(p, fr).instrs|
    ensures var is' := BlockOf(WithBody(p, k, Split(p[k].body, b, pos)), fr').instrs;
            fr'.pos < |is'| && SameInstr(BlockOf(p, fr).instrs[fr.pos], is'[fr'.pos], fr, fr')
  {
    var f := p[k].body;
    var i := BlockOf(p, fr).instrs[fr.pos];
    if fr.fn == k {
      if fr.blk == b && fr.pos >= pos {
        assert f[b].instrs[pos..][fr.pos - pos] == i;
      } else if i.Phi? {
        PhiAlike(p, k, b, pos, fr);
      }
    }
  }

  lemma SplitInstrStep(p: Program, env: Env, k: nat, b: nat, pos: nat, c: Config, d: Config)
    requires ProgramOk(p) && Defined(p, k) && SplitFits(p[k].body, b, pos)
    requires SplitRel(p, k, b, pos, c, d) && c.status.Running? && !AtSeam(k, b, pos, d)
    requires Top(c).pos < |BlockOf(p, Top(c)).instrs|
    ensures var q := WithBody(p, k, Split(p[k].body, b, pos));
            Alike((fr, fr') => SplitFrame(k, b, pos, |p[k].body|, fr, fr'), Step(p, env, c), Step(q, env, d))
  {
    var f, n := p[k].body, |p[k].body|;
    var q := WithBody(p, k, Split(f, b, pos));
    var related := (fr, fr') => SplitFrame(k, b, pos, n, fr, fr');
    var fr, fr' := Top(c), Top(d);
    assert related(fr, fr');
    SplitOk(f, b, pos);
    WithBodyOk(p, k, Split(f, b, pos));
    SplitSameInstr(p, k, b, pos, fr, fr');
    InstrsAlike(p, q, env, related, c, d, BlockOf(p, fr).instrs[fr.pos], BlockOf(q, fr').instrs[fr'.pos]);
  }

  lemma SplitTermStep(p: Program, env: Env, k: nat, b: nat, pos: nat, c: Config, d: Config)
    requires ProgramOk(p) && Defined(p, k) && SplitFits(p[k].body, b, pos)
    requires SplitRel(p, k, b, pos, c, d) && c.status.Running? && !AtSeam(k, b, pos, d)
    requires Top(c).pos == |BlockOf(p, Top(c)).instrs|
    ensures var q := WithBody(p, k, Split(p[k].body, b, pos));
            Alike((fr, fr') => SplitFrame(k, b, pos, |p[k].body|, fr, fr'), Step(p, env, c), Step(q, env, d))
  {
    var f, n := p[k].body, |p[k].body|;
    var q := WithBody(p, k, Split(f, b, pos));
    var related := (fr, fr') => SplitFrame(k, b, pos, n, fr, fr');
    var fr, fr' := Top(c), Top(d);
    assert related(fr, fr');
    assert BlockOf(q, fr').term == BlockOf(p, fr).term;
    TermsAlike(env, related, c, d, BlockOf(p, fr).term);
  }

  lemma SplitSimulates(p: Program, env: Env, k: nat, b: nat, pos: nat)
    requires ProgramOk(p) && Defined(p, k) && SplitFits(p[k].body, b, pos)
    ensures ProgramOk(WithBody(p, k, Split(p[k].body, b, pos)))
    ensures Simulates(p, WithBody(p, k, Split(p[k].body, b, pos)), env,
                      (c, d) => SplitRel(p, k, b, pos, c, d), d => SplitRank(k, b, pos, d))
  {
    var q := WithBody(p, k, Split(p[k].body, b, pos));
    SplitOk(p[k].body, b, pos);
    WithBodyOk(p, k, Split(p[k].body, b, pos));
    var rel := (c, d) => SplitRel(p, k, b, pos, c, d);
    var rank := d => SplitRank(k, b, pos, d);
    forall c, d | rel(c, d) ensures Fits(p, q, env, rel, rank, c, d) {
      StepOk(p, env, c);
      StepOk(q, env, d);
      if c.status.Running? {
        if AtSeam(k, b, pos, d) {
          SeamStep(p, env, k, b, pos, c, d);
        } else if Top(c).pos < |BlockOf(p, Top(c)).instrs| {
          SplitInstrStep(p, env, k, b, pos, c, d);
        } else {
          SplitTermStep(p, env, k, b, pos, c, d);
        }
      }
    }
  }

  /** Splitting a block after its phis preserves meaning. */
  lemma SplitPreserves(p: Program, env: Env, k: nat, b: nat, pos: nat, main: nat, sp: nat)
    requires ProgramOk(p) && Defined(p, k) && SplitFits(p[k].body, b, pos) && Defined(p, main) && sp < WORD
    ensures Preserves(p, WithBody(p, k, Split(p[k].body, b, pos)), env, Initial(env, main, sp))
  {
    var q := WithBody(p, k, Split(p[k].body, b, pos));
    SplitSimulates(p, env, k, b, pos);
    SplitOk(p[k].body, b, pos);
    WithBodyOk(p, k, Split(p[k].body, b, pos));
    InitialOk(p, env, main, sp);
    InitialOk(q, env, main, sp);
    SimulationPreserves(p, q, env, (c, d) => SplitRel(p, k, b, pos, c, d), d => SplitRank(k, b, pos, d),
                        Initial(env, main, sp));
  }

  // ---- checking preserves meaning ----

  /** Where a frame of the original is, after block b of function k, which branches to x, got a check and a new
      block n: at the same place, or on the way to x through n. In x, which has no phis, it does not matter
      where it came from. */
  predicate GuardFrame(k: nat, x: nat, n: nat, fr: Frame, fr': Frame) {
    && fr'.fn == fr.fn && fr'.base == fr.base
    && if fr.fn != k then fr' == fr
       else
         || fr' == fr
         || (fr.blk == x && fr'.blk == x && fr'.pos == fr.pos)
         || (fr.blk == x && fr.pos == 0 && fr'.blk == n && fr'.pos <= 1)
  }

  ghost predicate GuardRel(p: Program, k: nat, b: nat, pad: nat, c: Config, d: Config)
    requires k < |p| && GuardFits(p[k].body, b)
  {
    && ConfigOk(p, c) && ConfigOk(WithBody(p, k, Guard(p[k].body, b, pad)), d)
    && Alike((fr, fr') => GuardFrame(k, p[k].body[b].term.target, |p[k].body|, fr, fr'), c, d)
  }

  /** The checked function is in its new block. */
  predicate AtDetour(k: nat, n: nat, d: Config) {
    d.stack != [] && Top(d).fn == k && Top(d).blk == n
  }

  function GuardRank(k: nat, n: nat, d: Config): nat {
    if AtDetour(k, n, d) && Top(d).pos <= 1 then 2 - Top(d).pos else 0
  }

  lemma DetourCall(p: Program, env: Env, k: nat, b: nat, pad: nat, c: Config, d: Config)
    requires ProgramOk(p) && Defined(p, k) && GuardFits(p[k].body, b)
    requires GuardRel(p, k, b, pad, c, d) && c.status.Running? && AtDetour(k, |p[k].body|, d) && Top(d).pos == 0
    ensures DetourFits(p, env, k, b, pad, c, d)
  {
    var f, n := p[k].body, |p[k].body|;
    assert BlockOf(WithBody(p, k, Guard(f, b, pad)), Top(d)) == Block([Morestack], Br(f[b].term.target));
    var related := (fr, fr') => GuardFrame(k, f[b].term.target, n, fr, fr');
    assert related(Top(c), Top(d));
    assert SetTop(c, Top(c)).stack == c.stack;
    TopsAlike(related, c, d, Top(c), Top(d).(pos := 1));
  }

  lemma DetourBranch(p: Program, env: Env, k: nat, b: nat, pad: nat, c: Config, d: Config)
    requires ProgramOk(p) && Defined(p, k) && GuardFits(p[k].body, b)
    requires GuardRel(p, k, b, pad, c, d) && c.status.Running? && AtDetour(k, |p[k].body|, d) && Top(d).pos != 0
    ensures DetourFits(p, env, k, b, pad, c, d)
  {
    var f, n := p[k].body, |p[k].body|;
    var x := f[b].term.target;
    assert BlockOf(WithBody(p, k, Guard(f, b, pad)), Top(d)) == Block([Morestack], Br(x));
    var related := (fr, fr') => GuardFrame(k, x, n, fr, fr');
    assert related(Top(c), Top(d));
    assert SetTop(c, Top(c)).stack == c.stack;
    TopsAlike(related, c, d, Top(c), Top(d).(prev := n, blk := x, pos := 0));
  }

  /** A step in the block that calls `__morestack`: it stops the run, or gets nearer to where the original is. */
  ghost predicate DetourFits(p: Program, env: Env, k: nat, b: nat, pad: nat, c: Config, d: Config)
    requires k < |p| && b < |p[k].body| && p[k].body[b].term.Br?
    requires ConfigOk(WithBody(p, k, Guard(p[k].body, b, pad)), d)
  {
    var d' := Step(WithBody(p, k, Guard(p[k].body, b, pad)), env, d);
    || Stopped(c, d')
    || (Alike((fr, fr') => GuardFrame(k, p[k].body[b].term.target, |p[k].body|, fr, fr'), c, d')
        && GuardRank(k, |p[k].body|, d') < GuardRank(k, |p[k].body|, d))
  }

  lemma GuardInstrStep(p: Program, env: Env, k: nat, b: nat, pad: nat, c: Config, d: Config)
    requires ProgramOk(p) && Defined(p, k) && GuardFits(p[k].body, b)
    requires GuardRel(p, k, b, pad, c, d) && c.status.Running? && !AtDetour(k, |p[k].body|, d)
    requires Top(c).pos < |BlockOf(p, Top(c)).instrs|
    ensures var q := WithBody(p, k, Guard(p[k].body, b, pad));
            Alike((fr, fr') => GuardFrame(k, p[k].body[b].term.target, |p[k].body|, fr, fr'),
                  Step(p, env, c), Step(q, env, d))
  {
    var f, n := p[k].body, |p[k].body|;
    var q := WithBody(p, k, Guard(f, b, pad));
    var related := (fr, fr') => GuardFrame(k, f[b].term.target, n, fr, fr');
    var fr, fr' := Top(c), Top(d);
    assert related(fr, fr');
    GuardOk(f, b, pad);
    WithBodyOk(p, k, Guard(f, b, pad));
    assert BlockOf(q, fr').instrs == BlockOf(p, fr).instrs;
    InstrsAlike(p, q, env, related, c, d, BlockOf(p, fr).instrs[fr.pos], BlockOf(q, fr').instrs[fr'.pos]);
  }

  /** The check itself, against the branch it replaces. */
  lemma CheckStep(p: Program, env: Env, k: nat, b: nat, pad: nat, c: Config, d: Config)
    requires ProgramOk(p) && Defined(p, k) && GuardFits(p[k].body, b)
    requires GuardRel(p, k, b, pad, c, d) && c.status.Running? && Top(c).fn == k && Top(c).blk == b
    requires Top(c).pos == |p[k].body[b].instrs| && Top(d).blk == b && Top(d).pos == Top(c).pos
    ensures var q := WithBody(p, k, Guard(p[k].body, b, pad));
            Alike((fr, fr') => GuardFrame(k, p[k].body[b].term.target, |p[k].body|, fr, fr'),
                  Step(p, env, c), Step(q, env, d))
  {
    var f, n := p[k].body, |p[k].body|;
    var x := f[b].term.target;
    var q := WithBody(p, k, Guard(f, b, pad));
    var related := (fr, fr') => GuardFrame(k, x, n, fr, fr');
    var fr, fr' := Top(c), Top(d);
    assert related(fr, fr');
    assert BlockOf(q, fr').term == CheckBr(pad, x, n);
    var to := if Passes(d.sp, Word(pad), env.bound) then x else n;
    TopsAlike(related, c, d, fr.(prev := b, blk := x, pos := 0), fr'.(prev := b, blk := to, pos := 0));
  }

  lemma GuardTermStep(p: Program, env: Env, k: nat, b: nat, pad: nat, c: Config, d: Config)
    requires ProgramOk(p) && Defined(p, k) && GuardFits(p[k].body, b)
    requires GuardRel(p, k, b, pad, c, d) && c.status.Running? && !AtDetour(k, |p[k].body|, d)
    requires Top(c).pos == |BlockOf(p, Top(c)).instrs|
    ensures var q := WithBody(p, k, Guard(p[k].body, b, pad));
            Alike((fr, fr') => GuardFrame(k, p[k].body[b].term.target, |p[k].body|, fr, fr'),
                  Step(p, env, c), Step(q, env, d))
  {
    var f, n := p[k].body, |p[k].body|;
    var q := WithBody(p, k, Guard(f, b, pad));
    var related := (fr, fr') => GuardFrame(k, f[b].term.target, n, fr, fr');
    var fr, fr' := Top(c), Top(d);
    assert related(fr, fr');
    assert BlockOf(q, fr').instrs == BlockOf(p, fr).instrs;
    if fr.fn == k && fr.blk == b {
      CheckStep(p, env, k, b, pad, c, d);
    } else {
      TermsAlike(env, related, c, d, BlockOf(p, fr).term);
    }
  }

  lemma GuardSimulates(p: Program, env: Env, k: nat, b: nat, pad: nat)
    requires ProgramOk(p) && Defined(p, k) && GuardFits(p[k].body, b)
    ensures ProgramOk(WithBody(p, k, Guard(p[k].body, b, pad)))
    ensures Simulates(p, WithBody(p, k, Guard(p[k].body, b, pad)), env,
                      (c, d) => GuardRel(p, k, b, pad, c, d), d => GuardRank(k, |p[k].body|, d))
  {
    var q := WithBody(p, k, Guard(p[k].body, b, pad));
    GuardOk(p[k].body, b, pad);
    WithBodyOk(p, k, Guard(p[k].body, b, pad));
    var rel := (c, d) => GuardRel(p, k, b, pad, c, d);
    var rank := d => GuardRank(k, |p[k].body|, d);
    forall c, d | rel(c, d) ensures Fits(p, q, env, rel, rank, c, d) {
      StepOk(p, env, c);
      StepOk(q, env, d);
      if c.status.Running? {
        if AtDetour(k, |p[k].body|, d) {
          if Top(d).pos == 0 {
            DetourCall(p, env, k, b, pad, c, d);
          } else {
            DetourBranch(p, env, k, b, pad, c, d);
          }
        } else if Top(c).pos < |BlockOf(p, Top(c)).instrs| {
          GuardInstrStep(p, env, k, b, pad, c, d);
        } else {
          GuardTermStep(p, env, k, b, pad, c, d);
        }
      }
    }
  }

  /** Replacing a branch by a check preserves meaning, whatever `__morestack` does. */
  lemma GuardPreserves(p: Program, env: Env, k: nat, b: nat, pad: nat, main: nat, sp: nat)
    requires ProgramOk(p) && Defined(p, k) && GuardFits(p[k].body, b) && Defined(p, main) && sp < WORD
    ensures Preserves(p, WithBody(p, k, Guard(p[k].body, b, pad)), env, Initial(env, main, sp))
  {
    var q := WithBody(p, k, Guard(p[k].body, b, pad));
    GuardSimulates(p, env, k, b, pad);
    GuardOk(p[k].body, b, pad);
    WithBodyOk(p, k, Guard(p[k].body, b, pad));
    InitialOk(p, env, main, sp);
    InitialOk(q, env, main, sp);
    SimulationPreserves(p, q, env, (c, d) => GuardRel(p, k, b, pad, c, d), d => GuardRank(k, |p[k].body|, d),
                        Initial(env, main, sp));
  }
}
