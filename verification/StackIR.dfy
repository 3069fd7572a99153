/**
 The part of LLVM IR the stack-check pass looks at: blocks of instructions with a
 terminator, allocas, calls, and everything else opaque; and how a program of
 such functions runs on a stack.

 The data a program computes with is its trace: what a branch decides or an alloca's
 size is may depend on every original instruction executed before, in any way.
 */
module StackIR {
  import opened Numbers

  datatype Instr =
    | Phi(id: nat, incoming: seq<nat>)       // one entry per predecessor block
    | Alloca(id: nat, constantSize: bool)
    | Call(id: nat, callee: nat)
    | Other(id: nat)                         // any other original instruction
    | Morestack                              // inserted: call void @__morestack(pad)

  datatype Term =
    | Br(target: nat)
    | CondBr(id: nat, ifTrue: nat, ifFalse: nat)
    | Ret
    | CheckBr(pad: nat, ok: nat, more: nat)  // inserted: sp - pad >= bound ? ok : more

  datatype Block = Block(instrs: seq<Instr>, term: Term)

  datatype Function = Function(
    name: string, declaration: bool, noSplitStack: bool, naked: bool, body: seq<Block>)

  type Program = seq<Function>

  /** What the original instructions do, in order. */
  datatype Event =
    | TookPhi(id: nat, index: nat)
    | Allocated(id: nat)
    | Called(id: nat)
    | Did(id: nat)
    | Branched(id: nat, taken: bool)
    | Returned

  type Trace = seq<Event>

  /** The world a program runs in. `frame` is what a function's prologue subtracts from SP, `bound` the
      running thread's `__hopter_stklet_bound`, `comesBack` whether `__morestack` comes back. */
  datatype Env = Env(
    decide: (nat, Trace) -> bool,
    size: (nat, Trace) -> nat,
    comesBack: Trace -> bool,
    frame: nat -> nat,
    bound: nat)

  datatype Status = Running | Ended | Aborted

  /** An activation: where it is, the block it came from (none: -1), and SP before its prologue. */
  datatype Frame = Frame(fn: nat, prev: int, blk: nat, pos: nat, base: nat)

  datatype Config = Config(
    status: Status, stack: seq<Frame>, trace: Trace, sp: nat,
    // history, read by no step
    checks: nat,   // checks executed
    entries: nat,  // functions entered
    before: nat)   // SP before its last decrement

  // ---- well-formedness ----

  function Succs(t: Term): seq<nat> {
    match t
    case Br(x) => [x]
    case CondBr(_, x, y) => [x, y]
    case Ret => []
    case CheckBr(_, x, y) => [x, y]
  }

  predicate NoPhis(instrs: seq<Instr>) {
    forall i :: 0 <= i < |instrs| ==> !instrs[i].Phi?
  }

  /** Successors exist and are not the entry; phis come first and name blocks of the function. */
  predicate BlockOk(f: seq<Block>, b: Block) {
    && (forall j :: 0 <= j < |Succs(b.term)| ==> 0 < Succs(b.term)[j] < |f|)
    && (forall i, j :: 0 <= i < j < |b.instrs| && b.instrs[j].Phi? ==> b.instrs[i].Phi?)
    && (forall i, j :: 0 <= i < |b.instrs| && b.instrs[i].Phi? && 0 <= j < |b.instrs[i].incoming| ==>
          b.instrs[i].incoming[j] < |f|)
  }

  /** What LLVM's verifier guarantees of a function body. */
  predicate BodyOk(f: seq<Block>) {
    && |f| > 0
    && NoPhis(f[0].instrs)
    && (forall b :: 0 <= b < |f| ==> BlockOk(f, f[b]))
  }

  /** A function without a body is external: a call of it is opaque. */
  predicate ProgramOk(p: Program) {
    forall k :: 0 <= k < |p| && p[k].body != [] ==> BodyOk(p[k].body)
  }

  predicate Defined(p: Program, fn: nat) {
    fn < |p| && p[fn].body != []
  }

  // ---- running ----

  function IndexOf(xs: seq<nat>, x: int): nat {
    if xs == [] || xs[0] == x then 0 else 1 + IndexOf(xs[1..], x)
  }

  /** The inserted comparison: a wrapping subtraction and an unsigned `>=`. */
  predicate Passes(sp: nat, pad: nat, bound: nat)
    requires sp < WORD && pad < WORD
  {
    WrapSub(sp, pad) >= bound
  }

  function Word(n: nat): nat {
    n % WORD
  }

  predicate FrameOk(p: Program, fr: Frame) {
    && Defined(p, fr.fn)
    && fr.blk < |p[fr.fn].body|
    && fr.pos <= |p[fr.fn].body[fr.blk].instrs|
    && fr.base < WORD
    && (fr.prev == -1 ==> fr.blk == 0)
    && (fr.prev != -1 ==> 0 <= fr.prev < |p[fr.fn].body| && fr.blk in Succs(p[fr.fn].body[fr.prev].term))
  }

  predicate ConfigOk(p: Program, c: Config) {
    && c.sp < WORD
    && (c.status.Running? ==> c.stack != [])
    && (forall i :: 0 <= i < |c.stack| ==> FrameOk(p, c.stack[i]))
  }

  function Top(c: Config): Frame
    requires c.stack != []
  {
    c.stack[|c.stack| - 1]
  }

  function SetTop(c: Config, fr: Frame): Config
    requires c.stack != []
  {
    c.(stack := c.stack[|c.stack| - 1 := fr])
  }

  function Goto(c: Config, target: nat): Config
    requires c.stack != []
  {
    SetTop(c, Top(c).(prev := Top(c).blk, blk := target, pos := 0))
  }

  function Advance(c: Config): Config
    requires c.stack != []
  {
    SetTop(c, Top(c).(pos := Top(c).pos + 1))
  }

  function Emit(c: Config, e: Event): Config {
    c.(trace := c.trace + [e])
  }

  function Lower(c: Config, n: nat): Config
    requires c.sp < WORD
  {
    c.(sp := WrapSub(c.sp, Word(n)), before := c.sp)
  }

  /** Entering a function: the prologue lowers SP before its first instruction. */
  function Enter(env: Env, c: Config, fn: nat): Config
    requires c.sp < WORD
  {
    Lower(c, env.frame(fn)).(stack := c.stack + [Frame(fn, -1, 0, 0, c.sp)], entries := c.entries + 1)
  }

  function DoInstr(p: Program, env: Env, c: Config, i: Instr): Config
    requires ConfigOk(p, c) && c.stack != []
  {
    match i
    case Phi(id, incoming) => Emit(Advance(c), TookPhi(id, IndexOf(incoming, Top(c).prev)))
    case Alloca(id, _) => Lower(Emit(Advance(c), Allocated(id)), env.size(id, c.trace))
    case Call(id, callee) =>
      var c' := Emit(Advance(c), Called(id));
      if Defined(p, callee) then Enter(env, c', callee) else c'
    case Other(id) => Emit(Advance(c), Did(id))
    case Morestack => if env.comesBack(c.trace) then Advance(c) else c.(status := Aborted)
  }

  function DoTerm(env: Env, c: Config, t: Term): Config
    requires c.stack != [] && c.sp < WORD
  {
    match t
    case Br(x) => Goto(c, x)
    case CondBr(id, x, y) =>
      var taken := env.decide(id, c.trace);
      Emit(Goto(c, if taken then x else y), Branched(id, taken))
    case Ret =>
      var rest := c.stack[..|c.stack| - 1];
      Emit(c.(stack := rest, sp := Top(c).base, status := if rest == [] then Ended else Running), Returned)
    case CheckBr(pad, x, y) =>
      Goto(c, if Passes(c.sp, Word(pad), env.bound) then x else y).(checks := c.checks + 1)
  }

  function BlockOf(p: Program, fr: Frame): Block
    requires FrameOk(p, fr)
  {
    p[fr.fn].body[fr.blk]
  }

  /** One instruction or terminator. */
  function Step(p: Program, env: Env, c: Config): Config
    requires ConfigOk(p, c)
  {
    if !c.status.Running? then c
    else
      var b := BlockOf(p, Top(c));
      if Top(c).pos < |b.instrs| then DoInstr(p, env, c, b.instrs[Top(c).pos]) else DoTerm(env, c, b.term)
  }

  lemma GotoOk(p: Program, c: Config, j: nat)
    requires ProgramOk(p) && ConfigOk(p, c) && c.stack != []
    requires j < |Succs(BlockOf(p, Top(c)).term)|
    ensures ConfigOk(p, Goto(c, Succs(BlockOf(p, Top(c)).term)[j]))
  {
    var fr := Top(c);
    var f := p[fr.fn].body;
    assert BodyOk(f) && BlockOk(f, f[fr.blk]);
    assert Succs(f[fr.blk].term)[j] in Succs(f[fr.blk].term);
  }

  lemma TermOk(p: Program, env: Env, c: Config)
    requires ProgramOk(p) && ConfigOk(p, c) && c.status.Running?
    ensures ConfigOk(p, DoTerm(env, c, BlockOf(p, Top(c)).term))
  {
    var t := BlockOf(p, Top(c)).term;
    if |Succs(t)| > 0 {
      GotoOk(p, c, 0);
    }
    if |Succs(t)| > 1 {
      GotoOk(p, c, 1);
    }
  }

  lemma EnterOk(p: Program, env: Env, c: Config, fn: nat)
    requires ProgramOk(p) && ConfigOk(p, c) && c.status.Running? && Defined(p, fn)
    ensures ConfigOk(p, Enter(env, c, fn))
  {
  }

  lemma AdvanceOk(p: Program, c: Config, e: Event)
    requires ProgramOk(p) && ConfigOk(p, c) && c.status.Running? && Top(c).pos < |BlockOf(p, Top(c)).instrs|
    ensures ConfigOk(p, Advance(c)) && ConfigOk(p, Emit(Advance(c), e))
  {
  }

  lemma InstrOk(p: Program, env: Env, c: Config)
    requires ProgramOk(p) && ConfigOk(p, c) && c.status.Running? && Top(c).pos < |BlockOf(p, Top(c)).instrs|
    ensures ConfigOk(p, DoInstr(p, env, c, BlockOf(p, Top(c)).instrs[Top(c).pos]))
  {
    var i := BlockOf(p, Top(c)).instrs[Top(c).pos];
    if i.Call? {
      AdvanceOk(p, c, Called(i.id));
      if Defined(p, i.callee) {
        EnterOk(p, env, Emit(Advance(c), Called(i.id)), i.callee);
      }
    } else if i.Alloca? {
      AdvanceOk(p, c, Allocated(i.id));
    } else {
      AdvanceOk(p, c, if i.Phi? then TookPhi(i.id, IndexOf(i.incoming, Top(c).prev)) else Returned);
    }
  }

  /** A call enters a function that has a body, and is one opaque instruction otherwise. */
  lemma CallSteps(p: Program, env: Env, c: Config)
    requires ConfigOk(p, c) && c.status.Running? && Top(c).pos < |BlockOf(p, Top(c)).instrs|
    requires BlockOf(p, Top(c)).instrs[Top(c).pos].Call?
    ensures var i := BlockOf(p, Top(c)).instrs[Top(c).pos];
            var c' := Emit(Advance(c), Called(i.id));
            Step(p, env, c) == if Defined(p, i.callee) then Enter(env, c', i.callee) else c'
  {
  }

  lemma StepOk(p: Program, env: Env, c: Config)
    requires ProgramOk(p) && ConfigOk(p, c)
    ensures ConfigOk(p, Step(p, env, c))
  {
    if c.status.Running? {
      if Top(c).pos < |BlockOf(p, Top(c)).instrs| {
        InstrOk(p, env, c);
      } else {
        TermOk(p, env, c);
      }
    }
  }

  /** n steps from c. */
  ghost function Run(p: Program, env: Env, c: Config, n: nat): (d: Config)
    requires ProgramOk(p) && ConfigOk(p, c)
    ensures ConfigOk(p, d)
  {
    if n == 0 then c
    else
      var d := Run(p, env, c, n - 1);
      StepOk(p, env, d);
      Step(p, env, d)
  }

  /** A thread about to enter function `main` with stack pointer sp. */
  function Initial(env: Env, main: nat, sp: nat): Config
    requires sp < WORD
  {
    Enter(env, Config(Running, [], [], sp, 0, 0, sp), main)
  }

  lemma InitialOk(p: Program, env: Env, main: nat, sp: nat)
    requires ProgramOk(p) && Defined(p, main) && sp < WORD
    ensures ConfigOk(p, Initial(env, main, sp))
  {
  }

  lemma StepExtends(p: Program, env: Env, c: Config)
    requires ConfigOk(p, c)
    ensures c.trace <= Step(p, env, c).trace
  {
  }

  lemma RunNext(p: Program, env: Env, c: Config, n: nat) returns (d: Config, e: Config)
    requires ProgramOk(p) && ConfigOk(p, c)
    ensures d == Run(p, env, c, n) && e == Run(p, env, c, n + 1) && ConfigOk(p, d) && e == Step(p, env, d)
  {
    d, e := Run(p, env, c, n), Run(p, env, c, n + 1);
  }

  lemma NextExtends(p: Program, env: Env, c: Config, n: nat)
    requires ProgramOk(p) && ConfigOk(p, c)
    ensures Run(p, env, c, n).trace <= Run(p, env, c, n + 1).trace
  {
    var d, _ := RunNext(p, env, c, n);
    StepExtends(p, env, d);
  }

  /** What grows at every step grows over any number of steps. */
  lemma {:induction false} GrowsOn(f: nat -> Trace, m: nat, n: nat)
    requires (forall k: nat :: f(k) <= f(k + 1)) && m <= n
    ensures f(m) <= f(n)
    decreases n
  {
    if m == n {
    } else {
      GrowsOn(f, m, n - 1);
      assert f(n - 1) <= f(n - 1 + 1);
    }
  }

  lemma RunExtends(p: Program, env: Env, c: Config, m: nat, n: nat)
    requires ProgramOk(p) && ConfigOk(p, c) && m <= n
    ensures Run(p, env, c, m).trace <= Run(p, env, c, n).trace
  {
    var f := (k: nat) => Run(p, env, c, k).trace;
    forall k: nat ensures f(k) <= f(k + 1) {
      NextExtends(p, env, c, k);
    }
    GrowsOn(f, m, n);
  }

  /** inv is kept by every step. */
  ghost predicate Invariant(p: Program, env: Env, inv: Config -> bool) {
    forall c :: ConfigOk(p, c) && inv(c) ==> inv(Step(p, env, c))
  }

  lemma {:induction false} RunInvariant(p: Program, env: Env, inv: Config -> bool, c: Config, n: nat)
    requires ProgramOk(p) && ConfigOk(p, c) && Invariant(p, env, inv) && inv(c)
    ensures inv(Run(p, env, c, n))
  {
    if n == 0 {
    } else {
      RunInvariant(p, env, inv, c, n - 1);
    }
  }

  // ---- what the steps mean ----

  /** The entry of the predecessor, the first if there are several. */
  lemma {:induction false} IndexOfFinds(xs: seq<nat>, x: nat)
    requires x in xs
    ensures IndexOf(xs, x) < |xs| && xs[IndexOf(xs, x)] == x && x !in xs[..IndexOf(xs, x)]
  {
    if xs[0] == x {
    } else {
      IndexOfFinds(xs[1..], x);
      var j := IndexOf(xs[1..], x);
      assert xs[..1 + j] == [xs[0]] + xs[1..][..j];
    }
  }

  predicate NextIs(p: Program, c: Config, i: Instr)
    requires ConfigOk(p, c)
  {
    c.status.Running? && Top(c).pos < |BlockOf(p, Top(c)).instrs| && BlockOf(p, Top(c)).instrs[Top(c).pos] == i
  }

  /** A phi takes the entry of the block the activation came from. */
  lemma PhiTakesPredecessor(p: Program, env: Env, c: Config, id: nat, incoming: seq<nat>)
    requires ConfigOk(p, c) && NextIs(p, c, Phi(id, incoming)) && Top(c).prev in incoming
    ensures var c' := Step(p, env, c);
            exists j: nat {:trigger incoming[j]} ::
              j < |incoming| && incoming[j] == Top(c).prev && c'.trace == c.trace + [TookPhi(id, j)] && c'.sp == c.sp
  {
    IndexOfFinds(incoming, Top(c).prev);
    var j := IndexOf(incoming, Top(c).prev);
    assert incoming[j] == Top(c).prev;
  }

  /** An alloca takes its size off SP, as long as SP does not wrap. */
  lemma AllocaLowers(p: Program, env: Env, c: Config, id: nat, constantSize: bool)
    requires ConfigOk(p, c) && NextIs(p, c, Alloca(id, constantSize)) && env.size(id, c.trace) <= c.sp
    ensures var c' := Step(p, env, c);
            c'.sp == c.sp - env.size(id, c.trace) && c'.trace == c.trace + [Allocated(id)]
  {
  }

  /** A conditional branch goes where its decision says, and the decision is on the trace. */
  lemma BranchDecides(p: Program, env: Env, c: Config, id: nat, ifTrue: nat, ifFalse: nat)
    requires ConfigOk(p, c) && c.status.Running? && Top(c).pos == |BlockOf(p, Top(c)).instrs|
    requires BlockOf(p, Top(c)).term == CondBr(id, ifTrue, ifFalse)
    ensures var c' := Step(p, env, c);
            if env.decide(id, c.trace)
            then Top(c').blk == ifTrue && c'.trace == c.trace + [Branched(id, true)]
            else Top(c').blk == ifFalse && c'.trace == c.trace + [Branched(id, false)]
  {
  }

  /** Below the top, activations keep the SP they will return to; and an activation's own stays while it is there. */
  lemma StepKeepsBase(p: Program, env: Env, c: Config, d: nat)
    requires ConfigOk(p, c) && d < |c.stack| && d < |Step(p, env, c).stack|
    ensures Step(p, env, c).stack[d].base == c.stack[d].base
  {
  }

  /** Only a return leaves an activation, and it sets SP to what it was before the activation's prologue. */
  lemma ReturnOnly(p: Program, env: Env, c: Config)
    requires ConfigOk(p, c) && |Step(p, env, c).stack| < |c.stack|
    ensures |Step(p, env, c).stack| == |c.stack| - 1 && Step(p, env, c).sp == Top(c).base
  {
  }

  predicate BaseAt(c: Config, d: nat, base: nat) {
    d < |c.stack| && c.stack[d].base == base
  }

  /** The activation at depth d is there in the first n + 1 states of the run. */
  ghost predicate StaysDeep(p: Program, env: Env, c: Config, d: nat, n: nat)
    requires ProgramOk(p) && ConfigOk(p, c)
  {
    |Run(p, env, c, n).stack| > d && (n > 0 ==> StaysDeep(p, env, c, d, n - 1))
  }

  lemma NextKeepsBase(p: Program, env: Env, x: Config, y: Config, d: nat, base: nat)
    requires ConfigOk(p, x) && y == Step(p, env, x) && BaseAt(x, d, base) && d < |y.stack|
    ensures BaseAt(y, d, base)
  {
    StepKeepsBase(p, env, x, d);
  }

  lemma {:induction false} CallKeepsBase(p: Program, env: Env, c: Config, d: nat, base: nat, n: nat)
    requires ProgramOk(p) && ConfigOk(p, c) && BaseAt(c, d, base) && StaysDeep(p, env, c, d, n)
    ensures BaseAt(Run(p, env, c, n), d, base)
  {
    if n == 0 {
    } else {
      CallKeepsBase(p, env, c, d, base, n - 1);
      var x, y := RunNext(p, env, c, n - 1);
      NextKeepsBase(p, env, x, y, d, base);
    }
  }

  lemma LeavesAt(p: Program, env: Env, x: Config, y: Config, d: nat, base: nat)
    requires ConfigOk(p, x) && y == Step(p, env, x) && BaseAt(x, d, base) && |y.stack| == d
    ensures y.sp == base
  {
    ReturnOnly(p, env, x);
  }

  lemma CallSetsBase(p: Program, env: Env, c: Config, id: nat, fn: nat)
    requires ConfigOk(p, c) && NextIs(p, c, Call(id, fn)) && Defined(p, fn)
    ensures BaseAt(Step(p, env, c), |c.stack|, c.sp)
  {
    CallSteps(p, env, c);
  }

  /** A call that returns leaves SP where it was, whatever ran in between: from its step on, for as long as the
      callee's activation is there, to the step that ends it. */
  lemma ReturnRestoresSp(p: Program, env: Env, c: Config, callee: Config, id: nat, fn: nat, n: nat)
    requires ProgramOk(p) && ConfigOk(p, c) && NextIs(p, c, Call(id, fn)) && Defined(p, fn)
    requires callee == Step(p, env, c) && ConfigOk(p, callee) && StaysDeep(p, env, callee, |c.stack|, n)
    requires |Run(p, env, callee, n + 1).stack| == |c.stack|
    ensures Run(p, env, callee, n + 1).sp == c.sp
  {
    CallSetsBase(p, env, c, id, fn);
    CallKeepsBase(p, env, callee, |c.stack|, c.sp, n);
    var x, y := RunNext(p, env, callee, n);
    LeavesAt(p, env, x, y, |c.stack|, c.sp);
  }
}
