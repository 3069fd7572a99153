/** When one program's runs follow another's: the notion, its transitivity, and how to show it step by step. */
module Simulation {
  import opened StackIR

  /** d does what c does, or was stopped by `__morestack` on the way there. */
  predicate Follows(c: Config, d: Config) {
    (d.status.Aborted? && d.trace <= c.trace) || (d.status == c.status && d.trace == c.trace)
  }

  /** d has done exactly what c has done; the only difference is that it may have been stopped. */
  predicate Matches(c: Config, d: Config) {
    d.trace == c.trace && (d.status == c.status || d.status.Aborted?)
  }

  ghost predicate Startable(p: Program, env: Env, c: Config) {
    ProgramOk(p) && ConfigOk(p, c)
  }

  /** Some state of q's run follows a. */
  ghost predicate GetsTo(q: Program, env: Env, c: Config, a: Config)
    requires Startable(q, env, c)
  {
    exists m: nat :: Follows(a, Run(q, env, c, m))
  }

  /** Some state of p's run matches b. */
  ghost predicate CameBy(p: Program, env: Env, c: Config, b: Config)
    requires Startable(p, env, c)
  {
    exists n: nat :: Matches(Run(p, env, c, n), b)
  }

  /** Every state p reaches, q reaches, unless it is stopped first. */
  ghost predicate Forwards(p: Program, q: Program, env: Env, c: Config)
    requires Startable(p, env, c) && Startable(q, env, c)
  {
    forall n: nat :: GetsTo(q, env, c, Run(p, env, c, n))
  }

  /** Every state q reaches, p reaches. */
  ghost predicate Backwards(p: Program, q: Program, env: Env, c: Config)
    requires Startable(p, env, c) && Startable(q, env, c)
  {
    forall m: nat :: CameBy(p, env, c, Run(q, env, c, m))
  }

  ghost predicate Preserves(p: Program, q: Program, env: Env, c: Config) {
    && Startable(p, env, c) && Startable(q, env, c)
    && Forwards(p, q, env, c) && Backwards(p, q, env, c)
  }

  lemma Following(q: Program, env: Env, c: Config, a: Config) returns (m: nat)
    requires Startable(q, env, c) && GetsTo(q, env, c, a)
    ensures Follows(a, Run(q, env, c, m))
  {
    m :| Follows(a, Run(q, env, c, m));
  }

  lemma Matching(p: Program, env: Env, c: Config, b: Config) returns (n: nat)
    requires Startable(p, env, c) && CameBy(p, env, c, b)
    ensures Matches(Run(p, env, c, n), b)
  {
    n :| Matches(Run(p, env, c, n), b);
  }

  lemma FollowsOn(a: Config, b: Config, d: Config)
    requires Follows(a, b) && Follows(b, d)
    ensures Follows(a, d)
  {
  }

  lemma PreservesItself(p: Program, env: Env, c: Config)
    requires Startable(p, env, c)
    ensures Preserves(p, p, env, c)
  {
    forall n: nat ensures GetsTo(p, env, c, Run(p, env, c, n)) {
      assert Follows(Run(p, env, c, n), Run(p, env, c, n));
    }
    forall m: nat ensures CameBy(p, env, c, Run(p, env, c, m)) {
      assert Matches(Run(p, env, c, m), Run(p, env, c, m));
    }
  }

  lemma ForwardsOn(p: Program, q: Program, r: Program, env: Env, c: Config)
    requires Startable(p, env, c) && Startable(q, env, c) && Startable(r, env, c)
    requires Forwards(p, q, env, c) && Forwards(q, r, env, c)
    ensures Forwards(p, r, env, c)
  {
    forall n: nat ensures GetsTo(r, env, c, Run(p, env, c, n)) {
      var a := Run(p, env, c, n);
      assert GetsTo(q, env, c, a);
      var m := Following(q, env, c, a);
      var b := Run(q, env, c, m);
      assert GetsTo(r, env, c, b);
      var l := Following(r, env, c, b);
      FollowsOn(a, b, Run(r, env, c, l));
    }
  }

  lemma BackwardsOn(p: Program, q: Program, r: Program, env: Env, c: Config)
    requires Startable(p, env, c) && Startable(q, env, c) && Startable(r, env, c)
    requires Backwards(p, q, env, c) && Backwards(q, r, env, c)
    ensures Backwards(p, r, env, c)
  {
    forall l: nat ensures CameBy(p, env, c, Run(r, env, c, l)) {
      var d := Run(r, env, c, l);
      assert CameBy(q, env, c, d);
      var m := Matching(q, env, c, d);
      var b := Run(q, env, c, m);
      assert CameBy(p, env, c, b);
      var n := Matching(p, env, c, b);
      assert Matches(Run(p, env, c, n), d);
    }
  }

  lemma PreservesOn(p: Program, q: Program, r: Program, env: Env, c: Config)
    requires Preserves(p, q, env, c) && Preserves(q, r, env, c)
    ensures Preserves(p, r, env, c)
  {
    ForwardsOn(p, q, r, env, c);
    BackwardsOn(p, q, r, env, c);
  }

  // ---- step by step ----

  /** d has been stopped where c is. */
  predicate Stopped(c: Config, d: Config) {
    d.status.Aborted? && d.trace == c.trace
  }

  /** A step of q from d: it matches one of p from c, or it is q's own and brings `rank` down, or it stops q. */
  ghost predicate StepFits(p: Program, q: Program, env: Env, rel: (Config, Config) -> bool, rank: Config -> nat,
                           c: Config, d: Config)
    requires ConfigOk(p, c) && ConfigOk(q, d)
  {
    var d' := Step(q, env, d);
    || rel(Step(p, env, c), d')
    || (rel(c, d') && rank(d') < rank(d))
    || Stopped(c, d')
  }

  /** rel is a simulation: related configurations agree, and stay related. */
  ghost predicate Simulates(p: Program, q: Program, env: Env, rel: (Config, Config) -> bool, rank: Config -> nat) {
    forall c, d {:trigger Fits(p, q, env, rel, rank, c, d)} :: rel(c, d) ==> Fits(p, q, env, rel, rank, c, d)
  }

  /** c and d agree, and q's next step from d fits. */
  ghost predicate Fits(p: Program, q: Program, env: Env, rel: (Config, Config) -> bool, rank: Config -> nat,
                       c: Config, d: Config) {
    && ConfigOk(p, c) && ConfigOk(q, d) && c.trace == d.trace && c.status == d.status
    && StepFits(p, q, env, rel, rank, c, d)
  }

  lemma FitsNow(p: Program, q: Program, env: Env, rel: (Config, Config) -> bool, rank: Config -> nat,
                c: Config, d: Config)
    requires Simulates(p, q, env, rel, rank) && rel(c, d)
    ensures ConfigOk(p, c) && ConfigOk(q, d) && c.trace == d.trace && c.status == d.status
    ensures StepFits(p, q, env, rel, rank, c, d)
  {
    assert Fits(p, q, env, rel, rank, c, d);
  }

  /** From d, q either catches up with p's step from c to c', or gets nearer to it. */
  ghost predicate Nears(rel: (Config, Config) -> bool, rank: Config -> nat,
                        c: Config, c': Config, d: Config, d': Config) {
    rel(c, d) ==> rel(c', d') || Stopped(c, d') || (rel(c, d') && rank(d') < rank(d))
  }

  lemma {:induction false} Descends(f: nat -> Config, rel: (Config, Config) -> bool, rank: Config -> nat,
                                    c: Config, c': Config, m: nat)
    returns (m': nat)
    requires forall k: nat :: Nears(rel, rank, c, c', f(k), f(k + 1))
    requires rel(c, f(m))
    ensures rel(c', f(m')) || Stopped(c, f(m'))
    decreases rank(f(m))
  {
    assert Nears(rel, rank, c, c', f(m), f(m + 1));
    if rel(c', f(m + 1)) || Stopped(c, f(m + 1)) {
      m' := m + 1;
    } else {
      m' := Descends(f, rel, rank, c, c', m + 1);
    }
  }

  lemma NextNears(p: Program, q: Program, env: Env, rel: (Config, Config) -> bool, rank: Config -> nat,
                  start: Config, c: Config, c': Config, k: nat)
    requires Startable(q, env, start) && Simulates(p, q, env, rel, rank)
    requires ConfigOk(p, c) && c' == Step(p, env, c)
    ensures Nears(rel, rank, c, c', Run(q, env, start, k), Run(q, env, start, k + 1))
  {
    var d, _ := RunNext(q, env, start, k);
    if rel(c, d) {
      FitsNow(p, q, env, rel, rank, c, d);
    }
  }

  /** q catches up with p's step from c to c'. */
  lemma CatchesUp(p: Program, q: Program, env: Env, rel: (Config, Config) -> bool, rank: Config -> nat,
                  start: Config, c: Config, c': Config, m: nat)
    returns (m': nat)
    requires Startable(q, env, start) && Simulates(p, q, env, rel, rank)
    requires ConfigOk(p, c) && c' == Step(p, env, c) && rel(c, Run(q, env, start, m))
    ensures var d' := Run(q, env, start, m'); rel(c', d') || Stopped(c, d')
  {
    var f := (k: nat) => Run(q, env, start, k);
    forall k: nat ensures Nears(rel, rank, c, c', f(k), f(k + 1)) {
      NextNears(p, q, env, rel, rank, start, c, c', k);
    }
    m' := Descends(f, rel, rank, c, c', m);
  }

  /** b goes on matching a, or has been stopped on the way to it. */
  ghost predicate Keeps(rel: (Config, Config) -> bool, a: Config, b: Config) {
    rel(a, b) || (b.status.Aborted? && b.trace <= a.trace)
  }

  lemma ForwardOne(p: Program, q: Program, env: Env, rel: (Config, Config) -> bool, rank: Config -> nat,
                   start: Config, a: Config, a': Config, m: nat)
    returns (m': nat)
    requires Startable(q, env, start) && Simulates(p, q, env, rel, rank)
    requires ConfigOk(p, a) && a' == Step(p, env, a) && Keeps(rel, a, Run(q, env, start, m))
    ensures Keeps(rel, a', Run(q, env, start, m'))
  {
    StepExtends(p, env, a);
    m' := m;
    if rel(a, Run(q, env, start, m)) {
      m' := CatchesUp(p, q, env, rel, rank, start, a, a', m);
    }
  }

  lemma {:induction false} Forward(p: Program, q: Program, env: Env,
                                   rel: (Config, Config) -> bool, rank: Config -> nat, c: Config, n: nat)
    returns (m: nat)
    requires Startable(p, env, c) && Startable(q, env, c) && Simulates(p, q, env, rel, rank) && rel(c, c)
    ensures Keeps(rel, Run(p, env, c, n), Run(q, env, c, m))
  {
    if n == 0 {
      m := 0;
    } else {
      m := Forward(p, q, env, rel, rank, c, n - 1);
      var a, a' := RunNext(p, env, c, n - 1);
      m := ForwardOne(p, q, env, rel, rank, c, a, a', m);
    }
  }

  lemma BackwardOne(p: Program, q: Program, env: Env, rel: (Config, Config) -> bool, rank: Config -> nat,
                    start: Config, n: nat, b: Config, b': Config)
    returns (n': nat)
    requires Startable(p, env, start) && Simulates(p, q, env, rel, rank)
    requires ConfigOk(q, b) && b' == Step(q, env, b)
    requires rel(Run(p, env, start, n), b) || Stopped(Run(p, env, start, n), b)
    ensures rel(Run(p, env, start, n'), b') || Stopped(Run(p, env, start, n'), b')
  {
    var a, a' := RunNext(p, env, start, n);
    n' := n;
    if rel(a, b) {
      FitsNow(p, q, env, rel, rank, a, b);
      if rel(a', b') {
        n' := n + 1;
      }
    }
  }

  lemma {:induction false} Backward(p: Program, q: Program, env: Env,
                                    rel: (Config, Config) -> bool, rank: Config -> nat, c: Config, m: nat)
    returns (n: nat)
    requires Startable(p, env, c) && Startable(q, env, c) && Simulates(p, q, env, rel, rank) && rel(c, c)
    ensures var a, b := Run(p, env, c, n), Run(q, env, c, m);
            rel(a, b) || Stopped(a, b)
  {
    if m == 0 {
      n := 0;
    } else {
      n := Backward(p, q, env, rel, rank, c, m - 1);
      var b, b' := RunNext(q, env, c, m - 1);
      n := BackwardOne(p, q, env, rel, rank, c, n, b, b');
    }
  }

  lemma RelatedMatch(p: Program, q: Program, env: Env, rel: (Config, Config) -> bool, rank: Config -> nat,
                     a: Config, b: Config)
    requires Simulates(p, q, env, rel, rank)
    ensures rel(a, b) ==> Follows(a, b) && Matches(a, b)
  {
    if rel(a, b) {
      FitsNow(p, q, env, rel, rank, a, b);
    }
  }

  /** A simulation that relates the start to itself preserves meaning. */
  lemma SimulationPreserves(p: Program, q: Program, env: Env, rel: (Config, Config) -> bool, rank: Config -> nat,
                            c: Config)
    requires Startable(p, env, c) && Startable(q, env, c) && Simulates(p, q, env, rel, rank) && rel(c, c)
    ensures Preserves(p, q, env, c)
  {
    forall n: nat ensures GetsTo(q, env, c, Run(p, env, c, n)) {
      var m := Forward(p, q, env, rel, rank, c, n);
      RelatedMatch(p, q, env, rel, rank, Run(p, env, c, n), Run(q, env, c, m));
      assert Follows(Run(p, env, c, n), Run(q, env, c, m));
    }
    forall m: nat ensures CameBy(p, env, c, Run(q, env, c, m)) {
      var n := Backward(p, q, env, rel, rank, c, m);
      RelatedMatch(p, q, env, rel, rank, Run(p, env, c, n), Run(q, env, c, m));
      assert Matches(Run(p, env, c, n), Run(q, env, c, m));
    }
  }
}
