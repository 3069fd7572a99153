/** What one turn of the baseline's threads comes to, and how many turns its consumer needs. */
module MutexTurns {
  import opened Numbers
  import opened MutexBench
  import SoftLockInvariant

  // ---- a thread running alone ----

  function Solo(sc: Scenario, s: Shared, t: Thread, n: nat): (Shared, Thread)
    decreases n
  {
    if n == 0 then (s, t) else Solo(sc, Step(sc, s, t).0, Step(sc, s, t).1, n - 1)
  }

  /** Alone, t gets from s to s' and t'. */
  ghost predicate Runs(sc: Scenario, s: Shared, t: Thread, s': Shared, t': Thread) {
    exists n: nat :: Solo(sc, s, t, n) == (s', t')
  }

  lemma RunsNot(sc: Scenario, s: Shared, t: Thread)
    ensures Runs(sc, s, t, s, t)
  {
    assert Solo(sc, s, t, 0) == (s, t);
  }

  lemma RunsStep(sc: Scenario, s: Shared, t: Thread, s'': Shared, t'': Thread)
    requires Runs(sc, Step(sc, s, t).0, Step(sc, s, t).1, s'', t'')
    ensures Runs(sc, s, t, s'', t'')
  {
    var n: nat :| Solo(sc, Step(sc, s, t).0, Step(sc, s, t).1, n) == (s'', t'');
    assert Solo(sc, s, t, n + 1) == (s'', t'');
  }

  /** A producer's turn queues the next id. */
  lemma SubmissionRuns(sc: Scenario, s: Shared, t: Thread)
    requires t.pc.CountLock? && !s.held
    ensures Runs(sc, s, t,
                 s.(producerLocks := s.producerLocks + 1, nextId := s.nextId + 1, queue := s.queue + [s.nextId]),
                 t.(pc := Resting))
  {
    var s1 := s.(producerLocks := s.producerLocks + 1);
    var s2 := s1.(held := true);
    var s3 := s2.(nextId := s.nextId + 1);
    var s4 := s3.(queue := s.queue + [s.nextId]);
    var e, last := s4.(held := false), t.(pc := Resting);
    RunsNot(sc, e, last);
    RunsStep(sc, s4, t.(pc := Unlock), e, last);
    RunsStep(sc, s3, t.(pc := Push(s.nextId)), e, last);
    RunsStep(sc, s2, t.(pc := Draw), e, last);
    RunsStep(sc, s1, t.(pc := Lock), e, last);
    RunsStep(sc, s, t, e, last);
  }

  /** The first n ids of the queue are popped and counted. */
  function Taken(s: Shared, n: nat): Shared
    requires n <= |s.queue|
  {
    s.(queue := s.queue[n..], popped := s.popped + s.queue[..n], processed := s.processed + n)
  }

  /** Whether the consumer's loop goes on, from what it reads after its pops. */
  predicate GoesOn(sc: Scenario, s: Shared) {
    s.processed < TotalOps(sc) && !(s.producersDone && s.queue == [])
  }

  lemma DecisionRuns(sc: Scenario, s: Shared, t: Thread)
    requires t.pc.LoadProcessed?
    ensures Runs(sc, s, t, s.(held := false), Thread(Resting, GoesOn(sc, s)))
  {
    var e, last := s.(held := false), Thread(Resting, GoesOn(sc, s));
    RunsNot(sc, e, last);
    RunsStep(sc, s, t.(pc := EndTurn(GoesOn(sc, s))), e, last);
    if s.processed < TotalOps(sc) {
      RunsStep(sc, s, t.(pc := LoadDone), e, last);
    }
    RunsStep(sc, s, t, e, last);
  }

  lemma TakenOne(s: Shared, n: nat)
    requires 0 < n <= |s.queue|
    ensures var s2 := s.(queue := s.queue[1..], popped := s.popped + [s.queue[0]], processed := s.processed + 1);
            Taken(s2, n - 1) == Taken(s, n)
  {
    assert s.queue[1..][n - 1..] == s.queue[n..];
    assert s.popped + [s.queue[0]] + s.queue[1..][..n - 1] == s.popped + s.queue[..n];
  }

  /** One pop, and its count. */
  lemma PopRuns(sc: Scenario, s: Shared, t: Thread, k: nat, end: Shared, last: Thread)
    requires t.pc == Pop(k) && k > 0 && s.queue != []
    requires Runs(sc, s.(queue := s.queue[1..], popped := s.popped + [s.queue[0]], processed := s.processed + 1),
                  t.(pc := Pop(k - 1)), end, last)
    ensures Runs(sc, s, t, end, last)
  {
    RunsStep(sc, s.(queue := s.queue[1..], popped := s.popped + [s.queue[0]]), t.(pc := CountPopped(k - 1)), end, last);
    RunsStep(sc, s, t, end, last);
  }

  lemma StopRuns(sc: Scenario, s: Shared, t: Thread, k: nat)
    requires t.pc == Pop(k) && (k == 0 || s.queue == [])
    ensures Runs(sc, s, t, s.(held := false), Thread(Resting, GoesOn(sc, s))) && Taken(s, 0) == s
  {
    assert s.queue[0..] == s.queue && s.popped + s.queue[..0] == s.popped;
    DecisionRuns(sc, s, t.(pc := LoadProcessed));
    RunsStep(sc, s, t, s.(held := false), Thread(Resting, GoesOn(sc, s)));
  }

  lemma {:induction false} PopLoopRuns(sc: Scenario, s: Shared, t: Thread, k: nat)
    requires t.pc == Pop(k)
    ensures var e := Taken(s, Min(k, |s.queue|));
            Runs(sc, s, t, e.(held := false), Thread(Resting, GoesOn(sc, e)))
    decreases k
  {
    if k == 0 || s.queue == [] {
      StopRuns(sc, s, t, k);
    } else {
      var n := Min(k, |s.queue|);
      var e := Taken(s, n);
      var s2 := s.(queue := s.queue[1..], popped := s.popped + [s.queue[0]], processed := s.processed + 1);
      PopLoopRuns(sc, s2, t.(pc := Pop(k - 1)), k - 1);
      TakenOne(s, n);
      PopRuns(sc, s, t, k, e.(held := false), Thread(Resting, GoesOn(sc, e)));
    }
  }

  /** A consumer's turn is counted, takes exactly min(budget, queue length) ids from the front, and decides on what is
      left whether there is another. */
  lemma TurnRuns(sc: Scenario, s: Shared, t: Thread)
    requires t.pc.CountTurn? && !s.held
    ensures var e := Taken(s.(consumerLocks := s.consumerLocks + 1), Min(sc.budget, |s.queue|));
            Runs(sc, s, t, e, Thread(Resting, GoesOn(sc, e)))
  {
    var s1 := s.(consumerLocks := s.consumerLocks + 1);
    var s2 := s1.(held := true);
    var e := Taken(s1, Min(sc.budget, |s.queue|));
    var last := Thread(Resting, GoesOn(sc, e));
    PopLoopRuns(sc, s2, t.(pc := Pop(sc.budget)), sc.budget);
    RunsStep(sc, s1, t.(pc := LockTurn), e, last);
    RunsStep(sc, s, t, e, last);
  }

  // ---- in every interleaving ----

  /** The consumer is between taking the mutex and its decision; x is the state in which it took it. */
  ghost predicate InTurn(x: Bench, b: Bench)
    requires Shaped(b)
  {
    var pc := b.threads[0].pc;
    && b.sc == x.sc && b.sh.popped + b.sh.queue == x.sh.popped + x.sh.queue
    && (pc.Pop? || pc.CountPopped? ==> |b.sh.popped| + pc.k == |x.sh.popped| + x.sc.budget)
    && (pc.LoadProcessed? || pc.LoadDone? || pc.EndTurn? ==>
          |b.sh.popped| == |x.sh.popped| + Min(x.sc.budget, |x.sh.queue|))
  }

  ghost predicate StaysInTurn(b: Bench, run: seq<Action>)
    requires Shaped(b) && Legal(b, run)
    decreases |run|
  {
    Holds(After(b, run).threads[0].pc) && (run != [] ==> StaysInTurn(b, run[..|run| - 1]))
  }

  lemma ActionInTurn(x: Bench, b: Bench, a: Action)
    requires Inv(b) && InTurn(x, b) && Can(b, a) && Holds(b.threads[0].pc) && Holds(Do(b, a).threads[0].pc)
    ensures InTurn(x, Do(b, a))
  {
    assert RoleOk(0, b.threads[0]);
    if a.Advance? && a.i != 0 {
      if Holds(b.threads[a.i].pc) {
        OneHolder(b, 0, a.i);
      }
    } else if a.Advance? {
      ConsumerInTurn(x, b);
    }
  }

  lemma ConsumerInTurn(x: Bench, b: Bench)
    requires Shaped(b) && InTurn(x, b) && Can(b, Advance(0)) && Holds(b.threads[0].pc) && RoleOk(0, b.threads[0])
    ensures InTurn(x, Do(b, Advance(0)))
  {
    var s, t := b.sh, b.threads[0];
    assert |s.popped| + |s.queue| == |x.sh.popped| + |x.sh.queue| by {
      assert |s.popped + s.queue| == |x.sh.popped + x.sh.queue|;
    }
    if t.pc.Pop? && t.pc.k > 0 && s.queue != [] {
      assert s.popped + [s.queue[0]] + s.queue[1..] == s.popped + s.queue;
    }
  }

  lemma {:induction false} RunInTurn(x: Bench, b: Bench, run: seq<Action>)
    requires Inv(b) && InTurn(x, b) && Legal(b, run) && StaysInTurn(b, run)
    ensures Inv(After(b, run)) && InTurn(x, After(b, run))
    decreases |run|
  {
    if run == [] {
    } else {
      var front := run[..|run| - 1];
      RunInTurn(x, b, front);
      ActionKeepsInv(After(b, front), run[|run| - 1]);
      assert StaysInTurn(b, front);
      ActionInTurn(x, After(b, front), run[|run| - 1]);
    }
  }

  /** In every run, whatever the producers do meanwhile: a turn takes min(budget, queue length) ids, the oldest. */
  lemma TurnTakes(start: Bench, before: seq<Action>, x: Bench, y: Bench, turn: seq<Action>)
    requires IsStart(start) && Legal(start, before) && x == After(start, before)
    requires x.threads[0].pc.LockTurn? && Can(x, Advance(0)) && y == Do(x, Advance(0))
    requires Legal(y, turn) && StaysInTurn(y, turn) && After(y, turn).threads[0].pc.EndTurn?
    ensures var n := Min(x.sc.budget, |x.sh.queue|);
            var z := After(y, turn).sh;
            z.popped == x.sh.popped + x.sh.queue[..n] && z.queue == x.sh.queue[n..]
  {
    RunInv(start, before);
    ActionKeepsInv(x, Advance(0));
    RunInTurn(x, y, turn);
    SplitsAt(After(y, turn).sh, x.sh, Min(x.sc.budget, |x.sh.queue|));
  }

  lemma SplitsAt(z: Shared, s: Shared, n: nat)
    requires z.popped + z.queue == s.popped + s.queue && n <= |s.queue| && |z.popped| == |s.popped| + n
    ensures z.popped == s.popped + s.queue[..n] && z.queue == s.queue[n..]
  {
    var all, m := s.popped + s.queue, |z.popped|;
    assert z.popped == all[..m] && z.queue == all[m..];
    assert all[..m] == s.popped + s.queue[..n] && all[m..] == s.queue[n..];
  }

  // ---- how many turns ----

  function Turns(run: seq<Action>): nat {
    if run == [] then 0 else Turns(run[..|run| - 1]) + Bit(run[|run| - 1].NextTurn?)
  }

  /** What the turn in progress may still take. */
  function MayTake(b: Bench): nat
    requires Shaped(b)
  {
    var pc := b.threads[0].pc;
    if pc.LockTurn? then b.sc.budget else if pc.Pop? || pc.CountPopped? then pc.k else 0
  }

  /** Every turn is counted, and nothing is popped but in turns, budget by budget. */
  ghost predicate TurnsCounted(b: Bench, turns: nat)
    requires Shaped(b)
  {
    && b.sh.consumerLocks + Bit(b.threads[0].pc.CountTurn?) == turns
    && |b.sh.popped| + MayTake(b) <= b.sh.consumerLocks * b.sc.budget
  }

  lemma OneMoreTurn(locks: nat, budget: nat)
    ensures (locks + 1) * budget == locks * budget + budget
  {
  }

  lemma ActionCountsTurns(b: Bench, a: Action, turns: nat)
    requires Inv(b) && Can(b, a) && TurnsCounted(b, turns)
    ensures TurnsCounted(Do(b, a), turns + Bit(a.NextTurn?))
  {
    OneMoreTurn(b.sh.consumerLocks, b.sc.budget);
    assert RoleOk(0, b.threads[0]);
    if a.Advance? {
      assert RoleOk(a.i, b.threads[a.i]);
    }
  }

  lemma {:induction false} RunCountsTurns(b: Bench, run: seq<Action>)
    requires IsStart(b) && Legal(b, run)
    ensures TurnsCounted(After(b, run), Turns(run))
    decreases |run|
  {
    if run == [] {
      assert Rests(b.threads[0]);
    } else {
      var front := run[..|run| - 1];
      RunCountsTurns(b, front);
      RunInv(b, front);
      ActionCountsTurns(After(b, front), run[|run| - 1], Turns(front));
    }
  }

  /** In every complete run consumer_lock_count is the number of turns, and they were at least the total divided by
      the budget, rounded up. */
  lemma TurnsNeeded(b: Bench, run: seq<Action>)
    requires IsStart(b) && Legal(b, run) && After(b, run).main.Over?
    ensures After(b, run).sh.consumerLocks == Turns(run)
    ensures b.sc.budget > 0 ==> Turns(run) >= CeilDiv(TotalOps(b.sc), b.sc.budget)
  {
    RunCountsTurns(b, run);
    RunInv(b, run);
    BenchCorrect(b, run);
    assert ConsumerFinished(After(b, run));
    if b.sc.budget > 0 {
      CeilDivLeast(TotalOps(b.sc), b.sc.budget, Turns(run));
    }
  }
}
