/**
 `run_mutex_bench`: the same work under one plain mutex, in every interleaving, and its
 agreement with `run_softlock_bench`.
 */
module MutexBench {
  import opened Numbers
  import opened SoftLockInvariant
  import AbstractQueue
  import SoftLockBench

  type Scenario = SoftLockBench.Scenario

  function TotalOps(sc: Scenario): nat {
    SoftLockBench.TotalOps(sc)
  }

  datatype Shared = Shared(
    held: bool, // the queue's mutex
    queue: seq<nat>,
    nextId: nat,
    processed: nat,
    producerLocks: nat,
    consumerLocks: nat,
    producersDone: bool,
    popped: seq<nat>) // history

  datatype Pc =
    | Resting
    // a producer's turn
    | CountLock
    | Lock
    | Draw
    | Push(id: nat)
    | Unlock
    // a consumer's turn
    | CountTurn
    | LockTurn
    | Pop(k: nat)
    | CountPopped(k: nat)
    | LoadProcessed
    | LoadDone
    | EndTurn(again: bool)

  datatype Thread = Thread(pc: Pc, again: bool)

  /** The next access of a thread. Taking the mutex is offered only while it is free (see `Blocked`). */
  function Step(sc: Scenario, s: Shared, t: Thread): (Shared, Thread) {
    match t.pc
    case Resting => (s, t)
    case CountLock => (s.(producerLocks := s.producerLocks + 1), t.(pc := Lock))
    case Lock => (s.(held := true), t.(pc := Draw))
    case Draw => (s.(nextId := s.nextId + 1), t.(pc := Push(s.nextId)))
    case Push(id) => (s.(queue := s.queue + [id]), t.(pc := Unlock))
    case Unlock => (s.(held := false), t.(pc := Resting))
    case CountTurn => (s.(consumerLocks := s.consumerLocks + 1), t.(pc := LockTurn))
    case LockTurn => (s.(held := true), t.(pc := Pop(sc.budget)))
    case Pop(k) =>
      if k == 0 || s.queue == [] then (s, t.(pc := LoadProcessed))
      else (s.(queue := s.queue[1..], popped := s.popped + [s.queue[0]]), t.(pc := CountPopped(k - 1)))
    case CountPopped(k) => (s.(processed := s.processed + 1), t.(pc := Pop(k)))
    case LoadProcessed => (s, t.(pc := if s.processed >= TotalOps(sc) then EndTurn(false) else LoadDone))
    case LoadDone => (s, t.(pc := EndTurn(!(s.producersDone && s.queue == []))))
    case EndTurn(again) => (s.(held := false), Thread(Resting, again))
  }

  predicate Blocked(s: Shared, t: Thread) {
    (t.pc.Lock? || t.pc.LockTurn?) && s.held
  }

  datatype Main = Joining(k: nat) | JoiningConsumer | Over

  /** Thread 0 is the consumer, thread p + 1 producer p. */
  datatype Bench = Bench(sc: Scenario, sh: Shared, threads: seq<Thread>, left: seq<nat>, main: Main)

  predicate Shaped(b: Bench) {
    |b.threads| == b.sc.producers + 1 && |b.left| == b.sc.producers
  }

  predicate IsStart(b: Bench) {
    && Shaped(b)
    && !b.sh.held && b.sh.queue == [] && b.sh.nextId == 1 && b.sh.processed == 0
    && b.sh.producerLocks == 0 && b.sh.consumerLocks == 0
    && b.sh.popped == [] && !b.sh.producersDone
    && (forall i :: 0 <= i < |b.threads| ==> Rests(b.threads[i]))
    && b.threads[0].again
    && (forall p :: 0 <= p < |b.left| ==> b.left[p] == b.sc.opsPerProducer)
    && b.main == Joining(0)
  }

  predicate Rests(t: Thread) {
    t.pc.Resting?
  }

  predicate ProducerFinished(b: Bench, p: nat)
    requires Shaped(b) && p < b.sc.producers
  {
    Rests(b.threads[p + 1]) && b.left[p] == 0
  }

  predicate ConsumerFinished(b: Bench)
    requires Shaped(b)
  {
    Rests(b.threads[0]) && !b.threads[0].again
  }

  datatype Action = Advance(i: nat) | NextSubmission(p: nat) | NextTurn | MainStep

  predicate Can(b: Bench, a: Action)
    requires Shaped(b)
  {
    match a
    case Advance(i) => i < |b.threads| && !Rests(b.threads[i]) && !Blocked(b.sh, b.threads[i])
    case NextSubmission(p) => p < b.sc.producers && Rests(b.threads[p + 1]) && b.left[p] > 0
    case NextTurn => Rests(b.threads[0]) && b.threads[0].again
    case MainStep =>
      match b.main
      case Joining(k) => k < b.sc.producers ==> ProducerFinished(b, k)
      case JoiningConsumer => ConsumerFinished(b)
      case Over => false
  }

  function Do(b: Bench, a: Action): (b': Bench)
    requires Shaped(b) && Can(b, a)
    ensures Shaped(b') && b'.sc == b.sc
  {
    match a
    case Advance(i) =>
      var (s, t) := Step(b.sc, b.sh, b.threads[i]);
      b.(sh := s, threads := b.threads[i := t])
    case NextSubmission(p) =>
      b.(threads := b.threads[p + 1 := b.threads[p + 1].(pc := CountLock)], left := b.left[p := b.left[p] - 1])
    case NextTurn => b.(threads := b.threads[0 := b.threads[0].(pc := CountTurn)])
    case MainStep =>
      match b.main
      case Joining(k) =>
        if k < b.sc.producers then b.(main := Joining(k + 1))
        else b.(sh := b.sh.(producersDone := true), main := JoiningConsumer)
      case JoiningConsumer => b.(main := Over)
      case Over => b
  }

  ghost predicate Legal(b: Bench, run: seq<Action>)
    requires Shaped(b)
    decreases |run|, 0
  {
    run == [] || (Legal(b, run[..|run| - 1]) && Can(After(b, run[..|run| - 1]), run[|run| - 1]))
  }

  ghost function After(b: Bench, run: seq<Action>): (b': Bench)
    requires Shaped(b) && Legal(b, run)
    ensures Shaped(b') && b'.sc == b.sc
    decreases |run|, 1
  {
    if run == [] then b else Do(After(b, run[..|run| - 1]), run[|run| - 1])
  }

  // ---- the invariant ----

  predicate Holds(pc: Pc) {
    !(pc.Resting? || pc.CountLock? || pc.Lock? || pc.CountTurn? || pc.LockTurn?)
  }

  /** The weights of the soft lock's invariant, for the parts this benchmark has: `submitting` are turns
      counted in producer_lock_count that have not drawn an id. */
  function Weigh(t: Thread): Weight {
    Weight(Bit(Holds(t.pc)), 0, Bit(t.pc.Push?), Bit(t.pc.CountPopped?), 0, 0,
           Bit(t.pc.Lock? || t.pc.Draw?), 0, 0, 0, 0, 0, Bit(t.pc.CountLock?))
  }

  function Weights(threads: seq<Thread>): (ws: seq<Weight>)
    ensures |ws| == |threads|
  {
    if threads == [] then [] else Weights(threads[..|threads| - 1]) + [Weigh(threads[|threads| - 1])]
  }

  lemma {:induction false} WeightAt(threads: seq<Thread>, i: nat)
    requires i < |threads|
    ensures Weights(threads)[i] == Weigh(threads[i])
  {
    if i < |threads| - 1 {
      WeightAt(threads[..|threads| - 1], i);
    }
  }

  lemma {:induction false} WeightsUpdate(threads: seq<Thread>, i: nat, t: Thread)
    requires i < |threads|
    ensures Weights(threads[i := t]) == Weights(threads)[i := Weigh(t)]
  {
    var n := |threads| - 1;
    if i < n {
      WeightsUpdate(threads[..n], i, t);
      assert threads[i := t][..n] == threads[..n][i := t];
    } else {
      assert threads[i := t][..n] == threads[..n];
    }
  }

  lemma {:induction false} WeightsSound(threads: seq<Thread>)
    ensures forall j :: 0 <= j < |threads| ==> Sound(Weights(threads)[j])
    ensures forall j :: 0 <= j < |threads| ==> (Weights(threads)[j].holds == 0 <==> !Holds(threads[j].pc))
  {
    if threads == [] {
    } else {
      WeightsSound(threads[..|threads| - 1]);
      assert Sound(Weigh(threads[|threads| - 1]));
    }
  }

  /** Threads other than `busy` rest: they hold nothing and are in nothing's way. */
  lemma {:induction false} RestingWeighNothing(threads: seq<Thread>, busy: int)
    requires forall i :: 0 <= i < |threads| && i != busy ==> Rests(threads[i])
    ensures var w := SumSkipping(Weights(threads), busy);
            w.holds == 0 && w.carries == 0 && w.popping == 0 && w.submitting == 0 && w.entering == 0
    decreases |threads|
  {
    if threads == [] {
    } else {
      var n := |threads| - 1;
      RestingWeighNothing(threads[..n], busy);
      assert n != busy ==> Rests(threads[n]);
    }
  }

  ghost predicate InOrder(s: Shared) {
    s.popped + s.queue == Ids(|s.popped + s.queue|)
  }

  ghost predicate Balanced(s: Shared, w: Weight) {
    && w.holds == Bit(s.held)
    && s.nextId == 1 + |s.popped| + |s.queue| + w.carries
    && |s.popped| == s.processed + w.popping
    && s.producerLocks == s.nextId - 1 + w.submitting
  }

  ghost predicate Accounted(b: Bench) {
    b.sh.producerLocks + Sum(Weights(b.threads)).entering + SoftLockBench.Left(b.left) == TotalOps(b.sc)
  }

  function Joined(b: Bench): nat {
    if b.main.Joining? then b.main.k else b.sc.producers
  }

  ghost predicate MainOk(b: Bench)
    requires Shaped(b)
  {
    && Joined(b) <= b.sc.producers
    && (forall p :: 0 <= p < Joined(b) ==> ProducerFinished(b, p))
    && (b.sh.producersDone <==> !b.main.Joining?)
    && (b.main.Over? ==> ConsumerFinished(b))
  }

  predicate CarriesLatest(s: Shared, t: Thread) {
    t.pc.Push? ==> t.pc.id + 1 == s.nextId
  }

  /** Producers take producers' steps, the consumer the consumer's. */
  predicate RoleOk(i: nat, t: Thread) {
    if i == 0 then !(t.pc.CountLock? || t.pc.Lock? || t.pc.Draw? || t.pc.Push? || t.pc.Unlock?)
    else t.pc.Resting? || t.pc.CountLock? || t.pc.Lock? || t.pc.Draw? || t.pc.Push? || t.pc.Unlock?
  }

  predicate ConsumerOk(sc: Scenario, s: Shared, t: Thread) {
    && (!t.again ==> t.pc.Resting? && s.processed == TotalOps(sc))
    && (t.pc.EndTurn? && !t.pc.again ==> s.processed == TotalOps(sc))
    && (t.pc.LoadDone? ==> s.processed < TotalOps(sc))
  }

  ghost predicate Inv(b: Bench) {
    && Shaped(b) && InOrder(b.sh) && Balanced(b.sh, Sum(Weights(b.threads)))
    && Accounted(b) && MainOk(b)
    && (forall i :: 0 <= i < |b.threads| ==> CarriesLatest(b.sh, b.threads[i]) && RoleOk(i, b.threads[i]))
    && ConsumerOk(b.sc, b.sh, b.threads[0])
  }

  // ---- steps ----

  predicate ProducersPc(pc: Pc) {
    pc.CountLock? || pc.Lock? || pc.Draw? || pc.Push? || pc.Unlock?
  }

  lemma ProducerBalances(sc: Scenario, s: Shared, t: Thread, rest: Weight, w: Weight, w': Weight)
    requires Balanced(s, w) && Joins(rest, Weigh(t), w) && !Blocked(s, t) && ProducersPc(t.pc)
    requires Joins(rest, Weigh(Step(sc, s, t).1), w')
    ensures Balanced(Step(sc, s, t).0, w')
    ensures var s' := Step(sc, s, t).0; s'.producerLocks + w'.entering == s.producerLocks + w.entering
  {
  }

  lemma ConsumerBalances(sc: Scenario, s: Shared, t: Thread, rest: Weight, w: Weight, w': Weight)
    requires Balanced(s, w) && Joins(rest, Weigh(t), w) && !Blocked(s, t) && !ProducersPc(t.pc)
    requires Joins(rest, Weigh(Step(sc, s, t).1), w')
    ensures Balanced(Step(sc, s, t).0, w')
    ensures var s' := Step(sc, s, t).0; s'.producerLocks == s.producerLocks && w'.entering == w.entering
  {
  }

  lemma StepKeepsOrder(sc: Scenario, s: Shared, t: Thread)
    requires InOrder(s) && (t.pc.Push? ==> t.pc.id == |s.popped| + |s.queue| + 1)
    ensures InOrder(Step(sc, s, t).0)
  {
    var s' := Step(sc, s, t).0;
    if t.pc.Push? {
      assert s'.popped + s'.queue == (s.popped + s.queue) + [t.pc.id];
    } else {
      assert s'.popped + s'.queue == s.popped + s.queue;
    }
  }

  /** A step keeps its thread's role; without the mutex it leaves ids and counts alone. */
  lemma StepModest(sc: Scenario, s: Shared, t: Thread, i: nat)
    requires CarriesLatest(s, t) && RoleOk(i, t)
    ensures var (s', t') := Step(sc, s, t);
            && CarriesLatest(s', t') && RoleOk(i, t')
            && (!Holds(t.pc) ==> s'.nextId == s.nextId)
            && (i > 0 ==> s'.processed == s.processed && t'.again == t.again)
            && s'.processed >= s.processed && s'.producersDone == s.producersDone
  {
  }

  lemma OneHolder(b: Bench, i: nat, j: nat)
    requires Inv(b) && i < |b.threads| && j < |b.threads| && Holds(b.threads[i].pc) && Holds(b.threads[j].pc)
    ensures i == j
    ensures b.threads[i].pc.Push? ==> b.threads[i].pc.id == |b.sh.popped| + |b.sh.queue| + 1
  {
    var ws := Weights(b.threads);
    WeightsSound(b.threads);
    WeightAt(b.threads, i);
    SumSound(ws, i);
    SumJoins(ws, i);
  }

  /** No more is processed than the scenario submits; if all of it is, nothing is queued. */
  lemma CountingBounds(b: Bench)
    requires Shaped(b) && Balanced(b.sh, Sum(Weights(b.threads))) && Accounted(b)
    ensures b.sh.processed <= TotalOps(b.sc)
    ensures b.sh.processed == TotalOps(b.sc) ==>
              b.sh.queue == [] && |b.sh.popped| == TotalOps(b.sc) && b.sh.producerLocks == TotalOps(b.sc)
  {
  }

  lemma ProducersRest(b: Bench)
    requires Shaped(b) && MainOk(b) && !b.main.Joining?
    ensures forall i :: 0 <= i < |b.threads| && i != 0 ==> Rests(b.threads[i])
    ensures SoftLockBench.Left(b.left) == 0
  {
    forall i | 0 <= i < |b.threads| && i != 0 ensures Rests(b.threads[i]) {
      assert ProducerFinished(b, i - 1);
    }
    forall p | 0 <= p < |b.left| ensures b.left[p] == 0 {
      assert ProducerFinished(b, p);
    }
    SoftLockBench.NothingLeft(b.left);
  }

  /** As in the soft-lock benchmark, the consumer's second way out is never taken. */
  lemma SecondExitClosed(b: Bench)
    requires Inv(b) && b.threads[0].pc.LoadDone?
    ensures !(b.sh.producersDone && b.sh.queue == [])
  {
    if b.sh.producersDone && b.sh.queue == [] {
      ProducersRest(b);
      RestingWeighNothing(b.threads, 0);
      WeightAt(b.threads, 0);
      SumJoins(Weights(b.threads), 0);
    }
  }

  lemma ConsumerStepOk(sc: Scenario, s: Shared, t: Thread)
    requires ConsumerOk(sc, s, t) && !Rests(t)
    requires s.processed <= TotalOps(sc) && Step(sc, s, t).0.processed <= TotalOps(sc)
    requires t.pc.LoadDone? ==> !(s.producersDone && s.queue == [])
    ensures var (s', t') := Step(sc, s, t); ConsumerOk(sc, s', t')
  {
  }

  lemma AdvanceBalances(b: Bench, i: nat)
    requires Inv(b) && Can(b, Advance(i))
    ensures var b' := Do(b, Advance(i));
            InOrder(b'.sh) && Balanced(b'.sh, Sum(Weights(b'.threads))) && Accounted(b')
  {
    var t := b.threads[i];
    var t' := Step(b.sc, b.sh, t).1;
    var ws := Weights(b.threads);
    WeightAt(b.threads, i);
    WeightsUpdate(b.threads, i, t');
    SumSplit(ws, i, Weigh(t'));
    if ProducersPc(t.pc) {
      ProducerBalances(b.sc, b.sh, t, Rest(ws, i), Sum(ws), Sum(Weights(b.threads[i := t'])));
    } else {
      ConsumerBalances(b.sc, b.sh, t, Rest(ws, i), Sum(ws), Sum(Weights(b.threads[i := t'])));
    }
    if t.pc.Push? {
      OneHolder(b, i, i);
    }
    StepKeepsOrder(b.sc, b.sh, t);
  }

  lemma AdvanceKeepsThreads(b: Bench, i: nat)
    requires Inv(b) && Can(b, Advance(i))
    ensures var b' := Do(b, Advance(i));
            && (forall j :: 0 <= j < |b'.threads| ==> CarriesLatest(b'.sh, b'.threads[j]) && RoleOk(j, b'.threads[j]))
            && MainOk(b')
  {
    var b' := Do(b, Advance(i));
    StepModest(b.sc, b.sh, b.threads[i], i);
    forall j | 0 <= j < |b'.threads| ensures CarriesLatest(b'.sh, b'.threads[j]) && RoleOk(j, b'.threads[j]) {
      if j != i && Holds(b.threads[j].pc) && Holds(b.threads[i].pc) {
        OneHolder(b, i, j);
      }
    }
    forall p | 0 <= p < Joined(b') ensures ProducerFinished(b', p) {
      assert ProducerFinished(b, p);
    }
  }

  lemma AdvanceKeepsInv(b: Bench, i: nat)
    requires Inv(b) && Can(b, Advance(i))
    ensures Inv(Do(b, Advance(i)))
  {
    var b' := Do(b, Advance(i));
    AdvanceBalances(b, i);
    AdvanceKeepsThreads(b, i);
    CountingBounds(b);
    CountingBounds(b');
    StepModest(b.sc, b.sh, b.threads[i], i);
    if i == 0 {
      if b.threads[0].pc.LoadDone? {
        SecondExitClosed(b);
      }
      ConsumerStepOk(b.sc, b.sh, b.threads[0]);
    }
  }

  /** A resting thread starts a turn: only a producer's start weighs anything. */
  lemma TurnWeighs(threads: seq<Thread>, i: nat, pc: Pc)
    requires i < |threads| && Rests(threads[i]) && (pc.CountLock? || pc.CountTurn?)
    ensures var w, w' := Sum(Weights(threads)), Sum(Weights(threads[i := threads[i].(pc := pc)]));
            && w'.holds == w.holds && w'.carries == w.carries && w'.popping == w.popping
            && w'.submitting == w.submitting && w'.entering == w.entering + Bit(pc.CountLock?)
  {
    var t' := threads[i].(pc := pc);
    WeightAt(threads, i);
    WeightsUpdate(threads, i, t');
    SumSplit(Weights(threads), i, Weigh(t'));
  }

  lemma SubmissionKeepsInv(b: Bench, p: nat)
    requires Inv(b) && Can(b, NextSubmission(p))
    ensures Inv(Do(b, NextSubmission(p)))
  {
    var b' := Do(b, NextSubmission(p));
    TurnWeighs(b.threads, p + 1, CountLock);
    SoftLockBench.TotalUpdate(b.left, p, b.left[p] - 1);
    forall q | 0 <= q < Joined(b') ensures ProducerFinished(b', q) {
      assert ProducerFinished(b, q);
    }
  }

  lemma TurnKeepsInv(b: Bench)
    requires Inv(b) && Can(b, NextTurn)
    ensures Inv(Do(b, NextTurn))
  {
    var b' := Do(b, NextTurn);
    TurnWeighs(b.threads, 0, CountTurn);
    forall q | 0 <= q < Joined(b') ensures ProducerFinished(b', q) {
      assert ProducerFinished(b, q);
    }
  }

  lemma MainKeepsInv(b: Bench)
    requires Inv(b) && Can(b, MainStep)
    ensures Inv(Do(b, MainStep))
  {
    var b' := Do(b, MainStep);
    forall q | 0 <= q < Joined(b') ensures ProducerFinished(b', q) {
      assert q < Joined(b) ==> ProducerFinished(b, q);
    }
  }

  lemma StartInv(b: Bench)
    requires IsStart(b)
    ensures Inv(b)
  {
    RestingWeighNothing(b.threads, -1);
    SoftLockBench.TotalEven(b.left, b.sc.opsPerProducer);
    forall i | 0 <= i < |b.threads| ensures CarriesLatest(b.sh, b.threads[i]) && RoleOk(i, b.threads[i]) {
      assert Rests(b.threads[i]);
    }
  }

  lemma ActionKeepsInv(b: Bench, a: Action)
    requires Inv(b) && Can(b, a)
    ensures Inv(Do(b, a))
  {
    match a {
      case Advance(i) => AdvanceKeepsInv(b, i);
      case NextSubmission(p) => SubmissionKeepsInv(b, p);
      case NextTurn => TurnKeepsInv(b);
      case MainStep => MainKeepsInv(b);
    }
  }

  lemma {:induction false} RunInv(b: Bench, run: seq<Action>)
    requires IsStart(b) && Legal(b, run)
    ensures Inv(After(b, run))
    decreases |run|
  {
    if run == [] {
      StartInv(b);
    } else {
      var n := |run| - 1;
      RunInv(b, run[..n]);
      ActionKeepsInv(After(b, run[..n]), run[n]);
    }
  }

  // ---- results ----

  /** In every complete run of the mutex benchmark its two assertions hold, each submission
      locked once, and exactly the ids 1 .. total were popped, in order. */
  lemma BenchCorrect(b: Bench, run: seq<Action>)
    requires IsStart(b) && Legal(b, run) && After(b, run).main.Over?
    ensures var s := After(b, run).sh;
            && s.processed == TotalOps(b.sc) && s.queue == []
            && s.popped == Ids(TotalOps(b.sc))
            && s.producerLocks == TotalOps(b.sc)
  {
    RunInv(b, run);
    CountingBounds(After(b, run));
    var s := After(b, run).sh;
    assert s.popped + s.queue == s.popped;
  }

  /** The two benchmarks agree: whatever the interleavings, complete runs of the same scenario
      serve the same ids in the same order. */
  lemma BenchesAgree(b: Bench, run: seq<Action>, c: SoftLockBench.Bench, other: seq<SoftLockBench.BenchAction>)
    requires IsStart(b) && Legal(b, run) && After(b, run).main.Over?
    requires SoftLockBench.IsBenchStart(c) && SoftLockBench.BenchLegal(c, other)
    requires SoftLockBench.BenchAfter(c, other).main.Over?
    requires b.sc == c.sc
    ensures After(b, run).sh.popped == SoftLockBench.BenchAfter(c, other).x.sh.popped
    ensures After(b, run).sh.processed ==
            SoftLockBench.BenchAfter(c, other).x.calls[c.sc.producers + 1].seen.processed
  {
    BenchCorrect(b, run);
    SoftLockBench.BenchCorrect(c, other);
  }

  // ---- refinement ----

  function Abstract(s: Shared): AbstractQueue.Queue {
    AbstractQueue.Queue(s.popped, s.queue)
  }

  /** The abstract operation an action performs: none, a submit, or a pop. */
  function Performs(b: Bench, a: Action): seq<AbstractQueue.QueueOp>
    requires Shaped(b) && Can(b, a)
  {
    if !a.Advance? then []
    else
      var pc := b.threads[a.i].pc;
      if pc.Push? then [AbstractQueue.Submit]
      else if pc.Pop? && pc.k > 0 && b.sh.queue != [] then [AbstractQueue.Pop]
      else []
  }

  /** Each step of the mutex benchmark, too, is an abstract submit, an abstract pop, or a stutter. */
  lemma AdvanceRefines(b: Bench, i: nat)
    requires Inv(b) && Can(b, Advance(i))
    ensures var q, q' := Abstract(b.sh), Abstract(Do(b, Advance(i)).sh);
            var ops := Performs(b, Advance(i));
            if ops == [] then q' == q
            else AbstractQueue.CanApply(q, ops[0]) && q' == AbstractQueue.Apply(q, ops[0])
  {
    if b.threads[i].pc.Push? {
      OneHolder(b, i, i);
    }
  }

  /** The abstract operations of a run, in order. */
  ghost function Operations(b: Bench, run: seq<Action>): seq<AbstractQueue.QueueOp>
    requires Shaped(b) && Legal(b, run)
    decreases |run|
  {
    if run == [] then []
    else
      var front := run[..|run| - 1];
      Operations(b, front) + Performs(After(b, front), run[|run| - 1])
  }

  lemma ActionRefines(b: Bench, a: Action, ops: seq<AbstractQueue.QueueOp>)
    requires Inv(b) && Can(b, a) && AbstractQueue.Explains(ops, Abstract(b.sh))
    ensures AbstractQueue.Explains(ops + Performs(b, a), Abstract(Do(b, a).sh))
  {
    var did := Performs(b, a);
    if a.Advance? {
      AdvanceRefines(b, a.i);
    }
    if did == [] {
      assert ops + did == ops;
    } else {
      AbstractQueue.Extend(ops, Abstract(b.sh), did[0]);
      assert did == [did[0]];
    }
  }

  /** Every run of the baseline is a run of the plain queue the soft lock implements. */
  lemma {:induction false} RunRefines(b: Bench, run: seq<Action>)
    requires IsStart(b) && Legal(b, run)
    ensures AbstractQueue.Explains(Operations(b, run), Abstract(After(b, run).sh))
    decreases |run|
  {
    if run == [] {
    } else {
      var front := run[..|run| - 1];
      RunRefines(b, front);
      RunInv(b, front);
      ActionRefines(After(b, front), run[|run| - 1], Operations(b, front));
    }
  }
}
