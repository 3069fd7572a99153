/**
 The soft lock as the objects the program has: `DemoInner` with its counters and queue,
 and `SoftLock` around it, updated in place. Each method is proved to leave what the
 step system's steps leave when the call runs them without interference.
 */
module SoftLockObjects {
  import opened Numbers
  import opened Steps = SoftLock

  /** The ids first, first + 1, ..., n of them. */
  function From(first: nat, n: nat): (ids: seq<nat>)
    ensures |ids| == n
  {
    if n == 0 then [] else From(first, n - 1) + [first + n - 1]
  }

  lemma {:induction false} FromSplits(first: nat, m: nat, n: nat)
    ensures From(first, m + n) == From(first, m) + From(first + m, n)
  {
    if n == 0 {
      assert From(first, m) + [] == From(first, m);
    } else {
      FromSplits(first, m, n - 1);
    }
  }

  lemma {:induction false} FromHead(first: nat, n: nat)
    requires n > 0
    ensures From(first, n) == [first] + From(first + 1, n - 1)
  {
    FromSplits(first, 1, n - 1);
    assert From(first, 1) == [] + [first];
  }

  // ---- what the operations do, as one change of the shared state ----

  /** `submit_direct`. */
  function Submitted(s: Shared): Shared {
    s.(nextId := s.nextId + 1, queue := s.queue + [s.nextId], directItems := s.directItems + 1)
  }

  /** `run_pended_op`. */
  function Drained(s: Shared): Shared {
    var n := s.pendingSubmit;
    if n == 0 then s
    else
      s.(pendingSubmit := 0,
         drainedBatches := s.drainedBatches + 1,
         drainedItems := s.drainedItems + n,
         nextId := s.nextId + n,
         queue := s.queue + From(s.nextId, n),
         pushed := s.pushed + n)
  }

  /** `process_some`. */
  function Processed(s: Shared, budget: nat): Shared {
    var n := Min(budget, |s.queue|);
    s.(queue := s.queue[n..], popped := s.popped + s.queue[..n], processed := s.processed + n)
  }

  // ---- a call running alone ----

  function Solo(s: Shared, c: Call, n: nat): (Shared, Call)
    decreases n
  {
    if n == 0 then (s, c) else Solo(Step(s, c).0, Step(s, c).1, n - 1)
  }

  /** Alone, c gets from s to s' and c'. */
  ghost predicate Runs(s: Shared, c: Call, s': Shared, c': Call) {
    exists n: nat :: Solo(s, c, n) == (s', c')
  }

  lemma {:induction false} SoloSplits(s: Shared, c: Call, m: nat, n: nat)
    ensures Solo(s, c, m + n) == Solo(Solo(s, c, m).0, Solo(s, c, m).1, n)
    decreases m
  {
    if m == 0 {
    } else {
      SoloSplits(Step(s, c).0, Step(s, c).1, m - 1, n);
    }
  }

  lemma RunsOn(s: Shared, c: Call, s': Shared, c': Call, s'': Shared, c'': Call)
    requires Runs(s, c, s', c') && Runs(s', c', s'', c'')
    ensures Runs(s, c, s'', c'')
  {
    var m: nat :| Solo(s, c, m) == (s', c');
    var n: nat :| Solo(s', c', n) == (s'', c'');
    SoloSplits(s, c, m, n);
    assert Solo(s, c, m + n) == (s'', c'');
  }

  lemma RunsStep(s: Shared, c: Call, s'': Shared, c'': Call)
    requires Runs(Step(s, c).0, Step(s, c).1, s'', c'')
    ensures Runs(s, c, s'', c'')
  {
    var n: nat :| Solo(Step(s, c).0, Step(s, c).1, n) == (s'', c'');
    assert Solo(s, c, n + 1) == (s'', c'');
  }

  lemma RunsNot(s: Shared, c: Call)
    ensures Runs(s, c, s, c)
  {
    assert Solo(s, c, 0) == (s, c);
  }

  /** The queueing loop of `run_pended_op`. */
  lemma {:induction false} DrainLoopRuns(s: Shared, c: Call, caller: Caller, n: nat)
    requires c.pc == DrawDrained(n, caller)
    ensures Runs(s, c,
                 s.(nextId := s.nextId + n, queue := s.queue + From(s.nextId, n), pushed := s.pushed + n),
                 c.(pc := DrawDrained(0, caller)))
    decreases n
  {
    if n == 0 {
      assert s.queue + [] == s.queue;
      RunsNot(s, c);
    } else {
      var s1, c1 := DrainStep(s, c).0, DrainStep(s, c).1;
      var s2, c2 := DrainStep(s1, c1).0, DrainStep(s1, c1).1;
      DrainLoopRuns(s2, c2, caller, n - 1);
      FromHead(s.nextId, n);
      assert s.queue + [s.nextId] + From(s.nextId + 1, n - 1) == s.queue + From(s.nextId, n);
      var s3 := s.(nextId := s.nextId + n, queue := s.queue + From(s.nextId, n), pushed := s.pushed + n);
      var c3 := c.(pc := DrawDrained(0, caller));
      RunsStep(s1, c1, s3, c3);
      RunsStep(s, c, s3, c3);
    }
  }

  /** `run_pended_op`'s steps amount to `Drained`. */
  lemma DrainRuns(s: Shared, c: Call, caller: Caller)
    requires c.pc == SwapCount(caller) && !s.queueHeld
    ensures Runs(s, c, Drained(s), c.(pc := AfterDrain(caller)))
  {
    var n := s.pendingSubmit;
    var end := c.(pc := AfterDrain(caller));
    if n == 0 {
      RunsNot(s, end);
    } else {
      var s4 := s.(pendingSubmit := 0, drainedBatches := s.drainedBatches + 1,
                   drainedItems := s.drainedItems + n, queueHeld := true);
      var c4 := c.(pc := DrawDrained(n, caller));
      var s5 := s4.(nextId := s.nextId + n, queue := s.queue + From(s.nextId, n), pushed := s.pushed + n);
      var c5 := c.(pc := DrawDrained(0, caller));
      DrainLoopRuns(s4, c4, caller, n);
      DrainEnds(s5, c5, caller);
      RunsOn(s4, c4, s5, c5, Drained(s), end);
      DrainBegins(s, c, caller, Drained(s), end);
      return;
    }
    RunsStep(s, c, s, end);
  }

  /** A round of a guard's drop, up to the release: it drains if and only if the swap returned true. */
  function Round(s: Shared): Shared {
    (if s.pending then Drained(s.(pending := false)) else s).(locked := false)
  }

  lemma ReleaseRuns(s: Shared, c: Call)
    requires c.pc.Release? && !s.pending
    ensures Runs(s, c, s.(locked := false), c.(pc := Done))
  {
    var e := s.(locked := false);
    RunsNot(e, c.(pc := Done));
    RunsStep(e, c.(pc := Recheck), e, c.(pc := Done));
    RunsStep(s, c, e, c.(pc := Done));
  }

  /** An undisturbed drop's steps amount to one round, for both values of `pending` and any pending_submit. */
  lemma DropRuns(s: Shared, c: Call)
    requires c.pc.SwapPending? && !s.queueHeld
    ensures Runs(s, c, Round(s), c.(pc := Done, rounds := c.rounds + 1, mark := s.flagged))
  {
    var s1 := s.(pending := false);
    var c1 := c.(rounds := c.rounds + 1, mark := s.flagged);
    if s.pending {
      var d := Drained(s1);
      DrainRuns(s1, c1.(pc := SwapCount(Guard)), Guard);
      ReleaseRuns(d, c1.(pc := Release));
      RunsOn(s1, c1.(pc := SwapCount(Guard)), d, c1.(pc := Release), Round(s), c1.(pc := Done));
      DropBegins(s, c, Round(s), c1.(pc := Done));
    } else {
      ReleaseRuns(s1, c1.(pc := Release));
      DropBegins(s, c, Round(s), c1.(pc := Done));
    }
  }

  lemma DropBegins(s: Shared, c: Call, end: Shared, last: Call)
    requires c.pc.SwapPending?
    requires Runs(s.(pending := false),
                  c.(pc := if s.pending then SwapCount(Guard) else Release, rounds := c.rounds + 1, mark := s.flagged),
                  end, last)
    ensures Runs(s, c, end, last)
  {
    RunsStep(s, c, end, last);
  }

  lemma DrainEnds(s: Shared, c: Call, caller: Caller)
    requires c.pc == DrawDrained(0, caller)
    ensures Runs(s, c, s.(queueHeld := false), c.(pc := AfterDrain(caller)))
  {
    var end := c.(pc := AfterDrain(caller));
    RunsNot(s.(queueHeld := false), end);
    RunsStep(s, c.(pc := UnlockDrain(caller)), s.(queueHeld := false), end);
    RunsStep(s, c, s.(queueHeld := false), end);
  }

  lemma DrainBegins(s: Shared, c: Call, caller: Caller, end: Shared, last: Call)
    requires c.pc == SwapCount(caller) && s.pendingSubmit > 0
    requires Runs(s.(pendingSubmit := 0, drainedBatches := s.drainedBatches + 1,
                     drainedItems := s.drainedItems + s.pendingSubmit, queueHeld := true),
                  c.(pc := DrawDrained(s.pendingSubmit, caller)), end, last)
    ensures Runs(s, c, end, last)
  {
    var n := s.pendingSubmit;
    var s1 := s.(pendingSubmit := 0);
    var s2 := s1.(drainedBatches := s.drainedBatches + 1);
    var s3 := s2.(drainedItems := s.drainedItems + n);
    RunsStep(s3, c.(pc := LockForDrain(n, caller)), end, last);
    RunsStep(s2, c.(pc := CountItems(n, caller)), end, last);
    RunsStep(s1, c.(pc := CountBatch(n, caller)), end, last);
    RunsStep(s, c, end, last);
  }

  /** The loop of `process_some`. */
  lemma {:induction false} PopLoopRuns(s: Shared, c: Call, k: nat)
    requires c.pc == Pop(k)
    ensures Runs(s, c, Processed(s, k), c.(pc := UnlockPop))
    decreases k
  {
    var end := c.(pc := UnlockPop);
    if k == 0 || s.queue == [] {
      assert s.queue[0..] == s.queue && s.popped + s.queue[..0] == s.popped;
      RunsNot(s, end);
    } else {
      var s1, c1 := PopStep(s, c).0, PopStep(s, c).1;
      var s2, c2 := PopStep(s1, c1).0, PopStep(s1, c1).1;
      PopLoopRuns(s2, c2, k - 1);
      var n := Min(k, |s.queue|);
      assert s.queue[1..][n - 1..] == s.queue[n..];
      assert s.popped + [s.queue[0]] + s.queue[1..][..n - 1] == s.popped + s.queue[..n];
      RunsStep(s1, c1, Processed(s, k), end);
    }
    RunsStep(s, c, Processed(s, k), end);
  }

  /** `process_some`'s steps amount to `Processed`. */
  lemma ProcessRuns(s: Shared, c: Call)
    requires c.pc.LockToPop? && !s.queueHeld
    ensures Runs(s, c, Processed(s, Budget(c.op)), c.(pc := LoadProcessed))
  {
    var k := Budget(c.op);
    var h, e := s.(queueHeld := true), Processed(s, k);
    PopLoopRuns(h, c.(pc := Pop(k)), k);
    RunsNot(e, c.(pc := LoadProcessed));
    RunsStep(Processed(h, k), c.(pc := UnlockPop), e, c.(pc := LoadProcessed));
    RunsOn(h, c.(pc := Pop(k)), Processed(h, k), c.(pc := UnlockPop), e, c.(pc := LoadProcessed));
    RunsStep(s, c, e, c.(pc := LoadProcessed));
  }

  /** `submit_direct`'s steps amount to `Submitted`. */
  lemma SubmitRuns(s: Shared, c: Call)
    requires c.pc.DrawId? && !s.queueHeld
    ensures Runs(s, c, Submitted(s), BeginDrop(s, c))
  {
    var id, end := s.nextId, BeginDrop(s, c);
    var s1 := s.(nextId := s.nextId + 1);
    var s2 := s1.(queueHeld := true);
    var s3 := s2.(queue := s.queue + [id]);
    var s4 := s3.(directItems := s.directItems + 1);
    RunsNot(Submitted(s), end);
    RunsStep(s4, c.(pc := UnlockId), Submitted(s), end);
    RunsStep(s3, c.(pc := CountDirect), Submitted(s), end);
    RunsStep(s2, c.(pc := PushId(id)), Submitted(s), end);
    RunsStep(s1, c.(pc := LockForId(id)), Submitted(s), end);
    RunsStep(s, c, Submitted(s), end);
  }

  // ---- the objects ----

  class DemoInner {
    var pendingSubmit: nat
    var queue: seq<nat>
    var nextId: nat
    var processed: nat
    var drainedItems: nat
    var drainedBatches: nat
    var directItems: nat
    var fullEntries: nat
    var pendEntries: nat
    ghost var popped: seq<nat>
    ghost var pushed: nat

    constructor ()
      ensures pendingSubmit == 0 && queue == [] && nextId == 1 && processed == 0 && drainedItems == 0
      ensures drainedBatches == 0 && directItems == 0 && fullEntries == 0 && pendEntries == 0
      ensures popped == [] && pushed == 0
    {
      pendingSubmit, queue, nextId, processed := 0, [], 1, 0;
      drainedItems, drainedBatches, directItems, fullEntries, pendEntries := 0, 0, 0, 0, 0;
      popped, pushed := [], 0;
    }

    /** The content's part of s. */
    ghost predicate Shows(s: Shared)
      reads this
    {
      && s.pendingSubmit == pendingSubmit && s.queue == queue && s.nextId == nextId && s.processed == processed
      && s.drainedItems == drainedItems && s.drainedBatches == drainedBatches && s.directItems == directItems
      && s.fullEntries == fullEntries && s.pendEntries == pendEntries && s.popped == popped && s.pushed == pushed
    }

    method SubmitDirect(ghost s: Shared)
      requires Shows(s)
      modifies this
      ensures Shows(Submitted(s))
    {
      var id := nextId;
      nextId := nextId + 1;
      queue := queue + [id];
      directItems := directItems + 1;
    }

    method ProcessSome(budget: nat, ghost s: Shared) returns (processedNow: nat)
      requires Shows(s)
      modifies this`queue, this`processed, this`popped
      ensures Shows(Processed(s, budget))
      ensures processedNow == Min(budget, |s.queue|)
    {
      processedNow := 0;
      var left := budget;
      while left > 0
        invariant processedNow + left == budget && processedNow <= |s.queue|
        invariant queue == s.queue[processedNow..]
        invariant popped == s.popped + s.queue[..processedNow]
        invariant processed == s.processed + processedNow
      {
        if queue == [] {
          break;
        }
        assert s.queue[..processedNow + 1] == s.queue[..processedNow] + [queue[0]];
        popped := popped + [queue[0]];
        queue := queue[1..];
        processed := processed + 1;
        processedNow := processedNow + 1;
        left := left - 1;
      }
    }

    method RunPendedOp(ghost s: Shared)
      requires Shows(s)
      modifies this`pendingSubmit, this`drainedBatches, this`drainedItems, this`nextId, this`queue, this`pushed
      ensures Shows(Drained(s))
    {
      var pending := pendingSubmit;
      pendingSubmit := 0;
      if pending == 0 {
        return;
      }
      drainedBatches := drainedBatches + 1;
      drainedItems := drainedItems + pending;
      for i := 0 to pending
        invariant nextId == s.nextId + i && queue == s.queue + From(s.nextId, i) && pushed == s.pushed + i
        invariant pendingSubmit == 0
        invariant drainedBatches == s.drainedBatches + 1 && drainedItems == s.drainedItems + pending
      {
        var id := nextId;
        nextId := nextId + 1;
        queue := queue + [id];
        pushed := pushed + 1;
      }
    }

    method PendSubmit(ghost s: Shared)
      requires Shows(s)
      modifies this
      ensures Shows(s.(pendingSubmit := s.pendingSubmit + 1))
    {
      pendingSubmit := pendingSubmit + 1;
    }
  }

  function Sum(ns: seq<nat>): nat {
    if ns == [] then 0 else Sum(ns[..|ns| - 1]) + ns[|ns| - 1]
  }

  class SoftLock {
    var locked: bool
    var pending: bool
    const content: DemoInner

    constructor (content: DemoInner)
      ensures this.content == content && !locked && !pending
    {
      this.content := content;
      locked, pending := false, false;
    }

    /** `AccessGuard::guard`: the CAS on `locked`. */
    method Guard() returns (lockHeld: bool)
      modifies this`locked
      ensures lockHeld == !old(locked) && locked
    {
      lockHeld := !locked;
      locked := true;
    }

    /** A producer preempts a holder: it loses the CAS, records its submission, flags it and is done. */
    method Preempt(ghost s: Shared)
      requires locked && content.Shows(s)
      modifies this, content
      ensures locked && pending
      ensures content.Shows(Preempted(s, 1))
    {
      var lockHeld := Guard();
      content.pendEntries := content.pendEntries + 1;
      content.PendSubmit(s.(pendEntries := s.pendEntries + 1));
      pending := true;
    }

    /** The first half of a round: swap `pending`, and drain if it was set. */
    method DrainRound(ghost s: Shared)
      requires locked && content.Shows(s)
      modifies this`pending, content
      ensures !pending
      ensures content.Shows(if old(pending) then Drained(s) else s)
    {
      var prevPending := pending;
      pending := false;
      if prevPending {
        content.RunPendedOp(s);
      }
    }

    /** m producers preempt the holder. */
    method PreemptTimes(m: nat, ghost s: Shared)
      requires locked && content.Shows(s)
      modifies this, content
      ensures locked && pending == (old(pending) || m > 0)
      ensures content.Shows(Preempted(s, m))
    {
      for i := 0 to m
        invariant locked && pending == (old(pending) || i > 0)
        invariant content.Shows(Preempted(s, i))
      {
        Preempt(Preempted(s, i));
      }
    }

    /** `Drop for AccessGuard` of a holder, preempted in its k-th round by arrivals[k] producers, and after
        the last of them by none. The re-acquiring CAS finds the lock free. */
    method DropHolder(arrivals: seq<nat>, ghost s: Shared)
      requires locked && content.Shows(s)
      requires forall k :: 0 <= k < |arrivals| ==> arrivals[k] > 0
      modifies this, content
      ensures !locked && !pending
      ensures content.Shows(Dropped(s, old(pending), arrivals, |arrivals|))
    {
      var k := 0;
      ghost var flagged := pending;
      ghost var now := s;
      while true
        invariant k <= |arrivals| && locked && pending == (flagged || k > 0)
        invariant content.Shows(now) && now == Entering(s, flagged, arrivals, k)
        decreases |arrivals| - k
      {
        DrainRound(now);
        now := Dropped(s, flagged, arrivals, k);
        if k < |arrivals| {
          PreemptTimes(arrivals[k], now);
          now := Preempted(now, arrivals[k]);
        }
        locked := false;
        if !pending {
          break;
        }
        var won := Guard();
        assert won;
        k := k + 1;
      }
    }
  }

  /** m producers have preempted the holder. */
  function Preempted(s: Shared, m: nat): Shared {
    s.(pendEntries := s.pendEntries + m, pendingSubmit := s.pendingSubmit + m)
  }

  /** The state in which round k of a holder's drop begins; only round 0 may find `pending` clear. */
  function Entering(s: Shared, flagged: bool, arrivals: seq<nat>, k: nat): Shared
    requires k <= |arrivals|
    decreases k, 0
  {
    if k == 0 then s else Preempted(Dropped(s, flagged, arrivals, k - 1), arrivals[k - 1])
  }

  /** And the state in which round k releases the lock. */
  function Dropped(s: Shared, flagged: bool, arrivals: seq<nat>, k: nat): Shared
    requires k <= |arrivals|
    decreases k, 1
  {
    if flagged || k > 0 then Drained(Entering(s, flagged, arrivals, k)) else s
  }

  lemma SumHas(ns: seq<nat>, k: nat)
    requires 0 < k <= |ns|
    ensures Sum(ns[..k]) == Sum(ns[..k - 1]) + ns[k - 1]
  {
    assert ns[..k][..k - 1] == ns[..k - 1];
  }

  lemma OneMoreRound(d: Shared, m: nat)
    requires d.pendingSubmit == 0 && m > 0
    ensures var e := Drained(Preempted(d, m));
            && e.pendingSubmit == 0
            && e.queue == d.queue + From(d.nextId, m) && e.nextId == d.nextId + m
            && e.drainedItems == d.drainedItems + m && e.pushed == d.pushed + m
            && e.drainedBatches == d.drainedBatches + 1 && e.pendEntries == d.pendEntries + m
  {
  }

  /** s with n more submissions drained in so many batches. */
  ghost predicate HasDrained(s: Shared, e: Shared, n: nat, batches: nat) {
    && e.pendingSubmit == 0
    && e.queue == s.queue + From(s.nextId, n) && e.nextId == s.nextId + n
    && e.drainedItems == s.drainedItems + n && e.pushed == s.pushed + n
    && e.drainedBatches == s.drainedBatches + batches
  }

  lemma DrainsFurther(s: Shared, d: Shared, n: nat, batches: nat, m: nat)
    requires HasDrained(s, d, n, batches) && m > 0
    ensures HasDrained(s, Drained(Preempted(d, m)), n + m, batches + 1)
  {
    OneMoreRound(d, m);
    QueueFurther(s.queue, s.nextId, n, m);
  }

  lemma QueueFurther(queue: seq<nat>, id: nat, n: nat, m: nat)
    ensures queue + From(id, n) + From(id + n, m) == queue + From(id, n + m)
  {
    FromSplits(id, n, m);
    assert queue + From(id, n) + From(id + n, m) == queue + (From(id, n) + From(id + n, m));
  }

  lemma FirstRoundDrains(s: Shared, m: nat)
    requires m > 0
    ensures HasDrained(s, Drained(Preempted(s, m)), s.pendingSubmit + m, 1)
  {
  }

  /** A holder's drop that finds `pending` set, or is preempted, drains every submission recorded before it or during
      it, in order of arrival, one batch a round that has something to drain, behind everything that was queued
      before; one that finds it clear and is not preempted changes nothing, whatever is recorded. */
  lemma {:induction false} DropDrainsAll(s: Shared, flagged: bool, arrivals: seq<nat>, k: nat)
    requires k <= |arrivals| && forall j :: 0 <= j < |arrivals| ==> arrivals[j] > 0
    ensures var e := Dropped(s, flagged, arrivals, k);
            if flagged || k > 0
            then HasDrained(s, e, s.pendingSubmit + Sum(arrivals[..k]), Bit(flagged && s.pendingSubmit > 0) + k)
            else e == s
    decreases k
  {
    if k == 0 {
      assert s.queue + [] == s.queue;
    } else {
      DropDrainsAll(s, flagged, arrivals, k - 1);
      SumHas(arrivals, k);
      if k == 1 && !flagged {
        FirstRoundDrains(s, arrivals[0]);
      } else {
        DrainsFurther(s, Dropped(s, flagged, arrivals, k - 1), s.pendingSubmit + Sum(arrivals[..k - 1]),
                      Bit(flagged && s.pendingSubmit > 0) + k - 1, arrivals[k - 1]);
      }
    }
  }
}
