/**
 What every interleaving of the soft lock keeps.

 Each call contributes a small vector of counts (`Weigh`): whether it holds the
 lock, how many ids it has drawn and not pushed, and so on. The invariant relates
 the shared counters to the sum of these vectors over all calls.
 */
module SoftLockInvariant {
  import opened Numbers
  import opened SoftLock

  datatype Weight = Weight(
    holds: nat,       // holds `locked`
    mutex: nat,       // holds the queue's mutex
    carries: nat,     // ids drawn from next_id and not yet in the queue
    popping: nat,     // ids popped and not yet counted in `processed`
    directing: nat,   // counted in full_entries, not yet in direct_items
    uncounted: nat,   // pushed directly, not yet counted in direct_items
    submitting: nat,  // counted in pend_entries, not yet in pending_submit
    unflagged: nat,   // counted in pending_submit, `pending` not yet stored
    swapped: nat,     // taken from pending_submit, not yet in drained_items
    undrained: nat,   // counted in drained_items, id not yet in the queue
    batching: nat,    // batch counted in drained_batches, not yet in drained_items
    answering: nat,   // swapped `pending`, about to swap pending_submit
    entering: nat)    // producer calls counted in neither full_entries nor pend_entries

  /** w is the sum of a and b, part by part. */
  predicate Joins(a: Weight, b: Weight, w: Weight) {
    && w.holds == a.holds + b.holds
    && w.mutex == a.mutex + b.mutex
    && w.carries == a.carries + b.carries
    && w.popping == a.popping + b.popping
    && w.directing == a.directing + b.directing
    && w.uncounted == a.uncounted + b.uncounted
    && w.submitting == a.submitting + b.submitting
    && w.unflagged == a.unflagged + b.unflagged
    && w.swapped == a.swapped + b.swapped
    && w.undrained == a.undrained + b.undrained
    && w.batching == a.batching + b.batching
    && w.answering == a.answering + b.answering
    && w.entering == a.entering + b.entering
  }

  function Zero(): Weight {
    Weight(0, 0, 0, 0, 0, 0, 0, 0, 0, 0, 0, 0, 0)
  }

  predicate HasQueue(pc: Pc) {
    pc.PushId? || pc.CountDirect? || pc.UnlockId? || pc.DrawDrained? || pc.PushDrained? || pc.UnlockDrain? ||
    pc.Pop? || pc.CountPopped? || pc.UnlockPop? || pc.LoadLen? || pc.UnlockLen? || pc == Look(3) || pc == Look(4)
  }

  predicate Entering(c: Call) {
    (c.pc.Enter? && c.op.Submit?) || c.pc.CountFull? || c.pc.CountPend?
  }

  function Weigh(c: Call): Weight {
    var pc := c.pc;
    Weight(
      holds := Bit(Holds(pc)),
      mutex := Bit(HasQueue(pc)),
      carries := Bit(pc.LockForId? || pc.PushId? || pc.PushDrained?),
      popping := Bit(pc.CountPopped?),
      directing := Bit(pc.DrawId? || pc.LockForId? || pc.PushId? || pc.CountDirect?),
      uncounted := Bit(pc.CountDirect?),
      submitting := Bit(pc.PendSubmit?),
      unflagged := Bit(pc.SetPending? && c.op.Submit?),
      swapped := if pc.CountBatch? || pc.CountItems? then pc.n else 0,
      undrained := if pc.LockForDrain? || pc.DrawDrained? then pc.n else if pc.PushDrained? then pc.n + 1 else 0,
      batching := if pc.CountItems? then pc.n else 0,
      answering := Bit(pc == SwapCount(Guard)),
      entering := Bit(Entering(c)))
  }

  function Weights(calls: seq<Call>): (ws: seq<Weight>)
    ensures |ws| == |calls|
  {
    if calls == [] then [] else Weights(calls[..|calls| - 1]) + [Weigh(calls[|calls| - 1])]
  }

  lemma {:induction false} WeightAt(calls: seq<Call>, i: nat)
    requires i < |calls|
    ensures Weights(calls)[i] == Weigh(calls[i])
  {
    if i < |calls| - 1 {
      WeightAt(calls[..|calls| - 1], i);
    }
  }

  /** The sum of weights, to which the sum of everything but element `skip` is added up alike. */
  function SumSkipping(ws: seq<Weight>, skip: int): Weight {
    if ws == [] then Zero()
    else
      var n := |ws| - 1;
      var r, w := SumSkipping(ws[..n], skip), ws[n];
      if n == skip then r
      else
      Weight(r.holds + w.holds, r.mutex + w.mutex, r.carries + w.carries, r.popping + w.popping,
             r.directing + w.directing, r.uncounted + w.uncounted, r.submitting + w.submitting,
             r.unflagged + w.unflagged, r.swapped + w.swapped, r.undrained + w.undrained,
             r.batching + w.batching, r.answering + w.answering, r.entering + w.entering)
  }

  function Sum(ws: seq<Weight>): Weight {
    SumSkipping(ws, -1)
  }

  /** The sum of everything but element i. */
  function Rest(ws: seq<Weight>, i: nat): Weight {
    SumSkipping(ws, i)
  }

  lemma {:induction false} SkipNothing(ws: seq<Weight>, i: nat)
    requires |ws| <= i
    ensures Rest(ws, i) == Sum(ws)
  {
    if ws == [] {
    } else {
      SkipNothing(ws[..|ws| - 1], i);
    }
  }

  lemma {:induction false} RestIgnores(ws: seq<Weight>, i: nat, w: Weight)
    requires i < |ws|
    ensures Rest(ws[i := w], i) == Rest(ws, i)
  {
    var n := |ws| - 1;
    if i == n {
      assert ws[i := w][..n] == ws[..n];
    } else {
      RestIgnores(ws[..n], i, w);
      assert ws[i := w][..n] == ws[..n][i := w];
    }
  }

  lemma {:induction false} SumJoins(ws: seq<Weight>, i: nat)
    requires i < |ws|
    ensures Joins(Rest(ws, i), ws[i], Sum(ws))
  {
    var n := |ws| - 1;
    if i == n {
      SkipNothing(ws[..n], i);
    } else {
      SumJoins(ws[..n], i);
    }
  }

  lemma SumSplit(ws: seq<Weight>, i: nat, w: Weight)
    requires i < |ws|
    ensures Joins(Rest(ws, i), ws[i], Sum(ws))
    ensures Joins(Rest(ws, i), w, Sum(ws[i := w]))
  {
    SumJoins(ws, i);
    SumJoins(ws[i := w], i);
    RestIgnores(ws, i, w);
  }

  /** The parts of a weight that only a holder can have. */
  predicate HolderPartsZero(w: Weight) {
    w.mutex == 0 && w.carries == 0 && w.popping == 0 && w.directing == 0 && w.uncounted == 0 &&
    w.swapped == 0 && w.undrained == 0 && w.batching == 0 && w.answering == 0
  }

  /** No part without a holder, and the order of counting: what `Weigh` gives, and what sums keep. */
  predicate Sound(w: Weight) {
    && (w.holds == 0 ==> HolderPartsZero(w))
    && w.uncounted <= w.directing
    && w.batching <= w.swapped
  }

  lemma {:induction false} SumSound(ws: seq<Weight>, skip: int)
    requires forall j :: 0 <= j < |ws| ==> Sound(ws[j])
    ensures Sound(SumSkipping(ws, skip))
    ensures SumSkipping(ws, skip).holds == 0 <==> forall j :: 0 <= j < |ws| && j != skip ==> ws[j].holds == 0
  {
    if ws == [] {
    } else {
      var n := |ws| - 1;
      SumSound(ws[..n], skip);
      assert forall j :: 0 <= j < n ==> ws[j] == ws[..n][j];
    }
  }

  lemma WeighSound(c: Call)
    ensures Sound(Weigh(c))
  {
  }

  // ---- the invariant ----

  /** All ids that have entered the queue, in order. */
  function Arrived(s: Shared): seq<nat> {
    s.popped + s.queue
  }

  /** The queue holds consecutive ids, from the first not popped to the last pushed. */
  ghost predicate InOrder(s: Shared) {
    Arrived(s) == Ids(|Arrived(s)|)
  }

  /** The shared counters against the sum of the calls' weights. */
  ghost predicate Balanced(s: Shared, w: Weight) {
    && w.holds == Bit(s.locked)
    && w.mutex == Bit(s.queueHeld)
    && s.nextId == 1 + |s.popped| + |s.queue| + w.carries
    && |s.popped| == s.processed + w.popping
    && s.fullEntries == s.directItems + w.directing
    && |s.popped| + |s.queue| == s.directItems + w.uncounted + s.pushed
    && s.pendEntries == s.drainedItems + s.pendingSubmit + w.swapped + w.submitting
    && s.drainedItems == s.pushed + w.undrained
    && s.drainedBatches <= s.drainedItems + w.batching
    && s.pendEntries == s.flagged + w.unflagged + w.submitting
    && (!s.pending && w.answering == 0 ==> s.pendingSubmit <= w.unflagged)
  }

  /** What the history of a drop says about its rounds. */
  ghost predicate RoundsBounded(s: Shared, c: Call) {
    && (Dropping(c.pc) ==> c.start <= s.completions && c.rounds <= 1 + s.completions - c.start)
    && (c.pc.SwapPending? || c.pc.Reacquire? ==> c.rounds <= s.completions - c.start)
    && (Dropping(c.pc) && s.pending ==> c.rounds <= s.completions - c.start)
  }

  /** The call is in its guard's drop. */
  predicate Dropping(pc: Pc) {
    pc.SwapPending? || pc.Release? || pc.Recheck? || pc.Reacquire? || InGuardDrain(pc)
  }

  /** The call is in the `run_pended_op` of its guard's drop. */
  predicate InGuardDrain(pc: Pc) {
    (pc.SwapCount? || pc.CountBatch? || pc.CountItems? || pc.LockForDrain? ||
     pc.DrawDrained? || pc.PushDrained? || pc.UnlockDrain?) && pc.caller.Guard?
  }

  /** What was flagged at the last swap of `pending` is drained, or still in this call's hands. */
  ghost predicate MarkCovered(s: Shared, c: Call) {
    InGuardDrain(c.pc) || c.pc.Release? ==> c.mark <= InHand(s, c.pc)
  }

  ghost function InHand(s: Shared, pc: Pc): nat {
    if pc.SwapCount? then s.flagged
    else if pc.CountBatch? || pc.CountItems? then s.drainedItems + pc.n
    else if pc.LockForDrain? || pc.DrawDrained? then s.pushed + pc.n
    else if pc.PushDrained? then s.pushed + pc.n + 1
    else s.pushed
  }

  /** The values a call carries in its program counter. */
  ghost predicate CarriesLatest(s: Shared, c: Call) {
    && (c.pc.LockForId? || c.pc.PushId? || c.pc.PushDrained? ==> c.pc.id + 1 == s.nextId)
    && (c.pc.CountBatch? || c.pc.CountItems? ==> c.pc.n > 0)
    && (InSubmit(c.pc) || c.pc.CountPend? || c.pc.PendSubmit? ==> c.op.Submit?)
    && (c.pc.Look? || c.pc.Unreachable? ==> c.op.Observe?)
  }

  ghost predicate CallOk(s: Shared, c: Call) {
    RoundsBounded(s, c) && MarkCovered(s, c) && CarriesLatest(s, c)
  }

  ghost predicate Inv(x: System) {
    && InOrder(x.sh)
    && Balanced(x.sh, Sum(Weights(x.calls)))
    && forall i :: 0 <= i < |x.calls| ==> CallOk(x.sh, x.calls[i])
  }

  // ---- one step ----

  // The stepping call's weight changes, the sum `rest` of the other calls' does not.

  lemma DrawBalances(s: Shared, c: Call, rest: Weight, w: Weight, w': Weight)
    requires Balanced(s, w) && Joins(rest, Weigh(c), w) && Sound(rest) && !Blocked(s, c)
    requires c.pc.CountFull? || c.pc.DrawId? || c.pc.LockForId?
    requires Joins(rest, Weigh(SubmitStep(s, c).1), w')
    ensures Balanced(SubmitStep(s, c).0, w')
  {
  }

  lemma PushBalances(s: Shared, c: Call, rest: Weight, w: Weight, w': Weight)
    requires Balanced(s, w) && Joins(rest, Weigh(c), w) && Sound(rest) && !Blocked(s, c)
    requires c.pc.PushId? || c.pc.CountDirect? || c.pc.UnlockId?
    requires Joins(rest, Weigh(SubmitStep(s, c).1), w')
    ensures Balanced(SubmitStep(s, c).0, w')
  {
  }

  lemma PendBalances(s: Shared, c: Call, rest: Weight, w: Weight, w': Weight)
    requires Balanced(s, w) && Joins(rest, Weigh(c), w) && Sound(rest) && !Blocked(s, c)
    requires c.pc.CountPend? || (c.pc.PendSubmit? && c.op.Submit?)
    requires Joins(rest, Weigh(PendStep(s, c).1), w')
    ensures Balanced(PendStep(s, c).0, w')
  {
  }

  lemma FlagBalances(s: Shared, c: Call, rest: Weight, w: Weight, w': Weight)
    requires Balanced(s, w) && Joins(rest, Weigh(c), w) && Sound(rest) && !Blocked(s, c)
    requires c.pc.SetPending?
    requires Joins(rest, Weigh(PendStep(s, c).1), w')
    ensures Balanced(PendStep(s, c).0, w')
  {
  }

  lemma TakeBalances(s: Shared, c: Call, rest: Weight, w: Weight, w': Weight)
    requires Balanced(s, w) && Joins(rest, Weigh(c), w) && Sound(rest) && !Blocked(s, c)
    requires c.pc.SwapCount?
    requires Joins(rest, Weigh(DrainStep(s, c).1), w')
    ensures Balanced(DrainStep(s, c).0, w')
  {
  }

  lemma BatchBalances(s: Shared, c: Call, rest: Weight, w: Weight, w': Weight)
    requires Balanced(s, w) && Joins(rest, Weigh(c), w) && Sound(rest) && !Blocked(s, c)
    requires (c.pc.CountBatch? && c.pc.n > 0) || c.pc.CountItems?
    requires Joins(rest, Weigh(DrainStep(s, c).1), w')
    ensures Balanced(DrainStep(s, c).0, w')
  {
  }

  lemma DrawDrainedBalances(s: Shared, c: Call, rest: Weight, w: Weight, w': Weight)
    requires Balanced(s, w) && Joins(rest, Weigh(c), w) && Sound(rest) && !Blocked(s, c)
    requires c.pc.LockForDrain? || c.pc.DrawDrained?
    requires Joins(rest, Weigh(DrainStep(s, c).1), w')
    ensures Balanced(DrainStep(s, c).0, w')
  {
  }

  lemma PushDrainedBalances(s: Shared, c: Call, rest: Weight, w: Weight, w': Weight)
    requires Balanced(s, w) && Joins(rest, Weigh(c), w) && Sound(rest) && !Blocked(s, c)
    requires c.pc.PushDrained? || c.pc.UnlockDrain?
    requires Joins(rest, Weigh(DrainStep(s, c).1), w')
    ensures Balanced(DrainStep(s, c).0, w')
  {
  }

  lemma PopBalances(s: Shared, c: Call, rest: Weight, w: Weight, w': Weight)
    requires Balanced(s, w) && Joins(rest, Weigh(c), w) && Sound(rest) && !Blocked(s, c)
    requires c.pc.Pop?
    requires Joins(rest, Weigh(PopStep(s, c).1), w')
    ensures Balanced(PopStep(s, c).0, w')
  {
    if c.pc.k != 0 && s.queue != [] {
      assert |s.queue[1..]| == |s.queue| - 1;
    }
  }

  lemma LockToPopBalances(s: Shared, c: Call, rest: Weight, w: Weight, w': Weight)
    requires Balanced(s, w) && Joins(rest, Weigh(c), w) && Sound(rest) && !Blocked(s, c)
    requires c.pc.LockToPop? || c.pc.UnlockPop?
    requires Joins(rest, Weigh(PopStep(s, c).1), w')
    ensures Balanced(PopStep(s, c).0, w')
  {
  }

  lemma CountPoppedBalances(s: Shared, c: Call, rest: Weight, w: Weight, w': Weight)
    requires Balanced(s, w) && Joins(rest, Weigh(c), w) && Sound(rest) && !Blocked(s, c)
    requires c.pc.CountPopped?
    requires Joins(rest, Weigh(PopStep(s, c).1), w')
    ensures Balanced(PopStep(s, c).0, w')
  {
  }

  lemma LoadBalances(s: Shared, c: Call, rest: Weight, w: Weight, w': Weight)
    requires Balanced(s, w) && Joins(rest, Weigh(c), w) && Sound(rest) && !Blocked(s, c)
    requires c.pc.LoadDone? || c.pc.LoadPending?
    requires Joins(rest, Weigh(CheckStep(s, c).1), w')
    ensures Balanced(CheckStep(s, c).0, w')
  {
  }

  lemma LoadProcessedBalances(s: Shared, c: Call, rest: Weight, w: Weight, w': Weight)
    requires Balanced(s, w) && Joins(rest, Weigh(c), w) && Sound(rest) && !Blocked(s, c)
    requires c.pc.LoadProcessed?
    requires Joins(rest, Weigh(CheckStep(s, c).1), w')
    ensures Balanced(CheckStep(s, c).0, w')
  {
  }

  lemma LenBalances(s: Shared, c: Call, rest: Weight, w: Weight, w': Weight)
    requires Balanced(s, w) && Joins(rest, Weigh(c), w) && Sound(rest) && !Blocked(s, c)
    requires c.pc.LockLen? || c.pc.LoadLen? || c.pc.UnlockLen?
    requires Joins(rest, Weigh(CheckStep(s, c).1), w')
    ensures Balanced(CheckStep(s, c).0, w')
  {
  }

  /** The closing access only reads, but for the queue's mutex. */
  lemma LookOnlyReads(s: Shared, c: Call)
    requires c.pc.Look?
    ensures var (s', c') := LookStep(s, c);
            && s' == s.(queueHeld := if c.pc.k == 2 then true else if c.pc.k == 4 then false else s.queueHeld)
            && (c'.pc.Look? || c'.pc.SwapPending?)
            && HasQueue(c'.pc) == (c.pc.k == 2 || c.pc.k == 3)
  {
  }

  lemma LookBalances(s: Shared, c: Call, rest: Weight, w: Weight, w': Weight)
    requires Balanced(s, w) && Joins(rest, Weigh(c), w) && Sound(rest) && !Blocked(s, c)
    requires c.pc.Look?
    requires Joins(rest, Weigh(LookStep(s, c).1), w')
    ensures Balanced(LookStep(s, c).0, w')
  {
    LookOnlyReads(s, c);
  }

  lemma EnterBalances(s: Shared, c: Call, rest: Weight, w: Weight, w': Weight)
    requires Balanced(s, w) && Joins(rest, Weigh(c), w) && Sound(rest) && !Blocked(s, c)
    requires c.pc.Enter?
    requires Joins(rest, Weigh(LockStep(s, c).1), w')
    ensures Balanced(LockStep(s, c).0, w')
  {
  }

  lemma SwapPendingBalances(s: Shared, c: Call, rest: Weight, w: Weight, w': Weight)
    requires Balanced(s, w) && Joins(rest, Weigh(c), w) && Sound(rest) && !Blocked(s, c)
    requires c.pc.SwapPending?
    requires Joins(rest, Weigh(LockStep(s, c).1), w')
    ensures Balanced(LockStep(s, c).0, w')
  {
  }

  lemma ReleaseBalances(s: Shared, c: Call, rest: Weight, w: Weight, w': Weight)
    requires Balanced(s, w) && Joins(rest, Weigh(c), w) && Sound(rest) && !Blocked(s, c)
    requires c.pc.Release? || c.pc.Recheck?
    requires Joins(rest, Weigh(LockStep(s, c).1), w')
    ensures Balanced(LockStep(s, c).0, w')
  {
  }

  lemma ReacquireBalances(s: Shared, c: Call, rest: Weight, w: Weight, w': Weight)
    requires Balanced(s, w) && Joins(rest, Weigh(c), w) && Sound(rest) && !Blocked(s, c)
    requires c.pc.Reacquire?
    requires Joins(rest, Weigh(LockStep(s, c).1), w')
    ensures Balanced(LockStep(s, c).0, w')
  {
  }

  lemma StepBalances(s: Shared, c: Call, rest: Weight, w: Weight, w': Weight)
    requires Balanced(s, w) && Joins(rest, Weigh(c), w) && Sound(rest) && !Blocked(s, c)
    requires c.pc.CountBatch? ==> c.pc.n > 0
    requires c.pc.PendSubmit? ==> c.op.Submit?
    requires Joins(rest, Weigh(Step(s, c).1), w')
    ensures Balanced(Step(s, c).0, w')
  {
    var pc := c.pc;
    if InSubmit(pc) {
      if pc.CountFull? || pc.DrawId? || pc.LockForId? {
        DrawBalances(s, c, rest, w, w');
      } else {
        PushBalances(s, c, rest, w, w');
      }
    } else if InPend(pc) {
      if pc.SetPending? {
        FlagBalances(s, c, rest, w, w');
      } else {
        PendBalances(s, c, rest, w, w');
      }
    } else if InDrain(pc) {
      if pc.SwapCount? { TakeBalances(s, c, rest, w, w'); }
      else if pc.CountBatch? || pc.CountItems? { BatchBalances(s, c, rest, w, w'); }
      else if pc.LockForDrain? || pc.DrawDrained? { DrawDrainedBalances(s, c, rest, w, w'); }
      else { PushDrainedBalances(s, c, rest, w, w'); }
    } else if InPop(pc) {
      if pc.Pop? { PopBalances(s, c, rest, w, w'); }
      else if pc.CountPopped? { CountPoppedBalances(s, c, rest, w, w'); }
      else { LockToPopBalances(s, c, rest, w, w'); }
    } else if InCheck(pc) {
      if pc.LoadProcessed? { LoadProcessedBalances(s, c, rest, w, w'); }
      else if pc.LoadDone? || pc.LoadPending? { LoadBalances(s, c, rest, w, w'); }
      else { LenBalances(s, c, rest, w, w'); }
    } else if InLock(pc) {
      if pc.Enter? { EnterBalances(s, c, rest, w, w'); }
      else if pc.SwapPending? { SwapPendingBalances(s, c, rest, w, w'); }
      else if pc.Reacquire? { ReacquireBalances(s, c, rest, w, w'); }
      else { ReleaseBalances(s, c, rest, w, w'); }
    } else if pc.Look? {
      LookBalances(s, c, rest, w, w');
    }
  }

  lemma PushKeepsIds(s: Shared, id: nat)
    requires Arrived(s) == Ids(|Arrived(s)|) && id == |Arrived(s)| + 1
    ensures var s' := s.(queue := s.queue + [id]);
            |Arrived(s')| == |Arrived(s)| + 1 && Arrived(s') == Ids(|Arrived(s')|)
  {
    var s' := s.(queue := s.queue + [id]);
    assert Arrived(s') == Arrived(s) + [id];
  }

  lemma PopKeepsIds(s: Shared)
    requires s.queue != []
    ensures var s' := s.(queue := s.queue[1..], popped := s.popped + [s.queue[0]]);
            Arrived(s') == Arrived(s)
  {
  }

  /** Only the pushes and the pop touch the queue. */
  predicate MovesIds(pc: Pc) {
    pc.PushId? || pc.PushDrained? || pc.Pop?
  }

  lemma OtherSubmitsLeaveQueue(s: Shared, c: Call)
    requires !MovesIds(c.pc) && (InSubmit(c.pc) || InPend(c.pc) || InDrain(c.pc))
    ensures var s' := Step(s, c).0; s'.queue == s.queue && s'.popped == s.popped
  {
    if InSubmit(c.pc) {
    } else if InPend(c.pc) {
    }
  }

  lemma OthersLeaveQueue(s: Shared, c: Call)
    requires !MovesIds(c.pc)
    ensures var s' := Step(s, c).0; s'.queue == s.queue && s'.popped == s.popped
  {
    if InSubmit(c.pc) || InPend(c.pc) || InDrain(c.pc) {
      OtherSubmitsLeaveQueue(s, c);
    } else if InPop(c.pc) {
    } else if InCheck(c.pc) {
    } else if InLock(c.pc) {
    }
  }

  lemma StepKeepsOrder(s: Shared, c: Call)
    requires InOrder(s)
    requires c.pc.PushId? || c.pc.PushDrained? ==> c.pc.id == |Arrived(s)| + 1
    ensures InOrder(Step(s, c).0)
  {
    if c.pc.PushId? {
      PushKeepsIds(s, c.pc.id);
    } else if c.pc.PushDrained? {
      PushKeepsIds(s, c.pc.id);
    } else if c.pc.Pop? {
      if c.pc.k > 0 && s.queue != [] {
        PopKeepsIds(s);
      }
    } else {
      OthersLeaveQueue(s, c);
    }
  }

  /** What a step may do to the shared state, as far as another call can tell. */
  ghost predicate Unobtrusive(s: Shared, s': Shared, stepperHolds: bool) {
    && s'.completions >= s.completions && s'.flagged >= s.flagged
    && (s'.pending && !s.pending ==> s'.completions > s.completions)
    && (!stepperHolds ==> s'.nextId == s.nextId && s'.drainedItems == s.drainedItems && s'.pushed == s.pushed)
  }

  lemma HolderUnobtrusive(s: Shared, c: Call)
    requires Holds(c.pc) && !InLock(c.pc)
    ensures var s' := Step(s, c).0;
            s'.completions == s.completions && s'.flagged == s.flagged && s'.pending == s.pending
  {
    if InSubmit(c.pc) {
    } else if InDrain(c.pc) {
    }
  }

  lemma StepUnobtrusive(s: Shared, c: Call)
    ensures Unobtrusive(s, Step(s, c).0, Holds(c.pc))
  {
    if InLock(c.pc) {
    } else if Holds(c.pc) {
      HolderUnobtrusive(s, c);
    }
  }

  lemma OtherKept(s: Shared, s': Shared, d: Call, stepperHolds: bool)
    requires CallOk(s, d) && !(stepperHolds && Holds(d.pc)) && Unobtrusive(s, s', stepperHolds)
    ensures CallOk(s', d)
  {
  }

  lemma SubmitKeepsOwn(s: Shared, c: Call)
    requires CallOk(s, c)
    requires InSubmit(c.pc)
    ensures var (s', c') := SubmitStep(s, c); CallOk(s', c')
  {
  }

  lemma PendKeepsOwn(s: Shared, c: Call)
    requires CallOk(s, c)
    requires InPend(c.pc)
    ensures var (s', c') := PendStep(s, c); CallOk(s', c')
  {
  }

  lemma TakeKeepsOwn(s: Shared, c: Call, rest: Weight, w: Weight)
    requires CallOk(s, c) && Balanced(s, w) && Joins(rest, Weigh(c), w) && Sound(rest)
    requires c.pc.SwapCount? || c.pc.CountBatch? || c.pc.CountItems?
    ensures var (s', c') := DrainStep(s, c); CallOk(s', c')
  {
  }

  lemma MoveKeepsOwn(s: Shared, c: Call)
    requires CallOk(s, c)
    requires c.pc.LockForDrain? || c.pc.DrawDrained? || c.pc.PushDrained? || c.pc.UnlockDrain?
    ensures var (s', c') := DrainStep(s, c); CallOk(s', c')
  {
  }

  lemma PopKeepsOwn(s: Shared, c: Call)
    requires CallOk(s, c)
    requires InPop(c.pc)
    ensures var (s', c') := PopStep(s, c); CallOk(s', c')
  {
  }

  lemma CheckKeepsOwn(s: Shared, c: Call)
    requires CallOk(s, c)
    requires InCheck(c.pc)
    ensures var (s', c') := CheckStep(s, c); CallOk(s', c')
  {
  }

  lemma LookKeepsOwn(s: Shared, c: Call)
    requires CallOk(s, c)
    requires c.pc.Look?
    ensures var (s', c') := LookStep(s, c); CallOk(s', c')
  {
  }

  lemma SwapPendingKeepsOwn(s: Shared, c: Call, rest: Weight, w: Weight)
    requires CallOk(s, c) && Balanced(s, w) && Joins(rest, Weigh(c), w) && Sound(rest)
    requires c.pc.SwapPending?
    ensures var (s', c') := LockStep(s, c); CallOk(s', c')
  {
  }

  lemma LockKeepsOwn(s: Shared, c: Call)
    requires CallOk(s, c)
    requires InLock(c.pc) && !c.pc.SwapPending?
    ensures var (s', c') := LockStep(s, c); CallOk(s', c')
  {
  }

  lemma StepKeepsOwn(s: Shared, c: Call, rest: Weight, w: Weight)
    requires CallOk(s, c) && Balanced(s, w) && Joins(rest, Weigh(c), w) && Sound(rest)
    ensures var (s', c') := Step(s, c); CallOk(s', c')
  {
    if InSubmit(c.pc) {
      SubmitKeepsOwn(s, c);
    } else if InPend(c.pc) {
      PendKeepsOwn(s, c);
    } else if InDrain(c.pc) {
      if c.pc.SwapCount? || c.pc.CountBatch? || c.pc.CountItems? {
        TakeKeepsOwn(s, c, rest, w);
      } else {
        MoveKeepsOwn(s, c);
      }
    } else if InPop(c.pc) {
      PopKeepsOwn(s, c);
    } else if InCheck(c.pc) {
      CheckKeepsOwn(s, c);
    } else if InLock(c.pc) {
      if c.pc.SwapPending? {
        SwapPendingKeepsOwn(s, c, rest, w);
      } else {
        LockKeepsOwn(s, c);
      }
    } else if c.pc.Look? {
      LookKeepsOwn(s, c);
    }
  }

  // ---- whole runs ----

  lemma {:induction false} WeightsUpdate(calls: seq<Call>, i: nat, c: Call)
    requires i < |calls|
    ensures Weights(calls[i := c]) == Weights(calls)[i := Weigh(c)]
  {
    var n := |calls| - 1;
    if i < n {
      WeightsUpdate(calls[..n], i, c);
      assert calls[i := c][..n] == calls[..n][i := c];
    } else {
      assert calls[i := c][..n] == calls[..n];
    }
  }

  lemma WeightsAppend(calls: seq<Call>, c: Call)
    ensures Weights(calls + [c]) == Weights(calls) + [Weigh(c)]
  {
    assert (calls + [c])[..|calls|] == calls;
  }

  /** Every weight is sound, and tells holders from non-holders. */
  lemma {:induction false} WeightsSound(calls: seq<Call>)
    ensures forall j :: 0 <= j < |calls| ==> Sound(Weights(calls)[j])
    ensures forall j :: 0 <= j < |calls| ==> (Weights(calls)[j].holds == 0 <==> !Holds(calls[j].pc))
  {
    if calls == [] {
    } else {
      WeightsSound(calls[..|calls| - 1]);
      WeighSound(calls[|calls| - 1]);
    }
  }

  /** The others' sum, in the form the step lemmas need it. */
  lemma Others(calls: seq<Call>, i: nat) returns (rest: Weight)
    requires i < |calls|
    ensures rest == Rest(Weights(calls), i) && Sound(rest)
    ensures Joins(rest, Weigh(calls[i]), Sum(Weights(calls)))
    ensures rest.holds == 0 <==> forall j :: 0 <= j < |calls| && j != i ==> !Holds(calls[j].pc)
  {
    var ws := Weights(calls);
    WeightsSound(calls);
    WeightAt(calls, i);
    SumSound(ws, i);
    SumJoins(ws, i);
    rest := Rest(ws, i);
  }

  lemma MoveKeepsCalls(x: System, i: nat)
    requires Inv(x) && Can(x, Move(i))
    ensures var y := Do(x, Move(i)); forall j :: 0 <= j < |y.calls| ==> CallOk(y.sh, y.calls[j])
  {
    var c := x.calls[i];
    var y := Do(x, Move(i));
    var rest := Others(x.calls, i);
    StepKeepsOwn(x.sh, c, rest, Sum(Weights(x.calls)));
    StepUnobtrusive(x.sh, c);
    forall j | 0 <= j < |y.calls| ensures CallOk(y.sh, y.calls[j]) {
      if j != i {
        OtherKept(x.sh, y.sh, x.calls[j], Holds(c.pc));
      }
    }
  }

  lemma MoveBalances(x: System, i: nat)
    requires Inv(x) && Can(x, Move(i))
    ensures var y := Do(x, Move(i)); InOrder(y.sh) && Balanced(y.sh, Sum(Weights(y.calls)))
  {
    var c := x.calls[i];
    var c' := Step(x.sh, c).1;
    var rest := Others(x.calls, i);
    var ws := Weights(x.calls);
    assert CallOk(x.sh, c);
    WeightsUpdate(x.calls, i, c');
    SumSplit(ws, i, Weigh(c'));
    StepBalances(x.sh, c, rest, Sum(ws), Sum(Weights(x.calls[i := c'])));
    StepKeepsOrder(x.sh, c);
  }

  lemma MoveKeepsInv(x: System, i: nat)
    requires Inv(x) && Can(x, Move(i))
    ensures Inv(Do(x, Move(i)))
  {
    MoveKeepsCalls(x, i);
    MoveBalances(x, i);
  }

  lemma FreshWeighs(op: Op)
    ensures var w := Weigh(Fresh(op));
            w.holds == 0 && HolderPartsZero(w) && w.submitting == 0 && w.unflagged == 0 && w.entering == Bit(op.Submit?)
  {
  }

  lemma FreshOk(s: Shared, op: Op)
    ensures CallOk(s, Fresh(op))
  {
  }

  /** Two sums that differ at most in `entering`. */
  predicate SameButEntering(w: Weight, w': Weight) {
    w' == w.(entering := w'.entering)
  }

  /** `entering` plays no part in the balance. */
  lemma EnteringIsFree(s: Shared, w: Weight, w': Weight)
    requires Balanced(s, w) && SameButEntering(w, w')
    ensures Balanced(s, w')
  {
  }

  lemma ForkWeighs(calls: seq<Call>, op: Op)
    ensures var w, w' := Sum(Weights(calls)), Sum(Weights(calls + [Fresh(op)]));
            SameButEntering(w, w') && w'.entering == w.entering + Bit(op.Submit?)
  {
    FreshWeighs(op);
    WeightsAppend(calls, Fresh(op));
    var ws := Weights(calls);
    assert (ws + [Weigh(Fresh(op))])[..|ws|] == ws;
  }

  lemma ForkKeepsInv(x: System, op: Op)
    requires Inv(x)
    ensures Inv(Do(x, Fork(op)))
  {
    var y := Do(x, Fork(op));
    ForkWeighs(x.calls, op);
    FreshOk(x.sh, op);
    EnteringIsFree(x.sh, Sum(Weights(x.calls)), Sum(Weights(y.calls)));
    assert forall j :: 0 <= j < |x.calls| ==> y.calls[j] == x.calls[j];
  }

  lemma BeginWeighs(calls: seq<Call>, i: nat, op: Op)
    requires i < |calls| && calls[i].pc.Done?
    ensures var w, w' := Sum(Weights(calls)), Sum(Weights(calls[i := Fresh(op)]));
            SameButEntering(w, w') && w'.entering == w.entering + Bit(op.Submit?)
  {
    FreshWeighs(op);
    WeightsUpdate(calls, i, Fresh(op));
    WeightAt(calls, i);
    SumSplit(Weights(calls), i, Weigh(Fresh(op)));
  }

  lemma BeginKeepsInv(x: System, i: nat, op: Op)
    requires Inv(x) && Can(x, Begin(i, op))
    ensures Inv(Do(x, Begin(i, op)))
  {
    BeginWeighs(x.calls, i, op);
    FreshOk(x.sh, op);
    EnteringIsFree(x.sh, Sum(Weights(x.calls)), Sum(Weights(x.calls[i := Fresh(op)])));
  }

  lemma RetireKeepsInv(x: System)
    requires Inv(x) && Can(x, Retire)
    ensures Inv(Do(x, Retire))
  {
    var n := |x.calls| - 1;
    assert Weigh(x.calls[n]) == Zero();
  }

  lemma DoneFlagIsFree(x: System)
    requires Inv(x)
    ensures Inv(x.(sh := x.sh.(producersDone := true)))
  {
    var s' := x.sh.(producersDone := true);
    assert Arrived(s') == Arrived(x.sh);
    forall j | 0 <= j < |x.calls| ensures CallOk(s', x.calls[j]) {
      OtherKept(x.sh, s', x.calls[j], false);
    }
  }

  lemma ActionKeepsInv(x: System, a: Action)
    requires Inv(x) && Can(x, a)
    ensures Inv(Do(x, a))
  {
    match a {
      case Fork(op) => ForkKeepsInv(x, op);
      case Begin(i, op) => BeginKeepsInv(x, i, op);
      case Move(i) => MoveKeepsInv(x, i);
      case Retire => RetireKeepsInv(x);
      case FinishProducers => DoneFlagIsFree(x);
    }
  }

  /** Every state of every run satisfies the invariant. */
  lemma {:induction false} RunKeepsInv(x: System, run: seq<Action>)
    requires Inv(x) && Legal(x, run)
    ensures Inv(After(x, run))
    decreases |run|
  {
    if run == [] {
    } else {
      var n := |run| - 1;
      RunKeepsInv(x, run[..n]);
      ActionKeepsInv(After(x, run[..n]), run[n]);
    }
  }

  predicate Idle(c: Call) {
    c.pc.Done?
  }

  ghost predicate AllIdle(calls: seq<Call>) {
    IdleBut(calls, -1)
  }

  /** Only call `busy` may be in progress. */
  ghost predicate IdleBut(calls: seq<Call>, busy: int) {
    forall i :: 0 <= i < |calls| && i != busy ==> Idle(calls[i])
  }

  lemma {:induction false} IdleHoldNothing(calls: seq<Call>, busy: int)
    requires IdleBut(calls, busy)
    ensures var w := SumSkipping(Weights(calls), busy); w.holds == 0 && HolderPartsZero(w)
    decreases |calls|
  {
    if calls == [] {
    } else {
      var n := |calls| - 1;
      IdleHoldNothing(calls[..n], busy);
      assert n != busy ==> Idle(calls[n]);
    }
  }

  lemma {:induction false} IdleDeferNothing(calls: seq<Call>, busy: int)
    requires IdleBut(calls, busy)
    ensures var w := SumSkipping(Weights(calls), busy); w.submitting == 0 && w.unflagged == 0 && w.entering == 0
    decreases |calls|
  {
    if calls == [] {
    } else {
      var n := |calls| - 1;
      IdleDeferNothing(calls[..n], busy);
      assert n != busy ==> Idle(calls[n]);
    }
  }

  lemma IdleOk(s: Shared, c: Call)
    requires Idle(c)
    ensures CallOk(s, c)
  {
  }

  /** Before any call begins. */
  lemma IdleInv(x: System)
    requires IsNew(x.sh) && AllIdle(x.calls)
    ensures Inv(x)
  {
    IdleHoldNothing(x.calls, -1);
    IdleDeferNothing(x.calls, -1);
    assert Arrived(x.sh) == Ids(0);
    forall i | 0 <= i < |x.calls| ensures CallOk(x.sh, x.calls[i]) {
      assert Idle(x.calls[i]);
      IdleOk(x.sh, x.calls[i]);
    }
  }

  lemma StartInv(x: System)
    requires IsStart(x)
    ensures Inv(x)
  {
    IdleInv(x);
  }
}
