/** The plain queue both benchmarks implement: submitting appends the next id, popping takes the oldest. */
module AbstractQueue {
  import opened Numbers

  datatype Queue = Queue(popped: seq<nat>, waiting: seq<nat>)

  datatype QueueOp = Submit | Pop

  const EMPTY := Queue([], [])

  predicate CanApply(q: Queue, op: QueueOp) {
    op.Pop? ==> q.waiting != []
  }

  function Apply(q: Queue, op: QueueOp): Queue
    requires CanApply(q, op)
  {
    match op
    case Submit => q.(waiting := q.waiting + [|q.popped| + |q.waiting| + 1])
    case Pop => Queue(q.popped + [q.waiting[0]], q.waiting[1..])
  }

  /** q is what some sequence of operations leaves behind, starting from the empty queue. */
  ghost predicate Explains(ops: seq<QueueOp>, q: Queue)
    decreases |ops|
  {
    if ops == [] then q == EMPTY
    else
      var n := |ops| - 1;
      exists p: Queue :: Explains(ops[..n], p) && CanApply(p, ops[n]) && Apply(p, ops[n]) == q
  }

  lemma Extend(ops: seq<QueueOp>, p: Queue, op: QueueOp)
    requires Explains(ops, p) && CanApply(p, op)
    ensures Explains(ops + [op], Apply(p, op))
  {
    assert (ops + [op])[..|ops|] == ops;
  }

  function Count(ops: seq<QueueOp>, op: QueueOp): nat {
    if ops == [] then 0 else Count(ops[..|ops| - 1], op) + Bit(ops[|ops| - 1] == op)
  }

  lemma OneServed(p: Queue, op: QueueOp, n: nat)
    requires CanApply(p, op) && p.popped + p.waiting == Ids(n)
    ensures var q := Apply(p, op); q.popped + q.waiting == Ids(n + Bit(op.Submit?))
  {
    var q := Apply(p, op);
    assert |p.popped| + |p.waiting| == |p.popped + p.waiting| == n;
    if op.Submit? {
      assert q.popped + q.waiting == (p.popped + p.waiting) + [n + 1];
    } else {
      assert q.popped + q.waiting == p.popped + p.waiting;
    }
  }

  /** Every sequence of operations serves the ids 1, 2, 3, ... in order, and keeps exactly the rest. */
  lemma {:induction false} ServesInOrder(ops: seq<QueueOp>, q: Queue)
    requires Explains(ops, q)
    ensures q.popped + q.waiting == Ids(Count(ops, Submit))
    ensures |q.popped| == Count(ops, Pop)
    decreases |ops|
  {
    if ops == [] {
    } else {
      var n := |ops| - 1;
      var p: Queue :| Explains(ops[..n], p) && CanApply(p, ops[n]) && Apply(p, ops[n]) == q;
      ServesInOrder(ops[..n], p);
      OneServed(p, ops[n], Count(ops[..n], Submit));
    }
  }
}
