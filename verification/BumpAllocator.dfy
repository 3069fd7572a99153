/**
 The lock-free bump allocator, for a heap of any size and any number of callers.

 A caller loads `next` (relaxed: any value `next` has had so far), and then tries to
 move it with compare-exchange until it succeeds or the request does not fit. One
 `Try` is one turn of the loop; what a turn computes between is the caller's own.
 */
module BumpAllocator {
  import opened Numbers

  /** What `core::alloc::Layout` guarantees: the alignment is a power of two, and the padded size fits `isize`. */
  datatype Layout = Layout(size: nat, align: nat)

  const ISIZE_MAX: nat := 0x7fff_ffff_ffff_ffff

  ghost predicate LayoutOk(l: Layout) {
    && (exists k: nat :: k < 64 && l.align == Pow2(k))
    && l.align <= ISIZE_MAX + 1 && l.size <= ISIZE_MAX - (l.align - 1)
  }

  /** The heap sizes the argument covers; the two in use are 256 KiB and 16 KiB. */
  predicate HeapOk(heap: nat) {
    heap <= ISIZE_MAX
  }

  /** Where a turn of the loop puts the request when it starts from `cur`, or None for a null pointer. */
  function Place(heap: nat, cur: nat, l: Layout): Option<nat>
    requires 1 <= l.align <= WORD
  {
    var aligned := MaskUp(cur, l.align);
    if aligned + l.size >= WORD then None          // checked_add
    else if aligned + l.size > heap then None
    else Some(aligned)
  }

  lemma LayoutBounds(l: Layout)
    requires LayoutOk(l)
    ensures 1 <= l.align <= WORD
  {
  }

  /** `cur + align - 1` does not overflow, and the mask rounds up; so the place is the first fitting one. */
  lemma PlaceRounds(heap: nat, cur: nat, l: Layout)
    requires LayoutOk(l) && HeapOk(heap) && cur <= heap
    ensures 1 <= l.align <= WORD && cur + l.align - 1 < WORD
    ensures IsRoundUp(cur, l.align, MaskUp(cur, l.align))
    ensures Place(heap, cur, l) == if MaskUp(cur, l.align) + l.size <= heap then Some(MaskUp(cur, l.align)) else None
  {
    var k: nat :| k < 64 && l.align == Pow2(k);
    MaskUpRounds(cur, k);
  }

  /** A request that does not fit behind an earlier `next` does not fit behind a later one. */
  lemma PlaceMonotone(heap: nat, cur: nat, next: nat, l: Layout)
    requires LayoutOk(l) && HeapOk(heap) && cur <= next <= heap
    ensures 1 <= l.align <= WORD
    ensures Place(heap, cur, l).None? ==> Place(heap, next, l).None?
  {
    PlaceRounds(heap, cur, l);
    PlaceRounds(heap, next, l);
    RoundUpMonotone(cur, next, l.align, MaskUp(cur, l.align), MaskUp(next, l.align));
  }

  // ---- the step system ----

  datatype Span = Span(start: nat, layout: Layout)

  function End(s: Span): nat {
    s.start + s.layout.size
  }

  /** hist: the values `next` has had, the last of them its current one; spans: what was handed out. */
  datatype Heap = Heap(hist: seq<nat>, spans: seq<Span>)

  /** A caller in the loop expects hist[at]; `born` and `fails` count the successes before it began and its failed
      exchanges, and are read by no step. */
  datatype Caller =
    | Idle
    | Trying(layout: Layout, at: nat, born: nat, fails: nat)
    | Got(span: Span)
    | Null(layout: Layout)

  datatype State = State(heap: Heap, callers: seq<Caller>)

  datatype Action =
    | Load(i: nat, layout: Layout, at: nat)
    | Try(i: nat)

  function Next(h: Heap): nat
    requires h.hist != []
  {
    h.hist[|h.hist| - 1]
  }

  ghost predicate Can(s: State, a: Action) {
    a.i < |s.callers| &&
    match a
    case Load(i, l, at) => !s.callers[i].Trying? && LayoutOk(l) && at < |s.heap.hist|
    case Try(i) => s.callers[i].Trying? && LayoutOk(s.callers[i].layout) && s.callers[i].at < |s.heap.hist|
  }

  /** One turn of the loop. */
  function Turn(heap: nat, h: Heap, c: Caller): (Heap, Caller)
    requires c.Trying? && c.at < |h.hist| && 1 <= c.layout.align <= WORD
  {
    var cur := h.hist[c.at];
    match Place(heap, cur, c.layout)
    case None => (h, Null(c.layout))
    case Some(aligned) =>
      if Next(h) == cur then
        var s := Span(aligned, c.layout);
        (Heap(h.hist + [End(s)], h.spans + [s]), Got(s))
      else (h, c.(at := |h.hist| - 1, fails := c.fails + 1))
  }

  ghost function Do(heap: nat, s: State, a: Action): State
    requires Can(s, a)
  {
    match a
    case Load(i, l, at) => s.(callers := s.callers[i := Trying(l, at, |s.heap.spans|, 0)])
    case Try(i) =>
      LayoutBounds(s.callers[i].layout);
      var (h, c) := Turn(heap, s.heap, s.callers[i]);
      State(h, s.callers[i := c])
  }

  ghost predicate Legal(heap: nat, s: State, run: seq<Action>)
    decreases |run|, 0
  {
    run == [] || (Legal(heap, s, run[..|run| - 1]) && Can(After(heap, s, run[..|run| - 1]), run[|run| - 1]))
  }

  ghost function After(heap: nat, s: State, run: seq<Action>): State
    requires Legal(heap, s, run)
    decreases |run|, 1
  {
    if run == [] then s else Do(heap, After(heap, s, run[..|run| - 1]), run[|run| - 1])
  }

  /** An untouched heap, with n callers. */
  predicate IsStart(s: State, n: nat) {
    && s.heap == Heap([0], [])
    && |s.callers| == n && forall i :: 0 <= i < n ==> s.callers[i].Idle?
  }

  // ---- the invariant ----

  /** What is handed out lies in the heap, aligned, one after the other. */
  ghost predicate SpanOk(heap: nat, s: Span) {
    LayoutOk(s.layout) && s.start % s.layout.align == 0 && End(s) <= heap
  }

  ghost predicate Apart(spans: seq<Span>) {
    forall i, j :: 0 <= i < j < |spans| ==> End(spans[i]) <= spans[j].start
  }

  function Needed(spans: seq<Span>): nat {
    if spans == [] then 0
    else
      var l := spans[|spans| - 1].layout;
      Needed(spans[..|spans| - 1]) + l.size + (if l.align == 0 then 0 else l.align - 1)
  }

  ghost predicate HeapInv(heap: nat, h: Heap) {
    && |h.hist| == |h.spans| + 1
    && (forall i, j :: 0 <= i <= j < |h.hist| ==> h.hist[i] <= h.hist[j])
    && Next(h) <= heap
    && (forall i :: 0 <= i < |h.spans| ==> SpanOk(heap, h.spans[i]) && End(h.spans[i]) == h.hist[i + 1])
    && Apart(h.spans)
    && Next(h) <= Needed(h.spans)
  }

  ghost predicate CallerInv(heap: nat, h: Heap, c: Caller)
    requires h.hist != []
  {
    match c
    case Idle => true
    case Trying(l, at, born, fails) =>
      && LayoutOk(l) && at < |h.hist| && born < |h.hist|
      && (fails > 0 ==> born <= at && fails <= 1 + (at - born))
    case Got(s) => s in h.spans
    case Null(l) => LayoutOk(l) && forall next :: Next(h) <= next <= heap ==> NoPlace(heap, next, l)
  }

  ghost predicate NoPlace(heap: nat, next: nat, l: Layout) {
    1 <= l.align <= WORD && Place(heap, next, l).None?
  }

  ghost predicate Inv(heap: nat, s: State) {
    HeapInv(heap, s.heap) && forall i :: 0 <= i < |s.callers| ==> CallerInv(heap, s.heap, s.callers[i])
  }

  lemma HandOut(heap: nat, h: Heap, l: Layout)
    requires HeapOk(heap) && HeapInv(heap, h) && LayoutOk(l) && 1 <= l.align <= WORD && Place(heap, Next(h), l).Some?
    ensures var s := Span(Place(heap, Next(h), l).value, l);
            HeapInv(heap, Heap(h.hist + [End(s)], h.spans + [s])) && Next(h) <= End(s)
  {
    PlaceRounds(heap, Next(h), l);
    var s := Span(Place(heap, Next(h), l).value, l);
    var spans := h.spans + [s];
    assert spans[..|h.spans|] == h.spans;
    forall i | 0 <= i < |h.spans| ensures End(h.spans[i]) <= s.start {
      assert h.hist[i + 1] <= Next(h);
    }
  }

  lemma NullFinal(heap: nat, h: Heap, l: Layout, cur: nat)
    requires HeapOk(heap) && HeapInv(heap, h) && LayoutOk(l) && 1 <= l.align <= WORD
    requires cur <= Next(h) && Place(heap, cur, l).None?
    ensures CallerInv(heap, h, Null(l))
  {
    forall next | Next(h) <= next <= heap ensures NoPlace(heap, next, l) {
      PlaceMonotone(heap, cur, next, l);
    }
  }

  /** What a turn does to the heap is done for good: callers elsewhere keep what they know. */
  lemma OthersKeep(heap: nat, h: Heap, s: Span, c: Caller)
    requires HeapInv(heap, h) && CallerInv(heap, h, c) && Next(h) <= End(s)
    ensures CallerInv(heap, Heap(h.hist + [End(s)], h.spans + [s]), c)
  {
  }

  lemma TurnKeeps(heap: nat, h: Heap, c: Caller)
    requires HeapOk(heap) && HeapInv(heap, h) && c.Trying? && CallerInv(heap, h, c) && 1 <= c.layout.align <= WORD
    ensures var (h', c') := Turn(heap, h, c); HeapInv(heap, h') && CallerInv(heap, h', c')
  {
    var cur := h.hist[c.at];
    match Place(heap, cur, c.layout)
    case None => NullFinal(heap, h, c.layout, cur);
    case Some(_) =>
      if Next(h) == cur {
        HandOut(heap, h, c.layout);
      }
  }

  lemma ActionKeepsInv(heap: nat, s: State, a: Action)
    requires HeapOk(heap) && Inv(heap, s) && Can(s, a)
    ensures Inv(heap, Do(heap, s, a))
  {
    if a.Try? {
      var c := s.callers[a.i];
      LayoutBounds(c.layout);
      TurnKeeps(heap, s.heap, c);
      var cur := s.heap.hist[c.at];
      if Place(heap, cur, c.layout).Some? && Next(s.heap) == cur {
        var span := Span(Place(heap, cur, c.layout).value, c.layout);
        HandOut(heap, s.heap, c.layout);
        forall i | 0 <= i < |s.callers| && i != a.i
          ensures CallerInv(heap, Do(heap, s, a).heap, s.callers[i])
        {
          OthersKeep(heap, s.heap, span, s.callers[i]);
        }
      }
    }
  }

  lemma {:induction false} RunInv(heap: nat, s: State, n: nat, run: seq<Action>)
    requires HeapOk(heap) && IsStart(s, n) && Legal(heap, s, run)
    ensures Inv(heap, After(heap, s, run))
    decreases |run|
  {
    if run == [] {
    } else {
      RunInv(heap, s, n, run[..|run| - 1]);
      ActionKeepsInv(heap, After(heap, s, run[..|run| - 1]), run[|run| - 1]);
    }
  }

  // ---- what every run guarantees ----

  predicate Disjoint(s: Span, t: Span) {
    End(s) <= t.start || End(t) <= s.start
  }

  /** Safety: whatever was handed out lies in the heap at an aligned offset, and no two overlap. */
  ghost predicate SafelyHandedOut(heap: nat, h: Heap) {
    && (forall i :: 0 <= i < |h.spans| ==> SpanOk(heap, h.spans[i]))
    && (forall i, j :: 0 <= i < |h.spans| && 0 <= j < |h.spans| && i != j ==> Disjoint(h.spans[i], h.spans[j]))
  }

  lemma AllocationsSafe(heap: nat, s: State, n: nat, run: seq<Action>)
    requires HeapOk(heap) && IsStart(s, n) && Legal(heap, s, run)
    ensures SafelyHandedOut(heap, After(heap, s, run).heap)
  {
    RunInv(heap, s, n, run);
    var h := After(heap, s, run).heap;
    forall i, j | 0 <= i < |h.spans| && 0 <= j < |h.spans| && i != j ensures Disjoint(h.spans[i], h.spans[j]) {
      if i < j {
        assert End(h.spans[i]) <= h.spans[j].start;
      } else {
        assert End(h.spans[j]) <= h.spans[i].start;
      }
    }
  }

  /** Space: `next` is never more than the sizes and the alignment losses of what was handed out. */
  lemma SpaceUsed(heap: nat, s: State, n: nat, run: seq<Action>)
    requires HeapOk(heap) && IsStart(s, n) && Legal(heap, s, run)
    ensures var h := After(heap, s, run).heap; h.hist != [] && Next(h) <= Needed(h.spans) && Next(h) <= heap
  {
    RunInv(heap, s, n, run);
  }

  /** `next` never goes down, and what was handed out stays so. */
  lemma {:induction false} OnlyGrows(heap: nat, s: State, n: nat, run: seq<Action>, m: nat)
    requires HeapOk(heap) && IsStart(s, n) && Legal(heap, s, run) && m <= |run|
    ensures Legal(heap, s, run[..m])
    ensures var h, h' := After(heap, s, run[..m]).heap, After(heap, s, run).heap;
            h.hist != [] && h'.hist != [] && h.hist <= h'.hist && h.spans <= h'.spans && Next(h) <= Next(h')
    decreases |run|
  {
    RunInv(heap, s, n, run);
    if m == |run| {
      assert run[..m] == run;
    } else {
      var front := run[..|run| - 1];
      OnlyGrows(heap, s, n, front, m);
      assert front[..m] == run[..m];
      RunInv(heap, s, n, front);
      ActionGrows(heap, After(heap, s, front), run[|run| - 1]);
    }
  }

  lemma ActionGrows(heap: nat, s: State, a: Action)
    requires HeapOk(heap) && Inv(heap, s) && Can(s, a)
    ensures var h, h' := s.heap, Do(heap, s, a).heap;
            h'.hist != [] && h.hist <= h'.hist && h.spans <= h'.spans && Next(h) <= Next(h')
  {
    if a.Try? {
      var c := s.callers[a.i];
      LayoutBounds(c.layout);
      if Place(heap, s.heap.hist[c.at], c.layout).Some? && Next(s.heap) == s.heap.hist[c.at] {
        HandOut(heap, s.heap, c.layout);
      }
    }
  }

  /** A request is refused only if it does not fit, then and ever after, however old the value it was tried with. */
  lemma NoSpuriousNull(heap: nat, s: State, n: nat, run: seq<Action>, i: nat)
    requires HeapOk(heap) && IsStart(s, n) && Legal(heap, s, run)
    requires i < |After(heap, s, run).callers| && After(heap, s, run).callers[i].Null?
    ensures var s' := After(heap, s, run);
            var l := s'.callers[i].layout;
            s'.heap.hist != [] && LayoutOk(l) &&
            forall a :: Next(s'.heap) <= a && a % l.align == 0 ==> a + l.size > heap
  {
    RunInv(heap, s, n, run);
    var s' := After(heap, s, run);
    var l, next := s'.callers[i].layout, Next(s'.heap);
    assert CallerInv(heap, s'.heap, s'.callers[i]);
    assert NoPlace(heap, next, l);
    PlaceRounds(heap, next, l);
    forall a | next <= a && a % l.align == 0 ensures a + l.size > heap {
      RoundUpLeast(next, l.align, MaskUp(next, l.align), a);
    }
  }

  /** Progress: an exchange that fails although the expected value had been current when it was read means that
      another caller has moved `next` on since; so a caller fails at most once for a stale load, and once for
      each success of the others since. */
  lemma FailuresPaid(heap: nat, s: State, n: nat, run: seq<Action>, i: nat)
    requires HeapOk(heap) && IsStart(s, n) && Legal(heap, s, run)
    requires i < |After(heap, s, run).callers| && After(heap, s, run).callers[i].Trying?
    ensures var s' := After(heap, s, run);
            var c := s'.callers[i];
            c.born <= |s'.heap.spans| && c.fails <= 1 + (|s'.heap.spans| - c.born)
  {
    RunInv(heap, s, n, run);
    assert CallerInv(heap, After(heap, s, run).heap, After(heap, s, run).callers[i]);
  }

  lemma FailedFreshExchange(heap: nat, s: State, a: Action)
    requires HeapOk(heap) && Inv(heap, s) && a.Try? && Can(s, a)
    requires var c := Do(heap, s, a).callers[a.i]; c.Trying?
    ensures var c, c' := s.callers[a.i], Do(heap, s, a).callers[a.i];
            c.at < c'.at && s.heap.hist[c.at] < s.heap.hist[c'.at] == Next(s.heap)
  {
    LayoutBounds(s.callers[a.i].layout);
  }

  // ---- addresses ----

  /** The address of an aligned offset is aligned if and only if the heap's is. */
  lemma AddressAligned(base: nat, start: nat, align: nat)
    requires align >= 1 && start % align == 0
    ensures (base + start) % align == 0 <==> base % align == 0
  {
    var q, p, r := start / align, base / align, base % align;
    assert base + start == (p + q) * align + r;
    RemainderUnique(base + start, align, p + q, r);
  }

  lemma PowAbove(k: nat)
    requires k > 4
    ensures Pow2(k) > 16
  {
    PowStrict(5, k);
    assert Pow2(4) == 16;
  }

  lemma PowDivides(x: nat, j: nat, k: nat)
    requires j <= k && x % Pow2(k) == 0
    ensures x % Pow2(j) == 0
  {
    PowAdd(k - j, j);
    var q, m := x / Pow2(k), Pow2(k - j);
    assert x == q * Pow2(k);
    Associative(q, m, Pow2(j));
    MultipleMod(q * m, Pow2(j));
  }

  /** `HeapStorage` is 16-aligned: addresses are aligned as asked, wherever such a heap lies, if and only if the
      alignment asked for is at most 16. */
  lemma AddressesAlignedUpTo16(s: Span, heap: nat)
    requires SpanOk(heap, s) && s.layout.align >= 1
    ensures (forall base: nat :: base % 16 == 0 ==> (base + s.start) % s.layout.align == 0) <==> s.layout.align <= 16
  {
    var align := s.layout.align;
    var k: nat :| k < 64 && align == Pow2(k);
    assert Pow2(4) == 16;
    if align <= 16 {
      if k > 4 {
        PowAbove(k);
      }
      forall base: nat | base % 16 == 0 ensures (base + s.start) % align == 0 {
        PowDivides(base, k, 4);
        AddressAligned(base, s.start, align);
      }
    } else {
      AddressAligned(16, s.start, align);
      assert 16 % 16 == 0 && (16 + s.start) % align != 0;
    }
  }

  // ---- one caller on its own ----

  /** The allocator as the code has it. `first` is what the first, relaxed load returns. */
  class Allocator {
    const heapSize: nat
    var next: nat

    ghost predicate Valid()
      reads this
    {
      HeapOk(heapSize) && next <= heapSize
    }

    constructor (heapSize: nat)
      requires HeapOk(heapSize)
      ensures Valid() && this.heapSize == heapSize && next == 0
    {
      this.heapSize := heapSize;
      next := 0;
    }

    method CompareExchange(cur: nat, end: nat) returns (ok: bool, observed: nat)
      modifies this
      ensures ok == (old(next) == cur) && observed == old(next)
      ensures next == if ok then end else old(next)
    {
      observed := next;
      ok := next == cur;
      if ok {
        next := end;
      }
    }

    /** Other callers move `next` on. */
    method Interfere(to: nat)
      requires next <= to
      modifies this
      ensures next == to
    {
      next := to;
    }

    /** `next` before this caller's k-th exchange, if other callers move it to moves[0], moves[1], ... */
    static function Moved(start: nat, moves: seq<nat>, k: nat): nat
      requires k <= |moves|
    {
      if k == 0 then start else moves[k - 1]
    }

    /** However old the first load, and however often other callers get in between: the request is placed behind
        `next` as it then is, if it fits there, and otherwise refused. `moves` are the values to which other callers
        have moved `next` before each of this caller's exchanges, as many of them as they like. */
    method Alloc(l: Layout, first: nat, moves: seq<nat>) returns (r: Option<nat>, ghost k: nat)
      requires Valid() && LayoutOk(l) && first <= next
      requires forall j :: 0 <= j < |moves| ==> Moved(next, moves, j) <= moves[j] <= heapSize
      modifies this
      ensures Valid() && 1 <= l.align <= WORD && k <= |moves|
      ensures r == Place(heapSize, Moved(old(next), moves, k), l)
      ensures next == if r.Some? then r.value + l.size else Moved(old(next), moves, k)
    {
      LayoutBounds(l);
      var cur: nat := first;
      var m := 0;
      k := 0;
      while true
        invariant Valid() && k == m <= |moves| && next == Moved(old(next), moves, m) && cur <= next
        decreases |moves| - m, next - cur
      {
        if m < |moves| {
          Interfere(moves[m]);
          m := m + 1;
          k := m;
        }
        PlaceRounds(heapSize, cur, l);
        PlaceMonotone(heapSize, cur, next, l);
        var aligned := BitAnd(cur + l.align - 1, BitNot(l.align - 1));
        if aligned + l.size >= WORD {
          return None, k;
        }
        var end := aligned + l.size;
        if end > heapSize {
          return None, k;
        }
        var ok, observed := CompareExchange(cur, end);
        if ok {
          return Some(aligned), k;
        }
        cur := observed;
      }
    }
  }

  /** Two turns of a caller nobody disturbs are enough, and come to what `Alloc` comes to. */
  lemma AllocRuns(heap: nat, h: Heap, c: Caller)
    requires HeapOk(heap) && HeapInv(heap, h) && c.Trying? && CallerInv(heap, h, c)
    ensures 1 <= c.layout.align <= WORD
    ensures var (h1, c1) := Turn(heap, h, c);
            var (h2, c2) := if c1.Trying? then Turn(heap, h1, c1) else (h1, c1);
            match Place(heap, Next(h), c.layout)
            case None => h2 == h && c2 == Null(c.layout)
            case Some(a) =>
              && c2 == Got(Span(a, c.layout)) && h2.spans == h.spans + [c2.span]
              && Next(h2) == a + c.layout.size
  {
    LayoutBounds(c.layout);
    PlaceMonotone(heap, h.hist[c.at], Next(h), c.layout);
    var (h1, c1) := Turn(heap, h, c);
    if c1.Trying? {
      assert h1 == h && c1.at == |h.hist| - 1;
    }
  }
}
