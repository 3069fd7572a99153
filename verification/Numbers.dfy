/** Numbers shared by the components: consecutive ids, and the bit operations the sources use on `usize`. */
module Numbers {

  datatype Option<T> = None | Some(value: T)

  /** The ids 1, 2, ..., n, in the order `next_id.fetch_add(1)` hands them out from its start value 1. */
  function Ids(n: nat): (ids: seq<nat>)
    ensures |ids| == n
    ensures forall k :: 0 <= k < n ==> ids[k] == k + 1
  {
    seq(n, k => k + 1)
  }

  function Bit(b: bool): nat {
    if b then 1 else 0
  }

  function Min(a: nat, b: nat): nat {
    if a <= b then a else b
  }

  const WORD: nat := 0x1_0000_0000_0000_0000

  function Pow2(k: nat): (p: nat)
    ensures p >= 1
  {
    if k == 0 then 1 else 2 * Pow2(k - 1)
  }

  /** The machine's `&`, bit by bit. */
  function BitAnd(x: nat, y: nat): nat {
    if x == 0 || y == 0 then 0 else (x % 2) * (y % 2) + 2 * BitAnd(x / 2, y / 2)
  }

  /** The machine's `!` (Rust) and `~` (C++) on a 64-bit word. */
  function BitNot(x: nat): nat
    requires x < WORD
  {
    WORD - 1 - x
  }

  /** Wrapping 64-bit subtraction. */
  function WrapSub(x: nat, y: nat): (r: nat)
    requires x < WORD && y < WORD
    ensures r < WORD
  {
    (x - y) % WORD
  }

  /** `(x + align - 1) & !(align - 1)` as the sources write it. */
  function MaskUp(x: nat, align: nat): nat
    requires 1 <= align <= WORD
  {
    BitAnd(x + align - 1, BitNot(align - 1))
  }

  /** The least multiple of `align` that is at least `x`. */
  ghost predicate IsRoundUp(x: nat, align: nat, r: nat)
    requires align >= 1
  {
    r % align == 0 && x <= r && r < x + align
  }

  lemma PowStrict(k: nat, w: nat)
    requires k <= w
    ensures Pow2(k) <= Pow2(w)
    ensures Pow2(w) % Pow2(k) == 0
  {
    PowAdd(w - k, k);
    MultiplesApart(Pow2(w - k), 0, Pow2(k));
    MultipleMod(Pow2(w - k), Pow2(k));
  }

  /** Multiples of b are at least b apart. */
  lemma MultiplesApart(p: int, q: int, b: nat)
    requires p > q
    ensures p * b >= q * b + b
  {
    var d := p - q - 1;
    assert p * b == q * b + b + d * b;
    assert d * b >= 0;
  }

  lemma Associative(a: nat, b: nat, c: nat)
    ensures a * (b * c) == (a * b) * c
  {
  }

  lemma OneLess(r: nat, b: nat)
    requires r >= 1
    ensures r * b == (r - 1) * b + b && (r - 1) * b >= 0
  {
  }

  function CeilDiv(a: nat, d: nat): nat
    requires d > 0
  {
    (a + d - 1) / d
  }

  function Max(a: nat, b: nat): nat {
    if a < b then b else a
  }

  lemma CeilDivCovers(a: nat, d: nat)
    requires d > 0
    ensures a <= CeilDiv(a, d) * d
  {
    var q := CeilDiv(a, d);
    assert a + d - 1 == q * d + (a + d - 1) % d;
  }

  /** It is the least number of d's that covers a. */
  lemma CeilDivLeast(a: nat, d: nat, q: nat)
    requires d > 0 && a <= q * d
    ensures CeilDiv(a, d) <= q
  {
    var c := CeilDiv(a, d);
    assert a + d - 1 == c * d + (a + d - 1) % d;
    if c > q {
      MultiplesApart(c, q, d);
    }
  }

  lemma RemainderUnique(x: nat, b: nat, q: nat, r: nat)
    requires b >= 1 && r < b && x == q * b + r
    ensures x / b == q && x % b == r
  {
    var q' := x / b;
    assert x == q' * b + x % b;
    if q' > q {
      MultiplesApart(q', q, b);
    } else if q' < q {
      MultiplesApart(q, q', b);
    }
  }

  lemma MultipleMod(q: nat, b: nat)
    requires b >= 1
    ensures (q * b) % b == 0
  {
    RemainderUnique(q * b, b, q, 0);
  }

  lemma {:induction false} PowAdd(j: nat, k: nat)
    ensures Pow2(j + k) == Pow2(j) * Pow2(k)
  {
    if j == 0 {
    } else {
      PowAdd(j - 1, k);
      assert Pow2(j + k) == 2 * Pow2(j - 1 + k);
      Associative(2, Pow2(j - 1), Pow2(k));
    }
  }

  lemma WordIsPow()
    ensures Pow2(64) == WORD
  {
    assert Pow2(4) == 16;
    PowAdd(4, 4);
    PowAdd(8, 8);
    PowAdd(16, 16);
    PowAdd(32, 32);
  }

  /** Masking with the bits k..w-1 clears exactly the low k bits. */
  lemma {:induction false} MaskClearsLowBits(x: nat, k: nat, w: nat)
    requires k <= w && x < Pow2(w)
    ensures Pow2(k) <= Pow2(w)
    ensures BitAnd(x, Pow2(w) - Pow2(k)) == x - x % Pow2(k)
    decreases w
  {
    PowStrict(k, w);
    if k == w {
      RemainderUnique(x, Pow2(k), 0, x);
    } else {
      PowStrict(k, w - 1);
      MaskClearsLowBits(x / 2, if k == 0 then 0 else k - 1, w - 1);
      MaskStep(x, k, w);
    }
  }

  lemma MaskStep(x: nat, k: nat, w: nat)
    requires k < w && x < Pow2(w)
    requires Pow2(k) <= Pow2(w - 1)
    requires var j := if k == 0 then 0 else k - 1;
             Pow2(j) <= Pow2(w - 1) && BitAnd(x / 2, Pow2(w - 1) - Pow2(j)) == x / 2 - (x / 2) % Pow2(j)
    ensures BitAnd(x, Pow2(w) - Pow2(k)) == x - x % Pow2(k)
  {
    var m := Pow2(w) - Pow2(k);
    if k == 0 {
      assert m % 2 == 1 && m / 2 == Pow2(w - 1) - 1;
      assert x % 1 == 0 && (x / 2) % 1 == 0;
    } else {
      assert m % 2 == 0 && m / 2 == Pow2(w - 1) - Pow2(k - 1);
      HalveMod(x, Pow2(k - 1));
    }
  }

  lemma HalveMod(x: nat, b: nat)
    requires b >= 1
    ensures x % (2 * b) == 2 * ((x / 2) % b) + x % 2
  {
    var h := x / 2;
    var q, r := h / b, h % b;
    assert h == q * b + r;
    assert x == q * (2 * b) + (2 * r + x % 2);
    RemainderUnique(x, 2 * b, q, 2 * r + x % 2);
  }

  lemma FloorRoundsUp(x: nat, a: nat)
    requires a >= 1
    ensures var y := x + a - 1; y - y % a >= 0 && IsRoundUp(x, a, y - y % a)
  {
    var y := x + a - 1;
    var q := y / a;
    assert y == q * a + y % a;
    MultipleMod(q, a);
  }

  /** For every power of two and every x, the mask form is rounding up, as long as the sum fits a word. */
  lemma MaskUpRounds(x: nat, k: nat)
    requires k < 64 && x + Pow2(k) - 1 < WORD
    ensures Pow2(k) <= WORD
    ensures IsRoundUp(x, Pow2(k), MaskUp(x, Pow2(k)))
  {
    WordIsPow();
    PowStrict(k, 64);
    var a := Pow2(k);
    FloorRoundsUp(x, a);
    MaskClearsLowBits(x + a - 1, k, 64);
    assert BitNot(a - 1) == Pow2(64) - Pow2(k);
  }

  /** Rounding up gives the least multiple there is. */
  lemma RoundUpLeast(x: nat, align: nat, r: nat, a: nat)
    requires align >= 1 && IsRoundUp(x, align, r) && x <= a && a % align == 0
    ensures r <= a
  {
    var p, q := r / align, a / align;
    assert r == p * align && a == q * align;
    if p > q {
      MultiplesApart(p, q, align);
    }
  }

  /** Rounding up has one result, and is monotone. */
  lemma RoundUpMonotone(x: nat, y: nat, align: nat, rx: nat, ry: nat)
    requires align >= 1 && x <= y && IsRoundUp(x, align, rx) && IsRoundUp(y, align, ry)
    ensures rx <= ry
    ensures x == y ==> rx == ry
  {
    RoundUpLeast(x, align, rx, ry);
    if x == y {
      RoundUpLeast(y, align, ry, rx);
    }
  }

  /** `v & 0xf` is the low hexadecimal digit. */
  lemma LowNibble(v: nat)
    ensures BitAnd(v, 15) == v % 16
  {
    var a, b, c := v / 2, v / 4, v / 8;
    assert BitAnd(c, 1) == c % 2;
    assert BitAnd(b, 3) == (b % 2) + 2 * BitAnd(b / 2, 1);
    assert b / 2 == c;
    assert BitAnd(a, 7) == (a % 2) + 2 * BitAnd(a / 2, 3);
    assert a / 2 == b;
    assert BitAnd(v, 15) == (v % 2) + 2 * BitAnd(a, 7);
  }
}
