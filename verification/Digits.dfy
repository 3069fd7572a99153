/** The digit printers: what they send for a number is its numeral, the only one without leading zeros. */
module Digits {
  import opened Numbers

  function Pow(b: nat, k: nat): (p: nat)
    ensures b >= 1 ==> p >= 1
  {
    if k == 0 then 1 else b * Pow(b, k - 1)
  }

  // ---- numerals ----

  function DigitOf(c: char): nat {
    if '0' <= c <= '9' then (c - '0') as nat
    else if 'a' <= c <= 'f' then (c - 'a') as nat + 10
    else 16
  }

  function HexDigit(d: nat): (c: char)
    requires d < 16
    ensures DigitOf(c) == d
  {
    if d < 10 then '0' + d as char else 'a' + (d - 10) as char
  }

  /** The reader's side: what a string of digits is worth. */
  function Parse(s: string, base: nat): nat {
    if s == [] then 0 else Parse(s[..|s| - 1], base) * base + DigitOf(s[|s| - 1])
  }

  predicate AllDigits(s: string, base: nat) {
    forall i :: 0 <= i < |s| ==> DigitOf(s[i]) < base
  }

  /** s is v in the given base, without leading zeros. */
  ghost predicate IsNumeral(s: string, v: nat, base: nat) {
    s != [] && AllDigits(s, base) && Parse(s, base) == v && (s[0] == '0' ==> s == "0")
  }

  lemma DigitInjective(c: char, d: char)
    requires DigitOf(c) == DigitOf(d) < 16
    ensures c == d
  {
  }

  /** A numeral that starts with a digit other than zero is worth something. */
  lemma {:induction false} ParsePositive(s: string, base: nat)
    requires base >= 1 && s != [] && AllDigits(s, base) && s[0] != '0' && base <= 16
    ensures Parse(s, base) >= 1
  {
    var n := |s| - 1;
    if n == 0 {
      assert s[..n] == [];
    } else {
      ParsePositive(s[..n], base);
      MultiplesApart(Parse(s[..n], base), 0, base);
    }
  }

  /** A number has one numeral. */
  lemma {:induction false} NumeralUnique(s: string, t: string, v: nat, base: nat)
    requires 2 <= base <= 16 && IsNumeral(s, v, base) && IsNumeral(t, v, base)
    ensures s == t
    decreases |s|
  {
    var m, n := |s| - 1, |t| - 1;
    RemainderUnique(v, base, Parse(s[..m], base), DigitOf(s[m]));
    RemainderUnique(v, base, Parse(t[..n], base), DigitOf(t[n]));
    DigitInjective(s[m], t[n]);
    assert Parse(s[..m], base) == Parse(t[..n], base);
    if m == 0 {
      NothingBefore(t, base);
    } else if n == 0 {
      NothingBefore(s, base);
    } else {
      NumeralUnique(s[..m], t[..n], v / base, base);
    }
    assert s == s[..m] + [s[m]] && t == t[..n] + [t[n]];
  }

  /** Where nothing is worth anything before the last digit, there is nothing before it. */
  lemma NothingBefore(t: string, base: nat)
    requires 2 <= base <= 16 && t != [] && AllDigits(t, base) && (t[0] == '0' ==> t == "0")
    requires Parse(t[..|t| - 1], base) == 0
    ensures |t| == 1
  {
    var n := |t| - 1;
    if n > 0 {
      ParsePositive(t[..n], base);
    }
  }

  /** A digit in front counts with its place. */
  lemma {:induction false} ParseFront(c: char, s: string, base: nat)
    ensures Parse([c] + s, base) == DigitOf(c) * Pow(base, |s|) + Parse(s, base)
  {
    if s == [] {
      assert [c] + s == [c] && [c][..0] == [];
    } else {
      var n := |s| - 1;
      ParseFront(c, s[..n], base);
      assert ([c] + s)[..|s|] == [c] + s[..n];
      Distribute(DigitOf(c), Pow(base, n), Parse(s[..n], base), base);
    }
  }

  lemma Distribute(d: nat, p: nat, x: nat, base: nat)
    ensures (d * p + x) * base == d * (base * p) + x * base
  {
  }

  // ---- what a buffer holds while it is filled from the back ----

  /** The digits s stand for what has been taken off v0, of which v is left. */
  ghost predicate Filled(v0: nat, v: nat, s: string, base: nat) {
    && AllDigits(s, base)
    && v0 == v * Pow(base, |s|) + Parse(s, base)
    && (v == 0 && s != [] ==> s[0] != '0')
  }

  lemma FillNone(v: nat, s: string, base: nat)
    requires s == []
    ensures Filled(v, v, s, base)
  {
  }

  lemma FilledAll(v0: nat, s: string, base: nat)
    requires v0 > 0 && Filled(v0, 0, s, base)
    ensures IsNumeral(s, v0, base)
  {
  }

  lemma FillOne(v0: nat, v: nat, s: string, base: nat, c: char, q: nat)
    requires v > 0 && Filled(v0, v, s, base) && DigitOf(c) < base <= 16 && v == q * base + DigitOf(c)
    ensures Filled(v0, q, [c] + s, base)
  {
    ParseFront(c, s, base);
    Regroup(v, q, base, DigitOf(c), Pow(base, |s|), Parse(s, base));
    assert AllDigits([c] + s, base);
  }

  lemma Regroup(v: nat, q: nat, base: nat, r: nat, p: nat, x: nat)
    requires v == q * base + r
    ensures v * p + x == q * (base * p) + (r * p + x)
  {
  }

  /** Dividing takes one place off. */
  lemma PlacesLeft(v: nat, base: nat, k: nat)
    requires base >= 2 && v > 0 && v < Pow(base, k)
    ensures k > 0 && v / base < Pow(base, k - 1)
  {
    var q, p := v / base, Pow(base, k - 1);
    if q >= p {
      MultiplesLe(p, q, base);
    }
  }

  lemma MultiplesLe(p: nat, q: nat, b: nat)
    requires p <= q
    ensures b * p <= q * b
  {
    assert (q - p) * b + p * b == q * b;
  }

  lemma {:induction false} PowSquare(b: nat, j: nat, k: nat)
    ensures Pow(b, j + k) == Pow(b, j) * Pow(b, k)
  {
    if j == 0 {
    } else {
      PowSquare(b, j - 1, k);
      Associative(b, Pow(b, j - 1), Pow(b, k));
    }
  }

  /** Sixteen hexadecimal and twenty decimal digits are enough for every 64-bit value. */
  lemma EnoughPlaces()
    ensures Pow(16, 16) == WORD && Pow(10, 20) >= WORD
  {
    assert Pow(16, 2) == 256 && Pow(10, 2) == 100;
    PowSquare(16, 2, 2);
    PowSquare(16, 4, 4);
    PowSquare(16, 8, 8);
    PowSquare(10, 2, 2);
    PowSquare(10, 4, 4);
    PowSquare(10, 8, 8);
    PowSquare(10, 16, 4);
  }

  // ---- the printers ----

  function Crlf(s: string): string {
    if s == [] then []
    else Crlf(s[..|s| - 1]) + (if s[|s| - 1] == '\n' then ['\r', '\n'] else [s[|s| - 1]])
  }

  /** Every newline follows a carriage return. */
  predicate NewlinesReturn(t: string) {
    forall i :: 0 <= i < |t| && t[i] == '\n' ==> i > 0 && t[i - 1] == '\r'
  }

  /** t without the carriage return before each newline. */
  function WithoutReturns(t: string): string {
    if t == [] then []
    else
      var n := |t| - 1;
      if t[n] == '\n' && n > 0 && t[n - 1] == '\r' then WithoutReturns(t[..n - 1]) + ['\n']
      else WithoutReturns(t[..n]) + [t[n]]
  }

  /** Nothing is added but a carriage return before each newline. */
  lemma {:induction false} CrlfAdds(s: string)
    ensures NewlinesReturn(Crlf(s)) && WithoutReturns(Crlf(s)) == s
  {
    if s == [] {
    } else {
      var n := |s| - 1;
      var front := Crlf(s[..n]);
      CrlfAdds(s[..n]);
      assert s == s[..n] + [s[n]];
      if s[n] == '\n' {
        assert Crlf(s) == front + ['\r', '\n'];
        assert (front + ['\r', '\n'])[..|front|] == front;
      } else {
        assert Crlf(s) == front + [s[n]];
        assert (front + [s[n]])[..|front|] == front;
      }
    }
  }

  class Uart {
    var sent: string

    method Byte(b: char)
      modifies this
      ensures sent == old(sent) + [b]
    {
      sent := sent + [b];
    }

    method Print(s: string) returns (ghost added: string)
      modifies this
      ensures sent == old(sent) + added && added == Crlf(s)
      ensures NewlinesReturn(added) && WithoutReturns(added) == s
    {
      added := Crlf(s);
      CrlfAdds(s);
      for k := 0 to |s|
        invariant sent == old(sent) + Crlf(s[..k])
      {
        assert s[..k + 1][..k] == s[..k];
        if s[k] == '\n' {
          Byte('\r');
        }
        Byte(s[k]);
      }
      assert s[..|s|] == s;
    }

    method Bytes(buf: array<char>, from: nat)
      requires from <= buf.Length
      modifies this
      ensures sent == old(sent) + buf[from..]
    {
      for k := from to buf.Length
        invariant sent == old(sent) + buf[from..k]
      {
        Byte(buf[k]);
      }
    }

    /** `uart_hex`: "0x" and the numeral. */
    method Hex(value: nat) returns (ghost numeral: string)
      requires value < WORD
      modifies this
      ensures sent == old(sent) + "0x" + numeral
      ensures IsNumeral(numeral, value, 16) && |numeral| <= 16
    {
      ghost var _ := Print("0x");
      PrefixPlain();
      if value == 0 {
        Byte('0');
        ZeroNumeral();
        return "0";
      }
      var buf := new char[16];
      var i := FillHex(buf, value);
      Bytes(buf, i);
      numeral := buf[i..];
    }

    /** `uart_usize`: the numeral. */
    method Usize(value: nat) returns (ghost numeral: string)
      requires value < WORD
      modifies this
      ensures sent == old(sent) + numeral
      ensures IsNumeral(numeral, value, 10) && |numeral| <= 20
    {
      if value == 0 {
        Byte('0');
        ZeroNumeral();
        return "0";
      }
      var buf := new char[20];
      var i := FillDecimal(buf, value);
      Bytes(buf, i);
      numeral := buf[i..];
    }
  }

  lemma PrefixPlain()
    ensures Crlf("0x") == "0x"
  {
    assert Crlf("0") == "0" && "0x"[..1] == "0";
  }

  lemma ZeroNumeral()
    ensures IsNumeral("0", 0, 16) && IsNumeral("0", 0, 10)
  {
    assert "0"[..0] == [];
  }

  /** The loop of `uart_hex`: the buffer's last part is filled from the back, and never before its start. */
  method FillHex(buf: array<char>, value: nat) returns (i: nat)
    requires buf.Length == 16 && 0 < value < WORD
    modifies buf
    ensures i < 16 && IsNumeral(buf[i..], value, 16)
  {
    var v: nat := value;
    i := 16;
    FillNone(value, buf[i..], 16);
    EnoughPlaces();
    while v > 0
      invariant i <= 16 && v < Pow(16, i)
      invariant Filled(value, v, buf[i..], 16)
    {
      PlacesLeft(v, 16, i);
      LowNibble(v);
      var d := BitAnd(v, 0xf);
      FillOne(value, v, buf[i..], 16, HexDigit(d), v / 16);
      ghost var done := buf[i..];
      i := i - 1;
      buf[i] := HexDigit(d);
      assert buf[i..] == [buf[i]] + done;
      v := v / 16;
    }
    FilledAll(value, buf[i..], 16);
  }

  /** The loop of `uart_usize`. */
  method FillDecimal(buf: array<char>, value: nat) returns (i: nat)
    requires buf.Length == 20 && 0 < value < WORD
    modifies buf
    ensures i < 20 && IsNumeral(buf[i..], value, 10)
  {
    var v: nat := value;
    i := 20;
    FillNone(value, buf[i..], 10);
    EnoughPlaces();
    while v > 0
      invariant i <= 20 && v < Pow(10, i)
      invariant Filled(value, v, buf[i..], 10)
    {
      PlacesLeft(v, 10, i);
      FillOne(value, v, buf[i..], 10, '0' + (v % 10) as char, v / 10);
      ghost var done := buf[i..];
      i := i - 1;
      buf[i] := '0' + (v % 10) as char;
      assert buf[i..] == [buf[i]] + done;
      v := v / 10;
    }
    FilledAll(value, buf[i..], 10);
  }
}
