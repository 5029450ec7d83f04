/**
 Positional numerals over the naturals: values, fixed-width and minimal digit
 sequences, and the facts that make each of them unique.  Sequences are
 big-endian unless the name says LE.
 */
module Numerals {

  type Byte = b: nat | b < 256

  function Pow(b: nat, e: nat): nat {
    if e == 0 then 1 else b * Pow(b, e - 1)
  }

  function Value(d: seq<nat>, b: nat): nat
    decreases |d|
  {
    if |d| == 0 then 0 else Value(d[..|d| - 1], b) * b + d[|d| - 1]
  }

  /** Little-endian value: element i weighs b^i. */
  function LE(d: seq<nat>, b: nat): nat
    decreases |d|
  {
    if |d| == 0 then 0 else d[0] + b * LE(d[1..], b)
  }

  predicate Digits(d: seq<nat>, b: nat) {
    forall i :: 0 <= i < |d| ==> d[i] < b
  }

  /** The low `len` base-b digits of n. */
  function Fixed(n: nat, b: nat, len: nat): (d: seq<nat>)
    requires b >= 2
    ensures |d| == len && Digits(d, b)
    decreases len, n, b
  {
    if len == 0 then [] else Fixed(n / b, b, len - 1) + [n % b]
  }

  /** The low `len` base-b digits of n, least significant first. */
  function LowDigits(n: nat, b: nat, len: nat): (d: seq<nat>)
    requires b >= 2
    ensures |d| == len && Digits(d, b)
    decreases len, n, b
  {
    if len == 0 then [] else [n % b] + LowDigits(n / b, b, len - 1)
  }

  /** All the base-b digits of n with no superfluous leading zero. */
  function Minimal(n: nat, b: nat): (d: seq<nat>)
    requires b >= 2
    ensures |d| >= 1 && Digits(d, b)
    ensures n > 0 ==> d[0] != 0
    ensures n == 0 ==> d == [0]
    decreases n, b
  {
    if n < b then [n]
    else
      DivSmaller(n, b);
      Minimal(n / b, b) + [n % b]
  }

  function Reverse(s: seq<nat>): (r: seq<nat>)
    ensures |r| == |s|
    ensures forall i :: 0 <= i < |s| ==> r[i] == s[|s| - 1 - i]
  {
    if |s| == 0 then [] else Reverse(s[1..]) + [s[0]]
  }

  /** Bitwise `and` of naturals, as `big.Int.And` computes it. */
  function And(x: nat, y: nat): nat
    decreases x, y
  {
    if x == 0 || y == 0 then 0
    else 2 * And(x / 2, y / 2) + (if x % 2 == 1 && y % 2 == 1 then 1 else 0)
  }

  function Zeros(k: nat): (z: seq<nat>)
    ensures |z| == k
  {
    seq(k, _ => 0)
  }

  // ---------------------------------------------------------------- arithmetic

  lemma DivSmaller(n: nat, b: nat)
    requires b >= 2 && n >= b
    ensures 0 < n / b < n
  {
    assert n == b * (n / b) + n % b;
    if n / b >= n {
      MulLe(2, b, n / b);
    }
  }

  lemma MulLe(a: nat, b: nat, c: nat)
    requires a <= b
    ensures a * c <= b * c
  {
  }

  lemma DivModUnique(n: int, m: int, q: int, r: int)
    requires m > 0 && n == q * m + r && 0 <= r < m
    ensures n / m == q && n % m == r
  {
    var q', r' := n / m, n % m;
    assert n == q' * m + r';
    assert (q - q') * m == r' - r;
    if q > q' {
      assert (q - q') * m >= m by { MulLe(1, q - q', m); }
    } else if q < q' {
      assert (q' - q) * m >= m by { MulLe(1, q' - q, m); }
    }
  }

  lemma PowPositive(b: nat, e: nat)
    requires b >= 1
    ensures Pow(b, e) >= 1
  {
    if e > 0 {
      PowPositive(b, e - 1);
      MulLe(1, b, Pow(b, e - 1));
    }
  }

  lemma PowAdd(b: nat, x: nat, y: nat)
    ensures Pow(b, x + y) == Pow(b, x) * Pow(b, y)
  {
    if x > 0 {
      PowAdd(b, x - 1, y);
      assert b * (Pow(b, x - 1) * Pow(b, y)) == (b * Pow(b, x - 1)) * Pow(b, y);
    }
  }

  lemma {:induction false} PowPow(b: nat, x: nat, y: nat, z: nat)
    requires z == x * y
    ensures Pow(Pow(b, x), y) == Pow(b, z)
    decreases y
  {
    if y > 0 {
      assert z - x == x * (y - 1) && z - x >= 0;
      PowPow(b, x, y - 1, z - x);
      PowAdd(b, x, z - x);
    } else {
      assert z == 0;
    }
  }

  lemma {:induction false} PowMonotone(b: nat, x: nat, y: nat)
    requires b >= 1 && x <= y
    ensures Pow(b, x) <= Pow(b, y)
    decreases y
  {
    if x < y {
      PowMonotone(b, x, y - 1);
      MulLe(1, b, Pow(b, y - 1));
    }
  }

  lemma Regroup(q: nat, p: nat, r: nat, b: nat)
    ensures (q * p + r) * b == q * (b * p) + r * b
  {
    assert (q * p + r) * b == q * p * b + r * b;
    assert q * p * b == q * (b * p);
  }

  lemma BelowProduct(b: nat, p: nat, r1: nat, r: nat)
    requires r1 < p && r < b
    ensures 0 <= r1 * b + r < b * p
  {
    MulLe(r1, p - 1, b);
    assert (p - 1) * b == b * p - b;
  }

  /** Removing the lowest digit commutes with reducing modulo a power. */
  lemma ModSplit(n: nat, b: nat, p: nat)
    requires b >= 1 && p >= 1
    ensures b * p >= 1
    ensures n % (b * p) == (n / b % p) * b + n % b
    ensures n / (b * p) == n / b / p
  {
    var q, r := n / b, n % b;
    DivModParts(n, b);
    var q1, r1 := q / p, q % p;
    DivModParts(q, p);
    BelowProduct(b, p, r1, r);
    Regroup(q1, p, r1, b);
    DivModUnique(n, b * p, q1, r1 * b + r);
  }

  lemma DivModParts(n: nat, m: nat)
    requires m >= 1
    ensures n == n / m * m + n % m && 0 <= n / m && 0 <= n % m < m
  {
  }

  /** Masking with 2^m - 1 keeps the remainder modulo 2^m. */
  lemma {:induction false} MaskIsMod(x: nat, m: nat)
    ensures Pow(2, m) >= 1 && And(x, Pow(2, m) - 1) == x % Pow(2, m)
    decreases m
  {
    PowPositive(2, m);
    if m > 0 {
      var p := Pow(2, m - 1);
      MaskIsMod(x / 2, m - 1);
      ModSplit(x, 2, p);
      assert (2 * p - 1) / 2 == p - 1 && (2 * p - 1) % 2 == 1;
      if x == 0 {
        assert x % (2 * p) == 0;
      } else {
        assert And(x, 2 * p - 1) == 2 * And(x / 2, p - 1) + x % 2;
      }
    } else {
      assert And(x, 0) == 0;
    }
  }

  // ------------------------------------------------------------ digit sequences

  lemma {:induction false} ValueBound(d: seq<nat>, b: nat)
    requires b >= 2 && Digits(d, b)
    ensures Value(d, b) < Pow(b, |d|)
    decreases |d|
  {
    if |d| > 0 {
      var h := d[..|d| - 1];
      ValueBound(h, b);
      MulLe(Value(h, b), Pow(b, |d| - 1) - 1, b);
      assert (Pow(b, |d| - 1) - 1) * b == b * Pow(b, |d| - 1) - b;
    }
  }

  lemma {:induction false} FixedValue(n: nat, b: nat, len: nat)
    requires b >= 2
    ensures Pow(b, len) >= 1
    ensures Value(Fixed(n, b, len), b) == n % Pow(b, len)
    decreases len
  {
    PowPositive(b, len);
    if len > 0 {
      var f := Fixed(n, b, len);
      assert f[..len - 1] == Fixed(n / b, b, len - 1);
      FixedValue(n / b, b, len - 1);
      ModSplit(n, b, Pow(b, len - 1));
    }
  }

  lemma {:induction false} FixedOfValue(d: seq<nat>, b: nat)
    requires b >= 2 && Digits(d, b)
    ensures Fixed(Value(d, b), b, |d|) == d
    decreases |d|
  {
    if |d| > 0 {
      var h := d[..|d| - 1];
      FixedOfValue(h, b);
      DivModUnique(Value(d, b), b, Value(h, b), d[|d| - 1]);
      assert d == h + [d[|d| - 1]];
    }
  }

  /** Numerals of one length are determined by their value. */
  lemma FixedInjective(d: seq<nat>, e: seq<nat>, b: nat)
    requires b >= 2 && Digits(d, b) && Digits(e, b) && |d| == |e|
    ensures Value(d, b) == Value(e, b) <==> d == e
  {
    FixedOfValue(d, b);
    FixedOfValue(e, b);
  }

  lemma {:induction false} MinimalValue(n: nat, b: nat)
    requires b >= 2
    ensures Value(Minimal(n, b), b) == n
    decreases n
  {
    var d := Minimal(n, b);
    if n < b {
      assert Value(d[..0], b) == 0;
    } else {
      DivSmaller(n, b);
      MinimalValue(n / b, b);
      DivModParts(n, b);
      assert d[..|d| - 1] == Minimal(n / b, b) && d[|d| - 1] == n % b;
    }
  }

  /** A numeral is the canonical one exactly when it has no superfluous leading zero. */
  lemma {:induction false} MinimalOfValue(d: seq<nat>, b: nat)
    requires b >= 2 && Digits(d, b) && |d| >= 1
    ensures Minimal(Value(d, b), b) == d <==> |d| == 1 || d[0] != 0
    decreases |d|
  {
    var h := d[..|d| - 1];
    var v := Value(d, b);
    if |d| == 1 {
      assert Value(h, b) == 0;
      assert v == d[0];
    } else {
      DivModUnique(v, b, Value(h, b), d[|d| - 1]);
      MinimalOfValue(h, b);
      assert d == h + [d[|d| - 1]];
      if d[0] != 0 {
        LeadingDigit(h, b);
        assert Value(h, b) >= 1;
        assert v >= b by { MulLe(1, Value(h, b), b); }
        assert h[0] == d[0];
        assert Minimal(v, b) == Minimal(v / b, b) + [v % b];
      } else if v > 0 {
        assert Minimal(v, b)[0] != 0;
      } else {
        assert Minimal(v, b) == [0];
      }
    }
  }

  lemma {:induction false} LeadingDigit(d: seq<nat>, b: nat)
    requires b >= 2 && |d| >= 1 && d[0] != 0
    ensures Value(d, b) >= 1
    decreases |d|
  {
    if |d| > 1 {
      LeadingDigit(d[..|d| - 1], b);
      MulLe(1, Value(d[..|d| - 1], b), b);
    } else {
      assert Value(d[..0], b) == 0;
    }
  }

  lemma ShiftUp(x: nat, p: nat, v: nat, b: nat, last: nat)
    ensures (x * p + v) * b + last == x * (p * b) + (v * b + last)
  {
  }

  lemma {:induction false} HighDigit(d: seq<nat>, b: nat)
    requires |d| >= 1
    ensures Value(d, b) == d[0] * Pow(b, |d| - 1) + Value(d[1..], b)
    decreases |d|
  {
    var h, last := d[..|d| - 1], d[|d| - 1];
    if |d| > 1 {
      HighDigit(h, b);
      assert d[1..][..|d| - 2] == h[1..];
      ShiftUp(d[0], Pow(b, |d| - 2), Value(h[1..], b), b, last);
      assert Pow(b, |d| - 1) == Pow(b, |d| - 2) * b;
    } else {
      assert Value(h, b) == 0 && Value(d[1..], b) == 0;
    }
  }

  lemma {:induction false} ValueOfPadded(k: nat, d: seq<nat>, b: nat)
    ensures Value(Zeros(k) + d, b) == Value(d, b)
    decreases |d|, k
  {
    var p := Zeros(k) + d;
    if |d| > 0 {
      assert p[..|p| - 1] == Zeros(k) + d[..|d| - 1];
      ValueOfPadded(k, d[..|d| - 1], b);
    } else if k > 0 {
      assert p[..|p| - 1] == Zeros(k - 1) + d;
      ValueOfPadded(k - 1, d, b);
    }
  }

  lemma {:induction false} ReverseValue(d: seq<nat>, b: nat)
    ensures Value(Reverse(d), b) == LE(d, b)
    decreases |d|
  {
    if |d| > 0 {
      ReverseValue(d[1..], b);
      var r := Reverse(d);
      assert r[..|r| - 1] == Reverse(d[1..]);
    }
  }

  lemma ReverseReverse(s: seq<nat>)
    ensures Reverse(Reverse(s)) == s
  {
  }

  lemma {:induction false} LowDigitsValue(n: nat, b: nat, len: nat)
    requires b >= 2
    ensures Pow(b, len) >= 1
    ensures LE(LowDigits(n, b, len), b) == n % Pow(b, len)
    decreases len
  {
    PowPositive(b, len);
    if len > 0 {
      LowDigitsValue(n / b, b, len - 1);
      ModSplit(n, b, Pow(b, len - 1));
      assert LowDigits(n, b, len)[1..] == LowDigits(n / b, b, len - 1);
    }
  }

  /** Little-endian digits are determined by length and value, with an explicit inverse. */
  lemma {:induction false} LEUnique(d: seq<nat>, b: nat)
    requires b >= 2 && Digits(d, b)
    ensures LE(d, b) < Pow(b, |d|)
    ensures Reverse(Fixed(LE(d, b), b, |d|)) == d
  {
    ReverseValue(d, b);
    var r := Reverse(d);
    ValueBound(r, b);
    FixedOfValue(r, b);
    ReverseReverse(d);
  }
}
