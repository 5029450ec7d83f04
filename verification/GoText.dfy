/**
 The text operations the checks are written in: trimming, prefixes and case of
 Go's `strings`, the big-integer scanner and printer of `math/big`, `encoding/hex`,
 and `field_to_hex` of the Rust library.  Text is ASCII, one char per byte.
 */
module GoText {
  import opened Wrappers
  import opened Numerals

  const ROOT_BYTES: nat := 32
  const ROOT_DIGITS: nat := 64

  predicate IsSpace(c: char) {
    c == ' ' || 9 <= c as int <= 13
  }

  function TrimLeft(s: string): (r: string)
    ensures r == s || (|s| > 0 && IsSpace(s[0]))
  {
    if |s| > 0 && IsSpace(s[0]) then TrimLeft(s[1..]) else s
  }

  function TrimRight(s: string): (r: string)
    ensures r == s || (|s| > 0 && IsSpace(s[|s| - 1]))
  {
    if |s| > 0 && IsSpace(s[|s| - 1]) then TrimRight(s[..|s| - 1]) else s
  }

  function TrimSpace(s: string): string {
    TrimRight(TrimLeft(s))
  }

  function TrimPrefix(s: string, p: string): string {
    if p <= s then s[|p|..] else s
  }

  /** What is left after trimming white space, then 0x, then 0X. */
  function HexBody(s: string): string {
    TrimPrefix(TrimPrefix(TrimSpace(s), "0x"), "0X")
  }

  function LowerChar(c: char): char {
    if 'A' <= c <= 'Z' then (c as int + 32) as char else c
  }

  function ToLower(s: string): (r: string)
    ensures |r| == |s|
  {
    seq(|s|, i requires 0 <= i < |s| => LowerChar(s[i]))
  }

  function Repeat(c: char, k: nat): (r: string)
    ensures |r| == k
  {
    seq(k, _ => c)
  }

  // -------------------------------------------------------------------- digits

  function DigitChar(n: nat): char
    requires n < 16
  {
    if n < 10 then ('0' as int + n) as char else ('a' as int + n - 10) as char
  }

  /** The value of a digit in either case; 16 for every other character. */
  function CharDigit(c: char): nat {
    if '0' <= c <= '9' then c as int - '0' as int
    else if 'a' <= c <= 'f' then c as int - 'a' as int + 10
    else if 'A' <= c <= 'F' then c as int - 'A' as int + 10
    else 16
  }

  function Text(d: seq<nat>): (s: string)
    requires Digits(d, 16)
    ensures |s| == |d|
  {
    seq(|d|, i requires 0 <= i < |d| => DigitChar(d[i]))
  }

  function DigitsOf(s: string): (d: seq<nat>)
    ensures |d| == |s|
  {
    seq(|s|, i requires 0 <= i < |s| => CharDigit(s[i]))
  }

  predicate IsNumeral(s: string, base: nat) {
    |s| > 0 && Digits(DigitsOf(s), base)
  }

  /** The integer an unsigned numeral denotes. */
  function Denotes(s: string, base: nat): nat {
    Value(DigitsOf(s), base)
  }

  /** `new(big.Int).SetString(s, base)` for base 10 or 16: optional sign, then digits to the end. */
  function SetString(s: string, base: nat): Option<int> {
    var body := if "-" <= s || "+" <= s then s[1..] else s;
    var magnitude: int := Denotes(body, base);
    if !IsNumeral(body, base) then None
    else Some(if "-" <= s then -magnitude else magnitude)
  }

  /** `big.Int.String()`. */
  function Decimal(n: int): string {
    if n < 0 then "-" + DecimalNat(-n) else DecimalNat(n)
  }

  function DecimalNat(n: nat): (s: string)
    ensures |s| >= 1
  {
    Text(Minimal(n, 10))
  }

  // ----------------------------------------------------------------------- hex

  /** `hex.EncodeToString`. */
  function EncodeHex(b: seq<Byte>): string
    decreases |b|
  {
    if |b| == 0 then ""
    else
      var x := b[|b| - 1];
      EncodeHex(b[..|b| - 1]) + [DigitChar(x / 16), DigitChar(x % 16)]
  }

  /** `hex.DecodeString`. */
  function DecodeHex(s: string): Option<seq<Byte>>
    decreases |s|
  {
    if |s| == 0 then Some([])
    else if |s| == 1 then None
    else
      var hi, lo := CharDigit(s[|s| - 2]), CharDigit(s[|s| - 1]);
      var front := DecodeHex(s[..|s| - 2]);
      if front.None? || hi >= 16 || lo >= 16 then None
      else Some(front.value + [hi * 16 + lo])
  }

  predicate IsField(v: nat) {
    v < Pow(256, ROOT_BYTES)
  }

  /** A field element: 32 little-endian bytes, reversed and printed two digits a byte. */
  function FieldToHex(v: nat): string {
    var repr: seq<nat> := Reverse(Fixed(v, 256, ROOT_BYTES));
    "0x" + EncodeHex(Reverse(repr))
  }

  // -------------------------------------------------------------------- lemmas

  lemma DigitRoundTrip(d: seq<nat>)
    requires Digits(d, 16)
    ensures DigitsOf(Text(d)) == d
    ensures forall i :: 0 <= i < |d| ==> !IsSpace(Text(d)[i]) && Text(d)[i] != '-' && Text(d)[i] != '+' && Text(d)[i] != 'x' && Text(d)[i] != 'X'
    ensures ToLower(Text(d)) == Text(d)
  {
  }

  lemma LowerIsCanonical(s: string)
    requires Digits(DigitsOf(s), 16)
    ensures ToLower(s) == Text(DigitsOf(s))
    ensures DigitsOf(ToLower(s)) == DigitsOf(s)
  {
  }

  lemma TextInjective(d: seq<nat>, e: seq<nat>)
    requires Digits(d, 16) && Digits(e, 16)
    ensures Text(d) == Text(e) <==> d == e
  {
    DigitRoundTrip(d);
    DigitRoundTrip(e);
  }

  lemma TrimNoop(s: string)
    requires |s| == 0 || (!IsSpace(s[0]) && !IsSpace(s[|s| - 1]))
    ensures TrimSpace(s) == s
  {
  }

  /** Scanning any unsigned numeral yields the integer it denotes. */
  lemma SetStringUnsigned(s: string, base: nat)
    requires IsNumeral(s, base) && base <= 16
    ensures SetString(s, base) == Some(Denotes(s, base))
  {
    assert DigitsOf(s)[0] == CharDigit(s[0]);
    assert CharDigit('-') == 16 && CharDigit('+') == 16;
  }

  /** A natural printed in decimal is a trimmed, unsigned, unprefixed numeral that scans back. */
  lemma DecimalRoundTrip(n: nat)
    ensures IsNumeral(DecimalNat(n), 10) && Denotes(DecimalNat(n), 10) == n
    ensures TrimSpace(DecimalNat(n)) == DecimalNat(n)
    ensures !("0x" <= DecimalNat(n)) && !("0X" <= DecimalNat(n))
    ensures SetString(DecimalNat(n), 10) == Some(n)
  {
    var s := DecimalNat(n);
    DigitRoundTrip(Minimal(n, 10));
    MinimalValue(n, 10);
    TrimNoop(s);
    SetStringUnsigned(s, 10);
    assert |s| > 1 ==> s[1] != 'x' && s[1] != 'X';
  }

  lemma {:induction false} EncodeHexText(b: seq<Byte>)
    ensures EncodeHex(b) == Text(Fixed(Value(b, 256), 16, 2 * |b|))
    decreases |b|
  {
    if |b| > 0 {
      var h, x := b[..|b| - 1], b[|b| - 1];
      EncodeHexText(h);
      var v := Value(h, 256);
      var n := Value(b, 256);
      assert n == v * 256 + x;
      assert n / 16 == v * 16 + x / 16 && n % 16 == x % 16;
      assert n / 16 / 16 == v && n / 16 % 16 == x / 16;
      var f := Fixed(v, 16, 2 * |h|);
      assert Fixed(n / 16, 16, 2 * |b| - 1) == f + [x / 16];
      assert Fixed(n, 16, 2 * |b|) == (f + [x / 16]) + [x % 16];
      assert Text(Fixed(n, 16, 2 * |b|)) == Text(f) + [DigitChar(x / 16), DigitChar(x % 16)];
    }
  }

  lemma {:induction false} DecodeHexValue(s: string)
    requires |s| % 2 == 0
    ensures DecodeHex(s).Some? <==> Digits(DigitsOf(s), 16)
    ensures DecodeHex(s).Some? ==>
              2 * |DecodeHex(s).value| == |s| && Value(DecodeHex(s).value, 256) == Denotes(s, 16)
    decreases |s|
  {
    if |s| > 0 {
      var f := s[..|s| - 2];
      DecodeHexValue(f);
      LastTwoDigits(s);
      if DecodeHex(s).Some? {
        assert DecodeHex(s).value[..|f| / 2] == DecodeHex(f).value;
      }
    }
  }

  lemma LastTwoDigits(s: string)
    requires |s| >= 2
    ensures var f, hi, lo := s[..|s| - 2], CharDigit(s[|s| - 2]), CharDigit(s[|s| - 1]);
            && (Digits(DigitsOf(s), 16) <==> Digits(DigitsOf(f), 16) && hi < 16 && lo < 16)
            && Denotes(s, 16) == Denotes(f, 16) * 256 + hi * 16 + lo
  {
    var d, g := DigitsOf(s), DigitsOf(s[..|s| - 2]);
    var hi, lo := CharDigit(s[|s| - 2]), CharDigit(s[|s| - 1]);
    var e := d[..|s| - 1];
    assert d == g + [hi, lo] && e == g + [hi];
    assert e[..|e| - 1] == g;
    assert Value(e, 16) == Value(g, 16) * 16 + hi;
    assert Value(d, 16) == Value(e, 16) * 16 + lo;
    assert d[|s| - 2] == hi && d[|s| - 1] == lo;
    assert forall i :: 0 <= i < |g| ==> d[i] == g[i];
  }

  lemma FieldDigits()
    ensures Pow(256, ROOT_BYTES) == Pow(16, ROOT_DIGITS)
  {
    PowPow(16, 2, ROOT_BYTES, ROOT_DIGITS);
  }

  lemma PrintedDigits(n: nat, len: nat)
    requires n < Pow(16, len) && len > 0
    ensures var t := Text(Fixed(n, 16, len));
            IsNumeral(t, 16) && Denotes(t, 16) == n && TrimSpace("0x" + t) == "0x" + t
  {
    FixedValue(n, 16, len);
    DivModUnique(n, Pow(16, len), 0, n);
    DigitRoundTrip(Fixed(n, 16, len));
    TrimNoop("0x" + Text(Fixed(n, 16, len)));
  }

  lemma ReprText(v: nat, bytes: nat)
    requires v < Pow(256, bytes)
    ensures EncodeHex(Reverse(Reverse(Fixed(v, 256, bytes)))) == Text(Fixed(v, 16, 2 * bytes))
  {
    var d := Fixed(v, 256, bytes);
    ReverseReverse(d);
    FixedValue(v, 256, bytes);
    DivModUnique(v, Pow(256, bytes), 0, v);
    EncodeHexText(d);
  }

  /** Every field element prints as 0x and exactly 64 lower-case digits of its value. */
  lemma FieldToHexText(v: nat)
    requires IsField(v)
    ensures FieldToHex(v) == "0x" + Text(Fixed(v, 16, ROOT_DIGITS))
    ensures IsNumeral(FieldToHex(v)[2..], 16) && Denotes(FieldToHex(v)[2..], 16) == v
    ensures TrimSpace(FieldToHex(v)) == FieldToHex(v)
  {
    ReprText(v, ROOT_BYTES);
    FieldDigits();
    PrintedDigits(v, ROOT_DIGITS);
    assert FieldToHex(v)[2..] == Text(Fixed(v, 16, ROOT_DIGITS));
  }

  /** Decoding undoes encoding. */
  lemma {:induction false} HexDecodes(b: seq<Byte>)
    ensures DecodeHex(EncodeHex(b)) == Some(b)
    decreases |b|
  {
    if b != [] {
      var n := |b| - 1;
      HexDecodes(b[..n]);
      var s := EncodeHex(b);
      assert s == EncodeHex(b[..n]) + [DigitChar(b[n] / 16), DigitChar(b[n] % 16)];
      assert s[..|s| - 2] == EncodeHex(b[..n]);
      assert b == b[..n] + [b[n]];
    }
  }

  /** Different field elements never print alike. */
  lemma FieldToHexInjective(u: nat, v: nat)
    requires IsField(u) && IsField(v)
    ensures FieldToHex(u) == FieldToHex(v) <==> u == v
  {
    FieldToHexText(u);
    FieldToHexText(v);
  }

  lemma PrefixStripped(b: string)
    requires |b| >= 2 && b[1] != 'X' && !IsSpace(b[|b| - 1])
    ensures HexBody("0x" + b) == b
  {
    var s := "0x" + b;
    TrimNoop(s);
    assert s[2..] == b && "0x" <= s;
    assert TrimPrefix(s, "0x") == b;
  }

  // ------------------------------------------------ what trimming and scanning do

  predicate AllSpace(s: string) {
    forall i :: 0 <= i < |s| ==> IsSpace(s[i])
  }

  /** Nothing to trim. */
  predicate Trim(s: string) {
    s == "" || (!IsSpace(s[0]) && !IsSpace(s[|s| - 1]))
  }

  lemma {:induction false} LeftTrimmed(a: string, m: string)
    requires AllSpace(a) && (m == "" || !IsSpace(m[0]))
    ensures TrimLeft(a + m) == m
    decreases |a|
  {
    if a == "" {
      assert a + m == m;
    } else {
      assert (a + m)[1..] == a[1..] + m;
      LeftTrimmed(a[1..], m);
    }
  }

  lemma {:induction false} RightTrimmed(m: string, b: string)
    requires AllSpace(b) && (m == "" || !IsSpace(m[|m| - 1]))
    ensures TrimRight(m + b) == m
    decreases |b|
  {
    if b == "" {
      assert m + b == m;
    } else {
      assert (m + b)[..|m + b| - 1] == m + b[..|b| - 1];
      RightTrimmed(m, b[..|b| - 1]);
    }
  }

  lemma {:induction false} AllSpaceLeft(s: string)
    requires AllSpace(s)
    ensures TrimLeft(s) == ""
    decreases |s|
  {
    if s != "" {
      AllSpaceLeft(s[1..]);
    }
  }

  /** Exactly the white space at either end goes. */
  lemma TrimmedTo(a: string, m: string, b: string)
    requires AllSpace(a) && AllSpace(b) && Trim(m)
    ensures TrimSpace(a + m + b) == m
  {
    if m == "" {
      assert a + m + b == a + b;
      AllSpaceLeft(a + b);
    } else {
      assert a + m + b == a + (m + b);
      LeftTrimmed(a, m + b);
      RightTrimmed(m, b);
    }
  }

  /** One 0x goes, then one 0X; either may be missing, and nothing else goes. */
  lemma BodyOf(a: string, b: string, m: string)
    requires AllSpace(a) && AllSpace(b) && Trim(m) && m != "" && !("0x" <= m) && !("0X" <= m)
    ensures HexBody(a + m + b) == HexBody(a + ("0x" + m) + b) == HexBody(a + ("0X" + m) + b) == HexBody(a + ("0x0X" + m) + b) == m
    ensures HexBody(a + ("0X0x" + m) + b) == "0x" + m
  {
    hide HexBody, AllSpace, Trim, TrimPrefix, IsSpace;
    PrefixesOf(m);
    BodyOfTrim(a, b, m);
    BodyOfTrim(a, b, "0x" + m);
    BodyOfTrim(a, b, "0X" + m);
    BodyOfTrim(a, b, "0x0X" + m);
    BodyOfTrim(a, b, "0X0x" + m);
  }

  lemma PrefixesOf(m: string)
    requires Trim(m) && m != "" && !("0x" <= m) && !("0X" <= m)
    ensures Trim("0x" + m) && Trim("0X" + m) && Trim("0x0X" + m) && Trim("0X0x" + m)
    ensures TrimPrefix(m, "0x") == TrimPrefix(m, "0X") == TrimPrefix("0x" + m, "0x") == TrimPrefix("0X" + m, "0X") == m
    ensures TrimPrefix("0X" + m, "0x") == TrimPrefix("0x0X" + m, "0x") == "0X" + m
    ensures TrimPrefix("0X0x" + m, "0x") == "0X0x" + m && TrimPrefix("0X0x" + m, "0X") == "0x" + m
  {
    assert ("0x" + m)[2..] == m && ("0X" + m)[2..] == m && ("0x0X" + m)[2..] == "0X" + m && ("0X0x" + m)[2..] == "0x" + m;
    assert ("0X" + m)[1] == 'X' && ("0X0x" + m)[1] == 'X';
  }

  lemma BodyOfTrim(a: string, b: string, m: string)
    requires AllSpace(a) && AllSpace(b) && Trim(m)
    ensures HexBody(a + m + b) == TrimPrefix(TrimPrefix(m, "0x"), "0X")
  {
    TrimmedTo(a, m, b);
  }

  const LOWER_DIGITS: string := "0123456789abcdef"
  const UPPER_DIGITS: string := "0123456789ABCDEF"

  /** The digits in either case, and nothing else, in their order. */
  lemma DigitTable(n: nat, c: char)
    requires n < 16
    ensures DigitChar(n) == LOWER_DIGITS[n] && CharDigit(LOWER_DIGITS[n]) == n == CharDigit(UPPER_DIGITS[n])
    ensures LowerChar(UPPER_DIGITS[n]) == LOWER_DIGITS[n] == LowerChar(LOWER_DIGITS[n])
    ensures CharDigit(c) < 16 <==> c in LOWER_DIGITS || c in UPPER_DIGITS
  {
    if CharDigit(c) < 16 {
      assert c == LOWER_DIGITS[CharDigit(c)] || c == UPPER_DIGITS[CharDigit(c)];
    }
  }

  /** Exactly the numerals scan, bare or behind one sign, each as the integer it denotes. */
  lemma ScanIff(s: string, base: nat, n: int)
    requires base <= 16
    ensures SetString(s, base) == Some(n) <==>
            || (IsNumeral(s, base) && n == Denotes(s, base))
            || (|s| > 0 && s[0] == '+' && IsNumeral(s[1..], base) && n == Denotes(s[1..], base))
            || (|s| > 0 && s[0] == '-' && IsNumeral(s[1..], base) && -n == Denotes(s[1..], base))
  {
    if IsNumeral(s, base) {
      assert DigitsOf(s)[0] == CharDigit(s[0]);
    }
    assert CharDigit('-') == 16 && CharDigit('+') == 16;
    assert |s| > 0 ==> ("-" <= s <==> s[0] == '-') && ("+" <= s <==> s[0] == '+');
  }

  /** Every integer printed in decimal scans back. */
  lemma DecimalScans(n: int)
    ensures SetString(Decimal(n), 10) == Some(n)
  {
    if n >= 0 {
      DecimalRoundTrip(n);
    } else {
      DecimalRoundTrip(-n);
      assert Decimal(n)[1..] == DecimalNat(-n);
      ScanIff(Decimal(n), 10, n);
    }
  }
}
