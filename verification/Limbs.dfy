/**
 issuercert/limbs.go: an RSA modulus as base-2^121 limbs printed in hex, and the
 textual comparison with the limbs a proof exposes.
 */
module Limbs {
  import opened Numerals
  import opened Wrappers
  import opened GoText
  import SmtRoot

  const LIMB_BITS: nat := 121
  const LIMBS_RS2048: nat := 17
  const LIMBS_RS4096: nat := 34

  function Radix(): (b: nat)
    ensures b >= 2 && b == Pow(2, LIMB_BITS)
  {
    PowMonotone(2, 1, LIMB_BITS);
    Pow(2, LIMB_BITS)
  }

  /** The k low base-2^121 digits of n, least significant first. */
  function LimbsOf(n: nat, k: nat): (l: seq<nat>)
    ensures |l| == k && Digits(l, Radix())
  {
    LowDigits(n, Radix(), k)
  }

  function Printed(f: seq<nat>): (s: seq<string>)
    ensures |s| == |f|
  {
    seq(|f|, i requires 0 <= i < |f| => FieldToHex(f[i]))
  }

  lemma PrintedSlice(f: seq<nat>, i: nat, j: nat)
    requires i <= j <= |f|
    ensures Printed(f)[i..j] == Printed(f[i..j])
  {
    hide FieldToHex;
    forall n | 0 <= n < j - i ensures Printed(f)[i..j][n] == Printed(f[i..j])[n] {
    }
  }

  /** Shift, mask, fill 32 bytes, print: what comes out is the printed digit sequence. */
  method ModulusToLimbs(n: nat, k: nat) returns (limbs: seq<string>)
    ensures limbs == Printed(LimbsOf(n, k))
  {
    hide Pow, And, Fixed, LowDigits, FieldToHex, EncodeHex, LimbsOf;
    PowPositive(2, LIMB_BITS);
    var mask := Pow(2, LIMB_BITS) - 1;
    var out := new string[k];
    var i := 0;
    while i < k
      invariant 0 <= i <= k
      invariant forall j :: 0 <= j < i ==> out[j] == FieldToHex(LimbsOf(n, k)[j])
    {
      var tmp := n / Pow2(i * LIMB_BITS);
      MaskedLimb(n, k, i);
      tmp := And(tmp, mask);
      var buf := FillBytes(tmp);
      out[i] := "0x" + EncodeHex(buf);
      i := i + 1;
    }
    limbs := out[..];
  }

  function Pow2(e: nat): (p: nat)
    ensures p == Pow(2, e) && p >= 1
  {
    PowPositive(2, e);
    Pow(2, e)
  }

  /** `FillBytes` on a 32-byte buffer panics unless the value fits; a limb always does. */
  function FillBytes(v: nat): (buf: seq<Byte>)
    requires v < Radix()
    ensures |buf| == ROOT_BYTES && IsField(v) && "0x" + EncodeHex(buf) == FieldToHex(v)
  {
    LimbIsField(v);
    var d := Fixed(v, 256, ROOT_BYTES);
    ReverseReverse(d);
    d
  }

  method LimbsEqual(a: seq<string>, b: seq<string>) returns (equal: bool)
    ensures equal <==> LimbsMatch(a, b)
  {
    hide NormHex;
    if |a| != |b| {
      return false;
    }
    for i := 0 to |a|
      invariant forall j :: 0 <= j < i ==> SameLimb(a[j], b[j])
    {
      if !SameLimb(a[i], b[i]) {
        return false;
      }
    }
    return true;
  }

  predicate SameLimb(x: string, y: string) {
    NormHex(x) == NormHex(y)
  }

  ghost predicate LimbsMatch(a: seq<string>, b: seq<string>) {
    |a| == |b| && forall i :: 0 <= i < |a| ==> SameLimb(a[i], b[i])
  }

  function NormHex(s: string): string {
    var b := ToLower(HexBody(s));
    if |b| < ROOT_DIGITS then Repeat('0', ROOT_DIGITS - |b|) + b else b
  }

  predicate HexLike(s: string) {
    Digits(DigitsOf(HexBody(s)), 16)
  }

  function PaddedLength(s: string): nat {
    if |HexBody(s)| < ROOT_DIGITS then ROOT_DIGITS else |HexBody(s)|
  }

  // -------------------------------------------------------------------- lemmas

  lemma LimbIsField(v: nat)
    requires v < Radix()
    ensures IsField(v)
  {
    PowPow(2, 8, ROOT_BYTES, 8 * ROOT_BYTES);
    assert Pow(2, 8) == 256;
    PowMonotone(2, LIMB_BITS, 8 * ROOT_BYTES);
  }

  /** Limb i is bits 121i to 121i+120 of n. */
  lemma {:induction false} LimbAt(n: nat, k: nat, i: nat)
    requires i < k
    ensures LimbsOf(n, k)[i] == n / Pow2(i * LIMB_BITS) % Radix()
    decreases i
  {
    if i == 0 {
      assert Pow2(0) == 1;
    } else {
      LimbAt(n / Radix(), k - 1, i - 1);
      var p := Pow2((i - 1) * LIMB_BITS);
      PowAdd(2, LIMB_BITS, (i - 1) * LIMB_BITS);
      ModSplit(n, Radix(), p);
    }
  }

  /** Before truncation nothing is lost: k limbs recompose to n modulo 2^(121k). */
  lemma LimbsRecompose(n: nat, k: nat)
    ensures Pow(Radix(), k) >= 1
    ensures LE(LimbsOf(n, k), Radix()) == n % Pow(Radix(), k)
  {
    LowDigitsValue(n, Radix(), k);
  }

  lemma MaskedLimb(n: nat, k: nat, i: nat)
    requires i < k
    ensures Pow(2, LIMB_BITS) >= 1
    ensures And(n / Pow2(i * LIMB_BITS), Pow(2, LIMB_BITS) - 1) == LimbsOf(n, k)[i] < Radix()
  {
    LimbAt(n, k, i);
    MaskIsMod(n / Pow2(i * LIMB_BITS), LIMB_BITS);
  }

  lemma PaddedText(body: string, len: nat)
    requires Digits(DigitsOf(body), 16) && |body| <= len
    ensures Denotes(body, 16) < Pow(16, len)
    ensures Repeat('0', len - |body|) + ToLower(body) == Text(Fixed(Denotes(body, 16), 16, len))
  {
    hide Pow, Value, Fixed, LowerChar;
    var d, pad := DigitsOf(body), len - |body|;
    LowerIsCanonical(body);
    var e := Zeros(pad) + d;
    ValueOfPadded(pad, d, 16);
    ValueBound(e, 16);
    FixedOfValue(e, 16);
    assert Repeat('0', pad) + ToLower(body) == Text(e);
  }

  lemma NormHexForm(s: string)
    requires HexLike(s)
    ensures Denotes(HexBody(s), 16) < Pow(16, PaddedLength(s))
    ensures NormHex(s) == Text(Fixed(Denotes(HexBody(s), 16), 16, PaddedLength(s)))
  {
    hide Pow, Fixed, Text, Denotes, HexBody, ToLower;
    PaddedText(HexBody(s), PaddedLength(s));
    assert Repeat('0', 0) + ToLower(HexBody(s)) == ToLower(HexBody(s));
  }

  /** Two hex strings normalise alike exactly when they denote one integer in one padded length. */
  lemma NormHexDecides(s: string, t: string)
    requires HexLike(s) && HexLike(t)
    ensures NormHex(s) == NormHex(t) <==>
            Denotes(HexBody(s), 16) == Denotes(HexBody(t), 16) && PaddedLength(s) == PaddedLength(t)
  {
    NormHexForm(s);
    NormHexForm(t);
    var u, v := Denotes(HexBody(s), 16), Denotes(HexBody(t), 16);
    FixedValue(u, 16, PaddedLength(s));
    FixedValue(v, 16, PaddedLength(t));
    DivModUnique(u, Pow(16, PaddedLength(s)), 0, u);
    DivModUnique(v, Pow(16, PaddedLength(t)), 0, v);
    TextInjective(Fixed(u, 16, PaddedLength(s)), Fixed(v, 16, PaddedLength(t)));
  }

  /** A 65th digit makes equal integers compare unequal: the condition on lengths is needed. */
  lemma NormHexLengthMatters()
    ensures var s, t := "0x" + Repeat('0', 65), "0x" + Repeat('0', 64);
            HexLike(s) && HexLike(t) && NormHex(s) != NormHex(t)
            && Denotes(HexBody(s), 16) == Denotes(HexBody(t), 16)
  {
    var s, t := "0x" + Repeat('0', 65), "0x" + Repeat('0', 64);
    TrimNoop(s);
    TrimNoop(t);
    PrefixStripped(Repeat('0', 65));
    PrefixStripped(Repeat('0', 64));
    assert HexBody(s) == Repeat('0', 65) && HexBody(t) == Repeat('0', 64);
    assert DigitsOf(HexBody(s)) == Zeros(65) + [] && DigitsOf(HexBody(t)) == Zeros(64) + [];
    ValueOfPadded(65, [], 16);
    ValueOfPadded(64, [], 16);
    NormHexDecides(s, t);
  }

  lemma PrintedNorm(v: nat)
    requires IsField(v)
    ensures HexLike(FieldToHex(v)) && HexBody(FieldToHex(v)) == FieldToHex(v)[2..]
    ensures Denotes(HexBody(FieldToHex(v)), 16) == v && PaddedLength(FieldToHex(v)) == ROOT_DIGITS
  {
    FieldToHexText(v);
    var s := FieldToHex(v);
    DigitRoundTrip(Fixed(v, 16, ROOT_DIGITS));
    assert s[2..] == Text(Fixed(v, 16, ROOT_DIGITS));
    PrefixStripped(s[2..]);
    assert s == "0x" + s[2..];
  }

  /**
   The textual comparison is an integer comparison.  A proof's elements match the
   trusted limbs exactly when each is a proper limb and together they recompose to
   the modulus modulo 2^(121k).
   */
  lemma LimbComparisonDecides(n: nat, k: nat, f: seq<nat>)
    requires |f| == k && forall i :: 0 <= i < k ==> IsField(f[i])
    ensures Pow(Radix(), k) >= 1
    ensures LimbsMatch(Printed(LimbsOf(n, k)), Printed(f)) <==>
            Digits(f, Radix()) && LE(f, Radix()) == n % Pow(Radix(), k)
  {
    var l := LimbsOf(n, k);
    LimbsRecompose(n, k);
    forall i | 0 <= i < k
      ensures SameLimb(Printed(l)[i], Printed(f)[i]) <==> l[i] == f[i]
    {
      LimbIsField(l[i]);
      PrintedNorm(l[i]);
      PrintedNorm(f[i]);
      NormHexDecides(FieldToHex(l[i]), FieldToHex(f[i]));
    }
    if Digits(f, Radix()) && LE(f, Radix()) == n % Pow(Radix(), k) {
      LEUnique(f, Radix());
      LEUnique(l, Radix());
      assert f == l;
    }
    if LimbsMatch(Printed(l), Printed(f)) {
      assert f == l;
    }
  }

  /** With enough limbs for its width the modulus itself is decided. */
  lemma WideEnough(n: nat, bits: nat, k: nat, f: seq<nat>)
    requires n < Pow(2, bits) && bits <= LIMB_BITS * k
    requires |f| == k && forall i :: 0 <= i < k ==> IsField(f[i])
    ensures LimbsMatch(Printed(LimbsOf(n, k)), Printed(f)) <==> Digits(f, Radix()) && LE(f, Radix()) == n
  {
    LimbComparisonDecides(n, k, f);
    PowPow(2, LIMB_BITS, k, LIMB_BITS * k);
    PowMonotone(2, bits, LIMB_BITS * k);
    DivModUnique(n, Pow(Radix(), k), 0, n);
  }

  /** With too few, some other number has the very same limbs. */
  lemma TooNarrow(n: nat, k: nat)
    requires n >= Pow(Radix(), k)
    ensures exists m: nat :: m < n && LimbsOf(m, k) == LimbsOf(n, k)
  {
    var p := Pow(Radix(), k);
    LimbsRecompose(n, k);
    var m := n % p;
    LimbsRecompose(m, k);
    DivModUnique(m, p, 0, m);
    LEUnique(LimbsOf(m, k), Radix());
    LEUnique(LimbsOf(n, k), Radix());
    assert m < n && LimbsOf(m, k) == LimbsOf(n, k);
  }

  /**
   A root the provider accepts is shown as 0x and its normalised hex: the two
   routines pad by different routes and agree.
   */
  lemma RootHexIsNormHex(s: string)
    requires SmtRoot.ParseRoot(s).Ok?
    ensures SmtRoot.Hex(SmtRoot.ParseRoot(s).value) == "0x" + NormHex(s)
  {
    var r := SmtRoot.ParseRoot(s).value;
    SmtRoot.ParseRootDecides(s);
    NormHexForm(s);
    EncodeHexText(r);
  }
}
