/**
 smtroot/smtroot.go: issuers and 32-byte revocation roots with their hex codec.
 */
module SmtRoot {
  import opened Wrappers
  import opened Numerals
  import opened GoText

  datatype IssuerID = G2 | G3

  const ALL_ISSUERS: seq<IssuerID> := [G2, G3]

  /** A 32-byte big-endian root. */
  type Root = r: seq<Byte> | |r| == ROOT_BYTES witness seq(ROOT_BYTES, _ => 0)

  datatype RootError = Empty | TooLong(digits: nat) | BadHex

  function ParseRoot(s: string): Result<Root, RootError> {
    var body := HexBody(s);
    if body == "" then Err(Empty)
    else if |body| > ROOT_DIGITS then Err(TooLong(|body|))
    else
      DecodeHexValue(ToLower(PadToRoot(body)));
      match DecodeHex(ToLower(PadToRoot(body)))
      case None => Err(BadHex)
      case Some(b) => Ok(b)
  }

  /** First to an even number of digits, then to 64. */
  function PadToRoot(body: string): (full: string)
    requires |body| <= ROOT_DIGITS
    ensures |full| == ROOT_DIGITS
  {
    var even := if |body| % 2 != 0 then "0" + body else body;
    if |even| < ROOT_DIGITS then Repeat('0', ROOT_DIGITS - |even|) + even else even
  }

  function Hex(r: Root): string {
    "0x" + EncodeHex(r)
  }

  function RootValue(r: Root): nat {
    Value(r, 256)
  }

  /** Exactly the non-empty hex bodies of at most 64 digits are accepted, each as its integer. */
  lemma ParseRootDecides(s: string)
    ensures ParseRoot(s).Ok? <==> IsNumeral(HexBody(s), 16) && |HexBody(s)| <= ROOT_DIGITS
    ensures ParseRoot(s).Ok? ==> RootValue(ParseRoot(s).value) == Denotes(HexBody(s), 16)
    ensures ParseRoot(s).Err? ==>
              ParseRoot(s).error == if HexBody(s) == "" then Empty else if |HexBody(s)| > ROOT_DIGITS then TooLong(|HexBody(s)|) else BadHex
  {
    var body := HexBody(s);
    if 0 < |body| <= ROOT_DIGITS {
      PadKeepsValue(body);
      DecodeHexValue(ToLower(PadToRoot(body)));
    }
  }

  lemma PadKeepsValue(body: string)
    requires |body| <= ROOT_DIGITS
    ensures var full := ToLower(PadToRoot(body));
            && (Digits(DigitsOf(full), 16) <==> Digits(DigitsOf(body), 16))
            && Denotes(full, 16) == Denotes(body, 16)
  {
    var pad, full := ROOT_DIGITS - |body|, PadToRoot(body);
    assert full == Repeat('0', pad) + body;
    var d := DigitsOf(full);
    assert d == Zeros(pad) + DigitsOf(body);
    assert forall i :: 0 <= i < |body| ==> d[pad + i] == DigitsOf(body)[i];
    ValueOfPadded(pad, DigitsOf(body), 16);
    assert DigitsOf(ToLower(full)) == d;
  }

  /** Two accepted strings give one root exactly when they denote one integer. */
  lemma RootEqualityIsIntegerEquality(s: string, t: string)
    requires ParseRoot(s).Ok? && ParseRoot(t).Ok?
    ensures ParseRoot(s) == ParseRoot(t) <==> Denotes(HexBody(s), 16) == Denotes(HexBody(t), 16)
  {
    ParseRootDecides(s);
    ParseRootDecides(t);
    FixedInjective(ParseRoot(s).value, ParseRoot(t).value, 256);
  }

  lemma HexRoundTrip(r: Root)
    ensures ParseRoot(Hex(r)) == Ok(r)
  {
    ValueBound(r, 256);
    FixedOfValue(r, 256);
    ParseFieldRoot(RootValue(r));
    ReverseReverse(r);
    assert Hex(r) == FieldToHex(RootValue(r));
  }

  /** A root printed by the prover's side is read back as its field element. */
  lemma ParseFieldRoot(v: nat)
    requires IsField(v)
    ensures ParseRoot(FieldToHex(v)) == Ok(Fixed(v, 256, ROOT_BYTES))
    ensures RootValue(Fixed(v, 256, ROOT_BYTES)) == v
  {
    var s := FieldToHex(v);
    FieldToHexText(v);
    PrintedDigits(v, ROOT_DIGITS) by { FieldDigits(); }
    DigitRoundTrip(Fixed(v, 16, ROOT_DIGITS));
    PrefixStripped(s[2..]);
    assert s == "0x" + s[2..];
    ParseRootDecides(s);
    FixedOfValue(ParseRoot(s).value, 256);
  }
}
