/**
 verifier/public_inputs.go: the layout of the two circuits' public signals, the
 app-id packing and the decimal form of the challenge.
 */
module PublicInputs {
  import opened Wrappers
  import opened Numerals
  import opened GoText
  import Limbs

  const APP_ID_LEN: nat := 31

  type AppID = b: seq<Byte> | |b| == APP_ID_LEN witness seq(APP_ID_LEN, _ => 0)

  datatype CodecError = BadLength(got: nat) | BadNumeral | Negative | TooLong

  datatype CertChainType = RS2048 | RS4096

  datatype PublicSignals = PublicSignals(certChain: seq<string>, userSig: seq<string>)

  datatype ParsedInputs = ParsedInputs(
    pkCommit: string,
    nullifier: string,
    appID: AppID,
    appIDPacked: string,
    challenge: string,
    issuerRSAModulus: seq<string>,
    smtRoot: string)

  function LimbCount(t: CertChainType): nat {
    if t == RS4096 then Limbs.LIMBS_RS4096 else Limbs.LIMBS_RS2048
  }

  // ----------------------------------------------------------- app-id packing

  function PackedAppID(b: seq<Byte>): Result<string, CodecError> {
    if |b| != APP_ID_LEN then Err(BadLength(|b|)) else Ok(DecimalNat(LE(b, 256)))
  }

  method PackAppIDLE(b: seq<Byte>) returns (r: Result<string, CodecError>)
    ensures r == PackedAppID(b)
  {
    if |b| != APP_ID_LEN {
      return Err(BadLength(|b|));
    }
    var rev := new Byte[APP_ID_LEN];
    for i := 0 to APP_ID_LEN
      invariant forall j :: 0 <= j < i ==> rev[j] == b[APP_ID_LEN - 1 - j]
    {
      rev[i] := b[APP_ID_LEN - 1 - i];
    }
    assert rev[..] == Reverse(b);
    assert Value(rev[..], 256) == LE(b, 256) by { ReverseValue(b, 256); }
    return Ok(DecimalNat(Value(rev[..], 256)));
  }

  /** `big.Int.Bytes()`: big-endian, zero has no bytes. */
  function Bytes(n: nat): (b: seq<Byte>)
  {
    if n == 0 then [] else Minimal(n, 256)
  }

  /** The integer a packed app-id denotes: hex after 0x or 0X, decimal otherwise. */
  function ScanPacked(packed: string): Option<int> {
    var s := TrimSpace(packed);
    if "0x" <= s || "0X" <= s then SetString(s[2..], 16) else SetString(s, 10)
  }

  function UnpackedAppID(packed: string): Result<AppID, CodecError> {
    match ScanPacked(packed)
    case None => Err(BadNumeral)
    case Some(n) =>
      if n < 0 then Err(Negative)
      else if |Bytes(n)| > APP_ID_LEN then Err(TooLong)
      else
        var out: seq<Byte> := Reverse(Bytes(n)) + Zeros(APP_ID_LEN - |Bytes(n)|);
        Ok(out)
  }

  method UnpackAppID(packed: string) returns (r: Result<AppID, CodecError>)
    ensures r == UnpackedAppID(packed)
  {
    var s := TrimSpace(packed);
    var base := 10;
    if "0x" <= s || "0X" <= s {
      s := s[2..];
      base := 16;
    }
    var n := SetString(s, base);
    if n.None? {
      return Err(BadNumeral);
    }
    if n.value < 0 {
      return Err(Negative);
    }
    var raw := Bytes(n.value);
    if |raw| > APP_ID_LEN {
      return Err(TooLong);
    }
    var out := LittleEndian(raw);
    return Ok(out);
  }

  /** Byte i of the message is the i-th lowest of the integer; the rest stay zero. */
  method LittleEndian(raw: seq<Byte>) returns (bytes: AppID)
    requires |raw| <= APP_ID_LEN
    ensures bytes == Reverse(raw) + Zeros(APP_ID_LEN - |raw|)
  {
    var out := new Byte[APP_ID_LEN](_ => 0);
    for i := 0 to |raw|
      invariant forall j :: 0 <= j < i ==> out[j] == raw[|raw| - 1 - j]
      invariant forall j :: i <= j < APP_ID_LEN ==> out[j] == 0
    {
      out[i] := raw[|raw| - 1 - i];
    }
    return out[..];
  }

  lemma {:induction false} MinimalLength(n: nat, b: nat, len: nat)
    requires b >= 2 && n > 0
    ensures |Minimal(n, b)| <= len <==> n < Pow(b, len)
  {
    var d := Minimal(n, b);
    MinimalValue(n, b);
    ValueBound(d, b);
    LeadingWeight(d, b);
    if |d| <= len {
      PowMonotone(b, |d|, len);
    } else {
      PowMonotone(b, len, |d| - 1);
    }
  }

  lemma {:induction false} LeadingWeight(d: seq<nat>, b: nat)
    requires b >= 2 && |d| >= 1 && d[0] != 0
    ensures Value(d, b) >= Pow(b, |d| - 1)
    decreases |d|
  {
    var h := d[..|d| - 1];
    if |d| > 1 {
      LeadingWeight(h, b);
      MulLe(Pow(b, |d| - 2), Value(h, b), b);
    } else {
      assert Value(h, b) == 0;
    }
  }

  lemma {:induction false} TrailingZerosLE(d: seq<nat>, k: nat, b: nat)
    ensures LE(d + Zeros(k), b) == LE(d, b)
    decreases |d|, k
  {
    var p := d + Zeros(k);
    if |d| > 0 {
      assert p[1..] == d[1..] + Zeros(k);
      TrailingZerosLE(d[1..], k, b);
    } else if k > 0 {
      assert p[1..] == d + Zeros(k - 1);
      TrailingZerosLE(d, k - 1, b);
    }
  }

  /** Exactly the integers below 256^31 unpack, each to the 31 bytes whose packing it is. */
  lemma UnpackDecides(packed: string)
    ensures UnpackedAppID(packed).Ok? <==>
            ScanPacked(packed).Some? && 0 <= ScanPacked(packed).value < Pow(256, APP_ID_LEN)
    ensures UnpackedAppID(packed).Ok? ==>
              LE(UnpackedAppID(packed).value, 256) == ScanPacked(packed).value
    ensures UnpackedAppID(packed).Err? ==>
              UnpackedAppID(packed).error ==
              if ScanPacked(packed).None? then BadNumeral else if ScanPacked(packed).value < 0 then Negative else TooLong
  {
    if ScanPacked(packed).Some? && ScanPacked(packed).value >= 0 {
      var n: nat := ScanPacked(packed).value;
      PowPositive(256, APP_ID_LEN);
      if n > 0 {
        MinimalLength(n, 256, APP_ID_LEN);
        MinimalValue(n, 256);
      }
      if |Bytes(n)| <= APP_ID_LEN {
        TrailingZerosLE(Reverse(Bytes(n)), APP_ID_LEN - |Bytes(n)|, 256);
        ReverseValue(Reverse(Bytes(n)), 256);
        ReverseReverse(Bytes(n));
      }
    }
  }

  /** What a text unpacks to is decided by the integer it denotes. */
  lemma UnpackIs(packed: string, id: AppID)
    ensures UnpackedAppID(packed) == Ok(id) <==> ScanPacked(packed) == Some(LE(id, 256))
  {
    UnpackDecides(packed);
    LEUnique(id, 256);
    if UnpackedAppID(packed).Ok? {
      LEUnique(UnpackedAppID(packed).value, 256);
    }
  }

  /** Unpacking undoes packing for every 31 bytes, zeros at either end included. */
  lemma AppIDRoundTrip(b: seq<Byte>)
    requires |b| == APP_ID_LEN
    ensures PackedAppID(b).Ok? && UnpackedAppID(PackedAppID(b).value) == Ok(b)
  {
    DecimalRoundTrip(LE(b, 256));
    UnpackIs(DecimalNat(LE(b, 256)), b);
  }

  /** Packing undoes unpacking, up to the canonical decimal form. */
  lemma PackAfterUnpack(packed: string)
    requires UnpackedAppID(packed).Ok?
    ensures PackedAppID(UnpackedAppID(packed).value) == Ok(Decimal(ScanPacked(packed).value))
  {
    UnpackDecides(packed);
  }

  /** Hex and decimal numerals of one integer unpack alike. */
  lemma HexAndDecimalAgree(h: string, d: string)
    requires IsNumeral(h, 16) && IsNumeral(d, 10) && Denotes(h, 16) == Denotes(d, 10)
    ensures UnpackedAppID("0x" + h) == UnpackedAppID("0X" + h) == UnpackedAppID(d)
  {
    var dh, dd := DigitsOf(h), DigitsOf(d);
    assert dh[|h| - 1] < 16 && dd[|d| - 1] < 10 && dd[0] < 10;
    TrimNoop("0x" + h);
    TrimNoop("0X" + h);
    TrimNoop(d);
    assert ("0x" + h)[2..] == h && ("0X" + h)[2..] == h;
    assert |d| > 1 ==> dd[1] < 10;
    assert !("0x" <= d) && !("0X" <= d);
    SetStringUnsigned(h, 16);
    SetStringUnsigned(d, 10);
  }

  /** The app-id check on a printed field element compares integers. */
  lemma AppIDCheckDecides(v: nat, expected: AppID)
    requires IsField(v)
    ensures UnpackedAppID(FieldToHex(v)) == Ok(expected) <==> v == LE(expected, 256)
  {
    FieldToHexText(v);
    SetStringUnsigned(FieldToHex(v)[2..], 16);
    UnpackIs(FieldToHex(v), expected);
  }

  /** White space around is ignored; hex after either prefix and decimal otherwise, each with an optional sign. */
  lemma ScansAs(a: string, b: string, m: string)
    requires AllSpace(a) && AllSpace(b) && Trim(m)
    ensures m != "" ==> ScanPacked(a + ("0x" + m) + b) == ScanPacked(a + ("0X" + m) + b) == SetString(m, 16)
    ensures !("0x" <= m) && !("0X" <= m) ==> ScanPacked(a + m + b) == SetString(m, 10)
  {
    TrimmedTo(a, m, b);
    if m != "" {
      TrimmedTo(a, "0x" + m, b);
      TrimmedTo(a, "0X" + m, b);
      assert ("0x" + m)[2..] == m && ("0X" + m)[2..] == m;
    }
  }

  // ----------------------------------------------------------------- challenge

  function NormalizeDecimal(text: string): Result<string, CodecError> {
    var s := TrimSpace(text);
    if !("0x" <= s) && !("0X" <= s) then Ok(s)
    else match SetString(s[2..], 16)
      case None => Err(BadNumeral)
      case Some(n) => Ok(Decimal(n))
  }

  /** A printed field element normalises to the decimal the store keeps for that integer. */
  lemma ChallengeKey(v: nat)
    requires IsField(v)
    ensures NormalizeDecimal(FieldToHex(v)) == Ok(DecimalNat(v))
    ensures NormalizeDecimal(DecimalNat(v)) == Ok(DecimalNat(v))
  {
    FieldToHexText(v);
    SetStringUnsigned(FieldToHex(v)[2..], 16);
    DecimalRoundTrip(v);
  }

  lemma KeysDistinct(u: nat, v: nat)
    ensures DecimalNat(u) == DecimalNat(v) <==> u == v
  {
    DecimalRoundTrip(u);
    DecimalRoundTrip(v);
  }

  /** An unprefixed numeral is left alone, so it is the store's key only when canonical. */
  lemma UnprefixedIsKeptVerbatim(d: string)
    requires IsNumeral(d, 10)
    ensures NormalizeDecimal(d) == Ok(d)
    ensures d == DecimalNat(Denotes(d, 10)) <==> |d| == 1 || d[0] != '0'
  {
    var dd := DigitsOf(d);
    assert dd[0] < 10 && dd[|d| - 1] < 10 && (|d| > 1 ==> dd[1] < 10);
    TrimNoop(d);
    MinimalOfValue(dd, 10);
    LowerIsCanonical(d);
    assert ToLower(d) == d by {
      assert forall i :: 0 <= i < |d| ==> dd[i] == CharDigit(d[i]);
    }
    TextInjective(dd, Minimal(Denotes(d, 10), 10));
  }

  /** Prefixed text becomes the canonical decimal of its integer, any other only loses the white space around it. */
  lemma NormalizesTo(a: string, b: string, m: string)
    requires AllSpace(a) && AllSpace(b) && Trim(m)
    ensures m != "" && SetString(m, 16).Some? ==>
              NormalizeDecimal(a + ("0x" + m) + b) == NormalizeDecimal(a + ("0X" + m) + b) == Ok(Decimal(SetString(m, 16).value))
    ensures m != "" && SetString(m, 16).None? ==>
              NormalizeDecimal(a + ("0x" + m) + b).Err? && NormalizeDecimal(a + ("0X" + m) + b).Err?
    ensures !("0x" <= m) && !("0X" <= m) ==> NormalizeDecimal(a + m + b) == Ok(m)
  {
    TrimmedTo(a, m, b);
    if m != "" {
      TrimmedTo(a, "0x" + m, b);
      TrimmedTo(a, "0X" + m, b);
      assert ("0x" + m)[2..] == m && ("0X" + m)[2..] == m;
    }
  }

  // -------------------------------------------------------------------- layout

  function ParsePublicInputs(signals: Option<PublicSignals>, t: CertChainType): Result<ParsedInputs, CodecError> {
    match signals
    case None => Err(BadLength(0))
    case Some(s) =>
      var k := LimbCount(t);
      if |s.certChain| != k + 2 then Err(BadLength(|s.certChain|))
      else if |s.userSig| != 4 then Err(BadLength(|s.userSig|))
      else match UnpackedAppID(s.userSig[2])
        case Err(e) => Err(e)
        case Ok(id) =>
          Ok(ParsedInputs(s.certChain[0], s.userSig[1], id, s.userSig[2], s.userSig[3],
                          s.certChain[1..k + 1], s.certChain[k + 1]))
  }

  /** Signals parse exactly if they have the layout's lengths and a packed app-id below 256^31. */
  lemma ParsesIff(signals: Option<PublicSignals>, t: CertChainType)
    ensures ParsePublicInputs(signals, t).Ok? <==>
            && signals.Some? && |signals.value.certChain| == (if t == RS4096 then 36 else 19) && |signals.value.userSig| == 4
            && ScanPacked(signals.value.userSig[2]).Some? && 0 <= ScanPacked(signals.value.userSig[2]).value < Pow(256, APP_ID_LEN)
    ensures signals.Some? && |signals.value.certChain| != (if t == RS4096 then 36 else 19) ==>
              ParsePublicInputs(signals, t) == Err(BadLength(|signals.value.certChain|))
    ensures signals.Some? && |signals.value.certChain| == (if t == RS4096 then 36 else 19) && |signals.value.userSig| != 4 ==>
              ParsePublicInputs(signals, t) == Err(BadLength(|signals.value.userSig|))
  {
    hide Pow, ScanPacked, UnpackedAppID;
    if signals.Some? && |signals.value.userSig| == 4 {
      UnpackDecides(signals.value.userSig[2]);
    }
  }

  /** Parsing only regroups the cert-chain signals: none is lost, moved or shared. */
  lemma LayoutIsComplete(s: PublicSignals, t: CertChainType)
    requires ParsePublicInputs(Some(s), t).Ok?
    ensures var p := ParsePublicInputs(Some(s), t).value;
            && s.certChain == [p.pkCommit] + p.issuerRSAModulus + [p.smtRoot]
            && |p.issuerRSAModulus| == LimbCount(t)
            && s.userSig[1..] == [p.nullifier, p.appIDPacked, p.challenge]
            && UnpackedAppID(p.appIDPacked) == Ok(p.appID)
  {
  }
}
