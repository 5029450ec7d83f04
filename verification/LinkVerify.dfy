/**
 linkverify/verifier.go and service.go: the trust checks on a proof's public
 signals and the request flow that ends in a redemption.
 */
module LinkVerify {
  import opened Wrappers
  import opened Clock
  import opened Numerals
  import opened GoText
  import opened PublicInputs
  import opened SmtRoot
  import Limbs
  import SmtProvider
  import IssuerCert
  import opened Store

  const RS4096_NAME := "rs4096"

  const PROOF_INVALID := "proof_invalid"
  const SMT_ROOT_MISMATCH := "smt_root_mismatch"
  const ISSUER_MODULUS_MISMATCH := "issuer_modulus_mismatch"
  const APP_ID_MISMATCH := "app_id_mismatch"

  function StoreKey(proofType: string): string {
    if proofType == RS4096_NAME then "link_rs4096" else "link_rs2048"
  }

  function IssuerForProofType(proofType: string): IssuerID {
    if proofType == RS4096_NAME then G3 else G2
  }

  function ChainType(proofType: string): CertChainType {
    if proofType == RS4096_NAME then RS4096 else RS2048
  }

  /** The field elements a verified pair of proofs exposes, and their printed form. */
  datatype FieldSignals = FieldSignals(certChain: seq<nat>, userSig: seq<nat>)

  predicate AreFields(f: FieldSignals) {
    && (forall i :: 0 <= i < |f.certChain| ==> IsField(f.certChain[i]))
    && (forall i :: 0 <= i < |f.userSig| ==> IsField(f.userSig[i]))
  }

  /** The FFI links two proofs of nonempty public values by their first one, the key commitment. */
  predicate Links(f: FieldSignals, linked: bool) {
    f.certChain != [] && f.userSig != [] && (linked <==> f.certChain[0] == f.userSig[0])
  }

  function Publish(f: FieldSignals): PublicSignals {
    PublicSignals(Limbs.Printed(f.certChain), Limbs.Printed(f.userSig))
  }

  /** What the FFI call came back with: an error, or whether the commitments link, with the signals. */
  datatype FfiReply = FfiError | FfiVerdict(linked: bool, signals: Option<PublicSignals>)

  datatype VerifyError =
    | FfiFailed | BadSignals(CodecError) | BadRoot | RootUnavailable | CertUnavailable | LimbCountMismatch

  // -------------------------------------------------------------------- checks

  function CheckSmtRoot(parsed: ParsedInputs, trusted: Option<Root>): Result<bool, VerifyError> {
    match ParseRoot(parsed.smtRoot)
    case Err(_) => Err(BadRoot)
    case Ok(observed) =>
      match trusted
      case None => Err(RootUnavailable)
      case Some(root) => Ok(observed == root)
  }

  ghost function CheckIssuerModulus(parsed: ParsedInputs, trusted: Option<IssuerCert.CertRecord>): Result<bool, VerifyError> {
    match trusted
    case None => Err(CertUnavailable)
    case Some(rec) =>
      if |parsed.issuerRSAModulus| != |rec.limbs| then Err(LimbCountMismatch)
      else Ok(Limbs.LimbsMatch(rec.limbs, parsed.issuerRSAModulus))
  }

  datatype ChallengeOutcome = ChallengeOutcome(matches: bool, expected: string, observed: string)

  function CheckedChallenge(parsed: ParsedInputs, expected: string): ChallengeOutcome {
    var n := NormalizeDecimal(parsed.challenge);
    var observed := if n.Ok? then n.value else parsed.challenge;
    ChallengeOutcome(observed == expected, expected, observed)
  }

  /** The checks in order; a later one cannot replace an earlier reason. */
  function FirstReason(smtMissed: bool, modulusMissed: bool, appMissed: bool): string {
    if smtMissed then SMT_ROOT_MISMATCH
    else if modulusMissed then ISSUER_MODULUS_MISMATCH
    else if appMissed then APP_ID_MISMATCH
    else ""
  }

  /** Each reason names its own check, and only the first that missed. */
  lemma ReasonTells(smt: bool, modulus: bool, app: bool)
    ensures FirstReason(smt, modulus, app) == "smt_root_mismatch" <==> smt
    ensures FirstReason(smt, modulus, app) == "issuer_modulus_mismatch" <==> !smt && modulus
    ensures FirstReason(smt, modulus, app) == "app_id_mismatch" <==> !smt && !modulus && app
    ensures FirstReason(smt, modulus, app) == "" <==> !smt && !modulus && !app
    ensures FirstReason(smt, modulus, app) != "proof_invalid" == PROOF_INVALID
  {
  }

  /** Integer meaning of the parsed signals of printed field elements. */
  lemma SignalsMeaning(f: FieldSignals, proofType: string)
    requires AreFields(f) && ParsePublicInputs(Some(Publish(f)), ChainType(proofType)).Ok?
    ensures var k := LimbCount(ChainType(proofType));
            var p := ParsePublicInputs(Some(Publish(f)), ChainType(proofType)).value;
            && |f.certChain| == k + 2 && |f.userSig| == 4
            && p.smtRoot == FieldToHex(f.certChain[k + 1])
            && p.issuerRSAModulus == Limbs.Printed(f.certChain[1..k + 1])
            && p.appIDPacked == FieldToHex(f.userSig[2])
            && p.nullifier == FieldToHex(f.userSig[1])
            && p.challenge == FieldToHex(f.userSig[3])
            && UnpackedAppID(FieldToHex(f.userSig[2])) == Ok(p.appID)
  {
    hide FieldToHex, UnpackedAppID, IsField;
    var k := LimbCount(ChainType(proofType));
    LayoutIsComplete(Publish(f), ChainType(proofType));
    Limbs.PrintedSlice(f.certChain, 1, k + 1);
  }

  /** The root check compares the signal's integer with the cached root's. */
  lemma RootCheckDecides(f: FieldSignals, proofType: string, root: Root)
    requires AreFields(f) && ParsePublicInputs(Some(Publish(f)), ChainType(proofType)).Ok?
    ensures var p := ParsePublicInputs(Some(Publish(f)), ChainType(proofType)).value;
            CheckSmtRoot(p, Some(root)) ==
            Ok(f.certChain[LimbCount(ChainType(proofType)) + 1] == RootValue(root))
  {
    SignalsMeaning(f, proofType);
    var v := f.certChain[LimbCount(ChainType(proofType)) + 1];
    ParseFieldRoot(v);
    FixedInjective(Fixed(v, 256, ROOT_BYTES), root, 256);
  }

  /** The modulus check decides whether the limbs are proper and recompose to the trusted modulus; counts always agree. */
  lemma ModulusCheckDecides(w: IssuerCert.World, f: FieldSignals, proofType: string, rec: IssuerCert.CertRecord)
    requires AreFields(f) && ParsePublicInputs(Some(Publish(f)), ChainType(proofType)).Ok?
    requires IssuerCert.Genuine(w, IssuerForProofType(proofType), rec)
    ensures var p := ParsePublicInputs(Some(Publish(f)), ChainType(proofType)).value;
            var limbs := f.certChain[1..LimbCount(ChainType(proofType)) + 1];
            CheckIssuerModulus(p, Some(rec)) ==
            Ok(Digits(limbs, Limbs.Radix()) && LE(limbs, Limbs.Radix()) == rec.modulus)
  {
    SignalsMeaning(f, proofType);
    var limbs := f.certChain[1..LimbCount(ChainType(proofType)) + 1];
    var id := IssuerForProofType(proofType);
    var der :| IssuerCert.Accept(w, id, der, rec.source, rec.fetchedAt) == Ok(rec);
    IssuerCert.AcceptMeaning(w, id, der, rec.source, rec.fetchedAt);
    assert forall i :: 0 <= i < |limbs| ==> IsField(limbs[i]);
    IssuerCert.AcceptedModulusDecides(w, id, der, rec.source, rec.fetchedAt, limbs);
  }

  /** The app-id check compares the signal's integer with the packing of the configured 31 bytes. */
  lemma AppCheckDecides(f: FieldSignals, proofType: string, expected: AppID)
    requires AreFields(f) && ParsePublicInputs(Some(Publish(f)), ChainType(proofType)).Ok?
    ensures ParsePublicInputs(Some(Publish(f)), ChainType(proofType)).value.appID == expected <==>
            f.userSig[2] == LE(expected, 256)
  {
    SignalsMeaning(f, proofType);
    AppIDCheckDecides(f.userSig[2], expected);
  }

  /** The key looked up is the decimal of the challenge signal, and the later comparison with it cannot fail. */
  lemma ChallengeCheckMatches(f: FieldSignals, proofType: string)
    requires AreFields(f) && ParsePublicInputs(Some(Publish(f)), ChainType(proofType)).Ok?
    ensures var p := ParsePublicInputs(Some(Publish(f)), ChainType(proofType)).value;
            NormalizeDecimal(p.challenge) == Ok(DecimalNat(f.userSig[3]))
            && CheckedChallenge(p, DecimalNat(f.userSig[3])).matches
            && forall expected :: CheckedChallenge(p, expected) ==
                 ChallengeOutcome(expected == DecimalNat(f.userSig[3]), expected, DecimalNat(f.userSig[3]))
  {
    SignalsMeaning(f, proofType);
    ChallengeKey(f.userSig[3]);
  }

  // ------------------------------------------------------------------ verifier

  /** What a check compared, and where the trusted side came from. */
  datatype SmtRootOutcome = SmtRootOutcome(
    issuer: IssuerID, matches: bool, expected: string, observed: string, trustSource: string, trustedAt: Option<int>)

  datatype IssuerModulusOutcome = IssuerModulusOutcome(
    issuer: IssuerID, matches: bool, expectedSHA256: string, trustSource: string, trustedAt: int)

  datatype AppIDOutcome = AppIDOutcome(matches: bool, expected: AppID, observed: AppID)

  /** The value of a result object. */
  datatype Outcome = Outcome(
    verified: bool, reason: string, signals: Option<PublicSignals>, parsed: Option<ParsedInputs>,
    smtRoot: Option<SmtRootOutcome>, issuerModulus: Option<IssuerModulusOutcome>, appID: Option<AppIDOutcome>,
    challenge: Option<ChallengeOutcome>)

  class ResultBox {
    var verified: bool
    var reason: string
    const signals: Option<PublicSignals>
    const parsed: Option<ParsedInputs>
    var smtRoot: Option<SmtRootOutcome>
    var issuerModulus: Option<IssuerModulusOutcome>
    var appID: Option<AppIDOutcome>
    var challenge: Option<ChallengeOutcome>

    constructor (verified: bool, reason: string, signals: Option<PublicSignals>, parsed: Option<ParsedInputs>)
      ensures View() == Outcome(verified, reason, signals, parsed, None, None, None, None)
    {
      this.verified, this.reason, this.signals, this.parsed := verified, reason, signals, parsed;
      smtRoot, issuerModulus, appID, challenge := None, None, None, None;
    }

    function View(): Outcome
      reads this
    {
      Outcome(verified, reason, signals, parsed, smtRoot, issuerModulus, appID, challenge)
    }
  }

  /** The verdict on one request, given what each enabled check reads (None where a check is off). */
  ghost function Verdict(proofType: string, reply: FfiReply, smt: Option<SmtProvider.Cache>,
                         certs: Option<IssuerCert.Cache>, expected: Option<AppID>): Result<Outcome, VerifyError> {
    match reply
    case FfiError => Err(FfiFailed)
    case FfiVerdict(linked, signals) =>
      if !linked then Ok(Outcome(false, PROOF_INVALID, signals, None, None, None, None, None))
      else match ParsePublicInputs(signals, ChainType(proofType))
        case Err(e) => Err(BadSignals(e))
        case Ok(p) => JudgeParsed(proofType, signals, p, smt, certs, expected)
  }

  ghost function JudgeParsed(proofType: string, signals: Option<PublicSignals>, p: ParsedInputs, smt: Option<SmtProvider.Cache>,
                             certs: Option<IssuerCert.Cache>, expected: Option<AppID>): Result<Outcome, VerifyError> {
    var root := if smt.None? then Ok(None) else Lift(RootOutcome(proofType, p, smt.value));
    var modulus := if certs.None? then Ok(None) else Lift(ModulusOutcome(proofType, p, certs.value));
    var app := if expected.None? then None else Some(AppIDOutcome(p.appID == expected.value, expected.value, p.appID));
    match (root, modulus)
    case (Err(e), _) => Err(e)
    case (_, Err(e)) => Err(e)
    case (Ok(a), Ok(b)) =>
      var reason := FirstReason(a.Some? && !a.value.matches, b.Some? && !b.value.matches, app.Some? && !app.value.matches);
      Ok(Outcome(reason == "", reason, signals, Some(p), a, b, app, None))
  }

  function RootMatches(proofType: string, p: ParsedInputs, roots: SmtProvider.Roots): (r: Result<bool, VerifyError>)
    ensures r.Ok? ==> IssuerForProofType(proofType) in roots && ParseRoot(p.smtRoot).Ok?
  {
    var id := IssuerForProofType(proofType);
    CheckSmtRoot(p, if id in roots then Some(roots[id]) else None)
  }

  ghost function ModulusMatches(proofType: string, p: ParsedInputs, certs: IssuerCert.Certs): (r: Result<bool, VerifyError>)
    ensures r.Ok? ==> IssuerForProofType(proofType) in certs
  {
    var id := IssuerForProofType(proofType);
    CheckIssuerModulus(p, if id in certs then Some(certs[id]) else None)
  }

  function RootOutcome(proofType: string, p: ParsedInputs, c: SmtProvider.Cache): Result<SmtRootOutcome, VerifyError> {
    var id := IssuerForProofType(proofType);
    match RootMatches(proofType, p, c.roots)
    case Err(e) => Err(e)
    case Ok(b) => Ok(SmtRootOutcome(id, b, Hex(c.roots[id]), Hex(ParseRoot(p.smtRoot).value), c.sourceUsed, c.updatedAt))
  }

  ghost function ModulusOutcome(proofType: string, p: ParsedInputs, c: IssuerCert.Cache): Result<IssuerModulusOutcome, VerifyError> {
    var id := IssuerForProofType(proofType);
    match ModulusMatches(proofType, p, c.certs)
    case Err(e) => Err(e)
    case Ok(b) => Ok(IssuerModulusOutcome(id, b, c.certs[id].sha256Hex, c.certs[id].source, c.updatedAt))
  }

  function Lift<T>(r: Result<T, VerifyError>): Result<Option<T>, VerifyError> {
    match r
    case Err(e) => Err(e)
    case Ok(b) => Ok(Some(b))
  }

  class Verifier {
    const smt: SmtProvider.Provider?
    const certs: IssuerCert.Provider?
    const expected: Option<AppID>

    constructor (smt: SmtProvider.Provider?, certs: IssuerCert.Provider?, expected: Option<AppID>)
      ensures this.smt == smt && this.certs == certs && this.expected == expected
    {
      this.smt, this.certs, this.expected := smt, certs, expected;
    }

    ghost function Smt(): Option<SmtProvider.Cache>
      reads smt
    {
      if smt == null then None else Some(smt.State())
    }

    ghost function Certs(): Option<IssuerCert.Cache>
      reads certs
    {
      if certs == null then None else Some(certs.State())
    }

    method MatchSmtRoot(proofType: string, parsed: ParsedInputs, provider: SmtProvider.Provider, now: int)
      returns (r: Result<SmtRootOutcome, VerifyError>)
      ensures r == RootOutcome(proofType, parsed, provider.State())
    {
      var issuer := IssuerForProofType(proofType);
      var observed := ParseRoot(parsed.smtRoot);
      if observed.Err? {
        return Err(BadRoot);
      }
      var trusted := provider.Trusted(issuer);
      if trusted.None? {
        return Err(RootUnavailable);
      }
      var meta := provider.ReadMeta(now);
      return Ok(SmtRootOutcome(issuer, observed.value == trusted.value, Hex(trusted.value), Hex(observed.value),
                               meta.sourceUsed, meta.updatedAt));
    }

    method MatchIssuerModulus(proofType: string, parsed: ParsedInputs, provider: IssuerCert.Provider, now: int)
      returns (r: Result<IssuerModulusOutcome, VerifyError>)
      ensures r == ModulusOutcome(proofType, parsed, provider.State())
    {
      var issuer := IssuerForProofType(proofType);
      var rec, updatedAt, _ := provider.TrustedWithMeta(issuer, now);
      if rec.None? {
        return Err(CertUnavailable);
      }
      if |parsed.issuerRSAModulus| != |rec.value.limbs| {
        return Err(LimbCountMismatch);
      }
      var equal := Limbs.LimbsEqual(rec.value.limbs, parsed.issuerRSAModulus);
      return Ok(IssuerModulusOutcome(issuer, equal, rec.value.sha256Hex, rec.value.source, updatedAt));
    }

    /** The enabled checks, each run whatever the earlier ones found. */
    method RunChecks(proofType: string, signals: Option<PublicSignals>, parsed: ParsedInputs, now: int)
      returns (res: ResultBox?, err: Option<VerifyError>)
      ensures match JudgeParsed(proofType, signals, parsed, Smt(), Certs(), expected)
              case Err(e) => err == Some(e) && res == null
              case Ok(o) => err == None && res != null && fresh(res) && res.View() == o
    {
      hide RootOutcome, ModulusOutcome;
      res := new ResultBox(true, "", signals, Some(parsed));
      if smt != null {
        var outcome := MatchSmtRoot(proofType, parsed, smt, now);
        if outcome.Err? {
          return null, Some(outcome.error);
        }
        res.smtRoot := Some(outcome.value);
        if !outcome.value.matches {
          res.verified := false;
          res.reason := SMT_ROOT_MISMATCH;
        }
      }
      if certs != null {
        var outcome := MatchIssuerModulus(proofType, parsed, certs, now);
        if outcome.Err? {
          return null, Some(outcome.error);
        }
        res.issuerModulus := Some(outcome.value);
        if !outcome.value.matches && res.reason == "" {
          res.verified := false;
          res.reason := ISSUER_MODULUS_MISMATCH;
        }
      }
      if expected.Some? {
        var outcome := AppIDOutcome(parsed.appID == expected.value, expected.value, parsed.appID);
        res.appID := Some(outcome);
        if !outcome.matches && res.reason == "" {
          res.verified := false;
          res.reason := APP_ID_MISMATCH;
        }
      }
      return res, None;
    }

    method Verify(proofType: string, reply: FfiReply, now: int) returns (res: ResultBox?, err: Option<VerifyError>)
      ensures match Verdict(proofType, reply, Smt(), Certs(), expected)
              case Err(e) => err == Some(e) && res == null
              case Ok(o) => err == None && res != null && fresh(res) && res.View() == o
    {
      if reply.FfiError? {
        return null, Some(FfiFailed);
      }
      if !reply.linked {
        res := new ResultBox(false, PROOF_INVALID, reply.signals, None);
        return res, None;
      }
      var parsedOrErr := ParsePublicInputs(reply.signals, ChainType(proofType));
      if parsedOrErr.Err? {
        return null, Some(BadSignals(parsedOrErr.error));
      }
      res, err := RunChecks(proofType, reply.signals, parsedOrErr.value, now);
    }
  }

  /** A verified outcome means the FFI linked the proofs and every enabled check matched. */
  lemma VerifiedMeans(proofType: string, reply: FfiReply, smt: Option<SmtProvider.Cache>,
                      certs: Option<IssuerCert.Cache>, expected: Option<AppID>)
    requires Verdict(proofType, reply, smt, certs, expected).Ok?
    ensures var o := Verdict(proofType, reply, smt, certs, expected).value;
            && (o.verified <==> o.reason == "")
            && (o.verified ==> o.parsed.Some?)
            && (o.verified <==> (reply.linked
                                 && (o.smtRoot.Some? ==> o.smtRoot.value.matches)
                                 && (o.issuerModulus.Some? ==> o.issuerModulus.value.matches)
                                 && (o.appID.Some? ==> o.appID.value.matches)))
            && (o.verified && smt.Some? ==> o.smtRoot.Some?)
            && (o.verified && certs.Some? ==> o.issuerModulus.Some?)
            && (o.verified && expected.Some? ==> o.appID.Some?)
            && (o.appID.Some? ==> o.parsed.Some? && expected == Some(o.appID.value.expected) && o.appID.value.observed == o.parsed.value.appID
                                  && (o.appID.value.matches <==> o.appID.value.expected == o.appID.value.observed))
            && (o.parsed.Some? ==> reply.FfiVerdict? && ParsePublicInputs(reply.signals, ChainType(proofType)) == Ok(o.parsed.value))
            && (reply.FfiVerdict? ==> o.signals == reply.signals)
  {
  }

  /** Whenever the root check answers, its texts are the cached root and the signal's, and it matches iff they are the same. */
  lemma RootOutcomeMeans(proofType: string, p: ParsedInputs, c: SmtProvider.Cache)
    requires RootOutcome(proofType, p, c).Ok?
    ensures var o, id := RootOutcome(proofType, p, c).value, IssuerForProofType(proofType);
            && o.issuer == id && id in c.roots
            && ParseRoot(o.expected) == Ok(c.roots[id]) && ParseRoot(o.observed) == ParseRoot(p.smtRoot)
            && (o.matches <==> o.expected == o.observed)
            && o.trustSource == c.sourceUsed && o.trustedAt == c.updatedAt
  {
    var id := IssuerForProofType(proofType);
    HexRoundTrip(c.roots[id]);
    HexRoundTrip(ParseRoot(p.smtRoot).value);
    hide ParseRoot, Hex;
  }

  /** An error of the two anchor checks says what was missing, in this order. */
  lemma CheckErrors(proofType: string, p: ParsedInputs, smt: SmtProvider.Cache, certs: IssuerCert.Cache)
    ensures var id := IssuerForProofType(proofType);
            && (RootOutcome(proofType, p, smt) == Err(BadRoot) <==> ParseRoot(p.smtRoot).Err?)
            && (RootOutcome(proofType, p, smt) == Err(RootUnavailable) <==> ParseRoot(p.smtRoot).Ok? && id !in smt.roots)
            && (RootOutcome(proofType, p, smt).Ok? <==> ParseRoot(p.smtRoot).Ok? && id in smt.roots)
            && (ModulusOutcome(proofType, p, certs) == Err(CertUnavailable) <==> id !in certs.certs)
            && (ModulusOutcome(proofType, p, certs) == Err(LimbCountMismatch) <==>
                  id in certs.certs && |p.issuerRSAModulus| != |certs.certs[id].limbs|)
            && (ModulusOutcome(proofType, p, certs).Ok? <==> id in certs.certs && |p.issuerRSAModulus| == |certs.certs[id].limbs|)
  {
    hide ParseRoot, Hex, Limbs.LimbsMatch;
  }

  /** A verdict is an error exactly for these causes, the first one first. */
  lemma VerdictErrors(proofType: string, reply: FfiReply, smt: Option<SmtProvider.Cache>, certs: Option<IssuerCert.Cache>, expected: Option<AppID>)
    ensures var v := Verdict(proofType, reply, smt, certs, expected);
            && (v == Err(FfiFailed) <==> reply.FfiError?)
            && (reply.FfiVerdict? && !reply.linked ==> v.Ok?)
            && (reply.FfiVerdict? && reply.linked ==>
                  match ParsePublicInputs(reply.signals, ChainType(proofType))
                  case Err(e) => v == Err(BadSignals(e))
                  case Ok(p) =>
                    if smt.Some? && RootOutcome(proofType, p, smt.value).Err? then v == Err(RootOutcome(proofType, p, smt.value).error)
                    else if certs.Some? && ModulusOutcome(proofType, p, certs.value).Err? then v == Err(ModulusOutcome(proofType, p, certs.value).error)
                    else v.Ok?)
  {
    hide ParsePublicInputs;
    assert forall p :: smt.Some? && RootOutcome(proofType, p, smt.value).Err? ==> RootOutcome(proofType, p, smt.value).error != FfiFailed by {
      hide ParseRoot, Hex;
    }
  }

  /** Whenever the modulus check answers, its fingerprint is the hash of the record's bytes, and source and times are the record's. */
  lemma ModulusOutcomeMeans(w: IssuerCert.World, proofType: string, p: ParsedInputs, c: IssuerCert.Cache)
    requires ModulusOutcome(proofType, p, c).Ok?
    requires IssuerForProofType(proofType) in c.certs ==>
               IssuerCert.Genuine(w, IssuerForProofType(proofType), c.certs[IssuerForProofType(proofType)])
    ensures var o, id := ModulusOutcome(proofType, p, c).value, IssuerForProofType(proofType);
            && o.issuer == id && id in c.certs
            && |o.expectedSHA256| >= 2 && DecodeHex(o.expectedSHA256[2..]) == Some(c.certs[id].sha256)
            && o.trustSource == c.certs[id].source && o.trustedAt == c.updatedAt
            && (o.matches <==> |p.issuerRSAModulus| == |c.certs[id].limbs| && Limbs.LimbsMatch(c.certs[id].limbs, p.issuerRSAModulus))
  {
    hide EncodeHex, DecodeHex, Limbs.LimbsMatch;
    var id := IssuerForProofType(proofType);
    var rec := c.certs[id];
    var der :| IssuerCert.Accept(w, id, der, rec.source, rec.fetchedAt) == Ok(rec);
    HexDecodes(rec.sha256);
    assert ("0x" + EncodeHex(rec.sha256))[2..] == EncodeHex(rec.sha256);
  }

  // ------------------------------------------------------------------- service

  datatype ServiceError = VerifyFailed(VerifyError) | ChallengeSignal(CodecError) | Refused(StoreError)

  /** The rejection made from a looked-up challenge before any transaction. */
  function EarlyRefusal(found: Option<IssuedChallenge>, now: int): Option<StoreError> {
    match found
    case None => Some(ChallengeNotFound)
    case Some(c) => if now > c.expiresAt then Some(ChallengeExpired) else None
  }

  function Found(db: Database, key: string): Option<IssuedChallenge> {
    if key in db.challenges then Some(IssuedChallenge(key, db.challenges[key].expiresAt)) else None
  }

  /** What the early check rejects, the transaction rejects too, on the same tables at any later time, for the same reason. */
  lemma EarlyCheckSound(db: Database, key: string, nullifier: string, now: int, later: int)
    requires EarlyRefusal(Found(db, key), now).Some? && now <= later
    ensures Refusal(db, nullifier, key, later) == EarlyRefusal(Found(db, key), now)
  {
  }

  /** The clock readings of one request. */
  datatype Times = Times(verify: int, early: int, check: int, insert: int, consume: int)

  datatype Decision = Reject(error: ServiceError) | Unverified | Persist

  /** Verdict, key, early check, transaction: the first obstacle decides. */
  ghost function Decide(v: Result<Outcome, VerifyError>, db: Database, at: Times): Decision {
    match v
    case Err(e) => Reject(VerifyFailed(e))
    case Ok(o) =>
      if !o.verified || o.parsed.None? then Unverified
      else match NormalizeDecimal(o.parsed.value.challenge)
        case Err(e) => Reject(ChallengeSignal(e))
        case Ok(key) =>
          match EarlyRefusal(Found(db, key), at.early)
          case Some(e) => Reject(Refused(e))
          case None =>
            match Refusal(db, o.parsed.value.nullifier, key, at.check)
            case Some(e) => Reject(Refused(e))
            case None => Persist
  }

  ghost function Persisted(db: Database, proofType: string, v: Result<Outcome, VerifyError>, at: Times): Database
    requires Decide(v, db, at).Persist?
  {
    var p := v.value.parsed.value;
    var key := NormalizeDecimal(p.challenge).value;
    Redeemed(db, VerificationRow(p.nullifier, None, StoreKey(proofType), key, WholeSecond(at.insert)), at.consume)
  }

  /** The early check changes no decision: without it the transaction decides the same. */
  lemma EarlyCheckRedundant(v: Result<Outcome, VerifyError>, db: Database, at: Times)
    requires at.early <= at.check && v.Ok? && v.value.verified && v.value.parsed.Some?
    requires NormalizeDecimal(v.value.parsed.value.challenge).Ok?
    ensures var p, key := v.value.parsed.value, NormalizeDecimal(v.value.parsed.value.challenge).value;
            Decide(v, db, at) == match Refusal(db, p.nullifier, key, at.check)
                                 case Some(e) => Reject(Refused(e))
                                 case None => Persist
  {
  }

  class Service {
    const verifier: Verifier
    const store: SQLiteStore

    constructor (verifier: Verifier, store: SQLiteStore)
      ensures this.verifier == verifier && this.store == store
    {
      this.verifier, this.store := verifier, store;
    }

    /**
     One request from verdict to record.  Without faults it does what is decided from
     the tables; whatever happens, nothing but the decided redemption is ever written.
     */
    method VerifyAndRecord(proofType: string, reply: FfiReply, at: Times, lookupFaults: set<Operation>, faults: set<Operation>)
      returns (res: ResultBox?, persisted: bool, err: Option<ServiceError>)
      modifies store
      ensures !persisted ==> store.Db() == old(store.Db())
      ensures var v := Verdict(proofType, reply, verifier.Smt(), verifier.Certs(), verifier.expected);
              && (res == null <==> v.Err?)
              && (res != null ==> fresh(res) && res.View() == v.value.(challenge := res.challenge))
              && (persisted ==>
                    && Decide(v, old(store.Db()), at).Persist?
                    && err == None && res.challenge.Some? && res.challenge.value.matches
                    && store.Db() == Persisted(old(store.Db()), proofType, v, at))
              && (lookupFaults == {} && faults == {} ==>
                    match Decide(v, old(store.Db()), at)
                    case Persist => persisted
                    case Unverified => !persisted && err == None
                    case Reject(e) => !persisted && err == Some(e))
    {
      hide Verdict, NormalizeDecimal;
      var verifyErr;
      persisted, err := false, None;
      res, verifyErr := verifier.Verify(proofType, reply, at.verify);
      if verifyErr.Some? {
        err := Some(VerifyFailed(verifyErr.value));
        return;
      }
      if !res.verified {
        return;
      }
      VerifiedMeans(proofType, reply, verifier.Smt(), verifier.Certs(), verifier.expected);
      var parsed := res.parsed.value;
      var key := NormalizeDecimal(parsed.challenge);
      if key.Err? {
        err := Some(ChallengeSignal(key.error));
        return;
      }
      persisted, err := Redeem(res, parsed, key.value, proofType, at, lookupFaults, faults);
    }

    /** From the looked-up challenge on. */
    method Redeem(res: ResultBox, parsed: ParsedInputs, key: string, proofType: string, at: Times,
                  lookupFaults: set<Operation>, faults: set<Operation>)
      returns (persisted: bool, err: Option<ServiceError>)
      requires NormalizeDecimal(parsed.challenge) == Ok(key)
      modifies store, res
      ensures res.View() == old(res.View()).(challenge := res.challenge)
      ensures persisted ==> err == None && res.challenge == Some(ChallengeOutcome(true, key, key))
      ensures !persisted ==> store.Db() == old(store.Db())
      ensures persisted ==>
                && EarlyRefusal(Found(old(store.Db()), key), at.early) == None
                && Refusal(old(store.Db()), parsed.nullifier, key, at.check) == None
                && store.Db() == Redeemed(old(store.Db()),
                                          VerificationRow(parsed.nullifier, None, StoreKey(proofType), key, WholeSecond(at.insert)), at.consume)
      ensures lookupFaults == {} && faults == {} ==>
                match EarlyRefusal(Found(old(store.Db()), key), at.early)
                case Some(e) => err == Some(Refused(e))
                case None => err == match Refusal(old(store.Db()), parsed.nullifier, key, at.check)
                                    case None => None
                                    case Some(e) => Some(Refused(e))
      ensures !persisted ==> err != None
    {
      var c := store.GetChallenge(key, lookupFaults);
      if c.Err? {
        return false, Some(Refused(c.error));
      }
      if c.value.None? {
        return false, Some(Refused(ChallengeNotFound));
      }
      if at.early > c.value.value.expiresAt {
        return false, Some(Refused(ChallengeExpired));
      }
      var outcome := CheckedChallenge(parsed, key);
      res.challenge := Some(outcome);
      if !outcome.matches {
        assert false;
      }
      persisted, err := Finalize(key, parsed.nullifier, proofType, at, faults);
    }

    method Finalize(key: string, nullifier: string, proofType: string, at: Times, faults: set<Operation>)
      returns (persisted: bool, err: Option<ServiceError>)
      modifies store
      ensures persisted <==> err == None
      ensures !persisted ==> store.Db() == old(store.Db())
      ensures persisted ==>
                && Refusal(old(store.Db()), nullifier, key, at.check) == None
                && store.Db() == Redeemed(old(store.Db()),
                                          VerificationRow(nullifier, None, StoreKey(proofType), key, WholeSecond(at.insert)), at.consume)
      ensures faults == {} ==> err == match Refusal(old(store.Db()), nullifier, key, at.check)
                                      case None => None
                                      case Some(e) => Some(Refused(e))
    {
      var recorded := store.VerifyAndRecord(nullifier, key, None, StoreKey(proofType), at.check, at.insert, at.consume, faults);
      if recorded.Err? {
        return false, Some(Refused(recorded.error));
      }
      return true, None;
    }
  }
}
