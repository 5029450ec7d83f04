/**
 Exactly which proofs are accepted, as integers: the other direction of what a
 recorded row stands for.
 */
module Honest {
  import opened Wrappers
  import opened Clock
  import opened Numerals
  import opened GoText
  import opened PublicInputs
  import opened SmtRoot
  import opened Store
  import opened LinkVerify
  import opened System
  import opened Safety
  import opened Alone
  import Limbs
  import SmtProvider
  import IssuerCert

  /** The public values have the right shape and agree with the cached anchors and the app-id. */
  ghost predicate AgreesWith(c: Config, s: State, proofType: string, f: FieldSignals) {
    var k := LimbCount(ChainType(proofType));
    var id := IssuerForProofType(proofType);
    && |f.certChain| == k + 2 && |f.userSig| == 4
    && id in s.roots.cache.roots && f.certChain[k + 1] == RootValue(s.roots.cache.roots[id])
    && id in s.certs.cache.certs && Digits(f.certChain[1..k + 1], Limbs.Radix())
    && LE(f.certChain[1..k + 1], Limbs.Radix()) == s.certs.cache.certs[id].modulus
    && f.userSig[2] == LE(c.appID, 256)
  }

  /** A linked pair of the right shape with the configured app-id parses. */
  lemma ShapeParses(f: FieldSignals, proofType: string, appID: AppID)
    requires AreFields(f) && |f.certChain| == LimbCount(ChainType(proofType)) + 2 && |f.userSig| == 4
    requires f.userSig[2] == LE(appID, 256)
    ensures ParsePublicInputs(Some(Publish(f)), ChainType(proofType)).Ok?
  {
    hide FieldToHex, IsField, LE, UnpackedAppID;
    AppIDCheckDecides(f.userSig[2], appID);
  }

  lemma RecordGenuine(c: Config, s: State, id: IssuerID)
    requires AnchorInv(c, s) && id in s.certs.cache.certs
    ensures IssuerCert.Genuine(c.world, id, s.certs.cache.certs[id])
  {
  }

  /** For parsed signals, the chain of checks lets a request through to its key exactly if they agree. */
  lemma ChecksDecide(c: Config, s: State, proofType: string, f: FieldSignals)
    requires AnchorInv(c, s) && AreFields(f) && ParsePublicInputs(Some(Publish(f)), ChainType(proofType)).Ok?
    ensures |f.userSig| == 4
    ensures var p := ParsePublicInputs(Some(Publish(f)), ChainType(proofType)).value;
            && (AgreesWith(c, s, proofType, f) <==>
                RootMatches(proofType, p, s.roots.cache.roots) == Ok(true)
                && ModulusMatches(proofType, p, s.certs.cache.certs) == Ok(true) && p.appID == c.appID)
            && p.nullifier == FieldToHex(f.userSig[1]) && NormalizeDecimal(p.challenge) == Ok(DecimalNat(f.userSig[3]))
  {
    hide ParsePublicInputs, Publish, AreFields, FieldToHex, DecimalNat, NormalizeDecimal, LE, Digits, Limbs.Radix, RootValue,
      CheckSmtRoot, CheckIssuerModulus, AnchorInv, ParseRoot, IssuerCert.Genuine, UnpackedAppID, CheckedChallenge;
    var p := ParsePublicInputs(Some(Publish(f)), ChainType(proofType)).value;
    var id := IssuerForProofType(proofType);
    SignalsMeaning(f, proofType);
    AppCheckDecides(f, proofType, c.appID);
    ChallengeCheckMatches(f, proofType);
    if id in s.roots.cache.roots {
      RootCheckDecides(f, proofType, s.roots.cache.roots[id]);
    }
    if id in s.certs.cache.certs {
      RecordGenuine(c, s, id);
      ModulusCheckDecides(c.world, f, proofType, s.certs.cache.certs[id]);
    }
  }

  lemma SignalsFate(c: Config, s: State, proofType: string, p: ParsedInputs)
    ensures FromSignals(c, s, proofType, p).answer.Accepted? <==>
            RootMatches(proofType, p, s.roots.cache.roots) == Ok(true)
            && ModulusMatches(proofType, p, s.certs.cache.certs) == Ok(true) && p.appID == c.appID
            && NormalizeDecimal(p.challenge).Ok?
            && FromKey(s.db, s.clock, proofType, p.nullifier, NormalizeDecimal(p.challenge).value).answer.Accepted?
    ensures FromSignals(c, s, proofType, p).answer.Accepted? ==>
              FromSignals(c, s, proofType, p) == FromKey(s.db, s.clock, proofType, p.nullifier, NormalizeDecimal(p.challenge).value)
  {
    hide RootMatches, ModulusMatches, NormalizeDecimal, FromKey;
  }

  lemma KeyFate(db: Database, clock: int, proofType: string, nullifier: string, key: string)
    ensures FromKey(db, clock, proofType, nullifier, key).answer.Accepted? <==> Refusal(db, nullifier, key, clock) == None
  {
  }

  /**
   A request is accepted exactly if the FFI linked its proofs, their public values
   agree with the anchors and the app-id, its challenge is known, unexpired and unused,
   and its nullifier is new.
   */
  lemma AcceptedIff(c: Config, start: int, before: seq<Step>, proofType: string, linked: bool, f: FieldSignals)
    requires After(c, start, before).Some? && AreFields(f) && Links(f, linked)
    ensures var s := After(c, start, before).value;
            Decided(c, s, proofType, Judged(linked, f)).answer.Accepted? <==>
            linked && AgreesWith(c, s, proofType, f)
            && Refusal(s.db, FieldToHex(f.userSig[1]), DecimalNat(f.userSig[3]), s.clock) == None
  {
    EveryRun(c, start, before);
    DecidedIff(c, After(c, start, before).value, proofType, linked, f);
    hide After, Decided;
  }

  lemma DecidedIff(c: Config, s: State, proofType: string, linked: bool, f: FieldSignals)
    requires AnchorInv(c, s) && AreFields(f)
    ensures var fate := Decided(c, s, proofType, Judged(linked, f));
            && (fate.answer.Accepted? <==>
                linked && AgreesWith(c, s, proofType, f)
                && Refusal(s.db, FieldToHex(f.userSig[1]), DecimalNat(f.userSig[3]), s.clock) == None)
            && (fate.answer.Accepted? ==>
                  fate == FromKey(s.db, s.clock, proofType, FieldToHex(f.userSig[1]), DecimalNat(f.userSig[3])))
  {
    AheadIsDecided(c, s, Request(proofType, None, Arrived), Judged(linked, f));
    if AgreesWith(c, s, proofType, f) {
      ShapeParses(f, proofType, c.appID);
    }
    hide Decided, ParsePublicInputs, Publish, AreFields, AgreesWith, AnchorInv, FieldToHex, DecimalNat, Refusal,
      FromKey, FromSignals, RootMatches, ModulusMatches, NormalizeDecimal;
    if linked && ParsePublicInputs(Some(Publish(f)), ChainType(proofType)).Ok? {
      var p := ParsePublicInputs(Some(Publish(f)), ChainType(proofType)).value;
      ChecksDecide(c, s, proofType, f);
      SignalsFate(c, s, proofType, p);
      KeyFate(s.db, s.clock, proofType, p.nullifier, DecimalNat(f.userSig[3]));
    }
  }
}
