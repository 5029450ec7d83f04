/**
 issuercert: pinned issuer certificates, their validation against the embedded
 roots, and the cache that parallel refreshes update one lock section at a time.
 DER parsing, SHA-256 and signature checks are functions of a World about which
 nothing is assumed.
 */
module IssuerCert {
  import opened Wrappers
  import opened Numerals
  import opened GoText
  import opened Clock
  import opened Limbs
  import opened SmtRoot
  import SmtProvider

  type Digest = d: seq<Byte> | |d| == ROOT_BYTES witness seq(ROOT_BYTES, _ => 0)

  const PINNED_MOICA_G2: Digest := [
    0xc4, 0xc4, 0x62, 0xde, 0x46, 0x3f, 0x85, 0x68, 0x04, 0xdc, 0x89, 0x83, 0x38, 0xd2, 0xce, 0xcb,
    0x55, 0xfb, 0xa7, 0x41, 0x55, 0x85, 0x15, 0x99, 0xd8, 0xfb, 0x7d, 0x70, 0x21, 0x8f, 0xd1, 0xbe]
  const PINNED_MOICA_G3: Digest := [
    0xed, 0x79, 0x3f, 0xd0, 0xd5, 0x0a, 0x2a, 0x39, 0x80, 0x49, 0xd5, 0x98, 0x98, 0x2c, 0xf0, 0x1e,
    0x75, 0xf8, 0x73, 0xb5, 0x32, 0x06, 0x6c, 0xae, 0xc2, 0x38, 0xf8, 0x00, 0xa0, 0x6c, 0xa9, 0xda]
  const PINNED_GRCA_G2: Digest := [
    0x70, 0xb9, 0x22, 0xbf, 0xda, 0x0e, 0x3f, 0x4a, 0x34, 0x2e, 0x4e, 0xe2, 0x2d, 0x57, 0x9a, 0xe5,
    0x98, 0xd0, 0x71, 0xcc, 0x5e, 0xc9, 0xc3, 0x0f, 0x12, 0x36, 0x80, 0x34, 0x03, 0x88, 0xae, 0xa5]
  const PINNED_GRCA_G3: Digest := [
    0x57, 0xdf, 0x6f, 0x20, 0xe0, 0x4c, 0x58, 0x8e, 0x85, 0xf3, 0x5b, 0xe8, 0x83, 0x2f, 0x5d, 0x4e,
    0x78, 0x95, 0x83, 0x36, 0xae, 0x3b, 0x18, 0xfb, 0x7c, 0x9b, 0xae, 0x0d, 0xfe, 0xad, 0x40, 0x44]

  const SOURCE_EMBEDDED := "embedded"
  const SOURCE_HTTPS := "https"
  const KEY_USAGE_CERT_SIGN: nat := 32

  datatype PublicKey = RSA(n: nat) | OtherKey

  datatype Certificate = Certificate(
    rawIssuer: seq<Byte>, rawSubject: seq<Byte>, isCA: bool, keyUsage: nat,
    notBefore: int, notAfter: int, publicKey: PublicKey)

  /** The bytes built into the binary and the primitives of other libraries. */
  datatype World = World(
    sha256: seq<Byte> -> Digest,
    parseX509: seq<Byte> -> Option<Certificate>,
    signedBy: (Certificate, Certificate) -> bool,
    describe: CertError -> string,
    embedded: IssuerID -> seq<Byte>,
    embeddedRoot: IssuerID -> seq<Byte>)

  datatype CertRecord = CertRecord(
    parsed: Certificate, modulus: nat, sha256: Digest, sha256Hex: string,
    limbs: seq<string>, source: string, fetchedAt: int)

  /** Each error carries what its message is made of; the World renders it. */
  datatype CertError =
    | FingerprintMismatch(got: Digest, want: Digest) | BadCertificate(der: seq<Byte>)
    | BadSignature(cert: Certificate, root: Certificate) | NameMismatch(cert: Certificate, root: Certificate)
    | ParentNotCA(root: Certificate) | ParentCannotSign(root: Certificate)
    | NotYetValid(cert: Certificate) | Expired(cert: Certificate)
    | NotRSA(cert: Certificate) | WrongSize(id: IssuerID, bits: nat)
    | RootDrift(id: IssuerID) | RootUnreadable(id: IssuerID)

  function Pinned(id: IssuerID): Digest {
    if id == G3 then PINNED_MOICA_G3 else PINNED_MOICA_G2
  }

  function PinnedRoot(id: IssuerID): Digest {
    if id == G3 then PINNED_GRCA_G3 else PINNED_GRCA_G2
  }

  function LimbCountFor(id: IssuerID): nat {
    if id == G3 then LIMBS_RS4096 else LIMBS_RS2048
  }

  function ModulusBits(id: IssuerID): nat {
    if id == G3 then 4096 else 2048
  }

  function BitLen(n: nat): nat {
    if n == 0 then 0 else 1 + BitLen(n / 2)
  }

  // ---------------------------------------------------------------- validation

  /** Section 6.1.3 (a)(1), (2), (4) and section 6.1.4 (k), (n) of RFC 5280, in the source's order. */
  function ValidateChain(w: World, cert: Certificate, root: Certificate, now: int): Option<CertError> {
    if !w.signedBy(cert, root) then Some(BadSignature(cert, root))
    else if cert.rawIssuer != root.rawSubject then Some(NameMismatch(cert, root))
    else if !root.isCA then Some(ParentNotCA(root))
    else if root.keyUsage != 0 && And(root.keyUsage, KEY_USAGE_CERT_SIGN) == 0 then Some(ParentCannotSign(root))
    else if now < cert.notBefore then Some(NotYetValid(cert))
    else if now > cert.notAfter then Some(Expired(cert))
    else None
  }

  function ParseAndValidate(w: World, der: seq<Byte>, expected: Digest, parent: Certificate,
                            id: IssuerID, source: string, now: int): Result<CertRecord, CertError> {
    if w.sha256(der) != expected then Err(FingerprintMismatch(w.sha256(der), expected))
    else match w.parseX509(der)
      case None => Err(BadCertificate(der))
      case Some(cert) =>
        match ValidateChain(w, cert, parent, now)
        case Some(e) => Err(e)
        case None =>
          match cert.publicKey
          case OtherKey => Err(NotRSA(cert))
          case RSA(n) =>
            if BitLen(n) != ModulusBits(id) then Err(WrongSize(id, BitLen(n)))
            else Ok(CertRecord(cert, n, w.sha256(der), "0x" + EncodeHex(w.sha256(der)),
                               Printed(LimbsOf(n, LimbCountFor(id))), source, now))
  }

  function GRCARootFor(w: World, id: IssuerID): Result<Certificate, CertError> {
    if w.sha256(w.embeddedRoot(id)) != PinnedRoot(id) then Err(RootDrift(id))
    else match w.parseX509(w.embeddedRoot(id))
      case None => Err(RootUnreadable(id))
      case Some(c) => Ok(c)
  }

  /** Fetched or embedded bytes, checked against the pin and the embedded root. */
  function Accept(w: World, id: IssuerID, der: seq<Byte>, source: string, now: int): Result<CertRecord, CertError> {
    match GRCARootFor(w, id)
    case Err(e) => Err(e)
    case Ok(root) => ParseAndValidate(w, der, Pinned(id), root, id, source, now)
  }

  type Certs = map<IssuerID, CertRecord>

  function LoadEmbedded(w: World, now: int): Result<Certs, CertError> {
    match (GRCARootFor(w, G2), GRCARootFor(w, G3))
    case (Err(e), _) => Err(e)
    case (_, Err(e)) => Err(e)
    case (Ok(r2), Ok(r3)) =>
      match (ParseAndValidate(w, w.embedded(G2), Pinned(G2), r2, G2, SOURCE_EMBEDDED, now),
             ParseAndValidate(w, w.embedded(G3), Pinned(G3), r3, G3, SOURCE_EMBEDDED, now))
      case (Err(e), _) => Err(e)
      case (_, Err(e)) => Err(e)
      case (Ok(g2), Ok(g3)) => Ok(map[G2 := g2, G3 := g3])
  }

  lemma {:induction false} BitLenBounds(n: nat)
    ensures n < Pow(2, BitLen(n))
    ensures n > 0 ==> Pow(2, BitLen(n) - 1) <= n
    decreases n
  {
    if n > 0 {
      BitLenBounds(n / 2);
      if n / 2 == 0 {
        assert BitLen(n) == 1 && Pow(2, 0) == 1;
      }
    }
  }

  /** What acceptance establishes about a record, for either issuer. */
  lemma AcceptMeaning(w: World, id: IssuerID, der: seq<Byte>, source: string, now: int)
    requires Accept(w, id, der, source, now).Ok?
    ensures var r := Accept(w, id, der, source, now).value;
            && w.sha256(der) == r.sha256 == Pinned(id)
            && w.parseX509(der) == Some(r.parsed) && r.parsed.publicKey == RSA(r.modulus)
            && r.parsed.notBefore <= r.fetchedAt <= r.parsed.notAfter && r.fetchedAt == now && r.source == source
            && BitLen(r.modulus) == ModulusBits(id) <= LIMB_BITS * LimbCountFor(id)
            && r.limbs == Printed(LimbsOf(r.modulus, LimbCountFor(id)))
            && GRCARootFor(w, id).Ok?
            && var root := GRCARootFor(w, id).value;
               w.signedBy(r.parsed, root) && r.parsed.rawIssuer == root.rawSubject && root.isCA
  {
  }

  lemma BitLenIff(n: nat, k: nat)
    requires k > 0
    ensures BitLen(n) == k <==> Pow(2, k - 1) <= n < Pow(2, k)
  {
    BitLenBounds(n);
    if BitLen(n) < k {
      PowMonotone(2, BitLen(n), k - 1);
    } else if BitLen(n) > k {
      PowMonotone(2, k, BitLen(n) - 1);
    }
  }

  /** keyCertSign is bit 5 of the key usage. */
  lemma CertSignBit(usage: nat)
    ensures And(usage, KEY_USAGE_CERT_SIGN) == 0 <==> usage / 32 % 2 == 0
  {
    assert usage / 2 / 2 / 2 / 2 / 2 == usage / 32;
    assert And(usage / 32, 1) == usage / 32 % 2 by { assert And(usage / 32 / 2, 0) == 0 by { AndZero(usage / 32 / 2); } }
    assert And(usage / 2 / 2 / 2 / 2, 2) == 2 * And(usage / 32, 1);
    assert And(usage / 2 / 2 / 2, 4) == 2 * And(usage / 2 / 2 / 2 / 2, 2);
    assert And(usage / 2 / 2, 8) == 2 * And(usage / 2 / 2 / 2, 4);
    assert And(usage / 2, 16) == 2 * And(usage / 2 / 2, 8);
    assert And(usage, 32) == 2 * And(usage / 2, 16);
  }

  lemma {:induction false} AndZero(x: nat)
    ensures And(x, 0) == 0
  {
  }

  /** The parent may sign certificates: its key usage is unrestricted or has keyCertSign. */
  predicate MaySign(root: Certificate) {
    root.isCA && (root.keyUsage == 0 || root.keyUsage / 32 % 2 == 1)
  }

  /** What makes these bytes acceptable for this issuer at this time, with this parent. */
  ghost predicate Sound(w: World, id: IssuerID, der: seq<Byte>, root: Certificate, now: int) {
    && w.sha256(der) == Pinned(id) && w.parseX509(der).Some?
    && var cert := w.parseX509(der).value;
       && w.signedBy(cert, root) && cert.rawIssuer == root.rawSubject && MaySign(root)
       && cert.notBefore <= now <= cert.notAfter
       && cert.publicKey.RSA?
       && (if id == G3 then Pow(2, 4095) <= cert.publicKey.n < Pow(2, 4096) else Pow(2, 2047) <= cert.publicKey.n < Pow(2, 2048))
  }

  /**
   Bytes are accepted exactly if the embedded root is as pinned and readable, the hash is
   the pinned one, the certificate parses, is signed and issued by a root that may sign
   certificates, is valid now, and has an RSA key of the issuer's size.
   */
  lemma AcceptIff(w: World, id: IssuerID, der: seq<Byte>, source: string, now: int)
    ensures Accept(w, id, der, source, now).Ok? <==>
            w.sha256(w.embeddedRoot(id)) == PinnedRoot(id) && w.parseX509(w.embeddedRoot(id)).Some?
            && Sound(w, id, der, w.parseX509(w.embeddedRoot(id)).value, now)
  {
    hide Pow, BitLen, And, Limbs.Printed, Limbs.LimbsOf, EncodeHex;
    if w.parseX509(w.embeddedRoot(id)).Some? {
      CertSignBit(w.parseX509(w.embeddedRoot(id)).value.keyUsage);
    }
    if w.parseX509(der).Some? && w.parseX509(der).value.publicKey.RSA? {
      var n := w.parseX509(der).value.publicKey.n;
      BitLenIff(n, 2048);
      BitLenIff(n, 4096);
    }
  }

  /** A server starts exactly if both embedded certificates are acceptable. */
  lemma LoadsIff(w: World, now: int)
    ensures LoadEmbedded(w, now).Ok? <==>
            Accept(w, G2, w.embedded(G2), SOURCE_EMBEDDED, now).Ok? && Accept(w, G3, w.embedded(G3), SOURCE_EMBEDDED, now).Ok?
  {
    hide ParseAndValidate, GRCARootFor;
  }

  /** A refusal names something that is so: the first thing found wrong. */
  lemma RefusalTruthful(w: World, id: IssuerID, der: seq<Byte>, source: string, now: int)
    requires Accept(w, id, der, source, now).Err?
    ensures var bytes, root := w.parseX509(der), w.parseX509(w.embeddedRoot(id));
            match Accept(w, id, der, source, now).error
            case RootDrift(i) => i == id && w.sha256(w.embeddedRoot(id)) != PinnedRoot(id)
            case RootUnreadable(i) => i == id && root.None?
            case FingerprintMismatch(got, want) => got == w.sha256(der) && want == Pinned(id) && got != want
            case BadCertificate(b) => b == der && w.sha256(der) == Pinned(id) && bytes.None?
            case BadSignature(c, p) => bytes == Some(c) && root == Some(p) && !w.signedBy(c, p)
            case NameMismatch(c, p) => bytes == Some(c) && root == Some(p) && w.signedBy(c, p) && c.rawIssuer != p.rawSubject
            case ParentNotCA(p) => root == Some(p) && !p.isCA
            case ParentCannotSign(p) => root == Some(p) && p.isCA && p.keyUsage != 0 && p.keyUsage / 32 % 2 == 0
            case NotYetValid(c) => bytes == Some(c) && now < c.notBefore
            case Expired(c) => bytes == Some(c) && now > c.notAfter
            case NotRSA(c) => bytes == Some(c) && c.publicKey.OtherKey?
            case WrongSize(i, bits) =>
              i == id && bytes.Some? && bytes.value.publicKey.RSA? && bits == BitLen(bytes.value.publicKey.n)
              && bits != (if id == G3 then 4096 else 2048)
  {
    hide BitLen, And;
    if w.parseX509(w.embeddedRoot(id)).Some? {
      CertSignBit(w.parseX509(w.embeddedRoot(id)).value.keyUsage);
    }
  }

  /** A proof's limbs match an accepted record exactly when they recompose to its modulus. */
  lemma AcceptedModulusDecides(w: World, id: IssuerID, der: seq<Byte>, source: string, now: int, f: seq<nat>)
    requires Accept(w, id, der, source, now).Ok?
    requires |f| == LimbCountFor(id) && forall i :: 0 <= i < |f| ==> IsField(f[i])
    ensures var r := Accept(w, id, der, source, now).value;
            LimbsMatch(r.limbs, Printed(f)) <==> Digits(f, Radix()) && LE(f, Radix()) == r.modulus
  {
    AcceptMeaning(w, id, der, source, now);
    var r := Accept(w, id, der, source, now).value;
    BitLenBounds(r.modulus);
    WideEnough(r.modulus, BitLen(r.modulus), LimbCountFor(id), f);
  }

  // ------------------------------------------------------------- lock sections

  datatype Cache = Cache(
    certs: Certs, updatedAt: int, lastAttemptAt: Option<int>, lastError: string,
    consecutiveFail: nat, attempts: map<string, SmtProvider.AttemptStat>)

  function SetCert(c: Cache, id: IssuerID, rec: CertRecord, now: int): Cache {
    c.(certs := c.certs[id := rec], updatedAt := now)
  }

  function RecordAttempt(c: Cache, source: string, latencyMs: int, err: Option<string>, now: int): Cache {
    var count := if source in c.attempts then c.attempts[source].count else 0;
    var message := if err.Some? then err.value else "";
    c.(lastAttemptAt := Some(now),
       attempts := c.attempts[source := SmtProvider.AttemptStat(count + 1, latencyMs, message)],
       lastError := message,
       consecutiveFail := if err.Some? then c.consecutiveFail + 1 else 0)
  }

  /** The clock readings of one fetch. */
  datatype FetchTimes = FetchTimes(validated: int, stored: int, recorded: int)

  /** One fetch of one issuer with nothing in between. */
  function FetchedOne(w: World, c: Cache, id: IssuerID, source: string, reply: Result<seq<Byte>, string>,
                      latencyMs: int, at: FetchTimes): Cache {
    match reply
    case Err(e) => RecordAttempt(c, source, latencyMs, Some(e), at.recorded)
    case Ok(der) =>
      match Accept(w, id, der, SOURCE_HTTPS, at.validated)
      case Err(e) => RecordAttempt(c, source, latencyMs, Some(w.describe(e)), at.recorded)
      case Ok(rec) => RecordAttempt(SetCert(c, id, rec, at.stored), source, latencyMs, None, at.recorded)
  }

  class Provider {
    var certs: Certs
    var updatedAt: int
    var lastAttemptAt: Option<int>
    var lastError: string
    var consecutiveFail: nat
    var attempts: map<string, SmtProvider.AttemptStat>

    constructor (records: Certs, now: int)
      ensures State() == Cache(records, now, None, "", 0, map[])
    {
      certs, updatedAt, lastAttemptAt, lastError, consecutiveFail, attempts := records, now, None, "", 0, map[];
    }

    function State(): Cache
      reads this
    {
      Cache(certs, updatedAt, lastAttemptAt, lastError, consecutiveFail, attempts)
    }

    /** One lock section: the record, when the cache last changed, and its age in whole seconds. */
    method TrustedWithMeta(issuer: IssuerID, now: int) returns (rec: Option<CertRecord>, at: int, age: int)
      ensures rec == if issuer in certs then Some(certs[issuer]) else None
      ensures at == updatedAt
      ensures age == AgeSeconds(updatedAt, now)
    {
      rec := if issuer in certs then Some(certs[issuer]) else None;
      at := updatedAt;
      age := AgeSeconds(updatedAt, now);
    }

    method InstallCert(id: IssuerID, rec: CertRecord, now: int)
      modifies this
      ensures State() == SetCert(old(State()), id, rec, now)
    {
      certs := certs[id := rec];
      updatedAt := now;
    }

    method NoteAttempt(source: string, latencyMs: int, err: Option<string>, now: int)
      modifies this
      ensures State() == RecordAttempt(old(State()), source, latencyMs, err, now)
    {
      lastAttemptAt := Some(now);
      var stat := if source in attempts then attempts[source] else SmtProvider.AttemptStat(0, 0, "");
      stat := stat.(count := stat.count + 1, lastLatencyMs := latencyMs);
      if err.Some? {
        stat := stat.(lastErr := err.value);
        lastError := err.value;
        consecutiveFail := consecutiveFail + 1;
      } else {
        stat := stat.(lastErr := "");
        lastError := "";
        consecutiveFail := 0;
      }
      attempts := attempts[source := stat];
    }

    method FetchOne(w: World, id: IssuerID, source: string, reply: Result<seq<Byte>, string>, latencyMs: int, at: FetchTimes)
      returns (err: Option<string>)
      modifies this
      ensures State() == FetchedOne(w, old(State()), id, source, reply, latencyMs, at)
      ensures err == if reply.Err? then Some(reply.error)
                     else match Accept(w, id, reply.value, SOURCE_HTTPS, at.validated)
                       case Ok(_) => None
                       case Err(e) => Some(w.describe(e))
      ensures err.None? ==>
                && id in certs && certs == old(certs)[id := certs[id]] && updatedAt == at.stored
                && certs[id].source == SOURCE_HTTPS && certs[id].fetchedAt == at.validated
                && reply.Ok? && certs[id].sha256 == w.sha256(reply.value) && w.parseX509(reply.value) == Some(certs[id].parsed)
                && consecutiveFail == 0 && lastError == ""
      ensures err.Some? ==>
                && certs == old(certs) && updatedAt == old(updatedAt)
                && consecutiveFail == old(consecutiveFail) + 1 && lastError == err.value
      ensures lastAttemptAt == Some(at.recorded)
      ensures attempts.Keys == old(attempts).Keys + {source}
              && (forall name :: name in old(attempts) && name != source ==> attempts[name] == old(attempts)[name])
              && attempts[source] == SmtProvider.AttemptStat(
                                       (if source in old(attempts) then old(attempts)[source].count else 0) + 1, latencyMs, TextOf(err))
    {
      if reply.Ok? && Accept(w, id, reply.value, SOURCE_HTTPS, at.validated).Ok? {
        AcceptMeaning(w, id, reply.value, SOURCE_HTTPS, at.validated);
      }
      if reply.Err? {
        NoteAttempt(source, latencyMs, Some(reply.error), at.recorded);
        return Some(reply.error);
      }
      var parent := GRCARootFor(w, id);
      if parent.Err? {
        NoteAttempt(source, latencyMs, Some(w.describe(parent.error)), at.recorded);
        return Some(w.describe(parent.error));
      }
      var rec := ParseAndValidate(w, reply.value, Pinned(id), parent.value, id, SOURCE_HTTPS, at.validated);
      if rec.Err? {
        NoteAttempt(source, latencyMs, Some(w.describe(rec.error)), at.recorded);
        return Some(w.describe(rec.error));
      }
      InstallCert(id, rec.value, at.stored);
      NoteAttempt(source, latencyMs, None, at.recorded);
      return None;
    }
  }

  // ---------------------------------------------------------- concurrent runs

  datatype Phase =
    | Waiting
    | Replied(reply: Result<seq<Byte>, string>)
    | Validated(rec: CertRecord)
    | Stored
    | Failing(err: string)
    | Sending(err: string)
    | Ended(sent: Option<string>)

  /** One call of FetchNow: a goroutine per source and the buffered error channel they share. */
  datatype Round = Round(fetchers: map<IssuerID, Phase>, channel: seq<string>, returned: Option<Option<string>>)

  datatype Attempt = Attempt(source: string, err: Option<string>, latencyMs: int, at: int, round: nat, id: IssuerID)

  datatype Machine = Machine(cache: Cache, rounds: seq<Round>, log: seq<Attempt>)

  datatype Step =
    | Start
    | Reply(r: nat, id: IssuerID, reply: Result<seq<Byte>, string>)
    | Validate(r: nat, id: IssuerID, now: int)
    | Store(r: nat, id: IssuerID, now: int)
    | Record(r: nat, id: IssuerID, latencyMs: int, now: int)
    | Send(r: nat, id: IssuerID)
    | Return(r: nat)

  predicate At(m: Machine, r: nat, id: IssuerID) {
    r < |m.rounds| && id in m.rounds[r].fetchers
  }

  predicate Enabled(sources: map<IssuerID, string>, m: Machine, s: Step) {
    match s
    case Start => sources != map[]
    case Reply(r, id, _) => At(m, r, id) && m.rounds[r].fetchers[id].Waiting?
    case Validate(r, id, _) => At(m, r, id) && m.rounds[r].fetchers[id].Replied?
    case Store(r, id, _) => At(m, r, id) && m.rounds[r].fetchers[id].Validated?
    case Record(r, id, _, _) =>
      At(m, r, id) && id in sources && (m.rounds[r].fetchers[id].Stored? || m.rounds[r].fetchers[id].Failing?)
    case Send(r, id) =>
      At(m, r, id) && id in sources && m.rounds[r].fetchers[id].Sending? && |m.rounds[r].channel| < |sources|
    case Return(r) =>
      r < |m.rounds| && m.rounds[r].returned.None?
      && forall id :: id in m.rounds[r].fetchers ==> m.rounds[r].fetchers[id].Ended?
  }

  function Move(m: Machine, r: nat, id: IssuerID, p: Phase): Machine
    requires At(m, r, id)
  {
    m.(rounds := m.rounds[r := m.rounds[r].(fetchers := m.rounds[r].fetchers[id := p])])
  }

  function Judge(w: World, id: IssuerID, reply: Result<seq<Byte>, string>, now: int): Phase {
    match reply
    case Err(e) => Failing(e)
    case Ok(der) =>
      match Accept(w, id, der, SOURCE_HTTPS, now)
      case Err(e) => Failing(w.describe(e))
      case Ok(rec) => Validated(rec)
  }

  function Apply(w: World, sources: map<IssuerID, string>, m: Machine, s: Step): Machine
    requires Enabled(sources, m, s)
  {
    match s
    case Start => m.(rounds := m.rounds + [Round(map id | id in sources :: Waiting, [], None)])
    case Reply(r, id, reply) => Move(m, r, id, Replied(reply))
    case Validate(r, id, now) => Move(m, r, id, Judge(w, id, m.rounds[r].fetchers[id].reply, now))
    case Store(r, id, now) =>
      Move(m, r, id, Stored).(cache := SetCert(m.cache, id, m.rounds[r].fetchers[id].rec, now))
    case Record(r, id, latencyMs, now) =>
      (match m.rounds[r].fetchers[id]
       case Failing(e) =>
         Move(m, r, id, Sending(e)).(cache := RecordAttempt(m.cache, sources[id], latencyMs, Some(e), now),
                                     log := m.log + [Attempt(sources[id], Some(e), latencyMs, now, r, id)])
       case _ =>
         Move(m, r, id, Ended(None)).(cache := RecordAttempt(m.cache, sources[id], latencyMs, None, now),
                                      log := m.log + [Attempt(sources[id], None, latencyMs, now, r, id)]))
    case Send(r, id) =>
      var e := m.rounds[r].fetchers[id].err;
      var moved := Move(m, r, id, Ended(Some(e)));
      moved.(rounds := moved.rounds[r := moved.rounds[r].(channel := m.rounds[r].channel + [SmtProvider.Wrap(sources[id], e)])])
    case Return(r) =>
      m.(rounds := m.rounds[r := m.rounds[r].(returned := Some(SmtProvider.Join(m.rounds[r].channel)))])
  }

  /** A provider starts from the embedded certificates, or not at all. */
  function After(w: World, sources: map<IssuerID, string>, start: int, steps: seq<Step>): Option<Machine>
    decreases |steps|
  {
    if steps == [] then
      match LoadEmbedded(w, start)
      case Err(_) => None
      case Ok(certs) => Some(Machine(Cache(certs, start, None, "", 0, map[]), [], []))
    else
      match After(w, sources, start, steps[..|steps| - 1])
      case None => None
      case Some(m) =>
        if Enabled(sources, m, steps[|steps| - 1]) then Some(Apply(w, sources, m, steps[|steps| - 1])) else None
  }

  /** A record that validation of some bytes produced, at its own FetchedAt. */
  ghost predicate Genuine(w: World, id: IssuerID, rec: CertRecord) {
    exists der :: Accept(w, id, der, rec.source, rec.fetchedAt) == Ok(rec)
  }

  function TrailingFailures(log: seq<Attempt>): nat {
    if log == [] || log[|log| - 1].err.None? then 0 else TrailingFailures(log[..|log| - 1]) + 1
  }

  function AttemptsOf(log: seq<Attempt>, source: string): nat {
    if log == [] then 0
    else AttemptsOf(log[..|log| - 1], source) + (if log[|log| - 1].source == source then 1 else 0)
  }

  function Senders(f: map<IssuerID, Phase>): set<IssuerID> {
    set id | id in f && f[id].Ended? && f[id].sent.Some?
  }

  ghost predicate RoundInv(w: World, sources: map<IssuerID, string>, r: Round) {
    && r.fetchers.Keys == sources.Keys
    && |r.channel| == |Senders(r.fetchers)|
    && (forall id :: id in r.fetchers && r.fetchers[id].Validated? ==> Genuine(w, id, r.fetchers[id].rec))
    && (r.returned.Some? ==>
          && (forall id :: id in r.fetchers ==> r.fetchers[id].Ended?)
          && (r.returned.value.Some? <==> Senders(r.fetchers) != {}))
  }

  ghost predicate AnchorsInv(w: World, c: Cache) {
    c.certs.Keys == {G2, G3} && forall id :: id in c.certs ==> Genuine(w, id, c.certs[id])
  }

  function TextOf(err: Option<string>): string {
    if err.Some? then err.value else ""
  }

  /** What the last attempt at this source left behind. */
  function LastStat(log: seq<Attempt>, source: string): SmtProvider.AttemptStat {
    if log == [] then SmtProvider.AttemptStat(0, 0, "")
    else
      var a := log[|log| - 1];
      if a.source == source then SmtProvider.AttemptStat(AttemptsOf(log, source), a.latencyMs, TextOf(a.err))
      else LastStat(log[..|log| - 1], source)
  }

  /** Counts are conserved, and the rest of the status is that of the last attempt in lock order. */
  ghost predicate CountersInv(c: Cache, log: seq<Attempt>) {
    && c.consecutiveFail == TrailingFailures(log)
    && (if log == [] then c.lastError == "" && c.lastAttemptAt == None
        else c.lastError == TextOf(log[|log| - 1].err) && c.lastAttemptAt == Some(log[|log| - 1].at))
    && (forall s :: (s in c.attempts <==> AttemptsOf(log, s) > 0) && (s in c.attempts ==> c.attempts[s] == LastStat(log, s)))
    && (forall s :: LastStat(log, s).count == AttemptsOf(log, s))
  }

  ghost predicate Logged(log: seq<Attempt>, round: nat, id: IssuerID, ok: bool) {
    exists k :: 0 <= k < |log| && log[k].round == round && log[k].id == id && log[k].err.None? == ok
  }

  /** A goroutine has an error to report exactly if its attempt was recorded as failed. */
  ghost predicate OutcomeLogged(log: seq<Attempt>, round: nat, id: IssuerID, p: Phase) {
    && (Logged(log, round, id, false) <==> p.Sending? || (p.Ended? && p.sent.Some?))
    && (Logged(log, round, id, true) <==> p.Ended? && p.sent.None?)
  }

  ghost predicate LogInv(rounds: seq<Round>, log: seq<Attempt>) {
    && (forall k :: 0 <= k < |log| ==> log[k].round < |rounds| && log[k].id in rounds[log[k].round].fetchers)
    && (forall r, id :: 0 <= r < |rounds| && id in rounds[r].fetchers ==> OutcomeLogged(log, r, id, rounds[r].fetchers[id]))
  }

  ghost predicate Inv(w: World, sources: map<IssuerID, string>, m: Machine) {
    && AnchorsInv(w, m.cache)
    && CountersInv(m.cache, m.log)
    && LogInv(m.rounds, m.log)
    && (forall r :: 0 <= r < |m.rounds| ==> RoundInv(w, sources, m.rounds[r]))
  }

  lemma StartGenuine(w: World, start: int)
    requires LoadEmbedded(w, start).Ok?
    ensures var c := LoadEmbedded(w, start).value;
            c.Keys == {G2, G3} && forall id :: id in c ==> Accept(w, id, w.embedded(id), SOURCE_EMBEDDED, start) == Ok(c[id])
  {
  }

  lemma MoveKeepsRound(w: World, sources: map<IssuerID, string>, r: Round, id: IssuerID, p: Phase)
    requires RoundInv(w, sources, r) && id in r.fetchers && !r.fetchers[id].Ended?
    requires p.Ended? ==> p.sent.None?
    requires p.Validated? ==> Genuine(w, id, p.rec)
    ensures RoundInv(w, sources, r.(fetchers := r.fetchers[id := p]))
  {
    assert Senders(r.fetchers[id := p]) == Senders(r.fetchers);
    assert r.fetchers[id := p].Keys == r.fetchers.Keys;
  }

  lemma SendKeepsRound(w: World, sources: map<IssuerID, string>, r: Round, id: IssuerID, e: string, wrapped: string)
    requires RoundInv(w, sources, r) && id in r.fetchers && !r.fetchers[id].Ended?
    ensures RoundInv(w, sources, Round(r.fetchers[id := Ended(Some(e))], r.channel + [wrapped], r.returned))
  {
    assert Senders(r.fetchers[id := Ended(Some(e))]) == Senders(r.fetchers) + {id};
    assert r.fetchers[id := Ended(Some(e))].Keys == r.fetchers.Keys;
  }

  lemma JudgeIsGenuine(w: World, id: IssuerID, reply: Result<seq<Byte>, string>, now: int)
    requires Judge(w, id, reply, now).Validated?
    ensures Genuine(w, id, Judge(w, id, reply, now).rec)
  {
    AcceptMeaning(w, id, reply.value, SOURCE_HTTPS, now);
    assert Accept(w, id, reply.value, SOURCE_HTTPS, now) == Ok(Judge(w, id, reply, now).rec);
  }

  lemma ChangedRoundInv(w: World, sources: map<IssuerID, string>, m: Machine, s: Step)
    requires Inv(w, sources, m) && Enabled(sources, m, s) && !s.Start?
    ensures RoundInv(w, sources, Apply(w, sources, m, s).rounds[s.r])
  {
    hide AnchorsInv, CountersInv, LogInv, Accept;
    var before := m.rounds[s.r];
    assert RoundInv(w, sources, before);
    match s {
      case Reply(_, id, reply) => MoveKeepsRound(w, sources, before, id, Replied(reply));
      case Validate(_, id, now) =>
        var p := Judge(w, id, before.fetchers[id].reply, now);
        if p.Validated? {
          JudgeIsGenuine(w, id, before.fetchers[id].reply, now);
        }
        MoveKeepsRound(w, sources, before, id, p);
      case Store(_, id, _) => MoveKeepsRound(w, sources, before, id, Stored);
      case Record(_, id, _, _) =>
        var p := before.fetchers[id];
        MoveKeepsRound(w, sources, before, id, if p.Failing? then Sending(p.err) else Ended(None));
      case Send(_, id) => SendKeepsRound(w, sources, before, id, before.fetchers[id].err, SmtProvider.Wrap(sources[id], before.fetchers[id].err));
      case Return(_) =>
    }
  }

  lemma OtherRoundsUntouched(w: World, sources: map<IssuerID, string>, m: Machine, s: Step)
    requires Enabled(sources, m, s) && !s.Start?
    ensures var rounds := Apply(w, sources, m, s).rounds;
            |rounds| == |m.rounds| && forall r :: 0 <= r < |rounds| && r != s.r ==> rounds[r] == m.rounds[r]
  {
  }

  lemma RoundsKeepInv(w: World, sources: map<IssuerID, string>, m: Machine, s: Step)
    requires Inv(w, sources, m) && Enabled(sources, m, s)
    ensures var rounds := Apply(w, sources, m, s).rounds;
            forall r :: 0 <= r < |rounds| ==> RoundInv(w, sources, rounds[r])
  {
    hide AnchorsInv, CountersInv, LogInv, Accept;
    if s.Start? {
      assert Senders(map id | id in sources :: Waiting) == {};
    } else {
      ChangedRoundInv(w, sources, m, s);
      OtherRoundsUntouched(w, sources, m, s);
      hide RoundInv, Apply;
    }
  }

  lemma StoreKeepsAnchors(w: World, c: Cache, id: IssuerID, rec: CertRecord, now: int)
    requires AnchorsInv(w, c) && Genuine(w, id, rec)
    ensures AnchorsInv(w, SetCert(c, id, rec, now))
  {
    assert id.G2? || id.G3?;
  }

  lemma RecordKeepsAnchors(w: World, c: Cache, a: Attempt)
    requires AnchorsInv(w, c)
    ensures AnchorsInv(w, RecordAttempt(c, a.source, a.latencyMs, a.err, a.at))
  {
    hide Genuine;
  }

  /** What one more attempt does to the figures told from the log. */
  lemma FiguresGrow(log: seq<Attempt>, a: Attempt)
    ensures TrailingFailures(log + [a]) == if a.err.None? then 0 else TrailingFailures(log) + 1
    ensures forall s :: AttemptsOf(log + [a], s) == AttemptsOf(log, s) + (if a.source == s then 1 else 0)
    ensures forall s :: LastStat(log + [a], s) ==
              if a.source == s then SmtProvider.AttemptStat(AttemptsOf(log, s) + 1, a.latencyMs, TextOf(a.err)) else LastStat(log, s)
  {
    assert (log + [a])[..|log|] == log;
  }

  lemma RecordKeepsCounters(c: Cache, log: seq<Attempt>, a: Attempt)
    requires CountersInv(c, log)
    ensures CountersInv(RecordAttempt(c, a.source, a.latencyMs, a.err, a.at), log + [a])
  {
    FiguresGrow(log, a);
    hide TrailingFailures, AttemptsOf, LastStat;
    assert (log + [a])[|log|] == a;
  }

  /** One more attempt in the log adds its own outcome and no other. */
  lemma LoggedMore(log: seq<Attempt>, a: Attempt)
    ensures forall round, id, ok ::
              Logged(log + [a], round, id, ok) <==> Logged(log, round, id, ok) || (a.round == round && a.id == id && a.err.None? == ok)
  {
    forall round, id, ok
      ensures Logged(log + [a], round, id, ok) <==> Logged(log, round, id, ok) || (a.round == round && a.id == id && a.err.None? == ok)
    {
      if Logged(log, round, id, ok) {
        var k :| 0 <= k < |log| && log[k].round == round && log[k].id == id && log[k].err.None? == ok;
        assert (log + [a])[k] == log[k];
      } else if a.round == round && a.id == id && a.err.None? == ok {
        assert (log + [a])[|log|] == a;
      }
    }
  }

  lemma LogKept(w: World, sources: map<IssuerID, string>, m: Machine, s: Step)
    requires LogInv(m.rounds, m.log) && Enabled(sources, m, s)
    ensures var t := Apply(w, sources, m, s); LogInv(t.rounds, t.log)
  {
    if s.Start? {
      RoundStarted(m.rounds, m.log, Round(map id | id in sources :: Waiting, [], None));
    } else if s.Record? {
      hide LogInv, RecordAttempt;
      var p := m.rounds[s.r].fetchers[s.id];
      PhaseRecorded(m.rounds, m.log, s.r, s.id, if p.Failing? then Sending(p.err) else Ended(None),
                    Attempt(sources[s.id], if p.Failing? then Some(p.err) else None, s.latencyMs, s.now, s.r, s.id));
    } else {
      hide LogInv, Accept, Judge, SetCert;
      var t := Apply(w, sources, m, s);
      PhasesQuiet(m.rounds, m.log, s.r, t.rounds[s.r]);
    }
  }

  lemma RoundStarted(rounds: seq<Round>, log: seq<Attempt>, round: Round)
    requires LogInv(rounds, log) && forall id :: id in round.fetchers ==> round.fetchers[id].Waiting?
    ensures LogInv(rounds + [round], log)
  {
  }

  /** Steps that record nothing change no outcome. */
  lemma PhasesQuiet(rounds: seq<Round>, log: seq<Attempt>, r: nat, round: Round)
    requires LogInv(rounds, log) && r < |rounds| && round.fetchers.Keys == rounds[r].fetchers.Keys
    requires forall id :: id in round.fetchers ==> SameOutcome(rounds[r].fetchers[id], round.fetchers[id])
    ensures LogInv(rounds[r := round], log)
  {
    hide Logged;
    forall id | id in round.fetchers ensures OutcomeLogged(log, r, id, round.fetchers[id]) {
      assert OutcomeLogged(log, r, id, rounds[r].fetchers[id]);
    }
  }

  predicate SameOutcome(p: Phase, p': Phase) {
    && ((p.Sending? || (p.Ended? && p.sent.Some?)) <==> (p'.Sending? || (p'.Ended? && p'.sent.Some?)))
    && ((p.Ended? && p.sent.None?) <==> (p'.Ended? && p'.sent.None?))
  }

  lemma PhaseRecorded(rounds: seq<Round>, log: seq<Attempt>, r: nat, id: IssuerID, p: Phase, a: Attempt)
    requires LogInv(rounds, log) && r < |rounds| && id in rounds[r].fetchers && a.round == r && a.id == id
    requires !rounds[r].fetchers[id].Sending? && !rounds[r].fetchers[id].Ended?
    requires if a.err.None? then p == Ended(None) else p.Sending?
    ensures LogInv(rounds[r := rounds[r].(fetchers := rounds[r].fetchers[id := p])], log + [a])
  {
    LoggedMore(log, a);
    hide Logged;
    assert OutcomeLogged(log, r, id, rounds[r].fetchers[id]);
  }

  lemma AnchorsAndCountersKept(w: World, sources: map<IssuerID, string>, m: Machine, s: Step)
    requires Inv(w, sources, m) && Enabled(sources, m, s)
    ensures var t := Apply(w, sources, m, s); AnchorsInv(w, t.cache) && CountersInv(t.cache, t.log)
  {
    hide AnchorsInv, CountersInv, LogInv, Genuine, Judge, SetCert, RecordAttempt;
    if s.Store? {
      assert RoundInv(w, sources, m.rounds[s.r]);
      StoreKeepsAnchors(w, m.cache, s.id, m.rounds[s.r].fetchers[s.id].rec, s.now);
      CountersIgnoreRecords(m.cache, m.log, s.id, m.rounds[s.r].fetchers[s.id].rec, s.now);
    } else if s.Record? {
      hide RoundInv;
      var p := m.rounds[s.r].fetchers[s.id];
      var a := Attempt(sources[s.id], if p.Failing? then Some(p.err) else None, s.latencyMs, s.now, s.r, s.id);
      RecordKeepsAnchors(w, m.cache, a);
      RecordKeepsCounters(m.cache, m.log, a);
    }
  }

  lemma CountersIgnoreRecords(c: Cache, log: seq<Attempt>, id: IssuerID, rec: CertRecord, now: int)
    requires CountersInv(c, log)
    ensures CountersInv(SetCert(c, id, rec, now), log)
  {
  }

  lemma StepKeepsInv(w: World, sources: map<IssuerID, string>, m: Machine, s: Step)
    requires Inv(w, sources, m) && Enabled(sources, m, s)
    ensures Inv(w, sources, Apply(w, sources, m, s))
  {
    hide Apply, AnchorsInv, CountersInv, LogInv, RoundInv;
    RoundsKeepInv(w, sources, m, s);
    LogKept(w, sources, m, s);
    AnchorsAndCountersKept(w, sources, m, s);
  }

  /** Whatever is fetched and however fetches interleave, both anchors stay and stay genuine, and the counters are true. */
  lemma {:induction false} EveryRun(w: World, sources: map<IssuerID, string>, start: int, steps: seq<Step>)
    requires After(w, sources, start, steps).Some?
    ensures Inv(w, sources, After(w, sources, start, steps).value)
    decreases |steps|
  {
    if steps == [] {
      StartGenuine(w, start);
      var c := LoadEmbedded(w, start).value;
      forall id | id in c ensures Genuine(w, id, c[id]) {
        assert Accept(w, id, w.embedded(id), SOURCE_EMBEDDED, start) == Ok(c[id]);
        AcceptMeaning(w, id, w.embedded(id), SOURCE_EMBEDDED, start);
      }
    } else {
      EveryRun(w, sources, start, steps[..|steps| - 1]);
      StepKeepsInv(w, sources, After(w, sources, start, steps[..|steps| - 1]).value, steps[|steps| - 1]);
    }
  }

  /**
   If no other bytes hash to an embedded certificate's fingerprint, refreshing never
   changes the trusted key: only where and when the record was obtained.
   */
  lemma AnchorsNeverDrift(w: World, sources: map<IssuerID, string>, start: int, steps: seq<Step>, id: IssuerID)
    requires After(w, sources, start, steps).Some?
    requires forall der :: w.sha256(der) == w.sha256(w.embedded(id)) ==> der == w.embedded(id)
    ensures After(w, sources, start, []).Some? && id in After(w, sources, start, []).value.cache.certs
    ensures id in After(w, sources, start, steps).value.cache.certs
    ensures var first, now := After(w, sources, start, []).value.cache.certs[id], After(w, sources, start, steps).value.cache.certs[id];
            && now == first.(source := now.source, fetchedAt := now.fetchedAt)
            && now.sha256 == Pinned(id)
            && now.parsed.notBefore <= now.fetchedAt <= now.parsed.notAfter
  {
    assert id.G2? || id.G3?;
    StartLoaded(w, sources, start, steps);
    EveryRun(w, sources, start, steps);
    StartGenuine(w, start);
    GenuineIsEmbedded(w, id, After(w, sources, start, steps).value.cache.certs[id], start);
  }

  lemma GenuineIsEmbedded(w: World, id: IssuerID, rec: CertRecord, start: int)
    requires Genuine(w, id, rec) && Accept(w, id, w.embedded(id), SOURCE_EMBEDDED, start).Ok?
    requires forall der :: w.sha256(der) == w.sha256(w.embedded(id)) ==> der == w.embedded(id)
    ensures rec == Accept(w, id, w.embedded(id), SOURCE_EMBEDDED, start).value.(source := rec.source, fetchedAt := rec.fetchedAt)
    ensures rec.sha256 == Pinned(id) && rec.parsed.notBefore <= rec.fetchedAt <= rec.parsed.notAfter
  {
    var der :| Accept(w, id, der, rec.source, rec.fetchedAt) == Ok(rec);
    AcceptMeaning(w, id, der, rec.source, rec.fetchedAt);
    AcceptMeaning(w, id, w.embedded(id), SOURCE_EMBEDDED, start);
    assert w.sha256(der) == w.sha256(w.embedded(id));
  }

  lemma {:induction false} StartLoaded(w: World, sources: map<IssuerID, string>, start: int, steps: seq<Step>)
    requires After(w, sources, start, steps).Some?
    ensures LoadEmbedded(w, start).Ok?
    decreases |steps|
  {
    if steps != [] {
      StartLoaded(w, sources, start, steps[..|steps| - 1]);
    }
  }

  /** A refresh reports an error exactly if some source's attempt in it failed. */
  lemma FetchNowReports(w: World, sources: map<IssuerID, string>, start: int, steps: seq<Step>, r: nat)
    requires After(w, sources, start, steps).Some?
    requires r < |After(w, sources, start, steps).value.rounds| && After(w, sources, start, steps).value.rounds[r].returned.Some?
    ensures var m := After(w, sources, start, steps).value;
            m.rounds[r].returned.value.Some? <==> exists id :: id in sources && Logged(m.log, r, id, false)
  {
    EveryRun(w, sources, start, steps);
    var m := After(w, sources, start, steps).value;
    var round := m.rounds[r];
    hide After, Logged, AnchorsInv, CountersInv;
    assert RoundInv(w, sources, round);
    forall id ensures id in Senders(round.fetchers) <==> id in sources && Logged(m.log, r, id, false) {
      assert id in round.fetchers ==> OutcomeLogged(m.log, r, id, round.fetchers[id]);
    }
  }

  /** The channel has room for every goroutine: a failed fetch never blocks on reporting. */
  lemma SendNeverBlocks(w: World, sources: map<IssuerID, string>, start: int, steps: seq<Step>, r: nat, id: IssuerID)
    requires After(w, sources, start, steps).Some?
    requires At(After(w, sources, start, steps).value, r, id)
    requires After(w, sources, start, steps).value.rounds[r].fetchers[id].Sending?
    ensures Enabled(sources, After(w, sources, start, steps).value, Send(r, id))
  {
    EveryRun(w, sources, start, steps);
    var round := After(w, sources, start, steps).value.rounds[r];
    assert RoundInv(w, sources, round);
    assert id in sources.Keys - Senders(round.fetchers);
    assert Senders(round.fetchers) <= sources.Keys - {id};
    SubsetSize(Senders(round.fetchers), sources.Keys - {id});
    assert |sources.Keys - {id}| == |sources.Keys| - 1;
  }

  lemma {:induction false} SubsetSize<T>(a: set<T>, b: set<T>)
    requires a <= b
    ensures |a| <= |b|
    decreases |a|
  {
    if a != {} {
      var x :| x in a;
      SubsetSize(a - {x}, b - {x});
    }
  }

  // ------------------------------------------------- what the schedule says

  /** The bytes or error a goroutine was given. */
  function ReplyGiven(steps: seq<Step>, r: nat, id: IssuerID): Option<Result<seq<Byte>, string>> {
    if steps == [] then None
    else
      var last := steps[|steps| - 1];
      if last.Reply? && last.r == r && last.id == id then Some(last.reply) else ReplyGiven(steps[..|steps| - 1], r, id)
  }

  /** When it validated them. */
  function ValidatedAt(steps: seq<Step>, r: nat, id: IssuerID): Option<int> {
    if steps == [] then None
    else
      var last := steps[|steps| - 1];
      if last.Validate? && last.r == r && last.id == id then Some(last.now) else ValidatedAt(steps[..|steps| - 1], r, id)
  }

  /** What its own reply and clock come to: a record or an error. */
  function Judged(w: World, steps: seq<Step>, r: nat, id: IssuerID): Option<Result<CertRecord, string>> {
    match (ReplyGiven(steps, r, id), ValidatedAt(steps, r, id))
    case (Some(Err(e)), Some(_)) => Some(Err(e))
    case (Some(Ok(der)), Some(at)) =>
      (match Accept(w, id, der, SOURCE_HTTPS, at)
       case Ok(rec) => Some(Ok(rec))
       case Err(e) => Some(Err(w.describe(e))))
    case _ => None
  }

  function ErrorIn(v: Option<Result<CertRecord, string>>): Option<string> {
    if v.Some? && v.value.Err? then Some(v.value.error) else None
  }

  /** The attempts, in the order they were recorded, told from the steps alone. */
  function History(w: World, sources: map<IssuerID, string>, steps: seq<Step>): seq<Attempt> {
    if steps == [] then []
    else
      var init, last := steps[..|steps| - 1], steps[|steps| - 1];
      History(w, sources, init)
      + if last.Record? && last.id in sources
        then [Attempt(sources[last.id], ErrorIn(Judged(w, init, last.r, last.id)), last.latencyMs, last.now, last.r, last.id)] else []
  }

  /** The records and when they last changed: each stored one replaces its issuer's. */
  function CertsTold(w: World, first: Certs, start: int, steps: seq<Step>): (Certs, int) {
    if steps == [] then (first, start)
    else
      var init, last := steps[..|steps| - 1], steps[|steps| - 1];
      var before := CertsTold(w, first, start, init);
      if last.Store? && Judged(w, init, last.r, last.id).Some? && Judged(w, init, last.r, last.id).value.Ok?
      then (before.0[last.id := Judged(w, init, last.r, last.id).value.value], last.now) else before
  }

  /** The errors a round's goroutines reported, each under its source's name. */
  function Reported(w: World, sources: map<IssuerID, string>, steps: seq<Step>, r: nat): seq<string> {
    if steps == [] then []
    else
      var init, last := steps[..|steps| - 1], steps[|steps| - 1];
      Reported(w, sources, init, r)
      + if last.Send? && last.r == r && last.id in sources && ErrorIn(Judged(w, init, r, last.id)).Some?
        then [SmtProvider.Wrap(sources[last.id], ErrorIn(Judged(w, init, r, last.id)).value)] else []
  }

  /** A goroutine stands where its own steps have brought it. */
  ghost predicate StandsAt(w: World, steps: seq<Step>, r: nat, id: IssuerID, p: Phase) {
    match p
    case Waiting => ReplyGiven(steps, r, id) == None && ValidatedAt(steps, r, id) == None
    case Replied(reply) => ReplyGiven(steps, r, id) == Some(reply) && ValidatedAt(steps, r, id) == None
    case Validated(rec) => Judged(w, steps, r, id) == Some(Ok(rec))
    case Stored => Judged(w, steps, r, id).Some? && Judged(w, steps, r, id).value.Ok?
    case Failing(e) => Judged(w, steps, r, id) == Some(Err(e))
    case Sending(e) => Judged(w, steps, r, id) == Some(Err(e))
    case Ended(sent) =>
      Judged(w, steps, r, id).Some? && ErrorIn(Judged(w, steps, r, id)) == sent
  }

  ghost predicate RoundStands(w: World, sources: map<IssuerID, string>, steps: seq<Step>, r: nat, round: Round) {
    && (forall id :: id in round.fetchers ==> StandsAt(w, steps, r, id, round.fetchers[id]))
    && round.channel == Reported(w, sources, steps, r)
    && (round.returned.Some? ==> round.returned.value == SmtProvider.Join(round.channel))
  }

  ghost predicate OnSchedule(w: World, sources: map<IssuerID, string>, first: Certs, start: int, steps: seq<Step>, m: Machine) {
    && m.log == History(w, sources, steps)
    && (m.cache.certs, m.cache.updatedAt) == CertsTold(w, first, start, steps)
    && (forall r: nat :: r < |m.rounds| ==> RoundStands(w, sources, steps, r, m.rounds[r]))
    && (forall r: nat, id :: r >= |m.rounds| ==> ReplyGiven(steps, r, id) == None && ValidatedAt(steps, r, id) == None)
    && (forall r: nat :: r >= |m.rounds| ==> Reported(w, sources, steps, r) == [])
  }

  /** What one more step adds. */
  lemma NextGiven(w: World, steps: seq<Step>, s: Step, r: nat, id: IssuerID)
    ensures ReplyGiven(steps + [s], r, id) == if s.Reply? && s.r == r && s.id == id then Some(s.reply) else ReplyGiven(steps, r, id)
    ensures ValidatedAt(steps + [s], r, id) == if s.Validate? && s.r == r && s.id == id then Some(s.now) else ValidatedAt(steps, r, id)
    ensures !((s.Reply? || s.Validate?) && s.r == r && s.id == id) ==> Judged(w, steps + [s], r, id) == Judged(w, steps, r, id)
  {
    assert (steps + [s])[..|steps|] == steps;
    hide Accept;
  }

  lemma NextTold(w: World, sources: map<IssuerID, string>, first: Certs, start: int, steps: seq<Step>, s: Step)
    ensures History(w, sources, steps + [s]) ==
            History(w, sources, steps)
            + if s.Record? && s.id in sources
              then [Attempt(sources[s.id], ErrorIn(Judged(w, steps, s.r, s.id)), s.latencyMs, s.now, s.r, s.id)] else []
    ensures var before := CertsTold(w, first, start, steps);
            CertsTold(w, first, start, steps + [s]) ==
            if s.Store? && Judged(w, steps, s.r, s.id).Some? && Judged(w, steps, s.r, s.id).value.Ok?
            then (before.0[s.id := Judged(w, steps, s.r, s.id).value.value], s.now) else before
    ensures forall r: nat :: Reported(w, sources, steps + [s], r) ==
              Reported(w, sources, steps, r)
              + if s.Send? && s.r == r && s.id in sources && ErrorIn(Judged(w, steps, r, s.id)).Some?
                then [SmtProvider.Wrap(sources[s.id], ErrorIn(Judged(w, steps, r, s.id)).value)] else []
  {
    assert (steps + [s])[..|steps|] == steps;
    hide Judged, SmtProvider.Wrap;
  }

  /** A goroutine that did not move stands where it stood. */
  lemma OtherStands(w: World, steps: seq<Step>, s: Step, r: nat, id: IssuerID, p: Phase)
    requires StandsAt(w, steps, r, id, p) && !((s.Reply? || s.Validate?) && s.r == r && s.id == id)
    ensures StandsAt(w, steps + [s], r, id, p)
  {
    NextGiven(w, steps, s, r, id);
    hide Judged, ReplyGiven, ValidatedAt;
  }

  /** The goroutine that moved. */
  lemma OwnStands(w: World, sources: map<IssuerID, string>, steps: seq<Step>, m: Machine, s: Step)
    requires Enabled(sources, m, s) && !s.Start? && !s.Return? && StandsAt(w, steps, s.r, s.id, m.rounds[s.r].fetchers[s.id])
    ensures StandsAt(w, steps + [s], s.r, s.id, Apply(w, sources, m, s).rounds[s.r].fetchers[s.id])
  {
    NextGiven(w, steps, s, s.r, s.id);
    hide ReplyGiven, ValidatedAt, Accept, RecordAttempt, SetCert, SmtProvider.Wrap;
  }

  /** What the step adds to the history is what the machine logs. */
  lemma LogTold(w: World, sources: map<IssuerID, string>, first: Certs, start: int, steps: seq<Step>, m: Machine, s: Step)
    requires OnSchedule(w, sources, first, start, steps, m) && Enabled(sources, m, s)
    ensures Apply(w, sources, m, s).log == History(w, sources, steps + [s])
  {
    NextTold(w, sources, first, start, steps, s);
    hide History, CertsTold, Reported, Judged, Judge, SmtProvider.Wrap, SmtProvider.Join, RecordAttempt, SetCert;
    if s.Record? {
      assert StandsAt(w, steps, s.r, s.id, m.rounds[s.r].fetchers[s.id]);
    }
  }

  lemma CertsKept(w: World, sources: map<IssuerID, string>, first: Certs, start: int, steps: seq<Step>, m: Machine, s: Step)
    requires OnSchedule(w, sources, first, start, steps, m) && Enabled(sources, m, s)
    ensures var cache := Apply(w, sources, m, s).cache; (cache.certs, cache.updatedAt) == CertsTold(w, first, start, steps + [s])
  {
    NextTold(w, sources, first, start, steps, s);
    hide History, CertsTold, Reported, Judged, Judge, SmtProvider.Wrap, SmtProvider.Join;
    if s.Store? {
      assert StandsAt(w, steps, s.r, s.id, m.rounds[s.r].fetchers[s.id]);
    }
  }

  lemma ChannelsTold(w: World, sources: map<IssuerID, string>, first: Certs, start: int, steps: seq<Step>, m: Machine, s: Step)
    requires OnSchedule(w, sources, first, start, steps, m) && Enabled(sources, m, s)
    ensures var rounds := Apply(w, sources, m, s).rounds;
            && (forall r: nat :: r < |m.rounds| ==> r < |rounds| && rounds[r].channel == Reported(w, sources, steps + [s], r))
            && (forall r: nat :: r >= |m.rounds| ==> Reported(w, sources, steps + [s], r) == [])
  {
    NextTold(w, sources, first, start, steps, s);
    if s.Send? {
      assert StandsAt(w, steps, s.r, s.id, m.rounds[s.r].fetchers[s.id]);
    }
    hide History, CertsTold, Reported, Judged, Judge, SmtProvider.Wrap, SmtProvider.Join, RecordAttempt, SetCert, StandsAt;
    forall r: nat | r < |m.rounds|
      ensures r < |Apply(w, sources, m, s).rounds| && Apply(w, sources, m, s).rounds[r].channel == Reported(w, sources, steps + [s], r)
    {
      assert RoundStands(w, sources, steps, r, m.rounds[r]);
    }
  }

  lemma RoundsStand(w: World, sources: map<IssuerID, string>, first: Certs, start: int, steps: seq<Step>, m: Machine, s: Step, r: nat)
    requires OnSchedule(w, sources, first, start, steps, m) && Enabled(sources, m, s) && Inv(w, sources, m)
    requires r < |Apply(w, sources, m, s).rounds|
    ensures var round := Apply(w, sources, m, s).rounds[r];
            && (forall id :: id in round.fetchers ==> StandsAt(w, steps + [s], r, id, round.fetchers[id]))
            && (round.returned.Some? ==> round.returned.value == SmtProvider.Join(round.channel))
  {
    hide History, CertsTold, Reported, StandsAt, Judge, RecordAttempt, SetCert, SmtProvider.Wrap, SmtProvider.Join, Accept,
      AnchorsInv, CountersInv, LogInv, Genuine, ReplyGiven, ValidatedAt;
    var t := Apply(w, sources, m, s);
    if r < |m.rounds| {
      assert RoundInv(w, sources, m.rounds[r]);
      forall id | id in t.rounds[r].fetchers ensures StandsAt(w, steps + [s], r, id, t.rounds[r].fetchers[id]) {
        assert StandsAt(w, steps, r, id, m.rounds[r].fetchers[id]);
        if !s.Start? && !s.Return? && s.r == r && s.id == id {
          OwnStands(w, sources, steps, m, s);
        } else {
          OtherStands(w, steps, s, r, id, m.rounds[r].fetchers[id]);
        }
      }
    } else {
      forall id | id in t.rounds[r].fetchers ensures StandsAt(w, steps + [s], r, id, t.rounds[r].fetchers[id]) {
        NextGiven(w, steps, s, r, id);
        NotYetMoved(w, steps + [s], r, id);
      }
    }
  }

  lemma NotYetMoved(w: World, steps: seq<Step>, r: nat, id: IssuerID)
    requires ReplyGiven(steps, r, id) == None && ValidatedAt(steps, r, id) == None
    ensures StandsAt(w, steps, r, id, Waiting)
  {
  }

  lemma ScheduleKept(w: World, sources: map<IssuerID, string>, first: Certs, start: int, steps: seq<Step>, m: Machine, s: Step)
    requires OnSchedule(w, sources, first, start, steps, m) && Enabled(sources, m, s) && Inv(w, sources, m)
    ensures OnSchedule(w, sources, first, start, steps + [s], Apply(w, sources, m, s))
  {
    hide History, CertsTold, Reported, RoundStands, Inv, Apply, Enabled, ReplyGiven, ValidatedAt;
    LogTold(w, sources, first, start, steps, m, s);
    CertsKept(w, sources, first, start, steps, m, s);
    ChannelsTold(w, sources, first, start, steps, m, s);
    NobodyBeyond(w, sources, m, s);
    var t := Apply(w, sources, m, s);
    forall r: nat | r < |t.rounds| ensures RoundStands(w, sources, steps + [s], r, t.rounds[r]) {
      OneRoundStands(w, sources, first, start, steps, m, s, r);
    }
    forall r: nat, id | r >= |t.rounds| ensures ReplyGiven(steps + [s], r, id) == None && ValidatedAt(steps + [s], r, id) == None {
      NextGiven(w, steps, s, r, id);
    }
  }

  lemma OneRoundStands(w: World, sources: map<IssuerID, string>, first: Certs, start: int, steps: seq<Step>, m: Machine, s: Step, r: nat)
    requires OnSchedule(w, sources, first, start, steps, m) && Enabled(sources, m, s) && Inv(w, sources, m)
    requires r < |Apply(w, sources, m, s).rounds|
    ensures RoundStands(w, sources, steps + [s], r, Apply(w, sources, m, s).rounds[r])
  {
    hide OnSchedule, History, CertsTold, Reported, StandsAt, SmtProvider.Join, Inv, Apply, Enabled, ReplyGiven, ValidatedAt;
    RoundsStand(w, sources, first, start, steps, m, s, r);
    ChannelsTold(w, sources, first, start, steps, m, s);
    NobodyBeyond(w, sources, m, s);
  }

  lemma NobodyBeyond(w: World, sources: map<IssuerID, string>, m: Machine, s: Step)
    requires Enabled(sources, m, s)
    ensures var rounds := Apply(w, sources, m, s).rounds;
            && |rounds| >= |m.rounds| && (forall r :: |m.rounds| <= r < |rounds| ==> rounds[r].channel == [])
            && (s.Reply? || s.Validate? ==> s.r < |rounds|)
  {
    hide Judge, RecordAttempt, SetCert, SmtProvider.Wrap, SmtProvider.Join;
  }

  lemma {:induction false} EverySchedule(w: World, sources: map<IssuerID, string>, start: int, steps: seq<Step>)
    requires After(w, sources, start, steps).Some?
    ensures LoadEmbedded(w, start).Ok?
    ensures OnSchedule(w, sources, LoadEmbedded(w, start).value, start, steps, After(w, sources, start, steps).value)
    decreases |steps|
  {
    hide Apply, Enabled, Inv, OnSchedule, LoadEmbedded;
    if steps == [] {
      StartScheduled(w, sources, start);
    } else {
      var init, s := steps[..|steps| - 1], steps[|steps| - 1];
      EverySchedule(w, sources, start, init);
      EveryRun(w, sources, start, init);
      assert init + [s] == steps;
      ScheduleKept(w, sources, LoadEmbedded(w, start).value, start, init, After(w, sources, start, init).value, s);
    }
  }

  /**
   For every interleaving of any number of refreshes, told from the replies, the clock
   readings and the order of the steps: which record each issuer has and since when,
   the attempts in lock order, and the error each refresh returns.
   */
  lemma ScheduleDecides(w: World, sources: map<IssuerID, string>, start: int, steps: seq<Step>)
    requires After(w, sources, start, steps).Some?
    ensures LoadEmbedded(w, start).Ok?
    ensures var m := After(w, sources, start, steps).value;
            && (m.cache.certs, m.cache.updatedAt) == CertsTold(w, LoadEmbedded(w, start).value, start, steps)
            && CountersInv(m.cache, History(w, sources, steps))
            && (forall r :: 0 <= r < |m.rounds| && m.rounds[r].returned.Some? ==>
                  m.rounds[r].returned.value == SmtProvider.Join(Reported(w, sources, steps, r)))
  {
    hide After, Inv, OnSchedule, LoadEmbedded, CertsTold, CountersInv, History, Reported;
    EverySchedule(w, sources, start, steps);
    EveryRun(w, sources, start, steps);
    LogOnSchedule(w, sources, start, steps);
    ReturnsOnSchedule(w, sources, LoadEmbedded(w, start).value, start, steps, After(w, sources, start, steps).value);
  }

  lemma ReturnsOnSchedule(w: World, sources: map<IssuerID, string>, first: Certs, start: int, steps: seq<Step>, m: Machine)
    requires OnSchedule(w, sources, first, start, steps, m)
    ensures (m.cache.certs, m.cache.updatedAt) == CertsTold(w, first, start, steps)
    ensures forall r :: 0 <= r < |m.rounds| && m.rounds[r].returned.Some? ==>
              m.rounds[r].returned.value == SmtProvider.Join(Reported(w, sources, steps, r))
  {
    hide CertsTold, History, Reported, StandsAt, SmtProvider.Join;
    forall r: nat | r < |m.rounds| && m.rounds[r].returned.Some?
      ensures m.rounds[r].returned.value == SmtProvider.Join(Reported(w, sources, steps, r))
    {
      assert RoundStands(w, sources, steps, r, m.rounds[r]);
    }
  }

  lemma LogOnSchedule(w: World, sources: map<IssuerID, string>, start: int, steps: seq<Step>)
    requires After(w, sources, start, steps).Some? && LoadEmbedded(w, start).Ok? && Inv(w, sources, After(w, sources, start, steps).value)
    requires OnSchedule(w, sources, LoadEmbedded(w, start).value, start, steps, After(w, sources, start, steps).value)
    ensures CountersInv(After(w, sources, start, steps).value.cache, History(w, sources, steps))
  {
    hide After, CountersInv, History, LoadEmbedded, AnchorsInv, LogInv, RoundInv, RoundStands, CertsTold;
  }

  lemma StartScheduled(w: World, sources: map<IssuerID, string>, start: int)
    requires After(w, sources, start, []).Some?
    ensures LoadEmbedded(w, start).Ok?
    ensures OnSchedule(w, sources, LoadEmbedded(w, start).value, start, [], After(w, sources, start, []).value)
  {
    hide LoadEmbedded;
  }

  // ------------------------------------------------------- one goroutine alone

  function Run(w: World, sources: map<IssuerID, string>, m: Machine, steps: seq<Step>): Option<Machine>
    decreases |steps|
  {
    if steps == [] then Some(m)
    else if Enabled(sources, m, steps[0]) then Run(w, sources, Apply(w, sources, m, steps[0]), steps[1..])
    else None
  }

  lemma OneStep(w: World, sources: map<IssuerID, string>, m: Machine, s: Step, rest: seq<Step>)
    requires Enabled(sources, m, s)
    ensures Run(w, sources, m, [s] + rest) == Run(w, sources, Apply(w, sources, m, s), rest)
  {
    hide Apply, Enabled;
    assert ([s] + rest)[1..] == rest;
  }

  /** The steps of one goroutine that is given this reply. */
  function FetchSteps(w: World, r: nat, id: IssuerID, reply: Result<seq<Byte>, string>, latencyMs: int, at: FetchTimes): seq<Step> {
    var judged := Judge(w, id, reply, at.validated);
    [Reply(r, id, reply), Validate(r, id, at.validated)]
    + (if judged.Validated? then [Store(r, id, at.stored)] else [])
    + [Record(r, id, latencyMs, at.recorded)]
    + (if judged.Validated? then [] else [Send(r, id)])
  }

  /** The machine and the method agree: a goroutine that nothing interrupts does to the cache what `FetchOne` does. */
  lemma AloneAsFetched(w: World, sources: map<IssuerID, string>, m: Machine, r: nat, id: IssuerID,
                       reply: Result<seq<Byte>, string>, latencyMs: int, at: FetchTimes)
    requires At(m, r, id) && id in sources && m.rounds[r].fetchers[id].Waiting? && |m.rounds[r].channel| < |sources|
    ensures var end := Run(w, sources, m, FetchSteps(w, r, id, reply, latencyMs, at));
            end.Some? && end.value.cache == FetchedOne(w, m.cache, id, sources[id], reply, latencyMs, at)
            && At(end.value, r, id) && end.value.rounds[r].fetchers[id].Ended?
  {
    hide Accept, RecordAttempt, SetCert, SmtProvider.Wrap, Run;
    var judged := Judge(w, id, reply, at.validated);
    var m1 := Apply(w, sources, m, Reply(r, id, reply));
    var m2 := Apply(w, sources, m1, Validate(r, id, at.validated));
    var record := Record(r, id, latencyMs, at.recorded);
    if judged.Validated? {
      var m3 := Apply(w, sources, m2, Store(r, id, at.stored));
      OneStep(w, sources, m, Reply(r, id, reply), [Validate(r, id, at.validated), Store(r, id, at.stored), record]);
      OneStep(w, sources, m1, Validate(r, id, at.validated), [Store(r, id, at.stored), record]);
      OneStep(w, sources, m2, Store(r, id, at.stored), [record]);
      OneStep(w, sources, m3, record, []);
      RunNothing(w, sources, Apply(w, sources, m3, record));
      assert FetchSteps(w, r, id, reply, latencyMs, at) == [Reply(r, id, reply)] + [Validate(r, id, at.validated), Store(r, id, at.stored), record];
      assert [Validate(r, id, at.validated), Store(r, id, at.stored), record] == [Validate(r, id, at.validated)] + [Store(r, id, at.stored), record];
      assert [Store(r, id, at.stored), record] == [Store(r, id, at.stored)] + [record];
      assert [record] == [record] + [];
    } else {
      var m3 := Apply(w, sources, m2, record);
      OneStep(w, sources, m, Reply(r, id, reply), [Validate(r, id, at.validated), record, Send(r, id)]);
      OneStep(w, sources, m1, Validate(r, id, at.validated), [record, Send(r, id)]);
      OneStep(w, sources, m2, record, [Send(r, id)]);
      OneStep(w, sources, m3, Send(r, id), []);
      RunNothing(w, sources, Apply(w, sources, m3, Send(r, id)));
      assert FetchSteps(w, r, id, reply, latencyMs, at) == [Reply(r, id, reply)] + [Validate(r, id, at.validated), record, Send(r, id)];
      assert [Validate(r, id, at.validated), record, Send(r, id)] == [Validate(r, id, at.validated)] + [record, Send(r, id)];
      assert [record, Send(r, id)] == [record] + [Send(r, id)];
      assert [Send(r, id)] == [Send(r, id)] + [];
    }
  }

  lemma RunNothing(w: World, sources: map<IssuerID, string>, m: Machine)
    ensures Run(w, sources, m, []) == Some(m)
  {
  }

  /** The next step of a goroutine that has not ended. */
  function NextOf(r: nat, id: IssuerID, p: Phase, reply: Result<seq<Byte>, string>, latencyMs: int, at: FetchTimes): Step
    requires !p.Ended?
  {
    match p
    case Waiting => Reply(r, id, reply)
    case Replied(_) => Validate(r, id, at.validated)
    case Validated(_) => Store(r, id, at.stored)
    case Stored => Record(r, id, latencyMs, at.recorded)
    case Failing(_) => Record(r, id, latencyMs, at.recorded)
    case Sending(_) => Send(r, id)
  }

  /** A refresh can always start, no goroutine is ever stuck, and a refresh whose goroutines have ended can return. */
  lemma NeverStuck(w: World, sources: map<IssuerID, string>, start: int, steps: seq<Step>, r: nat, id: IssuerID,
                   reply: Result<seq<Byte>, string>, latencyMs: int, at: FetchTimes)
    requires After(w, sources, start, steps).Some?
    ensures var m := After(w, sources, start, steps).value;
            && (sources != map[] ==> Enabled(sources, m, Start))
            && (At(m, r, id) && !m.rounds[r].fetchers[id].Ended? ==>
                  Enabled(sources, m, NextOf(r, id, m.rounds[r].fetchers[id], reply, latencyMs, at)))
            && (r < |m.rounds| && m.rounds[r].returned.None? && (forall i :: i in m.rounds[r].fetchers ==> m.rounds[r].fetchers[i].Ended?) ==>
                  Enabled(sources, m, Return(r)))
  {
    hide After, Inv, RoundInv, NextOf, Enabled, AnchorsInv, CountersInv, LogInv;
    var m := After(w, sources, start, steps).value;
    EveryRun(w, sources, start, steps);
    StartAndReturn(sources, m, r);
    if At(m, r, id) && !m.rounds[r].fetchers[id].Ended? {
      FetchersAreSources(w, sources, m, r);
      if m.rounds[r].fetchers[id].Sending? {
        SendNeverBlocks(w, sources, start, steps, r, id);
        SendIsNext(r, id, m.rounds[r].fetchers[id], reply, latencyMs, at);
      } else {
        NextEnabled(sources, m, r, id, reply, latencyMs, at);
      }
    }
  }

  lemma StartAndReturn(sources: map<IssuerID, string>, m: Machine, r: nat)
    ensures sources != map[] ==> Enabled(sources, m, Start)
    ensures r < |m.rounds| && m.rounds[r].returned.None? && (forall i :: i in m.rounds[r].fetchers ==> m.rounds[r].fetchers[i].Ended?) ==>
              Enabled(sources, m, Return(r))
  {
  }

  lemma FetchersAreSources(w: World, sources: map<IssuerID, string>, m: Machine, r: nat)
    requires Inv(w, sources, m) && r < |m.rounds|
    ensures m.rounds[r].fetchers.Keys == sources.Keys
  {
    hide AnchorsInv, CountersInv, LogInv;
    assert RoundInv(w, sources, m.rounds[r]);
  }

  lemma SendIsNext(r: nat, id: IssuerID, p: Phase, reply: Result<seq<Byte>, string>, latencyMs: int, at: FetchTimes)
    requires p.Sending?
    ensures NextOf(r, id, p, reply, latencyMs, at) == Send(r, id)
  {
  }

  lemma NextEnabled(sources: map<IssuerID, string>, m: Machine, r: nat, id: IssuerID,
                    reply: Result<seq<Byte>, string>, latencyMs: int, at: FetchTimes)
    requires At(m, r, id) && id in sources && !m.rounds[r].fetchers[id].Ended? && !m.rounds[r].fetchers[id].Sending?
    ensures Enabled(sources, m, NextOf(r, id, m.rounds[r].fetchers[id], reply, latencyMs, at))
  {
  }
}
