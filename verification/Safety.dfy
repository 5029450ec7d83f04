/**
 What every run of the whole server keeps: a request knows exactly what its checks have
 established, a transaction sees the tables plus its own statements, and redemption is
 exactly-once.
 */
module Safety {
  import opened Wrappers
  import opened Clock
  import opened Numerals
  import opened GoText
  import opened PublicInputs
  import opened SmtRoot
  import opened Store
  import opened LinkVerify
  import opened System
  import Limbs
  import SmtProvider
  import IssuerCert

  // ------------------------------------------------------ what a request knows

  /** The evidence is what the FFI linked for this very request, with the expected shape. */
  ghost predicate FromReply(proofType: string, reply: Option<Reply>, e: Evidence) {
    var k := LimbCount(ChainType(proofType));
    && reply == Some(Judged(true, e.signals)) && AreFields(e.signals)
    && ParsePublicInputs(Some(Publish(e.signals)), ChainType(proofType)) == Ok(e.parsed)
    && |e.signals.certChain| == k + 2 && |e.signals.userSig| == 4 && e.signals.certChain[0] == e.signals.userSig[0]
    && e.parsed.nullifier == FieldToHex(e.signals.userSig[1])
  }

  predicate Shaped(proofType: string, f: FieldSignals) {
    |f.certChain| == LimbCount(ChainType(proofType)) + 2 && |f.userSig| == 4
  }

  predicate RootMissed(proofType: string, f: FieldSignals, root: Root)
    requires Shaped(proofType, f)
  {
    f.certChain[LimbCount(ChainType(proofType)) + 1] != RootValue(root)
  }

  ghost predicate ModulusMissed(proofType: string, f: FieldSignals, modulus: nat)
    requires Shaped(proofType, f)
  {
    var limbs := f.certChain[1..LimbCount(ChainType(proofType)) + 1];
    !(Digits(limbs, Limbs.Radix()) && LE(limbs, Limbs.Radix()) == modulus)
  }

  predicate AppMissed(f: FieldSignals, appID: AppID)
    requires |f.userSig| == 4
  {
    f.userSig[2] != LE(appID, 256)
  }

  ghost predicate RootFact(proofType: string, e: Evidence) {
    && Shaped(proofType, e.signals) && e.root.Some?
    && e.reason == FirstReason(RootMissed(proofType, e.signals, e.root.value), false, false)
  }

  /** Both anchors are known, the record is genuine, and the reason so far is the first miss. */
  ghost predicate CertFact(w: IssuerCert.World, proofType: string, e: Evidence) {
    && Shaped(proofType, e.signals) && e.root.Some?
    && e.rec.Some? && IssuerCert.Genuine(w, IssuerForProofType(proofType), e.rec.value)
    && e.reason == FirstReason(RootMissed(proofType, e.signals, e.root.value), ModulusMissed(proofType, e.signals, e.rec.value.modulus), false)
  }

  /** Every check has passed, as integers. */
  ghost predicate Vouched(c: Config, proofType: string, reply: Option<Reply>, e: Evidence, key: string) {
    && FromReply(proofType, reply, e) && CertFact(c.world, proofType, e) && e.reason == ""
    && !AppMissed(e.signals, c.appID)
    && key == DecimalNat(e.signals.userSig[3])
  }

  /** Why a request was not verified: the FFI did not link, or this is the first check that missed. */
  ghost predicate Rejected(c: Config, proofType: string, reply: Option<Reply>, reason: string, seen: Option<Evidence>) {
    match seen
    case None =>
      reason == PROOF_INVALID && reply.Some? && reply.value.Judged? && !reply.value.linked && Links(reply.value.signals, false)
    case Some(e) =>
      && FromReply(proofType, reply, e) && CertFact(c.world, proofType, e) && reason != ""
      && reason == FirstReason(RootMissed(proofType, e.signals, e.root.value),
                               ModulusMissed(proofType, e.signals, e.rec.value.modulus), AppMissed(e.signals, c.appID))
  }

  /** A refused request had parsed public values of the expected shape. */
  ghost predicate Presented(proofType: string, reply: Option<Reply>) {
    reply.Some? && reply.value.Judged? && Shaped(proofType, reply.value.signals) && AreFields(reply.value.signals)
  }

  ghost predicate RequestInv(c: Config, q: Request) {
    match q.pc
    case Arrived => q.reply.None?
    case Parsed(e) => FromReply(q.proofType, q.reply, e) && e.reason == ""
    case RootRead(e) => FromReply(q.proofType, q.reply, e) && RootFact(q.proofType, e)
    case CertRead(e) => FromReply(q.proofType, q.reply, e) && CertFact(c.world, q.proofType, e)
    case Keyed(e, key) => Vouched(c, q.proofType, q.reply, e, key)
    case Looked(e, key, found, _) => Vouched(c, q.proofType, q.reply, e, key) && found.challenge == key
    case Passed(e, key) => Vouched(c, q.proofType, q.reply, e, key)
    case InTx(e, key, _) => Vouched(c, q.proofType, q.reply, e, key)
    case Finished(ending) =>
      && (ending.Recorded? ==> Vouched(c, q.proofType, q.reply, ending.evidence, ending.key))
      && (ending.NotVerified? ==> Rejected(c, q.proofType, q.reply, ending.reason, ending.seen))
      && (ending.Denied? || ending.TurnedAway? ==> Presented(q.proofType, q.reply))
  }

  lemma FfiKept(c: Config, q: Request, reply: Reply)
    requires q.pc.Arrived? && (reply.Judged? ==> AreFields(reply.signals) && Links(reply.signals, reply.linked))
    ensures RequestInv(c, q.(reply := Some(reply), pc := AfterFfi(q, reply)))
  {
    hide IsField;
    if AfterFfi(q, reply).Parsed? {
      SignalsMeaning(reply.signals, q.proofType);
    }
  }

  lemma RootKept(c: Config, q: Request, roots: SmtProvider.Roots)
    requires q.pc.Parsed? && RequestInv(c, q)
    ensures RequestInv(c, q.(pc := AfterRoot(q, roots)))
  {
    hide CheckSmtRoot, ParsePublicInputs, Publish, RootValue, AreFields;
    var id := IssuerForProofType(q.proofType);
    if id in roots {
      RootCheckDecides(q.pc.e.signals, q.proofType, roots[id]);
    } else {
      NoRootNoCheck(q.pc.e.parsed);
    }
  }

  lemma NoRootNoCheck(p: ParsedInputs)
    ensures CheckSmtRoot(p, None).Err?
  {
  }

  lemma NoCertNoCheck(p: ParsedInputs)
    ensures CheckIssuerModulus(p, None).Err?
  {
  }

  lemma CertKept(c: Config, q: Request, certs: IssuerCert.Certs)
    requires q.pc.RootRead? && RequestInv(c, q)
    requires forall id :: id in certs ==> IssuerCert.Genuine(c.world, id, certs[id])
    ensures RequestInv(c, q.(pc := AfterCert(q, certs)))
  {
    hide ParsePublicInputs, Publish, AreFields, Limbs.Radix, LE, IssuerCert.Genuine, CheckIssuerModulus;
    var id := IssuerForProofType(q.proofType);
    if id in certs {
      ModulusCheckDecides(c.world, q.pc.e.signals, q.proofType, certs[id]);
    } else {
      NoCertNoCheck(q.pc.e.parsed);
    }
  }

  lemma AppKept(c: Config, q: Request)
    requires q.pc.CertRead? && RequestInv(c, q)
    ensures RequestInv(c, q.(pc := AfterApp(q, c.appID)))
  {
    hide ParsePublicInputs, Publish, AreFields, NormalizeDecimal, DecimalNat, LE, FieldToHex, FirstReason, RootMissed, ModulusMissed,
      IssuerCert.Genuine;
    var e := q.pc.e;
    AppCheckDecides(e.signals, q.proofType, c.appID);
    ChallengeCheckMatches(e.signals, q.proofType);
    OneMoreReason(RootMissed(q.proofType, e.signals, e.root.value), ModulusMissed(q.proofType, e.signals, e.rec.value.modulus),
                  AppMissed(e.signals, c.appID));
  }

  lemma OneMoreReason(root: bool, modulus: bool, app: bool)
    ensures FirstReason(root, modulus, app) ==
            if app && FirstReason(root, modulus, false) == "" then APP_ID_MISMATCH else FirstReason(root, modulus, false)
    ensures FirstReason(root, modulus, app) == "" ==> !app
  {
  }

  /** A request that has its key also has a matching challenge, so the later comparison never misses. */
  lemma KeyMatches(c: Config, q: Request)
    requires RequestInv(c, q) && (q.pc.Keyed? || q.pc.Looked?)
    ensures CheckedChallenge(q.pc.e.parsed, q.pc.key).matches
  {
    hide CertFact, AppMissed;
    ChallengeCheckMatches(q.pc.e.signals, q.proofType);
  }

  /** How the comparison with the clock comes out, given that the challenge itself matches. */
  lemma CheckEarlyEffect(c: Config, s: State, r: nat)
    requires Enabled(c, s, CheckEarly(r)) && RequestInv(c, s.requests[r])
    ensures Apply(c, s, CheckEarly(r)) == Goto(s, r, Checked(s, s.requests[r].pc))
  {
    hide RequestInv, CheckedChallenge, EarlyRefusal;
    KeyMatches(c, s.requests[r]);
  }

  function Checked(s: State, pc: Pc): Pc
    requires pc.Keyed? || pc.Looked?
  {
    if pc.Looked? && EarlyRefusal(Some(pc.found), s.clock).Some? then
      Finished(TurnedAway(ChallengeExpired, LostUnexpired(s.wipes, pc.since, pc.found.expiresAt)))
    else Passed(pc.e, pc.key)
  }

  /** Looking up, entering a transaction and moving through it keep what is vouched for. */
  lemma VouchedCarries(c: Config, q: Request, pc: Pc)
    requires RequestInv(c, q)
    requires q.pc.Keyed? || q.pc.Looked? || q.pc.Passed? || q.pc.InTx?
    requires pc.Looked? || pc.Passed? || pc.InTx? ==> pc.e == q.pc.e && pc.key == q.pc.key
    requires pc.Looked? ==> pc.found.challenge == pc.key
    requires pc.Finished? ==> !pc.ending.NotVerified?
    requires pc.Finished? ==> (pc.ending.Recorded? ==> pc.ending == Recorded(q.pc.e, q.pc.key))
    requires pc.Looked? || pc.Passed? || pc.InTx? || pc.Finished?
    ensures RequestInv(c, q.(pc := pc))
  {
    hide CertFact, AppMissed, ParsePublicInputs, Publish, AreFields, FieldToHex, DecimalNat;
  }

  // ----------------------------------------------------------- the transaction

  ghost predicate StageInv(s: State, q: Request, work: Database)
    requires q.pc.InTx?
  {
    match q.pc.stage
    case Begun => work == s.db
    case Selected(at) =>
      work == s.db && q.pc.key in s.db.challenges && s.db.challenges[q.pc.key].consumedAt.None?
      && at <= s.db.challenges[q.pc.key].expiresAt && at <= s.clock
    case Inserted(at, row) =>
      RowOf(q, row) && at <= s.clock && Refusal(s.db, row.nullifier, row.challenge, at) == None
      && work == s.db.(verifications := s.db.verifications + [row])
    case Updated(at, row, consumedAt) =>
      RowOf(q, row) && at <= s.clock && Refusal(s.db, row.nullifier, row.challenge, at) == None
      && work == Redeemed(s.db, row, consumedAt)
  }

  ghost predicate RowOf(q: Request, row: VerificationRow)
    requires q.pc.InTx?
  {
    row == RowFor(q, row.verifiedAt).(verifiedAt := row.verifiedAt)
  }

  /** A transaction is open only on the held connection, and its working copy is the tables plus its own statements. */
  ghost predicate TxInv(s: State) {
    && (forall r :: 0 <= r < |s.requests| && s.requests[r].pc.InTx? ==> s.conn.Redeeming? && s.conn.r == r)
    && (match s.conn
        case Free => true
        case Redeeming(r, work) =>
          r < |s.requests| && s.requests[r].pc.InTx? && StageInv(s, s.requests[r], work)
        case Cleaning(deleted, work) =>
          deleted <= 2
          && work == (if deleted == 0 then s.db else if deleted == 1 then DeleteVerifications(s.db) else Database(map[], [])))
  }

  // ------------------------------------------------------------------- history

  /** The rows are the commits of this epoch, in order. */
  ghost predicate RowsAreCommits(db: Database, commits: seq<Committed>, epoch: nat, epochStart: nat) {
    && |commits| == epochStart + |db.verifications|
    && (forall i :: epochStart <= i < |commits| ==>
          commits[i].row == db.verifications[i - epochStart] && commits[i].epoch == epoch)
    && (forall i :: 0 <= i < epochStart ==> commits[i].epoch < epoch)
  }

  /** Within one epoch no two commits share a challenge or a nullifier. */
  ghost predicate ExactlyOnce(commits: seq<Committed>) {
    forall i, j :: 0 <= i < j < |commits| && commits[i].epoch == commits[j].epoch ==>
      commits[i].row.challenge != commits[j].row.challenge && commits[i].row.nullifier != commits[j].row.nullifier
  }

  /** The issue that a commit redeemed, unexpired when the transaction checked. */
  ghost predicate Redeems(issued: seq<Issued>, commit: Committed) {
    exists k :: 0 <= k < |issued| && issued[k].epoch == commit.epoch
      && commit.row.challenge == DecimalNat(issued[k].value) && commit.checkedAt <= issued[k].expiresAt
  }

  ghost predicate WasIssued(issued: seq<Issued>, epoch: nat, key: string, expiresAt: int) {
    exists k :: 0 <= k < |issued| && issued[k].epoch == epoch && key == DecimalNat(issued[k].value) && expiresAt == issued[k].expiresAt
  }

  /** A commit belongs to the request that finished with it. */
  ghost predicate CommitOf(requests: seq<Request>, commit: Committed) {
    && commit.r < |requests|
    && var q := requests[commit.r];
       q.pc.Finished? && q.pc.ending.Recorded?
       && commit.row.challenge == q.pc.ending.key
       && commit.row.nullifier == q.pc.ending.evidence.parsed.nullifier
       && commit.row.proofType == StoreKey(q.proofType) && commit.row.proof == None
  }

  predicate IsRecorded(q: Request) {
    q.pc.Finished? && q.pc.ending.Recorded?
  }

  ghost predicate CommitsMatchRequests(requests: seq<Request>, commits: seq<Committed>) {
    && (forall i :: 0 <= i < |commits| ==> CommitOf(requests, commits[i]))
    && (forall i, j :: 0 <= i < j < |commits| ==> commits[i].r != commits[j].r)
    && (forall r :: 0 <= r < |requests| && IsRecorded(requests[r]) ==> exists i :: 0 <= i < |commits| && commits[i].r == r)
  }

  ghost predicate IssuesKnown(db: Database, issued: seq<Issued>, epoch: nat) {
    && (forall key :: key in db.challenges ==> WasIssued(issued, epoch, key, db.challenges[key].expiresAt))
    && (forall k :: 0 <= k < |issued| ==> IsField(issued[k].value))
  }

  ghost predicate AllRedeem(issued: seq<Issued>, commits: seq<Committed>) {
    forall i :: 0 <= i < |commits| ==> Redeems(issued, commits[i])
  }

  ghost predicate AnchorInv(c: Config, s: State) {
    && SmtProvider.Inv(c.rootSources, s.roots)
    && IssuerCert.Inv(c.world, c.certSources, s.certs)
  }

  ghost predicate HistoryInv(s: State) {
    && Consistent(s.db)
    && RowsAreCommits(s.db, s.commits, s.epoch, s.epochStart)
    && ExactlyOnce(s.commits)
    && CommitsMatchRequests(s.requests, s.commits)
    && IssuesKnown(s.db, s.issued, s.epoch)
    && AllRedeem(s.issued, s.commits)
    && |s.wipes| == s.epoch
  }

  ghost predicate Inv(c: Config, s: State) {
    && AnchorInv(c, s)
    && RequestsInv(c, s.requests)
    && TxInv(s)
    && HistoryInv(s)
  }

  // ------------------------------------------------------ every step keeps them

  /** The checks on the proof itself: they read the FFI, the caches or the app-id. */
  predicate Freshens(st: Step) {
    st.Ffi? || st.ReadRoot? || st.ReadCert? || st.CompareApp?
  }

  /** The steps from the lookup on: they carry the evidence along. */
  predicate CarriesEvidence(st: Step) {
    st.Look? || st.CheckEarly? || st.BeginTx? || st.SelectRow? || st.InsertRow? || st.UpdateRow? || st.CommitTx?
  }

  predicate MovesRequest(st: Step) {
    Freshens(st) || CarriesEvidence(st)
  }

  /** A request's own step changes that request, the connection, the tables and the commits at most. */
  lemma OnlyThisMoves(c: Config, s: State, st: Step)
    requires Enabled(c, s, st) && MovesRequest(st)
    ensures var t := Apply(c, s, st);
            && t.requests == s.requests[st.r := t.requests[st.r]]
            && t == s.(requests := t.requests, conn := t.conn, db := t.db, commits := t.commits)
            && t.requests[st.r].proofType == s.requests[st.r].proofType
            && (Freshens(st) || st.Look? || st.CheckEarly? ==> t == s.(requests := t.requests))
            && (!st.CommitTx? ==> t == s.(requests := t.requests, conn := t.conn))
  {
    hide AfterFfi, AfterRoot, AfterCert, AfterApp, AfterLook, AfterCheck, InsertVerification, ConsumeChallenge, RowFor;
  }

  /** What such a step may do to its request: move it on with the same evidence, or end it. */
  predicate CarriedOn(st: Step, q: Request, p: Request) {
    && (q.pc.Keyed? || q.pc.Looked? || q.pc.Passed? || q.pc.InTx?)
    && p == q.(pc := p.pc)
    && (p.pc.Looked? || p.pc.Passed? || p.pc.InTx? || p.pc.Finished?)
    && (p.pc.Looked? || p.pc.Passed? || p.pc.InTx? ==> p.pc.e == q.pc.e && p.pc.key == q.pc.key)
    && (p.pc.Looked? ==> p.pc.found.challenge == p.pc.key)
    && (IsRecorded(p) ==> st.CommitTx? && p.pc.ending == Recorded(q.pc.e, q.pc.key))
    && (p.pc.Finished? && p.pc.ending.NotVerified? ==> st.CheckEarly?)
    && !(p.pc.Finished? && p.pc.ending.Failed?)
  }

  lemma EvidenceCarried(c: Config, s: State, st: Step)
    requires Enabled(c, s, st) && CarriesEvidence(st)
    ensures st.r < |Apply(c, s, st).requests| && CarriedOn(st, s.requests[st.r], Apply(c, s, st).requests[st.r])
  {
    if st.Look? || st.CheckEarly? || st.BeginTx? {
      CarriedToTx(c, s, st);
    } else if st.SelectRow? || st.InsertRow? {
      CarriedIntoTx(c, s, st);
    } else {
      CarriedOutOfTx(c, s, st);
    }
  }

  lemma CarriedToTx(c: Config, s: State, st: Step)
    requires Enabled(c, s, st) && (st.Look? || st.CheckEarly? || st.BeginTx?)
    ensures st.r < |Apply(c, s, st).requests| && CarriedOn(st, s.requests[st.r], Apply(c, s, st).requests[st.r])
  {
    hide EarlyRefusal, CheckedChallenge, LostUnexpired;
  }

  lemma CarriedIntoTx(c: Config, s: State, st: Step)
    requires Enabled(c, s, st) && (st.SelectRow? || st.InsertRow?)
    ensures st.r < |Apply(c, s, st).requests| && CarriedOn(st, s.requests[st.r], Apply(c, s, st).requests[st.r])
  {
    hide InsertVerification, RowFor;
  }

  lemma CarriedOutOfTx(c: Config, s: State, st: Step)
    requires Enabled(c, s, st) && (st.UpdateRow? || st.CommitTx?)
    ensures st.r < |Apply(c, s, st).requests| && CarriedOn(st, s.requests[st.r], Apply(c, s, st).requests[st.r])
  {
    hide ConsumeChallenge;
  }

  lemma FreshChecksKept(c: Config, s: State, st: Step)
    requires Enabled(c, s, st) && Freshens(st)
    requires AnchorInv(c, s) && RequestInv(c, s.requests[st.r])
    ensures RequestInv(c, Apply(c, s, st).requests[st.r])
  {
    hide RequestInv, AfterFfi, AfterRoot, AfterCert, AfterApp;
    var q := s.requests[st.r];
    match st {
      case Ffi(_, reply) => FfiKept(c, q, reply);
      case ReadRoot(_) =>
        RootKept(c, q, s.roots.cache.roots);
      case ReadCert(_) => CertKept(c, q, s.certs.cache.certs);
      case CompareApp(_) => AppKept(c, q);
    }
  }

  lemma CarriedEvidenceKept(c: Config, s: State, st: Step)
    requires Enabled(c, s, st) && CarriesEvidence(st)
    requires RequestInv(c, s.requests[st.r])
    ensures RequestInv(c, Apply(c, s, st).requests[st.r])
  {
    hide RequestInv, Apply, EarlyRefusal;
    OnlyThisMoves(c, s, st);
    EvidenceCarried(c, s, st);
    if st.CheckEarly? {
      CheckEarlyEffect(c, s, st.r);
    }
    VouchedCarries(c, s.requests[st.r], Apply(c, s, st).requests[st.r].pc);
  }

  ghost predicate RequestsInv(c: Config, requests: seq<Request>) {
    forall r :: 0 <= r < |requests| ==> RequestInv(c, requests[r])
  }

  lemma RequestsKept(c: Config, s: State, st: Step)
    requires AnchorInv(c, s) && RequestsInv(c, s.requests) && Enabled(c, s, st)
    ensures RequestsInv(c, Apply(c, s, st).requests)
  {
    hide RequestInv, Apply, AnchorInv;
    if MovesRequest(st) {
      OnlyThisMoves(c, s, st);
      if CarriesEvidence(st) {
        CarriedEvidenceKept(c, s, st);
      } else {
        FreshChecksKept(c, s, st);
      }
    } else {
      OthersLeaveRequests(c, s, st);
      NewcomerKept(c);
    }
  }

  lemma NewcomerKept(c: Config)
    ensures forall proofType :: RequestInv(c, Request(proofType, None, Arrived))
  {
  }

  /** Nobody else's step touches a request. */
  lemma OthersLeaveRequests(c: Config, s: State, st: Step)
    requires Enabled(c, s, st) && !MovesRequest(st)
    ensures var t := Apply(c, s, st);
            && (st.RefreshRoots? || t.roots == s.roots) && (st.RefreshCerts? || t.certs == s.certs)
            && t.requests == if st.Arrive? then s.requests + [Request(st.proofType, None, Arrived)] else s.requests
  {
    hide InsertChallenge, IssuedValue, DeleteChallenges, SmtProvider.Apply, IssuerCert.Apply;
  }

  lemma AnchorsKept(c: Config, s: State, st: Step)
    requires AnchorInv(c, s) && Enabled(c, s, st)
    ensures AnchorInv(c, Apply(c, s, st))
  {
    hide SmtProvider.Inv, IssuerCert.Inv, SmtProvider.Apply, IssuerCert.Apply;
    match st {
      case RefreshRoots(t) => SmtProvider.StepKeepsInv(c.rootSources, s.roots, t);
      case RefreshCerts(t) => IssuerCert.StepKeepsInv(c.world, c.certSources, s.certs, t);
      case _ =>
        hide Apply;
        if MovesRequest(st) {
          OnlyThisMoves(c, s, st);
        } else {
          OthersLeaveRequests(c, s, st);
        }
    }
  }

  /** Requests outside a transaction, and the clock, leave the open transaction as it is. */
  lemma QuietTxKept(s: State, t: State, r: nat)
    requires TxInv(s) && t.db == s.db && t.conn == s.conn && t.clock >= s.clock
    requires |t.requests| >= |s.requests| && r <= |s.requests|
    requires forall i :: 0 <= i < |s.requests| && i != r ==> t.requests[i] == s.requests[i]
    requires forall i :: |s.requests| <= i < |t.requests| ==> !t.requests[i].pc.InTx?
    requires r < |s.requests| ==> !s.requests[r].pc.InTx? && !t.requests[r].pc.InTx?
    ensures TxInv(t)
  {
    hide Refusal, Redeemed, RowOf;
  }

  lemma StageKept(s: State, t: State, r: nat)
    requires TxInv(s) && (HoldsTx(s, r) || s.conn.Free?) && r < |s.requests|
    requires |t.requests| == |s.requests|
    requires t.requests == s.requests[r := t.requests[r]] && t.requests[r].pc.InTx?
    requires t.conn.Redeeming? && t.conn.r == r && StageInv(t, t.requests[r], t.conn.work)
    ensures TxInv(t)
  {
    hide StageInv;
  }

  lemma SelectTxKept(s: State, r: nat, fails: bool)
    requires TxInv(s) && HoldsTx(s, r) && s.requests[r].pc.stage.Begun?
    ensures TxInv(ApplySelect(s, r, fails))
  {
    var t := ApplySelect(s, r, fails);
    if t.conn.Free? {
      hide StageInv;
    } else {
      StageKept(s, t, r);
    }
  }

  lemma InsertTxKept(s: State, r: nat, fails: bool)
    requires TxInv(s) && HoldsTx(s, r) && s.requests[r].pc.stage.Selected?
    ensures TxInv(ApplyInsert(s, r, fails))
  {
    var q := s.requests[r];
    var row := RowFor(q, s.clock);
    StatementsCompose(s.db, row, q.pc.stage.at, s.clock);
    var t := ApplyInsert(s, r, fails);
    if t.conn.Free? {
      hide StageInv;
    } else {
      assert StageInv(t, t.requests[r], t.conn.work);
      StageKept(s, t, r);
    }
  }

  lemma UpdateTxKept(s: State, r: nat, fails: bool)
    requires TxInv(s) && HoldsTx(s, r) && s.requests[r].pc.stage.Inserted?
    ensures TxInv(ApplyUpdate(s, r, fails))
  {
    var q := s.requests[r];
    StatementsCompose(s.db, q.pc.stage.row, q.pc.stage.at, s.clock);
    var t := ApplyUpdate(s, r, fails);
    if t.conn.Free? {
      hide StageInv;
    } else {
      assert StageInv(t, t.requests[r], t.conn.work);
      StageKept(s, t, r);
    }
  }

  lemma CommitTxKept(s: State, r: nat, fails: bool)
    requires TxInv(s) && HoldsTx(s, r) && s.requests[r].pc.stage.Updated?
    ensures TxInv(ApplyCommit(s, r, fails))
  {
    hide StageInv;
  }

  lemma OthersTxKept(c: Config, s: State, st: Step)
    requires TxInv(s) && Enabled(c, s, st) && !MovesRequest(st)
    ensures TxInv(Apply(c, s, st))
  {
    hide SmtProvider.Apply, IssuerCert.Apply, Refusal, Redeemed, RowOf, IssuedValue;
    var t := Apply(c, s, st);
    match st {
      case Tick(_) => QuietTxKept(s, t, |s.requests|);
      case Arrive(_) => QuietTxKept(s, t, |s.requests|);
      case RefreshRoots(_) => QuietTxKept(s, t, |s.requests|);
      case RefreshCerts(_) => QuietTxKept(s, t, |s.requests|);
      case _ =>
    }
  }

  lemma MovesTxKept(c: Config, s: State, st: Step)
    requires TxInv(s) && Enabled(c, s, st) && MovesRequest(st)
    ensures TxInv(Apply(c, s, st))
  {
    hide StageInv, TxInv, ApplySelect, ApplyInsert, ApplyUpdate, ApplyCommit, AfterFfi, AfterRoot, AfterCert, AfterApp, AfterLook, AfterCheck, Abort;
    if st.SelectRow? {
      SelectTxKept(s, st.r, st.fails);
    } else if st.InsertRow? {
      InsertTxKept(s, st.r, st.fails);
    } else if st.UpdateRow? {
      UpdateTxKept(s, st.r, st.fails);
    } else if st.CommitTx? {
      CommitTxKept(s, st.r, st.fails);
    } else if st.BeginTx? {
      BeginTxKept(s, st.r, st.fails, Apply(c, s, st));
    } else {
      OnlyThisMoves(c, s, st);
      NeverInTx(c, s, st);
      QuietTxKept(s, Apply(c, s, st), st.r);
    }
  }

  lemma NeverInTx(c: Config, s: State, st: Step)
    requires Enabled(c, s, st) && (Freshens(st) || st.Look? || st.CheckEarly?)
    ensures !s.requests[st.r].pc.InTx? && !Apply(c, s, st).requests[st.r].pc.InTx?
  {
    hide ParsePublicInputs, CheckSmtRoot, CheckIssuerModulus, NormalizeDecimal, CheckedChallenge, EarlyRefusal;
  }

  lemma BeginTxKept(s: State, r: nat, fails: bool, t: State)
    requires TxInv(s) && r < |s.requests| && s.requests[r].pc.Passed? && (fails || s.conn.Free?)
    requires t == if fails then Goto(s, r, Finished(Denied(Io(Begin))))
                  else Goto(s, r, InTx(s.requests[r].pc.e, s.requests[r].pc.key, Begun)).(conn := Redeeming(r, s.db))
    ensures TxInv(t)
  {
  }

  /** A step that neither records nor issues nor wipes leaves the history as it was. */
  lemma QuietHistoryKept(s: State, t: State)
    requires HistoryInv(s) && |t.requests| >= |s.requests|
    requires t.db == s.db && t.issued == s.issued && t.commits == s.commits && t.epoch == s.epoch && t.epochStart == s.epochStart && t.wipes == s.wipes
    requires forall i :: 0 <= i < |s.requests| && (IsRecorded(s.requests[i]) || IsRecorded(t.requests[i])) ==> t.requests[i] == s.requests[i]
    requires forall i :: |s.requests| <= i < |t.requests| ==> !IsRecorded(t.requests[i])
    ensures HistoryInv(t)
  {
    hide Consistent, ExactlyOnce, RowsAreCommits, IssuesKnown, AllRedeem;
    forall i | 0 <= i < |t.commits| ensures CommitOf(t.requests, t.commits[i]) {
      assert CommitOf(s.requests, s.commits[i]);
    }
  }

  /** The new row's challenge and nullifier occur in no earlier commit of the epoch. */
  lemma CommitIsNew(s: State, row: VerificationRow, at: int)
    requires HistoryInv(s) && Refusal(s.db, row.nullifier, row.challenge, at) == None
    ensures forall i :: 0 <= i < |s.commits| && s.commits[i].epoch == s.epoch ==>
              s.commits[i].row.challenge != row.challenge && s.commits[i].row.nullifier != row.nullifier
  {
    hide ExactlyOnce, CommitsMatchRequests, IssuesKnown, AllRedeem;
    forall i | 0 <= i < |s.commits| && s.commits[i].epoch == s.epoch
      ensures s.commits[i].row.challenge != row.challenge && s.commits[i].row.nullifier != row.nullifier
    {
      assert i >= s.epochStart;
      assert s.db.verifications[i - s.epochStart] == s.commits[i].row;
    }
  }

  lemma CommitRedeemsIssue(s: State, commit: Committed)
    requires IssuesKnown(s.db, s.issued, s.epoch) && commit.epoch == s.epoch
    requires Refusal(s.db, commit.row.nullifier, commit.row.challenge, commit.checkedAt) == None
    ensures Redeems(s.issued, commit)
  {
    assert WasIssued(s.issued, s.epoch, commit.row.challenge, s.db.challenges[commit.row.challenge].expiresAt);
  }

  lemma CommitHistoryKept(s: State, t: State, r: nat, commit: Committed, at: int)
    requires HistoryInv(s) && r < |s.requests| && !IsRecorded(s.requests[r]) && |t.requests| == |s.requests|
    requires t.requests == s.requests[r := t.requests[r]] && IsRecorded(t.requests[r])
    requires t.issued == s.issued && t.epoch == s.epoch && t.epochStart == s.epochStart && t.wipes == s.wipes
    requires t.commits == s.commits + [commit] && commit.r == r && commit.epoch == s.epoch && CommitOf(t.requests, commit)
    requires Refusal(s.db, commit.row.nullifier, commit.row.challenge, commit.checkedAt) == None
    requires t.db == Redeemed(s.db, commit.row, at)
    ensures HistoryInv(t)
  {
    RedeemKeepsConsistent(s.db, commit.row, commit.checkedAt, at);
    CommitRedeemsIssue(s, commit);
    CommitIsNew(s, commit.row, commit.checkedAt);
    CommitsExtended(s, t, r, commit);
    RowsExtended(s.db, s.commits, s.epoch, s.epochStart, commit, at);
    ExpiriesUnchanged(s.db, s.issued, s.epoch, commit.row, at);
    hide Consistent, Redeems, CommitsMatchRequests, IssuesKnown, RowsAreCommits, Redeemed, Refusal;
  }

  lemma RowsExtended(db: Database, commits: seq<Committed>, epoch: nat, epochStart: nat, commit: Committed, at: int)
    requires RowsAreCommits(db, commits, epoch, epochStart) && commit.epoch == epoch && commit.row.challenge in db.challenges
    ensures RowsAreCommits(Redeemed(db, commit.row, at), commits + [commit], epoch, epochStart)
  {
  }

  lemma ExpiriesUnchanged(db: Database, issued: seq<Issued>, epoch: nat, row: VerificationRow, at: int)
    requires IssuesKnown(db, issued, epoch) && row.challenge in db.challenges
    ensures IssuesKnown(Redeemed(db, row, at), issued, epoch)
  {
    hide WasIssued, IsField;
  }

  lemma CommitsExtended(s: State, t: State, r: nat, commit: Committed)
    requires CommitsMatchRequests(s.requests, s.commits)
    requires r < |s.requests| && !IsRecorded(s.requests[r]) && |t.requests| == |s.requests|
    requires t.requests == s.requests[r := t.requests[r]] && IsRecorded(t.requests[r])
    requires t.commits == s.commits + [commit] && commit.r == r && CommitOf(t.requests, commit)
    ensures CommitsMatchRequests(t.requests, t.commits)
  {
    forall i | 0 <= i < |t.commits| ensures CommitOf(t.requests, t.commits[i]) {
      if i < |s.commits| {
        assert CommitOf(s.requests, s.commits[i]);
      }
    }
    forall i | 0 <= i < |s.commits| ensures s.commits[i].r != r {
      assert CommitOf(s.requests, s.commits[i]);
    }
    forall q | 0 <= q < |t.requests| && IsRecorded(t.requests[q])
      ensures exists i :: 0 <= i < |t.commits| && t.commits[i].r == q
    {
      if q == r {
        assert t.commits[|s.commits|].r == q;
      } else {
        var i :| 0 <= i < |s.commits| && s.commits[i].r == q;
        assert t.commits[i].r == q;
      }
    }
  }

  lemma IssueHistoryKept(c: Config, s: State, random: Seed, reading: int, fails: bool)
    requires HistoryInv(s)
    ensures HistoryInv(ApplyIssue(c, s, random, reading, fails))
  {
    IssuedIsField(random);
    hide IssuedValue, IsField, DecimalNat, WholeSecond, CommitsMatchRequests, ExactlyOnce, AllRedeem, IssuesKnown, Consistent;
    var t := ApplyIssue(c, s, random, reading, fails);
    if t != s {
      var key, more := DecimalNat(IssuedValue(random)), t.issued[|s.issued|];
      IssueKeepsConsistent(s.db, key, ChallengeRow(WholeSecond(s.clock), more.expiresAt, None));
      IssuesExtended(s.db, s.issued, s.epoch, key, WholeSecond(s.clock), more);
      AllRedeemMonotone(s.issued, more, s.commits);
    }
  }

  lemma IssuesExtended(db: Database, issued: seq<Issued>, epoch: nat, key: string, at: int, more: Issued)
    requires IssuesKnown(db, issued, epoch) && IsField(more.value) && more.epoch == epoch && key == DecimalNat(more.value)
    ensures IssuesKnown(db.(challenges := db.challenges[key := ChallengeRow(at, more.expiresAt, None)]), issued + [more], epoch)
  {
    hide IsField, DecimalNat;
    var after := db.challenges[key := ChallengeRow(at, more.expiresAt, None)];
    forall k | k in after ensures WasIssued(issued + [more], epoch, k, after[k].expiresAt) {
      if k == key {
        assert (issued + [more])[|issued|] == more;
      } else {
        assert WasIssued(issued, epoch, k, after[k].expiresAt);
        var i :| 0 <= i < |issued| && issued[i].epoch == epoch && k == DecimalNat(issued[i].value) && after[k].expiresAt == issued[i].expiresAt;
        assert (issued + [more])[i] == issued[i];
      }
    }
  }

  lemma AllRedeemMonotone(issued: seq<Issued>, more: Issued, commits: seq<Committed>)
    requires AllRedeem(issued, commits)
    ensures AllRedeem(issued + [more], commits)
  {
    hide DecimalNat;
    forall i | 0 <= i < |commits| ensures Redeems(issued + [more], commits[i]) {
      assert Redeems(issued, commits[i]);
      var k :| 0 <= k < |issued| && issued[k].epoch == commits[i].epoch
               && commits[i].row.challenge == DecimalNat(issued[k].value) && commits[i].checkedAt <= issued[k].expiresAt;
      assert (issued + [more])[k] == issued[k];
    }
  }

  lemma WipeHistoryKept(s: State, t: State)
    requires HistoryInv(s)
    requires t == s.(conn := Free, db := Database(map[], []), epoch := s.epoch + 1, epochStart := |s.commits|, wipes := s.wipes + [s.clock])
    ensures HistoryInv(t)
  {
    hide CommitsMatchRequests, ExactlyOnce, AllRedeem, IsField;
  }

  lemma HistoryKept(c: Config, s: State, st: Step)
    requires TxInv(s) && HistoryInv(s) && Enabled(c, s, st)
    ensures HistoryInv(Apply(c, s, st))
  {
    hide HistoryInv;
    var t := Apply(c, s, st);
    if st.Issue? {
      IssueHistoryKept(c, s, st.random, st.reading, st.fails);
    } else if st.CleanCommit? && !st.fails {
      WipeHistoryKept(s, t);
    } else if st.CommitTx? && !st.fails {
      var q := s.requests[st.r];
      CommitHistoryKept(s, t, st.r, t.commits[|s.commits|], q.pc.stage.consumedAt);
    } else {
      hide Apply, TxInv;
      UnrecordedStep(c, s, st);
      QuietHistoryKept(s, t);
    }
  }

  /** Nothing but a commit records, and a finished request stays as it is. */
  lemma UnrecordedStep(c: Config, s: State, st: Step)
    requires Enabled(c, s, st) && !st.Issue? && !(st.CleanCommit? && !st.fails) && !(st.CommitTx? && !st.fails)
    ensures var t := Apply(c, s, st);
            && |t.requests| >= |s.requests|
            && t.db == s.db && t.issued == s.issued && t.commits == s.commits && t.epoch == s.epoch && t.epochStart == s.epochStart && t.wipes == s.wipes
            && (forall i :: 0 <= i < |s.requests| && (IsRecorded(s.requests[i]) || IsRecorded(t.requests[i])) ==> t.requests[i] == s.requests[i])
            && (forall i :: |s.requests| <= i < |t.requests| ==> !IsRecorded(t.requests[i]))
  {
    if MovesRequest(st) {
      OnlyThisMoves(c, s, st);
      MoverUnrecorded(c, s, st);
      if st.CommitTx? {
        assert Apply(c, s, st).db == s.db && Apply(c, s, st).commits == s.commits;
      }
      hide Apply;
    } else {
      OthersLeaveRequests(c, s, st);
      hide SmtProvider.Apply, IssuerCert.Apply, DeleteChallenges, DeleteVerifications;
    }
  }

  lemma MoverUnrecorded(c: Config, s: State, st: Step)
    requires Enabled(c, s, st) && MovesRequest(st) && !(st.CommitTx? && !st.fails)
    ensures st.r < |Apply(c, s, st).requests|
    ensures !IsRecorded(s.requests[st.r]) && !IsRecorded(Apply(c, s, st).requests[st.r])
  {
    hide ParsePublicInputs, CheckSmtRoot, CheckIssuerModulus, NormalizeDecimal, CheckedChallenge, EarlyRefusal,
      InsertVerification, ConsumeChallenge, RowFor;
  }

  lemma StepKeepsInv(c: Config, s: State, st: Step)
    requires Inv(c, s) && Enabled(c, s, st)
    ensures Inv(c, Apply(c, s, st))
  {
    hide Apply, AnchorInv, RequestsInv, TxInv, HistoryInv;
    AnchorsKept(c, s, st);
    RequestsKept(c, s, st);
    if MovesRequest(st) {
      MovesTxKept(c, s, st);
    } else {
      OthersTxKept(c, s, st);
    }
    HistoryKept(c, s, st);
  }

  lemma {:induction false} EveryRun(c: Config, start: int, steps: seq<Step>)
    requires After(c, start, steps).Some?
    ensures Inv(c, After(c, start, steps).value)
    decreases |steps|
  {
    if steps == [] {
      SmtProvider.EveryRun(c.rootSources, []);
      IssuerCert.EveryRun(c.world, c.certSources, start, []);
    } else {
      EveryRun(c, start, steps[..|steps| - 1]);
      StepKeepsInv(c, After(c, start, steps[..|steps| - 1]).value, steps[|steps| - 1]);
    }
  }

  // ------------------------------------------------------------ main results

  /** Commits since the last wipe that went through. */
  function CommitsSinceWipe(steps: seq<Step>): nat {
    if steps == [] then 0
    else
      var last, before := steps[|steps| - 1], CommitsSinceWipe(steps[..|steps| - 1]);
      if last.CleanCommit? && !last.fails then 0
      else if last.CommitTx? && !last.fails then before + 1
      else before
  }

  lemma {:induction false} RowsCountCommits(c: Config, start: int, steps: seq<Step>)
    requires After(c, start, steps).Some?
    ensures |After(c, start, steps).value.db.verifications| == CommitsSinceWipe(steps)
    decreases |steps|
  {
    if steps != [] {
      var init, last := steps[..|steps| - 1], steps[|steps| - 1];
      var s := After(c, start, init).value;
      RowsCountCommits(c, start, init);
      EveryRun(c, start, init);
      RowCountStep(c, s, last);
      hide Apply, Inv;
    }
  }

  lemma RowCountStep(c: Config, s: State, st: Step)
    requires TxInv(s) && Enabled(c, s, st)
    ensures |Apply(c, s, st).db.verifications| ==
            if st.CleanCommit? && !st.fails then 0
            else if st.CommitTx? && !st.fails then |s.db.verifications| + 1
            else |s.db.verifications|
  {
    if st.Issue? {
      hide IssuedValue, TxInv;
    } else if (st.CleanCommit? || st.CommitTx?) && !st.fails {
      hide Refusal;
    } else {
      hide Apply, TxInv;
      UnrecordedStep(c, s, st);
    }
  }

  /**
   Exactly-once redemption, for every interleaving and every failure: consumed
   challenges, rows and nullifiers are equally many, as many as the transactions
   committed since the last wipe; and no two commits of an epoch share either.
   */
  lemma ExactlyOnceRedemption(c: Config, start: int, steps: seq<Step>)
    requires After(c, start, steps).Some?
    ensures var s := After(c, start, steps).value;
            && Consumed(s.db) == Elements(RowChallenges(s.db.verifications))
            && |Consumed(s.db)| == |s.db.verifications| == |Elements(Nullifiers(s.db.verifications))| == CommitsSinceWipe(steps)
            && ExactlyOnce(s.commits)
            && RowsAreCommits(s.db, s.commits, s.epoch, s.epochStart)
            && CommitsMatchRequests(s.requests, s.commits)
  {
    EveryRun(c, start, steps);
    ConsistentCounts(After(c, start, steps).value.db);
    RowsCountCommits(c, start, steps);
  }

  /**
   Until the next wipe a redeemed challenge is refused, whatever has happened since and
   whatever the nullifier: as consumed while it lives, then as expired.
   */
  lemma RedeemedStaysRefused(c: Config, start: int, steps: seq<Step>, i: nat, nullifier: string, later: int)
    requires After(c, start, steps).Some?
    requires var s := After(c, start, steps).value; i < |s.commits| && s.commits[i].epoch == s.epoch
    ensures var s := After(c, start, steps).value;
            && var key := s.commits[i].row.challenge;
               key in s.db.challenges
               && Refusal(s.db, nullifier, key, later) ==
                  Some(if later > s.db.challenges[key].expiresAt then ChallengeExpired else ChallengeConsumed)
  {
    EveryRun(c, start, steps);
    var s := After(c, start, steps).value;
    hide After, RequestsInv, TxInv, AnchorInv, ExactlyOnce, CommitsMatchRequests, IssuesKnown, AllRedeem;
    assert i >= s.epochStart;
    assert s.db.verifications[i - s.epochStart] == s.commits[i].row;
  }

  // ------------------------------------------------------ the same, as integers

  /** The public values behind a commit: v is its nullifier, x its challenge. */
  ghost predicate CommitSigned(requests: seq<Request>, commit: Committed, v: nat, x: nat) {
    && commit.r < |requests| && requests[commit.r].reply.Some? && requests[commit.r].reply.value.Judged?
    && var f := requests[commit.r].reply.value.signals;
       && AreFields(f) && |f.userSig| == 4 && v == f.userSig[1] && x == f.userSig[3]
       && commit.row.nullifier == FieldToHex(v) && commit.row.challenge == DecimalNat(x)
  }

  lemma SignedCommit(c: Config, requests: seq<Request>, commits: seq<Committed>, i: nat) returns (v: nat, x: nat)
    requires RequestsInv(c, requests) && CommitsMatchRequests(requests, commits) && i < |commits|
    ensures CommitSigned(requests, commits[i], v, x) && IsField(v)
  {
    hide ParsePublicInputs, Publish, FieldToHex, DecimalNat, CertFact, AppMissed, IsField;
    assert CommitOf(requests, commits[i]);
    var q := requests[commits[i].r];
    assert RequestInv(c, q);
    v, x := q.pc.ending.evidence.signals.userSig[1], q.pc.ending.evidence.signals.userSig[3];
  }

  /** Exactly once, on the integers the proofs expose: no two commits of an epoch share a challenge or a nullifier. */
  lemma ExactlyOnceOnIntegers(c: Config, start: int, steps: seq<Step>, i: nat, j: nat)
    requires After(c, start, steps).Some?
    requires var commits := After(c, start, steps).value.commits; i < j < |commits| && commits[i].epoch == commits[j].epoch
    ensures var s := After(c, start, steps).value;
            exists v: nat, x: nat, v': nat, x': nat ::
              CommitSigned(s.requests, s.commits[i], v, x) && CommitSigned(s.requests, s.commits[j], v', x') && v != v' && x != x'
  {
    EveryRun(c, start, steps);
    var s := After(c, start, steps).value;
    var v, x := SignedCommit(c, s.requests, s.commits, i);
    var v', x' := SignedCommit(c, s.requests, s.commits, j);
  }

  /** A nullifier is refused as a duplicate exactly if a commit of this epoch has the very same integer. */
  lemma DuplicateIsReuse(c: Config, start: int, steps: seq<Step>, v: nat)
    requires After(c, start, steps).Some? && IsField(v)
    ensures var s := After(c, start, steps).value;
            HasNullifier(s.db, FieldToHex(v)) <==>
            exists i: nat, x: nat :: s.epochStart <= i < |s.commits| && CommitSigned(s.requests, s.commits[i], v, x)
  {
    EveryRun(c, start, steps);
    var s := After(c, start, steps).value;
    hide After, RequestsInv, TxInv, AnchorInv, CommitsMatchRequests, RowsAreCommits, HasNullifier, FieldToHex, CommitSigned, IsField;
    DuplicateMeansReuse(c, s, v);
  }

  lemma DuplicateMeansReuse(c: Config, s: State, v: nat)
    requires RequestsInv(c, s.requests) && CommitsMatchRequests(s.requests, s.commits) && IsField(v)
    requires RowsAreCommits(s.db, s.commits, s.epoch, s.epochStart)
    ensures HasNullifier(s.db, FieldToHex(v)) <==>
            exists i: nat, x: nat :: s.epochStart <= i < |s.commits| && CommitSigned(s.requests, s.commits[i], v, x)
  {
    hide RequestsInv, CommitsMatchRequests, CommitSigned, IsField, FieldToHex;
    if HasNullifier(s.db, FieldToHex(v)) {
      var i := ReusedBy(c, s, v);
    }
    if i: nat, x: nat :| s.epochStart <= i < |s.commits| && CommitSigned(s.requests, s.commits[i], v, x) {
      SignedNullifier(s.requests, s.commits[i], v, x);
      assert s.db.verifications[i - s.epochStart].nullifier == FieldToHex(v);
    }
  }

  lemma SignedNullifier(requests: seq<Request>, commit: Committed, v: nat, x: nat)
    requires CommitSigned(requests, commit, v, x)
    ensures commit.row.nullifier == FieldToHex(v)
  {
  }

  lemma ReusedBy(c: Config, s: State, v: nat) returns (i: nat)
    requires RequestsInv(c, s.requests) && CommitsMatchRequests(s.requests, s.commits) && IsField(v)
    requires RowsAreCommits(s.db, s.commits, s.epoch, s.epochStart) && HasNullifier(s.db, FieldToHex(v))
    ensures s.epochStart <= i < |s.commits| && exists x: nat :: CommitSigned(s.requests, s.commits[i], v, x)
  {
    hide RequestsInv, CommitsMatchRequests, FieldToHex, IsField;
    var k :| 0 <= k < |s.db.verifications| && s.db.verifications[k].nullifier == FieldToHex(v);
    i := s.epochStart + k;
    assert s.commits[i].row == s.db.verifications[i - s.epochStart];
    var u, x := SignedCommit(c, s.requests, s.commits, i);
    FieldToHexInjective(u, v);
  }
}
