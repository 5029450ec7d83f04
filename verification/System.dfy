/**
 The whole server as one machine: requests at every stage, challenge issue, wipes,
 both kinds of trust-anchor refresh and the clock, interleaved step by step.  The
 tables sit behind one connection, held for the length of a transaction; every
 database call may fail, also one that is still waiting for the connection.  The
 histories (issued, commits, wipes, replies, what an answer rests on) only record.
 */
module System {
  import opened Wrappers
  import opened Clock
  import opened Numerals
  import opened GoText
  import opened PublicInputs
  import opened SmtRoot
  import opened Store
  import opened LinkVerify
  import Limbs
  import SmtProvider
  import IssuerCert

  datatype Config = Config(
    world: IssuerCert.World,
    rootSources: seq<string>,
    certSources: map<IssuerID, string>,
    appID: AppID,
    ttl: nat,
    earlyCheck: bool)

  /** What the FFI made of a request's proofs. */
  datatype Reply = Broken | Judged(linked: bool, signals: FieldSignals)

  /** What a request has seen so far: its signals, the anchors it read, the first mismatch. */
  datatype Evidence = Evidence(
    signals: FieldSignals, parsed: ParsedInputs, root: Option<Root>, rec: Option<IssuerCert.CertRecord>, reason: string)

  datatype Stage =
    | Begun
    | Selected(at: int)
    | Inserted(at: int, row: VerificationRow)
    | Updated(at: int, row: VerificationRow, consumedAt: int)

  datatype Ending =
    | Failed(error: VerifyError) | NotVerified(reason: string, seen: Option<Evidence>) | BadKey(CodecError)
    | Denied(refusal: StoreError) | TurnedAway(refusal: StoreError, overtaken: bool)
    | Recorded(evidence: Evidence, key: string)

  /** What the client is told. */
  datatype Answer =
    | Erred(VerifyError) | Unlinked(reason: string) | BadSignal(CodecError) | Declined(StoreError) | Accepted

  /** The early check and the transaction refuse in the same words. */
  function AnswerOf(ending: Ending): Answer {
    match ending
    case Failed(e) => Erred(e)
    case NotVerified(reason, _) => Unlinked(reason)
    case BadKey(e) => BadSignal(e)
    case Denied(e) => Declined(e)
    case TurnedAway(e, _) => Declined(e)
    case Recorded(_, _) => Accepted
  }

  datatype Pc =
    | Arrived
    | Parsed(e: Evidence)
    | RootRead(e: Evidence)
    | CertRead(e: Evidence)
    | Keyed(e: Evidence, key: string)
    | Looked(e: Evidence, key: string, found: IssuedChallenge, since: nat)
    | Passed(e: Evidence, key: string)
    | InTx(e: Evidence, key: string, stage: Stage)
    | Finished(ending: Ending)

  datatype Request = Request(proofType: string, reply: Option<Reply>, pc: Pc)

  datatype Connection = Free | Redeeming(r: nat, work: Database) | Cleaning(deleted: nat, work: Database)

  datatype Issued = Issued(value: nat, expiresAt: int, epoch: nat)

  datatype Committed = Committed(r: nat, row: VerificationRow, checkedAt: int, epoch: nat)

  datatype State = State(
    clock: int, db: Database, conn: Connection,
    roots: SmtProvider.Machine, certs: IssuerCert.Machine,
    requests: seq<Request>,
    issued: seq<Issued>, commits: seq<Committed>, epoch: nat, epochStart: nat, wipes: seq<int>)

  datatype Step =
    | Tick(elapsed: nat)
    | Arrive(proofType: string)
    | Ffi(r: nat, reply: Reply)
    | ReadRoot(r: nat)
    | ReadCert(r: nat)
    | CompareApp(r: nat)
    | Look(r: nat, fails: bool)
    | CheckEarly(r: nat)
    | BeginTx(r: nat, fails: bool)
    | SelectRow(r: nat, fails: bool)
    | InsertRow(r: nat, fails: bool)
    | UpdateRow(r: nat, fails: bool)
    | CommitTx(r: nat, fails: bool)
    | Issue(random: Seed, reading: int, fails: bool)
    | CleanBegin
    | CleanDelete(fails: bool)
    | CleanCommit(fails: bool)
    | RefreshRoots(root: SmtProvider.Step)
    | RefreshCerts(cert: IssuerCert.Step)

  // --------------------------------------------------------------------- steps

  predicate HoldsTx(s: State, r: nat) {
    r < |s.requests| && s.requests[r].pc.InTx? && s.conn.Redeeming? && s.conn.r == r
  }

  predicate Enabled(c: Config, s: State, st: Step) {
    match st
    case Tick(_) => true
    case Arrive(_) => true
    case Ffi(r, reply) =>
      r < |s.requests| && s.requests[r].pc.Arrived? && (reply.Judged? ==> AreFields(reply.signals) && Links(reply.signals, reply.linked))
    case ReadRoot(r) => r < |s.requests| && s.requests[r].pc.Parsed?
    case ReadCert(r) => r < |s.requests| && s.requests[r].pc.RootRead?
    case CompareApp(r) => r < |s.requests| && s.requests[r].pc.CertRead?
    case Look(r, fails) => c.earlyCheck && r < |s.requests| && s.requests[r].pc.Keyed? && (fails || s.conn.Free?)
    case CheckEarly(r) => r < |s.requests| && (s.requests[r].pc.Looked? || (s.requests[r].pc.Keyed? && !c.earlyCheck))
    case BeginTx(r, fails) => r < |s.requests| && s.requests[r].pc.Passed? && (fails || s.conn.Free?)
    case SelectRow(r, _) => HoldsTx(s, r) && s.requests[r].pc.stage.Begun?
    case InsertRow(r, _) => HoldsTx(s, r) && s.requests[r].pc.stage.Selected?
    case UpdateRow(r, _) => HoldsTx(s, r) && s.requests[r].pc.stage.Inserted?
    case CommitTx(r, _) => HoldsTx(s, r) && s.requests[r].pc.stage.Updated?
    case Issue(_, reading, fails) => reading <= s.clock && (fails || s.conn.Free?)
    case CleanBegin => s.conn.Free?
    case CleanDelete(_) => s.conn.Cleaning? && s.conn.deleted < 2
    case CleanCommit(_) => s.conn.Cleaning? && s.conn.deleted == 2
    case RefreshRoots(t) => SmtProvider.Enabled(c.rootSources, s.roots, t)
    case RefreshCerts(t) => IssuerCert.Enabled(c.certSources, s.certs, t)
  }

  function Goto(s: State, r: nat, pc: Pc): State
    requires r < |s.requests|
  {
    s.(requests := s.requests[r := s.requests[r].(pc := pc)])
  }

  /** Roll back and answer: the working copy is dropped with the connection. */
  function Abort(s: State, r: nat, refusal: StoreError): State
    requires r < |s.requests|
  {
    Goto(s, r, Finished(Denied(refusal))).(conn := Free)
  }

  function AfterFfi(q: Request, reply: Reply): Pc {
    match reply
    case Broken => Finished(Failed(FfiFailed))
    case Judged(linked, f) =>
      if !linked then Finished(NotVerified(PROOF_INVALID, None))
      else match ParsePublicInputs(Some(Publish(f)), ChainType(q.proofType))
        case Err(e) => Finished(Failed(BadSignals(e)))
        case Ok(p) => Parsed(Evidence(f, p, None, None, ""))
  }

  function AfterRoot(q: Request, roots: SmtProvider.Roots): Pc
    requires q.pc.Parsed?
  {
    var id := IssuerForProofType(q.proofType);
    var trusted := if id in roots then Some(roots[id]) else None;
    match CheckSmtRoot(q.pc.e.parsed, trusted)
    case Err(e) => Finished(Failed(e))
    case Ok(b) => RootRead(q.pc.e.(root := trusted, reason := if b then "" else SMT_ROOT_MISMATCH))
  }

  ghost function AfterCert(q: Request, certs: IssuerCert.Certs): Pc
    requires q.pc.RootRead?
  {
    var id := IssuerForProofType(q.proofType);
    var trusted := if id in certs then Some(certs[id]) else None;
    match CheckIssuerModulus(q.pc.e.parsed, trusted)
    case Err(e) => Finished(Failed(e))
    case Ok(b) =>
      CertRead(q.pc.e.(rec := trusted, reason := if !b && q.pc.e.reason == "" then ISSUER_MODULUS_MISMATCH else q.pc.e.reason))
  }

  function AfterApp(q: Request, appID: AppID): Pc
    requires q.pc.CertRead?
  {
    var e := q.pc.e;
    var reason := if e.parsed.appID != appID && e.reason == "" then APP_ID_MISMATCH else e.reason;
    if reason != "" then Finished(NotVerified(reason, Some(e)))
    else match NormalizeDecimal(e.parsed.challenge)
      case Err(err) => Finished(BadKey(err))
      case Ok(key) => Keyed(e, key)
  }

  /** The row is read and the connection given back; a missing one is answered at once. */
  function AfterLook(s: State, pc: Pc, fails: bool): Pc
    requires pc.Keyed?
  {
    if fails then Finished(TurnedAway(Io(Query), false))
    else match Found(s.db, pc.key)
      case None => Finished(TurnedAway(ChallengeNotFound, false))
      case Some(found) => Looked(pc.e, pc.key, found, s.epoch)
  }

  /** A wipe took the challenge away before it had expired. */
  predicate LostUnexpired(wipes: seq<int>, since: nat, expiresAt: int) {
    since < |wipes| && wipes[since] <= expiresAt
  }

  /** The clock is read later, against the expiry as it was found. */
  function AfterCheck(s: State, pc: Pc): Pc
    requires pc.Keyed? || pc.Looked?
  {
    if pc.Looked? && EarlyRefusal(Some(pc.found), s.clock).Some? then
      Finished(TurnedAway(ChallengeExpired, LostUnexpired(s.wipes, pc.since, pc.found.expiresAt)))
    else if !CheckedChallenge(pc.e.parsed, pc.key).matches then Finished(NotVerified("challenge_mismatch", Some(pc.e)))
    else Passed(pc.e, pc.key)
  }

  function ApplySelect(s: State, r: nat, fails: bool): State
    requires HoldsTx(s, r)
  {
    var pc, work := s.requests[r].pc, s.conn.work;
    if fails then Abort(s, r, Io(Query))
    else if pc.key !in work.challenges then Abort(s, r, ChallengeNotFound)
    else if s.clock > work.challenges[pc.key].expiresAt then Abort(s, r, ChallengeExpired)
    else if work.challenges[pc.key].consumedAt.Some? then Abort(s, r, ChallengeConsumed)
    else Goto(s, r, pc.(stage := Selected(s.clock)))
  }

  function RowFor(q: Request, at: int): VerificationRow
    requires q.pc.InTx?
  {
    VerificationRow(q.pc.e.parsed.nullifier, None, StoreKey(q.proofType), q.pc.key, WholeSecond(at))
  }

  function ApplyInsert(s: State, r: nat, fails: bool): State
    requires HoldsTx(s, r) && s.requests[r].pc.stage.Selected?
  {
    var q := s.requests[r];
    var row := RowFor(q, s.clock);
    if fails then Abort(s, r, Io(Insert))
    else match InsertVerification(s.conn.work, row)
      case Err(UniqueViolation) => Abort(s, r, DuplicateNullifier)
      case Err(ForeignKeyViolation) => Abort(s, r, Io(Insert))
      case Ok(work) => Goto(s, r, q.pc.(stage := Inserted(q.pc.stage.at, row))).(conn := Redeeming(r, work))
  }

  function ApplyUpdate(s: State, r: nat, fails: bool): State
    requires HoldsTx(s, r) && s.requests[r].pc.stage.Inserted?
  {
    var pc := s.requests[r].pc;
    if fails then Abort(s, r, Io(Update))
    else Goto(s, r, pc.(stage := Updated(pc.stage.at, pc.stage.row, s.clock)))
           .(conn := Redeeming(r, ConsumeChallenge(s.conn.work, pc.key, s.clock)))
  }

  function ApplyCommit(s: State, r: nat, fails: bool): State
    requires HoldsTx(s, r) && s.requests[r].pc.stage.Updated?
  {
    var pc := s.requests[r].pc;
    if fails then Abort(s, r, Io(Commit))
    else Goto(s, r, Finished(Recorded(pc.e, pc.key)))
           .(conn := Free, db := s.conn.work,
             commits := s.commits + [Committed(r, pc.stage.row, pc.stage.at, s.epoch)])
  }

  /** The expiry counts from a reading taken before the connection was waited for; the row is stamped now. */
  function ApplyIssue(c: Config, s: State, random: Seed, reading: int, fails: bool): State {
    var value := IssuedValue(random);
    var expiresAt := WholeSecond(reading + c.ttl);
    match InsertChallenge(s.db, DecimalNat(value), ChallengeRow(WholeSecond(s.clock), expiresAt, None))
    case Err(_) => s
    case Ok(db) => if fails then s else s.(db := db, issued := s.issued + [Issued(value, expiresAt, s.epoch)])
  }

  function ApplyDelete(s: State, fails: bool): State
    requires s.conn.Cleaning? && s.conn.deleted < 2
  {
    if fails then s.(conn := Free)
    else if s.conn.deleted == 0 then s.(conn := Cleaning(1, DeleteVerifications(s.conn.work)))
    else match DeleteChallenges(s.conn.work)
      case Err(_) => s.(conn := Free)
      case Ok(work) => s.(conn := Cleaning(2, work))
  }

  ghost function Apply(c: Config, s: State, st: Step): State
    requires Enabled(c, s, st)
  {
    match st
    case Tick(elapsed) => s.(clock := s.clock + elapsed)
    case Arrive(proofType) => s.(requests := s.requests + [Request(proofType, None, Arrived)])
    case Ffi(r, reply) =>
      s.(requests := s.requests[r := s.requests[r].(reply := Some(reply), pc := AfterFfi(s.requests[r], reply))])
    case ReadRoot(r) => Goto(s, r, AfterRoot(s.requests[r], s.roots.cache.roots))
    case ReadCert(r) => Goto(s, r, AfterCert(s.requests[r], s.certs.cache.certs))
    case CompareApp(r) => Goto(s, r, AfterApp(s.requests[r], c.appID))
    case Look(r, fails) => Goto(s, r, AfterLook(s, s.requests[r].pc, fails))
    case CheckEarly(r) => Goto(s, r, AfterCheck(s, s.requests[r].pc))
    case BeginTx(r, fails) =>
      var pc := s.requests[r].pc;
      if fails then Goto(s, r, Finished(Denied(Io(Begin))))
      else Goto(s, r, InTx(pc.e, pc.key, Begun)).(conn := Redeeming(r, s.db))
    case SelectRow(r, fails) => ApplySelect(s, r, fails)
    case InsertRow(r, fails) => ApplyInsert(s, r, fails)
    case UpdateRow(r, fails) => ApplyUpdate(s, r, fails)
    case CommitTx(r, fails) => ApplyCommit(s, r, fails)
    case Issue(random, reading, fails) => ApplyIssue(c, s, random, reading, fails)
    case CleanBegin => s.(conn := Cleaning(0, s.db))
    case CleanDelete(fails) => ApplyDelete(s, fails)
    case CleanCommit(fails) =>
      if fails then s.(conn := Free)
      else s.(conn := Free, db := s.conn.work, epoch := s.epoch + 1, epochStart := |s.commits|, wipes := s.wipes + [s.clock])
    case RefreshRoots(t) => s.(roots := SmtProvider.Apply(c.rootSources, s.roots, t))
    case RefreshCerts(t) => s.(certs := IssuerCert.Apply(c.world, c.certSources, s.certs, t))
  }

  /** A server starts on empty tables with the embedded certificates, or does not start. */
  function Initial(c: Config, start: int): Option<State> {
    match IssuerCert.After(c.world, c.certSources, start, [])
    case None => None
    case Some(certs) => Some(State(start, Database(map[], []), Free, SmtProvider.INITIAL, certs, [], [], [], 0, 0, []))
  }

  ghost function After(c: Config, start: int, steps: seq<Step>): Option<State>
    decreases |steps|
  {
    if steps == [] then Initial(c, start)
    else
      match After(c, start, steps[..|steps| - 1])
      case None => None
      case Some(s) => if Enabled(c, s, steps[|steps| - 1]) then Some(Apply(c, s, steps[|steps| - 1])) else None
  }
}
