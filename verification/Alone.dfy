/**
 The machine is the service taken apart: a request whose steps run with nothing in
 between and no fault reaches its end, and ends as the service decides from the FFI's
 reply, the caches and the tables it started with.
 */
module Alone {
  import opened Wrappers
  import opened Clock
  import opened PublicInputs
  import opened SmtRoot
  import opened Store
  import opened LinkVerify
  import opened System
  import opened Safety
  import SmtProvider
  import IssuerCert

  /** What a request comes to: its answer, and the tables afterwards. */
  datatype Fate = Fate(answer: Answer, db: Database)

  /** The service's decision for a request that sees one state of the server throughout. */
  ghost function Decided(c: Config, s: State, proofType: string, reply: Reply): Fate {
    var fromFfi := match reply
      case Broken => FfiError
      case Judged(linked, f) => FfiVerdict(linked, Some(Publish(f)));
    var v := Verdict(proofType, fromFfi, Some(s.roots.cache), Some(s.certs.cache), Some(c.appID));
    var at := Times(s.clock, s.clock, s.clock, s.clock, s.clock);
    match Decide(v, s.db, at)
    case Persist => Fate(Accepted, Persisted(s.db, proofType, v, at))
    case Unverified => Fate(Unlinked(v.value.reason), s.db)
    case Reject(VerifyFailed(e)) => Fate(Erred(e), s.db)
    case Reject(ChallengeSignal(e)) => Fate(BadSignal(e), s.db)
    case Reject(Refused(e)) => Fate(Declined(e), s.db)
  }

  // ------------------------------------------------ what each stage still leads to

  function FromKey(db: Database, clock: int, proofType: string, nullifier: string, key: string): Fate {
    match Refusal(db, nullifier, key, clock)
    case Some(e) => Fate(Declined(e), db)
    case None => Fate(Accepted, Redeemed(db, VerificationRow(nullifier, None, StoreKey(proofType), key, WholeSecond(clock)), clock))
  }

  function FromCert(c: Config, s: State, proofType: string, p: ParsedInputs, reason: string): Fate {
    var final := if p.appID != c.appID && reason == "" then APP_ID_MISMATCH else reason;
    if final != "" then Fate(Unlinked(final), s.db)
    else match NormalizeDecimal(p.challenge)
      case Err(e) => Fate(BadSignal(e), s.db)
      case Ok(key) => FromKey(s.db, s.clock, proofType, p.nullifier, key)
  }

  ghost function FromRoot(c: Config, s: State, proofType: string, p: ParsedInputs, reason: string): Fate {
    match ModulusMatches(proofType, p, s.certs.cache.certs)
    case Err(e) => Fate(Erred(e), s.db)
    case Ok(b) => FromCert(c, s, proofType, p, if !b && reason == "" then ISSUER_MODULUS_MISMATCH else reason)
  }

  ghost function FromSignals(c: Config, s: State, proofType: string, p: ParsedInputs): Fate {
    match RootMatches(proofType, p, s.roots.cache.roots)
    case Err(e) => Fate(Erred(e), s.db)
    case Ok(b) => FromRoot(c, s, proofType, p, if b then "" else SMT_ROOT_MISMATCH)
  }

  ghost function FromReply(c: Config, s: State, proofType: string, reply: Reply): Fate {
    match reply
    case Broken => Fate(Erred(FfiFailed), s.db)
    case Judged(linked, f) =>
      if !linked then Fate(Unlinked(PROOF_INVALID), s.db)
      else match ParsePublicInputs(Some(Publish(f)), ChainType(proofType))
        case Err(e) => Fate(Erred(BadSignals(e)), s.db)
        case Ok(p) => FromSignals(c, s, proofType, p)
  }

  function FromTx(s: State, q: Request): Fate
    requires q.pc.InTx?
  {
    var p, key := q.pc.e.parsed, q.pc.key;
    match q.pc.stage
    case Begun => FromKey(s.db, s.clock, q.proofType, p.nullifier, key)
    case Selected(_) =>
      if HasNullifier(s.db, p.nullifier) then Fate(Declined(DuplicateNullifier), s.db)
      else Fate(Accepted, Spent(s.db, RowFor(q, s.clock), s.clock))
    case Inserted(_, row) => Fate(Accepted, Spent(s.db, row, s.clock))
    case Updated(_, row, consumedAt) => Fate(Accepted, Spent(s.db, row, consumedAt))
  }

  function Spent(db: Database, row: VerificationRow, at: int): Database {
    if row.challenge in db.challenges then Redeemed(db, row, at) else db
  }

  ghost function Ahead(c: Config, s: State, q: Request, reply: Reply): Fate {
    match q.pc
    case Arrived => FromReply(c, s, q.proofType, reply)
    case Parsed(e) => FromSignals(c, s, q.proofType, e.parsed)
    case RootRead(e) => FromRoot(c, s, q.proofType, e.parsed, e.reason)
    case CertRead(e) => FromCert(c, s, q.proofType, e.parsed, e.reason)
    case Keyed(e, key) => FromKey(s.db, s.clock, q.proofType, e.parsed.nullifier, key)
    case Looked(e, key, found, _) =>
      (match EarlyRefusal(Some(found), s.clock)
       case Some(refusal) => Fate(Declined(refusal), s.db)
       case None => FromKey(s.db, s.clock, q.proofType, e.parsed.nullifier, key))
    case Passed(e, key) => FromKey(s.db, s.clock, q.proofType, e.parsed.nullifier, key)
    case InTx(_, _, _) => FromTx(s, q)
    case Finished(ending) => Fate(AnswerOf(ending), s.db)
  }

  /** A faultless step of this request. */
  predicate Own(r: nat, reply: Reply, st: Step) {
    MovesRequest(st) && st.r == r && (st.Ffi? ==> st.reply == reply) && (CarriesEvidence(st) && !st.CheckEarly? ==> !st.fails)
  }

  /** The connection is free, or held by this request. */
  predicate Unhindered(s: State, r: nat) {
    r < |s.requests| && if s.requests[r].pc.InTx? then HoldsTx(s, r) else s.conn.Free?
  }

  lemma CheckFate(c: Config, s: State, st: Step, r: nat, reply: Reply)
    requires Own(r, reply, st) && Freshens(st) && Unhindered(s, r) && Enabled(c, s, st)
    ensures var t := Apply(c, s, st);
            Unhindered(t, r) && Ahead(c, t, t.requests[r], reply) == Ahead(c, s, s.requests[r], reply)
  {
    hide ParsePublicInputs, ParseRoot, CheckSmtRoot, CheckIssuerModulus, NormalizeDecimal, Publish, AreFields, Links, FromKey, FromTx;
  }

  lemma LookFate(c: Config, s: State, st: Step, r: nat, reply: Reply)
    requires Own(r, reply, st) && st.Look? && Unhindered(s, r) && Enabled(c, s, st)
    ensures var t := Apply(c, s, st);
            Unhindered(t, r) && Ahead(c, t, t.requests[r], reply) == Ahead(c, s, s.requests[r], reply)
  {
    hide FromTx, FromCert, FromRoot, FromSignals, FromReply, Redeemed, HasNullifier;
  }

  lemma CheckEarlyFate(c: Config, s: State, st: Step, r: nat, reply: Reply)
    requires Own(r, reply, st) && st.CheckEarly? && Unhindered(s, r) && Enabled(c, s, st) && RequestInv(c, s.requests[r])
    ensures var t := Apply(c, s, st);
            Unhindered(t, r) && Ahead(c, t, t.requests[r], reply) == Ahead(c, s, s.requests[r], reply)
  {
    hide FromKey, FromTx, FromCert, FromRoot, FromSignals, FromReply, RequestInv, EarlyRefusal, Apply;
    CheckEarlyEffect(c, s, r);
    var pc := s.requests[r].pc;
    if pc.Looked? && EarlyRefusal(Some(pc.found), s.clock).Some? {
      NothingElse(s.clock, pc);
    }
  }

  lemma NothingElse(clock: int, pc: Pc)
    requires pc.Looked? && EarlyRefusal(Some(pc.found), clock).Some?
    ensures EarlyRefusal(Some(pc.found), clock) == Some(ChallengeExpired)
  {
  }

  lemma OpeningFate(c: Config, s: State, st: Step, r: nat, reply: Reply)
    requires Own(r, reply, st) && (st.BeginTx? || st.SelectRow?) && Unhindered(s, r) && Enabled(c, s, st) && TxInv(s)
    ensures var t := Apply(c, s, st);
            Unhindered(t, r) && Ahead(c, t, t.requests[r], reply) == Ahead(c, s, s.requests[r], reply)
  {
    hide FromCert, FromRoot, FromSignals, FromReply, Redeemed, HasNullifier;
  }

  lemma WritingFate(c: Config, s: State, st: Step, r: nat, reply: Reply)
    requires Own(r, reply, st) && (st.InsertRow? || st.UpdateRow? || st.CommitTx?) && Unhindered(s, r) && Enabled(c, s, st) && TxInv(s)
    ensures var t := Apply(c, s, st);
            Unhindered(t, r) && Ahead(c, t, t.requests[r], reply) == Ahead(c, s, s.requests[r], reply)
  {
    if st.InsertRow? {
      InsertFate(c, s, st, r, reply);
    } else {
      hide FromCert, FromRoot, FromSignals, FromReply, InsertVerification, ConsumeChallenge, Redeemed;
    }
  }

  lemma InsertFate(c: Config, s: State, st: Step, r: nat, reply: Reply)
    requires Own(r, reply, st) && st.InsertRow? && Unhindered(s, r) && Enabled(c, s, st) && TxInv(s)
    ensures var t := Apply(c, s, st);
            Unhindered(t, r) && Ahead(c, t, t.requests[r], reply) == Ahead(c, s, s.requests[r], reply)
  {
    hide FromCert, FromRoot, FromSignals, FromReply;
    var q := s.requests[r];
    StatementsCompose(s.db, RowFor(q, s.clock), q.pc.stage.at, s.clock);
    hide InsertVerification, Redeemed;
  }

  /** Every faultless step of a request left alone keeps what it is coming to. */
  lemma StepFate(c: Config, s: State, st: Step, r: nat, reply: Reply)
    requires Own(r, reply, st) && Unhindered(s, r) && Enabled(c, s, st) && Inv(c, s)
    ensures var t := Apply(c, s, st);
            Unhindered(t, r) && Ahead(c, t, t.requests[r], reply) == Ahead(c, s, s.requests[r], reply)
  {
    hide Apply, Ahead, RequestInv, AnchorInv, HistoryInv, TxInv, Unhindered;
    if Freshens(st) {
      CheckFate(c, s, st, r, reply);
    } else if st.Look? {
      LookFate(c, s, st, r, reply);
    } else if st.CheckEarly? {
      assert RequestInv(c, s.requests[r]) by { InRange(s, r); }
      CheckEarlyFate(c, s, st, r, reply);
    } else if st.BeginTx? || st.SelectRow? {
      OpeningFate(c, s, st, r, reply);
    } else {
      WritingFate(c, s, st, r, reply);
    }
  }

  lemma InRange(s: State, r: nat)
    requires Unhindered(s, r)
    ensures r < |s.requests|
  {
  }

  /** What lies ahead of a new request is the service's decision. */
  lemma AheadIsDecided(c: Config, s: State, q: Request, reply: Reply)
    requires q.pc.Arrived?
    ensures Ahead(c, s, q, reply) == Decided(c, s, q.proofType, reply)
  {
    hide ParsePublicInputs, ParseRoot, Hex, CheckSmtRoot, CheckIssuerModulus, NormalizeDecimal, Publish, HasNullifier;
  }

  // ----------------------------------------------------------------- whole runs

  ghost function Run(c: Config, s: State, steps: seq<Step>): Option<State>
    decreases |steps|
  {
    if steps == [] then Some(s)
    else if Enabled(c, s, steps[0]) then Run(c, Apply(c, s, steps[0]), steps[1..])
    else None
  }

  predicate AllOwn(r: nat, reply: Reply, steps: seq<Step>) {
    forall i :: 0 <= i < |steps| ==> Own(r, reply, steps[i])
  }

  lemma {:induction false} RunFate(c: Config, s: State, steps: seq<Step>, r: nat, reply: Reply)
    requires Inv(c, s) && Unhindered(s, r) && AllOwn(r, reply, steps) && Run(c, s, steps).Some?
    ensures var t := Run(c, s, steps).value;
            Unhindered(t, r) && Ahead(c, t, t.requests[r], reply) == Ahead(c, s, s.requests[r], reply)
    decreases |steps|
  {
    hide Apply, Ahead, Inv, Unhindered, Own;
    if steps != [] {
      StepFate(c, s, steps[0], r, reply);
      StepKeepsInv(c, s, steps[0]);
      RunFate(c, Apply(c, s, steps[0]), steps[1..], r, reply);
    }
  }

  /** How far a request is from its end. */
  function Distance(pc: Pc): nat {
    match pc
    case Arrived => 11
    case Parsed(_) => 10
    case RootRead(_) => 9
    case CertRead(_) => 8
    case Keyed(_, _) => 7
    case Looked(_, _, _, _) => 6
    case Passed(_, _) => 5
    case InTx(_, _, Begun) => 4
    case InTx(_, _, Selected(_)) => 3
    case InTx(_, _, Inserted(_, _)) => 2
    case InTx(_, _, Updated(_, _, _)) => 1
    case Finished(_) => 0
  }

  function Next(c: Config, r: nat, reply: Reply, pc: Pc): Step
    requires !pc.Finished?
  {
    match pc
    case Arrived => Ffi(r, reply)
    case Parsed(_) => ReadRoot(r)
    case RootRead(_) => ReadCert(r)
    case CertRead(_) => CompareApp(r)
    case Keyed(_, _) => if c.earlyCheck then Look(r, false) else CheckEarly(r)
    case Looked(_, _, _, _) => CheckEarly(r)
    case Passed(_, _) => BeginTx(r, false)
    case InTx(_, _, Begun) => SelectRow(r, false)
    case InTx(_, _, Selected(_)) => InsertRow(r, false)
    case InTx(_, _, Inserted(_, _)) => UpdateRow(r, false)
    case InTx(_, _, Updated(_, _, _)) => CommitTx(r, false)
  }

  predicate Possible(reply: Reply) {
    reply.Judged? ==> AreFields(reply.signals) && Links(reply.signals, reply.linked)
  }

  lemma NextMoves(c: Config, s: State, r: nat, reply: Reply)
    requires Unhindered(s, r) && Possible(reply) && !s.requests[r].pc.Finished?
    ensures var st := Next(c, r, reply, s.requests[r].pc);
            && Own(r, reply, st) && Enabled(c, s, st)
            && r < |Apply(c, s, st).requests|
            && Distance(Apply(c, s, st).requests[r].pc) < Distance(s.requests[r].pc)
  {
    hide ParsePublicInputs, CheckSmtRoot, CheckIssuerModulus, NormalizeDecimal, Publish, AreFields, Links,
      CheckedChallenge, EarlyRefusal, InsertVerification, ConsumeChallenge, RowFor;
  }

  lemma {:induction false} Finishes(c: Config, s: State, r: nat, reply: Reply) returns (steps: seq<Step>)
    requires Inv(c, s) && Unhindered(s, r) && Possible(reply)
    ensures AllOwn(r, reply, steps) && Run(c, s, steps).Some?
    ensures r < |Run(c, s, steps).value.requests| && Run(c, s, steps).value.requests[r].pc.Finished?
    decreases Distance(s.requests[r].pc)
  {
    hide Apply, Inv, Own, Enabled;
    if s.requests[r].pc.Finished? {
      steps := [];
    } else {
      hide Unhindered;
      var st := Next(c, r, reply, s.requests[r].pc);
      NextMoves(c, s, r, reply);
      StepFate(c, s, st, r, reply);
      StepKeepsInv(c, s, st);
      var rest := Finishes(c, Apply(c, s, st), r, reply);
      steps := [st] + rest;
      assert steps[1..] == rest;
    }
  }

  lemma EndsAsDecided(c: Config, s: State, steps: seq<Step>, r: nat, reply: Reply, fate: Fate)
    requires Inv(c, s) && r < |s.requests| && s.requests[r].pc.Arrived? && s.conn.Free?
    requires AllOwn(r, reply, steps) && EndsIn(Run(c, s, steps), r, fate)
    ensures fate == Decided(c, s, s.requests[r].proofType, reply)
  {
    assert Unhindered(s, r);
    hide Inv, Decided, Run, Ahead, Unhindered, AllOwn;
    RunFate(c, s, steps, r, reply);
    AheadIsDecided(c, s, s.requests[r], reply);
    NothingAhead(c, Run(c, s, steps).value, Run(c, s, steps).value.requests[r], reply);
  }

  lemma NothingAhead(c: Config, s: State, q: Request, reply: Reply)
    requires q.pc.Finished?
    ensures Ahead(c, s, q, reply) == Fate(AnswerOf(q.pc.ending), s.db)
  {
  }

  /**
   A request left alone from its arrival on always can finish, and however it finishes
   its answer and the tables are what the service decides.
   */
  lemma AloneAsDecided(c: Config, start: int, before: seq<Step>, r: nat, reply: Reply)
    requires After(c, start, before).Some? && Possible(reply)
    requires var s := After(c, start, before).value; r < |s.requests| && s.requests[r].pc.Arrived? && s.conn.Free?
    ensures var s := After(c, start, before).value;
            && (exists steps: seq<Step> :: AllOwn(r, reply, steps) && EndsIn(Run(c, s, steps), r, Decided(c, s, s.requests[r].proofType, reply)))
            && (forall steps: seq<Step>, fate: Fate :: AllOwn(r, reply, steps) && EndsIn(Run(c, s, steps), r, fate) ==>
                  fate == Decided(c, s, s.requests[r].proofType, reply))
  {
    EveryRun(c, start, before);
    var s := After(c, start, before).value;
    hide Inv, Decided, After, Run, AllOwn;
    forall steps: seq<Step>, fate: Fate | AllOwn(r, reply, steps) && EndsIn(Run(c, s, steps), r, fate)
      ensures fate == Decided(c, s, s.requests[r].proofType, reply)
    {
      EndsAsDecided(c, s, steps, r, reply, fate);
    }
    var steps := Finishes(c, s, r, reply);
    var t := Run(c, s, steps).value;
    assert EndsIn(Run(c, s, steps), r, Fate(AnswerOf(t.requests[r].pc.ending), t.db));
  }

  ghost predicate EndsIn(t: Option<State>, r: nat, fate: Fate) {
    && t.Some? && r < |t.value.requests| && t.value.requests[r].pc.Finished?
    && fate == Fate(AnswerOf(t.value.requests[r].pc.ending), t.value.db)
  }
}
