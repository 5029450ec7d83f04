/**
 Where everything a recorded verification rests on came from: the step of the run
 that produced it and the state that step saw.  Ends in the end-to-end theorem.
 */
module Provenance {
  import opened Wrappers
  import opened Clock
  import opened Numerals
  import opened GoText
  import opened PublicInputs
  import opened SmtRoot
  import opened Store
  import opened LinkVerify
  import opened System
  import opened Safety
  import Limbs
  import SmtProvider
  import IssuerCert

  datatype Run = Run(c: Config, start: int, steps: seq<Step>)

  /** Step m of the run was st, taken in the state `before`. */
  ghost predicate Happened(run: Run, m: nat, st: Step, before: State) {
    m < |run.steps| && run.steps[m] == st && After(run.c, run.start, run.steps[..m]) == Some(before)
  }

  ghost predicate FfiSaid(run: Run, r: nat, reply: Reply) {
    exists m: nat, before: State :: Happened(run, m, Ffi(r, reply), before)
  }

  /** The root the request compared with was its issuer's cached root when it looked. */
  ghost predicate RootCachedAtCheck(run: Run, r: nat, id: IssuerID, root: Root) {
    exists m: nat, before: State :: Happened(run, m, ReadRoot(r), before)
      && id in before.roots.cache.roots && before.roots.cache.roots[id] == root
  }

  ghost predicate CertCachedAtCheck(run: Run, r: nat, id: IssuerID, rec: IssuerCert.CertRecord) {
    exists m: nat, before: State :: Happened(run, m, ReadCert(r), before)
      && id in before.certs.cache.certs && before.certs.cache.certs[id] == rec
  }

  /** Step m stored a new challenge: the insert was not refused, and i is what the history keeps of it. */
  ghost predicate IssuedAt(run: Run, m: nat, i: Issued) {
    exists before: State, random: Seed, reading: int :: Happened(run, m, Issue(random, reading, false), before)
      && DecimalNat(IssuedValue(random)) !in before.db.challenges
      && i == Issued(IssuedValue(random), WholeSecond(reading + run.c.ttl), before.epoch)
  }

  ghost predicate IssuedInRun(run: Run, i: Issued) {
    exists m: nat :: IssuedAt(run, m, i)
  }

  /** Step m was request r's in-transaction check, made at this time in this epoch. */
  ghost predicate CheckedAt(run: Run, m: nat, r: nat, at: int, epoch: nat) {
    exists before: State :: Happened(run, m, SelectRow(r, false), before) && before.clock == at && before.epoch == epoch
  }

  /** The check came after an issue of this key in the same epoch, and before that issue's expiry. */
  ghost predicate CheckedAgainstIssue(run: Run, r: nat, at: int, key: string, epoch: nat) {
    exists mi: nat, ms: nat, i: Issued :: mi < ms && IssuedAt(run, mi, i) && CheckedAt(run, ms, r, at, epoch)
      && i.epoch == epoch && key == DecimalNat(i.value) && at <= i.expiresAt
  }

  function EvidenceOf(pc: Pc): Option<Evidence> {
    match pc
    case Arrived => None
    case Parsed(e) => Some(e)
    case RootRead(e) => Some(e)
    case CertRead(e) => Some(e)
    case Keyed(e, _) => Some(e)
    case Looked(e, _, _, _) => Some(e)
    case Passed(e, _) => Some(e)
    case InTx(e, _, _) => Some(e)
    case Finished(ending) => if ending.Recorded? then Some(ending.evidence) else if ending.NotVerified? then ending.seen else None
  }

  ghost predicate RequestTraced(run: Run, r: nat, q: Request, epoch: nat) {
    var id := IssuerForProofType(q.proofType);
    && (q.reply.Some? ==> FfiSaid(run, r, q.reply.value))
    && (EvidenceOf(q.pc).Some? && EvidenceOf(q.pc).value.root.Some? ==>
          RootCachedAtCheck(run, r, id, EvidenceOf(q.pc).value.root.value))
    && (EvidenceOf(q.pc).Some? && EvidenceOf(q.pc).value.rec.Some? ==>
          CertCachedAtCheck(run, r, id, EvidenceOf(q.pc).value.rec.value))
    && (q.pc.InTx? && !q.pc.stage.Begun? ==> CheckedAgainstIssue(run, r, q.pc.stage.at, q.pc.key, epoch))
  }

  ghost predicate CommitTraced(run: Run, commit: Committed) {
    CheckedAgainstIssue(run, commit.r, commit.checkedAt, commit.row.challenge, commit.epoch)
  }

  ghost predicate Traced(run: Run, s: State) {
    && (forall r :: 0 <= r < |s.requests| ==> RequestTraced(run, r, s.requests[r], s.epoch))
    && (forall i :: 0 <= i < |s.issued| ==> IssuedInRun(run, s.issued[i]))
    && (forall i :: 0 <= i < |s.commits| ==> CommitTraced(run, s.commits[i]))
  }

  // --------------------------------------------------- a longer run forgets nothing

  function Longer(run: Run, st: Step): Run {
    run.(steps := run.steps + [st])
  }

  lemma HappenedStays(run: Run, st: Step)
    ensures forall m: nat, e: Step, before: State :: Happened(run, m, e, before) ==> Happened(Longer(run, st), m, e, before)
  {
    forall m: nat, e: Step, before: State | Happened(run, m, e, before)
      ensures Happened(Longer(run, st), m, e, before)
    {
      assert (run.steps + [st])[..m] == run.steps[..m];
    }
  }

  lemma HappensNow(run: Run, s: State, st: Step)
    requires After(run.c, run.start, run.steps) == Some(s)
    ensures Happened(Longer(run, st), |run.steps|, st, s)
  {
    assert (run.steps + [st])[..|run.steps|] == run.steps;
  }

  lemma IssuedStays(run: Run, st: Step, m: nat, i: Issued)
    requires IssuedAt(run, m, i)
    ensures IssuedAt(Longer(run, st), m, i)
  {
    HappenedStays(run, st);
    hide Happened, IssuedValue, DecimalNat;
    var before: State, random: Seed, reading: int :| Happened(run, m, Issue(random, reading, false), before)
      && DecimalNat(IssuedValue(random)) !in before.db.challenges
      && i == Issued(IssuedValue(random), WholeSecond(reading + run.c.ttl), before.epoch);
    assert Happened(Longer(run, st), m, Issue(random, reading, false), before);
  }

  lemma CheckStays(run: Run, st: Step, r: nat, at: int, key: string, epoch: nat)
    requires CheckedAgainstIssue(run, r, at, key, epoch)
    ensures CheckedAgainstIssue(Longer(run, st), r, at, key, epoch)
  {
    hide Happened, DecimalNat, IssuedAt;
    var mi: nat, ms: nat, i: Issued :| mi < ms && IssuedAt(run, mi, i) && CheckedAt(run, ms, r, at, epoch)
      && i.epoch == epoch && key == DecimalNat(i.value) && at <= i.expiresAt;
    IssuedStays(run, st, mi, i);
    HappenedStays(run, st);
    assert CheckedAt(Longer(run, st), ms, r, at, epoch);
  }

  lemma TraceStays(run: Run, st: Step, r: nat, q: Request, epoch: nat)
    requires RequestTraced(run, r, q, epoch)
    ensures RequestTraced(Longer(run, st), r, q, epoch)
  {
    HappenedStays(run, st);
    hide Happened, CheckedAgainstIssue;
    if q.pc.InTx? && !q.pc.stage.Begun? {
      CheckStays(run, st, r, q.pc.stage.at, q.pc.key, epoch);
    }
  }

  lemma HistoryStays(run: Run, st: Step)
    ensures forall i :: IssuedInRun(run, i) ==> IssuedInRun(Longer(run, st), i)
    ensures forall commit :: CommitTraced(run, commit) ==> CommitTraced(Longer(run, st), commit)
  {
    hide IssuedAt, CheckedAgainstIssue;
    forall i | IssuedInRun(run, i) ensures IssuedInRun(Longer(run, st), i) {
      var m: nat :| IssuedAt(run, m, i);
      IssuedStays(run, st, m, i);
    }
    forall commit | CommitTraced(run, commit) ensures CommitTraced(Longer(run, st), commit) {
      CheckStays(run, st, commit.r, commit.checkedAt, commit.row.challenge, commit.epoch);
    }
  }

  // ------------------------------------------------------- every step is traced

  lemma FreshTraced(run: Run, s: State, st: Step)
    requires After(run.c, run.start, run.steps) == Some(s)
    requires Enabled(run.c, s, st) && Freshens(st)
    requires RequestTraced(run, st.r, s.requests[st.r], s.epoch)
    ensures RequestTraced(Longer(run, st), st.r, Apply(run.c, s, st).requests[st.r], s.epoch)
  {
    TraceStays(run, st, st.r, s.requests[st.r], s.epoch);
    HappensNow(run, s, st);
    hide After, Apply, RequestTraced, AfterFfi, AfterRoot, AfterCert, AfterApp;
    FreshEffect(run.c, s, st);
    ProgressTraced(Longer(run, st), |run.steps|, s, st, s.requests[st.r], Apply(run.c, s, st).requests[st.r]);
  }

  /** What a fresh check can add to a request: the reply, the root it read or the record it read. */
  ghost predicate Progress(s: State, st: Step, q: Request, p: Request) {
    var id := IssuerForProofType(q.proofType);
    var now := EvidenceOf(p.pc);
    && p.proofType == q.proofType && !p.pc.InTx? && Freshens(st)
    && (p.reply == q.reply || (st.Ffi? && p.reply == Some(st.reply)))
    && (now.Some? && now.value.root.Some? ==>
          (EvidenceOf(q.pc).Some? && now.value.root == EvidenceOf(q.pc).value.root)
          || (st.ReadRoot? && id in s.roots.cache.roots && now.value.root.value == s.roots.cache.roots[id]))
    && (now.Some? && now.value.rec.Some? ==>
          (EvidenceOf(q.pc).Some? && now.value.rec == EvidenceOf(q.pc).value.rec)
          || (st.ReadCert? && id in s.certs.cache.certs && now.value.rec.value == s.certs.cache.certs[id]))
  }

  lemma FreshEffect(c: Config, s: State, st: Step)
    requires Enabled(c, s, st) && Freshens(st)
    ensures st.r < |Apply(c, s, st).requests|
    ensures Progress(s, st, s.requests[st.r], Apply(c, s, st).requests[st.r])
  {
    hide ParsePublicInputs, CheckSmtRoot, CheckIssuerModulus, NormalizeDecimal, Publish, AreFields;
    if st.ReadRoot? {
      NoRootNoCheck(s.requests[st.r].pc.e.parsed);
    } else if st.ReadCert? {
      NoCertNoCheck(s.requests[st.r].pc.e.parsed);
    }
  }

  lemma ProgressTraced(run: Run, m: nat, s: State, st: Step, q: Request, p: Request)
    requires Freshens(st) && Happened(run, m, st, s) && RequestTraced(run, st.r, q, s.epoch) && Progress(s, st, q, p)
    ensures RequestTraced(run, st.r, p, s.epoch)
  {
    hide Happened, CheckedAgainstIssue;
  }

  lemma CarriedTraced(run: Run, s: State, st: Step)
    requires After(run.c, run.start, run.steps) == Some(s) && Inv(run.c, s)
    requires Enabled(run.c, s, st) && CarriesEvidence(st) && Traced(run, s)
    ensures st.r < |Apply(run.c, s, st).requests|
    ensures RequestTraced(Longer(run, st), st.r, Apply(run.c, s, st).requests[st.r], s.epoch)
  {
    hide After, Apply, RequestTraced, RequestsInv, AnchorInv, HistoryInv, TxInv, CheckedAgainstIssue, CommitTraced, IssuedInRun;
    TraceStays(run, st, st.r, s.requests[st.r], s.epoch);
    OnlyThisMoves(run.c, s, st);
    var pc := Apply(run.c, s, st).requests[st.r].pc;
    EvidenceCarried(run.c, s, st);
    StageCarried(run.c, s, st);
    if st.SelectRow? && pc.InTx? && !pc.stage.Begun? {
      SelectTraced(run, s, st);
    }
    CarryTraced(Longer(run, st), s, st, s.requests[st.r], pc);
  }

  lemma CarryTraced(run: Run, s: State, st: Step, q: Request, pc: Pc)
    requires CarriesEvidence(st) && RequestTraced(run, st.r, q, s.epoch)
    requires EvidenceOf(pc).Some? ==> EvidenceOf(pc) == EvidenceOf(q.pc)
    requires pc.InTx? && !pc.stage.Begun? ==>
               if st.SelectRow? then CheckedAgainstIssue(run, st.r, pc.stage.at, pc.key, s.epoch)
               else q.pc.InTx? && !q.pc.stage.Begun? && pc.stage.at == q.pc.stage.at && pc.key == q.pc.key
    ensures RequestTraced(run, st.r, q.(pc := pc), s.epoch)
  {
    hide Happened, CheckedAgainstIssue;
  }

  /** The row that the select found unexpired is the doing of an earlier step of this epoch. */
  lemma SelectTraced(run: Run, s: State, st: Step)
    requires After(run.c, run.start, run.steps) == Some(s) && TxInv(s) && HistoryInv(s)
    requires forall i :: 0 <= i < |s.issued| ==> IssuedInRun(run, s.issued[i])
    requires Enabled(run.c, s, st) && st.SelectRow? && Apply(run.c, s, st).requests[st.r].pc.InTx?
    ensures CheckedAgainstIssue(Longer(run, st), st.r, s.clock, s.requests[st.r].pc.key, s.epoch)
  {
    hide After, Apply, TxInv, DecimalNat, Consistent, RowsAreCommits, ExactlyOnce, CommitsMatchRequests, AllRedeem, IssuesKnown,
      Enabled, Happened, IssuedAt, IssuedInRun;
    HappensNow(run, s, st);
    SelectFinds(run.c, s, st);
    var mi, i := IssueBehind(run, s, s.requests[st.r].pc.key);
    IssuedStays(run, st, mi, i);
    assert CheckedAt(Longer(run, st), |run.steps|, st.r, s.clock, s.epoch);
  }

  /** Every row of the table was stored by a step of the current epoch. */
  lemma IssueBehind(run: Run, s: State, key: string) returns (mi: nat, i: Issued)
    requires IssuesKnown(s.db, s.issued, s.epoch) && key in s.db.challenges
    requires forall k :: 0 <= k < |s.issued| ==> IssuedInRun(run, s.issued[k])
    ensures mi < |run.steps| && IssuedAt(run, mi, i)
    ensures i.epoch == s.epoch && key == DecimalNat(i.value) && i.expiresAt == s.db.challenges[key].expiresAt
  {
    hide DecimalNat, IssuedAt, IsField;
    assert WasIssued(s.issued, s.epoch, key, s.db.challenges[key].expiresAt);
    var k :| 0 <= k < |s.issued| && s.issued[k].epoch == s.epoch && key == DecimalNat(s.issued[k].value)
             && s.db.challenges[key].expiresAt == s.issued[k].expiresAt;
    i := s.issued[k];
    assert IssuedInRun(run, i);
    mi :| IssuedAt(run, mi, i);
    IssuedEarlier(run, mi, i);
  }

  lemma IssuedEarlier(run: Run, m: nat, i: Issued)
    requires IssuedAt(run, m, i)
    ensures m < |run.steps|
  {
  }

  lemma SelectFinds(c: Config, s: State, st: Step)
    requires TxInv(s) && Enabled(c, s, st) && st.SelectRow? && Apply(c, s, st).requests[st.r].pc.InTx?
    ensures !st.fails && st.r < |s.requests| && s.requests[st.r].pc.InTx?
    ensures var key := s.requests[st.r].pc.key;
            key in s.db.challenges && s.clock <= s.db.challenges[key].expiresAt
  {
    hide Refusal, Redeemed, RowOf;
  }

  /** The time of the expiry check is set by the select and carried to the commit. */
  lemma StageCarried(c: Config, s: State, st: Step)
    requires Enabled(c, s, st) && CarriesEvidence(st)
    ensures StageOn(s.clock, st, s.requests[st.r].pc, Apply(c, s, st).requests[st.r].pc)
  {
    if st.Look? || st.CheckEarly? || st.BeginTx? {
      StageBeforeTx(c, s, st);
    } else {
      StageInTx(c, s, st);
    }
  }

  predicate StageOn(clock: int, st: Step, q: Pc, p: Pc) {
    && (EvidenceOf(p).Some? ==> EvidenceOf(p) == EvidenceOf(q))
    && (p.InTx? && !p.stage.Begun? ==>
          if st.SelectRow? then !st.fails && p.stage.at == clock && q.InTx? && p.key == q.key
          else q.InTx? && !q.stage.Begun? && p.stage.at == q.stage.at && p.key == q.key)
  }

  lemma StageBeforeTx(c: Config, s: State, st: Step)
    requires Enabled(c, s, st) && (st.Look? || st.CheckEarly? || st.BeginTx?)
    ensures StageOn(s.clock, st, s.requests[st.r].pc, Apply(c, s, st).requests[st.r].pc)
  {
    hide EarlyRefusal, Found, CheckedChallenge, LostUnexpired;
  }

  lemma StageInTx(c: Config, s: State, st: Step)
    requires Enabled(c, s, st) && (st.SelectRow? || st.InsertRow? || st.UpdateRow? || st.CommitTx?)
    ensures StageOn(s.clock, st, s.requests[st.r].pc, Apply(c, s, st).requests[st.r].pc)
  {
    hide InsertVerification, ConsumeChallenge, RowFor;
  }

  /** No transaction is open when the epoch changes. */
  lemma EpochSettled(c: Config, s: State, st: Step)
    requires TxInv(s) && Enabled(c, s, st) && !MovesRequest(st)
    ensures Apply(c, s, st).epoch == s.epoch || forall r :: 0 <= r < |s.requests| ==> !s.requests[r].pc.InTx?
  {
    hide StageInv, SmtProvider.Apply, IssuerCert.Apply, IssuedValue, InsertChallenge, DeleteChallenges;
  }

  lemma EpochOfTheRest(run: Run, r: nat, q: Request, epoch: nat, later: nat)
    requires RequestTraced(run, r, q, epoch) && (epoch == later || !q.pc.InTx?)
    ensures RequestTraced(run, r, q, later)
  {
  }

  lemma RequestsTraced(run: Run, s: State, st: Step)
    requires After(run.c, run.start, run.steps) == Some(s) && Inv(run.c, s) && Enabled(run.c, s, st) && Traced(run, s)
    ensures var t := Apply(run.c, s, st);
            forall r :: 0 <= r < |t.requests| ==> RequestTraced(Longer(run, st), r, t.requests[r], t.epoch)
  {
    hide RequestTraced, CommitTraced, IssuedInRun, RequestsInv, AnchorInv, HistoryInv, TxInv, Apply, After, Enabled;
    forall r | 0 <= r < |s.requests| ensures RequestTraced(Longer(run, st), r, s.requests[r], s.epoch) {
      TraceStays(run, st, r, s.requests[r], s.epoch);
    }
    var t := Apply(run.c, s, st);
    if MovesRequest(st) {
      InRangeOf(run.c, s, st);
      OnlyThisMoves(run.c, s, st);
      MovedTraced(run, s, st);
      forall r | 0 <= r < |t.requests| ensures RequestTraced(Longer(run, st), r, t.requests[r], t.epoch) {
        if r != st.r {
          assert t.requests[r] == s.requests[r];
        }
      }
    } else {
      OthersLeaveRequests(run.c, s, st);
      EpochSettled(run.c, s, st);
      ArrivalTraced(Longer(run, st), |s.requests|, t.epoch);
      forall r | 0 <= r < |t.requests| ensures RequestTraced(Longer(run, st), r, t.requests[r], t.epoch) {
        if r < |s.requests| {
          EpochOfTheRest(Longer(run, st), r, s.requests[r], s.epoch, t.epoch);
        } else {
          assert t.requests[r] == Request(st.proofType, None, Arrived);
        }
      }
    }
  }

  lemma MovedTraced(run: Run, s: State, st: Step)
    requires After(run.c, run.start, run.steps) == Some(s) && Inv(run.c, s) && Enabled(run.c, s, st) && Traced(run, s)
    requires MovesRequest(st)
    ensures st.r < |Apply(run.c, s, st).requests| && Apply(run.c, s, st).epoch == s.epoch
    ensures RequestTraced(Longer(run, st), st.r, Apply(run.c, s, st).requests[st.r], s.epoch)
  {
    hide RequestTraced, CommitTraced, IssuedInRun, RequestsInv, AnchorInv, HistoryInv, TxInv, Apply, After, Enabled;
    InRangeOf(run.c, s, st);
    OnlyThisMoves(run.c, s, st);
    if CarriesEvidence(st) {
      CarriedTraced(run, s, st);
    } else {
      FreshTraced(run, s, st);
    }
  }

  lemma InRangeOf(c: Config, s: State, st: Step)
    requires Enabled(c, s, st) && MovesRequest(st)
    ensures st.r < |s.requests|
  {
  }

  lemma ArrivalTraced(run: Run, r: nat, epoch: nat)
    ensures forall proofType :: RequestTraced(run, r, Request(proofType, None, Arrived), epoch)
  {
  }

  /** What a commit adds to the history is the transaction's own row and check. */
  lemma CommitAdds(c: Config, s: State, st: Step)
    requires TxInv(s) && Enabled(c, s, st) && st.CommitTx? && !st.fails
    ensures var q, t := s.requests[st.r].pc, Apply(c, s, st);
            t.issued == s.issued && |t.commits| == |s.commits| + 1 && t.commits[..|s.commits|] == s.commits
            && var commit := t.commits[|s.commits|];
               q.InTx? && !q.stage.Begun? && commit.r == st.r && commit.checkedAt == q.stage.at && commit.epoch == s.epoch
               && commit.row.challenge == q.key
  {
    hide Refusal, Redeemed;
  }

  lemma HistoryTraced(run: Run, s: State, st: Step)
    requires After(run.c, run.start, run.steps) == Some(s) && Inv(run.c, s) && Enabled(run.c, s, st) && Traced(run, s)
    ensures var t := Apply(run.c, s, st);
            && (forall i :: 0 <= i < |t.issued| ==> IssuedInRun(Longer(run, st), t.issued[i]))
            && (forall i :: 0 <= i < |t.commits| ==> CommitTraced(Longer(run, st), t.commits[i]))
  {
    hide Happened, After, IssuedInRun, CommitTraced, RequestTraced, RequestsInv, AnchorInv, HistoryInv, TxInv, Apply, Enabled;
    var t := Apply(run.c, s, st);
    if st.Issue? {
      HappensNow(run, s, st);
      IssueTraced(run, s, st);
    } else if st.CommitTx? && !st.fails {
      CommitAdds(run.c, s, st);
      InRangeOf(run.c, s, st);
      CommitOfStage(run, st.r, s.requests[st.r], s.epoch, t.commits[|s.commits|]);
      assert forall i :: 0 <= i < |s.commits| ==> t.commits[i] == t.commits[..|s.commits|][i];
    } else if st.CleanCommit? && !st.fails {
      WipeLeavesHistory(run.c, s, st);
    } else {
      UnrecordedStep(run.c, s, st);
    }
    HistoryStays(run, st);
  }

  lemma CommitOfStage(run: Run, r: nat, q: Request, epoch: nat, commit: Committed)
    requires RequestTraced(run, r, q, epoch) && q.pc.InTx? && !q.pc.stage.Begun?
    requires commit.r == r && commit.checkedAt == q.pc.stage.at && commit.row.challenge == q.pc.key && commit.epoch == epoch
    ensures CommitTraced(run, commit)
  {
  }

  lemma WipeLeavesHistory(c: Config, s: State, st: Step)
    requires Enabled(c, s, st) && st.CleanCommit?
    ensures var t := Apply(c, s, st); t.issued == s.issued && t.commits == s.commits
  {
  }

  lemma IssueTraced(run: Run, s: State, st: Step)
    requires Enabled(run.c, s, st) && st.Issue? && Happened(Longer(run, st), |run.steps|, st, s)
    ensures var t := Apply(run.c, s, st);
            && t.commits == s.commits
            && (t.issued == s.issued
                || exists i :: IssuedInRun(Longer(run, st), i) && t.issued == s.issued + [i])
  {
    hide Happened, IssuedValue, WholeSecond, DecimalNat;
    var i := Issued(IssuedValue(st.random), WholeSecond(st.reading + run.c.ttl), s.epoch);
    if Apply(run.c, s, st).issued != s.issued {
      assert Longer(run, st).c == run.c && st == Issue(st.random, st.reading, false);
      assert IssuedAt(Longer(run, st), |run.steps|, i);
    }
  }

  lemma {:induction false} EverythingTraced(run: Run)
    requires After(run.c, run.start, run.steps).Some?
    ensures Traced(run, After(run.c, run.start, run.steps).value)
    decreases |run.steps|
  {
    hide Traced, Enabled, Apply, Initial;
    if run.steps == [] {
      NothingTraced(run);
    } else {
      var st := run.steps[|run.steps| - 1];
      var earlier := run.(steps := run.steps[..|run.steps| - 1]);
      EverythingTraced(earlier);
      assert run == Longer(earlier, st);
      var s := After(run.c, run.start, earlier.steps).value;
      StepTraced(earlier, s, st);
    }
  }

  lemma StepTraced(run: Run, s: State, st: Step)
    requires After(run.c, run.start, run.steps) == Some(s) && Enabled(run.c, s, st) && Traced(run, s)
    ensures Traced(Longer(run, st), Apply(run.c, s, st))
  {
    EveryRun(run.c, run.start, run.steps);
    hide After, Enabled, Apply, RequestTraced, IssuedInRun, CommitTraced, Inv;
    RequestsTraced(run, s, st);
    HistoryTraced(run, s, st);
  }

  lemma NothingTraced(run: Run)
    requires run.steps == [] && After(run.c, run.start, run.steps).Some?
    ensures Traced(run, After(run.c, run.start, run.steps).value)
  {
  }

  // ------------------------------------------------------------- end to end

  /** What the FFI linked for this request matched the anchors cached when it looked, and the app-id, as integers. */
  ghost predicate ProofJustified(run: Run, r: nat, proofType: string, f: FieldSignals) {
    var k := LimbCount(ChainType(proofType));
    var id := IssuerForProofType(proofType);
    && |f.certChain| == k + 2 && |f.userSig| == 4
    && FfiSaid(run, r, Judged(true, f)) && f.certChain[0] == f.userSig[0]
    && (exists root: Root :: RootCachedAtCheck(run, r, id, root) && f.certChain[k + 1] == RootValue(root))
    && (exists rec: IssuerCert.CertRecord :: CertCachedAtCheck(run, r, id, rec) && IssuerCert.Genuine(run.c.world, id, rec)
          && Digits(f.certChain[1..k + 1], Limbs.Radix()) && LE(f.certChain[1..k + 1], Limbs.Radix()) == rec.modulus)
    && f.userSig[2] == LE(run.c.appID, 256)
  }

  /**
   The challenge v was issued by a step that stored it, and checked by a later step of
   the request's own transaction, in the same epoch and before its expiry.
   */
  ghost predicate RedeemsEarlierIssue(run: Run, r: nat, v: nat, epoch: nat) {
    exists mi: nat, ms: nat, i: Issued, at: int :: mi < ms && IssuedAt(run, mi, i) && CheckedAt(run, ms, r, at, epoch)
      && i.value == v && i.epoch == epoch && at <= i.expiresAt
  }

  /** The recorded type tells the two circuits apart by the number of signals. */
  predicate TypeTold(proofType: string, f: FieldSignals, recorded: string) {
    && (recorded == "link_rs4096" <==> |f.certChain| == 36)
    && (recorded == "link_rs2048" <==> |f.certChain| == 19)
    && (recorded == "link_rs4096" <==> proofType == RS4096_NAME)
  }

  /** Everything a recorded row stands for, as integers and as steps of the run. */
  ghost predicate Justified(run: Run, s: State, row: VerificationRow, commit: Committed) {
    && commit.r < |s.requests| && s.requests[commit.r].reply.Some? && s.requests[commit.r].reply.value.Judged?
    && var q := s.requests[commit.r];
       var f := q.reply.value.signals;
       && ProofJustified(run, commit.r, q.proofType, f)
       && row.nullifier == FieldToHex(f.userSig[1])
       && row.challenge == DecimalNat(f.userSig[3])
       && row.proofType == StoreKey(q.proofType) && row.proof == None
       && TypeTold(q.proofType, f, row.proofType)
       && RedeemsEarlierIssue(run, commit.r, f.userSig[3], commit.epoch)
  }

  lemma RequestJustified(run: Run, r: nat, q: Request)
    requires IsRecorded(q) && RequestInv(run.c, q) && exists epoch :: RequestTraced(run, r, q, epoch)
    ensures q.reply.Some? && q.reply.value.Judged?
    ensures var f, ending := q.reply.value.signals, q.pc.ending;
            && ProofJustified(run, r, q.proofType, f)
            && ending.evidence.parsed.nullifier == FieldToHex(f.userSig[1])
            && ending.key == DecimalNat(f.userSig[3])
  {
    hide Happened, RootCachedAtCheck, CertCachedAtCheck, FfiSaid, CheckedAgainstIssue, Limbs.Radix, LE, ParsePublicInputs, Publish,
      AreFields, IssuerCert.Genuine, DecimalNat, FieldToHex, RootValue, Digits;
  }

  lemma CommitIssue(run: Run, commit: Committed, v: nat)
    requires CommitTraced(run, commit) && commit.row.challenge == DecimalNat(v)
    ensures RedeemsEarlierIssue(run, commit.r, v, commit.epoch)
  {
    hide IssuedAt, CheckedAt, DecimalNat;
    var mi: nat, ms: nat, i: Issued :| mi < ms && IssuedAt(run, mi, i) && CheckedAt(run, ms, commit.r, commit.checkedAt, commit.epoch)
      && i.epoch == commit.epoch && commit.row.challenge == DecimalNat(i.value) && commit.checkedAt <= i.expiresAt;
    KeysDistinct(i.value, v);
  }

  lemma EverythingKept(run: Run, s: State)
    requires After(run.c, run.start, run.steps) == Some(s)
    ensures RequestsInv(run.c, s.requests) && CommitsMatchRequests(s.requests, s.commits) && AllRedeem(s.issued, s.commits)
    ensures RowsAreCommits(s.db, s.commits, s.epoch, s.epochStart)
  {
    EveryRun(run.c, run.start, run.steps);
  }

  lemma CommitJustified(run: Run, s: State, i: nat)
    requires After(run.c, run.start, run.steps) == Some(s) && i < |s.commits|
    ensures Justified(run, s, s.commits[i].row, s.commits[i])
  {
    EverythingKept(run, s);
    EverythingTraced(run);
    hide After, RequestInv, RequestTraced, ProofJustified, TypeTold, StoreKey, RedeemsEarlierIssue, IssuedInRun, CommitTraced, RowsAreCommits, AllRedeem;
    var commit := s.commits[i];
    assert CommitOf(s.requests, commit);
    var q := s.requests[commit.r];
    assert RequestTraced(run, commit.r, q, s.epoch);
    RequestJustified(run, commit.r, q);
    SignalsPresent(run, commit.r, q.proofType, q.reply.value.signals);
    CommitIssue(run, commit, q.reply.value.signals.userSig[3]);
  }

  lemma SignalsPresent(run: Run, r: nat, proofType: string, f: FieldSignals)
    requires ProofJustified(run, r, proofType, f)
    ensures |f.userSig| == 4
    ensures TypeTold(proofType, f, StoreKey(proofType))
  {
  }

  /**
   In every reachable state of any number of interleaved requests, issues, refreshes
   and wipes, each verification row is justified end to end.
   */
  lemma EndToEnd(run: Run, s: State, i: nat)
    requires After(run.c, run.start, run.steps) == Some(s) && i < |s.db.verifications|
    ensures s.epochStart + i < |s.commits|
    ensures s.commits[s.epochStart + i].epoch == s.epoch
    ensures Justified(run, s, s.db.verifications[i], s.commits[s.epochStart + i])
  {
    EverythingKept(run, s);
    assert s.commits[s.epochStart + i].row == s.db.verifications[s.epochStart + i - s.epochStart];
    CommitJustified(run, s, s.epochStart + i);
  }
}
