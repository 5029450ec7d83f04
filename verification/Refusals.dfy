/**
 Why a request was refused: each answer goes back to the request's own step and to what
 the history of that epoch then said of its challenge and nullifier, as integers.
 */
module Refusals {
  import opened Wrappers
  import opened Clock
  import opened Numerals
  import opened GoText
  import opened PublicInputs
  import opened SmtRoot
  import opened Store
  import opened LinkVerify
  import opened System
  import opened Safety
  import opened Provenance
  import opened EarlyCheck
  import Limbs
  import SmtProvider
  import IssuerCert

  // ------------------------------------------------- the tables and the history

  /** What was issued in this epoch is still in the table, with its expiry. */
  ghost predicate IssuesPresent(db: Database, issued: seq<Issued>, epoch: nat) {
    forall k :: 0 <= k < |issued| ==>
      issued[k].epoch <= epoch && (issued[k].epoch == epoch ==> Stored(db, issued[k]))
  }

  predicate Stored(db: Database, i: Issued) {
    var key := DecimalNat(i.value);
    key in db.challenges && db.challenges[key].expiresAt == i.expiresAt
  }

  /** Issue i is the one this request found. */
  predicate FoundIssue(pc: Pc, i: Issued)
    requires pc.Looked?
  {
    i.epoch == pc.since && pc.key == DecimalNat(i.value) && pc.found.expiresAt == i.expiresAt
  }

  ghost predicate LooksKnown(requests: seq<Request>, issued: seq<Issued>) {
    forall r :: 0 <= r < |requests| && requests[r].pc.Looked? ==> exists k :: 0 <= k < |issued| && FoundIssue(requests[r].pc, issued[k])
  }

  /** The public values behind a refused request. */
  predicate HasSignals(q: Request) {
    q.reply.Some? && q.reply.value.Judged? && |q.reply.value.signals.userSig| == 4
  }

  /** The issue of this request's challenge was lost unexpired. */
  predicate LostIssue(wipes: seq<int>, q: Request, i: Issued) {
    HasSignals(q) && i.value == q.reply.value.signals.userSig[3] && LostUnexpired(wipes, i.epoch, i.expiresAt)
  }

  ghost predicate LossesKnown(requests: seq<Request>, issued: seq<Issued>, wipes: seq<int>) {
    forall r :: 0 <= r < |requests| && Overtaken(requests[r]) ==> exists k :: 0 <= k < |issued| && LostIssue(wipes, requests[r], issued[k])
  }

  ghost predicate LedgerInv(s: State) {
    && IssuesPresent(s.db, s.issued, s.epoch)
    && LooksKnown(s.requests, s.issued)
    && LossesKnown(s.requests, s.issued, s.wipes)
  }

  /** The history only grows. */
  ghost predicate Grows(s: State, t: State) {
    && |t.issued| >= |s.issued| && t.issued[..|s.issued|] == s.issued
    && |t.wipes| >= |s.wipes| && t.wipes[..|s.wipes|] == s.wipes
  }

  lemma StepGrows(c: Config, s: State, st: Step)
    requires Enabled(c, s, st)
    ensures Grows(s, Apply(c, s, st))
  {
    if MovesRequest(st) {
      OnlyThisMoves(c, s, st);
      hide Apply;
    } else {
      hide SmtProvider.Apply, IssuerCert.Apply, IssuedValue, InsertChallenge, DeleteChallenges;
    }
  }

  lemma IssueAdds(c: Config, s: State, st: Step)
    requires Enabled(c, s, st) && st.Issue?
    ensures var t := Apply(c, s, st);
            t == s || (t.epoch == s.epoch && |t.issued| == |s.issued| + 1 && t.issued[|s.issued|].epoch == s.epoch
                       && ExpiriesKept(s.db, t.db) && Stored(t.db, t.issued[|s.issued|]))
  {
    hide IssuedValue, DecimalNat;
  }

  lemma OnlyIssuesIssue(c: Config, s: State, st: Step)
    requires Enabled(c, s, st) && !st.Issue?
    ensures Apply(c, s, st).issued == s.issued
  {
    if MovesRequest(st) {
      OnlyThisMoves(c, s, st);
      hide Apply;
    } else {
      hide SmtProvider.Apply, IssuerCert.Apply, DeleteChallenges;
    }
  }

  lemma IssuesStayPresent(c: Config, s: State, st: Step)
    requires TxInv(s) && IssuesPresent(s.db, s.issued, s.epoch) && Enabled(c, s, st)
    ensures var t := Apply(c, s, st); IssuesPresent(t.db, t.issued, t.epoch)
  {
    hide Apply, TxInv, DecimalNat, Enabled;
    var t := Apply(c, s, st);
    StepGrows(c, s, st);
    if st.Issue? {
      IssueAdds(c, s, st);
    } else {
      OnlyIssuesIssue(c, s, st);
      EpochAndExpiries(c, s, st);
    }
    forall k | 0 <= k < |t.issued|
      ensures t.issued[k].epoch <= t.epoch && (t.issued[k].epoch == t.epoch ==> Stored(t.db, t.issued[k]))
    {
      if k < |s.issued| {
        assert t.issued[k] == t.issued[..|s.issued|][k];
      }
    }
  }

  lemma FoundStays(s: State, t: State, pc: Pc)
    requires Grows(s, t) && pc.Looked? && exists k :: 0 <= k < |s.issued| && FoundIssue(pc, s.issued[k])
    ensures exists k :: 0 <= k < |t.issued| && FoundIssue(pc, t.issued[k])
  {
    hide DecimalNat;
    var k :| 0 <= k < |s.issued| && FoundIssue(pc, s.issued[k]);
    assert t.issued[k] == t.issued[..|s.issued|][k];
  }

  lemma LossStays(s: State, t: State, q: Request)
    requires Grows(s, t) && exists k :: 0 <= k < |s.issued| && LostIssue(s.wipes, q, s.issued[k])
    ensures exists k :: 0 <= k < |t.issued| && LostIssue(t.wipes, q, t.issued[k])
  {
    var k :| 0 <= k < |s.issued| && LostIssue(s.wipes, q, s.issued[k]);
    assert t.issued[k] == t.issued[..|s.issued|][k];
    assert t.wipes[s.issued[k].epoch] == t.wipes[..|s.wipes|][s.issued[k].epoch];
    assert LostIssue(t.wipes, q, t.issued[k]);
  }

  /** What a look finds is an issue of this epoch. */
  lemma LookFindsIssue(c: Config, s: State, st: Step)
    requires Enabled(c, s, st) && MovesRequest(st) && IssuesKnown(s.db, s.issued, s.epoch)
    ensures var t := Apply(c, s, st);
            st.r < |t.requests| && t.issued == s.issued
            && (t.requests[st.r].pc.Looked? ==> exists k :: 0 <= k < |t.issued| && FoundIssue(t.requests[st.r].pc, t.issued[k]))
  {
    OnlyThisMoves(c, s, st);
    LookSees(c, s, st);
    hide Apply, DecimalNat, IsField;
    var pc := Apply(c, s, st).requests[st.r].pc;
    if pc.Looked? {
      assert WasIssued(s.issued, s.epoch, pc.key, s.db.challenges[pc.key].expiresAt);
      var k :| 0 <= k < |s.issued| && s.issued[k].epoch == s.epoch && pc.key == DecimalNat(s.issued[k].value)
               && s.db.challenges[pc.key].expiresAt == s.issued[k].expiresAt;
      assert FoundIssue(pc, s.issued[k]);
    }
  }

  lemma LooksStayKnown(c: Config, s: State, st: Step)
    requires IssuesKnown(s.db, s.issued, s.epoch) && LooksKnown(s.requests, s.issued) && Enabled(c, s, st)
    ensures var t := Apply(c, s, st); LooksKnown(t.requests, t.issued)
  {
    hide Apply, FoundIssue, IssuesKnown, Enabled;
    var t := Apply(c, s, st);
    StepGrows(c, s, st);
    RequestsMove(c, s, st);
    forall r | 0 <= r < |t.requests| && t.requests[r].pc.Looked?
      ensures exists k :: 0 <= k < |t.issued| && FoundIssue(t.requests[r].pc, t.issued[k])
    {
      if MovesRequest(st) && r == st.r {
        LookFindsIssue(c, s, st);
      } else {
        FoundStays(s, t, t.requests[r].pc);
      }
    }
  }

  // --------------------------------------------------- the step that turns away

  lemma PresentedSignals(proofType: string, q: Request)
    requires Presented(proofType, q.reply)
    ensures HasSignals(q)
  {
  }

  lemma OwnKey(c: Config, q: Request)
    requires RequestInv(c, q) && (q.pc.Keyed? || q.pc.Looked? || q.pc.Passed? || q.pc.InTx?)
    ensures HasSignals(q) && AreFields(q.reply.value.signals)
    ensures q.pc.key == DecimalNat(q.reply.value.signals.userSig[3]) && q.pc.e.parsed.nullifier == FieldToHex(q.reply.value.signals.userSig[1])
  {
    hide CertFact, AppMissed, ParsePublicInputs, Publish, DecimalNat, FieldToHex, IsField;
  }

  /** Only the early check finds a challenge overtaken. */
  lemma OvertakenNow(c: Config, s: State, st: Step)
    requires Enabled(c, s, st) && MovesRequest(st)
    requires st.r < |Apply(c, s, st).requests| && EarlyEnded(Apply(c, s, st).requests[st.r])
    ensures st.Look? || st.CheckEarly?
    ensures st.Look? ==> !Overtaken(Apply(c, s, st).requests[st.r])
  {
    hide ParsePublicInputs, CheckSmtRoot, CheckIssuerModulus, NormalizeDecimal, Publish, AreFields, Links,
      InsertVerification, ConsumeChallenge, RowFor, CheckedChallenge, EarlyRefusal;
  }

  /** The early check that turns a request away: the issue it found had expired. */
  lemma CheckTurnsAway(c: Config, s: State, r: nat)
    requires Enabled(c, s, CheckEarly(r)) && RequestInv(c, s.requests[r]) && LooksKnown(s.requests, s.issued)
    requires EarlyEnded(Apply(c, s, CheckEarly(r)).requests[r])
    ensures var p := Apply(c, s, CheckEarly(r)).requests[r];
            && p.reply == s.requests[r].reply && HasSignals(p) && p.pc.ending.refusal == ChallengeExpired
            && exists k :: 0 <= k < |s.issued| && ExpiredIssue(s, p, s.issued[k])
  {
    CheckEarlyEffect(c, s, r);
    OwnKey(c, s.requests[r]);
    hide Apply, RequestInv, DecimalNat, LostUnexpired, IsField;
    var pc := s.requests[r].pc;
    var k :| 0 <= k < |s.issued| && FoundIssue(pc, s.issued[k]);
    KeysDistinct(s.issued[k].value, s.requests[r].reply.value.signals.userSig[3]);
    assert ExpiredIssue(s, Apply(c, s, CheckEarly(r)).requests[r], s.issued[k]);
  }

  /** This issue of the request's challenge had expired; the request is marked overtaken exactly if a wipe took it unexpired. */
  predicate ExpiredIssue(s: State, p: Request, i: Issued) {
    && HasSignals(p) && i.value == p.reply.value.signals.userSig[3] && i.expiresAt < s.clock
    && (Overtaken(p) <==> LostUnexpired(s.wipes, i.epoch, i.expiresAt))
  }

  lemma LossesStayKnown(c: Config, s: State, st: Step)
    requires RequestsInv(c, s.requests) && LedgerInv(s) && Enabled(c, s, st)
    ensures var t := Apply(c, s, st); LossesKnown(t.requests, t.issued, t.wipes)
  {
    hide Apply, RequestInv, LostIssue, IssuesPresent, FoundIssue;
    var t := Apply(c, s, st);
    StepGrows(c, s, st);
    RequestsMove(c, s, st);
    forall r | 0 <= r < |t.requests| && Overtaken(t.requests[r])
      ensures exists k :: 0 <= k < |t.issued| && LostIssue(t.wipes, t.requests[r], t.issued[k])
    {
      if MovesRequest(st) && r == st.r {
        OvertakenNow(c, s, st);
        OnlyThisMoves(c, s, st);
        CheckTurnsAway(c, s, r);
        var k :| 0 <= k < |s.issued| && ExpiredIssue(s, t.requests[r], s.issued[k]);
        assert LostIssue(t.wipes, t.requests[r], t.issued[k]) by { LossOf(s, t.requests[r], s.issued[k]); }
      } else {
        LossStays(s, t, t.requests[r]);
      }
    }
  }

  lemma LossOf(s: State, p: Request, i: Issued)
    requires ExpiredIssue(s, p, i) && Overtaken(p)
    ensures LostIssue(s.wipes, p, i)
  {
  }

  lemma LedgerKept(c: Config, s: State, st: Step)
    requires Inv(c, s) && LedgerInv(s) && Enabled(c, s, st)
    ensures LedgerInv(Apply(c, s, st))
  {
    IssuesStayPresent(c, s, st);
    LooksStayKnown(c, s, st);
    LossesStayKnown(c, s, st);
    hide Apply, IssuesPresent, LooksKnown, LossesKnown, Inv;
  }

  lemma {:induction false} LedgerInEveryRun(c: Config, start: int, steps: seq<Step>)
    requires After(c, start, steps).Some?
    ensures LedgerInv(After(c, start, steps).value)
    decreases |steps|
  {
    if steps != [] {
      var init, st := steps[..|steps| - 1], steps[|steps| - 1];
      LedgerInEveryRun(c, start, init);
      EveryRun(c, start, init);
      LedgerKept(c, After(c, start, init).value, st);
      hide Apply, LedgerInv, Inv;
    }
  }

  // ------------------------------------------------ the cause of each refusal

  /** What the history of the current epoch says against these public values. */
  ghost predicate Cause(s: State, f: FieldSignals, refusal: StoreError)
    requires |f.userSig| == 4
  {
    match refusal
    case ChallengeNotFound => forall k :: 0 <= k < |s.issued| && s.issued[k].epoch == s.epoch ==> s.issued[k].value != f.userSig[3]
    case ChallengeExpired =>
      exists k :: 0 <= k < |s.issued| && s.issued[k].epoch == s.epoch && s.issued[k].value == f.userSig[3] && s.issued[k].expiresAt < s.clock
    case ChallengeConsumed =>
      exists i: nat, v: nat :: i < |s.commits| && s.commits[i].epoch == s.epoch && CommitSigned(s.requests, s.commits[i], v, f.userSig[3])
    case DuplicateNullifier =>
      exists i: nat, x: nat :: i < |s.commits| && s.commits[i].epoch == s.epoch && CommitSigned(s.requests, s.commits[i], f.userSig[1], x)
    case Io(_) => true
  }

  /** The step of r that gives this answer, taken in a state that has the cause. */
  ghost predicate Explains(s: State, st: Step, r: nat, p: Request) {
    HasSignals(p) && p.pc.Finished?
    && match p.pc.ending
       case Denied(refusal) =>
         st == (if refusal == DuplicateNullifier then InsertRow(r, false) else SelectRow(r, false))
         && Cause(s, p.reply.value.signals, refusal)
       case TurnedAway(refusal, _) =>
         if refusal == ChallengeNotFound then st == Look(r, false) && Cause(s, p.reply.value.signals, refusal)
         else st == CheckEarly(r) && refusal == ChallengeExpired
              && exists k :: 0 <= k < |s.issued| && ExpiredIssue(s, p, s.issued[k])
       case _ => false
  }

  predicate IsRefused(p: Request) {
    p.pc.Finished? && ((p.pc.ending.Denied? && !p.pc.ending.refusal.Io?) || (p.pc.ending.TurnedAway? && !p.pc.ending.refusal.Io?))
  }

  lemma UnknownCause(s: State, f: FieldSignals)
    requires IssuesPresent(s.db, s.issued, s.epoch) && |f.userSig| == 4 && DecimalNat(f.userSig[3]) !in s.db.challenges
    ensures Cause(s, f, ChallengeNotFound)
  {
    hide DecimalNat;
    forall k | 0 <= k < |s.issued| && s.issued[k].epoch == s.epoch ensures s.issued[k].value != f.userSig[3] {
      assert Stored(s.db, s.issued[k]);
    }
  }

  lemma ExpiredCause(s: State, f: FieldSignals)
    requires IssuesKnown(s.db, s.issued, s.epoch) && |f.userSig| == 4
    requires var key := DecimalNat(f.userSig[3]); key in s.db.challenges && s.clock > s.db.challenges[key].expiresAt
    ensures Cause(s, f, ChallengeExpired)
  {
    hide DecimalNat, IsField;
    var key := DecimalNat(f.userSig[3]);
    assert WasIssued(s.issued, s.epoch, key, s.db.challenges[key].expiresAt);
    var k :| 0 <= k < |s.issued| && s.issued[k].epoch == s.epoch && key == DecimalNat(s.issued[k].value)
             && s.db.challenges[key].expiresAt == s.issued[k].expiresAt;
    KeysDistinct(s.issued[k].value, f.userSig[3]);
  }

  lemma ConsumedCause(c: Config, s: State, f: FieldSignals)
    requires RequestsInv(c, s.requests) && CommitsMatchRequests(s.requests, s.commits) && Consistent(s.db)
    requires RowsAreCommits(s.db, s.commits, s.epoch, s.epochStart) && |f.userSig| == 4
    requires var key := DecimalNat(f.userSig[3]); key in s.db.challenges && s.db.challenges[key].consumedAt.Some?
    ensures Cause(s, f, ChallengeConsumed)
  {
    hide RequestsInv, CommitsMatchRequests, DecimalNat, FieldToHex, IsField;
    var key := DecimalNat(f.userSig[3]);
    var k :| 0 <= k < |s.db.verifications| && s.db.verifications[k].challenge == key;
    var i := s.epochStart + k;
    assert s.commits[i].row == s.db.verifications[i - s.epochStart];
    var v, x := SignedCommit(c, s.requests, s.commits, i);
    KeysDistinct(x, f.userSig[3]);
  }

  lemma DuplicateCause(c: Config, s: State, f: FieldSignals)
    requires RequestsInv(c, s.requests) && CommitsMatchRequests(s.requests, s.commits)
    requires RowsAreCommits(s.db, s.commits, s.epoch, s.epochStart) && |f.userSig| == 4 && IsField(f.userSig[1])
    requires HasNullifier(s.db, FieldToHex(f.userSig[1]))
    ensures Cause(s, f, DuplicateNullifier)
  {
    hide RequestsInv, CommitsMatchRequests, FieldToHex, IsField, CommitSigned;
    var i := ReusedBy(c, s, f.userSig[1]);
    assert s.commits[i].epoch == s.epoch;
  }

  /** What a select or insert that refuses has found. */
  lemma SelectRefuses(c: Config, s: State, st: Step)
    requires TxInv(s) && Enabled(c, s, st) && (st.SelectRow? || st.InsertRow?) && IsRefused(Apply(c, s, st).requests[st.r])
    ensures s.requests[st.r].pc.InTx? && !st.fails
    ensures var q, p := s.requests[st.r], Apply(c, s, st).requests[st.r];
            && p.reply == q.reply && p.pc.ending.Denied?
            && match p.pc.ending.refusal
               case ChallengeNotFound => st.SelectRow? && q.pc.key !in s.db.challenges
               case ChallengeExpired => st.SelectRow? && q.pc.key in s.db.challenges && s.clock > s.db.challenges[q.pc.key].expiresAt
               case ChallengeConsumed => st.SelectRow? && q.pc.key in s.db.challenges && s.db.challenges[q.pc.key].consumedAt.Some?
               case DuplicateNullifier => st.InsertRow? && HasNullifier(s.db, q.pc.e.parsed.nullifier)
               case Io(_) => false
  {
    hide Refusal, Redeemed, RowOf;
  }

  lemma OthersNeverRefuse(c: Config, s: State, st: Step)
    requires Enabled(c, s, st) && MovesRequest(st) && !st.SelectRow? && !st.InsertRow?
    requires st.r < |Apply(c, s, st).requests| && IsRefused(Apply(c, s, st).requests[st.r])
    ensures st.Look? || st.CheckEarly?
    ensures st.Look? ==> !st.fails && s.requests[st.r].pc.Keyed? && s.requests[st.r].pc.key !in s.db.challenges
                         && Apply(c, s, st).requests[st.r] == s.requests[st.r].(pc := Finished(TurnedAway(ChallengeNotFound, false)))
    ensures st.CheckEarly? ==> EarlyEnded(Apply(c, s, st).requests[st.r])
  {
    hide ParsePublicInputs, CheckSmtRoot, CheckIssuerModulus, NormalizeDecimal, Publish, AreFields, Links,
      ConsumeChallenge, CheckedChallenge, EarlyRefusal;
  }

  lemma TxExplained(c: Config, s: State, st: Step)
    requires RequestsInv(c, s.requests) && TxInv(s) && HistoryInv(s) && IssuesPresent(s.db, s.issued, s.epoch)
    requires Enabled(c, s, st) && (st.SelectRow? || st.InsertRow?)
    requires st.r < |Apply(c, s, st).requests| && IsRefused(Apply(c, s, st).requests[st.r])
    ensures Explains(s, st, st.r, Apply(c, s, st).requests[st.r])
  {
    hide Apply, RequestInv, TxInv, HistoryInv, Cause, IssuesPresent, DecimalNat, FieldToHex, Enabled, IsField, HasNullifier, AreFields;
    InRangeOf(c, s, st);
    SelectRefuses(c, s, st);
    var q := s.requests[st.r];
    assert RequestInv(c, q);
    OwnKey(c, q);
    CauseFound(c, s, q, Apply(c, s, st).requests[st.r].pc.ending.refusal);
  }

  /** The refused statement's finding is the cause. */
  lemma CauseFound(c: Config, s: State, q: Request, refusal: StoreError)
    requires RequestsInv(c, s.requests) && HistoryInv(s) && IssuesPresent(s.db, s.issued, s.epoch)
    requires q.pc.InTx? && HasSignals(q) && AreFields(q.reply.value.signals)
    requires q.pc.key == DecimalNat(q.reply.value.signals.userSig[3])
    requires q.pc.e.parsed.nullifier == FieldToHex(q.reply.value.signals.userSig[1])
    requires match refusal
             case ChallengeNotFound => q.pc.key !in s.db.challenges
             case ChallengeExpired => q.pc.key in s.db.challenges && s.clock > s.db.challenges[q.pc.key].expiresAt
             case ChallengeConsumed => q.pc.key in s.db.challenges && s.db.challenges[q.pc.key].consumedAt.Some?
             case DuplicateNullifier => HasNullifier(s.db, q.pc.e.parsed.nullifier)
             case Io(_) => false
    ensures Cause(s, q.reply.value.signals, refusal)
  {
    hide RequestsInv, Cause, Consistent, RowsAreCommits, CommitsMatchRequests, IssuesKnown, ExactlyOnce, AllRedeem, IssuesPresent,
      DecimalNat, FieldToHex, IsField;
    var f := q.reply.value.signals;
    match refusal {
      case ChallengeNotFound => UnknownCause(s, f);
      case ChallengeExpired => ExpiredCause(s, f);
      case ChallengeConsumed => ConsumedCause(c, s, f);
      case DuplicateNullifier => DuplicateCause(c, s, f);
    }
  }

  lemma StepExplains(c: Config, s: State, st: Step)
    requires Inv(c, s) && LedgerInv(s) && Enabled(c, s, st) && MovesRequest(st)
    requires st.r < |Apply(c, s, st).requests| && IsRefused(Apply(c, s, st).requests[st.r])
    ensures Explains(s, st, st.r, Apply(c, s, st).requests[st.r])
  {
    hide Apply, RequestInv, TxInv, AnchorInv, HistoryInv, Explains, IssuesPresent, LooksKnown, LossesKnown, Enabled;
    InRangeOf(c, s, st);
    if st.SelectRow? || st.InsertRow? {
      TxExplained(c, s, st);
    } else {
      OthersNeverRefuse(c, s, st);
      if st.Look? {
        LookExplained(c, s, st);
      } else {
        CheckExplained(c, s, st);
      }
    }
  }

  lemma LookExplained(c: Config, s: State, st: Step)
    requires Enabled(c, s, st) && st.Look? && !st.fails && IssuesPresent(s.db, s.issued, s.epoch)
    requires st.r < |s.requests| && RequestInv(c, s.requests[st.r]) && s.requests[st.r].pc.Keyed? && s.requests[st.r].pc.key !in s.db.challenges
    requires st.r < |Apply(c, s, st).requests|
    requires Apply(c, s, st).requests[st.r] == s.requests[st.r].(pc := Finished(TurnedAway(ChallengeNotFound, false)))
    ensures Explains(s, st, st.r, Apply(c, s, st).requests[st.r])
  {
    hide Apply, RequestInv, IssuesPresent, DecimalNat, FieldToHex, Cause, Enabled, AreFields;
    OwnKey(c, s.requests[st.r]);
    UnknownCause(s, s.requests[st.r].reply.value.signals);
  }

  lemma CheckExplained(c: Config, s: State, st: Step)
    requires Enabled(c, s, st) && st.CheckEarly? && st.r < |s.requests| && RequestInv(c, s.requests[st.r])
    requires LooksKnown(s.requests, s.issued) && st.r < |Apply(c, s, st).requests| && EarlyEnded(Apply(c, s, st).requests[st.r])
    ensures Explains(s, st, st.r, Apply(c, s, st).requests[st.r])
  {
    hide Apply, RequestInv, LooksKnown, ExpiredIssue, Enabled;
    CheckTurnsAway(c, s, st.r);
  }

  /** The refusal of r was given by a step of r's own, in a state that has its cause. */
  ghost predicate Explained(run: Run, r: nat, p: Request) {
    exists m: nat, st: Step, before: State :: Happened(run, m, st, before) && Explains(before, st, r, p)
  }

  ghost predicate AllExplained(run: Run, requests: seq<Request>) {
    forall r :: 0 <= r < |requests| && IsRefused(requests[r]) ==> Explained(run, r, requests[r])
  }

  lemma ExplainedStays(run: Run, st: Step, r: nat, p: Request)
    requires Explained(run, r, p)
    ensures Explained(Longer(run, st), r, p)
  {
    HappenedStays(run, st);
    hide Happened, Explains;
  }

  lemma ExplanationsKept(run: Run, s: State, st: Step)
    requires After(run.c, run.start, run.steps) == Some(s) && Enabled(run.c, s, st)
    requires Inv(run.c, s) && LedgerInv(s) && AllExplained(run, s.requests)
    ensures AllExplained(Longer(run, st), Apply(run.c, s, st).requests)
  {
    hide After, Apply, Inv, LedgerInv, Explains, Enabled;
    var t := Apply(run.c, s, st);
    RequestsMove(run.c, s, st);
    HappensNow(run, s, st);
    hide Happened;
    forall r | 0 <= r < |t.requests| && IsRefused(t.requests[r]) ensures Explained(Longer(run, st), r, t.requests[r]) {
      if MovesRequest(st) && r == st.r {
        StepExplains(run.c, s, st);
      } else {
        ExplainedStays(run, st, r, t.requests[r]);
      }
    }
  }

  /** In every reachable state, every refusal has its cause. */
  lemma {:induction false} EveryRefusalExplained(run: Run)
    requires After(run.c, run.start, run.steps).Some?
    ensures AllExplained(run, After(run.c, run.start, run.steps).value.requests)
    decreases |run.steps|
  {
    hide AllExplained, Enabled, Apply, Initial, Inv, LedgerInv;
    if run.steps == [] {
      NobodyYet(run);
    } else {
      var st := run.steps[|run.steps| - 1];
      var earlier := run.(steps := run.steps[..|run.steps| - 1]);
      EveryRefusalExplained(earlier);
      assert run == Longer(earlier, st);
      EveryRun(run.c, run.start, earlier.steps);
      LedgerInEveryRun(run.c, run.start, earlier.steps);
      ExplanationsKept(earlier, After(run.c, run.start, earlier.steps).value, st);
    }
  }

  lemma NobodyYet(run: Run)
    requires run.steps == [] && After(run.c, run.start, run.steps).Some?
    ensures AllExplained(run, After(run.c, run.start, run.steps).value.requests)
  {
  }

  // ------------------------------------------------- the cause of each rejection

  /**
   The FFI did not link this request's proofs, or the reason is the first of the three
   comparisons that fails, as integers, against the root and the record cached when it looked.
   */
  ghost predicate RejectionJustified(run: Run, r: nat, q: Request, reason: string) {
    && q.reply.Some? && q.reply.value.Judged? && FfiSaid(run, r, q.reply.value)
    && var f := q.reply.value.signals;
       if !q.reply.value.linked then reason == PROOF_INVALID && Links(f, false)
       else Shaped(q.proofType, f) && MissedAtCheck(run, r, q.proofType, f, reason)
  }

  ghost predicate MissedAtCheck(run: Run, r: nat, proofType: string, f: FieldSignals, reason: string)
    requires Shaped(proofType, f)
  {
    var id := IssuerForProofType(proofType);
    exists root: Root, rec: IssuerCert.CertRecord ::
      && RootCachedAtCheck(run, r, id, root) && CertCachedAtCheck(run, r, id, rec) && IssuerCert.Genuine(run.c.world, id, rec)
      && reason != ""
      && reason == FirstReason(RootMissed(proofType, f, root), ModulusMissed(proofType, f, rec.modulus), AppMissed(f, run.c.appID))
  }

  lemma RejectedJustified(run: Run, r: nat, q: Request, epoch: nat)
    requires q.pc.Finished? && q.pc.ending.NotVerified? && RequestInv(run.c, q) && RequestTraced(run, r, q, epoch)
    ensures RejectionJustified(run, r, q, q.pc.ending.reason)
  {
    hide Happened, RootCachedAtCheck, CertCachedAtCheck, FfiSaid, CheckedAgainstIssue, Limbs.Radix, LE, ParsePublicInputs, Publish,
      AreFields, IssuerCert.Genuine, DecimalNat, FieldToHex, RootValue, Digits, FirstReason, RootMissed, ModulusMissed, AppMissed;
    var seen := q.pc.ending.seen;
    if seen.Some? {
      assert EvidenceOf(q.pc) == seen;
    }
  }

  /** In every reachable state, every request that was not verified has the reason it was given. */
  lemma EveryRejectionJustified(run: Run, s: State, r: nat)
    requires After(run.c, run.start, run.steps) == Some(s) && r < |s.requests|
    requires s.requests[r].pc.Finished? && s.requests[r].pc.ending.NotVerified?
    ensures RejectionJustified(run, r, s.requests[r], s.requests[r].pc.ending.reason)
  {
    EveryRun(run.c, run.start, run.steps);
    EverythingTraced(run);
    hide After, RequestInv, RequestTraced, AnchorInv, TxInv, HistoryInv, RejectionJustified;
    RejectedJustified(run, r, s.requests[r], s.epoch);
  }
}
