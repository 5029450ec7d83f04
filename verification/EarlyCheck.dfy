/**
 The service's early look at a challenge is only a shortcut: with it and without it
 the server reaches the same tables and the same commits.  Answers carry over too,
 unless a wipe takes a challenge that was looked at while it was unexpired.
 */
module EarlyCheck {
  import opened Wrappers
  import opened Clock
  import opened PublicInputs
  import opened Store
  import opened LinkVerify
  import opened System
  import opened Safety
  import SmtProvider
  import IssuerCert

  function With(c: Config): Config {
    c.(earlyCheck := true)
  }

  function Without(c: Config): Config {
    c.(earlyCheck := false)
  }

  lemma AfterOne(c: Config, start: int, steps: seq<Step>, s: State, st: Step)
    requires After(c, start, steps) == Some(s) && Enabled(c, s, st)
    ensures After(c, start, steps + [st]) == Some(Apply(c, s, st))
  {
    assert (steps + [st])[..|steps|] == steps;
  }

  // ----------------------------------------- one step under either configuration

  predicate InsideTx(st: Step) {
    st.SelectRow? || st.InsertRow? || st.UpdateRow? || st.CommitTx?
  }

  lemma FreshAgrees(c: Config, early: bool, w: State, s: State, st: Step)
    requires Enabled(c, w, st) && Freshens(st) && st.r < |s.requests| && s.requests[st.r] == w.requests[st.r]
    requires s == w.(requests := s.requests, conn := s.conn)
    ensures Enabled(c.(earlyCheck := early), s, st)
    ensures var w', s' := Apply(c, w, st), Apply(c.(earlyCheck := early), s, st);
            && |w'.requests| == |w.requests|
            && w'.requests == w.requests[st.r := w'.requests[st.r]]
            && !w'.requests[st.r].pc.Passed? && !w'.requests[st.r].pc.Looked? && !w'.requests[st.r].pc.InTx?
            && !Overtaken(w'.requests[st.r]) && !EarlyEnded(w'.requests[st.r])
            && w' == w.(requests := w'.requests)
            && s' == s.(requests := s.requests[st.r := w'.requests[st.r]])
  {
    hide ParsePublicInputs, CheckSmtRoot, CheckIssuerModulus, NormalizeDecimal, Publish, AreFields, Links;
  }

  lemma TxAgrees(c: Config, early: bool, w: State, s: State, st: Step)
    requires Enabled(c, w, st) && InsideTx(st) && st.r < |s.requests| && s.requests[st.r] == w.requests[st.r]
    requires s == w.(requests := s.requests)
    ensures Enabled(c.(earlyCheck := early), s, st)
    ensures var w', s' := Apply(c, w, st), Apply(c.(earlyCheck := early), s, st);
            && |w'.requests| == |w.requests|
            && w'.requests == w.requests[st.r := w'.requests[st.r]]
            && !w'.requests[st.r].pc.Passed? && !w'.requests[st.r].pc.Looked? && !EarlyEnded(w'.requests[st.r])
            && s' == w'.(requests := s.requests[st.r := w'.requests[st.r]])
            && (w'.conn.Redeeming? ==> w'.conn.r == st.r && w'.requests[st.r].pc.InTx?)
            && (w'.conn.Free? || w'.conn.Redeeming?)
            && (!w'.conn.Redeeming? ==> !w'.requests[st.r].pc.InTx?)
  {
    TxShape(c, w, st);
    if st.SelectRow? {
      SelectIgnoresOthers(c, early, w, s, st);
    } else if st.InsertRow? {
      InsertIgnoresOthers(c, early, w, s, st);
    } else {
      ClosingIgnoresOthers(c, early, w, s, st);
    }
    hide Apply;
  }

  lemma TxShape(c: Config, w: State, st: Step)
    requires Enabled(c, w, st) && InsideTx(st)
    ensures var w' := Apply(c, w, st);
            && |w'.requests| == |w.requests|
            && w'.requests == w.requests[st.r := w'.requests[st.r]]
            && !w'.requests[st.r].pc.Passed? && !w'.requests[st.r].pc.Looked? && !EarlyEnded(w'.requests[st.r])
            && (w'.conn.Redeeming? ==> w'.conn.r == st.r && w'.requests[st.r].pc.InTx?)
            && (w'.conn.Free? || w'.conn.Redeeming?)
            && (!w'.conn.Redeeming? ==> !w'.requests[st.r].pc.InTx?)
  {
    hide InsertVerification, ConsumeChallenge, RowFor;
  }

  lemma SelectIgnoresOthers(c: Config, early: bool, w: State, s: State, st: Step)
    requires Enabled(c, w, st) && st.SelectRow? && st.r < |s.requests| && s.requests[st.r] == w.requests[st.r]
    requires s == w.(requests := s.requests)
    ensures Enabled(c.(earlyCheck := early), s, st)
    ensures var w', s' := Apply(c, w, st), Apply(c.(earlyCheck := early), s, st);
            st.r < |w'.requests| && s' == w'.(requests := s.requests[st.r := w'.requests[st.r]])
  {
    hide InsertVerification, ConsumeChallenge, RowFor;
  }

  lemma InsertIgnoresOthers(c: Config, early: bool, w: State, s: State, st: Step)
    requires Enabled(c, w, st) && st.InsertRow? && st.r < |s.requests| && s.requests[st.r] == w.requests[st.r]
    requires s == w.(requests := s.requests)
    ensures Enabled(c.(earlyCheck := early), s, st)
    ensures var w', s' := Apply(c, w, st), Apply(c.(earlyCheck := early), s, st);
            st.r < |w'.requests| && s' == w'.(requests := s.requests[st.r := w'.requests[st.r]])
  {
    hide InsertVerification, ConsumeChallenge, RowFor;
  }

  lemma ClosingIgnoresOthers(c: Config, early: bool, w: State, s: State, st: Step)
    requires Enabled(c, w, st) && (st.UpdateRow? || st.CommitTx?) && st.r < |s.requests| && s.requests[st.r] == w.requests[st.r]
    requires s == w.(requests := s.requests)
    ensures Enabled(c.(earlyCheck := early), s, st)
    ensures var w', s' := Apply(c, w, st), Apply(c.(earlyCheck := early), s, st);
            st.r < |w'.requests| && s' == w'.(requests := s.requests[st.r := w'.requests[st.r]])
  {
    hide InsertVerification, ConsumeChallenge, RowFor;
  }

  /** Steps of nobody's request that read or write the tables. */
  predicate OnTables(st: Step) {
    (st.Issue? && !st.fails) || st.CleanBegin? || st.CleanDelete? || st.CleanCommit?
  }

  lemma OthersAgree(c: Config, early: bool, w: State, s: State, st: Step)
    requires Enabled(c, w, st) && !MovesRequest(st) && s == w.(requests := s.requests, conn := s.conn)
    requires OnTables(st) ==> s.conn == w.conn
    ensures Enabled(c.(earlyCheck := early), s, st)
    ensures var w', s' := Apply(c, w, st), Apply(c.(earlyCheck := early), s, st);
            && s' == w'.(requests := s'.requests, conn := s'.conn)
            && (s.conn == w.conn ==> s'.conn == w'.conn)
            && (if st.Arrive? then var q := Request(st.proofType, None, Arrived); w'.requests == w.requests + [q] && s'.requests == s.requests + [q]
                else w'.requests == w.requests && s'.requests == s.requests)
            && (OnTables(st) ==> !w'.conn.Redeeming? && !w.conn.Redeeming?)
            && (st.Issue? ==> w'.conn == w.conn && s'.conn == s.conn)
            && (st.Tick? || st.Arrive? || st.RefreshRoots? || st.RefreshCerts? ==>
                  w'.conn == w.conn && s'.conn == s.conn && w'.db == w.db && w'.clock >= w.clock)
  {
    hide SmtProvider.Apply, IssuerCert.Apply, IssuedValue, InsertChallenge, DeleteChallenges, SmtProvider.Enabled, IssuerCert.Enabled;
  }

  /** A lone clock reading lets a request with its key pass, when there is no early check. */
  lemma PassesUnchecked(c: Config, w: State, r: nat)
    requires !c.earlyCheck && r < |w.requests| && w.requests[r].pc.Keyed? && RequestInv(c, w.requests[r])
    ensures Enabled(c, w, CheckEarly(r))
    ensures Apply(c, w, CheckEarly(r)) == Goto(w, r, Passed(w.requests[r].pc.e, w.requests[r].pc.key))
  {
    hide RequestInv, CheckedChallenge, EarlyRefusal;
    KeyMatches(c, w.requests[r]);
  }

  // ---------------------------------------- what is reached with it, is without it

  /** The early check ended this request. */
  predicate EarlyEnded(q: Request) {
    q.pc.Finished? && q.pc.ending.TurnedAway?
  }

  /** The early check judged a row that a wipe had taken away before it expired. */
  predicate Overtaken(q: Request) {
    EarlyEnded(q) && q.pc.ending.overtaken
  }

  /** Looked at, expired, then wiped: the early check has yet to say what a transaction could have said before the wipe. */
  predicate Foregone(wipes: seq<int>, q: Request) {
    q.pc.Looked? && q.pc.since < |wipes| && wipes[q.pc.since] > q.pc.found.expiresAt
  }

  /** Only foregone requests may be answered ahead. */
  ghost predicate MayBeAhead(s: State, ahead: set<nat>) {
    forall r :: r in ahead ==> r < |s.requests| && Foregone(s.wipes, s.requests[r])
  }

  /** p, without the check and with no transaction open, is as far as q has been answered, or one answer ahead. */
  predicate Follows(q: Request, p: Request, ahead: bool) {
    && p.proofType == q.proofType && p.reply == q.reply
    && match q.pc
       case Looked(e, key, _, _) => p.pc == if ahead then Finished(Denied(ChallengeExpired)) else Keyed(e, key)
       case InTx(e, key, _) => p.pc == Passed(e, key)
       case Finished(ending) =>
         if ending.TurnedAway? then (if ending.overtaken then p.pc.Keyed? else p.pc == Finished(Denied(ending.refusal)))
         else p.pc == q.pc
       case _ => p.pc == q.pc
  }

  ghost predicate Idle(s: State, w: State, ahead: set<nat>) {
    && |w.requests| == |s.requests|
    && w == s.(requests := w.requests, conn := Free)
    && forall r: nat :: r < |s.requests| ==> Follows(s.requests[r], w.requests[r], r in ahead)
  }

  /** Turned away early; without the check a transaction can still say the same, once the connection is free. */
  predicate Pending(db: Database, clock: int, q: Request, p: Request) {
    && p.proofType == q.proofType && p.reply == q.reply
    && p.pc.Keyed? && q.pc.Finished? && q.pc.ending.TurnedAway? && !q.pc.ending.overtaken
    && (q.pc.ending.refusal == Io(Query)
        || (q.pc.ending.refusal == ChallengeExpired && p.pc.key in db.challenges && clock > db.challenges[p.pc.key].expiresAt))
  }

  /** The same transaction is open in both; early answers given meanwhile are pending. */
  ghost predicate Busy(s: State, w: State, ahead: set<nat>) {
    && |w.requests| == |s.requests|
    && s.conn.Redeeming? && w == s.(requests := w.requests)
    && forall r: nat :: r < |s.requests| ==> InStep(s.db, s.clock, s.requests[r], w.requests[r], r in ahead)
  }

  predicate InStep(db: Database, clock: int, q: Request, p: Request, ahead: bool) {
    if q.pc.InTx? then p == q else Follows(q, p, ahead) || Pending(db, clock, q, p)
  }

  /** A challenge looked at in this epoch is still there, with the expiry that was read. */
  ghost predicate LookedInv(s: State) {
    forall r :: 0 <= r < |s.requests| && s.requests[r].pc.Looked? ==> StillThere(s.db, s.epoch, s.requests[r].pc)
  }

  predicate StillThere(db: Database, epoch: nat, pc: Pc)
    requires pc.Looked?
  {
    pc.since <= epoch && (pc.since == epoch ==> Found(db, pc.key) == Some(pc.found))
  }

  /** Within an epoch no row goes away and no expiry changes. */
  ghost predicate ExpiriesKept(db: Database, later: Database) {
    forall key :: key in db.challenges ==> key in later.challenges && later.challenges[key].expiresAt == db.challenges[key].expiresAt
  }

  lemma TxKeepsExpiries(c: Config, s: State, st: Step)
    requires TxInv(s) && Enabled(c, s, st) && InsideTx(st)
    ensures ExpiriesKept(s.db, Apply(c, s, st).db)
  {
    if st.CommitTx? {
      hide Refusal;
    } else {
      OnlyThisMoves(c, s, st);
      hide Apply;
    }
  }

  lemma OthersKeepExpiries(c: Config, s: State, st: Step)
    requires Enabled(c, s, st) && !InsideTx(st)
    ensures var t := Apply(c, s, st); (t.epoch == s.epoch && ExpiriesKept(s.db, t.db)) || t.epoch == s.epoch + 1
  {
    if MovesRequest(st) {
      OnlyThisMoves(c, s, st);
      hide Apply;
    } else {
      hide SmtProvider.Apply, IssuerCert.Apply, IssuedValue, DeleteChallenges;
    }
  }

  lemma LookedStays(db: Database, epoch: nat, later: Database, after: nat, pc: Pc)
    requires pc.Looked? && StillThere(db, epoch, pc)
    requires (after == epoch && ExpiriesKept(db, later)) || after == epoch + 1
    ensures StillThere(later, after, pc)
  {
  }

  lemma LookSees(c: Config, s: State, st: Step)
    requires Enabled(c, s, st) && MovesRequest(st)
    ensures var t := Apply(c, s, st);
            st.r < |t.requests| && (t.requests[st.r].pc.Looked? ==> t.db == s.db && t.epoch == s.epoch && t.requests[st.r].pc.since == s.epoch && StillThere(s.db, s.epoch, t.requests[st.r].pc))
  {
    hide ParsePublicInputs, CheckSmtRoot, CheckIssuerModulus, NormalizeDecimal, Publish, AreFields, Links,
      InsertVerification, ConsumeChallenge, RowFor, CheckedChallenge, EarlyRefusal;
  }

  lemma LookedKept(c: Config, s: State, st: Step)
    requires TxInv(s) && LookedInv(s) && Enabled(c, s, st)
    ensures LookedInv(Apply(c, s, st))
  {
    hide StillThere, Apply, TxInv, Enabled;
    var t := Apply(c, s, st);
    EpochAndExpiries(c, s, st);
    RequestsMove(c, s, st);
    forall r | 0 <= r < |t.requests| && t.requests[r].pc.Looked? ensures StillThere(t.db, t.epoch, t.requests[r].pc) {
      if MovesRequest(st) && r == st.r {
        LookSees(c, s, st);
      } else {
        LookedStays(s.db, s.epoch, t.db, t.epoch, t.requests[r].pc);
      }
    }
  }

  lemma EpochAndExpiries(c: Config, s: State, st: Step)
    requires TxInv(s) && Enabled(c, s, st)
    ensures var t := Apply(c, s, st); (t.epoch == s.epoch && ExpiriesKept(s.db, t.db)) || t.epoch == s.epoch + 1
  {
    hide ExpiriesKept;
    if InsideTx(st) {
      TxKeepsExpiries(c, s, st);
      OnlyThisMoves(c, s, st);
      hide Apply, TxInv;
    } else {
      OthersKeepExpiries(c, s, st);
      hide Apply, TxInv;
    }
  }

  lemma RequestsMove(c: Config, s: State, st: Step)
    requires Enabled(c, s, st)
    ensures var t := Apply(c, s, st);
            && (MovesRequest(st) ==> st.r < |s.requests| && |t.requests| == |s.requests|)
            && (forall r :: 0 <= r < |t.requests| && !(MovesRequest(st) && r == st.r) ==>
                  if r < |s.requests| then t.requests[r] == s.requests[r] else t.requests[r].pc.Arrived?)
  {
    if MovesRequest(st) {
      OnlyThisMoves(c, s, st);
      hide Apply;
    } else {
      OthersLeaveRequests(c, s, st);
      hide Apply;
    }
  }

  lemma {:induction false} LookedInEveryRun(c: Config, start: int, steps: seq<Step>)
    requires After(c, start, steps).Some?
    ensures LookedInv(After(c, start, steps).value)
    decreases |steps|
  {
    if steps != [] {
      var init, st := steps[..|steps| - 1], steps[|steps| - 1];
      LookedInEveryRun(c, start, init);
      EveryRun(c, start, init);
      LookedKept(c, After(c, start, init).value, st);
      hide Apply, LookedInv, Inv;
    }
  }

  // ------------------------------------------------- how the two relations are kept

  lemma IdleMoved(s: State, w: State, s': State, w': State, r: nat, ahead: set<nat>)
    requires Idle(s, w, ahead) && r < |s.requests| && |s'.requests| == |s.requests| && |w'.requests| == |w.requests|
    requires s'.requests == s.requests[r := s'.requests[r]] && w'.requests == w.requests[r := w'.requests[r]]
    requires Follows(s'.requests[r], w'.requests[r], r in ahead) && w' == s'.(requests := w'.requests, conn := Free)
    ensures Idle(s', w', ahead)
  {
    hide Follows;
  }

  lemma IdleStill(s: State, w: State, s': State, w': State, ahead: set<nat>)
    requires Idle(s, w, ahead) && w' == s'.(requests := w'.requests, conn := Free)
    requires (s'.requests == s.requests && w'.requests == w.requests)
             || (exists q: Request :: q.pc.Arrived? && s'.requests == s.requests + [q] && w'.requests == w.requests + [q])
    ensures Idle(s', w', ahead)
  {
    forall r: nat | r < |s'.requests| ensures Follows(s'.requests[r], w'.requests[r], r in ahead) {
      if r < |s.requests| {
        assert Follows(s.requests[r], w.requests[r], r in ahead);
      }
    }
  }

  lemma BusyMoved(s: State, w: State, s': State, w': State, r: nat, ahead: set<nat>)
    requires Busy(s, w, ahead) && r < |s.requests| && |s'.requests| == |s.requests| && |w'.requests| == |w.requests|
    requires s'.requests == s.requests[r := s'.requests[r]] && w'.requests == w.requests[r := w'.requests[r]]
    requires InStep(s'.db, s'.clock, s'.requests[r], w'.requests[r], r in ahead)
    requires w' == s'.(requests := w'.requests) && s'.conn.Redeeming? && s'.db == s.db && s'.clock >= s.clock
    ensures Busy(s', w', ahead)
  {
    forall i: nat | i < |s'.requests| ensures InStep(s'.db, s'.clock, s'.requests[i], w'.requests[i], i in ahead) {
      if i != r {
        assert InStep(s.db, s.clock, s.requests[i], w.requests[i], i in ahead);
      }
    }
  }

  lemma BusyStill(s: State, w: State, s': State, w': State, ahead: set<nat>)
    requires Busy(s, w, ahead) && w' == s'.(requests := w'.requests) && s'.conn == s.conn && s'.db == s.db && s'.clock >= s.clock
    requires (s'.requests == s.requests && w'.requests == w.requests)
             || (exists q: Request :: q.pc.Arrived? && s'.requests == s.requests + [q] && w'.requests == w.requests + [q])
    ensures Busy(s', w', ahead)
  {
    forall r: nat | r < |s'.requests| ensures InStep(s'.db, s'.clock, s'.requests[r], w'.requests[r], r in ahead) {
      if r < |s.requests| {
        assert InStep(s.db, s.clock, s.requests[r], w.requests[r], r in ahead);
      }
    }
  }

  /** What the relations say of one request at its step. */
  lemma IdleAt(s: State, w: State, r: nat, ahead: set<nat>)
    requires Idle(s, w, ahead) && r < |s.requests|
    ensures r < |w.requests| && Follows(s.requests[r], w.requests[r], r in ahead)
  {
  }

  lemma BusyAt(s: State, w: State, r: nat, ahead: set<nat>)
    requires Busy(s, w, ahead) && r < |s.requests|
    ensures r < |w.requests| && InStep(s.db, s.clock, s.requests[r], w.requests[r], r in ahead)
  {
  }

  // ------------------------------------------------------- how runs are continued

  /** Without the check, a transaction gives the same refusal, when the connection is free. */
  lemma RefuseNow(c: Config, start: int, others: seq<Step>, w: State, r: nat, fails: bool, refusal: StoreError)
    returns (more: seq<Step>)
    requires !c.earlyCheck && After(c, start, others) == Some(w)
    requires r < |w.requests| && w.requests[r].pc.Keyed? && w.conn.Free?
    requires if fails then refusal == Io(Query) else EarlyRefusal(Found(w.db, w.requests[r].pc.key), w.clock) == Some(refusal)
    ensures After(c, start, more) == Some(Goto(w, r, Finished(Denied(refusal))))
  {
    EveryRun(c, start, others);
    assert RequestInv(c, w.requests[r]);
    hide After, Apply, RequestInv, AnchorInv, TxInv, HistoryInv;
    PassesUnchecked(c, w, r);
    var p := Apply(c, w, CheckEarly(r));
    AfterOne(c, start, others, w, CheckEarly(r));
    TransactionAnswers(c, w, r, fails, refusal, p);
    AfterOne(c, start, others + [CheckEarly(r)], p, BeginTx(r, false));
    more := others + [CheckEarly(r)] + [BeginTx(r, false)];
    AfterOne(c, start, more, Apply(c, p, BeginTx(r, false)), SelectRow(r, fails));
    more := more + [SelectRow(r, fails)];
  }

  /** Begin and select answer an early rejection just as the early check does. */
  lemma TransactionAnswers(c: Config, s: State, r: nat, fails: bool, refusal: StoreError, p: State)
    requires r < |s.requests| && s.requests[r].pc.Keyed? && s.conn.Free?
    requires p == Goto(s, r, Passed(s.requests[r].pc.e, s.requests[r].pc.key))
    requires if fails then refusal == Io(Query) else EarlyRefusal(Found(s.db, s.requests[r].pc.key), s.clock) == Some(refusal)
    ensures Enabled(c, p, BeginTx(r, false))
    ensures var b := Apply(c, p, BeginTx(r, false));
            Enabled(c, b, SelectRow(r, fails))
            && Apply(c, b, SelectRow(r, fails)) == Goto(s, r, Finished(Denied(refusal)))
  {
    var b := Apply(c, p, BeginTx(r, false));
    assert b.requests[r].pc == InTx(s.requests[r].pc.e, s.requests[r].pc.key, Begun);
    assert b == p.(requests := b.requests, conn := Redeeming(r, s.db));
    var t := ApplySelect(b, r, fails);
    assert t == Abort(b, r, refusal);
    assert t.requests == s.requests[r := s.requests[r].(pc := Finished(Denied(refusal)))];
  }

  /** Once the transaction is over, the pending answers are given by transactions of their own. */
  lemma {:induction false} Settle(c: Config, start: int, others: seq<Step>, s: State, w: State, n: nat, ahead: set<nat>) returns (more: seq<Step>)
    requires !c.earlyCheck && After(c, start, others) == Some(w)
    requires s.conn.Free? && |w.requests| == |s.requests| && n <= |s.requests| && w == s.(requests := w.requests)
    requires forall r: nat :: r < n ==> Follows(s.requests[r], w.requests[r], r in ahead)
    requires forall r: nat :: n <= r < |s.requests| ==>
               Follows(s.requests[r], w.requests[r], r in ahead) || Pending(s.db, s.clock, s.requests[r], w.requests[r])
    ensures After(c, start, more).Some? && Idle(s, After(c, start, more).value, ahead)
    decreases |s.requests| - n
  {
    hide After;
    if n == |s.requests| {
      more := others;
    } else if Follows(s.requests[n], w.requests[n], n in ahead) {
      more := Settle(c, start, others, s, w, n + 1, ahead);
    } else {
      var refusal := s.requests[n].pc.ending.refusal;
      var next := RefuseNow(c, start, others, w, n, refusal == Io(Query), refusal);
      more := Settle(c, start, next, s, Goto(w, n, Finished(Denied(refusal))), n + 1, ahead);
    }
  }

  // --------------------------------------------------- every step can be followed

  /** Steps that look neither at the tables nor at the connection. */
  predicate Aloof(st: Step) {
    Freshens(st) || st.Tick? || st.Arrive? || st.RefreshRoots? || st.RefreshCerts?
  }

  lemma IdleAloof(c: Config, s: State, w: State, st: Step, ahead: set<nat>)
    requires c.earlyCheck && Idle(s, w, ahead) && Enabled(c, s, st) && Aloof(st)
    ensures Enabled(Without(c), w, st) && Idle(Apply(c, s, st), Apply(Without(c), w, st), ahead)
  {
    hide Apply;
    if Freshens(st) {
      SameBeforeLook(c, s, st);
      IdleAt(s, w, st.r, ahead);
      FreshAgrees(c, false, s, w, st);
      IdleMoved(s, w, Apply(c, s, st), Apply(Without(c), w, st), st.r, ahead);
    } else {
      OthersAgree(c, false, s, w, st);
      IdleStill(s, w, Apply(c, s, st), Apply(Without(c), w, st), ahead);
    }
  }

  lemma SameBeforeLook(c: Config, s: State, st: Step)
    requires Enabled(c, s, st) && Freshens(st)
    ensures st.r < |s.requests|
    ensures var pc := s.requests[st.r].pc; !pc.Looked? && !pc.InTx? && !pc.Finished?
  {
  }

  lemma BusyAloof(c: Config, s: State, w: State, st: Step, ahead: set<nat>)
    requires c.earlyCheck && Busy(s, w, ahead) && Enabled(c, s, st) && Aloof(st)
    ensures Enabled(Without(c), w, st) && Busy(Apply(c, s, st), Apply(Without(c), w, st), ahead)
  {
    hide Apply;
    if Freshens(st) {
      SameBeforeLook(c, s, st);
      BusyAt(s, w, st.r, ahead);
      FreshAgrees(c, false, s, w, st);
      BusyMoved(s, w, Apply(c, s, st), Apply(Without(c), w, st), st.r, ahead);
    } else {
      OthersAgree(c, false, s, w, st);
      BusyStill(s, w, Apply(c, s, st), Apply(Without(c), w, st), ahead);
    }
  }

  /** How a look goes. */
  lemma LookGoes(c: Config, s: State, r: nat, fails: bool)
    requires Enabled(c, s, Look(r, fails))
    ensures r < |s.requests| && s.requests[r].pc.Keyed? && (fails || s.conn.Free?)
    ensures var pc := s.requests[r].pc;
            Apply(c, s, Look(r, fails)) ==
            Goto(s, r, if fails then Finished(TurnedAway(Io(Query), false))
                       else if pc.key !in s.db.challenges then Finished(TurnedAway(ChallengeNotFound, false))
                       else Looked(pc.e, pc.key, Found(s.db, pc.key).value, s.epoch))
  {
  }

  lemma FollowLook(c: Config, start: int, idle: seq<Step>, s: State, w: State, r: nat, fails: bool, ahead: set<nat>)
    returns (more: seq<Step>)
    requires c.earlyCheck && After(Without(c), start, idle) == Some(w) && Idle(s, w, ahead)
    requires Enabled(c, s, Look(r, fails)) && r !in ahead
    ensures After(Without(c), start, more).Some? && Idle(Apply(c, s, Look(r, fails)), After(Without(c), start, more).value, ahead)
  {
    hide After, Apply, Enabled;
    LookGoes(c, s, r, fails);
    var pc := s.requests[r].pc;
    var t := Apply(c, s, Look(r, fails));
    IdleAt(s, w, r, ahead);
    if fails || pc.key !in s.db.challenges {
      var refusal := if fails then Io(Query) else ChallengeNotFound;
      more := RefuseNow(Without(c), start, idle, w, r, fails, refusal);
      IdleMoved(s, w, t, Goto(w, r, Finished(Denied(refusal))), r, ahead);
    } else {
      more := idle;
      IdleMoved(s, w, t, w, r, ahead);
    }
  }

  /** A look that fails while a transaction is open is answered later. */
  lemma FollowLookBusy(c: Config, s: State, w: State, r: nat, fails: bool, ahead: set<nat>)
    requires c.earlyCheck && Busy(s, w, ahead) && Enabled(c, s, Look(r, fails))
    ensures Busy(Apply(c, s, Look(r, fails)), w, ahead)
  {
    hide Apply, Enabled;
    LookGoes(c, s, r, fails);
    BusyAt(s, w, r, ahead);
    BusyMoved(s, w, Apply(c, s, Look(r, fails)), w, r, ahead);
  }

  /** How the early check goes, under the invariants. */
  lemma CheckEarlyGoes(c: Config, s: State, r: nat)
    requires c.earlyCheck && Enabled(c, s, CheckEarly(r)) && RequestInv(c, s.requests[r]) && LookedInv(s) && |s.wipes| == s.epoch
    ensures r < |s.requests| && s.requests[r].pc.Looked?
    ensures var pc, t := s.requests[r].pc, Apply(c, s, CheckEarly(r));
            if s.clock <= pc.found.expiresAt then t == Goto(s, r, Passed(pc.e, pc.key))
            else && t == Goto(s, r, Finished(TurnedAway(ChallengeExpired, LostUnexpired(s.wipes, pc.since, pc.found.expiresAt))))
                 && (Foregone(s.wipes, s.requests[r]) || LostUnexpired(s.wipes, pc.since, pc.found.expiresAt)
                     || (pc.key in s.db.challenges && s.clock > s.db.challenges[pc.key].expiresAt))
                 && (Foregone(s.wipes, s.requests[r]) ==> !LostUnexpired(s.wipes, pc.since, pc.found.expiresAt))
  {
    hide RequestInv, Apply, StillThere;
    CheckEarlyEffect(c, s, r);
    var pc := s.requests[r].pc;
    assert StillThere(s.db, s.epoch, pc);
    StillBounds(s.db, s.epoch, pc);
    if pc.since == s.epoch {
      StillExpired(s.db, s.epoch, pc);
    }
  }

  lemma StillBounds(db: Database, epoch: nat, pc: Pc)
    requires pc.Looked? && StillThere(db, epoch, pc)
    ensures pc.since <= epoch
  {
  }

  lemma StillExpired(db: Database, epoch: nat, pc: Pc)
    requires pc.Looked? && StillThere(db, epoch, pc) && pc.since == epoch
    ensures pc.key in db.challenges && db.challenges[pc.key].expiresAt == pc.found.expiresAt
  {
  }

  lemma FollowCheckIdle(c: Config, start: int, idle: seq<Step>, s: State, w: State, r: nat, ahead: set<nat>) returns (more: seq<Step>)
    requires c.earlyCheck && After(Without(c), start, idle) == Some(w) && Idle(s, w, ahead)
    requires Enabled(c, s, CheckEarly(r)) && RequestInv(c, s.requests[r]) && LookedInv(s) && |s.wipes| == s.epoch
    requires r in ahead <==> (Foregone(s.wipes, s.requests[r]) && s.clock > s.requests[r].pc.found.expiresAt)
    ensures After(Without(c), start, more).Some? && Idle(Apply(c, s, CheckEarly(r)), After(Without(c), start, more).value, ahead - {r})
  {
    hide After, RequestInv, Apply, Enabled, LookedInv, Foregone, LostUnexpired;
    CheckEarlyGoes(c, s, r);
    var pc, t := s.requests[r].pc, Apply(c, s, CheckEarly(r));
    IdleAt(s, w, r, ahead);
    assert |w.requests| == |s.requests| && w == s.(requests := w.requests, conn := Free);
    hide Idle;
    if s.clock <= pc.found.expiresAt {
      PassesFollowed(c, start, idle, w, r);
      more := idle + [CheckEarly(r)];
      IdleMovedOn(s, w, t, Goto(w, r, Passed(pc.e, pc.key)), r, ahead);
    } else if r in ahead || LostUnexpired(s.wipes, pc.since, pc.found.expiresAt) {
      more := idle;
      IdleMovedOn(s, w, t, w, r, ahead);
    } else {
      more := RefuseNow(Without(c), start, idle, w, r, false, ChallengeExpired);
      IdleMovedOn(s, w, t, Goto(w, r, Finished(Denied(ChallengeExpired))), r, ahead);
    }
  }

  /** A request that moves on is no longer ahead. */
  lemma IdleMovedOn(s: State, w: State, s': State, w': State, r: nat, ahead: set<nat>)
    requires Idle(s, w, ahead) && r < |s.requests| && |s'.requests| == |s.requests| && |w'.requests| == |w.requests|
    requires s'.requests == s.requests[r := s'.requests[r]] && w'.requests == w.requests[r := w'.requests[r]]
    requires Follows(s'.requests[r], w'.requests[r], false) && w' == s'.(requests := w'.requests, conn := Free)
    ensures Idle(s', w', ahead - {r})
  {
    hide Follows;
  }

  lemma PassesFollowed(c: Config, start: int, others: seq<Step>, w: State, r: nat)
    requires After(Without(c), start, others) == Some(w) && r < |w.requests| && w.requests[r].pc.Keyed?
    ensures After(Without(c), start, others + [CheckEarly(r)]) == Some(Goto(w, r, Passed(w.requests[r].pc.e, w.requests[r].pc.key)))
  {
    EveryRun(Without(c), start, others);
    assert RequestInv(Without(c), w.requests[r]);
    hide After, Apply, RequestInv, AnchorInv, TxInv, HistoryInv;
    PassesUnchecked(Without(c), w, r);
    AfterOne(Without(c), start, others, w, CheckEarly(r));
  }

  lemma FollowCheckBusy(c: Config, start: int, busy: seq<Step>, s: State, w: State, r: nat, ahead: set<nat>) returns (more: seq<Step>)
    requires c.earlyCheck && After(Without(c), start, busy) == Some(w) && Busy(s, w, ahead)
    requires Enabled(c, s, CheckEarly(r)) && RequestInv(c, s.requests[r]) && LookedInv(s) && |s.wipes| == s.epoch
    requires r in ahead <==> (Foregone(s.wipes, s.requests[r]) && s.clock > s.requests[r].pc.found.expiresAt)
    ensures After(Without(c), start, more).Some? && Busy(Apply(c, s, CheckEarly(r)), After(Without(c), start, more).value, ahead - {r})
  {
    hide After, RequestInv, Apply, Enabled, LookedInv, Foregone, LostUnexpired;
    CheckEarlyGoes(c, s, r);
    var pc, t := s.requests[r].pc, Apply(c, s, CheckEarly(r));
    BusyAt(s, w, r, ahead);
    BusyNotIdle(s, w, ahead);
    hide Busy;
    if s.clock <= pc.found.expiresAt {
      PassesFollowed(c, start, busy, w, r);
      more := busy + [CheckEarly(r)];
      BusyMovedOn(s, w, t, Goto(w, r, Passed(pc.e, pc.key)), r, ahead);
    } else {
      more := busy;
      BusyMovedOn(s, w, t, w, r, ahead);
    }
  }

  lemma BusyNotIdle(s: State, w: State, ahead: set<nat>)
    requires Busy(s, w, ahead)
    ensures |w.requests| == |s.requests| && w == s.(requests := w.requests)
  {
  }

  lemma BusyMovedOn(s: State, w: State, s': State, w': State, r: nat, ahead: set<nat>)
    requires Busy(s, w, ahead) && r < |s.requests| && |s'.requests| == |s.requests| && |w'.requests| == |w.requests|
    requires s'.requests == s.requests[r := s'.requests[r]] && w'.requests == w.requests[r := w'.requests[r]]
    requires InStep(s'.db, s'.clock, s'.requests[r], w'.requests[r], false)
    requires w' == s'.(requests := w'.requests) && s'.conn == s.conn && s'.db == s.db && s'.clock == s.clock
    ensures Busy(s', w', ahead - {r})
  {
    hide InStep;
  }

  /** How a transaction begins, or fails to. */
  lemma BeginGoes(c: Config, s: State, r: nat, fails: bool)
    requires Enabled(c, s, BeginTx(r, fails))
    ensures r < |s.requests| && s.requests[r].pc.Passed? && (fails || s.conn.Free?)
    ensures var pc := s.requests[r].pc;
            Apply(c, s, BeginTx(r, fails)) ==
            if fails then Goto(s, r, Finished(Denied(Io(Begin))))
            else Goto(s, r, InTx(pc.e, pc.key, Begun)).(conn := Redeeming(r, s.db))
  {
  }

  lemma BeginsAlike(c: Config, s: State, w: State, r: nat, fails: bool)
    requires Enabled(c, s, BeginTx(r, fails)) && r < |w.requests| && w.requests[r] == s.requests[r] && (fails || w.conn.Free?)
    ensures Enabled(Without(c), w, BeginTx(r, fails))
  {
  }

  lemma FollowFailedBegin(c: Config, s: State, w: State, r: nat, ahead: set<nat>)
    requires Idle(s, w, ahead) && Enabled(c, s, BeginTx(r, true)) && r !in ahead
    ensures Enabled(Without(c), w, BeginTx(r, true)) && Idle(Apply(c, s, BeginTx(r, true)), Apply(Without(c), w, BeginTx(r, true)), ahead)
  {
    hide Apply, Enabled;
    BeginGoes(c, s, r, true);
    IdleAt(s, w, r, ahead);
    BeginsAlike(c, s, w, r, true);
    BeginGoes(Without(c), w, r, true);
    IdleMoved(s, w, Apply(c, s, BeginTx(r, true)), Apply(Without(c), w, BeginTx(r, true)), r, ahead);
  }

  lemma FollowFailedBeginBusy(c: Config, s: State, w: State, r: nat, ahead: set<nat>)
    requires Busy(s, w, ahead) && Enabled(c, s, BeginTx(r, true)) && r !in ahead
    ensures Enabled(Without(c), w, BeginTx(r, true)) && Busy(Apply(c, s, BeginTx(r, true)), Apply(Without(c), w, BeginTx(r, true)), ahead)
  {
    hide Apply, Enabled;
    BeginGoes(c, s, r, true);
    BusyAt(s, w, r, ahead);
    BeginsAlike(c, s, w, r, true);
    BeginGoes(Without(c), w, r, true);
    BusyMoved(s, w, Apply(c, s, BeginTx(r, true)), Apply(Without(c), w, BeginTx(r, true)), r, ahead);
  }

  lemma FollowBegin(c: Config, s: State, w: State, r: nat, ahead: set<nat>)
    requires Idle(s, w, ahead) && TxInv(s) && Enabled(c, s, BeginTx(r, false)) && r !in ahead
    ensures Enabled(Without(c), w, BeginTx(r, false))
    ensures var t, u := Apply(c, s, BeginTx(r, false)), Apply(Without(c), w, BeginTx(r, false));
            t.conn.Redeeming? && Idle(t, w, ahead) && Busy(t, u, ahead)
  {
    hide Apply, Enabled, StageInv;
    BeginGoes(c, s, r, false);
    IdleAt(s, w, r, ahead);
    BeginsAlike(c, s, w, r, false);
    BeginGoes(Without(c), w, r, false);
    var t, u := Apply(c, s, BeginTx(r, false)), Apply(Without(c), w, BeginTx(r, false));
    IdleMoved(s, w, t, w, r, ahead);
    forall i: nat | i < |t.requests| ensures InStep(t.db, t.clock, t.requests[i], u.requests[i], i in ahead) {
      IdleAt(s, w, i, ahead);
    }
  }

  lemma FollowTx(c: Config, start: int, idle: seq<Step>, w: State, busy: seq<Step>, b: State, s: State, st: Step, ahead: set<nat>)
    returns (idle': seq<Step>, busy': seq<Step>)
    requires c.earlyCheck && TxInv(s) && Enabled(c, s, st) && InsideTx(st) && st.r !in ahead
    requires After(Without(c), start, idle) == Some(w) && Idle(s, w, ahead)
    requires After(Without(c), start, busy) == Some(b) && Busy(s, b, ahead)
    ensures var t := Apply(c, s, st);
            && After(Without(c), start, idle').Some? && Idle(t, After(Without(c), start, idle').value, ahead)
            && (t.conn.Redeeming? ==> After(Without(c), start, busy').Some? && Busy(t, After(Without(c), start, busy').value, ahead))
  {
    hide After, Apply, RequestInv;
    InsideHolds(c, s, st);
    BusyAt(s, b, st.r, ahead);
    TxAgrees(c, false, s, b, st);
    AfterOne(Without(c), start, busy, b, st);
    busy' := busy + [st];
    var t, u := Apply(c, s, st), Apply(Without(c), b, st);
    OnlyThisMoves(c, s, st);
    EvidenceCarried(c, s, st);
    if t.conn.Redeeming? {
      idle' := idle;
      IdleAt(s, w, st.r, ahead);
      UncommittedDb(c, s, st);
      IdleMoved(s, w, t, w, st.r, ahead);
      BusyMoved(s, b, t, u, st.r, ahead);
    } else {
      TxKeepsExpiries(c, s, st);
      forall i: nat | i < |t.requests|
        ensures Follows(t.requests[i], u.requests[i], i in ahead) || Pending(t.db, t.clock, t.requests[i], u.requests[i])
      {
        if i != st.r {
          BusyAt(s, b, i, ahead);
          AloneInTx(s, st.r, i);
        }
      }
      idle' := Settle(Without(c), start, busy', t, u, 0, ahead);
    }
  }

  lemma AloneInTx(s: State, r: nat, i: nat)
    requires TxInv(s) && HoldsTx(s, r) && i < |s.requests| && i != r
    ensures !s.requests[i].pc.InTx?
  {
  }

  lemma InsideHolds(c: Config, s: State, st: Step)
    requires Enabled(c, s, st) && InsideTx(st)
    ensures HoldsTx(s, st.r)
  {
  }

  lemma UncommittedDb(c: Config, s: State, st: Step)
    requires Enabled(c, s, st) && InsideTx(st) && Apply(c, s, st).conn.Redeeming?
    ensures var t := Apply(c, s, st); t.db == s.db && t.commits == s.commits && t.clock == s.clock
  {
    hide InsertVerification, ConsumeChallenge, RowFor;
  }

  lemma FollowIssue(c: Config, s: State, w: State, st: Step, ahead: set<nat>)
    requires Idle(s, w, ahead) && s.conn.Free? && Enabled(c, s, st) && st.Issue? && !st.fails
    ensures Enabled(Without(c), w, st) && Idle(Apply(c, s, st), Apply(Without(c), w, st), ahead) && Apply(c, s, st).conn.Free?
  {
    OthersAgree(c, false, s, w, st);
    hide Apply;
    IdleStill(s, w, Apply(c, s, st), Apply(Without(c), w, st), ahead);
  }

  lemma FailedIssueIsNothing(c: Config, s: State, st: Step)
    requires Enabled(c, s, st) && st.Issue? && st.fails
    ensures Apply(c, s, st) == s
  {
    hide InsertChallenge, IssuedValue;
  }

  // ------------------------------------------------------------------- the wipe

  /** Before a wipe commits, a transaction can still refuse what has expired. */
  lemma {:induction false} RefuseBefore(c: Config, start: int, idle: seq<Step>, s: State, w: State, ahead: set<nat>, now: set<nat>)
    returns (more: seq<Step>)
    requires !c.earlyCheck && After(c, start, idle) == Some(w) && Idle(s, w, ahead) && LookedInv(s) && ahead !! now
    requires forall r :: r in now ==> r < |s.requests| && s.requests[r].pc.Looked?
                                      && s.requests[r].pc.since == s.epoch && s.clock > s.requests[r].pc.found.expiresAt
    ensures After(c, start, more).Some? && Idle(s, After(c, start, more).value, ahead + now)
    decreases now
  {
    hide After, StillThere;
    if now == {} {
      more := idle;
      assert ahead + now == ahead;
    } else {
      var r :| r in now;
      assert StillThere(s.db, s.epoch, s.requests[r].pc);
      IdleAt(s, w, r, ahead);
      StillExpired(s.db, s.epoch, s.requests[r].pc);
      var next := RefuseNow(c, start, idle, w, r, false, ChallengeExpired);
      var w' := Goto(w, r, Finished(Denied(ChallengeExpired)));
      IdleGoesAhead(s, w, w', r, ahead);
      more := RefuseBefore(c, start, next, s, w', ahead + {r}, now - {r});
      assert ahead + {r} + (now - {r}) == ahead + now;
    }
  }

  lemma IdleGoesAhead(s: State, w: State, w': State, r: nat, ahead: set<nat>)
    requires Idle(s, w, ahead) && r < |s.requests| && s.requests[r].pc.Looked?
    requires w' == Goto(w, r, Finished(Denied(ChallengeExpired))) && r !in ahead
    ensures Idle(s, w', ahead + {r})
  {
    IdleAt(s, w, r, ahead);
    forall i: nat | i < |s.requests| ensures Follows(s.requests[i], w'.requests[i], i in ahead + {r}) {
      IdleAt(s, w, i, ahead);
    }
  }

  /** How a wipe goes. */
  lemma WipeGoes(c: Config, s: State, st: Step)
    requires TxInv(s) && Enabled(c, s, st) && (st.CleanBegin? || st.CleanDelete? || st.CleanCommit?)
    ensures var t := Apply(c, s, st);
            && !t.conn.Redeeming? && t.requests == s.requests
            && (if st.CleanCommit? && !st.fails
                then t == s.(conn := Free, db := Database(map[], []), epoch := s.epoch + 1, epochStart := |s.commits|, wipes := s.wipes + [s.clock])
                else t == s.(conn := t.conn))
  {
    hide Refusal, Redeemed, DeleteChallenges;
  }

  lemma {:induction false} WipeRuns(c: Config, start: int, idle: seq<Step>, w: State) returns (more: seq<Step>)
    requires After(c, start, idle) == Some(w) && w.conn.Free?
    ensures After(c, start, more) ==
            Some(w.(db := Database(map[], []), epoch := w.epoch + 1, epochStart := |w.commits|, wipes := w.wipes + [w.clock]))
  {
    hide After;
    var b := w.(conn := Cleaning(0, w.db));
    var d, e := w.(conn := Cleaning(1, DeleteVerifications(w.db))), w.(conn := Cleaning(2, Database(map[], [])));
    AfterOne(c, start, idle, w, CleanBegin);
    AfterOne(c, start, idle + [CleanBegin], b, CleanDelete(false));
    AfterOne(c, start, idle + [CleanBegin] + [CleanDelete(false)], d, CleanDelete(false));
    more := idle + [CleanBegin] + [CleanDelete(false)] + [CleanDelete(false)];
    AfterOne(c, start, more, e, CleanCommit(false));
    more := more + [CleanCommit(false)];
  }

  /** A wipe goes through all at once, when it commits. */
  lemma FollowWipe(c: Config, start: int, idle: seq<Step>, s: State, w: State, st: Step, ahead: set<nat>, before: set<nat>)
    returns (more: seq<Step>)
    requires After(Without(c), start, idle) == Some(w) && Idle(s, w, before) && TxInv(s) && LookedInv(s) && |s.wipes| == s.epoch
    requires Enabled(c, s, st) && (st.CleanBegin? || st.CleanDelete? || st.CleanCommit?)
    requires MayBeAhead(Apply(c, s, st), ahead)
    requires before == if st.CleanCommit? && !st.fails then set r | r in ahead && Foregone(s.wipes, s.requests[r]) else ahead
    ensures After(Without(c), start, more).Some? && Idle(Apply(c, s, st), After(Without(c), start, more).value, ahead)
  {
    WipeGoes(c, s, st);
    var t := Apply(c, s, st);
    if st.CleanCommit? && !st.fails {
      hide After, Apply, Follows, Enabled, TxInv;
      var now := ahead - before;
      NewlyForegone(s, t, ahead, before);
      var next := RefuseBefore(Without(c), start, idle, s, w, before, now);
      assert before + now == ahead;
      more := WipeRuns(Without(c), start, next, After(Without(c), start, next).value);
      IdleStill(s, After(Without(c), start, next).value, t, After(Without(c), start, more).value, ahead);
    } else {
      hide After;
      more := idle;
      IdleStill(s, w, t, w, ahead);
    }
  }

  /** What a wipe makes foregone had been looked at in its epoch and has expired. */
  lemma NewlyForegone(s: State, t: State, ahead: set<nat>, before: set<nat>)
    requires LookedInv(s) && |s.wipes| == s.epoch && t.requests == s.requests && t.wipes == s.wipes + [s.clock] && MayBeAhead(t, ahead)
    requires before == set r | r in ahead && Foregone(s.wipes, s.requests[r])
    ensures before <= ahead
    ensures forall r :: r in ahead - before ==>
              r < |s.requests| && s.requests[r].pc.Looked? && s.requests[r].pc.since == s.epoch && s.clock > s.requests[r].pc.found.expiresAt
  {
    forall r | r in ahead - before
      ensures r < |s.requests| && s.requests[r].pc.Looked? && s.requests[r].pc.since == s.epoch && s.clock > s.requests[r].pc.found.expiresAt
    {
      assert Foregone(t.wipes, s.requests[r]);
      assert StillThere(s.db, s.epoch, s.requests[r].pc);
    }
  }

  // ------------------------------------------------------------------- any step

  /** Who has to be ahead before a step, for these to be ahead after it. */
  ghost function AheadBefore(s: State, st: Step, ahead: set<nat>): set<nat> {
    if st.CheckEarly? && st.r < |s.requests| && Foregone(s.wipes, s.requests[st.r]) && s.clock > s.requests[st.r].pc.found.expiresAt
    then ahead + {st.r}
    else if st.CleanCommit? && !st.fails then set r | r in ahead && r < |s.requests| && Foregone(s.wipes, s.requests[r])
    else ahead
  }

  lemma AheadBeforeMay(c: Config, s: State, st: Step, ahead: set<nat>)
    requires TxInv(s) && LookedInv(s) && |s.wipes| == s.epoch && Enabled(c, s, st) && MayBeAhead(Apply(c, s, st), ahead)
    ensures MayBeAhead(s, AheadBefore(s, st, ahead))
    ensures MovesRequest(st) ==> st.r < |s.requests| && st.r !in ahead
  {
    hide Apply, TxInv, Enabled;
    RequestsMove(c, s, st);
    WipesGrow(c, s, st);
    var t := Apply(c, s, st);
    if MovesRequest(st) {
      LookSees(c, s, st);
    }
    forall r | r in ahead ensures r < |s.requests| && (Foregone(s.wipes, s.requests[r]) || (st.CleanCommit? && !st.fails)) {
      assert Foregone(t.wipes, t.requests[r]);
    }
  }

  lemma WipesGrow(c: Config, s: State, st: Step)
    requires Enabled(c, s, st)
    ensures (st.CleanCommit? && !st.fails) || Apply(c, s, st).wipes == s.wipes
  {
    if MovesRequest(st) {
      OnlyThisMoves(c, s, st);
      hide Apply;
    } else {
      hide SmtProvider.Apply, IssuerCert.Apply, IssuedValue, InsertChallenge, DeleteChallenges;
    }
  }

  /** The steps that leave tables and connection alone. */
  predicate Quiet(st: Step) {
    Aloof(st) || st.Look? || st.CheckEarly? || (st.BeginTx? && st.fails)
  }

  lemma FollowStep(c: Config, start: int, idle: seq<Step>, w: State, busy: seq<Step>, b: State, s: State, st: Step, ahead: set<nat>)
    returns (idle': seq<Step>, busy': seq<Step>)
    requires c.earlyCheck && Inv(c, s) && LookedInv(s) && Enabled(c, s, st) && MayBeAhead(Apply(c, s, st), ahead)
    requires After(Without(c), start, idle) == Some(w) && Idle(s, w, AheadBefore(s, st, ahead))
    requires s.conn.Redeeming? ==> After(Without(c), start, busy) == Some(b) && Busy(s, b, AheadBefore(s, st, ahead))
    ensures var t := Apply(c, s, st);
            && After(Without(c), start, idle').Some? && Idle(t, After(Without(c), start, idle').value, ahead)
            && (t.conn.Redeeming? ==> After(Without(c), start, busy').Some? && Busy(t, After(Without(c), start, busy').value, ahead))
  {
    hide After, Apply, Idle, Busy, Inv, LookedInv, MayBeAhead, AheadBefore, Enabled;
    if Quiet(st) {
      idle', busy' := FollowQuiet(c, start, idle, w, busy, b, s, st, ahead);
    } else {
      idle', busy' := FollowTables(c, start, idle, w, busy, b, s, st, ahead);
    }
  }

  lemma FollowQuiet(c: Config, start: int, idle: seq<Step>, w: State, busy: seq<Step>, b: State, s: State, st: Step, ahead: set<nat>)
    returns (idle': seq<Step>, busy': seq<Step>)
    requires c.earlyCheck && Inv(c, s) && LookedInv(s) && Enabled(c, s, st) && MayBeAhead(Apply(c, s, st), ahead)
    requires After(Without(c), start, idle) == Some(w) && Idle(s, w, AheadBefore(s, st, ahead))
    requires s.conn.Redeeming? ==> After(Without(c), start, busy) == Some(b) && Busy(s, b, AheadBefore(s, st, ahead))
    requires Quiet(st)
    ensures var t := Apply(c, s, st);
            && After(Without(c), start, idle').Some? && Idle(t, After(Without(c), start, idle').value, ahead)
            && (t.conn.Redeeming? ==> After(Without(c), start, busy').Some? && Busy(t, After(Without(c), start, busy').value, ahead))
  {
    AheadBeforeMay(c, s, st, ahead);
    AloofConn(c, s, st);
    hide After, Apply, Idle, Busy, Inv, LookedInv, MayBeAhead, Enabled, Aloof;
    if st.CheckEarly? {
      idle', busy' := FollowCheck(c, start, idle, w, busy, b, s, st.r, ahead, AheadBefore(s, st, ahead));
    } else if st.Look? {
      idle' := FollowLook(c, start, idle, s, w, st.r, st.fails, ahead);
      busy' := busy;
      if s.conn.Redeeming? {
        FollowLookBusy(c, s, b, st.r, st.fails, ahead);
      }
    } else {
      idle', busy' := FollowAlike(c, start, idle, w, busy, b, s, st, ahead);
    }
  }

  /** Steps that both take as they are. */
  lemma FollowAlike(c: Config, start: int, idle: seq<Step>, w: State, busy: seq<Step>, b: State, s: State, st: Step, ahead: set<nat>)
    returns (idle': seq<Step>, busy': seq<Step>)
    requires c.earlyCheck && Enabled(c, s, st) && (Aloof(st) || (st.BeginTx? && st.fails && st.r !in ahead))
    requires After(Without(c), start, idle) == Some(w) && Idle(s, w, ahead)
    requires s.conn.Redeeming? ==> After(Without(c), start, busy) == Some(b) && Busy(s, b, ahead)
    requires Apply(c, s, st).conn == s.conn
    ensures var t := Apply(c, s, st);
            && After(Without(c), start, idle').Some? && Idle(t, After(Without(c), start, idle').value, ahead)
            && (t.conn.Redeeming? ==> After(Without(c), start, busy').Some? && Busy(t, After(Without(c), start, busy').value, ahead))
  {
    hide After, Apply, Idle, Busy, Enabled, Aloof;
    idle' := idle + [st];
    busy' := busy + [st];
    if Aloof(st) {
      IdleAloof(c, s, w, st, ahead);
    } else {
      FollowFailedBegin(c, s, w, st.r, ahead);
    }
    AfterOne(Without(c), start, idle, w, st);
    if s.conn.Redeeming? {
      if Aloof(st) {
        BusyAloof(c, s, b, st, ahead);
      } else {
        FollowFailedBeginBusy(c, s, b, st.r, ahead);
      }
      AfterOne(Without(c), start, busy, b, st);
    }
  }

  lemma FollowCheck(c: Config, start: int, idle: seq<Step>, w: State, busy: seq<Step>, b: State, s: State, r: nat, ahead: set<nat>, before: set<nat>)
    returns (idle': seq<Step>, busy': seq<Step>)
    requires c.earlyCheck && Inv(c, s) && LookedInv(s) && Enabled(c, s, CheckEarly(r)) && r !in ahead
    requires before == AheadBefore(s, CheckEarly(r), ahead)
    requires After(Without(c), start, idle) == Some(w) && Idle(s, w, before)
    requires s.conn.Redeeming? ==> After(Without(c), start, busy) == Some(b) && Busy(s, b, before)
    ensures var t := Apply(c, s, CheckEarly(r));
            && After(Without(c), start, idle').Some? && Idle(t, After(Without(c), start, idle').value, ahead)
            && (t.conn.Redeeming? ==> After(Without(c), start, busy').Some? && Busy(t, After(Without(c), start, busy').value, ahead))
  {
    hide After, Apply, Idle, Busy, AnchorInv, TxInv, RequestInv, LookedInv, MayBeAhead, Foregone, Enabled,
      Consistent, RowsAreCommits, ExactlyOnce, CommitsMatchRequests, IssuesKnown, AllRedeem;
    AloofConn(c, s, CheckEarly(r));
    CheckEarlyAt(c, s, r);
    assert RequestInv(c, s.requests[r]);
    assert before - {r} == ahead;
    busy' := busy;
    idle' := FollowCheckIdle(c, start, idle, s, w, r, before);
    if s.conn.Redeeming? {
      busy' := FollowCheckBusy(c, start, busy, s, b, r, before);
    }
  }

  lemma CheckEarlyAt(c: Config, s: State, r: nat)
    requires c.earlyCheck && Enabled(c, s, CheckEarly(r))
    ensures r < |s.requests| && s.requests[r].pc.Looked?
  {
  }

  lemma FollowTables(c: Config, start: int, idle: seq<Step>, w: State, busy: seq<Step>, b: State, s: State, st: Step, ahead: set<nat>)
    returns (idle': seq<Step>, busy': seq<Step>)
    requires c.earlyCheck && Inv(c, s) && LookedInv(s) && Enabled(c, s, st) && MayBeAhead(Apply(c, s, st), ahead)
    requires After(Without(c), start, idle) == Some(w) && Idle(s, w, AheadBefore(s, st, ahead))
    requires s.conn.Redeeming? ==> After(Without(c), start, busy) == Some(b) && Busy(s, b, AheadBefore(s, st, ahead))
    requires !Quiet(st)
    ensures var t := Apply(c, s, st);
            && After(Without(c), start, idle').Some? && Idle(t, After(Without(c), start, idle').value, ahead)
            && (t.conn.Redeeming? ==> After(Without(c), start, busy').Some? && Busy(t, After(Without(c), start, busy').value, ahead))
  {
    AheadBeforeMay(c, s, st, ahead);
    hide After, Apply, Idle, Busy, AnchorInv, TxInv, RequestInv, LookedInv, MayBeAhead, Foregone,
      Consistent, RowsAreCommits, ExactlyOnce, CommitsMatchRequests, IssuesKnown, AllRedeem;
    busy' := busy;
    if st.BeginTx? {
      FollowBegin(c, s, w, st.r, ahead);
      AfterOne(Without(c), start, idle, w, st);
      idle' := idle;
      busy' := idle + [st];
    } else if InsideTx(st) {
      assert s.conn.Redeeming? by { InsideHolds(c, s, st); }
      idle', busy' := FollowTx(c, start, idle, w, busy, b, s, st, ahead);
    } else if st.Issue? && st.fails {
      FailedIssueIsNothing(c, s, st);
      idle' := idle;
    } else if st.Issue? {
      FollowIssue(c, s, w, st, ahead);
      AfterOne(Without(c), start, idle, w, st);
      idle' := idle + [st];
    } else {
      WipeGoes(c, s, st);
      AheadInRange(c, s, st, ahead);
      idle' := FollowWipe(c, start, idle, s, w, st, ahead, AheadBefore(s, st, ahead));
    }
  }

  lemma AheadInRange(c: Config, s: State, st: Step, ahead: set<nat>)
    requires Enabled(c, s, st) && !MovesRequest(st) && !st.Arrive? && MayBeAhead(Apply(c, s, st), ahead)
    ensures forall r :: r in ahead ==> r < |s.requests|
  {
    OthersLeaveRequests(c, s, st);
    hide Apply;
  }

  lemma AloofConn(c: Config, s: State, st: Step)
    requires Enabled(c, s, st) && Quiet(st)
    ensures Apply(c, s, st).conn == s.conn
  {
    hide AfterFfi, AfterRoot, AfterCert, AfterApp, AfterLook, AfterCheck, SmtProvider.Apply, IssuerCert.Apply;
  }

  lemma {:induction false} ReachedWithout(c: Config, start: int, steps: seq<Step>, ahead: set<nat>) returns (idle: seq<Step>, busy: seq<Step>)
    requires c.earlyCheck && After(c, start, steps).Some? && MayBeAhead(After(c, start, steps).value, ahead)
    ensures var s := After(c, start, steps).value;
            && After(Without(c), start, idle).Some? && Idle(s, After(Without(c), start, idle).value, ahead)
            && (s.conn.Redeeming? ==> After(Without(c), start, busy).Some? && Busy(s, After(Without(c), start, busy).value, ahead))
    decreases |steps|
  {
    if steps == [] {
      idle, busy := [], [];
    } else {
      var init, st := steps[..|steps| - 1], steps[|steps| - 1];
      EveryRun(c, start, init);
      LookedInEveryRun(c, start, init);
      var s := After(c, start, init).value;
      assert After(c, start, steps) == Some(Apply(c, s, st));
      assert |s.wipes| == s.epoch;
      AheadBeforeMay(c, s, st, ahead);
      hide After, Apply, Inv, Idle, Busy, LookedInv, MayBeAhead, AheadBefore, Enabled;
      idle, busy := ReachedWithout(c, start, init, AheadBefore(s, st, ahead));
      var w := After(Without(c), start, idle).value;
      var b := if s.conn.Redeeming? then After(Without(c), start, busy).value else w;
      idle, busy := FollowStep(c, start, idle, w, busy, b, s, st, ahead);
    }
  }

  function AnswerTo(q: Request): Option<Answer> {
    if q.pc.Finished? then Some(AnswerOf(q.pc.ending)) else None
  }

  /**
   Same tables, same histories, same clock; every request told the same, except one
   turned away over a challenge that a wipe had taken before it expired.
   */
  ghost predicate CarriesOver(s: State, w: State) {
    && w.db == s.db && w.issued == s.issued && w.commits == s.commits && w.epoch == s.epoch && w.wipes == s.wipes && w.clock == s.clock
    && |w.requests| == |s.requests|
    && forall r :: 0 <= r < |s.requests| ==>
         && w.requests[r].proofType == s.requests[r].proofType && w.requests[r].reply == s.requests[r].reply
         && AnswerTo(w.requests[r]) == if Overtaken(s.requests[r]) then None else AnswerTo(s.requests[r])
  }

  /** Whatever the server records and answers with the early check it also does without, up to overtaken answers. */
  lemma AnswersCarryOver(c: Config, start: int, steps: seq<Step>)
    requires c.earlyCheck && After(c, start, steps).Some?
    ensures exists others: seq<Step> ::
              After(Without(c), start, others).Some? && CarriesOver(After(c, start, steps).value, After(Without(c), start, others).value)
  {
    var idle, busy := ReachedWithout(c, start, steps, {});
    hide After, Busy, Idle;
    IdleCarries(After(c, start, steps).value, After(Without(c), start, idle).value);
  }

  lemma IdleCarries(s: State, w: State)
    requires Idle(s, w, {})
    ensures CarriesOver(s, w)
  {
    forall r: nat | r < |s.requests|
      ensures && w.requests[r].proofType == s.requests[r].proofType && w.requests[r].reply == s.requests[r].reply
              && AnswerTo(w.requests[r]) == if Overtaken(s.requests[r]) then None else AnswerTo(s.requests[r])
    {
      IdleAt(s, w, r, {});
    }
  }

  // ------------------------------------- whatever is reached without it, is with

  /** A transaction begun on a challenge that the early check would have rejected. */
  ghost predicate Doomed(s: State, r: nat) {
    && HoldsTx(s, r) && s.requests[r].pc.stage.Begun? && s.conn.work == s.db
    && EarlyRefusal(Found(s.db, s.requests[r].pc.key), s.clock).Some?
  }

  /** With the check, a request waits at its key while its counterpart runs into a refusal. */
  ghost predicate Waits(w: State, s: State, r: nat) {
    && r < |w.requests| && r < |s.requests| && s.requests[r].pc.Keyed?
    && var p, q := w.requests[r], s.requests[r];
       p.proofType == q.proofType && p.reply == q.reply
       && (p.pc == Passed(q.pc.e, q.pc.key) || (p.pc.Finished? && p.pc.ending.Denied?) || (Doomed(w, r) && s.conn.Free?))
  }

  ghost predicate Paired(w: State, s: State, r: nat)
    requires r < |w.requests| && r < |s.requests|
  {
    !s.requests[r].pc.Passed? && !w.requests[r].pc.Looked? && (s.requests[r] == w.requests[r] || Waits(w, s, r))
  }

  ghost predicate Connected(w: State, s: State) {
    s.conn == w.conn
    || (w.conn.Redeeming? && Doomed(w, w.conn.r) && s.conn.Free? && w.conn.r < |s.requests| && s.requests[w.conn.r].pc.Keyed?)
  }

  /** w runs without the check, s with it: same tables, same histories, requests in step or waiting. */
  ghost predicate Similar(w: State, s: State) {
    && |s.requests| == |w.requests|
    && s == w.(requests := s.requests, conn := s.conn)
    && Connected(w, s)
    && forall r :: 0 <= r < |s.requests| ==> Paired(w, s, r)
  }

  /** After a step of one request, taken by both alike. */
  lemma MovedAlike(w: State, s: State, w': State, s': State, r: nat)
    requires Similar(w, s) && r < |w.requests| && |w'.requests| == |w.requests| && |s'.requests| == |s.requests|
    requires w'.requests == w.requests[r := w'.requests[r]] && s'.requests == s.requests[r := w'.requests[r]]
    requires !w'.requests[r].pc.Passed? && !w'.requests[r].pc.Looked? && s' == w'.(requests := s'.requests, conn := s'.conn)
    requires w.conn == s.conn ==> w'.conn == s'.conn
    requires w.conn != s.conn ==> w'.conn == w.conn && s'.conn == s.conn && w'.db == w.db && w'.clock == w.clock && r != w.conn.r
    requires w.conn.Redeeming? && w.conn == s.conn ==> r == w.conn.r || w'.conn == w.conn
    ensures Similar(w', s')
  {
    forall i | 0 <= i < |s'.requests| ensures Paired(w', s', i) {
      assert Paired(w, s, i);
    }
  }

  /** After a step of nobody's that leaves requests, tables and connection alone. */
  lemma StoodStill(w: State, s: State, w': State, s': State)
    requires Similar(w, s) && w'.conn == w.conn && s'.conn == s.conn && w'.db == w.db && w'.clock >= w.clock
    requires s' == w'.(requests := s'.requests, conn := s'.conn)
    requires (w'.requests == w.requests && s'.requests == s.requests)
             || (exists q: Request :: q.pc.Arrived? && w'.requests == w.requests + [q] && s'.requests == s.requests + [q])
    ensures Similar(w', s')
  {
    forall i | 0 <= i < |s'.requests| ensures Paired(w', s', i) {
      if i < |s.requests| {
        assert Paired(w, s, i);
      }
    }
  }

  /** After a step on the tables, taken by both on a connection no request holds. */
  lemma TablesMoved(w: State, s: State, w': State, s': State)
    requires Similar(w, s) && w.conn == s.conn && !w.conn.Redeeming? && !w'.conn.Redeeming? && w'.conn == s'.conn
    requires w'.requests == w.requests && s'.requests == s.requests && s' == w'.(requests := s'.requests)
    ensures Similar(w', s')
  {
    forall i | 0 <= i < |s'.requests| ensures Paired(w', s', i) {
      assert Paired(w, s, i);
    }
  }

  /** Every step but the start of a transaction is taken by both, or only brings a doomed one its refusal. */
  lemma SameStep(c: Config, w: State, s: State, st: Step)
    requires !c.earlyCheck && Similar(w, s) && Enabled(c, w, st)
    requires !st.CheckEarly? && !st.BeginTx? && !(st.SelectRow? && s.conn != w.conn)
    ensures Enabled(With(c), s, st) && Similar(Apply(c, w, st), Apply(With(c), s, st))
  {
    hide Apply;
    if Freshens(st) {
      assert Paired(w, s, st.r);
      FreshAgrees(c, true, w, s, st);
      MovedAlike(w, s, Apply(c, w, st), Apply(With(c), s, st), st.r);
    } else if InsideTx(st) {
      assert Paired(w, s, st.r);
      TxAgrees(c, true, w, s, st);
      MovedAlike(w, s, Apply(c, w, st), Apply(With(c), s, st), st.r);
    } else if st.Issue? && st.fails {
      assert Enabled(With(c), s, st);
      FailedIssueIsNothing(c, w, st);
      FailedIssueIsNothing(With(c), s, st);
    } else {
      OthersAgree(c, true, w, s, st);
      if OnTables(st) {
        TablesMoved(w, s, Apply(c, w, st), Apply(With(c), s, st));
      } else {
        StoodStill(w, s, Apply(c, w, st), Apply(With(c), s, st));
      }
    }
  }

  lemma PassedAlone(c: Config, w: State, s: State, r: nat)
    requires Similar(w, s) && Enabled(c, w, CheckEarly(r)) && RequestInv(c, w.requests[r]) && !c.earlyCheck
    ensures Similar(Apply(c, w, CheckEarly(r)), s)
  {
    hide Apply, RequestInv;
    assert Paired(w, s, r);
    PassesUnchecked(c, w, r);
    var w' := Goto(w, r, Passed(w.requests[r].pc.e, w.requests[r].pc.key));
    forall i | 0 <= i < |s.requests| ensures Paired(w', s, i) {
      assert Paired(w, s, i);
    }
  }

  /** A transaction that is lost from the start: its counterpart goes on waiting. */
  lemma LostFromTheStart(c: Config, w: State, s: State, r: nat, fails: bool)
    requires Similar(w, s) && Enabled(c, w, BeginTx(r, fails))
    requires fails || EarlyRefusal(Found(w.db, w.requests[r].pc.key), w.clock).Some?
    ensures Similar(Apply(c, w, BeginTx(r, fails)), s)
  {
    assert Paired(w, s, r);
    var w' := Apply(c, w, BeginTx(r, fails));
    assert w'.requests == w.requests[r := w'.requests[r]];
    forall i | 0 <= i < |s.requests| ensures Paired(w', s, i) {
      assert Paired(w, s, i);
    }
  }

  lemma RefusedLate(c: Config, w: State, s: State, r: nat, fails: bool)
    requires Similar(w, s) && Enabled(c, w, SelectRow(r, fails)) && s.conn != w.conn
    ensures Similar(Apply(c, w, SelectRow(r, fails)), s)
  {
    assert Doomed(w, r);
    assert Paired(w, s, r);
    var w' := ApplySelect(w, r, fails);
    assert w'.requests == w.requests[r := w'.requests[r]] && w'.requests[r].pc.Finished? && w'.requests[r].pc.ending.Denied?;
    forall i | 0 <= i < |s.requests| ensures Paired(w', s, i) {
      assert Paired(w, s, i);
    }
  }

  /** Look, check and begin, when the early check lets the request through. */
  lemma PassesAndBegins(c: Config, start: int, mine: seq<Step>, s: State, r: nat) returns (more: seq<Step>)
    requires c.earlyCheck && After(c, start, mine) == Some(s)
    requires r < |s.requests| && s.requests[r].pc.Keyed? && s.conn.Free? && RequestInv(c, s.requests[r])
    requires EarlyRefusal(Found(s.db, s.requests[r].pc.key), s.clock).None?
    ensures var pc := s.requests[r].pc;
            After(c, start, more) ==
            Some(s.(requests := s.requests[r := s.requests[r].(pc := InTx(pc.e, pc.key, Begun))], conn := Redeeming(r, s.db)))
  {
    hide After, RequestInv, Apply;
    var pc := s.requests[r].pc;
    var p := Goto(s, r, Looked(pc.e, pc.key, Found(s.db, pc.key).value, s.epoch));
    var q := Goto(s, r, Passed(pc.e, pc.key));
    LooksAndPasses(c, s, r);
    AfterOne(c, start, mine, s, Look(r, false));
    AfterOne(c, start, mine + [Look(r, false)], p, CheckEarly(r));
    more := mine + [Look(r, false)] + [CheckEarly(r)];
    BeginEffect(c, q, r);
    AfterOne(c, start, more, q, BeginTx(r, false));
    more := more + [BeginTx(r, false)];
    var x := s.requests[r].(pc := InTx(pc.e, pc.key, Begun));
    assert q.requests[r := x] == s.requests[r := x];
  }

  lemma LooksAndPasses(c: Config, s: State, r: nat)
    requires c.earlyCheck && r < |s.requests| && s.requests[r].pc.Keyed? && s.conn.Free? && RequestInv(c, s.requests[r])
    requires EarlyRefusal(Found(s.db, s.requests[r].pc.key), s.clock).None?
    ensures var pc := s.requests[r].pc;
            var p := Goto(s, r, Looked(pc.e, pc.key, Found(s.db, pc.key).value, s.epoch));
            && Enabled(c, s, Look(r, false)) && Apply(c, s, Look(r, false)) == p
            && Enabled(c, p, CheckEarly(r)) && Apply(c, p, CheckEarly(r)) == Goto(s, r, Passed(pc.e, pc.key))
  {
    hide RequestInv, CheckedChallenge;
    KeyMatches(c, s.requests[r]);
    var pc := s.requests[r].pc;
    var p := Goto(s, r, Looked(pc.e, pc.key, Found(s.db, pc.key).value, s.epoch));
    var x := s.requests[r].(pc := Passed(pc.e, pc.key));
    assert p.requests[r := x] == s.requests[r := x];
  }

  /** A transaction that the early check lets through starts in both. */
  lemma StartsInBoth(c: Config, start: int, mine: seq<Step>, w: State, s: State, r: nat) returns (more: seq<Step>)
    requires Similar(w, s) && Enabled(c, w, BeginTx(r, false)) && !c.earlyCheck && RequestInv(c, w.requests[r])
    requires EarlyRefusal(Found(w.db, w.requests[r].pc.key), w.clock).None?
    requires After(With(c), start, mine) == Some(s)
    ensures After(With(c), start, more).Some? && Similar(Apply(c, w, BeginTx(r, false)), After(With(c), start, more).value)
  {
    hide RequestInv, Apply, EarlyRefusal, After;
    assert Paired(w, s, r) && w.conn.Free?;
    hide Doomed;
    var p, q := w.requests[r], s.requests[r];
    WaitingKept(c, p, q);
    more := PassesAndBegins(With(c), start, mine, s, r);
    BeginEffect(c, w, r);
    var x := p.(pc := InTx(p.pc.e, p.pc.key, Begun));
    assert x == q.(pc := InTx(q.pc.e, q.pc.key, Begun));
    BothBegin(w, s, w.(requests := w.requests[r := x], conn := Redeeming(r, w.db)), r, x);
  }

  lemma BeginEffect(c: Config, s: State, r: nat)
    requires Enabled(c, s, BeginTx(r, false))
    ensures var pc := s.requests[r].pc;
            Apply(c, s, BeginTx(r, false)) ==
            s.(requests := s.requests[r := s.requests[r].(pc := InTx(pc.e, pc.key, Begun))], conn := Redeeming(r, s.db))
  {
  }

  lemma BothBegin(w: State, s: State, w': State, r: nat, x: Request)
    requires Similar(w, s) && w.conn.Free? && r < |w.requests| && x.pc.InTx?
    requires w' == w.(requests := w.requests[r := x], conn := Redeeming(r, w.db))
    ensures Similar(w', s.(requests := s.requests[r := x], conn := Redeeming(r, s.db)))
  {
    var s' := s.(requests := s.requests[r := x], conn := Redeeming(r, s.db));
    forall i | 0 <= i < |s'.requests| ensures Paired(w', s', i) {
      assert Paired(w, s, i);
    }
  }

  lemma WaitingKept(c: Config, p: Request, q: Request)
    requires RequestInv(c, p) && p.pc.Passed? && q.pc == Keyed(p.pc.e, p.pc.key) && p.proofType == q.proofType && p.reply == q.reply
    ensures RequestInv(With(c), q)
  {
  }

  lemma {:induction false} ReachedWith(c: Config, start: int, steps: seq<Step>) returns (mine: seq<Step>)
    requires !c.earlyCheck && After(c, start, steps).Some?
    ensures After(With(c), start, mine).Some?
    ensures Similar(After(c, start, steps).value, After(With(c), start, mine).value)
    decreases |steps|
  {
    if steps == [] {
      mine := [];
    } else {
      var init, st := steps[..|steps| - 1], steps[|steps| - 1];
      mine := ReachedWith(c, start, init);
      EveryRun(c, start, init);
      var w, s := After(c, start, init).value, After(With(c), start, mine).value;
      assert After(c, start, steps) == Some(Apply(c, w, st));
      hide After, Apply, Similar, AnchorInv, TxInv, HistoryInv, RequestInv;
      mine := NextWith(c, start, mine, w, s, st);
    }
  }

  lemma NextWith(c: Config, start: int, mine: seq<Step>, w: State, s: State, st: Step) returns (more: seq<Step>)
    requires !c.earlyCheck && RequestsInv(c, w.requests) && Similar(w, s) && Enabled(c, w, st)
    requires After(With(c), start, mine) == Some(s)
    ensures After(With(c), start, more).Some?
    ensures Similar(Apply(c, w, st), After(With(c), start, more).value)
  {
    hide After, Apply, RequestInv, Paired, Doomed;
    more := mine;
    if st.CheckEarly? {
      PassedAlone(c, w, s, st.r);
    } else if st.BeginTx? && (st.fails || EarlyRefusal(Found(w.db, w.requests[st.r].pc.key), w.clock).Some?) {
      LostFromTheStart(c, w, s, st.r, st.fails);
    } else if st.BeginTx? {
      more := StartsInBoth(c, start, mine, w, s, st.r);
    } else if st.SelectRow? && s.conn != w.conn {
      RefusedLate(c, w, s, st.r, st.fails);
    } else {
      SameStep(c, w, s, st);
      AfterOne(With(c), start, mine, s, st);
      more := mine + [st];
    }
  }

  /**
   Removing the early check changes no recorded row: tables, issues and commits are
   reached with the check exactly when they are reached without it.
   */
  lemma EarlyCheckChangesNoRecord(c: Config, start: int, db: Database, issued: seq<Issued>, commits: seq<Committed>)
    ensures ReachesRecord(With(c), start, db, issued, commits) <==> ReachesRecord(Without(c), start, db, issued, commits)
  {
    hide After;
    if ReachesRecord(With(c), start, db, issued, commits) {
      var steps: seq<Step> :| HasRecord(After(With(c), start, steps), db, issued, commits);
      AnswersCarryOver(With(c), start, steps);
      assert Without(With(c)) == Without(c);
      var others: seq<Step> :| After(Without(c), start, others).Some?
        && CarriesOver(After(With(c), start, steps).value, After(Without(c), start, others).value);
      assert HasRecord(After(Without(c), start, others), db, issued, commits);
    }
    if ReachesRecord(Without(c), start, db, issued, commits) {
      var steps: seq<Step> :| HasRecord(After(Without(c), start, steps), db, issued, commits);
      var mine := ReachedWith(Without(c), start, steps);
      assert With(Without(c)) == With(c);
      assert HasRecord(After(With(c), start, mine), db, issued, commits);
    }
  }

  ghost predicate HasRecord(s: Option<State>, db: Database, issued: seq<Issued>, commits: seq<Committed>) {
    s.Some? && s.value.db == db && s.value.issued == issued && s.value.commits == commits
  }

  ghost predicate ReachesRecord(c: Config, start: int, db: Database, issued: seq<Issued>, commits: seq<Committed>) {
    exists steps: seq<Step> :: HasRecord(After(c, start, steps), db, issued, commits)
  }
}
