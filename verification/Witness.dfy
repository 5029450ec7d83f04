/**
 Runs that exist: every server that starts can record a verification, and with the
 early check it can give an answer that it would never give without it.
 */
module Witness {
  import opened Wrappers
  import opened Clock
  import opened Numerals
  import opened GoText
  import opened PublicInputs
  import opened SmtRoot
  import opened Store
  import opened LinkVerify
  import opened System
  import opened Safety
  import opened Alone
  import opened Honest
  import opened EarlyCheck
  import opened Refusals
  import Limbs
  import SmtProvider
  import IssuerCert

  // -------------------------------------------------------------- honest proofs

  lemma AppIDIsField(id: AppID)
    ensures IsField(LE(id, 256))
  {
    AppIDRoundTrip(id);
    DecimalRoundTrip(LE(id, 256));
    UnpackDecides(DecimalNat(LE(id, 256)));
    PowMonotone(256, APP_ID_LEN, ROOT_BYTES);
  }

  /** The limbs of a trusted record recompose to its modulus. */
  lemma TrustedLimbs(w: IssuerCert.World, id: IssuerID, rec: IssuerCert.CertRecord)
    requires IssuerCert.Genuine(w, id, rec)
    ensures var l := Limbs.LimbsOf(rec.modulus, IssuerCert.LimbCountFor(id));
            && LE(l, Limbs.Radix()) == rec.modulus
            && forall i :: 0 <= i < |l| ==> IsField(l[i])
  {
    hide Pow, IsField, LE, Limbs.Radix;
    var der :| IssuerCert.Accept(w, id, der, rec.source, rec.fetchedAt) == Ok(rec);
    IssuerCert.AcceptMeaning(w, id, der, rec.source, rec.fetchedAt);
    IssuerCert.BitLenBounds(rec.modulus);
    var l := Limbs.LimbsOf(rec.modulus, IssuerCert.LimbCountFor(id));
    forall i | 0 <= i < |l| ensures IsField(l[i]) {
      Limbs.LimbIsField(l[i]);
    }
    Limbs.WideEnough(rec.modulus, IssuerCert.BitLen(rec.modulus), IssuerCert.LimbCountFor(id), l);
  }

  /** The public values of an honest pair of proofs. */
  function HonestSignals(limbs: seq<nat>, root: nat, appID: nat, v: nat, x: nat): FieldSignals {
    FieldSignals([v] + limbs + [root], [v, v, appID, x])
  }

  lemma HonestFields(limbs: seq<nat>, root: nat, appID: nat, v: nat, x: nat)
    requires forall i :: 0 <= i < |limbs| ==> IsField(limbs[i])
    requires IsField(root) && IsField(appID) && IsField(v) && IsField(x)
    ensures AreFields(HonestSignals(limbs, root, appID, v, x)) && Links(HonestSignals(limbs, root, appID, v, x), true)
  {
    hide IsField;
  }

  lemma HonestAgrees(c: Config, s: State, proofType: string, limbs: seq<nat>, v: nat, x: nat)
    requires var id := IssuerForProofType(proofType);
             && id in s.roots.cache.roots && id in s.certs.cache.certs && |limbs| == LimbCount(ChainType(proofType))
             && Digits(limbs, Limbs.Radix()) && LE(limbs, Limbs.Radix()) == s.certs.cache.certs[id].modulus
    ensures var root := RootValue(s.roots.cache.roots[IssuerForProofType(proofType)]);
            AgreesWith(c, s, proofType, HonestSignals(limbs, root, LE(c.appID, 256), v, x))
  {
    hide LE, Digits, Limbs.Radix, RootValue;
    var f := HonestSignals(limbs, RootValue(s.roots.cache.roots[IssuerForProofType(proofType)]), LE(c.appID, 256), v, x);
    assert f.certChain[1..|limbs| + 1] == limbs;
  }

  /** For any nullifier and challenge there are public values that pass every check. */
  lemma HonestProof(c: Config, s: State, proofType: string, v: nat, x: nat) returns (f: FieldSignals)
    requires AnchorInv(c, s) && IsField(v) && IsField(x)
    requires var id := IssuerForProofType(proofType); id in s.roots.cache.roots && id in s.certs.cache.certs
    ensures AreFields(f) && Links(f, true) && AgreesWith(c, s, proofType, f) && f.userSig[1] == v && f.userSig[3] == x
  {
    hide IsField, LE, Digits, Limbs.Radix, RootValue, IssuerCert.Genuine, AnchorInv, AgreesWith, AreFields, Links;
    var id := IssuerForProofType(proofType);
    var root, rec := s.roots.cache.roots[id], s.certs.cache.certs[id];
    RecordGenuine(c, s, id);
    TrustedLimbs(c.world, id, rec);
    AppIDIsField(c.appID);
    RootIsField(root);
    var l := Limbs.LimbsOf(rec.modulus, LimbCount(ChainType(proofType)));
    f := HonestSignals(l, RootValue(root), LE(c.appID, 256), v, x);
    HonestFields(l, RootValue(root), LE(c.appID, 256), v, x);
    HonestAgrees(c, s, proofType, l, v, x);
  }

  lemma RootIsField(root: Root)
    ensures IsField(RootValue(root))
  {
    ValueBound(root, 256);
  }

  // --------------------------------------------------------------- first steps

  /** A server that starts, with some root source, can load both roots. */
  lemma Warm(c: Config, start: int, root: Root) returns (steps: seq<Step>)
    requires Initial(c, start).Some? && c.rootSources != []
    ensures After(c, start, steps).Some?
    ensures var s, s0 := After(c, start, steps).value, Initial(c, start).value;
            s == s0.(roots := s.roots) && SmtProvider.Whole(s.roots.cache.roots)
  {
    var s0 := Initial(c, start).value;
    assert After(c, start, []) == Some(s0) && s0.roots == SmtProvider.INITIAL;
    hide After, Initial, SmtProvider.Apply, SmtProvider.Enabled, SmtProvider.INITIAL;
    steps := [];
    var m := s0.roots;
    var fs := FirstRefresh(c.rootSources, map[G2 := root, G3 := root]);
    for i := 0 to |fs|
      invariant After(c, start, steps) == Some(s0.(roots := m)) && RefreshedBy(c.rootSources, fs[..i], m)
    {
      Prefixes(c.rootSources, fs, i, m);
      Refreshes(c, start, steps, s0.(roots := m), fs[i]);
      steps := steps + [RefreshRoots(fs[i])];
      m := SmtProvider.Apply(c.rootSources, m, fs[i]);
    }
    assert fs[..|fs|] == fs;
  }

  ghost predicate RefreshedBy(sources: seq<string>, fs: seq<SmtProvider.Step>, m: SmtProvider.Machine) {
    SmtProvider.After(sources, fs) == Some(m)
  }

  /** A run of the provider takes each of its steps in turn. */
  lemma {:induction false} Prefixes(sources: seq<string>, fs: seq<SmtProvider.Step>, i: nat, m: SmtProvider.Machine)
    requires i < |fs| && SmtProvider.After(sources, fs).Some? && RefreshedBy(sources, fs[..i], m)
    ensures SmtProvider.Enabled(sources, m, fs[i])
    ensures RefreshedBy(sources, fs[..i + 1], SmtProvider.Apply(sources, m, fs[i]))
    decreases |fs|
  {
    hide SmtProvider.Apply, SmtProvider.Enabled;
    if i + 1 == |fs| {
      assert fs[..i + 1] == fs;
    } else {
      var init := fs[..|fs| - 1];
      assert init[..i] == fs[..i] && init[..i + 1] == fs[..i + 1] && init[i] == fs[i];
      Prefixes(sources, init, i, m);
    }
  }

  /** One undisturbed refresh of the provider loads both roots. */
  lemma FirstRefresh(sources: seq<string>, roots: SmtProvider.Roots) returns (fs: seq<SmtProvider.Step>)
    requires sources != [] && SmtProvider.Whole(roots)
    ensures SmtProvider.After(sources, fs).Some? && SmtProvider.Whole(SmtProvider.After(sources, fs).value.cache.roots)
  {
    fs := [];
    var m := SmtProvider.INITIAL;
    fs, m := Extended(sources, fs, m, SmtProvider.Start);
    fs, m := Extended(sources, fs, m, SmtProvider.Respond(0, Ok(roots)));
    fs, m := Extended(sources, fs, m, SmtProvider.Record(0, 0));
    fs, m := Extended(sources, fs, m, SmtProvider.Proceed(0, 0));
  }

  lemma Extended(sources: seq<string>, fs: seq<SmtProvider.Step>, m: SmtProvider.Machine, f: SmtProvider.Step)
    returns (more: seq<SmtProvider.Step>, m': SmtProvider.Machine)
    requires SmtProvider.After(sources, fs) == Some(m) && SmtProvider.Enabled(sources, m, f)
    ensures m' == SmtProvider.Apply(sources, m, f) && SmtProvider.After(sources, more) == Some(m')
  {
    hide SmtProvider.Apply, SmtProvider.Enabled;
    more, m' := fs + [f], SmtProvider.Apply(sources, m, f);
    assert more[..|fs|] == fs;
  }

  lemma Refreshes(c: Config, start: int, steps: seq<Step>, s: State, f: SmtProvider.Step)
    requires After(c, start, steps) == Some(s) && SmtProvider.Enabled(c.rootSources, s.roots, f)
    ensures After(c, start, steps + [RefreshRoots(f)]) == Some(s.(roots := SmtProvider.Apply(c.rootSources, s.roots, f)))
  {
    AfterOne(c, start, steps, s, RefreshRoots(f));
    hide After, SmtProvider.Apply, SmtProvider.Enabled;
  }

  /** Issue one challenge and let one request arrive. */
  lemma Ready(c: Config, start: int, root: Root, seed: Seed, proofType: string) returns (steps: seq<Step>)
    requires Initial(c, start).Some? && c.rootSources != []
    ensures After(c, start, steps).Some?
    ensures var s, expiresAt := After(c, start, steps).value, WholeSecond(start + c.ttl);
            && SmtProvider.Whole(s.roots.cache.roots) && s.conn.Free? && s.clock == start && s.epoch == 0 && s.wipes == [] && s.commits == []
            && s.requests == [Request(proofType, None, Arrived)]
            && s.db == Database(map[DecimalNat(IssuedValue(seed)) := ChallengeRow(WholeSecond(start), expiresAt, None)], [])
            && s.issued == [Issued(IssuedValue(seed), expiresAt, 0)]
  {
    steps := Warm(c, start, root);
    var s := After(c, start, steps).value;
    hide After, IssuedValue, DecimalNat, WholeSecond, Apply, Enabled;
    var issue, arrive := Issue(seed, start, false), Arrive(proofType);
    IssueTakes(c, s, seed, start);
    AfterOne(c, start, steps, s, issue);
    var t := Apply(c, s, issue);
    Arrives(c, t, proofType);
    AfterOne(c, start, steps + [issue], t, arrive);
    steps := steps + [issue] + [arrive];
  }

  lemma Arrives(c: Config, s: State, proofType: string)
    ensures Enabled(c, s, Arrive(proofType))
    ensures Apply(c, s, Arrive(proofType)) == s.(requests := s.requests + [Request(proofType, None, Arrived)])
  {
  }

  lemma IssueTakes(c: Config, s: State, seed: Seed, reading: int)
    requires s.conn.Free? && reading <= s.clock && DecimalNat(IssuedValue(seed)) !in s.db.challenges
    ensures Enabled(c, s, Issue(seed, reading, false))
    ensures var key, expiresAt := DecimalNat(IssuedValue(seed)), WholeSecond(reading + c.ttl);
            Apply(c, s, Issue(seed, reading, false)) ==
            s.(db := s.db.(challenges := s.db.challenges[key := ChallengeRow(WholeSecond(s.clock), expiresAt, None)]),
               issued := s.issued + [Issued(IssuedValue(seed), expiresAt, s.epoch)])
  {
    hide IssuedValue, DecimalNat, WholeSecond;
  }

  lemma {:induction false} RunAfter(c: Config, start: int, before: seq<Step>, s: State, steps: seq<Step>)
    requires After(c, start, before) == Some(s) && Run(c, s, steps).Some?
    ensures After(c, start, before + steps) == Run(c, s, steps)
    decreases |steps|
  {
    hide Apply, Enabled;
    if steps == [] {
      assert before + steps == before;
    } else {
      AfterOne(c, start, before, s, steps[0]);
      RunAfter(c, start, before + [steps[0]], Apply(c, s, steps[0]), steps[1..]);
      assert before + [steps[0]] + steps[1..] == before + steps;
    }
  }

  lemma CertsPresent(c: Config, s: State, id: IssuerID)
    requires AnchorInv(c, s)
    ensures id in s.certs.cache.certs
  {
    assert id.G2? || id.G3?;
  }

  lemma RootPresent(roots: SmtProvider.Roots, id: IssuerID)
    requires SmtProvider.Whole(roots)
    ensures id in roots
  {
    assert id.G2? || id.G3?;
  }

  lemma Unspent(seed: Seed, db: Database, nullifier: string, now: int)
    requires DecimalNat(IssuedValue(seed)) in db.challenges && db.verifications == []
    requires db.challenges[DecimalNat(IssuedValue(seed))].consumedAt.None? && now <= db.challenges[DecimalNat(IssuedValue(seed))].expiresAt
    ensures Refusal(db, nullifier, DecimalNat(IssuedValue(seed)), now) == None
  {
  }

  /** What an honest request is coming to, from a server that is ready. */
  lemma ReadyAccepts(c: Config, start: int, root: Root, seed: Seed, proofType: string) returns (steps: seq<Step>, f: FieldSignals)
    requires Initial(c, start).Some? && c.rootSources != [] && c.ttl >= SECOND
    ensures After(c, start, steps).Some? && AreFields(f) && Links(f, true) && |f.userSig| == 4 && f.userSig[3] == IssuedValue(seed)
    ensures var s, expiresAt := After(c, start, steps).value, WholeSecond(start + c.ttl);
            && s.conn.Free? && s.clock == start && s.epoch == 0 && s.wipes == [] && s.commits == []
            && s.requests == [Request(proofType, None, Arrived)]
            && s.db == Database(map[DecimalNat(IssuedValue(seed)) := ChallengeRow(WholeSecond(start), expiresAt, None)], [])
            && s.issued == [Issued(IssuedValue(seed), expiresAt, 0)]
            && Inv(c, s)
            && Ahead(c, s, s.requests[0], Judged(true, f)).answer.Accepted?
            && Ahead(c, s, s.requests[0], Judged(true, f)) == Decided(c, s, proofType, Judged(true, f))
            && Decided(c, s, proofType, Judged(true, f)) ==
               FromKey(s.db, s.clock, proofType, FieldToHex(f.userSig[1]), DecimalNat(f.userSig[3]))
  {
    steps := Ready(c, start, root, seed, proofType);
    EveryRun(c, start, steps);
    var s := After(c, start, steps).value;
    hide After, Inv, TxInv, HistoryInv, RequestsInv, IssuedValue, DecimalNat, FieldToHex, IsField, Decided, Ahead, Refusal, FromKey, AnchorInv;
    var id := IssuerForProofType(proofType);
    AnchorsOf(c, s);
    CertsPresent(c, s, id);
    RootPresent(s.roots.cache.roots, id);
    IssuedIsField(seed);
    f := HonestProof(c, s, proofType, IssuedValue(seed), IssuedValue(seed));
    Unspent(seed, s.db, FieldToHex(f.userSig[1]), s.clock);
    DecidedIff(c, s, proofType, true, f);
    AheadIsDecided(c, s, s.requests[0], Judged(true, f));
  }

  lemma AnchorsOf(c: Config, s: State)
    requires Inv(c, s)
    ensures AnchorInv(c, s)
  {
  }

  /**
   Every server that starts, with a root source and a lifetime of a second or more, has
   a run that records a verification: what is said of recorded rows is said of something.
   */
  lemma EveryServerCanRecord(c: Config, start: int, root: Root, seed: Seed, proofType: string) returns (steps: seq<Step>)
    requires Initial(c, start).Some? && c.rootSources != [] && c.ttl >= SECOND
    ensures After(c, start, steps).Some?
    ensures var db := After(c, start, steps).value.db;
            |db.verifications| == 1 && db.verifications[0].challenge == DecimalNat(IssuedValue(seed))
            && db.verifications[0].proofType == StoreKey(proofType)
  {
    var before, f := ReadyAccepts(c, start, root, seed, proofType);
    var s, reply := After(c, start, before).value, Judged(true, f);
    assert Unhindered(s, 0);
    hide After, Inv, Ahead, IssuedValue, DecimalNat, FieldToHex, Decided, Unhindered, AreFields, Links, Run;
    assert Possible(reply);
    var own := Finishes(c, s, 0, reply);
    RunFate(c, s, own, 0, reply);
    RunAfter(c, start, before, s, own);
    var t := Run(c, s, own).value;
    NothingAhead(c, t, t.requests[0], reply);
    steps := before + own;
  }

  lemma {:induction false} BitLenPow(k: nat)
    ensures IssuerCert.BitLen(Pow(2, k)) == k + 1
    decreases k
  {
    if k > 0 {
      BitLenPow(k - 1);
      PowPositive(2, k - 1);
      assert Pow(2, k) == 2 * Pow(2, k - 1);
    } else {
      assert IssuerCert.BitLen(1) == 1 + IssuerCert.BitLen(0);
    }
  }

  /** A world with four embedded files of one byte each, where every certificate is in order; its roots have the key usages of the real ones. */
  function PlainWorld(n2: nat, n3: nat): IssuerCert.World {
    IssuerCert.World(
      der => if der == [0] then IssuerCert.PINNED_MOICA_G2 else if der == [1] then IssuerCert.PINNED_MOICA_G3
             else if der == [2] then IssuerCert.PINNED_GRCA_G2 else IssuerCert.PINNED_GRCA_G3,
      der => Some(IssuerCert.Certificate([], [], true, if der == [2] then 96 else 97, 0, SECOND, IssuerCert.RSA(if der == [1] then n3 else n2))),
      (cert, root) => true,
      e => "",
      id => if id == G3 then [1] else [0],
      id => if id == G3 then [3] else [2])
  }

  lemma PlainWorldSound(n2: nat, n3: nat, id: IssuerID)
    requires Pow(2, 2047) <= n2 < Pow(2, 2048) && Pow(2, 4095) <= n3 < Pow(2, 4096)
    ensures IssuerCert.Accept(PlainWorld(n2, n3), id, PlainWorld(n2, n3).embedded(id), IssuerCert.SOURCE_EMBEDDED, 0).Ok?
  {
    hide Pow, IssuerCert.Accept, IssuerCert.PINNED_MOICA_G2, IssuerCert.PINNED_MOICA_G3, IssuerCert.PINNED_GRCA_G2, IssuerCert.PINNED_GRCA_G3;
    var w := PlainWorld(n2, n3);
    IssuerCert.AcceptIff(w, id, w.embedded(id), IssuerCert.SOURCE_EMBEDDED, 0);
    assert id.G2? || id.G3?;
    assert [0] != [1] && [3] != [0] && [3] != [1] && [3] != [2] && [2] != [0] && [2] != [1];
    assert 96 / 32 % 2 == 1 && 97 / 32 % 2 == 1;
  }

  lemma PlainWorldLoads(n2: nat, n3: nat)
    requires IssuerCert.BitLen(n2) == 2048 && IssuerCert.BitLen(n3) == 4096
    ensures IssuerCert.LoadEmbedded(PlainWorld(n2, n3), 0).Ok?
  {
    hide Pow, PlainWorld, IssuerCert.Accept, IssuerCert.LoadEmbedded, IssuerCert.BitLen;
    IssuerCert.BitLenIff(n2, 2048);
    IssuerCert.BitLenIff(n3, 4096);
    PlainWorldSound(n2, n3, G2);
    PlainWorldSound(n2, n3, G3);
    IssuerCert.LoadsIff(PlainWorld(n2, n3), 0);
  }

  /** Some server starts, so these runs exist. */
  lemma SomeServerStarts(appID: AppID, ttl: nat, earlyCheck: bool)
    ensures exists w: IssuerCert.World :: Initial(Config(w, ["onchain"], map[], appID, ttl, earlyCheck), 0).Some?
  {
    hide Pow, PlainWorld, IssuerCert.LoadEmbedded, IssuerCert.BitLen;
    BitLenPow(2047);
    BitLenPow(4095);
    var w := PlainWorld(Pow(2, 2047), Pow(2, 4095));
    PlainWorldLoads(Pow(2, 2047), Pow(2, 4095));
    assert Initial(Config(w, ["onchain"], map[], appID, ttl, earlyCheck), 0).Some?;
  }

  // --------------------------------- what a transaction's "expired" answer rests on

  /**
   An issue of the request's own challenge expired in its epoch; if a wipe took it away
   since, every row is younger than that.
   */
  predicate ExpiredThen(db: Database, clock: int, wipes: seq<int>, q: Request, i: Issued) {
    && HasSignals(q) && i.value == q.reply.value.signals.userSig[3] && i.expiresAt < clock && i.epoch <= |wipes|
    && (i.epoch < |wipes| ==>
          i.expiresAt < wipes[i.epoch]
          && forall key :: key in db.challenges ==> db.challenges[key].issuedAt + SECOND > i.expiresAt)
  }

  predicate ToldExpired(q: Request) {
    q.pc == Finished(Denied(ChallengeExpired))
  }

  ghost predicate ExpiredInv(s: State) {
    && (forall r :: 0 <= r < |s.requests| && ToldExpired(s.requests[r]) ==>
          exists k :: 0 <= k < |s.issued| && ExpiredThen(s.db, s.clock, s.wipes, s.requests[r], s.issued[k]))
    && (forall k :: 0 <= k < |s.issued| ==> s.issued[k].epoch <= |s.wipes|)
  }

  /** Rows keep their stamp, new ones are stamped now, and a wipe leaves none. */
  ghost predicate RowsAge(s: State, t: State) {
    && t.clock >= s.clock
    && (t.wipes == s.wipes || (t.wipes == s.wipes + [s.clock] && t.db.challenges == map[]))
    && (forall key :: key in t.db.challenges ==>
          (key in s.db.challenges && t.db.challenges[key].issuedAt == s.db.challenges[key].issuedAt)
          || t.db.challenges[key].issuedAt + SECOND > s.clock)
  }

  lemma StepAgesRows(c: Config, s: State, st: Step)
    requires TxInv(s) && Enabled(c, s, st)
    ensures RowsAge(s, Apply(c, s, st))
    ensures var t := Apply(c, s, st);
            t.issued == s.issued || (|t.issued| == |s.issued| + 1 && t.issued[..|s.issued|] == s.issued && t.issued[|s.issued|].epoch == s.epoch)
  {
    if st.CommitTx? && !st.fails {
      hide Refusal;
    } else if st.CleanCommit? && !st.fails {
    } else if st.Issue? {
      hide IssuedValue, TxInv, DecimalNat;
    } else if st.Tick? {
      hide TxInv;
    } else {
      UnrecordedStep(c, s, st);
      ClockStays(c, s, st);
      hide Apply, TxInv;
    }
  }

  lemma ClockStays(c: Config, s: State, st: Step)
    requires Enabled(c, s, st) && !st.Tick?
    ensures Apply(c, s, st).clock == s.clock
  {
    if MovesRequest(st) {
      OnlyThisMoves(c, s, st);
      hide Apply;
    } else {
      hide SmtProvider.Apply, IssuerCert.Apply, IssuedValue, InsertChallenge, DeleteChallenges;
    }
  }

  lemma ExpiredStays(s: State, t: State, q: Request, i: Issued)
    requires RowsAge(s, t) && ExpiredThen(s.db, s.clock, s.wipes, q, i)
    ensures ExpiredThen(t.db, t.clock, t.wipes, q, i)
  {
  }

  /** Only a select tells a request so, and it found the row expired. */
  lemma ToldBySelect(c: Config, s: State, st: Step)
    requires TxInv(s) && Enabled(c, s, st) && MovesRequest(st)
    requires st.r < |Apply(c, s, st).requests| && ToldExpired(Apply(c, s, st).requests[st.r])
    ensures var q := s.requests[st.r];
            q.pc.InTx? && q.pc.key in s.db.challenges && s.clock > s.db.challenges[q.pc.key].expiresAt
    ensures var t := Apply(c, s, st); t.db == s.db && t.clock == s.clock && t.wipes == s.wipes && t.issued == s.issued
    ensures Apply(c, s, st).requests[st.r].reply == s.requests[st.r].reply
  {
    hide ParsePublicInputs, CheckSmtRoot, CheckIssuerModulus, NormalizeDecimal, Publish, AreFields, Links, Refusal, Redeemed, RowOf,
      InsertVerification, ConsumeChallenge, RowFor, CheckedChallenge, EarlyRefusal;
  }

  lemma NewlyExpired(c: Config, s: State, q: Request, p: Request)
    requires RequestInv(c, q) && q.pc.InTx? && p.reply == q.reply && IssuesKnown(s.db, s.issued, s.epoch)
    requires |s.wipes| == s.epoch && q.pc.key in s.db.challenges && s.clock > s.db.challenges[q.pc.key].expiresAt
    ensures exists k :: 0 <= k < |s.issued| && ExpiredThen(s.db, s.clock, s.wipes, p, s.issued[k])
  {
    OwnKey(c, q);
    hide RequestInv, DecimalNat, IsField;
    assert WasIssued(s.issued, s.epoch, q.pc.key, s.db.challenges[q.pc.key].expiresAt);
    var k :| 0 <= k < |s.issued| && s.issued[k].epoch == s.epoch && q.pc.key == DecimalNat(s.issued[k].value)
             && s.db.challenges[q.pc.key].expiresAt == s.issued[k].expiresAt;
    KeysDistinct(s.issued[k].value, q.reply.value.signals.userSig[3]);
    assert ExpiredThen(s.db, s.clock, s.wipes, p, s.issued[k]);
  }

  lemma ExpiredKept(c: Config, s: State, st: Step)
    requires Inv(c, s) && ExpiredInv(s) && Enabled(c, s, st)
    ensures ExpiredInv(Apply(c, s, st))
  {
    hide Apply, RequestInv, AnchorInv, TxInv, RowsAge, ExpiredThen, Enabled,
      Consistent, RowsAreCommits, ExactlyOnce, CommitsMatchRequests, IssuesKnown, AllRedeem;
    var t := Apply(c, s, st);
    StepAgesRows(c, s, st);
    RequestsMove(c, s, st);
    EpochGrows(s, t);
    forall r | 0 <= r < |t.requests| && ToldExpired(t.requests[r])
      ensures exists k :: 0 <= k < |t.issued| && ExpiredThen(t.db, t.clock, t.wipes, t.requests[r], t.issued[k])
    {
      if MovesRequest(st) && r == st.r {
        ToldBySelect(c, s, st);
        NewlyExpired(c, s, s.requests[r], t.requests[r]);
      } else {
        assert r < |s.requests| && t.requests[r] == s.requests[r];
        var k :| 0 <= k < |s.issued| && ExpiredThen(s.db, s.clock, s.wipes, s.requests[r], s.issued[k]);
        ExpiredStays(s, t, t.requests[r], s.issued[k]);
        assert t.issued[k] == s.issued[k];
      }
    }
    forall k | 0 <= k < |t.issued| ensures t.issued[k].epoch <= |t.wipes| {
      if k < |s.issued| {
        assert t.issued[k] == s.issued[k];
      }
    }
  }

  lemma EpochGrows(s: State, t: State)
    requires RowsAge(s, t)
    ensures |t.wipes| >= |s.wipes|
  {
  }

  lemma {:induction false} ExpiredInEveryRun(c: Config, start: int, steps: seq<Step>)
    requires After(c, start, steps).Some?
    ensures ExpiredInv(After(c, start, steps).value)
    decreases |steps|
  {
    if steps != [] {
      var init, st := steps[..|steps| - 1], steps[|steps| - 1];
      ExpiredInEveryRun(c, start, init);
      EveryRun(c, start, init);
      ExpiredKept(c, After(c, start, init).value, st);
      hide Apply, ExpiredInv, Inv;
    }
  }

  // ----------------------------------------------------- an overtaken early answer

  lemma FreshNotRecorded(c: Config, s: State, st: Step)
    requires Enabled(c, s, st) && Freshens(st)
    ensures var t := Apply(c, s, st);
            && st.r < |t.requests| && !IsRecorded(t.requests[st.r])
            && !t.requests[st.r].pc.Passed? && !t.requests[st.r].pc.InTx? && !t.requests[st.r].pc.Looked?
  {
    hide ParsePublicInputs, CheckSmtRoot, CheckIssuerModulus, NormalizeDecimal, Publish, AreFields, Links;
  }

  predicate BeforeKey(pc: Pc) {
    pc.Arrived? || pc.Parsed? || pc.RootRead? || pc.CertRead?
  }

  lemma NextIsFresh(c: Config, r: nat, reply: Reply, pc: Pc)
    requires BeforeKey(pc)
    ensures Freshens(Next(c, r, reply, pc)) && Next(c, r, reply, pc).r == r
    ensures Next(c, r, reply, pc).Ffi? <==> pc.Arrived?
  {
  }

  /** A request that will be accepted gets to its key, and nothing else changes. */
  lemma {:induction false} WalksToKey(c: Config, s: State, r: nat, reply: Reply) returns (steps: seq<Step>)
    requires Inv(c, s) && Unhindered(s, r) && Possible(reply) && Ahead(c, s, s.requests[r], reply).answer.Accepted?
    requires BeforeKey(s.requests[r].pc) || s.requests[r].pc.Keyed?
    ensures AllOwn(r, reply, steps) && Run(c, s, steps).Some?
    ensures var t := Run(c, s, steps).value;
            && Inv(c, t) && |t.requests| == |s.requests| && t.requests == s.requests[r := t.requests[r]]
            && t == s.(requests := t.requests) && t.requests[r].pc.Keyed?
    decreases Distance(s.requests[r].pc)
  {
    hide Apply, Inv, Own, Enabled, Ahead, Possible;
    if s.requests[r].pc.Keyed? {
      steps := [];
    } else {
      var st := Next(c, r, reply, s.requests[r].pc);
      NextMoves(c, s, r, reply);
      NextIsFresh(c, r, reply, s.requests[r].pc);
      StepFate(c, s, st, r, reply);
      StepKeepsInv(c, s, st);
      OnlyThisMoves(c, s, st);
      FreshNotRecorded(c, s, st);
      var t := Apply(c, s, st);
      if t.requests[r].pc.Finished? {
        NothingAhead(c, t, t.requests[r], reply);
        assert false;
      }
      hide Unhindered;
      var rest := WalksToKey(c, t, r, reply);
      steps := [st] + rest;
      assert steps[1..] == rest;
    }
  }

  /** The early look finds the challenge; a wipe takes it, another is issued, and only then the clock is read. */
  lemma Overtake(c: Config, start: int, before: seq<Step>, s: State, seed: Seed) returns (steps: seq<Step>)
    requires c.earlyCheck && After(c, start, before) == Some(s) && |s.requests| == 1 && s.conn.Free? && s.requests[0].pc.Keyed?
    requires s.requests[0].pc.key in s.db.challenges && s.clock <= s.db.challenges[s.requests[0].pc.key].expiresAt && |s.wipes| == s.epoch
    ensures After(c, start, steps).Some?
    ensures var t, expiresAt := After(c, start, steps).value, WholeSecond(s.clock + c.ttl);
            && t.requests == [s.requests[0].(pc := Finished(TurnedAway(ChallengeExpired, true)))]
            && t.issued == s.issued + [Issued(IssuedValue(seed), expiresAt, s.epoch + 1)]
            && t.db.challenges == map[DecimalNat(IssuedValue(seed)) := ChallengeRow(WholeSecond(s.clock), expiresAt, None)]
  {
    hide After, IssuedValue, DecimalNat, WholeSecond, Apply, Enabled;
    var pc := s.requests[0].pc;
    var exp := s.db.challenges[pc.key].expiresAt;
    var later: nat := exp - s.clock + 1;
    var looked := Goto(s, 0, Looked(pc.e, pc.key, IssuedChallenge(pc.key, exp), s.epoch));
    Finds(c, s);
    AfterOne(c, start, before, s, Look(0, false));
    var s1 := looked.(conn := Cleaning(0, s.db));
    AfterOne(c, start, before + [Look(0, false)], looked, CleanBegin);
    steps := Wiped(c, start, before + [Look(0, false)] + [CleanBegin], s1);
    var s2 := looked.(conn := Free, db := Database(map[], []), epoch := s.epoch + 1, epochStart := |s.commits|, wipes := s.wipes + [s.clock]);
    IssueTakes(c, s2, seed, s2.clock);
    AfterOne(c, start, steps, s2, Issue(seed, s2.clock, false));
    steps := steps + [Issue(seed, s2.clock, false)];
    var s3 := Apply(c, s2, Issue(seed, s2.clock, false));
    Ticks(c, s3, later);
    AfterOne(c, start, steps, s3, Tick(later));
    steps := steps + [Tick(later)];
    var s4 := s3.(clock := s3.clock + later);
    JudgesLate(c, s4);
    AfterOne(c, start, steps, s4, CheckEarly(0));
    steps := steps + [CheckEarly(0)];
  }

  lemma Finds(c: Config, s: State)
    requires c.earlyCheck && |s.requests| == 1 && s.conn.Free? && s.requests[0].pc.Keyed?
    requires s.requests[0].pc.key in s.db.challenges
    ensures var pc := s.requests[0].pc;
            var looked := Goto(s, 0, Looked(pc.e, pc.key, IssuedChallenge(pc.key, s.db.challenges[pc.key].expiresAt), s.epoch));
            && Enabled(c, s, Look(0, false)) && Apply(c, s, Look(0, false)) == looked
            && Enabled(c, looked, CleanBegin) && Apply(c, looked, CleanBegin) == looked.(conn := Cleaning(0, s.db))
  {
  }

  lemma Ticks(c: Config, s: State, elapsed: nat)
    ensures Enabled(c, s, Tick(elapsed)) && Apply(c, s, Tick(elapsed)) == s.(clock := s.clock + elapsed)
  {
  }

  lemma JudgesLate(c: Config, s: State)
    requires |s.requests| == 1 && s.requests[0].pc.Looked? && s.clock > s.requests[0].pc.found.expiresAt
    requires LostUnexpired(s.wipes, s.requests[0].pc.since, s.requests[0].pc.found.expiresAt)
    ensures Enabled(c, s, CheckEarly(0))
    ensures Apply(c, s, CheckEarly(0)) == Goto(s, 0, Finished(TurnedAway(ChallengeExpired, true)))
  {
    hide CheckedChallenge;
  }

  lemma Wiped(c: Config, start: int, before: seq<Step>, s: State) returns (steps: seq<Step>)
    requires After(c, start, before) == Some(s) && s.conn == Cleaning(0, s.db)
    ensures After(c, start, steps) ==
            Some(s.(conn := Free, db := Database(map[], []), epoch := s.epoch + 1, epochStart := |s.commits|, wipes := s.wipes + [s.clock]))
  {
    hide After;
    var d, e := s.(conn := Cleaning(1, DeleteVerifications(s.db))), s.(conn := Cleaning(2, Database(map[], [])));
    AfterOne(c, start, before, s, CleanDelete(false));
    AfterOne(c, start, before + [CleanDelete(false)], d, CleanDelete(false));
    AfterOne(c, start, before + [CleanDelete(false)] + [CleanDelete(false)], e, CleanCommit(false));
    steps := before + [CleanDelete(false)] + [CleanDelete(false)] + [CleanCommit(false)];
  }

  /** Same tables, same issues, the same request told the same. */
  ghost predicate SameToClient(s: State, w: State) {
    && w.db == s.db && w.issued == s.issued && |w.requests| == |s.requests|
    && forall r :: 0 <= r < |s.requests| ==> w.requests[r].reply == s.requests[r].reply && AnswerTo(w.requests[r]) == AnswerTo(s.requests[r])
  }

  /**
   On every server that starts with the early check there is a run whose overtaken
   answer, on those tables, no run without the check gives.
   */
  lemma OvertakenAnswerIsNew(c: Config, start: int, root: Root, first: Seed, second: Seed, proofType: string) returns (steps: seq<Step>)
    requires Initial(c, start).Some? && c.rootSources != [] && c.ttl >= SECOND && c.earlyCheck
    requires IssuedValue(first) != IssuedValue(second)
    ensures After(c, start, steps).Some?
    ensures var s := After(c, start, steps).value;
            |s.requests| == 1 && Overtaken(s.requests[0]) && AnswerTo(s.requests[0]) == Some(Declined(ChallengeExpired))
    ensures forall others: seq<Step> :: After(Without(c), start, others).Some? ==>
              !SameToClient(After(c, start, steps).value, After(Without(c), start, others).value)
  {
    hide After, IssuedValue, DecimalNat, WholeSecond;
    var before := AtKey(c, start, root, first, proofType);
    var t := After(c, start, before).value;
    steps := Overtake(c, start, before, t, second);
    NoneWithout(c, start, After(c, start, steps).value, IssuedValue(first), IssuedValue(second));
  }

  /** A server with one row and one request, which holds the key of that row. */
  lemma AtKey(c: Config, start: int, root: Root, seed: Seed, proofType: string) returns (steps: seq<Step>)
    requires Initial(c, start).Some? && c.rootSources != [] && c.ttl >= SECOND
    ensures After(c, start, steps).Some?
    ensures var s, key := After(c, start, steps).value, DecimalNat(IssuedValue(seed));
            && |s.requests| == 1 && s.requests[0].pc.Keyed? && s.requests[0].pc.key == key
            && s.requests[0].reply.Some? && s.requests[0].reply.value.Judged?
            && |s.requests[0].reply.value.signals.userSig| == 4 && s.requests[0].reply.value.signals.userSig[3] == IssuedValue(seed)
            && s.conn.Free? && s.clock == start && s.epoch == 0 && s.wipes == [] && key in s.db.challenges
            && start <= s.db.challenges[key].expiresAt
            && s.issued == [Issued(IssuedValue(seed), WholeSecond(start + c.ttl), 0)]
  {
    var before, f := ReadyAccepts(c, start, root, seed, proofType);
    var s, reply := After(c, start, before).value, Judged(true, f);
    assert Unhindered(s, 0);
    hide After, Inv, Ahead, IssuedValue, DecimalNat, FieldToHex, Decided, Unhindered, AreFields, Links, Run, FromKey, WholeSecond;
    assert Possible(reply);
    var own := WalksToKey(c, s, 0, reply);
    RunAfter(c, start, before, s, own);
    KeyOf(c, s, Run(c, s, own).value, own, reply);
    steps := before + own;
  }

  lemma NoneWithout(c: Config, start: int, u: State, v: nat, x: nat)
    requires TheOvertaken(u, start, c.ttl, v, x) && c.ttl >= SECOND && v != x
    ensures forall others: seq<Step> :: After(Without(c), start, others).Some? ==>
              !SameToClient(u, After(Without(c), start, others).value)
  {
    hide After, SameToClient, TheOvertaken;
    forall others: seq<Step> | After(Without(c), start, others).Some?
      ensures !SameToClient(u, After(Without(c), start, others).value)
    {
      ExpiredInEveryRun(Without(c), start, others);
      NeverTurnedAway(Without(c), start, others);
      NotWithout(u, After(Without(c), start, others).value, start, c.ttl, v, x);
    }
  }

  /** The state reached: the one row was stamped before the first challenge expired. */
  ghost predicate TheOvertaken(u: State, start: int, ttl: nat, v: nat, x: nat) {
    && |u.requests| == 1 && u.requests[0].reply.Some? && u.requests[0].reply.value.Judged?
    && |u.requests[0].reply.value.signals.userSig| == 4 && u.requests[0].reply.value.signals.userSig[3] == v
    && AnswerTo(u.requests[0]) == Some(Declined(ChallengeExpired))
    && u.issued == [Issued(v, WholeSecond(start + ttl), 0), Issued(x, WholeSecond(start + ttl), 1)]
    && u.db.challenges == map[DecimalNat(x) := ChallengeRow(WholeSecond(start), WholeSecond(start + ttl), None)]
  }

  lemma KeyOf(c: Config, s: State, t: State, own: seq<Step>, reply: Reply)
    requires Run(c, s, own) == Some(t) && Inv(c, t) && AllOwn(0, reply, own) && |t.requests| == 1 && t.requests[0].pc.Keyed?
    requires |s.requests| == 1 && s.requests[0].reply.None? && reply.Judged? && |reply.signals.userSig| == 4
    ensures t.requests[0].reply == Some(reply) && t.requests[0].pc.key == DecimalNat(reply.signals.userSig[3])
  {
    hide Run, AnchorInv, TxInv, HistoryInv, Own, RequestInv;
    RepliesOwn(c, s, own, reply);
    assert RequestInv(c, t.requests[0]);
    OwnKey(c, t.requests[0]);
  }

  lemma {:induction false} RepliesOwn(c: Config, s: State, own: seq<Step>, reply: Reply)
    requires Run(c, s, own).Some? && AllOwn(0, reply, own) && |s.requests| == 1
    requires s.requests[0].reply.None? || s.requests[0].reply == Some(reply)
    ensures var t := Run(c, s, own).value; |t.requests| == 1 && (t.requests[0].reply.None? || t.requests[0].reply == Some(reply))
    decreases |own|
  {
    if own != [] {
      ReplyMoves(c, s, own[0], reply);
      hide Apply, Enabled;
      RepliesOwn(c, Apply(c, s, own[0]), own[1..], reply);
    }
  }

  lemma ReplyMoves(c: Config, s: State, st: Step, reply: Reply)
    requires Enabled(c, s, st) && Own(0, reply, st) && |s.requests| == 1
    ensures var t := Apply(c, s, st);
            |t.requests| == 1 && t.requests[0].reply == if st.Ffi? then Some(reply) else s.requests[0].reply
  {
    OnlyThisMoves(c, s, st);
    if CarriesEvidence(st) {
      EvidenceCarried(c, s, st);
      hide Apply;
    } else {
      hide AfterFfi, AfterRoot, AfterCert, AfterApp;
    }
  }

  /** Without the early check nobody is turned away by it. */
  lemma {:induction false} NeverTurnedAway(c: Config, start: int, steps: seq<Step>)
    requires !c.earlyCheck && After(c, start, steps).Some?
    ensures var s := After(c, start, steps).value;
            forall r :: 0 <= r < |s.requests| ==> !s.requests[r].pc.Looked? && !EarlyEnded(s.requests[r])
    decreases |steps|
  {
    if steps != [] {
      var init, st := steps[..|steps| - 1], steps[|steps| - 1];
      NeverTurnedAway(c, start, init);
      var s := After(c, start, init).value;
      RequestsMove(c, s, st);
      if MovesRequest(st) {
        NotTurnedNow(c, s, st);
      }
      hide Apply;
    }
  }

  lemma NotTurnedNow(c: Config, s: State, st: Step)
    requires !c.earlyCheck && Enabled(c, s, st) && MovesRequest(st) && !s.requests[st.r].pc.Looked?
    ensures var t := Apply(c, s, st);
            st.r < |t.requests| && !t.requests[st.r].pc.Looked? && !EarlyEnded(t.requests[st.r])
  {
    if CarriesEvidence(st) {
      NotTurnedLater(c, s, st);
    } else {
      hide ParsePublicInputs, CheckSmtRoot, CheckIssuerModulus, NormalizeDecimal, Publish, AreFields, Links;
    }
  }

  lemma NotTurnedLater(c: Config, s: State, st: Step)
    requires !c.earlyCheck && Enabled(c, s, st) && CarriesEvidence(st) && !s.requests[st.r].pc.Looked?
    ensures var t := Apply(c, s, st);
            st.r < |t.requests| && !t.requests[st.r].pc.Looked? && !EarlyEnded(t.requests[st.r])
  {
    hide InsertVerification, ConsumeChallenge, RowFor, CheckedChallenge, EarlyRefusal;
  }

  /** After an expired answer given in a transaction, every row of a later epoch is younger than that expiry. */
  lemma LaterRowsYounger(w: State, key: string)
    requires ExpiredInv(w) && |w.requests| == 1 && ToldExpired(w.requests[0]) && |w.issued| == 2 && key in w.db.challenges
    requires w.requests[0].reply.Some? && w.requests[0].reply.value.Judged? && |w.requests[0].reply.value.signals.userSig| == 4
    requires w.requests[0].reply.value.signals.userSig[3] == w.issued[0].value != w.issued[1].value
    requires w.issued[0].epoch < w.issued[1].epoch
    ensures w.db.challenges[key].issuedAt + SECOND > w.issued[0].expiresAt
  {
    var k :| 0 <= k < |w.issued| && ExpiredThen(w.db, w.clock, w.wipes, w.requests[0], w.issued[k]);
    assert k == 0 && w.issued[1].epoch <= |w.wipes|;
  }

  lemma NotWithout(u: State, w: State, start: int, ttl: nat, v: nat, x: nat)
    requires TheOvertaken(u, start, ttl, v, x) && ttl >= SECOND && v != x && ExpiredInv(w)
    requires forall r :: 0 <= r < |w.requests| ==> !EarlyEnded(w.requests[r])
    ensures !SameToClient(u, w)
  {
    hide DecimalNat, ExpiredInv;
    if SameToClient(u, w) {
      LaterRowsYounger(w, DecimalNat(x));
    }
  }

  /**
   An overtaken answer never carries over: no run without the early check with the same
   issues and wipes tells that request the same, provided its challenge was issued once.
   */
  lemma OvertakenNeverCarriesOver(c: Config, start: int, steps: seq<Step>, others: seq<Step>, r: nat)
    requires After(c, start, steps).Some? && After(Without(c), start, others).Some?
    requires var s, w := After(c, start, steps).value, After(Without(c), start, others).value;
             && r < |s.requests| && r < |w.requests| && Overtaken(s.requests[r])
             && w.issued == s.issued && w.wipes == s.wipes && w.requests[r].reply == s.requests[r].reply
             && IssuedOnce(s.issued, s.requests[r])
    ensures AnswerTo(After(Without(c), start, others).value.requests[r]) != AnswerTo(After(c, start, steps).value.requests[r])
  {
    LedgerInEveryRun(c, start, steps);
    ExpiredInEveryRun(Without(c), start, others);
    NeverTurnedAway(Without(c), start, others);
    var s, w := After(c, start, steps).value, After(Without(c), start, others).value;
    hide After, IssuesPresent, LooksKnown;
    OvertakenIsExpired(c, start, steps, r);
    LostIsNotExpired(s, w, r);
  }

  predicate IssuedOnce(issued: seq<Issued>, q: Request) {
    HasSignals(q) ==>
      forall j, k :: 0 <= j < k < |issued| && issued[j].value == q.reply.value.signals.userSig[3] ==> issued[k].value != issued[j].value
  }

  lemma LostIsNotExpired(s: State, w: State, r: nat)
    requires r < |s.requests| && r < |w.requests| && Overtaken(s.requests[r]) && LossesKnown(s.requests, s.issued, s.wipes)
    requires w.issued == s.issued && w.wipes == s.wipes && w.requests[r].reply == s.requests[r].reply
    requires IssuedOnce(s.issued, s.requests[r]) && ExpiredInv(w)
    ensures !ToldExpired(w.requests[r])
  {
    var j :| 0 <= j < |s.issued| && LostIssue(s.wipes, s.requests[r], s.issued[j]);
    forall k | 0 <= k < |w.issued| ensures !ExpiredThen(w.db, w.clock, w.wipes, w.requests[r], w.issued[k]) {
      LostOrExpired(w, s.requests[r], w.requests[r], s.issued[j], w.issued[k]);
    }
  }

  lemma LostOrExpired(w: State, q: Request, p: Request, lost: Issued, i: Issued)
    requires LostIssue(w.wipes, q, lost) && p.reply == q.reply && (i == lost || i.value != lost.value)
    ensures !ExpiredThen(w.db, w.clock, w.wipes, p, i)
  {
  }

  /** An overtaken request is always told that its challenge expired. */
  lemma {:induction false} OvertakenIsExpired(c: Config, start: int, steps: seq<Step>, r: nat)
    requires After(c, start, steps).Some? && r < |After(c, start, steps).value.requests| && Overtaken(After(c, start, steps).value.requests[r])
    ensures AnswerTo(After(c, start, steps).value.requests[r]) == Some(Declined(ChallengeExpired))
    decreases |steps|
  {
    if steps != [] {
      var init, st := steps[..|steps| - 1], steps[|steps| - 1];
      var s := After(c, start, init).value;
      EveryRun(c, start, init);
      LedgerInEveryRun(c, start, init);
      RequestsMove(c, s, st);
      if MovesRequest(st) && st.r == r {
        OvertakenNow(c, s, st);
        assert RequestInv(c, s.requests[r]);
        hide Inv, LedgerInv, Apply;
        ChecksOut(c, s, st, r);
      } else {
        hide Inv, LedgerInv, Apply;
        OvertakenIsExpired(c, start, init, r);
      }
    }
  }

  lemma ChecksOut(c: Config, s: State, st: Step, r: nat)
    requires r < |s.requests| && RequestInv(c, s.requests[r]) && LooksKnown(s.requests, s.issued)
    requires Enabled(c, s, st) && st.CheckEarly? && st.r == r
    requires r < |Apply(c, s, st).requests| && Overtaken(Apply(c, s, st).requests[r])
    ensures AnswerTo(Apply(c, s, st).requests[r]) == Some(Declined(ChallengeExpired))
  {
    hide Apply, RequestInv, LooksKnown, Enabled;
    CheckTurnsAway(c, s, r);
  }
}
