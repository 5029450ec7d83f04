/**
 store/sqlite.go: the challenges and verifications tables, their constraints, and
 the operations that issue, look up, redeem and wipe.  Times are nanoseconds.
 */
module Store {
  import opened Wrappers
  import opened Numerals
  import opened GoText
  import opened Clock

  const CHALLENGE_BITS: nat := 254

  type Seed = s: seq<Byte> | |s| == ROOT_BYTES witness seq(ROOT_BYTES, _ => 0)

  datatype ChallengeRow = ChallengeRow(issuedAt: int, expiresAt: int, consumedAt: Option<int>)

  datatype VerificationRow = VerificationRow(
    nullifier: string, proof: Option<string>, proofType: string, challenge: string, verifiedAt: int)

  datatype Database = Database(challenges: map<string, ChallengeRow>, verifications: seq<VerificationRow>)

  datatype StoreError =
    | ChallengeNotFound | ChallengeExpired | ChallengeConsumed | DuplicateNullifier | Io(at: Operation)

  /** The calls that can fail on their own: drawing random bytes, and those to the database. */
  datatype Operation = Random | Begin | Query | Insert | Update | Delete | Commit

  datatype IssuedChallenge = IssuedChallenge(challenge: string, expiresAt: int)

  // ------------------------------------------------------------ SQL statements

  datatype SqlError = UniqueViolation | ForeignKeyViolation

  function InsertChallenge(db: Database, key: string, row: ChallengeRow): Result<Database, SqlError> {
    if key in db.challenges then Err(UniqueViolation)
    else Ok(db.(challenges := db.challenges[key := row]))
  }

  function InsertVerification(db: Database, row: VerificationRow): Result<Database, SqlError> {
    if HasNullifier(db, row.nullifier) then Err(UniqueViolation)
    else if row.challenge !in db.challenges then Err(ForeignKeyViolation)
    else Ok(db.(verifications := db.verifications + [row]))
  }

  function ConsumeChallenge(db: Database, key: string, at: int): Database {
    if key !in db.challenges then db
    else db.(challenges := db.challenges[key := db.challenges[key].(consumedAt := Some(WholeSecond(at)))])
  }

  function DeleteVerifications(db: Database): Database {
    db.(verifications := [])
  }

  function DeleteChallenges(db: Database): Result<Database, SqlError> {
    if exists i :: 0 <= i < |db.verifications| && db.verifications[i].challenge in db.challenges
    then Err(ForeignKeyViolation)
    else Ok(db.(challenges := map[]))
  }

  predicate HasNullifier(db: Database, nullifier: string) {
    exists i :: 0 <= i < |db.verifications| && db.verifications[i].nullifier == nullifier
  }

  // ------------------------------------------------------------- specification

  /** Why a redemption is refused: the first that applies, in this order. */
  function Refusal(db: Database, nullifier: string, challenge: string, now: int): Option<StoreError> {
    if challenge !in db.challenges then Some(ChallengeNotFound)
    else if now > db.challenges[challenge].expiresAt then Some(ChallengeExpired)
    else if db.challenges[challenge].consumedAt.Some? then Some(ChallengeConsumed)
    else if HasNullifier(db, nullifier) then Some(DuplicateNullifier)
    else None
  }

  /** The database after a redemption: one more row, its challenge consumed, nothing else. */
  function Redeemed(db: Database, row: VerificationRow, at: int): Database
    requires row.challenge in db.challenges
  {
    var was := db.challenges[row.challenge];
    Database(db.challenges[row.challenge := was.(consumedAt := Some(WholeSecond(at)))],
             db.verifications + [row])
  }

  function RecordedType(proofType: string): string {
    if proofType == "" then "tbs" else proofType
  }

  /** The value issued for 32 random bytes, read big-endian. */
  function IssuedValue(random: Seed): nat {
    PowPositive(2, CHALLENGE_BITS);
    Value(random, 256) % Pow(2, CHALLENGE_BITS)
  }

  class SQLiteStore {
    var challenges: map<string, ChallengeRow>
    var verifications: seq<VerificationRow>
    const ttl: nat

    constructor (ttl: nat)
      ensures Db() == Database(map[], []) && this.ttl == ttl
    {
      challenges, verifications, this.ttl := map[], [], ttl;
    }

    function Db(): Database
      reads this
    {
      Database(challenges, verifications)
    }

    method Install(db: Database)
      modifies this
      ensures Db() == db
    {
      challenges, verifications := db.challenges, db.verifications;
    }

    /** The caller's clock reading sets the expiry; the table stamps the row with its own at insertion. */
    method CreateChallenge(random: Seed, now: int, insertAt: int, faults: set<Operation>)
      returns (r: Result<IssuedChallenge, StoreError>)
      modifies this
      ensures r.Ok? <==> Random !in faults && Insert !in faults && DecimalNat(IssuedValue(random)) !in old(challenges)
      ensures r.Err? ==> r.error == Io(if Random in faults then Random else Insert)
      ensures r.Ok? ==> r.value == IssuedChallenge(DecimalNat(IssuedValue(random)), now + ttl)
      ensures r.Ok? ==> challenges == old(challenges)[r.value.challenge := ChallengeRow(WholeSecond(insertAt), WholeSecond(now + ttl), None)]
      ensures r.Err? ==> challenges == old(challenges)
      ensures verifications == old(verifications)
    {
      if Random in faults {
        return Err(Io(Random));
      }
      var seed := new Byte[ROOT_BYTES](i requires 0 <= i < ROOT_BYTES => random[i]);
      MaskIsMod(seed[0], 6);
      assert Pow(2, 6) == 64;
      seed[0] := And(seed[0], 0x3f);
      assert seed[..] == random[0 := random[0] % 64];
      MaskedSeed(random);
      var challenge := DecimalNat(Value(seed[..], 256));
      var expiresAt := now + ttl;
      var inserted := InsertChallenge(Db(), challenge, ChallengeRow(WholeSecond(insertAt), WholeSecond(expiresAt), None));
      if Insert in faults || inserted.Err? {
        return Err(Io(Insert));
      }
      Install(inserted.value);
      return Ok(IssuedChallenge(challenge, expiresAt));
    }

    method GetChallenge(challenge: string, faults: set<Operation>) returns (r: Result<Option<IssuedChallenge>, StoreError>)
      ensures r.Err? <==> Query in faults
      ensures r.Ok? ==> (r.value.Some? <==> challenge in challenges)
      ensures r.Ok? && r.value.Some? ==> r.value.value == IssuedChallenge(challenge, challenges[challenge].expiresAt)
    {
      if Query in faults {
        return Err(Io(Query));
      }
      if challenge !in challenges {
        return Ok(None);
      }
      return Ok(Some(IssuedChallenge(challenge, challenges[challenge].expiresAt)));
    }

    /**
     One transaction on a working copy: whatever stops it, nothing is written; and
     what it writes is exactly the redemption.  Each statement has its own clock reading.
     */
    method VerifyAndRecord(nullifier: string, challenge: string, proof: Option<string>, proofType: string,
                           checkAt: int, insertAt: int, consumeAt: int, faults: set<Operation>)
      returns (r: Result<(), StoreError>)
      modifies this
      ensures r.Err? ==> Db() == old(Db())
      ensures r.Ok? ==> Refusal(old(Db()), nullifier, challenge, checkAt) == None
      ensures r.Ok? ==> Db() == Redeemed(old(Db()),
                                         VerificationRow(nullifier, proof, RecordedType(proofType), challenge, WholeSecond(insertAt)),
                                         consumeAt)
      ensures r.Ok? ==> |verifications| == |old(verifications)| + 1
                        && verifications[|old(verifications)|].proofType == (if proofType == "" then "tbs" else proofType)
                        && verifications[|old(verifications)|].proof == proof
                        && challenge in challenges && challenges[challenge].consumedAt == Some(WholeSecond(consumeAt))
      ensures faults == {} ==> (match Refusal(old(Db()), nullifier, challenge, checkAt)
                                case None => r.Ok?
                                case Some(e) => r == Err(e))
      ensures r.Err? && !r.error.Io? ==> Refusal(old(Db()), nullifier, challenge, checkAt) == Some(r.error)
      ensures r.Err? && r.error.Io? ==> r.error.at in faults
    {
      if Begin in faults {
        return Err(Io(Begin));
      }
      var work := Db();
      if Query in faults {
        return Err(Io(Query));
      }
      if challenge !in work.challenges {
        return Err(ChallengeNotFound);
      }
      var row := work.challenges[challenge];
      if checkAt > row.expiresAt {
        return Err(ChallengeExpired);
      }
      if row.consumedAt.Some? {
        return Err(ChallengeConsumed);
      }
      var inserted := InsertVerification(
        work, VerificationRow(nullifier, proof, RecordedType(proofType), challenge, WholeSecond(insertAt)));
      if Insert in faults {
        return Err(Io(Insert));
      }
      match inserted {
        case Err(UniqueViolation) => return Err(DuplicateNullifier);
        case Err(ForeignKeyViolation) => assert false;
        case Ok(w) => work := w;
      }
      if Update in faults {
        return Err(Io(Update));
      }
      work := ConsumeChallenge(work, challenge, consumeAt);
      if Commit in faults {
        return Err(Io(Commit));
      }
      Install(work);
      return Ok(());
    }

    /** Both tables are emptied or neither is; the foreign key never stands in the way. */
    method CleanDB(faults: set<Operation>) returns (r: Result<(nat, nat), StoreError>)
      modifies this
      ensures r.Err? ==> Db() == old(Db()) && r.error.Io? && r.error.at in faults
      ensures r.Ok? ==> Db() == Database(map[], [])
      ensures r.Ok? ==> r.value == (|old(challenges)|, |old(verifications)|)
      ensures faults == {} ==> r.Ok?
    {
      if Begin in faults {
        return Err(Io(Begin));
      }
      var work := Db();
      if Delete in faults {
        return Err(Io(Delete));
      }
      var nv := |work.verifications|;
      work := DeleteVerifications(work);
      var nc := |work.challenges|;
      match DeleteChallenges(work) {
        case Err(_) => assert false;
        case Ok(w) => work := w;
      }
      if Commit in faults {
        return Err(Io(Commit));
      }
      Install(work);
      return Ok((nc, nv));
    }
  }

  // -------------------------------------------------------------------- lemmas

  lemma SeedScale()
    ensures Pow(2, CHALLENGE_BITS) == Pow(256, 31) * 64
  {
    PowPow(2, 8, 31, 248);
    PowAdd(2, 248, 6);
    assert Pow(2, 8) == 256 && Pow(2, 6) == 64;
  }

  /** Clearing the top two bits of the seed reduces it modulo 2^254. */
  lemma MaskedSeed(random: Seed)
    ensures Value(random[0 := random[0] % 64], 256) == IssuedValue(random)
  {
    var masked: seq<nat> := random[0 := random[0] % 64];
    var m := Pow(256, 31);
    HighDigit(random, 256);
    HighDigit(masked, 256);
    assert masked[1..] == random[1..];
    ValueBound(random[1..], 256);
    SeedScale();
    DivModUnique(Value(random, 256), m, random[0], Value(random[1..], 256));
    ModSplit(Value(random, 256), m, 64);
  }

  lemma SeedRange()
    ensures Pow(256, ROOT_BYTES) == 4 * Pow(2, CHALLENGE_BITS) && Pow(2, CHALLENGE_BITS) >= 1
  {
    SeedScale();
    PowPositive(2, CHALLENGE_BITS);
    PowAdd(256, 31, 1);
    assert Pow(256, 1) == 256;
  }

  /** The 32 bytes of v with `top` in the two bits that issuing clears. */
  function SeedFor(v: nat, top: nat): Seed
    requires top < 4
  {
    var d := Fixed(v, 256, ROOT_BYTES);
    d[0 := d[0] % 64 + 64 * top]
  }

  /**
   Every 254-bit value is issued for exactly four seeds, one per setting of the two
   cleared bits: a uniform seed gives a uniform value.
   */
  lemma FourSeedsPerValue(v: nat, random: Seed)
    requires v < Pow(2, CHALLENGE_BITS)
    ensures IssuedValue(random) == v <==> random == SeedFor(v, random[0] / 64)
    ensures forall top: nat :: top < 4 ==> IssuedValue(SeedFor(v, top)) == v && SeedFor(v, top)[0] / 64 == top
  {
    hide Pow, Value, Fixed, IssuedValue;
    var d: Seed := Fixed(v, 256, ROOT_BYTES);
    assert IssuedValue(d) == v by { SeedOfItself(v); }
    MaskedSeed(d);
    forall top: nat | top < 4
      ensures IssuedValue(SeedFor(v, top)) == v && SeedFor(v, top)[0] / 64 == top
    {
      var s := SeedFor(v, top);
      MaskedSeed(s);
      assert s[0 := s[0] % 64] == d[0 := d[0] % 64];
    }
    if IssuedValue(random) == v {
      MaskedSeed(random);
      var masked: seq<nat> := random[0 := random[0] % 64];
      FixedOfValue(masked, 256);
      assert masked == d;
      assert random == d[0 := d[0] % 64 + 64 * (random[0] / 64)];
    }
  }

  lemma SeedOfItself(v: nat)
    requires v < Pow(2, CHALLENGE_BITS)
    ensures IssuedValue(Fixed(v, 256, ROOT_BYTES)) == v
  {
    SeedRange();
    FixedValue(v, 256, ROOT_BYTES);
    DivModUnique(v, Pow(256, ROOT_BYTES), 0, v);
    DivModUnique(v, Pow(2, CHALLENGE_BITS), 0, v);
  }

  /** An issued value is a field element, so the circuit can expose it unchanged. */
  lemma IssuedIsField(random: Seed)
    ensures IsField(IssuedValue(random))
  {
    SeedRange();
  }

  // ------------------------------------------------ what every operation keeps

  /** Rows and consumed challenges correspond one to one, and no nullifier occurs twice. */
  ghost predicate Consistent(db: Database) {
    && (forall i :: 0 <= i < |db.verifications| ==>
          db.verifications[i].challenge in db.challenges
          && db.challenges[db.verifications[i].challenge].consumedAt.Some?)
    && (forall c :: c in db.challenges && db.challenges[c].consumedAt.Some? ==>
          exists i :: 0 <= i < |db.verifications| && db.verifications[i].challenge == c)
    && (forall i, j :: 0 <= i < j < |db.verifications| ==>
          db.verifications[i].challenge != db.verifications[j].challenge
          && db.verifications[i].nullifier != db.verifications[j].nullifier)
  }

  function Consumed(db: Database): set<string> {
    set c | c in db.challenges && db.challenges[c].consumedAt.Some?
  }

  function Nullifiers(rows: seq<VerificationRow>): seq<string> {
    seq(|rows|, i requires 0 <= i < |rows| => rows[i].nullifier)
  }

  function RowChallenges(rows: seq<VerificationRow>): seq<string> {
    seq(|rows|, i requires 0 <= i < |rows| => rows[i].challenge)
  }

  function Elements<T(==)>(s: seq<T>): set<T> {
    set x | x in s
  }

  /** Consumed challenges, rows and nullifiers are equally many. */
  lemma ConsistentCounts(db: Database)
    requires Consistent(db)
    ensures Consumed(db) == Elements(RowChallenges(db.verifications))
    ensures |Consumed(db)| == |db.verifications| == |Elements(Nullifiers(db.verifications))|
  {
    var cs := RowChallenges(db.verifications);
    forall c | c in Consumed(db) ensures c in cs {
      var i :| 0 <= i < |db.verifications| && db.verifications[i].challenge == c;
      assert cs[i] == c;
    }
    assert forall c :: c in Elements(cs) ==> c in Consumed(db);
    DistinctSize(cs);
    DistinctSize(Nullifiers(db.verifications));
  }

  lemma {:induction false} DistinctSize<T>(s: seq<T>)
    requires forall i, j :: 0 <= i < j < |s| ==> s[i] != s[j]
    ensures |Elements(s)| == |s|
  {
    if |s| > 0 {
      var init, last := s[..|s| - 1], s[|s| - 1];
      DistinctSize(init);
      assert s == init + [last];
      assert Elements(s) == Elements(init) + {last};
    }
  }

  lemma RedeemKeepsConsistent(db: Database, row: VerificationRow, checkAt: int, at: int)
    requires Consistent(db) && Refusal(db, row.nullifier, row.challenge, checkAt) == None
    ensures Consistent(Redeemed(db, row, at))
    ensures |Consumed(Redeemed(db, row, at))| == |Consumed(db)| + 1
  {
    var after := Redeemed(db, row, at);
    forall c | c in after.challenges && after.challenges[c].consumedAt.Some?
      ensures exists i :: 0 <= i < |after.verifications| && after.verifications[i].challenge == c
    {
      if c == row.challenge {
        assert after.verifications[|db.verifications|].challenge == c;
      } else {
        var i :| 0 <= i < |db.verifications| && db.verifications[i].challenge == c;
        assert after.verifications[i].challenge == c;
      }
    }
    ConsistentCounts(db);
    ConsistentCounts(after);
  }

  lemma IssueKeepsConsistent(db: Database, key: string, row: ChallengeRow)
    requires Consistent(db) && key !in db.challenges && row.consumedAt.None?
    ensures Consistent(InsertChallenge(db, key, row).value)
  {
  }

  /** The statements of the transaction compose to the redemption; a refused insert changes nothing. */
  lemma StatementsCompose(db: Database, row: VerificationRow, checkAt: int, at: int)
    requires row.challenge in db.challenges && db.challenges[row.challenge].consumedAt.None?
    requires checkAt <= db.challenges[row.challenge].expiresAt
    ensures InsertVerification(db, row).Ok? <==> Refusal(db, row.nullifier, row.challenge, checkAt) == None
    ensures InsertVerification(db, row).Ok? ==>
              ConsumeChallenge(InsertVerification(db, row).value, row.challenge, at) == Redeemed(db, row, at)
    ensures InsertVerification(db, row).Err? ==>
              InsertVerification(db, row).error == UniqueViolation
              && Refusal(db, row.nullifier, row.challenge, checkAt) == Some(DuplicateNullifier)
  {
  }

  /** A duplicate nullifier spends nothing: the same challenge still redeems with an unused one. */
  lemma DuplicateLeavesRedeemable(db: Database, spent: string, unused: string, challenge: string, now: int, later: int)
    requires Refusal(db, spent, challenge, now) == Some(DuplicateNullifier)
    requires !HasNullifier(db, unused)
    ensures Refusal(db, unused, challenge, later) == None <==> later <= db.challenges[challenge].expiresAt
  {
  }

  /** A redeemed challenge is refused ever after: as consumed while it lives, then as expired. */
  lemma RedeemedOnce(db: Database, row: VerificationRow, at: int, nullifier: string, later: int)
    requires row.challenge in db.challenges
    ensures Refusal(Redeemed(db, row, at), nullifier, row.challenge, later) ==
            Some(if later > db.challenges[row.challenge].expiresAt then ChallengeExpired else ChallengeConsumed)
  {
  }

  /** The stored expiry is never later than the one the caller is told, and earlier by under a second. */
  lemma StoredExpiryIsEarlier(issuedAt: int, ttl: nat, now: int)
    ensures now > issuedAt + ttl ==> now > WholeSecond(issuedAt + ttl)
    ensures now <= issuedAt + ttl - SECOND ==> now <= WholeSecond(issuedAt + ttl)
  {
  }
}
