/**
 verifier/verifier.go, rust/src/lib.rs and the semaphore of linkverify.go: the FFI
 leaves its results in the calling OS thread's cells, and goroutines read them back.
 */
module Ffi {
  import opened Wrappers
  import opened GoText
  import opened PublicInputs
  import opened LinkVerify

  const MAX_CONCURRENT: nat := 10

  /** The two thread-local cells of the Rust library. */
  datatype Cells = Cells(signals: PublicSignals, error: string)

  const FRESH_CELLS: Cells := Cells(PublicSignals([], []), "")

  /** What a call of zk_link_verify meets: a bad argument, a panic, or two verified circuits' values. */
  datatype Work = BadBase(msg: string) | Panics(msg: string) | Values(f: FieldSignals)

  /** `set_last_error`: a C string cannot hold a NUL. */
  function Kept(msg: string): string {
    if '\0' in msg then "unknown error" else msg
  }

  /** The message of the panic on empty public values. */
  function EmptyValues(f: FieldSignals): string {
    "public values empty: cert_chain=" + DecimalNat(|f.certChain|) + ", user_sig=" + DecimalNat(|f.userSig|)
  }

  /** `zk_link_verify`: the cells it leaves and the code it returns. */
  function ZkLinkVerify(cells: Cells, work: Work): (Cells, int) {
    match work
    case BadBase(msg) => (cells.(error := Kept(msg)), -1)
    case Panics(msg) => (cells.(error := Kept(msg)), -3)
    case Values(f) =>
      if f.certChain == [] || f.userSig == [] then (cells.(error := Kept(EmptyValues(f))), -3)
      else (cells.(signals := Publish(f)), if f.certChain[0] == f.userSig[0] then 1 else 0)
  }

  /** What LinkVerify returns: signals with any verdict, an error without signals otherwise. */
  datatype Returned = Verdict(linked: bool, signals: PublicSignals) | CallFailed(error: string)

  function LastError(cells: Cells): string {
    if cells.error == "" then "unknown error" else cells.error
  }

  /** Reading the cells after a call that returned `ret`. */
  function ReadBack(ret: int, cells: Cells): Returned {
    if ret > 0 then Verdict(true, cells.signals)
    else if ret == 0 then Verdict(false, cells.signals)
    else CallFailed(LastError(cells))
  }

  /** What went wrong in a call, if anything did. */
  function Complaint(work: Work): Option<string> {
    match work
    case BadBase(msg) => Some(msg)
    case Panics(msg) => Some(msg)
    case Values(f) => if f.certChain == [] || f.userSig == [] then Some(EmptyValues(f)) else None
  }

  /** A message without NUL and not empty reaches the caller as it is; any other is replaced. */
  predicate Says(error: string, msg: string) {
    if msg == "" || '\0' in msg then error == "unknown error" else error == msg
  }

  /** The answer that belongs to this work, whatever any thread's cells held before. */
  ghost predicate BelongsTo(work: Work, returned: Returned) {
    match returned
    case Verdict(linked, signals) =>
      work.Values? && signals == Publish(work.f) && Links(work.f, linked)
    case CallFailed(error) => Complaint(work).Some? && Says(error, Complaint(work).value)
  }

  // --------------------------------------------------------- goroutines, threads

  datatype Pc =
    | Waiting
    | Staging
    | OnThread(t: nat)
    | Called(t: nat, work: Work, ret: int)
    | HasRead(t: nat, work: Work, returned: Returned)
    | Leaving(result: Option<(Work, Returned)>)
    | Finished(result: Option<(Work, Returned)>)

  datatype State = State(cells: map<nat, Cells>, gs: seq<Pc>, semaphore: nat)

  datatype Step =
    | Spawn
    | Acquire(g: nat)
    | StageFails(g: nat)
    | LockThread(g: nat, t: nat)
    | Call(g: nat, t: nat, work: Work)
    | Read(g: nat, t: nat)
    | UnlockThread(g: nat)
    | Release(g: nat)

  function CellsOf(s: State, t: nat): Cells {
    if t in s.cells then s.cells[t] else FRESH_CELLS
  }

  function BoundTo(pc: Pc): Option<nat> {
    match pc
    case OnThread(t) => Some(t)
    case Called(t, _, _) => Some(t)
    case HasRead(t, _, _) => Some(t)
    case _ => None
  }

  /** With `locks` a goroutine owns its thread from lock to unlock; without, it may be moved before any call. */
  predicate Enabled(locks: bool, s: State, st: Step) {
    match st
    case Spawn => true
    case Acquire(g) => g < |s.gs| && s.gs[g].Waiting? && s.semaphore < MAX_CONCURRENT
    case StageFails(g) => g < |s.gs| && s.gs[g].Staging?
    case LockThread(g, t) =>
      g < |s.gs| && s.gs[g].Staging?
      && (locks ==> forall o :: 0 <= o < |s.gs| ==> BoundTo(s.gs[o]) != Some(t))
    case Call(g, t, _) => g < |s.gs| && s.gs[g].OnThread? && (locks ==> t == s.gs[g].t)
    case Read(g, t) => g < |s.gs| && s.gs[g].Called? && (locks ==> t == s.gs[g].t)
    case UnlockThread(g) => g < |s.gs| && s.gs[g].HasRead?
    case Release(g) => g < |s.gs| && s.gs[g].Leaving? && s.semaphore > 0
  }

  function Apply(s: State, st: Step): State
    requires !st.Spawn? ==> st.g < |s.gs|
    requires st.Read? ==> s.gs[st.g].Called?
    requires st.UnlockThread? ==> s.gs[st.g].HasRead?
    requires st.Release? ==> s.gs[st.g].Leaving? && s.semaphore > 0
  {
    match st
    case Spawn => s.(gs := s.gs + [Waiting])
    case Acquire(g) => s.(gs := s.gs[g := Staging], semaphore := s.semaphore + 1)
    case StageFails(g) => s.(gs := s.gs[g := Leaving(None)])
    case LockThread(g, t) => s.(gs := s.gs[g := OnThread(t)])
    case Call(g, t, work) =>
      var (cells, ret) := ZkLinkVerify(CellsOf(s, t), work);
      s.(cells := s.cells[t := cells], gs := s.gs[g := Called(t, work, ret)])
    case Read(g, t) =>
      s.(gs := s.gs[g := HasRead(s.gs[g].t, s.gs[g].work, ReadBack(s.gs[g].ret, CellsOf(s, t)))])
    case UnlockThread(g) => s.(gs := s.gs[g := Leaving(Some((s.gs[g].work, s.gs[g].returned)))])
    case Release(g) => s.(gs := s.gs[g := Finished(s.gs[g].result)], semaphore := s.semaphore - 1)
  }

  const INITIAL: State := State(map[], [], 0)

  function After(locks: bool, steps: seq<Step>): Option<State>
    decreases |steps|
  {
    if steps == [] then Some(INITIAL)
    else
      match After(locks, steps[..|steps| - 1])
      case None => None
      case Some(s) => if Enabled(locks, s, steps[|steps| - 1]) then Some(Apply(s, steps[|steps| - 1])) else None
  }

  predicate InFlight(pc: Pc) {
    !pc.Waiting? && !pc.Finished?
  }

  function Running(s: State): set<nat> {
    set g | 0 <= g < |s.gs| && InFlight(s.gs[g])
  }

  /** A called goroutine's thread still holds its own results; what was read belongs to its own work. */
  ghost predicate PairInv(s: State, pc: Pc) {
    match pc
    case Called(t, work, ret) => BelongsTo(work, ReadBack(ret, CellsOf(s, t)))
    case HasRead(_, work, returned) => BelongsTo(work, returned)
    case Leaving(result) => result.Some? ==> BelongsTo(result.value.0, result.value.1)
    case Finished(result) => result.Some? ==> BelongsTo(result.value.0, result.value.1)
    case _ => true
  }

  ghost predicate Inv(s: State) {
    && (forall g :: 0 <= g < |s.gs| ==> PairInv(s, s.gs[g]))
    && (forall g, h :: 0 <= g < h < |s.gs| && BoundTo(s.gs[g]).Some? ==> BoundTo(s.gs[g]) != BoundTo(s.gs[h]))
    && s.semaphore == |Running(s)| <= MAX_CONCURRENT
  }

  /** A call's results belong to it no matter what the cells held. */
  lemma CallBelongs(cells: Cells, work: Work)
    ensures var (after, ret) := ZkLinkVerify(cells, work); BelongsTo(work, ReadBack(ret, after))
    ensures ZkLinkVerify(cells, work).1 < 0 <==> Complaint(work).Some?
    ensures var ret := ZkLinkVerify(cells, work).1;
            && (ret == -1 <==> work.BadBase?) && (ret < 0 && !work.BadBase? ==> ret == -3) && ret <= 1
            && (ret == 1 <==> work.Values? && Links(work.f, true))
  {
  }

  lemma PairsKept(s: State, st: Step)
    requires Inv(s) && Enabled(true, s, st)
    ensures var t := Apply(s, st); forall g :: 0 <= g < |t.gs| ==> PairInv(t, t.gs[g])
  {
    hide ZkLinkVerify, ReadBack, BelongsTo, Running, Complaint;
    if st.Call? {
      CallBelongs(CellsOf(s, st.t), st.work);
      assert BoundTo(s.gs[st.g]) == Some(st.t);
    } else if !st.Spawn? {
      assert PairInv(s, s.gs[st.g]);
    }
  }

  /** Moving one goroutine changes the count by whether it is in flight before and after. */
  lemma MoveCounted(s: State, t: State, g: nat, pc: Pc)
    requires g < |s.gs| && t.gs == s.gs[g := pc]
    ensures |Running(t)| == |Running(s)| + (if InFlight(pc) then 1 else 0) - (if InFlight(s.gs[g]) then 1 else 0)
  {
    hide InFlight;
    if InFlight(pc) == InFlight(s.gs[g]) {
      assert Running(t) == Running(s);
    } else if InFlight(pc) {
      assert Running(t) == Running(s) + {g};
    } else {
      assert Running(t) == Running(s) - {g};
    }
  }

  lemma ArrivalNotCounted(s: State, t: State)
    requires t.gs == s.gs + [Waiting]
    ensures Running(t) == Running(s)
  {
  }

  lemma SemaphoreKept(s: State, st: Step)
    requires s.semaphore == |Running(s)| <= MAX_CONCURRENT && Enabled(true, s, st)
    ensures var t := Apply(s, st); t.semaphore == |Running(t)| <= MAX_CONCURRENT
  {
    hide Running, ZkLinkVerify, ReadBack;
    var t := Apply(s, st);
    if st.Spawn? {
      ArrivalNotCounted(s, t);
    } else {
      MoveCounted(s, t, st.g, t.gs[st.g]);
    }
  }

  lemma StepKeepsInv(s: State, st: Step)
    requires Inv(s) && Enabled(true, s, st)
    ensures Inv(Apply(s, st))
  {
    PairsKept(s, st);
    SemaphoreKept(s, st);
    hide PairInv, ZkLinkVerify, ReadBack, Running;
  }

  lemma {:induction false} EveryRun(steps: seq<Step>)
    requires After(true, steps).Some?
    ensures Inv(After(true, steps).value)
    decreases |steps|
  {
    if steps == [] {
      assert Running(INITIAL) == {};
    } else {
      EveryRun(steps[..|steps| - 1]);
      StepKeepsInv(After(true, steps[..|steps| - 1]).value, steps[|steps| - 1]);
    }
  }

  // ------------------------------------------------- what the schedule says

  /** g is named by this step. */
  predicate Concerns(st: Step, g: nat) {
    !st.Spawn? && st.g == g
  }

  predicate Happened(steps: seq<Step>, st: Step) {
    exists i :: 0 <= i < |steps| && steps[i] == st
  }

  /** g's own call in the schedule had this work, and it had no other. */
  ghost predicate CalledWith(steps: seq<Step>, g: nat, work: Work) {
    && (exists t: nat :: Happened(steps, Call(g, t, work)))
    && (forall i :: 0 <= i < |steps| && steps[i].Call? && steps[i].g == g ==> steps[i].work == work)
  }

  ghost predicate NeverCalled(steps: seq<Step>, g: nat) {
    forall i :: 0 <= i < |steps| && steps[i].Call? ==> steps[i].g != g
  }

  /** A result is missing exactly if staging failed; otherwise it is the result of g's own call. */
  ghost predicate ResultOf(steps: seq<Step>, g: nat, result: Option<(Work, Returned)>) {
    && (result.None? <==> Happened(steps, StageFails(g)))
    && (result.Some? ==> CalledWith(steps, g, result.value.0) && BelongsTo(result.value.0, result.value.1))
  }

  /** What the schedule has done to g so far. */
  ghost predicate Scheduled(steps: seq<Step>, g: nat, pc: Pc) {
    match pc
    case Called(_, work, _) => CalledWith(steps, g, work) && !Happened(steps, StageFails(g))
    case HasRead(_, work, returned) => CalledWith(steps, g, work) && !Happened(steps, StageFails(g)) && BelongsTo(work, returned)
    case Leaving(result) => ResultOf(steps, g, result)
    case Finished(result) => ResultOf(steps, g, result)
    case _ => NeverCalled(steps, g) && !Happened(steps, StageFails(g))
  }

  ghost predicate AllScheduled(steps: seq<Step>, s: State) {
    && (forall g: nat :: g < |s.gs| ==> Scheduled(steps, g, s.gs[g]))
    && (forall i :: 0 <= i < |steps| && !steps[i].Spawn? ==> steps[i].g < |s.gs|)
  }

  /** A step changes nothing in the schedule of the goroutines it does not concern. */
  lemma OthersScheduled(steps: seq<Step>, st: Step, g: nat, pc: Pc)
    requires Scheduled(steps, g, pc) && !Concerns(st, g)
    ensures Scheduled(steps + [st], g, pc)
  {
    hide BelongsTo;
    var more := steps + [st];
    assert Happened(more, StageFails(g)) <==> Happened(steps, StageFails(g)) by {
      if Happened(steps, StageFails(g)) {
        var i :| 0 <= i < |steps| && steps[i] == StageFails(g);
        assert more[i] == StageFails(g);
      }
    }
    forall work | CalledWith(steps, g, work) ensures CalledWith(more, g, work) {
      CallStays(steps, st, g, work);
    }
  }

  lemma CallStays(steps: seq<Step>, st: Step, g: nat, work: Work)
    requires CalledWith(steps, g, work) && !(st.Call? && st.g == g)
    ensures CalledWith(steps + [st], g, work)
  {
    var t: nat :| Happened(steps, Call(g, t, work));
    var i :| 0 <= i < |steps| && steps[i] == Call(g, t, work);
    assert (steps + [st])[i] == Call(g, t, work);
    assert Happened(steps + [st], Call(g, t, work));
  }

  /** A step that is neither a call nor a staging failure adds neither. */
  lemma NeitherAdded(steps: seq<Step>, st: Step, g: nat)
    requires !st.Call? && !st.StageFails?
    ensures NeverCalled(steps, g) ==> NeverCalled(steps + [st], g)
    ensures Happened(steps + [st], StageFails(g)) <==> Happened(steps, StageFails(g))
    ensures forall work :: CalledWith(steps, g, work) ==> CalledWith(steps + [st], g, work)
  {
    if Happened(steps, StageFails(g)) {
      var i :| 0 <= i < |steps| && steps[i] == StageFails(g);
      assert (steps + [st])[i] == StageFails(g);
    }
    forall work | CalledWith(steps, g, work) ensures CalledWith(steps + [st], g, work) {
      CallStays(steps, st, g, work);
    }
  }

  lemma CallScheduled(steps: seq<Step>, g: nat, t: nat, work: Work)
    requires NeverCalled(steps, g) && !Happened(steps, StageFails(g))
    ensures CalledWith(steps + [Call(g, t, work)], g, work) && !Happened(steps + [Call(g, t, work)], StageFails(g))
  {
    assert (steps + [Call(g, t, work)])[|steps|] == Call(g, t, work);
    assert Happened(steps + [Call(g, t, work)], Call(g, t, work));
  }

  lemma OwnScheduled(steps: seq<Step>, s: State, st: Step)
    requires Inv(s) && AllScheduled(steps, s) && Enabled(true, s, st) && !st.Spawn?
    ensures Scheduled(steps + [st], st.g, Apply(s, st).gs[st.g])
  {
    assert Scheduled(steps, st.g, s.gs[st.g]);
    assert PairInv(s, s.gs[st.g]);
    hide ZkLinkVerify, ReadBack, BelongsTo, CalledWith, NeverCalled, Happened, Running;
    if st.Call? {
      CallScheduled(steps, st.g, st.t, st.work);
    } else if st.StageFails? {
      FailureScheduled(steps, st.g);
    } else {
      NeitherAdded(steps, st, st.g);
    }
  }

  lemma FailureScheduled(steps: seq<Step>, g: nat)
    ensures Happened(steps + [StageFails(g)], StageFails(g))
  {
    assert (steps + [StageFails(g)])[|steps|] == StageFails(g);
  }

  lemma NewcomerScheduled(steps: seq<Step>, s: State)
    requires AllScheduled(steps, s)
    ensures Scheduled(steps + [Spawn], |s.gs|, Waiting)
  {
  }

  lemma ScheduleKept(steps: seq<Step>, s: State, st: Step)
    requires Inv(s) && AllScheduled(steps, s) && Enabled(true, s, st)
    ensures AllScheduled(steps + [st], Apply(s, st))
  {
    hide Scheduled, ZkLinkVerify, ReadBack, Running, PairInv;
    var t := Apply(s, st);
    if st.Spawn? {
      NewcomerScheduled(steps, s);
    } else {
      OwnScheduled(steps, s, st);
    }
    forall g: nat | g < |t.gs| ensures Scheduled(steps + [st], g, t.gs[g]) {
      if g < |s.gs| && !Concerns(st, g) {
        OthersScheduled(steps, st, g, s.gs[g]);
      }
    }
  }

  lemma {:induction false} EverySchedule(steps: seq<Step>)
    requires After(true, steps).Some?
    ensures AllScheduled(steps, After(true, steps).value)
    decreases |steps|
  {
    if steps != [] {
      var init, st := steps[..|steps| - 1], steps[|steps| - 1];
      EverySchedule(init);
      EveryRun(init);
      ScheduleKept(init, After(true, init).value, st);
      assert init + [st] == steps;
      hide Apply, AllScheduled, Inv;
    }
  }

  function Acquired(steps: seq<Step>): int {
    if steps == [] then 0
    else
      var last := steps[|steps| - 1];
      Acquired(steps[..|steps| - 1]) + (if last.Acquire? then 1 else if last.Release? then -1 else 0)
  }

  lemma {:induction false} SemaphoreCounts(locks: bool, steps: seq<Step>)
    requires After(locks, steps).Some?
    ensures After(locks, steps).value.semaphore == Acquired(steps)
    decreases |steps|
  {
    if steps != [] {
      SemaphoreCounts(locks, steps[..|steps| - 1]);
      hide ZkLinkVerify, ReadBack;
    }
  }

  /**
   Over every schedule: a finished request has no answer exactly if its staging failed;
   otherwise it has the verdict and signals, or the error, of its own one call.  The
   semaphore is the acquisitions not yet released, the requests in flight, at most ten.
   */
  lemma PairingAndBound(steps: seq<Step>, g: nat)
    requires After(true, steps).Some? && g < |After(true, steps).value.gs|
    ensures var s := After(true, steps).value;
            && (s.gs[g].Finished? ==> ResultOf(steps, g, s.gs[g].result))
            && s.semaphore == |Running(s)| == Acquired(steps) <= MAX_CONCURRENT
  {
    EveryRun(steps);
    EverySchedule(steps);
    SemaphoreCounts(true, steps);
    assert Scheduled(steps, g, After(true, steps).value.gs[g]);
    hide After, Running, ResultOf, Acquired;
  }

  // -------------------------------------------------------- requests get through

  /** Some thread is free. */
  function FreeThread(gs: seq<Pc>): (t: nat)
    ensures forall o :: 0 <= o < |gs| && BoundTo(gs[o]).Some? ==> BoundTo(gs[o]).value < t
  {
    if gs == [] then 0
    else
      var t, b := FreeThread(gs[..|gs| - 1]), BoundTo(gs[|gs| - 1]);
      if b.Some? && b.value >= t then b.value + 1 else t
  }

  lemma AfterOne(locks: bool, steps: seq<Step>, s: State, st: Step)
    requires After(locks, steps) == Some(s) && Enabled(locks, s, st)
    ensures After(locks, steps + [st]) == Some(Apply(s, st))
  {
    assert (steps + [st])[..|steps|] == steps;
  }

  lemma LastMoves(gs: seq<Pc>)
    ensures forall p, q :: (gs + [p])[|gs| := q] == gs + [q]
  {
  }

  /** While fewer than ten requests are in flight another one can go all the way and gets its own answer. */
  lemma AnotherGetsThrough(steps: seq<Step>, work: Work) returns (more: seq<Step>)
    requires After(true, steps).Some? && After(true, steps).value.semaphore < MAX_CONCURRENT
    ensures After(true, steps + more).Some?
    ensures var s, t := After(true, steps).value, After(true, steps + more).value;
            && t.semaphore == s.semaphore && |t.gs| == |s.gs| + 1 && t.gs[..|s.gs|] == s.gs
            && t.gs[|s.gs|].Finished? && t.gs[|s.gs|].result.Some? && t.gs[|s.gs|].result.value.0 == work
            && BelongsTo(work, t.gs[|s.gs|].result.value.1)
  {
    hide After, ZkLinkVerify, ReadBack, BelongsTo;
    var s := After(true, steps).value;
    var g, t := |s.gs|, FreeThread(s.gs);
    LastMoves(s.gs);
    var s1 := s.(gs := s.gs + [Waiting]);
    AfterOne(true, steps, s, Spawn);
    var s2 := s.(gs := s.gs + [Staging], semaphore := s.semaphore + 1);
    AfterOne(true, steps + [Spawn], s1, Acquire(g));
    var s3 := s2.(gs := s.gs + [OnThread(t)]);
    AfterOne(true, steps + [Spawn] + [Acquire(g)], s2, LockThread(g, t));
    var most := steps + [Spawn] + [Acquire(g)] + [LockThread(g, t)];
    var called := ZkLinkVerify(CellsOf(s, t), work);
    CallBelongs(CellsOf(s, t), work);
    var s4 := s3.(cells := s.cells[t := called.0], gs := s.gs + [Called(t, work, called.1)]);
    AfterOne(true, most, s3, Call(g, t, work));
    var s5 := s4.(gs := s.gs + [HasRead(t, work, ReadBack(called.1, called.0))]);
    AfterOne(true, most + [Call(g, t, work)], s4, Read(g, t));
    var s6 := s4.(gs := s.gs + [Leaving(Some((work, ReadBack(called.1, called.0))))]);
    AfterOne(true, most + [Call(g, t, work)] + [Read(g, t)], s5, UnlockThread(g));
    most := most + [Call(g, t, work)] + [Read(g, t)] + [UnlockThread(g)];
    AfterOne(true, most, s6, Release(g));
    more := [Spawn, Acquire(g), LockThread(g, t), Call(g, t, work), Read(g, t), UnlockThread(g), Release(g)];
    assert most + [Release(g)] == steps + more;
  }

  /** A run, state by state. */
  lemma {:induction false} Replayed(states: seq<State>, steps: seq<Step>)
    requires |states| == |steps| + 1 && states[0] == INITIAL
    requires forall i :: 0 <= i < |steps| ==> Enabled(false, states[i], steps[i]) && states[i + 1] == Apply(states[i], steps[i])
    ensures After(false, steps) == Some(states[|steps|])
    decreases |steps|
  {
    hide Enabled, Apply;
    if steps != [] {
      var n := |steps| - 1;
      assert states[..n + 1][n] == states[n];
      Replayed(states[..n + 1], steps[..n]);
    }
  }

  /** Without the lock one request can be handed another's signals. */
  lemma WithoutLockPairingFails(a: FieldSignals, b: FieldSignals) returns (steps: seq<Step>)
    requires a.certChain != [] && a.userSig != [] && b.certChain != [] && b.userSig != []
    requires Publish(a) != Publish(b)
    ensures After(false, steps).Some?
    ensures var gs := After(false, steps).value.gs;
            |gs| == 2 && gs[0].HasRead? && gs[0].work == Values(a) && !BelongsTo(gs[0].work, gs[0].returned)
  {
    hide Publish, After;
    steps := [Spawn, Spawn, Acquire(0), Acquire(1), LockThread(0, 7), LockThread(1, 7),
              Call(0, 7, Values(a)), Call(1, 7, Values(b)), Read(0, 7)];
    var s1 := Apply(INITIAL, steps[0]);
    var s2 := Apply(s1, steps[1]);
    var s3 := Apply(s2, steps[2]);
    var s4 := Apply(s3, steps[3]);
    var s5 := Apply(s4, steps[4]);
    var s6 := Apply(s5, steps[5]);
    var s7 := Apply(s6, steps[6]);
    var s8 := Apply(s7, steps[7]);
    var s9 := Apply(s8, steps[8]);
    Replayed([INITIAL, s1, s2, s3, s4, s5, s6, s7, s8, s9], steps);
  }
}
