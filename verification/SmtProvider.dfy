/**
 smtroot/smtroot.go, refresh.go and the gather loops of onchain.go and github.go:
 the cache of trusted revocation roots.  Each lock section is a function on the
 cache; the provider's methods refine those functions, and the concurrent runs at
 the end interleave them.
 */
module SmtProvider {
  import opened Wrappers
  import opened GoText
  import opened Clock
  import opened SmtRoot

  type Roots = map<IssuerID, Root>

  datatype AttemptStat = AttemptStat(count: nat, lastLatencyMs: int, lastErr: string)

  datatype Cache = Cache(
    roots: Roots,
    sourceUsed: string,
    updatedAt: Option<int>,
    lastAttemptAt: Option<int>,
    lastError: string,
    consecutiveFail: nat,
    attempts: map<string, AttemptStat>)

  const EMPTY_CACHE: Cache := Cache(map[], "", None, None, "", 0, map[])

  type Answer = Result<Roots, string>

  datatype Meta = Meta(sourceUsed: string, updatedAt: Option<int>, ageSeconds: int)

  predicate Whole(roots: Roots) {
    roots.Keys == {G2, G3}
  }

  // ------------------------------------------------------------- lock sections

  /** `setRoots`: install on success, keep the roots on failure. */
  function SetRoots(c: Cache, roots: Roots, source: string, err: Option<string>, now: int): Cache {
    match err
    case Some(e) =>
      c.(lastAttemptAt := Some(now), lastError := e, consecutiveFail := c.consecutiveFail + 1)
    case None =>
      c.(roots := c.roots + roots, sourceUsed := source, updatedAt := Some(now),
         lastAttemptAt := Some(now), lastError := "", consecutiveFail := 0)
  }

  function Changed(c: Cache, roots: Roots): set<IssuerID> {
    set i | i in roots && !(i in c.roots && c.roots[i] == roots[i])
  }

  function RecordAttempt(c: Cache, source: string, latencyMs: int, err: Option<string>): Cache {
    var count := if source in c.attempts then c.attempts[source].count else 0;
    var lastErr := if err.Some? then err.value else "";
    c.(attempts := c.attempts[source := AttemptStat(count + 1, latencyMs, lastErr)])
  }

  function ErrorOf(a: Answer): Option<string> {
    if a.Err? then Some(a.error) else None
  }

  function Wrap(source: string, err: string): (e: string)
    ensures e != "" && source <= e && |e| >= |err| && e[|e| - |err|..] == err
  {
    source + ": " + err
  }

  /** `errors.Join`: no error at all when there is nothing to join. */
  function Join(errs: seq<string>): (e: Option<string>)
    ensures e.Some? <==> errs != []
    ensures errs != [] && errs[0] != "" ==> e.value != ""
  {
    if errs == [] then None
    else if |errs| == 1 then Some(errs[0])
    else Some(errs[0] + "\n" + Join(errs[1..]).value)
  }

  /** The primary first, the fallback last, neither if there is none. */
  function Sources(primary: Option<string>, fallback: Option<string>): (sources: seq<string>)
    ensures primary.Some? ==> |sources| > 0 && sources[0] == primary.value
    ensures fallback.Some? ==> |sources| > 0 && sources[|sources| - 1] == fallback.value
    ensures |sources| == (if primary.Some? then 1 else 0) + (if fallback.Some? then 1 else 0)
  {
    (if primary.Some? then [primary.value] else []) + (if fallback.Some? then [fallback.value] else [])
  }

  // ------------------------------------------------------------------ provider

  class Provider {
    const primary: Option<string>
    const fallback: Option<string>
    var roots: Roots
    var sourceUsed: string
    var updatedAt: Option<int>
    var lastAttemptAt: Option<int>
    var lastError: string
    var consecutiveFail: nat
    var attempts: map<string, AttemptStat>

    constructor (primary: Option<string>, fallback: Option<string>)
      ensures State() == EMPTY_CACHE && this.primary == primary && this.fallback == fallback
    {
      this.primary, this.fallback := primary, fallback;
      roots, sourceUsed, updatedAt, lastAttemptAt := map[], "", None, None;
      lastError, consecutiveFail, attempts := "", 0, map[];
    }

    function State(): Cache
      reads this
    {
      Cache(roots, sourceUsed, updatedAt, lastAttemptAt, lastError, consecutiveFail, attempts)
    }

    method Trusted(issuer: IssuerID) returns (r: Option<Root>)
      ensures r == if issuer in roots then Some(roots[issuer]) else None
    {
      if issuer in roots {
        return Some(roots[issuer]);
      }
      return None;
    }

    method ReadMeta(now: int) returns (m: Meta)
      ensures m.sourceUsed == sourceUsed && m.updatedAt == updatedAt
      ensures m.ageSeconds == if updatedAt.Some? then AgeSeconds(updatedAt.value, now) else 0
    {
      return Meta(sourceUsed, updatedAt, if updatedAt.Some? then AgeSeconds(updatedAt.value, now) else 0);
    }

    /** The map is walked in no particular order. */
    method InstallRoots(newRoots: Roots, source: string, err: Option<string>, now: int) returns (changed: set<IssuerID>)
      modifies this
      ensures State() == SetRoots(old(State()), newRoots, source, err, now)
      ensures changed == if err.Some? then {} else Changed(old(State()), newRoots)
      ensures forall i :: i in changed <==> err.None? && i in newRoots && (i !in old(roots) || old(roots)[i] != newRoots[i])
      ensures err.None? ==> forall i :: i in roots <==> i in newRoots || i in old(roots)
      ensures err.None? ==> forall i :: i in roots ==> roots[i] == if i in newRoots then newRoots[i] else old(roots)[i]
      ensures err.Some? ==> roots == old(roots) && sourceUsed == old(sourceUsed) && updatedAt == old(updatedAt)
    {
      changed := {};
      lastAttemptAt := Some(now);
      if err.Some? {
        lastError := err.value;
        consecutiveFail := consecutiveFail + 1;
        return;
      }
      var todo := newRoots.Keys;
      while todo != {}
        invariant todo <= newRoots.Keys
        invariant roots.Keys == old(roots).Keys + (newRoots.Keys - todo)
        invariant forall i :: i in roots ==>
                    roots[i] == if i in newRoots && i !in todo then newRoots[i] else old(roots)[i]
        invariant forall i :: i in changed <==> i in Changed(old(State()), newRoots) && i !in todo
        invariant unchanged(`sourceUsed, `updatedAt, `lastError, `consecutiveFail, `attempts)
        invariant lastAttemptAt == Some(now)
        decreases todo
      {
        var issuer :| issuer in todo;
        if !(issuer in roots && roots[issuer] == newRoots[issuer]) {
          changed := changed + {issuer};
        }
        roots := roots[issuer := newRoots[issuer]];
        todo := todo - {issuer};
      }
      assert roots == old(roots) + newRoots;
      assert changed == Changed(old(State()), newRoots);
      sourceUsed := source;
      updatedAt := Some(now);
      lastError := "";
      consecutiveFail := 0;
    }

    method NoteAttempt(source: string, latencyMs: int, err: Option<string>)
      modifies this
      ensures State() == RecordAttempt(old(State()), source, latencyMs, err)
    {
      var stat := if source in attempts then attempts[source] else AttemptStat(0, 0, "");
      stat := stat.(count := stat.count + 1, lastLatencyMs := latencyMs);
      stat := stat.(lastErr := if err.Some? then err.value else "");
      attempts := attempts[source := stat];
    }

    /** Source i would give answers[i] after latencies[i]; the sources after a success are never asked. */
    method FetchNow(answers: seq<Answer>, latencies: seq<int>, now: int) returns (err: Option<string>)
      requires |answers| == |latencies| == |Sources(primary, fallback)|
      modifies this
      ensures answers == [] ==> err.Some? && State() == old(State())
      ensures answers != [] ==>
                (State(), err) == Fetched(old(State()), Sources(primary, fallback), answers, latencies, now, [])
    {
      var sources := Sources(primary, fallback);
      if |sources| == 0 {
        return Some("smtroot: provider has no source configured");
      }
      var errs: seq<string> := [];
      for k := 0 to |sources|
        invariant |errs| == k
        invariant Fetched(old(State()), sources, answers, latencies, now, []) ==
                  Fetched(State(), sources[k..], answers[k..], latencies[k..], now, errs)
      {
        assert sources[k..][1..] == sources[k + 1..] && answers[k..][1..] == answers[k + 1..] && latencies[k..][1..] == latencies[k + 1..];
        NoteAttempt(sources[k], latencies[k], ErrorOf(answers[k]));
        if answers[k].Err? {
          errs := errs + [Wrap(sources[k], answers[k].error)];
          continue;
        }
        var _ := InstallRoots(answers[k].value, sources[k], None, now);
        return None;
      }
      var joined := Join(errs);
      var _ := InstallRoots(map[], "", joined, now);
      return joined;
    }
  }

  /** One whole refresh with nothing in between: ask in order, stop at the first success. */
  function Fetched(c: Cache, sources: seq<string>, answers: seq<Answer>, latencies: seq<int>, now: int, errs: seq<string>)
    : (Cache, Option<string>)
    requires |answers| == |latencies| == |sources|
    decreases |sources|
  {
    if sources == [] then (SetRoots(c, map[], "", Join(errs), now), Join(errs))
    else
      var tried := RecordAttempt(c, sources[0], latencies[0], ErrorOf(answers[0]));
      match answers[0]
      case Ok(roots) => (SetRoots(tried, roots, sources[0], None, now), None)
      case Err(e) => Fetched(tried, sources[1..], answers[1..], latencies[1..], now, errs + [Wrap(sources[0], e)])
  }

  /** The counts of every other source are as they were. */
  ghost predicate OnlyTried(c: Cache, c': Cache, tried: seq<string>) {
    forall name :: name !in tried ==>
      (name in c'.attempts <==> name in c.attempts) && (name in c.attempts ==> c'.attempts[name] == c.attempts[name])
  }

  /**
   What a refresh means: with a success the cache is the first successful answer,
   with none the old roots stay and the failure is counted and reported.
   */
  lemma {:induction false} FetchedMeaning(c: Cache, sources: seq<string>, answers: seq<Answer>, latencies: seq<int>, now: int, errs: seq<string>)
    requires |answers| == |latencies| == |sources| && sources + errs != []
    requires Whole(c.roots) || c.roots == map[]
    requires forall i :: 0 <= i < |answers| && answers[i].Ok? ==> Whole(answers[i].value)
    ensures var (c', err) := Fetched(c, sources, answers, latencies, now, errs);
            && (err.None? <==> exists i :: 0 <= i < |answers| && answers[i].Ok?)
            && c'.lastAttemptAt == Some(now)
            && (err.Some? ==> c'.roots == c.roots && c'.sourceUsed == c.sourceUsed && c'.updatedAt == c.updatedAt
                              && c'.consecutiveFail == c.consecutiveFail + 1 && c'.lastError == err.value)
            && (err.None? ==> c'.consecutiveFail == 0 && c'.lastError == "" && c'.updatedAt == Some(now)
                              && exists i :: 0 <= i < |answers| && answers[i].Ok?
                                   && (forall j :: 0 <= j < i ==> answers[j].Err?)
                                   && c'.roots == answers[i].value && c'.sourceUsed == sources[i])
    decreases |sources|
  {
    if sources != [] {
      match answers[0] {
        case Ok(roots) =>
          assert c.roots + roots == roots;
        case Err(e) =>
          var tried := RecordAttempt(c, sources[0], latencies[0], Some(e));
          var errs' := errs + [Wrap(sources[0], e)];
          FetchedMeaning(tried, sources[1..], answers[1..], latencies[1..], now, errs');
          var (c', err) := Fetched(tried, sources[1..], answers[1..], latencies[1..], now, errs');
          if err.None? {
            var i :| 0 <= i < |answers[1..]| && answers[1..][i].Ok?
                     && (forall j :: 0 <= j < i ==> answers[1..][j].Err?)
                     && c'.roots == answers[1..][i].value && c'.sourceUsed == sources[1..][i];
            assert forall j :: 0 < j < i + 1 ==> answers[j] == answers[1..][j - 1];
            assert answers[i + 1].Ok? && c'.roots == answers[i + 1].value && c'.sourceUsed == sources[i + 1];
          } else {
            assert forall i :: 0 < i < |answers| ==> answers[i] == answers[1..][i - 1];
          }
      }
    }
  }

  /** Sources after the first success are not asked: no other source's attempts change. */
  lemma {:induction false} StopsAtSuccess(c: Cache, sources: seq<string>, answers: seq<Answer>, latencies: seq<int>, now: int, errs: seq<string>, i: nat)
    requires |answers| == |latencies| == |sources| && i < |answers|
    requires answers[i].Ok? && forall j :: 0 <= j < i ==> answers[j].Err?
    ensures OnlyTried(c, Fetched(c, sources, answers, latencies, now, errs).0, sources[..i + 1])
    decreases i
  {
    if i > 0 {
      var e := answers[0].error;
      var tried := RecordAttempt(c, sources[0], latencies[0], Some(e));
      StopsAtSuccess(tried, sources[1..], answers[1..], latencies[1..], now, errs + [Wrap(sources[0], e)], i - 1);
      assert sources[..i + 1] == [sources[0]] + sources[1..][..i];
    }
  }

  // ------------------------------------------------------------- gather loops

  datatype Arrival = Arrival(issuer: IssuerID, root: Result<Root, string>)

  /** `OnchainSource.FetchAll`: one answer per issuer, in whatever order they arrive; all or nothing. */
  method GatherOnchain(arrivals: seq<Arrival>) returns (r: Answer)
    requires |arrivals| == |ALL_ISSUERS| && forall i, j :: 0 <= i < j < |arrivals| ==> arrivals[i].issuer != arrivals[j].issuer
    ensures r.Ok? <==> forall i :: 0 <= i < |arrivals| ==> arrivals[i].root.Ok?
    ensures r.Ok? ==> Whole(r.value)
    ensures r.Ok? ==> forall i :: 0 <= i < |arrivals| ==>
              arrivals[i].issuer in r.value && r.value[arrivals[i].issuer] == arrivals[i].root.value
    ensures r.Err? ==> r.error != ""
  {
    var out: Roots := map[];
    var errs: seq<string> := [];
    for k := 0 to |arrivals|
      invariant errs == [] <==> forall i :: 0 <= i < k ==> arrivals[i].root.Ok?
      invariant errs != [] ==> errs[0] != ""
      invariant forall i :: 0 <= i < k && arrivals[i].root.Ok? ==>
                  arrivals[i].issuer in out && out[arrivals[i].issuer] == arrivals[i].root.value
    {
      match arrivals[k].root {
        case Err(e) => errs := errs + [Wrap("issuer", e)];
        case Ok(root) => out := out[arrivals[k].issuer := root];
      }
    }
    if |errs| > 0 {
      return Err(Join(errs).value);
    }
    assert arrivals[0].issuer in out && arrivals[1].issuer in out;
    WholeMeansAll(out, arrivals[0].issuer, arrivals[1].issuer);
    return Ok(out);
  }

  lemma WholeMeansAll(roots: Roots, a: IssuerID, b: IssuerID)
    requires a != b && a in roots && b in roots
    ensures Whole(roots) && forall i: IssuerID :: i in roots.Keys
  {
    forall i: IssuerID ensures i in roots.Keys && i in {G2, G3} {
      assert i.G2? || i.G3?;
      assert a.G2? || a.G3?;
      assert b.G2? || b.G3?;
    }
  }

  predicate Matches(matched: map<IssuerID, string>, i: IssuerID, root: Root) {
    i in matched && ParseRoot(matched[i]) == Ok(root)
  }

  /** `parseReleaseBody`: matched(i) is what the pattern of issuer i captured, if anything. */
  method ParseReleaseBody(matched: map<IssuerID, string>) returns (r: Answer)
    ensures r.Ok? <==> forall i: IssuerID :: i in matched && ParseRoot(matched[i]).Ok?
    ensures r.Ok? ==> Whole(r.value) && forall i: IssuerID :: i in r.value && Matches(matched, i, r.value[i])
    ensures r.Err? ==> r.error != ""
  {
    var out: Roots := map[];
    for k := 0 to |ALL_ISSUERS|
      invariant out.Keys == if k == 0 then {} else if k == 1 then {G2} else {G2, G3}
      invariant forall i :: i in out ==> Matches(matched, i, out[i])
    {
      var issuer := ALL_ISSUERS[k];
      if issuer !in matched {
        return Err("release body missing root");
      }
      match ParseRoot(matched[issuer]) {
        case Err(_) => return Err("parse root");
        case Ok(root) => out := out[issuer := root];
      }
    }
    WholeMeansAll(out, G2, G3);
    assert forall i :: i in out ==> i in matched && ParseRoot(matched[i]).Ok?;
    return Ok(out);
  }

  // ---------------------------------------------------------- concurrent runs

  /** Where one call of FetchNow stands. */
  datatype Phase = Asking | Answered(answer: Answer) | Recorded(answer: Answer) | Exhausted | Finished(err: Option<string>)

  datatype Fetcher = Fetcher(asked: nat, errs: seq<string>, phase: Phase)

  /** What happened to the provider, in lock order. */
  datatype Event =
    | Attempted(f: nat, k: nat, source: string, err: Option<string>, latencyMs: int)
    | Installed(source: string, roots: Roots, at: int)
    | Failed(err: Option<string>, at: int)

  datatype Machine = Machine(cache: Cache, fetchers: seq<Fetcher>, log: seq<Event>)

  datatype Step =
    | Start
    | Respond(f: nat, answer: Answer)
    | Record(f: nat, latencyMs: int)
    | Proceed(f: nat, now: int)
    | GiveUp(f: nat, now: int)

  const INITIAL: Machine := Machine(EMPTY_CACHE, [], [])

  /** Both real sources answer for every issuer or fail: the contracts of the two gather loops. */
  predicate Enabled(sources: seq<string>, m: Machine, s: Step) {
    match s
    case Start => sources != []
    case Respond(f, a) =>
      f < |m.fetchers| && m.fetchers[f].phase.Asking? && m.fetchers[f].asked < |sources| && (a.Ok? ==> Whole(a.value))
    case Record(f, _) => f < |m.fetchers| && m.fetchers[f].phase.Answered? && m.fetchers[f].asked < |sources|
    case Proceed(f, _) => f < |m.fetchers| && m.fetchers[f].phase.Recorded? && m.fetchers[f].asked < |sources|
    case GiveUp(f, _) => f < |m.fetchers| && m.fetchers[f].phase.Exhausted?
  }

  function Apply(sources: seq<string>, m: Machine, s: Step): Machine
    requires Enabled(sources, m, s)
  {
    match s
    case Start => m.(fetchers := m.fetchers + [Fetcher(0, [], Asking)])
    case Respond(f, a) => m.(fetchers := m.fetchers[f := m.fetchers[f].(phase := Answered(a))])
    case Record(f, latencyMs) =>
      var w := m.fetchers[f];
      var a := w.phase.answer;
      Machine(RecordAttempt(m.cache, sources[w.asked], latencyMs, ErrorOf(a)),
              m.fetchers[f := w.(phase := Recorded(a))],
              m.log + [Attempted(f, w.asked, sources[w.asked], ErrorOf(a), latencyMs)])
    case Proceed(f, now) =>
      var w := m.fetchers[f];
      (match w.phase.answer
       case Ok(roots) =>
         Machine(SetRoots(m.cache, roots, sources[w.asked], None, now),
                 m.fetchers[f := w.(phase := Finished(None))],
                 m.log + [Installed(sources[w.asked], roots, now)])
       case Err(e) =>
         var errs := w.errs + [Wrap(sources[w.asked], e)];
         var phase := if w.asked + 1 == |sources| then Exhausted else Asking;
         m.(fetchers := m.fetchers[f := Fetcher(w.asked + 1, errs, phase)]))
    case GiveUp(f, now) =>
      var w := m.fetchers[f];
      Machine(SetRoots(m.cache, map[], "", Join(w.errs), now),
              m.fetchers[f := w.(phase := Finished(Join(w.errs)))],
              m.log + [Failed(Join(w.errs), now)])
  }

  /** The state after a run, or nothing if some step was not enabled. */
  function After(sources: seq<string>, steps: seq<Step>): Option<Machine>
    decreases |steps|
  {
    if steps == [] then Some(INITIAL)
    else
      match After(sources, steps[..|steps| - 1])
      case None => None
      case Some(m) =>
        if Enabled(sources, m, steps[|steps| - 1]) then Some(Apply(sources, m, steps[|steps| - 1])) else None
  }

  function LastInstalled(log: seq<Event>): Option<Event> {
    if log == [] then None
    else if log[|log| - 1].Installed? then Some(log[|log| - 1])
    else LastInstalled(log[..|log| - 1])
  }

  function FailuresSinceInstall(log: seq<Event>): nat {
    if log == [] || log[|log| - 1].Installed? then 0
    else FailuresSinceInstall(log[..|log| - 1]) + (if log[|log| - 1].Failed? then 1 else 0)
  }

  function AttemptsOf(log: seq<Event>, source: string): nat {
    if log == [] then 0
    else
      var e := log[|log| - 1];
      AttemptsOf(log[..|log| - 1], source) + (if e.Attempted? && e.source == source then 1 else 0)
  }

  /** What the last attempt at this source left behind. */
  function LastStat(log: seq<Event>, source: string): AttemptStat {
    if log == [] then AttemptStat(0, 0, "")
    else
      var e := log[|log| - 1];
      if e.Attempted? && e.source == source then
        AttemptStat(AttemptsOf(log, source), e.latencyMs, if e.err.Some? then e.err.value else "")
      else LastStat(log[..|log| - 1], source)
  }

  /** The error of the last refresh that ended, if it failed. */
  function LastFailure(log: seq<Event>): string {
    if log == [] || log[|log| - 1].Installed? then ""
    else
      var e := log[|log| - 1];
      if e.Failed? && e.err.Some? then e.err.value else LastFailure(log[..|log| - 1])
  }

  function LastEndedAt(log: seq<Event>): Option<int> {
    if log == [] then None
    else
      match log[|log| - 1]
      case Installed(_, _, at) => Some(at)
      case Failed(_, at) => Some(at)
      case Attempted(_, _, _, _, _) => LastEndedAt(log[..|log| - 1])
  }

  /** The roots are exactly the last installed answer, whole, under that source's name and time. */
  ghost predicate OneSnapshot(m: Machine) {
    match LastInstalled(m.log)
    case None => m.cache.roots == map[] && m.cache.sourceUsed == "" && m.cache.updatedAt == None
    case Some(e) =>
      e.Installed? && Whole(e.roots) && m.cache.roots == e.roots && m.cache.sourceUsed == e.source && m.cache.updatedAt == Some(e.at)
  }

  ghost predicate CountersAgree(cache: Cache, log: seq<Event>) {
    && cache.consecutiveFail == FailuresSinceInstall(log)
    && cache.lastError == LastFailure(log)
    && cache.lastAttemptAt == LastEndedAt(log)
    && (cache.lastError == "" <==> cache.consecutiveFail == 0)
    && (forall e :: e in log && e.Failed? ==> e.err.Some? && e.err.value != "")
    && (forall s :: (s in cache.attempts <==> AttemptsOf(log, s) > 0) && (s in cache.attempts ==> cache.attempts[s] == LastStat(log, s)))
    && (forall s :: LastStat(log, s).count == AttemptsOf(log, s))
  }

  /** Call f recorded this outcome of its k-th source among the first `upto` events. */
  ghost predicate Logged(log: seq<Event>, upto: nat, f: nat, k: nat, ok: bool) {
    exists j: nat :: j < upto && j < |log| && IsAttempt(log[j], f, k, ok)
  }

  predicate IsAttempt(e: Event, f: nat, k: nat, ok: bool) {
    e.Attempted? && e.f == f && e.k == k && e.err.None? == ok
  }

  /**
   Sources in order, in the history itself: a call asks its next source only after the
   one before it answered with an error, and never after any of its sources succeeded.
   */
  ghost predicate SourcesInOrder(log: seq<Event>) {
    && (forall j :: 0 <= j < |log| && log[j].Attempted? && log[j].k > 0 ==> Logged(log, j, log[j].f, log[j].k - 1, false))
    && (forall i, j :: 0 <= i < j < |log| && log[i].Attempted? && log[j].Attempted? && log[i].f == log[j].f ==> log[i].err.Some?)
  }

  predicate Succeeded(w: Fetcher) {
    (w.phase.Recorded? && w.phase.answer.Ok?) || (w.phase.Finished? && w.phase.err.None?)
  }

  /** A call has one error for each source it has been through, and that failure is in the history. */
  ghost predicate InOrder(sources: seq<string>, log: seq<Event>, f: nat, w: Fetcher) {
    && |w.errs| == w.asked <= |sources|
    && (w.asked > 0 ==> w.errs[0] != "")
    && (w.phase.Exhausted? ==> w.asked == |sources| > 0)
    && (w.phase.Asking? || w.phase.Answered? || w.phase.Recorded? ==> w.asked < |sources|)
    && ((w.phase.Answered? || w.phase.Recorded?) && w.phase.answer.Ok? ==> Whole(w.phase.answer.value))
    && (w.phase.Finished? && w.phase.err.None? ==> w.asked < |sources|)
    && (w.phase.Finished? && w.phase.err.Some? ==> w.asked == |sources|)
    && FailuresLogged(log, f, w)
  }

  ghost predicate FailuresLogged(log: seq<Event>, f: nat, w: Fetcher) {
    && (forall k: nat :: k < w.asked ==> Logged(log, |log|, f, k, false))
    && (w.phase.Recorded? && w.phase.answer.Err? ==> Logged(log, |log|, f, w.asked, false))
    && (!Succeeded(w) ==> forall j :: 0 <= j < |log| && log[j].Attempted? && log[j].f == f ==> log[j].err.Some?)
  }

  predicate AskedFor(sources: seq<string>, fetchers: seq<Fetcher>, e: Event)
    requires e.Attempted?
  {
    e.f < |fetchers| && e.k < |sources| && e.source == sources[e.k]
  }

  ghost predicate Inv(sources: seq<string>, m: Machine) {
    && OneSnapshot(m) && CountersAgree(m.cache, m.log) && SourcesInOrder(m.log)
    && (forall f :: 0 <= f < |m.fetchers| ==> InOrder(sources, m.log, f, m.fetchers[f]))
    && (forall j :: 0 <= j < |m.log| && m.log[j].Attempted? ==> AskedFor(sources, m.fetchers, m.log[j]))
  }

  lemma LogGrows(log: seq<Event>, e: Event)
    ensures (log + [e])[..|log + [e]| - 1] == log
  {
  }

  lemma SnapshotKept(sources: seq<string>, m: Machine, s: Step)
    requires Inv(sources, m) && Enabled(sources, m, s)
    ensures OneSnapshot(Apply(sources, m, s))
  {
    var m' := Apply(sources, m, s);
    if |m'.log| > |m.log| {
      LogGrows(m.log, m'.log[|m.log|]);
    }
    if s.Proceed? && m.fetchers[s.f].phase.answer.Ok? {
      assert InOrder(sources, m.log, s.f, m.fetchers[s.f]);
      assert m.cache.roots + m.fetchers[s.f].phase.answer.value == m.fetchers[s.f].phase.answer.value;
    }
  }

  /** A call that has run out of sources has an error to report. */
  lemma GivesUpWithError(sources: seq<string>, m: Machine, f: nat)
    requires f < |m.fetchers| && InOrder(sources, m.log, f, m.fetchers[f]) && m.fetchers[f].phase.Exhausted?
    ensures Join(m.fetchers[f].errs).Some? && Join(m.fetchers[f].errs).value != ""
  {
  }

  lemma CountersKept(sources: seq<string>, m: Machine, s: Step)
    requires Inv(sources, m) && Enabled(sources, m, s)
    ensures var m' := Apply(sources, m, s); CountersAgree(m'.cache, m'.log)
  {
    hide OneSnapshot, SourcesInOrder, InOrder, Join, Wrap, CountersAgree, RecordAttempt, SetRoots;
    var m' := Apply(sources, m, s);
    if s.Record? {
      AttemptCounted(m.cache, m.log, s.f, m.fetchers[s.f].asked, sources[m.fetchers[s.f].asked], s.latencyMs, ErrorOf(m.fetchers[s.f].phase.answer));
    } else if s.GiveUp? {
      GivesUpWithError(sources, m, s.f);
      FailureCounted(m.cache, m.log, Join(m.fetchers[s.f].errs).value, s.now);
    } else if s.Proceed? && m.fetchers[s.f].phase.answer.Ok? {
      InstallCounted(m.cache, m.log, m.fetchers[s.f].phase.answer.value, sources[m.fetchers[s.f].asked], s.now);
    }
  }

  lemma AttemptCounted(cache: Cache, log: seq<Event>, f: nat, k: nat, source: string, latencyMs: int, err: Option<string>)
    requires CountersAgree(cache, log)
    ensures CountersAgree(RecordAttempt(cache, source, latencyMs, err), log + [Attempted(f, k, source, err, latencyMs)])
  {
    LogGrows(log, Attempted(f, k, source, err, latencyMs));
  }

  lemma FailureCounted(cache: Cache, log: seq<Event>, err: string, now: int)
    requires CountersAgree(cache, log) && err != ""
    ensures CountersAgree(SetRoots(cache, map[], "", Some(err), now), log + [Failed(Some(err), now)])
  {
    LogGrows(log, Failed(Some(err), now));
  }

  lemma InstallCounted(cache: Cache, log: seq<Event>, roots: Roots, source: string, now: int)
    requires CountersAgree(cache, log)
    ensures CountersAgree(SetRoots(cache, roots, source, None, now), log + [Installed(source, roots, now)])
  {
    LogGrows(log, Installed(source, roots, now));
  }

  lemma LoggedStays(log: seq<Event>, e: Event)
    ensures forall upto: nat, f: nat, k: nat, ok :: upto <= |log| ==> (Logged(log + [e], upto, f, k, ok) <==> Logged(log, upto, f, k, ok))
    ensures forall f: nat, k: nat, ok :: Logged(log, |log|, f, k, ok) ==> Logged(log + [e], |log + [e]|, f, k, ok)
    ensures e.Attempted? ==> Logged(log + [e], |log + [e]|, e.f, e.k, e.err.None?)
  {
    forall upto: nat, f: nat, k: nat, ok | upto <= |log|
      ensures Logged(log + [e], upto, f, k, ok) <==> Logged(log, upto, f, k, ok)
    {
      assert forall j: nat :: j < upto ==> (log + [e])[j] == log[j];
    }
    if e.Attempted? {
      assert IsAttempt((log + [e])[|log|], e.f, e.k, e.err.None?);
    }
  }

  /** A fetcher that did not move still agrees with a history grown by another's event. */
  lemma OtherStaysInOrder(sources: seq<string>, log: seq<Event>, e: Event, f: nat, w: Fetcher)
    requires InOrder(sources, log, f, w) && (e.Attempted? ==> e.f != f)
    ensures InOrder(sources, log + [e], f, w)
  {
    LoggedStays(log, e);
    assert |log + [e]| == |log| + 1;
    hide Logged;
  }

  lemma MovedInOrder(sources: seq<string>, m: Machine, s: Step)
    requires Inv(sources, m) && Enabled(sources, m, s) && !s.Start?
    ensures var m' := Apply(sources, m, s); InOrder(sources, m'.log, s.f, m'.fetchers[s.f])
  {
    hide FailuresLogged, OneSnapshot, CountersAgree, SourcesInOrder, RecordAttempt, SetRoots;
    assert InOrder(sources, m.log, s.f, m.fetchers[s.f]);
    MovedLogged(sources, m, s);
  }

  lemma MovedLogged(sources: seq<string>, m: Machine, s: Step)
    requires Enabled(sources, m, s) && !s.Start? && FailuresLogged(m.log, s.f, m.fetchers[s.f])
    ensures var m' := Apply(sources, m, s); FailuresLogged(m'.log, s.f, m'.fetchers[s.f])
  {
    hide RecordAttempt, SetRoots, Join, Wrap;
    var m' := Apply(sources, m, s);
    if |m'.log| > |m.log| {
      LoggedStays(m.log, m'.log[|m.log|]);
      assert m'.log == m.log + [m'.log[|m.log|]] && |m'.log| == |m.log| + 1;
    }
    hide Logged;
  }

  lemma OneMoreInOrder(log: seq<Event>, e: Event)
    requires SourcesInOrder(log)
    requires e.Attempted? && e.k > 0 ==> Logged(log, |log|, e.f, e.k - 1, false)
    requires e.Attempted? ==> forall j :: 0 <= j < |log| && log[j].Attempted? && log[j].f == e.f ==> log[j].err.Some?
    ensures SourcesInOrder(log + [e])
  {
    LoggedStays(log, e);
    hide Logged;
  }

  lemma HistoryInOrder(sources: seq<string>, m: Machine, s: Step)
    requires Inv(sources, m) && Enabled(sources, m, s)
    ensures SourcesInOrder(Apply(sources, m, s).log)
  {
    hide Logged, OneSnapshot, CountersAgree, SourcesInOrder, RecordAttempt, SetRoots, Join, Wrap;
    var m' := Apply(sources, m, s);
    if |m'.log| > |m.log| {
      assert InOrder(sources, m.log, s.f, m.fetchers[s.f]);
      OneMoreInOrder(m.log, m'.log[|m.log|]);
    }
  }

  lemma OrderKept(sources: seq<string>, m: Machine, s: Step)
    requires Inv(sources, m) && Enabled(sources, m, s)
    ensures var m' := Apply(sources, m, s);
            && (forall f :: 0 <= f < |m'.fetchers| ==> InOrder(sources, m'.log, f, m'.fetchers[f]))
            && (forall j :: 0 <= j < |m'.log| && m'.log[j].Attempted? ==> AskedFor(sources, m'.fetchers, m'.log[j]))
  {
    var m' := Apply(sources, m, s);
    if !s.Start? {
      MovedInOrder(sources, m, s);
      forall f | 0 <= f < |m'.fetchers| && f != s.f ensures InOrder(sources, m'.log, f, m'.fetchers[f]) {
        if |m'.log| > |m.log| {
          OtherStaysInOrder(sources, m.log, m'.log[|m.log|], f, m.fetchers[f]);
        }
      }
    }
    hide InOrder, OneSnapshot, CountersAgree, SourcesInOrder;
  }

  lemma StepKeepsInv(sources: seq<string>, m: Machine, s: Step)
    requires Inv(sources, m) && Enabled(sources, m, s)
    ensures Inv(sources, Apply(sources, m, s))
  {
    SnapshotKept(sources, m, s);
    CountersKept(sources, m, s);
    HistoryInOrder(sources, m, s);
    OrderKept(sources, m, s);
    hide Apply, InOrder, OneSnapshot, CountersAgree, SourcesInOrder;
  }

  /** For every interleaving of any number of refreshes: one whole snapshot, true counters, sources asked in order. */
  lemma {:induction false} EveryRun(sources: seq<string>, steps: seq<Step>)
    requires After(sources, steps).Some?
    ensures Inv(sources, After(sources, steps).value)
    decreases |steps|
  {
    if steps != [] {
      EveryRun(sources, steps[..|steps| - 1]);
      StepKeepsInv(sources, After(sources, steps[..|steps| - 1]).value, steps[|steps| - 1]);
    }
  }

  // ------------------------------------------------- what the schedule says

  /** The last answer that call f was given. */
  function LastAnswer(steps: seq<Step>, f: nat): Option<Answer> {
    if steps == [] then None
    else
      var last := steps[|steps| - 1];
      if last.Respond? && last.f == f then Some(last.answer) else LastAnswer(steps[..|steps| - 1], f)
  }

  function SourceAt(sources: seq<string>, k: nat): string {
    if k < |sources| then sources[k] else ""
  }

  /** The errors call f was given, each under the name of the source it was asking. */
  function ErrorsGiven(sources: seq<string>, steps: seq<Step>, f: nat): seq<string> {
    if steps == [] then []
    else
      var last, before := steps[|steps| - 1], ErrorsGiven(sources, steps[..|steps| - 1], f);
      if last.Respond? && last.f == f && last.answer.Err? then before + [Wrap(SourceAt(sources, |before|), last.answer.error)]
      else before
  }

  /** What the last answer of call f was an answer to: the source after those that failed before it. */
  function SourceAsked(sources: seq<string>, steps: seq<Step>, f: nat): nat {
    var errors, a := |ErrorsGiven(sources, steps, f)|, LastAnswer(steps, f);
    if a.Some? && a.value.Err? && errors > 0 then errors - 1 else errors
  }

  /** The event a step stands for, told from the steps before it alone. */
  function EventOf(sources: seq<string>, before: seq<Step>, s: Step): seq<Event> {
    match s
    case Record(f, latencyMs) =>
      var k, a := SourceAsked(sources, before, f), LastAnswer(before, f);
      if a.Some? then [Attempted(f, k, SourceAt(sources, k), ErrorOf(a.value), latencyMs)] else []
    case Proceed(f, now) =>
      var a := LastAnswer(before, f);
      if a.Some? && a.value.Ok? then [Installed(SourceAt(sources, SourceAsked(sources, before, f)), a.value.value, now)] else []
    case GiveUp(f, now) => [Failed(Join(ErrorsGiven(sources, before, f)), now)]
    case _ => []
  }

  function History(sources: seq<string>, steps: seq<Step>): seq<Event> {
    if steps == [] then []
    else History(sources, steps[..|steps| - 1]) + EventOf(sources, steps[..|steps| - 1], steps[|steps| - 1])
  }

  /** A call stands where its answers have brought it. */
  ghost predicate StandsAt(sources: seq<string>, steps: seq<Step>, f: nat, w: Fetcher) {
    && (w.phase.Answered? || w.phase.Recorded? ==> LastAnswer(steps, f) == Some(w.phase.answer))
    && ErrorsGiven(sources, steps, f) ==
       if (w.phase.Answered? || w.phase.Recorded?) && w.phase.answer.Err?
       then w.errs + [Wrap(SourceAt(sources, w.asked), w.phase.answer.error)] else w.errs
  }

  ghost predicate OnSchedule(sources: seq<string>, steps: seq<Step>, m: Machine) {
    && m.log == History(sources, steps)
    && (forall f: nat :: f < |m.fetchers| ==> StandsAt(sources, steps, f, m.fetchers[f]))
    && (forall f: nat :: f >= |m.fetchers| ==> ErrorsGiven(sources, steps, f) == [])
  }

  lemma NextSchedule(sources: seq<string>, steps: seq<Step>, s: Step, f: nat)
    ensures History(sources, steps + [s]) == History(sources, steps) + EventOf(sources, steps, s)
    ensures !(s.Respond? && s.f == f) ==>
              LastAnswer(steps + [s], f) == LastAnswer(steps, f) && ErrorsGiven(sources, steps + [s], f) == ErrorsGiven(sources, steps, f)
    ensures s.Respond? && s.f == f ==>
              LastAnswer(steps + [s], f) == Some(s.answer)
              && var before := ErrorsGiven(sources, steps, f);
                 ErrorsGiven(sources, steps + [s], f) ==
                 if s.answer.Err? then before + [Wrap(SourceAt(sources, |before|), s.answer.error)] else before
  {
    assert (steps + [s])[..|steps|] == steps;
  }

  /** One step's event is the one the machine logs. */
  lemma EventLogged(sources: seq<string>, steps: seq<Step>, m: Machine, s: Step)
    requires Inv(sources, m) && Enabled(sources, m, s) && OnSchedule(sources, steps, m)
    ensures Apply(sources, m, s).log == m.log + EventOf(sources, steps, s)
  {
    hide OneSnapshot, CountersAgree, SourcesInOrder, FailuresLogged, RecordAttempt, SetRoots, Join, Wrap;
    if !s.Start? {
      assert InOrder(sources, m.log, s.f, m.fetchers[s.f]);
      assert StandsAt(sources, steps, s.f, m.fetchers[s.f]);
    }
  }

  lemma StandsKept(sources: seq<string>, steps: seq<Step>, m: Machine, s: Step)
    requires Inv(sources, m) && Enabled(sources, m, s) && OnSchedule(sources, steps, m) && !s.Start?
    ensures StandsAt(sources, steps + [s], s.f, Apply(sources, m, s).fetchers[s.f])
  {
    hide OneSnapshot, CountersAgree, SourcesInOrder, FailuresLogged, RecordAttempt, SetRoots, Join, Wrap, History, LastAnswer, ErrorsGiven, StandsAt;
    assert InOrder(sources, m.log, s.f, m.fetchers[s.f]);
    CallStands(sources, steps, s, m.fetchers[s.f], Apply(sources, m, s).fetchers[s.f]);
  }

  lemma CallStands(sources: seq<string>, steps: seq<Step>, s: Step, w: Fetcher, w': Fetcher)
    requires !s.Start? && StandsAt(sources, steps, s.f, w) && |w.errs| == w.asked
    requires match s
             case Respond(_, a) => w.phase.Asking? && w' == w.(phase := Answered(a))
             case Record(_, _) => w.phase.Answered? && w' == w.(phase := Recorded(w.phase.answer))
             case Proceed(_, _) =>
               w.phase.Recorded?
               && if w.phase.answer.Ok? then w' == w.(phase := Finished(None))
                  else w' == Fetcher(w.asked + 1, w.errs + [Wrap(SourceAt(sources, w.asked), w.phase.answer.error)], w'.phase)
                       && (w'.phase.Exhausted? || w'.phase.Asking?)
             case GiveUp(_, _) => w.phase.Exhausted? && w' == w.(phase := w'.phase) && w'.phase.Finished?
    ensures StandsAt(sources, steps + [s], s.f, w')
  {
    hide History, LastAnswer, ErrorsGiven, EventOf, Wrap;
    NextSchedule(sources, steps, s, s.f);
  }

  lemma ScheduleKept(sources: seq<string>, steps: seq<Step>, m: Machine, s: Step)
    requires Inv(sources, m) && Enabled(sources, m, s) && OnSchedule(sources, steps, m)
    ensures OnSchedule(sources, steps + [s], Apply(sources, m, s))
  {
    var m' := Apply(sources, m, s);
    EventLogged(sources, steps, m, s);
    NextSchedule(sources, steps, s, 0);
    if !s.Start? {
      StandsKept(sources, steps, m, s);
    }
    hide Inv, History, LastAnswer, ErrorsGiven, EventOf, RecordAttempt, SetRoots, Join, Wrap;
    forall f: nat | f < |m'.fetchers| ensures StandsAt(sources, steps + [s], f, m'.fetchers[f]) {
      NextSchedule(sources, steps, s, f);
      if f < |m.fetchers| && (s.Start? || f != s.f) {
        assert StandsAt(sources, steps, f, m.fetchers[f]);
      }
    }
    forall f: nat | f >= |m'.fetchers| ensures ErrorsGiven(sources, steps + [s], f) == [] {
      NextSchedule(sources, steps, s, f);
    }
  }

  /** The history the cache agrees with is told by the schedule alone. */
  lemma {:induction false} EverySchedule(sources: seq<string>, steps: seq<Step>)
    requires After(sources, steps).Some?
    ensures OnSchedule(sources, steps, After(sources, steps).value)
    decreases |steps|
  {
    if steps != [] {
      var init, s := steps[..|steps| - 1], steps[|steps| - 1];
      EverySchedule(sources, init);
      EveryRun(sources, init);
      assert init + [s] == steps;
      ScheduleKept(sources, init, After(sources, init).value, s);
      hide Apply, OnSchedule, Inv;
    }
  }

  /**
   For every interleaving of any number of refreshes, told from the answers and the
   order of the steps: the roots are one whole snapshot, the last answer whose call went
   on to install it, under the name of the source it came from; counters, errors and
   attempts are those of the schedule; and no call asks a source before the one ahead of it failed.
   */
  lemma ScheduleDecides(sources: seq<string>, steps: seq<Step>)
    requires After(sources, steps).Some?
    ensures var cache, told := After(sources, steps).value.cache, History(sources, steps);
            && CountersAgree(cache, told) && SourcesInOrder(told)
            && match LastInstalled(told)
               case None => cache.roots == map[] && cache.sourceUsed == "" && cache.updatedAt == None
               case Some(e) => e.Installed? && Whole(e.roots)
                               && cache.roots == e.roots && cache.sourceUsed == e.source && cache.updatedAt == Some(e.at)
  {
    EveryRun(sources, steps);
    EverySchedule(sources, steps);
    hide After, CountersAgree, SourcesInOrder, LastInstalled, History;
  }

  // ------------------------------------------------------------- one call alone

  /** The steps of one call, with these answers, from its k-th source on. */
  function CallSteps(f: nat, answers: seq<Answer>, latencies: seq<int>, now: int): (steps: seq<Step>)
    requires |answers| == |latencies|
  {
    if answers == [] then [GiveUp(f, now)]
    else
      [Respond(f, answers[0]), Record(f, latencies[0]), Proceed(f, now)]
      + if answers[0].Ok? then [] else CallSteps(f, answers[1..], latencies[1..], now)
  }

  function Run(sources: seq<string>, m: Machine, steps: seq<Step>): Option<Machine>
    decreases |steps|
  {
    if steps == [] then Some(m)
    else if Enabled(sources, m, steps[0]) then Run(sources, Apply(sources, m, steps[0]), steps[1..])
    else None
  }

  lemma OneStep(sources: seq<string>, m: Machine, s: Step, rest: seq<Step>)
    requires Enabled(sources, m, s)
    ensures Run(sources, m, [s] + rest) == Run(sources, Apply(sources, m, s), rest)
  {
    hide Apply, Enabled;
    assert ([s] + rest)[1..] == rest;
  }

  lemma ThreeSteps(sources: seq<string>, m: Machine, a: Step, b: Step, c: Step, rest: seq<Step>)
    requires Enabled(sources, m, a)
    requires var m1 := Apply(sources, m, a);
             Enabled(sources, m1, b) && Enabled(sources, Apply(sources, m1, b), c)
    ensures Run(sources, m, [a, b, c] + rest) == Run(sources, Apply(sources, Apply(sources, Apply(sources, m, a), b), c), rest)
  {
    hide Apply, Enabled, Run;
    var m1 := Apply(sources, m, a);
    OneStep(sources, m, a, [b] + ([c] + rest));
    OneStep(sources, m1, b, [c] + rest);
    OneStep(sources, Apply(sources, m1, b), c, rest);
    assert [a, b, c] + rest == [a] + ([b] + ([c] + rest));
  }

  /** From its k-th source on, a call left alone does to the cache what `Fetched` says, and ends with its error. */
  lemma {:induction false} CallAlone(sources: seq<string>, m: Machine, f: nat, answers: seq<Answer>, latencies: seq<int>, now: int)
    requires f < |m.fetchers| && m.fetchers[f].asked <= |sources|
    requires |answers| == |latencies| == |sources| - m.fetchers[f].asked
    requires m.fetchers[f].phase == if answers == [] then Exhausted else Asking
    requires forall i :: 0 <= i < |answers| && answers[i].Ok? ==> Whole(answers[i].value)
    ensures var end := Run(sources, m, CallSteps(f, answers, latencies, now));
            var w := m.fetchers[f];
            var (cache, err) := Fetched(m.cache, sources[w.asked..], answers, latencies, now, w.errs);
            end.Some? && end.value.cache == cache && |end.value.fetchers| == |m.fetchers|
            && end.value.fetchers[f].phase == Finished(err)
    decreases |answers|
  {
    hide RecordAttempt, SetRoots, Join, Wrap, Whole;
    var w := m.fetchers[f];
    if answers == [] {
      assert Run(sources, Apply(sources, m, GiveUp(f, now)), []) == Some(Apply(sources, m, GiveUp(f, now)));
    } else {
      var a := answers[0];
      var m1 := Apply(sources, m, Respond(f, a));
      var m2 := Apply(sources, m1, Record(f, latencies[0]));
      var m3 := Apply(sources, m2, Proceed(f, now));
      var rest := if a.Ok? then [] else CallSteps(f, answers[1..], latencies[1..], now);
      ThreeSteps(sources, m, Respond(f, a), Record(f, latencies[0]), Proceed(f, now), rest);
      assert sources[w.asked..][0] == sources[w.asked] && sources[w.asked..][1..] == sources[w.asked + 1..];
      if a.Err? {
        CallAlone(sources, m3, f, answers[1..], latencies[1..], now);
      }
    }
  }

  /** The machine and the method agree: a call of the machine that nothing interrupts is one `FetchNow`. */
  lemma AloneAsFetched(sources: seq<string>, m: Machine, answers: seq<Answer>, latencies: seq<int>, now: int)
    requires sources != [] && |answers| == |latencies| == |sources|
    requires forall i :: 0 <= i < |answers| && answers[i].Ok? ==> Whole(answers[i].value)
    ensures var end := Run(sources, m, [Start] + CallSteps(|m.fetchers|, answers, latencies, now));
            var (cache, err) := Fetched(m.cache, sources, answers, latencies, now, []);
            end.Some? && end.value.cache == cache && |end.value.fetchers| == |m.fetchers| + 1
            && end.value.fetchers[|m.fetchers|].phase == Finished(err)
  {
    hide Fetched, CallSteps;
    var steps := [Start] + CallSteps(|m.fetchers|, answers, latencies, now);
    assert steps[1..] == CallSteps(|m.fetchers|, answers, latencies, now);
    CallAlone(sources, Apply(sources, m, Start), |m.fetchers|, answers, latencies, now);
    assert sources[0..] == sources;
  }
}
