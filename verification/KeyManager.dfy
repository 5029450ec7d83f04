/**
 keymanager/keymanager.go: installing pinned verifying keys through a temporary
 file, for one process and for many that share the directory and may stop anywhere.
 */
module KeyManager {
  import opened Wrappers
  import opened Numerals

  type Content = seq<Byte>

  /** A name the installer uses: the key's own, or a temporary one made unique by its number. */
  datatype Path = Dest(key: string) | Tmp(n: nat)

  type Files = map<Path, Content>

  datatype Comparison = Same | SkipVerify | Mismatch

  /** Hash comparison against the table of pins; an absent or empty pin skips it. */
  function CompareHash(pins: map<string, string>, key: string, got: string): Comparison {
    if key !in pins || pins[key] == "" then SkipVerify
    else if got != pins[key] then Mismatch
    else Same
  }

  predicate Pinned(pins: map<string, string>, key: string) {
    key in pins && pins[key] != ""
  }

  /** Only a pinned key can mismatch, and only by another hash; a key without a pin is never compared. */
  lemma ComparisonMeans(pins: map<string, string>, key: string, got: string)
    ensures CompareHash(pins, key, got) == Mismatch <==> Pinned(pins, key) && got != pins[key]
    ensures CompareHash(pins, key, got) == Same <==> Pinned(pins, key) && got == pins[key]
  {
  }

  // ------------------------------------------------------ bounded copy and probe

  datatype Status = More | Eof | Failed

  /** A stream that ends cleanly after its data, or with a read error if `broken`. */
  class Reader {
    const data: Content
    const broken: bool
    var pos: nat

    ghost predicate Valid()
      reads this
    {
      pos <= |data|
    }

    constructor (data: Content, broken: bool)
      ensures Valid() && this.data == data && this.broken == broken && pos == 0
    {
      this.data, this.broken, this.pos := data, broken, 0;
    }

    /**
     At most `max` bytes in chunks of any size, at least one while there are any; the
     end may be reported together with the last of them, and again on every later call.
     */
    method Read(max: nat) returns (chunk: Content, status: Status)
      requires Valid() && max > 0
      modifies this
      ensures Valid() && old(pos) <= pos && chunk == data[old(pos)..pos] && |chunk| <= max
      ensures old(pos) < |data| <==> |chunk| > 0
      ensures status == More ==> |chunk| > 0
      ensures status != More ==> pos == |data| && status == if broken then Failed else Eof
    {
      if pos == |data| {
        return [], if broken then Failed else Eof;
      }
      var n :| 0 < n <= max && n <= |data| - pos;
      var early: bool := *;
      chunk := data[pos..pos + n];
      pos := pos + n;
      status := if early && pos == |data| then (if broken then Failed else Eof) else More;
    }
  }

  datatype CopyResult = Copied(hashed: Content) | Truncated | ReadError | WriteError

  /** What the copy asks of the disk. */
  function Wanted(r: Reader, limit: nat): nat {
    if |r.data| < limit then |r.data| else limit
  }

  /** The key's file is there and passes the check against its pin, if it has one. */
  predicate GoodAt(pins: map<string, string>, sha256: Content -> string, key: string, files: Files) {
    Dest(key) in files && CompareHash(pins, key, sha256(files[Dest(key)])) != Mismatch
  }

  /** What ensuring one key does: a good file on success, the old one or none on failure, and no other key's file touched. */
  ghost predicate Ensured(pins: map<string, string>, sha256: Content -> string, key: string, before: Files, after: Files, ok: bool) {
    && (ok ==> GoodAt(pins, sha256, key, after))
    && (!ok ==> Dest(key) !in after || (Dest(key) in before && after[Dest(key)] == before[Dest(key)]))
    && (forall p :: p in before && p != Dest(key) ==> p in after && after[p] == before[p])
    && (forall p :: p in after && p !in before ==> p == Dest(key) || p.Tmp?)
  }

  class FileSystem {
    var files: Files

    constructor (files: Files)
      ensures this.files == files
    {
      this.files := files;
    }

    /**
     Copy at most `limit` bytes into a file while hashing them, then read once more: a
     byte means the input was too long.  The disk takes `room` bytes.  The copy succeeds
     exactly on a whole stream of at most `limit` bytes that fits the disk, unless the
     probe reads nothing and reports nothing.
     */
    method WriteBoundedAndHash(path: Path, r: Reader, limit: nat, room: nat, probeStalls: bool) returns (result: CopyResult)
      requires r.Valid() && r.pos == 0 && path in files
      modifies this, r
      ensures files.Keys == old(files.Keys) && forall p :: p in files && p != path ==> files[p] == old(files[p])
      ensures result.WriteError? <==> Wanted(r, limit) > room
      ensures result.Copied? <==> Wanted(r, limit) <= room && ((|r.data| <= limit && !r.broken) || (probeStalls && |r.data| >= limit))
      ensures result.Truncated? <==> Wanted(r, limit) <= room && |r.data| > limit && !probeStalls
      ensures result.Copied? ==> result.hashed == r.data[..Wanted(r, limit)] && files[path] == old(files[path]) + result.hashed
    {
      var hashed: Content := [];
      var ended := false;
      assert old(files)[path] + hashed == old(files)[path];
      while |hashed| < limit && !ended
        invariant r.Valid() && hashed == r.data[..r.pos] && |hashed| <= limit && |hashed| <= room
        invariant files == old(files)[path := old(files)[path] + hashed]
        invariant ended ==> r.pos == |r.data| && (r.broken ==> |hashed| == limit)
        decreases limit - |hashed|, !ended
      {
        var chunk, status := r.Read(limit - |hashed|);
        if |hashed| + |chunk| > room {
          files := files[path := files[path] + chunk[..room - |hashed|]];
          return WriteError;
        }
        files := files[path := files[path] + chunk];
        hashed := hashed + chunk;
        assert old(files)[path] + r.data[..r.pos] == files[path];
        if status == Failed && |hashed| < limit {
          return ReadError;
        }
        ended := status != More;
      }
      if probeStalls && |hashed| == limit {
        return Copied(hashed);
      }
      var chunk, status := r.Read(1);
      if |chunk| > 0 {
        return Truncated;
      }
      if status == Failed {
        return ReadError;
      }
      return Copied(hashed);
    }

    /** What a download installs: the body cut at the cap, which is the whole body unless the probe stalls. */
    ghost predicate Acceptable(pins: map<string, string>, sha256: Content -> string, key: string, body: Reader,
                               limit: nat, room: nat, probeStalls: bool) {
      && Wanted(body, limit) <= room
      && ((|body.data| <= limit && !body.broken) || (probeStalls && |body.data| >= limit))
      && CompareHash(pins, key, sha256(body.data[..Wanted(body, limit)])) != Mismatch
    }

    /** One download: through a fresh temporary name, renamed only after the hash agrees. */
    method DownloadAndDecompress(pins: map<string, string>, sha256: Content -> string, key: string, body: Option<Reader>,
                                 limit: nat, room: nat, probeStalls: bool, tmp: nat, faults: set<Fault>) returns (ok: bool)
      requires Tmp(tmp) !in files && (body.Some? ==> body.value.Valid() && body.value.pos == 0)
      modifies this, (if body.Some? then {body.value} else {})
      ensures ok ==> body.Some? && Acceptable(pins, sha256, key, body.value, limit, room, probeStalls)
                     && files == old(files)[Dest(key) := body.value.data[..Wanted(body.value, limit)]]
      ensures !ok ==> files - {Tmp(tmp)} == old(files)
      ensures !ok && Remove !in faults ==> files == old(files)
      ensures faults == {} ==> (ok <==> body.Some? && Acceptable(pins, sha256, key, body.value, limit, room, probeStalls))
    {
      if body.None? || CreateTemp in faults {
        return false;
      }
      files := files[Tmp(tmp) := []];
      var result := WriteBoundedAndHash(Tmp(tmp), body.value, limit, room, probeStalls);
      assert files - {Tmp(tmp)} == old(files);
      if result.Copied? {
        assert files[Tmp(tmp)] == result.hashed;
        assert files == old(files)[Tmp(tmp) := result.hashed];
      }
      if result.Copied? && Close !in faults && CompareHash(pins, key, sha256(result.hashed)) != Mismatch && Rename !in faults {
        files := files[Dest(key) := files[Tmp(tmp)]] - {Tmp(tmp)};
        return true;
      }
      if Remove !in faults {
        files := files - {Tmp(tmp)};
      }
      return false;
    }

    /** Keep what is present and pinned, replace what is not. */
    method EnsureOne(pins: map<string, string>, sha256: Content -> string, key: string, body: Option<Reader>,
                     limit: nat, room: nat, probeStalls: bool, tmp: nat, faults: set<Fault>) returns (ok: bool)
      requires Tmp(tmp) !in files && (body.Some? ==> body.value.Valid() && body.value.pos == 0)
      modifies this, (if body.Some? then {body.value} else {})
      ensures Ensured(pins, sha256, key, old(files), files, ok)
      ensures ok && Pinned(pins, key) ==> sha256(files[Dest(key)]) == pins[key]
      ensures GoodAt(pins, sha256, key, old(files)) && Stat !in faults && Open !in faults ==> ok && files == old(files)
      ensures faults == {} ==> (ok <==> GoodAt(pins, sha256, key, old(files))
                                        || (body.Some? && Acceptable(pins, sha256, key, body.value, limit, room, probeStalls)))
      ensures ok && !GoodAt(pins, sha256, key, old(files)) ==>
                body.Some? && files[Dest(key)] == body.value.data[..Wanted(body.value, limit)]
      ensures forall p :: p != Dest(key) && p != Tmp(tmp) ==> (p in files <==> p in old(files)) && (p in files ==> files[p] == old(files)[p])
    {
      if Dest(key) in files && Stat !in faults {
        if Open !in faults && CompareHash(pins, key, sha256(files[Dest(key)])) != Mismatch {
          return true;
        }
        if Remove in faults {
          return false;
        }
        files := files - {Dest(key)};
      }
      ok := DownloadAndDecompress(pins, sha256, key, body, limit, room, probeStalls, tmp, faults);
    }
  }

  datatype Fault = Stat | Open | Remove | CreateTemp | Close | Rename

  // ----------------------------------------------- many processes, any schedule

  datatype Pc =
    | Start
    | Opening
    | Removing
    | Downloading
    | Writing(n: nat, hashed: Content)
    | Written(n: nat, hashed: Content)
    | Renaming(n: nat)
    | Discarding(n: nat)
    | Done(ok: bool)
    | Crashed

  datatype Process = Process(key: string, pc: Pc)

  datatype State = State(files: Files, procs: seq<Process>)

  datatype Step =
    | Spawn(key: string)
    | LookFor(p: nat, fails: bool)
    | Verify(p: nat, fails: bool)
    | RemoveStale(p: nat, fails: bool)
    | OpenTemp(p: nat, n: nat, fails: bool)
    | WriteChunk(p: nat, chunk: Content)
    | Finish(p: nat, fails: bool)
    | Judge(p: nat)
    | Install(p: nat, fails: bool)
    | Discard(p: nat, fails: bool)
    | Crash(p: nat)

  predicate Enabled(s: State, st: Step) {
    match st
    case Spawn(_) => true
    case LookFor(p, _) => p < |s.procs| && s.procs[p].pc.Start?
    case Verify(p, _) => p < |s.procs| && s.procs[p].pc.Opening?
    case RemoveStale(p, _) => p < |s.procs| && s.procs[p].pc.Removing?
    case OpenTemp(p, n, _) => p < |s.procs| && s.procs[p].pc.Downloading? && Tmp(n) !in s.files
    case WriteChunk(p, _) => p < |s.procs| && s.procs[p].pc.Writing? && Tmp(s.procs[p].pc.n) in s.files
    case Finish(p, _) => p < |s.procs| && s.procs[p].pc.Writing?
    case Judge(p) => p < |s.procs| && s.procs[p].pc.Written?
    case Install(p, _) => p < |s.procs| && s.procs[p].pc.Renaming? && Tmp(s.procs[p].pc.n) in s.files
    case Discard(p, _) => p < |s.procs| && s.procs[p].pc.Discarding?
    case Crash(p) => p < |s.procs|
  }

  function Goto(s: State, p: nat, pc: Pc): State
    requires p < |s.procs|
  {
    s.(procs := s.procs[p := s.procs[p].(pc := pc)])
  }

  function Apply(pins: map<string, string>, sha256: Content -> string, s: State, st: Step): State
    requires Enabled(s, st)
  {
    match st
    case Spawn(key) => s.(procs := s.procs + [Process(key, Start)])
    case LookFor(p, fails) => Goto(s, p, if Dest(s.procs[p].key) in s.files && !fails then Opening else Downloading)
    case Verify(p, fails) =>
      var dest := Dest(s.procs[p].key);
      var good := !fails && dest in s.files && CompareHash(pins, s.procs[p].key, sha256(s.files[dest])) != Mismatch;
      Goto(s, p, if good then Done(true) else Removing)
    case RemoveStale(p, fails) =>
      if fails then Goto(s, p, Done(false))
      else Goto(s, p, Downloading).(files := s.files - {Dest(s.procs[p].key)})
    case OpenTemp(p, n, fails) =>
      if fails then Goto(s, p, Done(false))
      else Goto(s, p, Writing(n, [])).(files := s.files[Tmp(n) := []])
    case WriteChunk(p, chunk) =>
      var pc := s.procs[p].pc;
      Goto(s, p, Writing(pc.n, pc.hashed + chunk)).(files := s.files[Tmp(pc.n) := s.files[Tmp(pc.n)] + chunk])
    case Finish(p, fails) =>
      var pc := s.procs[p].pc;
      Goto(s, p, if fails then Discarding(pc.n) else Written(pc.n, pc.hashed))
    case Judge(p) =>
      var pc := s.procs[p].pc;
      Goto(s, p, if CompareHash(pins, s.procs[p].key, sha256(pc.hashed)) == Mismatch then Discarding(pc.n) else Renaming(pc.n))
    case Install(p, fails) =>
      var n := s.procs[p].pc.n;
      if fails then Goto(s, p, Discarding(n))
      else Goto(s, p, Done(true)).(files := s.files[Dest(s.procs[p].key) := s.files[Tmp(n)]] - {Tmp(n)})
    case Discard(p, fails) =>
      Goto(s, p, Done(false)).(files := if fails then s.files else s.files - {Tmp(s.procs[p].pc.n)})
    case Crash(p) => Goto(s, p, Crashed)
  }

  function After(pins: map<string, string>, sha256: Content -> string, initial: Files, steps: seq<Step>): Option<State>
    decreases |steps|
  {
    if steps == [] then Some(State(initial, []))
    else
      match After(pins, sha256, initial, steps[..|steps| - 1])
      case None => None
      case Some(s) =>
        if Enabled(s, steps[|steps| - 1]) then Some(Apply(pins, sha256, s, steps[|steps| - 1])) else None
  }

  /** The temporary file a process is working on. */
  function Owned(pc: Pc): Option<nat> {
    match pc
    case Writing(n, _) => Some(n)
    case Written(n, _) => Some(n)
    case Renaming(n) => Some(n)
    case Discarding(n) => Some(n)
    case _ => None
  }

  /** A working process has its file to itself, holding exactly the bytes it has hashed. */
  ghost predicate ProcInv(pins: map<string, string>, sha256: Content -> string, files: Files, q: Process) {
    && (Owned(q.pc).Some? ==> Tmp(Owned(q.pc).value) in files)
    && (q.pc.Writing? || q.pc.Written? ==> files[Tmp(q.pc.n)] == q.pc.hashed)
    && (q.pc.Renaming? ==> CompareHash(pins, q.key, sha256(files[Tmp(q.pc.n)])) != Mismatch)
  }

  /** A pinned key's file is the initial one or has the pinned hash. */
  ghost predicate DestInv(pins: map<string, string>, sha256: Content -> string, initial: Files, files: Files) {
    forall key :: Pinned(pins, key) && Dest(key) in files ==>
      (Dest(key) in initial && files[Dest(key)] == initial[Dest(key)]) || sha256(files[Dest(key)]) == pins[key]
  }

  ghost predicate Inv(pins: map<string, string>, sha256: Content -> string, initial: Files, s: State) {
    && DestInv(pins, sha256, initial, s.files)
    && (forall p :: 0 <= p < |s.procs| ==> ProcInv(pins, sha256, s.files, s.procs[p]))
    && (forall p, q :: 0 <= p < q < |s.procs| && Owned(s.procs[p].pc).Some? ==> Owned(s.procs[p].pc) != Owned(s.procs[q].pc))
  }

  lemma DestKept(pins: map<string, string>, sha256: Content -> string, initial: Files, s: State, st: Step)
    requires Inv(pins, sha256, initial, s) && Enabled(s, st)
    ensures DestInv(pins, sha256, initial, Apply(pins, sha256, s, st).files)
  {
    if st.Install? {
      assert ProcInv(pins, sha256, s.files, s.procs[st.p]);
    }
  }

  /** Nobody else's file is touched. */
  lemma OthersFileKept(pins: map<string, string>, sha256: Content -> string, initial: Files, s: State, st: Step, q: nat)
    requires Inv(pins, sha256, initial, s) && Enabled(s, st) && !st.Spawn? && q < |s.procs| && q != st.p
    ensures Apply(pins, sha256, s, st).procs[q] == s.procs[q]
    ensures ProcInv(pins, sha256, Apply(pins, sha256, s, st).files, s.procs[q])
    ensures Owned(s.procs[q].pc).Some? ==> Owned(s.procs[q].pc) != Owned(Apply(pins, sha256, s, st).procs[st.p].pc)
  {
    assert ProcInv(pins, sha256, s.files, s.procs[q]);
    assert ProcInv(pins, sha256, s.files, s.procs[st.p]);
    hide DestInv, CompareHash;
  }

  lemma OwnFileKept(pins: map<string, string>, sha256: Content -> string, initial: Files, s: State, st: Step)
    requires Inv(pins, sha256, initial, s) && Enabled(s, st) && !st.Spawn?
    ensures var t := Apply(pins, sha256, s, st);
            |t.procs| == |s.procs| && ProcInv(pins, sha256, t.files, t.procs[st.p])
  {
    assert ProcInv(pins, sha256, s.files, s.procs[st.p]);
    hide DestInv;
  }

  lemma StepKeepsInv(pins: map<string, string>, sha256: Content -> string, initial: Files, s: State, st: Step)
    requires Inv(pins, sha256, initial, s) && Enabled(s, st)
    ensures Inv(pins, sha256, initial, Apply(pins, sha256, s, st))
  {
    DestKept(pins, sha256, initial, s, st);
    if !st.Spawn? {
      hide Apply, DestInv, ProcInv, Owned;
      OwnFileKept(pins, sha256, initial, s, st);
      forall q: nat | q < |s.procs| && q != st.p
        ensures Apply(pins, sha256, s, st).procs[q] == s.procs[q]
        ensures ProcInv(pins, sha256, Apply(pins, sha256, s, st).files, s.procs[q])
        ensures Owned(s.procs[q].pc).Some? ==> Owned(s.procs[q].pc) != Owned(Apply(pins, sha256, s, st).procs[st.p].pc)
      {
        OthersFileKept(pins, sha256, initial, s, st, q);
      }
    }
  }

  lemma {:induction false} EveryRun(pins: map<string, string>, sha256: Content -> string, initial: Files, steps: seq<Step>)
    requires After(pins, sha256, initial, steps).Some?
    ensures Inv(pins, sha256, initial, After(pins, sha256, initial, steps).value)
    decreases |steps|
  {
    if steps != [] {
      EveryRun(pins, sha256, initial, steps[..|steps| - 1]);
      StepKeepsInv(pins, sha256, initial, After(pins, sha256, initial, steps[..|steps| - 1]).value, steps[|steps| - 1]);
    }
  }

  /**
   Any number of processes, interleaved and stopped anywhere: a pinned key's file is
   absent, what was there at first, or content with the pinned hash; never a part.
   */
  lemma InstallSafety(pins: map<string, string>, sha256: Content -> string, initial: Files, steps: seq<Step>, key: string)
    requires After(pins, sha256, initial, steps).Some? && Pinned(pins, key)
    ensures var files := After(pins, sha256, initial, steps).value.files;
            || Dest(key) !in files
            || (Dest(key) in initial && files[Dest(key)] == initial[Dest(key)])
            || sha256(files[Dest(key)]) == pins[key]
  {
    EveryRun(pins, sha256, initial, steps);
  }

  // --------------------------------------------------------- one process alone

  function Run(pins: map<string, string>, sha256: Content -> string, s: State, steps: seq<Step>): Option<State>
    decreases |steps|
  {
    if steps == [] then Some(s)
    else if Enabled(s, steps[0]) then Run(pins, sha256, Apply(pins, sha256, s, steps[0]), steps[1..])
    else None
  }

  /** The files as they were, with or without the key's own. */
  predicate Base(key: string, initial: Files, base: Files) {
    base == initial || base == initial - {Dest(key)}
  }

  /** Where a lone process stands, in terms of the files it found. */
  ghost predicate LoneInv(pins: map<string, string>, sha256: Content -> string, key: string, initial: Files, s: State) {
    && |s.procs| == 1 && s.procs[0].key == key
    && match s.procs[0].pc
       case Start => s.files == initial
       case Opening => s.files == initial && Dest(key) in initial
       case Removing => s.files == initial && Dest(key) in initial
       case Downloading => Base(key, initial, s.files)
       case Writing(n, h) => WithTmp(key, initial, s.files, n, h)
       case Written(n, h) => WithTmp(key, initial, s.files, n, h)
       case Renaming(n) => Tmp(n) in s.files && WithTmp(key, initial, s.files, n, s.files[Tmp(n)])
                           && CompareHash(pins, key, sha256(s.files[Tmp(n)])) != Mismatch
       case Discarding(n) => Tmp(n) in s.files && WithTmp(key, initial, s.files, n, s.files[Tmp(n)])
       case Done(ok) => Ensured(pins, sha256, key, initial, s.files, ok)
       case Crashed => true
  }

  ghost predicate WithTmp(key: string, initial: Files, files: Files, n: nat, content: Content) {
    Tmp(n) !in initial && exists base: Files :: Base(key, initial, base) && files == base[Tmp(n) := content]
  }

  lemma LoneKept(pins: map<string, string>, sha256: Content -> string, key: string, initial: Files, s: State, st: Step)
    requires LoneInv(pins, sha256, key, initial, s) && Enabled(s, st) && !st.Spawn?
    ensures LoneInv(pins, sha256, key, initial, Apply(pins, sha256, s, st))
  {
    if st.LookFor? || st.Verify? || st.RemoveStale? || st.OpenTemp? || st.Crash? {
      LoneBeforeWriting(pins, sha256, key, initial, s, st);
    } else {
      LoneWriting(pins, sha256, key, initial, s, st);
    }
  }

  lemma LoneBeforeWriting(pins: map<string, string>, sha256: Content -> string, key: string, initial: Files, s: State, st: Step)
    requires LoneInv(pins, sha256, key, initial, s) && Enabled(s, st)
    requires st.LookFor? || st.Verify? || st.RemoveStale? || st.OpenTemp? || st.Crash?
    ensures LoneInv(pins, sha256, key, initial, Apply(pins, sha256, s, st))
  {
    hide CompareHash;
    if st.OpenTemp? && !st.fails {
      assert Apply(pins, sha256, s, st).files == s.files[Tmp(st.n) := []];
    }
  }

  lemma LoneWriting(pins: map<string, string>, sha256: Content -> string, key: string, initial: Files, s: State, st: Step)
    requires LoneInv(pins, sha256, key, initial, s) && Enabled(s, st)
    requires st.WriteChunk? || st.Finish? || st.Judge? || st.Install? || st.Discard?
    ensures LoneInv(pins, sha256, key, initial, Apply(pins, sha256, s, st))
  {
    hide CompareHash;
    var pc := s.procs[0].pc;
    if st.WriteChunk? {
      ChunkWritten(key, initial, s.files, pc.n, pc.hashed, pc.hashed + st.chunk);
    } else if st.Install? {
      Installed(pins, sha256, key, initial, s.files, pc.n);
    } else if st.Discard? {
      Discarded(pins, sha256, key, initial, s.files, pc.n);
    }
    hide WithTmp, Ensured, Base;
  }

  lemma ChunkWritten(key: string, initial: Files, files: Files, n: nat, content: Content, more: Content)
    requires WithTmp(key, initial, files, n, content)
    ensures Tmp(n) in files && files[Tmp(n)] == content && WithTmp(key, initial, files[Tmp(n) := more], n, more)
  {
    var base: Files :| Base(key, initial, base) && files == base[Tmp(n) := content];
    assert files[Tmp(n) := more] == base[Tmp(n) := more];
  }

  lemma Installed(pins: map<string, string>, sha256: Content -> string, key: string, initial: Files, files: Files, n: nat)
    requires Tmp(n) in files && WithTmp(key, initial, files, n, files[Tmp(n)])
    requires CompareHash(pins, key, sha256(files[Tmp(n)])) != Mismatch
    ensures Ensured(pins, sha256, key, initial, files[Dest(key) := files[Tmp(n)]] - {Tmp(n)}, true)
  {
    hide CompareHash;
    var base: Files :| Base(key, initial, base) && files == base[Tmp(n) := files[Tmp(n)]];
  }

  lemma Discarded(pins: map<string, string>, sha256: Content -> string, key: string, initial: Files, files: Files, n: nat)
    requires Tmp(n) in files && WithTmp(key, initial, files, n, files[Tmp(n)])
    ensures Ensured(pins, sha256, key, initial, files, false) && Ensured(pins, sha256, key, initial, files - {Tmp(n)}, false)
  {
    hide CompareHash;
    var base: Files :| Base(key, initial, base) && files == base[Tmp(n) := files[Tmp(n)]];
  }

  lemma {:induction false} LoneRun(pins: map<string, string>, sha256: Content -> string, key: string, initial: Files, s: State, steps: seq<Step>)
    requires LoneInv(pins, sha256, key, initial, s) && Run(pins, sha256, s, steps).Some?
    requires forall i :: 0 <= i < |steps| ==> !steps[i].Spawn?
    ensures LoneInv(pins, sha256, key, initial, Run(pins, sha256, s, steps).value)
    decreases |steps|
  {
    hide LoneInv, Apply, Enabled;
    if steps != [] {
      LoneKept(pins, sha256, key, initial, s, steps[0]);
      LoneRun(pins, sha256, key, initial, Apply(pins, sha256, s, steps[0]), steps[1..]);
    }
  }

  /** The machine's process, left alone, ends as the method's contract says. */
  lemma LoneProcessEnsures(pins: map<string, string>, sha256: Content -> string, key: string, initial: Files, steps: seq<Step>)
    requires forall i :: 0 <= i < |steps| ==> !steps[i].Spawn?
    requires Run(pins, sha256, State(initial, [Process(key, Start)]), steps).Some?
    ensures var t := Run(pins, sha256, State(initial, [Process(key, Start)]), steps).value;
            |t.procs| == 1 && (t.procs[0].pc.Done? ==> Ensured(pins, sha256, key, initial, t.files, t.procs[0].pc.ok))
  {
    LoneRun(pins, sha256, key, initial, State(initial, [Process(key, Start)]), steps);
  }

  /** A good file that can be read is left as it is. */
  ghost predicate Untouched(initial: Files, s: State) {
    s.files == initial && |s.procs| == 1
    && (s.procs[0].pc.Start? || s.procs[0].pc.Opening? || s.procs[0].pc == Done(true) || s.procs[0].pc.Crashed?)
  }

  lemma {:induction false} LoneProcessKeepsGood(pins: map<string, string>, sha256: Content -> string, key: string, initial: Files, s: State, steps: seq<Step>)
    requires GoodAt(pins, sha256, key, initial) && Untouched(initial, s) && s.procs[0].key == key
    requires forall i :: 0 <= i < |steps| ==> !steps[i].Spawn? && steps[i] != LookFor(0, true) && steps[i] != Verify(0, true)
    requires Run(pins, sha256, s, steps).Some?
    ensures Untouched(initial, Run(pins, sha256, s, steps).value)
    decreases |steps|
  {
    hide CompareHash;
    if steps != [] {
      LoneProcessKeepsGood(pins, sha256, key, initial, Apply(pins, sha256, s, steps[0]), steps[1..]);
    }
  }

  // ------------------------------------------------ a lone process without faults

  predicate Faultless(st: Step) {
    match st
    case LookFor(_, fails) => !fails
    case Verify(_, fails) => !fails
    case RemoveStale(_, fails) => !fails
    case OpenTemp(_, _, fails) => !fails
    case Finish(_, fails) => !fails
    case Install(_, fails) => !fails
    case Discard(_, fails) => !fails
    case Crash(_) => false
    case Spawn(_) => false
    case WriteChunk(_, _) => true
    case Judge(_) => true
  }

  /** The bytes that were written, in order. */
  function BytesWritten(steps: seq<Step>): Content {
    if steps == [] then []
    else (if steps[0].WriteChunk? then steps[0].chunk else []) + BytesWritten(steps[1..])
  }

  /** The key's own file gone, the temporary one holding these bytes. */
  predicate Halfway(key: string, initial: Files, files: Files, n: nat, content: Content) {
    Tmp(n) !in initial && files == (initial - {Dest(key)})[Tmp(n) := content]
  }

  /** Where a lone process that nothing fails stands, after writing these bytes. */
  ghost predicate Exactly(pins: map<string, string>, sha256: Content -> string, key: string, initial: Files, written: Content, s: State) {
    var good := GoodAt(pins, sha256, key, initial);
    var fine := CompareHash(pins, key, sha256(written)) != Mismatch;
    && |s.procs| == 1 && s.procs[0].key == key
    && match s.procs[0].pc
       case Start => s.files == initial && written == []
       case Opening => s.files == initial && Dest(key) in initial && written == []
       case Removing => s.files == initial && !good && written == []
       case Downloading => s.files == initial - {Dest(key)} && !good && written == []
       case Writing(n, h) => !good && h == written && Halfway(key, initial, s.files, n, written)
       case Written(n, h) => !good && h == written && Halfway(key, initial, s.files, n, written)
       case Renaming(n) => !good && fine && Halfway(key, initial, s.files, n, written)
       case Discarding(n) => !good && !fine && Halfway(key, initial, s.files, n, written)
       case Done(ok) => EndsExactly(pins, sha256, key, initial, written, s.files, ok)
       case Crashed => false
  }

  /** A good file stays; otherwise the bytes are installed if their hash agrees, and the stale file is gone in any case. */
  ghost predicate EndsExactly(pins: map<string, string>, sha256: Content -> string, key: string, initial: Files, written: Content, files: Files, ok: bool) {
    if GoodAt(pins, sha256, key, initial) then ok && files == initial && written == []
    else
      && (ok <==> CompareHash(pins, key, sha256(written)) != Mismatch)
      && files == if ok then initial[Dest(key) := written] else initial - {Dest(key)}
  }

  lemma HalfwayEnds(key: string, initial: Files, files: Files, n: nat, content: Content)
    requires Halfway(key, initial, files, n, content)
    ensures Tmp(n) in files && files[Tmp(n)] == content
    ensures files[Dest(key) := content] - {Tmp(n)} == initial[Dest(key) := content]
    ensures files - {Tmp(n)} == initial - {Dest(key)}
  {
  }

  lemma HalfwayGrows(key: string, initial: Files, files: Files, n: nat, content: Content, more: Content)
    requires Halfway(key, initial, files, n, content)
    ensures Halfway(key, initial, files[Tmp(n) := more], n, more)
  {
    assert files[Tmp(n) := more] == (initial - {Dest(key)})[Tmp(n) := more];
  }

  lemma ExactlyKept(pins: map<string, string>, sha256: Content -> string, key: string, initial: Files, written: Content, s: State, st: Step)
    requires Exactly(pins, sha256, key, initial, written, s) && Enabled(s, st) && Faultless(st)
    ensures Exactly(pins, sha256, key, initial, written + (if st.WriteChunk? then st.chunk else []), Apply(pins, sha256, s, st))
  {
    var pc := s.procs[0].pc;
    assert written + [] == written;
    if pc.Writing? || pc.Written? || pc.Renaming? || pc.Discarding? {
      HalfwayEnds(key, initial, s.files, pc.n, written);
      if st.WriteChunk? {
        HalfwayGrows(key, initial, s.files, pc.n, written, written + st.chunk);
      }
      hide Halfway, CompareHash;
    } else {
      hide CompareHash;
      if pc.Downloading? {
        assert st.OpenTemp?;
        assert Apply(pins, sha256, s, st).files == (initial - {Dest(key)})[Tmp(st.n) := []];
      }
    }
  }

  lemma {:induction false} ExactlyRun(pins: map<string, string>, sha256: Content -> string, key: string, initial: Files, written: Content, s: State, steps: seq<Step>)
    requires Exactly(pins, sha256, key, initial, written, s) && Run(pins, sha256, s, steps).Some?
    requires forall i :: 0 <= i < |steps| ==> Faultless(steps[i])
    ensures Exactly(pins, sha256, key, initial, written + BytesWritten(steps), Run(pins, sha256, s, steps).value)
    decreases |steps|
  {
    hide Exactly, Apply, Enabled, Faultless;
    if steps == [] {
      assert written + [] == written;
    } else {
      var more := if steps[0].WriteChunk? then steps[0].chunk else [];
      ExactlyKept(pins, sha256, key, initial, written, s, steps[0]);
      ExactlyRun(pins, sha256, key, initial, written + more, Apply(pins, sha256, s, steps[0]), steps[1..]);
      assert written + more + BytesWritten(steps[1..]) == written + BytesWritten(steps);
    }
  }

  /**
   A lone process that nothing fails, and that ends, keeps a good file, and otherwise
   installs exactly the bytes it wrote if and only if their hash agrees with the pin.
   */
  lemma LoneProcessDecides(pins: map<string, string>, sha256: Content -> string, key: string, initial: Files, steps: seq<Step>)
    requires forall i :: 0 <= i < |steps| ==> Faultless(steps[i])
    requires Run(pins, sha256, State(initial, [Process(key, Start)]), steps).Some?
    ensures var t := Run(pins, sha256, State(initial, [Process(key, Start)]), steps).value;
            |t.procs| == 1
            && (t.procs[0].pc.Done? ==> EndsExactly(pins, sha256, key, initial, BytesWritten(steps), t.files, t.procs[0].pc.ok))
  {
    ExactlyRun(pins, sha256, key, initial, [], State(initial, [Process(key, Start)]), steps);
    assert [] + BytesWritten(steps) == BytesWritten(steps);
  }

  lemma OneStep(pins: map<string, string>, sha256: Content -> string, s: State, st: Step, rest: seq<Step>)
    requires Enabled(s, st)
    ensures Run(pins, sha256, s, [st] + rest) == Run(pins, sha256, Apply(pins, sha256, s, st), rest)
  {
    hide Apply, Enabled;
    assert ([st] + rest)[1..] == rest;
  }

  /** How far a process is from its end. */
  function Distance(pc: Pc): nat {
    match pc
    case Start => 8
    case Opening => 7
    case Removing => 6
    case Downloading => 5
    case Writing(_, h) => if h == [] then 4 else 3
    case Written(_, _) => 2
    case Renaming(_) => 1
    case Discarding(_) => 1
    case Done(_) => 0
    case Crashed => 0
  }

  function Next(pc: Pc, n: nat, content: Content): Step
    requires !pc.Done? && !pc.Crashed?
  {
    match pc
    case Start => LookFor(0, false)
    case Opening => Verify(0, false)
    case Removing => RemoveStale(0, false)
    case Downloading => OpenTemp(0, n, false)
    case Writing(_, h) => if h == [] && content != [] then WriteChunk(0, content) else Finish(0, false)
    case Written(_, _) => Judge(0)
    case Renaming(_) => Install(0, false)
    case Discarding(_) => Discard(0, false)
  }

  /** What is still to be written. */
  function ToWrite(pc: Pc, content: Content): Content {
    match pc
    case Writing(_, h) => if h == [] then content else []
    case Written(_, _) => []
    case Renaming(_) => []
    case Discarding(_) => []
    case Done(_) => []
    case Crashed => []
    case _ => content
  }

  lemma NextMoves(pins: map<string, string>, sha256: Content -> string, key: string, initial: Files, written: Content, s: State, n: nat, content: Content)
    requires Exactly(pins, sha256, key, initial, written, s) && Tmp(n) !in initial && !s.procs[0].pc.Done?
    ensures var st := Next(s.procs[0].pc, n, content);
            && Enabled(s, st) && Faultless(st)
            && var t := Apply(pins, sha256, s, st);
               && |t.procs| == 1 && Distance(t.procs[0].pc) < Distance(s.procs[0].pc)
               && (!GoodAt(pins, sha256, key, initial) ==>
                     (if st.WriteChunk? then st.chunk else []) + ToWrite(t.procs[0].pc, content) == ToWrite(s.procs[0].pc, content))
  {
    hide CompareHash;
  }

  lemma {:induction false} Finishes(pins: map<string, string>, sha256: Content -> string, key: string, initial: Files, written: Content, s: State, n: nat, content: Content)
    returns (steps: seq<Step>)
    requires Exactly(pins, sha256, key, initial, written, s) && Tmp(n) !in initial
    ensures (forall i :: 0 <= i < |steps| ==> Faultless(steps[i])) && Run(pins, sha256, s, steps).Some?
    ensures var t := Run(pins, sha256, s, steps).value; |t.procs| == 1 && t.procs[0].pc.Done?
    ensures !GoodAt(pins, sha256, key, initial) ==> BytesWritten(steps) == ToWrite(s.procs[0].pc, content)
    decreases Distance(s.procs[0].pc)
  {
    if s.procs[0].pc.Done? {
      steps := [];
    } else {
      var st := Next(s.procs[0].pc, n, content);
      NextMoves(pins, sha256, key, initial, written, s, n, content);
      ExactlyKept(pins, sha256, key, initial, written, s, st);
      hide Apply, Enabled, Faultless, GoodAt, ToWrite, Next;
      var rest := Finishes(pins, sha256, key, initial, written + (if st.WriteChunk? then st.chunk else []), Apply(pins, sha256, s, st), n, content);
      steps := [st] + rest;
      OneStep(pins, sha256, s, st, rest);
      assert steps[1..] == rest;
    }
  }

  /** Any bytes whose hash agrees get installed by some run of a lone process, unless a good file is there already. */
  lemma LoneProcessInstalls(pins: map<string, string>, sha256: Content -> string, key: string, initial: Files, n: nat, content: Content)
    returns (steps: seq<Step>)
    requires Tmp(n) !in initial && CompareHash(pins, key, sha256(content)) != Mismatch
    ensures Run(pins, sha256, State(initial, [Process(key, Start)]), steps).Some?
    ensures var t := Run(pins, sha256, State(initial, [Process(key, Start)]), steps).value;
            && |t.procs| == 1 && t.procs[0].pc == Done(true)
            && t.files == if GoodAt(pins, sha256, key, initial) then initial else initial[Dest(key) := content]
  {
    hide CompareHash, Run;
    steps := Finishes(pins, sha256, key, initial, [], State(initial, [Process(key, Start)]), n, content);
    LoneProcessDecides(pins, sha256, key, initial, steps);
  }
}
