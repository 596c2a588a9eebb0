/** The cache of the official model catalog: callers look, take a lock, look again, fetch, and let a disk
    worker write, which takes the lock over. Any caller may be cancelled at any moment. */
module CatalogCache {
  import opened Text

  type CacheKey = nat
  type Version = nat
  type Caller = nat

  /** `stamp` is `fetched_at`, absent when it is missing or cannot be read. */
  datatype Snapshot = Snapshot(version: Version, stamp: Option<int>, body: nat)

  /** A cache file; one that cannot be parsed or validated is as good as none. */
  datatype File = Junk | Valid(snapshot: Snapshot)

  const TTL: int := 300

  /** `load_compatible_official_snapshot`, of a file that could be read. */
  function Compatible(file: File, version: Version): Option<Snapshot> {
    if file.Valid? && file.snapshot.version == version then Some(file.snapshot) else None
  }

  predicate Fresh(snapshot: Option<Snapshot>, now: int) {
    snapshot.Some? && snapshot.value.stamp.Some? && now - snapshot.value.stamp.value <= TTL
  }

  /** How a call got what it returns. */
  datatype Served =
    | Cached(snapshot: Snapshot, checkedAt: int)
    | Fetched(snapshot: Snapshot)
    | Stale(snapshot: Snapshot)
    | Error

  /** Where the future of a call stands. `blind` says that the second look could not read the file. */
  datatype Pc =
    | Looking(since: int)
    | Waiting
    | Holding
    | Fetching(cached: Option<Snapshot>, blind: bool)
    | Handing(body: nat, blind: bool)
    | Awaiting
    | Done(served: Served)
    | Gone

  datatype Worker =
    | NoWorker
    | Building(body: nat, blind: bool)
    | Writing(snapshot: Snapshot, blind: bool)
    | Finished(served: Served)

  datatype Call = Call(key: CacheKey, version: Version, pc: Pc, worker: Worker) {
    predicate HasLock() {
      pc.Holding? || pc.Fetching? || pc.Handing? || worker.Building? || worker.Writing?
    }

    predicate IsBlind() {
      (pc.Fetching? && pc.blind) || (pc.Handing? && pc.blind) || (worker.Building? && worker.blind)
        || (worker.Writing? && worker.blind)
    }

    /** The second look was taken, and the answer was to fetch. */
    predicate Refreshes() {
      pc.Fetching? || pc.Handing? || worker.Building? || worker.Writing?
    }
  }

  datatype Event =
    | Committed(key: CacheKey, snapshot: Snapshot, caller: Caller, blind: bool)
    | FetchFailed(caller: Caller)

  datatype State = State(now: int, files: map<CacheKey, File>, locked: bool, calls: map<Caller, Call>, log: seq<Event>)

  function Init(now: int, files: map<CacheKey, File>): State {
    State(now, files, false, map[], [])
  }

  function FileOf(files: map<CacheKey, File>, key: CacheKey): File {
    if key in files then files[key] else Junk
  }

  /** `readable` says whether a look can read the file; `body` is what the server answers, if it does; `ok`
      says whether the answer is valid, or the write succeeds. */
  datatype Step =
    | Arrive(c: Caller, key: CacheKey, version: Version)
    | Look(c: Caller, readable: bool)
    | Lock(c: Caller)
    | LookAgain(c: Caller, readable: bool)
    | Fetch(c: Caller, body: Option<nat>)
    | Hand(c: Caller)
    | Build(c: Caller, ok: bool)
    | Write(c: Caller, ok: bool)
    | Return(c: Caller)
    | Cancel(c: Caller)
    | Tick(seconds: int)

  predicate Enabled(s: State, step: Step) {
    if step.Arrive? then step.c !in s.calls
    else if step.Tick? then step.seconds > 0
    else
      step.c in s.calls
      && var call := s.calls[step.c];
         match step
         case Look(_, _) => call.pc.Looking?
         case Lock(_) => call.pc.Waiting? && !s.locked
         case LookAgain(_, _) => call.pc.Holding?
         case Fetch(_, _) => call.pc.Fetching?
         case Hand(_) => call.pc.Handing?
         case Build(_, _) => call.worker.Building?
         case Write(_, _) => call.worker.Writing?
         case Return(_) => call.pc.Awaiting? && call.worker.Finished?
         case Cancel(_) => !call.pc.Done? && !call.pc.Gone?
         case _ => false
  }

  function With(s: State, c: Caller, call: Call): State {
    s.(calls := s.calls[c := call])
  }

  function Found(s: State, call: Call, readable: bool): Option<Snapshot> {
    if readable then Compatible(FileOf(s.files, call.key), call.version) else None
  }

  /** The future ends, and with it the lease, unless that moved to the worker. */
  function Ended(s: State, c: Caller, pc: Pc): State
    requires c in s.calls
  {
    var future := s.calls[c].pc;
    With(s, c, s.calls[c].(pc := pc)).(locked := s.locked && !(future.Holding? || future.Fetching? || future.Handing?))
  }

  function Written(s: State, c: Caller): State
    requires c in s.calls && s.calls[c].worker.Writing?
  {
    var call, snapshot := s.calls[c], s.calls[c].worker.snapshot;
    var committed := Committed(call.key, snapshot, c, call.worker.blind);
    With(s, c, call.(worker := Finished(Fetched(snapshot))))
      .(files := s.files[call.key := Valid(snapshot)], locked := false, log := s.log + [committed])
  }

  function Next(s: State, step: Step): State
    requires Enabled(s, step)
  {
    if step.Arrive? then With(s, step.c, Call(step.key, step.version, Looking(s.now), NoWorker))
    else if step.Tick? then s.(now := s.now + step.seconds)
    else
      var c, call := step.c, s.calls[step.c];
      match step
      case Look(_, readable) =>
        var found := Found(s, call, readable);
        With(s, c,
             call.(pc := if Fresh(found, call.pc.since) then Done(Cached(found.value, call.pc.since)) else Waiting))
      case Lock(_) => With(s, c, call.(pc := Holding)).(locked := true)
      case LookAgain(_, readable) =>
        var found := Found(s, call, readable);
        if Fresh(found, s.now) then Ended(s, c, Done(Cached(found.value, s.now)))
        else With(s, c, call.(pc := Fetching(found, !readable)))
      case Fetch(_, body) =>
        if body.Some? then With(s, c, call.(pc := Handing(body.value, call.pc.blind)))
        else
          Ended(s, c, Done(if call.pc.cached.Some? then Stale(call.pc.cached.value)
                           else Error)).(log := s.log + [FetchFailed(c)])
      case Hand(_) => With(s, c, call.(pc := Awaiting, worker := Building(call.pc.body, call.pc.blind)))
      case Build(_, ok) =>
        if ok then With(s, c, call.(worker :=
                                    Writing(Snapshot(call.version, Some(s.now), call.worker.body), call.worker.blind)))
        else With(s, c, call.(worker := Finished(Error))).(locked := false)
      case Write(_, ok) => if ok then Written(s, c) else With(s, c, call.(worker := Finished(Error))).(locked := false)
      case Return(_) => With(s, c, call.(pc := Done(call.worker.served)))
      case Cancel(_) => Ended(s, c, Gone)
  }

  function Run(s: State, steps: seq<Step>): Option<State> {
    if steps == [] then Some(s)
    else
      var before, step := Run(s, steps[..|steps| - 1]), steps[|steps| - 1];
      if before.Some? && Enabled(before.value, step) then Some(Next(before.value, step)) else None
  }

  // ----- the lock -----

  predicate PlaceMatches(call: Call) {
    && (call.pc.Looking? || call.pc.Waiting? || call.pc.Holding? || call.pc.Fetching? || call.pc.Handing? ==>
        call.worker.NoWorker?)
    && (call.pc.Awaiting? ==> !call.worker.NoWorker?)
  }

  /** One call at a time has the lock, through its future or through its worker. */
  ghost predicate LockMatches(s: State) {
    && (forall c :: c in s.calls ==> PlaceMatches(s.calls[c]))
    && (forall c :: c in s.calls && s.calls[c].HasLock() ==> s.locked)
    && (forall c, d :: c in s.calls && d in s.calls && s.calls[c].HasLock() && s.calls[d].HasLock() ==> c == d)
  }

  lemma StepKeepsLock(s: State, step: Step)
    requires LockMatches(s) && Enabled(s, step)
    ensures LockMatches(Next(s, step))
  {
  }

  // ----- refreshes are spaced -----

  /** What the commits of a log leave in a cache file. */
  function Replayed(files: map<CacheKey, File>, log: seq<Event>, key: CacheKey): File {
    if log == [] then FileOf(files, key)
    else
      var last := log[|log| - 1];
      if last.Committed? && last.key == key then Valid(last.snapshot) else Replayed(files, log[..|log| - 1], key)
  }

  predicate LongAfter(stamp: Option<int>, snapshot: Option<Snapshot>) {
    stamp.Some? && (snapshot.Some? && snapshot.value.stamp.Some? ==> stamp.value - snapshot.value.stamp.value > TTL)
  }

  /** Whoever refreshes, and could read the file, has the lock and a file that is no longer fresh. */
  predicate Justified(s: State, call: Call) {
    var found := Compatible(FileOf(s.files, call.key), call.version);
    && (call.Refreshes() && !call.IsBlind() ==> LongAfter(Some(s.now), found))
    && (call.worker.Writing? ==> call.worker.snapshot.version == call.version && call.worker.snapshot.stamp.Some?)
    && (call.worker.Writing? && !call.worker.blind ==> LongAfter(call.worker.snapshot.stamp, found))
  }

  ghost predicate AllJustified(s: State) {
    forall c :: c in s.calls ==> Justified(s, s.calls[c])
  }

  /** A commit comes long after the snapshot that it replaces, if that is of the same version. */
  predicate SpacedAt(files: map<CacheKey, File>, log: seq<Event>, j: nat)
    requires j < |log|
  {
    log[j].Committed? && !log[j].blind ==>
      LongAfter(log[j].snapshot.stamp, Compatible(Replayed(files, log[..j], log[j].key), log[j].snapshot.version))
  }

  ghost predicate LogMatches(files: map<CacheKey, File>, s: State) {
    && (forall key :: FileOf(s.files, key) == Replayed(files, s.log, key))
    && (forall j :: 0 <= j < |s.log| ==> SpacedAt(files, s.log, j))
    && (forall j :: 0 <= j < |s.log| && s.log[j].Committed? ==> s.log[j].snapshot.stamp.Some?)
  }

  lemma OthersStayJustified(s: State, step: Step, d: Caller)
    requires LockMatches(s) && AllJustified(s) && Enabled(s, step) && d in s.calls && (step.Tick? || step.c != d)
    ensures Justified(Next(s, step), s.calls[d])
  {
    assert Justified(s, s.calls[d]);
  }

  lemma OwnStaysJustified(s: State, step: Step)
    requires LockMatches(s) && AllJustified(s) && Enabled(s, step) && !step.Tick?
    ensures Justified(Next(s, step), Next(s, step).calls[step.c])
  {
    if !step.Arrive? {
      assert Justified(s, s.calls[step.c]);
    }
  }

  lemma StepKeepsJustified(s: State, step: Step)
    requires LockMatches(s) && AllJustified(s) && Enabled(s, step)
    ensures AllJustified(Next(s, step))
  {
    var t := Next(s, step);
    forall d | d in t.calls ensures Justified(t, t.calls[d]) {
      if !step.Tick? && d == step.c {
        OwnStaysJustified(s, step);
      } else {
        OthersStayJustified(s, step, d);
      }
    }
  }

  lemma Appended(files: map<CacheKey, File>, s: State, t: State, event: Event)
    requires LogMatches(files, s) && t.log == s.log + [event]
    requires event.Committed? ==> event.snapshot.stamp.Some? && t.files == s.files[event.key := Valid(event.snapshot)]
    requires event.Committed? && !event.blind ==>
               LongAfter(event.snapshot.stamp, Compatible(FileOf(s.files, event.key), event.snapshot.version))
    requires event.FetchFailed? ==> t.files == s.files
    ensures LogMatches(files, t)
  {
    assert t.log[..|s.log|] == s.log;
    forall j | 0 <= j < |t.log| ensures SpacedAt(files, t.log, j) {
      assert t.log[..j] == s.log[..j];
      assert j < |s.log| ==> SpacedAt(files, s.log, j);
    }
    forall key ensures FileOf(t.files, key) == Replayed(files, t.log, key) {
      assert FileOf(s.files, key) == Replayed(files, s.log, key);
    }
  }

  lemma StepKeepsLog(files: map<CacheKey, File>, s: State, step: Step)
    requires LockMatches(s) && AllJustified(s) && LogMatches(files, s) && Enabled(s, step)
    ensures LogMatches(files, Next(s, step))
  {
    var t := Next(s, step);
    if step.Write? && step.ok {
      assert Justified(s, s.calls[step.c]);
      Appended(files, s, t, t.log[|s.log|]);
    } else if step.Fetch? && step.body.None? {
      Appended(files, s, t, FetchFailed(step.c));
    }
  }

  // ----- where a served snapshot comes from -----

  predicate WasCommitted(log: seq<Event>, key: CacheKey, snapshot: Snapshot) {
    exists j :: 0 <= j < |log| && log[j].Committed? && log[j].key == key && log[j].snapshot == snapshot
  }

  predicate FromFile(files: map<CacheKey, File>, log: seq<Event>, call: Call, snapshot: Snapshot) {
    snapshot.version == call.version
      && (FileOf(files, call.key) == Valid(snapshot) || WasCommitted(log, call.key, snapshot))
  }

  predicate Provenance(files: map<CacheKey, File>, log: seq<Event>, c: Caller, call: Call, served: Served) {
    match served
    case Cached(snapshot, at) => FromFile(files, log, call, snapshot) && Fresh(Some(snapshot), at)
    case Fetched(snapshot) =>
      snapshot.version == call.version && exists blind :: Committed(call.key, snapshot, c, blind) in log
    case Stale(snapshot) => FromFile(files, log, call, snapshot) && FetchFailed(c) in log
    case Error => true
  }

  ghost predicate Traced(files: map<CacheKey, File>, s: State, c: Caller)
    requires c in s.calls
  {
    var call := s.calls[c];
    && (call.pc.Done? ==> Provenance(files, s.log, c, call, call.pc.served))
    && (call.worker.Finished? ==> Provenance(files, s.log, c, call, call.worker.served))
    && (call.pc.Fetching? && call.pc.cached.Some? ==> FromFile(files, s.log, call, call.pc.cached.value))
  }

  lemma LongerLog(log: seq<Event>, longer: seq<Event>)
    requires log <= longer
    ensures forall key, snapshot :: WasCommitted(log, key, snapshot) ==> WasCommitted(longer, key, snapshot)
    ensures forall e :: e in log ==> e in longer
  {
    forall key, snapshot | WasCommitted(log, key, snapshot) ensures WasCommitted(longer, key, snapshot) {
      var j :| 0 <= j < |log| && log[j].Committed? && log[j].key == key && log[j].snapshot == snapshot;
      assert longer[j] == log[j];
    }
  }

  lemma ProvenanceStays(files: map<CacheKey, File>, s: State, t: State, c: Caller)
    requires c in s.calls && c in t.calls && t.calls[c] == s.calls[c] && Traced(files, s, c)
    requires s.log <= t.log
    ensures Traced(files, t, c)
  {
    LongerLog(s.log, t.log);
  }

  lemma {:induction false} FileIsKnown(files: map<CacheKey, File>, log: seq<Event>, key: CacheKey)
    requires Replayed(files, log, key).Valid?
    ensures var snapshot := Replayed(files, log, key).snapshot;
            FileOf(files, key) == Valid(snapshot) || WasCommitted(log, key, snapshot)
  {
    if log != [] {
      var last := log[|log| - 1];
      if !(last.Committed? && last.key == key) {
        FileIsKnown(files, log[..|log| - 1], key);
        LongerLog(log[..|log| - 1], log);
      }
    }
  }

  lemma OwnIsTraced(files: map<CacheKey, File>, s: State, step: Step)
    requires LockMatches(s) && LogMatches(files, s) && AllJustified(s) && Enabled(s, step) && !step.Tick?
    requires step.Arrive? || Traced(files, s, step.c)
    ensures Traced(files, Next(s, step), step.c)
  {
    var t := Next(s, step);
    LongerLog(s.log, t.log);
    if step.Look? || step.LookAgain? {
      var key := s.calls[step.c].key;
      assert FileOf(s.files, key) == Replayed(files, s.log, key);
      if FileOf(s.files, key).Valid? {
        FileIsKnown(files, s.log, key);
      }
    } else if step.Write? && step.ok {
      assert Justified(s, s.calls[step.c]);
      assert t.log[|s.log|] in t.log;
    }
  }

  // ----- the main results: every interleaving of callers, workers and cancellations -----

  ghost predicate AllTraced(files: map<CacheKey, File>, s: State) {
    forall c :: c in s.calls ==> Traced(files, s, c)
  }

  lemma StepKeepsTraced(files: map<CacheKey, File>, s: State, step: Step)
    requires LockMatches(s) && LogMatches(files, s) && AllJustified(s) && AllTraced(files, s) && Enabled(s, step)
    ensures AllTraced(files, Next(s, step))
  {
    var t := Next(s, step);
    forall d | d in t.calls ensures Traced(files, t, d) {
      if !step.Tick? && d == step.c {
        OwnIsTraced(files, s, step);
      } else {
        ProvenanceStays(files, s, t, d);
      }
    }
  }

  lemma {:induction false} RunsMatch(now: int, files: map<CacheKey, File>, steps: seq<Step>)
    requires Run(Init(now, files), steps).Some?
    ensures var s := Run(Init(now, files), steps).value;
            LockMatches(s) && AllJustified(s) && LogMatches(files, s) && AllTraced(files, s)
  {
    if steps != [] {
      var before, step := Run(Init(now, files), steps[..|steps| - 1]).value, steps[|steps| - 1];
      RunsMatch(now, files, steps[..|steps| - 1]);
      StepKeepsLock(before, step);
      StepKeepsJustified(before, step);
      StepKeepsLog(files, before, step);
      StepKeepsTraced(files, before, step);
    }
  }

  /** From the commit `i` on, the key's file was only written for one version, by callers that had read it. */
  ghost predicate OneVersion(log: seq<Event>, i: nat, j: nat)
    requires i < j < |log| && log[i].Committed?
  {
    forall k :: i < k <= j && log[k].Committed? && log[k].key == log[i].key ==>
      !log[k].blind && log[k].snapshot.version == log[i].snapshot.version
  }

  /** The last commit to a key before `j`, when there is one at `i`. */
  lemma {:induction false} PreviousCommit(files: map<CacheKey, File>, log: seq<Event>, i: nat, j: nat) returns (p: nat)
    requires i < j <= |log| && log[i].Committed?
    ensures i <= p < j && log[p].Committed? && log[p].key == log[i].key
    ensures Replayed(files, log[..j], log[i].key) == Valid(log[p].snapshot)
  {
    assert log[..j][..j - 1] == log[..j - 1];
    if log[j - 1].Committed? && log[j - 1].key == log[i].key {
      p := j - 1;
    } else {
      p := PreviousCommit(files, log, i, j - 1);
    }
  }

  lemma {:induction false} SpacedLog(files: map<CacheKey, File>, log: seq<Event>, i: nat, j: nat)
    requires i < j < |log| && log[i].Committed? && log[j].Committed? && log[i].key == log[j].key
    requires OneVersion(log, i, j)
    requires forall k :: 0 <= k < |log| ==> SpacedAt(files, log, k)
    requires forall k :: 0 <= k < |log| && log[k].Committed? ==> log[k].snapshot.stamp.Some?
    ensures log[j].snapshot.stamp.value - log[i].snapshot.stamp.value > TTL
    decreases j
  {
    var p := PreviousCommit(files, log, i, j);
    assert SpacedAt(files, log, j);
    if p > i {
      SpacedLog(files, log, i, p);
    }
  }

  /** Two snapshots committed for one key carry stamps more than the time to live apart, as long as the key
      was used with one version and the second looks could read the file. */
  lemma CommitsAreSpaced(now: int, files: map<CacheKey, File>, steps: seq<Step>, i: nat, j: nat)
    requires Run(Init(now, files), steps).Some?
    requires i < j < |Run(Init(now, files), steps).value.log|
    requires var log := Run(Init(now, files), steps).value.log;
             && log[i].Committed? && log[j].Committed? && log[i].key == log[j].key && OneVersion(log, i, j)
    ensures var log := Run(Init(now, files), steps).value.log;
            && log[i].snapshot.stamp.Some? && log[j].snapshot.stamp.Some?
            && log[j].snapshot.stamp.value - log[i].snapshot.stamp.value > TTL
  {
    RunsMatch(now, files, steps);
    SpacedLog(files, Run(Init(now, files), steps).value.log, i, j);
  }

  /** What a call returns is of its version and comes from its key's file, fresh when it was looked at; or it
      was fetched and committed by the call itself; or it is a stale one after a fetch of its own failed. */
  lemma ServedIsTraced(now: int, files: map<CacheKey, File>, steps: seq<Step>, c: Caller)
    requires Run(Init(now, files), steps).Some?
    requires c in Run(Init(now, files), steps).value.calls && Run(Init(now, files), steps).value.calls[c].pc.Done?
    ensures var s := Run(Init(now, files), steps).value;
            Provenance(files, s.log, c, s.calls[c], s.calls[c].pc.served)
  {
    RunsMatch(now, files, steps);
    assert Traced(files, Run(Init(now, files), steps).value, c);
  }
}
