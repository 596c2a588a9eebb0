/** Repairing a profile's history: plan, make a backup directory, and then back up and change the session
    files, the state database and the session index one after the other, whatever fails on the way. */
module HistoryRepair {
  import opened Text
  import Passes = Lists
  import opened RolloutPatch
  import opened SessionIndex
  import opened HistoryPruning

  type Path = string

  /** The state database, as far as its `threads` table matters; the threads are in the order of their ids. */
  datatype Db = Db(hasId: bool, hasProvider: bool, threads: seq<Thread>)

  /** What a backup directory holds. */
  datatype Backup = Backup(rollouts: map<Path, string>, db: Option<Db>, index: Option<string>)

  /** The history files, and the backup directory of the current run once there is one. */
  datatype World = World(rollouts: map<Path, string>, db: Option<Db>, index: Option<string>, backup: Option<Backup>)

  datatype Update = Update(path: Path, content: string)

  // ----- the plan -----

  predicate IsStale(thread: Thread, target: string) {
    thread.provider.GetOr("") != target
  }

  function StaleThreads(threads: seq<Thread>, target: string): (r: seq<Thread>)
    ensures forall t :: t in r <==> t in threads && IsStale(t, target)
  {
    if threads == [] then []
    else (if IsStale(threads[0], target) then [threads[0]] else []) + StaleThreads(threads[1..], target)
  }

  function MissingThreads(threads: seq<Thread>, ids: set<string>): (r: seq<Thread>)
    ensures forall t :: t in r <==> t in threads && t.id !in ids
  {
    var pick := IfMissing(ids);
    Passes.FilterMapMembers(threads, pick);
    Passes.FilterMap(threads, pick)
  }

  function IfMissing(ids: set<string>): (pick: Thread -> Option<Thread>)
    ensures forall t :: pick(t) == if t.id !in ids then Some(t) else None
  {
    (thread: Thread) => if thread.id !in ids then Some(thread) else None
  }

  /** `rows_to_update`. */
  function StaleRows(db: Option<Db>, target: string): nat {
    if db.Some? && db.value.hasId && db.value.hasProvider then |StaleThreads(db.value.threads, target)| else 0
  }

  function MissingEntries(codec: Codec, db: Option<Db>, index: Option<string>): seq<Thread> {
    if db.Some? && db.value.hasId then MissingThreads(db.value.threads, Ids(codec, index.GetOr(""))) else []
  }

  /** What becomes of a whole session file; `None` if it needs no patch. */
  type Patch = string -> Option<string>

  function FilePatch(codec: Codec, target: string): Patch {
    content =>
      if AnyPatch(LinePatch(codec, target), Segments(content)) then Some(Patched(LinePatch(codec, target), content))
        else None
  }

  method PatchFile(codec: Codec, target: string, content: string) returns (patched: Option<string>)
    ensures patched == FilePatch(codec, target)(content)
  {
    patched := PatchRollout(codec, content, target);
  }

  /** A patched file is not patched again. */
  ghost predicate Settles(patch: Patch) {
    forall content :: patch(content).Some? ==> patch(patch(content).value) == None
  }

  lemma FilePatchSettles(codec: Codec, target: string)
    requires RoundTrips(codec)
    ensures Settles(FilePatch(codec, target))
  {
    forall content | FilePatch(codec, target)(content).Some?
      ensures FilePatch(codec, target)(FilePatch(codec, target)(content).value) == None
    {
      PatchIsDone(codec, content, target);
    }
  }

  function Relabelled(db: Db, target: string): Db {
    db.(threads := seq(|db.threads|, i requires 0 <= i < |db.threads| =>
          if IsStale(db.threads[i], target) then db.threads[i].(provider := Some(target)) else db.threads[i]))
  }

  function LongerIndex(codec: Codec, index: Option<string>, threads: seq<Thread>): string {
    Appended(index.GetOr(""), Lines(threads, EntryLine(codec)))
  }

  /** A run would find nothing to change. */
  ghost predicate Aligned(codec: Codec, patch: Patch, target: string, w: World) {
    && (forall p :: p in w.rollouts ==> patch(w.rollouts[p]) == None)
    && StaleRows(w.db, target) == 0
    && MissingEntries(codec, w.db, w.index) == []
  }

  // ----- what the plan takes, and what the update of the database changes -----

  function IdMissing(ids: set<string>): Thread -> bool {
    (thread: Thread) => thread.id !in ids
  }

  /** The missing threads are taken in the order of the database, each once. */
  lemma MissingPicks(threads: seq<Thread>, ids: set<string>) returns (at: seq<nat>)
    ensures Passes.Picks(threads, IdMissing(ids), MissingThreads(threads, ids), at)
  {
    at := Passes.FilterPicks(threads, IfMissing(ids), IdMissing(ids));
  }

  /** The same columns and threads, and the very same without the columns that a repair needs. */
  ghost predicate OnlyRelabelled(before: Option<Db>, after: Option<Db>, target: string) {
    && (before.Some? <==> after.Some?)
    && (before.Some? && !(before.value.hasId && before.value.hasProvider) ==> after == before)
    && (before.Some? ==>
          && after.value.hasId == before.value.hasId && after.value.hasProvider == before.value.hasProvider
          && |after.value.threads| == |before.value.threads|
          && forall i :: 0 <= i < |after.value.threads| ==>
            RelabelledThread(before.value.threads[i], after.value.threads[i], target))
  }

  /** Its old provider or the target, which it keeps if it has it; an absent provider counts as an empty one. */
  predicate RelabelledThread(before: Thread, after: Thread, target: string) {
    && after.id == before.id && after.title == before.title && after.updatedAt == before.updatedAt
    && (after.provider == before.provider || after.provider == Some(target))
    && (before.provider.GetOr("") == target ==> after.provider == before.provider)
  }

  /** Every thread is the target's. */
  ghost predicate AllTarget(db: Option<Db>, target: string) {
    db.Some? && db.value.hasId && db.value.hasProvider ==>
      forall t :: t in db.value.threads ==> t.provider.GetOr("") == target
  }

  lemma RepairedDb(codec: Codec, patch: Patch, target: string, start: World, w: World)
    requires Repaired(codec, patch, target, start, w)
    ensures OnlyRelabelled(start.db, w.db, target)
  {
  }

  lemma NoStaleRows(db: Option<Db>, target: string)
    requires StaleRows(db, target) == 0
    ensures AllTarget(db, target)
  {
    if db.Some? && db.value.hasId && db.value.hasProvider {
      forall t | t in db.value.threads ensures !IsStale(t, target) {
        assert t !in StaleThreads(db.value.threads, target);
      }
    }
  }

  // ----- what holds at every moment of a run -----

  /** Whatever differs from the start has its old form, or its absence, in the backup directory. */
  ghost predicate Covered(start: World, w: World) {
    && w.rollouts.Keys == start.rollouts.Keys
    && (forall p :: p in start.rollouts && w.rollouts[p] != start.rollouts[p] ==>
          w.backup.Some? && p in w.backup.value.rollouts && w.backup.value.rollouts[p] == start.rollouts[p])
    && (w.db != start.db ==> w.backup.Some? && w.backup.value.db == start.db)
    && (w.index != start.index ==> w.backup.Some? && w.backup.value.index == start.index)
  }

  predicate HasColumns(db: Option<Db>) {
    db.Some? && db.value.hasId && db.value.hasProvider
  }

  /** Nothing is changed into anything but its repaired form. */
  ghost predicate Repaired(codec: Codec, patch: Patch, target: string, start: World, w: World) {
    && w.rollouts.Keys == start.rollouts.Keys
    && (forall p :: p in start.rollouts ==>
          w.rollouts[p] == start.rollouts[p] || Some(w.rollouts[p]) == patch(start.rollouts[p]))
    && (w.db == start.db || (HasColumns(start.db) && w.db == Some(Relabelled(start.db.value, target))))
    && (w.index == start.index
        || w.index == Some(LongerIndex(codec, start.index, MissingEntries(codec, start.db, start.index))))
  }

  ghost predicate Safe(codec: Codec, patch: Patch, target: string, start: World, w: World) {
    Covered(start, w) && Repaired(codec, patch, target, start, w)
  }

  /** One update for every file that needs one, in the order of the listing. */
  function Planned(patch: Patch, rollouts: map<Path, string>, listing: seq<Path>): seq<Update> {
    if listing == [] then []
    else
      var init, p := Planned(patch, rollouts, listing[..|listing| - 1]), listing[|listing| - 1];
      if p in rollouts && patch(rollouts[p]).Some? then init + [Update(p, patch(rollouts[p]).value)] else init
  }

  predicate IsUpdate(patch: Patch, rollouts: map<Path, string>, u: Update) {
    u.path in rollouts && patch(rollouts[u.path]) == Some(u.content)
  }

  ghost predicate IsPlan(patch: Patch, rollouts: map<Path, string>, updates: seq<Update>) {
    && (forall i :: 0 <= i < |updates| ==> IsUpdate(patch, rollouts, updates[i]))
    && DistinctPaths(updates)
  }

  ghost predicate DistinctPaths(updates: seq<Update>) {
    forall i, j :: 0 <= i < j < |updates| ==> updates[i].path != updates[j].path
  }

  lemma {:induction false} PlannedMembers(patch: Patch, rollouts: map<Path, string>, listing: seq<Path>)
    ensures forall u :: u in Planned(patch, rollouts, listing) <==> u.path in listing && IsUpdate(patch, rollouts, u)
  {
    if listing != [] {
      var n := |listing| - 1;
      PlannedMembers(patch, rollouts, listing[..n]);
      assert listing == listing[..n] + [listing[n]];
    }
  }

  lemma {:induction false} PlannedDistinct(patch: Patch, rollouts: map<Path, string>, listing: seq<Path>)
    requires forall i, j :: 0 <= i < j < |listing| ==> listing[i] != listing[j]
    ensures DistinctPaths(Planned(patch, rollouts, listing))
  {
    if listing != [] {
      var n := |listing| - 1;
      var init := Planned(patch, rollouts, listing[..n]);
      PlannedDistinct(patch, rollouts, listing[..n]);
      PlannedMembers(patch, rollouts, listing[..n]);
      assert listing[n] !in listing[..n];
      forall i | 0 <= i < |init| ensures init[i].path != listing[n] {
        assert init[i] in init;
      }
    }
  }

  lemma PlannedIsPlan(patch: Patch, rollouts: map<Path, string>, listing: seq<Path>)
    requires Lists(rollouts, listing)
    ensures IsPlan(patch, rollouts, Planned(patch, rollouts, listing))
  {
    var updates := Planned(patch, rollouts, listing);
    PlannedMembers(patch, rollouts, listing);
    PlannedDistinct(patch, rollouts, listing);
    forall i | 0 <= i < |updates| ensures IsUpdate(patch, rollouts, updates[i]) {
      assert updates[i] in updates;
    }
  }

  /** A directory listing names every session file once. */
  ghost predicate Lists(rollouts: map<Path, string>, listing: seq<Path>) {
    && (forall p :: p in rollouts <==> p in listing)
    && (forall i, j :: 0 <= i < j < |listing| ==> listing[i] != listing[j])
  }

  class Repairer {
    const codec: Codec
    const target: string
    const patch: Patch
    /** What a failing copy leaves in the backup directory. */
    const torn: nat -> Option<string>
    const tornDb: nat -> Option<Db>
    var world: World
    /** The backup directories of all runs. */
    var dirs: set<Entry>
    var faults: set<nat>
    var clock: nat
    var warnings: nat
    /** Every state of the files during the current run. */
    ghost var trace: seq<World>

    constructor (codec: Codec, target: string, torn: nat -> Option<string>, tornDb: nat -> Option<Db>, world: World,
                 dirs: set<Entry>)
      ensures this.codec == codec && this.target == target && this.world == world && this.dirs == dirs && Valid()
    {
      this.patch := FilePatch(codec, target);
      this.codec, this.target, this.torn, this.tornDb, this.world := codec, target, torn, tornDb, world;
      this.dirs, faults, clock, warnings, trace := dirs, {}, 0, 0, [];
    }

    /** The whole-file patch is the one of the codec and the target. */
    ghost predicate Valid() {
      patch == FilePatch(codec, target)
    }

    ghost predicate SafeSince(start: World)
      reads this
    {
      Safe(codec, patch, target, start, world) && forall w :: w in trace ==> Safe(codec, patch, target, start, w)
    }

    method Attempt() returns (ok: bool)
      modifies this`clock
    {
      ok := clock !in faults;
      clock := clock + 1;
    }

    method Warn()
      modifies this`warnings
      ensures warnings == old(warnings) + 1
    {
      warnings := warnings + 1;
    }

    method Become(w: World)
      modifies this`world, this`trace
      ensures world == w && trace == old(trace) + [w]
    {
      world := w;
      trace := trace + [w];
    }

    /** `collect_rollout_updates`; a file that cannot be read spoils the whole list. */
    method CollectUpdates(listing: seq<Path>) returns (ok: bool, updates: seq<Update>)
      requires Valid() && Lists(world.rollouts, listing)
      modifies this`clock
      ensures updates == if ok then Planned(patch, world.rollouts, listing) else []
    {
      updates := [];
      for i := 0 to |listing|
        invariant updates == Planned(patch, world.rollouts, listing[..i])
      {
        ok := Attempt();
        if !ok {
          return false, [];
        }
        assert listing[..i + 1][..i] == listing[..i];
        assert listing[i] in listing;
        var patched := PatchFile(codec, target, world.rollouts[listing[i]]);
        if patched.Some? {
          updates := updates + [Update(listing[i], patched.value)];
        }
      }
      assert listing[..|listing|] == listing;
      ok := true;
    }

    method BackupDir() returns (ok: bool)
      modifies this`world, this`clock, this`trace
      ensures ok ==> world == old(world).(backup := Some(Backup(map[], None, None))) && trace == old(trace) + [world]
      ensures !ok ==> world == old(world) && trace == old(trace)
    {
      ok := Attempt();
      if ok {
        Become(world.(backup := Some(Backup(map[], None, None))));
      }
    }

    /** `backup_existing_file` for a session file. */
    method BackupRollout(path: Path) returns (ok: bool)
      requires world.backup.Some? && path in world.rollouts
      modifies this`world, this`clock, this`trace
      ensures exists copy: Option<string> ::
                && world == old(world).(backup := Some(WithCopy(old(world).backup.value, path, copy)))
                && (ok ==> copy == Some(old(world).rollouts[path]))
      ensures trace == old(trace) + [world]
    {
      ok := Attempt();
      var copy := if ok then Some(world.rollouts[path]) else torn(clock);
      Become(world.(backup := Some(WithCopy(world.backup.value, path, copy))));
    }

    method WriteRollout(path: Path, content: string) returns (ok: bool)
      requires path in world.rollouts
      modifies this`world, this`clock, this`trace
      ensures world == if ok then old(world).(rollouts := old(world).rollouts[path := content]) else old(world)
      ensures trace == old(trace) + if ok then [world] else []
    {
      ok := Attempt();
      if ok {
        Become(world.(rollouts := world.rollouts[path := content]));
      }
    }

    /** The first loop: every planned file is backed up and then written; what fails is only a warning. */
    method RepairRollouts(ghost start: World, updates: seq<Update>)
      requires world.backup.Some? && world.rollouts == start.rollouts && SafeSince(start)
      requires IsPlan(patch, start.rollouts, updates)
      modifies this`world, this`clock, this`trace, this`warnings
      ensures SafeSince(start) && world.backup.Some? && warnings >= old(warnings)
      ensures world.db == old(world).db && world.index == old(world).index
      ensures warnings == old(warnings) ==> Updated(start.rollouts, updates, |updates|, world.rollouts)
    {
      for i := 0 to |updates|
        invariant SafeSince(start) && world.backup.Some? && warnings >= old(warnings)
        invariant world.db == old(world).db && world.index == old(world).index
        invariant StillOld(start.rollouts, updates, i, world.rollouts)
        invariant warnings == old(warnings) ==> Updated(start.rollouts, updates, i, world.rollouts)
      {
        ghost var before := world.rollouts;
        assert IsUpdate(patch, start.rollouts, updates[i]);
        var ok := RepairRollout(start, updates[i]);
        NextUpdate(start.rollouts, updates, i, before, world.rollouts);
        if !ok {
          Warn();
        }
      }
    }

    method RepairRollout(ghost start: World, update: Update) returns (ok: bool)
      requires world.backup.Some? && SafeSince(start) && IsUpdate(patch, start.rollouts, update)
      requires update.path in world.rollouts && world.rollouts[update.path] == start.rollouts[update.path]
      modifies this`world, this`clock, this`trace
      ensures SafeSince(start) && world.backup.Some?
      ensures world.db == old(world).db && world.index == old(world).index
      ensures world.rollouts == if ok then old(world).rollouts[update.path := update.content] else old(world).rollouts
    {
      ghost var before := world;
      ok := BackupRollout(update.path);
      ghost var copy: Option<string> :| world
        == before.(backup := Some(WithCopy(before.backup.value, update.path, copy)))
                                        && (ok ==> copy == Some(before.rollouts[update.path]));
      CopyIsSafe(codec, patch, target, start, before, update.path, copy);
      if ok {
        WriteIsSafe(codec, patch, target, start, world, update);
        ok := WriteRollout(update.path, update.content);
      }
    }

    method BackupDb() returns (ok: bool)
      requires world.backup.Some?
      modifies this`world, this`clock, this`trace
      ensures exists copy ::
                world == old(world).(backup := Some(old(world).backup.value.(db := copy)))
                  && (ok ==> copy == old(world).db)
      ensures trace == old(trace) + [world]
    {
      ok := Attempt();
      Become(world.(backup := Some(world.backup.value.(db := if ok then world.db else tornDb(clock)))));
    }

    method UpdateDb() returns (ok: bool)
      requires world.db.Some?
      modifies this`world, this`clock, this`trace
      ensures world == if ok then old(world).(db := Some(Relabelled(old(world).db.value, target))) else old(world)
      ensures trace == old(trace) + if ok then [world] else []
    {
      ok := Attempt();
      if ok {
        Become(world.(db := Some(Relabelled(world.db.value, target))));
      }
    }

    /** The database: a snapshot, and then one statement that relabels all stale rows. */
    method RepairDb(ghost start: World) returns (ok: bool)
      requires world.backup.Some? && SafeSince(start) && world.db == start.db && HasColumns(world.db)
      modifies this`world, this`clock, this`trace
      ensures SafeSince(start) && world.backup.Some?
      ensures world.rollouts == old(world).rollouts && world.index == old(world).index
      ensures world.db == if ok then Some(Relabelled(start.db.value, target)) else start.db
      ensures OnlyRelabelled(start.db, world.db, target) && (ok ==> AllTarget(world.db, target))
    {
      ghost var before := world;
      ok := BackupDb();
      ghost var copy :| world == before.(backup := Some(before.backup.value.(db := copy)))
          && (ok ==> copy == before.db);
      DbStepsAreSafe(codec, patch, target, start, before, copy);
      if ok {
        DbStepsAreSafe(codec, patch, target, start, world, copy);
        ok := UpdateDb();
      }
      RepairedDb(codec, patch, target, start, world);
      RelabelledIsAligned(start.db.value, target);
      NoStaleRows(Some(Relabelled(start.db.value, target)), target);
    }

    method BackupIndex() returns (ok: bool)
      requires world.backup.Some?
      modifies this`world, this`clock, this`trace
      ensures exists copy ::
                world == old(world).(backup := Some(old(world).backup.value.(index := copy)))
                  && (ok ==> copy == old(world).index)
      ensures trace == old(trace) + [world]
    {
      if world.index.None? {
        // There is nothing to copy.
        ok := true;
        Become(world.(backup := Some(world.backup.value.(index := None))));
      } else {
        ok := Attempt();
        Become(world.(backup := Some(world.backup.value.(index := if ok then world.index else torn(clock)))));
      }
    }

    method AppendIndex(missing: seq<Thread>) returns (ok: bool)
      modifies this`world, this`clock, this`trace
      ensures world == if ok then old(world).(index := Some(LongerIndex(codec, old(world).index, missing)))
          else old(world)
      ensures trace == old(trace) + if ok then [world] else []
    {
      ok := Attempt();
      if !ok {
        return;
      }
      var longer, _ := AppendEntries(world.index.GetOr(""), missing, EntryLine(codec));
      ok := Attempt();
      if ok {
        Become(world.(index := Some(longer)));
      }
    }

    method RepairIndex(ghost start: World, missing: seq<Thread>) returns (ok: bool)
      requires world.backup.Some? && SafeSince(start) && world.index == start.index
      requires missing == MissingEntries(codec, start.db, start.index)
      modifies this`world, this`clock, this`trace
      ensures SafeSince(start) && world.backup.Some?
      ensures world.rollouts == old(world).rollouts && world.db == old(world).db
      ensures world.index == if ok then Some(LongerIndex(codec, start.index, missing)) else start.index
    {
      ghost var before := world;
      ok := BackupIndex();
      ghost var copy :| world == before.(backup := Some(before.backup.value.(index := copy)))
          && (ok ==> copy == before.index);
      IndexStepsAreSafe(codec, patch, target, start, before, copy);
      if ok {
        IndexStepsAreSafe(codec, patch, target, start, world, copy);
        ok := AppendIndex(missing);
      }
    }

    /** The plan; each of its two parts may fail, and is then empty. */
    method MakePlan(listing: seq<Path>) returns (updates: seq<Update>, rows: nat, missing: seq<Thread>)
      requires Valid() && Lists(world.rollouts, listing)
      modifies this`clock, this`warnings
      ensures IsPlan(patch, world.rollouts, updates) && warnings >= old(warnings)
      ensures updates == Planned(patch, world.rollouts, listing) || (updates == [] && warnings > old(warnings))
      ensures rows == StaleRows(world.db, target) || (rows == 0 && warnings > old(warnings))
      ensures missing == MissingEntries(codec, world.db, world.index) || (missing == [] && warnings > old(warnings))
    {
      var ok;
      ok, updates := CollectUpdates(listing);
      if !ok {
        Warn();
      }
      PlannedIsPlan(patch, world.rollouts, listing);
      rows, missing := 0, [];
      ok := Attempt();
      if ok {
        rows, missing := StaleRows(world.db, target), MissingEntries(codec, world.db, world.index);
      } else {
        Warn();
      }
    }

    /** `prune_history_backups_for_profile`, at the end of a run; `stuck` names what cannot be removed. */
    method PruneDirs(cutoff: nat, stuck: set<nat>)
      requires Directory(dirs)
      modifies this`dirs, this`clock, this`warnings
      ensures dirs in {old(dirs), Remaining(old(dirs), cutoff, stuck)} && warnings >= old(warnings)
    {
      var ok := Attempt();
      if !ok {
        Warn();
        return;
      }
      var listing := ListDirs(dirs);
      var root := new BackupRoot(dirs);
      var _ := root.Prune(listing, cutoff, stuck);
      dirs := root.entries;
    }

    /** `repair_history_for_provider`. Every state of the files on the way has the old form of whatever
        changed in the backup directory; a directory is made only if there is something to do; it survives
        the pruning at the end if it is the newest; and a run without warnings leaves nothing to do. */
    method Repair(listing: seq<Path>, made: Entry, cutoff: nat, stuck: set<nat>, faults: set<nat>)
      requires Valid() && Lists(world.rollouts, listing) && Directory(dirs + {made})
      modifies this
      ensures world.backup.None? ==> dirs == old(dirs)
      ensures world.backup.Some? ==>
                dirs == old(dirs) + {made} || dirs == Remaining(old(dirs) + {made}, cutoff, stuck)
      ensures world.backup.Some? && (forall e :: e in old(dirs) ==> !Newer(e, made)) ==> made in dirs
      ensures Valid() && SafeSince(old(world))
      ensures warnings == 0 && RoundTrips(codec) && IgnoresReturn(codec) ==> Aligned(codec, patch, target, world)
      ensures Aligned(codec, patch, target, old(world)) ==> world == old(world).(backup := None) && trace == []
      ensures OnlyRelabelled(old(world).db, world.db, target)
      ensures forall w :: w in trace ==> OnlyRelabelled(old(world).db, w.db, target)
      ensures warnings == 0 ==> AllTarget(world.db, target)
    {
      this.faults, clock, warnings, trace := faults, 0, 0, [];
      ghost var start := world;
      world := world.(backup := None);
      var updates, rows, missing := MakePlan(listing);
      if Aligned(codec, patch, target, start) {
        AlignedPlansNothing(patch, start.rollouts, listing);
      }
      if updates != [] || rows != 0 || missing != [] {
        CarryOut(start, updates, rows, missing, made, cutoff, stuck);
      }
      RunEnds(start, listing);
    }

    /** What safety, and a run whose every step worked, come to. */
    lemma RunEnds(start: World, listing: seq<Path>)
      requires Valid() && Lists(start.rollouts, listing) && SafeSince(start)
      requires warnings == 0 ==> AllDone(codec, patch, target, start, listing, world)
      ensures OnlyRelabelled(start.db, world.db, target)
      ensures forall w :: w in trace ==> OnlyRelabelled(start.db, w.db, target)
      ensures warnings == 0 ==> AllTarget(world.db, target)
      ensures warnings == 0 && RoundTrips(codec) && IgnoresReturn(codec) ==> Aligned(codec, patch, target, world)
    {
      OnlyProvidersChanged(start);
      if warnings == 0 {
        RelabelledIsTarget(start.db, world.db, target);
      }
      if warnings == 0 && RoundTrips(codec) && IgnoresReturn(codec) {
        FilePatchSettles(codec, target);
        CleanRunAligns(codec, patch, target, start, listing, world);
      }
    }

    lemma OnlyProvidersChanged(start: World)
      requires SafeSince(start)
      ensures OnlyRelabelled(start.db, world.db, target)
      ensures forall w :: w in trace ==> OnlyRelabelled(start.db, w.db, target)
    {
      RepairedDb(codec, patch, target, start, world);
      forall w | w in trace ensures OnlyRelabelled(start.db, w.db, target) {
        RepairedDb(codec, patch, target, start, w);
      }
    }

    /** A run that has something to do makes a directory first, and does nothing else if it cannot. */
    method CarryOut(ghost start: World, updates: seq<Update>, rows: nat, missing: seq<Thread>, made: Entry, cutoff: nat,
                    stuck: set<nat>)
      requires world == start.(backup := None) && SafeSince(start) && Directory(dirs + {made})
      requires IsPlan(patch, start.rollouts, updates)
      requires rows == 0 || rows == StaleRows(start.db, target)
      requires missing == [] || missing == MissingEntries(codec, start.db, start.index)
      modifies this`world, this`dirs, this`clock, this`trace, this`warnings
      ensures SafeSince(start) && warnings >= old(warnings)
      ensures world.backup.None? ==> dirs == old(dirs)
      ensures world.backup.Some? ==>
                dirs == old(dirs) + {made} || dirs == Remaining(old(dirs) + {made}, cutoff, stuck)
      ensures world.backup.Some? && (forall e :: e in old(dirs) ==> !Newer(e, made)) ==> made in dirs
      ensures warnings == old(warnings) ==>
                && Updated(start.rollouts, updates, |updates|, world.rollouts)
                && world.db == (if rows > 0 then Some(Relabelled(start.db.value, target)) else start.db)
                && world.index
                  == (if missing != [] then Some(LongerIndex(codec, start.index, missing)) else start.index)
    {
      var ok := BackupDir();
      if ok {
        Perform(start, updates, rows, missing);
        Conclude(made, cutoff, stuck);
      } else {
        Warn();
      }
    }

    /** Two runs in a row. If the first gives no warning, the second, whatever fails in it, leaves the files of
        the first as they are, writes nothing on the way and makes and prunes no directory. */
    method RepairTwice(listing: seq<Path>, made: Entry, again: Entry, cutoff: nat, stuck: set<nat>, first: set<nat>,
                       second: set<nat>) returns (clean: bool, between: World, kept: set<Entry>)
      requires Valid() && Lists(world.rollouts, listing) && Directory(dirs + {made, again})
      modifies this
      ensures clean && RoundTrips(codec) && IgnoresReturn(codec) ==>
                world == between.(backup := None) && trace == [] && dirs == kept
    {
      Repair(listing, made, cutoff, stuck, first);
      clean, between, kept := warnings == 0, world, dirs;
      StillListed(old(world).rollouts, world.rollouts, listing);
      StillDirectory(old(dirs), dirs, made, again, cutoff, stuck);
      Repair(listing, again, cutoff, stuck, second);
    }

    /** The end of a run that made a directory: the manifest and the pruning. */
    method Conclude(made: Entry, cutoff: nat, stuck: set<nat>)
      requires Directory(dirs + {made})
      modifies this`dirs, this`clock, this`warnings
      ensures dirs == old(dirs) + {made} || dirs == Remaining(old(dirs) + {made}, cutoff, stuck)
      ensures warnings >= old(warnings)
      ensures (forall e :: e in old(dirs) ==> !Newer(e, made)) ==> made in dirs
    {
      WriteManifest();
      dirs := dirs + {made};
      NewestRemains(dirs, made, cutoff, stuck);
      PruneDirs(cutoff, stuck);
    }

    method WriteManifest()
      modifies this`clock, this`warnings
      ensures warnings >= old(warnings)
    {
      var ok := Attempt();
      if !ok {
        Warn();
      }
    }

    method Perform(ghost start: World, updates: seq<Update>, rows: nat, missing: seq<Thread>)
      requires world == start.(backup := Some(Backup(map[], None, None))) && SafeSince(start)
      requires IsPlan(patch, start.rollouts, updates)
      requires rows == 0 || rows == StaleRows(start.db, target)
      requires missing == [] || missing == MissingEntries(codec, start.db, start.index)
      modifies this`world, this`clock, this`trace, this`warnings
      ensures SafeSince(start) && world.backup.Some? && warnings >= old(warnings)
      ensures warnings == old(warnings) ==>
                && Updated(start.rollouts, updates, |updates|, world.rollouts)
                && world.db == (if rows > 0 then Some(Relabelled(start.db.value, target)) else start.db)
                && world.index
                  == (if missing != [] then Some(LongerIndex(codec, start.index, missing)) else start.index)
    {
      var ok;
      RepairRollouts(start, updates);
      if rows > 0 {
        ok := RepairDb(start);
        if !ok {
          Warn();
        }
      }
      if missing != [] {
        ok := RepairIndex(start, missing);
        if !ok {
          Warn();
        }
      }
    }
  }

  lemma StillListed(before: map<Path, string>, after: map<Path, string>, listing: seq<Path>)
    requires Lists(before, listing) && after.Keys == before.Keys
    ensures Lists(after, listing)
  {
    assert forall p :: p in after <==> p in after.Keys;
  }

  lemma StillDirectory(before: set<Entry>, after: set<Entry>, made: Entry, again: Entry, cutoff: nat, stuck: set<nat>)
    requires Directory(before + {made, again})
    requires after == before || after == before + {made} || after == Remaining(before + {made}, cutoff, stuck)
    ensures Directory(after + {again})
  {
    assert after <= before + {made};
  }

  /** The directories that pruning leaves. */
  ghost function Remaining(dirs: set<Entry>, cutoff: nat, stuck: set<nat>): set<Entry> {
    Kept(dirs, cutoff) + (set e | e in dirs && e.path in stuck)
  }

  lemma NewestRemains(dirs: set<Entry>, made: Entry, cutoff: nat, stuck: set<nat>)
    requires made in dirs
    ensures (forall e :: e in dirs ==> !Newer(e, made)) ==> made in Remaining(dirs, cutoff, stuck)
  {
    NewestStays(dirs, cutoff, made);
  }

  /** A listing of a directory. */
  method ListDirs(dirs: set<Entry>) returns (listing: seq<Entry>)
    requires Directory(dirs)
    ensures Elements(listing) == dirs
    ensures forall i, j :: 0 <= i < j < |listing| ==> listing[i].path != listing[j].path
  {
    listing := [];
    var rest := dirs;
    while rest != {}
      invariant rest <= dirs && Elements(listing) == dirs - rest
      invariant forall i, j :: 0 <= i < j < |listing| ==> listing[i].path != listing[j].path
      decreases rest
    {
      var e :| e in rest;
      forall i | 0 <= i < |listing| ensures listing[i].path != e.path {
        assert listing[i] in Elements(listing);
      }
      rest := rest - {e};
      assert Elements(listing + [e]) == Elements(listing) + {e};
      listing := listing + [e];
    }
  }

  /** The first `n` updates were written; nothing else was. */
  ghost predicate Updated(before: map<Path, string>, updates: seq<Update>, n: nat, after: map<Path, string>)
    requires n <= |updates|
  {
    && after.Keys == before.Keys
    && (forall i :: 0 <= i < n ==> updates[i].path in after && after[updates[i].path] == updates[i].content)
    && (forall p :: p in before && (forall i :: 0 <= i < n ==> updates[i].path != p) ==> after[p] == before[p])
  }

  /** The files of the updates from `n` on are as they were. */
  ghost predicate StillOld(before: map<Path, string>, updates: seq<Update>, n: nat, after: map<Path, string>) {
    && after.Keys == before.Keys
    && forall j :: n <= j < |updates| ==>
      updates[j].path in after && updates[j].path in before && after[updates[j].path] == before[updates[j].path]
  }

  lemma NextUpdate(before: map<Path, string>, updates: seq<Update>, n: nat, after: map<Path, string>,
                   next: map<Path, string>)
    requires n < |updates| && DistinctPaths(updates) && StillOld(before, updates, n, after)
    requires next == after || next == after[updates[n].path := updates[n].content]
    ensures StillOld(before, updates, n + 1, next)
    ensures Updated(before, updates, n, after) && next == after[updates[n].path := updates[n].content] ==>
              Updated(before, updates, n + 1, next)
  {
    assert next.Keys == before.Keys;
  }

  function WithCopy(backup: Backup, path: Path, copy: Option<string>): Backup {
    if copy.Some? then backup.(rollouts := backup.rollouts[path := copy.value]) else backup
  }

  // ----- the steps are safe -----

  lemma CopyIsSafe(codec: Codec, patch: Patch, target: string, start: World, w: World, path: Path, copy: Option<string>)
    requires Safe(codec, patch, target, start, w) && w.backup.Some? && path in w.rollouts && path in start.rollouts
    requires w.rollouts[path] == start.rollouts[path]
    ensures Safe(codec, patch, target, start, w.(backup := Some(WithCopy(w.backup.value, path, copy))))
  {
  }

  lemma WriteIsSafe(codec: Codec, patch: Patch, target: string, start: World, w: World, update: Update)
    requires Safe(codec, patch, target, start, w) && w.backup.Some? && IsUpdate(patch, start.rollouts, update)
    requires update.path in w.backup.value.rollouts
    requires w.backup.value.rollouts[update.path] == start.rollouts[update.path]
    ensures Safe(codec, patch, target, start, w.(rollouts := w.rollouts[update.path := update.content]))
  {
    var t := w.(rollouts := w.rollouts[update.path := update.content]);
    assert t.rollouts.Keys == w.rollouts.Keys + {update.path} == w.rollouts.Keys by {
      assert update.path in start.rollouts.Keys;
    }
  }

  lemma DbStepsAreSafe(codec: Codec, patch: Patch, target: string, start: World, w: World, copy: Option<Db>)
    requires Safe(codec, patch, target, start, w) && w.backup.Some? && w.db == start.db && HasColumns(w.db)
    ensures Safe(codec, patch, target, start, w.(backup := Some(w.backup.value.(db := copy))))
    ensures w.backup.value.db == w.db ==>
        Safe(codec, patch, target, start, w.(db := Some(Relabelled(w.db.value, target))))
  {
  }

  lemma IndexStepsAreSafe(codec: Codec, patch: Patch, target: string, start: World, w: World, copy: Option<string>)
    requires Safe(codec, patch, target, start, w) && w.backup.Some? && w.index == start.index
    ensures Safe(codec, patch, target, start, w.(backup := Some(w.backup.value.(index := copy))))
    ensures w.backup.value.index == w.index ==>
              Safe(codec, patch, target, start,
                   w.(index := Some(LongerIndex(codec, start.index, MissingEntries(codec, start.db, start.index)))))
  {
  }

  // ----- a clean run leaves nothing to do -----

  lemma {:induction false} NoneStale(threads: seq<Thread>, target: string)
    requires forall t :: t in threads ==> !IsStale(t, target)
    ensures StaleThreads(threads, target) == []
  {
    if threads != [] {
      NoneStale(threads[1..], target);
    }
  }

  lemma NoneMissing(threads: seq<Thread>, ids: set<string>)
    requires forall t :: t in threads ==> t.id in ids
    ensures MissingThreads(threads, ids) == []
  {
    Passes.FilterMapNone(threads, IfMissing(ids));
  }

  lemma RelabelledIsTarget(before: Option<Db>, after: Option<Db>, target: string)
    requires after == if StaleRows(before, target) > 0 then Some(Relabelled(before.value, target)) else before
    ensures AllTarget(after, target)
  {
    if StaleRows(before, target) > 0 {
      RelabelledIsAligned(before.value, target);
    }
    NoStaleRows(after, target);
  }

  lemma RelabelledIsAligned(db: Db, target: string)
    ensures StaleRows(Some(Relabelled(db, target)), target) == 0
    ensures forall t :: t in Relabelled(db, target).threads ==> exists old_ :: old_ in db.threads && old_.id == t.id
  {
    var threads := Relabelled(db, target).threads;
    NoneStale(threads, target);
    forall t | t in threads ensures exists old_ :: old_ in db.threads && old_.id == t.id {
      var i :| 0 <= i < |threads| && threads[i] == t;
      assert db.threads[i] in db.threads;
    }
  }

  /** With the missing threads appended, the index names every thread that the database had. */
  lemma LongerIndexIsComplete(codec: Codec, db: Db, index: Option<string>, thread: Thread)
    requires RoundTrips(codec) && IgnoresReturn(codec) && db.hasId && thread in db.threads
    ensures thread.id in Ids(codec, LongerIndex(codec, index, MissingEntries(codec, Some(db), index)))
  {
    var missing := MissingEntries(codec, Some(db), index);
    var lines := Lines(missing, EntryLine(codec));
    var ids := seq(|missing|, i requires 0 <= i < |missing| => missing[i].id);
    forall i | 0 <= i < |lines| ensures IsSegment(lines[i]) && Feed(lines[i]) == "\n"
      && IdOn(codec, lines[i]) == Some(ids[i]) {
      EntryHasId(codec, missing[i]);
    }
    AppendedIds(codec, index.GetOr(""), lines, ids, thread.id);
    if thread.id !in Ids(codec, index.GetOr("")) {
      var i :| 0 <= i < |missing| && missing[i] == thread;
      assert ids[i] == thread.id;
    }
  }

  /** All that was planned has been done. */
  ghost predicate AllDone(codec: Codec, patch: Patch, target: string, start: World, listing: seq<Path>, w: World) {
    var updates, missing := Planned(patch, start.rollouts, listing), MissingEntries(codec, start.db, start.index);
    && Updated(start.rollouts, updates, |updates|, w.rollouts)
    && w.db == (if StaleRows(start.db, target) > 0 then Some(Relabelled(start.db.value, target)) else start.db)
    && w.index == (if missing != [] then Some(LongerIndex(codec, start.index, missing)) else start.index)
  }

  /** After a run whose every step worked, nothing is left to do. */
  lemma CleanRunAligns(codec: Codec, patch: Patch, target: string, start: World, listing: seq<Path>, w: World)
    requires RoundTrips(codec) && IgnoresReturn(codec) && Settles(patch) && Lists(start.rollouts, listing)
    requires AllDone(codec, patch, target, start, listing, w)
    ensures Aligned(codec, patch, target, w)
  {
    RolloutsAlign(patch, start.rollouts, listing, w.rollouts);
    if start.db.Some? {
      RelabelledIsAligned(start.db.value, target);
      IndexAligns(codec, target, start.db.value, start.index, w.db.value, w.index);
    }
  }

  lemma RolloutsAlign(patch: Patch, before: map<Path, string>, listing: seq<Path>, after: map<Path, string>)
    requires Settles(patch) && Lists(before, listing)
    requires Updated(before, Planned(patch, before, listing), |Planned(patch, before, listing)|, after)
    ensures forall p :: p in after ==> patch(after[p]) == None
  {
    var updates := Planned(patch, before, listing);
    PlannedMembers(patch, before, listing);
    forall p | p in after ensures patch(after[p]) == None {
      assert p in after.Keys && p in before;
      if patch(before[p]).Some? {
        var u := Update(p, patch(before[p]).value);
        assert u in updates;
        var i :| 0 <= i < |updates| && updates[i] == u;
        assert after[p] == u.content;
      } else {
        forall i | 0 <= i < |updates| ensures updates[i].path != p {
          assert updates[i] in updates;
        }
      }
    }
  }

  lemma IndexAligns(codec: Codec, target: string, db: Db, index: Option<string>, newDb: Db, newIndex: Option<string>)
    requires RoundTrips(codec) && IgnoresReturn(codec)
    requires newDb in {db, Relabelled(db, target)}
    requires var missing := MissingEntries(codec, Some(db), index);
             newIndex == (if missing != [] then Some(LongerIndex(codec, index, missing)) else index)
    ensures MissingEntries(codec, Some(newDb), newIndex) == []
  {
    RelabelledIsAligned(db, target);
    var missing := MissingEntries(codec, Some(db), index);
    if db.hasId {
      forall t | t in newDb.threads ensures t.id in Ids(codec, newIndex.GetOr("")) {
        var original :| original in db.threads && original.id == t.id;
        if missing != [] {
          LongerIndexIsComplete(codec, db, index, original);
        } else {
          assert original !in missing;
        }
      }
      NoneMissing(newDb.threads, Ids(codec, newIndex.GetOr("")));
    }
  }

  /** A run on aligned files plans nothing. */
  lemma {:induction false} AlignedPlansNothing(patch: Patch, rollouts: map<Path, string>, listing: seq<Path>)
    requires forall p :: p in rollouts ==> patch(rollouts[p]) == None
    ensures Planned(patch, rollouts, listing) == []
  {
    if listing != [] {
      AlignedPlansNothing(patch, rollouts, listing[..|listing| - 1]);
    }
  }
}
