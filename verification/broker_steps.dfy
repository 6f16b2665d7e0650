/** What every world of the broker tells of its runs, the loops over the registry, and where the run under a key is. */
module BrokerSteps {
  import opened Text
  import opened RemoteExit
  import opened RunWorld
  import opened RunSafety
  import opened BrokerState
  import opened BrokerFrames
  import opened BrokerRecords
  import RetainedLog

  // ----- runs in every world

  lemma NowIsPositive(w: World)
    requires Inv(w)
    ensures SECOND <= w.now
  {
    hide KeysHeld, OpenStartsHeld, AtMostOnce, EventsBound, LogsFaithful, MetasFaithful, SealedStored, DoneRetained;
  }

  /** A record's run id belongs to its key. */
  lemma OneKey(w: World, key: Key)
    requires Inv(w)
    ensures key in w.disk ==> w.disk[key].id in w.bound && w.bound[w.disk[key].id] == key
    ensures key in w.disk ==> Fits(w.spelled, key, w.disk[key])
  {
    hide KeysHeld, OpenStartsHeld, AtMostOnce, EventsBound, FilesKept, LogsFaithful, MetasFaithful, SealedStored,
         StartsBound, CleanedDone;
  }

  lemma OneKeyOnly(w: World, key: Key)
    requires Inv(w) && key in w.disk
    ensures forall k :: k in w.disk && w.disk[k].id == w.disk[key].id ==> k == key
  {
    hide Inv;
    forall k | k in w.disk && w.disk[k].id == w.disk[key].id ensures k == key {
      OneKey(w, k);
      OneKey(w, key);
    }
  }

  lemma GuardedRecord(w: World, key: Key)
    requires Inv(w)
    ensures Guarded(w.spelled, key) && key in w.disk ==> w.disk[key].runKey.Some?
  {
    hide Inv;
    OneKey(w, key);
  }

  /** The command that a run was started with is the one of its key. */
  lemma StartedCommand(w: World, key: Key, rec: Record)
    requires Inv(w) && ContinuesRun(w, key, rec)
    ensures rec.id in w.starts && rec.runKey.Some? ==> w.starts[rec.id].command == rec.commandHash
    ensures rec.id in w.starts && key.Unkeyed? ==> w.starts[rec.id].command == key.command
  {
    hide KeysHeld, OpenStartsHeld, AtMostOnce, EventsBound, FilesKept, LogsFaithful, MetasFaithful, SealedStored,
         DoneRetained, CleanedDone, RecordsDated;
  }

  lemma LaunchedCommand(w: World, id: RunId)
    requires Inv(w)
    ensures id in w.procs ==> id in w.starts && w.procs[id].start == w.starts[id]
  {
    hide KeysHeld, OpenStartsHeld, AtMostOnce, EventsBound, FilesKept, LogsFaithful, MetasFaithful, SealedStored,
         DoneRetained, CleanedDone, RecordsDated;
  }

  lemma FilesOfLaunched(w: World, id: RunId)
    requires Inv(w)
    ensures id in w.files ==> id in w.procs && (w.files[id].rc ==> Exited(w, id))
  {
    hide KeysHeld, OpenStartsHeld, AtMostOnce, EventsBound, LogsFaithful, MetasFaithful, SealedStored, DoneRetained;
  }

  lemma FilesOfProcs(w: World, id: RunId)
    requires Inv(w) && id in w.procs
    ensures id in w.files
  {
    hide KeysHeld, OpenStartsHeld, AtMostOnce, EventsBound, LogsFaithful, MetasFaithful, SealedStored, DoneRetained;
  }

  lemma FailedNotStarted(w: World, key: Key)
    requires Inv(w) && key in w.disk
    ensures w.disk[key].status != Pending
    ensures w.disk[key].runKey.Some? && w.disk[key].status == Failed ==> w.disk[key].id !in w.starts
    ensures Guarded(w.spelled, key) ==> w.disk[key].runKey.Some?
  {
    hide KeysHeld, OpenStartsHeld, AtMostOnce, EventsBound, FilesKept, LogsFaithful, MetasFaithful, SealedStored,
         StartsBound, CleanedDone;
  }

  lemma ExpiredNotKnown(w: World, key: Key)
    requires Inv(w) && key in w.disk && !w.disk[key].Terminal()
    ensures w.disk[key].id in w.bound && w.disk[key].id !in w.known
    ensures w.disk[key].status == Expired ==> Vanished(w.disk[key].id) in w.noted
  {
    hide KeysHeld, OpenStartsHeld, AtMostOnce, EventsBound, FilesKept, LogsFaithful, MetasFaithful, SealedStored,
         StartsBound, CleanedDone;
  }

  lemma SealedIsTerminal(w: World, key: Key, rec: Record)
    requires Inv(w) && ContinuesRun(w, key, rec) && (rec.status == Done ==> rec.id in w.swept)
    ensures rec.id in w.sealed ==> rec.id in w.swept
  {
    hide KeysHeld, OpenStartsHeld, AtMostOnce, EventsBound, FilesKept, LogsFaithful, MetasFaithful, SealedStored,
         DoneRetained, CleanedDone, RecordsDated, RecordsStarted, RecordsBound;
  }

  /** The stored files of a run tell its exit and what is kept of all it wrote. */
  lemma StoredFiles(w: World, id: RunId)
    requires Inv(w) && id in w.logs
    ensures Exited(w, id) && w.logs[id].content == RetainedLog.Kept(Written(w, id))
    ensures id in w.metas ==> w.metas[id].content.exitCode == w.procs[id].exit.value.code
  {
    hide KeysHeld, OpenStartsHeld, AtMostOnce, EventsBound, FilesKept, SealedStored, DoneRetained, RetainedLog.Kept;
  }

  /** A run that was durably done and has no stored log was swept. */
  lemma UnstoredIsSwept(w: World, key: Key, rec: Record)
    requires Inv(w) && ContinuesRun(w, key, rec) && rec.status == Done && rec.id !in w.logs
    ensures rec.id in w.swept
  {
    hide KeysHeld, OpenStartsHeld, AtMostOnce, EventsBound, FilesKept, LogsFaithful, MetasFaithful, RecordsBound,
         StartsBound, CleanedDone;
  }

  /** A record on disk may be saved again as it is. */
  lemma RecordContinues(w: World, key: Key)
    requires Inv(w) && key in w.disk
    ensures ContinuesRun(w, key, w.disk[key]) && 0 < w.disk[key].startedAt * SECOND <= w.now
  {
    hide KeysHeld, OpenStartsHeld, AtMostOnce, EventsBound, FilesKept, LogsFaithful, MetasFaithful, SealedStored,
         StartsBound, CleanedDone;
  }

  /** The record of a run that is attached to again by a request; a done run without a stored log is to be finalized
      again. */
  lemma AttachedContinues(w: World, key: Key, runKey: Option<string>, command: string, fingerprint: string, status: Status)
    requires Inv(w) && key in w.disk && FitsKey(w.spelled, key, runKey)
    requires runKey.Some? ==> w.disk[key].commandHash == command && w.disk[key].runKey == runKey
    requires status == w.disk[key].status
          || (status == FinalizePending && w.disk[key].status == Done && w.disk[key].id !in w.logs)
    ensures ContinuesRun(w, key, w.disk[key].(commandHash := if runKey.Some? then command else "", runKey := runKey,
                                              fingerprint := fingerprint, status := status))
    ensures 0 < w.disk[key].startedAt * SECOND <= w.now
  {
    hide Inv;
    RecordContinues(w, key);
    if status != w.disk[key].status {
      UnstoredIsSwept(w, key, w.disk[key]);
    }
  }

  lemma NewId(ids: set<RunId>)
    ensures exists id: RunId :: id !in ids
  {
    var longest := Longest(ids);
    var id: RunId := seq(longest + 1, _ => '0');
    assert id !in ids;
  }

  ghost function Longest(ids: set<RunId>): (n: nat)
    ensures forall id :: id in ids ==> |id| <= n
  {
    if ids == {} then 0 else
      var id :| id in ids;
      var n := Longest(ids - {id});
      if |id| > n then |id| else n
  }

  // ----- retention

  /** Every done record under a run key has its log and metadata, stored no earlier than the run finished. */
  ghost predicate Retained(w: World) {
    forall k :: k in w.disk && w.disk[k].runKey.Some? && w.disk[k].status == Done ==>
      StoredSince(w, w.disk[k].id, w.disk[k].finishedAt)
  }

  lemma CutoffPassed(w: World)
    requires Inv(w)
    ensures w.sweptBefore <= w.now - TTL
  {
  }

  /** Retention alignment: when no done record is old enough to be pruned, every one under a run key has both files. */
  lemma UnprunedIsStored(w: World, at: int)
    requires Inv(w) && w.sweptBefore <= at - TTL
    requires forall k :: k in w.disk ==> !Prunable(w.disk[k], at)
    ensures Retained(w)
  {
    hide KeysHeld, OpenStartsHeld, AtMostOnce, EventsBound, FilesKept, LogsFaithful, MetasFaithful, RecordsBound;
  }

  lemma UnprunableIsStored(w: World)
    requires Inv(w) && PrunedKeys(w.disk, w.now) == {}
    ensures Retained(w)
  {
    hide Inv;
    CutoffPassed(w);
    forall k | k in w.disk ensures !Prunable(w.disk[k], w.now) {
      assert k !in PrunedKeys(w.disk, w.now);
    }
    UnprunedIsStored(w, w.now);
  }

  lemma PrunedIsStored(w: World)
    requires Inv(w) && Inv(Apply(w, Prune(w.now)))
    ensures Retained(Apply(w, Prune(w.now)))
  {
    hide Inv;
    CutoffPassed(w);
    UnprunedIsStored(Apply(w, Prune(w.now)), w.now);
  }

  lemma NonePrunable(w: World, at: int)
    requires PrunedKeys(w.disk, w.now) == {} && at <= w.now
    ensures forall k :: k in w.disk ==> !Prunable(w.disk[k], at)
  {
    forall k | k in w.disk ensures !Prunable(w.disk[k], at) {
      assert k !in PrunedKeys(w.disk, w.now);
    }
  }

  lemma PrunedLeavesNone(w: World, at: int)
    requires at <= w.now
    ensures var v := Apply(w, Prune(w.now)); forall k :: k in v.disk ==> !Prunable(v.disk[k], at)
  {
  }

  // ----- the registry's loops: clone, edit in place

  /** The loop of migrateLegacyFingerprints */
  method RebindRecords(disk: map<Key, Record>, current: string, legacy: string)
    returns (next: map<Key, Record>, changed: bool)
    ensures next == RebindAll(disk, current, legacy)
    ensures changed <==> exists k :: k in disk && Rebindable(disk[k], current, legacy)
  {
    next, changed := disk, false;
    var left := disk.Keys;
    while left != {}
      invariant left <= disk.Keys && next.Keys == disk.Keys
      invariant forall k :: k in disk ==> next[k] == if k in left then disk[k] else Rebound(disk[k], current, legacy)
      invariant changed <==> exists k :: k in disk && k !in left && Rebindable(disk[k], current, legacy)
    {
      var key :| key in left;
      var rec := next[key];
      left := left - {key};
      if rec.version != 0 || (rec.fingerprint != "" && rec.fingerprint != current && rec.fingerprint != legacy) {
        continue;
      }
      next := next[key := rec.(fingerprint := current, version := 1)];
      changed := true;
    }
  }

  /** The loop of pruneExpiredKeyedJobs */
  method PruneRecords(disk: map<Key, Record>, at: int) returns (next: map<Key, Record>, changed: bool)
    ensures next == disk - PrunedKeys(disk, at)
    ensures changed <==> PrunedKeys(disk, at) != {}
  {
    next, changed := disk, false;
    var left := disk.Keys;
    while left != {}
      invariant left <= disk.Keys
      invariant next == disk - (PrunedKeys(disk, at) - left)
      invariant changed <==> PrunedKeys(disk, at) - left != {}
    {
      var key :| key in left;
      var rec := disk[key];
      ghost var gone := PrunedKeys(disk, at) - left;
      left := left - {key};
      if rec.runKey.None? || rec.status != Done || rec.finishedAt == 0 {
        assert PrunedKeys(disk, at) - left == gone;
        continue;
      }
      if rec.finishedAt < at - TTL {
        assert PrunedKeys(disk, at) - left == gone + {key};
        next := next - {key};
        changed := true;
      } else {
        assert PrunedKeys(disk, at) - left == gone;
      }
    }
  }

  /** The loop of deleteUnkeyedPersistedJobs */
  method DropUnkeyedRecords(disk: map<Key, Record>) returns (next: map<Key, Record>)
    ensures next == map k | k in disk && disk[k].runKey.Some? :: disk[k]
  {
    next := disk;
    var left := disk.Keys;
    while left != {}
      invariant left <= disk.Keys
      invariant forall k :: k in next <==> k in disk && (k in left || disk[k].runKey.Some?)
      invariant forall k :: k in next ==> next[k] == disk[k]
    {
      var key :| key in left;
      left := left - {key};
      if disk[key].runKey.None? {
        next := next - {key};
      }
    }
  }

  // ----- where the run under a key is

  /** What is known of the run under a key: nothing that goes on, a record of a run that is not over and its offset, or a
      job in memory that is not over, its offset and the offset on record. */
  datatype Place = Gone | Filed(id: RunId, saved: nat) | Live(id: RunId, offset: nat, saved: nat)

  type Places = imap<Key, Place>

  function OnDisk(disk: Disk, key: Key): (p: Place)
    ensures !p.Live?
  {
    if key in disk && !Over(disk[key].status) then Filed(disk[key].id, disk[key].offset) else Gone
  }

  function PlaceFrom(live: Option<(RunId, nat)>, disk: Disk, key: Key): Place {
    if live.None? then OnDisk(disk, key)
    else Live(live.value.0, live.value.1, if OnDisk(disk, key).Filed? then OnDisk(disk, key).saved else live.value.1)
  }

  lemma PlaceSame(disk: Disk, next: Disk, key: Key)
    requires OnDisk(next, key) == OnDisk(disk, key)
    ensures forall live :: PlaceFrom(live, next, key) == PlaceFrom(live, disk, key)
  {
  }

  /** Without a job a run is where its record is; a job at the offset on record is ahead of nothing. */
  lemma PlaceOfRecord(disk: Disk, key: Key)
    ensures PlaceFrom(None, disk, key) == OnDisk(disk, key)
    ensures OnDisk(disk, key).Filed? ==>
      var p := OnDisk(disk, key); PlaceFrom(Some((p.id, p.saved)), disk, key) == Live(p.id, p.saved, p.saved)
  {
  }

  ghost predicate SamePlaces(w: World, v: World) {
    forall k :: OnDisk(v.disk, k) == OnDisk(w.disk, k)
  }

  ghost predicate FewerPlaces(w: World, v: World) {
    forall k :: OnDisk(v.disk, k) == OnDisk(w.disk, k) || OnDisk(v.disk, k) == Gone
  }

  lemma LaterPlaces(w: World, v: World)
    requires Later(w, v)
    ensures SamePlaces(w, v)
  {
    hide Grows;
  }

  lemma RebindPlaces(w: World, current: string, legacy: string)
    ensures SamePlaces(w, Apply(w, Rebind(current, legacy)))
  {
  }

  lemma DropUnkeyedPlaces(w: World)
    ensures FewerPlaces(w, Apply(w, DropUnkeyed))
  {
  }

  lemma PlacesElsewhere(w: World, v: World, key: Key)
    requires Elsewhere(w, v, key)
    ensures forall k :: k != key ==> OnDisk(v.disk, k) == OnDisk(w.disk, k)
  {
  }

  lemma NothingLeftPlace(w: World, v: World, key: Key)
    requires NothingLeft(w, v, key)
    ensures OnDisk(v.disk, key) == OnDisk(w.disk, key) || OnDisk(v.disk, key) == Gone
  {
  }

  /** What is on record under key is over, or was on record before, or is of the new run at its beginning. */
  ghost predicate OnlyNew(disk: Disk, next: Disk, key: Key, id: RunId) {
    key in next && !Over(next[key].status) ==>
      (key in disk && next[key] == disk[key]) || (next[key].id == id && next[key].offset == 0)
  }

  lemma NewRecordOnly(disk: Disk, next: Disk, key: Key, id: RunId)
    requires key in next ==> next[key].id == id && next[key].offset == 0
    ensures OnlyNew(disk, next, key, id)
  {
  }

  lemma OnlyNewPlace(disk: Disk, next: Disk, key: Key, id: RunId)
    requires OnlyNew(disk, next, key, id)
    ensures OnDisk(next, key) == OnDisk(disk, key) || OnDisk(next, key) == Gone || OnDisk(next, key) == Filed(id, 0)
  {
  }

  lemma OnlyNewThen(u: World, w: World, v: World, key: Key, id: RunId)
    requires OnlyNew(u.disk, w.disk, key, id) && NothingLeft(w, v, key)
    ensures OnlyNew(u.disk, v.disk, key, id)
  {
  }

  /** Nothing is left but what was on record of a run: its own record, or that of the run before it. */
  lemma NewRecordThen(u: World, w: World, v: World, key: Key, id: RunId)
    requires NothingLeft(w, v, key)
    requires key in w.disk ==> w.disk[key].id == id
    ensures w == u ==> NothingLeft(u, v, key)
    ensures (key in w.disk ==> w.disk[key].offset == 0) ==> OnlyNew(u.disk, v.disk, key, id)
  {
  }
}
