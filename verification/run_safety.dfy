/** Every allowed action keeps the invariant of the world, so every reachable world is safe. */
module RunSafety {
  import opened Text
  import opened RemoteExit
  import opened RunWorld
  import RetainedLog

  // ----- the history of starts, launches and prunings

  lemma AppendedEvent(events: seq<Event>, e: Event)
    ensures var more := events + [e];
      && (forall i, key :: 0 <= i < |events| ==>
            (PrunedAfter(more, i, key) <==> PrunedAfter(events, i, key) || (e.Pruned? && key in e.keys)))
      && (forall i, key :: 0 <= i < |events| ==> (PrunedBetween(more, i, |events|, key) <==> PrunedAfter(events, i, key)))
      && (forall i, j, key :: 0 <= i < j < |events| ==> (PrunedBetween(more, i, j, key) <==> PrunedBetween(events, i, j, key)))
  {
    var more := events + [e];
    forall i, key | 0 <= i < |events|
      ensures PrunedAfter(more, i, key) <==> PrunedAfter(events, i, key) || (e.Pruned? && key in e.keys)
    {
      if e.Pruned? && key in e.keys { assert more[|events|] == e; }
      if PrunedAfter(events, i, key) {
        var p :| i < p < |events| && events[p].Pruned? && key in events[p].keys;
        assert more[p] == events[p];
      }
    }
    forall i, key | 0 <= i < |events|
      ensures PrunedBetween(more, i, |events|, key) <==> PrunedAfter(events, i, key)
    {
      if PrunedAfter(events, i, key) {
        var p :| i < p < |events| && events[p].Pruned? && key in events[p].keys;
        assert more[p] == events[p];
      }
    }
    forall i, j, key | 0 <= i < j < |events|
      ensures PrunedBetween(more, i, j, key) <==> PrunedBetween(events, i, j, key)
    {
      if PrunedBetween(events, i, j, key) {
        var p :| i < p < j && events[p].Pruned? && key in events[p].keys;
        assert more[p] == events[p];
      }
    }
  }

  /** A new start or launch keeps the history sound when the earlier ones of its kind have another id, and those under
      the same run key were pruned since. */
  lemma AppendedOnce(events: seq<Event>, e: Event, spelled: set<Key>)
    requires AtMostOnce(events, spelled)
    requires forall i :: 0 <= i < |events| && SameKind(events[i], e) ==>
      && events[i].id != e.id && (events[i].key == e.key && Guarded(spelled, e.key) ==> PrunedAfter(events, i, e.key))
    ensures AtMostOnce(events + [e], spelled)
  {
    var more := events + [e];
    AppendedEvent(events, e);
    forall i, j | 0 <= i < j < |more| && SameKind(more[i], more[j])
      ensures more[i].id != more[j].id
      ensures more[i].key == more[j].key && Guarded(spelled, more[i].key) ==> PrunedBetween(more, i, j, more[i].key)
    {
      if j < |events| { assert more[j] == events[j] && SameKind(events[i], events[j]); }
      assert more[i] == events[i];
    }
  }

  lemma AppendedHeld(disk: Disk, events: seq<Event>, e: Event, spelled: set<Key>)
    requires KeysHeld(disk, events, spelled)
    requires !e.Pruned? && Guarded(spelled, e.key) ==> e.key in disk && disk[e.key].id == e.id
    ensures KeysHeld(disk, events + [e], spelled)
  {
    AppendedEvent(events, e);
  }

  // ----- changes that keep many parts of the invariant at once

  /** Records may go, or be bound to another fingerprint. */
  predicate Shrinks(disk: Disk, less: Disk) {
    forall k :: k in less ==> k in disk && less[k] == disk[k].(fingerprint := less[k].fingerprint, version := less[k].version)
  }

  lemma ShrunkDisk(w: World, less: Disk)
    requires Inv(w) && Shrinks(w.disk, less)
    ensures RecordsBound(less, w.bound, w.procs) && RecordsStarted(less, w.starts)
    ensures RecordsFit(less, w.spelled) && RecordsDated(less, w.now)
    ensures RecordsSealed(less, w.known, w.sealed, w.swept) && RecordsGivenUp(less, w.starts, w.noted)
  {
    hide KeysHeld, OpenStartsHeld, AtMostOnce, EventsBound, FilesKept, LogsFaithful, MetasFaithful, SealedStored,
         StartsBound, OutcomesKnown, DoneRetained, CleanedDone;
  }

  lemma ShrunkOutcomes(w: World, less: Disk)
    requires Inv(w) && Shrinks(w.disk, less)
    ensures OutcomesKnown(less, w.procs, w.known) && DoneRetained(less, w.logs, w.metas, w.sweptBefore)
  {
    hide KeysHeld, OpenStartsHeld, AtMostOnce, EventsBound, FilesKept, LogsFaithful, MetasFaithful, SealedStored,
         RecordsBound, StartsBound, RecordsStarted, RecordsDated, RecordsSealed, CleanedDone;
  }

  /** Launched commands stay, write more, and exit once; nothing changes after the exit. */
  predicate Grows(procs: Procs, more: Procs) {
    forall id :: id in procs ==>
      && id in more && more[id].start == procs[id].start && procs[id].written <= more[id].written
      && (procs[id].exit.Some? ==> more[id] == procs[id])
  }

  lemma GrownProcs(w: World, more: Procs)
    requires Inv(w) && Grows(w.procs, more)
    ensures RecordsBound(w.disk, w.bound, more) && OutcomesKnown(w.disk, more, w.known)
    ensures LogsFaithful(w.logs, more) && MetasFaithful(w.metas, more)
    ensures EventsBound(w.events, w.bound, w.starts, more) && OpenStartsHeld(w.disk, w.starts, w.bound, more, w.spelled)
  {
    hide KeysHeld, AtMostOnce, FilesKept, SealedStored, DoneRetained, RecordsSealed, RecordsDated,
         RetainedLog.Kept;
  }

  // ----- a saved record

  lemma SavedRecords(w: World, key: Key, rec: Record)
    requires Inv(w) && Allowed(w, Save(key, rec))
    ensures var disk := w.disk[key := rec]; var bound := w.bound[rec.id := key];
      && RecordsBound(disk, bound, w.procs) && StartsBound(w.starts, bound, w.procs)
      && EventsBound(w.events, bound, w.starts, w.procs)
  {
    hide KeysHeld, OpenStartsHeld, AtMostOnce, FilesKept, LogsFaithful, MetasFaithful, SealedStored, DoneRetained,
         RecordsSealed, TerminalRecord, OutcomesKnown, RecordsDated, RecordsStarted;
  }

  lemma SavedStarts(w: World, key: Key, rec: Record)
    requires Inv(w) && Allowed(w, Save(key, rec))
    ensures RecordsStarted(w.disk[key := rec], w.starts)
    ensures RecordsFit(w.disk[key := rec], w.spelled)
    ensures RecordsDated(w.disk[key := rec], w.now)
    ensures RecordsGivenUp(w.disk[key := rec], w.starts, w.noted)
  {
    hide KeysHeld, OpenStartsHeld, AtMostOnce, FilesKept, LogsFaithful, MetasFaithful, SealedStored, DoneRetained,
         RecordsSealed, OutcomesKnown, EventsBound, RecordsBound;
  }

  lemma SavedOutcomes(w: World, key: Key, rec: Record)
    requires Inv(w) && Allowed(w, Save(key, rec))
    ensures var v := Apply(w, Save(key, rec)); OutcomesKnown(v.disk, v.procs, v.known)
  {
    hide KeysHeld, OpenStartsHeld, AtMostOnce, EventsBound, FilesKept, LogsFaithful, MetasFaithful, SealedStored,
         DoneRetained, RecordsStarted, RecordsDated, RecordsSealed;
  }

  lemma SavedSeals(w: World, key: Key, rec: Record)
    requires Inv(w) && Allowed(w, Save(key, rec))
    ensures var v := Apply(w, Save(key, rec));
      && RecordsSealed(v.disk, v.known, v.sealed, v.swept) && CleanedDone(v.cleaned, v.sealed)
  {
    hide KeysHeld, OpenStartsHeld, AtMostOnce, EventsBound, FilesKept, LogsFaithful, MetasFaithful, RecordsStarted,
         RecordsDated, StartsBound, SealedStored, DoneRetained;
  }

  lemma SavedStored(w: World, key: Key, rec: Record)
    requires Inv(w) && Allowed(w, Save(key, rec))
    ensures var v := Apply(w, Save(key, rec));
      SealedStored(v.sealed, v.swept, v.logs, v.metas) && DoneRetained(v.disk, v.logs, v.metas, v.sweptBefore)
  {
    hide KeysHeld, OpenStartsHeld, AtMostOnce, EventsBound, FilesKept, LogsFaithful, MetasFaithful, RecordsStarted,
         RecordsDated, StartsBound, RecordsSealed, CleanedDone, OutcomesKnown, RecordsBound;
  }

  lemma SavedHeld(w: World, key: Key, rec: Record)
    requires Inv(w) && Allowed(w, Save(key, rec))
    ensures KeysHeld(w.disk[key := rec], w.events, w.spelled)
    ensures OpenStartsHeld(w.disk[key := rec], w.starts, w.bound[rec.id := key], w.procs, w.spelled)
  {
    hide AtMostOnce, FilesKept, LogsFaithful, MetasFaithful, SealedStored, DoneRetained, RecordsSealed, RecordsDated;
  }

  lemma SaveKeeps(w: World, key: Key, rec: Record)
    requires Inv(w) && Allowed(w, Save(key, rec))
    ensures Inv(Apply(w, Save(key, rec)))
  {
    hide RecordsFit, RecordsBound, StartsBound, RecordsStarted, RecordsGivenUp, OutcomesKnown, RecordsDated, RecordsSealed,
         EventsBound, KeysHeld, OpenStartsHeld, AtMostOnce, CleanedDone, SealedStored, LogsFaithful, MetasFaithful,
         FilesKept, DoneRetained;
    SavedRecords(w, key, rec);
    SavedStarts(w, key, rec);
    SavedOutcomes(w, key, rec);
    SavedSeals(w, key, rec);
    SavedStored(w, key, rec);
    SavedHeld(w, key, rec);
  }

  // ----- records that go

  lemma DropHeld(w: World, key: Key)
    requires Inv(w) && Allowed(w, Drop(key))
    ensures KeysHeld(w.disk - {key}, w.events, w.spelled)
    ensures OpenStartsHeld(w.disk - {key}, w.starts, w.bound, w.procs, w.spelled)
  {
    hide AtMostOnce, FilesKept, LogsFaithful, MetasFaithful, SealedStored, DoneRetained, RecordsSealed, RecordsDated;
  }

  lemma DropKeeps(w: World, key: Key)
    requires Inv(w) && Allowed(w, Drop(key))
    ensures Inv(Apply(w, Drop(key)))
  {
    hide RecordsFit, RecordsBound, StartsBound, RecordsStarted, RecordsGivenUp, OutcomesKnown, RecordsDated, RecordsSealed,
         EventsBound, KeysHeld, OpenStartsHeld, AtMostOnce, CleanedDone, SealedStored, LogsFaithful, MetasFaithful,
         FilesKept, DoneRetained;
    ShrunkDisk(w, w.disk - {key});
    ShrunkOutcomes(w, w.disk - {key});
    DropHeld(w, key);
  }

  lemma DropUnkeyedKeeps(w: World)
    requires Inv(w)
    ensures Inv(Apply(w, DropUnkeyed))
  {
    var less := map k | k in w.disk && w.disk[k].runKey.Some? :: w.disk[k];
    assert KeysHeld(less, w.events, w.spelled) && OpenStartsHeld(less, w.starts, w.bound, w.procs, w.spelled);
    hide RecordsFit, RecordsBound, StartsBound, RecordsStarted, RecordsGivenUp, OutcomesKnown, RecordsDated, RecordsSealed,
         EventsBound, KeysHeld, OpenStartsHeld, AtMostOnce, CleanedDone, SealedStored, LogsFaithful, MetasFaithful,
         FilesKept, DoneRetained;
    ShrunkDisk(w, less);
    ShrunkOutcomes(w, less);
  }

  lemma RebindHeld(w: World, current: string, legacy: string)
    requires Inv(w)
    ensures var less := RebindAll(w.disk, current, legacy);
      && KeysHeld(less, w.events, w.spelled) && OpenStartsHeld(less, w.starts, w.bound, w.procs, w.spelled)
      && Shrinks(w.disk, less)
  {
    hide FilesKept, LogsFaithful, MetasFaithful, SealedStored, DoneRetained, RecordsSealed, RecordsDated, AtMostOnce,
         EventsBound, StartsBound, RecordsStarted, OutcomesKnown, CleanedDone, PrunedAfter;
  }

  lemma RebindKeeps(w: World, current: string, legacy: string)
    requires Inv(w)
    ensures Inv(Apply(w, Rebind(current, legacy)))
  {
    var less := RebindAll(w.disk, current, legacy);
    RebindHeld(w, current, legacy);
    hide RecordsFit, RecordsBound, StartsBound, RecordsStarted, RecordsGivenUp, OutcomesKnown, RecordsDated, RecordsSealed,
         EventsBound, KeysHeld, OpenStartsHeld, AtMostOnce, CleanedDone, SealedStored, LogsFaithful, MetasFaithful,
         FilesKept, DoneRetained, Shrinks;
    ShrunkDisk(w, less);
    ShrunkOutcomes(w, less);
  }

  lemma PruneHeld(w: World, at: int)
    requires Inv(w) && Allowed(w, Prune(at))
    ensures var v := Apply(w, Prune(at));
      && KeysHeld(v.disk, v.events, v.spelled) && OpenStartsHeld(v.disk, v.starts, v.bound, v.procs, v.spelled)
      && AtMostOnce(v.events, v.spelled)
      && EventsBound(v.events, v.bound, v.starts, v.procs)
  {
    hide FilesKept, LogsFaithful, MetasFaithful, SealedStored, DoneRetained, RecordsSealed, RecordsDated;
    AppendedEvent(w.events, Pruned(PrunedKeys(w.disk, at)));
    AppendedOnce(w.events, Pruned(PrunedKeys(w.disk, at)), w.spelled);
  }

  lemma PruneKeeps(w: World, at: int)
    requires Inv(w) && Allowed(w, Prune(at))
    ensures Inv(Apply(w, Prune(at)))
  {
    hide RecordsFit, RecordsBound, StartsBound, RecordsStarted, RecordsGivenUp, OutcomesKnown, RecordsDated, RecordsSealed,
         EventsBound, KeysHeld, OpenStartsHeld, AtMostOnce, CleanedDone, SealedStored, LogsFaithful, MetasFaithful,
         FilesKept, DoneRetained;
    ShrunkDisk(w, w.disk - PrunedKeys(w.disk, at));
    ShrunkOutcomes(w, w.disk - PrunedKeys(w.disk, at));
    PruneHeld(w, at);
  }

  // ----- the local runs directory

  lemma SweptRecords(w: World, cutoff: int, oldLogs: set<RunId>, oldMetas: set<RunId>)
    requires Inv(w) && Allowed(w, SweepLocal(cutoff, oldLogs, oldMetas))
    ensures var v := Apply(w, SweepLocal(cutoff, oldLogs, oldMetas));
      DoneRetained(v.disk, v.logs, v.metas, v.sweptBefore) && RecordsSealed(v.disk, v.known, v.sealed, v.swept)
  {
    hide KeysHeld, OpenStartsHeld, AtMostOnce, EventsBound, FilesKept, OutcomesKnown, RecordsBound, StartsBound,
         RecordsStarted, RecordsDated, LogsFaithful, MetasFaithful, SealedStored;
  }

  lemma SweptFiles(w: World, cutoff: int, oldLogs: set<RunId>, oldMetas: set<RunId>)
    requires Inv(w) && Allowed(w, SweepLocal(cutoff, oldLogs, oldMetas))
    ensures var v := Apply(w, SweepLocal(cutoff, oldLogs, oldMetas));
      SealedStored(v.sealed, v.swept, v.logs, v.metas) && LogsFaithful(v.logs, v.procs) && MetasFaithful(v.metas, v.procs)
  {
    hide KeysHeld, OpenStartsHeld, AtMostOnce, EventsBound, FilesKept, OutcomesKnown, RecordsBound, StartsBound,
         RecordsStarted, RecordsDated, DoneRetained, RecordsSealed, RetainedLog.Kept;
  }

  lemma SweepLocalKeeps(w: World, cutoff: int, oldLogs: set<RunId>, oldMetas: set<RunId>)
    requires Inv(w) && Allowed(w, SweepLocal(cutoff, oldLogs, oldMetas))
    ensures Inv(Apply(w, SweepLocal(cutoff, oldLogs, oldMetas)))
  {
    hide RecordsFit, RecordsBound, StartsBound, RecordsStarted, RecordsGivenUp, OutcomesKnown, RecordsDated, RecordsSealed,
         EventsBound, KeysHeld, OpenStartsHeld, AtMostOnce, CleanedDone, SealedStored, LogsFaithful, MetasFaithful,
         FilesKept, DoneRetained;
    SweptRecords(w, cutoff, oldLogs, oldMetas);
    SweptFiles(w, cutoff, oldLogs, oldMetas);
  }

  lemma SaveMetaKeeps(w: World, id: RunId, meta: Meta)
    requires Inv(w) && Allowed(w, SaveMeta(id, meta))
    ensures Inv(Apply(w, SaveMeta(id, meta)))
  {
    hide KeysHeld, OpenStartsHeld, AtMostOnce, EventsBound, FilesKept, OutcomesKnown, RecordsBound, StartsBound,
         RecordsStarted, RecordsSealed, CleanedDone, RetainedLog.Kept;
  }

  lemma SaveLogKeeps(w: World, id: RunId)
    requires Inv(w) && Allowed(w, SaveLog(id))
    ensures Inv(Apply(w, SaveLog(id)))
  {
    hide KeysHeld, OpenStartsHeld, AtMostOnce, EventsBound, FilesKept, OutcomesKnown, RecordsBound, StartsBound,
         RecordsStarted, RecordsSealed, CleanedDone, RetainedLog.Kept;
  }

  lemma RemoveMetaKeeps(w: World, id: RunId)
    requires Inv(w) && Allowed(w, RemoveMeta(id))
    ensures Inv(Apply(w, RemoveMeta(id)))
  {
    hide KeysHeld, OpenStartsHeld, AtMostOnce, EventsBound, FilesKept, OutcomesKnown, RecordsBound, StartsBound,
         RecordsStarted, RecordsSealed, CleanedDone, RetainedLog.Kept;
  }

  // ----- the remote host

  lemma SendHeld(w: World, key: Key, start: Start)
    requires Inv(w) && Allowed(w, Send(key, start))
    ensures var v := Apply(w, Send(key, start)); KeysHeld(v.disk, v.events, v.spelled) && AtMostOnce(v.events, v.spelled)
  {
    hide FilesKept, LogsFaithful, MetasFaithful, SealedStored, DoneRetained, RecordsSealed, RecordsDated;
    AppendedOnce(w.events, Sent(key, w.disk[key].id), w.spelled);
    AppendedHeld(w.disk, w.events, Sent(key, w.disk[key].id), w.spelled);
  }

  lemma SendStarts(w: World, key: Key, start: Start)
    requires Inv(w) && Allowed(w, Send(key, start))
    ensures var v := Apply(w, Send(key, start));
      && StartsBound(v.starts, v.bound, v.procs) && RecordsStarted(v.disk, v.starts)
      && RecordsGivenUp(v.disk, v.starts, v.noted)
      && EventsBound(v.events, v.bound, v.starts, v.procs) && OpenStartsHeld(v.disk, v.starts, v.bound, v.procs, v.spelled)
  {
    hide KeysHeld, AtMostOnce, FilesKept, LogsFaithful, MetasFaithful, SealedStored, DoneRetained, RecordsSealed,
         OutcomesKnown, RecordsDated;
  }

  lemma SendKeeps(w: World, key: Key, start: Start)
    requires Inv(w) && Allowed(w, Send(key, start))
    ensures Inv(Apply(w, Send(key, start)))
  {
    hide RecordsFit, RecordsBound, StartsBound, RecordsStarted, RecordsGivenUp, OutcomesKnown, RecordsDated, RecordsSealed,
         EventsBound, KeysHeld, OpenStartsHeld, AtMostOnce, CleanedDone, SealedStored, LogsFaithful, MetasFaithful,
         FilesKept, DoneRetained;
    SendHeld(w, key, start);
    SendStarts(w, key, start);
  }

  lemma LaunchHeld(w: World, id: RunId)
    requires Inv(w) && Allowed(w, Launch(id))
    ensures var v := Apply(w, Launch(id));
      && KeysHeld(v.disk, v.events, v.spelled) && AtMostOnce(v.events, v.spelled)
      && EventsBound(v.events, v.bound, v.starts, v.procs)
  {
    hide FilesKept, LogsFaithful, MetasFaithful, SealedStored, DoneRetained, RecordsSealed, RecordsDated;
    AppendedOnce(w.events, Launched(w.bound[id], id), w.spelled);
    AppendedHeld(w.disk, w.events, Launched(w.bound[id], id), w.spelled);
  }

  lemma LaunchGrows(w: World, id: RunId)
    requires Inv(w) && Allowed(w, Launch(id))
    ensures var v := Apply(w, Launch(id));
      id in w.bound && Grows(w.procs, v.procs) && StartsBound(v.starts, v.bound, v.procs)
  {
    hide KeysHeld, OpenStartsHeld, AtMostOnce, EventsBound, LogsFaithful, MetasFaithful, SealedStored, DoneRetained,
         RecordsSealed, OutcomesKnown, RecordsDated, RecordsBound, RecordsStarted, CleanedDone, FilesKept;
  }

  lemma LaunchFiles(w: World, id: RunId)
    requires Inv(w) && Allowed(w, Launch(id))
    ensures var v := Apply(w, Launch(id)); FilesKept(v.files, v.procs, v.cleaned, v.lost)
  {
    hide KeysHeld, OpenStartsHeld, AtMostOnce, EventsBound, LogsFaithful, MetasFaithful, SealedStored, DoneRetained,
         RecordsSealed, OutcomesKnown, RecordsDated, RecordsBound, RecordsStarted, CleanedDone;
  }

  lemma LaunchKeeps(w: World, id: RunId)
    requires Inv(w) && Allowed(w, Launch(id))
    ensures Inv(Apply(w, Launch(id)))
  {
    hide RecordsFit, RecordsBound, StartsBound, RecordsStarted, RecordsGivenUp, OutcomesKnown, RecordsDated, RecordsSealed,
         EventsBound, KeysHeld, OpenStartsHeld, AtMostOnce, CleanedDone, SealedStored, LogsFaithful, MetasFaithful,
         FilesKept, DoneRetained, Grows;
    LaunchGrows(w, id);
    LaunchFiles(w, id);
    LaunchHeld(w, id);
    GrownProcs(w, Apply(w, Launch(id)).procs);
  }

  lemma WriteGrows(w: World, id: RunId, bytes: seq<byte>)
    requires Inv(w) && Allowed(w, Write(id, bytes))
    ensures var v := Apply(w, Write(id, bytes));
      id in w.bound && Grows(w.procs, v.procs) && StartsBound(v.starts, v.bound, v.procs)
  {
    hide KeysHeld, OpenStartsHeld, AtMostOnce, EventsBound, LogsFaithful, MetasFaithful, SealedStored, DoneRetained,
         RecordsSealed, OutcomesKnown, RecordsDated, RecordsBound, RecordsStarted, CleanedDone, FilesKept;
  }

  lemma WriteFiles(w: World, id: RunId, bytes: seq<byte>)
    requires Inv(w) && Allowed(w, Write(id, bytes))
    ensures var v := Apply(w, Write(id, bytes)); FilesKept(v.files, v.procs, v.cleaned, v.lost)
  {
    hide KeysHeld, OpenStartsHeld, AtMostOnce, EventsBound, LogsFaithful, MetasFaithful, SealedStored, DoneRetained,
         RecordsSealed, OutcomesKnown, RecordsDated, RecordsBound, RecordsStarted, CleanedDone;
  }

  lemma WriteKeeps(w: World, id: RunId, bytes: seq<byte>)
    requires Inv(w) && Allowed(w, Write(id, bytes))
    ensures Inv(Apply(w, Write(id, bytes)))
  {
    hide RecordsFit, RecordsBound, StartsBound, RecordsStarted, RecordsGivenUp, OutcomesKnown, RecordsDated, RecordsSealed,
         EventsBound, KeysHeld, OpenStartsHeld, AtMostOnce, CleanedDone, SealedStored, LogsFaithful, MetasFaithful,
         FilesKept, DoneRetained, Grows;
    WriteGrows(w, id, bytes);
    WriteFiles(w, id, bytes);
    GrownProcs(w, Apply(w, Write(id, bytes)).procs);
  }

  lemma FinishGrows(w: World, id: RunId, exit: Exit)
    requires Inv(w) && Allowed(w, Finish(id, exit))
    ensures var v := Apply(w, Finish(id, exit));
      id in w.bound && Grows(w.procs, v.procs) && StartsBound(v.starts, v.bound, v.procs)
  {
    hide KeysHeld, OpenStartsHeld, AtMostOnce, EventsBound, LogsFaithful, MetasFaithful, SealedStored, DoneRetained,
         RecordsSealed, OutcomesKnown, RecordsDated, RecordsBound, RecordsStarted, CleanedDone, FilesKept;
  }

  lemma FinishFiles(w: World, id: RunId, exit: Exit)
    requires Inv(w) && Allowed(w, Finish(id, exit))
    ensures var v := Apply(w, Finish(id, exit)); FilesKept(v.files, v.procs, v.cleaned, v.lost)
  {
    hide KeysHeld, OpenStartsHeld, AtMostOnce, EventsBound, LogsFaithful, MetasFaithful, SealedStored, DoneRetained,
         RecordsSealed, OutcomesKnown, RecordsDated, RecordsBound, RecordsStarted, CleanedDone;
  }

  lemma FinishKeeps(w: World, id: RunId, exit: Exit)
    requires Inv(w) && Allowed(w, Finish(id, exit))
    ensures Inv(Apply(w, Finish(id, exit)))
  {
    hide RecordsFit, RecordsBound, StartsBound, RecordsStarted, RecordsGivenUp, OutcomesKnown, RecordsDated, RecordsSealed,
         EventsBound, KeysHeld, OpenStartsHeld, AtMostOnce, CleanedDone, SealedStored, LogsFaithful, MetasFaithful,
         FilesKept, DoneRetained, Grows;
    FinishGrows(w, id, exit);
    FinishFiles(w, id, exit);
    GrownProcs(w, Apply(w, Finish(id, exit)).procs);
  }

  lemma CleanKeeps(w: World, id: RunId, left: Files)
    requires Inv(w) && Allowed(w, Clean(id, left))
    ensures Inv(Apply(w, Clean(id, left)))
  {
    hide KeysHeld, OpenStartsHeld, AtMostOnce, EventsBound, LogsFaithful, MetasFaithful, SealedStored, DoneRetained;
  }

  lemma LoseKeeps(w: World, id: RunId, left: Files)
    requires Inv(w) && Allowed(w, Lose(id, left))
    ensures Inv(Apply(w, Lose(id, left)))
  {
    hide KeysHeld, OpenStartsHeld, AtMostOnce, EventsBound, LogsFaithful, MetasFaithful, SealedStored, DoneRetained,
         RecordsBound, StartsBound, RecordsStarted, OutcomesKnown, RecordsDated, RecordsSealed, CleanedDone;
  }

  lemma TickKeeps(w: World, to: int)
    requires Inv(w) && Allowed(w, Tick(to))
    ensures Inv(Apply(w, Tick(to)))
  {
    assert RecordsDated(w.disk, to);
    hide RecordsFit, RecordsBound, StartsBound, RecordsStarted, RecordsGivenUp, OutcomesKnown, RecordsDated, RecordsSealed,
         EventsBound, KeysHeld, OpenStartsHeld, AtMostOnce, CleanedDone, SealedStored, LogsFaithful, MetasFaithful,
         FilesKept, DoneRetained;
  }

  // ----- registry keys that commands spell

  lemma SpellKeeps(w: World, key: Key)
    requires Inv(w) && Allowed(w, Spell(key))
    ensures Inv(Apply(w, Spell(key)))
  {
    hide RecordsBound, StartsBound, OutcomesKnown, RecordsDated, RecordsSealed, EventsBound, CleanedDone, SealedStored,
         LogsFaithful, MetasFaithful, FilesKept, DoneRetained;
  }

  // ----- what is noted

  lemma NoticeKeeps(w: World, note: Note)
    requires Inv(w)
    ensures Inv(Apply(w, Notice(note)))
  {
    hide RecordsFit, RecordsBound, StartsBound, RecordsStarted, OutcomesKnown, RecordsDated, RecordsSealed,
         EventsBound, KeysHeld, OpenStartsHeld, AtMostOnce, CleanedDone, SealedStored, LogsFaithful, MetasFaithful,
         FilesKept, DoneRetained;
  }

  // ----- whole runs

  lemma StepKeeps(w: World, a: Action)
    requires Inv(w) && Allowed(w, a)
    ensures Inv(Apply(w, a))
  {
    hide Inv, Apply;
    match a
    case Tick(to) => TickKeeps(w, to);
    case Save(key, rec) => SaveKeeps(w, key, rec);
    case Drop(key) => DropKeeps(w, key);
    case DropUnkeyed => DropUnkeyedKeeps(w);
    case Rebind(current, legacy) => RebindKeeps(w, current, legacy);
    case Prune(at) => PruneKeeps(w, at);
    case SweepLocal(cutoff, oldLogs, oldMetas) => SweepLocalKeeps(w, cutoff, oldLogs, oldMetas);
    case SaveMeta(id, meta) => SaveMetaKeeps(w, id, meta);
    case SaveLog(id) => SaveLogKeeps(w, id);
    case RemoveMeta(id) => RemoveMetaKeeps(w, id);
    case Send(key, start) => SendKeeps(w, key, start);
    case Clean(id, left) => CleanKeeps(w, id, left);
    case Launch(id) => LaunchKeeps(w, id);
    case Write(id, bytes) => WriteKeeps(w, id, bytes);
    case Finish(id, exit) => FinishKeeps(w, id, exit);
    case Lose(id, left) => LoseKeeps(w, id, left);
    case Spell(key) => SpellKeeps(w, key);
    case Notice(note) => NoticeKeeps(w, note);
  }

  /** The world after a run of actions. */
  function Play(w: World, run: seq<Action>): World {
    if run == [] then w else Apply(Play(w, run[..|run| - 1]), run[|run| - 1])
  }

  ghost predicate Playable(w: World, run: seq<Action>) {
    run != [] ==> Playable(w, run[..|run| - 1]) && Allowed(Play(w, run[..|run| - 1]), run[|run| - 1])
  }

  lemma {:induction false} PlayKeeps(w: World, run: seq<Action>)
    requires Inv(w) && Playable(w, run)
    ensures Inv(Play(w, run))
  {
    hide Inv, Apply, Allowed;
    if run != [] {
      PlayKeeps(w, run[..|run| - 1]);
      StepKeeps(Play(w, run[..|run| - 1]), run[|run| - 1]);
    }
  }

  lemma {:induction false} PlayablePrefix(w: World, run: seq<Action>, n: nat)
    requires Playable(w, run) && n <= |run|
    ensures Playable(w, run[..n])
  {
    if n == |run| {
      assert run[..n] == run;
    } else {
      assert run[..|run| - 1][..n] == run[..n];
      PlayablePrefix(w, run[..|run| - 1], n);
    }
  }

  lemma EmptyIsSafe()
    ensures Inv(EMPTY)
  {
  }

  /** At most once: after any part of any run, no run id was started or launched twice, and between two starts, or two
      launches, under one run key the key's done record was pruned - for every run key that no command without a run key
      spelled before. */
  lemma AtMostOnceAlways(run: seq<Action>, n: nat)
    requires Playable(EMPTY, run) && n <= |run|
    ensures var w := Play(EMPTY, run[..n]);
      AtMostOnce(w.events, w.spelled) && forall key :: key in w.spelled <==> Spell(key) in run[..n]
  {
    hide Apply, Allowed, AtMostOnce;
    EmptyIsSafe();
    PlayablePrefix(EMPTY, run, n);
    PlayKeeps(EMPTY, run[..n]);
    forall key ensures key in Play(EMPTY, run[..n]).spelled <==> Spell(key) in run[..n] {
      SpelledInRun(run[..n], key);
    }
  }

  lemma {:induction false} SpelledInRun(run: seq<Action>, key: Key)
    ensures key in Play(EMPTY, run).spelled <==> Spell(key) in run
  {
    if run != [] {
      var before, last := run[..|run| - 1], run[|run| - 1];
      SpelledInRun(before, key);
      assert run == before + [last];
      SpelledByStep(Play(EMPTY, before), last);
    }
  }

  lemma SpelledByStep(w: World, a: Action)
    ensures Apply(w, a).spelled == if a.Spell? then w.spelled + {a.key} else w.spelled
  {
  }

  /** Durable hand-off: at any point of any run, clean-up was sent only for a run that was durably done and whose whole
      kept log and metadata are stored locally, unless swept since; and a run that exited has its log remotely or
      locally, unless the host lost it or it was swept. */
  lemma LogNeverLost(run: seq<Action>, n: nat, id: RunId)
    requires Playable(EMPTY, run) && n <= |run|
    ensures var w := Play(EMPTY, run[..n]);
      && (id in w.cleaned ==> id in w.sealed && Exited(w, id))
      && (id in w.cleaned && id !in w.swept ==>
            id in w.metas && id in w.logs && w.logs[id].content == RetainedLog.Kept(w.procs[id].written))
      && (Exited(w, id) && id !in w.lost && id !in w.swept ==>
            (id in w.files && w.files[id].log && w.files[id].rc)
            || (id in w.logs && w.logs[id].content == RetainedLog.Kept(w.procs[id].written)))
  {
    hide Apply, Allowed, KeysHeld, OpenStartsHeld, AtMostOnce, EventsBound, RetainedLog.Kept;
    EmptyIsSafe();
    PlayablePrefix(EMPTY, run, n);
    PlayKeeps(EMPTY, run[..n]);
  }

  lemma {:induction false} OutcomesStay(w: World, run: seq<Action>, id: RunId)
    requires Inv(w) && Playable(w, run) && id in w.known
    ensures var v := Play(w, run); id in v.known && Exited(w, id) && Exited(v, id) && v.procs[id] == w.procs[id]
  {
    hide Apply, Allowed;
    if run != [] {
      var most := run[..|run| - 1];
      OutcomesStay(w, most, id);
      StepKeepsOutcome(Play(w, most), run[|run| - 1], id);
    }
  }

  lemma StepKeepsOutcome(w: World, a: Action, id: RunId)
    requires id in w.known && Exited(w, id) && Allowed(w, a)
    ensures var v := Apply(w, a); id in v.known && Exited(v, id) && v.procs[id] == w.procs[id]
  {
  }

  /** A known outcome is never forgotten: once a run's record is finalize_pending or done, every record of that run in
      every later world is finalize_pending or done with the same exit code, which is the exit of the command. */
  lemma OutcomeNeverForgotten(w: World, key: Key, run: seq<Action>, later: Key)
    requires Inv(w) && Playable(w, run) && key in w.disk && w.disk[key].Terminal()
    requires var v := Play(w, run); later in v.disk && v.disk[later].id == w.disk[key].id
    ensures var v := Play(w, run);
      && later == key && v.disk[later].Terminal() && v.disk[later].exitCode == w.disk[key].exitCode
      && Exited(v, v.disk[later].id) && v.procs[v.disk[later].id].exit.value.code == w.disk[key].exitCode
  {
    hide Apply, Allowed, KeysHeld, OpenStartsHeld, AtMostOnce, EventsBound, FilesKept, LogsFaithful, DoneRetained;
    OutcomesStay(w, run, w.disk[key].id);
    PlayKeeps(w, run);
    BoundStays(w, run, w.disk[key].id);
  }

  lemma {:induction false} BoundStays(w: World, run: seq<Action>, id: RunId)
    requires Playable(w, run) && id in w.bound
    ensures id in Play(w, run).bound && Play(w, run).bound[id] == w.bound[id]
  {
    hide Apply, Allowed;
    if run != [] {
      BoundStays(w, run[..|run| - 1], id);
      StepKeepsBound(Play(w, run[..|run| - 1]), run[|run| - 1], id);
    }
  }

  lemma StepKeepsBound(w: World, a: Action, id: RunId)
    requires id in w.bound && Allowed(w, a)
    ensures id in Apply(w, a).bound && Apply(w, a).bound[id] == w.bound[id]
  {
  }

  /** Retention alignment: after any run, when pruning at the present time succeeds, every done record left under a run
      key has its log and metadata, stored no earlier than the run finished. */
  lemma PruningAligns(run: seq<Action>, key: Key)
    requires Playable(EMPTY, run)
    requires var w := Play(EMPTY, run); var v := Apply(w, Prune(w.now));
      key in v.disk && v.disk[key].runKey.Some? && v.disk[key].status == Done
    ensures var w := Play(EMPTY, run); var v := Apply(w, Prune(w.now));
      StoredSince(v, v.disk[key].id, v.disk[key].finishedAt)
  {
    hide KeysHeld, OpenStartsHeld, AtMostOnce, EventsBound, FilesKept, LogsFaithful, MetasFaithful, RecordsBound, Play,
         Playable;
    EmptyIsSafe();
    PlayKeeps(EMPTY, run);
  }
}
