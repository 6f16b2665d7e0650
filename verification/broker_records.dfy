/** What a run's record may become, and the single actions of the broker on it. */
module BrokerRecords {
  import opened Text
  import opened RemoteExit
  import opened RunWorld
  import opened RunSafety
  import opened BrokerState
  import opened BrokerFrames
  import RetainedLog

  // ----- the next record of a run

  lemma RecordBound(w: World, key: Key, rec: Record)
    requires ContinuesRun(w, key, rec)
    ensures rec.id in w.bound && w.bound[rec.id] == key
  {
  }

  lemma SameRunLater(w: World, v: World, key: Key, rec: Record)
    requires ContinuesRun(w, key, rec) && key in v.disk && (v.disk[key] == rec || Later(w, v))
    ensures v.disk[key].id == rec.id
  {
  }

  lemma FinishInRange(w: World, key: Key, rec: Record)
    requires ContinuesRun(w, key, rec)
    ensures rec.finishedAt != 0 ==> 0 < rec.finishedAt <= w.now
  {
  }

  lemma AdvancedContinues(w: World, key: Key, rec: Record, offset: nat, lastSeenAt: int)
    requires ContinuesRun(w, key, rec) && rec.offset <= offset <= |Written(w, rec.id)|
    ensures ContinuesRun(w, key, rec.(offset := offset, lastSeenAt := lastSeenAt))
  {
  }

  lemma BoundContinues(w: World, key: Key, rec: Record, fingerprint: string)
    requires ContinuesRun(w, key, rec)
    ensures ContinuesRun(w, key, rec.(fingerprint := fingerprint))
  {
  }

  lemma ObservedContinues(w: World, key: Key, rec: Record, lastSeenAt: int)
    requires ContinuesRun(w, key, rec)
    ensures ContinuesRun(w, key, rec.(lastSeenAt := lastSeenAt))
  {
  }

  lemma RunningContinues(w: World, key: Key, rec: Record)
    requires ContinuesRun(w, key, rec) && rec.status == Starting && rec.id in w.starts
    ensures ContinuesRun(w, key, rec.(status := Status.Running))
  {
  }

  lemma FailedContinues(w: World, key: Key, rec: Record, exitCode: int)
    requires ContinuesRun(w, key, rec) && rec.status == Starting && rec.id !in w.starts
    ensures ContinuesRun(w, key, rec.(status := Failed, exitCode := exitCode))
  {
  }

  lemma LostContinues(w: World, key: Key, rec: Record)
    requires ContinuesRun(w, key, rec) && !rec.Terminal() && rec.runKey.None? && Vanished(rec.id) in w.noted
    ensures ContinuesRun(w, key, rec.(status := Failed, exitCode := 1))
  {
  }

  lemma ExpiredContinues(w: World, key: Key, rec: Record)
    requires ContinuesRun(w, key, rec) && !rec.Terminal() && Vanished(rec.id) in w.noted
    ensures ContinuesRun(w, key, rec.(status := Expired, finishedAt := 0, durationMS := 0))
  {
  }

  lemma ExitedContinues(w: World, key: Key, rec: Record, finishedAt: int, durationMS: int)
    requires ContinuesRun(w, key, rec) && ExitedIn(w.procs, rec.id) && (rec.id in w.sealed ==> rec.id in w.swept)
    requires 0 < finishedAt <= w.now
    ensures ContinuesRun(w, key, rec.(status := FinalizePending, exitCode := w.procs[rec.id].exit.value.code,
                                      finishedAt := finishedAt, durationMS := durationMS))
  {
  }

  lemma DoneContinues(w: World, key: Key, rec: Record)
    requires ContinuesRun(w, key, rec) && rec.status == FinalizePending && StoredSince(w, rec.id, rec.finishedAt)
    ensures ContinuesRun(w, key, rec.(status := Done))
  {
  }

  lemma PendingContinues(w: World, key: Key, rec: Record)
    requires ContinuesRun(w, key, rec) && rec.status == Done && (rec.id in w.sealed ==> rec.id in w.swept)
    ensures ContinuesRun(w, key, rec.(status := FinalizePending))
  {
  }

  lemma ReplacedNotStarted(w: World, key: Key, rec: Record)
    requires ContinuesRun(w, key, rec) && rec.runKey.Some? && rec.status == Failed
    ensures key in w.disk ==> w.disk[key].id !in w.starts
  {
  }

  /** The record of a run that a job goes on with has the job's command. */
  lemma JobRecord(w: World, j: Job)
    ensures j.Sound(w) && Guarded(w.spelled, j.key) && j.key in w.disk ==> w.disk[j.key].commandHash == j.commandHash
    ensures j.Sound(w) && j.key in w.disk ==> w.disk[j.key].id == j.id
    ensures j.Sound(w) ==> j.status != Pending
  {
  }

  lemma ThinnedKeepsRecord(w: World, v: World, key: Key, rec: Record)
    requires Thinned(w, v) && ContinuesRun(w, key, rec)
    ensures ContinuesRun(v, key, rec) && w.now <= v.now && v.spelled == w.spelled
  {
  }

  lemma SpellKeepsRecord(w: World, key: Key, other: Key, rec: Record)
    requires ContinuesRun(w, other, rec) && Fits(w.spelled, other, rec)
    ensures var v := w.(spelled := w.spelled + {key}); ContinuesRun(v, other, rec) && Fits(v.spelled, other, rec)
  {
  }

  lemma DropKeepsRecord(w: World, key: Key, other: Key, rec: Record)
    requires other != key && ContinuesRun(w, other, rec)
    ensures ContinuesRun(Apply(w, Drop(key)), other, rec) && Apply(w, Drop(key)).now == w.now
  {
  }

  // ----- a record is saved or dropped

  lemma SaveIsBeside(w: World, key: Key, rec: Record)
    requires Savable(w, key, rec)
    ensures var v := Apply(w, Save(key, rec));
      && Allowed(w, Save(key, rec)) && Beside(w, v, key, rec.id) && Calm(w, v, key)
      && v.disk == w.disk[key := rec] && (rec.status == Done ==> rec.id in v.sealed)
  {
    hide BeginsRun, ContinuesRun;
  }

  lemma UnboundIsUnknown(w: World, id: RunId)
    requires Inv(w) && id !in w.bound
    ensures id !in w.starts && id !in w.procs && id !in w.known && id !in w.sealed
  {
    hide KeysHeld, OpenStartsHeld, AtMostOnce, EventsBound, FilesKept, LogsFaithful, MetasFaithful, SealedStored,
         DoneRetained, CleanedDone, RecordsDated, RecordsStarted, RecordsBound;
  }

  lemma SavedContinues(w: World, key: Key, rec: Record)
    requires Inv(w) && Savable(w, key, rec)
    ensures ContinuesRun(Apply(w, Save(key, rec)), key, rec)
  {
    hide Inv;
    if rec.id !in w.bound {
      UnboundIsUnknown(w, rec.id);
    }
  }

  lemma DropIsCalm(w: World, key: Key)
    requires Guarded(w.spelled, key) && key in w.disk ==> w.disk[key].id !in w.starts
    ensures Allowed(w, Drop(key)) && Calm(w, Apply(w, Drop(key)), key) && Apply(w, Drop(key)).disk == w.disk - {key}
  {
  }

  lemma DropUnkeyedIsAllowed(w: World)
    ensures Allowed(w, DropUnkeyed)
    ensures Apply(w, DropUnkeyed).disk == map k | k in w.disk && w.disk[k].runKey.Some? :: w.disk[k]
  {
  }

  lemma RebindIsAllowed(w: World, current: string, legacy: string)
    ensures Allowed(w, Rebind(current, legacy))
    ensures Apply(w, Rebind(current, legacy)).disk == RebindAll(w.disk, current, legacy)
  {
  }

  lemma PruneIsAllowed(w: World)
    ensures Allowed(w, Prune(w.now)) && Apply(w, Prune(w.now)).disk == w.disk - PrunedKeys(w.disk, w.now)
  {
  }

  lemma SpellIsAllowed(w: World, key: Key)
    ensures Allowed(w, Spell(key)) && Apply(w, Spell(key)) == w.(spelled := w.spelled + {key})
  {
  }

  // ----- a start goes out and arrives

  lemma SendIsBeside(w: World, key: Key, start: Start)
    requires key in w.disk && w.disk[key].status == Starting && w.disk[key].id !in w.starts
    requires start.fingerprint == w.disk[key].fingerprint
    requires start.command == (if w.disk[key].runKey.Some? then w.disk[key].commandHash else key.Hashed())
    ensures var v := Apply(w, Send(key, start));
      && Allowed(w, Send(key, start)) && Beside(w, v, key, w.disk[key].id)
      && v.disk == w.disk && v.starts == w.starts[w.disk[key].id := start] && v.bound == w.bound && v.procs == w.procs
  {
  }

  lemma SentContinues(w: World, key: Key, start: Start, rec: Record)
    requires key in w.disk && w.disk[key] == rec && rec.status == Starting && ContinuesRun(w, key, rec)
    requires rec.runKey.Some? ==> start.command == rec.commandHash
    requires Fits(w.spelled, key, rec)
    ensures ContinuesRun(Apply(w, Send(key, start)), key, rec)
  {
  }

  lemma LaunchIsBeside(w: World, key: Key, id: RunId)
    requires id in w.starts && id !in w.procs && id in w.bound
    ensures var v := Apply(w, Launch(id));
      && Allowed(w, Launch(id)) && Beside(w, v, key, id)
      && v.disk == w.disk && v.starts == w.starts && v.bound == w.bound && id in v.procs
  {
  }

  lemma LaunchContinues(w: World, key: Key, id: RunId, rec: Record)
    requires ContinuesRun(w, key, rec) && id in w.starts && id !in w.procs && id in w.bound
    ensures ContinuesRun(Apply(w, Launch(id)), key, rec)
  {
  }

  // ----- files are stored and removed

  lemma SaveMetaIsBeside(w: World, key: Key, rec: Record, meta: Meta)
    requires ContinuesRun(w, key, rec) && rec.status == FinalizePending && meta.exitCode == rec.exitCode
    ensures var v := Apply(w, SaveMeta(rec.id, meta));
      && Allowed(w, SaveMeta(rec.id, meta)) && Beside(w, v, key, rec.id) && ContinuesRun(v, key, rec)
      && v.disk == w.disk && v.starts == w.starts && v.swept == w.swept && v.now == w.now && v.spelled == w.spelled
      && rec.id in v.metas && rec.finishedAt <= v.metas[rec.id].modified && v.metas[rec.id].content == meta
      && rec.id in w.bound && w.bound[rec.id] == key
  {
  }

  lemma SaveLogIsBeside(w: World, key: Key, rec: Record)
    requires ContinuesRun(w, key, rec) && rec.status == FinalizePending
    ensures var v := Apply(w, SaveLog(rec.id));
      && Allowed(w, SaveLog(rec.id)) && Beside(w, v, key, rec.id) && ContinuesRun(v, key, rec)
      && v.disk == w.disk && v.starts == w.starts && v.swept == w.swept && v.now == w.now && v.spelled == w.spelled
      && v.metas == w.metas
      && rec.id in v.logs && rec.finishedAt <= v.logs[rec.id].modified && rec.id in w.bound && w.bound[rec.id] == key
      && Exited(v, rec.id) && v.logs[rec.id].content == RetainedLog.Kept(Written(v, rec.id))
  {
    hide RetainedLog.Kept;
  }

  lemma RemovedMetaContinues(w: World, key: Key, rec: Record)
    requires ContinuesRun(w, key, rec) && rec.status == FinalizePending
    ensures ContinuesRun(Apply(w, RemoveMeta(rec.id)), key, rec)
  {
  }

  lemma RemoveMetaIsAllowed(w: World, key: Key, rec: Record)
    requires Inv(w) && ContinuesRun(w, key, rec) && rec.status == FinalizePending && key in w.disk && w.disk[key] == rec
    ensures Allowed(w, RemoveMeta(rec.id))
  {
    hide KeysHeld, OpenStartsHeld, AtMostOnce, EventsBound, FilesKept, LogsFaithful, MetasFaithful, SealedStored,
         DoneRetained, CleanedDone, RecordsDated, RecordsStarted, StartsBound, OutcomesKnown;
  }

  lemma RemoveMetaIsBeside(w: World, key: Key, rec: Record)
    requires Inv(w) && ContinuesRun(w, key, rec) && rec.status == FinalizePending && key in w.disk && w.disk[key] == rec
    ensures var v := Apply(w, RemoveMeta(rec.id));
      && Allowed(w, RemoveMeta(rec.id)) && Beside(w, v, key, rec.id) && ContinuesRun(v, key, rec)
      && v.disk == w.disk && v.starts == w.starts && v.swept == w.swept && v.now == w.now && v.spelled == w.spelled
      && rec.id in w.bound && w.bound[rec.id] == key
  {
    hide Inv, Allowed;
    RemoveMetaIsAllowed(w, key, rec);
    RemovedMetaContinues(w, key, rec);
    hide ContinuesRun;
    RecordBound(w, key, rec);
  }

  lemma CleanIsBeside(w: World, key: Key, id: RunId, left: Files)
    requires id in w.sealed && id in w.logs && id in w.metas && id in w.files && SameOrFewer(left, w.files[id])
    ensures var v := Apply(w, Clean(id, left));
      && Allowed(w, Clean(id, left)) && Beside(w, v, key, id)
      && v.disk == w.disk && v.starts == w.starts && v.logs == w.logs && v.sealed == w.sealed && v.procs == w.procs
      && id in v.cleaned
  {
  }

  lemma SweepOneIsAllowed(w: World, cutoff: int, oldLogs: set<RunId>, oldMetas: set<RunId>)
    requires cutoff <= w.now - TTL
    requires forall id :: id in oldLogs ==> id in w.logs && w.logs[id].modified < cutoff
    requires forall id :: id in oldMetas ==> id in w.metas && w.metas[id].modified < cutoff
    ensures var a := SweepLocal(cutoff, oldLogs, oldMetas);
      Allowed(w, a) && Apply(w, a).disk == w.disk && Apply(w, a).now == w.now
  {
  }

  /** A local file that is older than a day is removed, or it stays and the failure is noted. */
  lemma SweptFile(start: World, w: World, id: RunId, log: bool, removed: bool, cutoff: int)
    requires OldFilesGone(start, w) && start.now == w.now && cutoff == w.now - TTL
    requires if log then id in w.logs && w.logs[id].modified < cutoff else id in w.metas && w.metas[id].modified < cutoff
    ensures var a := SweepOf(id, log, removed, cutoff); var v := Apply(w, a);
      && Allowed(w, a) && OldFilesGone(start, v) && v.disk == w.disk && v.now == w.now
      && (Since(start, w, Unsaved) || !removed ==> Since(start, v, Unsaved))
      && (removed ==>
            v.logs == (if log then w.logs - {id} else w.logs) && v.metas == (if log then w.metas else w.metas - {id}))
  {
    hide OldFilesGone, Since;
    var a := SweepOf(id, log, removed, cutoff);
    if removed {
      SweepOneIsAllowed(w, cutoff, if log then {id} else {}, if log then {} else {id});
      OldFileGoes(start, w, cutoff, if log then {id} else {}, if log then {} else {id});
    } else {
      OldFileStays(start, w);
    }
    if Since(start, w, Unsaved) {
      SweptStill(start, w, a);
    }
  }

  lemma SweptYoung(start: World, w: World, v: World, id: RunId, log: bool, logs: set<RunId>, metas: set<RunId>, cutoff: int)
    requires OnlyYoung(start, w, if log then logs + {id} else logs, if log then metas else metas + {id}, cutoff)
    requires Since(start, w, Unsaved) ==> Since(start, v, Unsaved)
    requires || Since(start, v, Unsaved)
             || (v.logs == (if log then w.logs - {id} else w.logs) && v.metas == (if log then w.metas else w.metas - {id}))
             || (v == w && if log then id in w.logs ==> cutoff <= w.logs[id].modified
                           else id in w.metas ==> cutoff <= w.metas[id].modified)
    ensures OnlyYoung(start, v, logs, metas, cutoff)
  {
    hide Since;
  }

  function SweepOf(id: RunId, log: bool, removed: bool, cutoff: int): (a: Action)
    ensures !a.Spell?
  {
    if removed then SweepLocal(cutoff, if log then {id} else {}, if log then {} else {id}) else Notice(Unsaved)
  }
}
