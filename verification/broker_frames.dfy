/** What may change from one world to a later one while a request goes on, and what each kind of change keeps. The lemmas of a
    section unfold the one relation that the section is about. */
module BrokerFrames {
  import opened Text
  import opened RemoteExit
  import opened RunWorld
  import opened RunSafety
  import opened BrokerState

  // ----- Later: prunings, time, the remote host

  lemma LaterReflexive(w: World)
    ensures Later(w, w)
  {
  }

  lemma LaterClock(w: World, v: World)
    requires Later(w, v)
    ensures w.now <= v.now && v.bound == w.bound && v.starts == w.starts && v.spelled == w.spelled && w.noted <= v.noted
  {
  }

  lemma LaterDisk(w: World, v: World, key: Key)
    requires Later(w, v)
    ensures v.starts == w.starts && (key in v.disk ==> key in w.disk && v.disk[key] == w.disk[key])
  {
  }

  lemma LaterRecords(w: World, v: World)
    requires Later(w, v)
    ensures forall k :: k in v.disk ==> k in w.disk && v.disk[k] == w.disk[k]
    ensures forall k :: k in w.disk && k !in v.disk ==> Prunable(w.disk[k], v.now)
  {
  }

  lemma LaterRecord(w: World, v: World, key: Key)
    requires Later(w, v)
    ensures Quiet(w, v) && v.starts == w.starts && v.bound == w.bound
    ensures v.spelled == w.spelled && w.now <= v.now && w.noted <= v.noted
    ensures forall at :: v.now <= at && key in w.disk && !Prunable(w.disk[key], at) ==> key in v.disk
    ensures key in v.disk ==> key in w.disk && v.disk[key] == w.disk[key]
  {
  }

  lemma LaterFiles(w: World, v: World)
    requires Later(w, v)
    ensures Quiet(w, v) && w.noted <= v.noted
    ensures v.starts == w.starts && v.logs == w.logs && v.metas == w.metas && v.swept == w.swept
    ensures v.sealed == w.sealed && v.bound == w.bound && Grows(w.procs, v.procs)
  {
  }

  lemma LaterRebound(u: World, w: World, current: string, legacy: string)
    requires Later(u, w)
    ensures forall k :: k in RebindAll(w.disk, current, legacy) ==>
      k in u.disk && RebindAll(w.disk, current, legacy)[k] == Rebound(u.disk[k], current, legacy)
    ensures (forall k :: k in w.disk ==> !Rebindable(w.disk[k], current, legacy)) ==>
      forall k :: k in w.disk ==> k in u.disk && w.disk[k] == Rebound(u.disk[k], current, legacy)
  {
    hide Grows;
  }

  lemma UnfinishedStays(w: World, v: World, key: Key)
    requires Later(w, v) && key in w.disk && w.disk[key].status != Done
    ensures key in v.disk && v.disk[key] == w.disk[key] && v.starts == w.starts
  {
  }

  lemma WrittenGrows(w: World, v: World, id: RunId)
    requires Later(w, v)
    ensures |Written(w, id)| <= |Written(v, id)|
  {
  }

  lemma LaterIsCalm(w: World, v: World, key: Key)
    requires Later(w, v)
    ensures Calm(w, v, key) && w.bound == v.bound && w.noted <= v.noted
  {
  }

  lemma LaterLeavesNothing(w: World, v: World, key: Key)
    requires Later(w, v)
    ensures NothingLeft(w, v, key)
  {
  }

  lemma LaterOnly(w: World, v: World, key: Key)
    requires Later(w, v)
    ensures Quiet(w, v) && Elsewhere(w, v, key) && NothingLeft(w, v, key) && w.noted <= v.noted
  {
  }

  lemma PruneIsLater(w: World, at: int)
    requires at <= w.now
    ensures Later(w, Apply(w, Prune(at)))
  {
  }

  predicate Ambient(w: World, a: Action) {
    match a
    case Tick(to) => w.now <= to
    case Prune(at) => at <= w.now
    case Launch(id) => id in w.starts && id !in w.procs && id in w.bound
    case Write(id, bytes) => id in w.procs && w.procs[id].exit.None?
    case Finish(id, exit) => id in w.procs && id in w.files && w.procs[id].exit.None?
    case Lose(id, left) => id in w.files && SameOrFewer(left, w.files[id])
    case _ => false
  }

  lemma AmbientIsAllowed(w: World, a: Action)
    requires Ambient(w, a)
    ensures Allowed(w, a) && !a.Spell?
  {
  }

  lemma AmbientGrows(w: World, a: Action)
    requires Ambient(w, a)
    ensures Grows(w.procs, Apply(w, a).procs)
  {
  }

  lemma AmbientIsLater(w: World, a: Action)
    requires Ambient(w, a)
    ensures Later(w, Apply(w, a))
  {
    AmbientGrows(w, a);
    hide Grows;
    if a.Prune? {
      PruneIsLater(w, a.at);
    }
  }

  // ----- Beside: all that happens to one run

  lemma BesideReflexive(w: World, key: Key, id: RunId)
    ensures Beside(w, w, key, id)
  {
  }

  lemma BesideClock(w: World, v: World, key: Key, id: RunId)
    requires Beside(w, v, key, id)
    ensures w.now <= v.now && v.spelled == w.spelled && w.noted <= v.noted
  {
  }

  lemma BesideExited(w: World, v: World, key: Key, id: RunId)
    requires Beside(w, v, key, id)
    ensures Grows(w.procs, v.procs) && w.now <= v.now && w.sweptBefore == v.sweptBefore && v.spelled == w.spelled
    ensures w.bound.Keys <= v.bound.Keys
    ensures Exited(w, id) ==> Exited(v, id) && v.procs[id] == w.procs[id]
  {
  }

  lemma BesideOnward(w: World, v: World, key: Key, id: RunId)
    requires Beside(w, v, key, id)
    ensures Onward(w, v) && v.spelled == w.spelled
  {
  }

  lemma BesideQuiet(w: World, v: World, key: Key, id: RunId)
    requires Beside(w, v, key, id) && v.starts == w.starts
    ensures Quiet(w, v)
  {
  }

  lemma BesideElsewhere(w: World, v: World, key: Key, id: RunId)
    requires Beside(w, v, key, id)
    ensures Elsewhere(w, v, key)
  {
  }

  // ----- Onward and Quiet: time goes on, and no start goes out

  /** Time passed, launched commands went on, and no run was forgotten. */
  ghost predicate Onward(w: World, v: World) {
    Grows(w.procs, v.procs) && v.spelled == w.spelled && w.bound.Keys <= v.bound.Keys && w.now <= v.now
    && w.noted <= v.noted
  }

  lemma OnwardTransitive(u: World, w: World, v: World)
    requires Onward(u, w) && Onward(w, v)
    ensures Onward(u, v)
  {
  }

  lemma OnwardFacts(w: World, v: World)
    requires Onward(w, v)
    ensures Grows(w.procs, v.procs) && v.spelled == w.spelled && w.bound.Keys <= v.bound.Keys && w.now <= v.now
    ensures w.noted <= v.noted
  {
  }

  /** From w to v no start went out. */
  ghost predicate Quiet(w: World, v: World) {
    v.starts == w.starts && Onward(w, v)
  }

  lemma QuietReflexive(w: World)
    ensures Quiet(w, w)
  {
  }

  lemma QuietTransitive(u: World, w: World, v: World)
    requires Quiet(u, w) && Quiet(w, v)
    ensures Quiet(u, v)
  {
  }

  lemma QuietFacts(w: World, v: World)
    requires Quiet(w, v)
    ensures v.starts == w.starts && v.spelled == w.spelled && Onward(w, v)
    ensures Grows(w.procs, v.procs) && w.bound.Keys <= v.bound.Keys && w.now <= v.now && w.noted <= v.noted
  {
  }

  // ----- Elsewhere and NothingLeft: the records

  /** The records but the one under key are the same, unless they could be pruned. */
  ghost predicate Elsewhere(w: World, v: World, key: Key) {
    && w.now <= v.now
    && (forall k :: k != key && k in v.disk ==> k in w.disk && v.disk[k] == w.disk[k])
    && (forall k :: k != key && k in w.disk && k !in v.disk ==> Prunable(w.disk[k], v.now))
  }

  lemma ElsewhereTransitive(u: World, w: World, v: World, key: Key)
    requires Elsewhere(u, w, key) && Elsewhere(w, v, key)
    ensures Elsewhere(u, v, key)
  {
  }

  /** What is on record under key is over, or was on record before: nothing unfinished was recorded. */
  ghost predicate NothingLeft(w: World, v: World, key: Key) {
    key in v.disk && !Over(v.disk[key].status) ==> key in w.disk && v.disk[key] == w.disk[key]
  }

  lemma NothingLeftTransitive(u: World, w: World, v: World, key: Key)
    requires NothingLeft(u, w, key) && NothingLeft(w, v, key)
    ensures NothingLeft(u, v, key)
  {
  }

  /** Nothing is left after a step that follows a time in which nothing was left. */
  lemma NothingLeftThen(u: World, w: World, v: World, key: Key)
    requires NothingLeft(u, w, key)
    ensures NothingLeft(w, v, key) ==> NothingLeft(u, v, key)
  {
  }

  /** Other activity first changes nothing of what follows. */
  lemma LaterThen(u: World, w: World, v: World, key: Key)
    requires Later(u, w) && Quiet(w, v) && Elsewhere(w, v, key)
    ensures Quiet(u, v) && Elsewhere(u, v, key) && (NothingLeft(w, v, key) ==> NothingLeft(u, v, key))
    ensures u.noted <= w.noted <= v.noted
  {
    LaterOnly(u, w, key);
    QuietFacts(w, v);
    hide Later, Quiet, Elsewhere, NothingLeft;
    QuietTransitive(u, w, v);
    ElsewhereTransitive(u, w, v, key);
    NothingLeftThen(u, w, v, key);
  }

  // ----- Calm: neither starts nor local files

  /** From w to v no start went out and no local file changed, and of the records but the one under key only those that
      could be pruned are gone. */
  ghost predicate Calm(w: World, v: World, key: Key) {
    && w.now <= v.now && w.sweptBefore == v.sweptBefore && v.spelled == w.spelled && Grows(w.procs, v.procs)
    && w.noted <= v.noted
    && v.starts == w.starts && v.logs == w.logs && v.metas == w.metas && v.swept == w.swept && v.cleaned == w.cleaned
    && w.sealed <= v.sealed && w.bound.Keys <= v.bound.Keys
    && Elsewhere(w, v, key)
  }

  lemma CalmReflexive(w: World, key: Key)
    ensures Calm(w, w, key)
  {
  }

  lemma CalmTransitive(u: World, w: World, v: World, key: Key)
    requires Calm(u, w, key) && Calm(w, v, key)
    ensures Calm(u, v, key)
  {
  }

  lemma CalmStarts(w: World, v: World, key: Key)
    requires Calm(w, v, key)
    ensures Quiet(w, v) && w.noted <= v.noted
    ensures v.starts == w.starts && Grows(w.procs, v.procs) && w.now <= v.now && v.sweptBefore == w.sweptBefore
    ensures v.logs == w.logs && v.metas == w.metas && v.swept == w.swept && w.sealed <= v.sealed
  {
  }

  lemma CalmExited(w: World, v: World, key: Key, id: RunId)
    requires Calm(w, v, key) && Exited(w, id)
    ensures Exited(v, id) && v.procs[id] == w.procs[id]
  {
  }

  lemma CalmElsewhere(w: World, v: World, key: Key)
    requires Calm(w, v, key)
    ensures Elsewhere(w, v, key)
  {
  }

  // ----- Thinned: records bound anew, or gone

  /** From w to v nothing changed but by prunings, the passing of time and the remote host, except that records were bound
      to another fingerprint and records without a run key may be gone. */
  ghost predicate Thinned(w: World, v: World) {
    && w.now <= v.now && w.sweptBefore == v.sweptBefore && v.spelled == w.spelled && Grows(w.procs, v.procs)
    && w.noted <= v.noted
    && Shrinks(w.disk, v.disk)
    && (forall k :: k in w.disk && k !in v.disk ==>
          (w.disk[k].runKey.None? && !Guarded(w.spelled, k)) || Prunable(w.disk[k], v.now))
    && v.starts == w.starts && v.bound == w.bound && v.known == w.known && v.sealed == w.sealed && v.swept == w.swept
    && v.logs == w.logs && v.metas == w.metas && v.cleaned == w.cleaned
  }

  lemma ThinnedTransitive(u: World, w: World, v: World)
    requires Thinned(u, w) && Thinned(w, v)
    ensures Thinned(u, v)
  {
  }

  lemma ThinnedRecord(w: World, v: World, key: Key)
    requires Thinned(w, v)
    ensures Quiet(w, v)
    ensures v.starts == w.starts && v.bound == w.bound && v.logs == w.logs && v.sealed == w.sealed && v.swept == w.swept
    ensures key in w.disk && w.disk[key].runKey.Some? && !Prunable(w.disk[key], v.now) ==> key in v.disk
    ensures v.spelled == w.spelled && w.now <= v.now && w.noted <= v.noted
    ensures key in v.disk ==>
      && key in w.disk
      && v.disk[key] == w.disk[key].(fingerprint := v.disk[key].fingerprint, version := v.disk[key].version)
  {
  }

  lemma LaterIsThinned(w: World, v: World)
    requires Later(w, v)
    ensures Thinned(w, v)
  {
  }

  lemma RebindIsThinned(w: World, current: string, legacy: string)
    ensures Thinned(w, Apply(w, Rebind(current, legacy)))
  {
  }

  lemma DropUnkeyedIsThinned(w: World)
    requires Inv(w)
    ensures Thinned(w, Apply(w, DropUnkeyed))
  {
    hide KeysHeld, OpenStartsHeld, AtMostOnce, EventsBound, FilesKept, LogsFaithful, MetasFaithful, SealedStored,
         StartsBound, CleanedDone, RecordsBound, RecordsStarted, OutcomesKnown, RecordsDated, RecordsSealed, DoneRetained;
  }

  /** A record under a run key that is too young to be pruned at a later time is still there, bound to no other fingerprint
      unless it may be. */
  lemma StillKept(w: World, v: World, at: int, key: Key, current: string, legacy: string)
    requires Thinned(w, v) && v.now <= at
    requires key in v.disk ==> key in w.disk && v.disk[key] == Rebound(w.disk[key], current, legacy)
    ensures key in w.disk && w.disk[key].runKey.Some? && !Prunable(w.disk[key], at) ==>
      && key in v.disk && !Prunable(v.disk[key], at)
      && v.disk[key].id == w.disk[key].id && v.disk[key].commandHash == w.disk[key].commandHash
      && (!Rebindable(w.disk[key], current, legacy) ==> v.disk[key].fingerprint == w.disk[key].fingerprint)
  {
  }

  // ----- OldFilesGone: the local sweep

  /** From w to v only local files that were older than a day are gone. */
  ghost predicate OldFilesGone(w: World, v: World) {
    && v == w.(logs := v.logs, metas := v.metas, swept := v.swept, sweptBefore := v.sweptBefore, noted := v.noted)
    && w.noted <= v.noted
    && (forall id :: id in v.logs ==> id in w.logs && v.logs[id] == w.logs[id])
    && (forall id :: id in v.metas ==> id in w.metas && v.metas[id] == w.metas[id])
    && (forall id :: id in w.logs && id !in v.logs ==> w.logs[id].modified < w.now - TTL)
    && (forall id :: id in w.metas && id !in v.metas ==> w.metas[id].modified < w.now - TTL)
  }

  lemma NoFilesGone(w: World)
    ensures OldFilesGone(w, w)
  {
  }

  lemma OldFileGoes(u: World, w: World, cutoff: int, oldLogs: set<RunId>, oldMetas: set<RunId>)
    requires OldFilesGone(u, w) && cutoff == u.now - TTL
    requires forall id :: id in oldLogs ==> id in w.logs && w.logs[id].modified < cutoff
    requires forall id :: id in oldMetas ==> id in w.metas && w.metas[id].modified < cutoff
    ensures OldFilesGone(u, Apply(w, SweepLocal(cutoff, oldLogs, oldMetas)))
  {
  }

  /** A file that is not removed. */
  lemma OldFileStays(u: World, w: World)
    requires OldFilesGone(u, w)
    ensures var v := Apply(w, Notice(Unsaved)); OldFilesGone(u, v) && Since(u, v, Unsaved)
  {
    NoticeIsLater(w, Unsaved);
    SinceThen(u, w, Apply(w, Notice(Unsaved)), Unsaved);
  }

  lemma SweptStill(u: World, w: World, a: Action)
    requires OldFilesGone(u, w) && Since(u, w, Unsaved) && (a.SweepLocal? || a == Notice(Unsaved))
    ensures Since(u, Apply(w, a), Unsaved)
  {
    SinceThen(u, w, Apply(w, a), Unsaved);
  }

  /** No file but those of some runs was stored before the cutoff, unless a removal failed since. */
  predicate OnlyYoung(start: World, w: World, logs: set<RunId>, metas: set<RunId>, cutoff: int) {
    || Since(start, w, Unsaved)
    || ((forall id :: id in w.logs && id !in logs ==> cutoff <= w.logs[id].modified)
        && (forall id :: id in w.metas && id !in metas ==> cutoff <= w.metas[id].modified))
  }

  lemma OldFilesStarts(w: World, v: World)
    requires OldFilesGone(w, v)
    ensures v.starts == w.starts && v.bound == w.bound && w.noted <= v.noted && v.now == w.now
  {
  }

  // ----- notes

  /** How often something was noted from w to v. */
  function Times(w: World, v: World, note: Note): nat {
    if w.noted <= v.noted then multiset(v.noted[|w.noted|..])[note] else 0
  }

  /** Something was noted from w to v. */
  predicate Since(w: World, v: World, note: Note) {
    Times(w, v, note) > 0
  }

  lemma TimesAdd(u: World, w: World, v: World, note: Note)
    requires u.noted <= w.noted <= v.noted
    ensures Times(u, v, note) == Times(u, w, note) + Times(w, v, note)
  {
    assert v.noted[|u.noted|..] == w.noted[|u.noted|..] + v.noted[|w.noted|..];
  }

  lemma TimesNone(w: World, note: Note)
    ensures Times(w, w, note) == 0
  {
  }

  lemma SinceThen(u: World, w: World, v: World, note: Note)
    requires u.noted <= w.noted <= v.noted && (Since(u, w, note) || Since(w, v, note))
    ensures Since(u, v, note)
  {
    TimesAdd(u, w, v, note);
  }

  /** Something failed from w to v. */
  predicate Failing(w: World, v: World) {
    Since(w, v, Unanswered) || Since(w, v, Unsaved) || Since(w, v, Unread)
  }

  lemma FailingThen(u: World, w: World, v: World)
    requires u.noted <= w.noted <= v.noted
    ensures Failing(u, w) || Failing(w, v) ==> Failing(u, v)
  {
    hide Since;
    if Failing(u, w) || Failing(w, v) {
      var failure :|
        (Since(u, w, failure) || Since(w, v, failure)) && (failure.Unanswered? || failure.Unsaved? || failure.Unread?);
      SinceThen(u, w, v, failure);
    }
  }

  lemma NoticeIsLater(w: World, note: Note)
    ensures var v := Apply(w, Notice(note));
      && v == w.(noted := w.noted + [note]) && Later(w, v) && note in v.noted && Since(w, v, note)
      && (Seen(w, note) ==> Allowed(w, Notice(note)))
  {
    assert (w.noted + [note])[|w.noted|..] == [note];
    assert (w.noted + [note])[|w.noted|] == note;
  }

  /** Other activity, and then something that is noted. */
  lemma MetLater(u: World, w: World, v: World, key: Key, id: RunId, note: Note)
    requires Later(u, w) && Later(w, v) && Since(w, v, note)
    ensures Later(u, v) && Beside(u, v, key, id) && Calm(u, v, key) && NothingLeft(u, v, key) && Since(u, v, note)
  {
    hide Since;
    LaterTransitive(u, w, v);
    LaterClock(u, w);
    LaterClock(w, v);
    SinceThen(u, w, v, note);
    hide Later;
    LaterIsBeside(u, v, key, id);
    LaterIsCalm(u, v, key);
    LaterLeavesNothing(u, v, key);
  }

  /** Other activity, and then a failure. */
  lemma FailedLater(u: World, w: World, v: World, failure: Note)
    requires Later(u, w) && Later(w, v) && Since(w, v, failure)
    ensures Later(u, v) && Since(u, v, failure)
    ensures failure.Unanswered? || failure.Unsaved? || failure.Unread? ==> Failing(u, v)
  {
    hide Since;
    LaterTransitive(u, w, v);
    LaterClock(u, w);
    LaterClock(w, v);
    SinceThen(u, w, v, failure);
  }

  lemma BesideThen(u: World, w: World, v: World, key: Key, id: RunId, note: Note)
    requires Beside(u, w, key, id) && Beside(w, v, key, id) && Since(w, v, note)
    ensures Beside(u, v, key, id) && Since(u, v, note)
  {
    BesideClock(u, w, key, id);
    BesideClock(w, v, key, id);
    SinceThen(u, w, v, note);
    hide Beside, Since;
    BesideTransitive(u, w, v, key, id);
  }

  lemma NotedBeside(u: World, w: World, v: World, key: Key, id: RunId, note: Note)
    requires Beside(u, w, key, id) && Beside(w, v, key, id) && Since(u, w, note)
    ensures Since(u, v, note)
  {
    BesideClock(u, w, key, id);
    BesideClock(w, v, key, id);
    SinceThen(u, w, v, note);
  }

  // ----- what was written

  /** The end of what run id had written at some moment. */
  predicate IsTail(w: World, id: RunId, tail: seq<byte>) {
    exists m: nat :: m <= |Written(w, id)| && tail == Tail(Written(w, id)[..m])
  }

  lemma TailNow(w: World, id: RunId)
    ensures IsTail(w, id, Tail(Written(w, id)))
  {
    hide Tail;
    assert Written(w, id)[..|Written(w, id)|] == Written(w, id);
  }

  lemma TailStays(w: World, v: World, id: RunId, tail: seq<byte>)
    requires Grows(w.procs, v.procs) && IsTail(w, id, tail)
    ensures IsTail(v, id, tail)
  {
    hide Tail;
    var m: nat :| m <= |Written(w, id)| && tail == Tail(Written(w, id)[..m]);
    assert Written(w, id) <= Written(v, id);
    assert Written(v, id)[..m] == Written(w, id)[..m];
  }

  // ----- deltas

  /** The bytes of delta are the log of run id from a position on. */
  predicate IsDelta(w: World, id: RunId, from: nat, delta: seq<byte>) {
    from + |delta| <= |Written(w, id)| && delta == Written(w, id)[from..from + |delta|]
  }

  lemma EmptyDelta(w: World, id: RunId, from: nat)
    requires from <= |Written(w, id)|
    ensures IsDelta(w, id, from, [])
  {
  }

  lemma DeltaFits(w: World, id: RunId, from: nat, delta: seq<byte>)
    requires IsDelta(w, id, from, delta)
    ensures from + |delta| <= |Written(w, id)|
  {
  }

  lemma DeltaAppend(w: World, id: RunId, from: nat, delta: seq<byte>, more: seq<byte>)
    requires IsDelta(w, id, from, delta) && IsDelta(w, id, from + |delta|, more)
    ensures IsDelta(w, id, from, delta + more)
  {
  }

  lemma DeltaStays(w: World, v: World, id: RunId, from: nat, delta: seq<byte>)
    requires Later(w, v) && IsDelta(w, id, from, delta)
    ensures IsDelta(v, id, from, delta)
  {
  }

  lemma DeltaCalm(w: World, v: World, key: Key, id: RunId, from: nat, delta: seq<byte>)
    requires Calm(w, v, key) && IsDelta(w, id, from, delta)
    ensures IsDelta(v, id, from, delta) && (id in w.procs ==> id in v.procs)
  {
  }

  lemma GrownDelta(w: World, v: World, id: RunId, from: nat, delta: seq<byte>)
    requires Grows(w.procs, v.procs) && IsDelta(w, id, from, delta)
    ensures IsDelta(v, id, from, delta)
  {
  }

  lemma GrowsDelta(w: World, v: World, id: RunId, from: nat, delta: seq<byte>)
    requires Grows(w.procs, v.procs) && from + |delta| <= |Written(w, id)|
    ensures from + |delta| <= |Written(v, id)|
  {
  }
}
