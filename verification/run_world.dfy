/**
 Everything that outlives a broker process: the job registry on disk, the local runs directory, the remote host, and
 a history of what was asked of it. The world changes by guarded actions only. A crash may come between any two of
 them, so a property of every reachable world is a property of every crash point.
 */
module RunWorld {
  import opened Text
  import opened RemoteExit
  import RetainedLog

  type RunId = string

  const RUN_KEY := "run-key"

  /** A registry key, told by what is hashed to it: a run key after the word for run keys and a zero byte, or any other
      command. */
  datatype Key = Keyed(runKey: string) | Unkeyed(command: string) {
    function Hashed(): string {
      match this
      case Keyed(runKey) => RUN_KEY + "\0" + runKey
      case Unkeyed(command) => command
    }
  }

  /** The key of a command: that of a run key when the command spells it. */
  function CommandKey(command: string): (key: Key)
    ensures key.Hashed() == command
  {
    var n := |RUN_KEY| + 1;
    if |command| >= n && command[..n] == RUN_KEY + "\0" then
      assert command == RUN_KEY + "\0" + command[n..];
      Keyed(command[n..])
    else Unkeyed(command)
  }

  /** jobKey and keyedJobKey */
  function KeyOf(runKey: Option<string>, command: string): Key {
    if runKey.Some? then Keyed(runKey.value) else CommandKey(command)
  }

  /** Two commands have different keys; a command has the key of a run key exactly when it spells it. */
  lemma KeysTold(a: string, b: string, runKey: string)
    ensures KeyOf(None, a) == KeyOf(None, b) <==> a == b
    ensures KeyOf(None, a) == KeyOf(Some(runKey), b) <==> a == RUN_KEY + "\0" + runKey
  {
    var spelled := RUN_KEY + "\0" + runKey;
    assert spelled[..|RUN_KEY| + 1] == RUN_KEY + "\0" && spelled[|RUN_KEY| + 1..] == runKey;
    assert CommandKey(a).Hashed() == a && CommandKey(b).Hashed() == b;
  }

  /** A run key whose registry key no command has spelled. */
  predicate Guarded(spelled: set<Key>, key: Key) {
    key.Keyed? && key !in spelled
  }

  datatype Status = Pending | Starting | Running | FinalizePending | Failed | Done | Expired

  datatype Record = Record(
    id: RunId, commandHash: string, runKey: Option<string>, fingerprint: string, version: nat, offset: nat,
    startedAt: int, lastSeenAt: int, finishedAt: int, durationMS: int, status: Status, exitCode: int)
  {
    predicate Terminal() { status == FinalizePending || status == Done }
  }

  /** A start request that may have reached the host. */
  datatype Start = Start(command: string, fingerprint: string)

  /** A command that was launched: all it has written, and its exit once it has one. */
  datatype Process = Process(start: Start, written: seq<byte>, exit: Option<Exit>)

  /** Which of a launched run's remote files exist. A log file holds all that was written, an rc file the exit. */
  datatype Files = Files(log: bool, rc: bool)

  datatype Meta = Meta(exitCode: int, startedAt: int, finishedAt: int, durationMS: int)

  datatype Stored<T> = Stored(content: T, modified: int)

  datatype Event =
    | Sent(key: Key, id: RunId)
    | Launched(key: Key, id: RunId)
    | Pruned(keys: set<Key>)

  /** What a broker met with while it handled a request: what it saw of a run on the remote host, or what failed. */
  datatype Note =
    | Vanished(id: RunId)                    // the remote log was not there
    | Unfinished(id: RunId)                  // there was no rc file
    | Ended(id: RunId)                       // there was an rc file
    | Glimpsed(id: RunId, tail: seq<byte>)   // the end of a log whose run had no rc file
    | ReadTo(id: RunId, upto: nat)           // the log was read, and ended here
    | Unsent(id: RunId)                      // a start request did not reach the host, or was refused
    | Unconfirmed(id: RunId)                 // a start request went out, and its reply was lost
    | Unanswered                             // a remote command got no answer
    | Unsaved                                // a local write failed
    | Unread                                 // the saved connection or a local file could not be read

  datatype World = World(
    now: int,
    disk: map<Key, Record>,            // jobs.json
    logs: map<RunId, Stored<seq<byte>>>,  // runs/<id>.log
    metas: map<RunId, Stored<Meta>>,   // runs/<id>.meta.json
    starts: map<RunId, Start>,         // starts that may have reached the host
    procs: map<RunId, Process>,        // launched commands
    files: map<RunId, Files>,          // their remote files
    // history
    bound: map<RunId, Key>,            // every run id ever recorded, with its key
    known: set<RunId>,                 // runs whose outcome was ever durable
    sealed: set<RunId>,                // runs that were ever durably done
    cleaned: set<RunId>,               // runs whose remote clean-up was sent
    lost: set<RunId>,                  // runs whose remote files the host or a sweep removed
    swept: set<RunId>,                 // runs that lost a local file to the local sweep
    sweptBefore: int,                  // the latest cutoff of a local sweep
    spelled: set<Key>,                 // run keys whose registry key a command without a run key spelled
    events: seq<Event>,
    noted: seq<Note>)

  const TTL := 24 * 3600 * SECOND

  const EMPTY := World(SECOND, map[], map[], map[], map[], map[], map[], map[], {}, {}, {}, {}, {}, SECOND - TTL, {},
                       [], [])

  datatype Action =
    | Tick(to: int)
    | Save(key: Key, rec: Record)
    | Drop(key: Key)
    | DropUnkeyed
    | Rebind(current: string, legacy: string)
    | Prune(at: int)
    | SweepLocal(cutoff: int, oldLogs: set<RunId>, oldMetas: set<RunId>)
    | SaveMeta(id: RunId, meta: Meta)
    | SaveLog(id: RunId)
    | RemoveMeta(id: RunId)
    | Send(key: Key, start: Start)
    | Clean(id: RunId, left: Files)
    | Launch(id: RunId)
    | Write(id: RunId, bytes: seq<byte>)
    | Finish(id: RunId, exit: Exit)
    | Lose(id: RunId, left: Files)
    | Spell(key: Key)
    | Notice(note: Note)

  // ----- what an action does

  function Written(w: World, id: RunId): seq<byte> {
    if id in w.procs then w.procs[id].written else []
  }

  predicate LogThere(w: World, id: RunId) {
    id in w.files && w.files[id].log
  }

  predicate RcThere(w: World, id: RunId) {
    id in w.files && w.files[id].rc
  }

  const MAX_PROGRESS := 16 * 1024

  /** The last bytes of a log, at most MAX_PROGRESS of them. */
  function Tail(log: seq<byte>): seq<byte> {
    if |log| <= MAX_PROGRESS then log else log[|log| - MAX_PROGRESS..]
  }

  /** What was seen of a run is so; a failure may be met with at any time. */
  predicate Seen(w: World, note: Note) {
    match note
    case Vanished(id) => !LogThere(w, id)
    case Unfinished(id) => !RcThere(w, id)
    case Ended(id) => RcThere(w, id)
    case Glimpsed(id, tail) => LogThere(w, id) && !RcThere(w, id) && tail == Tail(Written(w, id))
    case ReadTo(id, upto) => LogThere(w, id) && upto == |Written(w, id)|
    case Unsent(id) => id !in w.starts
    case Unconfirmed(id) => id in w.starts
    case _ => true
  }

  /** The exit status that is told of a stored log; it is 0 without metadata. */
  function ToldStatus(w: World, id: RunId): int {
    if id in w.metas then w.metas[id].content.exitCode else 0
  }

  predicate Exited(w: World, id: RunId) {
    ExitedIn(w.procs, id)
  }

  predicate Prunable(rec: Record, at: int) {
    rec.runKey.Some? && rec.status == Done && rec.finishedAt != 0 && rec.finishedAt < at - TTL
  }

  function PrunedKeys(disk: map<Key, Record>, at: int): set<Key> {
    set k | k in disk && Prunable(disk[k], at)
  }

  predicate Rebindable(rec: Record, current: string, legacy: string) {
    rec.version == 0 && (rec.fingerprint == "" || rec.fingerprint == current || rec.fingerprint == legacy)
  }

  function Rebound(rec: Record, current: string, legacy: string): Record {
    if Rebindable(rec, current, legacy) then rec.(fingerprint := current, version := 1) else rec
  }

  function RebindAll(disk: map<Key, Record>, current: string, legacy: string): map<Key, Record> {
    map k | k in disk :: Rebound(disk[k], current, legacy)
  }

  function Apply(w: World, a: Action): World {
    match a
    case Tick(to) => w.(now := to)
    case Save(key, rec) =>
      w.(disk := w.disk[key := rec], bound := w.bound[rec.id := key],
         known := if rec.Terminal() then w.known + {rec.id} else w.known,
         sealed := if rec.status == Done then w.sealed + {rec.id} else w.sealed)
    case Drop(key) => w.(disk := w.disk - {key})
    case DropUnkeyed => w.(disk := map k | k in w.disk && w.disk[k].runKey.Some? :: w.disk[k])
    case Rebind(current, legacy) => w.(disk := RebindAll(w.disk, current, legacy))
    case Prune(at) =>
      w.(disk := w.disk - PrunedKeys(w.disk, at), events := w.events + [Pruned(PrunedKeys(w.disk, at))])
    case SweepLocal(cutoff, oldLogs, oldMetas) =>
      w.(logs := w.logs - oldLogs, metas := w.metas - oldMetas, swept := w.swept + oldLogs + oldMetas,
         sweptBefore := if cutoff > w.sweptBefore then cutoff else w.sweptBefore)
    case SaveMeta(id, meta) => w.(metas := w.metas[id := Stored(meta, w.now)])
    case SaveLog(id) => w.(logs := w.logs[id := Stored(RetainedLog.Kept(Written(w, id)), w.now)])
    case RemoveMeta(id) => w.(metas := w.metas - {id})
    case Send(key, start) =>
      if key !in w.disk then w else
        w.(starts := w.starts[w.disk[key].id := start], events := w.events + [Sent(key, w.disk[key].id)])
    case Clean(id, left) => w.(files := w.files[id := left], cleaned := w.cleaned + {id})
    case Launch(id) =>
      if id !in w.starts || id !in w.bound then w else
        w.(procs := w.procs[id := Process(w.starts[id], [], None)], files := w.files[id := Files(true, false)],
           events := w.events + [Launched(w.bound[id], id)])
    case Write(id, bytes) =>
      if id !in w.procs then w else
        w.(procs := w.procs[id := w.procs[id].(written := w.procs[id].written + bytes)])
    case Finish(id, exit) =>
      if id !in w.procs || id !in w.files then w else
        w.(procs := w.procs[id := w.procs[id].(exit := Some(exit))], files := w.files[id := w.files[id].(rc := true)])
    case Lose(id, left) => w.(files := w.files[id := left], lost := w.lost + {id})
    case Spell(key) => w.(spelled := w.spelled + {key})
    case Notice(note) => w.(noted := w.noted + [note])
  }

  // ----- when an action may be taken

  /** Both files of run id are stored and no older than t. */
  predicate StoredSince(w: World, id: RunId, t: int) {
    id in w.logs && id in w.metas && t <= w.logs[id].modified && t <= w.metas[id].modified
  }

  /** The run key of a record is the one of its registry key, and it has one unless the registry key was spelled. */
  predicate Fits(spelled: set<Key>, key: Key, rec: Record) {
    FitsKey(spelled, key, rec.runKey)
  }

  predicate FitsKey(spelled: set<Key>, key: Key, runKey: Option<string>) {
    && (runKey.Some? ==> key == Keyed(runKey.value))
    && (Guarded(spelled, key) ==> runKey.Some?)
  }

  /** A first record of a run: its id is new, and no start of the run it replaces under a run key went out. */
  predicate BeginsRun(w: World, key: Key, rec: Record) {
    && rec.id !in w.bound && rec.status == Starting && rec.offset == 0 && rec.finishedAt == 0
    && (Guarded(w.spelled, key) && key in w.disk ==> w.disk[key].id !in w.starts)
  }

  /** A later record of a run. A known outcome stays known, and is the exit of the command that was launched; an offset
      that was recorded is not taken back. */
  predicate ContinuesRun(w: World, key: Key, rec: Record) {
    && rec.id in w.bound && w.bound[rec.id] == key && rec.status != Pending
    && (rec.offset > 0 ==> rec.id in w.procs && rec.offset <= |w.procs[rec.id].written|)
    && (if key in w.disk then
          && w.disk[key].id == rec.id
          && (w.disk[key].Terminal() ==> rec.Terminal())
          && w.disk[key].offset <= rec.offset
          && (Guarded(w.spelled, key) ==> w.disk[key].commandHash == rec.commandHash)
        else Guarded(w.spelled, key) ==> rec.Terminal())
    && (rec.id in w.known ==> rec.Terminal())
    && (rec.status == Running ==> rec.id in w.starts)
    && (rec.status == Failed && rec.runKey.Some? ==> rec.id !in w.starts)
    && GivenUpSeen(w.starts, w.noted, rec)
    && (rec.runKey.Some? && rec.id in w.starts ==> rec.commandHash == w.starts[rec.id].command)
    && (if rec.Terminal() then TerminalRecord(w, rec) else rec.finishedAt == 0)
  }

  /** A run is given up only when its log was once seen not to be there. */
  predicate GivenUpSeen(starts: map<RunId, Start>, noted: seq<Note>, rec: Record) {
    rec.status == Expired || (rec.status == Failed && rec.id in starts) ==> Vanished(rec.id) in noted
  }

  predicate TerminalRecord(w: World, rec: Record) {
    && ExitedIn(w.procs, rec.id) && rec.exitCode == w.procs[rec.id].exit.value.code
    && 0 < rec.finishedAt <= w.now
    && (rec.status == FinalizePending && rec.id in w.sealed ==> rec.id in w.swept)
    && (rec.status == Done ==>
          StoredSince(w, rec.id, rec.finishedAt) || (rec.id in w.sealed && rec.finishedAt < w.sweptBefore))
  }

  predicate Savable(w: World, key: Key, rec: Record) {
    && 0 < rec.startedAt * SECOND <= w.now && Fits(w.spelled, key, rec)
    && (BeginsRun(w, key, rec) || ContinuesRun(w, key, rec))
  }

  predicate SameOrFewer(a: Files, b: Files) {
    (a.log ==> b.log) && (a.rc ==> b.rc)
  }

  ghost predicate Allowed(w: World, a: Action) {
    match a
    case Tick(to) => w.now <= to
    case Save(key, rec) => Savable(w, key, rec)
    case Drop(key) => !Guarded(w.spelled, key) || (key in w.disk ==> w.disk[key].id !in w.starts)
    case DropUnkeyed => true
    case Rebind(_, _) => true
    case Prune(at) => at <= w.now
    case SweepLocal(cutoff, oldLogs, oldMetas) =>
      && cutoff <= w.now - TTL
      && (forall id :: id in oldLogs ==> id in w.logs && w.logs[id].modified < cutoff)
      && (forall id :: id in oldMetas ==> id in w.metas && w.metas[id].modified < cutoff)
    case SaveMeta(id, meta) => Exited(w, id) && meta.exitCode == w.procs[id].exit.value.code
    case SaveLog(id) => Exited(w, id)
    case RemoveMeta(id) =>
      && (id in w.sealed ==> id in w.swept)
      && forall k :: k in w.disk && w.disk[k].id == id ==> w.disk[k].status != Done
    case Send(key, start) =>
      && key in w.disk && w.disk[key].status == Starting && w.disk[key].id !in w.starts
      && start.fingerprint == w.disk[key].fingerprint
      && start.command == (if w.disk[key].runKey.Some? then w.disk[key].commandHash else key.Hashed())
    case Clean(id, left) => id in w.sealed && id in w.logs && id in w.metas && id in w.files && SameOrFewer(left, w.files[id])
    case Launch(id) => id in w.starts && id !in w.procs
    case Write(id, bytes) => id in w.procs && w.procs[id].exit.None?
    case Finish(id, exit) => id in w.procs && w.procs[id].exit.None?
    case Lose(id, left) => id in w.files && SameOrFewer(left, w.files[id])
    case Spell(key) => true
    case Notice(note) => Seen(w, note)
  }

  // ----- what every world keeps

  type Disk = map<Key, Record>
  type Procs = map<RunId, Process>

  predicate ExitedIn(procs: Procs, id: RunId) {
    id in procs && procs[id].exit.Some?
  }

  predicate RecordsFit(disk: Disk, spelled: set<Key>) {
    forall k :: k in disk ==> Fits(spelled, k, disk[k])
  }

  predicate RecordsBound(disk: Disk, bound: map<RunId, Key>, procs: Procs) {
    forall k :: k in disk ==>
      && disk[k].id in bound && bound[disk[k].id] == k && disk[k].status != Pending
      && (disk[k].offset > 0 ==> disk[k].id in procs && disk[k].offset <= |procs[disk[k].id].written|)
  }

  predicate StartsBound(starts: map<RunId, Start>, bound: map<RunId, Key>, procs: Procs) {
    && (forall id :: id in starts ==>
          id in bound && (bound[id].Unkeyed? ==> starts[id].command == bound[id].command))
    && (forall id :: id in procs ==> id in starts && procs[id].start == starts[id])
  }

  predicate RecordsStarted(disk: Disk, starts: map<RunId, Start>) {
    && (forall k :: k in disk && disk[k].status == Running ==> disk[k].id in starts)
    && (forall k :: k in disk && disk[k].runKey.Some? && disk[k].status == Failed ==> disk[k].id !in starts)
    && (forall k :: k in disk && disk[k].runKey.Some? && disk[k].id in starts ==>
          disk[k].commandHash == starts[disk[k].id].command)
  }

  predicate RecordsGivenUp(disk: Disk, starts: map<RunId, Start>, noted: seq<Note>) {
    forall k :: k in disk ==> GivenUpSeen(starts, noted, disk[k])
  }

  /** A recorded outcome is the exit of the launched command, and it is never taken back. */
  predicate OutcomesKnown(disk: Disk, procs: Procs, known: set<RunId>) {
    && (forall k :: k in disk && disk[k].Terminal() ==>
          ExitedIn(procs, disk[k].id) && disk[k].exitCode == procs[disk[k].id].exit.value.code)
    && (forall k :: k in disk ==> (disk[k].id in known <==> disk[k].Terminal()))
    && (forall id :: id in known ==> ExitedIn(procs, id))
  }

  /** Starts are recorded in seconds and finishes in nanoseconds, both no later than now. */
  predicate RecordsDated(disk: Disk, now: int) {
    && SECOND <= now
    && (forall k :: k in disk ==> 0 < disk[k].startedAt * SECOND <= now)
    && (forall k :: k in disk ==> if disk[k].Terminal() then 0 < disk[k].finishedAt <= now else disk[k].finishedAt == 0)
  }

  predicate RecordsSealed(disk: Disk, known: set<RunId>, sealed: set<RunId>, swept: set<RunId>) {
    && (forall k :: k in disk && disk[k].status == Done ==> disk[k].id in sealed)
    && (forall k :: k in disk && disk[k].status == FinalizePending && disk[k].id in sealed ==> disk[k].id in swept)
    && (forall id :: id in sealed ==> id in known)
  }

  predicate EventsBound(events: seq<Event>, bound: map<RunId, Key>, starts: map<RunId, Start>, procs: Procs) {
    forall i :: 0 <= i < |events| && !events[i].Pruned? ==>
      && events[i].id in bound && bound[events[i].id] == events[i].key
      && events[i].id in starts && (events[i].Launched? ==> events[i].id in procs)
  }

  predicate PrunedAfter(events: seq<Event>, i: nat, key: Key) {
    exists p :: i < p < |events| && events[p].Pruned? && key in events[p].keys
  }

  /** The record of a run key belongs to the run last started under it, until it is pruned. */
  predicate KeysHeld(disk: Disk, events: seq<Event>, spelled: set<Key>) {
    forall i :: 0 <= i < |events| && !events[i].Pruned? && Guarded(spelled, events[i].key) ==>
      PrunedAfter(events, i, events[i].key) || (events[i].key in disk && disk[events[i].key].id == events[i].id)
  }

  /** A start whose launch is still open keeps the record of its run key. */
  predicate OpenStartsHeld(disk: Disk, starts: map<RunId, Start>, bound: map<RunId, Key>, procs: Procs, spelled: set<Key>) {
    forall id :: id in starts && id !in procs && id in bound && Guarded(spelled, bound[id]) ==>
      bound[id] in disk && disk[bound[id]].id == id
  }

  predicate PrunedBetween(events: seq<Event>, i: nat, j: nat, key: Key) {
    exists p :: i < p < j < |events| && events[p].Pruned? && key in events[p].keys
  }

  predicate SameKind(a: Event, b: Event) {
    (a.Sent? && b.Sent?) || (a.Launched? && b.Launched?)
  }

  /** A run id is started once and launched once, and between two starts, or two launches, under one run key that no
      command spelled its done record was pruned. */
  predicate AtMostOnce(events: seq<Event>, spelled: set<Key>) {
    forall i, j :: 0 <= i < j < |events| && SameKind(events[i], events[j]) ==>
      && events[i].id != events[j].id
      && (events[i].key == events[j].key && Guarded(spelled, events[i].key) ==> PrunedBetween(events, i, j, events[i].key))
  }

  /** Clean-up is sent only for a run that was durably done. */
  predicate CleanedDone(cleaned: set<RunId>, sealed: set<RunId>) {
    forall id :: id in cleaned ==> id in sealed
  }

  /** A run that was durably done has its log and metadata stored, local sweeps aside. */
  predicate SealedStored(sealed: set<RunId>, swept: set<RunId>, logs: map<RunId, Stored<seq<byte>>>,
                         metas: map<RunId, Stored<Meta>>) {
    forall id :: id in sealed && id !in swept ==> id in logs && id in metas
  }

  /** A stored log is what is kept of all that the finished command wrote. */
  predicate LogsFaithful(logs: map<RunId, Stored<seq<byte>>>, procs: Procs) {
    forall id :: id in logs ==> ExitedIn(procs, id) && logs[id].content == RetainedLog.Kept(procs[id].written)
  }

  predicate MetasFaithful(metas: map<RunId, Stored<Meta>>, procs: Procs) {
    forall id :: id in metas ==> ExitedIn(procs, id) && metas[id].content.exitCode == procs[id].exit.value.code
  }

  /** The remote files of a launched run stay until clean-up is sent, the host's own removals aside. */
  predicate FilesKept(files: map<RunId, Files>, procs: Procs, cleaned: set<RunId>, lost: set<RunId>) {
    && files.Keys == procs.Keys
    && (forall id :: id in files && id !in cleaned && id !in lost ==> files[id].log)
    && (forall id :: id in files && id !in cleaned && id !in lost && ExitedIn(procs, id) ==> files[id].rc)
    && (forall id :: id in files && files[id].rc ==> ExitedIn(procs, id))
  }

  /** A done record keeps its two local files unless a sweep's cutoff is later than its finish. */
  predicate DoneRetained(disk: Disk, logs: map<RunId, Stored<seq<byte>>>, metas: map<RunId, Stored<Meta>>,
                         sweptBefore: int) {
    forall k :: k in disk && disk[k].status == Done && sweptBefore <= disk[k].finishedAt ==>
      && disk[k].id in logs && disk[k].finishedAt <= logs[disk[k].id].modified
      && disk[k].id in metas && disk[k].finishedAt <= metas[disk[k].id].modified
  }

  predicate Inv(w: World) {
    && w.sweptBefore <= w.now - TTL
    && RecordsBound(w.disk, w.bound, w.procs)
    && StartsBound(w.starts, w.bound, w.procs)
    && RecordsFit(w.disk, w.spelled)
    && RecordsStarted(w.disk, w.starts)
    && RecordsGivenUp(w.disk, w.starts, w.noted)
    && OutcomesKnown(w.disk, w.procs, w.known)
    && RecordsDated(w.disk, w.now)
    && RecordsSealed(w.disk, w.known, w.sealed, w.swept)
    && EventsBound(w.events, w.bound, w.starts, w.procs)
    && KeysHeld(w.disk, w.events, w.spelled)
    && OpenStartsHeld(w.disk, w.starts, w.bound, w.procs, w.spelled)
    && AtMostOnce(w.events, w.spelled)
    && CleanedDone(w.cleaned, w.sealed)
    && SealedStored(w.sealed, w.swept, w.logs, w.metas)
    && LogsFaithful(w.logs, w.procs)
    && MetasFaithful(w.metas, w.procs)
    && FilesKept(w.files, w.procs, w.cleaned, w.lost)
    && DoneRetained(w.disk, w.logs, w.metas, w.sweptBefore)
  }
}
