/**
 The broker of one saved connection: exec, output, close and restart over a registry whose writes may fail, a remote
 host whose replies may be lost, and a crash after any step. Requests for the connection are serialised; other threads
 may prune the registry at any time.
 */
module Broker {
  import opened Text
  import opened RemoteExit
  import opened RunWorld
  import opened RunSafety
  import opened BrokerState
  import opened BrokerFrames
  import opened BrokerRecords
  import opened BrokerSteps
  import RetainedLog

  const MAX_DELTA := 512 * 1024

  datatype Reply<+T> = NoReply | Reply(value: T)

  datatype RemoteState = Missing | Running | Finished

  /** When a run finished, in nanoseconds, and how many milliseconds it took. */
  function Timing(startedAt: int, observedAt: int, exit: Exit): (int, int) {
    var timing := Resolve(startedAt, observedAt, exit);
    (timing.0, timing.1 / 1_000_000)
  }

  /** What is seen of a run: its state, and the end of its log. */
  datatype Observed = Observed(state: RemoteState, tail: seq<byte>)

  datatype StartReply = NotSent | Refused | Uncertain | Confirmed

  datatype StartResult = Started | MayHaveStarted | NotStarted

  datatype Finalized = LogKept(log: seq<byte>) | LogMissing | TryAgain

  datatype Response =
    | Conflict
    | RunExpired(id: RunId)
    | StartUncertain(id: RunId)
    | StartFailed(id: RunId)
    | StillRunning(id: RunId, from: nat, delta: seq<byte>)
    | Completed(id: RunId, exitCode: int, log: seq<byte>)
    | OutputUnavailable(id: RunId, exitCode: int)
    | RunLost(id: RunId)
    | Retrieved(id: RunId, log: seq<byte>, exitCode: int)
    | InProgress(id: RunId, tail: seq<byte>)
    | UnknownRun(id: RunId)
    | RetryFinalize(id: RunId)
    | Trouble(id: RunId)
    | Closed
    | Booted(pruned: bool)

  datatype Poll = Answer(resp: Response) | Progress(delta: seq<byte>, exit: Option<Exit>)

  /** The run that a response is about. */
  function About(resp: Response): Option<RunId> {
    if resp.Conflict? || resp.Closed? || resp.Booted? then None else Some(resp.id)
  }

  /** What a response may claim about its run. */
  ghost predicate Truthful(w: World, resp: Response) {
    match resp
    case Completed(id, exitCode, log) =>
      && Exited(w, id) && exitCode == w.procs[id].exit.value.code && log == RetainedLog.Kept(Written(w, id))
      && id in w.sealed && id in w.logs && w.logs[id].content == log
    case OutputUnavailable(id, exitCode) => Exited(w, id) && exitCode == w.procs[id].exit.value.code
    case Retrieved(id, log, exitCode) =>
      // without metadata the status is 0, whatever it was
      && Exited(w, id) && log == RetainedLog.Kept(Written(w, id))
      && exitCode == (if id in w.metas then w.procs[id].exit.value.code else 0)
    case StillRunning(id, from, delta) =>
      id in w.procs && IsDelta(w, id, from, delta) && |delta| <= MAX_DELTA
    case InProgress(id, tail) => id in w.procs && IsTail(w, id, tail)
    case StartUncertain(id) => id in w.starts
    case StartFailed(id) => id !in w.starts
    case RunExpired(id) => id in w.bound && id !in w.known && Vanished(id) in w.noted
    case RunLost(id) => Vanished(id) in w.noted
    case RetryFinalize(id) => Exited(w, id)
    case _ => true
  }

  /** What was met with from w to v that led to a response. */
  ghost predicate Grounded(w: World, v: World, polls: nat, resp: Response) {
    match resp
    case OutputUnavailable(id, _) => Since(w, v, Vanished(id))
    case RunLost(id) => Since(w, v, Vanished(id))
    case InProgress(id, tail) => Since(w, v, Glimpsed(id, tail))
    case StillRunning(id, from, delta) => PartEnds(w, v, polls, id, from + |delta|, |delta|)
    case StartUncertain(id) => Since(w, v, Unconfirmed(id))
    case StartFailed(id) => Since(w, v, Unsaved) || Since(w, v, Unsent(id))
    case RetryFinalize(_) => Failing(w, v)
    case Trouble(id) => Failing(w, v) || (Since(w, v, Ended(id)) && Since(w, v, Unfinished(id)))
    case _ => true
  }

  /** A part of a log of some size ends here: it is full; or each poll saw no exit, and the log was read to its end, which is
      here, or was not there. */
  predicate PartEnds(w: World, v: World, polls: nat, id: RunId, upto: nat, size: nat) {
    size == MAX_DELTA || (Times(w, v, Unfinished(id)) > polls && ReadOn(w, v, id, upto))
  }

  lemma PartEnded(w: World, v: World, polls: nat, left: nat, id: RunId, upto: nat, size: nat)
    ensures size == MAX_DELTA ==> PartEnds(w, v, polls, id, upto, size)
    ensures left == 0 && left + Times(w, v, Unfinished(id)) > polls && ReadOn(w, v, id, upto) ==>
      PartEnds(w, v, polls, id, upto, size)
  {
  }

  predicate ReadOn(w: World, v: World, id: RunId, upto: nat) {
    Since(w, v, ReadTo(id, upto)) || Since(w, v, Vanished(id))
  }

  lemma ReadOnThen(u: World, w: World, v: World, id: RunId, upto: nat)
    requires u.noted <= w.noted <= v.noted && (ReadOn(u, w, id, upto) || ReadOn(w, v, id, upto))
    ensures ReadOn(u, v, id, upto)
  {
    hide Times;
    TimesAdd(u, w, v, ReadTo(id, upto));
    TimesAdd(u, w, v, Vanished(id));
  }

  lemma GroundedThen(u: World, w: World, v: World, polls: nat, resp: Response)
    requires u.noted <= w.noted <= v.noted
    ensures Grounded(u, w, polls, resp) || Grounded(w, v, polls, resp) ==> Grounded(u, v, polls, resp)
  {
    hide Times;
    FailingThen(u, w, v);
    forall note ensures Times(u, v, note) == Times(u, w, note) + Times(w, v, note) {
      TimesAdd(u, w, v, note);
    }
  }

  /** A run of a connection whose fingerprint changed, and that is not given up. */
  predicate Changed(rec: Record, fp: string, legacy: string) {
    rec.status != Expired && Rebound(rec, fp, legacy).fingerprint != "" && Rebound(rec, fp, legacy).fingerprint != fp
  }

  /** A run of another fingerprint whose record may be pruned before it is read again, so that it is not bound anew. */
  predicate Lapses(disk: Disk, id: RunId, fp: string, at: int) {
    exists k ::
      k in disk && disk[k].id == id && Prunable(disk[k], at) && disk[k].fingerprint != "" && disk[k].fingerprint != fp
  }

  lemma RefusedRun(disk: Disk, key: Key, rec: Record, fp: string, legacy: string, at: int)
    requires key in disk && disk[key].status != Expired && rec.fingerprint != "" && rec.fingerprint != fp
    requires rec == Rebound(disk[key], fp, legacy) || (rec == disk[key] && Prunable(rec, at))
    ensures ChangedRun(disk, disk[key].id, fp, legacy) || Lapses(disk, disk[key].id, fp, at)
  {
  }

  lemma ExpiredUnchanged(disk: Disk, key: Key, fp: string, legacy: string)
    requires key in disk && disk[key].status == Expired
    requires forall k :: k in disk && disk[k].id == disk[key].id ==> k == key
    ensures !ChangedRun(disk, disk[key].id, fp, legacy)
  {
  }

  lemma NotChanged(disk: Disk, key: Key, rec: Record, fp: string, legacy: string)
    requires key in disk && (rec.fingerprint == "" || rec.fingerprint == fp)
    requires rec == Rebound(disk[key], fp, legacy) || rec == disk[key]
    requires forall k :: k in disk && disk[k].id == disk[key].id ==> k == key
    ensures !ChangedRun(disk, disk[key].id, fp, legacy)
  {
  }

  /** Records are bound to a fingerprint, and none goes but those that could be pruned. */
  lemma OnlyPruned(u: World, w: World, v: World, fp: string, legacy: string)
    requires forall k :: k in u.disk && k !in w.disk ==> Prunable(u.disk[k], w.now)
    requires forall k :: k in w.disk ==> k in u.disk && w.disk[k] == Rebound(u.disk[k], fp, legacy)
    requires Later(w, v)
    ensures forall k :: k in u.disk && k !in v.disk ==> Prunable(u.disk[k], v.now)
  {
    hide Grows;
  }

  /** Records are pruned, and then bound to a fingerprint, or not. */
  lemma BoundRecords(u: World, w: World, v: World, current: string, legacy: string, ok: bool)
    requires Later(u, w) && v.disk == if ok then RebindAll(w.disk, current, legacy) else w.disk
    requires w.now <= v.now
    ensures forall k :: k in v.disk ==>
      k in u.disk && v.disk[k] == if ok then Rebound(u.disk[k], current, legacy) else u.disk[k]
    ensures forall k :: k in u.disk && k !in v.disk ==> Prunable(u.disk[k], v.now)
  {
    hide Rebound, Grows;
  }

  predicate OnFile(disk: Disk, id: RunId) {
    exists k :: k in disk && disk[k].id == id
  }

  predicate GivenUp(disk: Disk, id: RunId) {
    exists k :: k in disk && disk[k].id == id && disk[k].status == Expired
  }

  predicate ChangedRun(disk: Disk, id: RunId, fp: string, legacy: string) {
    exists k :: k in disk && disk[k].id == id && Changed(disk[k], fp, legacy)
  }

  /** A true response about run id, with its grounds. */
  ghost predicate Replies(w: World, v: World, polls: nat, id: RunId, resp: Response) {
    Truthful(v, resp) && Grounded(w, v, polls, resp) && About(resp) == Some(id)
  }

  /** Such a response to a request that does not watch the run. */
  ghost predicate Tells(w: World, v: World, id: RunId, resp: Response) {
    && Replies(w, v, 0, id, resp)
    && (resp.RunExpired? || resp.OutputUnavailable? || resp.InProgress? || resp.RetryFinalize? || resp.Trouble?)
    && (resp.RunExpired? ==> Since(w, v, Vanished(id)) && GivenUp(v.disk, id))
  }

  lemma RepliesFrom(u: World, w: World, v: World, polls: nat, id: RunId, resp: Response)
    requires u.noted <= w.noted <= v.noted && Replies(w, v, polls, id, resp)
    ensures Replies(u, v, polls, id, resp)
  {
    hide Truthful, Grounded;
    GroundedThen(u, w, v, polls, resp);
  }

  lemma TellsFrom(u: World, w: World, v: World, id: RunId, resp: Response)
    requires u.noted <= w.noted <= v.noted && Tells(w, v, id, resp)
    ensures Tells(u, v, id, resp) && resp != Conflict
  {
    hide Replies, Times;
    if resp.RunExpired? {
      TimesAdd(u, w, v, Vanished(id));
    }
    RepliesFrom(u, w, v, 0, id, resp);
  }

  lemma AnyPolls(w: World, v: World, polls: nat, id: RunId, resp: Response)
    requires Replies(w, v, 0, id, resp) && !resp.StillRunning?
    ensures Replies(w, v, polls, id, resp)
  {
    hide Truthful;
  }

  /** What is answered at the end of a watch. */
  lemma EndReplies(u: World, w: World, v: World, polls: nat, id: RunId, resp: Response)
    requires u.noted <= w.noted <= v.noted && Truthful(v, resp)
    requires if resp.StillRunning?
      then About(resp) == Some(id) && PartEnds(u, w, polls, id, resp.from + |resp.delta|, |resp.delta|)
      else Replies(w, v, 0, id, resp)
    ensures Replies(u, v, polls, id, resp)
  {
    hide Truthful, Times;
    if resp.StillRunning? {
      TimesAdd(u, w, v, Unfinished(id));
      TimesAdd(u, w, v, Vanished(id));
      TimesAdd(u, w, v, ReadTo(id, resp.from + |resp.delta|));
    } else {
      AnyPolls(w, v, polls, id, resp);
      RepliesFrom(u, w, v, polls, id, resp);
    }
  }

  /** What is answered about a run whose remote files were seen to be gone. */
  lemma FailsThen(u: World, w: World, v: World)
    requires u.noted <= w.noted <= v.noted
    ensures Since(w, v, Unsaved) ==> Since(u, v, Unsaved)
  {
    TimesAdd(u, w, v, Unsaved);
  }

  lemma MissingReplies(u: World, w: World, v: World, id: RunId, resp: Response)
    requires u.noted <= w.noted <= v.noted && Since(u, w, Vanished(id)) && Truthful(v, resp)
    requires About(resp) == Some(id)
    requires resp.OutputUnavailable? || resp.RunExpired? || resp.RunLost? || (resp.Trouble? && Since(w, v, Unsaved))
    ensures Replies(u, v, 0, id, resp)
  {
    hide Since, Times, Truthful;
    SinceThen(u, w, v, Vanished(id));
    if resp.Trouble? {
      SinceThen(u, w, v, Unsaved);
    }
  }

  lemma TellsReplies(w: World, v: World, polls: nat, id: RunId, resp: Response)
    requires Tells(w, v, id, resp)
    ensures Replies(w, v, polls, id, resp)
  {
    hide Truthful;
  }

  lemma TruthfulCalm(w: World, v: World, key: Key, resp: Response)
    requires Calm(w, v, key) && Truthful(w, resp) && !resp.RunExpired?
    ensures Truthful(v, resp)
  {
    hide RetainedLog.Kept, IsTail, IsDelta;
    if resp.InProgress? {
      TailStays(w, v, resp.id, resp.tail);
    }
    if resp.StillRunning? {
      DeltaCalm(w, v, key, resp.id, resp.from, resp.delta);
    }
  }

  lemma RunningDelta(w: World, resp: Response)
    requires Truthful(w, resp) && resp.StillRunning?
    ensures IsDelta(w, resp.id, resp.from, resp.delta)
  {
  }

  lemma RunningIsTruthful(w: World, id: RunId, from: nat, delta: seq<byte>)
    requires id in w.procs && IsDelta(w, id, from, delta) && |delta| <= MAX_DELTA
    ensures Truthful(w, StillRunning(id, from, delta))
  {
    hide IsDelta;
  }

  lemma ExpiredTold(w: World, id: RunId)
    requires id in w.bound && id !in w.known && Vanished(id) in w.noted
    ensures Truthful(w, RunExpired(id))
  {
  }

  lemma TroubleTold(w: World, v: World, id: RunId)
    requires Failing(w, v) || (Since(w, v, Ended(id)) && Since(w, v, Unfinished(id)))
    ensures Tells(w, v, id, Trouble(id))
    ensures Exited(v, id) && Failing(w, v) ==> Tells(w, v, id, RetryFinalize(id))
  {
    hide Failing, Since;
  }

  lemma UnavailableTold(w: World, v: World, id: RunId, exitCode: int)
    requires Since(w, v, Vanished(id)) && Exited(v, id) && v.procs[id].exit.value.code == exitCode
    ensures Tells(w, v, id, OutputUnavailable(id, exitCode))
  {
    hide Since;
  }

  lemma GlimpseTold(w: World, v: World, id: RunId, tail: seq<byte>)
    requires Since(w, v, Glimpsed(id, tail)) && id in v.procs && IsTail(v, id, tail)
    ensures Tells(w, v, id, InProgress(id, tail))
  {
    hide Since, IsTail;
  }

  /** The record under key is of another fingerprint. */
  predicate OtherHost(w: World, key: Key, fp: string) {
    key in w.disk && w.disk[key].fingerprint != fp
  }

  lemma ConflictIsOtherHost(w: World, key: Key, id: RunId, fp: string, legacy: string, at: int)
    requires Inv(w) && id in w.bound && w.bound[id] == key
    requires ChangedRun(w.disk, id, fp, legacy) || Lapses(w.disk, id, fp, at)
    ensures OtherHost(w, key, fp)
  {
    hide Inv, Prunable;
    var k :| k in w.disk && w.disk[k].id == id && w.disk[k].fingerprint != fp;
    OneKey(w, k);
  }

  /** What output does and answers: see Server.Output. */
  ghost predicate OutputDone(w: World, v: World, id: RunId, fp: string, legacy: string, resp: Response) {
    && Truthful(v, resp) && (resp.RunExpired? ==> GivenUp(v.disk, id))
    && (if resp.Trouble? then Tells(w, v, id, resp)
        else if id in w.logs then resp.Retrieved? && resp.id == id
        else if !OnFile(w.disk, id) then resp == UnknownRun(id)
        else if GivenUp(w.disk, id) then resp == RunExpired(id)
        else if ChangedRun(w.disk, id, fp, legacy) then resp == Conflict
        else
          || Tells(w, v, id, resp)
          || (resp.Retrieved? && resp.id == id && Since(w, v, Ended(id)))
          || (resp == Conflict && Lapses(w.disk, id, fp, v.now)))
  }

  lemma AnswerIsDone(w: World, v: World, id: RunId, fp: string, legacy: string, resp: Response)
    requires (resp.Trouble? && Tells(w, v, id, resp)) || (id !in w.logs && OnFile(w.disk, id))
    requires if !resp.Trouble? && GivenUp(w.disk, id) then resp == RunExpired(id) && Truthful(v, resp) && GivenUp(v.disk, id)
      else if resp == Conflict then ChangedRun(w.disk, id, fp, legacy) || Lapses(w.disk, id, fp, v.now)
      else Tells(w, v, id, resp)
    requires !resp.Trouble? && ChangedRun(w.disk, id, fp, legacy) ==> resp == Conflict
    ensures OutputDone(w, v, id, fp, legacy, resp) && !resp.Retrieved?
  {
    hide Grounded, ChangedRun, GivenUp, OnFile, Lapses;
  }

  lemma RetrievedIsDone(w: World, v: World, id: RunId, fp: string, legacy: string, resp: Response)
    requires Truthful(v, resp) && resp.Retrieved? && resp.id == id
    requires id in w.logs
          || (OnFile(w.disk, id) && !GivenUp(w.disk, id) && !ChangedRun(w.disk, id, fp, legacy) && Since(w, v, Ended(id)))
    ensures OutputDone(w, v, id, fp, legacy, resp)
  {
    hide Truthful, Since, ChangedRun, GivenUp, OnFile, Lapses, Tells;
  }

  lemma UnknownIsDone(w: World, id: RunId, fp: string, legacy: string)
    requires id !in w.logs && !OnFile(w.disk, id)
    ensures OutputDone(w, w, id, fp, legacy, UnknownRun(id))
  {
  }

  lemma OutputReplies(w: World, v: World, id: RunId, fp: string, legacy: string, polls: nat, resp: Response)
    requires OutputDone(w, v, id, fp, legacy, resp)
    ensures resp != Conflict ==> Replies(w, v, polls, id, resp)
    ensures resp == Conflict ==> ChangedRun(w.disk, id, fp, legacy) || Lapses(w.disk, id, fp, v.now)
    ensures resp.UnknownRun? ==> !OnFile(w.disk, id)
    ensures !resp.StillRunning? && !resp.Completed? && !resp.StartUncertain? && !resp.StartFailed? && Truthful(v, resp)
  {
    hide Truthful, Since, ChangedRun, GivenUp, OnFile, Lapses;
  }

  /** The status of a record, or finalize_pending for a done run that has no stored log. */
  function Unstored(w: World, rec: Record): Status {
    if rec.status == Done && rec.id !in w.logs then FinalizePending else rec.status
  }

  /** recordToJob, and the fields that a request gives. */
  method Recall(w: World, key: Key, runKey: Option<string>, command: string, fingerprint: string) returns (j: Job)
    requires Inv(w) && key in w.disk && FitsKey(w.spelled, key, runKey)
    requires runKey.Some? ==> w.disk[key].commandHash == command && w.disk[key].runKey == runKey
    ensures fresh(j) && j.key == key && j.id == w.disk[key].id && j.fingerprint == fingerprint && j.Sound(w)
    ensures j.runKey == runKey && j.commandHash == (if runKey.Some? then command else "")
    ensures j.status == Unstored(w, w.disk[key]) && j.offset == w.disk[key].offset
    ensures j.done == Over(w.disk[key].status)
  {
    hide Inv, ContinuesRun;
    var rec := w.disk[key];
    AttachedContinues(w, key, runKey, command, fingerprint, Unstored(w, rec));
    j := new Job.FromRecord(key, rec, runKey, w.now);
    j.status := Unstored(w, rec);
    j.command := command;
    j.commandHash := if runKey.Some? then command else "";
    j.fingerprint := fingerprint;
    assert j.ToRecord()
        == rec.(commandHash := j.commandHash, runKey := runKey, fingerprint := fingerprint, status := j.status);
  }

  /** recordToJob, bound to a fingerprint. */
  method Rebuild(w: World, key: Key, rec: Record, fingerprint: string) returns (j: Job)
    requires ContinuesRun(w, key, rec) && Fits(w.spelled, key, rec) && 0 < rec.startedAt * SECOND <= w.now
    ensures fresh(j) && j.key == key && j.id == rec.id && j.fingerprint == fingerprint && j.Sound(w)
    ensures j.runKey == rec.runKey && j.offset == rec.offset && j.done == Over(rec.status)
  {
    hide ContinuesRun;
    BoundContinues(w, key, rec, fingerprint);
    j := new Job.FromRecord(key, rec, rec.runKey, w.now);
    j.fingerprint := fingerprint;
    assert j.ToRecord() == rec.(fingerprint := fingerprint);
  }

  /** The record under key is of a run that a request goes on with: it is not over, or its log is not stored, or it keeps a
      run key from being used again. */
  predicate Attachable(w: World, key: Key, keyed: bool, fingerprint: string) {
    && key in w.disk
    && (w.disk[key].fingerprint == "" || w.disk[key].fingerprint == fingerprint)
    && (w.disk[key].status == Starting || w.disk[key].status == Status.Running || w.disk[key].status == FinalizePending
        || (w.disk[key].status == Done && (w.disk[key].id !in w.logs || keyed))
        || (w.disk[key].status == Expired && keyed))
  }

  /** A run that is not over, or is over but for its log. */
  predicate Waitable(j: Job)
    reads j
  {
    j.status == Starting || j.status == Status.Running || j.status == FinalizePending
  }

  /** A run that replaces the record under a run key may do so: no start went out for that record. */
  predicate Replaces(w: World, key: Key) {
    Guarded(w.spelled, key) && key in w.disk ==> w.disk[key].id !in w.starts
  }

  /** A start went out for the record under key, and the record is too young to be pruned. */
  predicate Reserved(w: World, key: Key, at: int) {
    key in w.disk && w.disk[key].id in w.starts && !Prunable(w.disk[key], at)
  }

  /** From w to v at most one start went out, for a run id that was never recorded before. */
  ghost predicate StartsAtMost(w: World, v: World, start: Start) {
    v.starts == w.starts || exists id :: id !in w.bound && v.starts == w.starts[id := start]
  }

  lemma OneStart(w: World, v: World, id: RunId, start: Start)
    requires v.starts == w.starts || (id !in w.bound && v.starts == w.starts[id := start])
    ensures StartsAtMost(w, v, start)
  {
  }

  /** The record under key is of another command, and too young to be pruned. */
  predicate InUseOnDisk(w: World, key: Key, command: string, at: int) {
    key in w.disk && !Prunable(w.disk[key], at) && w.disk[key].commandHash != command
  }

  /** The record under key is of another fingerprint, and too young to be pruned. */
  predicate Foreign(w: World, key: Key, fp: string, at: int) {
    key in w.disk && !Prunable(w.disk[key], at) && w.disk[key].fingerprint != fp
  }

  /** Under a run key there is a record of another command, run key or fingerprint, or a run that was started with another
      command. A command that spelled the run key may have left a job in memory without a record. */
  predicate Clashes(w: World, runKey: Option<string>, command: string, fp: string) {
    && runKey.Some?
    && var key := Keyed(runKey.value);
       || (key in w.disk && (w.disk[key].commandHash != command || w.disk[key].runKey != runKey
                             || w.disk[key].fingerprint != fp))
       || exists id :: id in w.bound && w.bound[id] == key
                       && (key in w.spelled || (id in w.starts && w.starts[id].command != command))
  }

  lemma ClashesLater(w: World, v: World, runKey: Option<string>, command: string, fp: string)
    requires Later(w, v) && Clashes(v, runKey, command, fp)
    ensures Clashes(w, runKey, command, fp)
  {
    hide Grows;
  }

  /** A true response, with its grounds, about a new run or one under key: under a run key that no command spelled, about the
      started run whose record is too young to be pruned. */
  ghost predicate Meant(w: World, v: World, key: Key, polls: nat, resp: Response) {
    && About(resp).Some?
    && var id := About(resp).value;
       && Replies(w, v, polls, id, resp)
       && (id in w.bound ==> w.bound[id] == key)
       && (resp.StartUncertain? || resp.StartFailed? ==> id !in w.bound)
       && (Outputs(resp) ==> Exited(v, id))
       && (Guarded(v.spelled, key) && Reserved(w, key, v.now) ==> w.disk[key].id == id && !resp.UnknownRun?)
  }

  /** An answer to a request that watches a run. */
  predicate Watched(resp: Response) {
    !Outputs(resp) && !resp.StartUncertain? && !resp.StartFailed?
  }

  /** An answer that exec gives only about a run that is done. */
  predicate Outputs(resp: Response) {
    resp.InProgress? || resp.Retrieved? || resp.UnknownRun?
  }

  /** What exec does and answers: see Server.Exec. */
  ghost predicate ExecDone(w: World, v: World, runKey: Option<string>, command: string, fp: string, legacy: string,
                           polls: nat, resp: Response)
  {
    var key := KeyOf(runKey, command);
    && Truthful(v, resp) && v.spelled == w.spelled + SpelledBy(runKey, command)
    && Grows(w.procs, v.procs) && w.bound.Keys <= v.bound.Keys && w.noted <= v.noted
    && StartsAtMost(w, v, Start(command, fp))
    && (if resp == Conflict then v.starts == w.starts && Clashes(Migrated(w, fp, legacy), runKey, command, fp)
        else (resp == Trouble("") && v.starts == w.starts && Failing(w, v)) || Meant(w, v, key, polls, resp))
    && NewStarts(w, v, Start(command, fp), resp)
    && (runKey.Some? && Guarded(v.spelled, key) ==>
          && (Reserved(w, key, v.now) ==> v.starts == w.starts)
          && (InUseOnDisk(w, key, command, v.now) ==> v.starts == w.starts && (resp == Conflict || resp == Trouble("")))
          && (Foreign(w, key, fp, v.now) && !Rebindable(w.disk[key], fp, legacy) ==> v.starts == w.starts))
    && ((resp.Completed? || resp.StillRunning?) && (runKey.Some? || key.Unkeyed?) ==>
          resp.id in v.procs && v.procs[resp.id].start.command == command)
  }

  /** The world with its records bound to a fingerprint where they may be. */
  function Migrated(w: World, fp: string, legacy: string): World {
    w.(disk := RebindAll(w.disk, fp, legacy))
  }

  /** The same for a connection that is loaded, with this fingerprint. */
  ghost predicate LoadedDone(w: World, v: World, runKey: Option<string>, command: string, fp: string, polls: nat,
                             resp: Response)
  {
    var key := KeyOf(runKey, command);
    && Truthful(v, resp) && Onward(w, v) && StartsAtMost(w, v, Start(command, fp))
    && (if resp == Conflict then v.starts == w.starts && Clashes(w, runKey, command, fp)
        else Meant(w, v, key, polls, resp))
    && NewStarts(w, v, Start(command, fp), resp)
    && (runKey.Some? && Guarded(v.spelled, key) ==>
          && (Reserved(w, key, v.now) ==> v.starts == w.starts)
          && (InUseOnDisk(w, key, command, v.now) ==> v.starts == w.starts && resp == Conflict)
          && (Foreign(w, key, fp, v.now) ==> v.starts == w.starts))
    && ((resp.Completed? || resp.StillRunning?) && (runKey.Some? || key.Unkeyed?) ==>
          resp.id in v.procs && v.procs[resp.id].start.command == command)
  }

  /** The run that was found under a run key is on a record of its command, and on one of another fingerprint only when it is
      not new. */
  predicate FoundFits(w: World, runKey: Option<string>, command: string, fp: string, sound: bool) {
    var key := KeyOf(runKey, command);
    runKey.Some? && key in w.disk ==>
      && (Guarded(w.spelled, key) ==> w.disk[key].commandHash == command)
      && (w.disk[key].fingerprint != fp ==> sound)
  }

  /** The start of run id goes out, or none does. */
  predicate Sends(w: World, v: World, none: bool, id: RunId, start: Start) {
    v.starts == if none then w.starts else w.starts[id := start]
  }

  /** A new run that is answered about was started, unless its start failed, and is known to be launched, unless that is
      uncertain. */
  predicate NewStarts(w: World, v: World, start: Start, resp: Response) {
    About(resp).Some? && resp != Trouble("") && !resp.StartFailed? && About(resp).value !in w.bound ==>
      && Sends(w, v, false, About(resp).value, start)
      && (resp.StartUncertain? || About(resp).value in v.procs)
  }

  /** A run that was found goes on: at most its own start goes out, and only when it is new, and it is what the answer is
      about, unless the request is refused. */
  ghost predicate WentOn(w: World, v: World, runKey: Option<string>, command: string, fp: string, polls: nat, sound: bool,
                         id: RunId, resp: Response)
  {
    var key := KeyOf(runKey, command);
    && Truthful(v, resp)
    && Sends(w, v, sound || resp.StartFailed?, id, Start(command, fp)) && (!sound ==> id !in w.bound)
    && (!sound && !resp.StartFailed? && !resp.StartUncertain? ==> id in v.procs)
    && (if resp == Conflict then v.starts == w.starts && Clashes(w, runKey, command, fp)
        else FoundMeant(w, v, key, polls, sound, id, resp) && About(resp) == Some(id))
    && (resp == Conflict ==> id in w.bound)
    && (!sound && Guarded(w.spelled, key) && key in w.disk ==> w.disk[key].id !in w.starts)
    && ((resp.Completed? || resp.StillRunning?) && (runKey.Some? || key.Unkeyed?) ==>
          resp.id in v.procs && v.procs[resp.id].start.command == command)
  }

  lemma WentOnAbout(w: World, v: World, runKey: Option<string>, command: string, fp: string, polls: nat, sound: bool,
                    id: RunId, resp: Response)
    requires WentOn(w, v, runKey, command, fp, polls, sound, id, resp)
    ensures resp != Conflict ==> About(resp) == Some(id)
  {
  }

  /** A run that is found on a record of its command, or is new and replaces no started run, does no more than exec may. */
  lemma FoundThenDone(w: World, mid: World, v: World, runKey: Option<string>, command: string, fp: string, polls: nat,
                      sound: bool, id: RunId, resp: Response)
    requires Later(w, mid) && Onward(mid, v) && FoundFits(mid, runKey, command, fp, sound)
    requires WentOn(mid, v, runKey, command, fp, polls, sound, id, resp)
    ensures LoadedDone(w, v, runKey, command, fp, polls, resp)
  {
    hide Later, Onward, Truthful, Prunable, FoundMeant, Meant, Clashes;
    LaterRecord(w, mid, KeyOf(runKey, command));
    QuietFacts(w, mid);
    OnwardTransitive(w, mid, v);
    OnwardFacts(mid, v);
    OneStart(w, v, id, Start(command, fp));
    if resp == Conflict {
      ClashesLater(w, mid, runKey, command, fp);
    } else {
      FoundIsBound(mid, v, KeyOf(runKey, command), polls, sound, id, resp);
      FoundIsMeant(w, mid, v, KeyOf(runKey, command), polls, sound, id, resp);
    }
  }

  /** What is answered about a run that was found, or about a new one. */
  ghost predicate FoundMeant(w: World, v: World, key: Key, polls: nat, sound: bool, id: RunId, resp: Response) {
    && Replies(w, v, polls, id, resp)
    && (if sound then id in w.bound && w.bound[id] == key else id !in w.bound)
    && (resp.StartUncertain? || resp.StartFailed? ==> !sound)
    && (sound && key in w.disk ==> w.disk[key].id == id)
    && (Outputs(resp) ==> Exited(w, id))
    && (resp.UnknownRun? ==> forall k :: k in w.disk ==> w.disk[k].id != id)
    && (!sound && Guarded(w.spelled, key) && key in w.disk ==> w.disk[key].id !in w.starts)
  }

  lemma FoundIsBound(w: World, v: World, key: Key, polls: nat, sound: bool, id: RunId, resp: Response)
    requires FoundMeant(w, v, key, polls, sound, id, resp)
    ensures sound <==> id in w.bound
  {
  }

  lemma FoundIsMeant(w: World, mid: World, v: World, key: Key, polls: nat, sound: bool, id: RunId, resp: Response)
    requires Later(w, mid) && Onward(mid, v) && FoundMeant(mid, v, key, polls, sound, id, resp)
    ensures Meant(w, v, key, polls, resp)
  {
    hide Later, Onward, Prunable, Replies, Grows;
    LaterRecord(w, mid, key);
    OnwardFacts(mid, v);
    if Exited(mid, id) {
      GrownExit(mid, v, id);
    }
    RepliesFrom(w, mid, v, polls, id, resp);
    assert About(resp) == Some(id) by { RepliesAbout(mid, v, polls, id, resp); }
  }

  lemma GrownExit(w: World, v: World, id: RunId)
    requires Grows(w.procs, v.procs) && Exited(w, id)
    ensures Exited(v, id)
  {
  }

  lemma RepliesAbout(w: World, v: World, polls: nat, id: RunId, resp: Response)
    requires Replies(w, v, polls, id, resp)
    ensures About(resp) == Some(id) && Truthful(v, resp) && Grounded(w, v, polls, resp)
  {
  }

  /** So does a request that is refused. */
  lemma RefusedDone(w: World, v: World, runKey: Option<string>, command: string, fp: string, polls: nat)
    requires Later(w, v) && Clashes(v, runKey, command, fp)
    ensures LoadedDone(w, v, runKey, command, fp, polls, Conflict)
  {
    hide Later, Onward, Prunable, Clashes, Meant;
    LaterRecord(w, v, KeyOf(runKey, command));
    ClashesLater(w, v, runKey, command, fp);
    QuietFacts(w, v);
    OneStart(w, v, "", Start(command, fp));
  }

  /** A connection was loaded after a run key that is spelled was noted. */
  ghost predicate LoadedFrom(w: World, mid: World, runKey: Option<string>, command: string, fp: string, legacy: string) {
    var told, key := w.(spelled := w.spelled + SpelledBy(runKey, command)), KeyOf(runKey, command);
    && Thinned(told, mid)
    && (key in mid.disk ==> key in w.disk && mid.disk[key] == Rebound(w.disk[key], fp, legacy))
    && (Guarded(told.spelled, key) && key in w.disk ==> w.disk[key].runKey.Some?)
  }

  /** Loading a connection before, and noting a run key that is spelled, leaves what exec does as it is. */
  lemma LoadedThenDone(w: World, mid: World, v: World, runKey: Option<string>, command: string, fp: string, legacy: string,
                       polls: nat, resp: Response)
    requires LoadedFrom(w, mid, runKey, command, fp, legacy) && LoadedDone(mid, v, runKey, command, fp, polls, resp)
    ensures ExecDone(w, v, runKey, command, fp, legacy, polls, resp)
  {
    hide Truthful, Prunable, Rebindable, Rebound, Thinned, Onward, SpelledBy, Grows, Clashes, Meant, RebindAll, Failing;
    var told, key := w.(spelled := w.spelled + SpelledBy(runKey, command)), KeyOf(runKey, command);
    ThinnedRecord(told, mid, key);
    QuietFacts(told, mid);
    OnwardTransitive(told, mid, v);
    OnwardFacts(told, v);
    OnwardFacts(mid, v);
    StillKept(told, mid, v.now, key, fp, legacy);
    if resp == Conflict {
      LoadedClashes(w, mid, runKey, command, fp, legacy);
    } else {
      LoadedMeant(w, mid, v, runKey, command, fp, legacy, polls, resp);
    }
  }

  /** A response about the run on record, when that is one to go on with and is too young to be pruned. */
  predicate AboutRecord(w: World, at: int, key: Key, keyed: bool, fp: string, resp: Response) {
    Attachable(w, key, keyed, fp) && !Prunable(w.disk[key], at) ==> About(resp) == Some(w.disk[key].id)
  }

  lemma ReboundRecord(w: World, mid: World, v: World, key: Key, keyed: bool, fp: string, legacy: string, resp: Response)
    requires mid.logs == w.logs && mid.now <= v.now
    requires key in mid.disk ==> key in w.disk && mid.disk[key] == Rebound(w.disk[key], fp, legacy)
    requires key in w.disk && key !in mid.disk ==> Prunable(w.disk[key], mid.now)
    requires AboutRecord(mid, v.now, key, keyed, fp, resp)
    ensures AboutRecord(Migrated(w, fp, legacy), v.now, key, keyed, fp, resp)
  {
  }

  lemma LoadedThenExec(w: World, mid: World, v: World, runKey: Option<string>, command: string, fp: string, legacy: string,
                       polls: nat, same: bool, free: bool, resp: Response)
    requires LoadedFrom(w, mid, runKey, command, fp, legacy) && LoadedDone(mid, v, runKey, command, fp, polls, resp)
    requires var key := KeyOf(runKey, command); same ==>
      && (key in w.disk && key !in mid.disk ==> Prunable(w.disk[key], mid.now))
      && AboutRecord(mid, v.now, key, runKey.Some?, fp, resp)
    requires free ==> Since(mid, v, Unsaved) || IsNew(mid, resp)
    ensures free ==> Since(w, v, Unsaved) || IsNew(w, resp)
    ensures ExecDone(w, v, runKey, command, fp, legacy, polls, resp)
    ensures same ==> AboutRecord(Migrated(w, fp, legacy), v.now, KeyOf(runKey, command), runKey.Some?, fp, resp)
    ensures Since(mid, v, Unsaved) ==> Since(w, v, Unsaved)
  {
    hide ExecDone, LoadedDone, AboutRecord, Prunable, Rebound, RebindAll, Since, Thinned, SpelledBy;
    var told := w.(spelled := w.spelled + SpelledBy(runKey, command));
    ThinnedRecord(told, mid, KeyOf(runKey, command));
    LoadedThenDone(w, mid, v, runKey, command, fp, legacy, polls, resp);
    LoadedOnward(mid, v, runKey, command, fp, polls, resp);
    if same {
      ReboundRecord(w, mid, v, KeyOf(runKey, command), runKey.Some?, fp, legacy, resp);
    }
    if Since(mid, v, Unsaved) {
      SavesFailed(w, told, mid, v);
    }
  }

  /** No run holds the key: there is no record, or under a run key only one that is old enough to be pruned, or without one only
      a record that is not gone on with. */
  predicate Unheld(w: World, key: Key, keyed: bool, fp: string) {
    key in w.disk ==> if keyed then Prunable(w.disk[key], w.now) else !Attachable(w, key, false, fp)
  }

  /** The answer is about a run that was not there before. */
  predicate IsNew(w: World, resp: Response) {
    resp != Conflict && About(resp).Some? && About(resp).value !in w.bound
  }

  lemma ReboundUnheld(w: World, mid: World, key: Key, keyed: bool, fp: string, legacy: string)
    requires mid.logs == w.logs && w.now <= mid.now
    requires key in mid.disk ==> key in w.disk && mid.disk[key] == Rebound(w.disk[key], fp, legacy)
    ensures Unheld(Migrated(w, fp, legacy), key, keyed, fp) ==> Unheld(mid, key, keyed, fp)
  {
  }

  lemma LaterAttachable(w: World, v: World, key: Key, keyed: bool, fp: string)
    requires Later(w, v)
    ensures Attachable(w, key, keyed, fp) && key in v.disk ==>
      Attachable(v, key, keyed, fp) && v.disk[key].id == w.disk[key].id
  {
    hide Grows, Prunable;
  }

  lemma FoundRecord(w: World, mid: World, at: int, key: Key, keyed: bool, fp: string, id: RunId, resp: Response)
    requires Later(w, mid) && mid.now <= at && About(resp) == Some(id)
    requires Attachable(w, key, keyed, fp) && key in mid.disk ==> id == w.disk[key].id
    ensures AboutRecord(w, at, key, keyed, fp, resp)
  {
    hide Grows;
  }

  lemma FoundThenLoaded(w: World, mid: World, v: World, runKey: Option<string>, command: string, fp: string, polls: nat,
                        sound: bool, id: RunId, resp: Response)
    requires Later(w, mid) && Onward(mid, v) && FoundFits(mid, runKey, command, fp, sound)
    requires WentOn(mid, v, runKey, command, fp, polls, sound, id, resp)
    requires var key := KeyOf(runKey, command);
      Attachable(w, key, runKey.Some?, fp) && key in mid.disk ==> id == w.disk[key].id
    ensures LoadedDone(w, v, runKey, command, fp, polls, resp)
    ensures resp != Conflict ==>
      About(resp) == Some(id) && AboutRecord(w, v.now, KeyOf(runKey, command), runKey.Some?, fp, resp)
    ensures Since(mid, v, Unsaved) || Since(w, mid, Unsaved) ==> Since(w, v, Unsaved)
    ensures id !in w.bound ==> IsNew(w, resp)
  {
    hide Later, Onward, FoundFits, WentOn, Attachable, LoadedDone, AboutRecord, Since;
    LaterClock(w, mid);
    OnwardFacts(mid, v);
    WentOnAbout(mid, v, runKey, command, fp, polls, sound, id, resp);
    FoundThenDone(w, mid, v, runKey, command, fp, polls, sound, id, resp);
    if resp != Conflict {
      FoundRecord(w, mid, v.now, KeyOf(runKey, command), runKey.Some?, fp, id, resp);
    }
    if id !in w.bound {
      WentOnNew(mid, v, runKey, command, fp, polls, sound, id, resp);
    }
    if Since(mid, v, Unsaved) || Since(w, mid, Unsaved) {
      SinceThen(w, mid, v, Unsaved);
    }
  }

  lemma WentOnNew(w: World, v: World, runKey: Option<string>, command: string, fp: string, polls: nat, sound: bool,
                  id: RunId, resp: Response)
    requires WentOn(w, v, runKey, command, fp, polls, sound, id, resp) && id !in w.bound
    ensures IsNew(w, resp)
  {
  }

  lemma LoadedOnward(w: World, v: World, runKey: Option<string>, command: string, fp: string, polls: nat, resp: Response)
    requires LoadedDone(w, v, runKey, command, fp, polls, resp)
    ensures w.noted <= v.noted && w.now <= v.now
  {
    hide Grows, Meant, Clashes, Truthful;
  }

  lemma SavesFailed(u: World, told: World, w: World, v: World)
    requires u.noted == told.noted && told.noted <= w.noted <= v.noted && Since(w, v, Unsaved)
    ensures Since(u, v, Unsaved)
  {
    SinceThen(u, w, v, Unsaved);
  }

  lemma LoadedClashes(w: World, mid: World, runKey: Option<string>, command: string, fp: string, legacy: string)
    requires Thinned(w.(spelled := w.spelled + SpelledBy(runKey, command)), mid)
    requires var key := KeyOf(runKey, command);
      key in mid.disk ==> key in w.disk && mid.disk[key] == Rebound(w.disk[key], fp, legacy)
    requires Clashes(mid, runKey, command, fp)
    ensures Clashes(Migrated(w, fp, legacy), runKey, command, fp)
  {
    hide Prunable, Rebindable, Rebound, Grows, Shrinks;
  }

  lemma LoadedMeant(w: World, mid: World, v: World, runKey: Option<string>, command: string, fp: string, legacy: string,
                    polls: nat, resp: Response)
    requires var told := w.(spelled := w.spelled + SpelledBy(runKey, command)); var key := KeyOf(runKey, command);
      && Thinned(told, mid) && Onward(mid, v) && Meant(mid, v, key, polls, resp)
      && (key in mid.disk ==> key in w.disk && mid.disk[key] == Rebound(w.disk[key], fp, legacy))
      && (Guarded(told.spelled, key) && key in w.disk ==> w.disk[key].runKey.Some?)
    ensures Meant(w, v, KeyOf(runKey, command), polls, resp)
  {
    hide Truthful, Prunable, Rebindable, Rebound, Thinned, Onward, SpelledBy, Grows, Replies;
    var told, key := w.(spelled := w.spelled + SpelledBy(runKey, command)), KeyOf(runKey, command);
    ThinnedRecord(told, mid, key);
    QuietFacts(told, mid);
    OnwardFacts(mid, v);
    StillKept(told, mid, v.now, key, fp, legacy);
    RepliesFrom(told, mid, v, polls, About(resp).value, resp);
    NotesOnly(w, told, v, polls, About(resp).value, resp);
  }

  /** A response stays true when neither starts nor local files change; that a run is given up, when nothing does. */
  lemma RepliesCalm(u: World, w: World, v: World, key: Key, polls: nat, id: RunId, resp: Response)
    requires u.noted <= w.noted <= v.noted && Calm(w, v, key) && Replies(u, w, polls, id, resp)
    requires resp.RunExpired? ==> v == w
    ensures Replies(u, v, polls, id, resp)
  {
    hide Truthful, Grounded, Calm;
    GroundedThen(u, w, v, polls, resp);
    if !resp.RunExpired? {
      TruthfulCalm(w, v, key, resp);
    }
  }

  /** The grounds of a response are what was noted, and nothing else of where it began. */
  lemma NotesOnly(w: World, u: World, v: World, polls: nat, id: RunId, resp: Response)
    requires w.noted == u.noted && Replies(u, v, polls, id, resp)
    ensures Replies(w, v, polls, id, resp)
  {
    hide Truthful;
  }

  lemma TroubleIsDone(w: World, mid: World, runKey: Option<string>, command: string, fp: string, legacy: string, polls: nat)
    requires var told := w.(spelled := w.spelled + SpelledBy(runKey, command)); Thinned(told, mid) && Failing(told, mid)
    ensures ExecDone(w, mid, runKey, command, fp, legacy, polls, Trouble(""))
  {
    hide Thinned, SpelledBy, Grows, Clashes, Meant;
    var told := w.(spelled := w.spelled + SpelledBy(runKey, command));
    ThinnedRecord(told, mid, KeyOf(runKey, command));
    QuietFacts(told, mid);
  }

  // ----- where runs are, and how requests move them

  /** The part of a run's log that an answer told. */
  datatype Told = Told(id: RunId, from: nat, upto: nat)

  function ToldBy(resp: Response): Option<Told> {
    if resp.StillRunning? then Some(Told(resp.id, resp.from, resp.from + |resp.delta|)) else None
  }

  predicate Has(p: Place, id: RunId) {
    !p.Gone? && p.id == id
  }

  /** Where the next delta of a run begins: at the job's offset, or at the offset on record once its job was dropped. A run
      that was not there before begins at its beginning. */
  function Base(p: Place, id: RunId, dropped: bool): nat {
    if !Has(p, id) then 0 else if p.Live? && !dropped then p.offset else p.saved
  }

  /** From p to q a run went on: what was told began at its base, and what was not told was not consumed. The record of a job
      has the job's offset, or the offset that it had. When the job left memory before it was over, its offset is the one that
      was on record. */
  predicate Moved(p: Place, q: Place, told: Option<Told>, dropped: bool, bound: map<RunId, Key>) {
    match q
    case Gone => true
    case Filed(id, saved) => if Has(p, id) then saved == p.saved else id !in bound && saved == 0
    case Live(id, offset, saved) =>
      && (Has(p, id) || id !in bound)
      && (saved == offset || saved == if Has(p, id) then p.saved else 0)
      && (if told.Some? && told.value.id == id
          then told.value.from == Base(p, id, dropped) && offset == told.value.upto
          else offset == Base(p, id, dropped))
  }

  ghost predicate Moves(p: Places, q: Places, told: Option<Told>, dropped: bool, bound: map<RunId, Key>) {
    forall k: Key :: k in p && k in q ==> Moved(p[k], q[k], told, dropped, bound)
  }

  /** A run with or without a job goes on, or ends where its record was; a new run begins at its beginning. */
  lemma PlaceMoves(sound: bool, busy: bool, id: RunId, offset: nat, disk: Disk, stays: bool, upto: nat, next: Disk, key: Key,
                   told: Option<Told>, bound: map<RunId, Key>)
    requires sound && busy && OnDisk(disk, key).Filed? ==> OnDisk(disk, key).id == id
    requires !sound ==> id !in bound && offset == 0 && (OnDisk(disk, key).Filed? ==> OnDisk(disk, key).id in bound)
    requires stays && sound ==> busy
    requires stays ==> (if told.Some? then told.value == Told(id, offset, upto) else upto == offset)
    requires !stays ==> told.None?
    requires stays && OnDisk(next, key).Filed? ==>
      && OnDisk(next, key).id == id
      && (OnDisk(next, key).saved == upto || OnDisk(next, key) == OnDisk(disk, key)
          || (!sound && OnDisk(next, key).saved == 0))
    requires stays || OnDisk(next, key) == OnDisk(disk, key) || OnDisk(next, key) == Gone
          || (!sound && OnDisk(next, key) == Filed(id, 0))
    ensures Moved(if sound then PlaceFrom(if busy then Some((id, offset)) else None, disk, key) else OnDisk(disk, key),
                  PlaceFrom(if stays then Some((id, upto)) else None, next, key), told, false, bound)
  {
    hide OnDisk;
  }

  lemma PlaceStays(p: Place, told: Option<Told>, bound: map<RunId, Key>)
    requires told.Some? && p.Live? ==> told.value.id != p.id
    ensures Moved(p, p, told, false, bound)
  {
  }

  /** A run that became a job at the offset on record moves as its record would. */
  lemma AttachedMoves(p: Place, m: Place, q: Place, told: Option<Told>, bound: map<RunId, Key>)
    requires Moved(m, q, told, false, bound)
    requires m == p || (p.Filed? && m == Live(p.id, p.saved, p.saved))
    ensures Moved(p, q, told, false, bound)
  {
  }

  /** Runs on record may have become jobs at the offset on record. */
  ghost predicate Attached(p: Places, q: Places) {
    forall k: Key :: k in p && k in q ==>
      q[k] == p[k] || (p[k].Filed? && q[k] == Live(p[k].id, p[k].saved, p[k].saved))
  }

  lemma AttachedThenMoves(p: Places, m: Places, q: Places, told: Option<Told>, bound: map<RunId, Key>)
    requires Attached(p, m) && Moves(m, q, told, false, bound) && forall k: Key :: k in m
    ensures Moves(p, q, told, false, bound)
  {
    forall k: Key | k in p && k in q ensures Moved(p[k], q[k], told, false, bound) {
      assert Moved(m[k], q[k], told, false, bound);
      AttachedMoves(p[k], m[k], q[k], told, bound);
    }
  }

  lemma MovesFrom(p: Places, q: Places, told: Option<Told>, bound: map<RunId, Key>)
    requires forall k: Key :: k in p && k in q ==> Moved(p[k], q[k], told, false, bound)
    ensures Moves(p, q, told, false, bound)
  {
    hide Moved;
  }

  /** Loading that fails drops nothing. */
  lemma LoadedOnly(p: Places, q: Places, dropped: bool, bound: map<RunId, Key>)
    requires Loaded(p, q, dropped)
    requires forall k: Key :: k in p && !p[k].Gone? ==> p[k].id in bound
    ensures Moves(p, q, None, dropped, bound)
  {
  }

  /** The jobs were dropped, and maybe some records, or nothing changed. */
  ghost predicate Loaded(p: Places, q: Places, dropped: bool) {
    forall k: Key :: k in p && k in q ==>
      if dropped then q[k] == Gone || (Has(p[k], q[k].id) && q[k] == Filed(p[k].id, p[k].saved)) else q[k] == p[k]
  }

  lemma MovesNothing(p: Places, bound: map<RunId, Key>)
    ensures Moves(p, p, None, false, bound)
  {
  }

  lemma LoadedThenMoves(p: Places, m: Places, q: Places, told: Option<Told>, dropped: bool, bound: map<RunId, Key>)
    requires (forall k: Key :: k in m) && Loaded(p, m, dropped) && Moves(m, q, told, false, bound)
    requires forall k: Key :: k in p && !p[k].Gone? ==> p[k].id in bound
    ensures Moves(p, q, told, dropped, bound)
  {
    forall k: Key | k in p && k in q ensures Moved(p[k], q[k], told, dropped, bound) {
      assert Moved(m[k], q[k], told, false, bound);
    }
  }

  /** The jobs were dropped, or not, and then the run under key may have become a job at the offset on record. */
  ghost predicate Opened(p: Places, q: Places, key: Key, rec: Record, dropped: bool) {
    && (forall k: Key :: k in p && k in q && k != key ==>
          if dropped then q[k] == Gone || (Has(p[k], q[k].id) && q[k] == Filed(p[k].id, p[k].saved)) else q[k] == p[k])
    && (key in p && key in q ==>
          || (if dropped then q[key] == Gone || (Has(p[key], q[key].id) && q[key] == Filed(p[key].id, p[key].saved))
              else q[key] == p[key])
          || (q[key] == Live(rec.id, rec.offset, rec.offset) && Has(p[key], rec.id) && p[key].saved == rec.offset
              && (p[key].Live? ==> dropped)))
  }

  lemma LoadedThenEnlisted(p: Places, m: Places, e: Places, key: Key, rec: Record, dropped: bool)
    requires Loaded(p, m, dropped) && forall k: Key :: k in m
    requires forall k: Key :: k != key && k in e ==> e[k] == m[k]
    requires key in e && key in p
    requires e[key] == m[key] || (e[key] == Live(rec.id, rec.offset, rec.offset) && !m[key].Live?
                                  && Has(p[key], rec.id) && p[key].saved == rec.offset)
    ensures Opened(p, e, key, rec, dropped)
  {
  }

  lemma OpenedThenMoves(p: Places, e: Places, q: Places, key: Key, rec: Record, dropped: bool, bound: map<RunId, Key>)
    requires (forall k: Key :: k in e) && Opened(p, e, key, rec, dropped) && Moves(e, q, None, false, bound)
    requires forall k: Key :: k in p && !p[k].Gone? ==> p[k].id in bound
    ensures Moves(p, q, None, dropped, bound)
  {
    forall k: Key | k in p && k in q ensures Moved(p[k], q[k], None, dropped, bound) {
      assert Moved(e[k], q[k], None, false, bound);
    }
  }

  /** The run key that a request without a run key spells, if it does. */
  function SpelledBy(runKey: Option<string>, command: string): set<Key> {
    if runKey.None? && KeyOf(runKey, command).Keyed? then {KeyOf(runKey, command)} else {}
  }

  /** There is a job under key that the next request will watch. */
  predicate Busy(jobs: map<Key, Job>, key: Key)
    reads jobs.Values
  {
    key in jobs && !jobs[key].done
  }

  /** There is a job under key whose exit is known and whose log is not stored yet. */
  predicate Awaiting(jobs: map<Key, Job>, key: Key)
    reads jobs.Values
  {
    key in jobs && jobs[key].status == FinalizePending
  }

  class Server {
    var world: World
    ghost var run: seq<Action>
    // since the present request began: the actions until then, and the run keys spelled until then or by the request
    ghost var mark: seq<Action>
    ghost var heard: set<Key>
    var registry: map<Key, Record>
    var fingerprint: string
    var jobs: map<Key, Job>

    /** The world was reached by allowed actions only, the present request only added to them, and it alone may have spelled a
        run key since it began. */
    ghost predicate Reached()
      reads this`world, this`run, this`mark, this`heard
    {
      Playable(EMPTY, run) && Play(EMPTY, run) == world && Inv(world) && mark <= run && world.spelled <= heard
    }

    /** A request begins. */
    ghost method Begin()
      requires Reached()
      modifies this`mark, this`heard
      ensures Reached() && mark == run && heard == world.spelled && (old(Ready()) ==> Ready())
    {
      hide Inv, Play, Playable, ContinuesRun;
      mark, heard := run, world.spelled;
    }

    /** The registry in memory is the one on disk, and every job but the one under key can be saved as it is. */
    ghost predicate Rest(key: Key)
      reads this, jobs.Values
    {
      && Reached() && registry == world.disk
      && (jobs != map[] ==> fingerprint != "")
      && (forall k :: k in jobs ==> jobs[k].key == k && jobs[k].fingerprint == fingerprint)
      && (forall k :: k in jobs && k != key ==> jobs[k].Sound(world))
    }

    ghost predicate Ready()
      reads this, jobs.Values
    {
      && Reached() && registry == world.disk
      && (jobs != map[] ==> fingerprint != "")
      && (forall k :: k in jobs ==> jobs[k].key == k && jobs[k].fingerprint == fingerprint && jobs[k].Sound(world))
    }

    /** The run key is in use for another command or connection. */
    predicate InUse(runKey: Option<string>, command: string)
      reads this, jobs.Values
    {
      && runKey.Some?
      && var key := Keyed(runKey.value);
         || (key in jobs && (jobs[key].commandHash != command || jobs[key].runKey != runKey))
         || (key in world.disk && (world.disk[key].commandHash != command || world.disk[key].runKey != runKey
                                   || world.disk[key].fingerprint != fingerprint))
    }

    /** currentJob */
    predicate Current(j: Job)
      reads this, j
    {
      j.key in jobs && jobs[j.key] == j && fingerprint == j.fingerprint
    }

    /** The record of j has its offset. */
    predicate UpToDate(j: Job)
      reads this, j
    {
      j.key in world.disk && world.disk[j.key].offset == j.offset
    }

    /** The run of the job under a key that the next request will watch. */
    function Watching(key: Key): Option<RunId>
      reads this, jobs.Values
    {
      if Busy(jobs, key) || Awaiting(jobs, key) then Some(jobs[key].id) else None
    }

    /** There is a job under a key that was given up, though that may not be on record. */
    predicate Stale(key: Key)
      reads this, jobs.Values
    {
      key in jobs && jobs[key].status == Expired
    }

    /** After the answer, a run that is done or lost is not in memory, and not on record without a run key unless the write
        failed; and one that is told to have expired is on record as expired. */
    ghost predicate Left(w: World, key: Key, keyed: bool, resp: Response)
      reads this
    {
      && (resp.Completed? || resp.RunLost? ==> key !in jobs && (keyed || key !in world.disk || Since(w, world, Unsaved)))
      && (resp.RunExpired? ==> GivenUp(world.disk, resp.id))
    }

    /** Where the run under a key is. */
    ghost function At(key: Key): Place
      reads this, jobs.Values
    {
      PlaceFrom(if Busy(jobs, key) then Some((jobs[key].id, jobs[key].offset)) else None, world.disk, key)
    }

    ghost function Everywhere(): (p: Places)
      reads this, jobs.Values
      ensures forall key: Key :: key in p && p[key] == At(key)
    {
      imap key: Key {:trigger At(key)} | true :: At(key)
    }

    /** Where the runs are when a request goes on with j: a new run is where the record is that it replaces. */
    ghost function Entering(j: Job): (p: Places)
      reads this, j, jobs.Values
      ensures forall key: Key :: key in p && p[key] == EnteringAt(j, key)
    {
      imap key: Key {:trigger EnteringAt(j, key)} | true :: EnteringAt(j, key)
    }

    ghost function EnteringAt(j: Job, key: Key): Place
      reads this, j, jobs.Values
    {
      if key == j.key && !j.Sound(world) then OnDisk(world.disk, key) else At(key)
    }

    lemma EnteringSound(j: Job)
      requires j.Sound(world)
      ensures Entering(j) == Everywhere()
    {
      hide At, OnDisk, Job.Sound;
      assert forall key: Key :: EnteringAt(j, key) == At(key);
    }

    /** Runs under other keys stay where they are when their jobs and records do. */
    twostate lemma StaysElsewhere(key: Key)
      requires forall k: Key :: k != key ==> OnDisk(world.disk, k) == OnDisk(old(world).disk, k)
      requires forall k :: k != key ==> (k in jobs <==> k in old(jobs))
      requires forall k :: k != key && k in jobs ==>
        jobs[k] == old(jobs)[k] && jobs[k].done == old(jobs[k].done) && jobs[k].offset == old(jobs[k].offset)
      ensures forall k: Key :: k != key ==> At(k) == old(At(k))
    {
      hide OnDisk;
    }

    /** A job in memory that goes on has the run of its record, which is not ahead of it. */
    lemma ReadyPlaces()
      requires Ready()
      ensures forall k :: Busy(jobs, k) && OnDisk(world.disk, k).Filed? ==>
        OnDisk(world.disk, k).id == jobs[k].id && OnDisk(world.disk, k).saved <= jobs[k].offset
      ensures forall k :: Busy(jobs, k) ==> At(k).Live? && At(k).id == jobs[k].id
      ensures forall k :: k in jobs ==> jobs[k].key == k && (k in world.disk ==> jobs[k].id == world.disk[k].id)
      ensures forall k :: !At(k).Gone? ==> At(k).id in world.bound && world.bound[At(k).id] == k
    {
      hide Inv;
      forall k | !At(k).Gone? ensures At(k).id in world.bound && world.bound[At(k).id] == k {
        if !Busy(jobs, k) {
          OneKey(world, k);
        }
      }
    }

    /** The jobs of another fingerprint were dropped since. */
    ghost predicate Dropped(before: string)
      reads this
    {
      before != "" && fingerprint != before
    }

    lemma RestKept(w: World, key: Key, id: RunId)
      requires Beside(w, world, key, id) && (id in w.bound ==> w.bound[id] == key)
      requires forall k :: k in jobs ==> jobs[k].key == k
      requires forall k :: k in jobs && k != key ==> jobs[k].Sound(w)
      ensures forall k :: k in jobs && k != key ==> jobs[k].Sound(world)
    {
      hide Beside, ContinuesRun;
      forall k | k in jobs && k != key ensures jobs[k].Sound(world) {
        assert jobs[k].id != id by { RecordBound(w, k, jobs[k].ToRecord()); }
        BesideKeepsRecord(w, world, key, id, k, jobs[k].ToRecord());
        BesideClock(w, world, key, id);
      }
    }

    // ----- steps of the world

    method Do(a: Action)
      requires Reached() && Allowed(world, a) && (a.Spell? ==> a.key in heard)
      modifies this`world, this`run
      ensures Reached() && world == Apply(old(world), a)
    {
      hide Inv, Apply, Allowed;
      StepKeeps(world, a);
      SpelledByStep(world, a);
      run := run + [a];
      assert run[..|run| - 1] == old(run);
      world := Apply(world, a);
    }

    /** Time passes, launched commands write and exit, the host removes files, and other threads prune. */
    method Interfere()
      requires Reached() && registry == world.disk
      modifies this`world, this`run, this`registry
      ensures Reached() && registry == world.disk && Later(old(world), world)
    {
      hide Inv, Apply, Allowed, Later, Ambient;
      LaterReflexive(world);
      var n: nat := *;
      while n > 0
        invariant Reached() && registry == world.disk && Later(old(world), world)
      {
        var a: Action := *;
        if Ambient(world, a) {
          AmbientIsAllowed(world, a);
          AmbientIsLater(world, a);
          LaterTransitive(old(world), world, Apply(world, a));
          Do(a);
          registry := world.disk;
        }
        n := n - 1;
      }
    }

    /** Interference while the request for j goes on. */
    method Pause(j: Job)
      requires Rest(j.key) && j.Named(world)
      modifies this`world, this`run, this`registry
      ensures Reached() && Rest(j.key) && j.Named(world) && Later(old(world), world)
      ensures Beside(old(world), world, j.key, j.id) && Calm(old(world), world, j.key)
      ensures old(j.Sound(world)) ==> j.Sound(world)
      ensures old(j.Unrecorded(world)) ==> j.Unrecorded(world)
    {
      hide Inv, Apply, Allowed, Later, Beside, Calm, ContinuesRun;
      Interfere();
      LaterIsBeside(old(world), world, j.key, j.id);
      LaterIsCalm(old(world), world, j.key);
      RestKept(old(world), j.key, j.id);
      LaterClock(old(world), world);
      if old(j.Sound(world)) {
        LaterKeepsRecord(old(world), world, j.key, j.ToRecord());
      }
    }

    /** A failure, or what was seen of a run, is noted. */
    method Heed(key: Key, note: Note)
      requires Rest(key) && Seen(world, note)
      modifies this`world, this`run
      ensures Reached() && Rest(key) && world == old(world).(noted := old(world).noted + [note])
      ensures Later(old(world), world) && Since(old(world), world, note) && note in world.noted
    {
      hide Inv, Apply, Allowed, Later, ContinuesRun, Since, Seen;
      NoticeIsLater(world, note);
      Do(Notice(note));
      RestLater(old(world), key);
    }

    /** The same while the request for j goes on. */
    method Meet(j: Job, note: Note)
      requires Rest(j.key) && j.Named(world) && Seen(world, note)
      modifies this`world, this`run
      ensures Reached() && Rest(j.key) && j.Named(world) && world == old(world).(noted := old(world).noted + [note])
      ensures Later(old(world), world) && Since(old(world), world, note) && note in world.noted
      ensures old(j.Sound(world)) ==> j.Sound(world)
      ensures old(j.Unrecorded(world)) ==> j.Unrecorded(world)
    {
      hide Inv, Apply, Allowed, Later, ContinuesRun, Since, Seen, Rest, Reached;
      Heed(j.key, note);
      LaterClock(old(world), world);
      if old(j.Sound(world)) {
        LaterKeepsRecord(old(world), world, j.key, j.ToRecord());
      }
    }

    /** The same between requests for runs. */
    method MeetReady(note: Note)
      requires Ready() && Seen(world, note)
      modifies this`world, this`run
      ensures Reached() && Ready() && world == old(world).(noted := old(world).noted + [note])
      ensures Later(old(world), world) && Since(old(world), world, note) && Everywhere() == old(Everywhere())
    {
      hide Inv, Apply, Allowed, Later, ContinuesRun, Since, Seen;
      NoticeIsLater(world, note);
      Do(Notice(note));
      ReadyLater(old(world));
      forall k: Key ensures At(k) == old(At(k)) {
      }
    }

    // ----- registry mutators

    /** savePersistedJob: a job that is no longer current is skipped. */
    method SaveJob(j: Job) returns (life: Life, ok: bool)
      requires Rest(j.key) && j.Named(world)
      requires Current(j) ==> Savable(world, j.key, j.ToRecord())
      modifies this`world, this`run, this`registry
      ensures Reached()
      ensures life.Alive? ==> Rest(j.key) && j.Named(world)
      ensures life.Alive? ==> Beside(old(world), world, j.key, j.id) && Calm(old(world), world, j.key)
      ensures life.Alive? && old(Current(j)) && ok ==>
        j.key in world.disk && world.disk[j.key] == j.ToRecord() && ContinuesRun(world, j.key, j.ToRecord())
      ensures life.Alive? && old(Current(j)) && ok && j.status == Done ==> j.id in world.sealed
      ensures life.Alive? && !ok ==> Later(old(world), world) && Since(old(world), world, Unsaved)
      ensures life.Alive? && !old(Current(j)) ==> ok && Later(old(world), world)
      ensures life.Alive? && Over(j.status) ==> NothingLeft(old(world), world, j.key)
      ensures life.Alive? && old(j.Sound(world)) ==> j.Sound(world)
    {
      hide Inv, Apply, Allowed, Later, Beside, Savable, ContinuesRun, BeginsRun, Calm, Since;
      ok := false;
      Pause(j);
      LaterLeavesNothing(old(world), world, j.key);
      if !Current(j) {
        return Alive, true;
      }
      LaterKeepsSavable(old(world), world, j.key, j.ToRecord());
      if * { return Crashed, false; }
      ghost var mid := world;
      if * {
        Meet(j, Unsaved);
        MetLater(old(world), mid, world, j.key, j.id, Unsaved);
        return Alive, false;
      }
      SaveIsBeside(world, j.key, j.ToRecord());
      SavedContinues(world, j.key, j.ToRecord());
      Do(Save(j.key, j.ToRecord()));
      if * { return Crashed, false; }
      registry := registry[j.key := j.ToRecord()];
      BesideTransitive(old(world), mid, world, j.key, j.id);
      CalmTransitive(old(world), mid, world, j.key);
      RestKept(mid, j.key, j.id);
      RecordBound(world, j.key, j.ToRecord());
      BesideClock(mid, world, j.key, j.id);
      return Alive, true;
    }

    /** deletePersistedJobByKey: a failed write is only logged. */
    method Forget(key: Key) returns (life: Life, ok: bool)
      requires Rest(key) && (Guarded(world.spelled, key) && key in world.disk ==> world.disk[key].id !in world.starts)
      modifies this`world, this`run, this`registry
      ensures Reached()
      ensures life.Alive? ==> Rest(key) && Calm(old(world), world, key) && NothingLeft(old(world), world, key)
      ensures life.Alive? ==>
        if ok then key !in world.disk else Later(old(world), world) && Since(old(world), world, Unsaved)
    {
      hide Inv, Apply, Allowed, Later, Beside, ContinuesRun, Calm, Since, Elsewhere, Onward, Grows;
      ok := false;
      Interfere();
      LaterIsCalm(old(world), world, key);
      RestLater(old(world), key);
      LaterDisk(old(world), world, key);
      if * { return Crashed, false; }
      ghost var mid := world;
      if * {
        Heed(key, Unsaved);
        MetLater(old(world), mid, world, key, "", Unsaved);
        return Alive, false;
      }
      ok :- DropRecord(key);
      CalmTransitive(old(world), mid, world, key);
      return Alive, true;
    }

    method DropRecord(key: Key) returns (life: Life, ok: bool)
      requires Rest(key) && (Guarded(world.spelled, key) && key in world.disk ==> world.disk[key].id !in world.starts)
      modifies this`world, this`run, this`registry
      ensures Reached() && ok
      ensures life.Alive? ==> Rest(key) && Calm(old(world), world, key) && key !in world.disk
    {
      hide Inv, Apply, Allowed, ContinuesRun, Calm;
      DropIsCalm(world, key);
      Do(Drop(key));
      if * { return Crashed, true; }
      registry := registry - {key};
      RestDropped(old(world), key);
      return Alive, true;
    }

    lemma RestLater(w: World, key: Key)
      requires Later(w, world)
      requires forall k :: k in jobs && k != key ==> jobs[k].Sound(w)
      requires forall k :: k in jobs ==> jobs[k].key == k
      ensures forall k :: k in jobs && k != key ==> jobs[k].Sound(world)
    {
      hide Later, ContinuesRun;
      forall k | k in jobs && k != key ensures jobs[k].Sound(world) {
        LaterKeepsRecord(w, world, k, jobs[k].ToRecord());
        LaterClock(w, world);
      }
    }

    lemma RestDropped(w: World, key: Key)
      requires world == Apply(w, Drop(key))
      requires forall k :: k in jobs && k != key ==> jobs[k].Sound(w)
      requires forall k :: k in jobs ==> jobs[k].key == k
      ensures forall k :: k in jobs && k != key ==> jobs[k].Sound(world)
    {
      forall k | k in jobs && k != key ensures jobs[k].Sound(world) {
        DropKeepsRecord(w, key, k, jobs[k].ToRecord());
      }
    }

    /** releaseJob */
    method Release(j: Job)
      requires Rest(j.key)
      modifies this`jobs
      ensures Rest(j.key) && jobs == if j.key in old(jobs) && old(jobs)[j.key] == j then old(jobs) - {j.key} else old(jobs)
    {
      hide Inv, ContinuesRun;
      if j.key in jobs && jobs[j.key] == j {
        jobs := jobs - {j.key};
      }
    }

    /** removeJob: the record under the key goes, whoever's it is. */
    method Remove(j: Job) returns (life: Life, ok: bool)
      requires Rest(j.key) && Current(j)
      requires Guarded(world.spelled, j.key) && j.key in world.disk ==> world.disk[j.key].id !in world.starts
      modifies this`world, this`run, this`registry, this`jobs
      ensures Reached()
      ensures life.Alive? ==> Ready() && Calm(old(world), world, j.key) && NothingLeft(old(world), world, j.key)
      ensures life.Alive? ==>
        if ok then j.key !in world.disk else Later(old(world), world) && Since(old(world), world, Unsaved)
      ensures jobs == old(jobs) - {j.key}
    {
      hide Inv, ContinuesRun, Calm;
      ok := false;
      Release(j);
      ok :- Forget(j.key);
      return Alive, ok;
    }

    method MarkExpired(j: Job)
      requires j.Sound(world) && !j.ToRecord().Terminal() && Vanished(j.id) in world.noted
      modifies j
      ensures j.Sound(world) && j.status == Expired && j.fingerprint == old(j.fingerprint) && j.offset == old(j.offset)
    {
      hide ContinuesRun;
      ghost var before := j.ToRecord();
      j.done := true;
      j.status := Expired;
      j.finishedAt := 0;
      j.durationMS := 0;
      ExpiredContinues(world, j.key, before);
    }

    /** expireJob */
    method Expire(j: Job) returns (life: Life, ok: bool)
      requires Rest(j.key) && Current(j) && j.Sound(world) && !j.ToRecord().Terminal() && Vanished(j.id) in world.noted
      modifies this`world, this`run, this`registry, this`jobs, j
      ensures Reached()
      ensures life.Alive? ==> Ready() && j.status == Expired && Calm(old(world), world, j.key) && j.Sound(world)
      ensures life.Alive? ==> jobs == (if ok then old(jobs) - {j.key} else old(jobs)) && j.offset == old(j.offset)
      ensures life.Alive? ==> NothingLeft(old(world), world, j.key)
      ensures life.Alive? && ok ==> GivenUp(world.disk, j.id)
      ensures life.Alive? ==> j.fingerprint == old(j.fingerprint) && (!ok ==> Since(old(world), world, Unsaved))
    {
      hide Inv, Apply, Allowed, Calm, ContinuesRun, BeginsRun, Beside, Later, Since;
      ok := false;
      MarkExpired(j);
      j.SoundIsSavable(world);
      ok :- SaveJob(j);
      if ok {
        Release(j);
      }
      return Alive, ok;
    }

    // ----- remote commands

    /** stateJobCommand */
    method AskState(j: Job) returns (life: Life, r: Reply<RemoteState>)
      requires Rest(j.key) && j.Named(world)
      modifies this`world, this`run, this`registry
      ensures Reached()
      ensures life.Alive? ==> Rest(j.key) && j.Named(world) && Later(old(world), world) && Calm(old(world), world, j.key)
      ensures life.Alive? ==> Beside(old(world), world, j.key, j.id) && (old(j.Sound(world)) ==> j.Sound(world))
      ensures life.Alive? && r.NoReply? ==> Since(old(world), world, Unanswered)
      ensures r.Reply? && r.value == RemoteState.Running ==>
        j.id in world.procs && LogThere(world, j.id) && !RcThere(world, j.id)
      ensures r.Reply? && r.value == Finished ==> Exited(world, j.id) && Since(old(world), world, Ended(j.id))
      ensures r.Reply? && r.value == Missing ==>
        Since(old(world), world, Vanished(j.id)) && Vanished(j.id) in world.noted
    {
      hide Inv, Later, Calm, Beside, ContinuesRun, Since, Job.Sound;
      Pause(j);
      if * { return Crashed, NoReply; }
      ghost var mid := world;
      if * {
        Meet(j, Unanswered);
        MetLater(old(world), mid, world, j.key, j.id, Unanswered);
        return Alive, NoReply;
      }
      FilesOfLaunched(world, j.id);
      if RcThere(world, j.id) {
        Meet(j, Ended(j.id));
        MetLater(old(world), mid, world, j.key, j.id, Ended(j.id));
        return Alive, Reply(Finished);
      } else if LogThere(world, j.id) {
        return Alive, Reply(RemoteState.Running);
      }
      Meet(j, Vanished(j.id));
      MetLater(old(world), mid, world, j.key, j.id, Vanished(j.id));
      return Alive, Reply(Missing);
    }

    /** tailJobCommand: at most max bytes of the log from a position on, none when the log is gone. */
    method ReadDelta(j: Job, from: nat, max: nat) returns (life: Life, r: Reply<seq<byte>>)
      requires Rest(j.key) && j.Named(world) && from <= |Written(world, j.id)|
      modifies this`world, this`run, this`registry
      ensures Reached()
      ensures life.Alive? ==> Rest(j.key) && j.Named(world) && Later(old(world), world) && Calm(old(world), world, j.key)
      ensures life.Alive? ==> Beside(old(world), world, j.key, j.id) && (old(j.Sound(world)) ==> j.Sound(world))
      ensures r.Reply? ==> |r.value| <= max && IsDelta(world, j.id, from, r.value)
      ensures r.Reply? ==> |r.value| == max || ReadOn(old(world), world, j.id, from + |r.value|)
      ensures life.Alive? && r.NoReply? ==> Since(old(world), world, Unanswered)
    {
      hide Inv, Later, Calm, Beside, ContinuesRun, Since, Job.Sound, Rest, Reached;
      Pause(j);
      WrittenGrows(old(world), world, j.id);
      if * { return Crashed, NoReply; }
      if * {
        ghost var mid := world;
        Meet(j, Unanswered);
        MetLater(old(world), mid, world, j.key, j.id, Unanswered);
        return Alive, NoReply;
      }
      ghost var mid := world;
      if !LogThere(world, j.id) {
        Meet(j, Vanished(j.id));
        MetLater(old(world), mid, world, j.key, j.id, Vanished(j.id));
        return Alive, Reply([]);
      }
      var rest := Written(world, j.id)[from..];
      if |rest| > max {
        return Alive, Reply(rest[..max]);
      }
      Meet(j, ReadTo(j.id, from + |rest|));
      MetLater(old(world), mid, world, j.key, j.id, ReadTo(j.id, from + |rest|));
      return Alive, Reply(rest);
    }

    /** rcJobCommand and parseRemoteExit */
    method ReadExit(j: Job) returns (life: Life, r: Reply<Option<Exit>>)
      requires Rest(j.key) && j.Named(world)
      modifies this`world, this`run, this`registry
      ensures Reached()
      ensures life.Alive? ==> Rest(j.key) && j.Named(world) && Later(old(world), world) && Calm(old(world), world, j.key)
      ensures life.Alive? ==> Beside(old(world), world, j.key, j.id) && (old(j.Sound(world)) ==> j.Sound(world))
      ensures r.Reply? && r.value.Some? ==> Exited(world, j.id) && world.procs[j.id].exit == r.value
      ensures r.Reply? && r.value.None? ==> Since(old(world), world, Unfinished(j.id))
      ensures life.Alive? && r.NoReply? ==> Since(old(world), world, Unanswered)
    {
      hide Inv, Later, Calm, Beside, ContinuesRun, Since, Job.Sound;
      Pause(j);
      if * { return Crashed, NoReply; }
      ghost var mid := world;
      if * {
        Meet(j, Unanswered);
        MetLater(old(world), mid, world, j.key, j.id, Unanswered);
        return Alive, NoReply;
      }
      FilesOfLaunched(world, j.id);
      if RcThere(world, j.id) {
        return Alive, Reply(world.procs[j.id].exit);
      }
      Meet(j, Unfinished(j.id));
      MetLater(old(world), mid, world, j.key, j.id, Unfinished(j.id));
      return Alive, Reply(None);
    }

    /** fullLogCommand and parseRetainedLog: what is kept of the log of a run that has exited. */
    method FetchLog(j: Job) returns (life: Life, r: Reply<Option<seq<byte>>>)
      requires Rest(j.key) && j.Named(world) && Exited(world, j.id)
      modifies this`world, this`run, this`registry
      ensures Reached()
      ensures life.Alive? ==> Rest(j.key) && j.Named(world) && Later(old(world), world) && Calm(old(world), world, j.key)
      ensures life.Alive? ==> Beside(old(world), world, j.key, j.id) && (old(j.Sound(world)) ==> j.Sound(world))
      ensures r.Reply? && r.value.Some? ==> r.value.value == RetainedLog.Kept(Written(world, j.id))
      ensures r.Reply? && r.value.None? ==> Since(old(world), world, Vanished(j.id))
      ensures life.Alive? && r.NoReply? ==> Since(old(world), world, Unanswered)
    {
      hide Inv, Later, Calm, Beside, ContinuesRun, RetainedLog.Kept, Since, Job.Sound;
      Pause(j);
      if * { return Crashed, NoReply; }
      ghost var mid := world;
      if * {
        Meet(j, Unanswered);
        MetLater(old(world), mid, world, j.key, j.id, Unanswered);
        return Alive, NoReply;
      }
      if LogThere(world, j.id) {
        return Alive, Reply(Some(RetainedLog.Kept(Written(world, j.id))));
      }
      Meet(j, Vanished(j.id));
      MetLater(old(world), mid, world, j.key, j.id, Vanished(j.id));
      return Alive, Reply(None);
    }

    /** A start request goes out. */
    method Depart(j: Job)
      requires Rest(j.key) && Current(j) && j.Sound(world) && j.status == Starting && j.id !in world.starts
      requires j.key in world.disk && world.disk[j.key] == j.ToRecord() && j.Commanded()
      modifies this`world, this`run
      ensures Rest(j.key) && j.Sound(world) && Beside(old(world), world, j.key, j.id)
      ensures world.disk == old(world.disk) && world.starts == old(world.starts)[j.id := Start(j.command, fingerprint)]
      ensures j.id !in world.procs && j.id in world.bound
    {
      hide Inv, Beside, ContinuesRun, Apply, Allowed;
      LaunchedCommand(world, j.id);
      RecordBound(world, j.key, j.ToRecord());
      SendIsBeside(world, j.key, Start(j.command, fingerprint));
      SentContinues(world, j.key, Start(j.command, fingerprint), j.ToRecord());
      Do(Send(j.key, Start(j.command, fingerprint)));
      BesideClock(old(world), world, j.key, j.id);
      RestKept(old(world), j.key, j.id);
    }

    /** The host launches the command of a start request. */
    method Arrive(j: Job)
      requires Rest(j.key) && j.Sound(world) && j.id in world.starts && j.id !in world.procs && j.id in world.bound
      modifies this`world, this`run
      ensures Rest(j.key) && j.Sound(world) && Beside(old(world), world, j.key, j.id)
      ensures world.disk == old(world.disk) && world.starts == old(world.starts) && j.id in world.procs
    {
      hide Inv, Beside, ContinuesRun, Apply, Allowed;
      RecordBound(world, j.key, j.ToRecord());
      LaunchIsBeside(world, j.key, j.id);
      LaunchContinues(world, j.key, j.id, j.ToRecord());
      Do(Launch(j.id));
      BesideClock(old(world), world, j.key, j.id);
      RestKept(old(world), j.key, j.id);
    }

    /** A start request goes out: the reply may be lost, and then the command may be launched at any later time. */
    method Transmit(j: Job) returns (life: Life, r: StartReply)
      requires Rest(j.key) && Current(j) && j.Sound(world) && j.status == Starting && j.id !in world.starts
      requires j.key in world.disk && world.disk[j.key] == j.ToRecord() && j.Commanded()
      modifies this`world, this`run
      ensures Reached()
      ensures life.Alive? ==> Rest(j.key) && j.Sound(world) && Beside(old(world), world, j.key, j.id)
      ensures world.disk == old(world.disk) && world.starts == old(world.starts)[j.id := Start(j.command, fingerprint)]
      ensures r == Uncertain || (r == Confirmed && j.id in world.procs)
      ensures life.Alive? && r == Uncertain ==> Since(old(world), world, Unconfirmed(j.id))
    {
      hide Inv, Beside, ContinuesRun, Apply, Allowed, Job.Sound, Later, Since;
      Depart(j);
      if * { return Crashed, Uncertain; }
      ghost var mid := world;
      if * {
        // timeout, or disconnected after the request went out
        Meet(j, Unconfirmed(j.id));
        LaterIsBeside(mid, world, j.key, j.id);
        BesideThen(old(world), mid, world, j.key, j.id, Unconfirmed(j.id));
        return Alive, Uncertain;
      }
      Arrive(j);
      BesideTransitive(old(world), mid, world, j.key, j.id);
      if * { return Crashed, Confirmed; }
      return Alive, Confirmed;
    }

    /** No start request went out. */
    method MissStart(j: Job)
      requires Rest(j.key) && j.Sound(world) && j.status == Starting && j.id !in world.starts
      requires j.key in world.disk && world.disk[j.key] == j.ToRecord()
      modifies this`world, this`run
      ensures Rest(j.key) && j.Sound(world) && Beside(old(world), world, j.key, j.id)
      ensures j.key in world.disk && world.disk[j.key] == j.ToRecord() && world.starts == old(world.starts)
      ensures Since(old(world), world, Unsent(j.id))
    {
      hide Inv, Later, Beside, ContinuesRun, Job.Sound, Since;
      Meet(j, Unsent(j.id));
      LaterIsBeside(old(world), world, j.key, j.id);
    }

    /** runRawStdin on the start command: it is sent again once when the first attempt did not reach the host. */
    method SendStart(j: Job) returns (life: Life, r: StartReply)
      requires Rest(j.key) && Current(j) && j.Sound(world) && j.status == Starting && j.id !in world.starts
      requires j.key in world.disk && world.disk[j.key] == j.ToRecord() && j.Commanded()
      modifies this`world, this`run, this`registry
      ensures Reached()
      ensures life.Alive? ==> Rest(j.key) && j.Sound(world) && Beside(old(world), world, j.key, j.id)
      ensures life.Alive? ==> j.key in world.disk && world.disk[j.key] == j.ToRecord()
      ensures r == NotSent || r == Refused ==> world.starts == old(world.starts)
      ensures r == Uncertain || r == Confirmed ==> world.starts == old(world.starts)[j.id := Start(j.command, fingerprint)]
      ensures r == Confirmed ==> j.id in world.procs
      ensures life.Alive? && (r == NotSent || r == Refused) ==> Since(old(world), world, Unsent(j.id))
      ensures life.Alive? && r == Uncertain ==> Since(old(world), world, Unconfirmed(j.id))
    {
      hide Inv, Later, Calm, Beside, ContinuesRun, Apply, Allowed, Job.Sound, Since, Seen;
      r := NotSent;
      Pause(j);
      UnfinishedStays(old(world), world, j.key);
      if * { return Crashed, NotSent; }
      if * {
        // the connection could not be made
        ghost var first := world;
        MissStart(j);
        BesideThen(old(world), first, world, j.key, j.id, Unsent(j.id));
        return Alive, NotSent;
      }
      if * {
        // disconnected before the request was sent: reset the connection and try once more
        ghost var first := world;
        Pause(j);
        UnfinishedStays(first, world, j.key);
        BesideTransitive(old(world), first, world, j.key, j.id);
        if * {
          first := world;
          MissStart(j);
          BesideThen(old(world), first, world, j.key, j.id, Unsent(j.id));
          return Alive, NotSent;
        }
      }
      ghost var mid := world;
      if * {
        // missing tools, incomplete upload, or no channel
        MissStart(j);
        BesideThen(old(world), mid, world, j.key, j.id, Unsent(j.id));
        return Alive, Refused;
      }
      r :- Transmit(j);
      BesideTransitive(old(world), mid, world, j.key, j.id);
      if r == Uncertain {
        BesideThen(old(world), mid, world, j.key, j.id, Unconfirmed(j.id));
      }
      return Alive, r;
    }

    // ----- starting a run

    method MarkStarting(j: Job)
      requires j.Unrecorded(world) && Reached()
      requires Guarded(world.spelled, j.key) && j.key in world.disk ==> world.disk[j.key].id !in world.starts
      modifies j
      ensures Savable(world, j.key, j.ToRecord()) && j.status == Starting && j.started && !j.startErr && !j.done
      ensures SECOND <= j.startedAt <= world.now && j.fingerprint == old(j.fingerprint)
      ensures j.command == old(j.command) && j.commandHash == old(j.commandHash) && j.offset == 0 && j.finishedAt == 0
    {
      hide ContinuesRun, Inv;
      NowIsPositive(world);
      j.started := true;
      j.startedAt := world.now;
      j.status := Starting;
    }

    method MarkFailed(j: Job, exitCode: int)
      requires j.Sound(world) && j.status == Starting && j.id !in world.starts
      modifies j
      ensures Savable(world, j.key, j.ToRecord()) && ContinuesRun(world, j.key, j.ToRecord())
      ensures j.startErr && j.done && j.status == Failed && j.fingerprint == old(j.fingerprint)
      ensures j.offset == old(j.offset)
    {
      hide ContinuesRun;
      ghost var before := j.ToRecord();
      j.done := true;
      j.exitCode := exitCode;
      j.startErr := true;
      j.status := Failed;
      FailedContinues(world, j.key, before, exitCode);
    }

    method MarkRunning(j: Job)
      requires j.Sound(world) && j.status == Starting && j.id in world.starts
      modifies j
      ensures j.Sound(world) && j.status == Status.Running && j.fingerprint == old(j.fingerprint)
      ensures j.offset == old(j.offset)
    {
      hide ContinuesRun;
      ghost var before := j.ToRecord();
      j.status := Status.Running;
      RunningContinues(world, j.key, before);
    }

    /** failJobStart: nothing was launched; a failed write is only logged. */
    method FailStart(j: Job, exitCode: int) returns (life: Life)
      requires Rest(j.key) && Current(j) && j.Sound(world) && j.status == Starting && j.id !in world.starts
      requires j.key in world.disk && world.disk[j.key].id == j.id && world.disk[j.key].offset <= j.offset
      modifies this`world, this`run, this`registry, j
      ensures Reached()
      ensures life.Alive? ==> Rest(j.key) && Current(j) && Beside(old(world), world, j.key, j.id)
      ensures life.Alive? ==> world.starts == old(world.starts)
      ensures life.Alive? && j.key in world.disk ==>
        world.disk[j.key].id == j.id && world.disk[j.key].offset <= old(j.offset)
    {
      hide Inv, Later, Calm, Beside, ContinuesRun, BeginsRun, Savable, Apply, Allowed, Job.Sound;
      MarkFailed(j, exitCode);
      var ok :- SaveJob(j);
      if !ok {
        LaterDisk(old(world), world, j.key);
      }
      CalmStarts(old(world), world, j.key);
      if j.key in world.disk {
        SameRunLater(old(world), world, j.key, j.ToRecord());
      }
      return Alive;
    }

    method Unmark(j: Job)
      requires j.id !in world.bound && !j.done && !j.startErr && j.offset == 0 && j.finishedAt == 0
      requires j.Commanded() && FitsKey(world.spelled, j.key, j.runKey)
      modifies j
      ensures j.Unrecorded(world) && j.fingerprint == old(j.fingerprint)
    {
      j.started := false;
      j.startedAt := 0;
      j.status := Pending;
    }

    /** The start of a run that is on disk as starting. */
    method StartRecorded(j: Job) returns (life: Life, r: StartResult)
      requires Rest(j.key) && Current(j) && j.Sound(world) && j.status == Starting && j.id !in world.starts
      requires j.key in world.disk && world.disk[j.key] == j.ToRecord() && j.Commanded()
      modifies this`world, this`run, this`registry, j
      ensures Reached()
      ensures life.Alive? ==> Rest(j.key) && Current(j) && Beside(old(world), world, j.key, j.id)
      ensures life.Alive? && r != NotStarted ==> j.Sound(world) && j.offset == old(j.offset)
      ensures life.Alive? && r != NotStarted ==> j.status == Status.Running
      ensures life.Alive? && r == Started ==> j.id in world.procs
      ensures life.Alive? && r != NotStarted ==>
        world.starts == old(world.starts)[j.id := Start(old(j.command), fingerprint)]
      ensures life.Alive? && r == NotStarted ==> world.starts == old(world.starts)
      ensures life.Alive? && r == NotStarted && j.key in world.disk ==>
        world.disk[j.key].id == j.id && world.disk[j.key].offset <= old(j.offset)
      ensures life.Alive? && r == NotStarted ==> Since(old(world), world, Unsent(j.id))
      ensures life.Alive? && r == MayHaveStarted ==> Since(old(world), world, Unconfirmed(j.id))
    {
      hide Inv, Later, Calm, Beside, ContinuesRun, BeginsRun, Savable, Apply, Allowed, Job.Sound, Since, Rest;
      r := NotStarted;
      var reply :- SendStart(j);
      ghost var mid := world;
      if reply == NotSent || reply == Refused {
        :- FailStart(j, 1);
        BesideTransitive(old(world), mid, world, j.key, j.id);
        NotedBeside(old(world), mid, world, j.key, j.id, Unsent(j.id));
        return Alive, NotStarted;
      }
      :- SaveRunning(j);
      BesideTransitive(old(world), mid, world, j.key, j.id);
      if reply == Uncertain {
        NotedBeside(old(world), mid, world, j.key, j.id, Unconfirmed(j.id));
      }
      return Alive, if reply == Confirmed then Started else MayHaveStarted;
    }

    /** A started run is recorded as running; a failed write is only logged. */
    method SaveRunning(j: Job) returns (life: Life)
      requires Rest(j.key) && Current(j) && j.Sound(world) && j.status == Starting && j.id in world.starts
      modifies this`world, this`run, this`registry, j
      ensures Reached()
      ensures life.Alive? ==> Rest(j.key) && Current(j) && Beside(old(world), world, j.key, j.id)
      ensures life.Alive? ==> j.Sound(world) && j.offset == old(j.offset) && j.status == Status.Running
      ensures life.Alive? ==> world.starts == old(world.starts) && Grows(old(world.procs), world.procs)
    {
      hide Inv, Later, Calm, Beside, ContinuesRun, BeginsRun, Savable, Apply, Allowed, Job.Sound;
      MarkRunning(j);
      j.SoundIsSavable(world);
      var _ :- SaveJob(j);
      CalmStarts(old(world), world, j.key);
      return Alive;
    }

    /** ensureJobStarted: the run is on disk before its start goes out, and it is started at most once. */
    method EnsureStarted(j: Job) returns (life: Life, r: StartResult)
      requires Rest(j.key) && Current(j)
      requires j.Sound(world) || (j.Unrecorded(world) &&
        (Guarded(world.spelled, j.key) && j.key in world.disk ==> world.disk[j.key].id !in world.starts))
      modifies this`world, this`run, this`registry, j
      ensures Reached()
      ensures life.Alive? ==> Rest(j.key) && Current(j) && Beside(old(world), world, j.key, j.id)
      ensures life.Alive? && r != NotStarted ==> j.Sound(world) && j.offset == old(j.offset)
      ensures life.Alive? && old(j.Sound(world)) ==>
        r == Started && world == old(world) && j.status == old(j.status) && j.done == old(j.done)
      ensures life.Alive? && !old(j.Sound(world)) && r != NotStarted ==> j.status == Status.Running
      ensures life.Alive? && !old(j.Sound(world)) && r == Started ==> j.id in world.procs
      ensures life.Alive? && !old(j.Sound(world)) && r != NotStarted ==>
        world.starts == old(world.starts)[j.id := Start(old(j.command), fingerprint)]
      ensures life.Alive? && r == NotStarted ==> world.starts == old(world.starts) && j.id !in world.starts
      ensures life.Alive? && r == NotStarted && Guarded(world.spelled, j.key) && j.key in world.disk ==>
        world.disk[j.key].id !in world.starts
      ensures life.Alive? && r == NotStarted ==> OnlyNew(old(world).disk, world.disk, j.key, j.id)
      ensures life.Alive? && r == NotStarted ==>
        Since(old(world), world, Unsaved) || Since(old(world), world, Unsent(j.id))
      ensures life.Alive? && r == MayHaveStarted ==> Since(old(world), world, Unconfirmed(j.id))
    {
      hide Inv, Later, Calm, Beside, ContinuesRun, BeginsRun, Savable, Apply, Allowed, Job.Sound,
           Job.Unrecorded, Since;
      BesideReflexive(world, j.key, j.id);
      NewOrStarted(j);
      if j.started {
        return Alive, if j.startErr then NotStarted else Started;
      }
      r := NotStarted;
      UnboundIsUnknown(world, j.id);
      MarkStarting(j);
      var ok :- SaveJob(j);
      CalmStarts(old(world), world, j.key);
      if !ok {
        LaterDisk(old(world), world, j.key);
        LaterClock(old(world), world);
        Unmark(j);
        return Alive, NotStarted;
      }
      StartingIsSound(j);
      ghost var mid := world;
      r :- StartRecorded(j);
      BesideTransitive(old(world), mid, world, j.key, j.id);
      if r == NotStarted {
        BesideThen(old(world), mid, world, j.key, j.id, Unsent(j.id));
      } else if r == MayHaveStarted {
        BesideThen(old(world), mid, world, j.key, j.id, Unconfirmed(j.id));
      }
      return Alive, r;
    }

    lemma StartingIsSound(j: Job)
      requires ContinuesRun(world, j.key, j.ToRecord()) && j.started && !j.startErr && !j.done && j.status == Starting
      requires SECOND <= j.startedAt <= world.now && FitsKey(world.spelled, j.key, j.runKey)
      ensures j.Sound(world)
    {
      hide ContinuesRun;
    }

    lemma NewOrStarted(j: Job)
      requires Rest(j.key)
      ensures j.Sound(world) ==> j.started && !j.startErr
      ensures j.Unrecorded(world) ==> !j.started && j.id !in world.bound && j.Commanded() && j.offset == 0
      ensures j.Unrecorded(world) ==> FitsKey(world.spelled, j.key, j.runKey)
      ensures Reached()
    {
      hide Inv;
    }

    // ----- finalizing a run

    /** The exit of a run becomes known; a finish time that is already known may be kept. */
    method MarkExited(j: Job, exit: Exit, keep: bool)
      requires Reached() && j.Sound(world) && Exited(world, j.id) && world.procs[j.id].exit == Some(exit)
      requires j.status == Done ==> j.id in world.swept
      modifies j
      ensures j.Sound(world) && j.status == FinalizePending && j.exitCode == exit.code && j.fingerprint == old(j.fingerprint)
      ensures j.offset == old(j.offset) && j.startedAt == old(j.startedAt)
      ensures if keep && old(j.finishedAt) != 0
        then j.finishedAt == old(j.finishedAt) && j.durationMS == old(j.durationMS)
        else (j.finishedAt, j.durationMS) == Timing(j.startedAt, world.now, exit)
    {
      hide ContinuesRun, Inv, Resolve, Reached;
      ghost var before := j.ToRecord();
      ExitedAt(j, exit);
      j.done := true;
      j.exitCode := exit.code;
      j.status := FinalizePending;
      if j.finishedAt == 0 || !keep {
        var timing := Resolve(j.startedAt, world.now, exit);
        j.finishedAt := timing.0;
        j.durationMS := timing.1 / 1_000_000;
      }
      ExitedIsSound(j, before, exit);
    }

    lemma ExitedAt(j: Job, exit: Exit)
      requires j.Sound(world)
      ensures j.finishedAt != 0 ==> 0 < j.finishedAt <= world.now
      ensures 0 < Resolve(j.startedAt, world.now, exit).0 <= world.now
    {
      hide ContinuesRun;
      FinishInRange(world, j.key, j.ToRecord());
    }

    lemma ExitedIsSound(j: Job, before: Record, exit: Exit)
      requires Reached() && ContinuesRun(world, j.key, before) && Fits(world.spelled, j.key, before)
      requires before.status == Done ==> j.id in world.swept
      requires Exited(world, j.id) && world.procs[j.id].exit == Some(exit) && before.id == j.id
      requires j.ToRecord() == before.(status := FinalizePending, exitCode := exit.code, finishedAt := j.finishedAt,
                                       durationMS := j.durationMS)
      requires 0 < j.finishedAt <= world.now && j.started && !j.startErr && SECOND <= j.startedAt <= world.now
      requires j.done && j.status == FinalizePending
      ensures j.Sound(world)
    {
      hide ContinuesRun, Inv;
      SealedIsTerminal(world, j.key, before);
      ExitedContinues(world, j.key, before, j.finishedAt, j.durationMS);
    }

    method MarkDone(j: Job)
      requires j.Sound(world) && j.status == FinalizePending && StoredSince(world, j.id, j.finishedAt)
      modifies j`status
      ensures j.Sound(world) && j.status == Done && j.fingerprint == old(j.fingerprint) && j.exitCode == old(j.exitCode)
    {
      hide ContinuesRun;
      ghost var before := j.ToRecord();
      j.status := Done;
      DoneContinues(world, j.key, before);
    }

    method MarkPending(j: Job)
      requires j.Sound(world) && j.status == Done && (j.id in world.sealed ==> j.id in world.swept)
      modifies j`status
      ensures j.Sound(world) && j.status == FinalizePending
      ensures j.fingerprint == old(j.fingerprint) && j.exitCode == old(j.exitCode)
    {
      hide ContinuesRun;
      ghost var before := j.ToRecord();
      j.status := FinalizePending;
      PendingContinues(world, j.key, before);
    }

    /** saveRunLog: metadata first, then the log; the metadata goes again when the log cannot be written. */
    method SaveRunLog(j: Job) returns (life: Life, ok: bool)
      requires Rest(j.key) && Current(j) && j.Sound(world) && j.status == FinalizePending
      requires j.key in world.disk && world.disk[j.key] == j.ToRecord()
      modifies this`world, this`run, this`registry
      ensures Reached()
      ensures life.Alive? ==> Rest(j.key) && j.Sound(world) && Beside(old(world), world, j.key, j.id)
      ensures life.Alive? ==> j.key in world.disk && world.disk[j.key] == j.ToRecord()
      ensures life.Alive? ==> world.starts == old(world.starts) && world.swept == old(world.swept)
      ensures life.Alive? && ok ==> StoredSince(world, j.id, j.finishedAt) && Exited(world, j.id)
      ensures life.Alive? && ok ==> world.logs[j.id].content == RetainedLog.Kept(Written(world, j.id))
      ensures life.Alive? && ok ==>
        world.metas[j.id].content == Meta(j.exitCode, j.startedAt, j.finishedAt, j.durationMS)
      ensures life.Alive? && !ok ==> Since(old(world), world, Unsaved)
    {
      hide Inv, Later, Calm, Beside, ContinuesRun, Apply, Allowed, Job.Sound, RetainedLog.Kept, Since;
      ok := false;
      Pause(j);
      UnfinishedStays(old(world), world, j.key);
      LaterFiles(old(world), world);
      if * { return Crashed, false; }
      ghost var mid := world;
      if * {
        MissWrite(j);
        BesideThen(old(world), mid, world, j.key, j.id, Unsaved);
        return Alive, false;
      }
      WriteMeta(j);
      BesideTransitive(old(world), mid, world, j.key, j.id);
      if * { return Crashed, false; }
      if * {
        // the log cannot be written: the metadata is removed, which may fail too
        if * {
          mid := world;
          DeleteMeta(j);
          BesideTransitive(old(world), mid, world, j.key, j.id);
        }
        mid := world;
        MissWrite(j);
        BesideThen(old(world), mid, world, j.key, j.id, Unsaved);
        return Alive, false;
      }
      mid := world;
      WriteLog(j);
      BesideTransitive(old(world), mid, world, j.key, j.id);
      if * { return Crashed, false; }
      return Alive, true;
    }

    /** A file is not written. */
    method MissWrite(j: Job)
      requires Rest(j.key) && j.Sound(world) && j.key in world.disk && world.disk[j.key] == j.ToRecord()
      modifies this`world, this`run
      ensures Rest(j.key) && j.Sound(world) && Beside(old(world), world, j.key, j.id)
      ensures j.key in world.disk && world.disk[j.key] == j.ToRecord()
      ensures world.starts == old(world.starts) && world.swept == old(world.swept)
      ensures Since(old(world), world, Unsaved)
    {
      hide Inv, Later, Beside, ContinuesRun, Job.Sound, Since;
      Meet(j, Unsaved);
      LaterIsBeside(old(world), world, j.key, j.id);
    }

    method WriteMeta(j: Job)
      requires Rest(j.key) && j.Sound(world) && j.status == FinalizePending
      modifies this`world, this`run
      ensures Rest(j.key) && j.Sound(world) && Beside(old(world), world, j.key, j.id)
      ensures world.disk == old(world.disk) && world.starts == old(world.starts) && world.swept == old(world.swept)
      ensures j.id in world.metas && j.finishedAt <= world.metas[j.id].modified
      ensures world.metas[j.id].content == Meta(j.exitCode, j.startedAt, j.finishedAt, j.durationMS)
    {
      hide Inv, Beside, Apply, Allowed;
      var meta := Meta(j.exitCode, j.startedAt, j.finishedAt, j.durationMS);
      SaveMetaIsBeside(world, j.key, j.ToRecord(), meta);
      Do(SaveMeta(j.id, meta));
      RestKept(old(world), j.key, j.id);
    }

    method DeleteMeta(j: Job)
      requires Rest(j.key) && j.Sound(world) && j.status == FinalizePending
      requires j.key in world.disk && world.disk[j.key] == j.ToRecord()
      modifies this`world, this`run
      ensures Rest(j.key) && j.Sound(world) && Beside(old(world), world, j.key, j.id)
      ensures world.disk == old(world.disk) && world.starts == old(world.starts) && world.swept == old(world.swept)
    {
      hide Inv, Beside, Apply, Allowed;
      RemoveMetaIsBeside(world, j.key, j.ToRecord());
      Do(RemoveMeta(j.id));
      RestKept(old(world), j.key, j.id);
    }

    method WriteLog(j: Job)
      requires Rest(j.key) && j.Sound(world) && j.status == FinalizePending
      requires j.id in world.metas && j.finishedAt <= world.metas[j.id].modified
      modifies this`world, this`run
      ensures Rest(j.key) && j.Sound(world) && Beside(old(world), world, j.key, j.id)
      ensures world.disk == old(world.disk) && world.starts == old(world.starts) && world.swept == old(world.swept)
      ensures StoredSince(world, j.id, j.finishedAt) && Exited(world, j.id) && world.metas == old(world.metas)
      ensures world.logs[j.id].content == RetainedLog.Kept(Written(world, j.id))
    {
      hide Inv, Beside, Apply, Allowed, RetainedLog.Kept;
      SaveLogIsBeside(world, j.key, j.ToRecord());
      Do(SaveLog(j.id));
      RestKept(old(world), j.key, j.id);
    }

    /** cleanupRemoteJob: it may be lost, and it may remove only some of the files. */
    method CleanRemote(j: Job) returns (life: Life)
      requires Rest(j.key) && j.Sound(world) && j.id in world.sealed && j.id in world.logs && j.id in world.metas
      requires j.id in world.procs
      modifies this`world, this`run, this`registry
      ensures Reached()
      ensures life.Alive? ==> Rest(j.key) && j.Sound(world) && Beside(old(world), world, j.key, j.id)
      ensures life.Alive? ==> world.starts == old(world.starts) && world.logs == old(world.logs)
      ensures life.Alive? ==> world.sealed == old(world.sealed) && Grows(old(world.procs), world.procs)
      ensures life.Alive? ==> NothingLeft(old(world), world, j.key)
      ensures life.Alive? ==> j.id in world.cleaned || Since(old(world), world, Unanswered)
    {
      hide Inv, Later, Calm, Beside, ContinuesRun, Apply, Allowed, Job.Sound, Since, NothingLeft;
      Pause(j);
      LaterFiles(old(world), world);
      LaterLeavesNothing(old(world), world, j.key);
      if * { return Crashed; }
      if * {
        ghost var before := world;
        Meet(j, Unanswered);
        MetLater(old(world), before, world, j.key, j.id, Unanswered);
        return Alive;
      }
      FilesOfProcs(world, j.id);
      var log: bool := *;
      var rc: bool := *;
      var left := Files(log && world.files[j.id].log, rc && world.files[j.id].rc);
      ghost var mid := world;
      ArriveClean(j, left);
      BesideTransitive(old(world), mid, world, j.key, j.id);
      SameRecordLeft(old(world), mid, world, j.key);
      if * { return Crashed; }
      return Alive;
    }

    lemma SameRecordLeft(u: World, w: World, v: World, key: Key)
      requires NothingLeft(u, w, key) && v.disk == w.disk
      ensures NothingLeft(u, v, key)
    {
    }

    /** The host removes files of a run. */
    method ArriveClean(j: Job, left: Files)
      requires Rest(j.key) && j.Sound(world) && j.id in world.sealed && j.id in world.logs && j.id in world.metas
      requires j.id in world.files && SameOrFewer(left, world.files[j.id])
      modifies this`world, this`run
      ensures Rest(j.key) && j.Sound(world) && Beside(old(world), world, j.key, j.id)
      ensures world.disk == old(world).disk && world.starts == old(world).starts && world.logs == old(world).logs
      ensures world.sealed == old(world).sealed && world.procs == old(world).procs && j.id in world.cleaned
    {
      hide Inv, Beside, ContinuesRun, Apply, Allowed, Job.Sound;
      CleanIsBeside(world, j.key, j.id, left);
      Do(Clean(j.id, left));
      RestKept(old(world), j.key, j.id);
      SoundCleaned(j, old(world), left);
    }

    lemma SoundCleaned(j: Job, w: World, left: Files)
      requires j.Sound(w) && world == Apply(w, Clean(j.id, left))
      ensures j.Sound(world)
    {
    }

    /** The part of finalizeRunLog after the fetch: store the log, record done, and only then clean the host. */
    method Seal(j: Job) returns (life: Life, ok: bool)
      requires Rest(j.key) && Current(j) && j.Sound(world) && j.status == FinalizePending
      requires j.key in world.disk && world.disk[j.key] == j.ToRecord()
      modifies this`world, this`run, this`registry, j`status
      ensures Reached()
      ensures life.Alive? ==> Rest(j.key) && Current(j) && j.Sound(world) && Beside(old(world), world, j.key, j.id)
      ensures life.Alive? ==> world.starts == old(world.starts) && j.exitCode == old(j.exitCode)
      ensures life.Alive? ==> j.status == (if ok then Done else FinalizePending)
      ensures life.Alive? ==> NothingLeft(old(world), world, j.key)
      ensures life.Alive? && ok ==> j.id in world.sealed && j.id in world.logs
      ensures life.Alive? && ok ==> world.logs[j.id].content == RetainedLog.Kept(Written(world, j.id))
      ensures life.Alive? && !ok ==> Since(old(world), world, Unsaved)
      ensures life.Alive? && ok ==> j.id in world.cleaned || Since(old(world), world, Unanswered)
    {
      hide Inv, Later, Calm, Beside, ContinuesRun, Apply, Allowed, Job.Sound, RetainedLog.Kept, Since;
      ok :- SaveRunLog(j);
      if !ok {
        return Alive, false;
      }
      ghost var mid := world;
      ok :- RecordDone(j);
      CalmStarts(mid, world, j.key);
      CalmExited(mid, world, j.key, j.id);
      BesideTransitive(old(world), mid, world, j.key, j.id);
      if !ok {
        BesideThen(old(world), mid, world, j.key, j.id, Unsaved);
        return Alive, false;
      }
      mid := world;
      :- CleanRemote(j);
      BesideTransitive(old(world), mid, world, j.key, j.id);
      if j.id !in world.cleaned {
        BesideThen(old(world), mid, world, j.key, j.id, Unanswered);
      }
      return Alive, true;
    }

    /** finalizeRunLog */
    method FinalizeRunLog(j: Job) returns (life: Life, r: Finalized)
      requires Rest(j.key) && Current(j) && j.Sound(world) && j.status == FinalizePending
      requires j.key in world.disk && world.disk[j.key] == j.ToRecord()
      modifies this`world, this`run, this`registry, j`status
      ensures Reached()
      ensures life.Alive? ==> Rest(j.key) && Current(j) && j.Sound(world) && Beside(old(world), world, j.key, j.id)
      ensures life.Alive? ==> world.starts == old(world.starts) && j.exitCode == old(j.exitCode)
      ensures life.Alive? ==> j.status == (if r.LogKept? then Done else FinalizePending)
      ensures life.Alive? ==> NothingLeft(old(world), world, j.key)
      ensures life.Alive? && r.LogKept? ==>
        && Exited(world, j.id) && r.log == RetainedLog.Kept(Written(world, j.id))
        && j.id in world.sealed && j.id in world.logs && world.logs[j.id].content == r.log
        && (j.id in world.cleaned || Since(old(world), world, Unanswered))
      ensures life.Alive? && r.TryAgain? ==> Failing(old(world), world)
      ensures life.Alive? && r.LogMissing? ==> Since(old(world), world, Vanished(j.id))
    {
      hide Inv, Later, Calm, Beside, ContinuesRun, Apply, Allowed, Job.Sound, RetainedLog.Kept, Since, NothingLeft;
      r := TryAgain;
      SoundExited(j);
      var fetched :- FetchLog(j);
      UnfinishedStays(old(world), world, j.key);
      LaterFiles(old(world), world);
      LaterLeavesNothing(old(world), world, j.key);
      if fetched.NoReply? {
        return Alive, TryAgain;
      }
      if fetched.value.None? {
        return Alive, LogMissing;
      }
      ghost var mid := world;
      var ok :- Seal(j);
      BesideTransitive(old(world), mid, world, j.key, j.id);
      BesideExited(mid, world, j.key, j.id);
      NothingLeftTransitive(old(world), mid, world, j.key);
      if !ok {
        BesideThen(old(world), mid, world, j.key, j.id, Unsaved);
      } else if j.id !in world.cleaned {
        BesideThen(old(world), mid, world, j.key, j.id, Unanswered);
      }
      return Alive, if ok then LogKept(fetched.value.value) else TryAgain;
    }

    method RecordDone(j: Job) returns (life: Life, ok: bool)
      requires Rest(j.key) && Current(j) && j.Sound(world) && j.status == FinalizePending
      requires StoredSince(world, j.id, j.finishedAt)
      modifies this`world, this`run, this`registry, j`status
      ensures Reached()
      ensures life.Alive? ==> Rest(j.key) && Current(j) && j.Sound(world)
      ensures life.Alive? ==> Beside(old(world), world, j.key, j.id) && Calm(old(world), world, j.key)
      ensures life.Alive? ==> j.status == (if ok then Done else FinalizePending) && j.exitCode == old(j.exitCode)
      ensures life.Alive? ==> NothingLeft(old(world), world, j.key)
      ensures life.Alive? ==> if ok then j.id in world.sealed else Since(old(world), world, Unsaved)
    {
      hide Inv, Later, Calm, Beside, ContinuesRun, BeginsRun, Savable, Apply, Allowed, Job.Sound, Since;
      SoundSealed(j);
      MarkDone(j);
      j.SoundIsSavable(world);
      ok :- SaveJob(j);
      if !ok {
        LaterFiles(old(world), world);
        MarkPending(j);
      }
      return Alive, ok;
    }

    lemma SoundExited(j: Job)
      requires j.Sound(world) && (j.status == FinalizePending || j.status == Done)
      ensures Exited(world, j.id) && world.procs[j.id].exit.value.code == j.exitCode && j.Named(world)
    {
    }

    lemma SoundSealed(j: Job)
      requires j.Sound(world) && j.status == FinalizePending
      ensures j.id in world.sealed ==> j.id in world.swept
    {
    }

    // ----- polling a run

    /** A job that exec may watch. */
    ghost predicate Watchable(j: Job)
      reads this, j
    {
      j.Sound(world) && j.status != Done && j.status != Expired && (j.status == Failed ==> j.runKey.Some?)
    }

    /** What holds when the watching of j ends: all is sound, or j is a lost run that is about to be removed. */
    ghost predicate Settled(j: Job)
      reads this, jobs.Values, j
    {
      && Rest(j.key)
      && (Current(j) || (j.status == Expired && j.key !in jobs))
      && (j.Sound(world) || (!Guarded(world.spelled, j.key) && Current(j) && j.status == Failed))
    }

    method MarkLost(j: Job)
      requires j.Sound(world) && !j.ToRecord().Terminal() && j.runKey.None? && Vanished(j.id) in world.noted
      modifies j
      ensures Savable(world, j.key, j.ToRecord()) && j.Named(world)
      ensures j.done && j.status == Failed && j.fingerprint == old(j.fingerprint) && j.offset == old(j.offset)
    {
      hide ContinuesRun;
      ghost var before := j.ToRecord();
      j.done := true;
      j.exitCode := 1;
      j.startErr := true;
      j.status := Failed;
      LostContinues(world, j.key, before);
      RecordBound(world, j.key, before);
    }

    /** pollJob when the remote files are gone: a known outcome stays, a run key stays reserved, any other run is given
        up. */
    method PollMissing(j: Job) returns (life: Life, resp: Response)
      requires Rest(j.key) && Current(j) && Watchable(j) && Vanished(j.id) in world.noted
      modifies this`world, this`run, this`registry, this`jobs, j
      ensures Reached()
      ensures life.Alive? ==> Settled(j) && Calm(old(world), world, j.key) && Truthful(world, resp)
      ensures life.Alive? && resp.Trouble? ==> Since(old(world), world, Unsaved)
      ensures life.Alive? ==> j.offset == old(j.offset)
      ensures life.Alive? ==> NothingLeft(old(world), world, j.key) && j.status != Done && j.done
      ensures life.Alive? ==>
        if old(j.TerminalKnown()) then resp == OutputUnavailable(j.id, old(j.exitCode))
        else if j.runKey.Some? then resp == RunExpired(j.id) || resp == Trouble(j.id)
        else resp == RunLost(j.id)
      ensures life.Alive? && resp.RunExpired? ==> j.status == Expired && GivenUp(world.disk, j.id)
      ensures life.Alive? && resp.RunLost? ==> j.status == Failed
      ensures life.Alive? ==> jobs == old(jobs) || jobs == old(jobs) - {j.key}
    {
      hide Inv, Later, Calm, Beside, ContinuesRun, BeginsRun, Savable, Apply, Allowed, Job.Sound, Settled, Rest, Reached,
           Ready, Since, GivenUp;
      resp := Trouble(j.id);
      CalmReflexive(world, j.key);
      SettledSound(j);
      SoundOver(j);
      if j.TerminalKnown() {
        SoundExited(j);
        return Alive, OutputUnavailable(j.id, j.exitCode);
      }
      if j.runKey.Some? {
        var ok :- Expire(j);
        CalmStarts(old(world), world, j.key);
        NotKnown(j);
        SoundDone(j);
        SettledExpired(j);
        return Alive, if ok then RunExpired(j.id) else Trouble(j.id);
      }
      :- GiveUp(j);
      CalmStarts(old(world), world, j.key);
      return Alive, RunLost(j.id);
    }

    lemma SettledExpired(j: Job)
      requires Ready() && j.Sound(world) && j.status == Expired && (j.key in jobs ==> jobs[j.key] == j)
      ensures Settled(j)
    {
      hide Inv, Job.Sound;
    }

    /** A run without a run key whose remote files are gone is recorded as failed; a failed write is only logged. */
    method GiveUp(j: Job) returns (life: Life)
      requires Rest(j.key) && Current(j) && j.Sound(world) && !j.ToRecord().Terminal() && j.runKey.None?
      requires Vanished(j.id) in world.noted
      modifies this`world, this`run, this`registry, j
      ensures Reached()
      ensures life.Alive? ==> Settled(j) && Calm(old(world), world, j.key) && j.offset == old(j.offset) && j.status == Failed
      ensures life.Alive? ==> NothingLeft(old(world), world, j.key) && j.done
    {
      hide Inv, Later, Calm, Beside, ContinuesRun, BeginsRun, Savable, Job.Sound;
      UnkeyedUnguarded(j);
      MarkLost(j);
      var _ :- SaveJob(j);
      CalmStarts(old(world), world, j.key);
      return Alive;
    }

    lemma UnkeyedUnguarded(j: Job)
      requires j.Sound(world)
      ensures j.runKey.None? ==> !Guarded(world.spelled, j.key)
    {
      hide ContinuesRun;
    }

    lemma NotKnown(j: Job)
      requires j.Sound(world) && !j.ToRecord().Terminal()
      ensures j.id in world.bound && j.id !in world.known
    {
    }

    lemma LaunchedNotFailed(j: Job)
      requires Reached() && Watchable(j) && j.id in world.procs
      ensures j.status != Failed
    {
      LaunchedCommand(world, j.id);
    }

    /** The part of pollJob after the state is known: read on in the log, then look for the exit. */
    method PollProgress(j: Job, from: nat, max: nat) returns (life: Life, poll: Poll)
      requires Rest(j.key) && Current(j) && j.Sound(world) && from <= |Written(world, j.id)|
      modifies this`world, this`run, this`registry
      ensures Reached()
      ensures life.Alive? ==> Rest(j.key) && Current(j) && j.Sound(world)
      ensures life.Alive? ==> Calm(old(world), world, j.key) && Later(old(world), world)
      ensures poll.Answer? ==> poll.resp == Trouble(j.id)
      ensures life.Alive? && poll.Answer? ==> Replies(old(world), world, 0, j.id, poll.resp)
      ensures life.Alive? && poll.Progress? ==>
        && |poll.delta| <= max && IsDelta(world, j.id, from, poll.delta)
        && (poll.exit.Some? ==> Exited(world, j.id) && world.procs[j.id].exit == poll.exit)
        && (poll.exit.None? ==> Since(old(world), world, Unfinished(j.id)))
        && (|poll.delta| == max || ReadOn(old(world), world, j.id, from + |poll.delta|))
    {
      hide Inv, Later, Calm, Beside, ContinuesRun, Apply, Allowed, Job.Sound, Truthful, Since, Replies, Tells, ReadOn;
      poll := Answer(Trouble(j.id));
      j.SoundIsSavable(world);
      var delta :- ReadDelta(j, from, max);
      if delta.NoReply? {
        TroubleTold(old(world), world, j.id);
        TellsReplies(old(world), world, 0, j.id, Trouble(j.id));
        return Alive, Answer(Trouble(j.id));
      }
      ghost var mid := world;
      var exit :- ReadExit(j);
      LaterTransitive(old(world), mid, world);
      CalmTransitive(old(world), mid, world, j.key);
      LaterClock(old(world), mid);
      LaterClock(mid, world);
      if exit.NoReply? {
        SinceThen(old(world), mid, world, Unanswered);
        TroubleTold(old(world), world, j.id);
        TellsReplies(old(world), world, 0, j.id, Trouble(j.id));
        return Alive, Answer(Trouble(j.id));
      }
      if exit.value.None? {
        SinceThen(old(world), mid, world, Unfinished(j.id));
      }
      if |delta.value| != max {
        ReadOnThen(old(world), mid, world, j.id, from + |delta.value|);
      }
      DeltaStays(mid, world, j.id, from, delta.value);
      return Alive, Progress(delta.value, exit.value);
    }

    /** The part of pollJob that asks for the state: no answer when the run was launched and its remote files are there. */
    method PollState(j: Job) returns (life: Life, answer: Option<Response>)
      requires Rest(j.key) && Current(j) && Watchable(j)
      modifies this`world, this`run, this`registry, this`jobs, j
      ensures Reached()
      ensures life.Alive? ==> Calm(old(world), world, j.key) && j.offset == old(j.offset)
      ensures life.Alive? && answer.Some? ==>
        && Settled(j) && Replies(old(world), world, 0, j.id, answer.value) && j.status != Done
        && NothingLeft(old(world), world, j.key) && (old(j.done) ==> j.done)
        && (answer.value.Trouble? || answer.value.RunExpired? || answer.value.RunLost?
            || (answer.value.OutputUnavailable? && old(j.TerminalKnown())))
        && (answer.value.RunExpired? ==> j.status == Expired && GivenUp(world.disk, j.id))
        && (answer.value.RunLost? ==> j.status == Failed)
        && (jobs == old(jobs) || jobs == old(jobs) - {j.key})
      ensures life.Alive? && answer.None? ==>
        && Rest(j.key) && Current(j) && Watchable(j) && j.id in world.procs && Later(old(world), world)
        && jobs == old(jobs) && j.status == old(j.status) && j.done == old(j.done) && j.exitCode == old(j.exitCode)
    {
      hide Inv, Later, Calm, Beside, ContinuesRun, Apply, Allowed, Job.Sound, Truthful, NothingLeft, Job.ToRecord, Since,
           Replies, Tells, Rest, Reached, Ready, GivenUp;
      answer := Some(Trouble(j.id));
      j.SoundIsSavable(world);
      var state :- AskState(j);
      ghost var mid := world;
      LaterLeavesNothing(old(world), world, j.key);
      LaterClock(old(world), world);
      if state.NoReply? {
        TroubleTold(old(world), world, j.id);
        TellsReplies(old(world), world, 0, j.id, Trouble(j.id));
        return Alive, Some(Trouble(j.id));
      }
      if state.value == Missing {
        var resp :- PollMissing(j);
        CalmStarts(mid, world, j.key);
        CalmTransitive(old(world), mid, world, j.key);
        NothingLeftTransitive(old(world), mid, world, j.key);
        MissingReplies(old(world), mid, world, j.id, resp);
        return Alive, Some(resp);
      }
      return Alive, None;
    }

    /** pollJob */
    method PollJob(j: Job, pending: nat, max: nat) returns (life: Life, poll: Poll)
      requires Rest(j.key) && Current(j) && Watchable(j) && j.offset + pending <= |Written(world, j.id)|
      modifies this`world, this`run, this`registry, this`jobs, j
      ensures Reached()
      ensures life.Alive? ==> Calm(old(world), world, j.key) && j.offset == old(j.offset)
      ensures life.Alive? && poll.Answer? ==>
        Settled(j) && Replies(old(world), world, 0, j.id, poll.resp) && j.status != Done
      ensures life.Alive? && poll.Answer? ==> !poll.resp.StillRunning? && !poll.resp.Completed?
      ensures life.Alive? && poll.Answer? ==> NothingLeft(old(world), world, j.key) && (old(j.done) ==> j.done)
      ensures life.Alive? && poll.Answer? ==>
        poll.resp.Trouble? || poll.resp.RunExpired? || poll.resp.RunLost?
        || (poll.resp.OutputUnavailable? && old(j.TerminalKnown()))
      ensures life.Alive? && poll.Answer? && poll.resp.RunExpired? ==> j.status == Expired && GivenUp(world.disk, j.id)
      ensures life.Alive? && poll.Answer? && poll.resp.RunLost? ==> j.status == Failed
      ensures life.Alive? ==> jobs == old(jobs) || (poll.Answer? && jobs == old(jobs) - {j.key})
      ensures life.Alive? && poll.Progress? ==>
        Rest(j.key) && Current(j) && Watchable(j) && j.status != Failed && j.id in world.procs
      ensures life.Alive? && poll.Progress? ==> j.status == old(j.status) && Later(old(world), world)
      ensures life.Alive? && poll.Progress? ==> j.done == old(j.done) && j.exitCode == old(j.exitCode)
      ensures life.Alive? && poll.Progress? ==>
        && |poll.delta| <= max && IsDelta(world, j.id, j.offset + pending, poll.delta)
        && (poll.exit.Some? ==> Exited(world, j.id) && world.procs[j.id].exit == poll.exit)
        && (poll.exit.None? ==> Since(old(world), world, Unfinished(j.id)))
        && (|poll.delta| == max || ReadOn(old(world), world, j.id, j.offset + pending + |poll.delta|))
    {
      hide Inv, Later, Calm, Beside, ContinuesRun, Apply, Allowed, Job.Sound, Truthful, NothingLeft, Job.ToRecord, Since,
           Replies, Tells, ReadOn, Rest, Reached, Settled, IsDelta, GivenUp;
      poll := Answer(Trouble(j.id));
      var answer :- PollState(j);
      if answer.Some? {
        return Alive, Answer(answer.value);
      }
      ghost var mid := world;
      WrittenGrows(old(world), world, j.id);
      poll :- PollProgress(j, j.offset + pending, max);
      LaterTransitive(old(world), mid, world);
      CalmTransitive(old(world), mid, world, j.key);
      LaterFiles(old(world), mid);
      LaterFiles(mid, world);
      LaterLeavesNothing(old(world), world, j.key);
      LaunchedNotFailed(j);
      if poll.Answer? {
        SettledSound(j);
        RepliesFrom(old(world), mid, world, 0, j.id, poll.resp);
      } else if poll.exit.None? {
        SinceThen(old(world), mid, world, Unfinished(j.id));
      }
      if poll.Progress? && |poll.delta| != max {
        ReadOnThen(old(world), mid, world, j.id, j.offset + pending + |poll.delta|);
      }
      return Alive, poll;
    }

    method Advance(j: Job, n: nat)
      requires j.Sound(world) && j.offset + n <= |Written(world, j.id)|
      modifies j
      ensures j.Sound(world) && j.offset == old(j.offset) + n && j.status == old(j.status)
      ensures j.fingerprint == old(j.fingerprint) && j.exitCode == old(j.exitCode)
      ensures j.startedAt == old(j.startedAt) && j.finishedAt == old(j.finishedAt) && j.durationMS == old(j.durationMS)
    {
      hide ContinuesRun;
      ghost var before := j.ToRecord();
      j.offset := j.offset + n;
      j.lastSeenAt := world.now;
      AdvancedContinues(world, j.key, before, j.offset, j.lastSeenAt);
    }

    /** The end of finishJobPoll for a run whose exit is recorded. */
    method FinishDone(j: Job) returns (life: Life, resp: Response)
      requires Rest(j.key) && Current(j) && j.Sound(world) && j.status == FinalizePending
      requires j.key in world.disk && world.disk[j.key] == j.ToRecord()
      modifies this`world, this`run, this`registry, j`status
      ensures Reached()
      ensures life.Alive? ==> Rest(j.key) && Current(j) && j.Sound(world) && Replies(old(world), world, 0, j.id, resp)
      ensures life.Alive? ==> world.starts == old(world.starts) && Beside(old(world), world, j.key, j.id)
      ensures life.Alive? ==> j.status == (if resp.Completed? then Done else FinalizePending)
      ensures life.Alive? ==> NothingLeft(old(world), world, j.key)
      ensures life.Alive? ==> resp.Completed? || resp.OutputUnavailable? || resp.RetryFinalize?
      ensures life.Alive? && resp.Completed? ==>
        resp.id == j.id && (j.id in world.cleaned || Since(old(world), world, Unanswered))
    {
      hide Inv, Later, Calm, Beside, ContinuesRun, Apply, Allowed, Job.Sound, RetainedLog.Kept, Since;
      resp := RetryFinalize(j.id);
      var r :- FinalizeRunLog(j);
      SoundExited(j);
      match r
      case LogKept(log) => return Alive, Completed(j.id, j.exitCode, log);
      case LogMissing => return Alive, OutputUnavailable(j.id, j.exitCode);
      case TryAgain => return Alive, RetryFinalize(j.id);
    }

    /** The record of a poll: the delta is consumed, and an exit becomes known, before anything else is done. */
    method RecordPoll(j: Job, exit: Option<Exit>, n: nat) returns (life: Life, ok: bool)
      requires Rest(j.key) && Current(j) && Watchable(j) && j.status != Failed
      requires j.offset + n <= |Written(world, j.id)|
      requires exit.Some? ==> Exited(world, j.id) && world.procs[j.id].exit == exit
      modifies this`world, this`run, this`registry, j
      ensures Reached()
      ensures life.Alive? ==> Rest(j.key) && Current(j) && j.Sound(world) && Calm(old(world), world, j.key)
      ensures life.Alive? ==> Beside(old(world), world, j.key, j.id)
      ensures life.Alive? ==> j.status == (if exit.Some? then FinalizePending else old(j.status))
      ensures life.Alive? ==> (j.done <==> j.status == FinalizePending) && j.offset == old(j.offset) + n
      ensures life.Alive? && j.done ==> NothingLeft(old(world), world, j.key)
      ensures life.Alive? && old(j.done) ==> j.done
      ensures life.Alive? && ok ==> j.key in world.disk && world.disk[j.key] == j.ToRecord()
      ensures life.Alive? && !ok ==> Since(old(world), world, Unsaved) && NothingLeft(old(world), world, j.key)
      ensures life.Alive? && exit.Some? ==> j.exitCode == exit.value.code
      ensures life.Alive? && exit.Some? ==>
        if old(j.finishedAt) != 0
        then j.finishedAt == old(j.finishedAt) && j.durationMS == old(j.durationMS)
        else (j.finishedAt, j.durationMS) == Timing(j.startedAt, old(world).now, exit.value)
    {
      hide Inv, Later, Calm, Beside, ContinuesRun, BeginsRun, Savable, Apply, Allowed, Job.Sound, Since, NothingLeft, Timing;
      SoundStatus(j);
      Advance(j, n);
      if exit.Some? {
        MarkExited(j, exit.value, true);
      }
      SoundStatus(j);
      j.SoundIsSavable(world);
      ok :- SaveJob(j);
      if !ok {
        LaterLeavesNothing(old(world), world, j.key);
      }
      return Alive, ok;
    }

    /** finishJobPoll */
    method FinishPoll(j: Job, exit: Option<Exit>, delta: seq<byte>) returns (life: Life, resp: Response)
      requires Rest(j.key) && Current(j) && Watchable(j) && j.status != Failed && j.id in world.procs
      requires |delta| <= MAX_DELTA && IsDelta(world, j.id, j.offset, delta)
      requires exit.Some? ==> Exited(world, j.id) && world.procs[j.id].exit == exit
      modifies this`world, this`run, this`registry, j
      ensures Reached()
      ensures life.Alive? ==> Rest(j.key) && Current(j) && j.Sound(world) && Truthful(world, resp)
      ensures life.Alive? && !resp.StillRunning? ==> Replies(old(world), world, 0, j.id, resp)
      ensures life.Alive? && exit.Some? ==> !resp.StillRunning?
      ensures life.Alive? ==> world.starts == old(world.starts) && Beside(old(world), world, j.key, j.id)
      ensures life.Alive? && !resp.StillRunning? ==> j.done
      ensures life.Alive? && !(resp.StillRunning? && UpToDate(j)) ==> NothingLeft(old(world), world, j.key)
      ensures life.Alive? && resp.StillRunning? && !UpToDate(j) ==> Since(old(world), world, Unsaved)
      ensures life.Alive? && old(j.done) ==> j.done
      ensures life.Alive? ==> j.offset == old(j.offset) + |delta| && (resp.Completed? <==> j.status == Done)
      ensures life.Alive? ==>
        resp.StillRunning? || resp.Completed? || resp.OutputUnavailable? || resp.RetryFinalize?
      ensures life.Alive? && resp.StillRunning? ==>
        resp == StillRunning(j.id, old(j.offset), delta) && !j.done && j.Sound(world)
      ensures life.Alive? && resp.Completed? ==> resp.id == j.id
      ensures life.Alive? ==> j.status != Failed && j.status != Expired
    {
      hide Inv, Later, Calm, Beside, ContinuesRun, Apply, Allowed, Job.Sound, RetainedLog.Kept, Truthful,
           IsDelta, Rest, Reached, Since, Replies, Tells;
      resp := RetryFinalize(j.id);
      var from := j.offset;
      DeltaFits(world, j.id, from, delta);
      var ok :- RecordPoll(j, exit, |delta|);
      CalmStarts(old(world), world, j.key);
      DeltaCalm(old(world), world, j.key, j.id, from, delta);
      if !j.done {
        RunningIsTruthful(world, j.id, from, delta);
        return Alive, StillRunning(j.id, from, delta);
      }
      if !ok {
        PendingExited(j);
        TroubleTold(old(world), world, j.id);
        TellsReplies(old(world), world, 0, j.id, RetryFinalize(j.id));
        RepliesAbout(old(world), world, 0, j.id, RetryFinalize(j.id));
        return Alive, RetryFinalize(j.id);
      }
      ghost var mid := world;
      resp :- FinishDone(j);
      BesideClock(mid, world, j.key, j.id);
      BesideTransitive(old(world), mid, world, j.key, j.id);
      NothingLeftTransitive(old(world), mid, world, j.key);
      RepliesFrom(old(world), mid, world, 0, j.id, resp);
      RepliesAbout(old(world), world, 0, j.id, resp);
      return Alive, resp;
    }

    lemma PendingExited(j: Job)
      requires j.Sound(world)
      ensures j.status == FinalizePending ==> Exited(world, j.id)
    {
    }

    lemma SoundStatus(j: Job)
      requires Watchable(j) && j.status != Failed
      ensures j.done <==> j.status == FinalizePending
    {
    }

    /** The loop of watchJob: the part of the log that the polls read, and the exit when the last one saw it; or an answer
        that ends the watch early. */
    method Gather(j: Job, polls: nat)
      returns (life: Life, answer: Option<Response>, delta: seq<byte>, exit: Option<Exit>)
      requires Rest(j.key) && Current(j) && Watchable(j) && j.offset <= |Written(world, j.id)|
      modifies this`world, this`run, this`registry, this`jobs, j
      ensures Reached()
      ensures life.Alive? ==> Calm(old(world), world, j.key) && j.offset == old(j.offset)
      ensures life.Alive? && answer.Some? ==>
        && Settled(j) && Replies(old(world), world, 0, j.id, answer.value) && !answer.value.StillRunning?
        && j.status != Done && NothingLeft(old(world), world, j.key) && (old(j.done) ==> j.done)
        && (answer.value.Trouble? || answer.value.RunExpired? || answer.value.RunLost?
            || (answer.value.OutputUnavailable? && old(j.TerminalKnown())))
        && (answer.value.RunExpired? ==> j.status == Expired && GivenUp(world.disk, j.id))
        && (answer.value.RunLost? ==> j.status == Failed)
        && (jobs == old(jobs) || jobs == old(jobs) - {j.key})
        && j.offset <= |Written(world, j.id)|
      ensures life.Alive? && answer.None? ==>
        && Rest(j.key) && Current(j) && Watchable(j) && j.status != Failed && j.id in world.procs
        && Later(old(world), world) && jobs == old(jobs) && j.done == old(j.done)
        && |delta| <= MAX_DELTA && IsDelta(world, j.id, j.offset, delta)
        && (exit.Some? ==> Exited(world, j.id) && world.procs[j.id].exit == exit)
        && (exit.None? ==> PartEnds(old(world), world, polls, j.id, j.offset + |delta|, |delta|))
    {
      hide Inv, Later, Calm, Beside, ContinuesRun, Apply, Allowed, Job.Sound, Truthful, Rest, Watchable, Settled, Reached,
           IsDelta, Quiet, Grows, Elsewhere, NothingLeft, Replies, Times, ReadOn, PartEnds, GivenUp;
      answer, delta, exit := None, [], None;
      var left: nat := polls;
      EmptyDelta(world, j.id, j.offset);
      LaterReflexive(world);
      TimesNone(world, Unfinished(j.id));
      while true
        invariant Rest(j.key) && Current(j) && Watchable(j) && Later(old(world), world)
        invariant jobs == old(jobs) && j.done == old(j.done) && j.status == old(j.status) && j.exitCode == old(j.exitCode)
        invariant j.offset == old(j.offset) && |delta| <= MAX_DELTA && IsDelta(world, j.id, j.offset, delta)
        invariant delta != [] ==> j.status != Failed && j.id in world.procs
        invariant left + Times(old(world), world, Unfinished(j.id)) >= polls && exit.None? && answer.None?
        decreases left
      {
        if |delta| == MAX_DELTA {
          break;
        }
        ghost var mid := world;
        DeltaFits(world, j.id, j.offset, delta);
        var poll :- PollJob(j, |delta|, MAX_DELTA - |delta|);
        DeltaCalm(mid, world, j.key, j.id, j.offset, delta);
        CalmStarts(mid, world, j.key);
        LaterIsCalm(old(world), mid, j.key);
        if poll.Answer? {
          CalmTransitive(old(world), mid, world, j.key);
          LaterLeavesNothing(old(world), mid, j.key);
          NothingLeftTransitive(old(world), mid, world, j.key);
          RepliesFrom(old(world), mid, world, 0, j.id, poll.resp);
          DeltaFits(world, j.id, j.offset, delta);
          return Alive, Some(poll.resp), delta, None;
        }
        LaterTransitive(old(world), mid, world);
        DeltaAppend(world, j.id, j.offset, delta, poll.delta);
        delta := delta + poll.delta;
        TimesAdd(old(world), mid, world, Unfinished(j.id));
        if |delta| < MAX_DELTA {
          ReadOnThen(old(world), mid, world, j.id, j.offset + |delta|);
        }
        if poll.exit.Some? || |delta| >= MAX_DELTA || left == 0 {
          exit := poll.exit;
          break;
        }
        left := left - 1;
      }
      RestReached(j.key);
      PartEnded(old(world), world, polls, left, j.id, j.offset + |delta|, |delta|);
      LaterIsCalm(old(world), world, j.key);
      return Alive, None, delta, exit;
    }

    /** watchJob: polls until the run is done, the delta is full, or the wait is over after a number of polls. The delta
        is exactly the part of the log after the job's offset, and a run is told to go on only when every poll saw no exit
        or the delta is full; without an end of the watch, an answer leaves the offset alone. */
    method WatchJob(j: Job, polls: nat) returns (life: Life, resp: Response, ghost ended: bool)
      requires Rest(j.key) && Current(j) && Watchable(j) && j.offset <= |Written(world, j.id)|
      modifies this`world, this`run, this`registry, this`jobs, j
      ensures Reached()
      ensures life.Alive? ==> Settled(j) && Quiet(old(world), world) && Replies(old(world), world, polls, j.id, resp)
      ensures life.Alive? ==> Elsewhere(old(world), world, j.key) && (resp.Completed? <==> j.status == Done)
      ensures life.Alive? && !resp.StillRunning? ==> j.done || j.offset == old(j.offset)
      ensures life.Alive? && !(resp.StillRunning? && UpToDate(j)) ==> NothingLeft(old(world), world, j.key)
      ensures life.Alive? && resp.StillRunning? && !UpToDate(j) ==> Since(old(world), world, Unsaved)
      ensures life.Alive? && old(j.done) ==> j.done
      ensures life.Alive? ==> old(j.offset) <= j.offset <= old(j.offset) + MAX_DELTA && j.offset <= |Written(world, j.id)|
      ensures life.Alive? && !ended ==> j.offset == old(j.offset)
      ensures life.Alive? && ended ==>
        resp.StillRunning? || resp.Completed? || resp.OutputUnavailable? || resp.RetryFinalize?
      ensures life.Alive? && !ended ==>
        resp.Trouble? || resp.RunExpired? || resp.RunLost? || (resp.OutputUnavailable? && old(j.TerminalKnown()))
      ensures life.Alive? ==> Watched(resp)
      ensures life.Alive? && resp.RunExpired? ==> j.status == Expired && GivenUp(world.disk, j.id)
      ensures life.Alive? && resp.RunLost? ==> j.status == Failed
      ensures life.Alive? ==> jobs == old(jobs) || jobs == old(jobs) - {j.key}
      ensures life.Alive? && resp.StillRunning? ==>
        resp.id == j.id && resp.from == old(j.offset) && j.offset == resp.from + |resp.delta| && Current(j)
      ensures life.Alive? && resp.StillRunning? ==> !j.done && j.Sound(world)
      ensures life.Alive? && resp.Completed? ==> resp.id == j.id && Current(j)
    {
      hide Inv, Later, Calm, Beside, ContinuesRun, Apply, Allowed, Job.Sound, Truthful, Rest, Watchable, Settled, Reached,
           IsDelta, Quiet, Grows, Elsewhere, NothingLeft, Replies, Times, ReadOn, PartEnds, Since, UpToDate, GivenUp;
      resp := Trouble(j.id);
      ended := false;
      var answer, delta, exit;
      answer, delta, exit :- Gather(j, polls);
      ghost var seen := world;
      CalmStarts(old(world), world, j.key);
      CalmElsewhere(old(world), world, j.key);
      if answer.Some? {
        AnyPolls(old(world), world, polls, j.id, answer.value);
        return Alive, answer.value, false;
      }
      DeltaFits(world, j.id, j.offset, delta);
      resp :- EndWatch(j, exit, delta);
      LaterThen(old(world), seen, world, j.key);
      if resp.StillRunning? && !UpToDate(j) {
        SinceThen(old(world), seen, world, Unsaved);
      }
      EndReplies(old(world), seen, world, polls, j.id, resp);
      return Alive, resp, true;
    }

    method EndWatch(j: Job, exit: Option<Exit>, delta: seq<byte>) returns (life: Life, resp: Response)
      requires Rest(j.key) && Current(j) && Watchable(j) && j.status != Failed && j.id in world.procs
      requires |delta| <= MAX_DELTA && IsDelta(world, j.id, j.offset, delta)
      requires exit.Some? ==> Exited(world, j.id) && world.procs[j.id].exit == exit
      modifies this`world, this`run, this`registry, j
      ensures Reached()
      ensures life.Alive? ==> Settled(j) && Current(j) && Truthful(world, resp) && Quiet(old(world), world)
      ensures life.Alive? && !resp.StillRunning? ==> Replies(old(world), world, 0, j.id, resp)
      ensures life.Alive? && exit.Some? ==> !resp.StillRunning?
      ensures life.Alive? ==> Elsewhere(old(world), world, j.key)
      ensures life.Alive? && !resp.StillRunning? ==> j.done
      ensures life.Alive? && !(resp.StillRunning? && UpToDate(j)) ==> NothingLeft(old(world), world, j.key)
      ensures life.Alive? && resp.StillRunning? && !UpToDate(j) ==> Since(old(world), world, Unsaved)
      ensures life.Alive? && old(j.done) ==> j.done
      ensures life.Alive? ==> j.offset == old(j.offset) + |delta| <= |Written(world, j.id)|
      ensures life.Alive? ==> (resp.Completed? <==> j.status == Done)
      ensures life.Alive? ==>
        resp.StillRunning? || resp.Completed? || resp.OutputUnavailable? || resp.RetryFinalize?
      ensures life.Alive? && resp.StillRunning? ==>
        resp == StillRunning(j.id, old(j.offset), delta) && !j.done && j.Sound(world)
      ensures life.Alive? && resp.Completed? ==> resp.id == j.id
    {
      hide Inv, Later, Calm, Beside, ContinuesRun, Apply, Allowed, Job.Sound, Truthful, Rest, Watchable, Settled, Reached,
           IsDelta, Quiet, Grows, Elsewhere, NothingLeft, Replies, Since, UpToDate;
      ghost var from := j.offset;
      DeltaFits(world, j.id, from, delta);
      resp :- FinishPoll(j, exit, delta);
      SettledSound(j);
      BesideQuiet(old(world), world, j.key, j.id);
      BesideElsewhere(old(world), world, j.key, j.id);
      QuietFacts(old(world), world);
      GrowsDelta(old(world), world, j.id, from, delta);
      return Alive, resp;
    }

    lemma RestReached(key: Key)
      requires Rest(key)
      ensures Reached()
    {
      hide Inv, Job.Sound;
    }

    lemma SettledSound(j: Job)
      requires Rest(j.key) && Current(j) && j.Sound(world)
      ensures Settled(j) && Reached()
    {
      hide Job.Sound;
    }

    // ----- loading the connection

    lemma ReadyThinned(w: World)
      requires Thinned(w, world)
      requires forall k :: k in jobs ==> jobs[k].key == k && jobs[k].Sound(w)
      ensures forall k :: k in jobs ==> jobs[k].Sound(world)
    {
      hide Thinned, ContinuesRun;
      forall k | k in jobs ensures jobs[k].Sound(world) {
        ThinnedKeepsRecord(w, world, k, jobs[k].ToRecord());
      }
    }

    /** The body of migrateLegacyFingerprints */
    method MigrateRecords(current: string, legacy: string) returns (life: Life, ok: bool)
      requires Ready()
      modifies this`world, this`run, this`registry
      ensures Reached()
      ensures life.Alive? ==> Ready() && Thinned(old(world), world)
      ensures life.Alive? ==> SamePlaces(old(world), world)
      ensures life.Alive? ==> forall k :: k in world.disk ==>
        k in old(world).disk
        && world.disk[k] == if ok then Rebound(old(world).disk[k], current, legacy) else old(world).disk[k]
      ensures life.Alive? ==>
        forall k :: k in old(world).disk && k !in world.disk ==> Prunable(old(world).disk[k], world.now)
      ensures life.Alive? && !ok ==> Failing(old(world), world)
    {
      hide Inv, Apply, Allowed, Later, ContinuesRun, Thinned, Job.Sound, OnDisk, Rebound, Rebindable, Since, At,
           RebindAll, Failing;
      ok := false;
      Interfere();
      LaterIsThinned(old(world), world);
      ReadyThinned(old(world));
      var next, changed := RebindRecords(registry, current, legacy);
      LaterRebound(old(world), world, current, legacy);
      LaterRecords(old(world), world);
      LaterPlaces(old(world), world);
      LaterClock(old(world), world);
      if !changed {
        return Alive, true;
      }
      ghost var mid := world;
      ok :- WriteRebound(next, current, legacy);
      ThinnedTransitive(old(world), mid, world);
      ThinnedRecord(mid, world, Keyed(""));
      BoundRecords(old(world), mid, world, current, legacy, ok);
      FailingThen(old(world), mid, world);
      return Alive, ok;
    }

    /** The registry is written with its records bound to a fingerprint. */
    method WriteRebound(next: map<Key, Record>, current: string, legacy: string) returns (life: Life, ok: bool)
      requires Ready() && next == RebindAll(world.disk, current, legacy)
      modifies this`world, this`run, this`registry
      ensures Reached()
      ensures life.Alive? ==> Ready() && Thinned(old(world), world) && SamePlaces(old(world), world)
      ensures life.Alive? ==> world.disk == (if ok then next else old(world).disk)
      ensures life.Alive? && !ok ==> Failing(old(world), world)
    {
      hide Inv, Apply, Allowed, Later, ContinuesRun, Thinned, Job.Sound, OnDisk, Rebound, Rebindable, Since, At;
      if * { return Crashed, false; }
      if * {
        MeetReady(Unsaved);
        LaterIsThinned(old(world), world);
        return Alive, false;
      }
      RebindIsThinned(world, current, legacy);
      RebindPlaces(world, current, legacy);
      RebindIsAllowed(world, current, legacy);
      Do(Rebind(current, legacy));
      if * { return Crashed, false; }
      registry := next;
      ReadyThinned(old(world));
      return Alive, true;
    }

    /** migrateLegacyFingerprints: no run moves, and on failure no record changes. */
    method Migrate(current: string, legacy: string) returns (life: Life, ok: bool)
      requires Ready()
      modifies this`world, this`run, this`registry
      ensures Reached()
      ensures life.Alive? ==> Ready() && Thinned(old(world), world)
      ensures life.Alive? ==> SamePlaces(old(world), world) && Everywhere() == old(Everywhere())
      ensures life.Alive? ==> forall k :: k in world.disk ==>
        k in old(world).disk
        && world.disk[k] == if ok then Rebound(old(world).disk[k], current, legacy) else old(world).disk[k]
      ensures life.Alive? ==>
        forall k :: k in old(world).disk && k !in world.disk ==> Prunable(old(world).disk[k], world.now)
      ensures life.Alive? && !ok ==> Failing(old(world), world)
    {
      hide Inv, ContinuesRun, Job.Sound, Thinned, OnDisk, Ready, Reached, Rest, Later, SamePlaces, FewerPlaces, Rebound, At;
      ok := false;
      ok :- MigrateRecords(current, legacy);
      PlacesStay();
      return Alive, ok;
    }

    twostate lemma PlacesStay()
      requires jobs == old(jobs) && SamePlaces(old(world), world)
      requires forall k :: k in jobs ==> jobs[k].done == old(jobs[k].done) && jobs[k].offset == old(jobs[k].offset)
      ensures Everywhere() == old(Everywhere())
    {
      hide OnDisk;
      forall k: Key ensures At(k) == old(At(k)) {
      }
    }

    /** The body of prepareEntry */
    method PrepareJobs(fp: string) returns (life: Life, ok: bool)
      requires Ready() && fp != ""
      modifies this`world, this`run, this`registry, this`fingerprint, this`jobs
      ensures Reached()
      ensures life.Alive? ==> Ready() && Thinned(old(world), world) && fingerprint == fp
      ensures life.Alive? && ok && old(fingerprint) != "" && fp != old(fingerprint) ==>
        forall k :: k in world.disk ==> world.disk[k].runKey.Some?
      ensures life.Alive? ==> forall k :: k in world.disk ==>
        k in old(world).disk && world.disk[k] == old(world).disk[k]
      ensures life.Alive? ==> jobs == if fp == old(fingerprint) || old(fingerprint) == "" then old(jobs) else map[]
      ensures life.Alive? && (fp == old(fingerprint) || old(fingerprint) == "") ==>
        ok && Later(old(world), world) && SamePlaces(old(world), world)
      ensures life.Alive? ==> FewerPlaces(old(world), world)
      ensures life.Alive? && !ok ==> Failing(old(world), world)
    {
      hide Inv, Apply, Allowed, Later, ContinuesRun, Thinned, Job.Sound, OnDisk, Rebound, Rebindable, Since, At;
      ok := false;
      Interfere();
      LaterIsThinned(old(world), world);
      ReadyThinned(old(world));
      LaterRecords(old(world), world);
      LaterPlaces(old(world), world);
      if fingerprint == "" || fingerprint == fp {
        fingerprint := fp;
        return Alive, true;
      }
      fingerprint := fp;
      jobs := map[];
      var next := DropUnkeyedRecords(registry);
      if * { return Crashed, false; }
      ghost var mid := world;
      if * {
        MeetReady(Unsaved);
        FailedLater(old(world), mid, world, Unsaved);
        LaterIsThinned(old(world), world);
        LaterRecords(old(world), world);
        LaterPlaces(old(world), world);
        return Alive, false;
      }
      DropUnkeyedIsThinned(world);
      DropUnkeyedPlaces(world);
      DropUnkeyedIsAllowed(world);
      Do(DropUnkeyed);
      if * { return Crashed, false; }
      registry := next;
      ThinnedTransitive(old(world), mid, world);
      return Alive, true;
    }

    /** prepareEntry: another fingerprint drops the jobs and, unless the write fails, the records without a run key. The
        same one, or the first one, changes nothing. */
    method Prepare(fp: string) returns (life: Life, ok: bool)
      requires Ready() && fp != ""
      modifies this`world, this`run, this`registry, this`fingerprint, this`jobs
      ensures Reached()
      ensures life.Alive? ==> Ready() && Thinned(old(world), world) && fingerprint == fp
      ensures life.Alive? && ok && old(fingerprint) != "" && fp != old(fingerprint) ==>
        forall k :: k in world.disk ==> world.disk[k].runKey.Some?
      ensures life.Alive? ==> forall k :: k in world.disk ==>
        k in old(world).disk && world.disk[k] == old(world).disk[k]
      ensures life.Alive? ==> jobs == if fp == old(fingerprint) || old(fingerprint) == "" then old(jobs) else map[]
      ensures life.Alive? && (fp == old(fingerprint) || old(fingerprint) == "") ==>
        ok && Later(old(world), world) && SamePlaces(old(world), world)
      ensures life.Alive? ==> FewerPlaces(old(world), world)
      ensures life.Alive? && !ok ==> Failing(old(world), world)
      ensures life.Alive? ==> Loaded(old(Everywhere()), Everywhere(), Dropped(old(fingerprint)))
    {
      hide Inv, ContinuesRun, Job.Sound, Thinned, OnDisk, Ready, Reached, Rest, Later, SamePlaces, FewerPlaces, Rebound, At;
      ok := false;
      ReadyPlaces();
      ok :- PrepareJobs(fp);
      PlacesLoaded(fp);
      return Alive, ok;
    }

    twostate lemma PlacesLoaded(fp: string)
      requires forall k :: old(Busy(jobs, k)) && OnDisk(old(world).disk, k).Filed? ==>
        OnDisk(old(world).disk, k).id == old(jobs[k].id) && OnDisk(old(world).disk, k).saved <= old(jobs[k].offset)
      requires fingerprint == fp && jobs == if fp == old(fingerprint) || old(fingerprint) == "" then old(jobs) else map[]
      requires FewerPlaces(old(world), world)
      requires fp == old(fingerprint) || old(fingerprint) == "" ==> SamePlaces(old(world), world)
      requires forall k :: k in jobs ==> jobs[k].done == old(jobs[k].done) && jobs[k].offset == old(jobs[k].offset)
      ensures Loaded(old(Everywhere()), Everywhere(), Dropped(old(fingerprint)))
    {
      hide OnDisk;
      forall k: Key ensures if Dropped(old(fingerprint))
        then At(k) == Gone || (Has(old(At(k)), At(k).id) && At(k) == Filed(old(At(k)).id, old(At(k)).saved))
        else At(k) == old(At(k))
      {
      }
    }

    /** loadConnectionSnapshot, which may fail, and prepareEntry */
    method Load(fp: string, legacy: string) returns (life: Life, ok: bool)
      requires Ready() && fp != ""
      modifies this`world, this`run, this`registry, this`fingerprint, this`jobs
      ensures Reached()
      ensures life.Alive? ==> Ready() && Thinned(old(world), world)
      ensures life.Alive? && ok ==> fingerprint == fp
      ensures life.Alive? && ok ==> forall k :: k in world.disk ==>
        k in old(world).disk && world.disk[k] == Rebound(old(world).disk[k], fp, legacy)
      ensures life.Alive? ==> jobs == if !ok || fp == old(fingerprint) || old(fingerprint) == "" then old(jobs) else map[]
      ensures life.Alive? && !ok ==> fingerprint == old(fingerprint)
      ensures life.Alive? && ok && (fp == old(fingerprint) || old(fingerprint) == "") ==>
        forall k :: k in old(world).disk && k !in world.disk ==> Prunable(old(world).disk[k], world.now)
      ensures life.Alive? && !ok ==> Failing(old(world), world)
      ensures life.Alive? ==> Loaded(old(Everywhere()), Everywhere(), Dropped(old(fingerprint)))
    {
      hide Inv, Thinned, Job.Sound, OnDisk, PlaceFrom, Since, Later, At, ContinuesRun, Prunable, Rebound, Ready;
      ok := false;
      if * {
        MeetReady(Unread);
        LaterIsThinned(old(world), world);
        return Alive, false;
      }
      ok :- Migrate(fp, legacy);
      if !ok {
        return Alive, false;
      }
      ghost var mid := world;
      var _ :- Prepare(fp);
      ThinnedTransitive(old(world), mid, world);
      if fp == old(fingerprint) || old(fingerprint) == "" {
        OnlyPruned(old(world), mid, world, fp, legacy);
      }
      return Alive, true;
    }

    /** pruneExpiredKeyedJobs: when it succeeds, every done record left under a run key has its local files. */
    method PruneNow() returns (life: Life, ok: bool)
      requires Ready()
      modifies this`world, this`run, this`registry
      ensures Reached()
      ensures life.Alive? ==> Ready() && Later(old(world), world)
      ensures life.Alive? ==> if ok then Retained(world) else Since(old(world), world, Unsaved)
      ensures life.Alive? && ok ==> forall k :: k in world.disk ==> !Prunable(world.disk[k], old(world).now)
    {
      hide Inv, Apply, Allowed, Later, ContinuesRun, Job.Sound, Since, At;
      ok := false;
      Interfere();
      ReadyLater(old(world));
      var next, changed := PruneRecords(registry, world.now);
      LaterClock(old(world), world);
      CutoffPassed(world);
      if !changed {
        UnprunableIsStored(world);
        NonePrunable(world, old(world).now);
        return Alive, true;
      }
      if * { return Crashed, false; }
      ghost var mid := world;
      if * {
        MeetReady(Unsaved);
        FailedLater(old(world), mid, world, Unsaved);
        return Alive, false;
      }
      PruneIsLater(world, world.now);
      PruneIsAllowed(world);
      Do(Prune(world.now));
      if * { return Crashed, false; }
      registry := next;
      LaterTransitive(old(world), mid, world);
      ReadyLater(mid);
      PrunedIsStored(mid);
      PrunedLeavesNone(mid, old(world).now);
      return Alive, true;
    }

    lemma ReadyLater(w: World)
      requires Later(w, world)
      requires forall k :: k in jobs ==> jobs[k].key == k && jobs[k].Sound(w)
      ensures forall k :: k in jobs ==> jobs[k].Sound(world)
    {
      hide Later, ContinuesRun;
      forall k | k in jobs ensures jobs[k].Sound(world) {
        LaterKeepsRecord(w, world, k, jobs[k].ToRecord());
        LaterClock(w, world);
      }
    }

    // ----- finding the run of a request

    method AddJob(key: Key, runKey: Option<string>, command: string) returns (j: Job)
      requires Ready() && fingerprint != "" && FitsKey(world.spelled, key, runKey)
      requires runKey.None? ==> key.Hashed() == command
      modifies this`jobs
      ensures fresh(j) && Rest(key) && Current(j) && j.key == key && j.Unrecorded(world) && j.command == command
      ensures j.runKey == runKey
      ensures jobs == old(jobs)[key := j]
    {
      hide Inv, ContinuesRun;
      NewId(world.bound.Keys);
      var id: RunId :| id !in world.bound;
      j := new Job.New(id, key, runKey, command, fingerprint);
      jobs := jobs[key := j];
    }

    /** A job for the run on record under key. */
    method AttachJob(key: Key, runKey: Option<string>, command: string) returns (j: Job)
      requires Ready() && fingerprint != "" && key in world.disk && FitsKey(world.spelled, key, runKey)
      requires runKey.Some? ==> world.disk[key].commandHash == command && world.disk[key].runKey == runKey
      modifies this`jobs
      ensures fresh(j) && Rest(key) && Current(j) && j.key == key && j.id == world.disk[key].id && j.Sound(world)
      ensures jobs == old(jobs)[key := j] && j.runKey == runKey && j.commandHash == (if runKey.Some? then command else "")
      ensures j.status == Unstored(world, world.disk[key]) && j.offset == world.disk[key].offset
      ensures j.done == Over(world.disk[key].status)
    {
      hide Inv, Job.Sound;
      j := Recall(world, key, runKey, command, fingerprint);
      jobs := jobs[key := j];
    }

    /** A job that a request may go on with: one that is on record, or a new one that replaces no started run. */
    ghost predicate Found(j: Job, runKey: Option<string>, command: string)
      reads this, j
    {
      && Current(j) && j.key == KeyOf(runKey, command)
      && ((j.Sound(world) && (runKey.Some? ==> j.commandHash == command && j.runKey == runKey)
           && (runKey.None? ==> Waitable(j)))
          || (j.Unrecorded(world) && j.command == command && j.runKey == runKey && Replaces(world, j.key)))
    }

    /** The job goes on with the run on record, at the offset on record. */
    ghost predicate OnRecord(j: Job)
      reads this, j
    {
      && j.Sound(world) && j.key in world.disk && j.id == world.disk[j.key].id && j.offset == world.disk[j.key].offset
      && j.done == Over(world.disk[j.key].status) && (j.status == Expired ==> world.disk[j.key].status == Expired)
    }

    /** The run of a request under key, from its record or new. */
    method JobOnRecord(runKey: Option<string>, command: string) returns (found: Option<Job>)
      requires Ready() && fingerprint != "" && FitsKey(world.spelled, KeyOf(runKey, command), runKey)
      modifies this`jobs
      ensures found.None? ==> Ready() && InUse(runKey, command) && jobs == old(jobs)
      ensures found.Some? ==>
        var j := found.value;
        && fresh(j) && Rest(j.key) && Found(j, runKey, command) && jobs == old(jobs)[j.key := j]
        && (if Attachable(world, j.key, runKey.Some?, fingerprint) then OnRecord(j) else j.Unrecorded(world))
      ensures found.Some? ==>
        var key := KeyOf(runKey, command);
        runKey.Some? && key in world.disk ==>
          world.disk[key].commandHash == command && world.disk[key].fingerprint == fingerprint
    {
      hide Inv, Job.Sound, Job.Unrecorded;
      var key := KeyOf(runKey, command);
      if key in registry {
        var rec := registry[key];
        if runKey.Some? && (rec.commandHash != command || rec.runKey != runKey || rec.fingerprint != fingerprint) {
          return None;
        }
        if (rec.fingerprint == "" || rec.fingerprint == fingerprint)
          && (rec.status == Starting || rec.status == Status.Running || rec.status == FinalizePending
              || (rec.status == Done && rec.id !in world.logs)
              || (runKey.Some? && (rec.status == Done || rec.status == Expired))) {
          var j := AttachJob(key, runKey, command);
          return Some(j);
        }
        FailedNotStarted(world, key);
      }
      var j := AddJob(key, runKey, command);
      return Some(j);
    }

    /** jobForRequest: the job to watch, or none when the run key is in use for another command or connection. */
    method JobForRequest(runKey: Option<string>, command: string) returns (life: Life, found: Option<Job>)
      requires Ready() && fingerprint != "" && FitsKey(world.spelled, KeyOf(runKey, command), runKey)
      modifies this`world, this`run, this`registry, this`jobs
      ensures Reached()
      ensures life.Alive? ==> Later(old(world), world)
      ensures life.Alive? && found.None? ==> Ready() && InUse(runKey, command) && jobs == old(jobs)
      ensures life.Alive? && found.Some? ==>
        var j := found.value;
        && Rest(j.key) && Found(j, runKey, command) && jobs == old(jobs)[j.key := j]
        && (if fresh(j) then !Busy(old(jobs), j.key) && !Awaiting(old(jobs), j.key) && (OnRecord(j) || j.Unrecorded(world))
            else j.key in old(jobs) && j == old(jobs)[j.key] && j.Sound(world))
        && (Attachable(world, j.key, runKey.Some?, fingerprint) ==> j.Sound(world) && j.id == world.disk[j.key].id)
      ensures life.Alive? && found.Some? && runKey.Some? && KeyOf(runKey, command) in world.disk ==>
        var key := KeyOf(runKey, command);
        && (Guarded(world.spelled, key) ==> world.disk[key].commandHash == command)
        && (world.disk[key].fingerprint != fingerprint ==> found.value.Sound(world))
      ensures
        && life.Alive? && KeyOf(runKey, command) !in old(jobs)
        && Unheld(old(world), KeyOf(runKey, command), runKey.Some?, old(fingerprint))
        ==> Since(old(world), world, Unsaved) || (found.Some? && found.value.Unrecorded(world))
    {
      hide Inv, Later, Calm, Beside, ContinuesRun, BeginsRun, Savable, Apply, Allowed, Since, Prunable, Retained;
      found := None;
      LaterReflexive(world);
      var key := KeyOf(runKey, command);
      if runKey.Some? {
        var ok :- PruneNow();
        if ok && key in world.disk {
          LaterDisk(old(world), world, key);
        }
      }
      LaterClock(old(world), world);
      if key in jobs {
        var j := jobs[key];
        JobRecord(world, j);
        if runKey.Some? && (j.commandHash != command || j.runKey != runKey || j.fingerprint != fingerprint) {
          return Alive, None;
        }
        if !j.done || j.status == FinalizePending || runKey.Some? {
          assert jobs == jobs[key := j];
          return Alive, Some(j);
        }
      }
      found := JobOnRecord(runKey, command);
      return Alive, found;
    }

    // ----- output of a run

    /** progressJobCommand: the state of a run and the end of its log. */
    method AskProgress(j: Job) returns (life: Life, r: Reply<Observed>)
      requires Rest(j.key) && j.Named(world)
      modifies this`world, this`run, this`registry
      ensures Reached()
      ensures life.Alive? ==> Rest(j.key) && j.Named(world) && Later(old(world), world)
      ensures life.Alive? ==> old(j.Sound(world)) ==> j.Sound(world)
      ensures life.Alive? && r.NoReply? ==> Since(old(world), world, Unanswered)
      ensures r.Reply? && r.value.state == RemoteState.Running ==>
        && j.id in world.procs && IsTail(world, j.id, r.value.tail)
        && Since(old(world), world, Glimpsed(j.id, r.value.tail))
      ensures r.Reply? && r.value.state == Finished ==> Exited(world, j.id) && Since(old(world), world, Ended(j.id))
      ensures r.Reply? && r.value.state == Missing ==>
        Since(old(world), world, Vanished(j.id)) && Vanished(j.id) in world.noted
    {
      hide Inv, Later, Calm, Beside, ContinuesRun, Job.Sound, IsTail, Tail, Since;
      r := NoReply;
      var state :- AskState(j);
      if state.NoReply? {
        return Alive, NoReply;
      }
      var log := if LogThere(world, j.id) then Written(world, j.id) else [];
      if state.value == RemoteState.Running {
        ghost var mid := world;
        TailNow(world, j.id);
        Meet(j, Glimpsed(j.id, Tail(log)));
        MetLater(old(world), mid, world, j.key, j.id, Glimpsed(j.id, Tail(log)));
        LaterFiles(mid, world);
        TailStays(mid, world, j.id, Tail(log));
      }
      return Alive, Reply(Observed(state.value, Tail(log)));
    }

    /** A job for a run on record, unless there is one already: the run stays where it was, or is a job at the offset on
        record. */
    method Enlist(key: Key, rec: Record) returns (j: Job)
      requires Ready() && fingerprint != "" && ContinuesRun(world, key, rec) && Fits(world.spelled, key, rec)
      requires 0 < rec.startedAt * SECOND <= world.now
      requires !Over(rec.status) ==> OnDisk(world.disk, key) == Filed(rec.id, rec.offset) || OnDisk(world.disk, key) == Gone
      requires Busy(jobs, key) ==> jobs[key].id == rec.id
      modifies this`jobs
      ensures Ready() && Current(j) && j.key == key && j.id == rec.id
      ensures jobs == old(jobs)[key := j] && (fresh(j) || j in old(jobs.Values))
      ensures forall k :: k != key ==> At(k) == old(At(k))
      ensures At(key) == old(At(key))
           || (!Over(rec.status) && !old(At(key)).Live? && At(key) == Live(rec.id, rec.offset, rec.offset))
    {
      hide Inv, ContinuesRun, Job.Sound, OnDisk, Reached, Fits;
      if key in jobs && jobs[key].id == rec.id {
        assert jobs == jobs[key := jobs[key]];
        return jobs[key];
      }
      j := Rebuild(world, key, rec, fingerprint);
      jobs := jobs[key := j];
    }

    method Observe(j: Job)
      requires j.Sound(world)
      modifies j`lastSeenAt
      ensures j.Sound(world)
    {
      hide ContinuesRun;
      ghost var before := j.ToRecord();
      j.lastSeenAt := world.now;
      ObservedContinues(world, j.key, before, j.lastSeenAt);
    }

    /** The part of finalizeOutput for a run that goes on. */
    method RetrieveRunning(j: Job, tail: seq<byte>) returns (life: Life, resp: Response)
      requires Rest(j.key) && Current(j) && j.Sound(world)
      requires j.id in world.procs && IsTail(world, j.id, tail)
      modifies this`world, this`run, this`registry, j`lastSeenAt
      ensures Reached()
      ensures life.Alive? ==> Ready() && Quiet(old(world), world)
      ensures life.Alive? ==> resp == InProgress(j.id, tail) && j.id in world.procs && IsTail(world, j.id, tail)
      ensures life.Alive? ==> Elsewhere(old(world), world, j.key) && (j.done ==> NothingLeft(old(world), world, j.key))
      ensures life.Alive? ==> UpToDate(j) || NothingLeft(old(world), world, j.key)
    {
      hide Inv, Later, Calm, Beside, ContinuesRun, Savable, BeginsRun, Job.Sound, IsTail, Elsewhere, NothingLeft,
           Quiet, Onward, Grows;
      SoundDone(j);
      resp := InProgress(j.id, tail);
      Observe(j);
      j.SoundIsSavable(world);
      var ok :- SaveJob(j);
      if !ok {
        LaterLeavesNothing(old(world), world, j.key);
      }
      CalmStarts(old(world), world, j.key);
      TailStays(old(world), world, j.id, tail);
      GrowsHas(old(world).procs, world.procs, j.id);
      CalmElsewhere(old(world), world, j.key);
      return Alive, resp;
    }

    lemma SoundDone(j: Job)
      requires j.Sound(world)
      ensures j.done <==> Over(j.status)
    {
      hide ContinuesRun;
    }

    lemma GrowsHas(procs: Procs, more: Procs, id: RunId)
      requires Grows(procs, more) && id in procs
      ensures id in more
    {
    }

    /** The part of finalizeOutput for a run whose remote files are gone. */
    method RetrieveMissing(j: Job) returns (life: Life, resp: Response)
      requires Rest(j.key) && Current(j) && j.Sound(world) && Vanished(j.id) in world.noted
      modifies this`world, this`run, this`registry, this`jobs, j
      ensures Reached()
      ensures life.Alive? ==> Ready() && Quiet(old(world), world) && Truthful(world, resp)
      ensures life.Alive? ==>
        if old(j.TerminalKnown()) then resp == OutputUnavailable(j.id, old(j.exitCode))
        else
          || (resp == RunExpired(j.id) && GivenUp(world.disk, j.id))
          || (resp == Trouble(j.id) && Since(old(world), world, Unsaved))
      ensures life.Alive? ==> Elsewhere(old(world), world, j.key) && (jobs == old(jobs) || jobs == old(jobs) - {j.key})
      ensures life.Alive? ==> j.done && NothingLeft(old(world), world, j.key)
    {
      hide Inv, Later, Calm, Beside, ContinuesRun, Savable, BeginsRun, Job.Sound, Rest, Ready, Elsewhere, NothingLeft,
           Since, GivenUp;
      resp := Trouble(j.id);
      LaterReflexive(world);
      LaterOnly(world, world, j.key);
      if j.TerminalKnown() {
        SoundExited(j);
        ReadySound(j);
        return Alive, OutputUnavailable(j.id, j.exitCode);
      }
      SoundOver(j);
      var ok :- Expire(j);
      CalmStarts(old(world), world, j.key);
      CalmElsewhere(old(world), world, j.key);
      SoundDone(j);
      NotKnown(j);
      return Alive, if ok then RunExpired(j.id) else Trouble(j.id);
    }

    lemma SoundOver(j: Job)
      requires j.Sound(world)
      ensures j.TerminalKnown() <==> j.ToRecord().Terminal()
    {
      hide ContinuesRun;
    }

    /** The part of finalizeOutput for a run that has exited: a finish time that was known is read again. */
    method RetrieveExited(j: Job, keyed: bool) returns (life: Life, resp: Option<Response>)
      requires Rest(j.key) && Current(j) && j.Sound(world) && j.id !in world.logs
      requires keyed || !Guarded(world.spelled, j.key)
      modifies this`world, this`run, this`registry, this`jobs, j
      ensures Reached()
      ensures life.Alive? ==> Ready() && Quiet(old(world), world)
      ensures life.Alive? && resp.Some? ==> jobs == old(jobs) && ExitTold(old(world), world, j.id, resp.value)
      ensures life.Alive? && resp.None? ==>
        j.id in world.logs && jobs == old(jobs) - {j.key}
      ensures life.Alive? ==> Elsewhere(old(world), world, j.key) && NothingLeft(old(world), world, j.key)
      ensures life.Alive? ==> j.offset == old(j.offset) && (old(j.done) ==> j.done) && (!j.done ==> jobs == old(jobs))
    {
      hide Inv, Later, Calm, Beside, ContinuesRun, Savable, BeginsRun, Job.Sound, Job.ToRecord, RetainedLog.Kept, Tells,
           Ready, Rest, Reached, Quiet, Elsewhere, NothingLeft, Since, ExitTold;
      resp := Some(Trouble(j.id));
      j.SoundIsSavable(world);
      var exit :- ReadExit(j);
      LaterFiles(old(world), world);
      LaterOnly(old(world), world, j.key);
      ReadySound(j);
      if exit.NoReply? || exit.value.None? {
        ExitTroubles(old(world), world, j.id);
        return Alive, Some(Trouble(j.id));
      }
      ghost var mid := world;
      var ok :- RecordExit(j, exit.value.value);
      QuietFacts(mid, world);
      QuietTransitive(old(world), mid, world);
      ElsewhereTransitive(old(world), mid, world, j.key);
      NothingLeftTransitive(old(world), mid, world, j.key);
      ReadySound(j);
      if !ok {
        SinceThen(old(world), mid, world, Unsaved);
        ExitTroubles(old(world), world, j.id);
        return Alive, Some(Trouble(j.id));
      }
      mid := world;
      QuietFacts(old(world), world);
      resp :- FinishRetrieval(j, keyed);
      QuietFacts(mid, world);
      if resp.Some? {
        ExitToldFrom(old(world), mid, world, j.id, resp.value);
      }
      QuietTransitive(old(world), mid, world);
      ElsewhereTransitive(old(world), mid, world, j.key);
      NothingLeftTransitive(old(world), mid, world, j.key);
      return Alive, resp;
    }

    /** What is told of a run whose exit was seen. */
    static ghost predicate ExitTold(w: World, v: World, id: RunId, resp: Response) {
      Tells(w, v, id, resp) || (resp == Trouble(id) && Since(w, v, Unfinished(id)))
    }

    lemma ExitTroubles(w: World, v: World, id: RunId)
      requires Since(w, v, Unanswered) || Since(w, v, Unfinished(id)) || Since(w, v, Unsaved)
      ensures ExitTold(w, v, id, Trouble(id))
    {
      if !Since(w, v, Unfinished(id)) {
        TroubleTold(w, v, id);
      }
    }

    lemma ExitToldFrom(u: World, w: World, v: World, id: RunId, resp: Response)
      requires u.noted <= w.noted <= v.noted && Tells(w, v, id, resp)
      ensures ExitTold(u, v, id, resp)
    {
      TellsFrom(u, w, v, id, resp);
    }

    method RecordExit(j: Job, exit: Exit) returns (life: Life, ok: bool)
      requires Rest(j.key) && Current(j) && j.Sound(world) && j.id !in world.logs
      requires Exited(world, j.id) && world.procs[j.id].exit == Some(exit)
      modifies this`world, this`run, this`registry, j
      ensures Reached()
      ensures life.Alive? ==> Rest(j.key) && Current(j) && j.Sound(world) && j.status == FinalizePending
      ensures life.Alive? ==> Quiet(old(world), world) && Elsewhere(old(world), world, j.key)
      ensures life.Alive? ==> NothingLeft(old(world), world, j.key) && j.done && j.offset == old(j.offset)
      ensures life.Alive? ==>
        j.exitCode == exit.code && (j.finishedAt, j.durationMS) == Timing(old(j.startedAt), old(world).now, exit)
      ensures life.Alive? ==>
        if ok then j.key in world.disk && world.disk[j.key] == j.ToRecord() else Since(old(world), world, Unsaved)
    {
      hide Inv, Later, Calm, Beside, ContinuesRun, Savable, BeginsRun, Job.Sound, Elsewhere, NothingLeft, Since, Timing;
      UnstoredDone(j);
      MarkExited(j, exit, false);
      j.SoundIsSavable(world);
      ok :- SaveJob(j);
      CalmStarts(old(world), world, j.key);
      CalmElsewhere(old(world), world, j.key);
      SoundDone(j);
      return Alive, ok;
    }

    lemma UnstoredDone(j: Job)
      requires Rest(j.key) && j.Sound(world) && j.id !in world.logs
      ensures j.status == Done ==> j.id in world.swept
      ensures Reached()
    {
      hide Inv, ContinuesRun;
      if j.status == Done {
        UnstoredIsSwept(world, j.key, j.ToRecord());
      }
    }

    method FinishRetrieval(j: Job, keyed: bool) returns (life: Life, resp: Option<Response>)
      requires Rest(j.key) && Current(j) && j.Sound(world) && j.status == FinalizePending
      requires j.key in world.disk && world.disk[j.key] == j.ToRecord()
      requires keyed || !Guarded(world.spelled, j.key)
      modifies this`world, this`run, this`registry, this`jobs, j`status
      ensures Reached()
      ensures life.Alive? ==> Ready() && Quiet(old(world), world)
      ensures life.Alive? && resp.Some? ==> Tells(old(world), world, j.id, resp.value) && jobs == old(jobs)
      ensures life.Alive? && resp.None? ==> j.id in world.logs && jobs == old(jobs) - {j.key}
      ensures life.Alive? ==> Elsewhere(old(world), world, j.key) && NothingLeft(old(world), world, j.key)
    {
      hide Inv, Later, Calm, Beside, ContinuesRun, Savable, BeginsRun, Job.Sound, Job.ToRecord, RetainedLog.Kept, Rest,
           Ready, Reached, Quiet, Elsewhere, NothingLeft, Since, Tells;
      resp := Some(Trouble(j.id));
      var r :- FinalizeRunLog(j);
      SoundExited(j);
      ReadySound(j);
      BesideQuiet(old(world), world, j.key, j.id);
      BesideElsewhere(old(world), world, j.key, j.id);
      QuietFacts(old(world), world);
      ghost var mid := world;
      match r
      case LogMissing =>
        UnavailableTold(old(world), world, j.id, j.exitCode);
        return Alive, Some(OutputUnavailable(j.id, j.exitCode));
      case TryAgain =>
        TroubleTold(old(world), world, j.id);
        return Alive, Some(RetryFinalize(j.id));
      case LogKept(_) =>
        var _ :- LetGo(j, keyed);
        QuietTransitive(old(world), mid, world);
        ElsewhereTransitive(old(world), mid, world, j.key);
        NothingLeftTransitive(old(world), mid, world, j.key);
        return Alive, None;
    }

    /** A finished run leaves memory. Its record stays under a run key, and goes otherwise unless the write fails. */
    method LetGo(j: Job, keyed: bool) returns (life: Life, ok: bool)
      requires Rest(j.key) && Current(j) && (keyed || !Guarded(world.spelled, j.key))
      modifies this`world, this`run, this`registry, this`jobs
      ensures Reached()
      ensures life.Alive? ==> Ready() && jobs == old(jobs) - {j.key}
      ensures life.Alive? && keyed ==> world == old(world)
      ensures life.Alive? && !keyed ==>
        if ok then j.key !in world.disk else Later(old(world), world) && Since(old(world), world, Unsaved)
      ensures life.Alive? ==> Elsewhere(old(world), world, j.key) && NothingLeft(old(world), world, j.key)
      ensures life.Alive? ==> Quiet(old(world), world) && world.logs == old(world.logs)
    {
      hide Inv, Calm, Job.Sound, Later, Elsewhere, NothingLeft, Quiet, Since;
      ok := true;
      LaterReflexive(world);
      LaterOnly(world, world, j.key);
      if keyed {
        Release(j);
      } else {
        ok :- Remove(j);
        CalmStarts(old(world), world, j.key);
        CalmElsewhere(old(world), world, j.key);
      }
      return Alive, ok;
    }

    /** finalizeOutput after its job is found; no response means that the log is stored. A job that goes on stays where it
        is; when it is over, nothing unfinished is left of it on record. */
    method Retrieve(j: Job, keyed: bool) returns (life: Life, resp: Option<Response>)
      requires Rest(j.key) && Current(j) && j.Sound(world) && (keyed || !Guarded(world.spelled, j.key))
      modifies this`world, this`run, this`registry, this`jobs, j
      ensures Reached()
      ensures life.Alive? ==> Ready() && Quiet(old(world), world)
      ensures life.Alive? && resp.Some? ==> Tells(old(world), world, j.id, resp.value)
      ensures life.Alive? && resp.None? ==>
        j.id in world.logs && (j.id in old(world).logs || Since(old(world), world, Ended(j.id)))
      ensures life.Alive? ==> Elsewhere(old(world), world, j.key) && (jobs == old(jobs) || jobs == old(jobs) - {j.key})
      ensures life.Alive? && j.done ==> NothingLeft(old(world), world, j.key)
      ensures life.Alive? ==> UpToDate(j) || NothingLeft(old(world), world, j.key)
      ensures life.Alive? && !j.done ==> !old(j.done) && j.offset == old(j.offset) && jobs == old(jobs)
    {
      hide Inv, Later, Calm, Beside, ContinuesRun, Savable, BeginsRun, Job.Sound, Tells, Quiet, Ready, Rest, Reached,
           Elsewhere, NothingLeft, Since, IsTail, Truthful, ExitTold, UpToDate;
      resp := None;
      LaterReflexive(world);
      LaterOnly(world, world, j.key);
      ReadySound(j);
      if j.id in world.logs {
        return Alive, None;
      }
      j.SoundIsSavable(world);
      var seen :- AskProgress(j);
      LaterFiles(old(world), world);
      LaterClock(old(world), world);
      LaterOnly(old(world), world, j.key);
      ghost var mid := world;
      ReadySound(j);
      if seen.NoReply? {
        TroubleTold(old(world), world, j.id);
        return Alive, Some(Trouble(j.id));
      }
      if seen.value.state == RemoteState.Running {
        var r :- RetrieveRunning(j, seen.value.tail);
        QuietFacts(mid, world);
        SinceThen(old(world), mid, world, Glimpsed(j.id, seen.value.tail));
        GlimpseTold(old(world), world, j.id, seen.value.tail);
        resp := Some(r);
      } else if seen.value.state == Missing {
        var r :- RetrieveMissing(j);
        QuietFacts(mid, world);
        MissingTold(old(world), mid, world, j.id, r);
        resp := Some(r);
      } else {
        resp :- RetrieveExited(j, keyed);
        QuietFacts(mid, world);
        SinceThen(old(world), mid, world, Ended(j.id));
        if resp.Some? {
          ExitIsTold(old(world), mid, world, j.id, resp.value);
        }
      }
      QuietTransitive(old(world), mid, world);
      ElsewhereTransitive(old(world), mid, world, j.key);
      NothingLeftThen(old(world), mid, world, j.key);
      return Alive, resp;
    }

    lemma MissingTold(u: World, w: World, v: World, id: RunId, resp: Response)
      requires u.noted <= w.noted <= v.noted && Since(u, w, Vanished(id)) && Truthful(v, resp)
      requires About(resp) == Some(id)
      requires || resp.OutputUnavailable? || (resp.RunExpired? && GivenUp(v.disk, id))
               || (resp.Trouble? && Since(w, v, Unsaved))
      ensures Tells(u, v, id, resp)
    {
      hide Since, Replies, Truthful, GivenUp;
      MissingReplies(u, w, v, id, resp);
      SinceThen(u, w, v, Vanished(id));
    }

    lemma ExitIsTold(u: World, w: World, v: World, id: RunId, resp: Response)
      requires u.noted <= w.noted <= v.noted && Since(u, w, Ended(id)) && ExitTold(w, v, id, resp)
      ensures Tells(u, v, id, resp)
    {
      hide Since, Times, Tells;
      if Tells(w, v, id, resp) {
        TellsFrom(u, w, v, id, resp);
      } else {
        SinceThen(u, w, v, Ended(id));
        SinceThen(u, w, v, Unfinished(id));
        TroubleTold(u, v, id);
      }
    }

    lemma ReadySound(j: Job)
      requires Rest(j.key) && j.Sound(world) && Current(j)
      ensures Ready() && Reached()
    {
      hide Inv, Job.Sound;
    }

    /** finalizeOutput: no response means that the run is unknown or its log is stored. A run of a connection that changed
        is refused. */
    method FinalizeOutput(id: RunId, fp: string, legacy: string) returns (life: Life, resp: Option<Response>)
      requires Ready() && fp != ""
      modifies this`world, this`run, this`registry, this`fingerprint, this`jobs, jobs.Values
      ensures Reached()
      ensures life.Alive? ==> fresh(jobs.Values - old(jobs.Values))
      ensures life.Alive? ==> Ready() && Quiet(old(world), world)
      ensures life.Alive? && resp.Some? ==>
        if GivenUp(old(world).disk, id)
        then resp.value == RunExpired(id) && Truthful(world, resp.value) && GivenUp(world.disk, id)
        else if resp.value == Conflict
        then ChangedRun(old(world).disk, id, fp, legacy) || Lapses(old(world).disk, id, fp, world.now)
        else Tells(old(world), world, id, resp.value)
      ensures life.Alive? && resp.None? && OnFile(old(world).disk, id) ==>
        id in world.logs && (id in old(world).logs || Since(old(world), world, Ended(id)))
      ensures life.Alive? && !OnFile(old(world).disk, id) ==> resp.None? && world == old(world)
      ensures life.Alive? && GivenUp(old(world).disk, id) ==> resp.Some?
      ensures life.Alive? && OnFile(old(world).disk, id) && ChangedRun(old(world).disk, id, fp, legacy) ==>
        resp == Some(Conflict) || resp == Some(Trouble(id))
      ensures life.Alive? ==> fingerprint == old(fingerprint) || fingerprint == fp
      ensures life.Alive? ==> Moves(old(Everywhere()), Everywhere(), None, Dropped(old(fingerprint)), old(world.bound))
    {
      hide Inv, ContinuesRun, Job.Sound, Truthful, Thinned, Tells, Quiet, Reached, PlaceFrom, OnDisk, Moves, Ready,
           Fits, Since,
           ChangedRun, Lapses, At;
      resp := None;
      QuietReflexive(world);
      MovesNothing(Everywhere(), world.bound);
      ReadyReached();
      ReadyPlaces();
      if forall k | k in registry :: registry[k].id != id {
        return Alive, None;
      }
      var key :| key in registry && registry[key].id == id;
      OneKeyOnly(world, key);
      if registry[key].status == Expired {
        ExpiredNotKnown(world, key);
        ExpiredTold(world, id);
        QuietReflexive(world);
        ExpiredUnchanged(world.disk, key, fp, legacy);
        return Alive, Some(RunExpired(id));
      }
      assert !GivenUp(world.disk, id);
      resp :- FinalizeRecorded(key, fp, legacy);
      return Alive, resp;
    }

    /** finalizeOutput for a run on record that is not given up. */
    method FinalizeRecorded(key: Key, fp: string, legacy: string) returns (life: Life, resp: Option<Response>)
      requires Ready() && fp != "" && key in world.disk && world.disk[key].status != Expired
      modifies this`world, this`run, this`registry, this`fingerprint, this`jobs, jobs.Values
      ensures Reached()
      ensures life.Alive? ==> fresh(jobs.Values - old(jobs.Values))
      ensures life.Alive? ==> Ready() && Quiet(old(world), world)
      ensures life.Alive? && resp.Some? ==>
        if resp.value == Conflict
        then ChangedRun(old(world).disk, old(world).disk[key].id, fp, legacy)
          || Lapses(old(world).disk, old(world).disk[key].id, fp, world.now)
        else Tells(old(world), world, old(world).disk[key].id, resp.value)
      ensures life.Alive? && resp.None? ==>
        var id := old(world).disk[key].id;
        id in world.logs && (id in old(world).logs || Since(old(world), world, Ended(id)))
      ensures life.Alive? && ChangedRun(old(world).disk, old(world).disk[key].id, fp, legacy) ==>
        resp == Some(Conflict) || resp == Some(Trouble(old(world).disk[key].id))
      ensures life.Alive? ==> fingerprint == old(fingerprint) || fingerprint == fp
      ensures life.Alive? ==> Moves(old(Everywhere()), Everywhere(), None, Dropped(old(fingerprint)), old(world.bound))
    {
      hide Inv, ContinuesRun, Job.Sound, Thinned, Tells, Quiet, Reached, PlaceFrom, OnDisk, Moves, Ready, Fits, Since,
           ChangedRun, Lapses, At, GivenUp, Over;
      ghost var id := world.disk[key].id;
      var rec;
      rec, resp :- ReadRecord(key, fp, legacy);
      if resp.Some? {
        return Alive, resp;
      }
      ghost var mid := world;
      resp :- Reopen(key, rec, fp);
      QuietFacts(old(world), mid);
      QuietFacts(mid, world);
      QuietTransitive(old(world), mid, world);
      if resp.Some? {
        TellsFrom(old(world), mid, world, id, resp.value);
      } else if id !in old(world).logs {
        SinceThen(old(world), mid, world, Ended(id));
      }
      return Alive, resp;
    }

    /** The record of a run, read anew when the fingerprints are migrated; an answer when it cannot be read or is of another
        fingerprint. */
    method ReadRecord(key: Key, fp: string, legacy: string) returns (life: Life, rec: Record, resp: Option<Response>)
      requires Ready() && fp != "" && key in world.disk && world.disk[key].status != Expired
      modifies this`world, this`run, this`registry
      ensures Reached()
      ensures life.Alive? ==> Ready() && Quiet(old(world), world) && Everywhere() == old(Everywhere())
      ensures life.Alive? ==> world.bound == old(world).bound && world.logs == old(world).logs
      ensures life.Alive? && resp.Some? ==>
        var id := old(world).disk[key].id;
        if resp.value == Conflict
        then ChangedRun(old(world).disk, id, fp, legacy) || Lapses(old(world).disk, id, fp, world.now)
        else resp.value == Trouble(id) && Tells(old(world), world, id, resp.value)
      ensures life.Alive? ==> Moves(old(Everywhere()), Everywhere(), None, false, old(world).bound)
      ensures life.Alive? && resp.None? ==>
        && rec.id == old(world).disk[key].id && !ChangedRun(old(world).disk, rec.id, fp, legacy)
        && ContinuesRun(world, key, rec) && Fits(world.spelled, key, rec) && 0 < rec.startedAt * SECOND <= world.now
        && (!Over(rec.status) ==> OnDisk(world.disk, key) == Filed(rec.id, rec.offset))
        && (Busy(jobs, key) ==> jobs[key].id == rec.id)
    {
      hide Inv, ContinuesRun, Job.Sound, Thinned, Tells, Quiet, Reached, PlaceFrom, OnDisk, Moves, Ready, Fits, Since,
           ChangedRun, Lapses, At, Over, Later;
      ReadyReached();
      ReadyPlaces();
      rec := registry[key];
      var id := rec.id;
      MovesNothing(Everywhere(), world.bound);
      OneKeyOnly(world, key);
      if * {
        // the saved connection is gone or cannot be read
        MeetReady(Unread);
        LaterOnly(old(world), world, key);
        TroubleTold(old(world), world, id);
        return Alive, rec, Some(Trouble(id));
      }
      resp := Some(Trouble(id));
      var ok;
      rec, ok :- Reread(key, fp, legacy);
      if !ok {
        TroubleTold(old(world), world, id);
        return Alive, rec, Some(Trouble(id));
      }
      if rec.fingerprint != "" && rec.fingerprint != fp {
        RefusedRun(old(world).disk, key, rec, fp, legacy, world.now);
        return Alive, rec, Some(Conflict);
      }
      NotChanged(old(world).disk, key, rec, fp, legacy);
      return Alive, rec, None;
    }

    /** The part of finalizeOutput after the record is read: no response means that the log is stored. */
    method Reopen(key: Key, rec: Record, fp: string) returns (life: Life, resp: Option<Response>)
      requires Ready() && fp != "" && ContinuesRun(world, key, rec) && Fits(world.spelled, key, rec)
      requires 0 < rec.startedAt * SECOND <= world.now
      requires !Over(rec.status) ==> OnDisk(world.disk, key) == Filed(rec.id, rec.offset)
      requires Busy(jobs, key) ==> jobs[key].id == rec.id
      modifies this`world, this`run, this`registry, this`fingerprint, this`jobs, jobs.Values
      ensures Reached()
      ensures life.Alive? ==> fresh(jobs.Values - old(jobs.Values))
      ensures life.Alive? ==> Ready() && Quiet(old(world), world)
      ensures life.Alive? && resp.Some? ==> Tells(old(world), world, rec.id, resp.value)
      ensures life.Alive? && resp.None? ==>
        rec.id in world.logs && (rec.id in old(world).logs || Since(old(world), world, Ended(rec.id)))
      ensures life.Alive? ==> fingerprint == old(fingerprint) || fingerprint == fp
      ensures life.Alive? ==> Moves(old(Everywhere()), Everywhere(), None, Dropped(old(fingerprint)), old(world.bound))
    {
      hide Inv, ContinuesRun, Job.Sound, Tells, Ready, Quiet, Reached, Moves, Opened, OnDisk, At, Fits, Since;
      resp := None;
      ReadyPlaces();
      :- Open(key, rec, fp);
      var j := jobs[key];
      ghost var mid, enlisted := world, Everywhere();
      ghost var dropped := Dropped(old(fingerprint));
      resp :- RetrievePlace(j, rec.runKey.Some?);
      QuietFacts(old(world), mid);
      QuietFacts(mid, world);
      QuietTransitive(old(world), mid, world);
      if resp.Some? {
        TellsFrom(old(world), mid, world, rec.id, resp.value);
      } else if rec.id !in old(world).logs {
        SinceThen(old(world), mid, world, Ended(rec.id));
      }
      OpenedThenMoves(old(Everywhere()), enlisted, Everywhere(), key, rec, dropped, old(world.bound));
      return Alive, resp;
    }

    /** The entry is prepared, and the run on record gets its job. */
    method Open(key: Key, rec: Record, fp: string) returns (life: Life)
      requires Ready() && fp != "" && ContinuesRun(world, key, rec) && Fits(world.spelled, key, rec)
      requires 0 < rec.startedAt * SECOND <= world.now
      requires !Over(rec.status) ==> OnDisk(world.disk, key) == Filed(rec.id, rec.offset)
      requires Busy(jobs, key) ==> jobs[key].id == rec.id
      modifies this`world, this`run, this`registry, this`fingerprint, this`jobs
      ensures Reached()
      ensures life.Alive? ==> Ready() && Quiet(old(world), world)
      ensures life.Alive? ==> world.bound == old(world).bound && world.logs == old(world).logs
      ensures life.Alive? ==>
        && key in jobs && jobs[key].key == key && Current(jobs[key]) && jobs[key].id == rec.id
        && (rec.runKey.Some? || !Guarded(world.spelled, key))
      ensures life.Alive? ==> fresh(jobs.Values - old(jobs.Values))
      ensures life.Alive? ==> fingerprint == fp
      ensures life.Alive? ==> Opened(old(Everywhere()), Everywhere(), key, rec, Dropped(old(fingerprint)))
    {
      hide Inv, ContinuesRun, Job.Sound, Thinned, Ready, Quiet, Reached, Shrinks, Opened, Loaded, OnDisk, At, PlaceFrom, Has,
           Grows, Onward, Later;
      OnRecordPlace(key, rec);
      :- PrepareFor(key, rec, fp);
      ghost var loaded := Everywhere();
      var j := Enlist(key, rec);
      LoadedThenEnlisted(old(Everywhere()), loaded, Everywhere(), key, rec, Dropped(old(fingerprint)));
      return Alive;
    }

    /** The entry is prepared, and the record may still be gone on with. */
    method PrepareFor(key: Key, rec: Record, fp: string) returns (life: Life)
      requires Ready() && fp != "" && ContinuesRun(world, key, rec) && Fits(world.spelled, key, rec)
      requires !Over(rec.status) ==> OnDisk(world.disk, key) == Filed(rec.id, rec.offset)
      modifies this`world, this`run, this`registry, this`fingerprint, this`jobs
      ensures Reached()
      ensures life.Alive? ==> Ready() && Quiet(old(world), world) && fingerprint == fp
      ensures life.Alive? ==> world.bound == old(world).bound && world.logs == old(world).logs
      ensures life.Alive? ==>
        ContinuesRun(world, key, rec) && Fits(world.spelled, key, rec) && old(world).now <= world.now
      ensures life.Alive? ==> jobs == old(jobs) || jobs == map[]
      ensures life.Alive? && !Over(rec.status) ==>
        OnDisk(world.disk, key) == Filed(rec.id, rec.offset) || OnDisk(world.disk, key) == Gone
      ensures life.Alive? ==> Loaded(old(Everywhere()), Everywhere(), Dropped(old(fingerprint)))
    {
      hide Inv, ContinuesRun, Job.Sound, Thinned, Ready, Quiet, Reached, Shrinks, Loaded, OnDisk, At, PlaceFrom, Over;
      var _ :- Prepare(fp);
      ThinnedRecord(old(world), world, key);
      ThinnedKeepsRecord(old(world), world, key, rec);
      return Alive;
    }

    lemma OnRecordPlace(key: Key, rec: Record)
      requires !Over(rec.status) ==> OnDisk(world.disk, key) == Filed(rec.id, rec.offset)
      requires Busy(jobs, key) ==> jobs[key].id == rec.id
      ensures !Over(rec.status) ==> Has(At(key), rec.id) && At(key).saved == rec.offset
    {
    }

    /** A job that goes on stays where it is, or ends where its record was. */
    method RetrievePlace(j: Job, keyed: bool) returns (life: Life, resp: Option<Response>)
      requires Ready() && Current(j) && (keyed || !Guarded(world.spelled, j.key))
      modifies this`world, this`run, this`registry, this`jobs, j
      ensures Reached()
      ensures life.Alive? ==> Ready() && Quiet(old(world), world)
      ensures life.Alive? && resp.Some? ==> Tells(old(world), world, j.id, resp.value)
      ensures life.Alive? && resp.None? ==>
        j.id in world.logs && (j.id in old(world).logs || Since(old(world), world, Ended(j.id)))
      ensures life.Alive? ==> jobs == old(jobs) || jobs == old(jobs) - {j.key}
      ensures life.Alive? ==> Moves(old(Everywhere()), Everywhere(), None, false, old(world.bound))
    {
      hide Inv, ContinuesRun, Job.Sound, Tells, Quiet, Reached, OnDisk, Elsewhere, NothingLeft, Moved, PlaceFrom,
           Since, UpToDate, Ready, Tells;
      resp := None;
      ReadyPlaces();
      ReadyJob(j);
      resp :- Retrieve(j, keyed);
      ReadyPlaces();
      PlacesElsewhere(old(world), world, j.key);
      if UpToDate(j) {
        UpToDatePlace(j);
      }
      if j.done || !UpToDate(j) {
        NothingLeftPlace(old(world), world, j.key);
      }
      StaysElsewhere(j.key);
      forall k: Key ensures Moved(old(At(k)), At(k), None, false, old(world.bound)) {
        if k != j.key {
          PlaceStays(At(k), None, old(world.bound));
        } else {
          PlaceMoves(true, old(Busy(jobs, j.key)), j.id, old(j.offset), old(world).disk, Busy(jobs, j.key), j.offset,
                     world.disk, j.key, None, old(world.bound));
        }
      }
      return Alive, resp;
    }

    lemma ReadyJob(j: Job)
      requires Ready() && Current(j)
      ensures Rest(j.key) && j.Sound(world) && Reached()
    {
      hide Inv, Job.Sound;
    }

    /** The fingerprints are migrated and the record is read again, if it is still there. */
    method Reread(key: Key, fp: string, legacy: string) returns (life: Life, rec: Record, ok: bool)
      requires Ready() && key in world.disk
      modifies this`world, this`run, this`registry
      ensures Reached()
      ensures life.Alive? ==> Ready() && Quiet(old(world), world)
      ensures life.Alive? ==> world.bound == old(world).bound && world.logs == old(world).logs
      ensures life.Alive? ==> Everywhere() == old(Everywhere())
      ensures life.Alive? ==> rec.id == old(world).disk[key].id && rec.offset == old(world).disk[key].offset
      ensures life.Alive? && !ok ==> Failing(old(world), world)
      ensures life.Alive? && ok ==>
        || rec == Rebound(old(world).disk[key], fp, legacy)
        || (rec == old(world).disk[key] && Prunable(rec, world.now))
      ensures life.Alive? ==> ContinuesRun(world, key, rec) && Fits(world.spelled, key, rec)
      ensures life.Alive? ==> 0 < rec.startedAt * SECOND <= world.now
      ensures life.Alive? && !Over(rec.status) ==> OnDisk(world.disk, key) == Filed(rec.id, rec.offset)
    {
      hide Inv, ContinuesRun, Job.Sound, Thinned;
      rec := registry[key];
      RecordContinues(world, key);
      OneKey(world, key);
      ok := false;
      ok :- Migrate(fp, legacy);
      ThinnedRecord(old(world), world, key);
      ThinnedKeepsRecord(old(world), world, key, rec);
      assert OnDisk(world.disk, key) == OnDisk(old(world).disk, key);
      if key in registry {
        rec := registry[key];
        RecordContinues(world, key);
        OneKey(world, key);
      }
      return Alive, rec, ok;
    }

    lemma ReachedFacts()
      requires Reached()
      ensures Playable(EMPTY, run) && Play(EMPTY, run) == world && Inv(world) && mark <= run && world.spelled <= heard
    {
    }

    lemma ReadyReached()
      requires Ready()
      ensures Reached() && Inv(world) && registry == world.disk
    {
      hide Inv, Job.Sound;
    }

    /** The part of output for a log that is stored. Without metadata the answer has the status 0: it is the command's if and
        only if the metadata is there or the command exited with 0. */
    method ReadStored(id: RunId) returns (resp: Response)
      requires Reached() && id in world.logs
      ensures Truthful(world, resp) && resp.Retrieved? && resp.id == id && Exited(world, id)
      ensures resp.exitCode == world.procs[id].exit.value.code <==>
              id in world.metas || world.procs[id].exit.value.code == 0
    {
      hide Inv, RetainedLog.Kept;
      StoredFiles(world, id);
      resp := Retrieved(id, world.logs[id].content, ToldStatus(world, id));
    }

    /** output: a stored log is told; an unknown run, a run that was given up and one of another fingerprint are told as such;
        and any other run is told as it was seen, or else the failure that was met with. */
    method Output(id: RunId, fp: string, legacy: string) returns (life: Life, resp: Response)
      requires Ready() && fp != ""
      modifies this`world, this`run, this`registry, this`fingerprint, this`jobs, jobs.Values
      ensures Reached()
      ensures life.Alive? ==> fresh(jobs.Values - old(jobs.Values))
      ensures life.Alive? ==> Ready() && Quiet(old(world), world) && OutputDone(old(world), world, id, fp, legacy, resp)
      ensures life.Alive? && resp.Retrieved? ==>
        && Exited(world, id)
        && (resp.exitCode == world.procs[id].exit.value.code <==> id in world.metas || world.procs[id].exit.value.code == 0)
      ensures life.Alive? ==> fingerprint == old(fingerprint) || fingerprint == fp
      ensures life.Alive? ==> Moves(old(Everywhere()), Everywhere(), None, Dropped(old(fingerprint)), old(world.bound))
    {
      hide Inv, Truthful, Moves, PlaceFrom, OnDisk, OutputDone, Since, At, Tells, GivenUp, ChangedRun, OnFile,
           Lapses;
      resp := Trouble(id);
      QuietReflexive(world);
      MovesNothing(Everywhere(), world.bound);
      if * {
        // the file is there and cannot be read
        MeetReady(Unread);
        LaterOnly(old(world), world, Keyed(""));
        MovesNothing(Everywhere(), old(world).bound);
        TroubleTold(old(world), world, id);
        AnswerIsDone(old(world), world, id, fp, legacy, resp);
        return Alive, Trouble(id);
      }
      if id in world.logs {
        resp := ReadStored(id);
        RetrievedIsDone(old(world), world, id, fp, legacy, resp);
        return Alive, resp;
      }
      var answer :- FinalizeOutput(id, fp, legacy);
      if answer.Some? {
        AnswerIsDone(old(world), world, id, fp, legacy, answer.value);
        return Alive, answer.value;
      }
      if id in world.logs {
        resp := ReadStored(id);
        RetrievedIsDone(old(world), world, id, fp, legacy, resp);
        return Alive, resp;
      }
      UnknownIsDone(world, id, fp, legacy);
      return Alive, UnknownRun(id);
    }

    // ----- exec

    /** The end of exec. A run that is over leaves memory; its record stays when it is done under a run key, or has expired,
        and otherwise goes unless the write fails. */
    method AfterWatch(j: Job, keyed: bool, resp: Response) returns (life: Life, ok: bool)
      requires Settled(j) && (resp.Completed? <==> j.status == Done) && (resp.StillRunning? ==> j.Sound(world))
      requires resp.RunExpired? ==> j.status == Expired && GivenUp(world.disk, resp.id)
      requires resp.RunLost? ==> j.status == Failed
      requires if keyed then j.runKey.Some? else !Guarded(world.spelled, j.key)
      modifies this`world, this`run, this`registry, this`jobs
      ensures Reached()
      ensures life.Alive? ==> Ready() && Calm(old(world), world, j.key) && NothingLeft(old(world), world, j.key)
      ensures life.Alive? ==> jobs == if LeavesMemory(j, keyed, resp) then old(jobs) - {j.key} else old(jobs)
      ensures life.Alive? && LeavesRecord(j, keyed, resp) ==>
        if ok then j.key !in world.disk else Later(old(world), world) && Since(old(world), world, Unsaved)
      ensures life.Alive? ==> Left(old(world), j.key, keyed, resp)
      ensures life.Alive? && !LeavesRecord(j, keyed, resp) ==> world == old(world)
    {
      hide Inv, Calm, Job.Sound, ContinuesRun, Later, Since, GivenUp;
      ok := true;
      CalmReflexive(world, j.key);
      SettledCases(j);
      if keyed && j.status == Expired {
        Release(j);
        return Alive, true;
      }
      if !resp.StillRunning? && (resp.Completed? || j.status == Failed) {
        if keyed && resp.Completed? && j.status != Failed {
          Release(j);
        } else {
          ok :- Remove(j);
        }
      }
      return Alive, ok;
    }

    predicate LeavesRecord(j: Job, keyed: bool, resp: Response)
      reads j
    {
      !resp.StillRunning? && (j.status == Failed || (!keyed && resp.Completed?))
    }

    predicate LeavesMemory(j: Job, keyed: bool, resp: Response)
      reads j
    {
      (keyed && j.status == Expired) || (!resp.StillRunning? && (resp.Completed? || j.status == Failed))
    }

    lemma SettledCases(j: Job)
      requires Settled(j)
      ensures j.runKey.Some? && j.status == Failed && j.key in world.disk ==>
        world.disk[j.key].id !in world.starts || !Guarded(world.spelled, j.key)
      ensures !Current(j) ==> j.key !in jobs
    {
      hide Inv, ContinuesRun;
      if j.Sound(world) && j.runKey.Some? && j.status == Failed {
        ReplacedNotStarted(world, j.key, j.ToRecord());
      }
    }

    /** exec for a run that is started: watch it, and let it go when it is over. */
    method WatchStarted(j: Job, keyed: bool, polls: nat) returns (life: Life, resp: Response)
      requires Rest(j.key) && Current(j) && Watchable(j)
      requires if keyed then j.runKey.Some? else !Guarded(world.spelled, j.key)
      modifies this`world, this`run, this`registry, this`jobs, j
      ensures Reached()
      ensures life.Alive? ==> Ready() && Quiet(old(world), world) && Replies(old(world), world, polls, j.id, resp)
      ensures life.Alive? && resp.Completed? ==> resp.id == j.id
      ensures life.Alive? ==> Left(old(world), j.key, keyed, resp)
      ensures life.Alive? ==> Watched(resp)
      ensures life.Alive? && resp.StillRunning? ==>
        && resp.id == j.id && resp.from == old(j.offset) && j.offset == resp.from + |resp.delta|
        && Current(j) && !j.done && !old(j.done) && jobs == old(jobs)
      ensures life.Alive? ==> Elsewhere(old(world), world, j.key) && (jobs == old(jobs) || jobs == old(jobs) - {j.key})
      ensures life.Alive? && !(resp.StillRunning? && UpToDate(j)) ==> NothingLeft(old(world), world, j.key)
      ensures life.Alive? && resp.StillRunning? && !UpToDate(j) ==> Since(old(world), world, Unsaved)
      ensures life.Alive? && !resp.StillRunning? && !j.done ==> !old(j.done) && j.offset == old(j.offset)
    {
      hide Inv, Later, Calm, Beside, ContinuesRun, Job.Sound, Truthful, Rest, Watchable, Settled, Reached, IsDelta, Ready,
           Quiet, Elsewhere, NothingLeft, Replies, Grounded, Since, Tells, Watched, GivenUp, Left;
      resp := Trouble(j.id);
      OffsetFits(j);
      ghost var ended;
      resp, ended :- WatchJob(j, polls);
      ghost var mid, saved := world, UpToDate(j);
      QuietFacts(old(world), world);
      if resp.StillRunning? {
        SoundDone(j);
      }
      RepliesAbout(old(world), world, polls, j.id, resp);
      var _ :- AfterWatch(j, keyed, resp);
      CalmStarts(mid, world, j.key);
      LeftThen(old(world), mid, j.key, keyed, resp);
      CalmElsewhere(mid, world, j.key);
      QuietTransitive(old(world), mid, world);
      ElsewhereTransitive(old(world), mid, world, j.key);
      if !(resp.StillRunning? && saved) {
        NothingLeftTransitive(old(world), mid, world, j.key);
      }
      assert (old(jobs) - {j.key}) - {j.key} == old(jobs) - {j.key};
      RepliesCalm(old(world), mid, world, j.key, polls, j.id, resp);
      return Alive, resp;
    }

    lemma OffsetFits(j: Job)
      requires Watchable(j)
      ensures j.offset <= |Written(world, j.id)|
    {
    }

    /** exec after its job is found. */
    method RunJob(j: Job, runKey: Option<string>, command: string, legacy: string, polls: nat)
      returns (life: Life, resp: Response)
      requires Rest(j.key) && Found(j, runKey, command) && FitsKey(world.spelled, j.key, runKey)
      requires fingerprint != ""
      modifies this`world, this`run, this`registry, this`fingerprint, this`jobs, jobs.Values
      ensures Reached()
      ensures life.Alive? ==> Ready() && Truthful(world, resp) && fresh(jobs.Values - old(jobs.Values))
      ensures life.Alive? ==>
        if resp == Conflict
        then runKey.Some? && old(j.Sound(world)) && OtherHost(old(world), j.key, old(fingerprint))
        else Replies(old(world), world, polls, j.id, resp)
      ensures life.Alive? && Outputs(resp) ==> old(Exited(world, j.id))
      ensures life.Alive? && resp.UnknownRun? ==> !OnFile(old(world).disk, j.id)
      ensures life.Alive? && (resp.StartUncertain? || resp.StartFailed?) ==> !old(j.Sound(world))
      ensures life.Alive? ==> Onward(old(world), world)
      ensures life.Alive? ==> fingerprint == old(fingerprint)
      ensures life.Alive? ==>
        Sends(old(world), world, old(j.Sound(world)) || resp.StartFailed?, j.id, Start(command, old(fingerprint)))
      ensures life.Alive? && !old(j.Sound(world)) ==>
        j.id !in old(world.bound) && (resp.StartFailed? || resp.StartUncertain? || j.id in world.procs)
      ensures life.Alive? ==>
        || Left(old(world), j.key, runKey.Some?, resp)
        || (resp == RunExpired(j.id) && old(j.status) == Expired && world == old(world))
      ensures life.Alive? && (resp.Completed? || resp.StillRunning?) && (runKey.Some? || j.key.Unkeyed?) ==>
        resp.id in world.procs && world.procs[resp.id].start.command == command
      ensures life.Alive? && resp.StillRunning? ==>
        && At(j.key).Live? && At(j.key).id == resp.id
        && (At(j.key).saved == At(j.key).offset || Since(old(world), world, Unsaved))
      ensures life.Alive? ==> Moves(old(Entering(j)), Everywhere(), ToldBy(resp), false, old(world.bound))
    {
      hide Inv, Later, Calm, Beside, ContinuesRun, Job.Sound, Truthful, Reached, IsDelta, Ready, Job.Unrecorded, Onward,
           OnDisk, At, Quiet, Moved, OutputDone, Replies, OnFile, ChangedRun, Lapses, OtherHost, Since, Moves,
           EnteringAt, Left;
      MovesNothing(Everywhere(), world.bound);
      UnrecordedIsNew(j);
      QuietReflexive(world);
      QuietFacts(world, world);
      if runKey.Some? && j.status == Expired {
        ExpiredAnswer(j, polls);
        EnteringSound(j);
        return Alive, RunExpired(j.id);
      }
      if runKey.Some? && j.status == Done {
        DoneReady(j);
        ghost var fp := fingerprint;
        SoundExited(j);
        ReadyReached();
        SoundNamed(j);
        EnteringSound(j);
        resp :- Output(j.id, fingerprint, legacy);
        QuietFacts(old(world), world);
        LeftByOutput(old(world), j.key, j.id, fp, legacy, resp);
        OutputReplies(old(world), world, j.id, fp, legacy, polls, resp);
        if resp == Conflict {
          ConflictIsOtherHost(old(world), j.key, j.id, fp, legacy, world.now);
        }
        return Alive, resp;
      }
      resp :- StartPlace(j, runKey, command, polls);
      RepliesAbout(old(world), world, polls, j.id, resp);
      return Alive, resp;
    }

    lemma LeftByOutput(w: World, key: Key, id: RunId, fp: string, legacy: string, resp: Response)
      requires OutputDone(w, world, id, fp, legacy, resp)
      ensures Left(w, key, true, resp)
    {
      hide Truthful, ChangedRun, OnFile, Lapses;
    }

    lemma SoundNamed(j: Job)
      requires j.Sound(world)
      ensures j.id in world.bound && world.bound[j.id] == j.key
    {
      RecordBound(world, j.key, j.ToRecord());
    }

    lemma ExpiredAnswer(j: Job, polls: nat)
      requires Rest(j.key) && Current(j) && j.status == Expired && (j.Sound(world) || j.Unrecorded(world))
      ensures Ready() && Reached() && Truthful(world, RunExpired(j.id)) && j.Sound(world)
      ensures Replies(world, world, polls, j.id, RunExpired(j.id))
    {
      hide Inv, ContinuesRun;
      NotKnown(j);
      ExpiredSeen(j);
    }

    lemma ExpiredSeen(j: Job)
      requires j.Sound(world) && j.status == Expired
      ensures Vanished(j.id) in world.noted
    {
    }

    lemma DoneReady(j: Job)
      requires Rest(j.key) && Current(j) && j.status == Done && (j.Sound(world) || j.Unrecorded(world))
      ensures Ready() && j.Sound(world)
    {
      hide Inv, ContinuesRun;
    }

    /** Starting and watching moves only the run of j. */
    method StartPlace(j: Job, runKey: Option<string>, command: string, polls: nat) returns (life: Life, resp: Response)
      requires Rest(j.key) && Found(j, runKey, command) && FitsKey(world.spelled, j.key, runKey)
      requires j.Sound(world) && runKey.Some? ==> j.status != Done && j.status != Expired
      modifies this`world, this`run, this`registry, this`jobs, j
      ensures Reached()
      ensures life.Alive? ==> Ready() && (jobs == old(jobs) || jobs == old(jobs) - {j.key})
      ensures life.Alive? ==> Replies(old(world), world, polls, j.id, resp) && Truthful(world, resp) && !Outputs(resp)
      ensures life.Alive? && (resp.StartUncertain? || resp.StartFailed?) ==> !old(j.Sound(world))
      ensures life.Alive? ==> Onward(old(world), world)
      ensures life.Alive? ==>
        Sends(old(world), world, old(j.Sound(world)) || resp.StartFailed?, j.id, Start(command, old(fingerprint)))
      ensures life.Alive? && !old(j.Sound(world)) ==>
        j.id !in old(world.bound) && (resp.StartFailed? || resp.StartUncertain? || j.id in world.procs)
      ensures life.Alive? ==> Left(old(world), j.key, runKey.Some?, resp)
      ensures life.Alive? && (resp.Completed? || resp.StillRunning?) && (runKey.Some? || j.key.Unkeyed?) ==>
        resp.id in world.procs && world.procs[resp.id].start.command == command
      ensures life.Alive? && resp.StillRunning? ==>
        && At(j.key).Live? && At(j.key).id == resp.id
        && (At(j.key).saved == At(j.key).offset || Since(old(world), world, Unsaved))
      ensures life.Alive? ==> Moves(old(Entering(j)), Everywhere(), ToldBy(resp), false, old(world.bound))
    {
      hide Inv, ContinuesRun, Job.Sound, Job.Unrecorded, Truthful, Reached, OnDisk, Elsewhere, NothingLeft, Onward, OnlyNew,
           FitsKey, Ready, Moved, PlaceFrom, Replies, UpToDate, Since, Grows, Left;
      RestPlaces(j);
      UnrecordedIsNew(j);
      resp :- StartAndWatch(j, runKey, command, polls);
      ReadyPlaces();
      PlacesElsewhere(old(world), world, j.key);
      if resp.StillRunning? && UpToDate(j) {
        UpToDatePlace(j);
      } else if old(j.Sound(world)) {
        NothingLeftPlace(old(world), world, j.key);
      } else {
        OnlyNewPlace(old(world).disk, world.disk, j.key, j.id);
      }
      StaysElsewhere(j.key);
      assert Busy(jobs, j.key) ==> At(j.key).id == j.id;
      forall k: Key ensures Moved(old(EnteringAt(j, k)), At(k), ToldBy(resp), false, old(world.bound)) {
        if k != j.key {
          PlaceStays(At(k), ToldBy(resp), old(world.bound));
        } else {
          PlaceMoves(old(j.Sound(world)), old(Busy(jobs, j.key)), j.id, old(j.offset), old(world).disk, Busy(jobs, j.key),
                     j.offset, world.disk, j.key, ToldBy(resp), old(world.bound));
        }
      }
      MovesFrom(old(Entering(j)), Everywhere(), ToldBy(resp), old(world.bound));
      return Alive, resp;
    }

    lemma UpToDatePlace(j: Job)
      requires UpToDate(j)
      ensures OnDisk(world.disk, j.key).Filed? ==> OnDisk(world.disk, j.key).saved == j.offset
      ensures PlaceFrom(Some((j.id, j.offset)), world.disk, j.key) == Live(j.id, j.offset, j.offset)
    {
    }

    lemma RestPlaces(j: Job)
      requires Rest(j.key) && Current(j) && (j.Sound(world) || j.Unrecorded(world))
      ensures forall k :: Busy(jobs, k) && OnDisk(world.disk, k).Filed? && (k == j.key ==> j.Sound(world)) ==>
        OnDisk(world.disk, k).id == jobs[k].id
      ensures forall k :: OnDisk(world.disk, k).Filed? ==> OnDisk(world.disk, k).id in world.bound
    {
      hide Inv;
      forall k | OnDisk(world.disk, k).Filed? ensures OnDisk(world.disk, k).id in world.bound {
        OneKey(world, k);
      }
    }

    /** exec until its run is started; an answer when it is not, or may not be. */
    method StartUp(j: Job, runKey: Option<string>, command: string, polls: nat)
      returns (life: Life, answer: Option<Response>)
      requires Rest(j.key) && Found(j, runKey, command) && FitsKey(world.spelled, j.key, runKey)
      requires j.Sound(world) && runKey.Some? ==> j.status != Done && j.status != Expired
      modifies this`world, this`run, this`registry, this`jobs, j
      ensures Reached()
      ensures life.Alive? ==> Onward(old(world), world) && Elsewhere(old(world), world, j.key)
      ensures life.Alive? ==> jobs == old(jobs) || (answer.Some? && jobs == old(jobs) - {j.key})
      ensures life.Alive? && old(j.Sound(world)) ==>
        answer.None? && world == old(world) && j.done == old(j.done) && j.status == old(j.status)
      ensures life.Alive? ==>
        Sends(old(world), world, old(j.Sound(world)) || answer == Some(StartFailed(j.id)), j.id,
              Start(command, old(fingerprint)))
      ensures life.Alive? && !old(j.Sound(world)) ==> j.id !in old(world.bound)
      ensures life.Alive? && answer.Some? ==>
        && Ready() && Replies(old(world), world, polls, j.id, answer.value) && Truthful(world, answer.value)
        && (answer.value == StartUncertain(j.id) || answer.value == StartFailed(j.id))
        && OnlyNew(old(world).disk, world.disk, j.key, j.id)
        && (Busy(jobs, j.key) ==> jobs == old(jobs) && j.offset == old(j.offset) && !old(j.done))
      ensures life.Alive? && answer.None? ==>
        && (old(j.Sound(world)) || j.id in world.procs)
        && Rest(j.key) && Current(j) && Watchable(j) && j.offset == old(j.offset) && (j.done ==> old(j.done))
        && (runKey.Some? ==> j.runKey.Some?) && (runKey.None? ==> !Guarded(world.spelled, j.key))
        && ((runKey.Some? || j.key.Unkeyed?) && j.id in world.starts ==> world.starts[j.id].command == command)
        && (j.key in world.disk ==> world.disk[j.key].id == j.id && world.disk[j.key].offset <= j.offset)
    {
      hide Inv, Later, Calm, Beside, ContinuesRun, Job.Sound, Truthful, Rest, Reached, IsDelta, Ready, Job.Unrecorded,
           Onward, Elsewhere, NothingLeft, OnlyNew, Quiet, Found, Grows, Since, Replies;
      answer := Some(StartFailed(j.id));
      FoundFacts(j, runKey, command);
      var r :- EnsureStarted(j);
      BesideOnward(old(world), world, j.key, j.id);
      BesideElsewhere(old(world), world, j.key, j.id);
      OnwardFacts(old(world), world);
      ghost var mid := world;
      if r == NotStarted {
        var _ :- Remove(j);
        CalmStarts(mid, world, j.key);
        CalmElsewhere(mid, world, j.key);
        QuietFacts(mid, world);
        ElsewhereTransitive(old(world), mid, world, j.key);
        OnlyNewThen(old(world), mid, world, j.key, j.id);
        OnwardTransitive(old(world), mid, world);
        FailedAnswer(old(world), mid, polls, j.id);
        return Alive, Some(StartFailed(j.id));
      }
      StartedFacts(j);
      if r == MayHaveStarted {
        UncertainAnswer(old(world), polls, j);
        NewRecordOnly(old(world).disk, world.disk, j.key, j.id);
        return Alive, Some(StartUncertain(j.id));
      }
      return Alive, None;
    }

    method StartAndWatch(j: Job, runKey: Option<string>, command: string, polls: nat) returns (life: Life, resp: Response)
      requires Rest(j.key) && Found(j, runKey, command) && FitsKey(world.spelled, j.key, runKey)
      requires j.Sound(world) && runKey.Some? ==> j.status != Done && j.status != Expired
      modifies this`world, this`run, this`registry, this`jobs, j
      ensures Reached()
      ensures life.Alive? ==> Ready() && (jobs == old(jobs) || jobs == old(jobs) - {j.key})
      ensures life.Alive? ==> Replies(old(world), world, polls, j.id, resp) && Truthful(world, resp) && !Outputs(resp)
      ensures life.Alive? && (resp.StartUncertain? || resp.StartFailed?) ==> !old(j.Sound(world))
      ensures life.Alive? ==> Onward(old(world), world)
      ensures life.Alive? ==>
        Sends(old(world), world, old(j.Sound(world)) || resp.StartFailed?, j.id, Start(command, old(fingerprint)))
      ensures life.Alive? && !old(j.Sound(world)) ==>
        j.id !in old(world.bound) && (resp.StartFailed? || resp.StartUncertain? || j.id in world.procs)
      ensures life.Alive? ==> Left(old(world), j.key, runKey.Some?, resp)
      ensures life.Alive? && (resp.Completed? || resp.StillRunning?) && (runKey.Some? || j.key.Unkeyed?) ==>
        resp.id in world.procs && world.procs[resp.id].start.command == command
      ensures life.Alive? && resp.StillRunning? ==>
        && resp.id == j.id && resp.from == old(j.offset) && j.offset == resp.from + |resp.delta|
        && Current(j) && !j.done
      ensures life.Alive? ==> Elsewhere(old(world), world, j.key)
      ensures life.Alive? && Busy(jobs, j.key) && !resp.StillRunning? ==> j.offset == old(j.offset)
      ensures life.Alive? && Busy(jobs, j.key) ==> !old(j.done) && jobs == old(jobs)
      ensures life.Alive? && resp.StillRunning? && !UpToDate(j) ==> Since(old(world), world, Unsaved)
      ensures life.Alive? && !(resp.StillRunning? && UpToDate(j)) ==>
        if old(j.Sound(world)) then NothingLeft(old(world), world, j.key)
        else OnlyNew(old(world).disk, world.disk, j.key, j.id)
    {
      hide Inv, Later, Calm, Beside, ContinuesRun, Job.Sound, Truthful, Rest, Reached, IsDelta, Ready, Job.Unrecorded,
           Onward, Elsewhere, NothingLeft, OnlyNew, Quiet, Found, Grows, Since, Replies, UpToDate, Left;
      resp := StartFailed(j.id);
      FoundFacts(j, runKey, command);
      var answer :- StartUp(j, runKey, command, polls);
      ghost var mid := world;
      if answer.Some? {
        LeftNothing(old(world), j.key, runKey.Some?, answer.value);
        return Alive, answer.value;
      }
      resp :- WatchStarted(j, runKey.Some?, polls);
      OnwardFacts(old(world), mid);
      if !old(j.Sound(world)) {
        OnwardHas(mid, world, j.id);
      }
      QuietFacts(mid, world);
      ElsewhereTransitive(old(world), mid, world, j.key);
      OnwardTransitive(old(world), mid, world);
      RepliesFrom(old(world), mid, world, polls, j.id, resp);
      RepliesAbout(old(world), world, polls, j.id, resp);
      if !(resp.StillRunning? && UpToDate(j)) {
        NewRecordThen(old(world), mid, world, j.key, j.id);
      }
      LeftThen(old(world), mid, j.key, runKey.Some?, resp);
      if resp.StillRunning? && !UpToDate(j) {
        SinceThen(old(world), mid, world, Unsaved);
      }
      if resp.Completed? || resp.StillRunning? {
        AnswerLaunched(resp);
      }
      return Alive, resp;
    }

    lemma LeftNothing(w: World, key: Key, keyed: bool, resp: Response)
      requires !resp.Completed? && !resp.RunLost? && !resp.RunExpired?
      ensures Left(w, key, keyed, resp)
    {
    }

    lemma LeftThen(u: World, w: World, key: Key, keyed: bool, resp: Response)
      requires u.noted <= w.noted <= world.noted && Left(w, key, keyed, resp)
      ensures Left(u, key, keyed, resp)
    {
      hide Since, GivenUp;
      FailsThen(u, w, world);
    }

    lemma OnwardHas(w: World, v: World, id: RunId)
      requires Quiet(w, v) && id in w.procs
      ensures id in v.procs
    {
    }

    lemma FoundFacts(j: Job, runKey: Option<string>, command: string)
      requires Rest(j.key) && Found(j, runKey, command) && FitsKey(world.spelled, j.key, runKey)
      ensures Current(j) && (j.Sound(world) || (j.Unrecorded(world) && j.command == command))
      ensures !j.Sound(world) ==>
        j.id !in world.bound && j.offset == 0 && !j.done && (runKey.Some? <==> j.runKey.Some?)
        && (Guarded(world.spelled, j.key) && j.key in world.disk ==> world.disk[j.key].id !in world.starts)
      ensures runKey.Some? ==> j.runKey.Some?
      ensures runKey.None? ==> !Guarded(world.spelled, j.key)
      ensures j.Sound(world) && runKey.None? ==> Waitable(j)
      ensures j.Sound(world) && (runKey.Some? || j.key.Unkeyed?) && j.id in world.starts ==>
        world.starts[j.id].command == command
    {
      hide Inv, ContinuesRun;
      if j.Sound(world) {
        StartedCommand(world, j.key, j.ToRecord());
      }
    }

    /** A job that was started may be watched, and its record is not ahead of it. */
    lemma StartedFacts(j: Job)
      requires j.Sound(world)
      ensures j.done <==> Over(j.status)
      ensures j.key in world.disk ==> world.disk[j.key].id == j.id && world.disk[j.key].offset <= j.offset
    {
    }

    lemma UnrecordedIsNew(j: Job)
      ensures j.Unrecorded(world) ==> j.id !in world.bound && j.offset == 0 && j.status == Pending && !j.done
      ensures j.Unrecorded(world) ==> !j.Sound(world)
    {
    }

    lemma FailedAnswer(w: World, mid: World, polls: nat, id: RunId)
      requires Ready() && w.noted <= mid.noted <= world.noted && (Since(w, mid, Unsaved) || Since(w, mid, Unsent(id)))
      ensures id !in world.starts ==>
        Replies(w, world, polls, id, StartFailed(id)) && Truthful(world, StartFailed(id))
    {
      hide Inv, Times;
      GroundedThen(w, mid, world, polls, StartFailed(id));
    }

    lemma UncertainAnswer(w: World, polls: nat, j: Job)
      requires Rest(j.key) && Current(j) && j.Sound(world) && Since(w, world, Unconfirmed(j.id))
      ensures Ready()
      ensures j.id in world.starts ==>
        Replies(w, world, polls, j.id, StartUncertain(j.id)) && Truthful(world, StartUncertain(j.id))
    {
      hide Inv, Job.Sound, Since;
    }

    lemma AnswerLaunched(resp: Response)
      requires Reached() && Truthful(world, resp) && (resp.Completed? || resp.StillRunning?)
      ensures resp.id in world.procs && resp.id in world.starts && world.procs[resp.id].start == world.starts[resp.id]
    {
      hide Inv, IsDelta;
      LaunchedCommand(world, resp.id);
    }

    /** exec for the run that was found: what it answers is about that run, or a refusal. */
    method GoOn(j: Job, runKey: Option<string>, command: string, legacy: string, polls: nat)
      returns (life: Life, resp: Response)
      requires Rest(j.key) && Found(j, runKey, command) && FitsKey(world.spelled, j.key, runKey)
      requires fingerprint != ""
      modifies this`world, this`run, this`registry, this`fingerprint, this`jobs, jobs.Values
      ensures Reached()
      ensures life.Alive? ==> Ready() && fresh(jobs.Values - old(jobs.Values))
      ensures life.Alive? ==>
        WentOn(old(world), world, runKey, command, old(fingerprint), polls, old(j.Sound(world)), j.id, resp)
      ensures life.Alive? ==>
        || Left(old(world), j.key, runKey.Some?, resp)
        || (resp == RunExpired(j.id) && old(j.status) == Expired && world == old(world))
      ensures life.Alive? ==> Onward(old(world), world) && fingerprint == old(fingerprint)
      ensures life.Alive? && resp.StillRunning? ==>
        && At(j.key).Live? && At(j.key).id == resp.id
        && (At(j.key).saved == At(j.key).offset || Since(old(world), world, Unsaved))
      ensures life.Alive? ==> Moves(old(Entering(j)), Everywhere(), ToldBy(resp), false, old(world.bound))
    {
      hide Inv, Job.Sound, Truthful, Reached, Job.Unrecorded, Onward, At, Ready, Clashes, FoundMeant, Replies, OnFile,
           OtherHost, Since, Moves, EnteringAt, Rest, Found, FitsKey, Left;
      JobMeant(j, runKey, command);
      FoundKey(j, runKey, command);
      ghost var before, sound := world, j.Sound(world);
      resp :- RunJob(j, runKey, command, legacy, polls);
      if resp != Conflict {
        FoundIsMeantBy(before, world, j.key, polls, sound, j.id, resp);
        RepliesAbout(before, world, polls, j.id, resp);
      }
      return Alive, resp;
    }

    /** exec with its connection loaded. */
    method ExecLoaded(runKey: Option<string>, command: string, legacy: string, polls: nat)
      returns (life: Life, resp: Response)
      requires Ready() && fingerprint != "" && FitsKey(world.spelled, KeyOf(runKey, command), runKey)
      modifies this`world, this`run, this`registry, this`fingerprint, this`jobs, jobs.Values
      ensures Reached()
      ensures life.Alive? ==> Ready() && fresh(jobs.Values - old(jobs.Values))
      ensures life.Alive? ==> LoadedDone(old(world), world, runKey, command, old(fingerprint), polls, resp)
      ensures life.Alive? ==> fingerprint == old(fingerprint)
      ensures life.Alive? && resp.StillRunning? ==>
        var at := At(KeyOf(runKey, command));
        at.Live? && at.id == resp.id && (at.saved == at.offset || Since(old(world), world, Unsaved))
      ensures life.Alive? ==> Moves(old(Everywhere()), Everywhere(), ToldBy(resp), false, old(world.bound))
      ensures life.Alive? && resp != Conflict && old(Watching(KeyOf(runKey, command))).Some? ==>
        About(resp) == old(Watching(KeyOf(runKey, command)))
      ensures life.Alive? && resp != Conflict ==>
        AboutRecord(old(world), world.now, KeyOf(runKey, command), runKey.Some?, old(fingerprint), resp)
      ensures life.Alive? && old(Free(KeyOf(runKey, command), runKey.Some?, fingerprint)) ==>
        Since(old(world), world, Unsaved) || IsNew(old(world), resp)
      ensures life.Alive? ==>
        var key := KeyOf(runKey, command);
        Left(old(world), key, runKey.Some?, resp) || (resp.RunExpired? && old(Stale(key)))
    {
      hide Inv, Later, ContinuesRun, Job.Sound, Truthful, Reached, Job.Unrecorded, Onward, OnDisk, PlaceFrom, Moved, Rest,
           FitsKey, At, LoadedDone, Ready, Waitable, Clashes, FoundMeant, InUse, Since, Moves,
           Attached, EnteringAt, Attachable, Prunable, StartsAtMost, AboutRecord, Found, Watching, FoundFits, WentOn,
           Unheld, Left, Stale, GivenUp;
      var key := KeyOf(runKey, command);
      resp := Conflict;
      ghost var stale := Stale(key);
      var found :- FindJob(runKey, command);
      LaterClock(old(world), world);
      if found.None? {
        InUseClashes(runKey, command);
        RefusedDone(old(world), world, runKey, command, fingerprint, polls);
        MovesNothing(old(Everywhere()), old(world.bound));
        LeftNothing(old(world), key, runKey.Some?, Conflict);
        return Alive, Conflict;
      }
      var j := found.value;
      ghost var mid, entering := world, Entering(j);
      assert j.key == key by { FoundKey(j, runKey, command); }
      ghost var fp, sound := fingerprint, j.Sound(world);
      resp :- GoOn(j, runKey, command, legacy, polls);
      LeftLoaded(old(world), mid, key, runKey.Some?, j.id, stale, resp);
      FoundThenLoaded(old(world), mid, world, runKey, command, fp, polls, sound, j.id, resp);
      AttachedThenMoves(old(Everywhere()), entering, Everywhere(), ToldBy(resp), old(world.bound));
      return Alive, resp;
    }

    lemma LeftLoaded(u: World, w: World, key: Key, keyed: bool, id: RunId, stale: bool, resp: Response)
      requires Later(u, w) && Onward(w, world)
      requires Left(w, key, keyed, resp)
            || (resp == RunExpired(id) && world == w && (stale || GivenUp(w.disk, id)))
      ensures Left(u, key, keyed, resp) || (resp.RunExpired? && stale)
    {
      hide Later, Onward, GivenUp;
      LaterClock(u, w);
      OnwardFacts(w, world);
      if Left(w, key, keyed, resp) {
        LeftThen(u, w, key, keyed, resp);
      }
    }

    /** jobForRequest: the job is of the run that the key has in memory or on record, and new when the key is free. */
    method FindRun(runKey: Option<string>, command: string) returns (life: Life, found: Option<Job>)
      requires Ready() && fingerprint != "" && FitsKey(world.spelled, KeyOf(runKey, command), runKey)
      modifies this`world, this`run, this`registry, this`jobs
      ensures Reached()
      ensures life.Alive? ==> Later(old(world), world)
      ensures life.Alive? && found.None? ==> Ready() && InUse(runKey, command) && jobs == old(jobs)
      ensures life.Alive? && found.Some? ==>
        var j := found.value;
        && Rest(j.key) && Found(j, runKey, command) && jobs == old(jobs)[j.key := j] && j.key == KeyOf(runKey, command)
        && (if fresh(j) then !Busy(old(jobs), j.key) && (OnRecord(j) || j.Unrecorded(world))
            else j.key in old(jobs) && j == old(jobs)[j.key] && j.Sound(world))
      ensures life.Alive? && found.Some? ==>
        FoundFits(world, runKey, command, fingerprint, found.value.Sound(world))
      ensures life.Alive? && found.Some? && old(Watching(KeyOf(runKey, command))).Some? ==>
        Some(found.value.id) == old(Watching(KeyOf(runKey, command)))
      ensures life.Alive? && found.Some? ==>
        var key := KeyOf(runKey, command);
        Attachable(old(world), key, runKey.Some?, old(fingerprint)) && key in world.disk ==>
          found.value.id == old(world).disk[key].id
      ensures
        && life.Alive? && KeyOf(runKey, command) !in old(jobs)
        && Unheld(old(world), KeyOf(runKey, command), runKey.Some?, old(fingerprint))
        ==> Since(old(world), world, Unsaved) || (found.Some? && found.value.id !in old(world).bound)
      ensures life.Alive? && found.Some? && found.value.status == Expired ==>
        old(Stale(KeyOf(runKey, command))) || GivenUp(world.disk, found.value.id)
    {
      hide Inv, Later, ContinuesRun, Job.Sound, Reached, Job.Unrecorded, OnDisk, PlaceFrom, FitsKey, Found, InUse,
           Attachable, Unheld, Since, GivenUp, At, Ready, Rest;
      found := None;
      var key := KeyOf(runKey, command);
      found :- JobForRequest(runKey, command);
      LaterClock(old(world), world);
      LaterAttachable(old(world), world, key, runKey.Some?, fingerprint);
      if found.Some? {
        FoundKey(found.value, runKey, command);
        UnrecordedIsNew(found.value);
        if OnRecord(found.value) && found.value.status == Expired {
          ExpiredOnRecord(found.value);
        }
      }
      return Alive, found;
    }

    /** jobForRequest moves no run; the run of the request may have become a job at the offset on record, or is new. */
    method FindJob(runKey: Option<string>, command: string) returns (life: Life, found: Option<Job>)
      requires Ready() && fingerprint != "" && FitsKey(world.spelled, KeyOf(runKey, command), runKey)
      modifies this`world, this`run, this`registry, this`jobs
      ensures Reached()
      ensures life.Alive? ==> Later(old(world), world)
      ensures life.Alive? && found.None? ==> Ready() && jobs == old(jobs) && Everywhere() == old(Everywhere())
      ensures life.Alive? && found.None? ==> InUse(runKey, command)
      ensures life.Alive? && found.Some? ==>
        var j := found.value;
        && Rest(j.key) && Found(j, runKey, command) && (fresh(j) || j in old(jobs.Values)) && jobs == old(jobs)[j.key := j]
        && (!fresh(j) ==> j.Sound(world))
      ensures life.Alive? && found.Some? ==> Attached(old(Everywhere()), Entering(found.value))
      ensures life.Alive? && found.Some? ==>
        FoundFits(world, runKey, command, fingerprint, found.value.Sound(world))
      ensures life.Alive? && found.Some? && old(Watching(KeyOf(runKey, command))).Some? ==>
        Some(found.value.id) == old(Watching(KeyOf(runKey, command)))
      ensures life.Alive? && found.Some? ==>
        var key := KeyOf(runKey, command);
        Attachable(old(world), key, runKey.Some?, old(fingerprint)) && key in world.disk ==>
          found.value.id == old(world).disk[key].id
      ensures
        && life.Alive? && KeyOf(runKey, command) !in old(jobs)
        && Unheld(old(world), KeyOf(runKey, command), runKey.Some?, old(fingerprint))
        ==> Since(old(world), world, Unsaved) || (found.Some? && found.value.id !in old(world).bound)
      ensures life.Alive? && found.Some? && found.value.status == Expired ==>
        old(Stale(KeyOf(runKey, command))) || GivenUp(world.disk, found.value.id)
    {
      hide Inv, Later, ContinuesRun, Job.Sound, Reached, Job.Unrecorded, OnDisk, PlaceFrom, FitsKey, Found, InUse,
           Attachable, Unheld, Since, GivenUp, Watching, Stale, FoundFits;
      found := None;
      ReadyPlaces();
      found :- FindRun(runKey, command);
      LaterPlaces(old(world), world);
      var key := KeyOf(runKey, command);
      if found.Some? {
        UnrecordedIsNew(found.value);
        OnRecordFiled(found.value);
        assert !fresh(found.value) ==> old(jobs)[key] in old(jobs.Values);
      }
      forall k: Key
        ensures found.None? ==> At(k) == old(At(k))
        ensures found.Some? ==>
          var m := EnteringAt(found.value, k);
          m == old(At(k)) || (old(At(k)).Filed? && m == Live(old(At(k)).id, old(At(k)).saved, old(At(k)).saved))
      {
        PlaceSame(old(world).disk, world.disk, k);
        PlaceOfRecord(world.disk, k);
        PlaceOfRecord(old(world).disk, k);
        if k != key || found.None? || !fresh(found.value) {
          assert k in jobs <==> k in old(jobs);
          if k in jobs {
            assert jobs[k] == old(jobs)[k] && jobs[k] in old(jobs.Values);
            assert jobs[k].done == old(jobs[k].done) && jobs[k].offset == old(jobs[k].offset);
          }
          assert Busy(jobs, k) == old(Busy(jobs, k));
          assert At(k) == old(At(k));
        } else if found.value.Sound(world) {
          assert OnRecord(found.value);
        }
      }
      return Alive, found;
    }

    lemma ExpiredOnRecord(j: Job)
      requires OnRecord(j) && j.status == Expired
      ensures GivenUp(world.disk, j.id)
    {
      hide Job.Sound;
    }

    /** A run key that is in use is so by a record or by a run that was started with another command. */
    lemma InUseClashes(runKey: Option<string>, command: string)
      requires Ready() && InUse(runKey, command)
      ensures Clashes(world, runKey, command, fingerprint)
    {
      hide Inv, Job.Sound;
      ReadyReached();
      var key := Keyed(runKey.value);
      if key in jobs && (jobs[key].commandHash != command || jobs[key].runKey != runKey) {
        JobInUse(jobs[key], runKey, command);
      }
    }

    lemma JobInUse(j: Job, runKey: Option<string>, command: string)
      requires Inv(world) && j.Sound(world) && runKey.Some? && j.key == Keyed(runKey.value)
      requires j.commandHash != command || j.runKey != runKey
      ensures j.id in world.bound && world.bound[j.id] == j.key
      ensures || j.key in world.spelled
              || (j.key in world.disk && world.disk[j.key].commandHash != command)
              || (j.id in world.starts && world.starts[j.id].command != command)
    {
      hide Inv;
      LaunchedCommand(world, j.id);
    }

    lemma FoundKey(j: Job, runKey: Option<string>, command: string)
      requires Found(j, runKey, command)
      ensures j.key == KeyOf(runKey, command) && Current(j)
    {
      hide Job.Sound, Job.Unrecorded;
    }

    lemma OnRecordFiled(j: Job)
      ensures OnRecord(j) && !j.done ==> OnDisk(world.disk, j.key) == Filed(j.id, j.offset)
      ensures OnRecord(j) && j.done ==> OnDisk(world.disk, j.key) == Gone
    {
      hide Job.Sound;
    }

    /** What a request may say of the run that it goes on with. */
    lemma JobMeant(j: Job, runKey: Option<string>, command: string)
      requires Rest(j.key) && Found(j, runKey, command)
      ensures if j.Sound(world) then j.id in world.bound && world.bound[j.id] == j.key else j.id !in world.bound
      ensures j.Sound(world) && j.key in world.disk ==> world.disk[j.key].id == j.id
      ensures !j.Sound(world) && Guarded(world.spelled, j.key) && j.key in world.disk ==>
        world.disk[j.key].id !in world.starts
      ensures runKey.Some? && OtherHost(world, j.key, fingerprint) ==>
        Clashes(world, runKey, command, fingerprint)
    {
      hide Inv, Prunable;
      JobRecord(world, j);
      if j.Sound(world) {
        RecordBound(world, j.key, j.ToRecord());
      }
    }

    lemma FoundIsMeantBy(w: World, v: World, key: Key, polls: nat, sound: bool, id: RunId, resp: Response)
      requires Replies(w, v, polls, id, resp)
      requires if sound then id in w.bound && w.bound[id] == key else id !in w.bound
      requires resp.StartUncertain? || resp.StartFailed? ==> !sound
      requires sound && key in w.disk ==> w.disk[key].id == id
      requires Outputs(resp) ==> Exited(w, id)
      requires resp.UnknownRun? ==> !OnFile(w.disk, id)
      requires !sound && Guarded(w.spelled, key) && key in w.disk ==> w.disk[key].id !in w.starts
      ensures FoundMeant(w, v, key, polls, sound, id, resp)
    {
      hide Replies;
    }

    /** A command without a run key may spell a run key: from then on the two share a registry key. */
    method Spelling(runKey: Option<string>, command: string)
      requires Ready()
      modifies this`world, this`run, this`heard
      ensures Ready() && heard == old(heard) + SpelledBy(runKey, command)
      ensures FitsKey(world.spelled, KeyOf(runKey, command), runKey)
      ensures world == old(world).(spelled := old(world).spelled + SpelledBy(runKey, command))
      ensures Everywhere() == old(Everywhere())
    {
      hide Inv, ContinuesRun, Apply, Allowed;
      var key := KeyOf(runKey, command);
      heard := heard + SpelledBy(runKey, command);
      if runKey.None? && key.Keyed? {
        SpellIsAllowed(world, key);
        Do(Spell(key));
        forall k | k in jobs ensures jobs[k].Sound(world) {
          SpellKeepsRecord(old(world), key, k, jobs[k].ToRecord());
        }
      } else {
        assert world.spelled + {} == world.spelled;
      }
      forall k: Key ensures At(k) == old(At(k)) {
      }
    }

    /** exec: at most one start goes out, for a run id that was never recorded before. Under a run key that no command
        spelled: a record of a started run, of another command or of another fingerprint starts nothing while it is too
        young to be pruned, and that of another command is refused; a refusal comes only then. The answer is about the run
        that the key has, in memory or on record, and a free key gets a new run, which is started unless that fails. What is
        told of a failure, of files that are gone or of an exit that was not seen was met with since the request began. A run
        that is reported as done or running was started with this very command, unless the command spells a run key. Every
        run moves on from where it was. */
    method Exec(runKey: Option<string>, command: string, fp: string, legacy: string, polls: nat)
      returns (life: Life, resp: Response)
      requires Ready() && fp != ""
      modifies this`world, this`run, this`registry, this`fingerprint, this`jobs, this`heard, jobs.Values
      ensures Reached() && heard == old(heard) + SpelledBy(runKey, command)
      ensures life.Alive? ==> Ready() && fresh(jobs.Values - old(jobs.Values))
      ensures life.Alive? ==> ExecDone(old(world), world, runKey, command, fp, legacy, polls, resp)
      ensures life.Alive? ==> fingerprint == old(fingerprint) || fingerprint == fp
      ensures life.Alive? && resp.StillRunning? ==>
        var at := At(KeyOf(runKey, command));
        at.Live? && at.id == resp.id && (at.saved == at.offset || Since(old(world), world, Unsaved))
      ensures life.Alive? && resp != Conflict && resp != Trouble("") && !Dropped(old(fingerprint)) ==>
        var key := KeyOf(runKey, command);
        && (old(Watching(key)).Some? ==> About(resp) == old(Watching(key)))
        && AboutRecord(Migrated(old(world), fp, legacy), world.now, key, runKey.Some?, fp, resp)
      ensures life.Alive? ==>
        var key := KeyOf(runKey, command);
        Left(old(world), key, runKey.Some?, resp) || (resp.RunExpired? && old(Stale(key)))
      ensures
        && life.Alive? && !Dropped(old(fingerprint)) && resp != Trouble("") && KeyOf(runKey, command) !in old(jobs)
        && Unheld(Migrated(old(world), fp, legacy), KeyOf(runKey, command), runKey.Some?, fp)
        ==> Since(old(world), world, Unsaved) || IsNew(old(world), resp)
      ensures life.Alive? ==>
        Moves(old(Everywhere()), Everywhere(), ToldBy(resp), Dropped(old(fingerprint)), old(world).bound)
    {
      hide Inv, Thinned, ContinuesRun, Job.Sound, Reached, Ready, FitsKey, At, Moves, Moved, Loaded, Rebound, ExecDone,
           LoadedDone, SpelledBy, Failing, Since,
           AboutRecord, Prunable, RebindAll, Watching, Truthful, Migrated, Unheld, IsNew, About,
           LoadedFrom, Left, Stale;
      var key := KeyOf(runKey, command);
      resp := Trouble("");
      var ok :- LoadFor(runKey, command, fp, legacy, polls);
      if !ok {
        LoadedOnly(old(Everywhere()), Everywhere(), Dropped(old(fingerprint)), old(world).bound);
        LeftNothing(old(world), key, runKey.Some?, Trouble(""));
        return Alive, Trouble("");
      }
      ghost var same, free := fp == old(fingerprint) || old(fingerprint) == "", Free(key, runKey.Some?, fp);
      ghost var mid, loaded := world, Everywhere();
      ghost var dropped := Dropped(old(fingerprint));
      resp :- ExecLoaded(runKey, command, legacy, polls);
      LoadedThenExec(old(world), mid, world, runKey, command, fp, legacy, polls, same && resp != Conflict, free, resp);
      if Left(mid, key, runKey.Some?, resp) {
        LeftFromLoad(old(world), mid, runKey, command, fp, legacy, polls, resp);
      }
      LoadedThenMoves(old(Everywhere()), loaded, Everywhere(), ToldBy(resp), dropped, old(world).bound);
      return Alive, resp;
    }

    lemma LeftFromLoad(w: World, mid: World, runKey: Option<string>, command: string, fp: string, legacy: string, polls: nat,
                       resp: Response)
      requires LoadedFrom(w, mid, runKey, command, fp, legacy)
      requires LoadedDone(mid, world, runKey, command, fp, polls, resp)
      requires Left(mid, KeyOf(runKey, command), runKey.Some?, resp)
      ensures Left(w, KeyOf(runKey, command), runKey.Some?, resp)
    {
      hide Thinned, SpelledBy, Left, LoadedDone;
      ThinnedRecord(w.(spelled := w.spelled + SpelledBy(runKey, command)), mid, KeyOf(runKey, command));
      LoadedOnward(mid, world, runKey, command, fp, polls, resp);
      LeftThen(w, mid, KeyOf(runKey, command), runKey.Some?, resp);
    }

    /** The connection is loaded for exec, and a run key that is spelled is noted. */
    method LoadFor(runKey: Option<string>, command: string, fp: string, legacy: string, ghost polls: nat)
      returns (life: Life, ok: bool)
      requires Ready() && fp != ""
      modifies this`world, this`run, this`registry, this`fingerprint, this`jobs, this`heard
      ensures Reached() && heard == old(heard) + SpelledBy(runKey, command)
      ensures life.Alive? ==> Ready() && (jobs == old(jobs) || jobs == map[])
      ensures life.Alive? ==> Loaded(old(Everywhere()), Everywhere(), Dropped(old(fingerprint)))
      ensures life.Alive? ==> forall k: Key :: !old(At(k)).Gone? ==> old(At(k)).id in old(world).bound
      ensures life.Alive? && !ok ==>
        fingerprint == old(fingerprint) && ExecDone(old(world), world, runKey, command, fp, legacy, polls, Trouble(""))
      ensures life.Alive? && ok ==>
        && fingerprint == fp && LoadedFrom(old(world), world, runKey, command, fp, legacy)
        && FitsKey(world.spelled, KeyOf(runKey, command), runKey) && world.bound == old(world).bound
      ensures life.Alive? && ok ==> Stale(KeyOf(runKey, command)) ==> old(Stale(KeyOf(runKey, command)))
      ensures life.Alive? && ok && (fp == old(fingerprint) || old(fingerprint) == "") ==>
        var key := KeyOf(runKey, command);
        && (key in old(world).disk && key !in world.disk ==> Prunable(old(world).disk[key], world.now))
        && Watching(key) == old(Watching(key))
        && (key !in old(jobs) && Unheld(Migrated(old(world), fp, legacy), key, runKey.Some?, fp) ==>
              Free(key, runKey.Some?, fp))
    {
      hide Inv, Thinned, ContinuesRun, Job.Sound, Reached, Ready, FitsKey, At, Loaded, Rebound, ExecDone, SpelledBy,
           Failing, Since, Prunable, RebindAll, Watching, Migrated, Unheld;
      ok := false;
      var key := KeyOf(runKey, command);
      ReadyPlaces();
      Spelling(runKey, command);
      ghost var told := world;
      ReadyReached();
      GuardedRecord(world, key);
      ok :- Load(fp, legacy);
      ThinnedRecord(told, world, key);
      if !ok {
        TroubleIsDone(old(world), world, runKey, command, fp, legacy, polls);
        return Alive, false;
      }
      if fp == old(fingerprint) || old(fingerprint) == "" {
        WatchingStays(key);
      }
      ReboundUnheld(old(world), world, key, runKey.Some?, fp, legacy);
      return Alive, true;
    }

    /** No job and no record holds a key. */
    ghost predicate Free(key: Key, keyed: bool, fp: string)
      reads this
    {
      key !in jobs && Unheld(world, key, keyed, fp)
    }

    twostate lemma WatchingStays(key: Key)
      requires jobs == old(jobs)
      requires forall k :: k in jobs ==> jobs[k].done == old(jobs[k].done) && jobs[k].status == old(jobs[k].status)
      ensures Watching(key) == old(Watching(key))
    {
    }

    // ----- the life of brokers

    constructor ()
      ensures world == EMPTY && run == [] && Ready() && jobs == map[]
    {
      world, run, mark, heard := EMPTY, [], [], {};
      registry, fingerprint, jobs := map[], "", map[];
      new;
      EmptyIsSafe();
    }

    /** closeOne: the connection's jobs are forgotten, their records stay. */
    method Close()
      requires Ready()
      modifies this`fingerprint, this`jobs
      ensures Ready() && jobs == map[] && fingerprint == ""
      ensures Moves(old(Everywhere()), Everywhere(), None, Dropped(old(fingerprint)), world.bound)
    {
      hide Inv, ContinuesRun, Job.Sound, OnDisk;
      ReadyPlaces();
      fingerprint := "";
      jobs := map[];
      forall k: Key ensures Moved(old(At(k)), At(k), None, Dropped(old(fingerprint)), world.bound) {
      }
    }

    /** sweepLocalRuns: only files older than a day go, and all of them unless a removal fails; nothing else changes. */
    method SweepLocalRuns() returns (life: Life)
      requires Reached() && registry == world.disk
      modifies this`world, this`run
      ensures Reached() && registry == world.disk && OldFilesGone(old(world), world)
      ensures life.Alive? ==> OnlyYoung(old(world), world, {}, {}, old(world).now - TTL)
    {
      hide Inv, Apply, Allowed, OldFilesGone, Since, OnlyYoung;
      var cutoff := world.now - TTL;
      var logs, metas := world.logs.Keys, world.metas.Keys;
      NoFilesGone(world);
      AllFiles(world, cutoff);
      while logs != {}
        invariant Reached() && registry == world.disk && world.now == old(world).now
        invariant OldFilesGone(old(world), world) && OnlyYoung(old(world), world, logs, metas, cutoff)
      {
        var id :| id in logs;
        assert {id} + (logs - {id}) == logs;
        SweepFile(id, true, logs - {id}, metas, cutoff, old(world));
        logs := logs - {id};
        if * { return Crashed; }
      }
      while metas != {}
        invariant Reached() && registry == world.disk && world.now == old(world).now
        invariant OldFilesGone(old(world), world) && OnlyYoung(old(world), world, {}, metas, cutoff)
      {
        var id :| id in metas;
        assert {id} + (metas - {id}) == metas;
        SweepFile(id, false, {}, metas - {id}, cutoff, old(world));
        metas := metas - {id};
        if * { return Crashed; }
      }
      return Alive;
    }

    lemma AllFiles(w: World, cutoff: int)
      ensures OnlyYoung(w, w, w.logs.Keys, w.metas.Keys, cutoff)
    {
    }

    /** The log or the metadata of a run, which goes when it is old, unless the removal fails. */
    method SweepFile(id: RunId, log: bool, ghost logs: set<RunId>, ghost metas: set<RunId>, cutoff: int, ghost start: World)
      requires Reached() && registry == world.disk && OldFilesGone(start, world)
      requires world.now == start.now && cutoff == world.now - TTL
      requires OnlyYoung(start, world, {id} + logs, metas, cutoff) || !log
      requires OnlyYoung(start, world, logs, {id} + metas, cutoff) || log
      modifies this`world, this`run
      ensures Reached() && registry == world.disk && OldFilesGone(start, world) && world.now == start.now
      ensures OnlyYoung(start, world, logs, metas, cutoff)
    {
      hide Inv, Apply, Allowed, OldFilesGone, Since, OnlyYoung, SweepOf;
      assert {id} + logs == logs + {id} && {id} + metas == metas + {id};
      if if log then id in world.logs && world.logs[id].modified < cutoff
         else id in world.metas && world.metas[id].modified < cutoff {
        var removed: bool := *;
        SweptFile(start, world, id, log, removed, cutoff);
        Do(SweepOf(id, log, removed, cutoff));
      }
      SweptYoung(start, old(world), world, id, log, logs, metas, cutoff);
    }

    /** The start of a broker: memory is empty, the registry is read, old local files go, and the registry is pruned.
        When the pruning succeeds, every done record left under a run key has its log and metadata. */
    method Boot() returns (life: Life, pruned: bool)
      requires Reached()
      modifies this`world, this`run, this`registry, this`fingerprint, this`jobs
      ensures Reached()
      ensures life.Alive? ==> Ready() && jobs == map[] && fingerprint == ""
      ensures life.Alive? ==> if pruned then Retained(world) else Since(old(world), world, Unsaved)
      ensures life.Alive? ==> OnlyYoung(old(world), world, {}, {}, old(world).now - TTL)
      ensures life.Alive? ==> world.starts == old(world).starts && world.bound == old(world).bound
    {
      hide Inv, Retained, Later, OldFilesGone, Since, OnlyYoung, Play, Playable;
      pruned := false;
      jobs := map[];
      fingerprint := "";
      registry := world.disk;
      Interfere();
      LaterClock(old(world), world);
      if * { return Crashed, false; }
      ghost var begun := world;
      :- SweepLocalRuns();
      OldFilesStarts(begun, world);
      ghost var swept := world;
      pruned :- PruneNow();
      LaterFiles(swept, world);
      BootSteps(old(world), begun, swept, world);
      return Alive, pruned;
    }

    lemma BootSteps(u: World, begun: World, swept: World, v: World)
      requires u.noted <= begun.noted <= swept.noted <= v.noted && u.now <= begun.now
      requires v.logs == swept.logs && v.metas == swept.metas && OnlyYoung(begun, swept, {}, {}, begun.now - TTL)
      ensures Since(swept, v, Unsaved) ==> Since(u, v, Unsaved)
      ensures OnlyYoung(u, v, {}, {}, u.now - TTL)
    {
      hide Times;
      TimesAdd(u, begun, v, Unsaved);
      TimesAdd(begun, swept, v, Unsaved);
    }

    /** One request, or a restart of the broker. */
    method Handle(request: Request) returns (life: Life, resp: Response)
      requires Ready()
      modifies this, jobs.Values
      ensures Reached() && mark == old(run) && heard == old(world).spelled + request.Spells()
      ensures life.Alive? ==> Ready() && fresh(jobs.Values - old(jobs.Values)) && Carried(old(world), world, request, resp)
    {
      hide Inv, ContinuesRun, Job.Sound, Moves, At, Truthful, Prunable, Rebindable, PlaceFrom, Quiet, Retained, ExecDone,
           Rest, Ready, Reached;
      resp := Closed;
      ReadyReached();
      Begin();
      match request
      case ExecRequest(runKey, command, fp, legacy, polls) =>
        resp :- Exec(runKey, command, fp, legacy, polls);
        return Alive, resp;
      case OutputRequest(id, fp, legacy) =>
        resp :- Output(id, fp, legacy);
        return Alive, resp;
      case CloseRequest =>
        Close();
        return Alive, Closed;
      case RestartRequest =>
        var pruned :- Boot();
        return Alive, Booted(pruned);
    }
  }

  /** What clients ask of a broker. A request finds the connection with a fingerprint, and with what its fingerprint was in
      the old encoding. */
  datatype Request =
    | ExecRequest(runKey: Option<string>, command: string, fingerprint: Fingerprint, legacy: string, polls: nat)
    | OutputRequest(id: RunId, fingerprint: Fingerprint, legacy: string)
    | CloseRequest
    | RestartRequest
  {
    /** The run key whose registry key the request spells, if it does. */
    function Spells(): set<Key> {
      if ExecRequest? then SpelledBy(runKey, command) else {}
    }
  }

  /** The run keys whose registry key some request spells without a run key. */
  function Spelled(requests: seq<Request>): (keys: set<Key>)
    ensures forall key :: key in keys <==> exists i :: 0 <= i < |requests| && key in requests[i].Spells()
  {
    set i, key | 0 <= i < |requests| && key in requests[i].Spells() :: key
  }

  /** What a request does and answers. */
  ghost predicate Carried(w: World, v: World, request: Request, resp: Response) {
    match request
    case ExecRequest(runKey, command, fp, legacy, polls) => ExecDone(w, v, runKey, command, fp, legacy, polls, resp)
    case OutputRequest(id, fp, legacy) => Quiet(w, v) && OutputDone(w, v, id, fp, legacy, resp)
    case CloseRequest => resp == Closed && v == w
    case RestartRequest =>
      && resp.Booted? && v.starts == w.starts && v.bound == w.bound
      && (if resp.pruned then Retained(v) else Since(w, v, Unsaved))
  }

  /** The handling of a request: the actions until it began and until it ended, and its answer unless a crash came first. */
  datatype Handling = Handling(request: Request, resp: Option<Response>, from: seq<Action>, upto: seq<Action>)

  /** Allowed actions only; a run key is spelled only by the request; and what is answered was done. */
  ghost predicate Handled(h: Handling) {
    var w, v := Play(EMPTY, h.from), Play(EMPTY, h.upto);
    && h.from <= h.upto && Playable(EMPTY, h.upto) && v.spelled <= w.spelled + h.request.Spells()
    && (h.resp.Some? ==> Carried(w, v, h.request, h.resp.value))
  }

  /** All actions until the last handling ended. */
  ghost function Until(log: seq<Handling>): seq<Action> {
    if log == [] then [] else log[|log| - 1].upto
  }

  /** Each handling goes on where the one before ended, but for a restart after a crash. */
  ghost predicate Follows(log: seq<Handling>) {
    && (log != [] ==> log[0].from == [])
    && (forall i :: 0 < i < |log| ==> log[i - 1].upto <= log[i].from)
    && (forall i :: 0 < i < |log| && log[i - 1].resp.Some? ==> log[i - 1].upto == log[i].from)
  }

  lemma OnceUnlessSpelled(events: seq<Event>, spelled: set<Key>, more: set<Key>)
    requires AtMostOnce(events, spelled) && spelled <= more
    ensures AtMostOnce(events, more)
  {
    hide PrunedBetween;
  }

  /** A broker that is down is started. */
  method Restart(s: Server) returns (up: bool)
    requires s.Reached()
    modifies s
    ensures s.Reached() && old(s.run) <= s.run && s.world.spelled <= old(s.world).spelled
    ensures up ==> s.Ready() && s.jobs == map[]
  {
    hide Inv, Server.Ready, Server.Reached, Play, Playable, Retained;
    s.Begin();
    var life, _ := s.Boot();
    s.ReachedFacts();
    return life.Alive?;
  }

  /** A request, handled by a broker that is up or that was restarted for it. */
  method ServeOne(s: Server, wasUp: bool, request: Request)
    returns (up: bool, answer: Option<Response>, ghost h: Handling)
    requires s.Reached() && (wasUp ==> s.Ready())
    modifies s, if wasUp then s.jobs.Values else {}
    ensures s.Reached() && (up ==> s.Ready() && fresh(s.jobs.Values - if wasUp then old(s.jobs.Values) else {}))
    ensures h.request == request && h.resp == answer && (up <==> answer.Some?) && Handled(h)
    ensures old(s.run) <= h.from && (wasUp ==> h.from == old(s.run)) && h.upto == s.run
    ensures s.world.spelled <= old(s.world).spelled + request.Spells()
  {
    hide Inv, Server.Ready, Server.Reached, SpelledBy, Play, Playable, Carried, Handled, Retained, Tells, OutputDone,
         ExecDone,
         RunWorld.Apply;
    up, answer := wasUp, None;
    if !up {
      up := Restart(s);
    }
    s.ReachedFacts();
    ghost var from, w := s.run, s.world;
    if up {
      var life, resp := s.Handle(request);
      up := life.Alive?;
      answer := if up then Some(resp) else None;
    }
    s.ReachedFacts();
    h := Handling(request, answer, from, s.run);
    HandledHere(h, w, s.world);
  }

  /** Any requests, with a crash at any step of any of them and a restart after it. The history of the broker is that of
      handling the requests one after the other, and what is answered to each was done. No run key whose registry key no
      request spelled launches its command twice before its done record was pruned, and clean-up is sent only for runs that
      are durably done and stored. */
  method Serve(requests: seq<Request>) returns (s: Server, answers: seq<Option<Response>>, ghost log: seq<Handling>)
    ensures |answers| == |log| == |requests|
    ensures forall i :: 0 <= i < |requests| ==>
      log[i].request == requests[i] && log[i].resp == answers[i] && Handled(log[i])
    ensures Follows(log) && s.run == Until(log)
    ensures s.Reached() && AtMostOnce(s.world.events, Spelled(requests))
    ensures CleanedDone(s.world.cleaned, s.world.sealed)
    ensures SealedStored(s.world.sealed, s.world.swept, s.world.logs, s.world.metas)
  {
    hide Inv, AtMostOnce, CleanedDone, SealedStored, Server.Ready, Server.Reached, SpelledBy, Handled, Follows, Until;
    s := new Server();
    answers, log := [], [];
    s.ReadyReached();
    NothingFollows();
    var up := true;
    for i := 0 to |requests|
      invariant fresh(s) && s.Reached() && s.world.spelled <= Spelled(requests)
      invariant up ==> s.Ready() && fresh(s.jobs.Values)
      invariant |answers| == |log| == i && (up <==> log == [] || log[i - 1].resp.Some?)
      invariant forall k :: 0 <= k < i ==> log[k].request == requests[k] && log[k].resp == answers[k] && Handled(log[k])
      invariant Follows(log) && s.run == Until(log)
    {
      var answer; ghost var h;
      up, answer, h := ServeOne(s, up, requests[i]);
      FollowsOn(log, h);
      answers, log := answers + [answer], log + [h];
    }
    s.ReachedFacts();
    SafeWorld(s.world);
    OnceUnlessSpelled(s.world.events, s.world.spelled, Spelled(requests));
  }

  lemma NothingFollows()
    ensures Follows([]) && Until([]) == []
  {
  }

  lemma HandledHere(h: Handling, w: World, v: World)
    requires h.from <= h.upto && Playable(EMPTY, h.upto) && Play(EMPTY, h.from) == w && Play(EMPTY, h.upto) == v
    requires v.spelled <= w.spelled + h.request.Spells() && (h.resp.Some? ==> Carried(w, v, h.request, h.resp.value))
    ensures Handled(h)
  {
  }

  lemma FollowsOn(log: seq<Handling>, h: Handling)
    requires Follows(log) && Until(log) <= h.from
    requires log == [] || log[|log| - 1].resp.Some? ==> h.from == Until(log)
    ensures Follows(log + [h]) && Until(log + [h]) == h.upto
  {
  }

  lemma SafeWorld(w: World)
    requires Inv(w)
    ensures AtMostOnce(w.events, w.spelled) && CleanedDone(w.cleaned, w.sealed)
    ensures SealedStored(w.sealed, w.swept, w.logs, w.metas)
  {
  }
}
