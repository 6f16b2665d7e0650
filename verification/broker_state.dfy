/** The broker's memory: jobs, their records, and what other activity may change around them. */
module BrokerState {
  import opened Text
  import opened RemoteExit
  import opened RunWorld
  import opened RunSafety

  /** The outcome of a step that a crash may cut short; `:-` ends the request at a crash. */
  datatype Life = Alive | Crashed {
    predicate IsFailure() { Crashed? }
    function PropagateFailure(): Life { this }
  }

  /** A detached run as the broker holds it. Times are nanoseconds; finishedAt is 0 when unknown. */
  class Job {
    const id: RunId
    const key: Key
    const runKey: Option<string>
    var command: string
    var commandHash: string
    var fingerprint: string
    var version: nat
    var offset: nat
    var started: bool
    var startedAt: int
    var lastSeenAt: int
    var finishedAt: int
    var durationMS: int
    var done: bool
    var exitCode: int
    var startErr: bool
    var status: Status

    /** newJob */
    constructor New(id: RunId, key: Key, runKey: Option<string>, command: string, fingerprint: string)
      ensures this.id == id && this.key == key && this.command == command && this.fingerprint == fingerprint
      ensures this.runKey == runKey && commandHash == (if runKey.Some? then command else "") && version == 1 && offset == 0
      ensures !started && !done && !startErr && status == Pending && exitCode == 0
      ensures startedAt == 0 && lastSeenAt == 0 && finishedAt == 0 && durationMS == 0
    {
      this.id, this.key, this.command, this.fingerprint := id, key, command, fingerprint;
      this.runKey := runKey;
      commandHash := if runKey.Some? then command else "";
      version, offset, exitCode := 1, 0, 0;
      started, done, startErr, status := false, false, false, Pending;
      startedAt, lastSeenAt, finishedAt, durationMS := 0, 0, 0, 0;
    }

    /** recordToJob: the command itself is not in the record, and the start time is in whole seconds. A request that
        attaches gives its own run key. */
    constructor FromRecord(key: Key, rec: Record, runKey: Option<string>, now: int)
      ensures id == rec.id && this.key == key && command == "" && commandHash == rec.commandHash
      ensures this.runKey == runKey
      ensures fingerprint == rec.fingerprint && version == rec.version && offset == rec.offset
      ensures started && !startErr && startedAt == (if rec.startedAt == 0 then now else rec.startedAt * SECOND)
      ensures lastSeenAt == rec.lastSeenAt && finishedAt == rec.finishedAt && durationMS == rec.durationMS
      ensures exitCode == rec.exitCode && status == rec.status && done == Over(rec.status)
    {
      id, this.key, command, commandHash := rec.id, key, "", rec.commandHash;
      this.runKey := runKey;
      fingerprint, version, offset := rec.fingerprint, rec.version, rec.offset;
      started, startErr := true, false;
      startedAt := if rec.startedAt == 0 then now else rec.startedAt * SECOND;
      lastSeenAt, finishedAt, durationMS := rec.lastSeenAt, rec.finishedAt, rec.durationMS;
      exitCode, status, done := rec.exitCode, rec.status, Over(rec.status);
    }

    /** newJobRecord */
    function ToRecord(): Record
      reads this
    {
      Record(id, commandHash, runKey, fingerprint, version, offset, startedAt / SECOND, lastSeenAt, finishedAt,
             durationMS, status, exitCode)
    }

    predicate TerminalKnown()
      reads this
    {
      done && (status == FinalizePending || status == Done)
    }

    /** The run id was recorded under this key or not at all. */
    ghost predicate Named(w: World)
      reads this
    {
      id in w.bound ==> w.bound[id] == key
    }

    /** A job that has a record: its present state may be saved at any time. */
    ghost predicate Sound(w: World)
      reads this
      ensures Sound(w) ==> Named(w)
    {
      && started && !startErr && SECOND <= startedAt <= w.now
      && ContinuesRun(w, key, ToRecord()) && Fits(w.spelled, key, ToRecord())
      && done == Over(status)
    }

    lemma SoundIsSavable(w: World)
      requires Sound(w)
      ensures Savable(w, key, ToRecord()) && Named(w)
    {
      hide ContinuesRun;
    }

    /** The job's command is the one its run key was first used with, or the one that is its key. */
    predicate Commanded()
      reads this
    {
      command == (if runKey.Some? then commandHash else key.Hashed())
    }

    /** A job that has not been recorded. */
    ghost predicate Unrecorded(w: World)
      reads this
      ensures Unrecorded(w) ==> Named(w)
    {
      && !started && !done && !startErr && status == Pending && id !in w.bound && offset == 0 && finishedAt == 0
      && Commanded() && Fits(w.spelled, key, ToRecord())
    }
  }

  /** A job that is saved and read back after a restart: the same record, so the same run, outcome and offset, and it can go
      on; its start is known to the second only, and the command is forgotten. */
  method Reload(j: Job, w: World) returns (k: Job)
    requires j.Sound(w)
    ensures fresh(k) && k.Sound(w) && k.ToRecord() == j.ToRecord()
    ensures k.id == j.id && k.key == j.key && k.offset == j.offset && k.status == j.status && k.done == j.done
    ensures k.TerminalKnown() == j.TerminalKnown() && k.exitCode == j.exitCode && k.finishedAt == j.finishedAt
    ensures k.startedAt <= j.startedAt < k.startedAt + SECOND && k.command == ""
  {
    hide ContinuesRun;
    k := new Job.FromRecord(j.key, j.ToRecord(), j.runKey, w.now);
    assert k.ToRecord() == j.ToRecord();
  }

  /** A status in which nothing is left to wait for. */
  predicate Over(status: Status) {
    status == Done || status == FinalizePending || status == Failed || status == Expired
  }

  // ----- what may change around the run of one request

  /** From w to v only the run id under key changed, apart from prunings, the passing of time and the remote host. */
  ghost predicate Beside(w: World, v: World, key: Key, id: RunId) {
    && w.now <= v.now && w.sweptBefore == v.sweptBefore && v.spelled == w.spelled && w.noted <= v.noted
    && Grows(w.procs, v.procs) && w.bound.Keys <= v.bound.Keys
    && (forall k :: k != key && k in v.disk ==> k in w.disk && v.disk[k] == w.disk[k])
    && (forall k :: k != key && k in w.disk && k !in v.disk ==> Prunable(w.disk[k], v.now))
    && (forall x :: x != id ==> (x in v.starts <==> x in w.starts) && (x in v.starts ==> v.starts[x] == w.starts[x]))
    && (forall x :: x != id ==> (x in v.bound <==> x in w.bound) && (x in v.bound ==> v.bound[x] == w.bound[x]))
    && (forall x :: x != id ==> (x in v.known <==> x in w.known))
    && (forall x :: x != id ==> (x in v.sealed <==> x in w.sealed) && (x in v.swept <==> x in w.swept))
    && (forall x :: x != id ==> (x in v.logs <==> x in w.logs) && (x in v.logs ==> v.logs[x] == w.logs[x]))
    && (forall x :: x != id ==> (x in v.metas <==> x in w.metas) && (x in v.metas ==> v.metas[x] == w.metas[x]))
  }

  /** From w to v nothing changed but by prunings, the passing of time and the remote host. */
  ghost predicate Later(w: World, v: World) {
    && w.now <= v.now && w.sweptBefore == v.sweptBefore && v.spelled == w.spelled && w.noted <= v.noted
    && Grows(w.procs, v.procs)
    && (forall k :: k in v.disk ==> k in w.disk && v.disk[k] == w.disk[k])
    && (forall k :: k in w.disk && k !in v.disk ==> Prunable(w.disk[k], v.now))
    && v.starts == w.starts && v.bound == w.bound && v.known == w.known && v.sealed == w.sealed && v.swept == w.swept
    && v.logs == w.logs && v.metas == w.metas && v.cleaned == w.cleaned
  }

  lemma LaterIsBeside(w: World, v: World, key: Key, id: RunId)
    requires Later(w, v)
    ensures Beside(w, v, key, id) && w.noted <= v.noted
  {
  }

  lemma LaterTransitive(u: World, w: World, v: World)
    requires Later(u, w) && Later(w, v)
    ensures Later(u, v)
  {
  }

  lemma BesideTransitive(u: World, w: World, v: World, key: Key, id: RunId)
    requires Beside(u, w, key, id) && Beside(w, v, key, id)
    ensures Beside(u, v, key, id)
  {
    assert Grows(u.procs, v.procs);
    hide Grows;
  }

  lemma BesideKeepsRecord(w: World, v: World, key: Key, id: RunId, other: Key, rec: Record)
    requires Beside(w, v, key, id) && other != key && rec.id != id && ContinuesRun(w, other, rec)
    ensures ContinuesRun(v, other, rec)
  {
  }

  lemma LaterKeepsRecord(w: World, v: World, key: Key, rec: Record)
    requires Later(w, v) && ContinuesRun(w, key, rec)
    ensures ContinuesRun(v, key, rec)
  {
  }

  lemma LaterKeepsSavable(w: World, v: World, key: Key, rec: Record)
    requires Later(w, v) && Savable(w, key, rec)
    ensures Savable(v, key, rec)
  {
    if ContinuesRun(w, key, rec) {
      LaterKeepsRecord(w, v, key, rec);
    }
  }
}
