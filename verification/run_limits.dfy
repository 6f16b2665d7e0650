/** Runs of the world that show where a promise ends: a run key whose registry key a command spells, and a stored log
    without its metadata. */
module RunLimits {
  import opened Text
  import opened RemoteExit
  import opened RunWorld
  import opened RunSafety
  import RetainedLog

  // ----- runs that go on

  ghost predicate Reaches(run: seq<Action>, w: World) {
    Playable(EMPTY, run) && Play(EMPTY, run) == w
  }

  lemma Extended(run: seq<Action>, w: World, a: Action, next: seq<Action>)
    requires Reaches(run, w) && Allowed(w, a) && next == run + [a]
    ensures Reaches(next, Apply(w, a))
  {
    hide Allowed, Apply;
    assert next[..|run|] == run;
  }

  lemma ReachedIsSafe(run: seq<Action>, w: World)
    requires Reaches(run, w)
    ensures Inv(w)
  {
    EmptyIsSafe();
    PlayKeeps(EMPTY, run);
  }

  const DEPLOY := Start("deploy", "fp")

  /** A record of `deploy` under run key k in the first second. */
  function Recorded(k: string, id: RunId, status: Status, exitCode: int): Record {
    Record(id, "deploy", Some(k), "fp", 1, 0, 1, 0, if status == Starting || status == Running then 0 else SECOND, 0, status,
           exitCode)
  }

  /** ensureJobStarted for a new run under run key k: it is recorded, its start is sent, and the host launches it. */
  function Begun(k: string, id: RunId): seq<Action> {
    [Save(Keyed(k), Recorded(k, id, Starting, 0)), Send(Keyed(k), DEPLOY), Launch(id)]
  }

  /** The world after that. */
  function Begin(w: World, k: string, id: RunId): World {
    w.(disk := w.disk[Keyed(k) := Recorded(k, id, Starting, 0)], bound := w.bound[id := Keyed(k)],
       starts := w.starts[id := DEPLOY], procs := w.procs[id := Process(DEPLOY, [], None)],
       files := w.files[id := Files(true, false)],
       events := w.events + [Sent(Keyed(k), id)] + [Launched(Keyed(k), id)])
  }

  lemma Begins(run: seq<Action>, w: World, k: string, id: RunId)
    requires Reaches(run, w) && Keyed(k) !in w.disk && id !in w.bound && w.now == SECOND
    ensures Reaches(run + Begun(k, id), Begin(w, k, id))
  {
    hide Inv, Reaches, Begin, Apply, Allowed;
    ReachedIsSafe(run, w);
    NewRunUnstarted(w, id);
    BeginSteps(w, k, id);
    BeginAllowed(w, k, id);
    var acts := Begun(k, id);
    Extended(run, w, acts[0], run + acts[..1]);
    var v := Apply(w, acts[0]);
    Extended(run + acts[..1], v, acts[1], run + acts[..2]);
    var u := Apply(v, acts[1]);
    Extended(run + acts[..2], u, acts[2], run + acts);
  }

  lemma BeginAllowed(w: World, k: string, id: RunId)
    requires Keyed(k) !in w.disk && id !in w.bound && w.now == SECOND && id !in w.starts && id !in w.procs
    ensures var acts := Begun(k, id);
      && Allowed(w, acts[0]) && Allowed(Apply(w, acts[0]), acts[1]) && Allowed(Apply(Apply(w, acts[0]), acts[1]), acts[2])
  {
  }

  lemma BeginSteps(w: World, k: string, id: RunId)
    ensures var acts := Begun(k, id); Apply(Apply(Apply(w, acts[0]), acts[1]), acts[2]) == Begin(w, k, id)
  {
  }

  lemma NewRunUnstarted(w: World, id: RunId)
    requires Inv(w) && id !in w.bound
    ensures id !in w.starts && id !in w.procs
  {
    hide KeysHeld, OpenStartsHeld, AtMostOnce, EventsBound, LogsFaithful, MetasFaithful, SealedStored, DoneRetained;
  }

  /** The outcome of a run: its command exits, and its exit, its metadata and its log are stored. */
  function Finalized(k: string, id: RunId, code: int): seq<Action> {
    [Finish(id, Exit(code, None, 0)), Save(Keyed(k), Recorded(k, id, FinalizePending, code)),
     SaveMeta(id, Meta(code, SECOND, SECOND, 0)), SaveLog(id)]
  }

  /** The world after that. */
  function Finalize(w: World, k: string, id: RunId, code: int): World
    requires id in w.files
  {
    w.(procs := w.procs[id := Process(DEPLOY, [], Some(Exit(code, None, 0)))],
       files := w.files[id := w.files[id].(rc := true)],
       disk := w.disk[Keyed(k) := Recorded(k, id, FinalizePending, code)], bound := w.bound[id := Keyed(k)],
       known := w.known + {id}, metas := w.metas[id := Stored(Meta(code, SECOND, SECOND, 0), SECOND)],
       logs := w.logs[id := Stored(RetainedLog.Kept([]), SECOND)])
  }

  /** The run is launched and has not exited. */
  ghost predicate Awaits(w: World, k: string, id: RunId) {
    && w.now == SECOND && id !in w.sealed && id !in w.known && id in w.files
    && id in w.procs && w.procs[id] == Process(DEPLOY, [], None) && id in w.starts && w.starts[id] == DEPLOY
    && id in w.bound && w.bound[id] == Keyed(k)
    && Keyed(k) in w.disk && w.disk[Keyed(k)] == Recorded(k, id, Starting, 0)
  }

  lemma Finalizes(run: seq<Action>, w: World, k: string, id: RunId, code: int)
    requires Reaches(run, w) && Awaits(w, k, id)
    ensures Reaches(run + Finalized(k, id, code), Finalize(w, k, id, code))
  {
    hide Inv, Reaches, RetainedLog.Kept, Finalize;
    FinalizeSteps(w, k, id, code);
    var acts := Finalized(k, id, code);
    Extended(run, w, acts[0], run + acts[..1]);
    var v := Apply(w, acts[0]);
    Extended(run + acts[..1], v, acts[1], run + acts[..2]);
    var u := Apply(v, acts[1]);
    Extended(run + acts[..2], u, acts[2], run + acts[..3]);
    var t := Apply(u, acts[2]);
    Extended(run + acts[..3], t, acts[3], run + acts);
  }

  lemma FinalizeSteps(w: World, k: string, id: RunId, code: int)
    requires Awaits(w, k, id)
    ensures var acts := Finalized(k, id, code);
      Apply(Apply(Apply(Apply(w, acts[0]), acts[1]), acts[2]), acts[3]) == Finalize(w, k, id, code)
  {
    hide RetainedLog.Kept;
  }

  // ----- a command that spells a run key

  /** Between two starts, or two launches, under a run key its done record was pruned. */
  ghost predicate OnceUnder(events: seq<Event>, key: Key) {
    forall i, j :: 0 <= i < j < |events| && SameKind(events[i], events[j]) && events[i].key == key == events[j].key ==>
      PrunedBetween(events, i, j, key)
  }

  /** A request without a run key for the command that is RUN_KEY, a zero byte and k asks for the registry key of run key k.
      It makes no conflict check (server.go:485-513), attaches to the run of k, and removes its record when it is done
      (server.go:291-297). */
  function SpelledDone(k: string): seq<Action> {
    Begun(k, "a") + [Spell(Keyed(k))] + Finalized(k, "a", 0) + [Save(Keyed(k), Recorded(k, "a", Done, 0))] + [Drop(Keyed(k))]
  }

  /** The next request with run key k finds no record and launches the command again. */
  function SpelledRun(k: string): seq<Action> {
    SpelledDone(k) + Begun(k, "b")
  }

  lemma SpelledAttaches(k: string)
    ensures var w := Begin(EMPTY, k, "a").(spelled := {Keyed(k)});
      Reaches(Begun(k, "a") + [Spell(Keyed(k))], w) && Awaits(w, k, "a")
  {
    var none: seq<Action> := [];
    assert Reaches(none, EMPTY);
    hide Reaches;
    Begins(none, EMPTY, k, "a");
    assert none + Begun(k, "a") == Begun(k, "a");
    Extended(Begun(k, "a"), Begin(EMPTY, k, "a"), Spell(Keyed(k)), Begun(k, "a") + [Spell(Keyed(k))]);
    assert Apply(Begin(EMPTY, k, "a"), Spell(Keyed(k))) == Begin(EMPTY, k, "a").(spelled := {Keyed(k)});
  }

  lemma SpelledRecordGoes(k: string) returns (w: World)
    ensures Reaches(SpelledDone(k), w) && w.spelled == {Keyed(k)} && Keyed(k) !in w.disk && "b" !in w.bound && w.now == SECOND
    ensures w.events == [Sent(Keyed(k), "a"), Launched(Keyed(k), "a")]
  {
    hide Inv, Reaches, RetainedLog.Kept, Awaits;
    SpelledAttaches(k);
    var run, v := Begun(k, "a") + [Spell(Keyed(k))], Begin(EMPTY, k, "a").(spelled := {Keyed(k)});
    Finalizes(run, v, k, "a", 0);
    run, v := run + Finalized(k, "a", 0), Finalize(v, k, "a", 0);
    SealAndDrop(run, v, k, "a");
    w := Apply(Apply(v, Save(Keyed(k), Recorded(k, "a", Done, 0))), Drop(Keyed(k)));
  }

  lemma SpelledLaunchesTwice(k: string)
    ensures Playable(EMPTY, SpelledRun(k))
    ensures var w := Play(EMPTY, SpelledRun(k));
      && w.spelled == {Keyed(k)} && !OnceUnder(w.events, Keyed(k))
      && w.events == [Sent(Keyed(k), "a"), Launched(Keyed(k), "a"), Sent(Keyed(k), "b"), Launched(Keyed(k), "b")]
  {
    hide Inv, Reaches, Play, Playable;
    var w := SpelledRecordGoes(k);
    Begins(SpelledDone(k), w, k, "b");
    ReachedPlay(SpelledRun(k), Begin(w, k, "b"));
    assert SameKind(Begin(w, k, "b").events[1], Begin(w, k, "b").events[3]);
  }

  lemma ReachedPlay(run: seq<Action>, w: World)
    requires Reaches(run, w)
    ensures Playable(EMPTY, run) && Play(EMPTY, run) == w
  {
  }

  lemma SealAndDrop(run: seq<Action>, w: World, k: string, id: RunId)
    requires Reaches(run, w) && w.now == SECOND && Keyed(k) in w.spelled
    requires Keyed(k) in w.disk && w.disk[Keyed(k)] == Recorded(k, id, FinalizePending, 0)
    requires id in w.logs && id in w.metas && w.logs[id].modified == SECOND && w.metas[id].modified == SECOND
    ensures var done := Save(Keyed(k), Recorded(k, id, Done, 0));
      Reaches(run + [done] + [Drop(Keyed(k))], Apply(Apply(w, done), Drop(Keyed(k))))
  {
    hide Reaches;
    var done := Save(Keyed(k), Recorded(k, id, Done, 0));
    DoneIsAllowed(run, w, k, id, 0);
    Extended(run, w, done, run + [done]);
    Extended(run + [done], Apply(w, done), Drop(Keyed(k)), run + [done] + [Drop(Keyed(k))]);
  }

  lemma DoneIsAllowed(run: seq<Action>, w: World, k: string, id: RunId, code: int)
    requires Reaches(run, w) && w.now == SECOND
    requires Keyed(k) in w.disk && w.disk[Keyed(k)] == Recorded(k, id, FinalizePending, code)
    requires id in w.logs && id in w.metas && w.logs[id].modified == SECOND && w.metas[id].modified == SECOND
    ensures Allowed(w, Save(Keyed(k), Recorded(k, id, Done, code)))
  {
    ReachedIsSafe(run, w);
    hide Reaches, KeysHeld, OpenStartsHeld, AtMostOnce, EventsBound, LogsFaithful, MetasFaithful, SealedStored, DoneRetained,
         FilesKept, StartsBound;
  }

  /** At most once, exactly: whatever else happens, a run key is started and launched once until its done record is pruned
      if and only if no command spells its registry key. */
  lemma OnceExactly(k: string, spelled: set<Key>)
    ensures Keyed(k) !in spelled <==>
            forall run :: Playable(EMPTY, run) && Play(EMPTY, run).spelled <= spelled ==>
              OnceUnder(Play(EMPTY, run).events, Keyed(k))
  {
    hide Play, Playable, OnceUnder;
    SpelledLaunchesTwice(k);
    if Keyed(k) !in spelled {
      forall run | Playable(EMPTY, run) && Play(EMPTY, run).spelled <= spelled
        ensures OnceUnder(Play(EMPTY, run).events, Keyed(k))
      {
        UnspelledOnce(run, k);
      }
    } else {
      assert Playable(EMPTY, SpelledRun(k)) && Play(EMPTY, SpelledRun(k)).spelled <= spelled;
    }
  }

  lemma UnspelledOnce(run: seq<Action>, k: string)
    requires Playable(EMPTY, run) && Keyed(k) !in Play(EMPTY, run).spelled
    ensures OnceUnder(Play(EMPTY, run).events, Keyed(k))
  {
    hide Play, Playable;
    assert run[..|run|] == run;
    AtMostOnceAlways(run, |run|);
  }

  // ----- a stored log without metadata

  /** What output answers for a stored log: the status is the command's if and only if the metadata is there or the command
      exited with 0; and a run whose metadata is missing was not durably done, or lost a file to the local sweep. */
  lemma StatusExact(run: seq<Action>, id: RunId)
    requires Playable(EMPTY, run) && id in Play(EMPTY, run).logs
    ensures var w := Play(EMPTY, run);
      && Exited(w, id)
      && (ToldStatus(w, id) == w.procs[id].exit.value.code <==> id in w.metas || w.procs[id].exit.value.code == 0)
      && (id !in w.metas ==> id !in w.sealed || id in w.swept)
  {
    hide KeysHeld, OpenStartsHeld, AtMostOnce, EventsBound, FilesKept, DoneRetained, RetainedLog.Kept;
    ReachedIsSafe(run, Play(EMPTY, run));
  }

  /** A run that failed and is answered with success. */
  predicate FailedAnswersSuccess(w: World, id: RunId) {
    id in w.logs && Exited(w, id) && w.procs[id].exit.value.code != 0 && ToldStatus(w, id) == 0
  }

  /** The done record of a run cannot be saved, so the run is finalized again; now its log cannot be written, and its
      metadata is removed while the first log stays (run_output.go:165-188). */
  function RewriteFails(code: int): seq<Action> {
    Begun("k", "a") + Finalized("k", "a", code) + [SaveMeta("a", Meta(code, SECOND, SECOND, 0))] + [RemoveMeta("a")]
  }

  /** A done run's files are older than a day, and the sweep removes the metadata but not the log. */
  function SweepParts(code: int): seq<Action> {
    Begun("k", "a") + Finalized("k", "a", code) + [Save(Keyed("k"), Recorded("k", "a", Done, code))]
    + [Tick(2 * SECOND + TTL)] + [SweepLocal(2 * SECOND, {}, {"a"})]
  }

  lemma RunsToFinalized(code: int)
    ensures Reaches(Begun("k", "a") + Finalized("k", "a", code), Finalize(Begin(EMPTY, "k", "a"), "k", "a", code))
  {
    var none: seq<Action> := [];
    assert Reaches(none, EMPTY);
    hide Reaches, RetainedLog.Kept;
    Begins(none, EMPTY, "k", "a");
    assert none + Begun("k", "a") == Begun("k", "a");
    Finalizes(Begun("k", "a"), Begin(EMPTY, "k", "a"), "k", "a", code);
  }

  lemma RewriteFailsAnswersSuccess(code: int)
    requires code != 0
    ensures Playable(EMPTY, RewriteFails(code)) && FailedAnswersSuccess(Play(EMPTY, RewriteFails(code)), "a")
    ensures "a" !in Play(EMPTY, RewriteFails(code)).sealed
  {
    hide Reaches, RetainedLog.Kept;
    RunsToFinalized(code);
    var run, w := Begun("k", "a") + Finalized("k", "a", code), Finalize(Begin(EMPTY, "k", "a"), "k", "a", code);
    var meta := SaveMeta("a", Meta(code, SECOND, SECOND, 0));
    Extended(run, w, meta, run + [meta]);
    Extended(run + [meta], Apply(w, meta), RemoveMeta("a"), run + [meta] + [RemoveMeta("a")]);
    ReachedPlay(RewriteFails(code), Apply(Apply(w, meta), RemoveMeta("a")));
  }

  lemma SweepPartsAnswersSuccess(code: int)
    requires code != 0
    ensures Playable(EMPTY, SweepParts(code)) && FailedAnswersSuccess(Play(EMPTY, SweepParts(code)), "a")
    ensures "a" in Play(EMPTY, SweepParts(code)).sealed
  {
    hide Reaches, RetainedLog.Kept;
    RunsToFinalized(code);
    var run, w := Begun("k", "a") + Finalized("k", "a", code), Finalize(Begin(EMPTY, "k", "a"), "k", "a", code);
    var done := Save(Keyed("k"), Recorded("k", "a", Done, code));
    DoneIsAllowed(run, w, "k", "a", code);
    Extended(run, w, done, run + [done]);
    var v, later := Apply(w, done), Tick(2 * SECOND + TTL);
    Extended(run + [done], v, later, run + [done] + [later]);
    var sweep := SweepLocal(2 * SECOND, {}, {"a"});
    Extended(run + [done] + [later], Apply(v, later), sweep, run + [done] + [later] + [sweep]);
    ReachedPlay(SweepParts(code), Apply(Apply(v, later), sweep));
  }

  // ----- an offset that is not saved

  /** A run that is recorded as running and writes a part. The save that would follow the telling of the part does not happen:
      finishJobPoll only logs its failure (jobs.go:369-370). */
  function Lagging(part: seq<byte>): seq<Action> {
    Begun("k", "a") + [Save(Keyed("k"), Recorded("k", "a", Running, 0))] + [Write("a", part)]
  }

  lemma RecordsRunning()
    ensures var running := Save(Keyed("k"), Recorded("k", "a", Running, 0));
      Reaches(Begun("k", "a") + [running],
              Begin(EMPTY, "k", "a").(disk := map[Keyed("k") := Recorded("k", "a", Running, 0)]))
  {
    var none: seq<Action> := [];
    assert Reaches(none, EMPTY);
    hide Reaches;
    Begins(none, EMPTY, "k", "a");
    var run, w := Begun("k", "a"), Begin(EMPTY, "k", "a");
    assert none + run == run;
    var running := Save(Keyed("k"), Recorded("k", "a", Running, 0));
    Extended(run, w, running, run + [running]);
    assert Apply(w, running) == w.(disk := map[Keyed("k") := Recorded("k", "a", Running, 0)]);
  }

  /** In this world the record is behind what was written. */
  predicate Lags(w: World, part: seq<byte>) {
    && w.disk == map[Keyed("k") := Recorded("k", "a", Running, 0)] && w.bound == map["a" := Keyed("k")]
    && w.procs == map["a" := Process(DEPLOY, part, None)]
  }

  lemma RunsUnsaved(part: seq<byte>)
    ensures Playable(EMPTY, Lagging(part)) && Lags(Play(EMPTY, Lagging(part)), part)
  {
    hide Reaches, Play, Playable;
    RecordsRunning();
    var running := Save(Keyed("k"), Recorded("k", "a", Running, 0));
    var w := Begin(EMPTY, "k", "a").(disk := map[Keyed("k") := Recorded("k", "a", Running, 0)]);
    Extended(Begun("k", "a") + [running], w, Write("a", part), Lagging(part));
    assert [] + part == part;
    ReachedPlay(Lagging(part), Apply(w, Write("a", part)));
  }
}
