/** What a request saw and what it answers, over the actions of whole runs. What was noted while a request went on was so at
    that moment, and remote files that are gone do not come back. So a run whose log stays there is not given up, output of a
    running command shows the end of its log, and an answer that tells of a failure comes after one. */
module Sightings {
  import opened Text
  import opened RunWorld
  import opened RunSafety
  import opened BrokerState
  import opened BrokerFrames
  import opened BrokerSteps
  import opened Broker
  import opened RunLimits

  // ----- what was noted was so

  /** The world after some actions. */
  function After(run: seq<Action>): World {
    Play(EMPTY, run)
  }

  /** Between two points of a run something was noted, and it was so at that moment. */
  ghost predicate Met(from: seq<Action>, upto: seq<Action>, note: Note) {
    exists n: nat :: MetAt(from, upto, note, n)
  }

  ghost predicate MetAt(from: seq<Action>, upto: seq<Action>, note: Note, n: nat) {
    |from| <= n < |upto| && upto[n] == Notice(note) && Seen(After(upto[..n]), note)
  }

  lemma NotedByStep(w: World, a: Action)
    ensures Apply(w, a).noted == if a.Notice? then w.noted + [a.note] else w.noted
  {
  }

  lemma {:induction false} NotedGrows(from: seq<Action>, upto: seq<Action>)
    requires from <= upto
    ensures After(from).noted <= After(upto).noted
  {
    hide Apply;
    if from != upto {
      var most := upto[..|upto| - 1];
      NotedGrows(from, most);
      NotedByStep(After(most), upto[|upto| - 1]);
    } else {
      assert from == upto;
    }
  }

  lemma NotedNext(w: World, a: Action, note: Note)
    ensures Since(w, Apply(w, a), note) ==> a == Notice(note)
  {
    NotedByStep(w, a);
    hide Apply;
    if a.Notice? {
      assert (w.noted + [a.note])[|w.noted|..] == [a.note];
    } else {
      assert w.noted[|w.noted|..] == [];
    }
  }

  /** What was noted between two points of an allowed run was so at a moment between them. */
  lemma {:induction false} NotedIsMet(from: seq<Action>, upto: seq<Action>, note: Note)
    requires from <= upto && Playable(EMPTY, upto) && Since(After(from), After(upto), note)
    ensures Met(from, upto, note)
  {
    hide Apply, Times;
    TimesNone(After(from), note);
    if from == upto {
      assert false;
    }
    var most, last := upto[..|upto| - 1], upto[|upto| - 1];
    NotedGrows(from, most);
    assert upto == most + [last];
    NotedByStep(After(most), last);
    TimesAdd(After(from), After(most), After(upto), note);
    if Since(After(from), After(most), note) {
      NotedIsMet(from, most, note);
      var n: nat :| MetAt(from, most, note, n);
      assert most[..n] == upto[..n];
      assert MetAt(from, upto, note, n);
    } else {
      NotedNext(After(most), last, note);
      assert MetAt(from, upto, note, |most|);
    }
  }

  // ----- files and output over time

  lemma FilesNext(w: World, a: Action, id: RunId)
    requires Allowed(w, a) && id in w.files && id in w.procs
    ensures var v := Apply(w, a);
      id in v.files && (v.files[id].log ==> w.files[id].log)
  {
    hide Savable, Seen, StoredSince;
  }

  lemma OutputNext(w: World, a: Action, id: RunId)
    requires Allowed(w, a) && id in w.procs
    ensures var v := Apply(w, a);
      (Exited(w, id) ==> Exited(v, id)) && Written(w, id) <= Written(v, id)
  {
    hide Savable, Seen, StoredSince;
  }

  /** Files that are gone do not come back, an exit stays, and output is only added. */
  lemma {:induction false} FilesFade(from: seq<Action>, upto: seq<Action>, id: RunId)
    requires from <= upto && Playable(EMPTY, upto) && id in After(from).files
    ensures var w, v := After(from), After(upto);
      && id in v.files && (v.files[id].log ==> w.files[id].log)
      && (Exited(w, id) ==> Exited(v, id)) && Written(w, id) <= Written(v, id)
  {
    hide Apply, Allowed, Inv, Written;
    if from == upto {
      return;
    }
    var most := upto[..|upto| - 1];
    FilesFade(from, most, id);
    EmptyIsSafe();
    PlayKeeps(EMPTY, most);
    FilesOfLaunched(After(most), id);
    FilesNext(After(most), upto[|upto| - 1], id);
    OutputNext(After(most), upto[|upto| - 1], id);
  }

  /** A log that is there at both ends of a part of a run is there all the time. */
  lemma ThereAllTheTime(from: seq<Action>, upto: seq<Action>, n: nat, id: RunId)
    requires from <= upto && Playable(EMPTY, upto) && |from| <= n <= |upto|
    requires LogThere(After(from), id) && LogThere(After(upto), id)
    ensures var w, x, v := After(from), After(upto[..n]), After(upto);
      && LogThere(x, id) && Written(w, id) <= Written(x, id) <= Written(v, id)
      && (Exited(x, id) ==> Exited(v, id))
  {
    hide Play, Playable, Written;
    PlayablePrefix(EMPTY, upto, n);
    FilesFade(from, upto[..n], id);
    FilesFade(upto[..n], upto, id);
  }

  lemma NeverVanished(from: seq<Action>, upto: seq<Action>, id: RunId)
    requires from <= upto && Playable(EMPTY, upto) && LogThere(After(from), id) && LogThere(After(upto), id)
    ensures !Since(After(from), After(upto), Vanished(id))
    ensures Vanished(id) in After(upto).noted ==> Vanished(id) in After(from).noted
  {
    hide Play, Playable, Times;
    if Since(After(from), After(upto), Vanished(id)) {
      NotedIsMet(from, upto, Vanished(id));
      var n: nat :| MetAt(from, upto, Vanished(id), n);
      ThereAllTheTime(from, upto, n, id);
    }
    NotedGrows(from, upto);
    if Vanished(id) in After(upto).noted && Vanished(id) !in After(from).noted {
      NewlyNoted(After(from), After(upto), Vanished(id));
    }
  }

  lemma NewlyNoted(w: World, v: World, note: Note)
    requires w.noted <= v.noted && note in v.noted && note !in w.noted
    ensures Since(w, v, note)
  {
    assert v.noted == w.noted + v.noted[|w.noted|..];
  }

  // ----- runs that stay

  /** A run's log is there when a request begins and when it ends, and the run was never seen to be gone before. Then it is
      not given up and no answer tells that it is gone, whatever fails. */
  lemma RunsAreKept(h: Handling, id: RunId)
    requires Handled(h) && LogThere(After(h.from), id) && LogThere(After(h.upto), id)
    requires Vanished(id) !in After(h.from).noted
    ensures var v := After(h.upto);
      && Vanished(id) !in v.noted
      && (forall k :: k in v.disk && v.disk[k].id == id ==> v.disk[k].status != Expired && v.disk[k].status != Failed)
    ensures h.resp.Some? && About(h.resp.value) == Some(id) ==>
      !h.resp.value.RunExpired? && !h.resp.value.RunLost? && !h.resp.value.OutputUnavailable?
  {
    hide Play, Playable, Times, Carried, Inv, Handled, After;
    HandledFacts(h);
    NeverVanished(h.from, h.upto, id);
    NotGivenUp(After(h.upto), id);
    if h.resp.Some? && About(h.resp.value).Some? {
      GoneIsGrounded(After(h.from), After(h.upto), h.request, h.resp.value);
    }
  }

  lemma HandledFacts(h: Handling)
    requires Handled(h)
    ensures h.from <= h.upto && Playable(EMPTY, h.upto) && Playable(EMPTY, h.from)
    ensures Inv(After(h.from)) && Inv(After(h.upto)) && After(h.from).noted <= After(h.upto).noted
    ensures h.resp.Some? ==> Carried(After(h.from), After(h.upto), h.request, h.resp.value)
  {
    hide Inv, Carried, Apply, Allowed;
    EmptyIsSafe();
    PlayablePrefix(EMPTY, h.upto, |h.from|);
    assert h.upto[..|h.from|] == h.from;
    PlayKeeps(EMPTY, h.from);
    PlayKeeps(EMPTY, h.upto);
    NotedGrows(h.from, h.upto);
  }

  lemma NotGivenUp(w: World, id: RunId)
    requires Inv(w) && LogThere(w, id) && Vanished(id) !in w.noted
    ensures forall k :: k in w.disk && w.disk[k].id == id ==> w.disk[k].status != Expired && w.disk[k].status != Failed
  {
    hide KeysHeld, OpenStartsHeld, AtMostOnce, EventsBound, LogsFaithful, MetasFaithful, SealedStored, DoneRetained,
         RecordsSealed, OutcomesKnown, RecordsDated, RecordsBound, RecordsStarted, CleanedDone;
  }

  lemma GoneIsGrounded(w: World, v: World, request: Request, resp: Response)
    requires Carried(w, v, request, resp) && About(resp).Some?
    ensures resp.RunExpired? || resp.RunLost? ==> Vanished(resp.id) in v.noted
    ensures resp.OutputUnavailable? ==> Since(w, v, Vanished(resp.id))
  {
    hide Times, StartsAtMost, Moves, Clashes, Prunable, SpelledBy, IsDelta, IsTail, Grows, Quiet;
    if request.ExecRequest? && resp != Trouble("") {
      RepliesAbout(w, v, request.polls, resp.id, resp);
    }
  }

  // ----- a command that goes on

  /** What was met with while a run's log was there all the time and its command did not exit. */
  lemma GoesOnUnseen(from: seq<Action>, upto: seq<Action>, id: RunId)
    requires from <= upto && Playable(EMPTY, upto) && LogThere(After(from), id) && LogThere(After(upto), id)
    requires !Exited(After(upto), id)
    ensures var w, v := After(from), After(upto); !Since(w, v, Vanished(id)) && !Since(w, v, Ended(id))
  {
    hide Play, Playable, Times;
    NeverVanished(from, upto, id);
    if Since(After(from), After(upto), Ended(id)) {
      NotedIsMet(from, upto, Ended(id));
      var n: nat :| MetAt(from, upto, Ended(id), n);
      ThereAllTheTime(from, upto, n, id);
      PlayablePrefix(EMPTY, upto, n);
      EmptyIsSafe();
      PlayKeeps(EMPTY, upto[..n]);
      FilesOfLaunched(After(upto[..n]), id);
    }
  }

  /** Output never tells that a run is gone whose log is there before and after, unless it is on record as expired before;
      whatever was seen earlier. */
  lemma OutputKeeps(h: Handling, id: RunId, fp: Fingerprint, legacy: string)
    requires Handled(h) && h.request == OutputRequest(id, fp, legacy) && h.resp.Some?
    requires LogThere(After(h.from), id) && LogThere(After(h.upto), id) && !GivenUp(After(h.from).disk, id)
    ensures !h.resp.value.RunExpired? && !h.resp.value.RunLost? && !h.resp.value.OutputUnavailable?
  {
    hide Play, Playable, Times, Inv, Handled, After, GivenUp;
    HandledFacts(h);
    NeverVanished(h.from, h.upto, id);
    OutputGone(After(h.from), After(h.upto), id, fp, legacy, h.resp.value);
  }

  lemma OutputGone(w: World, v: World, id: RunId, fp: string, legacy: string, resp: Response)
    requires OutputDone(w, v, id, fp, legacy, resp) && !GivenUp(w.disk, id) && !Since(w, v, Vanished(id))
    ensures !resp.RunExpired? && !resp.RunLost? && !resp.OutputUnavailable?
  {
    hide Times, OnFile, ChangedRun, Lapses, IsTail, Failing;
  }

  /** The end of what a run had written at some moment of a request. */
  predicate TailBetween(w: World, v: World, id: RunId, tail: seq<byte>) {
    exists m: nat :: |Written(w, id)| <= m <= |Written(v, id)| && tail == Tail(Written(v, id)[..m])
  }

  lemma GlimpseIsTail(from: seq<Action>, upto: seq<Action>, id: RunId, tail: seq<byte>)
    requires from <= upto && Playable(EMPTY, upto) && LogThere(After(from), id) && LogThere(After(upto), id)
    requires Since(After(from), After(upto), Glimpsed(id, tail))
    ensures TailBetween(After(from), After(upto), id, tail)
  {
    hide Play, Playable, Times, Tail, Written;
    NotedIsMet(from, upto, Glimpsed(id, tail));
    var n: nat :| MetAt(from, upto, Glimpsed(id, tail), n);
    ThereAllTheTime(from, upto, n, id);
    var x := After(upto[..n]);
    assert Written(After(upto), id)[..|Written(x, id)|] == Written(x, id);
  }

  /** Output of a run on record whose command goes on, whose log stays there and whose connection is the same: the end of
      what it had written at some moment of the request, or the failure that was met with. */
  lemma OutputShowsTheEnd(h: Handling, id: RunId, fp: Fingerprint, legacy: string)
    requires Handled(h) && h.request == OutputRequest(id, fp, legacy) && h.resp.Some?
    requires var w, v := After(h.from), After(h.upto);
      && LogThere(w, id) && LogThere(v, id) && !Exited(v, id)
      && OnFile(w.disk, id) && !GivenUp(w.disk, id) && !ChangedRun(w.disk, id, fp, legacy)
    ensures var w, v, resp := After(h.from), After(h.upto), h.resp.value;
      || (resp.InProgress? && resp.id == id && TailBetween(w, v, id, resp.tail))
      || (resp == Trouble(id) && Failing(w, v))
  {
    hide Play, Playable, Times, Inv, Handled, After, ChangedRun, GivenUp, OnFile;
    HandledFacts(h);
    GoesOnUnseen(h.from, h.upto, id);
    NotStored(h.from, h.upto, id, fp);
    OutputOfRunning(After(h.from), After(h.upto), id, fp, legacy, h.resp.value);
    if h.resp.value.InProgress? {
      GlimpseIsTail(h.from, h.upto, id, h.resp.value.tail);
    }
  }

  /** Of a command that goes on nothing is stored, and its record is not to be pruned. */
  lemma NotStored(from: seq<Action>, upto: seq<Action>, id: RunId, fp: string)
    requires from <= upto && Playable(EMPTY, upto) && LogThere(After(from), id) && !Exited(After(upto), id)
    requires Inv(After(from))
    ensures id !in After(from).logs && forall at :: !Lapses(After(from).disk, id, fp, at)
  {
    FilesFade(from, upto, id);
    hide Play, Playable, KeysHeld, OpenStartsHeld, AtMostOnce, EventsBound, SealedStored, DoneRetained,
         RecordsSealed, RecordsDated, RecordsBound, RecordsStarted, CleanedDone, RetainedLog.Kept;
  }

  lemma OutputOfRunning(w: World, v: World, id: RunId, fp: string, legacy: string, resp: Response)
    requires OutputDone(w, v, id, fp, legacy, resp) && !Exited(v, id)
    requires !Since(w, v, Vanished(id)) && !Since(w, v, Ended(id)) && !Lapses(w.disk, id, fp, v.now)
    requires OnFile(w.disk, id) && !GivenUp(w.disk, id) && !ChangedRun(w.disk, id, fp, legacy) && id !in w.logs
    ensures (resp.InProgress? && resp.id == id && Since(w, v, Glimpsed(id, resp.tail)))
         || (resp == Trouble(id) && Failing(w, v))
  {
    hide Times, OnFile, GivenUp, ChangedRun, Lapses, IsTail, Failing;
  }

  /** Exec under a run key that no command spelled, for a started run whose record is too young to be pruned, whose command
      goes on, and whose log stays there and was never seen to be gone: what the run wrote from where it was, at least to
      where its log ended when the request began or as much as fits; or the failure that was met with; or a refusal. */
  lemma ExecTellsOn(h: Handling, k: string, command: string, fp: Fingerprint, legacy: string, polls: nat)
    requires Handled(h) && h.request == ExecRequest(Some(k), command, fp, legacy, polls) && h.resp.Some?
    requires var w, v, key := After(h.from), After(h.upto), Keyed(k);
      && Guarded(v.spelled, key) && Reserved(w, key, v.now)
      && var id := w.disk[key].id;
         LogThere(w, id) && LogThere(v, id) && !Exited(v, id) && Vanished(id) !in w.noted
    ensures var w, v, resp := After(h.from), After(h.upto), h.resp.value; var id := w.disk[Keyed(k)].id;
      || (resp.StillRunning? && resp.id == id && TellsOn(w, v, polls, resp))
      || ((resp == Trouble(id) || resp == Trouble("")) && Failing(w, v))
      || (resp == Conflict && Clashes(Migrated(w, fp, legacy), Some(k), command, fp))
  {
    hide Play, Playable, Times, Inv, Handled, After, Clashes, Failing, TellsOn, Prunable;
    HandledFacts(h);
    var w, v, resp := After(h.from), After(h.upto), h.resp.value;
    var id := w.disk[Keyed(k)].id;
    GoesOnUnseen(h.from, h.upto, id);
    NeverVanished(h.from, h.upto, id);
    OneKey(w, Keyed(k));
    ExecOfRunning(w, v, k, command, fp, legacy, polls, resp);
    if resp.StillRunning? {
      PartTellsOn(h.from, h.upto, polls, resp);
    }
  }

  /** The part is of the log, and full or not before the end that the log had. */
  ghost predicate TellsOn(w: World, v: World, polls: nat, resp: Response)
    requires resp.StillRunning?
  {
    && IsDelta(v, resp.id, resp.from, resp.delta)
    && (|resp.delta| == MAX_DELTA
        || (|Written(w, resp.id)| <= resp.from + |resp.delta| && Times(w, v, Unfinished(resp.id)) > polls))
  }

  lemma ExecOfRunning(w: World, v: World, k: string, command: string, fp: string, legacy: string, polls: nat,
                      resp: Response)
    requires ExecDone(w, v, Some(k), command, fp, legacy, polls, resp) && Guarded(v.spelled, Keyed(k))
    requires Reserved(w, Keyed(k), v.now) && w.disk[Keyed(k)].id in w.bound
    requires var id := w.disk[Keyed(k)].id;
      && !Exited(v, id) && Vanished(id) !in v.noted && !Since(w, v, Vanished(id)) && !Since(w, v, Ended(id))
    ensures var id := w.disk[Keyed(k)].id;
      || (resp.StillRunning? && resp.id == id && IsDelta(v, id, resp.from, resp.delta)
          && PartEnds(w, v, polls, id, resp.from + |resp.delta|, |resp.delta|))
      || ((resp == Trouble(id) || resp == Trouble("")) && Failing(w, v))
      || (resp == Conflict && Clashes(Migrated(w, fp, legacy), Some(k), command, fp))
  {
    hide Times, Clashes, Failing, IsDelta, IsTail, Prunable, Grows, PartEnds, StartsAtMost;
  }

  lemma PartTellsOn(from: seq<Action>, upto: seq<Action>, polls: nat, resp: Response)
    requires from <= upto && Playable(EMPTY, upto) && resp.StillRunning?
    requires LogThere(After(from), resp.id) && LogThere(After(upto), resp.id)
    requires PartEnds(After(from), After(upto), polls, resp.id, resp.from + |resp.delta|, |resp.delta|)
    requires IsDelta(After(upto), resp.id, resp.from, resp.delta)
    ensures TellsOn(After(from), After(upto), polls, resp)
  {
    hide Play, Playable, Times, IsDelta, Written;
    NeverVanished(from, upto, resp.id);
    var end := ReadTo(resp.id, resp.from + |resp.delta|);
    if Since(After(from), After(upto), end) {
      NotedIsMet(from, upto, end);
      var n: nat :| MetAt(from, upto, end, n);
      ThereAllTheTime(from, upto, n, resp.id);
    }
  }

  // ----- answers and what was met with

  ghost predicate FailureMet(h: Handling) {
    Met(h.from, h.upto, Unanswered) || Met(h.from, h.upto, Unsaved) || Met(h.from, h.upto, Unread)
  }

  /** An answer that tells of a failure, of files that are gone or of a log's end comes after it was met with. */
  lemma AnswersAreMet(h: Handling)
    requires Handled(h) && h.resp.Some?
    ensures match h.resp.value
      case Trouble(id) =>
        FailureMet(h) || (Met(h.from, h.upto, Ended(id)) && Met(h.from, h.upto, Unfinished(id)))
      case RetryFinalize(_) => FailureMet(h)
      case StartFailed(id) => Met(h.from, h.upto, Unsaved) || Met(h.from, h.upto, Unsent(id))
      case StartUncertain(id) => Met(h.from, h.upto, Unconfirmed(id))
      case OutputUnavailable(id, _) => Met(h.from, h.upto, Vanished(id))
      case RunLost(id) => Met(h.from, h.upto, Vanished(id))
      case InProgress(id, tail) => Met(h.from, h.upto, Glimpsed(id, tail))
      case RunExpired(id) => Met([], h.upto, Vanished(id))
      case _ => true
  {
    hide Play, Playable, Times, Inv, Handled, After, Met;
    HandledFacts(h);
    var resp := h.resp.value;
    CarriedGrounds(After(h.from), After(h.upto), h.request, resp);
    forall note | Since(After(h.from), After(h.upto), note) ensures Met(h.from, h.upto, note) {
      SinceIsMet(h.from, h.upto, note);
    }
    if resp.RunExpired? {
      EverNoted(h.upto, Vanished(resp.id));
    }
  }

  lemma SinceIsMet(from: seq<Action>, upto: seq<Action>, note: Note)
    requires from <= upto && Playable(EMPTY, upto) && Since(After(from), After(upto), note)
    ensures Met(from, upto, note)
  {
    NotedIsMet(from, upto, note);
  }

  lemma CarriedGrounds(w: World, v: World, request: Request, resp: Response)
    requires Carried(w, v, request, resp)
    ensures About(resp).Some? ==>
      (resp == Trouble("") && Failing(w, v)) || Grounded(w, v, if request.ExecRequest? then request.polls else 0, resp)
    ensures resp.RunExpired? ==> Vanished(resp.id) in v.noted
  {
    hide Times, StartsAtMost, Clashes, Prunable, SpelledBy, IsDelta, IsTail, Grows, Quiet, Grounded, OutputDone, Meant,
         Replies, Failing;
    match request
    case ExecRequest(runKey, command, _, _, polls) =>
      if resp != Conflict && Meant(w, v, KeyOf(runKey, command), polls, resp) {
        MeantReplies(w, v, KeyOf(runKey, command), polls, resp);
      }
    case OutputRequest(id, fp, legacy) =>
      OutputReplies(w, v, id, fp, legacy, 0, resp);
      if resp != Conflict {
        RepliesAbout(w, v, 0, id, resp);
      }
    case _ =>
  }

  lemma MeantReplies(w: World, v: World, key: Key, polls: nat, resp: Response)
    requires Meant(w, v, key, polls, resp)
    ensures About(resp).Some? && Truthful(v, resp) && Grounded(w, v, polls, resp)
  {
    hide Truthful, Grounded;
  }

  lemma EverNoted(run: seq<Action>, note: Note)
    requires Playable(EMPTY, run) && note in After(run).noted
    ensures Met([], run, note)
  {
    hide Playable, Apply, Times;
    assert After([]) == EMPTY;
    NewlyNoted(After([]), After(run), note);
    NotedIsMet([], run, note);
  }

  /** At any point of any run, a run is on record as expired only if its log was not there at some moment before. */
  lemma ExpiredWasGone(run: seq<Action>, key: Key)
    requires Playable(EMPTY, run) && key in After(run).disk && After(run).disk[key].status == Expired
    ensures exists n: nat :: n < |run| && !LogThere(After(run[..n]), After(run).disk[key].id)
  {
    hide Play, Playable, Apply, KeysHeld, OpenStartsHeld, AtMostOnce, EventsBound, LogsFaithful, MetasFaithful, SealedStored,
         DoneRetained, RecordsSealed, OutcomesKnown, RecordsDated, RecordsBound, RecordsStarted, CleanedDone;
    EmptyIsSafe();
    PlayKeeps(EMPTY, run);
    var id := After(run).disk[key].id;
    EverNoted(run, Vanished(id));
    var n: nat :| MetAt([], run, Vanished(id), n);
  }

  // ----- a launch that comes late

  /** A start whose reply is lost, and that is launched only after the run was seen not to be there. */
  function LaunchesLate(): seq<Action> {
    [Save(Keyed("k"), Recorded("k", "a", Starting, 0)), Send(Keyed("k"), DEPLOY), Notice(Vanished("a")), Launch("a")]
  }

  /** The worlds on the way. */
  function Late(n: nat): World {
    if n == 0 then EMPTY
    else if n == 1 then
      EMPTY.(disk := map[Keyed("k") := Recorded("k", "a", Starting, 0)], bound := map["a" := Keyed("k")])
    else if n == 2 then Late(1).(starts := map["a" := DEPLOY], events := [Sent(Keyed("k"), "a")])
    else if n == 3 then Late(2).(noted := [Vanished("a")])
    else
      Late(3).(procs := map["a" := Process(DEPLOY, [], None)], files := map["a" := Files(true, false)],
               events := [Sent(Keyed("k"), "a"), Launched(Keyed("k"), "a")])
  }

  function Expires(): Record {
    Recorded("k", "a", Status.Running, 0).(status := Expired)
  }

  lemma LateStep(n: nat)
    requires n < 4
    ensures Allowed(Late(n), LaunchesLate()[n]) && Apply(Late(n), LaunchesLate()[n]) == Late(n + 1)
  {
  }

  lemma {:induction false} LateReached(n: nat)
    requires n <= 4
    ensures Reaches(LaunchesLate()[..n], Late(n))
  {
    if n == 0 {
      return;
    }
    hide Reaches, Late;
    LateReached(n - 1);
    LateStep(n - 1);
    Extended(LaunchesLate()[..n - 1], Late(n - 1), LaunchesLate()[n - 1], LaunchesLate()[..n]);
  }

  lemma LateMayExpire()
    ensures Allowed(Late(4), Save(Keyed("k"), Expires()))
  {
  }

  lemma LateExpires()
    ensures Apply(Late(4), Save(Keyed("k"), Expires())) == Late(4).(disk := map[Keyed("k") := Expires()])
  {
  }

  /** The run is given up although its log is there before and after: that it was never seen to be gone before is needed. */
  lemma LateLaunchIsGivenUp()
    ensures var from, upto := LaunchesLate(), LaunchesLate() + [Save(Keyed("k"), Expires())];
      && Playable(EMPTY, upto) && LogThere(After(from), "a") && LogThere(After(upto), "a")
      && After(from).disk == map[Keyed("k") := Recorded("k", "a", Starting, 0)]
      && After(upto).disk == map[Keyed("k") := Expires()] && Expires().status == Expired
  {
    var from, last := LaunchesLate(), Save(Keyed("k"), Expires());
    assert LogThere(Late(4), "a") && Late(4).disk == map[Keyed("k") := Recorded("k", "a", Starting, 0)];
    LateReached(4);
    assert from[..4] == from;
    LateMayExpire();
    LateExpires();
    hide Reaches, Late, Apply, Allowed, Play, Playable;
    Extended(from, Late(4), last, from + [last]);
    ReachedPlay(from, Late(4));
    ReachedPlay(from + [last], Late(4).(disk := map[Keyed("k") := Expires()]));
  }
}
