/**
 The output that the requests of one broker lifetime tell of a run while it goes on. Each answer is a part of the run's
 log; the parts follow each other without a gap and without a repetition, from where the run was when the lifetime began,
 unless the run fell back to the offset on record.
 */
module Conversation {
  import opened Text
  import opened RunWorld
  import opened RunSafety
  import opened BrokerState
  import opened BrokerFrames
  import opened BrokerSteps
  import opened Broker
  import opened RunLimits

  /** An answered request: the fingerprint before it, where all runs were before and after it, whether it dropped the jobs in
      memory, and whether a local write failed meanwhile. */
  datatype Turn =
    Turn(request: Request, resp: Response, fingerprint: string, before: Places, after: Places, dropped: bool, failed: bool)
  {
    predicate Tells(id: RunId) {
      resp.StillRunning? && resp.id == id
    }

    /** The jobs are dropped only by a close, and by a request that finds the connection with another fingerprint. */
    predicate DropsRightly() {
      dropped ==> !request.RestartRequest? && (request.CloseRequest? || request.fingerprint != fingerprint)
    }

    /** Exec goes on with the run of its command or run key that goes on, unless it is refused or the connection cannot be
        loaded. */
    predicate Attends() {
      request.ExecRequest? && !dropped && resp != Conflict && resp != Trouble("") ==>
        var key := KeyOf(request.runKey, request.command);
        key in before && before[key].Live? ==> About(resp) == Some(before[key].id)
    }
  }

  /** A job that had told more than its record says left memory before its run was over: the jobs of the connection were
      dropped, by a close or for another fingerprint, or this one was let go. Its run goes on from the offset on record. */
  ghost predicate FellBack(turn: Turn, id: RunId) {
    exists k: Key :: k in turn.before && k in turn.after &&
      turn.before[k].Live? && turn.before[k].id == id && turn.before[k].saved < turn.before[k].offset &&
      (turn.dropped || !(turn.after[k].Live? && turn.after[k].id == id))
  }

  /** Where the last answer about a run ended. */
  ghost function ToldTo(log: seq<Turn>, id: RunId, origin: nat): nat {
    if log == [] then origin
    else if Last(log).Tells(id) then Last(log).resp.from + |Last(log).resp.delta|
    else ToldTo(Front(log), id, origin)
  }

  /** The run fell back since the last answer about it. */
  ghost predicate Behind(log: seq<Turn>, id: RunId) {
    log != [] && !Last(log).Tells(id) && (Behind(Front(log), id) || FellBack(Last(log), id))
  }

  ghost predicate NeverFell(log: seq<Turn>, id: RunId) {
    forall turn :: turn in log ==> !FellBack(turn, id)
  }

  /** All that was told of a run. */
  ghost function Collected(log: seq<Turn>, id: RunId): seq<byte> {
    if log == [] then []
    else Collected(Front(log), id) + if Last(log).Tells(id) then Last(log).resp.delta else []
  }

  function Last(log: seq<Turn>): Turn
    requires log != []
  {
    log[|log| - 1]
  }

  function Front(log: seq<Turn>): seq<Turn>
    requires log != []
  {
    log[..|log| - 1]
  }

  /** Where a run was when the lifetime began: at the offset on record, or at its beginning. */
  ghost function Origin(p: Places, bound: map<RunId, Key>, id: RunId): nat {
    if id in bound && bound[id] in p && Has(p[bound[id]], id) then Base(p[bound[id]], id, false) else 0
  }

  /** The answers about a run join: each begins where the last one ended, or before it, and before it exactly when the run
      fell back in between. */
  ghost predicate Joins(log: seq<Turn>, id: RunId, origin: nat) {
    forall n :: 0 <= n < |log| && log[n].Tells(id) ==>
      && log[n].resp.from <= ToldTo(log[..n], id, origin)
      && (log[n].resp.from == ToldTo(log[..n], id, origin) <==> !Behind(log[..n], id) && !FellBack(log[n], id))
  }

  // ----- one more turn

  /** Every run is under the key of its id, and a job's record is not ahead of it. */
  ghost predicate Kept(p: Places, bound: map<RunId, Key>) {
    forall k: Key :: k in p && !p[k].Gone? ==>
      p[k].id in bound && bound[p[k].id] == k && (p[k].Live? ==> p[k].saved <= p[k].offset)
  }

  /** A run is where the last answer about it ended, or before that when it fell back since; a run without an id was not
      told of. */
  ghost predicate Tracked(p: Places, log: seq<Turn>, bound: map<RunId, Key>, id: RunId, origin: nat) {
    && (forall k: Key :: k in p && Has(p[k], id) ==>
          && Base(p[k], id, false) <= ToldTo(log, id, origin)
          && (Base(p[k], id, false) == ToldTo(log, id, origin) <==> !Behind(log, id)))
    && (id !in bound ==> ToldTo(log, id, origin) == 0 && !Behind(log, id))
  }

  lemma FellAt(turn: Turn, bound: map<RunId, Key>, k: Key, id: RunId)
    requires Kept(turn.before, bound) && k in turn.before && k in turn.after && Has(turn.before[k], id)
    ensures FellBack(turn, id) <==>
            && turn.before[k].Live? && turn.before[k].saved < turn.before[k].offset
            && (turn.dropped || !(turn.after[k].Live? && turn.after[k].id == id))
  {
    if FellBack(turn, id) {
      var l: Key :| l in turn.before && l in turn.after && turn.before[l].Live? && turn.before[l].id == id
        && turn.before[l].saved < turn.before[l].offset && (turn.dropped || !(turn.after[l].Live? && turn.after[l].id == id));
      assert l == bound[id] == k;
    }
  }

  lemma NotThereNeverFalls(turn: Turn, bound: map<RunId, Key>, id: RunId)
    requires Kept(turn.before, bound) && id !in bound
    ensures !FellBack(turn, id)
  {
  }

  /** A run goes on from where its last answer ended, or from before that when it fell back since. */
  lemma NextBase(log: seq<Turn>, turn: Turn, bound: map<RunId, Key>, k: Key, id: RunId, origin: nat)
    requires Kept(turn.before, bound) && Tracked(turn.before, log, bound, id, origin)
    requires k in turn.before && k in turn.after
    requires Moved(turn.before[k], turn.after[k], ToldBy(turn.resp), turn.dropped, bound)
    requires Has(turn.after[k], id) && (turn.Tells(id) ==> turn.after[k].Live?)
    ensures var at := if turn.after[k].Live? then Base(turn.before[k], id, turn.dropped) else turn.after[k].saved;
      && at <= ToldTo(log, id, origin)
      && (at == ToldTo(log, id, origin) <==> !Behind(log, id) && !FellBack(turn, id))
  {
    if Has(turn.before[k], id) {
      FellAt(turn, bound, k, id);
      assert Base(turn.before[k], id, false) <= ToldTo(log, id, origin);
    } else {
      NotThereNeverFalls(turn, bound, id);
    }
  }

  /** A turn as the broker takes it. */
  ghost predicate Took(turn: Turn, bound: map<RunId, Key>, more: map<RunId, Key>) {
    && (forall k: Key :: k in turn.before && k in turn.after)
    && Kept(turn.before, bound) && Kept(turn.after, more) && bound.Keys <= more.Keys
    && Moves(turn.before, turn.after, ToldBy(turn.resp), turn.dropped, bound)
    && (turn.resp.StillRunning? ==>
          exists k: Key ::
            && k in turn.after && turn.after[k].Live? && turn.after[k].id == turn.resp.id
            && (turn.failed || turn.after[k].saved == turn.after[k].offset))
  }

  /** The record of every job has the job's offset, unless a local write failed. */
  ghost predicate InStep(p: Places, failed: bool) {
    forall k: Key :: k in p && p[k].Live? ==> failed || p[k].saved == p[k].offset
  }

  predicate Failed(log: seq<Turn>) {
    exists i :: 0 <= i < |log| && log[i].failed
  }

  lemma TurnInStep(turn: Turn, bound: map<RunId, Key>, more: map<RunId, Key>, failed: bool)
    requires Took(turn, bound, more) && InStep(turn.before, failed)
    ensures InStep(turn.after, failed || turn.failed)
    ensures forall id :: FellBack(turn, id) ==> failed
  {
    forall k: Key | k in turn.after && turn.after[k].Live?
      ensures failed || turn.failed || turn.after[k].saved == turn.after[k].offset
    {
      TurnMoves(turn, bound, more, k);
      if turn.resp.StillRunning? && turn.after[k].id == turn.resp.id {
        ToldIsThere(turn, bound, more, turn.resp.id);
      }
    }
  }

  lemma FailedOnce(log: seq<Turn>, turn: Turn)
    ensures Failed(log + [turn]) <==> Failed(log) || turn.failed
  {
    var more := log + [turn];
    assert more[|log|] == turn;
    if Failed(log) {
      var i :| 0 <= i < |log| && log[i].failed;
      assert more[i] == log[i];
    }
  }

  /** A run falls back only after a local write failed. */
  ghost predicate FallsAfterFailure(log: seq<Turn>) {
    forall i, id :: 0 <= i < |log| && FellBack(log[i], id) ==> Failed(log[..i])
  }

  lemma FallsOnce(log: seq<Turn>, turn: Turn)
    requires FallsAfterFailure(log) && forall id :: FellBack(turn, id) ==> Failed(log)
    ensures FallsAfterFailure(log + [turn])
  {
    hide FellBack, Failed;
    var more := log + [turn];
    forall i, id | 0 <= i < |more| && FellBack(more[i], id) ensures Failed(more[..i]) {
      if i < |log| {
        assert more[i] == log[i] && more[..i] == log[..i];
      } else {
        assert more[..i] == log;
      }
    }
  }

  lemma ToldIsThere(turn: Turn, bound: map<RunId, Key>, more: map<RunId, Key>, id: RunId)
    requires Took(turn, bound, more) && turn.Tells(id)
    ensures id in more && turn.after[more[id]].Live? && turn.after[more[id]].id == id
    ensures turn.failed || turn.after[more[id]].saved == turn.after[more[id]].offset
    ensures forall k: Key :: k in turn.after && Has(turn.after[k], id) ==> k == more[id]
  {
    hide Moves;
    var k: Key :| k in turn.after && turn.after[k].Live? && turn.after[k].id == id
      && (turn.failed || turn.after[k].saved == turn.after[k].offset);
  }

  lemma TurnTracked(log: seq<Turn>, turn: Turn, bound: map<RunId, Key>, more: map<RunId, Key>, id: RunId, origin: nat)
    requires Took(turn, bound, more) && Tracked(turn.before, log, bound, id, origin)
    ensures Tracked(turn.after, log + [turn], more, id, origin)
    ensures turn.Tells(id) ==>
      && turn.resp.from <= ToldTo(log, id, origin)
      && (turn.resp.from == ToldTo(log, id, origin) <==> !Behind(log, id) && !FellBack(turn, id))
  {
    assert Front(log + [turn]) == log && Last(log + [turn]) == turn;
    if turn.Tells(id) {
      ToldIsThere(turn, bound, more, id);
      TurnMoves(turn, bound, more, more[id]);
      NextBase(log, turn, bound, more[id], id, origin);
    }
    forall k: Key | k in turn.after && Has(turn.after[k], id)
      ensures Base(turn.after[k], id, false) <= ToldTo(log + [turn], id, origin)
      ensures Base(turn.after[k], id, false) == ToldTo(log + [turn], id, origin) <==> !Behind(log + [turn], id)
    {
      TurnMoves(turn, bound, more, k);
      NextBase(log, turn, bound, k, id, origin);
    }
    if id !in more {
      NotThereNeverFalls(turn, bound, id);
    }
  }

  lemma TurnMoves(turn: Turn, bound: map<RunId, Key>, more: map<RunId, Key>, k: Key)
    requires Took(turn, bound, more)
    ensures k in turn.before && k in turn.after
    ensures Moved(turn.before[k], turn.after[k], ToldBy(turn.resp), turn.dropped, bound)
  {
    hide Moved;
  }

  lemma JoinedOnce(log: seq<Turn>, turn: Turn, id: RunId, origin: nat)
    requires Joins(log, id, origin)
    requires turn.Tells(id) ==>
      && turn.resp.from <= ToldTo(log, id, origin)
      && (turn.resp.from == ToldTo(log, id, origin) <==> !Behind(log, id) && !FellBack(turn, id))
    ensures Joins(log + [turn], id, origin)
  {
    hide FellBack;
    var more := log + [turn];
    forall n | 0 <= n < |more| && more[n].Tells(id)
      ensures more[n].resp.from <= ToldTo(more[..n], id, origin)
      ensures more[n].resp.from == ToldTo(more[..n], id, origin) <==> !Behind(more[..n], id) && !FellBack(more[n], id)
    {
      if n < |log| {
        assert more[..n] == log[..n] && more[n] == log[n];
      } else {
        assert more[..n] == log && more[n] == turn;
      }
    }
  }

  // ----- what was told, put together

  lemma {:induction false} NeverBehind(log: seq<Turn>, id: RunId)
    requires NeverFell(log, id)
    ensures !Behind(log, id)
  {
    if log != [] {
      NeverBehind(Front(log), id);
    }
  }

  /** When a run never fell back, all that was told of it is its log from where it was when the lifetime began. */
  lemma {:induction false} CollectedIsLog(w: World, log: seq<Turn>, id: RunId, origin: nat)
    requires Joins(log, id, origin) && NeverFell(log, id)
    requires forall turn :: turn in log && turn.Tells(id) ==> IsDelta(w, id, turn.resp.from, turn.resp.delta)
    ensures origin + |Collected(log, id)| == ToldTo(log, id, origin)
    ensures Collected(log, id) != [] ==> IsDelta(w, id, origin, Collected(log, id))
  {
    hide FellBack, IsDelta;
    if log != [] {
      var front, last := Front(log), Last(log);
      assert Joins(front, id, origin) by {
        forall n | 0 <= n < |front| && front[n].Tells(id) ensures front[..n] == log[..n] && front[n] == log[n] {
        }
      }
      CollectedIsLog(w, front, id, origin);
      NeverBehind(front, id);
      if last.Tells(id) {
        assert log[..|log| - 1] == front && last in log;
        if Collected(front, id) == [] {
          assert [] + last.resp.delta == last.resp.delta;
        } else {
          DeltaAppend(w, id, origin, Collected(front, id), last.resp.delta);
        }
      } else {
        assert Collected(front, id) + [] == Collected(front, id);
      }
    }
  }

  // ----- the requests of a lifetime

  /** One request of a lifetime. */
  method Answer(s: Server, request: Request) returns (life: Life, resp: Response, ghost turn: Turn)
    requires s.Ready() && !request.RestartRequest?
    modifies s, s.jobs.Values
    ensures s.Reached()
    ensures life.Alive? ==> s.Ready() && fresh(s.jobs.Values - old(s.jobs.Values)) && Truthful(s.world, resp)
    ensures life.Alive? ==> Grows(old(s.world.procs), s.world.procs)
    ensures life.Alive? ==>
      && turn.request == request && turn.resp == resp && turn.fingerprint == old(s.fingerprint)
      && turn.before == old(s.Everywhere()) && turn.after == s.Everywhere() && turn.DropsRightly()
      && turn.Attends() && turn.failed == Since(old(s.world), s.world, Unsaved) && old(s.world.noted) <= s.world.noted
      && Took(turn, old(s.world.bound), s.world.bound)
  {
    hide Inv, ContinuesRun, Job.Sound, Moves, Server.At, Truthful, StartsAtMost, Grows, Prunable, Rebindable, PlaceFrom,
         Quiet, Server.Ready, Server.Reached, Kept, Since, Failing, ExecDone, OutputDone,
         AboutRecord, Server.Watching, RunWorld.RebindAll;
    ghost var fingerprint, before := s.fingerprint, s.Everywhere();
    turn := Turn(request, Closed, fingerprint, before, before, false, false);
    resp := Closed;
    EverywhereKept(s);
    match request {
      case ExecRequest(runKey, command, fp, legacy, polls) =>
        WatchedPlace(s, KeyOf(runKey, command));
        resp :- s.Exec(runKey, command, fp, legacy, polls);
        ExecTells(old(s.world), s.world, runKey, command, fp, legacy, polls, resp);
      case OutputRequest(id, fp, legacy) =>
        resp :- s.Output(id, fp, legacy);
        QuietFacts(old(s.world), s.world);
        OutputReplies(old(s.world), s.world, id, fp, legacy, 0, resp);
      case CloseRequest =>
        s.Close();
        ClosedGrows(s.world);
    }
    EverywhereKept(s);
    s.ReadyReached();
    turn := Turn(request, resp, fingerprint, before, s.Everywhere(), s.Dropped(fingerprint),
                   Since(old(s.world), s.world, Unsaved));
    return Alive, resp, turn;
  }

  lemma WatchedPlace(s: Server, key: Key)
    ensures s.At(key).Live? ==> s.Watching(key) == Some(s.At(key).id)
  {
  }

  lemma ExecTells(w: World, v: World, runKey: Option<string>, command: string, fp: string, legacy: string, polls: nat,
                  resp: Response)
    requires ExecDone(w, v, runKey, command, fp, legacy, polls, resp)
    ensures Truthful(v, resp) && Grows(w.procs, v.procs) && w.bound.Keys <= v.bound.Keys && w.noted <= v.noted
  {
    hide Truthful, Grows, Meant, Clashes, Failing;
  }

  lemma EverywhereKept(s: Server)
    requires s.Ready()
    ensures Kept(s.Everywhere(), s.world.bound) && forall k: Key :: k in s.Everywhere()
  {
    s.ReadyPlaces();
    hide Server.Ready;
  }

  /** The requests of one broker lifetime, in any order and about any runs. Each part that an answer tells of a run begins
      where the last part ended, unless the run fell back since: then, and only then, it begins before that. It falls back only
      after a local write failed. A run that did not exist when the lifetime began is told from its beginning; what is told of
      a run that never fell back is its log, without a gap and without a repetition. A crash ends the lifetime. */
  method Converse(s: Server, requests: seq<Request>) returns (life: Life, answers: seq<Response>, ghost log: seq<Turn>)
    requires s.Ready() && s.jobs == map[] && forall i :: 0 <= i < |requests| ==> !requests[i].RestartRequest?
    modifies s, s.jobs.Values
    ensures s.Reached()
    ensures |answers| == |log| <= |requests| && (life.Alive? ==> s.Ready() && |log| == |requests|)
    ensures forall i :: 0 <= i < |log| ==>
      log[i].request == requests[i] && log[i].resp == answers[i] && log[i].DropsRightly() && log[i].Attends()
    ensures FallsAfterFailure(log) && (life.Alive? && Failed(log) ==> Since(old(s.world), s.world, Unsaved))
    ensures Chained(log, old(s.Everywhere()))
    ensures forall id :: Joins(log, id, Origin(old(s.Everywhere()), old(s.world.bound), id))
    ensures forall id :: id !in old(s.world.bound) ==> Origin(old(s.Everywhere()), old(s.world.bound), id) == 0
    ensures life.Alive? ==> forall i :: 0 <= i < |log| && answers[i].StillRunning? ==>
      IsDelta(s.world, answers[i].id, answers[i].from, answers[i].delta)
    ensures life.Alive? ==> forall id ::
      NeverFell(log, id) && Collected(log, id) != [] ==>
        IsDelta(s.world, id, Origin(old(s.Everywhere()), old(s.world.bound), id), Collected(log, id))
  {
    hide Inv, ContinuesRun, Job.Sound, Server.At, Truthful, Grows, PlaceFrom, Server.Ready, Server.Reached, Kept, Took,
         Tracked, Joins, IsDelta, Collected, NeverFell, Chained, Now,
         Since, InStep, FallsAfterFailure, FellBack, Failed;
    ghost var start, bound := s.Everywhere(), s.world.bound;
    life, answers, log := Alive, [], [];
    s.ReadyReached();
    EverywhereKept(s);
    StartTracked(s, start, bound);
    NothingJoins(start, bound);
    StartInStep(s);
    for n := 0 to |requests|
      invariant s.Ready() && fresh(s.jobs.Values - old(s.jobs.Values)) && |answers| == |log| == n
      invariant forall i :: 0 <= i < n ==>
        log[i].request == requests[i] && log[i].resp == answers[i] && log[i].DropsRightly() && log[i].Attends()
      invariant FallsAfterFailure(log) && InStep(s.Everywhere(), Failed(log)) && old(s.world.noted) <= s.world.noted
      invariant Failed(log) ==> Since(old(s.world), s.world, Unsaved)
      invariant Chained(log, start) && s.Everywhere() == Now(log, start)
      invariant forall id :: Tracked(s.Everywhere(), log, s.world.bound, id, Origin(start, bound, id))
      invariant forall id :: Joins(log, id, Origin(start, bound, id))
      invariant forall i :: 0 <= i < n && answers[i].StillRunning? ==>
        IsDelta(s.world, answers[i].id, answers[i].from, answers[i].delta)
    {
      ghost var w := s.world;
      s.ReadyReached();
      var alive, resp; ghost var turn;
      alive, resp, turn := Answer(s, requests[n]);
      if alive.Crashed? {
        return Crashed, answers, log;
      }
      ChainedOnce(log, turn, start);
      TurnInStep(turn, w.bound, s.world.bound, Failed(log));
      FallsOnce(log, turn);
      FailedOnce(log, turn);
      if Failed(log) || turn.failed {
        SinceThen(old(s.world), w, s.world, Unsaved);
      }
      forall id
        ensures Tracked(s.Everywhere(), log + [turn], s.world.bound, id, Origin(start, bound, id))
        ensures Joins(log + [turn], id, Origin(start, bound, id))
      {
        TurnTracked(log, turn, w.bound, s.world.bound, id, Origin(start, bound, id));
        JoinedOnce(log, turn, id, Origin(start, bound, id));
      }
      forall i | 0 <= i < n && answers[i].StillRunning?
        ensures IsDelta(s.world, answers[i].id, answers[i].from, answers[i].delta)
      {
        GrownDelta(w, s.world, answers[i].id, answers[i].from, answers[i].delta);
      }
      if resp.StillRunning? {
        RunningDelta(s.world, resp);
      }
      answers, log := answers + [resp], log + [turn];
    }
    s.ReadyReached();
    forall id | NeverFell(log, id) && Collected(log, id) != []
      ensures IsDelta(s.world, id, Origin(start, bound, id), Collected(log, id))
    {
      CollectedIsLog(s.world, log, id, Origin(start, bound, id));
    }
  }

  /** Where the runs are after some turns. */
  ghost function Now(log: seq<Turn>, start: Places): Places {
    if log == [] then start else Last(log).after
  }

  /** Each request finds the runs where the one before left them. */
  ghost predicate Chained(log: seq<Turn>, start: Places) {
    forall i :: 0 <= i < |log| ==> log[i].before == Now(log[..i], start)
  }

  lemma ChainedOnce(log: seq<Turn>, turn: Turn, start: Places)
    requires Chained(log, start) && turn.before == Now(log, start)
    ensures Chained(log + [turn], start) && Now(log + [turn], start) == turn.after
  {
    var more := log + [turn];
    forall i | 0 <= i < |more| ensures more[i].before == Now(more[..i], start) {
      if i < |log| {
        assert more[i] == log[i] && more[..i] == log[..i];
      } else {
        assert more[..i] == log;
      }
    }
  }

  lemma StartTracked(s: Server, start: Places, bound: map<RunId, Key>)
    requires s.Ready() && s.jobs == map[] && start == s.Everywhere() && bound == s.world.bound
    ensures forall id :: Tracked(start, [], bound, id, Origin(start, bound, id))
  {
    EverywhereKept(s);
    hide Server.Ready;
  }

  lemma StartInStep(s: Server)
    requires s.Ready() && s.jobs == map[]
    ensures InStep(s.Everywhere(), Failed([])) && FallsAfterFailure([]) && !Failed([])
  {
    hide Server.Ready;
  }

  lemma NothingJoins(start: Places, bound: map<RunId, Key>)
    ensures forall id :: Joins([], id, Origin(start, bound, id))
    ensures Chained([], start) && Now([], start) == start
  {
  }

  lemma ClosedGrows(w: World)
    ensures Grows(w.procs, w.procs) && Truthful(w, Closed)
  {
  }

  // ----- a run that falls back

  /** Where all runs are when the run of run key k has this job, or none. */
  ghost function PlacesIn(w: World, job: Option<(RunId, nat)>): Places {
    imap k: Key | true :: PlaceIn(w, job, k)
  }

  function PlaceIn(w: World, job: Option<(RunId, nat)>, k: Key): Place {
    PlaceFrom(if k == Keyed("k") then job else None, w.disk, k)
  }

  /** In a world where the new offset was not saved: a part is told and consumed, the connection is closed, and the next
      request finds the offset on record and tells the same part again. */
  ghost function ClosedUnsaved(w: World, part: seq<byte>): seq<Turn> {
    var exec := ExecRequest(Some("k"), "deploy", "fp", "", 0);
    [Turn(exec, StillRunning("a", 0, part), "fp", PlacesIn(w, Some(("a", 0))), PlacesIn(w, Some(("a", |part|))), false,
          true),
     Turn(CloseRequest, Closed, "fp", PlacesIn(w, Some(("a", |part|))), PlacesIn(w, None), true, false),
     Turn(exec, StillRunning("a", 0, part), "", PlacesIn(w, None), PlacesIn(w, Some(("a", |part|))), false,
          true)]
  }

  lemma PlaceOfLag(w: World, part: seq<byte>, job: Option<(RunId, nat)>, k: Key)
    requires Lags(w, part)
    ensures k in PlacesIn(w, job)
    ensures PlacesIn(w, job)[k]
         == if k != Keyed("k") then Gone
            else if job.None? then Filed("a", 0) else Live(job.value.0, job.value.1, 0)
  {
    assert PlacesIn(w, job)[k] == PlaceIn(w, job, k);
  }

  lemma LagTook(w: World, turn: Turn, part: seq<byte>, job: Option<(RunId, nat)>, next: Option<(RunId, nat)>)
    requires Lags(w, part) && turn.before == PlacesIn(w, job) && turn.after == PlacesIn(w, next)
    requires (job.Some? ==> job.value.0 == "a") && (next.Some? ==> next.value.0 == "a")
    requires turn.resp.StillRunning? ==> next.Some? && turn.resp.id == "a" && turn.failed
    requires next.Some? ==>
      && ToldBy(turn.resp) == Some(Told("a", 0, next.value.1)) && (job.Some? ==> job.value.1 == 0) && !turn.dropped
    ensures Took(turn, w.bound, w.bound)
  {
    hide PlacesIn;
    forall k: Key
      ensures k in turn.before && k in turn.after
      ensures Moved(turn.before[k], turn.after[k], ToldBy(turn.resp), turn.dropped, w.bound)
      ensures !turn.before[k].Gone? ==> k == Keyed("k") && turn.before[k].id == "a"
      ensures !turn.after[k].Gone? ==> k == Keyed("k") && turn.after[k].id == "a"
      ensures turn.before[k].Live? ==> turn.before[k].saved == 0
      ensures turn.after[k].Live? ==> turn.after[k].saved == 0
    {
      PlaceOfLag(w, part, job, k);
      PlaceOfLag(w, part, next, k);
    }
    hide Moved;
    PlaceOfLag(w, part, next, Keyed("k"));
  }

  lemma LagTakes(w: World, part: seq<byte>)
    requires Lags(w, part)
    ensures var log := ClosedUnsaved(w, part);
      && Took(log[0], w.bound, w.bound) && Took(log[1], w.bound, w.bound) && Took(log[2], w.bound, w.bound)
  {
    hide Took, PlacesIn, Lags;
    var log := ClosedUnsaved(w, part);
    LagTook(w, log[0], part, Some(("a", 0)), Some(("a", |part|)));
    LagTook(w, log[1], part, Some(("a", |part|)), None);
    LagTook(w, log[2], part, None, Some(("a", |part|)));
  }

  lemma LagFalls(w: World, part: seq<byte>)
    requires Lags(w, part) && part != []
    ensures var log := ClosedUnsaved(w, part);
      Chained(log, log[0].before) && FellBack(log[1], "a") && Collected(log, "a") == part + part
  {
    hide PlacesIn;
    var log := ClosedUnsaved(w, part);
    PlaceOfLag(w, part, Some(("a", |part|)), Keyed("k"));
    PlaceOfLag(w, part, None, Keyed("k"));
    hide Lags;
    assert log[..2][..1] == log[..1] && log[..1][..0] == [];
    assert log == log[..2] + [log[2]] && log[..2] == log[..1] + [log[1]] && log[..1] == [log[0]];
    OneMore(log[..2], log[2], "a");
    OneMore(log[..1], log[1], "a");
    OneMore([], log[0], "a");
    assert [] + [log[0]] == log[..1] && [] + part + [] == part;
  }

  lemma OneMore(log: seq<Turn>, turn: Turn, id: RunId)
    ensures Collected(log + [turn], id) == Collected(log, id) + if turn.Tells(id) then turn.resp.delta else []
  {
    assert Front(log + [turn]) == log;
  }

  /** The world behind these turns is reached by allowed actions, the part is the run's log there, the answers are true, and
      the places are those of its registry with the job that tells the part and without it. */
  lemma FallsBackAfterClose(part: seq<byte>)
    requires 0 < |part| <= MAX_DELTA
    ensures Playable(EMPTY, Lagging(part))
    ensures var w := Play(EMPTY, Lagging(part)); var log := ClosedUnsaved(w, part);
      && Lags(w, part) && IsDelta(w, "a", 0, part)
      && Chained(log, log[0].before)
      && (forall turn :: turn in log ==> Took(turn, w.bound, w.bound) && turn.DropsRightly() && Truthful(w, turn.resp))
      && FellBack(log[1], "a") && Collected(log, "a") == part + part
  {
    RunsUnsaved(part);
    hide Play, Playable, Lagging, Took, PlacesIn, Chained, FellBack, Collected;
    var w := Play(EMPTY, Lagging(part));
    LagTakes(w, part);
    LagFalls(w, part);
    RunningIsTruthful(w, "a", 0, part);
    ClosedGrows(w);
  }
}
