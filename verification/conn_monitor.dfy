/**
 The warm connection of one saved connection: a monitor with a dialing flag, whose dials run outside its lock. Any number
 of threads call connFor, prepareEntry, resetConn and closeOne; they interleave at the points where the lock is free.
 */
module ConnMonitor {
  import opened Text

  type Thread = nat
  type ConnId = nat

  /** What a connection is dialed from. */
  datatype Snapshot = Snapshot(fingerprint: string, target: string)

  /** The fields under the lock. */
  datatype Shared = Shared(
    fingerprint: string, snapshot: Snapshot, conn: Option<ConnId>, target: string, dialing: bool, closed: bool,
    swept: bool)

  /** Where a thread is, the lock being free. */
  datatype Phase =
    | Away
    | Wanting(fp: Fingerprint)
    | Waiting(fp: Fingerprint)
    | Dialing(fp: Fingerprint, from: Snapshot)
    | Dialed(fp: Fingerprint, from: Snapshot, conn: ConnId)
    | NotDialed(fp: Fingerprint, from: Snapshot)
    | Using(conn: ConnId)
    | Closing(conn: ConnId)
  {
    predicate InDial() { Dialing? || Dialed? || NotDialed? }
    predicate Owns(c: ConnId) { (Dialed? || Closing?) && conn == c }
  }

  type Threads = map<Thread, Phase>

  datatype State = State(e: Shared, threads: Threads, dialed: map<ConnId, Snapshot>, shut: set<ConnId>)

  const NEW := State(Shared("", Snapshot("", ""), None, "", false, false, false), map[], map[], {})

  function PhaseOf(threads: Threads, t: Thread): Phase {
    if t in threads then threads[t] else Away
  }

  // ----- the locked regions

  /** The first locked region of connFor. */
  function LookAt(e: Shared, fp: Fingerprint): (Shared, Phase) {
    if e.closed || e.fingerprint != fp then (e, Away)
    else if e.conn.Some? then (e.(swept := true), Using(e.conn.value))
    else if e.dialing then (e, Waiting(fp))
    else (e.(dialing := true), Dialing(fp, e.snapshot))
  }

  /** The second locked region of connFor, after the dial. */
  function InstallAt(e: Shared, p: Phase): (Shared, Phase)
    requires p.Dialed? || p.NotDialed?
  {
    var f := e.(dialing := false);
    if p.NotDialed? then (f, Away)
    else if e.closed || e.fingerprint != p.fp then (f, Closing(p.conn))
    else (f.(conn := Some(p.conn), target := p.from.target, swept := true), Using(p.conn))
  }

  function Taken(conn: Option<ConnId>): Phase {
    if conn.Some? then Closing(conn.value) else Away
  }

  function ResetAt(e: Shared): (Shared, Phase) {
    (e.(conn := None), Taken(e.conn))
  }

  function PrepareAt(e: Shared, snapshot: Snapshot): (Shared, Phase) {
    if e.fingerprint == "" || e.fingerprint == snapshot.fingerprint then
      (e.(fingerprint := snapshot.fingerprint, snapshot := snapshot), Away)
    else
      (e.(conn := None, target := "", fingerprint := snapshot.fingerprint, snapshot := snapshot, swept := false),
       Taken(e.conn))
  }

  function CloseAt(e: Shared): (Shared, Phase) {
    (e.(conn := None, closed := true), Taken(e.conn))
  }

  // ----- the steps of any number of threads

  datatype Step =
    | Want(fp: Fingerprint)
    | Look
    | EndDial(conn: Option<ConnId>)
    | Install
    | Reset
    | Prepare(snapshot: Snapshot)
    | Close
    | Shut
    | Leave

  predicate Free(p: Phase) {
    p.Away? || p.Using?
  }

  predicate Enabled(s: State, t: Thread, step: Step) {
    var p := PhaseOf(s.threads, t);
    match step
    case Want(_) => Free(p)
    case Look => p.Wanting?
    case EndDial(conn) => p.Dialing? && (conn.Some? ==> conn.value !in s.dialed)
    case Install => p.Dialed? || p.NotDialed?
    case Reset => Free(p)
    case Prepare(snapshot) => Free(p) && snapshot.fingerprint != ""
    case Close => Free(p)
    case Shut => p.Closing?
    case Leave => p.Using?
  }

  /** Broadcast: every thread that waits goes back to the top of its loop. */
  function Awake(threads: Threads): Threads {
    map t | t in threads :: if threads[t].Waiting? then Wanting(threads[t].fp) else threads[t]
  }

  function Next(s: State, t: Thread, step: Step): State
    requires Enabled(s, t, step)
  {
    var p := PhaseOf(s.threads, t);
    match step
    case Want(fp) => s.(threads := s.threads[t := Wanting(fp)])
    case Look =>
      var r := LookAt(s.e, p.fp);
      s.(e := r.0, threads := s.threads[t := r.1])
    case EndDial(conn) =>
      (match conn
       case Some(c) => s.(threads := s.threads[t := Dialed(p.fp, p.from, c)], dialed := s.dialed[c := p.from])
       case None => s.(threads := s.threads[t := NotDialed(p.fp, p.from)]))
    case Install =>
      var r := InstallAt(s.e, p);
      s.(e := r.0, threads := Awake(s.threads)[t := r.1])
    case Reset =>
      var r := ResetAt(s.e);
      s.(e := r.0, threads := s.threads[t := r.1])
    case Prepare(snapshot) =>
      var r := PrepareAt(s.e, snapshot);
      s.(e := r.0, threads := s.threads[t := r.1])
    case Close =>
      var r := CloseAt(s.e);
      s.(e := r.0, threads := Awake(s.threads)[t := r.1])
    case Shut => s.(threads := s.threads[t := Away], shut := s.shut + {p.conn})
    case Leave => s.(threads := s.threads[t := Away])
  }

  // ----- what every interleaving keeps

  /** A held connection was not closed by any of the four operations, was dialed from a snapshot with the current
      fingerprint, and is in no thread's hands. */
  predicate HeldCurrent(e: Shared, threads: Threads, dialed: map<ConnId, Snapshot>, shut: set<ConnId>) {
    e.conn.Some? ==>
      && !e.closed && !e.dialing && e.fingerprint != ""
      && e.conn.value in dialed && dialed[e.conn.value].fingerprint == e.fingerprint
      && e.target == dialed[e.conn.value].target
      && e.conn.value !in shut
      && forall t :: t in threads ==> !threads[t].Owns(e.conn.value)
  }

  /** At most one dial is in flight, exactly when the flag says so, and it started from the wanted fingerprint. */
  predicate OneDial(e: Shared, threads: Threads, dialed: map<ConnId, Snapshot>) {
    && e.snapshot.fingerprint == e.fingerprint
    && (forall t :: t in threads && threads[t].InDial() ==> e.dialing && threads[t].from.fingerprint == threads[t].fp)
    && (forall t :: t in threads && threads[t].Dialed? ==>
          threads[t].conn in dialed && dialed[threads[t].conn] == threads[t].from)
    && (forall t, u :: t in threads && u in threads && threads[t].InDial() && threads[u].InDial() ==> t == u)
    && (e.dialing ==> Dialer(threads))
  }

  predicate Dialer(threads: Threads) {
    exists t :: t in threads && threads[t].InDial()
  }

  /** Nobody sleeps unless a dial is in flight, whose end wakes everybody. */
  predicate WaitersWake(e: Shared, threads: Threads) {
    forall t :: t in threads && threads[t].Waiting? ==> e.dialing
  }

  /** A connection that is in a thread's hands is in one thread's hands only, and is not closed. */
  predicate OneOwner(threads: Threads, dialed: map<ConnId, Snapshot>, shut: set<ConnId>) {
    && shut <= dialed.Keys
    && (forall t :: t in threads && (threads[t].Dialed? || threads[t].Closing?) ==>
          threads[t].conn in dialed && threads[t].conn !in shut)
    && (forall t, u :: t in threads && u in threads && t != u && (threads[t].Dialed? || threads[t].Closing?) ==>
          !threads[u].Owns(threads[t].conn))
  }

  predicate InHands(threads: Threads, c: ConnId) {
    exists t :: t in threads && threads[t].Owns(c)
  }

  /** No connection is leaked: every one ever dialed is held, in a thread's hands, or closed. */
  predicate NoLeak(e: Shared, threads: Threads, dialed: map<ConnId, Snapshot>, shut: set<ConnId>) {
    forall c :: c in dialed ==> c in shut || e.conn == Some(c) || InHands(threads, c)
  }

  predicate Inv(s: State) {
    && HeldCurrent(s.e, s.threads, s.dialed, s.shut)
    && OneDial(s.e, s.threads, s.dialed)
    && WaitersWake(s.e, s.threads)
    && OneOwner(s.threads, s.dialed, s.shut)
    && NoLeak(s.e, s.threads, s.dialed, s.shut)
  }

  lemma HandsElsewhere(threads: Threads, more: Threads, t: Thread, c: ConnId)
    requires InHands(threads, c) && !PhaseOf(threads, t).Owns(c)
    requires forall u :: u in threads && u != t ==> u in more && (threads[u].Owns(c) ==> more[u].Owns(c))
    ensures InHands(more, c)
  {
    var u :| u in threads && threads[u].Owns(c);
    assert more[u].Owns(c);
  }

  lemma HandsOf(threads: Threads, t: Thread, c: ConnId)
    requires t in threads && threads[t].Owns(c)
    ensures InHands(threads, c)
  {
  }

  lemma NextLeaksNothing(s: State, t: Thread, step: Step)
    requires Inv(s) && Enabled(s, t, step)
    ensures var n := Next(s, t, step); NoLeak(n.e, n.threads, n.dialed, n.shut)
  {
    var n := Next(s, t, step);
    forall c | c in n.dialed ensures c in n.shut || n.e.conn == Some(c) || InHands(n.threads, c) {
      if PhaseOf(n.threads, t).Owns(c) {
        HandsOf(n.threads, t, c);
      } else if InHands(s.threads, c) && !PhaseOf(s.threads, t).Owns(c) {
        HandsElsewhere(s.threads, n.threads, t, c);
      }
    }
  }

  lemma NextDialsOnce(s: State, t: Thread, step: Step)
    requires Inv(s) && Enabled(s, t, step)
    ensures var n := Next(s, t, step); OneDial(n.e, n.threads, n.dialed)
  {
    hide Inv, OneDial, Next, Enabled;
    if step.Install? {
      InstallEndsDial(s, t);
    } else {
      OtherDialsOnce(s, t, step);
    }
  }

  lemma OtherDialsOnce(s: State, t: Thread, step: Step)
    requires Inv(s) && Enabled(s, t, step) && !step.Install?
    ensures var n := Next(s, t, step); OneDial(n.e, n.threads, n.dialed)
  {
    hide NoLeak, OneOwner, WaitersWake;
    NextDials(s, t, step);
    hide Dialer;
  }

  lemma InstallEndsDial(s: State, t: Thread)
    requires Inv(s) && Enabled(s, t, Install)
    ensures var n := Next(s, t, Install); OneDial(n.e, n.threads, n.dialed)
  {
    hide NoLeak, OneOwner, WaitersWake, HeldCurrent;
  }

  lemma NextDials(s: State, t: Thread, step: Step)
    requires Inv(s) && Enabled(s, t, step)
    ensures var n := Next(s, t, step); n.e.dialing ==> Dialer(n.threads)
  {
    hide NoLeak, OneOwner, WaitersWake, HeldCurrent;
    var n := Next(s, t, step);
    if n.e.dialing && s.e.dialing {
      var u :| u in s.threads && s.threads[u].InDial();
      assert n.threads[u].InDial();
    } else if n.e.dialing {
      assert n.threads[t].InDial();
    }
  }

  lemma NextWakes(s: State, t: Thread, step: Step)
    requires Inv(s) && Enabled(s, t, step)
    ensures var n := Next(s, t, step); WaitersWake(n.e, n.threads)
  {
    hide NoLeak, HeldCurrent, OneOwner, OneDial;
  }

  lemma NextHoldsCurrent(s: State, t: Thread, step: Step)
    requires Inv(s) && Enabled(s, t, step)
    ensures var n := Next(s, t, step); HeldCurrent(n.e, n.threads, n.dialed, n.shut)
  {
    hide NoLeak, WaitersWake;
  }

  lemma NextOwnsOnce(s: State, t: Thread, step: Step)
    requires Inv(s) && Enabled(s, t, step)
    ensures var n := Next(s, t, step); OneOwner(n.threads, n.dialed, n.shut)
  {
    hide Inv, OneOwner, Next, Enabled;
    if step.Install? {
      InstallOwnsOnce(s, t);
    } else {
      OtherOwnsOnce(s, t, step);
    }
  }

  lemma OtherOwnsOnce(s: State, t: Thread, step: Step)
    requires Inv(s) && Enabled(s, t, step) && !step.Install?
    ensures var n := Next(s, t, step); OneOwner(n.threads, n.dialed, n.shut)
  {
    hide NoLeak, WaitersWake, OneDial;
  }

  lemma InstallOwnsOnce(s: State, t: Thread)
    requires Inv(s) && Enabled(s, t, Install)
    ensures var n := Next(s, t, Install); OneOwner(n.threads, n.dialed, n.shut)
  {
    hide NoLeak, WaitersWake, OneDial, HeldCurrent;
  }

  lemma NextKeeps(s: State, t: Thread, step: Step)
    requires Inv(s) && Enabled(s, t, step)
    ensures Inv(Next(s, t, step))
  {
    hide NoLeak, HeldCurrent, OneOwner, OneDial, WaitersWake;
    NextLeaksNothing(s, t, step);
    NextDialsOnce(s, t, step);
    NextWakes(s, t, step);
    NextHoldsCurrent(s, t, step);
    NextOwnsOnce(s, t, step);
  }

  /** A step of thread t that may be taken in state s. */
  datatype Turn = Turn(t: Thread, step: Step)

  function Play(s: State, turns: seq<Turn>): State {
    if turns == [] then s else
      var before := Play(s, turns[..|turns| - 1]);
      var last := turns[|turns| - 1];
      if Enabled(before, last.t, last.step) then Next(before, last.t, last.step) else before
  }

  /** After any interleaving of any number of threads: a held connection was dialed from the current fingerprint, a
      closed entry holds none, at most one dial is in flight, and every connection ever dialed is held, in exactly one
      thread's hands, or closed, and only one of these. */
  lemma {:induction false} EveryInterleaving(turns: seq<Turn>)
    ensures Inv(Play(NEW, turns))
  {
    hide Next, Enabled;
    if turns != [] {
      hide Inv;
      EveryInterleaving(turns[..|turns| - 1]);
      var before := Play(NEW, turns[..|turns| - 1]);
      var last := turns[|turns| - 1];
      if Enabled(before, last.t, last.step) {
        NextKeeps(before, last.t, last.step);
      }
    }
  }

  lemma ClosedKeeps(s: State, t: Thread, step: Step)
    requires Inv(s) && s.e.closed && Enabled(s, t, step)
    ensures Next(s, t, step).e.closed
  {
    hide Inv;
  }

  /** Once an entry is closed it stays closed and empty; when no thread is still at work on a connection of its own, every
      connection ever dialed for it is closed. */
  lemma {:induction false} ClosedStaysEmpty(s: State, turns: seq<Turn>)
    requires Inv(s) && s.e.closed
    ensures var n := Play(s, turns);
      && Inv(n) && n.e.closed && n.e.conn == None
      && ((forall t :: t in n.threads ==> !n.threads[t].Dialed? && !n.threads[t].Closing?) ==> n.shut == n.dialed.Keys)
  {
    hide Next, Enabled;
    if turns != [] {
      ClosedStaysEmpty(s, turns[..|turns| - 1]);
      var before := Play(s, turns[..|turns| - 1]);
      var last := turns[|turns| - 1];
      if Enabled(before, last.t, last.step) {
        NextKeeps(before, last.t, last.step);
        ClosedKeeps(before, last.t, last.step);
      }
    }
    var n := Play(s, turns);
    if forall t :: t in n.threads ==> !n.threads[t].Dialed? && !n.threads[t].Closing? {
      AllShut(n);
    }
  }

  lemma AllShut(s: State)
    requires Inv(s) && s.e.conn == None
    requires forall t :: t in s.threads ==> !s.threads[t].Dialed? && !s.threads[t].Closing?
    ensures s.shut == s.dialed.Keys
  {
    forall c | c in s.dialed ensures c in s.shut {
      assert !InHands(s.threads, c);
    }
  }

  /** A sleeping thread is never forgotten: some thread is dialing, and whatever it does next, the end of its dial puts
      every sleeper back to the top of its loop. */
  lemma SleepersAreWoken(s: State, sleeper: Thread)
    requires Inv(s) && PhaseOf(s.threads, sleeper).Waiting?
    ensures exists t :: t in s.threads && s.threads[t].InDial()
    ensures forall t :: t in s.threads && Enabled(s, t, Install) ==>
      PhaseOf(Next(s, t, Install).threads, sleeper) == Wanting(s.threads[sleeper].fp)
  {
    assert s.e.dialing;
  }

  // ----- the entry as an object, and connFor with other threads at work whenever the lock is free

  lemma PlayOn(turns: seq<Turn>, t: Thread, step: Step)
    requires Enabled(Play(NEW, turns), t, step)
    ensures Play(NEW, turns + [Turn(t, step)]) == Next(Play(NEW, turns), t, step)
  {
    hide Next, Enabled;
    var more := turns + [Turn(t, step)];
    assert more[..|more| - 1] == turns;
  }

  /** How connFor for a fingerprint ends, told by what thread t found at its last look at the entry: an entry that is closed or
      has another fingerprint gives nothing, a held connection is the one returned, a dial of another thread is waited for, and
      otherwise it is the thread's own dial that counts. */
  ghost predicate EndsAs(turns: seq<Turn>, n: nat, t: Thread, fp: Fingerprint, p: Phase)
    requires n < |turns|
  {
    var e := Play(NEW, turns[..n]).e;
    if e.closed || e.fingerprint != fp then p == Away
    else if e.conn.Some? then p == Using(e.conn.value)
    else if e.dialing then p == Waiting(fp) || p == Wanting(fp)
    else exists m :: n < m < |turns| && turns[m] == Turn(t, Install) && DialEndsAs(Play(NEW, turns[..m]), t, fp, p)
  }

  /** A dial that made no connection, or one that is not wanted any more, gives nothing; otherwise its connection is the one
      returned. */
  ghost predicate DialEndsAs(s: State, t: Thread, fp: Fingerprint, p: Phase) {
    match PhaseOf(s.threads, t)
    case NotDialed(_, _) => p == Away
    case Dialed(_, _, c) => p == if s.e.closed || s.e.fingerprint != fp then Away else Using(c)
    case _ => false
  }

  ghost predicate EndsByLook(turns: seq<Turn>, from: nat, t: Thread, fp: Fingerprint, p: Phase) {
    exists n :: from <= n < |turns| && turns[n] == Turn(t, Look) && EndsAs(turns, n, t, fp, p)
  }

  lemma EndsSeen(turns: seq<Turn>, n: nat, m: nat, from: nat, t: Thread, fp: Fingerprint, p: Phase)
    requires from <= n < |turns| && turns[n] == Turn(t, Look)
    requires var e := Play(NEW, turns[..n]).e;
      if e.closed || e.fingerprint != fp then p == Away
      else if e.conn.Some? then p == Using(e.conn.value)
      else if e.dialing then p == Waiting(fp) || p == Wanting(fp)
      else n < m < |turns| && turns[m] == Turn(t, Install) && DialEndsAs(Play(NEW, turns[..m]), t, fp, p)
    ensures EndsByLook(turns, from, t, fp, p)
  {
    hide Play, DialEndsAs;
    assert EndsAs(turns, n, t, fp, p);
  }

  class ConnEntry {
    var fingerprint: string
    var snapshot: Snapshot
    var conn: Option<ConnId>
    var target: string
    var dialing: bool
    var closed: bool
    var swept: bool
    // who is where, what became of the connections that were made, and all steps that were taken
    var threads: Threads
    var dialed: map<ConnId, Snapshot>
    var shut: set<ConnId>
    ghost var turns: seq<Turn>

    function Fields(): Shared
      reads this
    {
      Shared(fingerprint, snapshot, conn, target, dialing, closed, swept)
    }

    function Whole(): State
      reads this
    {
      State(Fields(), threads, dialed, shut)
    }

    /** The entry is where the steps taken lead to. */
    ghost predicate Valid()
      reads this
    {
      Inv(Whole()) && Whole() == Play(NEW, turns)
    }

    constructor ()
      ensures Valid() && Whole() == NEW && turns == []
    {
      fingerprint, snapshot, conn, target := "", Snapshot("", ""), None, "";
      dialing, closed, swept := false, false, false;
      threads, dialed, shut, turns := map[], map[], {}, [];
    }

    /** The first locked region of connFor by thread t. */
    method LookUp(t: Thread, fp: Fingerprint) returns (p: Phase)
      requires Valid() && PhaseOf(threads, t) == Wanting(fp)
      modifies this
      ensures Valid() && turns == old(turns) + [Turn(t, Look)]
      ensures threads == old(threads)[t := p] && dialed == old(dialed) && shut == old(shut)
      ensures old(closed) || old(fingerprint) != fp ==> p == Away && Fields() == old(Fields())
      ensures !old(closed) && old(fingerprint) == fp && old(conn).Some? ==>
        p == Using(old(conn).value) && Fields() == old(Fields()).(swept := true)
      ensures !old(closed) && old(fingerprint) == fp && old(conn).None? ==>
        if old(dialing) then p == Waiting(fp) && Fields() == old(Fields())
        else p == Dialing(fp, old(snapshot)) && Fields() == old(Fields()).(dialing := true)
    {
      hide Inv, Play;
      NextKeeps(Whole(), t, Look);
      PlayOn(turns, t, Look);
      if closed {
        p := Away;
      } else if fingerprint != fp {
        p := Away;
      } else if conn.Some? {
        swept := true;
        p := Using(conn.value);
      } else if dialing {
        p := Waiting(fp);
      } else {
        dialing := true;
        p := Dialing(fp, snapshot);
      }
      threads := threads[t := p];
      turns := turns + [Turn(t, Look)];
    }

    /** The second locked region of connFor by thread t, after its dial. */
    method FinishDial(t: Thread, fp: Fingerprint, from: Snapshot, dialedConn: Option<ConnId>) returns (p: Phase)
      requires Valid()
      requires PhaseOf(threads, t) == if dialedConn.Some? then Dialed(fp, from, dialedConn.value) else NotDialed(fp, from)
      modifies this
      ensures Valid() && turns == old(turns) + [Turn(t, Install)] && dialed == old(dialed) && shut == old(shut)
      ensures p == (if dialedConn.None? then Away
                    else if old(closed) || old(fingerprint) != fp then Closing(dialedConn.value)
                    else Using(dialedConn.value))
      ensures p.Using? ==>
        Fields() == old(Fields()).(dialing := false, conn := dialedConn, target := from.target, swept := true)
      ensures !p.Using? ==> Fields() == old(Fields()).(dialing := false)
      ensures threads == Awake(old(threads))[t := p] && AllAwake(old(threads), threads, t)
    {
      hide Inv, Play;
      NextKeeps(Whole(), t, Install);
      PlayOn(turns, t, Install);
      dialing := false;
      if dialedConn.None? {
        p := Away;
      } else if closed || fingerprint != fp {
        p := Closing(dialedConn.value);
      } else {
        conn := dialedConn;
        target := from.target;
        swept := true;
        p := Using(dialedConn.value);
      }
      threads := Awake(threads)[t := p];
      turns := turns + [Turn(t, Install)];
    }

    /** The locked region of resetConn */
    method ResetConn(t: Thread) returns (p: Phase)
      requires Valid() && Free(PhaseOf(threads, t))
      modifies this
      ensures Valid() && turns == old(turns) + [Turn(t, Reset)]
      ensures p == (if old(conn).Some? then Closing(old(conn).value) else Away) && Fields() == old(Fields()).(conn := None)
      ensures threads == old(threads)[t := p] && dialed == old(dialed) && shut == old(shut)
    {
      hide Inv, Play;
      NextKeeps(Whole(), t, Reset);
      PlayOn(turns, t, Reset);
      p := Taken(conn);
      conn := None;
      threads := threads[t := p];
      turns := turns + [Turn(t, Reset)];
    }

    /** The locked region of prepareEntry */
    method PrepareEntry(t: Thread, current: Snapshot) returns (p: Phase)
      requires Valid() && Free(PhaseOf(threads, t)) && current.fingerprint != ""
      modifies this
      ensures Valid() && turns == old(turns) + [Turn(t, Prepare(current))]
      ensures old(fingerprint) == "" || old(fingerprint) == current.fingerprint ==>
        p == Away && Fields() == old(Fields()).(fingerprint := current.fingerprint, snapshot := current)
      ensures old(fingerprint) != "" && old(fingerprint) != current.fingerprint ==>
        && p == (if old(conn).Some? then Closing(old(conn).value) else Away)
        && Fields() == old(Fields()).(conn := None, target := "", fingerprint := current.fingerprint, snapshot := current,
                                      swept := false)
      ensures threads == old(threads)[t := p] && dialed == old(dialed) && shut == old(shut)
    {
      hide Inv, Play, Awake, InstallAt, LookAt, Dialer;
      NextKeeps(Whole(), t, Prepare(current));
      PlayOn(turns, t, Prepare(current));
      p := Away;
      if fingerprint == "" || fingerprint == current.fingerprint {
        fingerprint := current.fingerprint;
        snapshot := current;
      } else {
        p := Taken(conn);
        conn := None;
        target := "";
        fingerprint := current.fingerprint;
        snapshot := current;
        swept := false;
      }
      threads := threads[t := p];
      turns := turns + [Turn(t, Prepare(current))];
    }

    /** The locked region of closeOne */
    method CloseEntry(t: Thread) returns (p: Phase)
      requires Valid() && Free(PhaseOf(threads, t))
      modifies this
      ensures Valid() && turns == old(turns) + [Turn(t, Close)] && dialed == old(dialed) && shut == old(shut)
      ensures p == (if old(conn).Some? then Closing(old(conn).value) else Away)
      ensures Fields() == old(Fields()).(conn := None, closed := true)
      ensures threads == Awake(old(threads))[t := p] && AllAwake(old(threads), threads, t)
    {
      hide Inv, Play;
      NextKeeps(Whole(), t, Close);
      PlayOn(turns, t, Close);
      p := Taken(conn);
      conn := None;
      closed := true;
      threads := Awake(threads)[t := p];
      turns := turns + [Turn(t, Close)];
    }

    /** conn.Close, outside the lock */
    method ShutConn(t: Thread)
      requires Valid() && PhaseOf(threads, t).Closing?
      modifies this`threads, this`shut, this`turns
      ensures Valid() && turns == old(turns) + [Turn(t, Shut)]
      ensures shut == old(shut) + {old(threads)[t].conn} && threads == old(threads)[t := Away]
    {
      hide Inv, Play;
      NextKeeps(Whole(), t, Shut);
      PlayOn(turns, t, Shut);
      shut := shut + {threads[t].conn};
      threads := threads[t := Away];
      turns := turns + [Turn(t, Shut)];
    }

    /** The dial ends, outside the lock: with a connection that never was before, or without. */
    method EndDialing(t: Thread, fp: Fingerprint, from: Snapshot, made: Option<ConnId>)
      requires Valid() && PhaseOf(threads, t) == Dialing(fp, from) && (made.Some? ==> made.value !in dialed)
      modifies this`threads, this`dialed, this`turns
      ensures Valid() && turns == old(turns) + [Turn(t, EndDial(made))]
      ensures threads == old(threads)[t := if made.Some? then Dialed(fp, from, made.value) else NotDialed(fp, from)]
      ensures dialed == if made.Some? then old(dialed)[made.value := from] else old(dialed)
    {
      hide Inv, Play;
      NextKeeps(Whole(), t, EndDial(made));
      PlayOn(turns, t, EndDial(made));
      turns := turns + [Turn(t, EndDial(made))];
      match made {
        case Some(c) =>
          dialed := dialed[c := from];
          threads := threads[t := Dialed(fp, from, c)];
        case None =>
          threads := threads[t := NotDialed(fp, from)];
      }
    }

    /** A step of some thread. */
    method Act(u: Thread, step: Step)
      requires Valid() && Enabled(Whole(), u, step)
      modifies this
      ensures Valid() && turns == old(turns) + [Turn(u, step)] && Whole() == Next(old(Whole()), u, step)
    {
      hide Inv, Next, Enabled, Play;
      NextKeeps(Whole(), u, step);
      PlayOn(turns, u, step);
      turns := turns + [Turn(u, step)];
      var next := Next(Whole(), u, step);
      fingerprint, snapshot, conn, target := next.e.fingerprint, next.e.snapshot, next.e.conn, next.e.target;
      dialing, closed, swept := next.e.dialing, next.e.closed, next.e.swept;
      threads, dialed, shut := next.threads, next.dialed, next.shut;
    }

    /** Any number of steps of other threads. */
    method Interfere(t: Thread)
      requires Valid()
      modifies this
      ensures Valid() && Beside(old(Whole()), Whole(), t) && Others(old(turns), turns, t)
    {
      hide Inv, Next, Enabled, Play;
      var n: nat := *;
      while n > 0
        invariant Valid() && Beside(old(Whole()), Whole(), t) && Others(old(turns), turns, t)
      {
        var u: Thread := *;
        var step: Step := *;
        if u != t && Enabled(Whole(), u, step) {
          OtherStep(Whole(), u, step, t);
          Act(u, step);
        }
        n := n - 1;
      }
    }

    /** connFor by thread t: it takes the held connection, waits for a dial in flight, or dials itself. How it ends is told
        by what it found at its last look at the entry, while other threads were at work. The connection it returns is the
        held one, not closed, and dialed from the wanted fingerprint. It may still be waiting after any number of
        wake-ups. */
    method ConnFor(t: Thread, fp: Fingerprint, wakeUps: nat) returns (p: Phase)
      requires Valid() && PhaseOf(threads, t) == Wanting(fp)
      modifies this
      ensures Valid() && PhaseOf(threads, t) == p && old(turns) <= turns
      ensures EndsByLook(turns, |old(turns)|, t, fp, p)
      ensures p.Using? ==>
        && conn == Some(p.conn) && !closed && p.conn !in shut
        && p.conn in dialed && dialed[p.conn].fingerprint == fp == fingerprint
      ensures p.Using? || p.Away? || p == Wanting(fp) || p == Waiting(fp)
    {
      hide Inv, Play, DialEndsAs, EndsByLook;
      var left := wakeUps;
      p := Wanting(fp);
      while true
        invariant Valid() && PhaseOf(threads, t) == p == Wanting(fp) && old(turns) <= turns
        decreases left
      {
        Interfere(t);
        ghost var n, seen := |turns|, turns;
        p := LookUp(t, fp);
        assert turns[..n] == seen;
        if p.Using? {
          HeldIsCurrent(Whole());
          EndsSeen(turns, n, n, |old(turns)|, t, fp, p);
          return;
        }
        if p.Dialing? {
          ghost var m;
          p, m := DialFor(t, fp, p.from);
          assert turns[..n] == seen && turns[n] == Turn(t, Look);
          EndsSeen(turns, n, m, |old(turns)|, t, fp, p);
          return;
        }
        if p.Away? {
          EndsSeen(turns, n, n, |old(turns)|, t, fp, p);
          return;
        }
        Interfere(t);
        p := PhaseOf(threads, t);
        assert turns[..n] == seen && turns[n] == Turn(t, Look);
        if p.Waiting? || left == 0 {
          EndsSeen(turns, n, n, |old(turns)|, t, fp, p);
          return;   // not woken so far
        }
        left := left - 1;
      }
    }

    /** The part of connFor after the dialing flag is set; m is when the dial's end was noted. */
    method DialFor(t: Thread, fp: Fingerprint, from: Snapshot) returns (p: Phase, ghost m: nat)
      requires Valid() && PhaseOf(threads, t) == Dialing(fp, from)
      modifies this
      ensures Valid() && PhaseOf(threads, t) == p && (p.Using? || p.Away?)
      ensures old(turns) <= turns && |old(turns)| <= m < |turns| && turns[m] == Turn(t, Install)
      ensures DialEndsAs(Play(NEW, turns[..m]), t, fp, p)
      ensures p.Using? ==>
        && conn == Some(p.conn) && !closed && p.conn !in shut
        && p.conn in dialed && dialed[p.conn].fingerprint == fp == fingerprint
    {
      hide Inv, Play;
      Interfere(t);
      var made: Option<ConnId> := *;
      if made.Some? && made.value in dialed {
        made := None;
      }
      EndDialing(t, fp, from, made);
      Interfere(t);
      ghost var before, s := turns, Whole();
      m := |turns|;
      p := FinishDial(t, fp, from, made);
      assert DialEndsAs(s, t, fp, if p.Closing? then Away else p);
      hide DialEndsAs;
      if p.Closing? {
        Discard(t);
        p := Away;
      } else {
        HeldIsCurrent(Whole());
      }
      assert turns[..m] == before;
    }

    /** A connection that was made too late is closed. */
    method Discard(t: Thread)
      requires Valid() && PhaseOf(threads, t).Closing?
      modifies this
      ensures Valid() && PhaseOf(threads, t) == Away && old(turns) <= turns && old(threads)[t].conn in shut
    {
      hide Inv, Play;
      Interfere(t);
      ShutConn(t);
    }
  }

  /** Every sleeper but t is back at the top of its loop, and everybody else is where it was. */
  ghost predicate AllAwake(threads: Threads, more: Threads, t: Thread) {
    forall u :: u != t ==>
      PhaseOf(more, u) == if PhaseOf(threads, u).Waiting? then Wanting(PhaseOf(threads, u).fp) else PhaseOf(threads, u)
  }

  /** The steps since were of other threads. */
  predicate Others(turns: seq<Turn>, more: seq<Turn>, t: Thread) {
    turns <= more && forall i :: |turns| <= i < |more| ==> more[i].t != t
  }

  /** From s to n other threads took steps: thread t is where it was, or was woken, and no connection is forgotten. */
  predicate Beside(s: State, n: State, t: Thread) {
    && (PhaseOf(n.threads, t) == PhaseOf(s.threads, t)
        || (PhaseOf(s.threads, t).Waiting? && PhaseOf(n.threads, t) == Wanting(PhaseOf(s.threads, t).fp)))
    && (forall c :: c in s.dialed ==> c in n.dialed && n.dialed[c] == s.dialed[c])
  }

  lemma OtherStep(s: State, u: Thread, step: Step, t: Thread)
    requires u != t && Enabled(s, u, step)
    ensures Beside(s, Next(s, u, step), t)
  {
  }

  lemma HeldIsCurrent(s: State)
    requires Inv(s)
    ensures s.e.conn.Some? ==>
      && !s.e.closed && s.e.conn.value !in s.shut
      && s.e.conn.value in s.dialed && s.dialed[s.e.conn.value].fingerprint == s.e.fingerprint
  {
  }
}
