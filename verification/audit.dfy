/**
 The audit log: one entry to a line, read forward through a buffer or backward block by block. Block size, buffer size and
 line cap are parameters; decoding and encoding of an entry are functions that a caller gives.
 */
module Audit {
  import opened Text

  const NEWLINE: byte := 10
  const RETURN: byte := 13

  datatype Entry = Entry(
    profile: string, target: string, command: string, exitCode: int, startedAt: int, finishedAt: int, durationMS: int,
    error: string, runID: string, status: string)

  /** The lines that decode to an entry, with their entries. */
  type Decoder = imap<seq<byte>, Entry>

  function Decode(decode: Decoder, line: seq<byte>): Option<Entry> {
    if line in decode then Some(decode[line]) else None
  }

  /** Who reads an entry: everybody for the empty profile. */
  predicate Counts(profile: string, e: Entry) {
    profile == "" || e.profile == profile
  }

  /** What a backward scan is for: the last entries of a profile, or the outcome of a run, or anything that a visitor wants
      who stops after certain entries. */
  datatype Goal = LastOf(profile: string, tail: nat) | OutcomeOf(runID: string) | Until(stops: iset<seq<Entry>>)

  /** The scan goes on after these entries. */
  predicate More(goal: Goal, visited: seq<Entry>) {
    match goal
    case LastOf(profile, tail) => |Kept(visited, profile)| < tail
    case OutcomeOf(runID) => visited == [] || !Decides(runID, visited[|visited| - 1])
    case Until(stops) => visited !in stops
  }

  /** The visitor of Complete stops at this entry. */
  predicate Decides(runID: string, e: Entry) {
    e.runID == runID && (e.status == "completed" || Started(e) || e.status == "")
  }

  predicate Started(e: Entry) {
    e.status == "running" || (e.status == "" && e.exitCode == 75)
  }

  // ----- what the two scans mean

  function TrimReturn(line: seq<byte>): seq<byte> {
    if line != [] && line[|line| - 1] == RETURN then line[..|line| - 1] else line
  }

  /** The entry of a line of at most limit bytes. */
  function Visit(line: seq<byte>, limit: int, decode: Decoder): (found: seq<Entry>)
    ensures |found| <= 1
  {
    if |line| > limit then [] else
      match Decode(decode, TrimReturn(line))
      case Some(e) => [e]
      case None => []
  }

  /** Forward, the newline counts against the cap. */
  function Forward(s: seq<byte>, cap: nat, decode: Decoder): seq<Entry>
    decreases |s|
  {
    var k := Find(s, NEWLINE);
    if k == |s| then Visit(s, cap, decode)
    else Visit(s[..k], cap - 1, decode) + Forward(s[k + 1..], cap, decode)
  }

  /** Backward, it does not. */
  function Backward(s: seq<byte>, cap: nat, decode: Decoder): seq<Entry>
    decreases |s|
  {
    var k := FindLast(s, NEWLINE);
    if k < 0 then Visit(s, cap, decode)
    else Visit(s[k + 1..], cap, decode) + Backward(s[..k], cap, decode)
  }

  /** The lines that end in a newline. */
  function Terminated(s: seq<byte>): seq<seq<byte>>
    decreases |s|
  {
    var k := Find(s, NEWLINE);
    if k == |s| then [] else [s[..k]] + Terminated(s[k + 1..])
  }

  function Reversed(es: seq<Entry>): seq<Entry> {
    if es == [] then [] else Reversed(es[1..]) + [es[0]]
  }

  // ----- backward is the reverse of forward, but for lines of exactly the cap

  function Wide(s: seq<byte>, cap: nat, decode: Decoder): seq<Entry>
    decreases |s|
  {
    var k := Find(s, NEWLINE);
    if k == |s| then Visit(s, cap, decode) else Visit(s[..k], cap, decode) + Wide(s[k + 1..], cap, decode)
  }

  lemma LastAt(a: seq<byte>, b: seq<byte>)
    requires NEWLINE !in b
    ensures FindLast(a + [NEWLINE] + b, NEWLINE) == |a|
    ensures (a + [NEWLINE] + b)[|a| + 1..] == b && (a + [NEWLINE] + b)[..|a|] == a
  {
    hide *;
    var s := a + [NEWLINE] + b;
    assert s[|a|] == NEWLINE;
    assert s[..|a|] == a && s[|a| + 1..] == b;
    forall i | |a| < i < |s| ensures s[i] != NEWLINE {
      assert s[i] == s[|a| + 1..][i - |a| - 1];
    }
    FindLastIs(s, NEWLINE, |a|);
  }

  lemma NoLast(a: seq<byte>)
    requires NEWLINE !in a
    ensures FindLast(a, NEWLINE) == -1
  {
  }

  lemma FirstOf(a: seq<byte>, b: seq<byte>)
    requires NEWLINE !in a
    ensures Find(a + [NEWLINE] + b, NEWLINE) == |a|
    ensures (a + [NEWLINE] + b)[|a| + 1..] == b && (a + [NEWLINE] + b)[..|a|] == a
  {
    var s := a + [NEWLINE] + b;
    assert s[|a|] == NEWLINE;
    assert forall i :: 0 <= i < |a| ==> s[i] == a[i];
  }

  /** A backward scan meets the first line last. */
  lemma {:induction false} BackwardEndsWithFirst(a: seq<byte>, r: seq<byte>, cap: nat, decode: Decoder)
    requires NEWLINE !in a
    ensures Backward(a + [NEWLINE] + r, cap, decode) == Backward(r, cap, decode) + Visit(a, cap, decode)
    decreases |r|
  {
    hide Find, FindLast, Visit;
    var s := a + [NEWLINE] + r;
    var k := FindLast(r, NEWLINE);
    if k < 0 {
      LastAt(a, r);
      NoLast(a);
    } else {
      var before, after := r[..k], r[k + 1..];
      var head := a + [NEWLINE] + before;
      assert r == before + [NEWLINE] + after;
      assert s == head + [NEWLINE] + after;
      LastAt(head, after);
      BackwardEndsWithFirst(a, before, cap, decode);
    }
  }

  lemma ReversedAppend(a: seq<Entry>, b: seq<Entry>)
    ensures Reversed(a + b) == Reversed(b) + Reversed(a)
  {
    if a == [] {
      assert a + b == b;
    } else {
      assert (a + b)[1..] == a[1..] + b;
    }
  }

  lemma ReversedOne(a: seq<Entry>)
    requires |a| <= 1
    ensures Reversed(a) == a
  {
    if a != [] { assert Reversed(a[1..]) == []; }
  }

  lemma {:induction false} BackwardIsReversedWide(s: seq<byte>, cap: nat, decode: Decoder)
    ensures Backward(s, cap, decode) == Reversed(Wide(s, cap, decode))
    decreases |s|
  {
    var k := Find(s, NEWLINE);
    if k == |s| {
      NoLast(s);
      ReversedOne(Visit(s, cap, decode));
    } else {
      assert s == s[..k] + [NEWLINE] + s[k + 1..];
      BackwardEndsWithFirst(s[..k], s[k + 1..], cap, decode);
      BackwardIsReversedWide(s[k + 1..], cap, decode);
      ReversedAppend(Visit(s[..k], cap, decode), Wide(s[k + 1..], cap, decode));
      ReversedOne(Visit(s[..k], cap, decode));
    }
  }

  /** A newline-terminated line of exactly the cap that holds an entry which counts. */
  predicate Exact(line: seq<byte>, cap: nat, decode: Decoder, profile: string) {
    && |line| == cap && Decode(decode, TrimReturn(line)).Some?
    && Counts(profile, Decode(decode, TrimReturn(line)).value)
  }

  predicate NoneExact(lines: seq<seq<byte>>, cap: nat, decode: Decoder, profile: string) {
    forall i :: 0 <= i < |lines| ==> !Exact(lines[i], cap, decode, profile)
  }

  predicate NoExact(s: seq<byte>, cap: nat, decode: Decoder, profile: string) {
    NoneExact(Terminated(s), cap, decode, profile)
  }

  function Kept(es: seq<Entry>, profile: string): seq<Entry>
  {
    if es == [] then [] else Counted(es[0], profile) + Kept(es[1..], profile)
  }

  function Counted(e: Entry, profile: string): (kept: seq<Entry>)
    ensures |kept| <= 1
  {
    if Counts(profile, e) then [e] else []
  }

  lemma KeptCons(e: Entry, rest: seq<Entry>, profile: string)
    ensures Kept([e] + rest, profile) == Counted(e, profile) + Kept(rest, profile)
  {
    hide Counted;
    assert ([e] + rest)[1..] == rest;
  }

  lemma {:induction false} KeptAppend(a: seq<Entry>, b: seq<Entry>, profile: string)
    ensures Kept(a + b, profile) == Kept(a, profile) + Kept(b, profile)
  {
    hide Counted, Kept;
    if a == [] {
      assert a + b == b;
      KeptNothing(profile);
    } else {
      assert a == [a[0]] + a[1..];
      assert a + b == [a[0]] + (a[1..] + b);
      KeptCons(a[0], a[1..], profile);
      KeptCons(a[0], a[1..] + b, profile);
      KeptAppend(a[1..], b, profile);
    }
  }

  lemma KeptNothing(profile: string)
    ensures Kept([], profile) == []
  {
  }

  lemma KeptOne(e: Entry, profile: string)
    ensures Kept([e], profile) == Counted(e, profile)
  {
    assert [e][1..] == [];
    assert Counted(e, profile) + [] == Counted(e, profile);
  }

  lemma {:induction false} KeptReversed(a: seq<Entry>, profile: string)
    ensures Kept(Reversed(a), profile) == Reversed(Kept(a, profile))
  {
    if a != [] {
      KeptReversed(a[1..], profile);
      KeptAppend(Reversed(a[1..]), [a[0]], profile);
      KeptOne(a[0], profile);
      ReversedAppend(Counted(a[0], profile), Kept(a[1..], profile));
      ReversedOne(Counted(a[0], profile));
    }
  }

  lemma {:induction false} WideCounts(s: seq<byte>, cap: nat, decode: Decoder, profile: string)
    ensures |Kept(Wide(s, cap, decode), profile)| >= |Kept(Forward(s, cap, decode), profile)|
    ensures |Kept(Wide(s, cap, decode), profile)| == |Kept(Forward(s, cap, decode), profile)| <==>
            NoExact(s, cap, decode, profile)
    ensures NoExact(s, cap, decode, profile) ==>
      Kept(Wide(s, cap, decode), profile) == Kept(Forward(s, cap, decode), profile)
    decreases |s|
  {
    hide Visit, Kept, Exact, NoExact, Find;
    NoExactSplit(s, cap, decode, profile);
    var k := Find(s, NEWLINE);
    if k < |s| {
      var line, rest := s[..k], s[k + 1..];
      WideCounts(rest, cap, decode, profile);
      KeptAppend(Visit(line, cap, decode), Wide(rest, cap, decode), profile);
      KeptAppend(Visit(line, cap - 1, decode), Forward(rest, cap, decode), profile);
      OneVisited(line, cap, decode, profile);
    }
  }

  lemma NoExactSplit(s: seq<byte>, cap: nat, decode: Decoder, profile: string)
    ensures var k := Find(s, NEWLINE);
      NoExact(s, cap, decode, profile) <==>
        (k < |s| ==> !Exact(s[..k], cap, decode, profile) && NoExact(s[k + 1..], cap, decode, profile))
  {
    hide Exact, NoneExact, Find, Terminated;
    TerminatedSplit(s);
    var k := Find(s, NEWLINE);
    if k < |s| {
      NoneExactSplit(s[..k], Terminated(s[k + 1..]), cap, decode, profile);
    } else {
      NoneExactEmpty(cap, decode, profile);
    }
  }

  lemma TerminatedSplit(s: seq<byte>)
    ensures var k := Find(s, NEWLINE); Terminated(s) == if k == |s| then [] else [s[..k]] + Terminated(s[k + 1..])
  {
    hide Find;
  }

  lemma NoneExactEmpty(cap: nat, decode: Decoder, profile: string)
    ensures NoneExact([], cap, decode, profile)
  {
  }

  lemma NoneExactSplit(line: seq<byte>, lines: seq<seq<byte>>, cap: nat, decode: Decoder, profile: string)
    ensures NoneExact([line] + lines, cap, decode, profile) <==>
            !Exact(line, cap, decode, profile) && NoneExact(lines, cap, decode, profile)
  {
    hide Exact;
    var all := [line] + lines;
    assert all[0] == line;
    assert forall i :: 0 <= i < |lines| ==> all[i + 1] == lines[i];
    assert all[1..] == lines;
  }

  lemma OneVisited(line: seq<byte>, cap: nat, decode: Decoder, profile: string)
    ensures var wide, narrow := Kept(Visit(line, cap, decode), profile), Kept(Visit(line, cap - 1, decode), profile);
      if Exact(line, cap, decode, profile) then |wide| == 1 && narrow == [] else wide == narrow
  {
    var e := Decode(decode, TrimReturn(line));
    if e.Some? {
      KeptOne(e.value, profile);
    }
  }

  /** The entries that count are visited backward in the reverse of their forward order, if and only if no
      newline-terminated line of exactly the cap holds one. */
  lemma BackwardIsReversedForward(s: seq<byte>, cap: nat, decode: Decoder, profile: string)
    ensures Kept(Backward(s, cap, decode), profile) == Reversed(Kept(Forward(s, cap, decode), profile)) <==>
            NoExact(s, cap, decode, profile)
  {
    BackwardIsReversedWide(s, cap, decode);
    KeptReversed(Wide(s, cap, decode), profile);
    WideCounts(s, cap, decode, profile);
    ReversedLength(Kept(Wide(s, cap, decode), profile));
    ReversedLength(Kept(Forward(s, cap, decode), profile));
  }

  /** Such a line: it is found backward and dropped forward. */
  lemma ExactLineDiffers(e: Entry, decode: Decoder)
    requires Decode(decode, [65]) == Some(e) && Decode(decode, []).None?
    ensures var s: seq<byte> := [65, NEWLINE];
      Forward(s, 1, decode) == [] && Backward(s, 1, decode) == [e] && !NoExact(s, 1, decode, "")
  {
    var s: seq<byte> := [65, NEWLINE];
    var a: seq<byte> := [65];
    assert s == a + [NEWLINE] + [];
    FirstOf(a, []);
    LastAt(a, []);
    NoLast(a);
    NoLast([]);
    assert Forward([], 1, decode) == [];
    assert Terminated(s)[0] == a;
  }

  lemma ReversedLength(a: seq<Entry>)
    ensures |Reversed(a)| == |a|
  {
  }

  // ----- scanEntries

  datatype Chunk = LineEnd | BufferFull | EndOfFile

  /** bufio.Reader.ReadSlice: up to and including a newline, or a full buffer, or what is left. */
  function ReadSlice(rest: seq<byte>, buffer: nat): (r: (nat, Chunk))
    requires buffer > 0
    ensures r.0 <= |rest| && (r.1.EndOfFile? || r.0 > 0)
  {
    var k := Find(rest, NEWLINE);
    if k < |rest| && k < buffer then (k + 1, LineEnd)
    else if |rest| >= buffer then (buffer, BufferFull)
    else (|rest|, EndOfFile)
  }

  method ScanEntries(content: seq<byte>, buffer: nat, cap: nat, decode: Decoder) returns (visited: seq<Entry>)
    requires buffer > 0 && Decode(decode, []).None?
    ensures visited == Forward(content, cap, decode)
  {
    hide Forward, Visit, Find, TrimReturn;
    visited := [];
    var rest := content;
    var line: seq<byte> := [];
    var oversized := false;
    ghost var whole: seq<byte> := [];   // all of the current line so far
    assert whole + rest == content;
    while true
      invariant NEWLINE !in whole
      invariant oversized == (|whole| > cap) && line == if oversized then [] else whole
      invariant visited + Forward(whole + rest, cap, decode) == Forward(content, cap, decode)
      decreases |rest|
    {
      var (n, end) := ReadSlice(rest, buffer);
      var fragment := rest[..n];
      assert whole + rest == whole + fragment + rest[n..];
      rest := rest[n..];
      ghost var before := whole;
      whole := whole + fragment;
      if !oversized {
        if |line| + |fragment| > cap {
          line, oversized := [], true;
        } else {
          line := line + fragment;
        }
      }
      if end.BufferFull? {
        continue;
      }
      if !oversized && line != [] {
        var entry := Decode(decode, TrimReturn(TrimNewline(line)));
        if entry.Some? {
          visited := visited + [entry.value];
        }
      }
      if end.EndOfFile? {
        EndForward(whole, cap, decode);
        return;
      }
      LineForward(before, fragment, rest, cap, decode);
      line, oversized, whole := [], false, [];
      assert whole + rest == rest;
    }
  }

  function TrimNewline(line: seq<byte>): seq<byte> {
    if line != [] && line[|line| - 1] == NEWLINE then line[..|line| - 1] else line
  }

  /** What the end of a file adds: the line without a newline. */
  lemma EndForward(whole: seq<byte>, cap: nat, decode: Decoder)
    requires NEWLINE !in whole && Decode(decode, []).None?
    ensures Forward(whole + [], cap, decode) == Found(whole, |whole| > cap, decode)
  {
    assert whole + [] == whole;
  }

  /** The entry of a line that is read to its end, unless it was dropped. */
  function Found(line: seq<byte>, oversized: bool, decode: Decoder): seq<Entry> {
    if oversized || line == [] then [] else
      match Decode(decode, TrimReturn(TrimNewline(line)))
      case Some(e) => [e]
      case None => []
  }

  /** What the end of a line adds. */
  lemma LineForward(before: seq<byte>, fragment: seq<byte>, rest: seq<byte>, cap: nat, decode: Decoder)
    requires NEWLINE !in before && fragment != [] && fragment[|fragment| - 1] == NEWLINE
    requires NEWLINE !in fragment[..|fragment| - 1]
    ensures var whole := before + fragment;
      Forward(whole + rest, cap, decode) == Found(whole, |whole| > cap, decode) + Forward(rest, cap, decode)
  {
    var a := before + fragment[..|fragment| - 1];
    assert before + fragment == a + [NEWLINE];
    assert before + fragment + rest == a + [NEWLINE] + rest;
    FirstOf(a, rest);
  }

  // ----- scanEntriesReverse

  /** visited is the beginning of all at which a scan for goal has stopped. */
  ghost predicate Stopped(visited: seq<Entry>, all: seq<Entry>, goal: Goal) {
    && visited <= all
    && (forall i :: 0 < i < |visited| ==> More(goal, all[..i]))
    && (visited == all || (visited != [] && !More(goal, visited)))
  }

  /** The parts of a line, the last part first. */
  function Assemble(segments: seq<seq<byte>>): seq<byte> {
    if segments == [] then [] else segments[|segments| - 1] + Assemble(segments[..|segments| - 1])
  }

  method AssembleLine(prefix: seq<byte>, segments: seq<seq<byte>>) returns (line: seq<byte>)
    ensures line == prefix + Assemble(segments)
  {
    line := prefix;
    var i := |segments|;
    assert segments[..i] == segments;
    while i > 0
      invariant 0 <= i <= |segments|
      invariant line + Assemble(segments[..i]) == prefix + Assemble(segments)
    {
      i := i - 1;
      assert segments[..i + 1][..i] == segments[..i];
      line := line + segments[i];
    }
  }

  /** Where a backward scan is: what it found, and the parts of the line that it is in, or that this line is too long. */
  datatype Scan = Scan(visited: seq<Entry>, segments: seq<seq<byte>>, segmentBytes: nat, dropping: bool)

  /** The scan carries the end of a line, or knows only that it is longer than the cap. */
  ghost predicate Carries(s: Scan, whole: seq<byte>, cap: nat) {
    && NEWLINE !in whole && s.segmentBytes == |Assemble(s.segments)|
    && (if s.dropping then |whole| > cap && s.segments == [] else Assemble(s.segments) == whole)
  }

  /** What was found and what is still to be found is all, and the visitor has not stopped. */
  ghost predicate Onward(visited: seq<Entry>, left: seq<Entry>, all: seq<Entry>, goal: Goal) {
    visited + left == all && forall i :: 0 < i <= |visited| ==> More(goal, all[..i])
  }

  /** The nested visitLine, but for the visitor: the entry of a line that is not too long. */
  method ReadLine(prefix: seq<byte>, s: Scan, cap: nat, decode: Decoder) returns (entry: Option<Entry>)
    requires Decode(decode, []).None? && s.segmentBytes == |Assemble(s.segments)|
    ensures Visit(prefix + Assemble(s.segments), cap, decode) == if entry.Some? then [entry.value] else []
  {
    if |prefix| + s.segmentBytes > cap {
      return None;
    }
    var line := AssembleLine(prefix, s.segments);
    line := TrimReturn(line);
    if line == [] {
      return None;
    }
    entry := Decode(decode, line);
  }

  /** scanEntriesReverse */
  method ScanEntriesReverse(content: seq<byte>, blockSize: nat, cap: nat, decode: Decoder, goal: Goal)
    returns (visited: seq<Entry>)
    requires blockSize > 0 && Decode(decode, []).None?
    ensures Stopped(visited, Backward(content, cap, decode), goal)
  {
    hide Backward, Visit, Assemble, Carries, Onward;
    ghost var all := Backward(content, cap, decode);
    var position := |content|;
    var s := Scan([], [], 0, false);
    ghost var whole: seq<byte> := [];
    assert content[..position] + whole == content;
    BeginScan(all, cap, goal);
    while position > 0
      invariant 0 <= position <= |content| && Carries(s, whole, cap)
      invariant Onward(s.visited, Backward(content[..position] + whole, cap, decode), all, goal)
    {
      var readSize := if position < blockSize then position else blockSize;
      assert content[..position] == content[..position - readSize] + content[position - readSize..position];
      position := position - readSize;
      var block := content[position..position + readSize];
      var end, stop;
      s, end, stop, whole := ScanBlock(content[..position], block, s, cap, decode, goal, whole, all);
      if stop {
        return s.visited;
      }
      assert content[..position] + block[..end] + whole == content[..position] + (block[..end] + whole);
      s := Carry(s, block[..end], cap, whole);
      whole := block[..end] + whole;
    }
    assert content[..position] + whole == whole;
    visited := s.visited;
    CarriesPlain(s, whole, cap);
    if !s.dropping {
      var entry := ReadLine([], s, cap, decode);
      if entry.Some? {
        visited := visited + [entry.value];
      }
    }
    EndBackward(s, whole, cap, decode);
    assert visited[|s.visited|..] == Backward(whole, cap, decode);
    assert Onward(s.visited, Backward(whole, cap, decode), all, goal);
    EndOnward(s.visited, visited, all, goal);
  }

  lemma BeginScan(all: seq<Entry>, cap: nat, goal: Goal)
    ensures Carries(Scan([], [], 0, false), [], cap) && Onward([], all, all, goal)
  {
  }

  lemma EndBackward(s: Scan, whole: seq<byte>, cap: nat, decode: Decoder)
    requires Carries(s, whole, cap)
    ensures Backward(whole, cap, decode) == if s.dropping then [] else Visit([] + Assemble(s.segments), cap, decode)
  {
    NoLast(whole);
    assert [] + Assemble(s.segments) == Assemble(s.segments);
  }

  lemma EndOnward(visited: seq<Entry>, longer: seq<Entry>, all: seq<Entry>, goal: Goal)
    requires |longer| <= |visited| + 1
    requires visited <= longer && Onward(visited, longer[|visited|..], all, goal)
    ensures Stopped(longer, all, goal)
  {
    assert longer == visited + longer[|visited|..];
    assert all[..|longer|] == all;
  }

  /** The part of a block before its first newline joins the carried line, which is dropped when it gets too long. */
  method Carry(s: Scan, part: seq<byte>, cap: nat, ghost whole: seq<byte>) returns (t: Scan)
    requires Carries(s, whole, cap) && NEWLINE !in part
    ensures Carries(t, part + whole, cap) && t.visited == s.visited
  {
    if s.dropping {
      return s;
    }
    t := s;
    if part != [] {
      t := t.(segments := t.segments + [part], segmentBytes := t.segmentBytes + |part|);
      assert t.segments[..|t.segments| - 1] == s.segments;
    } else {
      assert part + whole == whole;
    }
    if t.segmentBytes > cap {
      t := t.(segments := [], segmentBytes := 0, dropping := true);
    }
  }

  /** The inner loop of scanEntriesReverse: the newlines of one block, from its end. */
  method ScanBlock(before: seq<byte>, block: seq<byte>, start: Scan, cap: nat, decode: Decoder,
                   goal: Goal, ghost whole0: seq<byte>, ghost all: seq<Entry>)
    returns (s: Scan, end: nat, stop: bool, ghost whole: seq<byte>)
    requires Decode(decode, []).None? && Carries(start, whole0, cap)
    requires Onward(start.visited, Backward(before + block + whole0, cap, decode), all, goal)
    ensures stop ==> Stopped(s.visited, all, goal)
    ensures !stop ==> end <= |block| && NEWLINE !in block[..end] && Carries(s, whole, cap)
    ensures !stop ==> Onward(s.visited, Backward(before + block[..end] + whole, cap, decode), all, goal)
  {
    hide Backward, Visit, Assemble, Carries, Onward, Stopped;
    s, end, stop, whole := start, |block|, false, whole0;
    assert before + block[..end] + whole == before + block + whole0;
    while true
      invariant end <= |block| && Carries(s, whole, cap)
      invariant Onward(s.visited, Backward(before + block[..end] + whole, cap, decode), all, goal)
      decreases end
    {
      var newline := FindLast(block[..end], NEWLINE);
      if newline < 0 {
        return;
      }
      CarriesPlain(s, whole, cap);
      BackwardLine(before, block, newline, end, whole, cap, decode);
      if s.dropping {
        DroppedVisit(s, block[newline + 1..end], whole, cap, decode);
        s := s.(dropping := false);
      } else {
        var entry := ReadLine(block[newline + 1..end], s, cap, decode);
        if entry.Some? {
          s := s.(visited := s.visited + [entry.value]);
          stop := !More(goal, s.visited);
          Step(s.visited, Backward(before + block[..newline], cap, decode), all, goal);
          if stop {
            return;
          }
        }
      }
      assert [] + Backward(before + block[..newline], cap, decode) == Backward(before + block[..newline], cap, decode);
      s, whole, end := s.(segments := [], segmentBytes := 0), [], newline;
      assert before + block[..end] + whole == before + block[..newline];
      FreshLine(s, cap);
    }
  }

  lemma Step(visited: seq<Entry>, left: seq<Entry>, all: seq<Entry>, goal: Goal)
    requires visited != [] && Onward(visited[..|visited| - 1], [visited[|visited| - 1]] + left, all, goal)
    ensures if More(goal, visited) then Onward(visited, left, all, goal) else Stopped(visited, all, goal)
  {
    assert visited[..|visited| - 1] + ([visited[|visited| - 1]] + left) == visited + left;
    assert all[..|visited|] == visited;
  }

  lemma FreshLine(s: Scan, cap: nat)
    requires s.segments == [] && s.segmentBytes == 0 && !s.dropping
    ensures Carries(s, [], cap)
  {
  }

  lemma CarriesPlain(s: Scan, whole: seq<byte>, cap: nat)
    requires Carries(s, whole, cap)
    ensures NEWLINE !in whole && s.segmentBytes == |Assemble(s.segments)| && (!s.dropping ==> Assemble(s.segments) == whole)
  {
  }

  lemma DroppedVisit(s: Scan, prefix: seq<byte>, whole: seq<byte>, cap: nat, decode: Decoder)
    requires Carries(s, whole, cap) && s.dropping
    ensures Visit(prefix + whole, cap, decode) == []
  {
  }

  lemma BackwardLine(before: seq<byte>, block: seq<byte>, newline: nat, end: nat, whole: seq<byte>, cap: nat,
                     decode: Decoder)
    requires newline < end <= |block| && block[newline] == NEWLINE && NEWLINE !in whole
    requires forall i :: newline < i < end ==> block[i] != NEWLINE
    ensures Backward(before + block[..end] + whole, cap, decode)
         == Visit(block[newline + 1..end] + whole, cap, decode) + Backward(before + block[..newline], cap, decode)
  {
    var a, b := before + block[..newline], block[newline + 1..end] + whole;
    assert before + block[..end] + whole == a + [NEWLINE] + b;
    LastAt(a, b);
  }

  // ----- Read

  function Take(es: seq<Entry>, n: nat): seq<Entry> {
    if n < |es| then es[..n] else es
  }

  function Last(es: seq<Entry>, n: nat): seq<Entry> {
    if n < |es| then es[|es| - n..] else es
  }

  /** All entries of a profile, oldest first. */
  function ReadAll(s: seq<byte>, cap: nat, decode: Decoder, profile: string): seq<Entry> {
    Kept(Forward(s, cap, decode), profile)
  }

  /** What a backward read of at most tail entries of a profile finds, oldest first. */
  function ReadTail(s: seq<byte>, cap: nat, decode: Decoder, profile: string, tail: nat): seq<Entry> {
    Reversed(Take(Kept(Backward(s, cap, decode), profile), tail))
  }

  lemma {:induction false} ReversedTwice(a: seq<Entry>)
    ensures Reversed(Reversed(a)) == a
  {
    if a != [] {
      ReversedTwice(a[1..]);
      ReversedAppend(Reversed(a[1..]), [a[0]]);
      ReversedOne([a[0]]);
      assert a == [a[0]] + a[1..];
    }
  }

  lemma {:induction false} ReversedAt(a: seq<Entry>, k: nat)
    requires k < |a|
    ensures |Reversed(a)| == |a| && Reversed(a)[k] == a[|a| - 1 - k]
  {
    ReversedLength(a[1..]);
    if k < |a| - 1 {
      ReversedAt(a[1..], k);
    }
  }

  lemma ReversedTake(a: seq<Entry>, n: nat)
    ensures Reversed(Take(Reversed(a), n)) == Last(a, n)
  {
    ReversedLength(a);
    if n < |a| {
      assert a == a[..|a| - n] + a[|a| - n..];
      ReversedAppend(a[..|a| - n], a[|a| - n..]);
      ReversedLength(a[|a| - n..]);
      assert Take(Reversed(a), n) == Reversed(a[|a| - n..]);
      ReversedTwice(a[|a| - n..]);
    } else {
      ReversedTwice(a);
    }
  }

  /** Reading the last entries of a profile gives the end of reading all of them, for every number of entries, if and
      only if no newline-terminated line of exactly the cap holds an entry of the profile. */
  lemma TailIsEndOfAll(s: seq<byte>, cap: nat, decode: Decoder, profile: string)
    ensures (forall tail: nat :: tail > 0 ==>
               ReadTail(s, cap, decode, profile, tail) == Last(ReadAll(s, cap, decode, profile), tail))
            <==> NoExact(s, cap, decode, profile)
  {
    hide Forward, Backward, Kept, NoExact;
    var found, all := Kept(Backward(s, cap, decode), profile), ReadAll(s, cap, decode, profile);
    BackwardIsReversedForward(s, cap, decode, profile);
    if NoExact(s, cap, decode, profile) {
      forall tail: nat | tail > 0 ensures ReadTail(s, cap, decode, profile, tail) == Last(all, tail) {
        ReversedTake(all, tail);
      }
    } else {
      var n := |found| + |all| + 1;
      assert ReadTail(s, cap, decode, profile, n) == Reversed(found) && Last(all, n) == all;
      ReversedTwice(found);
    }
  }

  /** Where a backward read stops, it has the first tail entries that count, or all of them. */
  lemma StoppedAtTail(visited: seq<Entry>, all: seq<Entry>, profile: string, tail: nat)
    requires tail > 0 && Stopped(visited, all, LastOf(profile, tail))
    ensures Kept(visited, profile) == Take(Kept(all, profile), tail)
  {
    hide Kept;
    var n := |visited|;
    assert all == visited + all[n..];
    KeptAppend(visited, all[n..], profile);
    KeptNothing(profile);
    if n > 0 {
      assert visited == all[..n - 1] + [all[n - 1]];
      KeptAppend(all[..n - 1], [all[n - 1]], profile);
      KeptOne(all[n - 1], profile);
      assert |Kept(all[..n - 1], profile)| < tail by {
        if n == 1 { assert all[..0] == []; } else { assert More(LastOf(profile, tail), all[..n - 1]); }
      }
    }
    assert visited == all ==> all[n..] == [];
  }

  /** The loop that puts the entries of a backward read in order. */
  method ReverseEntries(es: seq<Entry>) returns (r: seq<Entry>)
    ensures r == Reversed(es)
  {
    r := es;
    var left, right := 0, |es| - 1;
    while left < right
      invariant 0 <= left <= |es| && left + right == |es| - 1 && |r| == |es|
      invariant forall k :: left <= k <= right ==> r[k] == es[k]
      invariant forall k :: 0 <= k < left ==> r[k] == es[|es| - 1 - k]
      invariant forall k :: right < k < |es| ==> r[k] == es[|es| - 1 - k]
    {
      r := r[left := r[right]][right := r[left]];
      left, right := left + 1, right - 1;
    }
    ReversedLength(es);
    forall k | 0 <= k < |es| ensures r[k] == Reversed(es)[k] {
      ReversedAt(es, k);
    }
  }

  /** Read, of a file that may not be there. */
  method Read(file: Option<seq<byte>>, profile: string, tail: int, blockSize: nat, buffer: nat, cap: nat, decode: Decoder)
    returns (entries: seq<Entry>)
    requires blockSize > 0 && buffer > 0 && Decode(decode, []).None?
    ensures file.None? ==> entries == []
    ensures file.Some? && tail > 0 ==> entries == ReadTail(file.value, cap, decode, profile, tail)
    ensures file.Some? && tail <= 0 ==> entries == ReadAll(file.value, cap, decode, profile)
  {
    if file.None? {
      return [];
    }
    if tail > 0 {
      var visited := ScanEntriesReverse(file.value, blockSize, cap, decode, LastOf(profile, tail));
      StoppedAtTail(visited, Backward(file.value, cap, decode), profile, tail);
      entries := ReverseEntries(Kept(visited, profile));
      return;
    }
    var visited := ScanEntries(file.value, buffer, cap, decode);
    return Kept(visited, profile);
  }

  // ----- Complete

  type Encoder = imap<Entry, seq<byte>>

  const MAX_FIELD := 4096

  /** truncateField */
  function Truncate(s: string, max: nat): string {
    if |s| <= max then s else s[..max] + " ...[truncated]"
  }

  function Shortened(e: Entry): Entry {
    e.(command := Truncate(e.command, MAX_FIELD), error := Truncate(e.error, MAX_FIELD))
  }

  /** append; an entry that cannot be encoded is not appended. */
  function Appended(s: seq<byte>, e: Entry, encode: Encoder): seq<byte> {
    if Shortened(e) in encode then s + encode[Shortened(e)] + [NEWLINE] else s
  }

  /** The first entry that decides what is known of a run. */
  function Deciding(es: seq<Entry>, runID: string): Option<Entry> {
    if es == [] then None else if Decides(runID, es[0]) then Some(es[0]) else Deciding(es[1..], runID)
  }

  function Outcome(started: Entry, startedAt: int, finishedAt: int, exitCode: int): Entry {
    started.(startedAt := startedAt, finishedAt := finishedAt, exitCode := exitCode,
             durationMS := Milliseconds(finishedAt - startedAt), error := "", status := "completed")
  }

  /** time.Duration.Milliseconds: whole ones, towards zero. */
  function Milliseconds(d: int): int {
    if d < 0 then -(-d / 1_000_000) else d / 1_000_000
  }

  /** es[k] tells that the run started, and none before it tells of the run's end or something else that is known of it: the
      ones that do not matter have a status that is neither of these two, and some. */
  ghost predicate OpenStart(es: seq<Entry>, runID: string, k: int) {
    && 0 <= k < |es| && es[k].runID == runID
    && (es[k].status == "running" || (es[k].status == "" && es[k].exitCode == 75))
    && forall i :: 0 <= i < k && es[i].runID == runID ==> es[i].status !in {"", "running", "completed"}
  }

  /** The log is longer by the line of the reported outcome of the run that e started, unless that cannot be encoded. */
  ghost predicate Reported(s: seq<byte>, after: seq<byte>, e: Entry, startedAt: int, finishedAt: int, exitCode: int,
                           encode: Encoder)
  {
    exists o: Entry ::
      && o.profile == e.profile && o.target == e.target && o.runID == e.runID
      && o.command == (if |e.command| <= 4096 then e.command else e.command[..4096] + " ...[truncated]")
      && o.exitCode == exitCode && o.startedAt == startedAt && o.finishedAt == finishedAt
      && (finishedAt >= startedAt ==> o.durationMS == (finishedAt - startedAt) / 1_000_000)
      && (finishedAt < startedAt ==> -o.durationMS == (startedAt - finishedAt) / 1_000_000)
      && o.error == "" && o.status == "completed"
      && after == if o in encode then s + encode[o] + [NEWLINE] else s
  }

  /** The log after the outcome of a run is reported. */
  function Completed(s: seq<byte>, runID: string, startedAt: int, finishedAt: int, exitCode: int, cap: nat,
                     decode: Decoder, encode: Encoder): seq<byte> {
    var last := Deciding(Backward(s, cap, decode), runID);
    if runID != "" && last.Some? && last.value.status != "completed" && Started(last.value)
    then Appended(s, Outcome(last.value, startedAt, finishedAt, exitCode), encode)
    else s
  }

  /** Where a backward scan for a run stops, its last entry decides, or no entry does. */
  lemma {:induction false} StoppedAtDeciding(visited: seq<Entry>, all: seq<Entry>, runID: string, n: nat)
    requires Stopped(visited, all, OutcomeOf(runID)) && n < |visited|
    ensures Deciding(all[n..], runID)
         == if Decides(runID, visited[|visited| - 1]) then Some(visited[|visited| - 1]) else None
    decreases |visited| - n
  {
    hide Decides;
    assert all[n..][1..] == all[n + 1..];
    assert visited[|visited| - 1] == all[|visited| - 1];
    if n + 1 < |visited| {
      assert More(OutcomeOf(runID), all[..n + 1]);
      StoppedAtDeciding(visited, all, runID, n + 1);
    } else if !Decides(runID, visited[n]) {
      assert visited == all;
      assert all[n + 1..] == [];
    }
  }

  lemma {:induction false} StartDecides(es: seq<Entry>, runID: string, k: int)
    requires OpenStart(es, runID, k)
    ensures Deciding(es, runID) == Some(es[k]) && Started(es[k]) && es[k].status != "completed"
  {
    if k > 0 {
      assert OpenStart(es[1..], runID, k - 1) by {
        assert forall i :: 0 <= i < k - 1 ==> es[1..][i] == es[i + 1];
      }
      StartDecides(es[1..], runID, k - 1);
    }
  }

  lemma {:induction false} DecidingStart(es: seq<Entry>, runID: string)
    requires Deciding(es, runID).Some? && Started(Deciding(es, runID).value)
    ensures exists k :: OpenStart(es, runID, k)
  {
    if Decides(runID, es[0]) {
      assert OpenStart(es, runID, 0);
    } else {
      DecidingStart(es[1..], runID);
      var k :| OpenStart(es[1..], runID, k);
      assert es[0].runID == runID ==> es[0].status !in {"", "running", "completed"};
      forall i | 0 <= i < k + 1 && es[i].runID == runID ensures es[i].status !in {"", "running", "completed"} {
        if i > 0 {
          assert es[1..][i - 1] == es[i];
        }
      }
      assert OpenStart(es, runID, k + 1);
    }
  }

  lemma StartIsReported(s: seq<byte>, runID: string, k: int, startedAt: int, finishedAt: int, exitCode: int, cap: nat,
                        decode: Decoder, encode: Encoder)
    requires runID != "" && OpenStart(Backward(s, cap, decode), runID, k)
    ensures Reported(s, Completed(s, runID, startedAt, finishedAt, exitCode, cap, decode, encode),
                     Backward(s, cap, decode)[k], startedAt, finishedAt, exitCode, encode)
  {
    hide Backward, Deciding;
    var e := Backward(s, cap, decode)[k];
    StartDecides(Backward(s, cap, decode), runID, k);
    var o := Shortened(Outcome(e, startedAt, finishedAt, exitCode));
    assert o.status == "completed";
  }

  lemma NoStartChangesNothing(s: seq<byte>, runID: string, startedAt: int, finishedAt: int, exitCode: int, cap: nat,
                              decode: Decoder, encode: Encoder)
    requires forall k :: !OpenStart(Backward(s, cap, decode), runID, k)
    ensures Completed(s, runID, startedAt, finishedAt, exitCode, cap, decode, encode) == s
  {
    hide Backward, OpenStart;
    var last := Deciding(Backward(s, cap, decode), runID);
    if last.Some? && Started(last.value) {
      DecidingStart(Backward(s, cap, decode), runID);
    }
  }

  lemma CompletedIs(s: seq<byte>, runID: string, startedAt: int, finishedAt: int, exitCode: int, cap: nat, decode: Decoder,
                    encode: Encoder)
    ensures var last := Deciding(Backward(s, cap, decode), runID);
      Completed(s, runID, startedAt, finishedAt, exitCode, cap, decode, encode)
      == if runID != "" && last.Some? && last.value.status != "completed" && Started(last.value)
         then Appended(s, Outcome(last.value, startedAt, finishedAt, exitCode), encode) else s
  {
  }

  /** Complete: the outcome of a run is appended unless it is there already, or nothing tells that the run started. */
  method Complete(s: seq<byte>, runID: string, startedAt: int, finishedAt: int, exitCode: int, blockSize: nat, cap: nat,
                  decode: Decoder, encode: Encoder) returns (after: seq<byte>)
    requires blockSize > 0 && Decode(decode, []).None?
    ensures after == Completed(s, runID, startedAt, finishedAt, exitCode, cap, decode, encode)
    ensures forall k :: runID != "" && OpenStart(Backward(s, cap, decode), runID, k) ==>
      Reported(s, after, Backward(s, cap, decode)[k], startedAt, finishedAt, exitCode, encode)
    ensures runID == "" || (forall k :: !OpenStart(Backward(s, cap, decode), runID, k)) ==> after == s
  {
    hide Decides, Backward;
    forall k | runID != "" && OpenStart(Backward(s, cap, decode), runID, k)
      ensures Reported(s, Completed(s, runID, startedAt, finishedAt, exitCode, cap, decode, encode),
                       Backward(s, cap, decode)[k], startedAt, finishedAt, exitCode, encode)
    {
      StartIsReported(s, runID, k, startedAt, finishedAt, exitCode, cap, decode, encode);
    }
    if forall k :: !OpenStart(Backward(s, cap, decode), runID, k) {
      NoStartChangesNothing(s, runID, startedAt, finishedAt, exitCode, cap, decode, encode);
    }
    hide OpenStart, Reported, Completed;
    CompletedIs(s, runID, startedAt, finishedAt, exitCode, cap, decode, encode);
    if runID == "" {
      return s;
    }
    ghost var all := Backward(s, cap, decode);
    var visited := ScanEntriesReverse(s, blockSize, cap, decode, OutcomeOf(runID));
    assert all[0..] == all;
    if visited == [] {
      return s;
    }
    StoppedAtDeciding(visited, all, runID, 0);
    var last := visited[|visited| - 1];
    if !Decides(runID, last) || last.status == "completed" || !Started(last) {
      return s;
    }
    return Appended(s, Outcome(last, startedAt, finishedAt, exitCode), encode);
  }

  lemma AppendedLine(s: seq<byte>, line: seq<byte>, cap: nat, decode: Decoder)
    requires s == [] || s[|s| - 1] == NEWLINE
    requires NEWLINE !in line && Decode(decode, []).None?
    ensures Backward(s + line + [NEWLINE], cap, decode) == Visit(line, cap, decode) + Backward(s, cap, decode)
  {
    hide FindLast, Visit;
    VisitNothing(cap, decode);
    assert s + line + [NEWLINE] == (s + line) + [NEWLINE] + [];
    LastAt(s + line, []);
    if s == [] {
      assert s + line == line;
      NoLast(line);
      NoLast([]);
    } else {
      var s0 := s[..|s| - 1];
      assert s + line == s0 + [NEWLINE] + line && s == s0 + [NEWLINE] + [];
      LastAt(s0, line);
      LastAt(s0, []);
    }
  }

  lemma VisitNothing(cap: nat, decode: Decoder)
    requires Decode(decode, []).None?
    ensures Visit([], cap, decode) == []
  {
  }

  /** Reporting the outcome of a run a second time changes nothing, whatever the second report says, when the first outcome
      can be encoded at all: in a log whose last line is whole, when an encoded line fits the cap and decodes to an entry
      with its run id and status. */
  lemma CompleteTwice(s: seq<byte>, runID: string, startedAt: int, finishedAt: int, exitCode: int, startedAt2: int,
                      finishedAt2: int, exitCode2: int, cap: nat, decode: Decoder, encode: Encoder)
    requires Decode(decode, []).None? && (s == [] || s[|s| - 1] == NEWLINE)
    requires forall e :: e in encode ==>
      && NEWLINE !in encode[e] && |encode[e]| <= cap
      && Decode(decode, TrimReturn(encode[e])).Some?
      && Decode(decode, TrimReturn(encode[e])).value.runID == e.runID
      && Decode(decode, TrimReturn(encode[e])).value.status == e.status
    requires var last := Deciding(Backward(s, cap, decode), runID);
      last.Some? ==> Shortened(Outcome(last.value, startedAt, finishedAt, exitCode)) in encode
    ensures var once := Completed(s, runID, startedAt, finishedAt, exitCode, cap, decode, encode);
      Completed(once, runID, startedAt2, finishedAt2, exitCode2, cap, decode, encode) == once
  {
    hide Backward;
    var once := Completed(s, runID, startedAt, finishedAt, exitCode, cap, decode, encode);
    if once != s {
      var last := Deciding(Backward(s, cap, decode), runID).value;
      DecidingDecides(Backward(s, cap, decode), runID);
      var outcome := Outcome(last, startedAt, finishedAt, exitCode);
      AppendedLine(s, encode[Shortened(outcome)], cap, decode);
    }
  }

  lemma DecidingDecides(es: seq<Entry>, runID: string)
    ensures Deciding(es, runID).Some? ==> Decides(runID, Deciding(es, runID).value)
  {
  }

  /** The lines of a codec: each is one line that fits the cap and decodes to its entry. */
  ghost predicate Codec(encode: Encoder, decode: Decoder, cap: nat) {
    && Decode(decode, []).None?
    && forall e :: e in encode ==>
         NEWLINE !in encode[e] && RETURN !in encode[e] && |encode[e]| < cap && Decode(decode, encode[e]) == Some(e)
  }

  /** What Complete appends is read back: newest of all is the completed entry of the run, with the reported times, exit code
      and duration, and all that was there before is as it was. */
  lemma ReportReadsBack(s: seq<byte>, after: seq<byte>, e: Entry, startedAt: int, finishedAt: int, exitCode: int, cap: nat,
                        decode: Decoder, encode: Encoder)
    requires Codec(encode, decode, cap) && (s == [] || s[|s| - 1] == NEWLINE)
    requires Reported(s, after, e, startedAt, finishedAt, exitCode, encode) && after != s
    ensures var es := Backward(after, cap, decode);
      && es != [] && es[1..] == Backward(s, cap, decode)
      && es[0].runID == e.runID && es[0].profile == e.profile && es[0].target == e.target
      && (|e.command| <= 4096 ==> es[0].command == e.command)
      && es[0].status == "completed" && es[0].error == "" && es[0].exitCode == exitCode
      && es[0].startedAt == startedAt && es[0].finishedAt == finishedAt
      && (finishedAt >= startedAt ==> es[0].durationMS == (finishedAt - startedAt) / 1_000_000)
  {
    hide Backward;
    var o: Entry :|
      && o.profile == e.profile && o.target == e.target && o.runID == e.runID
      && o.command == (if |e.command| <= 4096 then e.command else e.command[..4096] + " ...[truncated]")
      && o.exitCode == exitCode && o.startedAt == startedAt && o.finishedAt == finishedAt
      && (finishedAt >= startedAt ==> o.durationMS == (finishedAt - startedAt) / 1_000_000)
      && (finishedAt < startedAt ==> -o.durationMS == (startedAt - finishedAt) / 1_000_000)
      && o.error == "" && o.status == "completed"
      && after == if o in encode then s + encode[o] + [NEWLINE] else s;
    AppendedLine(s, encode[o], cap, decode);
    assert ([o] + Backward(s, cap, decode))[1..] == Backward(s, cap, decode);
  }

  /** An appended entry is read back as the last one, shortened. */
  lemma AppendReadsBack(s: seq<byte>, e: Entry, cap: nat, decode: Decoder, encode: Encoder)
    requires Codec(encode, decode, cap) && (s == [] || s[|s| - 1] == NEWLINE) && Shortened(e) in encode
    ensures var after := Appended(s, e, encode);
      && Backward(after, cap, decode) == [Shortened(e)] + Backward(s, cap, decode)
      && Forward(after, cap, decode) == Forward(s, cap, decode) + [Shortened(e)]
      && after[|after| - 1] == NEWLINE
  {
    hide Backward, Forward;
    AppendedLine(s, encode[Shortened(e)], cap, decode);
    AppendedForward(s, encode[Shortened(e)], cap, decode);
  }

  lemma {:induction false} AppendedForward(s: seq<byte>, line: seq<byte>, cap: nat, decode: Decoder)
    requires s == [] || s[|s| - 1] == NEWLINE
    requires NEWLINE !in line && Decode(decode, []).None?
    ensures Forward(s + line + [NEWLINE], cap, decode) == Forward(s, cap, decode) + Visit(line, cap - 1, decode)
    decreases |s|
  {
    hide Find, Visit;
    VisitNothing(cap, decode);
    if s == [] {
      assert s + line + [NEWLINE] == line + [NEWLINE] + [];
      FirstOf(line, []);
      assert Forward([], cap, decode) == [] by { assert Find([], NEWLINE) == 0; }
    } else {
      var k := Find(s, NEWLINE);
      var rest := s[k + 1..];
      assert s == s[..k] + [NEWLINE] + rest;
      assert s + line + [NEWLINE] == s[..k] + [NEWLINE] + (rest + line + [NEWLINE]);
      FirstOf(s[..k], rest + line + [NEWLINE]);
      assert rest != [] ==> rest[|rest| - 1] == NEWLINE;
      AppendedForward(rest, line, cap, decode);
    }
  }

  /** How a log is read, line by line: a line that fits with its newline and decodes gives its entry, if the entry is of the
      profile asked for, and so it does with a carriage return before its newline; any other line gives nothing. */
  lemma LineIsRead(s: seq<byte>, line: seq<byte>, cap: nat, decode: Decoder, profile: string)
    requires (s == [] || s[|s| - 1] == NEWLINE) && Decode(decode, []).None?
    requires NEWLINE !in line && (line == [] || line[|line| - 1] != RETURN)
    ensures var all := ReadAll(s, cap, decode, profile);
      var wanted := line in decode && (profile == "" || decode[line].profile == profile);
      && ReadAll([], cap, decode, profile) == []
      && ReadAll(s + line + [NEWLINE], cap, decode, profile)
         == (if wanted && |line| < cap then all + [decode[line]] else all)
      && ReadAll(s + (line + [RETURN]) + [NEWLINE], cap, decode, profile)
         == (if wanted && |line| + 1 < cap then all + [decode[line]] else all)
  {
    hide Forward, Kept;
    AppendedForward(s, line, cap, decode);
    AppendedForward(s, line + [RETURN], cap, decode);
    KeptAppend(Forward(s, cap, decode), Visit(line, cap - 1, decode), profile);
    KeptAppend(Forward(s, cap, decode), Visit(line + [RETURN], cap - 1, decode), profile);
    KeptNothing(profile);
    assert (line + [RETURN])[..|line|] == line;
    if line in decode {
      KeptOne(decode[line], profile);
    }
    NothingRead(cap, decode);
    var all := ReadAll(s, cap, decode, profile);
    assert all + [] == all;
  }

  lemma NothingRead(cap: nat, decode: Decoder)
    requires Decode(decode, []).None?
    ensures Forward([], cap, decode) == []
  {
    assert Find([], NEWLINE) == 0;
    VisitNothing(cap, decode);
  }
}
