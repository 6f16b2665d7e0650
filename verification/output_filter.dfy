/** The streaming filter: it edits lines as they come, keeps the first ones and a ring of the last ones, and renders them
    as the middle-out view of the whole text would. */
module OutputFilter {
  import opened Text
  import opened LineEditor
  import OutputBound

  const MAX_SIGNALS := 8

  // ----- what the filter shows of its lines

  /** The head, a count of the hidden lines if there are any, and the tail. */
  function Render(lines: seq<Line>, head: nat, tail: nat): seq<byte> {
    if |lines| <= head + tail then OutputBound.Unlines(lines)
    else OutputBound.MiddleOut(lines, head, |lines| - tail)
  }

  function Min(a: int, b: int): int {
    if a < b then a else b
  }

  // ----- remainders of positions in the ring

  lemma {:induction false} RemainderUp(x: int, k: nat, m: nat)
    requires m > 0
    ensures (x + k * m) % m == x % m
  {
    if k > 0 {
      assert x + k * m == (x + (k - 1) * m) + m;
      RemainderUp(x, k - 1, m);
      RemainderOnce(x + (k - 1) * m, m);
    }
  }

  lemma RemainderOnce(x: int, m: nat)
    requires m > 0
    ensures (x + m) % m == x % m
  {
    var q, r := x / m, x % m;
    assert x + m == (q + 1) * m + r;
    RemainderUnique(x + m, q + 1, r, m);
  }

  lemma RemainderUnique(x: int, q: int, r: int, m: nat)
    requires m > 0 && x == q * m + r && 0 <= r < m
    ensures x % m == r && x / m == q
  {
    assert (x / m - q) * m == r - x % m;
    Multiple(x / m - q, m);
  }

  lemma Multiple(d: int, m: nat)
    requires m > 0
    ensures d >= 1 ==> d * m >= m
    ensures d <= -1 ==> d * m + m <= 0
  {
  }

  /** Two positions less than a round apart have different places. */
  lemma RemainderDistinct(j: nat, c: nat, m: nat)
    requires m > 0 && j < c < j + m
    ensures j % m != c % m
  {
    assert j % m == c % m ==> c - j == (c / m - j / m) * m;
    Multiple(c / m - j / m, m);
  }

  lemma RemainderNext(c: nat, m: nat)
    requires m > 0
    ensures (c % m + 1) % m == (c + 1) % m
  {
    var q := c / m;
    assert c + 1 == (c % m + 1) + q * m;
    RemainderUp(c % m + 1, q, m);
  }

  /** The place of the i-th of the last len lines, as String computes it from the next place to be written. */
  lemma RingPlace(c: nat, len: nat, i: nat, m: nat)
    requires m > 0 && len <= c && len <= m && i < len
    ensures (c % m - len + i + m) % m == (c - len + i) % m
  {
    var q := c / m;
    assert c - len + i + m == (c % m - len + i + m) + q * m;
    RemainderUp(c % m - len + i + m, q, m);
    RemainderOnce(c - len + i, m);
  }

  // ----- the filter

  class Filter {
    const headLines: nat
    const tailLines: nat
    const maxLineBytes: nat
    const unbounded: bool
    const notable: OutputBound.Notable

    var line: seq<byte>
    var col: nat
    var inEsc: bool
    var esc: seq<byte>
    var head: seq<Line>
    const tail: array<Line>
    var tailNext: nat
    var tailLen: nat
    var n: nat
    var signals: seq<Line>
    var seen: set<Line>
    ghost var lines: seq<Line>   // all that were emitted

    function Editing(): Editor
      reads this`line, this`col, this`inEsc, this`esc
    {
      Editor(line, col, inEsc, esc)
    }

    /** How many lines went to the ring. */
    function Ringed(): nat
      reads this`n
    {
      if unbounded || n <= headLines then 0 else n - headLines
    }

    ghost predicate Kept()
      reads this`head, this`tailNext, this`tailLen, this`n, this`lines
    {
      && n == |lines| && tailLines > 0
      && head == (if unbounded || n <= headLines then lines else lines[..headLines])
      && tailNext == Ringed() % tailLines && tailLen == Min(Ringed(), tailLines)
    }

    ghost predicate Ring()
      reads this`n, this`lines, tail
    {
      && n == |lines| && tail.Length == tailLines > 0
      && forall j :: 0 <= j < Ringed() && Ringed() - tailLines <= j ==> tail[j % tailLines] == lines[headLines + j]
    }

    ghost predicate Noted()
      reads this`signals, this`seen, this`lines
    {
      && signals == OutputBound.SignalsOf(lines, MAX_SIGNALS, notable)
      && |signals| <= MAX_SIGNALS
      && (|signals| < MAX_SIGNALS ==>
            forall t :: t in seen <==> t in OutputBound.Distinct(lines, notable))
    }

    ghost predicate Valid()
      reads this, tail
    {
      && headLines > 0 && tailLines > 0 && tail.Length == tailLines
      && Kept() && Ring() && Noted() && (OutputBound.Plain(lines) && LineEditor.Plain(Editing()))
    }

    /** New */
    constructor (head0: int, tail0: int, maxLine: int, unbounded: bool, notable: OutputBound.Notable)
      ensures Valid() && fresh(tail) && lines == [] && Editing() == START
      ensures headLines == (if head0 <= 0 then 40 else head0) && tailLines == (if tail0 <= 0 then 120 else tail0)
      ensures maxLineBytes == (if maxLine > 0 then maxLine else if unbounded then 20 * 1024 * 1024 else 64 * 1024)
      ensures this.unbounded == unbounded && this.notable == notable
    {
      headLines := if head0 <= 0 then 40 else head0;
      tailLines := if tail0 <= 0 then 120 else tail0;
      maxLineBytes := if maxLine > 0 then maxLine else if unbounded then 20 * 1024 * 1024 else 64 * 1024;
      this.unbounded, this.notable := unbounded, notable;
      line, col, inEsc, esc := [], 0, false, [];
      head, tailNext, tailLen, n, signals, seen, lines := [], 0, 0, 0, [], {}, [];
      tail := new Line[if tail0 <= 0 then 120 else tail0](_ => []);
    }

    /** put */
    method Put(b: byte)
      modifies this`line, this`col
      ensures Editing() == LineEditor.Put(old(Editing()), b, Some(maxLineBytes))
    {
      if col < |line| {
        line := line[col := b];
      } else {
        if |line| >= maxLineBytes {
          col := col + 1;
          return;
        }
        line := line + [b];
      }
      col := col + 1;
    }

    /** applyCSI */
    method ApplyCSI(final: byte)
      requires esc != []
      modifies this`line, this`col
      ensures Editing() == LineEditor.ApplyCSI(old(Editing()), final)
    {
      if final != FINAL_K {
        return;
      }
      var param := esc[1..];
      if param == [] || param == [48] {
        if col < |line| {
          line := line[..col];
        }
      } else if param == [49] {
        var i := 0;
        while i < col && i < |line|
          invariant |line| == |old(line)| && i <= |line| && i <= col
          invariant line == Blanked(old(line), i) && col == old(col)
        {
          line := line[i := SPACE];
          i := i + 1;
        }
        assert Blanked(old(line), i) == Blanked(old(line), col);
      } else if param == [50] {
        line := [];
        col := 0;
      }
    }

    /** feedEsc */
    method FeedEsc(b: byte)
      requires inEsc
      modifies this`line, this`col, this`inEsc, this`esc
      ensures Editing() == LineEditor.FeedEsc(old(Editing()), b)
    {
      if |esc| == 0 {
        if b == BRACKET {
          esc := esc + [b];
          return;
        }
        inEsc := false;
        return;
      }
      if 0x40 <= b as int <= 0x7E {
        ApplyCSI(b);
        inEsc := false;
        return;
      }
      esc := esc + [b];
      if |esc| > MAX_ESC {
        inEsc := false;
      }
    }

    /** scanSignal */
    method ScanSignal(l: Line)
      requires Noted()
      modifies this`signals, this`seen, this`lines
      ensures Noted() && lines == old(lines) + [l]
    {
      hide OutputBound.Distinct, OutputBound.SignalsOf, OutputBound.Shorten, OutputBound.Shortens;
      lines := lines + [l];
      SignalStep(lines, MAX_SIGNALS, notable);
      assert lines[..|lines| - 1] == old(lines);
      if |signals| >= MAX_SIGNALS {
        return;
      }
      if l !in notable {
        return;
      }
      var t := notable[l];
      if t in seen {
        return;
      }
      seen := seen + {t};
      signals := signals + [OutputBound.Shorten(t)];
    }

    /** emit */
    method Emit(l: Line)
      requires Valid() && NEWLINE !in l
      modifies this`head, this`tailNext, this`tailLen, this`n, this`signals, this`seen, this`lines, tail
      ensures Valid() && lines == old(lines) + [l]
    {
      hide Noted;
      ScanSignal(l);
      n := n + 1;
      if unbounded {
        head := head + [l];
        return;
      }
      if |head| < headLines {
        head := head + [l];
        return;
      }
      EmitTail(l);
    }

    /** The part of emit for the ring. */
    method EmitTail(l: Line)
      requires headLines > 0 && tailLines > 0 && tail.Length == tailLines && !unbounded
      requires n == |lines| > headLines && lines[n - 1] == l && head == lines[..headLines]
      requires tailNext == (Ringed() - 1) % tailLines && tailLen == Min(Ringed() - 1, tailLines)
      requires forall j :: 0 <= j < Ringed() - 1 && Ringed() - 1 - tailLines <= j ==>
        tail[j % tailLines] == lines[headLines + j]
      modifies this`tailNext, this`tailLen, tail
      ensures Kept() && Ring()
    {
      tail[tailNext] := l;
      RemainderNext(Ringed() - 1, tailLines);
      tailNext := (tailNext + 1) % tailLines;
      if tailLen < tailLines {
        tailLen := tailLen + 1;
      }
      forall j | 0 <= j < Ringed() && Ringed() - tailLines <= j ensures tail[j % tailLines] == lines[headLines + j] {
        if j < Ringed() - 1 {
          RemainderDistinct(j, Ringed() - 1, tailLines);
        }
      }
    }
  
    /** finishLine */
    method FinishLine()
      requires Valid()
      modifies this, tail
      ensures Valid() && lines == old(lines) + [TrimSpaces(old(line))]
      ensures Editing() == old(Editing()).(line := [], col := 0)
    {
      hide Kept, Ring, Noted;
      Emit(TrimSpaces(line));
      line := [];
      col := 0;
    }

    /** feed */
    method Feed(b: byte)
      requires Valid()
      modifies this, tail
      ensures Valid() && Editing() == LineEditor.Feed(old(Editing()), b, Some(maxLineBytes))
      ensures lines == old(lines) + (if Ends(old(Editing()), b) then [TrimSpaces(old(line))] else [])
    {
      hide Kept, Ring, Noted;
      FeedPlain(Editing(), b, Some(maxLineBytes));
      if inEsc {
        FeedEsc(b);
        return;
      }
      if b == ESC {
        inEsc := true;
        esc := [];
      } else if b == NEWLINE {
        FinishLine();
      } else if b == RETURN {
        col := 0;
      } else if b == BACKSPACE {
        if col > 0 {
          col := col - 1;
        }
      } else if b == TAB {
        Put(TAB);
      } else if b == BEL {
      } else {
        if b as int < 0x20 {
          return;
        }
        Put(b);
      }
    }

    /** Write */
    method Write(p: seq<byte>)
      requires Valid()
      modifies this, tail
      ensures Valid()
      ensures var r := Run(old(Editing()), p, Some(maxLineBytes)); Editing() == r.0 && lines == old(lines) + Trimmed(r.1)
    {
      hide Valid, LineEditor.Feed, Ends, TrimSpaces;
      ghost var before := Editing();
      RunNothing(before, Some(maxLineBytes));
      TrimmedNothing();
      for i := 0 to |p|
        invariant Valid()
        invariant Editing() == Run(before, p[..i], Some(maxLineBytes)).0
        invariant lines == old(lines) + Trimmed(Run(before, p[..i], Some(maxLineBytes)).1)
      {
        RunByte(before, p[..i], p[i], Some(maxLineBytes));
        assert p[..i + 1] == p[..i] + [p[i]];
        TrimmedStep(Run(before, p[..i], Some(maxLineBytes)).1, line);
        Feed(p[i]);
      }
      assert p[..|p|] == p;
    }

    /** flushPartial */
    method FlushPartial()
      requires Valid()
      modifies this, tail
      ensures Valid() && line == [] && lines == Shown(old(lines), old(line))
    {
      hide Kept, Ring, Noted;
      if |line| > 0 {
        FinishLine();
      }
    }

    /** Hidden */
    method Hidden() returns (hidden: nat)
      requires Valid()
      modifies this, tail
      ensures Valid() && lines == Shown(old(lines), old(line))
      ensures hidden == if !unbounded && |lines| > headLines + tailLines then |lines| - headLines - tailLines else 0
    {
      FlushPartial();
      var h: int := n - |head| - tailLen;
      return if h < 0 then 0 else h;
    }

    /** Signals */
    method Signals() returns (r: seq<Line>)
      requires Valid()
      modifies this, tail
      ensures Valid() && lines == Shown(old(lines), old(line))
      ensures r == OutputBound.SignalsOf(lines, MAX_SIGNALS, notable)
    {
      hide Kept, Ring;
      FlushPartial();
      return signals;
    }

    /** The place of the i-th line of the ring, oldest first. */
    function Place(i: nat): int
      reads this`tailNext, this`tailLen
      requires tailLines > 0
    {
      (tailNext - tailLen + i + tailLines) % tailLines
    }

    lemma TailAt(i: nat)
      requires Kept() && Ring() && !unbounded && i < tailLen
      ensures 0 <= Place(i) < tail.Length && 0 <= n - tailLen + i < |lines| && tail[Place(i)] == lines[n - tailLen + i]
    {
      RingPlace(Ringed(), tailLen, i, tailLines);
    }

    /** The ring, oldest line first. */
    method TailLines() returns (last: seq<Line>)
      requires Valid() && !unbounded
      ensures tailLen <= |lines| && last == lines[|lines| - tailLen..]
    {
      assert tailLen <= n == |lines|;
      hide Noted, Kept, Ring, Place;
      ghost var from := n - tailLen;
      last := [];
      for i := 0 to tailLen
        invariant last == lines[from..from + i]
      {
        TailAt(i);
        assert lines[from..from + i + 1] == lines[from..from + i] + [lines[from + i]];
        last := last + [tail[Place(i)]];
      }
    }

    /** String */
    method String() returns (text: seq<byte>)
      requires Valid()
      modifies this, tail
      ensures Valid() && line == [] && lines == Shown(old(lines), old(line))
      ensures text == if unbounded then OutputBound.Unlines(lines) else Render(lines, headLines, tailLines)
    {
      FlushPartial();
      if unbounded {
        return OutputBound.Unlines(head);
      }
      text := Joined();
    }

    /** The bounded part of String. */
    method Joined() returns (text: seq<byte>)
      requires Valid() && !unbounded
      ensures text == Render(lines, headLines, tailLines)
    {
      assert n == |lines| && head == lines[..Min(n, headLines)] && tailLen == Min(n - |head|, tailLines);
      var last := TailLines();
      hide Valid, Noted, Ring, Kept, Render;
      var hidden: int := n - |head| - tailLen;
      if hidden < 0 {
        hidden := 0;
      }
      RenderParts(lines, headLines, tailLines, head, last);
      text := OutputBound.Unlines(head);
      if hidden > 0 {
        text := text + (OutputBound.HiddenMarker(hidden) + [NEWLINE]);
      }
      text := text + OutputBound.Unlines(last);
    }
  }

  /** A head and a tail of lines, rendered, with the count of the others between them if there are any. */
  lemma RenderParts(lines: seq<Line>, h: nat, t: nat, head: seq<Line>, last: seq<Line>)
    requires head == lines[..Min(|lines|, h)]
    requires |last| == Min(|lines| - |head|, t) && last == lines[|lines| - |last|..]
    ensures var hidden := |lines| - |head| - |last|;
      if hidden > 0 then
        Render(lines, h, t)
        == OutputBound.Unlines(head) + (OutputBound.HiddenMarker(hidden) + [NEWLINE]) + OutputBound.Unlines(last)
      else
        Render(lines, h, t) == OutputBound.Unlines(head) + OutputBound.Unlines(last)
  {
    hide OutputBound.Unlines, OutputBound.HiddenMarker;
    if |lines| <= h + t {
      assert lines == head + last;
      OutputBound.UnlinesAppend(head, last);
    } else {
      assert |head| == h && |last| == t;
    }
  }

  /** The emitted lines with a last line that has no newline yet. */
  function Shown(lines: seq<Line>, line: Line): seq<Line> {
    if line == [] then lines else lines + [TrimSpaces(line)]
  }

  lemma TrimmedNothing()
    ensures Trimmed([]) == []
  {
  }

  lemma TrimmedStep(lines: seq<Line>, line: Line)
    ensures Trimmed(lines + [line]) == Trimmed(lines) + [TrimSpaces(line)]
  {
  }

  /** What one more line adds to the signals. */
  lemma SignalStep(lines: seq<Line>, max: nat, notable: OutputBound.Notable)
    requires lines != []
    ensures var before, l := lines[..|lines| - 1], lines[|lines| - 1];
            var texts := OutputBound.Distinct(before, notable);
      && |OutputBound.SignalsOf(before, max, notable)| == Min(|texts|, max)
      && |OutputBound.SignalsOf(lines, max, notable)| == Min(|OutputBound.Distinct(lines, notable)|, max)
      && (if l in notable && notable[l] !in texts then
            && OutputBound.Distinct(lines, notable) == texts + [notable[l]]
            && OutputBound.SignalsOf(lines, max, notable)
            == OutputBound.SignalsOf(before, max, notable)
               + (if |texts| < max then [OutputBound.Shorten(notable[l])] else [])
          else
            && OutputBound.Distinct(lines, notable) == texts
            && OutputBound.SignalsOf(lines, max, notable) == OutputBound.SignalsOf(before, max, notable))
  {
    var before, l := lines[..|lines| - 1], lines[|lines| - 1];
    var texts := OutputBound.Distinct(before, notable);
    if l in notable && notable[l] !in texts && |texts| >= max {
      assert (texts + [notable[l]])[..max] == texts[..max];
    }
  }
}
