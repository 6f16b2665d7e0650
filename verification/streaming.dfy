/** The streaming filter against the batch view: the same stream, filtered as it comes or bounded afterwards. */
module Streaming {
  import opened Text
  import opened LineEditor
  import opened OutputFilter
  import OutputBound

  type Lines = seq<Line>

  // ----- lists of lines and their texts

  lemma {:induction false} UnlinesInjective(a: Lines, b: Lines)
    requires OutputBound.Plain(a) && OutputBound.Plain(b) && OutputBound.Unlines(a) == OutputBound.Unlines(b)
    ensures a == b
  {
    if a != [] && b != [] {
      FirstLine(a);
      FirstLine(b);
      UnlinesInjective(a[1..], b[1..]);
      assert a == [a[0]] + a[1..] && b == [b[0]] + b[1..];
    }
  }

  lemma FirstLine(a: Lines)
    requires a != [] && OutputBound.Plain(a)
    ensures var s := OutputBound.Unlines(a);
      && Find(s, NEWLINE) == |a[0]| < |s| && s[..|a[0]|] == a[0] && s[|a[0]| + 1..] == OutputBound.Unlines(a[1..])
  {
    var s := OutputBound.Unlines(a);
    assert s == a[0] + [NEWLINE] + OutputBound.Unlines(a[1..]);
    assert s[|a[0]|] == NEWLINE;
    assert forall i :: 0 <= i < |a[0]| ==> s[i] == a[0][i];
  }

  lemma UnlinesLast(a: Lines)
    requires a != []
    ensures OutputBound.Unlines(a) == OutputBound.Unlines(a[..|a| - 1]) + a[|a| - 1] + [NEWLINE]
  {
    hide OutputBound.Unlines;
    var before, last := a[..|a| - 1], a[|a| - 1];
    assert a == before + [last];
    OutputBound.UnlinesAppend(before, [last]);
    OneLine(last);
  }

  /** Splitting a text without its last newline gives its lines back. */
  lemma SplitBack(a: Lines, s: seq<byte>)
    requires OutputBound.Plain(a) && OutputBound.Unlines(a) == s + [NEWLINE]
    ensures OutputBound.Split(s) == a
  {
    OutputBound.SplitIsPlain(s);
    UnlinesInjective(OutputBound.Split(s), a);
  }

  /** The number of lines up to the last one that is not empty. */
  function Solid(lines: Lines): (m: nat)
    ensures m <= |lines|
    ensures m > 0 ==> lines[m - 1] != []
    ensures forall i :: m <= i < |lines| ==> lines[i] == []
  {
    if lines != [] && lines[|lines| - 1] == [] then Solid(lines[..|lines| - 1]) else |lines|
  }

  /** Trimming the newlines at the end of a text drops the empty lines at its end, and one newline more. */
  lemma {:induction false} TrimmedText(lines: Lines)
    requires OutputBound.Plain(lines)
    ensures var trimmed, m := OutputBound.TrimNewlines(OutputBound.Unlines(lines)), Solid(lines);
      if m == 0 then trimmed == []
      else trimmed != [] && OutputBound.Unlines(lines[..m]) == trimmed + [NEWLINE]
  {
    if lines != [] {
      var before, last := lines[..|lines| - 1], lines[|lines| - 1];
      var s := OutputBound.Unlines(lines);
      UnlinesLast(lines);
      assert s[..|s| - 1] == OutputBound.Unlines(before) + last;
      if last == [] {
        TrimmedText(before);
        assert s[..|s| - 1] == OutputBound.Unlines(before);
        assert lines[..Solid(before)] == before[..Solid(before)];
      } else {
        assert s[..|s| - 1][|s| - 2] == last[|last| - 1];
        assert lines[..|lines|] == lines;
      }
    }
  }

  // ----- both views as texts of lists of lines

  function RenderedLines(lines: Lines, h: nat, t: nat): Lines {
    if |lines| <= h + t then lines else MiddleLines(lines, h, t)
  }

  function MiddleLines(lines: Lines, h: nat, t: nat): Lines
    requires |lines| > h + t
  {
    lines[..h] + [OutputBound.HiddenMarker(|lines| - h - t)] + lines[|lines| - t..]
  }

  function BoundedLines(lines: Lines, h: nat, t: nat): Lines {
    var m := Solid(lines);
    if m == 0 then [] else if m <= h + t then lines else MiddleLines(lines[..m], h, t)
  }

  lemma MarkerPlain(hidden: nat)
    ensures NEWLINE !in OutputBound.HiddenMarker(hidden)
  {
    var digits := Itoa(hidden);
    var text := "... " + digits + " line(s) hidden ...";
    assert forall i :: 0 <= i < |digits| ==> IsDigit(digits[i]);
    assert forall i :: 0 <= i < |text| ==> text[i] != '\n' && text[i] as int < 256;
  }

  lemma MarkerInjective(a: nat, b: nat)
    requires OutputBound.HiddenMarker(a) == OutputBound.HiddenMarker(b)
    ensures a == b
  {
    MarkerDigits(a);
    MarkerDigits(b);
    ItoaInjective(a, b);
  }

  lemma MarkerDigits(a: nat)
    ensures |OutputBound.HiddenMarker(a)| == |Itoa(a)| + 23
    ensures Chars(OutputBound.HiddenMarker(a))[4..4 + |Itoa(a)|] == Itoa(a)
  {
    var digits := Itoa(a);
    var text := "... " + digits + " line(s) hidden ...";
    assert forall i :: 0 <= i < |digits| ==> IsDigit(digits[i]);
    assert forall i :: 0 <= i < |text| ==> text[i] as int < 256;
    CharsOfAscii(text);
  }

  lemma MiddleText(lines: Lines, h: nat, t: nat)
    requires OutputBound.Plain(lines) && |lines| > h + t
    ensures OutputBound.MiddleOut(lines, h, |lines| - t) == OutputBound.Unlines(MiddleLines(lines, h, t))
    ensures OutputBound.Plain(MiddleLines(lines, h, t))
  {
    hide OutputBound.HiddenMarker;
    var marker := OutputBound.HiddenMarker(|lines| - h - t);
    MarkerPlain(|lines| - h - t);
    OutputBound.UnlinesAppend(lines[..h] + [marker], lines[|lines| - t..]);
    OutputBound.UnlinesAppend(lines[..h], [marker]);
    OneLine(marker);
  }

  lemma OneLine(line: Line)
    ensures OutputBound.Unlines([line]) == line + [NEWLINE]
  {
    assert OutputBound.Unlines([line][1..]) == [];
  }

  lemma RenderedText(lines: Lines, h: nat, t: nat)
    requires OutputBound.Plain(lines)
    ensures Render(lines, h, t) == OutputBound.Unlines(RenderedLines(lines, h, t))
    ensures OutputBound.Plain(RenderedLines(lines, h, t))
  {
    if |lines| > h + t {
      MiddleText(lines, h, t);
    }
  }

  lemma BoundedText(lines: Lines, h: nat, t: nat)
    requires OutputBound.Plain(lines)
    ensures OutputBound.BoundLines(OutputBound.Unlines(lines), h, t) == OutputBound.Unlines(BoundedLines(lines, h, t))
    ensures OutputBound.Plain(BoundedLines(lines, h, t))
  {
    hide OutputBound.TrimNewlines, OutputBound.Split, OutputBound.Unlines, OutputBound.MiddleOut, MiddleLines, Solid;
    var m := Solid(lines);
    assert OutputBound.Plain(lines[..m]);
    TrimmedText(lines);
    NoText();
    if m > 0 {
      SplitBack(lines[..m], OutputBound.TrimNewlines(OutputBound.Unlines(lines)));
      if m > h + t {
        MiddleText(lines[..m], h, t);
      }
    }
  }

  lemma NoText()
    ensures OutputBound.Unlines([]) == []
  {
  }

  // ----- when they agree

  /** There is no line, or the last line is not empty, or there is a line that is not empty and nothing is hidden - or
      exactly one line, that reads as the marker which hides it. */
  predicate Agrees(lines: Lines, h: nat, t: nat) {
    var n := |lines|;
    || n == 0
    || lines[n - 1] != []
    || ((exists i :: 0 <= i < n && lines[i] != [])
        && (n <= h + t || (n == h + t + 1 && lines[h] == OutputBound.HiddenMarker(1))))
  }

  lemma SameLines(lines: Lines, h: nat, t: nat)
    requires h > 0 && t > 0
    ensures RenderedLines(lines, h, t) == BoundedLines(lines, h, t) <==> Agrees(lines, h, t)
  {
    hide OutputBound.HiddenMarker, Solid;
    var n, m := |lines|, Solid(lines);
    var rendered, bounded := RenderedLines(lines, h, t), BoundedLines(lines, h, t);
    if m == n {
      assert lines[..m] == lines;
    } else if m > 0 {
      assert lines[m - 1] != [] && lines[n - 1] == [];
      if m > h + t {
        assert rendered[h] == OutputBound.HiddenMarker(n - h - t) && bounded[h] == OutputBound.HiddenMarker(m - h - t);
        if rendered == bounded {
          MarkerInjective(n - h - t, m - h - t);
        }
      } else if n == h + t + 1 {
        assert rendered[h] == OutputBound.HiddenMarker(1);
        assert lines == lines[..h] + [lines[h]] + lines[n - t..];
      }
    }
  }

  /** The streaming filter renders what the batch view makes of the unbounded text if and only if the lines agree so. */
  lemma StreamingIsBatch(lines: Lines, h: nat, t: nat)
    requires OutputBound.Plain(lines) && h > 0 && t > 0
    ensures Render(lines, h, t) == OutputBound.BoundLines(OutputBound.Unlines(lines), h, t) <==> Agrees(lines, h, t)
  {
    hide RenderedLines, BoundedLines, Agrees, Render, OutputBound.BoundLines;
    RenderedText(lines, h, t);
    BoundedText(lines, h, t);
    SameLines(lines, h, t);
    if OutputBound.Unlines(RenderedLines(lines, h, t)) == OutputBound.Unlines(BoundedLines(lines, h, t)) {
      UnlinesInjective(RenderedLines(lines, h, t), BoundedLines(lines, h, t));
    }
  }

  /** A stream of one newline: the filter shows an empty line, the batch view nothing. */
  lemma LoneNewlineDiffers(cap: nat, h: nat, t: nat)
    requires h > 0 && t > 0
    ensures var lines := LinesOf(START, [NEWLINE], Some(cap));
      && lines == [[]] && !Agrees(lines, h, t)
      && Render(lines, h, t) == [NEWLINE] && OutputBound.BoundLines(OutputBound.Unlines(lines), h, t) == []
  {
    var lines := LinesOf(START, [NEWLINE], Some(cap));
    assert [NEWLINE][..0] == [] && Run(START, [], Some(cap)) == (START, []);
    assert Run(START, [NEWLINE], Some(cap)).1 == [] + [[]];
    assert Run(START, [NEWLINE], Some(cap)).0.line == [];
    assert Trimmed([] + [[]]) == [[]];
    OneLine([]);
    assert [] + [NEWLINE] == [NEWLINE];
    assert OutputBound.TrimNewlines([NEWLINE]) == [];
  }

  /** The text of all lines has the signals of the lines. */
  lemma SignalsOfText(lines: Lines, max: nat, notable: OutputBound.Notable)
    requires OutputBound.Plain(lines) && [] !in notable
    ensures OutputBound.SignalsOf(OutputBound.Split(OutputBound.Unlines(lines)), max, notable)
         == OutputBound.SignalsOf(lines, max, notable)
  {
    hide OutputBound.Unlines, OutputBound.Split, OutputBound.Distinct, OutputBound.Shortens;
    OneLine([]);
    OutputBound.UnlinesAppend(lines, [[]]);
    assert [] + [NEWLINE] == [NEWLINE];
    SplitBack(lines + [[]], OutputBound.Unlines(lines));
    EmptyLineIsQuiet(lines, notable);
  }

  lemma EmptyLineIsQuiet(lines: Lines, notable: OutputBound.Notable)
    requires [] !in notable
    ensures OutputBound.Distinct(lines + [[]], notable) == OutputBound.Distinct(lines, notable)
  {
    assert (lines + [[]])[..|lines|] == lines;
  }

  lemma LinesPlain(stream: seq<byte>, cap: nat)
    ensures OutputBound.Plain(LinesOf(START, stream, Some(cap)))
  {
    RunPlain(START, stream, Some(cap));
  }

  /** A stream filtered as it comes, and bounded after it was filtered without bounds, with equal line caps. */
  method BothWays(stream: seq<byte>, head: int, tail: int, cap: int, notable: OutputBound.Notable)
    returns (streamed: seq<byte>, batch: seq<byte>, streamedSignals: Lines, batchSignals: Lines)
    requires cap > 0 && [] !in notable
    ensures var o := OutputBound.Options(head, tail, 0, false);
      streamed == batch <==>
        Agrees(LinesOf(START, stream, Some(cap)), OutputBound.HeadLines(o), OutputBound.TailLines(o))
    ensures streamedSignals == batchSignals
  {
    hide Filter.Valid, Agrees, Render, OutputBound.BoundLines, OutputBound.Unlines;
    var o := OutputBound.Options(head, tail, 0, false);
    ghost var lines := LinesOf(START, stream, Some(cap));
    LinesPlain(stream, cap);
    streamed, streamedSignals := Filtered(stream, head, tail, cap, false, notable);
    var all, _ := Filtered(stream, head, tail, cap, true, notable);
    batch := OutputBound.Bound(all, o);
    batchSignals := OutputBound.Signals(all, MAX_SIGNALS, notable);
    StreamingIsBatch(lines, OutputBound.HeadLines(o), OutputBound.TailLines(o));
    SignalsOfText(lines, MAX_SIGNALS, notable);
  }

  /** A filter over one stream. */
  method Filtered(stream: seq<byte>, head: int, tail: int, cap: int, unbounded: bool, notable: OutputBound.Notable)
    returns (text: seq<byte>, signals: Lines)
    requires cap > 0
    ensures var lines := LinesOf(START, stream, Some(cap)); var o := OutputBound.Options(head, tail, 0, false);
      && text == (if unbounded then OutputBound.Unlines(lines)
                  else Render(lines, OutputBound.HeadLines(o), OutputBound.TailLines(o)))
      && signals == OutputBound.SignalsOf(lines, MAX_SIGNALS, notable)
  {
    hide Filter.Valid, Render, OutputBound.Unlines, OutputBound.SignalsOf;
    var f := new Filter(head, tail, cap, unbounded, notable);
    f.Write(stream);
    ShownLines(stream, cap);
    text := f.String();
    signals := f.Signals();
  }

  lemma ShownLines(stream: seq<byte>, cap: nat)
    ensures var r := Run(START, stream, Some(cap));
      LinesOf(START, stream, Some(cap)) == Shown([] + Trimmed(r.1), r.0.line)
  {
    var r := Run(START, stream, Some(cap));
    assert [] + Trimmed(r.1) == Trimmed(r.1);
    TrimmedStep(r.1, r.0.line);
  }
}
