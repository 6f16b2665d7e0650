/** The middle-out view of clean text: a head and a tail of whole lines around a count of what lies between. */
module OutputBound {
  import opened Text
  import opened Utf8

  const NEWLINE: byte := 10

  type Line = seq<byte>

  datatype Options = Options(headLines: int, tailLines: int, maxBytes: int, unbounded: bool)

  /** withDefaults */
  function HeadLines(o: Options): (n: nat)
    ensures n > 0
  {
    if o.headLines <= 0 then 40 else o.headLines
  }

  function TailLines(o: Options): (n: nat)
    ensures n > 0
  {
    if o.tailLines <= 0 then 120 else o.tailLines
  }

  // ----- lines

  /** strings.Split(s, "\n") */
  function Split(s: seq<byte>): (lines: seq<Line>)
    ensures lines != []
    decreases |s|
  {
    var k := Find(s, NEWLINE);
    if k == |s| then [s] else [s[..k]] + Split(s[k + 1..])
  }

  /** Every line with its newline. */
  function Unlines(lines: seq<Line>): seq<byte> {
    if lines == [] then [] else lines[0] + [NEWLINE] + Unlines(lines[1..])
  }

  function TrimNewlines(s: seq<byte>): (t: seq<byte>)
    ensures |t| <= |s| && t == s[..|t|]
    ensures t != [] ==> t[|t| - 1] != NEWLINE
    ensures forall i :: |t| <= i < |s| ==> s[i] == NEWLINE
  {
    if s != [] && s[|s| - 1] == NEWLINE then TrimNewlines(s[..|s| - 1]) else s
  }

  predicate Plain(lines: seq<Line>) {
    forall i :: 0 <= i < |lines| ==> NEWLINE !in lines[i]
  }

  lemma {:induction false} SplitIsPlain(s: seq<byte>)
    ensures Plain(Split(s)) && Unlines(Split(s)) == s + [NEWLINE]
    decreases |s|
  {
    hide Find;
    var k := Find(s, NEWLINE);
    if k < |s| {
      SplitIsPlain(s[k + 1..]);
      assert Split(s)[1..] == Split(s[k + 1..]);
      assert s == s[..k] + [NEWLINE] + s[k + 1..];
    } else {
      assert Unlines(Split(s)) == s + [NEWLINE] + Unlines([]);
    }
  }

  lemma UnlinesAppend(a: seq<Line>, b: seq<Line>)
    ensures Unlines(a + b) == Unlines(a) + Unlines(b)
  {
    if a == [] {
      assert a + b == b;
    } else {
      assert (a + b)[1..] == a[1..] + b;
    }
  }

  /** The bytes of lines with their newlines. */
  function Cost(lines: seq<Line>): nat {
    if lines == [] then 0 else |lines[0]| + 1 + Cost(lines[1..])
  }

  lemma {:induction false} CostIsLength(lines: seq<Line>)
    ensures Cost(lines) == |Unlines(lines)|
  {
    if lines != [] { CostIsLength(lines[1..]); }
  }

  lemma CostAppend(a: seq<Line>, b: seq<Line>)
    ensures Cost(a + b) == Cost(a) + Cost(b)
  {
    if a == [] {
      assert a + b == b;
    } else {
      assert (a + b)[1..] == a[1..] + b;
    }
  }

  // ----- by a count of lines

  function HiddenMarker(hidden: nat): Line {
    Ascii("... " + Itoa(hidden) + " line(s) hidden ...")
  }

  /** The first h lines, a count of the hidden ones, and the lines from t on. */
  function MiddleOut(lines: seq<Line>, h: nat, t: nat): seq<byte>
    requires h <= t <= |lines|
  {
    Unlines(lines[..h]) + (HiddenMarker(t - h) + [NEWLINE]) + Unlines(lines[t..])
  }

  /** Bound without a byte budget. */
  function BoundLines(text: seq<byte>, head: nat, tail: nat): seq<byte> {
    var trimmed := TrimNewlines(text);
    if trimmed == [] then [] else
      var lines := Split(trimmed);
      if |lines| <= head + tail then text else MiddleOut(lines, head, |lines| - tail)
  }

  lemma SplitCons(line: Line, rest: seq<byte>)
    requires NEWLINE !in line
    ensures Split(line + [NEWLINE] + rest) == [line] + Split(rest)
    ensures Split(line) == [line]
  {
    var s := line + [NEWLINE] + rest;
    assert s[|line|] == NEWLINE && forall i :: 0 <= i < |line| ==> s[i] == line[i];
    assert Find(s, NEWLINE) == |line| && s[..|line|] == line && s[|line| + 1..] == rest;
    assert Find(line, NEWLINE) == |line|;
  }

  lemma {:induction false} SplitUnlines(lines: seq<Line>, rest: seq<byte>)
    requires Plain(lines)
    ensures Split(Unlines(lines) + rest) == lines + Split(rest)
  {
    hide Split;
    if lines == [] {
      assert [] + rest == rest;
    } else {
      assert Unlines(lines) + rest == lines[0] + [NEWLINE] + (Unlines(lines[1..]) + rest);
      SplitCons(lines[0], Unlines(lines[1..]) + rest);
      SplitUnlines(lines[1..], rest);
      assert lines == [lines[0]] + lines[1..];
    }
  }

  lemma MarkerIsLine(hidden: nat)
    ensures NEWLINE !in HiddenMarker(hidden)
  {
    var text := "... " + Itoa(hidden) + " line(s) hidden ...";
    var digits := Itoa(hidden);
    assert forall i :: 0 <= i < |digits| ==> IsDigit(digits[i]);
    assert forall i :: 0 <= i < |text| ==> text[i] != '\n' && text[i] as int < 256;
  }

  lemma MiddleOutLines(lines: seq<Line>, h: nat, t: nat)
    requires Plain(lines) && h <= t <= |lines|
    ensures Split(MiddleOut(lines, h, t)) == lines[..h] + [HiddenMarker(t - h)] + lines[t..] + [[]]
  {
    hide Split, HiddenMarker, Unlines, Plain;
    MarkerIsLine(t - h);
    var marker, last := HiddenMarker(t - h), Unlines(lines[t..]);
    PartsPlain(lines, h, t);
    assert MiddleOut(lines, h, t) == Unlines(lines[..h]) + (marker + [NEWLINE] + last);
    SplitUnlines(lines[..h], marker + [NEWLINE] + last);
    SplitCons(marker, last);
    SplitUnlines(lines[t..], []);
    assert last + [] == last;
    NothingSplit();
  }

  lemma PartsPlain(lines: seq<Line>, h: nat, t: nat)
    requires Plain(lines) && h <= t <= |lines|
    ensures Plain(lines[..h]) && Plain(lines[t..])
  {
  }

  /** The lines of a text that are told by a count of lines: all of them; or when there are more than head and tail allow, its
      first, the number of those left out in one line, and its last, in their order. */
  lemma ViewLines(text: seq<byte>, head: nat, tail: nat)
    requires TrimNewlines(text) != []
    ensures var lines := Split(TrimNewlines(text)); var n := |lines|; var view := BoundLines(text, head, tail);
      if n <= head + tail then view == text
      else Split(view) == lines[..head] + [HiddenMarker(n - head - tail)] + lines[n - tail..] + [[]]
  {
    hide Split, HiddenMarker, TrimNewlines, MiddleOut;
    var lines := Split(TrimNewlines(text));
    if |lines| > head + tail {
      SplitIsPlain(TrimNewlines(text));
      MiddleOutLines(lines, head, |lines| - tail);
    }
  }

  lemma NothingSplit()
    ensures Split([]) == [[]]
  {
  }

  // ----- by a byte budget

  /** The lines of a head: none but the first may make it cost more than half, and the next one would. */
  ghost predicate HeadFits(lines: seq<Line>, h: nat, half: nat) {
    && 0 < h <= |lines|
    && (h > 1 ==> Cost(lines[..h]) <= half)
    && (h < |lines| ==> Cost(lines[..h + 1]) > half)
  }

  /** The lines of a tail that starts at t and ends before the head: the same from the other end. */
  ghost predicate TailFits(lines: seq<Line>, h: nat, t: nat, half: nat) {
    && h <= t <= |lines| && (h < |lines| ==> t < |lines|)
    && (t < |lines| - 1 ==> Cost(lines[t..]) <= half)
    && (t > h ==> Cost(lines[t - 1..]) > half)
  }

  /** The two loops of boundBytes. */
  method CutLines(lines: seq<Line>, half: nat) returns (headEnd: nat, tailStart: nat)
    requires lines != []
    ensures HeadFits(lines, headEnd, half) && TailFits(lines, headEnd, tailStart, half)
  {
    headEnd := 0;
    var used := 0;
    while headEnd < |lines|
      invariant headEnd <= |lines| && used == Cost(lines[..headEnd])
      invariant headEnd > 1 ==> used <= half
    {
      var cost := |lines[headEnd]| + 1;
      assert lines[..headEnd + 1] == lines[..headEnd] + [lines[headEnd]];
      CostAppend(lines[..headEnd], [lines[headEnd]]);
      CostOne(lines[headEnd]);
      if used + cost > half && headEnd > 0 {
        break;
      }
      used := used + cost;
      headEnd := headEnd + 1;
    }
    tailStart, used := |lines|, 0;
    while tailStart - 1 >= headEnd
      invariant headEnd <= tailStart <= |lines| && used == Cost(lines[tailStart..])
      invariant tailStart < |lines| - 1 ==> used <= half
    {
      var cost := |lines[tailStart - 1]| + 1;
      assert lines[tailStart - 1..] == [lines[tailStart - 1]] + lines[tailStart..];
      CostAppend([lines[tailStart - 1]], lines[tailStart..]);
      CostOne(lines[tailStart - 1]);
      if used + cost > half && tailStart < |lines| {
        break;
      }
      used := used + cost;
      tailStart := tailStart - 1;
    }
  }

  lemma CostOne(line: Line)
    ensures Cost([line]) == |line| + 1
  {
    assert [line][1..] == [];
  }

  /** cutHead: at most n bytes, up to the last place where a character starts. */
  method CutHead(s: seq<byte>, n: nat) returns (r: seq<byte>)
    ensures |r| <= n && |r| <= |s|
    ensures r == s[..|r|]
    ensures Boundary(s, |r|) || r == []
    ensures forall k :: |r| < k <= n && k <= |s| ==> !Boundary(s, k)
  {
    if n >= |s| {
      return s;
    }
    var k := n;
    while k > 0 && !Start(s[k])
      invariant 0 <= k <= n
      invariant forall i :: k < i <= n ==> !Boundary(s, i)
    {
      k := k - 1;
    }
    return s[..k];
  }

  /** cutTail: at most n bytes, from the first place where a character starts. */
  method CutTail(s: seq<byte>, n: nat) returns (r: seq<byte>)
    ensures |r| <= n && |r| <= |s|
    ensures r == s[|s| - |r|..]
    ensures |r| == |s| || Boundary(s, |s| - |r|)
    ensures forall k: nat :: |s| - n <= k < |s| - |r| ==> !Boundary(s, k)
  {
    if n >= |s| {
      return s;
    }
    var start := |s| - n;
    while start < |s| && !Start(s[start])
      invariant |s| - n <= start <= |s|
      invariant forall i :: |s| - n <= i < start ==> !Boundary(s, i)
    {
      start := start + 1;
    }
    return s[start..];
  }

  /** A place in s where a character starts, or its end. */
  predicate Boundary(s: seq<byte>, k: nat) {
    k == |s| || (k < |s| && Start(s[k]))
  }

  const TRIMMED: seq<byte> := Ascii("\n... output trimmed ...\n")

  /** How boundBytes shortens lines that cost too much: between whole lines, or within the text when nothing is left to
      hide between a head and a tail. */
  ghost predicate Shortened(r: seq<byte>, trimmed: seq<byte>, max: nat) {
    exists h, t :: ShortenedAt(r, trimmed, max, h, t)
  }

  ghost predicate ShortenedAt(r: seq<byte>, trimmed: seq<byte>, max: nat, h: nat, t: nat) {
    var lines := Split(trimmed);
    && HeadFits(lines, h, max / 2) && TailFits(lines, h, t, max / 2)
    && (h < t ==> r == MiddleOut(lines, h, t))
    && (h == t ==> exists a, b :: r == a + TRIMMED + b && CutAt(trimmed, a, b, max / 2))
  }

  /** a begins and b ends s, each at most n bytes and cut at the last place for it where a character starts. */
  ghost predicate CutAt(s: seq<byte>, a: seq<byte>, b: seq<byte>, n: nat) {
    && |a| <= |s| && |b| <= |s| && a == s[..|a|] && b == s[|s| - |b|..] && |a| <= n && |b| <= n
    && (a == [] || Boundary(s, |a|)) && (|b| == |s| || Boundary(s, |s| - |b|))
    && (forall k :: |a| < k <= n && k <= |s| ==> !Boundary(s, k))
    && (forall k: nat :: |s| - n <= k < |s| - |b| ==> !Boundary(s, k))
  }

  /** boundBytes */
  method BoundBytes(full: seq<byte>, trimmed: seq<byte>, max: nat) returns (r: seq<byte>)
    ensures |trimmed| <= max ==> r == full
    ensures |trimmed| > max ==> Shortened(r, trimmed, max)
  {
    if |trimmed| <= max {
      return full;
    }
    var lines := Split(trimmed);
    var half := max / 2;
    var headEnd, tailStart := CutLines(lines, half);
    if tailStart - headEnd > 0 {
      r := MiddleOut(lines, headEnd, tailStart);
      assert ShortenedAt(r, trimmed, max, headEnd, tailStart);
      return;
    }
    var head := CutHead(trimmed, half);
    var tail := CutTail(trimmed, half);
    r := head + TRIMMED + tail;
    assert CutAt(trimmed, head, tail, half);
    assert ShortenedAt(r, trimmed, max, headEnd, tailStart);
  }

  /** Bound */
  method Bound(text: seq<byte>, o: Options) returns (r: seq<byte>)
    ensures o.unbounded ==> r == text
    ensures !o.unbounded && o.maxBytes <= 0 ==> r == BoundLines(text, HeadLines(o), TailLines(o))
    ensures !o.unbounded && o.maxBytes > 0 ==>
      var trimmed := TrimNewlines(text);
      if trimmed == [] then r == []
      else if |trimmed| <= o.maxBytes then r == text
      else Shortened(r, trimmed, o.maxBytes)
  {
    if o.unbounded {
      return text;
    }
    var trimmed := TrimNewlines(text);
    if trimmed == [] {
      return [];
    }
    if o.maxBytes > 0 {
      r := BoundBytes(text, trimmed, o.maxBytes);
      return;
    }
    return BoundLines(text, HeadLines(o), TailLines(o));
  }

  // ----- what a shortened text keeps

  lemma CostOfSplit(s: seq<byte>)
    ensures Cost(Split(s)) == |s| + 1
  {
    SplitIsPlain(s);
    CostIsLength(Split(s));
  }

  function Max(a: nat, b: nat): nat {
    if a > b then a else b
  }

  lemma NothingCosts(lines: seq<Line>)
    ensures |lines| == 0 ==> Cost(lines) == 0
  {
  }

  lemma CostOfParts(lines: seq<Line>, h: nat, t: nat)
    requires h <= t <= |lines|
    ensures Cost(lines) == Cost(lines[..h]) + Cost(lines[h..t]) + Cost(lines[t..])
  {
    hide Cost;
    CostAppend(lines[..h], lines[h..t]);
    assert lines[..h] + lines[h..t] == lines[..t];
    CostAppend(lines[..t], lines[t..]);
    assert lines[..t] + lines[t..] == lines;
  }

  lemma SidesCost(lines: seq<Line>, h: nat, t: nat, half: nat)
    requires HeadFits(lines, h, half) && TailFits(lines, h, t, half)
    ensures Cost(lines[..h]) <= Max(half, |lines[0]| + 1)
    ensures Cost(lines[t..]) <= Max(half, |lines[|lines| - 1]| + 1)
    ensures Cost(lines) == Cost(lines[..h]) + Cost(lines[h..t]) + Cost(lines[t..])
  {
    CostOne(lines[0]);
    if h == 1 { assert lines[..h] == [lines[0]]; }
    CostOne(lines[|lines| - 1]);
    if t == |lines| - 1 { assert lines[t..] == [lines[|lines| - 1]]; }
    NothingCosts(lines[t..]);
    hide Cost;
    CostOfParts(lines, h, t);
  }

  lemma MiddleOutLength(lines: seq<Line>, h: nat, t: nat)
    requires h <= t <= |lines|
    ensures |MiddleOut(lines, h, t)| == Cost(lines[..h]) + Cost(lines[t..]) + |HiddenMarker(t - h)| + 1
  {
    CostIsLength(lines[..h]);
    CostIsLength(lines[t..]);
  }

  /** Whatever the text: the kept head, the hidden lines and the kept tail are all the lines in order, the marker has their
      exact number, and each kept side costs at most half the budget or is a single line. */
  lemma ShortenedSize(trimmed: seq<byte>, max: nat, r: seq<byte>, h: nat, t: nat)
    requires ShortenedAt(r, trimmed, max, h, t)
    ensures var lines := Split(trimmed);
      && lines == lines[..h] + lines[h..t] + lines[t..]
      && (h < t ==>
            && r == Unlines(lines[..h]) + (HiddenMarker(|lines[h..t]|) + [NEWLINE]) + Unlines(lines[t..])
            && |r| <= Max(max / 2, |lines[0]| + 1) + Max(max / 2, |lines[|lines| - 1]| + 1) + |HiddenMarker(t - h)| + 1)
      && (h == t ==> |r| <= max + |TRIMMED|)
  {
    hide Cost, Split, HiddenMarker, Unlines;
    var lines := Split(trimmed);
    SidesCost(lines, h, t, max / 2);
    assert lines == lines[..h] + lines[h..t] + lines[t..];
    if h < t {
      MiddleOutLength(lines, h, t);
    }
  }

  /** When the first and the last line fit half the budget, a text over the budget is cut between whole lines: something
      is hidden, and what is left is at most the budget and the marker. */
  lemma BudgetKept(trimmed: seq<byte>, max: nat, r: seq<byte>, h: nat, t: nat)
    requires |trimmed| > max && ShortenedAt(r, trimmed, max, h, t)
    requires var lines := Split(trimmed); |lines[0]| < max / 2 && |lines[|lines| - 1]| < max / 2
    ensures h < t && |r| <= max + |HiddenMarker(t - h)| + 1
  {
    var lines := Split(trimmed);
    SidesCost(lines, h, t, max / 2);
    CostOfSplit(trimmed);
    NothingCosts(lines[h..t]);
    if h < t {
      MiddleOutLength(lines, h, t);
    }
  }

  /** The lines and the budget alone say where the cuts are. */
  lemma CutsUnique(lines: seq<Line>, half: nat, h: nat, t: nat, g: nat, u: nat)
    requires HeadFits(lines, h, half) && TailFits(lines, h, t, half)
    requires HeadFits(lines, g, half) && TailFits(lines, g, u, half)
    ensures h == g && t == u
  {
    hide Cost;
    if h != g {
      PrefixCost(lines, (if h < g then h else g) + 1, if h < g then g else h);
    }
    if t != u {
      SuffixCost(lines, if t < u then t else u, (if t < u then u else t) - 1);
    }
  }

  lemma PrefixCost(lines: seq<Line>, n: nat, m: nat)
    requires n <= m <= |lines|
    ensures Cost(lines[..n]) <= Cost(lines[..m])
  {
    hide Cost;
    CostAppend(lines[..n], lines[n..m]);
    assert lines[..n] + lines[n..m] == lines[..m];
  }

  lemma SuffixCost(lines: seq<Line>, n: nat, m: nat)
    requires n <= m <= |lines|
    ensures Cost(lines[m..]) <= Cost(lines[n..])
  {
    hide Cost;
    CostAppend(lines[n..m], lines[m..]);
    assert lines[n..m] + lines[m..] == lines[n..];
  }

  /** The first line is kept though it exceeds half the budget, and with the tail it exceeds the budget. */
  ghost predicate FirstTooLong(lines: seq<Line>, t: nat, max: nat)
    requires 0 < |lines| && t <= |lines|
  {
    |lines[0]| + 1 > max / 2 && |lines[0]| + 1 + Cost(lines[t..]) > max
  }

  /** The last line is kept though it exceeds half the budget, and with the head it exceeds the budget. */
  ghost predicate LastTooLong(lines: seq<Line>, h: nat, max: nat)
    requires 0 < |lines| && h <= |lines|
  {
    |lines[|lines| - 1]| + 1 > max / 2 && Cost(lines[..h]) + |lines[|lines| - 1]| + 1 > max
  }

  /** The budget, exactly: a text that is cut between lines keeps the budget, the marker aside, if and only if the kept head
      and the kept tail cost at most the budget; they cost more exactly when the first or the last line exceeds half of it
      and with the other side exceeds all of it. */
  lemma BudgetExact(trimmed: seq<byte>, max: nat, r: seq<byte>, h: nat, t: nat)
    requires ShortenedAt(r, trimmed, max, h, t) && h < t
    ensures var lines := Split(trimmed);
      && (|r| <= max + |HiddenMarker(t - h)| + 1 <==> Cost(lines[..h]) + Cost(lines[t..]) <= max)
      && (|r| <= max + |HiddenMarker(t - h)| + 1 <==> !FirstTooLong(lines, t, max) && !LastTooLong(lines, h, max))
  {
    hide Split, HiddenMarker, MiddleOut;
    var lines := Split(trimmed);
    MiddleOutLength(lines, h, t);
    KeptSides(lines, h, t, max / 2);
  }

  lemma KeptSides(lines: seq<Line>, h: nat, t: nat, half: nat)
    requires HeadFits(lines, h, half) && TailFits(lines, h, t, half) && h < t
    ensures Cost(lines[..h]) <= half || Cost(lines[..h]) == |lines[0]| + 1
    ensures |lines[0]| + 1 > half ==> Cost(lines[..h]) == |lines[0]| + 1
    ensures Cost(lines[t..]) <= half || Cost(lines[t..]) == |lines[|lines| - 1]| + 1
    ensures |lines[|lines| - 1]| + 1 > half ==> Cost(lines[t..]) == |lines[|lines| - 1]| + 1
  {
    var n := |lines|;
    CostOne(lines[0]);
    CostOne(lines[n - 1]);
    assert lines[..1] == [lines[0]] && lines[n - 1..] == [lines[n - 1]];
    hide Cost;
    PrefixCost(lines, 1, h);
    SuffixCost(lines, t, n - 1);
  }

  /** A text of 11 bytes whose lines have 7, 1 and 1 bytes: with a budget of 4 the view has 10 bytes beside its marker. */
  const LONG_FIRST: seq<byte> := [97, 97, 97, 97, 97, 97, 97, NEWLINE, 98, NEWLINE, 99]

  lemma BudgetBroken(r: seq<byte>)
    requires Shortened(r, LONG_FIRST, 4)
    ensures |LONG_FIRST| > 4 && r == LONG_FIRST[..8] + (HiddenMarker(1) + [NEWLINE]) + LONG_FIRST[10..] + [NEWLINE]
    ensures |r| == 10 + |HiddenMarker(1)| + 1
  {
    hide HiddenMarker;
    var h, t :| ShortenedAt(r, LONG_FIRST, 4, h, t);
    LongFirstLines();
    LongFirstCuts(h, t);
    var lines := Split(LONG_FIRST);
    assert lines[..1] == [lines[0]] && lines[2..] == [lines[2]];
    OneLine(lines[0]);
    OneLine(lines[2]);
  }

  lemma OneLine(line: Line)
    ensures Unlines([line]) == line + [NEWLINE]
  {
    assert [line][1..] == [];
  }

  lemma LongFirstLines()
    ensures Split(LONG_FIRST) == [LONG_FIRST[..7], [98], [99]]
  {
    assert LONG_FIRST == LONG_FIRST[..7] + [NEWLINE] + ([98] + [NEWLINE] + [99]);
    SplitCons(LONG_FIRST[..7], [98] + [NEWLINE] + [99]);
    SplitCons([98], [99]);
    SplitCons([99], []);
  }

  lemma LongFirstCuts(h: nat, t: nat)
    requires HeadFits([LONG_FIRST[..7], [98], [99]], h, 2) && TailFits([LONG_FIRST[..7], [98], [99]], h, t, 2)
    ensures h == 1 && t == 2
  {
    var lines: seq<Line> := [LONG_FIRST[..7], [98], [99]];
    assert Cost(lines[2..]) == 2;
    assert Cost(lines[1..]) == 4;
    assert Cost(lines[..1]) == 8;
    hide Cost;
    PrefixCost(lines, 1, 2);
    PrefixCost(lines, 1, 3);
    CutsUnique(lines, 2, h, t, 1, 2);
  }

  // ----- well-formed text stays well-formed

  lemma {:induction false} SplitValid(s: seq<byte>)
    requires Valid(s)
    ensures forall i :: 0 <= i < |Split(s)| ==> Valid(Split(s)[i])
    decreases |s|
  {
    hide Valid;
    var k := Find(s, NEWLINE);
    if k < |s| {
      ValidAfter(s, k);
      SplitValid(s[k + 1..]);
    }
  }

  lemma {:induction false} UnlinesValid(lines: seq<Line>)
    requires forall i :: 0 <= i < |lines| ==> Valid(lines[i])
    ensures Valid(Unlines(lines))
  {
    hide Valid;
    AsciiIsValid([]);
    if lines != [] {
      UnlinesValid(lines[1..]);
      AsciiIsValid([NEWLINE]);
      ValidAppend(lines[0], [NEWLINE]);
      ValidAppend(lines[0] + [NEWLINE], Unlines(lines[1..]));
    }
  }

  lemma MarkerValid(hidden: nat)
    ensures Valid(HiddenMarker(hidden) + [NEWLINE])
  {
    var digits := Itoa(hidden);
    assert forall i :: 0 <= i < |digits| ==> IsDigit(digits[i]);
    AsciiIsValid(HiddenMarker(hidden) + [NEWLINE]);
  }

  lemma MiddleOutValid(lines: seq<Line>, h: nat, t: nat)
    requires h <= t <= |lines| && forall i :: 0 <= i < |lines| ==> Valid(lines[i])
    ensures Valid(MiddleOut(lines, h, t))
  {
    hide Valid, HiddenMarker;
    UnlinesValid(lines[..h]);
    UnlinesValid(lines[t..]);
    MarkerValid(t - h);
    ValidAppend(Unlines(lines[..h]), HiddenMarker(t - h) + [NEWLINE]);
    ValidAppend(Unlines(lines[..h]) + (HiddenMarker(t - h) + [NEWLINE]), Unlines(lines[t..]));
  }

  lemma CutValid(s: seq<byte>, a: seq<byte>, b: seq<byte>, n: nat)
    requires Valid(s) && CutAt(s, a, b, n)
    ensures Valid(a + TRIMMED + b)
  {
    hide Valid;
    AsciiIsValid([]);
    AsciiIsValid(TRIMMED);
    if a != [] { ValidCut(s, |a|); }
    if |b| < |s| { ValidCut(s, |s| - |b|); } else { assert b == s; }
    ValidAppend(a, TRIMMED);
    ValidAppend(a + TRIMMED, b);
  }

  lemma TrimValid(text: seq<byte>)
    requires Valid(text)
    ensures Valid(TrimNewlines(text))
  {
    hide Valid;
    var trimmed := TrimNewlines(text);
    ValidCut(text, |trimmed|);
  }

  /** Well-formed UTF-8 stays well-formed through every cut by the byte budget. */
  lemma ShortenedValid(r: seq<byte>, trimmed: seq<byte>, max: nat)
    requires Valid(trimmed) && Shortened(r, trimmed, max)
    ensures Valid(r)
  {
    hide Valid;
    var h, t :| ShortenedAt(r, trimmed, max, h, t);
    if h < t {
      SplitValid(trimmed);
      MiddleOutValid(Split(trimmed), h, t);
    } else {
      var a, b :| r == a + TRIMMED + b && CutAt(trimmed, a, b, max / 2);
      CutValid(trimmed, a, b, max / 2);
    }
  }

  /** The same for whole lines. */
  lemma BoundLinesValid(text: seq<byte>, head: nat, tail: nat)
    requires Valid(text)
    ensures Valid(BoundLines(text, head, tail))
  {
    hide Valid, Split, MiddleOut, TrimNewlines;
    AsciiIsValid([]);
    TrimValid(text);
    var lines := Split(TrimNewlines(text));
    SplitValid(TrimNewlines(text));
    if TrimNewlines(text) != [] && |lines| > head + tail {
      MiddleOutValid(lines, head, |lines| - tail);
    }
  }

  // ----- signals

  /** The lines that are worth attention, each with its trimmed text. */
  type Notable = imap<Line, Line>

  const MAX_SIGNAL := 200

  function Shorten(t: Line): Line {
    if |t| > MAX_SIGNAL then t[..MAX_SIGNAL] + Ascii("...") else t
  }

  /** A shortened text is cut at a byte, not before a character: it stays well-formed if and only if no character is split
      there. */
  lemma ShortenedSignal(t: Line)
    requires Valid(t)
    ensures Valid(Shorten(t)) <==> |t| <= MAX_SIGNAL || Start(t[MAX_SIGNAL])
  {
    hide Valid;
    if |t| > MAX_SIGNAL {
      var dots := Ascii("...");
      assert dots[0] == 46;
      if Start(t[MAX_SIGNAL]) {
        ValidCut(t, MAX_SIGNAL);
        AsciiIsValid(dots);
        ValidAppend(t[..MAX_SIGNAL], dots);
      } else {
        CutWithin(t, MAX_SIGNAL, dots);
      }
    }
  }

  /** 199 bytes and a character of two: a text of 201 bytes whose signal is not well-formed. */
  const SPLIT_SIGNAL: Line := seq(199, _ => 97) + [0xC3, 0xA9]

  lemma SignalSplit()
    ensures Valid(SPLIT_SIGNAL) && !Valid(Shorten(SPLIT_SIGNAL))
  {
    var letters: Line := seq(199, _ => 97);
    AsciiIsValid(letters);
    var accented: Line := [0xC3, 0xA9];
    assert RuneLength(accented) == 2 && accented[2..] == [];
    assert Valid(accented);
    hide Valid;
    ValidAppend(letters, accented);
    assert SPLIT_SIGNAL[200] == 0xA9;
    ShortenedSignal(SPLIT_SIGNAL);
  }

  /** The texts of the notable lines, each once, in the order of their first appearance. */
  function Distinct(lines: seq<Line>, notable: Notable): seq<Line> {
    if lines == [] then [] else
      var before := Distinct(lines[..|lines| - 1], notable);
      var last := lines[|lines| - 1];
      if last in notable && notable[last] !in before then before + [notable[last]] else before
  }

  function Shortens(texts: seq<Line>): (r: seq<Line>)
    ensures |r| == |texts|
  {
    seq(|texts|, i requires 0 <= i < |texts| => Shorten(texts[i]))
  }

  /** The first max of them, shortened. */
  function SignalsOf(lines: seq<Line>, max: nat, notable: Notable): seq<Line> {
    var texts := Distinct(lines, notable);
    Shortens(if |texts| <= max then texts else texts[..max])
  }

  lemma {:induction false} DistinctMeaning(lines: seq<Line>, notable: Notable)
    ensures forall i, j :: 0 <= i < j < |Distinct(lines, notable)| ==> Distinct(lines, notable)[i] != Distinct(lines, notable)[j]
    ensures forall t :: t in Distinct(lines, notable) <==> exists l :: l in lines && l in notable && notable[l] == t
  {
    if lines != [] {
      var before, last := lines[..|lines| - 1], lines[|lines| - 1];
      DistinctMeaning(before, notable);
      assert lines == before + [last];
    }
  }

  lemma {:induction false} DistinctPrefix(lines: seq<Line>, k: nat, notable: Notable)
    requires k <= |lines|
    ensures Distinct(lines[..k], notable) <= Distinct(lines, notable)
    decreases |lines|
  {
    if k < |lines| {
      var before := lines[..|lines| - 1];
      DistinctPrefix(before, k, notable);
      assert before[..k] == lines[..k];
    } else {
      assert lines[..k] == lines;
    }
  }

  lemma DistinctStep(lines: seq<Line>, i: nat, notable: Notable)
    requires i < |lines|
    ensures var before, l := Distinct(lines[..i], notable), lines[i];
      Distinct(lines[..i + 1], notable) == if l in notable && notable[l] !in before then before + [notable[l]] else before
  {
    assert lines[..i + 1][..i] == lines[..i];
  }

  lemma ShortensStep(texts: seq<Line>, t: Line)
    ensures Shortens(texts + [t]) == Shortens(texts) + [Shorten(t)]
  {
  }

  /** The signals of lines with well-formed texts are well-formed if and only if none of those that are told has a character
      across its byte 200. */
  lemma SignalsValid(lines: seq<Line>, max: nat, notable: Notable)
    requires forall l :: l in notable ==> Valid(notable[l])
    ensures var texts := Distinct(lines, notable); var told := if |texts| <= max then texts else texts[..max];
      && |SignalsOf(lines, max, notable)| == |told|
      && forall i :: 0 <= i < |told| ==>
           (Valid(SignalsOf(lines, max, notable)[i]) <==> |told[i]| <= MAX_SIGNAL || Start(told[i][MAX_SIGNAL]))
  {
    hide Valid, Distinct, Shorten;
    DistinctMeaning(lines, notable);
    var texts := Distinct(lines, notable);
    var told := if |texts| <= max then texts else texts[..max];
    forall i | 0 <= i < |told|
      ensures Valid(SignalsOf(lines, max, notable)[i]) <==> |told[i]| <= MAX_SIGNAL || Start(told[i][MAX_SIGNAL])
    {
      assert told[i] in texts;
      ShortenedSignal(told[i]);
    }
  }

  /** Where the first max texts are found, the signals are known. */
  lemma SignalsKnown(lines: seq<Line>, i: nat, max: nat, notable: Notable)
    requires i <= |lines|
    requires |Distinct(lines[..i], notable)| == max || (i == |lines| && |Distinct(lines, notable)| <= max)
    ensures SignalsOf(lines, max, notable) == Shortens(Distinct(lines[..i], notable))
  {
    DistinctPrefix(lines, i, notable);
    if i == |lines| {
      assert lines[..i] == lines;
    }
    var texts := Distinct(lines, notable);
    if |Distinct(lines[..i], notable)| == max {
      assert texts[..max] == Distinct(lines[..i], notable);
    }
  }

  /** Signals */
  method Signals(text: seq<byte>, max: nat, notable: Notable) returns (out: seq<Line>)
    requires max > 0
    ensures out == SignalsOf(Split(text), max, notable)
  {
    hide Distinct, Shortens, SignalsOf;
    var lines := Split(text);
    var seen: set<Line> := {};
    out := [];
    var i := 0;
    NoSignals(lines, notable);
    while i < |lines|
      invariant i <= |lines| && |out| < max
      invariant out == Shortens(Distinct(lines[..i], notable))
      invariant forall t :: t in seen <==> t in Distinct(lines[..i], notable)
    {
      DistinctStep(lines, i, notable);
      var l := lines[i];
      i := i + 1;
      if l !in notable {
        continue;
      }
      var t := notable[l];
      if t in seen {
        continue;
      }
      ShortensStep(Distinct(lines[..i - 1], notable), t);
      seen := seen + {t};
      out := out + [Shorten(t)];
      if |out| >= max {
        SignalsKnown(lines, i, max, notable);
        return;
      }
    }
    assert lines[..i] == lines;
    SignalsKnown(lines, i, max, notable);
  }

  lemma NoSignals(lines: seq<Line>, notable: Notable)
    ensures Shortens(Distinct(lines[..0], notable)) == []
    ensures forall t :: t !in Distinct(lines[..0], notable)
  {
  }
}
