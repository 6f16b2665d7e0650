/** What a terminal stream means: strokes that write, move and erase, and what they make of a line, against the machine that
    takes the stream byte by byte. */
module LineLaws {
  import opened Text
  import opened LineEditor

  /** One thing a stream does. */
  datatype Stroke =
    | Typed(text: seq<byte>)      // bytes that are shown
    | Return                      // to the beginning of the line
    | Back                        // one to the left
    | EraseAfter(zero: bool)      // ESC [ K, ESC [ 0 K
    | EraseBefore                 // ESC [ 1 K
    | EraseAll                    // ESC [ 2 K
    | Newline
    | Control(b: byte)            // another control character
    | Escape(b: byte)             // ESC and one byte
    | Sequence(param: seq<byte>, final: byte)  // any other complete ESC [ sequence
    | Overlong(param: seq<byte>)  // ESC [ and 32 bytes that do not end it
  {
    predicate WellFormed() {
      match this
      case Typed(text) => forall i :: 0 <= i < |text| ==> text[i] as int >= 32 || text[i] == 9
      case Control(b) => b as int < 32 && b !in {8, 9, 10, 13, 27}
      case Escape(b) => b != 91
      case Sequence(param, final) =>
        && |param| < 32 && (forall i :: 0 <= i < |param| ==> !(0x40 <= param[i] as int <= 0x7E))
        && 0x40 <= final as int <= 0x7E
        && (final == 75 ==> param !in {[], [48], [49], [50]})
      case Overlong(param) => |param| == 32 && forall i :: 0 <= i < |param| ==> !(0x40 <= param[i] as int <= 0x7E)
      case _ => true
    }

    function Bytes(): seq<byte> {
      match this
      case Typed(text) => text
      case Return => [13]
      case Back => [8]
      case EraseAfter(zero) => if zero then [27, 91, 48, 75] else [27, 91, 75]
      case EraseBefore => [27, 91, 49, 75]
      case EraseAll => [27, 91, 50, 75]
      case Newline => [10]
      case Control(b) => [b]
      case Escape(b) => [27, b]
      case Sequence(param, final) => [27, 91] + param + [final]
      case Overlong(param) => [27, 91] + param
    }
  }

  /** The line, the cursor in it, and the lines that were ended. */
  datatype Screen = Screen(line: Line, col: nat, ended: seq<Line>)

  function From(line: Line, n: nat): Line {
    if n < |line| then line[n..] else []
  }

  /** Text takes the place of what is under it. */
  function Over(line: Line, col: nat, text: seq<byte>): Line
    requires col <= |line|
  {
    line[..col] + text + From(line, col + |text|)
  }

  function Spaces(n: nat): (s: Line)
    ensures |s| == n && forall i :: 0 <= i < n ==> s[i] == 32
  {
    seq(n, _ => 32)
  }

  function Draw(s: Screen, stroke: Stroke): (r: Screen)
    requires s.col <= |s.line|
    ensures r.col <= |r.line|
  {
    match stroke
    case Typed(text) => s.(line := Over(s.line, s.col, text), col := s.col + |text|)
    case Return => s.(col := 0)
    case Back => s.(col := if s.col == 0 then 0 else s.col - 1)
    case EraseAfter(_) => s.(line := s.line[..s.col])
    case EraseBefore => s.(line := Spaces(s.col) + s.line[s.col..])
    case EraseAll => s.(line := [], col := 0)
    case Newline => Screen([], 0, s.ended + [s.line])
    case _ => s
  }

  function DrawAll(s: Screen, strokes: seq<Stroke>): (r: Screen)
    requires s.col <= |s.line|
    ensures r.col <= |r.line|
    decreases |strokes|
  {
    if strokes == [] then s else DrawAll(Draw(s, strokes[0]), strokes[1..])
  }

  function AllBytes(strokes: seq<Stroke>): seq<byte> {
    if strokes == [] then [] else strokes[0].Bytes() + AllBytes(strokes[1..])
  }

  /** The machine shows the screen, and is in no escape sequence. */
  predicate Shows(e: Editor, s: Screen) {
    e.line == s.line && e.col == s.col && !e.inEsc
  }

  // ----- one stroke

  lemma OneByte(e: Editor, b: byte)
    ensures Run(e, [b], None) == (Feed(e, b, None), if Ends(e, b) then [e.line] else [])
  {
    RunByte(e, [], b, None);
    RunNothing(e, None);
    assert [] + [b] == [b] && [] + [e.line] == [e.line];
  }

  lemma OverByte(line: Line, col: nat, text: seq<byte>, b: byte)
    requires col <= |line|
    ensures var mid := Over(line, col, text);
      && col + |text| <= |mid|
      && Over(line, col, text + [b]) == if col + |text| < |mid| then mid[col + |text| := b] else mid + [b]
  {
  }

  lemma TypesByte(e: Editor, b: byte)
    requires !e.inEsc && (b as int >= 32 || b == 9)
    ensures var f := Feed(e, b, None);
      && !f.inEsc && f.col == e.col + 1 && !Ends(e, b)
      && f.line == if e.col < |e.line| then e.line[e.col := b] else e.line + [b]
  {
  }

  lemma {:induction false} Types(e: Editor, text: seq<byte>)
    requires !e.inEsc && e.col <= |e.line| && Typed(text).WellFormed()
    ensures var r := Run(e, text, None);
      r.1 == [] && !r.0.inEsc && r.0.line == Over(e.line, e.col, text) && r.0.col == e.col + |text|
  {
    hide Run, Feed, Ends;
    RunNothing(e, None);
    if text == [] {
      assert Over(e.line, e.col, []) == e.line;
    } else {
      var before, b := text[..|text| - 1], text[|text| - 1];
      Types(e, before);
      RunByte(e, before, b, None);
      assert before + [b] == text;
      hide Over;
      OverByte(e.line, e.col, before, b);
      TypesByte(Run(e, before, None).0, b);
    }
  }

  /** Bytes of a sequence that do not end it are remembered, up to 32 with the bracket. */
  lemma {:induction false} Collects(e: Editor, param: seq<byte>)
    requires |param| <= 32 && forall i :: 0 <= i < |param| ==> !(0x40 <= param[i] as int <= 0x7E)
    ensures var r := Run(e.(inEsc := true, esc := [91]), param, None);
      r.1 == [] && r.0 == e.(inEsc := |param| < 32, esc := [91] + param)
  {
    RunNothing(e.(inEsc := true, esc := [91]), None);
    if param == [] {
      assert [91] + param == [91];
    } else {
      var before, b := param[..|param| - 1], param[|param| - 1];
      Collects(e, before);
      RunByte(e.(inEsc := true, esc := [91]), before, b, None);
      assert before + [b] == param && [91] + before + [b] == [91] + param;
    }
  }

  lemma Opens(e: Editor)
    requires !e.inEsc
    ensures Run(e, [27, 91], None) == (e.(inEsc := true, esc := [91]), [])
  {
    OneByte(e, 27);
    RunByte(e, [27], 91, None);
    assert [27] + [91] == [27, 91] && [] + [91] == [91];
  }

  lemma SequenceRuns(e: Editor, param: seq<byte>, final: byte)
    requires !e.inEsc && |param| < 32 && (forall i :: 0 <= i < |param| ==> !(0x40 <= param[i] as int <= 0x7E))
    requires 0x40 <= final as int <= 0x7E
    ensures Run(e, [27, 91] + param + [final], None)
         == (ApplyCSI(e.(inEsc := true, esc := [91] + param), final).(inEsc := false), [])
  {
    hide ApplyCSI;
    var open := e.(inEsc := true, esc := [91]);
    Opens(e);
    Collects(e, param);
    RunAppend(e, [27, 91], param, None);
    RunByte(e, [27, 91] + param, final, None);
  }

  lemma OverlongRuns(e: Editor, param: seq<byte>)
    requires !e.inEsc && Overlong(param).WellFormed()
    ensures Run(e, [27, 91] + param, None) == (e.(inEsc := false, esc := [91] + param), [])
  {
    Opens(e);
    Collects(e, param);
    RunAppend(e, [27, 91], param, None);
  }

  lemma EscapeRuns(e: Editor, b: byte)
    requires !e.inEsc && b != 91
    ensures Run(e, [27, b], None) == (e.(inEsc := false, esc := []), [])
  {
    OneByte(e, 27);
    RunByte(e, [27], b, None);
    assert [27] + [b] == [27, b];
  }

  /** What the final byte of a sequence does. */
  lemma FinalDoes(e: Editor, param: seq<byte>, final: byte)
    requires e.esc == [91] + param && e.col <= |e.line|
    ensures final == 75 && (param == [] || param == [48]) ==> ApplyCSI(e, final) == e.(line := e.line[..e.col])
    ensures final == 75 && param == [49] ==> ApplyCSI(e, final) == e.(line := Spaces(e.col) + e.line[e.col..])
    ensures final == 75 && param == [50] ==> ApplyCSI(e, final) == e.(line := [], col := 0)
    ensures final != 75 || param !in {[], [48], [49], [50]} ==> ApplyCSI(e, final) == e
  {
    assert e.esc[1..] == param;
    assert e.line[..|e.line|] == e.line;
    assert Blanked(e.line, e.col) == Spaces(e.col) + e.line[e.col..];
  }

  lemma SequenceDoes(e: Editor, param: seq<byte>, final: byte, bytes: seq<byte>)
    requires !e.inEsc && e.col <= |e.line| && bytes == [27, 91] + param + [final]
    requires |param| < 32 && (forall i :: 0 <= i < |param| ==> !(0x40 <= param[i] as int <= 0x7E))
    requires 0x40 <= final as int <= 0x7E
    ensures var r := Run(e, bytes, None);
      && r.1 == [] && !r.0.inEsc
      && (if final == 75 && (param == [] || param == [48]) then r.0.line == e.line[..e.col] && r.0.col == e.col
          else if final == 75 && param == [49] then r.0.line == Spaces(e.col) + e.line[e.col..] && r.0.col == e.col
          else if final == 75 && param == [50] then r.0.line == [] && r.0.col == 0
          else r.0.line == e.line && r.0.col == e.col)
  {
    hide Run, ApplyCSI;
    SequenceRuns(e, param, final);
    FinalDoes(e.(inEsc := true, esc := [91] + param), param, final);
  }

  lemma StrokeShows(e: Editor, s: Screen, stroke: Stroke)
    requires Shows(e, s) && s.col <= |s.line| && stroke.WellFormed()
    ensures var r := Run(e, stroke.Bytes(), None); var t := Draw(s, stroke);
      Shows(r.0, t) && t.ended == s.ended + r.1
  {
    match stroke
    case Typed(text) => Types(e, text);
    case Return => OneByte(e, 13);
    case Back => OneByte(e, 8);
    case Newline => OneByte(e, 10);
    case Control(b) => OneByte(e, b);
    case Escape(b) => EscapeRuns(e, b);
    case Overlong(param) => OverlongRuns(e, param);
    case EraseAfter(zero) => SequenceDoes(e, if zero then [48] else [], 75, stroke.Bytes());
    case EraseBefore => SequenceDoes(e, [49], 75, stroke.Bytes());
    case EraseAll => SequenceDoes(e, [50], 75, stroke.Bytes());
    case Sequence(param, final) => SequenceDoes(e, param, final, stroke.Bytes());
  }

  // ----- whole streams

  /** The machine makes of every stream of strokes what the strokes draw: the line, the cursor and all ended lines. */
  lemma {:induction false} StreamDraws(e: Editor, s: Screen, strokes: seq<Stroke>)
    requires Shows(e, s) && s.col <= |s.line| && forall i :: 0 <= i < |strokes| ==> strokes[i].WellFormed()
    ensures var r := Run(e, AllBytes(strokes), None); var t := DrawAll(s, strokes);
      Shows(r.0, t) && t.ended == s.ended + r.1
    decreases |strokes|
  {
    hide Draw, Stroke.WellFormed, Stroke.Bytes, Run;
    RunNothing(e, None);
    if strokes != [] {
      StrokeShows(e, s, strokes[0]);
      var first := Run(e, strokes[0].Bytes(), None);
      StreamDraws(first.0, Draw(s, strokes[0]), strokes[1..]);
      RunAppend(e, strokes[0].Bytes(), AllBytes(strokes[1..]), None);
      assert s.ended + (first.1 + Run(first.0, AllBytes(strokes[1..]), None).1)
          == (s.ended + first.1) + Run(first.0, AllBytes(strokes[1..]), None).1;
    }
  }

  /** The same for the machine with a cap: every line is cut there. */
  lemma CappedDraws(strokes: seq<Stroke>, cap: nat)
    requires forall i :: 0 <= i < |strokes| ==> strokes[i].WellFormed()
    ensures var r := Run(START, AllBytes(strokes), Some(cap)); var t := DrawAll(Screen([], 0, []), strokes);
      && r.0.line == Cut(t.line, cap) && r.0.col == t.col && !r.0.inEsc
      && |r.1| == |t.ended| && forall i :: 0 <= i < |t.ended| ==> r.1[i] == Cut(t.ended[i], cap)
  {
    StreamDraws(START, Screen([], 0, []), strokes);
    CapCommutes(AllBytes(strokes), cap);
    hide Run;
    var full := Run(START, AllBytes(strokes), None);
    assert [] + full.1 == full.1;
  }

  // ----- what a line shows that is redrawn

  predicate Plain(s: seq<byte>) {
    Typed(s).WellFormed()
  }

  function Backs(k: nat): (s: seq<byte>)
    ensures |s| == k
  {
    seq(k, _ => 8)
  }

  lemma {:induction false} BacksRun(e: Editor, k: nat)
    requires !e.inEsc
    ensures Run(e, Backs(k), None) == (e.(col := if k < e.col then e.col - k else 0), [])
  {
    RunNothing(e, None);
    if k > 0 {
      BacksRun(e, k - 1);
      assert Backs(k - 1) + [8] == Backs(k);
      RunByte(e, Backs(k - 1), 8, None);
    }
  }

  /** Text, k steps to the left, and a stroke. */
  lemma AfterBacks(a: seq<byte>, k: nat, stroke: Stroke, bytes: seq<byte>, cap: nat)
    requires Plain(a) && stroke.WellFormed() && bytes == a + Backs(k) + stroke.Bytes()
    ensures var c := if k < |a| then |a| - k else 0;
      Run(START, bytes, Some(cap)).0.line == Cut(Draw(Screen(a, c, []), stroke).line, cap)
  {
    hide Draw, Stroke.Bytes, Run, Cut, Backs;
    var typed := Run(START, a, None).0;
    Types(START, a);
    assert Over([], 0, a) == a;
    BacksRun(typed, k);
    RunAppend(START, a, Backs(k), None);
    var back := Run(START, a + Backs(k), None).0;
    StrokeShows(back, Screen(a, back.col, []), stroke);
    RunAppend(START, a + Backs(k), stroke.Bytes(), None);
    CapCommutes(bytes, cap);
  }

  lemma AfterReturn(a: seq<byte>, b: seq<byte>, cap: nat)
    requires Plain(a) && Plain(b)
    ensures Run(START, a + [13] + b, Some(cap)).0.line == Cut(Over(a, 0, b), cap)
  {
    hide Run, Cut;
    var typed := Run(START, a, None).0;
    Types(START, a);
    assert Over([], 0, a) == a;
    OneByte(typed, 13);
    RunAppend(START, a, [13], None);
    Types(Run(START, a + [13], None).0, b);
    RunAppend(START, a + [13], b, None);
    CapCommutes(a + [13] + b, cap);
  }

  /** A line that is redrawn after a carriage return shows the new text over the old one, cut at the cap. */
  lemma ReturnRedraws(a: seq<byte>, b: seq<byte>, cap: nat)
    requires Plain(a) && Plain(b)
    ensures Run(START, a + [13] + b, Some(cap)).0.line == Cut(b + From(a, |b|), cap)
  {
    hide Run, Cut, From;
    AfterReturn(a, b, cap);
    assert a[..0] + b == b;
  }

  /** One that is redrawn from k places back keeps what is before them. */
  lemma BackRedraws(a: seq<byte>, k: nat, b: seq<byte>, cap: nat)
    requires Plain(a) && Plain(b)
    ensures var c := if k < |a| then |a| - k else 0;
      Run(START, a + Backs(k) + b, Some(cap)).0.line == Cut(a[..c] + b + From(a, c + |b|), cap)
  {
    hide Run, Cut, From, Draw, Stroke.Bytes, Backs, Stroke.WellFormed, Plain;
    TypedDraws(a, if k < |a| then |a| - k else 0, b);
    AfterBacks(a, k, Typed(b), a + Backs(k) + b, cap);
  }

  lemma TypedDraws(a: Line, c: nat, b: seq<byte>)
    requires c <= |a|
    ensures Typed(b).Bytes() == b && Draw(Screen(a, c, []), Typed(b)).line == Over(a, c, b)
    ensures Typed(b).WellFormed() <==> Plain(b)
  {
  }

  /** When it is erased from there, it keeps what is before the cursor, or what is not, or nothing; a colour changes
      nothing. */
  lemma Erases(a: seq<byte>, k: nat, cap: nat)
    requires Plain(a)
    ensures var c := if k < |a| then |a| - k else 0; var back := a + Backs(k);
      && Run(START, back + [27, 91, 75], Some(cap)).0.line == Cut(a[..c], cap)
      && Run(START, back + [27, 91, 48, 75], Some(cap)).0.line == Cut(a[..c], cap)
      && Run(START, back + [27, 91, 49, 75], Some(cap)).0.line == Cut(Spaces(c) + a[c..], cap)
      && Run(START, back + [27, 91, 50, 75], Some(cap)).0.line == []
      && Run(START, back + [27, 91, 51, 49, 109], Some(cap)).0.line == Cut(a, cap)
  {
    hide Run;
    var back := a + Backs(k);
    AfterBacks(a, k, EraseAfter(false), back + [27, 91, 75], cap);
    AfterBacks(a, k, EraseAfter(true), back + [27, 91, 48, 75], cap);
    AfterBacks(a, k, EraseBefore, back + [27, 91, 49, 75], cap);
    AfterBacks(a, k, EraseAll, back + [27, 91, 50, 75], cap);
    assert Sequence([51, 49], 109).Bytes() == [27, 91, 51, 49, 109];
    AfterBacks(a, k, Sequence([51, 49], 109), back + [27, 91, 51, 49, 109], cap);
  }
}
