/** The terminal line machine of the output filter: what one byte does to the line, the cursor and an escape sequence. */
module LineEditor {
  import opened Text

  type Line = seq<byte>

  const BEL: byte := 7
  const BACKSPACE: byte := 8
  const TAB: byte := 9
  const NEWLINE: byte := 10
  const RETURN: byte := 13
  const ESC: byte := 27
  const SPACE: byte := 32
  const BRACKET: byte := 91
  const FINAL_K: byte := 75
  const MAX_ESC := 32

  /** The line being edited. A cap of None stands for a machine without one. */
  datatype Editor = Editor(line: Line, col: nat, inEsc: bool, esc: seq<byte>)

  const START := Editor([], 0, false, [])

  predicate Full(line: Line, cap: Option<nat>) {
    cap.Some? && |line| >= cap.value
  }

  /** put: write at the cursor, at the end of a full line only move on. */
  function Put(e: Editor, b: byte, cap: Option<nat>): Editor {
    if e.col < |e.line| then e.(line := e.line[e.col := b], col := e.col + 1)
    else if Full(e.line, cap) then e.(col := e.col + 1)
    else e.(line := e.line + [b], col := e.col + 1)
  }

  function Blanked(line: Line, n: nat): (r: Line)
    ensures |r| == |line|
    ensures forall i :: 0 <= i < |line| ==> r[i] == if i < n then SPACE else line[i]
  {
    seq(|line|, i requires 0 <= i < |line| => if i < n then SPACE else line[i])
  }

  /** applyCSI: erase in line is the only control sequence with an effect. */
  function ApplyCSI(e: Editor, final: byte): Editor
    requires e.esc != []
  {
    var param := e.esc[1..];
    if final != FINAL_K then e
    else if param == [] || param == [48] then e.(line := if e.col < |e.line| then e.line[..e.col] else e.line)
    else if param == [49] then e.(line := Blanked(e.line, e.col))
    else if param == [50] then e.(line := [], col := 0)
    else e
  }

  /** feedEsc */
  function FeedEsc(e: Editor, b: byte): Editor {
    if e.esc == [] then
      if b == BRACKET then e.(esc := [b]) else e.(inEsc := false)
    else if 0x40 <= b as int <= 0x7E then ApplyCSI(e, b).(inEsc := false)
    else
      e.(esc := e.esc + [b], inEsc := |e.esc| + 1 <= MAX_ESC)
  }

  /** feed, but for the end of a line */
  function Feed(e: Editor, b: byte, cap: Option<nat>): Editor {
    if e.inEsc then FeedEsc(e, b)
    else if b == ESC then e.(inEsc := true, esc := [])
    else if b == NEWLINE then e.(line := [], col := 0)
    else if b == RETURN then e.(col := 0)
    else if b == BACKSPACE then e.(col := if e.col > 0 then e.col - 1 else 0)
    else if b == TAB then Put(e, b, cap)
    else if b as int < 0x20 then e
    else Put(e, b, cap)
  }

  /** The byte ends the line. */
  predicate Ends(e: Editor, b: byte) {
    !e.inEsc && b == NEWLINE
  }

  function TrimSpaces(line: Line): (r: Line)
    ensures |r| <= |line| && r == line[..|r|]
    ensures r != [] ==> r[|r| - 1] != SPACE
    ensures forall i :: |r| <= i < |line| ==> line[i] == SPACE
  {
    if line != [] && line[|line| - 1] == SPACE then TrimSpaces(line[..|line| - 1]) else line
  }

  /** A stream: the machine after it, and the lines that it ended, before blanks are trimmed. */
  function Run(e: Editor, stream: seq<byte>, cap: Option<nat>): (Editor, seq<Line>) {
    if stream == [] then (e, []) else
      var before := Run(e, stream[..|stream| - 1], cap);
      var b := stream[|stream| - 1];
      (Feed(before.0, b, cap), if Ends(before.0, b) then before.1 + [before.0.line] else before.1)
  }

  /** The lines of a stream as they are emitted, a last line without a newline included. */
  function LinesOf(e: Editor, stream: seq<byte>, cap: Option<nat>): seq<Line> {
    var r := Run(e, stream, cap);
    Trimmed(if r.0.line != [] then r.1 + [r.0.line] else r.1)
  }

  function Trimmed(lines: seq<Line>): (r: seq<Line>)
    ensures |r| == |lines|
  {
    seq(|lines|, i requires 0 <= i < |lines| => TrimSpaces(lines[i]))
  }

  // ----- the cap commutes with editing

  function Cut(line: Line, cap: nat): (r: Line)
    ensures |r| <= cap && r <= line
    ensures |r| < cap ==> r == line
  {
    if |line| <= cap then line else line[..cap]
  }

  /** The capped machine shows the first cap bytes of the machine without a cap, with the same cursor and escape state. In
      the machine without a cap the cursor is never past the end of the line. */
  ghost predicate Shadows(capped: Editor, full: Editor, cap: nat) {
    && capped.line == Cut(full.line, cap)
    && capped.col == full.col && capped.inEsc == full.inEsc && capped.esc == full.esc
    && full.col <= |full.line| && (full.inEsc ==> |full.esc| <= MAX_ESC)
  }

  lemma PutShadows(capped: Editor, full: Editor, b: byte, cap: nat)
    requires Shadows(capped, full, cap)
    ensures Shadows(Put(capped, b, Some(cap)), Put(full, b, None), cap)
  {
    var full2 := Put(full, b, None);
    var capped2 := Put(capped, b, Some(cap));
    assert capped2.line == Cut(full2.line, cap);
  }

  lemma ApplyShadows(capped: Editor, full: Editor, final: byte, cap: nat)
    requires Shadows(capped, full, cap) && full.esc != []
    ensures Shadows(ApplyCSI(capped, final), ApplyCSI(full, final), cap)
  {
    assert Blanked(Cut(full.line, cap), full.col) == Cut(Blanked(full.line, full.col), cap);
    if full.col < |full.line| {
      var shown := if full.col < |capped.line| then capped.line[..full.col] else capped.line;
      assert Cut(full.line[..full.col], cap) == shown;
    }
  }

  lemma FeedShadows(capped: Editor, full: Editor, b: byte, cap: nat)
    requires Shadows(capped, full, cap)
    ensures Shadows(Feed(capped, b, Some(cap)), Feed(full, b, None), cap)
    ensures Ends(capped, b) <==> Ends(full, b)
  {
    hide Put, ApplyCSI;
    PutShadows(capped, full, b, cap);
    if full.esc != [] {
      ApplyShadows(capped, full, b, cap);
    }
  }

  /** For every stream and cap: after every byte the capped line is the first cap bytes of the line without a cap, the
      cursor and the escape state are equal, and every ended line is the first cap bytes of the one without a cap. */
  lemma {:induction false} CapCommutes(stream: seq<byte>, cap: nat)
    ensures var capped, full := Run(START, stream, Some(cap)), Run(START, stream, None);
      && Shadows(capped.0, full.0, cap)
      && |capped.1| == |full.1|
      && forall i :: 0 <= i < |full.1| ==> capped.1[i] == Cut(full.1[i], cap)
  {
    hide Feed, Ends;
    if stream != [] {
      var before, b := stream[..|stream| - 1], stream[|stream| - 1];
      CapCommutes(before, cap);
      FeedShadows(Run(START, before, Some(cap)).0, Run(START, before, None).0, b, cap);
    }
  }

  /** The cursor passes the end of the line only when the line is at the cap, so an appended byte always lands at the
      cursor. */
  lemma AppendsAtCursor(stream: seq<byte>, cap: nat, b: byte)
    ensures var e := Run(START, stream, Some(cap)).0;
      && |e.line| <= cap
      && (e.col > |e.line| ==> |e.line| == cap)
      && (|Put(e, b, Some(cap)).line| > |e.line| ==> e.col == |e.line| && Put(e, b, Some(cap)).line[e.col] == b)
  {
    hide Run, Feed;
    CapCommutes(stream, cap);
  }

  /** No emitted line holds a newline. */
  predicate Plain(e: Editor) {
    NEWLINE !in e.line
  }

  lemma {:induction false} RunPlain(e: Editor, stream: seq<byte>, cap: Option<nat>)
    requires Plain(e)
    ensures var r := Run(e, stream, cap); Plain(r.0) && forall i :: 0 <= i < |r.1| ==> NEWLINE !in r.1[i]
  {
    if stream != [] {
      var before, b := stream[..|stream| - 1], stream[|stream| - 1];
      RunPlain(e, before, cap);
      FeedPlain(Run(e, before, cap).0, b, cap);
    }
  }

  lemma FeedPlain(e: Editor, b: byte, cap: Option<nat>)
    requires Plain(e)
    ensures Plain(Feed(e, b, cap))
  {
  }

  /** A stream may be written in parts. */
  lemma {:induction false} RunAppend(e: Editor, a: seq<byte>, b: seq<byte>, cap: Option<nat>)
    ensures var first := Run(e, a, cap); var second := Run(first.0, b, cap);
      Run(e, a + b, cap) == (second.0, first.1 + second.1)
  {
    hide Run;
    RunNothing(e, cap);
    RunNothing(Run(e, a, cap).0, cap);
    if b == [] {
      assert a + b == a && Run(e, a, cap).1 + [] == Run(e, a, cap).1;
    } else {
      var before, last := b[..|b| - 1], b[|b| - 1];
      RunAppend(e, a, before, cap);
      assert b == before + [last] && a + b == (a + before) + [last];
      RunByte(e, a + before, last, cap);
      RunByte(Run(e, a, cap).0, before, last, cap);
      var first, second := Run(e, a, cap).1, Run(Run(e, a, cap).0, before, cap);
      assert (first + second.1) + [second.0.line] == first + (second.1 + [second.0.line]);
    }
  }

  lemma RunNothing(e: Editor, cap: Option<nat>)
    ensures Run(e, [], cap) == (e, [])
  {
  }

  lemma RunByte(e: Editor, s: seq<byte>, b: byte, cap: Option<nat>)
    ensures var r := Run(e, s, cap);
      Run(e, s + [b], cap) == (Feed(r.0, b, cap), if Ends(r.0, b) then r.1 + [r.0.line] else r.1)
  {
    hide Feed, Ends;
    assert (s + [b])[..|s|] == s;
  }
}
