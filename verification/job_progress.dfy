/** The frame in which the state of a run and the end of its log travel to the client. */
module JobProgress {
  import opened Text
  import opened RetainedLog

  const MAX_TAIL := 16 * 1024

  datatype State = Running | Done | Missing

  datatype Progress = Progress(state: State, tail: seq<byte>, originalBytes: int)

  function Name(s: State): string {
    match s
    case Running => "running"
    case Done => "done"
    case Missing => "missing"
  }

  function StateOf(name: string): Option<State> {
    if name == "running" then Some(Running) else if name == "done" then Some(Done)
    else if name == "missing" then Some(State.Missing) else None
  }

  /** The output of the remote progress command. The log may have grown between the count of its bytes and its tail. */
  function Emit(s: State, size: nat, tail: seq<byte>): seq<byte> {
    Ascii(Line1(s, size)) + [NEWLINE] + tail
  }

  function Line1(s: State, size: nat): string {
    Join(["CORV_PROGRESS_V1", Name(s), Itoa(size)], " ")
  }

  /** parseJobProgress: an accepted size is never less than the tail that came with it. */
  function Parse(raw: seq<byte>): (r: Result<Progress>)
    ensures r.Ok? ==> |r.value.tail| <= MAX_TAIL && |r.value.tail| <= r.value.originalBytes
    ensures r.Ok? ==> |r.value.tail| < |raw| && raw[|raw| - |r.value.tail|..] == r.value.tail
  {
    var lineEnd := Find(raw, NEWLINE);
    if lineEnd == |raw| || lineEnd >= MARGIN then Err("invalid progress frame") else
      var fields := Fields(Chars(raw[..lineEnd]));
      if |fields| != 3 || fields[0] != "CORV_PROGRESS_V1" then Err("invalid progress frame")
      else if StateOf(fields[1]).None? then Err("invalid progress state") else
        var size := ParseInt(fields[2]);
        if size.None? || size.value < 0 then Err("invalid progress size") else
          var payload := raw[lineEnd + 1..];
          if |payload| > MAX_TAIL then Err("progress payload exceeds limit")
          else Ok(Progress(StateOf(fields[1]).value, payload,
                           if size.value < |payload| then |payload| else size.value))
  }

  lemma NameIsWord(s: State)
    ensures Name(s) != "" && NoSpace(Name(s)) && Line(Name(s)) && |Name(s)| <= 7 && StateOf(Name(s)) == Some(s)
  {
  }

  lemma Line1Fields(s: State, size: nat)
    ensures Fields(Line1(s, size)) == ["CORV_PROGRESS_V1", Name(s), Itoa(size)]
  {
    NameIsWord(s);
    var digits := Itoa(size);
    assert forall i :: 0 <= i < |digits| ==> IsDigit(digits[i]);
    assert NoSpace("CORV_PROGRESS_V1");
    FieldsOfJoin(["CORV_PROGRESS_V1", Name(s), digits]);
  }

  lemma Line1IsLine(s: State, size: nat)
    requires size <= INT64_MAX
    ensures Line(Line1(s, size)) && |Line1(s, size)| < MARGIN
  {
    hide Line1, Name;
    NameIsWord(s);
    DigitsAreLine(Itoa(size));
    assert Pow10(8) == 100_000_000 && Pow10(11) == 1000 * Pow10(8) && Pow10(19) == 100_000_000 * Pow10(11);
    ItoaLength(size, 19);
    Line1Text(s, size);
    var start := "CORV_PROGRESS_V1 ";
    assert Line(start);
    assert Line(start + Name(s) + " ");
  }

  lemma Line1Text(s: State, size: nat)
    ensures Line1(s, size) == "CORV_PROGRESS_V1 " + Name(s) + " " + Itoa(size)
  {
    hide Name, Join;
    JoinThree("CORV_PROGRESS_V1", Name(s), Itoa(size));
    assert "CORV_PROGRESS_V1" + " " == "CORV_PROGRESS_V1 ";
  }

  lemma JoinThree(a: string, b: string, c: string)
    ensures Join([a, b, c], " ") == a + " " + b + " " + c
  {
    assert [a, b, c][1..] == [b, c] && [b, c][1..] == [c];
    calc {
      Join([a, b, c], " ");
      a + " " + Join([b, c], " ");
      a + " " + (b + " " + c);
      a + " " + b + " " + c;
    }
  }

  /** For every state, size and tail that fits, the frame is read back; a size that the log outgrew is raised to the tail. */
  lemma ProgressRoundTrip(s: State, size: nat, tail: seq<byte>)
    requires size <= INT64_MAX && |tail| <= MAX_TAIL
    ensures Parse(Emit(s, size, tail)) == Ok(Progress(s, tail, if size < |tail| then |tail| else size))
  {
    hide Fields;
    Line1IsLine(s, size);
    Line1Fields(s, size);
    FindNewline(Line1(s, size), tail);
    CharsOfAscii(Line1(s, size));
    NameIsWord(s);
    ParseIntOfItoa(size);
  }
}
