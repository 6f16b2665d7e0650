/** The frame in which a finished run's log travels to the client, and what is kept of it. */
module RetainedLog {
  import opened Text

  const MAX_LOCAL := 20 * 1024 * 1024
  const HEAD := 4 * 1024 * 1024
  const MARGIN := 256
  const TAIL := MAX_LOCAL - HEAD - MARGIN
  const MISSING: seq<byte> := Ascii("CORV_LOG_MISSING\n")
  const NEWLINE: byte := 10

  datatype Retained = Missing | Retained(data: seq<byte>, originalBytes: int, truncated: bool)

  function Marker(head: nat, tail: nat, omitted: nat): seq<byte> {
    Ascii("\n[Corv retained first " + Itoa(head) + " bytes and last " + Itoa(tail) + " bytes; " + Itoa(omitted)
          + " bytes omitted]\n")
  }

  /** What the client keeps of a log: all of it, or its head and tail around a marker. */
  function Kept(log: seq<byte>): seq<byte> {
    if |log| <= MAX_LOCAL then log
    else log[..HEAD] + Marker(HEAD, TAIL, |log| - HEAD - TAIL) + log[|log| - TAIL..]
  }

  function Header(size: nat, head: nat, tail: nat): string {
    "CORV_LOG_V1" + " " + Itoa(size) + " " + Itoa(head) + " " + Itoa(tail)
  }

  function Frame(size: nat, head: nat, tail: nat, payload: seq<byte>): seq<byte> {
    Ascii(Header(size, head, tail)) + [NEWLINE] + payload
  }

  /** The output of the remote log command when the log file is present or absent. */
  function Emit(log: Option<seq<byte>>): seq<byte> {
    match log
    case None => MISSING
    case Some(bytes) =>
      if |bytes| <= MAX_LOCAL then Frame(|bytes|, |bytes|, 0, bytes)
      else Frame(|bytes|, HEAD, TAIL, bytes[..HEAD] + bytes[|bytes| - TAIL..])
  }

  /** parseRetainedLog, with its 64-bit sums. */
  function Parse(raw: seq<byte>): Result<Retained> {
    if raw == MISSING then Ok(Missing) else
      var lineEnd := Find(raw, NEWLINE);
      if lineEnd == |raw| || lineEnd >= MARGIN then Err("invalid remote log frame") else
        var fields := Fields(Chars(raw[..lineEnd]));
        if |fields| != 4 || fields[0] != "CORV_LOG_V1" then Err("invalid remote log frame") else
          var original, head, tail := ParseInt(fields[1]), ParseInt(fields[2]), ParseInt(fields[3]);
          if original.None? || head.None? || tail.None? then Err("invalid remote log sizes")
          else ParseSized(raw[lineEnd + 1..], original.value, head.value, tail.value)
  }

  /** Whatever sizes and bytes arrive, an accepted frame has a payload of the announced size, although the sum of the sizes
      may wrap: it is kept whole exactly when it is the whole log, and otherwise it is cut at the announced head around a
      marker that counts what is left out. */
  function ParseSized(payload: seq<byte>, original: int, head: int, tail: int): (r: Result<Retained>)
    requires original <= INT64_MAX && head <= INT64_MAX && tail <= INT64_MAX
    ensures r.Ok? ==>
      && 0 <= head && 0 <= tail && head + tail == |payload| <= original
      && r.value.Retained? && r.value.originalBytes == original && |r.value.data| <= MAX_LOCAL
      && (r.value.truncated <==> |payload| < original)
      && (!r.value.truncated ==> r.value.data == payload)
      && (r.value.truncated ==>
            r.value.data == payload[..head] + Marker(head, tail, original - |payload|) + payload[head..])
  {
    var sum := Wrap64(head + tail);
    if original < 0 || head < 0 || tail < 0 || sum > MAX_LOCAL || original < sum then Err("invalid remote log sizes")
    else if |payload| != sum then Err("incomplete remote log frame")
    else if original == |payload| then Ok(Retained(payload, original, false)) else
      assert sum == head + tail;
      var marker := Marker(head, tail, original - head - tail);
      if |payload| + |marker| > MAX_LOCAL then Err("retained log exceeds local limit")
      else Ok(Retained(payload[..head] + marker + payload[head..], original, true))
  }

  // ----- the round trip

  lemma JoinFour(w: string, a: string, b: string, c: string)
    ensures Join([w, a, b, c], " ") == w + " " + a + " " + b + " " + c
  {
    assert [w, a, b, c][1..] == [a, b, c] && [a, b, c][1..] == [b, c] && [b, c][1..] == [c];
    calc {
      Join([w, a, b, c], " ");
      w + " " + Join([a, b, c], " ");
      w + " " + (a + " " + Join([b, c], " "));
      w + " " + (a + " " + (b + " " + c));
    }
  }

  predicate Line(s: string) {
    forall i :: 0 <= i < |s| ==> s[i] != '\n' && s[i] as int < 256
  }

  lemma DigitsAreLine(s: string)
    requires AllDigits(s)
    ensures Line(s)
  {
    assert forall i :: 0 <= i < |s| ==> IsDigit(s[i]);
  }

  lemma HeaderIsLine(size: nat, head: nat, tail: nat)
    ensures Line(Header(size, head, tail))
  {
    DigitsAreLine(Itoa(size));
    DigitsAreLine(Itoa(head));
    DigitsAreLine(Itoa(tail));
    var start := "CORV_LOG_V1" + " " + Itoa(size);
    assert Line("CORV_LOG_V1" + " ");
    assert Line(start);
    assert Line(start + " " + Itoa(head));
  }

  lemma HeaderLength(size: nat, head: nat, tail: nat)
    requires size <= INT64_MAX && head <= MAX_LOCAL && tail <= MAX_LOCAL
    ensures |Header(size, head, tail)| <= 49
  {
    assert Pow10(8) == 100_000_000 && Pow10(11) == 1000 * Pow10(8) && Pow10(19) == 100_000_000 * Pow10(11);
    ItoaLength(size, 19);
    ItoaLength(head, 8);
    ItoaLength(tail, 8);
  }

  lemma MarkerLength(head: nat, tail: nat, omitted: nat)
    requires head <= MAX_LOCAL && tail <= MAX_LOCAL && omitted <= INT64_MAX
    ensures |Marker(head, tail, omitted)| <= 107
  {
    assert Pow10(8) == 100_000_000 && Pow10(11) == 1000 * Pow10(8) && Pow10(19) == 100_000_000 * Pow10(11);
    ItoaLength(omitted, 19);
    ItoaLength(head, 8);
    ItoaLength(tail, 8);
  }

  /** A framed payload is split at the newline that ends the header, and its three sizes are read back. */
  lemma ParseFramed(size: nat, head: nat, tail: nat, payload: seq<byte>)
    requires size <= INT64_MAX && head <= MAX_LOCAL && tail <= MAX_LOCAL
    ensures Parse(Frame(size, head, tail, payload)) == ParseSized(payload, size, head, tail)
  {
    var text := Header(size, head, tail);
    HeaderIsLine(size, head, tail);
    HeaderLength(size, head, tail);
    FindNewline(text, payload);
    CharsOfAscii(text);
    NotMissing(size, head, tail, payload);
    HeaderFields(size, head, tail);
    ParseIntOfItoa(size);
    ParseIntOfItoa(head);
    ParseIntOfItoa(tail);
  }

  lemma FindNewline(text: string, payload: seq<byte>)
    requires Line(text)
    ensures var raw := Ascii(text) + [NEWLINE] + payload;
      Find(raw, NEWLINE) == |text| && raw[..|text|] == Ascii(text) && raw[|text| + 1..] == payload
  {
    var raw := Ascii(text) + [NEWLINE] + payload;
    assert forall i :: 0 <= i < |text| ==> raw[i] == Ascii(text)[i];
    assert raw[|text|] == NEWLINE;
  }

  lemma NotMissing(size: nat, head: nat, tail: nat, payload: seq<byte>)
    ensures Ascii(Header(size, head, tail)) + [NEWLINE] + payload != MISSING
  {
    var text := Header(size, head, tail);
    var raw := Ascii(text) + [NEWLINE] + payload;
    assert text[9] == 'V' && raw[9] == Ascii(text)[9] && MISSING[9] as int == 'M' as int;
  }

  lemma FourFields(w: string, a: string, b: string, c: string)
    requires w != "" && NoSpace(w)
    requires a != "" && b != "" && c != "" && AllDigits(a) && AllDigits(b) && AllDigits(c)
    ensures Fields(w + " " + a + " " + b + " " + c) == [w, a, b, c]
  {
    JoinFour(w, a, b, c);
    assert forall i :: 0 <= i < |a| ==> IsDigit(a[i]);
    assert forall i :: 0 <= i < |b| ==> IsDigit(b[i]);
    assert forall i :: 0 <= i < |c| ==> IsDigit(c[i]);
    FieldsOfJoin([w, a, b, c]);
  }

  lemma HeaderFields(size: nat, head: nat, tail: nat)
    ensures Fields(Header(size, head, tail)) == ["CORV_LOG_V1", Itoa(size), Itoa(head), Itoa(tail)]
  {
    FourFields("CORV_LOG_V1", Itoa(size), Itoa(head), Itoa(tail));
  }

  lemma LongPayload(log: seq<byte>)
    requires MAX_LOCAL < |log| <= INT64_MAX
    ensures ParseSized(log[..HEAD] + log[|log| - TAIL..], |log|, HEAD, TAIL) == Ok(Retained(Kept(log), |log|, true))
  {
    var payload := log[..HEAD] + log[|log| - TAIL..];
    MarkerLength(HEAD, TAIL, |log| - HEAD - TAIL);
    assert payload[..HEAD] == log[..HEAD] && payload[HEAD..] == log[|log| - TAIL..];
  }

  lemma ShortPayload(log: seq<byte>)
    requires |log| <= MAX_LOCAL
    ensures ParseSized(log, |log|, |log|, 0) == Ok(Retained(Kept(log), |log|, false))
  {
  }

  /** For every log, parsing the frame gives its exact size, and the whole log or its exact head and tail. */
  lemma FrameRoundTrip(log: seq<byte>)
    requires |log| <= INT64_MAX
    ensures Parse(Emit(Some(log))) == Ok(Retained(Kept(log), |log|, |log| > MAX_LOCAL))
  {
    hide Parse, ParseSized, Frame, Header, Marker;
    if |log| <= MAX_LOCAL {
      ParseFramed(|log|, |log|, 0, log);
      ShortPayload(log);
    } else {
      ParseFramed(|log|, HEAD, TAIL, log[..HEAD] + log[|log| - TAIL..]);
      LongPayload(log);
    }
  }

  /** The kept log fits the local limit, and the frame fits the fetch limit. */
  lemma FrameFits(log: seq<byte>)
    requires |log| <= INT64_MAX
    ensures |Kept(log)| <= MAX_LOCAL
    ensures |Emit(Some(log))| <= MAX_LOCAL + MARGIN
    ensures Kept(log) == log <==> |log| <= MAX_LOCAL
  {
    if |log| <= MAX_LOCAL {
      HeaderLength(|log|, |log|, 0);
    } else {
      HeaderLength(|log|, HEAD, TAIL);
      MarkerLength(HEAD, TAIL, |log| - HEAD - TAIL);
    }
  }

  /** A log that is too long is kept from both ends: byte by byte its first HEAD bytes and its last TAIL bytes, with the number
      of those left out between them. */
  lemma KeptEnds(log: seq<byte>)
    requires |log| > MAX_LOCAL
    ensures var k := Kept(log);
      && |k| > HEAD + TAIL
      && (forall i :: 0 <= i < HEAD ==> k[i] == log[i])
      && (forall i :: |k| - TAIL <= i < |k| ==> k[i] == log[i + |log| - |k|])
      && k[HEAD..|k| - TAIL] == Marker(HEAD, TAIL, |log| - HEAD - TAIL)
  {
    hide Marker;
    var marker := Marker(HEAD, TAIL, |log| - HEAD - TAIL);
    MarkerStarts(HEAD, TAIL, |log| - HEAD - TAIL);
    assert Kept(log)[HEAD..HEAD + |marker|] == marker;
  }

  lemma MarkerStarts(head: nat, tail: nat, omitted: nat)
    ensures Marker(head, tail, omitted) != []
  {
    var start := "\n[Corv retained first ";
    assert start[0] == '\n';
  }
}
