/** The exit record a finished run leaves on the remote host, and the finish time derived from it. */
module RemoteExit {
  import opened Text

  const SECOND := 1_000_000_000
  const MAX_DURATION := 365 * 24 * 3600  // seconds

  /** Times and durations are in nanoseconds; a legacy record carries no finish time. */
  datatype Exit = Exit(code: int, finishedAt: Option<int>, duration: int)

  /** parseRemoteExit */
  function Parse(raw: string): Result<Exit> {
    var fields := Fields(raw);
    if |fields| == 1 then
      var code := ParseInt(fields[0]);
      if code.None? || code.value < 0 || code.value > 255 then Err("invalid legacy exit status")
      else Ok(Exit(code.value, None, 0))
    else if |fields| != 4 || fields[0] != "CORV_RC_V2" then Err("invalid exit record") else
      var code, finished, duration := ParseInt(fields[1]), ParseInt(fields[2]), ParseInt(fields[3]);
      if code.None? || code.value < 0 || code.value > 255 then Err("invalid exit code")
      else if finished.None? || finished.value <= 0 then Err("invalid finish time")
      else if duration.None? || duration.value < 0 || duration.value > MAX_DURATION then Err("invalid duration")
      else Ok(Exit(code.value, Some(finished.value * SECOND), duration.value * SECOND))
  }

  /** resolveRemoteTiming: the finish time never precedes the start, and it is no later than the observation exactly
      when the start was not. */
  function Resolve(startedAt: int, observedAt: int, exit: Exit): (r: (int, int))
    ensures startedAt <= r.0
    ensures r.0 <= observedAt <==> startedAt <= observedAt
    ensures exit.finishedAt.Some? && startedAt <= exit.finishedAt.value <= observedAt ==> r.0 == exit.finishedAt.value
    ensures exit.finishedAt.Some? && startedAt <= observedAt < exit.finishedAt.value ==> r.0 == observedAt
    ensures exit.finishedAt.Some? && exit.finishedAt.value < startedAt <= startedAt + exit.duration <= observedAt ==>
      r.0 == startedAt + exit.duration
    ensures exit.finishedAt.Some? && exit.finishedAt.value < startedAt <= observedAt < startedAt + exit.duration ==>
      r.0 == observedAt
    ensures observedAt < startedAt ==> r.0 == startedAt
    ensures exit.finishedAt.None? && startedAt <= observedAt ==> r.0 == observedAt
    ensures exit.finishedAt.Some? ==> r.1 == exit.duration
    ensures exit.finishedAt.None? ==> r.1 == r.0 - startedAt
  {
    match exit.finishedAt
    case Some(remote) =>
      var a := if remote < startedAt then startedAt + exit.duration else remote;
      var b := if a > observedAt then observedAt else a;
      (if b < startedAt then startedAt else b, exit.duration)
    case None =>
      var seen := if observedAt < startedAt then startedAt else observedAt;
      (seen, seen - startedAt)
  }

  lemma DigitWords(words: seq<string>)
    requires forall i :: 0 <= i < |words| ==> words[i] != "" && AllDigits(words[i])
    ensures forall i :: 0 <= i < |words| ==> NoSpace(words[i])
  {
    forall i | 0 <= i < |words| ensures NoSpace(words[i]) {
      assert forall k :: 0 <= k < |words[i]| ==> IsDigit(words[i][k]);
    }
  }

  /** A legacy record is read back exactly. */
  lemma LegacyRoundTrip(code: nat)
    requires code <= 255
    ensures Parse(Itoa(code)) == Ok(Exit(code, None, 0))
  {
    DigitWords([Itoa(code)]);
    FieldsOfJoin([Itoa(code)]);
    assert Join([Itoa(code)], " ") == Itoa(code);
    ParseIntOfItoa(code);
  }

  /** The record the remote wrapper prints is accepted exactly when the run lasted at most 365 days, and is then read
      back exactly. */
  lemma RecordRoundTrip(code: nat, finished: nat, duration: nat)
    requires code <= 255 && 0 < finished <= INT64_MAX && duration <= INT64_MAX
    ensures var r := Parse(Join(["CORV_RC_V2", Itoa(code), Itoa(finished), Itoa(duration)], " "));
      && (r.Ok? <==> duration <= MAX_DURATION)
      && (r.Ok? ==> r.value == Exit(code, Some(finished * SECOND), duration * SECOND))
  {
    DigitWords([Itoa(code), Itoa(finished), Itoa(duration)]);
    var words := ["CORV_RC_V2", Itoa(code), Itoa(finished), Itoa(duration)];
    assert NoSpace(words[0]);
    assert forall i :: 1 <= i < 4 ==> words[i] == [Itoa(code), Itoa(finished), Itoa(duration)][i - 1];
    FieldsOfJoin(words);
    ParseIntOfItoa(code);
    ParseIntOfItoa(finished);
    ParseIntOfItoa(duration);
  }
}
