/** Well-formed UTF-8, as the grammar in section 4 of RFC 3629 has it, and the places where it may be cut. */
module Utf8 {
  import opened Text

  /** A byte that is not a continuation byte (utf8.RuneStart). */
  predicate Start(b: byte) {
    !(0x80 <= b as int < 0xC0)
  }

  /** The length of the character at the beginning of s, or 0 when there is none. */
  function RuneLength(s: seq<byte>): (n: nat)
    ensures n <= |s| && n <= 4
    ensures n > 0 ==> Start(s[0]) && forall i :: 0 < i < n ==> !Start(s[i])
  {
    if s == [] then 0 else
      var a := s[0] as int;
      var b := if |s| > 1 then s[1] as int else 0;
      if a < 0x80 then 1
      else if 0xC2 <= a < 0xE0 && 0x80 <= b < 0xC0 then 2
      else if |s| > 2 && !Start(s[2]) && ((a == 0xE0 && 0xA0 <= b < 0xC0) || (a == 0xED && 0x80 <= b < 0xA0)
                || (0xE1 <= a < 0xF0 && a != 0xED && 0x80 <= b < 0xC0)) then 3
      else if |s| > 3 && !Start(s[2]) && !Start(s[3]) && ((a == 0xF0 && 0x90 <= b < 0xC0)
                || (a == 0xF4 && 0x80 <= b < 0x90) || (0xF1 <= a < 0xF4 && 0x80 <= b < 0xC0)) then 4
      else 0
  }

  predicate Valid(s: seq<byte>)
    decreases |s|
  {
    s == [] || (RuneLength(s) > 0 && Valid(s[RuneLength(s)..]))
  }

  lemma RuneLengthPrefix(a: seq<byte>, b: seq<byte>)
    requires RuneLength(a) > 0
    ensures RuneLength(a + b) == RuneLength(a)
  {
    var s := a + b;
    assert forall i :: 0 <= i < |a| ==> s[i] == a[i];
  }

  lemma RuneLengthCut(s: seq<byte>, k: nat)
    requires 0 < RuneLength(s) <= k <= |s|
    ensures RuneLength(s[..k]) == RuneLength(s)
  {
    var a := s[..k];
    assert forall i :: 0 <= i < |a| ==> s[i] == a[i];
  }

  /** Two well-formed texts make one. */
  lemma {:induction false} ValidAppend(a: seq<byte>, b: seq<byte>)
    requires Valid(a) && Valid(b)
    ensures Valid(a + b)
    decreases |a|
  {
    hide RuneLength;
    if a == [] {
      assert a + b == b;
    } else {
      RuneLengthPrefix(a, b);
      assert (a + b)[RuneLength(a)..] == a[RuneLength(a)..] + b;
      ValidAppend(a[RuneLength(a)..], b);
    }
  }

  /** A well-formed text may be cut before any byte that starts a character, and at its end. */
  lemma {:induction false} ValidCut(s: seq<byte>, k: nat)
    requires Valid(s) && k <= |s| && (k < |s| ==> Start(s[k]))
    ensures Valid(s[..k]) && Valid(s[k..])
    decreases |s|
  {
    hide RuneLength;
    var n := RuneLength(s);
    if k == 0 {
      assert s[..k] == [] && s[k..] == s;
    } else {
      assert n <= k;
      var rest := s[n..];
      ValidCut(rest, k - n);
      RuneLengthCut(s, k);
      assert s[..k][n..] == rest[..k - n];
      assert rest[k - n..] == s[k..];
    }
  }

  /** It may also be cut after any byte below 0x80. */
  lemma ValidAfter(s: seq<byte>, k: nat)
    requires Valid(s) && k < |s| && s[k] as int < 0x80
    ensures Valid(s[..k]) && Valid(s[..k + 1]) && Valid(s[k + 1..])
  {
    ValidCut(s, k);
    assert RuneLength(s[k..]) == 1;
    assert s[k..][1..] == s[k + 1..];
    assert RuneLength([s[k]]) == 1 && Valid([s[k]][1..]);
    ValidAppend(s[..k], [s[k]]);
    assert s[..k + 1] == s[..k] + [s[k]];
  }

  lemma {:induction false} AsciiIsValid(s: seq<byte>)
    requires forall i :: 0 <= i < |s| ==> s[i] as int < 0x80
    ensures Valid(s)
    decreases |s|
  {
    if s != [] {
      AsciiIsValid(s[1..]);
      assert RuneLength(s) == 1;
    }
  }

  /** Cut within a character, it is not well-formed, and what begins a new character behind it does not mend it. */
  lemma {:induction false} CutWithin(s: seq<byte>, k: nat, more: seq<byte>)
    requires Valid(s) && k < |s| && !Start(s[k]) && (more != [] ==> Start(more[0]))
    ensures !Valid(s[..k] + more)
    decreases |s|
  {
    var n := RuneLength(s);
    var t := s[..k] + more;
    if n <= k {
      assert s[n..][..k - n] == s[..k][n..];
      CutWithin(s[n..], k - n, more);
      RuneLengthCut(s, k);
      hide RuneLength, Start;
      RuneLengthPrefix(s[..k], more);
      assert t[n..] == s[..k][n..] + more;
    } else {
      RuneBroken(s, k, more);
    }
  }

  /** A character that is cut short is none. */
  lemma RuneBroken(s: seq<byte>, k: nat, more: seq<byte>)
    requires 0 < k < RuneLength(s) && (more != [] ==> Start(more[0]))
    ensures RuneLength(s[..k] + more) == 0
  {
    var t := s[..k] + more;
    assert forall i :: 0 <= i < k ==> t[i] == s[i];
    assert |t| > k ==> t[k] == more[0];
  }
}
