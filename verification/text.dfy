/** Strings, bytes and decimal numbers as the other modules need them. */
module Text {

  newtype byte = b: int | 0 <= b < 256

  datatype Option<+T> = None | Some(value: T)

  datatype Result<+T> = Ok(value: T) | Err(error: string)

  /** A connection's fingerprint: a hash, never empty. An entry that was never prepared has the empty string instead. */
  type Fingerprint = s: string | s != "" witness "0"

  /** The bytes of a string of characters below U+0100. */
  function Ascii(s: string): (b: seq<byte>)
    ensures |b| == |s|
    ensures forall i :: 0 <= i < |s| ==> b[i] as int == s[i] as int % 256
  {
    seq(|s|, i requires 0 <= i < |s| => (s[i] as int % 256) as byte)
  }

  /** The characters of a byte string, one for each byte. */
  function Chars(b: seq<byte>): (s: string)
    ensures |s| == |b|
    ensures forall i :: 0 <= i < |b| ==> s[i] as int == b[i] as int
  {
    seq(|b|, i requires 0 <= i < |b| => b[i] as int as char)
  }

  lemma CharsOfAscii(s: string)
    requires forall i :: 0 <= i < |s| ==> s[i] as int < 256
    ensures Chars(Ascii(s)) == s
  {
  }

  lemma AsciiInjective(s: string, t: string)
    requires forall i :: 0 <= i < |s| ==> s[i] as int < 256
    requires forall i :: 0 <= i < |t| ==> t[i] as int < 256
    requires Ascii(s) == Ascii(t)
    ensures s == t
  {
    CharsOfAscii(s);
    CharsOfAscii(t);
  }

  /** White space as unicode.IsSpace defines it. */
  predicate IsSpace(c: char) {
    || '\t' <= c <= '\r' || c == ' ' || c == '\U{0085}' || c == '\U{00A0}' || c == '\U{1680}'
    || '\U{2000}' <= c <= '\U{200A}' || c == '\U{2028}' || c == '\U{2029}' || c == '\U{202F}'
    || c == '\U{205F}' || c == '\U{3000}'
  }

  predicate NoSpace(s: string) {
    forall i :: 0 <= i < |s| ==> !IsSpace(s[i])
  }

  function TrimLeft(s: string): string {
    if s != "" && IsSpace(s[0]) then TrimLeft(s[1..]) else s
  }

  function TrimRight(s: string): string {
    if s != "" && IsSpace(s[|s| - 1]) then TrimRight(s[..|s| - 1]) else s
  }

  /** strings.TrimSpace */
  function TrimSpace(s: string): string {
    TrimRight(TrimLeft(s))
  }

  /** The first position of c in s, or |s| when s has none. */
  function Find<T(==)>(s: seq<T>, c: T): (k: nat)
    ensures k <= |s|
    ensures k < |s| ==> s[k] == c
    ensures forall i :: 0 <= i < k ==> s[i] != c
  {
    if s == [] || s[0] == c then 0 else 1 + Find(s[1..], c)
  }

  /** The last position of c in s, or -1 when s has none. */
  function FindLast<T(==)>(s: seq<T>, c: T): (k: int)
    ensures -1 <= k < |s|
    ensures k >= 0 ==> s[k] == c
    ensures forall i :: k < i < |s| ==> s[i] != c
  {
    if s == [] then -1 else if s[|s| - 1] == c then |s| - 1 else FindLast(s[..|s| - 1], c)
  }

  lemma FindLastIs<T>(s: seq<T>, c: T, k: nat)
    requires k < |s| && s[k] == c && forall i :: k < i < |s| ==> s[i] != c
    ensures FindLast(s, c) == k
  {
    hide *;
    assert FindLast(s, c) >= k;
  }

  // ----- words and separators

  function WordEnd(s: string): (k: nat)
    ensures k <= |s| && NoSpace(s[..k])
    ensures k < |s| ==> IsSpace(s[k])
  {
    if s == [] || IsSpace(s[0]) then 0 else
      var k := 1 + WordEnd(s[1..]);
      assert s[..k] == [s[0]] + s[1..][..k - 1];
      k
  }

  /** strings.Fields: the words of s between runs of white space. */
  function Fields(s: string): seq<string>
    decreases |s|
  {
    if s == [] then [] else if IsSpace(s[0]) then Fields(s[1..]) else
      assert WordEnd(s) > 0;
      [s[..WordEnd(s)]] + Fields(s[WordEnd(s)..])
  }

  function Join(words: seq<string>, sep: string): string {
    if words == [] then "" else if |words| == 1 then words[0] else words[0] + sep + Join(words[1..], sep)
  }

  lemma {:induction false} WordEndAt(w: string, rest: string)
    requires NoSpace(w) && (rest == [] || IsSpace(rest[0]))
    ensures WordEnd(w + rest) == |w|
  {
    var s := w + rest;
    assert forall i :: 0 <= i < |w| ==> s[i] == w[i];
    assert rest != [] ==> s[|w|] == rest[0];
    assert forall i :: 0 <= i < WordEnd(s) ==> s[..WordEnd(s)][i] == s[i];
  }

  /** Words joined by single blanks come back from strings.Fields. */
  lemma {:induction false} FieldsOfJoin(words: seq<string>)
    requires forall i :: 0 <= i < |words| ==> words[i] != "" && NoSpace(words[i])
    ensures Fields(Join(words, " ")) == words
  {
    if words != [] {
      var w := words[0];
      if |words| == 1 {
        WordEndAt(w, []);
        assert w + [] == w;
      } else {
        var tail := Join(words[1..], " ");
        var rest := " " + tail;
        assert Join(words, " ") == w + rest;
        WordEndAt(w, rest);
        assert (w + rest)[..|w|] == w && (w + rest)[|w|..] == rest;
        assert rest[1..] == tail;
        FieldsOfJoin(words[1..]);
        assert words == [w] + words[1..];
      }
    }
  }

  // ----- decimal numbers

  predicate IsDigit(c: char) { '0' <= c <= '9' }

  predicate AllDigits(s: string) { forall i :: 0 <= i < |s| ==> IsDigit(s[i]) }

  function Digit(d: int): (c: char)
    requires 0 <= d < 10
    ensures IsDigit(c) && c as int - '0' as int == d
  {
    ('0' as int + d) as char
  }

  /** The value of a string of digits. */
  function Value(s: string): nat
    requires AllDigits(s)
  {
    if s == [] then 0 else Value(s[..|s| - 1]) * 10 + (s[|s| - 1] as int - '0' as int)
  }

  /** strconv.Itoa on a number that is not negative. */
  function Itoa(n: nat): (s: string)
    ensures s != "" && AllDigits(s)
  {
    if n < 10 then [Digit(n)] else Itoa(n / 10) + [Digit(n % 10)]
  }

  lemma {:induction false} ValueOfItoa(n: nat)
    ensures Value(Itoa(n)) == n
  {
    if n >= 10 {
      ValueOfItoa(n / 10);
      assert Itoa(n)[..|Itoa(n)| - 1] == Itoa(n / 10);
    } else {
      assert Itoa(n)[..0] == [];
    }
  }

  const INT64_MAX: int := 0x7FFF_FFFF_FFFF_FFFF

  /** Two's complement wrap-around of a 64-bit sum. */
  function Wrap64(x: int): (y: int)
    ensures -INT64_MAX - 1 <= y <= INT64_MAX
    ensures -INT64_MAX - 1 <= x <= INT64_MAX ==> y == x
  {
    (x + INT64_MAX + 1) % (2 * (INT64_MAX + 1)) - INT64_MAX - 1
  }

  /** strconv.ParseInt(s, 10, 64): an optional sign, then digits, within 64 bits. */
  function ParseInt(s: string): (r: Option<int>)
    ensures r.Some? ==> -INT64_MAX - 1 <= r.value <= INT64_MAX
  {
    var negative := s != "" && s[0] == '-';
    var digits := if s != "" && (s[0] == '-' || s[0] == '+') then s[1..] else s;
    if digits == "" || !AllDigits(digits) then None else
      var size: int := Value(digits);
      var v := if negative then -size else size;
      if -INT64_MAX - 1 <= v <= INT64_MAX then Some(v) else None
  }

  lemma ParseIntOfItoa(n: nat)
    requires n <= INT64_MAX
    ensures ParseInt(Itoa(n)) == Some(n)
  {
    ValueOfItoa(n);
    assert IsDigit(Itoa(n)[0]);
  }

  lemma ItoaInjective(m: nat, n: nat)
    requires Itoa(m) == Itoa(n)
    ensures m == n
  {
    ValueOfItoa(m);
    ValueOfItoa(n);
  }

  function Pow10(k: nat): (p: nat)
    ensures p > 0
  {
    if k == 0 then 1 else 10 * Pow10(k - 1)
  }

  lemma {:induction false} ItoaLength(n: nat, k: nat)
    requires k > 0 && n < Pow10(k)
    ensures |Itoa(n)| <= k
  {
    if n >= 10 {
      assert k > 1;
      ItoaLength(n / 10, k - 1);
    }
  }
}
