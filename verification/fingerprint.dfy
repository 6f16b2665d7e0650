/** What a connection fingerprint is computed from, and what registry keys are computed from. The hashes over these bytes are
    taken to be injective; here is what the bytes themselves tell apart. */
module Fingerprint {
  import opened Text

  type Bytes = seq<byte>

  datatype Profile = Profile(target: Bytes, port: int, identityFile: Bytes, proxyJump: Bytes)
  datatype Secret = Secret(password: Bytes, passphrase: Bytes)
  datatype Jump = Jump(user: Bytes, host: Bytes, port: int, identityFile: Bytes, password: Bytes, passphrase: Bytes)

  /** All that decides which connection a dial makes. */
  datatype State = State(p: Profile, secret: Secret, jumps: seq<Jump>)

  // ----- fields

  /** strconv.Itoa */
  function Number(n: int): string {
    if n < 0 then "-" + Itoa(-n) else Itoa(n)
  }

  function ProfileFields(p: Profile, s: Secret): (f: seq<Bytes>)
    ensures |f| == 6
  {
    [p.target, Ascii(Number(p.port)), p.identityFile, p.proxyJump, s.password, s.passphrase]
  }

  function JumpFields(j: Jump): (f: seq<Bytes>)
    ensures |f| == 6
  {
    [j.user, j.host, Ascii(Number(j.port)), j.identityFile, j.password, j.passphrase]
  }

  function JumpsFields(js: seq<Jump>): (f: seq<Bytes>)
    ensures |f| == 6 * |js|
  {
    if js == [] then [] else JumpFields(js[0]) + JumpsFields(js[1..])
  }

  function Fields(c: State): seq<Bytes> {
    ProfileFields(c.p, c.secret) + JumpsFields(c.jumps)
  }

  // ----- the length-prefixed encoding

  const MAX_LENGTH := 0x1_0000_0000_0000_0000

  /** A number in n bytes, the high byte first. */
  function BigEndian(x: nat, n: nat): (b: Bytes)
    ensures |b| == n
  {
    if n == 0 then [] else BigEndian(x / 256, n - 1) + [(x % 256) as byte]
  }

  function EncodeField(f: Bytes): Bytes {
    BigEndian(|f|, 8) + f
  }

  function Encode(fields: seq<Bytes>): Bytes {
    if fields == [] then [] else EncodeField(fields[0]) + Encode(fields[1..])
  }

  predicate Fits(fields: seq<Bytes>) {
    forall i :: 0 <= i < |fields| ==> |fields[i]| < MAX_LENGTH
  }

  function Power(n: nat): nat {
    if n == 0 then 1 else 256 * Power(n - 1)
  }

  lemma {:induction false} BigEndianInjective(x: nat, y: nat, n: nat)
    requires x < Power(n) && y < Power(n) && BigEndian(x, n) == BigEndian(y, n)
    ensures x == y
  {
    if n > 0 {
      var a, b := BigEndian(x, n), BigEndian(y, n);
      assert a[..n - 1] == BigEndian(x / 256, n - 1) && b[..n - 1] == BigEndian(y / 256, n - 1);
      assert a[n - 1] == (x % 256) as byte && b[n - 1] == (y % 256) as byte;
      BigEndianInjective(x / 256, y / 256, n - 1);
    }
  }

  lemma LengthsFit()
    ensures Power(8) == MAX_LENGTH
  {
    assert Power(4) == 0x1_0000_0000;
  }

  lemma {:induction false} EncodeInjective(a: seq<Bytes>, b: seq<Bytes>)
    requires Fits(a) && Fits(b) && Encode(a) == Encode(b)
    ensures a == b
  {
    hide BigEndian, Power;
    if a != [] && b != [] {
      var s, t := Encode(a), Encode(b);
      assert s[..8] == BigEndian(|a[0]|, 8) && t[..8] == BigEndian(|b[0]|, 8);
      LengthsFit();
      BigEndianInjective(|a[0]|, |b[0]|, 8);
      assert s[8..][..|a[0]|] == a[0] && t[8..][..|b[0]|] == b[0];
      assert s[8 + |a[0]|..] == Encode(a[1..]) && t[8 + |b[0]|..] == Encode(b[1..]);
      EncodeInjective(a[1..], b[1..]);
      assert a == [a[0]] + a[1..] && b == [b[0]] + b[1..];
    }
  }

  lemma EncodeAppend(a: seq<Bytes>, b: seq<Bytes>)
    ensures Encode(a + b) == Encode(a) + Encode(b)
  {
    if a == [] {
      assert a + b == b;
    } else {
      assert (a + b)[0] == a[0] && (a + b)[1..] == a[1..] + b;
    }
  }

  lemma NumberInjective(m: int, n: int)
    requires Ascii(Number(m)) == Ascii(Number(n))
    ensures m == n
  {
    NumberAscii(m);
    NumberAscii(n);
    AsciiInjective(Number(m), Number(n));
    if m < 0 && n < 0 {
      assert Number(m)[1..] == Itoa(-m) && Number(n)[1..] == Itoa(-n);
      ItoaInjective(-m, -n);
    } else if m >= 0 && n >= 0 {
      ItoaInjective(m, n);
    }
  }

  lemma NumberAscii(m: int)
    ensures forall i :: 0 <= i < |Number(m)| ==> Number(m)[i] as int < 256
    ensures (Number(m)[0] == '-') <==> m < 0
  {
    var digits := Itoa(if m < 0 then -m else m);
    assert forall i :: 0 <= i < |digits| ==> IsDigit(digits[i]);
  }

  lemma JumpFieldsInjective(a: Jump, b: Jump)
    requires JumpFields(a) == JumpFields(b)
    ensures a == b
  {
    assert JumpFields(a)[2] == JumpFields(b)[2];
    NumberInjective(a.port, b.port);
    assert JumpFields(a)[0] == JumpFields(b)[0] && JumpFields(a)[1] == JumpFields(b)[1]
      && JumpFields(a)[3] == JumpFields(b)[3] && JumpFields(a)[4] == JumpFields(b)[4]
      && JumpFields(a)[5] == JumpFields(b)[5];
  }

  lemma {:induction false} JumpsFieldsInjective(a: seq<Jump>, b: seq<Jump>)
    requires JumpsFields(a) == JumpsFields(b)
    ensures a == b
  {
    hide JumpFields, Number;
    assert |a| == |b|;
    if a != [] {
      var f, g := JumpsFields(a), JumpsFields(b);
      assert f[..6] == JumpFields(a[0]) && g[..6] == JumpFields(b[0]);
      JumpFieldsInjective(a[0], b[0]);
      assert f[6..] == JumpsFields(a[1..]) && g[6..] == JumpsFields(b[1..]);
      JumpsFieldsInjective(a[1..], b[1..]);
      assert a == [a[0]] + a[1..] && b == [b[0]] + b[1..];
    }
  }

  lemma ProfileFieldsInjective(p: Profile, s: Secret, q: Profile, t: Secret)
    requires ProfileFields(p, s) == ProfileFields(q, t)
    ensures p == q && s == t
  {
    var f, g := ProfileFields(p, s), ProfileFields(q, t);
    assert f[1] == g[1];
    NumberInjective(p.port, q.port);
    assert f[0] == g[0] && f[2] == g[2] && f[3] == g[3] && f[4] == g[4] && f[5] == g[5];
  }

  /** The encoding tells all connection states apart: it determines target, port, identity, route, credentials and the whole
      list of jumps, for lists of any length. */
  lemma EncodingDeterminesState(a: State, b: State)
    requires Fits(Fields(a)) && Fits(Fields(b)) && Encode(Fields(a)) == Encode(Fields(b))
    ensures a == b
  {
    EncodeInjective(Fields(a), Fields(b));
    assert Fields(a)[..6] == ProfileFields(a.p, a.secret) && Fields(b)[..6] == ProfileFields(b.p, b.secret);
    assert Fields(a)[6..] == JumpsFields(a.jumps) && Fields(b)[6..] == JumpsFields(b.jumps);
    ProfileFieldsInjective(a.p, a.secret, b.p, b.secret);
    JumpsFieldsInjective(a.jumps, b.jumps);
  }

  /** The part of connectionSnapshotFor that writes the fields to a buffer. */
  method WriteState(c: State) returns (current: Bytes)
    ensures current == Encode(Fields(c))
  {
    hide EncodeField, JumpFields, ProfileFields;
    current := WriteFields([], ProfileFields(c.p, c.secret));
    ghost var start := current;
    for i := 0 to |c.jumps|
      invariant start + Encode(JumpsFields(c.jumps)) == current + Encode(JumpsFields(c.jumps[i..]))
    {
      assert c.jumps[i..][1..] == c.jumps[i + 1..];
      EncodeAppend(JumpFields(c.jumps[i]), JumpsFields(c.jumps[i + 1..]));
      current := WriteFields(current, JumpFields(c.jumps[i]));
    }
    EncodeAppend(ProfileFields(c.p, c.secret), JumpsFields(c.jumps));
    assert c.jumps[|c.jumps|..] == [] && current + Encode(JumpsFields([])) == current;
    assert [] + Encode(ProfileFields(c.p, c.secret)) == start;
  }

  method WriteFields(buffer: Bytes, fields: seq<Bytes>) returns (longer: Bytes)
    ensures longer == buffer + Encode(fields)
  {
    hide EncodeField;
    longer := buffer;
    for i := 0 to |fields|
      invariant buffer + Encode(fields) == longer + Encode(fields[i..])
    {
      assert fields[i..][1..] == fields[i + 1..];
      longer := longer + EncodeField(fields[i]);
    }
  }

  // ----- the encoding of earlier versions: every field ends in a zero byte

  function LegacyEncode(fields: seq<Bytes>): Bytes {
    if fields == [] then [] else fields[0] + [0] + LegacyEncode(fields[1..])
  }

  predicate ZeroFree(fields: seq<Bytes>) {
    forall i :: 0 <= i < |fields| ==> 0 !in fields[i]
  }

  lemma FirstZero(a: seq<Bytes>)
    requires a != [] && ZeroFree(a)
    ensures var s := LegacyEncode(a);
      && Find(s, 0) == |a[0]| < |s| && s[..|a[0]|] == a[0] && s[|a[0]| + 1..] == LegacyEncode(a[1..])
  {
    var s := LegacyEncode(a);
    assert s == a[0] + [0] + LegacyEncode(a[1..]);
    assert s[|a[0]|] == 0;
    assert forall i :: 0 <= i < |a[0]| ==> s[i] == a[0][i];
  }

  /** It tells field lists apart as long as no field holds a zero byte. */
  lemma {:induction false} LegacyInjective(a: seq<Bytes>, b: seq<Bytes>)
    requires ZeroFree(a) && ZeroFree(b) && LegacyEncode(a) == LegacyEncode(b)
    ensures a == b
  {
    if a != [] && b != [] {
      FirstZero(a);
      FirstZero(b);
      LegacyInjective(a[1..], b[1..]);
      assert a == [a[0]] + a[1..] && b == [b[0]] + b[1..];
    }
  }

  /** A field split at its zero bytes. */
  function SplitZeros(f: Bytes): (pieces: seq<Bytes>)
    ensures pieces != []
    decreases |f|
  {
    var k := Find(f, 0);
    if k == |f| then [f] else [f[..k]] + SplitZeros(f[k + 1..])
  }

  /** All pieces of all fields. */
  function Pieces(fields: seq<Bytes>): seq<Bytes> {
    if fields == [] then [] else SplitZeros(fields[0]) + Pieces(fields[1..])
  }

  lemma LegacyAppend(a: seq<Bytes>, b: seq<Bytes>)
    ensures LegacyEncode(a + b) == LegacyEncode(a) + LegacyEncode(b)
  {
    if a == [] {
      assert a + b == b;
    } else {
      assert (a + b)[0] == a[0] && (a + b)[1..] == a[1..] + b;
    }
  }

  lemma {:induction false} SplitZerosEncodes(f: Bytes)
    ensures ZeroFree(SplitZeros(f)) && LegacyEncode(SplitZeros(f)) == f + [0]
    decreases |f|
  {
    hide Find;
    var k := Find(f, 0);
    if k == |f| {
      assert LegacyEncode([f]) == f + [0] + LegacyEncode([]);
    } else {
      SplitZerosEncodes(f[k + 1..]);
      assert SplitZeros(f)[1..] == SplitZeros(f[k + 1..]);
      assert f == f[..k] + [0] + f[k + 1..];
    }
  }

  lemma {:induction false} PiecesEncode(fields: seq<Bytes>)
    ensures ZeroFree(Pieces(fields)) && LegacyEncode(Pieces(fields)) == LegacyEncode(fields)
  {
    if fields != [] {
      SplitZerosEncodes(fields[0]);
      PiecesEncode(fields[1..]);
      LegacyAppend(SplitZeros(fields[0]), Pieces(fields[1..]));
    }
  }

  /** What it tells apart, exactly: the lists of pieces between zero bytes, wherever the fields end. */
  lemma LegacyExact(a: seq<Bytes>, b: seq<Bytes>)
    ensures LegacyEncode(a) == LegacyEncode(b) <==> Pieces(a) == Pieces(b)
  {
    PiecesEncode(a);
    PiecesEncode(b);
    if LegacyEncode(a) == LegacyEncode(b) {
      LegacyInjective(Pieces(a), Pieces(b));
    }
  }

  /** The fields of a connection in earlier versions; credentials are in digest form. */
  function LegacyFields(c: State, digest: Bytes -> Bytes): seq<Bytes> {
    [c.p.target, Ascii(Number(c.p.port)), c.p.identityFile, c.p.proxyJump,
     digest(c.secret.password + [0] + c.secret.passphrase)]
    + LegacyJumps(c.jumps, digest)
  }

  function LegacyJumps(js: seq<Jump>, digest: Bytes -> Bytes): seq<Bytes> {
    if js == [] then [] else
      [js[0].user, js[0].host, Ascii(Number(js[0].port)), js[0].identityFile,
       digest(js[0].password + [0] + js[0].passphrase)] + LegacyJumps(js[1..], digest)
  }

  /** Port 1 of host a, with the identity 2, a zero byte, k. */
  function PortOne(secret: Secret): State {
    State(Profile([97], 1, [50, 0, 107], []), secret, [])
  }

  /** Port 2 of the host a, a zero byte, 1, with the identity k. */
  function PortTwo(secret: Secret): State {
    State(Profile([97, 0, 49], 2, [107], []), secret, [])
  }

  /** Two connections that the earlier encoding does not tell apart, whatever the digest; the present one does. */
  lemma LegacyCollides(secret: Secret, digest: Bytes -> Bytes)
    requires |secret.password| < MAX_LENGTH && |secret.passphrase| < MAX_LENGTH
    ensures LegacyEncode(LegacyFields(PortOne(secret), digest)) == LegacyEncode(LegacyFields(PortTwo(secret), digest))
    ensures Encode(Fields(PortOne(secret))) != Encode(Fields(PortTwo(secret)))
  {
    hide Encode, LegacyEncode;
    SameLegacy(secret, digest);
    PortFieldsFit(secret);
    hide Fits, Fields;
    assert PortOne(secret).p != PortTwo(secret).p;
    if Encode(Fields(PortOne(secret))) == Encode(Fields(PortTwo(secret))) {
      EncodingDeterminesState(PortOne(secret), PortTwo(secret));
    }
  }

  lemma PortFieldsFit(secret: Secret)
    requires |secret.password| < MAX_LENGTH && |secret.passphrase| < MAX_LENGTH
    ensures Fits(Fields(PortOne(secret))) && Fits(Fields(PortTwo(secret)))
  {
    assert Ascii(Number(1)) == [49] && Ascii(Number(2)) == [50];
  }

  lemma SameLegacy(secret: Secret, digest: Bytes -> Bytes)
    ensures LegacyEncode(LegacyFields(PortOne(secret), digest)) == LegacyEncode(LegacyFields(PortTwo(secret), digest))
  {
    assert Ascii(Number(1)) == [49] && Ascii(Number(2)) == [50];
    var rest := [[], digest(secret.password + [0] + secret.passphrase)];
    assert LegacyFields(PortOne(secret), digest) == [[97], [49], [50, 0, 107]] + rest;
    assert LegacyFields(PortTwo(secret), digest) == [[97, 0, 49], [50], [107]] + rest;
    hide LegacyEncode;
    LegacyAppend([[97], [49], [50, 0, 107]], rest);
    LegacyAppend([[97, 0, 49], [50], [107]], rest);
    ThreeFields([97], [49], [50, 0, 107]);
    ThreeFields([97, 0, 49], [50], [107]);
  }

  lemma ThreeFields(x: Bytes, y: Bytes, z: Bytes)
    ensures LegacyEncode([x, y, z]) == x + [0] + y + [0] + z + [0]
  {
    assert [x, y, z][1..] == [y, z] && [y, z][1..] == [z] && [z][1..] == [];
    assert LegacyEncode([z]) == z + [0] + [];
  }

  // ----- registry keys

  const RUN_KEY: Bytes := Ascii("run-key")

  /** What jobKey hashes. */
  function CommandPreimage(profile: Bytes, command: Bytes): Bytes {
    profile + [0] + command
  }

  /** What keyedJobKey hashes. */
  function KeyPreimage(profile: Bytes, runKey: Bytes): Bytes {
    profile + [0] + RUN_KEY + [0] + runKey
  }

  lemma ZeroAt(p: Bytes, x: Bytes)
    requires 0 !in p
    ensures Find(p + [0] + x, 0) == |p|
  {
    var s := p + [0] + x;
    assert s[|p|] == 0;
    assert forall i :: 0 <= i < |p| ==> s[i] == p[i];
  }

  lemma ZeroSplit(p: Bytes, x: Bytes, q: Bytes, y: Bytes)
    requires 0 !in p && 0 !in q && p + [0] + x == q + [0] + y
    ensures p == q && x == y
  {
    var s, t := p + [0] + x, q + [0] + y;
    ZeroAt(p, x);
    ZeroAt(q, y);
    assert s[..|p|] == p && t[..|q|] == q && s[|p| + 1..] == x && t[|q| + 1..] == y;
  }

  /** Profile names hold no zero byte, so the registry keys of commands are told apart, and those of run keys too. */
  lemma KeysDistinct(p: Bytes, x: Bytes, q: Bytes, y: Bytes)
    requires 0 !in p && 0 !in q
    ensures CommandPreimage(p, x) == CommandPreimage(q, y) <==> p == q && x == y
    ensures KeyPreimage(p, x) == KeyPreimage(q, y) <==> p == q && x == y
  {
    if CommandPreimage(p, x) == CommandPreimage(q, y) {
      ZeroSplit(p, x, q, y);
    }
    if KeyPreimage(p, x) == KeyPreimage(q, y) {
      var rx, ry := RUN_KEY + [0] + x, RUN_KEY + [0] + y;
      assert KeyPreimage(p, x) == p + [0] + rx && KeyPreimage(q, y) == q + [0] + ry;
      ZeroSplit(p, rx, q, ry);
      assert rx[|RUN_KEY| + 1..] == x && ry[|RUN_KEY| + 1..] == y;
    }
  }

  /** A command and a run key have the same registry key exactly when the command itself spells the run key. */
  lemma KeyCollision(p: Bytes, command: Bytes, q: Bytes, runKey: Bytes)
    requires 0 !in p && 0 !in q
    ensures CommandPreimage(p, command) == KeyPreimage(q, runKey) <==> p == q && command == RUN_KEY + [0] + runKey
  {
    var r := RUN_KEY + [0] + runKey;
    assert KeyPreimage(q, runKey) == q + [0] + r;
    if CommandPreimage(p, command) == KeyPreimage(q, runKey) {
      ZeroSplit(p, command, q, r);
    }
  }
}
