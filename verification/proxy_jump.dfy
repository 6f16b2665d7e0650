/** Jump chains: how a ProxyJump setting is read when dialing, how an import reads and rewrites it, and how it is printed. */
module ProxyJump {
  import opened Text

  datatype Hop = Hop(user: string, host: string, port: int)

  // ----- strings

  /** strings.Split on one character */
  function SplitOn(s: string, c: char): (parts: seq<string>)
    ensures parts != []
    decreases |s|
  {
    var k := Find(s, c);
    if k == |s| then [s] else [s[..k]] + SplitOn(s[k + 1..], c)
  }

  function Count(s: string, c: char): nat {
    if s == "" then 0 else (if s[0] == c then 1 else 0) + Count(s[1..], c)
  }

  /** strings.EqualFold(s, "none") */
  predicate IsNone(s: string) {
    && |s| == 4
    && s[0] in "nN" && s[1] in "oO" && s[2] in "nN" && s[3] in "eE"
  }

  // ----- reading a chain to dial

  function ParsePort(text: string): Result<int> {
    if text == "" then Err("empty port") else
      var port := ParseInt(text);
      if port.None? then Err("invalid port")
      else if port.value < 1 || port.value > 65535 then Err("port out of range")
      else Ok(port.value)
  }

  function ParseHostPort(spec: string): Result<(string, int)> {
    if spec == "" then Err("empty host")
    else if spec[0] == '[' then
      var end := Find(spec, ']');
      if end == |spec| then Err("missing closing bracket")
      else if end == 1 then Err("empty host") else
        var host, rest := spec[1..end], spec[end + 1..];
        if rest == "" then Ok((host, 0))
        else if rest[0] == ':' then
          var port := ParsePort(rest[1..]);
          if port.Err? then Err(port.error) else Ok((host, port.value))
        else Err("unexpected data after bracketed host")
    else if Count(spec, ':') > 1 then Err("IPv6 jump hosts must be bracketed")
    else if Count(spec, ':') == 1 then
      var k := Find(spec, ':');
      if k == 0 then Err("empty host")
      else if k == |spec| then Err("") else
        var port := ParsePort(spec[k + 1..]);
        if port.Err? then Err(port.error) else Ok((spec[..k], port.value))
    else Ok((spec, 0))
  }

  function ParseJumpHost(spec: string): Result<Hop> {
    if spec == "" then Err("empty jump host") else
      var at := FindLast(spec, '@');
      if at == 0 then Err("empty jump user") else
        var user := if at > 0 then spec[..at] else "";
        var r := ParseHostPort(spec[at + 1..]);
        if r.Err? then Err(r.error) else Ok(Hop(user, r.value.0, r.value.1))
  }

  function ParseAll(parts: seq<string>): Result<seq<Hop>> {
    if parts == [] then Ok([]) else
      var first := ParseJumpHost(TrimSpace(parts[0]));
      if first.Err? then Err(first.error) else
        var rest := ParseAll(parts[1..]);
        if rest.Err? then Err(rest.error) else Ok([first.value] + rest.value)
  }

  /** ParseJumpChain */
  function ParseChain(spec: string): Result<seq<Hop>> {
    var trimmed := TrimSpace(spec);
    if trimmed == "" || IsNone(trimmed) then Ok([]) else ParseAll(SplitOn(trimmed, ','))
  }

  method ParseJumpChain(spec: string) returns (r: Result<seq<Hop>>)
    ensures r.Ok? <==> ParseChain(spec).Ok?
    ensures r.Ok? ==> r == ParseChain(spec)
  {
    hide ParseJumpHost, TrimSpace, SplitOn, IsNone;
    var trimmed := TrimSpace(spec);
    if trimmed == "" || IsNone(trimmed) {
      return Ok([]);
    }
    var parts := SplitOn(trimmed, ',');
    var hops: seq<Hop> := [];
    for i := 0 to |parts|
      invariant ParseAll(parts).Ok? <==> ParseAll(parts[i..]).Ok?
      invariant ParseAll(parts).Ok? ==> ParseAll(parts).value == hops + ParseAll(parts[i..]).value
    {
      assert parts[i..][1..] == parts[i + 1..];
      var hop := ParseJumpHost(TrimSpace(parts[i]));
      if hop.Err? {
        return Err(hop.error);
      }
      hops := hops + [hop.value];
    }
    assert hops + [] == hops;
    return Ok(hops);
  }

  // ----- reading and printing a hop on import

  datatype Jump = Jump(user: string, host: string, port: int, hasPort: bool)

  function AtoiPort(text: string): Option<int> {
    var port := ParseInt(text);
    if port.None? || port.value <= 0 || port.value > 65535 then None else port
  }

  function ParseImportJump(spec: string): Option<Jump> {
    if spec == "" then None else
      var at := FindLast(spec, '@');
      if at == 0 then None else
        var user := if at > 0 then spec[..at] else "";
        ParseImportHost(user, spec[at + 1..])
  }

  function ParseImportHost(user: string, hostSpec: string): Option<Jump> {
    if hostSpec == "" then None
    else if hostSpec[0] == '[' then
      var end := Find(hostSpec, ']');
      if end == |hostSpec| || end == 1 then None else
        var host, rest := hostSpec[1..end], hostSpec[end + 1..];
        if rest == "" then Some(Jump(user, host, 0, false))
        else if rest[0] != ':' then None else
          var port := AtoiPort(rest[1..]);
          if port.None? then None else Some(Jump(user, host, port.value, true))
    else if Count(hostSpec, ':') > 1 then None else
      var k := Find(hostSpec, ':');
      if k == |hostSpec| then Some(Jump(user, hostSpec, 0, false))
      else if k == 0 then None else
        var port := AtoiPort(hostSpec[k + 1..]);
        if port.None? then None else Some(Jump(user, hostSpec[..k], port.value, true))
  }

  function FormatHost(host: string): string {
    if ':' in host && !(host[0] == '[' && host[|host| - 1] == ']') then "[" + host + "]" else host
  }

  function Before(user: string): string {
    if user != "" then user + "@" else ""
  }

  function FormatJump(hop: Hop): string {
    Before(hop.user) + FormatHost(hop.host)
    + (if hop.port > 0 then ":" + Itoa(hop.port) else "")
  }

  // ----- the two readings agree

  lemma {:induction false} CountFind(s: string, c: char)
    ensures Count(s, c) == 0 <==> Find(s, c) == |s|
  {
    if s != "" {
      CountFind(s[1..], c);
    }
  }

  lemma PortsAgree(text: string)
    ensures ParsePort(text).Ok? <==> AtoiPort(text).Some?
    ensures ParsePort(text).Ok? ==> ParsePort(text).value == AtoiPort(text).value > 0
  {
    assert ParseInt("").None?;
  }

  predicate SameHost(dial: Result<(string, int)>, imported: Option<Jump>, user: string) {
    && (dial.Ok? <==> imported.Some?)
    && (dial.Ok? ==>
          && imported.value.user == user && dial.value == (imported.value.host, imported.value.port)
          && (imported.value.hasPort <==> imported.value.port > 0))
  }

  lemma HostsAgree(user: string, hostSpec: string)
    ensures SameHost(ParseHostPort(hostSpec), ParseImportHost(user, hostSpec), user)
  {
    hide ParsePort, AtoiPort, Find, Count;
    CountFind(hostSpec, ':');
    if hostSpec != "" && hostSpec[0] == '[' {
      var end := Find(hostSpec, ']');
      if end < |hostSpec| && hostSpec[end + 1..] != "" {
        PortsAgree(hostSpec[end + 1..][1..]);
      }
    } else if Find(hostSpec, ':') < |hostSpec| {
      PortsAgree(hostSpec[Find(hostSpec, ':') + 1..]);
    }
  }

  /** Both readers accept the same hops, with the same user, host and port. */
  lemma ReadersAgree(spec: string)
    ensures var dial, imported := ParseJumpHost(spec), ParseImportJump(spec);
      && (dial.Ok? <==> imported.Some?)
      && (dial.Ok? ==>
            && dial.value == Hop(imported.value.user, imported.value.host, imported.value.port)
            && (imported.value.hasPort <==> imported.value.port > 0))
  {
    hide ParseHostPort, ParseImportHost, Find, FindLast;
    if spec != "" && FindLast(spec, '@') != 0 {
      var at := FindLast(spec, '@');
      HostsAgree(if at > 0 then spec[..at] else "", spec[at + 1..]);
    }
  }

  // ----- any hop, printed and read

  lemma NoneCounted(s: string, c: char)
    requires c !in s
    ensures Count(s, c) == 0 && Find(s, c) == |s|
  {
    CountFind(s, c);
  }

  lemma {:induction false} CountAppend(a: string, b: string, c: char)
    ensures Count(a + b, c) == Count(a, c) + Count(b, c)
  {
    if a == "" {
      assert a + b == b;
    } else {
      assert (a + b)[0] == a[0] && (a + b)[1..] == a[1..] + b;
      CountAppend(a[1..], b, c);
    }
  }

  lemma FindAppend(a: string, c: char, b: string)
    requires c !in a
    ensures Find(a + [c] + b, c) == |a|
    ensures (a + [c] + b)[..|a|] == a && (a + [c] + b)[|a| + 1..] == b
  {
    var s := a + [c] + b;
    assert s[|a|] == c;
    assert forall i :: 0 <= i < |a| ==> s[i] == a[i];
  }

  lemma FindPrefix(a: string, b: string, c: char)
    ensures c in a ==> Find(a + b, c) == Find(a, c) < |a|
    ensures c !in a && c !in b ==> Find(a + b, c) == |a + b|
  {
    hide *;
    var s, k := a + b, Find(a + b, c);
    assert forall i :: 0 <= i < |a| ==> s[i] == a[i];
    assert forall i :: 0 <= i < |b| ==> s[|a| + i] == b[i];
  }

  lemma CountFirst(s: string)
    requires s != "" && s[0] == ':'
    ensures Count(s, ':') == 1 + Count(s[1..], ':')
  {
  }

  lemma LastAt(a: string, b: string)
    requires '@' !in b
    ensures FindLast(a + "@" + b, '@') == |a|
    ensures (a + "@" + b)[..|a|] == a && (a + "@" + b)[|a| + 1..] == b
  {
    hide *;
    var s := a + "@" + b;
    assert s[..|a|] == a && s[|a| + 1..] == b;
    forall i | |a| < i < |s| ensures s[i] != '@' {
      assert s[i] == s[|a| + 1..][i - |a| - 1];
    }
    FindLastIs(s, '@', |a|);
  }

  lemma NoAt(s: string)
    requires '@' !in s
    ensures FindLast(s, '@') == -1 && s[0..] == s
  {
  }

  lemma FindLastBehind(a: string, b: string, c: char)
    requires c in b
    ensures var k := FindLast(b, c);
      && k >= 0 && FindLast(a + b, c) == |a| + k
      && (a + b)[..|a| + k] == a + b[..k] && (a + b)[|a| + k + 1..] == b[k + 1..]
  {
    hide *;
    var s, k := a + b, FindLast(b, c);
    assert s[|a| + k] == c;
    forall i | |a| + k < i < |s| ensures s[i] != c {
      assert s[i] == b[i - |a|];
    }
    FindLastIs(s, c, |a| + k);
  }

  function Suffix(port: int): string {
    if port > 0 then ":" + Itoa(port) else ""
  }

  lemma SuffixReads(port: int)
    ensures var s := Suffix(port);
      && ']' !in s && '@' !in s && (s == "" <==> port <= 0)
      && (port > 0 ==> s[0] == ':' && ':' !in s[1..] && (ParsePort(s[1..]).Ok? <==> port <= 65535)
                       && (port <= 65535 ==> ParsePort(s[1..]) == Ok(port)))
  {
    if port > 0 {
      var digits := Itoa(port);
      assert Suffix(port)[1..] == digits;
      assert forall i :: 0 <= i < |digits| ==> IsDigit(digits[i]);
      ValueOfItoa(port);
      hide Itoa, Value;
      assert IsDigit(digits[0]);
    }
  }

  lemma FormatParts(hop: Hop)
    ensures FormatJump(hop) == Before(hop.user) + (FormatHost(hop.host) + Suffix(hop.port))
  {
  }

  /** The host that is dialed for a printed one, if it can be read: brackets that were there are taken off, and a host with a
      colon can be read when it has no closing bracket. */
  function DialedHost(host: string): Option<string> {
    if host == "" then None
    else if host[0] == '[' && (':' !in host || host[|host| - 1] == ']') then
      if Find(host, ']') == |host| - 1 && |host| > 2 then Some(host[1..|host| - 1]) else None
    else if ':' in host && ']' in host then None
    else Some(host)
  }

  /** A host that is dialed as it is. */
  predicate PlainHost(host: string) {
    && host != "" && (':' in host ==> ']' !in host)
    && (host[0] == '[' ==> ':' in host)
  }

  lemma PlainHostExact(host: string)
    ensures DialedHost(host) == Some(host) <==> PlainHost(host)
  {
  }

  lemma BracketIsNoPort(text: string)
    requires ']' in text
    ensures ParsePort(text).Err?
  {
  }

  /** What follows a closing bracket: nothing or a port. */
  lemma AfterBracket(host: string, port: int, e: nat)
    requires e < |host| && host[e] == ']' && (e < |host| - 1 ==> host[|host| - 1] == ']' || ':' !in host)
    ensures var rest := (host + Suffix(port))[e + 1..];
      && (rest == "" <==> e == |host| - 1 && port <= 0)
      && (e == |host| - 1 && port > 0 ==>
            rest[0] == ':' && (ParsePort(rest[1..]).Ok? <==> port <= 65535)
            && (port <= 65535 ==> ParsePort(rest[1..]) == Ok(port)))
      && (e < |host| - 1 ==> rest[0] != ':' || ParsePort(rest[1..]).Err?)
  {
    hide Find, ParsePort;
    var s := Suffix(port);
    SuffixReads(port);
    hide Suffix;
    var rest := (host + s)[e + 1..];
    assert rest == host[e + 1..] + s;
    if e == |host| - 1 {
      assert rest == s;
    } else if rest[0] == ':' {
      assert host[e + 1] == ':';
      assert rest[1..] == host[e + 2..] + s;
      assert host[e + 2..][|host| - e - 3] == ']';
      BracketIsNoPort(rest[1..]);
    }
  }

  /** A text that begins with a bracket, by what follows the closing one. */
  lemma BracketParts(spec: string)
    requires spec != "" && spec[0] == '['
    ensures var r := ParseHostPort(spec); var e := Find(spec, ']');
      if e == |spec| then r.Err? else
        var rest := spec[e + 1..];
        && (r.Ok? <==> e > 1 && (rest == "" || (rest[0] == ':' && ParsePort(rest[1..]).Ok?)))
        && (r.Ok? ==> r.value == (spec[1..e], if rest == "" then 0 else ParsePort(rest[1..]).value))
  {
    hide Find, ParsePort;
  }

  /** A host that is printed with the bracket it begins with. */
  lemma BracketsRead(host: string, port: int)
    requires host != "" && host[0] == '[' && (':' !in host || host[|host| - 1] == ']')
    ensures var r := ParseHostPort(host + Suffix(port)); var e := Find(host, ']');
      && (r.Ok? <==> e == |host| - 1 && |host| > 2 && port <= 65535)
      && (r.Ok? ==> r.value == (host[1..|host| - 1], if port > 0 then port else 0))
  {
    hide Find, ParsePort, ParseHostPort, Suffix;
    var s := Suffix(port);
    var spec, e := host + s, Find(host, ']');
    SuffixReads(port);
    FindPrefix(host, s, ']');
    assert spec[0] == '[';
    BracketParts(spec);
    if e < |host| {
      AfterBracket(host, port, e);
      assert spec[1..e] == host[1..e];
    }
  }

  /** A host that is printed in new brackets. */
  lemma NewBracketsRead(host: string, port: int)
    requires ':' in host
    ensures var r := ParseHostPort("[" + host + "]" + Suffix(port));
      && (r.Ok? <==> ']' !in host && port <= 65535)
      && (r.Ok? ==> r.value == (host, if port > 0 then port else 0))
  {
    hide Find, ParsePort, ParseHostPort, Suffix;
    var whole := "[" + host + "]";
    assert whole[1..|whole| - 1] == host && whole[|whole| - 1] == ']';
    BracketsRead(whole, port);
    assert forall i :: 0 <= i < |host| ==> whole[i + 1] == host[i];
    assert ']' in host <==> Find(whole, ']') < |whole| - 1;
  }

  /** A host that is printed as it is. */
  lemma UnbracketedRead(host: string, port: int)
    requires ':' !in host && (host != "" ==> host[0] != '[')
    ensures var r := ParseHostPort(host + Suffix(port));
      && (r.Ok? <==> host != "" && port <= 65535)
      && (r.Ok? ==> r.value == (host, if port > 0 then port else 0))
  {
    hide Find, ParsePort, Count;
    var s := Suffix(port);
    SuffixReads(port);
    NoneCounted(host, ':');
    hide Suffix;
    if port > 0 {
      CountAppend(host, s, ':');
      assert s == ":" + s[1..];
      NoneCounted(s[1..], ':');
      CountFirst(s);
      FindAppend(host, ':', s[1..]);
      assert host + s == host + [':'] + s[1..];
    } else {
      assert host + s == host;
    }
  }

  lemma NothingRead()
    ensures ParseHostPort("").Err?
  {
  }

  /** Whatever the host and the port are: what is read of them once they are printed. */
  lemma PrintedHost(host: string, port: int)
    ensures var r := ParseHostPort(FormatHost(host) + Suffix(port));
      && (r.Ok? <==> DialedHost(host).Some? && port <= 65535)
      && (r.Ok? ==> r.value == (DialedHost(host).value, if port > 0 then port else 0))
  {
    hide ParseHostPort, Suffix, Find;
    if ':' in host && !(host[0] == '[' && host[|host| - 1] == ']') {
      NewBracketsRead(host, port);
    } else if host != "" && host[0] == '[' {
      BracketsRead(host, port);
    } else {
      UnbracketedRead(host, port);
    }
  }

  /** The hop that is dialed for a printed one. The user ends at the last at sign, even when that is in the host. */
  function Dialed(hop: Hop): Result<Hop> {
    var text := FormatHost(hop.host) + Suffix(hop.port);
    var at := FindLast(text, '@');
    if at < 0 then
      if DialedHost(hop.host).None? || hop.port > 65535 then Err("")
      else Ok(Hop(hop.user, DialedHost(hop.host).value, if hop.port > 0 then hop.port else 0))
    else
      var user := Before(hop.user) + text[..at];
      var r := ParseHostPort(text[at + 1..]);
      if user == "" || r.Err? then Err("") else Ok(Hop(user, r.value.0, r.value.1))
  }

  lemma SignInHost(host: string, port: int)
    ensures '@' in FormatHost(host) + Suffix(port) <==> '@' in host
  {
    SuffixReads(port);
    hide Suffix;
    var t := FormatHost(host);
    if ':' in host && !(host[0] == '[' && host[|host| - 1] == ']') {
      assert t == "[" + host + "]";
      assert forall c :: c in t <==> c == '[' || c == ']' || c in host;
    }
  }

  /** A hop is read from its last at sign on. */
  lemma ReadFrom(spec: string, at: int)
    requires at == FindLast(spec, '@')
    ensures var r := ParseJumpHost(spec); var end := ParseHostPort(spec[at + 1..]);
      && (r.Ok? <==> at != 0 && end.Ok?)
      && (r.Ok? ==> r.value == Hop(if at < 0 then "" else spec[..at], end.value.0, end.value.1))
  {
    hide ParseHostPort, FindLast;
    NothingRead();
    assert spec == "" ==> spec[at + 1..] == "";
  }

  /** What is printed behind a user, or alone, is read from its last at sign on. */
  lemma ReadSigned(before: string, text: string, at: nat)
    requires at < |text| && text[at] == '@' && forall i :: at < i < |text| ==> text[i] != '@'
    ensures var r, end := ParseJumpHost(before + text), ParseHostPort(text[at + 1..]);
      && (r.Ok? <==> before + text[..at] != "" && end.Ok?)
      && (r.Ok? ==> r.value == Hop(before + text[..at], end.value.0, end.value.1))
  {
    hide *;
    FindLastIs(text, '@', at);
    FindLastBehind(before, text, '@');
    ReadFrom(before + text, |before| + at);
  }

  /** Without an at sign it is read as a whole. */
  lemma ReadUnsigned(user: string, text: string)
    requires '@' !in text
    ensures var r := ParseJumpHost(if user == "" then text else user + "@" + text);
      && (r.Ok? <==> ParseHostPort(text).Ok?)
      && (r.Ok? ==> var end := ParseHostPort(text).value; r.value == Hop(user, end.0, end.1))
  {
    hide *;
    if user == "" {
      NoAt(text);
      ReadFrom(text, -1);
    } else {
      LastAt(user, text);
      ReadFrom(user + "@" + text, |user|);
    }
  }

  lemma Behind(hop: Hop)
    ensures var text := FormatHost(hop.host) + Suffix(hop.port);
      && FormatJump(hop) == Before(hop.user) + text
      && FormatJump(hop) == (if hop.user == "" then text else hop.user + "@" + text)
  {
    hide FormatHost, Suffix;
    var text := FormatHost(hop.host) + Suffix(hop.port);
    assert "" + text == text;
    FormatParts(hop);
  }

  /** Every hop, whatever it holds, is read as the hop that Dialed says, or cannot be read. */
  lemma PrintedDials(hop: Hop)
    ensures var r := ParseJumpHost(FormatJump(hop));
      && (r.Ok? <==> Dialed(hop).Ok?) && (r.Ok? ==> r == Dialed(hop))
  {
    hide ParseHostPort, ParseJumpHost, FormatHost, FormatJump, Suffix, DialedHost, FindLast, Before;
    var text := FormatHost(hop.host) + Suffix(hop.port);
    Behind(hop);
    PrintedHost(hop.host, hop.port);
    if '@' in text {
      ReadSigned(Before(hop.user), text, FindLast(text, '@'));
    } else {
      NoAt(text);
      ReadUnsigned(hop.user, text);
    }
  }

  lemma UserGrows(user: string, more: string)
    ensures Before(user) + more == user ==> user == ""
  {
  }

  /** A printed hop is read back exactly when its host has no at sign and is dialed as it is, and its port is in range. */
  lemma ReadsBackExactly(hop: Hop)
    ensures ParseJumpHost(FormatJump(hop)) == Ok(hop) <==>
            '@' !in hop.host && PlainHost(hop.host) && 0 <= hop.port <= 65535
  {
    hide ParseJumpHost, FormatJump, ParseHostPort, FormatHost, Suffix, DialedHost, PlainHost, FindLast;
    var text := FormatHost(hop.host) + Suffix(hop.port);
    PrintedDials(hop);
    SignInHost(hop.host, hop.port);
    PlainHostExact(hop.host);
    if '@' in hop.host {
      UserGrows(hop.user, text[..FindLast(text, '@')]);
    } else {
      NoAt(text);
    }
  }

  /** An alias whose host name comes in brackets dials what is in them. */
  lemma BracketsGo(user: string, host: string, port: int)
    requires host != "" && ']' !in host && '@' !in host && 0 <= port <= 65535
    ensures ParseJumpHost(FormatJump(Hop(user, "[" + host + "]", port))) == Ok(Hop(user, host, port))
  {
    hide ParseJumpHost, FormatJump, FormatHost, Suffix, Find, FindLast;
    var whole := "[" + host + "]";
    assert whole[1..|whole| - 1] == host;
    FindAppend("[" + host, ']', "");
    assert whole == ("[" + host) + [']'] + "";
    PrintedDials(Hop(user, whole, port));
    SignInHost(whole, port);
    NoAt(FormatHost(whole) + Suffix(port));
  }

  // ----- printing and reading a chain

  predicate GoodHost(host: string) {
    && host != "" && NoSpace(host)
    && '@' !in host && ',' !in host && '[' !in host && ']' !in host
  }

  predicate GoodHop(hop: Hop) {
    && GoodHost(hop.host) && NoSpace(hop.user) && ',' !in hop.user && 0 <= hop.port <= 65535
  }

  lemma SuffixPlain(port: int)
    ensures var s := Suffix(port); '@' !in s && ',' !in s && NoSpace(s)
  {
    if port > 0 {
      var digits := Itoa(port);
      assert forall i :: 0 <= i < |digits| ==> IsDigit(digits[i]);
    }
  }

  /** A printed hop is read back. */
  lemma HopRoundTrip(hop: Hop)
    requires GoodHop(hop)
    ensures ParseJumpHost(FormatJump(hop)) == Ok(hop)
    ensures FormatJump(hop) != "" && ',' !in FormatJump(hop) && NoSpace(FormatJump(hop))
  {
    hide ParseJumpHost;
    ReadsBackExactly(hop);
    FormatParts(hop);
    SuffixPlain(hop.port);
  }

  function FormatAll(hops: seq<Hop>): (texts: seq<string>)
    ensures |texts| == |hops|
  {
    seq(|hops|, i requires 0 <= i < |hops| => FormatJump(hops[i]))
  }

  lemma TrimmedAlready(s: string)
    requires NoSpace(s)
    ensures TrimSpace(s) == s
  {
  }

  lemma {:induction false} SplitJoined(parts: seq<string>)
    requires parts != [] && forall i :: 0 <= i < |parts| ==> ',' !in parts[i]
    ensures SplitOn(Join(parts, ","), ',') == parts
  {
    hide Find;
    if |parts| == 1 {
      NoneCounted(parts[0], ',');
    } else {
      var rest := Join(parts[1..], ",");
      assert Join(parts, ",") == parts[0] + [','] + rest;
      SplitJoined(parts[1..]);
      hide Join;
      FindAppend(parts[0], ',', rest);
      assert parts == [parts[0]] + parts[1..];
    }
  }

  lemma {:induction false} JoinedNoSpace(parts: seq<string>)
    requires forall i :: 0 <= i < |parts| ==> NoSpace(parts[i])
    ensures NoSpace(Join(parts, ","))
  {
    if |parts| > 1 {
      JoinedNoSpace(parts[1..]);
    }
  }

  lemma {:induction false} AllRead(hops: seq<Hop>)
    requires forall i :: 0 <= i < |hops| ==> GoodHop(hops[i])
    ensures ParseAll(FormatAll(hops)) == Ok(hops)
  {
    hide GoodHop, ParseJumpHost, FormatJump;
    if hops != [] {
      HopRoundTrip(hops[0]);
      TrimmedAlready(FormatJump(hops[0]));
      assert FormatAll(hops)[1..] == FormatAll(hops[1..]);
      AllRead(hops[1..]);
      assert hops == [hops[0]] + hops[1..];
    }
  }

  lemma JoinedNotEmpty(parts: seq<string>)
    requires parts != [] && parts[0] != ""
    ensures Join(parts, ",") != ""
  {
  }

  /** A printed chain of well-formed hops is read back with the same users, hosts and ports, unless it is one host named
      none, which means no chain. */
  lemma ChainRoundTrip(hops: seq<Hop>)
    requires forall i :: 0 <= i < |hops| ==> GoodHop(hops[i])
    ensures var chain := Join(FormatAll(hops), ",");
      ParseChain(chain) == if IsNone(chain) then Ok([]) else Ok(hops)
  {
    hide GoodHop, ParseJumpHost, FormatJump, ParseAll, IsNone, Find;
    var texts := FormatAll(hops);
    forall i | 0 <= i < |hops| ensures texts[i] != "" && ',' !in texts[i] && NoSpace(texts[i]) {
      HopRoundTrip(hops[i]);
    }
    JoinedNoSpace(texts);
    TrimmedAlready(Join(texts, ","));
    if hops != [] {
      SplitJoined(texts);
      AllRead(hops);
      JoinedNotEmpty(texts);
    }
  }

  // ----- resolving a hop through the imported aliases

  datatype Alias = Alias(hostName: string, user: string, port: int)

  /** resolveJumpHost */
  function ResolveJumpHost(spec: string, aliases: map<string, Alias>): string {
    var jump := ParseImportJump(spec);
    if jump.None? || jump.value.host !in aliases then spec
    else FormatJump(Resolved(jump.value, aliases[jump.value.host]))
  }

  /** What the hop says comes first, then what its alias says. */
  function Resolved(jump: Jump, block: Alias): Hop {
    Hop(if jump.user != "" then jump.user else block.user,
        if block.hostName != "" then block.hostName else jump.host,
        if jump.hasPort then jump.port else block.port)
  }

  /** A resolved hop, whatever its alias says, dials the hop that Dialed says of it, or cannot be read; it dials the endpoint
      of its alias under what the hop itself says exactly when that has no at sign in its host, a host that is dialed as it
      is and a port in range, as every well-formed hop has. A hop that names no alias stays as it is. */
  lemma ResolvedDials(spec: string, aliases: map<string, Alias>)
    ensures var jump := ParseImportJump(spec); var r := ParseJumpHost(ResolveJumpHost(spec, aliases));
      if jump.Some? && jump.value.host in aliases then
        var hop := Resolved(jump.value, aliases[jump.value.host]);
        && (r.Ok? <==> Dialed(hop).Ok?) && (r.Ok? ==> r == Dialed(hop))
        && (r == Ok(hop) <==> '@' !in hop.host && PlainHost(hop.host) && 0 <= hop.port <= 65535)
        && (GoodHop(hop) ==> r == Ok(hop))
      else ResolveJumpHost(spec, aliases) == spec
  {
    hide ParseJumpHost, FormatJump, ParseImportJump, Dialed, PlainHost;
    var jump := ParseImportJump(spec);
    if jump.Some? && jump.value.host in aliases {
      var hop := Resolved(jump.value, aliases[jump.value.host]);
      PrintedDials(hop);
      ReadsBackExactly(hop);
      if GoodHop(hop) {
        HopRoundTrip(hop);
      }
    }
  }

  predicate GoodUser(user: string) {
    NoSpace(user) && ',' !in user
  }

  /** Through an alias a hop is dialed with its own user and port when it has them and with the alias's otherwise, at the
      alias's host name, or at the hop's own host when the alias has none. */
  lemma HopComesFirst(spec: string, aliases: map<string, Alias>)
    requires ParseImportJump(spec).Some? && ParseImportJump(spec).value.host in aliases
    requires var jump := ParseImportJump(spec).value; var block := aliases[jump.host];
      && GoodHost(jump.host) && GoodUser(jump.user) && GoodUser(block.user)
      && (block.hostName == "" || GoodHost(block.hostName))
      && 0 <= jump.port <= 65535 && 0 <= block.port <= 65535
    ensures var jump := ParseImportJump(spec).value; var block := aliases[jump.host];
      var r := ParseJumpHost(ResolveJumpHost(spec, aliases));
      && r.Ok?
      && (jump.user != "" ==> r.value.user == jump.user) && (jump.user == "" ==> r.value.user == block.user)
      && (block.hostName != "" ==> r.value.host == block.hostName) && (block.hostName == "" ==> r.value.host == jump.host)
      && (jump.hasPort ==> r.value.port == jump.port) && (!jump.hasPort ==> r.value.port == block.port)
  {
    hide ParseJumpHost, FormatJump, ParseImportJump, Dialed, PlainHost;
    ResolvedDials(spec, aliases);
  }
}
