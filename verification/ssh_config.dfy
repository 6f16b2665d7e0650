/**
 Reading an OpenSSH client configuration: a parser that follows includes and collects blocks of settings, and the lookup of
 one host in the blocks. Globbing, file patterns and the home directory are tables of the environment.
 */
module SshConfig {
  import opened Text

  type Path = string

  /** A line that is not blank or a comment: its keyword in lower case, and its value. */
  datatype Directive = Directive(key: string, value: string)

  datatype Env = Env(
    files: map<Path, seq<Directive>>,
    globs: map<(Path, string), seq<Path>>,   // the files that an include pattern in a file stands for
    lower: map<string, string>,              // strings that lower case changes
    matching: set<(string, string)>,         // the patterns and names that match
    home: map<string, string>)               // the paths that the home directory changes

  function Matches(env: Env, path: Path, pattern: string): seq<Path> {
    if (path, pattern) in env.globs then env.globs[(path, pattern)] else []
  }

  function Lower(env: Env, s: string): string {
    if s in env.lower then env.lower[s] else s
  }

  function ExpandHome(env: Env, s: string): string {
    if s in env.home then env.home[s] else s
  }

  datatype Block = Block(
    aliases: seq<string>, hostName: string, user: string, port: int, identity: string, proxyJump: string)

  function NewBlock(aliases: seq<string>): Block {
    Block(aliases, "", "", 0, "", "")
  }

  // ----- the stream of directives, with every include replaced by what it includes

  lemma FewerLeft(files: set<Path>, active: set<Path>, path: Path)
    requires path in files && path !in active
    ensures |files - (active + {path})| < |files - active|
  {
    assert files - active == (files - (active + {path})) + {path};
  }

  /** A file that is being read already adds nothing. None stands for a file that cannot be read. */
  function Expand(env: Env, path: Path, active: set<Path>): Option<seq<Directive>>
    decreases |env.files.Keys - active|, 3, 0
  {
    if path in active then Some([])
    else if path !in env.files then None
    else
      FewerLeft(env.files.Keys, active, path);
      ExpandLines(env, path, env.files[path], active + {path})
  }

  function ExpandLines(env: Env, path: Path, lines: seq<Directive>, active: set<Path>): Option<seq<Directive>>
    decreases |env.files.Keys - active|, 6, |lines|
  {
    if lines == [] then Some([]) else
      var first :=
        if lines[0].key == "include" then ExpandPatterns(env, path, Fields(lines[0].value), active) else Some([lines[0]]);
      Both(first, ExpandLines(env, path, lines[1..], active))
  }

  function ExpandPatterns(env: Env, path: Path, patterns: seq<string>, active: set<Path>): Option<seq<Directive>>
    decreases |env.files.Keys - active|, 5, |patterns|
  {
    if patterns == [] then Some([])
    else Both(ExpandPaths(env, Matches(env, path, patterns[0]), active), ExpandPatterns(env, path, patterns[1..], active))
  }

  function ExpandPaths(env: Env, paths: seq<Path>, active: set<Path>): Option<seq<Directive>>
    decreases |env.files.Keys - active|, 4, |paths|
  {
    if paths == [] then Some([]) else Both(Expand(env, paths[0], active), ExpandPaths(env, paths[1..], active))
  }

  function Both(a: Option<seq<Directive>>, b: Option<seq<Directive>>): Option<seq<Directive>> {
    if a.Some? && b.Some? then Some(a.value + b.value) else None
  }

  // ----- includes

  predicate NoInclude(lines: seq<Directive>) {
    forall i :: 0 <= i < |lines| ==> lines[i].key != "include"
  }

  /** The files that some patterns stand for, pattern by pattern. */
  function AllMatches(env: Env, path: Path, patterns: seq<string>): seq<Path> {
    if patterns == [] then [] else Matches(env, path, patterns[0]) + AllMatches(env, path, patterns[1..])
  }

  /** The lines of some files, one file after the other. */
  function LinesOf(env: Env, paths: seq<Path>): seq<Directive>
    requires forall i :: 0 <= i < |paths| ==> paths[i] in env.files
  {
    if paths == [] then [] else env.files[paths[0]] + LinesOf(env, paths[1..])
  }

  lemma {:induction false} PlainLines(env: Env, path: Path, lines: seq<Directive>, rest: seq<Directive>, active: set<Path>)
    requires NoInclude(lines)
    ensures ExpandLines(env, path, lines + rest, active) == Both(Some(lines), ExpandLines(env, path, rest, active))
    decreases |lines|
  {
    if lines == [] {
      assert lines + rest == rest;
      BothNothing(ExpandLines(env, path, rest, active));
    } else {
      assert (lines + rest)[0] == lines[0] && (lines + rest)[1..] == lines[1..] + rest;
      PlainLines(env, path, lines[1..], rest, active);
      BothThree(Some([lines[0]]), Some(lines[1..]), ExpandLines(env, path, rest, active));
      assert [lines[0]] + lines[1..] == lines;
    }
  }

  /** Files that include nothing and are not being read. */
  predicate PlainFiles(env: Env, paths: seq<Path>, active: set<Path>) {
    forall i :: 0 <= i < |paths| ==> paths[i] in env.files && paths[i] !in active && NoInclude(env.files[paths[i]])
  }

  lemma {:induction false} PlainFilesRead(env: Env, paths: seq<Path>, active: set<Path>)
    requires PlainFiles(env, paths, active)
    ensures ExpandPaths(env, paths, active) == Some(LinesOf(env, paths))
    decreases |paths|
  {
    if paths != [] {
      var lines := env.files[paths[0]];
      PlainLines(env, paths[0], lines, [], active + {paths[0]});
      assert lines + [] == lines;
      PlainFilesRead(env, paths[1..], active);
    }
  }

  lemma LinesOfBoth(env: Env, a: seq<Path>, b: seq<Path>)
    requires forall i :: 0 <= i < |a + b| ==> (a + b)[i] in env.files
    ensures forall i :: 0 <= i < |a| ==> a[i] in env.files
    ensures forall i :: 0 <= i < |b| ==> b[i] in env.files
    ensures LinesOf(env, a + b) == LinesOf(env, a) + LinesOf(env, b)
    decreases |a|
  {
    forall i | 0 <= i < |a| ensures a[i] in env.files { assert a[i] == (a + b)[i]; }
    forall i | 0 <= i < |b| ensures b[i] in env.files { assert b[i] == (a + b)[|a| + i]; }
    if a == [] {
      assert a + b == b;
    } else {
      assert (a + b)[0] == a[0] && (a + b)[1..] == a[1..] + b;
      LinesOfBoth(env, a[1..], b);
    }
  }

  lemma {:induction false} PatternsRead(env: Env, path: Path, patterns: seq<string>, active: set<Path>)
    requires PlainFiles(env, AllMatches(env, path, patterns), active)
    ensures ExpandPatterns(env, path, patterns, active) == Some(LinesOf(env, AllMatches(env, path, patterns)))
    decreases |patterns|
  {
    if patterns != [] {
      var first, rest := Matches(env, path, patterns[0]), AllMatches(env, path, patterns[1..]);
      LinesOfBoth(env, first, rest);
      assert forall i :: 0 <= i < |first| ==> first[i] == (first + rest)[i];
      assert forall i :: 0 <= i < |rest| ==> rest[i] == (first + rest)[|first| + i];
      PlainFilesRead(env, first, active);
      PatternsRead(env, path, patterns[1..], active);
    }
  }

  lemma IncludeAt(env: Env, path: Path, before: seq<Directive>, d: Directive, after: seq<Directive>)
    requires path in env.files && env.files[path] == before + [d] + after
    requires NoInclude(before) && d.key == "include" && NoInclude(after)
    ensures Expand(env, path, {})
         == Both(Some(before), Both(ExpandPatterns(env, path, Fields(d.value), {path}), Some(after)))
  {
    assert before + [d] + after == before + ([d] + after);
    assert {} + {path} == {path};
    FewerLeft(env.files.Keys, {}, path);
    assert Expand(env, path, {}) == ExpandLines(env, path, before + ([d] + after), {path});
    PlainLines(env, path, before, [d] + after, {path});
    assert ([d] + after)[0] == d && ([d] + after)[1..] == after;
    PlainLines(env, path, after, [], {path});
    assert after + [] == after;
    BothNothing(Some(after));
    hide ExpandPatterns;
    assert ExpandLines(env, path, [], {path}) == Some([]);
    assert ExpandLines(env, path, after, {path}) == Some(after);
  }

  /** An include is replaced by the lines of the files that its patterns stand for, in their order and where it stands; a file
      that includes itself adds nothing there; and a file that cannot be read fails the whole. */
  lemma IncludeIsReplaced(env: Env, path: Path, before: seq<Directive>, d: Directive, after: seq<Directive>)
    requires path in env.files && env.files[path] == before + [d] + after
    requires NoInclude(before) && d.key == "include" && NoInclude(after)
    ensures var paths := AllMatches(env, path, Fields(d.value));
      && (PlainFiles(env, paths, {path}) ==> Expand(env, path, {}) == Some(before + LinesOf(env, paths) + after))
      && (paths == [path] ==> Expand(env, path, {}) == Some(before + after))
      && (|paths| == 1 && paths[0] !in env.files ==> Expand(env, path, {}) == None)
  {
    hide Expand, ExpandPatterns, ExpandPaths, Fields;
    var patterns := Fields(d.value);
    var paths := AllMatches(env, path, patterns);
    IncludeAt(env, path, before, d, after);
    if PlainFiles(env, paths, {path}) {
      PatternsRead(env, path, patterns, {path});
      assert before + (LinesOf(env, paths) + after) == before + LinesOf(env, paths) + after;
    }
    if |paths| == 1 {
      OnePathRead(env, path, patterns, {path}, paths[0]);
      OnePath(env, paths[0], {path});
      assert before + ([] + after) == before + after;
      assert paths == [paths[0]];
    }
  }

  lemma OnePath(env: Env, path: Path, active: set<Path>)
    ensures path in active ==> ExpandPaths(env, [path], active) == Some([])
    ensures path !in active && path !in env.files ==> ExpandPaths(env, [path], active) == None
  {
    assert [path][1..] == [];
    assert ExpandPaths(env, [], active) == Some([]);
    BothNothing(Expand(env, path, active));
  }

  /** Patterns that stand for one file in all. */
  lemma {:induction false} OnePathRead(env: Env, path: Path, patterns: seq<string>, active: set<Path>, one: Path)
    requires AllMatches(env, path, patterns) == [one]
    ensures ExpandPatterns(env, path, patterns, active) == ExpandPaths(env, [one], active)
    decreases |patterns|
  {
    var first, rest := Matches(env, path, patterns[0]), AllMatches(env, path, patterns[1..]);
    assert first + rest == [one];
    if first == [] {
      assert rest == [one];
      OnePathRead(env, path, patterns[1..], active, one);
      BothNothing(ExpandPaths(env, [one], active));
    } else {
      assert |first| == 1 && first[0] == (first + rest)[0];
      assert first == [one] && rest == [];
      PatternsRead(env, path, patterns[1..], active);
      BothNothing(ExpandPaths(env, [one], active));
    }
  }

  lemma BothNothing(a: Option<seq<Directive>>)
    ensures Both(Some([]), a) == a && Both(a, Some([])) == a
  {
    if a.Some? {
      assert [] + a.value == a.value && a.value + [] == a.value;
    }
  }

  lemma BothThree(a: Option<seq<Directive>>, b: Option<seq<Directive>>, c: Option<seq<Directive>>)
    ensures Both(a, Both(b, c)) == Both(Both(a, b), c)
  {
    if a.Some? && b.Some? && c.Some? {
      assert a.value + (b.value + c.value) == a.value + b.value + c.value;
    }
  }

  // ----- what a directive does to the blocks

  datatype Parsed = Parsed(blocks: seq<Block>, current: Option<Block>)

  function Flushed(s: Parsed): Parsed {
    if s.current.Some? then Parsed(s.blocks + [s.current.value], None) else s
  }

  function Current(s: Parsed): Block {
    if s.current.Some? then s.current.value else NewBlock(["*"])
  }

  predicate Setting(key: string) {
    key == "hostname" || key == "user" || key == "port" || key == "identityfile" || key == "proxyjump"
  }

  /** A setting fills the field that is still empty. */
  function Fill(env: Env, b: Block, d: Directive): Block {
    if d.key == "hostname" then (if b.hostName == "" then b.(hostName := d.value) else b)
    else if d.key == "user" then (if b.user == "" then b.(user := d.value) else b)
    else if d.key == "port" then
      (if b.port == 0 && ParseInt(d.value).Some? then b.(port := ParseInt(d.value).value) else b)
    else if d.key == "identityfile" then (if b.identity == "" then b.(identity := ExpandHome(env, d.value)) else b)
    else if d.key == "proxyjump" then (if b.proxyJump == "" then b.(proxyJump := d.value) else b)
    else b
  }

  function Apply(env: Env, s: Parsed, d: Directive): Parsed {
    if d.key == "host" then Flushed(s).(current := Some(NewBlock(Fields(d.value))))
    else if Setting(d.key) then s.(current := Some(Fill(env, Current(s), d)))
    else s
  }

  function ApplyAll(env: Env, s: Parsed, ds: seq<Directive>): Parsed
    decreases |ds|
  {
    if ds == [] then s else ApplyAll(env, Apply(env, s, ds[0]), ds[1..])
  }

  lemma {:induction false} ApplyBoth(env: Env, s: Parsed, a: seq<Directive>, b: seq<Directive>)
    ensures ApplyAll(env, s, a + b) == ApplyAll(env, ApplyAll(env, s, a), b)
    decreases |a|
  {
    hide Apply;
    if a == [] {
      assert a + b == b;
    } else {
      assert (a + b)[0] == a[0] && (a + b)[1..] == a[1..] + b;
      ApplyBoth(env, Apply(env, s, a[0]), a[1..], b);
    }
  }

  /** The result of reading what first and then rest stand for. */
  ghost predicate Read(env: Env, before: Parsed, ok: bool, after: Parsed, stream: Option<seq<Directive>>) {
    && (ok <==> stream.Some?)
    && (ok ==> after == ApplyAll(env, before, stream.value))
  }

  lemma ReadBoth(env: Env, s: Parsed, t: Parsed, u: Parsed, a: Option<seq<Directive>>, b: Option<seq<Directive>>, ok: bool)
    requires Read(env, s, true, t, a) && Read(env, t, ok, u, b)
    ensures Read(env, s, ok, u, Both(a, b))
  {
    if ok {
      ApplyBoth(env, s, a.value, b.value);
    }
  }

  // ----- the parser

  class Parser {
    var blocks: seq<Block>
    var current: Option<Block>
    var active: set<Path>

    function State(): Parsed
      reads this`blocks, this`current
    {
      Parsed(blocks, current)
    }

    constructor ()
      ensures blocks == [] && current == None && active == {}
    {
      blocks, current, active := [], None, {};
    }

    /** flush */
    method Flush()
      modifies this`blocks, this`current
      ensures State() == Flushed(old(State()))
    {
      if current.Some? {
        blocks := blocks + [current.value];
        current := None;
      }
    }

    /** ensureCurrent */
    method EnsureCurrent()
      modifies this`current
      ensures current == Some(Current(old(State()))) && blocks == old(blocks)
    {
      if current.None? {
        current := Some(NewBlock(["*"]));
      }
    }

    /** The cases of the switch in parseFile other than include. */
    method ApplyLine(env: Env, d: Directive)
      modifies this`blocks, this`current
      ensures State() == Apply(env, old(State()), d)
    {
      match d.key {
        case "host" =>
          Flush();
          current := Some(NewBlock(Fields(d.value)));
        case "hostname" =>
          EnsureCurrent();
          if current.value.hostName == "" {
            current := Some(current.value.(hostName := d.value));
          }
        case "user" =>
          EnsureCurrent();
          if current.value.user == "" {
            current := Some(current.value.(user := d.value));
          }
        case "port" =>
          EnsureCurrent();
          if current.value.port == 0 {
            var port := ParseInt(d.value);
            if port.Some? {
              current := Some(current.value.(port := port.value));
            }
          }
        case "identityfile" =>
          EnsureCurrent();
          if current.value.identity == "" {
            current := Some(current.value.(identity := ExpandHome(env, d.value)));
          }
        case "proxyjump" =>
          EnsureCurrent();
          if current.value.proxyJump == "" {
            current := Some(current.value.(proxyJump := d.value));
          }
        case _ =>
      }
    }

    /** parseFile: it reads the directives of the file with every include expanded, in that order, and it ends however the
        files include each other, because the files that are being read only grow. */
    method ParseFile(env: Env, path: Path) returns (ok: bool)
      modifies this
      ensures active == old(active)
      ensures Read(env, old(State()), ok, State(), Expand(env, path, active))
      decreases |env.files.Keys - active|, 3, 0
    {
      if path in active {
        return true;
      }
      active := active + {path};
      if path !in env.files {
        active := active - {path};
        return false;
      }
      FewerLeft(env.files.Keys, old(active), path);
      ok := ParseLines(env, path, env.files[path]);
      active := active - {path};
      assert active == old(active);
    }

    /** The loop over the lines of a file. */
    method ParseLines(env: Env, path: Path, lines: seq<Directive>) returns (ok: bool)
      modifies this
      ensures active == old(active)
      ensures Read(env, old(State()), ok, State(), ExpandLines(env, path, lines, active))
      decreases |env.files.Keys - active|, 6, |lines|
    {
      hide Apply;
      if lines == [] {
        return true;
      }
      if lines[0].key == "include" {
        ok := ParsePatterns(env, path, Fields(lines[0].value));
        if !ok {
          return false;
        }
      } else {
        ApplyLine(env, lines[0]);
        OneRead(env, old(State()), lines[0]);
      }
      ghost var mid := State();
      ok := ParseLines(env, path, lines[1..]);
      ReadBoth(env, old(State()), mid, State(),
               if lines[0].key == "include" then ExpandPatterns(env, path, Fields(lines[0].value), active)
               else Some([lines[0]]),
               ExpandLines(env, path, lines[1..], active), ok);
    }

    /** The loop over the patterns of an include. */
    method ParsePatterns(env: Env, path: Path, patterns: seq<string>) returns (ok: bool)
      modifies this
      ensures active == old(active)
      ensures Read(env, old(State()), ok, State(), ExpandPatterns(env, path, patterns, active))
      decreases |env.files.Keys - active|, 5, |patterns|
    {
      if patterns == [] {
        return true;
      }
      ok := ParsePaths(env, Matches(env, path, patterns[0]));
      if !ok {
        return false;
      }
      ghost var mid := State();
      ok := ParsePatterns(env, path, patterns[1..]);
      ReadBoth(env, old(State()), mid, State(), ExpandPaths(env, Matches(env, path, patterns[0]), active),
               ExpandPatterns(env, path, patterns[1..], active), ok);
    }

    /** The loop over the files that a pattern stands for. */
    method ParsePaths(env: Env, paths: seq<Path>) returns (ok: bool)
      modifies this
      ensures active == old(active)
      ensures Read(env, old(State()), ok, State(), ExpandPaths(env, paths, active))
      decreases |env.files.Keys - active|, 4, |paths|
    {
      if paths == [] {
        return true;
      }
      ok := ParseFile(env, paths[0]);
      if !ok {
        return false;
      }
      ghost var mid := State();
      ok := ParsePaths(env, paths[1..]);
      ReadBoth(env, old(State()), mid, State(), Expand(env, paths[0], active), ExpandPaths(env, paths[1..], active), ok);
    }
  }

  lemma OneRead(env: Env, s: Parsed, d: Directive)
    ensures Read(env, s, true, Apply(env, s, d), Some([d]))
  {
    assert [d][1..] == [];
  }

  /** The blocks of a stream of directives. */
  function BlocksOf(env: Env, stream: seq<Directive>): seq<Block> {
    Flushed(ApplyAll(env, Parsed([], None), stream)).blocks
  }

  /** parseSSHConfig */
  method ParseConfig(env: Env, path: Path) returns (r: Option<seq<Block>>)
    ensures r.Some? <==> Expand(env, path, {}).Some?
    ensures r.Some? ==> r.value == BlocksOf(env, Expand(env, path, {}).value)
  {
    var parser := new Parser();
    var ok := parser.ParseFile(env, path);
    if !ok {
      return None;
    }
    parser.Flush();
    return Some(parser.blocks);
  }

  // ----- looking up a host

  /** A pattern and the name, both in lower case, without the mark of a negated pattern. */
  predicate Matched(env: Env, name: string, pattern: string) {
    var p := Lower(env, pattern);
    (if p != "" && p[0] == '!' then p[1..] else p, Lower(env, name)) in env.matching
  }

  predicate Negated(pattern: string) {
    pattern != "" && pattern[0] == '!'
  }

  /** Some pattern matches, and no negated one does. */
  predicate HostMatches(env: Env, name: string, patterns: seq<string>) {
    && (exists i :: 0 <= i < |patterns| && Matched(env, name, patterns[i]) && !Negated(patterns[i]))
    && (forall i :: 0 <= i < |patterns| && Matched(env, name, patterns[i]) ==> !Negated(patterns[i]))
  }

  /** hostBlockMatches: the order of the patterns does not matter. */
  method HostBlockMatches(env: Env, name: string, patterns: seq<string>) returns (matched: bool)
    ensures matched <==> HostMatches(env, name, patterns)
  {
    hide Matched;
    matched := false;
    for i := 0 to |patterns|
      invariant matched <==> exists k :: 0 <= k < i && Matched(env, name, patterns[k])
      invariant forall k :: 0 <= k < i && Matched(env, name, patterns[k]) ==> !Negated(patterns[k])
    {
      if !Matched(env, name, patterns[i]) {
        continue;
      }
      if Negated(patterns[i]) {
        return false;
      }
      matched := true;
    }
  }

  /** The fields of b where r has none. */
  function Merge(r: Block, b: Block): Block {
    Block(r.aliases,
          if r.hostName == "" then b.hostName else r.hostName,
          if r.user == "" then b.user else r.user,
          if r.port == 0 then b.port else r.port,
          if r.identity == "" then b.identity else r.identity,
          if r.proxyJump == "" then b.proxyJump else r.proxyJump)
  }

  function Resolved(env: Env, name: string, blocks: seq<Block>): Block {
    if blocks == [] then NewBlock([]) else
      var before := Resolved(env, name, blocks[..|blocks| - 1]);
      var last := blocks[|blocks| - 1];
      if HostMatches(env, name, last.aliases) then Merge(before, last) else before
  }

  /** resolveSSHConfig */
  method ResolveConfig(env: Env, name: string, blocks: seq<Block>) returns (r: Block)
    ensures r == Resolved(env, name, blocks)
  {
    hide HostMatches;
    r := NewBlock([]);
    for i := 0 to |blocks|
      invariant r == Resolved(env, name, blocks[..i])
    {
      assert blocks[..i + 1][..i] == blocks[..i];
      var matches := HostBlockMatches(env, name, blocks[i].aliases);
      if !matches {
        continue;
      }
      if r.hostName == "" { r := r.(hostName := blocks[i].hostName); }
      if r.user == "" { r := r.(user := blocks[i].user); }
      if r.port == 0 { r := r.(port := blocks[i].port); }
      if r.identity == "" { r := r.(identity := blocks[i].identity); }
      if r.proxyJump == "" { r := r.(proxyJump := blocks[i].proxyJump); }
    }
    assert blocks[..|blocks|] == blocks;
  }

  // ----- what the lookup means

  /** One pass over a stream: whether the current Host patterns match, and the first value of every setting that applied. */
  datatype Pass = Pass(applies: bool, first: Block)

  function PassOver(env: Env, name: string, stream: seq<Directive>): Pass {
    if stream == [] then Pass(HostMatches(env, name, ["*"]), NewBlock([])) else
      var before := PassOver(env, name, stream[..|stream| - 1]);
      var d := stream[|stream| - 1];
      if d.key == "host" then before.(applies := HostMatches(env, name, Fields(d.value)))
      else if before.applies then before.(first := Fill(env, before.first, d))
      else before
  }

  lemma ApplyLast(env: Env, s: Parsed, ds: seq<Directive>)
    requires ds != []
    ensures ApplyAll(env, s, ds) == Apply(env, ApplyAll(env, s, ds[..|ds| - 1]), ds[|ds| - 1])
  {
    var before, last := ds[..|ds| - 1], ds[|ds| - 1];
    assert ds == before + [last];
    ApplyBoth(env, s, before, [last]);
    assert [last][1..] == [];
  }

  lemma ResolvedLast(env: Env, name: string, blocks: seq<Block>, b: Block)
    ensures Resolved(env, name, blocks + [b])
         == if HostMatches(env, name, b.aliases) then Merge(Resolved(env, name, blocks), b) else Resolved(env, name, blocks)
  {
    assert (blocks + [b])[..|blocks|] == blocks;
  }

  lemma NewBlockAddsNothing(r: Block, aliases: seq<string>)
    ensures Merge(r, NewBlock(aliases)) == r
  {
  }

  /** Filling a block and merging it is filling what it is merged into. */
  lemma FillMerges(env: Env, r: Block, b: Block, d: Directive)
    ensures Merge(r, Fill(env, b, d)) == Fill(env, Merge(r, b), d) && Fill(env, b, d).aliases == b.aliases
  {
  }

  /** What the blocks of a stream and one pass over it have in common. */
  ghost predicate Agree(env: Env, name: string, s: Parsed, p: Pass) {
    && p.first == Resolved(env, name, Flushed(s).blocks)
    && p.applies == HostMatches(env, name, Current(s).aliases)
    && (s.current.None? ==> s.blocks == [])
  }

  lemma StepAgrees(env: Env, name: string, s: Parsed, p: Pass, d: Directive)
    requires Agree(env, name, s, p)
    ensures Agree(env, name, Apply(env, s, d),
                  if d.key == "host" then p.(applies := HostMatches(env, name, Fields(d.value)))
                  else if p.applies then p.(first := Fill(env, p.first, d))
                  else p)
  {
    hide HostMatches, Merge, Resolved, Fill;
    var s2 := Apply(env, s, d);
    ResolvedLast(env, name, s.blocks, Current(s));
    NoBlocks(env, name);
    if d.key == "host" {
      ResolvedLast(env, name, Flushed(s).blocks, NewBlock(Fields(d.value)));
      NewBlockAddsNothing(Resolved(env, name, Flushed(s).blocks), Fields(d.value));
    } else if Setting(d.key) {
      ResolvedLast(env, name, s.blocks, Fill(env, Current(s), d));
      FillMerges(env, Resolved(env, name, s.blocks), Current(s), d);
      NewBlockAddsNothing(Resolved(env, name, s.blocks), ["*"]);
    } else {
      OtherKeys(env, p.first, d);
    }
  }

  lemma NoBlocks(env: Env, name: string)
    ensures Resolved(env, name, []) == NewBlock([])
  {
  }

  lemma OtherKeys(env: Env, b: Block, d: Directive)
    requires !Setting(d.key)
    ensures Fill(env, b, d) == b
  {
  }

  lemma {:induction false} PassAgrees(env: Env, name: string, stream: seq<Directive>)
    ensures Agree(env, name, ApplyAll(env, Parsed([], None), stream), PassOver(env, name, stream))
  {
    hide Agree, Apply, Fill, HostMatches;
    if stream == [] {
      BeginAgrees(env, name);
    } else {
      var before, d := stream[..|stream| - 1], stream[|stream| - 1];
      PassAgrees(env, name, before);
      ApplyLast(env, Parsed([], None), stream);
      StepAgrees(env, name, ApplyAll(env, Parsed([], None), before), PassOver(env, name, before), d);
    }
  }

  lemma BeginAgrees(env: Env, name: string)
    ensures Agree(env, name, Parsed([], None), Pass(HostMatches(env, name, ["*"]), NewBlock([])))
  {
  }

  /** Collecting blocks and then looking a host up in them gives the first value of every setting in one pass over the
      include-expanded directives, in which the last Host line before a setting decides whether it applies. */
  lemma LookupIsOnePass(env: Env, name: string, stream: seq<Directive>)
    ensures Resolved(env, name, BlocksOf(env, stream)) == PassOver(env, name, stream).first
  {
    hide PassOver, Resolved, ApplyAll;
    PassAgrees(env, name, stream);
  }

  // ----- what a host gets, field by field

  /** The patterns of the last Host line of a stream; without one, what follows is for every host. */
  function Patterns(stream: seq<Directive>): seq<string> {
    if stream == [] then ["*"]
    else if stream[|stream| - 1].key == "host" then Fields(stream[|stream| - 1].value)
    else Patterns(stream[..|stream| - 1])
  }

  /** The values of a keyword in a stream, in order, from the directives whose Host line matches. */
  function Values(env: Env, name: string, stream: seq<Directive>, key: string): seq<string> {
    if stream == [] then [] else
      var before, d := stream[..|stream| - 1], stream[|stream| - 1];
      Values(env, name, before, key) + if d.key == key && HostMatches(env, name, Patterns(before)) then [d.value] else []
  }

  /** The first of some values that is not the empty one, or the empty one when all are. */
  predicate IsFirst<T(==)>(values: seq<T>, empty: T, r: T) {
    || (r == empty && forall i :: 0 <= i < |values| ==> values[i] == empty)
    || exists i :: 0 <= i < |values| && values[i] == r != empty && forall j :: 0 <= j < i ==> values[j] == empty
  }

  function Ports(values: seq<string>): (ports: seq<int>)
    ensures |ports| == |values|
  {
    seq(|values|, i requires 0 <= i < |values| => if ParseInt(values[i]).Some? then ParseInt(values[i]).value else 0)
  }

  function Expanded(env: Env, values: seq<string>): (paths: seq<string>)
    ensures |paths| == |values|
  {
    seq(|values|, i requires 0 <= i < |values| => ExpandHome(env, values[i]))
  }

  /** Each field of a block is the first value that its own keyword has for the host. */
  predicate FirstValues(env: Env, name: string, stream: seq<Directive>, b: Block) {
    && IsFirst(Values(env, name, stream, "hostname"), "", b.hostName)
    && IsFirst(Values(env, name, stream, "user"), "", b.user)
    && IsFirst(Ports(Values(env, name, stream, "port")), 0, b.port)
    && IsFirst(Expanded(env, Values(env, name, stream, "identityfile")), "", b.identity)
    && IsFirst(Values(env, name, stream, "proxyjump"), "", b.proxyJump)
  }

  lemma FirstNext<T>(values: seq<T>, empty: T, r: T, more: T)
    requires IsFirst(values, empty, r)
    ensures IsFirst(values + [more], empty, if r == empty then more else r)
  {
    var all := values + [more];
    if r == empty {
      assert all[|values|] == more;
    } else {
      var i :| 0 <= i < |values| && values[i] == r && forall j :: 0 <= j < i ==> values[j] == empty;
      assert all[i] == r;
    }
  }

  lemma {:induction false} AppliesByPatterns(env: Env, name: string, stream: seq<Directive>)
    ensures PassOver(env, name, stream).applies == HostMatches(env, name, Patterns(stream))
  {
    hide HostMatches;
    if stream != [] {
      AppliesByPatterns(env, name, stream[..|stream| - 1]);
    }
  }

  /** One pass over the directives gives every field the first value of its keyword among those that apply to the host. */
  lemma {:induction false} PassTakesFirst(env: Env, name: string, stream: seq<Directive>)
    ensures FirstValues(env, name, stream, PassOver(env, name, stream).first)
  {
    if stream == [] {
      NothingFirst(env);
      return;
    }
    var before, d := stream[..|stream| - 1], stream[|stream| - 1];
    assert stream == before + [d];
    PassTakesFirst(env, name, before);
    AppliesByPatterns(env, name, before);
    hide HostMatches, FirstValues, Fill;
    var b := PassOver(env, name, before).first;
    if d.key != "host" && HostMatches(env, name, Patterns(before)) {
      ValuesNext(env, name, before, d, b);
    } else {
      NoValues(env, name, before, d, b);
    }
  }

  lemma NoValues(env: Env, name: string, before: seq<Directive>, d: Directive, b: Block)
    requires FirstValues(env, name, before, b) && (d.key == "host" || !HostMatches(env, name, Patterns(before)))
    ensures FirstValues(env, name, before + [d], b)
  {
    hide HostMatches, IsFirst;
    assert (before + [d])[..|before|] == before;
    forall key | key != "host" ensures Values(env, name, before + [d], key) == Values(env, name, before, key) {
      assert Values(env, name, before, key) + [] == Values(env, name, before, key);
    }
  }

  lemma NothingFirst(env: Env)
    ensures IsFirst<string>([], "", "") && IsFirst(Ports([]), 0, 0) && IsFirst(Expanded(env, []), "", "")
  {
  }

  lemma ValuesNext(env: Env, name: string, before: seq<Directive>, d: Directive, b: Block)
    requires FirstValues(env, name, before, b) && d.key != "host" && HostMatches(env, name, Patterns(before))
    ensures FirstValues(env, name, before + [d], Fill(env, b, d))
  {
    hide HostMatches, IsFirst, Values, Patterns, FirstValues;
    SameValues(env, name, before, b);
    TextNext(env, name, before, d, "hostname", b.hostName);
    TextNext(env, name, before, d, "user", b.user);
    TextNext(env, name, before, d, "proxyjump", b.proxyJump);
    PortNext(env, name, before, d, b.port);
    PathNext(env, name, before, d, b.identity);
    SameValues(env, name, before + [d], Fill(env, b, d));
  }

  lemma SameValues(env: Env, name: string, stream: seq<Directive>, b: Block)
    ensures FirstValues(env, name, stream, b) <==>
            && IsFirst(Values(env, name, stream, "hostname"), "", b.hostName)
            && IsFirst(Values(env, name, stream, "user"), "", b.user)
            && IsFirst(Ports(Values(env, name, stream, "port")), 0, b.port)
            && IsFirst(Expanded(env, Values(env, name, stream, "identityfile")), "", b.identity)
            && IsFirst(Values(env, name, stream, "proxyjump"), "", b.proxyJump)
  {
  }

  lemma ValuesOfNext(env: Env, name: string, before: seq<Directive>, d: Directive, key: string)
    requires HostMatches(env, name, Patterns(before))
    ensures Values(env, name, before + [d], key)
         == if d.key == key then Values(env, name, before, key) + [d.value] else Values(env, name, before, key)
  {
    hide HostMatches;
    assert (before + [d])[..|before|] == before;
    assert Values(env, name, before, key) + [] == Values(env, name, before, key);
  }

  lemma TextNext(env: Env, name: string, before: seq<Directive>, d: Directive, key: string, r: string)
    requires HostMatches(env, name, Patterns(before)) && IsFirst(Values(env, name, before, key), "", r)
    ensures IsFirst(Values(env, name, before + [d], key), "", if d.key == key && r == "" then d.value else r)
  {
    hide HostMatches, IsFirst, Values;
    ValuesOfNext(env, name, before, d, key);
    FirstNext(Values(env, name, before, key), "", r, d.value);
  }

  lemma PortNext(env: Env, name: string, before: seq<Directive>, d: Directive, r: int)
    requires HostMatches(env, name, Patterns(before)) && IsFirst(Ports(Values(env, name, before, "port")), 0, r)
    ensures var port := ParseInt(d.value);
      IsFirst(Ports(Values(env, name, before + [d], "port")), 0,
              if d.key == "port" && r == 0 && port.Some? then port.value else r)
  {
    hide HostMatches, IsFirst, Values;
    ValuesOfNext(env, name, before, d, "port");
    var values := Values(env, name, before, "port");
    var port := if ParseInt(d.value).Some? then ParseInt(d.value).value else 0;
    FirstNext(Ports(values), 0, r, port);
    assert Ports(values + [d.value]) == Ports(values) + [port];
  }

  lemma PathNext(env: Env, name: string, before: seq<Directive>, d: Directive, r: string)
    requires HostMatches(env, name, Patterns(before))
    requires IsFirst(Expanded(env, Values(env, name, before, "identityfile")), "", r)
    ensures IsFirst(Expanded(env, Values(env, name, before + [d], "identityfile")), "",
                    if d.key == "identityfile" && r == "" then ExpandHome(env, d.value) else r)
  {
    hide HostMatches, IsFirst, Values;
    ValuesOfNext(env, name, before, d, "identityfile");
    var values := Values(env, name, before, "identityfile");
    FirstNext(Expanded(env, values), "", r, ExpandHome(env, d.value));
    assert Expanded(env, values + [d.value]) == Expanded(env, values) + [ExpandHome(env, d.value)];
  }

  /** What an import finds for a host in a file: for every field the first value of its keyword among the directives, with
      every include expanded, whose Host line matches. */
  method Import(env: Env, path: Path, name: string) returns (r: Option<Block>)
    ensures r.Some? <==> Expand(env, path, {}).Some?
    ensures r.Some? ==> r.value == PassOver(env, name, Expand(env, path, {}).value).first
    ensures r.Some? ==> FirstValues(env, name, Expand(env, path, {}).value, r.value)
  {
    hide Expand, PassOver, Resolved, BlocksOf, FirstValues;
    var blocks := ParseConfig(env, path);
    if blocks.None? {
      return None;
    }
    LookupIsOnePass(env, name, Expand(env, path, {}).value);
    PassTakesFirst(env, name, Expand(env, path, {}).value);
    var block := ResolveConfig(env, name, blocks.value);
    return Some(block);
  }
}
