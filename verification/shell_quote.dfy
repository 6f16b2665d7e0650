/** The remote command line of an argument list, and how a POSIX shell splits it into words again. */
module ShellQuote {
  import opened Text

  const SAFE := "@%_+=:,./-"

  predicate SafeChar(c: char) {
    'a' <= c <= 'z' || 'A' <= c <= 'Z' || '0' <= c <= '9' || c in SAFE
  }

  predicate Safe(arg: string) {
    forall i :: 0 <= i < |arg| ==> SafeChar(arg[i])
  }

  /** isShellSafe */
  method IsShellSafe(arg: string) returns (safe: bool)
    ensures safe <==> Safe(arg)
  {
    for i := 0 to |arg|
      invariant forall k :: 0 <= k < i ==> SafeChar(arg[k])
    {
      if 'a' <= arg[i] <= 'z' || 'A' <= arg[i] <= 'Z' || '0' <= arg[i] <= '9' {
        continue;
      }
      if arg[i] !in SAFE {
        return false;
      }
    }
    return true;
  }

  /** Every single quote becomes: end of quote, a quoted single quote, start of quote. */
  function Escaped(arg: string): string {
    if arg == "" then "" else (if arg[0] == '\'' then "'\"'\"'" else [arg[0]]) + Escaped(arg[1..])
  }

  function Quoted(arg: string): string {
    if arg == "" then "''" else if Safe(arg) then arg else "'" + Escaped(arg) + "'"
  }

  function QuotedAll(argv: seq<string>): (q: seq<string>)
    ensures |q| == |argv|
  {
    seq(|argv|, i requires 0 <= i < |argv| => Quoted(argv[i]))
  }

  /** shellQuote */
  method ShellQuote(arg: string) returns (q: string)
    ensures q == Quoted(arg)
  {
    if arg == "" {
      return "''";
    }
    var safe := IsShellSafe(arg);
    return if safe then arg else "'" + Escaped(arg) + "'";
  }

  /** What CommandString gives: one argument is a command line already, any other number of them is quoted. */
  function CommandLine(argv: seq<string>): string {
    if |argv| == 1 then argv[0] else Join(QuotedAll(argv), " ")
  }

  /** CommandString: when it quotes, a shell splits the command line into the same arguments. */
  method CommandString(argv: seq<string>) returns (line: string)
    ensures line == CommandLine(argv)
    ensures |argv| != 1 ==> Words(line) == Some(argv)
  {
    if |argv| == 1 {
      return argv[0];
    }
    var quoted: seq<string> := [];
    for i := 0 to |argv|
      invariant quoted == QuotedAll(argv)[..i]
    {
      var q := ShellQuote(argv[i]);
      quoted := quoted + [q];
    }
    assert quoted == QuotedAll(argv);
    QuotingRoundTrip(argv);
    return Join(quoted, " ");
  }

  // ----- the words of a command line

  /** Outside of words, in an unquoted part of a word, in single quotes, in double quotes. */
  datatype Mode = Gap | Bare | Single | Double

  /** A character that, unquoted, is an operator, or starts an escape or an expansion of a parameter, a command, a pathname
      or a home directory. */
  predicate Active(c: char) {
    c in "|&;<>()$`\\\n*?[~"
  }

  /** Token recognition and quote removal of sections 2.2.2, 2.2.3 and 2.3 of the Shell Command Language (POSIX.1-2017),
      for command lines without operators, expansions, escapes and comments: None for the others, and for a quote that is
      not closed. The word so far is word. */
  function WordsFrom(s: string, mode: Mode, word: string): Option<seq<string>> {
    if s == "" then
      match mode
      case Gap => Some([])
      case Bare => Some([word])
      case _ => None
    else
      var c, rest := s[0], s[1..];
      match mode
      case Gap =>
        if c == ' ' || c == '\t' then WordsFrom(rest, Gap, "")
        else if c == '\'' then WordsFrom(rest, Single, "")
        else if c == '"' then WordsFrom(rest, Double, "")
        else if Active(c) || c == '#' then None
        else WordsFrom(rest, Bare, [c])
      case Bare =>
        if c == ' ' || c == '\t' then Prepend(word, WordsFrom(rest, Gap, ""))
        else if c == '\'' then WordsFrom(rest, Single, word)
        else if c == '"' then WordsFrom(rest, Double, word)
        else if Active(c) then None
        else WordsFrom(rest, Bare, word + [c])
      case Single =>
        if c == '\'' then WordsFrom(rest, Bare, word) else WordsFrom(rest, Single, word + [c])
      case Double =>
        if c == '"' then WordsFrom(rest, Bare, word)
        else if c in "$`\\" then None
        else WordsFrom(rest, Double, word + [c])
  }

  function Prepend(word: string, words: Option<seq<string>>): Option<seq<string>> {
    if words.Some? then Some([word] + words.value) else None
  }

  function Words(s: string): Option<seq<string>> {
    WordsFrom(s, Gap, "")
  }

  // ----- the round trip

  lemma Ordinary(c: char)
    requires SafeChar(c)
    ensures !Active(c) && c != ' ' && c != '\t' && c != '\'' && c != '"' && c != '#'
  {
  }

  lemma {:induction false} SafeWord(a: string, rest: string, word: string)
    requires Safe(a)
    ensures WordsFrom(a + rest, Bare, word) == WordsFrom(rest, Bare, word + a)
    decreases |a|
  {
    if a == "" {
      assert a + rest == rest && word + a == word;
    } else {
      assert SafeChar(a[0]);
      Ordinary(a[0]);
      hide SafeChar, Active;
      assert (a + rest)[0] == a[0] && (a + rest)[1..] == a[1..] + rest;
      SafeWord(a[1..], rest, word + [a[0]]);
      assert word + [a[0]] + a[1..] == word + a;
    }
  }

  lemma {:induction false} EscapedWord(a: string, rest: string, word: string)
    ensures WordsFrom(Escaped(a) + ("'" + rest), Single, word) == WordsFrom(rest, Bare, word + a)
    decreases |a|
  {
    if a == "" {
      assert Escaped(a) + ("'" + rest) == "'" + rest && ("'" + rest)[1..] == rest && word + a == word;
    } else {
      var after := Escaped(a[1..]) + ("'" + rest);
      EscapedWord(a[1..], rest, word + [a[0]]);
      assert word + [a[0]] + a[1..] == word + a;
      if a[0] == '\'' {
        assert Escaped(a) + ("'" + rest) == "'\"'\"'" + after;
        QuotedQuote(after, word);
      } else {
        assert Escaped(a) + ("'" + rest) == [a[0]] + after;
        assert ([a[0]] + after)[1..] == after;
      }
    }
  }

  /** A single quote within single quotes: out of them, quoted, and in again. */
  lemma QuotedQuote(after: string, word: string)
    ensures WordsFrom("'\"'\"'" + after, Single, word) == WordsFrom(after, Single, word + "'")
  {
    var s0 := "'\"'\"'" + after;
    var s1 := "\"'\"'" + after;
    var s2 := "'\"'" + after;
    var s3 := "\"'" + after;
    var s4 := "'" + after;
    assert s0[1..] == s1 && s1[1..] == s2 && s2[1..] == s3 && s3[1..] == s4 && s4[1..] == after;
    assert WordsFrom(s0, Single, word) == WordsFrom(s1, Bare, word);
    assert WordsFrom(s1, Bare, word) == WordsFrom(s2, Double, word);
    assert WordsFrom(s2, Double, word) == WordsFrom(s3, Double, word + "'");
    assert WordsFrom(s3, Double, word + "'") == WordsFrom(s4, Bare, word + "'");
  }

  /** A quoted argument is one word, up to what follows it. */
  lemma QuotedWord(arg: string, rest: string)
    ensures WordsFrom(Quoted(arg) + rest, Gap, "") == WordsFrom(rest, Bare, arg)
  {
    hide WordsFrom, SafeChar;
    if arg == "" {
      assert Escaped(arg) == "";
      InQuotes("", rest);
      assert "''" == "'" + "" + "'";
    } else if Safe(arg) {
      SafeWordStarts(arg, rest);
    } else {
      InQuotes(arg, rest);
    }
  }

  lemma SafeWordStarts(arg: string, rest: string)
    requires Safe(arg) && arg != ""
    ensures WordsFrom(arg + rest, Gap, "") == WordsFrom(rest, Bare, arg)
  {
    assert SafeChar(arg[0]);
    Ordinary(arg[0]);
    hide SafeChar, Active;
    assert (arg + rest)[0] == arg[0] && (arg + rest)[1..] == arg[1..] + rest;
    SafeWord(arg[1..], rest, [arg[0]]);
    assert [arg[0]] + arg[1..] == arg;
  }

  lemma InQuotes(arg: string, rest: string)
    ensures WordsFrom("'" + Escaped(arg) + "'" + rest, Gap, "") == WordsFrom(rest, Bare, arg)
  {
    var body := Escaped(arg) + ("'" + rest);
    var s := "'" + Escaped(arg) + "'" + rest;
    assert s == "'" + body && s[0] == '\'' && s[1..] == body;
    assert WordsFrom(s, Gap, "") == WordsFrom(body, Single, "");
    EscapedWord(arg, rest, "");
    assert "" + arg == arg;
  }

  lemma {:induction false} JoinedWords(argv: seq<string>)
    ensures Words(Join(QuotedAll(argv), " ")) == Some(argv)
  {
    hide Quoted, WordsFrom;
    NoWords();
    if argv != [] {
      var q := QuotedAll(argv);
      assert q[1..] == QuotedAll(argv[1..]);
      assert argv == [argv[0]] + argv[1..];
      if |argv| == 1 {
        assert Quoted(argv[0]) + "" == Quoted(argv[0]) && argv == [argv[0]];
        assert Join(q, " ") == q[0];
        QuotedWord(argv[0], "");
        LastWord(argv[0]);
      } else {
        var rest := Join(QuotedAll(argv[1..]), " ");
        assert Join(q, " ") == Quoted(argv[0]) + (" " + rest);
        QuotedWord(argv[0], " " + rest);
        NextWord(argv[0], rest);
        JoinedWords(argv[1..]);
      }
    }
  }

  lemma NoWords()
    ensures WordsFrom("", Gap, "") == Some([])
  {
  }

  lemma LastWord(word: string)
    ensures WordsFrom("", Bare, word) == Some([word])
  {
  }

  lemma NextWord(word: string, rest: string)
    ensures WordsFrom(" " + rest, Bare, word) == Prepend(word, WordsFrom(rest, Gap, ""))
  {
    assert (" " + rest)[1..] == rest;
  }

  /** Any arguments but a single one come back when a shell splits the command line. */
  lemma QuotingRoundTrip(argv: seq<string>)
    requires |argv| != 1
    ensures Words(CommandLine(argv)) == Some(argv)
  {
    JoinedWords(argv);
  }

  /** So different argument lists have different command lines, but for single arguments: these are passed on verbatim, and
      collide with every other list that quotes to the same line. */
  lemma CommandLineCollides(a: seq<string>, b: seq<string>)
    requires a != b && |b| != 1
    ensures CommandLine(a) == CommandLine(b) <==> (|a| == 1 && a[0] == CommandLine(b))
  {
    QuotingRoundTrip(b);
    if |a| != 1 {
      QuotingRoundTrip(a);
    }
  }
}
