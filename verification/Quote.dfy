/** Shell quoting of setup commands, against the way a POSIX shell reads one word
    (POSIX.1-2017 XCU sections 2.2 and 2.6.2). */
module Quote {
  import opened Optional

  /** Every occurrence of one character replaced. */
  function Replace(s: string, c: char, with: string): string {
    if s == [] then [] else (if s[0] == c then with else [s[0]]) + Replace(s[1..], c, with)
  }

  const HOME: string := "$HOME"

  /** The four replacements of the `$HOME/` branch, one after the other. */
  function Chained(s: string): string {
    Replace(Replace(Replace(Replace(s, '\\', "\\\\"), '"', "\\\""), '$', "\\$"), '`', "\\`")
  }

  function QuoteWord(value: string): string {
    if value == HOME then "\"$HOME\""
    else if HOME + "/" <= value then "\"$HOME/" + Chained(value[6..]) + "\""
    else "'" + Replace(value, '\'', "'\\''") + "'"
  }

  // How a shell reads a word.

  datatype Mode = Unquoted | Single | Double

  predicate NameStart(c: char) {
    'a' <= c <= 'z' || 'A' <= c <= 'Z' || c == '_'
  }

  predicate NameChar(c: char) {
    NameStart(c) || '0' <= c <= '9'
  }

  /** How many leading characters belong to a name: the longest possible name. */
  function NameLength(s: string): (n: nat)
    ensures n <= |s|
  {
    if s == [] || !NameChar(s[0]) then 0 else 1 + NameLength(s[1..])
  }

  function ValueOf(env: map<string, string>, name: string): string {
    if name in env then env[name] else ""
  }

  function Then(prefix: string, rest: Option<string>): Option<string> {
    if rest.None? then None else Some(prefix + rest.value)
  }

  /** What the rest of a word expands to. None when the text is not exactly one word made
      of literal characters, quotes and parameters named in double quotes: an open quote, a
      character that would end the word, or any other expansion. */
  function Expand(mode: Mode, s: string, env: map<string, string>): Option<string>
    decreases |s|
  {
    if s == [] then if mode == Unquoted then Some("") else None
    else
      match mode
      case Single =>
        if s[0] == '\'' then Expand(Unquoted, s[1..], env) else Then([s[0]], Expand(Single, s[1..], env))
      case Unquoted =>
        if s[0] == '\'' then Expand(Single, s[1..], env)
        else if s[0] == '"' then Expand(Double, s[1..], env)
        else if s[0] == '\\' then
          if |s| == 1 then None
          else Then(if s[1] == '\n' then "" else [s[1]], Expand(Unquoted, s[2..], env))
        else if s[0] in " \t\n|&;<>()$`*?[#~=%!{}" then None
        else Then([s[0]], Expand(Unquoted, s[1..], env))
      case Double =>
        if s[0] == '"' then Expand(Unquoted, s[1..], env)
        else if s[0] == '`' then None
        else if s[0] == '\\' && |s| > 1 && s[1] in "$`\"\\\n" then
          Then(if s[1] == '\n' then "" else [s[1]], Expand(Double, s[2..], env))
        else if s[0] == '$' then
          if |s| > 1 && NameStart(s[1]) then
            var n := NameLength(s[1..]);
            Then(ValueOf(env, s[1..1 + n]), Expand(Double, s[1 + n..], env))
          else None
        else Then([s[0]], Expand(Double, s[1..], env))
  }

  // The replacements are one escape, character by character.

  function EscapeChar(c: char): string {
    if c == '\\' || c == '"' || c == '$' || c == '`' then ['\\', c] else [c]
  }

  function Escaped(s: string): string {
    if s == [] then [] else EscapeChar(s[0]) + Escaped(s[1..])
  }

  lemma {:induction false} ReplaceJoins(s: string, t: string, c: char, with: string)
    ensures Replace(s + t, c, with) == Replace(s, c, with) + Replace(t, c, with)
  {
    if s == [] {
      assert s + t == t;
    } else {
      assert (s + t)[1..] == s[1..] + t;
      ReplaceJoins(s[1..], t, c, with);
    }
  }

  lemma {:induction false} ReplaceOne(x: char, c: char, with: string)
    ensures Replace([x], c, with) == if x == c then with else [x]
  {
  }

  lemma {:induction false} ReplaceTwo(x: char, y: char, c: char, with: string)
    requires x != c
    ensures Replace([x, y], c, with) == [x] + if y == c then with else [y]
  {
    ReplaceOne(y, c, with);
    assert [x, y][1..] == [y];
  }

  lemma {:induction false} ChainedOne(x: char)
    ensures Chained([x]) == EscapeChar(x)
  {
    ReplaceOne(x, '\\', "\\\\");
    ReplaceOne(x, '"', "\\\"");
    ReplaceOne(x, '$', "\\$");
    ReplaceOne(x, '`', "\\`");
    if x == '\\' || x == '"' || x == '$' {
      ReplaceTwo('\\', x, '"', "\\\"");
      ReplaceTwo('\\', x, '$', "\\$");
      ReplaceTwo('\\', x, '`', "\\`");
    }
  }

  lemma {:induction false} ChainedIsEscaped(s: string)
    ensures Chained(s) == Escaped(s)
  {
    if s != [] {
      assert s == [s[0]] + s[1..];
      var x, y := [s[0]], s[1..];
      ReplaceJoins(x, y, '\\', "\\\\");
      x, y := Replace(x, '\\', "\\\\"), Replace(y, '\\', "\\\\");
      ReplaceJoins(x, y, '"', "\\\"");
      x, y := Replace(x, '"', "\\\""), Replace(y, '"', "\\\"");
      ReplaceJoins(x, y, '$', "\\$");
      x, y := Replace(x, '$', "\\$"), Replace(y, '$', "\\$");
      ReplaceJoins(x, y, '`', "\\`");
      ChainedOne(s[0]);
      ChainedIsEscaped(s[1..]);
    }
  }

  // What the shell makes of it.

  lemma {:induction false} DoubleInverts(s: string, env: map<string, string>)
    ensures Expand(Double, Escaped(s) + "\"", env) == Some(s)
  {
    if s == [] {
      assert Escaped(s) + "\"" == "\"";
    } else {
      DoubleInverts(s[1..], env);
      var rest := Escaped(s[1..]) + "\"";
      assert Escaped(s) + "\"" == EscapeChar(s[0]) + rest;
      assert (EscapeChar(s[0]) + rest)[|EscapeChar(s[0])|..] == rest;
      assert s == [s[0]] + s[1..];
    }
  }

  lemma {:induction false} QuoteReads(rest: string, env: map<string, string>)
    ensures Expand(Single, "'\\''" + rest, env) == Then("'", Expand(Single, rest, env))
  {
    var s := "'\\''" + rest;
    assert s[1..] == "\\''" + rest;
    assert s[1..][2..] == "'" + rest;
    assert s[1..][2..][1..] == rest;
    assert Expand(Unquoted, s[1..][2..], env) == Expand(Single, rest, env);
  }

  lemma {:induction false} SingleInverts(s: string, env: map<string, string>)
    ensures Expand(Single, Replace(s, '\'', "'\\''") + "'", env) == Some(s)
  {
    if s == [] {
      assert Replace(s, '\'', "'\\''") + "'" == "'";
    } else {
      SingleInverts(s[1..], env);
      var rest := Replace(s[1..], '\'', "'\\''") + "'";
      var word := Replace(s, '\'', "'\\''") + "'";
      assert s == [s[0]] + s[1..];
      if s[0] == '\'' {
        assert word == "'\\''" + rest;
        QuoteReads(rest, env);
      } else {
        assert word == [s[0]] + rest;
      }
    }
  }

  lemma {:induction false} HomeExpands(tail: string, env: map<string, string>)
    requires tail != [] && !NameChar(tail[0])
    ensures Expand(Double, HOME + tail, env) == Then(ValueOf(env, "HOME"), Expand(Double, tail, env))
  {
    var s := HOME + tail;
    assert s[1..] == "HOME" + tail;
    NameIs("HOME", tail);
    assert s[1..5] == "HOME" && s[5..] == tail;
  }

  lemma {:induction false} NameIs(name: string, tail: string)
    requires (forall c :: c in name ==> NameChar(c)) && (tail == [] || !NameChar(tail[0]))
    ensures NameLength(name + tail) == |name|
  {
    if name == [] {
      assert name + tail == tail;
    } else {
      assert (name + tail)[1..] == name[1..] + tail;
      NameIs(name[1..], tail);
    }
  }

  /** The shell reads the quoted text as one word equal to the value, except that a leading
      `$HOME` standing alone or before a slash becomes the home directory. */
  lemma {:induction false} QuoteRoundTrip(value: string, env: map<string, string>)
    ensures Expand(Unquoted, QuoteWord(value), env) ==
              Some(if value == HOME || HOME + "/" <= value then ValueOf(env, "HOME") + value[5..] else value)
  {
    hide Expand, Replace, Chained;
    if value == HOME {
      HomeAlone(env);
      assert ValueOf(env, "HOME") + value[5..] == ValueOf(env, "HOME");
    } else if HOME + "/" <= value {
      HomeThen(value[6..], env);
      assert value[5..] == "/" + value[6..];
    } else {
      SingleInverts(value, env);
      SingleOpens(Replace(value, '\'', "'\\''") + "'", env);
      assert QuoteWord(value) == "'" + (Replace(value, '\'', "'\\''") + "'");
    }
  }

  lemma {:induction false} SingleOpens(s: string, env: map<string, string>)
    ensures Expand(Unquoted, "'" + s, env) == Expand(Single, s, env)
  {
    assert ("'" + s)[1..] == s;
  }

  lemma {:induction false} DoubleOpens(s: string, env: map<string, string>)
    ensures Expand(Unquoted, "\"" + s, env) == Expand(Double, s, env)
  {
  }

  lemma {:induction false} DoubleCloses(env: map<string, string>)
    ensures Expand(Double, "\"", env) == Some("")
  {
  }

  lemma {:induction false} HomeAlone(env: map<string, string>)
    ensures Expand(Unquoted, "\"$HOME\"", env) == Some(ValueOf(env, "HOME"))
  {
    hide Expand;
    HomeExpands("\"", env);
    DoubleCloses(env);
    DoubleOpens(HOME + "\"", env);
    assert "\"" + (HOME + "\"") == "\"$HOME\"";
    assert ValueOf(env, "HOME") + "" == ValueOf(env, "HOME");
  }

  lemma {:induction false} SlashReads(s: string, env: map<string, string>)
    ensures Expand(Double, "/" + s, env) == Then("/", Expand(Double, s, env))
  {
  }

  lemma {:induction false} HomeThen(rest: string, env: map<string, string>)
    ensures Expand(Unquoted, "\"$HOME/" + Chained(rest) + "\"", env) == Some(ValueOf(env, "HOME") + ("/" + rest))
  {
    hide Expand, Escaped, Chained, NameLength;
    var escaped := Escaped(rest) + "\"";
    ChainedIsEscaped(rest);
    DoubleInverts(rest, env);
    SlashReads(escaped, env);
    HomeExpands("/" + escaped, env);
    DoubleOpens(HOME + ("/" + escaped), env);
    assert "\"" + (HOME + ("/" + escaped)) == "\"$HOME/" + Chained(rest) + "\"";
  }
}
