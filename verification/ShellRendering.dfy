// Cmd and its shell rendering (src/duct_util.rs).
module ShellRendering {
  import opened Prelude
  import opened RustText
  import opened ShellWords

  predicate NeedsQuoting(c: char) {
    || IsWhitespace(c) || IsOperator(c) || IsDoubleQuoteEscape(c)
    || c == '\'' || c == '!' || c == '*' || c == '?' || c == '[' || c == ']'
    || c == '{' || c == '}' || c == '#' || c == '~'
  }

  predicate IsPlain(s: string) {
    forall c | c in s :: !NeedsQuoting(c)
  }

  // The characters, besides white space, that a text is quoted for.
  const SPECIAL := "|&;<>()$`\\\"'!*?[]{}#~"

  // A text stays as it is exactly if it is not empty and has nothing to be quoted for; it is put
  // between double-quotes exactly if it contains a single-quote, and else between single-quotes.
  lemma QuotingStyle(s: string)
    ensures Escaped(s) == s <==> s != [] && forall c | c in s :: !IsWhitespace(c) && c !in SPECIAL
    ensures Escaped(s) == s || (|Escaped(s)| >= 2 && Escaped(s)[0] == Escaped(s)[|Escaped(s)| - 1])
    ensures Escaped(s) != s ==> Escaped(s)[0] == if '\'' in s then '"' else '\''
    ensures '\'' !in s && Escaped(s) != s ==> Escaped(s) == "'" + s + "'"
  {
    forall c ensures NeedsQuoting(c) <==> IsWhitespace(c) || c in SPECIAL {
      SpecialsNeedQuoting(c);
    }
    if s != [] && IsPlain(s) {
      assert Escaped(s) == s;
    } else if '\'' in s {
      DoubleEscapedIsNotShorter(s);
    }
  }

  lemma SpecialsNeedQuoting(c: char)
    ensures NeedsQuoting(c) <==> IsWhitespace(c) || c in SPECIAL
  {
    var special :=
      ['|', '&', ';', '<', '>', '(', ')', '$', '`', '\\', '"', '\'', '!', '*', '?', '[', ']', '{', '}', '#', '~'];
    assert SPECIAL == special;
  }

  lemma DoubleEscapedIsNotShorter(s: string)
    ensures |DoubleEscaped(s)| >= |s|
  {
  }

  // What write_shell_escaped leaves between double-quotes for a text.
  function DoubleEscaped(s: string): string {
    if s == [] then []
    else (if IsDoubleQuoteEscape(s[0]) then ['\\', s[0]] else [s[0]]) + DoubleEscaped(s[1..])
  }

  function Escaped(s: string): string {
    if s == [] then "''"
    else if IsPlain(s) then s
    else if '\'' !in s then "'" + s + "'"
    else "\"" + DoubleEscaped(s) + "\""
  }

  function EscapedAssignment(kv: (string, string)): string {
    Escaped(kv.0) + "=" + Escaped(kv.1)
  }

  function EnvPrefix(envVars: seq<(string, string)>): string {
    if envVars == [] then []
    else EnvPrefix(envVars[..|envVars| - 1]) + EscapedAssignment(envVars[|envVars| - 1]) + " "
  }

  function ArgSuffix(args: seq<string>): string {
    if args == [] then [] else ArgSuffix(args[..|args| - 1]) + " " + Escaped(args[|args| - 1])
  }

  function DirSuffix(dir: Option<string>): string {
    if dir.Some? then "  # in " + dir.value else []
  }

  function Rendered(envVars: seq<(string, string)>, program: string, args: seq<string>, dir: Option<string>): string {
    EnvPrefix(envVars) + Escaped(program) + ArgSuffix(args) + DirSuffix(dir)
  }

  lemma Append2(s: string, a: string, b: string)
    ensures s + a + b == s + (a + b)
  {
  }

  lemma Append3(s: string, a: string, b: string, c: string)
    ensures s + a + b + c == s + (a + b + c)
  {
  }

  // The formatter a Display implementation writes to.
  class Formatter {
    var buf: string

    constructor ()
      ensures buf == []
    {
      buf := [];
    }

    method WriteStr(s: string)
      modifies this
      ensures buf == old(buf) + s
    {
      buf := buf + s;
    }
  }

  method WriteShellEscaped(f: Formatter, s: string)
    modifies f
    ensures f.buf == old(f.buf) + Escaped(s)
  {
    if s == [] {
      f.WriteStr("''");
      return;
    }
    if IsPlain(s) {
      f.WriteStr(s);
      return;
    }
    ghost var start := f.buf;
    if '\'' !in s {
      f.WriteStr("'");
      f.WriteStr(s);
      f.WriteStr("'");
      Append3(start, "'", s, "'");
      return;
    }
    f.WriteStr("\"");
    WriteDoubleEscaped(f, s);
    f.WriteStr("\"");
    Append3(start, "\"", DoubleEscaped(s), "\"");
  }

  method WriteDoubleEscaped(f: Formatter, s: string)
    modifies f
    ensures f.buf == old(f.buf) + DoubleEscaped(s)
  {
    for i := 0 to |s|
      invariant f.buf == old(f.buf) + DoubleEscaped(s[..i])
    {
      DoubleEscapedSnoc(s[..i], s[i]);
      assert s[..i] + [s[i]] == s[..i + 1];
      Append2(old(f.buf), DoubleEscaped(s[..i]), DoubleEscaped([s[i]]));
      ghost var written := f.buf;
      if IsDoubleQuoteEscape(s[i]) {
        f.WriteStr("\\");
      }
      f.WriteStr([s[i]]);
      assert f.buf == written + DoubleEscaped([s[i]]);
    }
    assert s[..|s|] == s;
  }

  lemma DoubleEscapedSnoc(s: string, c: char)
    ensures DoubleEscaped(s + [c]) == DoubleEscaped(s) + DoubleEscaped([c])
  {
    if s != [] {
      assert (s + [c])[1..] == s[1..] + [c];
    }
  }

  class Cmd {
    var program: string
    var args: seq<string>
    var envVars: seq<(string, string)>
    var dir: Option<string>

    constructor (program: string)
      ensures this.program == program && args == [] && envVars == [] && dir == None
    {
      this.program, args, envVars, dir := program, [], [], None;
    }

    method Arg(arg: string)
      modifies `args
      ensures args == old(args) + [arg]
    {
      args := args + [arg];
    }

    method Args(more: seq<string>)
      modifies `args
      ensures args == old(args) + more
    {
      for i := 0 to |more|
        invariant args == old(args) + more[..i]
      {
        args := args + [more[i]];
      }
    }

    method Env(key: string, value: string)
      modifies `envVars
      ensures envVars == old(envVars) + [(key, value)]
    {
      envVars := envVars + [(key, value)];
    }

    method Dir(path: string)
      modifies `dir
      ensures dir == Some(path)
    {
      dir := Some(path);
    }

    method WriteEnv(f: Formatter)
      modifies f
      ensures f.buf == old(f.buf) + EnvPrefix(envVars)
    {
      for i := 0 to |envVars|
        invariant f.buf == old(f.buf) + EnvPrefix(envVars[..i])
      {
        ghost var written := f.buf;
        var (key, value) := envVars[i];
        WriteShellEscaped(f, key);
        f.WriteStr("=");
        WriteShellEscaped(f, value);
        Append3(written, Escaped(key), "=", Escaped(value));
        f.WriteStr(" ");
        Append3(old(f.buf), EnvPrefix(envVars[..i]), EscapedAssignment(envVars[i]), " ");
        assert envVars[..i + 1][..i] == envVars[..i];
      }
      assert envVars[..|envVars|] == envVars;
    }

    method WriteArgs(f: Formatter)
      modifies f
      ensures f.buf == old(f.buf) + ArgSuffix(args)
    {
      for i := 0 to |args|
        invariant f.buf == old(f.buf) + ArgSuffix(args[..i])
      {
        f.WriteStr(" ");
        WriteShellEscaped(f, args[i]);
        Append3(old(f.buf), ArgSuffix(args[..i]), " ", Escaped(args[i]));
        assert args[..i + 1][..i] == args[..i];
      }
      assert args[..|args|] == args;
    }

    method FmtShell(f: Formatter)
      modifies f
      ensures f.buf == old(f.buf) + Rendered(envVars, program, args, dir)
    {
      WriteEnv(f);
      WriteShellEscaped(f, program);
      WriteArgs(f);
      ghost var command := EnvPrefix(envVars) + Escaped(program) + ArgSuffix(args);
      Append3(old(f.buf), EnvPrefix(envVars), Escaped(program), ArgSuffix(args));
      if dir.Some? {
        f.WriteStr("  # in ");
        f.WriteStr(dir.value);
        Append2(old(f.buf) + command, "  # in ", dir.value);
        Append2(old(f.buf), command, DirSuffix(dir));
      }
    }

    // LogLine: the rendering as one line behind a prompt.
    method FmtLogLine(f: Formatter)
      modifies f
      ensures f.buf == old(f.buf) + "> " + Rendered(envVars, program, args, dir) + "\n"
    {
      f.WriteStr("> ");
      FmtShell(f);
      f.WriteStr("\n");
    }
  }
}
