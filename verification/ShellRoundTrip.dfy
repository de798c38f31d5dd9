// The rendering of a Cmd read back by the POSIX token recognizer.
module ShellRoundTrip {
  import opened Prelude
  import opened ShellWords
  import opened ShellRendering

  function Bares(s: string): (w: seq<Piece>)
    ensures RemoveQuotes(w) == s
  {
    if s == [] then [] else [Bare(s[0])] + Bares(s[1..])
  }

  function Quoteds(s: string): (w: seq<Piece>)
    ensures RemoveQuotes(w) == s
  {
    if s == [] then [] else [Quoted(s[0])] + Quoteds(s[1..])
  }

  // The pieces a text comes back as, according to the quoting chosen for it.
  function Pieces(s: string): (w: seq<Piece>)
    ensures RemoveQuotes(w) == s
  {
    if IsPlain(s) then Bares(s) else Quoteds(s)
  }

  function AssignmentPieces(kv: (string, string)): seq<Piece> {
    Pieces(kv.0) + [Bare('=')] + Pieces(kv.1)
  }

  function WordTokens(words: seq<seq<Piece>>): (tokens: seq<Token>)
    ensures |tokens| == |words|
    ensures forall i | 0 <= i < |words| :: tokens[i] == Word(words[i])
  {
    seq(|words|, i requires 0 <= i < |words| => Word(words[i]))
  }

  function EnvWords(envVars: seq<(string, string)>): seq<seq<Piece>> {
    seq(|envVars|, i requires 0 <= i < |envVars| => AssignmentPieces(envVars[i]))
  }

  function ArgWords(args: seq<string>): seq<seq<Piece>> {
    seq(|args|, i requires 0 <= i < |args| => Pieces(args[i]))
  }

  // The words a command stands for: its assignments, program and arguments, in order.
  function Words(envVars: seq<(string, string)>, program: string, args: seq<string>): seq<string> {
    seq(|envVars|, i requires 0 <= i < |envVars| => envVars[i].0 + "=" + envVars[i].1)
    + [program] + args
  }

  // The outcome is exactly these words, none of them subject to an expansion.
  ghost predicate ReadsAs(o: Outcome, words: seq<string>) {
    && o.Tokens?
    && |o.tokens| == |words|
    && forall i | 0 <= i < |words| ::
         && o.tokens[i].Word?
         && RemoveQuotes(o.tokens[i].pieces) == words[i]
         && ExpansionFree(o.tokens[i].pieces)
  }

  // ---- Quoting styles -------------------------------------------------------------------

  lemma {:induction false} PlainReads(mode: Mode, s: string, rest: string)
    requires IsPlain(s) && s != []
    ensures Unquoted(mode, s + rest) == Unquoted(InWord(Collected(mode) + Bares(s)), rest)
    decreases s
  {
    var next := InWord(Collected(mode) + [Bare(s[0])]);
    assert s[0] in s;
    PlainStep(mode, s[0], s[1..] + rest);
    SplitHead(s, rest);
    if s[1..] == [] {
      assert s[1..] + rest == rest;
      assert Collected(next) + Bares(s[1..]) == Collected(next);
    } else {
      PlainReads(next, s[1..], rest);
    }
    BaresAppend(Collected(mode), s);
  }

  lemma BaresAppend(w: seq<Piece>, s: string)
    requires s != []
    ensures w + [Bare(s[0])] + Bares(s[1..]) == w + Bares(s)
  {
  }

  lemma SplitHead(s: string, rest: string)
    requires s != []
    ensures s + rest == [s[0]] + (s[1..] + rest)
  {
  }

  lemma PlainStep(mode: Mode, c: char, rest: string)
    requires !NeedsQuoting(c)
    ensures !IsBlank(c)
    ensures Unquoted(mode, [c] + rest) == Unquoted(InWord(Collected(mode) + [Bare(c)]), rest)
  {
    assert ([c] + rest)[1..] == rest;
  }

  lemma EqualsSignIsPlain()
    ensures !NeedsQuoting('=')
  {
  }

  lemma BlankStep(mode: Mode, rest: string)
    ensures Unquoted(mode, " " + rest) == Prepend(Delimit(mode), Unquoted(Between, rest))
  {
    assert (" " + rest)[1..] == rest;
  }

  lemma QuoteStep(mode: Mode, rest: string)
    ensures Unquoted(mode, "'" + rest) == SingleQuoted(Collected(mode), rest)
    ensures Unquoted(mode, "\"" + rest) == DoubleQuoted(Collected(mode), rest)
  {
    assert ("'" + rest)[1..] == rest;
    assert ("\"" + rest)[1..] == rest;
  }

  lemma {:induction false} SingleQuotedReads(w: seq<Piece>, s: string, rest: string)
    requires '\'' !in s
    ensures SingleQuoted(w, s + "'" + rest) == Unquoted(InWord(w + Quoteds(s)), rest)
    decreases s
  {
    var text := s + "'" + rest;
    if s == [] {
      assert text[1..] == rest;
      assert w + Quoteds(s) == w;
    } else {
      assert s[0] in s;
      assert text[1..] == s[1..] + "'" + rest;
      SingleQuotedReads(w + [Quoted(s[0])], s[1..], rest);
      assert w + [Quoted(s[0])] + Quoteds(s[1..]) == w + Quoteds(s);
    }
  }

  lemma {:induction false} DoubleQuotedReads(w: seq<Piece>, s: string, rest: string)
    ensures DoubleQuoted(w, DoubleEscaped(s) + "\"" + rest) == Unquoted(InWord(w + Quoteds(s)), rest)
    decreases s
  {
    var text := DoubleEscaped(s) + "\"" + rest;
    if s == [] {
      assert text[1..] == rest;
      assert w + Quoteds(s) == w;
    } else {
      var tail := DoubleEscaped(s[1..]) + "\"" + rest;
      if IsDoubleQuoteEscape(s[0]) {
        assert text == ['\\', s[0]] + tail;
        assert text[2..] == tail;
      } else {
        assert text == [s[0]] + tail;
        assert text[1..] == tail;
      }
      DoubleQuotedReads(w + [Quoted(s[0])], s[1..], rest);
      assert w + [Quoted(s[0])] + Quoteds(s[1..]) == w + Quoteds(s);
    }
  }

  lemma EscapedReads(mode: Mode, s: string, rest: string)
    ensures Unquoted(mode, Escaped(s) + rest) == Unquoted(InWord(Collected(mode) + Pieces(s)), rest)
  {
    var w := Collected(mode);
    if s == [] {
      assert "''" + rest == "'" + ("" + "'" + rest);
      QuoteStep(mode, "" + "'" + rest);
      SingleQuotedReads(w, "", rest);
    } else if IsPlain(s) {
      PlainReads(mode, s, rest);
    } else if '\'' !in s {
      assert "'" + s + "'" + rest == "'" + (s + "'" + rest);
      QuoteStep(mode, s + "'" + rest);
      SingleQuotedReads(w, s, rest);
    } else {
      var body := DoubleEscaped(s);
      assert "\"" + body + "\"" + rest == "\"" + (body + "\"" + rest);
      QuoteStep(mode, body + "\"" + rest);
      DoubleQuotedReads(w, s, rest);
    }
  }

  lemma PiecesAreExpansionFree(s: string)
    ensures ExpansionFree(Pieces(s))
  {
    if IsPlain(s) {
      BareIndex(s);
      forall i | 0 <= i < |s| ensures !StartsExpansion(s[i]) {
        assert s[i] in s;
      }
    } else {
      QuotedIndex(s);
    }
  }

  lemma BareIndex(s: string)
    ensures |Bares(s)| == |s| && forall i | 0 <= i < |s| :: Bares(s)[i] == Bare(s[i])
  {
    if s != [] {
      BareIndex(s[1..]);
    }
  }

  lemma QuotedIndex(s: string)
    ensures |Quoteds(s)| == |s| && forall i | 0 <= i < |s| :: Quoteds(s)[i] == Quoted(s[i])
  {
    if s != [] {
      QuotedIndex(s[1..]);
    }
  }

  lemma {:induction false} RemoveQuotesConcat(a: seq<Piece>, b: seq<Piece>)
    ensures RemoveQuotes(a + b) == RemoveQuotes(a) + RemoveQuotes(b)
  {
    if a == [] {
      assert a + b == b;
    } else {
      assert (a + b)[1..] == a[1..] + b;
      RemoveQuotesConcat(a[1..], b);
    }
  }

  lemma AssignmentPiecesFacts(kv: (string, string))
    ensures RemoveQuotes(AssignmentPieces(kv)) == kv.0 + "=" + kv.1
    ensures ExpansionFree(AssignmentPieces(kv))
  {
    RemoveQuotesConcat(Pieces(kv.0) + [Bare('=')], Pieces(kv.1));
    RemoveQuotesConcat(Pieces(kv.0), [Bare('=')]);
    assert RemoveQuotes([Bare('=')]) == "=";
    PiecesAreExpansionFree(kv.0);
    PiecesAreExpansionFree(kv.1);
  }

  // ---- The parts of a command line ------------------------------------------------------

  lemma AssignmentReads(kv: (string, string), rest: string)
    ensures Unquoted(Between, EscapedAssignment(kv) + " " + rest)
            == Prepend([Word(AssignmentPieces(kv))], Unquoted(Between, rest))
  {
    var key, value := Escaped(kv.0), Escaped(kv.1);
    var k := Pieces(kv.0);
    assert EscapedAssignment(kv) + " " + rest == key + ("=" + (value + (" " + rest)));
    EscapedReads(Between, kv.0, "=" + (value + (" " + rest)));
    assert [] + k == k;
    EqualsSignIsPlain();
    PlainStep(InWord(k), '=', value + (" " + rest));
    EscapedReads(InWord(k + [Bare('=')]), kv.1, " " + rest);
    BlankStep(InWord(AssignmentPieces(kv)), rest);
  }

  lemma PrependTwice(a: seq<Token>, b: seq<Token>, o: Outcome)
    ensures Prepend(a, Prepend(b, o)) == Prepend(a + b, o)
  {
    if o.Tokens? {
      assert a + (b + o.tokens) == a + b + o.tokens;
    }
  }

  lemma Regrouped(a: string, b: string, c: string, d: string)
    ensures a + b + c + d == a + (b + c + d)
  {
  }

  lemma EnvWordsInit(envVars: seq<(string, string)>)
    requires envVars != []
    ensures var n := |envVars| - 1;
            EnvWords(envVars) == EnvWords(envVars[..n]) + [AssignmentPieces(envVars[n])]
  {
  }

  lemma EnvWordsSnoc(envVars: seq<(string, string)>)
    requires envVars != []
    ensures var n := |envVars| - 1;
            WordTokens(EnvWords(envVars)) == WordTokens(EnvWords(envVars[..n])) + [Word(AssignmentPieces(envVars[n]))]
  {
    var n := |envVars| - 1;
    EnvWordsInit(envVars);
    WordTokensSnoc(EnvWords(envVars[..n]), AssignmentPieces(envVars[n]));
  }

  lemma {:induction false} EnvReads(envVars: seq<(string, string)>, rest: string)
    ensures Unquoted(Between, EnvPrefix(envVars) + rest)
            == Prepend(WordTokens(EnvWords(envVars)), Unquoted(Between, rest))
  {
    var o := Unquoted(Between, rest);
    if envVars == [] {
      assert EnvPrefix(envVars) + rest == rest;
    } else {
      var init, last := envVars[..|envVars| - 1], envVars[|envVars| - 1];
      var tail := EscapedAssignment(last) + " " + rest;
      Regrouped(EnvPrefix(init), EscapedAssignment(last), " ", rest);
      assert EnvPrefix(envVars) + rest == EnvPrefix(init) + tail;
      EnvReads(init, tail);
      AssignmentReads(last, rest);
      PrependTwice(WordTokens(EnvWords(init)), [Word(AssignmentPieces(last))], o);
      EnvWordsSnoc(envVars);
    }
  }

  lemma ArgSplit(arg: string, rest: string)
    ensures " " + arg + rest == " " + (arg + rest)
  {
  }

  lemma ArgReads(w: seq<Piece>, arg: string, rest: string)
    ensures Unquoted(InWord(w), " " + Escaped(arg) + rest)
            == Prepend([Word(w)], Unquoted(InWord(Pieces(arg)), rest))
  {
    ArgSplit(Escaped(arg), rest);
    BlankStep(InWord(w), Escaped(arg) + rest);
    EscapedReads(Between, arg, rest);
    assert [] + Pieces(arg) == Pieces(arg);
  }

  // The word in progress when the arguments have been read.
  function LastWord(w: seq<Piece>, args: seq<string>): seq<Piece> {
    if args == [] then w else Pieces(args[|args| - 1])
  }

  // The words delimited while the arguments are read.
  function DoneWords(w: seq<Piece>, args: seq<string>): seq<seq<Piece>> {
    if args == [] then [] else [w] + ArgWords(args[..|args| - 1])
  }

  lemma ArgWordsSnoc(args: seq<string>, arg: string)
    ensures ArgWords(args + [arg]) == ArgWords(args) + [Pieces(arg)]
  {
  }

  lemma DoneWordsSnoc(w: seq<Piece>, args: seq<string>)
    requires args != []
    ensures var init := args[..|args| - 1];
            DoneWords(w, args) == DoneWords(w, init) + [LastWord(w, init)]
  {
    var init := args[..|args| - 1];
    if init != [] {
      assert init == init[..|init| - 1] + [init[|init| - 1]];
      ArgWordsSnoc(init[..|init| - 1], init[|init| - 1]);
    }
  }

  lemma WordTokensSnoc(ws: seq<seq<Piece>>, w: seq<Piece>)
    ensures WordTokens(ws + [w]) == WordTokens(ws) + [Word(w)]
  {
  }

  lemma WordTokensConcat(a: seq<seq<Piece>>, b: seq<seq<Piece>>)
    ensures WordTokens(a + b) == WordTokens(a) + WordTokens(b)
  {
  }

  lemma DoneTokensSnoc(w: seq<Piece>, args: seq<string>)
    requires args != []
    ensures var init := args[..|args| - 1];
            WordTokens(DoneWords(w, args)) == WordTokens(DoneWords(w, init)) + [Word(LastWord(w, init))]
  {
    var init := args[..|args| - 1];
    DoneWordsSnoc(w, args);
    WordTokensSnoc(DoneWords(w, init), LastWord(w, init));
  }

  lemma {:induction false} ArgsRead(w: seq<Piece>, args: seq<string>, rest: string)
    ensures Unquoted(InWord(w), ArgSuffix(args) + rest)
            == Prepend(WordTokens(DoneWords(w, args)), Unquoted(InWord(LastWord(w, args)), rest))
  {
    if args == [] {
      assert ArgSuffix(args) + rest == rest;
    } else {
      var init, last := args[..|args| - 1], args[|args| - 1];
      var o, tail := Unquoted(InWord(Pieces(last)), rest), " " + Escaped(last) + rest;
      Regrouped(ArgSuffix(init), " ", Escaped(last), rest);
      ArgsRead(w, init, tail);
      ArgReads(LastWord(w, init), last, rest);
      PrependTwice(WordTokens(DoneWords(w, init)), [Word(LastWord(w, init))], o);
      DoneTokensSnoc(w, args);
    }
  }

  lemma {:induction false} CommentToEnd(s: string)
    ensures '\n' !in s ==> Comment(s) == Tokens([])
    ensures '\n' in s ==> Comment(s).Tokens? ==> Comment(s).tokens != []
  {
    if s != [] && s[0] != '\n' {
      CommentToEnd(s[1..]);
    }
  }

  function DirTail(dir: string): string {
    " in " + dir
  }

  lemma DirReads(w: seq<Piece>, dir: Option<string>)
    ensures dir.None? ==> Unquoted(InWord(w), DirSuffix(dir)) == Tokens([Word(w)])
    ensures dir.Some? ==>
              Unquoted(InWord(w), DirSuffix(dir)) == Prepend([Word(w)], Comment(DirTail(dir.value)))
  {
    if dir.Some? {
      var text := DirSuffix(dir);
      assert text[1..] == " #" + DirTail(dir.value);
      assert text[1..][1..] == "#" + DirTail(dir.value);
      assert text[1..][1..][1..] == DirTail(dir.value);
      var o := Comment(DirTail(dir.value));
      assert Unquoted(Between, text[1..][1..]) == o;
      assert Unquoted(Between, text[1..]) == Prepend([], o) == o by {
        if o.Tokens? {
          assert [] + o.tokens == o.tokens;
        }
      }
    }
  }

  // ---- The whole line -------------------------------------------------------------------

  function LineWords(envVars: seq<(string, string)>, program: string, args: seq<string>): seq<seq<Piece>> {
    EnvWords(envVars) + ([Pieces(program)] + ArgWords(args))
  }

  function AfterLine(dir: Option<string>): Outcome {
    if dir.Some? then Comment(DirTail(dir.value)) else Tokens([])
  }

  lemma LastWordIsLast(program: string, args: seq<string>)
    ensures var w := Pieces(program);
            WordTokens(DoneWords(w, args)) + [Word(LastWord(w, args))] == WordTokens([w] + ArgWords(args))
  {
    var w := Pieces(program);
    assert DoneWords(w, args) + [LastWord(w, args)] == [w] + ArgWords(args);
    WordTokensSnoc(DoneWords(w, args), LastWord(w, args));
  }

  // The program and its arguments, from the first character of the program on.
  lemma InvocationReads(program: string, args: seq<string>, dir: Option<string>)
    ensures Unquoted(Between, Escaped(program) + (ArgSuffix(args) + DirSuffix(dir)))
            == Prepend(WordTokens([Pieces(program)] + ArgWords(args)), AfterLine(dir))
  {
    var w := Pieces(program);
    var last, done := LastWord(w, args), WordTokens(DoneWords(w, args));
    EscapedReads(Between, program, ArgSuffix(args) + DirSuffix(dir));
    assert [] + w == w;
    ArgsRead(w, args, DirSuffix(dir));
    DirEnds(last, dir);
    PrependTwice(done, [Word(last)], AfterLine(dir));
    LastWordIsLast(program, args);
  }

  lemma DirEnds(w: seq<Piece>, dir: Option<string>)
    ensures Unquoted(InWord(w), DirSuffix(dir)) == Prepend([Word(w)], AfterLine(dir))
  {
    DirReads(w, dir);
    assert [Word(w)] + [] == [Word(w)];
  }

  lemma RenderedSplit(a: string, b: string, c: string, d: string)
    ensures a + b + c + d == a + (b + (c + d))
  {
  }

  lemma LineReads(envVars: seq<(string, string)>, program: string, args: seq<string>, dir: Option<string>)
    ensures Tokenize(Rendered(envVars, program, args, dir))
            == Prepend(WordTokens(LineWords(envVars, program, args)), AfterLine(dir))
  {
    RenderedSplit(EnvPrefix(envVars), Escaped(program), ArgSuffix(args), DirSuffix(dir));
    EnvReads(envVars, Escaped(program) + (ArgSuffix(args) + DirSuffix(dir)));
    InvocationReads(program, args, dir);
    var invocation := [Pieces(program)] + ArgWords(args);
    PrependTwice(WordTokens(EnvWords(envVars)), WordTokens(invocation), AfterLine(dir));
    WordTokensConcat(EnvWords(envVars), invocation);
  }

  lemma LineWordsFacts(envVars: seq<(string, string)>, program: string, args: seq<string>, i: nat)
    requires i < |LineWords(envVars, program, args)|
    ensures |LineWords(envVars, program, args)| == |Words(envVars, program, args)|
    ensures RemoveQuotes(LineWords(envVars, program, args)[i]) == Words(envVars, program, args)[i]
    ensures ExpansionFree(LineWords(envVars, program, args)[i])
  {
    if i < |envVars| {
      AssignmentPiecesFacts(envVars[i]);
    } else if i == |envVars| {
      PiecesAreExpansionFree(program);
    } else {
      PiecesAreExpansionFree(args[i - |envVars| - 1]);
    }
  }

  // The rendering of a command reads back as exactly its words, with nothing left to expand,
  // if and only if its directory contains no newline: a newline would end the comment.
  lemma RenderingRoundTrip(envVars: seq<(string, string)>, program: string, args: seq<string>, dir: Option<string>)
    ensures ReadsAs(Tokenize(Rendered(envVars, program, args, dir)), Words(envVars, program, args))
            <==> (dir.Some? ==> '\n' !in dir.value)
  {
    var tokens, words := WordTokens(LineWords(envVars, program, args)), Words(envVars, program, args);
    LineReads(envVars, program, args, dir);
    LineWordsFacts(envVars, program, args, 0);
    if dir.Some? {
      CommentToEnd(DirTail(dir.value));
      assert '\n' in DirTail(dir.value) <==> '\n' in dir.value by {
        assert DirTail(dir.value)[4..] == dir.value;
      }
    }
    if dir.Some? ==> '\n' !in dir.value {
      assert tokens + [] == tokens;
      forall i | 0 <= i < |words|
        ensures tokens[i].Word? && RemoveQuotes(tokens[i].pieces) == words[i] && ExpansionFree(tokens[i].pieces)
      {
        LineWordsFacts(envVars, program, args, i);
      }
    }
  }

  // Two commands that render alike stand for the same words.
  lemma RenderingIsInjectiveOnWords(
      envVars: seq<(string, string)>, program: string, args: seq<string>, dir: Option<string>,
      envVars': seq<(string, string)>, program': string, args': seq<string>, dir': Option<string>)
    requires dir.Some? ==> '\n' !in dir.value
    requires dir'.Some? ==> '\n' !in dir'.value
    requires Rendered(envVars, program, args, dir) == Rendered(envVars', program', args', dir')
    ensures Words(envVars, program, args) == Words(envVars', program', args')
  {
    RenderingRoundTrip(envVars, program, args, dir);
    RenderingRoundTrip(envVars', program', args', dir');
    var o := Tokenize(Rendered(envVars, program, args, dir));
    var ws, ws' := Words(envVars, program, args), Words(envVars', program', args');
    assert |ws| == |o.tokens| == |ws'|;
    forall i | 0 <= i < |ws| ensures ws[i] == ws'[i] {
      assert ws[i] == RemoveQuotes(o.tokens[i].pieces);
    }
  }
}
