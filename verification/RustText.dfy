// The standard-library text functions that SelfCI reads command output with.
module RustText {
  // char::is_whitespace: the Unicode White_Space property.
  predicate IsWhitespace(c: char) {
    || '\t' <= c <= '\r'
    || c == ' ' || c == '\U{85}' || c == '\U{A0}' || c == '\U{1680}'
    || '\U{2000}' <= c <= '\U{200A}'
    || c == '\U{2028}' || c == '\U{2029}' || c == '\U{202F}' || c == '\U{205F}' || c == '\U{3000}'
  }

  predicate IsBlankText(s: string) {
    forall i | 0 <= i < |s| :: IsWhitespace(s[i])
  }

  predicate IsWord(s: string) {
    s != [] && forall i | 0 <= i < |s| :: !IsWhitespace(s[i])
  }

  function LineEnd(s: string): (n: nat)
    ensures n <= |s| && '\n' !in s[..n] && (n < |s| ==> s[n] == '\n')
  {
    if s == [] || s[0] == '\n' then 0 else 1 + LineEnd(s[1..])
  }

  // A carriage return is stripped only in front of a line feed.
  function StripCarriageReturn(line: string): string {
    if line != [] && line[|line| - 1] == '\r' then line[..|line| - 1] else line
  }

  // str::lines
  function Lines(s: string): seq<string>
    decreases |s|
  {
    if s == [] then []
    else
      var n := LineEnd(s);
      if n == |s| then [s] else [StripCarriageReturn(s[..n])] + Lines(s[n + 1..])
  }

  function Finished(word: string): seq<string> {
    if word == [] then [] else [word]
  }

  // str::split_whitespace, with the word in progress.
  function SplitFrom(word: string, s: string): seq<string>
    decreases |s|
  {
    if s == [] then Finished(word)
    else if IsWhitespace(s[0]) then Finished(word) + SplitFrom([], s[1..])
    else SplitFrom(word + [s[0]], s[1..])
  }

  function SplitWhitespace(s: string): seq<string> {
    SplitFrom([], s)
  }

  lemma {:induction false} SplitSkipsBlank(pad: string, s: string)
    requires IsBlankText(pad)
    ensures SplitFrom([], pad + s) == SplitFrom([], s)
  {
    if pad == [] {
      assert pad + s == s;
    } else {
      assert (pad + s)[1..] == pad[1..] + s;
      SplitSkipsBlank(pad[1..], s);
    }
  }

  lemma {:induction false} SplitCollectsWord(word: string, more: string, s: string)
    requires more == [] || IsWord(more)
    ensures SplitFrom(word, more + s) == SplitFrom(word + more, s)
    decreases more
  {
    if more == [] {
      assert more + s == s && word + more == word;
    } else {
      assert (more + s)[1..] == more[1..] + s;
      SplitCollectsWord(word + [more[0]], more[1..], s);
      assert word + [more[0]] + more[1..] == word + more;
    }
  }

  lemma WordThenBlank(word: string, s: string)
    requires word != [] && (s == [] || IsWhitespace(s[0]))
    ensures SplitFrom(word, s) == [word] + SplitFrom([], s)
  {
    if s != [] {
      assert Finished([]) + SplitFrom([], s[1..]) == SplitFrom([], s[1..]);
    }
  }

  lemma {:induction false} NoWordsMeansBlank(s: string)
    ensures SplitFrom([], s) == [] <==> IsBlankText(s)
  {
    if s != [] {
      if IsWhitespace(s[0]) {
        NoWordsMeansBlank(s[1..]);
        assert Finished([]) + SplitFrom([], s[1..]) == SplitFrom([], s[1..]);
      } else {
        assert [] + [s[0]] == [s[0]];
        WordInProgressIsKept([s[0]], s[1..]);
      }
    }
  }

  lemma {:induction false} WordInProgressIsKept(word: string, s: string)
    requires word != []
    ensures SplitFrom(word, s) != []
    decreases s
  {
    if s != [] && !IsWhitespace(s[0]) {
      WordInProgressIsKept(word + [s[0]], s[1..]);
    }
  }

  // Takes a text apart around its first word.
  lemma {:induction false} FirstWord(s: string) returns (pad: string, word: string, rest: string)
    requires SplitFrom([], s) != []
    ensures s == pad + word + rest
    ensures IsBlankText(pad) && IsWord(word) && (rest == [] || IsWhitespace(rest[0]))
    ensures SplitFrom([], s) == [word] + SplitFrom([], rest)
    decreases s
  {
    if IsWhitespace(s[0]) {
      assert Finished([]) + SplitFrom([], s[1..]) == SplitFrom([], s[1..]);
      pad, word, rest := FirstWord(s[1..]);
      assert s == [s[0]] + s[1..] == [s[0]] + pad + word + rest;
      pad := [s[0]] + pad;
    } else {
      assert [] + [s[0]] == [s[0]];
      assert s == [s[0]] + s[1..];
      word, rest := WordEnd([s[0]], s[1..]);
      pad := [];
      WordThenBlank(word, rest);
    }
  }

  lemma {:induction false} WordEnd(started: string, s: string) returns (word: string, rest: string)
    requires IsWord(started)
    ensures started + s == word + rest
    ensures IsWord(word) && (rest == [] || IsWhitespace(rest[0]))
    ensures SplitFrom(started, s) == SplitFrom(word, rest)
    decreases s
  {
    if s == [] || IsWhitespace(s[0]) {
      word, rest := started, s;
    } else {
      word, rest := WordEnd(started + [s[0]], s[1..]);
      assert started + s == started + [s[0]] + s[1..];
    }
  }

  // A line that consists of the words a and b: blanks around them and between them.
  ghost predicate HoldsTwo(line: string, a: string, b: string) {
    exists pad, gap, tail ::
      && IsBlankText(pad) && IsBlankText(gap) && IsBlankText(tail) && gap != []
      && line == pad + a + gap + b + tail
  }

  lemma SplitsInTwoIff(line: string, a: string, b: string)
    requires IsWord(a) && IsWord(b)
    ensures SplitWhitespace(line) == [a, b] <==> HoldsTwo(line, a, b)
  {
    if SplitWhitespace(line) == [a, b] {
      var pad, first, rest := FirstWord(line);
      assert [a, b] == [first] + SplitFrom([], rest);
      assert first == [a, b][0] && SplitFrom([], rest) == [a, b][1..] == [b];
      var gap, second, tail := FirstWord(rest);
      assert [b] == [second] + SplitFrom([], tail);
      assert second == [b][0] && SplitFrom([], tail) == [b][1..] == [];
      assert IsWhitespace(rest[0]) && !IsWhitespace(second[0]);
      assert (gap + second + tail)[0] == rest[0];
      NoWordsMeansBlank(tail);
      assert line == pad + a + (gap + b + tail) == pad + a + gap + b + tail;
    }
    if pad, gap, tail :|
      && IsBlankText(pad) && IsBlankText(gap) && IsBlankText(tail) && gap != []
      && line == pad + a + gap + b + tail {
      TwoWordsSplit(pad, a, gap, b, tail);
    }
  }

  lemma Regrouped(a: string, b: string, c: string, d: string, e: string)
    ensures a + b + c + d + e == a + (b + (c + (d + e)))
  {
  }

  lemma TwoWordsSplit(pad: string, a: string, gap: string, b: string, tail: string)
    requires IsWord(a) && IsWord(b)
    requires IsBlankText(pad) && IsBlankText(gap) && IsBlankText(tail) && gap != []
    ensures SplitWhitespace(pad + a + gap + b + tail) == [a, b]
  {
    Regrouped(pad, a, gap, b, tail);
    SplitSkipsBlank(pad, a + (gap + (b + tail)));
    SplitCollectsWord([], a, gap + (b + tail));
    assert [] + a == a;
    WordThenBlank(a, gap + (b + tail));
    SplitSkipsBlank(gap, b + tail);
    SplitCollectsWord([], b, tail);
    assert [] + b == b;
    WordThenBlank(b, tail);
    NoWordsMeansBlank(tail);
  }
}
