// Token recognition and quote removal of the Shell Command Language, POSIX.1-2017:
// sections 2.2.1 to 2.2.3 (quoting), 2.3 (token recognition) and 2.6.7 (quote removal).
//
// The recognizer stops with NeedsExpansion at an active '$' or '`', so a successful result
// also says that no parameter, command or arithmetic expansion would take place.
// Each operator character is its own token: longest operators are not assembled.
module ShellWords {
  // A character of a word, with its quoting characters already removed.
  datatype Piece = Bare(c: char) | Quoted(c: char)

  datatype Token = Word(pieces: seq<Piece>) | Newline | Operator(c: char)

  // Outside quotes: between words, or inside one.
  datatype Mode = Between | InWord(word: seq<Piece>)

  datatype Outcome = Tokens(tokens: seq<Token>) | Unterminated | NeedsExpansion

  predicate IsBlank(c: char) {
    c == ' ' || c == '\t'
  }

  predicate IsOperator(c: char) {
    c == '|' || c == '&' || c == ';' || c == '<' || c == '>' || c == '(' || c == ')'
  }

  // Section 2.2.3: what a backslash may escape between double-quotes.
  predicate IsDoubleQuoteEscape(c: char) {
    c == '$' || c == '`' || c == '"' || c == '\\'
  }

  // The pieces collected so far, empty between words.
  function Collected(mode: Mode): seq<Piece> {
    if mode.InWord? then mode.word else []
  }

  // Delimits the word in progress, if there is one.
  function Delimit(mode: Mode): seq<Token> {
    if mode.InWord? then [Word(mode.word)] else []
  }

  function Prepend(tokens: seq<Token>, o: Outcome): Outcome {
    if o.Tokens? then Tokens(tokens + o.tokens) else o
  }

  function Tokenize(s: string): Outcome {
    Unquoted(Between, s)
  }

  // Section 2.3: the rules that apply outside quotes.
  function Unquoted(mode: Mode, s: string): Outcome
    decreases |s|, 1
  {
    if s == [] then Tokens(Delimit(mode))
    else if s[0] == '\\' then
      if |s| == 1 then Unterminated
      else if s[1] == '\n' then Unquoted(mode, s[2..])
      else Unquoted(InWord(Collected(mode) + [Quoted(s[1])]), s[2..])
    else if s[0] == '\'' then SingleQuoted(Collected(mode), s[1..])
    else if s[0] == '"' then DoubleQuoted(Collected(mode), s[1..])
    else if s[0] == '$' || s[0] == '`' then NeedsExpansion
    else if IsBlank(s[0]) then Prepend(Delimit(mode), Unquoted(Between, s[1..]))
    else if s[0] == '\n' then Prepend(Delimit(mode) + [Newline], Unquoted(Between, s[1..]))
    else if IsOperator(s[0]) then Prepend(Delimit(mode) + [Operator(s[0])], Unquoted(Between, s[1..]))
    else if s[0] == '#' && !mode.InWord? then Comment(s[1..])
    else Unquoted(InWord(Collected(mode) + [Bare(s[0])]), s[1..])
  }

  function Comment(s: string): Outcome
    decreases |s|, 0
  {
    if s == [] then Tokens([])
    else if s[0] == '\n' then Prepend([Newline], Unquoted(Between, s[1..]))
    else Comment(s[1..])
  }

  // Section 2.2.2: everything up to the next single-quote is literal.
  function SingleQuoted(w: seq<Piece>, s: string): Outcome
    decreases |s|, 0
  {
    if s == [] then Unterminated
    else if s[0] == '\'' then Unquoted(InWord(w), s[1..])
    else SingleQuoted(w + [Quoted(s[0])], s[1..])
  }

  // Section 2.2.3: '$', '`' and backslash keep their meaning between double-quotes.
  function DoubleQuoted(w: seq<Piece>, s: string): Outcome
    decreases |s|, 0
  {
    if s == [] then Unterminated
    else if s[0] == '"' then Unquoted(InWord(w), s[1..])
    else if s[0] == '$' || s[0] == '`' then NeedsExpansion
    else if s[0] == '\\' && |s| > 1 && IsDoubleQuoteEscape(s[1]) then
      DoubleQuoted(w + [Quoted(s[1])], s[2..])
    else if s[0] == '\\' && |s| > 1 && s[1] == '\n' then DoubleQuoted(w, s[2..])
    else DoubleQuoted(w + [Quoted(s[0])], s[1..])
  }

  function RemoveQuotes(w: seq<Piece>): (text: string)
    ensures |text| == |w|
  {
    if w == [] then [] else [w[0].c] + RemoveQuotes(w[1..])
  }

  // A character that begins an expansion of an unquoted word: tilde expansion (2.6.1),
  // '$' and '`' expansions (2.6.2 to 2.6.4), pathname expansion (2.6.6), and the brace
  // expansion of common shells. The '!' is a reserved word (2.4) where it stands alone; the
  // history expansion of interactive shells, which takes place in double-quotes too, is none
  // of these.
  predicate StartsExpansion(c: char) {
    || c == '~' || c == '$' || c == '`' || c == '*' || c == '?' || c == '['
    || c == '{' || c == '!'
  }

  predicate ExpansionFree(w: seq<Piece>) {
    forall i | 0 <= i < |w| && w[i].Bare? :: !StartsExpansion(w[i].c)
  }
}
