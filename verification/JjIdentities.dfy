// Full Jujutsu identities in machine output (src/cmd/mq.rs).
module JjIdentities {
  import opened Prelude
  import opened RustText

  type RevisionId = (string, string)

  predicate IsFullChangeId(value: string) {
    |value| == 32 && forall i | 0 <= i < |value| :: 'a' <= value[i] <= 'z'
  }

  predicate IsHexDigit(c: char) {
    '0' <= c <= '9' || 'a' <= c <= 'f' || 'A' <= c <= 'F'
  }

  predicate IsFullCommitId(value: string) {
    |value| == 40 && forall i | 0 <= i < |value| :: IsHexDigit(value[i])
  }

  predicate IsRevisionId(id: RevisionId) {
    IsFullChangeId(id.0) && IsFullCommitId(id.1)
  }

  function ParseLine(line: string): Option<RevisionId> {
    var parts := SplitWhitespace(line);
    if |parts| != 2 || !IsFullChangeId(parts[0]) || !IsFullCommitId(parts[1]) then None
    else Some((parts[0], parts[1]))
  }

  // Collecting stops at the first line that is refused.
  function ParseLines(lines: seq<string>): Option<seq<RevisionId>> {
    if lines == [] then Some([])
    else
      var id := ParseLine(lines[0]);
      if id.None? then None
      else
        var ids := ParseLines(lines[1..]);
        if ids.None? then None else Some([id.value] + ids.value)
  }

  // parse_full_jj_revision_ids; the error carries the refused output.
  function ParseRevisionIds(output: string): Result<seq<RevisionId>, string> {
    var ids := ParseLines(Lines(output));
    if ids.None? then Err(output) else Ok(ids.value)
  }

  // What the template self.change_id() ++ " " ++ self.commit_id() ++ "\n" prints.
  function Print(ids: seq<RevisionId>): string {
    if ids == [] then [] else ids[0].0 + " " + ids[0].1 + "\n" + Print(ids[1..])
  }

  lemma IdsAreWords(id: RevisionId)
    requires IsRevisionId(id)
    ensures IsWord(id.0) && IsWord(id.1)
  {
  }

  // A parsed line holds exactly the two identities, and every such line parses.
  lemma LineParsesIff(line: string, id: RevisionId)
    ensures ParseLine(line) == Some(id) <==> IsRevisionId(id) && HoldsTwo(line, id.0, id.1)
  {
    if IsRevisionId(id) {
      IdsAreWords(id);
      SplitsInTwoIff(line, id.0, id.1);
      if ParseLine(line) == Some(id) {
        var parts := SplitWhitespace(line);
        assert parts == [parts[0], parts[1]];
      }
    }
  }

  lemma {:induction false} LinesParseIff(lines: seq<string>, ids: seq<RevisionId>)
    ensures ParseLines(lines) == Some(ids)
            <==> |ids| == |lines| && forall i | 0 <= i < |lines| :: ParseLine(lines[i]) == Some(ids[i])
    decreases lines
  {
    if lines != [] {
      if ids != [] {
        LinesParseIff(lines[1..], ids[1..]);
        assert ids == [ids[0]] + ids[1..];
        if |ids| == |lines| && forall i | 0 <= i < |lines| :: ParseLine(lines[i]) == Some(ids[i]) {
          forall i | 0 <= i < |lines[1..]| ensures ParseLine(lines[1..][i]) == Some(ids[1..][i]) {
            assert lines[1..][i] == lines[i + 1];
          }
        }
        if ParseLines(lines) == Some(ids) {
          forall i | 0 <= i < |lines| ensures ParseLine(lines[i]) == Some(ids[i]) {
            if i > 0 {
              assert lines[i] == lines[1..][i - 1] && ids[i] == ids[1..][i - 1];
            }
          }
        }
      }
    }
  }

  // Parsing succeeds with a list exactly when each line of the output holds that list's pair
  // of identities and nothing else: blank lines, extra words and abbreviations are refused.
  lemma ParsesExactly(output: string, ids: seq<RevisionId>)
    ensures ParseRevisionIds(output) == Ok(ids)
            <==> && |Lines(output)| == |ids|
                 && forall i | 0 <= i < |ids| ::
                      IsRevisionId(ids[i]) && HoldsTwo(Lines(output)[i], ids[i].0, ids[i].1)
  {
    LinesParseIff(Lines(output), ids);
    if |Lines(output)| == |ids| {
      forall i | 0 <= i < |ids|
        ensures ParseLine(Lines(output)[i]) == Some(ids[i])
                <==> IsRevisionId(ids[i]) && HoldsTwo(Lines(output)[i], ids[i].0, ids[i].1)
      {
        LineParsesIff(Lines(output)[i], ids[i]);
      }
    }
  }

  // Only full identities are read: 32 lower-case letters and 40 hexadecimal digits in either
  // case; any abbreviation is refused, and the error carries the whole output.
  lemma OnlyFullIdentities(change: string, commit: string)
    requires IsWord(change) && IsWord(commit)
    ensures ParseLine(change + " " + commit) == Some((change, commit))
            <==> && |change| == 32 && (forall i | 0 <= i < 32 :: change[i] in "abcdefghijklmnopqrstuvwxyz")
                 && |commit| == 40 && (forall i | 0 <= i < 40 :: commit[i] in "0123456789abcdefABCDEF")
  {
    TwoWordsSplit("", change, " ", commit, "");
    assert "" + change + " " + commit + "" == change + " " + commit;
    assert forall c: char :: 'a' <= c <= 'z' <==> c in "abcdefghijklmnopqrstuvwxyz";
    assert forall c: char :: IsHexDigit(c) <==> c in "0123456789abcdefABCDEF";
  }

  lemma RefusalQuotesTheOutput(output: string, line: string)
    requires line in Lines(output) && ParseLine(line).None?
    ensures ParseRevisionIds(output) == Err(output)
  {
    var i :| 0 <= i < |Lines(output)| && Lines(output)[i] == line;
    var ids := ParseLines(Lines(output));
    if ids.Some? {
      LinesParseIff(Lines(output), ids.value);
    }
  }

  lemma {:induction false} LineEndOfPrinted(line: string, rest: string)
    requires '\n' !in line
    ensures LineEnd(line + "\n" + rest) == |line|
  {
    if line != [] {
      assert line[0] in line;
      assert (line + "\n" + rest)[1..] == line[1..] + "\n" + rest;
      LineEndOfPrinted(line[1..], rest);
    }
  }

  lemma PrintedLine(id: RevisionId, rest: string)
    requires IsRevisionId(id)
    ensures Lines(id.0 + " " + id.1 + "\n" + rest) == [id.0 + " " + id.1] + Lines(rest)
  {
    var line := id.0 + " " + id.1;
    var text := line + "\n" + rest;
    LineEndOfPrinted(line, rest);
    assert text[..|line|] == line && text[|line| + 1..] == rest;
    assert line[|line| - 1] == id.1[39];
  }

  // Printing any list of identities and parsing the text gives the list back.
  lemma {:induction false} PrintParseRoundTrip(ids: seq<RevisionId>)
    requires forall i | 0 <= i < |ids| :: IsRevisionId(ids[i])
    ensures ParseRevisionIds(Print(ids)) == Ok(ids)
  {
    if ids != [] {
      var id := ids[0];
      PrintedLine(id, Print(ids[1..]));
      PrintedLineParses(id);
      PrintParseRoundTrip(ids[1..]);
      assert Lines(Print(ids))[1..] == Lines(Print(ids[1..]));
      assert ids == [id] + ids[1..];
    }
  }

  lemma PrintedLineParses(id: RevisionId)
    requires IsRevisionId(id)
    ensures ParseLine(id.0 + " " + id.1) == Some(id)
  {
    IdsAreWords(id);
    TwoWordsSplit("", id.0, " ", id.1, "");
    assert "" + id.0 + " " + id.1 + "" == id.0 + " " + id.1;
  }
}
