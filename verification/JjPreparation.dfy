// Exact-suffix preparation of a submitted Jujutsu commit on a checked base
// (src/cmd/mq.rs, jj_unique_mutable_stack and test_merge_jj_rebase).
module JjPreparation {
  import opened Prelude
  import opened CommitGraph
  import opened JjReplay

  // The jj commands a preparation runs. One that reads succeeds if it runs and its output is
  // machine output as expected; IntegrateOperation includes updating the workspace.
  datatype Command =
    | ReadCandidateChange
    | ReadBaseAncestry
    | ReadCandidateAncestry
    | ReadSuffix
    | CountOnBase
    | CountInBase
    | ReadBaseChange
    | CountInterval
    | RequireUnintegrated
    | DuplicateInterval
    | RebaseCopies
    | ReadOwned
    | ReadPrepared
    | IntegrateOperation

  // Which commands succeed, and what jj lists and allocates.
  datatype Jj = Jj(
    succeeds: Command -> bool,
    log: set<Commit> -> seq<Commit>,
    duplicate: set<Commit> -> seq<Commit>,
    newChange: Commit -> ChangeId)
  {
    ghost predicate ListsExactly() {
      && (forall s: set<Commit> :: IsLog(log(s), s))
      && (forall s: set<Commit> :: IsParentsFirst(duplicate(s), s))
    }

    predicate ReadsAncestries() {
      succeeds(ReadCandidateChange) && succeeds(ReadBaseAncestry) && succeeds(ReadCandidateAncestry)
    }

    predicate Replays() {
      && succeeds(CountInterval) && succeeds(RequireUnintegrated) && succeeds(DuplicateInterval)
      && succeeds(RebaseCopies) && succeeds(ReadOwned) && succeeds(ReadPrepared) && succeeds(IntegrateOperation)
    }

    // The commands that a submission c to a base b needs after its ancestries were read.
    predicate Completes(b: Commit, c: Commit) {
      && succeeds(ReadSuffix) && succeeds(CountOnBase)
      && (|| b in Ancestors(c)
          || (succeeds(CountInBase) && if c in Ancestors(b) then succeeds(ReadBaseChange) else Replays()))
    }

    // Change IDs of new commits are new.
    ghost predicate AllocatesNewChanges(b: Commit, c: Commit) {
      && (forall x, y | x in Ancestors(c) && y in Ancestors(c) && newChange(x) == newChange(y) :: x == y)
      && (forall x, y | x in Ancestors(c) && y in Ancestors(c) :: newChange(x) != y.change)
      && (forall x, y | x in Ancestors(c) && y in Ancestors(b) :: newChange(x) != y.change)
    }
  }

  datatype MergeError =
    | DifferentRevision(change: ChangeId)
    | NoExactSuffix
    | UnexpectedDuplicates
    | InvalidOutput
    | CommandFailed

  // A change submitted in one revision is in the base in another.
  ghost predicate IsSuperseded(change: ChangeId, b: Commit, c: Commit) {
    exists x, y | x in Ancestors(b) && y in Ancestors(c) :: x.change == change && y.change == change && x != y
  }

  ghost predicate Superseded(b: Commit, c: Commit) {
    exists x, y | x in Ancestors(b) && y in Ancestors(c) :: x.change == y.change && x != y
  }

  // The hash map of the base ancestry: its commits by change ID.
  ghost predicate Groups(groups: map<ChangeId, seq<Commit>>, listing: seq<Commit>) {
    forall change, x ::
      (change in groups && x in groups[change]) <==> (x in listing && x.change == change)
  }

  method GroupByChange(listing: seq<Commit>) returns (groups: map<ChangeId, seq<Commit>>)
    ensures Groups(groups, listing)
  {
    groups := map[];
    for i := 0 to |listing|
      invariant Groups(groups, listing[..i])
    {
      var entry := listing[i];
      var group := if entry.change in groups then groups[entry.change] else [];
      groups := groups[entry.change := group + [entry]];
      assert listing[..i + 1] == listing[..i] + [entry];
    }
    assert listing[..|listing|] == listing;
  }

  // Scans the submitted ancestry against the grouped base ancestry.
  method FindSuperseded(groups: map<ChangeId, seq<Commit>>, ghost baseListing: seq<Commit>, listing: seq<Commit>)
      returns (found: Option<ChangeId>)
    requires Groups(groups, baseListing)
    ensures found.Some? <==>
            exists x, y | x in baseListing && y in listing :: x.change == y.change && x != y
    ensures found.Some? ==>
              exists x, y | x in baseListing && y in listing :: x.change == y.change == found.value && x != y
  {
    for i := 0 to |listing|
      invariant forall x, y | x in baseListing && y in listing[..i] :: x.change == y.change ==> x == y
    {
      var entry := listing[i];
      if entry.change in groups && exists x | x in groups[entry.change] :: x != entry {
        return Some(entry.change);
      }
      assert listing[..i + 1] == listing[..i] + [entry];
      forall x | x in baseListing && x.change == entry.change ensures x == entry {
        assert x in groups[entry.change];
      }
    }
    assert listing[..|listing|] == listing;
    return None;
  }

  method Reversed(listing: seq<Commit>) returns (r: seq<Commit>)
    ensures |r| == |listing|
    ensures forall i | 0 <= i < |r| :: r[i] == listing[|listing| - 1 - i]
  {
    r := seq(|listing|, i requires 0 <= i < |listing| => listing[|listing| - 1 - i]);
  }

  lemma ReversedLists(listing: seq<Commit>, r: seq<Commit>, s: set<Commit>)
    requires Lists(listing, s) && |r| == |listing|
    requires forall i | 0 <= i < |r| :: r[i] == listing[|listing| - 1 - i]
    ensures Lists(r, s)
  {
    forall x ensures x in r <==> x in listing {
      if x in listing {
        var i :| 0 <= i < |listing| && listing[i] == x;
        assert r[|listing| - 1 - i] == x;
      }
    }
  }

  method UniqueMutableStack(jj: Jj, b: Commit, c: Commit) returns (stack: Result<seq<Commit>, MergeError>)
    requires jj.ListsExactly()
    // It fails for a superseded change, or when a command fails before one is found.
    ensures stack.Err? <==> !jj.ReadsAncestries() || Superseded(b, c) || !jj.succeeds(ReadSuffix)
    ensures stack.Err? ==> (stack.error.DifferentRevision? <==> jj.ReadsAncestries() && Superseded(b, c))
    ensures stack.Err? && stack.error.DifferentRevision? ==> IsSuperseded(stack.error.change, b, c)
    ensures stack.Err? && !stack.error.DifferentRevision? ==> stack.error == CommandFailed
    // Otherwise the changes of the exact suffix are all new to the base.
    ensures stack.Ok? ==> forall x, y | x in Ancestors(b) && y in Suffix(c, b) :: x.change != y.change
    // The stack is the whole exact suffix, from a root of it to the candidate.
    ensures stack.Ok? ==> Lists(stack.value, Suffix(c, b))
    ensures stack.Ok? ==> (stack.value == [] <==> Suffix(c, b) == {})
    ensures stack.Ok? && stack.value != [] ==> IsRoot(stack.value[0], Suffix(c, b))
  {
    assert IsLog(jj.log(Ancestors(b)), Ancestors(b));
    assert IsLog(jj.log(Ancestors(c)), Ancestors(c));
    assert IsLog(jj.log(Suffix(c, b)), Suffix(c, b));
    if !jj.succeeds(ReadCandidateChange) || !jj.succeeds(ReadBaseAncestry) {
      return Err(CommandFailed);
    }
    var groups := GroupByChange(jj.log(Ancestors(b)));
    if !jj.succeeds(ReadCandidateAncestry) {
      return Err(CommandFailed);
    }
    var superseded := FindSuperseded(groups, jj.log(Ancestors(b)), jj.log(Ancestors(c)));
    if superseded.Some? {
      return Err(DifferentRevision(superseded.value));
    }
    if !jj.succeeds(ReadSuffix) {
      return Err(CommandFailed);
    }
    var listing := jj.log(Suffix(c, b));
    if listing != [] {
      LastListedIsRoot(listing, c, b);
      assert listing[0] in listing;
    }
    var unique := Reversed(listing);
    ReversedLists(listing, unique, Suffix(c, b));
    return Ok(unique);
  }

  // No submitted commit is lost: each is reachable from the prepared commit as it is, or as a
  // new commit with the same content.
  ghost predicate KeepsSubmission(prepared: Commit, b: Commit, c: Commit) {
    && b in Ancestors(prepared)
    && forall x | x in Suffix(c, b) ::
         exists y | y in Ancestors(prepared) && y !in Ancestors(b) ::
           y == x || (y !in Ancestors(c) && y.content == x.content)
  }

  lemma ReplayKeepsSubmission(p: Replay)
    requires p.Valid()
    ensures KeepsSubmission(p.Prepared(), p.base, p.tip)
  {
    PreparedReachesExactly(p, p.base);
    forall x | x in p.Submitted()
      ensures exists y | y in Ancestors(p.Prepared()) && y !in Ancestors(p.base) ::
                y == x || (y !in Ancestors(p.tip) && y.content == x.content)
    {
      var y := Destination(p, x);
      if x in p.Duplicated() {
        MovedCopiesAreNew(p, x, x);
        MovedChange(p, x);
      }
      PreparedReachesExactly(p, y);
    }
  }

  method TestMergeJjRebase(jj: Jj, b: Commit, c: Commit) returns (prepared: Result<Commit, MergeError>)
    requires jj.ListsExactly() && jj.AllocatesNewChanges(b, c)
    // It fails for a superseded change, or when a command that it needs fails, and never for
    // lack of a suffix or for an unexpected number of duplicates or of their revisions.
    ensures prepared.Err? <==> !jj.ReadsAncestries() || Superseded(b, c) || !jj.Completes(b, c)
    ensures prepared.Err? ==> (prepared.error.DifferentRevision? <==> jj.ReadsAncestries() && Superseded(b, c))
    ensures prepared.Err? && prepared.error.DifferentRevision? ==> IsSuperseded(prepared.error.change, b, c)
    ensures prepared.Err? && !prepared.error.DifferentRevision? ==> prepared.error == CommandFailed
    // A submission on the base is prepared as it is, one already in the base as the base.
    ensures prepared.Ok? && b in Ancestors(c) ==> prepared.value == c
    ensures prepared.Ok? && b !in Ancestors(c) && c in Ancestors(b) ==> prepared.value == b
    // Any other is replayed from a root of the suffix; in every case nothing is lost.
    ensures prepared.Ok? && b !in Ancestors(c) && c !in Ancestors(b) ==>
              exists r | IsRoot(r, Suffix(c, b)) :: prepared.value == Replay(r, c, b, jj.newChange).Prepared()
    ensures prepared.Ok? ==> KeepsSubmission(prepared.value, b, c)
  {
    var stack := UniqueMutableStack(jj, b, c);
    if stack.Err? {
      return Err(stack.error);
    }
    if !jj.succeeds(CountOnBase) {
      return Err(CommandFailed);
    }
    if b in Ancestors(c) {
      return Ok(c);
    }
    if !jj.succeeds(CountInBase) {
      return Err(CommandFailed);
    }
    if c in Ancestors(b) {
      SuffixEmptyIffInBase(b, c);
      if !jj.succeeds(ReadBaseChange) {
        return Err(CommandFailed);
      }
      return Ok(b);
    }
    SuffixEmptyIffInBase(b, c);
    if stack.value == [] {
      return Err(NoExactSuffix);
    }
    prepared := ReplayStack(jj, b, c, stack.value[0]);
  }

  // The replay of a submission from a root of its suffix.
  method ReplayStack(jj: Jj, b: Commit, c: Commit, root: Commit) returns (prepared: Result<Commit, MergeError>)
    requires jj.ListsExactly() && jj.AllocatesNewChanges(b, c) && IsRoot(root, Suffix(c, b))
    ensures prepared == if jj.Replays() then Ok(Replay(root, c, b, jj.newChange).Prepared()) else Err(CommandFailed)
    ensures prepared.Ok? ==> KeepsSubmission(prepared.value, b, c)
  {
    if !jj.succeeds(CountInterval) {
      return Err(CommandFailed);
    }
    var expected := |jj.log(Interval(root, c))|;
    assert IsLog(jj.log(Interval(root, c)), Interval(root, c));
    if !jj.succeeds(RequireUnintegrated) || !jj.succeeds(DuplicateInterval) {
      return Err(CommandFailed);
    }
    var originals := jj.duplicate(Interval(root, c));
    assert IsParentsFirst(originals, Interval(root, c));
    if |originals| != expected {
      return Err(UnexpectedDuplicates);
    }
    ParentsFirstEnds(originals, root, c);
    if !jj.succeeds(RebaseCopies) {
      return Err(CommandFailed);
    }
    // The replay that jj performs, with the first original as root and the last as tip.
    var p := Replay(originals[0], originals[|originals| - 1], b, jj.newChange);
    prepared := FindPrepared(jj, p, expected);
    ReplayKeepsSubmission(p);
    if prepared.Ok? && !jj.succeeds(IntegrateOperation) {
      return Err(CommandFailed);
    }
  }

  // Looks the moved copies up by their change IDs inside the isolated operation, all of them
  // first, and then the tip. Whatever jj lists, any other number of revisions is refused.
  method FindPrepared(jj: Jj, p: Replay, expected: nat) returns (prepared: Result<Commit, MergeError>)
    requires p.Valid()
    ensures jj.ListsExactly() && expected == |p.Duplicated()| && p.root in Ancestors(p.tip) ==>
              prepared == if jj.succeeds(ReadOwned) && jj.succeeds(ReadPrepared) then Ok(p.Prepared())
                          else Err(CommandFailed)
    ensures var tips := jj.log(WithChange(p, p.newChange(p.tip)));
            && (prepared == Err(CommandFailed) <==>
                  !jj.succeeds(ReadOwned) || (|jj.log(Owned(p))| == expected && !jj.succeeds(ReadPrepared)))
            && (prepared.Ok? <==>
                  && jj.succeeds(ReadOwned) && |jj.log(Owned(p))| == expected
                  && jj.succeeds(ReadPrepared) && |tips| == 1)
            && (prepared.Ok? ==> tips == [prepared.value])
            && (prepared.Err? ==> prepared.error == CommandFailed || prepared.error == InvalidOutput)
  {
    OwnedAreTheMoved(p);
    if !jj.succeeds(ReadOwned) {
      return Err(CommandFailed);
    }
    assert jj.ListsExactly() ==> IsLog(jj.log(Owned(p)), Owned(p));
    var owned := jj.log(Owned(p));
    if |owned| != expected {
      return Err(InvalidOutput);
    }
    if !jj.succeeds(ReadPrepared) {
      return Err(CommandFailed);
    }
    var change := p.newChange(p.tip);
    var tips := jj.log(WithChange(p, change));
    if jj.ListsExactly() && p.root in Ancestors(p.tip) {
      ChangeNamesItsCopy(p, p.tip);
      assert IsLog(tips, WithChange(p, change));
    }
    if |tips| != 1 {
      return Err(InvalidOutput);
    }
    assert tips[0] in tips;
    return Ok(tips[0]);
  }

  // Once the candidate is known not to be in the base, there is an exact suffix.
  lemma SuffixEmptyIffInBase(b: Commit, c: Commit)
    ensures Suffix(c, b) == {} <==> c in Ancestors(b)
  {
    assert c in Ancestors(c);
    if c in Ancestors(b) {
      forall x | x in Ancestors(c) ensures x in Ancestors(b) {
        AncestorsTransitive(x, c, b);
      }
    } else {
      assert c in Suffix(c, b);
    }
  }
}
