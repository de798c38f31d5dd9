// Duplicating root::c and rebasing the copies onto the checked base
// (src/cmd/mq.rs, test_merge_jj_rebase).
module JjReplay {
  import opened CommitGraph

  // jj duplicate: every commit of d gets a copy under a fresh change ID, attached to the
  // copies of its parents in d and to its other parents as they are.
  function Duplicate(x: Commit, d: set<Commit>, newChange: Commit -> ChangeId): Commit {
    if x in d then
      Commit(newChange(x), x.content,
             seq(|x.parents|, i requires 0 <= i < |x.parents| => Duplicate(x.parents[i], d, newChange)))
    else x
  }

  // jj rebase -s source -d dest: source gets dest as its only parent, its descendants follow
  // and everything else stays. Change IDs are kept.
  function Rebase(x: Commit, source: Commit, dest: Commit): Commit {
    if x == source then Commit(x.change, x.content, [dest])
    else if source in Ancestors(x) then
      Commit(x.change, x.content,
             seq(|x.parents|, i requires 0 <= i < |x.parents| => Rebase(x.parents[i], source, dest)))
    else x
  }

  // One replay: the interval root::tip of submitted commits, moved onto base.
  datatype Replay = Replay(root: Commit, tip: Commit, base: Commit, newChange: Commit -> ChangeId) {
    function Duplicated(): set<Commit> {
      Interval(root, tip)
    }

    function Copy(x: Commit): Commit {
      Duplicate(x, Duplicated(), newChange)
    }

    // What a submitted commit has become when both commands are done.
    function Moved(x: Commit): Commit {
      Rebase(Copy(x), Copy(root), base)
    }

    function Prepared(): Commit {
      Moved(tip)
    }

    function Submitted(): set<Commit> {
      Suffix(tip, base)
    }

    ghost predicate IsFresh() {
      && (forall x, y | x in Duplicated() && y in Duplicated() && newChange(x) == newChange(y) :: x == y)
      && (forall x, y | x in Duplicated() && y in Ancestors(tip) :: newChange(x) != y.change)
      && (forall x, y | x in Duplicated() && y in Ancestors(base) :: newChange(x) != y.change)
    }

    ghost predicate Valid() {
      IsRoot(root, Submitted()) && IsFresh()
    }
  }

  lemma CopyParent(p: Replay, x: Commit, i: nat)
    requires x in p.Duplicated() && i < |x.parents|
    ensures |p.Copy(x).parents| == |x.parents|
    ensures p.Copy(x).parents[i] == p.Copy(x.parents[i])
    ensures p.Copy(x).change == p.newChange(x) && p.Copy(x).content == x.content
  {
  }

  lemma {:induction false} CopyDescendsFromCopiedRoot(p: Replay, x: Commit)
    requires x in p.Duplicated()
    ensures p.Copy(p.root) in Ancestors(p.Copy(x))
    decreases x
  {
    if x != p.root {
      var parent := ParentInInterval(x, p.root, p.tip);
      var i :| 0 <= i < |x.parents| && x.parents[i] == parent;
      CopyDescendsFromCopiedRoot(p, parent);
      CopyParent(p, x, i);
      assert p.Copy(x).parents[i] in p.Copy(x).parents;
    }
  }

  // An original outside the interval is not touched by either command.
  lemma OriginalsStay(p: Replay, y: Commit)
    requires p.Valid() && y in Ancestors(p.tip) && y !in p.Duplicated()
    ensures p.Moved(y) == y
  {
    IntervalWithinSuffix(p.root, p.tip, p.base);
    forall z | z in Ancestors(y) ensures z != p.Copy(p.root) {
      AncestorsTransitive(z, y, p.tip);
      assert p.Copy(p.root).change == p.newChange(p.root);
    }
    assert y in Ancestors(y);
  }

  lemma MovedRoot(p: Replay)
    requires p.Valid()
    ensures p.Moved(p.root) == Commit(p.newChange(p.root), p.root.content, [p.base])
  {
    IntervalWithinSuffix(p.root, p.tip, p.base);
  }

  // Above the root, a moved commit hangs on what its parents became.
  lemma MovedCommit(p: Replay, x: Commit)
    requires p.Valid() && x in p.Duplicated() && x != p.root
    ensures var m := p.Moved(x);
            && m.change == p.newChange(x) && m.content == x.content
            && |m.parents| == |x.parents|
            && forall i | 0 <= i < |x.parents| :: m.parents[i] == p.Moved(x.parents[i])
  {
    IntervalWithinSuffix(p.root, p.tip, p.base);
    CopyDescendsFromCopiedRoot(p, x);
    assert p.Copy(x).change == p.newChange(x) && p.Copy(p.root).change == p.newChange(p.root);
    assert p.Copy(x) != p.Copy(p.root);
    forall i | 0 <= i < |x.parents| ensures p.Moved(x).parents[i] == p.Moved(x.parents[i]) {
      CopyParent(p, x, i);
    }
  }

  lemma ParentInTip(p: Replay, x: Commit, parent: Commit)
    requires x in p.Duplicated() && parent in x.parents
    ensures parent in Ancestors(p.tip)
  {
    assert parent in Ancestors(parent) && parent in Ancestors(x);
    AncestorsTransitive(parent, x, p.tip);
  }

  // Nothing outside the interval descends from a commit of it.
  lemma OutsideStaysOutside(p: Replay, y: Commit, z: Commit)
    requires y in Ancestors(p.tip) && y !in p.Duplicated() && z in Ancestors(y)
    ensures z in Ancestors(p.tip) && z !in p.Duplicated()
  {
    AncestorsTransitive(z, y, p.tip);
    if p.root in Ancestors(z) {
      AncestorsTransitive(p.root, z, y);
    }
  }

  // ---- What the prepared tip reaches ----------------------------------------------------

  lemma {:induction false} ReachesBase(p: Replay, x: Commit)
    requires p.Valid() && x in p.Duplicated()
    ensures p.base in Ancestors(p.Moved(x))
    decreases x
  {
    if x == p.root {
      MovedRoot(p);
      assert p.base in p.Moved(x).parents && p.base in Ancestors(p.base);
    } else {
      var parent := ParentInInterval(x, p.root, p.tip);
      MovedCommit(p, x);
      var i :| 0 <= i < |x.parents| && x.parents[i] == parent;
      ReachesBase(p, parent);
      assert p.Moved(x).parents[i] in p.Moved(x).parents;
    }
  }

  // Where the ancestors of a commit of the interval went.
  function Destination(p: Replay, y: Commit): Commit {
    if y in p.Duplicated() then p.Moved(y) else y
  }

  lemma {:induction false} ReachesEverySubmitted(p: Replay, x: Commit, y: Commit)
    requires p.Valid() && x in p.Duplicated()
    requires y in Ancestors(x) && y in p.Submitted()
    ensures Destination(p, y) in Ancestors(p.Moved(x))
    decreases x
  {
    if x == y {
      assert p.Moved(x) in Ancestors(p.Moved(x));
    } else {
      var parent :| parent in x.parents && y in Ancestors(parent);
      var i :| 0 <= i < |x.parents| && x.parents[i] == parent;
      NotBelowRoot(p, x, parent, y);
      MovedCommit(p, x);
      ParentInTip(p, x, parent);
      assert p.Moved(x).parents[i] in p.Moved(x).parents;
      if parent in p.Duplicated() {
        ReachesEverySubmitted(p, parent, y);
      } else {
        OriginalsStay(p, parent);
        OutsideStaysOutside(p, parent, y);
      }
    }
  }

  // A parent of the root is in the base, with all its ancestors.
  lemma NotBelowRoot(p: Replay, x: Commit, parent: Commit, y: Commit)
    requires p.Valid() && parent in x.parents && y in Ancestors(parent) && y in p.Submitted()
    ensures x != p.root
  {
    if x == p.root {
      RootParentsInBase(p.root, p.tip, p.base, parent);
      AncestorsTransitive(y, parent, p.base);
    }
  }

  // The commits a replay may leave reachable from its result.
  ghost predicate Accounted(p: Replay, z: Commit) {
    || z in Ancestors(p.base)
    || (exists x | x in p.Duplicated() :: z == p.Moved(x))
    || (z in p.Submitted() && z !in p.Duplicated())
  }

  lemma {:induction false} ReachesNothingElse(p: Replay, x: Commit, z: Commit)
    requires p.Valid() && x in p.Duplicated()
    requires z in Ancestors(p.Moved(x))
    ensures Accounted(p, z)
    decreases x
  {
    if z != p.Moved(x) {
      if x == p.root {
        MovedRoot(p);
      } else {
        MovedCommit(p, x);
        var i :| 0 <= i < |x.parents| && z in Ancestors(p.Moved(x).parents[i]);
        var parent := x.parents[i];
        ParentInTip(p, x, parent);
        if parent in p.Duplicated() {
          ReachesNothingElse(p, parent, z);
        } else {
          OriginalsStay(p, parent);
          OutsideStaysOutside(p, parent, z);
        }
      }
    }
  }

  // No submitted commit is dropped, on any history: the prepared tip reaches exactly the
  // whole base, the moved copy of every duplicated commit, and every other submitted commit
  // as the original it was.
  lemma PreparedReachesExactly(p: Replay, z: Commit)
    requires p.Valid()
    ensures p.base in Ancestors(p.Prepared())
    ensures z in Ancestors(p.Prepared()) <==> Accounted(p, z)
  {
    IntervalWithinSuffix(p.root, p.tip, p.base);
    ReachesBase(p, p.tip);
    if z in Ancestors(p.Prepared()) {
      ReachesNothingElse(p, p.tip, z);
    }
    if z in Ancestors(p.base) {
      AncestorsTransitive(z, p.base, p.Prepared());
    }
    if x :| x in p.Duplicated() && z == p.Moved(x) {
      ReachesEverySubmitted(p, p.tip, x);
    }
    if z in p.Submitted() && z !in p.Duplicated() {
      ReachesEverySubmitted(p, p.tip, z);
    }
  }

  // The moved copies are new commits, one for each duplicated one: none is in the base or in
  // the submission, and none is lost to another.
  lemma MovedCopiesAreNew(p: Replay, x: Commit, y: Commit)
    requires p.Valid() && x in p.Duplicated() && y in p.Duplicated()
    ensures p.Moved(x) !in Ancestors(p.base) + Ancestors(p.tip)
    ensures p.Moved(x) == p.Moved(y) ==> x == y
  {
    MovedChange(p, x);
    MovedChange(p, y);
  }

  lemma MovedChange(p: Replay, x: Commit)
    requires p.Valid() && x in p.Duplicated()
    ensures p.Moved(x).change == p.newChange(x) && p.Moved(x).content == x.content
  {
    if x == p.root {
      MovedRoot(p);
    } else {
      MovedCommit(p, x);
    }
  }

  // ---- Finding the moved copies by their change IDs -------------------------------------

  // What is visible inside the isolated operation once the copies have been rebased.
  function Visible(p: Replay): set<Commit> {
    Ancestors(p.base) + Ancestors(p.tip) + Ancestors(p.Prepared())
  }

  function WithChange(p: Replay, change: ChangeId): set<Commit> {
    set z | z in Visible(p) && z.change == change
  }

  function Owned(p: Replay): set<Commit> {
    set x, z | x in p.Duplicated() && z in WithChange(p, p.newChange(x)) :: z
  }

  // A new change ID names exactly the moved copy it was allocated for.
  lemma ChangeNamesItsCopy(p: Replay, x: Commit)
    requires p.Valid() && x in p.Duplicated()
    ensures WithChange(p, p.newChange(x)) == {p.Moved(x)}
  {
    MovedChange(p, x);
    PreparedReachesExactly(p, p.Moved(x));
    forall z | z in WithChange(p, p.newChange(x)) ensures z == p.Moved(x) {
      PreparedReachesExactly(p, z);
      var y :| y in p.Duplicated() && z == p.Moved(y);
      MovedChange(p, y);
    }
  }

  function MovedSet(p: Replay, s: set<Commit>): set<Commit> {
    set x | x in s :: p.Moved(x)
  }

  lemma MovedSetSplit(p: Replay, s: set<Commit>, x: Commit)
    requires x in s
    ensures MovedSet(p, s) == MovedSet(p, s - {x}) + {p.Moved(x)}
  {
    assert s == (s - {x}) + {x};
  }

  lemma {:induction false} MovedSetIsAsLarge(p: Replay, s: set<Commit>)
    requires p.Valid() && s <= p.Duplicated()
    ensures |MovedSet(p, s)| == |s|
    decreases s
  {
    if x :| x in s {
      var rest := s - {x};
      MovedSetIsAsLarge(p, rest);
      forall y | y in rest ensures p.Moved(y) != p.Moved(x) {
        MovedCopiesAreNew(p, x, y);
      }
      MovedSetSplit(p, s, x);
      assert p.Moved(x) !in MovedSet(p, rest);
    }
  }

  // The revisions found under the new change IDs are the moved copies, as many as there are
  // duplicated commits.
  lemma OwnedAreTheMoved(p: Replay)
    requires p.Valid()
    ensures Owned(p) == MovedSet(p, p.Duplicated())
    ensures |Owned(p)| == |p.Duplicated()|
  {
    forall x | x in p.Duplicated() ensures WithChange(p, p.newChange(x)) == {p.Moved(x)} {
      ChangeNamesItsCopy(p, x);
    }
    forall z ensures z in Owned(p) <==> z in MovedSet(p, p.Duplicated()) {
      if x :| x in p.Duplicated() && z == p.Moved(x) {
        assert z in WithChange(p, p.newChange(x));
      }
    }
    MovedSetIsAsLarge(p, p.Duplicated());
  }
}
