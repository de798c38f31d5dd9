// Commits and reachability. A commit names its whole content, parents included, so commits
// are values: two commits are the same exactly when their IDs are, and no commit is its own
// ancestor. Every history is such a value, with any number of merges.
module CommitGraph {
  type ChangeId = string

  datatype Commit = Commit(change: ChangeId, content: string, parents: seq<Commit>)

  // The revset ::c.
  function Ancestors(c: Commit): set<Commit> {
    {c} + set p, a | p in c.parents && a in Ancestors(p) :: a
  }

  // The revset r::c.
  function Interval(r: Commit, c: Commit): set<Commit> {
    set x | x in Ancestors(c) && r in Ancestors(x)
  }

  // The revset ::c ~ ::b.
  function Suffix(c: Commit, b: Commit): set<Commit> {
    Ancestors(c) - Ancestors(b)
  }

  // A set has x as a root when no parent of x is in it.
  predicate IsRoot(x: Commit, s: set<Commit>) {
    x in s && forall p | p in x.parents :: p !in s
  }

  predicate Distinct(listing: seq<Commit>) {
    forall i, j | 0 <= i < j < |listing| :: listing[i] != listing[j]
  }

  ghost predicate Lists(listing: seq<Commit>, s: set<Commit>) {
    && Distinct(listing)
    && |listing| == |s|
    && forall x :: x in listing <==> x in s
  }

  // How jj log lists a revset: no parent comes before one of its children.
  ghost predicate IsLog(listing: seq<Commit>, s: set<Commit>) {
    && Lists(listing, s)
    && forall i, j | 0 <= i < |listing| && 0 <= j < |listing| && listing[j] in listing[i].parents :: i < j
  }

  // How jj duplicate lists a revset: no child comes before one of its parents.
  ghost predicate IsParentsFirst(listing: seq<Commit>, s: set<Commit>) {
    && Lists(listing, s)
    && forall i, j | 0 <= i < |listing| && 0 <= j < |listing| && listing[j] in listing[i].parents :: j < i
  }

  lemma {:induction false} AncestorsTransitive(x: Commit, y: Commit, z: Commit)
    requires x in Ancestors(y) && y in Ancestors(z)
    ensures x in Ancestors(z)
    decreases z
  {
    if y != z {
      var p :| p in z.parents && y in Ancestors(p);
      AncestorsTransitive(x, y, p);
    }
  }

  // Every proper ancestor of c has a child on the way to c.
  lemma {:induction false} ChildTowards(x: Commit, c: Commit) returns (child: Commit)
    requires x in Ancestors(c) && x != c
    ensures child in Ancestors(c) && x in child.parents
    decreases c
  {
    var p :| p in c.parents && x in Ancestors(p);
    if x == p {
      child := c;
    } else {
      child := ChildTowards(x, p);
    }
  }

  // ---- The exact suffix ::c ~ ::b -------------------------------------------------------

  // The last commit that jj log lists of the suffix is a root of it.
  lemma LastListedIsRoot(listing: seq<Commit>, c: Commit, b: Commit)
    requires IsLog(listing, Suffix(c, b)) && listing != []
    ensures IsRoot(listing[|listing| - 1], Suffix(c, b))
  {
    var r := listing[|listing| - 1];
    assert r in listing;
    forall j | 0 <= j < |listing| ensures listing[j] !in r.parents {}
    forall p | p in r.parents ensures p !in Suffix(c, b) {
      assert p !in listing;
    }
  }

  // The parents of a root of the suffix are already in the base.
  lemma RootParentsInBase(r: Commit, c: Commit, b: Commit, p: Commit)
    requires IsRoot(r, Suffix(c, b)) && p in r.parents
    ensures p in Ancestors(b)
  {
    assert p in Ancestors(p);
    AncestorsTransitive(p, r, c);
  }

  // The duplicated interval is a part of the suffix that holds both its ends.
  lemma IntervalWithinSuffix(r: Commit, c: Commit, b: Commit)
    requires r in Suffix(c, b)
    ensures r in Interval(r, c) && c in Interval(r, c)
    ensures Interval(r, c) <= Suffix(c, b)
  {
    forall x | x in Interval(r, c) ensures x !in Ancestors(b) {
      if x in Ancestors(b) {
        AncestorsTransitive(r, x, b);
      }
    }
  }

  // It is the whole suffix exactly when the suffix has no other root.
  lemma IntervalIsSuffixIffSingleRoot(r: Commit, c: Commit, b: Commit)
    requires IsRoot(r, Suffix(c, b))
    ensures Interval(r, c) == Suffix(c, b)
            <==> forall x | IsRoot(x, Suffix(c, b)) :: x == r
  {
    var s := Suffix(c, b);
    IntervalWithinSuffix(r, c, b);
    if forall x | IsRoot(x, s) :: x == r {
      forall x | x in s ensures x in Interval(r, c) {
        DescendsFromSingleRoot(r, x, c, b);
      }
    }
    if Interval(r, c) == s {
      forall x | IsRoot(x, s) ensures x == r {
        if x != r {
          assert r in Ancestors(x);
          var p :| p in x.parents && r in Ancestors(p);
          assert p in Ancestors(p);
          AncestorsTransitive(p, x, c);
          if p in Ancestors(b) {
            AncestorsTransitive(r, p, b);
          }
        }
      }
    }
  }

  lemma {:induction false} DescendsFromSingleRoot(r: Commit, x: Commit, c: Commit, b: Commit)
    requires IsRoot(r, Suffix(c, b)) && x in Suffix(c, b)
    requires forall y | IsRoot(y, Suffix(c, b)) :: y == r
    ensures r in Ancestors(x)
    decreases x
  {
    if !IsRoot(x, Suffix(c, b)) {
      var p :| p in x.parents && p in Suffix(c, b);
      DescendsFromSingleRoot(r, p, c, b);
      assert r in Ancestors(p);
    }
  }

  // A suffix without merge commits has one root, so the interval is all of it.
  lemma LinearSuffixIsInterval(r: Commit, c: Commit, b: Commit)
    requires IsRoot(r, Suffix(c, b))
    requires forall x | x in Suffix(c, b) :: |x.parents| <= 1
    ensures Interval(r, c) == Suffix(c, b)
  {
    forall x | IsRoot(x, Suffix(c, b)) ensures x == r {
      LinearRootsMeet(x, r, c, b);
    }
    IntervalIsSuffixIffSingleRoot(r, c, b);
  }

  lemma {:induction false} LinearRootsMeet(x: Commit, y: Commit, c: Commit, b: Commit)
    requires forall z | z in Suffix(c, b) :: |z.parents| <= 1
    requires IsRoot(x, Suffix(c, b)) && IsRoot(y, Suffix(c, b))
    ensures x == y
    decreases c
  {
    if x == c {
      RootIsOwnDescent(x, y, b);
    } else if y == c {
      RootIsOwnDescent(y, x, b);
    } else {
      var p :| p in c.parents && x in Ancestors(p);
      var q :| q in c.parents && y in Ancestors(q);
      TipInSuffix(x, c, b);
      assert p == q;
      SuffixOfParent(x, p, c, b);
      SuffixOfParent(y, p, c, b);
      LinearRootsMeet(x, y, p, b);
    }
  }

  lemma TipInSuffix(x: Commit, c: Commit, b: Commit)
    requires x in Suffix(c, b)
    ensures c in Suffix(c, b)
  {
    if c in Ancestors(b) {
      AncestorsTransitive(x, c, b);
    }
  }

  lemma SuffixOfParent(x: Commit, p: Commit, c: Commit, b: Commit)
    requires p in c.parents && x in Ancestors(p)
    requires IsRoot(x, Suffix(c, b))
    ensures Suffix(p, b) <= Suffix(c, b)
    ensures IsRoot(x, Suffix(p, b))
  {
    forall z | z in Ancestors(p) ensures z in Ancestors(c) {}
  }

  // A root of its own suffix has no proper ancestor in it.
  lemma RootIsOwnDescent(x: Commit, y: Commit, b: Commit)
    requires IsRoot(x, Suffix(x, b)) && y in Suffix(x, b)
    ensures x == y
  {
    if x != y {
      var p :| p in x.parents && y in Ancestors(p);
      RootParentsInBase(x, x, b, p);
      AncestorsTransitive(y, p, b);
    }
  }

  // Every commit of the interval but its root has a parent in it, and every one but its tip
  // a child.
  lemma ParentInInterval(x: Commit, r: Commit, c: Commit) returns (p: Commit)
    requires x in Interval(r, c) && x != r
    ensures p in x.parents && p in Interval(r, c)
  {
    p :| p in x.parents && r in Ancestors(p);
    assert p in Ancestors(p) && p in Ancestors(x);
    AncestorsTransitive(p, x, c);
  }

  lemma ChildInInterval(x: Commit, r: Commit, c: Commit) returns (child: Commit)
    requires x in Interval(r, c) && x != c
    ensures x in child.parents && child in Interval(r, c)
  {
    child := ChildTowards(x, c);
    assert x in Ancestors(x) && x in Ancestors(child);
    AncestorsTransitive(r, x, child);
  }

  // A parents-first listing of the interval starts at its root and ends at its tip.
  lemma ParentsFirstEnds(listing: seq<Commit>, r: Commit, c: Commit)
    requires r in Ancestors(c)
    requires IsParentsFirst(listing, Interval(r, c))
    ensures listing != [] && listing[0] == r && listing[|listing| - 1] == c
  {
    assert c in Interval(r, c) && c in listing;
    var last := |listing| - 1;
    assert listing[0] in listing && listing[last] in listing;
    forall j | 0 <= j < |listing| ensures listing[j] !in listing[0].parents && listing[last] !in listing[j].parents {}
    if listing[0] != r {
      var p := ParentInInterval(listing[0], r, c);
    }
    if listing[last] != c {
      var child := ChildInInterval(listing[last], r, c);
    }
  }
}
