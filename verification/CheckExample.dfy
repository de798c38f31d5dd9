// An execution of a candidate check with two workers in which main starts a job, waits for it
// and exits: it meets every discipline, and passes with both jobs run.
module CheckExample {
  import opened Prelude
  import opened JobStates
  import opened CheckCoordinator
  import opened CheckProtocol
  import opened CheckTheorems
  import opened CheckCoverage

  const LINT: Name := "lint"

  ghost predicate Reached(s: State) {
    exists acts ::
      && Possible(Init(2), acts) && Disciplined(Init(2), acts) && Overlapping(Init(2), acts)
      && After(Init(2), acts) == s
  }

  lemma {:induction false} DisciplineAppends(s: State, acts: seq<Action>, a: Action)
    requires Possible(s, acts) && Disciplined(s, acts) && Overlapping(s, acts)
    requires var t := After(s, acts); Enabled(t, a) && JoinsItsForks(t, a) && OutlivesQueueing(t, a)
    ensures Possible(s, acts + [a]) && Disciplined(s, acts + [a]) && Overlapping(s, acts + [a])
    ensures After(s, acts + [a]) == Next(After(s, acts), a)
    decreases |acts|
  {
    if acts == [] {
      assert acts + [a] == [a] && [a][1..] == [];
    } else {
      assert (acts + [a])[1..] == acts[1..] + [a];
      DisciplineAppends(Next(s, acts[0]), acts[1..], a);
    }
  }

  lemma Reach(s: State, a: Action)
    requires Reached(s) && Enabled(s, a) && JoinsItsForks(s, a) && OutlivesQueueing(s, a)
    ensures Reached(Next(s, a))
  {
    var acts :| Possible(Init(2), acts) && Disciplined(Init(2), acts) && Overlapping(Init(2), acts)
                && After(Init(2), acts) == s;
    DisciplineAppends(Init(2), acts, a);
  }

  // Main runs, has started lint and waits for it; lint runs.
  const FORKED := State({MAIN, LINT}, [], [Busy(MAIN), Busy(LINT)], [Started(MAIN), Started(LINT)],
                        map[0 := Handler(MAIN, WaitForJob(LINT))], map[], map[], EMPTY_TALLY,
                        {}, map[LINT := MAIN], [MAIN, LINT], {})

  // Lint has a result, and main has been answered.
  const JOINED := State({MAIN, LINT}, [], [Busy(MAIN), Idle], [], map[], map[], map[LINT := Succeeded],
                        Tally(1, 2, [CompletedJob(LINT, Succeeded)], false, false),
                        {MAIN}, map[LINT := MAIN], [MAIN, LINT], {(MAIN, LINT)})

  lemma MainRuns() returns (s: State)
    ensures Reached(s)
    ensures s == State({MAIN}, [], [Busy(MAIN), Idle], [Started(MAIN)], map[], map[], map[], EMPTY_TALLY,
                       {}, map[], [MAIN], {})
  {
    var s0 := Init(2);
    assert Possible(s0, []) && Disciplined(s0, []) && Overlapping(s0, []) && After(s0, []) == s0;
    var s1 := Next(s0, Take(0));
    Reach(s0, Take(0));
    s := Next(s1, Announce(0));
    Reach(s1, Announce(0));
  }

  lemma MainStarts() returns (s: State)
    ensures Reached(s)
    ensures s == State({MAIN, LINT}, [LINT], [Busy(MAIN), Idle], [Started(MAIN)], map[], map[], map[], EMPTY_TALLY,
                       {}, map[LINT := MAIN], [MAIN, LINT], {})
  {
    var s0 := MainRuns();
    assert s0.workers[0] == Busy(MAIN);
    var s1 := Next(s0, Ask(0, MAIN, StartJob(LINT)));
    Reach(s0, Ask(0, MAIN, StartJob(LINT)));
    s := Next(s1, Serve(0));
    Reach(s1, Serve(0));
  }

  lemma MainForks()
    ensures Reached(FORKED)
  {
    var s := MainStarts();
    var s1 := Next(s, Take(1));
    Reach(s, Take(1));
    var s2 := Next(s1, Announce(1));
    Reach(s1, Announce(1));
    assert s2.workers[0] == Busy(MAIN);
    Reach(s2, Ask(0, MAIN, WaitForJob(LINT)));
    assert Next(s2, Ask(0, MAIN, WaitForJob(LINT))) == FORKED;
  }

  lemma LintEnds() returns (s: State)
    ensures Reached(s)
    ensures s == FORKED.(workers := [Busy(MAIN), Idle],
                         messages := [Started(MAIN), Started(LINT), Completed(LINT, Some(0))])
  {
    MainForks();
    var s1 := Next(FORKED, Exit(1, Some(0)));
    Reach(FORKED, Exit(1, Some(0)));
    s := Next(s1, Report(1));
    Reach(s1, Report(1));
  }

  lemma LintBegins() returns (s: State)
    ensures Reached(s)
    ensures s == FORKED.(workers := [Busy(MAIN), Idle], messages := [Completed(LINT, Some(0))], open := {MAIN, LINT},
                         tally := Tally(2, 2, [], false, false))
  {
    var s0 := LintEnds();
    var s1 := Next(s0, Consume);
    Reach(s0, Consume);
    assert s1.messages == [Started(LINT), Completed(LINT, Some(0))];
    s := Next(s1, Consume);
    Reach(s1, Consume);
    assert s.messages == [Completed(LINT, Some(0))] && s.open == {MAIN, LINT};
  }

  lemma MainJoins()
    ensures Reached(JOINED)
  {
    var s := LintBegins();
    var s1 := Next(s, Consume);
    Reach(s, Consume);
    assert s1.open == {MAIN};
    Reach(s1, Serve(0));
    assert Next(s1, Serve(0)) == JOINED;
  }

  // A fork that is joined: both disciplines can be met, and the check passes with both jobs.
  lemma AForkIsJoined() returns (s: State)
    ensures ReachableByForkJoin(2, s) && ReachableByOverlap(2, s)
    ensures s.tally.stopped && !s.tally.anyFailed && s.completions == map[LINT := Succeeded, MAIN := Succeeded]
  {
    MainJoins();
    var s1 := Next(JOINED, Exit(0, Some(0)));
    Reach(JOINED, Exit(0, Some(0)));
    var s2 := Next(s1, Report(0));
    Reach(s1, Report(0));
    assert s2.messages == [Completed(MAIN, Some(0))];
    s := Next(s2, Consume);
    Reach(s2, Consume);
    var acts :| Possible(Init(2), acts) && Disciplined(Init(2), acts) && Overlapping(Init(2), acts)
                && After(Init(2), acts) == s;
  }
}
