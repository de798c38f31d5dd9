// Nothing that others do in the pauses of the queue processor is lost: every submission has
// its run, and every move of the base its place in the history.
module QueuePauses {
  import opened RunRegistry
  import opened MergeQueue
  import opened MergeQueueProofs
  import opened MergeQueueTheorems
  import opened MergeQueueTrace
  import opened QueueProcessor

  // What others want to do from their k-th list on, up to the n-th.
  function Wanted(others: seq<seq<Action>>, k: nat, n: nat): seq<Action>
    decreases n - k
  {
    if k >= n || k >= |others| then [] else others[k] + Wanted(others, k + 1, n)
  }

  lemma {:induction false} SubmissionsAppend(a: seq<Action>, b: seq<Action>)
    ensures Submissions(a + b) == Submissions(a) + Submissions(b)
    decreases |b|
  {
    if b == [] {
      assert a + b == a;
    } else {
      var n := |b| - 1;
      assert (a + b)[..|a + b| - 1] == a + b[..n];
      SubmissionsAppend(a, b[..n]);
    }
  }

  lemma {:induction false} MovesAppend(a: seq<Action>, b: seq<Action>)
    ensures MovesBy(a + b) == MovesBy(a) + MovesBy(b)
    decreases |b|
  {
    if b == [] {
      assert a + b == a;
    } else {
      var n := |b| - 1;
      assert (a + b)[..|a + b| - 1] == a + b[..n];
      MovesAppend(a, b[..n]);
    }
  }

  // The state has kept these actions: their submissions, their moves of the base and the marker.
  ghost predicate HasKept(s: State, acts: seq<Action>) {
    && Keeps(s, Submissions(acts))
    && ExternalsOf(s.history) == MovesBy(acts)
    && (SendMarker in acts ==> Shutdown in s.sent)
  }

  lemma MarkerStep(w: World, base: CommitId, s: State, a: Action, before: seq<Action>)
    requires Inv(w, base, s) && WellFormed(s) && Enabled(s, a) && (SendMarker in before ==> Shutdown in s.sent)
    ensures SendMarker in before + [a] ==> Shutdown in Next(w, s, a).sent
  {
    StepEvolves(w, base, s, a);
    if a.SendMarker? {
      assert Next(w, s, a).sent == s.sent + [Shutdown];
    }
  }

  lemma OneMore(w: World, base: CommitId, s: State, a: Action, before: seq<Action>)
    requires Inv(w, base, s) && WellFormed(s) && Enabled(s, a) && HasKept(s, before)
    ensures Inv(w, base, Next(w, s, a)) && HasKept(Next(w, s, a), before + [a])
  {
    InvStep(w, base, s, a);
    KeepsStep(w, base, s, a, Submissions(before));
    MovesStep(w, s, a);
    MarkerStep(w, base, s, a, before);
    SubmissionsAppend(before, [a]);
    MovesAppend(before, [a]);
    assert [a][..0] == [];
  }

  // An action that neither submits nor moves the base leaves nothing to keep.
  lemma NothingToKeep(before: seq<Action>, a: Action)
    requires !a.Submit? && !a.MoveBase?
    ensures Submissions(before + [a]) == Submissions(before) && MovesBy(before + [a]) == MovesBy(before)
  {
    SubmissionsAppend(before, [a]);
    MovesAppend(before, [a]);
    assert [a][..0] == [] && Submissions([a]) == [] && MovesBy([a]) == [];
  }

  lemma OwnStep(w: World, base: CommitId, s: State, a: Action, before: seq<Action>)
    requires Inv(w, base, s) && WellFormed(s) && Enabled(s, a) && (a.Proceed? || a.Receive?) && HasKept(s, before)
    ensures Inv(w, base, Next(w, s, a)) && HasKept(Next(w, s, a), before)
  {
    OneMore(w, base, s, a, before);
    NothingToKeep(before, a);
  }

  // What others want and cannot do leaves nothing to keep either.
  lemma OtherStep(w: World, base: CommitId, s: State, a: Action, before: seq<Action>)
    requires Inv(w, base, s) && WellFormed(s) && HasKept(s, before)
    ensures var t := if ByOthers(a) && Enabled(s, a) then Next(w, s, a) else s;
            Inv(w, base, t) && HasKept(t, before + [a])
  {
    if ByOthers(a) && Enabled(s, a) {
      OneMore(w, base, s, a, before);
    } else {
      NothingToKeep(before, a);
    }
  }

  lemma {:induction false} OthersAreKept(w: World, base: CommitId, s: State, acts: seq<Action>, before: seq<Action>)
    requires Inv(w, base, s) && WellFormed(s) && HasKept(s, before)
    ensures Inv(w, base, OthersDo(w, s, acts)) && HasKept(OthersDo(w, s, acts), before + acts)
    decreases |acts|
  {
    if acts == [] {
      assert before + acts == before;
    } else {
      var a, rest := acts[0], acts[1..];
      assert before + acts == (before + [a]) + rest;
      OtherStep(w, base, s, a, before);
      if ByOthers(a) && Enabled(s, a) {
        OthersAreKept(w, base, Next(w, s, a), rest, before + [a]);
      } else {
        OthersAreKept(w, base, s, rest, before + [a]);
      }
    }
  }

  // One pause.
  lemma PauseIsKept(w: World, base: CommitId, s: State, others: seq<seq<Action>>, k: nat, before: seq<Action>)
    requires Inv(w, base, s) && WellFormed(s) && HasKept(s, before)
    ensures var t := OthersDo(w, s, Pause(others, k));
            Inv(w, base, t) && HasKept(t, before + Wanted(others, k, k + 1))
  {
    OthersAreKept(w, base, s, Pause(others, k), before);
    assert Wanted(others, k, k + 1) == if k < |others| then others[k] + [] else [];
    assert k < |others| ==> others[k] + [] == others[k];
  }

  lemma {:induction false} WantedOn(others: seq<seq<Action>>, k: nat, m: nat, n: nat)
    requires k <= m <= n
    ensures Wanted(others, k, m) + Wanted(others, m, n) == Wanted(others, k, n)
    decreases m - k
  {
    if k == m {
      assert [] + Wanted(others, m, n) == Wanted(others, m, n);
    } else if k < |others| {
      WantedOn(others, k + 1, m, n);
      assert others[k] + (Wanted(others, k + 1, m) + Wanted(others, m, n))
          == others[k] + Wanted(others, k + 1, m) + Wanted(others, m, n);
    } else {
      assert Wanted(others, m, n) == [];
    }
  }

  lemma KeptOn(s: State, before: seq<Action>, others: seq<seq<Action>>, k: nat, m: nat, n: nat)
    requires k <= m <= n && HasKept(s, before + Wanted(others, k, m) + Wanted(others, m, n))
    ensures HasKept(s, before + Wanted(others, k, n))
  {
    WantedOn(others, k, m, n);
    assert before + Wanted(others, k, m) + Wanted(others, m, n)
        == before + (Wanted(others, k, m) + Wanted(others, m, n));
  }

  lemma {:induction false} FinishKeeps(
      w: World, base: CommitId, s: State, others: seq<seq<Action>>, k: nat, before: seq<Action>)
    requires Inv(w, base, s) && WellFormed(s) && !s.pc.Stopped? && HasKept(s, before)
    ensures var (t, n) := Finish(w, s, others, k);
            n >= k && Inv(w, base, t) && HasKept(t, before + Wanted(others, k, n))
    decreases Left(s.pc)
  {
    FinishShape(w, s, others, k);
    if Active(s.pc).None? {
      assert before + Wanted(others, k, k) == before;
    } else {
      var paused, after := OthersDo(w, s, Pause(others, k)), before + Wanted(others, k, k + 1);
      PauseIsKept(w, base, s, others, k, before);
      OwnStep(w, base, paused, Proceed, after);
      PausedStepShape(w, s, others, k);
      FinishKeeps(w, base, PausedStep(w, s, others, k), others, k + 1, after);
      var (t, n) := Finish(w, s, others, k);
      FinishShape(w, PausedStep(w, s, others, k), others, k + 1);
      KeptOn(t, before, others, k, k + 1, n);
    }
  }

  // A message that is taken after the k-th pause, and the run that it starts.
  lemma MessageKeeps(w: World, base: CommitId, s: State, others: seq<seq<Action>>, k: nat, before: seq<Action>)
    requires Inv(w, base, s) && WellFormed(s) && s.pc.Idle? && s.taken < |s.sent|
    requires HasKept(s, before + Wanted(others, k, k + 1))
    ensures Inv(w, base, ReceiveNext(s)) && HasKept(ReceiveNext(s), before + Wanted(others, k, k + 1))
    ensures !ReceiveNext(s).pc.Stopped? ==>
              var (t, n) := Finish(w, ReceiveNext(s), others, k + 1);
              n > k && Inv(w, base, t) && HasKept(t, before + Wanted(others, k, n))
  {
    var after := before + Wanted(others, k, k + 1);
    OwnStep(w, base, s, Receive, after);
    if !ReceiveNext(s).pc.Stopped? {
      FinishKeeps(w, base, ReceiveNext(s), others, k + 1, after);
      var (t, n) := Finish(w, ReceiveNext(s), others, k + 1);
      KeptOn(t, before, others, k, k + 1, n);
    }
  }

  // A turn is a pause and, if there is a message then, that message.
  lemma TurnIsPauseAndMessage(w: World, s: State, paused: State, others: seq<seq<Action>>, k: nat)
    requires WellFormed(s) && s.pc.Idle? && paused == OthersDo(w, s, Pause(others, k))
    ensures WellFormed(paused) && paused.pc.Idle? && paused.taken <= |paused.sent|
    ensures paused.taken == |paused.sent| ==> Turn(w, s, others, k) == (paused, k + 1, k + 1 >= |others|)
    ensures paused.taken < |paused.sent| ==>
              var u := ReceiveNext(paused);
              if u.pc.Stopped? then Turn(w, s, others, k) == (u, k + 1, true)
              else var (t, n) := Finish(w, u, others, k + 1); Turn(w, s, others, k) == (t, n, false)
  {
  }

  lemma TurnKeeps(w: World, base: CommitId, s: State, others: seq<seq<Action>>, k: nat, before: seq<Action>)
    requires Inv(w, base, s) && WellFormed(s) && s.pc.Idle? && HasKept(s, before)
    ensures var (t, n, last) := Turn(w, s, others, k);
            n > k && Inv(w, base, t) && HasKept(t, before + Wanted(others, k, n))
  {
    var paused := OthersDo(w, s, Pause(others, k));
    PauseIsKept(w, base, s, others, k, before);
    TurnIsPauseAndMessage(w, s, paused, others, k);
    if paused.taken < |paused.sent| {
      MessageKeeps(w, base, paused, others, k, before);
    }
  }

  lemma {:induction false} LoopKeeps(
      w: World, base: CommitId, s: State, others: seq<seq<Action>>, k: nat, before: seq<Action>)
    requires Inv(w, base, s) && WellFormed(s) && s.pc.Idle? && HasKept(s, before)
    ensures var (t, n) := Loop(w, s, others, k);
            n > k && Inv(w, base, t) && HasKept(t, before + Wanted(others, k, n))
    decreases if k < |others| then |others| - k else 0, |s.sent| - s.taken
  {
    TurnShape(w, s, others, k);
    TurnKeeps(w, base, s, others, k, before);
    var (t, n, last) := Turn(w, s, others, k);
    if !last {
      LoopKeeps(w, base, t, others, n, before + Wanted(others, k, n));
      var (u, m) := Loop(w, s, others, k);
      KeptOn(u, before, others, k, n, m);
    }
  }

  // A fresh daemon that is left by its loop has kept all that others have done in its pauses:
  // each submission has its run, with its candidate and flag, each move of the base is in the
  // history, in order, and if any of them asked for the shutdown, the processor has stopped.
  lemma PausesAreKept(w: World, base: CommitId, others: seq<seq<Action>>)
    ensures var (t, n) := Loop(w, Init(base), others, 0);
            && Keeps(t, Submissions(Wanted(others, 0, n)))
            && ExternalsOf(t.history) == MovesBy(Wanted(others, 0, n))
            && (SendMarker in Wanted(others, 0, n) ==> t.pc.Stopped?)
  {
    InvInit(w, base);
    LoopKeeps(w, base, Init(base), others, 0, []);
    LoopTakesEverything(w, Init(base), others, 0);
    var (t, n) := Loop(w, Init(base), others, 0);
    assert [] + Wanted(others, 0, n) == Wanted(others, 0, n);
    if Shutdown in t.sent {
      var i :| 0 <= i < |t.sent| && t.sent[i] == Shutdown;
    }
  }
}
