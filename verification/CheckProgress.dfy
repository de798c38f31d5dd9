// A candidate check cannot get stuck while its jobs wait for each other in an order and leave
// one worker free.
module CheckProgress {
  import opened Prelude
  import opened JobStates
  import opened CheckCoordinator
  import opened CheckProtocol
  import opened CheckProofs
  import opened CheckTheorems

  // The running jobs with a wait that blocks.
  function Blocked(s: State): set<Name> {
    set h | h in s.handlers && Waits(s, s.handlers[h]) && IsBusy(s, s.handlers[h].owner) :: s.handlers[h].owner
  }

  // A step that some worker, handler or the coordinator can take by itself; a job can only
  // exit if it does not wait.
  predicate Productive(s: State, a: Action) {
    && Enabled(s, a)
    && !a.Ask?
    && (a.Exit? ==> s.workers[a.w].job !in Blocked(s))
  }

  // Every running job that waits does so for one of lower rank: there is no cycle of waits.
  ghost predicate WaitsDescend(s: State, rank: Name -> nat) {
    forall h | h in s.handlers && Waits(s, s.handlers[h]) && IsBusy(s, s.handlers[h].owner) ::
      rank(s.handlers[h].request.name) < rank(s.handlers[h].owner)
  }

  // Nothing is on its way, nothing can be served, and every worker is idle or at a job that waits.
  predicate Stuck(s: State) {
    && s.messages == []
    && (forall h | h in s.handlers :: Waits(s, s.handlers[h]))
    && (forall i | 0 <= i < |s.workers| ::
          s.workers[i] == Idle || (s.workers[i].Busy? && s.workers[i].job in Blocked(s)))
  }

  // While the loop has not ended, if fewer jobs are blocked than there are workers and the
  // waits do not form a cycle, some step can be taken.
  lemma Progress(parallelism: nat, s: State, rank: Name -> nat) returns (a: Action)
    requires Reachable(parallelism, s) && !s.tally.stopped
    requires |Blocked(s)| < parallelism && WaitsDescend(s, rank)
    ensures Productive(s, a)
  {
    ReachableInv(parallelism, s);
    a := Consume;
    if !Stuck(s) {
      a := StepOfUnstuck(s);
    } else {
      var w := FreeWorker(s);
      if s.jobs == [] {
        StuckIsOver(s, rank);
      }
      a := Take(w);
    }
  }

  lemma StepOfUnstuck(s: State) returns (a: Action)
    requires !Stuck(s) && !s.tally.stopped
    ensures Productive(s, a)
  {
    if s.messages != [] {
      a := Consume;
    } else if h :| h in s.handlers && !Waits(s, s.handlers[h]) {
      a := Serve(h);
    } else {
      var w: nat :| w < |s.workers| && s.workers[w] != Idle && (s.workers[w].Busy? ==> s.workers[w].job !in Blocked(s));
      a := match s.workers[w]
           case Claimed(_) => Announce(w)
           case Busy(_) => Exit(w, Some(0))
           case Leaving(_, _) => Report(w)
           case Idle => Consume;
    }
  }

  function JobsOf(ws: seq<Worker>): set<Name>
    requires forall i | 0 <= i < |ws| :: ws[i] != Idle
  {
    set i | 0 <= i < |ws| :: ws[i].job
  }

  // Distinct workers hold distinct jobs.
  lemma {:induction false} AsManyJobsAsWorkers(ws: seq<Worker>)
    requires forall i | 0 <= i < |ws| :: ws[i] != Idle
    requires forall i, j | 0 <= i < j < |ws| :: ws[i].job != ws[j].job
    ensures |JobsOf(ws)| == |ws|
  {
    if ws != [] {
      var n := |ws| - 1;
      var init := ws[..n];
      AsManyJobsAsWorkers(init);
      forall job ensures job in JobsOf(ws) <==> job in JobsOf(init) || job == ws[n].job {
        if job in JobsOf(init) {
          var i :| 0 <= i < n && init[i].job == job;
          assert ws[i].job == job;
        }
        if job in JobsOf(ws) {
          var i :| 0 <= i <= n && ws[i].job == job;
          if i < n {
            assert init[i].job == job;
          }
        }
      }
      assert JobsOf(ws) == JobsOf(init) + {ws[n].job};
    }
  }

  lemma SmallerSet(a: set<Name>, b: set<Name>)
    requires a <= b
    ensures |a| <= |b|
  {
    if x :| x in a {
      SmallerSet(a - {x}, b - {x});
    }
  }

  lemma FreeWorker(s: State) returns (w: nat)
    requires Inv(s) && Stuck(s) && |Blocked(s)| < |s.workers|
    ensures w < |s.workers| && s.workers[w] == Idle
  {
    if forall i | 0 <= i < |s.workers| :: s.workers[i] != Idle {
      forall i, j | 0 <= i < j < |s.workers| ensures s.workers[i].job != s.workers[j].job {
        WorkerHoldsAlone(s, i);
      }
      AsManyJobsAsWorkers(s.workers);
      SmallerSet(JobsOf(s.workers), Blocked(s));
    }
    w :| w < |s.workers| && s.workers[w] == Idle;
  }

  // With nothing queued and nothing on its way, a job without a result is running.
  lemma UnfinishedIsBusy(s: State, job: Name)
    requires Conserved(s) && Stuck(s) && s.jobs == []
    requires job in s.used && job !in s.completions
    ensures IsBusy(s, job) && job in Blocked(s)
  {
    assert multiset(s.used)[job] == 1;
    var i := CountedHasWorker(s.workers, job);
    assert s.workers[i] == Busy(job);
  }

  lemma {:induction false} NobodyWaits(s: State, rank: Name -> nat, job: Name)
    requires Conserved(s) && Stuck(s) && s.jobs == [] && WaitsDescend(s, rank)
    ensures job !in Blocked(s)
    decreases rank(job)
  {
    if job in Blocked(s) {
      var h :| h in s.handlers && Waits(s, s.handlers[h]) && s.handlers[h].owner == job && IsBusy(s, job);
      var other := s.handlers[h].request.name;
      NobodyWaits(s, rank, other);
      UnfinishedIsBusy(s, other);
    }
  }

  lemma StuckIsOver(s: State, rank: Name -> nat)
    requires Inv(s) && Stuck(s) && s.jobs == [] && WaitsDescend(s, rank)
    ensures s.tally.stopped
  {
    forall job ensures job !in Blocked(s) {
      NobodyWaits(s, rank, job);
    }
    if MAIN !in s.completions {
      UnfinishedIsBusy(s, MAIN);
    }
    assert MAIN in multiset(s.completions.Keys);
    assert Announced(s.workers) == {};
  }

  // ---- Exactly when there is no step ----------------------------------------------------

  function BusyJobs(ws: seq<Worker>): set<Name> {
    set i | 0 <= i < |ws| && ws[i].Busy? :: ws[i].job
  }

  lemma {:induction false} FewerJobsThanWorkers(ws: seq<Worker>)
    ensures |BusyJobs(ws)| <= |ws|
    ensures Idle in ws ==> |BusyJobs(ws)| < |ws|
  {
    if ws == [] {
      assert BusyJobs(ws) == {};
    } else {
      var n := |ws| - 1;
      var init, own := ws[..n], if ws[n].Busy? then {ws[n].job} else {};
      FewerJobsThanWorkers(init);
      assert ws == init + [ws[n]];
      forall job | job in BusyJobs(ws) ensures job in BusyJobs(init) + own {
        var i :| 0 <= i <= n && ws[i].Busy? && ws[i].job == job;
        if i < n {
          assert init[i] == ws[i];
        }
      }
      SmallerSet(BusyJobs(ws), BusyJobs(init) + own);
    }
  }

  lemma BlockedJobsAreBusy(s: State)
    ensures Blocked(s) <= BusyJobs(s.workers)
  {
    forall job | job in Blocked(s) ensures job in BusyJobs(s.workers) {
      var i :| 0 <= i < |s.workers| && s.workers[i] == Busy(job);
    }
  }

  lemma BlockedAreFewerIffOneIsFree(s: State)
    requires Inv(s) && Stuck(s)
    ensures |Blocked(s)| < |s.workers| <==> Idle in s.workers
  {
    BlockedJobsAreBusy(s);
    SmallerSet(Blocked(s), BusyJobs(s.workers));
    FewerJobsThanWorkers(s.workers);
    if |Blocked(s)| < |s.workers| {
      var w := FreeWorker(s);
      assert s.workers[w] in s.workers;
    }
  }

  lemma StuckWithoutTakingHasNoStep(s: State)
    requires Stuck(s) && (s.jobs == [] || Idle !in s.workers)
    ensures forall a :: !Productive(s, a)
  {
    forall a ensures !Productive(s, a) {
      if a.Take? && a.w < |s.workers| {
        assert s.workers[a.w] in s.workers;
      }
    }
  }

  // Until the loop ends, no step can be taken exactly if the check is stuck and either nothing
  // is queued or as many jobs are blocked as there are workers.
  lemma NoStepIff(parallelism: nat, s: State)
    requires Reachable(parallelism, s) && !s.tally.stopped
    ensures (forall a :: !Productive(s, a)) <==> Stuck(s) && (s.jobs == [] || |Blocked(s)| >= parallelism)
  {
    ReachableInv(parallelism, s);
    if !Stuck(s) {
      var a := StepOfUnstuck(s);
    } else {
      BlockedAreFewerIffOneIsFree(s);
      if s.jobs == [] || Idle !in s.workers {
        StuckWithoutTakingHasNoStep(s);
      } else {
        var w := FreeWorker(s);
        assert Productive(s, Take(w));
      }
    }
  }

  // With waits that do not form a cycle, exactly if it is stuck with every worker blocked.
  lemma NoStepWithoutCycleIff(parallelism: nat, s: State, rank: Name -> nat)
    requires Reachable(parallelism, s) && !s.tally.stopped && WaitsDescend(s, rank)
    ensures (forall a :: !Productive(s, a)) <==> Stuck(s) && |Blocked(s)| >= parallelism
  {
    NoStepIff(parallelism, s);
    ReachableInv(parallelism, s);
    if Stuck(s) && s.jobs == [] {
      StuckIsOver(s, rank);
    }
  }

  // With a worker free, a stuck check has no step exactly if nothing is queued, and then the
  // waits form a cycle: no rank descends along all of them.
  lemma NoStepWithFreeWorkerIff(parallelism: nat, s: State)
    requires Reachable(parallelism, s) && !s.tally.stopped && Stuck(s) && Idle in s.workers
    ensures (forall a :: !Productive(s, a)) <==> s.jobs == []
    ensures s.jobs == [] ==> forall rank :: !WaitsDescend(s, rank)
  {
    ReachableInv(parallelism, s);
    NoStepIff(parallelism, s);
    BlockedAreFewerIffOneIsFree(s);
    if s.jobs == [] {
      forall rank ensures !WaitsDescend(s, rank) {
        if WaitsDescend(s, rank) {
          StuckIsOver(s, rank);
        }
      }
    }
  }

  // ---- Without new requests, the check ends ---------------------------------------------

  // The steps that a worker's job still has ahead, with the messages they send.
  function WorkLeft(w: Worker): nat {
    match w
    case Idle => 0
    case Claimed(_) => 5
    case Busy(_) => 3
    case Leaving(_, _) => 2
  }

  function WorkOf(ws: seq<Worker>): nat {
    if ws == [] then 0 else WorkLeft(ws[0]) + WorkOf(ws[1..])
  }

  // A bound on the steps that can be taken without new requests.
  function Work(s: State): nat {
    6 * |s.jobs| + WorkOf(s.workers) + |s.messages| + 7 * |s.handlers|
  }

  lemma {:induction false} WorkUpdate(ws: seq<Worker>, i: nat, w: Worker)
    requires i < |ws|
    ensures WorkOf(ws[i := w]) == WorkOf(ws) - WorkLeft(ws[i]) + WorkLeft(w)
    decreases ws
  {
    var updated := ws[i := w];
    if i == 0 {
      assert updated[1..] == ws[1..];
    } else {
      assert updated[1..] == ws[1..][i - 1 := w];
      WorkUpdate(ws[1..], i - 1, w);
    }
  }

  lemma ServingIsWork(s: State, h: nat)
    requires Enabled(s, Serve(h))
    ensures Work(Next(s, Serve(h))) < Work(s)
  {
    ServeShape(s, h);
    assert |Sent(s, s.handlers[h].request)| <= 2;
    assert s.handlers.Keys == (s.handlers - {h}).Keys + {h};
    assert |s.handlers| == |(s.handlers - {h}).Keys| + 1;
  }

  lemma StepIsWork(s: State, a: Action)
    requires Enabled(s, a) && !a.Ask?
    ensures Work(Next(s, a)) < Work(s)
  {
    match a
    case Serve(h) => ServingIsWork(s, h);
    case Consume =>
      ConsumeShape(s);
      assert Next(s, a).handlers == s.handlers by { LineageShape(s, a); }
    case Take(w) => WorkUpdate(s.workers, w, Next(s, a).workers[w]);
    case Announce(w) => WorkUpdate(s.workers, w, Next(s, a).workers[w]);
    case Exit(w, _) => WorkUpdate(s.workers, w, Next(s, a).workers[w]);
    case Report(w) => WorkUpdate(s.workers, w, Next(s, a).workers[w]);
  }

  predicate NoRequests(acts: seq<Action>) {
    forall a | a in acts :: !a.Ask?
  }

  // However it is scheduled, the steps without new requests are bounded in number.
  lemma {:induction false} StepsAreBounded(s: State, acts: seq<Action>)
    requires Possible(s, acts) && NoRequests(acts)
    ensures |acts| + Work(After(s, acts)) <= Work(s)
    decreases |acts|
  {
    if acts != [] {
      assert acts[0] in acts && forall a | a in acts[1..] :: a in acts;
      StepIsWork(s, acts[0]);
      StepsAreBounded(Next(s, acts[0]), acts[1..]);
    }
  }

  // The jobs that have asked to wait and not been answered, for a job that is known or not.
  function Waiting(s: State): set<Name> {
    set h | h in s.handlers && s.handlers[h].request.WaitForJob? :: s.handlers[h].owner
  }

  ghost predicate AllWaitsDescend(s: State, rank: Name -> nat) {
    forall h | h in s.handlers && s.handlers[h].request.WaitForJob? ::
      rank(s.handlers[h].request.name) < rank(s.handlers[h].owner)
  }

  lemma {:induction false} RequestsOnlyGo(s: State, acts: seq<Action>)
    requires Possible(s, acts) && NoRequests(acts)
    ensures forall h | h in After(s, acts).handlers :: h in s.handlers && After(s, acts).handlers[h] == s.handlers[h]
    decreases |acts|
  {
    if acts != [] {
      assert acts[0] in acts && forall a | a in acts[1..] :: a in acts;
      if acts[0].Serve? {
        ServeShape(s, acts[0].h);
      } else {
        LineageShape(s, acts[0]);
      }
      RequestsOnlyGo(Next(s, acts[0]), acts[1..]);
    }
  }

  // If no further requests are made, fewer jobs wait than there are workers and their waits do
  // not form a cycle, then every execution stops within the bound: while the loop has not
  // ended, another step can be taken, and there are at most that many.
  lemma TheCheckEnds(parallelism: nat, s: State, rank: Name -> nat, acts: seq<Action>)
    requires Reachable(parallelism, s) && |Waiting(s)| < parallelism && AllWaitsDescend(s, rank)
    requires Possible(s, acts) && NoRequests(acts)
    ensures |acts| <= Work(s)
    ensures After(s, acts).tally.stopped || exists a :: Productive(After(s, acts), a)
  {
    var t := After(s, acts);
    StepsAreBounded(s, acts);
    RequestsOnlyGo(s, acts);
    ReachableOn(parallelism, s, acts);
    if !t.tally.stopped {
      forall job | job in Blocked(t) ensures job in Waiting(s) {
        var h :| h in t.handlers && Waits(t, t.handlers[h]) && t.handlers[h].owner == job;
        assert s.handlers[h] == t.handlers[h];
      }
      SmallerSet(Blocked(t), Waiting(s));
      var a := Progress(parallelism, t, rank);
    }
  }

  // One worker does not suffice for a job that waits for another, and no number of workers
  // helps a job that waits for itself.
  lemma WaitingOnTheLastWorkerIsStuck() returns (s: State)
    ensures Reachable(1, s) && !s.tally.stopped && forall a :: !Productive(s, a)
    ensures WaitsDescend(s, n => if n == MAIN then 1 else 0)
  {
    MainForks();
    var s1 := Next(FORKED, Ask(0, MAIN, WaitForJob("lint")));
    s := Next(s1, Consume);
    Unrolled(FORKED, [Ask(0, MAIN, WaitForJob("lint")), Consume], [FORKED, s1, s]);
    ReachableOn(1, FORKED, [Ask(0, MAIN, WaitForJob("lint")), Consume]);
    assert s.handlers[0].owner in Blocked(s);
  }

  lemma WaitingForOneselfIsStuck() returns (s: State)
    ensures Reachable(2, s) && !s.tally.stopped && |Blocked(s)| == 1 && forall a :: !Productive(s, a)
  {
    var s0 := Init(2);
    var s1 := Next(s0, Take(0));
    var s2 := Next(s1, Announce(0));
    var s3 := Next(s2, Ask(0, MAIN, WaitForJob(MAIN)));
    assert s3.messages == [Started(MAIN)];
    s := Next(s3, Consume);
    Unrolled(s0, [Take(0), Announce(0), Ask(0, MAIN, WaitForJob(MAIN)), Consume], [s0, s1, s2, s3, s]);
    assert s.workers == [Busy(MAIN), Idle] && s.handlers == map[0 := Handler(MAIN, WaitForJob(MAIN))];
    assert s.handlers[0].owner in Blocked(s);
    assert Blocked(s) == {MAIN};
  }
}
