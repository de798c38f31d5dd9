// What holds of a candidate check over every execution.
module CheckTheorems {
  import opened Prelude
  import opened StepLog
  import opened JobStates
  import opened CheckCoordinator
  import opened CheckProtocol
  import opened CheckProofs

  // The actions can be taken one after the other from s.
  ghost predicate Possible(s: State, acts: seq<Action>)
    decreases |acts|
  {
    acts == [] || (Enabled(s, acts[0]) && Possible(Next(s, acts[0]), acts[1..]))
  }

  ghost function After(s: State, acts: seq<Action>): State
    requires Possible(s, acts)
    decreases |acts|
  {
    if acts == [] then s else After(Next(s, acts[0]), acts[1..])
  }

  // A check with this many workers can get into this state.
  ghost predicate Reachable(parallelism: nat, s: State) {
    exists acts :: Possible(Init(parallelism), acts) && After(Init(parallelism), acts) == s
  }

  lemma {:induction false} InvAfter(s: State, acts: seq<Action>)
    requires Inv(s) && Lineage(s) && Possible(s, acts)
    ensures Inv(After(s, acts)) && Lineage(After(s, acts)) && |After(s, acts).workers| == |s.workers|
    decreases |acts|
  {
    if acts != [] {
      InvStep(s, acts[0]);
      LineageStep(s, acts[0]);
      InvAfter(Next(s, acts[0]), acts[1..]);
    }
  }

  lemma ReachableInv(parallelism: nat, s: State)
    requires Reachable(parallelism, s)
    ensures Inv(s) && Lineage(s) && |s.workers| == parallelism
  {
    var acts :| Possible(Init(parallelism), acts) && After(Init(parallelism), acts) == s;
    InvInit(parallelism);
    InvAfter(Init(parallelism), acts);
  }

  lemma LineageStep(s: State, a: Action)
    requires Lineage(s) && Enabled(s, a)
    ensures Lineage(Next(s, a)) && |Next(s, a).workers| == |s.workers|
  {
    var t := Next(s, a);
    if a.Serve? && s.handlers[a.h].request.StartJob? && s.handlers[a.h].request.name !in s.used {
      LineageGrows(s, a.h);
    } else {
      LineageShape(s, a);
      LineageFrame(s, t);
    }
  }

  lemma LineageShape(s: State, a: Action)
    requires Enabled(s, a)
    requires a.Serve? && s.handlers[a.h].request.StartJob? ==> s.handlers[a.h].request.name in s.used
    ensures var t := Next(s, a);
            && t.accepted == s.accepted && t.parent == s.parent && t.used == s.used && |t.workers| == |s.workers|
            && t.handlers == match a {
                 case Ask(h, owner, request) => s.handlers[h := Handler(owner, request)]
                 case Serve(h) => s.handlers - {h}
                 case _ => s.handlers
               }
  {
    match a
    case Serve(h) =>
      match s.handlers[h].request {
        case StartJob(_) =>
        case WaitForJob(_) =>
        case LogStep(_, _) =>
        case MarkStepFailed(_, _) =>
      }
    case Consume =>
      match s.messages[0] {
        case Started(_) =>
        case Completed(_, _) =>
        case StepStarted(_, _) =>
        case StepCompleted(_, _, _) =>
      }
    case Take(_) =>
    case Announce(_) =>
    case Ask(_, _, _) =>
    case Exit(_, _) =>
    case Report(_) =>
  }

  lemma LineageFrame(s: State, t: State)
    requires Lineage(s) && t.accepted == s.accepted && t.parent == s.parent && t.used == s.used
    requires forall h | h in t.handlers :: t.handlers[h].owner in s.used
    ensures Lineage(t)
  {
  }

  lemma LineageGrows(s: State, h: nat)
    requires Lineage(s) && Enabled(s, Serve(h))
    requires s.handlers[h].request.StartJob? && s.handlers[h].request.name !in s.used
    ensures Lineage(Next(s, Serve(h))) && Next(s, Serve(h)).workers == s.workers
  {
    var name, owner, t := s.handlers[h].request.name, s.handlers[h].owner, Next(s, Serve(h));
    assert t == s.(handlers := s.handlers - {h}, used := s.used + {name}, jobs := s.jobs + [name],
                   parent := s.parent[name := owner], accepted := s.accepted + [name]);
    FamilyGrows(s.used, s.accepted, s.parent, name, owner);
  }

  lemma FamilyGrows(used: set<Name>, accepted: seq<Name>, parent: map<Name, Name>, name: Name, owner: Name)
    requires FamilyTree(used, accepted, parent) && name !in used && owner in used
    ensures FamilyTree(used + {name}, accepted + [name], parent[name := owner])
  {
    MainIsNoChild(accepted, parent, name, owner, used);
    MembersGrow(accepted, name);
    ParentsGrow(accepted, parent, name, owner);
  }

  lemma MainIsNoChild(accepted: seq<Name>, parent: map<Name, Name>, name: Name, owner: Name, used: set<Name>)
    requires FamilyTree(used, accepted, parent) && name !in used
    ensures (accepted + [name])[0] == MAIN && name != MAIN
    ensures parent[name := owner].Keys == used + {name} - {MAIN}
  {
    assert accepted[0] in accepted;
    assert parent[name := owner].Keys == parent.Keys + {name};
  }

  lemma MembersGrow(accepted: seq<Name>, name: Name)
    requires name !in accepted
    requires forall i, j | 0 <= i < j < |accepted| :: accepted[i] != accepted[j]
    ensures var more := accepted + [name];
            && (forall n :: n in more <==> n in accepted || n == name)
            && (forall i, j | 0 <= i < j < |more| :: more[i] != more[j])
  {
    var more := accepted + [name];
    assert more[|accepted|] == name;
    forall n | n in accepted ensures n in more {
      var i :| 0 <= i < |accepted| && accepted[i] == n;
      assert more[i] == n;
    }
  }

  lemma ParentsGrow(accepted: seq<Name>, parent: map<Name, Name>, name: Name, owner: Name)
    requires name !in accepted && owner in accepted
    requires forall i | 0 < i < |accepted| :: accepted[i] in parent && parent[accepted[i]] in accepted[..i]
    ensures var more, parents := accepted + [name], parent[name := owner];
            forall i | 0 < i < |more| :: more[i] in parents && parents[more[i]] in more[..i]
  {
    var more, parents := accepted + [name], parent[name := owner];
    forall i | 0 < i < |more| ensures more[i] in parents && parents[more[i]] in more[..i] {
      if i < |accepted| {
        assert more[i] == accepted[i] && more[..i] == accepted[..i] && accepted[i] in accepted;
      } else {
        assert more[..i] == accepted;
      }
    }
  }

  // ---- Conservation ---------------------------------------------------------------------

  // An accepted job is always in exactly one place: in the jobs channel, with one worker, in
  // one Completed message, or among the results; a name that was not accepted is nowhere. The
  // results are listed once each.
  lemma EachJobIsInOnePlace(parallelism: nat, s: State, job: Name)
    requires Reachable(parallelism, s)
    ensures multiset(s.jobs)[job] + WorkerJobs(s.workers)[job] + CompletedIn(s.messages)[job]
            + (if job in s.completions then 1 else 0)
            == if job in s.used then 1 else 0
    ensures multiset(NamesOf(s.tally.jobs))[job] == if job in s.completions then 1 else 0
  {
    ReachableInv(parallelism, s);
    var places := multiset(s.jobs) + WorkerJobs(s.workers) + CompletedIn(s.messages) + multiset(s.completions.Keys);
    assert places[job] == multiset(s.used)[job];
  }

  lemma NoJobHasTwoWorkers(parallelism: nat, s: State, i: nat, j: nat)
    requires Reachable(parallelism, s) && i < j < |s.workers| && s.workers[i] != Idle && s.workers[j] != Idle
    ensures s.workers[i].job != s.workers[j].job
  {
    ReachableInv(parallelism, s);
    WorkerHoldsAlone(s, i);
  }

  // ---- Accounting -----------------------------------------------------------------------

  // The counters never underflow and count the results; the loop stops only with main's
  // result; the check has failed exactly when one of the results is a failure.
  lemma TheTallyIsRight(parallelism: nat, s: State)
    requires Reachable(parallelism, s)
    ensures var t := s.tally;
            && 0 <= t.active <= t.total
            && t.total - t.active == |t.jobs| == |s.completions|
            && (t.stopped ==> t.active == 0 && MAIN in s.completions)
            && (t.anyFailed <==> exists n | n in s.completions :: s.completions[n] == JobFailed)
  {
    ReachableInv(parallelism, s);
    SameSize(NamesOf(s.tally.jobs), s.completions.Keys);
    FailureHasAName(s);
  }

  lemma FailureHasAName(s: State)
    requires TallyIsRight(s)
    ensures s.tally.anyFailed <==> exists n | n in s.completions :: s.completions[n] == JobFailed
  {
    var jobs := s.tally.jobs;
    if n :| n in s.completions && s.completions[n] == JobFailed {
      assert n in multiset(NamesOf(jobs));
      var j :| 0 <= j < |jobs| && NamesOf(jobs)[j] == n;
      assert jobs[j].status == JobFailed;
    }
  }

  lemma SameSize(names: seq<Name>, keys: set<Name>)
    requires multiset(names) == multiset(keys)
    ensures |names| == |keys|
  {
    assert |multiset(names)| == |names| && |multiset(keys)| == |keys|;
  }

  // The messages that the loop gets in an execution, and the log it finds for each.
  ghost function Got(s: State, acts: seq<Action>): seq<Message>
    requires Possible(s, acts)
    decreases |acts|
  {
    if acts == [] then []
    else (if acts[0] == Consume then [s.messages[0]] else []) + Got(Next(s, acts[0]), acts[1..])
  }

  ghost function Found(s: State, acts: seq<Action>): (logs: seq<seq<Step>>)
    requires Possible(s, acts)
    ensures |logs| == |Got(s, acts)|
    decreases |acts|
  {
    if acts == [] then []
    else (if acts[0] == Consume then [LogOf(s, s.messages[0].job)] else []) + Found(Next(s, acts[0]), acts[1..])
  }

  function TallyFrom(t: Tally, messages: seq<Message>, logs: seq<seq<Step>>): Tally
    requires |logs| == |messages|
    decreases |messages|
  {
    if messages == [] then t
    else TallyFrom(CheckCoordinator.Consume(t, messages[0], logs[0]), messages[1..], logs[1..])
  }

  lemma {:induction false} TallyFromSnoc(t: Tally, messages: seq<Message>, logs: seq<seq<Step>>)
    requires |logs| == |messages| > 0
    ensures var n := |messages| - 1;
            TallyFrom(t, messages, logs)
            == CheckCoordinator.Consume(TallyFrom(t, messages[..n], logs[..n]), messages[n], logs[n])
    decreases |messages|
  {
    var n := |messages| - 1;
    if n > 0 {
      assert messages[1..][..n - 1] == messages[..n][1..] && logs[1..][..n - 1] == logs[..n][1..];
      TallyFromSnoc(CheckCoordinator.Consume(t, messages[0], logs[0]), messages[1..], logs[1..]);
    }
  }

  lemma {:induction false} TallyFromIsTallyAfter(messages: seq<Message>, logs: seq<seq<Step>>, n: nat)
    requires |logs| == |messages| && n <= |messages|
    ensures TallyFrom(EMPTY_TALLY, messages[..n], logs[..n]) == TallyAfter(messages, logs, n)
    decreases n
  {
    if n > 0 {
      assert messages[..n][..n - 1] == messages[..n - 1] && logs[..n][..n - 1] == logs[..n - 1];
      TallyFromSnoc(EMPTY_TALLY, messages[..n], logs[..n]);
      TallyFromIsTallyAfter(messages, logs, n - 1);
    }
  }

  lemma OneStepOfTheLoop(s: State, a: Action)
    requires Inv(s) && Enabled(s, a)
    ensures a == Consume ==>
              && OpenStep(s.open, s.messages[0]) == Some(Next(s, a).open)
              && Next(s, a).tally == CheckCoordinator.Consume(s.tally, s.messages[0], LogOf(s, s.messages[0].job))
    ensures a != Consume ==> Next(s, a).open == s.open && Next(s, a).tally == s.tally
  {
    if a.Serve? {
      ServeShape(s, a.h);
    }
  }

  lemma {:induction false} LoopFollows(s: State, acts: seq<Action>)
    requires Inv(s) && Possible(s, acts)
    ensures Open(s.open, Got(s, acts)) == Some(After(s, acts).open)
    ensures TallyFrom(s.tally, Got(s, acts), Found(s, acts)) == After(s, acts).tally
    decreases |acts|
  {
    if acts != [] {
      var t, rest := Next(s, acts[0]), acts[1..];
      InvStep(s, acts[0]);
      OneStepOfTheLoop(s, acts[0]);
      LoopFollows(t, rest);
      if acts[0] == Consume {
        assert Got(s, acts)[1..] == Got(t, rest) && Found(s, acts)[1..] == Found(t, rest);
      } else {
        assert Got(s, acts) == Got(t, rest) && Found(s, acts) == Found(t, rest);
      }
    }
  }

  // What the imperative loop computes from the messages of an execution is the tally of the
  // protocol, and the order of the messages is as the loop needs it.
  lemma TheLoopComputesTheTally(parallelism: nat, acts: seq<Action>)
    requires Possible(Init(parallelism), acts)
    ensures var s, messages, logs := Init(parallelism), Got(Init(parallelism), acts), Found(Init(parallelism), acts);
            && Open({}, messages) == Some(After(s, acts).open)
            && TallyAfter(messages, logs, |messages|) == After(s, acts).tally
  {
    var s, messages, logs := Init(parallelism), Got(Init(parallelism), acts), Found(Init(parallelism), acts);
    InvInit(parallelism);
    LoopFollows(s, acts);
    TallyFromIsTallyAfter(messages, logs, |messages|);
    assert messages[..|messages|] == messages && logs[..|messages|] == logs;
  }

  // Nothing is queued, with a worker or on its way to be recorded.
  predicate Quiescent(s: State) {
    s.jobs == [] && (forall w | w in s.workers :: w == Idle) && (forall m | m in s.messages :: !m.Completed?)
  }

  lemma ResultsAreAccepted(s: State)
    requires Conserved(s)
    ensures s.completions.Keys <= s.used
  {
    forall n | n in s.completions ensures n in s.used {
      assert n in multiset(s.used);
    }
  }

  lemma SubsetOfSameSize(a: set<Name>, b: set<Name>)
    requires a <= b && |a| == |b|
    ensures a == b
  {
    assert b == a + (b - a);
    assert |b| == |a| + |b - a|;
  }

  // Whether the results of a check whose loop has stopped cover every accepted job: exactly
  // when it has stopped in quiescence, which is when it has counted as many jobs as were
  // accepted. In general it has not.
  lemma CoverageIff(parallelism: nat, s: State)
    requires Reachable(parallelism, s) && s.tally.stopped
    ensures (forall n | n in s.used :: n in s.completions) <==> Quiescent(s)
    ensures (forall n | n in s.used :: n in s.completions) <==> s.tally.total == |s.used|
  {
    ReachableInv(parallelism, s);
    TheTallyIsRight(parallelism, s);
    ResultsAreAccepted(s);
    if s.tally.total == |s.used| {
      SubsetOfSameSize(s.completions.Keys, s.used);
    }
    if forall n | n in s.used :: n in s.completions {
      assert s.completions.Keys == s.used;
    }
    if Quiescent(s) {
      forall n | n in s.used ensures n in s.completions {
        QuiescentJobIsDone(s, n);
      }
    } else {
      var n := UnfinishedJob(s);
    }
  }

  lemma QuiescentJobIsDone(s: State, n: Name)
    requires Conserved(s) && Quiescent(s) && n in s.used
    ensures n in s.completions
  {
    assert multiset(s.used)[n] == 1;
    IdleHoldNothing(s.workers);
    NothingCompleted(s.messages);
  }

  lemma {:induction false} IdleHoldNothing(ws: seq<Worker>)
    requires forall w | w in ws :: w == Idle
    ensures WorkerJobs(ws) == multiset{}
  {
    if ws != [] {
      assert ws[0] in ws && forall w | w in ws[1..] :: w in ws;
      IdleHoldNothing(ws[1..]);
    }
  }

  lemma {:induction false} NothingCompleted(messages: seq<Message>)
    requires forall m | m in messages :: !m.Completed?
    ensures CompletedIn(messages) == multiset{}
  {
    if messages != [] {
      assert messages[0] in messages && forall m | m in messages[1..] :: m in messages;
      NothingCompleted(messages[1..]);
    }
  }

  lemma UnfinishedJob(s: State) returns (n: Name)
    requires Conserved(s) && !Quiescent(s)
    ensures n in s.used && n !in s.completions
  {
    if s.jobs != [] {
      n := s.jobs[0];
      assert n in multiset(s.jobs);
      OnlyOnce(s, n);
    } else if w :| w in s.workers && w != Idle {
      var i :| 0 <= i < |s.workers| && s.workers[i] == w;
      n := w.job;
      WorkerHoldsAlone(s, i);
    } else {
      var m :| m in s.messages && m.Completed?;
      n := m.job;
      CompletedIsCounted(s.messages, m);
      OnlyOnce(s, n);
    }
  }

  lemma OnlyOnce(s: State, job: Name)
    requires Conserved(s) && multiset(s.jobs)[job] + CompletedIn(s.messages)[job] >= 1
    ensures job in s.used && job !in s.completions
  {
    assert multiset(s.used)[job] <= 1;
    assert job in multiset(s.used);
  }

  lemma {:induction false} CompletedIsCounted(messages: seq<Message>, m: Message)
    requires m in messages && m.Completed?
    ensures CompletedIn(messages)[m.job] >= 1
  {
    if messages[0] != m {
      CompletedIsCounted(messages[1..], m);
    }
  }

  // ---- Fork and join --------------------------------------------------------------------

  // A job may exit when it has been answered about every job it started and waits for nothing.
  ghost predicate MayExit(s: State, job: Name) {
    && (forall h | h in s.handlers :: s.handlers[h].owner != job)
    && (forall c | c in s.parent && s.parent[c] == job :: (job, c) in s.answered)
  }

  // Requests come from jobs that are still running, which join what they fork.
  ghost predicate JoinsItsForks(s: State, a: Action)
    requires Enabled(s, a)
  {
    && (a.Ask? ==> IsBusy(s, a.owner))
    && (a.Exit? ==> MayExit(s, s.workers[a.w].job))
  }

  ghost predicate Disciplined(s: State, acts: seq<Action>)
    requires Possible(s, acts)
    decreases |acts|
  {
    acts == [] || (JoinsItsForks(s, acts[0]) && Disciplined(Next(s, acts[0]), acts[1..]))
  }

  ghost predicate ReachableByForkJoin(parallelism: nat, s: State) {
    exists acts :: Possible(Init(parallelism), acts) && Disciplined(Init(parallelism), acts)
                   && After(Init(parallelism), acts) == s
  }

  // Whoever asks is running, and so is whoever started a job that has no result.
  ghost predicate Joined(s: State) {
    && (forall h | h in s.handlers :: IsBusy(s, s.handlers[h].owner))
    && (forall c | c in s.parent :: c in s.completions || IsBusy(s, s.parent[c]))
  }

  lemma BusyStays(ws: seq<Worker>, w: nat, worker: Worker, job: Name)
    requires w < |ws| && Busy(job) in ws && ws[w] != Busy(job)
    ensures Busy(job) in ws[w := worker]
  {
    var i :| 0 <= i < |ws| && ws[i] == Busy(job);
    assert ws[w := worker][i] == Busy(job);
  }

  lemma JoinedWorkerStep(s: State, a: Action)
    requires Inv(s) && Joined(s) && Enabled(s, a) && JoinsItsForks(s, a)
    requires a.Take? || a.Announce? || a.Exit? || a.Report?
    ensures Joined(Next(s, a))
  {
    var t := Next(s, a);
    assert t.workers == s.workers[a.w := t.workers[a.w]];
    forall job | IsBusy(s, job) && (a.Exit? ==> job != s.workers[a.w].job) ensures IsBusy(t, job) {
      BusyStays(s.workers, a.w, t.workers[a.w], job);
    }
    forall c | c in t.parent ensures c in t.completions || IsBusy(t, t.parent[c]) {
      if a.Exit? && s.parent[c] == s.workers[a.w].job {
        assert (s.parent[c], c) in s.answered;
      }
    }
  }

  lemma JoinedServe(s: State, h: nat)
    requires Lineage(s) && Joined(s) && Enabled(s, Serve(h))
    ensures Joined(Next(s, Serve(h)))
  {
    var t, request := Next(s, Serve(h)), s.handlers[h].request;
    ServeShape(s, h);
    assert IsBusy(s, s.handlers[h].owner);
    if request.StartJob? && request.name !in s.used {
      assert t.parent == s.parent[request.name := s.handlers[h].owner];
    } else {
      LineageShape(s, Serve(h));
    }
  }

  lemma JoinedStep(s: State, a: Action)
    requires Inv(s) && Lineage(s) && Joined(s) && Enabled(s, a) && JoinsItsForks(s, a)
    ensures Joined(Next(s, a))
  {
    match a
    case Ask(_, _, _) => assert Next(s, a).workers == s.workers;
    case Consume =>
      ConsumeShape(s);
      LineageShape(s, a);
    case Serve(h) => JoinedServe(s, h);
    case _ => JoinedWorkerStep(s, a);
  }

  lemma {:induction false} JoinedAfter(s: State, acts: seq<Action>)
    requires Inv(s) && Lineage(s) && Joined(s) && Possible(s, acts) && Disciplined(s, acts)
    ensures Joined(After(s, acts))
    decreases |acts|
  {
    if acts != [] {
      InvStep(s, acts[0]);
      LineageStep(s, acts[0]);
      JoinedStep(s, acts[0]);
      JoinedAfter(Next(s, acts[0]), acts[1..]);
    }
  }

  lemma ReachableJoined(parallelism: nat, s: State)
    requires ReachableByForkJoin(parallelism, s)
    ensures Reachable(parallelism, s) && Inv(s) && Lineage(s) && Joined(s)
  {
    var acts :| Possible(Init(parallelism), acts) && Disciplined(Init(parallelism), acts)
                && After(Init(parallelism), acts) == s;
    InvInit(parallelism);
    JoinedAfter(Init(parallelism), acts);
    ReachableInv(parallelism, s);
  }

  // With main's result recorded, so is that of every job, in the order they were accepted.
  lemma {:induction false} MainIsLast(s: State, i: nat)
    requires Inv(s) && Lineage(s) && Joined(s) && MAIN in s.completions
    requires i < |s.accepted|
    ensures s.accepted[i] in s.completions
    decreases i
  {
    if i > 0 {
      var p := s.parent[s.accepted[i]];
      var j :| 0 <= j < i && s.accepted[j] == p;
      MainIsLast(s, j);
      if IsBusy(s, p) {
        var w :| 0 <= w < |s.workers| && s.workers[w] == Busy(p);
        WorkerHoldsAlone(s, w);
      }
    }
  }

  lemma JoinedIsComplete(s: State)
    requires Inv(s) && Lineage(s) && Joined(s)
    ensures s.tally.stopped <==> MAIN in s.completions
    ensures s.tally.stopped ==> s.completions.Keys == s.used
  {
    if MAIN in s.completions {
      forall n | n in s.used ensures n in s.completions {
        var i :| 0 <= i < |s.accepted| && s.accepted[i] == n;
        MainIsLast(s, i);
      }
      ResultsAreAccepted(s);
      forall n ensures n !in s.open {
        if n in s.open {
          OpenJobsHaveNoResult(s, n);
        }
      }
      assert s.open == {} && MAIN in multiset(NamesOf(s.tally.jobs));
    }
  }

  // When every job joins what it forks, the loop has stopped exactly when main's result is
  // recorded. Then the results are those of all accepted jobs, each of them once, and the
  // check has not failed exactly when all of them succeeded.
  lemma ForkJoinIsComplete(parallelism: nat, s: State)
    requires ReachableByForkJoin(parallelism, s)
    ensures s.tally.stopped <==> MAIN in s.completions
    ensures s.tally.stopped ==>
              && multiset(NamesOf(s.tally.jobs)) == multiset(s.used)
              && (!s.tally.anyFailed <==> forall n | n in s.used :: n in s.completions && s.completions[n] == Succeeded)
  {
    ReachableJoined(parallelism, s);
    JoinedIsComplete(s);
    FailureHasAName(s);
  }

  // The step that stops the loop is the one that consumes main's Completed.
  lemma StopsAtMain(parallelism: nat, s: State, a: Action)
    requires ReachableByForkJoin(parallelism, s) && Enabled(s, a) && JoinsItsForks(s, a)
    ensures Next(s, a).tally.stopped <==> a == Consume && s.messages[0].Completed? && s.messages[0].job == MAIN
  {
    ReachableJoined(parallelism, s);
    InvStep(s, a);
    LineageStep(s, a);
    JoinedStep(s, a);
    JoinedIsComplete(s);
    JoinedIsComplete(Next(s, a));
    if a == Consume {
      ConsumeShape(s);
    } else if a.Serve? {
      ServeShape(s, a.h);
    }
  }

  // ---- Without the discipline -----------------------------------------------------------

  lemma {:induction false} Unrolled(s: State, acts: seq<Action>, states: seq<State>)
    requires |states| == |acts| + 1 && states[0] == s
    requires forall i | 0 <= i < |acts| :: Enabled(states[i], acts[i]) && Next(states[i], acts[i]) == states[i + 1]
    ensures Possible(s, acts) && After(s, acts) == states[|acts|]
    decreases |acts|
  {
    if acts != [] {
      Unrolled(states[1], acts[1..], states[1..]);
    }
  }

  lemma {:induction false} RunsAppend(s: State, acts: seq<Action>, more: seq<Action>)
    requires Possible(s, acts) && Possible(After(s, acts), more)
    ensures Possible(s, acts + more) && After(s, acts + more) == After(After(s, acts), more)
    decreases |acts|
  {
    if acts == [] {
      assert acts + more == more;
    } else {
      assert (acts + more)[1..] == acts[1..] + more;
      RunsAppend(Next(s, acts[0]), acts[1..], more);
    }
  }

  // With one worker, after main has started another job.
  const FORKED := State({MAIN, "lint"}, ["lint"], [Busy(MAIN)], [Started(MAIN)], map[], map[], map[], EMPTY_TALLY,
                        {}, map["lint" := MAIN], [MAIN, "lint"], {})

  lemma MainForks()
    ensures Reachable(1, FORKED)
  {
    var s0 := Init(1);
    var s1 := Next(s0, Take(0));
    var s2 := Next(s1, Announce(0));
    var s3 := Next(s2, Ask(0, MAIN, StartJob("lint")));
    Unrolled(s0, [Take(0), Announce(0), Ask(0, MAIN, StartJob("lint")), Serve(0)], [s0, s1, s2, s3, FORKED]);
  }

  lemma ReachableOn(parallelism: nat, s: State, more: seq<Action>)
    requires Reachable(parallelism, s) && Possible(s, more)
    ensures Reachable(parallelism, After(s, more))
  {
    var acts :| Possible(Init(parallelism), acts) && After(Init(parallelism), acts) == s;
    RunsAppend(Init(parallelism), acts, more);
  }

  // If main then exits without having waited, its own completion ends the check, which passes
  // although the other job never ran.
  lemma AnAcceptedJobCanBeMissed() returns (s: State)
    ensures Reachable(1, s) && s.tally.stopped && !s.tally.anyFailed
    ensures "lint" in s.used && "lint" !in s.completions && s.jobs == ["lint"]
  {
    MainForks();
    var s1 := Next(FORKED, Exit(0, Some(0)));
    var s2 := Next(s1, Report(0));
    assert s2.messages == [Started(MAIN), Completed(MAIN, Some(0))];
    var s3 := Next(s2, Consume);
    assert s3.messages == [Completed(MAIN, Some(0))] && LogOf(s3, MAIN) == [];
    s := Next(s3, Consume);
    var acts := [Exit(0, Some(0)), Report(0), Consume, Consume];
    Unrolled(FORKED, acts, [FORKED, s1, s2, s3, s]);
    ReachableOn(1, FORKED, acts);
  }

  // ---- Step failures --------------------------------------------------------------------

  lemma LogsGrowByStep(s: State, a: Action, job: Name)
    requires Enabled(s, a)
    ensures OpsOf(s, job) <= OpsOf(Next(s, a), job)
  {
    match a
    case Serve(h) =>
      match s.handlers[h].request {
        case StartJob(_) =>
        case WaitForJob(_) =>
        case LogStep(_, _) =>
        case MarkStepFailed(_, _) =>
      }
    case Consume =>
      match s.messages[0] {
        case Started(_) =>
        case Completed(_, _) =>
        case StepStarted(_, _) =>
        case StepCompleted(_, _, _) =>
      }
    case Take(_) =>
    case Announce(_) =>
    case Ask(_, _, _) =>
    case Exit(_, _) =>
    case Report(_) =>
  }

  lemma {:induction false} LogsGrow(s: State, acts: seq<Action>, job: Name)
    requires Possible(s, acts)
    ensures OpsOf(s, job) <= OpsOf(After(s, acts), job)
    decreases |acts|
  {
    if acts != [] {
      LogsGrowByStep(s, acts[0], job);
      LogsGrow(Next(s, acts[0]), acts[1..], job);
    }
  }

  lemma {:induction false} FailureStays(s: State, acts: seq<Action>)
    requires Possible(s, acts) && s.tally.anyFailed
    ensures After(s, acts).tally.anyFailed
    decreases |acts|
  {
    if acts != [] {
      FailureStays(Next(s, acts[0]), acts[1..]);
    }
  }

  // The requests served for a job's log since the state s.
  function Since(s: State, u: State, job: Name): seq<Op>
    requires OpsOf(s, job) <= OpsOf(u, job)
  {
    OpsOf(u, job)[|OpsOf(s, job)|..]
  }

  // A failure of a step that was marked and not to be ignored, whatever happens next until
  // the job's Completed is consumed, makes the job and the check fail, unless a mark that
  // ignores it was served while the step was still the last.
  lemma MarkedFailureFailsTheCheck(s: State, h: nat, before: seq<Action>, after: seq<Action>)
    requires Enabled(s, Serve(h)) && s.handlers[h].request.MarkStepFailed? && !s.handlers[h].request.ignore
    requires LogOf(s, s.handlers[h].request.job) != []
    requires Possible(Next(s, Serve(h)), before)
    requires var job, u := s.handlers[h].request.job, After(Next(s, Serve(h)), before);
             && Enabled(u, Consume) && u.messages[0].Completed? && u.messages[0].job == job
             && Possible(Next(u, Consume), after)
    ensures var marked, job := Next(s, Serve(h)), s.handlers[h].request.job;
            var u := After(marked, before);
            && OpsOf(marked, job) <= OpsOf(u, job)
            && (MarkedLast(false, Since(marked, u, job))
                || (Next(u, Consume).completions[job] == JobFailed && After(Next(u, Consume), after).tally.anyFailed))
  {
    var marked, job := Next(s, Serve(h)), s.handlers[h].request.job;
    var u := After(marked, before);
    LogsGrow(marked, before, job);
    var more := Since(marked, u, job);
    assert OpsOf(u, job) == OpsOf(s, job) + [Mark(false)] + more;
    FatalMarkSurvivesIff(OpsOf(s, job), more);
    if !MarkedLast(false, more) {
      assert HasFatal(Finalized(LogOf(u, job)));
      FailureStays(Next(u, Consume), after);
    }
  }

  // What decides the recorded status of a job: its exit, and whether one of the requests that
  // were served for its log by then was a mark that stood.
  lemma StatusIsDecided(s: State)
    requires Enabled(s, Consume) && s.messages[0].Completed?
    ensures var m := s.messages[0];
            Next(s, Consume).completions[m.job] == JobFailed
            <==> m.code != Some(0) || exists k :: IsDecisive(OpsOf(s, m.job), k)
  {
    FatalIffDecisiveMark(OpsOf(s, s.messages[0].job));
    FinalizingKeepsFailures(LogOf(s, s.messages[0].job));
  }
}
