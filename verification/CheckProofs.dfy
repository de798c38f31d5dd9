// Every step of a candidate check keeps its invariant.
module CheckProofs {
  import opened Prelude
  import opened JobStates
  import opened CheckCoordinator
  import opened CheckProtocol

  // ---- Workers --------------------------------------------------------------------------

  lemma {:induction false} WorkerUpdate(ws: seq<Worker>, i: nat, w: Worker)
    requires i < |ws|
    ensures WorkerJobs(ws[i := w]) + JobOf(ws[i]) == WorkerJobs(ws) + JobOf(w)
    decreases ws
  {
    var updated := ws[i := w];
    if i == 0 {
      assert updated[1..] == ws[1..];
    } else {
      assert updated[1..] == ws[1..][i - 1 := w] && updated[0] == ws[0] && ws[1..][i - 1] == ws[i];
      WorkerUpdate(ws[1..], i - 1, w);
      Regroup(JobOf(ws[0]), WorkerJobs(updated[1..]), JobOf(ws[i]), WorkerJobs(ws[1..]), JobOf(w));
    }
  }

  lemma Regroup(a: multiset<Name>, b: multiset<Name>, c: multiset<Name>, d: multiset<Name>, e: multiset<Name>)
    requires b + c == d + e
    ensures a + b + c == a + d + e
  {
    assert a + b + c == a + (b + c);
  }

  lemma {:induction false} WorkerIsCounted(ws: seq<Worker>, i: nat)
    requires i < |ws| && ws[i] != Idle
    ensures WorkerJobs(ws)[ws[i].job] >= 1
    decreases ws
  {
    if i > 0 {
      WorkerIsCounted(ws[1..], i - 1);
    }
  }

  lemma {:induction false} TwoWorkersCountTwice(ws: seq<Worker>, i: nat, j: nat)
    requires i < j < |ws| && ws[i] != Idle && ws[j] != Idle && ws[i].job == ws[j].job
    ensures WorkerJobs(ws)[ws[i].job] >= 2
    decreases ws
  {
    if i > 0 {
      TwoWorkersCountTwice(ws[1..], i - 1, j - 1);
    } else {
      WorkerIsCounted(ws[1..], j - 1);
    }
  }

  lemma {:induction false} CountedHasWorker(ws: seq<Worker>, job: Name) returns (i: nat)
    requires WorkerJobs(ws)[job] >= 1
    ensures i < |ws| && ws[i] != Idle && ws[i].job == job
    decreases ws
  {
    if ws[0] != Idle && ws[0].job == job {
      i := 0;
    } else {
      i := CountedHasWorker(ws[1..], job);
      i := i + 1;
    }
  }

  // A worker's job is nowhere else.
  lemma WorkerHoldsAlone(s: State, i: nat)
    requires Conserved(s) && i < |s.workers| && s.workers[i] != Idle
    ensures var job := s.workers[i].job;
            && job in s.used && job !in s.jobs && CompletedIn(s.messages)[job] == 0 && job !in s.completions
            && forall j | 0 <= j < |s.workers| && j != i :: s.workers[j] != Idle ==> s.workers[j].job != job
  {
    var job := s.workers[i].job;
    WorkerIsCounted(s.workers, i);
    assert multiset(s.used)[job] <= 1;
    forall j | 0 <= j < |s.workers| && j != i && s.workers[j] != Idle ensures s.workers[j].job != job {
      if s.workers[j].job == job {
        if i < j {
          TwoWorkersCountTwice(s.workers, i, j);
        } else {
          TwoWorkersCountTwice(s.workers, j, i);
        }
      }
    }
  }

  // ---- Messages -------------------------------------------------------------------------

  lemma {:induction false} CompletedSnoc(messages: seq<Message>, m: Message)
    ensures CompletedIn(messages + [m])
            == CompletedIn(messages) + if m.Completed? then multiset{m.job} else multiset{}
  {
    if messages == [] {
      assert (messages + [m])[1..] == [];
    } else {
      assert (messages + [m])[1..] == messages[1..] + [m];
      CompletedSnoc(messages[1..], m);
    }
  }

  // A job that is open still has its Completed ahead, in the channel or with its worker.
  lemma {:induction false} OpenIsNotOver(open: set<Name>, messages: seq<Message>, job: Name)
    requires Open(open, messages).Some? && job in open
    ensures job in Open(open, messages).value || CompletedIn(messages)[job] >= 1
    decreases |messages|
  {
    if messages != [] {
      match messages[0]
      case Started(other) => OpenIsNotOver(open + {other}, messages[1..], job);
      case Completed(other, _) => if other != job { OpenIsNotOver(open - {other}, messages[1..], job); }
      case _ => OpenIsNotOver(open, messages[1..], job);
    }
  }

  lemma OpenJobsHaveNoResult(s: State, job: Name)
    requires Conserved(s) && Open(s.open, s.messages) == Some(Announced(s.workers))
    requires job in s.open
    ensures job in s.used && job !in s.completions
  {
    OpenIsNotOver(s.open, s.messages, job);
    assert multiset(s.used)[job] <= 1;
    if CompletedIn(s.messages)[job] == 0 {
      var i :| 0 <= i < |s.workers| && s.workers[i] != Idle && s.workers[i].job == job;
      WorkerHoldsAlone(s, i);
    } else {
      assert multiset(s.used)[job] == 1;
    }
  }

  // ---- Conservation ---------------------------------------------------------------------

  lemma Cancel(a: multiset<Name>, b: multiset<Name>, x: multiset<Name>)
    requires a + x == b + x
    ensures a == b
  {
    assert (a + x) - x == a && (b + x) - x == b;
  }

  lemma TakeConserves(s: State, w: nat)
    requires Conserved(s) && Enabled(s, Take(w))
    ensures Conserved(Next(s, Take(w)))
  {
    var job, rest := s.jobs[0], s.jobs[1..];
    var workers, after := WorkerJobs(s.workers), WorkerJobs(s.workers[w := Claimed(job)]);
    WorkerUpdate(s.workers, w, Claimed(job));
    assert after == workers + multiset{job};
    assert s.jobs == [job] + rest;
    TakeBalances(multiset(rest), workers, CompletedIn(s.messages), multiset(s.completions.Keys), multiset{job});
  }

  lemma TakeBalances(
      jobs: multiset<Name>, workers: multiset<Name>, sent: multiset<Name>, done: multiset<Name>, job: multiset<Name>)
    ensures (job + jobs) + workers + sent + done == jobs + (workers + job) + sent + done
  {
  }

  lemma ReportBalances(
      jobs: multiset<Name>, workers: multiset<Name>, sent: multiset<Name>, done: multiset<Name>, job: multiset<Name>)
    ensures jobs + (workers + job) + sent + done == jobs + workers + (sent + job) + done
  {
  }

  // A worker that keeps its job, whether or not it sends something that is no Completed.
  lemma KeepingTheJobConserves(s: State, t: State, w: nat, worker: Worker)
    requires Conserved(s) && w < |s.workers| && s.workers[w] != Idle && worker != Idle && worker.job == s.workers[w].job
    requires t == s.(workers := s.workers[w := worker], messages := t.messages)
    requires CompletedIn(t.messages) == CompletedIn(s.messages)
    ensures Conserved(t)
  {
    WorkerUpdate(s.workers, w, worker);
    Cancel(WorkerJobs(t.workers), WorkerJobs(s.workers), multiset{worker.job});
  }

  lemma ReportConserves(s: State, w: nat)
    requires Conserved(s) && Enabled(s, Report(w))
    ensures Conserved(Next(s, Report(w)))
  {
    var job := s.workers[w].job;
    var workers := WorkerJobs(s.workers[w := Idle]);
    WorkerUpdate(s.workers, w, Idle);
    CompletedSnoc(s.messages, Completed(job, s.workers[w].code));
    assert WorkerJobs(s.workers) == workers + multiset{job};
    ReportBalances(multiset(s.jobs), workers, CompletedIn(s.messages), multiset(s.completions.Keys), multiset{job});
  }

  lemma WorkerStepsConserve(s: State, a: Action)
    requires Conserved(s) && Enabled(s, a) && (a.Take? || a.Announce? || a.Exit? || a.Report?)
    ensures Conserved(Next(s, a))
  {
    match a
    case Take(w) => TakeConserves(s, w);
    case Report(w) => ReportConserves(s, w);
    case Announce(w) =>
      CompletedSnoc(s.messages, Started(s.workers[w].job));
      KeepingTheJobConserves(s, Next(s, a), w, Busy(s.workers[w].job));
    case Exit(w, code) =>
      KeepingTheJobConserves(s, Next(s, a), w, Leaving(s.workers[w].job, code));
  }

  // Sending step messages completes nothing.
  lemma {:induction false} StepMessagesCompleteNothing(messages: seq<Message>, more: seq<Message>)
    requires forall m | m in more :: m.StepStarted? || m.StepCompleted?
    ensures CompletedIn(messages + more) == CompletedIn(messages)
    decreases |more|
  {
    if more == [] {
      assert messages + more == messages;
    } else {
      assert more[0] in more && forall m | m in more[1..] :: m in more;
      CompletedSnoc(messages, more[0]);
      assert messages + more == (messages + [more[0]]) + more[1..];
      StepMessagesCompleteNothing(messages + [more[0]], more[1..]);
    }
  }

  // Serving changes nothing but the log and what is on its way, unless it starts a job.
  lemma ServeShape(s: State, h: nat)
    requires Enabled(s, Serve(h))
    ensures var t, request := Next(s, Serve(h)), s.handlers[h].request;
            && t.messages == s.messages + Sent(s, request)
            && t.workers == s.workers && t.completions == s.completions && t.open == s.open && t.tally == s.tally
            && t.handlers == s.handlers - {h}
            && if request.StartJob? && request.name !in s.used
               then t.used == s.used + {request.name} && t.jobs == s.jobs + [request.name]
               else t.used == s.used && t.jobs == s.jobs
  {
    assert s.messages + [] == s.messages;
    match s.handlers[h].request
    case StartJob(_) =>
    case WaitForJob(_) =>
    case LogStep(_, _) =>
    case MarkStepFailed(_, _) =>
  }

  lemma SentAreStepMessages(s: State, request: Request)
    ensures forall m | m in Sent(s, request) :: m.StepStarted? || m.StepCompleted?
  {
  }

  lemma ServeConserves(s: State, h: nat)
    requires Conserved(s) && Enabled(s, Serve(h))
    ensures Conserved(Next(s, Serve(h)))
  {
    var t, request := Next(s, Serve(h)), s.handlers[h].request;
    ServeShape(s, h);
    SentAreStepMessages(s, s.handlers[h].request);
    StepMessagesCompleteNothing(s.messages, Sent(s, request));
    if request.StartJob? && request.name !in s.used {
      var sent, done := CompletedIn(s.messages), multiset(s.completions.Keys);
      StartBalances(s.jobs, WorkerJobs(s.workers), sent, done, s.used, request.name);
    }
  }

  lemma StartBalances(
      jobs: seq<Name>, workers: multiset<Name>, sent: multiset<Name>, done: multiset<Name>, used: set<Name>, job: Name)
    requires multiset(jobs) + workers + sent + done == multiset(used) && job !in used
    ensures multiset(jobs + [job]) + workers + sent + done == multiset(used + {job})
  {
    assert multiset(used + {job}) == multiset(used) + multiset{job};
    assert multiset(jobs + [job]) == multiset(jobs) + multiset{job};
  }

  lemma ConsumeShape(s: State)
    requires Enabled(s, Consume)
    ensures var t, m := Next(s, Consume), s.messages[0];
            && t.messages == s.messages[1..] && t.jobs == s.jobs && t.workers == s.workers && t.used == s.used
            && t.completions.Keys == s.completions.Keys + if m.Completed? then {m.job} else {}
  {
  }

  lemma ConsumeConserves(s: State)
    requires Conserved(s) && Enabled(s, Consume)
    ensures Conserved(Next(s, Consume))
    ensures s.messages[0].Completed? ==> s.messages[0].job in s.used && s.messages[0].job !in s.completions
  {
    var m := s.messages[0];
    var jobs, workers := multiset(s.jobs), WorkerJobs(s.workers);
    var rest, done := CompletedIn(s.messages[1..]), s.completions.Keys;
    ConsumeShape(s);
    if m.Completed? {
      assert CompletedIn(s.messages) == multiset{m.job} + rest;
      DoneOnce(jobs, workers, rest, done, s.used, m.job);
    } else {
      assert CompletedIn(s.messages) == multiset{} + rest == rest;
      assert done + {} == done;
    }
  }

  lemma DoneOnce(
      jobs: multiset<Name>, workers: multiset<Name>, sent: multiset<Name>, done: set<Name>, used: set<Name>, job: Name)
    requires jobs + workers + (multiset{job} + sent) + multiset(done) == multiset(used)
    ensures job in used && job !in done
    ensures jobs + workers + sent + multiset(done + {job}) == multiset(used)
  {
    assert multiset(used)[job] <= 1;
    assert job !in done;
    assert multiset(done + {job}) == multiset(done) + multiset{job};
  }

  // ---- The order of Started and Completed -----------------------------------------------

  lemma WorkerStepsKeepOrder(s: State, a: Action)
    requires Conserved(s) && Open(s.open, s.messages) == Some(Announced(s.workers))
    requires Enabled(s, a) && (a.Take? || a.Announce? || a.Exit? || a.Report?)
    ensures var t := Next(s, a); Open(t.open, t.messages) == Some(Announced(t.workers))
  {
    var t := Next(s, a);
    match a
    case Take(_) =>
      AnnouncedStays(s.workers, a.w, t.workers[a.w]);
    case Announce(w) =>
      var job := s.workers[w].job;
      WorkerHoldsAlone(s, w);
      OpenSnoc(s.open, s.messages, Started(job));
      AnnouncedGains(s.workers, w);
    case Exit(w, _) =>
      AnnouncedStays(s.workers, a.w, t.workers[a.w]);
    case Report(w) =>
      WorkerHoldsAlone(s, w);
      OpenSnoc(s.open, s.messages, Completed(s.workers[w].job, s.workers[w].code));
      AnnouncedLoses(s.workers, w);
  }

  predicate IsAnnounced(w: Worker) {
    w.Busy? || w.Leaving?
  }

  lemma AnnouncedStays(ws: seq<Worker>, w: nat, worker: Worker)
    requires w < |ws| && IsAnnounced(ws[w]) == IsAnnounced(worker)
    requires IsAnnounced(worker) ==> worker.job == ws[w].job
    ensures Announced(ws[w := worker]) == Announced(ws)
  {
    var us := ws[w := worker];
    forall n ensures n in Announced(us) <==> n in Announced(ws) {
      if i :| 0 <= i < |ws| && IsAnnounced(ws[i]) && ws[i].job == n {
        assert IsAnnounced(us[i]) && us[i].job == n;
      }
      if i :| 0 <= i < |us| && IsAnnounced(us[i]) && us[i].job == n {
        assert IsAnnounced(ws[i]) && ws[i].job == n;
      }
    }
  }

  lemma AnnouncedGains(ws: seq<Worker>, w: nat)
    requires w < |ws| && ws[w].Claimed?
    ensures Announced(ws[w := Busy(ws[w].job)]) == Announced(ws) + {ws[w].job}
  {
    var us := ws[w := Busy(ws[w].job)];
    forall n ensures n in Announced(us) <==> n in Announced(ws) || n == ws[w].job {
      if i :| 0 <= i < |ws| && IsAnnounced(ws[i]) && ws[i].job == n {
        assert us[i] == ws[i];
      }
      if n == ws[w].job {
        assert IsAnnounced(us[w]) && us[w].job == n;
      }
    }
  }

  lemma AnnouncedLoses(ws: seq<Worker>, w: nat)
    requires w < |ws| && ws[w].Leaving?
    requires forall j | 0 <= j < |ws| && j != w :: ws[j] != Idle ==> ws[j].job != ws[w].job
    ensures ws[w].job in Announced(ws)
    ensures Announced(ws[w := Idle]) == Announced(ws) - {ws[w].job}
  {
    var us := ws[w := Idle];
    assert IsAnnounced(ws[w]);
    forall n ensures n in Announced(us) <==> n in Announced(ws) && n != ws[w].job {
      if i :| 0 <= i < |us| && IsAnnounced(us[i]) && us[i].job == n {
        assert us[i] == ws[i];
      }
      if i :| 0 <= i < |ws| && IsAnnounced(ws[i]) && ws[i].job == n && n != ws[w].job {
        assert us[i] == ws[i];
      }
    }
  }

  lemma {:induction false} StepMessagesOpenNothing(open: set<Name>, messages: seq<Message>, more: seq<Message>)
    requires Open(open, messages).Some?
    requires forall m | m in more :: m.StepStarted? || m.StepCompleted?
    ensures Open(open, messages + more) == Open(open, messages)
    decreases |more|
  {
    if more == [] {
      assert messages + more == messages;
    } else {
      assert more[0] in more && forall m | m in more[1..] :: m in more;
      OpenSnoc(open, messages, more[0]);
      assert messages + more == (messages + [more[0]]) + more[1..];
      StepMessagesOpenNothing(open, messages + [more[0]], more[1..]);
    }
  }

  lemma ServeKeepsOrder(s: State, h: nat)
    requires Open(s.open, s.messages) == Some(Announced(s.workers)) && Enabled(s, Serve(h))
    ensures var t := Next(s, Serve(h)); Open(t.open, t.messages) == Some(Announced(t.workers))
  {
    ServeShape(s, h);
    SentAreStepMessages(s, s.handlers[h].request);
    StepMessagesOpenNothing(s.open, s.messages, Sent(s, s.handlers[h].request));
  }

  // ---- Tally ----------------------------------------------------------------------------

  lemma NamesSnoc(jobs: seq<CompletedJob>, j: CompletedJob)
    ensures NamesOf(jobs + [j]) == NamesOf(jobs) + [j.name]
  {
  }

  lemma ConsumeKeepsTally(s: State)
    requires Inv(s) && Enabled(s, Consume)
    ensures TallyIsRight(Next(s, Consume))
  {
    var m := s.messages[0];
    match m
    case Started(job) => StartedKeepsTally(s, job);
    case Completed(job, code) =>
      ConsumeConserves(s);
      CompletionKeepsTally(s, job, code);
    case StepStarted(_, _) => assert Next(s, Consume) == s.(messages := s.messages[1..]);
    case StepCompleted(_, _, _) => assert Next(s, Consume) == s.(messages := s.messages[1..]);
  }

  lemma StartedKeepsTally(s: State, job: Name)
    requires TallyIsRight(s) && Enabled(s, Consume) && s.messages[0] == Started(job) && job !in s.open
    ensures TallyIsRight(Next(s, Consume))
  {
    var t := Next(s, Consume);
    assert t.open == s.open + {job} && job in t.open;
    assert t.tally == s.tally.(active := s.tally.active + 1, total := s.tally.total + 1);
    assert t.completions == s.completions;
  }

  lemma CompletionKeepsTally(s: State, job: Name, code: Option<int>)
    requires TallyIsRight(s) && Enabled(s, Consume) && s.messages[0] == Completed(job, code)
    requires job in s.open && job !in s.completions
    ensures TallyIsRight(Next(s, Consume))
  {
    var t := Next(s, Consume);
    var status := StatusOf(code, LogOf(s, job));
    assert t.tally.jobs == s.tally.jobs + [CompletedJob(job, status)];
    assert t.completions == s.completions[job := status];
    assert |t.open| == |s.open| - 1;
    ResultsGrow(s.tally.jobs, s.completions, job, status);
  }

  // One more result: the names, their statuses, and whether one is a failure.
  lemma ResultsGrow(jobs: seq<CompletedJob>, done: map<Name, JobStatus>, job: Name, status: JobStatus)
    requires job !in done && multiset(NamesOf(jobs)) == multiset(done.Keys)
    requires forall j | 0 <= j < |jobs| :: jobs[j].name in done && done[jobs[j].name] == jobs[j].status
    ensures var more, now := jobs + [CompletedJob(job, status)], done[job := status];
            && multiset(NamesOf(more)) == multiset(now.Keys)
            && (forall j | 0 <= j < |more| :: more[j].name in now && now[more[j].name] == more[j].status)
            && ((exists j | 0 <= j < |more| :: more[j].status == JobFailed)
                <==> status == JobFailed || exists j | 0 <= j < |jobs| :: jobs[j].status == JobFailed)
  {
    var more, now := jobs + [CompletedJob(job, status)], done[job := status];
    NamesSnoc(jobs, CompletedJob(job, status));
    assert now.Keys == done.Keys + {job};
    assert multiset(now.Keys) == multiset(done.Keys) + multiset{job};
    assert more[|jobs|] == CompletedJob(job, status);
    if j :| 0 <= j < |jobs| && jobs[j].status == JobFailed {
      assert more[j].status == JobFailed;
    }
  }

  // ---- All of it ------------------------------------------------------------------------

  lemma InvInit(parallelism: nat)
    ensures Inv(Init(parallelism))
  {
    IdleWorkersHoldNothing(parallelism);
    var s := Init(parallelism);
    assert NamesOf(s.tally.jobs) == [];
    assert Announced(s.workers) == {};
  }

  lemma {:induction false} IdleWorkersHoldNothing(n: nat)
    ensures WorkerJobs(seq(n, _ => Idle)) == multiset{}
  {
    if n > 0 {
      assert seq(n, _ => Idle)[1..] == seq(n - 1, _ => Idle);
      IdleWorkersHoldNothing(n - 1);
    }
  }

  lemma WorkerStepsKeepInv(s: State, a: Action)
    requires Inv(s) && Enabled(s, a) && (a.Take? || a.Announce? || a.Exit? || a.Report?)
    ensures Inv(Next(s, a))
  {
    WorkerStepsConserve(s, a);
    WorkerStepsKeepOrder(s, a);
    WorkerStepsKeepMainFirst(s, a);
  }

  lemma WorkerStepsKeepMainFirst(s: State, a: Action)
    requires Inv(s) && Enabled(s, a) && (a.Take? || a.Announce? || a.Exit? || a.Report?)
    ensures MainFirst(Next(s, a))
  {
    var t := Next(s, a);
    if a.Announce? {
      WorkerHoldsAlone(s, a.w);
    } else if a.Take? || a.Exit? {
      AnnouncedStays(s.workers, a.w, t.workers[a.w]);
    }
    if a.Exit? || a.Report? {
      assert IsAnnounced(s.workers[a.w]) && s.workers[a.w].job in Announced(s.workers);
    }
  }

  // A job that has started is with a worker, on its way to be recorded, or recorded.
  lemma StartedIsSomewhere(s: State, job: Name)
    requires Conserved(s) && HasStarted(s, job)
    ensures job in Announced(s.workers) || CompletedIn(s.messages)[job] == 1 || job in s.completions
  {
    assert multiset(s.used)[job] == 1;
    if WorkerJobs(s.workers)[job] >= 1 {
      var i := CountedHasWorker(s.workers, job);
      assert IsAnnounced(s.workers[i]);
    }
  }

  lemma AskKeepsInv(s: State, h: nat, owner: Name, request: Request)
    requires Inv(s) && Enabled(s, Ask(h, owner, request))
    ensures Inv(Next(s, Ask(h, owner, request)))
  {
    StartedIsSomewhere(s, owner);
  }

  lemma ServeKeepsMainFirst(s: State, h: nat)
    requires MainFirst(s) && Enabled(s, Serve(h))
    ensures MainFirst(Next(s, Serve(h)))
  {
    ServeShape(s, h);
  }

  lemma ServeKeepsInv(s: State, h: nat)
    requires Inv(s) && Enabled(s, Serve(h))
    ensures Inv(Next(s, Serve(h)))
  {
    ServeConserves(s, h);
    ServeKeepsOrder(s, h);
    ServeKeepsMainFirst(s, h);
    ServeShape(s, h);
  }

  lemma ConsumeKeepsMainFirst(s: State)
    requires Inv(s) && Enabled(s, Consume)
    ensures MainFirst(Next(s, Consume))
    ensures Next(s, Consume).tally.stopped ==> MAIN in Next(s, Consume).completions
  {
    match s.messages[0]
    case Started(_) =>
    case Completed(job, _) => assert |s.open - {job}| == 0 ==> s.open - {job} == {};
    case StepStarted(_, _) =>
    case StepCompleted(_, _, _) =>
  }

  lemma ConsumeKeepsInv(s: State)
    requires Inv(s) && Enabled(s, Consume)
    ensures Inv(Next(s, Consume))
  {
    ConsumeConserves(s);
    ConsumeKeepsTally(s);
    ConsumeKeepsMainFirst(s);
    ConsumeShape(s);
    ConsumeKeepsOrder(s);
  }

  lemma ConsumeKeepsOrder(s: State)
    requires Open(s.open, s.messages) == Some(Announced(s.workers)) && Enabled(s, Consume)
    ensures var t := Next(s, Consume);
            Open(t.open, t.messages) == Some(Announced(t.workers)) && t.answered == s.answered
  {
  }

  lemma InvStep(s: State, a: Action)
    requires Inv(s) && Enabled(s, a)
    ensures Inv(Next(s, a))
  {
    match a
    case Consume => ConsumeKeepsInv(s);
    case Ask(h, owner, request) => AskKeepsInv(s, h, owner, request);
    case Serve(h) => ServeKeepsInv(s, h);
    case _ => WorkerStepsKeepInv(s, a);
  }
}
