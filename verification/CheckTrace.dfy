// What the actions of an execution have made of a candidate check: the state tells what was
// asked and served, how jobs exited, and what that means for their results.
module CheckTrace {
  import opened Prelude
  import opened StepLog
  import opened JobStates
  import opened CheckCoordinator
  import opened CheckProtocol
  import opened CheckProofs
  import opened CheckTheorems

  lemma {:induction false} LastStep(s: State, acts: seq<Action>)
    requires Possible(s, acts) && acts != []
    ensures var n := |acts| - 1;
            && Possible(s, acts[..n])
            && Enabled(After(s, acts[..n]), acts[n]) && After(s, acts) == Next(After(s, acts[..n]), acts[n])
    decreases |acts|
  {
    var n := |acts| - 1;
    if n > 0 {
      assert acts[1..][..n - 1] == acts[..n][1..];
      LastStep(Next(s, acts[0]), acts[1..]);
    }
  }

  lemma {:induction false} RunSplits(s: State, acts: seq<Action>, k: nat)
    requires Possible(s, acts) && k <= |acts|
    ensures Possible(s, acts[..k]) && Possible(After(s, acts[..k]), acts[k..])
    ensures After(After(s, acts[..k]), acts[k..]) == After(s, acts)
    decreases |acts|
  {
    if k > 0 {
      assert acts[1..][..k - 1] == acts[..k][1..] && acts[1..][k - 1..] == acts[k..];
      RunSplits(Next(s, acts[0]), acts[1..], k - 1);
    } else {
      assert acts[..0] == [] && acts[0..] == acts;
    }
  }

  lemma InvBefore(parallelism: nat, acts: seq<Action>)
    requires Possible(Init(parallelism), acts)
    ensures Inv(After(Init(parallelism), acts)) && Lineage(After(Init(parallelism), acts))
  {
    InvInit(parallelism);
    InvAfter(Init(parallelism), acts);
  }

  // ---- Requests -------------------------------------------------------------------------

  // The request that was made last under this handler.
  function Asked(acts: seq<Action>, h: nat): Option<Handler> {
    if acts == [] then None
    else
      var n := |acts| - 1;
      if acts[n].Ask? && acts[n].h == h then Some(Handler(acts[n].owner, acts[n].request)) else Asked(acts[..n], h)
  }

  // The request that the last action serves.
  function ServedLast(acts: seq<Action>): Option<Handler>
    requires acts != []
  {
    var n := |acts| - 1;
    if acts[n].Serve? then Asked(acts[..n], acts[n].h) else None
  }

  lemma HandlersStep(s: State, a: Action)
    requires Enabled(s, a)
    ensures Next(s, a).handlers == match a {
              case Ask(h, owner, request) => s.handlers[h := Handler(owner, request)]
              case Serve(h) => s.handlers - {h}
              case _ => s.handlers
            }
  {
    if a.Serve? {
      ServeShape(s, a.h);
    } else {
      LineageShape(s, a);
    }
  }

  // A handler in flight has the request that was made.
  lemma {:induction false} HandlersAreAsked(parallelism: nat, acts: seq<Action>, h: nat)
    requires Possible(Init(parallelism), acts) && h in After(Init(parallelism), acts).handlers
    ensures Asked(acts, h) == Some(After(Init(parallelism), acts).handlers[h])
    decreases |acts|
  {
    if acts != [] {
      var n := |acts| - 1;
      LastStep(Init(parallelism), acts);
      HandlersStep(After(Init(parallelism), acts[..n]), acts[n]);
      if h in After(Init(parallelism), acts[..n]).handlers {
        HandlersAreAsked(parallelism, acts[..n], h);
      }
    }
  }

  // The request that a step serves is the one that was made.
  lemma ServedWasAsked(parallelism: nat, acts: seq<Action>)
    requires Possible(Init(parallelism), acts) && acts != [] && acts[|acts| - 1].Serve?
    ensures var n := |acts| - 1;
            && Possible(Init(parallelism), acts[..n])
            && var s := After(Init(parallelism), acts[..n]);
               && Enabled(s, acts[n]) && acts[n].h in s.handlers
               && ServedLast(acts) == Some(s.handlers[acts[n].h])
               && After(Init(parallelism), acts) == Next(s, acts[n])
  {
    LastStep(Init(parallelism), acts);
    HandlersAreAsked(parallelism, acts[..|acts| - 1], acts[|acts| - 1].h);
  }

  // Until the loop ends, a job that has started can make any request, and exit in any way while
  // it runs.
  lemma JobsAreFree(s: State, w: nat, h: nat, owner: Name, request: Request, code: Option<int>)
    requires !s.tally.stopped
    ensures h !in s.handlers && owner in s.used && owner !in s.jobs && Claimed(owner) !in s.workers ==>
              && Enabled(s, Ask(h, owner, request))
              && Next(s, Ask(h, owner, request)).handlers[h] == Handler(owner, request)
    ensures w < |s.workers| && s.workers[w].Busy? ==> Enabled(s, Exit(w, code))
  {
  }

  // A request stays in flight until it is served: no action but its own serving takes it away.
  lemma RequestsStay(s: State, a: Action, h: nat)
    requires Enabled(s, a) && h in s.handlers && a != Serve(h)
    ensures h in Next(s, a).handlers && Next(s, a).handlers[h] == s.handlers[h]
  {
    HandlersStep(s, a);
  }

  // ---- Step logs ------------------------------------------------------------------------

  predicate LogsFor(request: Request, job: Name) {
    (request.LogStep? || request.MarkStepFailed?) && request.job == job
  }

  // What a request does to the log of its job.
  function OpOf(request: Request): Op
    requires request.LogStep? || request.MarkStepFailed?
  {
    if request.LogStep? then Log(request.step) else Mark(request.ignore)
  }

  lemma ServingLogs(s: State, h: nat, job: Name)
    requires Enabled(s, Serve(h)) && LogsFor(s.handlers[h].request, job)
    ensures LogOf(Next(s, Serve(h)), job) == Apply(LogOf(s, job), OpOf(s.handlers[h].request))
  {
    ReplaySnoc(OpsOf(s, job), OpOf(s.handlers[h].request));
  }

  lemma OthersDoNotLog(s: State, a: Action, job: Name)
    requires Enabled(s, a) && !(a.Serve? && LogsFor(s.handlers[a.h].request, job))
    ensures LogOf(Next(s, a), job) == LogOf(s, job)
  {
    match a
    case Serve(h) =>
      match s.handlers[h].request {
        case StartJob(_) =>
        case WaitForJob(_) =>
        case LogStep(_, _) =>
        case MarkStepFailed(_, _) =>
      }
    case Consume =>
      match s.messages[0] {
        case Started(_) =>
        case Completed(_, _) =>
        case StepStarted(_, _) =>
        case StepCompleted(_, _, _) =>
      }
    case Take(_) =>
    case Announce(_) =>
    case Ask(_, _, _) =>
    case Exit(_, _) =>
    case Report(_) =>
  }

  // Serving the start of a step appends it to its job's log as running; the steps before it
  // stay, but for a last one that was running, which is a success now; no other log changes.
  lemma ServedStepIsLogged(s: State, h: nat, job: Name, step: string)
    requires Enabled(s, Serve(h)) && s.handlers[h].request == LogStep(job, step)
    ensures var before, after, n := LogOf(s, job), LogOf(Next(s, Serve(h)), job), |LogOf(s, job)|;
            && |after| == n + 1 && after[n] == Step(step, Running)
            && (forall i | 0 <= i < n :: after[i].name == before[i].name)
            && (forall i | 0 <= i < n - 1 :: after[i].status == before[i].status)
            && (n > 0 ==>
                  after[n - 1].status == if before[n - 1].status == Running then Success else before[n - 1].status)
    ensures forall other | other != job :: LogOf(Next(s, Serve(h)), other) == LogOf(s, other)
    // The loop is told of the step that is completed by this, if there is one, and of the new.
    ensures var before := LogOf(s, job);
            Next(s, Serve(h)).messages
            == if before != [] && before[|before| - 1].status == Running
               then s.messages + [StepCompleted(job, before[|before| - 1].name, Success), StepStarted(job, step)]
               else s.messages + [StepStarted(job, step)]
  {
    ServingLogs(s, h, job);
    LoggingAppends(LogOf(s, job), step);
    ServeShape(s, h);
    forall other | other != job ensures LogOf(Next(s, Serve(h)), other) == LogOf(s, other) {
      OthersDoNotLog(s, Serve(h), other);
    }
  }

  // Serving a failure mark overwrites the status of the last step, if there is one.
  lemma ServedMarkIsLogged(s: State, h: nat, job: Name, ignore: bool)
    requires Enabled(s, Serve(h)) && s.handlers[h].request == MarkStepFailed(job, ignore)
    ensures var before, after, n := LogOf(s, job), LogOf(Next(s, Serve(h)), job), |LogOf(s, job)|;
            && |after| == n
            && (forall i | 0 <= i < n :: after[i].name == before[i].name)
            && (forall i | 0 <= i < n - 1 :: after[i].status == before[i].status)
            && (n > 0 ==> after[n - 1].status == Failed(ignore))
    ensures forall other | other != job :: LogOf(Next(s, Serve(h)), other) == LogOf(s, other)
    ensures var before := LogOf(s, job);
            Next(s, Serve(h)).messages
            == if before == [] then s.messages
               else s.messages + [StepCompleted(job, before[|before| - 1].name, Failed(ignore))]
  {
    ServingLogs(s, h, job);
    MarkingOverwrites(LogOf(s, job), ignore);
    forall other | other != job ensures LogOf(Next(s, Serve(h)), other) == LogOf(s, other) {
      OthersDoNotLog(s, Serve(h), other);
    }
  }

  // The requests for a job's log that were served, in the order of serving.
  function ServedOps(acts: seq<Action>, job: Name): seq<Op> {
    if acts == [] then []
    else
      var served := ServedLast(acts);
      ServedOps(acts[..|acts| - 1], job)
      + if served.Some? && LogsFor(served.value.request, job) then [OpOf(served.value.request)] else []
  }

  // In every execution, the log of a job is what the served requests make of it.
  lemma {:induction false} LogIsWhatWasServed(parallelism: nat, acts: seq<Action>, job: Name)
    requires Possible(Init(parallelism), acts)
    ensures LogOf(After(Init(parallelism), acts), job) == Replay(ServedOps(acts, job))
    decreases |acts|
  {
    if acts != [] {
      var n := |acts| - 1;
      LastStep(Init(parallelism), acts);
      LogIsWhatWasServed(parallelism, acts[..n], job);
      var s := After(Init(parallelism), acts[..n]);
      if acts[n].Serve? {
        ServedWasAsked(parallelism, acts);
      }
      if acts[n].Serve? && LogsFor(s.handlers[acts[n].h].request, job) {
        ServingLogs(s, acts[n].h, job);
        ReplaySnoc(ServedOps(acts[..n], job), OpOf(s.handlers[acts[n].h].request));
      } else {
        OthersDoNotLog(s, acts[n], job);
        assert ServedOps(acts, job) == ServedOps(acts[..n], job);
      }
    }
  }

  lemma {:induction false} ServedOpsGrow(acts: seq<Action>, k: nat, job: Name)
    requires k <= |acts|
    ensures ServedOps(acts[..k], job) <= ServedOps(acts, job)
    decreases |acts|
  {
    if k == |acts| {
      assert acts[..k] == acts;
    } else {
      assert acts[..|acts| - 1][..k] == acts[..k];
      ServedOpsGrow(acts[..|acts| - 1], k, job);
    }
  }

  // ---- Accepted jobs --------------------------------------------------------------------

  // The jobs accepted, in order, each with the job that started it.
  function Accepted(acts: seq<Action>): seq<Name> {
    if acts == [] then [MAIN]
    else
      var before, served := Accepted(acts[..|acts| - 1]), ServedLast(acts);
      before
      + if served.Some? && served.value.request.StartJob? && served.value.request.name !in before
        then [served.value.request.name] else []
  }

  function Parents(acts: seq<Action>): map<Name, Name> {
    if acts == [] then map[]
    else
      var n, served := |acts| - 1, ServedLast(acts);
      if served.Some? && served.value.request.StartJob? && served.value.request.name !in Accepted(acts[..n])
      then Parents(acts[..n])[served.value.request.name := served.value.owner]
      else Parents(acts[..n])
  }

  lemma AcceptedStep(s: State, a: Action)
    requires Lineage(s) && Enabled(s, a)
    ensures var t := Next(s, a);
            if a.Serve? && s.handlers[a.h].request.StartJob? && s.handlers[a.h].request.name !in s.accepted
            then t.accepted == s.accepted + [s.handlers[a.h].request.name]
                 && t.parent == s.parent[s.handlers[a.h].request.name := s.handlers[a.h].owner]
                 && t.jobs == s.jobs + [s.handlers[a.h].request.name]
            else t.accepted == s.accepted && t.parent == s.parent
                 && t.jobs == if a.Take? then s.jobs[1..] else s.jobs
  {
    if a.Serve? {
      ServeShape(s, a.h);
    } else if a.Consume? {
      ConsumeShape(s);
    }
    if !(a.Serve? && s.handlers[a.h].request.StartJob? && s.handlers[a.h].request.name !in s.used) {
      LineageShape(s, a);
    }
  }

  lemma {:induction false} FamilyIsWhatWasServed(parallelism: nat, acts: seq<Action>)
    requires Possible(Init(parallelism), acts)
    ensures var s := After(Init(parallelism), acts); s.accepted == Accepted(acts) && s.parent == Parents(acts)
    decreases |acts|
  {
    if acts != [] {
      var n := |acts| - 1;
      LastStep(Init(parallelism), acts);
      FamilyIsWhatWasServed(parallelism, acts[..n]);
      InvBefore(parallelism, acts[..n]);
      if acts[n].Serve? {
        ServedWasAsked(parallelism, acts);
      }
      AcceptedStep(After(Init(parallelism), acts[..n]), acts[n]);
    }
  }

  // The queued jobs are those accepted last.
  predicate IsQueue(jobs: seq<Name>, accepted: seq<Name>) {
    |jobs| <= |accepted| && jobs == accepted[|accepted| - |jobs|..]
  }

  lemma QueueTail(jobs: seq<Name>, accepted: seq<Name>)
    requires IsQueue(jobs, accepted) && jobs != []
    ensures IsQueue(jobs[1..], accepted)
  {
  }

  lemma QueueSnoc(jobs: seq<Name>, accepted: seq<Name>, name: Name)
    requires IsQueue(jobs, accepted)
    ensures IsQueue(jobs + [name], accepted + [name])
  {
  }

  lemma QueueStep(s: State, a: Action, t: State)
    requires FamilyTree(s.used, s.accepted, s.parent) && Enabled(s, a) && IsQueue(s.jobs, s.accepted)
    requires if a.Serve? && s.handlers[a.h].request.StartJob? && s.handlers[a.h].request.name !in s.accepted
             then t.accepted == s.accepted + [s.handlers[a.h].request.name]
                  && t.jobs == s.jobs + [s.handlers[a.h].request.name]
             else t.accepted == s.accepted && t.jobs == if a.Take? then s.jobs[1..] else s.jobs
    ensures IsQueue(t.jobs, t.accepted)
  {
    if a.Take? {
      QueueTail(s.jobs, s.accepted);
    } else if a.Serve? && s.handlers[a.h].request.StartJob? {
      QueueSnoc(s.jobs, s.accepted, s.handlers[a.h].request.name);
    }
  }

  lemma {:induction false} QueueAfter(s: State, acts: seq<Action>)
    requires Lineage(s) && IsQueue(s.jobs, s.accepted) && Possible(s, acts)
    ensures IsQueue(After(s, acts).jobs, After(s, acts).accepted)
    decreases |acts|
  {
    if acts != [] {
      LineageStep(s, acts[0]);
      AcceptedStep(s, acts[0]);
      QueueStep(s, acts[0], Next(s, acts[0]));
      QueueAfter(Next(s, acts[0]), acts[1..]);
    }
  }

  // A job is accepted exactly when a request to start it is served and its name is not in use;
  // it is the child of the one that asked; and jobs are taken in the order of acceptance.
  lemma AcceptedIsWhatWasServed(parallelism: nat, acts: seq<Action>)
    requires Possible(Init(parallelism), acts)
    ensures var s := After(Init(parallelism), acts);
            && s.accepted == Accepted(acts) && s.parent == Parents(acts)
            && (forall n :: n in s.used <==> n in Accepted(acts))
            && IsQueue(s.jobs, s.accepted)
  {
    FamilyIsWhatWasServed(parallelism, acts);
    InvBefore(parallelism, acts);
    QueueAfter(Init(parallelism), acts);
  }

  // ---- Waits ----------------------------------------------------------------------------

  // Who was answered about whom, when there was a result.
  ghost function Answers(parallelism: nat, acts: seq<Action>): set<(Name, Name)>
    requires Possible(Init(parallelism), acts)
    decreases |acts|
  {
    if acts == [] then {}
    else
      var n, served := |acts| - 1, ServedLast(acts);
      LastStep(Init(parallelism), acts);
      Answers(parallelism, acts[..n])
      + if served.Some? && served.value.request.WaitForJob?
           && served.value.request.name in After(Init(parallelism), acts[..n]).completions
        then {(served.value.owner, served.value.request.name)} else {}
  }

  lemma AnsweredStep(s: State, a: Action)
    requires Enabled(s, a)
    ensures Next(s, a).answered
            == s.answered
               + if a.Serve? && s.handlers[a.h].request.WaitForJob? && s.handlers[a.h].request.name in s.completions
                 then {(s.handlers[a.h].owner, s.handlers[a.h].request.name)} else {}
  {
    if a.Serve? {
      match s.handlers[a.h].request {
        case StartJob(_) =>
        case WaitForJob(_) =>
        case LogStep(_, _) =>
        case MarkStepFailed(_, _) =>
      }
    } else if a.Consume? {
      match s.messages[0] {
        case Started(_) =>
        case Completed(_, _) =>
        case StepStarted(_, _) =>
        case StepCompleted(_, _, _) =>
      }
    }
  }

  // Serving a wait for a job with a result answers it, and nothing else does.
  lemma {:induction false} AnswersAreServedWaits(parallelism: nat, acts: seq<Action>)
    requires Possible(Init(parallelism), acts)
    ensures After(Init(parallelism), acts).answered == Answers(parallelism, acts)
    decreases |acts|
  {
    if acts != [] {
      var n := |acts| - 1;
      LastStep(Init(parallelism), acts);
      AnswersAreServedWaits(parallelism, acts[..n]);
      if acts[n].Serve? {
        ServedWasAsked(parallelism, acts);
      }
      AnsweredStep(After(Init(parallelism), acts[..n]), acts[n]);
    }
  }

  // ---- Exits ----------------------------------------------------------------------------

  // How a job exited, if it did.
  ghost function ExitOf(parallelism: nat, acts: seq<Action>, job: Name): Option<Option<int>>
    requires Possible(Init(parallelism), acts)
    decreases |acts|
  {
    if acts == [] then None
    else
      var n := |acts| - 1;
      LastStep(Init(parallelism), acts);
      if acts[n].Exit? && After(Init(parallelism), acts[..n]).workers[acts[n].w] == Busy(job) then Some(acts[n].code)
      else ExitOf(parallelism, acts[..n], job)
  }

  // The exit of a job is what its worker will report or has reported.
  ghost predicate Carries(s: State, job: Name, exit: Option<Option<int>>) {
    && (forall w, code | w in s.workers && w == Leaving(job, code) :: exit == Some(code))
    && (forall m, code | m in s.messages && m == Completed(job, code) :: exit == Some(code))
  }

  lemma ExitCarries(s: State, w: nat, code: Option<int>, job: Name, exit: Option<Option<int>>)
    requires Conserved(s) && Enabled(s, Exit(w, code)) && Carries(s, job, exit)
    ensures Carries(Next(s, Exit(w, code)), job, if s.workers[w] == Busy(job) then Some(code) else exit)
  {
    var t := Next(s, Exit(w, code));
    WorkerHoldsAlone(s, w);
    if s.workers[w] == Busy(job) {
      forall m | m in s.messages && m.Completed? ensures m.job != job {
        CompletedIsCounted(s.messages, m);
      }
    }
    forall x, c | x in t.workers && x == Leaving(job, c)
      ensures (if s.workers[w] == Busy(job) then Some(code) else exit) == Some(c)
    {
      var i :| 0 <= i < |t.workers| && t.workers[i] == x;
      if i != w {
        assert s.workers[i] == x && x in s.workers;
      }
    }
  }

  lemma ReportCarries(s: State, w: nat, job: Name, exit: Option<Option<int>>)
    requires Enabled(s, Report(w)) && Carries(s, job, exit)
    ensures Carries(Next(s, Report(w)), job, exit)
  {
    var t, own := Next(s, Report(w)), s.workers[w];
    assert own in s.workers && own == Leaving(own.job, own.code);
    forall x, c | x in t.workers && x == Leaving(job, c) ensures exit == Some(c) {
      var i :| 0 <= i < |t.workers| && t.workers[i] == x;
      assert i != w && s.workers[i] == x && x in s.workers;
    }
    forall m, c | m in t.messages && m == Completed(job, c) ensures exit == Some(c) {
      if m !in s.messages {
        assert m == Completed(own.job, own.code);
      }
    }
  }

  // Neither a worker that leaves nor a completion on its way comes from anything else.
  lemma OthersCarry(s: State, t: State, job: Name, exit: Option<Option<int>>)
    requires Carries(s, job, exit)
    requires forall x | x in t.workers && x.Leaving? :: x in s.workers
    requires forall m | m in t.messages && m.Completed? :: m in s.messages
    ensures Carries(t, job, exit)
  {
  }

  lemma WorkerStepCarries(s: State, a: Action, job: Name, exit: Option<Option<int>>)
    requires Enabled(s, a) && (a.Take? || a.Announce?) && Carries(s, job, exit)
    ensures Carries(Next(s, a), job, exit)
  {
    var t := Next(s, a);
    forall x | x in t.workers && x.Leaving? ensures x in s.workers {
      var i :| 0 <= i < |t.workers| && t.workers[i] == x;
      assert s.workers[i] == x;
    }
    OthersCarry(s, t, job, exit);
  }

  lemma CarriesStep(s: State, a: Action, job: Name, exit: Option<Option<int>>)
    requires Conserved(s) && Enabled(s, a) && Carries(s, job, exit)
    ensures Carries(Next(s, a), job, if a.Exit? && s.workers[a.w] == Busy(job) then Some(a.code) else exit)
  {
    match a
    case Exit(w, code) => ExitCarries(s, w, code, job, exit);
    case Report(w) => ReportCarries(s, w, job, exit);
    case Take(_) => WorkerStepCarries(s, a, job, exit);
    case Announce(_) => WorkerStepCarries(s, a, job, exit);
    case Ask(_, _, _) => OthersCarry(s, Next(s, a), job, exit);
    case Serve(h) =>
      ServeShape(s, h);
      SentAreStepMessages(s, s.handlers[h].request);
      OthersCarry(s, Next(s, a), job, exit);
    case Consume =>
      ConsumeShape(s);
      OthersCarry(s, Next(s, a), job, exit);
  }

  lemma {:induction false} ExitsAreCarried(parallelism: nat, acts: seq<Action>, job: Name)
    requires Possible(Init(parallelism), acts)
    ensures Carries(After(Init(parallelism), acts), job, ExitOf(parallelism, acts, job))
    decreases |acts|
  {
    if acts != [] {
      var n := |acts| - 1;
      LastStep(Init(parallelism), acts);
      ExitsAreCarried(parallelism, acts[..n], job);
      InvBefore(parallelism, acts[..n]);
      CarriesStep(After(Init(parallelism), acts[..n]), acts[n], job, ExitOf(parallelism, acts[..n], job));
    }
  }

  // ---- Results --------------------------------------------------------------------------

  // The k-th action consumes the completion of this job.
  ghost predicate Completes(parallelism: nat, acts: seq<Action>, k: int, job: Name)
    requires Possible(Init(parallelism), acts)
  {
    0 <= k < |acts| && Possible(Init(parallelism), acts[..k])
    && var s := After(Init(parallelism), acts[..k]);
       acts[k] == Consume && s.messages != [] && s.messages[0].Completed? && s.messages[0].job == job
  }

  // What the execution up to k says about the result of a job: a failure, unless it exited with
  // 0 and none of the failure marks served for it stood.
  ghost predicate FailedBy(parallelism: nat, acts: seq<Action>, k: nat, job: Name)
    requires k <= |acts| && Possible(Init(parallelism), acts[..k])
  {
    || ExitOf(parallelism, acts[..k], job) != Some(Some(0))
    || exists d :: IsDecisive(ServedOps(acts[..k], job), d)
  }

  // The status that is recorded, from the exit that is carried and the requests served.
  lemma RecordedStatus(s: State, job: Name, exit: Option<Option<int>>, ops: seq<Op>)
    requires Enabled(s, Consume) && s.messages[0].Completed? && s.messages[0].job == job
    requires Carries(s, job, exit) && LogOf(s, job) == Replay(ops)
    ensures job in Next(s, Consume).completions
    ensures Next(s, Consume).completions[job] == JobFailed
            <==> exit != Some(Some(0)) || exists d :: IsDecisive(ops, d)
  {
    var code := s.messages[0].code;
    assert s.messages[0] in s.messages && s.messages[0] == Completed(job, code);
    FinalizingKeepsFailures(LogOf(s, job));
    FatalIffDecisiveMark(ops);
  }

  lemma ConsumptionRecords(parallelism: nat, acts: seq<Action>, job: Name)
    requires Possible(Init(parallelism), acts) && acts != [] && Completes(parallelism, acts, |acts| - 1, job)
    ensures var n, t := |acts| - 1, After(Init(parallelism), acts);
            && job in t.completions
            && (t.completions[job] == JobFailed <==> FailedBy(parallelism, acts, n, job))
  {
    var before := acts[..|acts| - 1];
    LastStep(Init(parallelism), acts);
    LogIsWhatWasServed(parallelism, before, job);
    ExitsAreCarried(parallelism, before, job);
    var exit, ops := ExitOf(parallelism, before, job), ServedOps(before, job);
    RecordedStatus(After(Init(parallelism), before), job, exit, ops);
  }

  lemma ResultsStayStep(s: State, a: Action, job: Name)
    requires Inv(s) && Enabled(s, a)
    ensures job in s.completions ==>
              job in Next(s, a).completions && Next(s, a).completions[job] == s.completions[job]
    ensures job in Next(s, a).completions && job !in s.completions ==>
              a == Consume && s.messages[0].Completed? && s.messages[0].job == job
  {
    if a.Consume? {
      ConsumeConserves(s);
      ConsumeShape(s);
    } else if a.Serve? {
      ServeShape(s, a.h);
    }
  }

  // In every execution, the result of a job is decided by how it exited and by the requests for
  // its log that were served until its completion was consumed.
  lemma {:induction false} ResultsAreDecided(parallelism: nat, acts: seq<Action>, job: Name)
    requires Possible(Init(parallelism), acts) && job in After(Init(parallelism), acts).completions
    ensures exists k ::
              && Completes(parallelism, acts, k, job)
              && (After(Init(parallelism), acts).completions[job] == JobFailed <==> FailedBy(parallelism, acts, k, job))
    decreases |acts|
  {
    if acts != [] {
      var n := |acts| - 1;
      LastStep(Init(parallelism), acts);
      InvBefore(parallelism, acts[..n]);
      var s := After(Init(parallelism), acts[..n]);
      ResultsStayStep(s, acts[n], job);
      if job in s.completions {
        ResultsAreDecided(parallelism, acts[..n], job);
        var k :| Completes(parallelism, acts[..n], k, job)
                 && (s.completions[job] == JobFailed <==> FailedBy(parallelism, acts[..n], k, job));
        assert acts[..n][..k] == acts[..k];
        assert Completes(parallelism, acts, k, job);
      } else {
        assert Completes(parallelism, acts, n, job);
        ConsumptionRecords(parallelism, acts, job);
      }
    }
  }

  lemma {:induction false} LoggedOnceIsLogged(ops: seq<Op>, more: seq<Op>)
    requires Replay(ops) != []
    ensures Replay(ops + more) != []
    decreases |more|
  {
    if more == [] {
      assert ops + more == ops;
    } else {
      ReplaySnoc(ops, more[0]);
      assert ops + more == (ops + [more[0]]) + more[1..];
      LoggedOnceIsLogged(ops + [more[0]], more[1..]);
    }
  }

  // Up to here a step of this job has been started.
  lemma StepServed(acts: seq<Action>, i: nat, k: nat, job: Name)
    requires i < k <= |acts|
    requires var served := ServedLast(acts[..i + 1]);
             served.Some? && served.value.request.LogStep? && served.value.request.job == job
    ensures Replay(ServedOps(acts[..k], job)) != []
  {
    var first := acts[..i + 1];
    assert acts[..k][..i + 1] == first;
    ServedOpsGrow(acts[..k], i + 1, job);
    var ops := ServedOps(first, job);
    ReplaySnoc(ServedOps(first[..i], job), OpOf(ServedLast(first).value.request));
    assert ServedOps(acts[..k], job) == ops + ServedOps(acts[..k], job)[|ops|..];
    LoggedOnceIsLogged(ops, ServedOps(acts[..k], job)[|ops|..]);
  }

  // The requests served around a mark.
  lemma MarkServed(acts: seq<Action>, j: nat, k: nat, job: Name) returns (ops: seq<Op>, more: seq<Op>)
    requires j < k <= |acts| && ServedLast(acts[..j + 1]).Some?
    requires ServedLast(acts[..j + 1]).value.request == MarkStepFailed(job, false)
    ensures ServedOps(acts[..j + 1], job) <= ServedOps(acts[..k], job)
    ensures ops == ServedOps(acts[..j], job)
    ensures more == ServedOps(acts[..k], job)[|ServedOps(acts[..j + 1], job)|..]
    ensures ServedOps(acts[..k], job) == ops + [Mark(false)] + more
  {
    var upto := acts[..k];
    assert acts[..j + 1] == upto[..j + 1] && acts[..j + 1][..j] == acts[..j];
    ServedOpsGrow(upto, j + 1, job);
    ops, more := ServedOps(acts[..j], job), ServedOps(upto, job)[|ServedOps(acts[..j + 1], job)|..];
  }

  lemma StandingMarkDecides(ops: seq<Op>, more: seq<Op>)
    requires Replay(ops) != [] && !MarkedLast(false, more)
    ensures exists d :: IsDecisive(ops + [Mark(false)] + more, d)
  {
    var all := ops + [Mark(false)] + more;
    FatalMarkSurvivesIff(ops, more);
    FatalIffDecisiveMark(all);
    FinalizingKeepsFailures(Replay(all));
  }

  // In every execution: if a step of a job was started (i) and then marked as failed and not to
  // be ignored (j), both served before the completion of the job was consumed (k), then the
  // result of the job is a failure and so is the check, whatever else happens, unless a mark
  // that ignores the step was served while it was still the last.
  lemma FailedStepFailsTheCheck(parallelism: nat, acts: seq<Action>, i: nat, j: nat, k: nat, job: Name)
    requires Possible(Init(parallelism), acts) && i < j < k && Completes(parallelism, acts, k, job)
    requires var started := ServedLast(acts[..i + 1]);
             started.Some? && started.value.request.LogStep? && started.value.request.job == job
    requires var marked := ServedLast(acts[..j + 1]);
             marked.Some? && marked.value.request == MarkStepFailed(job, false)
    ensures ServedOps(acts[..j + 1], job) <= ServedOps(acts[..k], job)
    ensures var t := After(Init(parallelism), acts);
            || MarkedLast(false, ServedOps(acts[..k], job)[|ServedOps(acts[..j + 1], job)|..])
            || (job in t.completions && t.completions[job] == JobFailed && t.tally.anyFailed)
  {
    var ops, more := MarkServed(acts, j, k, job);
    StepServed(acts, i, j, job);
    if !MarkedLast(false, more) {
      StandingMarkDecides(ops, more);
      FailureIsFinal(parallelism, acts, k, job);
    }
  }

  lemma {:induction false} ResultStays(s: State, acts: seq<Action>, job: Name)
    requires Inv(s) && Possible(s, acts) && job in s.completions
    ensures job in After(s, acts).completions && After(s, acts).completions[job] == s.completions[job]
    decreases |acts|
  {
    if acts != [] {
      InvStep(s, acts[0]);
      ResultsStayStep(s, acts[0], job);
      ResultStays(Next(s, acts[0]), acts[1..], job);
    }
  }

  // A failure that is recorded stays, and the check fails.
  lemma FailureIsFinal(parallelism: nat, acts: seq<Action>, k: nat, job: Name)
    requires Possible(Init(parallelism), acts) && Completes(parallelism, acts, k, job)
    requires FailedBy(parallelism, acts, k, job)
    ensures var t := After(Init(parallelism), acts);
            job in t.completions && t.completions[job] == JobFailed && t.tally.anyFailed
  {
    var upto := acts[..k + 1];
    RunSplits(Init(parallelism), acts, k + 1);
    assert upto[..k] == acts[..k];
    assert Completes(parallelism, upto, k, job);
    ConsumptionRecords(parallelism, upto, job);
    InvBefore(parallelism, upto);
    var s := After(Init(parallelism), upto);
    FailureHasAName(s);
    FailureStays(s, acts[k + 1..]);
    ResultStays(s, acts[k + 1..], job);
  }
}
