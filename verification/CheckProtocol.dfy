// A candidate check as a protocol: workers, running jobs, request handlers and the message
// loop, in any interleaving (src/cmd/check.rs, run_candidate_check; src/cmd/worker.rs,
// job_worker and control_socket_listener). Modelled until the loop stops.
module CheckProtocol {
  import opened Prelude
  import opened StepLog
  import opened JobStates
  import opened CheckCoordinator

  const MAIN: Name := "main"

  datatype Worker = Idle | Claimed(job: Name) | Busy(job: Name) | Leaving(job: Name, code: Option<int>)

  datatype Request =
    | StartJob(name: Name)
    | WaitForJob(name: Name)
    | LogStep(job: Name, step: string)
    | MarkStepFailed(job: Name, ignore: bool)

  // A request in flight, made by a process that the job owner started.
  datatype Handler = Handler(owner: Name, request: Request)

  // open, parent, accepted and answered are history variables: the jobs whose Started and not
  // Completed has been consumed, who started each job, the jobs in order of acceptance, and
  // the waits (of whom, for whom) that have been answered with a result.
  datatype State = State(
    used: set<Name>,
    jobs: seq<Name>,
    workers: seq<Worker>,
    messages: seq<Message>,
    handlers: map<nat, Handler>,
    ops: map<Name, seq<Op>>,
    completions: map<Name, JobStatus>,
    tally: Tally,
    open: set<Name>,
    parent: map<Name, Name>,
    accepted: seq<Name>,
    answered: set<(Name, Name)>)

  datatype Action =
    | Take(w: nat)
    | Announce(w: nat)
    | Ask(h: nat, owner: Name, request: Request)
    | Exit(w: nat, code: Option<int>)
    | Report(w: nat)
    | Serve(h: nat)
    | Consume

  // Where the coordinator enters its loop: main is queued, all workers are idle.
  function Init(parallelism: nat): State {
    State({MAIN}, [MAIN], seq(parallelism, _ => Idle), [], map[], map[], map[], EMPTY_TALLY,
          {}, map[], [MAIN], {})
  }

  function OpsOf(s: State, job: Name): seq<Op> {
    if job in s.ops then s.ops[job] else []
  }

  function LogOf(s: State, job: Name): seq<Step> {
    Replay(OpsOf(s, job))
  }

  predicate IsBusy(s: State, job: Name) {
    Busy(job) in s.workers
  }

  // The job has been announced; its processes may outlive it.
  predicate HasStarted(s: State, job: Name) {
    job in s.used && job !in s.jobs && Claimed(job) !in s.workers
  }

  // A wait blocks while its job is known and has no result.
  predicate Waits(s: State, h: Handler) {
    h.request.WaitForJob? && h.request.name in s.used && h.request.name !in s.completions
  }

  predicate Enabled(s: State, a: Action) {
    && !s.tally.stopped
    && match a
       case Take(w) => w < |s.workers| && s.workers[w] == Idle && s.jobs != []
       case Announce(w) => w < |s.workers| && s.workers[w].Claimed?
       case Ask(h, owner, _) => h !in s.handlers && HasStarted(s, owner)
       case Exit(w, _) => w < |s.workers| && s.workers[w].Busy?
       case Report(w) => w < |s.workers| && s.workers[w].Leaving?
       case Serve(h) => h in s.handlers && !Waits(s, s.handlers[h])
       case Consume => s.messages != []
  }

  function Next(s: State, a: Action): State
    requires Enabled(s, a)
  {
    match a
    case Take(w) => s.(workers := s.workers[w := Claimed(s.jobs[0])], jobs := s.jobs[1..])
    case Announce(w) =>
      var job := s.workers[w].job;
      s.(workers := s.workers[w := Busy(job)], messages := s.messages + [Started(job)])
    case Ask(h, owner, request) => s.(handlers := s.handlers[h := Handler(owner, request)])
    case Exit(w, code) => s.(workers := s.workers[w := Leaving(s.workers[w].job, code)])
    case Report(w) =>
      var worker := s.workers[w];
      s.(workers := s.workers[w := Idle], messages := s.messages + [Completed(worker.job, worker.code)])
    case Serve(h) => ServeRequest(s.(handlers := s.handlers - {h}), s.handlers[h])
    case Consume => ConsumeMessage(s.(messages := s.messages[1..]), s.messages[0])
  }

  function ServeRequest(s: State, h: Handler): State {
    match h.request
    case StartJob(name) =>
      if name in s.used then s
      else s.(used := s.used + {name}, jobs := s.jobs + [name],
              parent := s.parent[name := h.owner], accepted := s.accepted + [name])
    case WaitForJob(name) =>
      if name in s.completions then s.(answered := s.answered + {(h.owner, name)}) else s
    case LogStep(job, step) =>
      s.(ops := s.ops[job := OpsOf(s, job) + [Log(step)]], messages := s.messages + Sent(s, h.request))
    case MarkStepFailed(job, ignore) =>
      if LogOf(s, job) == [] then s
      else s.(ops := s.ops[job := OpsOf(s, job) + [Mark(ignore)]], messages := s.messages + Sent(s, h.request))
  }

  // The step messages that serving a request sends.
  function Sent(s: State, request: Request): seq<Message> {
    match request
    case LogStep(job, step) =>
      var log := LogOf(s, job);
      var last := |log| - 1;
      (if log != [] && log[last].status == Running then [StepCompleted(job, log[last].name, Success)] else [])
      + [StepStarted(job, step)]
    case MarkStepFailed(job, ignore) =>
      var log := LogOf(s, job);
      if log == [] then [] else [StepCompleted(job, log[|log| - 1].name, Failed(ignore))]
    case _ => []
  }

  function ConsumeMessage(s: State, m: Message): State {
    var tally := CheckCoordinator.Consume(s.tally, m, LogOf(s, m.job));
    match m
    case Started(job) => s.(tally := tally, open := s.open + {job})
    case Completed(job, code) =>
      s.(tally := tally, open := s.open - {job},
         completions := s.completions[job := StatusOf(code, LogOf(s, job))])
    case _ => s.(tally := tally)
  }

  // ---- Where the accepted jobs are ------------------------------------------------------

  function JobOf(w: Worker): multiset<Name> {
    if w == Idle then multiset{} else multiset{w.job}
  }

  function WorkerJobs(ws: seq<Worker>): multiset<Name> {
    if ws == [] then multiset{} else JobOf(ws[0]) + WorkerJobs(ws[1..])
  }

  function CompletedIn(messages: seq<Message>): multiset<Name> {
    if messages == [] then multiset{}
    else (if messages[0].Completed? then multiset{messages[0].job} else multiset{}) + CompletedIn(messages[1..])
  }

  // Each accepted job is in exactly one place, once: in the jobs channel, with one worker, in
  // one Completed message on its way, or among the recorded results.
  predicate Conserved(s: State) {
    multiset(s.jobs) + WorkerJobs(s.workers) + CompletedIn(s.messages) + multiset(s.completions.Keys)
    == multiset(s.used)
  }

  // The jobs whose Started has been sent and whose Completed has not.
  function Announced(ws: seq<Worker>): set<Name> {
    set i | 0 <= i < |ws| && (ws[i].Busy? || ws[i].Leaving?) :: ws[i].job
  }

  function NamesOf(jobs: seq<CompletedJob>): seq<Name> {
    seq(|jobs|, i requires 0 <= i < |jobs| => jobs[i].name)
  }

  // The loop's counters and results.
  ghost predicate TallyIsRight(s: State) {
    var t := s.tally;
    && t.active == |s.open|
    && t.total - t.active == |t.jobs|
    && multiset(NamesOf(t.jobs)) == multiset(s.completions.Keys)
    && (forall j | 0 <= j < |t.jobs| ::
          t.jobs[j].name in s.completions && s.completions[t.jobs[j].name] == t.jobs[j].status)
    && (t.anyFailed <==> exists j | 0 <= j < |t.jobs| :: t.jobs[j].status == JobFailed)
    && (t.stopped ==> s.open == {})
    && (!t.stopped && t.jobs != [] ==> s.open != {})
  }

  // Main is the first job that was accepted, and every other was started by an earlier one.
  ghost predicate FamilyTree(used: set<Name>, accepted: seq<Name>, parent: map<Name, Name>) {
    && accepted != [] && accepted[0] == MAIN
    && (forall i, j | 0 <= i < j < |accepted| :: accepted[i] != accepted[j])
    && (forall n :: n in accepted <==> n in used)
    && parent.Keys == used - {MAIN}
    && (forall i | 0 < i < |accepted| :: accepted[i] in parent && parent[accepted[i]] in accepted[..i])
  }

  ghost predicate Lineage(s: State) {
    && FamilyTree(s.used, s.accepted, s.parent)
    && (forall h | h in s.handlers :: s.handlers[h].owner in s.used)
  }

  // Main is announced before anything else happens, and is open until its result is recorded.
  predicate MainFirst(s: State) {
    || (s.messages == [] && s.open == {} && s.completions == map[] && s.handlers == map[]
        && s.used == {MAIN} && Announced(s.workers) == {})
    || (s.messages != [] && s.messages[0] == Started(MAIN) && s.open == {} && s.completions == map[])
    || MAIN in s.open
    || MAIN in s.completions
  }

  ghost predicate Inv(s: State) {
    && Conserved(s)
    && CheckCoordinator.Open(s.open, s.messages) == Some(Announced(s.workers))
    && TallyIsRight(s)
    && MAIN in s.used
    && MainFirst(s)
    && (s.tally.stopped ==> MAIN in s.completions)
    && (forall n, m | (n, m) in s.answered :: m in s.completions)
  }
}
