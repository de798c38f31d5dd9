// The merge queue as a protocol: detached request handlers, one queue processor, the daemon
// loop that sends the shutdown marker, and other writers of the repository, in any
// interleaving (src/cmd/mq.rs, run_daemon_loop, handle_request, process_queue and
// publish_prepared_candidate).
module MergeQueue {
  import opened Prelude
  import opened RunRegistry
  import opened Publication

  datatype MergeMode = Rebase | Merge

  datatype Verdict = CheckError | PostCloneFailed | JobsFailed | JobsPassed

  // The commands a run executes, each with an arbitrary outcome for every run. Each of them
  // is executed at most once for a run, so fixing the outcomes excludes no behaviour.
  datatype World = World(
    vcs: Vcs,
    mode: MergeMode,
    preClone: RunId -> bool,
    resolves: RunId -> bool,
    integrate: (RunId, CommitId, CommitId) -> Option<CommitId>,
    check: (RunId, CommitId, CommitId) -> Verdict,
    preMerge: RunId -> bool,
    publishes: RunId -> bool,
    identifies: RunId -> bool)

  datatype Message = Run(id: RunId) | Shutdown

  // Where the queue processor is.
  datatype Pc =
    | Idle
    | PreCloneHook(id: RunId)
    | ResolveBase(id: RunId)
    | Prepare(id: RunId, base: CommitId)
    | Check(id: RunId, base: CommitId, tested: CommitId)
    | PreMergeHook(id: RunId, base: CommitId, tested: CommitId)
    | Publish(id: RunId, base: CommitId, tested: CommitId)
    | VerifyTarget(id: RunId, base: CommitId, tested: CommitId, moved: bool)
    | PostMergeHook(id: RunId, landed: CommitId)
    | Record(id: RunId, status: RunStatus)
    | Stopped

  // A look at the base: after how many of its events, and what it was.
  datatype Look = Look(at: nat, base: Target)

  // What has happened to a run so far: its looks at the base when it resolved it, published
  // and verified, and the commit its post-merge stage was run for. A history variable: no step
  // reads it.
  datatype Facts = Facts(
    resolution: Option<Look>,
    publication: Option<Look>,
    verification: Option<Look>,
    postMerge: Option<CommitId>)

  // The writes of the base, by the queue and by others.
  datatype BaseEvent = External(to: Target) | Write(run: RunId, old_: CommitId, new_: CommitId)

  datatype State = State(
    runs: Runs,
    unsent: set<RunId>,
    sent: seq<Message>,
    taken: nat,
    pc: Pc,
    base: Target,
    history: seq<BaseEvent>,
    facts: map<RunId, Facts>)

  datatype Action =
    | Submit(candidate: CommitId, noMerge: bool)
    | Send(id: RunId)
    | SendMarker
    | Receive
    | Proceed
    | MoveBase(to: Target)

  function Init(base: CommitId): State {
    State(Runs(map[], 1), {}, [], 0, Idle, At(base), [], map[])
  }

  function NoFacts(): Facts {
    Facts(None, None, None, None)
  }

  function Active(pc: Pc): Option<RunId> {
    if pc.Idle? || pc.Stopped? then None else Some(pc.id)
  }

  predicate Enabled(s: State, a: Action) {
    match a
    case Submit(_, _) => true
    case Send(id) => id in s.unsent
    case SendMarker => Shutdown !in s.sent
    case Receive => s.pc.Idle? && s.taken < |s.sent|
    case Proceed => Active(s.pc).Some?
    case MoveBase(_) => true
  }

  function Next(w: World, s: State, a: Action): State
    requires Enabled(s, a)
    requires WellFormed(s)
  {
    match a
    case Submit(candidate, noMerge) =>
      s.(runs := s.runs.Queue(candidate, noMerge), unsent := s.unsent + {s.runs.nextId})
    case Send(id) =>
      // Once the processor has gone, sending fails and the run stays queued.
      s.(unsent := s.unsent - {id}, sent := if s.pc.Stopped? then s.sent else s.sent + [Run(id)])
    case SendMarker =>
      s.(sent := s.sent + [Shutdown])
    case Receive =>
      ReceiveNext(s)
    case Proceed =>
      Step(w, s)
    case MoveBase(to) =>
      s.(base := to, history := s.history + [External(to)])
  }

  // What Next relies on; part of the invariant proved below.
  predicate WellFormed(s: State) {
    && s.taken <= |s.sent|
    && (Active(s.pc).Some? ==> Active(s.pc).value in s.runs.infos && Active(s.pc).value in s.facts)
  }

  function ReceiveNext(s: State): State
    requires s.taken < |s.sent|
  {
    var t := s.(taken := s.taken + 1);
    match s.sent[s.taken]
    case Shutdown => t.(pc := Stopped)
    case Run(id) =>
      if s.runs.Startable(id) then
        t.(runs := s.runs.Start(id), pc := PreCloneHook(id), facts := s.facts[id := NoFacts()])
      else t
  }

  // One step of process_queue on the run it works on.
  function Step(w: World, s: State): State
    requires Active(s.pc).Some? && WellFormed(s)
  {
    var id := Active(s.pc).value;
    var run, f := s.runs.infos[id], s.facts[id];
    match s.pc
    case PreCloneHook(_) =>
      if w.preClone(id) then s.(pc := ResolveBase(id)) else Fail(s, PreClone)
    case ResolveBase(_) =>
      var t := s.(facts := s.facts[id := f.(resolution := Some(LookNow(s)))]);
      if w.resolves(id) && s.base.At? then t.(pc := Prepare(id, s.base.commit)) else Fail(t, BaseResolve)
    case Prepare(_, base) =>
      var tested := w.integrate(id, base, run.candidate);
      if tested.None? then Fail(s, if w.mode == Rebase then TestRebase else TestMerge)
      else s.(pc := Check(id, base, tested.value))
    case Check(_, base, tested) =>
      (match w.check(id, base, tested)
       case CheckError => Fail(s, CheckFailed)
       case PostCloneFailed => Fail(s, PostClone)
       case JobsFailed => Fail(s, CheckFailed)
       case JobsPassed =>
         if run.noMerge then s.(pc := Record(id, Passed(NoMerge)))
         else s.(pc := PreMergeHook(id, base, tested)))
    case PreMergeHook(_, base, tested) =>
      if w.preMerge(id) then s.(pc := Publish(id, base, tested)) else Fail(s, PreMerge)
    case Publish(_, base, tested) =>
      var t := s.(facts := s.facts[id := f.(publication := Some(LookNow(s)))]);
      if !w.publishes(id) then Fail(t, MergeFailed) else PublishPrepared(w, t, id, base, tested)
    case VerifyTarget(_, _, tested, moved) =>
      var t := s.(facts := s.facts[id := f.(verification := Some(LookNow(s)))]);
      if w.identifies(id) && s.base == At(tested) then t.(pc := PostMergeHook(id, tested))
      else if moved then Fail(t, PublicationUnverified)
      else Fail(t, MergeFailed)
    case PostMergeHook(_, landed) =>
      s.(pc := Record(id, Passed(if w.mode == Rebase then Rebased else Merged)),
         facts := s.facts[id := f.(postMerge := Some(landed))])
    case Record(_, status) =>
      s.(runs := s.runs.Complete(id, run.(status := status, completed := true)), pc := Idle)
  }

  function Fail(s: State, reason: FailedReason): State
    requires Active(s.pc).Some?
  {
    s.(pc := Record(Active(s.pc).value, Failed(reason)))
  }

  function LookNow(s: State): Look {
    Look(|s.history|, s.base)
  }

  function PublishPrepared(w: World, s: State, id: RunId, expected: CommitId, prepared: CommitId): State
    requires Active(s.pc) == Some(id)
  {
    match TryMove(w.vcs, s.base, expected, prepared)
    case Refused => Fail(s, MergeFailed)
    case NothingToMove => s.(pc := VerifyTarget(id, expected, prepared, false))
    case Moved =>
      var t := s.(base := At(prepared), history := s.history + [Write(id, expected, prepared)]);
      if w.vcs == Git then t.(pc := PostMergeHook(id, prepared))
      else t.(pc := VerifyTarget(id, expected, prepared, true))
  }

  // ---- Invariants -----------------------------------------------------------------------

  predicate IsSent(s: State, id: RunId) {
    Run(id) in s.sent
  }

  // The registry and the processor agree.
  ghost predicate InvRegistry(s: State) {
    && s.runs.Valid()
    && (forall id | id in s.facts :: id in s.runs.infos)
    && (forall id | id in s.runs.infos :: id in s.facts <==> s.runs.infos[id].status != Queued)
    && (forall id | id in s.runs.infos :: s.runs.infos[id].status == Running <==> Active(s.pc) == Some(id))
    && (Active(s.pc).Some? ==> Active(s.pc).value in s.runs.infos)
  }

  // The channel and the registry agree: what has been taken is no longer queued, what has not
  // been taken still is, and no run is sent twice.
  ghost predicate InvChannel(s: State) {
    && s.taken <= |s.sent|
    && (forall i, j | 0 <= i < j < |s.sent| :: s.sent[i] != s.sent[j])
    && (forall id | id in s.unsent :: id in s.runs.infos && !IsSent(s, id) && s.runs.infos[id].status == Queued)
    && (forall i | 0 <= i < |s.sent| && s.sent[i].Run? ::
          && s.sent[i].id in s.runs.infos
          && (s.runs.infos[s.sent[i].id].status == Queued <==> s.taken <= i))
    && (Active(s.pc).Some? ==> s.taken > 0 && s.sent[s.taken - 1] == Run(Active(s.pc).value))
    && (s.pc.Stopped? ==> s.taken > 0 && s.sent[s.taken - 1] == Shutdown)
    && (!s.pc.Stopped? ==> forall i | 0 <= i < s.taken :: s.sent[i] != Shutdown)
  }

  predicate WasTaken(s: State, id: RunId) {
    exists i | 0 <= i < s.taken && i < |s.sent| :: s.sent[i] == Run(id)
  }

  // What has been started was taken from the channel.
  predicate InvStarted(s: State) {
    forall id | id in s.runs.infos && s.runs.infos[id].status != Queued :: WasTaken(s, id)
  }

  ghost predicate InvRuns(s: State) {
    InvRegistry(s) && InvChannel(s)
  }

  // ---- What the looks of a run mean -----------------------------------------------------

  // The base a run has resolved, and what it has integrated from it.
  function Resolved(w: World, id: RunId, f: Facts): Option<CommitId> {
    if f.resolution.Some? && w.resolves(id) && f.resolution.value.base.At?
    then Some(f.resolution.value.base.commit) else None
  }

  function Tested(w: World, run: RunInfo, f: Facts): Option<CommitId> {
    var resolved := Resolved(w, run.id, f);
    if resolved.Some? then w.integrate(run.id, resolved.value, run.candidate) else None
  }

  function VerdictOf(w: World, run: RunInfo, f: Facts): Option<Verdict> {
    var tested := Tested(w, run, f);
    if tested.Some? then Some(w.check(run.id, Resolved(w, run.id, f).value, tested.value)) else None
  }

  // The check has passed, and the run may be published.
  predicate Publishable(w: World, run: RunInfo, f: Facts) {
    w.preClone(run.id) && VerdictOf(w, run, f) == Some(JobsPassed) && !run.noMerge && w.preMerge(run.id)
  }

  // What the expected-old update does to the base that the publication finds.
  function MoveOf(w: World, run: RunInfo, f: Facts): Move
    requires f.publication.Some? && Tested(w, run, f).Some?
  {
    TryMove(w.vcs, f.publication.value.base, Resolved(w, run.id, f).value, Tested(w, run, f).value)
  }

  // The command that publishes was run and did this.
  predicate Published(w: World, run: RunInfo, f: Facts, move: Move) {
    && f.publication.Some? && Tested(w, run, f).Some?
    && w.publishes(run.id) && MoveOf(w, run, f) == move
  }

  predicate SeenAtTested(w: World, run: RunInfo, f: Facts)
    requires f.verification.Some?
  {
    w.identifies(run.id) && Tested(w, run, f).Some? && f.verification.value.base == At(Tested(w, run, f).value)
  }

  // The publication is verified: in Git by the write itself, in Jujutsu by the look after it.
  predicate IsVerified(w: World, run: RunInfo, f: Facts) {
    if w.vcs == Git then Published(w, run, f, Moved)
    else (Published(w, run, f, Moved) || Published(w, run, f, NothingToMove))
         && f.verification.Some? && SeenAtTested(w, run, f)
  }

  // The command that failed, or the success, that a terminal status stands for.
  predicate Explains(w: World, run: RunInfo, f: Facts, status: RunStatus) {
    match status
    case Failed(PreClone) => !w.preClone(run.id)
    case Failed(BaseResolve) =>
      && w.preClone(run.id) && f.resolution.Some?
      && (!w.resolves(run.id) || f.resolution.value.base.Unresolved?)
    case Failed(TestRebase) => w.mode == Rebase && Unintegrated(w, run, f)
    case Failed(TestMerge) => w.mode == Merge && Unintegrated(w, run, f)
    case Failed(PostClone) => w.preClone(run.id) && VerdictOf(w, run, f) == Some(PostCloneFailed)
    case Failed(CheckFailed) =>
      w.preClone(run.id) && (VerdictOf(w, run, f) == Some(CheckError) || VerdictOf(w, run, f) == Some(JobsFailed))
    case Failed(PreMerge) =>
      w.preClone(run.id) && VerdictOf(w, run, f) == Some(JobsPassed) && !run.noMerge && !w.preMerge(run.id)
    case Failed(MergeFailed) =>
      && Publishable(w, run, f) && f.publication.Some?
      && (|| !w.publishes(run.id)
          || Published(w, run, f, Refused)
          || (Published(w, run, f, NothingToMove) && f.verification.Some? && !SeenAtTested(w, run, f)))
    case Failed(PublicationUnverified) =>
      && Publishable(w, run, f) && w.vcs == Jujutsu && Published(w, run, f, Moved)
      && f.verification.Some? && !SeenAtTested(w, run, f)
    case Passed(NoMerge) => w.preClone(run.id) && VerdictOf(w, run, f) == Some(JobsPassed) && run.noMerge
    case Passed(Rebased) => w.mode == Rebase && Publishable(w, run, f) && IsVerified(w, run, f)
    case Passed(Merged) => w.mode == Merge && Publishable(w, run, f) && IsVerified(w, run, f)
    case _ => false
  }

  predicate Unintegrated(w: World, run: RunInfo, f: Facts) {
    w.preClone(run.id) && Resolved(w, run.id, f).Some? && Tested(w, run, f).None?
  }

  predicate ReportsLanding(status: RunStatus) {
    status == Passed(Merged) || status == Passed(Rebased)
  }

  // A run that is over: its status is explained, it has published only if it was to, and its
  // post-merge stage was run exactly if it reports a landing, for the tested commit.
  predicate Concluded(w: World, run: RunInfo, f: Facts, status: RunStatus) {
    && Explains(w, run, f, status)
    && (f.publication.Some? ==> Publishable(w, run, f))
    && f.postMerge == if ReportsLanding(status) then Tested(w, run, f) else None
  }

  // Where the processor is says what has happened.
  predicate AtStage(w: World, s: State, id: RunId)
    requires id in s.facts && id in s.runs.infos
  {
    var f, run := s.facts[id], s.runs.infos[id];
    match s.pc
    case PreCloneHook(_) => f == NoFacts()
    case ResolveBase(_) => f == NoFacts() && w.preClone(id)
    case Prepare(_, base) => NotPublished(f) && w.preClone(id) && Resolved(w, id, f) == Some(base)
    case Check(_, base, tested) => NotPublished(f) && w.preClone(id) && Integrated(w, run, f, base, tested)
    case PreMergeHook(_, base, tested) =>
      && NotPublished(f) && w.preClone(id) && Integrated(w, run, f, base, tested)
      && w.check(id, base, tested) == JobsPassed && !run.noMerge
    case Publish(_, base, tested) => NotPublished(f) && Integrated(w, run, f, base, tested) && Publishable(w, run, f)
    case VerifyTarget(_, base, tested, moved) =>
      && w.vcs == Jujutsu && Integrated(w, run, f, base, tested) && Publishable(w, run, f)
      && Published(w, run, f, if moved then Moved else NothingToMove)
      && f.verification.None? && f.postMerge.None?
    case PostMergeHook(_, landed) =>
      && Publishable(w, run, f) && IsVerified(w, run, f) && Tested(w, run, f) == Some(landed) && f.postMerge.None?
    case Record(_, status) => Concluded(w, run, f, status)
    case _ => true
  }

  predicate NotPublished(f: Facts) {
    f.publication.None? && f.verification.None? && f.postMerge.None?
  }

  predicate Integrated(w: World, run: RunInfo, f: Facts, base: CommitId, tested: CommitId) {
    Resolved(w, run.id, f) == Some(base) && Tested(w, run, f) == Some(tested)
  }

  predicate InvFacts(w: World, s: State) {
    && (Active(s.pc).Some? ==> Active(s.pc).value in s.facts && Active(s.pc).value in s.runs.infos
                               && AtStage(w, s, Active(s.pc).value))
    && (forall id | id in s.runs.infos && IsTerminal(s.runs.infos[id].status) ::
          id in s.facts && Concluded(w, s.runs.infos[id], s.facts[id], s.runs.infos[id].status))
  }

  // ---- The history of the base ----------------------------------------------------------

  predicate Wrote(history: seq<BaseEvent>, id: RunId) {
    exists i | 0 <= i < |history| :: history[i].Write? && history[i].run == id
  }

  // What the base is after these events.
  function BaseAfter(base: CommitId, history: seq<BaseEvent>): Target {
    if history == [] then At(base)
    else
      var last := history[|history| - 1];
      if last.External? then last.to else At(last.new_)
  }

  // A look saw what the base was then.
  predicate IsTrue(base: CommitId, history: seq<BaseEvent>, look: Option<Look>) {
    look.Some? ==> look.value.at <= |history| && BaseAfter(base, history[..look.value.at]) == look.value.base
  }

  predicate NotAfter(earlier: Option<Look>, later: Option<Look>) {
    later.Some? ==> earlier.Some? && earlier.value.at <= later.value.at
  }

  // The looks of a run are true and in order.
  predicate LooksAreTrue(base: CommitId, history: seq<BaseEvent>, f: Facts) {
    && IsTrue(base, history, f.resolution) && IsTrue(base, history, f.publication)
    && IsTrue(base, history, f.verification)
    && NotAfter(f.resolution, f.publication) && NotAfter(f.publication, f.verification)
  }

  // The event by which a run has written the base is the first one after its publication look.
  predicate IsOwnWrite(w: World, run: RunInfo, f: Facts, i: int, e: BaseEvent) {
    && e.Write? && Published(w, run, f, Moved) && f.publication.value.at == i
    && e == Write(run.id, Resolved(w, run.id, f).value, Tested(w, run, f).value)
  }

  // Each write of the queue is the own write of its run, and each run that has moved the base
  // has its own write in the history.
  ghost predicate InvBase(w: World, base: CommitId, s: State) {
    && s.base == BaseAfter(base, s.history)
    && (forall id | id in s.facts :: id in s.runs.infos && LooksAreTrue(base, s.history, s.facts[id]))
    && (forall i | 0 <= i < |s.history| && s.history[i].Write? ::
          var e := s.history[i];
          e.run in s.facts && e.run in s.runs.infos && IsOwnWrite(w, s.runs.infos[e.run], s.facts[e.run], i, e))
    && (forall id | id in s.facts && id in s.runs.infos && Published(w, s.runs.infos[id], s.facts[id], Moved) ::
          var i := s.facts[id].publication.value.at;
          i < |s.history| && IsOwnWrite(w, s.runs.infos[id], s.facts[id], i, s.history[i]))
  }

  ghost predicate Inv(w: World, base: CommitId, s: State) {
    InvRuns(s) && InvStarted(s) && InvFacts(w, s) && InvBase(w, base, s)
  }

  lemma InvInit(w: World, base: CommitId)
    ensures Inv(w, base, Init(base))
  {
  }

  lemma InvImpliesWellFormed(w: World, base: CommitId, s: State)
    requires Inv(w, base, s)
    ensures WellFormed(s)
  {
  }
}
