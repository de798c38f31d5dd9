// The queue processor as the imperative loop it is (src/cmd/mq.rs, process_queue), with other
// threads and writers acting between any two of its steps: what it does to registry, channel
// and repository is an execution of the protocol.
module QueueProcessor {
  import opened Prelude
  import opened RunRegistry
  import opened Publication
  import opened MergeQueue
  import opened MergeQueueProofs
  import opened MergeQueueTheorems
  import opened MergeQueueFold

  // The channel to the processor, and the runs that are queued and not sent yet.
  class Queue {
    var sent: seq<Message>
    var taken: nat
    var unsent: set<RunId>

    constructor ()
      ensures sent == [] && taken == 0 && unsent == {}
    {
      sent, taken, unsent := [], 0, {};
    }
  }

  datatype Daemon = Daemon(mq: MQState, repo: Repository, queue: Queue)

  // The daemon is in this state of the protocol, as far as others can see.
  ghost predicate Mirrors(d: Daemon, s: State)
    reads d.mq, d.repo, d.queue
  {
    && d.mq.State() == s.runs && d.repo.base == s.base
    && d.queue.sent == s.sent && d.queue.taken == s.taken && d.queue.unsent == s.unsent
  }

  // ---- The others -----------------------------------------------------------------------

  predicate ByOthers(a: Action) {
    !a.Receive? && !a.Proceed?
  }

  // What others do before the processor's next step; what is not possible is not done.
  function OthersDo(w: World, s: State, acts: seq<Action>): (t: State)
    requires WellFormed(s)
    ensures WellFormed(t) && t.pc == s.pc && t.taken == s.taken && s.sent <= t.sent
    ensures forall id | id in s.runs.infos && id in s.facts :: id in t.runs.infos && id in t.facts
    decreases |acts|
  {
    if acts == [] then s
    else if ByOthers(acts[0]) && Enabled(s, acts[0]) then OthersDo(w, Next(w, s, acts[0]), acts[1..])
    else OthersDo(w, s, acts[1..])
  }

  // They leave the records of known runs alone.
  lemma {:induction false} OthersKeepRecords(w: World, s: State, acts: seq<Action>, id: RunId)
    requires WellFormed(s) && id in s.runs.infos && id < s.runs.nextId
    ensures var t := OthersDo(w, s, acts);
            id in t.runs.infos && t.runs.infos[id] == s.runs.infos[id] && id < t.runs.nextId
    decreases |acts|
  {
    if acts != [] {
      if ByOthers(acts[0]) && Enabled(s, acts[0]) {
        OthersKeepRecords(w, Next(w, s, acts[0]), acts[1..], id);
      } else {
        OthersKeepRecords(w, s, acts[1..], id);
      }
    }
  }

  method OthersAct(d: Daemon, w: World, acts: seq<Action>, ghost s: State)
    requires d.mq.Valid() && WellFormed(s) && !s.pc.Stopped? && Mirrors(d, s)
    modifies d.mq, d.repo`base, d.queue
    ensures d.mq.Valid() && Mirrors(d, OthersDo(w, s, acts))
  {
    ghost var now := s;
    for i := 0 to |acts|
      invariant d.mq.Valid() && WellFormed(now) && now.pc == s.pc && Mirrors(d, now)
      invariant OthersDo(w, now, acts[i..]) == OthersDo(w, s, acts)
    {
      assert acts[i..][0] == acts[i] && acts[i..][1..] == acts[i + 1..];
      ghost var before := now;
      if ByOthers(acts[i]) && Enabled(before, acts[i]) {
        now := Next(w, before, acts[i]);
      }
      OtherActs(d, w, acts[i], before);
    }
    assert acts[|acts|..] == [];
  }

  method OtherActs(d: Daemon, w: World, a: Action, ghost s: State)
    requires d.mq.Valid() && WellFormed(s) && !s.pc.Stopped? && Mirrors(d, s)
    modifies d.mq, d.repo`base, d.queue
    ensures d.mq.Valid() && Mirrors(d, if ByOthers(a) && Enabled(s, a) then Next(w, s, a) else s)
  {
    match a
    case Submit(candidate, noMerge) =>
      var run := d.mq.QueueRun(candidate, noMerge);
      d.queue.unsent := d.queue.unsent + {run.id};
    case Send(id) =>
      if id in d.queue.unsent {
        d.queue.unsent := d.queue.unsent - {id};
        d.queue.sent := d.queue.sent + [Run(id)];
      }
    case SendMarker =>
      if Shutdown !in d.queue.sent {
        d.queue.sent := d.queue.sent + [Shutdown];
      }
    case MoveBase(to) =>
      d.repo.Interfere(Some(to));
    case Receive =>
    case Proceed =>
  }

  // ---- One run --------------------------------------------------------------------------

  // How many steps a run takes at most from here.
  function Left(pc: Pc): nat {
    match pc
    case PreCloneHook(_) => 9
    case ResolveBase(_) => 8
    case Prepare(_, _) => 7
    case Check(_, _, _) => 6
    case PreMergeHook(_, _, _) => 5
    case Publish(_, _, _) => 4
    case VerifyTarget(_, _, _, _) => 3
    case PostMergeHook(_, _) => 2
    case Record(_, _) => 1
    case Idle => 0
    case Stopped => 0
  }

  lemma StepLeavesLess(w: World, s: State)
    requires WellFormed(s) && Active(s.pc).Some?
    ensures Left(Step(w, s).pc) < Left(s.pc) && WellFormed(Step(w, s))
  {
    StepShape(w, s);
    var id := Active(s.pc).value;
    assert Step(w, s).runs.infos.Keys == s.runs.infos.Keys;
    assert id in Step(w, s).facts.Keys;
  }

  // What others do in the k-th pause of the processor.
  function Pause(others: seq<seq<Action>>, k: nat): seq<Action> {
    if k < |others| then others[k] else []
  }

  // The processor's next step, after its k-th pause.
  function PausedStep(w: World, s: State, others: seq<seq<Action>>, k: nat): State
    requires WellFormed(s) && Active(s.pc).Some?
  {
    Step(w, OthersDo(w, s, Pause(others, k)))
  }

  lemma PausedStepShape(w: World, s: State, others: seq<seq<Action>>, k: nat)
    requires WellFormed(s) && Active(s.pc).Some?
    ensures var t := PausedStep(w, s, others, k);
            && WellFormed(t) && Left(t.pc) < Left(s.pc) && t.taken == s.taken && s.sent <= t.sent
            && (k >= |others| ==> t.sent == s.sent) && !t.pc.Stopped?
            && (if s.pc.Record? then t.pc.Idle? else Active(t.pc) == Active(s.pc))
  {
    var paused := OthersDo(w, s, Pause(others, k));
    StepLeavesLess(w, paused);
    StepShape(w, paused);
  }

  // The steps of the processor until the run it works on is recorded, and the pauses taken.
  function Finish(w: World, s: State, others: seq<seq<Action>>, k: nat): (State, nat)
    requires WellFormed(s)
    decreases Left(s.pc)
  {
    if Active(s.pc).None? then (s, k)
    else
      PausedStepShape(w, s, others, k);
      Finish(w, PausedStep(w, s, others, k), others, k + 1)
  }

  lemma {:induction false} FinishShape(w: World, s: State, others: seq<seq<Action>>, k: nat)
    requires WellFormed(s) && !s.pc.Stopped?
    ensures var (t, n) := Finish(w, s, others, k);
            && WellFormed(t) && t.pc.Idle? && n >= k && t.taken == s.taken && s.sent <= t.sent
            && (k >= |others| ==> t.sent == s.sent)
    decreases Left(s.pc)
  {
    if Active(s.pc).Some? {
      PausedStepShape(w, s, others, k);
      FinishShape(w, PausedStep(w, s, others, k), others, k + 1);
    }
  }

  // The same until it is about to be recorded.
  function ToRecord(w: World, s: State, others: seq<seq<Action>>, k: nat): (State, nat)
    requires WellFormed(s) && Active(s.pc).Some?
    decreases Left(s.pc)
  {
    if s.pc.Record? then (s, k)
    else
      PausedStepShape(w, s, others, k);
      ToRecord(w, PausedStep(w, s, others, k), others, k + 1)
  }

  lemma {:induction false} FinishFromRecord(w: World, s: State, others: seq<seq<Action>>, k: nat)
    requires WellFormed(s) && Active(s.pc).Some?
    ensures var (t, n) := ToRecord(w, s, others, k);
            WellFormed(t) && Finish(w, s, others, k) == Finish(w, t, others, n)
    decreases Left(s.pc)
  {
    if !s.pc.Record? {
      PausedStepShape(w, s, others, k);
      FinishFromRecord(w, PausedStep(w, s, others, k), others, k + 1);
    }
  }

  // The run that the processor works on has this record, in this state of the protocol.
  ghost predicate WorksOn(s: State, taken: RunInfo) {
    && WellFormed(s) && Active(s.pc) == Some(taken.id)
    && taken.id < s.runs.nextId && s.runs.infos[taken.id] == taken
  }

  // One pause and one step of the processor, short of the record.
  lemma OnTheWay(w: World, s: State, others: seq<seq<Action>>, k: nat, taken: RunInfo)
    requires WorksOn(s, taken) && !s.pc.Record?
    ensures var paused, t := OthersDo(w, s, Pause(others, k)), PausedStep(w, s, others, k);
            && WorksOn(paused, taken) && paused.pc == s.pc
            && WorksOn(t, taken) && t == Step(w, paused)
            && ToRecord(w, s, others, k) == ToRecord(w, t, others, k + 1)
            && (t.pc.Record? ==> ToRecord(w, t, others, k + 1) == (t, k + 1))
  {
    OthersKeepRecords(w, s, Pause(others, k), taken.id);
    PausedStepShape(w, s, others, k);
    StepShape(w, OthersDo(w, s, Pause(others, k)));
  }

  // The outcome of a run before it is recorded: the daemon is where the protocol is about to
  // record this status.
  ghost predicate Concludes(
      d: Daemon, w: World, s: State, others: seq<seq<Action>>, k: nat, taken: RunInfo, status: RunStatus, n: nat)
    requires WellFormed(s) && Active(s.pc).Some?
    reads d.mq, d.repo, d.queue
  {
    var (t, m) := ToRecord(w, s, others, k);
    d.mq.Valid() && IsTerminal(status) && WorksOn(t, taken) && t.pc == MergeQueue.Record(taken.id, status) && m == n
    && Mirrors(d, t)
  }

  lemma AfterPostMergeHook(w: World, s: State, taken: RunInfo)
    requires WorksOn(s, taken) && s.pc.PostMergeHook?
    ensures var t := Step(w, s);
            && t.pc == MergeQueue.Record(taken.id, Passed(if w.mode == Rebase then Rebased else Merged))
            && t.runs == s.runs && t.base == s.base && t.sent == s.sent && t.taken == s.taken && t.unsent == s.unsent
  {
  }

  // The post-merge hook, whose result does not change the status.
  method RunPostMergeHook(d: Daemon, w: World, taken: RunInfo, others: seq<seq<Action>>, k: nat, ghost s: State)
      returns (status: RunStatus, n: nat)
    requires d.mq.Valid() && Mirrors(d, s)
    requires WorksOn(s, taken) && s.pc.PostMergeHook?
    modifies d.mq, d.repo`base, d.queue
    ensures Concludes(d, w, s, others, k, taken, status, n)
  {
    OnTheWay(w, s, others, k, taken);
    OthersAct(d, w, Pause(others, k), s);
    AfterPostMergeHook(w, OthersDo(w, s, Pause(others, k)), taken);
    return Passed(if w.mode == Rebase then Rebased else Merged), k + 1;
  }

  method VerifyRun(
      d: Daemon, w: World, taken: RunInfo, base: CommitId, tested: CommitId, move: Move, others: seq<seq<Action>>,
      k: nat, ghost s: State)
      returns (status: RunStatus, n: nat)
    requires d.mq.Valid() && Mirrors(d, s)
    requires WorksOn(s, taken) && s.pc == VerifyTarget(taken.id, base, tested, move == Moved)
    modifies d.mq, d.repo`base, d.queue
    ensures Concludes(d, w, s, others, k, taken, status, n)
  {
    OnTheWay(w, s, others, k, taken);
    OthersAct(d, w, Pause(others, k), s);
    ghost var t := PausedStep(w, s, others, k);
    n := k + 1;
    var outcome := d.repo.Verify(tested, move, w.identifies(taken.id));
    if outcome.Err? {
      return Failed(MergeFailed), n;
    }
    if outcome.value.AppliedUnverified? {
      return Failed(PublicationUnverified), n;
    }
    status, n := RunPostMergeHook(d, w, taken, others, n, t);
  }

  method PublishRun(
      d: Daemon, w: World, taken: RunInfo, base: CommitId, tested: CommitId, others: seq<seq<Action>>, k: nat,
      ghost s: State)
      returns (status: RunStatus, n: nat)
    requires d.mq.Valid() && d.repo.vcs == w.vcs && Mirrors(d, s)
    requires WorksOn(s, taken) && s.pc == MergeQueue.Publish(taken.id, base, tested)
    modifies d.mq, d.repo`base, d.queue
    ensures Concludes(d, w, s, others, k, taken, status, n)
  {
    OnTheWay(w, s, others, k, taken);
    OthersAct(d, w, Pause(others, k), s);
    ghost var t := PausedStep(w, s, others, k);
    n := k + 1;
    var published := d.repo.Publish(base, tested, w.publishes(taken.id));
    if published.Err? {
      return Failed(MergeFailed), n;
    }
    if d.repo.vcs == Git {
      status, n := RunPostMergeHook(d, w, taken, others, n, t);
    } else {
      status, n := VerifyRun(d, w, taken, base, tested, published.value, others, n, t);
    }
  }

  // From the integration to the status: check, hook and publication.
  method CheckRun(
      d: Daemon, w: World, taken: RunInfo, base: CommitId, tested: CommitId, others: seq<seq<Action>>, k: nat,
      ghost s: State)
      returns (status: RunStatus, n: nat)
    requires d.mq.Valid() && d.repo.vcs == w.vcs && Mirrors(d, s)
    requires WorksOn(s, taken) && s.pc == MergeQueue.Check(taken.id, base, tested)
    modifies d.mq, d.repo`base, d.queue
    ensures Concludes(d, w, s, others, k, taken, status, n)
  {
    OnTheWay(w, s, others, k, taken);
    OthersAct(d, w, Pause(others, k), s);
    ghost var t := PausedStep(w, s, others, k);
    n := k + 1;
    var verdict := w.check(taken.id, base, tested);
    if verdict == CheckError {
      return Failed(CheckFailed), n;
    }
    if verdict == PostCloneFailed {
      return Failed(PostClone), n;
    }
    if verdict == JobsFailed {
      return Failed(CheckFailed), n;
    }
    if taken.noMerge {
      return Passed(NoMerge), n;
    }
    OnTheWay(w, t, others, n, taken);
    OthersAct(d, w, Pause(others, n), t);
    ghost var u := PausedStep(w, t, others, n);
    n := n + 1;
    if !w.preMerge(taken.id) {
      return Failed(PreMerge), n;
    }
    status, n := PublishRun(d, w, taken, base, tested, others, n, u);
  }

  // From the resolved base to the status.
  method PrepareRun(
      d: Daemon, w: World, taken: RunInfo, base: CommitId, others: seq<seq<Action>>, k: nat, ghost s: State)
      returns (status: RunStatus, n: nat)
    requires d.mq.Valid() && d.repo.vcs == w.vcs && Mirrors(d, s)
    requires WorksOn(s, taken) && s.pc == Prepare(taken.id, base)
    modifies d.mq, d.repo`base, d.queue
    ensures Concludes(d, w, s, others, k, taken, status, n)
  {
    OnTheWay(w, s, others, k, taken);
    OthersAct(d, w, Pause(others, k), s);
    ghost var t := PausedStep(w, s, others, k);
    n := k + 1;
    var tested := w.integrate(taken.id, base, taken.candidate);
    if tested.None? {
      return Failed(if w.mode == Rebase then TestRebase else TestMerge), n;
    }
    status, n := CheckRun(d, w, taken, base, tested.value, others, n, t);
  }

  // From the pre-clone hook to the status.
  method WorkOnRun(d: Daemon, w: World, taken: RunInfo, others: seq<seq<Action>>, k: nat, ghost s: State)
      returns (status: RunStatus, n: nat)
    requires d.mq.Valid() && d.repo.vcs == w.vcs && Mirrors(d, s)
    requires WorksOn(s, taken) && s.pc == PreCloneHook(taken.id)
    modifies d.mq, d.repo`base, d.queue
    ensures Concludes(d, w, s, others, k, taken, status, n)
  {
    var id := taken.id;
    OnTheWay(w, s, others, k, taken);
    OthersAct(d, w, Pause(others, k), s);
    ghost var s1 := PausedStep(w, s, others, k);
    n := k + 1;
    if !w.preClone(id) {
      return Failed(PreClone), n;
    }
    OnTheWay(w, s1, others, n, taken);
    OthersAct(d, w, Pause(others, n), s1);
    ghost var s2 := PausedStep(w, s1, others, n);
    n := n + 1;
    if !w.resolves(id) || d.repo.base.Unresolved? {
      return Failed(BaseResolve), n;
    }
    status, n := PrepareRun(d, w, taken, d.repo.base.commit, others, n, s2);
  }

  method RecordOutcome(
      d: Daemon, w: World, taken: RunInfo, status: RunStatus, others: seq<seq<Action>>, k: nat, ghost s: State)
    requires d.mq.Valid() && Mirrors(d, s) && IsTerminal(status) && taken.status == Running
    requires WorksOn(s, taken) && s.pc == MergeQueue.Record(taken.id, status)
    modifies d.mq, d.repo`base, d.queue
    ensures d.mq.Valid() && Mirrors(d, PausedStep(w, s, others, k))
  {
    OthersKeepRecords(w, s, Pause(others, k), taken.id);
    OthersAct(d, w, Pause(others, k), s);
    d.mq.CompleteRun(taken.id, taken.(status := status, completed := true));
  }

  // One run, from its taking from the channel to its record.
  method ProcessRun(d: Daemon, w: World, taken: RunInfo, others: seq<seq<Action>>, k: nat, ghost s: State)
      returns (n: nat)
    requires d.mq.Valid() && d.repo.vcs == w.vcs && Mirrors(d, s)
    requires WorksOn(s, taken) && s.pc == PreCloneHook(taken.id) && taken.status == Running
    modifies d.mq, d.repo`base, d.queue
    ensures d.mq.Valid() && Mirrors(d, Finish(w, s, others, k).0) && n == Finish(w, s, others, k).1
  {
    var status;
    status, n := WorkOnRun(d, w, taken, others, k, s);
    FinishFromRecord(w, s, others, k);
    ghost var t := ToRecord(w, s, others, k).0;
    PausedStepShape(w, t, others, n);
    assert Finish(w, t, others, n) == (PausedStep(w, t, others, n), n + 1);
    RecordOutcome(d, w, taken, status, others, n, t);
    n := n + 1;
  }

  // ---- The loop -------------------------------------------------------------------------

  // One turn of the loop: the state it leads to, the pauses taken, and whether it is the last.
  // It is if it gets the shutdown marker, or has to wait for a message when the others are done.
  function Turn(w: World, s: State, others: seq<seq<Action>>, k: nat): (State, nat, bool)
    requires WellFormed(s) && s.pc.Idle?
  {
    var t := OthersDo(w, s, Pause(others, k));
    if t.taken == |t.sent| then (t, k + 1, k + 1 >= |others|)
    else
      var u := ReceiveNext(t);
      if u.pc.Stopped? then (u, k + 1, true)
      else
        var (v, n) := Finish(w, u, others, k + 1);
        (v, n, false)
  }

  // A turn that is not the last takes a pause of the others or a message.
  lemma TurnShape(w: World, s: State, others: seq<seq<Action>>, k: nat)
    requires WellFormed(s) && s.pc.Idle?
    ensures var (t, n, last) := Turn(w, s, others, k);
            && WellFormed(t) && n > k
            && (!last ==> t.pc.Idle? && (k >= |others| ==> |t.sent| - t.taken < |s.sent| - s.taken))
            && (last ==> Active(t.pc).None?)
  {
    var t := OthersDo(w, s, Pause(others, k));
    if t.taken < |t.sent| && t.sent[t.taken].Run? {
      FinishShape(w, ReceiveNext(t), others, k + 1);
    }
  }

  // The state in which the loop is left, and the pauses taken.
  function Loop(w: World, s: State, others: seq<seq<Action>>, k: nat): (State, nat)
    requires WellFormed(s) && s.pc.Idle?
    decreases if k < |others| then |others| - k else 0, |s.sent| - s.taken
  {
    TurnShape(w, s, others, k);
    var (t, n, last) := Turn(w, s, others, k);
    if last then (t, n) else Loop(w, t, others, n)
  }

  // The loop is left for one of two reasons only.
  predicate IsLeft(sent: seq<Message>, taken: nat, others: seq<seq<Action>>, n: nat) {
    || (0 < taken <= |sent| && sent[taken - 1] == Shutdown)
    || (taken == |sent| && n >= |others|)
  }

  // It takes every message up to the shutdown marker, or else everything that is ever sent.
  lemma {:induction false} LoopTakesEverything(w: World, s: State, others: seq<seq<Action>>, k: nat)
    requires WellFormed(s) && s.pc.Idle?
    ensures var (t, n) := Loop(w, s, others, k);
            IsLeft(t.sent, t.taken, others, n) && s.taken <= t.taken && s.sent <= t.sent
    decreases if k < |others| then |others| - k else 0, |s.sent| - s.taken
  {
    TurnShape(w, s, others, k);
    var (t, n, last) := Turn(w, s, others, k);
    TurnGoesOn(w, s, others, k);
    if !last {
      LoopTakesEverything(w, t, others, n);
    }
  }

  lemma TurnGoesOn(w: World, s: State, others: seq<seq<Action>>, k: nat)
    requires WellFormed(s) && s.pc.Idle?
    ensures var (t, n, last) := Turn(w, s, others, k);
            && s.taken <= t.taken && s.sent <= t.sent
            && (last ==> IsLeft(t.sent, t.taken, others, n))
  {
    var t := OthersDo(w, s, Pause(others, k));
    if t.taken < |t.sent| && t.sent[t.taken].Run? {
      FinishShape(w, ReceiveNext(t), others, k + 1);
    }
  }

  // A run that was taken from the channel: it is worked on if it is still queued.
  method HandleRun(d: Daemon, w: World, id: RunId, others: seq<seq<Action>>, k: nat, ghost s: State) returns (n: nat)
    requires d.mq.Valid() && d.repo.vcs == w.vcs
    requires WellFormed(s) && s.pc.Idle? && s.taken < |s.sent| && s.sent[s.taken] == Run(id)
    requires Mirrors(d, s.(taken := s.taken + 1))
    modifies d.mq, d.repo`base, d.queue
    ensures d.mq.Valid()
    ensures var t := ReceiveNext(s);
            Mirrors(d, Finish(w, t, others, k).0) && n == Finish(w, t, others, k).1
  {
    ghost var t := ReceiveNext(s);
    n := k;
    var run := d.mq.StartRun(id);
    if run.Some? {
      n := ProcessRun(d, w, run.value, others, k, t);
    }
  }

  method TakeTurn(d: Daemon, w: World, others: seq<seq<Action>>, k: nat, ghost s: State) returns (n: nat, last: bool)
    requires d.mq.Valid() && d.repo.vcs == w.vcs && Mirrors(d, s)
    requires WellFormed(s) && s.pc.Idle?
    modifies d.mq, d.repo`base, d.queue
    ensures d.mq.Valid() && Mirrors(d, Turn(w, s, others, k).0)
    ensures n == Turn(w, s, others, k).1 && last == Turn(w, s, others, k).2
  {
    OthersAct(d, w, Pause(others, k), s);
    ghost var paused := OthersDo(w, s, Pause(others, k));
    if d.queue.taken == |d.queue.sent| {
      return k + 1, k + 1 >= |others|;
    }
    var message := d.queue.sent[d.queue.taken];
    d.queue.taken := d.queue.taken + 1;
    if message.Shutdown? {
      return k + 1, true;
    }
    n := HandleRun(d, w, message.id, others, k + 1, paused);
    last := false;
  }

  // It is left when it has received the marker, or everything that is ever sent.
  method ProcessQueue(d: Daemon, w: World, others: seq<seq<Action>>, ghost s: State) returns (k: nat)
    requires d.mq.Valid() && d.repo.vcs == w.vcs && Mirrors(d, s)
    requires WellFormed(s) && s.pc.Idle?
    modifies d.mq, d.repo`base, d.queue
    ensures d.mq.Valid() && Mirrors(d, Loop(w, s, others, 0).0) && k == Loop(w, s, others, 0).1
    ensures IsLeft(d.queue.sent, d.queue.taken, others, k)
  {
    ghost var now := s;
    var last := false;
    k := 0;
    while !last
      invariant d.mq.Valid() && Mirrors(d, now)
      invariant WellFormed(now)
      invariant if last then (now, k) == Loop(w, s, others, 0)
                else now.pc.Idle? && Loop(w, now, others, k) == Loop(w, s, others, 0)
      decreases !last, if k < |others| then |others| - k else 0, |now.sent| - now.taken
    {
      TurnShape(w, now, others, k);
      ghost var next := Turn(w, now, others, k).0;
      k, last := TakeTurn(d, w, others, k, now);
      now := next;
    }
    LoopTakesEverything(w, s, others, 0);
  }

  // ---- The loop as part of the protocol -------------------------------------------------

  lemma {:induction false} OthersLead(w: World, s: State, acts: seq<Action>)
    requires WellFormed(s)
    ensures Leads(w, s, OthersDo(w, s, acts))
    decreases |acts|
  {
    if acts == [] {
      LeadsNowhere(w, s);
    } else if ByOthers(acts[0]) && Enabled(s, acts[0]) {
      LeadsByStep(w, s, acts[0]);
      OthersLead(w, Next(w, s, acts[0]), acts[1..]);
      LeadsOn(w, s, Next(w, s, acts[0]), OthersDo(w, s, acts));
    } else {
      OthersLead(w, s, acts[1..]);
    }
  }

  lemma {:induction false} FinishLeads(w: World, s: State, others: seq<seq<Action>>, k: nat)
    requires WellFormed(s)
    ensures Leads(w, s, Finish(w, s, others, k).0)
    decreases Left(s.pc)
  {
    if Active(s.pc).None? {
      LeadsNowhere(w, s);
    } else {
      var paused, t := OthersDo(w, s, Pause(others, k)), PausedStep(w, s, others, k);
      PausedStepShape(w, s, others, k);
      OthersLead(w, s, Pause(others, k));
      LeadsByStep(w, paused, Proceed);
      LeadsOn(w, s, paused, t);
      FinishLeads(w, t, others, k + 1);
      LeadsOn(w, s, t, Finish(w, s, others, k).0);
    }
  }

  lemma TurnLeads(w: World, s: State, others: seq<seq<Action>>, k: nat)
    requires WellFormed(s) && s.pc.Idle?
    ensures Leads(w, s, Turn(w, s, others, k).0)
  {
    var t := OthersDo(w, s, Pause(others, k));
    OthersLead(w, s, Pause(others, k));
    if t.taken < |t.sent| {
      var u := ReceiveNext(t);
      LeadsByStep(w, t, Receive);
      LeadsOn(w, s, t, u);
      if !u.pc.Stopped? {
        FinishLeads(w, u, others, k + 1);
        LeadsOn(w, s, u, Finish(w, u, others, k + 1).0);
      }
    }
  }

  lemma {:induction false} LoopLeads(w: World, s: State, others: seq<seq<Action>>, k: nat)
    requires WellFormed(s) && s.pc.Idle?
    ensures Leads(w, s, Loop(w, s, others, k).0)
    ensures Active(Loop(w, s, others, k).0.pc).None?
    decreases if k < |others| then |others| - k else 0, |s.sent| - s.taken
  {
    TurnShape(w, s, others, k);
    TurnLeads(w, s, others, k);
    var (t, n, last) := Turn(w, s, others, k);
    if !last {
      LoopLeads(w, t, others, n);
      LeadsOn(w, s, t, Loop(w, s, others, k).0);
    }
  }

  // What the loop leaves behind is reachable in the protocol, whatever others do meanwhile;
  // and if nobody else has written the base, it is the sequential fold of everything received.
  lemma LoopIsAnExecution(w: World, base: CommitId, s: State, others: seq<seq<Action>>)
    requires Reachable(w, base, s) && WellFormed(s) && s.pc.Idle?
    ensures var t := Loop(w, s, others, 0).0;
            && Reachable(w, base, t) && Active(t.pc).None?
            && (Undisturbed(t.history) ==>
                  && t.taken <= |t.sent| && Known(t.runs.infos, t.sent[..t.taken])
                  && t.base == At(Fold(w, t.runs.infos, base, t.sent[..t.taken])))
  {
    var t := Loop(w, s, others, 0).0;
    LoopLeads(w, s, others, 0);
    LeadsOn(w, Init(base), s, t);
    if Undisturbed(t.history) {
      QueueRefinesSequentialFold(w, base, t);
    }
  }

  // When the loop has been left, every run sent before the marker is terminal, or every run
  // that was sent if there is none.
  lemma EverythingSentIsDone(w: World, base: CommitId, s: State, others: seq<seq<Action>>, i: nat)
    requires Reachable(w, base, s) && WellFormed(s) && s.pc.Idle?
    requires var t := Loop(w, s, others, 0).0;
             i < |t.sent| && t.sent[i].Run? && Shutdown !in t.sent[..i]
    ensures var t := Loop(w, s, others, 0).0;
            && t.sent[i].id in t.runs.infos && IsTerminal(t.runs.infos[t.sent[i].id].status)
            && i < t.taken
  {
    var t := Loop(w, s, others, 0).0;
    LoopTakesEverything(w, s, others, 0);
    LoopIsAnExecution(w, base, s, others);
    ReachableInv(w, base, t);
    forall j | 0 <= j < i ensures t.sent[j] != Shutdown {
      assert t.sent[..i][j] in t.sent[..i];
    }
  }

  // ---- What others do -------------------------------------------------------------------

  // Whatever others do in a pause, as far as it is possible, is done, in their order.
  lemma {:induction false} OthersDoAll(w: World, s: State, acts: seq<Action>)
    requires Possible(w, s, acts) && WellFormed(s) && forall a | a in acts :: ByOthers(a)
    ensures OthersDo(w, s, acts) == After(w, s, acts)
    decreases |acts|
  {
    if acts != [] {
      assert acts[0] in acts && forall a | a in acts[1..] :: a in acts;
      var next := Next(w, s, acts[0]);
      assert OthersDo(w, s, [acts[0]]) == OthersDo(w, next, []);
      OthersDoAll(w, next, acts[1..]);
    }
  }

  // A run that is queued and sent in some pause is there, and stays what it was asked to be.
  lemma SubmissionArrives(w: World, s: State, candidate: CommitId, noMerge: bool)
    requires WellFormed(s) && s.runs.Valid() && !s.pc.Stopped?
    ensures var id, t := s.runs.nextId, OthersDo(w, s, [Submit(candidate, noMerge), Send(s.runs.nextId)]);
            && t.sent == s.sent + [Run(id)] && id in t.runs.infos
            && t.runs.infos[id] == RunInfo(id, candidate, noMerge, Queued, false, false)
  {
    var id := s.runs.nextId;
    var s1 := Next(w, s, Submit(candidate, noMerge));
    var s2 := Next(w, s1, Send(id));
    assert [Submit(candidate, noMerge), Send(id)][1..] == [Send(id)] && [Send(id)][1..] == [];
    assert OthersDo(w, s1, [Send(id)]) == OthersDo(w, s2, []) == s2;
  }

  // ---- Without others -------------------------------------------------------------------

  predicate OnlyAppends(acts: seq<Action>) {
    forall a | a in acts :: !a.MoveBase?
  }

  lemma {:induction false} OthersDoNotDisturb(w: World, s: State, acts: seq<Action>)
    requires WellFormed(s) && OnlyAppends(acts) && Undisturbed(s.history)
    ensures Undisturbed(OthersDo(w, s, acts).history)
    decreases |acts|
  {
    if acts != [] {
      assert acts[0] in acts && forall a | a in acts[1..] :: a in acts;
      if ByOthers(acts[0]) && Enabled(s, acts[0]) {
        OthersDoNotDisturb(w, Next(w, s, acts[0]), acts[1..]);
      } else {
        OthersDoNotDisturb(w, s, acts[1..]);
      }
    }
  }

  lemma StepDoesNotDisturb(w: World, s: State)
    requires WellFormed(s) && Active(s.pc).Some? && Undisturbed(s.history)
    ensures Undisturbed(Step(w, s).history)
  {
    StepShape(w, s);
    if s.pc.Publish? {
      PublishShape(w, s);
    }
  }

  lemma {:induction false} FinishDoesNotDisturb(w: World, s: State, others: seq<seq<Action>>, k: nat)
    requires WellFormed(s) && Undisturbed(s.history) && forall acts | acts in others :: OnlyAppends(acts)
    ensures Undisturbed(Finish(w, s, others, k).0.history)
    decreases Left(s.pc)
  {
    if Active(s.pc).Some? {
      var paused := OthersDo(w, s, Pause(others, k));
      PausedStepShape(w, s, others, k);
      OthersDoNotDisturb(w, s, Pause(others, k));
      StepDoesNotDisturb(w, paused);
      FinishDoesNotDisturb(w, PausedStep(w, s, others, k), others, k + 1);
    }
  }

  lemma TurnDoesNotDisturb(w: World, s: State, others: seq<seq<Action>>, k: nat)
    requires WellFormed(s) && s.pc.Idle? && Undisturbed(s.history)
    requires forall acts | acts in others :: OnlyAppends(acts)
    ensures Undisturbed(Turn(w, s, others, k).0.history)
  {
    var t := OthersDo(w, s, Pause(others, k));
    OthersDoNotDisturb(w, s, Pause(others, k));
    if t.taken < |t.sent| && t.sent[t.taken].Run? {
      FinishDoesNotDisturb(w, ReceiveNext(t), others, k + 1);
    }
  }

  // If the others only queue runs and ask for the shutdown, nobody but the queue writes.
  lemma {:induction false} LoopDoesNotDisturb(w: World, s: State, others: seq<seq<Action>>, k: nat)
    requires WellFormed(s) && s.pc.Idle? && Undisturbed(s.history)
    requires forall acts | acts in others :: OnlyAppends(acts)
    ensures Undisturbed(Loop(w, s, others, k).0.history)
    decreases if k < |others| then |others| - k else 0, |s.sent| - s.taken
  {
    TurnShape(w, s, others, k);
    TurnDoesNotDisturb(w, s, others, k);
    var (t, n, last) := Turn(w, s, others, k);
    if !last {
      LoopDoesNotDisturb(w, t, others, n);
    }
  }
}
