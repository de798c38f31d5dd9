// Without other writers, the queue is a sequential fold over its channel.
module MergeQueueFold {
  import opened Prelude
  import opened RunRegistry
  import opened Publication
  import opened MergeQueue
  import opened MergeQueueProofs
  import opened MergeQueueTheorems

  predicate Undisturbed(history: seq<BaseEvent>) {
    forall i | 0 <= i < |history| :: history[i].Write?
  }

  // One run on its own: integrate, check, and advance the base if it passes and may land.
  function Advanced(w: World, run: RunInfo, base: CommitId): CommitId {
    if !w.preClone(run.id) || !w.resolves(run.id) then base
    else
      var tested := w.integrate(run.id, base, run.candidate);
      if || tested.None?
         || w.check(run.id, base, tested.value) != JobsPassed
         || run.noMerge
         || !w.preMerge(run.id)
         || !w.publishes(run.id)
      then base
      else tested.value
  }

  predicate Known(infos: map<RunId, RunInfo>, messages: seq<Message>) {
    forall i | 0 <= i < |messages| && messages[i].Run? :: messages[i].id in infos
  }

  // The runs of the channel, one after the other, in channel order.
  function Fold(w: World, infos: map<RunId, RunInfo>, base: CommitId, messages: seq<Message>): CommitId
    requires Known(infos, messages)
  {
    if messages == [] then base
    else
      var last := |messages| - 1;
      var before := Fold(w, infos, base, messages[..last]);
      if messages[last].Run? then Advanced(w, infos[messages[last].id], before) else before
  }

  predicate SameRequests(infos: map<RunId, RunInfo>, infos': map<RunId, RunInfo>) {
    forall id | id in infos ::
      && id in infos'
      && infos[id].id == infos'[id].id
      && infos[id].candidate == infos'[id].candidate
      && infos[id].noMerge == infos'[id].noMerge
  }

  lemma {:induction false} FoldReadsRequests(
      w: World, infos: map<RunId, RunInfo>, infos': map<RunId, RunInfo>, base: CommitId, messages: seq<Message>)
    requires Known(infos, messages) && SameRequests(infos, infos')
    ensures Known(infos', messages) && Fold(w, infos, base, messages) == Fold(w, infos', base, messages)
    decreases |messages|
  {
    if messages != [] {
      FoldReadsRequests(w, infos, infos', base, messages[..|messages| - 1]);
    }
  }

  lemma FoldSnoc(w: World, infos: map<RunId, RunInfo>, base: CommitId, messages: seq<Message>, m: Message)
    requires Known(infos, messages + [m])
    ensures Known(infos, messages) && (m.Run? ==> m.id in infos)
    ensures var before := Fold(w, infos, base, messages);
            Fold(w, infos, base, messages + [m])
            == if m.Run? then Advanced(w, infos[m.id], before) else before
  {
    assert (messages + [m])[..|messages|] == messages && (messages + [m])[|messages|] == m;
    forall i | 0 <= i < |messages| && messages[i].Run? ensures messages[i].id in infos {
      assert (messages + [m])[i] == messages[i];
    }
  }

  // The messages whose runs are over.
  function Done(s: State): seq<Message>
    requires s.taken <= |s.sent| && (Active(s.pc).Some? ==> s.taken > 0)
  {
    if Active(s.pc).Some? then s.sent[..s.taken - 1] else s.sent[..s.taken]
  }

  // The base is the fold so far, and a run in progress is on its way to its own step of it.
  ghost predicate OnCourse(w: World, s: State, f: CommitId)
    requires WellFormed(s)
  {
    match s.pc
    case Idle => s.base == At(f)
    case Stopped => s.base == At(f)
    case PreCloneHook(_) => s.base == At(f)
    case ResolveBase(id) => s.base == At(f) && w.preClone(id)
    case Prepare(id, base) => s.base == At(f) && base == f && w.preClone(id) && w.resolves(id)
    case Check(id, base, tested) => s.base == At(f) && Integrated(w, s.runs.infos[id], f, base, tested)
    case PreMergeHook(id, base, tested) =>
      s.base == At(f) && Integrated(w, s.runs.infos[id], f, base, tested) && Passing(w, s.runs.infos[id], base, tested)
    case Publish(id, base, tested) =>
      && s.base == At(f) && Integrated(w, s.runs.infos[id], f, base, tested)
      && Passing(w, s.runs.infos[id], base, tested) && w.preMerge(id)
    case _ => s.base == At(Advanced(w, s.runs.infos[s.pc.id], f))
  }

  predicate Integrated(w: World, run: RunInfo, f: CommitId, base: CommitId, tested: CommitId) {
    base == f && w.preClone(run.id) && w.resolves(run.id) && w.integrate(run.id, f, run.candidate) == Some(tested)
  }

  predicate Passing(w: World, run: RunInfo, base: CommitId, tested: CommitId) {
    w.check(run.id, base, tested) == JobsPassed && !run.noMerge
  }

  ghost predicate InvFold(w: World, base: CommitId, s: State) {
    && WellFormed(s) && (Active(s.pc).Some? ==> s.taken > 0)
    && Known(s.runs.infos, Done(s))
    && (Undisturbed(s.history) ==> OnCourse(w, s, Fold(w, s.runs.infos, base, Done(s))))
  }

  lemma InvFoldInit(w: World, base: CommitId)
    ensures InvFold(w, base, Init(base))
  {
  }

  lemma EarlierUndisturbed(s: State, t: State)
    requires s.history <= t.history && Undisturbed(t.history)
    ensures Undisturbed(s.history)
  {
    forall i | 0 <= i < |s.history| ensures s.history[i].Write? {
      assert s.history[i] == t.history[i];
    }
  }

  // Being on course is about the base, the processor and the requests only.
  lemma OnCourseFrame(w: World, s: State, t: State, f: CommitId)
    requires WellFormed(s) && WellFormed(t) && t.pc == s.pc && t.base == s.base
    requires SameRequests(s.runs.infos, t.runs.infos)
    requires OnCourse(w, s, f)
    ensures OnCourse(w, t, f)
  {
  }

  lemma FoldFrame(w: World, base: CommitId, s: State, t: State)
    requires InvFold(w, base, s) && WellFormed(t)
    requires t.pc == s.pc && t.taken == s.taken && s.sent <= t.sent
    requires SameRequests(s.runs.infos, t.runs.infos)
    requires Undisturbed(t.history) ==> Undisturbed(s.history) && t.base == s.base
    ensures InvFold(w, base, t)
  {
    assert Done(t) == Done(s);
    FoldReadsRequests(w, s.runs.infos, t.runs.infos, base, Done(s));
    if Undisturbed(t.history) {
      OnCourseFrame(w, s, t, Fold(w, s.runs.infos, base, Done(s)));
    }
  }

  lemma OthersKeepFold(w: World, base: CommitId, s: State, a: Action)
    requires s.runs.Valid() && InvFold(w, base, s) && Enabled(s, a)
    requires a.Submit? || a.Send? || a.SendMarker? || a.MoveBase?
    ensures InvFold(w, base, Next(w, s, a))
  {
    var t := Next(w, s, a);
    if a.MoveBase? {
      assert t.history[|s.history|] == External(a.to);
    }
    if Undisturbed(t.history) {
      EarlierUndisturbed(s, t);
    }
    FoldFrame(w, base, s, t);
  }

  lemma ReceiveKeepsFold(w: World, base: CommitId, s: State)
    requires InvFold(w, base, s) && Enabled(s, Receive)
    requires s.sent[s.taken].Run? ==> s.runs.Startable(s.sent[s.taken].id)
    ensures InvFold(w, base, Next(w, s, Receive))
  {
    var t, m := Next(w, s, Receive), s.sent[s.taken];
    assert SameRequests(s.runs.infos, t.runs.infos);
    FoldReadsRequests(w, s.runs.infos, t.runs.infos, base, Done(s));
    if m.Run? {
      assert Done(t) == Done(s);
    } else {
      assert Done(t) == Done(s) + [m];
      FoldSnoc(w, t.runs.infos, base, Done(s), m);
    }
  }

  lemma RecordShape(w: World, s: State)
    requires WellFormed(s) && s.pc.Record? && s.taken > 0
    ensures var t, id := Step(w, s), s.pc.id;
            && WellFormed(t) && t.pc == Idle && t.base == s.base && t.history == s.history
            && t.sent == s.sent && t.taken == s.taken
            && t.runs.infos == s.runs.infos[id := s.runs.infos[id].(status := s.pc.status, completed := true)]
    ensures s.sent[s.taken - 1] == Run(s.pc.id) ==> Done(Step(w, s)) == Done(s) + [Run(s.pc.id)]
  {
  }

  lemma OneMoreRun(
      w: World, infos: map<RunId, RunInfo>, infos': map<RunId, RunInfo>, base: CommitId, messages: seq<Message>,
      id: RunId)
    requires Known(infos, messages) && SameRequests(infos, infos') && id in infos
    ensures Known(infos', messages + [Run(id)])
    ensures Fold(w, infos', base, messages + [Run(id)]) == Advanced(w, infos[id], Fold(w, infos, base, messages))
  {
    FoldReadsRequests(w, infos, infos', base, messages);
    FoldSnoc(w, infos', base, messages, Run(id));
  }

  lemma RecordKeepsFold(w: World, base: CommitId, s: State)
    requires InvFold(w, base, s) && s.pc.Record? && s.sent[s.taken - 1] == Run(s.pc.id)
    ensures InvFold(w, base, Step(w, s))
  {
    RecordShape(w, s);
    OneMoreRun(w, s.runs.infos, Step(w, s).runs.infos, base, Done(s), s.pc.id);
  }

  // The step itself: from on course to on course.
  predicate IsWork(s: State) {
    && WellFormed(s) && Active(s.pc).Some? && !s.pc.Record?
    && s.runs.infos[Active(s.pc).value].id == Active(s.pc).value
    && (s.pc.PreMergeHook? ==> !s.runs.infos[s.pc.id].noMerge)
  }

  lemma PreparingStaysOnCourse(w: World, s: State, f: CommitId)
    requires IsWork(s) && (s.pc.PreCloneHook? || s.pc.ResolveBase? || s.pc.Prepare?)
    requires OnCourse(w, s, f) && WellFormed(Step(w, s))
    ensures OnCourse(w, Step(w, s), f)
  {
  }

  lemma CheckingStaysOnCourse(w: World, s: State, f: CommitId)
    requires IsWork(s) && (s.pc.Check? || s.pc.PreMergeHook?)
    requires OnCourse(w, s, f) && WellFormed(Step(w, s))
    ensures OnCourse(w, Step(w, s), f)
  {
  }

  lemma PublishingStaysOnCourse(w: World, s: State, f: CommitId)
    requires IsWork(s) && (s.pc.Publish? || s.pc.VerifyTarget? || s.pc.PostMergeHook?)
    requires OnCourse(w, s, f) && WellFormed(Step(w, s))
    ensures OnCourse(w, Step(w, s), f)
  {
  }

  lemma WorkStaysOnCourse(w: World, s: State, f: CommitId)
    requires IsWork(s) && OnCourse(w, s, f) && WellFormed(Step(w, s))
    ensures OnCourse(w, Step(w, s), f)
  {
    if s.pc.PreCloneHook? || s.pc.ResolveBase? || s.pc.Prepare? {
      PreparingStaysOnCourse(w, s, f);
    } else if s.pc.Check? || s.pc.PreMergeHook? {
      CheckingStaysOnCourse(w, s, f);
    } else {
      PublishingStaysOnCourse(w, s, f);
    }
  }

  lemma HistoryGrows(w: World, s: State)
    requires WellFormed(s) && Active(s.pc).Some?
    ensures s.history <= Step(w, s).history
  {
    StepShape(w, s);
    if s.pc.Publish? {
      PublishShape(w, s);
    }
  }

  lemma WorkKeepsFold(w: World, base: CommitId, s: State)
    requires InvFold(w, base, s) && IsWork(s)
    ensures InvFold(w, base, Step(w, s))
  {
    var t := Step(w, s);
    StepShape(w, s);
    HistoryGrows(w, s);
    assert Done(t) == Done(s);
    if Undisturbed(t.history) {
      EarlierUndisturbed(s, t);
      WorkStaysOnCourse(w, s, Fold(w, s.runs.infos, base, Done(s)));
    }
  }

  lemma FoldStep(w: World, base: CommitId, s: State, a: Action)
    requires Inv(w, base, s) && InvFold(w, base, s) && Enabled(s, a)
    ensures InvFold(w, base, Next(w, s, a))
  {
    if a.Receive? {
      assert s.sent[s.taken].Run? ==> s.runs.infos[s.sent[s.taken].id].status == Queued;
      ReceiveKeepsFold(w, base, s);
    } else if a.Proceed? {
      if s.pc.Record? {
        RecordKeepsFold(w, base, s);
      } else {
        assert AtStage(w, s, Active(s.pc).value);
        WorkKeepsFold(w, base, s);
      }
    } else {
      OthersKeepFold(w, base, s, a);
    }
  }

  lemma {:induction false} FoldAfter(w: World, base: CommitId, s: State, acts: seq<Action>)
    requires Inv(w, base, s) && InvFold(w, base, s) && Possible(w, s, acts)
    ensures InvFold(w, base, After(w, s, acts))
    decreases |acts|
  {
    if acts != [] {
      FoldStep(w, base, s, acts[0]);
      InvStep(w, base, s, acts[0]);
      FoldAfter(w, base, Next(w, s, acts[0]), acts[1..]);
    }
  }

  // Whatever the interleaving of handlers and processor, if nobody else writes the base, then
  // between runs it is the sequential fold of the runs received so far, in channel order.
  lemma QueueRefinesSequentialFold(w: World, base: CommitId, s: State)
    requires Reachable(w, base, s) && Undisturbed(s.history) && Active(s.pc).None?
    ensures s.taken <= |s.sent| && Known(s.runs.infos, s.sent[..s.taken])
    ensures s.base == At(Fold(w, s.runs.infos, base, s.sent[..s.taken]))
  {
    var acts :| Possible(w, Init(base), acts) && After(w, Init(base), acts) == s;
    InvInit(w, base);
    InvFoldInit(w, base);
    FoldAfter(w, base, Init(base), acts);
  }
}
