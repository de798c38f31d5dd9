// What holds of the merge queue over every execution.
module MergeQueueTheorems {
  import opened Prelude
  import opened RunRegistry
  import opened Publication
  import opened MergeQueue
  import opened MergeQueueProofs

  // The actions can be taken one after the other from s.
  ghost predicate Possible(w: World, s: State, acts: seq<Action>)
    decreases |acts|
  {
    acts == [] || (WellFormed(s) && Enabled(s, acts[0]) && Possible(w, Next(w, s, acts[0]), acts[1..]))
  }

  ghost function After(w: World, s: State, acts: seq<Action>): State
    requires Possible(w, s, acts)
    decreases |acts|
  {
    if acts == [] then s else After(w, Next(w, s, acts[0]), acts[1..])
  }

  lemma {:induction false} RunsAppend(w: World, s: State, acts: seq<Action>, more: seq<Action>)
    requires Possible(w, s, acts) && Possible(w, After(w, s, acts), more)
    ensures Possible(w, s, acts + more) && After(w, s, acts + more) == After(w, After(w, s, acts), more)
    decreases |acts|
  {
    if acts == [] {
      assert acts + more == more;
    } else {
      assert (acts + more)[1..] == acts[1..] + more;
      RunsAppend(w, Next(w, s, acts[0]), acts[1..], more);
    }
  }

  // There is an execution of the protocol from s to t.
  ghost predicate Leads(w: World, s: State, t: State) {
    exists acts :: Possible(w, s, acts) && After(w, s, acts) == t
  }

  lemma LeadsNowhere(w: World, s: State)
    ensures Leads(w, s, s)
  {
    assert Possible(w, s, []) && After(w, s, []) == s;
  }

  lemma LeadsOn(w: World, s: State, t: State, u: State)
    requires Leads(w, s, t) && Leads(w, t, u)
    ensures Leads(w, s, u)
  {
    var first :| Possible(w, s, first) && After(w, s, first) == t;
    var second :| Possible(w, t, second) && After(w, t, second) == u;
    RunsAppend(w, s, first, second);
  }

  lemma LeadsByStep(w: World, s: State, a: Action)
    requires WellFormed(s) && Enabled(s, a)
    ensures Leads(w, s, Next(w, s, a))
  {
    var t := Next(w, s, a);
    assert [a][1..] == [] && Possible(w, t, []) && After(w, t, []) == t;
    assert Possible(w, s, [a]) && After(w, s, [a]) == t;
  }

  lemma {:induction false} InvAfter(w: World, base: CommitId, s: State, acts: seq<Action>)
    requires Inv(w, base, s) && Possible(w, s, acts)
    ensures Inv(w, base, After(w, s, acts))
    decreases |acts|
  {
    if acts != [] {
      InvStep(w, base, s, acts[0]);
      InvAfter(w, base, Next(w, s, acts[0]), acts[1..]);
    }
  }

  // A daemon started on this base can get into this state.
  ghost predicate Reachable(w: World, base: CommitId, s: State) {
    exists acts :: Possible(w, Init(base), acts) && After(w, Init(base), acts) == s
  }

  lemma ReachableInv(w: World, base: CommitId, s: State)
    requires Reachable(w, base, s)
    ensures Inv(w, base, s)
  {
    var acts :| Possible(w, Init(base), acts) && After(w, Init(base), acts) == s;
    InvInit(w, base);
    InvAfter(w, base, Init(base), acts);
  }

  // ---- Writes of the base ---------------------------------------------------------------

  lemma ActiveIsEarned(w: World, s: State, id: RunId)
    requires id in s.facts && id in s.runs.infos && Active(s.pc) == Some(id) && AtStage(w, s, id)
    requires s.runs.infos[id].id == id && s.facts[id].publication.Some?
    ensures Publishable(w, s.runs.infos[id], s.facts[id])
  {
  }

  // Whatever has looked at the base to publish had passed its check and the pre-merge hook.
  lemma PublicationIsEarned(w: World, s: State, id: RunId)
    requires InvRegistry(s) && InvFacts(w, s) && id in s.facts && s.facts[id].publication.Some?
    ensures id in s.runs.infos && s.runs.infos[id].id == id && Publishable(w, s.runs.infos[id], s.facts[id])
  {
    if Active(s.pc) == Some(id) {
      ActiveIsEarned(w, s, id);
    } else {
      assert IsTerminal(s.runs.infos[id].status);
      assert Concluded(w, s.runs.infos[id], s.facts[id], s.runs.infos[id].status);
    }
  }

  // Each write of the queue replaced exactly the commit its run had resolved, which the base
  // still named, by exactly the commit that was integrated from it and passed its check; and
  // no run writes twice.
  lemma WritesAreCheckedCompareAndSwaps(w: World, base: CommitId, s: State, i: nat)
    requires Reachable(w, base, s)
    requires i < |s.history| && s.history[i].Write?
    ensures var e := s.history[i];
            && e.run in s.runs.infos && e.run in s.facts
            && Resolved(w, e.run, s.facts[e.run]) == Some(e.old_)
            && w.integrate(e.run, e.old_, s.runs.infos[e.run].candidate) == Some(e.new_)
            && w.check(e.run, e.old_, e.new_) == JobsPassed
            && LooksAreTrue(base, s.history, s.facts[e.run])
            && BaseAfter(base, s.history[..i]) == At(e.old_)
            && BaseAfter(base, s.history[..i + 1]) == At(e.new_)
    ensures forall j | 0 <= j < |s.history| && s.history[j].Write? && s.history[j].run == s.history[i].run :: j == i
    ensures s.base == BaseAfter(base, s.history)
  {
    ReachableInv(w, base, s);
    var e := s.history[i];
    assert IsOwnWrite(w, s.runs.infos[e.run], s.facts[e.run], i, e);
    PublicationIsEarned(w, s, e.run);
  }

  lemma WroteIffPublished(w: World, base: CommitId, s: State, id: RunId)
    requires InvBase(w, base, s) && id in s.facts && id in s.runs.infos && s.runs.infos[id].id == id
    ensures Wrote(s.history, id) <==> Published(w, s.runs.infos[id], s.facts[id], Moved)
  {
    if Published(w, s.runs.infos[id], s.facts[id], Moved) {
      var i := s.facts[id].publication.value.at;
      assert IsOwnWrite(w, s.runs.infos[id], s.facts[id], i, s.history[i]);
    }
  }

  // ---- Terminal statuses ----------------------------------------------------------------

  // After k events, at or after the run's publication and after its own write if there is one,
  // the base was the commit that the run tested: in Git right behind that write, in Jujutsu
  // when the run looked at the base to verify it.
  predicate LandedAt(w: World, base: CommitId, history: seq<BaseEvent>, run: RunInfo, f: Facts, k: nat) {
    && Tested(w, run, f).Some? && f.publication.Some?
    && f.publication.value.at <= k <= |history|
    && (Published(w, run, f, Moved) ==> f.publication.value.at < k)
    && var tested := Tested(w, run, f).value;
       && BaseAfter(base, history[..k]) == At(tested)
       && if w.vcs == Git then k > 0 && history[k - 1] == Write(run.id, Resolved(w, run.id, f).value, tested)
          else f.verification == Some(Look(k, At(tested)))
  }

  lemma OwnWriteHasLanded(w: World, base: CommitId, history: seq<BaseEvent>, run: RunInfo, f: Facts, i: nat)
    requires w.vcs == Git && i < |history| && IsOwnWrite(w, run, f, i, history[i])
    ensures LandedAt(w, base, history, run, f, i + 1)
  {
    assert history[..i + 1][i] == history[i];
  }

  lemma LookHasLanded(w: World, base: CommitId, history: seq<BaseEvent>, run: RunInfo, f: Facts)
    requires w.vcs == Jujutsu && IsVerified(w, run, f) && LooksAreTrue(base, history, f)
    ensures LandedAt(w, base, history, run, f, f.verification.value.at)
  {
  }

  lemma VerifiedHasLanded(w: World, base: CommitId, s: State, id: RunId)
    requires InvBase(w, base, s) && id in s.facts && id in s.runs.infos && s.runs.infos[id].id == id
    requires IsVerified(w, s.runs.infos[id], s.facts[id])
    ensures exists k :: LandedAt(w, base, s.history, s.runs.infos[id], s.facts[id], k)
  {
    var run, f := s.runs.infos[id], s.facts[id];
    if w.vcs == Git {
      OwnWriteHasLanded(w, base, s.history, run, f, f.publication.value.at);
    } else {
      assert LooksAreTrue(base, s.history, f);
      LookHasLanded(w, base, s.history, run, f);
    }
  }

  // A run reports a landing exactly if its publication is verified; then the base was its
  // tested commit at its own write, or when it looked at the base after publishing, and the
  // post-merge stage was run for that commit. The runs that have written the base are exactly
  // those that report a landing with something to move, or an unverified publication; for no
  // other was the post-merge stage run.
  lemma StatusTellsTheTruth(w: World, base: CommitId, s: State, id: RunId)
    requires Reachable(w, base, s)
    requires id in s.runs.infos && IsTerminal(s.runs.infos[id].status)
    ensures id in s.facts && LooksAreTrue(base, s.history, s.facts[id])
    ensures var run, f := s.runs.infos[id], s.facts[id];
            && (ReportsLanding(run.status) <==> IsVerified(w, run, f))
            && (ReportsLanding(run.status) ==> exists k :: LandedAt(w, base, s.history, run, f, k))
            && (f.postMerge == if ReportsLanding(run.status) then Tested(w, run, f) else None)
            && (Wrote(s.history, id) <==>
                  || (ReportsLanding(run.status) && (w.vcs == Git || Resolved(w, id, f) != Tested(w, run, f)))
                  || run.status == Failed(PublicationUnverified))
  {
    ReachableInv(w, base, s);
    var run, f := s.runs.infos[id], s.facts[id];
    assert Concluded(w, run, f, run.status);
    WroteIffPublished(w, base, s, id);
    if ReportsLanding(run.status) {
      VerifiedHasLanded(w, base, s, id);
    }
  }

  // A terminal status names its cause: the command of the run that failed, or what it found
  // the base to be, with all commands before it having succeeded.
  lemma StatusNamesItsCause(w: World, base: CommitId, s: State, id: RunId)
    requires Reachable(w, base, s)
    requires id in s.runs.infos && IsTerminal(s.runs.infos[id].status)
    ensures id in s.facts && LooksAreTrue(base, s.history, s.facts[id])
    ensures Explains(w, s.runs.infos[id], s.facts[id], s.runs.infos[id].status)
    ensures forall status :: Explains(w, s.runs.infos[id], s.facts[id], status) ==> status == s.runs.infos[id].status
  {
    ReachableInv(w, base, s);
    var run, f := s.runs.infos[id], s.facts[id];
    assert Concluded(w, run, f, run.status);
    forall status | Explains(w, run, f, status) ensures status == run.status {
      CausesExclude(w, run, f, status, run.status);
    }
  }

  // The outcomes of a run's commands and its looks at the base admit one status only.
  lemma CausesExclude(w: World, run: RunInfo, f: Facts, x: RunStatus, y: RunStatus)
    requires Explains(w, run, f, x) && Explains(w, run, f, y)
    ensures x == y
  {
  }

  // The post-merge stage is entered only with the publication verified and the tested commit
  // landed.
  lemma PostMergeOnlyAfterVerifiedLanding(w: World, base: CommitId, s: State)
    requires Reachable(w, base, s) && s.pc.PostMergeHook?
    ensures var id := s.pc.id;
            && id in s.facts && id in s.runs.infos
            && var run, f := s.runs.infos[id], s.facts[id];
               && Publishable(w, run, f) && IsVerified(w, run, f) && Tested(w, run, f) == Some(s.pc.landed)
               && exists k :: LandedAt(w, base, s.history, run, f, k)
  {
    ReachableInv(w, base, s);
    PostMergeStage(w, s);
    VerifiedHasLanded(w, base, s, s.pc.id);
  }

  lemma PostMergeStage(w: World, s: State)
    requires InvRegistry(s) && InvFacts(w, s) && s.pc.PostMergeHook?
    ensures var id := s.pc.id;
            && id in s.facts && id in s.runs.infos && s.runs.infos[id].id == id
            && var run, f := s.runs.infos[id], s.facts[id];
               Publishable(w, run, f) && IsVerified(w, run, f) && Tested(w, run, f) == Some(s.pc.landed)
  {
    assert AtStage(w, s, s.pc.id);
  }

  // The step that publishes or verifies enters it exactly if the publication is verified then.
  lemma VerifiedEntersPostMerge(w: World, base: CommitId, s: State)
    requires Reachable(w, base, s) && (s.pc.Publish? || s.pc.VerifyTarget?)
    ensures Follows(w, s) && s.pc.id in Step(w, s).facts
    ensures Step(w, s).pc.PostMergeHook? <==> IsVerified(w, s.runs.infos[s.pc.id], Step(w, s).facts[s.pc.id])
  {
    ReachableInv(w, base, s);
    InvImpliesWellFormed(w, base, s);
    if s.pc.Publish? {
      PublishingEnters(w, s);
    } else {
      VerifyingEnters(w, s);
    }
  }

  lemma PublishingEnters(w: World, s: State)
    requires Follows(w, s) && s.pc.Publish?
    ensures s.pc.id in Step(w, s).facts
    ensures Step(w, s).pc.PostMergeHook? <==> IsVerified(w, s.runs.infos[s.pc.id], Step(w, s).facts[s.pc.id])
  {
    PublishShape(w, s);
  }

  lemma VerifyingEnters(w: World, s: State)
    requires Follows(w, s) && s.pc.VerifyTarget?
    ensures s.pc.id in Step(w, s).facts
    ensures Step(w, s).pc.PostMergeHook? <==> IsVerified(w, s.runs.infos[s.pc.id], Step(w, s).facts[s.pc.id])
  {
  }

  // ---- Lifecycle ------------------------------------------------------------------------

  function Phase(status: RunStatus): nat {
    match status
    case Queued => 0
    case Running => 1
    case _ => 2
  }

  // What may change between two states of one execution.
  ghost predicate Evolves(s: State, t: State) {
    && s.sent <= t.sent
    && s.history <= t.history
    && s.taken <= t.taken
    && (s.pc.Stopped? ==> t.pc.Stopped? && t.taken == s.taken)
    && forall id | id in s.runs.infos ::
         && id in t.runs.infos
         && t.runs.infos[id].candidate == s.runs.infos[id].candidate
         && t.runs.infos[id].noMerge == s.runs.infos[id].noMerge
         && Phase(s.runs.infos[id].status) <= Phase(t.runs.infos[id].status)
         && (IsTerminal(s.runs.infos[id].status) ==> t.runs.infos[id] == s.runs.infos[id])
  }

  lemma StepEvolves(w: World, base: CommitId, s: State, a: Action)
    requires Inv(w, base, s) && WellFormed(s) && Enabled(s, a)
    ensures Evolves(s, Next(w, s, a))
  {
    if a.Proceed? {
      if s.pc.Record? {
        ExplainedIsTerminal(w, s.runs.infos[s.pc.id], s.facts[s.pc.id], s.pc.status);
      }
      ProceedEvolves(w, s);
    } else if a.Receive? {
      ReceiveEvolves(w, s);
    } else {
      OthersEvolve(w, s, a);
    }
  }

  lemma OthersEvolve(w: World, s: State, a: Action)
    requires InvRegistry(s) && WellFormed(s) && Enabled(s, a) && !a.Proceed? && !a.Receive?
    ensures Evolves(s, Next(w, s, a))
  {
  }

  lemma ProceedEvolves(w: World, s: State)
    requires InvRegistry(s) && WellFormed(s) && Active(s.pc).Some?
    requires s.pc.Record? ==> IsTerminal(s.pc.status)
    ensures Evolves(s, Step(w, s))
  {
    StepShape(w, s);
    if s.pc.Publish? {
      PublishShape(w, s);
    }
    assert s.runs.infos[Active(s.pc).value].status == Running;
  }

  lemma ReceiveEvolves(w: World, s: State)
    requires InvRegistry(s) && WellFormed(s) && Enabled(s, Receive)
    ensures Evolves(s, Next(w, s, Receive))
  {
  }

  // Over any part of an execution, a run only moves from queued to running to terminal, its
  // terminal record never changes, and what has been sent and written stays.
  lemma {:induction false} LifecycleIsMonotone(w: World, base: CommitId, s: State, acts: seq<Action>)
    requires Inv(w, base, s) && Possible(w, s, acts)
    ensures Evolves(s, After(w, s, acts))
    decreases |acts|
  {
    if acts != [] {
      StepEvolves(w, base, s, acts[0]);
      InvStep(w, base, s, acts[0]);
      LifecycleIsMonotone(w, base, Next(w, s, acts[0]), acts[1..]);
    }
  }

  // At most one run is running; the timestamps are there exactly when the status says so.
  lemma OneRunAtATime(w: World, base: CommitId, s: State, x: RunId, y: RunId)
    requires Reachable(w, base, s) && x in s.runs.infos && y in s.runs.infos
    ensures s.runs.infos[x].status == Running && s.runs.infos[y].status == Running ==> x == y
    ensures s.runs.infos[x].completed <==> IsTerminal(s.runs.infos[x].status)
    ensures s.runs.infos[x].started <==> s.runs.infos[x].status != Queued
  {
    ReachableInv(w, base, s);
  }

  // ---- Shutdown -------------------------------------------------------------------------

  // When the queue worker has stopped, a run is terminal exactly if its message precedes the
  // shutdown marker; every other run, be it sent after the marker, not yet sent or refused by
  // the closed channel, was never started and wrote nothing.
  lemma ShutdownDrainsTheQueue(w: World, base: CommitId, s: State)
    requires Reachable(w, base, s) && s.pc.Stopped?
    ensures exists m ::
              && 0 <= m < |s.sent| && s.sent[m] == Shutdown
              && (forall id | id in s.runs.infos ::
                    if Run(id) in s.sent[..m] then IsTerminal(s.runs.infos[id].status)
                    else s.runs.infos[id].status == Queued && !Wrote(s.history, id))
  {
    ReachableInv(w, base, s);
    var m := s.taken - 1;
    forall id | id in s.runs.infos
      ensures if Run(id) in s.sent[..m] then IsTerminal(s.runs.infos[id].status)
              else s.runs.infos[id].status == Queued && !Wrote(s.history, id)
    {
      DrainedOrNeverStarted(s, id, m);
      if id !in s.facts {
        assert !Wrote(s.history, id);
      }
    }
  }

  lemma DrainedOrNeverStarted(s: State, id: RunId, m: nat)
    requires InvRuns(s) && InvStarted(s) && s.pc.Stopped? && id in s.runs.infos && m == s.taken - 1
    ensures if Run(id) in s.sent[..m] then IsTerminal(s.runs.infos[id].status) else s.runs.infos[id].status == Queued
  {
    if s.runs.infos[id].status != Queued {
      var i :| 0 <= i < s.taken && i < |s.sent| && s.sent[i] == Run(id);
      assert s.sent[..m][i] == Run(id);
    }
    if Run(id) in s.sent[..m] {
      var i :| 0 <= i < m && s.sent[i] == Run(id);
    }
  }

  lemma StoppedStep(w: World, base: CommitId, s: State, a: Action)
    requires Inv(w, base, s) && s.pc.Stopped? && WellFormed(s) && Enabled(s, a)
    ensures var t := Next(w, s, a);
            && t.pc.Stopped?
            && (t.history == s.history || exists to :: t.history == s.history + [External(to)])
            && (forall id | id in s.runs.infos :: id in t.runs.infos && t.runs.infos[id] == s.runs.infos[id])
  {
    if a.MoveBase? {
      assert Next(w, s, a).history == s.history + [External(a.to)];
    }
  }

  // From then on the queue writes nothing, and those runs stay as they are.
  lemma {:induction false} StoppedForGood(w: World, base: CommitId, s: State, acts: seq<Action>)
    requires Inv(w, base, s) && s.pc.Stopped? && Possible(w, s, acts)
    ensures var t := After(w, s, acts);
            && t.pc.Stopped? && s.history <= t.history
            && (forall i | |s.history| <= i < |t.history| :: t.history[i].External?)
            && (forall id | id in s.runs.infos :: id in t.runs.infos && t.runs.infos[id] == s.runs.infos[id])
    decreases |acts|
  {
    if acts != [] {
      InvStep(w, base, s, acts[0]);
      StoppedStep(w, base, s, acts[0]);
      StoppedForGood(w, base, Next(w, s, acts[0]), acts[1..]);
    }
  }
}
