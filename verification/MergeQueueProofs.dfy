// Every step of the merge queue keeps its invariant.
module MergeQueueProofs {
  import opened Prelude
  import opened RunRegistry
  import opened Publication
  import opened MergeQueue

  // ---- The registry and the channel -----------------------------------------------------

  lemma SubmitKeepsRuns(w: World, s: State, a: Action)
    requires InvRuns(s) && WellFormed(s) && a.Submit?
    ensures InvRuns(Next(w, s, a))
  {
    SubmitKeepsRegistry(w, s, a);
    SubmitKeepsChannel(w, s, a);
  }

  lemma SubmitKeepsRegistry(w: World, s: State, a: Action)
    requires InvRegistry(s) && WellFormed(s) && a.Submit?
    ensures InvRegistry(Next(w, s, a))
  {
  }

  lemma SubmitKeepsChannel(w: World, s: State, a: Action)
    requires InvRegistry(s) && InvChannel(s) && WellFormed(s) && a.Submit?
    ensures InvChannel(Next(w, s, a))
  {
    assert !IsSent(s, s.runs.nextId);
  }

  lemma SendKeepsRuns(w: World, s: State, id: RunId)
    requires InvRuns(s) && WellFormed(s) && Enabled(s, Send(id))
    ensures InvRuns(Next(w, s, Send(id)))
  {
    assert id in s.runs.infos && !IsSent(s, id);
  }

  lemma SendMarkerKeepsRuns(w: World, s: State)
    requires InvRuns(s) && WellFormed(s) && Enabled(s, SendMarker)
    ensures InvRuns(Next(w, s, SendMarker))
  {
    var t := Next(w, s, SendMarker);
    forall id ensures IsSent(t, id) == IsSent(s, id) {}
  }

  lemma ReceiveKeepsRuns(w: World, s: State)
    requires InvRuns(s) && WellFormed(s) && Enabled(s, Receive)
    ensures InvRuns(Next(w, s, Receive))
  {
    ReceiveKeepsRegistry(w, s);
    ReceiveKeepsChannel(w, s);
  }

  lemma ReceiveKeepsRegistry(w: World, s: State)
    requires InvRuns(s) && WellFormed(s) && Enabled(s, Receive)
    ensures InvRegistry(Next(w, s, Receive))
  {
  }

  lemma ReceiveKeepsChannel(w: World, s: State)
    requires InvRuns(s) && WellFormed(s) && Enabled(s, Receive)
    ensures InvChannel(Next(w, s, Receive))
  {
    var m := s.sent[s.taken];
    if m.Run? {
      assert s.runs.infos[m.id].status == Queued;
      assert s.runs.Startable(m.id);
      assert IsSent(s, m.id);
    }
  }

  lemma StartedStays(s: State, t: State)
    requires InvStarted(s) && s.sent <= t.sent && s.taken <= t.taken
    requires forall id | id in t.runs.infos && t.runs.infos[id].status != Queued ::
               (id in s.runs.infos && s.runs.infos[id].status != Queued) || WasTaken(t, id)
    ensures InvStarted(t)
  {
    forall id | id in t.runs.infos && t.runs.infos[id].status != Queued ensures WasTaken(t, id) {
      if WasTaken(s, id) {
        var i :| 0 <= i < s.taken && i < |s.sent| && s.sent[i] == Run(id);
        assert t.sent[i] == Run(id);
      }
    }
  }

  lemma ReceiveKeepsStarted(w: World, s: State)
    requires InvStarted(s) && WellFormed(s) && Enabled(s, Receive)
    ensures InvStarted(Next(w, s, Receive))
  {
    var t := Next(w, s, Receive);
    assert t.sent[s.taken] == s.sent[s.taken];
    if s.sent[s.taken].Run? {
      assert WasTaken(t, s.sent[s.taken].id);
    }
    StartedStays(s, t);
  }

  // A step of the processor leaves the registry alone until it records the outcome.
  lemma StepShape(w: World, s: State)
    requires WellFormed(s) && Active(s.pc).Some?
    ensures var t, id := Step(w, s), Active(s.pc).value;
            && t.sent == s.sent && t.unsent == s.unsent && t.taken == s.taken
            && t.facts.Keys == s.facts.Keys
            && (forall other | other in s.facts && other != id :: t.facts[other] == s.facts[other])
            && (!s.pc.Record? ==> t.runs == s.runs && Active(t.pc) == Active(s.pc))
            && (s.pc.Record? ==> t.pc == Idle && t.facts == s.facts && t.history == s.history && t.base == s.base)
            && (!s.pc.Publish? ==> t.history == s.history && t.base == s.base)
  {
  }

  lemma ProceedKeepsRuns(w: World, s: State)
    requires InvRuns(s) && WellFormed(s) && Active(s.pc).Some?
    requires s.pc.Record? ==> IsTerminal(s.pc.status)
    ensures InvRuns(Step(w, s))
  {
    StepShape(w, s);
    if s.pc.Record? {
      RecordKeepsRegistry(w, s);
      RecordKeepsChannel(w, s);
    }
  }

  lemma RecordKeepsRegistry(w: World, s: State)
    requires InvRegistry(s) && WellFormed(s) && s.pc.Record? && IsTerminal(s.pc.status)
    ensures InvRegistry(Step(w, s))
  {
  }

  lemma RecordKeepsChannel(w: World, s: State)
    requires InvRuns(s) && WellFormed(s) && s.pc.Record? && IsTerminal(s.pc.status)
    ensures InvChannel(Step(w, s))
  {
  }

  // ---- The stages of a run --------------------------------------------------------------

  // The steps of the processor keep its stage.
  predicate Follows(w: World, s: State) {
    && WellFormed(s) && Active(s.pc).Some? && !s.pc.Record?
    && s.runs.infos[Active(s.pc).value].id == Active(s.pc).value
    && AtStage(w, s, Active(s.pc).value)
  }

  predicate FollowedBy(w: World, s: State, id: RunId)
    requires Follows(w, s)
  {
    var t := Step(w, s);
    id in t.facts && id in t.runs.infos && AtStage(w, t, id)
  }

  lemma EarlyStage(w: World, s: State)
    requires Follows(w, s) && (s.pc.PreCloneHook? || s.pc.ResolveBase? || s.pc.Prepare?)
    ensures FollowedBy(w, s, s.pc.id)
  {
  }

  lemma CheckStage(w: World, s: State)
    requires Follows(w, s) && (s.pc.Check? || s.pc.PreMergeHook?)
    ensures FollowedBy(w, s, s.pc.id)
  {
  }

  lemma PublishStage(w: World, s: State)
    requires Follows(w, s) && s.pc.Publish?
    ensures FollowedBy(w, s, s.pc.id)
  {
    match TryMove(w.vcs, s.base, s.pc.base, s.pc.tested)
    case Refused =>
    case Moved =>
    case NothingToMove =>
  }

  lemma VerifyStage(w: World, s: State)
    requires Follows(w, s) && (s.pc.VerifyTarget? || s.pc.PostMergeHook?)
    ensures FollowedBy(w, s, s.pc.id)
  {
  }

  lemma NextStage(w: World, s: State)
    requires Follows(w, s)
    ensures FollowedBy(w, s, Active(s.pc).value)
  {
    if s.pc.Publish? {
      PublishStage(w, s);
    } else if s.pc.Check? || s.pc.PreMergeHook? {
      CheckStage(w, s);
    } else if s.pc.VerifyTarget? || s.pc.PostMergeHook? {
      VerifyStage(w, s);
    } else {
      EarlyStage(w, s);
    }
  }

  // Terminal runs are not touched.
  lemma TerminalRunsStay(w: World, s: State, t: State)
    requires InvFacts(w, s)
    requires Active(t.pc).Some? ==>
               var id := Active(t.pc).value; id in t.facts && id in t.runs.infos && AtStage(w, t, id)
    requires forall id | id in t.runs.infos && IsTerminal(t.runs.infos[id].status) ::
               id in s.runs.infos && t.runs.infos[id] == s.runs.infos[id] && id in t.facts && id in s.facts
               && t.facts[id] == s.facts[id]
    ensures InvFacts(w, t)
  {
  }

  lemma WorkKeepsFacts(w: World, s: State)
    requires InvRegistry(s) && InvFacts(w, s) && WellFormed(s) && Active(s.pc).Some? && !s.pc.Record?
    ensures InvFacts(w, Step(w, s))
  {
    StepShape(w, s);
    NextStage(w, s);
    assert s.runs.infos[Active(s.pc).value].status == Running;
    TerminalRunsStay(w, s, Step(w, s));
  }

  lemma RecordKeepsFacts(w: World, s: State)
    requires InvRegistry(s) && InvFacts(w, s) && WellFormed(s) && s.pc.Record?
    ensures InvFacts(w, Step(w, s))
  {
    var t := Step(w, s);
    forall id | id in t.runs.infos && IsTerminal(t.runs.infos[id].status)
      ensures id in t.facts && Concluded(w, t.runs.infos[id], t.facts[id], t.runs.infos[id].status)
    {
      if id == s.pc.id {
        ConcludedOfRequest(w, s.runs.infos[id], t.runs.infos[id], s.facts[id], s.pc.status);
      }
    }
  }

  predicate SameRequest(run: RunInfo, run': RunInfo) {
    run.id == run'.id && run.candidate == run'.candidate && run.noMerge == run'.noMerge
  }

  // What a status stands for is about the request of a run, not its record.
  lemma ConcludedOfRequest(w: World, run: RunInfo, run': RunInfo, f: Facts, status: RunStatus)
    requires SameRequest(run, run') && Concluded(w, run, f, status)
    ensures Concluded(w, run', f, status)
  {
    assert Tested(w, run', f) == Tested(w, run, f) && VerdictOf(w, run', f) == VerdictOf(w, run, f);
  }

  lemma ReceiveKeepsFacts(w: World, s: State)
    requires InvRuns(s) && InvFacts(w, s) && WellFormed(s) && Enabled(s, Receive)
    ensures InvFacts(w, Next(w, s, Receive))
  {
    assert s.sent[s.taken].Run? ==> s.runs.infos[s.sent[s.taken].id].status == Queued;
    TerminalRunsStay(w, s, Next(w, s, Receive));
  }

  lemma SubmitKeepsFacts(w: World, s: State, a: Action)
    requires InvRegistry(s) && InvFacts(w, s) && WellFormed(s) && a.Submit?
    ensures InvFacts(w, Next(w, s, a))
  {
    var t := Next(w, s, a);
    if Active(s.pc).Some? {
      assert t.runs.infos[Active(s.pc).value] == s.runs.infos[Active(s.pc).value];
    }
    TerminalRunsStay(w, s, t);
  }

  // ---- The base -------------------------------------------------------------------------

  lemma LookingNow(base: CommitId, s: State)
    requires s.base == BaseAfter(base, s.history)
    ensures IsTrue(base, s.history, Some(LookNow(s)))
  {
    assert s.history[..|s.history|] == s.history;
  }

  lemma LooksStayTrue(base: CommitId, history: seq<BaseEvent>, e: BaseEvent, f: Facts)
    requires LooksAreTrue(base, history, f)
    ensures LooksAreTrue(base, history + [e], f)
  {
    forall k | 0 <= k <= |history| ensures (history + [e])[..k] == history[..k] {}
  }

  // A run keeps what it has claimed about the base.
  predicate KeepsClaim(run: RunInfo, f: Facts, run': RunInfo, f': Facts) {
    && run.id == run'.id && run.candidate == run'.candidate
    && (f.publication.Some? ==> f'.publication == f.publication && f'.resolution == f.resolution)
  }

  ghost predicate KeepsClaims(s: State, t: State) {
    forall id | id in s.facts && id in s.runs.infos ::
      id in t.facts && id in t.runs.infos && KeepsClaim(s.runs.infos[id], s.facts[id], t.runs.infos[id], t.facts[id])
  }

  lemma OwnWriteStays(w: World, run: RunInfo, f: Facts, run': RunInfo, f': Facts, i: int, e: BaseEvent)
    requires f.publication.Some? && KeepsClaim(run, f, run', f')
    ensures IsOwnWrite(w, run', f', i, e) == IsOwnWrite(w, run, f, i, e)
    ensures Published(w, run', f', Moved) == Published(w, run, f, Moved)
  {
    assert Tested(w, run', f') == Tested(w, run, f);
  }

  lemma OlderWritesStay(w: World, s: State, t: State, i: nat)
    requires KeepsClaims(s, t) && i < |s.history| && s.history <= t.history && s.history[i].Write?
    requires var e := s.history[i];
             e.run in s.facts && e.run in s.runs.infos && IsOwnWrite(w, s.runs.infos[e.run], s.facts[e.run], i, e)
    ensures var e := t.history[i];
            && e == s.history[i] && e.run in t.facts && e.run in t.runs.infos
            && IsOwnWrite(w, t.runs.infos[e.run], t.facts[e.run], i, e)
  {
    var id := s.history[i].run;
    OwnWriteStays(w, s.runs.infos[id], s.facts[id], t.runs.infos[id], t.facts[id], i, s.history[i]);
  }

  lemma OlderClaimsStay(w: World, s: State, t: State, id: RunId)
    requires KeepsClaims(s, t) && id in s.facts && id in s.runs.infos && s.history <= t.history
    requires s.facts[id].publication.Some? && Published(w, t.runs.infos[id], t.facts[id], Moved)
    requires Published(w, s.runs.infos[id], s.facts[id], Moved) ==>
               var i := s.facts[id].publication.value.at;
               i < |s.history| && IsOwnWrite(w, s.runs.infos[id], s.facts[id], i, s.history[i])
    ensures var i := t.facts[id].publication.value.at;
            i < |t.history| && IsOwnWrite(w, t.runs.infos[id], t.facts[id], i, t.history[i])
  {
    var i := s.facts[id].publication.value.at;
    OwnWriteStays(w, s.runs.infos[id], s.facts[id], t.runs.infos[id], t.facts[id], i, Write(id, "", ""));
    OwnWriteStays(w, s.runs.infos[id], s.facts[id], t.runs.infos[id], t.facts[id], i, s.history[i]);
  }

  // New looks, at the same history.
  lemma LooksKeepBase(w: World, base: CommitId, s: State, t: State)
    requires InvBase(w, base, s) && t.base == s.base && t.history == s.history && KeepsClaims(s, t)
    requires forall id | id in t.facts :: id in t.runs.infos && LooksAreTrue(base, t.history, t.facts[id])
    requires forall id | id in t.facts && id in t.runs.infos && Published(w, t.runs.infos[id], t.facts[id], Moved) ::
               id in s.facts && s.facts[id].publication.Some?
    ensures InvBase(w, base, t)
  {
    forall i | 0 <= i < |t.history| && t.history[i].Write?
      ensures var e := t.history[i];
              e.run in t.facts && e.run in t.runs.infos && IsOwnWrite(w, t.runs.infos[e.run], t.facts[e.run], i, e)
    {
      OlderWritesStay(w, s, t, i);
    }
    forall id | id in t.facts && id in t.runs.infos && Published(w, t.runs.infos[id], t.facts[id], Moved)
      ensures var i := t.facts[id].publication.value.at;
              i < |t.history| && IsOwnWrite(w, t.runs.infos[id], t.facts[id], i, t.history[i])
    {
      OlderClaimsStay(w, s, t, id);
    }
  }

  // One more event, and no new claim but that of its own run.
  lemma EventKeepsBase(w: World, base: CommitId, s: State, t: State, e: BaseEvent)
    requires InvBase(w, base, s) && t.runs == s.runs && KeepsClaims(s, t) && t.facts.Keys == s.facts.Keys
    requires t.history == s.history + [e] && t.base == BaseAfter(base, t.history)
    requires forall id | id in t.facts :: LooksAreTrue(base, t.history, t.facts[id])
    requires forall id | id in t.facts && !(e.Write? && id == e.run) ::
               t.facts[id].publication == s.facts[id].publication
    requires e.Write? ==>
               && e.run in t.facts && e.run in t.runs.infos
               && IsOwnWrite(w, t.runs.infos[e.run], t.facts[e.run], |s.history|, e)
    ensures InvBase(w, base, t)
  {
    forall i | 0 <= i < |t.history| && t.history[i].Write?
      ensures var x := t.history[i];
              x.run in t.facts && x.run in t.runs.infos && IsOwnWrite(w, t.runs.infos[x.run], t.facts[x.run], i, x)
    {
      if i < |s.history| {
        OlderWritesStay(w, s, t, i);
      }
    }
    forall id | id in t.facts && id in t.runs.infos && Published(w, t.runs.infos[id], t.facts[id], Moved)
      ensures var i := t.facts[id].publication.value.at;
              i < |t.history| && IsOwnWrite(w, t.runs.infos[id], t.facts[id], i, t.history[i])
    {
      if !(e.Write? && id == e.run) {
        OlderClaimsStay(w, s, t, id);
      }
    }
  }

  // A look that is taken now is true, and after those taken before.
  lemma NewLook(base: CommitId, s: State, f: Facts)
    requires s.base == BaseAfter(base, s.history) && LooksAreTrue(base, s.history, f)
    ensures var now := Some(LookNow(s));
            && (f.publication.None? ==> LooksAreTrue(base, s.history, f.(resolution := now)))
            && (f.resolution.Some? && f.verification.None? ==> LooksAreTrue(base, s.history, f.(publication := now)))
            && (f.publication.Some? ==> LooksAreTrue(base, s.history, f.(verification := now)))
  {
    LookingNow(base, s);
  }

  // What a step of the processor adds to the facts of its run.
  function Added(s: State, f: Facts): Facts {
    match s.pc
    case ResolveBase(_) => f.(resolution := Some(LookNow(s)))
    case Publish(_, _, _) => f.(publication := Some(LookNow(s)))
    case VerifyTarget(_, _, _, _) => f.(verification := Some(LookNow(s)))
    case PostMergeHook(_, landed) => f.(postMerge := Some(landed))
    case _ => f
  }

  lemma FactsShape(w: World, s: State)
    requires WellFormed(s) && Active(s.pc).Some? && !s.pc.Record?
    ensures var t, id := Step(w, s), Active(s.pc).value;
            t.runs == s.runs && t.facts == s.facts[id := Added(s, s.facts[id])]
  {
  }

  lemma AddedIsTrue(w: World, base: CommitId, s: State, id: RunId)
    requires Follows(w, s) && id == Active(s.pc).value
    requires s.base == BaseAfter(base, s.history) && LooksAreTrue(base, s.history, s.facts[id])
    ensures LooksAreTrue(base, s.history, Added(s, s.facts[id]))
    ensures s.facts[id].publication.Some? ==>
              var f, f' := s.facts[id], Added(s, s.facts[id]);
              f'.publication == f.publication && f'.resolution == f.resolution
  {
    NewLook(base, s, s.facts[id]);
  }

  lemma WorkKeepsBase(w: World, base: CommitId, s: State, t: State)
    requires InvBase(w, base, s) && Follows(w, s) && t.history == s.history && t.base == s.base && t.runs == s.runs
    requires var id := Active(s.pc).value;
             && t.facts == s.facts[id := Added(s, s.facts[id])]
             && (s.pc.Publish? ==> !Published(w, s.runs.infos[id], Added(s, s.facts[id]), Moved))
    ensures InvBase(w, base, t)
  {
    var id := Active(s.pc).value;
    assert LooksAreTrue(base, s.history, s.facts[id]);
    AddedIsTrue(w, base, s, id);
    LooksKeepBase(w, base, s, t);
  }

  // Publishing either changes nothing in the repository, or writes the base from the expected
  // commit to the prepared one.
  lemma PublishShape(w: World, s: State)
    requires WellFormed(s) && s.pc.Publish?
    ensures var t, id := Step(w, s), s.pc.id;
            && t.runs == s.runs && t.facts == s.facts[id := s.facts[id].(publication := Some(LookNow(s)))]
            && if w.publishes(id) && TryMove(w.vcs, s.base, s.pc.base, s.pc.tested) == Moved
               then && s.base == At(s.pc.base) && t.base == At(s.pc.tested)
                    && t.history == s.history + [Write(id, s.pc.base, s.pc.tested)]
               else t.history == s.history && t.base == s.base
  {
  }

  // The write of the active run is its own.
  lemma WriteIsOwn(w: World, s: State, e: BaseEvent)
    requires Follows(w, s) && s.pc.Publish? && w.publishes(s.pc.id)
    requires TryMove(w.vcs, s.base, s.pc.base, s.pc.tested) == Moved
    requires e == Write(s.pc.id, s.pc.base, s.pc.tested)
    ensures IsOwnWrite(w, s.runs.infos[s.pc.id], Added(s, s.facts[s.pc.id]), |s.history|, e)
  {
  }

  lemma WriteKeepsBase(w: World, base: CommitId, s: State, t: State)
    requires InvBase(w, base, s) && Follows(w, s) && s.pc.Publish? && w.publishes(s.pc.id)
    requires TryMove(w.vcs, s.base, s.pc.base, s.pc.tested) == Moved
    requires t.runs == s.runs && t.facts == s.facts[s.pc.id := Added(s, s.facts[s.pc.id])]
    requires t.history == s.history + [Write(s.pc.id, s.pc.base, s.pc.tested)] && t.base == At(s.pc.tested)
    ensures InvBase(w, base, t)
  {
    var id, e := s.pc.id, Write(s.pc.id, s.pc.base, s.pc.tested);
    WriteIsOwn(w, s, e);
    assert LooksAreTrue(base, s.history, s.facts[id]);
    AddedIsTrue(w, base, s, id);
    forall other | other in t.facts ensures LooksAreTrue(base, t.history, t.facts[other]) {
      assert LooksAreTrue(base, s.history, s.facts[other]);
      LooksStayTrue(base, s.history, e, t.facts[other]);
    }
    EventKeepsBase(w, base, s, t, e);
  }

  lemma PublishKeepsBase(w: World, base: CommitId, s: State)
    requires InvBase(w, base, s) && Follows(w, s) && s.pc.Publish?
    ensures InvBase(w, base, Step(w, s))
  {
    var t := Step(w, s);
    PublishShape(w, s);
    if t.history == s.history {
      WorkKeepsBase(w, base, s, t);
    } else {
      WriteKeepsBase(w, base, s, t);
    }
  }

  lemma MoveKeepsBase(w: World, base: CommitId, s: State, to: Target)
    requires InvBase(w, base, s) && WellFormed(s)
    ensures InvBase(w, base, Next(w, s, MoveBase(to)))
  {
    var t := Next(w, s, MoveBase(to));
    forall id | id in t.facts ensures LooksAreTrue(base, t.history, t.facts[id]) {
      LooksStayTrue(base, s.history, External(to), s.facts[id]);
    }
    EventKeepsBase(w, base, s, t, External(to));
  }

  // Receiving, queueing and recording leave the looks and the history alone.
  lemma RegistryKeepsBase(w: World, base: CommitId, s: State, t: State)
    requires InvBase(w, base, s) && t.base == s.base && t.history == s.history
    requires forall id | id in s.runs.infos :: id in t.runs.infos && SameRequest(s.runs.infos[id], t.runs.infos[id])
    requires forall id | id in s.facts :: id in t.facts && t.facts[id] == s.facts[id]
    requires forall id | id in t.facts && id !in s.facts :: id in t.runs.infos && t.facts[id] == NoFacts()
    ensures InvBase(w, base, t)
  {
    LooksKeepBase(w, base, s, t);
  }

  // ---- All of it ------------------------------------------------------------------------

  lemma RecordKeepsInv(w: World, base: CommitId, s: State)
    requires Inv(w, base, s) && WellFormed(s) && s.pc.Record?
    ensures Inv(w, base, Step(w, s))
  {
    RecordKeepsRuns(w, s);
    RecordKeepsFacts(w, s);
    RecordKeepsRest(w, base, s);
  }

  lemma RecordKeepsRuns(w: World, s: State)
    requires InvRuns(s) && InvFacts(w, s) && WellFormed(s) && s.pc.Record?
    ensures InvRuns(Step(w, s))
  {
    ExplainedIsTerminal(w, s.runs.infos[s.pc.id], s.facts[s.pc.id], s.pc.status);
    ProceedKeepsRuns(w, s);
  }

  lemma RecordKeepsRest(w: World, base: CommitId, s: State)
    requires InvStarted(s) && InvBase(w, base, s) && WellFormed(s) && s.pc.Record?
    requires s.runs.infos[s.pc.id].status == Running
    ensures InvStarted(Step(w, s)) && InvBase(w, base, Step(w, s))
  {
    StepShape(w, s);
    StartedStays(s, Step(w, s));
    RegistryKeepsBase(w, base, s, Step(w, s));
  }

  lemma WorkKeepsInv(w: World, base: CommitId, s: State)
    requires Inv(w, base, s) && WellFormed(s) && Active(s.pc).Some? && !s.pc.Record?
    ensures Inv(w, base, Step(w, s))
  {
    ProceedKeepsRuns(w, s);
    StepShape(w, s);
    StartedStays(s, Step(w, s));
    WorkKeepsFacts(w, s);
    if s.pc.Publish? {
      PublishKeepsBase(w, base, s);
    } else {
      FactsShape(w, s);
      WorkKeepsBase(w, base, s, Step(w, s));
    }
  }

  lemma ExplainedIsTerminal(w: World, run: RunInfo, f: Facts, status: RunStatus)
    requires Explains(w, run, f, status)
    ensures IsTerminal(status)
  {
  }

  lemma ReceiveKeepsBase(w: World, base: CommitId, s: State)
    requires InvBase(w, base, s) && WellFormed(s) && Enabled(s, Receive)
    requires s.sent[s.taken].Run? ==> s.sent[s.taken].id in s.runs.infos && s.sent[s.taken].id !in s.facts
    ensures InvBase(w, base, Next(w, s, Receive))
  {
    RegistryKeepsBase(w, base, s, Next(w, s, Receive));
  }

  lemma ReceiveKeepsInv(w: World, base: CommitId, s: State)
    requires Inv(w, base, s) && WellFormed(s) && Enabled(s, Receive)
    ensures Inv(w, base, Next(w, s, Receive))
  {
    ReceiveKeepsRuns(w, s);
    ReceiveKeepsStarted(w, s);
    ReceiveKeepsFacts(w, s);
    assert s.sent[s.taken].Run? ==> s.runs.infos[s.sent[s.taken].id].status == Queued;
    ReceiveKeepsBase(w, base, s);
  }

  lemma SubmitKeepsInv(w: World, base: CommitId, s: State, a: Action)
    requires Inv(w, base, s) && WellFormed(s) && a.Submit?
    ensures Inv(w, base, Next(w, s, a))
  {
    SubmitKeepsRuns(w, s, a);
    StartedStays(s, Next(w, s, a));
    SubmitKeepsFacts(w, s, a);
    RegistryKeepsBase(w, base, s, Next(w, s, a));
  }

  lemma SendKeepsInv(w: World, base: CommitId, s: State, a: Action)
    requires Inv(w, base, s) && WellFormed(s) && Enabled(s, a) && (a.Send? || a.SendMarker?)
    ensures Inv(w, base, Next(w, s, a))
  {
    if a.Send? {
      SendKeepsRuns(w, s, a.id);
    } else {
      SendMarkerKeepsRuns(w, s);
    }
    StartedStays(s, Next(w, s, a));
    TerminalRunsStay(w, s, Next(w, s, a));
    RegistryKeepsBase(w, base, s, Next(w, s, a));
  }

  // Registry, channel and stages are not about the base.
  lemma ChannelFrame(s: State, t: State)
    requires InvChannel(s) && t == s.(base := t.base, history := t.history)
    ensures InvChannel(t)
  {
    assert forall id :: IsSent(t, id) == IsSent(s, id);
  }

  lemma RunsFrame(s: State, t: State)
    requires InvRuns(s) && InvStarted(s) && t == s.(base := t.base, history := t.history)
    ensures InvRuns(t) && InvStarted(t)
  {
    ChannelFrame(s, t);
    StartedStays(s, t);
  }

  lemma FactsFrame(w: World, s: State, t: State)
    requires InvFacts(w, s) && t == s.(base := t.base, history := t.history)
    ensures InvFacts(w, t)
  {
    TerminalRunsStay(w, s, t);
  }

  lemma MoveKeepsInv(w: World, base: CommitId, s: State, to: Target)
    requires Inv(w, base, s) && WellFormed(s)
    ensures Inv(w, base, Next(w, s, MoveBase(to)))
  {
    RunsFrame(s, Next(w, s, MoveBase(to)));
    FactsFrame(w, s, Next(w, s, MoveBase(to)));
    MoveKeepsBase(w, base, s, to);
  }

  lemma InvStep(w: World, base: CommitId, s: State, a: Action)
    requires Inv(w, base, s) && Enabled(s, a)
    ensures WellFormed(s) && Inv(w, base, Next(w, s, a))
  {
    InvImpliesWellFormed(w, base, s);
    match a
    case Proceed =>
      if s.pc.Record? {
        RecordKeepsInv(w, base, s);
      } else {
        WorkKeepsInv(w, base, s);
      }
    case Receive => ReceiveKeepsInv(w, base, s);
    case Submit(_, _) => SubmitKeepsInv(w, base, s, a);
    case Send(_) => SendKeepsInv(w, base, s, a);
    case SendMarker => SendKeepsInv(w, base, s, a);
    case MoveBase(to) => MoveKeepsInv(w, base, s, to);
  }
}
