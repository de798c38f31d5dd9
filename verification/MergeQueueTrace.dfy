// What the actions of an execution have made of the merge queue: every submission, message and
// move of the base is still there.
module MergeQueueTrace {
  import opened Prelude
  import opened RunRegistry
  import opened Publication
  import opened MergeQueue
  import opened MergeQueueProofs
  import opened MergeQueueTheorems

  lemma {:induction false} LastStep(w: World, s: State, acts: seq<Action>)
    requires Possible(w, s, acts) && acts != []
    ensures var n := |acts| - 1;
            && Possible(w, s, acts[..n])
            && var t := After(w, s, acts[..n]);
               WellFormed(t) && Enabled(t, acts[n]) && After(w, s, acts) == Next(w, t, acts[n])
    decreases |acts|
  {
    var n := |acts| - 1;
    if n > 0 {
      assert acts[1..][..n - 1] == acts[..n][1..];
      LastStep(w, Next(w, s, acts[0]), acts[1..]);
    }
  }

  lemma InvBefore(w: World, base: CommitId, acts: seq<Action>)
    requires Possible(w, Init(base), acts)
    ensures Inv(w, base, After(w, Init(base), acts))
  {
    InvInit(w, base);
    InvAfter(w, base, Init(base), acts);
  }

  // ---- Submissions ----------------------------------------------------------------------

  // The candidates submitted, and whether they are not to be merged, in order.
  function Submissions(acts: seq<Action>): seq<(CommitId, bool)> {
    if acts == [] then []
    else
      var n := |acts| - 1;
      Submissions(acts[..n]) + if acts[n].Submit? then [(acts[n].candidate, acts[n].noMerge)] else []
  }

  // The record of this id has the candidate and the flag of that submission.
  predicate Records(s: State, id: nat, submission: (CommitId, bool)) {
    && id in s.runs.infos
    && s.runs.infos[id].candidate == submission.0
    && s.runs.infos[id].noMerge == submission.1
  }

  ghost predicate Keeps(s: State, submissions: seq<(CommitId, bool)>) {
    && s.runs.nextId == |submissions| + 1
    && forall i | 0 <= i < |submissions| :: Records(s, i + 1, submissions[i])
  }

  lemma NextIdStays(w: World, s: State, a: Action)
    requires WellFormed(s) && Enabled(s, a) && !a.Submit?
    ensures Next(w, s, a).runs.nextId == s.runs.nextId
  {
    if a.Proceed? {
      StepShape(w, s);
    }
  }

  lemma SubmitAdds(w: World, s: State, a: Action)
    requires WellFormed(s) && a.Submit?
    ensures var t, id := Next(w, s, a), s.runs.nextId;
            && t.runs.nextId == id + 1 && id in t.runs.infos && id in t.unsent
            && t.runs.infos[id].candidate == a.candidate && t.runs.infos[id].noMerge == a.noMerge
            && t.runs.infos.Keys == s.runs.infos.Keys + {id}
            && t.unsent == s.unsent + {id} && t.sent == s.sent && t.pc == s.pc
  {
  }

  // Records keep what was submitted, and one more submission is one more record.
  lemma KeptWhileEvolving(s: State, t: State, before: seq<(CommitId, bool)>, more: seq<(CommitId, bool)>)
    requires Keeps(s, before) && Evolves(s, t) && t.runs.nextId == s.runs.nextId + |more| && |more| <= 1
    requires more != [] ==> Records(t, s.runs.nextId, more[0])
    ensures Keeps(t, before + more)
  {
    forall i | 0 <= i < |before + more| ensures Records(t, i + 1, (before + more)[i]) {
      if i < |before| {
        assert Records(s, i + 1, before[i]);
      }
    }
  }

  lemma KeepsStep(w: World, base: CommitId, s: State, a: Action, before: seq<(CommitId, bool)>)
    requires Inv(w, base, s) && WellFormed(s) && Enabled(s, a) && Keeps(s, before)
    ensures Keeps(Next(w, s, a), before + if a.Submit? then [(a.candidate, a.noMerge)] else [])
  {
    StepEvolves(w, base, s, a);
    if a.Submit? {
      SubmitAdds(w, s, a);
    } else {
      NextIdStays(w, s, a);
    }
    KeptWhileEvolving(s, Next(w, s, a), before, if a.Submit? then [(a.candidate, a.noMerge)] else []);
  }

  // In every execution, the n-th submission has the id n, and its record has exactly its
  // candidate and its flag, whatever has happened to it since.
  lemma {:induction false} SubmissionsAreKept(w: World, base: CommitId, acts: seq<Action>)
    requires Possible(w, Init(base), acts)
    ensures Keeps(After(w, Init(base), acts), Submissions(acts))
    decreases |acts|
  {
    if acts != [] {
      var n := |acts| - 1;
      LastStep(w, Init(base), acts);
      InvBefore(w, base, acts[..n]);
      SubmissionsAreKept(w, base, acts[..n]);
      KeepsStep(w, base, After(w, Init(base), acts[..n]), acts[n], Submissions(acts[..n]));
    }
  }

  // A submission that is not to be merged never writes the base.
  lemma NoMergeNeverWrites(w: World, base: CommitId, acts: seq<Action>, i: nat)
    requires Possible(w, Init(base), acts)
    requires i < |Submissions(acts)| && Submissions(acts)[i].1
    ensures !Wrote(After(w, Init(base), acts).history, i + 1)
  {
    var s := After(w, Init(base), acts);
    SubmissionsAreKept(w, base, acts);
    InvBefore(w, base, acts);
    if i + 1 in s.facts {
      WroteIffPublished(w, base, s, i + 1);
      if s.facts[i + 1].publication.Some? {
        PublicationIsEarned(w, s, i + 1);
      }
    }
  }

  // ---- Messages -------------------------------------------------------------------------

  // The messages sent while the processor was there to receive them, in order.
  ghost function SentBy(w: World, base: CommitId, acts: seq<Action>): seq<Message>
    requires Possible(w, Init(base), acts)
    decreases |acts|
  {
    if acts == [] then []
    else
      var n := |acts| - 1;
      LastStep(w, Init(base), acts);
      SentBy(w, base, acts[..n])
      + match acts[n] {
          case Send(id) => if After(w, Init(base), acts[..n]).pc.Stopped? then [] else [Run(id)]
          case SendMarker => [Shutdown]
          case _ => []
        }
  }

  // The runs whose message was refused by the closed channel.
  ghost function RefusedBy(w: World, base: CommitId, acts: seq<Action>): set<RunId>
    requires Possible(w, Init(base), acts)
    decreases |acts|
  {
    if acts == [] then {}
    else
      var n := |acts| - 1;
      LastStep(w, Init(base), acts);
      RefusedBy(w, base, acts[..n])
      + if acts[n].Send? && After(w, Init(base), acts[..n]).pc.Stopped? then {acts[n].id} else {}
  }

  lemma SentStays(w: World, s: State, a: Action)
    requires WellFormed(s) && Enabled(s, a) && !a.Send? && !a.SendMarker?
    ensures var t := Next(w, s, a);
            && t.sent == s.sent
            && (!a.Submit? ==> t.unsent == s.unsent && t.runs.infos.Keys == s.runs.infos.Keys)
  {
    if a.Proceed? {
      StepShape(w, s);
    }
  }

  // The channel holds exactly what was sent, in the order of sending.
  lemma {:induction false} ChannelIsWhatWasSent(w: World, base: CommitId, acts: seq<Action>)
    requires Possible(w, Init(base), acts)
    ensures After(w, Init(base), acts).sent == SentBy(w, base, acts)
    decreases |acts|
  {
    if acts != [] {
      var n := |acts| - 1;
      LastStep(w, Init(base), acts);
      ChannelIsWhatWasSent(w, base, acts[..n]);
      if !acts[n].Send? && !acts[n].SendMarker? {
        SentStays(w, After(w, Init(base), acts[..n]), acts[n]);
      }
    }
  }

  function One(b: bool): nat {
    if b then 1 else 0
  }

  ghost predicate Placed(s: State, refused: set<RunId>, id: RunId) {
    One(id in s.unsent) + multiset(s.sent)[Run(id)] + One(id in refused) == One(id in s.runs.infos)
  }

  lemma SendMoves(w: World, s: State, id: RunId, refused: set<RunId>, x: RunId)
    requires WellFormed(s) && Enabled(s, Send(id)) && Placed(s, refused, id) && Placed(s, refused, x)
    ensures Placed(Next(w, s, Send(id)), refused + if s.pc.Stopped? then {id} else {}, x)
  {
    var t := Next(w, s, Send(id));
    assert multiset(s.sent + [Run(id)]) == multiset(s.sent) + multiset{Run(id)};
  }

  lemma MarkerMovesNothing(w: World, s: State, refused: set<RunId>, x: RunId)
    requires WellFormed(s) && Enabled(s, SendMarker) && Placed(s, refused, x)
    ensures Placed(Next(w, s, SendMarker), refused, x)
  {
    assert multiset(s.sent + [Shutdown]) == multiset(s.sent) + multiset{Shutdown};
  }

  lemma SubmitPlaces(w: World, s: State, a: Action, refused: set<RunId>, x: RunId)
    requires s.runs.Valid() && WellFormed(s) && a.Submit? && Placed(s, refused, x)
    requires Placed(s, refused, s.runs.nextId)
    ensures Placed(Next(w, s, a), refused, x)
  {
    SubmitAdds(w, s, a);
  }

  lemma PlacedStep(w: World, s: State, a: Action, refused: set<RunId>, x: RunId)
    requires s.runs.Valid() && WellFormed(s) && Enabled(s, a) && Placed(s, refused, x)
    requires a.Send? ==> Placed(s, refused, a.id)
    requires a.Submit? ==> Placed(s, refused, s.runs.nextId)
    ensures Placed(Next(w, s, a), refused + if a.Send? && s.pc.Stopped? then {a.id} else {}, x)
  {
    match a
    case Send(id) => SendMoves(w, s, id, refused, x);
    case SendMarker => MarkerMovesNothing(w, s, refused, x);
    case Submit(_, _) => SubmitPlaces(w, s, a, refused, x);
    case Receive => SentStays(w, s, a);
    case Proceed => SentStays(w, s, a);
    case MoveBase(_) => SentStays(w, s, a);
  }

  // Each run of the registry is in exactly one place, once: not sent yet, in the channel, or
  // refused by it; and before the stop none is refused.
  lemma {:induction false} EachRunIsInOnePlace(w: World, base: CommitId, acts: seq<Action>, id: RunId)
    requires Possible(w, Init(base), acts)
    ensures Placed(After(w, Init(base), acts), RefusedBy(w, base, acts), id)
    ensures !After(w, Init(base), acts).pc.Stopped? ==> RefusedBy(w, base, acts) == {}
    decreases |acts|
  {
    if acts != [] {
      var n, a := |acts| - 1, acts[|acts| - 1];
      LastStep(w, Init(base), acts);
      InvBefore(w, base, acts[..n]);
      var s, refused := After(w, Init(base), acts[..n]), RefusedBy(w, base, acts[..n]);
      EachRunIsInOnePlace(w, base, acts[..n], id);
      StepEvolves(w, base, s, a);
      if a.Send? {
        EachRunIsInOnePlace(w, base, acts[..n], a.id);
      } else if a.Submit? {
        EachRunIsInOnePlace(w, base, acts[..n], s.runs.nextId);
      }
      PlacedStep(w, s, a, refused, id);
    }
  }

  // ---- Moves of the base ----------------------------------------------------------------

  function MovesBy(acts: seq<Action>): seq<Target> {
    if acts == [] then []
    else
      var n := |acts| - 1;
      MovesBy(acts[..n]) + if acts[n].MoveBase? then [acts[n].to] else []
  }

  function ExternalsOf(history: seq<BaseEvent>): seq<Target> {
    if history == [] then []
    else
      var n := |history| - 1;
      ExternalsOf(history[..n]) + if history[n].External? then [history[n].to] else []
  }

  lemma ExternalsSnoc(history: seq<BaseEvent>, e: BaseEvent)
    ensures ExternalsOf(history + [e]) == ExternalsOf(history) + if e.External? then [e.to] else []
  {
    assert (history + [e])[..|history|] == history;
  }

  lemma MovesStep(w: World, s: State, a: Action)
    requires WellFormed(s) && Enabled(s, a)
    ensures ExternalsOf(Next(w, s, a).history) == ExternalsOf(s.history) + if a.MoveBase? then [a.to] else []
  {
    if a.MoveBase? {
      ExternalsSnoc(s.history, External(a.to));
    } else if a.Proceed? {
      StepShape(w, s);
      if s.pc.Publish? {
        PublishShape(w, s);
        ExternalsSnoc(s.history, Write(s.pc.id, s.pc.base, s.pc.tested));
      }
    }
  }

  // The writes of others that the history knows are exactly those they have made, in order;
  // with the own writes of the queue between them, they make the base what it is.
  lemma {:induction false} EveryMoveIsKept(w: World, base: CommitId, acts: seq<Action>)
    requires Possible(w, Init(base), acts)
    ensures var s := After(w, Init(base), acts);
            ExternalsOf(s.history) == MovesBy(acts) && s.base == BaseAfter(base, s.history)
    decreases |acts|
  {
    InvBefore(w, base, acts);
    if acts != [] {
      var n := |acts| - 1;
      LastStep(w, Init(base), acts);
      EveryMoveIsKept(w, base, acts[..n]);
      MovesStep(w, After(w, Init(base), acts[..n]), acts[n]);
    }
  }

  // ---- A run that lands -----------------------------------------------------------------

  // All commands of the first run succeed, and its check passes.
  predicate Cooperates(w: World, base: CommitId, candidate: CommitId, tested: CommitId) {
    && w.preClone(1) && w.resolves(1) && w.integrate(1, base, candidate) == Some(tested)
    && w.check(1, base, tested) == JobsPassed && w.preMerge(1) && w.publishes(1) && w.identifies(1)
  }

  lemma Submitting(w: World, base: CommitId, candidate: CommitId) returns (s: State)
    ensures Leads(w, Init(base), s) && s.pc == PreCloneHook(1) && s.base == At(base) && s.history == [] && WellFormed(s)
    ensures s.runs.infos == map[1 := RunInfo(1, candidate, false, Running, true, false)] && s.sent == [Run(1)]
  {
    var s0 := Init(base);
    var s1 := Next(w, s0, Submit(candidate, false));
    var s2 := Next(w, s1, Send(1));
    s := Next(w, s2, Receive);
    LeadsByStep(w, s0, Submit(candidate, false));
    LeadsByStep(w, s1, Send(1));
    LeadsByStep(w, s2, Receive);
    LeadsOn(w, s0, s1, s2);
    LeadsOn(w, s0, s2, s);
  }

  lemma TwoSteps(w: World, s: State) returns (t: State)
    requires WellFormed(s) && Active(s.pc).Some? && WellFormed(Step(w, s)) && Active(Step(w, s).pc).Some?
    ensures t == Step(w, Step(w, s)) && Leads(w, s, t)
  {
    var s1 := Step(w, s);
    t := Step(w, s1);
    LeadsByStep(w, s, Proceed);
    LeadsByStep(w, s1, Proceed);
    LeadsOn(w, s, s1, t);
  }

  lemma Preparing(w: World, s: State, base: CommitId, candidate: CommitId, tested: CommitId) returns (t: State)
    requires Cooperates(w, base, candidate, tested) && WellFormed(s) && s.base == At(base)
    requires s.pc == PreCloneHook(1) && s.runs.infos == map[1 := RunInfo(1, candidate, false, Running, true, false)]
    ensures Leads(w, s, t) && WellFormed(t) && t.pc == Prepare(1, base)
    ensures t.base == s.base && t.runs == s.runs && t.sent == s.sent
  {
    t := TwoSteps(w, s);
  }

  lemma Checking(w: World, s: State, base: CommitId, candidate: CommitId, tested: CommitId) returns (t: State)
    requires Cooperates(w, base, candidate, tested) && WellFormed(s) && s.base == At(base)
    requires s.pc == Prepare(1, base) && s.runs.infos == map[1 := RunInfo(1, candidate, false, Running, true, false)]
    ensures Leads(w, s, t) && WellFormed(t) && t.pc == Publish(1, base, tested)
    ensures t.base == s.base && t.runs == s.runs && t.sent == s.sent
  {
    var s1 := TwoSteps(w, s);
    t := Step(w, s1);
    LeadsByStep(w, s1, Proceed);
    LeadsOn(w, s, s1, t);
  }

  // Publication, in Git at once, in Jujutsu with the look that verifies it.
  lemma Publishing(w: World, s: State, base: CommitId, candidate: CommitId, tested: CommitId) returns (t: State)
    requires Cooperates(w, base, candidate, tested) && WellFormed(s) && s.base == At(base)
    requires s.pc == Publish(1, base, tested)
    ensures Leads(w, s, t) && WellFormed(t)
    ensures t.pc == PostMergeHook(1, tested) && t.runs == s.runs && t.sent == s.sent && t.base == At(tested)
  {
    StepShape(w, s);
    if w.vcs == Git {
      t := Step(w, s);
      LeadsByStep(w, s, Proceed);
    } else {
      t := TwoSteps(w, s);
      StepShape(w, Step(w, s));
    }
  }

  lemma Recording(w: World, s: State, candidate: CommitId, landed: CommitId) returns (t: State)
    requires WellFormed(s) && s.pc == PostMergeHook(1, landed)
    requires s.runs.infos == map[1 := RunInfo(1, candidate, false, Running, true, false)]
    ensures Leads(w, s, t) && t.pc == Idle && t.base == s.base && t.sent == s.sent
    ensures 1 in t.runs.infos && t.runs.infos[1].candidate == candidate
    ensures t.runs.infos[1].status == Passed(if w.mode == Rebase then Rebased else Merged)
  {
    t := TwoSteps(w, s);
  }

  // A run that is submitted is sent, received and landed, on any base and with any candidate,
  // if its commands succeed and nobody interferes.
  lemma ARunCanLand(w: World, base: CommitId, candidate: CommitId, tested: CommitId) returns (s: State)
    requires Cooperates(w, base, candidate, tested)
    ensures Reachable(w, base, s) && s.pc == Idle && s.sent == [Run(1)] && s.base == At(tested)
    ensures 1 in s.runs.infos && s.runs.infos[1].candidate == candidate
    ensures s.runs.infos[1].status == Passed(if w.mode == Rebase then Rebased else Merged)
  {
    var submitted := Submitting(w, base, candidate);
    var prepared := Preparing(w, submitted, base, candidate, tested);
    var checked := Checking(w, prepared, base, candidate, tested);
    var published := Publishing(w, checked, base, candidate, tested);
    s := Recording(w, published, candidate, tested);
    LeadsOn(w, Init(base), submitted, prepared);
    LeadsOn(w, Init(base), prepared, checked);
    LeadsOn(w, Init(base), checked, published);
    LeadsOn(w, Init(base), published, s);
  }

  // With a marker behind it, the processor stops.
  lemma TheProcessorCanStop(w: World, base: CommitId) returns (s: State)
    ensures Reachable(w, base, s) && s.pc == Stopped && s.sent == [Shutdown]
  {
    var s1 := Next(w, Init(base), SendMarker);
    s := Next(w, s1, Receive);
    LeadsByStep(w, Init(base), SendMarker);
    LeadsByStep(w, s1, Receive);
    LeadsOn(w, Init(base), s1, s);
  }
}
