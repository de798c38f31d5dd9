// No accepted job is missed by a check in which no job ends before those it started have begun.
module CheckCoverage {
  import opened Prelude
  import opened JobStates
  import opened CheckCoordinator
  import opened CheckProtocol
  import opened CheckProofs
  import opened CheckTheorems

  // A job that has been announced to the loop.
  predicate HasBegun(s: State, job: Name) {
    job in s.open || job in s.completions
  }

  // It is, or will be when the next i messages have been consumed.
  predicate BeginsWithin(s: State, job: Name, i: nat)
    requires i <= |s.messages|
  {
    HasBegun(s, job) || Started(job) in s.messages[..i]
  }

  // No job reports while one that it started is still queued or only claimed, or while it is
  // still asking to start one.
  ghost predicate OutlivesQueueing(s: State, a: Action)
    requires Enabled(s, a)
  {
    && (a.Ask? && a.request.StartJob? ==> a.owner in Announced(s.workers))
    && (a.Report? ==>
          var job := s.workers[a.w].job;
          && (forall c | c in s.parent && s.parent[c] == job :: c !in s.jobs && Claimed(c) !in s.workers)
          && (forall h | h in s.handlers && s.handlers[h].request.StartJob? :: s.handlers[h].owner != job))
  }

  ghost predicate Overlapping(s: State, acts: seq<Action>)
    requires Possible(s, acts)
    decreases |acts|
  {
    acts == [] || (OutlivesQueueing(s, acts[0]) && Overlapping(Next(s, acts[0]), acts[1..]))
  }

  ghost predicate ReachableByOverlap(parallelism: nat, s: State) {
    exists acts :: Possible(Init(parallelism), acts) && Overlapping(Init(parallelism), acts)
                   && After(Init(parallelism), acts) == s
  }

  // Whoever asks to start a job has not reported.
  predicate StartersAreAnnounced(s: State) {
    forall h | h in s.handlers && s.handlers[h].request.StartJob? :: s.handlers[h].owner in Announced(s.workers)
  }

  // A child begins before its parent's completion is consumed.
  predicate ChildrenBeginFirst(s: State) {
    forall c | c in s.parent ::
      && (s.parent[c] in s.completions ==> HasBegun(s, c))
      && forall i | 0 <= i < |s.messages| && s.messages[i].Completed? && s.messages[i].job == s.parent[c] ::
           BeginsWithin(s, c, i)
  }

  // ---- Each step ------------------------------------------------------------------------

  lemma {:induction false} OpenHasStarted(open: set<Name>, messages: seq<Message>, job: Name)
    requires Open(open, messages).Some?
    requires job in Open(open, messages).value || CompletedIn(messages)[job] >= 1
    ensures job in open || Started(job) in messages
    decreases |messages|
  {
    if messages != [] && messages[0] != Started(job) && job !in open {
      var rest := messages[1..];
      match messages[0]
      case Started(other) => OpenHasStarted(open + {other}, rest, job);
      case Completed(other, _) => OpenHasStarted(open - {other}, rest, job);
      case StepStarted(_, _) => OpenHasStarted(open, rest, job);
      case StepCompleted(_, _, _) => OpenHasStarted(open, rest, job);
    }
  }

  lemma StartedBeginsWithinAll(s: State, job: Name)
    requires Conserved(s) && Open(s.open, s.messages) == Some(Announced(s.workers)) && HasStarted(s, job)
    ensures BeginsWithin(s, job, |s.messages|)
  {
    StartedIsSomewhere(s, job);
    assert s.messages[..|s.messages|] == s.messages;
    if job !in s.completions {
      OpenHasStarted(s.open, s.messages, job);
    }
  }

  // What begins within the messages there are still does when more are sent.
  lemma SentLater(s: State, t: State, c: Name, i: nat)
    requires i <= |s.messages| && s.messages <= t.messages && t.open == s.open && t.completions == s.completions
    ensures BeginsWithin(t, c, i) == BeginsWithin(s, c, i)
  {
    assert t.messages[..i] == s.messages[..i];
  }

  lemma OlderCompletions(s: State, t: State)
    requires ChildrenBeginFirst(s) && t.parent == s.parent && t.completions == s.completions && t.open == s.open
    requires s.messages <= t.messages
    ensures forall c, i | c in t.parent && 0 <= i < |s.messages| && t.messages[i].Completed?
                          && t.messages[i].job == t.parent[c] :: BeginsWithin(t, c, i)
  {
    forall c, i | c in t.parent && 0 <= i < |s.messages| && t.messages[i].Completed? && t.messages[i].job == t.parent[c]
      ensures BeginsWithin(t, c, i)
    {
      assert s.messages[i] == t.messages[i] && BeginsWithin(s, c, i);
      SentLater(s, t, c, i);
    }
  }

  // More messages, none of them a completion.
  lemma MoreMessages(s: State, t: State, more: seq<Message>)
    requires ChildrenBeginFirst(s) && t.parent == s.parent && t.completions == s.completions && t.open == s.open
    requires t.messages == s.messages + more && forall m | m in more :: !m.Completed?
    ensures ChildrenBeginFirst(t)
  {
    OlderCompletions(s, t);
    forall i | |s.messages| <= i < |t.messages| ensures !t.messages[i].Completed? {
      assert t.messages[i] in more;
    }
  }

  lemma ReportKeepsOrder(s: State, w: nat)
    requires Inv(s) && Lineage(s) && ChildrenBeginFirst(s)
    requires Enabled(s, Report(w)) && OutlivesQueueing(s, Report(w))
    ensures ChildrenBeginFirst(Next(s, Report(w)))
  {
    var t, n, job := Next(s, Report(w)), |s.messages|, s.workers[w].job;
    assert t.messages == s.messages + [Completed(job, s.workers[w].code)];
    OlderCompletions(s, t);
    forall c | c in s.parent && s.parent[c] == job ensures BeginsWithin(t, c, n) {
      StartedBeginsWithinAll(s, c);
      SentLater(s, t, c, n);
    }
  }

  lemma AnnouncedIsNotOver(s: State, job: Name)
    requires Conserved(s) && job in Announced(s.workers)
    ensures job !in s.completions
    ensures forall m | m in s.messages && m.Completed? :: m.job != job
  {
    var w :| 0 <= w < |s.workers| && (s.workers[w].Busy? || s.workers[w].Leaving?) && s.workers[w].job == job;
    WorkerHoldsAlone(s, w);
    forall m | m in s.messages && m.Completed? ensures m.job != job {
      CompletedIsCounted(s.messages, m);
    }
  }

  lemma StartKeepsOrder(s: State, h: nat)
    requires Conserved(s) && ChildrenBeginFirst(s) && StartersAreAnnounced(s)
    requires Enabled(s, Serve(h)) && s.handlers[h].request.StartJob? && s.handlers[h].request.name !in s.used
    ensures ChildrenBeginFirst(Next(s, Serve(h)))
  {
    var t, name, owner := Next(s, Serve(h)), s.handlers[h].request.name, s.handlers[h].owner;
    assert t.parent == s.parent[name := owner] && t.messages == s.messages;
    AnnouncedIsNotOver(s, owner);
    forall c, i | c in t.parent && 0 <= i < |t.messages| && t.messages[i].Completed? && t.messages[i].job == t.parent[c]
      ensures BeginsWithin(t, c, i)
    {
      assert t.messages[i] in s.messages;
      assert BeginsWithin(s, c, i);
    }
  }

  lemma ConsumedBegins(s: State, c: Name, i: nat)
    requires Enabled(s, Consume) && i < |s.messages| && BeginsWithin(s, c, i + 1)
    ensures i <= |Next(s, Consume).messages| && BeginsWithin(Next(s, Consume), c, i)
  {
    var t := Next(s, Consume);
    ConsumeShape(s);
    if !HasBegun(s, c) && s.messages[0] != Started(c) {
      var j :| 0 <= j < i + 1 && s.messages[j] == Started(c);
      assert t.messages[..i][j - 1] == Started(c);
    }
  }

  lemma ConsumeKeepsChildren(s: State)
    requires ChildrenBeginFirst(s) && Enabled(s, Consume)
    ensures ChildrenBeginFirst(Next(s, Consume))
  {
    var t := Next(s, Consume);
    ConsumeShape(s);
    LineageShape(s, Consume);
    forall c | c in t.parent && t.parent[c] in t.completions ensures HasBegun(t, c) {
      if t.parent[c] !in s.completions {
        assert BeginsWithin(s, c, 0);
      }
      assert HasBegun(s, c);
    }
    forall c, i | c in t.parent && 0 <= i < |t.messages| && t.messages[i].Completed? && t.messages[i].job == t.parent[c]
      ensures BeginsWithin(t, c, i)
    {
      assert s.messages[i + 1] == t.messages[i] && BeginsWithin(s, c, i + 1);
      ConsumedBegins(s, c, i);
    }
  }

  lemma StartersStay(s: State, a: Action)
    requires Inv(s) && StartersAreAnnounced(s) && Enabled(s, a) && OutlivesQueueing(s, a)
    ensures StartersAreAnnounced(Next(s, a))
  {
    var t := Next(s, a);
    match a
    case Take(w) => AnnouncedStays(s.workers, w, t.workers[w]);
    case Announce(w) => AnnouncedGains(s.workers, w);
    case Exit(w, _) => AnnouncedStays(s.workers, w, t.workers[w]);
    case Report(w) =>
      WorkerHoldsAlone(s, w);
      AnnouncedLoses(s.workers, w);
    case Ask(_, _, _) =>
    case Serve(h) => ServeShape(s, h);
    case Consume =>
      ConsumeShape(s);
      LineageShape(s, a);
  }

  lemma ChildrenStayFirst(s: State, a: Action)
    requires Inv(s) && Lineage(s) && ChildrenBeginFirst(s) && StartersAreAnnounced(s)
    requires Enabled(s, a) && OutlivesQueueing(s, a)
    ensures ChildrenBeginFirst(Next(s, a))
  {
    var t := Next(s, a);
    match a
    case Report(w) => ReportKeepsOrder(s, w);
    case Consume => ConsumeKeepsChildren(s);
    case Serve(h) =>
      if s.handlers[h].request.StartJob? && s.handlers[h].request.name !in s.used {
        StartKeepsOrder(s, h);
      } else {
        ServeShape(s, h);
        LineageShape(s, a);
        SentAreStepMessages(s, s.handlers[h].request);
        MoreMessages(s, t, Sent(s, s.handlers[h].request));
      }
    case Announce(w) => MoreMessages(s, t, [Started(s.workers[w].job)]);
    case Take(_) => MoreMessages(s, t, []);
    case Exit(_, _) => MoreMessages(s, t, []);
    case Ask(_, _, _) => MoreMessages(s, t, []);
  }

  lemma {:induction false} OverlapAfter(s: State, acts: seq<Action>)
    requires Inv(s) && Lineage(s) && ChildrenBeginFirst(s) && StartersAreAnnounced(s)
    requires Possible(s, acts) && Overlapping(s, acts)
    ensures Inv(After(s, acts)) && Lineage(After(s, acts)) && ChildrenBeginFirst(After(s, acts))
    decreases |acts|
  {
    if acts != [] {
      InvStep(s, acts[0]);
      LineageStep(s, acts[0]);
      ChildrenStayFirst(s, acts[0]);
      StartersStay(s, acts[0]);
      OverlapAfter(Next(s, acts[0]), acts[1..]);
    }
  }

  // ---- The result -----------------------------------------------------------------------

  // With nothing open, a job whose parent is over is over too.
  lemma {:induction false} NothingIsMissed(s: State, i: nat)
    requires Lineage(s) && ChildrenBeginFirst(s) && s.open == {} && MAIN in s.completions
    requires i < |s.accepted|
    ensures s.accepted[i] in s.completions
    decreases i
  {
    if i > 0 {
      var p := s.parent[s.accepted[i]];
      var j :| 0 <= j < i && s.accepted[j] == p;
      NothingIsMissed(s, j);
    }
  }

  // If no job reports while one that it started is queued or only claimed, the results of a
  // check whose loop has stopped are those of all accepted jobs, once each, whether or not
  // anybody waited for them; and it has not failed exactly when all of them succeeded.
  lemma OverlapIsComplete(parallelism: nat, s: State)
    requires ReachableByOverlap(parallelism, s) && s.tally.stopped
    ensures multiset(NamesOf(s.tally.jobs)) == multiset(s.used) && s.tally.total == |s.used|
    ensures !s.tally.anyFailed <==> forall n | n in s.used :: n in s.completions && s.completions[n] == Succeeded
  {
    var acts :| Possible(Init(parallelism), acts) && Overlapping(Init(parallelism), acts)
                && After(Init(parallelism), acts) == s;
    InvInit(parallelism);
    OverlapAfter(Init(parallelism), acts);
    forall n | n in s.used ensures n in s.completions {
      var i :| 0 <= i < |s.accepted| && s.accepted[i] == n;
      NothingIsMissed(s, i);
    }
    CoverageIff(parallelism, s);
    ResultsAreAccepted(s);
    assert s.completions.Keys == s.used;
    FailureHasAName(s);
  }
}
