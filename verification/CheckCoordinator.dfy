// The coordinator of a candidate check: its message loop and its result (src/cmd/check.rs,
// run_candidate_check).
module CheckCoordinator {
  import opened Prelude
  import opened StepLog
  import opened JobStates

  datatype Message =
    | Started(job: Name)
    | Completed(job: Name, code: Option<int>)
    | StepStarted(job: Name, step: string)
    | StepCompleted(job: Name, step: string, status: StepStatus)

  datatype CompletedJob = CompletedJob(name: Name, status: JobStatus)

  // The loop's variables. stopped: the loop has left by its break.
  datatype Tally = Tally(active: int, total: int, jobs: seq<CompletedJob>, anyFailed: bool, stopped: bool)

  const EMPTY_TALLY := Tally(0, 0, [], false, false)

  // A job fails by its exit, or by a step that is fatal when its completion is consumed.
  predicate FailsJob(code: Option<int>, log: seq<Step>) {
    code != Some(0) || HasFatal(Finalized(log))
  }

  function StatusOf(code: Option<int>, log: seq<Step>): JobStatus {
    if FailsJob(code, log) then JobFailed else Succeeded
  }

  // One turn of the loop, given the step log that the message's job has at that moment.
  function Consume(t: Tally, m: Message, log: seq<Step>): Tally {
    match m
    case Started(_) => t.(active := t.active + 1, total := t.total + 1)
    case Completed(job, code) =>
      Tally(t.active - 1, t.total,
            t.jobs + [CompletedJob(job, StatusOf(code, log))],
            t.anyFailed || FailsJob(code, log),
            t.active - 1 == 0)
    case _ => t
  }

  // The jobs that have started and not completed, or None if a job completes that has not
  // started or starts twice.
  function Open(open: set<Name>, messages: seq<Message>): Option<set<Name>>
    decreases |messages|
  {
    if messages == [] then Some(open)
    else
      match messages[0]
      case Started(job) => if job in open then None else Open(open + {job}, messages[1..])
      case Completed(job, _) => if job in open then Open(open - {job}, messages[1..]) else None
      case _ => Open(open, messages[1..])
  }

  function OpenStep(open: set<Name>, m: Message): Option<set<Name>> {
    match m
    case Started(job) => if job in open then None else Some(open + {job})
    case Completed(job, _) => if job in open then Some(open - {job}) else None
    case _ => Some(open)
  }

  lemma {:induction false} OpenSnoc(open: set<Name>, messages: seq<Message>, m: Message)
    ensures Open(open, messages + [m])
            == if Open(open, messages).None? then None else OpenStep(Open(open, messages).value, m)
    decreases |messages|
  {
    var more := messages + [m];
    if messages == [] {
      assert more[1..] == [];
    } else {
      assert more[1..] == messages[1..] + [m];
      match messages[0]
      case Started(job) => if job !in open { OpenSnoc(open + {job}, messages[1..], m); }
      case Completed(job, _) => if job in open { OpenSnoc(open - {job}, messages[1..], m); }
      case _ => OpenSnoc(open, messages[1..], m);
    }
  }

  lemma {:induction false} OpenPrefix(open: set<Name>, messages: seq<Message>, n: nat)
    requires n <= |messages| && Open(open, messages).Some?
    ensures Open(open, messages[..n]).Some?
    decreases |messages|
  {
    if n > 0 {
      assert messages[..n][1..] == messages[1..][..n - 1];
      match messages[0]
      case Started(job) => OpenPrefix(open + {job}, messages[1..], n - 1);
      case Completed(job, _) => OpenPrefix(open - {job}, messages[1..], n - 1);
      case _ => OpenPrefix(open, messages[1..], n - 1);
    }
  }

  function Completions(messages: seq<Message>): nat {
    if messages == [] then 0
    else Completions(messages[..|messages| - 1]) + if messages[|messages| - 1].Completed? then 1 else 0
  }

  // The loop is over after n messages when the last of them left no job open.
  predicate StopsAt(messages: seq<Message>, n: int) {
    0 < n <= |messages| && messages[n - 1].Completed? && Open({}, messages[..n]) == Some({})
  }

  // The loop's variables after n messages; logs[i] is the step log of message i's job when
  // the loop gets to it.
  function TallyAfter(messages: seq<Message>, logs: seq<seq<Step>>, n: nat): Tally
    requires |logs| == |messages| && n <= |messages|
  {
    if n == 0 then EMPTY_TALLY else Consume(TallyAfter(messages, logs, n - 1), messages[n - 1], logs[n - 1])
  }

  lemma OpenAfter(messages: seq<Message>, n: nat)
    requires n < |messages| && Open({}, messages).Some?
    ensures Open({}, messages[..n]).Some? && Open({}, messages[..n + 1]).Some?
    ensures Open({}, messages[..n + 1]) == OpenStep(Open({}, messages[..n]).value, messages[n])
  {
    OpenPrefix({}, messages, n);
    OpenPrefix({}, messages, n + 1);
    assert messages[..n + 1] == messages[..n] + [messages[n]];
    OpenSnoc({}, messages[..n], messages[n]);
  }

  // The counters are the jobs open and the jobs completed; neither ever underflows.
  lemma {:induction false} CountersCount(messages: seq<Message>, logs: seq<seq<Step>>, n: nat)
    requires |logs| == |messages| && n <= |messages| && Open({}, messages).Some?
    ensures var t, open := TallyAfter(messages, logs, n), Open({}, messages[..n]);
            && open.Some? && t.active == |open.value|
            && t.total - t.active == |t.jobs| == Completions(messages[..n])
            && (n > 0 && messages[n - 1].Completed? ==> (t.stopped <==> StopsAt(messages, n)))
  {
    if n > 0 {
      CountersCount(messages, logs, n - 1);
      OpenAfter(messages, n - 1);
      assert messages[..n][..n - 1] == messages[..n - 1];
    }
  }

  // The check has failed exactly when one of the completions consumed was a failure, and that
  // is what the collected jobs say.
  lemma {:induction false} FailureIsRecorded(messages: seq<Message>, logs: seq<seq<Step>>, n: nat)
    requires |logs| == |messages| && n <= |messages|
    ensures var t := TallyAfter(messages, logs, n);
            && (t.anyFailed <==>
                  exists i | 0 <= i < n :: messages[i].Completed? && FailsJob(messages[i].code, logs[i]))
            && (t.anyFailed <==> exists j | 0 <= j < |t.jobs| :: t.jobs[j].status == JobFailed)
  {
    if n > 0 {
      FailureIsRecorded(messages, logs, n - 1);
      var before, t := TallyAfter(messages, logs, n - 1), TallyAfter(messages, logs, n);
      assert forall j | 0 <= j < |before.jobs| :: t.jobs[j] == before.jobs[j];
      if messages[n - 1].Completed? {
        assert t.jobs[|before.jobs|].status == StatusOf(messages[n - 1].code, logs[n - 1]);
      }
    }
  }

  // The message loop, over everything that is ever sent on the channel.
  method MessageLoop(messages: seq<Message>, logs: seq<seq<Step>>) returns (t: Tally, n: nat)
    requires |logs| == |messages| && Open({}, messages).Some?
    ensures n <= |messages|
    ensures t == TallyAfter(messages, logs, n).(stopped := t.stopped)
    // It stops at the first completion that leaves no job open, or when the channel closes.
    ensures t.stopped <==> StopsAt(messages, n)
    ensures !t.stopped ==> n == |messages|
    ensures forall k | k < n :: !StopsAt(messages, k)
  {
    var activeJobs, totalJobs, anyJobFailed := 0, 0, false;
    var allJobs: seq<CompletedJob> := [];
    n := 0;
    while n < |messages|
      invariant n <= |messages|
      invariant Tally(activeJobs, totalJobs, allJobs, anyJobFailed, false)
                == TallyAfter(messages, logs, n).(stopped := false)
      invariant forall k | k <= n :: !StopsAt(messages, k)
    {
      var message, log := messages[n], logs[n];
      n := n + 1;
      CountersCount(messages, logs, n);
      match message {
        case Started(_) =>
          activeJobs := activeJobs + 1;
          totalJobs := totalJobs + 1;
        case Completed(job, code) =>
          var failed := FailsJob(code, log);
          if failed {
            anyJobFailed := true;
          }
          allJobs := allJobs + [CompletedJob(job, if failed then JobFailed else Succeeded)];
          activeJobs := activeJobs - 1;
          if activeJobs == 0 {
            return Tally(activeJobs, totalJobs, allJobs, anyJobFailed, true), n;
          }
        case _ =>
      }
    }
    t := Tally(activeJobs, totalJobs, allJobs, anyJobFailed, false);
  }

  datatype CheckError = VcsError

  // The candidate's worktree is not attested where the base's does not match.
  predicate AttestationFails(base: Option<bool>, candidate: Option<bool>) {
    base.None? || (base == Some(true) && candidate.None?)
  }

  // Attests the base worktree and then, if it matches, the candidate's; None is a VCS error.
  method AttestBoth(base: Option<bool>, candidate: Option<bool>) returns (matches: Result<bool, CheckError>)
    ensures matches == Ok(true) <==> base == Some(true) && candidate == Some(true)
    ensures matches.Err? <==> AttestationFails(base, candidate)
  {
    if base.None? {
      return Err(VcsError);
    }
    if !base.value {
      return Ok(false);
    }
    if candidate.None? {
      return Err(VcsError);
    }
    return Ok(candidate.value);
  }

  // The exit code of a check whose worktrees and messages are these, and how many of the
  // messages it consumed. postClone is the result of the hook, if there is one.
  method RunCandidateCheck(
      postClone: Option<bool>,
      baseBefore: Option<bool>, candidateBefore: Option<bool>,
      messages: seq<Message>, logs: seq<seq<Step>>,
      baseAfter: Option<bool>, candidateAfter: Option<bool>)
      returns (exitCode: Result<int, CheckError>, t: Tally, n: nat)
    requires |logs| == |messages| && Open({}, messages).Some?
    ensures n <= |messages|
    // No job is looked at unless the hook did not fail and both worktrees are as exported;
    // then the messages are consumed up to the first completion that leaves no job open.
    ensures postClone == Some(false) || baseBefore != Some(true) || candidateBefore != Some(true) ==> n == 0
    ensures postClone != Some(false) && baseBefore == Some(true) && candidateBefore == Some(true) ==>
              (n < |messages| ==> StopsAt(messages, n)) && forall k | k < n :: !StopsAt(messages, k)
    ensures t.(stopped := false) == TallyAfter(messages, logs, n).(stopped := false)
    ensures t.active >= 0 && t.total - t.active == |t.jobs|
    // The check passes exactly when no worktree was changed before or after the jobs either,
    // and every job whose completion was consumed exited with 0 and without a fatal step.
    ensures exitCode == Ok(0) <==>
              && postClone != Some(false)
              && baseBefore == Some(true) && candidateBefore == Some(true)
              && baseAfter == Some(true) && candidateAfter == Some(true)
              && forall i | 0 <= i < n && messages[i].Completed? :: !FailsJob(messages[i].code, logs[i])
    ensures exitCode.Ok? ==> exitCode.value == 0 || exitCode.value == 1
    // It is an error exactly when an attestation that is reached cannot be made.
    ensures exitCode.Err? <==>
              && postClone != Some(false)
              && (|| AttestationFails(baseBefore, candidateBefore)
                  || (baseBefore == Some(true) && candidateBefore == Some(true)
                      && AttestationFails(baseAfter, candidateAfter)))
  {
    t, n := EMPTY_TALLY, 0;
    if postClone == Some(false) {
      return Ok(1), t, n;
    }
    var before := AttestBoth(baseBefore, candidateBefore);
    if before.Err? {
      return Err(before.error), t, n;
    }
    if !before.value {
      return Ok(1), t, n;
    }
    t, n := MessageLoop(messages, logs);
    CountersCount(messages, logs, n);
    FailureIsRecorded(messages, logs, n);
    var after := AttestBoth(baseAfter, candidateAfter);
    if after.Err? {
      return Err(after.error), t, n;
    }
    exitCode := Ok(if t.anyFailed || !after.value then 1 else 0);
  }
}
