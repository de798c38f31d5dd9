// The step log of a job (src/protocol.rs; the LogStep and MarkStepFailed handlers of
// src/cmd/worker.rs; the reading of a finished job's log in src/cmd/check.rs).
module StepLog {
  datatype StepStatus = Running | Success | Failed(ignored: bool)

  datatype Step = Step(name: string, status: StepStatus)

  datatype Op = Log(name: string) | Mark(ignore: bool)

  // Starting a step completes a running one.
  function Logged(log: seq<Step>, name: string): seq<Step> {
    var last := |log| - 1;
    (if log != [] && log[last].status == Running then log[last := log[last].(status := Success)] else log)
    + [Step(name, Running)]
  }

  // Marking overwrites the status of the last step; without steps there is nothing to mark.
  function Marked(log: seq<Step>, ignore: bool): seq<Step> {
    var last := |log| - 1;
    if log == [] then log else log[last := log[last].(status := Failed(ignore))]
  }

  function Apply(log: seq<Step>, op: Op): seq<Step> {
    match op
    case Log(name) => Logged(log, name)
    case Mark(ignore) => Marked(log, ignore)
  }

  // The log after these requests, in the order they were served.
  function Replay(ops: seq<Op>): seq<Step> {
    if ops == [] then [] else Apply(Replay(ops[..|ops| - 1]), ops[|ops| - 1])
  }

  // What the coordinator makes of the log of a job that is over.
  function Finalized(log: seq<Step>): seq<Step> {
    seq(|log|, i requires 0 <= i < |log| =>
      if log[i].status == Running then log[i].(status := Success) else log[i])
  }

  predicate HasFatal(log: seq<Step>) {
    exists i | 0 <= i < |log| :: log[i].status == Failed(false)
  }

  predicate OnlyLastRunning(log: seq<Step>) {
    forall i | 0 <= i < |log| - 1 :: log[i].status != Running
  }

  // A step that starts is appended as running; of the others, only a last one that was running
  // changes, and becomes a success.
  lemma LoggingAppends(log: seq<Step>, name: string)
    ensures var after, n := Logged(log, name), |log|;
            && |after| == n + 1 && after[n] == Step(name, Running)
            && (forall i | 0 <= i < n :: after[i].name == log[i].name)
            && (forall i | 0 <= i < n - 1 :: after[i].status == log[i].status)
            && (n > 0 ==> after[n - 1].status == if log[n - 1].status == Running then Success else log[n - 1].status)
  {
  }

  // A mark changes the status of the last step, and nothing else.
  lemma MarkingOverwrites(log: seq<Step>, ignore: bool)
    ensures var after, n := Marked(log, ignore), |log|;
            && |after| == n
            && (forall i | 0 <= i < n :: after[i].name == log[i].name)
            && (forall i | 0 <= i < n - 1 :: after[i].status == log[i].status)
            && (n > 0 ==> after[n - 1].status == Failed(ignore))
  {
  }

  lemma {:induction false} OnlyTheLastStepRuns(ops: seq<Op>)
    ensures OnlyLastRunning(Replay(ops))
  {
    if ops != [] {
      OnlyTheLastStepRuns(ops[..|ops| - 1]);
    }
  }

  lemma FinalizingKeepsFailures(log: seq<Step>)
    ensures |Finalized(log)| == |log|
    ensures forall i | 0 <= i < |log| :: Finalized(log)[i].name == log[i].name
    ensures forall i | 0 <= i < |log| :: Finalized(log)[i].status != Running
    ensures forall i, f | 0 <= i < |log| :: Finalized(log)[i].status == Failed(f) <==> log[i].status == Failed(f)
    ensures HasFatal(Finalized(log)) <==> HasFatal(log)
  {
    if i :| 0 <= i < |log| && log[i].status == Failed(false) {
      assert Finalized(log)[i].status == Failed(false);
    }
  }

  // The fate of a step that was just marked: later marks overwrite it until a step starts.
  function MarkedLast(ignored: bool, ops: seq<Op>): bool
    decreases |ops|
  {
    if ops == [] || ops[0].Log? then ignored else MarkedLast(ops[0].ignore, ops[1..])
  }

  lemma ReplaySnoc(ops: seq<Op>, op: Op)
    ensures Replay(ops + [op]) == Apply(Replay(ops), op)
  {
    assert (ops + [op])[..|ops|] == ops;
  }

  // No request changes a step that another one follows, unless it was still running.
  lemma {:induction false} EarlierStepsStay(ops: seq<Op>, more: seq<Op>, i: nat)
    requires i < |Replay(ops)| - 1
    ensures i < |Replay(ops + more)| - 1
    ensures Replay(ops + more)[i] == Replay(ops)[i]
    decreases |more|
  {
    OnlyTheLastStepRuns(ops);
    if more == [] {
      assert ops + more == ops;
    } else {
      ReplaySnoc(ops, more[0]);
      assert ops + more == (ops + [more[0]]) + more[1..];
      EarlierStepsStay(ops + [more[0]], more[1..], i);
    }
  }

  // A failure that was marked stays as it was marked last before the next step started.
  lemma {:induction false} MarkedFailureSurvives(ops: seq<Op>, ignored: bool, more: seq<Op>)
    requires Replay(ops) != [] && Replay(ops)[|Replay(ops)| - 1].status == Failed(ignored)
    ensures |Replay(ops + more)| >= |Replay(ops)|
    ensures Replay(ops + more)[|Replay(ops)| - 1].status == Failed(MarkedLast(ignored, more))
    decreases |more|
  {
    if more == [] {
      assert ops + more == ops;
    } else {
      var next := ops + [more[0]];
      ReplaySnoc(ops, more[0]);
      assert ops + more == next + more[1..];
      if more[0].Log? {
        EarlierStepsStay(next, more[1..], |Replay(ops)| - 1);
      } else {
        MarkedFailureSurvives(next, more[0].ignore, more[1..]);
      }
    }
  }

  // A non-ignored failure that was acknowledged is fatal to its job if and only if it is not
  // ignored later while its step is still the last one.
  lemma FatalMarkSurvivesIff(ops: seq<Op>, more: seq<Op>)
    requires Replay(ops) != []
    ensures var i, log := |Replay(ops)| - 1, Finalized(Replay(ops + [Mark(false)] + more));
            && i < |log|
            && (log[i].status == Failed(false) <==> !MarkedLast(false, more))
            && (!MarkedLast(false, more) ==> HasFatal(log))
  {
    ReplaySnoc(ops, Mark(false));
    MarkedFailureSurvives(ops + [Mark(false)], false, more);
    FinalizingKeepsFailures(Replay(ops + [Mark(false)] + more));
  }

  // A request that decides: a fatal mark of a started step with no mark right behind it.
  predicate IsDecisive(ops: seq<Op>, k: int) {
    0 <= k < |ops| && ops[k] == Mark(false) && Replay(ops[..k]) != [] && (k + 1 < |ops| ==> ops[k + 1].Log?)
  }

  // The log has a fatal step exactly when one of the requests was decisive.
  lemma {:induction false} FatalIffDecisiveMark(ops: seq<Op>)
    ensures HasFatal(Replay(ops)) <==> exists k :: IsDecisive(ops, k)
  {
    if HasFatal(Replay(ops)) {
      FatalHasCause(ops);
    }
    if k :| IsDecisive(ops, k) {
      var more := ops[k + 1..];
      assert ops == ops[..k] + [Mark(false)] + more;
      FatalMarkSurvivesIff(ops[..k], more);
      FinalizingKeepsFailures(Replay(ops));
    }
  }

  lemma {:induction false} FatalHasCause(ops: seq<Op>)
    requires HasFatal(Replay(ops))
    ensures exists k :: IsDecisive(ops, k)
  {
    var n := |ops| - 1;
    var init := ops[..n];
    var before := Replay(init);
    if ops[n] == Mark(false) {
      assert IsDecisive(ops, n);
    } else if ops[n].Log? {
      var i :| 0 <= i < |Replay(ops)| && Replay(ops)[i].status == Failed(false);
      assert before[i].status == Failed(false);
      FatalHasCause(init);
      var k :| IsDecisive(init, k);
      assert ops[..k] == init[..k];
      assert IsDecisive(ops, k);
    } else {
      // An ignoring mark: the fatal step is an earlier one.
      var i :| 0 <= i < |Replay(ops)| && Replay(ops)[i].status == Failed(false);
      assert before != [] && i < |before| - 1;
      EarlierFatalHasCause(init, i);
      var k :| IsDecisive(init, k) && k + 1 < |init|;
      assert ops[..k] == init[..k] && ops[k + 1] == init[k + 1];
      assert IsDecisive(ops, k);
    }
  }

  // A fatal step that is not the last one was decided by a mark that is not the last request.
  lemma {:induction false} EarlierFatalHasCause(ops: seq<Op>, i: nat)
    requires i < |Replay(ops)| - 1 && Replay(ops)[i].status == Failed(false)
    ensures exists k :: IsDecisive(ops, k) && k + 1 < |ops|
  {
    var n := |ops| - 1;
    var init := ops[..n];
    var before := Replay(init);
    assert before[i].status == Failed(false);
    if ops[n].Log? {
      FatalHasCause(init);
      var k :| IsDecisive(init, k);
      assert ops[..k] == init[..k];
      assert IsDecisive(ops, k);
    } else {
      EarlierFatalHasCause(init, i);
      var k :| IsDecisive(init, k) && k + 1 < |init|;
      assert ops[..k] == init[..k] && ops[k + 1] == init[k + 1];
      assert IsDecisive(ops, k);
    }
  }
}
