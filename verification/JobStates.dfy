// The job state shared by coordinator and request handlers (src/cmd/check.rs, JobStates and
// SharedJobStates; the handlers of src/cmd/worker.rs that update it).
module JobStates {
  import opened Prelude
  import opened StepLog

  type Name = string

  datatype JobStatus = Succeeded | JobFailed

  datatype MarkResult = Marked(step: string) | NoSteps | JobNotFound

  class JobStates {
    var steps: map<Name, seq<Step>>
    var completions: map<Name, JobStatus>
    // The requests served for each job's log, in order.
    ghost var served: map<Name, seq<Op>>

    ghost predicate Valid()
      reads this
    {
      && steps.Keys == served.Keys
      && forall job | job in steps :: steps[job] == Replay(served[job]) && steps[job] != []
    }

    constructor ()
      ensures Valid() && served == map[] && completions == map[]
    {
      steps, completions, served := map[], map[], map[];
    }

    ghost function Served(job: Name): seq<Op>
      reads this
    {
      if job in served then served[job] else []
    }

    function Log(job: Name): seq<Step>
      reads this
    {
      if job in steps then steps[job] else []
    }

    // The LogStep handler; returns the step it completed.
    method LogStep(job: Name, name: string) returns (completed: Option<string>)
      requires Valid()
      modifies this
      ensures Valid() && completions == old(completions)
      ensures served == old(served)[job := old(Served(job)) + [Op.Log(name)]]
      ensures completed.Some? <==> old(Log(job)) != [] && old(Log(job))[|old(Log(job))| - 1].status == Running
      ensures completed.Some? ==> completed.value == old(Log(job))[|old(Log(job))| - 1].name
    {
      var log := Log(job);
      ReplaySnoc(Served(job), Op.Log(name));
      var last := |log| - 1;
      completed := None;
      if log != [] && log[last].status == Running {
        completed := Some(log[last].name);
        log := log[last := log[last].(status := Success)];
      }
      log := log + [Step(name, Running)];
      served := served[job := Served(job) + [Op.Log(name)]];
      steps := steps[job := log];
    }

    // The MarkStepFailed handler. A log is created by its first step, so it is never empty.
    method MarkStepFailed(job: Name, ignore: bool) returns (result: MarkResult)
      requires Valid()
      modifies this
      ensures Valid() && completions == old(completions)
      ensures result != NoSteps
      ensures result.Marked? <==> job in old(steps)
      ensures result.Marked? ==>
                && result.step == old(Log(job))[|old(Log(job))| - 1].name
                && served == old(served)[job := old(Served(job)) + [Mark(ignore)]]
      ensures !result.Marked? ==> served == old(served) && steps == old(steps)
    {
      if job !in steps {
        return JobNotFound;
      }
      var log := steps[job];
      if log == [] {
        return NoSteps;
      }
      var last := |log| - 1;
      ReplaySnoc(served[job], Mark(ignore));
      served := served[job := served[job] + [Mark(ignore)]];
      steps := steps[job := log[last := log[last].(status := Failed(ignore))]];
      return MarkResult.Marked(log[last].name);
    }

    method CompleteJob(job: Name, status: JobStatus)
      requires Valid()
      modifies this
      ensures Valid() && steps == old(steps) && served == old(served)
      ensures completions == old(completions)[job := status]
    {
      completions := completions[job := status];
    }

    // In the log of every job, only the last step can be running.
    lemma OnlyLastStepsRun(job: Name)
      requires Valid() && job in steps
      ensures OnlyLastRunning(steps[job])
    {
      OnlyTheLastStepRuns(served[job]);
    }
  }
}
