// Stopping the daemon (src/cmd/mq.rs, stop_daemon and remove_daemon_dir_if_pid). Between any
// two steps processes may exit and start, process IDs may be used again, and the pid file and
// the socket may change hands.
module DaemonStop {
  import opened Prelude
  import opened ExitWatcher

  type Pid = int

  // A process, as opposed to its process ID, which may be used again after its exit.
  datatype Process = Process(pid: Pid, birth: nat)

  // A file with a process ID; None is contents that are no process ID.
  datatype PidFile = Contents(pid: Option<Pid>) | NotFound | Unreadable

  datatype Response = HelloAck(pid: Pid) | ShutdownAck(pid: Pid) | OtherResponse | NoResponse

  datatype Lookup = Found | NoDaemon | LookupError

  datatype WatchState = Watching(process: Process) | AlreadyExited | CannotWatch

  datatype KillResult = Sent | NoSuchProcess | NotPermitted

  datatype RemoveResult = Removed | AlreadyRemoved | NotRemoved

  datatype StopError =
    | LookupFailed
    | ReadPid
    | ValidatePid
    | ObserveStalePid
    | VerifyIdentity
    | CommunicationFailed
    | ObserveExit
    | RequestShutdown
    | VerifyResponder
    | WaitForExit
    | RecheckExit
    | SendKill
    | WaitForKilled
    | StillAlive
    | VerifyDirectory
    | RemoveDirectory

  // What happens at each of the steps that the client takes, numbered from 0: which processes
  // are alive, and what the client would get if it did this or that.
  datatype Environment = Environment(
    alive: nat -> set<Process>,
    runtimeDir: nat -> Lookup,
    pidFile: nat -> PidFile,
    responder: nat -> Process,
    hello: nat -> Response,
    shutdown: (nat, Pid) -> Response,
    arm: (nat, Pid) -> WatchState,
    wait: (nat, Process) -> Result<WaitOutcome, ()>,
    kill: (nat, Pid) -> KillResult,
    remove: nat -> RemoveResult)

  // Processes do not come back, and a process ID belongs to one process at a time.
  ghost predicate ProcessesAreLawful(e: Environment) {
    && (forall i: nat, j: nat, k: nat, p | i <= j <= k && p in e.alive(i) && p in e.alive(k) :: p in e.alive(j))
    && (forall i: nat, p, q | p in e.alive(i) && q in e.alive(i) && p.pid == q.pid :: p == q)
  }

  // Daemons answer with their own process ID, which is how they are told from each other. A
  // watcher is armed on the process that has the ID, and tells whether that process is alive.
  ghost predicate AnswersAreLawful(e: Environment) {
    && (forall i: nat, pid | e.hello(i) == HelloAck(pid) :: e.responder(i) in e.alive(i) && e.responder(i).pid == pid)
    && (forall i: nat, to, pid | e.shutdown(i, to) == ShutdownAck(pid) ::
          e.responder(i) in e.alive(i) && e.responder(i).pid == pid)
    && (forall i: nat, pid, p | e.arm(i, pid) == Watching(p) :: p in e.alive(i) && p.pid == pid)
    && (forall i: nat, pid | e.arm(i, pid) == AlreadyExited :: NobodyHas(e, i, pid))
    && (forall i: nat, p | e.wait(i, p) == Ok(Exited) :: p !in e.alive(i))
    && (forall i: nat, p | e.wait(i, p) == Ok(TimedOut) :: p in e.alive(i))
  }

  ghost predicate Lawful(e: Environment) {
    ProcessesAreLawful(e) && AnswersAreLawful(e)
  }

  predicate NobodyHas(e: Environment, i: nat, pid: Pid) {
    forall p | p in e.alive(i) :: p.pid != pid
  }

  // What the client does to others, and at which step.
  datatype Effect = AskedToStop(at: nat, pid: Pid) | Killed(at: nat, pid: Pid) | RemovedDirectory(at: nat)

  // Removes the directory at step i + 1 if its pid file still has this ID at step i.
  method RemoveDaemonDirIfPid(e: Environment, i: nat, pid: Pid, effects: seq<Effect>)
      returns (r: Result<(), StopError>, trace: seq<Effect>)
    ensures r == Err(VerifyDirectory) <==> e.pidFile(i) == Unreadable
    ensures r == Err(RemoveDirectory) <==> e.pidFile(i) == Contents(Some(pid)) && e.remove(i + 1) == NotRemoved
    ensures r.Err? ==> r.error == VerifyDirectory || r.error == RemoveDirectory
    ensures trace == effects + if e.pidFile(i) == Contents(Some(pid)) then [RemovedDirectory(i + 1)] else []
  {
    trace := effects;
    match e.pidFile(i)
    case Contents(found) =>
      if found != Some(pid) {
        return Ok(()), trace;
      }
      trace := trace + [RemovedDirectory(i + 1)];
      if e.remove(i + 1) == NotRemoved {
        return Err(RemoveDirectory), trace;
      }
      return Ok(()), trace;
    case NotFound => return Ok(()), trace;
    case Unreadable => return Err(VerifyDirectory), trace;
  }

  // The recorded process ID, if the client gets that far.
  function Recorded(e: Environment): Option<Pid> {
    match e.pidFile(1)
    case Contents(Some(pid)) => if pid > 0 then Some(pid) else None
    case _ => None
  }

  // The steps of a stop that goes all the way: 0 runtime directory, 1 pid file, 2 hello, 3 arm,
  // 4 shutdown, 5 wait, 6 wait again, 7 kill, 8 wait, 9 pid file, 10 remove. A watcher of a
  // stale daemon is armed at step 3 too, and its pid file read again at step 4.
  predicate Acknowledged(e: Environment, pid: Pid) {
    e.hello(2) == HelloAck(pid) && e.shutdown(4, pid) == ShutdownAck(pid)
  }

  // Where the client sees that the recorded process has exited; None: it does not.
  function SeenExited(e: Environment, pid: Pid): Option<nat> {
    match e.arm(3, pid)
    case AlreadyExited => if e.hello(2) == NoResponse || e.hello(2) == HelloAck(pid) then Some(3) else None
    case CannotWatch => None
    case Watching(p) =>
      if !Acknowledged(e, pid) then None
      else
        match e.wait(5, p)
        case Err(_) => None
        case Ok(Exited) => Some(5)
        case Ok(TimedOut) =>
          match e.wait(6, p)
          case Err(_) => None
          case Ok(Exited) => Some(6)
          case Ok(TimedOut) =>
            if e.kill(7, pid) != NotPermitted && e.wait(8, p) == Ok(Exited) then Some(8) else None
  }

  predicate Kills(e: Environment, pid: Pid) {
    match e.arm(3, pid)
    case Watching(p) => Acknowledged(e, pid) && e.wait(5, p) == Ok(TimedOut) && e.wait(6, p) == Ok(TimedOut)
    case _ => false
  }

  // The step of the second look at the pid file, after the process was seen to have exited and
  // if the daemon did not get to clean up by itself.
  function CleansAt(e: Environment, pid: Pid): Option<nat> {
    match SeenExited(e, pid)
    case Some(i) => if i == 3 then Some(4) else if i == 8 then Some(9) else None
    case None => None
  }

  predicate CleanupFails(e: Environment, i: nat, pid: Pid) {
    e.pidFile(i) == Unreadable || (e.pidFile(i) == Contents(Some(pid)) && e.remove(i + 1) == NotRemoved)
  }

  // ---- What that means in the world -----------------------------------------------------

  // From step k on, the process that had the recorded ID when the watcher was armed is gone
  // for good, if there was one.
  ghost predicate GoneBy(e: Environment, pid: Pid, k: nat) {
    NobodyHas(e, 3, pid)
    || exists p :: p in e.alive(3) && p.pid == pid && (forall i: nat | k <= i :: p !in e.alive(i))
  }

  // The watched process is the one that has acknowledged the request to stop, it was alive
  // just before the signal, and the signal reaches no other unless it has exited since.
  ghost predicate AimedAtDaemon(e: Environment, pid: Pid) {
    var daemon := e.responder(4);
    && e.arm(3, pid) == Watching(daemon) && daemon in e.alive(4) && daemon in e.alive(6)
    && forall target | target in e.alive(7) && target.pid == pid ::
         target == daemon || (daemon !in e.alive(7) && target !in e.alive(6))
  }

  lemma SeenExitedIsGone(e: Environment, pid: Pid)
    requires Lawful(e) && SeenExited(e, pid).Some?
    ensures GoneBy(e, pid, SeenExited(e, pid).value)
  {
    if e.arm(3, pid).Watching? {
      var p, k := e.arm(3, pid).process, SeenExited(e, pid).value;
      assert e.wait(k, p) == Ok(Exited);
      assert p in e.alive(3) && p.pid == pid && p !in e.alive(k);
      forall i: nat | k <= i ensures p !in e.alive(i) {}
    }
  }

  lemma KillReachesTheDaemon(e: Environment, pid: Pid)
    requires Lawful(e) && Kills(e, pid)
    ensures AimedAtDaemon(e, pid)
  {
    var p := e.arm(3, pid).process;
    assert p in e.alive(3) && p in e.alive(6) && p in e.alive(4);
    assert e.responder(4) in e.alive(4) && e.responder(4).pid == pid;
  }

  lemma GoneStays(e: Environment, pid: Pid, k: nat, later: nat)
    requires GoneBy(e, pid, k) && k <= later
    ensures GoneBy(e, pid, later)
  {
    if !NobodyHas(e, 3, pid) {
      var p :| p in e.alive(3) && p.pid == pid && forall i: nat | k <= i :: p !in e.alive(i);
      assert forall i: nat | later <= i :: k <= i && p !in e.alive(i);
    }
  }

  // The directory is only removed after the recorded process was seen to have exited, and it
  // has exited for good by then.
  lemma RemovalComesAfterExit(e: Environment, pid: Pid, at: nat)
    requires Lawful(e) && CleansAt(e, pid) == Some(at)
    ensures SeenExited(e, pid).Some? && SeenExited(e, pid).value < at
    ensures GoneBy(e, pid, at)
  {
    SeenExitedIsGone(e, pid);
    GoneStays(e, pid, SeenExited(e, pid).value, at);
  }

  ghost predicate Safe(e: Environment) {
    Recorded(e).Some? ==>
      && (SeenExited(e, Recorded(e).value).Some? ==> GoneBy(e, Recorded(e).value, 8))
      && (Kills(e, Recorded(e).value) ==> AimedAtDaemon(e, Recorded(e).value))
  }

  lemma StopIsSafe(e: Environment)
    ensures Lawful(e) ==> Safe(e)
  {
    if Lawful(e) && Recorded(e).Some? {
      var pid := Recorded(e).value;
      if SeenExited(e, pid).Some? {
        SeenExitedIsGone(e, pid);
        GoneStays(e, pid, SeenExited(e, pid).value, 8);
      }
      if Kills(e, pid) {
        KillReachesTheDaemon(e, pid);
      }
    }
  }

  // There is a runtime directory that records this process ID.
  predicate Starts(e: Environment, pid: Pid) {
    e.runtimeDir(0) == Found && Recorded(e) == Some(pid)
  }

  // It is asked to stop exactly if the responder is the recorded process and can be watched.
  predicate Asks(e: Environment, pid: Pid) {
    Starts(e, pid) && e.hello(2) == HelloAck(pid) && e.arm(3, pid).Watching?
  }

  // The directory is removed at this step, right after the pid file still named the process
  // that was seen to have exited.
  predicate Removes(e: Environment, at: nat) {
    && e.runtimeDir(0) == Found && Recorded(e).Some? && at > 0
    && CleansAt(e, Recorded(e).value) == Some(at - 1) && e.pidFile(at - 1) == Contents(Some(Recorded(e).value))
  }

  // ---- The stop itself ----------------------------------------------------------------

  // What each error says has happened.
  predicate Explains(e: Environment, error: StopError) {
    if error == LookupFailed then e.runtimeDir(0) == LookupError
    else if error == ReadPid then e.runtimeDir(0) == Found && (e.pidFile(1) == NotFound || e.pidFile(1) == Unreadable)
    else if error == ValidatePid then e.runtimeDir(0) == Found && e.pidFile(1).Contents? && Recorded(e).None?
    else e.runtimeDir(0) == Found && Recorded(e).Some? && ExplainsFor(e, Recorded(e).value, error)
  }

  predicate ExplainsFor(e: Environment, pid: Pid, error: StopError) {
    match error
    case ObserveStalePid => e.hello(2) == NoResponse && e.arm(3, pid) == CannotWatch
    case VerifyIdentity =>
      (e.hello(2) == NoResponse && e.arm(3, pid).Watching?) || (e.hello(2).HelloAck? && e.hello(2).pid != pid)
    case ObserveExit => e.hello(2) == HelloAck(pid) && e.arm(3, pid) == CannotWatch
    case CommunicationFailed =>
      || e.hello(2) == OtherResponse || e.hello(2).ShutdownAck?
      || (Asks(e, pid) && (e.shutdown(4, pid) == OtherResponse || e.shutdown(4, pid).HelloAck?))
    case RequestShutdown => Asks(e, pid) && e.shutdown(4, pid) == NoResponse
    case VerifyResponder => Asks(e, pid) && e.shutdown(4, pid).ShutdownAck? && e.shutdown(4, pid).pid != pid
    case VerifyDirectory => CleansAt(e, pid).Some? && e.pidFile(CleansAt(e, pid).value) == Unreadable
    case RemoveDirectory =>
      && CleansAt(e, pid).Some? && e.pidFile(CleansAt(e, pid).value) == Contents(Some(pid))
      && e.remove(CleansAt(e, pid).value + 1) == NotRemoved
    case SendKill => Kills(e, pid) && e.kill(7, pid) == NotPermitted
    case _ => Asks(e, pid) && Acknowledged(e, pid) && ExplainsWait(e, pid, e.arm(3, pid).process, error)
  }

  predicate ExplainsWait(e: Environment, pid: Pid, p: Process, error: StopError) {
    match error
    case WaitForExit => e.wait(5, p).Err?
    case RecheckExit => e.wait(5, p) == Ok(TimedOut) && e.wait(6, p).Err?
    case WaitForKilled => Kills(e, pid) && e.kill(7, pid) != NotPermitted && e.wait(8, p).Err?
    case StillAlive => Kills(e, pid) && e.kill(7, pid) != NotPermitted && e.wait(8, p) == Ok(TimedOut)
    case _ => false
  }

  // The effects, and nothing else, in this order.
  ghost predicate IsTrace(e: Environment, trace: seq<Effect>) {
    && (forall at, to :: AskedToStop(at, to) in trace <==> at == 4 && Asks(e, to))
    && (forall at, to :: Killed(at, to) in trace <==> at == 7 && Starts(e, to) && Kills(e, to))
    && (forall at :: RemovedDirectory(at) in trace <==> Removes(e, at))
    && (forall i, j | 0 <= i < j < |trace| :: trace[i].at < trace[j].at)
  }

  predicate Succeeds(e: Environment, pid: Pid) {
    && SeenExited(e, pid).Some?
    && (CleansAt(e, pid).Some? ==> !CleanupFails(e, CleansAt(e, pid).value, pid))
  }

  // From the request to shut down on.
  method ShutDown(e: Environment, pid: Pid, watched: Process) returns (r: Result<(), StopError>, trace: seq<Effect>)
    requires Asks(e, pid) && e.arm(3, pid) == Watching(watched)
    ensures r.Ok? <==> Succeeds(e, pid)
    ensures r.Err? ==> Explains(e, r.error)
    ensures IsTrace(e, trace)
  {
    trace := [AskedToStop(4, pid)];
    match e.shutdown(4, pid) {
      case NoResponse =>
        return Err(RequestShutdown), trace;
      case ShutdownAck(other) =>
        if other != pid {
          return Err(VerifyResponder), trace;
        }
      case OtherResponse =>
        return Err(CommunicationFailed), trace;
      case HelloAck(_) =>
        return Err(CommunicationFailed), trace;
    }
    assert Acknowledged(e, pid);
    var grace := e.wait(5, watched);
    if grace.Err? {
      return Err(WaitForExit), trace;
    }
    if grace.value == Exited {
      return Ok(()), trace;
    }
    var recheck := e.wait(6, watched);
    if recheck.Err? {
      return Err(RecheckExit), trace;
    }
    if recheck.value == Exited {
      return Ok(()), trace;
    }
    r, trace := ForceStop(e, pid, watched);
  }

  // With the daemon still alive after the recheck.
  method ForceStop(e: Environment, pid: Pid, watched: Process) returns (r: Result<(), StopError>, trace: seq<Effect>)
    requires Asks(e, pid) && e.arm(3, pid) == Watching(watched) && Kills(e, pid)
    ensures r.Ok? <==> Succeeds(e, pid)
    ensures r.Err? ==> Explains(e, r.error)
    ensures IsTrace(e, trace)
  {
    trace := [AskedToStop(4, pid), Killed(7, pid)];
    if e.kill(7, pid) == NotPermitted {
      return Err(SendKill), trace;
    }
    var last := e.wait(8, watched);
    if last.Err? {
      return Err(WaitForKilled), trace;
    }
    if last.value == TimedOut {
      return Err(StillAlive), trace;
    }
    r, trace := RemoveDaemonDirIfPid(e, 9, pid, trace);
  }

  // Without an answer to hello, only a process that is seen to have exited is cleaned up after.
  method StopStale(e: Environment, pid: Pid) returns (r: Result<(), StopError>, trace: seq<Effect>)
    requires Starts(e, pid) && e.hello(2) == NoResponse
    ensures r.Ok? <==> Succeeds(e, pid)
    ensures r.Err? ==> Explains(e, r.error)
    ensures IsTrace(e, trace)
  {
    trace := [];
    match e.arm(3, pid)
    case CannotWatch =>
      return Err(ObserveStalePid), trace;
    case AlreadyExited =>
      r, trace := RemoveDaemonDirIfPid(e, 4, pid, trace);
    case Watching(_) =>
      return Err(VerifyIdentity), trace;
  }

  method StopIdentified(e: Environment, pid: Pid) returns (r: Result<(), StopError>, trace: seq<Effect>)
    requires Starts(e, pid) && e.hello(2) == HelloAck(pid)
    ensures r.Ok? <==> Succeeds(e, pid)
    ensures r.Err? ==> Explains(e, r.error)
    ensures IsTrace(e, trace)
  {
    trace := [];
    match e.arm(3, pid)
    case CannotWatch =>
      return Err(ObserveExit), trace;
    case AlreadyExited =>
      r, trace := RemoveDaemonDirIfPid(e, 4, pid, trace);
    case Watching(watched) =>
      r, trace := ShutDown(e, pid, watched);
  }

  method StopRecorded(e: Environment, pid: Pid) returns (r: Result<(), StopError>, trace: seq<Effect>)
    requires Starts(e, pid)
    ensures r.Ok? <==> Succeeds(e, pid)
    ensures r.Err? ==> Explains(e, r.error)
    ensures IsTrace(e, trace)
  {
    match e.hello(2)
    case NoResponse =>
      r, trace := StopStale(e, pid);
    case HelloAck(other) =>
      if other != pid {
        return Err(VerifyIdentity), [];
      }
      r, trace := StopIdentified(e, pid);
    case OtherResponse =>
      return Err(CommunicationFailed), [];
    case ShutdownAck(_) =>
      return Err(CommunicationFailed), [];
  }

  method StopDaemon(e: Environment) returns (r: Result<(), StopError>, trace: seq<Effect>)
    // It succeeds exactly if there was no daemon to stop, or the recorded process was seen to
    // have exited and the cleanup, if there was one, did not fail; an error says what failed.
    ensures r.Ok? <==>
              || e.runtimeDir(0) == NoDaemon
              || (e.runtimeDir(0) == Found && Recorded(e).Some? && Succeeds(e, Recorded(e).value))
    ensures r.Err? ==> Explains(e, r.error)
    // By then the process that had the recorded ID when the watcher was armed is gone for good,
    // and a signal was aimed at the process that acknowledged the shutdown.
    ensures r.Ok? && e.runtimeDir(0) == Found && Lawful(e) ==> GoneBy(e, Recorded(e).value, 8)
    ensures Lawful(e) ==> forall f | f in trace && f.Killed? :: AimedAtDaemon(e, f.pid)
    ensures IsTrace(e, trace)
    // Only the positive number that the pid file held at step 1 is asked to stop or killed.
    ensures forall f | f in trace && !f.RemovedDirectory? :: f.pid > 0 && e.pidFile(1) == Contents(Some(f.pid))
    ensures forall n | n <= 0 && e.runtimeDir(0) == Found && e.pidFile(1) == Contents(Some(n)) ::
              r == Err(ValidatePid) && trace == []
  {
    StopIsSafe(e);
    trace := [];
    match e.runtimeDir(0) {
      case LookupError =>
        return Err(LookupFailed), trace;
      case NoDaemon =>
        return Ok(()), trace;
      case Found =>
    }
    match e.pidFile(1)
    case Contents(Some(pid)) =>
      if pid <= 0 {
        return Err(ValidatePid), trace;
      }
      r, trace := StopRecorded(e, pid);
    case Contents(None) =>
      return Err(ValidatePid), trace;
    case NotFound =>
      return Err(ReadPid), trace;
    case Unreadable =>
      return Err(ReadPid), trace;
  }
}
