// Waiting for a process to exit (src/cmd/process_exit.rs): ProcessExitWatcher.wait, the polling
// loop of Linux and remaining_poll_millis. Instants and durations are nanoseconds.
module ExitWatcher {
  import opened Prelude

  const MILLISECOND: nat := 1_000_000
  const C_INT_MAX: nat := 0x7fff_ffff

  datatype WaitOutcome = Exited | TimedOut

  datatype WaitError = InvalidInput | PollFailed | ErrorEvents | UnexpectedEvents

  // What poll returns: no event in time, a signal, an error, or events.
  datatype Poll =
    | Empty
    | Interrupted
    | Failed
    | Events(input: bool, hangup: bool, error: bool, invalid: bool)

  // An exit is reported by input or hangup, unless there is an error event with it.
  predicate ReportsExit(poll: Poll) {
    poll.Events? && !poll.error && !poll.invalid && (poll.input || poll.hangup)
  }

  // One turn of the loop: the clock before the poll, the poll, the clock after an empty poll.
  datatype Turn = Turn(before: nat, poll: Poll, after: nat)

  function Remaining(deadline: nat, now: nat): nat {
    if now < deadline then deadline - now else 0
  }

  // The timeout of a poll: a c_int, zero exactly from the deadline on, and otherwise the whole
  // milliseconds of the remaining time, but at least one and no more than a c_int can hold.
  function RemainingPollMillis(deadline: Option<nat>, now: nat): (millis: nat)
    ensures millis <= C_INT_MAX
    ensures millis == 0 <==> deadline.None? || now >= deadline.value
    ensures deadline.Some? && millis > 0 ==> millis * MILLISECOND < Remaining(deadline.value, now) + MILLISECOND
    ensures deadline.Some? && MILLISECOND <= Remaining(deadline.value, now) ==>
              millis * MILLISECOND <= Remaining(deadline.value, now)
    ensures deadline.Some? && millis < C_INT_MAX ==> Remaining(deadline.value, now) < (millis + 1) * MILLISECOND
  {
    if deadline.None? || now > deadline.value then 0
    else
      var remaining := deadline.value - now;
      if remaining == 0 then 0
      else
        var millis := remaining / MILLISECOND;
        var atLeastOne := if millis < 1 then 1 else millis;
        if atLeastOne > C_INT_MAX then C_INT_MAX else atLeastOne
  }

  // A deadline in a whole number of milliseconds is polled for exactly that number, up to 24
  // days, 20 hours, 31 minutes and 23.647 seconds, the most that a c_int can hold.
  lemma MillisArePolledFor(now: nat, millis: nat)
    ensures RemainingPollMillis(Some(now + millis * 1_000_000), now) ==
              if millis <= 2_147_483_647 then millis else 2_147_483_647
  {
    assert millis * 1_000_000 / MILLISECOND == millis;
  }

  // What the system calls of a wait are assumed to do: the clock does not go back, a poll
  // without events lasts as long as it was asked to, and no signal arrives from turn quiet on.
  ghost predicate Lawful(deadline: Option<nat>, turns: nat -> Turn, quiet: nat) {
    && (forall i: nat :: turns(i).before <= turns(i).after <= turns(i + 1).before)
    && (forall i: nat :: turns(i).poll == Empty ==> Lasts(deadline, turns(i)))
    && (forall i: nat :: quiet <= i ==> turns(i).poll != Interrupted)
  }

  predicate Lasts(deadline: Option<nat>, turn: Turn) {
    turn.before + RemainingPollMillis(deadline, turn.before) * MILLISECOND <= turn.after
  }

  // The loop goes on after a signal, and after an empty poll that ended before the deadline.
  predicate GoesOn(deadline: Option<nat>, turn: Turn) {
    match turn.poll
    case Empty => deadline.Some? && turn.after < deadline.value
    case Interrupted => true
    case _ => false
  }

  // After an empty poll, at least a millisecond less remains.
  lemma EmptyPollUsesTime(deadline: nat, turn: Turn)
    requires turn.poll == Empty && Lasts(Some(deadline), turn) && turn.before < deadline
    ensures Remaining(deadline, turn.after) == 0
            || Remaining(deadline, turn.after) + MILLISECOND <= Remaining(deadline, turn.before)
  {
    var millis := RemainingPollMillis(Some(deadline), turn.before);
    assert millis * MILLISECOND >= MILLISECOND;
  }

  // The n-th turn is the first that does not go on.
  ghost predicate EndsAfter(deadline: Option<nat>, turns: nat -> Turn, n: nat) {
    n > 0 && (forall i | 0 <= i < n - 1 :: GoesOn(deadline, turns(i))) && !GoesOn(deadline, turns(n - 1))
  }

  // A reported exit in turn i ends every wait that gets that far, and no other turn does.
  lemma ReportedExitEnds(deadline: Option<nat>, turns: nat -> Turn, i: nat, n: nat)
    requires ReportsExit(turns(i).poll) && forall j | 0 <= j < i :: GoesOn(deadline, turns(j))
    requires EndsAfter(deadline, turns, n)
    ensures n == i + 1
  {
    assert !GoesOn(deadline, turns(i));
  }

  // What the last poll says about the process.
  predicate Decides(poll: Poll, outcome: Result<WaitOutcome, WaitError>) {
    && (outcome == Ok(TimedOut) <==> poll == Empty)
    && (outcome == Ok(Exited) <==> ReportsExit(poll))
    && (outcome == Err(PollFailed) <==> poll == Failed)
    && (outcome == Err(ErrorEvents) <==> poll.Events? && (poll.error || poll.invalid))
    && outcome != Err(InvalidInput)
  }

  // The polling loop; n turns are used. It ends for every lawful environment.
  method WaitPlatform(deadline: Option<nat>, turns: nat -> Turn, ghost quiet: nat)
      returns (outcome: Result<WaitOutcome, WaitError>, n: nat)
    requires Lawful(deadline, turns, quiet)
    ensures EndsAfter(deadline, turns, n)
    ensures Decides(turns(n - 1).poll, outcome)
    ensures outcome == Ok(TimedOut) && deadline.Some? ==> deadline.value <= turns(n - 1).after
  {
    n := 0;
    while true
      invariant forall i | 0 <= i < n :: GoesOn(deadline, turns(i))
      decreases if n < quiet then quiet - n else 0,
                if deadline.Some? then Remaining(deadline.value, turns(n).before) else 0
    {
      var turn := turns(n);
      ghost var next := turns(n + 1);
      n := n + 1;
      match turn.poll {
        case Empty =>
          if deadline.None? || turn.after >= deadline.value {
            return Ok(TimedOut), n;
          }
          EmptyPollUsesTime(deadline.value, turn);
          assert Remaining(deadline.value, turns(n).before) < Remaining(deadline.value, turn.before);
        case Interrupted =>
        case Failed =>
          return Err(PollFailed), n;
        case Events(input, hangup, error, invalid) =>
          if error || invalid {
            return Err(ErrorEvents), n;
          }
          if input || hangup {
            return Ok(Exited), n;
          }
          return Err(UnexpectedEvents), n;
      }
    }
  }

  // An empty poll that is not interrupted and lasts exactly as long as it was asked to.
  ghost predicate Exact(deadline: nat, turns: nat -> Turn, n: nat) {
    && (forall i: nat | i < n :: turns(i).poll == Empty
          && turns(i).after == turns(i).before + RemainingPollMillis(Some(deadline), turns(i).before) * MILLISECOND)
    && (forall i: nat | i + 1 < n :: turns(i + 1).before == turns(i).after)
  }

  // With exact sleeps the wait ends less than a millisecond after its deadline, or at once if
  // that has passed, however far the deadline is.
  lemma {:induction false} ExactSleepsEndOnTime(deadline: nat, turns: nat -> Turn, n: nat)
    requires n > 0 && Exact(deadline, turns, n)
    requires forall i: nat | i < n - 1 :: GoesOn(Some(deadline), turns(i))
    ensures turns(n - 1).after < deadline + MILLISECOND || turns(n - 1).after == turns(0).before
    decreases n
  {
    if n > 1 {
      var last := turns(n - 1);
      assert last.before == turns(n - 2).after by {
        assert turns(n - 2 + 1).before == turns(n - 2).after;
      }
      assert GoesOn(Some(deadline), turns(n - 2));
      assert last.before < deadline;
    }
  }

  // A timeout beyond the range of the clock is an error; otherwise the deadline is that far
  // from now, and the first turn that does not go on decides: an exit that is reported in time
  // is an exit, the wait does not time out before its deadline, and times out by less than a
  // millisecond if the sleeps are exact.
  method Wait(now: nat, timeout: nat, clockMax: nat, turns: nat -> Turn, ghost quiet: nat)
      returns (outcome: Result<WaitOutcome, WaitError>, n: nat)
    requires now <= turns(0).before && Lawful(Some(now + timeout), turns, quiet)
    ensures outcome == Err(InvalidInput) <==> now + timeout > clockMax
    ensures outcome != Err(InvalidInput) ==>
              EndsAfter(Some(now + timeout), turns, n) && Decides(turns(n - 1).poll, outcome)
    ensures outcome == Ok(TimedOut) ==> now + timeout <= turns(n - 1).after
    ensures outcome == Ok(TimedOut) && Exact(now + timeout, turns, n) ==>
              turns(n - 1).after < now + timeout + MILLISECOND || turns(n - 1).after == turns(0).before
  {
    if now + timeout > clockMax {
      return Err(InvalidInput), 0;
    }
    outcome, n := WaitPlatform(Some(now + timeout), turns, quiet);
    EndsOnTime(now + timeout, turns, n);
  }

  lemma EndsOnTime(deadline: nat, turns: nat -> Turn, n: nat)
    requires EndsAfter(Some(deadline), turns, n)
    ensures Exact(deadline, turns, n) ==>
              turns(n - 1).after < deadline + MILLISECOND || turns(n - 1).after == turns(0).before
  {
    if Exact(deadline, turns, n) {
      ExactSleepsEndOnTime(deadline, turns, n);
    }
  }
}
