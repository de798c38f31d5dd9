// Waiting for a completion on a condition variable: SharedJobStates, wait_for_completion and
// complete_job (src/cmd/check.rs), and SharedMQState, WaitForRun and complete_run
// (src/cmd/mq.rs). Mutex and condition variable are explicit, in any interleaving, with
// spurious wakeups.
module WaitNotify {
  import opened Prelude

  type Key = nat
  type Value = nat

  // Jobs: known names are under another lock, the completer notifies before it unlocks.
  // Runs: everything is under one lock, the completer unlocks before it notifies.
  datatype Style = Jobs | Runs

  datatype Waiter =
    | Arriving(key: Key)
    | Asking(key: Key)
    | Holding(key: Key)
    | Parked(key: Key)
    | Answered(key: Key, result: Option<Value>)

  // The one thread that records completions. It holds the mutex when Locked, Recorded or
  // Notified; when Unlocked it has yet to notify.
  datatype Completer =
    | Ready
    | Locked(key: Key, value: Value)
    | Recorded(key: Key)
    | Notified(key: Key)
    | Unlocked(key: Key)

  datatype State = State(
    style: Style,
    known: set<Key>,
    results: map<Key, Value>,
    waiters: map<nat, Waiter>,
    completer: Completer)

  datatype Action =
    | Learn(key: Key)
    | Arrive(w: nat, key: Key)
    | Look(w: nat)
    | Acquire(w: nat)
    | Check(w: nat)
    | Spurious(w: nat)
    | Begin(key: Key, value: Value)
    | Record
    | Notify
    | Unlock

  function Init(style: Style): State {
    State(style, {}, map[], map[], Ready)
  }

  predicate CompleterHolds(s: State) {
    s.completer.Locked? || s.completer.Recorded? || s.completer.Notified?
  }

  predicate LockIsFree(s: State) {
    !CompleterHolds(s) && forall w | w in s.waiters :: !s.waiters[w].Holding?
  }

  predicate Enabled(s: State, a: Action) {
    match a
    case Learn(_) => s.style == Runs ==> LockIsFree(s)
    case Arrive(w, _) => w !in s.waiters
    case Look(w) => w in s.waiters && s.waiters[w].Arriving?
    case Acquire(w) => w in s.waiters && s.waiters[w].Asking? && LockIsFree(s)
    case Check(w) => w in s.waiters && s.waiters[w].Holding?
    case Spurious(w) => w in s.waiters && s.waiters[w].Parked?
    case Begin(key, _) => s.completer == Ready && LockIsFree(s) && key in s.known && key !in s.results
    case Record => s.completer.Locked?
    case Notify => if s.style == Jobs then s.completer.Recorded? else s.completer.Unlocked?
    case Unlock => if s.style == Jobs then s.completer.Notified? else s.completer.Recorded?
  }

  function Woken(waiters: map<nat, Waiter>): map<nat, Waiter> {
    map w | w in waiters :: if waiters[w].Parked? then Asking(waiters[w].key) else waiters[w]
  }

  function Next(s: State, a: Action): State
    requires Enabled(s, a)
  {
    match a
    case Learn(key) => s.(known := s.known + {key})
    case Arrive(w, key) => s.(waiters := s.waiters[w := Arriving(key)])
    case Look(w) =>
      var key := s.waiters[w].key;
      s.(waiters := s.waiters[w := if s.style == Jobs && key !in s.known then Answered(key, None) else Asking(key)])
    case Acquire(w) => s.(waiters := s.waiters[w := Holding(s.waiters[w].key)])
    case Check(w) =>
      var key := s.waiters[w].key;
      s.(waiters := s.waiters[w :=
        if key in s.results then Answered(key, Some(s.results[key]))
        else if s.style == Runs && key !in s.known then Answered(key, None)
        else Parked(key)])
    case Spurious(w) => s.(waiters := s.waiters[w := Asking(s.waiters[w].key)])
    case Begin(key, value) => s.(completer := Locked(key, value))
    case Record =>
      s.(results := s.results[s.completer.key := s.completer.value], completer := Recorded(s.completer.key))
    case Notify =>
      s.(waiters := Woken(s.waiters), completer := if s.style == Jobs then Notified(s.completer.key) else Ready)
    case Unlock => s.(completer := if s.style == Jobs then Ready else Unlocked(s.completer.key))
  }

  // ---- Invariant ------------------------------------------------------------------------

  // The completer will still notify, after it has recorded this key.
  predicate NotifyPending(s: State, key: Key) {
    s.completer == Recorded(key) || s.completer == Unlocked(key)
  }

  predicate NoLostWakeup(s: State) {
    forall w | w in s.waiters && s.waiters[w].Parked? && s.waiters[w].key in s.results ::
      NotifyPending(s, s.waiters[w].key)
  }

  predicate Exclusive(s: State) {
    && (forall w | w in s.waiters && s.waiters[w].Holding? :: !CompleterHolds(s))
    && (forall v, w | v in s.waiters && w in s.waiters && s.waiters[v].Holding? && s.waiters[w].Holding? :: v == w)
  }

  predicate Inv(s: State) {
    && Exclusive(s)
    && NoLostWakeup(s)
    && (s.completer.Unlocked? ==> s.style == Runs)
    && (s.completer.Notified? ==> s.style == Jobs)
    && (s.completer.Locked? ==> s.completer.key !in s.results)
    && (forall w | w in s.waiters && s.waiters[w].Answered? && s.waiters[w].result.Some? ::
          s.waiters[w].key in s.results && s.results[s.waiters[w].key] == s.waiters[w].result.value)
  }

  lemma InvStep(s: State, a: Action)
    requires Inv(s) && Enabled(s, a)
    ensures Inv(Next(s, a))
  {
  }

  ghost predicate Possible(s: State, acts: seq<Action>)
    decreases |acts|
  {
    acts == [] || (Enabled(s, acts[0]) && Possible(Next(s, acts[0]), acts[1..]))
  }

  ghost function After(s: State, acts: seq<Action>): State
    requires Possible(s, acts)
    decreases |acts|
  {
    if acts == [] then s else After(Next(s, acts[0]), acts[1..])
  }

  ghost predicate Reachable(style: Style, s: State) {
    exists acts :: Possible(Init(style), acts) && After(Init(style), acts) == s
  }

  lemma {:induction false} InvAfter(s: State, acts: seq<Action>)
    requires Inv(s) && Possible(s, acts)
    ensures Inv(After(s, acts)) && After(s, acts).style == s.style
    decreases |acts|
  {
    if acts != [] {
      InvStep(s, acts[0]);
      InvAfter(Next(s, acts[0]), acts[1..]);
    }
  }

  lemma ReachableInv(style: Style, s: State)
    requires Reachable(style, s)
    ensures Inv(s) && s.style == style
  {
    var acts :| Possible(Init(style), acts) && After(Init(style), acts) == s;
    InvAfter(Init(style), acts);
  }

  // ---- Theorems -------------------------------------------------------------------------

  // Whoever is parked on a key that has a result will still be notified. Where the completer
  // notifies before it unlocks, this happens only inside its critical section.
  lemma NoWakeupIsLost(style: Style, s: State, w: nat)
    requires Reachable(style, s)
    requires w in s.waiters && s.waiters[w].Parked? && s.waiters[w].key in s.results
    ensures NotifyPending(s, s.waiters[w].key)
    ensures style == Jobs ==> s.completer == Recorded(s.waiters[w].key) && CompleterHolds(s)
  {
    ReachableInv(style, s);
  }

  // A waiter is answered with the recorded result, or at once if its key is not known.
  lemma AnswersAreRight(style: Style, s: State, a: Action, w: nat)
    requires Reachable(style, s) && Enabled(s, a)
    requires w in s.waiters && !s.waiters[w].Answered? && Next(s, a).waiters[w].Answered?
    ensures var key, answer := s.waiters[w].key, Next(s, a).waiters[w];
            && answer.key == key
            && match answer.result {
                 case Some(value) => key in s.results && s.results[key] == value
                 case None => key !in s.known && a == if style == Jobs then Look(w) else Check(w)
               }
  {
    ReachableInv(style, s);
  }

  lemma {:induction false} ResultsStay(s: State, acts: seq<Action>, key: Key)
    requires Inv(s) && Possible(s, acts) && key in s.results
    ensures key in After(s, acts).results && After(s, acts).results[key] == s.results[key]
    decreases |acts|
  {
    if acts != [] {
      InvStep(s, acts[0]);
      ResultsStay(Next(s, acts[0]), acts[1..], key);
    }
  }

  // ---- Nobody waits for ever ------------------------------------------------------------

  // A step of the completer, of the holder of the lock, or of the waiter itself.
  predicate Helps(a: Action, w: nat) {
    match a
    case Look(v) => v == w
    case Acquire(v) => v == w
    case Check(_) => true
    case Record => true
    case Notify => true
    case Unlock => true
    case _ => false
  }

  predicate SomeoneHolds(s: State) {
    exists v :: v in s.waiters && s.waiters[v].Holding?
  }

  function Effort(s: State, w: nat): nat
    requires w in s.waiters
  {
    (match s.completer
     case Ready => 0
     case Locked(_, _) => 3
     case Recorded(_) => 2
     case Notified(_) => 1
     case Unlocked(_) => 1)
    + (if SomeoneHolds(s) then 1 else 0)
    + (match s.waiters[w]
       case Arriving(_) => 4
       case Parked(_) => 4
       case Asking(_) => 3
       case Holding(_) => 1
       case Answered(_, _) => 0)
  }

  // While its key has a result and it has no answer, some step helps a waiter.
  lemma HelpfulStep(s: State, w: nat) returns (a: Action)
    requires Inv(s) && w in s.waiters && s.waiters[w].key in s.results && !s.waiters[w].Answered?
    requires s.waiters[w].Arriving? ==> s.waiters[w].key in s.known
    ensures Enabled(s, a) && Helps(a, w)
    ensures var t := Next(s, a);
            && w in t.waiters && t.waiters[w].key == s.waiters[w].key
            && (t.waiters[w].Answered? ==> t.waiters[w].result == Some(s.results[s.waiters[w].key]))
            && t.known == s.known
            && Effort(t, w) < Effort(s, w)
  {
    match s.completer
    case Locked(_, _) => a := Record;
    case Recorded(_) => a := if s.style == Jobs then Notify else Unlock;
    case Notified(_) => a := Unlock;
    case Unlocked(_) => a := Notify;
    case Ready =>
      if v :| v in s.waiters && s.waiters[v].Holding? {
        a := Check(v);
      } else {
        a := if s.waiters[w].Arriving? then Look(w) else Acquire(w);
      }
  }

  lemma {:induction false} HelpedSoon(s: State, w: nat) returns (acts: seq<Action>)
    requires Inv(s) && w in s.waiters && s.waiters[w].key in s.results
    requires s.waiters[w].key in s.known
    requires s.waiters[w].Answered? ==> s.waiters[w].result == Some(s.results[s.waiters[w].key])
    ensures Possible(s, acts) && |acts| <= Effort(s, w) && forall a | a in acts :: Helps(a, w)
    ensures w in After(s, acts).waiters
    ensures After(s, acts).waiters[w] == Answered(s.waiters[w].key, Some(s.results[s.waiters[w].key]))
    decreases Effort(s, w)
  {
    if s.waiters[w].Answered? {
      acts := [];
    } else {
      var a := HelpfulStep(s, w);
      InvStep(s, a);
      ResultsStay(s, [a], s.waiters[w].key);
      var more := HelpedSoon(Next(s, a), w);
      acts := [a] + more;
      assert acts[1..] == more;
    }
  }

  // Keys are known before they get a result.
  lemma {:induction false} KnownAfter(s: State, acts: seq<Action>)
    requires Possible(s, acts) && KnownFirst(s)
    ensures KnownFirst(After(s, acts))
    decreases |acts|
  {
    if acts != [] {
      KnownAfter(Next(s, acts[0]), acts[1..]);
    }
  }

  predicate KnownFirst(s: State) {
    s.results.Keys <= s.known && (s.completer.Locked? ==> s.completer.key in s.known)
  }

  // From every state in which the key of a waiter without an answer has a result, at most
  // eight steps of the completer, the holder of the lock and the waiter itself answer it with
  // that result; no spurious wakeup is needed.
  lemma EveryWaiterCanBeAnswered(style: Style, s: State, w: nat) returns (acts: seq<Action>)
    requires Reachable(style, s)
    requires w in s.waiters && !s.waiters[w].Answered? && s.waiters[w].key in s.results
    ensures |acts| <= 8 && Possible(s, acts) && forall a | a in acts :: Helps(a, w)
    ensures w in After(s, acts).waiters
    ensures After(s, acts).waiters[w] == Answered(s.waiters[w].key, Some(s.results[s.waiters[w].key]))
  {
    ReachableInv(style, s);
    var run :| Possible(Init(style), run) && After(Init(style), run) == s;
    KnownAfter(Init(style), run);
    acts := HelpedSoon(s, w);
  }

  // ---- Unknown keys ---------------------------------------------------------------------

  // Whoever is past the look for its key (Jobs) or parked (Runs) waits for a known key.
  predicate WaitsForKnown(s: State) {
    forall w | w in s.waiters ::
      && (s.waiters[w].Parked? ==> s.waiters[w].key in s.known)
      && (s.style == Jobs && (s.waiters[w].Asking? || s.waiters[w].Holding?) ==> s.waiters[w].key in s.known)
  }

  lemma {:induction false} WaitsForKnownAfter(s: State, acts: seq<Action>)
    requires Possible(s, acts) && WaitsForKnown(s) && KnownFirst(s)
    ensures WaitsForKnown(After(s, acts))
    decreases |acts|
  {
    if acts != [] {
      WaitsForKnownAfter(Next(s, acts[0]), acts[1..]);
    }
  }

  // A wait for a key that is not known when it is looked up is answered by that step, and
  // nobody is ever parked on a key that is not known.
  lemma UnknownIsAnswered(style: Style, s: State, w: nat)
    requires Reachable(style, s) && w in s.waiters
    ensures s.waiters[w].Parked? ==> s.waiters[w].key in s.known
    ensures style == Jobs && s.waiters[w].Arriving? && s.waiters[w].key !in s.known ==>
              Next(s, Look(w)).waiters[w] == Answered(s.waiters[w].key, None)
    ensures style == Runs && s.waiters[w].Holding? && s.waiters[w].key !in s.known ==>
              Next(s, Check(w)).waiters[w] == Answered(s.waiters[w].key, None)
  {
    ReachableInv(style, s);
    var acts :| Possible(Init(style), acts) && After(Init(style), acts) == s;
    WaitsForKnownAfter(Init(style), acts);
    KnownAfter(Init(style), acts);
  }

  // A wait for a key that is known when it is looked up goes on, and is parked by its check
  // exactly if there is no result yet.
  lemma KnownIsWaitedFor(style: Style, s: State, w: nat)
    requires Reachable(style, s) && w in s.waiters && s.waiters[w].key in s.known
    ensures s.waiters[w].Arriving? ==> Next(s, Look(w)).waiters[w] == Asking(s.waiters[w].key)
    ensures s.waiters[w].Holding? ==>
              (Next(s, Check(w)).waiters[w] == Parked(s.waiters[w].key) <==> s.waiters[w].key !in s.results)
  {
    ReachableInv(style, s);
  }

  // ---- What the others may do -----------------------------------------------------------

  // The completer and the holder of the lock get out of the way by themselves, within four
  // steps and without a new result for this key.
  lemma {:induction false} LockIsFreed(s: State, key: Key) returns (acts: seq<Action>)
    requires Inv(s) && key !in s.results && (s.completer.Locked? ==> s.completer.key != key)
    ensures Possible(s, acts) && |acts| <= Busyness(s) && forall a | a in acts :: Helps(a, 0)
    ensures var t := After(s, acts);
            Inv(t) && t.completer == Ready && LockIsFree(t) && t.known == s.known && key !in t.results
    decreases Busyness(s)
  {
    if s.completer == Ready && LockIsFree(s) {
      acts := [];
    } else {
      var a := FreeingStep(s);
      InvStep(s, a);
      var more := LockIsFreed(Next(s, a), key);
      acts := [a] + more;
      assert acts[1..] == more;
    }
  }

  function Busyness(s: State): nat {
    (match s.completer
     case Ready => 0
     case Locked(_, _) => 3
     case Recorded(_) => 2
     case Notified(_) => 1
     case Unlocked(_) => 1)
    + (if SomeoneHolds(s) then 1 else 0)
  }

  lemma FreeingStep(s: State) returns (a: Action)
    requires Inv(s) && !(s.completer == Ready && LockIsFree(s))
    ensures Enabled(s, a) && Busyness(Next(s, a)) < Busyness(s)
    ensures (forall w: nat :: Helps(a, w)) && !a.Begin?
  {
    match s.completer
    case Locked(_, _) => a := Record;
    case Recorded(_) => a := if s.style == Jobs then Notify else Unlock;
    case Notified(_) => a := Unlock;
    case Unlocked(_) => a := Notify;
    case Ready =>
      var v :| v in s.waiters && s.waiters[v].Holding?;
      a := Check(v);
  }

  // Every known key that has no result, and is not just getting one, can be given any result
  // within six steps from every reachable state: waiting never keeps a completion out.
  lemma EveryKnownKeyCanBeCompleted(style: Style, s: State, key: Key, value: Value) returns (acts: seq<Action>)
    requires Reachable(style, s) && key in s.known && key !in s.results
    requires s.completer.Locked? ==> s.completer.key != key
    ensures Possible(s, acts) && |acts| <= 6
    ensures var t := After(s, acts); key in t.results && t.results[key] == value
  {
    ReachableInv(style, s);
    var before := LockIsFreed(s, key);
    var t := After(s, before);
    var u := Next(t, Begin(key, value));
    Unrolled(t, [Begin(key, value), Record], [t, u, Next(u, Record)]);
    RunsAppend(s, before, [Begin(key, value), Record]);
    acts := before + [Begin(key, value), Record];
  }

  // A spurious wakeup is possible at any time, and the loop around the wait makes it harmless:
  // with the lock free and no result yet, the waiter looks again and everything is as before.
  lemma SpuriousWakeupIsHarmless(style: Style, s: State, w: nat)
    requires Reachable(style, s) && w in s.waiters && s.waiters[w].Parked?
    ensures Possible(s, [Spurious(w)])
    ensures LockIsFree(s) && s.waiters[w].key !in s.results ==>
              var acts := [Spurious(w), Acquire(w), Check(w)]; Possible(s, acts) && After(s, acts) == s
  {
    var key := s.waiters[w].key;
    UnknownIsAnswered(style, s, w);
    if LockIsFree(s) && key !in s.results {
      var asking := Next(s, Spurious(w));
      var holding := Next(asking, Acquire(w));
      assert s.waiters == s.waiters[w := Asking(key)][w := Holding(key)][w := Parked(key)];
      Unrolled(s, [Spurious(w), Acquire(w), Check(w)], [s, asking, holding, s]);
    }
  }

  // The known jobs are under a lock of their own: a job can be registered at any time, and
  // before or after any other step but a look for that very job makes no difference.
  lemma RegisteringCommutes(s: State, key: Key, a: Action)
    requires s.style == Jobs && Enabled(s, a) && !(a.Look? && s.waiters[a.w].key == key)
    ensures Enabled(s, Learn(key)) && Enabled(Next(s, Learn(key)), a) && Enabled(Next(s, a), Learn(key))
    ensures Next(Next(s, Learn(key)), a) == Next(Next(s, a), Learn(key))
  {
    if a.Learn? {
      assert s.known + {key} + {a.key} == s.known + {a.key} + {key};
    }
  }

  // ---- What the actions have made of it -------------------------------------------------

  predicate Learnt(acts: seq<Action>, key: Key) {
    exists i | 0 <= i < |acts| :: acts[i] == Learn(key)
  }

  // The state is what the actions were about: keys are known that were learnt, waiters wait
  // for the key they came with, and results are those that were completed.
  ghost predicate MadeBy(s: State, acts: seq<Action>) {
    && (forall key :: key in s.known <==> Learnt(acts, key))
    && (forall w :: w in s.waiters <==> exists i | 0 <= i < |acts| :: acts[i].Arrive? && acts[i].w == w)
    && (forall w | w in s.waiters :: Arrive(w, s.waiters[w].key) in acts)
    && (forall key | key in s.results :: Begin(key, s.results[key]) in acts)
    && (s.completer.Locked? ==> Begin(s.completer.key, s.completer.value) in acts)
  }

  lemma MadeByStep(s: State, acts: seq<Action>, a: Action)
    requires MadeBy(s, acts) && Enabled(s, a)
    ensures MadeBy(Next(s, a), acts + [a])
  {
    var t, more := Next(s, a), acts + [a];
    assert more[|acts|] == a;
    forall x | x in acts ensures x in more {
      var i :| 0 <= i < |acts| && acts[i] == x;
      assert more[i] == x;
    }
    forall key ensures key in t.known <==> Learnt(more, key) {
      if Learnt(acts, key) {
        var i :| 0 <= i < |acts| && acts[i] == Learn(key);
        assert more[i] == Learn(key);
      }
      if a == Learn(key) {
        assert more[|acts|] == Learn(key);
      }
    }
    forall w ensures w in t.waiters <==> exists i | 0 <= i < |more| :: more[i].Arrive? && more[i].w == w {
      if i :| 0 <= i < |acts| && acts[i].Arrive? && acts[i].w == w {
        assert more[i].Arrive? && more[i].w == w;
      }
      if a.Arrive? && a.w == w {
        assert more[|acts|].Arrive?;
      }
    }
  }

  lemma {:induction false} MadeByAfter(s: State, acts: seq<Action>, before: seq<Action>)
    requires MadeBy(s, before) && Possible(s, acts)
    ensures MadeBy(After(s, acts), before + acts)
    decreases |acts|
  {
    if acts == [] {
      assert before + acts == before;
    } else {
      MadeByStep(s, before, acts[0]);
      MadeByAfter(Next(s, acts[0]), acts[1..], before + [acts[0]]);
      assert before + [acts[0]] + acts[1..] == before + acts;
    }
  }

  lemma StateIsMadeByItsActions(style: Style, acts: seq<Action>)
    requires Possible(Init(style), acts)
    ensures MadeBy(After(Init(style), acts), acts)
  {
    MadeByAfter(Init(style), acts, []);
    assert [] + acts == acts;
  }

  // Someone who waits before the completion is parked, notified and answered, in both styles.
  lemma AParkedWaiterIsAnswered(style: Style) returns (parked: State, answered: State)
    ensures Reachable(style, parked) && Reachable(style, answered)
    ensures 0 in parked.waiters && parked.waiters[0] == Parked(7)
    ensures 0 in answered.waiters && answered.waiters[0] == Answered(7, Some(1)) && answered.completer == Ready
  {
    var s0 := Init(style);
    var s1 := Next(s0, Learn(7));
    var s2 := Next(s1, Arrive(0, 7));
    var s3 := Next(s2, Look(0));
    var s4 := Next(s3, Acquire(0));
    parked := Next(s4, Check(0));
    var acts := [Learn(7), Arrive(0, 7), Look(0), Acquire(0), Check(0)];
    Unrolled(s0, acts, [s0, s1, s2, s3, s4, parked]);
    var more;
    answered, more := Completed(parked);
    RunsAppend(s0, acts, more);
  }

  lemma Completed(s: State) returns (t: State, acts: seq<Action>)
    requires s.waiters == map[0 := Parked(7)] && s.completer == Ready && 7 in s.known && s.results == map[]
    ensures Possible(s, acts) && After(s, acts) == t
    ensures 0 in t.waiters && t.waiters[0] == Answered(7, Some(1)) && t.completer == Ready
  {
    var s1 := Next(s, Begin(7, 1));
    var s2 := Next(s1, Record);
    var first, second := if s.style == Jobs then Notify else Unlock, if s.style == Jobs then Unlock else Notify;
    var s3 := Next(s2, first);
    var s4 := Next(s3, second);
    assert s4.waiters[0] == Asking(7);
    var s5 := Next(s4, Acquire(0));
    t := Next(s5, Check(0));
    acts := [Begin(7, 1), Record, first, second, Acquire(0), Check(0)];
    Unrolled(s, acts, [s, s1, s2, s3, s4, s5, t]);
  }

  lemma {:induction false} Unrolled(s: State, acts: seq<Action>, states: seq<State>)
    requires |states| == |acts| + 1 && states[0] == s
    requires forall i | 0 <= i < |acts| :: Enabled(states[i], acts[i]) && Next(states[i], acts[i]) == states[i + 1]
    ensures Possible(s, acts) && After(s, acts) == states[|acts|]
    decreases |acts|
  {
    if acts != [] {
      Unrolled(states[1], acts[1..], states[1..]);
    }
  }

  lemma {:induction false} RunsAppend(s: State, acts: seq<Action>, more: seq<Action>)
    requires Possible(s, acts) && Possible(After(s, acts), more)
    ensures Possible(s, acts + more) && After(s, acts + more) == After(After(s, acts), more)
    decreases |acts|
  {
    if acts == [] {
      assert acts + more == more;
    } else {
      assert (acts + more)[1..] == acts[1..] + more;
      RunsAppend(Next(s, acts[0]), acts[1..], more);
    }
  }
}
