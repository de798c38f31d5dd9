// The runs a daemon knows (src/cmd/mq.rs, MQState; src/mq_protocol.rs).
module RunRegistry {
  import opened Prelude

  type RunId = nat
  type CommitId = string

  datatype PassedReason = Merged | Rebased | NoMerge

  datatype FailedReason =
    | PreClone | PostClone | TestRebase | TestMerge | CheckFailed | PreMerge | MergeFailed
    | PublicationUnverified | BaseResolve

  datatype RunStatus = Queued | Running | Passed(passed: PassedReason) | Failed(failed: FailedReason)

  // started and completed say whether started_at and completed_at are present.
  datatype RunInfo = RunInfo(
    id: RunId,
    candidate: CommitId,
    noMerge: bool,
    status: RunStatus,
    started: bool,
    completed: bool)

  predicate IsTerminal(status: RunStatus) {
    status.Passed? || status.Failed?
  }

  // The abstract value of an MQState.
  datatype Runs = Runs(infos: map<RunId, RunInfo>, nextId: RunId) {
    function Queue(candidate: CommitId, noMerge: bool): Runs {
      Runs(infos[nextId := RunInfo(nextId, candidate, noMerge, Queued, false, false)], nextId + 1)
    }

    predicate Startable(id: RunId) {
      id in infos && !infos[id].started
    }

    function Start(id: RunId): Runs {
      if Startable(id) then
        this.(infos := infos[id := infos[id].(status := Running, started := true)])
      else this
    }

    function Complete(id: RunId, info: RunInfo): Runs {
      if id in infos then this.(infos := infos[id := info]) else this
    }

    // The ids in use are those below the next one, and the timestamps agree with the status.
    ghost predicate Valid() {
      && nextId >= 1
      && (forall id :: id in infos <==> 1 <= id < nextId)
      && (forall id | id in infos ::
            && infos[id].id == id
            && (infos[id].started <==> infos[id].status != Queued)
            && (infos[id].completed <==> IsTerminal(infos[id].status)))
    }
  }

  // A terminal record for a running run: what process_queue hands to complete_run.
  predicate IsOutcomeOf(info: RunInfo, running: RunInfo) {
    && IsTerminal(info.status)
    && info == running.(status := info.status, completed := true)
  }

  predicate DescendingIds(runs: seq<RunInfo>) {
    forall i, j | 0 <= i < j < |runs| :: runs[i].id > runs[j].id
  }

  // Inserts into a list sorted by descending id.
  function InsertDescending(run: RunInfo, sorted: seq<RunInfo>): (r: seq<RunInfo>)
    ensures |r| == |sorted| + 1
    ensures forall x :: x in r <==> x == run || x in sorted
  {
    if sorted == [] || run.id >= sorted[0].id then [run] + sorted
    else [sorted[0]] + InsertDescending(run, sorted[1..])
  }

  function SortDescending(runs: seq<RunInfo>): (r: seq<RunInfo>)
    ensures |r| == |runs|
    ensures forall x :: x in r <==> x in runs
  {
    if runs == [] then [] else InsertDescending(runs[0], SortDescending(runs[1..]))
  }

  predicate DistinctIds(runs: seq<RunInfo>) {
    forall i, j | 0 <= i < j < |runs| :: runs[i].id != runs[j].id
  }

  lemma {:induction false} InsertKeepsOrder(run: RunInfo, sorted: seq<RunInfo>)
    requires DescendingIds(sorted) && forall x | x in sorted :: x.id != run.id
    ensures DescendingIds(InsertDescending(run, sorted))
  {
    if sorted != [] && run.id < sorted[0].id {
      InsertKeepsOrder(run, sorted[1..]);
      var r := InsertDescending(run, sorted[1..]);
      forall x | x in r ensures x.id < sorted[0].id {
        if x != run {
          var k :| 0 <= k < |sorted[1..]| && sorted[1..][k] == x;
          assert x == sorted[k + 1];
        }
      }
      forall k | 0 <= k < |r| ensures r[k].id < sorted[0].id {
        assert r[k] in r;
      }
    }
  }

  lemma {:induction false} SortOrders(runs: seq<RunInfo>)
    requires DistinctIds(runs)
    ensures DescendingIds(SortDescending(runs))
  {
    if runs != [] {
      SortOrders(runs[1..]);
      forall x | x in SortDescending(runs[1..]) ensures x.id != runs[0].id {
        var k :| 0 <= k < |runs[1..]| && runs[1..][k] == x;
        assert x == runs[k + 1];
      }
      InsertKeepsOrder(runs[0], SortDescending(runs[1..]));
    }
  }

  lemma PrefixHasLargest(sorted: seq<RunInfo>, k: nat, x: RunInfo, y: RunInfo)
    requires DescendingIds(sorted) && k <= |sorted|
    requires x in sorted[..k] && y in sorted && y !in sorted[..k]
    ensures y.id < x.id
  {
    var i :| 0 <= i < k && sorted[i] == x;
    var j :| 0 <= j < |sorted| && sorted[j] == y;
    forall a | 0 <= a < k ensures sorted[a] != y {
      assert sorted[..k][a] in sorted[..k];
    }
  }

  class MQState {
    var infos: map<RunId, RunInfo>
    var nextId: RunId

    function State(): Runs
      reads this
    {
      Runs(infos, nextId)
    }

    ghost predicate Valid()
      reads this
    {
      State().Valid()
    }

    constructor ()
      ensures Valid() && State() == Runs(map[], 1)
    {
      infos, nextId := map[], 1;
    }

    method QueueRun(candidate: CommitId, noMerge: bool) returns (info: RunInfo)
      requires Valid()
      modifies this
      ensures Valid()
      ensures State() == old(State()).Queue(candidate, noMerge)
      ensures info.id !in old(infos) && info.id in infos && infos[info.id] == info
      ensures info.candidate == candidate && info.noMerge == noMerge
      ensures info.status == Queued && !info.started && !info.completed
      ensures forall id | id in old(infos) :: id < info.id && id in infos && infos[id] == old(infos[id])
      ensures forall id | id in infos :: id == info.id || id in old(infos)
    {
      var runId := nextId;
      nextId := nextId + 1;
      info := RunInfo(runId, candidate, noMerge, Queued, false, false);
      infos := infos[runId := info];
    }

    // Only a queued run starts; the caller gets its record to work on.
    method StartRun(id: RunId) returns (info: Option<RunInfo>)
      requires Valid()
      modifies this
      ensures Valid()
      ensures State() == old(State()).Start(id)
      ensures info.Some? <==> id in old(infos) && old(infos[id]).status == Queued
      ensures info.Some? ==> info.value == infos[id] == old(infos[id]).(status := Running, started := true)
      ensures info.None? ==> infos == old(infos)
      ensures forall other | other in old(infos) && other != id :: other in infos && infos[other] == old(infos[other])
    {
      if id !in infos {
        return None;
      }
      var entry := infos[id];
      if entry.started {
        return None;
      }
      entry := entry.(status := Running, started := true);
      infos := infos[id := entry];
      return Some(entry);
    }

    method CompleteRun(id: RunId, info: RunInfo)
      requires Valid()
      modifies this
      ensures old(id in infos ==> infos[id].status == Running && IsOutcomeOf(info, infos[id])) ==> Valid()
      ensures State() == old(State()).Complete(id, info)
      ensures if id in old(infos) then id in infos && infos[id] == info else infos == old(infos)
      ensures forall other | other != id && other in old(infos) :: infos[other] == old(infos[other])
    {
      if id in infos {
        infos := infos[id := info];
      }
    }

    function GetRun(id: RunId): Option<RunInfo>
      reads this
    {
      if id in infos then Some(infos[id]) else None
    }

    // The values of the map in some order: a HashMap promises none.
    method Values() returns (runs: seq<RunInfo>)
      requires Valid()
      ensures |runs| == |infos| && DistinctIds(runs)
      ensures forall x :: x in runs <==> x.id in infos && infos[x.id] == x
    {
      runs := [];
      var left := infos.Keys;
      while left != {}
        invariant left <= infos.Keys
        invariant |runs| + |left| == |infos|
        invariant DistinctIds(runs)
        invariant forall x :: x in runs <==> x.id in infos && infos[x.id] == x && x.id !in left
      {
        var id :| id in left;
        runs := runs + [infos[id]];
        left := left - {id};
      }
    }

    // With limit k, exactly the k runs with the largest ids, largest first.
    method ListRuns(limit: Option<nat>) returns (runs: seq<RunInfo>)
      requires Valid()
      ensures DescendingIds(runs)
      ensures |runs| == if limit.Some? && limit.value < |infos| then limit.value else |infos|
      ensures forall x | x in runs :: x.id in infos && infos[x.id] == x
      ensures forall id, x | id in infos && x in runs && infos[id] !in runs :: id < x.id
    {
      var values := Values();
      SortOrders(values);
      var sorted := SortDescending(values);
      runs := sorted;
      if limit.Some? && limit.value < |runs| {
        runs := runs[..limit.value];
      }
      forall id, x | id in infos && x in runs && infos[id] !in runs ensures id < x.id {
        PrefixHasLargest(sorted, |runs|, x, infos[id]);
      }
    }

    // The run that is waited on by default: the newest one (wait_for_run).
    method LatestRun() returns (id: Option<RunId>)
      requires Valid()
      ensures id == if nextId == 1 then None else Some(nextId - 1)
    {
      var runs := ListRuns(Some(1));
      if runs == [] {
        assert |infos| == 0;
        assert nextId - 1 !in infos;
        return None;
      }
      assert runs[0] in runs && 1 in infos;
      assert nextId - 1 in infos && forall x | x in runs :: x == runs[0];
      return Some(runs[0].id);
    }
  }
}
