/**
 The values the runner works on, and the grouping of a request's targets by queue.

 A target *occurrence* is a position in the request's (filtered) target list: the
 same target may be requested twice, and each occurrence gets its own result row.
 */
module RunnerTypes {
  import opened Options

  type RunId = int
  type QueueId = int

  datatype Status = Queued | Running | Done | Failed | Canceled | Skipped {
    predicate Terminal() {
      Done? || Failed? || Canceled? || Skipped?
    }
  }

  datatype Target = Target(id: int, queue: QueueId)

  /** One accepted call of Enqueue: the runnable targets, and the schedule that fired, if any. */
  datatype Request = Request(targets: seq<Target>, schedule: Option<int>)

  /** One queue's share of a run; `positions` are the occurrences it executes, in order. */
  datatype Job = Job(run: RunId, queue: QueueId, positions: seq<nat>)

  /** A row of the runs table, reduced to what the protocol reads and writes. */
  datatype Row = Row(status: Status, schedule: Option<int>) {
    predicate Active() {
      status.Queued? || status.Running?
    }
  }

  datatype RunState = RunState(
    pending: int, total: nat, done: nat,
    failed: bool, canceled: bool, started: bool)

  /** A run event as clients see it. */
  datatype Event = Event(status: Status, total: nat, done: nat)

  /** The occurrences of `q` among `ts`, ascending. */
  function Positions(ts: seq<Target>, q: QueueId): seq<nat> {
    if ts == [] then []
    else
      var n := |ts| - 1;
      Positions(ts[..n], q) + (if ts[n].queue == q then [n] else [])
  }

  /** The queues of `ts` in order of first appearance. */
  function QueueOrder(ts: seq<Target>): seq<QueueId> {
    if ts == [] then []
    else
      var n := |ts| - 1;
      var order := QueueOrder(ts[..n]);
      if ts[n].queue in order then order else order + [ts[n].queue]
  }

  function JobFor(run: RunId, ts: seq<Target>, q: QueueId): Job {
    Job(run, q, Positions(ts, q))
  }

  /** The jobs a run is split into, one per queue. */
  function JobsOf(run: RunId, ts: seq<Target>): (jobs: seq<Job>)
    ensures |jobs| == |QueueOrder(ts)|
    ensures forall i :: 0 <= i < |jobs| ==> jobs[i] == JobFor(run, ts, QueueOrder(ts)[i])
  {
    var order := QueueOrder(ts);
    seq(|order|, i requires 0 <= i < |order| => JobFor(run, ts, order[i]))
  }

  ghost predicate StrictlyAscending(s: seq<nat>) {
    forall i, j :: 0 <= i < j < |s| ==> s[i] < s[j]
  }

  ghost predicate Distinct<T>(s: seq<T>) {
    forall i, j :: 0 <= i < j < |s| ==> s[i] != s[j]
  }

  /** Positions is exactly the order-preserving subsequence of the request for the queue. */
  lemma {:induction false} PositionsSpec(ts: seq<Target>, q: QueueId)
    ensures StrictlyAscending(Positions(ts, q))
    ensures forall p :: p in Positions(ts, q) <==> 0 <= p < |ts| && ts[p].queue == q
  {
    if ts != [] {
      var n := |ts| - 1;
      PositionsSpec(ts[..n], q);
      var before := Positions(ts[..n], q);
      forall i | 0 <= i < |before| ensures before[i] < n {
        assert before[i] in before;
      }
    }
  }

  /** The queues listed are exactly those some target names, each once. */
  lemma {:induction false} QueueOrderSpec(ts: seq<Target>)
    ensures Distinct(QueueOrder(ts))
    ensures forall q :: q in QueueOrder(ts) <==> exists p :: 0 <= p < |ts| && ts[p].queue == q
  {
    if ts != [] {
      var n := |ts| - 1;
      QueueOrderSpec(ts[..n]);
      assert forall p :: 0 <= p < n ==> ts[..n][p] == ts[p];
      forall q ensures q in QueueOrder(ts) <==> exists p :: 0 <= p < |ts| && ts[p].queue == q {
        if q in QueueOrder(ts[..n]) {
          var p :| 0 <= p < n && ts[..n][p].queue == q;
          assert ts[p].queue == q;
        }
      }
    }
  }

  /** The jobs partition the request: every occurrence is in exactly one job, at one index. */
  lemma JobsPartitionRequest(run: RunId, ts: seq<Target>, p: nat)
    requires p < |ts|
    ensures exists i, k :: 0 <= i < |JobsOf(run, ts)| && 0 <= k < |JobsOf(run, ts)[i].positions|
                           && JobsOf(run, ts)[i].positions[k] == p
    ensures forall i, k, i', k' ::
              && 0 <= i < |JobsOf(run, ts)| && 0 <= i' < |JobsOf(run, ts)|
              && 0 <= k < |JobsOf(run, ts)[i].positions| && 0 <= k' < |JobsOf(run, ts)[i'].positions|
              && JobsOf(run, ts)[i].positions[k] == p && JobsOf(run, ts)[i'].positions[k'] == p
              ==> i == i' && k == k'
  {
    var order, jobs := QueueOrder(ts), JobsOf(run, ts);
    QueueOrderSpec(ts);
    var q := ts[p].queue;
    assert q in order;
    var i :| 0 <= i < |order| && order[i] == q;
    PositionsSpec(ts, q);
    assert p in jobs[i].positions;
    forall i', k' | 0 <= i' < |jobs| && 0 <= k' < |jobs[i'].positions| && jobs[i'].positions[k'] == p
      ensures i' == i
    {
      PositionsSpec(ts, order[i']);
      assert p in Positions(ts, order[i']);
    }
  }

  /** The grouping loop of Enqueue. */
  method GroupByQueue(ts: seq<Target>) returns (order: seq<QueueId>, byQueue: map<QueueId, seq<nat>>)
    ensures order == QueueOrder(ts)
    ensures forall q :: q in byQueue <==> q in order
    ensures forall q :: q in byQueue ==> byQueue[q] == Positions(ts, q)
  {
    order, byQueue := [], map[];
    for n := 0 to |ts|
      invariant order == QueueOrder(ts[..n])
      invariant forall q :: q in byQueue <==> q in order
      invariant forall q :: if q in byQueue then byQueue[q] == Positions(ts[..n], q) else Positions(ts[..n], q) == []
    {
      assert ts[..n + 1][..n] == ts[..n];
      var q := ts[n].queue;
      if q !in byQueue {
        order := order + [q];
        byQueue := byQueue[q := [n]];
      } else {
        byQueue := byQueue[q := byQueue[q] + [n]];
      }
    }
    assert ts[..|ts|] == ts;
  }
}
