/**
 The runner as an object: the fields `Runner.mu` guards, and one method per critical
 section, written as the source writes them and proved to compute the section
 functions that the transition system takes its steps with.
 */
module RunnerObject {
  import opened Options
  import opened RunnerTypes
  import opened RunnerModel
  import opened RunnerAdmission

  lemma NothingToOpen(chans: map<QueueId, seq<Job>>)
    ensures WithQueues(chans, []) == chans && NewQueues(chans, []) == []
  {
  }

  /** Opening one more queue extends both the channels and the list of workers. */
  lemma OpenOneMore(chans: map<QueueId, seq<Job>>, order: seq<QueueId>, i: nat)
    requires i < |order|
    ensures var q, c := order[i], WithQueues(chans, order[..i]);
            && WithQueues(chans, order[..i + 1]) == c[q := Get(c, q)]
            && NewQueues(chans, order[..i + 1]) == NewQueues(chans, order[..i]) + (if q in c then [] else [q])
  {
    assert order[..i + 1][..i] == order[..i];
    assert order[..i + 1] == order[..i] + [order[i]];
  }

  lemma AllFlagged(sh: Shared, runs: map<RunId, RunState>)
    ensures runs.Keys == sh.runs.Keys && (forall r :: r in sh.runs ==> runs[r] == sh.runs[r].(canceled := true)) ==>
              MarkAllSection(sh) == sh.(runs := runs, ctxDone := sh.ctxDone + sh.runs.Keys)
  {
    if runs.Keys == sh.runs.Keys && forall r :: r in sh.runs ==> runs[r] == sh.runs[r].(canceled := true) {
      ghost var flagged := map r | r in sh.runs :: sh.runs[r].(canceled := true);
      assert flagged.Keys == runs.Keys;
      assert runs == flagged;
    }
  }

  class Runner {
    var runs: map<RunId, RunState>
    var finalizing: set<RunId>
    var queues: map<QueueId, seq<Job>>
    var closed: set<QueueId>
    var ctxDone: set<RunId>
    var closing: bool
    var started: bool
    var workers: seq<QueueId>
    const queueCap: nat
    const hooked: bool

    /** The value the transition system sees. */
    function View(): Shared
      reads this
    {
      Shared(runs, finalizing, queues, closed, ctxDone, closing, started, queueCap, workers, hooked)
    }

    constructor (cap: int, hook: bool)
      ensures View() == Shared(map[], {}, map[], {}, {}, false, false, if cap <= 0 then 32 else cap, [], hook)
    {
      runs, finalizing, queues, closed, ctxDone := map[], {}, map[], {}, {};
      closing, started, workers := false, false, [];
      queueCap, hooked := if cap <= 0 then 32 else cap, hook;
    }

    method Start()
      modifies this
      ensures View() == old(View()).(started := true)
    {
      started := true;
    }

    /** queueChan: creates the channel and spawns its worker on first use. */
    method QueueChan(id: QueueId)
      modifies this
      ensures View() == old(View()).(chans := old(queues)[id := Get(old(queues), id)],
                                     workers := if id in old(queues) then old(workers) else old(workers) + [id])
    {
      if id !in queues {
        queues := queues[id := []];
        workers := workers + [id];
      } else {
        assert queues == queues[id := Get(queues, id)];
      }
    }

    method BeginFinalize(run: RunId)
      modifies this
      ensures View() == old(View()).(finalizing := old(finalizing) + {run})
    {
      finalizing := finalizing + {run};
    }

    method EndFinalize(run: RunId)
      modifies this
      ensures View() == old(View()).(finalizing := old(finalizing) - {run})
    {
      finalizing := finalizing - {run};
    }

    /** The loop of Enqueue that opens the channels it will send on. */
    method OpenQueues(order: seq<QueueId>)
      modifies this
      ensures View() == old(View()).(chans := WithQueues(old(queues), order), workers := old(workers) + NewQueues(old(queues), order))
    {
      hide WithQueues, NewQueues;
      ghost var queues0, workers0 := queues, workers;
      NothingToOpen(queues0);
      for i := 0 to |order|
        invariant queues == WithQueues(queues0, order[..i]) && workers == workers0 + NewQueues(queues0, order[..i])
        invariant View() == old(View()).(chans := queues, workers := workers)
      {
        OpenOneMore(queues0, order, i);
        QueueChan(order[i]);
      }
      assert order[..|order|] == order;
    }

    /** The loop of Enqueue that sends the jobs, stopping at the first full channel. */
    method SendJobs(run: RunId, order: seq<QueueId>, byQueue: map<QueueId, seq<nat>>, ghost jobs: seq<Job>) returns (full: bool)
      requires |order| == |jobs|
      requires forall i :: 0 <= i < |order| ==> order[i] in byQueue && jobs[i] == Job(run, order[i], byQueue[order[i]])
      modifies this
      ensures View() == old(View()).(chans := queues) && (queues, full) == SendAll(old(queues), jobs, queueCap)
    {
      full := false;
      var i := 0;
      assert jobs[0..] == jobs;
      while i < |order| && !full
        invariant 0 <= i <= |order|
        invariant View() == old(View()).(chans := queues)
        invariant SendAll(old(queues), jobs, queueCap) == if full then (queues, true) else SendAll(queues, jobs[i..], queueCap)
        decreases |order| - i, !full
      {
        var job := Job(run, order[i], byQueue[order[i]]);
        assert job == jobs[i] && jobs[i..][1..] == jobs[i + 1..];
        if |Get(queues, order[i])| < queueCap {
          queues := queues[order[i] := Get(queues, order[i]) + [job]];
          i := i + 1;
        } else {
          full := true;
        }
      }
    }

    /** The r.mu section of Enqueue. */
    method Register(run: RunId, ts: seq<Target>) returns (refused: bool, queueFull: bool)
      modifies this
      ensures refused == (old(closing) || !old(started))
      ensures refused ==> !queueFull && View() == old(View()).(ctxDone := old(ctxDone) + {run})
      ensures !refused ==> (View(), queueFull) == RegisterSection(old(View()), run, ts)
      ensures !refused ==> (queueFull <==> exists p :: 0 <= p < |ts| && |Get(old(queues), ts[p].queue)| >= queueCap)
      ensures queueFull ==> runs == old(runs) - {run} && ctxDone == old(ctxDone) + {run} && finalizing == old(finalizing)
      ensures !refused && !queueFull ==>
                && runs == old(runs)[run := RunState(|QueueOrder(ts)|, |ts|, 0, false, false, false)]
                && ctxDone == old(ctxDone) && finalizing == old(finalizing) - {run}
    {
      RegisterFull(View(), run, ts);
      hide WithQueues, NewQueues, SendAll, QueueOrder, Positions;
      var order, byQueue := GroupByQueue(ts);
      queueFull := false;
      refused := closing || !started;
      if refused {
        ctxDone := ctxDone + {run};
        return;
      }
      ghost var runs0 := runs;
      runs := runs[run := RunState(|order|, |ts|, 0, false, false, false)];
      OpenQueues(order);
      queueFull := SendJobs(run, order, byQueue, JobsOf(run, ts));
      if queueFull {
        ctxDone := ctxDone + {run};
        runs := runs - {run};
        assert runs == runs0 - {run};
      } else {
        finalizing := finalizing - {run};
      }
    }

    /** The r.mu section of Cancel. */
    method Cancel(run: RunId) returns (tracked: bool, claimed: bool, total: nat)
      modifies this
      ensures tracked == (run in old(runs))
      ensures !tracked ==> View() == old(View()) && !claimed
      ensures tracked ==> View() == CancelSection(old(View()), run) && claimed == !old(runs)[run].started && total == old(runs)[run].total
      ensures tracked && !claimed ==>
                View() == old(View()).(runs := old(runs)[run := old(runs)[run].(canceled := true)], ctxDone := old(ctxDone) + {run})
      ensures tracked && claimed ==>
                View() == old(View()).(runs := old(runs) - {run}, finalizing := old(finalizing) + {run}, ctxDone := old(ctxDone) + {run})
    {
      tracked, claimed, total := run in runs, false, 0;
      if !tracked {
        return;
      }
      var st := runs[run].(canceled := true);
      ghost var runs0 := runs;
      runs := runs[run := st];
      claimed, total := !st.started, st.total;
      if claimed {
        runs := runs - {run};
        finalizing := finalizing + {run};
        assert runs == runs0 - {run};
      }
      ctxDone := ctxDone + {run};
    }

    /** The r.mu section of cancelOrphan. */
    method MayBeOrphan(run: RunId) returns (ok: bool)
      ensures ok == (run !in runs && run !in finalizing)
    {
      ok := !(run in runs || run in finalizing);
    }

    /** The opening section of execute: whether to go on, and with which total. */
    method BeginExecute(run: RunId) returns (tracked: bool, canceled: bool, total: nat)
      modifies this
      ensures tracked == (run in old(runs))
      ensures tracked ==> canceled == (old(runs)[run].canceled || old(closing) || run in old(ctxDone))
      ensures View() == if tracked && !canceled then StartSection(old(View()), run) else old(View())
      ensures tracked && !canceled ==> View() == old(View()).(runs := old(runs)[run := old(runs)[run].(started := true)])
      ensures tracked && !canceled ==> total == old(runs)[run].total
    {
      tracked, canceled, total := run in runs, false, 0;
      if !tracked {
        return;
      }
      var st := runs[run];
      if st.canceled || closing || run in ctxDone {
        canceled := true;
        return;
      }
      runs := runs[run := st.(started := true)];
      total := st.total;
    }

    method MarkTargetDone(run: RunId) returns (total: nat, done: nat, ok: bool)
      modifies this
      ensures ok == (run in old(runs))
      ensures View() == if ok then MarkSection(old(View()), run) else old(View())
      ensures ok ==> View() == old(View()).(runs := old(runs)[run := old(runs)[run].(done := old(runs)[run].done + 1)])
      ensures ok ==> total == runs[run].total && done == runs[run].done
    {
      total, done, ok := 0, 0, run in runs;
      if ok {
        var st := runs[run].(done := runs[run].done + 1);
        runs := runs[run := st];
        total, done := st.total, st.done;
      }
    }

    /** The r.mu section of finishQueue; `claim` is the terminal status this call must write. */
    method FinishQueue(run: RunId, failed: bool, canceled: bool) returns (claim: Option<Status>, total: nat, done: nat)
      modifies this
      ensures run !in old(runs) ==> claim.None? && View() == old(View())
      ensures run in old(runs) ==> View() == FinishSection(old(View()), run, failed, canceled)
      ensures run in old(runs) ==>
                var st := Outcome(old(runs)[run], failed, canceled);
                && claim == (if st.pending > 0 then None else Some(FinalStatus(st)))
                && (claim.Some? ==> total == st.total && done == st.done)
      ensures run in old(runs) ==>
                var st := old(runs)[run];
                if st.pending > 1 then
                  && claim == None
                  && View() == old(View()).(runs := old(runs)[run := st.(failed := st.failed || failed, canceled := st.canceled || canceled,
                                                                         pending := st.pending - 1)])
                else
                  && claim == Some(if st.canceled || canceled then Canceled else if st.failed || failed then Failed else Done)
                  && View() == old(View()).(runs := old(runs) - {run}, finalizing := old(finalizing) + {run}, ctxDone := old(ctxDone) + {run})
    {
      claim, total, done := None, 0, 0;
      if run !in runs {
        return;
      }
      var st := runs[run];
      if failed {
        st := st.(failed := true);
      }
      if canceled {
        st := st.(canceled := true);
      }
      st := st.(pending := st.pending - 1);
      if st.pending > 0 {
        runs := runs[run := st];
        return;
      }
      runs := runs - {run};
      finalizing := finalizing + {run};
      total, done := st.total, st.done;
      var status := Done;
      if st.canceled {
        status := Canceled;
      } else if st.failed {
        status := Failed;
      }
      ctxDone := ctxDone + {run};
      claim := Some(status);
    }

    method ClaimForForceCancel(run: RunId) returns (total: nat, done: nat, ok: bool)
      modifies this
      ensures ok == (run in old(runs))
      ensures View() == if ok then ClaimSection(old(View()), run) else old(View())
      ensures ok ==> View() == old(View()).(runs := old(runs) - {run}, finalizing := old(finalizing) + {run})
      ensures ok ==> total == old(runs)[run].total && done == old(runs)[run].done
    {
      total, done, ok := 0, 0, run in runs;
      if ok {
        total, done := runs[run].total, runs[run].done;
        runs := runs - {run};
        finalizing := finalizing + {run};
      }
    }

    /** The first section of Shutdown. */
    method Close() returns (first: bool)
      modifies this
      ensures first == !old(closing)
      ensures View() == if first then CloseSection(old(View())) else old(View())
      ensures first ==> View() == old(View()).(closing := true, closed := old(queues).Keys)
    {
      first := !closing;
      if first {
        closing := true;
        closed := queues.Keys;
      }
    }

    /** The second section of Shutdown: flags every tracked run and lists it. */
    method MarkStuck() returns (stuck: seq<RunId>)
      modifies this
      ensures View() == MarkAllSection(old(View()))
      ensures runs.Keys == old(runs).Keys && (forall r :: r in runs ==> runs[r] == old(runs)[r].(canceled := true))
      ensures ctxDone == old(ctxDone) + old(runs).Keys && finalizing == old(finalizing) && queues == old(queues) && closing == old(closing)
      ensures Distinct(stuck) && forall r :: r in stuck <==> r in old(runs)
    {
      stuck := [];
      var rest := runs.Keys;
      ghost var runs0 := runs;
      while exists r :: r in rest
        invariant rest <= runs0.Keys && View() == old(View()).(runs := runs, ctxDone := old(ctxDone) + (runs0.Keys - rest))
        invariant runs.Keys == runs0.Keys
        invariant forall r :: r in runs0 ==> runs[r] == if r in rest then runs0[r] else runs0[r].(canceled := true)
        invariant Distinct(stuck) && forall r :: r in stuck <==> r in runs0 && r !in rest
        decreases rest
      {
        var id :| id in rest;
        runs := runs[id := runs[id].(canceled := true)];
        ctxDone := ctxDone + {id};
        stuck := stuck + [id];
        rest := rest - {id};
      }
      assert forall r :: r in runs0 ==> r !in rest;
      assert runs0.Keys - rest == runs0.Keys;
      AllFlagged(old(View()), runs);
    }
  }

  /** The runs table. */
  class RunsTable {
    var rows: map<RunId, Row>
    var next: RunId

    ghost predicate Valid()
      reads this
    {
      forall r :: r in rows ==> r < next
    }

    constructor ()
      ensures Valid() && rows == map[]
    {
      rows, next := map[], 1;
    }

    method CreateRun(schedule: Option<int>) returns (id: RunId)
      requires Valid()
      modifies this
      ensures Valid() && id !in old(rows) && rows == old(rows)[id := Row(Queued, schedule)]
    {
      id := next;
      rows, next := rows[id := Row(Queued, schedule)], next + 1;
    }

    /** The guarded UPDATE, and the look at the row when it changed nothing. */
    method SetStatus(id: RunId, status: Status) returns (outcome: WriteOutcome)
      requires Valid()
      modifies this
      ensures Valid() && (rows, outcome) == SetRunStatus(old(rows), id, status)
      ensures if id !in old(rows) then rows == old(rows) && outcome == Missing
              else if old(rows)[id].status in {Done, Failed, Canceled, Skipped} then rows == old(rows) && outcome == Refused
              else rows == old(rows)[id := Row(status, old(rows)[id].schedule)] && outcome == Written
    {
      if id in rows && !rows[id].status.Terminal() {
        rows := rows[id := rows[id].(status := status)];
        return Written;
      }
      if id !in rows {
        return Missing;
      }
      return Refused;
    }

    method QueuedRunForSchedule(schedule: int) returns (id: Option<RunId>)
      requires Valid()
      ensures id.Some? <==> ActiveForSchedule(rows, Some(schedule))
      ensures id.Some? <==> exists r :: r in rows && rows[r].schedule == Some(schedule) && (rows[r].status == Queued || rows[r].status == Running)
      ensures id.Some? ==> id.value in rows && rows[id.value].schedule == Some(schedule) && rows[id.value].Active()
      ensures id.Some? ==> forall r :: r in rows && rows[r].schedule == Some(schedule) && rows[r].Active() ==> r <= id.value
    {
      id := None;
      var rest := rows.Keys;
      while exists r :: r in rest
        invariant rest <= rows.Keys
        invariant id.Some? ==> id.value in rows && rows[id.value].schedule == Some(schedule) && rows[id.value].Active()
        invariant forall r :: r in rows && r !in rest && rows[r].schedule == Some(schedule) && rows[r].Active() ==>
                                id.Some? && r <= id.value
        decreases rest
      {
        var r :| r in rest;
        if rows[r].schedule == Some(schedule) && rows[r].Active() && (id.None? || id.value < r) {
          id := Some(r);
        }
        rest := rest - {r};
      }
    }
  }
}
