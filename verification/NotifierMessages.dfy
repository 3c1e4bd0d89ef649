/**
 Which messages a result sends, read off what was sent before it: after any history of
 results, deletions and store failures, the events of one result are exactly determined by
 the trace so far, the result and the settings.
 */
module NotifierMessages {
  import opened Options
  import opened NotifyRules
  import opened Notifier

  // ---------------------------------------------------------------- the events of one metric or target

  /** What an event is about: one metric of a target, or the target as a whole. */
  datatype Topic = OfMetric(key: Key) | OfTarget(target: int)

  function About(e: Ev): Topic {
    match e
    case Alert(key, _, _) => OfMetric(key)
    case Cleared(key) => OfMetric(key)
    case Recovered(key) => OfMetric(key)
    case Summary(target) => OfTarget(target)
  }

  function Events(trace: seq<Ev>, x: Topic): seq<Ev> {
    if trace == [] then []
    else
      var n := |trace| - 1;
      Events(trace[..n], x) + if About(trace[n]) == x then [trace[n]] else []
  }

  lemma EventsOf(trace: seq<Ev>, e: Ev, x: Topic)
    ensures Events(trace + [e], x) == Events(trace, x) + if About(e) == x then [e] else []
  {
    assert (trace + [e])[..|trace|] == trace;
  }

  /** All that the state says about one metric is as before. */
  ghost predicate SameMetric(st: State, st': State, k: Key) {
    && Events(st'.trace, OfMetric(k)) == Events(st.trace, OfMetric(k))
    && LastAlert(st'.trace, k) == LastAlert(st.trace, k)
    && (k in st'.table <==> k in st.table)
    && (k in st.table ==> st'.table[k] == st.table[k])
  }

  lemma SayNothing(st: State, e: Ev, k: Key)
    requires About(e) != OfMetric(k)
    ensures Events(st.trace + [e], OfMetric(k)) == Events(st.trace, OfMetric(k))
    ensures LastAlert(st.trace + [e], k) == LastAlert(st.trace, k)
  {
    EventsOf(st.trace, e, OfMetric(k));
    AppendLast(st.trace, e, k);
  }

  // ---------------------------------------------------------------- one eval

  /** An alert of the metric would be due now. */
  predicate Due(trace: seq<Ev>, i: Input, key: Key) {
    LastAlert(trace, key).Some? ==> i.nowNs - LastAlert(trace, key).value * 1000000 >= i.cooldownMin * 60000000000
  }

  /** The events that checking one metric adds to its topic. */
  function Says(st: State, i: Input, m: Metric, breached: bool): seq<Ev> {
    var key := (i.target, m);
    if (m, GetOp) in i.faults then []
    else if breached then
      if !i.quiet && Due(st.trace, i, key) && (m, SetOp) !in i.faults then [Alert(key, i.nowNs / 1000000, i.cooldownMin * 60000)] else []
    else if key !in st.table || (m, ClearOp) in i.faults then []
    else [Cleared(key)] + if LastAlert(st.trace, key).Some? && i.recovery && !i.quiet then [Recovered(key)] else []
  }

  /** The table answers the question of the cooldown as the trace does. */
  lemma DueIsElapsed(st: State, i: Input, key: Key)
    requires Agrees(st, key)
    ensures Due(st.trace, i, key) <==> key !in st.table || Elapsed(st.table[key].last, i.nowNs, i.cooldownMin)
  {
    hide LastAlert;
  }

  lemma BreachSays(st: State, i: Input, e: Eval)
    requires Agrees(st, (i.target, e.metric)) && e.breached
    ensures var x := OfMetric((i.target, e.metric));
            Events(HandleSpec(st, i, e).trace, x) == Events(st.trace, x) + Says(st, i, e.metric, true)
  {
    var key := (i.target, e.metric);
    EventsOf(st.trace, Alert(key, i.nowNs / 1000000, i.cooldownMin * 60000), OfMetric(key));
    DueIsElapsed(st, i, key);
    hide Events, Due, Elapsed, Agrees, LastAlert;
  }

  lemma RecoverySays(st: State, i: Input, e: Eval)
    requires Agrees(st, (i.target, e.metric)) && !e.breached
    ensures var x := OfMetric((i.target, e.metric));
            Events(HandleSpec(st, i, e).trace, x) == Events(st.trace, x) + Says(st, i, e.metric, false)
  {
    var key := (i.target, e.metric);
    EventsOf(st.trace, Cleared(key), OfMetric(key));
    EventsOf(st.trace + [Cleared(key)], Recovered(key), OfMetric(key));
    hide Events;
  }

  lemma HandleSays(st: State, i: Input, e: Eval)
    requires Agrees(st, (i.target, e.metric))
    ensures var x := OfMetric((i.target, e.metric));
            Events(HandleSpec(st, i, e).trace, x) == Events(st.trace, x) + Says(st, i, e.metric, e.breached)
  {
    hide HandleSpec, Says, Events;
    if e.breached {
      BreachSays(st, i, e);
    } else {
      RecoverySays(st, i, e);
    }
  }

  lemma HandleSkips(st: State, i: Input, e: Eval, k: Key)
    requires k != (i.target, e.metric)
    ensures SameMetric(st, HandleSpec(st, i, e), k)
  {
    var key := (i.target, e.metric);
    SayNothing(st, Alert(key, i.nowNs / 1000000, i.cooldownMin * 60000), k);
    SayNothing(st, Cleared(key), k);
    SayNothing(st.(trace := st.trace + [Cleared(key)]), Recovered(key), k);
  }

  lemma {:induction false} HandleAllSkips(st: State, i: Input, evals: seq<Eval>, k: Key)
    requires k.0 != i.target || forall n :: 0 <= n < |evals| ==> evals[n].metric != k.1
    ensures SameMetric(st, HandleAll(st, i, evals), k)
  {
    hide HandleSpec;
    if evals != [] {
      var n := |evals| - 1;
      HandleAllSkips(st, i, evals[..n], k);
      HandleSkips(HandleAll(st, i, evals[..n]), i, evals[n], k);
    }
  }

  /** Checking all metrics adds to each topic what checking that metric alone would. */
  lemma {:induction false} HandleAllSays(st: State, i: Input, evals: seq<Eval>, n: nat)
    requires Sound(st) && n < |evals|
    requires forall x, y :: 0 <= x < y < |evals| ==> evals[x].metric != evals[y].metric
    ensures var x := OfMetric((i.target, evals[n].metric));
            Events(HandleAll(st, i, evals).trace, x) == Events(st.trace, x) + Says(st, i, evals[n].metric, evals[n].breached)
  {
    hide HandleSpec, Sound;
    var last := |evals| - 1;
    var k := (i.target, evals[n].metric);
    var mid := HandleAll(st, i, evals[..last]);
    HandleAllSound(st, i, evals[..last]);
    if n < last {
      HandleAllSays(st, i, evals[..last], n);
      HandleSkips(mid, i, evals[last], k);
    } else {
      HandleAllSkips(st, i, evals[..last], k);
      SoundAgrees(mid, k);
      HandleSays(mid, i, evals[last]);
    }
  }

  lemma SoundAgrees(st: State, k: Key)
    requires Sound(st)
    ensures Agrees(st, k)
  {
  }

  // ---------------------------------------------------------------- stale rows

  /** The store lets the stale clear of a metric through. */
  predicate LetsClear(i: Input, m: Metric) {
    (m, StaleGet) !in i.faults && (m, StaleClear) !in i.faults
  }

  /** The outcome of the stale clear for one metric. */
  ghost predicate ClearsIf(st: State, st': State, k: Key, clears: bool) {
    if clears then Events(st'.trace, OfMetric(k)) == Events(st.trace, OfMetric(k)) + [Cleared(k)]
    else SameMetric(st, st', k)
  }

  lemma StaleSays(st: State, i: Input, evals: seq<Eval>, m: Metric, k: Key)
    ensures ClearsIf(st, StaleSpec(st, i, evals, m), k, k == (i.target, m) && !Present(evals, m) && k in st.table && LetsClear(i, m))
  {
    hide Present;
    var key := (i.target, m);
    EventsOf(st.trace, Cleared(key), OfMetric(k));
    AppendLast(st.trace, Cleared(key), k);
    hide Events, LastAlert;
  }

  lemma {:induction false} StaleAllSays(st: State, i: Input, evals: seq<Eval>, ms: seq<Metric>, k: Key)
    requires forall x, y :: 0 <= x < y < |ms| ==> ms[x] != ms[y]
    ensures ClearsIf(st, StaleAll(st, i, evals, ms), k,
                     k.0 == i.target && k.1 in ms && !Present(evals, k.1) && k in st.table && LetsClear(i, k.1))
  {
    hide Present, StaleSpec, Events, LastAlert;
    if ms != [] {
      var n := |ms| - 1;
      StaleAllSays(st, i, evals, ms[..n], k);
      assert ms == ms[..n] + [ms[n]];
      StaleSays(StaleAll(st, i, evals, ms[..n]), i, evals, ms[n], k);
    }
  }

  // ---------------------------------------------------------------- one result

  lemma DistinctMetrics()
    ensures forall x, y :: 0 <= x < y < |ALL_METRICS| ==> ALL_METRICS[x] != ALL_METRICS[y]
  {
  }

  lemma SummarySays(st: State, i: Input, evals: seq<Eval>, k: Key)
    ensures SameMetric(st, SummarySpec(st, i, evals), k)
  {
    hide Covered;
    SayNothing(st, Summary(i.target), k);
  }

  /** What a result adds to the topic of one metric of its target. */
  lemma ProcessSays(st: State, i: Input, m: Metric)
    requires Sound(st) && i.active
    ensures var k := (i.target, m);
            Events(ProcessSpec(st, i).trace, OfMetric(k)) == Events(st.trace, OfMetric(k)) +
              if Emits(i.res, i.th, m) then Says(st, i, m, Breaches(i.res, i.th, m))
              else if i.res.ok && k in st.table && LetsClear(i, m) then [Cleared(k)] else []
  {
    hide Sound, HandleAll, StaleAll, SummarySpec, Events, LastAlert, Emits, Breaches, Says, Present, Verdict;
    var evals := Evals(i.res, i.th);
    var k := (i.target, m);
    DistinctMetrics();
    EvalsSpec(i.res, i.th, ALL_METRICS);
    AllMetricsListed(m);
    var st1 := HandleAll(st, i, evals);
    var st2 := if i.res.ok then StaleAll(st1, i, evals, ALL_METRICS) else st1;
    StaleAllSays(st1, i, evals, ALL_METRICS, k);
    SummarySays(st2, i, evals, k);
    EvalPresence(i.res, i.th, m);
    if Emits(i.res, i.th, m) {
      var n := IndexOf(evals, m);
      assert evals[n] in evals;
      VerdictOf(i.res, i.th, m);
      HandleAllSays(st, i, evals, n);
    } else {
      Absent(evals, m);
      HandleAllSkips(st, i, evals, k);
    }
  }

  lemma IndexOf(evals: seq<Eval>, m: Metric) returns (n: nat)
    requires Present(evals, m)
    ensures n < |evals| && evals[n].metric == m
  {
    n :| 0 <= n < |evals| && evals[n].metric == m;
  }

  lemma Absent(evals: seq<Eval>, m: Metric)
    requires !Present(evals, m)
    ensures forall n :: 0 <= n < |evals| ==> evals[n].metric != m
  {
  }

  lemma VerdictOf(res: Result, th: Thresholds, m: Metric)
    ensures Verdict(res, th, m).breached == Breaches(res, th, m)
  {
  }

  lemma RunOneMore(inputs: seq<Entry>, e: Entry)
    ensures Run(EMPTY, inputs + [e]) == EntrySpec(Run(EMPTY, inputs), e)
  {
    assert (inputs + [e])[..|inputs|] == inputs;
  }

  /**
   A metric that breaches its limit: outside quiet hours an alert is sent exactly when none has
   been since the last clear or the cooldown has passed since the last, and the store answers.
   */
  lemma AlertIsSentExactlyWhen(inputs: seq<Entry>, i: Input, m: Metric)
    requires i.active && Breaches(i.res, i.th, m)
    ensures var before, after, key := Run(EMPTY, inputs).trace, Run(EMPTY, inputs + [Seen(i)]).trace, (i.target, m);
            var last := LastAlert(before, key);
            Events(after, OfMetric(key)) == Events(before, OfMetric(key)) +
              if !i.quiet && (last.None? || i.nowNs - last.value * 1000000 >= i.cooldownMin * 60000000000)
                 && (m, GetOp) !in i.faults && (m, SetOp) !in i.faults
              then [Alert(key, i.nowNs / 1000000, i.cooldownMin * 60000)] else []
  {
    hide Sound, ProcessSpec, Events, LastAlert;
    RunOneMore(inputs, Seen(i));
    HistoryIsSound(inputs);
    ProcessSays(Run(EMPTY, inputs), i, m);
  }

  /**
   A metric that is checked and within its limit: if the store answers, a standing row is
   cleared, and unless it is a quiet hour or recoveries are off the recovery is sent exactly
   when an alert has been since the last clear.
   */
  lemma RecoveryIsSentExactlyWhen(inputs: seq<Entry>, i: Input, m: Metric)
    requires i.active && Emits(i.res, i.th, m) && !Breaches(i.res, i.th, m)
    ensures var st, after, key := Run(EMPTY, inputs), Run(EMPTY, inputs + [Seen(i)]).trace, (i.target, m);
            && Events(after, OfMetric(key)) == Events(st.trace, OfMetric(key))
              + (if key in st.table && (m, GetOp) !in i.faults && (m, ClearOp) !in i.faults
                 then [Cleared(key)] + (if LastAlert(st.trace, key).Some? && i.recovery && !i.quiet then [Recovered(key)] else [])
                 else [])
            && (LastAlert(st.trace, key).Some? ==> key in st.table)
  {
    hide Sound, ProcessSpec, Events, LastAlert;
    RunOneMore(inputs, Seen(i));
    HistoryIsSound(inputs);
    ProcessSays(Run(EMPTY, inputs), i, m);
    SoundAgrees(Run(EMPTY, inputs), (i.target, m));
  }

  /** A metric that is not checked: an ok result clears its row without a word, any other leaves it. */
  lemma UncheckedIsClearedSilently(inputs: seq<Entry>, i: Input, m: Metric)
    requires i.active && !Emits(i.res, i.th, m)
    ensures var st, after, key := Run(EMPTY, inputs), Run(EMPTY, inputs + [Seen(i)]).trace, (i.target, m);
            Events(after, OfMetric(key)) == Events(st.trace, OfMetric(key)) +
              if i.res.ok && key in st.table && (m, StaleGet) !in i.faults && (m, StaleClear) !in i.faults then [Cleared(key)] else []
  {
    hide Sound, ProcessSpec, Events, LastAlert;
    RunOneMore(inputs, Seen(i));
    HistoryIsSound(inputs);
    ProcessSays(Run(EMPTY, inputs), i, m);
  }

  /** Of other targets nothing is said, whatever the store does. */
  lemma OthersHearNothing(inputs: seq<Entry>, i: Input, k: Key)
    requires k.0 != i.target
    ensures SameMetric(Run(EMPTY, inputs), Run(EMPTY, inputs + [Seen(i)]), k)
  {
    hide HandleAll, StaleAll, SummarySpec, Events, LastAlert;
    RunOneMore(inputs, Seen(i));
    if i.active {
      var st, evals := Run(EMPTY, inputs), Evals(i.res, i.th);
      DistinctMetrics();
      HandleAllSkips(st, i, evals, k);
      var st1 := HandleAll(st, i, evals);
      StaleAllSays(st1, i, evals, ALL_METRICS, k);
      SummarySays(if i.res.ok then StaleAll(st1, i, evals, ALL_METRICS) else st1, i, evals, k);
    }
  }

  // ---------------------------------------------------------------- summaries

  lemma HandleNeverSums(st: State, i: Input, e: Eval, x: int)
    ensures Events(HandleSpec(st, i, e).trace, OfTarget(x)) == Events(st.trace, OfTarget(x))
  {
    var key := (i.target, e.metric);
    EventsOf(st.trace, Alert(key, Stamped(i.nowNs), i.cooldownMin * MS_PER_MIN), OfTarget(x));
    EventsOf(st.trace, Cleared(key), OfTarget(x));
    EventsOf(st.trace + [Cleared(key)], Recovered(key), OfTarget(x));
    hide Events;
  }

  lemma {:induction false} HandleAllNeverSums(st: State, i: Input, evals: seq<Eval>, x: int)
    ensures Events(HandleAll(st, i, evals).trace, OfTarget(x)) == Events(st.trace, OfTarget(x))
  {
    hide HandleSpec, Events;
    if evals != [] {
      var n := |evals| - 1;
      HandleAllNeverSums(st, i, evals[..n], x);
      HandleNeverSums(HandleAll(st, i, evals[..n]), i, evals[n], x);
    }
  }

  lemma {:induction false} StaleAllNeverSums(st: State, i: Input, evals: seq<Eval>, ms: seq<Metric>, x: int)
    ensures Events(StaleAll(st, i, evals, ms).trace, OfTarget(x)) == Events(st.trace, OfTarget(x))
  {
    hide Events, Present;
    if ms != [] {
      var n := |ms| - 1;
      StaleAllNeverSums(st, i, evals, ms[..n], x);
      EventsOf(StaleAll(st, i, evals, ms[..n]).trace, Cleared((i.target, ms[n])), OfTarget(x));
    }
  }

  lemma CoveredWhen(res: Result, th: Thresholds)
    ensures Covered(res, Evals(res, th)) <==> !res.ok && th.onFailure == Some(true)
  {
    EvalPresence(res, th, Failure);
  }

  /**
   A result closes with its summary exactly when the target asks for one, it is not a quiet
   hour, and the result is not a failure that the failure alert already speaks for; the store
   has no part in that.
   */
  lemma SummaryIsSentExactlyWhen(inputs: seq<Entry>, i: Input, x: int)
    ensures var before, after := Run(EMPTY, inputs).trace, Run(EMPTY, inputs + [Seen(i)]).trace;
            var due := i.active && i.th.always == Some(true) && !i.quiet && !(!i.res.ok && i.th.onFailure == Some(true));
            && Events(after, OfTarget(x)) == Events(before, OfTarget(x)) + (if due && x == i.target then [Summary(x)] else [])
            && (due ==> after != [] && after[|after| - 1] == Summary(i.target))
  {
    hide HandleAll, StaleAll, Events, Covered, Evals;
    RunOneMore(inputs, Seen(i));
    if i.active {
      var st, evals := Run(EMPTY, inputs), Evals(i.res, i.th);
      var st1 := HandleAll(st, i, evals);
      var st2 := if i.res.ok then StaleAll(st1, i, evals, ALL_METRICS) else st1;
      HandleAllNeverSums(st, i, evals, x);
      StaleAllNeverSums(st1, i, evals, ALL_METRICS, x);
      CoveredWhen(i.res, i.th);
      EventsOf(st2.trace, Summary(i.target), OfTarget(x));
    }
  }

  // ---------------------------------------------------------------- what quiet hours hold back

  /** Quiet hours hold back a message about the metric: an alert that was due, or a recovery. */
  predicate Held(trace: seq<Ev>, i: Input, m: Metric, breached: bool) {
    && i.quiet && (m, GetOp) !in i.faults
    && if breached then Due(trace, i, (i.target, m))
       else LastAlert(trace, (i.target, m)).Some? && i.recovery && (m, ClearOp) !in i.faults
  }

  function HeldBack(trace: seq<Ev>, i: Input, evals: seq<Eval>): nat {
    if evals == [] then 0
    else
      var n := |evals| - 1;
      HeldBack(trace, i, evals[..n]) + if Held(trace, i, evals[n].metric, evals[n].breached) then 1 else 0
  }

  lemma HandleHolds(st: State, i: Input, e: Eval)
    requires Agrees(st, (i.target, e.metric))
    ensures HandleSpec(st, i, e).suppressed == st.suppressed + if Held(st.trace, i, e.metric, e.breached) then 1 else 0
  {
    hide LastAlert;
  }

  lemma {:induction false} HandleAllHolds(st: State, i: Input, evals: seq<Eval>)
    requires Sound(st)
    requires forall x, y :: 0 <= x < y < |evals| ==> evals[x].metric != evals[y].metric
    ensures HandleAll(st, i, evals).suppressed == st.suppressed + HeldBack(st.trace, i, evals)
  {
    hide HandleSpec, Sound, LastAlert;
    if evals != [] {
      var n := |evals| - 1;
      var mid, k := HandleAll(st, i, evals[..n]), (i.target, evals[n].metric);
      HandleAllHolds(st, i, evals[..n]);
      HandleAllSound(st, i, evals[..n]);
      HandleAllSkips(st, i, evals[..n], k);
      SoundAgrees(mid, k);
      HandleHolds(mid, i, evals[n]);
    }
  }

  lemma {:induction false} StaleAllHolds(st: State, i: Input, evals: seq<Eval>, ms: seq<Metric>)
    ensures StaleAll(st, i, evals, ms).suppressed == st.suppressed
  {
    hide Present;
    if ms != [] {
      StaleAllHolds(st, i, evals, ms[..|ms| - 1]);
    }
  }

  /** The counter of suppressed messages grows by exactly the messages quiet hours held back. */
  lemma SuppressedIsExact(inputs: seq<Entry>, i: Input)
    requires i.active
    ensures var st := Run(EMPTY, inputs);
            Run(EMPTY, inputs + [Seen(i)]).suppressed == st.suppressed + HeldBack(st.trace, i, Evals(i.res, i.th))
              + if i.quiet && i.th.always == Some(true) && !(!i.res.ok && i.th.onFailure == Some(true)) then 1 else 0
  {
    hide HandleAll, StaleAll, Covered, Sound, HeldBack, Emits, Verdict, EvalsOf;
    RunOneMore(inputs, Seen(i));
    HistoryIsSound(inputs);
    var st, evals := Run(EMPTY, inputs), Evals(i.res, i.th);
    DistinctMetrics();
    EvalsSpec(i.res, i.th, ALL_METRICS);
    HandleAllHolds(st, i, evals);
    StaleAllHolds(HandleAll(st, i, evals), i, evals, ALL_METRICS);
    CoveredWhen(i.res, i.th);
  }
}
