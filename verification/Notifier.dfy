/**
 The alert state machine: one result at a time against the notification_state table.

 Any store access may fail (`faults`); delivery of a message is an event of `trace`.
 Times are nanoseconds; the table keeps them cut to milliseconds, as its layout does.
 */
module Notifier {
  import opened Options
  import opened NotifyRules

  // ---------------------------------------------------------------- state

  type Key = (int, Metric)

  /** last_fired_at: empty, unreadable, or a millisecond timestamp. */
  datatype Stamp = Never | Garbled | At(ms: int)

  datatype Row = Row(firing: bool, last: Stamp)

  datatype Ev =
    | Alert(key: Key, ms: int, cooldownMs: nat)
    | Cleared(key: Key)
    | Recovered(key: Key)
    | Summary(target: int)

  datatype State = State(table: map<Key, Row>, trace: seq<Ev>, suppressed: nat)

  datatype Op = GetOp | SetOp | ClearOp | StaleGet | StaleClear

  /** One result with everything `process` looks up for it; inactive when it returns early. */
  datatype Input = Input(
    active: bool, target: int, res: Result, th: Thresholds,
    nowNs: int, quiet: bool, cooldownMin: nat, recovery: bool, faults: set<(Metric, Op)>)

  const NS_PER_MS := 1000000
  const MS_PER_MIN := 60000

  function Stamped(nowNs: int): int {
    nowNs / NS_PER_MS
  }

  /** cooldownElapsed: an unreadable timestamp never holds an alert back. */
  predicate Elapsed(last: Stamp, nowNs: int, cooldownMin: nat) {
    last.At? ==> nowNs - last.ms * NS_PER_MS >= cooldownMin * MS_PER_MIN * NS_PER_MS
  }

  // ---------------------------------------------------------------- what each operation does

  function FireSpec(st: State, i: Input, key: Key, already: bool): State {
    if i.quiet then
      var st1 := st.(suppressed := st.suppressed + 1);
      if already || (key.1, SetOp) in i.faults then st1
      else st1.(table := st.table[key := Row(true, Never)])
    else if (key.1, SetOp) in i.faults then st
    else st.(table := st.table[key := Row(true, At(Stamped(i.nowNs)))],
             trace := st.trace + [Alert(key, Stamped(i.nowNs), i.cooldownMin * MS_PER_MIN)])
  }

  function RecoverSpec(st: State, i: Input, key: Key, send: bool): State {
    if (key.1, ClearOp) in i.faults then st
    else
      var st1 := st.(table := st.table - {key}, trace := st.trace + [Cleared(key)]);
      if !send then st1
      else if i.quiet then st1.(suppressed := st1.suppressed + 1)
      else st1.(trace := st1.trace + [Recovered(key)])
  }

  function HandleSpec(st: State, i: Input, e: Eval): State {
    var key := (i.target, e.metric);
    if (e.metric, GetOp) in i.faults then st
    else if e.breached then
      if key in st.table && !Elapsed(st.table[key].last, i.nowNs, i.cooldownMin) then st
      else FireSpec(st, i, key, key in st.table)
    else if key !in st.table || !st.table[key].firing then st
    else RecoverSpec(st, i, key, i.recovery && !st.table[key].last.Never?)
  }

  function HandleAll(st: State, i: Input, evals: seq<Eval>): State {
    if evals == [] then st
    else HandleSpec(HandleAll(st, i, evals[..|evals| - 1]), i, evals[|evals| - 1])
  }

  predicate HasBreach(evals: seq<Eval>, m: Metric) {
    exists k :: 0 <= k < |evals| && evals[k].metric == m && evals[k].breached
  }

  predicate Present(evals: seq<Eval>, m: Metric) {
    exists k :: 0 <= k < |evals| && evals[k].metric == m
  }

  function StaleSpec(st: State, i: Input, evals: seq<Eval>, m: Metric): State {
    var key := (i.target, m);
    if Present(evals, m) || (m, StaleGet) in i.faults || key !in st.table || (m, StaleClear) in i.faults then st
    else st.(table := st.table - {key}, trace := st.trace + [Cleared(key)])
  }

  function StaleAll(st: State, i: Input, evals: seq<Eval>, ms: seq<Metric>): State {
    if ms == [] then st
    else StaleSpec(StaleAll(st, i, evals, ms[..|ms| - 1]), i, evals, ms[|ms| - 1])
  }

  /** failureAlertCovers. */
  predicate Covered(res: Result, evals: seq<Eval>) {
    !res.ok && exists k :: 0 <= k < |evals| && evals[k].metric == Failure && evals[k].breached
  }

  function SummarySpec(st: State, i: Input, evals: seq<Eval>): State {
    if i.th.always != Some(true) || Covered(i.res, evals) then st
    else if i.quiet then st.(suppressed := st.suppressed + 1)
    else st.(trace := st.trace + [Summary(i.target)])
  }

  function ProcessSpec(st: State, i: Input): State {
    if !i.active then st
    else
      var evals := Evals(i.res, i.th);
      var st1 := HandleAll(st, i, evals);
      var st2 := if i.res.ok then StaleAll(st1, i, evals, ALL_METRICS) else st1;
      SummarySpec(st2, i, evals)
  }

  /** What happens to the table: a result is processed, or a target is deleted and its rows go with it. */
  datatype Entry = Seen(input: Input) | TargetDeleted(target: int)

  /** ON DELETE CASCADE: the rows of the target are removed; each removal is a clear. */
  function DropAll(st: State, target: int, ms: seq<Metric>): State {
    if ms == [] then st
    else
      var st1, key := DropAll(st, target, ms[..|ms| - 1]), (target, ms[|ms| - 1]);
      if key !in st1.table then st1
      else st1.(table := st1.table - {key}, trace := st1.trace + [Cleared(key)])
  }

  function EntrySpec(st: State, e: Entry): State {
    match e
    case Seen(i) => ProcessSpec(st, i)
    case TargetDeleted(target) => DropAll(st, target, ALL_METRICS)
  }

  /** Any history of results and deletions. */
  function Run(st: State, inputs: seq<Entry>): State {
    if inputs == [] then st
    else EntrySpec(Run(st, inputs[..|inputs| - 1]), inputs[|inputs| - 1])
  }

  const EMPTY := State(map[], [], 0)

  lemma {:induction false} StaleTableOf(st: State, i: Input, evals: seq<Eval>, ms: seq<Metric>, k: Key)
    ensures var st' := StaleAll(st, i, evals, ms);
            && (k in st'.table <==> k in st.table && !(k.0 == i.target && k.1 in ms && !Present(evals, k.1)
                                                      && (k.1, StaleGet) !in i.faults && (k.1, StaleClear) !in i.faults))
            && (k in st'.table ==> st'.table[k] == st.table[k])
  {
    hide Present;
    if ms != [] {
      var n := |ms| - 1;
      StaleTableOf(st, i, evals, ms[..n], k);
      assert ms == ms[..n] + [ms[n]];
    }
  }

  /** The stale clear takes exactly the rows of metrics not checked, where the store lets it. */
  lemma StaleTable(st: State, i: Input, evals: seq<Eval>)
    ensures var st' := StaleAll(st, i, evals, ALL_METRICS);
            && (forall k :: k in st.table ==>
                  (k !in st'.table <==> k.0 == i.target && (forall n :: 0 <= n < |evals| ==> evals[n].metric != k.1)
                                        && (k.1, StaleGet) !in i.faults && (k.1, StaleClear) !in i.faults))
            && (forall k :: k in st'.table ==> k in st.table && st'.table[k] == st.table[k])
  {
    hide StaleAll;
    forall k: Key
      ensures k in StaleAll(st, i, evals, ALL_METRICS).table <==>
                k in st.table && !(k.0 == i.target && !Present(evals, k.1) && (k.1, StaleGet) !in i.faults && (k.1, StaleClear) !in i.faults)
      ensures k in StaleAll(st, i, evals, ALL_METRICS).table ==> StaleAll(st, i, evals, ALL_METRICS).table[k] == st.table[k]
    {
      StaleTableOf(st, i, evals, ALL_METRICS, k);
      AllMetricsListed(k.1);
    }
  }

  // ---------------------------------------------------------------- the notifier as an object

  class Worker {
    var table: map<Key, Row>
    var trace: seq<Ev>
    var suppressed: nat

    function View(): State
      reads this
    {
      State(table, trace, suppressed)
    }

    constructor ()
      ensures View() == EMPTY
    {
      table, trace, suppressed := map[], [], 0;
    }

    method Fire(i: Input, key: Key, already: bool)
      modifies this
      ensures View() == FireSpec(old(View()), i, key, already)
      ensures !i.quiet && (key.1, SetOp) !in i.faults ==>
                && table == old(table)[key := Row(true, At(i.nowNs / 1000000))] && suppressed == old(suppressed)
                && trace == old(trace) + [Alert(key, i.nowNs / 1000000, i.cooldownMin * 60000)]
      ensures !i.quiet && (key.1, SetOp) in i.faults ==> View() == old(View())
      ensures i.quiet ==>
                && trace == old(trace) && suppressed == old(suppressed) + 1
                && table == if already || (key.1, SetOp) in i.faults then old(table) else old(table)[key := Row(true, Never)]
    {
      if i.quiet {
        suppressed := suppressed + 1;
        if already {
          return;
        }
        if (key.1, SetOp) !in i.faults {
          table := table[key := Row(true, Never)];
        }
        return;
      }
      if (key.1, SetOp) in i.faults {
        return;
      }
      table := table[key := Row(true, At(Stamped(i.nowNs)))];
      trace := trace + [Alert(key, Stamped(i.nowNs), i.cooldownMin * MS_PER_MIN)];
    }

    method Recover(i: Input, key: Key, send: bool)
      modifies this
      ensures View() == RecoverSpec(old(View()), i, key, send)
      ensures (key.1, ClearOp) in i.faults ==> View() == old(View())
      ensures (key.1, ClearOp) !in i.faults ==>
                && table == old(table) - {key}
                && trace == old(trace) + [Cleared(key)] + (if send && !i.quiet then [Recovered(key)] else [])
                && suppressed == old(suppressed) + (if send && i.quiet then 1 else 0)
    {
      if (key.1, ClearOp) in i.faults {
        return;
      }
      table := table - {key};
      trace := trace + [Cleared(key)];
      if !send {
        return;
      }
      if i.quiet {
        suppressed := suppressed + 1;
        return;
      }
      trace := trace + [Recovered(key)];
    }

    method HandleEval(i: Input, e: Eval)
      modifies this
      ensures View() == HandleSpec(old(View()), i, e)
      ensures (e.metric, GetOp) in i.faults ==> View() == old(View())
    {
      var key := (i.target, e.metric);
      if (e.metric, GetOp) in i.faults {
        return;
      }
      if e.breached {
        var elapsed := key !in table || Elapsed(table[key].last, i.nowNs, i.cooldownMin);
        if elapsed {
          Fire(i, key, key in table);
        }
        return;
      }
      if key !in table || !table[key].firing {
        return;
      }
      var delivered := !table[key].last.Never?;
      Recover(i, key, i.recovery && delivered);
    }

    method ClearStaleState(i: Input, evals: seq<Eval>)
      modifies this
      ensures View() == StaleAll(old(View()), i, evals, ALL_METRICS)
      ensures forall k :: k in old(table) ==>
                (k !in table <==> k.0 == i.target && (forall n :: 0 <= n < |evals| ==> evals[n].metric != k.1)
                                  && (k.1, StaleGet) !in i.faults && (k.1, StaleClear) !in i.faults)
      ensures forall k :: k in table ==> k in old(table) && table[k] == old(table)[k]
    {
      StaleTable(View(), i, evals);
      ghost var before := View();
      for n := 0 to |ALL_METRICS|
        invariant View() == StaleAll(before, i, evals, ALL_METRICS[..n])
      {
        assert ALL_METRICS[..n + 1][..n] == ALL_METRICS[..n];
        var m := ALL_METRICS[n];
        var key := (i.target, m);
        if Present(evals, m) || (m, StaleGet) in i.faults || key !in table || (m, StaleClear) in i.faults {
          continue;
        }
        table := table - {key};
        trace := trace + [Cleared(key)];
      }
      assert ALL_METRICS[..|ALL_METRICS|] == ALL_METRICS;
    }

    /** What the schema's cascade does when the target is deleted. */
    method TargetGone(target: int)
      modifies this
      ensures View() == DropAll(old(View()), target, ALL_METRICS)
    {
      ghost var before := View();
      for n := 0 to |ALL_METRICS|
        invariant View() == DropAll(before, target, ALL_METRICS[..n])
      {
        assert ALL_METRICS[..n + 1][..n] == ALL_METRICS[..n];
        var key := (target, ALL_METRICS[n]);
        if key in table {
          table := table - {key};
          trace := trace + [Cleared(key)];
        }
      }
      assert ALL_METRICS[..|ALL_METRICS|] == ALL_METRICS;
    }

    method Process(i: Input)
      modifies this
      ensures View() == ProcessSpec(old(View()), i)
    {
      if !i.active {
        return;
      }
      var evals := Evaluate(i.res, i.th);
      ghost var before := View();
      for n := 0 to |evals|
        invariant View() == HandleAll(before, i, evals[..n])
      {
        assert evals[..n + 1][..n] == evals[..n];
        HandleEval(i, evals[n]);
      }
      assert evals[..|evals|] == evals;
      if i.res.ok {
        ClearStaleState(i, evals);
      }
      if i.th.always == Some(true) && !Covered(i.res, evals) {
        if i.quiet {
          suppressed := suppressed + 1;
        } else {
          trace := trace + [Summary(i.target)];
        }
      }
    }
  }

  // ---------------------------------------------------------------- which alerts are standing

  /** The stored rows of a target, as metrics. */
  ghost function Standing(st: State, target: int): set<Metric> {
    set m | m in ALL_METRICS && (target, m) in st.table
  }

  ghost predicate AllFiring(st: State) {
    forall k :: k in st.table ==> st.table[k].firing
  }

  lemma AllMetricsListed(m: Metric)
    ensures m in ALL_METRICS
  {
    match m
    case Download => assert ALL_METRICS[0] == m;
    case Upload => assert ALL_METRICS[1] == m;
    case Ping => assert ALL_METRICS[2] == m;
    case Jitter => assert ALL_METRICS[3] == m;
    case Loss => assert ALL_METRICS[4] == m;
    case Failure => assert ALL_METRICS[5] == m;
  }

  /** One eval settles its own row and leaves every other row in place. */
  lemma HandleRows(st: State, i: Input, e: Eval, k: Key)
    requires AllFiring(st) && i.faults == {}
    ensures AllFiring(HandleSpec(st, i, e))
    ensures k in HandleSpec(st, i, e).table <==> if k == (i.target, e.metric) then e.breached else k in st.table
  {
  }

  lemma {:induction false} HandleAllRows(st: State, i: Input, evals: seq<Eval>, k: Key)
    requires AllFiring(st) && i.faults == {}
    requires forall x, y :: 0 <= x < y < |evals| ==> evals[x].metric != evals[y].metric
    ensures AllFiring(HandleAll(st, i, evals))
    ensures k in HandleAll(st, i, evals).table <==>
            if k.0 == i.target && Present(evals, k.1) then HasBreach(evals, k.1) else k in st.table
  {
    if evals != [] {
      var n := |evals| - 1;
      HandleAllRows(st, i, evals[..n], k);
      HandleRows(HandleAll(st, i, evals[..n]), i, evals[n], k);
      hide HandleSpec;
      assert evals == evals[..n] + [evals[n]];
      assert forall x :: 0 <= x < n ==> evals[..n][x] == evals[x];
      assert Present(evals, k.1) <==> Present(evals[..n], k.1) || evals[n].metric == k.1 by {
        if Present(evals, k.1) {
          var x :| 0 <= x < |evals| && evals[x].metric == k.1;
          assert x < n ==> evals[..n][x].metric == k.1;
        }
        if Present(evals[..n], k.1) {
          var x :| 0 <= x < n && evals[..n][x].metric == k.1;
          assert evals[x].metric == k.1;
        }
      }
      assert forall x :: 0 <= x < n ==> evals[..n][x].metric != evals[n].metric;
    }
  }

  lemma {:induction false} StaleAllRows(st: State, i: Input, evals: seq<Eval>, ms: seq<Metric>, k: Key)
    requires AllFiring(st) && i.faults == {}
    ensures AllFiring(StaleAll(st, i, evals, ms))
    ensures k in StaleAll(st, i, evals, ms).table <==> k in st.table && !(k.0 == i.target && k.1 in ms && !Present(evals, k.1))
  {
    if ms != [] {
      var n := |ms| - 1;
      StaleAllRows(st, i, evals, ms[..n], k);
      assert ms == ms[..n] + [ms[n]];
    }
  }

  /** A result's effect on the rows: an ok result leaves exactly its breaches standing. */
  lemma ProcessRows(st: State, i: Input, k: Key)
    requires AllFiring(st) && i.faults == {} && i.active
    ensures AllFiring(ProcessSpec(st, i))
    ensures k in ProcessSpec(st, i).table <==>
            if k.0 != i.target then k in st.table
            else if i.res.ok then Breaches(i.res, i.th, k.1)
            else k in st.table || (k.1 == Failure && i.th.onFailure == Some(true))
  {
    hide HandleAll, StaleAll, Emits, Breaches;
    var evals := Evals(i.res, i.th);
    assert forall x, y :: 0 <= x < y < |ALL_METRICS| ==> ALL_METRICS[x] != ALL_METRICS[y];
    EvalsSpec(i.res, i.th, ALL_METRICS);
    HandleAllRows(st, i, evals, k);
    StaleAllRows(HandleAll(st, i, evals), i, evals, ALL_METRICS, k);
    AllMetricsListed(k.1);
    EvalPresence(i.res, i.th, k.1);
  }

  /** What EvalsSpec says, for one metric. */
  lemma EvalPresence(res: Result, th: Thresholds, m: Metric)
    ensures Present(Evals(res, th), m) <==> Emits(res, th, m)
    ensures HasBreach(Evals(res, th), m) <==> Breaches(res, th, m)
    ensures !res.ok ==> (Emits(res, th, m) <==> m == Failure && th.onFailure == Some(true))
    ensures !res.ok ==> (Breaches(res, th, m) <==> m == Failure && th.onFailure == Some(true))
    ensures Breaches(res, th, m) ==> Emits(res, th, m)
  {
    assert forall x, y :: 0 <= x < y < |ALL_METRICS| ==> ALL_METRICS[x] != ALL_METRICS[y];
    EvalsSpec(res, th, ALL_METRICS);
    AllMetricsListed(m);
    var evals := Evals(res, th);
    if Present(evals, m) {
      var x :| 0 <= x < |evals| && evals[x].metric == m;
      assert evals[x] in evals;
    }
    if Emits(res, th, m) {
      assert Verdict(res, th, m) in evals;
      var x :| 0 <= x < |evals| && evals[x] == Verdict(res, th, m);
      assert evals[x].metric == m;
    }
    if HasBreach(evals, m) {
      var x :| 0 <= x < |evals| && evals[x].metric == m && evals[x].breached;
      assert evals[x] in evals;
    }
  }

  lemma {:induction false} DropAllRows(st: State, target: int, ms: seq<Metric>, k: Key)
    requires AllFiring(st)
    ensures AllFiring(DropAll(st, target, ms))
    ensures k in DropAll(st, target, ms).table <==> k in st.table && !(k.0 == target && k.1 in ms)
  {
    if ms != [] {
      var n := |ms| - 1;
      DropAllRows(st, target, ms[..n], k);
      assert ms == ms[..n] + [ms[n]];
    }
  }

  /** The standing alerts of a target as a simple function of its results and of its deletions. */
  ghost function StandingAfter(inputs: seq<Entry>, target: int): set<Metric> {
    if inputs == [] then {}
    else
      var before := StandingAfter(inputs[..|inputs| - 1], target);
      match inputs[|inputs| - 1]
      case TargetDeleted(x) => if x == target then {} else before
      case Seen(i) =>
        if !i.active || i.target != target then before
        else if i.res.ok then set m | m in ALL_METRICS && Breaches(i.res, i.th, m)
        else before + (if i.th.onFailure == Some(true) then {Failure} else {})
  }

  /** Over any history the table agrees with that function (store accesses succeeding). */
  lemma {:induction false} TableFollowsHistory(inputs: seq<Entry>, target: int)
    requires forall j :: 0 <= j < |inputs| && inputs[j].Seen? ==> inputs[j].input.faults == {}
    ensures AllFiring(Run(EMPTY, inputs))
    ensures Standing(Run(EMPTY, inputs), target) == StandingAfter(inputs, target)
  {
    if inputs != [] {
      var n := |inputs| - 1;
      TableFollowsHistory(inputs[..n], target);
      var st := Run(EMPTY, inputs[..n]);
      hide ProcessSpec, Breaches, DropAll;
      match inputs[n]
      case TargetDeleted(x) =>
        forall m ensures m in Standing(Run(EMPTY, inputs), target) <==> m in StandingAfter(inputs, target) {
          DropAllRows(st, x, ALL_METRICS, (target, m));
          AllMetricsListed(m);
        }
        DropAllRows(st, x, ALL_METRICS, (target, Failure));
      case Seen(i) =>
        if i.active {
          forall m ensures m in Standing(Run(EMPTY, inputs), target) <==> m in StandingAfter(inputs, target) {
            ProcessRows(st, i, (target, m));
            AllMetricsListed(m);
          }
          ProcessRows(st, i, (target, Failure));
        } else {
          InactiveDoesNothing(st, i);
        }
    }
  }

  lemma InactiveDoesNothing(st: State, i: Input)
    requires !i.active
    ensures ProcessSpec(st, i) == st
  {
  }

  // ---------------------------------------------------------------- what is sent, over whole runs

  /** When the last alert of `key` since its last clear was issued. */
  function LastAlert(trace: seq<Ev>, key: Key): Option<int> {
    if trace == [] then None
    else
      match trace[|trace| - 1]
      case Alert(k, ms, _) => if k == key then Some(ms) else LastAlert(trace[..|trace| - 1], key)
      case Cleared(k) => if k == key then None else LastAlert(trace[..|trace| - 1], key)
      case _ => LastAlert(trace[..|trace| - 1], key)
  }

  /** The table row of `key` is exactly what the trace accounts for. */
  ghost predicate Agrees(st: State, key: Key) {
    match LastAlert(st.trace, key)
    case None => key in st.table ==> st.table[key] == Row(true, Never)
    case Some(ms) => key in st.table && st.table[key] == Row(true, At(ms))
  }

  /** The event at the end of `trace + [e]` is in order. */
  ghost predicate InOrder(trace: seq<Ev>, e: Ev) {
    match e
    case Alert(key, ms, cd) => LastAlert(trace, key).Some? ==> ms - LastAlert(trace, key).value >= cd
    case Recovered(key) =>
      && trace != [] && trace[|trace| - 1] == Cleared(key)
      && LastAlert(trace[..|trace| - 1], key).Some?
    case _ => true
  }

  ghost predicate GoodTrace(trace: seq<Ev>) {
    forall n :: 0 <= n < |trace| ==> InOrder(trace[..n], trace[n])
  }

  ghost predicate Sound(st: State) {
    GoodTrace(st.trace) && forall key :: Agrees(st, key)
  }

  lemma AppendGood(trace: seq<Ev>, e: Ev)
    requires GoodTrace(trace) && InOrder(trace, e)
    ensures GoodTrace(trace + [e])
  {
    var t := trace + [e];
    forall n | 0 <= n < |t| ensures InOrder(t[..n], t[n]) {
      if n < |trace| {
        assert t[..n] == trace[..n];
      } else {
        assert t[..n] == trace;
      }
    }
  }

  lemma AppendLast(trace: seq<Ev>, e: Ev, key: Key)
    ensures LastAlert(trace + [e], key) ==
            match e
            case Alert(k, ms, _) => (if k == key then Some(ms) else LastAlert(trace, key))
            case Cleared(k) => (if k == key then None else LastAlert(trace, key))
            case _ => LastAlert(trace, key)
  {
    assert (trace + [e])[..|trace|] == trace;
  }

  lemma FireSound(st: State, i: Input, key: Key)
    requires Sound(st) && (key in st.table ==> Elapsed(st.table[key].last, i.nowNs, i.cooldownMin))
    ensures Sound(FireSpec(st, i, key, key in st.table))
  {
    var st' := FireSpec(st, i, key, key in st.table);
    assert Agrees(st, key);
    if !i.quiet && (key.1, SetOp) !in i.faults {
      var e := Alert(key, Stamped(i.nowNs), i.cooldownMin * MS_PER_MIN);
      AppendGood(st.trace, e);
      forall k ensures Agrees(st', k) {
        AppendLast(st.trace, e, k);
        assert Agrees(st, k);
      }
    } else {
      forall k ensures Agrees(st', k) {
        assert Agrees(st, k);
      }
    }
  }

  lemma ClearSound(st: State, key: Key, st': State)
    requires Sound(st) && st' == st.(table := st.table - {key}, trace := st.trace + [Cleared(key)], suppressed := st'.suppressed)
    ensures Sound(st')
  {
    AppendGood(st.trace, Cleared(key));
    forall k ensures Agrees(st', k) {
      AppendLast(st.trace, Cleared(key), k);
      assert Agrees(st, k);
    }
  }

  lemma RecoverSound(st: State, i: Input, key: Key)
    requires Sound(st) && key in st.table
    ensures Sound(RecoverSpec(st, i, key, i.recovery && !st.table[key].last.Never?))
  {
    var send := i.recovery && !st.table[key].last.Never?;
    if (key.1, ClearOp) !in i.faults {
      var st1 := st.(table := st.table - {key}, trace := st.trace + [Cleared(key)]);
      ClearSound(st, key, st1);
      if send && i.quiet {
        ClearSound(st, key, st1.(suppressed := st1.suppressed + 1));
      } else if send {
        assert Agrees(st, key);
        assert st1.trace[..|st1.trace| - 1] == st.trace;
        QuietEventSound(st1, Recovered(key));
      }
    }
  }

  /** Events that neither issue nor clear an alert keep the table accounted for. */
  lemma QuietEventSound(st: State, e: Ev)
    requires Sound(st) && !e.Alert? && !e.Cleared? && InOrder(st.trace, e)
    ensures Sound(st.(trace := st.trace + [e]))
  {
    AppendGood(st.trace, e);
    var st' := st.(trace := st.trace + [e]);
    forall k ensures Agrees(st', k) {
      AppendLast(st.trace, e, k);
      assert Agrees(st, k);
    }
  }

  lemma HandleSound(st: State, i: Input, e: Eval)
    requires Sound(st)
    ensures Sound(HandleSpec(st, i, e))
  {
    hide Sound, FireSpec, RecoverSpec;
    var key := (i.target, e.metric);
    if (e.metric, GetOp) !in i.faults {
      if e.breached {
        if key !in st.table || Elapsed(st.table[key].last, i.nowNs, i.cooldownMin) {
          FireSound(st, i, key);
        }
      } else if key in st.table && st.table[key].firing {
        RecoverSound(st, i, key);
      }
    }
  }

  lemma {:induction false} HandleAllSound(st: State, i: Input, evals: seq<Eval>)
    requires Sound(st)
    ensures Sound(HandleAll(st, i, evals))
  {
    hide Sound, HandleSpec;
    if evals != [] {
      var n := |evals| - 1;
      HandleAllSound(st, i, evals[..n]);
      HandleSound(HandleAll(st, i, evals[..n]), i, evals[n]);
    }
  }

  lemma {:induction false} StaleAllSound(st: State, i: Input, evals: seq<Eval>, ms: seq<Metric>)
    requires Sound(st)
    ensures Sound(StaleAll(st, i, evals, ms))
  {
    hide Sound;
    if ms != [] {
      var n := |ms| - 1;
      StaleAllSound(st, i, evals, ms[..n]);
      var st1, st2 := StaleAll(st, i, evals, ms[..n]), StaleAll(st, i, evals, ms);
      if st2 != st1 {
        ClearSound(st1, (i.target, ms[n]), st2);
      }
    }
  }

  lemma {:induction false} DropAllSound(st: State, target: int, ms: seq<Metric>)
    requires Sound(st)
    ensures Sound(DropAll(st, target, ms))
  {
    hide Sound;
    if ms != [] {
      var n := |ms| - 1;
      DropAllSound(st, target, ms[..n]);
      var st1, st2 := DropAll(st, target, ms[..n]), DropAll(st, target, ms);
      if st2 != st1 {
        ClearSound(st1, (target, ms[n]), st2);
      }
    }
  }

  lemma SuppressSound(st: State, n: nat)
    requires Sound(st)
    ensures Sound(st.(suppressed := n))
  {
    forall k ensures Agrees(st.(suppressed := n), k) {
      assert Agrees(st, k);
    }
  }

  lemma ProcessSound(st: State, i: Input)
    requires Sound(st)
    ensures Sound(ProcessSpec(st, i))
  {
    hide Sound, HandleAll, StaleAll, Evals;
    if i.active {
      var evals := Evals(i.res, i.th);
      var st1 := HandleAll(st, i, evals);
      HandleAllSound(st, i, evals);
      StaleAllSound(st1, i, evals, ALL_METRICS);
      var st2 := if i.res.ok then StaleAll(st1, i, evals, ALL_METRICS) else st1;
      SuppressSound(st2, st2.suppressed + 1);
      QuietEventSound(st2, Summary(i.target));
    }
  }

  /** Whatever the results, deletions, settings and store failures, the trace stays in order. */
  lemma {:induction false} HistoryIsSound(inputs: seq<Entry>)
    ensures Sound(Run(EMPTY, inputs))
  {
    hide Sound, ProcessSpec;
    if inputs == [] {
      EmptyIsSound();
    } else {
      var n := |inputs| - 1;
      HistoryIsSound(inputs[..n]);
      match inputs[n]
      case Seen(i) => ProcessSound(Run(EMPTY, inputs[..n]), i);
      case TargetDeleted(target) => DropAllSound(Run(EMPTY, inputs[..n]), target, ALL_METRICS);
    }
  }

  lemma EmptyIsSound()
    ensures Sound(EMPTY)
  {
  }

  ghost predicate NoClearBetween(trace: seq<Ev>, a: nat, b: nat, key: Key)
    requires b <= |trace|
  {
    forall n :: a < n < b ==> trace[n] != Cleared(key)
  }

  /** While no clear intervenes, an earlier alert is never after the last one. */
  lemma {:induction false} AlertStaysOpen(trace: seq<Ev>, a: nat, b: nat, key: Key)
    requires GoodTrace(trace) && a < b <= |trace| && trace[a].Alert? && trace[a].key == key && NoClearBetween(trace, a, b, key)
    ensures LastAlert(trace[..b], key).Some? && LastAlert(trace[..b], key).value >= trace[a].ms
  {
    assert trace[..b] == trace[..b - 1] + [trace[b - 1]];
    AppendLast(trace[..b - 1], trace[b - 1], key);
    if b > a + 1 {
      AlertStaysOpen(trace, a, b - 1, key);
      assert InOrder(trace[..b - 1], trace[b - 1]);
    }
  }

  /** Two alerts of one metric with no clear between them are a cooldown apart. */
  lemma AlertsKeepCooldown(inputs: seq<Entry>, a: nat, b: nat)
    requires var trace := Run(EMPTY, inputs).trace;
             && a < b < |trace| && trace[a].Alert? && trace[b].Alert? && trace[a].key == trace[b].key
             && NoClearBetween(trace, a, b, trace[a].key)
    ensures var trace := Run(EMPTY, inputs).trace; trace[b].ms - trace[a].ms >= trace[b].cooldownMs
  {
    HistoryIsSound(inputs);
    var trace := Run(EMPTY, inputs).trace;
    AlertStaysOpen(trace, a, b, trace[a].key);
    assert InOrder(trace[..b], trace[b]);
  }

  /** A recovery directly follows its clear, and an alert was issued since the clear before that. */
  lemma RecoveryAnswersAnAlert(inputs: seq<Entry>, b: nat)
    requires b < |Run(EMPTY, inputs).trace| && Run(EMPTY, inputs).trace[b].Recovered?
    ensures var trace := Run(EMPTY, inputs).trace; var key := trace[b].key;
            && b > 0 && trace[b - 1] == Cleared(key)
            && exists a :: 0 <= a < b - 1 && trace[a].Alert? && trace[a].key == key && NoClearBetween(trace, a, b - 1, key)
  {
    HistoryIsSound(inputs);
    var trace := Run(EMPTY, inputs).trace;
    assert InOrder(trace[..b], trace[b]);
    assert trace[..b][..b - 1] == trace[..b - 1];
    var a := FindAlert(trace, b - 1, trace[b].key);
  }

  lemma {:induction false} FindAlert(trace: seq<Ev>, b: nat, key: Key) returns (a: nat)
    requires b <= |trace| && LastAlert(trace[..b], key).Some?
    ensures a < b && trace[a].Alert? && trace[a].key == key && NoClearBetween(trace, a, b, key)
  {
    assert trace[..b] == trace[..b - 1] + [trace[b - 1]];
    AppendLast(trace[..b - 1], trace[b - 1], key);
    if trace[b - 1].Alert? && trace[b - 1].key == key {
      a := b - 1;
    } else {
      a := FindAlert(trace, b - 1, key);
    }
  }

  /** Breaches met in quiet hours start no cooldown: the first one outside them is alerted at once. */
  lemma QuietDoesNotDelay(inputs: seq<Entry>, i: Input, e: Eval)
    requires e.breached && !i.quiet && (e.metric, GetOp) !in i.faults && (e.metric, SetOp) !in i.faults
    requires LastAlert(Run(EMPTY, inputs).trace, (i.target, e.metric)).None?
    ensures var st := Run(EMPTY, inputs); var key := (i.target, e.metric);
            HandleSpec(st, i, e).trace == st.trace + [Alert(key, Stamped(i.nowNs), i.cooldownMin * MS_PER_MIN)]
  {
    HistoryIsSound(inputs);
    assert Agrees(Run(EMPTY, inputs), (i.target, e.metric));
  }
}
