/**
 Thresholds: layering a target's overrides on the defaults, and checking a result
 against them. Measured values are modelled as reals.
 */
module NotifyRules {
  import opened Options

  datatype Metric = Download | Upload | Ping | Jitter | Loss | Failure

  datatype Thresholds = Thresholds(
    download: Option<real>, upload: Option<real>, ping: Option<real>, jitter: Option<real>, loss: Option<real>,
    onFailure: Option<bool>, always: Option<bool>,
    slaDownload: Option<real>, slaUpload: Option<real>, slaTolerance: Option<real>)

  /** The JSON names a threshold document may set to null; SLA names and unknown ones clear nothing. */
  datatype Field = FDownload | FUpload | FPing | FJitter | FLoss | FOnFailure | FAlways | FOther(name: string)

  datatype Result = Result(ok: bool, iperf: bool, downBps: real, upBps: real, pingMs: real, jitterMs: real, lossPct: real)

  /** The outcome of one check, with what a message quotes of it. */
  datatype Eval = Eval(metric: Metric, breached: bool, value: real, limit: real, units: string)

  const ALL_METRICS: seq<Metric> := [Download, Upload, Ping, Jitter, Loss, Failure]

  // ---------------------------------------------------------------- Merge

  /** An explicit null disables, a set override wins, anything else inherits; the SLA plan stays the base's. */
  ghost predicate Layered(base: Thresholds, over: Thresholds, nulled: set<Field>, m: Thresholds) {
    && m.download == (if FDownload in nulled then None else if over.download.Some? then over.download else base.download)
    && m.upload == (if FUpload in nulled then None else if over.upload.Some? then over.upload else base.upload)
    && m.ping == (if FPing in nulled then None else if over.ping.Some? then over.ping else base.ping)
    && m.jitter == (if FJitter in nulled then None else if over.jitter.Some? then over.jitter else base.jitter)
    && m.loss == (if FLoss in nulled then None else if over.loss.Some? then over.loss else base.loss)
    && m.onFailure == (if FOnFailure in nulled then None else if over.onFailure.Some? then over.onFailure else base.onFailure)
    && m.always == (if FAlways in nulled then None else if over.always.Some? then over.always else base.always)
    && m.slaDownload == base.slaDownload && m.slaUpload == base.slaUpload && m.slaTolerance == base.slaTolerance
  }

  /** The entry of nullableFields for a JSON name; other names do nothing. */
  function ClearField(t: Thresholds, name: Field): Thresholds {
    match name
    case FDownload => t.(download := None)
    case FUpload => t.(upload := None)
    case FPing => t.(ping := None)
    case FJitter => t.(jitter := None)
    case FLoss => t.(loss := None)
    case FOnFailure => t.(onFailure := None)
    case FAlways => t.(always := None)
    case FOther(_) => t
  }

  lemma ClearLayers(base: Thresholds, over: Thresholds, done: set<Field>, k: Field, m: Thresholds)
    requires Layered(base, over, done, m)
    ensures Layered(base, over, done + {k}, ClearField(m, k))
  {
  }

  method Merge(base: Thresholds, over: Thresholds, nulled: set<Field>) returns (merged: Thresholds)
    ensures Layered(base, over, nulled, merged)
  {
    merged := base;
    if over.download.Some? { merged := merged.(download := over.download); }
    if over.upload.Some? { merged := merged.(upload := over.upload); }
    if over.ping.Some? { merged := merged.(ping := over.ping); }
    if over.jitter.Some? { merged := merged.(jitter := over.jitter); }
    if over.loss.Some? { merged := merged.(loss := over.loss); }
    if over.onFailure.Some? { merged := merged.(onFailure := over.onFailure); }
    if over.always.Some? { merged := merged.(always := over.always); }
    var rest := nulled;
    while exists k :: k in rest
      invariant rest <= nulled && Layered(base, over, nulled - rest, merged)
      decreases rest
    {
      var k :| k in rest;
      ClearLayers(base, over, nulled - rest, k, merged);
      assert nulled - (rest - {k}) == (nulled - rest) + {k};
      merged := ClearField(merged, k);
      rest := rest - {k};
    }
    assert nulled - rest == nulled;
  }

  // ---------------------------------------------------------------- Evaluate

  /** A direction iperf3 did not measure is not evaluated. */
  predicate Unmeasured(res: Result, bps: real) {
    res.iperf && bps == 0.0
  }

  /** Whether a metric is checked at all by this result. */
  predicate Emits(res: Result, t: Thresholds, m: Metric) {
    match m
    case Failure => t.onFailure == Some(true)
    case Download => res.ok && t.download.Some? && !Unmeasured(res, res.downBps)
    case Upload => res.ok && t.upload.Some? && !Unmeasured(res, res.upBps)
    case Ping => res.ok && t.ping.Some?
    case Jitter => res.ok && t.jitter.Some?
    case Loss => res.ok && t.loss.Some?
  }

  /** Whether the result breaches the metric's limit. */
  predicate Breaches(res: Result, t: Thresholds, m: Metric) {
    && Emits(res, t, m)
    && match m
       case Failure => !res.ok
       case Download => res.downBps / 1000000.0 < t.download.value
       case Upload => res.upBps / 1000000.0 < t.upload.value
       case Ping => res.pingMs > t.ping.value
       case Jitter => res.jitterMs > t.jitter.value
       case Loss => res.lossPct > t.loss.value
  }

  /** What is measured for a metric, in the unit its limit is given in. */
  function Measured(res: Result, m: Metric): real {
    match m
    case Download => res.downBps / 1000000.0
    case Upload => res.upBps / 1000000.0
    case Ping => res.pingMs
    case Jitter => res.jitterMs
    case Loss => res.lossPct
    case Failure => 0.0
  }

  function LimitOf(t: Thresholds, m: Metric): Option<real> {
    match m
    case Download => t.download
    case Upload => t.upload
    case Ping => t.ping
    case Jitter => t.jitter
    case Loss => t.loss
    case Failure => None
  }

  function UnitOf(m: Metric): string {
    match m
    case Download => "Mbps"
    case Upload => "Mbps"
    case Ping => "ms"
    case Jitter => "ms"
    case Loss => "%"
    case Failure => ""
  }

  /** The check of a metric as a message quotes it. */
  function Verdict(res: Result, t: Thresholds, m: Metric): Eval {
    var limit := LimitOf(t, m);
    Eval(m, Breaches(res, t, m), Measured(res, m), if limit.Some? then limit.value else 0.0, UnitOf(m))
  }

  function EvalOf(res: Result, t: Thresholds, m: Metric): seq<Eval> {
    if Emits(res, t, m) then [Verdict(res, t, m)] else []
  }

  /** The checks due for a list of metrics, in its order. */
  function EvalsOf(res: Result, t: Thresholds, ms: seq<Metric>): seq<Eval> {
    if ms == [] then []
    else EvalsOf(res, t, ms[..|ms| - 1]) + EvalOf(res, t, ms[|ms| - 1])
  }

  function Evals(res: Result, t: Thresholds): seq<Eval> {
    EvalsOf(res, t, ALL_METRICS)
  }

  lemma NextEval(res: Result, t: Thresholds, n: nat)
    requires n < |ALL_METRICS|
    ensures EvalsOf(res, t, ALL_METRICS[..n + 1]) == EvalsOf(res, t, ALL_METRICS[..n]) + EvalOf(res, t, ALL_METRICS[n])
  {
    hide EvalOf;
    assert ALL_METRICS[..n + 1][..n] == ALL_METRICS[..n];
  }

  lemma EvalsUnfold(res: Result, t: Thresholds)
    ensures Evals(res, t) == EvalOf(res, t, Download) + EvalOf(res, t, Upload) + EvalOf(res, t, Ping)
                             + EvalOf(res, t, Jitter) + EvalOf(res, t, Loss) + EvalOf(res, t, Failure)
  {
    hide EvalOf;
    NextEval(res, t, 0);
    NextEval(res, t, 1);
    NextEval(res, t, 2);
    NextEval(res, t, 3);
    NextEval(res, t, 4);
    NextEval(res, t, 5);
    assert ALL_METRICS[..6] == ALL_METRICS && ALL_METRICS[..0] == [];
  }

  /** What each check of an ok result comes to, and the one check of any other. */
  lemma EvalsWrittenOut(res: Result, t: Thresholds)
    ensures !res.ok ==>
      && EvalOf(res, t, Download) == EvalOf(res, t, Upload) == EvalOf(res, t, Ping) == EvalOf(res, t, Jitter) == EvalOf(res, t, Loss) == []
      && EvalOf(res, t, Failure) == if t.onFailure == Some(true) then [Eval(Failure, true, 0.0, 0.0, "")] else []
    ensures res.ok ==>
      var down, up := res.downBps / 1000000.0, res.upBps / 1000000.0;
      && EvalOf(res, t, Download) == (if t.download.Some? && !(res.iperf && res.downBps == 0.0) then [Eval(Download, down < t.download.value, down, t.download.value, "Mbps")] else [])
      && EvalOf(res, t, Upload) == (if t.upload.Some? && !(res.iperf && res.upBps == 0.0) then [Eval(Upload, up < t.upload.value, up, t.upload.value, "Mbps")] else [])
      && EvalOf(res, t, Ping) == (if t.ping.Some? then [Eval(Ping, res.pingMs > t.ping.value, res.pingMs, t.ping.value, "ms")] else [])
      && EvalOf(res, t, Jitter) == (if t.jitter.Some? then [Eval(Jitter, res.jitterMs > t.jitter.value, res.jitterMs, t.jitter.value, "ms")] else [])
      && EvalOf(res, t, Loss) == (if t.loss.Some? then [Eval(Loss, res.lossPct > t.loss.value, res.lossPct, t.loss.value, "%")] else [])
      && EvalOf(res, t, Failure) == (if t.onFailure == Some(true) then [Eval(Failure, false, 0.0, 0.0, "")] else [])
  {
  }

  /** Evaluate, as it appends to its list. */
  method Evaluate(res: Result, t: Thresholds) returns (evals: seq<Eval>)
    ensures evals == Evals(res, t)
  {
    hide EvalOf, Evals;
    EvalsUnfold(res, t);
    EvalsWrittenOut(res, t);
    evals := [];
    if !res.ok {
      if t.onFailure == Some(true) {
        evals := evals + [Eval(Failure, true, 0.0, 0.0, "")];
      }
      return;
    }
    if t.download.Some? && !(res.iperf && res.downBps == 0.0) {
      var v := res.downBps / 1000000.0;
      evals := evals + [Eval(Download, v < t.download.value, v, t.download.value, "Mbps")];
    }
    ghost var seen := EvalOf(res, t, Download);
    assert evals == seen;
    if t.upload.Some? && !(res.iperf && res.upBps == 0.0) {
      var v := res.upBps / 1000000.0;
      evals := evals + [Eval(Upload, v < t.upload.value, v, t.upload.value, "Mbps")];
    }
    seen := seen + EvalOf(res, t, Upload);
    assert evals == seen;
    if t.ping.Some? {
      evals := evals + [Eval(Ping, res.pingMs > t.ping.value, res.pingMs, t.ping.value, "ms")];
    }
    seen := seen + EvalOf(res, t, Ping);
    assert evals == seen;
    if t.jitter.Some? {
      evals := evals + [Eval(Jitter, res.jitterMs > t.jitter.value, res.jitterMs, t.jitter.value, "ms")];
    }
    seen := seen + EvalOf(res, t, Jitter);
    assert evals == seen;
    if t.loss.Some? {
      evals := evals + [Eval(Loss, res.lossPct > t.loss.value, res.lossPct, t.loss.value, "%")];
    }
    seen := seen + EvalOf(res, t, Loss);
    assert evals == seen;
    if t.onFailure == Some(true) {
      evals := evals + [Eval(Failure, false, 0.0, 0.0, "")];
    }
  }

  /** Each checked metric appears once, with its verdict; nothing else appears. */
  lemma {:induction false} EvalsSpec(res: Result, t: Thresholds, ms: seq<Metric>)
    requires forall i, j :: 0 <= i < j < |ms| ==> ms[i] != ms[j]
    ensures forall e :: e in EvalsOf(res, t, ms) <==> e.metric in ms && Emits(res, t, e.metric) && e == Verdict(res, t, e.metric)
    ensures forall i, j :: 0 <= i < j < |EvalsOf(res, t, ms)| ==> EvalsOf(res, t, ms)[i].metric != EvalsOf(res, t, ms)[j].metric
  {
    hide Emits, Breaches, LimitOf, Measured, UnitOf;
    if ms != [] {
      var n := |ms| - 1;
      EvalsSpec(res, t, ms[..n]);
      var before := EvalsOf(res, t, ms[..n]);
      assert ms == ms[..n] + [ms[n]];
      forall j | 0 <= j < |before| ensures before[j].metric != ms[n] {
        assert before[j] in before;
      }
    }
  }

  // ---------------------------------------------------------------- quiet hours

  /** quietNow over minutes of the day; None stands for an empty or unreadable bound. */
  predicate QuietNow(mins: int, start: Option<int>, end: Option<int>) {
    if start.None? || end.None? || start == end then false
    else if start.value > end.value then mins >= start.value || mins < end.value
    else mins >= start.value && mins < end.value
  }

  /**
   The quiet window is the stretch of the clock face from start to end, midnight or not.
   Without both bounds there is none.
   */
  lemma QuietIsClockInterval(mins: int, start: int, end: int)
    requires 0 <= mins < 1440 && 0 <= start < 1440 && 0 <= end < 1440
    ensures forall bound :: !QuietNow(mins, None, bound) && !QuietNow(mins, bound, None)
    ensures QuietNow(mins, Some(start), Some(end)) <==> (mins - start) % 1440 < (end - start) % 1440
  {
    assert (mins - start) % 1440 == if mins >= start then mins - start else mins - start + 1440;
    assert (end - start) % 1440 == if end >= start then end - start else end - start + 1440;
  }
}
