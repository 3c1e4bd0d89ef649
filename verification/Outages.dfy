/**
 The outage timeline: grouping a target's consecutive bad results into incidents.

 Rows arrive as the query orders them: one target's rows together, oldest first. A target
 that was deleted has no id and is told apart by name. Times are milliseconds.
 */
module Outages {
  import opened Options

  datatype Status = Ok | Degraded | Failed

  datatype Row = Row(target: Option<int>, name: string, status: Status, at: int, error: string, readable: bool)

  datatype Incident = Incident(target: Option<int>, name: string, status: Status, start: int, end: int, count: nat, error: string)

  /** Rows lo..hi of the query, as one incident. */
  datatype Span = Span(lo: nat, hi: nat)

  const DEFAULT_GAP := 1800

  predicate SameTarget(a: Row, b: Row) {
    (a.target == None && b.target == None && a.name == b.name) || (a.target.Some? && a.target == b.target)
  }

  /** What matters of the query's ORDER BY: a target's rows come together. */
  ghost predicate Together(rows: seq<Row>) {
    forall i, j, k :: 0 <= i <= j <= k < |rows| && SameTarget(rows[i], rows[k]) ==> SameTarget(rows[i], rows[j])
  }

  // ---------------------------------------------------------------- what an incident is

  predicate Bad(rows: seq<Row>, i: int) {
    0 <= i < |rows| && rows[i].status != Ok
  }

  /** Row i continues the trouble of the row before it. */
  predicate Linked(rows: seq<Row>, gap: int, i: int) {
    Bad(rows, i - 1) && Bad(rows, i) && SameTarget(rows[i - 1], rows[i]) && rows[i].at - rows[i - 1].at <= gap
  }

  predicate InSpan(s: Span, i: int) {
    s.lo <= i < s.hi
  }

  /** Bad rows only, each linked to the one before but for the first. */
  ghost predicate IsIncident(rows: seq<Row>, gap: int, s: Span) {
    && s.lo < s.hi <= |rows| && Bad(rows, s.lo) && !Linked(rows, gap, s.lo)
    && forall i :: s.lo < i < s.hi ==> Linked(rows, gap, i)
  }

  ghost predicate Covered(spans: seq<Span>, i: int) {
    exists k :: 0 <= k < |spans| && InSpan(spans[k], i)
  }

  ghost predicate InOrder(spans: seq<Span>) {
    && (forall k :: 0 <= k < |spans| ==> spans[k].lo < spans[k].hi)
    && (forall k, m :: 0 <= k < m < |spans| ==> spans[k].hi <= spans[m].lo)
  }

  ghost predicate AllIncidents(rows: seq<Row>, gap: int, spans: seq<Span>, n: nat) {
    forall k :: 0 <= k < |spans| ==> IsIncident(rows, gap, spans[k]) && spans[k].hi <= n
  }

  ghost predicate CoversBad(rows: seq<Row>, spans: seq<Span>, n: nat) {
    forall i :: Bad(rows, i) && i < n ==> Covered(spans, i)
  }

  /** The first n rows, grouped: separate incidents in order that hold every bad row. */
  ghost predicate Groups(rows: seq<Row>, gap: int, spans: seq<Span>, n: nat) {
    n <= |rows| && InOrder(spans) && AllIncidents(rows, gap, spans, n) && CoversBad(rows, spans, n)
  }

  ghost predicate IsGrouping(rows: seq<Row>, gap: int, spans: seq<Span>) {
    Groups(rows, gap, spans, |rows|)
  }

  /** The incident of a span: the worst status, the first message, every member counted. */
  ghost predicate Describes(inc: Incident, rows: seq<Row>, s: Span) {
    && s.lo < s.hi <= |rows|
    && inc.target == rows[s.lo].target && inc.name == rows[s.lo].name
    && inc.start == rows[s.lo].at && inc.end == rows[s.hi - 1].at && inc.count == s.hi - s.lo
    && (inc.status == Failed <==> exists i :: InSpan(s, i) && rows[i].status == Failed)
    && inc.status != Ok
    && (inc.error == "" <==> forall i :: InSpan(s, i) ==> rows[i].error == "")
    && (inc.error != "" ==> exists i :: InSpan(s, i) && rows[i].error == inc.error && forall j :: s.lo <= j < i ==> rows[j].error == "")
  }

  // ---------------------------------------------------------------- the grouping loop

  /** The open incident, which is the last span; what came after it is another target's and ok. */
  ghost predicate IsOpen(rows: seq<Row>, cur: Incident, curEnd: int, s: Span, n: nat) {
    && n <= |rows| && s.lo < s.hi <= n && Describes(cur, rows, s) && curEnd == rows[s.hi - 1].at
    && SameTarget(rows[s.lo], rows[s.hi - 1])
    && forall i :: s.hi <= i < n ==> !Bad(rows, i) && !SameTarget(rows[s.lo], rows[i])
  }

  lemma SkipRow(rows: seq<Row>, gap: int, spans: seq<Span>, n: nat)
    requires Groups(rows, gap, spans, n) && n < |rows| && !Bad(rows, n)
    ensures Groups(rows, gap, spans, n + 1)
  {
    hide IsIncident, Covered;
  }

  /** A span that takes row n in, at the end of the list or in place of its last. */
  lemma CoversMore(rows: seq<Row>, spans: seq<Span>, spans': seq<Span>, n: nat)
    requires CoversBad(rows, spans, n) && spans' != [] && InSpan(spans'[|spans'| - 1], n)
    requires |spans| <= |spans'| && forall k, i :: 0 <= k < |spans| && InSpan(spans[k], i) ==> InSpan(spans'[k], i)
    ensures CoversBad(rows, spans', n + 1)
  {
    forall i | Bad(rows, i) && i < n + 1 ensures Covered(spans', i) {
      if i < n {
        var k :| 0 <= k < |spans| && InSpan(spans[k], i);
        assert InSpan(spans'[k], i);
      }
    }
  }

  lemma AddSpan(rows: seq<Row>, gap: int, spans: seq<Span>, n: nat)
    requires Groups(rows, gap, spans, n) && Bad(rows, n) && !Linked(rows, gap, n)
    ensures Groups(rows, gap, spans + [Span(n, n + 1)], n + 1)
  {
    hide CoversBad, Linked;
    CoversMore(rows, spans, spans + [Span(n, n + 1)], n);
  }

  lemma GrowLast(rows: seq<Row>, gap: int, spans: seq<Span>, n: nat)
    requires Groups(rows, gap, spans, n) && spans != [] && spans[|spans| - 1].hi == n && Linked(rows, gap, n)
    ensures var last := |spans| - 1; Groups(rows, gap, spans[last := Span(spans[last].lo, n + 1)], n + 1)
  {
    hide CoversBad, Linked, Covered;
    var last := |spans| - 1;
    var s' := Span(spans[last].lo, n + 1);
    var spans' := spans[last := s'];
    assert IsIncident(rows, gap, s') by {
      assert IsIncident(rows, gap, spans[last]);
      LinkedIsBad(rows, gap, n);
    }
    hide IsIncident;
    assert InOrder(spans') by {
      assert forall k :: 0 <= k < last ==> spans'[k] == spans[k] && spans[k].hi <= spans[last].lo;
    }
    assert AllIncidents(rows, gap, spans', n + 1);
    CoversMore(rows, spans, spans', n);
  }

  /** The loop's test against the open incident is the one against its first row. */
  lemma TestIsSameTarget(rows: seq<Row>, cur: Incident, curEnd: int, s: Span, n: nat)
    requires IsOpen(rows, cur, curEnd, s, n) && n < |rows| && Together(rows)
    ensures cur.target == rows[s.lo].target && cur.name == rows[s.lo].name
    ensures SameTarget(rows[s.lo], rows[n]) ==> s.hi == n && SameTarget(rows[n - 1], rows[n])
    ensures !SameTarget(rows[s.lo], rows[n]) && s.hi == n ==> !SameTarget(rows[n - 1], rows[n])
  {
    assert s.hi < n ==> !SameTarget(rows[s.lo], rows[s.hi]);
    if SameTarget(rows[s.lo], rows[n]) {
      assert SameTarget(rows[s.lo], rows[s.hi]);
    }
  }

  /** A row that does not extend the open incident starts another. */
  lemma StartsAnother(rows: seq<Row>, gap: int, cur: Incident, curEnd: int, s: Span, n: nat)
    requires IsOpen(rows, cur, curEnd, s, n) && n < |rows| && Together(rows)
    requires !(SameTarget(rows[s.lo], rows[n]) && rows[n].at - curEnd <= gap)
    ensures !Linked(rows, gap, n)
  {
    TestIsSameTarget(rows, cur, curEnd, s, n);
    if s.hi < n {
      assert !Bad(rows, n - 1);
    }
  }

  lemma AfterOk(rows: seq<Row>, gap: int, n: nat)
    requires n > 0 ==> !Bad(rows, n - 1)
    ensures !Linked(rows, gap, n)
  {
  }

  lemma Opens(rows: seq<Row>, n: nat)
    requires Bad(rows, n)
    ensures IsOpen(rows, Incident(rows[n].target, rows[n].name, rows[n].status, rows[n].at, rows[n].at, 1, rows[n].error), rows[n].at, Span(n, n + 1), n + 1)
  {
    assert InSpan(Span(n, n + 1), n);
  }

  lemma GrownDescribes(rows: seq<Row>, cur: Incident, s: Span)
    requires Describes(cur, rows, s) && Bad(rows, s.hi)
    ensures Describes(Extended(cur, rows[s.hi]), rows, Span(s.lo, s.hi + 1))
  {
    var s' := Span(s.lo, s.hi + 1);
    var n := s.hi;
    assert forall i :: InSpan(s', i) <==> InSpan(s, i) || i == n;
    assert InSpan(s', n);
    if cur.error != "" {
      var i :| InSpan(s, i) && rows[i].error == cur.error && forall j :: s.lo <= j < i ==> rows[j].error == "";
      assert InSpan(s', i);
    } else {
      assert forall j :: s.lo <= j < n ==> InSpan(s, j);
    }
  }

  /** Every closed incident describes its span. */
  ghost predicate AllDescribe(out: seq<Incident>, rows: seq<Row>, spans: seq<Span>) {
    |out| <= |spans| && forall k :: 0 <= k < |out| ==> Describes(out[k], rows, spans[k])
  }

  /** What one row does to an incident it extends. */
  function Extended(cur: Incident, r: Row): Incident {
    cur.(end := r.at, count := cur.count + 1,
         status := if cur.status == Degraded && r.status == Failed then Failed else cur.status,
         error := if cur.error == "" then r.error else cur.error)
  }

  lemma Grows(rows: seq<Row>, gap: int, cur: Incident, curEnd: int, s: Span, n: nat)
    requires IsOpen(rows, cur, curEnd, s, n) && Bad(rows, n) && Together(rows)
    requires SameTarget(rows[s.lo], rows[n]) && rows[n].at - curEnd <= gap && Bad(rows, s.hi - 1)
    ensures s.hi == n && Linked(rows, gap, n)
    ensures IsOpen(rows, Extended(cur, rows[n]), rows[n].at, Span(s.lo, n + 1), n + 1)
  {
    hide Describes, Together, SameTarget, Extended;
    TestIsSameTarget(rows, cur, curEnd, s, n);
    GrownDescribes(rows, cur, s);
  }

  /** What holds between two rows. */
  ghost predicate Between(rows: seq<Row>, gap: int, found: seq<Incident>, cur: Option<Incident>, curEnd: int, spans: seq<Span>, n: nat) {
    && Groups(rows, gap, spans, n) && AllDescribe(found, rows, spans)
    && |spans| == |found| + (if cur.Some? then 1 else 0)
    && (cur.Some? ==> IsOpen(rows, cur.value, curEnd, spans[|spans| - 1], n))
    && (cur == None && n > 0 ==> !Bad(rows, n - 1))
  }

  /** An ok row, which closes an open incident of its target. */
  lemma OkRow(rows: seq<Row>, gap: int, found: seq<Incident>, cur: Option<Incident>, curEnd: int, spans: seq<Span>, n: nat)
    requires Between(rows, gap, found, cur, curEnd, spans, n) && n < |rows| && rows[n].status == Ok && Together(rows)
    ensures if cur.Some? && SameTarget(rows[spans[|spans| - 1].lo], rows[n])
            then Between(rows, gap, found + [cur.value], None, curEnd, spans, n + 1)
            else Between(rows, gap, found, cur, curEnd, spans, n + 1)
  {
    hide Describes, IsIncident, Covered, Together;
    SkipRow(rows, gap, spans, n);
  }

  lemma MembersAreBad(rows: seq<Row>, gap: int, s: Span, i: int)
    requires IsIncident(rows, gap, s) && InSpan(s, i)
    ensures Bad(rows, i)
  {
    assert i > s.lo ==> Linked(rows, gap, i);
  }

  lemma GrownRow(rows: seq<Row>, gap: int, found: seq<Incident>, cur: Incident, curEnd: int, spans: seq<Span>, n: nat)
      returns (spans': seq<Span>)
    requires Between(rows, gap, found, Some(cur), curEnd, spans, n) && Bad(rows, n) && Together(rows)
    requires SameTarget(rows[spans[|spans| - 1].lo], rows[n]) && rows[n].at - curEnd <= gap
    ensures Between(rows, gap, found, Some(Extended(cur, rows[n])), rows[n].at, spans', n + 1)
  {
    hide Describes, CoversBad, InOrder, Linked, Together, SameTarget, Extended;
    var s := spans[|spans| - 1];
    MembersAreBad(rows, gap, s, s.hi - 1);
    Grows(rows, gap, cur, curEnd, s, n);
    GrowLast(rows, gap, spans, n);
    hide Groups, IsOpen;
    spans' := spans[|spans| - 1 := Span(s.lo, n + 1)];
  }

  lemma NewRow(rows: seq<Row>, gap: int, found: seq<Incident>, cur: Option<Incident>, curEnd: int, spans: seq<Span>, n: nat)
      returns (spans': seq<Span>)
    requires Between(rows, gap, found, cur, curEnd, spans, n) && Bad(rows, n) && Together(rows)
    requires cur.Some? ==> !(SameTarget(rows[spans[|spans| - 1].lo], rows[n]) && rows[n].at - curEnd <= gap)
    ensures var r := rows[n];
            Between(rows, gap, if cur.Some? then found + [cur.value] else found,
                    Some(Incident(r.target, r.name, r.status, r.at, r.at, 1, r.error)), r.at, spans', n + 1)
  {
    hide Describes, AllIncidents, CoversBad, InOrder, Linked, Together, SameTarget;
    if cur.Some? {
      StartsAnother(rows, gap, cur.value, curEnd, spans[|spans| - 1], n);
    } else {
      AfterOk(rows, gap, n);
    }
    AddSpan(rows, gap, spans, n);
    Opens(rows, n);
    spans' := spans + [Span(n, n + 1)];
  }

  lemma OpenInside(rows: seq<Row>, gap: int, found: seq<Incident>, cur: Option<Incident>, curEnd: int, spans: seq<Span>, n: nat)
    requires Between(rows, gap, found, cur, curEnd, spans, n)
    ensures n <= |rows| && (cur.Some? ==> spans != [] && spans[|spans| - 1].lo < n)
  {
    hide Describes, CoversBad, AllIncidents, InOrder;
  }

  lemma BadRow(rows: seq<Row>, gap: int, found: seq<Incident>, cur: Option<Incident>, curEnd: int, spans: seq<Span>, n: nat)
      returns (spans': seq<Span>)
    requires Between(rows, gap, found, cur, curEnd, spans, n) && Bad(rows, n) && Together(rows)
    ensures var r := rows[n];
            if cur.Some? && SameTarget(rows[spans[|spans| - 1].lo], r) && r.at - curEnd <= gap
            then Between(rows, gap, found, Some(Extended(cur.value, r)), r.at, spans', n + 1)
            else Between(rows, gap, if cur.Some? then found + [cur.value] else found,
                         Some(Incident(r.target, r.name, r.status, r.at, r.at, 1, r.error)), r.at, spans', n + 1)
  {
    hide Between, Together, SameTarget, Extended;
    OpenInside(rows, gap, found, cur, curEnd, spans, n);
    if cur.Some? && SameTarget(rows[spans[|spans| - 1].lo], rows[n]) && rows[n].at - curEnd <= gap {
      spans' := GrownRow(rows, gap, found, cur.value, curEnd, spans, n);
    } else {
      spans' := NewRow(rows, gap, found, cur, curEnd, spans, n);
    }
  }

  /** The grouping loop of Outages; an unreadable time stops it. */
  method GroupOutages(rows: seq<Row>, gapSeconds: int) returns (out: Option<seq<Incident>>, ghost spans: seq<Span>)
    requires Together(rows)
    ensures out.None? <==> exists i :: 0 <= i < |rows| && !rows[i].readable
    ensures out.Some? ==> IsGrouping(rows, if gapSeconds <= 0 then 1800 * 1000 else gapSeconds * 1000, spans) && |out.value| == |spans|
    ensures out.Some? ==> forall k :: 0 <= k < |spans| ==> Describes(out.value[k], rows, spans[k])
  {
    hide Describes, Groups, IsOpen;
    var seconds := gapSeconds;
    if seconds <= 0 {
      seconds := DEFAULT_GAP;
    }
    var gap := seconds * 1000;
    var found: seq<Incident> := [];
    var cur: Option<Incident> := None;
    var curEnd := 0;
    spans := [];
    NoRows(rows, gap);
    for n := 0 to |rows|
      invariant forall i :: 0 <= i < n ==> rows[i].readable
      invariant Between(rows, gap, found, cur, curEnd, spans, n)
    {
      var row := rows[n];
      if !row.readable {
        return None, spans;
      }
      if cur.Some? {
        TestIsSameTarget(rows, cur.value, curEnd, spans[|spans| - 1], n);
      }
      var same := cur.Some? && ((cur.value.target == None && row.target == None && cur.value.name == row.name)
                                || (cur.value.target.Some? && row.target.Some? && cur.value.target.value == row.target.value));
      if cur.Some? {
        SpansInside(rows, gap, spans, n);
        assert same <==> SameTarget(rows[spans[|spans| - 1].lo], row);
      }
      hide Between, SameTarget;
      if row.status == Ok {
        OkRow(rows, gap, found, cur, curEnd, spans, n);
        if same {
          found, cur := found + [cur.value], None;
        }
        continue;
      }
      spans := BadRow(rows, gap, found, cur, curEnd, spans, n);
      if same && row.at - curEnd <= gap {
        var inc := cur.value;
        inc := inc.(end := row.at, count := inc.count + 1);
        if inc.status == Degraded && row.status == Failed {
          inc := inc.(status := Failed);
        }
        if inc.error == "" {
          inc := inc.(error := row.error);
        }
        cur, curEnd := Some(inc), row.at;
        continue;
      }
      if cur.Some? {
        found := found + [cur.value];
      }
      cur, curEnd := Some(Incident(row.target, row.name, row.status, row.at, row.at, 1, row.error)), row.at;
    }
    if cur.Some? {
      LastDescribed(rows, gap, found, cur.value, curEnd, spans);
      found, cur := found + [cur.value], None;
    }
    out := Some(found);
  }

  lemma SpansInside(rows: seq<Row>, gap: int, spans: seq<Span>, n: nat)
    requires Groups(rows, gap, spans, n)
    ensures forall k :: 0 <= k < |spans| ==> spans[k].lo < spans[k].hi <= n
  {
  }

  lemma NoRows(rows: seq<Row>, gap: int)
    ensures Between(rows, gap, [], None, 0, [], 0)
  {
  }

  lemma LastDescribed(rows: seq<Row>, gap: int, found: seq<Incident>, cur: Incident, curEnd: int, spans: seq<Span>)
    requires Between(rows, gap, found, Some(cur), curEnd, spans, |rows|)
    ensures AllDescribe(found + [cur], rows, spans) && |found| + 1 == |spans|
  {
    hide Describes, Groups;
  }

  // ---------------------------------------------------------------- main results

  function BadCount(rows: seq<Row>, n: nat): nat
    requires n <= |rows|
  {
    if n == 0 then 0 else BadCount(rows, n - 1) + if Bad(rows, n - 1) then 1 else 0
  }

  function TotalCount(out: seq<Incident>): nat {
    if out == [] then 0 else TotalCount(out[..|out| - 1]) + out[|out| - 1].count
  }

  lemma {:induction false} BadBetween(rows: seq<Row>, lo: nat, hi: nat)
    requires lo <= hi <= |rows|
    ensures (forall i :: lo <= i < hi ==> Bad(rows, i)) ==> BadCount(rows, hi) == BadCount(rows, lo) + hi - lo
    ensures (forall i :: lo <= i < hi ==> !Bad(rows, i)) ==> BadCount(rows, hi) == BadCount(rows, lo)
    decreases hi
  {
    if lo < hi {
      BadBetween(rows, lo, hi - 1);
    }
  }

  lemma {:induction false} CountsUpTo(rows: seq<Row>, gap: int, out: seq<Incident>, spans: seq<Span>, k: nat)
    requires IsGrouping(rows, gap, spans) && |out| == |spans| && k <= |spans|
    requires forall m :: 0 <= m < |spans| ==> Describes(out[m], rows, spans[m])
    ensures TotalCount(out[..k]) == BadCount(rows, if k == 0 then 0 else spans[k - 1].hi)
  {
    hide CoversBad, IsIncident, Describes;
    if k > 0 {
      CountsUpTo(rows, gap, out, spans, k - 1);
      assert out[..k][..k - 1] == out[..k - 1];
      var s := spans[k - 1];
      var before := if k == 1 then 0 else spans[k - 2].hi;
      NoneBetween(rows, gap, spans, k - 1);
      BadBetween(rows, before, s.lo);
      forall i | s.lo <= i < s.hi ensures Bad(rows, i) {
        MembersAreBad(rows, gap, s, i);
      }
      BadBetween(rows, s.lo, s.hi);
      CountIsLength(out[k - 1], rows, s);
    }
  }

  lemma CountIsLength(inc: Incident, rows: seq<Row>, s: Span)
    requires Describes(inc, rows, s)
    ensures s.lo < s.hi <= |rows| && inc.count == s.hi - s.lo
  {
  }

  lemma OutsideAll(spans: seq<Span>, k: nat, i: int)
    requires InOrder(spans) && k <= |spans|
    requires (k > 0 ==> spans[k - 1].hi <= i) && (k < |spans| ==> i < spans[k].lo)
    ensures !Covered(spans, i)
  {
    forall m | 0 <= m < |spans| ensures !InSpan(spans[m], i) {
      if m < k - 1 {
        assert spans[m].hi <= spans[k - 1].lo;
      } else if m > k {
        assert spans[k].hi <= spans[m].lo;
      }
    }
  }

  /** The rows between two neighbouring incidents, and those after the last, are ok. */
  lemma NoneBetween(rows: seq<Row>, gap: int, spans: seq<Span>, k: nat)
    requires IsGrouping(rows, gap, spans) && k <= |spans|
    ensures forall i :: (if k == 0 then 0 else spans[k - 1].hi) <= i < (if k < |spans| then spans[k].lo else |rows|) ==> !Bad(rows, i)
  {
    hide Covered, IsIncident;
    forall i | (if k == 0 then 0 else spans[k - 1].hi) <= i < (if k < |spans| then spans[k].lo else |rows|)
      ensures !Bad(rows, i)
    {
      OutsideAll(spans, k, i);
    }
  }

  /** Every bad result is counted in exactly one incident. */
  lemma CountsAddUp(rows: seq<Row>, gap: int, out: seq<Incident>, spans: seq<Span>)
    requires IsGrouping(rows, gap, spans) && |out| == |spans|
    requires forall m :: 0 <= m < |spans| ==> Describes(out[m], rows, spans[m])
    ensures TotalCount(out) == BadCount(rows, |rows|)
  {
    hide CoversBad, AllIncidents, Describes;
    CountsUpTo(rows, gap, out, spans, |spans|);
    assert out[..|spans|] == out;
    NoneBetween(rows, gap, spans, |spans|);
    SpansInside(rows, gap, spans, |rows|);
    BadBetween(rows, if spans == [] then 0 else spans[|spans| - 1].hi, |rows|);
  }

  /** All members of an incident belong to its target. */
  lemma {:induction false} OneTarget(rows: seq<Row>, gap: int, spans: seq<Span>, k: nat, i: nat)
    requires IsGrouping(rows, gap, spans) && k < |spans| && InSpan(spans[k], i)
    ensures SameTarget(rows[spans[k].lo], rows[i])
    decreases i
  {
    hide CoversBad;
    if i > spans[k].lo {
      OneTarget(rows, gap, spans, k, i - 1);
      assert IsIncident(rows, gap, spans[k]);
      assert Linked(rows, gap, i);
    }
  }

  /** Neighbouring incidents of one target are kept apart by an ok result or by too long a gap. */
  lemma NeighboursAreApart(rows: seq<Row>, gap: int, spans: seq<Span>, k: nat)
    requires Together(rows) && IsGrouping(rows, gap, spans) && k + 1 < |spans|
    requires SameTarget(rows[spans[k].lo], rows[spans[k + 1].lo])
    ensures var last := spans[k].hi - 1; var first := spans[k + 1].lo;
            || (exists i :: last < i < first && rows[i].status == Ok && SameTarget(rows[spans[k].lo], rows[i]))
            || (first == last + 1 && rows[first].at - rows[last].at > gap)
  {
    hide CoversBad;
    var s := spans[k];
    var last := s.hi - 1;
    var first := spans[k + 1].lo;
    OneTarget(rows, gap, spans, k, last);
    assert SameTarget(rows[last], rows[first]);
    if first == last + 1 {
      assert IsIncident(rows, gap, spans[k + 1]);
      MembersAreBad(rows, gap, s, last);
    } else {
      NoneBetween(rows, gap, spans, k + 1);
      assert !Bad(rows, last + 1) && SameTarget(rows[s.lo], rows[last + 1]);
    }
  }

  /** The span of one grouping that starts first is not later than the other's. */
  lemma StartsNoLater(rows: seq<Row>, gap: int, a: seq<Span>, b: seq<Span>, k: nat)
    requires IsGrouping(rows, gap, a) && IsGrouping(rows, gap, b) && k < |a| && k <= |b| && a[..k] == b[..k]
    ensures k < |b| && b[k].lo <= a[k].lo
  {
    hide Linked, Covered;
    var i := a[k].lo;
    assert IsIncident(rows, gap, a[k]);
    hide IsIncident;
    assert Bad(rows, i) && Covered(b, i);
    if k > 0 {
      assert a[..k][k - 1] == b[..k][k - 1];
      assert b[k - 1].hi <= i;
    }
    if k == |b| || i < b[k].lo {
      OutsideAll(b, k, i);
    }
  }

  /** Just past a span, a linked row would belong to no span at all. */
  lemma NothingLinkedPast(rows: seq<Row>, gap: int, a: seq<Span>, k: nat)
    requires IsGrouping(rows, gap, a) && k < |a|
    ensures !Linked(rows, gap, a[k].hi)
  {
    hide Covered, Linked;
    var i := a[k].hi;
    if k + 1 < |a| {
      assert IsIncident(rows, gap, a[k + 1]);
    }
    hide IsIncident;
    if k + 1 == |a| || i < a[k + 1].lo {
      OutsideAll(a, k + 1, i);
      LinkedIsBad(rows, gap, i);
    }
  }

  lemma LinkedIsBad(rows: seq<Row>, gap: int, i: int)
    ensures Linked(rows, gap, i) ==> Bad(rows, i) && i < |rows|
  {
  }

  lemma EndsNoEarlier(rows: seq<Row>, gap: int, a: seq<Span>, b: seq<Span>, k: nat)
    requires IsGrouping(rows, gap, a) && IsGrouping(rows, gap, b) && k < |a| && k < |b| && a[k].lo == b[k].lo
    ensures b[k].hi <= a[k].hi
  {
    hide CoversBad, Linked;
    NothingLinkedPast(rows, gap, a, k);
    assert IsIncident(rows, gap, b[k]);
  }

  /** There is only one way to group the rows. */
  lemma {:induction false} GroupingIsUnique(rows: seq<Row>, gap: int, a: seq<Span>, b: seq<Span>, k: nat)
    requires IsGrouping(rows, gap, a) && IsGrouping(rows, gap, b) && k <= |a|
    ensures k <= |b| && a[..k] == b[..k]
    ensures k == |a| ==> a == b
  {
    hide IsGrouping;
    if k > 0 {
      GroupingIsUnique(rows, gap, a, b, k - 1);
      StartsNoLater(rows, gap, a, b, k - 1);
      StartsNoLater(rows, gap, b, a, k - 1);
      EndsNoEarlier(rows, gap, a, b, k - 1);
      EndsNoEarlier(rows, gap, b, a, k - 1);
      assert a[k - 1] == b[k - 1];
      assert a[..k] == a[..k - 1] + [a[k - 1]] && b[..k] == b[..k - 1] + [b[k - 1]];
    }
    if k == |a| && |b| > k {
      assert b[..k] == a[..k];
      StartsNoLater(rows, gap, b, a, k);
    }
  }
}
