/**
 Schedules that fire close to each other on one queue. The fire times of a schedule are
 given, ascending, in nanoseconds.
 */
module Overlap {
  import opened Options

  datatype Candidate = Candidate(id: int, name: string, queues: seq<string>, fires: seq<int>)

  datatype Warning = Warning(name: string, queue: string, at: int)

  const THRESHOLD := 60_000_000_000

  predicate Close(x: int, y: int) {
    -THRESHOLD <= x - y <= THRESHOLD
  }

  ghost predicate Ascending(s: seq<int>) {
    forall i, j :: 0 <= i < j < |s| ==> s[i] <= s[j]
  }

  /** Some time in b is close to x. */
  ghost predicate Near(x: int, b: seq<int>) {
    exists j :: 0 <= j < |b| && Close(x, b[j])
  }

  ghost predicate Collide(a: seq<int>, b: seq<int>) {
    exists i :: 0 <= i < |a| && Near(a[i], b)
  }

  /** The earliest time of a that is close to some time of b. */
  ghost predicate EarliestCollision(a: seq<int>, b: seq<int>, at: int) {
    && at in a && Near(at, b)
    && forall i :: 0 <= i < |a| && Near(a[i], b) ==> at <= a[i]
  }

  /** The two-pointer walk finds what comparing every pair would. */
  method NearestCollision(a: seq<int>, b: seq<int>) returns (at: Option<int>)
    requires Ascending(a) && Ascending(b)
    ensures at.Some? <==> Collide(a, b)
    ensures at.Some? <==> exists i, j :: 0 <= i < |a| && 0 <= j < |b| && -60_000_000_000 <= a[i] - b[j] <= 60_000_000_000
    ensures at.Some? ==> EarliestCollision(a, b, at.value)
  {
    var i, j := 0, 0;
    while i < |a| && j < |b|
      invariant 0 <= i <= |a| && 0 <= j <= |b|
      invariant forall k :: 0 <= k < i ==> !Near(a[k], b)
      invariant forall k, m :: i <= k < |a| && 0 <= m < j ==> !Close(a[k], b[m])
      decreases |a| - i + |b| - j
    {
      var d := a[i] - b[j];
      if d < 0 {
        d := -d;
      }
      if d <= THRESHOLD {
        assert Close(a[i], b[j]);
        return Some(a[i]);
      }
      if a[i] < b[j] {
        assert forall m :: j <= m < |b| ==> b[j] <= b[m];
        i := i + 1;
      } else {
        assert forall k :: i <= k < |a| ==> a[i] <= a[k];
        j := j + 1;
      }
    }
    at := None;
  }

  /** The first queue of b that a also has. */
  ghost predicate FirstShared(a: seq<string>, b: seq<string>, q: string) {
    exists j :: 0 <= j < |b| && b[j] == q && q in a && forall k :: 0 <= k < j ==> b[k] !in a
  }

  ghost predicate Share(a: seq<string>, b: seq<string>) {
    exists q :: q in a && q in b
  }

  method SharedQueue(a: Candidate, b: Candidate) returns (q: Option<string>)
    ensures q.Some? <==> Share(a.queues, b.queues)
    ensures q.Some? ==> FirstShared(a.queues, b.queues, q.value)
  {
    var mine: set<string> := {};
    for n := 0 to |a.queues|
      invariant forall x :: x in mine <==> x in a.queues[..n]
    {
      mine := mine + {a.queues[n]};
      assert a.queues[..n + 1] == a.queues[..n] + [a.queues[n]];
    }
    assert a.queues[..|a.queues|] == a.queues;
    for n := 0 to |b.queues|
      invariant forall k :: 0 <= k < n ==> b.queues[k] !in a.queues
    {
      if b.queues[n] in mine {
        return Some(b.queues[n]);
      }
    }
    q := None;
  }

  /** Another schedule on a shared queue with a fire time close to one of the subject's. */
  ghost predicate Overlaps(subject: Candidate, other: Candidate) {
    other.id != subject.id && Share(subject.queues, other.queues) && Collide(subject.fires, other.fires)
  }

  ghost predicate WarnsOf(w: Warning, subject: Candidate, other: Candidate) {
    && w.name == other.name && FirstShared(subject.queues, other.queues, w.queue)
    && EarliestCollision(subject.fires, other.fires, w.at)
  }

  /** The places among the first n others that overlap, in order. */
  ghost function OverlapPlaces(subject: Candidate, others: seq<Candidate>, n: nat): seq<nat>
    requires n <= |others|
  {
    if n == 0 then []
    else OverlapPlaces(subject, others, n - 1) + if Overlaps(subject, others[n - 1]) then [n - 1] else []
  }

  /** A list of places is exact: ascending, and it holds precisely the schedules that overlap. */
  lemma {:induction false} PlacesAreExact(subject: Candidate, others: seq<Candidate>, n: nat)
    requires n <= |others|
    ensures var p := OverlapPlaces(subject, others, n);
            && (forall i :: i in p <==> 0 <= i < n && Overlaps(subject, others[i]))
            && (forall j, k :: 0 <= j < k < |p| ==> p[j] < p[k])
  {
    hide Overlaps;
    if n > 0 {
      PlacesAreExact(subject, others, n - 1);
      var before := OverlapPlaces(subject, others, n - 1);
      assert forall j :: 0 <= j < |before| ==> before[j] in before;
    }
  }

  lemma {:induction false} NeverFires(subject: Candidate, others: seq<Candidate>, n: nat)
    requires subject.fires == [] && n <= |others|
    ensures OverlapPlaces(subject, others, n) == []
  {
    if n > 0 {
      NeverFires(subject, others, n - 1);
    }
  }

  /** One warning for each overlapping schedule and no other, in order; nothing at all if the subject never fires. */
  method FindOverlaps(subject: Candidate, others: seq<Candidate>) returns (warnings: Option<seq<Warning>>)
    requires Ascending(subject.fires) && forall i :: 0 <= i < |others| ==> Ascending(others[i].fires)
    ensures warnings.None? <==> subject.fires == []
    ensures warnings.Some? ==> var p := OverlapPlaces(subject, others, |others|);
      |warnings.value| == |p| && forall k :: 0 <= k < |p| ==> p[k] < |others| && WarnsOf(warnings.value[k], subject, others[p[k]])
    ensures subject.fires == [] ==> OverlapPlaces(subject, others, |others|) == []
  {
    var mine := subject.fires;
    if |mine| == 0 {
      NeverFires(subject, others, |others|);
      return None;
    }
    var found: seq<Warning> := [];
    for n := 0 to |others|
      invariant |found| == |OverlapPlaces(subject, others, n)|
      invariant forall k :: 0 <= k < |found| ==>
        var p := OverlapPlaces(subject, others, n); p[k] < n && WarnsOf(found[k], subject, others[p[k]])
    {
      hide WarnsOf;
      var other := others[n];
      if other.id == subject.id {
        continue;
      }
      var queue := SharedQueue(subject, other);
      if queue.None? {
        continue;
      }
      if |other.fires| == 0 {
        continue;
      }
      var at := NearestCollision(mine, other.fires);
      if at.Some? {
        var w := Warning(other.name, queue.value, at.value);
        Warns(w, subject, other);
        found := found + [w];
      }
    }
    warnings := Some(found);
  }

  lemma Warns(w: Warning, subject: Candidate, other: Candidate)
    requires w.name == other.name && FirstShared(subject.queues, other.queues, w.queue)
    requires EarliestCollision(subject.fires, other.fires, w.at)
    ensures WarnsOf(w, subject, other)
  {
  }
}
