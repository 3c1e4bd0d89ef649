/**
 The two rate limiters: the token bucket in front of the server search, and the slots that
 pace requests to the geocoder. Seconds are real numbers.
 */
module RateLimits {
  import opened Options

  // ---------------------------------------------------------------- the token bucket

  datatype Bucket = Bucket(tokens: real, burst: real, rate: real, last: Option<real>)

  const BURST := 10.0
  const REFILL := 1.0

  ghost predicate Sound(b: Bucket) {
    0.0 <= b.tokens <= b.burst && 0.0 <= b.rate
  }

  /** The tokens that elapsed seconds bring. */
  function Refill(elapsed: real, rate: real): real {
    elapsed * rate
  }

  function Refilled(b: Bucket, now: real): real {
    if b.last.Some? && now > b.last.value then
      var t := b.tokens + Refill(now - b.last.value, b.rate);
      if t > b.burst then b.burst else t
    else b.tokens
  }

  /** One call of Allow. */
  function Allow(b: Bucket, now: real): (Bucket, bool) {
    var t := Refilled(b, now);
    if t < 1.0 then (b.(tokens := t, last := Some(now)), false)
    else (b.(tokens := t - 1.0, last := Some(now)), true)
  }

  /** The bucket after a series of calls. */
  function After(b: Bucket, times: seq<real>): Bucket {
    if times == [] then b else Allow(After(b, times[..|times| - 1]), times[|times| - 1]).0
  }

  /** How many of them were granted. */
  function Granted(b: Bucket, times: seq<real>): nat {
    if times == [] then 0
    else
      var before := times[..|times| - 1];
      Granted(b, before) + if Allow(After(b, before), times[|times| - 1]).1 then 1 else 0
  }

  ghost predicate NeverBack(times: seq<real>) {
    forall i, j :: 0 <= i < j < |times| ==> times[i] <= times[j]
  }

  lemma AllowKeeps(b: Bucket, now: real)
    requires Sound(b)
    ensures var b' := Allow(b, now).0; Sound(b') && b'.last == Some(now) && b'.burst == b.burst && b'.rate == b.rate
  {
    hide Refill;
    if b.last.Some? && now > b.last.value {
      RefillIsPositive(now - b.last.value, b.rate);
    }
  }

  /** A call spends at most what the bucket held and the time since the last call brought. */
  lemma AllowSpends(b: Bucket, now: real)
    requires Sound(b)
    ensures var (b', ok) := Allow(b, now);
            && (if ok then 1.0 else 0.0) + b'.tokens <= b.burst
            && (b.last.Some? && b.last.value <= now ==> (if ok then 1.0 else 0.0) + b'.tokens <= b.tokens + Refill(now - b.last.value, b.rate))
            && (b.last.Some? && now <= b.last.value ==> (if ok then 1.0 else 0.0) + b'.tokens <= b.tokens)
  {
    hide Refill;
    if b.last.Some? && b.last.value <= now {
      RefillIsPositive(now - b.last.value, b.rate);
    }
  }

  lemma RefillIsPositive(x: real, rate: real)
    requires x >= 0.0 && rate >= 0.0
    ensures Refill(x, rate) >= 0.0
  {
  }

  /** The time a clock gains over its readings; steps back count for nothing. */
  function Forward(times: seq<real>): (f: real)
    ensures f >= 0.0
  {
    if |times| <= 1 then 0.0
    else
      var n := |times| - 1;
      Forward(times[..n]) + if times[n] > times[n - 1] then times[n] - times[n - 1] else 0.0
  }

  /** What has been granted and what is left never exceed the burst and the refill so far, whatever the clock does. */
  lemma {:induction false} Budget(b: Bucket, times: seq<real>)
    requires Sound(b) && times != []
    ensures var b' := After(b, times);
            && Sound(b') && b'.burst == b.burst && b'.rate == b.rate && b'.last == Some(times[|times| - 1])
            && Granted(b, times) as real + b'.tokens <= b.burst + Refill(Forward(times), b.rate)
    decreases |times|
  {
    hide Refill, Sound;
    var n := |times| - 1;
    var before := times[..n];
    RefillAddsUp(0.0, 0.0, b.rate);
    if n == 0 {
      assert After(b, before) == b && Granted(b, before) == 0;
      AllowKeeps(b, times[0]);
      AllowSpends(b, times[0]);
    } else {
      Budget(b, before);
      var mid := After(b, before);
      AllowKeeps(mid, times[n]);
      AllowSpends(mid, times[n]);
      RefillAddsUp(Forward(times) - Forward(before), Forward(before), b.rate);
    }
  }

  lemma RefillAddsUp(x: real, y: real, rate: real)
    ensures Refill(x + y, rate) == Refill(x, rate) + Refill(y, rate) && Refill(0.0, rate) == 0.0
  {
  }

  lemma {:induction false} ForwardIsElapsed(times: seq<real>)
    requires times != [] && NeverBack(times)
    ensures Forward(times) == times[|times| - 1] - times[0]
    decreases |times|
  {
    if |times| > 1 {
      ForwardIsElapsed(times[..|times| - 1]);
    }
  }

  lemma {:induction false} AfterIsSound(b: Bucket, times: seq<real>)
    requires Sound(b)
    ensures Sound(After(b, times)) && After(b, times).burst == b.burst && After(b, times).rate == b.rate
    decreases |times|
  {
    hide Sound;
    if times != [] {
      AfterIsSound(b, times[..|times| - 1]);
      AllowKeeps(After(b, times[..|times| - 1]), times[|times| - 1]);
    }
  }

  /** On any clock, any stretch of calls grants at most the burst and the refill of the time the clock gained. */
  lemma GrantsAreBounded(b: Bucket, earlier: seq<real>, times: seq<real>)
    requires Sound(b) && times != []
    ensures Granted(After(b, earlier), times) as real <= b.burst + Refill(Forward(times), b.rate)
  {
    hide Refill;
    AfterIsSound(b, earlier);
    Budget(After(b, earlier), times);
  }

  /** With a clock that does not go back, as time.Now's monotonic reading, that is burst + rate (e - s). */
  lemma GrantsFromStartToEnd(b: Bucket, earlier: seq<real>, times: seq<real>)
    requires Sound(b) && times != [] && NeverBack(times)
    ensures Granted(After(b, earlier), times) as real <= b.burst + Refill(times[|times| - 1] - times[0], b.rate)
  {
    GrantsAreBounded(b, earlier, times);
    ForwardIsElapsed(times);
  }

  /** What the time since the last call brings. */
  function Gain(b: Bucket, now: real): real {
    if b.last.Some? && now > b.last.value then (now - b.last.value) * b.rate else 0.0
  }

  /** A call is granted exactly when it finds a whole token, of what was left and what time brought up to the burst, and takes one. */
  lemma AllowIsExact(b: Bucket, now: real)
    requires Sound(b)
    ensures var (b', ok) := Allow(b, now);
            var gained := if b.last.Some? && now > b.last.value then (now - b.last.value) * b.rate else 0.0;
            var found := if b.tokens + gained > b.burst then b.burst else b.tokens + gained;
            && (ok <==> found >= 1.0)
            && b'.tokens == found - (if ok then 1.0 else 0.0)
            && b'.last == Some(now) && b'.burst == b.burst && b'.rate == b.rate
  {
    if b.last.Some? && now > b.last.value {
      GainIsRefill(now - b.last.value, b.rate);
      hide Refill;
    }
  }

  /** What the bucket had to turn away over a series of calls because it was full. */
  function Spilled(b: Bucket, times: seq<real>): real {
    if times == [] then 0.0
    else
      var n := |times| - 1;
      var mid := After(b, times[..n]);
      var found := mid.tokens + Gain(mid, times[n]);
      Spilled(b, times[..n]) + if found > mid.burst then found - mid.burst else 0.0
  }

  /** The clock readings the bucket has seen, the one it remembers included. */
  function Clock(b: Bucket, times: seq<real>): seq<real> {
    if b.last.Some? then [b.last.value] + times else times
  }

  /** Tokens are conserved: granted, left and spilled make up what there was and what the clock's gains brought. */
  lemma {:induction false} TokensAreConserved(b: Bucket, times: seq<real>)
    requires Sound(b) && times != []
    ensures Granted(b, times) as real + After(b, times).tokens + Spilled(b, times) == b.tokens + Forward(Clock(b, times)) * b.rate
    decreases |times|
  {
    hide Sound, Gain, Allow, Forward;
    var n := |times| - 1;
    var before := times[..n];
    var mid := After(b, before);
    AfterIsSound(b, before);
    Spends(mid, times[n]);
    if n == 0 {
      assert mid == b && times == [times[0]];
      FirstGain(b, times[0]);
    } else {
      TokensAreConserved(b, before);
      LastCall(b, before);
      assert Clock(b, times) == Clock(b, before) + [times[n]];
      MoreGain(Clock(b, before), mid, times[n]);
    }
  }

  lemma Spends(b: Bucket, now: real)
    requires Sound(b)
    ensures var (b', ok) := Allow(b, now); var found := b.tokens + Gain(b, now);
            (if ok then 1.0 else 0.0) + b'.tokens + (if found > b.burst then found - b.burst else 0.0) == found
  {
    AllowIsExact(b, now);
    hide Allow;
  }

  lemma LastCall(b: Bucket, times: seq<real>)
    requires times != []
    ensures After(b, times).last == Some(times[|times| - 1]) && After(b, times).rate == After(b, times[..|times| - 1]).rate
  {
    hide Refilled;
  }

  lemma GainIsRefill(x: real, rate: real)
    ensures x * rate == Refill(x, rate)
  {
  }

  lemma FirstGain(b: Bucket, now: real)
    ensures Forward(Clock(b, [now])) * b.rate == Gain(b, now)
  {
    if b.last.Some? {
      var clock := [b.last.value, now];
      assert Clock(b, [now]) == clock && clock[..1] == [b.last.value];
      assert Forward(clock) == if now > b.last.value then now - b.last.value else 0.0;
    }
  }

  lemma ForwardOneMore(clock: seq<real>, now: real)
    requires clock != []
    ensures Forward(clock + [now]) == Forward(clock) + if now > clock[|clock| - 1] then now - clock[|clock| - 1] else 0.0
  {
    assert (clock + [now])[..|clock|] == clock;
  }

  lemma MoreGain(clock: seq<real>, b: Bucket, now: real)
    requires clock != [] && b.last == Some(clock[|clock| - 1])
    ensures Forward(clock + [now]) * b.rate == Forward(clock) * b.rate + Gain(b, now)
  {
    var x := StepOn(clock, now);
    ForwardOneMore(clock, now);
    GainIs(b, now, x);
    hide Forward, Gain;
    Distributes(Forward(clock), x, b.rate);
  }

  /** What the clock gains with one more reading. */
  function StepOn(clock: seq<real>, now: real): real
    requires clock != []
  {
    if now > clock[|clock| - 1] then now - clock[|clock| - 1] else 0.0
  }

  lemma GainIs(b: Bucket, now: real, x: real)
    requires b.last.Some? && x == if now > b.last.value then now - b.last.value else 0.0
    ensures Gain(b, now) == x * b.rate
  {
  }

  lemma Distributes(x: real, y: real, rate: real)
    ensures (x + y) * rate == x * rate + y * rate && 0.0 * rate == 0.0
  {
  }

  /** A caller that waits for one token to be refilled is not refused. */
  lemma WaitingHelps(b: Bucket, now: real)
    requires Sound(b) && b.burst >= 1.0 && b.last.Some? && now > b.last.value && Refill(now - b.last.value, b.rate) >= 1.0
    ensures Allow(b, now).1
  {
    hide Refill;
  }

  /** The bound is met: a full bucket grants its whole burst at once. */
  lemma {:induction false} BurstIsGranted(b: Bucket, times: seq<real>, now: real)
    requires b.tokens == b.burst && |times| as real <= b.burst && forall i :: 0 <= i < |times| ==> times[i] == now
    requires b.last == None || b.last == Some(now)
    ensures Granted(b, times) == |times| && After(b, times).tokens == b.burst - |times| as real
    ensures After(b, times).last == None || After(b, times).last == Some(now)
    decreases |times|
  {
    if times != [] {
      BurstIsGranted(b, times[..|times| - 1], now);
    }
  }

  /** The bound needs a clock that does not go back: one that does refills the same stretch twice. */
  lemma ClockMustNotGoBack()
    ensures exists b, times :: Sound(b) && |times| == 3 && Granted(b, times) as real > b.burst + Refill(times[2] - times[0], b.rate)
  {
    var b := Bucket(1.0, 1.0, 1.0, None);
    var times := [0.0, -10.0, 0.0];
    assert times[..2] == [0.0, -10.0] && times[..2][..1] == [0.0] && times[..1][..0] == [];
    assert times[..2][..1] == times[..1];
    assert After(b, times[..1]) == Bucket(0.0, 1.0, 1.0, Some(0.0)) && Granted(b, times[..1]) == 1;
    assert After(b, times[..2]) == Bucket(0.0, 1.0, 1.0, Some(-10.0)) && Granted(b, times[..2]) == 1;
    assert Granted(b, times) == 2;
  }

  class Limiter {
    const burst: real
    const rate: real
    var tokens: real
    var last: Option<real>

    function View(): Bucket
      reads this
    {
      Bucket(tokens, burst, rate, last)
    }

    constructor ()
      ensures View() == Bucket(10.0, 10.0, 1.0, None) && Sound(View())
    {
      burst, rate, tokens, last := BURST, REFILL, BURST, None;
    }

    method Ask(now: real) returns (ok: bool)
      modifies this
      ensures (View(), ok) == Allow(old(View()), now)
    {
      if last.Some? {
        var elapsed := now - last.value;
        if elapsed > 0.0 {
          tokens := tokens + Refill(elapsed, rate);
          if tokens > burst {
            tokens := burst;
          }
        }
      }
      last := Some(now);
      if tokens < 1.0 {
        return false;
      }
      tokens := tokens - 1.0;
      return true;
    }
  }

  // ---------------------------------------------------------------- the geocoder's slots

  const INTERVAL := 1.0

  /** The slot a call reserves, from the clock it read and the last slot. */
  function Slot(last: Option<real>, now: real): real {
    if last.Some? && last.value + INTERVAL > now then last.value + INTERVAL else now
  }

  /** The slots of any interleaving of calls, given what the clock showed each inside the lock. */
  function Slots(readings: seq<real>): (s: seq<real>)
    ensures |s| == |readings|
  {
    if readings == [] then []
    else
      var before := Slots(readings[..|readings| - 1]);
      before + [Slot(if before == [] then None else Some(before[|before| - 1]), readings[|readings| - 1])]
  }

  class Geocoder {
    var lastSlot: Option<real>

    constructor ()
      ensures lastSlot == None
    {
      lastSlot := None;
    }

    /** The locked part of waitNominatim. */
    method Reserve(now: real) returns (wait: real)
      modifies this
      ensures lastSlot == Some(Slot(old(lastSlot), now)) && wait == lastSlot.value - now && wait >= 0.0
      ensures wait == if old(lastSlot).Some? && old(lastSlot).value + 1.0 > now then old(lastSlot).value + 1.0 - now else 0.0
    {
      wait := 0.0;
      if lastSlot.Some? {
        wait := INTERVAL - (now - lastSlot.value);
      }
      if wait < 0.0 {
        wait := 0.0;
      }
      lastSlot := Some(now + wait);
    }
  }

  lemma {:induction false} SlotsPrefix(readings: seq<real>, n: nat)
    requires n <= |readings|
    ensures Slots(readings)[..n] == Slots(readings[..n])
    decreases |readings|
  {
    if n == |readings| {
      assert readings[..n] == readings && Slots(readings)[..n] == Slots(readings);
    } else {
      var m := |readings| - 1;
      SlotsPrefix(readings[..m], n);
      assert readings[..m][..n] == readings[..n];
      assert Slots(readings)[..m] == Slots(readings[..m]);
      assert Slots(readings)[..m][..n] == Slots(readings)[..n];
    }
  }

  /** Each slot follows from the one before it. */
  lemma SlotStep(readings: seq<real>, k: nat)
    requires k < |readings|
    ensures Slots(readings)[k] == Slot(if k == 0 then None else Some(Slots(readings)[k - 1]), readings[k])
  {
    SlotsPrefix(readings, k);
    SlotsPrefix(readings, k + 1);
    assert readings[..k + 1][..k] == readings[..k];
    assert Slots(readings)[k] == Slots(readings)[..k + 1][k];
    assert k > 0 ==> Slots(readings)[..k][k - 1] == Slots(readings)[k - 1];
  }

  /** Whatever the clock shows, slot k comes at least k - i seconds after slot i, and never before its own reading. */
  lemma {:induction false} SlotsAreApart(readings: seq<real>, i: nat, k: nat)
    requires i <= k < |readings|
    ensures Slots(readings)[k] - Slots(readings)[i] >= (k - i) as real * 1.0
    ensures Slots(readings)[k] >= readings[k]
    decreases k
  {
    hide Slots;
    SlotStep(readings, k);
    if i < k {
      SlotsAreApart(readings, i, k - 1);
    }
  }

  /** The places of the requests that have started by a time. */
  ghost function StartedBy(starts: seq<real>, t: real): set<nat> {
    set i: nat | i < |starts| && starts[i] <= t
  }

  lemma {:induction false} CountBelow(s: set<nat>, n: nat)
    requires forall i :: i in s ==> i < n
    ensures |s| <= n
    decreases n
  {
    if n > 0 {
      CountBelow(s - {n - 1}, n - 1);
      assert s <= (s - {n - 1}) + {n - 1};
      SmallUnion(s, n - 1);
    }
  }

  lemma SmallUnion(s: set<nat>, x: nat)
    ensures |s| <= |s - {x}| + 1
  {
    if x in s {
      assert |s - {x}| == |s| - 1;
    } else {
      assert s - {x} == s;
    }
  }

  /**
   If no request starts before its slot, those started by time t are among the first that
   have a slot by then, so there are at most 1 + (t - first slot) of them.
   */
  lemma StartsAreBounded(readings: seq<real>, starts: seq<real>, t: real, n: nat)
    requires |starts| == |readings| && forall i :: 0 <= i < |starts| ==> starts[i] >= Slots(readings)[i]
    requires readings != [] && t < Slots(readings)[0] + n as real * INTERVAL
    ensures |StartedBy(starts, t)| <= n
  {
    forall i | i in StartedBy(starts, t) ensures i < n {
      SlotsAreApart(readings, 0, i);
    }
    CountBelow(StartedBy(starts, t), n);
  }

  /** Every request starts in its slot or at most `late` after it. */
  ghost predicate StartsWithin(readings: seq<real>, starts: seq<real>, late: real) {
    && |starts| == |readings|
    && forall i :: 0 <= i < |starts| ==> Slots(readings)[i] <= starts[i] <= Slots(readings)[i] + late
  }

  ghost predicate Apart(starts: seq<real>) {
    forall i, k :: 0 <= i < k < |starts| ==> starts[k] - starts[i] >= INTERVAL
  }

  /** The calls come so far apart that none has to wait, with `late` to spare. */
  ghost predicate Spaced(readings: seq<real>, late: real) {
    forall k :: 0 < k < |readings| ==> readings[k] - readings[k - 1] >= INTERVAL + late
  }

  ghost predicate SlotsSpaced(readings: seq<real>, late: real) {
    forall k :: 0 < k < |readings| ==> Slots(readings)[k] - Slots(readings)[k - 1] >= INTERVAL + late
  }

  /**
   No two requests start less than an interval apart, whenever each starts at most `late`
   after its slot, if and only if nothing is ever late or no call had to wait and all come
   an interval and `late` apart.
   */
  lemma StartsApartExactlyWhen(readings: seq<real>, late: real)
    requires late >= 0.0
    ensures (forall starts :: StartsWithin(readings, starts, late) ==> Apart(starts)) <==> late == 0.0 || Spaced(readings, late)
  {
    hide Slots;
    SpacedSlots(readings, late);
    if late == 0.0 || Spaced(readings, late) {
      forall starts | StartsWithin(readings, starts, late) ensures Apart(starts) {
        SpacedIsApart(readings, starts, late);
      }
    } else {
      var starts := TooClose(readings, late);
    }
  }

  lemma {:induction false} SlotsAreReadings(readings: seq<real>, late: real, k: nat)
    requires late > 0.0 && (Spaced(readings, late) || SlotsSpaced(readings, late)) && k < |readings|
    ensures Slots(readings)[k] == readings[k]
  {
    hide Slots;
    SlotStep(readings, k);
    if k > 0 {
      SlotsAreReadings(readings, late, k - 1);
    }
  }

  lemma SpacedSlots(readings: seq<real>, late: real)
    requires late >= 0.0
    ensures SlotsSpaced(readings, late) <==> late == 0.0 || Spaced(readings, late)
  {
    hide Slots;
    if late == 0.0 {
      forall k | 0 < k < |readings| ensures Slots(readings)[k] - Slots(readings)[k - 1] >= INTERVAL {
        SlotsAreApart(readings, k - 1, k);
      }
    } else if Spaced(readings, late) || SlotsSpaced(readings, late) {
      forall k | 0 <= k < |readings| ensures Slots(readings)[k] == readings[k] {
        SlotsAreReadings(readings, late, k);
      }
    }
  }

  lemma SpacedIsApart(readings: seq<real>, starts: seq<real>, late: real)
    requires late >= 0.0 && SlotsSpaced(readings, late) && StartsWithin(readings, starts, late)
    ensures Apart(starts)
  {
    hide Slots;
    forall i, k | 0 <= i < k < |starts| ensures starts[k] - starts[i] >= INTERVAL {
      SlotsAreApart(readings, i + 1, k);
    }
  }

  /** One late request before a slot that follows too soon. */
  lemma TooClose(readings: seq<real>, late: real) returns (starts: seq<real>)
    requires late >= 0.0 && !SlotsSpaced(readings, late)
    ensures StartsWithin(readings, starts, late) && !Apart(starts)
  {
    hide Slots;
    var k :| 0 < k < |readings| && Slots(readings)[k] - Slots(readings)[k - 1] < INTERVAL + late;
    starts := Slots(readings)[k - 1 := Slots(readings)[k - 1] + late];
    assert starts[k] - starts[k - 1] < INTERVAL;
  }

  /** A sleep that overruns lets two requests start closer together than the interval. */
  lemma LateStartsMayBeClose()
    ensures exists readings, starts: seq<real> ::
      && |starts| == |readings| == 2 && starts[0] >= Slots(readings)[0] && starts[1] >= Slots(readings)[1]
      && starts[1] - starts[0] < INTERVAL
  {
    var readings := [0.0, 0.5];
    var starts := [0.9, 1.0];
    assert readings[..1] == [0.0] && readings[..1][..0] == [];
    assert Slots(readings[..1]) == [0.0];
    assert Slots(readings) == [0.0, 1.0];
  }
}
