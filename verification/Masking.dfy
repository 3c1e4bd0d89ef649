/**
 Secrets of notification channels: masked when the settings are read, and resolved again
 from the stored channels when the document comes back.

 How a URL splits into scheme and host is a parameter, `parse`; None is an unreadable URL.
 */
module Masking {
  import opened Options

  type Parse = string -> Option<(string, string)>

  datatype Channel = Channel(
    id: string, kind: string, name: string, enabled: bool, url: string, token: string,
    headers: map<string, string>, priority: string, tags: seq<string>, urls: seq<string>)

  /** The merged channels, or the id of the channel that was refused. */
  datatype Merged = Ok(channels: seq<Channel>) | Refused(id: string)

  const MASK := "***"

  predicate MaskAt(u: string, k: nat) {
    k + 3 <= |u| && u[k..k + 3] == MASK
  }

  predicate HasMask(u: string) {
    exists k: nat :: k <= |u| && MaskAt(u, k)
  }

  /** notify.RedactURL: scheme and host stay readable. */
  function Redact(parse: Parse, u: string): string {
    var p := parse(u);
    if p.None? || p.value.1 == "" then MASK else p.value.0 + "://" + p.value.1 + "/***"
  }

  lemma RedactHasMask(parse: Parse, u: string)
    ensures HasMask(Redact(parse, u)) && Redact(parse, u) != ""
  {
    var r := Redact(parse, u);
    assert MaskAt(r, |r| - 3);
  }

  /** How the settings document shows a URL; an empty one stays empty. */
  function MaskUrl(parse: Parse, u: string): string {
    if u == "" then "" else Redact(parse, u)
  }

  // ---------------------------------------------------------------- Apprise URLs

  type Picks = seq<Option<nat>>

  predicate Used(picks: Picks, j: nat) {
    exists i :: 0 <= i < |picks| && picks[i] == Some(j)
  }

  predicate Fits(parse: Parse, stored: seq<string>, j: nat, u: string) {
    j < |stored| && stored[j] != "" && Redact(parse, stored[j]) == u
  }

  /** The first unused stored URL that redacts to u, at or after j. */
  function FirstFree(parse: Parse, stored: seq<string>, picks: Picks, u: string, j: nat): (r: Option<nat>)
    ensures r.Some? ==> r.value >= j && Fits(parse, stored, r.value, u) && !Used(picks, r.value)
    ensures forall k :: j <= k < (if r.Some? then r.value else |stored|) && Fits(parse, stored, k, u) ==> Used(picks, k)
    decreases |stored| - j
  {
    if j >= |stored| then None
    else if Fits(parse, stored, j, u) && !Used(picks, j) then Some(j)
    else FirstFree(parse, stored, picks, u, j + 1)
  }

  lemma FreeIs(parse: Parse, stored: seq<string>, picks: Picks, u: string, j: nat)
    requires Fits(parse, stored, j, u) && !Used(picks, j)
    requires forall k: nat :: k < j && Fits(parse, stored, k, u) ==> Used(picks, k)
    ensures FirstFree(parse, stored, picks, u, 0) == Some(j)
  {
    assert j < |stored|;
    hide Fits, Used, FirstFree;
    var r := FirstFree(parse, stored, picks, u, 0);
  }

  lemma NoneFree(parse: Parse, stored: seq<string>, picks: Picks, u: string)
    requires forall k: nat :: Fits(parse, stored, k, u) ==> Used(picks, k)
    ensures FirstFree(parse, stored, picks, u, 0) == None
  {
    hide Fits, Used, FirstFree;
    var r := FirstFree(parse, stored, picks, u, 0);
  }

  /** For each submitted URL, the stored one it stands for. */
  function PicksFor(parse: Parse, submitted: seq<string>, stored: seq<string>): (picks: Picks)
    ensures |picks| == |submitted|
  {
    if submitted == [] then []
    else
      var before := PicksFor(parse, submitted[..|submitted| - 1], stored);
      before + [FirstFree(parse, stored, before, submitted[|submitted| - 1], 0)]
  }

  function Taken(submitted: seq<string>, stored: seq<string>, picks: Picks): (out: seq<string>)
    requires |picks| == |submitted| && forall i :: 0 <= i < |picks| && picks[i].Some? ==> picks[i].value < |stored|
    ensures |out| == |submitted|
  {
    seq(|submitted|, i requires 0 <= i < |submitted| => if picks[i].Some? then stored[picks[i].value] else submitted[i])
  }

  /** mergeAppriseURLs: None when a masked URL stands for nothing. */
  function MergeUrls(parse: Parse, submitted: seq<string>, stored: seq<string>): Option<seq<string>> {
    var picks := PicksFor(parse, submitted, stored);
    if exists i :: 0 <= i < |submitted| && picks[i] == None && HasMask(submitted[i]) then None
    else
      PicksAreSound(parse, submitted, stored);
      Some(Taken(submitted, stored, picks))
  }

  /** No stored URL is used twice, and a pick redacts to what was submitted. */
  lemma {:induction false} PicksAreSound(parse: Parse, submitted: seq<string>, stored: seq<string>)
    ensures var picks := PicksFor(parse, submitted, stored);
            && (forall i :: 0 <= i < |picks| && picks[i].Some? ==> Fits(parse, stored, picks[i].value, submitted[i]))
            && (forall i, k :: 0 <= i < k < |picks| && picks[i].Some? ==> picks[i] != picks[k])
    decreases |submitted|
  {
    if submitted != [] {
      var n := |submitted| - 1;
      PicksAreSound(parse, submitted[..n], stored);
      var before := PicksFor(parse, submitted[..n], stored);
      var last := FirstFree(parse, stored, before, submitted[n], 0);
      assert last.Some? ==> forall i :: 0 <= i < n ==> before[i] != last;
    }
  }

  lemma {:induction false} PicksPrefix(parse: Parse, submitted: seq<string>, stored: seq<string>, n: nat)
    requires n <= |submitted|
    ensures PicksFor(parse, submitted, stored)[..n] == PicksFor(parse, submitted[..n], stored)
    ensures n < |submitted| ==>
      PicksFor(parse, submitted, stored)[n] == FirstFree(parse, stored, PicksFor(parse, submitted[..n], stored), submitted[n], 0)
    decreases |submitted|
  {
    var all := PicksFor(parse, submitted, stored);
    if n == |submitted| {
      assert submitted[..n] == submitted && all[..n] == all;
    } else {
      var m := |submitted| - 1;
      var init := submitted[..m];
      assert all[..m] == PicksFor(parse, init, stored);
      if n < m {
        PicksPrefix(parse, init, stored, n);
        assert init[..n] == submitted[..n] && all[..m][..n] == all[..n] && all[..m][n] == all[n];
      }
    }
  }

  /** The nested loops, consuming a copy of the stored list. */
  method MergeAppriseUrls(parse: Parse, submitted: seq<string>, stored: seq<string>) returns (r: Option<seq<string>>)
    ensures r == MergeUrls(parse, submitted, stored)
  {
    hide PicksFor, HasMask, Redact, Used, Fits;
    var remaining := stored;
    var out: seq<string> := [];
    NoneUsed();
    ghost var all := PicksFor(parse, submitted, stored);
    PicksInside(parse, submitted, stored, all);
    for i := 0 to |submitted|
      invariant |all| == |submitted| && forall k :: 0 <= k < |all| && all[k].Some? ==> all[k].value < |stored|
      invariant |remaining| == |stored| && |out| == i
      invariant forall j :: 0 <= j < |stored| ==> remaining[j] == if Used(all[..i], j) then "" else stored[j]
      invariant forall k :: 0 <= k < i ==> out[k] == if all[k].Some? then stored[all[k].value] else submitted[k]
      invariant forall k :: 0 <= k < i ==> all[k].Some? || !HasMask(submitted[k])
    {
      var u := submitted[i];
      PicksPrefix(parse, submitted, stored, i);
      var j := FindFree(parse, remaining, u);
      FreeIsPick(parse, stored, all[..i], remaining, u, j);
      UsedGrows(all, i);
      NotUsedIsStored(parse, stored, all[..i], remaining, u, j);
      if j < |remaining| {
        out := out + [remaining[j]];
        remaining := remaining[j := ""];
        continue;
      }
      if HasMask(u) {
        return None;
      }
      out := out + [u];
    }
    assert out == Taken(submitted, stored, all);
    r := Some(out);
  }

  lemma NoneUsed()
    ensures forall j: nat :: !Used([], j)
  {
  }

  lemma PicksInside(parse: Parse, submitted: seq<string>, stored: seq<string>, picks: Picks)
    requires picks == PicksFor(parse, submitted, stored)
    ensures forall i :: 0 <= i < |picks| && picks[i].Some? ==> picks[i].value < |stored|
  {
    PicksAreSound(parse, submitted, stored);
  }

  lemma NotUsedIsStored(parse: Parse, stored: seq<string>, picks: Picks, remaining: seq<string>, u: string, j: nat)
    requires |remaining| == |stored| && j <= |stored| && (j < |stored| ==> Fits(parse, remaining, j, u))
    requires forall k :: 0 <= k < |stored| ==> remaining[k] == if Used(picks, k) then "" else stored[k]
    ensures j < |stored| ==> remaining[j] == stored[j]
  {
  }

  /** The inner loop: the first remaining URL that redacts to u. */
  method FindFree(parse: Parse, remaining: seq<string>, u: string) returns (j: nat)
    ensures j <= |remaining| && (j < |remaining| ==> Fits(parse, remaining, j, u))
    ensures forall k :: 0 <= k < j ==> !Fits(parse, remaining, k, u)
  {
    j := 0;
    while j < |remaining|
      invariant j <= |remaining| && forall k :: 0 <= k < j ==> !Fits(parse, remaining, k, u)
    {
      var s := remaining[j];
      if s != "" && u == Redact(parse, s) {
        return;
      }
      j := j + 1;
    }
  }

  lemma FreeIsPick(parse: Parse, stored: seq<string>, picks: Picks, remaining: seq<string>, u: string, j: nat)
    requires |remaining| == |stored| && j <= |stored|
    requires forall k :: 0 <= k < |stored| ==> remaining[k] == if Used(picks, k) then "" else stored[k]
    requires (j < |stored| ==> Fits(parse, remaining, j, u)) && forall k :: 0 <= k < j ==> !Fits(parse, remaining, k, u)
    ensures FirstFree(parse, stored, picks, u, 0) == if j < |stored| then Some(j) else None
  {
    var r := FirstFree(parse, stored, picks, u, 0);
    assert forall k :: 0 <= k < |stored| ==> (Fits(parse, remaining, k, u) <==> Fits(parse, stored, k, u) && !Used(picks, k));
  }

  lemma UsedGrows(all: Picks, i: nat)
    requires i < |all|
    ensures forall j: nat :: Used(all[..i + 1], j) <==> Used(all[..i], j) || all[i] == Some(j)
  {
    var a, b := all[..i], all[..i + 1];
    forall j: nat ensures Used(b, j) <==> Used(a, j) || all[i] == Some(j) {
      if Used(a, j) {
        var k :| 0 <= k < |a| && a[k] == Some(j);
        assert b[k] == Some(j);
      }
      if all[i] == Some(j) {
        assert b[i] == Some(j);
      }
      if Used(b, j) {
        var k :| 0 <= k < |b| && b[k] == Some(j);
        assert k < i ==> a[k] == Some(j);
      }
    }
  }

  // ---------------------------------------------------------------- main results on URLs

  /** The stored URLs that redact to u. */
  ghost function Fitting(parse: Parse, stored: seq<string>, u: string): set<nat> {
    set j: nat | j < |stored| && Fits(parse, stored, j, u)
  }

  ghost function UsedFor(parse: Parse, stored: seq<string>, picks: Picks, u: string): set<nat> {
    set j: nat | j < |stored| && Fits(parse, stored, j, u) && Used(picks, j)
  }

  function Copies(s: seq<string>, u: string): nat {
    if s == [] then 0 else Copies(s[..|s| - 1], u) + if s[|s| - 1] == u then 1 else 0
  }

  lemma Subset(a: set<nat>, b: set<nat>)
    requires a <= b
    ensures |a| <= |b| && (|a| == |b| ==> a == b)
  {
    assert b == a + (b - a);
  }

  lemma {:induction false} UsedCount(parse: Parse, submitted: seq<string>, stored: seq<string>, u: string)
    ensures var used := UsedFor(parse, stored, PicksFor(parse, submitted, stored), u);
            var fitting := Fitting(parse, stored, u);
            |used| == if Copies(submitted, u) < |fitting| then Copies(submitted, u) else |fitting|
    decreases |submitted|
  {
    var all := PicksFor(parse, submitted, stored);
    var used := UsedFor(parse, stored, all, u);
    var fitting := Fitting(parse, stored, u);
    if submitted == [] {
      assert used == {};
    } else {
      var n := |submitted| - 1;
      UsedCount(parse, submitted[..n], stored, u);
      var before := PicksFor(parse, submitted[..n], stored);
      var was := UsedFor(parse, stored, before, u);
      var last := FirstFree(parse, stored, before, submitted[n], 0);
      assert all[..n] == before && all[..n + 1] == all && all[n] == last;
      UsedGrows(all, n);
      UsedStep(parse, stored, before, all, u, submitted[n], last);
      Subset(was, fitting);
    }
  }

  lemma UsedStep(parse: Parse, stored: seq<string>, before: Picks, all: Picks, u: string, v: string, last: Option<nat>)
    requires last == FirstFree(parse, stored, before, v, 0)
    requires forall j: nat :: Used(all, j) <==> Used(before, j) || last == Some(j)
    ensures var was := UsedFor(parse, stored, before, u); var used := UsedFor(parse, stored, all, u);
            && (v != u || last == None ==> used == was)
            && (v == u && last == None ==> was == Fitting(parse, stored, u))
            && (v == u && last.Some? ==> used == was + {last.value} && last.value !in was && last.value in Fitting(parse, stored, u))
  {
    var was := UsedFor(parse, stored, before, u);
    var used := UsedFor(parse, stored, all, u);
    if v == u && last.Some? {
      assert used == was + {last.value};
    } else if v == u {
      assert was == Fitting(parse, stored, u);
    }
    if v != u || last == None {
      assert forall j :: j in used <==> j in was;
      assert used == was;
    }
  }

  /**
   Merging is refused exactly when some masked URL is submitted more often than there are
   stored URLs that redact to it.
   */
  lemma RefusedExactlyWhen(parse: Parse, submitted: seq<string>, stored: seq<string>)
    ensures MergeUrls(parse, submitted, stored) == None <==>
            exists u :: HasMask(u) && Copies(submitted, u) > |Fitting(parse, stored, u)|
  {
    var picks := PicksFor(parse, submitted, stored);
    if MergeUrls(parse, submitted, stored) == None {
      var i :| 0 <= i < |submitted| && picks[i] == None && HasMask(submitted[i]);
      UnmatchedMeansTooMany(parse, submitted, stored, i);
    }
    if exists u :: HasMask(u) && Copies(submitted, u) > |Fitting(parse, stored, u)| {
      var u :| HasMask(u) && Copies(submitted, u) > |Fitting(parse, stored, u)|;
      TooManyMeansUnmatched(parse, submitted, stored, u);
    }
  }

  lemma {:induction false} CopiesGrow(s: seq<string>, n: nat, u: string)
    requires n <= |s|
    ensures Copies(s[..n], u) <= Copies(s, u)
    decreases |s|
  {
    if n == |s| {
      assert s[..n] == s;
    } else {
      CopiesGrow(s[..|s| - 1], n, u);
      assert s[..|s| - 1][..n] == s[..n];
    }
  }

  lemma UnmatchedMeansTooMany(parse: Parse, submitted: seq<string>, stored: seq<string>, i: nat)
    requires i < |submitted| && PicksFor(parse, submitted, stored)[i] == None
    ensures Copies(submitted, submitted[i]) > |Fitting(parse, stored, submitted[i])|
  {
    var u := submitted[i];
    PicksPrefix(parse, submitted, stored, i);
    var before := PicksFor(parse, submitted[..i], stored);
    UsedCount(parse, submitted[..i], stored, u);
    assert UsedFor(parse, stored, before, u) == Fitting(parse, stored, u);
    CopiesGrow(submitted, i + 1, u);
    assert submitted[..i + 1][..i] == submitted[..i];
  }

  lemma {:induction false} TooManyMeansUnmatched(parse: Parse, submitted: seq<string>, stored: seq<string>, u: string)
    requires Copies(submitted, u) > |Fitting(parse, stored, u)|
    ensures exists i :: 0 <= i < |submitted| && submitted[i] == u && PicksFor(parse, submitted, stored)[i] == None
    decreases |submitted|
  {
    var n := |submitted| - 1;
    var all := PicksFor(parse, submitted, stored);
    var before := PicksFor(parse, submitted[..n], stored);
    assert all[..n] == before;
    if Copies(submitted[..n], u) > |Fitting(parse, stored, u)| {
      TooManyMeansUnmatched(parse, submitted[..n], stored, u);
      var i :| 0 <= i < n && submitted[..n][i] == u && before[i] == None;
      assert all[i] == None;
    } else {
      UsedCount(parse, submitted[..n], stored, u);
      Subset(UsedFor(parse, stored, before, u), Fitting(parse, stored, u));
      forall j: nat | Fits(parse, stored, j, u) ensures Used(before, j) {
        assert j in Fitting(parse, stored, u);
        assert j in UsedFor(parse, stored, before, u);
      }
      NoneFree(parse, stored, before, u);
    }
  }

  /** What comes out with a mask in it was stored that way. */
  lemma MaskedOutputIsStored(parse: Parse, submitted: seq<string>, stored: seq<string>, i: nat)
    requires MergeUrls(parse, submitted, stored).Some? && i < |submitted|
    ensures var out := MergeUrls(parse, submitted, stored).value; HasMask(out[i]) ==> out[i] in stored
  {
    PicksAreSound(parse, submitted, stored);
  }

  /** Nothing stored is handed out twice, whatever is submitted. */
  lemma StoredUsedOnce(parse: Parse, submitted: seq<string>, stored: seq<string>, i: nat, k: nat)
    requires i < k < |submitted| && PicksFor(parse, submitted, stored)[i].Some?
    ensures PicksFor(parse, submitted, stored)[i] != PicksFor(parse, submitted, stored)[k]
  {
    PicksAreSound(parse, submitted, stored);
  }

  /** An edit of the masked list: each line is some stored line, kept at most once, or a new one without a mask. */
  ghost predicate IsEdit(parse: Parse, submitted: seq<string>, stored: seq<string>, plan: Picks) {
    && |plan| == |submitted|
    && (forall i :: 0 <= i < |plan| && plan[i].Some? ==> plan[i].value < |stored| && submitted[i] == MaskUrl(parse, stored[plan[i].value]))
    && (forall i :: 0 <= i < |plan| && plan[i].None? ==> !HasMask(submitted[i]))
    && (forall i, k :: 0 <= i < k < |plan| && plan[i].Some? ==> plan[i] != plan[k])
  }

  ghost predicate DistinctRedactions(parse: Parse, stored: seq<string>) {
    forall j, k :: 0 <= j < k < |stored| && stored[j] != "" && stored[k] != "" ==> Redact(parse, stored[j]) != Redact(parse, stored[k])
  }

  lemma {:induction false} EditPicks(parse: Parse, submitted: seq<string>, stored: seq<string>, plan: Picks)
    requires IsEdit(parse, submitted, stored, plan) && DistinctRedactions(parse, stored)
    ensures forall i :: 0 <= i < |submitted| ==>
      PicksFor(parse, submitted, stored)[i] == if plan[i].Some? && stored[plan[i].value] != "" then plan[i] else None
    decreases |submitted|
  {
    if submitted != [] {
      var n := |submitted| - 1;
      EditPicks(parse, submitted[..n], stored, plan[..n]);
      EditPick(parse, submitted, stored, plan, PicksFor(parse, submitted[..n], stored));
    }
  }

  /** The last line of an edit picks what the plan says, if the lines before it did. */
  lemma EditPick(parse: Parse, submitted: seq<string>, stored: seq<string>, plan: Picks, before: Picks)
    requires IsEdit(parse, submitted, stored, plan) && DistinctRedactions(parse, stored) && |before| + 1 == |submitted|
    requires forall i :: 0 <= i < |before| ==> before[i] == if plan[i].Some? && stored[plan[i].value] != "" then plan[i] else None
    ensures var n := |before|;
            FirstFree(parse, stored, before, submitted[n], 0) == if plan[n].Some? && stored[plan[n].value] != "" then plan[n] else None
  {
    hide Redact, HasMask, FirstFree;
    var n := |before|;
    var u := submitted[n];
    if plan[n].Some? && stored[plan[n].value] != "" {
      var j := plan[n].value;
      assert !Used(before, j);
      assert forall k: nat :: Fits(parse, stored, k, u) ==> k == j;
      FreeIs(parse, stored, before, u, j);
    } else {
      EmptyHasNone();
      assert !HasMask(u);
      NothingFits(parse, stored, u);
      NoneFree(parse, stored, before, u);
    }
  }

  /** With distinct redactions any deletion, reordering or addition resolves every line to its own URL. */
  lemma EditsResolve(parse: Parse, submitted: seq<string>, stored: seq<string>, plan: Picks)
    requires IsEdit(parse, submitted, stored, plan) && DistinctRedactions(parse, stored)
    ensures MergeUrls(parse, submitted, stored).Some?
    ensures forall i :: 0 <= i < |submitted| ==>
      MergeUrls(parse, submitted, stored).value[i] == if plan[i].Some? then stored[plan[i].value] else submitted[i]
  {
    EditPicks(parse, submitted, stored, plan);
    PicksAreSound(parse, submitted, stored);
  }

  function MaskUrls(parse: Parse, urls: seq<string>): (out: seq<string>)
    ensures |out| == |urls|
  {
    seq(|urls|, i requires 0 <= i < |urls| => MaskUrl(parse, urls[i]))
  }

  lemma {:induction false} RoundTripPicks(parse: Parse, stored: seq<string>, n: nat)
    requires n <= |stored|
    ensures forall i :: 0 <= i < n ==> PicksFor(parse, MaskUrls(parse, stored)[..n], stored)[i] == if stored[i] == "" then None else Some(i)
  {
    hide FirstFree, MaskUrl;
    if n > 0 {
      var s := MaskUrls(parse, stored)[..n];
      assert s[..n - 1] == MaskUrls(parse, stored)[..n - 1];
      RoundTripPicks(parse, stored, n - 1);
      RoundTripPick(parse, stored, PicksFor(parse, s[..n - 1], stored));
    }
  }

  /** After n lines that picked themselves, the next one picks itself too. */
  lemma RoundTripPick(parse: Parse, stored: seq<string>, before: Picks)
    requires |before| < |stored| && forall i :: 0 <= i < |before| ==> before[i] == if stored[i] == "" then None else Some(i)
    ensures var n := |before|; FirstFree(parse, stored, before, MaskUrl(parse, stored[n]), 0) == if stored[n] == "" then None else Some(n)
  {
    hide Redact, HasMask, FirstFree;
    var n := |before|;
    var u := MaskUrl(parse, stored[n]);
    forall j: nat | j < n && Fits(parse, stored, j, u) ensures Used(before, j) {
      assert before[j] == Some(j);
    }
    if stored[n] == "" {
      EmptyHasNone();
      NothingFits(parse, stored, u);
      NoneFree(parse, stored, before, u);
    } else {
      assert !Used(before, n);
      hide Used;
      FreeIs(parse, stored, before, u, n);
    }
  }

  lemma EmptyHasNone()
    ensures !HasMask("")
  {
  }

  /** Every redaction carries the mask, so a URL without one stands for nothing stored. */
  lemma NothingFits(parse: Parse, stored: seq<string>, u: string)
    requires !HasMask(u)
    ensures forall j: nat :: !Fits(parse, stored, j, u)
  {
    forall j: nat | j < |stored| ensures !Fits(parse, stored, j, u) {
      RedactHasMask(parse, stored[j]);
    }
  }

  /** Sending the masked list back unchanged changes nothing, even when two URLs look the same masked. */
  lemma UrlRoundTrip(parse: Parse, stored: seq<string>)
    ensures MergeUrls(parse, MaskUrls(parse, stored), stored) == Some(stored)
  {
    var s := MaskUrls(parse, stored);
    assert s[..|stored|] == s;
    RoundTripPicks(parse, stored, |stored|);
    PicksAreSound(parse, s, stored);
    forall i | 0 <= i < |s| && PicksFor(parse, s, stored)[i] == None ensures s[i] == "" && !HasMask(s[i]) {
    }
    assert MergeUrls(parse, s, stored).value == stored;
  }

  // ---------------------------------------------------------------- whole channels

  function MaskSecret(v: string): string {
    if v != "" then MASK else v
  }

  function MaskHeaders(h: map<string, string>): map<string, string> {
    map k | k in h :: MaskSecret(h[k])
  }

  function MaskChannel(parse: Parse, c: Channel): Channel {
    c.(token := MaskSecret(c.token), headers := MaskHeaders(c.headers), urls := MaskUrls(parse, c.urls))
  }

  /** What the document shows of a channel: a secret that is set reads "***", a URL keeps its scheme and host, all else is as stored. */
  ghost predicate HidesSecrets(parse: Parse, c: Channel, m: Channel) {
    && m == c.(token := m.token, headers := m.headers, urls := m.urls)
    && m.token == (if c.token == "" then "" else "***")
    && m.headers.Keys == c.headers.Keys && (forall k :: k in c.headers ==> m.headers[k] == if c.headers[k] == "" then "" else "***")
    && |m.urls| == |c.urls| && forall n :: 0 <= n < |c.urls| ==>
         m.urls[n] ==
           if c.urls[n] == "" then ""
           else match parse(c.urls[n])
                case None => "***"
                case Some((scheme, host)) => if host == "" then "***" else scheme + "://" + host + "/***"
  }

  /** maskChannelTokens, in place. */
  method MaskChannelTokens(parse: Parse, channels: array<Channel>)
    modifies channels
    ensures forall i :: 0 <= i < channels.Length ==> channels[i] == MaskChannel(parse, old(channels[i]))
    ensures forall i :: 0 <= i < channels.Length ==> HidesSecrets(parse, old(channels[i]), channels[i])
  {
    for i := 0 to channels.Length
      invariant forall k :: 0 <= k < i ==> channels[k] == MaskChannel(parse, old(channels[k]))
      invariant forall k :: i <= k < channels.Length ==> channels[k] == old(channels[k])
    {
      var c := channels[i];
      if c.token != "" {
        channels[i] := channels[i].(token := MASK);
      }
      var headers := MaskAllHeaders(c.headers);
      var urls := MaskAllUrls(parse, c.urls);
      channels[i] := channels[i].(headers := headers, urls := urls);
    }
  }

  method MaskAllHeaders(h: map<string, string>) returns (out: map<string, string>)
    ensures out == MaskHeaders(h)
  {
    out := h;
    var rest := h.Keys;
    while exists k :: k in rest
      invariant rest <= h.Keys && out.Keys == h.Keys
      invariant forall k :: k in h ==> out[k] == if k in rest then h[k] else MaskSecret(h[k])
      decreases rest
    {
      var k :| k in rest;
      rest := rest - {k};
      if h[k] != "" {
        out := out[k := MASK];
      }
    }
  }

  method MaskAllUrls(parse: Parse, urls: seq<string>) returns (out: seq<string>)
    ensures out == MaskUrls(parse, urls)
  {
    out := urls;
    for j := 0 to |urls|
      invariant |out| == |urls|
      invariant forall k :: 0 <= k < j ==> out[k] == MaskUrl(parse, urls[k])
      invariant forall k :: j <= k < |urls| ==> out[k] == urls[k]
    {
      if urls[j] != "" {
        out := out[j := Redact(parse, urls[j])];
      }
    }
  }

  /** channelHasMaskedSecret. */
  predicate HasMaskedSecret(c: Channel) {
    c.token == MASK || exists k :: k in c.headers && c.headers[k] == MASK
  }

  /** A header the stored channel does not have reads as "". */
  function MergeHeaders(h: map<string, string>, stored: map<string, string>): map<string, string> {
    map k | k in h :: if h[k] != MASK then h[k] else if k in stored then stored[k] else ""
  }

  method MergeAllHeaders(h: map<string, string>, stored: map<string, string>) returns (out: map<string, string>)
    ensures out == MergeHeaders(h, stored)
  {
    out := map[];
    var rest := h.Keys;
    while exists k :: k in rest
      invariant rest <= h.Keys && out.Keys == h.Keys - rest
      invariant forall k :: k in out ==> out[k] == MergeHeaders(h, stored)[k]
      decreases rest
    {
      var k :| k in rest;
      rest := rest - {k};
      var v := h[k];
      if v == MASK {
        v := if k in stored then stored[k] else "";
      }
      out := out[k := v];
    }
    assert out.Keys == h.Keys;
  }

  /** One channel of mergeChannelSecrets. */
  function MergeChannel(parse: Parse, c: Channel, stored: Option<Channel>): Option<Channel> {
    if HasMaskedSecret(c) && (stored.None? || stored.value.kind != c.kind || stored.value.url != c.url) then None
    else
      var c1 := if !HasMaskedSecret(c) then c
                else c.(token := if c.token == MASK then stored.value.token else c.token,
                        headers := MergeHeaders(c.headers, stored.value.headers));
      if c.urls == [] then Some(c1)
      else
        var urls := MergeUrls(parse, c.urls, if stored.Some? then stored.value.urls else []);
        if urls.None? then None else Some(c1.(urls := urls.value))
  }

  /** The stored channel with an id; of two, the later. */
  function Find(current: seq<Channel>, id: string): Option<Channel> {
    if current == [] then None
    else if current[|current| - 1].id == id then Some(current[|current| - 1])
    else Find(current[..|current| - 1], id)
  }

  lemma {:induction false} FindUnique(current: seq<Channel>, i: nat)
    requires i < |current| && forall j, k :: 0 <= j < k < |current| ==> current[j].id != current[k].id
    ensures Find(current, current[i].id) == Some(current[i])
    decreases |current|
  {
    if i < |current| - 1 {
      FindUnique(current[..|current| - 1], i);
    }
  }

  lemma NoHeaders(h: map<string, string>, stored: map<string, string>)
    requires |h| == 0
    ensures MergeHeaders(h, stored) == h
  {
    assert h == map[];
  }

  /** The last channel stored under an id. */
  ghost predicate Latest(current: seq<Channel>, id: string, j: nat) {
    j < |current| && current[j].id == id && forall k :: j < k < |current| ==> current[k].id != id
  }

  /** A secret echoed back as "***" may be filled in: the channel is stored with the same type and url. */
  ghost predicate Echoes(c: Channel, current: seq<Channel>, j: nat) {
    Latest(current, c.id, j) && current[j].kind == c.kind && current[j].url == c.url
  }

  /** The URLs stored for an id. */
  ghost predicate StoredUrls(current: seq<Channel>, id: string, urls: seq<string>) {
    || (exists j: nat :: Latest(current, id, j) && urls == current[j].urls)
    || ((forall k :: 0 <= k < |current| ==> current[k].id != id) && urls == [])
  }

  ghost predicate Contains(u: string, part: string) {
    exists left: string, right: string :: u == left + part + right
  }

  /** A secret must be entered again: it is masked and there is nothing to fill it in from. */
  ghost predicate MustReenter(parse: Parse, c: Channel, current: seq<Channel>) {
    || ((c.token == "***" || exists k :: k in c.headers && c.headers[k] == "***") && forall j: nat :: !Echoes(c, current, j))
    || exists urls, u :: StoredUrls(current, c.id, urls) && Contains(u, "***") && Copies(c.urls, u) > |Fitting(parse, urls, u)|
  }

  /** What a submitted channel resolves to: the submitted one, with each "***" replaced by what was stored under the same url. */
  ghost predicate Resolves(parse: Parse, c: Channel, current: seq<Channel>, out: Channel) {
    && out == c.(token := out.token, headers := out.headers, urls := out.urls)
    && (if c.token != "***" then out.token == c.token else exists j: nat :: Echoes(c, current, j) && out.token == current[j].token)
    && out.headers.Keys == c.headers.Keys
    && (forall k :: k in c.headers ==>
          if c.headers[k] != "***" then out.headers[k] == c.headers[k]
          else exists j: nat :: Echoes(c, current, j) && out.headers[k] == if k in current[j].headers then current[j].headers[k] else "")
    && exists urls :: StoredUrls(current, c.id, urls) && MergeUrls(parse, c.urls, urls) == Some(out.urls)
  }

  lemma {:induction false} FindIsLatest(current: seq<Channel>, id: string)
    ensures Find(current, id).None? <==> forall k :: 0 <= k < |current| ==> current[k].id != id
    ensures Find(current, id).Some? ==> exists j: nat :: Latest(current, id, j) && current[j] == Find(current, id).value
    ensures forall j: nat, k: nat :: Latest(current, id, j) && Latest(current, id, k) ==> j == k
  {
    if current != [] {
      var n := |current| - 1;
      FindIsLatest(current[..n], id);
      assert current == current[..n] + [current[n]];
      if current[n].id == id {
        assert Latest(current, id, n);
      } else if Find(current, id).Some? {
        var j: nat :| Latest(current[..n], id, j) && current[..n][j] == Find(current, id).value;
        assert Latest(current, id, j) && current[j] == Find(current, id).value;
      }
    }
  }

  /** The URLs stored for an id, by its index: there are none if the id is unknown. */
  lemma StoredUrlsAre(current: seq<Channel>, id: string)
    ensures forall urls :: StoredUrls(current, id, urls) <==> urls == if Find(current, id).Some? then Find(current, id).value.urls else []
  {
    FindIsLatest(current, id);
    hide Find;
  }

  lemma EchoesWhen(c: Channel, current: seq<Channel>)
    ensures var was := Find(current, c.id);
            && ((exists j: nat :: Echoes(c, current, j)) <==> was.Some? && was.value.kind == c.kind && was.value.url == c.url)
            && forall j: nat :: Echoes(c, current, j) ==> was == Some(current[j])
  {
    FindIsLatest(current, c.id);
    var was := Find(current, c.id);
    hide Find;
    if was.Some? {
      var n: nat :| Latest(current, c.id, n) && current[n] == was.value;
      assert was.value.kind == c.kind && was.value.url == c.url ==> Echoes(c, current, n);
      assert forall j: nat :: Latest(current, c.id, j) ==> j == n;
    }
  }

  lemma RefusesWhen(parse: Parse, c: Channel, current: seq<Channel>)
    ensures MergeChannel(parse, c, Find(current, c.id)).None? <==> MustReenter(parse, c, current)
  {
    hide MergeUrls, Copies, Fitting, HasMask;
    var was := Find(current, c.id);
    var urls := if was.Some? then was.value.urls else [];
    StoredUrlsAre(current, c.id);
    EchoesWhen(c, current);
    RefusedExactlyWhen(parse, c.urls, urls);
    NoUrls(parse, urls);
    hide Find, StoredUrls, Echoes;
    assert StoredUrls(current, c.id, urls);
    forall u ensures HasMask(u) <==> Contains(u, "***") {
      MaskMeans(u);
    }
    hide Contains;
  }

  lemma MaskMeans(u: string)
    ensures HasMask(u) <==> Contains(u, "***")
  {
    if left: string, right: string :| u == left + "***" + right {
      assert MaskAt(u, |left|);
    }
    if k: nat :| k <= |u| && MaskAt(u, k) {
      assert u == u[..k] + "***" + u[k + 3..];
    }
  }

  lemma NoUrls(parse: Parse, stored: seq<string>)
    ensures MergeUrls(parse, [], stored) == Some([])
  {
  }

  /** The secrets of a resolved channel. */
  lemma SecretsOf(parse: Parse, c: Channel, was: Option<Channel>)
    requires MergeChannel(parse, c, was).Some?
    ensures var out := MergeChannel(parse, c, was).value;
            && out == c.(token := out.token, headers := out.headers, urls := out.urls)
            && (c.token != "***" ==> out.token == c.token)
            && (c.token == "***" ==> was.Some? && was.value.kind == c.kind && was.value.url == c.url && out.token == was.value.token)
            && out.headers.Keys == c.headers.Keys
            && (forall k :: k in c.headers && c.headers[k] != "***" ==> out.headers[k] == c.headers[k])
            && (forall k :: k in c.headers && c.headers[k] == "***" ==>
                  && was.Some? && was.value.kind == c.kind && was.value.url == c.url
                  && out.headers[k] == if k in was.value.headers then was.value.headers[k] else "")
  {
    hide MergeUrls;
  }

  lemma UrlsOf(parse: Parse, c: Channel, was: Option<Channel>)
    requires MergeChannel(parse, c, was).Some?
    ensures MergeUrls(parse, c.urls, if was.Some? then was.value.urls else []) == Some(MergeChannel(parse, c, was).value.urls)
  {
    NoUrls(parse, if was.Some? then was.value.urls else []);
    hide MergeUrls, HasMaskedSecret, MergeHeaders;
  }

  lemma ResolvesTo(parse: Parse, c: Channel, current: seq<Channel>)
    requires MergeChannel(parse, c, Find(current, c.id)).Some?
    ensures Resolves(parse, c, current, MergeChannel(parse, c, Find(current, c.id)).value)
  {
    var was := Find(current, c.id);
    StoredUrlsAre(current, c.id);
    EchoesWhen(c, current);
    SecretsOf(parse, c, was);
    UrlsOf(parse, c, was);
    hide Find, StoredUrls, Echoes, MergeUrls, MergeChannel;
    assert StoredUrls(current, c.id, if was.Some? then was.value.urls else []);
  }

  lemma AllResolve(parse: Parse, incoming: seq<Channel>, current: seq<Channel>)
    ensures forall i :: 0 <= i < |incoming| ==>
      (MergeChannel(parse, incoming[i], Find(current, incoming[i].id)).None? <==> MustReenter(parse, incoming[i], current))
    ensures forall i :: 0 <= i < |incoming| && MergeChannel(parse, incoming[i], Find(current, incoming[i].id)).Some? ==>
      Resolves(parse, incoming[i], current, MergeChannel(parse, incoming[i], Find(current, incoming[i].id)).value)
  {
    hide MergeChannel, MustReenter, Resolves, Find;
    forall i | 0 <= i < |incoming|
      ensures MergeChannel(parse, incoming[i], Find(current, incoming[i].id)).None? <==> MustReenter(parse, incoming[i], current)
    {
      RefusesWhen(parse, incoming[i], current);
    }
    forall i | 0 <= i < |incoming| && MergeChannel(parse, incoming[i], Find(current, incoming[i].id)).Some?
      ensures Resolves(parse, incoming[i], current, MergeChannel(parse, incoming[i], Find(current, incoming[i].id)).value)
    {
      ResolvesTo(parse, incoming[i], current);
    }
  }

  /** Every channel of the document resolves, to the one at its place in out. */
  ghost predicate MergesTo(parse: Parse, incoming: seq<Channel>, current: seq<Channel>, out: seq<Channel>) {
    && |out| == |incoming|
    && forall i :: 0 <= i < |incoming| ==> MergeChannel(parse, incoming[i], Find(current, incoming[i].id)) == Some(out[i])
  }

  ghost predicate FirstRefused(parse: Parse, incoming: seq<Channel>, current: seq<Channel>, i: nat) {
    && i < |incoming| && MergeChannel(parse, incoming[i], Find(current, incoming[i].id)).None?
    && forall k :: 0 <= k < i ==> MergeChannel(parse, incoming[k], Find(current, incoming[k].id)).Some?
  }

  /** mergeChannelSecrets: the first channel that cannot be resolved refuses the document. */
  method MergeChannelSecrets(parse: Parse, incoming: seq<Channel>, current: seq<Channel>) returns (r: Merged)
    ensures r.Ok? <==> forall i :: 0 <= i < |incoming| ==> MergeChannel(parse, incoming[i], Find(current, incoming[i].id)).Some?
    ensures r.Ok? ==> MergesTo(parse, incoming, current, r.channels)
    ensures r.Refused? ==> exists i: nat :: FirstRefused(parse, incoming, current, i) && incoming[i].id == r.id
    ensures r.Refused? <==> exists i :: 0 <= i < |incoming| && MustReenter(parse, incoming[i], current)
    ensures r.Ok? ==> |r.channels| == |incoming| && forall i :: 0 <= i < |incoming| ==> Resolves(parse, incoming[i], current, r.channels[i])
  {
    hide MergeUrls, HasMaskedSecret, MergeHeaders, MustReenter, Resolves;
    AllResolve(parse, incoming, current);
    var stored: map<string, Channel> := map[];
    for n := 0 to |current|
      invariant forall id :: Find(current[..n], id) == if id in stored then Some(stored[id]) else None
    {
      assert current[..n + 1][..n] == current[..n];
      stored := stored[current[n].id := current[n]];
    }
    assert current[..|current|] == current;
    var out := incoming;
    for i := 0 to |incoming|
      invariant |out| == |incoming| && forall k :: i <= k < |incoming| ==> out[k] == incoming[k]
      invariant forall k :: 0 <= k < i ==> MergeChannel(parse, incoming[k], Find(current, incoming[k].id)) == Some(out[k])
    {
      var c := out[i];
      var hasOld := c.id in stored;
      var masked := HasMaskedSecret(c);
      if masked {
        if !hasOld || stored[c.id].kind != c.kind || stored[c.id].url != c.url {
          return Refused(c.id);
        }
        var was := stored[c.id];
        if c.token == MASK {
          out := out[i := out[i].(token := was.token)];
        }
        if |c.headers| > 0 {
          var merged := MergeAllHeaders(c.headers, was.headers);
          out := out[i := out[i].(headers := merged)];
        } else {
          NoHeaders(c.headers, was.headers);
        }
      }
      if |c.urls| > 0 {
        var urls := MergeAppriseUrls(parse, c.urls, if hasOld then stored[c.id].urls else []);
        if urls.None? {
          return Refused(c.id);
        }
        out := out[i := out[i].(urls := urls.value)];
      }
    }
    r := Ok(out);
  }

  /** A masked channel resolves to the channel it was made from. */
  lemma ChannelRoundTrip(parse: Parse, c: Channel)
    ensures MergeChannel(parse, MaskChannel(parse, c), Some(c)) == Some(c)
  {
    var m := MaskChannel(parse, c);
    UrlRoundTrip(parse, c.urls);
    if HasMaskedSecret(m) {
      assert MergeHeaders(m.headers, c.headers) == c.headers;
    } else {
      assert forall k :: k in c.headers ==> k in m.headers && m.headers[k] != MASK;
      assert m.headers == c.headers;
    }
    assert c.urls == [] ==> m.urls == [];
  }

  /** Reading the settings and sending any choice of the channels back, in any order, returns them unchanged. */
  lemma SettingsRoundTrip(parse: Parse, current: seq<Channel>, chosen: seq<Channel>, sent: seq<Channel>)
    requires forall j, k :: 0 <= j < k < |current| ==> current[j].id != current[k].id
    requires forall i :: 0 <= i < |chosen| ==> chosen[i] in current
    requires |sent| == |chosen| && forall i :: 0 <= i < |sent| ==> sent[i] == MaskChannel(parse, chosen[i])
    ensures MergesTo(parse, sent, current, chosen)
  {
    hide MaskUrls, MergeUrls, MergeHeaders, MaskHeaders, MaskSecret, HasMaskedSecret, MergeChannel, Find;
    forall i | 0 <= i < |sent| ensures MergeChannel(parse, sent[i], Find(current, sent[i].id)) == Some(chosen[i]) {
      var j :| 0 <= j < |current| && current[j] == chosen[i];
      FindUnique(current, j);
      ChannelRoundTrip(parse, chosen[i]);
    }
  }

  /** A stored secret is only ever filled in for a channel of the same id, type and url. */
  lemma SecretsStayWithTheirUrl(parse: Parse, c: Channel, current: seq<Channel>, k: string)
    requires MergeChannel(parse, c, Find(current, c.id)).Some?
    ensures var out := MergeChannel(parse, c, Find(current, c.id)).value; var was := Find(current, c.id);
            && out.id == c.id && out.kind == c.kind && out.url == c.url && out.headers.Keys == c.headers.Keys
            && (out.token != c.token ==> c.token == MASK && was.Some? && was.value.kind == c.kind && was.value.url == c.url && out.token == was.value.token)
            && (k in c.headers && out.headers[k] != c.headers[k] ==>
                  c.headers[k] == MASK && was.Some? && was.value.kind == c.kind && was.value.url == c.url
                  && out.headers[k] == if k in was.value.headers then was.value.headers[k] else "")
  {
  }
}
