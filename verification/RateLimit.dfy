/**
 The sliding-window limiter: each key keeps the times of its admitted calls, compacted in
 place in the slice's own backing array before the next decision.
 */
module RateLimit {
  import opened Wrappers

  /** The times after the cutoff, in order. */
  function Kept(times: seq<int>, cutoff: int): (r: seq<int>)
    ensures |r| <= |times|
  {
    if times == [] then []
    else Kept(times[..|times| - 1], cutoff) + if times[|times| - 1] > cutoff then [times[|times| - 1]] else []
  }

  /** The times in the half-open interval (lo, hi]. */
  function Within(times: seq<int>, lo: int, hi: int): seq<int> {
    if times == [] then []
    else
      var t := times[|times| - 1];
      Within(times[..|times| - 1], lo, hi) + if lo < t <= hi then [t] else []
  }

  datatype Call = Call(key: string, now: int)
  datatype Limit = Limit(max: int, window: int)

  /** What the limiter stores for a key after the calls. */
  function Stored(l: Limit, calls: seq<Call>, key: string): seq<int> {
    if calls == [] then []
    else
      var c := calls[|calls| - 1];
      var before := Stored(l, calls[..|calls| - 1], key);
      if c.key != key then before
      else
        var kept := Kept(before, c.now - l.window);
        if |kept| < l.max then kept + [c.now] else kept
  }

  /** The decision on the next call, after the stored times were compacted. */
  predicate Admits(l: Limit, calls: seq<Call>, c: Call) {
    |Kept(Stored(l, calls, c.key), c.now - l.window)| < l.max
  }

  /** Every admission of the key since the start. */
  function Admitted(l: Limit, calls: seq<Call>, key: string): seq<int> {
    if calls == [] then []
    else
      var c := calls[|calls| - 1];
      var before := calls[..|calls| - 1];
      Admitted(l, before, key) +
      if c.key == key && |Kept(Stored(l, before, key), c.now - l.window)| < l.max then [c.now] else []
  }

  /** The calls of this key come with non-decreasing times; those of other keys may come with any. */
  predicate ClockAdvances(calls: seq<Call>, key: string) {
    forall i, j :: 0 <= i < j < |calls| && calls[i].key == key && calls[j].key == key ==> calls[i].now <= calls[j].now
  }

  predicate NotAfter(calls: seq<Call>, key: string, t: int) {
    forall i :: 0 <= i < |calls| && calls[i].key == key ==> calls[i].now <= t
  }

  // ---- lemmas on filtering ----

  lemma KeptAppend(times: seq<int>, t: int, cutoff: int)
    ensures Kept(times + [t], cutoff) == if t > cutoff then Kept(times, cutoff) + [t] else Kept(times, cutoff)
  {
    assert (times + [t])[..|times|] == times;
  }

  lemma WithinAppend(times: seq<int>, t: int, lo: int, hi: int)
    ensures Within(times + [t], lo, hi) == if lo < t <= hi then Within(times, lo, hi) + [t] else Within(times, lo, hi)
  {
    assert (times + [t])[..|times|] == times;
  }

  lemma {:induction false} KeptTwice(times: seq<int>, c: int, d: int)
    requires c <= d
    ensures Kept(Kept(times, c), d) == Kept(times, d)
  {
    if times != [] {
      var n := |times| - 1;
      KeptTwice(times[..n], c, d);
      if times[n] > c {
        KeptAppend(Kept(times[..n], c), times[n], d);
      } else {
        assert Kept(times, c) == Kept(times[..n], c);
      }
    }
  }

  lemma {:induction false} WithinIsKept(times: seq<int>, lo: int, hi: int)
    requires forall i :: 0 <= i < |times| ==> times[i] <= hi
    ensures Within(times, lo, hi) == Kept(times, lo)
  {
    if times != [] {
      WithinIsKept(times[..|times| - 1], lo, hi);
    }
  }

  lemma {:induction false} WithinFewer(times: seq<int>, lo: int, hi: int, cutoff: int)
    requires cutoff <= lo
    ensures |Within(times, lo, hi)| <= |Kept(times, cutoff)|
  {
    if times != [] {
      WithinFewer(times[..|times| - 1], lo, hi, cutoff);
    }
  }

  // ---- one more call ----

  lemma OtherKeys(l: Limit, calls: seq<Call>, c: Call)
    ensures forall k :: k != c.key ==> Stored(l, calls + [c], k) == Stored(l, calls, k)
  {
    assert (calls + [c])[..|calls|] == calls;
  }

  lemma NextStored(l: Limit, calls: seq<Call>, c: Call)
    ensures var kept := Kept(Stored(l, calls, c.key), c.now - l.window);
            Stored(l, calls + [c], c.key) == if Admits(l, calls, c) then kept + [c.now] else kept
  {
    assert (calls + [c])[..|calls|] == calls;
  }

  lemma NextAdmitted(l: Limit, calls: seq<Call>, c: Call, key: string)
    ensures c.key == key && Admits(l, calls, c) ==> Admitted(l, calls + [c], key) == Admitted(l, calls, key) + [c.now]
    ensures !(c.key == key && Admits(l, calls, c)) ==> Admitted(l, calls + [c], key) == Admitted(l, calls, key)
  {
    assert (calls + [c])[..|calls|] == calls;
  }

  // ---- main results, for one key among any calls ----

  lemma ClockPrefix(calls: seq<Call>, c: Call, key: string)
    requires ClockAdvances(calls + [c], key)
    ensures ClockAdvances(calls, key)
    ensures c.key == key ==> NotAfter(calls, key, c.now)
  {
    var more := calls + [c];
    assert more[|calls|] == c && forall i :: 0 <= i < |calls| ==> more[i] == calls[i];
  }

  lemma NotAfterPrefix(calls: seq<Call>, c: Call, key: string, t: int)
    requires NotAfter(calls + [c], key, t)
    ensures NotAfter(calls, key, t) && (c.key == key ==> c.now <= t)
  {
    var more := calls + [c];
    assert more[|calls|] == c && forall i :: 0 <= i < |calls| ==> more[i] == calls[i];
  }

  lemma LastCall(calls: seq<Call>) returns (before: seq<Call>, c: Call)
    requires calls != []
    ensures calls == before + [c] && |before| < |calls|
  {
    before, c := calls[..|calls| - 1], calls[|calls| - 1];
  }

  /** One call more keeps stored and admitted times alike after a cutoff. */
  lemma RecentAfterOneMore(l: Limit, calls: seq<Call>, c: Call, key: string, cutoff: int)
    requires c.key == key ==> c.now - l.window <= cutoff
    requires Kept(Stored(l, calls, key), cutoff) == Kept(Admitted(l, calls, key), cutoff)
    ensures Kept(Stored(l, calls + [c], key), cutoff) == Kept(Admitted(l, calls + [c], key), cutoff)
  {
    hide Kept, Stored, Admitted, Admits;
    NextAdmitted(l, calls, c, key);
    if c.key == key {
      NextStored(l, calls, c);
      SameAfterOneMore(Stored(l, calls, key), Admitted(l, calls, key), c.now - l.window, cutoff, c.now, Admits(l, calls, c));
    } else {
      OtherKeys(l, calls, c);
    }
  }

  /** Compacting what is stored gives what filtering all past admissions gives. */
  lemma {:induction false} StoredIsRecentHistory(l: Limit, calls: seq<Call>, key: string, cutoff: int)
    requires ClockAdvances(calls, key) && NotAfter(calls, key, cutoff + l.window)
    ensures Kept(Stored(l, calls, key), cutoff) == Kept(Admitted(l, calls, key), cutoff)
    decreases |calls|
  {
    if calls != [] {
      hide *;
      var before, c := LastCall(calls);
      ClockPrefix(before, c, key);
      NotAfterPrefix(before, c, key, cutoff + l.window);
      StoredIsRecentHistory(l, before, key, cutoff);
      RecentAfterOneMore(l, before, c, key, cutoff);
    }
  }

  /** Compacting first, and then adding a time or not, changes nothing for a later cutoff. */
  lemma SameAfterOneMore(stored: seq<int>, history: seq<int>, c: int, d: int, t: int, added: bool)
    requires c <= d && Kept(stored, d) == Kept(history, d)
    ensures Kept(if added then Kept(stored, c) + [t] else Kept(stored, c), d) ==
            Kept(if added then history + [t] else history, d)
  {
    hide Kept;
    KeptTwice(stored, c, d);
    KeptAppend(Kept(stored, c), t, d);
    KeptAppend(history, t, d);
  }

  lemma {:induction false} AdmittedInThePast(l: Limit, calls: seq<Call>, key: string, t: int)
    requires NotAfter(calls, key, t)
    ensures forall i :: 0 <= i < |Admitted(l, calls, key)| ==> Admitted(l, calls, key)[i] <= t
    decreases |calls|
  {
    if calls != [] {
      hide Admitted, NotAfter;
      var before, c := LastCall(calls);
      NotAfterPrefix(before, c, key, t);
      AdmittedInThePast(l, before, key, t);
      NextAdmitted(l, before, c, key);
    }
  }

  /** An admission into (x, x + window] finds fewer than max there already. */
  lemma AdmittedFits(l: Limit, calls: seq<Call>, c: Call, x: int)
    requires ClockAdvances(calls, c.key) && NotAfter(calls, c.key, c.now) && Admits(l, calls, c)
    requires x < c.now <= x + l.window
    ensures |Within(Admitted(l, calls, c.key), x, x + l.window)| < l.max
  {
    hide ClockAdvances, NotAfter, Kept, Stored, Admitted, Within;
    StoredIsRecentHistory(l, calls, c.key, c.now - l.window);
    WithinFewer(Admitted(l, calls, c.key), x, x + l.window, c.now - l.window);
  }

  lemma OneMoreFits(l: Limit, calls: seq<Call>, c: Call, key: string, x: int)
    requires ClockAdvances(calls, key) && (c.key == key ==> NotAfter(calls, key, c.now))
    requires |Within(Admitted(l, calls, key), x, x + l.window)| <= Max(0, l.max)
    ensures |Within(Admitted(l, calls + [c], key), x, x + l.window)| <= Max(0, l.max)
  {
    hide ClockAdvances, NotAfter, Stored, Admitted, Within, Admits;
    NextAdmitted(l, calls, c, key);
    if c.key == key && Admits(l, calls, c) {
      WithinAppend(Admitted(l, calls, key), c.now, x, x + l.window);
      if x < c.now <= x + l.window {
        AdmittedFits(l, calls, c, x);
      }
    }
  }

  /** At most max admissions of a key lie in any interval (x, x + window]. */
  lemma {:induction false} AtMostMaxPerWindow(l: Limit, calls: seq<Call>, key: string, x: int)
    requires ClockAdvances(calls, key)
    ensures |Within(Admitted(l, calls, key), x, x + l.window)| <= Max(0, l.max)
    decreases |calls|
  {
    if calls != [] {
      hide *;
      var before, c := LastCall(calls);
      ClockPrefix(before, c, key);
      AtMostMaxPerWindow(l, before, key, x);
      OneMoreFits(l, before, c, key, x);
    }
  }

  /** The same for intervals closed at the left, [x, x + window): times are integers. */
  lemma AtMostMaxPerLeftClosedWindow(l: Limit, calls: seq<Call>, key: string, x: int)
    requires ClockAdvances(calls, key)
    ensures |Within(Admitted(l, calls, key), x - 1, x - 1 + l.window)| <= Max(0, l.max)
  {
    AtMostMaxPerWindow(l, calls, key, x - 1);
  }

  /** The next call is denied exactly if max admissions already lie in its own window. */
  lemma DeniedIffWindowIsFull(l: Limit, calls: seq<Call>, c: Call)
    requires ClockAdvances(calls + [c], c.key) && l.max >= 0
    ensures !Admits(l, calls, c) <==> |Within(Admitted(l, calls, c.key), c.now - l.window, c.now)| == l.max
    ensures Admitted(l, calls + [c], c.key) == Admitted(l, calls, c.key) + if Admits(l, calls, c) then [c.now] else []
  {
    hide ClockAdvances, NotAfter, Kept, Within, Stored, Admitted;
    ClockPrefix(calls, c, c.key);
    AdmittedInThePast(l, calls, c.key, c.now);
    StoredIsRecentHistory(l, calls, c.key, c.now - l.window);
    WithinIsKept(Admitted(l, calls, c.key), c.now - l.window, c.now);
    AtMostMaxPerWindow(l, calls, c.key, c.now - l.window);
    NextAdmitted(l, calls, c, c.key);
  }

  // ---- clocks that step back ----

  /** With max 1 the one stored time is the last admission, whatever the clock does. */
  lemma {:induction false} SingleIsLast(l: Limit, calls: seq<Call>, key: string)
    requires l.max == 1
    ensures var history := Admitted(l, calls, key);
            Stored(l, calls, key) == if history == [] then [] else [history[|history| - 1]]
    decreases |calls|
  {
    if calls != [] {
      hide Stored, Admitted;
      var before, c := LastCall(calls);
      SingleIsLast(l, before, key);
      NextAdmitted(l, before, c, key);
      if c.key == key {
        NextStored(l, before, c);
        KeptOfOne(Stored(l, before, key), c.now - l.window);
      } else {
        OtherKeys(l, before, c);
      }
    }
  }

  lemma KeptOfOne(times: seq<int>, cutoff: int)
    requires |times| <= 1
    ensures Kept(times, cutoff) == if times != [] && times[0] > cutoff then times else []
  {
    if times != [] {
      assert times[..0] == [] && times == [times[0]];
    }
  }

  predicate Spaced(times: seq<int>, gap: int) {
    forall i, j :: 0 <= i < j < |times| ==> times[j] - times[i] >= gap
  }

  lemma OneMoreSpaced(times: seq<int>, t: int, gap: int)
    requires gap >= 0 && Spaced(times, gap) && (times != [] ==> times[|times| - 1] <= t - gap)
    ensures Spaced(times + [t], gap)
  {
    forall i, j | 0 <= i < j < |times| + 1
      ensures (times + [t])[j] - (times + [t])[i] >= gap
    {
      if j == |times| && i < |times| - 1 {
        assert times[|times| - 1] - times[i] >= gap;
      }
    }
  }

  /** With max 1 any two admissions are a window apart, whatever the clock does. */
  lemma {:induction false} SingleIsSpaced(l: Limit, calls: seq<Call>, key: string)
    requires l.max == 1 && l.window >= 0
    ensures Spaced(Admitted(l, calls, key), l.window)
    decreases |calls|
  {
    if calls != [] {
      hide Stored, Admitted, Spaced, Kept;
      var before, c := LastCall(calls);
      SingleIsSpaced(l, before, key);
      NextAdmitted(l, before, c, key);
      if c.key == key && Admits(l, before, c) {
        SingleIsLast(l, before, key);
        KeptOfOne(Stored(l, before, key), c.now - l.window);
        OneMoreSpaced(Admitted(l, before, key), c.now, l.window);
      }
    } else {
      NoCalls(l, key);
    }
  }

  lemma OneMoreIsSparse(times: seq<int>, t: int, x: int, gap: int)
    requires gap >= 1 && Spaced(times + [t], gap) && |Within(times, x, x + gap)| <= 1
    ensures |Within(times + [t], x, x + gap)| <= 1
  {
    hide Within;
    WithinAppend(times, t, x, x + gap);
    if x < t <= x + gap {
      assert forall i :: 0 <= i < |times| ==> (times + [t])[i] == times[i] && (times + [t])[|times|] == t;
      NoneWithin(times, x, x + gap);
    }
  }

  lemma {:induction false} SpacedIsSparse(times: seq<int>, x: int, gap: int)
    requires gap >= 1 && Spaced(times, gap)
    ensures |Within(times, x, x + gap)| <= 1
    decreases |times|
  {
    hide Within;
    if times == [] {
      Nothing(x, x + gap);
    } else {
      var before, t := times[..|times| - 1], times[|times| - 1];
      assert Spaced(before, gap);
      hide Spaced;
      assert times == before + [t];
      SpacedIsSparse(before, x, gap);
      OneMoreIsSparse(before, t, x, gap);
    }
  }

  lemma {:induction false} NoneWithin(times: seq<int>, lo: int, hi: int)
    requires forall i :: 0 <= i < |times| ==> times[i] <= lo
    ensures Within(times, lo, hi) == []
  {
    if times != [] {
      NoneWithin(times[..|times| - 1], lo, hi);
    }
  }

  lemma {:induction false} NothingAdmitted(l: Limit, calls: seq<Call>, key: string)
    requires l.max <= 0
    ensures Admitted(l, calls, key) == []
    decreases |calls|
  {
    if calls != [] {
      hide Admitted;
      var before, c := LastCall(calls);
      NothingAdmitted(l, before, key);
      NextAdmitted(l, before, c, key);
    }
  }

  /** `n` calls at time 0, all admitted. */
  function Burst(key: string, n: nat): seq<Call> {
    if n == 0 then [] else Burst(key, n - 1) + [Call(key, 0)]
  }

  function Zeros(n: nat): seq<int> {
    if n == 0 then [] else Zeros(n - 1) + [0]
  }

  lemma {:induction false} ZerosLength(n: nat)
    ensures |Zeros(n)| == n
  {
    if n > 0 {
      ZerosLength(n - 1);
    }
  }

  lemma Nothing(lo: int, hi: int)
    ensures Kept([], lo) == [] && Within([], lo, hi) == []
  {}

  lemma {:induction false} KeptZeros(n: nat, cutoff: int)
    ensures Kept(Zeros(n), cutoff) == if 0 > cutoff then Zeros(n) else []
  {
    hide Kept;
    if n == 0 {
      Nothing(cutoff, cutoff);
    } else {
      KeptZeros(n - 1, cutoff);
      KeptAppend(Zeros(n - 1), 0, cutoff);
    }
  }

  lemma {:induction false} WithinZeros(n: nat, lo: int, hi: int)
    requires lo < 0 <= hi
    ensures Within(Zeros(n), lo, hi) == Zeros(n)
  {
    hide Within;
    if n == 0 {
      Nothing(lo, hi);
    } else {
      WithinZeros(n - 1, lo, hi);
      WithinAppend(Zeros(n - 1), 0, lo, hi);
    }
  }

  lemma NoCalls(l: Limit, key: string)
    ensures Stored(l, [], key) == [] && Admitted(l, [], key) == []
  {}

  lemma {:induction false} BurstIsAdmitted(l: Limit, key: string, n: nat)
    requires n <= l.max && l.window >= 1
    ensures Stored(l, Burst(key, n), key) == Zeros(n) && Admitted(l, Burst(key, n), key) == Zeros(n)
  {
    hide Stored, Admitted, Kept;
    if n == 0 {
      NoCalls(l, key);
    } else {
      BurstIsAdmitted(l, key, n - 1);
      KeptZeros(n - 1, -l.window);
      ZerosLength(n - 1);
      NextStored(l, Burst(key, n - 1), Call(key, 0));
      NextAdmitted(l, Burst(key, n - 1), Call(key, 0), key);
    }
  }

  /** A burst, a call a window or more later, and one whose clock is `back` behind that. */
  function StepBack(l: Limit, key: string, back: int): seq<Call>
    requires l.max >= 0
  {
    var late := Max(l.window, back);
    Burst(key, l.max) + [Call(key, late)] + [Call(key, late - back)]
  }

  lemma LateCallForgetsBurst(l: Limit, key: string, late: int)
    requires l.max >= 2 && 1 <= l.window <= late
    ensures var calls := Burst(key, l.max) + [Call(key, late)];
            Stored(l, calls, key) == [late] && Admitted(l, calls, key) == Zeros(l.max) + [late]
  {
    BurstIsAdmitted(l, key, l.max);
    hide Stored, Admitted, Kept, Burst, Zeros;
    NextStored(l, Burst(key, l.max), Call(key, late));
    NextAdmitted(l, Burst(key, l.max), Call(key, late), key);
    KeptZeros(l.max, late - l.window);
  }

  /** For every limit of 2 or more and every step back, however small, one window gets max + 1 admissions. */
  lemma StepBackOverfills(l: Limit, key: string, back: int)
    requires l.max >= 2 && l.window >= 1 && back >= 1
    ensures |Within(Admitted(l, StepBack(l, key, back), key), -1, -1 + l.window)| == l.max + 1
  {
    hide Stored, Admitted, Kept, Within, Zeros, Burst;
    var late := Max(l.window, back);
    var calls, c := Burst(key, l.max) + [Call(key, late)], Call(key, late - back);
    LateCallForgetsBurst(l, key, late);
    KeptOfOne([late], c.now - l.window);
    NextAdmitted(l, calls, c, key);
    CountWithin(l.max, late, c.now, l.window);
  }

  lemma CountWithin(n: nat, late: int, early: int, window: int)
    requires 0 <= early < window <= late
    ensures |Within(Zeros(n) + [late] + [early], -1, -1 + window)| == n + 1
  {
    hide Within, Zeros;
    ZerosLength(n);
    WithinZeros(n, -1, -1 + window);
    WithinAppend(Zeros(n), late, -1, -1 + window);
    WithinAppend(Zeros(n) + [late], early, -1, -1 + window);
  }

  predicate Bounded(l: Limit, calls: seq<Call>, key: string, x: int) {
    |Within(Admitted(l, calls, key), x, x + l.window)| <= Max(0, l.max)
  }

  /** Whatever the calls and their clocks, no window of the key gets more than max admissions. */
  ghost predicate BoundsEveryClock(l: Limit) {
    forall calls, key, x :: Bounded(l, calls, key, x)
  }

  lemma SingleIsBounded(l: Limit, calls: seq<Call>, key: string, x: int)
    requires l.window >= 1 && l.max <= 1
    ensures Bounded(l, calls, key, x)
  {
    hide Admitted, Spaced;
    if l.max == 1 {
      SingleIsSpaced(l, calls, key);
      SpacedIsSparse(Admitted(l, calls, key), x, l.window);
    } else {
      NothingAdmitted(l, calls, key);
      NoneWithin([], x, x + l.window);
    }
  }

  /** Exactly the limits up to 1 need no clock that advances. */
  lemma BoundsEveryClockIff(l: Limit)
    requires l.window >= 1
    ensures BoundsEveryClock(l) <==> l.max <= 1
  {
    if l.max >= 2 {
      StepBackOverfills(l, "", 1);
      hide Admitted, Within, StepBack;
      assert !Bounded(l, StepBack(l, "", 1), "", -1);
    } else {
      hide Bounded;
      forall calls, key, x
        ensures Bounded(l, calls, key, x)
      {
        SingleIsBounded(l, calls, key, x);
      }
    }
  }

  // ---- the limiter object ----

  /** A slice header: its backing array, whose length is the capacity, and its length. */
  datatype Slice = Slice(data: array<int>, len: nat)

  method Compact(a: array<int>, n: nat, cutoff: int) returns (k: nat)
    requires n <= a.Length
    modifies a
    ensures k <= n && a[..k] == Kept(old(a[..n]), cutoff)
  {
    k := 0;
    ghost var times := a[..n];
    assert Kept(times[..0], cutoff) == [];
    hide Kept;
    for i := 0 to n
      invariant k <= i && |times| == n
      invariant forall j :: i <= j < n ==> a[j] == times[j]
      invariant a[..k] == Kept(times[..i], cutoff)
    {
      KeptNext(times, i, cutoff);
      var t := a[i];
      if t > cutoff {
        a[k] := t;
        k := k + 1;
        assert a[..k] == a[..k - 1] + [t];
      }
    }
    assert times[..n] == times;
  }

  lemma KeptNext(times: seq<int>, i: nat, cutoff: int)
    requires i < |times|
    ensures Kept(times[..i + 1], cutoff) ==
            if times[i] > cutoff then Kept(times[..i], cutoff) + [times[i]] else Kept(times[..i], cutoff)
  {
    hide Kept;
    assert times[..i + 1] == times[..i] + [times[i]];
    KeptAppend(times[..i], times[i], cutoff);
  }

  class SessionRateLimiter {
    const limit: Limit
    var events: map<string, Slice>
    ghost var calls: seq<Call>

    ghost function Arrays(): set<object>
      reads this
    {
      set k | k in events :: events[k].data as object
    }

    ghost predicate Separate()
      reads this
    {
      && (forall k :: k in events ==> events[k].len <= events[k].data.Length)
      && (forall j, k :: j in events && k in events && j != k ==> events[j].data != events[k].data)
    }

    /** Every key stores what the calls so far leave stored. */
    ghost predicate Valid()
      reads this, Arrays()
    {
      && Separate()
      && (forall k :: k in events ==> events[k].data[..events[k].len] == Stored(limit, calls, k))
      && (forall k :: k !in events ==> Stored(limit, calls, k) == [])
    }

    constructor (max: int, window: int)
      ensures Valid() && fresh(Arrays()) && calls == [] && limit == Limit(max, window)
    {
      limit := Limit(max, window);
      events := map[];
      calls := [];
    }

    /** `l.events[key]`: a missing key reads as an empty slice. */
    method Lookup(key: string) returns (times: Slice)
      requires Valid()
      ensures times.len <= times.data.Length && times.data[..times.len] == Stored(limit, calls, key)
      ensures if key in events then times == events[key] else fresh(times.data)
    {
      if key in events {
        return events[key];
      }
      var empty := new int[0];
      return Slice(empty, 0);
    }

    method Allow(key: string, now: int) returns (ok: bool)
      requires Valid()
      modifies this, Arrays()
      ensures Valid() && fresh(Arrays() - old(Arrays()))
      ensures calls == old(calls) + [Call(key, now)]
      ensures ok <==> Admits(limit, old(calls), Call(key, now))
    {
      hide Stored, Admitted, Kept;
      var times := Lookup(key);
      var kept;
      ok, kept := DecideFor(key, times, now);
      assert ok <==> Admits(limit, calls, Call(key, now));
      hide Admits;
      NextStored(limit, calls, Call(key, now));
      Store(key, kept, Call(key, now));
    }

    /** Only this key's array is touched. */
    method DecideFor(key: string, times: Slice, now: int) returns (ok: bool, kept: Slice)
      requires Separate() && times.len <= times.data.Length
      requires forall k :: k in events && k != key ==> events[k].data != times.data
      modifies times.data
      ensures kept.len <= kept.data.Length && (kept.data == times.data || fresh(kept.data))
      ensures forall k :: k in events && k != key ==>
                events[k].data != kept.data && events[k].data[..events[k].len] == old(events[k].data[..events[k].len])
      ensures var was := Kept(old(times.data[..times.len]), now - limit.window);
              && (ok <==> |was| < limit.max)
              && kept.data[..kept.len] == if ok then was + [now] else was
    {
      hide Kept;
      ok, kept := Decide(times, limit, now);
    }

    /** `l.events[key] = kept`. */
    method Store(key: string, kept: Slice, ghost c: Call)
      requires c.key == key && Separate() && kept.len <= kept.data.Length
      requires forall k :: k in events && k != key ==>
                 events[k].data != kept.data && events[k].data[..events[k].len] == Stored(limit, calls, k)
      requires forall k :: k !in events && k != key ==> Stored(limit, calls, k) == []
      requires kept.data[..kept.len] == Stored(limit, calls + [c], key)
      modifies this
      ensures Valid() && calls == old(calls) + [c] && events == old(events)[key := kept]
    {
      OtherKeys(limit, calls, c);
      hide Stored;
      events := events[key := kept];
      calls := calls + [c];
      assert Separate();
    }
  }

  /** Compaction and decision on one key's slice. */
  method Decide(times: Slice, l: Limit, now: int) returns (ok: bool, kept: Slice)
    requires times.len <= times.data.Length
    modifies times.data
    ensures kept.len <= kept.data.Length && (kept.data == times.data || fresh(kept.data))
    ensures var was := Kept(old(times.data[..times.len]), now - l.window);
            && (ok <==> |was| < l.max)
            && kept.data[..kept.len] == if ok then was + [now] else was
  {
    var k := Compact(times.data, times.len, now - l.window);
    kept := Slice(times.data, k);
    ok := k < l.max;
    if ok {
      kept := Append(kept, now);
    }
  }

  /** append: in place while the capacity lasts, otherwise into a larger array. */
  method Append(s: Slice, t: int) returns (r: Slice)
    requires s.len <= s.data.Length
    modifies s.data
    ensures r.len == s.len + 1 <= r.data.Length
    ensures r.data == s.data || fresh(r.data)
    ensures r.data[..r.len] == old(s.data[..s.len]) + [t]
  {
    if s.len < s.data.Length {
      s.data[s.len] := t;
      return Slice(s.data, s.len + 1);
    }
    var bigger := new int[2 * s.len + 1];
    forall i | 0 <= i < s.len {
      bigger[i] := s.data[i];
    }
    bigger[s.len] := t;
    return Slice(bigger, s.len + 1);
  }
}
