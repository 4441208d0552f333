/** The kernel-side trigger as it acts on one network namespace: a saturating
    connection counter, a debounce buffer and an armed/disarmed gate
    (autoscaler/conc_req_monitoring/bpf/conc_req_monitoring.c). */
module Trigger {
  import opened Prelude

  datatype Limits = Limits(lower: uint32, upper: uint32, bufferLength: uint32) {
    predicate Outside(sample: uint32) {
      sample <= lower || sample >= upper
    }

    predicate OnSide(sample: uint32, side: Side) {
      if side == Lower then sample <= lower else sample >= upper
    }

    /** The message of an event raised at this sample. */
    function SideOf(sample: uint32): Side {
      if sample <= lower then Lower else Upper
    }
  }

  datatype Side = Lower | Upper

  /** What the kernel maps hold for one namespace: `None` is a missing entry. */
  datatype Track = Track(valid: bool, count: Option<uint32>, buffer: Option<uint32>, gate: Option<uint32>) {
    /** Samples are buffered unless the scaling entry is 1. */
    predicate Armed() {
      valid && gate != Some(1)
    }

    function Buffered(): uint32 {
      buffer.GetOr(0)
    }
  }

  /** The 32-bit counter after one call. Every state but ESTABLISHED decrements, down to 0. */
  function Counted(count: uint32, established: bool): uint32 {
    if established then Next32(count)
    else if count > 0 then count - 1
    else 0
  }

  /** One probe call. A missing counter is created as 0 and only the local copy of it is
      counted up; `gateRoom` says whether the scaling map can take this namespace's entry. */
  function Probe(v: Track, lim: Limits, established: bool, gateRoom: bool): (Track, Option<Side>) {
    if !v.valid then (v, None)
    else
      var sample := Counted(v.count.GetOr(0), established);
      var counted := v.(count := if v.count.Some? then Some(sample) else Some(0));
      if v.gate == Some(1) then (counted, None)
      else
        var buffered := if lim.Outside(sample) then Next32(v.Buffered()) else 0;
        if buffered == lim.bufferLength then
          (counted.(buffer := Some(0), gate := if gateRoom then Some(1) else v.gate), Some(lim.SideOf(sample)))
        else
          (counted.(buffer := Some(buffered)), None)
  }

  // ----- the counter over a whole run -----

  /** The counter after a sequence of calls (`true` is ESTABLISHED), started at `c`. */
  function Counter(c: uint32, calls: seq<bool>): uint32 {
    if calls == [] then c else Counted(Counter(c, Front(calls)), Last(calls))
  }

  /** Increments minus decrements. */
  function Signed(calls: seq<bool>): int {
    if calls == [] then 0 else Signed(Front(calls)) + if Last(calls) then 1 else -1
  }

  /** The decrements that found the counter at 0. */
  function Clamped(c: uint32, calls: seq<bool>): nat {
    if calls == [] then 0
    else Clamped(c, Front(calls)) + if !Last(calls) && Counter(c, Front(calls)) == 0 then 1 else 0
  }

  /** `m` is the least of 0 and of every prefix sum, the start `c` included. */
  ghost predicate IsFloor(m: int, c: uint32, calls: seq<bool>) {
    && m <= 0
    && (forall k | 0 <= k <= |calls| :: m <= c + Signed(calls[..k]))
    && (m == 0 || exists k | 0 <= k <= |calls| :: m == c + Signed(calls[..k]))
  }

  /** No ESTABLISHED call meets a counter at 2^32 - 1. */
  ghost predicate NoWrap(c: uint32, calls: seq<bool>) {
    forall k | 0 <= k < |calls| :: calls[k] ==> Counter(c, calls[..k]) < TWO_TO_THE_32 - 1
  }

  lemma NoWrapFront(c: uint32, calls: seq<bool>)
    requires calls != [] && NoWrap(c, calls)
    ensures NoWrap(c, Front(calls))
    ensures Last(calls) ==> Counter(c, Front(calls)) < TWO_TO_THE_32 - 1
  {
    assert forall k | 0 <= k < |calls| :: Front(calls)[..k] == calls[..k];
  }

  /** Conservation: increments minus decrements plus clamped decrements. */
  lemma {:induction false} CounterConserves(c: uint32, calls: seq<bool>)
    requires NoWrap(c, calls)
    ensures Counter(c, calls) == c + Signed(calls) + Clamped(c, calls)
  {
    if calls != [] {
      NoWrapFront(c, calls);
      CounterConserves(c, Front(calls));
    }
  }

  /** ... and conversely: the books balance on every prefix exactly when nothing wraps. */
  lemma ConservedExactlyWithoutWrap(c: uint32, calls: seq<bool>)
    ensures NoWrap(c, calls) <==>
      forall k | 0 <= k <= |calls| :: Counter(c, calls[..k]) == c + Signed(calls[..k]) + Clamped(c, calls[..k])
  {
    if NoWrap(c, calls) {
      forall k | 0 <= k <= |calls| ensures Counter(c, calls[..k]) == c + Signed(calls[..k]) + Clamped(c, calls[..k]) {
        assert forall j | 0 <= j < k :: calls[..k][..j] == calls[..j];
        CounterConserves(c, calls[..k]);
      }
    } else {
      var k :| 0 <= k < |calls| && calls[k] && Counter(c, calls[..k]) >= TWO_TO_THE_32 - 1;
      assert Front(calls[..k + 1]) == calls[..k];
      assert Counter(c, calls[..k + 1]) == 0;
    }
  }

  /** The least of 0 and of the prefix sums. */
  function Floor(c: uint32, calls: seq<bool>): int {
    if calls == [] then 0
    else
      var f := Floor(c, Front(calls));
      if c + Signed(calls) < f then c + Signed(calls) else f
  }

  lemma {:induction false} FloorIsFloor(c: uint32, calls: seq<bool>)
    ensures IsFloor(Floor(c, calls), c, calls)
  {
    assert calls[..|calls|] == calls;
    if calls == [] {
      assert Signed(calls[..0]) == 0;
    } else {
      var front := Front(calls);
      FloorIsFloor(c, front);
      assert forall k | 0 <= k <= |front| :: front[..k] == calls[..k];
    }
  }

  lemma {:induction false} ClampedIsFloor(c: uint32, calls: seq<bool>)
    requires NoWrap(c, calls)
    ensures Clamped(c, calls) == -Floor(c, calls)
  {
    if calls != [] {
      NoWrapFront(c, calls);
      ClampedIsFloor(c, Front(calls));
      CounterConserves(c, Front(calls));
    }
  }

  /** Closed form: without wrap-around the counter is the signed run reflected at 0. */
  lemma CounterClosedForm(c: uint32, calls: seq<bool>, m: int)
    requires NoWrap(c, calls)
    requires IsFloor(m, c, calls)
    ensures Counter(c, calls) == c + Signed(calls) - m
    ensures Clamped(c, calls) == -m
  {
    FloorIsFloor(c, calls);
    CounterConserves(c, calls);
    ClampedIsFloor(c, calls);
  }

  // ----- one armed period -----

  /** The namespace after a sequence of calls. The scaling map has room. */
  function After(v: Track, lim: Limits, calls: seq<bool>): Track {
    if calls == [] then v else Probe(After(v, lim, Front(calls)), lim, Last(calls), true).0
  }

  /** The event raised by the last call, if any. */
  function Emitted(v: Track, lim: Limits, calls: seq<bool>): Option<Side>
    requires calls != []
  {
    Probe(After(v, lim, Front(calls)), lim, Last(calls), true).1
  }

  /** The state a fresh or re-armed namespace starts a period in. */
  ghost predicate PeriodStart(v: Track) {
    v.Armed() && v.count.Some? && v.Buffered() == 0
  }

  /** No call has raised an event yet. */
  ghost predicate Quiet(v: Track, lim: Limits, calls: seq<bool>) {
    forall n | 0 < n <= |calls| :: Emitted(v, lim, calls[..n]).None?
  }

  /** The n-th sample of the period. */
  function Sample(v: Track, calls: seq<bool>, n: nat): uint32
    requires v.count.Some? && n <= |calls|
  {
    Counter(v.count.value, calls[..n])
  }

  /** The last `k` samples are out of band. */
  ghost predicate OutsideFor(v: Track, lim: Limits, calls: seq<bool>, k: nat)
    requires v.count.Some?
  {
    k <= |calls| && forall n | |calls| - k < n <= |calls| :: lim.Outside(Sample(v, calls, n))
  }

  /** `k` is the length of the longest suffix of out-of-band samples. */
  ghost predicate Streak(v: Track, lim: Limits, calls: seq<bool>, k: nat)
    requires v.count.Some?
  {
    && OutsideFor(v, lim, calls, k)
    && (k < |calls| ==> !lim.Outside(Sample(v, calls, |calls| - k)))
  }

  lemma StreakUnique(v: Track, lim: Limits, calls: seq<bool>, j: nat, k: nat)
    requires v.count.Some? && Streak(v, lim, calls, j) && Streak(v, lim, calls, k)
    ensures j == k
  {
    assert j < |calls| ==> !lim.Outside(Sample(v, calls, |calls| - j));
    assert k < |calls| ==> !lim.Outside(Sample(v, calls, |calls| - k));
  }

  lemma OutsideStep(v: Track, lim: Limits, calls: seq<bool>, k: nat)
    requires v.count.Some? && calls != [] && OutsideFor(v, lim, Front(calls), k)
    requires lim.Outside(Counted(Counter(v.count.value, Front(calls)), Last(calls)))
    ensures OutsideFor(v, lim, calls, k + 1)
    ensures Sample(v, calls, |calls|) == Counted(Counter(v.count.value, Front(calls)), Last(calls))
  {
    assert calls[..|calls|] == calls;
    assert forall n | 0 <= n <= |Front(calls)| :: Front(calls)[..n] == calls[..n];
    assert forall n | 0 <= n <= |Front(calls)| :: Sample(v, Front(calls), n) == Sample(v, calls, n);
  }

  /** One more call extends the streak by one or ends it. */
  lemma StreakStep(v: Track, lim: Limits, calls: seq<bool>, k: nat)
    requires v.count.Some? && calls != [] && Streak(v, lim, Front(calls), k)
    ensures Streak(v, lim, calls, if lim.Outside(Sample(v, calls, |calls|)) then k + 1 else 0)
  {
    assert forall n | 0 <= n <= |Front(calls)| :: Front(calls)[..n] == calls[..n];
    assert forall n | 0 <= n <= |Front(calls)| :: Sample(v, Front(calls), n) == Sample(v, calls, n);
  }

  lemma QuietFront(v: Track, lim: Limits, calls: seq<bool>, n: nat)
    requires Quiet(v, lim, calls) && n <= |calls|
    ensures Quiet(v, lim, calls[..n])
  {
    assert forall i | 0 <= i <= n :: calls[..n][..i] == calls[..i];
  }

  /** While no event has been raised the buffer is the streak, below the buffer length. */
  lemma {:induction false} BufferIsStreak(v: Track, lim: Limits, calls: seq<bool>) returns (k: nat)
    requires PeriodStart(v) && lim.bufferLength >= 1 && Quiet(v, lim, calls)
    ensures Streak(v, lim, calls, k) && k < lim.bufferLength
    ensures After(v, lim, calls).Buffered() == k
    ensures After(v, lim, calls) ==
      v.(count := Some(Counter(v.count.value, calls)), buffer := After(v, lim, calls).buffer)
  {
    assert calls[..|calls|] == calls;
    if calls == [] {
      k := 0;
    } else {
      QuietFront(v, lim, calls, |calls| - 1);
      var j := BufferIsStreak(v, lim, Front(calls));
      StreakStep(v, lim, calls, j);
      k := if lim.Outside(Sample(v, calls, |calls|)) then j + 1 else 0;
    }
  }

  /** What the last call does to a period whose buffer holds `j`. */
  lemma LastCall(v: Track, lim: Limits, calls: seq<bool>, j: nat)
    requires PeriodStart(v) && calls != [] && j < lim.bufferLength
    requires var w := After(v, lim, Front(calls));
      w.Buffered() == j && w == v.(count := Some(Counter(v.count.value, Front(calls))), buffer := w.buffer)
    ensures Emitted(v, lim, calls).Some? <==> lim.Outside(Sample(v, calls, |calls|)) && j + 1 == lim.bufferLength
    ensures Emitted(v, lim, calls).Some? ==>
      && Emitted(v, lim, calls) == Some(lim.SideOf(Sample(v, calls, |calls|)))
      && After(v, lim, calls) == v.(count := Some(Sample(v, calls, |calls|)), buffer := Some(0), gate := Some(1))
  {
    assert calls[..|calls|] == calls;
  }

  /** Streak refinement. As long as no earlier call of the period raised an event, a call raises
      one exactly when the out-of-band streak reaches the buffer length; the event carries the
      side of the last sample, empties the buffer and disarms the namespace. */
  lemma StreakRefinement(v: Track, lim: Limits, calls: seq<bool>)
    requires PeriodStart(v) && lim.bufferLength >= 1
    requires calls != [] && Quiet(v, lim, Front(calls))
    ensures Emitted(v, lim, calls).Some? <==> Streak(v, lim, calls, lim.bufferLength)
    ensures Emitted(v, lim, calls).Some? ==>
      && Emitted(v, lim, calls) == Some(lim.SideOf(Sample(v, calls, |calls|)))
      && After(v, lim, calls) == v.(count := Some(Sample(v, calls, |calls|)), buffer := Some(0), gate := Some(1))
  {
    var j := BufferIsStreak(v, lim, Front(calls));
    LastCall(v, lim, calls, j);
    StreakStep(v, lim, calls, j);
    var k := if lim.Outside(Sample(v, calls, |calls|)) then j + 1 else 0;
    if Streak(v, lim, calls, lim.bufferLength) {
      StreakUnique(v, lim, calls, k, lim.bufferLength);
    }
  }

  // ----- events in the band -----

  /** A namespace just added that was never tracked before. */
  const FRESH: Track := Track(true, Some(0), None, Some(0))

  lemma {:induction false} AfterCounts(v: Track, lim: Limits, calls: seq<bool>)
    requires v.valid && v.count.Some?
    ensures After(v, lim, calls).valid && After(v, lim, calls).count == Some(Counter(v.count.value, calls))
  {
    if calls != [] {
      AfterCounts(v, lim, Front(calls));
    }
  }

  /** Nothing but ESTABLISHED calls, counting up from 0 to the lower limit, with a buffer length of 0. */
  lemma {:induction false} FreshRises(lim: Limits, n: nat)
    requires lim.bufferLength == 0 && n <= lim.lower
    ensures var w := After(FRESH, lim, seq(n, _ => true));
      w.valid && w.count == Some(n) && w.gate == Some(0) && w.Buffered() == n
  {
    var calls := seq(n, _ => true);
    if n > 0 {
      FreshRises(lim, n - 1);
      assert Front(calls) == seq(n - 1, _ => true);
    }
  }

  /** With a buffer length of 0 the debounce is inverted: the first in-band sample of a fresh
      namespace raises an event. */
  lemma ZeroBufferLengthFiresInBand(lim: Limits)
    requires lim.bufferLength == 0 && lim.upper >= lim.lower + 2
    ensures var calls := seq(lim.lower + 1, _ => true);
      && PeriodStart(FRESH) && calls != [] && Emitted(FRESH, lim, calls) == Some(Upper)
      && !lim.Outside(Sample(FRESH, calls, |calls|))
  {
    var calls := seq(lim.lower + 1, _ => true);
    FreshRises(lim, lim.lower);
    AfterCounts(FRESH, lim, Front(calls));
    assert Front(calls) == seq(lim.lower, _ => true);
    assert calls[..|calls|] == calls;
  }

  /** Exactly: every event of every period is raised at an out-of-band sample if and only if the
      buffer length is not 0 or the limits leave no band. */
  lemma EventsOutOfBandExactly(lim: Limits)
    ensures (lim.bufferLength >= 1 || lim.upper <= lim.lower + 1) <==>
      forall v: Track, calls: seq<bool> | PeriodStart(v) && calls != [] && Emitted(v, lim, calls).Some? ::
        lim.Outside(Sample(v, calls, |calls|))
  {
    if lim.bufferLength >= 1 || lim.upper <= lim.lower + 1 {
      forall v: Track, calls: seq<bool> | PeriodStart(v) && calls != [] && Emitted(v, lim, calls).Some?
        ensures lim.Outside(Sample(v, calls, |calls|))
      {
        AfterCounts(v, lim, Front(calls));
        assert calls[..|calls|] == calls;
      }
    } else {
      ZeroBufferLengthFiresInBand(lim);
    }
  }

  // ----- one-sided debounce -----

  /** The event raised by the last call of `calls` has all of its last `bufferLength` samples on its own side. */
  ghost predicate WindowOn(v: Track, lim: Limits, calls: seq<bool>, side: Side)
    requires v.count.Some? && lim.bufferLength <= |calls|
  {
    forall n | |calls| - lim.bufferLength < n <= |calls| ::
      lim.OnSide(Sample(v, calls, n), side)
  }

  /** A run of calls whose last one raises the first event of the period. */
  ghost predicate FirstEvent(v: Track, lim: Limits, calls: seq<bool>) {
    && PeriodStart(v) && calls != [] && Quiet(v, lim, Front(calls))
    && Emitted(v, lim, calls).Some? && NoWrap(v.count.value, calls)
  }

  lemma SampleStep(v: Track, calls: seq<bool>, n: nat)
    requires v.count.Some? && NoWrap(v.count.value, calls) && n < |calls|
    ensures Sample(v, calls, n) - 1 <= Sample(v, calls, n + 1) <= Sample(v, calls, n) + 1
  {
    assert Front(calls[..n + 1]) == calls[..n];
  }

  lemma {:induction false} WindowStaysOnSide(v: Track, lim: Limits, calls: seq<bool>, n: nat)
    requires v.count.Some? && NoWrap(v.count.value, calls) && lim.upper >= lim.lower + 2
    requires OutsideFor(v, lim, calls, lim.bufferLength) && |calls| - lim.bufferLength < n <= |calls|
    ensures lim.OnSide(Sample(v, calls, n), lim.SideOf(Sample(v, calls, |calls|)))
    decreases |calls| - n
  {
    if n < |calls| {
      WindowStaysOnSide(v, lim, calls, n + 1);
      SampleStep(v, calls, n);
    }
    assert lim.Outside(Sample(v, calls, n));
  }

  /** The limits that make every event one-sided: the band leaves a gap a step of 1 cannot jump,
      or the window is a single sample, or no sample can lie above the lower limit. */
  predicate SeparatesSides(lim: Limits) {
    lim.upper >= lim.lower + 2 || lim.bufferLength == 1 || lim.lower == TWO_TO_THE_32 - 1
  }

  /** A window of out-of-band samples lies on the side of its last sample. */
  lemma WindowIsOneSided(v: Track, lim: Limits, calls: seq<bool>)
    requires lim.bufferLength >= 1 && SeparatesSides(lim) && v.count.Some? && NoWrap(v.count.value, calls)
    requires OutsideFor(v, lim, calls, lim.bufferLength)
    ensures WindowOn(v, lim, calls, lim.SideOf(Sample(v, calls, |calls|)))
  {
    if lim.upper >= lim.lower + 2 {
      forall n | |calls| - lim.bufferLength < n <= |calls|
        ensures lim.OnSide(Sample(v, calls, n), lim.SideOf(Sample(v, calls, |calls|)))
      {
        WindowStaysOnSide(v, lim, calls, n);
      }
    } else {
      assert lim.Outside(Sample(v, calls, |calls|));
    }
  }

  /** One-sided debounce: although one buffer counts both sides together, an event's whole window
      is on the event's side. */
  lemma OneSidedDebounce(v: Track, lim: Limits, calls: seq<bool>)
    requires lim.bufferLength >= 1 && SeparatesSides(lim) && FirstEvent(v, lim, calls)
    ensures lim.bufferLength <= |calls| && WindowOn(v, lim, calls, Emitted(v, lim, calls).value)
  {
    StreakRefinement(v, lim, calls);
    WindowIsOneSided(v, lim, calls);
  }

  /** Calls that alternate sides: one ESTABLISHED just below the limits, then only decrements. */
  function Crossing(lim: Limits): seq<bool>
    requires lim.bufferLength >= 2
  {
    [true] + seq(lim.bufferLength - 1, _ => false)
  }

  lemma {:induction false} CrossingSamples(v: Track, lim: Limits, n: nat)
    requires v.count == Some(lim.lower) && lim.lower < TWO_TO_THE_32 - 1 && lim.bufferLength >= 2
    requires 1 <= n <= lim.bufferLength
    ensures Sample(v, Crossing(lim), n) == if n <= lim.lower + 2 then lim.lower + 2 - n else 0
  {
    var calls := Crossing(lim);
    assert Front(calls[..n]) == calls[..n - 1] && Last(calls[..n]) == (n == 1);
    assert Sample(v, calls, n) == Counted(Counter(lim.lower, calls[..n - 1]), n == 1);
    if n == 1 {
      assert calls[..0] == [] && Counter(lim.lower, calls[..0]) == lim.lower;
    } else {
      CrossingSamples(v, lim, n - 1);
    }
  }

  /** Otherwise a period that starts at the lower limit raises a "Lower" event whose window began above it. */
  lemma MixedWindow(v: Track, lim: Limits)
    requires lim.bufferLength >= 1 && !SeparatesSides(lim)
    requires PeriodStart(v) && v.count == Some(lim.lower)
    ensures FirstEvent(v, lim, Crossing(lim)) && Emitted(v, lim, Crossing(lim)) == Some(Lower)
    ensures !WindowOn(v, lim, Crossing(lim), Lower)
  {
    var calls := Crossing(lim);
    forall n | 1 <= n <= |calls| ensures lim.Outside(Sample(v, calls, n)) {
      CrossingSamples(v, lim, n);
    }
    CrossingSamples(v, lim, 1);
    CrossingSamples(v, lim, |calls|);
    assert calls[..0] == [] && calls[..|calls|] == calls;
    QuietWhileShort(v, lim, calls, |calls| - 1);
    StreakRefinement(v, lim, calls);
    assert Sample(v, calls, 1) > lim.lower;
  }

  /** A period shorter than the buffer length raises no event. */
  lemma {:induction false} QuietWhileShort(v: Track, lim: Limits, calls: seq<bool>, n: nat)
    requires PeriodStart(v) && n <= |calls| && n < lim.bufferLength
    ensures Quiet(v, lim, calls[..n])
  {
    if n > 0 {
      QuietWhileShort(v, lim, calls, n - 1);
      assert Front(calls[..n]) == calls[..n - 1];
      StreakRefinement(v, lim, calls[..n]);
      assert forall i | 0 <= i <= n - 1 :: calls[..n][..i] == calls[..n - 1][..i];
      assert calls[..n][..n] == calls[..n];
    }
  }

  /** Exactly: every first event of every period is one-sided if and only if the limits separate the sides. */
  lemma OneSidedExactly(lim: Limits)
    requires lim.bufferLength >= 1
    ensures SeparatesSides(lim) <==>
      forall v: Track, calls: seq<bool> | FirstEvent(v, lim, calls) ::
        lim.bufferLength <= |calls| && WindowOn(v, lim, calls, Emitted(v, lim, calls).value)
  {
    if SeparatesSides(lim) {
      forall v: Track, calls: seq<bool> | FirstEvent(v, lim, calls)
        ensures lim.bufferLength <= |calls| && WindowOn(v, lim, calls, Emitted(v, lim, calls).value)
      {
        OneSidedDebounce(v, lim, calls);
      }
    } else {
      var v := Track(true, Some(lim.lower), Some(0), Some(0));
      MixedWindow(v, lim);
    }
  }
}
