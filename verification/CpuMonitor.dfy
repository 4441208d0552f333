/** The CPU monitor of one container: a reading per tick, the usage since the last successful
    reading, and a scaling request when the utilisation leaves the band
    (autoscaler/cgroup_monitoring/cgroup_monitoring.go). */
module CpuMonitor {
  import opened Prelude
  import opened Server

  const MIN_INT64: int := -0x8000_0000_0000_0000

  predicate IsInt64(x: int) {
    MIN_INT64 <= x < -MIN_INT64
  }

  /** 64-bit subtraction. */
  function Delta(current: int, last: int): int {
    var d := current - last;
    if d < MIN_INT64 then d + TWO_TO_THE_64
    else if d >= -MIN_INT64 then d - TWO_TO_THE_64
    else d
  }

  /** What one tick finds: the usage reading, and whether the container's service can be looked up. */
  datatype Tick = Tick(read: Result<int, string>, serviceKnown: bool)

  datatype Limits = Limits(lower: real, upper: real, period: real)

  /** Percent of one CPU; the reading is in microseconds, the period in seconds. */
  function Utilization(delta: int, lim: Limits): real
    requires lim.period > 0.0
  {
    delta as real / lim.period / 1000000.0 * 100.0
  }

  function ScalingDirection(current: real, lower: real, upper: real): string {
    if current > upper then "over" else if current < lower then "under" else ""
  }

  /** `delta` microseconds in one period are more than `percent` of one CPU. */
  predicate UsesMore(delta: int, percent: real, period: real) {
    100.0 * delta as real > percent * period * 1000000.0
  }

  /** They are less. */
  predicate UsesLess(delta: int, percent: real, period: real) {
    100.0 * delta as real < percent * period * 1000000.0
  }

  /** A usage above the upper limit asks for more replicas, one below the lower limit for fewer. */
  lemma DirectionByUsage(delta: int, lim: Limits)
    requires lim.period > 0.0
    ensures ScalingDirection(Utilization(delta, lim), lim.lower, lim.upper) ==
      if UsesMore(delta, lim.upper, lim.period) then "over"
      else if UsesLess(delta, lim.lower, lim.period) then "under" else ""
  {
    UtilizationCompares(delta, lim, lim.upper);
    UtilizationCompares(delta, lim, lim.lower);
  }

  lemma UtilizationCompares(delta: int, lim: Limits, percent: real)
    requires lim.period > 0.0
    ensures Utilization(delta, lim) > percent <==> UsesMore(delta, percent, lim.period)
    ensures Utilization(delta, lim) < percent <==> UsesLess(delta, percent, lim.period)
  {
    var d, u := delta as real, Utilization(delta, lim);
    var unit := lim.period * 1000000.0;
    var q := d / lim.period;
    assert q * lim.period == d;
    assert u * 10000.0 == q;
    assert u * unit == 100.0 * d by { assert u * unit == u * 10000.0 * lim.period * 100.0; }
    MultiplyKeepsOrder(u, percent, unit);
    assert percent * unit == percent * lim.period * 1000000.0;
  }

  lemma MultiplyKeepsOrder(a: real, b: real, unit: real)
    requires unit > 0.0
    ensures a > b <==> a * unit > b * unit
    ensures a < b <==> a * unit < b * unit
  {
  }

  /** Each usage with the direction decided from it. */
  ghost predicate Decided(deltas: seq<int>, directions: seq<string>, lim: Limits) {
    && |directions| == |deltas|
    && forall i | 0 <= i < |deltas| ::
      directions[i] ==
        if UsesMore(deltas[i], lim.upper, lim.period) then "over"
        else if UsesLess(deltas[i], lim.lower, lim.period) then "under" else ""
  }

  /** On a worker a request needs the manager's address and the service; without them the monitor returns. */
  predicate Returns(info: SwarmNodeInfo, lim: Limits, delta: int, tick: Tick)
    requires lim.period > 0.0
  {
    && ScalingDirection(Utilization(delta, lim), lim.lower, lim.upper) != "" && !info.autoscalerManager
    && !((exists i | 0 <= i < |info.otherNodes| :: info.otherNodes[i].manager) && tick.serviceKnown)
  }

  /** The ticks up to the one at which the monitor returns, that one included. */
  function Handled(last: int, ticks: seq<Tick>, info: SwarmNodeInfo, lim: Limits): seq<Tick>
    requires lim.period > 0.0
    decreases |ticks|
  {
    if ticks == [] then []
    else if ticks[0].read.Err? then [ticks[0]] + Handled(last, ticks[1..], info, lim)
    else if Returns(info, lim, Delta(ticks[0].read.value, last), ticks[0]) then [ticks[0]]
    else [ticks[0]] + Handled(ticks[0].read.value, ticks[1..], info, lim)
  }

  /** The usages fed to the utilisation formula. */
  function Deltas(last: int, ticks: seq<Tick>): seq<int>
    decreases |ticks|
  {
    if ticks == [] then []
    else if ticks[0].read.Err? then Deltas(last, ticks[1..])
    else [Delta(ticks[0].read.value, last)] + Deltas(ticks[0].read.value, ticks[1..])
  }

  /** The last successful reading. */
  function LastRead(last: int, ticks: seq<Tick>): int
    decreases |ticks|
  {
    if ticks == [] then last
    else LastRead(if ticks[0].read.Ok? then ticks[0].read.value else last, ticks[1..])
  }

  function Sum(xs: seq<int>): int {
    if xs == [] then 0 else xs[0] + Sum(xs[1..])
  }

  /** The monitor's loop. `deltas` is what it computed utilisations from. */
  method Monitor(initial: Result<int, string>, ticks: seq<Tick>, info: SwarmNodeInfo, lim: Limits)
    returns (deltas: seq<int>, directions: seq<string>)
    requires lim.period > 0.0
    ensures initial.Err? ==> deltas == [] && directions == []
    ensures initial.Ok? ==> deltas == Deltas(initial.value, Handled(initial.value, ticks, info, lim))
    ensures Decided(deltas, directions, lim)
  {
    deltas, directions := [], [];
    if initial.Err? {
      return;
    }
    var lastUsageUsec := initial.value;
    ghost var all := Deltas(initial.value, Handled(initial.value, ticks, info, lim));
    for i := 0 to |ticks|
      invariant all == deltas + Deltas(lastUsageUsec, Handled(lastUsageUsec, ticks[i..], info, lim))
      invariant Decided(deltas, directions, lim)
    {
      ghost var rest := ticks[i..];
      assert rest[1..] == ticks[i + 1..];
      if ticks[i].read.Err? {
        continue;
      }
      var currentUsageUsec := ticks[i].read.value;
      var usageDeltaUsec := Delta(currentUsageUsec, lastUsageUsec);
      var direction := ScalingDirection(Utilization(usageDeltaUsec, lim), lim.lower, lim.upper);
      DeltasOfHandled(lastUsageUsec, rest, info, lim);
      DirectionByUsage(usageDeltaUsec, lim);
      deltas, directions := deltas + [usageDeltaUsec], directions + [direction];
      if direction != "" && !info.autoscalerManager {
        var manager := GetManagerNode(info.otherNodes);
        if manager.Err? || !ticks[i].serviceKnown {
          return;
        }
      }
      lastUsageUsec := currentUsageUsec;
    }
  }

  lemma DeltasOfHandled(last: int, ticks: seq<Tick>, info: SwarmNodeInfo, lim: Limits)
    requires lim.period > 0.0 && ticks != [] && ticks[0].read.Ok?
    ensures var current := ticks[0].read.value;
      Deltas(last, Handled(last, ticks, info, lim)) ==
        [Delta(current, last)] +
        if Returns(info, lim, Delta(current, last), ticks[0]) then []
        else Deltas(current, Handled(current, ticks[1..], info, lim))
  {
    var h := Handled(last, ticks, info, lim);
    assert h[1..] == if Returns(info, lim, Delta(ticks[0].read.value, last), ticks[0]) then []
                     else Handled(ticks[0].read.value, ticks[1..], info, lim);
  }

  // ----- what the usages are, and where the monitor stops -----

  /** The usage is the difference of two readings, wrapped to 64 bits. */
  lemma DeltaWraps(current: int, last: int)
    requires IsInt64(current) && IsInt64(last)
    ensures IsInt64(Delta(current, last))
    ensures exists k | -1 <= k <= 1 :: Delta(current, last) == current - last + k * 0x1_0000_0000_0000_0000
  {
    var k := if current - last < MIN_INT64 then 1 else if current - last >= -MIN_INT64 then -1 else 0;
    assert Delta(current, last) == current - last + k * 0x1_0000_0000_0000_0000;
  }

  /** The readings of the successful ticks. */
  function Readings(ticks: seq<Tick>): seq<int> {
    if ticks == [] then []
    else Readings(Front(ticks)) + if Last(ticks).read.Ok? then [Last(ticks).read.value] else []
  }

  lemma {:induction false} ReadingsFromFront(ticks: seq<Tick>)
    requires ticks != []
    ensures Readings(ticks) == (if ticks[0].read.Ok? then [ticks[0].read.value] else []) + Readings(ticks[1..])
  {
    if |ticks| > 1 {
      ReadingsFromFront(Front(ticks));
      assert Front(ticks)[1..] == Front(ticks[1..]) && Last(ticks[1..]) == Last(ticks);
    } else {
      assert Front(ticks) == [] && ticks[1..] == [];
    }
  }

  /** There is one usage per successful tick, from the reading before it; a failed tick gives none. */
  lemma {:induction false} UsagesAreDifferences(last: int, ticks: seq<Tick>, i: nat)
    ensures |Deltas(last, ticks)| == |Readings(ticks)|
    ensures i < |Readings(ticks)| ==>
      Deltas(last, ticks)[i] == Delta(Readings(ticks)[i], if i == 0 then last else Readings(ticks)[i - 1])
    decreases |ticks|
  {
    if ticks != [] {
      ReadingsFromFront(ticks);
      if ticks[0].read.Err? {
        UsagesAreDifferences(last, ticks[1..], i);
      } else {
        UsagesAreDifferences(ticks[0].read.value, ticks[1..], if i == 0 then 0 else i - 1);
      }
    }
  }

  /** The reading the usage of tick `j` counts from: the latest successful one before it. */
  function Before(initial: int, ticks: seq<Tick>, j: nat): int
    requires j <= |ticks|
  {
    if j == 0 then initial
    else if ticks[j - 1].read.Ok? then ticks[j - 1].read.value
    else Before(initial, ticks, j - 1)
  }

  /** A worker's monitor stops at a successful tick outside the band if it finds no manager or cannot
      look its service up. */
  ghost predicate StopsAt(initial: int, ticks: seq<Tick>, j: nat, info: SwarmNodeInfo, lim: Limits)
    requires j < |ticks|
  {
    && ticks[j].read.Ok?
    && var delta := Delta(ticks[j].read.value, Before(initial, ticks, j));
    && (UsesMore(delta, lim.upper, lim.period) || UsesLess(delta, lim.lower, lim.period))
    && !info.autoscalerManager
    && ((forall i | 0 <= i < |info.otherNodes| :: !info.otherNodes[i].manager) || !ticks[j].serviceKnown)
  }

  /** The monitor handles all ticks up to the first at which it stops, or all. */
  lemma {:induction false} HandlesUpToFirstStop(initial: int, ticks: seq<Tick>, info: SwarmNodeInfo, lim: Limits)
    requires lim.period > 0.0
    ensures var k := |Handled(initial, ticks, info, lim)|;
      && k <= |ticks| && Handled(initial, ticks, info, lim) == ticks[..k]
      && (forall j | 0 <= j < k - 1 :: !StopsAt(initial, ticks, j, info, lim))
      && (k < |ticks| ==> k > 0 && StopsAt(initial, ticks, k - 1, info, lim))
    decreases |ticks|
  {
    if ticks != [] {
      var next := if ticks[0].read.Ok? then ticks[0].read.value else initial;
      var rest := ticks[1..];
      HandlesUpToFirstStop(next, rest, info, lim);
      if ticks[0].read.Ok? { DirectionByUsage(Delta(ticks[0].read.value, initial), lim); }
      forall j | 1 <= j < |ticks|
        ensures StopsAt(initial, ticks, j, info, lim) <==> StopsAt(next, rest, j - 1, info, lim)
      {
        BeforeShift(initial, ticks, j - 1);
      }
      assert StopsAt(initial, ticks, 0, info, lim) <==>
        ticks[0].read.Ok? && Returns(info, lim, Delta(ticks[0].read.value, initial), ticks[0]);
      var k := |Handled(initial, ticks, info, lim)|;
      forall j | 0 <= j < k - 1 ensures !StopsAt(initial, ticks, j, info, lim) {
        if j > 0 { assert !StopsAt(next, rest, j - 1, info, lim); }
      }
    }
  }

  lemma {:induction false} BeforeShift(initial: int, ticks: seq<Tick>, j: nat)
    requires j < |ticks|
    ensures Before(initial, ticks, j + 1) ==
      Before(if ticks[0].read.Ok? then ticks[0].read.value else initial, ticks[1..], j)
  {
    if j > 0 { BeforeShift(initial, ticks, j - 1); }
  }

  /** Usage counters are never negative. */
  predicate NonNegative(ticks: seq<Tick>) {
    forall i | 0 <= i < |ticks| :: ticks[i].read.Ok? ==> ticks[i].read.value >= 0 && IsInt64(ticks[i].read.value)
  }

  /** CPU time is attributed once: over any mix of failed and successful ticks the usages add up to
      the last successful reading minus the first. */
  lemma {:induction false} UsageAttributedOnce(last: int, ticks: seq<Tick>)
    requires 0 <= last && IsInt64(last) && NonNegative(ticks)
    ensures Sum(Deltas(last, ticks)) == LastRead(last, ticks) - last
    decreases |ticks|
  {
    if ticks != [] {
      UsageAttributedOnce(if ticks[0].read.Ok? then ticks[0].read.value else last, ticks[1..]);
      if ticks[0].read.Ok? {
        var ds := Deltas(last, ticks);
        assert ds[1..] == Deltas(ticks[0].read.value, ticks[1..]);
      }
    }
  }

  /** For readings of any sign the usages add up modulo 2^64. */
  lemma {:induction false} UsageAttributedModulo(last: int, ticks: seq<Tick>) returns (wraps: int)
    ensures Sum(Deltas(last, ticks)) == LastRead(last, ticks) - last + wraps * TWO_TO_THE_64
    decreases |ticks|
  {
    if ticks == [] {
      wraps := 0;
    } else if ticks[0].read.Err? {
      wraps := UsageAttributedModulo(last, ticks[1..]);
    } else {
      var current := ticks[0].read.value;
      var ds, d := Deltas(last, ticks), Delta(current, last);
      wraps := UsageAttributedModulo(current, ticks[1..]);
      assert ds[1..] == Deltas(current, ticks[1..]);
      wraps := wraps + if d < current - last then -1 else if d > current - last then 1 else 0;
    }
  }

  /** The monitor as a whole, for the ticks it handles. */
  lemma MonitorAttributesOnce(initial: int, ticks: seq<Tick>, info: SwarmNodeInfo, lim: Limits)
    requires lim.period > 0.0 && 0 <= initial && IsInt64(initial) && NonNegative(ticks)
    ensures var handled := Handled(initial, ticks, info, lim);
      handled <= ticks && Sum(Deltas(initial, handled)) == LastRead(initial, handled) - initial
  {
    HandledIsPrefix(initial, ticks, info, lim);
    UsageAttributedOnce(initial, Handled(initial, ticks, info, lim));
  }

  lemma {:induction false} HandledIsPrefix(last: int, ticks: seq<Tick>, info: SwarmNodeInfo, lim: Limits)
    requires lim.period > 0.0
    ensures Handled(last, ticks, info, lim) <= ticks
    decreases |ticks|
  {
    if ticks != [] {
      HandledIsPrefix(if ticks[0].read.Ok? then ticks[0].read.value else last, ticks[1..], info, lim);
      assert ticks == [ticks[0]] + ticks[1..];
    }
  }
}
