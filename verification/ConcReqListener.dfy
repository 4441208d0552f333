/** The eBPF program and the Go listener that shares its maps, step by step on the maps themselves
    (autoscaler/conc_req_monitoring/bpf/conc_req_monitoring.c,
    autoscaler/conc_req_monitoring/conc_req_monitoring.go). */
module ConcReqListener {
  import opened Prelude
  import opened Trigger
  import opened KernelTables

  const TCP_ESTABLISHED: uint8 := 1
  const TCP_CLOSE: uint8 := 7
  const TCP_CLOSE_WAIT: uint8 := 8
  const TCP_LAST_ACK: uint8 := 9

  datatype Event = Event(netns: uint32, side: Side)

  /** The perf output after a probe that raised `side`, if anything. */
  function Output(events: seq<Event>, netns: uint32, side: Option<Side>): seq<Event> {
    match side
    case None => events
    case Some(x) => events + [Event(netns, x)]
  }

  /** Conversion of a configured limit to the 32-bit map value. */
  function Truncated(x: int): uint32 {
    x % TWO_TO_THE_32
  }

  function ConfiguredLimits(lower: int, upper: int, bufferLength: int): Limits {
    Limits(Truncated(lower), Truncated(upper), Truncated(bufferLength))
  }

  /** Each configured number that fits 32 bits reaches its own constant as it is; any other one is
      congruent to its constant modulo 2^32. */
  lemma ConfiguredLimitsReach(lower: int, upper: int, bufferLength: int)
    ensures var lim := ConfiguredLimits(lower, upper, bufferLength);
      && (0 <= lower < 0x1_0000_0000 ==> lim.lower == lower)
      && (0 <= upper < 0x1_0000_0000 ==> lim.upper == upper)
      && (0 <= bufferLength < 0x1_0000_0000 ==> lim.bufferLength == bufferLength)
      && (lower - lim.lower) % 0x1_0000_0000 == 0 && (upper - lim.upper) % 0x1_0000_0000 == 0
      && (bufferLength - lim.bufferLength) % 0x1_0000_0000 == 0
  {
    TruncatedIsCongruent(lower);
    TruncatedIsCongruent(upper);
    TruncatedIsCongruent(bufferLength);
  }

  lemma TruncatedIsCongruent(x: int)
    ensures (x - Truncated(x)) % 0x1_0000_0000 == 0 && (0 <= x < 0x1_0000_0000 ==> Truncated(x) == x)
  {
    assert x - x % TWO_TO_THE_32 == x / TWO_TO_THE_32 * TWO_TO_THE_32;
  }

  /** The debounce in the configured numbers. As long as no earlier call of the period raised an event,
      a call raises one exactly when the last `bufferLength` samples are each at most the lower or at
      least the upper limit; it says "Lower" exactly if the last of them is at most the lower limit. */
  lemma ConfiguredDebounce(lower: int, upper: int, bufferLength: int, v: Track, calls: seq<bool>)
    requires 0 <= lower < 0x1_0000_0000 && 0 <= upper < 0x1_0000_0000 && 1 <= bufferLength < 0x1_0000_0000
    requires PeriodStart(v) && calls != [] && Quiet(v, ConfiguredLimits(lower, upper, bufferLength), Front(calls))
    ensures var event := Emitted(v, ConfiguredLimits(lower, upper, bufferLength), calls);
      && (event.Some? <==>
          (bufferLength <= |calls| && forall n | |calls| - bufferLength < n <= |calls| ::
            Sample(v, calls, n) <= lower || Sample(v, calls, n) >= upper))
      && (event.Some? ==> event == Some(if Sample(v, calls, |calls|) <= lower then Lower else Upper))
  {
    var lim := ConfiguredLimits(lower, upper, bufferLength);
    ConfiguredLimitsReach(lower, upper, bufferLength);
    StreakRefinement(v, lim, calls);
    var j := BufferIsStreak(v, lim, Front(calls));
    StreakStep(v, lim, calls, j);
    var k := if lim.Outside(Sample(v, calls, |calls|)) then j + 1 else 0;
    assert k < |calls| ==> !lim.Outside(Sample(v, calls, |calls| - k));
    assert OutsideFor(v, lim, calls, bufferLength) <==> Streak(v, lim, calls, bufferLength);
  }

  // ----- from the event to the scaling request -----

  /** The message of an event as it leaves the kernel: six bytes, the last one zero. */
  function Message(side: Side): string {
    (if side == Lower then "Lower" else "Upper") + "\0"
  }

  /** strings.Trim for zero bytes. */
  function Trimmed(s: string): string {
    if s == "" then s
    else if s[0] == '\0' then Trimmed(s[1..])
    else if Last(s) == '\0' then Trimmed(Front(s))
    else s
  }

  /** The direction a Monitor asks for on a signal; "" is printed as invalid and asked for all the same. */
  function SignalDirection(threshold: string): string {
    if threshold == "Lower" then "under" else if threshold == "Upper" then "over" else ""
  }

  /** An event on the low side asks for fewer replicas, one on the high side for more. */
  lemma EventAsks(side: Side)
    ensures SignalDirection(Trimmed(Message(side))) == match side case Lower => "under" case Upper => "over"
    ensures |Message(side)| == 6
  {
    var text := if side == Lower then "Lower" else "Upper";
    assert Last(Message(side)) == '\0' && Front(Message(side)) == text && Last(text) == 'r';
    assert Trimmed(text) == text;
  }

  /** From the samples to the request: the first event of a period asks `under` exactly if the sample
      that raised it is at most the configured lower limit, else `over`. */
  lemma SamplesAsk(lower: int, upper: int, bufferLength: int, v: Track, calls: seq<bool>)
    requires 0 <= lower < 0x1_0000_0000 && 0 <= upper < 0x1_0000_0000 && 1 <= bufferLength < 0x1_0000_0000
    requires PeriodStart(v) && calls != [] && Quiet(v, ConfiguredLimits(lower, upper, bufferLength), Front(calls))
    requires Emitted(v, ConfiguredLimits(lower, upper, bufferLength), calls).Some?
    ensures var side := Emitted(v, ConfiguredLimits(lower, upper, bufferLength), calls).value;
      var asked, sample := SignalDirection(Trimmed(Message(side))), Sample(v, calls, |calls|);
      && asked == (if sample <= lower then "under" else "over")
      && (asked == "over" ==> sample >= upper)
  {
    ConfiguredDebounce(lower, upper, bufferLength, v, calls);
    EventAsks(Emitted(v, ConfiguredLimits(lower, upper, bufferLength), calls).value);
  }

  /** A lower limit left at its default of -1 becomes 2^32 - 1, so every event says "Lower";
      an upper limit left at -1 is never reached unless the counter saturates. */
  lemma UnsetLimits(lower: int, upper: int, bufferLength: int, sample: uint32)
    ensures lower == -1 ==>
      var lim := ConfiguredLimits(lower, upper, bufferLength); lim.Outside(sample) && lim.SideOf(sample) == Lower
    ensures upper == -1 && sample < TWO_TO_THE_32 - 1 ==>
      var lim := ConfiguredLimits(lower, upper, bufferLength); lim.Outside(sample) ==> lim.SideOf(sample) == Lower
  {
    assert Truncated(-1) == TWO_TO_THE_32 - 1;
  }

  class BpfListener {
    var connCountMap: map<uint32, uint32>
    var constantsMap: map<uint32, uint32>
    var bufferMap: map<uint32, uint32>
    var scalingMap: map<uint32, uint32>
    var validNetnsMap: map<uint32, uint32>
    /** Everything output to the perf ring so far. */
    var events: seq<Event>
    /** The process has ended through log.Fatalf. */
    var exited: bool

    ghost function State(): Tables
      reads this
    {
      Tables(connCountMap, bufferMap, scalingMap, validNetnsMap.Keys, exited)
    }

    ghost predicate Valid()
      reads this
    {
      WellFormed(State())
    }

    ghost predicate Configured()
      reads this
    {
      0 in constantsMap && 1 in constantsMap && 2 in constantsMap
    }

    ghost function Lim(): Limits
      requires Configured()
      reads this
    {
      Limits(constantsMap[0], constantsMap[1], constantsMap[2])
    }

    constructor (lower: int, upper: int, bufferLength: int)
      ensures Valid() && Configured() && Lim() == ConfiguredLimits(lower, upper, bufferLength)
      ensures State() == Tables(map[], map[], map[], {}, false) && events == []
    {
      connCountMap, bufferMap, scalingMap, validNetnsMap := map[], map[], map[], map[];
      constantsMap := map[0 := Truncated(lower), 1 := Truncated(upper), 2 := Truncated(bufferLength)];
      events, exited := [], false;
    }

    /** One tcp_recvmsg call in namespace `netns` on a socket in TCP state `state`; 1 is ESTABLISHED. */
    method KprobeTcpRecvmsg(netns: uint32, state: uint8)
      requires Valid()
      modifies this`connCountMap, this`bufferMap, this`scalingMap, this`events
      ensures Valid()
      ensures Configured() ==>
        var (t, side) := ProbeTables(old(State()), Lim(), netns, state == 1);
        && State() == t
        && events == old(events) + if side.Some? then [Event(netns, side.value)] else []
      ensures !Configured() ==> State() == old(State()) && events == old(events)
    {
      if netns !in validNetnsMap {
        if Configured() { InvalidIsIgnored(State(), Lim(), netns, state == TCP_ESTABLISHED); }
        return;
      }
      if !(0 in constantsMap && 1 in constantsMap && 2 in constantsMap) {
        return;
      }
      TrackedCall(netns, state);
    }

    /** The rest of the program, for a tracked namespace. */
    method TrackedCall(netns: uint32, state: uint8)
      requires Valid() && Configured() && netns in validNetnsMap
      modifies this`connCountMap, this`bufferMap, this`scalingMap, this`events
      ensures Valid()
      ensures State() == ProbeTables(old(State()), Lim(), netns, state == TCP_ESTABLISHED).0
      ensures events == Output(old(events), netns, ProbeTables(old(State()), Lim(), netns, state == TCP_ESTABLISHED).1)
    {
      ProbeByMaps(State(), Lim(), netns, state == TCP_ESTABLISHED);
      ProbeKeepsWellFormed(State(), Lim(), netns, state == TCP_ESTABLISHED);
      ValidHasRoom(State(), netns);
      CountAndDebounce(netns, state);
    }

    /** What a tracked call does, map by map: it counts, then, unless disarmed, debounces. */
    method CountAndDebounce(netns: uint32, state: uint8)
      requires Configured() && Room(connCountMap, netns) && Room(bufferMap, netns)
      modifies this`connCountMap, this`bufferMap, this`scalingMap, this`events
      ensures var sample := Counted(Lookup(old(connCountMap), netns).GetOr(0), state == TCP_ESTABLISHED);
        var (buffers, gates, side) :=
          if Lookup(old(scalingMap), netns) == Some(1) then (old(bufferMap), old(scalingMap), None)
          else Debounced(old(bufferMap), old(scalingMap), Lim(), netns, sample);
        && connCountMap == old(connCountMap)[netns := if netns in old(connCountMap) then sample else 0]
        && bufferMap == buffers && scalingMap == gates && events == Output(old(events), netns, side)
    {
      var newValue := CountCall(netns, state);
      if !(netns in scalingMap && scalingMap[netns] == 1) {
        Debounce(netns, newValue);
      }
    }

    /** The counting half of the probe: `count` is a pointer, into the map or to a local zero when
        the entry had to be created. */
    method CountCall(netns: uint32, state: uint8) returns (newValue: uint32)
      requires Room(connCountMap, netns)
      modifies this`connCountMap
      ensures newValue == Counted(Lookup(old(connCountMap), netns).GetOr(0), state == TCP_ESTABLISHED)
      ensures connCountMap == old(connCountMap)[netns := if netns in old(connCountMap) then newValue else 0]
    {
      var inMap := netns in connCountMap;
      var count: uint32 := 0;
      if inMap {
        count := connCountMap[netns];
      } else {
        connCountMap := Put(connCountMap, netns, 0);
      }
      newValue := 0;
      if state == TCP_ESTABLISHED {
        count := Next32(count);
        newValue := count;
      } else if state == TCP_CLOSE || state == TCP_CLOSE_WAIT || TCP_LAST_ACK != 0 {
        // The last disjunct does not mention the state, so the test always holds.
        if count > 0 {
          count := count - 1;
          newValue := count;
        }
      }
      if inMap {
        connCountMap := connCountMap[netns := count];
      }
    }

    /** The debounce half of the probe, for a namespace that is armed. */
    method Debounce(netns: uint32, newValue: uint32)
      requires Configured() && Room(bufferMap, netns)
      modifies this`bufferMap, this`scalingMap, this`events
      ensures var (buffers, gates, side) := Debounced(old(bufferMap), old(scalingMap), Lim(), netns, newValue);
        && bufferMap == buffers && scalingMap == gates
        && events == Output(old(events), netns, side)
    {
      var lowerLimit, bufferLength := constantsMap[0], constantsMap[2];
      var buffer := BufferSample(netns, newValue);
      if buffer == bufferLength {
        scalingMap := Put(scalingMap, netns, 1);
        var message := if newValue <= lowerLimit then Lower else Upper;
        events := events + [Event(netns, message)];
        bufferMap := Put(bufferMap, netns, 0);
      }
    }

    /** `buffer` is a pointer into the map, or to a local zero when the entry had to be created;
        either way it is written back. */
    method BufferSample(netns: uint32, newValue: uint32) returns (buffer: uint32)
      requires Configured() && Room(bufferMap, netns)
      modifies this`bufferMap
      ensures buffer == if Lim().Outside(newValue) then Next32(Lookup(old(bufferMap), netns).GetOr(0)) else 0
      ensures bufferMap == old(bufferMap)[netns := buffer]
    {
      var lowerLimit, upperLimit := constantsMap[0], constantsMap[1];
      buffer := 0;
      if netns in bufferMap {
        buffer := bufferMap[netns];
      } else {
        bufferMap := Put(bufferMap, netns, 0);
      }
      if newValue <= lowerLimit || newValue >= upperLimit {
        buffer := Next32(buffer);
      } else {
        buffer := 0;
      }
      bufferMap := Put(bufferMap, netns, buffer);
    }

    method AddNamespace(netns: uint32)
      requires Valid() && !exited
      modifies this`connCountMap, this`validNetnsMap, this`scalingMap, this`exited
      ensures exited <==> AddTables(old(State()), netns).exited
      ensures !exited ==> State() == AddTables(old(State()), netns) && Valid()
    {
      AddByMaps(State(), netns);
      PutNamespace(netns);
    }

    /** The puts of addNamespace, map by map. */
    method PutNamespace(netns: uint32)
      requires !exited
      modifies this`connCountMap, this`validNetnsMap, this`scalingMap, this`exited
      ensures exited <==>
        !(Room(old(connCountMap), netns) &&
          (netns in old(validNetnsMap).Keys || |old(validNetnsMap).Keys| < MAX_ENTRIES))
      ensures !exited ==>
        && connCountMap == old(connCountMap)[netns := 0]
        && validNetnsMap.Keys == old(validNetnsMap).Keys + {netns}
        && scalingMap == Put(old(scalingMap), netns, 0)
    {
      assert |validNetnsMap.Keys| == |validNetnsMap|;
      if !Room(connCountMap, netns) {
        exited := true;
        return;
      }
      connCountMap := connCountMap[netns := 0];
      if !Room(validNetnsMap, netns) {
        exited := true;
        return;
      }
      validNetnsMap := validNetnsMap[netns := 1];
      AddNamespaceToScalingMap(netns);
    }

    /** A failed update is only reported. */
    method AddNamespaceToScalingMap(netns: uint32)
      modifies this`scalingMap
      ensures State() == RearmTables(old(State()), netns)
      ensures scalingMap == Put(old(scalingMap), netns, 0)
    {
      RearmByMaps(State(), netns);
      scalingMap := Put(scalingMap, netns, 0);
    }

    method RemoveNamespace(netns: uint32) returns (ok: bool)
      requires Valid()
      modifies this`connCountMap, this`bufferMap, this`validNetnsMap
      ensures Valid()
      ensures (State(), ok) == RemoveTables(old(State()), netns)
    {
      RemoveByMaps(State(), netns);
      RemoveKeepsWellFormed(State(), netns);
      if netns !in connCountMap {
        return false;
      }
      connCountMap := connCountMap - {netns};
      if netns !in bufferMap {
        return false;
      }
      bufferMap := bufferMap - {netns};
      // A namespace with a counter is valid, so the third deletion of the source always finds its entry.
      validNetnsMap := validNetnsMap - {netns};
      return true;
    }
  }
}
