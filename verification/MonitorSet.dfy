/** The set of monitored containers: the start/stop event loop and the Monitors it starts and cancels
    (autoscaler/autoscaler/autoscaler.go). */
module MonitorSet {
  import opened Prelude

  datatype Event = Started(container: string) | Stopped(container: string)

  /** A Monitor goroutine: the container it was started for and whether its context was cancelled. */
  datatype Launch = Launch(container: string, cancelled: bool)

  /** `contexts` is monitoringCtxMap: the Monitor whose cancel function a container's entry holds. */
  datatype Monitors = Monitors(contexts: map<string, nat>, launches: seq<Launch>)

  function Handle(s: Monitors, e: Event): Monitors {
    match e
    case Started(c) =>
      if c in s.contexts then s
      else Monitors(s.contexts[c := |s.launches|], s.launches + [Launch(c, false)])
    case Stopped(c) =>
      if c in s.contexts && s.contexts[c] < |s.launches| then
        var id := s.contexts[c];
        Monitors(s.contexts - {c}, s.launches[id := s.launches[id].(cancelled := true)])
      else s
  }

  /** The events in the order the loop processes them; containers found running count as started. */
  function Run(events: seq<Event>): Monitors {
    if events == [] then Monitors(map[], []) else Handle(Run(Front(events)), Last(events))
  }

  /** Exactly the Monitors in the map are live, each for the container it is stored under. */
  ghost predicate Inv(s: Monitors) {
    && (forall c | c in s.contexts :: s.contexts[c] < |s.launches| && s.launches[s.contexts[c]] == Launch(c, false))
    && (forall i | 0 <= i < |s.launches| && !s.launches[i].cancelled ::
      s.launches[i].container in s.contexts && s.contexts[s.launches[i].container] == i)
  }

  /** The last event about a container was a start. */
  predicate Running(events: seq<Event>, c: string) {
    events != [] && if Last(events).container == c then Last(events).Started? else Running(Front(events), c)
  }

  lemma {:induction false} RunKeepsInv(events: seq<Event>)
    ensures Inv(Run(events))
  {
    if events != [] {
      RunKeepsInv(Front(events));
    }
  }

  /** After any events a container has a live Monitor exactly if its last event was a start, and
      never more than one. */
  lemma {:induction false} OneLiveMonitorPerContainer(events: seq<Event>, c: string)
    ensures var s := Run(events);
      && (c in s.contexts <==> Running(events, c))
      && (Running(events, c) <==> exists i | 0 <= i < |s.launches| :: s.launches[i] == Launch(c, false))
      && forall i, j | 0 <= i < |s.launches| && 0 <= j < |s.launches| ::
        s.launches[i] == Launch(c, false) && s.launches[j] == Launch(c, false) ==> i == j
  {
    RunKeepsInv(events);
    if events != [] {
      RunKeepsInv(Front(events));
      OneLiveMonitorPerContainer(Front(events), c);
    }
  }

  /** The containers of the starts that found their container not running, in order. */
  function FirstStarts(events: seq<Event>): seq<string> {
    if events == [] then []
    else
      var c, before := Last(events).container, FirstStarts(Front(events));
      if Last(events).Started? && !Running(Front(events), c) then before + [c] else before
  }

  /** One Monitor is launched for each of them, in that order, and for nothing else. */
  lemma {:induction false} LaunchedForFirstStarts(events: seq<Event>)
    ensures var launches, starts := Run(events).launches, FirstStarts(events);
      |launches| == |starts| && forall i | 0 <= i < |starts| :: launches[i].container == starts[i]
  {
    if events != [] {
      LaunchedForFirstStarts(Front(events));
      OneLiveMonitorPerContainer(Front(events), Last(events).container);
    }
  }

  /** A start of a monitored container and a stop of any other leave every Monitor alone; a Monitor
      once cancelled stays so. */
  lemma RepeatedEventsChangeNothing(events: seq<Event>, e: Event)
    ensures (e.Started? <==> Running(events, e.container)) ==> Run(events + [e]) == Run(events)
    ensures forall i | 0 <= i < |Run(events).launches| && Run(events).launches[i].cancelled ::
      i < |Run(events + [e]).launches| && Run(events + [e]).launches[i] == Run(events).launches[i]
  {
    assert Front(events + [e]) == events;
    OneLiveMonitorPerContainer(events, e.container);
  }

  class ContainerLoop {
    var monitoringCtxMap: map<string, nat>
    var launches: seq<Launch>

    ghost function State(): Monitors
      reads this
    {
      Monitors(monitoringCtxMap, launches)
    }

    constructor ()
      ensures State() == Run([])
    {
      monitoringCtxMap, launches := map[], [];
    }

    method StartMonitoring(container: string)
      modifies this
      ensures State() == Handle(old(State()), Started(container))
    {
      if container !in monitoringCtxMap {
        monitoringCtxMap := monitoringCtxMap[container := |launches|];
        launches := launches + [Launch(container, false)];
      }
    }

    /** The event loop, from the state `seen` events have left. */
    method HandleEvents(ghost seen: seq<Event>, events: seq<Event>)
      requires State() == Run(seen)
      modifies this
      ensures State() == Run(seen + events)
    {
      assert seen + events[..0] == seen;
      for i := 0 to |events|
        invariant State() == Run(seen + events[..i])
      {
        ghost var before := seen + events[..i];
        assert Front(seen + events[..i + 1]) == before && Last(seen + events[..i + 1]) == events[i];
        match events[i]
        case Started(container) =>
          StartMonitoring(container);
        case Stopped(container) =>
          RunKeepsInv(before);
          if container in monitoringCtxMap {
            var id := monitoringCtxMap[container];
            launches := launches[id := launches[id].(cancelled := true)];
            monitoringCtxMap := monitoringCtxMap - {container};
          }
      }
      assert events[..|events|] == events;
    }
  }
}
