/** Many namespaces, one perf listener and one Monitor goroutine per started container: how an
    event travels from the kernel to a Monitor and the re-arming travels back
    (autoscaler/conc_req_monitoring/conc_req_monitoring.go). */
module TokenProtocol {
  import opened Prelude
  import opened Trigger
  import opened KernelTables
  import opened ConcReqListener

  /** A Monitor waits in its select, handles a signal (until it has slept and re-armed), or has returned. */
  datatype Phase = Selecting | Handling(side: Side) | Gone

  datatype Monitor = Monitor(ns: uint32, phase: Phase, cancelled: bool)

  /** The listener reads the rings, or is blocked sending to the unbuffered channel of a monitor. */
  datatype Reader = Reading | Sending(monitor: nat, side: Side)

  /** The rings are drained in no particular order. `contexts` is namespaceToContext. */
  datatype State = State(
    tables: Tables,
    contexts: map<uint32, nat>,
    rings: multiset<Event>,
    reader: Reader,
    monitors: seq<Monitor>)

  datatype Action =
    | Start(ns: uint32)                                            // Monitor begins: addNamespace
    | Packet(ns: uint32, established: bool, delivered: bool)       // one probe call; the ring may drop its event
    | Read(event: Event)                                           // the listener looks up an event's context
    | Deliver                                                      // the send meets the Monitor's receive
    | Reopen(monitor: nat)                                         // sleep over: addNamespaceToScalingMap
    | Abandon(monitor: nat)                                        // no manager node: the Monitor returns
    | Cancel(monitor: nat)                                         // the container stopped
    | Exit(monitor: nat)                                           // Monitor sees the cancellation: removeNamespace

  predicate Enabled(s: State, a: Action) {
    match a
    case Start(ns) => !AddTables(s.tables, ns).exited
    case Packet(_, _, _) => true
    case Read(event) => s.reader.Reading? && event in s.rings
    case Deliver =>
      s.reader.Sending? && s.reader.monitor < |s.monitors| && s.monitors[s.reader.monitor].phase.Selecting?
    case Reopen(m) => m < |s.monitors| && s.monitors[m].phase.Handling?
    case Abandon(m) => m < |s.monitors| && s.monitors[m].phase.Handling?
    case Cancel(m) => m < |s.monitors|
    case Exit(m) => m < |s.monitors| && s.monitors[m].phase.Selecting? && s.monitors[m].cancelled
  }

  /** The listener forwards an event only to a context it finds and that is not cancelled. */
  predicate Forwards(s: State, ns: uint32) {
    ns in s.contexts && s.contexts[ns] < |s.monitors| && !s.monitors[s.contexts[ns]].cancelled
  }

  function WithPhase(s: State, m: nat, phase: Phase): State
    requires m < |s.monitors|
  {
    s.(monitors := s.monitors[m := s.monitors[m].(phase := phase)])
  }

  function Next(lim: Limits, s: State, a: Action): State
    requires Enabled(s, a)
  {
    match a
    case Start(ns) =>
      s.(tables := AddTables(s.tables, ns),
         contexts := s.contexts[ns := |s.monitors|],
         monitors := s.monitors + [Monitor(ns, Selecting, false)])
    case Packet(ns, established, delivered) =>
      var (t, side) := ProbeTables(s.tables, lim, ns, established);
      s.(tables := t, rings := if side.Some? && delivered then s.rings + multiset{Event(ns, side.value)} else s.rings)
    case Read(event) =>
      s.(rings := s.rings - multiset{event},
         reader := if Forwards(s, event.netns) then Sending(s.contexts[event.netns], event.side) else Reading)
    case Deliver =>
      WithPhase(s, s.reader.monitor, Handling(s.reader.side)).(reader := Reading)
    case Reopen(m) =>
      WithPhase(s, m, Selecting).(tables := RearmTables(s.tables, s.monitors[m].ns))
    case Abandon(m) =>
      WithPhase(s, m, Gone)
    case Cancel(m) =>
      s.(monitors := s.monitors[m := s.monitors[m].(cancelled := true)])
    case Exit(m) =>
      var (t, ok) := RemoveTables(s.tables, s.monitors[m].ns);
      WithPhase(s, m, Gone).(tables := t, contexts := if ok then s.contexts - {s.monitors[m].ns} else s.contexts)
  }

  const INIT: State := State(EMPTY, map[], multiset{}, Reading, [])

  ghost predicate StepAt(lim: Limits, ss: seq<State>, actions: seq<Action>, i: nat)
    requires |ss| == |actions| + 1 && i < |actions|
  {
    Enabled(ss[i], actions[i]) && ss[i + 1] == Next(lim, ss[i], actions[i])
  }

  /** `ss` are the states of a run of the actions `actions`. */
  ghost predicate IsRun(lim: Limits, ss: seq<State>, actions: seq<Action>) {
    && |ss| == |actions| + 1 && ss[0] == INIT
    && forall i {:trigger StepAt(lim, ss, actions, i)} | 0 <= i < |actions| :: StepAt(lim, ss, actions, i)
  }

  // ----- the tokens of one namespace -----

  function Armed(s: State, ns: uint32): nat {
    AsCount(View(s.tables, ns).Armed())
  }

  function Queued(s: State, ns: uint32): nat {
    s.rings[Event(ns, Lower)] + s.rings[Event(ns, Upper)]
  }

  function Held(s: State, ns: uint32): nat {
    AsCount(s.reader.Sending? && s.reader.monitor < |s.monitors| && s.monitors[s.reader.monitor].ns == ns)
  }

  function Handlers(ms: seq<Monitor>, ns: uint32): nat {
    if ms == [] then 0
    else Handlers(Front(ms), ns) + AsCount(Last(ms).ns == ns && Last(ms).phase.Handling?)
  }

  /** Events on their way and signals being handled. */
  function Outstanding(s: State, ns: uint32): nat {
    Queued(s, ns) + Held(s, ns) + Handlers(s.monitors, ns)
  }

  function Tokens(s: State, ns: uint32): nat {
    Armed(s, ns) + Outstanding(s, ns)
  }

  lemma {:induction false} HandlersUpdate(ms: seq<Monitor>, i: nat, m: Monitor, ns: uint32)
    requires i < |ms|
    ensures Handlers(ms[i := m], ns) + AsCount(ms[i].ns == ns && ms[i].phase.Handling?)
      == Handlers(ms, ns) + AsCount(m.ns == ns && m.phase.Handling?)
  {
    var us := ms[i := m];
    if i == |ms| - 1 {
      assert Front(us) == Front(ms);
    } else {
      assert Front(us) == Front(ms)[i := m];
      HandlersUpdate(Front(ms), i, m, ns);
    }
  }

  lemma HandlersSeen(ms: seq<Monitor>, i: nat)
    requires i < |ms| && ms[i].phase.Handling?
    ensures Handlers(ms, ms[i].ns) >= 1
  {
    HandlersUpdate(ms, i, ms[i].(phase := Selecting), ms[i].ns);
  }

  lemma HandlersAppend(ms: seq<Monitor>, m: Monitor, ns: uint32)
    ensures Handlers(ms + [m], ns) == Handlers(ms, ns) + AsCount(m.ns == ns && m.phase.Handling?)
  {
    assert Front(ms + [m]) == ms;
  }

  /** What every run keeps: at most 1024 namespaces are ever started, and every context and every
      blocked send names a monitor. */
  ghost predicate Inv(s: State, universe: set<uint32>) {
    && WellFormed(s.tables) && Within(s.tables, universe) && |universe| <= MAX_ENTRIES && !s.tables.exited
    && Linked(s, universe)
  }

  ghost predicate Linked(s: State, universe: set<uint32>) {
    && (forall ns | ns in s.contexts :: s.contexts[ns] < |s.monitors| && s.monitors[s.contexts[ns]].ns == ns)
    && (s.reader.Sending? ==> s.reader.monitor < |s.monitors|)
    && (forall m | 0 <= m < |s.monitors| :: s.monitors[m].ns in universe)
  }

  /** The kernel half of a step, if it has one, as a step on the tables. */
  function TableOp(s: State, a: Action): Option<Op>
    requires Enabled(s, a)
  {
    match a
    case Start(ns) => Some(Add(ns))
    case Packet(ns, established, _) => Some(Call(ns, established))
    case Reopen(m) => Some(Rearm(s.monitors[m].ns))
    case Exit(m) => Some(Remove(s.monitors[m].ns))
    case _ => None
  }

  lemma TablesStep(lim: Limits, s: State, a: Action, universe: set<uint32>, n: uint32)
    requires Inv(s, universe) && Enabled(s, a) && (a.Start? ==> a.ns in universe)
    ensures var t, t' := s.tables, Next(lim, s, a).tables;
      var op := TableOp(s, a);
      && !t'.exited && WellFormed(t') && Within(t', universe)
      && View(t', n) == if op.Some? && op.value.ns == n then ApplyLocal(View(t, n), lim, op.value).0 else View(t, n)
  {
    if a.Packet? && a.ns !in universe {
      InvalidIsIgnored(s.tables, lim, a.ns, a.established);
    } else if TableOp(s, a).Some? {
      StepIsLocal(s.tables, lim, TableOp(s, a).value, universe, n);
    }
  }

  lemma StepKeepsLinks(lim: Limits, s: State, a: Action, universe: set<uint32>)
    requires Linked(s, universe) && Enabled(s, a) && (a.Start? ==> a.ns in universe)
    ensures Linked(Next(lim, s, a), universe)
  {
    match a
    case Start(_) =>
    case Packet(_, _, _) =>
    case Read(_) =>
    case Deliver => PhaseKeepsLinks(s, s.reader.monitor, Handling(s.reader.side), universe);
    case Reopen(m) => PhaseKeepsLinks(s, m, Selecting, universe);
    case Abandon(m) => PhaseKeepsLinks(s, m, Gone, universe);
    case Cancel(_) =>
    case Exit(m) => PhaseKeepsLinks(s, m, Gone, universe);
  }

  lemma PhaseKeepsLinks(s: State, m: nat, phase: Phase, universe: set<uint32>)
    requires Linked(s, universe) && m < |s.monitors|
    ensures Linked(WithPhase(s, m, phase), universe)
  {
  }

  lemma StepKeepsInv(lim: Limits, s: State, a: Action, universe: set<uint32>)
    requires Inv(s, universe) && Enabled(s, a) && (a.Start? ==> a.ns in universe)
    ensures Inv(Next(lim, s, a), universe)
  {
    StepKeepsLinks(lim, s, a, universe);
    TablesStep(lim, s, a, universe, 0);
  }

  // ----- how one step moves the token of a namespace -----

  /** A probe that raises an event disarms the namespace; any other probe leaves it as it was. */
  lemma ProbeMovesToken(v: Track, lim: Limits, established: bool)
    ensures var (w, side) := Probe(v, lim, established, true);
      AsCount(w.Armed()) + AsCount(side.Some?) == AsCount(v.Armed()) && w.valid == v.valid
  {
  }

  lemma RingTakes(s: State, e: Event, n: uint32)
    ensures Queued(s.(rings := s.rings + multiset{e}), n) == Queued(s, n) + AsCount(e.netns == n)
    ensures e in s.rings ==> Queued(s.(rings := s.rings - multiset{e}), n) + AsCount(e.netns == n) == Queued(s, n)
  {
    assert e.side == Lower || e.side == Upper;
  }

  /** A step that destroys the one token of `n` or adds to it: a raised event is dropped or finds no
      live context, a Monitor gives up, takes its armed namespace down or re-arms one that is down,
      or `n` is started again early. */
  predicate Loses(lim: Limits, s: State, a: Action, n: uint32)
    requires Enabled(s, a)
  {
    match a
    case Start(ns) => ns == n && Outstanding(s, n) > 0
    case Packet(ns, established, delivered) =>
      ns == n && !delivered && ProbeTables(s.tables, lim, ns, established).1.Some?
    case Read(event) => event.netns == n && !Forwards(s, n)
    case Reopen(m) => s.monitors[m].ns == n && n !in s.tables.valid
    case Abandon(m) => s.monitors[m].ns == n
    case Exit(m) => s.monitors[m].ns == n && RemoveTables(s.tables, n).1 && Armed(s, n) == 1
    case _ => false
  }

  lemma PacketMovesToken(lim: Limits, s: State, a: Action, universe: set<uint32>, n: uint32)
    requires Inv(s, universe) && a.Packet?
    ensures var s' := Next(lim, s, a);
      && Tokens(s', n) + AsCount(Loses(lim, s, a, n)) == Tokens(s, n)
      && (n in s.tables.valid <==> n in s'.tables.valid)
  {
    var (t, side) := ProbeTables(s.tables, lim, a.ns, a.established);
    if side.Some? { RingTakes(s, Event(a.ns, side.value), n); }
    ProbeMovesToken(View(s.tables, n), lim, a.established);
    if a.ns !in universe {
      InvalidIsIgnored(s.tables, lim, a.ns, a.established);
    } else {
      StepIsLocal(s.tables, lim, Call(a.ns, a.established), universe, n);
    }
  }

  lemma ReadMovesToken(lim: Limits, s: State, a: Action, universe: set<uint32>, n: uint32)
    requires Inv(s, universe) && Enabled(s, a) && a.Read?
    ensures var s' := Next(lim, s, a);
      && Tokens(s', n) + AsCount(Loses(lim, s, a, n)) == Tokens(s, n)
      && s'.tables == s.tables
  {
    RingTakes(s, a.event, n);
  }

  /** A phase change of monitor `m` moves its namespace's handler count and nothing else. */
  lemma PhaseMovesToken(s: State, m: nat, phase: Phase, n: uint32)
    requires m < |s.monitors|
    ensures var s' := WithPhase(s, m, phase);
      && Armed(s', n) == Armed(s, n) && Queued(s', n) == Queued(s, n) && Held(s', n) == Held(s, n)
      && Handlers(s'.monitors, n) + AsCount(s.monitors[m].ns == n && s.monitors[m].phase.Handling?)
         == Handlers(s.monitors, n) + AsCount(s.monitors[m].ns == n && phase.Handling?)
  {
    HandlersUpdate(s.monitors, m, s.monitors[m].(phase := phase), n);
  }

  lemma DeliverMovesToken(lim: Limits, s: State, n: uint32)
    requires Enabled(s, Deliver)
    ensures Tokens(Next(lim, s, Deliver), n) == Tokens(s, n) && Next(lim, s, Deliver).tables == s.tables
  {
    PhaseMovesToken(s, s.reader.monitor, Handling(s.reader.side), n);
  }

  lemma ReopenMovesToken(lim: Limits, s: State, m: nat, universe: set<uint32>, n: uint32)
    requires Inv(s, universe) && Enabled(s, Reopen(m))
    ensures var s' := Next(lim, s, Reopen(m));
      && Tokens(s', n) <= Tokens(s, n)
      && (n in s.tables.valid <==> n in s'.tables.valid)
      && (Tokens(s, n) == 1 ==> (Tokens(s', n) == 1 <==> !Loses(lim, s, Reopen(m), n)))
  {
    PhaseMovesToken(s, m, Selecting, n);
    TablesStep(lim, s, Reopen(m), universe, n);
    HandlersSeen(s.monitors, m);
  }

  lemma CancelMovesToken(lim: Limits, s: State, m: nat, n: uint32)
    requires Enabled(s, Cancel(m))
    ensures Tokens(Next(lim, s, Cancel(m)), n) == Tokens(s, n) && Next(lim, s, Cancel(m)).tables == s.tables
  {
    HandlersUpdate(s.monitors, m, s.monitors[m].(cancelled := true), n);
  }

  lemma AbandonMovesToken(lim: Limits, s: State, m: nat, n: uint32)
    requires Enabled(s, Abandon(m))
    ensures var s' := Next(lim, s, Abandon(m));
      && Tokens(s', n) + AsCount(Loses(lim, s, Abandon(m), n)) == Tokens(s, n)
      && s'.tables == s.tables
  {
    PhaseMovesToken(s, m, Gone, n);
  }

  /** A removal that succeeds disarms its namespace; one that fails leaves its arming alone. */
  lemma ExitMovesToken(lim: Limits, s: State, m: nat, universe: set<uint32>, n: uint32)
    requires Inv(s, universe) && Enabled(s, Exit(m))
    ensures var s' := Next(lim, s, Exit(m));
      && Tokens(s', n) + AsCount(Loses(lim, s, Exit(m), n)) == Tokens(s, n)
      && (s.monitors[m].ns != n ==> (n in s.tables.valid <==> n in s'.tables.valid))
  {
    PhaseMovesToken(s, m, Gone, n);
    TablesStep(lim, s, Exit(m), universe, n);
  }

  /** A start adds one token to its namespace, on top of whatever is still outstanding. */
  lemma StartAddsToken(lim: Limits, s: State, ns: uint32, universe: set<uint32>, n: uint32)
    requires Inv(s, universe) && Enabled(s, Start(ns)) && ns in universe
    ensures var s' := Next(lim, s, Start(ns));
      && Tokens(s', n) == (if n == ns then 1 + Outstanding(s, n) else Tokens(s, n))
      && (n in s'.tables.valid <==> n == ns || n in s.tables.valid)
  {
    HandlersAppend(s.monitors, Monitor(ns, Selecting, false), n);
    TablesStep(lim, s, Start(ns), universe, n);
  }

  /** So a start leaves at most one token exactly when no event of an earlier life of the
      namespace is queued, held or being handled. */
  lemma StartKeepsOneTokenExactly(lim: Limits, s: State, ns: uint32, universe: set<uint32>)
    requires Inv(s, universe) && Enabled(s, Start(ns)) && ns in universe
    ensures Tokens(Next(lim, s, Start(ns)), ns) <= 1 <==> Outstanding(s, ns) == 0
  {
    StartAddsToken(lim, s, ns, universe, ns);
  }

  ghost predicate ExactlyOne(s: State, n: uint32) {
    Tokens(s, n) == 1
  }

  /** No step but a start creates a token, and exactly the steps of `Loses` destroy or double the only one. */
  lemma StepMovesToken(lim: Limits, s: State, a: Action, universe: set<uint32>, n: uint32)
    requires Inv(s, universe) && Enabled(s, a) && (a.Start? ==> a.ns in universe)
    ensures var s' := Next(lim, s, a);
      && (a != Start(n) ==> Tokens(s', n) <= Tokens(s, n))
      && (a == Start(n) ==> Tokens(s', n) == 1 + Outstanding(s, n) && n in s'.tables.valid)
      && (ExactlyOne(s, n) ==> (ExactlyOne(s', n) <==> !Loses(lim, s, a, n)))
  {
    match a
    case Start(ns) => StartAddsToken(lim, s, ns, universe, n);
    case Packet(_, _, _) => PacketMovesToken(lim, s, a, universe, n);
    case Read(_) => ReadMovesToken(lim, s, a, universe, n);
    case Deliver => DeliverMovesToken(lim, s, n);
    case Reopen(m) => ReopenMovesToken(lim, s, m, universe, n);
    case Abandon(m) => AbandonMovesToken(lim, s, m, n);
    case Cancel(m) => CancelMovesToken(lim, s, m, n);
    case Exit(m) => ExitMovesToken(lim, s, m, universe, n);
  }

  // ----- whole runs -----

  ghost predicate StartsIn(actions: seq<Action>, universe: set<uint32>) {
    forall i | 0 <= i < |actions| :: actions[i].Start? ==> actions[i].ns in universe
  }

  /** At most 1024 namespaces are ever started. */
  ghost predicate StartsWithin(actions: seq<Action>, universe: set<uint32>) {
    |universe| <= MAX_ENTRIES && StartsIn(actions, universe)
  }

  /** If the step starts `n`, no event of an earlier life of the namespace is queued, held or being
      handled. */
  ghost predicate CleanStart(s: State, a: Action, n: uint32) {
    a == Start(n) ==> Outstanding(s, n) == 0
  }

  ghost predicate AtMostOne(s: State, n: uint32) {
    Tokens(s, n) <= 1
  }

  ghost predicate KeepsOne(lim: Limits, s: State, a: Action, n: uint32) {
    Enabled(s, a) && !Loses(lim, s, a, n)
  }

  lemma {:induction false} RunKeepsInv(lim: Limits, ss: seq<State>, actions: seq<Action>, universe: set<uint32>, i: nat)
    requires IsRun(lim, ss, actions) && StartsWithin(actions, universe) && i <= |actions|
    ensures Inv(ss[i], universe)
  {
    if i > 0 {
      hide Inv;
      RunKeepsInv(lim, ss, actions, universe, i - 1);
      assert StepAt(lim, ss, actions, i - 1);
      StepKeepsInv(lim, ss[i - 1], actions[i - 1], universe);
    }
  }

  /** What one step of a run does to the tokens of a namespace. */
  lemma RunMovesToken(lim: Limits, ss: seq<State>, actions: seq<Action>, universe: set<uint32>, n: uint32, i: nat)
    requires IsRun(lim, ss, actions) && StartsWithin(actions, universe) && i < |actions|
    ensures AtMostOne(ss[i], n) ==> (AtMostOne(ss[i + 1], n) <==> CleanStart(ss[i], actions[i], n))
    ensures ExactlyOne(ss[i], n) ==> (ExactlyOne(ss[i + 1], n) <==> KeepsOne(lim, ss[i], actions[i], n))
    ensures actions[i] == Start(n) && CleanStart(ss[i], actions[i], n) ==> ExactlyOne(ss[i + 1], n)
  {
    RunKeepsInv(lim, ss, actions, universe, i);
    assert StepAt(lim, ss, actions, i);
    StepMovesToken(lim, ss[i], actions[i], universe, n);
  }

  /** Every start of `n` before state `i` finds no event of an earlier life of the namespace
      queued, held or being handled. */
  ghost predicate CleanStarts(ss: seq<State>, actions: seq<Action>, n: uint32, i: nat)
    requires |ss| == |actions| + 1 && i <= |actions|
  {
    forall k | 0 <= k < i :: CleanStart(ss[k], actions[k], n)
  }

  /** Token conservation, exactly: in every run a namespace has at most one token in every state if
      and only if each of its starts finds nothing outstanding. */
  lemma AtMostOneToken(
      lim: Limits, ss: seq<State>, actions: seq<Action>, universe: set<uint32>, n: uint32, i: nat)
    requires IsRun(lim, ss, actions) && StartsWithin(actions, universe) && i <= |actions|
    ensures (forall k | 0 <= k <= i :: AtMostOne(ss[k], n)) <==> CleanStarts(ss, actions, n, i)
  {
    assert AtMostOne(INIT, n);
    hide AtMostOne, CleanStart, StepAt;
    forall k | 0 <= k < i && AtMostOne(ss[k], n)
      ensures AtMostOne(ss[k + 1], n) <==> CleanStart(ss[k], actions[k], n)
    {
      RunMovesToken(lim, ss, actions, universe, n, k);
    }
    StepwiseExactly(ss, actions, s => AtMostOne(s, n), (s, a) => CleanStart(s, a, n), 0, i);
  }

  /** ... and, from any clean start on and whatever happened before it, it has exactly one in every
      state if and only if no step in between is one of `Loses`. */
  lemma ExactlyOneToken(
      lim: Limits, ss: seq<State>, actions: seq<Action>, universe: set<uint32>, n: uint32, j: nat, i: nat)
    requires IsRun(lim, ss, actions) && StartsWithin(actions, universe) && j < i <= |actions|
    requires actions[j] == Start(n) && CleanStart(ss[j], actions[j], n)
    ensures (forall k | j < k <= i :: ExactlyOne(ss[k], n)) <==>
      (forall k | j < k < i :: KeepsOne(lim, ss[k], actions[k], n))
  {
    RunMovesToken(lim, ss, actions, universe, n, j);
    hide ExactlyOne, KeepsOne, StepAt;
    forall k | j + 1 <= k < i && ExactlyOne(ss[k], n)
      ensures ExactlyOne(ss[k + 1], n) <==> KeepsOne(lim, ss[k], actions[k], n)
    {
      RunMovesToken(lim, ss, actions, universe, n, k);
    }
    StepwiseExactly(ss, actions, s => ExactlyOne(s, n), (s, a) => KeepsOne(lim, s, a, n), j + 1, i);
  }

  /** The listener's blocking send never meets a Monitor still handling an earlier event: it can
      proceed at once, or the Monitor has returned and the listener is stuck for good. */
  lemma SendMeetsSelectOrNobody(lim: Limits, ss: seq<State>, actions: seq<Action>, universe: set<uint32>, i: nat)
    requires IsRun(lim, ss, actions) && StartsWithin(actions, universe) && i <= |actions|
    requires ss[i].reader.Sending?
    requires ss[i].reader.monitor < |ss[i].monitors| ==>
      CleanStarts(ss, actions, ss[i].monitors[ss[i].reader.monitor].ns, i)
    ensures ss[i].reader.monitor < |ss[i].monitors|
    ensures var phase := ss[i].monitors[ss[i].reader.monitor].phase;
      !phase.Handling? && (Enabled(ss[i], Deliver) <==> !phase.Gone?)
  {
    RunKeepsInv(lim, ss, actions, universe, i);
    var s, m := ss[i], ss[i].reader.monitor;
    AtMostOneToken(lim, ss, actions, universe, s.monitors[m].ns, i);
    assert AtMostOne(s, s.monitors[m].ns);
    if s.monitors[m].phase.Handling? {
      HandlersSeen(s.monitors, m);
    }
  }

  /** The listener is blocked sending to a Monitor that has returned. */
  predicate Stuck(s: State) {
    s.reader.Sending? && s.reader.monitor < |s.monitors| && s.monitors[s.reader.monitor].phase.Gone?
  }

  lemma StepKeepsStuck(lim: Limits, s: State, a: Action)
    requires Stuck(s) && Enabled(s, a)
    ensures Stuck(Next(lim, s, a)) && Next(lim, s, a).reader == s.reader
  {
    match a
    case Cancel(m) =>
    case _ =>
  }

  /** A send to a Monitor that has returned never proceeds: no run unblocks the listener. */
  lemma {:induction false} StuckForever(lim: Limits, ss: seq<State>, actions: seq<Action>, i: nat, j: nat)
    requires IsRun(lim, ss, actions) && i <= j <= |actions| && Stuck(ss[i])
    ensures Stuck(ss[j]) && ss[j].reader == ss[i].reader
  {
    if i < j {
      StuckForever(lim, ss, actions, i, j - 1);
      assert StepAt(lim, ss, actions, j - 1);
      StepKeepsStuck(lim, ss[j - 1], actions[j - 1]);
    }
  }

  /** A delivered event of a namespace whose Monitor is waiting reaches that Monitor in two steps. */
  lemma EventReachesMonitor(lim: Limits, s: State, ns: uint32, established: bool, side: Side)
    requires ProbeTables(s.tables, lim, ns, established).1 == Some(side)
    requires s.reader.Reading? && Forwards(s, ns) && s.monitors[s.contexts[ns]].phase.Selecting?
    ensures var m := s.contexts[ns];
      var s1 := Next(lim, s, Packet(ns, established, true));
      && Enabled(s1, Read(Event(ns, side)))
      && var s2 := Next(lim, s1, Read(Event(ns, side)));
      && Enabled(s2, Deliver)
      && Next(lim, s2, Deliver) ==
         WithPhase(s, m, Handling(side)).(tables := ProbeTables(s.tables, lim, ns, established).0)
  {
    var s1 := Next(lim, s, Packet(ns, established, true));
    assert s1.rings - multiset{Event(ns, side)} == s.rings;
  }

  /** An idle listener can read every queued event, and is idle again unless it has to forward it. */
  lemma IdleListenerReads(lim: Limits, s: State, event: Event)
    requires s.reader.Reading? && event in s.rings
    ensures Enabled(s, Read(event))
    ensures var s' := Next(lim, s, Read(event));
      && |s'.rings| == |s.rings| - 1 && s'.rings[event] == s.rings[event] - 1
      && (s'.reader.Reading? <==> !Forwards(s, event.netns))
      && s'.tables == s.tables && s'.monitors == s.monitors && s'.contexts == s.contexts
  {
  }

  /** A Monitor can always be stopped, even while it handles a signal: its container stops, the sleep
      ends, and it returns with the removal of its namespace. */
  lemma StoppedMonitorReturns(lim: Limits, s: State, m: nat)
    requires m < |s.monitors| && !s.monitors[m].phase.Gone?
    ensures Enabled(s, Cancel(m))
    ensures var ns, s1 := s.monitors[m].ns, Next(lim, s, Cancel(m));
      && (s.monitors[m].phase.Handling? ==> Enabled(s1, Reopen(m)))
      && var s2 := if s.monitors[m].phase.Handling? then Next(lim, s1, Reopen(m)) else s1;
      && Enabled(s2, Exit(m))
      && var s3 := Next(lim, s2, Exit(m));
      && s3.monitors == s.monitors[m := Monitor(ns, Gone, true)]
      && s3.tables == RemoveTables(s2.tables, ns).0
      && s2.tables == (if s.monitors[m].phase.Handling? then RearmTables(s.tables, ns) else s.tables)
      && s3.rings == s.rings && s3.reader == s.reader
  {
  }

  // ----- who receives the signals of a namespace -----

  /** The namespaces started in the first `i` steps, in order: one Monitor each. */
  function StartedBy(actions: seq<Action>, i: nat): seq<uint32>
    requires i <= |actions|
  {
    if i == 0 then []
    else if actions[i - 1].Start? then StartedBy(actions, i - 1) + [actions[i - 1].ns]
    else StartedBy(actions, i - 1)
  }

  /** The number of the latest Monitor started for `n`, unless a removal of `n` has succeeded since. */
  function Owner(ss: seq<State>, actions: seq<Action>, n: uint32, i: nat): Option<nat>
    requires |ss| == |actions| + 1 && i <= |actions|
  {
    if i == 0 then None
    else
      match actions[i - 1]
      case Start(ns) => if ns == n then Some(|StartedBy(actions, i - 1)|) else Owner(ss, actions, n, i - 1)
      case Exit(m) =>
        if m < |StartedBy(actions, i - 1)| && StartedBy(actions, i - 1)[m] == n && RemoveTables(ss[i - 1].tables, n).1
        then None else Owner(ss, actions, n, i - 1)
      case _ => Owner(ss, actions, n, i - 1)
  }

  /** The namespaces of the Monitors, and who holds the context of `n`. */
  ghost predicate Addressed(s: State, started: seq<uint32>, n: uint32, owner: Option<nat>) {
    && |s.monitors| == |started| && (forall m | 0 <= m < |started| :: s.monitors[m].ns == started[m])
    && owner == (if n in s.contexts then Some(s.contexts[n]) else None)
  }

  /** Monitors that change their phase or are cancelled, and a context that stays or goes. */
  lemma MovesAddresses(s: State, s': State, started: seq<uint32>, n: uint32, owner: Option<nat>, owner': Option<nat>)
    requires Addressed(s, started, n, owner)
    requires |s'.monitors| == |s.monitors|
    requires forall m | 0 <= m < |s.monitors| :: s'.monitors[m].ns == s.monitors[m].ns
    requires owner' == if n in s'.contexts then Some(s'.contexts[n]) else None
    ensures Addressed(s', started, n, owner')
  {
  }

  lemma StartAddresses(lim: Limits, s: State, ns: uint32, started: seq<uint32>, n: uint32, owner: Option<nat>)
    requires Enabled(s, Start(ns)) && Addressed(s, started, n, owner)
    ensures Addressed(Next(lim, s, Start(ns)), started + [ns], n, if ns == n then Some(|started|) else owner)
  {
    hide AddTables;
  }

  lemma ExitAddresses(lim: Limits, s: State, m: nat, started: seq<uint32>, n: uint32, owner: Option<nat>)
    requires Enabled(s, Exit(m)) && Addressed(s, started, n, owner)
    ensures Addressed(Next(lim, s, Exit(m)), started, n,
      if started[m] == n && RemoveTables(s.tables, n).1 then None else owner)
  {
    hide RemoveTables;
  }

  lemma StepAddresses(lim: Limits, s: State, a: Action, started: seq<uint32>, n: uint32, owner: Option<nat>)
    requires Enabled(s, a) && Addressed(s, started, n, owner)
    ensures Addressed(
      Next(lim, s, a), if a.Start? then started + [a.ns] else started, n,
      if a == Start(n) then Some(|started|)
      else if a.Exit? && a.monitor < |started| && started[a.monitor] == n && RemoveTables(s.tables, n).1 then None
      else owner)
  {
    match a
    case Start(ns) => StartAddresses(lim, s, ns, started, n, owner);
    case Exit(m) =>
      assert m < |started|;
      ExitAddresses(lim, s, m, started, n, owner);
    case _ =>
      MovesAddresses(s, Next(lim, s, a), started, n, owner, owner);
  }

  /** A later start takes the namespace over: in every run the k-th Monitor is that of the k-th start,
      and the events of a namespace go to the Monitor of its latest start, or to nobody once its
      removal has succeeded. */
  lemma {:induction false} LatestStartReceives(lim: Limits, ss: seq<State>, actions: seq<Action>, n: uint32, i: nat)
    requires IsRun(lim, ss, actions) && i <= |actions|
    ensures Addressed(ss[i], StartedBy(actions, i), n, Owner(ss, actions, n, i))
  {
    if i > 0 {
      LatestStartReceives(lim, ss, actions, n, i - 1);
      assert StepAt(lim, ss, actions, i - 1);
      StepAddresses(
        lim, ss[i - 1], actions[i - 1], StartedBy(actions, i - 1), n, Owner(ss, actions, n, i - 1));
      hide Addressed, Next, Enabled;
    }
  }

  /** The container of Monitor `m` stops within the first `i` steps. */
  ghost predicate CancelledBy(actions: seq<Action>, m: nat, i: nat)
    requires i <= |actions|
  {
    exists k | 0 <= k < i :: actions[k] == Cancel(m)
  }

  /** Monitor `m` returns within the first `i` steps: for want of a manager, or on a cancellation
      that came before. */
  ghost predicate ReturnedBy(actions: seq<Action>, m: nat, i: nat)
    requires i <= |actions|
  {
    exists k | 0 <= k < i :: actions[k] == Abandon(m) || (actions[k] == Exit(m) && CancelledBy(actions, m, k))
  }

  lemma StepCancels(lim: Limits, s: State, a: Action, m: nat)
    requires Enabled(s, a) && m < |s.monitors|
    ensures var s' := Next(lim, s, a);
      && m < |s'.monitors|
      && (s'.monitors[m].cancelled <==> s.monitors[m].cancelled || a == Cancel(m))
      && (s'.monitors[m].phase.Gone? ==> s.monitors[m].phase.Gone? || a == Abandon(m) || a == Exit(m))
      && (a == Exit(m) ==> s.monitors[m].cancelled)
      && (a == Abandon(m) || a == Exit(m) ==> s'.monitors[m].phase.Gone?)
  {
    hide AddTables, RemoveTables, ProbeTables, RearmTables;
  }

  /** A Monitor is cancelled exactly if its container has stopped, and it is gone only if it has
      given up or seen that cancellation. */
  lemma {:induction false} CancelledExactly(lim: Limits, ss: seq<State>, actions: seq<Action>, m: nat, i: nat)
    requires IsRun(lim, ss, actions) && i <= |actions| && m < |ss[i].monitors|
    ensures ss[i].monitors[m].cancelled <==> CancelledBy(actions, m, i)
    ensures ss[i].monitors[m].phase.Gone? ==> ReturnedBy(actions, m, i)
  {
    if i > 0 {
      var j := i - 1;
      assert StepAt(lim, ss, actions, j);
      if m < |ss[j].monitors| {
        CancelledExactly(lim, ss, actions, m, j);
        StepCancels(lim, ss[j], actions[j], m);
        hide Next, Enabled;
      } else {
        NotYetStarted(lim, ss, actions, m, j);
        assert ss[i].monitors[m] == Monitor(actions[j].ns, Selecting, false);
      }
    }
  }

  /** Nothing can be done to a Monitor before it is started. */
  lemma {:induction false} NotYetStarted(lim: Limits, ss: seq<State>, actions: seq<Action>, m: nat, i: nat)
    requires IsRun(lim, ss, actions) && i < |actions| && m >= |ss[i].monitors|
    ensures !CancelledBy(actions, m, i) && actions[i] != Cancel(m)
  {
    assert StepAt(lim, ss, actions, i);
    if i > 0 {
      assert StepAt(lim, ss, actions, i - 1);
      assert |ss[i - 1].monitors| <= |ss[i].monitors|;
      NotYetStarted(lim, ss, actions, m, i - 1);
    }
  }

  /** An event that is read goes to the namespace's owner, unless there is none or its container has
      stopped: then it is dropped. */
  lemma ReadGoesToOwner(lim: Limits, ss: seq<State>, actions: seq<Action>, i: nat)
    requires IsRun(lim, ss, actions) && i < |actions| && actions[i].Read?
    ensures var event := actions[i].event;
      var owner := Owner(ss, actions, event.netns, i);
      ss[i + 1].reader ==
        if owner.Some? && !CancelledBy(actions, owner.value, i) then Sending(owner.value, event.side) else Reading
  {
    var n := actions[i].event.netns;
    assert StepAt(lim, ss, actions, i);
    LatestStartReceives(lim, ss, actions, n, i);
    ContextsAreLinked(lim, ss, actions, n, i);
    if n in ss[i].contexts { CancelledExactly(lim, ss, actions, ss[i].contexts[n], i); }
  }

  lemma {:induction false} ContextsAreLinked(lim: Limits, ss: seq<State>, actions: seq<Action>, n: uint32, i: nat)
    requires IsRun(lim, ss, actions) && i <= |actions|
    ensures n in ss[i].contexts ==> ss[i].contexts[n] < |ss[i].monitors|
  {
    if i > 0 {
      ContextsAreLinked(lim, ss, actions, n, i - 1);
      assert StepAt(lim, ss, actions, i - 1);
    }
  }

  // ----- runs that end badly -----

  lemma CleanExtends(ss: seq<State>, actions: seq<Action>, s: State, a: Action, n: uint32)
    requires |ss| == |actions| + 1 && CleanStarts(ss, actions, n, |actions|) && CleanStart(Last(ss), a, n)
    ensures CleanStarts(ss + [s], actions + [a], n, |actions| + 1)
  {
    hide CleanStart;
    var ss', actions' := ss + [s], actions + [a];
    forall k | 0 <= k < |actions'| ensures CleanStart(ss'[k], actions'[k], n) {
      assert k < |actions| ==> CleanStart(ss[k], actions[k], n);
    }
  }

  lemma RunExtends(lim: Limits, ss: seq<State>, actions: seq<Action>, a: Action)
    requires IsRun(lim, ss, actions) && Enabled(Last(ss), a)
    ensures IsRun(lim, ss + [Next(lim, Last(ss), a)], actions + [a])
  {
    var ss', actions' := ss + [Next(lim, Last(ss), a)], actions + [a];
    hide Next, Enabled;
    forall i | 0 <= i < |actions'| ensures StepAt(lim, ss', actions', i) {
      if i < |actions| { assert StepAt(lim, ss, actions, i); }
    }
  }

  lemma StartsExtend(actions: seq<Action>, universe: set<uint32>, a: Action)
    requires StartsIn(actions, universe) && (a.Start? ==> a.ns in universe)
    ensures StartsIn(actions + [a], universe)
  {
  }

  lemma Extended(lim: Limits, ss: seq<State>, actions: seq<Action>, universe: set<uint32>, n: uint32, a: Action)
    returns (ss': seq<State>, actions': seq<Action>)
    requires IsRun(lim, ss, actions) && StartsIn(actions, universe)
    requires Enabled(Last(ss), a) && (a.Start? ==> a.ns in universe)
    ensures IsRun(lim, ss', actions') && StartsIn(actions', universe)
    ensures Last(ss') == Next(lim, Last(ss), a) && |actions'| == |actions| + 1
    ensures CleanStarts(ss, actions, n, |actions|) && CleanStart(Last(ss), a, n) ==>
      CleanStarts(ss', actions', n, |actions'|)
  {
    ss', actions' := ss + [Next(lim, Last(ss), a)], actions + [a];
    hide Next, Enabled, CleanStart, CleanStarts, StartsIn, StepAt;
    RunExtends(lim, ss, actions, a);
    StartsExtend(actions, universe, a);
    if CleanStarts(ss, actions, n, |actions|) && CleanStart(Last(ss), a, n) {
      CleanExtends(ss, actions, Next(lim, Last(ss), a), a, n);
    }
  }

  /** One container has been started, its Monitor waits, and `k` samples are buffered. */
  ghost predicate Waiting(s: State, ns: uint32, k: uint32) {
    && s.contexts == map[ns := 0] && s.rings == multiset{} && s.reader == Reading
    && s.monitors == [Monitor(ns, Selecting, false)] && Inv(s, {ns})
    && View(s.tables, ns) == Track(true, Some(0), if k == 0 then None else Some(k), Some(0))
  }

  lemma StartWaits(lim: Limits, ns: uint32)
    ensures Enabled(INIT, Start(ns)) && Waiting(Next(lim, INIT, Start(ns)), ns, 0)
  {
    AddByMaps(INIT.tables, ns);
    StoreView(INIT.tables, ns, Added(View(INIT.tables, ns), true), ns);
    assert Inv(INIT, {ns});
    StepKeepsInv(lim, INIT, Start(ns), {ns});
  }

  lemma PacketBuffers(lim: Limits, s: State, ns: uint32, k: uint32)
    requires Waiting(s, ns, k) && k < lim.bufferLength
    ensures ProbeTables(s.tables, lim, ns, false).1 == if k + 1 == lim.bufferLength then Some(Lower) else None
    ensures k + 1 < lim.bufferLength ==> Waiting(Next(lim, s, Packet(ns, false, true)), ns, k + 1)
  {
    ProbeEntries(View(s.tables, ns), lim, false, Room(s.tables.gates, ns));
    StoreView(s.tables, ns, Probe(View(s.tables, ns), lim, false, Room(s.tables.gates, ns)).0, ns);
    StepKeepsInv(lim, s, Packet(ns, false, true), {ns});
  }

  /** A container is started and its closing connections fill the buffer but for one sample. */
  lemma {:induction false} QuietRun(lim: Limits, ns: uint32, k: uint32) returns (ss: seq<State>, actions: seq<Action>)
    requires k < lim.bufferLength
    ensures IsRun(lim, ss, actions) && Waiting(Last(ss), ns, k)
    ensures |actions| == k + 1 && StartsIn(actions, {ns})
  {
    if k == 0 {
      StartWaits(lim, ns);
      ss, actions := Extended(lim, [INIT], [], {ns}, ns, Start(ns));
    } else {
      hide Waiting;
      ss, actions := QuietRun(lim, ns, k - 1);
      PacketBuffers(lim, Last(ss), ns, k - 1);
      ss, actions := Extended(lim, ss, actions, {ns}, ns, Packet(ns, false, true));
    }
  }

  lemma StuckSteps(lim: Limits, s: State, ns: uint32, k: uint32)
    requires Waiting(s, ns, k) && ProbeTables(s.tables, lim, ns, false).1 == Some(Lower)
    ensures Enabled(s, Packet(ns, false, true))
    ensures var s1 := Next(lim, s, Packet(ns, false, true));
      && Enabled(s1, Read(Event(ns, Lower)))
      && var s2 := Next(lim, s1, Read(Event(ns, Lower)));
      && Enabled(s2, Cancel(0))
      && var s3 := Next(lim, s2, Cancel(0));
      && Enabled(s3, Exit(0)) && Stuck(Next(lim, s3, Exit(0)))
  {
    EventReachesMonitor(lim, s, ns, false, Lower);
  }

  /** The listener gets stuck: a container's first event is read, then the container stops, and its
      Monitor sees the cancellation before the send. */
  lemma StuckRun(lim: Limits, ns: uint32) returns (ss: seq<State>, actions: seq<Action>)
    requires lim.bufferLength >= 1
    ensures IsRun(lim, ss, actions) && Stuck(Last(ss)) && |actions| == lim.bufferLength + 4
  {
    ss, actions := QuietRun(lim, ns, lim.bufferLength - 1);
    PacketBuffers(lim, Last(ss), ns, lim.bufferLength - 1);
    StuckSteps(lim, Last(ss), ns, lim.bufferLength - 1);
    hide Waiting, Next, Enabled, Stuck, IsRun, StartsIn, CleanStart, CleanStarts;
    ss, actions := Extended(lim, ss, actions, {ns}, ns, Packet(ns, false, true));
    ss, actions := Extended(lim, ss, actions, {ns}, ns, Read(Event(ns, Lower)));
    ss, actions := Extended(lim, ss, actions, {ns}, ns, Cancel(0));
    ss, actions := Extended(lim, ss, actions, {ns}, ns, Exit(0));
  }

  lemma StartEnabled(s: State, ns: uint32)
    requires Inv(s, {ns})
    ensures Enabled(s, Start(ns))
  {
    WithinHasRoom(s.tables, {ns}, ns);
  }

  lemma RestartSteps(lim: Limits, s: State, ns: uint32, k: uint32)
    requires Waiting(s, ns, k) && ProbeTables(s.tables, lim, ns, false).1 == Some(Lower)
    ensures Enabled(s, Packet(ns, false, true))
    ensures var s1 := Next(lim, s, Packet(ns, false, true));
      && Enabled(s1, Read(Event(ns, Lower)))
      && var s2 := Next(lim, s1, Read(Event(ns, Lower)));
      && Enabled(s2, Deliver)
      && var s3 := Next(lim, s2, Deliver);
      && Enabled(s3, Cancel(0))
      && var s4 := Next(lim, s3, Cancel(0));
      && Enabled(s4, Start(ns)) && Tokens(Next(lim, s4, Start(ns)), ns) >= 2
  {
    EventReachesMonitor(lim, s, ns, false, Lower);
    hide Inv;
    StepKeepsInv(lim, s, Packet(ns, false, true), {ns});
    var s1 := Next(lim, s, Packet(ns, false, true));
    StepKeepsInv(lim, s1, Read(Event(ns, Lower)), {ns});
    var s2 := Next(lim, s1, Read(Event(ns, Lower)));
    StepKeepsInv(lim, s2, Deliver, {ns});
    var s3 := Next(lim, s2, Deliver);
    StepKeepsInv(lim, s3, Cancel(0), {ns});
    var s4 := Next(lim, s3, Cancel(0));
    StartEnabled(s4, ns);
    HandlersSeen(s4.monitors, 0);
    StartAddsToken(lim, s4, ns, {ns}, ns);
  }

  /** Started twice, a namespace can have two tokens: its container stops while the Monitor sleeps
      after a signal, and a new one is started in the same namespace before the old one re-arms. */
  lemma RestartDoublesToken(lim: Limits, ns: uint32) returns (ss: seq<State>, actions: seq<Action>)
    requires lim.bufferLength >= 1
    ensures IsRun(lim, ss, actions) && StartsWithin(actions, {ns}) && Tokens(Last(ss), ns) >= 2
  {
    ss, actions := QuietRun(lim, ns, lim.bufferLength - 1);
    PacketBuffers(lim, Last(ss), ns, lim.bufferLength - 1);
    RestartSteps(lim, Last(ss), ns, lim.bufferLength - 1);
    hide Waiting, Next, Enabled, Tokens, IsRun, StartsIn, CleanStart, CleanStarts;
    ss, actions := Extended(lim, ss, actions, {ns}, ns, Packet(ns, false, true));
    ss, actions := Extended(lim, ss, actions, {ns}, ns, Read(Event(ns, Lower)));
    ss, actions := Extended(lim, ss, actions, {ns}, ns, Deliver);
    ss, actions := Extended(lim, ss, actions, {ns}, ns, Cancel(0));
    ss, actions := Extended(lim, ss, actions, {ns}, ns, Start(ns));
  }

  // ----- more than 1024 namespaces -----

  /** Containers of the namespaces 0 to k - 1 have come and gone. */
  ghost predicate AllGone(s: State, k: nat) {
    && Spent(s.tables, k) && s.contexts == map[] && s.rings == multiset{} && s.reader == Reading
    && |s.monitors| == k && forall i | 0 <= i < k :: s.monitors[i].phase.Gone?
  }

  /** A container is started, called in once, stopped and its Monitor exits. */
  lemma CycleSteps(lim: Limits, s: State, k: uint32)
    requires k < MAX_ENTRIES && AllGone(s, k)
    ensures Enabled(s, Start(k))
    ensures var s1 := Next(lim, s, Start(k));
      && Enabled(s1, Packet(k, false, false))
      && var s2 := Next(lim, s1, Packet(k, false, false));
      && Enabled(s2, Cancel(k))
      && var s3 := Next(lim, s2, Cancel(k));
      && Enabled(s3, Exit(k)) && AllGone(Next(lim, s3, Exit(k)), k + 1)
  {
    hide AddTables, ProbeTables, RemoveTables, Spent, Inv;
    CycleSpends(s.tables, lim, k);
    var t1 := AddTables(s.tables, k);
    var t2, ms := ProbeTables(t1, lim, k, false).0, s.monitors;
    var s1 := Next(lim, s, Start(k));
    assert s1 == State(t1, map[k := k], multiset{}, Reading, ms + [Monitor(k, Selecting, false)]);
    var s2 := Next(lim, s1, Packet(k, false, false));
    assert s2 == s1.(tables := t2);
    var s3 := Next(lim, s2, Cancel(k));
    assert s3 == s2.(monitors := ms + [Monitor(k, Selecting, true)]);
    var s4 := Next(lim, s3, Exit(k));
    assert s4 == State(RemoveTables(t2, k).0, map[], multiset{}, Reading, ms + [Monitor(k, Gone, true)]);
  }

  lemma {:induction false} GoneRun(lim: Limits, k: nat, n: uint32, universe: set<uint32>)
    returns (ss: seq<State>, actions: seq<Action>)
    requires k <= MAX_ENTRIES && k <= n && Holds(universe, k)
    ensures IsRun(lim, ss, actions) && StartsIn(actions, universe) && AllGone(Last(ss), k)
    ensures CleanStarts(ss, actions, n, |actions|)
  {
    if k == 0 {
      ss, actions := [INIT], [];
    } else {
      var m := k - 1;
      ss, actions := GoneRun(lim, m, n, universe);
      assert m in universe;
      CycleSteps(lim, Last(ss), m);
      OtherStartsAreClean(lim, Last(ss), m, n);
      hide *;
      ss, actions := Extended(lim, ss, actions, universe, n, Start(m));
      ss, actions := Extended(lim, ss, actions, universe, n, Packet(m, false, false));
      ss, actions := Extended(lim, ss, actions, universe, n, Cancel(m));
      ss, actions := Extended(lim, ss, actions, universe, n, Exit(m));
    }
  }

  lemma OtherStartsAreClean(lim: Limits, s: State, m: uint32, n: uint32)
    requires m != n
    ensures CleanStart(s, Start(m), n)
    ensures forall s', d, e :: CleanStart(s', Packet(m, d, e), n)
    ensures forall s', k :: CleanStart(s', Cancel(k), n) && CleanStart(s', Exit(k), n)
  {
  }

  lemma {:induction false} NoHandlers(ms: seq<Monitor>, n: uint32)
    requires forall i | 0 <= i < |ms| :: ms[i].phase.Gone?
    ensures Handlers(ms, n) == 0
  {
    if ms != [] { NoHandlers(Front(ms), n); }
  }

  /** A container whose namespace finds no room in the scaling map; `k` samples are buffered. */
  ghost predicate CrowdedOut(s: State, n: uint32, k: uint32) {
    Crowded(s.tables, n, k)
  }

  lemma CrowdedStartsClean(lim: Limits, s: State, n: nat)
    requires n == MAX_ENTRIES && AllGone(s, n)
    ensures Enabled(s, Start(n)) && CleanStart(s, Start(n), n) && CrowdedOut(Next(lim, s, Start(n)), n, 0)
  {
    hide AddTables, Spent, Crowded;
    AddCrowds(s.tables, n);
    NoHandlers(s.monitors, n);
  }

  /** A started container in whose namespace every start was clean. */
  lemma {:induction false} CrowdedOutRun(lim: Limits, n: nat, k: uint32, universe: set<uint32>)
    returns (ss: seq<State>, actions: seq<Action>)
    requires n == MAX_ENTRIES && k < lim.bufferLength && Holds(universe, n + 1)
    ensures IsRun(lim, ss, actions) && StartsIn(actions, universe) && CrowdedOut(Last(ss), n, k)
    ensures CleanStarts(ss, actions, n, |actions|)
  {
    if k == 0 {
      assert n in universe && Holds(universe, n);
      hide StartsIn, CrowdedOut, Next, Enabled, CleanStart, CleanStarts, StepAt, AllGone, Holds;
      ss, actions := GoneRun(lim, n, n, universe);
      CrowdedStartsClean(lim, Last(ss), n);
      ss, actions := Extended(lim, ss, actions, universe, n, Start(n));
    } else {
      hide *;
      ss, actions := CrowdedOutRun(lim, n, k - 1, universe);
      ss, actions := CrowdedOutStep(lim, n, ss, actions, k, universe);
    }
  }

  lemma CrowdedPacket(lim: Limits, s: State, n: uint32, k: uint32)
    requires CrowdedOut(s, n, k) && k < lim.bufferLength
    ensures Enabled(s, Packet(n, false, true)) && CleanStart(s, Packet(n, false, true), n)
    ensures var s' := Next(lim, s, Packet(n, false, true));
      if k + 1 < lim.bufferLength then CrowdedOut(s', n, k + 1) else Tokens(s', n) >= 2
  {
    CallCrowds(s.tables, lim, n, k);
    RingTakes(s, Event(n, Lower), n);
    hide Crowded, ProbeTables;
  }

  lemma CrowdedOutStep(
      lim: Limits, n: nat, before: seq<State>, steps: seq<Action>, k: uint32, universe: set<uint32>)
    returns (ss: seq<State>, actions: seq<Action>)
    requires n == MAX_ENTRIES && 0 < k <= lim.bufferLength
    requires IsRun(lim, before, steps) && StartsIn(steps, universe) && CrowdedOut(Last(before), n, k - 1)
    requires CleanStarts(before, steps, n, |steps|)
    ensures IsRun(lim, ss, actions) && StartsIn(actions, universe)
    ensures if k < lim.bufferLength then CrowdedOut(Last(ss), n, k) else Tokens(Last(ss), n) >= 2
    ensures CleanStarts(ss, actions, n, |actions|)
  {
    hide StartsIn, CrowdedOut, Next, Enabled, CleanStart, CleanStarts, StepAt, Tokens;
    CrowdedPacket(lim, Last(before), n, k - 1);
    ss, actions := Extended(lim, before, steps, universe, n, Packet(n, false, true));
  }

  /** Past 1024 namespaces a clean start is not enough: the event of the 1025th namespace leaves it
      armed, so that it has two tokens. */
  lemma CrowdedDoublesToken(lim: Limits, n: nat, universe: set<uint32>)
    returns (ss: seq<State>, actions: seq<Action>)
    requires n == MAX_ENTRIES && lim.bufferLength >= 1 && Holds(universe, n + 1)
    ensures IsRun(lim, ss, actions) && StartsIn(actions, universe)
    ensures CleanStarts(ss, actions, n, |actions|) && Tokens(Last(ss), n) >= 2
  {
    hide *;
    ss, actions := CrowdedOutRun(lim, n, lim.bufferLength - 1, universe);
    ss, actions := CrowdedOutStep(lim, n, ss, actions, lim.bufferLength, universe);
  }

  ghost predicate AtMostOneThroughout(ss: seq<State>, n: uint32) {
    forall k | 0 <= k < |ss| :: AtMostOne(ss[k], n)
  }

  /** In all runs that start only namespaces of `universe`, clean starts mean at most one token. */
  ghost predicate CleanIsEnough(lim: Limits, universe: set<uint32>) {
    forall ss: seq<State>, actions: seq<Action>, n: uint32 |
        IsRun(lim, ss, actions) && StartsIn(actions, universe) && CleanStarts(ss, actions, n, |actions|) ::
      AtMostOneThroughout(ss, n)
  }

  lemma CleanIsEnoughWithRoom(lim: Limits, universe: set<uint32>)
    requires |universe| <= MAX_ENTRIES
    ensures CleanIsEnough(lim, universe)
  {
    forall ss: seq<State>, actions: seq<Action>, n: uint32 |
        IsRun(lim, ss, actions) && StartsIn(actions, universe) && CleanStarts(ss, actions, n, |actions|)
      ensures AtMostOneThroughout(ss, n)
    {
      AtMostOneToken(lim, ss, actions, universe, n, |actions|);
    }
  }

  /** Exactly: in all runs that ever start at most `n` namespaces clean starts mean at most one token
      if and only if `n` is at most 1024. */
  lemma CapacityExactly(lim: Limits, n: nat)
    requires lim.bufferLength >= 1
    ensures n <= 1024 <==> forall universe: set<uint32> | |universe| <= n :: CleanIsEnough(lim, universe)
  {
    if n <= MAX_ENTRIES {
      forall universe: set<uint32> | |universe| <= n ensures CleanIsEnough(lim, universe) {
        CleanIsEnoughWithRoom(lim, universe);
      }
    } else {
      var m := MAX_ENTRIES;
      var universe := FirstNamespaces(m + 1);
      var ss, actions := CrowdedDoublesToken(lim, m, universe);
      assert !AtMostOne(ss[|ss| - 1], m) && !AtMostOneThroughout(ss, m);
      assert !CleanIsEnough(lim, universe);
    }
  }
}
